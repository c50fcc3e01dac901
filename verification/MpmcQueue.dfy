/** The lock-free ring and the mutex-protected queue as classes, for one caller at a time,
    and their equivalence.  The lock-free class carries the protocol state of MpmcProtocol
    along as ghost fields: every atomic operation of its code is one protocol step. */
module MpmcQueue {
  import opened Words
  import opened MpmcProtocol
  import opened MpmcSimulation
  import opened MpmcTheorems
  import Runs
  import T = TicketQueue

  ghost predicate Next<V(!new)>(m: Machine<V>, a: Action<V>, m': Machine<V>) {
    Enabled(m, a) && m' == Step(Unbounded, m, a)
  }

  /** One thread and no ticket in its hands: refusal and unreadiness are exact. */
  lemma AtRest<V(!new)>(m: Machine<V>, q: T.State<V>)
    requires Inv(m, q) && |m.pcs| == 1 && !Owns(m.pcs[0])
    ensures T.Refuses(q) <==> m.tail - m.head == m.cap
    ensures T.NothingReady(q) <==> m.head == m.tail
  {
    forall k: nat | k < |q.phase|
      ensures q.phase[k].Full? || q.phase[k].Released?
    {
      assert OwnerOk(m, q, k);
    }
    T.RefusalIsExact(q);
  }

  /** The machine of a lone thread together with the queue it implements and its past. */
  ghost predicate Solo<V(!new)>(m0: Machine<V>, acts: seq<Action<V>>, m: Machine<V>, q: T.State<V>) {
    && Inv(m, q) && |m.pcs| == 1 && Runs.Leads(Next<V>, m0, acts, m)
    && m.cap >= 2 && |m.cells| == m.cap && q.head == m.head <= m.tail == |q.vals| == |q.phase|
  }

  lemma SoloMeans<V(!new)>(m0: Machine<V>, acts: seq<Action<V>>, m: Machine<V>, q: T.State<V>)
    requires Solo(m0, acts, m, q)
    ensures Inv(m, q) && Runs.Leads(Next<V>, m0, acts, m) && q.head == m.head <= m.tail == |q.vals|
  {
  }

  lemma Tick<V(!new)>(m0: Machine<V>, acts: seq<Action<V>>, m: Machine<V>, q: T.State<V>, a: Action<V>)
    requires Solo(m0, acts, m, q) && Enabled(m, a)
    ensures TicketEnabled(m, q, a)
    ensures Solo(m0, acts + [a], Step(Unbounded, m, a), Shadow(m, q, a))
  {
    Simulation(m, q, a);
    Runs.LeadsOn(Next<V>, m0, acts, m, a, Step(Unbounded, m, a));
  }

  lemma Begin<V(!new)>(m: Machine<V>, q: T.State<V>, a: Action<V>, pc: Pc<V>)
    requires Inv(m, q) && m.pcs == [Idle]
    requires (a == CallConsume(0) && pc == CStart) || (a.CallProduce? && a.t == 0 && pc == PStart(a.v))
    ensures Solo(m, [a], m.(pcs := [pc]), q)
  {
    assert Runs.Leads(Next<V>, m, [], m);
    Tick(m, [], m, q, a);
    assert [] + [a] == [a];
    assert m.(pcs := [pc]) == Step(Unbounded, m, a);
  }

  lemma WeakFailure<V(!new)>(m0: Machine<V>, acts: seq<Action<V>>, m: Machine<V>, q: T.State<V>, pc: Pc<V>)
    requires Solo(m0, acts, m, q)
    requires (m.pcs[0].PReady? && pc == PStart(m.pcs[0].v)) || (m.pcs[0].CReady? && pc == CStart)
    ensures Solo(m0, acts + [Cas(0, true)], m.(pcs := [pc]), q)
  {
    Tick(m0, acts, m, q, Cas(0, true));
    assert m.(pcs := [pc]) == Step(Unbounded, m, Cas(0, true));
  }

  /** Both loads of a lone producer: the difference is 0 or negative, never positive. */
  lemma LookPut<V(!new)>(m0: Machine<V>, acts: seq<Action<V>>, m: Machine<V>, q: T.State<V>, v: V)
    requires Solo(m0, acts, m, q) && m.pcs == [PStart(v)]
    ensures var seqno, room := m.cells[m.tail % m.cap].seqno, m.tail - m.head < m.cap;
      && (seqno == m.tail <==> room) && (seqno < m.tail <==> !room)
      && Solo(m0, acts + [LoadCounter(0, m.tail), LoadSeq(0)],
              m.(pcs := [if room then PReady(v, m.tail) else Idle]), q)
  {
    AtRest(m, q);
    ProducerSees(m, q, m.tail);
    Tick(m0, acts, m, q, LoadCounter(0, m.tail));
    var acts1, m1 := acts + [LoadCounter(0, m.tail)], m.(pcs := [PLoaded(v, m.tail)]);
    assert m1 == Step(Unbounded, m, acts1[|acts|]);
    Tick(m0, acts1, m1, q, LoadSeq(0));
    assert m.(pcs := [if m.tail - m.head < m.cap then PReady(v, m.tail) else Idle]) == Step(Unbounded, m1, LoadSeq(0));
    assert acts1 + [LoadSeq(0)] == acts + [LoadCounter(0, m.tail), LoadSeq(0)];
  }

  lemma LookGet<V(!new)>(m0: Machine<V>, acts: seq<Action<V>>, m: Machine<V>, q: T.State<V>)
    requires Solo(m0, acts, m, q) && m.pcs == [CStart]
    ensures var seqno, some := m.cells[m.head % m.cap].seqno, m.head < m.tail;
      && (seqno == m.head + 1 <==> some) && (seqno < m.head + 1 <==> !some)
      && Solo(m0, acts + [LoadCounter(0, m.head), LoadSeq(0)],
              m.(pcs := [if some then CReady(m.head) else Idle]), q)
  {
    AtRest(m, q);
    ConsumerSees(m, q, m.head);
    Tick(m0, acts, m, q, LoadCounter(0, m.head));
    var acts1, m1 := acts + [LoadCounter(0, m.head)], m.(pcs := [CLoaded(m.head)]);
    assert m1 == Step(Unbounded, m, acts1[|acts|]);
    Tick(m0, acts1, m1, q, LoadSeq(0));
    assert m.(pcs := [if m.head < m.tail then CReady(m.head) else Idle]) == Step(Unbounded, m1, LoadSeq(0));
    assert acts1 + [LoadSeq(0)] == acts + [LoadCounter(0, m.head), LoadSeq(0)];
  }

  lemma CopiedValue<V(!new)>(m: Machine<V>, q: T.State<V>)
    requires Inv(m, q) && |m.pcs| == 1 && m.pcs[0].CClaimed?
    ensures m.pcs[0].pos < |q.vals| && m.cells[m.pcs[0].pos % m.cap].data == q.vals[m.pcs[0].pos]
  {
    assert PcOk(m, q, 0);
    assert CellOk(m, q, m.pcs[0].pos);
  }

  /** Winning the ticket, writing the data, storing the sequence number. */
  lemma FinishPut<V(!new)>(m0: Machine<V>, acts: seq<Action<V>>, m: Machine<V>, q: T.State<V>, v: V)
    returns (q': T.State<V>)
    requires Solo(m0, acts, m, q) && m.pcs == [PReady(v, m.tail)]
    ensures var i, pos := m.tail % m.cap, m.tail;
      Solo(m0, acts + [Cas(0, false), CopyData(0), StoreSeq(0)],
           m.(tail := pos + 1, cells := m.cells[i := Cell(pos + 1, v)], pcs := [Idle],
              accepted := m.accepted + multiset{(pos, v)}), q')
    ensures q'.vals == q.vals + [v] && q'.head == q.head
  {
    hide Inv, Runs.Leads;
    var i, pos := m.tail % m.cap, m.tail;
    Tick(m0, acts, m, q, Cas(0, false));
    var m1 := m.(tail := pos + 1, pcs := [PClaimed(v, pos)]);
    assert m1 == Step(Unbounded, m, Cas(0, false));
    var q1 := Shadow(m, q, Cas(0, false));
    Tick(m0, acts + [Cas(0, false)], m1, q1, CopyData(0));
    var m2 := m1.(cells := m.cells[i := m.cells[i].(data := v)], pcs := [PWritten(v, pos)]);
    assert m2 == Step(Unbounded, m1, CopyData(0));
    Tick(m0, acts + [Cas(0, false)] + [CopyData(0)], m2, q1, StoreSeq(0));
    q' := Shadow(m2, q1, StoreSeq(0));
    assert m2.cells[i := Cell(pos + 1, v)] == m.cells[i := Cell(pos + 1, v)];
    assert m.(tail := pos + 1, cells := m.cells[i := Cell(pos + 1, v)], pcs := [Idle],
              accepted := m.accepted + multiset{(pos, v)}) == Step(Unbounded, m2, StoreSeq(0));
    assert acts + [Cas(0, false)] + [CopyData(0)] + [StoreSeq(0)] == acts + [Cas(0, false), CopyData(0), StoreSeq(0)];
  }

  lemma FinishGet<V(!new)>(m0: Machine<V>, acts: seq<Action<V>>, m: Machine<V>, q: T.State<V>)
    returns (q': T.State<V>)
    requires Solo(m0, acts, m, q) && m.pcs == [CReady(m.head)]
    ensures var i, pos := m.head % m.cap, m.head;
      && pos < |q.vals| && m.cells[i].data == q.vals[pos]
      && Solo(m0, acts + [Cas(0, false), CopyData(0), StoreSeq(0)],
              m.(head := pos + 1, cells := m.cells[i := m.cells[i].(seqno := pos + m.cap)], pcs := [Idle],
                 returned := m.returned + multiset{(pos, q.vals[pos])}), q')
    ensures q'.vals == q.vals && q'.head == q.head + 1
  {
    hide Inv, Runs.Leads;
    var i, pos := m.head % m.cap, m.head;
    Tick(m0, acts, m, q, Cas(0, false));
    var m1 := m.(head := pos + 1, pcs := [CClaimed(pos)]);
    assert m1 == Step(Unbounded, m, Cas(0, false));
    var q1 := Shadow(m, q, Cas(0, false));
    CopiedValue(m1, q1);
    Tick(m0, acts + [Cas(0, false)], m1, q1, CopyData(0));
    var m2 := m1.(pcs := [CCopied(pos, q.vals[pos])]);
    assert m2 == Step(Unbounded, m1, CopyData(0));
    Tick(m0, acts + [Cas(0, false)] + [CopyData(0)], m2, q1, StoreSeq(0));
    q' := Shadow(m2, q1, StoreSeq(0));
    assert m.(head := pos + 1, cells := m.cells[i := m.cells[i].(seqno := pos + m.cap)], pcs := [Idle],
              returned := m.returned + multiset{(pos, q.vals[pos])}) == Step(Unbounded, m2, StoreSeq(0));
    assert acts + [Cas(0, false)] + [CopyData(0)] + [StoreSeq(0)] == acts + [Cas(0, false), CopyData(0), StoreSeq(0)];
  }

  class MpmcQueue<V(0,==,!new)> {
    var head: nat
    var tail: nat
    const capacity: nat
    const mask: nat
    const seqs: array<nat>
    const data: array<V>
    ghost var m: Machine<V>
    ghost var q: T.State<V>

    /** The fields are a protocol state. */
    ghost predicate Mirrors()
      reads this, seqs, data
    {
      && seqs.Length == data.Length == capacity == m.cap == |m.cells| && mask == capacity - 1
      && (seqs as object) != (data as object) && IsPow2(capacity)
      && head == m.head && tail == m.tail
      && (forall i :: 0 <= i < capacity ==> m.cells[i] == Cell(seqs[i], data[i]))
    }

    ghost predicate Valid()
      reads this, seqs, data
    {
      Mirrors() && Inv(m, q) && m.pcs == [Idle]
    }

    ghost function Contents(): seq<V>
      reads this, seqs, data
      requires Valid()
    {
      q.Contents()
    }

    constructor (n: nat)
      requires n <= HALF
      ensures n >= 2 ==> Valid() && Contents() == []
      ensures fresh(seqs) && fresh(data) && seqs.Length == data.Length == capacity && mask == capacity - 1
      ensures head == tail == 0 && forall i :: 0 <= i < capacity ==> seqs[i] == i
      ensures IsPow2(capacity) && n <= capacity
      ensures forall j: nat :: n <= Pow2(j) ==> capacity <= Pow2(j)
    {
      var cap := RoundUpPow2(n);
      var s, d := new nat[cap], new V[cap];
      for i := 0 to cap
        invariant forall j :: 0 <= j < i ==> s[j] == j
      {
        s[i] := i;
      }
      capacity, mask, seqs, data := cap, cap - 1, s, d;
      head, tail := 0, 0;
      m := Machine(cap, 0, 0, seq(cap, i requires 0 <= i < cap reads s, d => Cell(s[i], d[i])), [Idle],
                   multiset{}, multiset{});
      q := T.Init(cap);
      new;
      if n >= 2 {
        InitInv(m);
      }
    }

    /** produce; `weak` compare-exchanges fail spuriously.  The call is the protocol run `acts`. */
    method Produce(v: V, weak: nat) returns (ok: bool, ghost acts: seq<Action<V>>)
      requires Valid()
      modifies this, seqs, data
      ensures Valid() && Runs.Leads(Next<V>, old(m), acts, m)
      ensures ok <==> |old(Contents())| < capacity
      ensures Contents() == if ok then old(Contents()) + [v] else old(Contents())
    {
      hide Inv, Runs.Leads, Next, And, Solo;
      var left := weak;
      Begin(m, q, CallProduce(0, v), PStart(v));
      acts, m := [CallProduce(0, v)], m.(pcs := [PStart(v)]);
      while true
        invariant Mirrors() && m.pcs == [PStart(v)] && q == old(q) && Solo(old(m), acts, m, q)
        decreases left
      {
        SoloMeans(old(m), acts, m, q);
        var pos := tail;
        var i := And(pos, mask);
        IndexAgrees(pos, capacity);
        var seqno := seqs[i];
        var diff := seqno - pos;
        LookPut(old(m), acts, m, q, v);
        acts := acts + [LoadCounter(0, pos), LoadSeq(0)];
        m := m.(pcs := [if pos - head < capacity then PReady(v, pos) else Idle]);
        if diff == 0 {
          if left > 0 {
            left := left - 1;
            WeakFailure(old(m), acts, m, q, PStart(v));
            acts, m := acts + [Cas(0, true)], m.(pcs := [PStart(v)]);
          } else if tail == pos {
            acts := Put(pos, i, v, old(m), acts);
            return true, acts;
          }
        } else if diff < 0 {
          SoloMeans(old(m), acts, m, q);
          return false, acts;
        } else {
          assert false;  // another thread would have to be ahead
        }
      }
    }

    /** The compare-exchange on tail succeeds: the ticket is ours, then data and sequence number. */
    method Put(pos: nat, i: nat, v: V, ghost m0: Machine<V>, ghost before: seq<Action<V>>)
      returns (ghost acts: seq<Action<V>>)
      requires Mirrors() && Solo(m0, before, m, q) && m.pcs == [PReady(v, pos)]
      requires pos == tail && i == pos % capacity < capacity
      modifies this, seqs, data
      ensures Valid() && Runs.Leads(Next<V>, m0, acts, m)
      ensures q.vals == old(q).vals + [v] && q.head == old(q).head
    {
      hide Inv, Runs.Leads, Next, Solo;
      ghost var q' := FinishPut(m0, before, m, q, v);
      tail := pos + 1;
      data[i] := v;
      seqs[i] := pos + 1;
      acts, q := before + [Cas(0, false), CopyData(0), StoreSeq(0)], q';
      m := m.(tail := pos + 1, cells := m.cells[i := Cell(pos + 1, v)], pcs := [Idle],
              accepted := m.accepted + multiset{(pos, v)});
      SoloMeans(m0, acts, m, q);
    }

    /** consume; `weak` compare-exchanges fail spuriously.  `out` is `before` unless ok. */
    method Consume(before: V, weak: nat) returns (ok: bool, out: V, ghost acts: seq<Action<V>>)
      requires Valid()
      modifies this, seqs, data
      ensures Valid() && Runs.Leads(Next<V>, old(m), acts, m)
      ensures ok <==> old(Contents()) != []
      ensures ok ==> out == old(Contents())[0] && Contents() == old(Contents())[1..]
      ensures !ok ==> out == before && Contents() == old(Contents())
    {
      hide Inv, Runs.Leads, And, Solo;
      out := before;
      var left := weak;
      Begin(m, q, CallConsume(0), CStart);
      acts, m := [CallConsume(0)], m.(pcs := [CStart]);
      while true
        invariant Mirrors() && m.pcs == [CStart] && q == old(q) && Solo(old(m), acts, m, q) && out == before
        decreases left
      {
        SoloMeans(old(m), acts, m, q);
        var pos := head;
        var i := And(pos, mask);
        IndexAgrees(pos, capacity);
        var seqno := seqs[i];
        var diff := seqno - (pos + 1);
        LookGet(old(m), acts, m, q);
        acts, m := acts + [LoadCounter(0, pos), LoadSeq(0)], m.(pcs := [if pos < tail then CReady(pos) else Idle]);
        if diff == 0 {
          if left > 0 {
            left := left - 1;
            WeakFailure(old(m), acts, m, q, CStart);
            acts, m := acts + [Cas(0, true)], m.(pcs := [CStart]);
          } else if head == pos {
            out, acts := Get(pos, i, old(m), acts);
            return true, out, acts;
          }
        } else if diff < 0 {
          SoloMeans(old(m), acts, m, q);
          return false, out, acts;
        } else {
          assert false;  // another thread would have to be ahead
        }
      }
    }

    /** The compare-exchange on head succeeds: the value is ours, then the cell is given back. */
    method Get(pos: nat, i: nat, ghost m0: Machine<V>, ghost before: seq<Action<V>>)
      returns (out: V, ghost acts: seq<Action<V>>)
      requires Mirrors() && Solo(m0, before, m, q) && m.pcs == [CReady(pos)]
      requires pos == head && i == pos % capacity < capacity
      modifies this, seqs, data
      ensures Valid() && Runs.Leads(Next<V>, m0, acts, m)
      ensures old(q).head < |old(q).vals| && out == old(q).vals[old(q).head]
      ensures q.vals == old(q).vals && q.head == old(q).head + 1
    {
      hide Inv, Runs.Leads, Next, Solo;
      ghost var q' := FinishGet(m0, before, m, q);
      head := pos + 1;
      out := data[i];
      seqs[i] := pos + capacity;
      acts := before + [Cas(0, false), CopyData(0), StoreSeq(0)];
      m := m.(head := pos + 1, cells := m.cells[i := m.cells[i].(seqno := pos + m.cap)], pcs := [Idle],
              returned := m.returned + multiset{(pos, q.vals[pos])});
      q := q';
      SoloMeans(m0, acts, m, q);
    }
  }

  /** The reference queue: a bounded deque behind a mutex. */
  class MutexQueue<V> {
    var q: seq<V>
    const cap: nat

    constructor (cap: nat)
      ensures this.cap == cap && q == []
    {
      this.cap := cap;
      q := [];
    }

    method Produce(v: V) returns (ok: bool)
      modifies this
      ensures ok <==> |old(q)| < cap
      ensures q == if ok then old(q) + [v] else old(q)
    {
      if |q| >= cap {
        return false;
      }
      q := q + [v];
      return true;
    }

    method Consume(before: V) returns (ok: bool, out: V)
      modifies this
      ensures ok <==> old(q) != []
      ensures ok ==> out == old(q)[0] && q == old(q)[1..]
      ensures !ok ==> out == before && q == old(q)
    {
      if q == [] {
        return false, before;
      }
      out := q[0];
      q := q[1..];
      return true, out;
    }
  }

  datatype Call<V> = Put(v: V, weak: nat) | Get(weak: nat)
  datatype Reply<V> = Accepted | Refused | Got(v: V) | Nothing

  /** One call on a bounded FIFO of capacity cap with contents c: the new contents and the reply. */
  function After<V>(call: Call<V>, cap: nat, c: seq<V>): (seq<V>, Reply<V>) {
    match call
    case Put(v, _) => if |c| < cap then (c + [v], Accepted) else (c, Refused)
    case Get(_) => if c != [] then (c[1..], Got(c[0])) else (c, Nothing)
  }

  function Replies<V>(calls: seq<Call<V>>, cap: nat, c: seq<V>): seq<Reply<V>> {
    if calls == [] then [] else
      var (c', r) := After(calls[0], cap, c);
      [r] + Replies(calls[1..], cap, c')
  }

  function PutIn<V>(calls: seq<Call<V>>, rs: seq<Reply<V>>): seq<V>
    requires |calls| == |rs|
  {
    if calls == [] then [] else
      (if rs[0].Accepted? && calls[0].Put? then [calls[0].v] else []) + PutIn(calls[1..], rs[1..])
  }

  function TakenOut<V>(rs: seq<Reply<V>>): seq<V> {
    if rs == [] then [] else (if rs[0].Got? then [rs[0].v] else []) + TakenOut(rs[1..])
  }

  /** First in, first out: what was taken is a prefix of what was there plus what was put in. */
  lemma {:induction false} FirstInFirstOut<V>(calls: seq<Call<V>>, cap: nat, c: seq<V>)
    ensures |Replies(calls, cap, c)| == |calls|
    ensures TakenOut(Replies(calls, cap, c)) <= c + PutIn(calls, Replies(calls, cap, c))
    ensures |c| <= cap ==> |c| + |PutIn(calls, Replies(calls, cap, c))| <= cap + |TakenOut(Replies(calls, cap, c))|
  {
    if calls != [] {
      var (c', r) := After(calls[0], cap, c);
      var rest := Replies(calls[1..], cap, c');
      FirstInFirstOut(calls[1..], cap, c');
      var put, taken := PutIn(calls[1..], rest), TakenOut(rest);
      assert Replies(calls, cap, c) == [r] + rest && ([r] + rest)[1..] == rest;
      assert TakenOut([r] + rest) == (if r.Got? then [r.v] else []) + taken;
      assert PutIn(calls, [r] + rest) == (if r.Accepted? then [calls[0].v] else []) + put;
      if r.Got? {
        assert c + put == [r.v] + (c' + put);
      } else if r.Accepted? {
        assert c + ([calls[0].v] + put) == c' + put;
      }
    }
  }

  method OnRing<V(0,==,!new)>(a: MpmcQueue<V>, call: Call<V>, blank: V) returns (r: Reply<V>)
    requires a.Valid()
    modifies a, a.seqs, a.data
    ensures a.Valid() && (a.Contents(), r) == After(call, a.capacity, old(a.Contents()))
  {
    hide Inv;
    match call {
      case Put(v, weak) =>
        var ok, _ := a.Produce(v, weak);
        r := if ok then Accepted else Refused;
      case Get(weak) =>
        var ok, out, _ := a.Consume(blank, weak);
        r := if ok then Got(out) else Nothing;
    }
  }

  method OnMutex<V>(b: MutexQueue<V>, call: Call<V>, blank: V) returns (r: Reply<V>)
    modifies b
    ensures (b.q, r) == After(call, b.cap, old(b.q))
  {
    match call {
      case Put(v, _) =>
        var ok := b.Produce(v);
        r := if ok then Accepted else Refused;
      case Get(_) =>
        var ok, out := b.Consume(blank);
        r := if ok then Got(out) else Nothing;
    }
  }

  /** Any sequence of calls gets the same replies from the lock-free ring built for n and from
      the mutex queue of the rounded capacity, namely those of a bounded FIFO. */
  method Lockstep<V(0,==,!new)>(n: nat, calls: seq<Call<V>>, blank: V)
    returns (cap: nat, ring: seq<Reply<V>>, mutex: seq<Reply<V>>)
    requires 2 <= n <= HALF
    ensures IsPow2(cap) && n <= cap && forall j: nat :: n <= Pow2(j) ==> cap <= Pow2(j)
    ensures ring == mutex == Replies(calls, cap, [])
  {
    hide Inv;
    var a := new MpmcQueue<V>(n);
    cap := a.capacity;
    var b := new MutexQueue<V>(cap);
    ring, mutex := [], [];
    for i := 0 to |calls|
      invariant a.Valid() && a.capacity == cap == b.cap && fresh(a) && fresh(b) && fresh(a.seqs) && fresh(a.data)
      invariant a.Contents() == b.q
      invariant ring == mutex && ring + Replies(calls[i..], cap, b.q) == Replies(calls, cap, [])
    {
      assert calls[i..][0] == calls[i] && calls[i..][1..] == calls[i + 1..];
      ghost var (c, r) := After(calls[i], cap, b.q);
      assert Replies(calls[i..], cap, b.q) == [r] + Replies(calls[i + 1..], cap, c);
      var r1 := OnRing(a, calls[i], blank);
      var r2 := OnMutex(b, calls[i], blank);
      ring, mutex := ring + [r1], mutex + [r2];
    }
    assert calls[|calls|..] == [];
  }
}
