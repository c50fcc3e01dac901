/** What holds in every run of the slot protocol: any number of threads, any interleaving,
    stale relaxed counter loads and spurious compare-exchange failures included. */
module MpmcTheorems {
  import opened Words
  import opened MpmcProtocol
  import opened MpmcSimulation
  import T = TicketQueue

  /** The ticket queue makes step a, or stands still. */
  ghost predicate TicketMove<V>(q: T.State<V>, q': T.State<V>, b: seq<T.Action<V>>)
  {
    |q.phase| == |q.vals| && if b == [] then q' == q else T.Enabled(q, b[0]) && q' == T.Step(q, b[0])
  }

  lemma RunPrefix<V(!new)>(ar: Arith, ms: seq<Machine<V>>, acts: seq<Action<V>>, n: nat)
    requires Run(ar, ms, acts) && n <= |acts|
    ensures Run(ar, ms[..n + 1], acts[..n])
  {
  }

  lemma InitInv<V(!new)>(m: Machine<V>)
    requires Init(m) && m.cap >= 2
    ensures Inv(m, T.Init(m.cap))
  {
    var q: T.State<V> := T.Init(m.cap);
    forall k: int {:trigger CellOk(m, q, k)} | 0 - m.cap <= k < 0
      ensures CellOk(m, q, k)
    {
      DivModUnique(k, m.cap, -1, k + m.cap);
    }
  }

  lemma RunStep<V(!new)>(ms: seq<Machine<V>>, acts: seq<Action<V>>, i: nat)
    requires Run(Unbounded, ms, acts) && i < |acts|
    ensures |ms| == |acts| + 1 && Enabled(ms[i], acts[i]) && ms[i + 1] == Step(Unbounded, ms[i], acts[i])
  {
  }

  lemma RunLength<V(!new)>(ms: seq<Machine<V>>, acts: seq<Action<V>>)
    requires Run(Unbounded, ms, acts)
    ensures |ms| == |acts| + 1
  {
  }

  /** Refinement: every run is accompanied by a run of the ticket queue. */
  lemma {:induction false} Refines<V(!new)>(ms: seq<Machine<V>>, acts: seq<Action<V>>) returns (qs: seq<T.State<V>>)
    requires Run(Unbounded, ms, acts) && ms[0].cap >= 2
    ensures |qs| == |ms| && qs[0] == T.Init(ms[0].cap)
    ensures forall i :: 0 <= i < |ms| ==> Inv(ms[i], qs[i])
    ensures forall i :: 0 <= i < |acts| ==> TicketMove(qs[i], qs[i + 1], Ticket(ms[i], acts[i]))
    decreases |acts|
  {
    hide Inv, Init, Step, T.Step, T.Enabled, Ticket;
    var n := |acts|;
    if n == 0 {
      qs := [T.Init(ms[0].cap)];
      InitInv(ms[0]);
    } else {
      RunPrefix(Unbounded, ms, acts, n - 1);
      var before := Refines(ms[..n], acts[..n - 1]);
      Simulation(ms[n - 1], before[n - 1], acts[n - 1]);
      qs := before + [Shadow(ms[n - 1], before[n - 1], acts[n - 1])];
      assert Inv(ms[n], qs[n]);
      forall i | 0 <= i < n
        ensures TicketMove(qs[i], qs[i + 1], Ticket(ms[i], acts[i]))
      {
        if i < n - 1 {
          assert qs[i] == before[i] && qs[i + 1] == before[i + 1];
        }
      }
    }
  }

  lemma InvAt<V(!new)>(ms: seq<Machine<V>>, acts: seq<Action<V>>, i: nat) returns (q: T.State<V>)
    requires Run(Unbounded, ms, acts) && ms[0].cap >= 2 && i < |ms|
    ensures Inv(ms[i], q)
  {
    var qs := Refines(ms, acts);
    q := qs[i];
  }

  /** Some call that returned true is on record for ticket k. */
  ghost predicate Has<V(!new)>(log: multiset<(nat, V)>, k: nat) {
    exists v: V :: (k, v) in log
  }

  ghost predicate AllIdle<V>(m: Machine<V>) {
    forall t :: 0 <= t < |m.pcs| ==> m.pcs[t].Idle?
  }

  /** A consume has claimed ticket k and not returned yet. */
  ghost predicate InConsume<V>(m: Machine<V>, k: nat) {
    exists t :: 0 <= t < |m.pcs| && (m.pcs[t].CClaimed? || m.pcs[t].CCopied?) && m.pcs[t].pos == k
  }

  /** A produce has claimed ticket k and not returned yet. */
  ghost predicate InProduce<V>(m: Machine<V>, k: nat) {
    exists t :: 0 <= t < |m.pcs| && (m.pcs[t].PClaimed? || m.pcs[t].PWritten?) && m.pcs[t].pos == k
  }

  lemma Multiplicities<V(!new)>(m: Machine<V>, q: T.State<V>)
    requires Inv(m, q)
    ensures m.returned <= m.accepted
    ensures forall k: nat, v: V :: m.accepted[(k, v)] <= 1
    ensures forall k: nat, v: V, w: V :: (k, v) in m.accepted && (k, w) in m.accepted ==> v == w
    ensures forall k: nat, v: V :: (k, v) in m.returned ==> k < m.head
  {
    forall p: (nat, V)
      ensures m.returned[p] <= m.accepted[p]
    {
      var (k, v) := p;
      assert m.accepted[(k, v)] == Bit(Published(q, k, v));
      assert m.returned[(k, v)] == Bit(GivenBack(q, k, v));
    }
    forall k: nat, v: V
      ensures (k, v) in m.returned ==> k < m.head
      ensures (k, v) in m.accepted ==> k < m.tail && v == q.vals[k]
    {
      assert m.accepted[(k, v)] == Bit(Published(q, k, v));
      assert m.returned[(k, v)] == Bit(GivenBack(q, k, v));
    }
  }

  lemma ReturnedBelowHead<V(!new)>(m: Machine<V>, q: T.State<V>, k: nat)
    requires Inv(m, q)
    ensures Has(m.returned, k) ==> k < m.head
  {
    Multiplicities(m, q);
  }

  lemma ReturnedOrNot<V(!new)>(m: Machine<V>, q: T.State<V>, k: nat)
    requires Inv(m, q) && k < m.tail
    ensures Has(m.returned, k) <==> q.phase[k].Released?
  {
    assert m.returned[(k, q.vals[k])] == Bit(GivenBack(q, k, q.vals[k]));
    forall v: V | (k, v) in m.returned
      ensures q.phase[k].Released?
    {
      assert m.returned[(k, v)] == Bit(GivenBack(q, k, v));
    }
  }

  lemma AcceptedOrNot<V(!new)>(m: Machine<V>, q: T.State<V>, k: nat)
    requires Inv(m, q)
    ensures Has(m.accepted, k) <==> k < m.tail && !q.phase[k].Writing?
  {
    if k < m.tail {
      assert m.accepted[(k, q.vals[k])] == Bit(Published(q, k, q.vals[k]));
    }
    forall v: V | (k, v) in m.accepted
      ensures k < m.tail && !q.phase[k].Writing?
    {
      assert m.accepted[(k, v)] == Bit(Published(q, k, v));
    }
  }

  lemma TicketsSplit<V(!new)>(m: Machine<V>, q: T.State<V>, k: nat)
    requires Inv(m, q)
    ensures k < m.head <==> Has(m.returned, k) || InConsume(m, k)
    ensures k < m.tail <==> Has(m.accepted, k) || InProduce(m, k)
  {
    hide Has, LogsOk, CellsOk;
    AcceptedOrNot(m, q, k);
    ReturnedBelowHead(m, q, k);
    if k < m.tail {
      ReturnedOrNot(m, q, k);
      assert OwnerOk(m, q, k);
    }
    forall t | 0 <= t < |m.pcs| && Owns(m.pcs[t]) && m.pcs[t].pos == k
      ensures k < m.tail && (q.phase[k].Reading? || q.phase[k].Writing?)
      ensures q.phase[k].Reading? <==> m.pcs[t].CClaimed? || m.pcs[t].CCopied?
    {
      assert PcOk(m, q, t);
    }
  }

  /** Tickets 0 to n - 1 with their values. */
  ghost function Tagged<V>(vals: seq<V>, n: nat): multiset<(nat, V)>
    requires n <= |vals|
  {
    if n == 0 then multiset{} else Tagged(vals, n - 1) + multiset{(n - 1, vals[n - 1])}
  }

  lemma {:induction false} TaggedCount<V(!new)>(vals: seq<V>, n: nat)
    requires n <= |vals|
    ensures |Tagged(vals, n)| == n
    ensures forall k: nat, v: V :: Tagged(vals, n)[(k, v)] == Bit(k < n && vals[k] == v)
  {
    if n > 0 {
      TaggedCount(vals, n - 1);
    }
  }

  lemma IdleCounts<V(!new)>(m: Machine<V>, q: T.State<V>)
    requires Inv(m, q) && T.Quiet(q)
    ensures |m.returned| == m.head && |m.accepted| == m.tail
  {
    TaggedCount(q.vals, m.tail);
    TaggedCount(q.vals, m.head);
    forall p: (nat, V)
      ensures m.accepted[p] == Tagged(q.vals, m.tail)[p]
      ensures m.returned[p] == Tagged(q.vals, m.head)[p]
    {
      var (k, v) := p;
      assert m.accepted[(k, v)] == Bit(Published(q, k, v));
      assert m.returned[(k, v)] == Bit(GivenBack(q, k, v));
    }
    assert m.accepted == Tagged(q.vals, m.tail);
    assert m.returned == Tagged(q.vals, m.head);
  }

  lemma IdleIsQuiet<V(!new)>(m: Machine<V>, q: T.State<V>)
    requires Inv(m, q) && AllIdle(m)
    ensures T.Quiet(q)
  {
    forall k: nat | k < m.tail
      ensures q.phase[k].Full? || q.phase[k].Released?
    {
      assert OwnerOk(m, q, k);
    }
  }

  /** Exactly once, by ticket.  At every moment the tickets below head are those returned and
      those of consumes in flight, the tickets below tail those accepted and those of produces
      in flight.  No ticket is accepted or returned twice, a returned value is
      the one accepted under the same ticket, and with all calls finished the returned
      tickets are those below head and the accepted ones those below tail, one record each. */
  lemma ExactlyOnce<V(!new)>(ms: seq<Machine<V>>, acts: seq<Action<V>>, i: nat)
    requires Run(Unbounded, ms, acts) && ms[0].cap >= 2 && i < |ms|
    ensures ms[i].returned <= ms[i].accepted
    ensures forall k: nat, v: V :: ms[i].accepted[(k, v)] <= 1
    ensures forall k: nat, v: V, w: V :: (k, v) in ms[i].accepted && (k, w) in ms[i].accepted ==> v == w
    ensures forall k: nat :: k < ms[i].head <==> Has(ms[i].returned, k) || InConsume(ms[i], k)
    ensures forall k: nat :: k < ms[i].tail <==> Has(ms[i].accepted, k) || InProduce(ms[i], k)
    ensures AllIdle(ms[i]) ==>
      && (forall k: nat :: k < ms[i].head <==> Has(ms[i].returned, k))
      && (forall k: nat :: k < ms[i].tail <==> Has(ms[i].accepted, k))
      && |ms[i].returned| == ms[i].head && |ms[i].accepted| == ms[i].tail
  {
    var m := ms[i];
    var q := InvAt(ms, acts, i);
    Multiplicities(m, q);
    forall k: nat
      ensures k < m.head <==> Has(m.returned, k) || InConsume(m, k)
      ensures k < m.tail <==> Has(m.accepted, k) || InProduce(m, k)
    {
      TicketsSplit(m, q, k);
    }
    if AllIdle(m) {
      IdleIsQuiet(m, q);
      IdleCounts(m, q);
    }
  }

  lemma OwnersApart<V(!new)>(m: Machine<V>, q: T.State<V>, t: nat, u: nat)
    requires Inv(m, q) && t < u < |m.pcs| && Owns(m.pcs[t]) && Owns(m.pcs[u])
    ensures m.pcs[t].pos % m.cap != m.pcs[u].pos % m.cap
  {
    assert PcOk(m, q, t) && PcOk(m, q, u);
    ModWindow(m.pcs[t].pos, m.pcs[u].pos, m.cap);
  }

  lemma CheckStillHolds<V(!new)>(m: Machine<V>, q: T.State<V>, t: nat)
    requires Inv(m, q) && t < |m.pcs|
    ensures m.pcs[t].PReady? && m.pcs[t].pos == m.tail ==> m.cells[m.tail % m.cap].seqno == m.tail
    ensures m.pcs[t].CReady? && m.pcs[t].pos == m.head ==> m.cells[m.head % m.cap].seqno == m.head + 1
  {
    assert PcOk(m, q, t);
    if m.pcs[t].PReady? && m.pcs[t].pos == m.tail {
      ModShift(m.tail, m.cap, -1);
      assert CellOk(m, q, m.tail - m.cap);
    }
    if m.pcs[t].CReady? && m.pcs[t].pos == m.head {
      assert CellOk(m, q, m.head);
    }
  }

  lemma {:induction false} CapacityConstant<V(!new)>(ms: seq<Machine<V>>, acts: seq<Action<V>>, i: nat)
    requires Run(Unbounded, ms, acts) && i < |ms|
    ensures ms[i].cap == ms[0].cap && |ms[i].pcs| == |ms[0].pcs|
  {
    if i > 0 {
      CapacityConstant(ms, acts, i - 1);
      assert ms[i] == Step(Unbounded, ms[i - 1], acts[i - 1]);
    }
  }

  /** Slot ownership and no ABA: the ring never over- or underfills, two calls in flight never
      touch the same cell, and a compare-exchange that would succeed still finds the sequence
      number that was checked before it. */
  lemma SlotOwnership<V(!new)>(ms: seq<Machine<V>>, acts: seq<Action<V>>, i: nat)
    requires Run(Unbounded, ms, acts) && ms[0].cap >= 2 && i < |ms|
    ensures var m := ms[i];
      && |m.cells| == m.cap == ms[0].cap && m.head <= m.tail <= m.head + m.cap
      && (forall t, u :: 0 <= t < u < |m.pcs| && Owns(m.pcs[t]) && Owns(m.pcs[u]) ==>
            m.pcs[t].pos % m.cap != m.pcs[u].pos % m.cap)
      && (forall t :: 0 <= t < |m.pcs| && m.pcs[t].PReady? && m.pcs[t].pos == m.tail ==>
            m.cells[m.tail % m.cap].seqno == m.tail)
      && (forall t :: 0 <= t < |m.pcs| && m.pcs[t].CReady? && m.pcs[t].pos == m.head ==>
            m.cells[m.head % m.cap].seqno == m.head + 1)
  {
    var m := ms[i];
    var q := InvAt(ms, acts, i);
    CapacityConstant(ms, acts, i);
    forall t, u | 0 <= t < u < |m.pcs| && Owns(m.pcs[t]) && Owns(m.pcs[u])
      ensures m.pcs[t].pos % m.cap != m.pcs[u].pos % m.cap
    {
      OwnersApart(m, q, t, u);
    }
    forall t | 0 <= t < |m.pcs|
      ensures m.pcs[t].PReady? && m.pcs[t].pos == m.tail ==> m.cells[m.tail % m.cap].seqno == m.tail
      ensures m.pcs[t].CReady? && m.pcs[t].pos == m.head ==> m.cells[m.head % m.cap].seqno == m.head + 1
    {
      CheckStillHolds(m, q, t);
    }
  }

  lemma StepMonotone<V(!new)>(m: Machine<V>, q: T.State<V>, a: Action<V>)
    requires Inv(m, q) && Enabled(m, a)
    ensures var m' := Step(Unbounded, m, a);
      && m.head <= m'.head && m.tail <= m'.tail && |m.cells| == |m'.cells|
      && forall c :: 0 <= c < |m.cells| ==> m.cells[c].seqno <= m'.cells[c].seqno
  {
    if a.StoreSeq? {
      assert PcOk(m, q, a.t);
      assert CellOk(m, q, m.pcs[a.t].pos);
    }
  }

  /** Counters and sequence numbers never go back. */
  lemma {:induction false} Monotone<V(!new)>(ms: seq<Machine<V>>, acts: seq<Action<V>>, i: nat, j: nat)
    requires Run(Unbounded, ms, acts) && ms[0].cap >= 2 && i <= j < |ms|
    ensures ms[i].head <= ms[j].head && ms[i].tail <= ms[j].tail && |ms[i].cells| == |ms[j].cells|
    ensures forall c :: 0 <= c < |ms[i].cells| ==> ms[i].cells[c].seqno <= ms[j].cells[c].seqno
    decreases j
  {
    hide Inv, Init, Step;
    if i < j {
      Monotone(ms, acts, i, j - 1);
      var q := InvAt(ms, acts, j - 1);
      StepMonotone(ms[j - 1], q, acts[j - 1]);
    }
  }

  /** Real-time order: a ticket claimed after a produce has returned comes after that
      produce's ticket, and a ticket taken after a consume has returned comes after its. */
  lemma RealTimeOrder<V(!new)>(ms: seq<Machine<V>>, acts: seq<Action<V>>, i: nat, j: nat)
    requires Run(Unbounded, ms, acts) && ms[0].cap >= 2 && i < j < |acts|
    requires acts[i].StoreSeq? && acts[j].Cas? && Ticket(ms[j], acts[j]) != []
    ensures ms[i].pcs[acts[i].t].PWritten? && ms[j].pcs[acts[j].t].PReady? ==>
      ms[i].pcs[acts[i].t].pos < ms[j].pcs[acts[j].t].pos
    ensures ms[i].pcs[acts[i].t].CCopied? && ms[j].pcs[acts[j].t].CReady? ==>
      ms[i].pcs[acts[i].t].pos < ms[j].pcs[acts[j].t].pos
  {
    var q := InvAt(ms, acts, i);
    assert PcOk(ms[i], q, acts[i].t);
    Monotone(ms, acts, i, j);
  }

  predicate TakesInFlight<V>(m: Machine<V>) {
    exists t :: 0 <= t < |m.pcs| && (m.pcs[t].CClaimed? || m.pcs[t].CCopied?)
  }

  predicate ClaimsInFlight<V>(m: Machine<V>) {
    exists t :: 0 <= t < |m.pcs| && (m.pcs[t].PClaimed? || m.pcs[t].PWritten?)
  }

  lemma NoReaders<V(!new)>(m: Machine<V>, q: T.State<V>)
    requires Inv(m, q) && !TakesInFlight(m)
    ensures forall k :: 0 <= k < |q.phase| ==> !q.phase[k].Reading?
  {
    forall k: nat | k < |q.phase|
      ensures !q.phase[k].Reading?
    {
      assert OwnerOk(m, q, k);
    }
  }

  /** What `false` from produce means: at the sequence load the tail still equals the loaded
      position and the ticket one lap behind has not been returned by any consume - and in
      exactly these states the load leads to `false`.  If moreover no consume is between
      winning its ticket and storing the sequence number, the queue is exactly full. */
  lemma ProduceFailure<V(!new)>(ms: seq<Machine<V>>, acts: seq<Action<V>>, i: nat)
    requires Run(Unbounded, ms, acts) && ms[0].cap >= 2 && i < |acts|
    requires acts[i].LoadSeq? && ms[i].pcs[acts[i].t].PLoaded?
    ensures var m, pos := ms[i], ms[i].pcs[acts[i].t].pos;
      && (ms[i + 1].pcs[acts[i].t].Idle? <==>
            pos == m.tail && pos >= m.cap && !Has(m.returned, pos - m.cap))
      && (ms[i + 1].pcs[acts[i].t].Idle? && !TakesInFlight(m) ==> m.tail - m.head == m.cap)
  {
    var m, t := ms[i], acts[i].t;
    var pos := m.pcs[t].pos;
    var q := InvAt(ms, acts, i);
    assert PcOk(m, q, t);
    ProducerSees(m, q, pos);
    assert ms[i + 1] == Step(Unbounded, m, acts[i]);
    if pos == m.tail && pos >= m.cap {
      ReturnedOrNot(m, q, pos - m.cap);
    }
    if T.Refuses(q) && !TakesInFlight(m) {
      NoReaders(m, q);
      T.RefusalIsExact(q);
    }
  }

  lemma NoWriters<V(!new)>(m: Machine<V>, q: T.State<V>)
    requires Inv(m, q) && !ClaimsInFlight(m)
    ensures forall k :: 0 <= k < |q.phase| ==> !q.phase[k].Writing?
  {
    forall k: nat | k < |q.phase|
      ensures !q.phase[k].Writing?
    {
      assert OwnerOk(m, q, k);
    }
  }

  /** What `false` from consume means: the head still equals the loaded position and no
      produce has returned true for that ticket - and exactly then.  If moreover no produce is
      between winning its ticket and publishing it, the queue is exactly empty. */
  lemma ConsumeFailure<V(!new)>(ms: seq<Machine<V>>, acts: seq<Action<V>>, i: nat)
    requires Run(Unbounded, ms, acts) && ms[0].cap >= 2 && i < |acts|
    requires acts[i].LoadSeq? && ms[i].pcs[acts[i].t].CLoaded?
    ensures var m, pos := ms[i], ms[i].pcs[acts[i].t].pos;
      && (ms[i + 1].pcs[acts[i].t].Idle? <==>
            pos == m.head && !Has(m.accepted, pos))
      && (ms[i + 1].pcs[acts[i].t].Idle? && !ClaimsInFlight(m) ==> m.tail == m.head)
  {
    var m, t := ms[i], acts[i].t;
    var pos := m.pcs[t].pos;
    var q := InvAt(ms, acts, i);
    assert PcOk(m, q, t);
    ConsumerSees(m, q, pos);
    assert ms[i + 1] == Step(Unbounded, m, acts[i]);
    if pos == m.head {
      AcceptedOrNot(m, q, pos);
    }
    if T.NothingReady(q) && !ClaimsInFlight(m) {
      NoWriters(m, q);
      T.RefusalIsExact(q);
    }
  }

  // ---------------------------------------------------------------- every value is that of a produce

  predicate Carries<V(==)>(pc: Pc<V>, v: V) {
    match pc
    case PStart(u) => u == v
    case PLoaded(u, _) => u == v
    case PReady(u, _) => u == v
    case PClaimed(u, _) => u == v
    case PWritten(u, _) => u == v
    case _ => false
  }

  lemma CarriedBefore<V(!new)>(m: Machine<V>, a: Action<V>, t: nat, v: V)
    requires Enabled(m, a) && t < |Step(Unbounded, m, a).pcs| && Carries(Step(Unbounded, m, a).pcs[t], v)
    ensures a == CallProduce(t, v) || (t < |m.pcs| && Carries(m.pcs[t], v))
  {
  }

  lemma NothingCarried<V(!new)>(ms: seq<Machine<V>>, acts: seq<Action<V>>, t: nat, v: V)
    requires Run(Unbounded, ms, acts) && t < |ms[0].pcs|
    ensures !Carries(ms[0].pcs[t], v)
  {
    assert ms[0].pcs[t].Idle?;
  }

  lemma {:induction false} CallOf<V(!new)>(ms: seq<Machine<V>>, acts: seq<Action<V>>, n: nat, t: nat, v: V)
    returns (i: nat)
    requires Run(Unbounded, ms, acts) && n < |ms| && t < |ms[n].pcs| && Carries(ms[n].pcs[t], v)
    ensures i < n && acts[i] == CallProduce(t, v)
  {
    RunLength(ms, acts);
    if n == 0 {
      NothingCarried(ms, acts, t, v);
    } else {
      hide *;
      RunStep(ms, acts, n - 1);
      CarriedBefore(ms[n - 1], acts[n - 1], t, v);
      if acts[n - 1] == CallProduce(t, v) {
        i := n - 1;
      } else {
        i := CallOf(ms, acts, n - 1, t, v);
      }
    }
  }

  lemma AcceptsCarried<V(!new)>(m: Machine<V>, a: Action<V>, k: nat, v: V)
    requires Enabled(m, a) && (k, v) in Step(Unbounded, m, a).accepted
    ensures (k, v) in m.accepted || Carries(m.pcs[a.t], v)
  {
  }

  lemma HasThread<V(!new)>(m: Machine<V>, a: Action<V>)
    requires Enabled(m, a)
    ensures a.t < |m.pcs|
  {
  }

  /** Nothing is made up: a value accepted, and so every value returned, is one that some thread
      called produce with before. */
  lemma {:induction false} ValueOfCall<V(!new)>(ms: seq<Machine<V>>, acts: seq<Action<V>>, n: nat, k: nat, v: V)
    returns (i: nat, t: nat)
    requires Run(Unbounded, ms, acts) && n < |ms| && (k, v) in ms[n].accepted
    ensures i < n && acts[i] == CallProduce(t, v)
  {
    RunLength(ms, acts);
    if n > 0 {
      hide *;
      RunStep(ms, acts, n - 1);
      AcceptsCarried(ms[n - 1], acts[n - 1], k, v);
      if (k, v) in ms[n - 1].accepted {
        i, t := ValueOfCall(ms, acts, n - 1, k, v);
      } else {
        t := acts[n - 1].t;
        HasThread(ms[n - 1], acts[n - 1]);
        i := CallOf(ms, acts, n - 1, t, v);
      }
    }
  }

  // ---------------------------------------------------------------- 64-bit words

  lemma SeqBound<V(!new)>(m: Machine<V>, q: T.State<V>, pos: nat)
    requires Shape(m, q) && CellsOk(m, q) && pos <= m.tail
    ensures m.cells[pos % m.cap].seqno < m.tail + m.cap
  {
    var j := Representative(pos, m.tail, m.cap);
    assert CellOk(m, q, j);
  }

  /** Below 2^63 no sum wraps and the difference of the signed casts is the true difference. */
  lemma WordsAgree(seqno: nat, pos: nat)
    requires seqno < HALF && pos + 1 < HALF
    ensures Diff(Word64, seqno, pos) == Diff(Unbounded, seqno, pos)
    ensures Diff(Word64, seqno, Plus(Word64, pos, 1)) == Diff(Unbounded, seqno, Plus(Unbounded, pos, 1))
  {
  }

  lemma LoadSeqAgrees<V(!new)>(m: Machine<V>, q: T.State<V>, a: Action<V>)
    requires Shape(m, q) && CellsOk(m, q) && Enabled(m, a) && a.LoadSeq? && m.tail + m.cap < HALF
    requires m.pcs[a.t].pos <= m.tail
    requires Index(Word64, m.pcs[a.t].pos, m.cap) == m.pcs[a.t].pos % m.cap
    ensures Step(Word64, m, a) == Step(Unbounded, m, a)
  {
    hide CellsOk, And, Diff, Plus, T.Valid;
    var pos := m.pcs[a.t].pos;
    SeqBound(m, q, pos);
    WordsAgree(m.cells[pos % m.cap].seqno, pos);
  }

  lemma OwnedStepAgrees<V(!new)>(m: Machine<V>, q: T.State<V>, a: Action<V>)
    requires Shape(m, q) && Enabled(m, a) && (a.CopyData? || a.StoreSeq?) && m.tail + m.cap < HALF
    requires m.pcs[a.t].pos <= m.tail
    requires Index(Word64, m.pcs[a.t].pos, m.cap) == m.pcs[a.t].pos % m.cap
    ensures Step(Word64, m, a) == Step(Unbounded, m, a)
  {
    hide And, T.Valid;
    var pos := m.pcs[a.t].pos;
    assert Plus(Word64, pos, m.cap) == pos + m.cap && Plus(Word64, pos, 1) == pos + 1;
  }

  lemma IndexAgrees(pos: nat, cap: nat)
    requires IsPow2(cap)
    ensures Index(Word64, pos, cap) == pos % cap
  {
    var e: nat :| cap == Pow2(e);
    AndMask(pos, e);
  }

  /** Below 2^63 masking is the remainder, no sum wraps and the difference of the signed
      casts is the true difference, stale positions included. */
  lemma StepAgrees<V(!new)>(m: Machine<V>, q: T.State<V>, a: Action<V>)
    requires Inv(m, q) && Enabled(m, a) && IsPow2(m.cap) && m.tail + m.cap < HALF
    ensures Step(Word64, m, a) == Step(Unbounded, m, a)
  {
    assert PcOk(m, q, a.t);
    if a.LoadSeq? {
      IndexAgrees(m.pcs[a.t].pos, m.cap);
      LoadSeqAgrees(m, q, a);
    } else if a.CopyData? || a.StoreSeq? {
      IndexAgrees(m.pcs[a.t].pos, m.cap);
      OwnedStepAgrees(m, q, a);
    }
  }

  /** The 64-bit implementation refines the unbounded protocol as long as the tail counter
      plus the capacity stays below 2^63. */
  lemma {:induction false} Word64Refines<V(!new)>(ms: seq<Machine<V>>, acts: seq<Action<V>>)
    requires Run(Word64, ms, acts) && ms[0].cap >= 2 && IsPow2(ms[0].cap)
    requires forall i :: 0 <= i < |acts| ==> ms[i].tail + ms[0].cap < HALF
    ensures Run(Unbounded, ms, acts)
    decreases |acts|
  {
    var n := |acts|;
    if n > 0 {
      var ms', acts' := ms[..n], acts[..n - 1];
      RunPrefix(Word64, ms, acts, n - 1);
      Word64Refines(ms', acts');
      var q := InvAt(ms', acts', n - 1);
      CapacityConstant(ms', acts', n - 1);
      StepAgrees(ms[n - 1], q, acts[n - 1]);
      forall i | 0 <= i < n
        ensures Enabled(ms[i], acts[i]) && ms[i + 1] == Step(Unbounded, ms[i], acts[i])
      {
        if i < n - 1 {
          assert Enabled(ms'[i], acts'[i]) && ms'[i + 1] == Step(Unbounded, ms'[i], acts'[i]);
        }
      }
    }
  }
}
