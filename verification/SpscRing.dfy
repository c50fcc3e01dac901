/** The single-producer single-consumer ring: two cursors modulo the buffer size.  The
    protocol interleaves one producer and one consumer at the granularity of single loads
    and stores; RingBuffer is the code, each of whose operations is one protocol step. */
module SpscRing {
  import opened Words

  datatype Producer<V> =
    | PIdle
    | PTail(item: V, cur: nat)   // own cursor loaded: about to load head
    | PRoom(item: V, cur: nat)   // next slot is not head: about to write the slot
    | PWrote(item: V, cur: nat)  // about to store tail and return true

  datatype Consumer<V> =
    | CIdle
    | CHead(cur: nat)            // own cursor loaded: about to load tail
    | CSome(cur: nat)            // tail differs: about to read the slot
    | CRead(cur: nat, item: V)   // about to store head and return true

  /** pushed and popped record the items of the calls that returned true, in order. */
  datatype Ring<V> = Ring(size: nat, buf: seq<V>, head: nat, tail: nat,
                          prod: Producer<V>, cons: Consumer<V>, pushed: seq<V>, popped: seq<V>)
  {
    function Contents(): seq<V>
      requires |popped| <= |pushed|
    {
      pushed[|popped|..]
    }
  }

  datatype Action<V> =
    | LoadOwnTail(item: V) | LoadHead | WriteSlot | StoreTail
    | LoadOwnHead | LoadTail | ReadSlot | StoreHead

  predicate Enabled<V>(r: Ring<V>, a: Action<V>) {
    && r.size > 0 && |r.buf| == r.size
    && match a
       case LoadOwnTail(_) => r.prod.PIdle?
       case LoadHead => r.prod.PTail?
       case WriteSlot => r.prod.PRoom? && r.prod.cur < r.size
       case StoreTail => r.prod.PWrote?
       case LoadOwnHead => r.cons.CIdle?
       case LoadTail => r.cons.CHead?
       case ReadSlot => r.cons.CSome? && r.cons.cur < r.size
       case StoreHead => r.cons.CRead?
  }

  function Step<V>(r: Ring<V>, a: Action<V>): Ring<V>
    requires Enabled(r, a)
  {
    match a
    case LoadOwnTail(item) => r.(prod := PTail(item, r.tail))
    case LoadHead =>
      r.(prod := if (r.prod.cur + 1) % r.size == r.head then PIdle else PRoom(r.prod.item, r.prod.cur))
    case WriteSlot => r.(buf := r.buf[r.prod.cur := r.prod.item], prod := PWrote(r.prod.item, r.prod.cur))
    case StoreTail =>
      r.(tail := (r.prod.cur + 1) % r.size, prod := PIdle, pushed := r.pushed + [r.prod.item])
    case LoadOwnHead => r.(cons := CHead(r.head))
    case LoadTail => r.(cons := if r.cons.cur == r.tail then CIdle else CSome(r.cons.cur))
    case ReadSlot => r.(cons := CRead(r.cons.cur, r.buf[r.cons.cur]))
    case StoreHead =>
      r.(head := (r.cons.cur + 1) % r.size, cons := CIdle, popped := r.popped + [r.cons.item])
  }

  ghost predicate Init<V>(r: Ring<V>) {
    && r.size >= 1 && |r.buf| == r.size && r.head == r.tail == 0
    && r.prod.PIdle? && r.cons.CIdle? && r.pushed == r.popped == []
  }

  ghost predicate Run<V(!new)>(rs: seq<Ring<V>>, acts: seq<Action<V>>) {
    && |rs| == |acts| + 1 && Init(rs[0])
    && forall i :: 0 <= i < |acts| ==> Enabled(rs[i], acts[i]) && rs[i + 1] == Step(rs[i], acts[i])
  }

  /** Cursors count modulo size; the slots from head to tail hold the contents. */
  ghost predicate Cursors<V>(r: Ring<V>) {
    && r.size >= 1 && |r.buf| == r.size
    && |r.popped| <= |r.pushed| <= |r.popped| + r.size - 1
    && r.popped == r.pushed[..|r.popped|]
    && r.tail == |r.pushed| % r.size && r.head == |r.popped| % r.size
    && forall k :: |r.popped| <= k < |r.pushed| ==> r.buf[k % r.size] == r.pushed[k]
  }

  ghost predicate Inv<V>(r: Ring<V>) {
    && Cursors(r)
    && (match r.prod
        case PIdle => true
        case PTail(_, cur) => cur == r.tail
        case PRoom(_, cur) => cur == r.tail && |r.pushed| - |r.popped| < r.size - 1
        case PWrote(item, cur) => cur == r.tail && |r.pushed| - |r.popped| < r.size - 1 && r.buf[cur] == item)
    && (match r.cons
        case CIdle => true
        case CHead(cur) => cur == r.head
        case CSome(cur) => cur == r.head && |r.popped| < |r.pushed|
        case CRead(cur, item) => cur == r.head && |r.popped| < |r.pushed| && item == r.pushed[|r.popped|])
  }

  lemma NextSlot(n: nat, size: nat)
    requires size > 0
    ensures (n % size + 1) % size == (n + 1) % size
  {
    ModShift(n % size + 1, size, n / size);
  }

  /** The two cursor comparisons of the code are exact tests for full and empty. */
  lemma CursorTests<V>(r: Ring<V>)
    requires Cursors(r)
    ensures (r.tail + 1) % r.size == r.head <==> |r.pushed| - |r.popped| == r.size - 1
    ensures r.head == r.tail <==> r.pushed == r.popped
    ensures |r.popped| < |r.pushed| < |r.popped| + r.size ==> r.head != r.tail
  {
    var p, c := |r.pushed|, |r.popped|;
    NextSlot(p, r.size);
    ModWindow(p, c, r.size);
    if p - c == r.size - 1 {
      ModShift(c, r.size, 1);
    } else {
      ModWindow(p + 1, c, r.size);
    }
    if p == c {
      assert r.pushed[..c] == r.pushed;
    }
  }

  lemma WriteKeeps<V>(r: Ring<V>)
    requires Inv(r) && Enabled(r, WriteSlot)
    ensures Inv(Step(r, WriteSlot))
  {
    var r' := Step(r, WriteSlot);
    forall k | |r.popped| <= k < |r.pushed|
      ensures r'.buf[k % r.size] == r.pushed[k]
    {
      ModWindow(k, |r.pushed|, r.size);
    }
  }

  lemma StoreTailKeeps<V>(r: Ring<V>)
    requires Inv(r) && Enabled(r, StoreTail)
    ensures Inv(Step(r, StoreTail))
  {
    var r' := Step(r, StoreTail);
    NextSlot(|r.pushed|, r.size);
    assert r'.pushed[..|r.popped|] == r.pushed[..|r.popped|];
  }

  lemma StoreHeadKeeps<V>(r: Ring<V>)
    requires Inv(r) && Enabled(r, StoreHead)
    ensures Inv(Step(r, StoreHead))
  {
    var r' := Step(r, StoreHead);
    NextSlot(|r.popped|, r.size);
    assert r.pushed[..|r.popped| + 1] == r.pushed[..|r.popped|] + [r.pushed[|r.popped|]];
  }

  lemma StepKeeps<V>(r: Ring<V>, a: Action<V>)
    requires Inv(r) && Enabled(r, a)
    ensures Inv(Step(r, a))
  {
    match a
    case WriteSlot => WriteKeeps(r);
    case StoreTail => StoreTailKeeps(r);
    case StoreHead => StoreHeadKeeps(r);
    case LoadHead => CursorTests(r);
    case LoadTail => CursorTests(r);
    case _ =>
  }

  lemma {:induction false} InvAt<V(!new)>(rs: seq<Ring<V>>, acts: seq<Action<V>>, i: nat)
    requires Run(rs, acts) && i < |rs|
    ensures Inv(rs[i]) && rs[i].size == rs[0].size
  {
    if i > 0 {
      InvAt(rs, acts, i - 1);
      StepKeeps(rs[i - 1], acts[i - 1]);
      assert rs[i] == Step(rs[i - 1], acts[i - 1]);
    }
  }

  /** Strict linearizability to a FIFO of capacity size - 1: push takes effect at its store
      of tail and pop at its store of head, nothing else changes the contents, and `false` is
      returned exactly when the queue is full, or empty, at the load of the other cursor. */
  lemma Linearizable<V(!new)>(rs: seq<Ring<V>>, acts: seq<Action<V>>, i: nat)
    requires Run(rs, acts) && i < |acts|
    ensures |rs[i].popped| <= |rs[i].pushed| && |rs[i + 1].popped| <= |rs[i + 1].pushed|
    ensures var r, r', full := rs[i], rs[i + 1], rs[0].size - 1;
      && |r.Contents()| <= full
      && (acts[i].StoreTail? ==> |r.Contents()| < full && r'.Contents() == r.Contents() + [r.prod.item])
      && (acts[i].StoreHead? ==> r.Contents() == [r.cons.item] + r'.Contents())
      && (!acts[i].StoreTail? && !acts[i].StoreHead? ==> r'.Contents() == r.Contents())
      && (acts[i].LoadHead? ==> (r'.prod.PIdle? <==> |r.Contents()| == full))
      && (acts[i].LoadTail? ==> (r'.cons.CIdle? <==> r.Contents() == []))
  {
    InvAt(rs, acts, i);
    InvAt(rs, acts, i + 1);
    CursorTests(rs[i]);
    assert rs[i + 1] == Step(rs[i], acts[i]);
  }

  /** In order, nothing lost, nothing twice; and the slot being written is never the slot
      being read. */
  lemma InOrderAndApart<V(!new)>(rs: seq<Ring<V>>, acts: seq<Action<V>>, i: nat)
    requires Run(rs, acts) && i < |rs|
    ensures rs[i].popped <= rs[i].pushed
    ensures rs[i].prod.PRoom? && rs[i].cons.CSome? ==>
      rs[i].prod.cur != rs[i].cons.cur && rs[i].prod.cur < rs[0].size && rs[i].cons.cur < rs[0].size
  {
    InvAt(rs, acts, i);
    CursorTests(rs[i]);
  }

  class RingBuffer<V(0)> {
    const buffer: array<V>
    var head: nat
    var tail: nat
    ghost var r: Ring<V>

    ghost predicate Valid()
      reads this, buffer
    {
      Inv(r) && r.prod.PIdle? && r.cons.CIdle? && r.buf == buffer[..] && r.head == head && r.tail == tail
    }

    ghost function Contents(): seq<V>
      reads this, buffer
      requires Valid()
    {
      r.Contents()
    }

    /** Size 0 makes a buffer that push and pop cannot use: they divide by the size. */
    constructor (capacity: nat)
      ensures capacity >= 1 ==> Valid() && Contents() == []
      ensures fresh(buffer) && buffer.Length == capacity && head == tail == 0
    {
      var b := new V[capacity];
      buffer, head, tail := b, 0, 0;
      r := Ring(capacity, b[..], 0, 0, PIdle, CIdle, [], []);
    }

    ghost method Tick(a: Action<V>)
      requires Inv(r) && Enabled(r, a)
      modifies `r
      ensures r == Step(old(r), a) && Inv(r)
    {
      StepKeeps(r, a);
      r := Step(r, a);
    }

    method Push(item: V) returns (ok: bool)
      requires Valid()
      modifies this, buffer
      ensures Valid()
      ensures ok <==> |old(Contents())| < buffer.Length - 1
      ensures Contents() == if ok then old(Contents()) + [item] else old(Contents())
    {
      CursorTests(r);
      var curTail := tail;
      Tick(LoadOwnTail(item));
      var nextTail := (curTail + 1) % buffer.Length;
      Tick(LoadHead);
      if nextTail == head {
        return false;
      }
      buffer[curTail] := item;
      Tick(WriteSlot);
      tail := nextTail;
      Tick(StoreTail);
      return true;
    }

    /** `out` is `before` unless ok. */
    method Pop(before: V) returns (ok: bool, out: V)
      requires Valid()
      modifies this
      ensures Valid()
      ensures ok <==> old(Contents()) != []
      ensures ok ==> out == old(Contents())[0] && Contents() == old(Contents())[1..]
      ensures !ok ==> out == before && Contents() == old(Contents())
    {
      CursorTests(r);
      var curHead := head;
      Tick(LoadOwnHead);
      Tick(LoadTail);
      if curHead == tail {
        return false, before;
      }
      out := buffer[curHead];
      Tick(ReadSlot);
      head := (curHead + 1) % buffer.Length;
      Tick(StoreHead);
      return true, out;
    }
  }
}
