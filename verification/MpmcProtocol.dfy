/** The lock-free multi-producer multi-consumer ring as a transition system over any
    number of threads.  Every atomic load, compare-exchange, data copy and sequence
    store is a step of its own, and any interleaving of steps is a run.

    The history logs `accepted` and `returned` only record what callers observe:
    no step reads them. */
module MpmcProtocol {
  import opened Words
  import T = TicketQueue

  datatype Cell<V> = Cell(seqno: nat, data: V)

  /** Where a thread stands inside produce (P) or consume (C). */
  datatype Pc<V> =
    | Idle
    | PStart(v: V)               // about to load the tail counter
    | PLoaded(v: V, pos: nat)    // about to load the cell's sequence number
    | PReady(v: V, pos: nat)     // difference was 0: about to compare-exchange
    | PClaimed(v: V, pos: nat)   // owns ticket pos: about to write the data
    | PWritten(v: V, pos: nat)   // about to store pos + 1 and return true
    | CStart
    | CLoaded(pos: nat)
    | CReady(pos: nat)
    | CClaimed(pos: nat)         // owns ticket pos: about to copy the data out
    | CCopied(pos: nat, out: V)  // about to store pos + capacity and return true

  datatype Machine<V(==)> = Machine(
    cap: nat, head: nat, tail: nat, cells: seq<Cell<V>>, pcs: seq<Pc<V>>,
    accepted: multiset<(nat, V)>,  // ticket and value of each produce that returned true
    returned: multiset<(nat, V)>)  // ticket and value of each consume that returned true

  datatype Action<V> =
    | CallProduce(t: nat, v: V)
    | CallConsume(t: nat)
    | LoadCounter(t: nat, seen: nat)  // relaxed: any value the counter has had
    | LoadSeq(t: nat)
    | Cas(t: nat, spurious: bool)     // compare_exchange_weak may fail for no reason
    | CopyData(t: nat)
    | StoreSeq(t: nat)

  /** Counters as unbounded naturals, or as the 64-bit words the code uses. */
  datatype Arith = Unbounded | Word64

  function Index(ar: Arith, pos: nat, cap: nat): (i: nat)
    requires cap > 0
    ensures i < cap
  {
    match ar
    case Unbounded => pos % cap
    case Word64 => And(pos, cap - 1)
  }

  function Plus(ar: Arith, a: nat, b: nat): nat {
    match ar
    case Unbounded => a + b
    case Word64 => (a + b) % WORD
  }

  function Diff(ar: Arith, a: nat, b: nat): int {
    match ar
    case Unbounded => a - b
    case Word64 => Signed(a) - Signed(b)
  }

  predicate Enabled<V(==)>(m: Machine<V>, a: Action<V>) {
    && m.cap > 0 && |m.cells| == m.cap
    && a.t < |m.pcs|
    && var pc := m.pcs[a.t];
       match a
       case CallProduce(_, _) => pc.Idle?
       case CallConsume(_) => pc.Idle?
       case LoadCounter(_, seen) => (pc.PStart? && seen <= m.tail) || (pc.CStart? && seen <= m.head)
       case LoadSeq(_) => pc.PLoaded? || pc.CLoaded?
       case Cas(_, _) => pc.PReady? || pc.CReady?
       case CopyData(_) => pc.PClaimed? || pc.CClaimed?
       case StoreSeq(_) => pc.PWritten? || pc.CCopied?
  }

  function Goto<V(==)>(m: Machine<V>, t: nat, pc: Pc<V>): Machine<V>
    requires t < |m.pcs|
  {
    m.(pcs := m.pcs[t := pc])
  }

  function Step<V(==)>(ar: Arith, m: Machine<V>, a: Action<V>): Machine<V>
    requires Enabled(m, a)
  {
    var t, pc := a.t, m.pcs[a.t];
    match a
    case CallProduce(_, v) => Goto(m, t, PStart(v))
    case CallConsume(_) => Goto(m, t, CStart)
    case LoadCounter(_, seen) => Goto(m, t, if pc.PStart? then PLoaded(pc.v, seen) else CLoaded(seen))
    case LoadSeq(_) =>
      var seqno := m.cells[Index(ar, pc.pos, m.cap)].seqno;
      if pc.PLoaded? then
        var diff := Diff(ar, seqno, pc.pos);
        Goto(m, t, if diff == 0 then PReady(pc.v, pc.pos) else if diff < 0 then Idle else PStart(pc.v))
      else
        var diff := Diff(ar, seqno, Plus(ar, pc.pos, 1));
        Goto(m, t, if diff == 0 then CReady(pc.pos) else if diff < 0 then Idle else CStart)
    case Cas(_, spurious) =>
      if pc.PReady? then
        if pc.pos == m.tail && !spurious
        then Goto(m.(tail := Plus(ar, pc.pos, 1)), t, PClaimed(pc.v, pc.pos))
        else Goto(m, t, PStart(pc.v))
      else
        if pc.pos == m.head && !spurious
        then Goto(m.(head := Plus(ar, pc.pos, 1)), t, CClaimed(pc.pos))
        else Goto(m, t, CStart)
    case CopyData(_) =>
      var i := Index(ar, pc.pos, m.cap);
      if pc.PClaimed?
      then Goto(m.(cells := m.cells[i := m.cells[i].(data := pc.v)]), t, PWritten(pc.v, pc.pos))
      else Goto(m, t, CCopied(pc.pos, m.cells[i].data))
    case StoreSeq(_) =>
      var i := Index(ar, pc.pos, m.cap);
      if pc.PWritten?
      then Goto(m.(cells := m.cells[i := m.cells[i].(seqno := Plus(ar, pc.pos, 1))],
                   accepted := m.accepted + multiset{(pc.pos, pc.v)}), t, Idle)
      else Goto(m.(cells := m.cells[i := m.cells[i].(seqno := Plus(ar, pc.pos, m.cap))],
                   returned := m.returned + multiset{(pc.pos, pc.out)}), t, Idle)
  }

  /** A freshly constructed queue: cell i carries sequence number i. */
  ghost predicate Init<V>(m: Machine<V>) {
    && m.cap >= 1 && |m.cells| == m.cap
    && m.head == m.tail == 0
    && (forall i :: 0 <= i < m.cap ==> m.cells[i].seqno == i)
    && (forall t :: 0 <= t < |m.pcs| ==> m.pcs[t].Idle?)
    && m.accepted == m.returned == multiset{}
  }

  ghost predicate Run<V(!new)>(ar: Arith, ms: seq<Machine<V>>, acts: seq<Action<V>>) {
    && |ms| == |acts| + 1
    && Init(ms[0])
    && forall i :: 0 <= i < |acts| ==> Enabled(ms[i], acts[i]) && ms[i + 1] == Step(ar, ms[i], acts[i])
  }

  // ---------------------------------------------------------------- the coupling invariant

  /** What cell k mod cap holds when k is the last ticket below tail on that cell. */
  ghost predicate CellOk<V>(m: Machine<V>, q: T.State<V>, k: int)
    requires m.cap > 0 && |m.cells| == m.cap && |q.phase| == |q.vals| && k < |q.vals|
  {
    var c := m.cells[k % m.cap];
    if k < 0 then c.seqno == k + m.cap
    else match q.phase[k]
      case Writing(_) => c.seqno == k
      case Full => c.seqno == k + 1 && c.data == q.vals[k]
      case Reading(_) => c.seqno == k + 1 && c.data == q.vals[k]
      case Released => c.seqno == k + m.cap
  }

  ghost predicate PcOk<V>(m: Machine<V>, q: T.State<V>, t: nat)
    requires m.cap > 0 && |m.cells| == m.cap && |q.phase| == |q.vals| && t < |m.pcs|
  {
    match m.pcs[t]
    case Idle => true
    case PStart(_) => true
    case PLoaded(_, pos) => pos <= m.tail
    case PReady(_, pos) => pos <= m.tail && (pos == m.tail ==> !T.Refuses(q))
    case PClaimed(v, pos) => pos < q.Tail() && q.phase[pos] == T.Writing(t) && q.vals[pos] == v
    case PWritten(v, pos) => pos < q.Tail() && q.phase[pos] == T.Writing(t) && q.vals[pos] == v
                             && m.cells[pos % m.cap].data == v
    case CStart => true
    case CLoaded(pos) => pos <= m.head
    case CReady(pos) => pos <= m.head && (pos == m.head ==> !T.NothingReady(q))
    case CClaimed(pos) => pos < q.Tail() && q.phase[pos] == T.Reading(t)
    case CCopied(pos, out) => pos < q.Tail() && q.phase[pos] == T.Reading(t) && out == q.vals[pos]
  }

  /** A ticket that is being written or read belongs to the thread that is at it. */
  ghost predicate OwnerOk<V>(m: Machine<V>, q: T.State<V>, k: nat)
    requires k < |q.phase|
  {
    match q.phase[k]
    case Writing(t) => t < |m.pcs| && (m.pcs[t].PClaimed? || m.pcs[t].PWritten?) && m.pcs[t].pos == k
    case Reading(t) => t < |m.pcs| && (m.pcs[t].CClaimed? || m.pcs[t].CCopied?) && m.pcs[t].pos == k
    case _ => true
  }

  function Bit(b: bool): nat { if b then 1 else 0 }

  ghost predicate Published<V>(q: T.State<V>, k: nat, v: V)
    requires |q.phase| == |q.vals|
  {
    k < |q.vals| && !q.phase[k].Writing? && q.vals[k] == v
  }

  ghost predicate GivenBack<V>(q: T.State<V>, k: nat, v: V)
    requires |q.phase| == |q.vals|
  {
    k < |q.vals| && q.phase[k].Released? && q.vals[k] == v
  }

  ghost predicate Shape<V>(m: Machine<V>, q: T.State<V>) {
    && m.cap >= 2 && |m.cells| == m.cap == q.cap
    && T.Valid(q) && q.head == m.head && q.Tail() == m.tail
  }

  ghost predicate CellsOk<V>(m: Machine<V>, q: T.State<V>)
    requires Shape(m, q)
  {
    forall k: int {:trigger CellOk(m, q, k)} :: m.tail - m.cap <= k < m.tail ==> CellOk(m, q, k)
  }

  ghost predicate ThreadsOk<V>(m: Machine<V>, q: T.State<V>)
    requires Shape(m, q)
  {
    && (forall t: nat {:trigger PcOk(m, q, t)} :: t < |m.pcs| ==> PcOk(m, q, t))
    && (forall k: nat {:trigger OwnerOk(m, q, k)} :: k < m.tail ==> OwnerOk(m, q, k))
  }

  ghost predicate LogsOk<V(!new)>(m: Machine<V>, q: T.State<V>)
    requires Shape(m, q)
  {
    && (forall k: nat, v: V :: m.accepted[(k, v)] == Bit(Published(q, k, v)))
    && (forall k: nat, v: V :: m.returned[(k, v)] == Bit(GivenBack(q, k, v)))
  }

  ghost predicate Inv<V(!new)>(m: Machine<V>, q: T.State<V>) {
    Shape(m, q) && CellsOk(m, q) && ThreadsOk(m, q) && LogsOk(m, q)
  }

  /** The ticket-queue step that a machine step performs, if any. */
  function Ticket<V(==)>(m: Machine<V>, a: Action<V>): (r: seq<T.Action<V>>)
    requires Enabled(m, a)
    ensures |r| <= 1
  {
    var pc := m.pcs[a.t];
    match a
    case Cas(t, spurious) =>
      if spurious then []
      else if pc.PReady? then (if pc.pos == m.tail then [T.Claim(t, pc.v)] else [])
      else (if pc.pos == m.head then [T.Take(t)] else [])
    case StoreSeq(_) => if pc.PWritten? then [T.Publish(pc.pos)] else [T.Release(pc.pos)]
    case _ => []
  }

  ghost predicate TicketEnabled<V>(m: Machine<V>, q: T.State<V>, a: Action<V>)
    requires Enabled(m, a) && |q.phase| == |q.vals|
  {
    Ticket(m, a) == [] || T.Enabled(q, Ticket(m, a)[0])
  }

  function Shadow<V(==)>(m: Machine<V>, q: T.State<V>, a: Action<V>): T.State<V>
    requires Enabled(m, a) && |q.phase| == |q.vals|
    requires Ticket(m, a) == [] || T.Enabled(q, Ticket(m, a)[0])
  {
    if Ticket(m, a) == [] then q else T.Step(q, Ticket(m, a)[0])
  }

  // ---------------------------------------------------------------- what a sequence load means

  /** The difference a producer computes decides between the three cases exactly. */
  lemma ProducerSees<V(!new)>(m: Machine<V>, q: T.State<V>, pos: nat)
    requires Shape(m, q) && CellsOk(m, q) && pos <= m.tail
    ensures var seqno := m.cells[pos % m.cap].seqno;
      && (seqno < pos <==> pos == m.tail && T.Refuses(q))
      && (seqno == pos && pos == m.tail ==> !T.Refuses(q))
      && (seqno > pos ==> pos < m.tail)
  {
    var j := Representative(pos, m.tail, m.cap);
    assert CellOk(m, q, j);
  }

  /** The difference a consumer computes, against pos + 1. */
  lemma ConsumerSees<V(!new)>(m: Machine<V>, q: T.State<V>, pos: nat)
    requires Shape(m, q) && CellsOk(m, q) && pos <= m.head
    ensures var seqno := m.cells[pos % m.cap].seqno;
      && (seqno < pos + 1 <==> pos == m.head && T.NothingReady(q))
      && (seqno == pos + 1 && pos == m.head ==> !T.NothingReady(q))
      && (seqno > pos + 1 ==> pos < m.head)
  {
    var j := Representative(pos, m.tail, m.cap);
    assert CellOk(m, q, j);
    if pos == m.tail {
      assert j < 0 || m.cells[j % m.cap].seqno <= pos;
    } else if pos == m.head {
      ModWindow(pos, j, m.cap);
      assert j == pos;
    } else {
      assert q.phase[pos].Reading? || q.phase[pos].Released?;
    }
  }
}
