/** Two limits of the slot protocol: capacity 1, which round_up_pow2 yields for the inputs 0
    and 1, and the number of times one call can go round its retry loop. */
module MpmcLimits {
  import opened Words
  import opened MpmcProtocol
  import opened MpmcSimulation
  import opened MpmcTheorems
  import T = TicketQueue

  // ---------------------------------------------------------------- capacity 1

  lemma Extend<V(!new)>(ms: seq<Machine<V>>, acts: seq<Action<V>>, a: Action<V>)
    requires Run(Unbounded, ms, acts) && Enabled(ms[|acts|], a)
    ensures Run(Unbounded, ms + [Step(Unbounded, ms[|acts|], a)], acts + [a])
  {
    var ms', acts' := ms + [Step(Unbounded, ms[|acts|], a)], acts + [a];
    forall i | 0 <= i < |acts'|
      ensures Enabled(ms'[i], acts'[i]) && ms'[i + 1] == Step(Unbounded, ms'[i], acts'[i])
    {
      if i < |acts| {
        assert ms'[i] == ms[i] && ms'[i + 1] == ms[i + 1];
      }
    }
  }

  /** One cell at rest. */
  ghost predicate OneCell<V>(m: Machine<V>) {
    m.cap == 1 && |m.cells| == 1 && |m.pcs| >= 1 && AllIdle(m) && m.cells[0].seqno == m.tail
  }

  /** The states produce(v) of thread 0 passes through when started in m. */
  ghost function Stage<V>(m: Machine<V>, v: V, n: nat): Machine<V>
    requires n <= 6 && |m.pcs| >= 1
  {
    var p := m.tail;
    match n
    case 0 => m
    case 1 => Goto(m, 0, PStart(v))
    case 2 => Goto(m, 0, PLoaded(v, p))
    case 3 => Goto(m, 0, PReady(v, p))
    case 4 => Goto(m.(tail := p + 1), 0, PClaimed(v, p))
    case 5 => Goto(m.(tail := p + 1, cells := [Cell(p, v)]), 0, PWritten(v, p))
    case 6 => m.(tail := p + 1, cells := [Cell(p + 1, v)], accepted := m.accepted + multiset{(p, v)})
  }

  ghost function Move<V>(m: Machine<V>, v: V, n: nat): Action<V>
    requires n < 6
  {
    match n
    case 0 => CallProduce(0, v)
    case 1 => LoadCounter(0, m.tail)
    case 2 => LoadSeq(0)
    case 3 => Cas(0, false)
    case 4 => CopyData(0)
    case 5 => StoreSeq(0)
  }

  lemma ModOne(n: nat)
    ensures n % 1 == 0
  {
  }

  lemma StageClaims<V(!new)>(m: Machine<V>, v: V, n: nat)
    requires OneCell(m) && n < 4
    ensures Enabled(Stage(m, v, n), Move(m, v, n))
    ensures Step(Unbounded, Stage(m, v, n), Move(m, v, n)) == Stage(m, v, n + 1)
  {
    ModOne(m.tail);
    assert m.pcs[0].Idle?;
  }

  lemma StageWrites<V(!new)>(m: Machine<V>, v: V)
    requires OneCell(m)
    ensures Enabled(Stage(m, v, 4), CopyData(0)) && Step(Unbounded, Stage(m, v, 4), CopyData(0)) == Stage(m, v, 5)
  {
    ModOne(m.tail);
    assert m.cells[0 := m.cells[0].(data := v)] == [Cell(m.tail, v)];
    assert Step(Unbounded, Stage(m, v, 4), CopyData(0)).pcs == Stage(m, v, 5).pcs;
  }

  lemma StagePublishes<V(!new)>(m: Machine<V>, v: V)
    requires OneCell(m)
    ensures Enabled(Stage(m, v, 5), StoreSeq(0)) && Step(Unbounded, Stage(m, v, 5), StoreSeq(0)) == Stage(m, v, 6)
  {
    ModOne(m.tail);
    assert m.pcs[0].Idle?;
    assert m.pcs[0 := PWritten(v, m.tail)][0 := Idle] == m.pcs;
    assert [Cell(m.tail, v)][0 := Cell(m.tail + 1, v)] == [Cell(m.tail + 1, v)];
  }

  /** With one cell, `full` (pos + 1) and `free for the next lap` (pos + capacity) are the same
      sequence number, so a lone producer always gets through. */
  lemma StageStep<V(!new)>(m: Machine<V>, v: V, n: nat)
    requires OneCell(m) && n < 6
    ensures Enabled(Stage(m, v, n), Move(m, v, n))
    ensures Step(Unbounded, Stage(m, v, n), Move(m, v, n)) == Stage(m, v, n + 1)
  {
    hide Stage, Step, Enabled, OneCell;
    if n < 4 {
      StageClaims(m, v, n);
    } else if n == 4 {
      StageWrites(m, v);
    } else {
      StagePublishes(m, v);
    }
  }

  lemma {:induction false} ProduceIntoOneCell<V(!new)>(ms: seq<Machine<V>>, acts: seq<Action<V>>, v: V, n: nat)
    returns (ms': seq<Machine<V>>, acts': seq<Action<V>>)
    requires Run(Unbounded, ms, acts) && OneCell(ms[|acts|]) && n <= 6
    ensures Run(Unbounded, ms', acts') && ms'[0] == ms[0]
    ensures ms'[|acts'|] == Stage(ms[|acts|], v, n)
  {
    var m := ms[|acts|];
    if n == 0 {
      ms', acts' := ms, acts;
    } else {
      ms', acts' := ProduceIntoOneCell(ms, acts, v, n - 1);
      StageStep(m, v, n - 1);
      Extend(ms', acts', Move(m, v, n - 1));
      ms', acts' := ms' + [Stage(m, v, n)], acts' + [Move(m, v, n - 1)];
    }
  }

  /** The sequence number has left behind the consumers, who are all still at head 0. */
  ghost predicate LeftBehind<V>(m: Machine<V>) {
    && m.cap == 1 && |m.cells| == 1 && m.head == 0 && m.tail >= 2 && m.cells[0].seqno >= 2
    && m.returned == multiset{}
    && forall t :: 0 <= t < |m.pcs| ==>
         && !m.pcs[t].CReady? && !m.pcs[t].CClaimed? && !m.pcs[t].CCopied?
         && (m.pcs[t].CLoaded? ==> m.pcs[t].pos == 0)
         && (m.pcs[t].PReady? || m.pcs[t].PClaimed? || m.pcs[t].PWritten? ==> m.pcs[t].pos >= 2)
  }

  lemma LeftBehindStep<V(!new)>(m: Machine<V>, a: Action<V>)
    requires LeftBehind(m) && Enabled(m, a)
    ensures LeftBehind(Step(Unbounded, m, a))
  {
    var m', pc := Step(Unbounded, m, a), m.pcs[a.t];
    if a.LoadSeq? || a.CopyData? || a.StoreSeq? {
      ModOne(pc.pos);
    }
    assert forall t :: 0 <= t < |m.pcs| && t != a.t ==> m'.pcs[t] == m.pcs[t];
  }

  /** Inside consume, with no ticket and no answer. */
  predicate Spinning<V>(pc: Pc<V>) { pc.CStart? || pc.CLoaded? }

  lemma SpinningStep<V(!new)>(m: Machine<V>, a: Action<V>, t: nat)
    requires LeftBehind(m) && Enabled(m, a) && t < |m.pcs| && Spinning(m.pcs[t])
    ensures t < |Step(Unbounded, m, a).pcs| && Spinning(Step(Unbounded, m, a).pcs[t])
  {
    if a.LoadSeq? {
      ModOne(m.pcs[a.t].pos);
    }
    assert a.t != t ==> Step(Unbounded, m, a).pcs[t] == m.pcs[t];
  }

  lemma {:induction false} LeftBehindStays<V(!new)>(ms: seq<Machine<V>>, acts: seq<Action<V>>, i: nat, j: nat)
    requires Run(Unbounded, ms, acts) && i <= j < |ms| && LeftBehind(ms[i])
    ensures LeftBehind(ms[j])
    decreases j
  {
    hide *;
    RunLength(ms, acts);
    if i < j {
      LeftBehindStays(ms, acts, i, j - 1);
      RunStep(ms, acts, j - 1);
      LeftBehindStep(ms[j - 1], acts[j - 1]);
    }
  }

  /** A consume of the states left behind never returns, neither true nor false: it is in its
      loop in every continuation.  A blocking consume would hold its mutex for good. */
  lemma {:induction false} ConsumeNeverReturns<V(!new)>(ms: seq<Machine<V>>, acts: seq<Action<V>>,
                                                        i: nat, j: nat, t: nat)
    requires Run(Unbounded, ms, acts) && i <= j < |ms| && LeftBehind(ms[i])
    requires t < |ms[i].pcs| && Spinning(ms[i].pcs[t])
    ensures t < |ms[j].pcs| && Spinning(ms[j].pcs[t])
    decreases j
  {
    hide *;
    RunLength(ms, acts);
    if i < j {
      ConsumeNeverReturns(ms, acts, i, j - 1, t);
      LeftBehindStays(ms, acts, i, j - 1);
      RunStep(ms, acts, j - 1);
      SpinningStep(ms[j - 1], acts[j - 1], t);
    }
  }

  /** Capacity 1, any number of threads: both a and b are accepted, a is overwritten before
      anyone could consume it, and however the run goes on nothing is ever consumed. */
  lemma CapacityOneOverwrites<V(!new)>(a: V, b: V, threads: nat)
    returns (ms: seq<Machine<V>>, acts: seq<Action<V>>)
    requires threads >= 1
    ensures Run(Unbounded, ms, acts) && ms[0].cap == 1 && |ms[0].pcs| == threads
    ensures var m := ms[|acts|];
      && m.accepted == multiset{(0, a), (1, b)} && m.returned == multiset{}
      && m.cells == [Cell(2, b)] && m.head == 0 && m.tail == 2 && AllIdle(m) && LeftBehind(m)
    ensures forall ms': seq<Machine<V>>, acts': seq<Action<V>> ::
      Run(Unbounded, ms', acts') && ms <= ms' ==> ms'[|acts'|].head == 0 && ms'[|acts'|].returned == multiset{}
  {
    ms, acts := [Machine(1, 0, 0, [Cell(0, a)], seq(threads, _ => Idle), multiset{}, multiset{})], [];
    ms, acts := ProduceIntoOneCell(ms, acts, a, 6);
    ms, acts := ProduceIntoOneCell(ms, acts, b, 6);
    var i := |acts|;
    assert LeftBehind(ms[i]);
    forall ms': seq<Machine<V>>, acts': seq<Action<V>> | Run(Unbounded, ms', acts') && ms <= ms'
      ensures ms'[|acts'|].head == 0 && ms'[|acts'|].returned == multiset{}
    {
      LeftBehindStays(ms', acts', i, |acts'|);
    }
  }

  ghost predicate NeverOverfills<V(!new)>(cap: nat) {
    forall ms: seq<Machine<V>>, acts: seq<Action<V>> ::
      Run(Unbounded, ms, acts) && ms[0].cap == cap ==> ms[|acts|].tail <= ms[|acts|].head + cap
  }

  /** The protocol keeps at most `capacity` tickets outstanding exactly for capacity >= 2. */
  lemma SafeCapacities<V(!new)>(cap: nat, witness0: V)
    requires cap >= 1
    ensures NeverOverfills<V>(cap) <==> cap >= 2
  {
    if cap >= 2 {
      forall ms: seq<Machine<V>>, acts: seq<Action<V>> | Run(Unbounded, ms, acts) && ms[0].cap == cap
        ensures ms[|acts|].tail <= ms[|acts|].head + cap
      {
        SlotOwnership(ms, acts, |acts|);
      }
    } else {
      var ms, acts := CapacityOneOverwrites(witness0, witness0, 1);
      assert !(ms[|acts|].tail <= ms[|acts|].head + 1);
    }
  }

  // ---------------------------------------------------------------- the retry bound

  /** Per thread, since its call began: sequence loads, spurious failures, and the value the
      counter had at the call. */
  datatype Meter = Meter(loads: nat, weak: nat, base: nat)

  /** The counter the thread competes for. */
  function Counter<V>(m: Machine<V>, t: nat): nat
    requires t < |m.pcs|
  {
    var pc := m.pcs[t];
    if pc.PStart? || pc.PLoaded? || pc.PReady? then m.tail else m.head
  }

  predicate Trying<V>(pc: Pc<V>) {
    pc.PStart? || pc.PLoaded? || pc.PReady? || pc.CStart? || pc.CLoaded? || pc.CReady?
  }

  function Read<V>(m: Machine<V>, w: seq<Meter>, a: Action<V>): seq<Meter>
    requires Enabled(m, a) && |w| == |m.pcs|
  {
    var x := w[a.t];
    match a
    case CallProduce(t, _) => w[t := Meter(0, 0, m.tail)]
    case CallConsume(t) => w[t := Meter(0, 0, m.head)]
    case LoadSeq(t) => w[t := x.(loads := x.loads + 1)]
    case Cas(t, spurious) => if spurious then w[t := x.(weak := x.weak + 1)] else w
    case _ => w
  }

  /** Every counter load of the run returns the current value. */
  ghost predicate Fresh<V>(m: Machine<V>, a: Action<V>) {
    a.LoadCounter? && a.t < |m.pcs| ==> a.seen == if m.pcs[a.t].PStart? then m.tail else m.head
  }

  ghost predicate MeteredRun<V(!new)>(ms: seq<Machine<V>>, acts: seq<Action<V>>, ws: seq<seq<Meter>>) {
    && Run(Unbounded, ms, acts)
    && |ws| == |ms|
    && (forall i :: 0 <= i < |ms| ==> |ws[i]| == |ms[i].pcs|)
    && (forall i :: 0 <= i < |acts| ==> Fresh(ms[i], acts[i]) && ws[i + 1] == Read(ms[i], ws[i], acts[i]))
  }

  /** While thread t is trying, the retries so far are paid for by movements of its counter
      and by spurious failures. */
  ghost predicate MeterOk<V>(m: Machine<V>, w: seq<Meter>, t: nat)
    requires t < |m.pcs| == |w|
  {
    var pc, x := m.pcs[t], w[t];
    Trying(pc) ==>
      && x.base <= Counter(m, t)
      && ((pc.PStart? || pc.CStart?) ==> x.loads <= Counter(m, t) - x.base + x.weak)
      && ((pc.PLoaded? || pc.CLoaded?) ==>
            x.base <= pc.pos <= Counter(m, t) && x.loads <= pc.pos - x.base + x.weak)
      && ((pc.PReady? || pc.CReady?) ==>
            x.base <= pc.pos <= Counter(m, t) && x.loads <= 1 + pc.pos - x.base + x.weak)
  }

  lemma MeterOfOthers<V(!new)>(m: Machine<V>, q: T.State<V>, a: Action<V>, w: seq<Meter>, t: nat)
    requires Inv(m, q) && Enabled(m, a) && |w| == |m.pcs| && t < |m.pcs| && t != a.t
    requires MeterOk(m, w, t)
    ensures MeterOk(Step(Unbounded, m, a), Read(m, w, a), t)
  {
    StepMonotone(m, q, a);
    assert Step(Unbounded, m, a).pcs[t] == m.pcs[t] && Read(m, w, a)[t] == w[t];
  }

  lemma MeterOfLoadSeq<V(!new)>(m: Machine<V>, q: T.State<V>, a: Action<V>, w: seq<Meter>)
    requires Inv(m, q) && Enabled(m, a) && |w| == |m.pcs| && a.LoadSeq?
    requires MeterOk(m, w, a.t)
    ensures MeterOk(Step(Unbounded, m, a), Read(m, w, a), a.t)
  {
    assert PcOk(m, q, a.t);
    if m.pcs[a.t].PLoaded? {
      ProducerSees(m, q, m.pcs[a.t].pos);
    } else {
      ConsumerSees(m, q, m.pcs[a.t].pos);
    }
  }

  lemma MeterOfLoadCounter<V(!new)>(m: Machine<V>, q: T.State<V>, a: Action<V>, w: seq<Meter>)
    requires Inv(m, q) && Enabled(m, a) && Fresh(m, a) && |w| == |m.pcs| && a.LoadCounter?
    requires MeterOk(m, w, a.t)
    ensures MeterOk(Step(Unbounded, m, a), Read(m, w, a), a.t)
  {
    hide Inv;
  }

  lemma MeterOfCas<V(!new)>(m: Machine<V>, q: T.State<V>, a: Action<V>, w: seq<Meter>)
    requires Inv(m, q) && Enabled(m, a) && |w| == |m.pcs| && a.Cas?
    requires MeterOk(m, w, a.t)
    ensures MeterOk(Step(Unbounded, m, a), Read(m, w, a), a.t)
  {
    assert PcOk(m, q, a.t);
    hide Inv;
  }

  /** A call starts, or goes on with its ticket. */
  lemma MeterOfRest<V(!new)>(m: Machine<V>, a: Action<V>, w: seq<Meter>)
    requires Enabled(m, a) && |w| == |m.pcs|
    requires a.CallProduce? || a.CallConsume? || a.CopyData? || a.StoreSeq?
    ensures a.t < |Step(Unbounded, m, a).pcs| == |w| && MeterOk(Step(Unbounded, m, a), Read(m, w, a), a.t)
  {
  }

  lemma SameThreads<V(!new)>(m: Machine<V>, a: Action<V>)
    requires Enabled(m, a)
    ensures |Step(Unbounded, m, a).pcs| == |m.pcs|
  {
  }

  lemma MeterKeeps<V(!new)>(m: Machine<V>, q: T.State<V>, a: Action<V>, w: seq<Meter>, t: nat)
    requires Inv(m, q) && Enabled(m, a) && Fresh(m, a) && |w| == |m.pcs| && t < |m.pcs|
    requires MeterOk(m, w, t)
    ensures |Step(Unbounded, m, a).pcs| == |m.pcs| && MeterOk(Step(Unbounded, m, a), Read(m, w, a), t)
  {
    hide Inv, Step, MeterOk, Read, Fresh;
    SameThreads(m, a);
    if t != a.t {
      MeterOfOthers(m, q, a, w, t);
    } else if a.LoadSeq? {
      MeterOfLoadSeq(m, q, a, w);
    } else if a.LoadCounter? {
      MeterOfLoadCounter(m, q, a, w);
    } else if a.Cas? {
      MeterOfCas(m, q, a, w);
    } else {
      MeterOfRest(m, a, w);
    }
  }

  lemma MeteredStep<V(!new)>(ms: seq<Machine<V>>, acts: seq<Action<V>>, ws: seq<seq<Meter>>, i: nat)
    requires MeteredRun(ms, acts, ws) && i < |acts|
    ensures Run(Unbounded, ms, acts) && |ws[i]| == |ms[i].pcs| && Fresh(ms[i], acts[i])
    ensures Enabled(ms[i], acts[i]) && ms[i + 1] == Step(Unbounded, ms[i], acts[i])
    ensures ws[i + 1] == Read(ms[i], ws[i], acts[i])
  {
  }

  lemma MeteredLengths<V(!new)>(ms: seq<Machine<V>>, acts: seq<Action<V>>, ws: seq<seq<Meter>>)
    requires MeteredRun(ms, acts, ws)
    ensures |ws| == |ms| == |acts| + 1 && forall i :: 0 <= i < |ms| ==> |ws[i]| == |ms[i].pcs|
  {
  }

  lemma MeteredInit<V(!new)>(ms: seq<Machine<V>>, acts: seq<Action<V>>, ws: seq<seq<Meter>>, t: nat)
    requires MeteredRun(ms, acts, ws) && t < |ms[0].pcs|
    ensures MeterOk(ms[0], ws[0], t)
  {
    assert ms[0].pcs[t].Idle?;
  }

  lemma MeterBound<V>(m: Machine<V>, w: seq<Meter>, t: nat)
    requires t < |m.pcs| == |w| && MeterOk(m, w, t) && Trying(m.pcs[t])
    ensures w[t].loads <= 1 + (Counter(m, t) - w[t].base) + w[t].weak
  {
  }

  /** The load that a call makes now, its last one included. */
  lemma LastLoad<V>(m: Machine<V>, w: seq<Meter>, t: nat)
    requires |w| == |m.pcs| && Enabled(m, LoadSeq(t)) && MeterOk(m, w, t)
    ensures var w' := Read(m, w, LoadSeq(t));
      w'[t].weak == w[t].weak && w'[t].loads <= 1 + (Counter(m, t) - w[t].base) + w[t].weak
  {
  }

  /** Retry bound: a call that is still trying, or that returns false at its next sequence
      load, has gone through its loop at most 1 + (growth of its counter during the call)
      + (spurious failures) times. */
  lemma {:induction false} RetryBound<V(!new)>(ms: seq<Machine<V>>, acts: seq<Action<V>>, ws: seq<seq<Meter>>,
                                               i: nat, t: nat)
    requires MeteredRun(ms, acts, ws) && ms[0].cap >= 2 && i < |ms| && t < |ms[i].pcs|
    ensures MeterOk(ms[i], ws[i], t)
    ensures Trying(ms[i].pcs[t]) ==>
      ws[i][t].loads <= 1 + (Counter(ms[i], t) - ws[i][t].base) + ws[i][t].weak
    ensures i < |acts| && acts[i] == LoadSeq(t) ==>
      ws[i + 1][t].loads <= 1 + (Counter(ms[i], t) - ws[i][t].base) + ws[i + 1][t].weak
  {
    hide *;
    MeteredLengths(ms, acts, ws);
    if i == 0 {
      MeteredInit(ms, acts, ws, t);
    } else {
      MeteredStep(ms, acts, ws, i - 1);
      SameThreads(ms[i - 1], acts[i - 1]);
      RetryBound(ms, acts, ws, i - 1, t);
      var q := InvAt(ms, acts, i - 1);
      MeterKeeps(ms[i - 1], q, acts[i - 1], ws[i - 1], t);
    }
    if Trying(ms[i].pcs[t]) {
      MeterBound(ms[i], ws[i], t);
    }
    if i < |acts| && acts[i] == LoadSeq(t) {
      MeteredStep(ms, acts, ws, i);
      LastLoad(ms[i], ws[i], t);
    }
  }

  /** Every turn of the loop that ends neither in success, nor in `false`, nor in a spurious
      failure has seen its counter move past the position it loaded. */
  lemma RetryMeansMoved<V(!new)>(ms: seq<Machine<V>>, acts: seq<Action<V>>, i: nat)
    requires Run(Unbounded, ms, acts) && ms[0].cap >= 2 && i < |acts|
    requires acts[i].LoadSeq? || (acts[i].Cas? && !acts[i].spurious)
    requires ms[i + 1].pcs[acts[i].t].PStart? || ms[i + 1].pcs[acts[i].t].CStart?
    ensures ms[i].pcs[acts[i].t].pos < Counter(ms[i], acts[i].t)
  {
    var m, t := ms[i], acts[i].t;
    var q := InvAt(ms, acts, i);
    assert PcOk(m, q, t);
    assert ms[i + 1] == Step(Unbounded, m, acts[i]);
    if acts[i].LoadSeq? {
      if m.pcs[t].PLoaded? {
        ProducerSees(m, q, m.pcs[t].pos);
      } else {
        ConsumerSees(m, q, m.pcs[t].pos);
      }
    }
  }
}
