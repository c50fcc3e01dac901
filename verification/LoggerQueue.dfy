/** The logger on the blocking queue it is built on: what log calls, the flush thread and
    shutdown do inside the queue are steps of BlockingQueue, locks and notifications included.
    Every run is matched, step by step, by a run of Logger. */
module LoggerQueue {
  import B = BlockingQueue
  import L = Logger
  import Runs
  import T = TicketQueue

  datatype Outer = Out | Testing(e: L.Entry) | InProduce

  datatype Flush =
    | CallMain               // about to call consume_blocking
    | InMain
    | Line(drain: bool)      // got an entry; about to write its line
    | TestFlag               // got false; about to test running_
    | CallDrain              // about to call try_consume
    | InDrain
    | Gone

  datatype Shut = NotCalled | CallStop | InStop | Join | Closed

  datatype World = World(b: B.State<L.Entry>, minLevel: nat, running: bool, outer: seq<Outer>,
                         flush: Flush, shut: Shut, file: seq<L.Entry>)

  datatype Act =
    | LogCall(t: nat, e: L.Entry) | TestLevel(t: nat) | Producing(a: B.Action<L.Entry>)
    | ConsumeBlocking | TryConsume | Consuming(a: B.Action<L.Entry>) | WriteLine | TestRunning
    | BeginShutdown | Stop | Stopping(a: B.Action<L.Entry>) | JoinAndClose

  predicate ByProduce(a: B.Action<L.Entry>) {
    a.Refuse? || a.Claim? || a.Publish? || a.ProducerLock? || a.NotifyOne? || a.ProducerUnlock?
  }

  predicate ByConsume(a: B.Action<L.Entry>) {
    B.ByConsumerThread(a) && !a.ConsumeCall? && !a.TryCall?
  }

  predicate ByStop(a: B.Action<L.Entry>) {
    a.StopLock? || a.SetStop? || a.StopUnlock? || a.NotifyAll?
  }

  predicate Enabled(w: World, act: Act) {
    match act
    case LogCall(t, _) => t < |w.outer| && w.outer[t].Out?
    case TestLevel(t) => t < |w.outer| && w.outer[t].Testing? && B.Enabled(w.b, B.ProduceCall(t, w.outer[t].e))
    case Producing(a) => ByProduce(a) && B.Enabled(w.b, a) && a.t < |w.outer| && w.outer[a.t].InProduce?
    case ConsumeBlocking => w.flush.CallMain? && B.Enabled(w.b, B.ConsumeCall(true))
    case TryConsume => w.flush.CallDrain? && B.Enabled(w.b, B.TryCall)
    case Consuming(a) => (w.flush.InMain? || w.flush.InDrain?) && ByConsume(a) && B.Enabled(w.b, a)
    case WriteLine => w.flush.Line? && w.b.got != []
    case TestRunning => w.flush.TestFlag?
    case BeginShutdown => w.running && w.shut.NotCalled?
    case Stop => w.shut.CallStop? && B.Enabled(w.b, B.StopCall)
    case Stopping(a) => w.shut.InStop? && ByStop(a) && B.Enabled(w.b, a)
    case JoinAndClose => w.shut.Join? && w.flush.Gone?
  }

  /** Where the flush thread goes on after a step inside a consume call. */
  function AfterConsume(flush: Flush, b: B.State<L.Entry>): Flush {
    if !b.consumer.CIdle? then flush
    else if b.answer.Item? then Line(flush.InDrain?)
    else if flush.InMain? then TestFlag else Gone
  }

  function Step(w: World, act: Act): World
    requires Enabled(w, act)
  {
    match act
    case LogCall(t, e) => w.(outer := w.outer[t := Testing(e)])
    case TestLevel(t) =>
      if w.running && w.outer[t].e.level >= w.minLevel
      then w.(b := B.Step(w.b, B.ProduceCall(t, w.outer[t].e)), outer := w.outer[t := InProduce])
      else w.(outer := w.outer[t := Out])
    case Producing(a) =>
      var b := B.Step(w.b, a);
      w.(b := b, outer := w.outer[a.t := if a.Refuse? || a.ProducerUnlock? then Out else InProduce])
    case ConsumeBlocking => w.(b := B.Step(w.b, B.ConsumeCall(true)), flush := InMain)
    case TryConsume => w.(b := B.Step(w.b, B.TryCall), flush := InDrain)
    case Consuming(a) => var b := B.Step(w.b, a); w.(b := b, flush := AfterConsume(w.flush, b))
    case WriteLine =>
      w.(file := w.file + [w.b.got[|w.b.got| - 1]], flush := if w.flush.drain then CallDrain else CallMain)
    case TestRunning => w.(flush := if w.running then CallMain else CallDrain)
    case BeginShutdown => w.(running := false, shut := CallStop)
    case Stop => w.(b := B.Step(w.b, B.StopCall), shut := InStop)
    case Stopping(a) => w.(b := B.Step(w.b, a), shut := if a.NotifyAll? then Join else InStop)
    case JoinAndClose => w.(shut := Closed)
  }

  ghost predicate Init(w: World) {
    && B.Init(w.b) && w.running && |w.outer| == |w.b.producers|
    && (forall t :: 0 <= t < |w.outer| ==> w.outer[t].Out?)
    && w.flush.CallMain? && w.shut.NotCalled? && w.file == []
  }

  ghost predicate Next(w: World, act: Act, w': World) {
    Enabled(w, act) && w' == Step(w, act)
  }

  // ---------------------------------------------------------------- what Logger makes of it

  function CallerOf(o: Outer, p: B.Producer<L.Entry>): L.Caller {
    match o
    case Out => L.LIdle
    case Testing(e) => L.LTest(e)
    case InProduce =>
      match p
      case PTrying(e) => L.LProduce(e)
      case PHolding(k) => L.LHolding(k)
      case _ => L.LIdle  // accepted; the rest is notification
  }

  function FlusherOf(flush: Flush, c: B.Consumer): L.Flusher {
    match flush
    case CallMain => L.Block
    case InMain => if c.CTaken? then L.Taken(false) else L.Block
    case Line(drain) => if drain then L.Drain else L.Block
    case TestFlag => L.Test
    case CallDrain => L.Drain
    case InDrain => if c.CTaken? then L.Taken(true) else L.Drain
    case Gone => L.Exited
  }

  function ShutdownOf(shut: Shut, stop: bool): L.Shutdown {
    match shut
    case NotCalled => L.NotCalled
    case CallStop => L.StopQueue
    case InStop => if stop then L.Join else L.StopQueue
    case Join => L.Join
    case Closed => L.Closed
  }

  /** The file of Logger is what the flush thread has got; its last line may be yet to write. */
  function Seen(w: World): L.State
    requires |w.outer| == |w.b.producers|
  {
    L.State(w.b.q, w.minLevel, w.running, w.b.stop,
            seq(|w.outer|, t requires 0 <= t < |w.outer| => CallerOf(w.outer[t], w.b.producers[t])),
            FlusherOf(w.flush, w.b.consumer), ShutdownOf(w.shut, w.b.stop), w.b.got)
  }

  /** The step of Logger that an action makes, if any. */
  function Match(w: World, act: Act): (r: seq<L.Action>)
    ensures |r| <= 1
  {
    match act
    case LogCall(t, e) => [L.LogCall(t, e)]
    case TestLevel(t) => [L.TestLevel(t)]
    case Producing(a) =>
      (match a
       case Refuse(t) => [L.Refuse(t)]
       case Claim(t) => [L.Claim(t)]
       case Publish(t) => [L.Publish(t)]
       case _ => [])
    case Consuming(a) =>
      (match a
       case CheckStop => if w.b.stop then [L.BlockingFalse] else []
       case Take => [L.Take]
       case Release => [L.Write]
       case FindNothing =>
         if w.flush.InDrain? then [L.DrainEmpty]
         else if w.b.consumer == B.CTry(B.Last) then [L.BlockingFalse] else []
       case _ => [])
    case TestRunning => [L.TestRunning]
    case BeginShutdown => [L.BeginShutdown]
    case Stopping(a) => if a.SetStop? then [L.SetStop] else []
    case JoinAndClose => [L.JoinAndClose]
    case _ => []
  }

  ghost predicate Matched(w: World, act: Act, w': World)
    requires |w.outer| == |w.b.producers| && |w'.outer| == |w'.b.producers|
  {
    if Match(w, act) == [] then Seen(w') == Seen(w) else L.Next(Seen(w), Match(w, act)[0], Seen(w'))
  }

  // ---------------------------------------------------------------- the invariant

  ghost predicate CallersOk(w: World) {
    && |w.outer| == |w.b.producers|
    && (forall t :: 0 <= t < |w.outer| ==> (w.outer[t].InProduce? <==> !w.b.producers[t].PIdle?))
  }

  predicate FlushOk(w: World) {
    match w.flush
    case InMain =>
      && !w.b.consumer.CIdle?
      && (w.b.consumer.CTry? || w.b.consumer.CTaken? ==> !w.b.consumer.mode.Plain?)
    case InDrain => (w.b.consumer.CTry? || w.b.consumer.CTaken?) && w.b.consumer.mode.Plain?
    case _ => w.b.consumer.CIdle?
  }

  predicate ShutOk(w: World) {
    match w.shut
    case InStop => !w.b.stopper.SIdle? && (w.b.stop <==> w.b.stopper.SUnlock? || w.b.stopper.SNotify?)
    case Join => w.b.stopper.SIdle? && w.b.stop
    case Closed => w.b.stopper.SIdle? && w.b.stop
    case _ => w.b.stopper.SIdle? && !w.b.stop
  }

  predicate FileOk(w: World) {
    if w.flush.Line? then w.b.got != [] && w.file == w.b.got[..|w.b.got| - 1] else w.file == w.b.got
  }

  ghost predicate Inv(w: World) {
    B.Inv(w.b) && CallersOk(w) && FlushOk(w) && ShutOk(w) && FileOk(w)
  }

  /** What the logger's outer state relies on. */
  ghost predicate Shell(w: World) {
    CallersOk(w) && FlushOk(w) && ShutOk(w) && FileOk(w)
  }

  lemma CallsLog(w: World, t: nat, e: L.Entry)
    requires |w.b.q.phase| == |w.b.q.vals| && Shell(w) && Enabled(w, LogCall(t, e))
    ensures Shell(Step(w, LogCall(t, e))) && Matched(w, LogCall(t, e), Step(w, LogCall(t, e)))
  {
    hide T.Refuses, T.NothingReady;
    var w' := Step(w, LogCall(t, e));
    assert L.Step(Seen(w), L.LogCall(t, e)).callers == Seen(w').callers;
  }

  /** The call enters produce. */
  lemma EntersProduce(w: World, t: nat, e: L.Entry)
    requires CallersOk(w) && t < |w.outer| && w.outer[t] == Testing(e) && B.Enabled(w.b, B.ProduceCall(t, e))
    ensures var b := B.Step(w.b, B.ProduceCall(t, e));
      b == w.b.(producers := w.b.producers[t := B.PTrying(e)])
  {
  }

  lemma TestPasses(w: World, t: nat)
    requires |w.b.q.phase| == |w.b.q.vals| && Shell(w) && Enabled(w, TestLevel(t))
    requires w.running && w.outer[t].e.level >= w.minLevel
    ensures Shell(Step(w, TestLevel(t))) && Matched(w, TestLevel(t), Step(w, TestLevel(t)))
  {
    EntersProduce(w, t, w.outer[t].e);
    hide T.Refuses, T.NothingReady, B.Step, B.Enabled;
    assert L.Step(Seen(w), L.TestLevel(t)).callers == Seen(Step(w, TestLevel(t))).callers;
  }

  lemma TestStops(w: World, t: nat)
    requires |w.b.q.phase| == |w.b.q.vals| && Shell(w) && Enabled(w, TestLevel(t))
    requires !(w.running && w.outer[t].e.level >= w.minLevel)
    ensures Shell(Step(w, TestLevel(t))) && Matched(w, TestLevel(t), Step(w, TestLevel(t)))
  {
    hide T.Refuses, T.NothingReady, B.Step;
    assert L.Step(Seen(w), L.TestLevel(t)).callers == Seen(Step(w, TestLevel(t))).callers;
  }

  lemma TestsLevel(w: World, t: nat)
    requires |w.b.q.phase| == |w.b.q.vals| && Shell(w) && Enabled(w, TestLevel(t))
    ensures Shell(Step(w, TestLevel(t))) && Matched(w, TestLevel(t), Step(w, TestLevel(t)))
  {
    hide Shell, Matched, Step;
    if w.running && w.outer[t].e.level >= w.minLevel {
      TestPasses(w, t);
    } else {
      TestStops(w, t);
    }
  }

  /** A step of produce: the callers. */
  lemma ProduceCallers(w: World, a: B.Action<L.Entry>)
    requires CallersOk(w) && Enabled(w, Producing(a))
    ensures var w' := Step(w, Producing(a));
      && CallersOk(w') && |w'.outer| == |w.outer|
      && forall t :: 0 <= t < |w.outer| && t != a.t ==>
           CallerOf(w'.outer[t], w'.b.producers[t]) == CallerOf(w.outer[t], w.b.producers[t])
  {
    hide T.Refuses, T.NothingReady;
    var w' := Step(w, Producing(a));
    assert forall t :: 0 <= t < |w.outer| && t != a.t ==> w'.b.producers[t] == w.b.producers[t];
  }

  /** A step of produce: nothing else but a notification. */
  lemma ProduceRest(b: B.State<L.Entry>, a: B.Action<L.Entry>)
    requires B.Enabled(b, a) && ByProduce(a)
    ensures var b' := B.Step(b, a);
      && b'.got == b.got && b'.stop == b.stop && b'.stopper == b.stopper
      && (b'.consumer == b.consumer || b'.consumer == B.Notified(b.consumer))
  {
    hide T.Refuses;
  }

  /** The mutex and the notification, which Logger does not see. */
  lemma NotifiesSimulate(w: World, a: B.Action<L.Entry>)
    requires |w.b.q.phase| == |w.b.q.vals| && Shell(w) && Enabled(w, Producing(a))
    requires a.ProducerLock? || a.NotifyOne? || a.ProducerUnlock?
    ensures Shell(Step(w, Producing(a))) && Matched(w, Producing(a), Step(w, Producing(a)))
  {
    ProduceCallers(w, a);
    ProduceRest(w.b, a);
    hide T.Refuses, T.NothingReady, CallersOk;
    var w' := Step(w, Producing(a));
    assert CallerOf(w'.outer[a.t], w'.b.producers[a.t]) == CallerOf(w.outer[a.t], w.b.producers[a.t]);
    assert Seen(w').callers == Seen(w).callers;
  }

  /** The refusal, the claim and the publication. */
  lemma TicketsSimulate(w: World, a: B.Action<L.Entry>)
    requires |w.b.q.phase| == |w.b.q.vals| && Shell(w) && Enabled(w, Producing(a))
    requires a.Refuse? || a.Claim? || a.Publish?
    ensures Shell(Step(w, Producing(a))) && Matched(w, Producing(a), Step(w, Producing(a)))
  {
    ProduceCallers(w, a);
    ProduceRest(w.b, a);
    hide T.Refuses, T.NothingReady, CallersOk;
    var w' := Step(w, Producing(a));
    assert L.Step(Seen(w), Match(w, Producing(a))[0]).callers == Seen(w').callers;
  }

  lemma ProduceSimulates(w: World, a: B.Action<L.Entry>)
    requires |w.b.q.phase| == |w.b.q.vals| && Shell(w) && Enabled(w, Producing(a))
    ensures Shell(Step(w, Producing(a))) && Matched(w, Producing(a), Step(w, Producing(a)))
  {
    hide Matched, Shell, Step;
    if a.Refuse? || a.Claim? || a.Publish? {
      TicketsSimulate(w, a);
    } else {
      NotifiesSimulate(w, a);
    }
  }

  lemma CallSimulates(w: World, act: Act)
    requires |w.b.q.phase| == |w.b.q.vals| && Shell(w) && Enabled(w, act) && (act.ConsumeBlocking? || act.TryConsume?)
    ensures Shell(Step(w, act)) && Matched(w, act, Step(w, act))
  {
    hide T.Refuses, T.NothingReady;
    assert Seen(Step(w, act)).callers == Seen(w).callers;
  }

  /** A step of the consumer leaves the others where they are. */
  lemma ConsumeRest(b: B.State<L.Entry>, a: B.Action<L.Entry>)
    requires B.Enabled(b, a) && ByConsume(a)
    ensures var b' := B.Step(b, a); b'.producers == b.producers && b'.stop == b.stop && b'.stopper == b.stopper
  {
    hide T.Refuses;
  }

  lemma TakenIsHead(b: B.State<L.Entry>)
    requires B.Inv(b)
    ensures b.consumer.CTaken? ==> b.consumer.k + 1 == b.q.head
  {
  }

  lemma SameShell(w: World, act: Act)
    requires CallersOk(w) && ShutOk(w) && Enabled(w, act) && act.Consuming?
    ensures CallersOk(Step(w, act)) && ShutOk(Step(w, act)) && Step(w, act).outer == w.outer
    ensures |w.outer| == |w.b.producers|
  {
    hide B.Step, B.Enabled;
    ConsumeRest(w.b, act.a);
  }

  /** Taking a value and giving its slot back. */
  lemma TakesSimulate(w: World, a: B.Action<L.Entry>)
    requires B.Inv(w.b) && Shell(w) && Enabled(w, Consuming(a)) && (a.Take? || a.Release?)
    ensures Shell(Step(w, Consuming(a))) && Matched(w, Consuming(a), Step(w, Consuming(a)))
  {
    B.HasPhases(w.b);
    TakenIsHead(w.b);
    hide B.Inv, T.Refuses, CallersOk, ShutOk;
    ConsumeRest(w.b, a);
    SameShell(w, Consuming(a));
    assert Seen(Step(w, Consuming(a))).callers == Seen(w).callers;
  }

  /** The tests, and what follows them. */
  lemma TestsSimulate(w: World, a: B.Action<L.Entry>)
    requires |w.b.q.phase| == |w.b.q.vals| && Shell(w) && Enabled(w, Consuming(a)) && (a.CheckStop? || a.FindNothing?)
    ensures Shell(Step(w, Consuming(a))) && Matched(w, Consuming(a), Step(w, Consuming(a)))
  {
    hide T.Refuses, T.NothingReady, CallersOk, ShutOk;
    ConsumeRest(w.b, a);
    SameShell(w, Consuming(a));
    assert Seen(Step(w, Consuming(a))).callers == Seen(w).callers;
  }

  /** Locking and waiting. */
  lemma WaitsSimulate(w: World, a: B.Action<L.Entry>)
    requires |w.b.q.phase| == |w.b.q.vals| && Shell(w) && Enabled(w, Consuming(a))
    requires !a.Take? && !a.Release? && !a.CheckStop? && !a.FindNothing?
    ensures Shell(Step(w, Consuming(a))) && Matched(w, Consuming(a), Step(w, Consuming(a)))
  {
    hide T.Refuses, T.NothingReady, CallersOk, ShutOk;
    ConsumeRest(w.b, a);
    SameShell(w, Consuming(a));
    assert Seen(Step(w, Consuming(a))).callers == Seen(w).callers;
  }

  lemma ConsumeSimulates(w: World, a: B.Action<L.Entry>)
    requires B.Inv(w.b) && Shell(w) && Enabled(w, Consuming(a))
    ensures Shell(Step(w, Consuming(a))) && Matched(w, Consuming(a), Step(w, Consuming(a)))
  {
    B.HasPhases(w.b);
    hide B.Inv, Matched, Shell, Enabled, Step;
    if a.Take? || a.Release? {
      TakesSimulate(w, a);
    } else if a.CheckStop? || a.FindNothing? {
      TestsSimulate(w, a);
    } else {
      WaitsSimulate(w, a);
    }
  }

  lemma FlushSimulates(w: World, act: Act)
    requires |w.b.q.phase| == |w.b.q.vals| && Shell(w) && Enabled(w, act)
    requires act.WriteLine? || act.TestRunning? || act.BeginShutdown? || act.JoinAndClose?
    ensures Shell(Step(w, act)) && Matched(w, act, Step(w, act))
  {
    hide T.Refuses, T.NothingReady;
    assert Seen(Step(w, act)).callers == Seen(w).callers;
  }

  /** A step of stop leaves all but flags, lock and notification where they are. */
  lemma StopRest(b: B.State<L.Entry>, a: B.Action<L.Entry>)
    requires B.Enabled(b, a) && (a.StopCall? || ByStop(a))
    ensures var b' := B.Step(b, a);
      && b'.producers == b.producers && b'.q == b.q && b'.got == b.got
      && (b'.consumer == b.consumer || b'.consumer == B.Notified(b.consumer))
      && b'.stop == (b.stop || a.SetStop?)
      && match a
         case StopCall => b.stopper.SIdle? && b'.stopper.SLock?
         case StopLock => b.stopper.SLock? && b'.stopper.SSet?
         case SetStop => b.stopper.SSet? && b'.stopper.SUnlock?
         case StopUnlock => b.stopper.SUnlock? && b'.stopper.SNotify?
         case _ => b.stopper.SNotify? && b'.stopper.SIdle?
  {
    hide T.Refuses;
  }

  lemma StopSimulates(w: World, act: Act)
    requires |w.b.q.phase| == |w.b.q.vals| && Shell(w) && Enabled(w, act) && (act.Stop? || act.Stopping?)
    ensures Shell(Step(w, act)) && Matched(w, act, Step(w, act))
  {
    StopRest(w.b, if act.Stop? then B.StopCall else act.a);
    hide T.Refuses, T.NothingReady, B.Step, B.Enabled;
    assert Seen(Step(w, act)).callers == Seen(w).callers;
  }

  /** What the queue itself keeps. */
  lemma QueueKeeps(w: World, act: Act)
    requires B.Inv(w.b) && Enabled(w, act)
    ensures B.Inv(Step(w, act).b)
  {
    hide B.Inv, B.Step, B.Enabled;
    match act
    case TestLevel(t) =>
      B.InvKeeps(w.b, B.ProduceCall(t, w.outer[t].e));
    case Producing(a) => B.InvKeeps(w.b, a);
    case ConsumeBlocking => B.InvKeeps(w.b, B.ConsumeCall(true));
    case TryConsume => B.InvKeeps(w.b, B.TryCall);
    case Consuming(a) => B.InvKeeps(w.b, a);
    case Stop => B.InvKeeps(w.b, B.StopCall);
    case Stopping(a) => B.InvKeeps(w.b, a);
    case _ =>
  }

  /** Every step keeps the invariant and is at most one step of Logger. */
  lemma Simulates(w: World, act: Act)
    requires Inv(w) && Enabled(w, act)
    ensures Inv(Step(w, act)) && Matched(w, act, Step(w, act))
  {
    QueueKeeps(w, act);
    B.HasPhases(w.b);
    hide B.Inv, Matched, CallersOk, FlushOk, ShutOk, FileOk, Step, Enabled;
    match act
    case LogCall(t, e) => CallsLog(w, t, e);
    case TestLevel(t) => TestsLevel(w, t);
    case Producing(a) => ProduceSimulates(w, a);
    case ConsumeBlocking => CallSimulates(w, act);
    case TryConsume => CallSimulates(w, act);
    case Consuming(a) => ConsumeSimulates(w, a);
    case Stop => StopSimulates(w, act);
    case Stopping(_) => StopSimulates(w, act);
    case _ => FlushSimulates(w, act);
  }

  lemma HasOuter(w: World)
    requires Inv(w)
    ensures |w.outer| == |w.b.producers|
  {
  }

  lemma MatchCalls(w: World, act: Act)
    ensures forall a :: a in Match(w, act) && a.LogCall? ==> act == LogCall(a.t, a.e)
  {
  }

  /** Refinement: what Logger sees of any stretch of steps is a stretch of steps of Logger. */
  lemma {:induction false} Refines(w: World, acts: seq<Act>, w': World) returns (seen: seq<L.Action>)
    requires Inv(w) && Runs.Leads(Next, w, acts, w')
    ensures Inv(w') && Runs.Leads(L.Next, Seen(w), seen, Seen(w'))
    ensures forall a :: a in seen && a.LogCall? ==> LogCall(a.t, a.e) in acts
    decreases |acts|
  {
    HasOuter(w);
    if acts == [] {
      seen := [];
    } else {
      hide Inv, Step, Enabled, Seen, L.Next;
      var m: World :| Next(w, acts[0], m) && Runs.Leads(Next, m, acts[1..], w');
      Simulates(w, acts[0]);
      seen := Refines(m, acts[1..], w');
      HasOuter(m);
      HasOuter(w');
      MatchCalls(w, acts[0]);
      assert forall a :: a in acts[1..] ==> a in acts;
      if Match(w, acts[0]) != [] {
        Runs.One(L.Next, Seen(w), Match(w, acts[0])[0], Seen(m));
        Runs.Join(L.Next, Seen(w), [Match(w, acts[0])[0]], Seen(m), seen, Seen(w'));
        seen := [Match(w, acts[0])[0]] + seen;
      }
    }
  }

  lemma InitSeen(w: World)
    requires Init(w)
    ensures Inv(w) && L.Init(Seen(w)) && L.Inv(Seen(w))
  {
  }

  lemma {:induction false} LoggerInvAlong(s: L.State, acts: seq<L.Action>, s': L.State)
    requires L.Inv(s) && Runs.Leads(L.Next, s, acts, s')
    ensures L.Inv(s')
    decreases |acts|
  {
    if acts != [] {
      hide L.Inv, L.Step, L.Enabled;
      var m: L.State :| L.Next(s, acts[0], m) && Runs.Leads(L.Next, m, acts[1..], s');
      L.InvKeeps(s, acts[0]);
      LoggerInvAlong(m, acts[1..], s');
    }
  }

  /** Reachable states, and what Logger sees of them. */
  lemma Reached(w0: World, acts: seq<Act>, w: World)
    requires Init(w0) && Runs.Leads(Next, w0, acts, w)
    ensures Inv(w) && |w.outer| == |w.b.producers| && L.Inv(Seen(w))
  {
    hide Inv, L.Inv, Seen, Init, L.Init, L.Next, Next;
    InitSeen(w0);
    HasOuter(w0);
    var seen := Refines(w0, acts, w);
    HasOuter(w);
    LoggerInvAlong(Seen(w0), seen, Seen(w));
  }

  /** The log call of thread t is inside produce and its entry not yet published. */
  predicate Undecided(w: World, t: nat)
    requires t < |w.outer| == |w.b.producers|
  {
    w.outer[t].InProduce? && (w.b.producers[t].PTrying? || w.b.producers[t].PHolding?)
  }

  lemma DecidedSeen(w: World)
    requires |w.outer| == |w.b.producers| && forall t :: 0 <= t < |w.outer| ==> !Undecided(w, t)
    ensures L.NonePastTest(Seen(w))
  {
    forall t | 0 <= t < |w.outer|
      ensures !L.PastTest(Seen(w).callers[t])
    {
      assert !Undecided(w, t);
    }
  }

  lemma BeginSeen(w: World)
    requires Inv(w) && L.Inv(Seen(w)) && Enabled(w, BeginShutdown)
    requires forall t :: 0 <= t < |w.outer| ==> !Undecided(w, t)
    ensures Inv(Step(w, BeginShutdown)) && L.Settled(Seen(Step(w, BeginShutdown)))
    ensures Step(w, BeginShutdown).b == w.b
  {
    Simulates(w, BeginShutdown);
    hide B.Inv, CallersOk, FlushOk, FileOk, L.Inv;
    assert L.Next(Seen(w), L.BeginShutdown, Seen(Step(w, BeginShutdown)));
    DecidedSeen(w);
    L.BeginSettles(Seen(w));
  }

  lemma ClosedSeen(w: World)
    requires Inv(w) && L.Settled(Seen(w)) && w.shut.Closed?
    ensures w.file == w.b.q.vals
  {
  }

  /** Drain on shutdown, on the queue as it is: if shutdown begins while no log call is between
      its test and the publication of its entry, then once it has returned the closed file
      holds every entry ever accepted, in ticket order - whatever locks, waits, timeouts and
      notifications came in between. */
  lemma DrainOnShutdown(w0: World, before: seq<Act>, w: World, after: seq<Act>, w': World)
    requires Init(w0) && Runs.Leads(Next, w0, before, w) && Enabled(w, BeginShutdown)
    requires |w.outer| == |w.b.producers| && forall t :: 0 <= t < |w.outer| ==> !Undecided(w, t)
    requires Runs.Leads(Next, Step(w, BeginShutdown), after, w') && w'.shut.Closed?
    ensures w'.file == w'.b.q.vals == w.b.q.vals
  {
    hide Inv, L.Inv, Init, L.Settled, Undecided, Enabled, Step, L.Next, Next;
    Reached(w0, before, w);
    BeginSeen(w);
    var m := Step(w, BeginShutdown);
    HasOuter(m);
    var more := Refines(m, after, w');
    HasOuter(w');
    L.SettledAlong(Seen(m), more, Seen(w'));
    ClosedSeen(w');
  }

  /** At every moment the file is a prefix of the claimed entries, in ticket order. */
  lemma WrittenInOrder(w0: World, acts: seq<Act>, w: World)
    requires Init(w0) && Runs.Leads(Next, w0, acts, w)
    ensures w.file <= w.b.got <= w.b.q.vals && |w.b.got| <= |w.file| + 1
  {
    Reached(w0, acts, w);
    B.HasPhases(w.b);
  }

  /** Nothing is made up: every entry in the queue is that of a log call. */
  lemma EntryOfCall(w0: World, acts: seq<Act>, w: World, k: nat) returns (t: nat)
    requires Init(w0) && Runs.Leads(Next, w0, acts, w) && k < |w.b.q.vals|
    ensures LogCall(t, w.b.q.vals[k]) in acts
  {
    hide Inv, L.Inv, L.Init, Init, Next, L.Step, L.Enabled;
    InitSeen(w0);
    HasOuter(w0);
    var seen := Refines(w0, acts, w);
    HasOuter(w);
    var ss := Runs.Trace(L.Next, Seen(w0), seen, Seen(w));
    var i := L.EntryOfCall(ss, seen, |seen|, k);
    t := seen[i].t;
    assert seen[i] in seen;
  }

  /** A step of another thread, or of this one inside produce. */
  predicate OfCaller(act: Act, t: nat) {
    match act
    case LogCall(u, _) => u == t
    case TestLevel(u) => u == t
    case Producing(a) => ByProduce(a) && a.t == t
    case _ => false
  }

  lemma StandsStill(w: World, act: Act, t: nat)
    requires Enabled(w, act) && t < |w.outer| && !OfCaller(act, t)
    ensures t < |Step(w, act).outer| && Step(w, act).outer[t] == w.outer[t] && Step(w, act).minLevel == w.minLevel
  {
    hide B.Step, B.Enabled;
  }

  lemma {:induction false} StandsAlong(w: World, acts: seq<Act>, w': World, t: nat)
    requires Runs.Leads(Next, w, acts, w') && t < |w.outer| && forall a :: a in acts ==> !OfCaller(a, t)
    ensures t < |w'.outer| && w'.outer[t] == w.outer[t] && w'.minLevel == w.minLevel
    decreases |acts|
  {
    if acts != [] {
      hide Step, Enabled;
      var m: World :| Next(w, acts[0], m) && Runs.Leads(Next, m, acts[1..], w');
      assert acts[0] in acts && forall a :: a in acts[1..] ==> a in acts;
      StandsStill(w, acts[0], t);
      StandsAlong(m, acts[1..], w', t);
    }
  }

  /** The level test is exact: after log(e), and whatever the others do, the call enters produce
      with that very entry if and only if the logger runs and e has at least the configured
      level; otherwise it is over and the queue is untouched. */
  lemma TestIsExact(w: World, t: nat, e: L.Entry, others: seq<Act>, m: World)
    requires Enabled(w, LogCall(t, e)) && Runs.Leads(Next, Step(w, LogCall(t, e)), others, m)
    requires (forall a :: a in others ==> !OfCaller(a, t)) && Enabled(m, TestLevel(t))
    ensures var w' := Step(m, TestLevel(t));
      if m.running && e.level >= w.minLevel
      then t < |w'.outer| && w'.outer[t] == InProduce
           && t < |w'.b.producers| && w'.b.producers[t] == B.PTrying(e)
      else t < |w'.outer| && w'.outer[t] == Out && w'.b == m.b
  {
    StandsAlong(Step(w, LogCall(t, e)), others, m, t);
    assert m.outer[t] == Testing(e);
  }
}
