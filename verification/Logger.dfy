/** The asynchronous logger: callers test running_ and enqueue, one flush thread takes entries
    through the blocking queue and writes them, and shutdown stops, joins and closes. */
module Logger {
  import Runs
  import T = TicketQueue

  datatype Entry = Entry(level: nat, text: string)

  datatype Caller =
    | LIdle
    | LTest(e: Entry)      // about to test running_ and the level
    | LProduce(e: Entry)   // past the tests; about to enqueue
    | LHolding(k: nat)     // owns ticket k, not yet published

  datatype Flusher =
    | Block                // in consume_blocking
    | Test                 // it returned false; about to test running_
    | Drain                // in the loop of try_consume calls
    | Taken(drain: bool)   // won a ticket; about to give the slot back and write the line
    | Exited

  datatype Shutdown = NotCalled | StopQueue | Join | Closed

  datatype State = State(q: T.State<Entry>, minLevel: nat, running: bool, stop: bool, callers: seq<Caller>,
                         flusher: Flusher, shutdown: Shutdown, file: seq<Entry>)

  datatype Action =
    | LogCall(t: nat, e: Entry) | TestLevel(t: nat) | Refuse(t: nat) | Claim(t: nat) | Publish(t: nat)
    | Take | BlockingFalse | TestRunning | DrainEmpty | Write
    | BeginShutdown | SetStop | JoinAndClose

  predicate Enabled(s: State, a: Action) {
    && |s.q.phase| == |s.q.vals|
    && match a
       case LogCall(t, _) => t < |s.callers| && s.callers[t].LIdle?
       case TestLevel(t) => t < |s.callers| && s.callers[t].LTest?
       case Refuse(t) => t < |s.callers| && s.callers[t].LProduce? && T.Refuses(s.q)
       case Claim(t) => t < |s.callers| && s.callers[t].LProduce? && !T.Refuses(s.q)
       case Publish(t) => t < |s.callers| && s.callers[t].LHolding? && T.Enabled(s.q, T.Publish(s.callers[t].k))
       case Take => (s.flusher.Block? || s.flusher.Drain?) && !T.NothingReady(s.q)
       case BlockingFalse => s.flusher.Block? && (s.stop || T.NothingReady(s.q))
       case TestRunning => s.flusher.Test?
       case DrainEmpty => s.flusher.Drain? && T.NothingReady(s.q)
       case Write => s.flusher.Taken? && s.q.head > 0 && T.Enabled(s.q, T.Release(s.q.head - 1))
       case BeginShutdown => s.running && s.shutdown.NotCalled?
       case SetStop => s.shutdown.StopQueue?
       case JoinAndClose => s.shutdown.Join? && s.flusher.Exited?
  }

  function At(s: State, t: nat, c: Caller): State
    requires t < |s.callers|
  {
    s.(callers := s.callers[t := c])
  }

  function Step(s: State, a: Action): State
    requires Enabled(s, a)
  {
    match a
    case LogCall(t, e) => At(s, t, LTest(e))
    case TestLevel(t) =>
      At(s, t, if s.running && s.callers[t].e.level >= s.minLevel then LProduce(s.callers[t].e) else LIdle)
    case Refuse(t) => At(s, t, LIdle)
    case Claim(t) => At(s.(q := T.Step(s.q, T.Claim(t, s.callers[t].e))), t, LHolding(s.q.Tail()))
    case Publish(t) => At(s.(q := T.Step(s.q, T.Publish(s.callers[t].k))), t, LIdle)
    case Take => s.(q := T.Step(s.q, T.Take(0)), flusher := Taken(s.flusher.Drain?))
    case BlockingFalse => s.(flusher := Test)
    case TestRunning => s.(flusher := if s.running then Block else Drain)
    case DrainEmpty => s.(flusher := Exited)
    case Write =>
      s.(q := T.Step(s.q, T.Release(s.q.head - 1)), file := s.file + [s.q.vals[s.q.head - 1]],
         flusher := if s.flusher.drain then Drain else Block)
    case BeginShutdown => s.(running := false, shutdown := StopQueue)
    case SetStop => s.(stop := true, shutdown := Join)
    case JoinAndClose => s.(shutdown := Closed)
  }

  /** A logger whose init has succeeded. */
  ghost predicate Init(s: State) {
    && s.q.cap >= 2 && s.q == T.Init(s.q.cap) && s.running && !s.stop
    && (forall t :: 0 <= t < |s.callers| ==> s.callers[t].LIdle?)
    && s.flusher.Block? && s.shutdown.NotCalled? && s.file == []
  }

  ghost predicate Next(s: State, a: Action, s': State) {
    Enabled(s, a) && s' == Step(s, a)
  }

  ghost predicate Run(ss: seq<State>, acts: seq<Action>) {
    && |ss| == |acts| + 1 && Init(ss[0])
    && forall i :: 0 <= i < |acts| ==> Next(ss[i], acts[i], ss[i + 1])
  }

  ghost predicate FileOk(s: State)
    requires T.Valid(s.q)
  {
    && (s.flusher.Taken? ==> s.q.head > 0 && s.q.phase[s.q.head - 1].Reading? && s.file == s.q.vals[..s.q.head - 1])
    && (!s.flusher.Taken? ==> s.file == s.q.vals[..s.q.head])
  }

  /** A ticket is being written exactly by the caller that holds it, and read only by the
      flush thread. */
  ghost predicate HoldersOk(s: State)
    requires T.Valid(s.q)
  {
    && (forall k :: 0 <= k < |s.q.phase| && s.q.phase[k].Writing? ==>
          s.q.phase[k].owner < |s.callers| && s.callers[s.q.phase[k].owner] == LHolding(k))
    && (forall t :: 0 <= t < |s.callers| && s.callers[t].LHolding? ==>
          s.callers[t].k < |s.q.phase| && s.q.phase[s.callers[t].k] == T.Writing(t))
    && (forall k :: 0 <= k < |s.q.phase| && s.q.phase[k].Reading? ==> s.flusher.Taken? && k == s.q.head - 1)
  }

  ghost predicate FlagsOk(s: State) {
    && (s.running <==> s.shutdown.NotCalled?)
    && (s.shutdown.Join? ==> s.stop)
    && (s.flusher.Drain? || s.flusher.Exited? || (s.flusher.Taken? && s.flusher.drain) ==> !s.running)
    && (s.shutdown.Closed? ==> s.flusher.Exited?)
  }

  ghost predicate Inv(s: State) {
    T.Valid(s.q) && FileOk(s) && HoldersOk(s) && FlagsOk(s)
  }

  /** The ticket step that an action makes, if any. */
  function Ticket(s: State, a: Action): (r: seq<T.Action<Entry>>)
    requires Enabled(s, a)
    ensures |r| <= 1
  {
    match a
    case Claim(t) => [T.Claim(t, s.callers[t].e)]
    case Publish(t) => [T.Publish(s.callers[t].k)]
    case Take => [T.Take(0)]
    case Write => [T.Release(s.q.head - 1)]
    case _ => []
  }

  lemma TicketStep(s: State, a: Action)
    requires Enabled(s, a)
    ensures if Ticket(s, a) == [] then Step(s, a).q == s.q
            else T.Enabled(s.q, Ticket(s, a)[0]) && Step(s, a).q == T.Step(s.q, Ticket(s, a)[0])
  {
    hide T.Step;
  }

  lemma ValidKeeps(s: State, a: Action)
    requires T.Valid(s.q) && Enabled(s, a)
    ensures T.Valid(Step(s, a).q)
  {
    hide T.Valid, T.Step, T.Enabled, Step, Enabled;
    TicketStep(s, a);
    if Ticket(s, a) != [] {
      T.StepValid(s.q, Ticket(s, a)[0]);
    }
  }

  lemma FileKeeps(s: State, a: Action)
    requires T.Valid(s.q) && FileOk(s) && Enabled(s, a) && T.Valid(Step(s, a).q)
    ensures FileOk(Step(s, a))
  {
    if a.Write? {
      assert s.q.vals[..s.q.head] == s.q.vals[..s.q.head - 1] + [s.q.vals[s.q.head - 1]];
    }
  }

  /** One producer-side ticket step. */
  lemma CallersKeepHolders(s: State, a: Action)
    requires T.Valid(s.q) && HoldersOk(s) && Enabled(s, a) && (a.Claim? || a.Publish?)
    ensures T.Valid(Step(s, a).q) ==> HoldersOk(Step(s, a))
  {
    hide T.Valid, T.Refuses;
    var s', n := Step(s, a), |s.q.phase|;
    forall k | 0 <= k < |s'.q.phase| && s'.q.phase[k].Writing?
      ensures s'.q.phase[k].owner < |s'.callers| && s'.callers[s'.q.phase[k].owner] == LHolding(k)
    {
      assert k < n ==> s.q.phase[k] == s'.q.phase[k];
    }
    forall t | 0 <= t < |s'.callers| && s'.callers[t].LHolding?
      ensures s'.callers[t].k < |s'.q.phase| && s'.q.phase[s'.callers[t].k] == T.Writing(t)
    {
      assert t != a.t ==> s'.callers[t] == s.callers[t];
    }
    forall k | 0 <= k < |s'.q.phase| && s'.q.phase[k].Reading?
      ensures s'.flusher.Taken? && k == s'.q.head - 1
    {
      assert k < n && s.q.phase[k] == s'.q.phase[k];
    }
  }

  /** One consumer-side ticket step. */
  lemma FlusherKeepsHolders(s: State, a: Action)
    requires T.Valid(s.q) && FileOk(s) && HoldersOk(s) && Enabled(s, a) && (a.Take? || a.Write?)
    ensures T.Valid(Step(s, a).q) ==> HoldersOk(Step(s, a))
  {
    hide T.Valid, T.Refuses;
    var s', k := Step(s, a), if a.Take? then s.q.head else s.q.head - 1;
    assert forall i :: 0 <= i < |s.q.phase| && i != k ==> s'.q.phase[i] == s.q.phase[i];
    assert !s.q.phase[k].Writing?;
  }

  /** No ticket step. */
  lemma OthersKeepHolders(s: State, a: Action)
    requires T.Valid(s.q) && HoldersOk(s) && Enabled(s, a) && Ticket(s, a) == []
    ensures Step(s, a).q == s.q && HoldersOk(Step(s, a))
  {
    hide T.Valid, T.Refuses;
    var s' := Step(s, a);
    assert s'.q == s.q && |s'.callers| == |s.callers| && (s.flusher.Taken? <==> s'.flusher.Taken?);
    assert forall t :: 0 <= t < |s.callers| && s.callers[t].LHolding? ==> s'.callers[t] == s.callers[t];
    assert forall t :: 0 <= t < |s.callers| && s'.callers[t].LHolding? ==> s'.callers[t] == s.callers[t];
  }

  lemma HoldersKeep(s: State, a: Action)
    requires T.Valid(s.q) && FileOk(s) && HoldersOk(s) && Enabled(s, a) && T.Valid(Step(s, a).q)
    ensures HoldersOk(Step(s, a))
  {
    hide T.Valid, FileOk, HoldersOk, Step, Enabled;
    if a.Claim? || a.Publish? {
      CallersKeepHolders(s, a);
    } else if a.Take? || a.Write? {
      FlusherKeepsHolders(s, a);
    } else {
      OthersKeepHolders(s, a);
    }
  }

  lemma FlagsKeep(s: State, a: Action)
    requires FlagsOk(s) && Enabled(s, a)
    ensures FlagsOk(Step(s, a))
  {
    hide T.Step, T.Enabled;
  }

  lemma InvKeeps(s: State, a: Action)
    requires Inv(s) && Enabled(s, a)
    ensures Inv(Step(s, a))
  {
    hide T.Valid, FileOk, HoldersOk, FlagsOk, Step, Enabled;
    ValidKeeps(s, a);
    FileKeeps(s, a);
    HoldersKeep(s, a);
    FlagsKeep(s, a);
  }

  lemma {:induction false} InvAt(ss: seq<State>, acts: seq<Action>, i: nat)
    requires Run(ss, acts) && i < |ss|
    ensures Inv(ss[i])
  {
    if i > 0 {
      hide Inv, Step, Enabled, Init;
      InvAt(ss, acts, i - 1);
      assert Next(ss[i - 1], acts[i - 1], ss[i]);
      InvKeeps(ss[i - 1], acts[i - 1]);
    }
  }

  /** The file holds the taken entries in ticket order, each once; at all times it is a prefix
      of the claimed entries. */
  lemma WrittenInOrder(ss: seq<State>, acts: seq<Action>, i: nat)
    requires Run(ss, acts) && i < |ss|
    ensures ss[i].file <= ss[i].q.vals
    ensures !ss[i].flusher.Taken? ==> |ss[i].file| == ss[i].q.head
  {
    InvAt(ss, acts, i);
  }

  /** Nothing below the configured level gets past the test. */
  ghost predicate LevelsOk(s: State) {
    && (forall k :: 0 <= k < |s.q.vals| ==> s.q.vals[k].level >= s.minLevel)
    && (forall t :: 0 <= t < |s.callers| && s.callers[t].LProduce? ==> s.callers[t].e.level >= s.minLevel)
  }

  lemma LevelsKeep(s: State, a: Action)
    requires LevelsOk(s) && Enabled(s, a)
    ensures LevelsOk(Step(s, a)) && Step(s, a).minLevel == s.minLevel
  {
    hide T.Refuses, T.NothingReady;
    if a.LogCall? || a.TestLevel? || a.Refuse? || a.Claim? || a.Publish? {
      assert forall t :: 0 <= t < |s.callers| && t != a.t ==> Step(s, a).callers[t] == s.callers[t];
    }
  }

  lemma FileFromQueue(s: State)
    requires Inv(s)
    ensures s.file <= s.q.vals
  {
  }

  /** Only entries of the configured level or above are ever enqueued or written. */
  lemma {:induction false} OnlyEnabledLevels(ss: seq<State>, acts: seq<Action>, i: nat)
    requires Run(ss, acts) && i < |ss|
    ensures LevelsOk(ss[i]) && ss[i].minLevel == ss[0].minLevel
    ensures forall e :: e in ss[i].file ==> e.level >= ss[0].minLevel
  {
    hide Step, Enabled, Inv;
    if i > 0 {
      OnlyEnabledLevels(ss, acts, i - 1);
      assert Next(ss[i - 1], acts[i - 1], ss[i]);
      LevelsKeep(ss[i - 1], acts[i - 1]);
    }
    InvAt(ss, acts, i);
    FileFromQueue(ss[i]);
  }

  // ---------------------------------------------------------------- every enabled entry, unchanged

  predicate OfCaller(a: Action, t: nat) {
    (a.LogCall? || a.TestLevel? || a.Refuse? || a.Claim? || a.Publish?) && a.t == t
  }

  /** A caller stands still while others move. */
  lemma StandsStill(s: State, a: Action, t: nat)
    requires Enabled(s, a) && t < |s.callers| && !OfCaller(a, t)
    ensures |Step(s, a).callers| == |s.callers| && Step(s, a).callers[t] == s.callers[t]
  {
    hide T.Refuses, T.NothingReady, T.Step;
  }

  lemma {:induction false} StandsUntil(ss: seq<State>, acts: seq<Action>, i: nat, j: nat, t: nat)
    requires Run(ss, acts) && i <= j < |ss| && t < |ss[i].callers|
    requires forall m :: i <= m < j ==> !OfCaller(acts[m], t)
    ensures t < |ss[j].callers| && ss[j].callers[t] == ss[i].callers[t]
    decreases j
  {
    if i < j {
      hide Step, Enabled, Init;
      StandsUntil(ss, acts, i, j - 1, t);
      assert Next(ss[j - 1], acts[j - 1], ss[j]);
      StandsStill(ss[j - 1], acts[j - 1], t);
    }
  }

  lemma CallStep(s: State, t: nat, e: Entry)
    requires Enabled(s, LogCall(t, e))
    ensures t < |s.callers| == |Step(s, LogCall(t, e)).callers| && Step(s, LogCall(t, e)).callers[t] == LTest(e)
  {
  }

  lemma MinLevelStays(ss: seq<State>, acts: seq<Action>, i: nat)
    requires Run(ss, acts) && i < |ss|
    ensures ss[i].minLevel == ss[0].minLevel
  {
    OnlyEnabledLevels(ss, acts, i);
  }

  lemma TestStep(s: State, t: nat)
    requires Enabled(s, TestLevel(t))
    ensures t < |s.callers| == |Step(s, TestLevel(t)).callers| && s.callers[t].LTest?
    ensures Step(s, TestLevel(t)).callers[t] ==
      if s.running && s.callers[t].e.level >= s.minLevel then LProduce(s.callers[t].e) else LIdle
  {
  }

  /** The level test is exact: the call log(e) made at step i and tested at step j goes on to
      enqueue that very entry if and only if the logger runs and the entry has at least the
      configured level; otherwise the call is over. */
  lemma TestIsExact(ss: seq<State>, acts: seq<Action>, i: nat, j: nat, t: nat)
    requires Run(ss, acts) && i < j < |acts| && acts[i].LogCall? && acts[i].t == t && acts[j] == TestLevel(t)
    requires forall m :: i < m < j ==> !OfCaller(acts[m], t)
    ensures t < |ss[j + 1].callers|
    ensures ss[j + 1].callers[t] ==
      if ss[j].running && acts[i].e.level >= ss[0].minLevel then LProduce(acts[i].e) else LIdle
  {
    hide Step, Enabled, Init;
    assert Next(ss[i], acts[i], ss[i + 1]);
    CallStep(ss[i], t, acts[i].e);
    StandsUntil(ss, acts, i + 1, j, t);
    assert Next(ss[j], acts[j], ss[j + 1]);
    TestStep(ss[j], t);
    MinLevelStays(ss, acts, j);
  }

  lemma ClaimAdds(s: State, a: Action)
    requires Enabled(s, a)
    ensures a.Claim? ==> a.t < |s.callers| && s.callers[a.t].LProduce?
    ensures Step(s, a).q.vals == s.q.vals + (if a.Claim? then [s.callers[a.t].e] else [])
  {
    hide T.Refuses, T.NothingReady;
  }

  lemma {:induction false} ValuesStay(ss: seq<State>, acts: seq<Action>, i: nat, j: nat)
    requires Run(ss, acts) && i <= j < |ss|
    ensures ss[i].q.vals <= ss[j].q.vals
    decreases j
  {
    if i < j {
      hide Step, Enabled, Init;
      ValuesStay(ss, acts, i, j - 1);
      assert Next(ss[j - 1], acts[j - 1], ss[j]);
      ClaimAdds(ss[j - 1], acts[j - 1]);
    }
  }

  /** An entry that has passed the test and is accepted (step k) stands in the queue, level and
      text unchanged, under the ticket that was next, from then on. */
  lemma AcceptedUnchanged(ss: seq<State>, acts: seq<Action>, i: nat, j: nat, k: nat, n: nat, t: nat)
    requires Run(ss, acts) && i < j < k < |acts| && k < n < |ss|
    requires acts[i].LogCall? && acts[i].t == t && acts[j] == TestLevel(t) && acts[k] == Claim(t)
    requires forall m :: i < m < k && m != j ==> !OfCaller(acts[m], t)
    ensures ss[j].running && acts[i].e.level >= ss[0].minLevel
    ensures ss[k].q.Tail() < |ss[n].q.vals| && ss[n].q.vals[ss[k].q.Tail()] == acts[i].e
  {
    hide Step, Enabled, Init;
    TestIsExact(ss, acts, i, j, t);
    StandsUntil(ss, acts, j + 1, k, t);
    assert Next(ss[k], acts[k], ss[k + 1]);
    ClaimAdds(ss[k], acts[k]);
    ValuesStay(ss, acts, k + 1, n);
  }

  lemma CallersChange(s: State, a: Action, t: nat)
    requires Enabled(s, a) && t < |Step(s, a).callers|
    ensures |Step(s, a).callers| == |s.callers|
    ensures var c := Step(s, a).callers[t];
      c.LTest? || c.LProduce? ==>
        a == LogCall(t, c.e) || ((s.callers[t].LTest? || s.callers[t].LProduce?) && s.callers[t].e == c.e)
  {
    hide T.Refuses, T.NothingReady, T.Step;
  }

  /** Who called log with the entry that thread t is about to test or to enqueue. */
  lemma {:induction false} CallOf(ss: seq<State>, acts: seq<Action>, n: nat, t: nat) returns (i: nat)
    requires Run(ss, acts) && n < |ss| && t < |ss[n].callers|
    requires ss[n].callers[t].LTest? || ss[n].callers[t].LProduce?
    ensures i < n && acts[i] == LogCall(t, ss[n].callers[t].e)
  {
    if n > 0 {
      var s, a := ss[n - 1], acts[n - 1];
      assert Next(s, a, ss[n]);
      CallersChange(s, a, t);
      if a.LogCall? && a.t == t {
        i := n - 1;
      } else {
        i := CallOf(ss, acts, n - 1, t);
      }
    }
  }

  /** Nothing is made up: every entry in the queue, and so every line of the file, is the entry
      of a log call, level and text unchanged. */
  lemma {:induction false} EntryOfCall(ss: seq<State>, acts: seq<Action>, n: nat, k: nat) returns (i: nat)
    requires Run(ss, acts) && n < |ss| && k < |ss[n].q.vals|
    ensures i < n && acts[i].LogCall? && acts[i].e == ss[n].q.vals[k]
  {
    if n > 0 {
      hide Step, Enabled;
      assert Next(ss[n - 1], acts[n - 1], ss[n]);
      ClaimAdds(ss[n - 1], acts[n - 1]);
      if k < |ss[n - 1].q.vals| {
        i := EntryOfCall(ss, acts, n - 1, k);
      } else {
        i := CallOf(ss, acts, n - 1, acts[n - 1].t);
      }
    }
  }

  lemma OnlyFlusherReads(s: State)
    requires Inv(s) && !s.flusher.Taken?
    ensures forall k :: 0 <= k < |s.q.phase| ==> !s.q.phase[k].Reading?
  {
  }

  /** A log call past the test is dropped only if the queue is full: as many entries as it holds
      are claimed and not given back - not taken either, unless the flush thread is at one. */
  lemma DroppedOnlyWhenFull(ss: seq<State>, acts: seq<Action>, i: nat)
    requires Run(ss, acts) && i < |acts| && acts[i].Refuse?
    ensures var s := ss[i];
      && |s.q.phase| == |s.q.vals| && s.q.Tail() >= s.q.cap > 0 && !s.q.phase[s.q.Tail() - s.q.cap].Released?
      && (!s.flusher.Taken? ==> s.q.Tail() - s.q.head == s.q.cap)
  {
    InvAt(ss, acts, i);
    assert Next(ss[i], acts[i], ss[i + 1]);
    T.RefusalIsExact(ss[i].q);
    if !ss[i].flusher.Taken? {
      OnlyFlusherReads(ss[i]);
    }
  }

  // ---------------------------------------------------------------- drain on shutdown

  predicate PastTest(c: Caller) { c.LProduce? || c.LHolding? }

  ghost predicate NonePastTest(s: State) {
    forall t :: 0 <= t < |s.callers| ==> !PastTest(s.callers[t])
  }

  /** Shutdown has begun and no log call is past its running_ test. */
  ghost predicate Quieted(s: State) {
    !s.running && NonePastTest(s)
  }

  ghost predicate Settled(s: State) {
    Inv(s) && Quieted(s) && (s.flusher.Exited? ==> s.q.head == s.q.Tail())
  }

  /** The end of one round of the flush loops: an entry written, or nothing handed out. */
  predicate IsPass(a: Action) { a.Write? || a.BlockingFalse? || a.DrainEmpty? }

  /** How many rounds the flush thread of a settled logger can still make. */
  function Left(s: State): int {
    s.q.Tail() - s.q.head
    + match s.flusher
      case Block => 2
      case Taken(drain) => if drain then 2 else 3
      case Exited => 0
      case _ => 1
  }

  lemma NothingLeft(s: State)
    requires T.Valid(s.q) && HoldersOk(s) && NonePastTest(s) && T.NothingReady(s.q)
    ensures s.q.head == s.q.Tail()
  {
    forall k | 0 <= k < |s.q.phase|
      ensures !s.q.phase[k].Writing?
    {
    }
    T.RefusalIsExact(s.q);
  }

  /** No log call gets past the test any more. */
  lemma QuietedStep(s: State, a: Action)
    requires Quieted(s) && Enabled(s, a)
    ensures Quieted(Step(s, a)) && Step(s, a).q.vals == s.q.vals
  {
    hide T.Refuses, T.NothingReady;
  }

  lemma LeftStep(s: State, a: Action)
    requires Quieted(s) && Enabled(s, a) && (a.DrainEmpty? ==> s.q.head == s.q.Tail())
    requires s.flusher.Exited? ==> s.q.head == s.q.Tail()
    ensures var s' := Step(s, a);
      && Left(s') + (if IsPass(a) then 1 else 0) <= Left(s)
      && (s'.flusher.Exited? ==> s'.q.head == s'.q.Tail())
  {
    hide T.Refuses, T.NothingReady;
  }

  lemma SettledStep(s: State, a: Action)
    requires Settled(s) && Enabled(s, a)
    ensures var s' := Step(s, a);
      Settled(s') && s'.q.vals == s.q.vals && Left(s') + (if IsPass(a) then 1 else 0) <= Left(s)
  {
    InvKeeps(s, a);
    if a.DrainEmpty? {
      NothingLeft(s);
    }
    hide Inv, Quieted, Left, IsPass, Step, Enabled;
    QuietedStep(s, a);
    LeftStep(s, a);
  }

  lemma NoPasses()
    ensures Runs.Tally(IsPass, []) == 0
  {
  }

  lemma OneTally(a: Action)
    ensures Runs.Tally(IsPass, [a]) == if IsPass(a) then 1 else 0
  {
    Runs.TallyNext(IsPass, [], a);
    assert [] + [a] == [a];
  }

  lemma FirstTally(acts: seq<Action>)
    requires acts != []
    ensures Runs.Tally(IsPass, acts) == (if IsPass(acts[0]) then 1 else 0) + Runs.Tally(IsPass, acts[1..])
  {
    assert acts == [acts[0]] + acts[1..];
    Runs.TallySplit(IsPass, [acts[0]], acts[1..]);
    OneTally(acts[0]);
  }

  lemma {:induction false} SettledAlong(s: State, acts: seq<Action>, s': State)
    requires Settled(s) && Runs.Leads(Next, s, acts, s')
    ensures Settled(s') && s'.q.vals == s.q.vals && Left(s') + Runs.Tally(IsPass, acts) <= Left(s)
    decreases |acts|
  {
    hide Settled, Left, Step, Enabled, Runs.Tally, IsPass;
    NoPasses();
    if acts != [] {
      var m: State :| Next(s, acts[0], m) && Runs.Leads(Next, m, acts[1..], s');
      SettledStep(s, acts[0]);
      SettledAlong(m, acts[1..], s');
      FirstTally(acts);
    }
  }

  lemma BeginSettles(s: State)
    requires Inv(s) && Enabled(s, BeginShutdown) && NonePastTest(s)
    ensures Settled(Step(s, BeginShutdown))
  {
    InvKeeps(s, BeginShutdown);
  }

  /** Drain on shutdown: if no log call is past its running_ test when shutdown begins, then
      once shutdown has returned the file holds every entry ever accepted, in ticket order. */
  lemma DrainOnShutdown(ss: seq<State>, acts: seq<Action>, i: nat, j: nat)
    requires Run(ss, acts) && i < |acts| && i < j < |ss| && acts[i].BeginShutdown?
    requires NonePastTest(ss[i]) && ss[j].shutdown.Closed?
    ensures ss[j].file == ss[j].q.vals == ss[i].q.vals
  {
    InvAt(ss, acts, i);
    assert Next(ss[i], acts[i], ss[i + 1]);
    BeginSettles(ss[i]);
    Runs.Between(Next, ss, acts, i + 1, j);
    SettledAlong(ss[i + 1], acts[i + 1..j], ss[j]);
  }

  /** The drain ends: once shutdown has begun with no log call past its test, the flush thread
      is gone after at most three rounds more than there are entries left, and the file is
      complete. */
  lemma FlushEnds(ss: seq<State>, acts: seq<Action>, i: nat, j: nat)
    requires Run(ss, acts) && i <= j < |ss| && Quieted(ss[i]) && !ss[i].flusher.Exited?
    requires Runs.Tally(IsPass, acts[i..j]) >= ss[i].q.Tail() - ss[i].q.head + 3
    ensures ss[j].flusher.Exited? && ss[j].file == ss[j].q.vals == ss[i].q.vals
  {
    InvAt(ss, acts, i);
    Runs.Between(Next, ss, acts, i, j);
    SettledAlong(ss[i], acts[i..j], ss[j]);
  }

  /** Every entry whose log call was accepted is in the file. */
  ghost predicate AllWritten(s: State)
    requires |s.q.phase| == |s.q.vals|
  {
    forall k :: 0 <= k < |s.q.phase| && !s.q.phase[k].Writing? ==> k < |s.file| && s.file[k] == s.q.vals[k]
  }

  /** Whatever happens from here on, when the shutdown that begins now has returned every
      accepted entry is in the file. */
  ghost predicate ShutdownWritesAll(s: State) {
    forall acts: seq<Action>, s': State ::
      acts != [] && acts[0].BeginShutdown? && Runs.Leads(Next, s, acts, s') && s'.shutdown.Closed?
      ==> |s'.q.phase| == |s'.q.vals| && AllWritten(s')
  }

  function Rank(f: Flusher): nat {
    match f
    case Block => 2
    case Test => 1
    case Drain => 0
    case Taken(drain) => if drain then 1 else 3
    case Exited => 0
  }

  function FlusherMove(s: State): Action
    requires |s.q.phase| == |s.q.vals|
  {
    match s.flusher
    case Block => BlockingFalse
    case Test => TestRunning
    case Drain => if T.NothingReady(s.q) then DrainEmpty else Take
    case _ => Write
  }

  /** The flush thread alone has moved from s to s'. */
  ghost predicate Flushing(s: State, s': State) {
    && s' == s.(q := s'.q, file := s'.file, flusher := s'.flusher) && s'.q.vals == s.q.vals && Inv(s')
    && (s'.flusher.Exited? && !s.flusher.Exited? ==> T.NothingReady(s'.q))
  }

  lemma FlusherMoves(s: State)
    requires Inv(s) && s.stop && !s.running && !s.flusher.Exited?
    ensures Enabled(s, FlusherMove(s)) && Flushing(s, Step(s, FlusherMove(s)))
    ensures var s' := Step(s, FlusherMove(s));
      s'.flusher.Exited?
      || 2 * (s'.q.Tail() - s'.q.head) + Rank(s'.flusher) < 2 * (s.q.Tail() - s.q.head) + Rank(s.flusher)
    ensures s.q.head <= s.q.Tail()
  {
    InvKeeps(s, FlusherMove(s));
  }

  lemma HasPhases(s: State)
    requires Inv(s)
    ensures |s.q.phase| == |s.q.vals| && s.q.head <= s.q.Tail()
    ensures s.running ==> !s.flusher.Exited?
    ensures s.flusher.Taken? ==> s.q.head > 0 && T.Enabled(s.q, T.Release(s.q.head - 1))
  {
  }

  /** Once stop is set the flush thread can go on alone until it is gone. */
  lemma {:induction false} FlushOut(s: State) returns (acts: seq<Action>, s': State)
    requires Inv(s) && s.stop && !s.running && !s.flusher.Exited?
    ensures Runs.Leads(Next, s, acts, s') && Flushing(s, s') && s'.flusher.Exited?
    decreases 2 * (s.q.Tail() - s.q.head) + Rank(s.flusher)
  {
    hide Inv, Enabled, Step, Rank, T.NothingReady, FlusherMove;
    HasPhases(s);
    var a := FlusherMove(s);
    FlusherMoves(s);
    s' := Step(s, a);
    Runs.One(Next, s, a, s');
    acts := [a];
    if !s'.flusher.Exited? {
      var m, rest := s', [];
      rest, s' := FlushOut(m);
      Runs.Join(Next, s, [a], m, rest, s');
      acts := [a] + rest;
    }
  }

  /** A log call past its test can still be accepted after the flush thread has gone. */
  lemma LateAccept(s: State, t: nat) returns (acts: seq<Action>, s': State)
    requires Inv(s) && s.flusher.Exited? && T.NothingReady(s.q) && t < |s.callers|
    requires s.callers[t].LHolding?
             || (s.callers[t].LProduce? && forall u :: 0 <= u < |s.callers| ==> !s.callers[u].LHolding?)
    ensures Runs.Leads(Next, s, acts, s') && s'.shutdown == s.shutdown
    ensures |s'.q.phase| == |s'.q.vals| && !AllWritten(s')
  {
    if s.callers[t].LHolding? {
      var k := s.callers[t].k;
      s', acts := Step(s, Publish(t)), [Publish(t)];
      Runs.One(Next, s, Publish(t), s');
      assert s'.q.phase[k].Full? && k >= |s'.file|;
    } else {
      T.RefusalIsExact(s.q);
      var m := Step(s, Claim(t));
      InvKeeps(s, Claim(t));
      Runs.One(Next, s, Claim(t), m);
      s' := Step(m, Publish(t));
      acts := [Claim(t)] + [Publish(t)];
      Runs.One(Next, m, Publish(t), s');
      Runs.Join(Next, s, [Claim(t)], m, [Publish(t)], s');
      assert s'.q.phase[s.q.Tail()].Full? && s.q.Tail() >= |s'.file|;
    }
  }

  lemma LateEntry(s: State, t: nat) returns (acts: seq<Action>, s': State)
    requires Inv(s) && Enabled(s, BeginShutdown) && t < |s.callers| && PastTest(s.callers[t])
    ensures acts != [] && acts[0].BeginShutdown? && Runs.Leads(Next, s, acts, s') && s'.shutdown.Closed?
    ensures |s'.q.phase| == |s'.q.vals| && !AllWritten(s')
  {
    hide Inv, T.NothingReady, AllWritten, Runs.Leads;
    HasPhases(s);
    var s1 := Step(s, BeginShutdown);
    var s2 := Step(s1, SetStop);
    InvKeeps(s, BeginShutdown);
    InvKeeps(s1, SetStop);
    var flush, s3 := FlushOut(s2);
    HasPhases(s3);
    var s4 := Step(s3, JoinAndClose);
    InvKeeps(s3, JoinAndClose);
    var u := if exists v: nat :: v < |s4.callers| && s4.callers[v].LHolding?
             then var v: nat :| v < |s4.callers| && s4.callers[v].LHolding?; v else t;
    var late;
    late, s' := LateAccept(s4, u);
    Runs.One(Next, s3, JoinAndClose, s4);
    Runs.Join(Next, s3, [JoinAndClose], s4, late, s');
    Runs.Join(Next, s2, flush, s3, [JoinAndClose] + late, s');
    Runs.One(Next, s1, SetStop, s2);
    Runs.Join(Next, s1, [SetStop], s2, flush + ([JoinAndClose] + late), s');
    Runs.One(Next, s, BeginShutdown, s1);
    acts := [BeginShutdown] + ([SetStop] + (flush + ([JoinAndClose] + late)));
    Runs.Join(Next, s, [BeginShutdown], s1, [SetStop] + (flush + ([JoinAndClose] + late)), s');
  }

  /** Exactly when shutdown writes every accepted entry, whatever happens meanwhile: no log
      call is past its running_ test at the moment running_ is cleared. */
  lemma DrainIffNonePastTest(ss: seq<State>, acts: seq<Action>, i: nat)
    requires Run(ss, acts) && i < |ss| && Enabled(ss[i], BeginShutdown)
    ensures ShutdownWritesAll(ss[i]) <==> NonePastTest(ss[i])
  {
    InvAt(ss, acts, i);
    var s := ss[i];
    if NonePastTest(s) {
      BeginSettles(s);
      forall more: seq<Action>, s': State
        | more != [] && more[0].BeginShutdown? && Runs.Leads(Next, s, more, s') && s'.shutdown.Closed?
        ensures |s'.q.phase| == |s'.q.vals| && AllWritten(s')
      {
        var m: State :| Next(s, more[0], m) && Runs.Leads(Next, m, more[1..], s');
        SettledAlong(m, more[1..], s');
      }
    } else {
      var t :| 0 <= t < |s.callers| && PastTest(s.callers[t]);
      var more, s' := LateEntry(s, t);
    }
  }

  /** An instance: the call has passed its test, shutdown runs to its end, and then the entry
      is accepted. */
  lemma LateEntryIsLost(e: Entry) returns (ss: seq<State>, acts: seq<Action>)
    ensures Run(ss, acts)
    ensures var s := ss[|acts|]; s.shutdown.Closed? && |s.q.phase| == |s.q.vals| && !AllWritten(s)
  {
    var s0 := State(T.Init(8192), 0, true, false, [LIdle], Block, NotCalled, []);
    var s1 := s0.(callers := [LTest(e)]);
    var s2 := s0.(callers := [LProduce(e)]);
    assert Next(s0, LogCall(0, e), s1) && Next(s1, TestLevel(0), s2);
    assert Inv(s2);
    var more, s' := LateEntry(s2, 0);
    Runs.One(Next, s1, TestLevel(0), s2);
    Runs.Join(Next, s1, [TestLevel(0)], s2, more, s');
    Runs.One(Next, s0, LogCall(0, e), s1);
    Runs.Join(Next, s0, [LogCall(0, e)], s1, [TestLevel(0)] + more, s');
    acts := [LogCall(0, e)] + ([TestLevel(0)] + more);
    ss := Runs.Trace(Next, s0, acts, s');
  }

  // ---------------------------------------------------------------- the flush thread's code

  predicate ByFlusher(a: Action) {
    a.Take? || a.BlockingFalse? || a.TestRunning? || a.DrainEmpty? || a.Write?
  }

  class Logger {
    var queue: T.State<Entry>
    var minLevel: nat
    var running: bool
    var stop: bool
    var file: seq<Entry>
    var callers: seq<Caller>    // where the other threads and the flush thread stand
    var flusher: Flusher
    var shutdown: Shutdown
    ghost var start: State
    ghost var acts: seq<Action>

    function View(): State
      reads this
    {
      State(queue, minLevel, running, stop, callers, flusher, shutdown, file)
    }

    /** Everything done so far is a run of the transition system. */
    ghost predicate Valid()
      reads this
    {
      Inv(View()) && Runs.Leads(Next, start, acts, View())
    }

    constructor (minLevel: nat, threads: nat)
      ensures Valid() && Init(View()) && View() == start && acts == []
      ensures this.minLevel == minLevel && |callers| == threads && queue.cap == 8192
    {
      queue, this.minLevel, running, stop, file := T.Init(8192), minLevel, true, false, [];
      callers, flusher, shutdown := seq(threads, _ => LIdle), Block, NotCalled;
      start := State(T.Init(8192), minLevel, true, false, seq(threads, _ => LIdle), Block, NotCalled, []);
      acts := [];
    }

    /** The fields have just made step a from state before. */
    ghost method Did(a: Action, before: State)
      requires Inv(before) && Runs.Leads(Next, start, acts, before) && Enabled(before, a) && View() == Step(before, a)
      modifies `acts
      ensures Valid() && acts == old(acts) + [a]
      ensures Runs.Tally(IsPass, acts) == old(Runs.Tally(IsPass, acts)) + (if IsPass(a) then 1 else 0)
    {
      hide Inv, Enabled, Step, Runs.Tally;
      Runs.TallyNext(IsPass, acts, a);
      InvKeeps(before, a);
      Runs.LeadsOn(Next, start, acts, before, a, View());
      acts := acts + [a];
    }

    /** What the other threads do between two steps of the flush thread. */
    method Others(sched: seq<Action>)
      requires Valid()
      modifies this
      ensures Valid() && start == old(start) && old(acts) <= acts && flusher == old(flusher) && file == old(file)
      ensures Runs.Tally(IsPass, acts) == old(Runs.Tally(IsPass, acts))
    {
      hide *;
      for i := 0 to |sched|
        invariant Valid() && start == old(start) && old(acts) <= acts && flusher == old(flusher) && file == old(file)
        invariant Runs.Tally(IsPass, acts) == old(Runs.Tally(IsPass, acts))
      {
        Other(sched[i]);
      }
    }

    method Other(a: Action)
      requires Valid()
      modifies this
      ensures Valid() && start == old(start) && old(acts) <= acts && flusher == old(flusher) && file == old(file)
      ensures Runs.Tally(IsPass, acts) == old(Runs.Tally(IsPass, acts))
    {
      hide Inv, Runs.Leads, Runs.Tally;
      if !ByFlusher(a) && Enabled(View(), a) {
        ghost var before := View();
        var s := Step(View(), a);
        queue, running, stop, callers, shutdown := s.q, s.running, s.stop, s.callers, s.shutdown;
        Did(a, before);
      }
    }

    /** A successful consume, up to the write of what it returned. */
    method TakeHead() returns (e: Entry)
      requires Valid() && (flusher.Block? || flusher.Drain?) && !T.NothingReady(queue)
      modifies this
      ensures Valid() && start == old(start) && old(acts) <= acts
      ensures e == old(queue).vals[old(queue).head]
      ensures flusher == Taken(old(flusher).Drain?) && 0 < queue.head <= queue.Tail() && queue.vals[queue.head - 1] == e
      ensures file == old(file) && running == old(running)
      ensures Runs.Tally(IsPass, acts) == old(Runs.Tally(IsPass, acts))
    {
      hide Inv, Runs.Leads, Runs.Tally;
      ghost var before := View();
      HasPhases(before);
      e := queue.vals[queue.head];
      queue, flusher := T.Step(queue, T.Take(0)), Taken(flusher.Drain?);
      Did(Take, before);
      HasPhases(View());
    }

    method WriteLine(e: Entry)
      requires Valid() && flusher.Taken? && 0 < queue.head <= queue.Tail() && queue.vals[queue.head - 1] == e
      modifies this
      ensures Valid() && start == old(start) && old(acts) <= acts
      ensures flusher == (if old(flusher).drain then Drain else Block)
      ensures file == old(file) + [e] && running == old(running)
      ensures Runs.Tally(IsPass, acts) == old(Runs.Tally(IsPass, acts)) + 1
    {
      hide Inv, Runs.Leads, Runs.Tally;
      ghost var before := View();
      HasPhases(before);
      queue := T.Step(queue, T.Release(queue.head - 1));
      file := file + [e];
      flusher := if flusher.drain then Drain else Block;
      Did(Write, before);
    }

    /** One consume call: blocking in the main loop, plain in the drain loop.  `expired` says
        that the blocking call has waited out its time and is at its last try, which does not
        look at stop_. */
    method ConsumeAndWrite(expired: bool) returns (ok: bool)
      requires Valid() && (flusher.Block? || flusher.Drain?)
      modifies this
      ensures Valid() && start == old(start) && old(acts) <= acts
      ensures ok <==> !(old(flusher).Block? && old(stop) && !expired) && !T.NothingReady(old(queue))
      ensures ok ==> flusher == old(flusher) && file == old(file) + [old(queue).vals[old(queue).head]]
      ensures !ok ==> file == old(file) && flusher == if old(flusher).Block? then Test else Exited
      ensures Runs.Tally(IsPass, acts) == old(Runs.Tally(IsPass, acts)) + 1
    {
      hide Inv, Runs.Leads, Runs.Tally;
      ghost var before := View();
      HasPhases(before);
      if flusher.Block? && ((stop && !expired) || T.NothingReady(queue)) {
        flusher := Test;
        Did(BlockingFalse, before);
        return false;
      }
      if T.NothingReady(queue) {
        flusher := Exited;
        Did(DrainEmpty, before);
        return false;
      }
      var e := TakeHead();
      WriteLine(e);
      return true;
    }

    /** After a false reply: leave the main loop once running_ is false. */
    method TestRunningFlag() returns (leave: bool)
      requires Valid() && flusher.Test?
      modifies this
      ensures Valid() && start == old(start) && old(acts) <= acts && file == old(file)
      ensures leave == !running && flusher == if running then Block else Drain
      ensures Runs.Tally(IsPass, acts) == old(Runs.Tally(IsPass, acts))
    {
      hide Inv, Runs.Leads, Runs.Tally;
      ghost var before := View();
      HasPhases(before);
      flusher := if running then Block else Drain;
      Did(TestRunning, before);
      return !running;
    }

    /** flushLoop.  Before each consume come a part of the schedule of the other threads and
        whether the wait has timed out.  The loop has returned when done; otherwise every part
        was played and each was followed by one round.  Entered when shutdown has begun and no
        log call is past its test, it returns within two rounds more than there are entries
        left, and has written them all. */
    method FlushLoop(sched: seq<(seq<Action>, bool)>) returns (done: bool)
      requires Valid() && flusher.Block?
      modifies this
      ensures Valid() && start == old(start) && old(acts) <= acts
      ensures done <==> flusher.Exited?
      ensures old(file) <= file
      ensures Runs.Tally(IsPass, acts) <= old(Runs.Tally(IsPass, acts)) + |sched|
      ensures !done ==> Runs.Tally(IsPass, acts) == old(Runs.Tally(IsPass, acts)) + |sched|
      ensures old(Quieted(View())) && |sched| >= old(queue.Tail() - queue.head) + 2 ==>
        done && file == queue.vals == old(queue.vals)
    {
      hide Inv, Quieted, Runs.Leads, Runs.Tally;
      done := Loops(sched);
      if old(Quieted(View())) {
        Ends(old(View()), old(acts));
      }
    }

    /** What a settled logger has done since it was at s. */
    lemma Ends(s: State, before: seq<Action>)
      requires Valid() && Inv(s) && Quieted(s) && s.flusher.Block?
      requires Runs.Leads(Next, start, before, s) && before <= acts
      ensures queue.vals == s.q.vals && (flusher.Exited? ==> file == queue.vals)
      ensures Runs.Tally(IsPass, acts) - Runs.Tally(IsPass, before) >= s.q.Tail() - s.q.head + 2 ==> flusher.Exited?
    {
      var since := acts[|before|..];
      assert acts == before + since;
      Runs.Rest(Next, start, before, s, since, View());
      Runs.TallySplit(IsPass, before, since);
      SettledAlong(s, since, View());
    }

    /** The two loops. */
    method Loops(sched: seq<(seq<Action>, bool)>) returns (done: bool)
      requires Valid() && flusher.Block?
      modifies this
      ensures Valid() && start == old(start) && old(acts) <= acts
      ensures done <==> flusher.Exited?
      ensures old(file) <= file
      ensures Runs.Tally(IsPass, acts) <= old(Runs.Tally(IsPass, acts)) + |sched|
      ensures !done ==> Runs.Tally(IsPass, acts) == old(Runs.Tally(IsPass, acts)) + |sched|
    {
      hide *;
      var i := 0;
      while true
        invariant Valid() && flusher.Block? && start == old(start) && old(acts) <= acts && old(file) <= file
        invariant 0 <= i <= |sched| && Runs.Tally(IsPass, acts) == old(Runs.Tally(IsPass, acts)) + i
        decreases |sched| - i
      {
        if i == |sched| {
          return false;
        }
        Others(sched[i].0);
        var ok := ConsumeAndWrite(sched[i].1);
        i := i + 1;
        if !ok {
          var leave := TestRunningFlag();
          if leave {
            break;
          }
        }
      }
      while i < |sched|
        invariant Valid() && flusher.Drain? && start == old(start) && old(acts) <= acts && old(file) <= file
        invariant 0 <= i <= |sched| && Runs.Tally(IsPass, acts) == old(Runs.Tally(IsPass, acts)) + i
        decreases |sched| - i
      {
        Others(sched[i].0);
        var ok := ConsumeAndWrite(sched[i].1);
        i := i + 1;
        if !ok {
          return true;
        }
      }
      return false;
    }
  }

  /** The flush thread of a new logger among any number of other threads.  The result is the
      end of a run, with one round for every part of the schedule unless the thread has
      returned; so what is proved of runs holds of it.  In particular, if from some point on
      the logger is quiet and the schedule leaves enough rounds, the thread has returned and
      everything is written. */
  method RunFlushThread(minLevel: nat, threads: nat, sched: seq<(seq<Action>, bool)>)
    returns (done: bool, file: seq<Entry>, last: State, ghost ss: seq<State>, ghost acts: seq<Action>)
    ensures Run(ss, acts) && ss[|acts|] == last
    ensures ss[0].minLevel == minLevel && |ss[0].callers| == threads && ss[0].q.cap == 8192
    ensures file == last.file <= last.q.vals && forall e :: e in file ==> e.level >= minLevel
    ensures done <==> last.flusher.Exited?
    ensures !done ==> Runs.Tally(IsPass, acts) == |sched|
    ensures forall i :: 0 <= i <= |acts| && Quieted(ss[i]) && !ss[i].flusher.Exited?
                        && Runs.Tally(IsPass, acts[i..]) >= ss[i].q.Tail() - ss[i].q.head + 3 ==>
              done && file == last.q.vals == ss[i].q.vals
  {
    hide Inv, Step, Enabled, Runs.Leads, Runs.Tally, Quieted;
    var l := new Logger(minLevel, threads);
    ghost var first := l.View();
    NoPasses();
    done := l.FlushLoop(sched);
    file, last := l.file, l.View();
    acts := l.acts;
    ss := Runs.Trace(Next, l.start, acts, last);
    OnlyEnabledLevels(ss, acts, |acts|);
    WrittenInOrder(ss, acts, |acts|);
    forall i | 0 <= i <= |acts| && Quieted(ss[i]) && !ss[i].flusher.Exited?
               && Runs.Tally(IsPass, acts[i..]) >= ss[i].q.Tail() - ss[i].q.head + 3
      ensures done && file == last.q.vals == ss[i].q.vals
    {
      assert acts[i..] == acts[i..|acts|];
      FlushEnds(ss, acts, i, |acts|);
    }
  }
}
