/** The blocking wrapper: a ticket queue, a mutex, a condition variable and a stop flag, with
    any number of producers, one consumer and one stopping thread.  Every lock operation,
    queue step, notification and wake-up is a step of its own. */
module BlockingQueue {
  import opened Words
  import Runs
  import T = TicketQueue

  datatype Producer<V> =
    | PIdle
    | PTrying(v: V)      // inside the lock-free produce, no ticket yet
    | PHolding(k: nat)   // owns ticket k, not yet published
    | PLock(k: nat)      // published; about to lock the mutex
    | PNotify(k: nat)    // holds the mutex; about to notify_one
    | PUnlock            // notified; about to unlock and return true

  /** Which call of the lock-free consume: in the wait loop, the last try after a timeout
      (both under the mutex), or try_consume (without it). */
  datatype Mode = Loop(timed: bool) | Last | Plain

  datatype Consumer =
    | CIdle
    | CLock(timed: bool)                   // about to lock the mutex
    | CCheck(timed: bool)                  // holds it; about to test stop_
    | CTry(mode: Mode)                     // about to consume
    | CTaken(mode: Mode, k: nat)           // won ticket k; about to give the slot back
    | CPark(timed: bool)                   // found nothing, still holds the mutex; about to wait
    | CParked(timed: bool, woken: bool)    // waiting, mutex released
    | CWoken(timed: bool, expired: bool)   // about to lock the mutex again

  datatype Stopper = SIdle | SLock | SSet | SUnlock | SNotify

  datatype Holder = Free | ByProducer(t: nat) | ByConsumer | ByStopper

  /** got records the values handed to the consumer, in order; answer the last reply. */
  datatype Answer = NoAnswer | Item | StopSeen | Empty

  datatype State<V> = State(q: T.State<V>, lock: Holder, stop: bool, producers: seq<Producer<V>>,
                            consumer: Consumer, stopper: Stopper, got: seq<V>, answer: Answer)

  datatype Action<V> =
    | ProduceCall(t: nat, v: V) | Refuse(t: nat) | Claim(t: nat) | Publish(t: nat)
    | ProducerLock(t: nat) | NotifyOne(t: nat) | ProducerUnlock(t: nat)
    | ConsumeCall(timed: bool) | TryCall | ConsumerLock | CheckStop | Take | FindNothing | Release
    | Park | Wake | SpuriousWake | Timeout | Relock
    | StopCall | StopLock | SetStop | StopUnlock | NotifyAll

  predicate AtProducer<V>(s: State<V>, t: nat) { t < |s.producers| }

  predicate Enabled<V>(s: State<V>, a: Action<V>) {
    && |s.q.phase| == |s.q.vals|
    && match a
       case ProduceCall(t, _) => AtProducer(s, t) && s.producers[t].PIdle?
       case Refuse(t) => AtProducer(s, t) && s.producers[t].PTrying? && T.Refuses(s.q)
       case Claim(t) => AtProducer(s, t) && s.producers[t].PTrying? && !T.Refuses(s.q)
       case Publish(t) => AtProducer(s, t) && s.producers[t].PHolding? && T.Enabled(s.q, T.Publish(s.producers[t].k))
       case ProducerLock(t) => AtProducer(s, t) && s.producers[t].PLock? && s.lock.Free?
       case NotifyOne(t) => AtProducer(s, t) && s.producers[t].PNotify?
       case ProducerUnlock(t) => AtProducer(s, t) && s.producers[t].PUnlock?
       case ConsumeCall(_) => s.consumer.CIdle?
       case TryCall => s.consumer.CIdle?
       case ConsumerLock => s.consumer.CLock? && s.lock.Free?
       case CheckStop => s.consumer.CCheck?
       case Take => s.consumer.CTry? && !T.NothingReady(s.q)
       case FindNothing => s.consumer.CTry? && T.NothingReady(s.q)
       case Release => s.consumer.CTaken? && T.Enabled(s.q, T.Release(s.consumer.k))
       case Park => s.consumer.CPark?
       case Wake => s.consumer.CParked? && s.consumer.woken
       case SpuriousWake => s.consumer.CParked?
       case Timeout => s.consumer.CParked? && s.consumer.timed
       case Relock => s.consumer.CWoken? && s.lock.Free?
       case StopCall => s.stopper.SIdle?
       case StopLock => s.stopper.SLock? && s.lock.Free?
       case SetStop => s.stopper.SSet?
       case StopUnlock => s.stopper.SUnlock?
       case NotifyAll => s.stopper.SNotify?
  }

  function At<V>(s: State<V>, t: nat, p: Producer<V>): State<V>
    requires t < |s.producers|
  {
    s.(producers := s.producers[t := p])
  }

  /** A notification reaches the consumer only if it is waiting. */
  function Notified(c: Consumer): Consumer {
    if c.CParked? then c.(woken := true) else c
  }

  /** The consumer returns; the calls made under the mutex unlock it. */
  function Return<V>(s: State<V>, mode: Mode, answer: Answer): State<V> {
    s.(consumer := CIdle, answer := answer, lock := if mode.Plain? then s.lock else Free)
  }

  function Step<V>(s: State<V>, a: Action<V>): State<V>
    requires Enabled(s, a)
  {
    match a
    case ProduceCall(t, v) => At(s, t, PTrying(v))
    case Refuse(t) => At(s, t, PIdle)
    case Claim(t) => At(s.(q := T.Step(s.q, T.Claim(t, s.producers[t].v))), t, PHolding(s.q.Tail()))
    case Publish(t) => At(s.(q := T.Step(s.q, T.Publish(s.producers[t].k))), t, PLock(s.producers[t].k))
    case ProducerLock(t) => At(s.(lock := ByProducer(t)), t, PNotify(s.producers[t].k))
    case NotifyOne(t) => At(s.(consumer := Notified(s.consumer)), t, PUnlock)
    case ProducerUnlock(t) => At(s.(lock := Free), t, PIdle)
    case ConsumeCall(timed) => s.(consumer := CLock(timed))
    case TryCall => s.(consumer := CTry(Plain))
    case ConsumerLock => s.(lock := ByConsumer, consumer := CCheck(s.consumer.timed))
    case CheckStop =>
      if s.stop then Return(s, Loop(s.consumer.timed), StopSeen) else s.(consumer := CTry(Loop(s.consumer.timed)))
    case Take => s.(q := T.Step(s.q, T.Take(0)), consumer := CTaken(s.consumer.mode, s.q.head))
    case FindNothing =>
      if s.consumer.mode.Loop? then s.(consumer := CPark(s.consumer.mode.timed))
      else Return(s, s.consumer.mode, Empty)
    case Release =>
      Return(s.(q := T.Step(s.q, T.Release(s.consumer.k)), got := s.got + [s.q.vals[s.consumer.k]]),
             s.consumer.mode, Item)
    case Park => s.(lock := Free, consumer := CParked(s.consumer.timed, false))
    case Wake => s.(consumer := CWoken(s.consumer.timed, false))
    case SpuriousWake => s.(consumer := CWoken(s.consumer.timed, false))
    case Timeout => s.(consumer := CWoken(true, true))
    case Relock =>
      s.(lock := ByConsumer, consumer := if s.consumer.expired then CTry(Last) else CCheck(s.consumer.timed))
    case StopCall => s.(stopper := SLock)
    case StopLock => s.(lock := ByStopper, stopper := SSet)
    case SetStop => s.(stop := true, stopper := SUnlock)
    case StopUnlock => s.(lock := Free, stopper := SNotify)
    case NotifyAll => s.(consumer := Notified(s.consumer), stopper := SIdle)
  }

  ghost predicate Init<V>(s: State<V>) {
    && s.q.cap >= 2 && s.q == T.Init(s.q.cap) && s.lock.Free? && !s.stop
    && (forall t :: 0 <= t < |s.producers| ==> s.producers[t].PIdle?)
    && s.consumer.CIdle? && s.stopper.SIdle? && s.got == []
  }

  ghost predicate Next<V>(s: State<V>, a: Action<V>, s': State<V>) {
    Enabled(s, a) && s' == Step(s, a)
  }

  ghost predicate Run<V(!new)>(ss: seq<State<V>>, acts: seq<Action<V>>) {
    && |ss| == |acts| + 1 && Init(ss[0])
    && forall i :: 0 <= i < |acts| ==> Next(ss[i], acts[i], ss[i + 1])
  }

  // ---------------------------------------------------------------- invariants

  predicate ConsumerHolds(c: Consumer) {
    match c
    case CCheck(_) => true
    case CTry(mode) => !mode.Plain?
    case CTaken(mode, _) => !mode.Plain?
    case CPark(_) => true
    case _ => false
  }

  predicate ProducerHolds<V>(p: Producer<V>) { p.PNotify? || p.PUnlock? }

  ghost predicate LockOk<V>(s: State<V>) {
    && (s.lock.ByProducer? ==> s.lock.t < |s.producers|)
    && (s.lock.ByConsumer? <==> ConsumerHolds(s.consumer))
    && (s.lock.ByStopper? <==> s.stopper.SSet? || s.stopper.SUnlock?)
    && (forall t :: 0 <= t < |s.producers| ==> (s.lock == ByProducer(t) <==> ProducerHolds(s.producers[t])))
  }

  /** The consumer has got the values below head, in ticket order. */
  ghost predicate GotOk<V>(s: State<V>)
    requires T.Valid(s.q)
  {
    && (s.consumer.CTaken? ==> s.consumer.k + 1 == s.q.head && s.q.phase[s.consumer.k].Reading?
                               && s.got == s.q.vals[..s.consumer.k])
    && (!s.consumer.CTaken? ==> s.got == s.q.vals[..s.q.head])
  }

  ghost predicate QueueOk<V>(s: State<V>) {
    T.Valid(s.q) && GotOk(s)
  }

  /** A ticket won by a producer waits for that producer to publish it. */
  ghost predicate TicketsOk<V>(s: State<V>)
    requires |s.q.phase| == |s.q.vals|
  {
    forall t :: 0 <= t < |s.producers| && s.producers[t].PHolding? ==>
      s.producers[t].k < s.q.Tail() && s.q.phase[s.producers[t].k] == T.Writing(t)
  }

  predicate Blocking(c: Consumer) { c.CPark? || (c.CParked? && !c.woken) }

  predicate HeadPublished<V>(q: T.State<V>)
    requires |q.phase| == |q.vals|
  {
    q.head < q.Tail() && q.phase[q.head].Full?
  }

  /** Some producer has published ticket k and has not notified yet. */
  ghost predicate Pending<V>(s: State<V>, k: nat) {
    exists t :: 0 <= t < |s.producers| && (s.producers[t] == PLock(k) || s.producers[t] == PNotify(k))
  }

  ghost predicate WakeOk<V>(s: State<V>)
    requires |s.q.phase| == |s.q.vals|
  {
    Blocking(s.consumer) && HeadPublished(s.q) ==> Pending(s, s.q.head)
  }

  ghost predicate StopOk<V>(s: State<V>) {
    && (s.stop && s.consumer.CTry? ==> !s.consumer.mode.Loop?)
    && (s.stop && s.consumer.CPark? ==> false)
    && (s.stop && Blocking(s.consumer) ==> s.stopper.SUnlock? || s.stopper.SNotify?)
    && (s.stopper.SUnlock? || s.stopper.SNotify? ==> s.stop)
  }

  ghost predicate Inv<V>(s: State<V>) {
    LockOk(s) && QueueOk(s) && TicketsOk(s) && WakeOk(s) && StopOk(s)
  }

  predicate ByProducers<V>(a: Action<V>) {
    a.ProduceCall? || a.Refuse? || a.Claim? || a.Publish? || a.ProducerLock? || a.NotifyOne? || a.ProducerUnlock?
  }

  lemma ProducersKeepLock<V>(s: State<V>, a: Action<V>)
    requires LockOk(s) && Enabled(s, a) && ByProducers(a)
    ensures LockOk(Step(s, a))
  {
    hide T.Step, T.Enabled;
  }

  lemma LockKeeps<V>(s: State<V>, a: Action<V>)
    requires LockOk(s) && Enabled(s, a)
    ensures LockOk(Step(s, a))
  {
    if ByProducers(a) {
      ProducersKeepLock(s, a);
    } else {
      hide T.Step, T.Enabled;
      assert Step(s, a).producers == s.producers;
    }
  }

  /** The ticket step that an action makes, if any. */
  function Ticket<V>(s: State<V>, a: Action<V>): (r: seq<T.Action<V>>)
    requires Enabled(s, a)
    ensures |r| <= 1
  {
    match a
    case Claim(t) => [T.Claim(t, s.producers[t].v)]
    case Publish(t) => [T.Publish(s.producers[t].k)]
    case Take => [T.Take(0)]
    case Release => [T.Release(s.consumer.k)]
    case _ => []
  }

  lemma TicketStep<V>(s: State<V>, a: Action<V>)
    requires Enabled(s, a)
    ensures if Ticket(s, a) == [] then Step(s, a).q == s.q
            else T.Enabled(s.q, Ticket(s, a)[0]) && Step(s, a).q == T.Step(s.q, Ticket(s, a)[0])
  {
    hide T.Step;
  }

  lemma ValidKeeps<V>(s: State<V>, a: Action<V>)
    requires T.Valid(s.q) && Enabled(s, a)
    ensures T.Valid(Step(s, a).q)
  {
    hide T.Valid, T.Step, T.Enabled, Step, Enabled;
    TicketStep(s, a);
    if Ticket(s, a) != [] {
      T.StepValid(s.q, Ticket(s, a)[0]);
    }
  }

  lemma GotKeeps<V>(s: State<V>, a: Action<V>)
    requires T.Valid(s.q) && GotOk(s) && Enabled(s, a) && T.Valid(Step(s, a).q)
    ensures GotOk(Step(s, a))
  {
    hide T.Refuses;
    if a.Release? {
      var k := s.consumer.k;
      assert s.q.vals[..k + 1] == s.q.vals[..k] + [s.q.vals[k]];
    }
  }

  lemma QueueKeeps<V>(s: State<V>, a: Action<V>)
    requires QueueOk(s) && Enabled(s, a)
    ensures QueueOk(Step(s, a))
  {
    hide T.Valid, GotOk, Step, Enabled;
    ValidKeeps(s, a);
    GotKeeps(s, a);
  }

  lemma TicketsKeep<V>(s: State<V>, a: Action<V>)
    requires QueueOk(s) && TicketsOk(s) && Enabled(s, a) && QueueOk(Step(s, a))
    ensures TicketsOk(Step(s, a))
  {
    hide GotOk, T.Refuses;
    var s' := Step(s, a);
    forall t | 0 <= t < |s'.producers| && s'.producers[t].PHolding?
      ensures s'.producers[t].k < s'.q.Tail() && s'.q.phase[s'.producers[t].k] == T.Writing(t)
    {
    }
  }

  lemma WakeKeeps<V>(s: State<V>, a: Action<V>)
    requires Inv(s) && Enabled(s, a) && QueueOk(Step(s, a))
    ensures WakeOk(Step(s, a))
  {
    var s' := Step(s, a);
    if Blocking(s'.consumer) && HeadPublished(s'.q) {
      if Blocking(s.consumer) && HeadPublished(s.q) {
        var t :| 0 <= t < |s.producers| && (s.producers[t] == PLock(s.q.head) || s.producers[t] == PNotify(s.q.head));
        assert s'.producers[t] == PLock(s.q.head) || s'.producers[t] == PNotify(s.q.head);
      } else if a.Publish? {
        assert s'.producers[a.t] == PLock(s'.q.head);
      }
    }
  }

  lemma StopKeeps<V>(s: State<V>, a: Action<V>)
    requires Inv(s) && Enabled(s, a)
    ensures StopOk(Step(s, a))
  {
  }

  lemma InvKeeps<V>(s: State<V>, a: Action<V>)
    requires Inv(s) && Enabled(s, a)
    ensures Inv(Step(s, a))
  {
    hide LockOk, QueueOk, TicketsOk, StopOk;
    LockKeeps(s, a);
    QueueKeeps(s, a);
    TicketsKeep(s, a);
    WakeKeeps(s, a);
    StopKeeps(s, a);
  }

  lemma {:induction false} InvAt<V(!new)>(ss: seq<State<V>>, acts: seq<Action<V>>, i: nat)
    requires Run(ss, acts) && i < |ss|
    ensures Inv(ss[i])
  {
    if i > 0 {
      hide Inv, Init, Step, Enabled;
      InvAt(ss, acts, i - 1);
      assert Next(ss[i - 1], acts[i - 1], ss[i]);
      InvKeeps(ss[i - 1], acts[i - 1]);
    }
  }

  /** No lost wake-up: whenever the consumer waits un-notified although the head ticket is
      published, the producer of that very ticket has yet to lock the mutex or to notify. */
  lemma NoLostWakeup<V(!new)>(ss: seq<State<V>>, acts: seq<Action<V>>, i: nat)
    requires Run(ss, acts) && i < |ss|
    requires ss[i].consumer.CParked? && !ss[i].consumer.woken
    ensures var q := ss[i].q; |q.phase| == |q.vals| && (HeadPublished(q) ==> Pending(ss[i], q.head))
  {
    InvAt(ss, acts, i);
  }

  /** Once a stop call has finished, the consumer is not left waiting un-notified, and none
      of its later loop passes gets beyond the stop test. */
  lemma StopReleases<V(!new)>(ss: seq<State<V>>, acts: seq<Action<V>>, i: nat)
    requires Run(ss, acts) && i < |ss| && ss[i].stop && ss[i].stopper.SIdle?
    ensures !(ss[i].consumer.CParked? && !ss[i].consumer.woken)
    ensures !ss[i].consumer.CPark? && !(ss[i].consumer.CTry? && ss[i].consumer.mode.Loop?)
  {
    InvAt(ss, acts, i);
  }

  /** A step of whoever holds the mutex. */
  predicate ByHolder<V(==)>(lock: Holder, a: Action<V>) {
    match lock
    case Free => false
    case ByProducer(t) => a == NotifyOne(t) || a == ProducerUnlock(t)
    case ByConsumer => a == CheckStop || a == Take || a == FindNothing || a == Release || a == Park
    case ByStopper => a == SetStop || a == StopUnlock
  }

  /** Nobody keeps the mutex for good, and no step of the model is stuck: the holder of the
      mutex and every producer that has won a ticket always have a step to take. */
  lemma HolderCanMove<V(!new)>(ss: seq<State<V>>, acts: seq<Action<V>>, i: nat)
    requires Run(ss, acts) && i < |ss|
    ensures !ss[i].lock.Free? ==> exists a: Action<V> :: ByHolder(ss[i].lock, a) && Enabled(ss[i], a)
    ensures forall t :: 0 <= t < |ss[i].producers| && ss[i].producers[t].PHolding? ==> Enabled(ss[i], Publish(t))
  {
    InvAt(ss, acts, i);
    var s := ss[i];
    match s.lock {
      case ByProducer(t) =>
        assert ProducerHolds(s.producers[t]);
        var a: Action<V> := if s.producers[t].PNotify? then NotifyOne(t) else ProducerUnlock(t);
        assert ByHolder(s.lock, a) && Enabled(s, a);
      case ByConsumer =>
        var a: Action<V> := match s.consumer
          case CCheck(_) => CheckStop
          case CTry(_) => if T.NothingReady(s.q) then FindNothing else Take
          case CTaken(_, _) => Release
          case _ => Park;
        assert ByHolder(s.lock, a) && Enabled(s, a);
      case ByStopper =>
        var a: Action<V> := if s.stopper.SSet? then SetStop else StopUnlock;
        assert ByHolder(s.lock, a) && Enabled(s, a);
      case Free =>
    }
  }

  /** The consumer receives the values in ticket order, each once. */
  lemma DeliveredInOrder<V(!new)>(ss: seq<State<V>>, acts: seq<Action<V>>, i: nat)
    requires Run(ss, acts) && i < |ss|
    ensures ss[i].got <= ss[i].q.vals
    ensures !ss[i].consumer.CTaken? ==> |ss[i].got| == ss[i].q.head
  {
    InvAt(ss, acts, i);
  }

  // ---------------------------------------------------------------- every value is that of a produce

  lemma ClaimAdds<V>(s: State<V>, a: Action<V>)
    requires Enabled(s, a)
    ensures a.Claim? ==> a.t < |s.producers| && s.producers[a.t].PTrying?
    ensures Step(s, a).q.vals == s.q.vals + (if a.Claim? then [s.producers[a.t].v] else [])
  {
    hide T.Refuses, T.NothingReady;
  }

  lemma TryingChange<V>(s: State<V>, a: Action<V>, t: nat)
    requires Enabled(s, a) && t < |Step(s, a).producers| && Step(s, a).producers[t].PTrying?
    ensures t < |s.producers|
    ensures var v := Step(s, a).producers[t].v; a == ProduceCall(t, v) || s.producers[t] == PTrying(v)
  {
    hide T.Refuses, T.NothingReady, T.Step;
  }

  lemma {:induction false} CallOf<V(!new)>(ss: seq<State<V>>, acts: seq<Action<V>>, n: nat, t: nat) returns (i: nat)
    requires Run(ss, acts) && n < |ss| && t < |ss[n].producers| && ss[n].producers[t].PTrying?
    ensures i < n && acts[i] == ProduceCall(t, ss[n].producers[t].v)
  {
    if n > 0 {
      hide Step, Enabled;
      assert Next(ss[n - 1], acts[n - 1], ss[n]);
      TryingChange(ss[n - 1], acts[n - 1], t);
      if acts[n - 1] == ProduceCall(t, ss[n].producers[t].v) {
        i := n - 1;
      } else {
        i := CallOf(ss, acts, n - 1, t);
      }
    }
  }

  /** Every value that a ticket stands for is that of a produce call: of the thread that claimed
      the ticket (step j), made before (step i). */
  lemma {:induction false} ValueOfCall<V(!new)>(ss: seq<State<V>>, acts: seq<Action<V>>, n: nat, k: nat)
    returns (i: nat, j: nat)
    requires Run(ss, acts) && n < |ss| && k < |ss[n].q.vals|
    ensures i < j < n && acts[j].Claim? && ss[j].q.Tail() == k
    ensures acts[i] == ProduceCall(acts[j].t, ss[n].q.vals[k])
  {
    if n > 0 {
      hide Step, Enabled;
      assert Next(ss[n - 1], acts[n - 1], ss[n]);
      ClaimAdds(ss[n - 1], acts[n - 1]);
      if k < |ss[n - 1].q.vals| {
        i, j := ValueOfCall(ss, acts, n - 1, k);
      } else {
        j := n - 1;
        i := CallOf(ss, acts, j, acts[j].t);
      }
    }
  }

  // ---------------------------------------------------------------- the consumer's code

  predicate ByConsumerThread<V>(a: Action<V>) {
    a.ConsumeCall? || a.TryCall? || a.ConsumerLock? || a.CheckStop? || a.Take? || a.FindNothing? || a.Release?
    || a.Park? || a.Wake? || a.SpuriousWake? || a.Timeout? || a.Relock?
  }

  /** What else ends a wait: nothing, a spurious wake-up, or the clock. */
  datatype Alarm = Calm | Spurious | TimeUp

  /** What the environment does while the consumer stands still: steps of the other threads,
      and then perhaps an alarm. */
  type Env<V> = seq<(seq<Action<V>>, Alarm)>

  ghost predicate Later<V>(all: Env<V>, rest: Env<V>) {
    |rest| <= |all| && rest == all[|all| - |rest|..]
  }

  /** The alarms that end a wait; the clock does so only if the wait is timed. */
  predicate EndsWait(alarm: Alarm, timed: bool) {
    alarm.Spurious? || (timed && alarm.TimeUp?)
  }

  predicate NoneEnds(alarms: seq<Alarm>, timed: bool) {
    forall i :: 0 <= i < |alarms| ==> !EndsWait(alarms[i], timed)
  }

  lemma NoneEndsNext(alarms: seq<Alarm>, alarm: Alarm, timed: bool)
    ensures NoneEnds(alarms + [alarm], timed) <==> NoneEnds(alarms, timed) && !EndsWait(alarm, timed)
    ensures NoneEnds([], timed)
  {
    assert (alarms + [alarm])[|alarms|] == alarm;
    assert forall i :: 0 <= i < |alarms| ==> (alarms + [alarm])[i] == alarms[i];
  }

  function AlarmsOf<V>(env: Env<V>): (alarms: seq<Alarm>)
    ensures |alarms| == |env|
  {
    seq(|env|, i requires 0 <= i < |env| => env[i].1)
  }

  /** The alarms of the parts of all that are no longer in rest. */
  function Gone<V>(all: Env<V>, rest: Env<V>): (alarms: seq<Alarm>)
    requires |rest| <= |all|
    ensures |alarms| == |all| - |rest|
  {
    AlarmsOf(all[..|all| - |rest|])
  }

  lemma GoneNext<V>(all: Env<V>, rest: Env<V>)
    requires Later(all, rest) && rest != []
    ensures Later(all, rest[1..]) && Gone(all, rest[1..]) == Gone(all, rest) + [rest[0].1]
  {
  }

  lemma GoneNone<V>(all: Env<V>)
    ensures Later(all, all) && Gone(all, all) == []
  {
  }

  lemma NoneEndsLast(alarms: seq<Alarm>, timed: bool)
    requires NoneEnds(alarms, timed) && alarms != []
    ensures NoneEnds(alarms[..|alarms| - 1], timed) && !EndsWait(alarms[|alarms| - 1], timed)
  {
  }

  /** Nobody else takes a step, and there are no spurious wake-ups. */
  ghost predicate ClockOnly<V>(env: Env<V>) {
    forall i :: 0 <= i < |env| ==> env[i].0 == [] && !env[i].1.Spurious?
  }

  ghost predicate Strikes<V>(env: Env<V>) {
    exists i :: 0 <= i < |env| && env[i].1.TimeUp?
  }

  lemma NoStrike<V>()
    ensures !Strikes<V>([])
  {
  }

  lemma ClockOnlyNext<V>(env: Env<V>)
    requires ClockOnly(env) && env != []
    ensures ClockOnly(env[1..]) && env[0].0 == [] && !env[0].1.Spurious?
    ensures Strikes(env) && !env[0].1.TimeUp? ==> Strikes(env[1..])
  {
    if Strikes(env) && !env[0].1.TimeUp? {
      var i :| 0 <= i < |env| && env[i].1.TimeUp?;
      assert env[1..][i - 1].1.TimeUp?;
    }
  }

  /** The other threads may have added values; the head is what it was. */
  ghost predicate Fed<V>(q: T.State<V>, q': T.State<V>) {
    && |q.phase| == |q.vals| && |q'.phase| == |q'.vals|
    && q'.head == q.head && q.vals <= q'.vals
    && (HeadPublished(q) ==> HeadPublished(q'))
  }

  lemma LaterStill<V>(a: Env<V>, b: Env<V>, c: Env<V>)
    requires Later(a, b) && Later(b, c)
    ensures Later(a, c) && |c| <= |b|
  {
  }

  lemma OtherStep<V>(s: State<V>, a: Action<V>)
    requires Enabled(s, a) && !ByConsumerThread(a)
    ensures var s' := Step(s, a);
      && Fed(s.q, s'.q) && s'.got == s.got && s'.answer == s.answer
      && (s'.consumer == s.consumer || s'.consumer == Notified(s.consumer))
  {
    hide T.Refuses;
  }

  /** The consumer waits un-notified, or for the mutex in the hands of another thread. */
  predicate Held<V>(s: State<V>, timed: bool) {
    || s.consumer == CParked(timed, false)
    || ((s.consumer.CLock? || s.consumer.CWoken?) && !s.lock.Free? && !s.lock.ByConsumer?)
  }

  lemma SameIsFed<V>(q: T.State<V>)
    requires |q.phase| == |q.vals|
    ensures Fed(q, q)
  {
  }

  lemma FedHead<V>(q: T.State<V>, q': T.State<V>)
    requires (q' == q || Fed(q, q')) && |q.phase| == |q.vals|
    ensures |q'.phase| == |q'.vals| && q'.head == q.head && q.vals <= q'.vals
    ensures HeadPublished(q) ==> !T.NothingReady(q') && q.head < |q.vals|
  {
  }

  lemma HasPhases<V>(s: State<V>)
    requires Inv(s)
    ensures |s.q.phase| == |s.q.vals| && s.q.head <= s.q.Tail()
    ensures !s.consumer.CTaken? ==> s.got == s.q.vals[..s.q.head]
    ensures s.consumer.CTaken? ==> T.Enabled(s.q, T.Release(s.consumer.k)) && s.got == s.q.vals[..s.consumer.k]
    ensures s.consumer.CLock? || s.consumer.CWoken? ==> !s.lock.ByConsumer?
  {
  }

  class BlockingQueue<V(==,!new)> {
    var queue: T.State<V>
    var mtx: Holder
    var stop: bool
    var producers: seq<Producer<V>>   // where the threads stand
    var consumer: Consumer
    var stopper: Stopper
    var got: seq<V>
    var answer: Answer
    var env: Env<V>                   // what is still to come from outside
    var met: seq<Alarm>               // the alarms of the parts played since the consumer parked
    ghost var start: State<V>
    ghost var acts: seq<Action<V>>

    function View(): State<V>
      reads this
    {
      State(queue, mtx, stop, producers, consumer, stopper, got, answer)
    }

    /** Everything done so far is a run of the transition system. */
    ghost predicate Valid()
      reads this
    {
      Inv(View()) && Runs.Leads(Next<V>, start, acts, View())
    }

    /** The underlying ring rounds the capacity up; from 2 on this is an empty queue.  At 1 the
        ring is not a queue and this class says nothing (MpmcLimits.ConsumeNeverReturns). */
    constructor (capacity: nat, threads: nat, env: Env<V>)
      requires capacity <= HALF
      ensures IsPow2(queue.cap) && capacity <= queue.cap
      ensures forall j: nat :: capacity <= Pow2(j) ==> queue.cap <= Pow2(j)
      ensures capacity >= 2 ==> Valid() && Init(View())
      ensures View() == start && acts == [] && this.env == env && |producers| == threads && got == []
    {
      var cap := RoundUpPow2(capacity);
      queue, mtx, stop := T.Init(cap), Free, false;
      producers, consumer, stopper, got, answer := seq(threads, _ => PIdle), CIdle, SIdle, [], NoAnswer;
      start := State(T.Init(cap), Free, false, seq(threads, _ => PIdle), CIdle, SIdle, [], NoAnswer);
      acts, this.env, met := [], env, [];
    }

    lemma Shape()
      requires Valid()
      ensures |queue.phase| == |queue.vals| && queue.head <= queue.Tail()
      ensures !consumer.CTaken? ==> got == queue.vals[..queue.head]
    {
    }

    /** The fields have just made step a from state before. */
    ghost method Did(a: Action<V>, before: State<V>)
      requires Inv(before) && Runs.Leads(Next<V>, start, acts, before)
      requires Enabled(before, a) && View() == Step(before, a)
      modifies `acts
      ensures Valid() && acts == old(acts) + [a]
    {
      hide Inv, Runs.Leads, Enabled, Step;
      InvKeeps(before, a);
      Runs.LeadsOn(Next<V>, start, acts, before, a, View());
      acts := acts + [a];
    }

    /** The next part of what comes from outside. */
    method Others() returns (alarm: Alarm)
      requires Valid() && env != []
      modifies this
      ensures Valid() && start == old(start) && old(acts) <= acts
      ensures env == old(env)[1..] && alarm == old(env)[0].1
      ensures consumer == old(consumer) || (old(consumer).CParked? && consumer == CParked(old(consumer).timed, true))
      ensures got == old(got) && Fed(old(queue), queue)
      ensures met == if old(consumer).CParked? then old(met) + [alarm] else old(met)
      ensures old(env)[0].0 == [] ==> View() == old(View()) && acts == old(acts)
    {
      hide Inv, Runs.Leads, Enabled, Step, HeadPublished;
      HasPhases(View());
      var (sched, last) := env[0];
      env := env[1..];
      if consumer.CParked? {
        met := met + [last];
      }
      for i := 0 to |sched|
        invariant Valid() && start == old(start) && old(acts) <= acts
        invariant env == old(env)[1..]
        invariant consumer == old(consumer)
                  || (old(consumer).CParked? && consumer == CParked(old(consumer).timed, true))
        invariant got == old(got) && Fed(old(queue), queue)
        invariant met == if old(consumer).CParked? then old(met) + [last] else old(met)
        invariant i == 0 ==> View() == old(View()) && acts == old(acts)
      {
        Other(sched[i]);
      }
      return last;
    }

    method Other(a: Action<V>)
      requires Valid()
      modifies this
      ensures Valid() && start == old(start) && old(acts) <= acts && env == old(env) && met == old(met)
      ensures consumer == old(consumer) || consumer == Notified(old(consumer))
      ensures got == old(got) && Fed(old(queue), queue)
    {
      hide Inv, Runs.Leads, Fed, Enabled, Step;
      HasPhases(View());
      SameIsFed(queue);
      if !ByConsumerThread(a) && Enabled(View(), a) {
        ghost var before := View();
        OtherStep(before, a);
        var s := Step(View(), a);
        queue, mtx, stop, producers, consumer, stopper := s.q, s.lock, s.stop, s.producers, s.consumer, s.stopper;
        Did(a, before);
      }
    }

    /** A step of the consumer. */
    method Become(a: Action<V>)
      requires Valid() && ByConsumerThread(a) && Enabled(View(), a)
      modifies this
      ensures Valid() && start == old(start) && acts == old(acts) + [a] && View() == Step(old(View()), a)
      ensures env == old(env) && met == old(met)
    {
      hide Inv, Runs.Leads;
      ghost var before := View();
      var s := Step(View(), a);
      queue, mtx, stop, consumer, got, answer := s.q, s.lock, s.stop, s.consumer, s.got, s.answer;
      Did(a, before);
    }

    /** Waiting for the mutex; not at all if it is free. */
    method WaitForMutex()
      requires Valid() && (consumer.CLock? || consumer.CWoken?)
      modifies this
      ensures Valid() && start == old(start) && old(acts) <= acts && Later(old(env), env)
      ensures consumer == old(consumer) && got == old(got) && met == old(met)
      ensures old(mtx).Free? ==> View() == old(View()) && env == old(env)
      ensures mtx.Free? || (env == [] && !mtx.ByConsumer?)
    {
      hide Inv, Runs.Leads, Fed;
      while !mtx.Free? && env != []
        invariant Valid() && start == old(start) && old(acts) <= acts && Later(old(env), env)
        invariant consumer == old(consumer) && got == old(got) && met == old(met)
        invariant old(mtx).Free? ==> View() == old(View()) && env == old(env)
        decreases |env|
      {
        var _ := Others();
      }
      HasPhases(View());
    }

    /** queue_.consume by the consumer: the head value if it is published. */
    method Consume() returns (ok: bool)
      requires Valid() && consumer.CTry?
      modifies this
      ensures Valid() && start == old(start) && old(acts) <= acts && env == old(env)
      ensures ok <==> !T.NothingReady(old(queue))
      ensures ok ==> consumer.CIdle? && answer == Item && got == old(got) + [old(queue).vals[old(queue).head]]
      ensures !ok ==> got == old(got) && queue == old(queue)
      ensures !ok && old(consumer).mode.Loop? ==> consumer == CPark(old(consumer).mode.timed)
      ensures !ok && !old(consumer).mode.Loop? ==> consumer.CIdle? && answer == Empty
      ensures consumer.CIdle? && !old(consumer).mode.Plain? ==> mtx.Free?
    {
      hide Runs.Leads, Inv;
      HasPhases(View());
      if T.NothingReady(queue) {
        Become(FindNothing);
        return false;
      }
      Become(Take);
      HasPhases(View());
      Become(Release);
      return true;
    }

    /** The wait.  It goes on exactly until a notification, a spurious wake-up or, if it is
        timed, the clock: no alarm that ends it is passed over, and it times out if and only if
        the last alarm met is the clock's. */
    method Wait()
      requires Valid() && consumer.CPark?
      modifies this
      ensures Valid() && start == old(start) && old(acts) <= acts && got == old(got) && Later(old(env), env)
      ensures met == Gone(old(env), env)
      ensures consumer == CParked(old(consumer).timed, false) || consumer == CWoken(old(consumer).timed, false)
              || consumer == CWoken(true, true)
      ensures consumer.CParked? ==> env == [] && NoneEnds(met, old(consumer).timed)
      ensures consumer.CWoken? ==> met != [] && NoneEnds(met[..|met| - 1], old(consumer).timed)
      ensures consumer == CWoken(true, true) <==> old(consumer).timed && met != [] && met[|met| - 1].TimeUp?
      ensures consumer == CWoken(old(consumer).timed, false) && !met[|met| - 1].Spurious? ==>
        acts != [] && acts[|acts| - 1] == Wake
      ensures ClockOnly(old(env)) ==>
        && queue == old(queue) && stop == old(stop) && mtx.Free? && ClockOnly(env)
        && (consumer.CParked? || consumer == CWoken(true, true))
      ensures ClockOnly(old(env)) && old(consumer).timed && Strikes(old(env)) ==> consumer == CWoken(true, true)
    {
      hide Inv, Runs.Leads, Fed, Gone, NoneEnds, ClockOnly, Strikes, Step, Enabled;
      Park();
      GoneNone(env);
      NoneEndsNext([], Calm, consumer.timed);
      while env != [] && !consumer.woken
        invariant Valid() && start == old(start) && old(acts) <= acts && got == old(got) && Later(old(env), env)
        invariant consumer == CParked(old(consumer).timed, false) || consumer == CParked(old(consumer).timed, true)
        invariant met == Gone(old(env), env) && NoneEnds(met, old(consumer).timed)
        invariant consumer.woken ==> met != []
        invariant ClockOnly(old(env)) ==>
          queue == old(queue) && stop == old(stop) && mtx.Free? && ClockOnly(env) && !consumer.woken
        invariant ClockOnly(old(env)) && Strikes(old(env)) && consumer.timed ==> Strikes(env)
        decreases |env|
      {
        GoneNext(old(env), env);
        NoneEndsNext(met, env[0].1, consumer.timed);
        if ClockOnly(old(env)) {
          ClockOnlyNext(env);
        }
        var alarm := Others();
        if alarm.TimeUp? && consumer.timed {
          Awake(Timeout);
          return;
        } else if alarm.Spurious? {
          Awake(SpuriousWake);
          return;
        }
      }
      NoStrike<V>();
      if met != [] {
        NoneEndsLast(met, consumer.timed);
      }
      if consumer.woken {
        Awake(Wake);
      }
    }

    method Park()
      requires Valid() && consumer.CPark?
      modifies this
      ensures Valid() && start == old(start) && old(acts) <= acts && got == old(got) && env == old(env)
      ensures consumer == CParked(old(consumer).timed, false) && met == []
      ensures queue == old(queue) && stop == old(stop) && mtx.Free?
    {
      hide Runs.Leads, Inv;
      HasPhases(View());
      Become(Action.Park);
      met := [];
    }

    method Awake(a: Action<V>)
      requires Valid() && consumer.CParked?
      requires (a.Wake? && consumer.woken) || a.SpuriousWake? || (a.Timeout? && consumer.timed)
      modifies this
      ensures Valid() && start == old(start) && acts == old(acts) + [a] && got == old(got)
      ensures consumer == CWoken(old(consumer).timed, a.Timeout?)
      ensures env == old(env) && met == old(met) && queue == old(queue) && stop == old(stop) && mtx == old(mtx)
    {
      hide Runs.Leads, Inv;
      HasPhases(View());
      Become(a);
    }

    method Enter(timed: bool)
      requires Valid() && consumer.CIdle?
      modifies this
      ensures Valid() && start == old(start) && old(acts) <= acts && View() == old(View()).(consumer := CLock(timed))
      ensures env == old(env)
    {
      hide Runs.Leads, Inv;
      HasPhases(View());
      Become(ConsumeCall(timed));
    }

    /** The mutex is free: take it, at the start of the call or after a wait. */
    method Lock()
      requires Valid() && mtx.Free? && (consumer.CLock? || consumer.CWoken?)
      modifies this
      ensures Valid() && start == old(start) && old(acts) <= acts && got == old(got) && env == old(env)
      ensures queue == old(queue) && stop == old(stop)
      ensures consumer == match old(consumer)
        case CWoken(timed, expired) => if expired then CTry(Last) else CCheck(timed)
        case _ => CCheck(old(consumer).timed)
    {
      hide Runs.Leads, Inv;
      HasPhases(View());
      Become(if consumer.CLock? then ConsumerLock else Relock);
    }

    /** The stop test at the head of the loop. */
    method StopWasSeen() returns (seen: bool)
      requires Valid() && consumer.CCheck?
      modifies this
      ensures Valid() && start == old(start) && old(acts) <= acts && got == old(got) && env == old(env)
      ensures seen == stop && stop == old(stop) && queue == old(queue)
      ensures seen ==> consumer.CIdle? && answer == StopSeen && mtx.Free?
      ensures !seen ==> consumer == CTry(Loop(old(consumer).timed))
    {
      hide Runs.Leads, Inv;
      HasPhases(View());
      Become(CheckStop);
      return stop;
    }

    /** consume_blocking among other threads.  It has returned when done; otherwise nothing
        more comes from outside and it waits un-notified or for the mutex.  It hands out the
        next value in ticket order; or stop_ was seen; or, if timed, the head was not ready at
        the last try.  With the mutex free at the call, a set stop_ ends it at once, and
        otherwise a published head is what it returns.  If it waits still it has met no alarm
        that ends the wait; and if only the clock moves, a timed call on a queue with nothing
        ready comes back empty. */
    method ConsumeBlocking(timed: bool) returns (done: bool)
      requires Valid() && consumer.CIdle?
      modifies this
      ensures Valid() && start == old(start) && old(acts) <= acts && Later(old(env), env)
      ensures done <==> consumer.CIdle?
      ensures done ==> mtx.Free? && got == queue.vals[..queue.head]
      ensures !done ==> env == [] && Held(View(), timed) && got == old(got)
      ensures !done && consumer.CParked? ==> NoneEnds(met, timed)
      ensures done ==> answer == Item || (answer == StopSeen && stop)
                       || (answer == Empty && timed && T.NothingReady(queue))
      ensures done ==> if answer == Item then |got| == |old(got)| + 1 && old(got) <= got else got == old(got)
      ensures old(mtx).Free? && old(stop) ==> done && answer == StopSeen
      ensures old(mtx).Free? && !old(stop) && HeadPublished(old(queue)) ==>
        done && answer == Item && got == old(got) + [old(queue).vals[old(queue).head]]
      ensures timed && old(mtx).Free? && !old(stop) && T.NothingReady(old(queue)) && ClockOnly(old(env)) ==>
        (old(env) != [] && Strikes(old(env)[1..]) ==> done && answer == Empty)
    {
      hide *;
      Shape();
      ghost var quick := mtx.Free? && (stop || HeadPublished(queue));
      ghost var idle := mtx.Free? && !stop && T.NothingReady(queue) && timed && env != []
                        && ClockOnly(env) && Strikes(env[1..]);
      var entered := Begin(timed);
      if !entered {
        return false;
      }
      while true
        invariant Valid() && start == old(start) && old(acts) <= acts && got == old(got) && Later(old(env), env)
        invariant consumer == CCheck(timed)
        invariant quick || idle ==> queue == old(queue) && stop == old(stop) && env == old(env)
        decreases |env|
      {
        ghost var e := env;
        Turn();
        LaterStill(old(env), e, env);
        e := env;
        if consumer.CIdle? {
          return true;
        }
        var again := WaitAndLock();
        LaterStill(old(env), e, env);
        if !again {
          return false;
        }
        if consumer.CTry? {
          var _ := Consume();  // one last try after the timeout
          Shape();
          return true;
        }
      }
    }

    /** The call, up to holding the mutex. */
    method Begin(timed: bool) returns (entered: bool)
      requires Valid() && consumer.CIdle?
      modifies this
      ensures Valid() && start == old(start) && old(acts) <= acts && got == old(got) && Later(old(env), env)
      ensures entered ==> consumer == CCheck(timed)
      ensures !entered ==> env == [] && consumer == CLock(timed) && Held(View(), timed)
      ensures old(mtx).Free? ==> entered && queue == old(queue) && stop == old(stop) && env == old(env)
    {
      hide Inv, Runs.Leads, Fed;
      Enter(timed);
      WaitForMutex();
      if !mtx.Free? {
        return false;
      }
      Lock();
      return true;
    }

    /** The wait, up to holding the mutex again. */
    method WaitAndLock() returns (again: bool)
      requires Valid() && consumer.CPark?
      modifies this
      ensures Valid() && start == old(start) && old(acts) <= acts && got == old(got) && Later(old(env), env)
      ensures again ==> |env| < |old(env)|
      ensures again ==> consumer == CCheck(old(consumer).timed) || (old(consumer).timed && consumer == CTry(Last))
      ensures !again ==> env == [] && !consumer.CIdle? && Held(View(), old(consumer).timed)
      ensures !again && consumer.CParked? ==> NoneEnds(met, old(consumer).timed)
      ensures ClockOnly(old(env)) && old(consumer).timed && Strikes(old(env)) ==>
        again && consumer == CTry(Last) && queue == old(queue)
    {
      hide Inv, Runs.Leads, Fed, Gone, NoneEnds, ClockOnly, Strikes;
      Wait();
      if consumer.CParked? {
        return false;
      }
      WaitForMutex();
      if !mtx.Free? {
        return false;
      }
      Lock();
      return true;
    }

    /** One turn of the loop up to the wait. */
    method Turn()
      requires Valid() && consumer.CCheck?
      modifies this
      ensures Valid() && start == old(start) && old(acts) <= acts && Later(old(env), env)
      ensures consumer == CPark(old(consumer).timed)
              || (consumer.CIdle? && mtx.Free? && got == queue.vals[..queue.head])
      ensures consumer.CIdle? ==> answer == Item || (answer == StopSeen && stop)
      ensures if consumer.CIdle? && answer == Item then |got| == |old(got)| + 1 && old(got) <= got else got == old(got)
      ensures old(stop) ==> consumer.CIdle? && answer == StopSeen
      ensures !old(stop) && HeadPublished(old(queue)) ==>
        consumer.CIdle? && answer == Item && got == old(got) + [old(queue).vals[old(queue).head]]
      ensures !old(stop) && T.NothingReady(old(queue)) && old(env) != [] && ClockOnly(old(env)) ==>
        consumer == CPark(old(consumer).timed) && queue == old(queue) && env == old(env)[1..] && ClockOnly(env)
    {
      hide Inv, Runs.Leads, Fed, HeadPublished, T.NothingReady, ClockOnly;
      HasPhases(View());
      if env != [] && ClockOnly(env) {
        ClockOnlyNext(env);
      }
      var seen := StopWasSeen();
      if seen {
        HasPhases(View());
        return;
      }
      if env != [] {
        var _ := Others();  // the lock-free side goes on while the mutex is held
      }
      HasPhases(View());
      FedHead(old(queue), queue);
      var _ := Consume();
      HasPhases(View());
    }
  }

  function Items(replies: seq<Answer>): nat {
    if replies == [] then 0 else Items(replies[..|replies| - 1]) + (if replies[|replies| - 1].Item? then 1 else 0)
  }

  /** The theorems above, at the end of a run. */
  lemma EndOfRun<V(!new)>(ss: seq<State<V>>, acts: seq<Action<V>>)
    requires Run(ss, acts)
    ensures var last := ss[|acts|];
      && last.got <= last.q.vals && |last.q.phase| == |last.q.vals|
      && (last.consumer.CParked? && !last.consumer.woken && HeadPublished(last.q) ==> Pending(last, last.q.head))
      && (last.consumer.CParked? && !last.consumer.woken && last.stop ==> !last.stopper.SIdle?)
  {
    hide Pending, HeadPublished, Inv, Init;
    var n, last := |acts|, ss[|acts|];
    InvAt(ss, acts, n);
    HasPhases(last);
    DeliveredInOrder(ss, acts, n);
    if last.consumer.CParked? && !last.consumer.woken {
      NoLostWakeup(ss, acts, n);
      if last.stop && last.stopper.SIdle? {
        StopReleases(ss, acts, n);
      }
    }
  }

  lemma NextItem(replies: seq<Answer>, answer: Answer)
    ensures Items(replies + [answer]) == Items(replies) + (if answer.Item? then 1 else 0)
  {
    assert (replies + [answer])[..|replies|] == replies;
  }

  lemma NoItems()
    ensures Items([]) == 0
  {
  }

  lemma NotHeld<V>(s: State<V>)
    ensures forall timed :: Held(s, timed) && s.consumer.CParked? ==> !s.consumer.woken
  {
  }

  /** Any number of blocking calls on a new queue.  The result is the end of a run, so what is
      proved of runs holds of it.  Each reply of Item stands for the next value in ticket
      order; a call that has not returned is held up, and if it waits un-notified the head
      ticket is unpublished or its producer has yet to notify, and no stop call has finished. */
  method ConsumeMany<V(==,!new)>(capacity: nat, threads: nat, env: Env<V>, calls: seq<bool>)
    returns (replies: seq<Answer>, got: seq<V>, last: State<V>, met: seq<Alarm>,
             ghost ss: seq<State<V>>, ghost acts: seq<Action<V>>)
    requires 2 <= capacity <= HALF
    ensures Run(ss, acts) && ss[|acts|] == last && |ss[0].producers| == threads
    ensures IsPow2(ss[0].q.cap) && ss[0].q.cap >= capacity
    ensures got == last.got <= last.q.vals && |got| == Items(replies) && |replies| <= |calls|
    ensures forall i :: 0 <= i < |replies| ==>
      replies[i].Item? || replies[i].StopSeen? || (replies[i].Empty? && calls[i])
    ensures |replies| < |calls| ==> Held(last, calls[|replies|])
    ensures last.consumer.CParked? ==> |replies| < |calls| && NoneEnds(met, calls[|replies|])
    ensures |last.q.phase| == |last.q.vals|
    ensures last.consumer.CParked? && HeadPublished(last.q) ==> Pending(last, last.q.head)
    ensures last.consumer.CParked? && last.stop ==> !last.stopper.SIdle?
  {
    hide Runs.Leads, Inv, Later, Held, Items, HeadPublished, Pending, T.NothingReady, NoneEnds, ClockOnly, Strikes;
    var b := new BlockingQueue<V>(capacity, threads, env);
    ghost var first := b.View();
    replies := [];
    var waiting := false;
    NoItems();
    while |replies| < |calls| && !waiting
      invariant b.Valid() && fresh(b) && b.start == first && |replies| <= |calls| && |b.got| == Items(replies)
      invariant if waiting then |replies| < |calls| && Held(b.View(), calls[|replies|]) else b.consumer.CIdle?
      invariant b.consumer.CParked? ==> |replies| < |calls| && NoneEnds(b.met, calls[|replies|])
      invariant forall i :: 0 <= i < |replies| ==>
        replies[i].Item? || replies[i].StopSeen? || (replies[i].Empty? && calls[i])
      decreases |calls| - |replies|, !waiting
    {
      var done := b.ConsumeBlocking(calls[|replies|]);
      if done {
        NextItem(replies, b.answer);
        replies := replies + [b.answer];
      } else {
        waiting := true;
      }
    }
    got, last, met, acts := b.got, b.View(), b.met, b.acts;
    ss := Runs.Trace(Next<V>, b.start, acts, last);
    EndOfRun(ss, acts);
    NotHeld(last);
  }
}
