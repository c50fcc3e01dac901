/** The topic bus: publishers feed a ticket queue, one dispatch thread takes envelopes,
    copies the subscriber lists under the lock and delivers outside it, while anybody -
    callbacks included - may subscribe and unsubscribe between any two steps. */
module TopicBus {
  import opened Subscriptions
  import Runs
  import T = TicketQueue

  datatype Envelope<V> = Envelope(topic: Topic, msg: V)

  /** Where the dispatch thread is.  `last` marks the drain loop after running_ went false. */
  datatype Dispatcher =
    | Off                                   // not started
    | Test                                  // about to test running_
    | Consume(last: bool)
    | Taken(last: bool)                     // won a ticket, slot not yet given back
    | Lock(last: bool)                      // envelope in hand, about to copy the lists
    | Deliver(last: bool, queues: seq<Entry>, callbacks: seq<Entry>)  // still to be served
    | Exited

  /** One offer of the envelope of ticket k to a subscriber's queue. */
  datatype Offer = Offer(entry: Entry, k: nat, accepted: bool)

  /** When a subscription (of a queue or a callback) began and ended, in numbers of
      snapshots taken so far. */
  datatype Span = Span(queue: bool, topic: Topic, target: nat, born: nat, died: nat, over: bool)

  datatype State<V> = State(
    q: T.State<Envelope<V>>, reg: Registry, running: bool, pc: Dispatcher,
    dispatched: nat, dropped: nat,
    snaps: seq<seq<Entry>>,      // the queue lists copied so far; snapshot k serves ticket k
    offers: seq<Offer>,          // every produce on a subscriber's queue, in order
    callSnaps: seq<seq<Entry>>,  // the callback lists copied so far
    calls: seq<(Entry, nat)>,    // every callback invoked, with the ticket, in order
    spans: map<nat, Span>)       // by subscription id

  datatype Action<V> =
    | Claim(t: nat, topic: Topic, msg: V) | Publish(k: nat)      // publishers
    | SubQueue(topic: Topic, target: nat) | SubCallback(topic: Topic, target: nat) | Unsub(id: nat)
    | Start | Stop
    | TestRunning | Take | FindNothing | Release | Snapshot
    | OfferNext(room: bool)      // whether the subscriber's queue has room is up to its readers
    | CallNext | Finish

  predicate Enabled<V>(s: State<V>, a: Action<V>) {
    && |s.q.phase| == |s.q.vals|
    && match a
       case Claim(_, _, _) => !T.Refuses(s.q)
       case Publish(k) => T.Enabled(s.q, T.Publish(k))
       case SubQueue(_, _) => true
       case SubCallback(_, _) => true
       case Unsub(_) => true
       case Start => s.pc.Off?
       case Stop => s.running
       case TestRunning => s.pc.Test?
       case Take => s.pc.Consume? && !T.NothingReady(s.q)
       case FindNothing => s.pc.Consume? && T.NothingReady(s.q)
       case Release => s.pc.Taken? && s.q.head > 0 && T.Enabled(s.q, T.Release(s.q.head - 1))
       case Snapshot => s.pc.Lock? && 0 < s.q.head <= s.q.Tail()
       case OfferNext(_) => s.pc.Deliver? && s.pc.queues != [] && s.snaps != []
       case CallNext => s.pc.Deliver? && s.snaps != [] && s.pc.queues == [] && s.pc.callbacks != []
       case Finish => s.pc.Deliver? && s.pc.queues == [] && s.pc.callbacks == []
  }

  function Step<V>(s: State<V>, a: Action<V>): State<V>
    requires Enabled(s, a)
  {
    match a
    case Claim(t, topic, msg) => s.(q := T.Step(s.q, T.Claim(t, Envelope(topic, msg))))
    case Publish(k) => s.(q := T.Step(s.q, T.Publish(k)))
    case SubQueue(topic, target) =>
      s.(reg := AddQueue(s.reg, topic, target),
         spans := s.spans[s.reg.nextId := Span(true, topic, target, |s.snaps|, |s.snaps|, false)])
    case SubCallback(topic, target) =>
      s.(reg := AddCallback(s.reg, topic, target),
         spans := s.spans[s.reg.nextId := Span(false, topic, target, |s.snaps|, |s.snaps|, false)])
    case Unsub(id) =>
      s.(reg := Removed(s.reg, id),
         spans := if id in s.spans && !s.spans[id].over
                  then s.spans[id := s.spans[id].(died := |s.snaps|, over := true)] else s.spans)
    case Start => s.(running := true, pc := Test)
    case Stop => s.(running := false)
    case TestRunning => s.(pc := Consume(!s.running))
    case Take => s.(q := T.Step(s.q, T.Take(0)), pc := Taken(s.pc.last))
    case FindNothing => s.(pc := if s.pc.last then Exited else Test)
    case Release => s.(q := T.Step(s.q, T.Release(s.q.head - 1)), pc := Lock(s.pc.last))
    case Snapshot =>
      var topic := s.q.vals[s.q.head - 1].topic;
      var (qcopy, ccopy) := (Entries(s.reg.queues, topic), Entries(s.reg.callbacks, topic));
      s.(snaps := s.snaps + [qcopy], callSnaps := s.callSnaps + [ccopy], pc := Deliver(s.pc.last, qcopy, ccopy))
    case OfferNext(room) =>
      s.(offers := s.offers + [Offer(s.pc.queues[0], |s.snaps| - 1, room)],
         dropped := s.dropped + (if room then 0 else 1),
         pc := s.pc.(queues := s.pc.queues[1..]))
    case CallNext =>
      s.(calls := s.calls + [(s.pc.callbacks[0], |s.snaps| - 1)],
         pc := s.pc.(callbacks := s.pc.callbacks[1..]))
    case Finish => s.(dispatched := s.dispatched + 1, pc := if s.pc.last then Consume(true) else Test)
  }

  ghost predicate Init<V>(s: State<V>) {
    && s.q.cap >= 2 && s.q == T.Init(s.q.cap) && s.reg == Registry(map[], map[], 1)
    && !s.running && s.pc.Off? && s.dispatched == s.dropped == 0
    && s.snaps == [] && s.offers == [] && s.callSnaps == [] && s.calls == [] && s.spans == map[]
  }

  ghost predicate Next<V>(s: State<V>, a: Action<V>, s': State<V>) {
    Enabled(s, a) && s' == Step(s, a)
  }

  ghost predicate Run<V(!new)>(ss: seq<State<V>>, acts: seq<Action<V>>) {
    && |ss| == |acts| + 1 && Init(ss[0])
    && forall i :: 0 <= i < |acts| ==> Next(ss[i], acts[i], ss[i + 1])
  }

  // ---------------------------------------------------------------- ticket order and counts

  /** Snapshot k serves ticket k, in ticket order. */
  ghost predicate OrderOk<V>(s: State<V>) {
    && T.Valid(s.q)
    && s.q.head == |s.snaps| + (if s.pc.Taken? || s.pc.Lock? then 1 else 0)
    && |s.snaps| == s.dispatched + (if s.pc.Deliver? then 1 else 0)
    && (s.pc.Taken? ==> s.q.phase[s.q.head - 1].Reading?)
    && (s.pc.Off? ==> !s.running)
  }

  lemma OrderKeeps<V>(s: State<V>, a: Action<V>)
    requires OrderOk(s) && Enabled(s, a)
    ensures OrderOk(Step(s, a))
  {
    match a
    case Claim(t, topic, msg) => T.StepValid(s.q, T.Claim(t, Envelope(topic, msg)));
    case Publish(k) => T.StepValid(s.q, T.Publish(k));
    case Take => T.StepValid(s.q, T.Take(0));
    case Release => T.StepValid(s.q, T.Release(s.q.head - 1));
    case _ =>
  }

  function Pairs(es: seq<Entry>, k: nat): (ps: seq<(Entry, nat)>)
    ensures |ps| == |es| && forall i :: 0 <= i < |es| ==> ps[i] == (es[i], k)
  {
    if es == [] then [] else [(es[0], k)] + Pairs(es[1..], k)
  }

  /** The offers owed for snapshots 0, 1, ... in order. */
  function Owed(snaps: seq<seq<Entry>>): seq<(Entry, nat)> {
    if snaps == [] then [] else Owed(snaps[..|snaps| - 1]) + Pairs(snaps[|snaps| - 1], |snaps| - 1)
  }

  function Made(offers: seq<Offer>): (ps: seq<(Entry, nat)>)
    ensures |ps| == |offers| && forall i :: 0 <= i < |offers| ==> ps[i] == (offers[i].entry, offers[i].k)
  {
    if offers == [] then []
    else Made(offers[..|offers| - 1]) + [(offers[|offers| - 1].entry, offers[|offers| - 1].k)]
  }

  function Refusals(offers: seq<Offer>): nat {
    if offers == [] then 0
    else Refusals(offers[..|offers| - 1]) + (if offers[|offers| - 1].accepted then 0 else 1)
  }

  function Acceptances(offers: seq<Offer>): nat {
    if offers == [] then 0
    else Acceptances(offers[..|offers| - 1]) + (if offers[|offers| - 1].accepted then 1 else 0)
  }

  function TotalSize(snaps: seq<seq<Entry>>): nat {
    if snaps == [] then 0 else TotalSize(snaps[..|snaps| - 1]) + |snaps[|snaps| - 1]|
  }

  function Pending(pc: Dispatcher): seq<Entry> {
    if pc.Deliver? then pc.queues else []
  }

  function PendingCalls(pc: Dispatcher): seq<Entry> {
    if pc.Deliver? then pc.callbacks else []
  }

  predicate Suffix(rest: seq<Entry>, all: seq<Entry>) {
    |rest| <= |all| && rest == all[|all| - |rest|..]
  }

  /** Offers made plus offers still to make are exactly those owed. */
  ghost predicate OffersOk<V>(s: State<V>) {
    && (s.pc.Deliver? ==> s.snaps != [] && Suffix(s.pc.queues, s.snaps[|s.snaps| - 1]))
    && Made(s.offers) + Pairs(Pending(s.pc), if s.snaps == [] then 0 else |s.snaps| - 1) == Owed(s.snaps)
    && s.dropped == Refusals(s.offers)
  }

  lemma PairsHead(es: seq<Entry>, k: nat, before: seq<(Entry, nat)>)
    requires es != []
    ensures before + Pairs(es, k) == (before + [(es[0], k)]) + Pairs(es[1..], k)
  {
  }

  lemma OwedNext(snaps: seq<seq<Entry>>, es: seq<Entry>)
    ensures Owed(snaps + [es]) == Owed(snaps) + Pairs(es, |snaps|)
  {
    assert (snaps + [es])[..|snaps|] == snaps;
  }

  lemma PairsOfNone(k: nat)
    ensures Pairs([], k) == []
  {
  }

  lemma OfferMade(offers: seq<Offer>, o: Offer)
    ensures Made(offers + [o]) == Made(offers) + [(o.entry, o.k)]
    ensures Refusals(offers + [o]) == Refusals(offers) + (if o.accepted then 0 else 1)
  {
    assert (offers + [o])[..|offers|] == offers;
  }

  lemma OfferNextKeeps<V>(s: State<V>, a: Action<V>)
    requires OffersOk(s) && Enabled(s, a) && a.OfferNext?
    ensures OffersOk(Step(s, a))
  {
    hide Pairs, Owed, Made, Refusals;
    var k := |s.snaps| - 1;
    OfferMade(s.offers, Offer(s.pc.queues[0], k, a.room));
    PairsHead(s.pc.queues, k, Made(s.offers));
  }

  lemma SnapshotKeepsOffers<V>(s: State<V>, a: Action<V>)
    requires OffersOk(s) && Enabled(s, a) && a.Snapshot? && !s.pc.Deliver?
    ensures OffersOk(Step(s, a))
  {
    hide Pairs, Owed, Made, Refusals;
    OwedNext(s.snaps, Step(s, a).pc.queues);
    PairsOfNone(if s.snaps == [] then 0 else |s.snaps| - 1);
    assert Made(s.offers) + [] == Made(s.offers);
  }

  /** What the steps outside a delivery and its beginning leave alone. */
  lemma RestKeeps<V>(s: State<V>, a: Action<V>)
    requires Enabled(s, a) && !a.Snapshot?
    ensures var s' := Step(s, a);
      && s'.snaps == s.snaps && s'.callSnaps == s.callSnaps
      && (!a.OfferNext? ==> s'.offers == s.offers && s'.dropped == s.dropped && Pending(s'.pc) == Pending(s.pc))
      && (!a.CallNext? ==> s'.calls == s.calls && PendingCalls(s'.pc) == PendingCalls(s.pc))
      && (s'.pc.Deliver? ==> s.pc.Deliver?)
  {
    hide T.Step, T.Refuses, T.NothingReady, Removed, AddQueue, AddCallback, Entries;
  }

  lemma NotDelivering<V>(s: State<V>)
    requires Enabled(s, Snapshot)
    ensures !s.pc.Deliver?
  {
  }

  lemma OffersKeep<V>(s: State<V>, a: Action<V>)
    requires OffersOk(s) && Enabled(s, a)
    ensures OffersOk(Step(s, a))
  {
    if a.OfferNext? {
      OfferNextKeeps(s, a);
    } else if a.Snapshot? {
      NotDelivering(s);
      SnapshotKeepsOffers(s, a);
    } else {
      hide Pairs, Owed, Made, Refusals, Step, Enabled;
      RestKeeps(s, a);
    }
  }

  /** Callbacks made plus callbacks still to make are exactly those owed. */
  ghost predicate CallsOk<V>(s: State<V>) {
    && |s.callSnaps| == |s.snaps|
    && (s.pc.Deliver? ==> s.callSnaps != [] && Suffix(s.pc.callbacks, s.callSnaps[|s.callSnaps| - 1]))
    && s.calls + Pairs(PendingCalls(s.pc), if s.snaps == [] then 0 else |s.snaps| - 1) == Owed(s.callSnaps)
  }

  lemma CallNextKeeps<V>(s: State<V>, a: Action<V>)
    requires CallsOk(s) && Enabled(s, a) && a.CallNext?
    ensures CallsOk(Step(s, a))
  {
    hide Pairs, Owed;
    PairsHead(s.pc.callbacks, |s.snaps| - 1, s.calls);
  }

  lemma SnapshotKeepsCalls<V>(s: State<V>, a: Action<V>)
    requires CallsOk(s) && Enabled(s, a) && a.Snapshot? && !s.pc.Deliver?
    ensures CallsOk(Step(s, a))
  {
    hide Pairs, Owed;
    OwedNext(s.callSnaps, Step(s, a).pc.callbacks);
    PairsOfNone(if s.snaps == [] then 0 else |s.snaps| - 1);
    assert s.calls + [] == s.calls;
  }

  lemma CallsKeep<V>(s: State<V>, a: Action<V>)
    requires CallsOk(s) && Enabled(s, a)
    ensures CallsOk(Step(s, a))
  {
    if a.CallNext? {
      CallNextKeeps(s, a);
    } else if a.Snapshot? {
      NotDelivering(s);
      SnapshotKeepsCalls(s, a);
    } else {
      hide Pairs, Owed, Step, Enabled;
      RestKeeps(s, a);
    }
  }

  lemma {:induction false} OwedSize(snaps: seq<seq<Entry>>)
    ensures |Owed(snaps)| == TotalSize(snaps)
  {
    if snaps != [] {
      OwedSize(snaps[..|snaps| - 1]);
    }
  }

  lemma {:induction false} EitherWay(offers: seq<Offer>)
    ensures Acceptances(offers) + Refusals(offers) == |offers|
  {
    if offers != [] {
      EitherWay(offers[..|offers| - 1]);
    }
  }

  // ---------------------------------------------------------------- who is in a snapshot

  /** The subscription covers snapshot k of the given topic. */
  predicate Covers(spans: map<nat, Span>, queue: bool, id: nat, topic: Topic, k: nat) {
    && id in spans && spans[id].queue == queue && spans[id].topic == topic
    && spans[id].born <= k && (spans[id].over ==> k < spans[id].died)
  }

  predicate Alive(spans: map<nat, Span>, queue: bool, id: nat, topic: Topic) {
    id in spans && spans[id].queue == queue && spans[id].topic == topic && !spans[id].over
  }

  /** The current lists are those of the spans that are not over. */
  ghost predicate ListsMatch(m: Lists, spans: map<nat, Span>, queue: bool) {
    forall id: nat, topic: Topic ::
      Count(Entries(m, topic), id) == if Alive(spans, queue, id, topic) then 1 else 0
  }

  /** Every snapshot lists exactly the subscriptions that cover it, each once. */
  ghost predicate SnapsMatch<V>(snaps: seq<seq<Entry>>, vals: seq<Envelope<V>>, spans: map<nat, Span>, queue: bool) {
    && |snaps| <= |vals|
    && (forall k: nat, id: nat :: k < |snaps| ==>
          Count(snaps[k], id) == if Covers(spans, queue, id, vals[k].topic, k) then 1 else 0)
  }

  ghost predicate SpansOk<V>(s: State<V>) {
    && Unique(s.reg)
    && |s.callSnaps| == |s.snaps|
    && forall id :: id in s.spans ==> id < s.reg.nextId && s.spans[id].born <= s.spans[id].died <= |s.snaps|
  }

  ghost predicate RegistryOk<V>(s: State<V>) {
    SpansOk(s) && ListsMatch(s.reg.queues, s.spans, true) && ListsMatch(s.reg.callbacks, s.spans, false)
  }

  ghost predicate SnapsOk<V>(s: State<V>) {
    SnapsMatch(s.snaps, s.q.vals, s.spans, true) && SnapsMatch(s.callSnaps, s.q.vals, s.spans, false)
  }

  /** A new entry at the end of one topic's list. */
  lemma ListsAfterAdd(m: Lists, spans: map<nat, Span>, queue: bool, e: Entry, sp: Span)
    requires ListsMatch(m, spans, queue) && e.id !in spans && !sp.over
    ensures sp.queue == queue ==>
      ListsMatch(m[sp.topic := Entries(m, sp.topic) + [e]], spans[e.id := sp], queue)
    ensures sp.queue != queue ==> ListsMatch(m, spans[e.id := sp], queue)
  {
    var m', spans' := m[sp.topic := Entries(m, sp.topic) + [e]], spans[e.id := sp];
    forall id: nat, u: Topic
      ensures sp.queue == queue ==> Count(Entries(m', u), id) == if Alive(spans', queue, id, u) then 1 else 0
      ensures sp.queue != queue ==> Count(Entries(m, u), id) == if Alive(spans', queue, id, u) then 1 else 0
    {
      CountAppend(Entries(m, sp.topic), e, id);
      assert Count(Entries(m, u), id) == if Alive(spans, queue, id, u) then 1 else 0;
    }
  }

  lemma ListsAfterRemove(m: Lists, spans: map<nat, Span>, spans': map<nat, Span>, queue: bool, id: nat)
    requires ListsMatch(m, spans, queue)
    requires spans'.Keys == spans.Keys && (id in spans ==> spans'[id].over)
    requires forall j :: j in spans && j != id ==> spans'[j] == spans[j]
    ensures ListsMatch(AllWithout(m, id), spans', queue)
  {
    forall j: nat, u: Topic
      ensures Count(Entries(AllWithout(m, id), u), j) == if Alive(spans', queue, j, u) then 1 else 0
    {
      CountWithout(Entries(m, u), id, j);
      assert Count(Entries(m, u), j) == if Alive(spans, queue, j, u) then 1 else 0;
    }
  }

  /** Spans that agree on all snapshots taken so far list the same snapshots. */
  lemma SnapsSame<V>(snaps: seq<seq<Entry>>, vals: seq<Envelope<V>>, spans: map<nat, Span>,
                     vals': seq<Envelope<V>>, spans': map<nat, Span>, queue: bool)
    requires SnapsMatch(snaps, vals, spans, queue) && vals <= vals'
    requires forall id: nat, topic: Topic, k: nat :: k < |snaps| ==>
      (Covers(spans', queue, id, topic, k) <==> Covers(spans, queue, id, topic, k))
    ensures SnapsMatch(snaps, vals', spans', queue)
  {
    forall k: nat, id: nat | k < |snaps|
      ensures Count(snaps[k], id) == if Covers(spans', queue, id, vals'[k].topic, k) then 1 else 0
    {
      assert vals'[k] == vals[k];
      assert Count(snaps[k], id) == if Covers(spans, queue, id, vals[k].topic, k) then 1 else 0;
    }
  }

  lemma SubscribeKeeps<V>(s: State<V>, a: Action<V>)
    requires RegistryOk(s) && SnapsOk(s) && Enabled(s, a) && (a.SubQueue? || a.SubCallback?)
    ensures RegistryOk(Step(s, a)) && SnapsOk(Step(s, a))
  {
    hide ListsMatch, SnapsMatch, Unique;
    var s', id := Step(s, a), s.reg.nextId;
    var e, sp := Entry(id, a.target), Span(a.SubQueue?, a.topic, a.target, |s.snaps|, |s.snaps|, false);
    AddKeepsUnique(s.reg, a.topic, a.target);
    ListsAfterAdd(s.reg.queues, s.spans, true, e, sp);
    ListsAfterAdd(s.reg.callbacks, s.spans, false, e, sp);
    SnapsSame(s.snaps, s.q.vals, s.spans, s.q.vals, s'.spans, true);
    SnapsSame(s.callSnaps, s.q.vals, s.spans, s.q.vals, s'.spans, false);
  }

  lemma UnsubKeeps<V>(s: State<V>, a: Action<V>)
    requires RegistryOk(s) && SnapsOk(s) && Enabled(s, a) && a.Unsub?
    ensures RegistryOk(Step(s, a)) && SnapsOk(Step(s, a))
  {
    hide ListsMatch, SnapsMatch, Unique;
    var s' := Step(s, a);
    RemoveKeepsUnique(s.reg, a.id);
    ListsAfterRemove(s.reg.queues, s.spans, s'.spans, true, a.id);
    ListsAfterRemove(s.reg.callbacks, s.spans, s'.spans, false, a.id);
    SnapsSame(s.snaps, s.q.vals, s.spans, s.q.vals, s'.spans, true);
    SnapsSame(s.callSnaps, s.q.vals, s.spans, s.q.vals, s'.spans, false);
  }

  lemma SnapsNext<V>(snaps: seq<seq<Entry>>, vals: seq<Envelope<V>>, spans: map<nat, Span>, queue: bool, m: Lists)
    requires SnapsMatch(snaps, vals, spans, queue) && ListsMatch(m, spans, queue) && |snaps| < |vals|
    requires forall id :: id in spans ==> spans[id].born <= |snaps| && spans[id].died <= |snaps|
    ensures SnapsMatch(snaps + [Entries(m, vals[|snaps|].topic)], vals, spans, queue)
  {
    var snaps' := snaps + [Entries(m, vals[|snaps|].topic)];
    forall k: nat, id: nat | k < |snaps'|
      ensures Count(snaps'[k], id) == if Covers(spans, queue, id, vals[k].topic, k) then 1 else 0
    {
      if k < |snaps| {
        assert Count(snaps[k], id) == if Covers(spans, queue, id, vals[k].topic, k) then 1 else 0;
      } else {
        assert Count(Entries(m, vals[k].topic), id) == if Alive(spans, queue, id, vals[k].topic) then 1 else 0;
      }
    }
  }

  lemma SnapshotKeeps<V>(s: State<V>, a: Action<V>)
    requires OrderOk(s) && RegistryOk(s) && SnapsOk(s) && Enabled(s, a) && a.Snapshot?
    ensures RegistryOk(Step(s, a)) && SnapsOk(Step(s, a))
  {
    hide ListsMatch, SnapsMatch, Unique;
    assert |s.snaps| == s.q.head - 1;
    SnapsNext(s.snaps, s.q.vals, s.spans, true, s.reg.queues);
    SnapsNext(s.callSnaps, s.q.vals, s.spans, false, s.reg.callbacks);
  }

  lemma OtherKeeps<V>(s: State<V>, a: Action<V>)
    requires RegistryOk(s) && SnapsOk(s) && Enabled(s, a)
    requires !a.SubQueue? && !a.SubCallback? && !a.Unsub? && !a.Snapshot?
    ensures RegistryOk(Step(s, a)) && SnapsOk(Step(s, a))
  {
    hide ListsMatch, SnapsMatch, Unique;
    var s' := Step(s, a);
    assert s'.reg == s.reg && s'.spans == s.spans && s'.snaps == s.snaps && s'.callSnaps == s.callSnaps;
    SnapsSame(s.snaps, s.q.vals, s.spans, s'.q.vals, s.spans, true);
    SnapsSame(s.callSnaps, s.q.vals, s.spans, s'.q.vals, s.spans, false);
  }

  ghost predicate Inv<V>(s: State<V>) {
    OrderOk(s) && OffersOk(s) && CallsOk(s) && RegistryOk(s) && SnapsOk(s)
  }

  lemma StepKeeps<V>(s: State<V>, a: Action<V>)
    requires Inv(s) && Enabled(s, a)
    ensures Inv(Step(s, a))
  {
    hide OrderOk, OffersOk, CallsOk, RegistryOk, SnapsOk, Step, Enabled;
    OrderKeeps(s, a);
    OffersKeep(s, a);
    CallsKeep(s, a);
    match a
    case SubQueue(_, _) => SubscribeKeeps(s, a);
    case SubCallback(_, _) => SubscribeKeeps(s, a);
    case Unsub(_) => UnsubKeeps(s, a);
    case Snapshot => SnapshotKeeps(s, a);
    case _ => OtherKeeps(s, a);
  }

  lemma InitInv<V>(s: State<V>)
    requires Init(s)
    ensures Inv(s)
  {
    forall id: nat
      ensures Occurs(s.reg, id) == 0
    {
    }
  }

  lemma {:induction false} InvAt<V(!new)>(ss: seq<State<V>>, acts: seq<Action<V>>, i: nat)
    requires Run(ss, acts) && i < |ss|
    ensures Inv(ss[i])
  {
    hide Inv, Init, Step, Enabled;
    if i == 0 {
      InitInv(ss[0]);
    } else {
      InvAt(ss, acts, i - 1);
      assert Next(ss[i - 1], acts[i - 1], ss[i]);
      StepKeeps(ss[i - 1], acts[i - 1]);
    }
  }

  /** Drop accounting: accepted offers plus dropped_ plus the offers still to be made for the
      envelope in delivery add up to the sizes of all subscriber snapshots. */
  lemma Accounting<V(!new)>(ss: seq<State<V>>, acts: seq<Action<V>>, i: nat)
    requires Run(ss, acts) && i < |ss|
    ensures Acceptances(ss[i].offers) + ss[i].dropped + |Pending(ss[i].pc)| == TotalSize(ss[i].snaps)
  {
    InvAt(ss, acts, i);
    OwedSize(ss[i].snaps);
    EitherWay(ss[i].offers);
  }

  /** The tickets delivered to one subscription, in order. */
  function DeliveredTo(ps: seq<(Entry, nat)>, id: nat): seq<nat> {
    if ps == [] then []
    else DeliveredTo(ps[..|ps| - 1], id)
         + (if ps[|ps| - 1].0.id == id then [ps[|ps| - 1].1] else [])
  }

  /** The tickets below n that the subscription covers, in ticket order. */
  function Covered<V>(vals: seq<Envelope<V>>, spans: map<nat, Span>, queue: bool, id: nat, n: nat): seq<nat>
    requires n <= |vals|
  {
    if n == 0 then []
    else Covered(vals, spans, queue, id, n - 1)
         + (if Covers(spans, queue, id, vals[n - 1].topic, n - 1) then [n - 1] else [])
  }

  lemma {:induction false} DeliveredAppend(a: seq<(Entry, nat)>, b: seq<(Entry, nat)>, id: nat)
    ensures DeliveredTo(a + b, id) == DeliveredTo(a, id) + DeliveredTo(b, id)
    decreases |b|
  {
    if b == [] {
      assert a + b == a;
    } else {
      assert (a + b)[..|a + b| - 1] == a + b[..|b| - 1];
      DeliveredAppend(a, b[..|b| - 1], id);
    }
  }

  lemma {:induction false} DeliveredInSnapshot(es: seq<Entry>, k: nat, id: nat)
    requires Count(es, id) <= 1
    ensures DeliveredTo(Pairs(es, k), id) == if Count(es, id) == 1 then [k] else []
  {
    if es != [] {
      assert Pairs(es, k) == [(es[0], k)] + Pairs(es[1..], k);
      DeliveredAppend([(es[0], k)], Pairs(es[1..], k), id);
      DeliveredInSnapshot(es[1..], k, id);
      assert DeliveredTo([(es[0], k)], id) == (if es[0].id == id then [k] else []);
    }
  }

  lemma {:induction false} OwedIsCovered<V>(snaps: seq<seq<Entry>>, vals: seq<Envelope<V>>, spans: map<nat, Span>,
                                            queue: bool, id: nat)
    requires SnapsMatch(snaps, vals, spans, queue)
    ensures DeliveredTo(Owed(snaps), id) == Covered(vals, spans, queue, id, |snaps|)
    decreases |snaps|
  {
    if snaps != [] {
      var n := |snaps| - 1;
      OwedIsCovered(snaps[..n], vals, spans, queue, id);
      DeliveredAppend(Owed(snaps[..n]), Pairs(snaps[n], n), id);
      assert Count(snaps[n], id) == if Covers(spans, queue, id, vals[n].topic, n) then 1 else 0;
      DeliveredInSnapshot(snaps[n], n, id);
    }
  }

  /** A delivery in progress still owes ticket k to the subscription. */
  function Awaits(rest: seq<Entry>, k: int, id: nat): seq<nat> {
    if Count(rest, id) == 1 && k >= 0 then [k] else []
  }

  lemma {:induction false} CountSuffix(es: seq<Entry>, i: nat, id: nat)
    requires i <= |es|
    ensures Count(es[i..], id) <= Count(es, id)
  {
    if i > 0 {
      assert es[i..] == es[1..][i - 1..];
      CountSuffix(es[1..], i - 1, id);
    }
  }

  /** What was delivered and what is still owed, told apart for one subscription. */
  lemma SplitForOne<V>(made: seq<(Entry, nat)>, rest: seq<Entry>, snaps: seq<seq<Entry>>, vals: seq<Envelope<V>>,
                       spans: map<nat, Span>, queue: bool, id: nat)
    requires SnapsMatch(snaps, vals, spans, queue)
    requires made + Pairs(rest, if snaps == [] then 0 else |snaps| - 1) == Owed(snaps)
    requires rest == [] || (snaps != [] && Suffix(rest, snaps[|snaps| - 1]))
    ensures DeliveredTo(made, id) + Awaits(rest, |snaps| - 1, id) == Covered(vals, spans, queue, id, |snaps|)
  {
    var k := if snaps == [] then 0 else |snaps| - 1;
    OwedIsCovered(snaps, vals, spans, queue, id);
    DeliveredAppend(made, Pairs(rest, k), id);
    if rest != [] {
      assert Count(snaps[k], id) == if Covers(spans, queue, id, vals[k].topic, k) then 1 else 0;
      CountSuffix(snaps[k], |snaps[k]| - |rest|, id);
    }
    DeliveredInSnapshot(rest, k, id);
  }

  /** Fan-out order: between two deliveries the tickets offered to a subscriber's queue, and
      the tickets a callback was called with, are exactly the dispatched envelopes of its topic
      from its subscription to its end - one contiguous interval of dispatch order - each once
      and in ticket order.  During a delivery the ticket still owed completes the sequence. */
  lemma FanOut<V(!new)>(ss: seq<State<V>>, acts: seq<Action<V>>, i: nat, id: nat)
    requires Run(ss, acts) && i < |ss|
    ensures |ss[i].snaps| <= |ss[i].q.vals|
    ensures var s := ss[i];
      && DeliveredTo(Made(s.offers), id) + Awaits(Pending(s.pc), |s.snaps| - 1, id)
         == Covered(s.q.vals, s.spans, true, id, |s.snaps|)
      && DeliveredTo(s.calls, id) + Awaits(PendingCalls(s.pc), |s.snaps| - 1, id)
         == Covered(s.q.vals, s.spans, false, id, |s.snaps|)
  {
    hide SnapsMatch;
    InvAt(ss, acts, i);
    var s := ss[i];
    SplitForOne(Made(s.offers), Pending(s.pc), s.snaps, s.q.vals, s.spans, true, id);
    SplitForOne(s.calls, PendingCalls(s.pc), s.callSnaps, s.q.vals, s.spans, false, id);
  }

  // ---------------------------------------------------------------- what a subscriber is given

  /** The tickets that the subscription's queue has accepted, or refused, in order. */
  function TicketsOf(offers: seq<Offer>, id: nat, accepted: bool): seq<nat> {
    if offers == [] then []
    else TicketsOf(offers[..|offers| - 1], id, accepted)
         + (if offers[|offers| - 1].entry.id == id && offers[|offers| - 1].accepted == accepted
            then [offers[|offers| - 1].k] else [])
  }

  predicate Ascending(ks: seq<nat>) {
    forall i, j :: 0 <= i < j < |ks| ==> ks[i] < ks[j]
  }

  lemma {:induction false} CoveredAscends<V>(vals: seq<Envelope<V>>, spans: map<nat, Span>, queue: bool,
                                               id: nat, n: nat)
    requires n <= |vals|
    ensures Ascending(Covered(vals, spans, queue, id, n))
    ensures forall k :: k in Covered(vals, spans, queue, id, n) ==> k < n && Covers(spans, queue, id, vals[k].topic, k)
  {
    if n > 0 {
      CoveredAscends(vals, spans, queue, id, n - 1);
      var c := Covered(vals, spans, queue, id, n - 1);
      assert forall i :: 0 <= i < |c| ==> c[i] in c;
    }
  }

  lemma MadeNext(offers: seq<Offer>, id: nat)
    requires offers != []
    ensures var n := |offers| - 1;
      DeliveredTo(Made(offers), id)
      == DeliveredTo(Made(offers[..n]), id) + (if offers[n].entry.id == id then [offers[n].k] else [])
  {
    var n := |offers| - 1;
    assert Made(offers)[..n] == Made(offers[..n]);
  }

  lemma {:induction false} GivenWithin(offers: seq<Offer>, id: nat, accepted: bool)
    requires Ascending(DeliveredTo(Made(offers), id))
    ensures Ascending(TicketsOf(offers, id, accepted))
    ensures forall k :: k in TicketsOf(offers, id, accepted) ==> k in DeliveredTo(Made(offers), id)
  {
    if offers != [] {
      hide Made, DeliveredTo;
      var n := |offers| - 1;
      MadeNext(offers, id);
      var d, rest := DeliveredTo(Made(offers), id), DeliveredTo(Made(offers[..n]), id);
      assert Ascending(rest) by {
        assert forall i :: 0 <= i < |rest| ==> d[i] == rest[i];
      }
      GivenWithin(offers[..n], id, accepted);
      var t := TicketsOf(offers[..n], id, accepted);
      if offers[n].entry.id == id {
        forall k | k in rest
          ensures k < offers[n].k
        {
          var i :| 0 <= i < |rest| && rest[i] == k;
          assert d[i] == k && d[|rest|] == offers[n].k;
        }
        assert forall i :: 0 <= i < |t| ==> t[i] in t;
      }
    }
  }

  lemma {:induction false} GivenOrDropped(offers: seq<Offer>, id: nat)
    ensures |TicketsOf(offers, id, true)| + |TicketsOf(offers, id, false)| == |DeliveredTo(Made(offers), id)|
  {
    if offers != [] {
      hide Made, DeliveredTo;
      MadeNext(offers, id);
      GivenOrDropped(offers[..|offers| - 1], id);
    } else {
      assert Made(offers) == [];
    }
  }

  lemma GivenAt<V>(s: State<V>, id: nat)
    requires Inv(s)
    ensures |s.snaps| <= |s.q.vals|
    ensures var given := TicketsOf(s.offers, id, true);
      && Ascending(given)
      && (forall k :: k in given ==> k < |s.snaps| && Covers(s.spans, true, id, s.q.vals[k].topic, k))
      && |given| + |TicketsOf(s.offers, id, false)| + |Awaits(Pending(s.pc), |s.snaps| - 1, id)|
         == |Covered(s.q.vals, s.spans, true, id, |s.snaps|)|
  {
    hide Made, DeliveredTo, Covered, TicketsOf, Awaits, Covers, SnapsMatch, Owed, Pairs;
    SplitForOne(Made(s.offers), Pending(s.pc), s.snaps, s.q.vals, s.spans, true, id);
    var d, c := DeliveredTo(Made(s.offers), id), Covered(s.q.vals, s.spans, true, id, |s.snaps|);
    CoveredAscends(s.q.vals, s.spans, true, id, |s.snaps|);
    assert forall j :: 0 <= j < |d| ==> d[j] == c[j];
    GivenWithin(s.offers, id, true);
    GivenOrDropped(s.offers, id);
    forall k | k in d
      ensures k in c
    {
      var j :| 0 <= j < |d| && d[j] == k;
      assert c[j] == k;
    }
  }

  /** What the queue of one subscription has accepted are dispatched envelopes of its topic
      between its beginning and its end, in ticket order, each once; and for every such
      envelope it was asked: what it accepted, what it refused and what it is still owed add
      up to all of them. */
  lemma GivenInOrder<V(!new)>(ss: seq<State<V>>, acts: seq<Action<V>>, i: nat, id: nat)
    requires Run(ss, acts) && i < |ss|
    ensures |ss[i].snaps| <= |ss[i].q.vals|
    ensures var s, given := ss[i], TicketsOf(ss[i].offers, id, true);
      && Ascending(given)
      && (forall k :: k in given ==> k < |s.snaps| && Covers(s.spans, true, id, s.q.vals[k].topic, k))
      && |given| + |TicketsOf(s.offers, id, false)| + |Awaits(Pending(s.pc), |s.snaps| - 1, id)|
         == |Covered(s.q.vals, s.spans, true, id, |s.snaps|)|
  {
    InvAt(ss, acts, i);
    GivenAt(ss[i], id);
  }

  // ---------------------------------------------------------------- whom a delivery reaches

  /** The entry points where its subscription was made to point. */
  predicate Aimed(e: Entry, spans: map<nat, Span>) {
    e.id in spans && e.target == spans[e.id].target
  }

  predicate AllAimed(es: seq<Entry>, spans: map<nat, Span>) {
    forall i :: 0 <= i < |es| ==> Aimed(es[i], spans)
  }

  ghost predicate ListsAimed(m: Lists, spans: map<nat, Span>) {
    forall t: Topic :: AllAimed(Entries(m, t), spans)
  }

  ghost predicate TargetsOk<V>(s: State<V>) {
    && ListsAimed(s.reg.queues, s.spans) && ListsAimed(s.reg.callbacks, s.spans)
    && AllAimed(Pending(s.pc), s.spans) && AllAimed(PendingCalls(s.pc), s.spans)
    && (forall i :: 0 <= i < |s.offers| ==> Aimed(s.offers[i].entry, s.spans))
    && (forall i :: 0 <= i < |s.calls| ==> Aimed(s.calls[i].0, s.spans))
  }

  /** No subscription has been made to point elsewhere. */
  ghost predicate SameTargets(spans: map<nat, Span>, spans': map<nat, Span>) {
    forall id :: id in spans ==> id in spans' && spans'[id].target == spans[id].target
  }

  lemma StillAimed<V>(s: State<V>, spans': map<nat, Span>)
    requires TargetsOk(s) && SameTargets(s.spans, spans')
    ensures TargetsOk(s.(spans := spans'))
  {
    forall e: Entry | Aimed(e, s.spans)
      ensures Aimed(e, spans')
    {
    }
    forall es: seq<Entry> | AllAimed(es, s.spans)
      ensures AllAimed(es, spans')
    {
    }
  }

  lemma {:induction false} WithoutAimed(es: seq<Entry>, id: nat, spans: map<nat, Span>)
    requires AllAimed(es, spans)
    ensures AllAimed(Without(es, id), spans)
  {
    if es != [] {
      WithoutAimed(es[1..], id, spans);
    }
  }

  lemma AddAimed(m: Lists, t: Topic, e: Entry, spans: map<nat, Span>)
    requires ListsAimed(m, spans) && Aimed(e, spans)
    ensures ListsAimed(m[t := Entries(m, t) + [e]], spans)
  {
    var m' := m[t := Entries(m, t) + [e]];
    forall u: Topic
      ensures AllAimed(Entries(m', u), spans)
    {
      assert AllAimed(Entries(m, u), spans);
    }
  }

  lemma SubscribeAims<V>(s: State<V>, a: Action<V>)
    requires TargetsOk(s) && Enabled(s, a) && (a.SubQueue? || a.SubCallback?)
    requires forall id :: id in s.spans ==> id < s.reg.nextId
    ensures TargetsOk(Step(s, a))
  {
    var spans', e := Step(s, a).spans, Entry(s.reg.nextId, a.target);
    StillAimed(s, spans');
    if a.SubQueue? {
      AddAimed(s.reg.queues, a.topic, e, spans');
    } else {
      AddAimed(s.reg.callbacks, a.topic, e, spans');
    }
    hide ListsAimed, AllAimed, Entries;
  }

  lemma UnsubAims<V>(s: State<V>, a: Action<V>)
    requires TargetsOk(s) && Enabled(s, a) && a.Unsub?
    ensures TargetsOk(Step(s, a))
  {
    var s' := Step(s, a);
    StillAimed(s, s'.spans);
    forall t: Topic
      ensures AllAimed(Entries(s'.reg.queues, t), s'.spans) && AllAimed(Entries(s'.reg.callbacks, t), s'.spans)
    {
      assert AllAimed(Entries(s.reg.queues, t), s'.spans) && AllAimed(Entries(s.reg.callbacks, t), s'.spans);
      WithoutAimed(Entries(s.reg.queues, t), a.id, s'.spans);
      WithoutAimed(Entries(s.reg.callbacks, t), a.id, s'.spans);
      assert Entries(s'.reg.queues, t) == Without(Entries(s.reg.queues, t), a.id);
      assert Entries(s'.reg.callbacks, t) == Without(Entries(s.reg.callbacks, t), a.id);
    }
  }

  /** Copying the lists, offering and calling. */
  lemma DeliveryAims<V>(s: State<V>, a: Action<V>)
    requires TargetsOk(s) && Enabled(s, a) && (a.Snapshot? || a.OfferNext? || a.CallNext?)
    ensures TargetsOk(Step(s, a))
  {
    if a.Snapshot? {
      var topic := s.q.vals[s.q.head - 1].topic;
      assert AllAimed(Entries(s.reg.queues, topic), s.spans) && AllAimed(Entries(s.reg.callbacks, topic), s.spans);
    }
    hide ListsAimed;
    assert Step(s, a).reg == s.reg && Step(s, a).spans == s.spans;
  }

  lemma RestAims<V>(s: State<V>, a: Action<V>)
    requires TargetsOk(s) && Enabled(s, a)
    requires !a.SubQueue? && !a.SubCallback? && !a.Unsub? && !a.Snapshot? && !a.OfferNext? && !a.CallNext?
    ensures TargetsOk(Step(s, a))
  {
    RestKeeps(s, a);
    hide T.Step, T.Refuses, T.NothingReady, AllAimed, Aimed, ListsAimed;
    assert Step(s, a).reg == s.reg && Step(s, a).spans == s.spans;
  }

  lemma AimKeeps<V>(s: State<V>, a: Action<V>)
    requires TargetsOk(s) && Enabled(s, a) && forall id :: id in s.spans ==> id < s.reg.nextId
    ensures TargetsOk(Step(s, a)) && SameTargets(s.spans, Step(s, a).spans)
  {
    if a.SubQueue? || a.SubCallback? {
      SubscribeAims(s, a);
    } else if a.Unsub? {
      UnsubAims(s, a);
    } else if a.Snapshot? || a.OfferNext? || a.CallNext? {
      DeliveryAims(s, a);
    } else {
      RestAims(s, a);
    }
    hide TargetsOk, T.Step, T.Refuses, T.NothingReady, Removed, AddQueue, AddCallback, Entries;
  }

  lemma IdsIssued<V>(s: State<V>)
    requires Inv(s)
    ensures forall id :: id in s.spans ==> id < s.reg.nextId
  {
  }

  lemma InitAims<V>(s: State<V>)
    requires Init(s)
    ensures TargetsOk(s)
  {
  }

  lemma {:induction false} AimAt<V(!new)>(ss: seq<State<V>>, acts: seq<Action<V>>, i: nat)
    requires Run(ss, acts) && i < |ss|
    ensures TargetsOk(ss[i])
  {
    hide TargetsOk, Step, Enabled, Inv, Init;
    if i == 0 {
      InitAims(ss[0]);
    } else {
      AimAt(ss, acts, i - 1);
      InvAt(ss, acts, i - 1);
      IdsIssued(ss[i - 1]);
      assert Next(ss[i - 1], acts[i - 1], ss[i]);
      AimKeeps(ss[i - 1], acts[i - 1]);
    }
  }

  /** What a step makes of a subscription that there is. */
  lemma SpanStep<V>(s: State<V>, a: Action<V>, id: nat)
    requires Enabled(s, a) && id in s.spans && id < s.reg.nextId
    ensures var s' := Step(s, a);
      && id in s'.spans
      && s'.spans[id] == if a == Unsub(id) && !s.spans[id].over
                         then s.spans[id].(died := |s.snaps|, over := true) else s.spans[id]
  {
    hide T.Step, T.Refuses, T.NothingReady, Removed, AddQueue, AddCallback, Entries;
  }

  /** What has become of a subscription that was made at step i. */
  lemma {:induction false} SpanAt<V(!new)>(ss: seq<State<V>>, acts: seq<Action<V>>, i: nat, j: nat)
    requires Run(ss, acts) && i < j < |ss| && (acts[i].SubQueue? || acts[i].SubCallback?)
    ensures var id := ss[i].reg.nextId;
      && id in ss[j].spans && id < ss[j].reg.nextId
      && ss[j].spans[id].queue == acts[i].SubQueue? && ss[j].spans[id].topic == acts[i].topic
      && ss[j].spans[id].target == acts[i].target && ss[j].spans[id].born == |ss[i].snaps|
      && (ss[j].spans[id].over <==> exists m :: i < m < j && acts[m] == Unsub(id))
    decreases j
  {
    var id := ss[i].reg.nextId;
    if j == i + 1 {
      assert Next(ss[i], acts[i], ss[j]);
    } else {
      SpanAt(ss, acts, i, j - 1);
      hide Step, Enabled, Init;
      assert Next(ss[j - 1], acts[j - 1], ss[j]);
      SpanStep(ss[j - 1], acts[j - 1], id);
      InvAt(ss, acts, j);
      IdsIssued(ss[j]);
    }
  }

  /** Whom a subscription reaches: the subscription made at step i gets the next id, stands for
      the topic and target it was given from that moment until it is cancelled, and whatever
      is delivered under that id goes to that target. */
  lemma ReachesTarget<V(!new)>(ss: seq<State<V>>, acts: seq<Action<V>>, i: nat, j: nat)
    requires Run(ss, acts) && i < j < |ss| && (acts[i].SubQueue? || acts[i].SubCallback?)
    ensures var id := ss[i].reg.nextId;
      && id in ss[j].spans && ss[j].spans[id].topic == acts[i].topic && ss[j].spans[id].queue == acts[i].SubQueue?
      && ss[j].spans[id].born == |ss[i].snaps|
      && (ss[j].spans[id].over <==> exists m :: i < m < j && acts[m] == Unsub(id))
      && (forall n :: 0 <= n < |ss[j].offers| && ss[j].offers[n].entry.id == id ==>
            ss[j].offers[n].entry.target == acts[i].target)
      && (forall n :: 0 <= n < |ss[j].calls| && ss[j].calls[n].0.id == id ==>
            ss[j].calls[n].0.target == acts[i].target)
  {
    SpanAt(ss, acts, i, j);
    AimAt(ss, acts, j);
    hide Inv, Init, Step, Enabled;
  }

  lemma TailGrows<V>(s: State<V>, a: Action<V>)
    requires Enabled(s, a)
    ensures s.q.vals <= Step(s, a).q.vals
  {
    hide T.Refuses, Removed, AddQueue, AddCallback, Entries;
  }

  lemma {:induction false} TailGrowsAlong<V(!new)>(s: State<V>, acts: seq<Action<V>>, s': State<V>)
    requires Runs.Leads(Next<V>, s, acts, s')
    ensures s.q.vals <= s'.q.vals
    decreases |acts|
  {
    if acts != [] {
      hide Step, Enabled;
      var m: State<V> :| Next(s, acts[0], m) && Runs.Leads(Next<V>, m, acts[1..], s');
      TailGrows(s, acts[0]);
      TailGrowsAlong(m, acts[1..], s');
    }
  }

  lemma ClaimAdds<V>(s: State<V>, a: Action<V>)
    requires Enabled(s, a)
    ensures Step(s, a).q.vals == s.q.vals + (if a.Claim? then [Envelope(a.topic, a.msg)] else [])
  {
    hide T.Refuses, Removed, AddQueue, AddCallback, Entries;
  }

  /** What a ticket stands for: the topic and message of the publish that claimed it. */
  lemma PublishedAs<V(!new)>(ss: seq<State<V>>, acts: seq<Action<V>>, i: nat, j: nat)
    requires Run(ss, acts) && i < j < |ss| && acts[i].Claim?
    ensures ss[i].q.Tail() < |ss[j].q.vals|
    ensures ss[j].q.vals[ss[i].q.Tail()] == Envelope(acts[i].topic, acts[i].msg)
  {
    hide Step, Enabled, Init;
    assert Next(ss[i], acts[i], ss[i + 1]);
    ClaimAdds(ss[i], acts[i]);
    Runs.Between(Next<V>, ss, acts, i + 1, j);
    TailGrowsAlong(ss[i + 1], acts[i + 1..j], ss[j]);
  }

  /** Every ticket was claimed by a publish. */
  lemma {:induction false} PublishOf<V(!new)>(ss: seq<State<V>>, acts: seq<Action<V>>, j: nat, k: nat) returns (i: nat)
    requires Run(ss, acts) && j < |ss| && k < |ss[j].q.vals|
    ensures i < j && acts[i].Claim? && ss[i].q.Tail() == k
    ensures ss[j].q.vals[k] == Envelope(acts[i].topic, acts[i].msg)
  {
    if j > 0 {
      hide Step, Enabled;
      assert Next(ss[j - 1], acts[j - 1], ss[j]);
      ClaimAdds(ss[j - 1], acts[j - 1]);
      if k < |ss[j - 1].q.vals| {
        i := PublishOf(ss, acts, j - 1, k);
      } else {
        i := j - 1;
      }
    }
  }

  // ---------------------------------------------------------------- drain on stop

  /** The end of one turn of the dispatch loops: an envelope dispatched, or none found. */
  predicate IsTurn<V>(a: Action<V>) { a.Finish? || a.FindNothing? }

  /** Stop has been called, no publish is half done, and the tail stands at n: nothing is
      claimed from here on as long as it stays there. */
  ghost predicate Stopped<V>(s: State<V>, n: nat) {
    && OrderOk(s) && !s.running && !s.pc.Off? && s.q.Tail() == n
    && (forall k :: 0 <= k < |s.q.phase| ==> !s.q.phase[k].Writing?)
    && (s.pc.Exited? ==> s.q.head == n)
  }

  /** How many turns a stopped dispatch thread can still make. */
  function Left<V>(s: State<V>): int {
    s.q.Tail() - s.q.head
    + match s.pc
      case Exited => 0
      case Test => 1
      case Consume(last) => if last then 1 else 2
      case _ => 2
  }

  lemma StoppedStep<V>(s: State<V>, a: Action<V>, n: nat)
    requires Stopped(s, n) && Enabled(s, a) && Step(s, a).q.Tail() == n
    ensures Stopped(Step(s, a), n) && Left(Step(s, a)) + (if IsTurn(a) then 1 else 0) <= Left(s)
  {
    hide T.Refuses, Removed, AddQueue, AddCallback, Entries;
    OrderKeeps(s, a);
    if a.FindNothing? {
      T.RefusalIsExact(s.q);
    }
  }

  lemma NoTurns<V>()
    ensures Runs.Tally(IsTurn<V>, []) == 0
  {
  }

  lemma {:induction false} StoppedAlong<V(!new)>(s: State<V>, acts: seq<Action<V>>, s': State<V>, n: nat)
    requires Stopped(s, n) && Runs.Leads(Next<V>, s, acts, s') && s'.q.Tail() == n
    ensures Stopped(s', n) && Left(s') + Runs.Tally(IsTurn<V>, acts) <= Left(s)
    decreases |acts|
  {
    if acts == [] {
      NoTurns<V>();
    } else {
      hide Left, Step, Enabled, Runs.Tally, OrderOk;
      var m: State<V> :| Next(s, acts[0], m) && Runs.Leads(Next<V>, m, acts[1..], s');
      TailGrows(s, acts[0]);
      TailGrowsAlong(m, acts[1..], s');
      StoppedStep(s, acts[0], n);
      StoppedAlong(m, acts[1..], s', n);
      assert acts == [acts[0]] + acts[1..] && [] + [acts[0]] == [acts[0]];
      Runs.TallySplit(IsTurn<V>, [acts[0]], acts[1..]);
      Runs.TallyNext(IsTurn<V>, [], acts[0]);
      NoTurns<V>();
    }
  }

  lemma OrderAt<V(!new)>(ss: seq<State<V>>, acts: seq<Action<V>>, i: nat)
    requires Run(ss, acts) && i < |ss|
    ensures OrderOk(ss[i])
  {
    InvAt(ss, acts, i);
  }

  lemma StopStops<V>(s: State<V>)
    requires OrderOk(s) && Enabled(s, Stop) && !s.pc.Exited?
    requires forall k :: 0 <= k < |s.q.phase| ==> !s.q.phase[k].Writing?
    ensures Stopped(Step(s, Stop), s.q.Tail()) && Left(Step(s, Stop)) == Left(s) <= s.q.Tail() - s.q.head + 2
  {
  }

  predicate LastTurns(pc: Dispatcher) {
    (pc.Consume? || pc.Taken? || pc.Lock? || pc.Deliver?) && pc.last
  }

  lemma OrderOf<V>(s: State<V>)
    requires Inv(s)
    ensures OrderOk(s) && s.q.head <= s.q.Tail()
  {
  }

  lemma QuietIsStopped<V>(s: State<V>)
    requires OrderOk(s) && !s.running && s.pc.Test?
    requires forall k :: 0 <= k < |s.q.phase| ==> !s.q.phase[k].Writing?
    ensures Stopped(s, s.q.Tail()) && Left(s) == s.q.Tail() - s.q.head + 1
  {
  }

  /** The dispatch thread of a bus that runs is not gone. */
  ghost predicate Alert<V>(s: State<V>) {
    s.running ==> !s.pc.Exited? && !LastTurns(s.pc)
  }

  lemma AlertKeeps<V>(s: State<V>, a: Action<V>)
    requires Alert(s) && Enabled(s, a)
    ensures Alert(Step(s, a))
  {
    hide T.Step, T.Refuses, Removed, AddQueue, AddCallback, Entries;
  }

  lemma {:induction false} AlertAt<V(!new)>(ss: seq<State<V>>, acts: seq<Action<V>>, i: nat)
    requires Run(ss, acts) && i < |ss|
    ensures Alert(ss[i])
  {
    if i > 0 {
      hide Alert, Step, Enabled;
      AlertAt(ss, acts, i - 1);
      assert Next(ss[i - 1], acts[i - 1], ss[i]);
      AlertKeeps(ss[i - 1], acts[i - 1]);
    }
  }

  lemma StopEnabled<V>(s: State<V>)
    requires Enabled(s, Stop)
    ensures s.running
  {
  }

  lemma StoppedEnd<V>(s: State<V>, n: nat)
    requires Stopped(s, n)
    ensures Left(s) <= 0 ==> s.pc.Exited?
    ensures s.pc.Exited? ==> s.dispatched == n
  {
  }

  /** Drain on stop: if stop is called (step i) with no publish half done, and nothing is
      published up to state j, then the dispatch thread has gone by then if it has had two
      turns more than there were envelopes left, and once it has gone every accepted publish
      has been dispatched. */
  lemma DrainOnStop<V(!new)>(ss: seq<State<V>>, acts: seq<Action<V>>, i: nat, j: nat)
    requires Run(ss, acts) && i < |acts| && i < j < |ss| && acts[i].Stop?
    requires forall k :: 0 <= k < |ss[i].q.phase| ==> !ss[i].q.phase[k].Writing?
    requires ss[j].q.Tail() == ss[i].q.Tail()
    ensures Runs.Tally(IsTurn<V>, acts[i + 1..j]) >= ss[i].q.Tail() - ss[i].q.head + 2 ==> ss[j].pc.Exited?
    ensures ss[j].pc.Exited? ==> ss[j].dispatched == |ss[j].q.vals| && ss[j].q.vals == ss[i].q.vals
  {
    hide Step, Enabled, OrderOk, Left, Runs.Tally, Init;
    var n := ss[i].q.Tail();
    OrderAt(ss, acts, i);
    AlertAt(ss, acts, i);
    assert Next(ss[i], acts[i], ss[i + 1]);
    StopEnabled(ss[i]);
    StopStops(ss[i]);
    Runs.Between(Next<V>, ss, acts, i + 1, j);
    StoppedAlong(ss[i + 1], acts[i + 1..j], ss[j], n);
    TailGrows(ss[i], acts[i]);
    TailGrowsAlong(ss[i + 1], acts[i + 1..j], ss[j]);
    StoppedEnd(ss[j], n);
  }

  /** Every accepted publish has been dispatched. */
  ghost predicate AllDispatched<V>(s: State<V>)
    requires |s.q.phase| == |s.q.vals|
  {
    forall k :: 0 <= k < |s.q.phase| && !s.q.phase[k].Writing? ==> k < s.dispatched
  }

  /** Whatever happens from here on, if no further publish begins then once the thread stopped
      now has gone every accepted publish has been dispatched. */
  ghost predicate StopDispatchesAll<V(!new)>(s: State<V>) {
    forall acts: seq<Action<V>>, s': State<V> ::
      acts != [] && acts[0].Stop? && Runs.Leads(Next<V>, s, acts, s') && s'.pc.Exited? && s'.q.Tail() == s.q.Tail()
      ==> |s'.q.phase| == |s'.q.vals| && AllDispatched(s')
  }

  function Stage(pc: Dispatcher): nat {
    match pc
    case Taken(_) => 6
    case Lock(_) => 5
    case Deliver(_, _, _) => 4
    case Consume(last) => if last then 1 else 3
    case Test => 2
    case _ => 0
  }

  /** What the dispatch thread does next. */
  function DispatcherMove<V>(s: State<V>): Action<V>
    requires |s.q.phase| == |s.q.vals|
  {
    match s.pc
    case Consume(_) => if T.NothingReady(s.q) then FindNothing else Take
    case Taken(_) => Release
    case Lock(_) => Snapshot
    case Deliver(_, queues, callbacks) =>
      if queues != [] then OfferNext(true) else if callbacks != [] then CallNext else Finish
    case _ => TestRunning
  }

  /** The dispatch thread alone has moved from s to s'. */
  ghost predicate Dispatching<V>(s: State<V>, s': State<V>)
    requires |s.q.phase| == |s.q.vals|
  {
    && OrderOk(s') && !s'.running && !s'.pc.Off? && s'.q.vals == s.q.vals
    && forall k :: 0 <= k < |s.q.phase| && s.q.phase[k].Writing? ==> s'.q.phase[k].Writing?
  }

  lemma DispatcherMoves<V>(s: State<V>)
    requires OrderOk(s) && !s.running && !s.pc.Off? && !s.pc.Exited?
    ensures Enabled(s, DispatcherMove(s)) && Dispatching(s, Step(s, DispatcherMove(s)))
    ensures s.q.head <= s.q.Tail()
    ensures var s' := Step(s, DispatcherMove(s));
      || s'.q.head > s.q.head
      || (s'.q.head == s.q.head && Stage(s'.pc) < Stage(s.pc))
      || (s'.q.head == s.q.head && Stage(s'.pc) == Stage(s.pc)
          && |Pending(s'.pc)| + |PendingCalls(s'.pc)| < |Pending(s.pc)| + |PendingCalls(s.pc)|)
  {
    hide T.Refuses, Entries;
    OrderKeeps(s, DispatcherMove(s));
  }

  lemma HeadBelowTail<V>(s: State<V>)
    requires OrderOk(s)
    ensures s.q.head <= s.q.Tail()
  {
  }

  /** Once running_ is cleared the dispatch thread can go on alone until it is gone. */
  lemma {:induction false} DispatchOut<V(!new)>(s: State<V>) returns (acts: seq<Action<V>>, s': State<V>)
    requires OrderOk(s) && !s.running && !s.pc.Off?
    ensures Runs.Leads(Next<V>, s, acts, s') && Dispatching(s, s') && s'.pc.Exited?
    decreases s.q.Tail() - s.q.head, Stage(s.pc), |Pending(s.pc)| + |PendingCalls(s.pc)|
  {
    if s.pc.Exited? {
      acts, s' := [], s;
    } else {
      DispatcherMoves(s);
      hide Enabled, Step, Stage, DispatcherMove, Pending, PendingCalls;
      var m := Step(s, DispatcherMove(s));
      HeadBelowTail(m);
      var rest;
      rest, s' := DispatchOut(m);
      Runs.One(Next<V>, s, DispatcherMove(s), m);
      Runs.Join(Next<V>, s, [DispatcherMove(s)], m, rest, s');
      acts := [DispatcherMove(s)] + rest;
    }
  }

  /** A publish that is half done when stop is called can be accepted after the dispatch thread
      has gone. */
  lemma LatePublish<V(!new)>(s: State<V>, k: nat) returns (acts: seq<Action<V>>, s': State<V>)
    requires OrderOk(s) && Enabled(s, Stop) && k < |s.q.phase| && s.q.phase[k].Writing?
    ensures acts != [] && acts[0].Stop? && Runs.Leads(Next<V>, s, acts, s')
    ensures s'.pc.Exited? && s'.q.Tail() == s.q.Tail() && |s'.q.phase| == |s'.q.vals| && !AllDispatched(s')
  {
    var s1 := Step(s, Stop);
    OrderKeeps(s, Stop);
    var out, s2 := DispatchOut(s1);
    s' := Step(s2, Publish(k));
    Runs.One(Next<V>, s2, Publish(k), s');
    Runs.Join(Next<V>, s1, out, s2, [Publish(k)], s');
    Runs.One(Next<V>, s, Stop, s1);
    acts := [Stop] + (out + [Publish(k)]);
    Runs.Join(Next<V>, s, [Stop], s1, out + [Publish(k)], s');
    assert !s'.q.phase[k].Writing? && k >= s'.dispatched;
  }

  /** An instance: a publish has its ticket when the bus is stopped, and is accepted after the
      thread has gone. */
  lemma LatePublishIsLost<V(!new)>(e: Envelope<V>) returns (ss: seq<State<V>>, acts: seq<Action<V>>)
    ensures Run(ss, acts)
    ensures var s := ss[|acts|]; s.pc.Exited? && |s.q.phase| == |s.q.vals| && !AllDispatched(s)
  {
    var s0 := State(T.Init(4096), Registry(map[], map[], 1), false, Off, 0, 0, [], [], [], [], map[]);
    var claim: Action<V> := Claim(0, e.topic, e.msg);
    var s1 := s0.(running := true, pc := Test);
    var s2 := s1.(q := T.State(4096, 0, [e], [T.Writing(0)]));
    assert Next(s0, Start, s1) && Next(s1, claim, s2);
    OrderKeeps(s0, Start);
    OrderKeeps(s1, claim);
    var more, s' := LatePublish(s2, 0);
    Runs.One(Next<V>, s1, claim, s2);
    Runs.Join(Next<V>, s1, [claim], s2, more, s');
    Runs.One(Next<V>, s0, Start, s1);
    Runs.Join(Next<V>, s0, [Start], s1, [claim] + more, s');
    acts := [Start] + ([claim] + more);
    ss := Runs.Trace(Next<V>, s0, acts, s');
  }

  /** Exactly when a stop dispatches every accepted publish, whatever happens meanwhile short
      of new publishes: no publish is half done at the moment running_ is cleared. */
  lemma DrainIffNoneHalfDone<V(!new)>(ss: seq<State<V>>, acts: seq<Action<V>>, i: nat)
    requires Run(ss, acts) && i < |ss| && Enabled(ss[i], Stop)
    ensures StopDispatchesAll(ss[i]) <==> forall k :: 0 <= k < |ss[i].q.phase| ==> !ss[i].q.phase[k].Writing?
  {
    var s, n := ss[i], ss[i].q.Tail();
    OrderAt(ss, acts, i);
    AlertAt(ss, acts, i);
    if k :| 0 <= k < |s.q.phase| && s.q.phase[k].Writing? {
      var more, s' := LatePublish(s, k);
    } else {
      StopEnabled(s);
      StopStops(s);
      forall more: seq<Action<V>>, s': State<V>
        | more != [] && more[0].Stop? && Runs.Leads(Next<V>, s, more, s') && s'.pc.Exited? && s'.q.Tail() == n
        ensures |s'.q.phase| == |s'.q.vals| && AllDispatched(s')
      {
        var m: State<V> :| Next(s, more[0], m) && Runs.Leads(Next<V>, m, more[1..], s');
        StoppedAlong(m, more[1..], s', n);
        StoppedEnd(s', n);
      }
    }
  }

  /** Once the dispatch thread has gone nothing is dispatched any more: later publishes are
      left behind. */
  lemma {:induction false} ExitedStays<V(!new)>(ss: seq<State<V>>, acts: seq<Action<V>>, i: nat, j: nat)
    requires Run(ss, acts) && i <= j < |ss| && ss[i].pc.Exited?
    ensures ss[j].pc.Exited? && ss[j].dispatched == ss[i].dispatched == ss[i].q.head == ss[j].q.head
    decreases j
  {
    OrderAt(ss, acts, i);
    if i < j {
      ExitedStays(ss, acts, i, j - 1);
      assert Next(ss[j - 1], acts[j - 1], ss[j]);
    }
  }

  // ---------------------------------------------------------------- the dispatch thread's code

  predicate ByDispatcher<V>(a: Action<V>) {
    a.Start? || a.TestRunning? || a.Take? || a.FindNothing? || a.Release? || a.Snapshot? || a.OfferNext?
    || a.CallNext? || a.Finish?
  }

  /** The offers of ticket k to the listed entries; rooms(j) says whether the j-th has room. */
  function OffersOf(es: seq<Entry>, k: nat, rooms: nat -> bool): (os: seq<Offer>)
    ensures |os| == |es|
  {
    seq(|es|, j requires 0 <= j < |es| => Offer(es[j], k, rooms(j)))
  }

  lemma OffersOfNext(es: seq<Entry>, k: nat, rooms: nat -> bool, j: nat)
    requires j < |es|
    ensures OffersOf(es[..j + 1], k, rooms) == OffersOf(es[..j], k, rooms) + [Offer(es[j], k, rooms(j))]
  {
  }

  lemma PairsNext(es: seq<Entry>, k: nat, j: nat)
    requires j < |es|
    ensures Pairs(es[..j + 1], k) == Pairs(es[..j], k) + [(es[j], k)]
  {
  }

  class TopicBus<V(!new)> {
    var queue: T.State<Envelope<V>>   // bus_queue_
    var reg: Registry                 // queues_, callbacks_, next_id_
    var running: bool
    var dispatched: nat
    var dropped: nat
    var pc: Dispatcher                // where the dispatch thread stands
    var snaps: seq<seq<Entry>>
    var offers: seq<Offer>
    var callSnaps: seq<seq<Entry>>
    var calls: seq<(Entry, nat)>
    var spans: map<nat, Span>
    ghost var start: State<V>
    ghost var acts: seq<Action<V>>

    function View(): State<V>
      reads this
    {
      State(queue, reg, running, pc, dispatched, dropped, snaps, offers, callSnaps, calls, spans)
    }

    /** Everything done so far is a run of the transition system. */
    ghost predicate Valid()
      reads this
    {
      Inv(View()) && Runs.Leads(Next<V>, start, acts, View())
    }

    constructor (capacity: nat)
      requires capacity >= 2
      ensures Valid() && Init(View()) && View() == start && acts == [] && queue.cap == capacity
    {
      queue, reg, running, dispatched, dropped := T.Init(capacity), Registry(map[], map[], 1), false, 0, 0;
      pc, snaps, offers, callSnaps, calls, spans := Off, [], [], [], [], map[];
      start := State(T.Init(capacity), Registry(map[], map[], 1), false, Off, 0, 0, [], [], [], [], map[]);
      acts := [];
      new;
      InitInv(View());
    }

    lemma Shape()
      requires Valid()
      ensures |queue.phase| == |queue.vals| && queue.head <= queue.Tail() && |snaps| <= queue.head
      ensures pc.Taken? || pc.Lock? ==> queue.head == |snaps| + 1
      ensures pc.Taken? ==> queue.phase[queue.head - 1].Reading?
      ensures pc.Deliver? ==> snaps != []
    {
    }

    /** The fields have just made step a from state before. */
    ghost method Did(a: Action<V>, before: State<V>)
      requires Inv(before) && Runs.Leads(Next<V>, start, acts, before)
      requires Enabled(before, a) && View() == Step(before, a)
      modifies `acts
      ensures Valid() && acts == old(acts) + [a]
      ensures Runs.Tally(IsTurn<V>, acts) == old(Runs.Tally(IsTurn<V>, acts)) + (if IsTurn(a) then 1 else 0)
    {
      hide Inv, Runs.Leads, Runs.Tally, Enabled, Step;
      Runs.TallyNext(IsTurn<V>, acts, a);
      StepKeeps(before, a);
      Runs.LeadsOn(Next<V>, start, acts, before, a, View());
      acts := acts + [a];
    }

    method StartThread()
      requires Valid() && pc.Off?
      modifies this
      ensures Valid() && start == old(start) && old(acts) <= acts && pc.Test? && running && queue == old(queue)
      ensures Runs.Tally(IsTurn<V>, acts) == old(Runs.Tally(IsTurn<V>, acts))
    {
      hide Inv, Runs.Leads, Runs.Tally;
      Shape();
      ghost var before := View();
      running, pc := true, Test;
      Did(Start, before);
    }

    /** What other threads and callbacks do between two steps of the dispatch thread. */
    method Others(sched: seq<Action<V>>)
      requires Valid()
      modifies this
      ensures Valid() && start == old(start) && old(acts) <= acts && pc == old(pc)
      ensures offers == old(offers) && calls == old(calls) && snaps == old(snaps)
      ensures dispatched == old(dispatched) && dropped == old(dropped) && callSnaps == old(callSnaps)
      ensures Runs.Tally(IsTurn<V>, acts) == old(Runs.Tally(IsTurn<V>, acts))
    {
      hide *;
      for i := 0 to |sched|
        invariant Valid() && start == old(start) && old(acts) <= acts && pc == old(pc)
        invariant offers == old(offers) && calls == old(calls) && snaps == old(snaps)
        invariant dispatched == old(dispatched) && dropped == old(dropped) && callSnaps == old(callSnaps)
        invariant Runs.Tally(IsTurn<V>, acts) == old(Runs.Tally(IsTurn<V>, acts))
      {
        Other(sched[i]);
      }
    }

    method Other(a: Action<V>)
      requires Valid()
      modifies this
      ensures Valid() && start == old(start) && old(acts) <= acts && pc == old(pc)
      ensures offers == old(offers) && calls == old(calls) && snaps == old(snaps)
      ensures dispatched == old(dispatched) && dropped == old(dropped) && callSnaps == old(callSnaps)
      ensures Runs.Tally(IsTurn<V>, acts) == old(Runs.Tally(IsTurn<V>, acts))
    {
      hide Inv, Runs.Leads, Runs.Tally;
      if !ByDispatcher(a) && Enabled(View(), a) {
        ghost var before := View();
        var s := Step(View(), a);
        queue, reg, running, spans := s.q, s.reg, s.running, s.spans;
        Did(a, before);
      }
    }

    /** bus_queue_.consume by the dispatch thread: the head envelope if it is published. */
    method ConsumeEnvelope() returns (ok: bool)
      requires Valid() && pc.Consume?
      modifies this
      ensures Valid() && start == old(start) && old(acts) <= acts && dispatched == old(dispatched)
      ensures ok <==> !T.NothingReady(old(queue))
      ensures ok ==> pc == Lock(old(pc).last) && queue.head == old(queue).head + 1
      ensures !ok ==> pc == (if old(pc).last then Exited else Test) && queue == old(queue)
      ensures Runs.Tally(IsTurn<V>, acts) == old(Runs.Tally(IsTurn<V>, acts)) + (if ok then 0 else 1)
    {
      hide Inv, Runs.Leads, Runs.Tally;
      Shape();
      ghost var before := View();
      if T.NothingReady(queue) {
        pc := if pc.last then Exited else Test;
        Did(FindNothing, before);
        return false;
      }
      queue, pc := T.Step(queue, T.Take(0)), Taken(pc.last);
      Did(Take, before);
      GiveBack();
      return true;
    }

    /** The slot of the envelope is given back. */
    method GiveBack()
      requires Valid() && pc.Taken?
      modifies this
      ensures Valid() && start == old(start) && old(acts) <= acts && dispatched == old(dispatched)
      ensures pc == Lock(old(pc).last) && queue.head == old(queue).head
      ensures Runs.Tally(IsTurn<V>, acts) == old(Runs.Tally(IsTurn<V>, acts))
    {
      hide Inv, Runs.Leads, Runs.Tally;
      Shape();
      ghost var before := View();
      queue, pc := T.Step(queue, T.Release(queue.head - 1)), Lock(pc.last);
      Did(Release, before);
    }

    /** Under the lock, the lists of the envelope's topic are copied. */
    method CopyLists() returns (qcopy: seq<Entry>, ccopy: seq<Entry>)
      requires Valid() && pc.Lock?
      modifies this
      ensures Valid() && start == old(start) && old(acts) <= acts
      ensures pc == Deliver(old(pc).last, qcopy, ccopy)
      ensures snaps == old(snaps) + [qcopy] && callSnaps == old(callSnaps) + [ccopy]
      ensures |old(snaps)| < |queue.vals| && qcopy == Entries(reg.queues, queue.vals[|old(snaps)|].topic)
      ensures ccopy == Entries(reg.callbacks, queue.vals[|old(snaps)|].topic)
      ensures Runs.Tally(IsTurn<V>, acts) == old(Runs.Tally(IsTurn<V>, acts))
      ensures offers == old(offers) && calls == old(calls) && dropped == old(dropped) && dispatched == old(dispatched)
    {
      hide Inv, Runs.Leads, Runs.Tally;
      Shape();
      ghost var before := View();
      var topic := queue.vals[queue.head - 1].topic;
      qcopy, ccopy := Entries(reg.queues, topic), Entries(reg.callbacks, topic);
      snaps, callSnaps, pc := snaps + [qcopy], callSnaps + [ccopy], Deliver(pc.last, qcopy, ccopy);
      Did(Snapshot, before);
    }

    /** One subscriber's queue, with or without room. */
    method OfferTo(e: Entry, room: bool)
      requires Valid() && pc.Deliver? && pc.queues != [] && e == pc.queues[0]
      modifies this
      ensures Valid() && start == old(start) && old(acts) <= acts && snaps == old(snaps)
      ensures pc == old(pc).(queues := old(pc).queues[1..]) && callSnaps == old(callSnaps)
      ensures Runs.Tally(IsTurn<V>, acts) == old(Runs.Tally(IsTurn<V>, acts))
      ensures offers == old(offers) + [Offer(e, |snaps| - 1, room)] && calls == old(calls)
      ensures dropped == old(dropped) + (if room then 0 else 1) && dispatched == old(dispatched)
    {
      hide Runs.Leads, Inv, Runs.Tally;
      Shape();
      ghost var before := View();
      if !room {
        dropped := dropped + 1;
      }
      offers, pc := offers + [Offer(e, |snaps| - 1, room)], pc.(queues := pc.queues[1..]);
      Did(OfferNext(room), before);
    }

    method CallBack(e: Entry)
      requires Valid() && pc.Deliver? && pc.queues == [] && pc.callbacks != [] && e == pc.callbacks[0]
      modifies this
      ensures Valid() && start == old(start) && old(acts) <= acts && snaps == old(snaps)
      ensures pc == old(pc).(callbacks := old(pc).callbacks[1..]) && callSnaps == old(callSnaps)
      ensures Runs.Tally(IsTurn<V>, acts) == old(Runs.Tally(IsTurn<V>, acts))
      ensures offers == old(offers) && calls == old(calls) + [(e, |snaps| - 1)]
      ensures dropped == old(dropped) && dispatched == old(dispatched)
    {
      hide Runs.Leads, Inv, Runs.Tally;
      Shape();
      ghost var before := View();
      calls, pc := calls + [(e, |snaps| - 1)], pc.(callbacks := pc.callbacks[1..]);
      Did(CallNext, before);
    }

    method Count()
      requires Valid() && pc.Deliver? && pc.queues == [] && pc.callbacks == []
      modifies this
      ensures Valid() && start == old(start) && old(acts) <= acts
      ensures pc == (if old(pc).last then Consume(true) else Test) && dispatched == old(dispatched) + 1
      ensures Runs.Tally(IsTurn<V>, acts) == old(Runs.Tally(IsTurn<V>, acts)) + 1
      ensures offers == old(offers) && calls == old(calls) && snaps == old(snaps) && dropped == old(dropped)
    {
      hide Inv, Runs.Leads, Runs.Tally;
      Shape();
      ghost var before := View();
      dispatched := dispatched + 1;
      pc := if pc.last then Consume(true) else Test;
      Did(Finish, before);
    }

    /** deliver: rooms(j) says whether the j-th subscriber's queue has room, sched(j) what the
        others - callbacks included - do before the j-th delivery.  Every entry of the copied
        queue list gets its offer and then every entry of the copied callback list its call,
        in list order. */
    method DeliverEnvelope(rooms: nat -> bool, sched: nat -> seq<Action<V>>)
      requires Valid() && pc.Lock?
      modifies this
      ensures Valid() && start == old(start) && old(acts) <= acts
      ensures pc == Deliver(old(pc).last, [], [])
      ensures |snaps| == |old(snaps)| + 1 && old(snaps) <= snaps
      ensures |callSnaps| == |old(callSnaps)| + 1 && old(callSnaps) <= callSnaps
      ensures offers == old(offers) + OffersOf(snaps[|old(snaps)|], |old(snaps)|, rooms)
      ensures calls == old(calls) + Pairs(callSnaps[|old(callSnaps)|], |old(snaps)|)
      ensures dispatched == old(dispatched)
      ensures Runs.Tally(IsTurn<V>, acts) == old(Runs.Tally(IsTurn<V>, acts))
    {
      hide *;
      var qcopy, ccopy := CopyLists();
      OfferAll(qcopy, rooms, sched);
      CallAll(ccopy, (j: nat) => sched(|qcopy| + j));
    }

    /** Every entry of the copied list gets its offer, in order. */
    method OfferAll(qcopy: seq<Entry>, rooms: nat -> bool, sched: nat -> seq<Action<V>>)
      requires Valid() && pc.Deliver? && pc.queues == qcopy && snaps != []
      modifies this
      ensures Valid() && start == old(start) && old(acts) <= acts && snaps == old(snaps) && callSnaps == old(callSnaps)
      ensures pc == old(pc).(queues := []) && dispatched == old(dispatched)
      ensures offers == old(offers) + OffersOf(qcopy, |snaps| - 1, rooms) && calls == old(calls)
      ensures Runs.Tally(IsTurn<V>, acts) == old(Runs.Tally(IsTurn<V>, acts))
    {
      hide *;
      var k := |snaps| - 1;
      for j := 0 to |qcopy|
        invariant Valid() && start == old(start) && old(acts) <= acts
        invariant snaps == old(snaps) && callSnaps == old(callSnaps)
        invariant pc == old(pc).(queues := qcopy[j..]) && dispatched == old(dispatched)
        invariant offers == old(offers) + OffersOf(qcopy[..j], k, rooms) && calls == old(calls)
        invariant Runs.Tally(IsTurn<V>, acts) == old(Runs.Tally(IsTurn<V>, acts))
      {
        Others(sched(j));
        OfferTo(qcopy[j], rooms(j));
        OffersOfNext(qcopy, k, rooms, j);
      }
      assert qcopy[..|qcopy|] == qcopy;
    }

    /** Every entry of the copied list is called, in order. */
    method CallAll(ccopy: seq<Entry>, sched: nat -> seq<Action<V>>)
      requires Valid() && pc.Deliver? && pc.queues == [] && pc.callbacks == ccopy && snaps != []
      modifies this
      ensures Valid() && start == old(start) && old(acts) <= acts && snaps == old(snaps) && callSnaps == old(callSnaps)
      ensures pc == old(pc).(callbacks := []) && dispatched == old(dispatched)
      ensures offers == old(offers) && calls == old(calls) + Pairs(ccopy, |snaps| - 1)
      ensures Runs.Tally(IsTurn<V>, acts) == old(Runs.Tally(IsTurn<V>, acts))
    {
      hide *;
      var k := |snaps| - 1;
      for j := 0 to |ccopy|
        invariant Valid() && start == old(start) && old(acts) <= acts
        invariant snaps == old(snaps) && callSnaps == old(callSnaps)
        invariant pc == old(pc).(callbacks := ccopy[j..]) && dispatched == old(dispatched)
        invariant offers == old(offers) && calls == old(calls) + Pairs(ccopy[..j], k)
        invariant Runs.Tally(IsTurn<V>, acts) == old(Runs.Tally(IsTurn<V>, acts))
      {
        Others(sched(j));
        CallBack(ccopy[j]);
        PairsNext(ccopy, k, j);
      }
      assert ccopy[..|ccopy|] == ccopy;
    }

    method TestRunningFlag()
      requires Valid() && pc.Test?
      modifies this
      ensures Valid() && start == old(start) && old(acts) <= acts && pc == Consume(!running) && running == old(running)
      ensures dispatched == old(dispatched) && Runs.Tally(IsTurn<V>, acts) == old(Runs.Tally(IsTurn<V>, acts))
    {
      hide Inv, Runs.Leads, Runs.Tally;
      Shape();
      ghost var before := View();
      pc := Consume(!running);
      Did(TestRunning, before);
    }

    /** dispatchLoop, its drain loop included, for at most `turns` turns of the two loops.
        rooms and sched are what each turn meets.  It has returned when done; otherwise it has
        made all its turns, each an envelope dispatched or an empty queue found.  Entered with
        running_ cleared and no publish half done, and nothing published meanwhile, it returns
        within two turns more than there are envelopes left, and has dispatched them all. */
    method DispatchLoop(turns: nat, rooms: (nat, nat) -> bool, sched: (nat, nat) -> seq<Action<V>>) returns (done: bool)
      requires Valid() && pc.Test?
      modifies this
      ensures Valid() && start == old(start) && old(acts) <= acts
      ensures done <==> pc.Exited?
      ensures Runs.Tally(IsTurn<V>, acts) <= old(Runs.Tally(IsTurn<V>, acts)) + turns
      ensures !done ==> Runs.Tally(IsTurn<V>, acts) == old(Runs.Tally(IsTurn<V>, acts)) + turns
      ensures !old(running) && (forall k :: 0 <= k < |old(queue).phase| ==> !old(queue).phase[k].Writing?)
              && queue.Tail() == old(queue).Tail() && turns >= old(queue).Tail() - old(queue).head + 2 ==>
        done && dispatched == |queue.vals|
    {
      hide Inv, Runs.Leads, Runs.Tally;
      done := Loops(turns, rooms, sched);
      if !old(running) && (forall k :: 0 <= k < |old(queue).phase| ==> !old(queue).phase[k].Writing?)
         && queue.Tail() == old(queue).Tail() {
        Ends(old(View()), old(acts));
      }
    }

    /** What a bus stopped in state s has done since. */
    lemma Ends(s: State<V>, before: seq<Action<V>>)
      requires Valid() && Inv(s) && !s.running && s.pc.Test? && queue.Tail() == s.q.Tail()
      requires forall k :: 0 <= k < |s.q.phase| ==> !s.q.phase[k].Writing?
      requires Runs.Leads(Next<V>, start, before, s) && before <= acts
      ensures pc.Exited? ==> dispatched == |queue.vals|
      ensures Runs.Tally(IsTurn<V>, acts) - Runs.Tally(IsTurn<V>, before) >= s.q.Tail() - s.q.head + 2 ==> pc.Exited?
    {
      var since, n := acts[|before|..], s.q.Tail();
      assert acts == before + since;
      hide Inv, OrderOk, Stopped, Left, Step, Enabled, Runs.Tally;
      OrderOf(s);
      QuietIsStopped(s);
      Runs.Rest(Next<V>, start, before, s, since, View());
      Runs.TallySplit(IsTurn<V>, before, since);
      StoppedAlong(s, since, View(), n);
      StoppedEnd(View(), n);
    }

    /** The two loops. */
    method Loops(turns: nat, rooms: (nat, nat) -> bool, sched: (nat, nat) -> seq<Action<V>>) returns (done: bool)
      requires Valid() && pc.Test?
      modifies this
      ensures Valid() && start == old(start) && old(acts) <= acts
      ensures done <==> pc.Exited?
      ensures Runs.Tally(IsTurn<V>, acts) <= old(Runs.Tally(IsTurn<V>, acts)) + turns
      ensures !done ==> Runs.Tally(IsTurn<V>, acts) == old(Runs.Tally(IsTurn<V>, acts)) + turns
    {
      hide *;
      var i := 0;
      while i < turns
        invariant Valid() && start == old(start) && old(acts) <= acts && i <= turns
        invariant pc.Test? || pc == Consume(true)
        invariant Runs.Tally(IsTurn<V>, acts) == old(Runs.Tally(IsTurn<V>, acts)) + i
      {
        if pc.Test? {
          Others(sched(i, 0));
          TestRunningFlag();
        }
        Others(sched(i, 1));
        var ok := ConsumeEnvelope();
        if ok {
          DeliverEnvelope((j: nat) => rooms(i, j), (j: nat) => sched(i, j + 2));
          Count();
        }
        i := i + 1;
        if pc.Exited? {
          return true;
        }
      }
      return false;
    }
  }

  /** The dispatch thread of a new bus among arbitrary publishers, subscribers and callbacks.
      The result is the end of a run, with all turns made unless the thread has returned; so
      what is proved of runs holds of it.  In particular, once stop is called with no publish
      half done and none to come, enough turns dispatch everything. */
  method RunDispatchThread<V(!new)>(capacity: nat, turns: nat, rooms: (nat, nat) -> bool,
                                    sched: (nat, nat) -> seq<Action<V>>)
    returns (done: bool, dropped: nat, dispatched: nat, last: State<V>,
             ghost ss: seq<State<V>>, ghost acts: seq<Action<V>>)
    requires capacity >= 2
    ensures Run(ss, acts) && ss[|acts|] == last && ss[0].q.cap == capacity
    ensures dropped == last.dropped && dispatched == last.dispatched && |last.snaps| <= |last.q.vals|
    ensures Acceptances(last.offers) + dropped + |Pending(last.pc)| == TotalSize(last.snaps)
    ensures forall id: nat ::
      DeliveredTo(Made(last.offers), id) + Awaits(Pending(last.pc), |last.snaps| - 1, id)
      == Covered(last.q.vals, last.spans, true, id, |last.snaps|)
    ensures done <==> last.pc.Exited?
    ensures !done ==> Runs.Tally(IsTurn<V>, acts) == turns
    ensures forall i :: 0 <= i < |acts| && acts[i].Stop? && last.q.Tail() == ss[i].q.Tail()
                        && (forall k :: 0 <= k < |ss[i].q.phase| ==> !ss[i].q.phase[k].Writing?)
                        && Runs.Tally(IsTurn<V>, acts[i + 1..]) >= ss[i].q.Tail() - ss[i].q.head + 2 ==>
              done && dispatched == |last.q.vals|
  {
    hide Inv, Step, Enabled, Runs.Leads, Runs.Tally;
    hide Made, Pending, TotalSize, Acceptances, DeliveredTo, Covered, Awaits;
    var b := new TopicBus<V>(capacity);
    ghost var first := b.View();
    NoTurns<V>();
    b.StartThread();
    done := b.DispatchLoop(turns, rooms, sched);
    dropped, dispatched, last, acts := b.dropped, b.dispatched, b.View(), b.acts;
    ss := Runs.Trace(Next<V>, b.start, acts, last);
    Accounting(ss, acts, |acts|);
    FanOut(ss, acts, |acts|, 0);
    forall id: nat
      ensures DeliveredTo(Made(last.offers), id) + Awaits(Pending(last.pc), |last.snaps| - 1, id)
              == Covered(last.q.vals, last.spans, true, id, |last.snaps|)
    {
      FanOut(ss, acts, |acts|, id);
    }
    forall i | 0 <= i < |acts| && acts[i].Stop? && last.q.Tail() == ss[i].q.Tail()
               && (forall k :: 0 <= k < |ss[i].q.phase| ==> !ss[i].q.phase[k].Writing?)
               && Runs.Tally(IsTurn<V>, acts[i + 1..]) >= ss[i].q.Tail() - ss[i].q.head + 2
      ensures done && dispatched == |last.q.vals|
    {
      assert acts[i + 1..] == acts[i + 1..|acts|];
      DrainOnStop(ss, acts, i, |acts|);
    }
  }
}
