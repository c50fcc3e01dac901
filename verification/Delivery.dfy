/** The bus and the queue of a subscriber together: an offer of the dispatch thread to one of
    the queue's subscriptions is a produce on that queue. */
module Delivery {
  import B = BlockingQueue
  import TB = TopicBus
  import Subscriptions
  import T = TicketQueue

  datatype World<V> = World(bus: TB.State<V>, sub: B.State<V>)

  datatype Act<V> =
    | OnBus(a: TB.Action<V>)  // all steps of the bus but the offers to this queue
    | OnQueue(b: B.Action<V>) // all steps of the queue but those that decide a produce
    | Offer(t: nat)           // a produce of thread t is decided: the offer is accepted or refused

  function Decision<V>(w: World<V>, t: nat): B.Action<V>
    requires |w.sub.q.phase| == |w.sub.q.vals|
  {
    if T.Refuses(w.sub.q) then B.Refuse(t) else B.Claim(t)
  }

  /** ids: the subscriptions, of any topics, that share the queue. */
  predicate Enabled<V(==)>(w: World<V>, ids: set<nat>, act: Act<V>) {
    match act
    case OnBus(a) => TB.Enabled(w.bus, a) && (a.OfferNext? ==> w.bus.pc.queues[0].id !in ids)
    case OnQueue(b) => B.Enabled(w.sub, b) && !b.Claim? && !b.Refuse?
    case Offer(t) =>
      && TB.Enabled(w.bus, TB.OfferNext(true)) && w.bus.pc.queues[0].id in ids
      && |w.sub.q.phase| == |w.sub.q.vals| && B.Enabled(w.sub, Decision(w, t))
      && 0 < |w.bus.snaps| <= |w.bus.q.vals| && w.sub.producers[t].v == w.bus.q.vals[|w.bus.snaps| - 1].msg
  }

  function Step<V(==)>(w: World<V>, ids: set<nat>, act: Act<V>): World<V>
    requires Enabled(w, ids, act)
  {
    match act
    case OnBus(a) => w.(bus := TB.Step(w.bus, a))
    case OnQueue(b) => w.(sub := B.Step(w.sub, b))
    case Offer(t) =>
      World(TB.Step(w.bus, TB.OfferNext(!T.Refuses(w.sub.q))), B.Step(w.sub, Decision(w, t)))
  }

  ghost predicate Next<V>(w: World<V>, ids: set<nat>, act: Act<V>, w': World<V>) {
    Enabled(w, ids, act) && w' == Step(w, ids, act)
  }

  ghost predicate Run<V(!new)>(ws: seq<World<V>>, ids: set<nat>, acts: seq<Act<V>>) {
    && |ws| == |acts| + 1 && TB.Init(ws[0].bus) && B.Init(ws[0].sub)
    && forall i :: 0 <= i < |acts| ==> Next(ws[i], ids, acts[i], ws[i + 1])
  }

  // ---------------------------------------------------------------- the queue's share of the offers

  /** The accepted offers to the queue, of all its subscriptions, in the order of the bus. */
  function Given(offers: seq<TB.Offer>, ids: set<nat>): seq<TB.Offer> {
    if offers == [] then []
    else Given(offers[..|offers| - 1], ids)
         + (if offers[|offers| - 1].entry.id in ids && offers[|offers| - 1].accepted
            then [offers[|offers| - 1]] else [])
  }

  lemma GivenNext(offers: seq<TB.Offer>, o: TB.Offer, ids: set<nat>)
    ensures Given(offers + [o], ids) == Given(offers, ids) + (if o.entry.id in ids && o.accepted then [o] else [])
  {
    assert (offers + [o])[..|offers|] == offers;
  }

  lemma TicketsNext(offers: seq<TB.Offer>, o: TB.Offer, id: nat)
    ensures TB.TicketsOf(offers + [o], id, true)
            == TB.TicketsOf(offers, id, true) + (if o.entry.id == id && o.accepted then [o.k] else [])
  {
    assert (offers + [o])[..|offers|] == offers;
  }

  /** Sharing changes nothing for one subscription: its tickets are those the bus says were
      accepted, in the same order.  So Given is a merge of the subscriptions' tickets. */
  lemma {:induction false} GivenIsMerge(offers: seq<TB.Offer>, ids: set<nat>, id: nat)
    requires id in ids
    ensures TB.TicketsOf(Given(offers, ids), id, true) == TB.TicketsOf(offers, id, true)
    ensures forall j :: 0 <= j < |Given(offers, ids)| ==>
      Given(offers, ids)[j].accepted && Given(offers, ids)[j].entry.id in ids
  {
    if offers != [] {
      hide TB.TicketsOf;
      var n := |offers| - 1;
      GivenIsMerge(offers[..n], ids, id);
      assert offers == offers[..n] + [offers[n]];
      TicketsNext(offers[..n], offers[n], id);
      if offers[n].entry.id in ids && offers[n].accepted {
        TicketsNext(Given(offers[..n], ids), offers[n], id);
      } else {
        assert Given(offers, ids) == Given(offers[..n], ids);
      }
    }
  }

  lemma {:induction false} GivenAccepted(offers: seq<TB.Offer>, ids: set<nat>)
    ensures forall j :: 0 <= j < |Given(offers, ids)| ==>
      Given(offers, ids)[j].accepted && Given(offers, ids)[j].entry.id in ids
  {
    if offers != [] {
      GivenAccepted(offers[..|offers| - 1], ids);
    }
  }

  lemma {:induction false} InTickets(offers: seq<TB.Offer>, j: nat)
    requires j < |offers| && offers[j].accepted
    ensures offers[j].k in TB.TicketsOf(offers, offers[j].entry.id, true)
  {
    var n := |offers| - 1;
    if j < n {
      assert offers[..n][j] == offers[j];
      InTickets(offers[..n], j);
    }
  }

  lemma {:induction false} TicketsPrefix(offers: seq<TB.Offer>, n: nat, id: nat)
    requires n <= |offers|
    ensures TB.TicketsOf(offers[..n], id, true) <= TB.TicketsOf(offers, id, true)
    decreases |offers|
  {
    if n < |offers| {
      var m := |offers| - 1;
      TicketsPrefix(offers[..m], n, id);
      assert offers[..m][..n] == offers[..n];
    } else {
      assert offers[..n] == offers;
    }
  }

  ghost predicate InBusOrder(offers: seq<TB.Offer>) {
    forall i, j :: 0 <= i < j < |offers| ==> offers[i].k <= offers[j].k
  }

  ghost predicate TicketsUpTo(ps: seq<(Subscriptions.Entry, nat)>, n: nat) {
    && (forall j :: 0 <= j < |ps| ==> ps[j].1 < n)
    && (forall i, j :: 0 <= i < j < |ps| ==> ps[i].1 <= ps[j].1)
  }

  lemma MoreTickets(before: seq<(Subscriptions.Entry, nat)>, es: seq<Subscriptions.Entry>, n: nat)
    requires TicketsUpTo(before, n)
    ensures TicketsUpTo(before + TB.Pairs(es, n), n + 1)
  {
    var ps := TB.Pairs(es, n);
    assert forall j :: 0 <= j < |es| ==> ps[j] == (es[j], n);
  }

  lemma {:induction false} OwedAscends(snaps: seq<seq<Subscriptions.Entry>>)
    ensures TicketsUpTo(TB.Owed(snaps), |snaps|)
  {
    if snaps != [] {
      var n := |snaps| - 1;
      OwedAscends(snaps[..n]);
      MoreTickets(TB.Owed(snaps[..n]), snaps[n], n);
    }
  }

  lemma MadeIsOwed<V>(s: TB.State<V>)
    requires TB.Inv(s)
    ensures TB.Made(s.offers) <= TB.Owed(s.snaps)
  {
    hide TB.Made, TB.Owed, TB.Pairs;
  }

  lemma OffersInBusOrder<V>(s: TB.State<V>)
    requires TB.Inv(s)
    ensures InBusOrder(s.offers)
  {
    OwedAscends(s.snaps);
    var made, owed := TB.Made(s.offers), TB.Owed(s.snaps);
    MadeIsOwed(s);
    forall i, j | 0 <= i < j < |s.offers|
      ensures s.offers[i].k <= s.offers[j].k
    {
      assert made[i] == owed[i] && made[j] == owed[j];
    }
  }

  lemma {:induction false} GivenInBusOrder(offers: seq<TB.Offer>, ids: set<nat>)
    requires InBusOrder(offers)
    ensures InBusOrder(Given(offers, ids))
    ensures offers != [] ==> forall j :: 0 <= j < |Given(offers, ids)| ==>
      Given(offers, ids)[j].k <= offers[|offers| - 1].k
  {
    if offers != [] {
      GivenInBusOrder(offers[..|offers| - 1], ids);
    }
  }

  // ---------------------------------------------------------------- the link

  /** The messages of these offers. */
  function Messages<V>(vals: seq<TB.Envelope<V>>, os: seq<TB.Offer>): (ms: seq<V>)
    requires forall i :: 0 <= i < |os| ==> os[i].k < |vals|
    ensures |ms| == |os|
  {
    seq(|os|, i requires 0 <= i < |os| => vals[os[i].k].msg)
  }

  /** The queue holds what the bus believes it has accepted. */
  ghost predicate Linked<V>(w: World<V>, ids: set<nat>) {
    var given := Given(w.bus.offers, ids);
    && (forall i :: 0 <= i < |given| ==> given[i].k < |w.bus.q.vals|)
    && w.sub.q.vals == Messages(w.bus.q.vals, given)
  }

  lemma MoreValues<V>(vals: seq<TB.Envelope<V>>, vals': seq<TB.Envelope<V>>, os: seq<TB.Offer>)
    requires (forall i :: 0 <= i < |os| ==> os[i].k < |vals|) && vals <= vals'
    ensures Messages(vals', os) == Messages(vals, os)
  {
    forall i | 0 <= i < |os|
      ensures vals'[os[i].k] == vals[os[i].k]
    {
    }
  }

  lemma OneMore<V>(vals: seq<TB.Envelope<V>>, os: seq<TB.Offer>, o: TB.Offer)
    requires (forall i :: 0 <= i < |os| ==> os[i].k < |vals|) && o.k < |vals|
    ensures Messages(vals, os + [o]) == Messages(vals, os) + [vals[o.k].msg]
  {
  }

  /** Which offers a bus step makes. */
  lemma BusOffers<V>(s: TB.State<V>, a: TB.Action<V>)
    requires TB.Enabled(s, a)
    ensures var s' := TB.Step(s, a);
      s'.offers == if a.OfferNext? then s.offers + [TB.Offer(s.pc.queues[0], |s.snaps| - 1, a.room)] else s.offers
  {
    hide T.Step, T.Refuses;
  }

  /** Which values a queue step adds. */
  lemma QueueValues<V>(s: B.State<V>, b: B.Action<V>)
    requires B.Enabled(s, b)
    ensures B.Step(s, b).q.vals == if b.Claim? then s.q.vals + [s.producers[b.t].v] else s.q.vals
  {
    hide T.Refuses;
  }

  lemma BusKeepsLink<V>(w: World<V>, ids: set<nat>, a: TB.Action<V>)
    requires Linked(w, ids) && Enabled(w, ids, OnBus(a))
    ensures Linked(Step(w, ids, OnBus(a)), ids)
  {
    hide TB.Step, Given;
    TB.TailGrows(w.bus, a);
    BusOffers(w.bus, a);
    MoreValues(w.bus.q.vals, TB.Step(w.bus, a).q.vals, Given(w.bus.offers, ids));
    if a.OfferNext? {
      GivenNext(w.bus.offers, TB.Offer(w.bus.pc.queues[0], |w.bus.snaps| - 1, a.room), ids);
    }
  }

  lemma OfferKeepsLink<V>(w: World<V>, ids: set<nat>, t: nat)
    requires Linked(w, ids) && Enabled(w, ids, Offer(t))
    ensures Linked(Step(w, ids, Offer(t)), ids)
  {
    hide TB.Step, B.Step, Given, T.Refuses, Messages;
    var w', given := Step(w, ids, Offer(t)), Given(w.bus.offers, ids);
    var a := TB.OfferNext(!T.Refuses(w.sub.q));
    var o := TB.Offer(w.bus.pc.queues[0], |w.bus.snaps| - 1, a.room);
    TB.TailGrows(w.bus, a);
    BusOffers(w.bus, a);
    QueueValues(w.sub, Decision(w, t));
    MoreValues(w.bus.q.vals, w'.bus.q.vals, given);
    GivenNext(w.bus.offers, o, ids);
    if a.room {
      var now := Given(w'.bus.offers, ids);
      assert now == given + [o];
      assert w'.bus.q.vals[o.k] == w.bus.q.vals[o.k];
      OneMore(w'.bus.q.vals, given, o);
    } else {
      assert given + [] == given;
    }
  }

  lemma LinkKeeps<V>(w: World<V>, ids: set<nat>, act: Act<V>)
    requires Linked(w, ids) && Enabled(w, ids, act)
    ensures Linked(Step(w, ids, act), ids)
  {
    match act
    case OnBus(a) => BusKeepsLink(w, ids, a);
    case OnQueue(b) =>
      hide B.Step;
      QueueValues(w.sub, b);
    case Offer(t) => OfferKeepsLink(w, ids, t);
  }

  lemma InvKeeps<V>(w: World<V>, ids: set<nat>, act: Act<V>)
    requires TB.Inv(w.bus) && B.Inv(w.sub) && Enabled(w, ids, act)
    ensures TB.Inv(Step(w, ids, act).bus) && B.Inv(Step(w, ids, act).sub)
  {
    hide TB.Inv, B.Inv, TB.Step, B.Step, T.Refuses;
    match act
    case OnBus(a) => TB.StepKeeps(w.bus, a);
    case OnQueue(b) => B.InvKeeps(w.sub, b);
    case Offer(t) =>
      TB.StepKeeps(w.bus, TB.OfferNext(!T.Refuses(w.sub.q)));
      B.InvKeeps(w.sub, Decision(w, t));
  }

  lemma InitLinked<V>(w: World<V>, ids: set<nat>)
    requires TB.Init(w.bus) && B.Init(w.sub)
    ensures Linked(w, ids) && B.Inv(w.sub)
  {
  }

  lemma {:induction false} At<V(!new)>(ws: seq<World<V>>, ids: set<nat>, acts: seq<Act<V>>, i: nat)
    requires Run(ws, ids, acts) && i < |ws|
    ensures TB.Inv(ws[i].bus) && B.Inv(ws[i].sub) && Linked(ws[i], ids)
  {
    hide TB.Inv, B.Inv, Linked, Enabled, Step, TB.Init, B.Init;
    if i == 0 {
      TB.InitInv(ws[0].bus);
      InitLinked(ws[0], ids);
    } else {
      At(ws, ids, acts, i - 1);
      assert Next(ws[i - 1], ids, acts[i - 1], ws[i]);
      InvKeeps(ws[i - 1], ids, acts[i - 1]);
      LinkKeeps(ws[i - 1], ids, acts[i - 1]);
    }
  }

  /** What was read, as offers: those of each subscription are the first of its accepted
      tickets, ascending, each an envelope of its topic within its lifetime. */
  lemma ReadOf<V>(w: World<V>, ids: set<nat>, n: nat, id: nat)
    requires TB.Inv(w.bus) && n <= |Given(w.bus.offers, ids)| && id in ids
    ensures var read := TB.TicketsOf(Given(w.bus.offers, ids)[..n], id, true);
      && read <= TB.TicketsOf(w.bus.offers, id, true) && TB.Ascending(read)
      && (forall k :: k in read ==>
            k < |w.bus.q.vals| && TB.Covers(w.bus.spans, true, id, w.bus.q.vals[k].topic, k))
  {
    hide TB.Inv, TB.Covers, TB.TicketsOf, Given;
    var all := TB.TicketsOf(w.bus.offers, id, true);
    GivenIsMerge(w.bus.offers, ids, id);
    TicketsPrefix(Given(w.bus.offers, ids), n, id);
    TB.GivenAt(w.bus, id);
    var read := TB.TicketsOf(Given(w.bus.offers, ids)[..n], id, true);
    assert forall j :: 0 <= j < |read| ==> read[j] == all[j] && read[j] in all;
  }

  /** What a queue of any number of subscriptions hands out, told apart by subscription: the
      first of its accepted tickets, each once and ascending, of envelopes of its topic
      dispatched between its beginning and its end. */
  lemma EachInOrder<V(!new)>(ws: seq<World<V>>, ids: set<nat>, acts: seq<Act<V>>, i: nat, read: seq<TB.Offer>, id: nat)
    requires Run(ws, ids, acts) && i < |ws| && read <= Given(ws[i].bus.offers, ids) && id in ids
    ensures TB.TicketsOf(read, id, true) <= TB.TicketsOf(ws[i].bus.offers, id, true)
    ensures TB.Ascending(TB.TicketsOf(read, id, true))
    ensures forall k :: k in TB.TicketsOf(read, id, true) ==>
      k < |ws[i].bus.q.vals| && TB.Covers(ws[i].bus.spans, true, id, ws[i].bus.q.vals[k].topic, k)
  {
    hide TB.Inv, B.Inv, TB.Covers, TB.TicketsOf, TB.Ascending, Given, Linked;
    At(ws, ids, acts, i);
    assert read == Given(ws[i].bus.offers, ids)[..|read|];
    ReadOf(ws[i], ids, |read|, id);
  }

  /** From publish to reader, through a queue that any number of subscriptions share: what has
      been read are, in bus order, the messages of the first accepted offers to them, and of
      all of them once the queue is empty.  EachInOrder says what that is for each. */
  lemma ReadsInOrder<V(!new)>(ws: seq<World<V>>, ids: set<nat>, acts: seq<Act<V>>, i: nat)
    returns (read: seq<TB.Offer>)
    requires Run(ws, ids, acts) && i < |ws|
    ensures read <= Given(ws[i].bus.offers, ids) && InBusOrder(read)
    ensures forall j :: 0 <= j < |read| ==>
      read[j].accepted && read[j].entry.id in ids && read[j].k < |ws[i].bus.q.vals|
    ensures ws[i].sub.got == Messages(ws[i].bus.q.vals, read)
    ensures !ws[i].sub.consumer.CTaken? && ws[i].sub.q.head == ws[i].sub.q.Tail() ==>
      read == Given(ws[i].bus.offers, ids)
  {
    hide TB.Inv, B.Inv, Given;
    At(ws, ids, acts, i);
    var w := ws[i];
    var given := Given(w.bus.offers, ids);
    B.HasPhases(w.sub);
    read := given[..|w.sub.got|];
    assert w.sub.got == Messages(w.bus.q.vals, given)[..|w.sub.got|];
    GivenAccepted(w.bus.offers, ids);
    OffersInBusOrder(w.bus);
    GivenInBusOrder(w.bus.offers, ids);
  }
}
