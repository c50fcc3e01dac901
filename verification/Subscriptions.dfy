/** The subscriber lists of the topic bus and the move-only handles that own their entries. */
module Subscriptions {
  datatype Topic = Telemetry | Alarm

  /** A subscriber: its id and what it is delivered to (a queue or a callback, by name). */
  datatype Entry = Entry(id: nat, target: nat)

  type Lists = map<Topic, seq<Entry>>

  datatype Registry = Registry(queues: Lists, callbacks: Lists, nextId: nat)

  function Entries(m: Lists, t: Topic): seq<Entry> {
    if t in m then m[t] else []
  }

  function Without(s: seq<Entry>, id: nat): seq<Entry> {
    if s == [] then []
    else (if s[0].id == id then [] else [s[0]]) + Without(s[1..], id)
  }

  function Count(s: seq<Entry>, id: nat): nat {
    if s == [] then 0 else (if s[0].id == id then 1 else 0) + Count(s[1..], id)
  }

  /** How often an id occurs anywhere in the registry. */
  function Occurs(r: Registry, id: nat): nat {
    Count(Entries(r.queues, Telemetry), id) + Count(Entries(r.queues, Alarm), id)
    + Count(Entries(r.callbacks, Telemetry), id) + Count(Entries(r.callbacks, Alarm), id)
  }

  /** Every id occurs at most once and has been issued. */
  ghost predicate Unique(r: Registry) {
    r.nextId >= 1 && forall id: nat :: Occurs(r, id) <= (if 1 <= id < r.nextId then 1 else 0)
  }

  function AddQueue(r: Registry, t: Topic, target: nat): Registry {
    r.(queues := r.queues[t := Entries(r.queues, t) + [Entry(r.nextId, target)]], nextId := r.nextId + 1)
  }

  function AddCallback(r: Registry, t: Topic, target: nat): Registry {
    r.(callbacks := r.callbacks[t := Entries(r.callbacks, t) + [Entry(r.nextId, target)]], nextId := r.nextId + 1)
  }

  /** The registry without id: the other entries and their order unchanged. */
  function Removed(r: Registry, id: nat): Registry {
    r.(queues := map t | t in r.queues :: Without(r.queues[t], id),
       callbacks := map t | t in r.callbacks :: Without(r.callbacks[t], id))
  }

  // ---------------------------------------------------------------- lists

  lemma {:induction false} CountAppend(s: seq<Entry>, e: Entry, id: nat)
    ensures Count(s + [e], id) == Count(s, id) + (if e.id == id then 1 else 0)
  {
    if s == [] {
      assert s + [e] == [e];
    } else {
      assert (s + [e])[1..] == s[1..] + [e];
      CountAppend(s[1..], e, id);
    }
  }

  lemma {:induction false} CountWithout(s: seq<Entry>, id: nat, j: nat)
    ensures Count(Without(s, id), j) == if j == id then 0 else Count(s, j)
  {
    if s != [] {
      CountWithout(s[1..], id, j);
      if s[0].id == id {
        assert [] + Without(s[1..], id) == Without(s[1..], id);
      } else {
        assert Without(s, id)[1..] == Without(s[1..], id);
      }
    }
  }

  lemma {:induction false} WithoutAbsent(s: seq<Entry>, id: nat)
    requires Count(s, id) == 0
    ensures Without(s, id) == s
  {
    if s != [] {
      WithoutAbsent(s[1..], id);
    }
  }

  /** Erasing the one entry with this id is what Without describes. */
  lemma {:induction false} WithoutAt(s: seq<Entry>, i: nat)
    requires i < |s| && Count(s, s[i].id) <= 1
    ensures Without(s, s[i].id) == s[..i] + s[i + 1..] && Count(s, s[i].id) == 1
  {
    if i == 0 {
      WithoutAbsent(s[1..], s[0].id);
    } else {
      WithoutAt(s[1..], i - 1);
      assert s[1..][i - 1] == s[i];
      assert s[..i] + s[i + 1..] == [s[0]] + (s[1..][..i - 1] + s[1..][i..]);
    }
  }

  lemma {:induction false} CountZero(s: seq<Entry>, id: nat)
    requires forall i :: 0 <= i < |s| ==> s[i].id != id
    ensures Count(s, id) == 0
  {
    if s != [] {
      CountZero(s[1..], id);
    }
  }

  lemma {:induction false} CountAt(s: seq<Entry>, i: nat)
    requires i < |s|
    ensures Count(s, s[i].id) >= 1
  {
    if i > 0 {
      CountAt(s[1..], i - 1);
    }
  }

  /** s' is s less the entries with this id: what is left of s stands in s' in the same order. */
  ghost predicate Lacks(s: seq<Entry>, id: nat, s': seq<Entry>) {
    if s == [] then s' == []
    else if s[|s| - 1].id == id then Lacks(s[..|s| - 1], id, s')
    else s' != [] && s'[|s'| - 1] == s[|s| - 1] && Lacks(s[..|s| - 1], id, s'[..|s'| - 1])
  }

  lemma {:induction false} WithoutAppend(s: seq<Entry>, e: Entry, id: nat)
    ensures Without(s + [e], id) == Without(s, id) + (if e.id == id then [] else [e])
  {
    if s == [] {
      assert s + [e] == [e];
    } else {
      assert (s + [e])[1..] == s[1..] + [e];
      WithoutAppend(s[1..], e, id);
    }
  }

  lemma {:induction false} WithoutLacks(s: seq<Entry>, id: nat)
    ensures Lacks(s, id, Without(s, id))
  {
    if s != [] {
      var n := |s| - 1;
      assert s == s[..n] + [s[n]];
      WithoutAppend(s[..n], s[n], id);
      WithoutLacks(s[..n], id);
      assert Without(s[..n], id) + [] == Without(s[..n], id);
      assert s[n].id != id ==> Without(s, id)[..|Without(s, id)| - 1] == Without(s[..n], id);
    }
  }

  // ---------------------------------------------------------------- the registry operations

  lemma OccursAfterAdd(r: Registry, t: Topic, target: nat, id: nat)
    ensures Occurs(AddQueue(r, t, target), id) == Occurs(r, id) + (if id == r.nextId then 1 else 0)
    ensures Occurs(AddCallback(r, t, target), id) == Occurs(r, id) + (if id == r.nextId then 1 else 0)
  {
    CountAppend(Entries(r.queues, t), Entry(r.nextId, target), id);
    CountAppend(Entries(r.callbacks, t), Entry(r.nextId, target), id);
  }

  lemma OccursAfterRemove(r: Registry, id: nat, j: nat)
    ensures Occurs(Removed(r, id), j) == if j == id then 0 else Occurs(r, j)
  {
    CountWithout(Entries(r.queues, Telemetry), id, j);
    CountWithout(Entries(r.queues, Alarm), id, j);
    CountWithout(Entries(r.callbacks, Telemetry), id, j);
    CountWithout(Entries(r.callbacks, Alarm), id, j);
  }

  lemma AddKeepsUnique(r: Registry, t: Topic, target: nat)
    requires Unique(r)
    ensures Unique(AddQueue(r, t, target)) && Unique(AddCallback(r, t, target))
  {
    forall id: nat
      ensures Occurs(AddQueue(r, t, target), id) == Occurs(r, id) + (if id == r.nextId then 1 else 0)
      ensures Occurs(AddCallback(r, t, target), id) == Occurs(r, id) + (if id == r.nextId then 1 else 0)
    {
      OccursAfterAdd(r, t, target, id);
    }
  }

  lemma RemoveKeepsUnique(r: Registry, id: nat)
    requires Unique(r)
    ensures Unique(Removed(r, id))
  {
    forall j: nat
      ensures Occurs(Removed(r, id), j) == if j == id then 0 else Occurs(r, j)
    {
      OccursAfterRemove(r, id, j);
    }
  }

  /** Total occurrences in one of the two maps. */
  function InLists(m: Lists, id: nat): nat {
    Count(Entries(m, Telemetry), id) + Count(Entries(m, Alarm), id)
  }

  function AllWithout(m: Lists, id: nat): Lists {
    map t | t in m :: Without(m[t], id)
  }

  lemma AllWithoutAbsent(m: Lists, id: nat)
    requires InLists(m, id) == 0
    ensures AllWithout(m, id) == m
  {
    forall t | t in m
      ensures Without(m[t], id) == m[t]
    {
      assert t == Telemetry || t == Alarm;
      WithoutAbsent(m[t], id);
    }
  }

  lemma RestAbsent(r: Registry, id: nat)
    requires Unique(r) && InLists(r.queues, id) >= 1
    ensures AllWithout(r.callbacks, id) == r.callbacks
  {
    assert Occurs(r, id) == InLists(r.queues, id) + InLists(r.callbacks, id);
    AllWithoutAbsent(r.callbacks, id);
  }

  lemma EraseOne(m: Lists, t: Topic, i: nat)
    requires t in m && i < |m[t]| && InLists(m, m[t][i].id) <= 1
    ensures m[t := m[t][..i] + m[t][i + 1..]] == AllWithout(m, m[t][i].id)
    ensures InLists(m, m[t][i].id) == 1
  {
    var id := m[t][i].id;
    assert m[t] == Entries(m, t);
    CountAt(m[t], i);
    WithoutAt(m[t], i);
    forall u | u in m && u != t
      ensures Without(m[u], id) == m[u]
    {
      assert {t, u} == {Telemetry, Alarm} by { assert t in {Telemetry, Alarm} && u in {Telemetry, Alarm}; }
      WithoutAbsent(m[u], id);
    }
  }

  /** The nested loop over topics and entries that unsubscribe runs on each of its two maps. */
  method EraseFirst(m: Lists, id: nat) returns (found: bool, m': Lists)
    requires InLists(m, id) <= 1
    ensures m' == AllWithout(m, id)
    ensures found <==> InLists(m, id) == 1
  {
    var todo := m.Keys;
    while todo != {}
      invariant todo <= m.Keys
      invariant forall t :: t in m && t !in todo ==> Count(m[t], id) == 0
      decreases |todo|
    {
      var t :| t in todo;
      var v := m[t];
      var i := 0;
      while i < |v|
        invariant 0 <= i <= |v|
        invariant forall j :: 0 <= j < i ==> v[j].id != id
      {
        if v[i].id == id {
          EraseOne(m, t, i);
          return true, m[t := v[..i] + v[i + 1..]];
        }
        i := i + 1;
      }
      CountZero(v, id);
      todo := todo - {t};
    }
    assert forall t :: t in m ==> Count(m[t], id) == 0;
    AllWithoutAbsent(m, id);
    return false, m;
  }

  // ---------------------------------------------------------------- the classes

  /** The part of the bus that subscribe and unsubscribe work on: queues_, callbacks_, next_id_.
      TopicBus.TopicBus carries the same lists as its Registry. */
  class SubscriberLists {
    var queues: Lists
    var callbacks: Lists
    var nextId: nat

    function Reg(): Registry
      reads this
    {
      Registry(queues, callbacks, nextId)
    }

    constructor ()
      ensures Reg() == Registry(map[], map[], 1) && Unique(Reg())
    {
      queues, callbacks, nextId := map[], map[], 1;
    }

    method SubscribeQueue(t: Topic, queue: nat) returns (h: SubscriptionHandle)
      requires Unique(Reg())
      modifies this
      ensures Entries(queues, t) == old(Entries(queues, t)) + [Entry(old(nextId), queue)]
      ensures forall u :: u != t ==> Entries(queues, u) == old(Entries(queues, u))
      ensures callbacks == old(callbacks) && nextId == old(nextId) + 1
      ensures Reg() == AddQueue(old(Reg()), t, queue) && Unique(Reg())
      ensures fresh(h) && h.bus == this && h.id == old(nextId) && Occurs(Reg(), h.id) == 1
    {
      AddKeepsUnique(Reg(), t, queue);
      OccursAfterAdd(Reg(), t, queue, nextId);
      var id := nextId;
      queues := queues[t := Entries(queues, t) + [Entry(id, queue)]];
      nextId := nextId + 1;
      h := new SubscriptionHandle.Owning(this, id);
    }

    method SubscribeCallback(t: Topic, callback: nat) returns (h: SubscriptionHandle)
      requires Unique(Reg())
      modifies this
      ensures Entries(callbacks, t) == old(Entries(callbacks, t)) + [Entry(old(nextId), callback)]
      ensures forall u :: u != t ==> Entries(callbacks, u) == old(Entries(callbacks, u))
      ensures queues == old(queues) && nextId == old(nextId) + 1
      ensures Reg() == AddCallback(old(Reg()), t, callback) && Unique(Reg())
      ensures fresh(h) && h.bus == this && h.id == old(nextId) && Occurs(Reg(), h.id) == 1
    {
      AddKeepsUnique(Reg(), t, callback);
      OccursAfterAdd(Reg(), t, callback, nextId);
      var id := nextId;
      callbacks := callbacks[t := Entries(callbacks, t) + [Entry(id, callback)]];
      nextId := nextId + 1;
      h := new SubscriptionHandle.Owning(this, id);
    }

    /** Erases the first entry found with this id; the topics come in no particular order. */
    method Unsubscribe(id: nat)
      requires Unique(Reg())
      modifies this
      ensures Reg() == Removed(old(Reg()), id) && Unique(Reg())
      ensures nextId == old(nextId) && forall u :: Lacks(old(Entries(queues, u)), id, Entries(queues, u))
      ensures forall u :: Lacks(old(Entries(callbacks, u)), id, Entries(callbacks, u))
    {
      forall u
        ensures Lacks(Entries(queues, u), id, Without(Entries(queues, u), id))
        ensures Lacks(Entries(callbacks, u), id, Without(Entries(callbacks, u), id))
      {
        WithoutLacks(Entries(queues, u), id);
        WithoutLacks(Entries(callbacks, u), id);
      }
      RemoveKeepsUnique(Reg(), id);
      assert Occurs(Reg(), id) == InLists(queues, id) + InLists(callbacks, id) <= 1;
      var found: bool;
      found, queues := EraseFirst(queues, id);
      if found {
        RestAbsent(old(Reg()), id);
        return;
      }
      found, callbacks := EraseFirst(callbacks, id);
    }
  }

  class SubscriptionHandle {
    var bus: SubscriberLists?
    var id: nat

    constructor ()
      ensures bus == null && id == 0
    {
      bus, id := null, 0;
    }

    constructor Owning(bus: SubscriberLists, id: nat)
      ensures this.bus == bus && this.id == id
    {
      this.bus, this.id := bus, id;
    }

    /** Move construction: the source gives its subscription up. */
    constructor Moved(o: SubscriptionHandle)
      modifies o
      ensures bus == old(o.bus) && id == old(o.id)
      ensures o.bus == null && o.id == 0
    {
      bus, id := o.bus, o.id;
      new;
      o.bus, o.id := null, 0;
    }

    method Reset()
      requires bus != null ==> Unique(bus.Reg())
      modifies this, bus
      ensures old(bus) == null ==> bus == null && id == old(id)
      ensures old(bus) != null ==> bus == null && id == 0
      ensures old(bus) != null ==> old(bus).Reg() == Removed(old(bus.Reg()), old(id)) && Unique(old(bus).Reg())
    {
      if bus != null {
        bus.Unsubscribe(id);
        bus, id := null, 0;
      }
    }

    /** Move assignment: the old subscription of this handle ends, the source's moves over. */
    method Assign(o: SubscriptionHandle)
      requires bus != null ==> Unique(bus.Reg())
      modifies this, o, bus
      ensures o == this ==> bus == old(bus) && id == old(id) && (bus != null ==> bus.Reg() == old(bus.Reg()))
      ensures o != this ==> bus == old(o.bus) && id == old(o.id) && o.bus == null && o.id == 0
      ensures o != this && old(bus) != null ==>
        old(bus).Reg() == Removed(old(bus.Reg()), old(id)) && Unique(old(bus).Reg())
    {
      if this != o {
        Reset();
        bus, id := o.bus, o.id;
        o.bus, o.id := null, 0;
      }
    }
  }
}
