/** Who owns which subscription, over every run of subscribing, moving, resetting and
    destroying handles and of direct unsubscription. */
module Ownership {
  import opened Subscriptions

  /** All handles of one bus: own maps each handle that is not null to the id it holds. */
  datatype World = World(reg: Registry, own: map<nat, nat>)

  datatype Act =
    | SubscribeQ(h: nat, t: Topic, target: nat)   // into a handle that is null
    | SubscribeC(h: nat, t: Topic, target: nat)
    | MoveInto(o: nat, h: nat)                    // move construction of a new handle h from o
    | MoveAssign(o: nat, h: nat)
    | Drop(h: nat)                                // reset or destruction
    | Unsubscribe(id: nat)                        // the bus method, called directly

  predicate Enabled(w: World, a: Act) {
    match a
    case SubscribeQ(h, _, _) => h !in w.own
    case SubscribeC(h, _, _) => h !in w.own
    case MoveInto(o, h) => h !in w.own && o != h
    case _ => true
  }

  function Reset(w: World, h: nat): World {
    if h in w.own then World(Removed(w.reg, w.own[h]), w.own - {h}) else w
  }

  function Move(w: World, o: nat, h: nat): World {
    if o in w.own then w.(own := (w.own - {o})[h := w.own[o]]) else w.(own := w.own - {h})
  }

  function Step(w: World, a: Act): World
    requires Enabled(w, a)
  {
    match a
    case SubscribeQ(h, t, target) => World(AddQueue(w.reg, t, target), w.own[h := w.reg.nextId])
    case SubscribeC(h, t, target) => World(AddCallback(w.reg, t, target), w.own[h := w.reg.nextId])
    case MoveInto(o, h) => Move(w, o, h)
    case MoveAssign(o, h) => if o == h then w else Move(Reset(w, h), o, h)
    case Drop(h) => Reset(w, h)
    case Unsubscribe(id) => w.(reg := Removed(w.reg, id))
  }

  ghost predicate Init(w: World) {
    w == World(Registry(map[], map[], 1), map[])
  }

  ghost predicate Next(w: World, a: Act, w': World) {
    Enabled(w, a) && w' == Step(w, a)
  }

  ghost predicate Run(ws: seq<World>, acts: seq<Act>) {
    && |ws| == |acts| + 1 && Init(ws[0])
    && forall i :: 0 <= i < |acts| ==> Next(ws[i], acts[i], ws[i + 1])
  }

  ghost predicate Owned(w: World) {
    && Unique(w.reg)
    && (forall h :: h in w.own ==> 1 <= w.own[h] < w.reg.nextId)
    && (forall h, g :: h in w.own && g in w.own && w.own[h] == w.own[g] ==> h == g)
  }

  /** Live entries and owning handles correspond one to one. */
  ghost predicate Paired(w: World) {
    && (forall h :: h in w.own ==> Occurs(w.reg, w.own[h]) == 1)
    && (forall id: nat :: Occurs(w.reg, id) >= 1 ==> exists h :: h in w.own && w.own[h] == id)
  }

  lemma SubscribeOccurs(w: World, a: Act)
    requires Enabled(w, a) && (a.SubscribeQ? || a.SubscribeC?)
    ensures forall id: nat ::
      Occurs(Step(w, a).reg, id) == Occurs(w.reg, id) + (if id == w.reg.nextId then 1 else 0)
  {
    forall id: nat
      ensures Occurs(Step(w, a).reg, id) == Occurs(w.reg, id) + (if id == w.reg.nextId then 1 else 0)
    {
      OccursAfterAdd(w.reg, a.t, a.target, id);
    }
  }

  lemma SubscribePairs(w: World, a: Act)
    requires Owned(w) && Paired(w) && Enabled(w, a) && (a.SubscribeQ? || a.SubscribeC?)
    ensures Paired(Step(w, a))
  {
    hide Occurs;
    var w' := Step(w, a);
    SubscribeOccurs(w, a);
    assert forall h :: h in w'.own ==> w'.own[h] == if h == a.h then w.reg.nextId else w.own[h];
    forall id: nat | Occurs(w'.reg, id) >= 1
      ensures exists h :: h in w'.own && w'.own[h] == id
    {
      if id == w.reg.nextId {
        assert w'.own[a.h] == id;
      } else {
        var h :| h in w.own && w.own[h] == id;
        assert w'.own[h] == id;
      }
    }
  }

  lemma SubscribeKeeps(w: World, a: Act)
    requires Owned(w) && Enabled(w, a) && (a.SubscribeQ? || a.SubscribeC?)
    ensures Owned(Step(w, a)) && (Paired(w) ==> Paired(Step(w, a)))
  {
    hide Occurs;
    AddKeepsUnique(w.reg, a.t, a.target);
    if Paired(w) {
      SubscribePairs(w, a);
    }
  }

  lemma MoveKeeps(w: World, o: nat, h: nat)
    requires Owned(w) && h !in w.own && o != h
    ensures Owned(Move(w, o, h)) && (Paired(w) ==> Paired(Move(w, o, h)))
  {
    var w' := Move(w, o, h);
    if Paired(w) {
      forall id: nat | Occurs(w'.reg, id) >= 1
        ensures exists g :: g in w'.own && w'.own[g] == id
      {
        var g :| g in w.own && w.own[g] == id;
        var g' := if g == o then h else g;
        assert g' in w'.own && w'.own[g'] == id;
      }
    }
  }

  lemma ResetKeeps(w: World, h: nat)
    requires Owned(w)
    ensures Owned(Reset(w, h)) && h !in Reset(w, h).own && (Paired(w) ==> Paired(Reset(w, h)))
  {
    if h in w.own {
      var w' := Reset(w, h);
      RemoveKeepsUnique(w.reg, w.own[h]);
      forall id: nat
        ensures Occurs(w'.reg, id) == if id == w.own[h] then 0 else Occurs(w.reg, id)
      {
        OccursAfterRemove(w.reg, w.own[h], id);
      }
      if Paired(w) {
        forall id: nat | Occurs(w'.reg, id) >= 1
          ensures exists g :: g in w'.own && w'.own[g] == id
        {
          var g :| g in w.own && w.own[g] == id;
          assert g in w'.own;
        }
      }
    }
  }

  lemma StepKeeps(w: World, a: Act)
    requires Owned(w) && Enabled(w, a)
    ensures Owned(Step(w, a))
    ensures Paired(w) && !a.Unsubscribe? ==> Paired(Step(w, a))
  {
    match a
    case SubscribeQ(_, _, _) => SubscribeKeeps(w, a);
    case SubscribeC(_, _, _) => SubscribeKeeps(w, a);
    case MoveInto(o, h) => MoveKeeps(w, o, h);
    case MoveAssign(o, h) =>
      ResetKeeps(w, h);
      if o != h {
        MoveKeeps(Reset(w, h), o, h);
      }
    case Drop(h) => ResetKeeps(w, h);
    case Unsubscribe(id) => RemoveKeepsUnique(w.reg, id);
  }

  lemma InitOwned(w: World)
    requires Init(w)
    ensures Owned(w) && Paired(w)
  {
    assert forall id: nat :: Occurs(w.reg, id) == 0;
  }

  /** In every run each id occurs at most once, has been issued, and is held by at most one
      handle; while subscriptions end only through their handles, live entries and handles
      correspond one to one. */
  lemma {:induction false} OneOwner(ws: seq<World>, acts: seq<Act>, i: nat)
    requires Run(ws, acts) && i < |ws|
    ensures Owned(ws[i])
    ensures (forall j :: 0 <= j < i ==> !acts[j].Unsubscribe?) ==> Paired(ws[i])
  {
    hide Owned, Paired, Step, Enabled, Init;
    if i == 0 {
      InitOwned(ws[0]);
    } else {
      OneOwner(ws, acts, i - 1);
      assert Next(ws[i - 1], acts[i - 1], ws[i]);
      StepKeeps(ws[i - 1], acts[i - 1]);
    }
  }
}
