/** Which transition an action name means: at enqueue, by the availability walk,
    and on the worker, by the recorded owner or by name alone. */
module Resolution {
  import opened Wrappers
  import opened ProcessTree

  /** A transition together with the class that declares it. */
  type Offer = (Declaration, ClassId)

  datatype Resolved = One(offer: Offer) | Several | NoneAvailable

  datatype Found = Restored(declaration: Declaration) | Ambiguous | Missing

  // ----- enqueue -----

  /** A class is entered when its own conditions hold and the walk is not
      stopped by a lock (which resolving an action ignores). */
  function Entering(valid: ClassId -> bool, blocked: bool): ClassId -> bool {
    c => valid(c) && !blocked
  }

  predicate Matches(d: Declaration, action: Option<string>, available: Declaration -> bool) {
    (action.None? || d.action == action.value) && available(d)
  }

  function OffersOf(ds: seq<Declaration>, c: ClassId, action: Option<string>, available: Declaration -> bool): seq<Offer> {
    if ds == [] then []
    else (if Matches(ds[0], action, available) then [(ds[0], c)] else []) + OffersOf(ds[1..], c, action, available)
  }

  function Offers(g: Graph, order: seq<ClassId>, action: Option<string>, available: Declaration -> bool): seq<Offer>
    requires Within(order, g)
  {
    if order == [] then []
    else OffersOf(g[order[0]].transitions, order[0], action, available) + Offers(g, order[1..], action, available)
  }

  lemma {:induction false} OffersAppend(
    g: Graph, xs: seq<ClassId>, ys: seq<ClassId>, action: Option<string>, available: Declaration -> bool)
    requires Within(xs, g) && Within(ys, g)
    ensures Within(xs + ys, g)
    ensures Offers(g, xs + ys, action, available) == Offers(g, xs, action, available) + Offers(g, ys, action, available)
  {
    if xs == [] {
      assert xs + ys == ys;
    } else {
      assert (xs + ys)[1..] == xs[1..] + ys;
      OffersAppend(g, xs[1..], ys, action, available);
    }
  }

  lemma {:induction false} WalkStaysWithin(g: Graph, enter: ClassId -> bool, todo: seq<ClassId>, seen: set<ClassId>)
    requires Closed(g) && Within(todo, g)
    ensures Within(Walk(g, enter, todo, seen).0, g)
    decreases g.Keys - seen, |todo|
  {
    if todo == [] {
    } else if todo[0] in seen {
      WalkStaysWithin(g, enter, todo[1..], seen);
    } else if !enter(todo[0]) {
      WalkStaysWithin(g, enter, todo[1..], seen + {todo[0]});
    } else {
      WalkStaysWithin(g, enter, g[todo[0]].nested, seen + {todo[0]});
      WalkStaysWithin(g, enter, todo[1..], Walk(g, enter, g[todo[0]].nested, seen + {todo[0]}).1);
    }
  }

  ghost function AllOffers(g: Graph, enter: ClassId -> bool, todo: seq<ClassId>, seen: set<ClassId>,
                           action: Option<string>, available: Declaration -> bool): seq<Offer>
    requires Closed(g) && Within(todo, g)
  {
    WalkStaysWithin(g, enter, todo, seen);
    Offers(g, Walk(g, enter, todo, seen).0, action, available)
  }

  method OwnOffers(ds: seq<Declaration>, c: ClassId, action: Option<string>, available: Declaration -> bool)
    returns (out: seq<Offer>)
    ensures out == OffersOf(ds, c, action, available)
  {
    out := [];
    for i := 0 to |ds|
      invariant OffersOf(ds, c, action, available) == out + OffersOf(ds[i..], c, action, available)
    {
      assert ds[i..][1..] == ds[i + 1..];
      if Matches(ds[i], action, available) { out := out + [(ds[i], c)]; }
    }
  }

  /** `_iter_available_with_owner`: own transitions first, then each nested class. */
  method IterAvailable(g: Graph, c: ClassId, seen: set<ClassId>, valid: ClassId -> bool, blocked: bool,
                       action: Option<string>, available: Declaration -> bool)
    returns (out: seq<Offer>, seen': set<ClassId>)
    requires Closed(g) && c in g
    ensures out == AllOffers(g, Entering(valid, blocked), [c], seen, action, available)
    ensures seen' == Walk(g, Entering(valid, blocked), [c], seen).1
    decreases g.Keys - seen
  {
    ghost var enter := Entering(valid, blocked);
    WalkOne(g, enter, c, seen);
    if c in seen { return [], seen; }
    seen' := seen + {c};
    if !valid(c) || blocked { return [], seen'; }
    OffersOfClass(g, enter, c, seen, action, available);
    out := OwnOffers(g[c].transitions, c, action, available);
    var subs := g[c].nested;
    ghost var whole := AllOffers(g, enter, [c], seen, action, available);
    ghost var end := Walk(g, enter, [c], seen).1;
    for i := 0 to |subs|
      invariant seen + {c} <= seen'
      invariant whole == out + AllOffers(g, enter, subs[i..], seen', action, available)
      invariant end == Walk(g, enter, subs[i..], seen').1
    {
      OffersNext(g, enter, subs, i, seen', out, action, available);
      var below;
      below, seen' := IterAvailable(g, subs[i], seen', valid, blocked, action, available);
      out := out + below;
    }
    assert subs[|subs|..] == [] && out + [] == out;
  }

  lemma OffersCons(g: Graph, enter: ClassId -> bool, todo: seq<ClassId>, seen: set<ClassId>,
                   action: Option<string>, available: Declaration -> bool)
    requires Closed(g) && Within(todo, g) && todo != []
    ensures var head := Walk(g, enter, [todo[0]], seen);
            AllOffers(g, enter, todo, seen, action, available)
            == AllOffers(g, enter, [todo[0]], seen, action, available)
               + AllOffers(g, enter, todo[1..], head.1, action, available)
            && Walk(g, enter, todo, seen).1 == Walk(g, enter, todo[1..], head.1).1
  {
    WalkCons(g, enter, todo, seen);
    var head := Walk(g, enter, [todo[0]], seen);
    WalkStaysWithin(g, enter, [todo[0]], seen);
    WalkStaysWithin(g, enter, todo[1..], head.1);
    OffersAppend(g, head.0, Walk(g, enter, todo[1..], head.1).0, action, available);
  }

  lemma OffersNext(g: Graph, enter: ClassId -> bool, subs: seq<ClassId>, i: nat, seen: set<ClassId>, out: seq<Offer>,
                   action: Option<string>, available: Declaration -> bool)
    requires Closed(g) && Within(subs, g) && i < |subs|
    ensures var after := Walk(g, enter, [subs[i]], seen).1;
            && out + AllOffers(g, enter, subs[i..], seen, action, available)
               == (out + AllOffers(g, enter, [subs[i]], seen, action, available)) + AllOffers(g, enter, subs[i + 1..], after, action, available)
            && Walk(g, enter, subs[i..], seen).1 == Walk(g, enter, subs[i + 1..], after).1
  {
    OffersCons(g, enter, subs[i..], seen, action, available);
    assert subs[i..][1..] == subs[i + 1..] && subs[i..][0] == subs[i];
  }

  lemma OffersOfClass(g: Graph, enter: ClassId -> bool, c: ClassId, seen: set<ClassId>,
                      action: Option<string>, available: Declaration -> bool)
    requires Closed(g) && c in g && c !in seen && enter(c)
    ensures AllOffers(g, enter, [c], seen, action, available)
            == OffersOf(g[c].transitions, c, action, available)
               + AllOffers(g, enter, g[c].nested, seen + {c}, action, available)
    ensures Walk(g, enter, [c], seen).1 == Walk(g, enter, g[c].nested, seen + {c}).1
  {
    var below := Walk(g, enter, g[c].nested, seen + {c});
    WalkOne(g, enter, c, seen);
    WalkStaysWithin(g, enter, g[c].nested, seen + {c});
    assert ([c] + below.0)[1..] == below.0;
  }

  function Resolve(offers: seq<Offer>): Resolved {
    if |offers| == 1 then One(offers[0]) else if |offers| > 1 then Several else NoneAvailable
  }

  /** What `_resolve_transition_with_owner` answers from the bound class. */
  ghost function Enqueued(g: Graph, root: ClassId, valid: ClassId -> bool, action: string,
                          available: Declaration -> bool): Resolved
    requires Closed(g) && root in g
  {
    Resolve(AllOffers(g, Entering(valid, false), [root], {}, Some(action), available))
  }

  method ResolveTransition(g: Graph, root: ClassId, valid: ClassId -> bool, action: string,
                           available: Declaration -> bool) returns (r: Resolved)
    requires Closed(g) && root in g
    ensures r == Enqueued(g, root, valid, action, available)
  {
    var offers, _ := IterAvailable(g, root, {}, valid, false, Some(action), available);
    r := Resolve(offers);
  }

  lemma {:induction false} OfferOf(ds: seq<Declaration>, c: ClassId, action: Option<string>,
                                   available: Declaration -> bool, o: Offer)
    ensures o in OffersOf(ds, c, action, available)
            <==> o.1 == c && o.0 in ds && Matches(o.0, action, available)
  {
    if ds != [] {
      OfferOf(ds[1..], c, action, available, o);
      assert ds == [ds[0]] + ds[1..];
    }
  }

  /** An offer is made exactly by the entered classes that declare it. */
  lemma {:induction false} OfferIn(g: Graph, order: seq<ClassId>, action: Option<string>,
                                   available: Declaration -> bool, o: Offer)
    requires Within(order, g)
    ensures o in Offers(g, order, action, available)
            <==> o.1 in order && o.0 in g[o.1].transitions && Matches(o.0, action, available)
  {
    if order != [] {
      OfferOf(g[order[0]].transitions, order[0], action, available, o);
      OfferIn(g, order[1..], action, available, o);
      assert order == [order[0]] + order[1..];
    }
  }

  /** A place in a class's list of transitions. */
  datatype Spot = Spot(owner: ClassId, position: nat)

  function OfferAt(g: Graph, x: Spot): Offer
    requires x.owner in g && x.position < |g[x.owner].transitions|
  {
    (g[x.owner].transitions[x.position], x.owner)
  }

  /** The caller may run what stands at `x`: its class is reached through classes
      whose conditions hold, and its own conditions hold. */
  ghost predicate IsAvailable(g: Graph, root: ClassId, valid: ClassId -> bool, action: string,
                              available: Declaration -> bool, x: Spot)
  {
    && x.owner in g && valid(x.owner) && Reaches(g, Entering(valid, false), root, x.owner)
    && x.position < |g[x.owner].transitions|
    && Matches(g[x.owner].transitions[x.position], Some(action), available)
  }

  /** Where the offers of one class stand, from position `from` on. */
  ghost function SpotsOf(ds: seq<Declaration>, c: ClassId, from: nat, action: Option<string>, available: Declaration -> bool): seq<Spot> {
    if ds == [] then []
    else (if Matches(ds[0], action, available) then [Spot(c, from)] else []) + SpotsOf(ds[1..], c, from + 1, action, available)
  }

  ghost function Spots(g: Graph, order: seq<ClassId>, action: Option<string>, available: Declaration -> bool): seq<Spot>
    requires Within(order, g)
  {
    if order == [] then []
    else SpotsOf(g[order[0]].transitions, order[0], 0, action, available) + Spots(g, order[1..], action, available)
  }

  ghost predicate Aligned(g: Graph, offers: seq<Offer>, spots: seq<Spot>) {
    && |offers| == |spots|
    && forall i :: 0 <= i < |spots| ==>
         && spots[i].owner in g && spots[i].position < |g[spots[i].owner].transitions|
         && offers[i] == OfferAt(g, spots[i])
  }

  lemma {:induction false} SpotsOfAlign(g: Graph, c: ClassId, from: nat, action: Option<string>, available: Declaration -> bool)
    requires c in g && from <= |g[c].transitions|
    ensures var ds := g[c].transitions[from..];
            && Aligned(g, OffersOf(ds, c, action, available), SpotsOf(ds, c, from, action, available))
            && Distinct(SpotsOf(ds, c, from, action, available))
            && forall x :: x in SpotsOf(ds, c, from, action, available) <==>
                 x.owner == c && from <= x.position < |g[c].transitions| && Matches(g[c].transitions[x.position], action, available)
    decreases |g[c].transitions| - from
  {
    var ds := g[c].transitions[from..];
    if ds != [] {
      assert ds[1..] == g[c].transitions[from + 1..];
      SpotsOfAlign(g, c, from + 1, action, available);
      DistinctAppend(if Matches(ds[0], action, available) then [Spot(c, from)] else [],
                     SpotsOf(ds[1..], c, from + 1, action, available));
    }
  }

  lemma AlignedAppend(g: Graph, xs: seq<Offer>, us: seq<Spot>, ys: seq<Offer>, vs: seq<Spot>)
    requires Aligned(g, xs, us) && Aligned(g, ys, vs)
    ensures Aligned(g, xs + ys, us + vs)
  {}

  /** The offers, in order, stand at distinct places: those of the entered classes that match. */
  lemma {:induction false} SpotsAlign(g: Graph, order: seq<ClassId>, action: Option<string>, available: Declaration -> bool)
    requires Within(order, g) && Distinct(order)
    ensures Aligned(g, Offers(g, order, action, available), Spots(g, order, action, available))
    ensures Distinct(Spots(g, order, action, available))
    ensures forall x :: x in Spots(g, order, action, available) <==>
              x.owner in order && x.position < |g[x.owner].transitions| && Matches(g[x.owner].transitions[x.position], action, available)
  {
    if order != [] {
      var c, rest := order[0], order[1..];
      var ds := g[c].transitions;
      assert ds[0..] == ds;
      assert order == [c] + rest;
      SpotsOfAlign(g, c, 0, action, available);
      SpotsAlign(g, rest, action, available);
      AlignedAppend(g, OffersOf(ds, c, action, available), SpotsOf(ds, c, 0, action, available),
                    Offers(g, rest, action, available), Spots(g, rest, action, available));
      forall x | x in SpotsOf(ds, c, 0, action, available) ensures x !in Spots(g, rest, action, available) {
        assert forall i :: 1 <= i < |order| ==> order[i] != c;
      }
      DistinctAppend(SpotsOf(ds, c, 0, action, available), Spots(g, rest, action, available));
    }
  }

  lemma OffersAreTheAvailable(g: Graph, root: ClassId, valid: ClassId -> bool, action: string, available: Declaration -> bool)
    returns (spots: seq<Spot>)
    requires Closed(g) && root in g
    ensures Aligned(g, AllOffers(g, Entering(valid, false), [root], {}, Some(action), available), spots)
    ensures Distinct(spots) && forall x :: x in spots <==> IsAvailable(g, root, valid, action, available, x)
  {
    var enter := Entering(valid, false);
    var order := Walk(g, enter, [root], {}).0;
    WalkIsReachability(g, enter, root);
    WalkStaysWithin(g, enter, [root], {});
    SpotsAlign(g, order, Some(action), available);
    spots := Spots(g, order, Some(action), available);
  }

  /** An action resolves if and only if it is available at exactly one place of
      one class, however many nesting paths lead to that class; it is refused as
      several if and only if there are two places, be it the same declaration in
      both. */
  lemma ResolvesIffAvailableOnce(
    g: Graph, root: ClassId, valid: ClassId -> bool, action: string, available: Declaration -> bool, o: Offer)
    requires Closed(g) && root in g
    ensures Enqueued(g, root, valid, action, available) == One(o)
            <==> exists x :: && IsAvailable(g, root, valid, action, available, x) && OfferAt(g, x) == o
                             && forall y :: IsAvailable(g, root, valid, action, available, y) ==> y == x
    ensures Enqueued(g, root, valid, action, available).NoneAvailable?
            <==> forall x :: !IsAvailable(g, root, valid, action, available, x)
    ensures Enqueued(g, root, valid, action, available).Several?
            <==> exists x, y :: x != y && IsAvailable(g, root, valid, action, available, x) && IsAvailable(g, root, valid, action, available, y)
  {
    var spots := OffersAreTheAvailable(g, root, valid, action, available);
    if |spots| >= 1 { assert spots[0] in spots; }
    if |spots| >= 2 { assert spots[1] in spots && spots[0] != spots[1]; }
    forall x | |spots| == 1 && x in spots ensures x == spots[0] {}
  }

  // ----- one declaration, two places -----

  const SHARED := Declaration(0, "send", false)
  const ANY_CLASS: ClassId -> bool := c => true
  const ANY_DECLARATION: Declaration -> bool := d => true

  /** One declaration inherited by two nested classes. */
  const SHARED_GRAPH: Graph := map[
    ClassId(0) := ProcessClass("root", [], [ClassId(1), ClassId(2)]),
    ClassId(1) := ProcessClass("a", [SHARED], []),
    ClassId(2) := ProcessClass("b", [SHARED], [])]

  /** One declaration listed twice by its class. */
  const REPEATED_GRAPH: Graph := map[ClassId(0) := ProcessClass("root", [SHARED, SHARED], [])]

  /** A declaration can be refused as ambiguous with itself, in either way. */
  lemma SharedDeclarationsAreSeveral()
    ensures Closed(SHARED_GRAPH) && Enqueued(SHARED_GRAPH, ClassId(0), ANY_CLASS, "send", ANY_DECLARATION).Several?
    ensures Closed(REPEATED_GRAPH) && Enqueued(REPEATED_GRAPH, ClassId(0), ANY_CLASS, "send", ANY_DECLARATION).Several?
  {
    SharedIsSeveral();
    RepeatedIsSeveral();
  }

  lemma SharedIsSeveral()
    ensures Closed(SHARED_GRAPH) && Enqueued(SHARED_GRAPH, ClassId(0), ANY_CLASS, "send", ANY_DECLARATION).Several?
  {
    var enter := Entering(ANY_CLASS, false);
    assert Chain(SHARED_GRAPH, enter, [ClassId(0), ClassId(1)]);
    assert Chain(SHARED_GRAPH, enter, [ClassId(0), ClassId(2)]);
    assert IsAvailable(SHARED_GRAPH, ClassId(0), ANY_CLASS, "send", ANY_DECLARATION, Spot(ClassId(1), 0));
    assert IsAvailable(SHARED_GRAPH, ClassId(0), ANY_CLASS, "send", ANY_DECLARATION, Spot(ClassId(2), 0));
    ResolvesIffAvailableOnce(SHARED_GRAPH, ClassId(0), ANY_CLASS, "send", ANY_DECLARATION, (SHARED, ClassId(0)));
  }

  lemma RepeatedIsSeveral()
    ensures Closed(REPEATED_GRAPH) && Enqueued(REPEATED_GRAPH, ClassId(0), ANY_CLASS, "send", ANY_DECLARATION).Several?
  {
    assert Chain(REPEATED_GRAPH, Entering(ANY_CLASS, false), [ClassId(0)]);
    assert IsAvailable(REPEATED_GRAPH, ClassId(0), ANY_CLASS, "send", ANY_DECLARATION, Spot(ClassId(0), 0));
    assert IsAvailable(REPEATED_GRAPH, ClassId(0), ANY_CLASS, "send", ANY_DECLARATION, Spot(ClassId(0), 1));
    ResolvesIffAvailableOnce(REPEATED_GRAPH, ClassId(0), ANY_CLASS, "send", ANY_DECLARATION, (SHARED, ClassId(0)));
  }
}
