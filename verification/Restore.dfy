/** The worker's side: from the recorded owner and name back to the transition
    enqueue resolved, and the class-time validator that makes it possible. */
module Restore {
  import opened Wrappers
  import opened ProcessTree
  import opened Resolution

  predicate Named(d: Declaration, action: string) {
    d.background && d.action == action
  }

  function FirstNamed(ds: seq<Declaration>, action: string): Option<Declaration> {
    if ds == [] then None else if Named(ds[0], action) then Some(ds[0]) else FirstNamed(ds[1..], action)
  }

  /** The first class with the owner's path decides, whether it declares the name or not. */
  function InOwner(g: Graph, order: seq<ClassId>, action: string, owner: string): Option<Declaration>
    requires Within(order, g)
  {
    if order == [] then None
    else if g[order[0]].path == owner then FirstNamed(g[order[0]].transitions, action)
    else InOwner(g, order[1..], action, owner)
  }

  /** The named background transitions of `ds` whose identity is not yet in `out`. */
  function AddNamed(ds: seq<Declaration>, action: string, out: seq<Declaration>): seq<Declaration> {
    if ds == [] then out
    else AddNamed(ds[1..], action,
                  if Named(ds[0], action) && (forall k :: 0 <= k < |out| ==> out[k].id != ds[0].id)
                  then out + [ds[0]] else out)
  }

  function AllNamed(g: Graph, order: seq<ClassId>, action: string, out: seq<Declaration>): seq<Declaration>
    requires Within(order, g)
  {
    if order == [] then out
    else AllNamed(g, order[1..], action, AddNamed(g[order[0]].transitions, action, out))
  }

  ghost function TreeOf(g: Graph, root: ClassId): (order: seq<ClassId>)
    requires Closed(g) && root in g
    ensures Within(order, g)
  {
    WalkStaysWithin(g, EVERY, [root], {});
    Tree(g, root)
  }

  /** `_find_transition`; a blank owner is a row that recorded none. */
  ghost function Lookup(g: Graph, root: ClassId, action: string, owner: string): Found
    requires Closed(g) && root in g
  {
    var order := TreeOf(g, root);
    var owned := if owner == "" then None else InOwner(g, order, action, owner);
    if owned.Some? then Restored(owned.value)
    else
      var named := AllNamed(g, order, action, []);
      if |named| == 1 then Restored(named[0]) else if |named| > 1 then Ambiguous else Missing
  }

  method FindInOwner(g: Graph, root: ClassId, action: string, owner: string) returns (r: Option<Declaration>)
    requires Closed(g) && root in g
    ensures r == InOwner(g, TreeOf(g, root), action, owner)
  {
    var order, _ := IterProcessTree(g, root, {});
    WalkStaysWithin(g, EVERY, [root], {});
    for i := 0 to |order|
      invariant InOwner(g, order, action, owner) == InOwner(g, order[i..], action, owner)
    {
      assert order[i..][1..] == order[i + 1..];
      if g[order[i]].path == owner {
        var ds := g[order[i]].transitions;
        for j := 0 to |ds|
          invariant FirstNamed(ds, action) == FirstNamed(ds[j..], action)
        {
          assert ds[j..][1..] == ds[j + 1..];
          if Named(ds[j], action) { return Some(ds[j]); }
        }
        return None;
      }
    }
    r := None;
  }

  ghost predicate IdsOf(ds: seq<Declaration>, ids: set<nat>) {
    && (forall k :: 0 <= k < |ds| ==> ds[k].id in ids)
    && (forall x :: x in ids ==> exists k :: 0 <= k < |ds| && ds[k].id == x)
  }

  lemma IdsOfAppend(ds: seq<Declaration>, ids: set<nat>, d: Declaration)
    requires IdsOf(ds, ids)
    ensures IdsOf(ds + [d], ids + {d.id})
  {
    forall x | x in ids + {d.id} ensures exists k :: 0 <= k < |ds + [d]| && (ds + [d])[k].id == x {
      if x == d.id {
        assert (ds + [d])[|ds|].id == x;
      } else {
        var k :| 0 <= k < |ds| && ds[k].id == x;
        assert (ds + [d])[k].id == x;
      }
    }
  }

  method BackgroundNamed(g: Graph, root: ClassId, action: string) returns (out: seq<Declaration>)
    requires Closed(g) && root in g
    ensures out == AllNamed(g, TreeOf(g, root), action, [])
  {
    var order, _ := IterProcessTree(g, root, {});
    WalkStaysWithin(g, EVERY, [root], {});
    var seen: set<nat> := {};
    out := [];
    for i := 0 to |order|
      invariant AllNamed(g, order, action, []) == AllNamed(g, order[i..], action, out)
      invariant IdsOf(out, seen)
    {
      assert order[i..][1..] == order[i + 1..];
      var ds := g[order[i]].transitions;
      ghost var before := out;
      for j := 0 to |ds|
        invariant AddNamed(ds, action, before) == AddNamed(ds[j..], action, out)
        invariant IdsOf(out, seen)
      {
        assert ds[j..][1..] == ds[j + 1..];
        if Named(ds[j], action) && ds[j].id !in seen {
          IdsOfAppend(out, seen, ds[j]);
          seen := seen + {ds[j].id};
          out := out + [ds[j]];
        }
      }
    }
  }

  method FindTransition(g: Graph, root: ClassId, action: string, owner: string) returns (r: Found)
    requires Closed(g) && root in g
    ensures r == Lookup(g, root, action, owner)
  {
    if owner != "" {
      var owned := FindInOwner(g, root, action, owner);
      if owned.Some? { return Restored(owned.value); }
    }
    var named := BackgroundNamed(g, root, action);
    if |named| == 1 { return Restored(named[0]); }
    r := if |named| > 1 then Ambiguous else Missing;
  }

  // ----- the validator -----

  /** No class of the tree declares two background transitions of one name. */
  ghost predicate UniqueNames(ds: seq<Declaration>) {
    forall i, j :: 0 <= i < j < |ds| && ds[i].background && ds[j].background ==> ds[i].action != ds[j].action
  }

  ghost predicate Validated(g: Graph, root: ClassId)
    requires Closed(g) && root in g
  {
    forall c :: c in TreeOf(g, root) ==> UniqueNames(g[c].transitions)
  }

  method ValidateUniqueBackgroundNames(g: Graph, root: ClassId) returns (ok: bool)
    requires Closed(g) && root in g
    ensures ok <==> Validated(g, root)
  {
    var order, _ := IterProcessTree(g, root, {});
    WalkStaysWithin(g, EVERY, [root], {});
    for i := 0 to |order|
      invariant forall k :: 0 <= k < i ==> UniqueNames(g[order[k]].transitions)
    {
      var ds := g[order[i]].transitions;
      var local: set<string> := {};
      for j := 0 to |ds|
        invariant forall a, b :: 0 <= a < b < j && ds[a].background && ds[b].background ==> ds[a].action != ds[b].action
        invariant local == set k | 0 <= k < j && ds[k].background :: ds[k].action
      {
        if ds[j].background {
          if ds[j].action in local {
            assert order[i] in TreeOf(g, root);
            return false;
          }
          local := local + {ds[j].action};
        }
      }
    }
    ok := true;
  }

  // ----- restore fidelity -----

  ghost predicate DistinctPaths(g: Graph, root: ClassId)
    requires Closed(g) && root in g
  {
    forall c, d :: c in TreeOf(g, root) && d in TreeOf(g, root) && g[c].path == g[d].path ==> c == d
  }

  lemma {:induction false} InOwnerFinds(g: Graph, order: seq<ClassId>, action: string, o: ClassId)
    requires Within(order, g) && o in order
    requires forall c :: c in order && g[c].path == g[o].path ==> c == o
    ensures InOwner(g, order, action, g[o].path) == FirstNamed(g[o].transitions, action)
  {
    if order[0] != o {
      assert order == [order[0]] + order[1..];
      InOwnerFinds(g, order[1..], action, o);
    }
  }

  lemma {:induction false} FirstNamedIsTheOne(ds: seq<Declaration>, action: string, d: Declaration)
    requires d in ds && Named(d, action) && UniqueNames(ds)
    ensures FirstNamed(ds, action) == Some(d)
  {
    if !Named(ds[0], action) {
      assert ds == [ds[0]] + ds[1..];
      FirstNamedIsTheOne(ds[1..], action, d);
    }
  }

  /** On a validated graph the worker, from the owner and the name enqueue
      recorded, restores the very transition enqueue resolved, whatever the
      conditions that chose it say by then. */
  lemma RestoreFindsWhatEnqueueResolved(
    g: Graph, root: ClassId, valid: ClassId -> bool, action: string, available: Declaration -> bool)
    requires Closed(g) && root in g && Validated(g, root) && DistinctPaths(g, root)
    requires forall c :: c in g ==> g[c].path != ""
    requires var r := Enqueued(g, root, valid, action, available); r.One? && r.offer.0.background
    ensures var (d, o) := Enqueued(g, root, valid, action, available).offer;
            o in g && Lookup(g, root, action, g[o].path) == Restored(d)
  {
    var offer := Enqueued(g, root, valid, action, available).offer;
    var (d, o) := offer;
    var enter := Entering(valid, false);
    WalkStaysWithin(g, enter, [root], {});
    OfferIn(g, Walk(g, enter, [root], {}).0, Some(action), available, offer);
    TreeCoversWalk(g, enter, root, o);
    InOwnerFinds(g, TreeOf(g, root), action, o);
    FirstNamedIsTheOne(g[o].transitions, action, d);
  }

  // ----- the fallback by name -----

  /** An identity names one declaration. */
  ghost predicate Identified(g: Graph) {
    forall c, d, x, y :: c in g && d in g && x in g[c].transitions && y in g[d].transitions && x.id == y.id ==> x == y
  }

  /** The background transitions of that name declared anywhere in the tree. */
  ghost function Candidates(g: Graph, root: ClassId, action: string): set<Declaration>
    requires Closed(g) && root in g
  {
    set c, d | c in g.Keys && Reaches(g, EVERY, root, c) && d in g[c].transitions && Named(d, action) :: d
  }

  lemma {:induction false} AddNamedAdds(ds: seq<Declaration>, action: string, out: seq<Declaration>, d: Declaration)
    requires forall x, y :: (x in ds || x in out) && (y in ds || y in out) && x.id == y.id ==> x == y
    requires Distinct(out)
    ensures d in AddNamed(ds, action, out) <==> d in out || (d in ds && Named(d, action))
    ensures Distinct(AddNamed(ds, action, out))
  {
    if ds != [] {
      assert ds == [ds[0]] + ds[1..];
      var unseen := Named(ds[0], action) && forall k :: 0 <= k < |out| ==> out[k].id != ds[0].id;
      var next := if unseen then out + [ds[0]] else out;
      AddNamedAdds(ds[1..], action, next, d);
    }
  }

  lemma {:induction false} AllNamedCollects(g: Graph, order: seq<ClassId>, action: string, out: seq<Declaration>)
    requires Within(order, g) && Identified(g) && Distinct(out)
    requires forall x :: x in out ==> exists c :: c in g && x in g[c].transitions
    ensures Distinct(AllNamed(g, order, action, out))
    ensures forall d :: d in AllNamed(g, order, action, out)
                        <==> d in out || exists c :: c in order && d in g[c].transitions && Named(d, action)
  {
    if order != [] {
      var ds := g[order[0]].transitions;
      var next := AddNamed(ds, action, out);
      forall d ensures (d in next <==> d in out || (d in ds && Named(d, action))) && Distinct(next) {
        AddNamedAdds(ds, action, out, d);
      }
      AllNamedCollects(g, order[1..], action, next);
      assert order == [order[0]] + order[1..];
    }
  }

  /** With no owner to go by, the worker restores a transition exactly when the
      name is unique among the background transitions of the tree, counting a
      shared declaration once. */
  lemma FallbackRestoresOnlyUniqueNames(g: Graph, root: ClassId, action: string, owner: string, d: Declaration)
    requires Closed(g) && root in g && Identified(g)
    requires owner == "" || InOwner(g, TreeOf(g, root), action, owner).None?
    ensures Lookup(g, root, action, owner) == Restored(d) <==> Candidates(g, root, action) == {d}
    ensures Lookup(g, root, action, owner).Missing? <==> Candidates(g, root, action) == {}
  {
    NamedAreCandidates(g, root, action);
    SameElements(AllNamed(g, TreeOf(g, root), action, []), Candidates(g, root, action), d);
  }

  lemma NamedAreCandidates(g: Graph, root: ClassId, action: string)
    requires Closed(g) && root in g && Identified(g)
    ensures var named := AllNamed(g, TreeOf(g, root), action, []);
            Distinct(named) && forall x :: x in named <==> x in Candidates(g, root, action)
  {
    AllNamedCollects(g, TreeOf(g, root), action, []);
    WalkIsReachability(g, EVERY, root);
  }

  lemma SameElements(xs: seq<Declaration>, s: set<Declaration>, d: Declaration)
    requires Distinct(xs) && forall x :: x in xs <==> x in s
    ensures |xs| == 1 && xs[0] == d <==> s == {d}
    ensures xs == [] <==> s == {}
  {
    if xs != [] { assert xs[0] in s; }
    if |xs| > 1 { assert xs[1] in s && xs[0] != xs[1]; }
    if s == {d} { assert d in xs; }
  }
}
