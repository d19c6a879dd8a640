/** The walks of the nested-process graph: the one enqueue resolves an action
    with, and the one the worker restores it with. */
module ProcessTree {
  /** The identity of a Process class. */
  datatype ClassId = ClassId(number: nat)

  /** One transition object; `id` is its identity. */
  datatype Declaration = Declaration(id: nat, action: string, background: bool)

  /** `path` is the dotted module and class name. */
  datatype ProcessClass = ProcessClass(path: string, transitions: seq<Declaration>, nested: seq<ClassId>)

  type Graph = map<ClassId, ProcessClass>

  ghost predicate Closed(g: Graph) {
    forall c, n :: c in g && n in g[c].nested ==> n in g
  }

  predicate Within(cs: seq<ClassId>, g: Graph) {
    forall i :: 0 <= i < |cs| ==> cs[i] in g
  }

  // ----- depth-first search with a shared set of seen classes -----

  /** Classes entered, in order, and classes seen, when `todo` is walked. */
  function Walk(g: Graph, enter: ClassId -> bool, todo: seq<ClassId>, seen: set<ClassId>)
    : (r: (seq<ClassId>, set<ClassId>))
    requires Closed(g) && Within(todo, g)
    ensures seen <= r.1
    decreases g.Keys - seen, |todo|
  {
    if todo == [] then ([], seen)
    else if todo[0] in seen then Walk(g, enter, todo[1..], seen)
    else if !enter(todo[0]) then Walk(g, enter, todo[1..], seen + {todo[0]})
    else
      var below := Walk(g, enter, g[todo[0]].nested, seen + {todo[0]});
      var after := Walk(g, enter, todo[1..], below.1);
      ([todo[0]] + below.0 + after.0, after.1)
  }

  /** The unpruned walk enters every class. */
  const EVERY: ClassId -> bool := c => true

  function Tree(g: Graph, root: ClassId): seq<ClassId>
    requires Closed(g) && root in g
  {
    Walk(g, EVERY, [root], {}).0
  }

  /** A chain of nesting whose every class but the last is entered. */
  ghost predicate Chain(g: Graph, enter: ClassId -> bool, p: seq<ClassId>) {
    && p != []
    && (forall i :: 0 <= i < |p| ==> p[i] in g)
    && (forall i :: 0 <= i < |p| - 1 ==> enter(p[i]) && p[i + 1] in g[p[i]].nested)
  }

  ghost predicate Reaches(g: Graph, enter: ClassId -> bool, root: ClassId, c: ClassId) {
    exists p :: Chain(g, enter, p) && p[0] == root && p[|p| - 1] == c
  }

  ghost predicate Distinct<T(!new)>(xs: seq<T>) {
    forall i, j :: 0 <= i < j < |xs| ==> xs[i] != xs[j]
  }

  lemma DistinctAppend<T(!new)>(xs: seq<T>, ys: seq<T>)
    requires Distinct(xs) && Distinct(ys)
    requires forall x :: x in xs ==> x !in ys
    ensures Distinct(xs + ys)
  {
    forall i, j | 0 <= i < j < |xs + ys| ensures (xs + ys)[i] != (xs + ys)[j] {
      if i < |xs| <= j { assert xs[i] in xs && ys[j - |xs|] in ys; }
    }
  }

  /** What was newly seen is closed under nesting, and is entered exactly once if at all. */
  lemma {:induction false} WalkVisits(g: Graph, enter: ClassId -> bool, todo: seq<ClassId>, seen: set<ClassId>)
    requires Closed(g) && Within(todo, g)
    ensures var (order, seen') := Walk(g, enter, todo, seen);
            && (forall c :: c in todo ==> c in seen')
            && (forall c, n :: c in seen' - seen && enter(c) && c in g && n in g[c].nested ==> n in seen')
            && (forall c :: c in order <==> c in seen' - seen && enter(c))
            && Distinct(order)
    decreases g.Keys - seen, |todo|
  {
    if todo == [] {
    } else if todo[0] in seen {
      WalkVisits(g, enter, todo[1..], seen);
    } else if !enter(todo[0]) {
      WalkVisits(g, enter, todo[1..], seen + {todo[0]});
    } else {
      var below := Walk(g, enter, g[todo[0]].nested, seen + {todo[0]});
      WalkVisits(g, enter, g[todo[0]].nested, seen + {todo[0]});
      WalkVisits(g, enter, todo[1..], below.1);
      var after := Walk(g, enter, todo[1..], below.1);
      DistinctAppend([todo[0]], below.0);
      DistinctAppend([todo[0]] + below.0, after.0);
    }
  }

  lemma {:induction false} WalkStaysReachable(
    g: Graph, enter: ClassId -> bool, root: ClassId, todo: seq<ClassId>, seen: set<ClassId>)
    requires Closed(g) && Within(todo, g)
    requires forall c :: c in todo ==> Reaches(g, enter, root, c)
    ensures forall c :: c in Walk(g, enter, todo, seen).1 - seen ==> Reaches(g, enter, root, c)
    decreases g.Keys - seen, |todo|
  {
    if todo == [] {
    } else if todo[0] in seen {
      WalkStaysReachable(g, enter, root, todo[1..], seen);
    } else if !enter(todo[0]) {
      WalkStaysReachable(g, enter, root, todo[1..], seen + {todo[0]});
    } else {
      forall n | n in g[todo[0]].nested ensures Reaches(g, enter, root, n) {
        ReachesNested(g, enter, root, todo[0], n);
      }
      WalkStaysReachable(g, enter, root, g[todo[0]].nested, seen + {todo[0]});
      WalkStaysReachable(g, enter, root, todo[1..], Walk(g, enter, g[todo[0]].nested, seen + {todo[0]}).1);
    }
  }

  lemma ReachesNested(g: Graph, enter: ClassId -> bool, root: ClassId, c: ClassId, n: ClassId)
    requires Closed(g) && Reaches(g, enter, root, c) && enter(c) && c in g && n in g[c].nested
    ensures Reaches(g, enter, root, n)
  {
    var p :| Chain(g, enter, p) && p[0] == root && p[|p| - 1] == c;
    assert Chain(g, enter, p + [n]);
  }

  lemma {:induction false} ChainIsSeen(g: Graph, enter: ClassId -> bool, p: seq<ClassId>, s: set<ClassId>)
    requires Chain(g, enter, p) && p[0] in s
    requires forall c, n :: c in s && enter(c) && c in g && n in g[c].nested ==> n in s
    ensures p[|p| - 1] in s
  {
    if |p| > 1 {
      var q := p[1..];
      forall i | 0 <= i < |q| - 1 ensures enter(q[i]) && q[i + 1] in g[q[i]].nested {
        assert q[i] == p[i + 1];
      }
      assert p[1] in g[p[0]].nested;
      ChainIsSeen(g, enter, q, s);
    }
  }

  /** On any graph, with cycles and shared classes, the walk enters exactly the
      classes reachable from the root through entered classes, each once. */
  lemma WalkIsReachability(g: Graph, enter: ClassId -> bool, root: ClassId)
    requires Closed(g) && root in g
    ensures var order := Walk(g, enter, [root], {}).0;
            && (forall c :: c in order <==> enter(c) && Reaches(g, enter, root, c))
            && Distinct(order)
  {
    var (order, seen) := Walk(g, enter, [root], {});
    WalkVisits(g, enter, [root], {});
    assert Chain(g, enter, [root]);
    assert Reaches(g, enter, root, root);
    WalkStaysReachable(g, enter, root, [root], {});
    forall c | enter(c) && Reaches(g, enter, root, c) ensures c in order {
      var p :| Chain(g, enter, p) && p[0] == root && p[|p| - 1] == c;
      assert root in [root];
      ChainIsSeen(g, enter, p, seen);
    }
  }

  /** Everything the pruned walk enters is in the unpruned tree. */
  lemma TreeCoversWalk(g: Graph, enter: ClassId -> bool, root: ClassId, c: ClassId)
    requires Closed(g) && root in g && c in Walk(g, enter, [root], {}).0
    ensures c in Tree(g, root) && c in g
  {
    WalkIsReachability(g, enter, root);
    WalkIsReachability(g, EVERY, root);
    var p :| Chain(g, enter, p) && p[0] == root && p[|p| - 1] == c;
    assert Chain(g, EVERY, p);
  }

  /** Walking a list is walking its head, then its tail with what the head saw. */
  lemma WalkCons(g: Graph, enter: ClassId -> bool, todo: seq<ClassId>, seen: set<ClassId>)
    requires Closed(g) && Within(todo, g) && todo != []
    ensures var head := Walk(g, enter, [todo[0]], seen);
            var tail := Walk(g, enter, todo[1..], head.1);
            Walk(g, enter, todo, seen) == (head.0 + tail.0, tail.1)
  {
    WalkOne(g, enter, todo[0], seen);
    if todo[0] !in seen && enter(todo[0]) {
      var below := Walk(g, enter, g[todo[0]].nested, seen + {todo[0]});
      var tail := Walk(g, enter, todo[1..], below.1);
      assert ([todo[0]] + below.0) + tail.0 == [todo[0]] + below.0 + tail.0;
    } else {
      var tail := Walk(g, enter, todo[1..], seen + {todo[0]});
      assert todo[0] in seen ==> seen + {todo[0]} == seen;
      assert [] + tail.0 == tail.0;
    }
  }

  lemma WalkOne(g: Graph, enter: ClassId -> bool, c: ClassId, seen: set<ClassId>)
    requires Closed(g) && c in g
    ensures Walk(g, enter, [c], seen) ==
            if c in seen then ([], seen)
            else if !enter(c) then ([], seen + {c})
            else var below := Walk(g, enter, g[c].nested, seen + {c}); ([c] + below.0, below.1)
  {
    assert [c][1..] == [];
    if c !in seen && enter(c) {
      var below := Walk(g, enter, g[c].nested, seen + {c});
      assert Walk(g, enter, [], below.1) == ([], below.1);
      assert [c] + below.0 + [] == [c] + below.0;
    }
  }

  /** `_iter_process_tree`: the recursive generator with its shared `seen`. */
  method IterProcessTree(g: Graph, c: ClassId, seen: set<ClassId>)
    returns (out: seq<ClassId>, seen': set<ClassId>)
    requires Closed(g) && c in g
    ensures (out, seen') == Walk(g, EVERY, [c], seen)
    decreases g.Keys - seen
  {
    WalkOne(g, EVERY, c, seen);
    if c in seen { return [], seen; }
    seen', out := seen + {c}, [c];
    var subs := g[c].nested;
    ghost var all := Walk(g, EVERY, subs, seen + {c});
    for i := 0 to |subs|
      invariant seen + {c} <= seen'
      invariant var rest := Walk(g, EVERY, subs[i..], seen'); [c] + all.0 == out + rest.0 && all.1 == rest.1
    {
      WalkCons(g, EVERY, subs[i..], seen');
      assert subs[i..][1..] == subs[i + 1..];
      var below;
      below, seen' := IterProcessTree(g, subs[i], seen');
      out := out + below;
    }
    assert subs[|subs|..] == [] && out + [] == out;
  }
}
