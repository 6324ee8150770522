/** `__suggest_parallel_regions` of the task-parallelism detector
    (graph_analyzer/pattern_detectors/task_parallelism_detector.py): starting at
    every task suggestion, the CHILD graph is walked upwards from function to
    function until a function with no function above it is reached; a parallel
    region is suggested around each such outermost function. */
module ParallelRegions {
  import opened Wrappers
  import opened PetGraph
  import opened Suggestion
  import opened TaskSearch
  import opened UselessBarriers

  /** A parent-search result: a function and the last unit below it on the path. */
  type Pair = (NodeId, NodeId)

  // ---------------------------------------------------------------- ancestry

  lemma DescendantTrans(g: Graph, a: NodeId, b: NodeId, c: NodeId)
    requires Descendant(g, a, b) && Descendant(g, b, c)
    ensures Descendant(g, a, c)
  {
    var p :| ChildPath(g, p) && p[0] == a && p[|p| - 1] == b;
    var q :| ChildPath(g, q) && q[0] == b && q[|q| - 1] == c;
    var r := p + q[1..];
    assert ChildPath(g, r) by {
      forall i | 0 <= i < |r| - 1 ensures IsChildEdge(g, r[i], r[i + 1]) {
        if i < |p| - 1 {
          assert r[i] == p[i] && r[i + 1] == p[i + 1];
        } else {
          assert r[i] == q[i - |p| + 1] && r[i + 1] == q[i - |p| + 2];
        }
      }
    }
    assert r[|r| - 1] == c;
  }

  lemma AncestorOfDescendant(g: Graph, a: NodeId, b: NodeId, c: NodeId)
    requires ProperAncestor(g, a, b) && Descendant(g, b, c)
    ensures ProperAncestor(g, a, c)
  {
    var p :| ChildPath(g, p) && |p| >= 2 && p[0] == a && p[|p| - 1] == b;
    var q :| ChildPath(g, q) && q[0] == b && q[|q| - 1] == c;
    var r := p + q[1..];
    assert ChildPath(g, r) by {
      forall i | 0 <= i < |r| - 1 ensures IsChildEdge(g, r[i], r[i + 1]) {
        if i < |p| - 1 {
          assert r[i] == p[i] && r[i + 1] == p[i + 1];
        } else {
          assert r[i] == q[i - |p| + 1] && r[i + 1] == q[i - |p| + 2];
        }
      }
    }
    assert r[|r| - 1] == c;
  }

  lemma ProperIsDescendant(g: Graph, a: NodeId, b: NodeId)
    requires ProperAncestor(g, a, b)
    ensures Descendant(g, a, b)
  {
    var p :| ChildPath(g, p) && |p| >= 2 && p[0] == a && p[|p| - 1] == b;
  }

  /** A proper ancestor lies strictly higher. */
  lemma AncestorHigher(g: Graph, a: NodeId, b: NodeId)
    requires Wf(g) && ProperAncestor(g, a, b)
    ensures a in g.nodes && b in g.nodes && Height(g, a) < Height(g, b)
  {
    var p :| ChildPath(g, p) && |p| >= 2 && p[0] == a && p[|p| - 1] == b;
    PathRankFalls(g, p);
  }

  /** The units of a parent-search result are units of the graph. */
  lemma PairInGraph(g: Graph, n: NodeId, pr: Pair)
    requires Wf(g) && ParentPair(g, n, Func, pr)
    ensures pr.0 in g.nodes && pr.1 in g.nodes
  {
    var e :| e in g.edges && e.s == pr.0 && e.t == pr.1 && e.dep.etype == Child;
  }

  // ---------------------------------------------------------------- the tasks

  /** A suggestion whose pragma starts with "task". */
  predicate IsTask(s: Suggestion) {
    s.TaskInfo? && |s.pragma| > 0 && s.pragma[0] == "task"
  }

  /** `[s for s in suggestions if s.pragma[0] == "task"]`: a region suggestion has
      no pragma (AttributeError), an empty pragma has no first word (IndexError). */
  function TaskSuggestions(xs: seq<Suggestion>): (r: Result<seq<Suggestion>>)
    ensures r.Ok? <==> forall x :: x in xs ==> FirstPragma(x).Ok?
    ensures r.Ok? ==> forall x :: x in r.value <==> x in xs && IsTask(x)
  {
    if xs == [] then Ok([])
    else
      var init := xs[..|xs| - 1];
      var x := xs[|xs| - 1];
      assert xs == init + [x];
      match TaskSuggestions(init)
      case Err(e) => Err(e)
      case Ok(ts) =>
        match FirstPragma(x)
        case Err(e) => Err(e)
        case Ok(w) => Ok(ts + if w == "task" then [x] else [])
  }

  /** The parents collected from every task, in task order. */
  function StartParents(g: Graph, ts: seq<Suggestion>): seq<Pair>
    requires Wf(g) && forall t :: t in ts ==> t.node in g.nodes
  {
    if ts == [] then []
    else StartParents(g, ts[..|ts| - 1]) + ParentsOfType(g, ts[|ts| - 1].node, Func, false)
  }

  /** The first loop: `parents += __get_parent_of_type(pet, ts._node, "func", "child", False)`. */
  method CollectParents(g: Graph, ts: seq<Suggestion>) returns (parents: seq<Pair>)
    requires Wf(g) && forall t :: t in ts ==> t.node in g.nodes
    ensures parents == StartParents(g, ts)
  {
    parents := [];
    var i := 0;
    while i < |ts|
      invariant 0 <= i <= |ts|
      invariant forall t :: t in ts[..i] ==> t.node in g.nodes
      invariant parents == StartParents(g, ts[..i])
    {
      assert ts[..i + 1][..i] == ts[..i];
      assert ts[i] in ts;
      var pp := GetParentOfType(g, ts[i].node, Func, false);
      parents := parents + pp;
      i := i + 1;
    }
    assert ts[..i] == ts;
  }

  /** A pair found above one of the tasks `ts`. */
  ghost predicate FromTask(g: Graph, ts: seq<Suggestion>, pr: Pair) {
    exists t :: t in ts && ParentPair(g, t.node, Func, pr)
  }

  /** Some pair of `q` names a function above `n`. */
  ghost predicate Covers(g: Graph, q: seq<Pair>, n: NodeId) {
    exists pr :: pr in q && ProperAncestor(g, pr.0, n)
  }

  /** Every collected pair is a function above some task, and every task with a
      function above it has a collected function above it. */
  lemma {:induction false} StartParentsFacts(g: Graph, ts: seq<Suggestion>)
    requires Wf(g) && forall t :: t in ts ==> t.node in g.nodes
    ensures forall pr :: pr in StartParents(g, ts) ==> FromTask(g, ts, pr)
    ensures forall t :: t in ts && HasAncestorOfKind(g, t.node, Func) ==> Covers(g, StartParents(g, ts), t.node)
  {
    if ts != [] {
      var init := ts[..|ts| - 1];
      var last := ts[|ts| - 1];
      assert ts == init + [last];
      StartParentsFacts(g, init);
      var pp := ParentsOfType(g, last.node, Func, false);
      ParentsOfTypeResult(g, last.node, Func, false);
      var all := StartParents(g, ts);
      assert all == StartParents(g, init) + pp;
      forall pr | pr in all ensures FromTask(g, ts, pr) {
        if pr in pp {
          assert last in ts;
        } else {
          var t :| t in init && ParentPair(g, t.node, Func, pr);
          assert t in ts;
        }
      }
      forall t | t in ts && HasAncestorOfKind(g, t.node, Func) ensures Covers(g, all, t.node) {
        if t == last {
          assert pp[0] in all;
        } else {
          assert t in init;
          var pr :| pr in StartParents(g, init) && ProperAncestor(g, pr.0, t.node);
          assert pr in all;
        }
      }
    }
  }

  /** `list(set(parents))`: each pair once. */
  function Dedup(xs: seq<Pair>): (r: seq<Pair>)
    ensures forall x :: x in r <==> x in xs
    ensures forall i, j :: 0 <= i < j < |r| ==> r[i] != r[j]
  {
    if xs == [] then []
    else
      var rest := Dedup(xs[..|xs| - 1]);
      var x := xs[|xs| - 1];
      assert xs == xs[..|xs| - 1] + [x];
      if x in rest then rest else rest + [x]
  }

  // ---------------------------------------------------------------- the walk

  ghost predicate InGraph(g: Graph, q: seq<Pair>) {
    forall pr :: pr in q ==> pr.0 in g.nodes && pr.1 in g.nodes
  }

  /** `[x[0] for x in outer_parents]`. */
  function Heads(q: seq<Pair>): (r: seq<NodeId>)
    ensures |r| == |q| && forall i :: 0 <= i < |q| ==> r[i] == q[i].0
  {
    seq(|q|, i requires 0 <= i < |q| => q[i].0)
  }

  /** `[x for x in p_parents if x[0] not in first_elements]`. */
  function FilterNew(pp: seq<Pair>, firsts: seq<NodeId>): (r: seq<Pair>)
    ensures forall x :: x in r <==> x in pp && x.0 !in firsts
    ensures |r| <= |pp|
  {
    if pp == [] then []
    else (if pp[0].0 in firsts then [] else [pp[0]]) + FilterNew(pp[1..], firsts)
  }

  /** One more than the most parents one search can return. */
  ghost function Spread(g: Graph): nat
    requires Wf(g)
  {
    ParentBound(g) + 1
  }

  /** The measure of the walk: a function at height `h` in the queue weighs
      `Spread(g)^h`. */
  ghost function Weight(g: Graph, q: seq<Pair>): nat
    requires Wf(g) && InGraph(g, q)
  {
    assert forall x :: x in Heads(q) ==> x in g.nodes by {
      forall x | x in Heads(q) ensures x in g.nodes {
        var i :| 0 <= i < |q| && Heads(q)[i] == x;
        assert q[i] in q;
      }
    }
    QueueWeight(g, Spread(g), Heads(q))
  }

  lemma HeadsSplit(g: Graph, q: seq<Pair>)
    requires Wf(g) && InGraph(g, q) && |q| > 0
    ensures InGraph(g, q[1..])
    ensures Weight(g, q) == Pow(Spread(g), Height(g, q[0].0)) + Weight(g, q[1..])
  {
    assert q[0] in q;
    assert Heads(q)[1..] == Heads(q[1..]);
  }

  lemma WeightAppend(g: Graph, a: seq<Pair>, b: seq<Pair>)
    requires Wf(g) && InGraph(g, a) && InGraph(g, b)
    ensures InGraph(g, a + b)
    ensures Weight(g, a + b) == Weight(g, a) + Weight(g, b)
  {
    assert Heads(a + b) == Heads(a) + Heads(b);
    assert InGraph(g, a + b);
    assert Weight(g, a) == QueueWeight(g, Spread(g), Heads(a));
    assert Weight(g, b) == QueueWeight(g, Spread(g), Heads(b));
    QueueWeightAppend(g, Spread(g), Heads(a), Heads(b));
  }

  /** The new parents of `q[0]` lie above it. */
  lemma NewParentsAbove(g: Graph, p: NodeId, firsts: seq<NodeId>)
    requires Wf(g) && p in g.nodes
    ensures var app := FilterNew(ParentsOfType(g, p, Func, false), firsts);
            && InGraph(g, app)
            && |app| < Spread(g)
            && forall x :: x in app ==> ParentPair(g, p, Func, x) && ProperAncestor(g, x.0, p)
  {
    ParentsOfTypeResult(g, p, Func, false);
    var app := FilterNew(ParentsOfType(g, p, Func, false), firsts);
    forall x | x in app ensures x.0 in g.nodes && x.1 in g.nodes {
      PairInGraph(g, p, x);
    }
  }

  /** Each round of the walk lowers the weight of the queue. */
  lemma RoundLowers(g: Graph, q: seq<Pair>, firsts: seq<NodeId>)
    requires Wf(g) && InGraph(g, q) && |q| > 0
    ensures InGraph(g, q[1..]) && Weight(g, q[1..]) < Weight(g, q)
    ensures var app := FilterNew(ParentsOfType(g, q[0].0, Func, false), firsts);
            InGraph(g, q[1..] + app) && Weight(g, q[1..] + app) < Weight(g, q)
  {
    assert q[0] in q;
    var p := q[0].0;
    var app := FilterNew(ParentsOfType(g, p, Func, false), firsts);
    HeadsSplit(g, q);
    NewParentsAbove(g, p, firsts);
    WeightAppend(g, q[1..], app);
    forall x | x in Heads(app) ensures x in g.nodes && Height(g, x) < Height(g, p) {
      var i :| 0 <= i < |app| && Heads(app)[i] == x;
      assert app[i] in app;
      AncestorHigher(g, x, p);
    }
    assert Weight(g, app) == QueueWeight(g, Spread(g), Heads(app));
    RoundLowersWeight(g, Spread(g), Height(g, p), [], Heads(app));
    assert [] + Heads(app) == Heads(app);
  }

  /** The `while` loop over `parents`: an entry without function parents is an
      outer parent; otherwise its parents whose function is not yet an outer
      parent join the end of the queue. */
  ghost function Outer(g: Graph, q: seq<Pair>, outer: seq<Pair>): (r: seq<Pair>)
    requires Wf(g) && InGraph(g, q) && InGraph(g, outer)
    ensures InGraph(g, r) && outer <= r
    decreases Weight(g, q)
  {
    if q == [] then outer
    else
      RoundLowers(g, q, Heads(outer));
      var pp := ParentsOfType(g, q[0].0, Func, false);
      if pp == [] then
        assert q[0] in q;
        Outer(g, q[1..], outer + [q[0]])
      else
        Outer(g, q[1..] + FilterNew(pp, Heads(outer)), outer)
  }

  method OuterParents(g: Graph, start: seq<Pair>) returns (outer: seq<Pair>)
    requires Wf(g) && InGraph(g, start)
    ensures outer == Outer(g, start, [])
  {
    var parents := start;
    outer := [];
    while |parents| > 0
      invariant InGraph(g, parents) && InGraph(g, outer)
      invariant Outer(g, parents, outer) == Outer(g, start, [])
      decreases Weight(g, parents)
    {
      RoundLowers(g, parents, Heads(outer));
      assert parents[0] in parents;
      var (p, lastNode) := parents[0];
      parents := parents[1..];
      var pParents := GetParentOfType(g, p, Func, false);
      if pParents == [] {
        outer := outer + [(p, lastNode)];
      } else {
        var firstElements := Heads(outer);
        parents := parents + FilterNew(pParents, firstElements);
      }
    }
  }

  /** A pair one level up from a pair above a task is above that task too. */
  lemma FromTaskUp(g: Graph, ts: seq<Suggestion>, y: Pair, x: Pair)
    requires FromTask(g, ts, y) && ParentPair(g, y.0, Func, x)
    ensures FromTask(g, ts, x)
  {
    var t :| t in ts && ParentPair(g, t.node, Func, y);
    ParentOfDescendant(g, y.0, y.1, t.node);
    DescendantTrans(g, x.1, y.0, t.node);
    assert ParentPair(g, t.node, Func, x);
  }

  /** Every outer parent is a function above a task with no function above it. */
  lemma {:induction false} OuterSound(g: Graph, ts: seq<Suggestion>, q: seq<Pair>, outer: seq<Pair>, pr: Pair)
    requires Wf(g) && InGraph(g, q) && InGraph(g, outer)
    requires forall x :: x in q ==> FromTask(g, ts, x)
    requires forall x :: x in outer ==> FromTask(g, ts, x) && !HasAncestorOfKind(g, x.0, Func)
    requires pr in Outer(g, q, outer)
    ensures FromTask(g, ts, pr) && !HasAncestorOfKind(g, pr.0, Func)
    decreases Weight(g, q)
  {
    if q != [] {
      RoundLowers(g, q, Heads(outer));
      assert q[0] in q;
      var pp := ParentsOfType(g, q[0].0, Func, false);
      ParentsOfTypeResult(g, q[0].0, Func, false);
      if pp == [] {
        OuterSound(g, ts, q[1..], outer + [q[0]], pr);
      } else {
        var app := FilterNew(pp, Heads(outer));
        forall x | x in q[1..] + app ensures FromTask(g, ts, x) {
          if x in app {
            FromTaskUp(g, ts, q[0], x);
          }
        }
        OuterSound(g, ts, q[1..] + app, outer, pr);
      }
    }
  }

  /** A unit with a function of the queue or of the outer parents above it still
      has an outer parent above it at the end. */
  lemma {:induction false} OuterComplete(g: Graph, q: seq<Pair>, outer: seq<Pair>, n: NodeId)
    requires Wf(g) && InGraph(g, q) && InGraph(g, outer)
    requires Covers(g, q + outer, n)
    ensures Covers(g, Outer(g, q, outer), n)
    decreases Weight(g, q)
  {
    if q == [] {
      assert q + outer == outer;
    } else {
      RoundLowers(g, q, Heads(outer));
      var pr :| pr in q + outer && ProperAncestor(g, pr.0, n);
      var pp := ParentsOfType(g, q[0].0, Func, false);
      ParentsOfTypeResult(g, q[0].0, Func, false);
      if pp == [] {
        assert q[0] in q;
        assert pr in q[1..] + (outer + [q[0]]) by {
          assert pr == q[0] || pr in q[1..] || pr in outer;
        }
        OuterComplete(g, q[1..], outer + [q[0]], n);
      } else {
        var app := FilterNew(pp, Heads(outer));
        var next := q[1..] + app;
        var w: Pair;
        if pr == q[0] {
          var x := pp[0];
          assert x in pp;
          ProperIsDescendant(g, q[0].0, n);
          AncestorOfDescendant(g, x.0, q[0].0, n);
          if x.0 in Heads(outer) {
            var i :| 0 <= i < |outer| && Heads(outer)[i] == x.0;
            w := outer[i];
          } else {
            w := x;
          }
        } else {
          w := pr;
          assert pr in q[1..] || pr in outer;
        }
        assert w in next + outer && ProperAncestor(g, w.0, n);
        OuterComplete(g, next, outer, n);
      }
    }
  }

  // ---------------------------------------------------------------- regions

  /** `ParallelRegionInfo(pet, parent, startsAtLine[last_node], endsAtLine[last_node])`. */
  function Region(g: Graph, pr: Pair): Suggestion
    requires pr.0 in g.nodes && pr.1 in g.nodes
  {
    NewRegionInfo(g, pr.0, StartPosition(g.nodes[pr.1]), EndPosition(g.nodes[pr.1]))
  }

  function Regions(g: Graph, outer: seq<Pair>): (r: seq<Suggestion>)
    requires forall pr :: pr in outer ==> pr.0 in g.nodes && pr.1 in g.nodes
    ensures |r| == |outer|
  {
    if outer == [] then []
    else
      assert outer[|outer| - 1] in outer;
      Regions(g, outer[..|outer| - 1]) + [Region(g, outer[|outer| - 1])]
  }

  lemma {:induction false} RegionFrom(g: Graph, outer: seq<Pair>, s: Suggestion)
    requires forall pr :: pr in outer ==> pr.0 in g.nodes && pr.1 in g.nodes
    requires s in Regions(g, outer)
    ensures exists pr :: pr in outer && s == Region(g, pr)
  {
    var init := outer[..|outer| - 1];
    assert forall pr :: pr in init ==> pr in outer;
    if s != Region(g, outer[|outer| - 1]) {
      RegionFrom(g, init, s);
    }
  }

  lemma {:induction false} RegionOf(g: Graph, outer: seq<Pair>, pr: Pair)
    requires forall pr :: pr in outer ==> pr.0 in g.nodes && pr.1 in g.nodes
    requires pr in outer
    ensures Region(g, pr) in Regions(g, outer)
  {
    var init := outer[..|outer| - 1];
    assert outer == init + [outer[|outer| - 1]];
    assert forall pr :: pr in init ==> pr in outer;
    if pr != outer[|outer| - 1] {
      RegionOf(g, init, pr);
    }
  }

  /** `__suggest_parallel_regions(pet, suggestions)`. The order of `list(set(parents))`
      is fixed here as first occurrence. */
  ghost function ParallelRegionsOf(g: Graph, xs: seq<Suggestion>): Result<seq<Suggestion>>
    requires Wf(g) && forall x :: x in xs ==> x.node in g.nodes
  {
    match TaskSuggestions(xs)
    case Err(e) => Err(e)
    case Ok(ts) =>
      var start := Dedup(StartParents(g, ts));
      StartInGraph(g, ts);
      Ok(Regions(g, Outer(g, start, [])))
  }

  lemma StartInGraph(g: Graph, ts: seq<Suggestion>)
    requires Wf(g) && forall t :: t in ts ==> t.node in g.nodes
    ensures InGraph(g, Dedup(StartParents(g, ts)))
  {
    StartParentsFacts(g, ts);
    forall pr | pr in Dedup(StartParents(g, ts)) ensures pr.0 in g.nodes && pr.1 in g.nodes {
      var t :| t in ts && ParentPair(g, t.node, Func, pr);
      PairInGraph(g, t.node, pr);
    }
  }

  lemma OuterInGraph(g: Graph, ts: seq<Suggestion>)
    requires Wf(g) && forall t :: t in ts ==> t.node in g.nodes
    ensures InGraph(g, Dedup(StartParents(g, ts)))
    ensures forall pr :: pr in Outer(g, Dedup(StartParents(g, ts)), []) ==>
              FromTask(g, ts, pr) && !HasAncestorOfKind(g, pr.0, Func)
  {
    StartInGraph(g, ts);
    StartParentsFacts(g, ts);
    var start := Dedup(StartParents(g, ts));
    forall pr | pr in Outer(g, start, []) ensures FromTask(g, ts, pr) && !HasAncestorOfKind(g, pr.0, Func) {
      OuterSound(g, ts, start, [], pr);
    }
  }

  /** The last loop: one region suggestion per outer parent. */
  method RegionSuggestions(g: Graph, outer: seq<Pair>) returns (regions: seq<Suggestion>)
    requires forall pr :: pr in outer ==> pr.0 in g.nodes && pr.1 in g.nodes
    ensures regions == Regions(g, outer)
  {
    regions := [];
    var i := 0;
    while i < |outer|
      invariant 0 <= i <= |outer|
      invariant forall pr :: pr in outer[..i] ==> pr.0 in g.nodes && pr.1 in g.nodes
      invariant regions == Regions(g, outer[..i])
    {
      assert outer[..i + 1][..i] == outer[..i];
      assert outer[i] in outer;
      var (parent, lastNode) := outer[i];
      regions := regions + [NewRegionInfo(g, parent, StartPosition(g.nodes[lastNode]), EndPosition(g.nodes[lastNode]))];
      i := i + 1;
    }
    assert outer[..i] == outer;
  }

  method SuggestParallelRegions(g: Graph, xs: seq<Suggestion>) returns (r: Result<seq<Suggestion>>)
    requires Wf(g) && forall x :: x in xs ==> x.node in g.nodes
    ensures r == ParallelRegionsOf(g, xs)
  {
    var tasks := TaskSuggestions(xs);
    if tasks.Err? {
      return Err(tasks.error);
    }
    var ts := tasks.value;
    var parents := CollectParents(g, ts);
    StartInGraph(g, ts);
    var outer := OuterParents(g, Dedup(parents));
    var regions := RegionSuggestions(g, outer);
    r := Ok(regions);
  }

  // ---------------------------------------------------------------- properties

  /** Every suggested region surrounds an outermost function: a function with no
      function above it, whose CHILD child `last` lies above a task suggestion,
      and the region spans `last`'s lines. */
  lemma ParallelRegionsSound(g: Graph, xs: seq<Suggestion>, s: Suggestion)
    requires Wf(g) && forall x :: x in xs ==> x.node in g.nodes
    requires ParallelRegionsOf(g, xs).Ok? && s in ParallelRegionsOf(g, xs).value
    ensures s.RegionInfo? && s.node in g.nodes && g.nodes[s.node].kind == Func
    ensures !HasAncestorOfKind(g, s.node, Func)
    ensures exists x, last :: x in xs && IsTask(x) && IsChildEdge(g, s.node, last) && Descendant(g, last, x.node)
              && last in g.nodes && s.regionStart == StartPosition(g.nodes[last]) && s.regionEndLine == EndPosition(g.nodes[last])
  {
    var ts := TaskSuggestions(xs).value;
    OuterInGraph(g, ts);
    var outer := Outer(g, Dedup(StartParents(g, ts)), []);
    RegionFrom(g, outer, s);
    var pr :| pr in outer && s == Region(g, pr);
    var t :| t in ts && ParentPair(g, t.node, Func, pr);
    assert t in xs && IsTask(t);
  }

  /** Every task suggestion with a function above it has a suggested region
      around a function above it. */
  lemma ParallelRegionsComplete(g: Graph, xs: seq<Suggestion>, x: Suggestion)
    requires Wf(g) && forall x :: x in xs ==> x.node in g.nodes
    requires ParallelRegionsOf(g, xs).Ok? && x in xs && IsTask(x) && HasAncestorOfKind(g, x.node, Func)
    ensures exists s :: s in ParallelRegionsOf(g, xs).value && ProperAncestor(g, s.node, x.node)
  {
    var ts := TaskSuggestions(xs).value;
    StartParentsFacts(g, ts);
    StartInGraph(g, ts);
    var start := Dedup(StartParents(g, ts));
    var pr0 :| pr0 in StartParents(g, ts) && ProperAncestor(g, pr0.0, x.node);
    assert pr0 in start + [];
    OuterComplete(g, start, [], x.node);
    var outer := Outer(g, start, []);
    OuterInGraph(g, ts);
    var pr :| pr in outer && ProperAncestor(g, pr.0, x.node);
    RegionOf(g, outer, pr);
    assert Region(g, pr).node == pr.0;
  }
}
