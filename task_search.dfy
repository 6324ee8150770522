/** The two breadth-first searches of the task-parallelism detector that walk
    CHILD edges upwards from a unit: `__check_reachability` and
    `__get_parent_of_type` (graph_analyzer/pattern_detectors/task_parallelism_detector.py).
    Every caller walks CHILD edges, so the edge type is fixed here.

    The queue of either search may hold a unit more than once, so the number of
    rounds is not bounded by the number of units; the searches end because each
    round replaces a unit by parents that lie strictly higher in the acyclic CHILD
    order. The measure is a weighted sum over the queue in which a unit at height
    `h` weighs `W^h`, `W` exceeding the number of parents one round can add. */
module TaskSearch {
  import opened Wrappers
  import opened PetGraph

  // ------------------------------------------------------------ ancestry

  /** `a` reaches `b` by one or more CHILD edges. */
  ghost predicate ProperAncestor(g: Graph, a: NodeId, b: NodeId) {
    exists p :: ChildPath(g, p) && |p| >= 2 && p[0] == a && p[|p| - 1] == b
  }

  /** A parent of an ancestor-or-self of `t` is a proper ancestor of `t`. */
  lemma ParentOfDescendant(g: Graph, a: NodeId, b: NodeId, t: NodeId)
    requires IsChildEdge(g, a, b) && Descendant(g, b, t)
    ensures ProperAncestor(g, a, t) && Descendant(g, a, t)
  {
    var p :| ChildPath(g, p) && p[0] == b && p[|p| - 1] == t;
    PrependChildEdge(g, a, p);
    var q := [a] + p;
    assert q[|q| - 1] == t;
  }

  /** Ranks fall strictly along a CHILD path. */
  lemma {:induction false} PathRankFalls(g: Graph, p: seq<NodeId>)
    requires Wf(g) && ChildPath(g, p) && |p| >= 2
    ensures p[0] in g.nodes && p[|p| - 1] in g.nodes
    ensures RankOf(g)[p[|p| - 1]] < RankOf(g)[p[0]]
    decreases |p|
  {
    assert IsChildEdge(g, p[0], p[1]);
    var e :| e in g.edges && e.s == p[0] && e.t == p[1] && e.dep.etype == Child;
    if |p| > 2 {
      var q := p[1..];
      assert ChildPath(g, q) by {
        forall i | 0 <= i < |q| - 1 ensures IsChildEdge(g, q[i], q[i + 1]) {
          assert q[i] == p[i + 1] && q[i + 1] == p[i + 2];
        }
      }
      PathRankFalls(g, q);
    }
  }

  /** Nothing is its own proper ancestor. */
  lemma NotOwnAncestor(g: Graph, a: NodeId)
    requires Wf(g)
    ensures !ProperAncestor(g, a, a)
  {
    if ProperAncestor(g, a, a) {
      var p :| ChildPath(g, p) && |p| >= 2 && p[0] == a && p[|p| - 1] == a;
      PathRankFalls(g, p);
    }
  }

  /** The CHILD parents of every unit of `closed` (outside `open`) lie in `closed`. */
  ghost predicate ParentsIn(g: Graph, closed: seq<NodeId>, open: set<NodeId>) {
    forall x, e :: x in closed && x !in open && e in g.edges && e.t == x && e.dep.etype == Child ==> e.s in closed
  }

  /** When the parents of every unit of `closed` lie in `closed`, a CHILD path that
      ends in `closed` lies in it entirely. */
  lemma {:induction false} PathInClosed(g: Graph, closed: seq<NodeId>, open: set<NodeId>, p: seq<NodeId>)
    requires ParentsIn(g, closed, open) && ChildPath(g, p) && p[|p| - 1] in closed
    requires forall i :: 0 < i < |p| ==> p[i] !in open
    ensures p[0] in closed
    decreases |p|
  {
    if |p| > 1 {
      var q := p[..|p| - 1];
      assert IsChildEdge(g, p[|p| - 2], p[|p| - 1]);
      var e :| e in g.edges && e.s == p[|p| - 2] && e.t == p[|p| - 1] && e.dep.etype == Child;
      assert ChildPath(g, q) by {
        forall i | 0 <= i < |q| - 1 ensures IsChildEdge(g, q[i], q[i + 1]) {
          assert q[i] == p[i] && q[i + 1] == p[i + 1];
        }
      }
      PathInClosed(g, closed, open, q);
    }
  }

  // ---------------------------------------------------------------- measure

  function Pow(b: nat, e: nat): (r: nat)
    ensures b >= 1 ==> r >= 1
  {
    if e == 0 then 1 else b * Pow(b, e - 1)
  }

  lemma {:induction false} PowMonotone(b: nat, e1: nat, e2: nat)
    requires b >= 1 && e1 <= e2
    ensures Pow(b, e1) <= Pow(b, e2)
    decreases e2
  {
    if e1 < e2 {
      PowMonotone(b, e1, e2 - 1);
      MulMonotone(1, b, Pow(b, e2 - 1));
    }
  }

  /** The largest rank among `xs`. */
  ghost function MaxRank(rank: map<NodeId, nat>, xs: seq<NodeId>): (m: nat)
    requires forall x :: x in xs ==> x in rank
    ensures forall x :: x in xs ==> rank[x] <= m
  {
    if xs == [] then 0
    else
      var m := MaxRank(rank, xs[1..]);
      if rank[xs[0]] > m then rank[xs[0]] else m
  }

  ghost function Top(g: Graph): (t: nat)
    requires Wf(g)
    ensures forall n :: n in g.nodes ==> RankOf(g)[n] <= t
  {
    MaxRank(RankOf(g), g.order)
  }

  /** How far below the top of the CHILD order a unit lies. */
  ghost function Height(g: Graph, n: NodeId): nat
    requires Wf(g) && n in g.nodes
  {
    Top(g) - RankOf(g)[n]
  }

  /** A parent lies strictly higher than its child. */
  lemma ParentHigher(g: Graph, e: Edge)
    requires Wf(g) && e in g.edges && e.dep.etype == Child
    ensures e.s in g.nodes && e.t in g.nodes && Height(g, e.s) < Height(g, e.t)
  {
  }

  /** The weight of a search queue: `W^height` summed over its entries. */
  ghost function QueueWeight(g: Graph, w: nat, q: seq<NodeId>): nat
    requires Wf(g) && forall x :: x in q ==> x in g.nodes
  {
    if q == [] then 0 else Pow(w, Height(g, q[0])) + QueueWeight(g, w, q[1..])
  }

  lemma {:induction false} QueueWeightAppend(g: Graph, w: nat, a: seq<NodeId>, b: seq<NodeId>)
    requires Wf(g) && (forall x :: x in a ==> x in g.nodes) && (forall x :: x in b ==> x in g.nodes)
    ensures QueueWeight(g, w, a + b) == QueueWeight(g, w, a) + QueueWeight(g, w, b)
    decreases |a|
  {
    if a == [] {
      assert a + b == b;
    } else {
      assert (a + b)[0] == a[0] && (a + b)[1..] == a[1..] + b;
      QueueWeightAppend(g, w, a[1..], b);
    }
  }

  lemma {:induction false} MulMonotone(a: nat, b: nat, p: nat)
    requires a <= b
    ensures a * p <= b * p
    decreases b - a
  {
    if a < b {
      MulMonotone(a, b - 1, p);
      assert b * p == (b - 1) * p + p;
    }
  }

  /** Entries all lower than `h` weigh at most `W^(h-1)` each. */
  lemma {:induction false} LowEntriesWeight(g: Graph, w: nat, h: nat, app: seq<NodeId>)
    requires Wf(g) && w >= 1 && h >= 1
    requires forall x :: x in app ==> x in g.nodes && Height(g, x) < h
    ensures QueueWeight(g, w, app) <= |app| * Pow(w, h - 1)
    decreases |app|
  {
    if app != [] {
      var p := Pow(w, h - 1);
      var n := |app| - 1;
      LowEntriesWeight(g, w, h, app[1..]);
      PowMonotone(w, Height(g, app[0]), h - 1);
      MulSucc(n, p);
      assert QueueWeight(g, w, app) == Pow(w, Height(g, app[0])) + QueueWeight(g, w, app[1..]);
    }
  }

  /** Fewer than `w` entries of weight at most `p` weigh less than `w * p`. */
  lemma FewEntriesLighter(n: nat, w: nat, p: nat)
    requires n < w && p >= 1
    ensures n * p + 1 <= w * p
  {
    MulMonotone(n, w - 1, p);
    assert w * p == (w - 1) * p + p;
  }

  /** Replacing an entry of height `h` by fewer than `W` entries lower than `h`
      lowers the weight of the queue. */
  lemma RoundLowersWeight(g: Graph, w: nat, h: nat, rest: seq<NodeId>, app: seq<NodeId>)
    requires Wf(g) && w >= 1 && |app| < w
    requires forall x :: x in rest ==> x in g.nodes
    requires forall x :: x in app ==> x in g.nodes && Height(g, x) < h
    ensures QueueWeight(g, w, rest + app) + 1 <= Pow(w, h) + QueueWeight(g, w, rest)
  {
    QueueWeightAppend(g, w, rest, app);
    if app != [] {
      assert Height(g, app[0]) < h;
      LowEntriesWeight(g, w, h, app);
      FewEntriesLighter(|app|, w, Pow(w, h - 1));
    }
  }

  /** Taking the head of a queue and appending fewer than `W` entries lower than
      it lowers the weight of the queue. */
  lemma HeadReplacedLighter(g: Graph, w: nat, queue: seq<NodeId>, app: seq<NodeId>)
    requires Wf(g) && w >= 1 && |app| < w && |queue| > 0
    requires forall x :: x in queue ==> x in g.nodes
    requires forall x :: x in app ==> x in g.nodes && Height(g, x) < Height(g, queue[0])
    ensures QueueWeight(g, w, queue[1..] + app) + 1 <= QueueWeight(g, w, queue)
  {
    RoundLowersWeight(g, w, Height(g, queue[0]), queue[1..], app);
  }

  // ---------------------------------------------------------------- searches

  /** `[e for e in es if e.source() not in visited]`. */
  function FreshSources(es: seq<Edge>, visited: seq<NodeId>): (r: seq<Edge>)
    ensures forall e :: e in r <==> e in es && e.s !in visited
    ensures |r| <= |es|
  {
    if es == [] then []
    else
      var rest := FreshSources(es[1..], visited);
      if es[0].s !in visited then [es[0]] + rest else rest
  }

  /** The weight base of the searches: one more than the number of edges. */
  function Base(g: Graph): nat {
    |g.edges| + 1
  }

  /** The CHILD parents `cur` adds to the queue of a search: units above `target`,
      higher than `cur`, fewer than `Base(g)`. */
  ghost predicate Added(g: Graph, cur: NodeId, target: NodeId, queue: seq<NodeId>, queue': seq<NodeId>)
    requires Wf(g) && cur in g.nodes
  {
    && queue <= queue'
    && |queue'| - |queue| < Base(g)
    && forall x :: x in queue'[|queue|..] ==> x in g.nodes && Height(g, x) < Height(g, cur) && Descendant(g, x, target)
  }

  /** The inner loop of `__check_reachability` over the fresh parent edges `tmp`:
      stop with true at the first edge from `source`, otherwise queue each source
      not yet visited. */
  function ReachStep(tmp: seq<Edge>, visited: seq<NodeId>, source: NodeId, queue: seq<NodeId>): (r: (bool, seq<NodeId>))
    decreases |tmp|
  {
    if tmp == [] then (false, queue)
    else if tmp[0].s == source then (true, queue)
    else ReachStep(tmp[1..], visited, source, if tmp[0].s !in visited then queue + [tmp[0].s] else queue)
  }

  lemma {:induction false} ReachStepFacts(tmp: seq<Edge>, visited: seq<NodeId>, source: NodeId, queue: seq<NodeId>)
    ensures var r := ReachStep(tmp, visited, source, queue);
            && (r.0 ==> exists e :: e in tmp && e.s == source)
            && (!r.0 ==> && queue <= r.1 && |r.1| - |queue| <= |tmp|
                         && (forall x :: x in r.1[|queue|..] ==> x != source && exists e :: e in tmp && e.s == x)
                         && (forall e :: e in tmp ==> e.s in visited || e.s in r.1))
    decreases |tmp|
  {
    if tmp != [] && tmp[0].s != source {
      var q := if tmp[0].s !in visited then queue + [tmp[0].s] else queue;
      ReachStepFacts(tmp[1..], visited, source, q);
      var r := ReachStep(tmp[1..], visited, source, q);
      if !r.0 {
        assert r.1[|queue|..] == q[|queue|..] + r.1[|q|..];
        if tmp[0].s !in visited {
          assert q[|queue|] == tmp[0].s;
          assert r.1[|queue|] == tmp[0].s;
        }
        forall e | e in tmp ensures e.s in visited || e.s in r.1 {
          if e != tmp[0] { assert e in tmp[1..]; }
        }
      }
    }
  }

  /** One round of `__check_reachability` for the unit `cur` taken from the queue. */
  lemma ReachRound(g: Graph, cur: NodeId, visited: seq<NodeId>, queue: seq<NodeId>, target: NodeId, source: NodeId)
    requires Wf(g) && cur in g.nodes && Descendant(g, cur, target)
    ensures var r := ReachStep(FreshSources(InEdges(g, cur, Some(Child)), visited), visited, source, queue);
            && (r.0 ==> ProperAncestor(g, source, target))
            && (!r.0 ==> Added(g, cur, target, queue, r.1) && source !in r.1[|queue|..])
            && (!r.0 ==> forall e :: e in g.edges && e.t == cur && e.dep.etype == Child ==> e.s in visited || e.s in r.1)
  {
    var tmp := FreshSources(InEdges(g, cur, Some(Child)), visited);
    ReachStepFacts(tmp, visited, source, queue);
    var r := ReachStep(tmp, visited, source, queue);
    if r.0 {
      var e :| e in tmp && e.s == source;
      assert IsChildEdge(g, e.s, cur);
      ParentOfDescendant(g, e.s, cur, target);
    } else {
      forall x | x in r.1[|queue|..]
        ensures x in g.nodes && Height(g, x) < Height(g, cur) && Descendant(g, x, target)
      {
        var e :| e in tmp && e.s == x;
        ParentHigher(g, e);
        assert IsChildEdge(g, e.s, cur);
        ParentOfDescendant(g, e.s, cur, target);
      }
      forall e | e in g.edges && e.t == cur && e.dep.etype == Child
        ensures e.s in visited || e.s in r.1
      {
        assert e in InEdges(g, cur, Some(Child));
        if e.s !in visited {
          assert e in tmp;
        }
      }
    }
  }

  /** The inner loop of `__check_reachability` for the unit `cur` just taken from
      the queue. */
  method ReachParents(g: Graph, cur: NodeId, visited: seq<NodeId>, queue: seq<NodeId>, source: NodeId)
    returns (found: bool, queue': seq<NodeId>)
    ensures (found, queue') == ReachStep(FreshSources(InEdges(g, cur, Some(Child)), visited), visited, source, queue)
  {
    var tmp := FreshSources(InEdges(g, cur, Some(Child)), visited);
    queue' := queue;
    var j := 0;
    while j < |tmp|
      invariant 0 <= j <= |tmp|
      invariant ReachStep(tmp[j..], visited, source, queue') == ReachStep(tmp, visited, source, queue)
    {
      assert tmp[j..][1..] == tmp[j + 1..];
      var e := tmp[j];
      if e.s == source {
        return true, queue';
      } else if e.s !in visited {
        queue' := queue' + [e.s];
      }
      j := j + 1;
    }
    found := false;
  }

  /** What the search of `__check_reachability` keeps while the queue is not
      empty: everything seen lies below-or-at `target`, `source` has not been seen,
      and every unit already expanded has its CHILD parents seen. */
  ghost predicate ReachInv(g: Graph, target: NodeId, source: NodeId, visited: seq<NodeId>, queue: seq<NodeId>) {
    && Wf(g)
    && (forall x :: x in visited || x in queue ==> x in g.nodes && Descendant(g, x, target))
    && (forall x :: x in visited || x in queue ==> x == target || x != source)
    && (target in visited || target in queue)
    && ParentsIn(g, visited + queue, set x | x in queue)
  }

  /** One round of the search keeps `ReachInv`, lowers the queue weight, and a
      hit is a genuine ancestor. */
  lemma ReachInvStep(g: Graph, target: NodeId, source: NodeId, visited: seq<NodeId>, queue: seq<NodeId>)
    requires ReachInv(g, target, source, visited, queue) && |queue| > 0
    ensures var v := visited + [queue[0]];
            var r := ReachStep(FreshSources(InEdges(g, queue[0], Some(Child)), v), v, source, queue[1..]);
            && (r.0 ==> ProperAncestor(g, source, target))
            && (!r.0 ==> ReachInv(g, target, source, v, r.1)
                         && QueueWeight(g, Base(g), r.1) < QueueWeight(g, Base(g), queue))
  {
    var cur := queue[0];
    var rest := queue[1..];
    var v := visited + [cur];
    ReachRound(g, cur, v, rest, target, source);
    var r := ReachStep(FreshSources(InEdges(g, cur, Some(Child)), v), v, source, rest);
    if !r.0 {
      var app := r.1[|rest|..];
      assert r.1 == rest + app;
      HeadReplacedLighter(g, Base(g), queue, app);
      ReachKeepsMembers(g, target, source, visited, queue, r.1);
      ReachKeepsClosed(g, target, source, visited, queue, r.1);
    }
  }

  /** The units seen after a round still lie below-or-at `target`, and `target` is still seen. */
  lemma ReachKeepsMembers(g: Graph, target: NodeId, source: NodeId, visited: seq<NodeId>, queue: seq<NodeId>, queue': seq<NodeId>)
    requires ReachInv(g, target, source, visited, queue) && |queue| > 0
    requires queue[1..] <= queue'
    requires forall x :: x in queue'[|queue| - 1..] ==> x in g.nodes && Descendant(g, x, target) && x != source
    ensures forall x :: x in visited + [queue[0]] || x in queue' ==>
              x in g.nodes && Descendant(g, x, target) && (x == target || x != source)
    ensures target in visited + [queue[0]] || target in queue'
  {
    var rest := queue[1..];
    forall x | x in visited + [queue[0]] || x in queue'
      ensures x in g.nodes && Descendant(g, x, target) && (x == target || x != source)
    {
      if x in queue' && x !in visited + [queue[0]] {
        var j :| 0 <= j < |queue'| && queue'[j] == x;
        if j < |rest| {
          assert x == queue[j + 1];
        } else {
          assert x == queue'[|queue| - 1..][j - |rest|];
        }
      } else if x != queue[0] {
        assert x in visited;
      }
    }
    if target in queue && target !in rest {
      assert target == queue[0];
    } else if target in rest {
      var j :| 0 <= j < |rest| && rest[j] == target;
      assert queue'[j] == target;
    }
  }

  /** After a round, every expanded unit outside the new queue still has its
      CHILD parents among the units seen. */
  lemma ReachKeepsClosed(g: Graph, target: NodeId, source: NodeId, visited: seq<NodeId>, queue: seq<NodeId>, queue': seq<NodeId>)
    requires ReachInv(g, target, source, visited, queue) && |queue| > 0
    requires queue[1..] <= queue'
    requires forall e :: e in g.edges && e.t == queue[0] && e.dep.etype == Child ==> e.s in visited + [queue[0]] || e.s in queue'
    ensures ParentsIn(g, visited + [queue[0]] + queue', set x | x in queue')
  {
    var cur, rest := queue[0], queue[1..];
    var v := visited + [cur];
    var open := set x | x in queue';
    var open0 := set x | x in queue;
    forall x | x in rest ensures x in queue' {
      var j :| 0 <= j < |rest| && rest[j] == x;
      assert queue'[j] == x;
    }
    forall x | x in visited + queue ensures x in v + queue' {
      if x in queue && x != cur {
        var j :| 0 <= j < |queue| && queue[j] == x;
        assert rest[j - 1] == x;
      }
    }
    forall x, e | x in v + queue' && x !in open && e in g.edges && e.t == x && e.dep.etype == Child
      ensures e.s in v + queue'
    {
      if x == cur {
        assert e.s in v || e.s in queue';
      } else {
        assert x in visited + queue;
        assert x !in open0;
        assert e.s in visited + queue;
      }
    }
  }

  /** When the queue runs dry, no path from `source` reaches `target`. */
  lemma ReachExhausted(g: Graph, target: NodeId, source: NodeId, visited: seq<NodeId>)
    requires ReachInv(g, target, source, visited, [])
    ensures !ProperAncestor(g, source, target)
  {
    if ProperAncestor(g, source, target) {
      var p :| ChildPath(g, p) && |p| >= 2 && p[0] == source && p[|p| - 1] == target;
      assert visited + [] == visited;
      assert (set x: NodeId | x in [] ) == {};
      PathInClosed(g, visited, {}, p);
      NotOwnAncestor(g, target);
    }
  }

  /** `__check_reachability(pet, target, source, 'child')`: breadth-first from
      `target` up the CHILD edges, true as soon as `source` shows up as a parent. */
  method CheckReachability(g: Graph, target: NodeId, source: NodeId) returns (r: bool)
    requires Wf(g) && target in g.nodes
    ensures r <==> ProperAncestor(g, source, target)
  {
    var visited: seq<NodeId> := [];
    var queue := [target];
    assert Descendant(g, target, target) by { assert ChildPath(g, [target]); }
    assert ParentsIn(g, visited + queue, set x | x in queue) by {
      assert visited + queue == [target];
    }
    while |queue| > 0
      invariant ReachInv(g, target, source, visited, queue)
      decreases QueueWeight(g, Base(g), queue)
    {
      ReachInvStep(g, target, source, visited, queue);
      var cur := queue[0];
      visited := visited + [cur];
      var found;
      found, queue := ReachParents(g, cur, visited, queue[1..], source);
      if found {
        return true;
      }
    }
    ReachExhausted(g, target, source, visited);
    return false;
  }

  // ---------------------------------------------------------------- parent search

  /** The search state of `__get_parent_of_type` after the edges of one unit:
      `early` when the first parent was returned at once. */
  datatype Scan = Scan(early: bool, visited: seq<NodeId>, queue: seq<NodeId>, res: seq<(NodeId, NodeId)>)

  /** The inner loop of `__get_parent_of_type` over the fresh CHILD in-edges `tmp`
      of `cur`: a source of kind `k` is a result (and returned alone when
      `onlyFirst`) and counts as visited; any other unvisited source is queued. */
  function ParentScan(g: Graph, tmp: seq<Edge>, k: CuType, onlyFirst: bool, cur: NodeId, st: Scan): (r: Scan)
    requires forall e :: e in tmp ==> e.s in g.nodes
    decreases |tmp|
  {
    if tmp == [] then st
    else
      var s := tmp[0].s;
      if g.nodes[s].kind == k then
        if onlyFirst then Scan(true, st.visited, st.queue, [(s, cur)])
        else ParentScan(g, tmp[1..], k, onlyFirst, cur, st.(visited := st.visited + [s], res := st.res + [(s, cur)]))
      else
        ParentScan(g, tmp[1..], k, onlyFirst, cur, if s !in st.visited then st.(queue := st.queue + [s]) else st)
  }

  /** How the parent scan changes the state's shape. */
  lemma {:induction false} ParentScanShape(g: Graph, tmp: seq<Edge>, k: CuType, onlyFirst: bool, cur: NodeId, st: Scan)
    requires forall e :: e in tmp ==> e.s in g.nodes
    requires !st.early
    ensures var r := ParentScan(g, tmp, k, onlyFirst, cur, st);
            && (r.early ==> onlyFirst && |r.res| == 1 && exists e :: e in tmp && r.res[0] == (e.s, cur) && g.nodes[e.s].kind == k)
            && (!r.early ==>
                && st.visited <= r.visited && st.queue <= r.queue && st.res <= r.res
                && |r.queue| - |st.queue| <= |tmp| && |r.res| - |st.res| <= |tmp|
                && |r.visited| - |st.visited| == |r.res| - |st.res|
                && (onlyFirst ==> r.res == st.res))
    decreases |tmp|
  {
    if tmp != [] {
      var s := tmp[0].s;
      if g.nodes[s].kind == k {
        if !onlyFirst {
          ParentScanShape(g, tmp[1..], k, onlyFirst, cur, st.(visited := st.visited + [s], res := st.res + [(s, cur)]));
        }
      } else {
        ParentScanShape(g, tmp[1..], k, onlyFirst, cur, if s !in st.visited then st.(queue := st.queue + [s]) else st);
      }
    }
  }

  /** What the parent scan adds: results and visited units of kind `k`, queued
      units of other kinds, all sources of scanned edges. */
  lemma {:induction false} ParentScanAdds(g: Graph, tmp: seq<Edge>, k: CuType, onlyFirst: bool, cur: NodeId, st: Scan)
    requires forall e :: e in tmp ==> e.s in g.nodes
    requires !st.early
    ensures var r := ParentScan(g, tmp, k, onlyFirst, cur, st);
            !r.early ==>
              && (forall i :: |st.visited| <= i < |r.visited| ==> r.visited[i] in g.nodes && g.nodes[r.visited[i]].kind == k)
              && (forall i :: |st.queue| <= i < |r.queue| ==>
                    r.queue[i] in g.nodes && g.nodes[r.queue[i]].kind != k && exists e :: e in tmp && e.s == r.queue[i])
              && (forall i :: |st.res| <= i < |r.res| ==>
                    r.res[i].1 == cur && exists e :: e in tmp && e.s == r.res[i].0 && g.nodes[e.s].kind == k)
    decreases |tmp|
  {
    var r := ParentScan(g, tmp, k, onlyFirst, cur, st);
    if tmp != [] && !r.early {
      var s := tmp[0].s;
      var st' := if g.nodes[s].kind == k then st.(visited := st.visited + [s], res := st.res + [(s, cur)])
                 else if s !in st.visited then st.(queue := st.queue + [s]) else st;
      assert r == ParentScan(g, tmp[1..], k, onlyFirst, cur, st');
      ParentScanAdds(g, tmp[1..], k, onlyFirst, cur, st');
      ParentScanShape(g, tmp[1..], k, onlyFirst, cur, st');
      forall e | e in tmp[1..] ensures e in tmp { }
    }
  }

  /** Every scanned edge's source ends up visited before, queued, or a result. */
  lemma {:induction false} ParentScanCovers(g: Graph, tmp: seq<Edge>, k: CuType, onlyFirst: bool, cur: NodeId, st: Scan)
    requires forall e :: e in tmp ==> e.s in g.nodes
    requires !st.early
    ensures var r := ParentScan(g, tmp, k, onlyFirst, cur, st);
            !r.early ==> forall e :: e in tmp ==> e.s in st.visited || e.s in r.queue || (g.nodes[e.s].kind == k && |r.res| > |st.res|)
    decreases |tmp|
  {
    var r := ParentScan(g, tmp, k, onlyFirst, cur, st);
    if tmp != [] && !r.early {
      var s := tmp[0].s;
      var st' := if g.nodes[s].kind == k then st.(visited := st.visited + [s], res := st.res + [(s, cur)])
                 else if s !in st.visited then st.(queue := st.queue + [s]) else st;
      assert r == ParentScan(g, tmp[1..], k, onlyFirst, cur, st');
      ParentScanCovers(g, tmp[1..], k, onlyFirst, cur, st');
      ParentScanShape(g, tmp[1..], k, onlyFirst, cur, st');
      if g.nodes[s].kind != k && s !in st.visited {
        assert r.queue[|st.queue|] == s;
      }
      forall e | e in tmp ensures e.s in st.visited || e.s in r.queue || (g.nodes[e.s].kind == k && |r.res| > |st.res|) {
        if e != tmp[0] {
          assert e in tmp[1..];
          assert e.s in st'.visited ==> e.s in st.visited || g.nodes[e.s].kind == k;
        }
      }
    }
  }

  /** A result of the parent search: a unit of kind `k` that is the CHILD parent
      of a unit at or below `node`. */
  ghost predicate ParentPair(g: Graph, node: NodeId, k: CuType, pr: (NodeId, NodeId)) {
    pr.0 in g.nodes && g.nodes[pr.0].kind == k && IsChildEdge(g, pr.0, pr.1) && Descendant(g, pr.1, node)
  }

  /** A unit of kind `k` lies above `node`. */
  ghost predicate HasAncestorOfKind(g: Graph, node: NodeId, k: CuType) {
    exists a :: a in g.nodes && g.nodes[a].kind == k && ProperAncestor(g, a, node)
  }

  /** Every result of the search is a proper ancestor of kind `k`. */
  lemma ParentPairAbove(g: Graph, node: NodeId, k: CuType, pr: (NodeId, NodeId))
    requires Wf(g) && ParentPair(g, node, k, pr)
    ensures ProperAncestor(g, pr.0, node) && HasAncestorOfKind(g, node, k)
  {
    ParentOfDescendant(g, pr.0, pr.1, node);
  }

  /** An upper bound on the results of one parent search in `g`. */
  ghost function ParentBound(g: Graph): nat
    requires Wf(g)
  {
    |g.edges| * Pow(Base(g), Top(g))
  }

  /** What `__get_parent_of_type` keeps between rounds; `pops` counts the units
      taken from the queue so far. */
  ghost predicate ParentInv(g: Graph, node: NodeId, k: CuType, onlyFirst: bool,
                            visited: seq<NodeId>, queue: seq<NodeId>, res: seq<(NodeId, NodeId)>, pops: nat) {
    && Wf(g) && node in g.nodes
    && (forall x :: x in visited || x in queue ==> x in g.nodes)
    && (forall x :: x in queue ==> Descendant(g, x, node) && (x == node || g.nodes[x].kind != k))
    && (forall pr :: pr in res ==> ParentPair(g, node, k, pr))
    && (onlyFirst ==> res == [])
    && (res == [] ==>
         && (forall x :: x in visited ==> x == node || g.nodes[x].kind != k)
         && (node in visited || node in queue)
         && ParentsIn(g, visited + queue, set x | x in queue))
    && pops + QueueWeight(g, Base(g), queue) <= Pow(Base(g), Height(g, node))
    && |res| <= pops * |g.edges|
  }

  /** The scan of one round of `__get_parent_of_type`, taking `queue[0]`. */
  function RoundScan(g: Graph, k: CuType, onlyFirst: bool, visited: seq<NodeId>, queue: seq<NodeId>,
                     res: seq<(NodeId, NodeId)>): Scan
    requires Wf(g) && |queue| > 0
  {
    var v := visited + [queue[0]];
    ParentScan(g, FreshSources(InEdges(g, queue[0], Some(Child)), v), k, onlyFirst, queue[0], Scan(false, v, queue[1..], res))
  }

  /** The units one round queues lie above `node` and lower than the unit taken. */
  lemma RoundQueued(g: Graph, node: NodeId, k: CuType, onlyFirst: bool,
                    visited: seq<NodeId>, queue: seq<NodeId>, res: seq<(NodeId, NodeId)>)
    requires Wf(g) && |queue| > 0 && queue[0] in g.nodes && Descendant(g, queue[0], node)
    ensures var r := RoundScan(g, k, onlyFirst, visited, queue, res);
            !r.early ==>
              && queue[1..] <= r.queue && |r.queue| - |queue[1..]| < Base(g)
              && forall i :: |queue| - 1 <= i < |r.queue| ==>
                   r.queue[i] in g.nodes && g.nodes[r.queue[i]].kind != k
                   && Height(g, r.queue[i]) < Height(g, queue[0]) && Descendant(g, r.queue[i], node)
    ensures var r := RoundScan(g, k, onlyFirst, visited, queue, res);
            !r.early ==> forall x :: x in r.queue ==>
              x in queue[1..] || (x in g.nodes && g.nodes[x].kind != k && Descendant(g, x, node))
  {
    var cur := queue[0];
    var v := visited + [cur];
    var tmp := FreshSources(InEdges(g, cur, Some(Child)), v);
    var st := Scan(false, v, queue[1..], res);
    ParentScanShape(g, tmp, k, onlyFirst, cur, st);
    ParentScanAdds(g, tmp, k, onlyFirst, cur, st);
    var r := ParentScan(g, tmp, k, onlyFirst, cur, st);
    if !r.early {
      forall i | |queue| - 1 <= i < |r.queue|
        ensures Height(g, r.queue[i]) < Height(g, cur) && Descendant(g, r.queue[i], node)
      {
        var e :| e in tmp && e.s == r.queue[i];
        ParentHigher(g, e);
        assert IsChildEdge(g, e.s, cur);
        ParentOfDescendant(g, e.s, cur, node);
      }
      forall x | x in r.queue
        ensures x in queue[1..] || (x in g.nodes && g.nodes[x].kind != k && Descendant(g, x, node))
      {
        var i :| 0 <= i < |r.queue| && r.queue[i] == x;
        if i < |queue| - 1 { assert r.queue[i] == queue[1..][i]; }
      }
    }
  }

  /** The results one round adds are parents of kind `k` of the unit taken. */
  lemma RoundResults(g: Graph, node: NodeId, k: CuType, onlyFirst: bool,
                     visited: seq<NodeId>, queue: seq<NodeId>, res: seq<(NodeId, NodeId)>)
    requires Wf(g) && |queue| > 0 && queue[0] in g.nodes && Descendant(g, queue[0], node)
    requires forall pr :: pr in res ==> ParentPair(g, node, k, pr)
    ensures var r := RoundScan(g, k, onlyFirst, visited, queue, res);
            && (r.early ==> |r.res| == 1 && ParentPair(g, node, k, r.res[0]))
            && (!r.early ==> && res <= r.res && |r.res| - |res| <= |g.edges| && (onlyFirst ==> r.res == res)
                             && (forall pr :: pr in r.res ==> ParentPair(g, node, k, pr))
                             && (forall x :: x in r.visited ==> x in visited + [queue[0]] || (x in g.nodes && g.nodes[x].kind == k))
                             && (r.res == [] ==> r.visited == visited + [queue[0]]))
  {
    RoundEarlyResult(g, node, k, onlyFirst, visited, queue, res);
    RoundLateResults(g, node, k, onlyFirst, visited, queue, res);
  }

  lemma RoundEarlyResult(g: Graph, node: NodeId, k: CuType, onlyFirst: bool,
                     visited: seq<NodeId>, queue: seq<NodeId>, res: seq<(NodeId, NodeId)>)
    requires Wf(g) && |queue| > 0 && queue[0] in g.nodes && Descendant(g, queue[0], node)
    requires forall pr :: pr in res ==> ParentPair(g, node, k, pr)
    ensures var r := RoundScan(g, k, onlyFirst, visited, queue, res);
            r.early ==> |r.res| == 1 && ParentPair(g, node, k, r.res[0])
  {
    var cur := queue[0];
    var v := visited + [cur];
    var tmp := FreshSources(InEdges(g, cur, Some(Child)), v);
    var st := Scan(false, v, queue[1..], res);
    ParentScanShape(g, tmp, k, onlyFirst, cur, st);
    var r := ParentScan(g, tmp, k, onlyFirst, cur, st);
    if r.early {
      var e :| e in tmp && r.res[0] == (e.s, cur) && g.nodes[e.s].kind == k;
      assert IsChildEdge(g, e.s, cur);
    }
  }

  lemma RoundLateResults(g: Graph, node: NodeId, k: CuType, onlyFirst: bool,
                     visited: seq<NodeId>, queue: seq<NodeId>, res: seq<(NodeId, NodeId)>)
    requires Wf(g) && |queue| > 0 && queue[0] in g.nodes && Descendant(g, queue[0], node)
    requires forall pr :: pr in res ==> ParentPair(g, node, k, pr)
    ensures var r := RoundScan(g, k, onlyFirst, visited, queue, res);
            !r.early ==> && res <= r.res && |r.res| - |res| <= |g.edges| && (onlyFirst ==> r.res == res)
                         && (forall pr :: pr in r.res ==> ParentPair(g, node, k, pr))
                         && (forall x :: x in r.visited ==> x in visited + [queue[0]] || (x in g.nodes && g.nodes[x].kind == k))
                         && (r.res == [] ==> r.visited == visited + [queue[0]])
  {
    RoundLateShape(g, node, k, onlyFirst, visited, queue, res);
    RoundLatePairs(g, node, k, onlyFirst, visited, queue, res);
  }

  lemma RoundLateShape(g: Graph, node: NodeId, k: CuType, onlyFirst: bool,
                     visited: seq<NodeId>, queue: seq<NodeId>, res: seq<(NodeId, NodeId)>)
    requires Wf(g) && |queue| > 0 && queue[0] in g.nodes && Descendant(g, queue[0], node)
    requires forall pr :: pr in res ==> ParentPair(g, node, k, pr)
    ensures var r := RoundScan(g, k, onlyFirst, visited, queue, res);
            !r.early ==> && res <= r.res && |r.res| - |res| <= |g.edges| && (onlyFirst ==> r.res == res)
                         && (forall x :: x in r.visited ==> x in visited + [queue[0]] || (x in g.nodes && g.nodes[x].kind == k))
                         && (r.res == [] ==> r.visited == visited + [queue[0]])
  {
    var cur := queue[0];
    var v := visited + [cur];
    var tmp := FreshSources(InEdges(g, cur, Some(Child)), v);
    var st := Scan(false, v, queue[1..], res);
    ParentScanShape(g, tmp, k, onlyFirst, cur, st);
    ParentScanAdds(g, tmp, k, onlyFirst, cur, st);
    var r := ParentScan(g, tmp, k, onlyFirst, cur, st);
    if !r.early {
      forall x | x in r.visited && x !in v ensures x in g.nodes && g.nodes[x].kind == k {
        var i :| 0 <= i < |r.visited| && r.visited[i] == x;
      }
    }
  }

  lemma RoundLatePairs(g: Graph, node: NodeId, k: CuType, onlyFirst: bool,
                     visited: seq<NodeId>, queue: seq<NodeId>, res: seq<(NodeId, NodeId)>)
    requires Wf(g) && |queue| > 0 && queue[0] in g.nodes && Descendant(g, queue[0], node)
    requires forall pr :: pr in res ==> ParentPair(g, node, k, pr)
    ensures var r := RoundScan(g, k, onlyFirst, visited, queue, res);
            !r.early ==> forall pr :: pr in r.res ==> ParentPair(g, node, k, pr)
  {
    var cur := queue[0];
    var v := visited + [cur];
    var tmp := FreshSources(InEdges(g, cur, Some(Child)), v);
    var st := Scan(false, v, queue[1..], res);
    ParentScanShape(g, tmp, k, onlyFirst, cur, st);
    ParentScanAdds(g, tmp, k, onlyFirst, cur, st);
    var r := ParentScan(g, tmp, k, onlyFirst, cur, st);
    if !r.early {
      forall pr | pr in r.res ensures ParentPair(g, node, k, pr) {
        var i :| 0 <= i < |r.res| && r.res[i] == pr;
        if i >= |res| {
          var e :| e in tmp && e.s == r.res[i].0 && g.nodes[e.s].kind == k;
          assert IsChildEdge(g, e.s, cur);
        } else {
          assert pr in res;
        }
      }
    }
  }

  /** When a round finds nothing, every CHILD parent of the unit taken is
      visited or queued. */
  lemma RoundCovers(g: Graph, k: CuType, onlyFirst: bool, visited: seq<NodeId>, queue: seq<NodeId>)
    requires Wf(g) && |queue| > 0
    ensures var r := RoundScan(g, k, onlyFirst, visited, queue, []);
            !r.early && r.res == [] ==>
              forall e :: e in g.edges && e.t == queue[0] && e.dep.etype == Child ==>
                e.s in visited + [queue[0]] || e.s in r.queue
  {
    var cur := queue[0];
    var v := visited + [cur];
    var tmp := FreshSources(InEdges(g, cur, Some(Child)), v);
    var st := Scan(false, v, queue[1..], []);
    ParentScanCovers(g, tmp, k, onlyFirst, cur, st);
    var r := ParentScan(g, tmp, k, onlyFirst, cur, st);
    if !r.early && r.res == [] {
      forall e | e in g.edges && e.t == cur && e.dep.etype == Child
        ensures e.s in v || e.s in r.queue
      {
        assert e in InEdges(g, cur, Some(Child));
        if e.s !in v { assert e in tmp; }
      }
    }
  }

  /** One round of the parent search lowers the queue weight by at least the
      one unit it takes, and adds at most `|g.edges|` results. */
  lemma ParentRoundWeight(g: Graph, node: NodeId, k: CuType, onlyFirst: bool,
                          visited: seq<NodeId>, queue: seq<NodeId>, res: seq<(NodeId, NodeId)>, pops: nat)
    requires Wf(g) && node in g.nodes && |queue| > 0
    requires forall x :: x in queue ==> x in g.nodes && Descendant(g, x, node)
    requires forall pr :: pr in res ==> ParentPair(g, node, k, pr)
    requires pops + QueueWeight(g, Base(g), queue) <= Pow(Base(g), Height(g, node))
    requires |res| <= pops * |g.edges|
    ensures var r := RoundScan(g, k, onlyFirst, visited, queue, res);
            !r.early ==>
              && (forall x :: x in r.queue ==> x in g.nodes)
              && QueueWeight(g, Base(g), r.queue) < QueueWeight(g, Base(g), queue)
              && pops + 1 + QueueWeight(g, Base(g), r.queue) <= Pow(Base(g), Height(g, node))
              && |r.res| <= (pops + 1) * |g.edges|
  {
    var cur := queue[0];
    var rest := queue[1..];
    assert cur in queue;
    RoundQueued(g, node, k, onlyFirst, visited, queue, res);
    RoundResults(g, node, k, onlyFirst, visited, queue, res);
    var r := RoundScan(g, k, onlyFirst, visited, queue, res);
    if !r.early {
      var app := r.queue[|rest|..];
      assert r.queue == rest + app;
      forall x | x in r.queue ensures x in g.nodes {
        if x in rest { assert x in queue; }
      }
      assert forall x :: x in app ==> x in g.nodes && Height(g, x) < Height(g, cur);
      HeadReplacedLighter(g, Base(g), queue, app);
      MulSucc(pops, |g.edges|);
    }
  }

  /** One round of the parent search keeps `ParentInv`, lowers the queue
      weight, or returns a sound single result. */
  lemma ParentRound(g: Graph, node: NodeId, k: CuType, onlyFirst: bool,
                    visited: seq<NodeId>, queue: seq<NodeId>, res: seq<(NodeId, NodeId)>, pops: nat)
    requires ParentInv(g, node, k, onlyFirst, visited, queue, res, pops) && |queue| > 0
    ensures var r := RoundScan(g, k, onlyFirst, visited, queue, res);
            && (r.early ==> |r.res| == 1 && ParentPair(g, node, k, r.res[0]))
            && (!r.early ==> ParentInv(g, node, k, onlyFirst, r.visited, r.queue, r.res, pops + 1)
                             && QueueWeight(g, Base(g), r.queue) < QueueWeight(g, Base(g), queue))
  {
    var cur := queue[0];
    var rest := queue[1..];
    assert cur in queue;
    RoundQueued(g, node, k, onlyFirst, visited, queue, res);
    RoundResults(g, node, k, onlyFirst, visited, queue, res);
    ParentRoundWeight(g, node, k, onlyFirst, visited, queue, res, pops);
    var r := RoundScan(g, k, onlyFirst, visited, queue, res);
    if !r.early {
      forall x | x in r.queue ensures Descendant(g, x, node) && (x == node || g.nodes[x].kind != k) {
        if x in rest { assert x in queue; }
      }
      forall x | x in r.visited ensures x in g.nodes {
        if x in visited + [cur] { assert x in visited || x in queue; }
      }
      if r.res == [] {
        RoundCovers(g, k, onlyFirst, visited, queue);
        ParentClosedAfterRound(g, node, k, visited, queue, r.visited, r.queue);
      }
    }
  }

  lemma MulSucc(a: nat, b: nat)
    ensures (a + 1) * b == a * b + b
  {
  }

  /** The closure part of `ParentInv` after a round that found nothing. */
  lemma ParentClosedAfterRound(g: Graph, node: NodeId, k: CuType, visited: seq<NodeId>, queue: seq<NodeId>,
                               visited': seq<NodeId>, queue': seq<NodeId>)
    requires Wf(g) && |queue| > 0
    requires forall x :: x in visited ==> x == node || (x in g.nodes && g.nodes[x].kind != k)
    requires node in visited || node in queue
    requires ParentsIn(g, visited + queue, set x | x in queue)
    requires visited' == visited + [queue[0]] && queue[1..] <= queue'
    requires forall e :: e in g.edges && e.t == queue[0] && e.dep.etype == Child ==> e.s in visited' || e.s in queue'
    requires forall i :: |queue| - 1 <= i < |queue'| ==> queue'[i] in g.nodes && g.nodes[queue'[i]].kind != k
    requires queue[0] == node || (queue[0] in g.nodes && g.nodes[queue[0]].kind != k)
    ensures forall x :: x in visited' ==> x == node || (x in g.nodes && g.nodes[x].kind != k)
    ensures node in visited' || node in queue'
    ensures ParentsIn(g, visited' + queue', set x | x in queue')
  {
    var cur := queue[0];
    assert queue == [cur] + queue[1..];
    assert node in visited' || node in queue' by {
      if node in queue && node != cur { assert node in queue[1..]; }
    }
    var open0 := set x | x in queue;
    var open := set x | x in queue';
    forall x, e | x in visited' + queue' && x !in open && e in g.edges && e.t == x && e.dep.etype == Child
      ensures e.s in visited' + queue'
    {
      if x == cur {
        assert e.s in visited' || e.s in queue';
      } else {
        assert x in visited;
        assert x !in open0;
        assert e.s in visited + queue;
        if e.s in queue && e.s != cur { assert e.s in queue[1..]; }
      }
    }
  }

  /** When the queue runs dry without results, no unit of kind `k` lies above `node`. */
  lemma ParentExhausted(g: Graph, node: NodeId, k: CuType, onlyFirst: bool, visited: seq<NodeId>, pops: nat)
    requires ParentInv(g, node, k, onlyFirst, visited, [], [], pops)
    ensures !HasAncestorOfKind(g, node, k)
  {
    if HasAncestorOfKind(g, node, k) {
      var a :| a in g.nodes && g.nodes[a].kind == k && ProperAncestor(g, a, node);
      var p :| ChildPath(g, p) && |p| >= 2 && p[0] == a && p[|p| - 1] == node;
      assert visited + [] == visited;
      assert (set x: NodeId | x in []) == {};
      PathInClosed(g, visited, {}, p);
      NotOwnAncestor(g, node);
    }
  }

  /** The result count stays within `ParentBound(g)`. */
  lemma WithinParentBound(g: Graph, node: NodeId, pops: nat, n: nat)
    requires Wf(g) && node in g.nodes
    requires pops <= Pow(Base(g), Height(g, node)) && n <= pops * |g.edges|
    ensures n <= ParentBound(g)
  {
    PowMonotone(Base(g), Height(g, node), Top(g));
    MulMonotone(pops, Pow(Base(g), Top(g)), |g.edges|);
  }

  /** The inner loop of `__get_parent_of_type` over the fresh edges of `cur`. */
  method ScanEdges(g: Graph, tmp: seq<Edge>, k: CuType, onlyFirst: bool, cur: NodeId, st: Scan) returns (r: Scan)
    requires forall e :: e in tmp ==> e.s in g.nodes
    requires !st.early
    ensures r == ParentScan(g, tmp, k, onlyFirst, cur, st)
  {
    r := st;
    var j := 0;
    while j < |tmp|
      invariant 0 <= j <= |tmp| && !r.early
      invariant ParentScan(g, tmp[j..], k, onlyFirst, cur, r) == ParentScan(g, tmp, k, onlyFirst, cur, st)
    {
      assert tmp[j..][1..] == tmp[j + 1..];
      var e := tmp[j];
      assert e in tmp;
      if g.nodes[e.s].kind == k {
        if onlyFirst {
          return Scan(true, r.visited, r.queue, [(e.s, cur)]);
        }
        r := r.(visited := r.visited + [e.s], res := r.res + [(e.s, cur)]);
      } else if e.s !in r.visited {
        r := r.(queue := r.queue + [e.s]);
      }
      j := j + 1;
    }
  }

  /** What `__get_parent_of_type` promises about its result. */
  ghost predicate ParentResult(g: Graph, node: NodeId, k: CuType, onlyFirst: bool, res: seq<(NodeId, NodeId)>)
    requires Wf(g)
  {
    && (forall pr :: pr in res ==> ParentPair(g, node, k, pr) && ProperAncestor(g, pr.0, node))
    && (res == [] <==> !HasAncestorOfKind(g, node, k))
    && (onlyFirst ==> |res| <= 1)
    && |res| <= ParentBound(g)
  }

  lemma ParentStart(g: Graph, node: NodeId, k: CuType, onlyFirst: bool)
    requires Wf(g) && node in g.nodes
    ensures ParentInv(g, node, k, onlyFirst, [], [node], [], 0)
  {
    assert Descendant(g, node, node) by { assert ChildPath(g, [node]); }
    assert QueueWeight(g, Base(g), [node]) == Pow(Base(g), Height(g, node));
  }

  /** A result returned at once is a sound single result. */
  lemma ParentEarly(g: Graph, node: NodeId, k: CuType, res: seq<(NodeId, NodeId)>)
    requires Wf(g) && node in g.nodes && |res| == 1 && ParentPair(g, node, k, res[0])
    ensures ParentResult(g, node, k, true, res) && ParentResult(g, node, k, false, res)
  {
    ParentPairAbove(g, node, k, res[0]);
    assert IsChildEdge(g, res[0].0, res[0].1);
    assert |g.edges| >= 1;
    OneWithinBound(g);
    assert forall pr :: pr in res ==> pr == res[0];
  }

  lemma OneWithinBound(g: Graph)
    requires Wf(g) && |g.edges| >= 1
    ensures 1 <= ParentBound(g)
  {
    var p := Pow(Base(g), Top(g));
    assert p >= 1;
    MulMonotone(1, |g.edges|, p);
  }

  /** The search ends with the promised result once the queue is empty. */
  lemma ParentDone(g: Graph, node: NodeId, k: CuType, onlyFirst: bool, visited: seq<NodeId>,
                   res: seq<(NodeId, NodeId)>, pops: nat)
    requires ParentInv(g, node, k, onlyFirst, visited, [], res, pops)
    ensures ParentResult(g, node, k, onlyFirst, res)
  {
    if res == [] {
      ParentExhausted(g, node, k, onlyFirst, visited, pops);
    } else {
      ParentPairAbove(g, node, k, res[0]);
    }
    forall pr | pr in res ensures ProperAncestor(g, pr.0, node) {
      ParentPairAbove(g, node, k, pr);
    }
    WithinParentBound(g, node, pops, |res|);
  }

  /** The rest of the search of `__get_parent_of_type` from a given state. */
  function ParentSearch(g: Graph, node: NodeId, k: CuType, onlyFirst: bool,
                        visited: seq<NodeId>, queue: seq<NodeId>, res: seq<(NodeId, NodeId)>, ghost pops: nat)
    : seq<(NodeId, NodeId)>
    requires ParentInv(g, node, k, onlyFirst, visited, queue, res, pops)
    decreases QueueWeight(g, Base(g), queue)
  {
    if |queue| == 0 then res
    else
      ParentRound(g, node, k, onlyFirst, visited, queue, res, pops);
      var r := RoundScan(g, k, onlyFirst, visited, queue, res);
      if r.early then r.res else ParentSearch(g, node, k, onlyFirst, r.visited, r.queue, r.res, pops + 1)
  }

  /** The whole search of `__get_parent_of_type(pet, node, k, 'child', onlyFirst)`. */
  function ParentsOfType(g: Graph, node: NodeId, k: CuType, onlyFirst: bool): seq<(NodeId, NodeId)>
    requires Wf(g) && node in g.nodes
  {
    ParentStart(g, node, k, onlyFirst);
    ParentSearch(g, node, k, onlyFirst, [], [node], [], 0)
  }

  /** One unfolding of `ParentSearch`. */
  lemma ParentSearchStep(g: Graph, node: NodeId, k: CuType, onlyFirst: bool,
                         visited: seq<NodeId>, queue: seq<NodeId>, res: seq<(NodeId, NodeId)>, pops: nat)
    requires ParentInv(g, node, k, onlyFirst, visited, queue, res, pops) && |queue| > 0
    ensures var r := RoundScan(g, k, onlyFirst, visited, queue, res);
            && (r.early ==> ParentSearch(g, node, k, onlyFirst, visited, queue, res, pops) == r.res
                            && |r.res| == 1 && ParentPair(g, node, k, r.res[0]))
            && (!r.early ==> ParentInv(g, node, k, onlyFirst, r.visited, r.queue, r.res, pops + 1)
                             && QueueWeight(g, Base(g), r.queue) < QueueWeight(g, Base(g), queue)
                             && ParentSearch(g, node, k, onlyFirst, visited, queue, res, pops)
                                == ParentSearch(g, node, k, onlyFirst, r.visited, r.queue, r.res, pops + 1))
  {
    ParentRound(g, node, k, onlyFirst, visited, queue, res, pops);
  }

  lemma {:induction false} ParentSearchResult(g: Graph, node: NodeId, k: CuType, onlyFirst: bool,
                                              visited: seq<NodeId>, queue: seq<NodeId>, res: seq<(NodeId, NodeId)>, pops: nat)
    requires ParentInv(g, node, k, onlyFirst, visited, queue, res, pops)
    ensures ParentResult(g, node, k, onlyFirst, ParentSearch(g, node, k, onlyFirst, visited, queue, res, pops))
    decreases QueueWeight(g, Base(g), queue), 1
  {
    if |queue| == 0 {
      ParentSearchEnds(g, node, k, onlyFirst, visited, queue, res, pops);
    } else {
      var r := RoundScan(g, k, onlyFirst, visited, queue, res);
      if r.early {
        ParentSearchEnds(g, node, k, onlyFirst, visited, queue, res, pops);
      } else {
        ParentSearchResultOn(g, node, k, onlyFirst, visited, queue, res, pops);
      }
    }
  }

  /** `ParentSearchResult` for a round that goes on searching. */
  lemma {:induction false} ParentSearchResultOn(g: Graph, node: NodeId, k: CuType, onlyFirst: bool,
                                                visited: seq<NodeId>, queue: seq<NodeId>, res: seq<(NodeId, NodeId)>, pops: nat)
    requires ParentInv(g, node, k, onlyFirst, visited, queue, res, pops)
    requires |queue| > 0 && !RoundScan(g, k, onlyFirst, visited, queue, res).early
    ensures ParentResult(g, node, k, onlyFirst, ParentSearch(g, node, k, onlyFirst, visited, queue, res, pops))
    decreases QueueWeight(g, Base(g), queue), 0
  {
    ParentSearchStep(g, node, k, onlyFirst, visited, queue, res, pops);
    var r := RoundScan(g, k, onlyFirst, visited, queue, res);
    ParentSearchResult(g, node, k, onlyFirst, r.visited, r.queue, r.res, pops + 1);
  }

  /** The search result when it stops in this round. */
  lemma ParentSearchEnds(g: Graph, node: NodeId, k: CuType, onlyFirst: bool,
                         visited: seq<NodeId>, queue: seq<NodeId>, res: seq<(NodeId, NodeId)>, pops: nat)
    requires ParentInv(g, node, k, onlyFirst, visited, queue, res, pops)
    requires |queue| == 0 || RoundScan(g, k, onlyFirst, visited, queue, res).early
    ensures ParentResult(g, node, k, onlyFirst, ParentSearch(g, node, k, onlyFirst, visited, queue, res, pops))
  {
    if |queue| == 0 {
      ParentDone(g, node, k, onlyFirst, visited, res, pops);
    } else {
      ParentSearchStep(g, node, k, onlyFirst, visited, queue, res, pops);
      ParentEarly(g, node, k, RoundScan(g, k, onlyFirst, visited, queue, res).res);
    }
  }

  /** Every result of the search is a proper ancestor of kind `k`; there is a
      result exactly when such an ancestor exists; `onlyFirst` gives at most one. */
  lemma ParentsOfTypeResult(g: Graph, node: NodeId, k: CuType, onlyFirst: bool)
    requires Wf(g) && node in g.nodes
    ensures ParentResult(g, node, k, onlyFirst, ParentsOfType(g, node, k, onlyFirst))
  {
    ParentStart(g, node, k, onlyFirst);
    ParentSearchResult(g, node, k, onlyFirst, [], [node], [], 0);
  }

  /** `__get_parent_of_type(pet, node, k, 'child', onlyFirst)`: breadth-first up
      the CHILD edges from `node`; each parent of kind `k` met is returned with
      the unit it was reached from, and the search does not go above it. */
  method GetParentOfType(g: Graph, node: NodeId, k: CuType, onlyFirst: bool) returns (res: seq<(NodeId, NodeId)>)
    requires Wf(g) && node in g.nodes
    ensures res == ParentsOfType(g, node, k, onlyFirst)
    ensures ParentResult(g, node, k, onlyFirst, res)
  {
    var visited: seq<NodeId> := [];
    var queue := [node];
    res := [];
    ghost var pops: nat := 0;
    ParentStart(g, node, k, onlyFirst);
    ParentsOfTypeResult(g, node, k, onlyFirst);
    while |queue| > 0
      invariant ParentInv(g, node, k, onlyFirst, visited, queue, res, pops)
      invariant ParentSearch(g, node, k, onlyFirst, visited, queue, res, pops) == ParentsOfType(g, node, k, onlyFirst)
      decreases QueueWeight(g, Base(g), queue)
    {
      ParentSearchStep(g, node, k, onlyFirst, visited, queue, res, pops);
      var cur := queue[0];
      visited := visited + [cur];
      var tmp := FreshSources(InEdges(g, cur, Some(Child)), visited);
      var r := ScanEdges(g, tmp, k, onlyFirst, cur, Scan(false, visited, queue[1..], res));
      if r.early {
        return r.res;
      }
      visited, queue, res := r.visited, r.queue, r.res;
      pops := pops + 1;
    }
  }
}
