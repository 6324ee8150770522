/** Iteration-count arithmetic shared by the geometric-decomposition detector and
    the legacy detector: the iterations of the nearest enclosing loop, a loop's
    iterations per iteration of that parent, the memo that caches them, and the
    chunk-limit test over the inner loops of a node
    (geometric_decomposition_detector.py:100-166, pattern_detection.py:435-504). */
module LoopIterations {
  import opened Wrappers
  import opened PetGraph

  /** The sources of the CHILD edges into `n`, in edge order. */
  function ChildParents(g: Graph, n: NodeId): (r: seq<NodeId>)
    ensures forall p :: p in r <==> IsChildEdge(g, p, n)
  {
    var es := InEdges(g, n, Some(Child));
    var r := Sources(es);
    assert forall p :: p in r ==> IsChildEdge(g, p, n) by {
      forall p | p in r ensures IsChildEdge(g, p, n) {
        var i :| 0 <= i < |r| && r[i] == p;
        assert es[i] in es;
      }
    }
    assert forall p :: IsChildEdge(g, p, n) ==> p in r by {
      forall p | IsChildEdge(g, p, n) ensures p in r {
        var e :| e in g.edges && e.s == p && e.t == n && e.dep.etype == Child;
        var i :| 0 <= i < |es| && es[i] == e;
        assert r[i] == p;
      }
    }
    r
  }

  /** The nodes ranked above `n`: the measure that shrinks when walking up. */
  ghost function Higher(g: Graph, n: NodeId): set<NodeId>
    requires Wf(g) && n in g.nodes
  {
    set m | m in g.nodes && RankOf(g)[m] > RankOf(g)[n]
  }

  lemma HigherShrinks(g: Graph, n: NodeId, p: NodeId)
    requires Wf(g) && n in g.nodes && IsChildEdge(g, p, n)
    ensures p in g.nodes && |Higher(g, p)| < |Higher(g, n)|
  {
    var e :| e in g.edges && e.s == p && e.t == n && e.dep.etype == Child;
    assert p in g.nodes && RankOf(g)[n] < RankOf(g)[p];
    assert p in Higher(g, n) && p !in Higher(g, p);
    assert Higher(g, p) <= Higher(g, n) - {p};
    SubsetCard(Higher(g, p), Higher(g, n) - {p});
  }

  lemma {:induction false} SubsetCard(a: set<NodeId>, b: set<NodeId>)
    requires a <= b
    ensures |a| <= |b|
    decreases |a|
  {
    if a != {} {
      var x :| x in a;
      SubsetCard(a - {x}, b - {x});
    }
  }

  lemma DescendantTrans(g: Graph, a: NodeId, b: NodeId, c: NodeId)
    requires Descendant(g, a, b) && Descendant(g, b, c)
    ensures Descendant(g, a, c)
  {
    var p :| ChildPath(g, p) && p[0] == a && p[|p| - 1] == b;
    var q :| ChildPath(g, q) && q[0] == b && q[|q| - 1] == c;
    var pq := p + q[1..];
    forall j | 0 <= j < |pq| - 1 ensures IsChildEdge(g, pq[j], pq[j + 1]) {
      if j < |p| - 1 {
        assert pq[j] == p[j] && pq[j + 1] == p[j + 1];
      } else {
        assert pq[j] == q[j - |p| + 1] && pq[j + 1] == q[j - |p| + 2];
      }
    }
    assert ChildPath(g, pq) && pq[0] == a && pq[|pq| - 1] == c;
  }

  /** The loop reached by following the first CHILD parent upward, step by step. */
  function NearestLoopAbove(g: Graph, n: NodeId): (r: Option<NodeId>)
    requires Wf(g) && n in g.nodes
    ensures r.Some? ==> r.value in g.nodes && g.nodes[r.value].kind == Loop
    ensures r.Some? ==> Descendant(g, r.value, n) && r.value != n
    decreases |Higher(g, n)|
  {
    var ps := ChildParents(g, n);
    if ps == [] then None
    else
      HigherShrinks(g, n, ps[0]);
      ChildEdgeBelow(g, ps[0], n);
      if g.nodes[ps[0]].kind == Loop then Some(ps[0])
      else
        var r := NearestLoopAbove(g, ps[0]);
        if r.Some? then
          DescendantTrans(g, r.value, ps[0], n);
          assert RankOf(g)[r.value] >= RankOf(g)[ps[0]] by { DescendantRank(g, r.value, ps[0]); }
          var e :| e in g.edges && e.s == ps[0] && e.t == n && e.dep.etype == Child;
          r
        else r
  }

  /** Ranks never increase down a CHILD path. */
  lemma DescendantRank(g: Graph, a: NodeId, b: NodeId)
    requires Wf(g) && Descendant(g, a, b) && a in g.nodes
    ensures b in g.nodes && RankOf(g)[b] <= RankOf(g)[a]
  {
    var p :| ChildPath(g, p) && p[0] == a && p[|p| - 1] == b;
    var k := 0;
    while k < |p| - 1
      invariant 0 <= k <= |p| - 1
      invariant p[k] in g.nodes && RankOf(g)[p[k]] <= RankOf(g)[a]
    {
      assert IsChildEdge(g, p[k], p[k + 1]);
      var e :| e in g.edges && e.s == p[k] && e.t == p[k + 1] && e.dep.etype == Child;
      k := k + 1;
    }
  }

  /** `__get_parent_iterations`: the iterations of that loop, at least 1; 1 without one. */
  function ParentIterations(g: Graph, n: NodeId, iters: string -> int): (r: int)
    requires Wf(g) && n in g.nodes
  {
    match NearestLoopAbove(g, n)
    case None => 1
    case Some(l) => if iters(StartPosition(g.nodes[l])) > 1 then iters(StartPosition(g.nodes[l])) else 1
  }

  /** The parent factor is never below 1, and it is the loop's own count when that is at least 1. */
  lemma ParentIterationsAtLeastOne(g: Graph, n: NodeId, iters: string -> int)
    requires Wf(g) && n in g.nodes
    ensures ParentIterations(g, n, iters) >= 1
    ensures NearestLoopAbove(g, n).None? ==> ParentIterations(g, n, iters) == 1
    ensures forall l :: NearestLoopAbove(g, n) == Some(l) && iters(StartPosition(g.nodes[l])) >= 1 ==>
              ParentIterations(g, n, iters) == iters(StartPosition(g.nodes[l]))
  {
  }

  /** `__get_parent_iterations`: the walk up the first CHILD parents. */
  method GetParentIterations(g: Graph, n: NodeId, iters: string -> int) returns (maxIter: int)
    requires Wf(g) && n in g.nodes
    ensures maxIter == ParentIterations(g, n, iters)
  {
    var parent := ChildParents(g, n);
    var node := n;
    maxIter := 1;
    while parent != []
      invariant node in g.nodes && parent == ChildParents(g, node)
      invariant NearestLoopAbove(g, node) == NearestLoopAbove(g, n)
      invariant maxIter == 1
      decreases |Higher(g, node)|
    {
      HigherShrinks(g, node, parent[0]);
      node := parent[0];
      if g.nodes[node].kind == Loop {
        var it := iters(StartPosition(g.nodes[node]));
        maxIter := if it > 1 then it else 1;
        break;
      }
      parent := ChildParents(g, node);
    }
  }

  /** Python's `//`, which rounds toward negative infinity. */
  function FloorDiv(a: int, b: int): (q: int)
    requires b != 0
    ensures b > 0 ==> q * b <= a < q * b + b
  {
    if b > 0 then a / b else (-a) / (-b)
  }

  /** The branches of `__iterations_count` for a loop count and a parent count. */
  function IterationsFor(loopIter: int, parentIter: int): (r: int)
  {
    if loopIter < parentIter then loopIter
    else if loopIter == 0 || parentIter == 0 then 0
    else FloorDiv(loopIter, parentIter)
  }

  /** With a parent factor of at least 1, a non-negative count stays between 0 and
      itself and is 0 exactly when the loop count is. */
  lemma IterationsForBounds(loopIter: int, parentIter: int)
    requires loopIter >= 0 && parentIter >= 1
    ensures 0 <= IterationsFor(loopIter, parentIter) <= loopIter
    ensures IterationsFor(loopIter, parentIter) == 0 <==> loopIter == 0
  {
    if loopIter >= parentIter {
      var q := FloorDiv(loopIter, parentIter);
      assert q >= 1;
      assert q <= loopIter;
    }
  }

  /** The value `__iterations_count(node)` caches for a loop. */
  function IterationsValue(g: Graph, n: NodeId, iters: string -> int): int
    requires Wf(g) && n in g.nodes
  {
    IterationsFor(iters(StartPosition(g.nodes[n])), ParentIterations(g, n, iters))
  }

  lemma IterationsValueBounds(g: Graph, n: NodeId, iters: string -> int)
    requires Wf(g) && n in g.nodes && iters(StartPosition(g.nodes[n])) >= 0
    ensures 0 <= IterationsValue(g, n, iters) <= iters(StartPosition(g.nodes[n]))
    ensures IterationsValue(g, n, iters) == 0 <==> iters(StartPosition(g.nodes[n])) == 0
  {
    ParentIterationsAtLeastOne(g, n, iters);
    IterationsForBounds(iters(StartPosition(g.nodes[n])), ParentIterations(g, n, iters));
  }

  /** The legacy detector's loop counts: `loop_data.get(line, 0)`. */
  function LegacyIters(loopData: map<string, int>): (f: string -> int)
    ensures forall l :: l in loopData ==> f(l) == loopData[l]
    ensures forall l :: l !in loopData ==> f(l) == 0
  {
    (l: string) => if l in loopData then loopData[l] else 0
  }

  /** The smallest value of a map, or infinity for the empty map (`math.inf`). */
  datatype Bound = Finite(n: int) | Infinity

  /** The memo of `__iterations_count` (the detector's `loop_iterations` dict or the
      module-level `__loop_iterations` cache) together with the loop-count source. */
  class IterationCache {
    var memo: map<NodeId, int>
    const iters: string -> int

    /** Every cached entry is the value the count would compute for that node. */
    ghost predicate Consistent(g: Graph)
      reads this
    {
      Wf(g) && forall k :: k in memo ==> k in g.nodes && memo[k] == IterationsValue(g, k, iters)
    }

    constructor (iters0: string -> int)
      ensures memo == map[] && iters == iters0
    {
      memo := map[];
      iters := iters0;
    }

    /** `__iterations_count(node)`: computed on the first call, read from the memo after. */
    method IterationsCount(g: Graph, node: NodeId) returns (r: int)
      requires Consistent(g) && node in g.nodes
      modifies this`memo
      ensures Consistent(g)
      ensures r == IterationsValue(g, node, iters)
      ensures memo == old(memo)[node := r]
    {
      if node !in memo {
        var loopIter := iters(StartPosition(g.nodes[node]));
        var parentIter := GetParentIterations(g, node, iters);
        memo := memo[node := IterationsFor(loopIter, parentIter)];
      }
      r := memo[node];
    }

    /** `__test_chunk_limit(node)`: the counts of the inner loops keyed by start line,
        whether there are some and all are positive, and their minimum. */
    method TestChunkLimit(g: Graph, node: NodeId) returns (ok: bool, minIter: Bound)
      requires Consistent(g) && node in g.nodes
      modifies this`memo
      ensures Consistent(g)
      ensures var m := ChunkMap(g, ChunkChildren(g, node), iters);
              && MinOf(minIter, m)
              && (ok <==> m != map[] && forall k :: k in m ==> m[k] > 0)
    {
      var children := ChunkChildren(g, node);
      var innerLoopIter := InnerLoopIterations(g, children);
      minIter := MinValue(innerLoopIter);
      ok := innerLoopIter != map[] && minIter.Finite? && minIter.n > 0;
    }

    /** The loop of `__test_chunk_limit` that fills `inner_loop_iter`. */
    method InnerLoopIterations(g: Graph, children: seq<NodeId>) returns (innerLoopIter: map<string, int>)
      requires Consistent(g) && forall c :: c in children ==> c in g.nodes
      modifies this`memo
      ensures Consistent(g)
      ensures innerLoopIter == ChunkMap(g, children, iters)
    {
      innerLoopIter := map[];
      var i := 0;
      while i < |children|
        invariant 0 <= i <= |children|
        invariant Consistent(g)
        invariant innerLoopIter == ChunkMap(g, children[..i], iters)
      {
        var c := IterationsCount(g, children[i]);
        ChunkMapSnoc(g, children, i, iters);
        innerLoopIter := innerLoopIter[StartPosition(g.nodes[children[i]]) := c];
        i := i + 1;
      }
      assert children[..i] == children;
    }
  }

  /** The inner loops of `__test_chunk_limit`: the LOOP children of `node`, then the
      LOOP children of each FUNC child in turn. */
  function ChunkChildren(g: Graph, node: NodeId): (r: seq<NodeId>)
    requires Wf(g) && node in g.nodes
    ensures forall c :: c in r ==> c in g.nodes && g.nodes[c].kind == Loop
    ensures forall c :: c in r <==>
              (IsChildEdge(g, node, c) && g.nodes[c].kind == Loop) ||
              (exists f :: f in g.nodes && g.nodes[f].kind == Func && IsChildEdge(g, node, f) &&
                           IsChildEdge(g, f, c) && c in g.nodes && g.nodes[c].kind == Loop)
  {
    var funcs := DirectChildrenOfType(g, node, Func);
    var r := DirectChildrenOfType(g, node, Loop) + LoopsOfFuncs(g, funcs);
    forall c ensures c in LoopsOfFuncs(g, funcs) <==>
              exists f :: f in g.nodes && g.nodes[f].kind == Func && IsChildEdge(g, node, f) &&
                          IsChildEdge(g, f, c) && c in g.nodes && g.nodes[c].kind == Loop {
      LoopsOfFuncsMembers(g, funcs, c);
    }
    r
  }

  function LoopsOfFuncs(g: Graph, fs: seq<NodeId>): (r: seq<NodeId>)
    requires Wf(g) && forall f :: f in fs ==> f in g.nodes
    ensures forall c :: c in r ==> c in g.nodes && g.nodes[c].kind == Loop
  {
    if fs == [] then [] else DirectChildrenOfType(g, fs[0], Loop) + LoopsOfFuncs(g, fs[1..])
  }

  lemma {:induction false} LoopsOfFuncsMembers(g: Graph, fs: seq<NodeId>, c: NodeId)
    requires Wf(g) && forall f :: f in fs ==> f in g.nodes
    ensures c in LoopsOfFuncs(g, fs) <==> exists f :: f in fs && IsChildEdge(g, f, c) && c in g.nodes && g.nodes[c].kind == Loop
  {
    if fs != [] {
      LoopsOfFuncsMembers(g, fs[1..], c);
      if exists f :: f in fs && IsChildEdge(g, f, c) && c in g.nodes && g.nodes[c].kind == Loop {
        var f :| f in fs && IsChildEdge(g, f, c) && c in g.nodes && g.nodes[c].kind == Loop;
        if f != fs[0] { assert f in fs[1..]; }
      }
    }
  }

  /** The dict `inner_loop_iter` after the children in `cs`: a later loop with the same
      start line overwrites an earlier one. */
  function ChunkMap(g: Graph, cs: seq<NodeId>, iters: string -> int): map<string, int>
    requires Wf(g) && forall c :: c in cs ==> c in g.nodes
  {
    if cs == [] then map[]
    else
      var last := cs[|cs| - 1];
      ChunkMap(g, cs[..|cs| - 1], iters)[StartPosition(g.nodes[last]) := IterationsValue(g, last, iters)]
  }

  /** One more inner loop sets the count under its start line. */
  lemma ChunkMapSnoc(g: Graph, cs: seq<NodeId>, i: nat, iters: string -> int)
    requires Wf(g) && (forall c :: c in cs ==> c in g.nodes) && i < |cs|
    ensures forall c :: c in cs[..i + 1] ==> c in g.nodes
    ensures forall c :: c in cs[..i] ==> c in g.nodes
    ensures ChunkMap(g, cs[..i + 1], iters) ==
              ChunkMap(g, cs[..i], iters)[StartPosition(g.nodes[cs[i]]) := IterationsValue(g, cs[i], iters)]
  {
    assert cs[..i + 1][..i] == cs[..i];
    assert forall c :: c in cs[..i + 1] ==> c in cs;
    assert forall c :: c in cs[..i] ==> c in cs;
  }

  /** Every inner loop's start line is a key, and every key holds the count of an
      inner loop starting there (the last one). */
  lemma ChunkMapEntries(g: Graph, cs: seq<NodeId>, iters: string -> int)
    requires Wf(g) && forall c :: c in cs ==> c in g.nodes
    ensures var m := ChunkMap(g, cs, iters);
            && (forall c :: c in cs ==> StartPosition(g.nodes[c]) in m)
            && (forall k :: k in m ==> exists c :: c in cs && StartPosition(g.nodes[c]) == k && m[k] == IterationsValue(g, c, iters))
  {
    ChunkMapKeys(g, cs, iters);
    ChunkMapValues(g, cs, iters);
  }

  lemma {:induction false} ChunkMapKeys(g: Graph, cs: seq<NodeId>, iters: string -> int)
    requires Wf(g) && forall c :: c in cs ==> c in g.nodes
    ensures forall c :: c in cs ==> StartPosition(g.nodes[c]) in ChunkMap(g, cs, iters)
  {
    if cs != [] {
      var init := cs[..|cs| - 1];
      var last := cs[|cs| - 1];
      assert forall c :: c in init ==> c in cs;
      ChunkMapKeys(g, init, iters);
      assert cs == init + [last];
    }
  }

  lemma {:induction false} ChunkMapValues(g: Graph, cs: seq<NodeId>, iters: string -> int)
    requires Wf(g) && forall c :: c in cs ==> c in g.nodes
    ensures forall k :: k in ChunkMap(g, cs, iters) ==>
              exists c :: c in cs && StartPosition(g.nodes[c]) == k && ChunkMap(g, cs, iters)[k] == IterationsValue(g, c, iters)
  {
    if cs != [] {
      var init := cs[..|cs| - 1];
      var last := cs[|cs| - 1];
      assert forall c :: c in init ==> c in cs;
      ChunkMapValues(g, init, iters);
      var m0 := ChunkMap(g, init, iters);
      var key := StartPosition(g.nodes[last]);
      var m := m0[key := IterationsValue(g, last, iters)];
      assert ChunkMap(g, cs, iters) == m;
      forall k | k in m
        ensures exists c :: c in cs && StartPosition(g.nodes[c]) == k && m[k] == IterationsValue(g, c, iters)
      {
        if k != key {
          assert k in m0;
          var c :| c in init && StartPosition(g.nodes[c]) == k && m0[k] == IterationsValue(g, c, iters);
          assert c in cs;
        } else {
          assert last in cs && m[k] == IterationsValue(g, last, iters);
        }
      }
    }
  }

  /** The chunk test passes when there are inner loops and every one of them has a
      positive count; and every key of a passing test has a positive count of one of them. */
  lemma ChunkTestMeaning(g: Graph, node: NodeId, iters: string -> int)
    requires Wf(g) && node in g.nodes
    ensures var cs := ChunkChildren(g, node);
            var m := ChunkMap(g, cs, iters);
            && (m != map[] <==> cs != [])
            && ((forall c :: c in cs ==> IterationsValue(g, c, iters) > 0) ==> forall k :: k in m ==> m[k] > 0)
  {
    var cs := ChunkChildren(g, node);
    var m := ChunkMap(g, cs, iters);
    ChunkMapEntries(g, cs, iters);
    if cs != [] {
      assert StartPosition(g.nodes[cs[0]]) in m;
    }
  }

  /** `b` is the minimum of the values of `m`, infinity when `m` is empty. */
  predicate MinOf(b: Bound, m: map<string, int>) {
    && (b.Infinity? <==> m == map[])
    && (b.Finite? ==> (exists k :: k in m && m[k] == b.n) && forall k :: k in m ==> b.n <= m[k])
  }

  /** The loop `min(min_iterations_count, v)` over the dict's values. */
  method MinValue(m: map<string, int>) returns (b: Bound)
    ensures MinOf(b, m)
  {
    b := Infinity;
    var todo := m.Keys;
    while todo != {}
      invariant todo <= m.Keys
      invariant b.Infinity? <==> todo == m.Keys
      invariant b.Finite? ==> (exists k :: k in m && k !in todo && m[k] == b.n)
      invariant b.Finite? ==> forall k :: k in m && k !in todo ==> b.n <= m[k]
      decreases |todo|
    {
      var k :| k in todo;
      if b.Infinity? || m[k] < b.n {
        b := Finite(m[k]);
      }
      todo := todo - {k};
    }
  }

  /** The legacy test starts its minimum at 9999999999999 instead of infinity; over any
      dict the verdict is the same. */
  lemma LegacyChunkStartAgrees(m: map<string, int>, b: Bound)
    requires MinOf(b, m)
    ensures var legacyMin := if b.Finite? && b.n < 9999999999999 then b.n else 9999999999999;
            (m != map[] && legacyMin > 0) <==> (m != map[] && b.Finite? && b.n > 0)
  {
  }
}
