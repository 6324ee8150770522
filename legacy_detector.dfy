/** The legacy `PatternDetector` (pattern_detection.py): its passes over the loops
    and functions of the graph, which write the `pipeline`, `reduction`, `doAll`,
    `mwType` and `geomDecomp` vertex properties, and the edge merge that runs first. */
module LegacyDetector {
  import opened Wrappers
  import opened PetGraph
  import opened PetState
  import opened PatternQueries
  import opened MwTypes
  import opened LoopIterations
  import opened GeometricDecomposition
  import opened LegacyVectors

  // ------------------------------------------------------------------ main node

  /** The first node of `order` named `main`: `self.main_node`, absent when there is none. */
  function FirstNamed(g: Graph, order: seq<NodeId>, name: string): (r: Option<NodeId>)
    requires forall n :: n in order ==> n in g.nodes
    ensures r.Some? ==> r.value in order && g.nodes[r.value].name == name
    ensures r.Some? ==> exists i :: 0 <= i < |order| && order[i] == r.value &&
                          forall j :: 0 <= j < i ==> g.nodes[order[j]].name != name
    ensures r.None? <==> forall n :: n in order ==> g.nodes[n].name != name
  {
    if order == [] then None
    else if g.nodes[order[0]].name == name then
      Some(order[0])
    else
      var r := FirstNamed(g, order[1..], name);
      assert forall n :: n in order <==> n == order[0] || n in order[1..];
      if r.Some? then
        var i :| 0 <= i < |order| - 1 && order[1..][i] == r.value &&
                 forall j :: 0 <= j < i ==> g.nodes[order[1..][j]].name != name;
        assert forall j :: 0 <= j < i + 1 ==> g.nodes[order[j]].name != name by {
          forall j | 0 <= j < i + 1 ensures g.nodes[order[j]].name != name {
            if j > 0 { assert order[j] == order[1..][j - 1]; }
          }
        }
        r
      else r
  }

  // ---------------------------------------------------------------------- merge

  /** A CHILD edge from a non-dummy node to a dummy node: what `__merge(False, True)` removes. */
  predicate DummyChild(g: Graph, e: Edge) {
    && e.dep.etype == Child
    && e.s in g.nodes && e.t in g.nodes
    && g.nodes[e.s].kind != Dummy && g.nodes[e.t].kind == Dummy
  }

  /** The edges of `es`, in order, except dummy children leaving a node of `done`. */
  function KeepEdges(g: Graph, es: seq<Edge>, done: set<NodeId>): (r: seq<Edge>)
    decreases |es|
  {
    if es == [] then []
    else
      var e := es[|es| - 1];
      KeepEdges(g, es[..|es| - 1], done) + (if e.s in done && DummyChild(g, e) then [] else [e])
  }

  lemma {:induction false} KeepEdgesMembers(g: Graph, es: seq<Edge>, done: set<NodeId>)
    ensures forall e :: e in KeepEdges(g, es, done) <==> e in es && !(e.s in done && DummyChild(g, e))
    decreases |es|
  {
    if es != [] {
      KeepEdgesMembers(g, es[..|es| - 1], done);
      assert forall e :: e in es <==> e in es[..|es| - 1] || e == es[|es| - 1];
    }
  }

  /** Filtering the sources one node at a time gives the same edges as filtering them at once. */
  lemma {:induction false} KeepEdgesTwice(g: Graph, es: seq<Edge>, done: set<NodeId>, n: NodeId)
    ensures KeepEdges(g, KeepEdges(g, es, done), {n}) == KeepEdges(g, es, done + {n})
    decreases |es|
  {
    if es != [] {
      var init := es[..|es| - 1];
      var e := es[|es| - 1];
      var k := KeepEdges(g, init, done);
      KeepEdgesTwice(g, init, done, n);
      if e.s in done && DummyChild(g, e) {
        assert k + [] == k;
        assert KeepEdges(g, es, done) == k;
        assert KeepEdges(g, init, done + {n}) + [] == KeepEdges(g, init, done + {n});
        assert KeepEdges(g, es, done + {n}) == KeepEdges(g, init, done + {n});
      } else {
        assert (k + [e])[..|k + [e]| - 1] == k;
      }
    }
  }

  /** The graph after `__merge(False, True)`: every CHILD edge from a non-dummy node to a
      dummy node is gone and every other edge stays, in order. */
  function Merged(g: Graph): (r: Graph)
  {
    g.(edges := KeepEdges(g, g.edges, g.nodes.Keys))
  }

  lemma MergedEdges(g: Graph)
    ensures Merged(g).nodes == g.nodes && Merged(g).order == g.order
    ensures forall e :: e in Merged(g).edges <==> e in g.edges && !DummyChild(g, e)
    ensures Wf(g) ==> Wf(Merged(g))
  {
    KeepEdgesMembers(g, g.edges, g.nodes.Keys);
    if Wf(g) {
      FewerEdgesWf(g, Merged(g).edges);
    }
  }

  /** After the merge no dummy node is the child of a non-dummy node. */
  lemma MergedHasNoDummyChild(g: Graph)
    ensures forall e :: e in Merged(g).edges ==> !DummyChild(Merged(g), e)
  {
    MergedEdges(g);
  }

  /** Merging twice removes nothing more. */
  lemma MergeIdempotent(g: Graph)
    ensures Merged(Merged(g)) == Merged(g)
  {
    var m := Merged(g);
    MergedEdges(g);
    KeepEdgesSame(m, m.edges, m.nodes.Keys);
  }

  lemma {:induction false} KeepEdgesSame(g: Graph, es: seq<Edge>, done: set<NodeId>)
    requires forall e :: e in es ==> !(e.s in done && DummyChild(g, e))
    ensures KeepEdges(g, es, done) == es
    decreases |es|
  {
    if es != [] {
      var init := es[..|es| - 1];
      var e := es[|es| - 1];
      assert es == init + [e];
      forall x | x in init
        ensures !(x.s in done && DummyChild(g, x))
      {
        assert x in es;
      }
      KeepEdgesSame(g, init, done);
    }
  }

  // ----------------------------------------------------------------- specifications

  /** The relation `is_depending(a, b, root)` among the stages `subs` of a loop. */
  function StageDep(g: Graph, root: NodeId, subs: seq<NodeId>): (dep: (NodeId, NodeId) -> bool)
    requires Wf(g) && root in g.nodes && forall v :: v in subs ==> v in g.nodes
    ensures forall a, b :: a in subs && b in subs ==> (dep(a, b) <==> IsDepending(g, a, b, root))
  {
    (a, b) => a in subs && b in subs && IsDepending(g, a, b, root)
  }

  /** The legacy `depends` relation over all nodes. */
  function DependsRel(g: Graph): (dep: (NodeId, NodeId) -> bool)
    requires Wf(g)
    ensures forall a, b :: a in g.nodes && b in g.nodes ==> (dep(a, b) <==> Depends(g, a, b))
  {
    (a, b) => a in g.nodes && b in g.nodes && Depends(g, a, b)
  }

  /** The value `__detect_pipeline(root)` returns. */
  function PipelineSpec(g: Graph, root: NodeId): PipelineValue
    requires Wf(g) && root in g.nodes
  {
    var st := Stages(g, root);
    if |st| < 2 then Score(0.0)
    else
      var (gv, pv) := PipelineVectors(StageDep(g, root, st), st);
      Cosine(gv, pv)
  }

  /** The vector of `__detect_do_all(root)`. */
  function DoAllSpec(g: Graph, root: NodeId): seq<real>
    requires Wf(g) && root in g.nodes
  {
    var subs := ChildSubnodes(g, root);
    DoAllVector(StageDep(g, root, subs), subs, 0)
  }

  /** `__detect_reduction(root)`. */
  predicate ReductionSpec(g: Graph, facts: seq<ReductionFact>, root: NodeId)
    requires Wf(g) && root in g.nodes
  {
    && g.nodes[root].kind == Loop
    && exists cu, v :: cu in SubtreeOfType(g, root, Cu) &&
                       v in g.nodes[cu].localVars + g.nodes[cu].globalVars &&
                       IsReductionVar(facts, StartPosition(g.nodes[root]), v.name)
  }

  /** `__detect_pipeline(root)` is 0 exactly when there are fewer than two stages. */
  lemma PipelineSpecZero(g: Graph, root: NodeId)
    requires Wf(g) && root in g.nodes
    ensures |Stages(g, root)| < 2 <==> PipelineSpec(g, root) == Score(0.0)
  {
  }

  /** With two stages or more, both vectors have one entry per stage, the graph vector
      marks each stage that depends on the one before it, the pipeline vector starts with
      ones, and the final pair is (0, 0) exactly when no dependence lowers the weight. */
  lemma PipelineSpecVectors(g: Graph, root: NodeId)
    requires Wf(g) && root in g.nodes && |Stages(g, root)| >= 2
    ensures var st := Stages(g, root);
            var v := PipelineSpec(g, root);
            && v.Cosine? && |v.graphVector| == |st| && |v.pipelineVector| == |st|
            && (forall i :: 0 <= i < |st| - 1 ==> v.pipelineVector[i] == 1.0)
            && (forall i :: 0 <= i < |st| - 1 ==>
                  v.graphVector[i] == if IsDepending(g, st[i + 1], st[i], root) then 1.0 else 0.0)
            && ((v.graphVector[|st| - 1], v.pipelineVector[|st| - 1]) == (0.0, 0.0) <==>
                  forall a, b :: !Candidate(StageDep(g, root, st), st, a, b))
  {
    var st := Stages(g, root);
    var dep := StageDep(g, root, st);
    PipelineVectorsShape(dep, st);
    var (gv, pv) := PipelineVectors(dep, st);
    assert PipelineSpec(g, root) == Cosine(gv, pv);
    forall i | 0 <= i < |st| - 1
      ensures gv[i] == if IsDepending(g, st[i + 1], st[i], root) then 1.0 else 0.0
    {
      assert st[i] in st && st[i + 1] in st;
    }
  }

  /** The do-all vector has `n (n + 1) / 2` entries for `n` children. */
  lemma DoAllSpecLength(g: Graph, root: NodeId)
    requires Wf(g) && root in g.nodes
    ensures 2 * |DoAllSpec(g, root)| == |ChildSubnodes(g, root)| * (|ChildSubnodes(g, root)| + 1)
  {
    var subs := ChildSubnodes(g, root);
    DoAllVectorFullLength(StageDep(g, root, subs), subs);
  }

  /** The entry of the do-all vector for the children `a <= b` is 0 exactly when the
      first depends on the second. */
  lemma DoAllSpecMeaning(g: Graph, root: NodeId, a: nat, b: nat)
    requires Wf(g) && root in g.nodes && a <= b < |ChildSubnodes(g, root)|
    ensures var subs := ChildSubnodes(g, root);
            var k := RowStart(|subs|, 0, a) + (b - a);
            k < |DoAllSpec(g, root)| &&
            DoAllSpec(g, root)[k] == if IsDepending(g, subs[a], subs[b], root) then 0.0 else 1.0
  {
    var subs := ChildSubnodes(g, root);
    var dep := StageDep(g, root, subs);
    assert subs[a] in subs && subs[b] in subs;
    DoAllVectorFullEntry(DoAllSpec(g, root), dep, subs, a, b, IsDepending(g, subs[a], subs[b], root));
    assert RowStart(|subs|, 0, a) + (b - a) < |DoAllSpec(g, root)|;
    assert DoAllSpec(g, root)[RowStart(|subs|, 0, a) + (b - a)] == if IsDepending(g, subs[a], subs[b], root) then 0.0 else 1.0;
  }

  /** `find_vertex(type, k)`: the nodes of kind `k` in vertex order. */
  function NodesOfKind(g: Graph, order: seq<NodeId>, k: CuType): (r: seq<NodeId>)
    requires forall n :: n in order ==> n in g.nodes
    ensures forall n :: n in r <==> n in order && g.nodes[n].kind == k
  {
    if order == [] then []
    else
      var rest := NodesOfKind(g, order[1..], k);
      assert forall n :: n in order <==> n == order[0] || n in order[1..];
      if g.nodes[order[0]].kind == k then [order[0]] + rest else rest
  }

  /** Every LOOP holds the value of `__detect_pipeline`; every other node keeps its value. */
  ghost predicate PipelinesStored(g: Graph, p0: map<NodeId, PipelineValue>, p: map<NodeId, PipelineValue>) {
    && Wf(g)
    && forall n :: n in g.nodes ==>
         n in p0 && n in p && p[n] == if g.nodes[n].kind == Loop then PipelineSpec(g, n) else p0[n]
  }

  /** The value of `__detect_pipeline` for every node. */
  ghost function PipelineWant(g: Graph): (m: map<NodeId, PipelineValue>)
    requires Wf(g)
    ensures m.Keys == g.nodes.Keys
  {
    map n | n in g.nodes :: PipelineSpec(g, n)
  }

  /** The keys in `xs` map to `want`, every other key of `keys` to its value in `p0`. */
  ghost predicate UpTo<V>(keys: set<NodeId>, xs: seq<NodeId>, want: map<NodeId, V>, p0: map<NodeId, V>, p: map<NodeId, V>)
    requires keys <= want.Keys
  {
    forall n :: n in keys ==> n in p0 && n in p && p[n] == if n in xs then want[n] else p0[n]
  }

  lemma UpToStep<V>(keys: set<NodeId>, xs: seq<NodeId>, i: nat, want: map<NodeId, V>, p0: map<NodeId, V>,
                    p: map<NodeId, V>, p': map<NodeId, V>)
    requires keys <= want.Keys && i < |xs| && xs[i] in keys
    requires UpTo(keys, xs[..i], want, p0, p)
    requires p'.Keys == p.Keys && p'[xs[i]] == want[xs[i]]
    requires forall n :: n in p' && n != xs[i] ==> p'[n] == p[n]
    ensures UpTo(keys, xs[..i + 1], want, p0, p')
  {
    assert xs[..i + 1] == xs[..i] + [xs[i]];
  }

  /** `s` is `s0` plus the members of `xs` that are in `want`. */
  ghost predicate MarkedUpTo(s: set<NodeId>, s0: set<NodeId>, xs: seq<NodeId>, want: set<NodeId>) {
    forall n :: n in s <==> n in s0 || (n in xs && n in want)
  }

  lemma MarkedStep(s: set<NodeId>, s0: set<NodeId>, xs: seq<NodeId>, i: nat, want: set<NodeId>, b: bool)
    requires i < |xs| && MarkedUpTo(s, s0, xs[..i], want) && (b <==> xs[i] in want)
    ensures MarkedUpTo(if b then s + {xs[i]} else s, s0, xs[..i + 1], want)
  {
    assert xs[..i + 1] == xs[..i] + [xs[i]];
  }

  lemma MarkedWhole(s: set<NodeId>, s0: set<NodeId>, xs: seq<NodeId>, want: set<NodeId>)
    requires MarkedUpTo(s, s0, xs[..|xs|], want)
    ensures MarkedUpTo(s, s0, xs, want)
  {
    assert xs[..|xs|] == xs;
  }

  lemma PipelinesWhole(g: Graph, loops: seq<NodeId>, p0: map<NodeId, PipelineValue>, p: map<NodeId, PipelineValue>)
    requires Wf(g) && forall n :: n in loops <==> n in g.order && g.nodes[n].kind == Loop
    requires forall n :: n in g.nodes <==> n in g.order
    requires UpTo(g.nodes.Keys, loops[..|loops|], PipelineWant(g), p0, p)
    ensures PipelinesStored(g, p0, p)
  {
    assert loops[..|loops|] == loops;
  }

  /** The reduction flag is added exactly on the loops where `__detect_reduction` holds. */
  ghost predicate ReductionsMarked(g: Graph, facts: seq<ReductionFact>, r0: set<NodeId>, r: set<NodeId>) {
    && Wf(g)
    && forall n :: n in r <==> n in r0 || (n in g.nodes && ReductionSpec(g, facts, n))
  }

  /** The do-all flag is added exactly on the loops whose score exceeds 0.9. */
  ghost predicate DoAllMarked(g: Graph, d0: set<NodeId>, d: set<NodeId>) {
    && Wf(g)
    && forall n :: n in d <==> n in d0 || (n in g.nodes && g.nodes[n].kind == Loop && DoAllExceeds(DoAllSpec(g, n)))
  }

  /** The geometric-decomposition flag is added exactly on the functions the legacy
      predicate accepts. */
  ghost predicate GdMarked(g: Graph, doAll: set<NodeId>, reduction: set<NodeId>, gd0: set<NodeId>, gd: set<NodeId>) {
    && Wf(g)
    && forall n :: n in gd <==> n in gd0 || (n in g.nodes && g.nodes[n].kind == Func && LegacyGdPredicate(g, doAll, reduction, n))
  }

  /** Every non-dummy node has a role other than NONE. */
  ghost predicate RolesAssigned(g: Graph, m: map<NodeId, MwType>) {
    forall n :: n in g.nodes && g.nodes[n].kind != Dummy ==> n in m && m[n] != MwNone
  }

  function SetOf(s: seq<NodeId>): set<NodeId> {
    set n | n in s
  }

  lemma SetOfStep(s: seq<NodeId>, i: nat)
    requires i < |s|
    ensures SetOf(s[..i + 1]) == SetOf(s[..i]) + {s[i]}
  {
    assert s[..i + 1] == s[..i] + [s[i]];
  }

  lemma SetOfWhole(order: seq<NodeId>, g: Graph)
    requires forall n :: n in g.nodes <==> n in order
    ensures SetOf(order[..|order|]) == g.nodes.Keys
  {
    assert order[..|order|] == order;
  }

  // ------------------------------------------------------------------- detector

  class PatternDetector {
    const pet: Pet
    const cache: IterationCache
    const loopData: map<string, int>
    const reductionVars: seq<ReductionFact>
    const mainNode: Option<NodeId>

    /** The graph is well-formed, the iteration memo agrees with it, and the memo reads
        iteration counts from `loop_data` (0 for a line without an entry). */
    ghost predicate Valid()
      reads pet`g, pet`mwType, pet`pipeline, cache
    {
      && pet.Valid()
      && cache.Consistent(pet.g)
      && cache.iters == LegacyIters(loopData)
    }

    constructor (pet0: Pet, loopData0: map<string, int>, reductionVars0: seq<ReductionFact>)
      requires pet0.Valid()
      ensures Valid()
      ensures pet == pet0 && loopData == loopData0 && reductionVars == reductionVars0
      ensures cache.memo == map[]
      ensures mainNode == FirstNamed(pet0.g, pet0.g.order, "main")
    {
      pet := pet0;
      loopData := loopData0;
      reductionVars := reductionVars0;
      cache := new IterationCache(LegacyIters(loopData0));
      mainNode := FirstNamed(pet0.g, pet0.g.order, "main");
    }

    /** `__merge(False, True)`: each non-dummy node loses its CHILD edges to dummy nodes. */
    method Merge()
      requires Valid() && cache.memo == map[]
      modifies pet`g
      ensures Valid()
      ensures pet.g == Merged(old(pet.g))
    {
      MergedEdges(pet.g);
      MergeNodes(pet.g);
    }

    /** The loop of `__merge` over the vertices. */
    method MergeNodes(ghost g0: Graph)
      requires pet.g == g0 && forall n :: n in g0.nodes <==> n in g0.order
      modifies pet`g
      ensures pet.g == Merged(g0)
    {
      var order := pet.g.order;
      KeepEdgesSame(g0, g0.edges, {});
      assert SetOf(order[..0]) == {};
      for i := 0 to |order|
        invariant pet.g == g0.(edges := KeepEdges(g0, g0.edges, SetOf(order[..i])))
      {
        MergeStep(order, i, g0);
      }
      SetOfWhole(order, g0);
    }

    /** One vertex of `__merge`: its dummy children are dropped when it is not a dummy itself. */
    method MergeStep(order: seq<NodeId>, i: nat, ghost g0: Graph)
      requires i < |order|
      requires pet.g == g0.(edges := KeepEdges(g0, g0.edges, SetOf(order[..i])))
      modifies pet`g
      ensures pet.g == g0.(edges := KeepEdges(g0, g0.edges, SetOf(order[..i + 1])))
    {
      var node := order[i];
      ghost var before := KeepEdges(g0, g0.edges, SetOf(order[..i]));
      if node in pet.g.nodes && pet.g.nodes[node].kind != Dummy {
        MergeAt(node, g0);
      } else {
        KeepEdgesSame(g0, before, {node});
      }
      KeepEdgesTwice(g0, g0.edges, SetOf(order[..i]), node);
      SetOfStep(order, i);
    }

    /** The inner loop of `__merge` for one non-dummy node. */
    method MergeAt(node: NodeId, ghost g0: Graph)
      requires pet.g.nodes == g0.nodes
      modifies pet`g
      ensures pet.g == old(pet.g).(edges := KeepEdges(g0, old(pet.g).edges, {node}))
    {
      var es := pet.g.edges;
      var kept := [];
      var k := 0;
      while k < |es|
        invariant 0 <= k <= |es|
        invariant kept == KeepEdges(g0, es[..k], {node})
      {
        var e := es[k];
        assert es[..k + 1][..k] == es[..k];
        if !(e.s == node && e.dep.etype == Child && e.t in pet.g.nodes && pet.g.nodes[e.t].kind == Dummy
             && e.s in pet.g.nodes && pet.g.nodes[e.s].kind != Dummy) {
          kept := kept + [e];
        }
        k := k + 1;
      }
      assert es[..k] == es;
      pet.g := pet.g.(edges := kept);
    }

    /** `__detect_pipeline(root)`: with fewer than two stages it writes -1 and returns 0. */
    method DetectPipeline(root: NodeId) returns (v: PipelineValue)
      requires pet.Valid() && root in pet.g.nodes
      modifies pet`pipeline
      ensures pet.g == old(pet.g)
      ensures v == PipelineSpec(pet.g, root)
      ensures pet.pipeline.Keys == old(pet.pipeline).Keys
      ensures pet.pipeline[root] == if |Stages(pet.g, root)| < 2 then Score(-1.0) else old(pet.pipeline)[root]
      ensures forall n :: n in pet.pipeline && n != root ==> pet.pipeline[n] == old(pet.pipeline)[n]
    {
      var st := Stages(pet.g, root);
      if |st| < 2 {
        pet.SetPipeline(root, Score(-1.0));
        return Score(0.0);
      }
      var graphVector, pipelineVector := BuildPipelineVectors(StageDep(pet.g, root, st), st);
      v := Cosine(graphVector, pipelineVector);
    }

    /** `__detect_pipeline_loop`, one loop: the stored value is the one returned. */
    method PipelineAt(node: NodeId)
      requires pet.Valid() && node in pet.g.nodes
      modifies pet`pipeline
      ensures pet.g == old(pet.g) && pet.Valid()
      ensures pet.pipeline.Keys == old(pet.pipeline).Keys
      ensures pet.pipeline[node] == PipelineSpec(pet.g, node)
      ensures forall n :: n in pet.pipeline && n != node ==> pet.pipeline[n] == old(pet.pipeline)[n]
    {
      var v := DetectPipeline(node);
      pet.SetPipeline(node, v);
    }

    /** `__detect_pipeline_loop`: every LOOP gets the value of `__detect_pipeline`. */
    method DetectPipelineLoop()
      requires Valid()
      modifies pet`pipeline
      ensures pet.g == old(pet.g) && Valid()
      ensures PipelinesStored(pet.g, old(pet.pipeline), pet.pipeline)
    {
      ghost var p0 := pet.pipeline;
      ghost var g := pet.g;
      ghost var want := PipelineWant(g);
      var loops := NodesOfKind(pet.g, pet.g.order, Loop);
      for i := 0 to |loops|
        invariant Valid() && pet.g == g
        invariant UpTo(g.nodes.Keys, loops[..i], want, p0, pet.pipeline)
      {
        PipelineNext(loops, i, g, want, p0);
      }
      PipelinesWhole(g, loops, p0, pet.pipeline);
    }

    /** One round of `__detect_pipeline_loop`. */
    method PipelineNext(loops: seq<NodeId>, i: nat, ghost g: Graph, ghost want: map<NodeId, PipelineValue>,
                        ghost p0: map<NodeId, PipelineValue>)
      requires Valid() && pet.g == g && want == PipelineWant(g) && i < |loops| && loops[i] in g.nodes
      requires UpTo(g.nodes.Keys, loops[..i], want, p0, pet.pipeline)
      modifies pet`pipeline
      ensures pet.g == g && Valid() && UpTo(g.nodes.Keys, loops[..i + 1], want, p0, pet.pipeline)
    {
      ghost var p := pet.pipeline;
      PipelineAt(loops[i]);
      UpToStep(g.nodes.Keys, loops, i, want, p0, p, pet.pipeline);
    }

    /** `__detect_reduction(root)`. */
    method DetectReduction(root: NodeId) returns (r: bool)
      requires Valid() && root in pet.g.nodes
      ensures r == ReductionSpec(pet.g, reductionVars, root)
    {
      if pet.g.nodes[root].kind != Loop {
        return false;
      }
      var cus := GetSubtreeOfType(pet.g, root, "0");
      GetSubtreeOfTypeAgrees(pet.g, root, Cu);
      var vars: set<string> := {};
      var k := 0;
      while k < |cus|
        invariant 0 <= k <= |cus|
        invariant vars == VarNames(pet.g, cus[..k])
      {
        var node := pet.g.nodes[cus[k]];
        VarNamesSnoc(pet.g, cus, k);
        vars := vars + (set v | v in node.localVars + node.globalVars :: v.name);
        k := k + 1;
      }
      assert cus[..k] == cus;
      var line := StartPosition(pet.g.nodes[root]);
      r := exists name | name in vars :: IsReductionVar(reductionVars, line, name);
    }

    /** `__detect_reduction_loop`: every LOOP for which `__detect_reduction` holds is marked. */
    method DetectReductionLoop()
      requires Valid()
      modifies pet`reduction
      ensures pet.g == old(pet.g) && Valid()
      ensures ReductionsMarked(pet.g, reductionVars, old(pet.reduction), pet.reduction)
    {
      ghost var r0 := pet.reduction;
      ghost var g := pet.g;
      var loops := NodesOfKind(pet.g, pet.g.order, Loop);
      ghost var want := set n | n in loops && ReductionSpec(g, reductionVars, n);
      for i := 0 to |loops|
        invariant Valid() && pet.g == g
        invariant MarkedUpTo(pet.reduction, r0, loops[..i], want)
      {
        ReductionNext(loops, i, g, want, r0);
      }
      MarkedWhole(pet.reduction, r0, loops, want);
    }

    /** One round of `__detect_reduction_loop`. */
    method ReductionNext(loops: seq<NodeId>, i: nat, ghost g: Graph, ghost want: set<NodeId>, ghost r0: set<NodeId>)
      requires Valid() && pet.g == g && i < |loops| && loops[i] in g.nodes
      requires loops[i] in want <==> ReductionSpec(g, reductionVars, loops[i])
      requires MarkedUpTo(pet.reduction, r0, loops[..i], want)
      modifies pet`reduction
      ensures pet.g == g && Valid()
      ensures MarkedUpTo(pet.reduction, r0, loops[..i + 1], want)
    {
      var isReduction := DetectReduction(loops[i]);
      MarkedStep(pet.reduction, r0, loops, i, want, isReduction);
      if isReduction {
        pet.MarkReduction(loops[i]);
      }
    }

    /** `__detect_do_all(root)`: the 0/1 vector whose correlation with all-ones is the score. */
    method DetectDoAll(root: NodeId) returns (v: seq<real>)
      requires Valid() && root in pet.g.nodes
      ensures v == DoAllSpec(pet.g, root)
    {
      var subnodes := ChildSubnodes(pet.g, root);
      v := BuildDoAllVector(StageDep(pet.g, root, subnodes), subnodes);
    }

    /** `__detect_do_all_loop`: a LOOP is marked when its score exceeds 0.9. */
    method DetectDoAllLoop()
      requires Valid()
      modifies pet`doAll
      ensures pet.g == old(pet.g) && pet.reduction == old(pet.reduction) && Valid()
      ensures DoAllMarked(pet.g, old(pet.doAll), pet.doAll)
    {
      ghost var d0 := pet.doAll;
      ghost var g := pet.g;
      var loops := NodesOfKind(pet.g, pet.g.order, Loop);
      ghost var want := set n | n in loops && DoAllExceeds(DoAllSpec(g, n));
      for i := 0 to |loops|
        invariant Valid() && pet.g == g && pet.reduction == old(pet.reduction)
        invariant MarkedUpTo(pet.doAll, d0, loops[..i], want)
      {
        DoAllNext(loops, i, g, want, d0);
      }
      MarkedWhole(pet.doAll, d0, loops, want);
    }

    /** One round of `__detect_do_all_loop`. */
    method DoAllNext(loops: seq<NodeId>, i: nat, ghost g: Graph, ghost want: set<NodeId>, ghost d0: set<NodeId>)
      requires Valid() && pet.g == g && i < |loops| && loops[i] in g.nodes
      requires loops[i] in want <==> DoAllExceeds(DoAllSpec(g, loops[i]))
      requires MarkedUpTo(pet.doAll, d0, loops[..i], want)
      modifies pet`doAll
      ensures pet.g == g && pet.reduction == old(pet.reduction) && Valid()
      ensures MarkedUpTo(pet.doAll, d0, loops[..i + 1], want)
    {
      var v := DetectDoAll(loops[i]);
      MarkedStep(pet.doAll, d0, loops, i, want, DoAllExceeds(v));
      if DoAllExceeds(v) {
        pet.MarkDoAll(loops[i]);
      }
    }

    /** `__detect_task_parallelism_loop`: the role machine with the legacy `depends`. */
    method DetectTaskParallelismLoop()
      requires Valid()
      modifies pet`mwType
      ensures Valid()
      ensures RolesAssigned(pet.g, pet.mwType)
      ensures forall n :: n in pet.g.nodes && pet.mwType[n] == MwNone ==> old(pet.mwType)[n] == MwNone
      ensures pet.mwType == RolesAfter(pet.g, old(pet.mwType), pet.g.order, DependsRel(pet.g), false)
    {
      AssignRoles(pet, DependsRel(pet.g), false);
    }

    /** `__detect_geometric_decomposition_loop`, one function: mark it and run the chunk test. */
    method GeometricDecompositionAt(node: NodeId)
      requires Valid() && node in pet.g.nodes
      modifies pet`geomDecomp, cache`memo
      ensures pet.g == old(pet.g) && pet.doAll == old(pet.doAll) && pet.reduction == old(pet.reduction)
      ensures Valid()
      ensures pet.geomDecomp == if LegacyGdPredicate(pet.g, pet.doAll, pet.reduction, node)
                                then old(pet.geomDecomp) + {node} else old(pet.geomDecomp)
    {
      if LegacyGdPredicate(pet.g, pet.doAll, pet.reduction, node) {
        pet.MarkGeomDecomp(node);
        var fits, minIterations := cache.TestChunkLimit(pet.g, node);
      }
    }

    /** `__detect_geometric_decomposition_loop`: every FUNC accepted by the legacy predicate
        is marked (the chunk test only decides what is reported). */
    method DetectGeometricDecompositionLoop()
      requires Valid()
      modifies pet`geomDecomp, cache`memo
      ensures pet.g == old(pet.g) && pet.doAll == old(pet.doAll) && pet.reduction == old(pet.reduction)
      ensures Valid()
      ensures GdMarked(pet.g, pet.doAll, pet.reduction, old(pet.geomDecomp), pet.geomDecomp)
    {
      ghost var gd0 := pet.geomDecomp;
      ghost var g := pet.g;
      var funcs := NodesOfKind(pet.g, pet.g.order, Func);
      ghost var want := set n | n in funcs && LegacyGdPredicate(g, pet.doAll, pet.reduction, n);
      for i := 0 to |funcs|
        invariant Valid() && pet.g == g && pet.doAll == old(pet.doAll) && pet.reduction == old(pet.reduction)
        invariant MarkedUpTo(pet.geomDecomp, gd0, funcs[..i], want)
      {
        ghost var before := pet.geomDecomp;
        GeometricDecompositionAt(funcs[i]);
        MarkedStep(before, gd0, funcs, i, want, LegacyGdPredicate(g, pet.doAll, pet.reduction, funcs[i]));
      }
      MarkedWhole(pet.geomDecomp, gd0, funcs, want);
    }

    /** The three passes over the loops, in the order `detect_patterns` runs them
        (reduction before do-all). */
    method AnalyseLoops()
      requires Valid()
      modifies pet`pipeline, pet`reduction, pet`doAll
      ensures Valid()
      ensures PipelinesStored(pet.g, old(pet.pipeline), pet.pipeline)
      ensures ReductionsMarked(pet.g, reductionVars, old(pet.reduction), pet.reduction)
      ensures DoAllMarked(pet.g, old(pet.doAll), pet.doAll)
    {
      DetectPipelineLoop();
      ReductionAndDoAll();
    }

    /** The reduction pass, then the do-all pass. */
    method ReductionAndDoAll()
      requires Valid()
      modifies pet`reduction, pet`doAll
      ensures Valid()
      ensures ReductionsMarked(pet.g, reductionVars, old(pet.reduction), pet.reduction)
      ensures DoAllMarked(pet.g, old(pet.doAll), pet.doAll)
    {
      DetectReductionLoop();
      ghost var reduction := pet.reduction;
      DetectDoAllLoop();
      assert pet.reduction == reduction;
    }

    /** The passes of `detect_patterns` after the merge. */
    method AnalyseMerged()
      requires Valid()
      modifies pet`pipeline, pet`reduction, pet`doAll, pet`mwType, pet`geomDecomp, cache`memo
      ensures Valid()
      ensures PipelinesStored(pet.g, old(pet.pipeline), pet.pipeline)
      ensures ReductionsMarked(pet.g, reductionVars, old(pet.reduction), pet.reduction)
      ensures DoAllMarked(pet.g, old(pet.doAll), pet.doAll)
      ensures RolesAssigned(pet.g, pet.mwType)
      ensures GdMarked(pet.g, pet.doAll, pet.reduction, old(pet.geomDecomp), pet.geomDecomp)
      ensures pet.mwType == RolesAfter(pet.g, old(pet.mwType), pet.g.order, DependsRel(pet.g), false)
    {
      AnalyseLoops();
      DetectTasksAndDecomposition();
    }

    /** The last two passes of `detect_patterns`. */
    method DetectTasksAndDecomposition()
      requires Valid()
      modifies pet`mwType, pet`geomDecomp, cache`memo
      ensures Valid()
      ensures RolesAssigned(pet.g, pet.mwType)
      ensures GdMarked(pet.g, pet.doAll, pet.reduction, old(pet.geomDecomp), pet.geomDecomp)
      ensures pet.mwType == RolesAfter(pet.g, old(pet.mwType), pet.g.order, DependsRel(pet.g), false)
    {
      DetectTaskParallelismLoop();
      ghost var mwType := pet.mwType;
      DetectGeometricDecompositionLoop();
      assert pet.mwType == mwType;
    }

    /** `detect_patterns`: merge, then pipeline, reduction, do-all, task parallelism and
        geometric decomposition, each pass reading the graph the merge left. */
    method DetectPatterns()
      requires Valid() && cache.memo == map[]
      modifies pet`g, pet`pipeline, pet`reduction, pet`doAll, pet`mwType, pet`geomDecomp, cache`memo
      ensures Valid()
      ensures pet.g == Merged(old(pet.g))
      ensures PipelinesStored(pet.g, old(pet.pipeline), pet.pipeline)
      ensures ReductionsMarked(pet.g, reductionVars, old(pet.reduction), pet.reduction)
      ensures DoAllMarked(pet.g, old(pet.doAll), pet.doAll)
      ensures RolesAssigned(pet.g, pet.mwType)
      ensures GdMarked(pet.g, pet.doAll, pet.reduction, old(pet.geomDecomp), pet.geomDecomp)
      ensures pet.mwType == RolesAfter(pet.g, old(pet.mwType), pet.g.order, DependsRel(pet.g), false)
    {
      Merge();
      AnalyseMerged();
    }
  }

  /** The names of the local and global variables of the units `cus`. */
  function VarNames(g: Graph, cus: seq<NodeId>): (r: set<string>)
    requires forall c :: c in cus ==> c in g.nodes
    ensures forall x :: x in r <==> exists c, v :: c in cus && v in g.nodes[c].localVars + g.nodes[c].globalVars && v.name == x
  {
    if cus == [] then {}
    else
      var init := cus[..|cus| - 1];
      var last := g.nodes[cus[|cus| - 1]];
      assert forall c :: c in cus <==> c in init || c == cus[|cus| - 1];
      VarNames(g, init) + (set v | v in last.localVars + last.globalVars :: v.name)
  }

  /** One more CU adds its variable names. */
  lemma VarNamesSnoc(g: Graph, cus: seq<NodeId>, k: nat)
    requires (forall c :: c in cus ==> c in g.nodes) && k < |cus|
    ensures forall c :: c in cus[..k + 1] ==> c in g.nodes
    ensures VarNames(g, cus[..k + 1]) ==
              VarNames(g, cus[..k]) + (set v | v in g.nodes[cus[k]].localVars + g.nodes[cus[k]].globalVars :: v.name)
  {
    assert cus[..k + 1][..k] == cus[..k];
    assert forall c :: c in cus[..k + 1] ==> c in cus;
  }
}
