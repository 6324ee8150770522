/** Geometric decomposition: the qualifying predicate on a loop's subtree, the
    suggestion record with its task-count bucketing, and the detection pass over
    all loops (graph_analyzer/pattern_detectors/geometric_decomposition_detector.py),
    together with the legacy predicate of pattern_detection.py. */
module GeometricDecomposition {
  import opened Wrappers
  import opened PetGraph
  import opened PetState
  import opened PatternQueries
  import opened LoopIterations

  /** A loop that is marked do-all or reduction. */
  predicate Marked(doAll: set<NodeId>, reduction: set<NodeId>, l: NodeId) {
    l in doAll || l in reduction
  }

  /** `__detect_geometric_decomposition(root)`: no LOOP of the subtree (root included)
      and no LOOP child of a direct FUNC child is marked do-all or reduction. */
  function GdPredicate(g: Graph, doAll: set<NodeId>, reduction: set<NodeId>, root: NodeId): (r: bool)
    requires Wf(g) && root in g.nodes
    ensures r ==> forall l :: l in SubtreeOfType(g, root, Loop) ==> !Marked(doAll, reduction, l)
  {
    && (forall l :: l in SubtreeOfType(g, root, Loop) ==> !Marked(doAll, reduction, l))
    && (forall f, l :: f in DirectChildrenOfType(g, root, Func) && l in DirectChildrenOfType(g, f, Loop) ==>
          !Marked(doAll, reduction, l))
  }

  /** The predicate holds exactly when no LOOP below `root` is marked: the loop children
      of FUNC children lie in the subtree already, so the second check adds nothing. */
  lemma GdPredicateMeaning(g: Graph, doAll: set<NodeId>, reduction: set<NodeId>, root: NodeId)
    requires Wf(g) && root in g.nodes
    ensures GdPredicate(g, doAll, reduction, root) <==>
            forall l :: l in g.nodes && g.nodes[l].kind == Loop && Descendant(g, root, l) ==> !Marked(doAll, reduction, l)
  {
    forall l ensures l in SubtreeOfType(g, root, Loop) <==> l in g.nodes && g.nodes[l].kind == Loop && Descendant(g, root, l) {
      SubtreeOfTypeMembers(g, root, Loop, l);
    }
    forall f, l | f in DirectChildrenOfType(g, root, Func) && l in DirectChildrenOfType(g, f, Loop)
      ensures l in SubtreeOfType(g, root, Loop)
    {
      ChildEdgeBelow(g, root, f);
      ChildEdgeBelow(g, f, l);
      DescendantTrans(g, root, f, l);
      SubtreeOfTypeMembers(g, root, Loop, l);
    }
  }

  /** The legacy `__detect_geometric_decomposition(root)` over the graph-tool labels: every
      LOOP of the subtree must be do-all or reduction; the second loop asks
      `find_subnodes(root, '1')`, which selects edges labelled '1', of which there are none. */
  function LegacyGdPredicate(g: Graph, doAll: set<NodeId>, reduction: set<NodeId>, root: NodeId): (r: bool)
    requires Wf(g) && root in g.nodes
  {
    && (forall l :: l in GetSubtreeOfType(g, root, "2") ==> Marked(doAll, reduction, l))
    && (forall f, l :: f in FindSubnodes(g, root, "1") && l in FindSubnodes(g, f, "2") ==> Marked(doAll, reduction, l))
  }

  /** The legacy predicate asks the opposite of the new one: every subtree loop marked. */
  lemma LegacyGdPredicateMeaning(g: Graph, doAll: set<NodeId>, reduction: set<NodeId>, root: NodeId)
    requires Wf(g) && root in g.nodes
    ensures LegacyGdPredicate(g, doAll, reduction, root) <==>
            forall l :: l in SubtreeOfType(g, root, Loop) ==> Marked(doAll, reduction, l)
  {
    GetSubtreeOfTypeAgrees(g, root, Loop);
    FindSubnodesByTypeCodeIsEmpty(g, root, Func);
  }

  /** Whenever the subtree holds a loop, the two versions never both accept. */
  lemma OppositePolarity(g: Graph, doAll: set<NodeId>, reduction: set<NodeId>, root: NodeId)
    requires Wf(g) && root in g.nodes && SubtreeOfType(g, root, Loop) != []
    ensures !(GdPredicate(g, doAll, reduction, root) && LegacyGdPredicate(g, doAll, reduction, root))
  {
    LegacyGdPredicateMeaning(g, doAll, reduction, root);
    assert SubtreeOfType(g, root, Loop)[0] in SubtreeOfType(g, root, Loop);
  }

  /** The `num_tasks` bucketing of an estimate `nt`. */
  function NumTasks(nt: real): (r: int)
    ensures nt >= 1000.0 ==> r % 100 == 0 && r as real <= nt < r as real + 100.0
    ensures 100.0 <= nt < 1000.0 ==> r % 10 == 0 && r as real <= nt < r as real + 10.0
    ensures 0.0 <= nt < 100.0 ==> r as real <= nt < r as real + 1.0
    ensures nt < 0.0 ==> r == 2
    ensures r >= 0
  {
    if nt >= 1000.0 then (nt / 100.0).Floor * 100
    else if nt >= 100.0 then (nt / 10.0).Floor * 10
    else if nt < 0.0 then 2
    else nt.Floor
  }

  /** What `classify_task_vars` returns for a node. */
  datatype TaskVars = TaskVars(
    firstPrivate: seq<Variable>,
    privateVars: seq<Variable>,
    shared: seq<Variable>,
    inDep: seq<Variable>,
    outDep: seq<Variable>,
    inOutDep: seq<Variable>,
    reduction: seq<string>)

  /** The helpers whose code is not part of this model: `get_child_loops`,
      `classify_task_vars`, and the estimate `nt` computed from the minimum
      iteration count and the node's workload. */
  datatype GdExternals = GdExternals(
    childLoops: NodeId -> (seq<NodeId>, seq<NodeId>),
    classify: NodeId -> TaskVars,
    estimate: (NodeId, int) -> real)

  /** `GDInfo`: a geometric-decomposition suggestion. */
  datatype GdInfo = GdInfo(
    node: NodeId,
    doAllChildren: seq<NodeId>,
    reductionChildren: seq<NodeId>,
    minIterNumber: int,
    numTasks: int,
    pragma: string,
    firstPrivate: seq<Variable>,
    privateVars: seq<Variable>,
    lastPrivate: seq<Variable>,
    shared: seq<Variable>,
    reduction: seq<string>)

  /** `GDInfo.__init__(pet, node, min_iter)`. */
  function MakeGdInfo(node: NodeId, minIter: int, ext: GdExternals): (info: GdInfo)
    ensures info.node == node && info.minIterNumber == minIter
    ensures |info.firstPrivate| >= 1 && info.firstPrivate[|info.firstPrivate| - 1] == Variable("int", "i")
    ensures info.firstPrivate[..|info.firstPrivate| - 1] == ext.classify(node).firstPrivate
    ensures info.lastPrivate == []
    ensures info.numTasks == NumTasks(ext.estimate(node, minIter))
  {
    var vars := ext.classify(node);
    var fp := vars.firstPrivate + [Variable("int", "i")];
    assert fp[..|fp| - 1] == vars.firstPrivate;
    GdInfo(node, ext.childLoops(node).0, ext.childLoops(node).1, minIter,
           NumTasks(ext.estimate(node, minIter)),
           "for (i = 0; i < num-tasks; i++) #pragma omp task",
           fp, vars.privateVars, [], vars.shared, vars.reduction)
  }

  /** The chunk test's verdict for `node`, as `__test_chunk_limit` computes it. */
  function ChunkOk(g: Graph, node: NodeId, iters: string -> int): bool
    requires Wf(g) && node in g.nodes
  {
    var m := ChunkMap(g, ChunkChildren(g, node), iters);
    m != map[] && forall k :: k in m ==> m[k] > 0
  }

  /** The loops of `order` that pass the predicate, in order. */
  function Passing(g: Graph, doAll: set<NodeId>, reduction: set<NodeId>, order: seq<NodeId>): (r: seq<NodeId>)
    requires Wf(g) && forall n :: n in order ==> n in g.nodes
    ensures forall n :: n in r ==> n in g.nodes
  {
    if order == [] then []
    else
      var n := order[|order| - 1];
      Passing(g, doAll, reduction, order[..|order| - 1]) +
        (if g.nodes[n].kind == Loop && GdPredicate(g, doAll, reduction, n) then [n] else [])
  }

  /** The passing loops whose chunk test also succeeds: the nodes of the suggestions. */
  function Found(g: Graph, doAll: set<NodeId>, reduction: set<NodeId>, order: seq<NodeId>, iters: string -> int): (r: seq<NodeId>)
    requires Wf(g) && forall n :: n in order ==> n in g.nodes
    ensures forall n :: n in r ==> n in g.nodes
  {
    if order == [] then []
    else
      var n := order[|order| - 1];
      Found(g, doAll, reduction, order[..|order| - 1], iters) +
        (if g.nodes[n].kind == Loop && GdPredicate(g, doAll, reduction, n) && ChunkOk(g, n, iters) then [n] else [])
  }

  /** The marked loops are exactly the LOOP nodes that pass the predicate, and the
      suggestions are exactly those among them whose chunk test succeeds. */
  lemma {:induction false} PassingAndFoundMembers(g: Graph, doAll: set<NodeId>, reduction: set<NodeId>, order: seq<NodeId>, iters: string -> int, x: NodeId)
    requires Wf(g) && forall n :: n in order ==> n in g.nodes
    ensures x in Passing(g, doAll, reduction, order) <==> x in order && g.nodes[x].kind == Loop && GdPredicate(g, doAll, reduction, x)
    ensures x in Found(g, doAll, reduction, order, iters) <==> x in Passing(g, doAll, reduction, order) && ChunkOk(g, x, iters)
  {
    if order != [] {
      var init, last := order[..|order| - 1], order[|order| - 1];
      assert order == init + [last];
      PassingAndFoundMembers(g, doAll, reduction, init, iters, x);
      PassingFoundSnoc(g, doAll, reduction, init, last, iters);
      assert x in order <==> x in init || x == last;
    }
  }

  lemma PassingFoundSnoc(g: Graph, doAll: set<NodeId>, reduction: set<NodeId>, xs: seq<NodeId>, n: NodeId, iters: string -> int)
    requires Wf(g) && n in g.nodes && forall x :: x in xs ==> x in g.nodes
    ensures var passes := g.nodes[n].kind == Loop && GdPredicate(g, doAll, reduction, n);
            && Passing(g, doAll, reduction, xs + [n]) == Passing(g, doAll, reduction, xs) + (if passes then [n] else [])
            && Found(g, doAll, reduction, xs + [n], iters) ==
                 Found(g, doAll, reduction, xs, iters) + (if passes && ChunkOk(g, n, iters) then [n] else [])
  {
    assert (xs + [n])[..|xs|] == xs;
  }

  /** `result` holds one suggestion per node of `found`, in order, each built from the
      minimum of its chunk test. */
  ghost predicate SuggestionsFor(g: Graph, found: seq<NodeId>, result: seq<GdInfo>, iters: string -> int, ext: GdExternals) {
    && |result| == |found|
    && forall j :: 0 <= j < |result| ==> Suggestion(g, found[j], result[j], iters, ext)
  }

  /** `info` is the suggestion for `node`. */
  ghost predicate Suggestion(g: Graph, node: NodeId, info: GdInfo, iters: string -> int, ext: GdExternals) {
    && Wf(g) && node in g.nodes
    && info.node == node
    && MinOf(Finite(info.minIterNumber), ChunkMap(g, ChunkChildren(g, node), iters))
    && info == MakeGdInfo(node, info.minIterNumber, ext)
  }

  /** `run_detection(pet)`: every LOOP that passes the predicate is marked, and it becomes
      a suggestion only when its chunk test succeeds as well. */
  method RunDetection(pet: Pet, cache: IterationCache, ext: GdExternals) returns (result: seq<GdInfo>)
    requires cache.Consistent(pet.g)
    modifies pet`geomDecomp, cache`memo
    ensures cache.Consistent(pet.g)
    ensures forall n :: n in pet.geomDecomp <==> n in old(pet.geomDecomp) || n in Passing(pet.g, pet.doAll, pet.reduction, pet.g.order)
    ensures SuggestionsFor(pet.g, Found(pet.g, pet.doAll, pet.reduction, pet.g.order, cache.iters), result, cache.iters, ext)
  {
    result := [];
    var order := pet.g.order;
    ghost var g, doAll, reduction, iters := pet.g, pet.doAll, pet.reduction, cache.iters;
    ghost var marked0 := pet.geomDecomp;
    ProgressStart(g, doAll, reduction, iters, ext, marked0);
    assert order[..0] == [];
    var i := 0;
    while i < |order|
      invariant 0 <= i <= |order|
      invariant pet.g == g && pet.doAll == doAll && pet.reduction == reduction && cache.iters == iters
      invariant cache.Consistent(g)
      invariant Progress(g, doAll, reduction, iters, ext, marked0, pet.geomDecomp, order[..i], result)
    {
      result := VisitNode(pet, cache, ext, marked0, order[..i], order[i], result);
      assert order[..i + 1] == order[..i] + [order[i]];
      i := i + 1;
    }
    assert order[..i] == order;
  }

  /** One turn of the loop of `run_detection`: the node is tested, marked, and
      its suggestion appended when the chunk test succeeds. */
  method VisitNode(pet: Pet, cache: IterationCache, ext: GdExternals, ghost marked0: set<NodeId>,
                   ghost xs: seq<NodeId>, node: NodeId, result: seq<GdInfo>) returns (result': seq<GdInfo>)
    requires cache.Consistent(pet.g) && node in pet.g.nodes
    requires Progress(pet.g, pet.doAll, pet.reduction, cache.iters, ext, marked0, pet.geomDecomp, xs, result)
    modifies pet`geomDecomp, cache`memo
    ensures pet.g == old(pet.g) && pet.doAll == old(pet.doAll) && pet.reduction == old(pet.reduction)
    ensures cache.Consistent(pet.g)
    ensures Progress(pet.g, pet.doAll, pet.reduction, cache.iters, ext, marked0, pet.geomDecomp, xs + [node], result')
  {
    ghost var marked := pet.geomDecomp;
    var info := DetectAt(pet, cache, ext, node);
    ProgressStep(pet.g, pet.doAll, pet.reduction, cache.iters, ext, marked0, marked, pet.geomDecomp, xs, node, result, info);
    result' := if info.Some? then result + [info.value] else result;
  }

  /** The marks and suggestions after visiting the nodes `xs`. */
  ghost predicate Progress(g: Graph, doAll: set<NodeId>, reduction: set<NodeId>, iters: string -> int, ext: GdExternals,
                           marked0: set<NodeId>, marked: set<NodeId>, xs: seq<NodeId>, result: seq<GdInfo>) {
    && Wf(g) && (forall n :: n in xs ==> n in g.nodes)
    && (forall n :: n in marked <==> n in marked0 || n in Passing(g, doAll, reduction, xs))
    && SuggestionsFor(g, Found(g, doAll, reduction, xs, iters), result, iters, ext)
  }

  lemma ProgressStart(g: Graph, doAll: set<NodeId>, reduction: set<NodeId>, iters: string -> int, ext: GdExternals, marked0: set<NodeId>)
    requires Wf(g)
    ensures Progress(g, doAll, reduction, iters, ext, marked0, marked0, [], [])
  {
    assert Passing(g, doAll, reduction, []) == [] && Found(g, doAll, reduction, [], iters) == [];
  }

  lemma ProgressStep(g: Graph, doAll: set<NodeId>, reduction: set<NodeId>, iters: string -> int, ext: GdExternals,
                     marked0: set<NodeId>, marked: set<NodeId>, marked': set<NodeId>, xs: seq<NodeId>, node: NodeId,
                     result: seq<GdInfo>, info: Option<GdInfo>)
    requires Progress(g, doAll, reduction, iters, ext, marked0, marked, xs, result) && node in g.nodes
    requires var passes := g.nodes[node].kind == Loop && GdPredicate(g, doAll, reduction, node);
             && marked' == marked + (if passes then {node} else {})
             && (info.Some? <==> passes && ChunkOk(g, node, iters))
    requires info.Some? ==> Suggestion(g, node, info.value, iters, ext)
    ensures Progress(g, doAll, reduction, iters, ext, marked0, marked', xs + [node],
                     if info.Some? then result + [info.value] else result)
  {
    SuggestionsStep(g, doAll, reduction, xs, node, iters, ext, result, info);
  }

  /** One step of the loop of `run_detection` keeps the marks and the suggestions in step
      with the nodes visited so far. */
  lemma SuggestionsStep(g: Graph, doAll: set<NodeId>, reduction: set<NodeId>, xs: seq<NodeId>, node: NodeId,
                        iters: string -> int, ext: GdExternals, result: seq<GdInfo>, info: Option<GdInfo>)
    requires Wf(g) && node in g.nodes && forall x :: x in xs ==> x in g.nodes
    requires SuggestionsFor(g, Found(g, doAll, reduction, xs, iters), result, iters, ext)
    requires info.Some? <==> g.nodes[node].kind == Loop && GdPredicate(g, doAll, reduction, node) && ChunkOk(g, node, iters)
    requires info.Some? ==> Suggestion(g, node, info.value, iters, ext)
    ensures SuggestionsFor(g, Found(g, doAll, reduction, xs + [node], iters),
                           if info.Some? then result + [info.value] else result, iters, ext)
    ensures var passes := g.nodes[node].kind == Loop && GdPredicate(g, doAll, reduction, node);
            Passing(g, doAll, reduction, xs + [node]) == Passing(g, doAll, reduction, xs) + (if passes then [node] else [])
  {
    PassingFoundSnoc(g, doAll, reduction, xs, node, iters);
    if info.Some? {
      SuggestionsSnoc(g, Found(g, doAll, reduction, xs, iters), result, node, info.value, iters, ext);
    }
  }

  lemma SuggestionsSnoc(g: Graph, found: seq<NodeId>, result: seq<GdInfo>, n: NodeId, info: GdInfo, iters: string -> int, ext: GdExternals)
    requires Wf(g) && n in g.nodes && forall x :: x in found ==> x in g.nodes
    requires SuggestionsFor(g, found, result, iters, ext) && Suggestion(g, n, info, iters, ext)
    ensures SuggestionsFor(g, found + [n], result + [info], iters, ext)
  {
    var found', result' := found + [n], result + [info];
    forall j | 0 <= j < |result'| ensures Suggestion(g, found'[j], result'[j], iters, ext) {
      if j < |found| {
        assert found'[j] == found[j] && result'[j] == result[j];
      }
    }
  }

  /** The body of the loop of `run_detection` for one node. */
  method DetectAt(pet: Pet, cache: IterationCache, ext: GdExternals, node: NodeId) returns (info: Option<GdInfo>)
    requires cache.Consistent(pet.g) && node in pet.g.nodes
    modifies pet`geomDecomp, cache`memo
    ensures cache.Consistent(pet.g)
    ensures var passes := pet.g.nodes[node].kind == Loop && GdPredicate(pet.g, pet.doAll, pet.reduction, node);
            && pet.geomDecomp == old(pet.geomDecomp) + (if passes then {node} else {})
            && (info.Some? <==> passes && ChunkOk(pet.g, node, cache.iters))
    ensures info.Some? ==> Suggestion(pet.g, node, info.value, cache.iters, ext)
  {
    info := None;
    if pet.g.nodes[node].kind == Loop && GdPredicate(pet.g, pet.doAll, pet.reduction, node) {
      pet.geomDecomp := pet.geomDecomp + {node};
      var test, minIter := cache.TestChunkLimit(pet.g, node);
      if test {
        info := Some(MakeGdInfo(node, minIter.n, ext));
      }
    }
  }

  // ------------------------------------------------------- the code as written

  /** `run_detection` as written: the first LOOP the predicate accepts is handed to
      `__test_chunk_limit`, whose `node.out_edges()` is a graph-tool vertex method that
      a CuNode does not have, so the call raises AttributeError. With no accepted loop
      the result is the empty list. */
  function RunDetectionAsWritten(g: Graph, doAll: set<NodeId>, reduction: set<NodeId>, order: seq<NodeId>)
    : (r: Result<seq<GdInfo>>)
    requires Wf(g) && forall n :: n in order ==> n in g.nodes
    ensures r.Err? <==> exists n :: n in order && g.nodes[n].kind == Loop && GdPredicate(g, doAll, reduction, n)
    ensures r.Err? ==> r.error.AttributeError?
    ensures r.Ok? ==> r.value == []
    decreases |order|
  {
    if order == [] then Ok([])
    else if g.nodes[order[0]].kind == Loop && GdPredicate(g, doAll, reduction, order[0]) then
      Err(AttributeError("'CuNode' object has no attribute 'out_edges'"))
    else
      var r := RunDetectionAsWritten(g, doAll, reduction, order[1..]);
      assert forall n :: n in order <==> n == order[0] || n in order[1..];
      r
  }

  /** A graph of one LOOP unit and no edges. */
  function OneLoop(): Graph {
    Graph(["1:1"], map["1:1" := Node("1:1", 1, 1, Loop, 1, 2, 5, "loop", 0, -1, [], [], [])], [])
  }

  /** A witness: on a single unmarked loop the code as written raises, while the
      intended detection marks that loop. */
  lemma AsWrittenRaisesOnOneLoop()
    ensures Wf(OneLoop())
    ensures RunDetectionAsWritten(OneLoop(), {}, {}, OneLoop().order).Err?
    ensures Passing(OneLoop(), {}, {}, OneLoop().order) == ["1:1"]
  {
    var g := OneLoop();
    assert RankedBy(g, map["1:1" := 0]);
    assert GdPredicate(g, {}, {}, "1:1");
    assert g.order[..0] == [];
  }
}
