/** The read-only queries of the legacy `PatternDetector` (pattern_detection.py),
    which names node types by the codes '0'..'3' (and '*' for any) and edge
    types by the labels "child", "successor" and "dependence". */
module PatternQueries {
  import opened Wrappers
  import opened PetGraph

  /** The type code the legacy graph stores for a node kind. */
  function TypeCode(k: CuType): string {
    match k
    case Cu => "0"
    case Func => "1"
    case Loop => "2"
    case Dummy => "3"
  }

  /** The label the legacy graph stores for an edge type. */
  function EdgeLabel(et: EdgeType): string {
    match et
    case Child => "child"
    case Successor => "successor"
    case Data => "dependence"
  }

  function LabelledTargets(es: seq<Edge>, criteria: string): (r: seq<NodeId>)
    ensures forall x :: x in r <==> exists e :: e in es && EdgeLabel(e.dep.etype) == criteria && e.t == x
  {
    if es == [] then []
    else
      var rest := LabelledTargets(es[1..], criteria);
      if EdgeLabel(es[0].dep.etype) == criteria then [es[0].t] + rest else rest
  }

  /** `find_subnodes(graph, node, criteria)`: targets of the out-edges whose EDGE label is `criteria`. */
  function FindSubnodes(g: Graph, n: NodeId, criteria: string): (r: seq<NodeId>)
    ensures forall x :: x in r <==> exists e :: e in g.edges && e.s == n && EdgeLabel(e.dep.etype) == criteria && e.t == x
  {
    LabelledTargets(OutEdges(g, n, None), criteria)
  }

  /** `find_subnodes(..., 'child')` gives exactly the CHILD targets. */
  lemma FindSubnodesChild(g: Graph, n: NodeId, x: NodeId)
    ensures x in FindSubnodes(g, n, "child") <==> IsChildEdge(g, n, x)
  {
  }

  /** A type code is never an edge label: `find_subnodes(..., '1')` and
      `find_subnodes(..., '2')` are always empty. */
  lemma FindSubnodesByTypeCodeIsEmpty(g: Graph, n: NodeId, k: CuType)
    ensures FindSubnodes(g, n, TypeCode(k)) == []
  {
    assert forall et: EdgeType :: EdgeLabel(et) != TypeCode(k);
    NoLabelNoTargets(OutEdges(g, n, None), TypeCode(k));
  }

  lemma {:induction false} NoLabelNoTargets(es: seq<Edge>, criteria: string)
    requires forall e :: e in es ==> EdgeLabel(e.dep.etype) != criteria
    ensures LabelledTargets(es, criteria) == []
  {
    if es != [] {
      NoLabelNoTargets(es[1..], criteria);
    }
  }

  /** The kind filter of `get_subtree_of_type(root, type)`; '*' accepts every kind. */
  function TypeFilter(ty: string): CuType -> bool {
    (c: CuType) => ty == "*" || TypeCode(c) == ty
  }

  /** `get_subtree_of_type(root, type)`: the pre-order CHILD walk, with the '*' wildcard. */
  function GetSubtreeOfType(g: Graph, root: NodeId, ty: string): (r: seq<NodeId>)
    requires Wf(g) && root in g.nodes
    ensures forall x :: x in r ==> x in g.nodes && (ty == "*" || TypeCode(g.nodes[x].kind) == ty)
    ensures root in r <==> ty == "*" || TypeCode(g.nodes[root].kind) == ty
    ensures (ty == "*" || TypeCode(g.nodes[root].kind) == ty) ==> r[0] == root
  {
    Subtree(g, root, TypeFilter(ty))
  }

  lemma {:induction false} SubtreeSameFilter(g: Graph, root: NodeId, s1: CuType -> bool, s2: CuType -> bool)
    requires Wf(g) && root in g.nodes
    requires forall c :: s1(c) == s2(c)
    ensures Subtree(g, root, s1) == Subtree(g, root, s2)
    decreases RankOf(g)[root], 1
  {
    SubtreesSameFilter(g, root, OutEdges(g, root, Some(Child)), s1, s2);
  }

  lemma {:induction false} SubtreesSameFilter(g: Graph, parent: NodeId, es: seq<Edge>, s1: CuType -> bool, s2: CuType -> bool)
    requires Wf(g) && parent in g.nodes
    requires forall e :: e in es ==> e in g.edges && e.s == parent && e.dep.etype == Child
    requires forall c :: s1(c) == s2(c)
    ensures SubtreesOf(g, parent, es, s1) == SubtreesOf(g, parent, es, s2)
    decreases RankOf(g)[parent], 0, |es|
  {
    if es != [] {
      assert es[0] in g.edges;
      SubtreeSameFilter(g, es[0].t, s1, s2);
      SubtreesSameFilter(g, parent, es[1..], s1, s2);
    }
  }

  /** The legacy walk with a type code agrees with `PETGraphX.subtree_of_type`. */
  lemma GetSubtreeOfTypeAgrees(g: Graph, root: NodeId, k: CuType)
    requires Wf(g) && root in g.nodes
    ensures GetSubtreeOfType(g, root, TypeCode(k)) == SubtreeOfType(g, root, k)
  {
    forall c ensures TypeFilter(TypeCode(k))(c) == (c == k) {
      if c != k { assert TypeCode(c) != TypeCode(k); }
    }
    SubtreeSameFilter(g, root, TypeFilter(TypeCode(k)), (c: CuType) => c == k);
  }

  /** With '*', the walk is the whole CHILD-subtree. */
  lemma WholeSubtreeMembers(g: Graph, root: NodeId, x: NodeId)
    requires Wf(g) && root in g.nodes
    ensures x in GetSubtreeOfType(g, root, "*") <==> x in g.nodes && Descendant(g, root, x)
  {
    SubtreeMembers(g, root, TypeFilter("*"), x);
  }

  // ------------------------------------------------------------- depends

  function RawInto(es: seq<Edge>, targets: seq<NodeId>): (r: bool)
    ensures r <==> exists e :: e in es && e.dep.dtype == Some(Raw) && e.t in targets
  {
    if es == [] then false
    else (es[0].dep.dtype == Some(Raw) && es[0].t in targets) || RawInto(es[1..], targets)
  }

  function RawFromInto(g: Graph, sources: seq<NodeId>, targets: seq<NodeId>, k: nat): (r: bool)
    requires k <= |sources|
    ensures r <==> exists e :: e in g.edges && e.s in sources[k..] && e.dep.dtype == Some(Raw) && e.t in targets
    decreases |sources| - k
  {
    if k == |sources| then false
    else
      assert forall x :: x in sources[k..] <==> x == sources[k] || x in sources[k + 1..];
      RawInto(OutEdges(g, sources[k], None), targets) || RawFromInto(g, sources, targets, k + 1)
  }

  /** `PatternDetector.depends(source, target)`: false for a node and itself; otherwise
      some RAW edge leads from the whole subtree of `source` into the whole subtree of `target`. */
  function Depends(g: Graph, source: NodeId, target: NodeId): (r: bool)
    requires Wf(g) && source in g.nodes && target in g.nodes
    ensures r <==> (source != target &&
      exists e :: e in g.edges && e.dep.dtype == Some(Raw) && Descendant(g, source, e.s) && Descendant(g, target, e.t))
  {
    if source == target then false
    else
      var targetNodes := GetSubtreeOfType(g, target, "*");
      var sourceNodes := GetSubtreeOfType(g, source, "*");
      assert sourceNodes[0..] == sourceNodes;
      forall x ensures x in sourceNodes <==> x in g.nodes && Descendant(g, source, x) {
        WholeSubtreeMembers(g, source, x);
      }
      forall x ensures x in targetNodes <==> x in g.nodes && Descendant(g, target, x) {
        WholeSubtreeMembers(g, target, x);
      }
      RawFromInto(g, sourceNodes, targetNodes, 0)
  }

  // ------------------------------------------------- dependency analysis

  /** Legacy `is_loop_index(e, ...)`: judges the edge itself, not its variable. */
  predicate EdgeIsLoopIndex(e: Edge, lines: seq<string>, children: seq<NodeId>) {
    e.dep.source == e.dep.sink && e.dep.source in lines && e.t in children
  }

  /** A legacy write witness: a WAR/WAW out-edge on the variable with its sink outside the
      loop headers, or a RAW in-edge with its source outside them (no edge-type test). */
  predicate LegacyWrites(e: Edge, v: NodeId, varName: string, lines: seq<string>) {
    && e.dep.varName == varName
    && ( (e.s == v && (e.dep.dtype == Some(War) || e.dep.dtype == Some(Waw)) && e.dep.sink !in lines)
      || (e.t == v && e.dep.dtype == Some(Raw) && e.dep.source !in lines))
  }

  function AnyLegacyWrite(es: seq<Edge>, v: NodeId, varName: string, lines: seq<string>): (r: bool)
    ensures r <==> exists e :: e in es && LegacyWrites(e, v, varName, lines)
  {
    if es == [] then false
    else LegacyWrites(es[0], v, varName, lines) || AnyLegacyWrite(es[1..], v, varName, lines)
  }

  function LegacyReadonlyFrom(g: Graph, varName: string, lines: seq<string>, cus: seq<NodeId>, k: nat): (r: bool)
    requires k <= |cus|
    ensures !r <==> exists e, i :: k <= i < |cus| && e in g.edges && LegacyWrites(e, cus[i], varName, lines)
    decreases |cus| - k
  {
    if k == |cus| then true
    else
      var outs := OutEdges(g, cus[k], None);
      var ins := InEdges(g, cus[k], None);
      if AnyLegacyWrite(outs, cus[k], varName, lines) || AnyLegacyWrite(ins, cus[k], varName, lines) then false
      else
        var rest := LegacyReadonlyFrom(g, varName, lines, cus, k + 1);
        assert forall e :: e in g.edges && LegacyWrites(e, cus[k], varName, lines) ==> e in outs || e in ins;
        rest
  }

  /** `[startsAtLine[v] for v in get_subtree_of_type(root_loop, '2')]`. */
  function LegacyLoopStartLines(g: Graph, rootLoop: NodeId): seq<string>
    requires Wf(g) && rootLoop in g.nodes
  {
    var loops := GetSubtreeOfType(g, rootLoop, "2");
    seq(|loops|, i requires 0 <= i < |loops| => StartPosition(g.nodes[loops[i]]))
  }

  /** Legacy `is_readonly_inside_loop_body(dep, root_loop)`. */
  function LegacyIsReadonly(g: Graph, dep: Edge, rootLoop: NodeId): (r: bool)
    requires Wf(g) && rootLoop in g.nodes
    ensures !r <==> exists e, v :: v in GetSubtreeOfType(g, rootLoop, "0") && e in g.edges
                                 && LegacyWrites(e, v, dep.dep.varName, LegacyLoopStartLines(g, rootLoop))
  {
    var cus := GetSubtreeOfType(g, rootLoop, "0");
    var r := LegacyReadonlyFrom(g, dep.dep.varName, LegacyLoopStartLines(g, rootLoop), cus, 0);
    assert forall v :: v in cus <==> exists i :: 0 <= i < |cus| && cus[i] == v;
    r
  }

  /** On a graph where only DATA edges carry a dependence type, the legacy read-only
      test is the one of `PETGraphX`. */
  lemma LegacyReadonlyAgrees(g: Graph, dep: Edge, rootLoop: NodeId)
    requires Wf(g) && rootLoop in g.nodes
    ensures LegacyIsReadonly(g, dep, rootLoop) == IsReadonlyInsideLoopBody(g, dep.dep, rootLoop)
  {
    GetSubtreeOfTypeAgrees(g, rootLoop, Cu);
    GetSubtreeOfTypeAgrees(g, rootLoop, Loop);
    assert LegacyLoopStartLines(g, rootLoop) == LoopStartLines(g, rootLoop);
    var lines := LoopStartLines(g, rootLoop);
    forall e, v | e in g.edges ensures LegacyWrites(e, v, dep.dep.varName, lines) <==> WritesVariable(e, v, dep.dep.varName, lines) {
    }
  }

  /** The legacy filter: a RAW 'dependence' edge is dropped only when it is a loop index AND read-only. */
  predicate LegacyKept(g: Graph, e: Edge, rootLoop: NodeId)
    requires Wf(g) && rootLoop in g.nodes
  {
    && EdgeLabel(e.dep.etype) == "dependence" && e.dep.dtype == Some(Raw)
    && !(EdgeIsLoopIndex(e, LegacyLoopStartLines(g, rootLoop), GetSubtreeOfType(g, rootLoop, "0"))
         && LegacyIsReadonly(g, e, rootLoop))
  }

  function LegacyKeptTargets(g: Graph, es: seq<Edge>, rootLoop: NodeId): (r: set<NodeId>)
    requires Wf(g) && rootLoop in g.nodes
    ensures forall t :: t in r <==> exists e :: e in es && e.t == t && LegacyKept(g, e, rootLoop)
  {
    if es == [] then {}
    else
      var rest := LegacyKeptTargets(g, es[1..], rootLoop);
      if LegacyKept(g, es[0], rootLoop) then {es[0].t} + rest else rest
  }

  function LegacyDependenciesFrom(g: Graph, cus: seq<NodeId>, rootLoop: NodeId, k: nat): (r: set<NodeId>)
    requires Wf(g) && rootLoop in g.nodes && k <= |cus|
    ensures forall t :: t in r <==> exists e :: e in g.edges && e.s in cus[k..] && e.t == t && LegacyKept(g, e, rootLoop)
    decreases |cus| - k
  {
    if k == |cus| then {}
    else
      assert forall x :: x in cus[k..] <==> x == cus[k] || x in cus[k + 1..];
      LegacyKeptTargets(g, OutEdges(g, cus[k], None), rootLoop) + LegacyDependenciesFrom(g, cus, rootLoop, k + 1)
  }

  /** `PatternDetector.get_all_dependencies(node, root_loop)`. */
  function LegacyGetAllDependencies(g: Graph, node: NodeId, rootLoop: NodeId): (r: set<NodeId>)
    requires Wf(g) && node in g.nodes && rootLoop in g.nodes
    ensures forall t :: t in r <==> exists e :: e in g.edges && e.s in GetSubtreeOfType(g, node, "0") && e.t == t && LegacyKept(g, e, rootLoop)
    ensures r <= g.nodes.Keys
  {
    var cus := GetSubtreeOfType(g, node, "0");
    assert cus[0..] == cus;
    LegacyDependenciesFrom(g, cus, rootLoop, 0)
  }

  /** The two filters differ, but every dependency `PETGraphX` keeps the legacy detector keeps too. */
  lemma DependenciesIncluded(g: Graph, node: NodeId, rootLoop: NodeId)
    requires Wf(g) && node in g.nodes && rootLoop in g.nodes
    ensures GetAllDependencies(g, node, rootLoop) <= LegacyGetAllDependencies(g, node, rootLoop)
  {
    GetSubtreeOfTypeAgrees(g, node, Cu);
    forall t | t in GetAllDependencies(g, node, rootLoop) ensures t in LegacyGetAllDependencies(g, node, rootLoop) {
      var e :| e in g.edges && e.s in SubtreeOfType(g, node, Cu) && e.t == t && KeptDependency(g, e, rootLoop);
      KeptIsLegacyKept(g, e, rootLoop);
    }
  }

  lemma KeptIsLegacyKept(g: Graph, e: Edge, rootLoop: NodeId)
    requires Wf(g) && rootLoop in g.nodes && e in g.edges
    requires KeptDependency(g, e, rootLoop)
    ensures LegacyKept(g, e, rootLoop)
  {
    LegacyReadonlyAgrees(g, e, rootLoop);
    GetSubtreeOfTypeAgrees(g, rootLoop, Cu);
    GetSubtreeOfTypeAgrees(g, rootLoop, Loop);
  }

  /** `is_depending(v_source, v_target, root_loop)`: a kept dependency of `v_source` lands on
      `v_target` itself or on a CU below it. */
  function IsDepending(g: Graph, source: NodeId, target: NodeId, rootLoop: NodeId): bool
    requires Wf(g) && source in g.nodes && target in g.nodes && rootLoop in g.nodes
  {
    var children := GetSubtreeOfType(g, target, "0") + [target];
    exists d :: d in LegacyGetAllDependencies(g, source, rootLoop) && d in children
  }

  /** `source` depends on `target` exactly when a dependence of `source`'s CUs reaches
      `target` itself or one of the CUs below it. */
  lemma IsDependingMeaning(g: Graph, source: NodeId, target: NodeId, rootLoop: NodeId)
    requires Wf(g) && source in g.nodes && target in g.nodes && rootLoop in g.nodes
    ensures IsDepending(g, source, target, rootLoop) <==>
              exists d :: d in LegacyGetAllDependencies(g, source, rootLoop) &&
                          (d == target || (g.nodes[d].kind == Cu && Descendant(g, target, d)))
  {
    var children := GetSubtreeOfType(g, target, "0") + [target];
    forall d | d in g.nodes ensures d in children <==> d == target || (g.nodes[d].kind == Cu && Descendant(g, target, d)) {
      SubtreeMembers(g, target, TypeFilter("0"), d);
      assert TypeFilter("0")(g.nodes[d].kind) <==> g.nodes[d].kind == Cu;
    }
  }

  /** `is_pipeline_subnode(root, current, children_start_lines)`: a child is not a stage
      when it is a single line at the root's start or end, or a single line starting where
      a LOOP child starts. */
  predicate IsPipelineSubnode(g: Graph, root: NodeId, current: NodeId, childrenStartLines: seq<string>)
    requires root in g.nodes && current in g.nodes
  {
    var r := g.nodes[root];
    var c := g.nodes[current];
    !(|| (StartPosition(c) == StartPosition(r) && EndPosition(c) == StartPosition(r))
      || (StartPosition(c) == EndPosition(r) && EndPosition(c) == EndPosition(r))
      || (StartPosition(c) == EndPosition(c) && StartPosition(c) in childrenStartLines))
  }
}
