/** The Program Execution Tree (PET) graph of DiscoPoP: computation units,
    functions, loops and dummy nodes joined by CHILD, SUCCESSOR and DATA edges,
    and the read-only queries the detectors run over it
    (graph_analyzer/PETGraphX.py). */
module PetGraph {
  import opened Wrappers
  import opened Text

  /** A node id as the graph stores it: `"file:node"`. */
  type NodeId = string

  datatype CuType = Cu | Func | Loop | Dummy
  datatype EdgeType = Child | Successor | Data
  datatype DepType = Raw | War | Waw

  /** A declared variable: (declared type, name). */
  datatype Variable = Variable(declType: string, name: string)

  /** The payload of an edge. Only DATA edges carry a dependency type, variable and
      the source/sink positions (`"file:line"`) of the statements involved; the
      structural CHILD and SUCCESSOR edges leave them empty. */
  datatype Dependency = Dependency(etype: EdgeType, dtype: Option<DepType>, varName: string, source: string, sink: string)

  function Structural(et: EdgeType): Dependency {
    Dependency(et, None, "", "", "")
  }

  /** A directed edge from `s` to `t`; for a DATA edge `s` is the reading (sink) unit. */
  datatype Edge = Edge(s: NodeId, t: NodeId, dep: Dependency)

  /** CuNode: identity, kind, source range and the attributes read by the detectors. */
  datatype Node = Node(
    id: NodeId,
    fileId: nat,
    nodeId: nat,
    kind: CuType,
    sourceFile: nat,
    startLine: nat,
    endLine: nat,
    name: string,
    instructionsCount: int,
    loopIterations: int,
    localVars: seq<Variable>,
    globalVars: seq<Variable>,
    recursiveCalls: seq<string>)

  /** The multigraph: nodes by id, `order` the order in which they were added
      (the iteration order of the graph's vertices), and the edges in insertion order. */
  datatype Graph = Graph(order: seq<NodeId>, nodes: map<NodeId, Node>, edges: seq<Edge>)

  // ---------------------------------------------------------------- positions

  /** `parse_id`: `"a:b"` to `(int(a), int(b))`. The first part is converted
      first, so a non-number there is a ValueError even without a colon; a missing
      second part is then an IndexError, and a non-number second part a ValueError.
      Parts after the second are ignored. */
  function ParseId(id: string): (r: Result<(nat, nat)>)
    ensures var split := Split(id, ':');
            r.Ok? <==> |split| >= 2 && ParseNat(split[0]).Some? && ParseNat(split[1]).Some?
    ensures var split := Split(id, ':');
            r.Ok? ==> r.value == (ParseNat(split[0]).value, ParseNat(split[1]).value)
    ensures r.Err? ==> (r.error.IndexError? <==> ParseNat(Split(id, ':')[0]).Some? && |Split(id, ':')| < 2)
    ensures r.Err? ==> r.error.IndexError? || r.error.ValueError?
  {
    var split := Split(id, ':');
    match ParseNat(split[0])
    case None => Err(ValueError("parse_id: not a number"))
    case Some(a) =>
      if |split| < 2 then Err(IndexError("parse_id: no ':' in id"))
      else match ParseNat(split[1])
        case None => Err(ValueError("parse_id: not a number"))
        case Some(b) => Ok((a, b))
  }

  /** `"file:line"` as CuNode.start_position renders it. */
  function StartPosition(n: Node): string {
    NatToString(n.sourceFile) + ":" + NatToString(n.startLine)
  }

  function EndPosition(n: Node): string {
    NatToString(n.sourceFile) + ":" + NatToString(n.endLine)
  }

  /** The line-number text after the colon of a rendered position. */
  function LineText(pos: string): Option<string> {
    AfterFirst(pos, ':')
  }

  /** `parse_id` inverts the rendering `"a:b"` of two naturals. */
  lemma ParseIdOfRendered(a: nat, b: nat)
    ensures ParseId(NatToString(a) + ":" + NatToString(b)) == Ok((a, b))
    ensures LineText(NatToString(a) + ":" + NatToString(b)) == Some(NatToString(b))
  {
    DigitsHaveNoColon(NatToString(a));
    DigitsHaveNoColon(NatToString(b));
    SplitJoined(NatToString(a), ':', NatToString(b));
    ParseNatOfNatToString(a);
    ParseNatOfNatToString(b);
  }

  /** `parse_id(start_position())` and `parse_id(end_position())` give back the node's numbers. */
  lemma ParseIdInvertsPositions(n: Node)
    ensures ParseId(StartPosition(n)) == Ok((n.sourceFile, n.startLine))
    ensures ParseId(EndPosition(n)) == Ok((n.sourceFile, n.endLine))
    ensures LineText(StartPosition(n)) == Some(NatToString(n.startLine))
    ensures LineText(EndPosition(n)) == Some(NatToString(n.endLine))
  {
    ParseIdOfRendered(n.sourceFile, n.startLine);
    ParseIdOfRendered(n.sourceFile, n.endLine);
  }

  /** Two renderings agree exactly when file and line agree. */
  lemma RenderedPositionsEqual(a: nat, b: nat, c: nat, d: nat)
    requires NatToString(a) + ":" + NatToString(b) == NatToString(c) + ":" + NatToString(d)
    ensures a == c && b == d
  {
    ParseIdOfRendered(a, b);
    ParseIdOfRendered(c, d);
  }

  // ---------------------------------------------------------- well-formedness

  ghost predicate OrderedNodes(g: Graph) {
    && (forall i, j :: 0 <= i < j < |g.order| ==> g.order[i] != g.order[j])
    && (forall n :: n in g.nodes <==> n in g.order)
  }

  /** Every edge endpoint names a node (`node_at` raises KeyError otherwise). */
  ghost predicate Closed(g: Graph) {
    forall e :: e in g.edges ==> e.s in g.nodes && e.t in g.nodes
  }

  /** `rank` strictly decreases along every CHILD edge. */
  ghost predicate RankedBy(g: Graph, rank: map<NodeId, nat>) {
    && g.nodes.Keys <= rank.Keys
    && forall e :: e in g.edges && e.dep.etype == Child ==> e.s in rank && e.t in rank && rank[e.t] < rank[e.s]
  }

  /** The CHILD edges form no cycle: the recursive subtree walks terminate. */
  ghost predicate Acyclic(g: Graph) {
    exists rank :: RankedBy(g, rank)
  }

  ghost function RankOf(g: Graph): (rank: map<NodeId, nat>)
    requires Acyclic(g)
    ensures RankedBy(g, rank)
  {
    var rank :| RankedBy(g, rank); rank
  }

  /** Exactly the DATA edges carry a dependence type. */
  predicate TypedEdges(g: Graph) {
    forall e :: e in g.edges ==> (e.dep.etype == Data <==> e.dep.dtype.Some?)
  }

  ghost predicate Wf(g: Graph) {
    OrderedNodes(g) && Closed(g) && Acyclic(g) && TypedEdges(g)
  }

  // ------------------------------------------------------------- edge lookup

  /** The edges of `es` that leave (or enter) `n`, optionally of one type, in list order. */
  function Incident(es: seq<Edge>, n: NodeId, et: Option<EdgeType>, outgoing: bool): (r: seq<Edge>)
    ensures forall e :: e in r <==> e in es && (if outgoing then e.s else e.t) == n && (et.None? || e.dep.etype == et.value)
    ensures |r| <= |es|
  {
    if es == [] then []
    else
      var rest := Incident(es[1..], n, et, outgoing);
      var e := es[0];
      if (if outgoing then e.s else e.t) == n && (et.None? || e.dep.etype == et.value) then [e] + rest else rest
  }

  /** `out_edges(node_id, etype)`. */
  function OutEdges(g: Graph, n: NodeId, et: Option<EdgeType>): (r: seq<Edge>)
    ensures forall e :: e in r <==> e in g.edges && e.s == n && (et.None? || e.dep.etype == et.value)
  {
    Incident(g.edges, n, et, true)
  }

  /** `in_edges(node_id, etype)`. */
  function InEdges(g: Graph, n: NodeId, et: Option<EdgeType>): (r: seq<Edge>)
    ensures forall e :: e in r <==> e in g.edges && e.t == n && (et.None? || e.dep.etype == et.value)
    ensures |r| <= |g.edges|
  {
    Incident(g.edges, n, et, false)
  }

  function Targets(es: seq<Edge>): (r: seq<NodeId>)
    ensures |r| == |es| && forall i :: 0 <= i < |es| ==> r[i] == es[i].t
  {
    seq(|es|, i requires 0 <= i < |es| => es[i].t)
  }

  function Sources(es: seq<Edge>): (r: seq<NodeId>)
    ensures |r| == |es| && forall i :: 0 <= i < |es| ==> r[i] == es[i].s
  {
    seq(|es|, i requires 0 <= i < |es| => es[i].s)
  }

  // ------------------------------------------------------------ child paths

  ghost predicate IsChildEdge(g: Graph, a: NodeId, b: NodeId) {
    exists e :: e in g.edges && e.s == a && e.t == b && e.dep.etype == Child
  }

  /** A walk down CHILD edges. */
  ghost predicate ChildPath(g: Graph, p: seq<NodeId>) {
    |p| >= 1 && forall i :: 0 <= i < |p| - 1 ==> IsChildEdge(g, p[i], p[i + 1])
  }

  /** `b` lies in the CHILD-subtree of `a` (`a` itself included). */
  ghost predicate Descendant(g: Graph, a: NodeId, b: NodeId) {
    exists p :: ChildPath(g, p) && p[0] == a && p[|p| - 1] == b
  }

  // --------------------------------------------------------------- subtrees

  /** The pre-order CHILD walk of `subtree_of_type`, keeping the nodes whose kind `sel` accepts. */
  function Subtree(g: Graph, root: NodeId, sel: CuType -> bool): (r: seq<NodeId>)
    requires Wf(g) && root in g.nodes
    ensures forall x :: x in r ==> x in g.nodes && sel(g.nodes[x].kind)
    ensures forall x :: x in r && x != root ==> RankOf(g)[x] < RankOf(g)[root]
    ensures root in r <==> sel(g.nodes[root].kind)
    ensures sel(g.nodes[root].kind) ==> r[0] == root
    decreases RankOf(g)[root], 1
  {
    (if sel(g.nodes[root].kind) then [root] else []) + SubtreesOf(g, root, OutEdges(g, root, Some(Child)), sel)
  }

  /** The subtrees below a list of CHILD edges out of `parent`, concatenated in edge order. */
  function SubtreesOf(g: Graph, parent: NodeId, es: seq<Edge>, sel: CuType -> bool): (r: seq<NodeId>)
    requires Wf(g) && parent in g.nodes
    requires forall e :: e in es ==> e in g.edges && e.s == parent && e.dep.etype == Child
    ensures forall x :: x in r ==> x in g.nodes && sel(g.nodes[x].kind) && RankOf(g)[x] < RankOf(g)[parent]
    decreases RankOf(g)[parent], 0, |es|
  {
    if es == [] then []
    else
      assert es[0] in g.edges;
      Subtree(g, es[0].t, sel) + SubtreesOf(g, parent, es[1..], sel)
  }

  /** `subtree_of_type(root, type)`. */
  function SubtreeOfType(g: Graph, root: NodeId, k: CuType): (r: seq<NodeId>)
    requires Wf(g) && root in g.nodes
    ensures forall x :: x in r ==> x in g.nodes && g.nodes[x].kind == k
    ensures root in r <==> g.nodes[root].kind == k
    ensures g.nodes[root].kind == k ==> r[0] == root
  {
    Subtree(g, root, (c: CuType) => c == k)
  }

  lemma InConcat(a: seq<NodeId>, b: seq<NodeId>, x: NodeId)
    ensures x in a + b <==> x in a || x in b
  {
  }

  /** A node returned for the edge list comes from the subtree of one of its targets. */
  lemma {:induction false} SubtreesOfWitness(g: Graph, parent: NodeId, es: seq<Edge>, sel: CuType -> bool, x: NodeId)
    returns (i: nat)
    requires Wf(g) && parent in g.nodes
    requires forall e :: e in es ==> e in g.edges && e.s == parent && e.dep.etype == Child
    requires x in SubtreesOf(g, parent, es, sel)
    ensures i < |es| && es[i].t in g.nodes && x in Subtree(g, es[i].t, sel)
    decreases |es|
  {
    assert es[0] in g.edges;
    var head := Subtree(g, es[0].t, sel);
    assert SubtreesOf(g, parent, es, sel) == head + SubtreesOf(g, parent, es[1..], sel);
    if x in head {
      i := 0;
    } else {
      var j := SubtreesOfWitness(g, parent, es[1..], sel, x);
      i := j + 1;
      assert es[1..][j] == es[i];
    }
  }

  /** The subtree of every target is part of what is returned for the edge list. */
  lemma {:induction false} SubtreesOfHas(g: Graph, parent: NodeId, es: seq<Edge>, sel: CuType -> bool, x: NodeId, i: nat)
    requires Wf(g) && parent in g.nodes
    requires forall e :: e in es ==> e in g.edges && e.s == parent && e.dep.etype == Child
    requires i < |es| && es[i].t in g.nodes && x in Subtree(g, es[i].t, sel)
    ensures x in SubtreesOf(g, parent, es, sel)
    decreases i
  {
    assert es[0] in g.edges;
    var head := Subtree(g, es[0].t, sel);
    var rest := SubtreesOf(g, parent, es[1..], sel);
    assert SubtreesOf(g, parent, es, sel) == head + rest;
    if i > 0 {
      assert es[1..][i - 1] == es[i];
      SubtreesOfHas(g, parent, es[1..], sel, x, i - 1);
      InConcat(head, rest, x);
    } else {
      InConcat(head, rest, x);
    }
  }

  /** Everything the walk returns lies below `root`. */
  lemma {:induction false} SubtreeSound(g: Graph, root: NodeId, sel: CuType -> bool, x: NodeId)
    requires Wf(g) && root in g.nodes
    requires x in Subtree(g, root, sel)
    ensures Descendant(g, root, x)
    decreases RankOf(g)[root]
  {
    var es := OutEdges(g, root, Some(Child));
    if x == root {
      assert ChildPath(g, [root]);
    } else {
      assert x in SubtreesOf(g, root, es, sel);
      var i := SubtreesOfWitness(g, root, es, sel, x);
      assert es[i] in g.edges;
      SubtreeSound(g, es[i].t, sel, x);
      var p :| ChildPath(g, p) && p[0] == es[i].t && p[|p| - 1] == x;
      assert IsChildEdge(g, root, p[0]) by { assert es[i] in g.edges; }
      PrependChildEdge(g, root, p);
      assert ([root] + p)[|[root] + p| - 1] == x;
    }
  }

  lemma PrependChildEdge(g: Graph, a: NodeId, p: seq<NodeId>)
    requires ChildPath(g, p) && IsChildEdge(g, a, p[0])
    ensures ChildPath(g, [a] + p) && ([a] + p)[0] == a
  {
    var q := [a] + p;
    forall j | 0 <= j < |q| - 1 ensures IsChildEdge(g, q[j], q[j + 1]) {
      if j > 0 { assert q[j] == p[j - 1] && q[j + 1] == p[j]; }
    }
  }

  /** Every accepted node below `root` is returned. */
  lemma {:induction false} SubtreeComplete(g: Graph, root: NodeId, sel: CuType -> bool, p: seq<NodeId>)
    requires Wf(g) && root in g.nodes
    requires ChildPath(g, p) && p[0] == root
    requires p[|p| - 1] in g.nodes && sel(g.nodes[p[|p| - 1]].kind)
    ensures p[|p| - 1] in Subtree(g, root, sel)
    decreases RankOf(g)[root]
  {
    var x := p[|p| - 1];
    if |p| > 1 {
      var es := OutEdges(g, root, Some(Child));
      assert IsChildEdge(g, p[0], p[1]);
      var e :| e in g.edges && e.s == root && e.t == p[1] && e.dep.etype == Child;
      assert e in es;
      var i :| 0 <= i < |es| && es[i] == e;
      var p' := p[1..];
      assert ChildPath(g, p') by {
        forall j | 0 <= j < |p'| - 1 ensures IsChildEdge(g, p'[j], p'[j + 1]) {
          assert p'[j] == p[j + 1] && p'[j + 1] == p[j + 2];
        }
      }
      SubtreeComplete(g, p[1], sel, p');
      SubtreesOfHas(g, root, es, sel, x, i);
    }
  }

  /** `subtree_of_type` returns exactly the nodes of the requested type in the CHILD-subtree. */
  lemma SubtreeOfTypeMembers(g: Graph, root: NodeId, k: CuType, x: NodeId)
    requires Wf(g) && root in g.nodes
    ensures x in SubtreeOfType(g, root, k) <==> x in g.nodes && g.nodes[x].kind == k && Descendant(g, root, x)
  {
    var sel := (c: CuType) => c == k;
    if x in SubtreeOfType(g, root, k) {
      SubtreeSound(g, root, sel, x);
    }
    if x in g.nodes && g.nodes[x].kind == k && Descendant(g, root, x) {
      var p :| ChildPath(g, p) && p[0] == root && p[|p| - 1] == x;
      SubtreeComplete(g, root, sel, p);
    }
  }

  /** The same for any kind filter (the legacy `'*'` wildcard included). */
  lemma SubtreeMembers(g: Graph, root: NodeId, sel: CuType -> bool, x: NodeId)
    requires Wf(g) && root in g.nodes
    ensures x in Subtree(g, root, sel) <==> x in g.nodes && sel(g.nodes[x].kind) && Descendant(g, root, x)
  {
    if x in Subtree(g, root, sel) {
      SubtreeSound(g, root, sel, x);
    }
    if x in g.nodes && sel(g.nodes[x].kind) && Descendant(g, root, x) {
      var p :| ChildPath(g, p) && p[0] == root && p[|p| - 1] == x;
      SubtreeComplete(g, root, sel, p);
    }
  }

  function ChildrenOfTypeIn(g: Graph, es: seq<Edge>, k: CuType): (r: seq<NodeId>)
    requires Closed(g) && forall e :: e in es ==> e in g.edges
    ensures forall x :: x in r <==> exists e :: e in es && e.t == x && g.nodes[x].kind == k
  {
    if es == [] then []
    else
      assert es[0] in g.edges;
      var rest := ChildrenOfTypeIn(g, es[1..], k);
      if g.nodes[es[0].t].kind == k then [es[0].t] + rest else rest
  }

  /** `direct_children_of_type(root, type)`: the one-hop CHILD targets of that type. */
  function DirectChildrenOfType(g: Graph, root: NodeId, k: CuType): (r: seq<NodeId>)
    requires Wf(g) && root in g.nodes
    ensures forall x :: x in r <==> x in g.nodes && g.nodes[x].kind == k && IsChildEdge(g, root, x)
  {
    ChildrenOfTypeIn(g, OutEdges(g, root, Some(Child)), k)
  }

  /** A direct child of a type is in the subtree of that type, and is never the root itself. */
  lemma DirectChildrenInSubtree(g: Graph, root: NodeId, k: CuType, x: NodeId)
    requires Wf(g) && root in g.nodes
    requires x in DirectChildrenOfType(g, root, k)
    ensures x in SubtreeOfType(g, root, k) && x != root
  {
    assert x in g.nodes && g.nodes[x].kind == k && IsChildEdge(g, root, x);
    ChildEdgeBelow(g, root, x);
    SubtreeOfTypeMembers(g, root, k, x);
  }

  /** A CHILD edge leads to a distinct descendant. */
  lemma ChildEdgeBelow(g: Graph, a: NodeId, b: NodeId)
    requires Wf(g) && IsChildEdge(g, a, b)
    ensures Descendant(g, a, b) && a != b
  {
    var e :| e in g.edges && e.s == a && e.t == b && e.dep.etype == Child;
    assert RankOf(g)[b] < RankOf(g)[a];
    var p := [a, b];
    assert ChildPath(g, p);
  }

  // ------------------------------------------------------ dependency analysis

  /** A reduction-variable fact: `{loop_line, name, operation}`. */
  datatype ReductionFact = ReductionFact(loopLine: string, name: string, operation: string)

  /** `is_reduction_var(line, name)`. */
  function IsReductionVar(facts: seq<ReductionFact>, line: string, name: string): (r: bool)
    ensures r <==> exists i :: 0 <= i < |facts| && facts[i].loopLine == line && facts[i].name == name
  {
    if facts == [] then false
    else (facts[0].loopLine == line && facts[0].name == name) || IsReductionVar(facts[1..], line, name)
  }

  /** `[v.start_position() for v in subtree_of_type(root_loop, LOOP)]`. */
  function LoopStartLines(g: Graph, rootLoop: NodeId): seq<string>
    requires Wf(g) && rootLoop in g.nodes
  {
    var loops := SubtreeOfType(g, rootLoop, Loop);
    seq(|loops|, i requires 0 <= i < |loops| => StartPosition(g.nodes[loops[i]]))
  }

  function IsRaw(e: Edge): bool {
    e.dep.etype == Data && e.dep.dtype == Some(Raw)
  }

  /** The RAW edge that marks `var` as the loop index: a self-dependence of the loop header. */
  predicate LoopIndexEdge(e: Edge, varName: string, lines: seq<string>, children: seq<NodeId>) {
    IsRaw(e) && e.dep.varName == varName && e.s in children
    && e.dep.sink == e.dep.source && e.dep.source in lines && e.t in children
  }

  function AnyLoopIndexEdge(es: seq<Edge>, varName: string, lines: seq<string>, children: seq<NodeId>): (r: bool)
    ensures r <==> exists e :: e in es && LoopIndexEdge(e, varName, lines, children)
  {
    if es == [] then false
    else LoopIndexEdge(es[0], varName, lines, children) || AnyLoopIndexEdge(es[1..], varName, lines, children)
  }

  function LoopIndexFrom(g: Graph, varName: string, lines: seq<string>, children: seq<NodeId>, k: nat): (r: bool)
    requires k <= |children|
    ensures r <==> exists e :: e in g.edges && e.s in children[k..] && LoopIndexEdge(e, varName, lines, children)
    decreases |children| - k
  {
    if k == |children| then false
    else
      var here := AnyLoopIndexEdge(OutEdges(g, children[k], Some(Data)), varName, lines, children);
      var later := LoopIndexFrom(g, varName, lines, children, k + 1);
      assert forall x :: x in children[k..] <==> x == children[k] || x in children[k + 1..];
      here || later
  }

  /** `is_loop_index(var_name, loops_start_lines, children)`: some RAW edge on the
      variable out of a child is a self-dependence (`sink == source`) at a loop start
      line whose target is itself a child. */
  function IsLoopIndex(g: Graph, varName: string, lines: seq<string>, children: seq<NodeId>): (r: bool)
    ensures r <==> exists e :: e in g.edges && LoopIndexEdge(e, varName, lines, children)
  {
    LoopIndexFrom(g, varName, lines, children, 0)
  }

  /** A DATA edge at `v` that shows `varName` written inside the loop body:
      a WAR/WAW out-edge whose sink, or a RAW in-edge whose source, is not a loop start line. */
  predicate WritesVariable(e: Edge, v: NodeId, varName: string, lines: seq<string>) {
    && e.dep.etype == Data
    && e.dep.varName == varName
    && ( (e.s == v && (e.dep.dtype == Some(War) || e.dep.dtype == Some(Waw)) && e.dep.sink !in lines)
      || (e.t == v && e.dep.dtype == Some(Raw) && e.dep.source !in lines))
  }

  function AnyWrite(es: seq<Edge>, v: NodeId, varName: string, lines: seq<string>): (r: bool)
    ensures r <==> exists e :: e in es && WritesVariable(e, v, varName, lines)
  {
    if es == [] then false
    else WritesVariable(es[0], v, varName, lines) || AnyWrite(es[1..], v, varName, lines)
  }

  function ReadonlyFrom(g: Graph, varName: string, lines: seq<string>, cus: seq<NodeId>, k: nat): (r: bool)
    requires k <= |cus|
    ensures !r <==> exists e, i :: k <= i < |cus| && e in g.edges && WritesVariable(e, cus[i], varName, lines)
    decreases |cus| - k
  {
    if k == |cus| then true
    else
      var outs := OutEdges(g, cus[k], Some(Data));
      var ins := InEdges(g, cus[k], Some(Data));
      if AnyWrite(outs, cus[k], varName, lines) || AnyWrite(ins, cus[k], varName, lines) then false
      else
        var rest := ReadonlyFrom(g, varName, lines, cus, k + 1);
        assert !rest ==> exists e, i :: k <= i < |cus| && e in g.edges && WritesVariable(e, cus[i], varName, lines);
        assert forall e :: e in g.edges && WritesVariable(e, cus[k], varName, lines) ==> e in outs || e in ins;
        rest
  }

  /** `is_readonly_inside_loop_body(dep, root_loop)`: false exactly when a CU of the
      loop writes the dependence's variable other than in a loop header. */
  function IsReadonlyInsideLoopBody(g: Graph, dep: Dependency, rootLoop: NodeId): (r: bool)
    requires Wf(g) && rootLoop in g.nodes
    ensures !r <==> exists e, v :: v in SubtreeOfType(g, rootLoop, Cu) && e in g.edges
                                 && WritesVariable(e, v, dep.varName, LoopStartLines(g, rootLoop))
  {
    var cus := SubtreeOfType(g, rootLoop, Cu);
    var r := ReadonlyFrom(g, dep.varName, LoopStartLines(g, rootLoop), cus, 0);
    assert forall v :: v in cus <==> exists i :: 0 <= i < |cus| && cus[i] == v;
    r
  }

  /** The filter of `PETGraphX.get_all_dependencies`: a RAW edge is dropped when its
      variable is a loop index OR read-only in the loop body. */
  predicate KeptDependency(g: Graph, e: Edge, rootLoop: NodeId)
    requires Wf(g) && rootLoop in g.nodes
  {
    && IsRaw(e)
    && !IsLoopIndex(g, e.dep.varName, LoopStartLines(g, rootLoop), SubtreeOfType(g, rootLoop, Cu))
    && !IsReadonlyInsideLoopBody(g, e.dep, rootLoop)
  }

  function KeptTargets(g: Graph, es: seq<Edge>, rootLoop: NodeId): (r: set<NodeId>)
    requires Wf(g) && rootLoop in g.nodes
    ensures forall t :: t in r <==> exists e :: e in es && e.t == t && KeptDependency(g, e, rootLoop)
  {
    if es == [] then {}
    else
      var rest := KeptTargets(g, es[1..], rootLoop);
      assert forall e :: e in es <==> e == es[0] || e in es[1..];
      if KeptDependency(g, es[0], rootLoop) then {es[0].t} + rest else rest
  }

  function DependenciesFrom(g: Graph, cus: seq<NodeId>, rootLoop: NodeId, k: nat): (r: set<NodeId>)
    requires Wf(g) && rootLoop in g.nodes && k <= |cus|
    ensures forall t :: t in r <==>
      exists e :: e in g.edges && e.s in cus[k..] && e.t == t && KeptDependency(g, e, rootLoop)
    decreases |cus| - k
  {
    if k == |cus| then {}
    else
      var here := KeptTargets(g, OutEdges(g, cus[k], Some(Data)), rootLoop);
      var rest := DependenciesFrom(g, cus, rootLoop, k + 1);
      assert forall x :: x in cus[k..] <==> x == cus[k] || x in cus[k + 1..];
      here + rest
  }

  /** `get_all_dependencies(node, root_loop)`: the targets of the kept RAW edges out of
      the CUs in the CU-subtree of `node`. */
  function GetAllDependencies(g: Graph, node: NodeId, rootLoop: NodeId): (r: set<NodeId>)
    requires Wf(g) && node in g.nodes && rootLoop in g.nodes
    ensures forall t :: t in r <==>
      exists e :: e in g.edges && e.s in SubtreeOfType(g, node, Cu) && e.t == t && KeptDependency(g, e, rootLoop)
    ensures r <= g.nodes.Keys
  {
    var cus := SubtreeOfType(g, node, Cu);
    assert cus[0..] == cus;
    DependenciesFrom(g, cus, rootLoop, 0)
  }

  function AnyIn(xs: set<NodeId>, ys: seq<NodeId>): (r: bool)
    ensures r <==> exists y :: y in xs && y in ys
  {
    exists y :: y in ys && y in xs
  }

  /** `depends_ignore_readonly(source, target, root_loop)`: some kept dependency of
      `source` lands on a CU inside `target`'s subtree; `target` itself counts only if it is a CU. */
  function DependsIgnoreReadonly(g: Graph, source: NodeId, target: NodeId, rootLoop: NodeId): (r: bool)
    requires Wf(g) && source in g.nodes && target in g.nodes && rootLoop in g.nodes
    ensures r <==> exists d :: d in GetAllDependencies(g, source, rootLoop) && d in g.nodes
                              && g.nodes[d].kind == Cu && Descendant(g, target, d)
  {
    var children := SubtreeOfType(g, target, Cu);
    forall d ensures d in children <==> d in g.nodes && g.nodes[d].kind == Cu && Descendant(g, target, d) {
      SubtreeOfTypeMembers(g, target, Cu, d);
    }
    AnyIn(GetAllDependencies(g, source, rootLoop), children)
  }
}
