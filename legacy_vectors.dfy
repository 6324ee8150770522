/** The vectors of the legacy detector (pattern_detection.py): the pipeline stages of
    a loop and the two vectors whose correlation is its pipeline score, and the 0/1
    vector whose correlation with all-ones is its do-all score. */
module LegacyVectors {
  import opened Wrappers
  import opened Text
  import opened PetGraph
  import opened PatternQueries
  import opened MwTypes

  // ------------------------------------------------------------ pipeline stages

  /** `children_start_lines`: the start lines of the LOOP children of `root`, in order. */
  function StartLinesOfLoops(g: Graph, vs: seq<NodeId>): (r: seq<string>)
    requires forall v :: v in vs ==> v in g.nodes
    ensures forall s :: s in r <==> exists v :: v in vs && g.nodes[v].kind == Loop && StartPosition(g.nodes[v]) == s
  {
    if vs == [] then []
    else
      var rest := StartLinesOfLoops(g, vs[1..]);
      assert forall v :: v in vs <==> v == vs[0] || v in vs[1..];
      if g.nodes[vs[0]].kind == Loop then [StartPosition(g.nodes[vs[0]])] + rest else rest
  }

  function ChildrenStartLines(g: Graph, root: NodeId): seq<string>
    requires Wf(g)
  {
    StartLinesOfLoops(g, ChildSubnodes(g, root))
  }

  /** The children of `vs` kept by `is_pipeline_subnode`, in order. */
  function KeepStages(g: Graph, root: NodeId, vs: seq<NodeId>, lines: seq<string>): (r: seq<NodeId>)
    requires root in g.nodes && forall v :: v in vs ==> v in g.nodes
    ensures forall v :: v in r <==> v in vs && IsPipelineSubnode(g, root, v, lines)
  {
    if vs == [] then []
    else
      var rest := KeepStages(g, root, vs[1..], lines);
      assert forall v :: v in vs <==> v == vs[0] || v in vs[1..];
      if IsPipelineSubnode(g, root, vs[0], lines) then [vs[0]] + rest else rest
  }

  /** `loop_subnodes`: the CHILD children of `root` that are pipeline stages. */
  function Stages(g: Graph, root: NodeId): (r: seq<NodeId>)
    requires Wf(g) && root in g.nodes
    ensures forall v :: v in r <==> v in ChildSubnodes(g, root) && IsPipelineSubnode(g, root, v, ChildrenStartLines(g, root))
    ensures forall v :: v in r ==> v in g.nodes
  {
    KeepStages(g, root, ChildSubnodes(g, root), ChildrenStartLines(g, root))
  }

  /** Two rendered positions are equal exactly when their files and lines are. */
  lemma PositionsEqual(a: nat, b: nat, c: nat, d: nat)
    ensures NatToString(a) + ":" + NatToString(b) == NatToString(c) + ":" + NatToString(d) <==> a == c && b == d
  {
    if NatToString(a) + ":" + NatToString(b) == NatToString(c) + ":" + NatToString(d) {
      RenderedPositionsEqual(a, b, c, d);
    }
  }

  /** A child is no stage exactly when it is a one-line child on the root's first line, a
      child spanning exactly the root's last line, or a one-line child starting where a LOOP
      child of the root starts. */
  lemma IsPipelineSubnodeMeaning(g: Graph, root: NodeId, c: NodeId)
    requires Wf(g) && root in g.nodes && c in g.nodes
    ensures var r := g.nodes[root];
            var n := g.nodes[c];
            !IsPipelineSubnode(g, root, c, ChildrenStartLines(g, root)) <==>
              || (n.sourceFile == r.sourceFile && n.startLine == r.startLine && n.endLine == r.startLine)
              || (n.sourceFile == r.sourceFile && n.startLine == r.endLine && n.endLine == r.endLine)
              || (n.startLine == n.endLine &&
                  exists v :: v in ChildSubnodes(g, root) && g.nodes[v].kind == Loop &&
                              g.nodes[v].sourceFile == n.sourceFile && g.nodes[v].startLine == n.startLine)
  {
    var r := g.nodes[root];
    var n := g.nodes[c];
    PositionsEqual(n.sourceFile, n.startLine, r.sourceFile, r.startLine);
    PositionsEqual(n.sourceFile, n.endLine, r.sourceFile, r.startLine);
    PositionsEqual(n.sourceFile, n.startLine, r.sourceFile, r.endLine);
    PositionsEqual(n.sourceFile, n.endLine, r.sourceFile, r.endLine);
    PositionsEqual(n.sourceFile, n.startLine, n.sourceFile, n.endLine);
    var kids := ChildSubnodes(g, root);
    forall v | v in kids && g.nodes[v].kind == Loop
      ensures StartPosition(g.nodes[v]) == StartPosition(n) <==>
              g.nodes[v].sourceFile == n.sourceFile && g.nodes[v].startLine == n.startLine
    {
      PositionsEqual(g.nodes[v].sourceFile, g.nodes[v].startLine, n.sourceFile, n.startLine);
    }
  }

  // ------------------------------------------------------------- pipeline vectors
  // `dep(a, b)` stands for `is_depending(a, b, root)` of the loop under analysis.

  /** The first `|subs| - 1` entries of `graph_vector` from stage `k` on: 1 where a stage
      depends on the one before it. */
  function StageDependences(dep: (NodeId, NodeId) -> bool, subs: seq<NodeId>, k: nat): (r: seq<real>)
    requires k < |subs|
    ensures |r| == |subs| - 1 - k
    ensures forall i :: 0 <= i < |r| ==> r[i] == if dep(subs[k + i + 1], subs[k + i]) then 1.0 else 0.0
    decreases |subs| - k
  {
    if k + 1 == |subs| then []
    else [if dep(subs[k + 1], subs[k]) then 1.0 else 0.0] + StageDependences(dep, subs, k + 1)
  }

  /** The weight of a dependence from stage `i` to stage `j`: `1 - (j - i) / (n - 1)`. */
  function Weight(n: int, i: int, j: int): real
    requires n >= 2
  {
    1.0 - (j - i) as real / (n - 1) as real
  }

  /** A dependence that can lower `min_weight`: from an earlier to a later stage, with a
      positive weight (a dependence of the first stage on the last never qualifies). */
  predicate Candidate(dep: (NodeId, NodeId) -> bool, subs: seq<NodeId>, i: int, j: int)
    requires |subs| >= 2
  {
    0 <= i < j < |subs| && dep(subs[i], subs[j]) && Weight(|subs|, i, j) > 0.0
  }

  function Lower(acc: real, w: real, d: bool): real {
    if d && acc > w > 0.0 then w else acc
  }

  /** The inner loop of the `min_weight` search, row `i` from column `j` on. */
  function RowFold(dep: (NodeId, NodeId) -> bool, subs: seq<NodeId>, i: nat, j: nat, acc: real): real
    requires |subs| >= 2 && i < |subs| && j <= |subs|
    decreases |subs| - j
  {
    if j == |subs| then acc
    else RowFold(dep, subs, i, j + 1, Lower(acc, Weight(|subs|, i, j), dep(subs[i], subs[j])))
  }

  /** The outer loop of the `min_weight` search, from row `i` on. */
  function AllFold(dep: (NodeId, NodeId) -> bool, subs: seq<NodeId>, i: nat, acc: real): real
    requires |subs| >= 2 && i <= |subs| - 1
    decreases |subs| - i
  {
    if i == |subs| - 1 then acc
    else AllFold(dep, subs, i + 1, RowFold(dep, subs, i, i + 1, acc))
  }

  /** `min_weight` as the loops leave it. */
  function MinWeightOf(dep: (NodeId, NodeId) -> bool, subs: seq<NodeId>): real
    requires |subs| >= 2
  {
    AllFold(dep, subs, 0, 1.0)
  }

  lemma {:induction false} RowFoldMin(dep: (NodeId, NodeId) -> bool, subs: seq<NodeId>, i: nat, j: nat, acc: real)
    requires |subs| >= 2 && i < |subs| && i < j <= |subs|
    ensures var r := RowFold(dep, subs, i, j, acc);
            && r <= acc
            && (forall k :: j <= k < |subs| && Candidate(dep, subs, i, k) ==> r <= Weight(|subs|, i, k))
            && (r == acc || exists k :: j <= k < |subs| && Candidate(dep, subs, i, k) && r == Weight(|subs|, i, k))
    decreases |subs| - j
  {
    if j < |subs| {
      RowFoldMin(dep, subs, i, j + 1, Lower(acc, Weight(|subs|, i, j), dep(subs[i], subs[j])));
    }
  }

  lemma {:induction false} AllFoldMin(dep: (NodeId, NodeId) -> bool, subs: seq<NodeId>, i: nat, acc: real)
    requires |subs| >= 2 && i <= |subs| - 1
    ensures var r := AllFold(dep, subs, i, acc);
            && r <= acc
            && (forall a, b :: i <= a && Candidate(dep, subs, a, b) ==> r <= Weight(|subs|, a, b))
            && (r == acc || exists a, b :: i <= a && Candidate(dep, subs, a, b) && r == Weight(|subs|, a, b))
    decreases |subs| - i
  {
    if i < |subs| - 1 {
      var row := RowFold(dep, subs, i, i + 1, acc);
      RowFoldMin(dep, subs, i, i + 1, acc);
      AllFoldMin(dep, subs, i + 1, row);
    }
  }

  /** `min_weight` stays 1 exactly when no candidate dependence exists; otherwise it is the
      smallest candidate weight. */
  lemma MinWeightMeaning(dep: (NodeId, NodeId) -> bool, subs: seq<NodeId>)
    requires |subs| >= 2
    ensures var m := MinWeightOf(dep, subs);
            && (m == 1.0 <==> forall a, b :: !Candidate(dep, subs, a, b))
            && (m != 1.0 ==> (exists a, b :: Candidate(dep, subs, a, b) && m == Weight(|subs|, a, b)))
            && (forall a, b :: Candidate(dep, subs, a, b) ==> m <= Weight(|subs|, a, b))
  {
    AllFoldMin(dep, subs, 0, 1.0);
    forall a, b | Candidate(dep, subs, a, b) ensures Weight(|subs|, a, b) < 1.0 {
      assert (b - a) as real / (|subs| - 1) as real > 0.0;
    }
  }

  /** `graph_vector` and `pipeline_vector` for at least two stages. */
  function PipelineVectors(dep: (NodeId, NodeId) -> bool, subs: seq<NodeId>): (seq<real>, seq<real>)
    requires |subs| >= 2
  {
    var m := MinWeightOf(dep, subs);
    (StageDependences(dep, subs, 0) + [if m == 1.0 then 0.0 else 1.0],
     seq(|subs| - 1, _ => 1.0) + [if m == 1.0 then 0.0 else m])
  }

  /** Both vectors have one entry per stage; the pipeline vector starts with ones and the
      graph vector with the dependences of each stage on the one before; the final pair is
      (0, 0) without a candidate dependence and (1, smallest candidate weight) with one. */
  lemma PipelineVectorsShape(dep: (NodeId, NodeId) -> bool, subs: seq<NodeId>)
    requires |subs| >= 2
    ensures var (gv, pv) := PipelineVectors(dep, subs);
            && |gv| == |subs| && |pv| == |subs|
            && (forall i :: 0 <= i < |subs| - 1 ==> pv[i] == 1.0)
            && (forall i :: 0 <= i < |subs| - 1 ==> gv[i] == if dep(subs[i + 1], subs[i]) then 1.0 else 0.0)
            && ((gv[|subs| - 1], pv[|subs| - 1]) == (0.0, 0.0) <==> forall a, b :: !Candidate(dep, subs, a, b))
            && (gv[|subs| - 1] == 1.0 ==>
                  && (exists a, b :: Candidate(dep, subs, a, b) && pv[|subs| - 1] == Weight(|subs|, a, b))
                  && (forall a, b :: Candidate(dep, subs, a, b) ==> pv[|subs| - 1] <= Weight(|subs|, a, b)))
  {
    MinWeightMeaning(dep, subs);
    var m := MinWeightOf(dep, subs);
    if m != 1.0 {
      var a, b :| Candidate(dep, subs, a, b) && m == Weight(|subs|, a, b);
      assert m > 0.0;
    }
  }

  /** The loop that fills the first entries of `graph_vector`. */
  method BuildGraphVector(dep: (NodeId, NodeId) -> bool, subs: seq<NodeId>) returns (v: seq<real>)
    requires |subs| >= 2
    ensures v == StageDependences(dep, subs, 0)
  {
    v := [];
    var i := 0;
    while i < |subs| - 1
      invariant 0 <= i <= |subs| - 1
      invariant v + StageDependences(dep, subs, i) == StageDependences(dep, subs, 0)
    {
      v := v + [if dep(subs[i + 1], subs[i]) then 1.0 else 0.0];
      i := i + 1;
    }
  }

  /** The nested loops that search `min_weight`. */
  method FindMinWeight(dep: (NodeId, NodeId) -> bool, subs: seq<NodeId>) returns (minWeight: real)
    requires |subs| >= 2
    ensures minWeight == MinWeightOf(dep, subs)
  {
    minWeight := 1.0;
    var n := |subs|;
    var i := 0;
    while i < n - 1
      invariant 0 <= i <= n - 1
      invariant AllFold(dep, subs, i, minWeight) == MinWeightOf(dep, subs)
    {
      ghost var rowStart := minWeight;
      var j := i + 1;
      while j < n
        invariant i + 1 <= j <= n
        invariant RowFold(dep, subs, i, j, minWeight) == RowFold(dep, subs, i, i + 1, rowStart)
      {
        if dep(subs[i], subs[j]) {
          var nodeWeight := 1.0 - (j - i) as real / (n - 1) as real;
          if minWeight > nodeWeight > 0.0 {
            minWeight := nodeWeight;
          }
        }
        j := j + 1;
      }
      i := i + 1;
    }
  }

  /** Both vectors of `__detect_pipeline` for at least two stages. */
  method BuildPipelineVectors(dep: (NodeId, NodeId) -> bool, subs: seq<NodeId>) returns (graphVector: seq<real>, pipelineVector: seq<real>)
    requires |subs| >= 2
    ensures (graphVector, pipelineVector) == PipelineVectors(dep, subs)
  {
    graphVector := BuildGraphVector(dep, subs);
    pipelineVector := [];
    var i := 0;
    while i < |subs| - 1
      invariant 0 <= i <= |subs| - 1
      invariant pipelineVector == seq(i, _ => 1.0)
    {
      pipelineVector := pipelineVector + [1.0];
      i := i + 1;
    }
    var minWeight := FindMinWeight(dep, subs);
    if minWeight == 1.0 {
      graphVector := graphVector + [0.0];
      pipelineVector := pipelineVector + [0.0];
    } else {
      graphVector := graphVector + [1.0];
      pipelineVector := pipelineVector + [minWeight];
    }
  }

  // ------------------------------------------------------------- do-all vector

  /** Row `i` of the do-all vector from column `j` on: 0 for a dependence, else 1. */
  function DoAllRow(dep: (NodeId, NodeId) -> bool, subs: seq<NodeId>, i: nat, j: nat): (r: seq<real>)
    requires i < |subs| && j <= |subs|
    ensures |r| == |subs| - j
    decreases |subs| - j
  {
    if j == |subs| then []
    else [if dep(subs[i], subs[j]) then 0.0 else 1.0] + DoAllRow(dep, subs, i, j + 1)
  }

  /** Entry `k` of the row compares `subs[i]` with `subs[j + k]`. */
  lemma {:induction false} DoAllRowEntry(dep: (NodeId, NodeId) -> bool, subs: seq<NodeId>, i: nat, j: nat, k: nat)
    requires i < |subs| && j + k < |subs|
    ensures DoAllRow(dep, subs, i, j)[k] == if dep(subs[i], subs[j + k]) then 0.0 else 1.0
    decreases k
  {
    if k > 0 {
      DoAllRowEntry(dep, subs, i, j + 1, k - 1);
    }
  }

  /** The do-all vector from row `i` on: one entry per pair `i <= a <= b`, row by row. */
  function DoAllVector(dep: (NodeId, NodeId) -> bool, subs: seq<NodeId>, i: nat): seq<real>
    requires i <= |subs|
    decreases |subs| - i
  {
    if i == |subs| then [] else DoAllRow(dep, subs, i, i) + DoAllVector(dep, subs, i + 1)
  }

  /** Where row `a` starts in the vector built from row `i`. */
  function RowStart(n: nat, i: nat, a: nat): nat
    requires i <= a <= n
    decreases a - i
  {
    if a == i then 0 else (n - i) + RowStart(n, i + 1, a)
  }

  /** The vector has `n (n + 1) / 2` entries for `n` children. */
  lemma {:induction false} DoAllVectorLength(dep: (NodeId, NodeId) -> bool, subs: seq<NodeId>, i: nat)
    requires i <= |subs|
    ensures 2 * |DoAllVector(dep, subs, i)| == (|subs| - i) * (|subs| - i + 1)
    decreases |subs| - i
  {
    if i < |subs| {
      DoAllVectorLength(dep, subs, i + 1);
      var m := |subs| - i;
      assert |DoAllVector(dep, subs, i)| == m + |DoAllVector(dep, subs, i + 1)|;
      assert (m - 1) * m + 2 * m == m * (m + 1);
    }
  }

  /** The whole vector has `n (n + 1) / 2` entries for `n` stages. */
  lemma DoAllVectorFullLength(dep: (NodeId, NodeId) -> bool, subs: seq<NodeId>)
    ensures 2 * |DoAllVector(dep, subs, 0)| == |subs| * (|subs| + 1)
  {
    DoAllVectorLength(dep, subs, 0);
  }

  /** The entry for the pair (`a`, `b`) is 0 exactly when `subs[a]` depends on `subs[b]`. */
  lemma {:induction false} DoAllVectorEntry(dep: (NodeId, NodeId) -> bool, subs: seq<NodeId>, i: nat, a: nat, b: nat)
    requires i <= a <= b < |subs|
    ensures var v := DoAllVector(dep, subs, i);
            var k := RowStart(|subs|, i, a) + (b - a);
            k < |v| && v[k] == if dep(subs[a], subs[b]) then 0.0 else 1.0
    decreases a - i
  {
    if a > i {
      DoAllVectorEntry(dep, subs, i + 1, a, b);
    } else {
      DoAllRowEntry(dep, subs, a, a, b - a);
    }
  }

  /** The entry for the pair (`a`, `b`) of the whole vector. */
  lemma DoAllVectorFullEntry(v: seq<real>, dep: (NodeId, NodeId) -> bool, subs: seq<NodeId>, a: nat, b: nat, d: bool)
    requires a <= b < |subs| && d == dep(subs[a], subs[b]) && v == DoAllVector(dep, subs, 0)
    ensures var k := RowStart(|subs|, 0, a) + (b - a);
            k < |v| && v[k] == if d then 0.0 else 1.0
  {
    DoAllVectorEntry(dep, subs, 0, a, b);
  }

  /** The number of ones in a vector. */
  function Ones(v: seq<real>): nat {
    if v == [] then 0 else (if v[0] == 1.0 then 1 else 0) + Ones(v[1..])
  }

  /** The do-all decision `correlation > 0.9` for a 0/1 vector `v` with `c` ones against
      the all-ones vector, whose correlation is the square root of `c / |v|` (0 when `c` is
      0), so that, exactly in the reals, it holds when `100 c > 81 |v|`. */
  predicate DoAllExceeds(v: seq<real>) {
    Ones(v) > 0 && 100 * Ones(v) > 81 * |v|
  }

  /** The decision is the real-number test `c > 0.81 |v|`, that is, `c / |v| > 0.81`
      multiplied out by the positive length. */
  lemma DoAllExceedsMeaning(v: seq<real>)
    ensures DoAllExceeds(v) <==> Ones(v) > 0 && Ones(v) as real > 0.81 * |v| as real
  {
    var c := Ones(v);
    assert (100 * c) as real == 100.0 * c as real;
    assert (81 * |v|) as real == 81.0 * |v| as real;
  }

  /** The inner loop of `__detect_do_all`: row `i`. */
  method BuildDoAllRow(dep: (NodeId, NodeId) -> bool, subs: seq<NodeId>, i: nat) returns (row: seq<real>)
    requires i < |subs|
    ensures row == DoAllRow(dep, subs, i, i)
  {
    row := [];
    var j := i;
    while j < |subs|
      invariant i <= j <= |subs|
      invariant row + DoAllRow(dep, subs, i, j) == DoAllRow(dep, subs, i, i)
    {
      var x := if dep(subs[i], subs[j]) then 0.0 else 1.0;
      assert DoAllRow(dep, subs, i, j) == [x] + DoAllRow(dep, subs, i, j + 1);
      row := row + [x];
      j := j + 1;
    }
  }

  /** The outer loop of `__detect_do_all`. */
  method BuildDoAllVector(dep: (NodeId, NodeId) -> bool, subs: seq<NodeId>) returns (v: seq<real>)
    ensures v == DoAllVector(dep, subs, 0)
  {
    v := [];
    var i := 0;
    while i < |subs|
      invariant 0 <= i <= |subs|
      invariant v + DoAllVector(dep, subs, i) == DoAllVector(dep, subs, 0)
    {
      var row := BuildDoAllRow(dep, subs, i);
      assert v + DoAllVector(dep, subs, i) == (v + row) + DoAllVector(dep, subs, i + 1);
      v := v + row;
      i := i + 1;
    }
  }
}
