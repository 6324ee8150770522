/** Suggesting taskwaits where tasks meet their dependences, repeated until nothing
    changes: `__detect_barrier_suggestions`
    (graph_analyzer/pattern_detectors/task_parallelism_detector.py).

    The pass sets the visualisation flags of the graph (`viz_contains_task`,
    `viz_contains_taskwait`, `viz_omittable`) and appends a taskwait suggestion
    for every unit it marks as a new barrier. */
module BarrierSuggestions {
  import opened Wrappers
  import opened Text
  import opened PetGraph
  import opened PetState
  import opened Suggestion
  import opened UselessBarriers

  // ------------------------------------------------------------ the split

  /** The first loop: the units of the task suggestions and of the taskwait
      suggestions, in order. Region suggestions are skipped; a task suggestion
      without a pragma raises IndexError. */
  function SplitNodes(xs: seq<Suggestion>): Result<(seq<NodeId>, seq<NodeId>)> {
    if xs == [] then Ok(([], []))
    else
      var x := xs[|xs| - 1];
      match SplitNodes(xs[..|xs| - 1])
      case Err(e) => Err(e)
      case Ok(parts) =>
        if x.RegionInfo? then Ok(parts)
        else
          match FirstPragma(x)
          case Err(e) => Err(e)
          case Ok(p) => if p == "taskwait" then Ok((parts.0, parts.1 + [x.node])) else Ok((parts.0 + [x.node], parts.1))
  }

  /** A task or taskwait suggestion with the given role on unit `n`. */
  ghost predicate TaskOn(xs: seq<Suggestion>, n: NodeId) {
    exists x :: x in xs && x.TaskInfo? && !IsTaskwait(x) && x.node == n
  }

  ghost predicate TaskwaitOn(xs: seq<Suggestion>, n: NodeId) {
    exists x :: x in xs && IsTaskwait(x) && x.node == n
  }

  /** The split raises exactly when a task suggestion has an empty pragma. */
  lemma {:induction false} SplitNodesErr(xs: seq<Suggestion>)
    ensures SplitNodes(xs).Ok? <==> forall x :: x in xs && x.TaskInfo? ==> |x.pragma| > 0
  {
    if xs != [] {
      var init := xs[..|xs| - 1];
      SplitNodesErr(init);
      assert forall x :: x in xs <==> x in init || x == xs[|xs| - 1];
    }
  }

  /** The split lists exactly the units of the task and of the taskwait suggestions. */
  lemma {:induction false} SplitNodesMember(xs: seq<Suggestion>, n: NodeId)
    requires SplitNodes(xs).Ok?
    ensures n in SplitNodes(xs).value.0 <==> TaskOn(xs, n)
    ensures n in SplitNodes(xs).value.1 <==> TaskwaitOn(xs, n)
  {
    if xs != [] {
      var init := xs[..|xs| - 1];
      var x := xs[|xs| - 1];
      SplitNodesMember(init, n);
      assert forall y :: y in xs <==> y in init || y == x;
      if TaskOn(init, n) {
        var y :| y in init && y.TaskInfo? && !IsTaskwait(y) && y.node == n;
        assert y in xs;
      }
      if TaskwaitOn(init, n) {
        var y :| y in init && IsTaskwait(y) && y.node == n;
        assert y in xs;
      }
    }
  }

  method SplitForBarriers(xs: seq<Suggestion>) returns (r: Result<(seq<NodeId>, seq<NodeId>)>)
    ensures r == SplitNodes(xs)
  {
    var tasks: seq<NodeId> := [];
    var taskwaits: seq<NodeId> := [];
    var i := 0;
    assert xs[..0] == [];
    while i < |xs|
      invariant 0 <= i <= |xs|
      invariant SplitNodes(xs[..i]) == Ok((tasks, taskwaits))
    {
      assert xs[..i + 1][..i] == xs[..i];
      var s := xs[i];
      if !s.RegionInfo? {
        if |s.pragma| == 0 {
          SplitNodesStops(xs, i + 1);
          return Err(IndexError("list index out of range"));
        }
        if s.pragma[0] == "taskwait" {
          taskwaits := taskwaits + [s.node];
        } else {
          tasks := tasks + [s.node];
        }
      }
      i := i + 1;
    }
    assert xs[..i] == xs;
    return Ok((tasks, taskwaits));
  }

  lemma {:induction false} SplitNodesStops(xs: seq<Suggestion>, n: nat)
    requires n <= |xs| && SplitNodes(xs[..n]).Err?
    ensures SplitNodes(xs) == SplitNodes(xs[..n])
    decreases |xs| - n
  {
    if n < |xs| {
      assert xs[..n + 1][..n] == xs[..n];
      SplitNodesStops(xs, n + 1);
    } else {
      assert xs[..n] == xs;
    }
  }

  // ------------------------------------------------------------ one unit

  /** The line text of a unit's start, `startsAtLine[v]` after its colon. */
  function StartText(g: Graph, v: NodeId): (r: string)
    requires v in g.nodes
    ensures LineText(StartPosition(g.nodes[v])) == Some(r)
  {
    ParseIdInvertsPositions(g.nodes[v]);
    LineText(StartPosition(g.nodes[v])).value
  }

  function EndText(g: Graph, v: NodeId): (r: string)
    requires v in g.nodes
    ensures LineText(EndPosition(g.nodes[v])) == Some(r)
  {
    ParseIdInvertsPositions(g.nodes[v]);
    LineText(EndPosition(g.nodes[v])).value
  }

  /** The targets of the unit's outgoing dependence edges, in edge order. */
  function DepTargets(g: Graph, v: NodeId): (r: seq<NodeId>)
    requires Wf(g)
    ensures forall t :: t in r ==> t in g.nodes
  {
    var es := OutEdges(g, v, Some(Data));
    assert forall i :: 0 <= i < |es| ==> es[i] in g.edges;
    Targets(es)
  }

  /** `(task_count, barrier_count, normal_count)`: a target counts as a task if it
      is a task unit, else as a barrier if it is a barrier unit. */
  function Counts(ts: seq<NodeId>, tasks: seq<NodeId>, barriers: seq<NodeId>): (c: (nat, nat, nat))
    ensures c.0 + c.1 + c.2 == |ts|
    ensures c.0 == 0 <==> forall t :: t in ts ==> t !in tasks
    ensures c.1 == 0 <==> forall t :: t in ts ==> t in tasks || t !in barriers
  {
    if ts == [] then (0, 0, 0)
    else
      var c := Counts(ts[..|ts| - 1], tasks, barriers);
      var t := ts[|ts| - 1];
      assert forall u :: u in ts <==> u in ts[..|ts| - 1] || u == t;
      if t in tasks then (c.0 + 1, c.1, c.2)
      else if t in barriers then (c.0, c.1 + 1, c.2)
      else (c.0, c.1, c.2 + 1)
  }

  /** The counting loop over the outgoing dependence edges. */
  method CountTargets(ts: seq<NodeId>, tasks: seq<NodeId>, barriers: seq<NodeId>) returns (tc: nat, bc: nat, nc: nat)
    ensures (tc, bc, nc) == Counts(ts, tasks, barriers)
  {
    tc, bc, nc := 0, 0, 0;
    var i := 0;
    assert ts[..0] == [];
    while i < |ts|
      invariant 0 <= i <= |ts|
      invariant (tc, bc, nc) == Counts(ts[..i], tasks, barriers)
    {
      assert ts[..i + 1][..i] == ts[..i];
      if ts[i] in tasks {
        tc := tc + 1;
      } else if ts[i] in barriers {
        bc := bc + 1;
      } else {
        nc := nc + 1;
      }
      i := i + 1;
    }
    assert ts[..i] == ts;
  }

  /** `[t for t in targets if flag[t] == 'True']`. */
  function Having(ts: seq<NodeId>, flag: set<NodeId>): (r: seq<NodeId>)
    ensures forall t :: t in r <==> t in ts && t in flag
  {
    if ts == [] then []
    else
      var rest := Having(ts[1..], flag);
      assert forall t :: t in ts <==> t == ts[0] || t in ts[1..];
      if ts[0] in flag then [ts[0]] + rest else rest
  }

  /** Barrier `cb` covers task `ct`: it starts and ends after it, comparing the
      line texts as strings. */
  predicate Covers(g: Graph, cb: NodeId, ct: NodeId)
    requires cb in g.nodes && ct in g.nodes
  {
    StrLess(StartText(g, ct), StartText(g, cb)) && StrLess(EndText(g, ct), EndText(g, cb))
  }

  predicate AllIn(g: Graph, ns: seq<NodeId>) {
    forall n :: n in ns ==> n in g.nodes
  }

  /** `uncovered_task_exists` after the nested loops: some barrier fails to cover some task. */
  predicate Uncovered(g: Graph, cts: seq<NodeId>, cbs: seq<NodeId>)
    requires AllIn(g, cts) && AllIn(g, cbs)
  {
    exists i, j :: 0 <= i < |cts| && 0 <= j < |cbs| && !Covers(g, cbs[j], cts[i])
  }

  /** `uncovered_task_exists` after the pairs before `(a, b)`. */
  predicate UncoveredBefore(g: Graph, cts: seq<NodeId>, cbs: seq<NodeId>, a: nat, b: nat)
    requires AllIn(g, cts) && AllIn(g, cbs)
  {
    exists i, j :: 0 <= i < |cts| && 0 <= j < |cbs| && (i < a || (i == a && j < b)) && !Covers(g, cbs[j], cts[i])
  }

  /** The nested loops over the child tasks and the child barriers. */
  method FindUncovered(g: Graph, cts: seq<NodeId>, cbs: seq<NodeId>) returns (u: bool)
    requires AllIn(g, cts) && AllIn(g, cbs)
    ensures u == Uncovered(g, cts, cbs)
  {
    u := false;
    UncoveredNone(g, cts, cbs);
    for a := 0 to |cts|
      invariant u <==> UncoveredBefore(g, cts, cbs, a, 0)
    {
      for b := 0 to |cbs|
        invariant u <==> UncoveredBefore(g, cts, cbs, a, b)
      {
        UncoveredStep(g, cts, cbs, a, b);
        if !Covers(g, cbs[b], cts[a]) {
          u := true;
        }
      }
      UncoveredRow(g, cts, cbs, a);
    }
    UncoveredAll(g, cts, cbs);
  }

  lemma UncoveredNone(g: Graph, cts: seq<NodeId>, cbs: seq<NodeId>)
    requires AllIn(g, cts) && AllIn(g, cbs)
    ensures !UncoveredBefore(g, cts, cbs, 0, 0)
  {
  }

  lemma UncoveredStep(g: Graph, cts: seq<NodeId>, cbs: seq<NodeId>, a: nat, b: nat)
    requires AllIn(g, cts) && AllIn(g, cbs) && a < |cts| && b < |cbs|
    ensures UncoveredBefore(g, cts, cbs, a, b + 1) <==> UncoveredBefore(g, cts, cbs, a, b) || !Covers(g, cbs[b], cts[a])
  {
    if UncoveredBefore(g, cts, cbs, a, b + 1) && !UncoveredBefore(g, cts, cbs, a, b) {
      var i, j :| 0 <= i < |cts| && 0 <= j < |cbs| && (i < a || (i == a && j < b + 1)) && !Covers(g, cbs[j], cts[i]);
      assert i == a && j == b;
    }
  }

  lemma UncoveredRow(g: Graph, cts: seq<NodeId>, cbs: seq<NodeId>, a: nat)
    requires AllIn(g, cts) && AllIn(g, cbs) && a < |cts|
    ensures UncoveredBefore(g, cts, cbs, a, |cbs|) <==> UncoveredBefore(g, cts, cbs, a + 1, 0)
  {
  }

  lemma UncoveredAll(g: Graph, cts: seq<NodeId>, cbs: seq<NodeId>)
    requires AllIn(g, cts) && AllIn(g, cbs)
    ensures UncoveredBefore(g, cts, cbs, |cts|, 0) <==> Uncovered(g, cts, cbs)
  {
  }

  /** Some task target is not covered by some barrier target. */
  ghost predicate NeedsBarrier(g: Graph, ts: seq<NodeId>, hasTask: set<NodeId>, hasTaskwait: set<NodeId>)
    requires AllIn(g, ts)
  {
    exists ct, cb :: ct in ts && ct in hasTask && cb in ts && cb in hasTaskwait && !Covers(g, cb, ct)
  }

  lemma UncoveredMeaning(g: Graph, ts: seq<NodeId>, hasTask: set<NodeId>, hasTaskwait: set<NodeId>)
    requires AllIn(g, ts)
    ensures Uncovered(g, Having(ts, hasTask), Having(ts, hasTaskwait)) <==> NeedsBarrier(g, ts, hasTask, hasTaskwait)
  {
    var cts := Having(ts, hasTask);
    var cbs := Having(ts, hasTaskwait);
    if NeedsBarrier(g, ts, hasTask, hasTaskwait) {
      var ct, cb :| ct in ts && ct in hasTask && cb in ts && cb in hasTaskwait && !Covers(g, cb, ct);
      var i :| 0 <= i < |cts| && cts[i] == ct;
      var j :| 0 <= j < |cbs| && cbs[j] == cb;
      assert !Covers(g, cbs[j], cts[i]);
    }
  }

  // ------------------------------------------------------------ a sweep

  /** The flags the sweeps change, the barrier units, the suggestions appended so
      far and `transformation_happened`. */
  datatype Sweep = Sweep(omittable: set<NodeId>, taskwait: set<NodeId>, barriers: seq<NodeId>,
                         added: seq<Suggestion>, changed: bool)

  /** `TaskParallelismInfo(pet, v, ["taskwait"], v_first_line, [], [], [])`. */
  function TaskwaitAt(g: Graph, v: NodeId): (s: Suggestion)
    requires v in g.nodes
    ensures IsTaskwait(s) && s.node == v && s.pragmaLine == StartText(g, v)
  {
    NewTaskInfo(g, v, ["taskwait"], StartText(g, v), [], [], [])
  }

  function AddBarrier(g: Graph, st: Sweep, v: NodeId): Sweep
    requires v in g.nodes
  {
    st.(taskwait := st.taskwait + {v}, barriers := st.barriers + [v],
        added := st.added + [TaskwaitAt(g, v)], changed := true)
  }

  /** The body of the sweep for unit `v`. */
  function Visit(g: Graph, tasks: seq<NodeId>, hasTask: set<NodeId>, st: Sweep, v: NodeId): Sweep
    requires Wf(g) && v in g.nodes
  {
    var ts := DepTargets(g, v);
    var c := Counts(ts, tasks, st.barriers);
    if c.0 == 1 && c.1 == 0 then
      if v !in st.omittable then st.(omittable := st.omittable + {v}, changed := true) else st
    else if c.1 != 0 && c.0 != 0 then
      if Uncovered(g, Having(ts, hasTask), Having(ts, st.taskwait)) then
        if v !in st.taskwait then AddBarrier(g, st, v) else st
      else st
    else if c.0 != 0 then
      if v !in st.taskwait then AddBarrier(g, st, v) else st
    else st
  }

  /** One pass of `for v in pet.graph.vertices()`. */
  function SweepAll(g: Graph, tasks: seq<NodeId>, hasTask: set<NodeId>, st: Sweep, vs: seq<NodeId>): Sweep
    requires Wf(g) && AllIn(g, vs)
  {
    if vs == [] then st
    else Visit(g, tasks, hasTask, SweepAll(g, tasks, hasTask, st, vs[..|vs| - 1]), vs[|vs| - 1])
  }

  /** The units whose flags can still be set. */
  function Measure(g: Graph, st: Sweep): nat {
    |g.nodes.Keys - st.omittable| + |g.nodes.Keys - st.taskwait|
  }

  /** A visit changes nothing, marks `v` omittable, or makes `v` a new barrier. */
  lemma VisitShape(g: Graph, tasks: seq<NodeId>, hasTask: set<NodeId>, st: Sweep, v: NodeId)
    requires Wf(g) && v in g.nodes
    ensures var r := Visit(g, tasks, hasTask, st, v);
      || r == st
      || (v !in st.omittable && r == st.(omittable := st.omittable + {v}, changed := true))
      || (v !in st.taskwait && r == AddBarrier(g, st, v))
  {
  }

  /** A visit either changes nothing or sets a flag that was unset. */
  lemma VisitProgress(g: Graph, tasks: seq<NodeId>, hasTask: set<NodeId>, st: Sweep, v: NodeId)
    requires Wf(g) && v in g.nodes
    ensures var r := Visit(g, tasks, hasTask, st, v);
      r == st || (r.changed && Measure(g, r) < Measure(g, st))
  {
    VisitShape(g, tasks, hasTask, st, v);
    var r := Visit(g, tasks, hasTask, st, v);
    if r != st {
      SetFlagLowers(g, st, r, v);
    }
  }

  /** Setting an unset flag of a unit lowers the measure. */
  lemma SetFlagLowers(g: Graph, st: Sweep, r: Sweep, v: NodeId)
    requires v in g.nodes
    requires || (v !in st.omittable && r == st.(omittable := st.omittable + {v}, changed := true))
             || (v !in st.taskwait && r == AddBarrier(g, st, v))
    ensures Measure(g, r) < Measure(g, st)
  {
    var keys := g.nodes.Keys;
    if v !in st.omittable && r == st.(omittable := st.omittable + {v}, changed := true) {
      assert keys - r.omittable == (keys - st.omittable) - {v};
      assert v in keys - st.omittable;
    } else {
      assert keys - r.taskwait == (keys - st.taskwait) - {v};
      assert v in keys - st.taskwait;
    }
  }

  lemma {:induction false} SweepAllProgress(g: Graph, tasks: seq<NodeId>, hasTask: set<NodeId>, st: Sweep, vs: seq<NodeId>)
    requires Wf(g) && AllIn(g, vs)
    ensures var r := SweepAll(g, tasks, hasTask, st, vs);
      r == st || (r.changed && Measure(g, r) < Measure(g, st))
  {
    if vs != [] {
      var init := vs[..|vs| - 1];
      assert AllIn(g, init);
      SweepAllProgress(g, tasks, hasTask, st, init);
      VisitProgress(g, tasks, hasTask, SweepAll(g, tasks, hasTask, st, init), vs[|vs| - 1]);
    }
  }

  /** `while transformation_happened`: sweep until a sweep changes nothing. */
  function Converge(g: Graph, tasks: seq<NodeId>, hasTask: set<NodeId>, st: Sweep): Sweep
    requires Wf(g)
    decreases Measure(g, st)
  {
    assert AllIn(g, g.order);
    var next := SweepAll(g, tasks, hasTask, st.(changed := false), g.order);
    SweepAllProgress(g, tasks, hasTask, st.(changed := false), g.order);
    if next.changed then Converge(g, tasks, hasTask, next) else next
  }

  // ------------------------------------------------------------ what the sweeps keep

  function AddedNodes(added: seq<Suggestion>): (r: seq<NodeId>)
    ensures |r| == |added| && forall k :: 0 <= k < |added| ==> r[k] == added[k].node
  {
    seq(|added|, k requires 0 <= k < |added| => added[k].node)
  }

  /** Relative to the state before the first sweep: flags only grow; every appended
      suggestion is a taskwait on a unit that had no taskwait flag, which is now a
      barrier unit and flagged; no unit gets two. */
  ghost predicate Keeps(g: Graph, base: Sweep, st: Sweep) {
    && base.omittable <= st.omittable
    && st.barriers == base.barriers + AddedNodes(st.added)
    && (forall n :: n in st.taskwait <==> n in base.taskwait || n in AddedNodes(st.added))
    && (forall k :: 0 <= k < |st.added| ==>
          st.added[k].node in g.nodes && st.added[k] == TaskwaitAt(g, st.added[k].node) &&
          st.added[k].node !in base.taskwait)
    && (forall k, l :: 0 <= k < l < |st.added| ==> st.added[k].node != st.added[l].node)
  }

  lemma VisitKeeps(g: Graph, tasks: seq<NodeId>, hasTask: set<NodeId>, base: Sweep, st: Sweep, v: NodeId)
    requires Wf(g) && v in g.nodes && Keeps(g, base, st)
    ensures Keeps(g, base, Visit(g, tasks, hasTask, st, v))
  {
    VisitShape(g, tasks, hasTask, st, v);
    var r := Visit(g, tasks, hasTask, st, v);
    if r.added != st.added {
      AddBarrierKeeps(g, base, st, v);
    }
  }

  lemma AddBarrierKeeps(g: Graph, base: Sweep, st: Sweep, v: NodeId)
    requires v in g.nodes && v !in st.taskwait && Keeps(g, base, st)
    ensures Keeps(g, base, AddBarrier(g, st, v))
  {
    var r := AddBarrier(g, st, v);
    assert AddedNodes(r.added) == AddedNodes(st.added) + [v];
    forall k | 0 <= k < |st.added| ensures r.added[k].node != v {
      assert AddedNodes(st.added)[k] in AddedNodes(st.added);
    }
  }

  lemma {:induction false} SweepAllKeeps(g: Graph, tasks: seq<NodeId>, hasTask: set<NodeId>, base: Sweep, st: Sweep, vs: seq<NodeId>)
    requires Wf(g) && AllIn(g, vs) && Keeps(g, base, st)
    ensures Keeps(g, base, SweepAll(g, tasks, hasTask, st, vs))
  {
    if vs != [] {
      var init := vs[..|vs| - 1];
      assert AllIn(g, init);
      SweepAllKeeps(g, tasks, hasTask, base, st, init);
      VisitKeeps(g, tasks, hasTask, base, SweepAll(g, tasks, hasTask, st, init), vs[|vs| - 1]);
    }
  }

  lemma {:induction false} ConvergeKeeps(g: Graph, tasks: seq<NodeId>, hasTask: set<NodeId>, base: Sweep, st: Sweep)
    requires Wf(g) && Keeps(g, base, st)
    ensures Keeps(g, base, Converge(g, tasks, hasTask, st))
    decreases Measure(g, st)
  {
    assert AllIn(g, g.order);
    var next := SweepAll(g, tasks, hasTask, st.(changed := false), g.order);
    SweepAllProgress(g, tasks, hasTask, st.(changed := false), g.order);
    SweepAllKeeps(g, tasks, hasTask, base, st.(changed := false), g.order);
    if next.changed {
      ConvergeKeeps(g, tasks, hasTask, base, next);
    }
  }

  // ------------------------------------------------------------ convergence

  /** Unit `v` needs no further change: a unit with exactly one task dependence and
      no barrier dependence is omittable; one with task and barrier dependences
      where some barrier does not cover some task, or with several task and no
      barrier dependences, is flagged as containing a taskwait. */
  ghost predicate Settled(g: Graph, tasks: seq<NodeId>, hasTask: set<NodeId>, st: Sweep, v: NodeId)
    requires Wf(g) && v in g.nodes
  {
    var ts := DepTargets(g, v);
    var c := Counts(ts, tasks, st.barriers);
    && (c.0 == 1 && c.1 == 0 ==> v in st.omittable)
    && (c.0 != 0 && c.1 != 0 && NeedsBarrier(g, ts, hasTask, st.taskwait) ==> v in st.taskwait)
    && (c.0 > 1 && c.1 == 0 ==> v in st.taskwait)
  }

  /** A visit that changes nothing finds the unit settled. */
  lemma VisitQuiet(g: Graph, tasks: seq<NodeId>, hasTask: set<NodeId>, st: Sweep, v: NodeId)
    requires Wf(g) && v in g.nodes && !st.changed && !Visit(g, tasks, hasTask, st, v).changed
    ensures Visit(g, tasks, hasTask, st, v) == st
    ensures Settled(g, tasks, hasTask, st, v)
  {
    UncoveredMeaning(g, DepTargets(g, v), hasTask, st.taskwait);
  }

  /** A sweep that changes nothing finds every unit it visits settled. */
  lemma {:induction false} SweepAllQuiet(g: Graph, tasks: seq<NodeId>, hasTask: set<NodeId>, st: Sweep, vs: seq<NodeId>)
    requires Wf(g) && AllIn(g, vs) && !st.changed && !SweepAll(g, tasks, hasTask, st, vs).changed
    ensures SweepAll(g, tasks, hasTask, st, vs) == st
    ensures forall v :: v in vs ==> Settled(g, tasks, hasTask, st, v)
  {
    if vs != [] {
      var init := vs[..|vs| - 1];
      assert AllIn(g, init);
      var mid := SweepAll(g, tasks, hasTask, st, init);
      VisitProgress(g, tasks, hasTask, mid, vs[|vs| - 1]);
      SweepAllQuiet(g, tasks, hasTask, st, init);
      VisitQuiet(g, tasks, hasTask, st, vs[|vs| - 1]);
      assert forall v :: v in vs ==> v in init || v == vs[|vs| - 1];
    }
  }

  /** The repetition stops only when every unit of the graph is settled. */
  lemma {:induction false} ConvergeSettled(g: Graph, tasks: seq<NodeId>, hasTask: set<NodeId>, st: Sweep, v: NodeId)
    requires Wf(g) && v in g.nodes
    ensures Settled(g, tasks, hasTask, Converge(g, tasks, hasTask, st), v)
    decreases Measure(g, st)
  {
    assert AllIn(g, g.order);
    var next := SweepAll(g, tasks, hasTask, st.(changed := false), g.order);
    SweepAllProgress(g, tasks, hasTask, st.(changed := false), g.order);
    if next.changed {
      ConvergeSettled(g, tasks, hasTask, next, v);
    } else {
      SweepAllQuiet(g, tasks, hasTask, st.(changed := false), g.order);
    }
  }

  // ------------------------------------------------------------ the pass

  /** The three visualisation flags, each as the set of units where it is 'True'. */
  datatype VizFlags = VizFlags(hasTask: set<NodeId>, hasTaskwait: set<NodeId>, omittable: set<NodeId>)

  /** The state before the first sweep. */
  function StartSweep(f: VizFlags, taskwaits: seq<NodeId>): Sweep {
    Sweep(f.omittable, f.hasTaskwait + (set n | n in taskwaits), taskwaits, [], true)
  }

  /** `__detect_barrier_suggestions(pet, suggestions)`: the new flags and the
      suggestion list with the taskwaits appended. */
  function BarrierPassOf(g: Graph, f: VizFlags, xs: seq<Suggestion>): Result<(VizFlags, seq<Suggestion>)>
    requires Wf(g)
  {
    match SplitNodes(xs)
    case Err(e) => Err(e)
    case Ok((tasks, taskwaits)) =>
      var hasTask := f.hasTask + (set n | n in tasks);
      var fin := Converge(g, tasks, hasTask, StartSweep(f, taskwaits));
      Ok((VizFlags(hasTask, fin.taskwait, fin.omittable), xs + fin.added))
  }

  /** The pass raises exactly when a task suggestion has an empty pragma. */
  lemma BarrierPassErr(g: Graph, f: VizFlags, xs: seq<Suggestion>)
    requires Wf(g)
    ensures BarrierPassOf(g, f, xs).Err? <==> exists x :: x in xs && x.TaskInfo? && |x.pragma| == 0
  {
    SplitNodesErr(xs);
  }

  /** The pass keeps the given suggestions in front and only appends; the task flag
      is set exactly on the task units in addition; no flag is cleared. */
  lemma BarrierPassKeeps(g: Graph, f: VizFlags, xs: seq<Suggestion>, n: NodeId)
    requires Wf(g) && BarrierPassOf(g, f, xs).Ok?
    ensures var (f', out) := BarrierPassOf(g, f, xs).value;
      && |xs| <= |out| && out[..|xs|] == xs
      && (n in f'.hasTask <==> n in f.hasTask || TaskOn(xs, n))
      && f.omittable <= f'.omittable && f.hasTaskwait <= f'.hasTaskwait
  {
    var (tasks, taskwaits) := SplitNodes(xs).value;
    SplitNodesMember(xs, n);
    var hasTask := f.hasTask + (set m | m in tasks);
    var st0 := StartSweep(f, taskwaits);
    assert Keeps(g, st0, st0);
    ConvergeKeeps(g, tasks, hasTask, st0, st0);
    var out := BarrierPassOf(g, f, xs).value.1;
    assert out[..|xs|] == xs;
  }

  /** Every appended suggestion is a taskwait `TaskParallelismInfo(pet, v, ["taskwait"],
      v_first_line, [], [], [])` on a unit that had neither a taskwait flag nor a
      taskwait suggestion; it is now flagged, and no unit gets two. */
  lemma BarrierPassAdds(g: Graph, f: VizFlags, xs: seq<Suggestion>)
    requires Wf(g) && BarrierPassOf(g, f, xs).Ok?
    ensures var (f', out) := BarrierPassOf(g, f, xs).value;
      && |xs| <= |out|
      && (forall k :: |xs| <= k < |out| ==>
            && out[k].node in g.nodes
            && out[k] == NewTaskInfo(g, out[k].node, ["taskwait"], StartText(g, out[k].node), [], [], [])
            && out[k].node !in f.hasTaskwait && !TaskwaitOn(xs, out[k].node)
            && out[k].node in f'.hasTaskwait)
      && (forall k, l :: |xs| <= k < l < |out| ==> out[k].node != out[l].node)
  {
    var (tasks, taskwaits) := SplitNodes(xs).value;
    var hasTask := f.hasTask + (set m | m in tasks);
    var st0 := StartSweep(f, taskwaits);
    assert Keeps(g, st0, st0);
    ConvergeKeeps(g, tasks, hasTask, st0, st0);
    var fin := Converge(g, tasks, hasTask, st0);
    var out := xs + fin.added;
    forall k | |xs| <= k < |out|
      ensures !TaskwaitOn(xs, out[k].node) && out[k].node in fin.taskwait
    {
      assert out[k] == fin.added[k - |xs|];
      SplitNodesMember(xs, out[k].node);
      assert AddedNodes(fin.added)[k - |xs|] == out[k].node;
    }
  }

  /** The taskwait flag ends up set exactly on the units flagged before, the
      units of the taskwait suggestions and the units of the appended ones. */
  lemma BarrierPassTaskwaitFlags(g: Graph, f: VizFlags, xs: seq<Suggestion>, n: NodeId)
    requires Wf(g) && BarrierPassOf(g, f, xs).Ok?
    ensures var (f', out) := BarrierPassOf(g, f, xs).value;
      n in f'.hasTaskwait <==>
        n in f.hasTaskwait || TaskwaitOn(xs, n) || exists k :: |xs| <= k < |out| && out[k].node == n
  {
    var (tasks, taskwaits) := SplitNodes(xs).value;
    SplitNodesMember(xs, n);
    var hasTask := f.hasTask + (set m | m in tasks);
    var st0 := StartSweep(f, taskwaits);
    assert Keeps(g, st0, st0);
    ConvergeKeeps(g, tasks, hasTask, st0, st0);
    AppendedNodes(xs, Converge(g, tasks, hasTask, st0).added, n);
  }

  /** A unit is among the appended suggestions' units exactly when some suggestion
      after the first `|xs|` is on it. */
  lemma AppendedNodes(xs: seq<Suggestion>, added: seq<Suggestion>, n: NodeId)
    ensures n in AddedNodes(added) <==> exists k :: |xs| <= k < |xs + added| && (xs + added)[k].node == n
  {
    var out := xs + added;
    if n in AddedNodes(added) {
      var k :| 0 <= k < |added| && AddedNodes(added)[k] == n;
      assert out[|xs| + k].node == n;
    }
    if exists k :: |xs| <= k < |out| && out[k].node == n {
      var k :| |xs| <= k < |out| && out[k].node == n;
      assert AddedNodes(added)[k - |xs|] == n;
    }
  }

  /** After the pass no unit would change on another sweep: with the barrier units
      being the taskwait suggestions' and the appended ones', every unit is settled
      under the final flags. */
  lemma BarrierPassSettled(g: Graph, f: VizFlags, xs: seq<Suggestion>, v: NodeId)
    requires Wf(g) && BarrierPassOf(g, f, xs).Ok? && v in g.nodes
    ensures var (f', out) := BarrierPassOf(g, f, xs).value;
      var (tasks, taskwaits) := SplitNodes(xs).value;
      Settled(g, tasks, f'.hasTask,
              Sweep(f'.omittable, f'.hasTaskwait, taskwaits + AddedNodes(out[|xs|..]), out[|xs|..], false), v)
  {
    var (tasks, taskwaits) := SplitNodes(xs).value;
    var hasTask := f.hasTask + (set m | m in tasks);
    var st0 := StartSweep(f, taskwaits);
    assert Keeps(g, st0, st0);
    ConvergeKeeps(g, tasks, hasTask, st0, st0);
    ConvergeSettled(g, tasks, hasTask, st0, v);
    var fin := Converge(g, tasks, hasTask, st0);
    assert (xs + fin.added)[|xs|..] == fin.added;
    ConvergeQuiet(g, tasks, hasTask, st0);
  }

  /** The repetition ends on a sweep that changed nothing. */
  lemma {:induction false} ConvergeQuiet(g: Graph, tasks: seq<NodeId>, hasTask: set<NodeId>, st: Sweep)
    requires Wf(g)
    ensures !Converge(g, tasks, hasTask, st).changed
    decreases Measure(g, st)
  {
    assert AllIn(g, g.order);
    var next := SweepAll(g, tasks, hasTask, st.(changed := false), g.order);
    SweepAllProgress(g, tasks, hasTask, st.(changed := false), g.order);
    if next.changed {
      ConvergeQuiet(g, tasks, hasTask, next);
    }
  }

  // ------------------------------------------------------------ the methods

  /** The body of the sweep for unit `v`, on the flags held in `st`. */
  method VisitFlags(g: Graph, tasks: seq<NodeId>, hasTask: set<NodeId>, st: Sweep, v: NodeId) returns (st': Sweep)
    requires Wf(g) && v in g.nodes
    ensures st' == Visit(g, tasks, hasTask, st, v)
  {
    var ts := DepTargets(g, v);
    var firstLine := StartText(g, v);
    var tc, bc, nc := CountTargets(ts, tasks, st.barriers);
    st' := st;
    if tc == 1 && bc == 0 {
      if v !in st.omittable {
        st' := st.(omittable := st.omittable + {v}, changed := true);
      }
    } else if bc != 0 && tc != 0 {
      var childBarriers := Having(ts, st.taskwait);
      var childTasks := Having(ts, hasTask);
      var uncovered := FindUncovered(g, childTasks, childBarriers);
      if uncovered && v !in st.taskwait {
        st' := st.(taskwait := st.taskwait + {v}, barriers := st.barriers + [v], changed := true,
                   added := st.added + [NewTaskInfo(g, v, ["taskwait"], firstLine, [], [], [])]);
      }
    } else if tc != 0 {
      if v !in st.taskwait {
        st' := st.(taskwait := st.taskwait + {v}, barriers := st.barriers + [v], changed := true,
                   added := st.added + [NewTaskInfo(g, v, ["taskwait"], firstLine, [], [], [])]);
      }
    }
  }

  /** The body of the sweep for unit `v`, on the pet's flags. */
  method VisitUnit(pet: Pet, tasks: seq<NodeId>, v: NodeId, barriers: seq<NodeId>, added: seq<Suggestion>, changed: bool)
    returns (barriers': seq<NodeId>, added': seq<Suggestion>, changed': bool)
    requires Wf(pet.g) && v in pet.g.nodes
    modifies pet`vizOmittable, pet`vizContainsTaskwait
    ensures Sweep(pet.vizOmittable, pet.vizContainsTaskwait, barriers', added', changed') ==
      Visit(pet.g, tasks, pet.vizContainsTask,
            Sweep(old(pet.vizOmittable), old(pet.vizContainsTaskwait), barriers, added, changed), v)
  {
    var st := VisitFlags(pet.g, tasks, pet.vizContainsTask,
                         Sweep(pet.vizOmittable, pet.vizContainsTaskwait, barriers, added, changed), v);
    pet.vizOmittable, pet.vizContainsTaskwait := st.omittable, st.taskwait;
    barriers', added', changed' := st.barriers, st.added, st.changed;
  }

  /** One pass of `for v in pet.graph.vertices()`. */
  method SweepUnits(pet: Pet, tasks: seq<NodeId>, barriers: seq<NodeId>, added: seq<Suggestion>)
    returns (barriers': seq<NodeId>, added': seq<Suggestion>, changed': bool)
    requires Wf(pet.g)
    modifies pet`vizOmittable, pet`vizContainsTaskwait
    ensures Sweep(pet.vizOmittable, pet.vizContainsTaskwait, barriers', added', changed') ==
      SweepAll(pet.g, tasks, pet.vizContainsTask,
               Sweep(old(pet.vizOmittable), old(pet.vizContainsTaskwait), barriers, added, false), pet.g.order)
  {
    ghost var st0 := Sweep(pet.vizOmittable, pet.vizContainsTaskwait, barriers, added, false);
    barriers', added', changed' := barriers, added, false;
    var order := pet.g.order;
    assert AllIn(pet.g, order);
    var i := 0;
    assert order[..0] == [];
    while i < |order|
      invariant 0 <= i <= |order|
      invariant AllIn(pet.g, order[..i])
      invariant Sweep(pet.vizOmittable, pet.vizContainsTaskwait, barriers', added', changed') ==
        SweepAll(pet.g, tasks, pet.vizContainsTask, st0, order[..i])
    {
      assert order[..i + 1][..i] == order[..i];
      assert AllIn(pet.g, order[..i + 1]);
      barriers', added', changed' := VisitUnit(pet, tasks, order[i], barriers', added', changed');
      i := i + 1;
    }
    assert order[..i] == order;
  }

  /** `__detect_barrier_suggestions(pet, suggestions)`. */
  method DetectBarrierSuggestions(pet: Pet, xs: seq<Suggestion>) returns (r: Result<seq<Suggestion>>)
    requires pet.Valid()
    modifies pet`vizContainsTask, pet`vizContainsTaskwait, pet`vizOmittable
    ensures pet.g == old(pet.g) && pet.mwType == old(pet.mwType) && pet.reduction == old(pet.reduction)
    ensures pet.Valid()
    ensures r.Err? ==> BarrierPassOf(pet.g, VizFlags(old(pet.vizContainsTask), old(pet.vizContainsTaskwait), old(pet.vizOmittable)), xs) == Err(r.error)
    ensures r.Err? ==> unchanged(pet)
    ensures r.Ok? ==> BarrierPassOf(pet.g, VizFlags(old(pet.vizContainsTask), old(pet.vizContainsTaskwait), old(pet.vizOmittable)), xs)
                      == Ok((VizFlags(pet.vizContainsTask, pet.vizContainsTaskwait, pet.vizOmittable), r.value))
  {
    var parts := SplitForBarriers(xs);
    if parts.Err? {
      return Err(parts.error);
    }
    var tasks := parts.value.0;
    var taskwaits := parts.value.1;
    ghost var f := VizFlags(pet.vizContainsTask, pet.vizContainsTaskwait, pet.vizOmittable);
    MarkFlags(pet, tasks, taskwaits);
    var barriers, added := SweepUntilStable(pet, tasks, taskwaits);
    return Ok(xs + added);
  }

  /** `while transformation_happened`, starting from the barrier units of the
      taskwait suggestions. */
  method SweepUntilStable(pet: Pet, tasks: seq<NodeId>, taskwaits: seq<NodeId>)
    returns (barriers: seq<NodeId>, added: seq<Suggestion>)
    requires Wf(pet.g)
    modifies pet`vizOmittable, pet`vizContainsTaskwait
    ensures Converge(pet.g, tasks, pet.vizContainsTask,
                     Sweep(old(pet.vizOmittable), old(pet.vizContainsTaskwait), taskwaits, [], true))
            == Sweep(pet.vizOmittable, pet.vizContainsTaskwait, barriers, added, false)
  {
    ghost var st0 := Sweep(pet.vizOmittable, pet.vizContainsTaskwait, taskwaits, [], true);
    barriers, added := taskwaits, [];
    var changed := true;
    while changed
      invariant changed ==> (Converge(pet.g, tasks, pet.vizContainsTask, st0) ==
        Converge(pet.g, tasks, pet.vizContainsTask, Sweep(pet.vizOmittable, pet.vizContainsTaskwait, barriers, added, changed)))
      invariant !changed ==> (Converge(pet.g, tasks, pet.vizContainsTask, st0) ==
        Sweep(pet.vizOmittable, pet.vizContainsTaskwait, barriers, added, changed))
      decreases Measure(pet.g, Sweep(pet.vizOmittable, pet.vizContainsTaskwait, barriers, added, changed)), changed
    {
      ghost var cur := Sweep(pet.vizOmittable, pet.vizContainsTaskwait, barriers, added, false);
      assert AllIn(pet.g, pet.g.order);
      SweepAllProgress(pet.g, tasks, pet.vizContainsTask, cur, pet.g.order);
      changed := false;
      barriers, added, changed := SweepUnits(pet, tasks, barriers, added);
    }
  }

  /** The two flag-setting loops after the split. */
  method MarkFlags(pet: Pet, tasks: seq<NodeId>, taskwaits: seq<NodeId>)
    modifies pet`vizContainsTask, pet`vizContainsTaskwait
    ensures pet.vizContainsTask == old(pet.vizContainsTask) + (set n | n in tasks)
    ensures pet.vizContainsTaskwait == old(pet.vizContainsTaskwait) + (set n | n in taskwaits)
  {
    for i := 0 to |tasks|
      invariant pet.vizContainsTask == old(pet.vizContainsTask) + (set n | n in tasks[..i])
      invariant pet.vizContainsTaskwait == old(pet.vizContainsTaskwait)
    {
      assert tasks[..i + 1] == tasks[..i] + [tasks[i]];
      pet.vizContainsTask := pet.vizContainsTask + {tasks[i]};
    }
    assert tasks[..|tasks|] == tasks;
    for i := 0 to |taskwaits|
      invariant pet.vizContainsTask == old(pet.vizContainsTask) + (set n | n in tasks)
      invariant pet.vizContainsTaskwait == old(pet.vizContainsTaskwait) + (set n | n in taskwaits[..i])
    {
      assert taskwaits[..i + 1] == taskwaits[..i] + [taskwaits[i]];
      pet.vizContainsTaskwait := pet.vizContainsTaskwait + {taskwaits[i]};
    }
    assert taskwaits[..|taskwaits|] == taskwaits;
  }
}
