/** The task tree of the task-parallelism detector: tasks made from the worker,
    barrier and fork units below the main function, their aggregation and the
    workload-driven merging of a task's children
    (graph_analyzer/pattern_detectors/task_parallelism_detector.py).

    A task object is referenced from exactly one place in the tree, so the tree
    is a value here: an in-place update of a task becomes the updated value, and
    removing a task object from a list removes it at its position. */
module TaskTree {
  import opened Wrappers
  import opened Text
  import opened PetGraph
  import opened PetState
  import opened PatternQueries
  import opened MwTypes

  /** `__workloadThreshold`: a child task lighter than this is merged away. */
  const WorkloadThreshold: int := 10000
  /** `__minParallelism`: a task with fewer children absorbs its heaviest child's children. */
  const MinParallelism: nat := 3

  datatype Task = Task(
    nodeId: NodeId,
    nodes: seq<NodeId>,
    startLine: string,
    endLine: string,
    regionStartLine: string,
    mwType: MwType,
    instructionCount: int,
    workload: int,
    childTasks: seq<Task>)

  /** `Task(pet, node)`. The instruction count and the workload come from helpers
      that are not part of this model, passed in as functions. */
  function NewTask(g: Graph, mw: map<NodeId, MwType>, n: NodeId,
                   workloadOf: NodeId -> int, instructionsOf: NodeId -> int): (t: Task)
    requires n in g.nodes && n in mw
    ensures t.nodeId == n && t.nodes == [n] && t.childTasks == [] && t.mwType == mw[n]
    ensures t.startLine == StartPosition(g.nodes[n]) && t.endLine == EndPosition(g.nodes[n])
    ensures t.regionStartLine == NatToString(g.nodes[n].startLine)
  {
    var start := StartPosition(g.nodes[n]);
    ParseIdInvertsPositions(g.nodes[n]);
    var region := match AfterFirst(start, ':') case Some(rest) => rest case None => start;
    Task(n, [n], start, EndPosition(g.nodes[n]), region, mw[n], instructionsOf(n), workloadOf(n), [])
  }

  /** `first.aggregate(other)`: `first` takes over the nodes, workload, instruction
      count and end line of `other`, and becomes a WORKER or, when `other` was one,
      a BARRIER_WORKER. Its own children are kept; those of `other` are not taken. */
  function Aggregate(first: Task, other: Task): (r: Task)
    ensures r.nodes == first.nodes + other.nodes
    ensures r.workload == first.workload + other.workload
    ensures r.instructionCount == first.instructionCount + other.instructionCount
    ensures r.startLine == first.startLine && r.endLine == other.endLine
    ensures r.mwType in {Worker, BarrierWorker} && (r.mwType == BarrierWorker <==> other.mwType == BarrierWorker)
    ensures r.childTasks == first.childTasks
    ensures r.nodeId == first.nodeId && r.regionStartLine == first.regionStartLine
  {
    first.(nodes := first.nodes + other.nodes,
           endLine := other.endLine,
           workload := first.workload + other.workload,
           instructionCount := first.instructionCount + other.instructionCount,
           mwType := if other.mwType == BarrierWorker then BarrierWorker else Worker)
  }

  /** Aggregating is associative: absorbing `b` and then `c` is absorbing `b` already
      extended by `c`. */
  lemma AggregateAssociative(a: Task, b: Task, c: Task)
    ensures Aggregate(Aggregate(a, b), c) == Aggregate(a, Aggregate(b, c))
  {
    assert (a.nodes + b.nodes) + c.nodes == a.nodes + (b.nodes + c.nodes);
  }

  // -------------------------------------------------------------- neighbours

  /** `int(pos.split(':')[1])`: IndexError without a colon, ValueError for a non-number. */
  function LineNumberOf(pos: string): (r: Result<nat>)
    ensures r.Ok? <==> |Split(pos, ':')| >= 2 && ParseNat(Split(pos, ':')[1]).Some?
    ensures r.Ok? ==> ParseNat(Split(pos, ':')[1]) == Some(r.value)
  {
    var parts := Split(pos, ':');
    if |parts| < 2 then Err(IndexError("list index out of range"))
    else match ParseNat(parts[1])
      case Some(v) => Ok(v)
      case None => Err(ValueError("invalid literal for int()"))
  }

  /** The line number of a rendered position is its line. */
  lemma LineNumberOfPosition(n: Node)
    ensures LineNumberOf(StartPosition(n)) == Ok(n.startLine)
    ensures LineNumberOf(EndPosition(n)) == Ok(n.endLine)
  {
    ParseIdInvertsPositions(n);
  }

  /** `__neighbours(first, second)`: `second` starts on the end line of `first` or
      on one of the two lines after it. */
  function Neighbours(first: Task, second: Task): (r: Result<bool>)
    ensures r.Ok? <==> LineNumberOf(first.endLine).Ok? && LineNumberOf(second.startLine).Ok?
    ensures r.Ok? ==> (r.value <==> LineNumberOf(second.startLine).value - LineNumberOf(first.endLine).value in {0, 1, 2})
  {
    match LineNumberOf(first.endLine)
    case Err(e) => Err(e)
    case Ok(fel) =>
      match LineNumberOf(second.startLine)
      case Err(e) => Err(e)
      case Ok(ssl) => Ok(fel == ssl || fel + 1 == ssl || fel + 2 == ssl)
  }

  /** For tasks whose lines are positions of units, `__neighbours` is decided by the
      units' line numbers and never raises. */
  lemma NeighboursOfUnits(first: Task, second: Task, a: Node, b: Node)
    requires first.endLine == EndPosition(a) && second.startLine == StartPosition(b)
    ensures Neighbours(first, second) == Ok(0 <= b.startLine - a.endLine <= 2)
  {
    LineNumberOfPosition(a);
    LineNumberOfPosition(b);
  }

  // ------------------------------------------------------------------ sizes

  /** The number of tasks in a forest, every level counted. */
  function Size(ts: seq<Task>): nat
    decreases ts
  {
    if ts == [] then 0 else 1 + Size(ts[0].childTasks) + Size(ts[1..])
  }

  lemma {:induction false} SizeAppend(a: seq<Task>, b: seq<Task>)
    ensures Size(a + b) == Size(a) + Size(b)
    decreases a
  {
    if a == [] {
      assert a + b == b;
    } else {
      assert a + b != [];
      assert (a + b)[0] == a[0];
      assert (a + b)[1..] == a[1..] + b;
      SizeAppend(a[1..], b);
    }
  }

  /** Taking the task at `i` out of a list removes it and everything below it. */
  lemma SizeRemove(ts: seq<Task>, i: nat)
    requires i < |ts|
    ensures Size(ts[..i] + ts[i + 1..]) == Size(ts) - 1 - Size(ts[i].childTasks)
  {
    var t, a, b := ts[i], ts[..i], ts[i + 1..];
    assert ts == a + ([t] + b);
    assert ([t] + b)[0] == t && ([t] + b)[1..] == b;
    assert Size([t] + b) == 1 + Size(t.childTasks) + Size(b);
    SizeAppend(a, [t] + b);
    SizeAppend(a, b);
  }

  // ---------------------------------------------------------------- merging

  /** The first child from `from` on whose workload is below the threshold. */
  function FirstLight(ts: seq<Task>, from: nat): (r: Option<nat>)
    requires from <= |ts|
    ensures r.Some? ==> from <= r.value < |ts| && ts[r.value].workload < WorkloadThreshold
    ensures r.Some? ==> forall k :: from <= k < r.value ==> ts[k].workload >= WorkloadThreshold
    ensures r.None? <==> forall k :: from <= k < |ts| ==> ts[k].workload >= WorkloadThreshold
    decreases |ts| - from
  {
    if from == |ts| then None
    else if ts[from].workload < WorkloadThreshold then Some(from)
    else FirstLight(ts, from + 1)
  }

  /** `max(tasks, key=workload)`: the first task of greatest workload. */
  function MaxWorkloadIndex(ts: seq<Task>): (m: nat)
    requires |ts| > 0
    ensures m < |ts|
    ensures forall k :: 0 <= k < |ts| ==> ts[k].workload <= ts[m].workload
    ensures forall k :: 0 <= k < m ==> ts[k].workload < ts[m].workload
  {
    if |ts| == 1 then 0
    else
      var m := MaxWorkloadIndex(ts[..|ts| - 1]);
      if ts[|ts| - 1].workload > ts[m].workload then |ts| - 1 else m
  }

  /** A child list `__merge_tasks` leaves alone: no light child, and either no
      children or at least `MinParallelism` of them. */
  predicate Stable(ts: seq<Task>) {
    && (forall k :: 0 <= k < |ts| ==> ts[k].workload >= WorkloadThreshold)
    && (|ts| == 0 || |ts| >= MinParallelism)
  }

  /** The light child `ts[i]` has no mergeable predecessor: it absorbs its successor
      when that one follows it closely, and is dropped otherwise. The successor is
      only looked at when `i + 1 < len - 1`, so the last child is never absorbed. */
  function SuccessorOrDrop(ts: seq<Task>, i: nat): (r: Result<seq<Task>>)
    requires i < |ts|
    ensures r.Ok? ==> Size(r.value) < Size(ts)
  {
    SizeRemove(ts, i);
    if i + 1 < |ts| - 1 then
      match Neighbours(ts[i], ts[i + 1])
      case Err(e) => Err(e)
      case Ok(true) =>
        var merged := ts[..i] + [Aggregate(ts[i], ts[i + 1])] + ts[i + 2..];
        SizeRemove(ts, i + 1);
        assert ts[..i + 1] + ts[i + 2..] == ts[..i] + [ts[i]] + ts[i + 2..];
        SizeAppend(ts[..i] + [ts[i]], ts[i + 2..]);
        SizeAppend(ts[..i], [ts[i]]);
        SizeAppend(ts[..i] + [Aggregate(ts[i], ts[i + 1])], ts[i + 2..]);
        SizeAppend(ts[..i], [Aggregate(ts[i], ts[i + 1])]);
        assert [ts[i]][1..] == [] && [Aggregate(ts[i], ts[i + 1])][1..] == [];
        Ok(merged)
      case Ok(false) => Ok(ts[..i] + ts[i + 1..])
    else Ok(ts[..i] + ts[i + 1..])
  }

  /** One round of `__merge_tasks` on a task's children, up to its recursive call:
      `Ok(None)` when the round changes nothing, `Ok(Some(next))` for the new list.
      A light child whose predecessor is a neighbour makes it raise: the code
      removes the child from the predecessor's own children, where it never is. */
  function MergeStep(ts: seq<Task>): (r: Result<Option<seq<Task>>>)
    ensures r == Ok(None) <==> Stable(ts)
    ensures r.Ok? && r.value.Some? ==> Size(r.value.value) < Size(ts)
  {
    match FirstLight(ts, 0)
    case Some(i) =>
      if i > 0 then
        match Neighbours(ts[i - 1], ts[i])
        case Err(e) => Err(e)
        case Ok(true) => Err(ValueError("list.remove(x): x not in list"))
        case Ok(false) =>
          match SuccessorOrDrop(ts, i)
          case Err(e) => Err(e)
          case Ok(next) => Ok(Some(next))
      else
        (match SuccessorOrDrop(ts, i)
         case Err(e) => Err(e)
         case Ok(next) => Ok(Some(next)))
    case None =>
      if 0 < |ts| < MinParallelism then
        var m := MaxWorkloadIndex(ts);
        SizeRemove(ts, m);
        SizeAppend(ts[..m] + ts[m + 1..], ts[m].childTasks);
        Ok(Some(ts[..m] + ts[m + 1..] + ts[m].childTasks))
      else Ok(None)
  }

  /** `__merge_tasks` run to the end: rounds until one changes nothing. */
  function MergeFix(ts: seq<Task>): (r: Result<seq<Task>>)
    ensures r.Ok? ==> Stable(r.value) && Size(r.value) <= Size(ts)
    ensures Stable(ts) ==> r == Ok(ts)
    decreases Size(ts)
  {
    match MergeStep(ts)
    case Err(e) => Err(e)
    case Ok(None) => Ok(ts)
    case Ok(Some(next)) => MergeFix(next)
  }

  /** The predecessor branch always raises, whatever the rest of the list. */
  lemma PredecessorMergeRaises(ts: seq<Task>, i: nat)
    requires FirstLight(ts, 0) == Some(i) && i > 0
    requires Neighbours(ts[i - 1], ts[i]) == Ok(true)
    ensures MergeStep(ts).Err? && MergeFix(ts).Err?
  {
  }

  /** A witness of the merge rule as written: of two children where the first is
      light, the light one is dropped rather than combined with its neighbour. */
  lemma LastPairNotCombined(a: Task, b: Task)
    requires a.workload < WorkloadThreshold
    ensures MergeStep([a, b]) == Ok(Some([b]))
  {
    assert FirstLight([a, b], 0) == Some(0);
    assert [a, b][..0] + [a, b][1..] == [b];
  }

  /** One round of `__merge_tasks`: the scan for the first light child and the
      branch taken for it. */
  method MergeOnce(ts: seq<Task>) returns (r: Result<Option<seq<Task>>>)
    ensures r == MergeStep(ts)
  {
    var i := 0;
    while i < |ts|
      invariant 0 <= i <= |ts|
      invariant FirstLight(ts, 0) == FirstLight(ts, i)
    {
      if ts[i].workload < WorkloadThreshold {
        if i > 0 {
          var n := Neighbours(ts[i - 1], ts[i]);
          if n.Err? { return Err(n.error); }
          if n.value { return Err(ValueError("list.remove(x): x not in list")); }
        }
        var next := SuccessorOrDrop(ts, i);
        if next.Err? { return Err(next.error); }
        return Ok(Some(next.value));
      }
      i := i + 1;
    }
    if 0 < |ts| < MinParallelism {
      var m := MaxWorkloadIndex(ts);
      return Ok(Some(ts[..m] + ts[m + 1..] + ts[m].childTasks));
    }
    return Ok(None);
  }

  /** `__merge_tasks(pet, task)`: its tail recursion as a loop. Each round takes at
      least one task out of the tree below `task`, so the rounds end. */
  method MergeTasks(task: Task) returns (r: Result<Task>)
    ensures r.Ok? <==> MergeFix(task.childTasks).Ok?
    ensures r.Ok? ==> r.value == task.(childTasks := MergeFix(task.childTasks).value)
    ensures r.Ok? ==> Stable(r.value.childTasks) && Size(r.value.childTasks) <= Size(task.childTasks)
  {
    var children := task.childTasks;
    while true
      invariant MergeFix(children) == MergeFix(task.childTasks)
      decreases Size(children)
    {
      var step := MergeOnce(children);
      match step
      case Err(e) => return Err(e);
      case Ok(None) => return Ok(task.(childTasks := children));
      case Ok(Some(next)) => children := next;
    }
  }

  // ------------------------------------------------------- tree construction

  predicate IsWorkerRole(m: MwType) {
    m == Barrier || m == BarrierWorker || m == Worker
  }

  /** Every task of the forest stands for a WORKER, BARRIER or BARRIER_WORKER unit. */
  predicate WorkerForest(ts: seq<Task>)
    decreases ts
  {
    forall k :: 0 <= k < |ts| ==> IsWorkerRole(ts[k].mwType) && WorkerForest(ts[k].childTasks)
  }

  /** A task recorded in `__forks` below the root: a FORK unit whose start line does
      not end in 16383, with worker tasks below it. */
  ghost predicate ForkTask(g: Graph, t: Task) {
    && t.mwType == Fork
    && t.nodeId in g.nodes
    && t.nodes == [t.nodeId]
    && !EndsWith(StartPosition(g.nodes[t.nodeId]), "16383")
    && WorkerForest(t.childTasks)
  }

  predicate NoDup(xs: seq<NodeId>) {
    forall i, j :: 0 <= i < j < |xs| ==> xs[i] != xs[j]
  }

  /** The visited list grew by FUNC units only, without repeating one. */
  ghost predicate VisitedGrew(g: Graph, v0: seq<NodeId>, v1: seq<NodeId>) {
    && v0 <= v1
    && (forall k :: |v0| <= k < |v1| ==> v1[k] in g.nodes && g.nodes[v1[k]].kind == Func)
    && (NoDup(v0) ==> NoDup(v1))
  }

  /** The walk state `(root1, visited1, forks1)` extends `(root0, visited0, forks0)`:
      worker tasks appended to the root's children, fork tasks appended to the forks,
      FUNC units appended to the visited list, and nothing else changed. */
  ghost predicate Grew(g: Graph, root0: Task, visited0: seq<NodeId>, forks0: seq<Task>,
                       root1: Task, visited1: seq<NodeId>, forks1: seq<Task>) {
    && root1 == root0.(childTasks := root1.childTasks)
    && root0.childTasks <= root1.childTasks
    && WorkerForest(root1.childTasks[|root0.childTasks|..])
    && forks0 <= forks1
    && (forall k :: |forks0| <= k < |forks1| ==> ForkTask(g, forks1[k]))
    && VisitedGrew(g, visited0, visited1)
  }

  lemma GrewTrans(g: Graph, r0: Task, v0: seq<NodeId>, f0: seq<Task>, r1: Task, v1: seq<NodeId>, f1: seq<Task>,
                  r2: Task, v2: seq<NodeId>, f2: seq<Task>)
    requires Grew(g, r0, v0, f0, r1, v1, f1) && Grew(g, r1, v1, f1, r2, v2, f2)
    ensures Grew(g, r0, v0, f0, r2, v2, f2)
  {
    var a, b, c := r0.childTasks, r1.childTasks, r2.childTasks;
    assert c[|a|..] == b[|a|..] + c[|b|..];
    WorkerForestAppend(b[|a|..], c[|b|..]);
  }

  lemma WorkerForestAppend(x: seq<Task>, y: seq<Task>)
    requires WorkerForest(x) && WorkerForest(y)
    ensures WorkerForest(x + y)
  {
    forall k | 0 <= k < |x + y|
      ensures IsWorkerRole((x + y)[k].mwType) && WorkerForest((x + y)[k].childTasks)
    {
      if k < |x| { assert (x + y)[k] == x[k]; } else { assert (x + y)[k] == y[k - |x|]; }
    }
  }

  lemma ChildRankBelow(g: Graph, a: NodeId, b: NodeId)
    requires Wf(g) && b in FindSubnodes(g, a, "child")
    ensures b in g.nodes && RankOf(g)[b] < RankOf(g)[a]
  {
    FindSubnodesChild(g, a, b);
    var e :| e in g.edges && e.s == a && e.t == b && e.dep.etype == Child;
  }

  /** The walk state of `__create_task_tree_helper`: the task collecting children, the
      FUNC units visited so far and the fork tasks in the order they are added. */
  type Walk = (Task, seq<NodeId>, seq<Task>)

  /** The walk state after `__create_task_tree_helper(current, root, visited)`. */
  ghost function SubtreeOf(g: Graph, mw: map<NodeId, MwType>, current: NodeId, root: Task, visited: seq<NodeId>,
                           forks: seq<Task>, workloadOf: NodeId -> int, instructionsOf: NodeId -> int): (w: Walk)
    requires Wf(g) && mw.Keys == g.nodes.Keys && current in g.nodes
    ensures forks <= w.2
    decreases RankOf(g)[current], 2, 0
  {
    if g.nodes[current].kind == Func && current in visited then (root, visited, forks)
    else
      var v := if g.nodes[current].kind == Func then visited + [current] else visited;
      ChildrenOf(g, mw, current, FindSubnodes(g, current, "child"), root, v, forks, workloadOf, instructionsOf)
  }

  /** The walk state after the loop of `__create_task_tree_helper` over `children`,
      CHILD children of `parent`, in order. */
  ghost function ChildrenOf(g: Graph, mw: map<NodeId, MwType>, parent: NodeId, children: seq<NodeId>, root: Task,
                            visited: seq<NodeId>, forks: seq<Task>, workloadOf: NodeId -> int,
                            instructionsOf: NodeId -> int): (w: Walk)
    requires Wf(g) && mw.Keys == g.nodes.Keys && parent in g.nodes
    requires forall c :: c in children ==> c in FindSubnodes(g, parent, "child")
    ensures forks <= w.2
    decreases RankOf(g)[parent], 1, |children|
  {
    if children == [] then (root, visited, forks)
    else
      ChildRankBelow(g, parent, children[0]);
      var w := ChildOf(g, mw, children[0], root, visited, forks, workloadOf, instructionsOf);
      ChildrenOf(g, mw, parent, children[1..], w.0, w.1, w.2, workloadOf, instructionsOf)
  }

  /** The walk state after one round of that loop at `child`: a worker or barrier child
      becomes a child task of `root`; a FORK child outside line 16383 becomes a fork
      task, added before the forks met below it; any other child is walked with `root`. */
  ghost function ChildOf(g: Graph, mw: map<NodeId, MwType>, child: NodeId, root: Task, visited: seq<NodeId>,
                         forks: seq<Task>, workloadOf: NodeId -> int, instructionsOf: NodeId -> int): (w: Walk)
    requires Wf(g) && mw.Keys == g.nodes.Keys && child in g.nodes
    ensures forks <= w.2
    decreases RankOf(g)[child], 3, 0
  {
    if IsWorkerRole(mw[child]) then
      var w := SubtreeOf(g, mw, child, NewTask(g, mw, child, workloadOf, instructionsOf), visited, forks,
                         workloadOf, instructionsOf);
      (root.(childTasks := root.childTasks + [w.0]), w.1, w.2)
    else if mw[child] == Fork && !EndsWith(StartPosition(g.nodes[child]), "16383") then
      var w := SubtreeOf(g, mw, child, NewTask(g, mw, child, workloadOf, instructionsOf), visited, forks,
                         workloadOf, instructionsOf);
      (root, w.1, forks + [w.0] + w.2[|forks|..])
    else
      SubtreeOf(g, mw, child, root, visited, forks, workloadOf, instructionsOf)
  }

  /** `__create_task_tree(pet, main)`: the task of `main` with the tree below it,
      followed by the fork tasks in the order they are added. */
  ghost function TreeOf(g: Graph, mw: map<NodeId, MwType>, main: NodeId,
                        workloadOf: NodeId -> int, instructionsOf: NodeId -> int): (forks: seq<Task>)
    requires Wf(g) && mw.Keys == g.nodes.Keys && main in g.nodes
    ensures |forks| >= 1
  {
    var w := SubtreeOf(g, mw, main, NewTask(g, mw, main, workloadOf, instructionsOf), [], [], workloadOf, instructionsOf);
    [w.0] + w.2
  }

  /** `__create_task_tree_helper(pet, current, root, visited_func)`: the tasks below
      `current` are appended to `root`'s children, FORK tasks go to `forks`, and a
      FUNC unit is expanded only the first time the walk meets it, anywhere in the
      tree: `visited` is shared by the whole walk. */
  method BuildSubtree(pet: Pet, current: NodeId, root: Task, visited: seq<NodeId>, forks: seq<Task>,
                      workloadOf: NodeId -> int, instructionsOf: NodeId -> int)
    returns (root': Task, visited': seq<NodeId>, forks': seq<Task>)
    requires pet.Valid() && current in pet.g.nodes
    ensures Grew(pet.g, root, visited, forks, root', visited', forks')
    ensures pet.g.nodes[current].kind == Func && current in visited ==>
              root' == root && visited' == visited && forks' == forks
    ensures (root', visited', forks') == SubtreeOf(pet.g, pet.mwType, current, root, visited, forks, workloadOf, instructionsOf)
    decreases RankOf(pet.g)[current], 1
  {
    root', visited', forks' := root, visited, forks;
    assert root.childTasks[|root.childTasks|..] == [];
    if pet.g.nodes[current].kind == Func {
      if current in visited {
        return;
      }
      visited' := visited' + [current];
    }
    var children := ChildSubnodes(pet.g, current);
    ghost var start := visited';
    var i := 0;
    while i < |children|
      invariant 0 <= i <= |children|
      invariant Grew(pet.g, root, visited, forks, root', visited', forks')
      invariant ChildrenOf(pet.g, pet.mwType, current, children[i..], root', visited', forks', workloadOf, instructionsOf)
                == ChildrenOf(pet.g, pet.mwType, current, children, root, start, forks, workloadOf, instructionsOf)
    {
      root', visited', forks' := WalkChildAt(pet, current, children, i, root, visited, forks, start,
                                             root', visited', forks', workloadOf, instructionsOf);
      i := i + 1;
    }
  }

  /** One iteration of the loop over the CHILD children of `current` in
      `__create_task_tree_helper`: it keeps both loop invariants of `BuildSubtree`. */
  method WalkChildAt(pet: Pet, current: NodeId, children: seq<NodeId>, i: nat,
                     root: Task, visited: seq<NodeId>, forks: seq<Task>, ghost start: seq<NodeId>,
                     root1: Task, visited1: seq<NodeId>, forks1: seq<Task>,
                     workloadOf: NodeId -> int, instructionsOf: NodeId -> int)
    returns (root2: Task, visited2: seq<NodeId>, forks2: seq<Task>)
    requires pet.Valid() && current in pet.g.nodes
    requires children == FindSubnodes(pet.g, current, "child") && i < |children|
    requires Grew(pet.g, root, visited, forks, root1, visited1, forks1)
    ensures Grew(pet.g, root, visited, forks, root2, visited2, forks2)
    ensures ChildrenOf(pet.g, pet.mwType, current, children[i + 1..], root2, visited2, forks2, workloadOf, instructionsOf)
            == ChildrenOf(pet.g, pet.mwType, current, children[i..], root1, visited1, forks1, workloadOf, instructionsOf)
    decreases RankOf(pet.g)[current], 0
  {
    assert children[i..][0] == children[i] && children[i..][1..] == children[i + 1..];
    ChildRankBelow(pet.g, current, children[i]);
    root2, visited2, forks2 := VisitChild(pet, children[i], root1, visited1, forks1, workloadOf, instructionsOf);
    GrewTrans(pet.g, root, visited, forks, root1, visited1, forks1, root2, visited2, forks2);
  }

  /** One child of the loop in `__create_task_tree_helper`: a worker or barrier
      child becomes a child task of `root`, a FORK child (outside line 16383) a new
      fork, and any other child is walked with `root` unchanged as its root. */
  method VisitChild(pet: Pet, child: NodeId, root: Task, visited: seq<NodeId>, forks: seq<Task>,
                    workloadOf: NodeId -> int, instructionsOf: NodeId -> int)
    returns (root': Task, visited': seq<NodeId>, forks': seq<Task>)
    requires pet.Valid() && child in pet.g.nodes
    ensures Grew(pet.g, root, visited, forks, root', visited', forks')
    ensures (root', visited', forks') == ChildOf(pet.g, pet.mwType, child, root, visited, forks, workloadOf, instructionsOf)
    decreases RankOf(pet.g)[child], 2
  {
    var role := pet.mwType[child];
    if IsWorkerRole(role) {
      var task := NewTask(pet.g, pet.mwType, child, workloadOf, instructionsOf);
      var t;
      t, visited', forks' := BuildSubtree(pet, child, task, visited, forks, workloadOf, instructionsOf);
      assert t.childTasks[0..] == t.childTasks;
      root' := root.(childTasks := root.childTasks + [t]);
      assert root'.childTasks[|root.childTasks|..] == [t];
    } else if role == Fork && !EndsWith(StartPosition(pet.g.nodes[child]), "16383") {
      var task := NewTask(pet.g, pet.mwType, child, workloadOf, instructionsOf);
      var t, f2;
      t, visited', f2 := BuildSubtree(pet, child, task, visited, forks, workloadOf, instructionsOf);
      assert t.childTasks[0..] == t.childTasks;
      root', forks' := root, forks + [t] + f2[|forks|..];
      ForkAddedFirst(pet.g, root, visited, forks, visited', f2, t);
    } else {
      root', visited', forks' := BuildSubtree(pet, child, root, visited, forks, workloadOf, instructionsOf);
    }
  }

  /** A fork task added ahead of the forks met below it keeps the walk growing. */
  lemma ForkAddedFirst(g: Graph, root: Task, visited: seq<NodeId>, forks: seq<Task>, visited': seq<NodeId>,
                       f2: seq<Task>, t: Task)
    requires forks <= f2 && (forall k :: |forks| <= k < |f2| ==> ForkTask(g, f2[k]))
    requires VisitedGrew(g, visited, visited') && ForkTask(g, t)
    ensures Grew(g, root, visited, forks, root, visited', forks + [t] + f2[|forks|..])
  {
    var f := forks + [t] + f2[|forks|..];
    assert root.childTasks[|root.childTasks|..] == [];
    assert forall k :: |forks| < k < |f| ==> f[k] == f2[k - 1];
  }

  /** `__create_task_tree(pet, pet.main)`: the task of the main unit comes first,
      followed by the FORK tasks met below it. */
  method CreateTaskTree(pet: Pet, workloadOf: NodeId -> int, instructionsOf: NodeId -> int)
    returns (forks: seq<Task>)
    requires pet.Valid()
    ensures |forks| >= 1 && forks[0].nodeId == pet.main && forks[0].nodes == [pet.main]
    ensures forks[0].mwType == pet.mwType[pet.main] && WorkerForest(forks[0].childTasks)
    ensures forall k :: 1 <= k < |forks| ==> ForkTask(pet.g, forks[k])
    ensures forks == TreeOf(pet.g, pet.mwType, pet.main, workloadOf, instructionsOf)
  {
    var rootTask := NewTask(pet.g, pet.mwType, pet.main, workloadOf, instructionsOf);
    var root', visited, others := BuildSubtree(pet, pet.main, rootTask, [], [], workloadOf, instructionsOf);
    assert root'.childTasks[0..] == root'.childTasks;
    forks := [root'] + others;
  }
}
