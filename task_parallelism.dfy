/** `run_detection` of the task-parallelism detector: the role machine, the task
    tree, the debugging fork entries, and the chain of passes over the suggestion
    list, each pass raising or handing its list to the next. */
module TaskParallelism {
  import opened Wrappers
  import opened PetGraph
  import opened PetState
  import opened Suggestion
  import MwTypes
  import TaskTree
  import TaskSuggestions
  import UselessBarriers
  import ParallelRegions
  import ContainedLines
  import TaskloopReduction
  import BarrierSuggestions

  /** The one fork id whose tree gets an entry of its own. */
  const DebugForkId: NodeId := "130:0"

  /** A fork on the debugging id with at least one child task. */
  predicate DebugFork(f: TaskTree.Task) {
    f.nodeId == DebugForkId && f.childTasks != []
  }

  /** The first node of every fork lies in the graph. */
  predicate ForksIn(g: Graph, forks: seq<TaskTree.Task>) {
    forall f :: f in forks ==> |f.nodes| > 0 && f.nodes[0] in g.nodes
  }

  /** The entries the debugging filter adds: a task entry with an empty pragma for
      the first node of every debug fork, in fork order. */
  function ForkInfos(g: Graph, forks: seq<TaskTree.Task>): (r: seq<Suggestion>)
    requires ForksIn(g, forks)
    ensures forall s :: s in r ==> s.TaskInfo? && s.pragma == [] && s.node in g.nodes
    ensures r == [] <==> forall f :: f in forks ==> !DebugFork(f)
    ensures forall f :: f in forks && DebugFork(f) ==> NewTaskInfo(g, f.nodes[0], [], "", [], [], []) in r
  {
    if forks == [] then []
    else
      var init := ForkInfos(g, forks[..|forks| - 1]);
      var f := forks[|forks| - 1];
      assert forks == forks[..|forks| - 1] + [f];
      if DebugFork(f) then init + [NewTaskInfo(g, f.nodes[0], [], "", [], [], [])] else init
  }

  /** The loop over the filtered forks. */
  method CollectForkInfos(g: Graph, forks: seq<TaskTree.Task>) returns (r: seq<Suggestion>)
    requires ForksIn(g, forks)
    ensures r == ForkInfos(g, forks)
  {
    r := [];
    var i := 0;
    assert forks[..0] == [];
    while i < |forks|
      invariant 0 <= i <= |forks|
      invariant r == ForkInfos(g, forks[..i])
    {
      assert forks[..i + 1][..i] == forks[..i];
      if DebugFork(forks[i]) {
        r := r + [NewTaskInfo(g, forks[i].nodes[0], [], "", [], [], [])];
      }
      i := i + 1;
    }
    assert forks[..i] == forks;
  }

  predicate NodesIn(g: Graph, xs: seq<Suggestion>) {
    forall x :: x in xs ==> x.node in g.nodes
  }

  /** Removing useless taskwaits keeps only given entries. */
  lemma RemoveUselessNodes(g: Graph, xs: seq<Suggestion>)
    requires Wf(g) && NodesIn(g, xs) && UselessBarriers.RemoveUselessOf(g, xs).Ok?
    ensures NodesIn(g, UselessBarriers.RemoveUselessOf(g, xs).value)
  {
    forall x | x in UselessBarriers.RemoveUselessOf(g, xs).value ensures x.node in g.nodes {
      UselessBarriers.RemoveUselessSound(g, xs, x);
    }
  }

  /** The regions found lie on function nodes of the graph. */
  lemma RegionNodes(g: Graph, xs: seq<Suggestion>)
    requires Wf(g) && NodesIn(g, xs) && ParallelRegions.ParallelRegionsOf(g, xs).Ok?
    ensures NodesIn(g, ParallelRegions.ParallelRegionsOf(g, xs).value)
  {
    forall s | s in ParallelRegions.ParallelRegionsOf(g, xs).value ensures s.node in g.nodes {
      ParallelRegions.ParallelRegionsSound(g, xs, s);
    }
  }

  /** Setting the contained lines only reorders entries and sets region ends. */
  lemma ContainedLinesNodes(g: Graph, xs: seq<Suggestion>)
    requires NodesIn(g, xs) && ContainedLines.ContainedLinesOf(xs).Ok?
    ensures NodesIn(g, ContainedLines.ContainedLinesOf(xs).value)
  {
    var out := ContainedLines.ContainedLinesOf(xs).value;
    var _ := ContainedLines.ContainedLinesResult(xs);
    forall y | y in out ensures y.node in g.nodes {
      var k :| 0 <= k < |out| && out[k] == y;
      assert ContainedLines.Erased(out)[k] == ContainedLines.Erase(y);
      assert ContainedLines.Erase(y) in multiset(ContainedLines.Erased(xs));
      var i :| 0 <= i < |xs| && ContainedLines.Erased(xs)[i] == ContainedLines.Erase(y);
      assert xs[i] in xs;
    }
  }

  /** The reduction pass rewrites entries one for one, on the same node. */
  lemma ReductionNodes(g: Graph, red: set<NodeId>, facts: seq<ReductionFact>, xs: seq<Suggestion>)
    requires Wf(g) && NodesIn(g, xs) && TaskloopReduction.TaskloopReductionOf(g, red, facts, xs).Ok?
    ensures NodesIn(g, TaskloopReduction.TaskloopReductionOf(g, red, facts, xs).value)
  {
    var out := TaskloopReduction.TaskloopReductionOf(g, red, facts, xs).value;
    TaskloopReduction.TaskloopReductionOne(g, red, facts, xs);
    forall y | y in out ensures y.node in g.nodes {
      var k :| 0 <= k < |out| && out[k] == y;
      assert xs[k] in xs;
    }
  }

  /** The list passes between the task pass and the barrier pass: useless
      taskwaits removed, parallel regions appended, contained lines set and
      taskloop reductions marked. Every entry they return lies in the graph. */
  ghost function ListPassesOf(g: Graph, red: set<NodeId>, facts: seq<ReductionFact>, start: seq<Suggestion>)
    : (r: Result<seq<Suggestion>>)
    requires Wf(g) && NodesIn(g, start)
    ensures r.Ok? ==> NodesIn(g, r.value)
  {
    match UselessBarriers.RemoveUselessOf(g, start)
    case Err(e) => Err(e)
    case Ok(kept) =>
      RemoveUselessNodes(g, start);
      match ParallelRegions.ParallelRegionsOf(g, kept)
      case Err(e) => Err(e)
      case Ok(regions) =>
        RegionNodes(g, kept);
        match ContainedLines.ContainedLinesOf(kept + regions)
        case Err(e) => Err(e)
        case Ok(lined) =>
          ContainedLinesNodes(g, kept + regions);
          match TaskloopReduction.TaskloopReductionOf(g, red, facts, lined)
          case Err(e) => Err(e)
          case Ok(reduced) =>
            ReductionNodes(g, red, facts, lined);
            Ok(reduced)
  }

  /** The passes after the task tree, from the fork entries and the result of the
      task pass to the new visualisation flags and the final list. */
  ghost function PassesOf(g: Graph, red: set<NodeId>, facts: seq<ReductionFact>, f: BarrierSuggestions.VizFlags,
                          infos: seq<Suggestion>, tasks: Result<seq<Suggestion>>): Result<(BarrierSuggestions.VizFlags, seq<Suggestion>)>
    requires Wf(g) && NodesIn(g, infos)
    requires tasks.Ok? ==> NodesIn(g, tasks.value)
  {
    match tasks
    case Err(e) => Err(e)
    case Ok(ts) =>
      match ListPassesOf(g, red, facts, infos + ts)
      case Err(e) => Err(e)
      case Ok(reduced) => BarrierSuggestions.BarrierPassOf(g, f, reduced)
  }

  /** Every entry of the task pass lies in the graph. */
  lemma TaskNodes(g: Graph, mw: map<NodeId, MwType>, classify: NodeId -> TaskSuggestions.TaskVars, lookup: TaskSuggestions.Lookup)
    requires OrderedNodes(g) && g.nodes.Keys <= mw.Keys && TaskSuggestions.LookupIn(g, lookup)
    ensures var tasks := TaskSuggestions.TaskSuggestionsOf(g, mw, classify, lookup);
            tasks.Ok? ==> NodesIn(g, tasks.value)
  {
    var tasks := TaskSuggestions.TaskSuggestionsOf(g, mw, classify, lookup);
    if tasks.Ok? {
      forall s | s in tasks.value ensures s.node in g.nodes {
        TaskSuggestions.TaskSuggestionsSound(g, mw, classify, lookup, s);
      }
    }
  }

  /** `run_detection` after the role machine: the task tree `forks` and the roles
      `mw` give the new visualisation flags and the returned list, or the error
      raised first. */
  ghost function DetectionOf(g: Graph, mw: map<NodeId, MwType>, red: set<NodeId>, facts: seq<ReductionFact>,
                             f: BarrierSuggestions.VizFlags, forks: seq<TaskTree.Task>,
                             classify: NodeId -> TaskSuggestions.TaskVars): Result<(BarrierSuggestions.VizFlags, seq<Suggestion>)>
    requires Wf(g) && g.nodes.Keys <= mw.Keys && ForksIn(g, forks)
  {
    var lookup := TaskSuggestions.WorkerLookup(g, TaskSuggestions.Workers(g, mw));
    TaskNodes(g, mw, classify, lookup);
    PassesOf(g, red, facts, f, ForkInfos(g, forks), TaskSuggestions.TaskSuggestionsOf(g, mw, classify, lookup))
  }

  /** The useless-barrier pass reads the first pragma of every entry it is given,
      so the passes succeed only on entries that carry a pragma. */
  lemma PassesNeedPragmas(g: Graph, red: set<NodeId>, facts: seq<ReductionFact>, f: BarrierSuggestions.VizFlags,
                          infos: seq<Suggestion>, tasks: Result<seq<Suggestion>>)
    requires Wf(g) && NodesIn(g, infos)
    requires tasks.Ok? ==> NodesIn(g, tasks.value)
    requires PassesOf(g, red, facts, f, infos, tasks).Ok?
    ensures forall s :: s in infos ==> s.TaskInfo? && |s.pragma| > 0
  {
    var start := infos + tasks.value;
    UselessBarriers.RemoveUselessErr(g, start);
    assert forall s :: s in infos ==> s in start;
  }

  /** What the passes return: every entry on a node of the graph, no task entry
      without a pragma, and flags that only grow. */
  lemma PassesResult(g: Graph, red: set<NodeId>, facts: seq<ReductionFact>, f: BarrierSuggestions.VizFlags,
                     infos: seq<Suggestion>, tasks: Result<seq<Suggestion>>)
    requires Wf(g) && NodesIn(g, infos)
    requires tasks.Ok? ==> NodesIn(g, tasks.value)
    requires PassesOf(g, red, facts, f, infos, tasks).Ok?
    ensures var (f', out) := PassesOf(g, red, facts, f, infos, tasks).value;
      && NodesIn(g, out)
      && (forall s :: s in out && s.TaskInfo? ==> |s.pragma| > 0)
      && f.omittable <= f'.omittable && f.hasTaskwait <= f'.hasTaskwait && f.hasTask <= f'.hasTask
  {
    var reduced := ListPassesOf(g, red, facts, infos + tasks.value).value;
    var (f', out) := BarrierSuggestions.BarrierPassOf(g, f, reduced).value;
    BarrierSuggestions.BarrierPassErr(g, f, reduced);
    BarrierSuggestions.BarrierPassKeeps(g, f, reduced, DebugForkId);
    BarrierSuggestions.BarrierPassAdds(g, f, reduced);
    forall s | s in out ensures s.node in g.nodes && (s.TaskInfo? ==> |s.pragma| > 0) {
      var k :| 0 <= k < |out| && out[k] == s;
      if k < |reduced| {
        assert s == reduced[k] && reduced[k] in reduced;
      }
    }
    forall n | n in f.hasTask ensures n in f'.hasTask {
      BarrierSuggestions.BarrierPassKeeps(g, f, reduced, n);
    }
  }

  /** `run_detection` returns a list only when no fork on the debugging id has
      child tasks. */
  lemma DetectionNeedsNoDebugFork(g: Graph, mw: map<NodeId, MwType>, red: set<NodeId>, facts: seq<ReductionFact>,
                                  f: BarrierSuggestions.VizFlags, forks: seq<TaskTree.Task>,
                                  classify: NodeId -> TaskSuggestions.TaskVars)
    requires Wf(g) && g.nodes.Keys <= mw.Keys && ForksIn(g, forks)
    requires DetectionOf(g, mw, red, facts, f, forks, classify).Ok?
    ensures forall t :: t in forks ==> !DebugFork(t)
  {
    var lookup := TaskSuggestions.WorkerLookup(g, TaskSuggestions.Workers(g, mw));
    TaskNodes(g, mw, classify, lookup);
    PassesNeedPragmas(g, red, facts, f, ForkInfos(g, forks), TaskSuggestions.TaskSuggestionsOf(g, mw, classify, lookup));
  }

  /** `run_detection` on the graph `g` with roles `mw`, the task tree `forks` and
      visualisation flags `f` returns `r` and leaves the flags `f'`: the list and
      the new flags of `DetectionOf`, or its error with the flags untouched. */
  ghost predicate DetectsAs(g: Graph, mw: map<NodeId, MwType>, red: set<NodeId>, facts: seq<ReductionFact>,
                            f: BarrierSuggestions.VizFlags, forks: seq<TaskTree.Task>,
                            classify: NodeId -> TaskSuggestions.TaskVars,
                            r: Result<seq<Suggestion>>, f': BarrierSuggestions.VizFlags)
  {
    && Wf(g) && g.nodes.Keys <= mw.Keys && ForksIn(g, forks)
    && match r
       case Err(e) => DetectionOf(g, mw, red, facts, f, forks, classify) == Err(e) && f' == f
       case Ok(xs) => DetectionOf(g, mw, red, facts, f, forks, classify) == Ok((f', xs))
  }

  /** `run_detection(pet)`. The collaborators the source imports, `depends` and the
      workload and instruction counts, and the variable classification of a task
      are parameters; the global fork list is returned as `forks`. */
  method RunDetection(pet: Pet, depends: (NodeId, NodeId) -> bool, workloadOf: NodeId -> int, instructionsOf: NodeId -> int,
                      classify: NodeId -> TaskSuggestions.TaskVars)
    returns (r: Result<seq<Suggestion>>, forks: seq<TaskTree.Task>)
    requires pet.Valid()
    modifies pet`mwType, pet`vizContainsTask, pet`vizContainsTaskwait, pet`vizOmittable
    ensures pet.Valid()
    ensures |forks| >= 1 && forks[0].nodes == [pet.main]
    ensures DetectsAs(pet.g, pet.mwType, pet.reduction, pet.reductionVars,
                      BarrierSuggestions.VizFlags(old(pet.vizContainsTask), old(pet.vizContainsTaskwait), old(pet.vizOmittable)),
                      forks, classify, r,
                      BarrierSuggestions.VizFlags(pet.vizContainsTask, pet.vizContainsTaskwait, pet.vizOmittable))
  {
    forks := BuildTree(pet, depends, workloadOf, instructionsOf);
    r := DetectFromTree(pet, forks, classify);
  }

  /** The roles `m1` are those the vertex loop of `run_detection` assigns from `m0`, and
      `forks` is the task tree built from `main` under them. */
  ghost predicate TreeBuilt(g: Graph, m0: map<NodeId, MwType>, m1: map<NodeId, MwType>, main: NodeId,
                            forks: seq<TaskTree.Task>, depends: (NodeId, NodeId) -> bool,
                            workloadOf: NodeId -> int, instructionsOf: NodeId -> int) {
    && Wf(g) && m0.Keys == g.nodes.Keys && main in g.nodes
    && m1 == MwTypes.RolesAfter(g, m0, g.order, depends, true)
    && forks == TaskTree.TreeOf(g, m1, main, workloadOf, instructionsOf)
  }

  /** The first part of `run_detection`: the roles, then the task tree from the main node. */
  method BuildTree(pet: Pet, depends: (NodeId, NodeId) -> bool, workloadOf: NodeId -> int, instructionsOf: NodeId -> int)
    returns (forks: seq<TaskTree.Task>)
    requires pet.Valid()
    modifies pet`mwType
    ensures pet.Valid()
    ensures unchanged(pet`vizContainsTask, pet`vizContainsTaskwait, pet`vizOmittable)
    ensures |forks| >= 1 && forks[0].nodes == [pet.main]
    ensures ForksIn(pet.g, forks)
    ensures TreeBuilt(pet.g, old(pet.mwType), pet.mwType, pet.main, forks, depends, workloadOf, instructionsOf)
  {
    ghost var m0 := pet.mwType;
    Roles(pet, depends);
    forks := TreeFromMain(pet, m0, depends, workloadOf, instructionsOf);
  }

  /** The loop over the vertices of `run_detection` with the two-RAW-edge rule on. */
  method Roles(pet: Pet, depends: (NodeId, NodeId) -> bool)
    requires pet.Valid()
    modifies pet`mwType
    ensures pet.Valid()
    ensures pet.mwType == MwTypes.RolesAfter(pet.g, old(pet.mwType), pet.g.order, depends, true)
  {
    MwTypes.AssignRoles(pet, depends, true);
  }

  /** `__forks.clear()` and `__create_task_tree(pet, pet.main)` once the roles are set. */
  method TreeFromMain(pet: Pet, ghost m0: map<NodeId, MwType>, depends: (NodeId, NodeId) -> bool,
                      workloadOf: NodeId -> int, instructionsOf: NodeId -> int)
    returns (forks: seq<TaskTree.Task>)
    requires pet.Valid() && m0.Keys == pet.g.nodes.Keys
    requires pet.mwType == MwTypes.RolesAfter(pet.g, m0, pet.g.order, depends, true)
    ensures |forks| >= 1 && forks[0].nodes == [pet.main]
    ensures ForksIn(pet.g, forks)
    ensures TreeBuilt(pet.g, m0, pet.mwType, pet.main, forks, depends, workloadOf, instructionsOf)
  {
    forks := TaskTree.CreateTaskTree(pet, workloadOf, instructionsOf);
    TreeForksIn(pet.g, pet.main, forks);
  }

  /** The fork list of the task tree names nodes of the graph. */
  lemma TreeForksIn(g: Graph, main: NodeId, forks: seq<TaskTree.Task>)
    requires main in g.nodes && |forks| >= 1 && forks[0].nodes == [main]
    requires forall k :: 1 <= k < |forks| ==> TaskTree.ForkTask(g, forks[k])
    ensures ForksIn(g, forks)
  {
    forall t | t in forks ensures |t.nodes| > 0 && t.nodes[0] in g.nodes {
      var k :| 0 <= k < |forks| && forks[k] == t;
    }
  }

  /** `run_detection` once the roles are set and the task tree is built. */
  method DetectFromTree(pet: Pet, forks: seq<TaskTree.Task>, classify: NodeId -> TaskSuggestions.TaskVars)
    returns (r: Result<seq<Suggestion>>)
    requires pet.Valid() && ForksIn(pet.g, forks)
    modifies pet`vizContainsTask, pet`vizContainsTaskwait, pet`vizOmittable
    ensures pet.Valid()
    ensures DetectsAs(pet.g, pet.mwType, pet.reduction, pet.reductionVars,
                      BarrierSuggestions.VizFlags(old(pet.vizContainsTask), old(pet.vizContainsTaskwait), old(pet.vizOmittable)),
                      forks, classify, r,
                      BarrierSuggestions.VizFlags(pet.vizContainsTask, pet.vizContainsTaskwait, pet.vizOmittable))
  {
    var infos := CollectForkInfos(pet.g, forks);
    var tasks := TaskSuggestions.DetectTaskSuggestions(pet, classify);
    TaskNodes(pet.g, pet.mwType, classify, TaskSuggestions.WorkerLookup(pet.g, TaskSuggestions.Workers(pet.g, pet.mwType)));
    if tasks.Err? {
      return Err(tasks.error);
    }
    var reduced := ListPasses(pet.g, pet.reduction, pet.reductionVars, infos + tasks.value);
    if reduced.Err? {
      return Err(reduced.error);
    }
    r := BarrierSuggestions.DetectBarrierSuggestions(pet, reduced.value);
  }

  /** The list passes, each ending the detection with the error it raises. */
  method ListPasses(g: Graph, red: set<NodeId>, facts: seq<ReductionFact>, start: seq<Suggestion>)
    returns (r: Result<seq<Suggestion>>)
    requires Wf(g) && NodesIn(g, start)
    ensures r == ListPassesOf(g, red, facts, start)
  {
    var kept := UselessBarriers.RemoveUselessBarrierSuggestions(g, start);
    if kept.Err? {
      return Err(kept.error);
    }
    RemoveUselessNodes(g, start);
    var regions := ParallelRegions.SuggestParallelRegions(g, kept.value);
    if regions.Err? {
      return Err(regions.error);
    }
    RegionNodes(g, kept.value);
    var lined := ContainedLines.SetTaskContainedLines(kept.value + regions.value);
    if lined.Err? {
      return Err(lined.error);
    }
    ContainedLinesNodes(g, kept.value + regions.value);
    r := TaskloopReduction.DetectTaskloopReduction(g, red, facts, lined.value);
  }
}
