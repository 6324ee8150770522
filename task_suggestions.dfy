/** `__detect_task_suggestions`: taskwait suggestions before the first statements
    of BARRIER units, task suggestions at recursive calls that fall inside WORKER
    or BARRIER_WORKER units, grouped by line key
    (graph_analyzer/pattern_detectors/task_parallelism_detector.py). */
module TaskSuggestions {
  import opened Wrappers
  import opened Text
  import opened PetGraph
  import opened PetState
  import opened Suggestion
  import opened RecursiveCalls

  /** The names returned by `classify_task_vars` for a unit: first-private,
      private and shared variables (the other classes are not used here). */
  datatype TaskVars = TaskVars(firstPrivate: seq<string>, private: seq<string>, shared: seq<string>)

  // ---------------------------------------------------------------- roles

  /** The nodes of `vs` whose role is `m`, in order. */
  function WithRole(vs: seq<NodeId>, mw: map<NodeId, MwType>, m: MwType): (r: seq<NodeId>)
    requires forall v :: v in vs ==> v in mw
    ensures forall v :: v in r <==> v in vs && mw[v] == m
  {
    if vs == [] then []
    else
      var rest := WithRole(vs[..|vs| - 1], mw, m);
      assert forall v :: v in vs[..|vs| - 1] ==> v in vs;
      assert vs == vs[..|vs| - 1] + [vs[|vs| - 1]];
      if mw[vs[|vs| - 1]] == m then rest + [vs[|vs| - 1]] else rest
  }

  /** The WORKER units followed by the BARRIER_WORKER units. */
  function Workers(g: Graph, mw: map<NodeId, MwType>): (r: seq<NodeId>)
    requires forall v :: v in g.order ==> v in mw
    ensures forall v :: v in r <==> v in g.order && mw[v] in {Worker, BarrierWorker}
  {
    WithRole(g.order, mw, Worker) + WithRole(g.order, mw, BarrierWorker)
  }

  /** The first loop of the detector: one pass over the vertices collecting the
      three role lists. */
  method RoleLists(g: Graph, mw: map<NodeId, MwType>) returns (workers: seq<NodeId>, barriers: seq<NodeId>)
    requires forall v :: v in g.order ==> v in mw
    ensures workers == Workers(g, mw)
    ensures barriers == WithRole(g.order, mw, Barrier)
  {
    var w, b, bw := [], [], [];
    var i := 0;
    while i < |g.order|
      invariant 0 <= i <= |g.order|
      invariant w == WithRole(g.order[..i], mw, Worker)
      invariant b == WithRole(g.order[..i], mw, Barrier)
      invariant bw == WithRole(g.order[..i], mw, BarrierWorker)
    {
      assert g.order[..i + 1][..i] == g.order[..i];
      var v := g.order[i];
      if mw[v] == Worker {
        w := w + [v];
      }
      if mw[v] == Barrier {
        b := b + [v];
      }
      if mw[v] == BarrierWorker {
        bw := bw + [v];
      }
      i := i + 1;
    }
    assert g.order[..i] == g.order;
    workers, barriers := w + bw, b;
  }

  // ---------------------------------------------------------------- taskwaits

  /** A dependence edge whose sink line text is below `bound` in string order; a
      sink without ':' is not below anything (it raises before the comparison). */
  predicate Below(e: Edge, bound: string) {
    e.dep.etype == Data &&
    match AfterFirst(e.dep.sink, ':')
    case Some(n) => StrLess(n, bound)
    case None => false
  }

  /** The loop over the out-edges of a barrier: the line is replaced by the sink of
      every dependence whose line text is below `bound`, the line text of the
      unit's end; the bound itself never changes. A dependence sink without ':'
      raises ValueError. */
  function TaskwaitLine(es: seq<Edge>, bound: string, line: string): (r: Result<string>)
    ensures r.Err? <==> exists i :: 0 <= i < |es| && es[i].dep.etype == Data && ':' !in es[i].dep.sink
  {
    if es == [] then Ok(line)
    else if es[0].dep.etype != Data then
      var r := TaskwaitLine(es[1..], bound, line);
      assert forall i :: 0 < i < |es| ==> es[i] == es[1..][i - 1];
      r
    else
      match AfterFirst(es[0].dep.sink, ':')
      case None => Err(ValueError("substring not found"))
      case Some(n) =>
        var r := TaskwaitLine(es[1..], bound, if StrLess(n, bound) then es[0].dep.sink else line);
        assert forall i :: 0 < i < |es| ==> es[i] == es[1..][i - 1];
        r
  }

  /** Reference: the sink of the last dependence below the bound, if any. */
  function LastBelow(es: seq<Edge>, bound: string): (r: Option<string>)
    ensures r.Some? ==> exists i :: 0 <= i < |es| && Below(es[i], bound) && es[i].dep.sink == r.value
                                    && forall j :: i < j < |es| ==> !Below(es[j], bound)
    ensures r.None? <==> forall i :: 0 <= i < |es| ==> !Below(es[i], bound)
  {
    if es == [] then None
    else
      var rest := LastBelow(es[1..], bound);
      assert forall i :: 0 < i < |es| ==> es[i] == es[1..][i - 1];
      if rest.Some? then
        var i :| 0 <= i < |es[1..]| && Below(es[1..][i], bound) && es[1..][i].dep.sink == rest.value
                 && forall j :: i < j < |es[1..]| ==> !Below(es[1..][j], bound);
        assert Below(es[i + 1], bound);
        rest
      else if Below(es[0], bound) then Some(es[0].dep.sink)
      else None
  }

  /** When every dependence sink has a ':', the taskwait line is the sink of the
      last dependence below the bound, or the initial line when there is none. */
  lemma {:induction false} TaskwaitLineIsLastBelow(es: seq<Edge>, bound: string, line: string)
    requires forall i :: 0 <= i < |es| && es[i].dep.etype == Data ==> ':' in es[i].dep.sink
    ensures TaskwaitLine(es, bound, line) == Ok(match LastBelow(es, bound) case Some(s) => s case None => line)
    decreases |es|
  {
    if es != [] {
      assert forall i :: 0 < i < |es| ==> es[i] == es[1..][i - 1];
      if es[0].dep.etype != Data {
        TaskwaitLineIsLastBelow(es[1..], bound, line);
      } else {
        var n := AfterFirst(es[0].dep.sink, ':');
        assert n.Some?;
        TaskwaitLineIsLastBelow(es[1..], bound, if StrLess(n.value, bound) then es[0].dep.sink else line);
      }
    }
  }

  function DataEdge(sink: string): Edge {
    Edge("", "", Dependency(Data, Some(Raw), "", "", sink))
  }

  /** A witness that the taskwait line is the last dependence below the bound in edge
      order, not the first one the name `first_dependency_line` suggests: with the end
      line 9 and dependences on lines 3 and 5, in that order, the line chosen is 5. */
  lemma TaskwaitLineNotEarliest()
    ensures TaskwaitLine([DataEdge("1:3"), DataEdge("1:5")], "9", "1:9") == Ok("1:5")
  {
    assert AfterFirst("1:3", ':') == Some("3") by { SplitJoined("1", ':', "3"); assert "1:3" == "1" + [':'] + "3"; }
    assert AfterFirst("1:5", ':') == Some("5") by { SplitJoined("1", ':', "5"); assert "1:5" == "1" + [':'] + "5"; }
    assert StrLess("3", "9") && StrLess("5", "9");
    assert [DataEdge("1:3"), DataEdge("1:5")][1..] == [DataEdge("1:5")];
  }

  /** The taskwait suggestion for one barrier and its line key, `start_position`. */
  function TaskwaitFor(g: Graph, v: NodeId): (r: Result<(string, Suggestion)>)
    requires v in g.nodes
    ensures r.Ok? ==> r.value.0 == StartPosition(g.nodes[v]) && r.value.1.TaskInfo?
                      && r.value.1.node == v && r.value.1.pragma == ["taskwait"]
  {
    var end := EndPosition(g.nodes[v]);
    match AfterFirst(end, ':')
    case None => Err(ValueError("substring not found"))
    case Some(bound) =>
      match TaskwaitLine(OutEdges(g, v, None), bound, end)
      case Err(e) => Err(e)
      case Ok(line) => Ok((StartPosition(g.nodes[v]), NewTaskInfo(g, v, ["taskwait"], line, [], [], [])))
  }

  /** The taskwait line of a barrier is the last dependence sink whose line text
      is below the end line text, or the end position itself. */
  lemma TaskwaitForLine(g: Graph, v: NodeId)
    requires v in g.nodes
    requires forall e :: e in g.edges && e.s == v && e.dep.etype == Data ==> ':' in e.dep.sink
    ensures TaskwaitFor(g, v).Ok?
    ensures TaskwaitFor(g, v).value.1.pragmaLine
            == match LastBelow(OutEdges(g, v, None), NatToString(g.nodes[v].endLine))
               case Some(s) => s
               case None => EndPosition(g.nodes[v])
  {
    var n := g.nodes[v];
    var es := OutEdges(g, v, None);
    SplitJoined(NatToString(n.sourceFile), ':', NatToString(n.endLine));
    DigitsHaveNoColon(NatToString(n.sourceFile));
    DigitsHaveNoColon(NatToString(n.endLine));
    assert EndPosition(n) == NatToString(n.sourceFile) + [':'] + NatToString(n.endLine);
    assert forall i :: 0 <= i < |es| ==> es[i] in es;
    TaskwaitLineIsLastBelow(es, NatToString(n.endLine), EndPosition(n));
  }

  /** The iterations of the taskwait loop, one per barrier. */
  function TaskwaitRuns(g: Graph, barriers: seq<NodeId>): (rs: seq<Result<seq<(string, Suggestion)>>>)
    requires forall v :: v in barriers ==> v in g.nodes
    ensures |rs| == |barriers|
    ensures forall i :: 0 <= i < |barriers| ==> rs[i] == Listed(TaskwaitFor(g, barriers[i]))
  {
    seq(|barriers|, i requires 0 <= i < |barriers| => Listed(TaskwaitFor(g, barriers[i])))
  }

  // ---------------------------------------------------------------- tasks

  /** `call[call.index(":") + 1:]` with commas and spaces removed. */
  function PragmaLineOf(call: string): Result<string> {
    match AfterFirst(call, ':')
    case None => Err(ValueError("substring not found"))
    case Some(t) => Ok(RemoveAll(RemoveAll(t, ","), " "))
  }

  /** Removing a character leaves only characters of the input, and none equal to it. */
  lemma {:induction false} RemoveAllChars(s: string, c: char)
    ensures forall x :: x in RemoveAll(s, [c]) ==> x in s && x != c
    decreases |s|
  {
    if |s| >= 1 {
      RemoveAllChars(s[1..], c);
      assert forall x :: x in s[1..] ==> x in s;
      assert s[..1] == [s[0]];
    }
  }

  /** A task pragma line holds no comma and no space. */
  lemma PragmaLineClean(call: string)
    requires PragmaLineOf(call).Ok?
    ensures ',' !in PragmaLineOf(call).value && ' ' !in PragmaLineOf(call).value
  {
    var t := AfterFirst(call, ':').value;
    RemoveAllChars(t, ',');
    RemoveAllChars(RemoveAll(t, ","), ' ');
  }

  /** The worker lookup `__recursive_function_call_contained_in_worker_cu` for each
      call string. The task specification below is stated for any lookup that
      names only nodes of the graph; the detector uses `WorkerLookup`. */
  type Lookup = string -> Result<Option<NodeId>>

  ghost predicate LookupIn(g: Graph, lookup: Lookup) {
    forall call :: lookup(call).Ok? && lookup(call).value.Some? ==> lookup(call).value.value in g.nodes
  }

  /** The lookup among the given workers. */
  function WorkerLookup(g: Graph, workers: seq<NodeId>): (lookup: Lookup)
    requires forall w :: w in workers ==> w in g.nodes
    ensures LookupIn(g, lookup)
  {
    call => ContainedIn(g, call, workers)
  }

  /** A unit a task may be suggested for: a function or a CU with role WORKER or
      BARRIER_WORKER. */
  predicate TaskUnit(g: Graph, mw: map<NodeId, MwType>, c: NodeId)
    requires c in g.nodes && c in mw
  {
    g.nodes[c].kind in {Func, Cu} && mw[c] in {Worker, BarrierWorker}
  }

  /** The task suggestion for the recursive call `call` of `vx`, keyed by its
      pragma line, when a task unit among the workers holds the call. */
  function TaskOf(g: Graph, mw: map<NodeId, MwType>, classify: NodeId -> TaskVars,
                  vx: NodeId, call: string, lookup: Lookup): (r: Option<(string, Suggestion)>)
    requires vx in g.nodes && g.nodes.Keys <= mw.Keys
    requires LookupIn(g, lookup)
    ensures r.Some? ==> r.value.1.TaskInfo? && r.value.1.node == vx && r.value.1.pragma == ["task"]
                        && r.value.1.pragmaLine == r.value.0
  {
    match (lookup(call), PragmaLineOf(call))
    case (Ok(Some(c)), Ok(pl)) =>
      if TaskUnit(g, mw, c) then
        Some((pl, NewTaskInfo(g, vx, ["task"], pl, classify(c).firstPrivate, classify(c).private, classify(c).shared)))
      else None
    case _ => None
  }

  /** The body of the inner loop for one recursive call `call` of `vx`, in the
      source's order: the worker lookup, the pragma line, then the unit's kind
      and role. */
  function TaskForCall(g: Graph, mw: map<NodeId, MwType>, classify: NodeId -> TaskVars,
                       vx: NodeId, call: string, lookup: Lookup): Result<seq<(string, Suggestion)>>
    requires vx in g.nodes && g.nodes.Keys <= mw.Keys
    requires LookupIn(g, lookup)
  {
    match lookup(call)
    case Err(e) => Err(e)
    case Ok(None) => Ok([])
    case Ok(Some(c)) =>
      match PragmaLineOf(call)
      case Err(e) => Err(e)
      case Ok(pl) =>
        if TaskUnit(g, mw, c) then
          Ok([(pl, NewTaskInfo(g, vx, ["task"], pl, classify(c).firstPrivate, classify(c).private, classify(c).shared))])
        else Ok([])
  }

  /** The loop body raises only what the worker lookup or the pragma line raises,
      and otherwise makes the task suggestion exactly when a task unit holds the call. */
  lemma TaskForCallResult(g: Graph, mw: map<NodeId, MwType>, classify: NodeId -> TaskVars,
                          vx: NodeId, call: string, lookup: Lookup)
    requires vx in g.nodes && g.nodes.Keys <= mw.Keys
    requires LookupIn(g, lookup)
    ensures var t := TaskForCall(g, mw, classify, vx, call, lookup);
            var h := lookup(call);
            && (t.Err? <==> h.Err? || (h.value.Some? && PragmaLineOf(call).Err?))
            && (t.Ok? && TaskOf(g, mw, classify, vx, call, lookup).None? ==> t.value == [])
            && (t.Ok? && TaskOf(g, mw, classify, vx, call, lookup).Some? ==> t.value == [TaskOf(g, mw, classify, vx, call, lookup).value])
            && (TaskOf(g, mw, classify, vx, call, lookup).Some? ==> t.Ok?)
  {
  }

  /** The iterations of the inner loop over the recursive calls of `vx`. */
  function CallRuns(g: Graph, mw: map<NodeId, MwType>, classify: NodeId -> TaskVars,
                    vx: NodeId, lookup: Lookup): (rs: seq<Result<seq<(string, Suggestion)>>>)
    requires vx in g.nodes && g.nodes.Keys <= mw.Keys
    requires LookupIn(g, lookup)
    ensures |rs| == |g.nodes[vx].recursiveCalls|
    ensures forall i :: 0 <= i < |rs| ==> rs[i] == TaskForCall(g, mw, classify, vx, g.nodes[vx].recursiveCalls[i], lookup)
  {
    var calls := g.nodes[vx].recursiveCalls;
    seq(|calls|, i requires 0 <= i < |calls| => TaskForCall(g, mw, classify, vx, calls[i], lookup))
  }

  /** The iterations of the outer loop over the vertices `vs`. */
  function VertexRuns(g: Graph, mw: map<NodeId, MwType>, classify: NodeId -> TaskVars,
                      vs: seq<NodeId>, lookup: Lookup): (rs: seq<Result<seq<(string, Suggestion)>>>)
    requires forall v :: v in vs ==> v in g.nodes
    requires g.nodes.Keys <= mw.Keys
    requires LookupIn(g, lookup)
    ensures |rs| == |vs|
    ensures forall k :: 0 <= k < |vs| ==> rs[k] == Gather(CallRuns(g, mw, classify, vs[k], lookup))
  {
    seq(|vs|, k requires 0 <= k < |vs| => Gather(CallRuns(g, mw, classify, vs[k], lookup)))
  }

  // ---------------------------------------------------------------- the detector

  /** Grouping after `pre` when the rest was produced without error. */
  function GroupAfter(pre: seq<(string, Suggestion)>, r: Result<seq<(string, Suggestion)>>): Result<Groups> {
    match r
    case Err(e) => Err(e)
    case Ok(xs) => Ok(Group(pre + xs))
  }

  /** The keyed taskwait suggestions of the barriers. */
  function Taskwaits(g: Graph, mw: map<NodeId, MwType>): Result<seq<(string, Suggestion)>>
    requires OrderedNodes(g) && g.nodes.Keys <= mw.Keys
  {
    Gather(TaskwaitRuns(g, WithRole(g.order, mw, Barrier)))
  }

  /** The keyed task suggestions of all vertices. */
  function Tasks(g: Graph, mw: map<NodeId, MwType>, classify: NodeId -> TaskVars, lookup: Lookup): Result<seq<(string, Suggestion)>>
    requires OrderedNodes(g) && g.nodes.Keys <= mw.Keys && LookupIn(g, lookup)
  {
    Gather(VertexRuns(g, mw, classify, g.order, lookup))
  }

  /** `__detect_task_suggestions(pet)`: the taskwaits, then the tasks, grouped by
      line key and flattened in key insertion order. */
  function TaskSuggestionsOf(g: Graph, mw: map<NodeId, MwType>, classify: NodeId -> TaskVars, lookup: Lookup): Result<seq<Suggestion>>
    requires OrderedNodes(g) && g.nodes.Keys <= mw.Keys && LookupIn(g, lookup)
  {
    match Taskwaits(g, mw)
    case Err(e) => Err(e)
    case Ok(tw) =>
      match Tasks(g, mw, classify, lookup)
      case Err(e) => Err(e)
      case Ok(ts) => Ok(Flatten(Group(tw + ts)))
  }

  /** The detector raises exactly when the taskwait line of some barrier or the
      body of the call loop for some recursive call raises. */
  lemma TaskSuggestionsErr(g: Graph, mw: map<NodeId, MwType>, classify: NodeId -> TaskVars, lookup: Lookup)
    requires OrderedNodes(g) && g.nodes.Keys <= mw.Keys && LookupIn(g, lookup)
    ensures TaskSuggestionsOf(g, mw, classify, lookup).Ok? <==>
              && (forall v :: v in g.nodes && mw[v] == Barrier ==> TaskwaitFor(g, v).Ok?)
              && (forall v, i :: v in g.nodes && 0 <= i < |g.nodes[v].recursiveCalls| ==>
                    TaskForCall(g, mw, classify, v, g.nodes[v].recursiveCalls[i], lookup).Ok?)
  {
    TaskwaitsErr(g, mw);
    TasksErr(g, mw, classify, lookup);
  }

  lemma TaskwaitsErr(g: Graph, mw: map<NodeId, MwType>)
    requires OrderedNodes(g) && g.nodes.Keys <= mw.Keys
    ensures Taskwaits(g, mw).Ok? <==> forall v :: v in g.nodes && mw[v] == Barrier ==> TaskwaitFor(g, v).Ok?
  {
    var barriers := WithRole(g.order, mw, Barrier);
    GatherErr(TaskwaitRuns(g, barriers));
    if forall i :: 0 <= i < |barriers| ==> TaskwaitRuns(g, barriers)[i].Ok? {
      forall v | v in g.nodes && mw[v] == Barrier ensures TaskwaitFor(g, v).Ok? {
        var i :| 0 <= i < |barriers| && barriers[i] == v;
      }
    }
  }

  lemma TasksErr(g: Graph, mw: map<NodeId, MwType>, classify: NodeId -> TaskVars, lookup: Lookup)
    requires OrderedNodes(g) && g.nodes.Keys <= mw.Keys && LookupIn(g, lookup)
    ensures Tasks(g, mw, classify, lookup).Ok? <==>
              forall v, i :: v in g.nodes && 0 <= i < |g.nodes[v].recursiveCalls| ==>
                TaskForCall(g, mw, classify, v, g.nodes[v].recursiveCalls[i], lookup).Ok?
  {
    var vr := VertexRuns(g, mw, classify, g.order, lookup);
    GatherErr(vr);
    forall k | 0 <= k < |g.order| {
      GatherErr(CallRuns(g, mw, classify, g.order[k], lookup));
    }
    if forall k :: 0 <= k < |vr| ==> vr[k].Ok? {
      forall v, i | v in g.nodes && 0 <= i < |g.nodes[v].recursiveCalls|
        ensures TaskForCall(g, mw, classify, v, g.nodes[v].recursiveCalls[i], lookup).Ok?
      {
        var k :| 0 <= k < |g.order| && g.order[k] == v;
        assert CallRuns(g, mw, classify, v, lookup)[i].Ok?;
      }
    }
  }

  /** The result holds exactly the taskwait and task suggestions, each as often as
      it was made; grouping only reorders them. */
  lemma TaskSuggestionsPermute(g: Graph, mw: map<NodeId, MwType>, classify: NodeId -> TaskVars, lookup: Lookup)
    requires OrderedNodes(g) && g.nodes.Keys <= mw.Keys && LookupIn(g, lookup)
    requires TaskSuggestionsOf(g, mw, classify, lookup).Ok?
    ensures multiset(TaskSuggestionsOf(g, mw, classify, lookup).value)
            == multiset(Values(Taskwaits(g, mw).value)) + multiset(Values(Tasks(g, mw, classify, lookup).value))
  {
    var tw := Taskwaits(g, mw).value;
    var ts := Tasks(g, mw, classify, lookup).value;
    GroupPermutes(tw + ts);
    ValuesAppend(tw, ts);
  }

  /** A result without error is the grouped taskwaits and tasks. */
  lemma TaskSuggestionsParts(g: Graph, mw: map<NodeId, MwType>, classify: NodeId -> TaskVars, lookup: Lookup)
    requires OrderedNodes(g) && g.nodes.Keys <= mw.Keys && LookupIn(g, lookup)
    requires TaskSuggestionsOf(g, mw, classify, lookup).Ok?
    ensures Taskwaits(g, mw).Ok? && Tasks(g, mw, classify, lookup).Ok?
    ensures TaskSuggestionsOf(g, mw, classify, lookup).value
            == Flatten(Group(Taskwaits(g, mw).value + Tasks(g, mw, classify, lookup).value))
  {
  }

  /** Every BARRIER unit gets its taskwait suggestion. */
  lemma EveryBarrierGetsTaskwait(g: Graph, mw: map<NodeId, MwType>, classify: NodeId -> TaskVars, lookup: Lookup, v: NodeId)
    requires OrderedNodes(g) && g.nodes.Keys <= mw.Keys && LookupIn(g, lookup)
    requires TaskSuggestionsOf(g, mw, classify, lookup).Ok?
    requires v in g.nodes && mw[v] == Barrier
    ensures TaskwaitFor(g, v).Ok? && TaskwaitFor(g, v).value.1 in TaskSuggestionsOf(g, mw, classify, lookup).value
  {
    TaskSuggestionsParts(g, mw, classify, lookup);
    var barriers := WithRole(g.order, mw, Barrier);
    var rs := TaskwaitRuns(g, barriers);
    var i :| 0 <= i < |barriers| && barriers[i] == v;
    GatherAll(rs, i);
    assert rs[i] == Listed(TaskwaitFor(g, v));
    var x := TaskwaitFor(g, v).value;
    assert x in rs[i].value;
    InGroupedAppend(Taskwaits(g, mw).value, Tasks(g, mw, classify, lookup).value, x);
  }

  /** A taskwait in the result is the one of a BARRIER unit. */
  lemma TaskwaitSound(g: Graph, mw: map<NodeId, MwType>, x: (string, Suggestion))
    requires OrderedNodes(g) && g.nodes.Keys <= mw.Keys
    requires Taskwaits(g, mw).Ok? && x in Taskwaits(g, mw).value
    ensures x.1.TaskInfo? && x.1.node in g.nodes && mw[x.1.node] == Barrier && TaskwaitFor(g, x.1.node) == Ok(x)
  {
    var barriers := WithRole(g.order, mw, Barrier);
    GatherFrom(TaskwaitRuns(g, barriers), x);
    var i :| 0 <= i < |barriers| && TaskwaitRuns(g, barriers)[i].Ok? && x in TaskwaitRuns(g, barriers)[i].value;
    assert barriers[i] in barriers;
  }

  /** A task in the result is the one of a recursive call of some vertex. */
  lemma TaskSound(g: Graph, mw: map<NodeId, MwType>, classify: NodeId -> TaskVars, lookup: Lookup, x: (string, Suggestion))
    requires OrderedNodes(g) && g.nodes.Keys <= mw.Keys && LookupIn(g, lookup)
    requires Tasks(g, mw, classify, lookup).Ok? && x in Tasks(g, mw, classify, lookup).value
    ensures x.1.TaskInfo? && x.1.node in g.nodes
    ensures exists i :: 0 <= i < |g.nodes[x.1.node].recursiveCalls|
              && TaskOf(g, mw, classify, x.1.node, g.nodes[x.1.node].recursiveCalls[i], lookup) == Some(x)
  {
    var vr := VertexRuns(g, mw, classify, g.order, lookup);
    GatherFrom(vr, x);
    var k :| 0 <= k < |g.order| && vr[k].Ok? && x in vr[k].value;
    var v := g.order[k];
    var cr := CallRuns(g, mw, classify, v, lookup);
    GatherFrom(cr, x);
    var i :| 0 <= i < |cr| && cr[i].Ok? && x in cr[i].value;
    var call := g.nodes[v].recursiveCalls[i];
    TaskForCallResult(g, mw, classify, v, call, lookup);
    assert cr[i] == TaskForCall(g, mw, classify, v, call, lookup);
    assert TaskOf(g, mw, classify, v, call, lookup) == Some(x);
  }

  /** Every suggestion is a taskwait of a BARRIER unit, or the task of a recursive
      call of its vertex. */
  lemma TaskSuggestionsSound(g: Graph, mw: map<NodeId, MwType>, classify: NodeId -> TaskVars, lookup: Lookup, s: Suggestion)
    requires OrderedNodes(g) && g.nodes.Keys <= mw.Keys && LookupIn(g, lookup)
    requires TaskSuggestionsOf(g, mw, classify, lookup).Ok?
    requires s in TaskSuggestionsOf(g, mw, classify, lookup).value
    ensures s.TaskInfo? && s.node in g.nodes
    ensures s.pragma == ["taskwait"] ==> mw[s.node] == Barrier && TaskwaitFor(g, s.node) == Ok((StartPosition(g.nodes[s.node]), s))
    ensures s.pragma != ["taskwait"] ==>
              exists i :: 0 <= i < |g.nodes[s.node].recursiveCalls|
                && TaskOf(g, mw, classify, s.node, g.nodes[s.node].recursiveCalls[i], lookup) == Some((s.pragmaLine, s))
  {
    TaskSuggestionsParts(g, mw, classify, lookup);
    var x := FromGroupedAppend(Taskwaits(g, mw).value, Tasks(g, mw, classify, lookup).value, s);
    if x in Taskwaits(g, mw).value {
      TaskwaitSound(g, mw, x);
    } else {
      TaskSound(g, mw, classify, lookup, x);
    }
  }

  /** Every recursive call held by a task unit gets its task suggestion. */
  lemma EveryTaskSuggested(g: Graph, mw: map<NodeId, MwType>, classify: NodeId -> TaskVars, lookup: Lookup, v: NodeId, i: nat)
    requires OrderedNodes(g) && g.nodes.Keys <= mw.Keys && LookupIn(g, lookup)
    requires TaskSuggestionsOf(g, mw, classify, lookup).Ok?
    requires v in g.nodes && i < |g.nodes[v].recursiveCalls|
    requires TaskOf(g, mw, classify, v, g.nodes[v].recursiveCalls[i], lookup).Some?
    ensures TaskOf(g, mw, classify, v, g.nodes[v].recursiveCalls[i], lookup).value.1
            in TaskSuggestionsOf(g, mw, classify, lookup).value
  {
    TaskSuggestionsParts(g, mw, classify, lookup);
    var vr := VertexRuns(g, mw, classify, g.order, lookup);
    var cr := CallRuns(g, mw, classify, v, lookup);
    var call := g.nodes[v].recursiveCalls[i];
    var x := TaskOf(g, mw, classify, v, call, lookup).value;
    var k :| 0 <= k < |g.order| && g.order[k] == v;
    GatherAll(vr, k);
    assert vr[k] == Gather(cr);
    GatherAll(cr, i);
    TaskForCallResult(g, mw, classify, v, call, lookup);
    assert x in cr[i].value;
    InGroupedAppend(Taskwaits(g, mw).value, Tasks(g, mw, classify, lookup).value, x);
  }

  // ---------------------------------------------------------------- imperative form

  /** The dependence loop for one barrier. */
  method TaskwaitSuggestion(g: Graph, v: NodeId) returns (r: Result<(string, Suggestion)>)
    requires v in g.nodes
    ensures r == TaskwaitFor(g, v)
  {
    var first := EndPosition(g.nodes[v]);
    var bound: string;
    match AfterFirst(first, ':') {
      case None => return Err(ValueError("substring not found"));
      case Some(b) => bound := b;
    }
    var es := OutEdges(g, v, None);
    var i := 0;
    while i < |es|
      invariant 0 <= i <= |es|
      invariant TaskwaitLine(es[i..], bound, first) == TaskwaitLine(es, bound, EndPosition(g.nodes[v]))
    {
      assert es[i..][1..] == es[i + 1..];
      var e := es[i];
      if e.dep.etype == Data {
        match AfterFirst(e.dep.sink, ':') {
          case None => return Err(ValueError("substring not found"));
          case Some(n) =>
            if StrLess(n, bound) {
              first := e.dep.sink;
            }
        }
      }
      i := i + 1;
    }
    r := Ok((StartPosition(g.nodes[v]), NewTaskInfo(g, v, ["taskwait"], first, [], [], [])));
  }

  /** Appending one keyed suggestion to the grouped list. */
  lemma GroupSnoc(xs: seq<(string, Suggestion)>, x: (string, Suggestion))
    ensures Group(xs + [x]) == Insert(Group(xs), x.0, x.1)
  {
    assert (xs + [x])[..|xs|] == xs;
  }


  /** The taskwait loop, inserting into the dictionary as it goes. */
  method AddTaskwaits(g: Graph, barriers: seq<NodeId>) returns (r: Result<Groups>)
    requires forall v :: v in barriers ==> v in g.nodes
    ensures r == GroupAfter([], Gather(TaskwaitRuns(g, barriers)))
  {
    ghost var rs := TaskwaitRuns(g, barriers);
    var d: Groups := [];
    ghost var made: seq<(string, Suggestion)> := [];
    var i := 0;
    while i < |barriers|
      invariant 0 <= i <= |barriers|
      invariant Gather(rs[..i]) == Ok(made) && d == Group(made)
    {
      GatherStep(rs, i);
      var t := TaskwaitSuggestion(g, barriers[i]);
      match t {
        case Err(e) =>
          GatherStops(rs, i + 1);
          return Err(e);
        case Ok(x) =>
          GroupSnoc(made, x);
          d := Insert(d, x.0, x.1);
          made := made + [x];
      }
      i := i + 1;
    }
    assert rs[..i] == rs;
    assert [] + made == made;
    r := Ok(d);
  }

  /** The body of the inner loop for one recursive call: the task suggestion, if any. */
  method CallTask(g: Graph, mw: map<NodeId, MwType>, classify: NodeId -> TaskVars,
                  vx: NodeId, call: string, workers: seq<NodeId>)
    returns (t: Result<seq<(string, Suggestion)>>)
    requires vx in g.nodes && g.nodes.Keys <= mw.Keys
    requires forall w :: w in workers ==> w in g.nodes
    ensures t == TaskForCall(g, mw, classify, vx, call, WorkerLookup(g, workers))
    ensures t.Ok? ==> |t.value| <= 1
  {
    var h := RecursiveCallContainedIn(g, call, workers);
    assert WorkerLookup(g, workers)(call) == h;
    match h {
      case Err(e) => return Err(e);
      case Ok(None) => return Ok([]);
      case Ok(Some(c)) =>
        match PragmaLineOf(call) {
          case Err(e) => return Err(e);
          case Ok(pl) =>
            if TaskUnit(g, mw, c) {
              var vars := classify(c);
              return Ok([(pl, NewTaskInfo(g, vx, ["task"], pl, vars.firstPrivate, vars.private, vars.shared))]);
            }
            return Ok([]);
        }
    }
  }

  /** Inserting the at most one suggestion of a loop step. */
  lemma GroupStep(pre: seq<(string, Suggestion)>, made: seq<(string, Suggestion)>, ys: seq<(string, Suggestion)>)
    requires |ys| <= 1
    ensures Group(pre + (made + ys))
            == if ys == [] then Group(pre + made) else Insert(Group(pre + made), ys[0].0, ys[0].1)
  {
    assert pre + (made + ys) == (pre + made) + ys;
    if ys != [] {
      assert ys == [ys[0]];
      GroupSnoc(pre + made, ys[0]);
    } else {
      assert (pre + made) + ys == pre + made;
    }
  }

  /** Appending the suggestions of one vertex. */
  lemma GroupAppend(pre: seq<(string, Suggestion)>, made: seq<(string, Suggestion)>, ys: seq<(string, Suggestion)>)
    ensures Group(pre + (made + ys)) == Group(pre + made + ys)
  {
    assert pre + (made + ys) == pre + made + ys;
  }

  /** The inner loop over the recursive calls of `vx`, inserting into `d`, which
      groups the suggestions `pre` made before. */
  method AddCallTasks(g: Graph, mw: map<NodeId, MwType>, classify: NodeId -> TaskVars,
                      vx: NodeId, workers: seq<NodeId>, d0: Groups, ghost pre: seq<(string, Suggestion)>)
    returns (r: Result<Groups>)
    requires vx in g.nodes && g.nodes.Keys <= mw.Keys
    requires forall w :: w in workers ==> w in g.nodes
    requires d0 == Group(pre)
    ensures r == GroupAfter(pre, Gather(CallRuns(g, mw, classify, vx, WorkerLookup(g, workers))))
  {
    ghost var rs := CallRuns(g, mw, classify, vx, WorkerLookup(g, workers));
    var calls := g.nodes[vx].recursiveCalls;
    var d := d0;
    ghost var made: seq<(string, Suggestion)> := [];
    assert pre + made == pre;
    var i := 0;
    while i < |calls|
      invariant 0 <= i <= |calls|
      invariant Gather(rs[..i]) == Ok(made) && d == Group(pre + made)
    {
      var t := CallTask(g, mw, classify, vx, calls[i], workers);
      assert rs[i] == t;
      match t {
        case Err(e) =>
          GatherStep(rs, i);
          GatherStops(rs, i + 1);
          return Err(e);
        case Ok(ys) =>
          GatherSnoc(rs, i, made, ys);
          GroupStep(pre, made, ys);
          if ys != [] {
            d := Insert(d, ys[0].0, ys[0].1);
          }
          made := made + ys;
      }
      i := i + 1;
    }
    assert rs[..i] == rs;
    r := Ok(d);
  }

  /** The outer loop over the vertices. */
  method AddTasks(g: Graph, mw: map<NodeId, MwType>, classify: NodeId -> TaskVars,
                  workers: seq<NodeId>, d0: Groups, ghost pre: seq<(string, Suggestion)>)
    returns (r: Result<Groups>)
    requires OrderedNodes(g) && g.nodes.Keys <= mw.Keys
    requires forall w :: w in workers ==> w in g.nodes
    requires d0 == Group(pre)
    ensures r == GroupAfter(pre, Gather(VertexRuns(g, mw, classify, g.order, WorkerLookup(g, workers))))
  {
    ghost var rs := VertexRuns(g, mw, classify, g.order, WorkerLookup(g, workers));
    var d := d0;
    ghost var made: seq<(string, Suggestion)> := [];
    assert pre + made == pre;
    var k := 0;
    while k < |g.order|
      invariant 0 <= k <= |g.order|
      invariant Gather(rs[..k]) == Ok(made) && d == Group(pre + made)
    {
      var t := AddCallTasks(g, mw, classify, g.order[k], workers, d, pre + made);
      ghost var inner := Gather(CallRuns(g, mw, classify, g.order[k], WorkerLookup(g, workers)));
      assert rs[k] == inner;
      match t {
        case Err(e) =>
          GatherStep(rs, k);
          GatherStops(rs, k + 1);
          return Err(e);
        case Ok(d') =>
          GatherSnoc(rs, k, made, inner.value);
          GroupAppend(pre, made, inner.value);
          d := d';
          made := made + inner.value;
      }
      k := k + 1;
    }
    assert rs[..k] == rs;
    r := Ok(d);
  }

  /** `[x for key in d for x in d[key]]` as the two nested loops. */
  method FlattenGroups(d: Groups) returns (out: seq<Suggestion>)
    ensures out == Flatten(d)
  {
    out := [];
    var i := 0;
    while i < |d|
      invariant 0 <= i <= |d|
      invariant out + Flatten(d[i..]) == Flatten(d)
    {
      assert d[i..][1..] == d[i + 1..];
      var group := d[i].1;
      ghost var before := out;
      var j := 0;
      while j < |group|
        invariant 0 <= j <= |group|
        invariant out == before + group[..j]
      {
        out := out + [group[j]];
        j := j + 1;
      }
      assert group[..j] == group;
      i := i + 1;
    }
    assert out + [] == out;
  }

  /** `__detect_task_suggestions(pet)`, with `classify_task_vars` as `classify`. */
  method DetectTaskSuggestions(pet: Pet, classify: NodeId -> TaskVars) returns (r: Result<seq<Suggestion>>)
    requires pet.Valid()
    ensures r == TaskSuggestionsOf(pet.g, pet.mwType, classify, WorkerLookup(pet.g, Workers(pet.g, pet.mwType)))
  {
    var g, mw := pet.g, pet.mwType;
    var workers, barriers := RoleLists(g, mw);
    var tw := AddTaskwaits(g, barriers);
    match tw {
      case Err(e) => return Err(e);
      case Ok(d) =>
        assert [] + Taskwaits(g, mw).value == Taskwaits(g, mw).value;
        var ts := AddTasks(g, mw, classify, workers, d, Taskwaits(g, mw).value);
        match ts {
          case Err(e) => return Err(e);
          case Ok(d') =>
            var out := FlattenGroups(d');
            return Ok(out);
        }
    }
  }
}
