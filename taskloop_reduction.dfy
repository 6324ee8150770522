/** Turning a task that sits in the body of a reduction loop into a `taskloop`
    with a reduction clause: `__detect_taskloop_reduction` and
    `__task_contained_in_reduction_loop`
    (graph_analyzer/pattern_detectors/task_parallelism_detector.py).

    The reduction flags of the units and the reduction facts read from the
    reduction file are passed as values (`pet.graph.vp.reduction` and
    `pet.reduction_vars`). */
module TaskloopReduction {
  import opened Wrappers
  import opened Text
  import opened PetGraph
  import opened Suggestion
  import opened TaskSearch

  // ------------------------------------------------------------ containment

  /** Both positions of the task carry a `file:` prefix. */
  predicate TaskLinesOk(t: Suggestion) {
    LineText(t.startLine).Some? && LineText(t.endLine).Some?
  }

  /** The loop's line texts enclose the task's: `p_start <= t_start and p_end >= t_end`,
      compared as strings; `str.index(":")` raises when a position has no colon. */
  function Encloses(g: Graph, loop: NodeId, t: Suggestion): Result<bool>
    requires loop in g.nodes
  {
    match (LineText(StartPosition(g.nodes[loop])), LineText(EndPosition(g.nodes[loop])),
           LineText(t.startLine), LineText(t.endLine))
    case (Some(ps), Some(pe), Some(ts), Some(te)) => Ok(StrLeq(ps, ts) && StrLeq(te, pe))
    case _ => Err(ValueError("substring not found"))
  }

  /** A loop's own positions always have their colon, so only the task's can fail. */
  lemma EnclosesErr(g: Graph, loop: NodeId, t: Suggestion)
    requires loop in g.nodes
    ensures Encloses(g, loop, t).Ok? <==> TaskLinesOk(t)
  {
    ParseIdInvertsPositions(g.nodes[loop]);
  }

  ghost predicate ParentsIn(g: Graph, ps: seq<(NodeId, NodeId)>) {
    forall pr :: pr in ps ==> pr.0 in g.nodes
  }

  /** `contained_in`: the listed loops, in order, whose lines enclose the task's. */
  function ContainedIn(g: Graph, t: Suggestion, ps: seq<(NodeId, NodeId)>): (r: Result<seq<NodeId>>)
    requires ParentsIn(g, ps)
    ensures r.Ok? ==> forall c :: c in r.value ==> c in g.nodes
  {
    if ps == [] then Ok([])
    else
      match ContainedIn(g, t, ps[..|ps| - 1])
      case Err(e) => Err(e)
      case Ok(cs) =>
        match Encloses(g, ps[|ps| - 1].0, t)
        case Err(e) => Err(e)
        case Ok(b) => Ok(if b then cs + [ps[|ps| - 1].0] else cs)
  }

  /** Some listed loop is `c` and encloses the task. */
  ghost predicate Enclosing(g: Graph, t: Suggestion, ps: seq<(NodeId, NodeId)>, c: NodeId) {
    exists pr :: pr in ps && pr.0 == c && c in g.nodes && Encloses(g, c, t) == Ok(true)
  }

  /** The scan raises exactly when there is a loop to compare with and the task's
      positions lack their colon. */
  lemma {:induction false} ContainedInOk(g: Graph, t: Suggestion, ps: seq<(NodeId, NodeId)>)
    requires ParentsIn(g, ps)
    ensures ContainedIn(g, t, ps).Ok? <==> ps == [] || TaskLinesOk(t)
  {
    if ps != [] {
      var init := ps[..|ps| - 1];
      assert ParentsIn(g, init);
      ContainedInOk(g, t, init);
      EnclosesErr(g, ps[|ps| - 1].0, t);
    }
  }

  /** Without an error the scan keeps exactly the enclosing loops. */
  lemma {:induction false} ContainedInMember(g: Graph, t: Suggestion, ps: seq<(NodeId, NodeId)>, c: NodeId)
    requires ParentsIn(g, ps) && ContainedIn(g, t, ps).Ok?
    ensures c in ContainedIn(g, t, ps).value <==> Enclosing(g, t, ps, c)
  {
    if ps != [] {
      var init := ps[..|ps| - 1];
      var last := ps[|ps| - 1];
      assert ParentsIn(g, init);
      ContainedInMember(g, t, init, c);
      if Enclosing(g, t, init, c) {
        var pr :| pr in init && pr.0 == c && c in g.nodes && Encloses(g, c, t) == Ok(true);
        assert pr in ps;
      }
      if Enclosing(g, t, ps, c) {
        var pr :| pr in ps && pr.0 == c && c in g.nodes && Encloses(g, c, t) == Ok(true);
        var j :| 0 <= j < |ps| && ps[j] == pr;
        if j < |ps| - 1 {
          assert init[j] == pr;
        }
      }
      assert last in ps;
    }
  }

  // ------------------------------------------------------------ reduction facts

  /** The first entry of `pet.reduction_vars` whose `loop_line` is `line`. */
  function FactFor(facts: seq<ReductionFact>, line: string): (r: Option<ReductionFact>)
    ensures r.Some? <==> exists i :: 0 <= i < |facts| && facts[i].loopLine == line
    ensures r.Some? ==> exists i :: 0 <= i < |facts| && facts[i] == r.value && facts[i].loopLine == line &&
                          forall j :: 0 <= j < i ==> facts[j].loopLine != line
  {
    if facts == [] then None
    else if facts[0].loopLine == line then Some(facts[0])
    else
      var r := FactFor(facts[1..], line);
      assert forall i :: 0 < i < |facts| ==> facts[i] == facts[1..][i - 1];
      r
  }

  /** A loop that is flagged as a reduction loop and has a fact for its start line. */
  predicate ReductionLoop(g: Graph, red: set<NodeId>, facts: seq<ReductionFact>, c: NodeId)
    requires c in g.nodes
  {
    c in red && FactFor(facts, StartPosition(g.nodes[c])).Some?
  }

  /** The fact of the first reduction loop of `contained_in`. */
  function FirstReduction(g: Graph, red: set<NodeId>, facts: seq<ReductionFact>, cs: seq<NodeId>): (r: Option<ReductionFact>)
    requires forall c :: c in cs ==> c in g.nodes
    ensures r.Some? <==> exists c :: c in cs && ReductionLoop(g, red, facts, c)
    ensures r.Some? ==> exists c :: c in cs && ReductionLoop(g, red, facts, c) &&
                          r == FactFor(facts, StartPosition(g.nodes[c]))
  {
    if cs == [] then None
    else if ReductionLoop(g, red, facts, cs[0]) then FactFor(facts, StartPosition(g.nodes[cs[0]]))
    else
      var r := FirstReduction(g, red, facts, cs[1..]);
      assert forall c :: c in cs && c != cs[0] ==> c in cs[1..];
      r
  }

  // ------------------------------------------------------------ one task

  /** `__task_contained_in_reduction_loop(pet, task)`: the reduction fact of the
      first enclosing reduction loop among the loops found above the task. */
  function ReductionEntryOf(g: Graph, red: set<NodeId>, facts: seq<ReductionFact>, t: Suggestion): Result<Option<ReductionFact>>
    requires Wf(g) && t.node in g.nodes
  {
    ParentsOfTypeResult(g, t.node, Loop, false);
    var parents := ParentsOfType(g, t.node, Loop, false);
    assert ParentsIn(g, parents);
    if parents == [] then Ok(None)
    else
      match ContainedIn(g, t, parents)
      case Err(e) => Err(e)
      case Ok(cs) => Ok(FirstReduction(g, red, facts, cs))
  }

  /** A loop found above the task that encloses it and is a reduction loop. */
  ghost predicate EnclosingReductionLoop(g: Graph, red: set<NodeId>, facts: seq<ReductionFact>, t: Suggestion, p: NodeId)
    requires Wf(g) && t.node in g.nodes
  {
    Enclosing(g, t, ParentsOfType(g, t.node, Loop, false), p) && ReductionLoop(g, red, facts, p)
  }

  /** The lookup raises exactly when a loop lies above the task and the task's
      positions lack their colon. */
  lemma ReductionEntryErr(g: Graph, red: set<NodeId>, facts: seq<ReductionFact>, t: Suggestion)
    requires Wf(g) && t.node in g.nodes
    ensures ReductionEntryOf(g, red, facts, t).Err? <==>
      HasAncestorOfKind(g, t.node, Loop) && !TaskLinesOk(t)
  {
    ParentsOfTypeResult(g, t.node, Loop, false);
    ContainedInOk(g, t, ParentsOfType(g, t.node, Loop, false));
  }

  /** A fact is returned only for an enclosing reduction loop above the task, and
      it is that loop's first fact. */
  lemma ReductionEntrySound(g: Graph, red: set<NodeId>, facts: seq<ReductionFact>, t: Suggestion, f: ReductionFact)
    returns (p: NodeId)
    requires Wf(g) && t.node in g.nodes
    requires ReductionEntryOf(g, red, facts, t) == Ok(Some(f))
    ensures EnclosingReductionLoop(g, red, facts, t, p)
    ensures g.nodes[p].kind == Loop && ProperAncestor(g, p, t.node)
    ensures Some(f) == FactFor(facts, StartPosition(g.nodes[p]))
  {
    var parents := ParentsOfType(g, t.node, Loop, false);
    ParentsOfTypeResult(g, t.node, Loop, false);
    assert ParentsIn(g, parents);
    var cs := ContainedIn(g, t, parents).value;
    p :| p in cs && ReductionLoop(g, red, facts, p) && Some(f) == FactFor(facts, StartPosition(g.nodes[p]));
    ContainedInMember(g, t, parents, p);
    var pr :| pr in parents && pr.0 == p && p in g.nodes && Encloses(g, p, t) == Ok(true);
    assert ParentPair(g, t.node, Loop, pr);
  }

  /** No fact is returned only when no loop found above the task both encloses it
      and is a reduction loop. */
  lemma ReductionEntryNone(g: Graph, red: set<NodeId>, facts: seq<ReductionFact>, t: Suggestion, p: NodeId)
    requires Wf(g) && t.node in g.nodes
    requires ReductionEntryOf(g, red, facts, t) == Ok(None)
    ensures !EnclosingReductionLoop(g, red, facts, t, p)
  {
    var parents := ParentsOfType(g, t.node, Loop, false);
    ParentsOfTypeResult(g, t.node, Loop, false);
    assert ParentsIn(g, parents);
    ContainedInMember(g, t, parents, p);
  }

  /** The first loop of `__task_contained_in_reduction_loop`: collect the loops whose
      lines enclose the task's. */
  method ScanContained(g: Graph, t: Suggestion, parents: seq<(NodeId, NodeId)>) returns (r: Result<seq<NodeId>>)
    requires ParentsIn(g, parents)
    ensures r == ContainedIn(g, t, parents)
  {
    var contained: seq<NodeId> := [];
    var i := 0;
    assert parents[..0] == [];
    while i < |parents|
      invariant 0 <= i <= |parents|
      invariant ParentsIn(g, parents[..i])
      invariant ContainedIn(g, t, parents[..i]) == Ok(contained)
    {
      ContainedInStep(g, t, parents, i);
      var e := Encloses(g, parents[i].0, t);
      if e.Err? {
        ContainedInStops(g, t, parents, i + 1);
        return Err(e.error);
      }
      if e.value {
        contained := contained + [parents[i].0];
      }
      i := i + 1;
    }
    assert parents[..i] == parents;
    return Ok(contained);
  }

  /** One more iteration of the scan. */
  lemma ContainedInStep(g: Graph, t: Suggestion, ps: seq<(NodeId, NodeId)>, n: nat)
    requires ParentsIn(g, ps) && n < |ps|
    ensures ParentsIn(g, ps[..n]) && ParentsIn(g, ps[..n + 1])
    ensures ContainedIn(g, t, ps[..n + 1]) ==
      match ContainedIn(g, t, ps[..n])
      case Err(e) => Err(e)
      case Ok(cs) =>
        match Encloses(g, ps[n].0, t)
        case Err(e) => Err(e)
        case Ok(b) => Ok(if b then cs + [ps[n].0] else cs)
  {
    assert ps[..n + 1][..n] == ps[..n];
  }

  /** Once the scan of a prefix raises, the whole scan raises the same error. */
  lemma {:induction false} ContainedInStops(g: Graph, t: Suggestion, ps: seq<(NodeId, NodeId)>, n: nat)
    requires ParentsIn(g, ps) && n <= |ps|
    requires ParentsIn(g, ps[..n]) && ContainedIn(g, t, ps[..n]).Err?
    ensures ContainedIn(g, t, ps) == ContainedIn(g, t, ps[..n])
    decreases |ps| - n
  {
    if n < |ps| {
      assert ParentsIn(g, ps[..n + 1]);
      assert ps[..n + 1][..n] == ps[..n];
      ContainedInStops(g, t, ps, n + 1);
    } else {
      assert ps[..n] == ps;
    }
  }

  /** The second loop: the first reduction loop of `contained_in` and, inside it,
      the first matching fact. */
  method FirstOfContained(g: Graph, red: set<NodeId>, facts: seq<ReductionFact>, cs: seq<NodeId>)
    returns (r: Option<ReductionFact>)
    requires forall c :: c in cs ==> c in g.nodes
    ensures r == FirstReduction(g, red, facts, cs)
  {
    var j := 0;
    while j < |cs|
      invariant 0 <= j <= |cs|
      invariant FirstReduction(g, red, facts, cs) == FirstReduction(g, red, facts, cs[j..])
    {
      assert cs[j..][1..] == cs[j + 1..];
      var parent := cs[j];
      if parent in red {
        var line := StartPosition(g.nodes[parent]);
        var k := 0;
        while k < |facts|
          invariant 0 <= k <= |facts|
          invariant FactFor(facts, line) == FactFor(facts[k..], line)
        {
          assert facts[k..][1..] == facts[k + 1..];
          if facts[k].loopLine == line {
            return Some(facts[k]);
          }
          k := k + 1;
        }
      }
      j := j + 1;
    }
    return None;
  }

  /** `__task_contained_in_reduction_loop`. */
  method TaskContainedInReductionLoop(g: Graph, red: set<NodeId>, facts: seq<ReductionFact>, t: Suggestion)
    returns (r: Result<Option<ReductionFact>>)
    requires Wf(g) && t.node in g.nodes
    ensures r == ReductionEntryOf(g, red, facts, t)
  {
    var parents := GetParentOfType(g, t.node, Loop, false);
    if |parents| == 0 {
      return Ok(None);
    }
    assert ParentsIn(g, parents);
    var contained := ScanContained(g, t, parents);
    if contained.Err? {
      return Err(contained.error);
    }
    var fact := FirstOfContained(g, red, facts, contained.value);
    return Ok(fact);
  }

  // ------------------------------------------------------------ the pass

  /** `"reduction(" + operation + ":" + name without ".addr" + ")"`. */
  function ReductionClause(f: ReductionFact): string {
    "reduction(" + f.operation + ":" + RemoveAll(f.name, ".addr") + ")"
  }

  /** A name that never mentions `.addr` appears in the clause unchanged. */
  lemma ReductionClausePlain(f: ReductionFact)
    requires forall i: nat :: !OccursAt(f.name, ".addr", i)
    ensures ReductionClause(f) == "reduction(" + f.operation + ":" + f.name + ")"
  {
    RemoveAllAbsent(f.name, ".addr");
  }

  /** The `.addr` suffix the compiler gives a variable's stack slot is dropped:
      `sum.addr` appears in the clause as `sum`. */
  lemma ReductionClauseAddr(f: ReductionFact, x: string)
    requires f.name == x + ".addr"
    requires forall i: nat :: !OccursAt(x, ".addr", i)
    ensures ReductionClause(f) == "reduction(" + f.operation + ":" + x + ")"
  {
    assert ".addr"[1..] == "addr";
    RemoveAllSuffix(x, ".addr");
  }

  /** One iteration of `__detect_taskloop_reduction`: other suggestions pass through,
      a task in a reduction loop gets the taskloop pragma. */
  function Rewritten(g: Graph, red: set<NodeId>, facts: seq<ReductionFact>, s: Suggestion): Result<seq<Suggestion>>
    requires Wf(g) && s.node in g.nodes
  {
    if !s.TaskInfo? then Ok([s])
    else
      match ReductionEntryOf(g, red, facts, s)
      case Err(e) => Err(e)
      case Ok(None) => Ok([s])
      case Ok(Some(f)) => Ok([s.(pragma := ["taskloop", ReductionClause(f)])])
  }

  /** What the pass does to one suggestion, read off the enclosing loops: only a
      task's pragma changes, and only when a reduction loop encloses it. */
  lemma RewrittenMeaning(g: Graph, red: set<NodeId>, facts: seq<ReductionFact>, s: Suggestion, q: NodeId)
    requires Wf(g) && s.node in g.nodes && Rewritten(g, red, facts, s).Ok?
    ensures |Rewritten(g, red, facts, s).value| == 1
    ensures var y := Rewritten(g, red, facts, s).value[0];
      && (!s.TaskInfo? ==> y == s)
      && (s.TaskInfo? && EnclosingReductionLoop(g, red, facts, s, q) ==>
            exists p :: EnclosingReductionLoop(g, red, facts, s, p) &&
              g.nodes[p].kind == Loop && ProperAncestor(g, p, s.node) &&
              y == s.(pragma := ["taskloop", ReductionClause(FactFor(facts, StartPosition(g.nodes[p])).value)]))
      && (s.TaskInfo? && !EnclosingReductionLoop(g, red, facts, s, q) && y != s ==>
            exists p :: EnclosingReductionLoop(g, red, facts, s, p) &&
              g.nodes[p].kind == Loop && ProperAncestor(g, p, s.node) &&
              y == s.(pragma := ["taskloop", ReductionClause(FactFor(facts, StartPosition(g.nodes[p])).value)]))
  {
    if s.TaskInfo? {
      var e := ReductionEntryOf(g, red, facts, s);
      if e.value.Some? {
        var p := ReductionEntrySound(g, red, facts, s, e.value.value);
      } else {
        ReductionEntryNone(g, red, facts, s, q);
      }
    }
  }

  function RewriteRuns(g: Graph, red: set<NodeId>, facts: seq<ReductionFact>, xs: seq<Suggestion>): (rs: seq<Result<seq<Suggestion>>>)
    requires Wf(g) && forall x :: x in xs ==> x.node in g.nodes
    ensures |rs| == |xs|
    ensures forall i :: 0 <= i < |xs| ==> rs[i] == Rewritten(g, red, facts, xs[i])
  {
    seq(|xs|, i requires 0 <= i < |xs| => Rewritten(g, red, facts, xs[i]))
  }

  /** `__detect_taskloop_reduction(pet, suggestions)`. */
  function TaskloopReductionOf(g: Graph, red: set<NodeId>, facts: seq<ReductionFact>, xs: seq<Suggestion>): Result<seq<Suggestion>>
    requires Wf(g) && forall x :: x in xs ==> x.node in g.nodes
  {
    Gather(RewriteRuns(g, red, facts, xs))
  }

  method DetectTaskloopReduction(g: Graph, red: set<NodeId>, facts: seq<ReductionFact>, xs: seq<Suggestion>)
    returns (r: Result<seq<Suggestion>>)
    requires Wf(g) && forall x :: x in xs ==> x.node in g.nodes
    ensures r == TaskloopReductionOf(g, red, facts, xs)
  {
    ghost var rs := RewriteRuns(g, red, facts, xs);
    var output: seq<Suggestion> := [];
    var i := 0;
    assert rs[..0] == [];
    while i < |xs|
      invariant 0 <= i <= |xs|
      invariant Gather(rs[..i]) == Ok(output)
    {
      var s := xs[i];
      GatherStep(rs, i);
      if !s.TaskInfo? {
        output := output + [s];
      } else {
        var entry := TaskContainedInReductionLoop(g, red, facts, s);
        if entry.Err? {
          GatherStops(rs, i + 1);
          return Err(entry.error);
        }
        match entry.value {
          case None =>
            output := output + [s];
          case Some(f) =>
            output := output + [s.(pragma := ["taskloop", ReductionClause(f)])];
        }
      }
      i := i + 1;
    }
    assert rs[..i] == rs;
    return Ok(output);
  }

  /** The pass raises exactly when some task has a loop above it and positions
      without their colon. */
  lemma TaskloopReductionErr(g: Graph, red: set<NodeId>, facts: seq<ReductionFact>, xs: seq<Suggestion>)
    requires Wf(g) && forall x :: x in xs ==> x.node in g.nodes
    ensures TaskloopReductionOf(g, red, facts, xs).Err? <==>
      exists x :: x in xs && x.TaskInfo? && HasAncestorOfKind(g, x.node, Loop) && !TaskLinesOk(x)
  {
    var rs := RewriteRuns(g, red, facts, xs);
    GatherErr(rs);
    forall i | 0 <= i < |xs|
      ensures rs[i].Err? <==> xs[i].TaskInfo? && HasAncestorOfKind(g, xs[i].node, Loop) && !TaskLinesOk(xs[i])
    {
      if xs[i].TaskInfo? {
        ReductionEntryErr(g, red, facts, xs[i]);
      }
    }
  }

  /** Without an error every iteration appends exactly one suggestion. */
  lemma TaskloopReductionOne(g: Graph, red: set<NodeId>, facts: seq<ReductionFact>, xs: seq<Suggestion>)
    requires Wf(g) && forall x :: x in xs ==> x.node in g.nodes
    requires TaskloopReductionOf(g, red, facts, xs).Ok?
    ensures |TaskloopReductionOf(g, red, facts, xs).value| == |xs|
    ensures forall i :: 0 <= i < |xs| ==>
      Rewritten(g, red, facts, xs[i]) == Ok([TaskloopReductionOf(g, red, facts, xs).value[i]])
  {
    var rs := RewriteRuns(g, red, facts, xs);
    GatherErr(rs);
    GatherSingles(rs);
  }

  /** The output lists the suggestions in their places: each is unchanged, or a task
      whose pragma alone became the taskloop with the reduction clause of an
      enclosing reduction loop above it; a task inside such a loop is always changed. */
  lemma TaskloopReductionSound(g: Graph, red: set<NodeId>, facts: seq<ReductionFact>, xs: seq<Suggestion>, i: nat, q: NodeId)
    requires Wf(g) && forall x :: x in xs ==> x.node in g.nodes
    requires TaskloopReductionOf(g, red, facts, xs).Ok? && i < |xs|
    ensures |TaskloopReductionOf(g, red, facts, xs).value| == |xs|
    ensures var y := TaskloopReductionOf(g, red, facts, xs).value[i];
      && (!xs[i].TaskInfo? ==> y == xs[i])
      && (xs[i].TaskInfo? && (EnclosingReductionLoop(g, red, facts, xs[i], q) || y != xs[i]) ==>
            exists p :: EnclosingReductionLoop(g, red, facts, xs[i], p) &&
              g.nodes[p].kind == Loop && ProperAncestor(g, p, xs[i].node) &&
              y == xs[i].(pragma := ["taskloop", ReductionClause(FactFor(facts, StartPosition(g.nodes[p])).value)]))
  {
    TaskloopReductionOne(g, red, facts, xs);
    RewrittenMeaning(g, red, facts, xs[i], q);
  }
}
