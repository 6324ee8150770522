/** `__remove_useless_barrier_suggestions`: a taskwait suggestion is kept only
    below a function body that holds a task suggestion whose pragma line is not
    after the taskwait's line
    (graph_analyzer/pattern_detectors/task_parallelism_detector.py). */
module UselessBarriers {
  import opened Wrappers
  import opened Text
  import opened PetGraph
  import opened Suggestion
  import opened TaskSearch

  // ---------------------------------------------------------------- splitting

  /** `s.pragma[0]`: a region suggestion has no pragma, an empty pragma no first word. */
  function FirstPragma(s: Suggestion): (r: Result<string>)
    ensures r.Ok? <==> s.TaskInfo? && |s.pragma| > 0
    ensures r.Ok? ==> r.value == s.pragma[0]
  {
    if s.RegionInfo? then Err(AttributeError("pragma"))
    else if |s.pragma| == 0 then Err(IndexError("list index out of range"))
    else Ok(s.pragma[0])
  }

  predicate IsTaskwait(s: Suggestion) {
    s.TaskInfo? && |s.pragma| > 0 && s.pragma[0] == "taskwait"
  }

  /** The first loop: the taskwait suggestions and the others, each list in input order. */
  function SplitTaskwaits(xs: seq<Suggestion>): (r: Result<(seq<Suggestion>, seq<Suggestion>)>)
    ensures r.Ok? ==> forall x :: x in r.value.0 ==> x in xs && IsTaskwait(x)
    ensures r.Ok? ==> forall x :: x in r.value.1 ==> x in xs && x.TaskInfo? && !IsTaskwait(x)
  {
    if xs == [] then Ok(([], []))
    else
      var x := xs[|xs| - 1];
      match SplitTaskwaits(xs[..|xs| - 1])
      case Err(e) => Err(e)
      case Ok(parts) =>
        match FirstPragma(x)
        case Err(e) => Err(e)
        case Ok(p) => if p == "taskwait" then Ok((parts.0 + [x], parts.1)) else Ok((parts.0, parts.1 + [x]))
  }

  /** The split raises exactly on a suggestion without a first pragma word, and
      otherwise only sorts the suggestions into the two lists. */
  lemma {:induction false} SplitTaskwaitsParts(xs: seq<Suggestion>)
    ensures SplitTaskwaits(xs).Ok? <==> forall i :: 0 <= i < |xs| ==> FirstPragma(xs[i]).Ok?
    ensures SplitTaskwaits(xs).Ok? ==>
              multiset(SplitTaskwaits(xs).value.0) + multiset(SplitTaskwaits(xs).value.1) == multiset(xs)
  {
    if xs != [] {
      var init := xs[..|xs| - 1];
      SplitTaskwaitsParts(init);
      assert xs == init + [xs[|xs| - 1]];
      if SplitTaskwaits(init).Err? {
        assert !FirstPragma(xs[|xs| - 1]).Ok? || exists i :: 0 <= i < |init| && !FirstPragma(init[i]).Ok?;
      }
    }
  }

  /** Once the split raises on a prefix, it raises with that error. */
  lemma {:induction false} SplitTaskwaitsStops(xs: seq<Suggestion>, n: nat)
    requires n <= |xs| && SplitTaskwaits(xs[..n]).Err?
    ensures SplitTaskwaits(xs) == SplitTaskwaits(xs[..n])
    decreases |xs| - n
  {
    if n < |xs| {
      assert xs[..n + 1][..n] == xs[..n];
      SplitTaskwaitsStops(xs, n + 1);
    } else {
      assert xs[..n] == xs;
    }
  }

  method SplitByPragma(xs: seq<Suggestion>) returns (r: Result<(seq<Suggestion>, seq<Suggestion>)>)
    ensures r == SplitTaskwaits(xs)
  {
    var taskwaits: seq<Suggestion> := [];
    var tasks: seq<Suggestion> := [];
    var i := 0;
    while i < |xs|
      invariant 0 <= i <= |xs|
      invariant SplitTaskwaits(xs[..i]) == Ok((taskwaits, tasks))
    {
      assert xs[..i + 1][..i] == xs[..i];
      match FirstPragma(xs[i]) {
        case Err(e) =>
          SplitTaskwaitsStops(xs, i + 1);
          return Err(e);
        case Ok(p) =>
          if p == "taskwait" {
            taskwaits := taskwaits + [xs[i]];
          } else {
            tasks := tasks + [xs[i]];
          }
      }
      i := i + 1;
    }
    assert xs[..i] == xs;
    r := Ok((taskwaits, tasks));
  }

  // ---------------------------------------------------------------- function bodies

  /** The first FUNC unit above `n` that the parent search with `only_first` returns. */
  function FirstFunction(g: Graph, n: NodeId): (r: Option<NodeId>)
    requires Wf(g) && n in g.nodes
  {
    var parents := ParentsOfType(g, n, Func, true);
    if parents == [] then None else Some(parents[0].0)
  }

  /** The first function parent exists exactly when some FUNC unit lies above `n`,
      and it is one of them. */
  lemma FirstFunctionAbove(g: Graph, n: NodeId)
    requires Wf(g) && n in g.nodes
    ensures FirstFunction(g, n).Some? <==> HasAncestorOfKind(g, n, Func)
    ensures FirstFunction(g, n).Some? ==>
              var f := FirstFunction(g, n).value;
              f in g.nodes && g.nodes[f].kind == Func && ProperAncestor(g, f, n)
  {
    ParentsOfTypeResult(g, n, Func, true);
    var parents := ParentsOfType(g, n, Func, true);
    if parents != [] {
      assert parents[0] in parents;
    }
  }

  /** The dictionary `relevant_function_bodies`: its keys in insertion order and
      the pragma lines of the tasks listed under each. */
  datatype Bodies = Bodies(keys: seq<NodeId>, lines: map<NodeId, seq<string>>)

  predicate BodiesOk(b: Bodies) {
    (forall k :: k in b.keys ==> k in b.lines) && (forall k :: k in b.lines ==> k in b.keys)
  }

  /** Listing the pragma line `line` under the function body `f`. */
  function AddBody(b: Bodies, f: NodeId, line: string): (r: Bodies)
    requires BodiesOk(b)
    ensures BodiesOk(r)
  {
    if f !in b.lines then Bodies(b.keys + [f], b.lines[f := [line]])
    else Bodies(b.keys, b.lines[f := b.lines[f] + [line]])
  }

  /** The first function parent of each task. */
  function Firsts(g: Graph, ts: seq<Suggestion>): (fs: seq<Option<NodeId>>)
    requires Wf(g) && forall t :: t in ts ==> t.node in g.nodes
    ensures |fs| == |ts| && forall i :: 0 <= i < |ts| ==> fs[i] == FirstFunction(g, ts[i].node)
  {
    seq(|ts|, i requires 0 <= i < |ts| => FirstFunction(g, ts[i].node))
  }

  /** The second loop, given the first function parent `fs[i]` of each task
      `ts[i]`: each task's pragma line listed under its parent; a task without
      one raises. */
  function FunctionBodies(ts: seq<Suggestion>, fs: seq<Option<NodeId>>): (r: Result<Bodies>)
    requires |fs| == |ts| && forall t :: t in ts ==> t.TaskInfo?
    ensures r.Ok? ==> BodiesOk(r.value)
  {
    if ts == [] then Ok(Bodies([], map[]))
    else
      var n := |ts| - 1;
      match FunctionBodies(ts[..n], fs[..n])
      case Err(e) => Err(e)
      case Ok(b) =>
        match fs[n]
        case None => Err(IndexError("list index out of range"))
        case Some(f) => Ok(AddBody(b, f, ts[n].pragmaLine))
  }

  /** What the dictionary holds: a key is the function parent of some task, and
      its lines are the pragma lines of exactly the tasks below it. */
  ghost predicate BodiesOf(ts: seq<Suggestion>, fs: seq<Option<NodeId>>, b: Bodies)
    requires |fs| == |ts| && forall t :: t in ts ==> t.TaskInfo?
  {
    && BodiesOk(b)
    && (forall k :: k in b.lines ==> exists i :: 0 <= i < |ts| && fs[i] == Some(k))
    && (forall k, l :: k in b.lines && l in b.lines[k] ==>
          exists i :: 0 <= i < |ts| && fs[i] == Some(k) && ts[i].pragmaLine == l)
    && (forall i :: 0 <= i < |ts| ==>
          && fs[i].Some?
          && fs[i].value in b.lines
          && ts[i].pragmaLine in b.lines[fs[i].value])
  }

  /** The second loop raises exactly when some task has no function above it, and
      otherwise builds the dictionary described by `BodiesOf`. */
  lemma {:induction false} FunctionBodiesResult(ts: seq<Suggestion>, fs: seq<Option<NodeId>>)
    requires |fs| == |ts| && forall t :: t in ts ==> t.TaskInfo?
    ensures FunctionBodies(ts, fs).Ok? <==> forall i :: 0 <= i < |fs| ==> fs[i].Some?
    ensures FunctionBodies(ts, fs).Ok? ==> BodiesOf(ts, fs, FunctionBodies(ts, fs).value)
  {
    if ts != [] {
      var n := |ts| - 1;
      assert forall t :: t in ts[..n] ==> t in ts;
      FunctionBodiesResult(ts[..n], fs[..n]);
      if FunctionBodies(ts, fs).Ok? {
        BodiesStep(ts, fs, FunctionBodies(ts[..n], fs[..n]).value);
      }
    }
  }

  lemma BodiesStep(ts: seq<Suggestion>, fs: seq<Option<NodeId>>, b: Bodies)
    requires |fs| == |ts| > 0 && forall t :: t in ts ==> t.TaskInfo?
    requires var n := |ts| - 1; (forall t :: t in ts[..n] ==> t.TaskInfo?) && BodiesOf(ts[..n], fs[..n], b) && fs[n].Some?
    ensures BodiesOf(ts, fs, AddBody(b, fs[|ts| - 1].value, ts[|ts| - 1].pragmaLine))
  {
    BodiesStepKeys(ts, fs, b);
    BodiesStepLines(ts, fs, b);
    BodiesStepListed(ts, fs, b);
  }

  lemma BodiesStepKeys(ts: seq<Suggestion>, fs: seq<Option<NodeId>>, b: Bodies)
    requires |fs| == |ts| > 0 && forall t :: t in ts ==> t.TaskInfo?
    requires var n := |ts| - 1; (forall t :: t in ts[..n] ==> t.TaskInfo?) && BodiesOf(ts[..n], fs[..n], b) && fs[n].Some?
    ensures var b' := AddBody(b, fs[|ts| - 1].value, ts[|ts| - 1].pragmaLine);
            forall k :: k in b'.lines ==> exists i :: 0 <= i < |ts| && fs[i] == Some(k)
  {
    var n := |ts| - 1;
    var f := fs[n].value;
    var b' := AddBody(b, f, ts[n].pragmaLine);
    forall k | k in b'.lines ensures exists i :: 0 <= i < |ts| && fs[i] == Some(k) {
      if k != f {
        var i :| 0 <= i < n && fs[..n][i] == Some(k);
        assert fs[i] == Some(k);
      }
    }
  }

  lemma BodiesStepLines(ts: seq<Suggestion>, fs: seq<Option<NodeId>>, b: Bodies)
    requires |fs| == |ts| > 0 && forall t :: t in ts ==> t.TaskInfo?
    requires var n := |ts| - 1; (forall t :: t in ts[..n] ==> t.TaskInfo?) && BodiesOf(ts[..n], fs[..n], b) && fs[n].Some?
    ensures var b' := AddBody(b, fs[|ts| - 1].value, ts[|ts| - 1].pragmaLine);
            forall k, l :: k in b'.lines && l in b'.lines[k] ==>
              exists i :: 0 <= i < |ts| && fs[i] == Some(k) && ts[i].pragmaLine == l
  {
    var n := |ts| - 1;
    var f := fs[n].value;
    var b' := AddBody(b, f, ts[n].pragmaLine);
    forall k, l | k in b'.lines && l in b'.lines[k]
      ensures exists i :: 0 <= i < |ts| && fs[i] == Some(k) && ts[i].pragmaLine == l
    {
      if !(k == f && l == ts[n].pragmaLine) {
        BodiesStepLine(ts, fs, b, k, l);
      }
    }
  }

  lemma BodiesStepLine(ts: seq<Suggestion>, fs: seq<Option<NodeId>>, b: Bodies, k: NodeId, l: string)
    requires |fs| == |ts| > 0 && forall t :: t in ts ==> t.TaskInfo?
    requires var n := |ts| - 1; (forall t :: t in ts[..n] ==> t.TaskInfo?) && BodiesOf(ts[..n], fs[..n], b)
    requires k in b.lines && l in b.lines[k]
    ensures exists i :: 0 <= i < |ts| && fs[i] == Some(k) && ts[i].pragmaLine == l
  {
    var n := |ts| - 1;
    var i :| 0 <= i < n && fs[..n][i] == Some(k) && ts[..n][i].pragmaLine == l;
    assert fs[i] == Some(k) && ts[i].pragmaLine == l;
  }

  lemma BodiesStepListed(ts: seq<Suggestion>, fs: seq<Option<NodeId>>, b: Bodies)
    requires |fs| == |ts| > 0 && forall t :: t in ts ==> t.TaskInfo?
    requires var n := |ts| - 1; (forall t :: t in ts[..n] ==> t.TaskInfo?) && BodiesOf(ts[..n], fs[..n], b) && fs[n].Some?
    ensures var b' := AddBody(b, fs[|ts| - 1].value, ts[|ts| - 1].pragmaLine);
            forall i :: 0 <= i < |ts| ==> fs[i].Some? && fs[i].value in b'.lines && ts[i].pragmaLine in b'.lines[fs[i].value]
  {
    var n := |ts| - 1;
    var b' := AddBody(b, fs[n].value, ts[n].pragmaLine);
    forall i | 0 <= i < |ts|
      ensures fs[i].Some? && fs[i].value in b'.lines && ts[i].pragmaLine in b'.lines[fs[i].value]
    {
      if i < n {
        assert fs[..n][i] == fs[i] && ts[..n][i] == ts[i];
      }
    }
  }

  /** One more task with a function parent. */
  lemma FunctionBodiesSnoc(ts: seq<Suggestion>, fs: seq<Option<NodeId>>, i: nat, b: Bodies, f: NodeId)
    requires |fs| == |ts| && forall t :: t in ts ==> t.TaskInfo?
    requires i < |ts| && (forall t :: t in ts[..i] ==> t.TaskInfo?) && FunctionBodies(ts[..i], fs[..i]) == Ok(b)
    requires fs[i] == Some(f)
    ensures (forall t :: t in ts[..i + 1] ==> t.TaskInfo?)
    ensures FunctionBodies(ts[..i + 1], fs[..i + 1]) == Ok(AddBody(b, f, ts[i].pragmaLine))
  {
    assert ts[..i + 1][..i] == ts[..i] && fs[..i + 1][..i] == fs[..i];
    assert forall t :: t in ts[..i + 1] ==> t in ts;
  }

  lemma {:induction false} FunctionBodiesStops(ts: seq<Suggestion>, fs: seq<Option<NodeId>>, n: nat)
    requires |fs| == |ts| && forall t :: t in ts ==> t.TaskInfo?
    requires n <= |ts| && (forall t :: t in ts[..n] ==> t.TaskInfo?) && FunctionBodies(ts[..n], fs[..n]).Err?
    ensures FunctionBodies(ts, fs) == FunctionBodies(ts[..n], fs[..n])
    decreases |ts| - n
  {
    if n < |ts| {
      assert ts[..n + 1][..n] == ts[..n] && fs[..n + 1][..n] == fs[..n];
      assert forall t :: t in ts[..n + 1] ==> t in ts;
      FunctionBodiesStops(ts, fs, n + 1);
    } else {
      assert ts[..n] == ts && fs[..n] == fs;
    }
  }

  /** `get_parent_of_type(pet, node, FUNC, True)[0][0]`, None where the index raises. */
  method FirstFunctionOf(g: Graph, n: NodeId) returns (r: Option<NodeId>)
    requires Wf(g) && n in g.nodes
    ensures r == FirstFunction(g, n)
  {
    var parent := GetParentOfType(g, n, Func, true);
    r := if |parent| == 0 then None else Some(parent[0].0);
  }

  /** A task without a function parent ends the second loop with the error. */
  lemma FunctionBodiesNone(ts: seq<Suggestion>, fs: seq<Option<NodeId>>, i: nat, b: Bodies)
    requires |fs| == |ts| && forall t :: t in ts ==> t.TaskInfo?
    requires i < |ts| && FunctionBodies(ts[..i], fs[..i]) == Ok(b) && fs[i] == None
    ensures FunctionBodies(ts, fs) == Err(IndexError("list index out of range"))
  {
    assert ts[..i + 1][..i] == ts[..i] && fs[..i + 1][..i] == fs[..i];
    assert forall t :: t in ts[..i + 1] ==> t in ts;
    FunctionBodiesStops(ts, fs, i + 1);
  }

  /** One round of the second loop: the task `ts[i]` listed under its function body. */
  method AddTask(g: Graph, ts: seq<Suggestion>, ghost fs: seq<Option<NodeId>>, i: nat,
                 keys: seq<NodeId>, lines: map<NodeId, seq<string>>) returns (r: Result<Bodies>)
    requires Wf(g) && forall t :: t in ts ==> t.TaskInfo? && t.node in g.nodes
    requires fs == Firsts(g, ts) && i < |ts|
    requires (forall t :: t in ts[..i] ==> t.TaskInfo?) && FunctionBodies(ts[..i], fs[..i]) == Ok(Bodies(keys, lines))
    ensures r.Err? ==> FunctionBodies(ts, fs) == r
    ensures r.Ok? ==> (forall t :: t in ts[..i + 1] ==> t.TaskInfo?) && FunctionBodies(ts[..i + 1], fs[..i + 1]) == r
  {
    assert ts[i] in ts;
    var first := FirstFunctionOf(g, ts[i].node);
    assert first == fs[i];
    if first.None? {
      FunctionBodiesNone(ts, fs, i, Bodies(keys, lines));
      return Err(IndexError("list index out of range"));
    }
    var f := first.value;
    FunctionBodiesSnoc(ts, fs, i, Bodies(keys, lines), f);
    if f !in lines {
      r := Ok(Bodies(keys + [f], lines[f := [ts[i].pragmaLine]]));
    } else {
      r := Ok(Bodies(keys, lines[f := lines[f] + [ts[i].pragmaLine]]));
    }
  }

  method CollectBodies(g: Graph, ts: seq<Suggestion>) returns (r: Result<Bodies>)
    requires Wf(g) && forall t :: t in ts ==> t.TaskInfo? && t.node in g.nodes
    ensures r == FunctionBodies(ts, Firsts(g, ts))
  {
    ghost var fs := Firsts(g, ts);
    var keys: seq<NodeId> := [];
    var lines: map<NodeId, seq<string>> := map[];
    assert ts[..0] == [] && fs[..0] == [];
    var i := 0;
    while i < |ts|
      invariant 0 <= i <= |ts|
      invariant forall t :: t in ts[..i] ==> t.TaskInfo?
      invariant FunctionBodies(ts[..i], fs[..i]) == Ok(Bodies(keys, lines))
    {
      var step := AddTask(g, ts, fs, i, keys, lines);
      if step.Err? {
        return Err(step.error);
      }
      keys, lines := step.value.keys, step.value.lines;
      i := i + 1;
    }
    assert ts[..i] == ts && fs[..i] == fs;
    r := Ok(Bodies(keys, lines));
  }

  // ---------------------------------------------------------------- keeping taskwaits

  /** Some pragma line in `lines` is not after `bound`, in string order. */
  predicate SomeLineNoLater(lines: seq<string>, bound: string) {
    exists i :: 0 <= i < |lines| && StrLeq(lines[i], bound)
  }

  /** One copy of `tw` for each function body among `keys`, in order, that lies
      above `tw`'s unit and lists a task pragma line not after `bound`. */
  ghost function Copies(g: Graph, keys: seq<NodeId>, lines: map<NodeId, seq<string>>, tw: Suggestion, bound: string)
    : (r: seq<Suggestion>)
    requires forall k :: k in keys ==> k in lines
  {
    if keys == [] then []
    else
      var k := keys[|keys| - 1];
      Copies(g, keys[..|keys| - 1], lines, tw, bound)
        + (if ProperAncestor(g, k, tw.node) && SomeLineNoLater(lines[k], bound) then [tw] else [])
  }

  /** The loop body for one taskwait: its line number is the text after the ':'
      of its pragma line. */
  ghost function KeptFor(g: Graph, b: Bodies, tw: Suggestion): Result<seq<Suggestion>>
    requires BodiesOk(b) && tw.TaskInfo?
  {
    match LineText(tw.pragmaLine)
    case None => Err(ValueError("substring not found"))
    case Some(bound) => Ok(Copies(g, b.keys, b.lines, tw, bound))
  }

  ghost function KeptRuns(g: Graph, b: Bodies, tws: seq<Suggestion>): (rs: seq<Result<seq<Suggestion>>>)
    requires BodiesOk(b) && forall tw :: tw in tws ==> tw.TaskInfo?
    ensures |rs| == |tws| && forall i :: 0 <= i < |tws| ==> rs[i] == KeptFor(g, b, tws[i])
  {
    seq(|tws|, i requires 0 <= i < |tws| => KeptFor(g, b, tws[i]))
  }

  /** `__remove_useless_barrier_suggestions(pet, suggestions)`: the non-taskwait
      suggestions, followed by the kept taskwaits. */
  ghost function RemoveUselessOf(g: Graph, xs: seq<Suggestion>): Result<seq<Suggestion>>
    requires Wf(g) && forall x :: x in xs ==> x.node in g.nodes
  {
    match SplitTaskwaits(xs)
    case Err(e) => Err(e)
    case Ok(parts) =>
      var (tws, ts) := parts;
      match FunctionBodies(ts, Firsts(g, ts))
      case Err(e) => Err(e)
      case Ok(b) =>
        match Gather(KeptRuns(g, b, tws))
        case Err(e) => Err(e)
        case Ok(kept) => Ok(ts + kept)
  }

  /** The innermost loop: is some listed line not after `bound`? */
  method AnyLineNoLater(lines: seq<string>, bound: string) returns (found: bool)
    ensures found <==> SomeLineNoLater(lines, bound)
  {
    var j := 0;
    while j < |lines|
      invariant 0 <= j <= |lines|
      invariant forall i :: 0 <= i < j ==> !StrLeq(lines[i], bound)
    {
      if StrLeq(lines[j], bound) {
        return true;
      }
      j := j + 1;
    }
    return false;
  }

  /** The loop over the function bodies for one taskwait. */
  method KeepOne(g: Graph, b: Bodies, tw: Suggestion) returns (r: Result<seq<Suggestion>>)
    requires Wf(g) && BodiesOk(b) && tw.TaskInfo? && tw.node in g.nodes
    ensures r == KeptFor(g, b, tw)
  {
    var bound: string;
    match LineText(tw.pragmaLine) {
      case None => return Err(ValueError("substring not found"));
      case Some(t) => bound := t;
    }
    var copies: seq<Suggestion> := [];
    var j := 0;
    while j < |b.keys|
      invariant 0 <= j <= |b.keys|
      invariant copies == Copies(g, b.keys[..j], b.lines, tw, bound)
    {
      assert b.keys[..j + 1][..j] == b.keys[..j];
      var k := b.keys[j];
      var reach := CheckReachability(g, tw.node, k);
      if reach {
        var found := AnyLineNoLater(b.lines[k], bound);
        if found {
          copies := copies + [tw];
        }
      }
      j := j + 1;
    }
    assert b.keys[..j] == b.keys;
    r := Ok(copies);
  }

  /** The third loop, over the taskwait suggestions. */
  method KeepTaskwaits(g: Graph, b: Bodies, tws: seq<Suggestion>) returns (r: Result<seq<Suggestion>>)
    requires Wf(g) && BodiesOk(b) && forall tw :: tw in tws ==> tw.TaskInfo? && tw.node in g.nodes
    ensures r == Gather(KeptRuns(g, b, tws))
  {
    ghost var rs := KeptRuns(g, b, tws);
    var kept: seq<Suggestion> := [];
    assert rs[..0] == [];
    var i := 0;
    while i < |tws|
      invariant 0 <= i <= |tws|
      invariant Gather(rs[..i]) == Ok(kept)
    {
      assert tws[i] in tws;
      var t := KeepOne(g, b, tws[i]);
      match t {
        case Err(e) =>
          GatherStep(rs, i);
          GatherStops(rs, i + 1);
          return Err(e);
        case Ok(ys) =>
          GatherSnoc(rs, i, kept, ys);
          kept := kept + ys;
      }
      i := i + 1;
    }
    assert rs[..i] == rs;
    r := Ok(kept);
  }

  /** `__remove_useless_barrier_suggestions(pet, suggestions)`. */
  method RemoveUselessBarrierSuggestions(g: Graph, xs: seq<Suggestion>) returns (r: Result<seq<Suggestion>>)
    requires Wf(g) && forall x :: x in xs ==> x.node in g.nodes
    ensures r == RemoveUselessOf(g, xs)
  {
    var parts := SplitByPragma(xs);
    match parts {
      case Err(e) => return Err(e);
      case Ok(p) =>
        var (tws, ts) := p;
        var bodies := CollectBodies(g, ts);
        match bodies {
          case Err(e) => return Err(e);
          case Ok(b) =>
            var kept := KeepTaskwaits(g, b, tws);
            match kept {
              case Err(e) => return Err(e);
              case Ok(k) => return Ok(ts + k);
            }
        }
    }
  }

  // ---------------------------------------------------------------- properties

  lemma {:induction false} CopiesHas(g: Graph, keys: seq<NodeId>, lines: map<NodeId, seq<string>>,
                                     tw: Suggestion, bound: string, x: Suggestion)
    requires forall k :: k in keys ==> k in lines
    ensures x in Copies(g, keys, lines, tw, bound) <==>
              x == tw && exists k :: k in keys && ProperAncestor(g, k, tw.node) && SomeLineNoLater(lines[k], bound)
  {
    if keys != [] {
      var init := keys[..|keys| - 1];
      assert keys == init + [keys[|keys| - 1]];
      CopiesHas(g, init, lines, tw, bound, x);
    }
  }

  /** The task `t` justifies keeping the taskwait `tw`: the first function body
      above `t` lies above `tw` too, and `t`'s pragma line is not after `tw`'s line. */
  ghost predicate Justifies(t: Suggestion, first: Option<NodeId>, g: Graph, tw: Suggestion) {
    && t.TaskInfo? && tw.TaskInfo?
    && first.Some?
    && ProperAncestor(g, first.value, tw.node)
    && LineText(tw.pragmaLine).Some?
    && StrLeq(t.pragmaLine, LineText(tw.pragmaLine).value)
  }

  /** Membership in the two lists of the split. */
  lemma SplitMember(xs: seq<Suggestion>, x: Suggestion)
    requires SplitTaskwaits(xs).Ok? && x in xs
    ensures x.TaskInfo?
    ensures IsTaskwait(x) ==> x in SplitTaskwaits(xs).value.0
    ensures !IsTaskwait(x) ==> x in SplitTaskwaits(xs).value.1
  {
    SplitTaskwaitsParts(xs);
    var parts := SplitTaskwaits(xs).value;
    assert multiset(xs)[x] > 0;
    assert x in multiset(parts.0) || x in multiset(parts.1);
  }

  /** A kept taskwait comes from a body listed with a justifying task. */
  lemma KeptJustified(ts: seq<Suggestion>, fs: seq<Option<NodeId>>, b: Bodies, g: Graph, tw: Suggestion, x: Suggestion)
    requires |fs| == |ts| && (forall t :: t in ts ==> t.TaskInfo?) && BodiesOf(ts, fs, b) && tw.TaskInfo?
    requires KeptFor(g, b, tw).Ok? && x in KeptFor(g, b, tw).value
    ensures x == tw && exists i :: 0 <= i < |ts| && Justifies(ts[i], fs[i], g, tw)
  {
    var bound := LineText(tw.pragmaLine).value;
    CopiesHas(g, b.keys, b.lines, tw, bound, x);
    var k :| k in b.keys && ProperAncestor(g, k, tw.node) && SomeLineNoLater(b.lines[k], bound);
    var j :| 0 <= j < |b.lines[k]| && StrLeq(b.lines[k][j], bound);
    assert b.lines[k][j] in b.lines[k];
    var i :| 0 <= i < |ts| && fs[i] == Some(k) && ts[i].pragmaLine == b.lines[k][j];
    assert Justifies(ts[i], fs[i], g, tw);
  }

  /** A justified taskwait is kept. */
  lemma JustifiedKept(ts: seq<Suggestion>, fs: seq<Option<NodeId>>, b: Bodies, g: Graph, tw: Suggestion, i: nat)
    requires |fs| == |ts| && (forall t :: t in ts ==> t.TaskInfo?) && BodiesOf(ts, fs, b)
    requires i < |ts| && Justifies(ts[i], fs[i], g, tw)
    ensures KeptFor(g, b, tw).Ok? && tw in KeptFor(g, b, tw).value
  {
    var bound := LineText(tw.pragmaLine).value;
    var k := fs[i].value;
    var l := ts[i].pragmaLine;
    var j :| 0 <= j < |b.lines[k]| && b.lines[k][j] == l;
    assert SomeLineNoLater(b.lines[k], bound);
    CopiesHas(g, b.keys, b.lines, tw, bound, tw);
  }

  /** The first loop raises exactly when some suggestion has no first pragma word. */
  lemma SplitErr(xs: seq<Suggestion>)
    ensures SplitTaskwaits(xs).Ok? <==> forall x :: x in xs ==> FirstPragma(x).Ok?
  {
    SplitTaskwaitsParts(xs);
    if !SplitTaskwaits(xs).Ok? {
      var i :| 0 <= i < |xs| && !FirstPragma(xs[i]).Ok?;
      assert xs[i] in xs;
    }
  }

  /** The second loop raises exactly when some task suggestion has no function above it. */
  lemma BodiesErr(g: Graph, xs: seq<Suggestion>)
    requires Wf(g) && forall x :: x in xs ==> x.node in g.nodes
    requires SplitTaskwaits(xs).Ok?
    ensures var ts := SplitTaskwaits(xs).value.1;
            FunctionBodies(ts, Firsts(g, ts)).Ok? <==>
              forall x :: x in xs && !IsTaskwait(x) ==> FirstFunction(g, x.node).Some?
  {
    var ts := SplitTaskwaits(xs).value.1;
    var fs := Firsts(g, ts);
    FunctionBodiesResult(ts, fs);
    forall x | x in xs && !IsTaskwait(x) { SplitMember(xs, x); }
    assert forall i :: 0 <= i < |ts| ==> ts[i] in ts;
  }

  /** The third loop raises exactly when some taskwait's pragma line has no ':'. */
  lemma KeptErr(g: Graph, xs: seq<Suggestion>, b: Bodies)
    requires SplitTaskwaits(xs).Ok? && BodiesOk(b)
    ensures var tws := SplitTaskwaits(xs).value.0;
            Gather(KeptRuns(g, b, tws)).Ok? <==>
              forall x :: x in xs && IsTaskwait(x) ==> LineText(x.pragmaLine).Some?
  {
    var tws := SplitTaskwaits(xs).value.0;
    var rs := KeptRuns(g, b, tws);
    GatherErr(rs);
    forall x | x in xs && IsTaskwait(x) { SplitMember(xs, x); }
    assert forall i :: 0 <= i < |tws| ==> tws[i] in tws;
  }

  /** The pass raises exactly when a suggestion has no first pragma word, a task
      suggestion has no function above it, or a taskwait's pragma line has no ':'. */
  lemma RemoveUselessErr(g: Graph, xs: seq<Suggestion>)
    requires Wf(g) && forall x :: x in xs ==> x.node in g.nodes
    ensures RemoveUselessOf(g, xs).Ok? <==>
              && (forall x :: x in xs ==> FirstPragma(x).Ok?)
              && (forall x :: x in xs && !IsTaskwait(x) ==> FirstFunction(g, x.node).Some?)
              && (forall x :: x in xs && IsTaskwait(x) ==> LineText(x.pragmaLine).Some?)
  {
    SplitErr(xs);
    if SplitTaskwaits(xs).Ok? {
      var (tws, ts) := SplitTaskwaits(xs).value;
      BodiesErr(g, xs);
      if FunctionBodies(ts, Firsts(g, ts)).Ok? {
        KeptErr(g, xs, FunctionBodies(ts, Firsts(g, ts)).value);
      }
    }
  }

  /** The non-taskwait suggestions all stay, in their order, at the front. */
  lemma RemoveUselessKeepsTasks(g: Graph, xs: seq<Suggestion>)
    requires Wf(g) && forall x :: x in xs ==> x.node in g.nodes
    requires RemoveUselessOf(g, xs).Ok?
    ensures SplitTaskwaits(xs).Ok?
    ensures var ts := SplitTaskwaits(xs).value.1;
            |ts| <= |RemoveUselessOf(g, xs).value| && RemoveUselessOf(g, xs).value[..|ts|] == ts
    ensures forall x :: x in xs && !IsTaskwait(x) ==> x in RemoveUselessOf(g, xs).value
  {
    forall x | x in xs && !IsTaskwait(x) ensures x in RemoveUselessOf(g, xs).value {
      SplitMember(xs, x);
    }
  }

  /** Every suggestion of the result was given; a taskwait in it is justified by
      some task suggestion that was given. */
  lemma RemoveUselessSound(g: Graph, xs: seq<Suggestion>, x: Suggestion)
    requires Wf(g) && forall x :: x in xs ==> x.node in g.nodes
    requires RemoveUselessOf(g, xs).Ok? && x in RemoveUselessOf(g, xs).value
    ensures x in xs
    ensures IsTaskwait(x) ==> exists t :: t in xs && !IsTaskwait(t) && Justifies(t, FirstFunction(g, t.node), g, x)
  {
    var (tws, ts) := SplitTaskwaits(xs).value;
    var fs := Firsts(g, ts);
    FunctionBodiesResult(ts, fs);
    var b := FunctionBodies(ts, fs).value;
    var rs := KeptRuns(g, b, tws);
    if x !in ts {
      GatherFrom(rs, x);
      var i :| 0 <= i < |rs| && rs[i].Ok? && x in rs[i].value;
      assert tws[i] in tws;
      KeptJustified(ts, fs, b, g, tws[i], x);
      var j :| 0 <= j < |ts| && Justifies(ts[j], fs[j], g, tws[i]);
      assert ts[j] in ts;
    }
  }

  /** The stages of the pass when it succeeds. */
  lemma RemoveUselessStages(g: Graph, xs: seq<Suggestion>)
    requires Wf(g) && forall x :: x in xs ==> x.node in g.nodes
    requires RemoveUselessOf(g, xs).Ok?
    ensures SplitTaskwaits(xs).Ok?
    ensures var (tws, ts) := SplitTaskwaits(xs).value;
            && FunctionBodies(ts, Firsts(g, ts)).Ok?
            && var b := FunctionBodies(ts, Firsts(g, ts)).value;
               && BodiesOf(ts, Firsts(g, ts), b)
               && Gather(KeptRuns(g, b, tws)).Ok?
               && RemoveUselessOf(g, xs).value == ts + Gather(KeptRuns(g, b, tws)).value
  {
    var (tws, ts) := SplitTaskwaits(xs).value;
    FunctionBodiesResult(ts, Firsts(g, ts));
  }

  /** A taskwait that some given task suggestion justifies is kept. */
  lemma RemoveUselessComplete(g: Graph, xs: seq<Suggestion>, x: Suggestion, t: Suggestion)
    requires Wf(g) && forall x :: x in xs ==> x.node in g.nodes
    requires RemoveUselessOf(g, xs).Ok?
    requires x in xs && IsTaskwait(x) && t in xs && !IsTaskwait(t) && Justifies(t, FirstFunction(g, t.node), g, x)
    ensures x in RemoveUselessOf(g, xs).value
  {
    RemoveUselessStages(g, xs);
    var (tws, ts) := SplitTaskwaits(xs).value;
    var fs := Firsts(g, ts);
    var b := FunctionBodies(ts, fs).value;
    SplitMember(xs, x);
    SplitMember(xs, t);
    var j :| 0 <= j < |ts| && ts[j] == t;
    var i :| 0 <= i < |tws| && tws[i] == x;
    KeptInGather(ts, fs, b, g, tws, i, j);
  }

  lemma KeptInGather(ts: seq<Suggestion>, fs: seq<Option<NodeId>>, b: Bodies, g: Graph,
                     tws: seq<Suggestion>, i: nat, j: nat)
    requires |fs| == |ts| && (forall t :: t in ts ==> t.TaskInfo?) && BodiesOf(ts, fs, b)
    requires BodiesOk(b) && forall tw :: tw in tws ==> tw.TaskInfo?
    requires Gather(KeptRuns(g, b, tws)).Ok?
    requires i < |tws| && j < |ts| && Justifies(ts[j], fs[j], g, tws[i])
    ensures tws[i] in Gather(KeptRuns(g, b, tws)).value
  {
    JustifiedKept(ts, fs, b, g, tws[i], j);
    GatherAll(KeptRuns(g, b, tws), i);
  }
}
