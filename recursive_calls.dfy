/** The recursive-call strings of the task-parallelism detector: a call
    `name file:line` (possibly with commas and surrounding spaces) is parsed and
    looked up among the worker units, whose source range must hold the line
    (`__recursive_function_call_contained_in_worker_cu`,
    graph_analyzer/pattern_detectors/task_parallelism_detector.py). */
module RecursiveCalls {
  import opened Wrappers
  import opened Text
  import opened PetGraph

  // ---------------------------------------------------------------- strings

  /** The string with its leading spaces removed. */
  function TrimStart(s: string): (r: string)
    ensures |r| <= |s| && r == s[|s| - |r|..]
    ensures r == [] || r[0] != ' '
    ensures forall i :: 0 <= i < |s| - |r| ==> s[i] == ' '
  {
    if |s| > 0 && s[0] == ' ' then TrimStart(s[1..]) else s
  }

  /** The string with its trailing spaces removed. */
  function TrimEnd(s: string): (r: string)
    ensures |r| <= |s| && r == s[..|r|]
    ensures r == [] || r[|r| - 1] != ' '
    ensures forall i :: |r| <= i < |s| ==> s[i] == ' '
  {
    if |s| > 0 && s[|s| - 1] == ' ' then TrimEnd(s[..|s| - 1]) else s
  }

  /** Removing a one-character pattern works piecewise. */
  lemma {:induction false} RemoveAllAppend(a: string, b: string, c: char)
    ensures RemoveAll(a + b, [c]) == RemoveAll(a, [c]) + RemoveAll(b, [c])
    decreases |a|
  {
    if a == [] {
      assert a + b == b;
    } else {
      assert (a + b)[1..] == a[1..] + b;
      assert (a + b)[..1] == a[..1];
      assert (a + b)[0] == a[0];
      RemoveAllAppend(a[1..], b, c);
    }
  }

  /** Removing a character that does not occur changes nothing. */
  lemma {:induction false} RemoveAllAbsent(s: string, c: char)
    requires c !in s
    ensures RemoveAll(s, [c]) == s
    decreases |s|
  {
    if s != [] {
      assert s[..1] == [s[0]];
      RemoveAllAbsent(s[1..], c);
    }
  }

  // ---------------------------------------------------------------- parsing

  /** The three parts of a call string: function name, file id and line text. */
  datatype Call = Call(name: string, fileId: string, line: string)

  /** The call string with its commas and surrounding spaces removed. */
  function Cleaned(call: string): string {
    TrimEnd(TrimStart(RemoveAll(call, ",")))
  }

  /** The splitting of a cleaned call string: the name before the first space, the
      file id between that space and the first ':' (empty when the ':' comes first,
      as a Python slice), and the line after the ':'. A missing space or ':' raises
      ValueError. */
  function SplitCall(s: string): (r: Result<Call>)
    ensures r.Err? <==> ' ' !in s || ':' !in s
    ensures r.Ok? ==> |r.value.name| < |s| && s[..|r.value.name|] == r.value.name && s[|r.value.name|] == ' '
  {
    match IndexOf(s, ' ')
    case None => Err(ValueError("substring not found"))
    case Some(sp) =>
      match IndexOf(s, ':')
      case None => Err(ValueError("substring not found"))
      case Some(c) => Ok(Call(s[..sp], if sp + 1 <= c then s[sp + 1..c] else "", s[c + 1..]))
  }

  function ParseCall(call: string): Result<Call> {
    SplitCall(Cleaned(call))
  }

  /** Cleaning a call string with a leading space and a trailing comma. */
  lemma CleanedRendered(core: string)
    requires |core| > 0 && core[0] != ' ' && core[|core| - 1] != ' ' && ',' !in core
    ensures Cleaned(" " + core + ",") == core
  {
    RemoveAllAppend(" " + core, ",", ',');
    RemoveAllAbsent(" " + core, ',');
    assert RemoveAll(",", [',']) == [] by { assert ","[..1] == [','] && ","[1..] == []; }
    assert RemoveAll(" " + core + ",", ",") == " " + core;
    assert TrimStart(" " + core) == core by { assert (" " + core)[1..] == core; }
  }

  /** Where the separators of `name file:line` are. */
  lemma SeparatorsOfRendered(name: string, f: string, l: string)
    requires ' ' !in name && ':' !in name && ':' !in f
    ensures IndexOf(name + [' '] + f + [':'] + l, ' ') == Some(|name|)
    ensures IndexOf(name + [' '] + f + [':'] + l, ':') == Some(|name| + 1 + |f|)
  {
    var rest := f + [':'] + l;
    assert name + [' '] + f + [':'] + l == name + [' '] + rest;
    IndexOfJoined(name, ' ', rest);
    var head := name + [' '] + f;
    assert ':' !in head;
    IndexOfJoined(head, ':', l);
  }

  lemma SplitCallAt(s: string, sp: nat, c: nat)
    requires IndexOf(s, ' ') == Some(sp) && IndexOf(s, ':') == Some(c) && sp < c
    ensures SplitCall(s) == Ok(Call(s[..sp], s[sp + 1..c], s[c + 1..]))
  {
    assert IndexOf(s, ' ').Some? && IndexOf(s, ' ').value == sp;
  }

  /** Splitting `name file:line` gives back the three parts. */
  lemma SplitRendered(name: string, f: string, l: string)
    requires ' ' !in name && ':' !in name && ':' !in f
    ensures SplitCall(name + [' '] + f + [':'] + l) == Ok(Call(name, f, l))
  {
    SeparatorsOfRendered(name, f, l);
    PartsOfRendered(name, f, l);
    SplitCallAt(name + [' '] + f + [':'] + l, |name|, |name| + 1 + |f|);
  }

  lemma PartsOfRendered(name: string, f: string, l: string)
    ensures var core := name + [' '] + f + [':'] + l;
      && core[..|name|] == name
      && core[|name| + 1..|name| + 1 + |f|] == f
      && core[|name| + 1 + |f| + 1..] == l
  {
    var core := name + [' '] + f + [':'] + l;
    assert core[..|name|] == name;
    assert core[|name| + 1..|name| + 1 + |f|] == f;
    assert core[|name| + 1 + |f| + 1..] == l;
  }

  lemma RenderedShape(name: string, f: string, l: string)
    ensures " " + name + " " + f + ":" + l + "," == [' '] + (name + [' '] + f + [':'] + l) + [',']
  {
  }

  /** A call string as the profiler writes it, with a leading space and a trailing
      comma, parses back into its parts. */
  lemma ParseRenderedCall(name: string, file: nat, line: nat)
    requires |name| > 0 && name[0] != ' ' && ' ' !in name && ':' !in name && ',' !in name
    ensures ParseCall(" " + name + " " + NatToString(file) + ":" + NatToString(line) + ",")
            == Ok(Call(name, NatToString(file), NatToString(line)))
  {
    var f := NatToString(file);
    var l := NatToString(line);
    DigitsHaveNoColon(f);
    DigitsHaveNoColon(l);
    var core := name + [' '] + f + [':'] + l;
    RenderedShape(name, f, l);
    assert core[0] == name[0];
    assert core[|core| - 1] == l[|l| - 1];
    assert ',' !in core;
    CleanedRendered(core);
    SplitRendered(name, f, l);
  }

  // ---------------------------------------------------------------- lookup

  /** The unit's source file is `fileId` and its lines include `line`. */
  predicate Holds(n: Node, fileId: string, line: nat) {
    NatToString(n.sourceFile) == fileId && n.startLine <= line <= n.endLine
  }

  /** The first worker, in list order, whose range holds the line. */
  function FirstHolding(g: Graph, workers: seq<NodeId>, fileId: string, line: nat): (r: Option<NodeId>)
    requires forall w :: w in workers ==> w in g.nodes
    ensures r.Some? ==> exists i :: 0 <= i < |workers| && workers[i] == r.value && Holds(g.nodes[r.value], fileId, line)
                                  && forall j :: 0 <= j < i ==> !Holds(g.nodes[workers[j]], fileId, line)
    ensures r.None? <==> forall w :: w in workers ==> !Holds(g.nodes[w], fileId, line)
  {
    if workers == [] then None
    else if Holds(g.nodes[workers[0]], fileId, line) then Some(workers[0])
    else
      var r := FirstHolding(g, workers[1..], fileId, line);
      assert forall w :: w in workers[1..] ==> w in workers;
      if r.Some? then
        var i :| 0 <= i < |workers[1..]| && workers[1..][i] == r.value && Holds(g.nodes[r.value], fileId, line)
                 && forall j :: 0 <= j < i ==> !Holds(g.nodes[workers[1..][j]], fileId, line);
        assert workers[i + 1] == r.value;
        r
      else r
  }

  /** The test for one worker as the source writes it: the text before ':' of its
      start position against the file id, then `int(start) <= int(line) <= int(end)`
      on the texts after ':' (a chained comparison, so `int(end)` is only read when
      the first half holds). */
  function WorkerHolds(n: Node, call: Call): Result<bool> {
    var start := StartPosition(n);
    match BeforeFirst(start, ':')
    case None => Err(ValueError("substring not found"))
    case Some(fileText) =>
      if call.fileId != fileText then Ok(false)
      else
        match (AfterFirst(start, ':'), AfterFirst(EndPosition(n), ':'))
        case (Some(s), Some(e)) =>
          (match (ParseNat(s), ParseNat(call.line))
           case (Some(a), Some(b)) =>
             if !(a <= b) then Ok(false)
             else (match ParseNat(e) case Some(c) => Ok(b <= c) case None => Err(ValueError("int")))
           case _ => Err(ValueError("int")))
        case _ => Err(ValueError("substring not found"))
  }

  /** On a digit line the per-worker test is `Holds`. */
  lemma WorkerHoldsDigits(n: Node, call: Call, line: nat)
    requires call.line == NatToString(line)
    ensures WorkerHolds(n, call) == Ok(Holds(n, call.fileId, line))
  {
    ParseIdInvertsPositions(n);
    var f := NatToString(n.sourceFile);
    DigitsHaveNoColon(f);
    DigitsHaveNoColon(NatToString(n.startLine));
    DigitsHaveNoColon(NatToString(n.endLine));
    SplitJoined(f, ':', NatToString(n.startLine));
    SplitJoined(f, ':', NatToString(n.endLine));
    assert StartPosition(n) == f + [':'] + NatToString(n.startLine);
    assert EndPosition(n) == f + [':'] + NatToString(n.endLine);
    ParseNatOfNatToString(n.startLine);
    ParseNatOfNatToString(n.endLine);
    ParseNatOfNatToString(line);
  }

  /** The worker loop: the first worker that holds the call, an error from the
      first failing test, or None. */
  function ScanWorkers(g: Graph, workers: seq<NodeId>, call: Call): (r: Result<Option<NodeId>>)
    requires forall w :: w in workers ==> w in g.nodes
    ensures r.Ok? && r.value.Some? ==> r.value.value in workers
  {
    if workers == [] then Ok(None)
    else
      match WorkerHolds(g.nodes[workers[0]], call)
      case Err(e) => Err(e)
      case Ok(b) => if b then Ok(Some(workers[0])) else ScanWorkers(g, workers[1..], call)
  }

  /** On a digit line the worker loop finds exactly the first holding worker. */
  lemma {:induction false} ScanWorkersFindsFirst(g: Graph, workers: seq<NodeId>, call: Call, line: nat)
    requires forall w :: w in workers ==> w in g.nodes
    requires call.line == NatToString(line)
    ensures ScanWorkers(g, workers, call) == Ok(FirstHolding(g, workers, call.fileId, line))
    decreases |workers|
  {
    if workers != [] {
      WorkerHoldsDigits(g.nodes[workers[0]], call, line);
      assert forall w :: w in workers[1..] ==> w in workers;
      ScanWorkersFindsFirst(g, workers[1..], call, line);
    }
  }

  /** `__recursive_function_call_contained_in_worker_cu` as a function. */
  function ContainedIn(g: Graph, call: string, workers: seq<NodeId>): (r: Result<Option<NodeId>>)
    requires forall w :: w in workers ==> w in g.nodes
    ensures r.Ok? && r.value.Some? ==> r.value.value in workers
  {
    match ParseCall(call)
    case Err(e) => Err(e)
    case Ok(c) => ScanWorkers(g, workers, c)
  }

  /** A well-formed call is found in the first worker whose range holds it. */
  lemma ContainedInRendered(g: Graph, workers: seq<NodeId>, name: string, file: nat, line: nat)
    requires forall w :: w in workers ==> w in g.nodes
    requires |name| > 0 && name[0] != ' ' && ' ' !in name && ':' !in name && ',' !in name
    ensures ContainedIn(g, " " + name + " " + NatToString(file) + ":" + NatToString(line) + ",", workers)
            == Ok(FirstHolding(g, workers, NatToString(file), line))
  {
    ParseRenderedCall(name, file, line);
    ScanWorkersFindsFirst(g, workers, Call(name, NatToString(file), NatToString(line)), line);
  }

  /** The string clean-up at the head of `__recursive_function_call_contained_in_worker_cu`. */
  method Clean(call: string) returns (s: string)
    ensures s == Cleaned(call)
  {
    s := RemoveAll(call, ",");
    while |s| > 0 && s[0] == ' '
      invariant TrimStart(s) == TrimStart(RemoveAll(call, ","))
    {
      s := s[1..];
    }
    while |s| > 0 && s[|s| - 1] == ' '
      invariant TrimEnd(s) == Cleaned(call)
    {
      s := s[..|s| - 1];
    }
  }

  /** `__recursive_function_call_contained_in_worker_cu(pet, call, workers)`. */
  method RecursiveCallContainedIn(g: Graph, call: string, workers: seq<NodeId>) returns (r: Result<Option<NodeId>>)
    requires forall w :: w in workers ==> w in g.nodes
    ensures r == ContainedIn(g, call, workers)
  {
    var s := Clean(call);
    var c: Call;
    match SplitCall(s) {
      case Err(e) => return Err(e);
      case Ok(c0) => c := c0;
    }
    var i := 0;
    while i < |workers|
      invariant 0 <= i <= |workers|
      invariant ScanWorkers(g, workers[i..], c) == ScanWorkers(g, workers, c)
    {
      assert workers[i..][1..] == workers[i + 1..];
      assert workers[i] in workers;
      match WorkerHolds(g.nodes[workers[i]], c) {
        case Err(e) => return Err(e);
        case Ok(b) =>
          if b {
            return Ok(Some(workers[i]));
          }
      }
      i := i + 1;
    }
    return Ok(None);
  }
}
