/** The results of the task-parallelism detector: task and taskwait suggestions
    (`TaskParallelismInfo`) and parallel-region suggestions (`ParallelRegionInfo`),
    and the line-keyed dictionary that groups suggestions while they are made
    (graph_analyzer/pattern_detectors/task_parallelism_detector.py). */
module Suggestion {
  import opened Wrappers
  import opened Text
  import opened PetGraph

  /** `region_end_line` of a task suggestion: unset (None), a number computed from
      the next suggestion's start, or the line text of the unit's end. */
  datatype RegionEnd = Unset | EndNumber(n: int) | EndText(text: string)

  /** `TaskParallelismInfo` and `ParallelRegionInfo`. `node` is both the vertex and
      its `node_id`; `startLine` and `endLine` are the unit's `file:line` positions
      (the `PatternInfo` fields). A pragma line is kept as the string the source
      builds; a fork's empty pragma line (an empty list there) is the empty string. */
  datatype Suggestion =
    | TaskInfo(node: NodeId, startLine: string, endLine: string,
               pragma: seq<string>, pragmaLine: string, regionStartLine: string, regionEnd: RegionEnd,
               firstPrivate: seq<string>, private: seq<string>, shared: seq<string>)
    | RegionInfo(node: NodeId, startLine: string, endLine: string,
                 regionStart: string, regionEndLine: string)

  /** The text after the first ':' of a pragma line, or the whole line without one. */
  function RegionStartOf(pragmaLine: string): string {
    match AfterFirst(pragmaLine, ':')
    case Some(rest) => rest
    case None => pragmaLine
  }

  /** For a `file:line` pragma line the region starts at `line`; a bare line is its own start. */
  lemma RegionStartOfLine(file: string, line: string)
    requires ':' !in file && ':' !in line
    ensures RegionStartOf(file + ":" + line) == line
    ensures RegionStartOf(line) == line
  {
    SplitJoined(file, ':', line);
    assert file + ":" + line == file + [':'] + line;
  }

  /** `TaskParallelismInfo(pet, node, pragma, pragma_line, fp, p, s)`: no region end yet. */
  function NewTaskInfo(g: Graph, n: NodeId, pragma: seq<string>, pragmaLine: string,
                       fp: seq<string>, p: seq<string>, sh: seq<string>): (s: Suggestion)
    requires n in g.nodes
    ensures s.TaskInfo? && s.node == n && s.pragma == pragma && s.pragmaLine == pragmaLine
    ensures s.regionEnd == Unset && s.startLine == StartPosition(g.nodes[n]) && s.endLine == EndPosition(g.nodes[n])
    ensures s.firstPrivate == fp && s.private == p && s.shared == sh
  {
    TaskInfo(n, StartPosition(g.nodes[n]), EndPosition(g.nodes[n]), pragma, pragmaLine, RegionStartOf(pragmaLine), Unset, fp, p, sh)
  }

  /** `ParallelRegionInfo(pet, node, start, end)`. */
  function NewRegionInfo(g: Graph, n: NodeId, start: string, end: string): (s: Suggestion)
    requires n in g.nodes
    ensures s.RegionInfo? && s.node == n && s.regionStart == start && s.regionEndLine == end
  {
    RegionInfo(n, StartPosition(g.nodes[n]), EndPosition(g.nodes[n]), start, end)
  }

  // ---------------------------------------------------------------- grouping

  /** A dictionary from line keys to lists of suggestions, in key insertion order. */
  type Groups = seq<(string, seq<Suggestion>)>

  predicate UniqueKeys(d: Groups) {
    forall i, j :: 0 <= i < j < |d| ==> d[i].0 != d[j].0
  }

  /** `suggestions[key].append(s)`, creating the entry at the end when missing. */
  function Insert(d: Groups, key: string, s: Suggestion): (r: Groups)
    ensures |r| == |d| || (|r| == |d| + 1 && r[|d|] == (key, [s]))
    ensures forall i :: 0 <= i < |d| ==> r[i].0 == d[i].0
    ensures UniqueKeys(d) ==> UniqueKeys(r)
  {
    if d == [] then [(key, [s])]
    else if d[0].0 == key then [(key, d[0].1 + [s])] + d[1..]
    else [d[0]] + Insert(d[1..], key, s)
  }

  /** `[x for key in d for x in d[key]]`. */
  function Flatten(d: Groups): seq<Suggestion> {
    if d == [] then [] else d[0].1 + Flatten(d[1..])
  }

  /** Inserting adds exactly the one suggestion to the flattened dictionary. */
  lemma {:induction false} InsertFlatten(d: Groups, key: string, s: Suggestion)
    ensures multiset(Flatten(Insert(d, key, s))) == multiset(Flatten(d)) + multiset{s}
  {
    if d != [] {
      if d[0].0 == key {
        assert Insert(d, key, s)[1..] == d[1..];
      } else {
        InsertFlatten(d[1..], key, s);
        assert Insert(d, key, s)[1..] == Insert(d[1..], key, s);
      }
    }
  }

  /** Grouping a list of keyed suggestions one after the other. */
  function Group(xs: seq<(string, Suggestion)>): Groups {
    if xs == [] then [] else Insert(Group(xs[..|xs| - 1]), xs[|xs| - 1].0, xs[|xs| - 1].1)
  }

  function Values(xs: seq<(string, Suggestion)>): (r: seq<Suggestion>)
    ensures |r| == |xs| && forall i :: 0 <= i < |xs| ==> r[i] == xs[i].1
  {
    if xs == [] then [] else Values(xs[..|xs| - 1]) + [xs[|xs| - 1].1]
  }

  lemma ValuesAppend(xs: seq<(string, Suggestion)>, ys: seq<(string, Suggestion)>)
    ensures Values(xs + ys) == Values(xs) + Values(ys)
  {
    assert forall i :: 0 <= i < |xs| + |ys| ==> (xs + ys)[i].1 == (Values(xs) + Values(ys))[i];
  }

  /** The grouped list holds the same suggestions as the list, each as often. */
  lemma {:induction false} GroupPermutes(xs: seq<(string, Suggestion)>)
    ensures multiset(Flatten(Group(xs))) == multiset(Values(xs))
  {
    if xs != [] {
      GroupPermutes(xs[..|xs| - 1]);
      InsertFlatten(Group(xs[..|xs| - 1]), xs[|xs| - 1].0, xs[|xs| - 1].1);
    }
  }

  /** Every keyed suggestion ends up in the flattened groups. */
  lemma InFlattenGroup(xs: seq<(string, Suggestion)>, i: nat)
    requires i < |xs|
    ensures xs[i].1 in Flatten(Group(xs))
  {
    assert Values(xs)[i] == xs[i].1;
    ValueIsGrouped(xs, xs[i].1);
  }

  lemma ValueIsGrouped(xs: seq<(string, Suggestion)>, s: Suggestion)
    requires s in Values(xs)
    ensures s in Flatten(Group(xs))
  {
    GroupPermutes(xs);
    assert multiset(Values(xs))[s] > 0;
  }

  lemma GroupedIsValue(xs: seq<(string, Suggestion)>, s: Suggestion)
    requires s in Flatten(Group(xs))
    ensures s in Values(xs)
  {
    GroupPermutes(xs);
    assert multiset(Flatten(Group(xs)))[s] > 0;
  }

  /** Every suggestion of the flattened groups is one of the keyed suggestions. */
  lemma FromFlattenGroup(xs: seq<(string, Suggestion)>, s: Suggestion)
    requires s in Flatten(Group(xs))
    ensures exists i :: 0 <= i < |xs| && xs[i].1 == s
  {
    GroupedIsValue(xs, s);
    ValueIndex(xs, s);
  }

  lemma ValueIndex(xs: seq<(string, Suggestion)>, s: Suggestion)
    requires s in Values(xs)
    ensures exists i :: 0 <= i < |xs| && xs[i].1 == s
  {
    var i :| 0 <= i < |Values(xs)| && Values(xs)[i] == s;
  }

  /** A suggestion made before or after ends up in the flattened groups of both. */
  lemma InGroupedAppend(xs: seq<(string, Suggestion)>, ys: seq<(string, Suggestion)>, x: (string, Suggestion))
    requires x in xs || x in ys
    ensures x.1 in Flatten(Group(xs + ys))
  {
    var all := xs + ys;
    if x in xs {
      var j :| 0 <= j < |xs| && xs[j] == x;
      assert all[j] == x;
      InFlattenGroup(all, j);
    } else {
      var j :| 0 <= j < |ys| && ys[j] == x;
      assert all[|xs| + j] == x;
      InFlattenGroup(all, |xs| + j);
    }
  }

  /** A suggestion of the flattened groups of two lists comes from one of them. */
  lemma FromGroupedAppend(xs: seq<(string, Suggestion)>, ys: seq<(string, Suggestion)>, s: Suggestion)
    returns (x: (string, Suggestion))
    requires s in Flatten(Group(xs + ys))
    ensures x.1 == s && (x in xs || x in ys)
  {
    var all := xs + ys;
    FromFlattenGroup(all, s);
    var j :| 0 <= j < |all| && all[j].1 == s;
    x := all[j];
    if j < |xs| {
      assert x == xs[j];
    } else {
      assert x == ys[j - |xs|];
    }
  }
}
