/** `__set_task_contained_lines` of the task-parallelism detector
    (graph_analyzer/pattern_detectors/task_parallelism_detector.py): the task and
    taskwait suggestions are grouped by their unit, each group is ordered by the
    line its region starts at (compared as strings), and every suggestion's region
    ends on the line before the next suggestion of its group starts, the last one
    at the end of the unit. Parallel-region suggestions pass through first. */
module ContainedLines {
  import opened Wrappers
  import opened Text
  import opened PetGraph
  import opened Suggestion

  // ---------------------------------------------------------------- grouping

  /** Every group holds task suggestions of the unit it is keyed by. */
  predicate Keyed(d: Groups) {
    forall k :: 0 <= k < |d| ==> KeyedGroup(d[k].0, d[k].1)
  }

  predicate KeyedGroup(key: NodeId, l: seq<Suggestion>) {
    forall s :: s in l ==> s.TaskInfo? && s.node == key
  }

  lemma {:induction false} InsertKeyed(d: Groups, s: Suggestion)
    requires Keyed(d) && s.TaskInfo?
    ensures Keyed(Insert(d, s.node, s))
    decreases |d|
  {
    if d != [] && d[0].0 != s.node {
      InsertKeyed(d[1..], s);
      var r := Insert(d, s.node, s);
      assert r[1..] == Insert(d[1..], s.node, s);
      forall k | 0 <= k < |r| ensures KeyedGroup(r[k].0, r[k].1) {
        if k > 0 { assert r[k] == r[1..][k - 1]; }
      }
    }
  }

  /** The first loop: region suggestions go straight to the output, the others
      are appended to the list of their unit, units in order of first appearance. */
  function Partition(xs: seq<Suggestion>): (r: (seq<Suggestion>, Groups))
    ensures forall s :: s in r.0 ==> s.RegionInfo?
    ensures Keyed(r.1) && UniqueKeys(r.1)
    ensures multiset(r.0) + multiset(Flatten(r.1)) == multiset(xs)
  {
    if xs == [] then ([], [])
    else
      var x := xs[|xs| - 1];
      var (others, d) := Partition(xs[..|xs| - 1]);
      assert xs == xs[..|xs| - 1] + [x];
      if x.RegionInfo? then (others + [x], d)
      else
        InsertFlatten(d, x.node, x);
        InsertKeyed(d, x);
        (others, Insert(d, x.node, x))
  }

  method PartitionLoop(xs: seq<Suggestion>) returns (output: seq<Suggestion>, groups: Groups)
    ensures (output, groups) == Partition(xs)
  {
    output := [];
    groups := [];
    var i := 0;
    while i < |xs|
      invariant 0 <= i <= |xs|
      invariant (output, groups) == Partition(xs[..i])
    {
      assert xs[..i + 1][..i] == xs[..i];
      var s := xs[i];
      if s.RegionInfo? {
        output := output + [s];
      } else {
        groups := Insert(groups, s.node, s);
      }
      i := i + 1;
    }
    assert xs[..i] == xs;
  }

  // ---------------------------------------------------------------- sorting

  /** The sort key `region_start_line` (both kinds of suggestion carry one). */
  function StartKey(s: Suggestion): string {
    if s.TaskInfo? then s.regionStartLine else s.regionStart
  }

  predicate SortedByStart(xs: seq<Suggestion>) {
    forall i, j :: 0 <= i < j < |xs| ==> StrLeq(StartKey(xs[i]), StartKey(xs[j]))
  }

  /** Stable insertion: `x` goes after every element whose key is not after its own. */
  function InsertByStart(xs: seq<Suggestion>, x: Suggestion): (r: seq<Suggestion>)
    ensures multiset(r) == multiset(xs) + multiset{x}
  {
    if xs == [] || StrLeq(StartKey(xs[|xs| - 1]), StartKey(x)) then xs + [x]
    else
      assert xs == xs[..|xs| - 1] + [xs[|xs| - 1]];
      InsertByStart(xs[..|xs| - 1], x) + [xs[|xs| - 1]]
  }

  /** Appending an element whose key is not before the last key keeps a list sorted. */
  lemma AppendSorted(xs: seq<Suggestion>, x: Suggestion)
    requires SortedByStart(xs) && (xs == [] || StrLeq(StartKey(xs[|xs| - 1]), StartKey(x)))
    ensures SortedByStart(xs + [x])
  {
    var r := xs + [x];
    forall i | 0 <= i < |xs| ensures StrLeq(StartKey(xs[i]), StartKey(x)) {
      var k, l, m := StartKey(xs[i]), StartKey(xs[|xs| - 1]), StartKey(x);
      if StrLess(k, l) && StrLess(l, m) {
        StrLessTransitive(k, l, m);
      }
    }
    forall i, j | 0 <= i < j < |r| ensures StrLeq(StartKey(r[i]), StartKey(r[j])) {
      if j == |xs| { assert r[i] == xs[i]; }
    }
  }

  /** Appending an element whose key is not before any key of the list keeps it sorted. */
  lemma AppendAbove(front: seq<Suggestion>, last: Suggestion)
    requires SortedByStart(front) && forall y :: y in front ==> StrLeq(StartKey(y), StartKey(last))
    ensures SortedByStart(front + [last])
  {
    var r := front + [last];
    forall i, j | 0 <= i < j < |r| ensures StrLeq(StartKey(r[i]), StartKey(r[j])) {
      if j == |r| - 1 { assert r[i] in front; }
    }
  }

  /** What the insertion puts before `last`: elements of `init`, and `x`. */
  lemma InsertedBelow(init: seq<Suggestion>, x: Suggestion, last: Suggestion)
    requires forall y :: y in init ==> StrLeq(StartKey(y), StartKey(last))
    requires StrLess(StartKey(x), StartKey(last))
    ensures forall y :: y in InsertByStart(init, x) ==> StrLeq(StartKey(y), StartKey(last))
  {
    forall y | y in InsertByStart(init, x) ensures StrLeq(StartKey(y), StartKey(last)) {
      assert y in multiset(InsertByStart(init, x));
      if y != x {
        assert y in multiset(init);
      }
    }
  }

  lemma {:induction false} InsertByStartSorted(xs: seq<Suggestion>, x: Suggestion)
    requires SortedByStart(xs)
    ensures SortedByStart(InsertByStart(xs, x))
    decreases |xs|
  {
    if xs == [] || StrLeq(StartKey(xs[|xs| - 1]), StartKey(x)) {
      AppendSorted(xs, x);
    } else {
      var init := xs[..|xs| - 1];
      var last := xs[|xs| - 1];
      assert SortedByStart(init);
      InsertByStartSorted(init, x);
      StrLessTotal(StartKey(last), StartKey(x));
      assert forall y :: y in init ==> StrLeq(StartKey(y), StartKey(last)) by {
        forall y | y in init ensures StrLeq(StartKey(y), StartKey(last)) {
          var i :| 0 <= i < |init| && init[i] == y;
          assert xs[i] == y;
        }
      }
      InsertedBelow(init, x, last);
      AppendAbove(InsertByStart(init, x), last);
    }
  }

  /** `list.sort(key=lambda s: s.region_start_line)`: a stable sort by string order. */
  function SortByStart(xs: seq<Suggestion>): (r: seq<Suggestion>)
    ensures multiset(r) == multiset(xs) && SortedByStart(r)
  {
    if xs == [] then []
    else
      assert xs == xs[..|xs| - 1] + [xs[|xs| - 1]];
      InsertByStartSorted(SortByStart(xs[..|xs| - 1]), xs[|xs| - 1]);
      InsertByStart(SortByStart(xs[..|xs| - 1]), xs[|xs| - 1])
  }

  /** Every group, sorted. */
  function SortGroups(d: Groups): (r: Groups)
    ensures |r| == |d| && forall k :: 0 <= k < |d| ==> r[k] == (d[k].0, SortByStart(d[k].1))
  {
    seq(|d|, k requires 0 <= k < |d| => (d[k].0, SortByStart(d[k].1)))
  }

  /** The second loop: each unit's list is replaced by its sorted copy. */
  method SortLoop(d: Groups) returns (groups: Groups)
    ensures groups == SortGroups(d)
  {
    groups := d;
    var k := 0;
    while k < |groups|
      invariant 0 <= k <= |groups| == |d|
      invariant forall j :: 0 <= j < k ==> groups[j] == (d[j].0, SortByStart(d[j].1))
      invariant forall j :: k <= j < |d| ==> groups[j] == d[j]
    {
      var sorted := SortByStart(groups[k].1);
      groups := groups[k := (groups[k].0, sorted)];
      k := k + 1;
    }
  }

  lemma {:induction false} FlattenSorted(d: Groups)
    ensures multiset(Flatten(SortGroups(d))) == multiset(Flatten(d))
    decreases |d|
  {
    if d != [] {
      FlattenSorted(d[1..]);
      assert SortGroups(d)[1..] == SortGroups(d[1..]);
    }
  }

  lemma SortedMember(xs: seq<Suggestion>, s: Suggestion)
    requires s in SortByStart(xs)
    ensures s in xs
  {
    assert s in multiset(SortByStart(xs));
  }

  lemma SortKeeps(d: Groups)
    requires Keyed(d) && UniqueKeys(d)
    ensures Keyed(SortGroups(d)) && UniqueKeys(SortGroups(d))
  {
    var r := SortGroups(d);
    forall k | 0 <= k < |r| ensures KeyedGroup(r[k].0, r[k].1) {
      forall s | s in r[k].1 ensures s.TaskInfo? && s.node == r[k].0 {
        SortedMember(d[k].1, s);
      }
    }
    assert forall k :: 0 <= k < |r| ==> r[k].0 == d[k].0;
  }

  // ---------------------------------------------------------------- region ends

  /** The region end of `grp[i]`: the line before the next suggestion's region
      start (`int()` of it, ValueError when it is not a number), or, for the last
      one, the line text of the unit's end (ValueError without a ':'). */
  function EndOf(grp: seq<Suggestion>, i: nat): (r: Result<Suggestion>)
    requires i < |grp| && grp[i].TaskInfo?
    ensures r.Ok? ==> r.value.TaskInfo? && r.value == grp[i].(regionEnd := r.value.regionEnd)
  {
    var s := grp[i];
    if i + 1 < |grp| then
      match ParseNat(StartKey(grp[i + 1]))
      case None => Err(ValueError("invalid literal for int()"))
      case Some(n) => Ok(s.(regionEnd := EndNumber(n - 1)))
    else
      match LineText(s.endLine)
      case None => Err(ValueError("substring not found"))
      case Some(t) => Ok(s.(regionEnd := EndText(t)))
  }

  predicate AllTasks(grp: seq<Suggestion>) {
    forall s :: s in grp ==> s.TaskInfo?
  }

  function EndRuns(grp: seq<Suggestion>): (rs: seq<Result<seq<Suggestion>>>)
    requires AllTasks(grp)
    ensures |rs| == |grp| && forall i :: 0 <= i < |grp| ==> rs[i] == Listed(EndOf(grp, i))
  {
    seq(|grp|, i requires 0 <= i < |grp| => assert grp[i] in grp; Listed(EndOf(grp, i)))
  }

  /** The inner loop over one unit's sorted list. */
  function WithEnds(grp: seq<Suggestion>): Result<seq<Suggestion>>
    requires AllTasks(grp)
  {
    Gather(EndRuns(grp))
  }

  /** The region ends of a group that was given its ends: every suggestion but
      the last ends one line before the next one's region start, the last at the
      end of its unit. */
  ghost predicate EndsSet(l: seq<Suggestion>) {
    forall i :: 0 <= i < |l| ==> EndSetAt(l, i)
  }

  ghost predicate EndSetAt(l: seq<Suggestion>, i: nat)
    requires i < |l|
  {
    && l[i].TaskInfo?
    && (i + 1 < |l| ==>
          IsDigits(StartKey(l[i + 1])) && l[i].regionEnd == EndNumber(DigitsValue(StartKey(l[i + 1])) - 1))
    && (i + 1 == |l| ==>
          LineText(l[i].endLine).Some? && l[i].regionEnd == EndText(LineText(l[i].endLine).value))
  }

  /** What a group needs for the inner loop not to raise. */
  predicate EndsDefined(grp: seq<Suggestion>) {
    && (forall i :: 0 < i < |grp| ==> IsDigits(StartKey(grp[i])))
    && (|grp| > 0 ==> LineText(grp[|grp| - 1].endLine).Some?)
  }

  /** Clearing the region end. */
  function Erase(s: Suggestion): Suggestion {
    if s.TaskInfo? then s.(regionEnd := Unset) else s
  }

  function Erased(xs: seq<Suggestion>): (r: seq<Suggestion>)
    ensures |r| == |xs| && forall i :: 0 <= i < |xs| ==> r[i] == Erase(xs[i])
  {
    seq(|xs|, i requires 0 <= i < |xs| => Erase(xs[i]))
  }

  /** The value of one step, when it does not raise. */
  lemma EndOfValue(grp: seq<Suggestion>, i: nat, s: Suggestion)
    requires i < |grp| && grp[i].TaskInfo? && EndOf(grp, i) == Ok(s)
    ensures s.TaskInfo? && Erase(s) == Erase(grp[i])
    ensures i + 1 < |grp| ==> IsDigits(StartKey(grp[i + 1])) && s.regionEnd == EndNumber(DigitsValue(StartKey(grp[i + 1])) - 1)
    ensures i + 1 == |grp| ==> LineText(s.endLine).Some? && s.regionEnd == EndText(LineText(s.endLine).value)
  {
  }

  /** The clause of `EndsSet` for one index. */
  lemma EndsSetAt(grp: seq<Suggestion>, l: seq<Suggestion>, i: nat)
    requires AllTasks(grp) && |l| == |grp| && i < |l|
    requires EndOf(grp, i) == Ok(l[i])
    requires i + 1 < |l| ==> EndOf(grp, i + 1) == Ok(l[i + 1])
    ensures Erase(l[i]) == Erase(grp[i]) && l[i].TaskInfo?
    ensures i + 1 < |l| ==> IsDigits(StartKey(l[i + 1])) && l[i].regionEnd == EndNumber(DigitsValue(StartKey(l[i + 1])) - 1)
    ensures i + 1 == |l| ==> LineText(l[i].endLine).Some? && l[i].regionEnd == EndText(LineText(l[i].endLine).value)
  {
    assert grp[i] in grp;
    EndOfValue(grp, i, l[i]);
    if i + 1 < |l| {
      assert grp[i + 1] in grp;
      EndOfValue(grp, i + 1, l[i + 1]);
    }
  }

  /** A list whose elements are the steps' values has its ends set. */
  lemma EndsSetFrom(grp: seq<Suggestion>, l: seq<Suggestion>)
    requires AllTasks(grp) && |l| == |grp|
    requires forall i :: 0 <= i < |grp| ==> EndOf(grp, i) == Ok(l[i])
    ensures Erased(l) == Erased(grp) && EndsSet(l)
  {
    forall i | 0 <= i < |l| ensures Erase(l[i]) == Erase(grp[i]) && EndSetAt(l, i) {
      EndsSetAt(grp, l, i);
    }
  }

  lemma WithEndsErr(grp: seq<Suggestion>)
    requires AllTasks(grp)
    ensures WithEnds(grp).Ok? <==> EndsDefined(grp)
  {
    var rs := EndRuns(grp);
    GatherErr(rs);
    if EndsDefined(grp) {
      forall i | 0 <= i < |grp| ensures rs[i].Ok? {
        assert grp[i] in grp;
      }
    } else if |grp| > 0 && LineText(grp[|grp| - 1].endLine).None? {
      assert grp[|grp| - 1] in grp;
      assert !rs[|grp| - 1].Ok?;
    } else {
      var i :| 0 < i < |grp| && !IsDigits(StartKey(grp[i]));
      assert grp[i - 1] in grp;
      assert !rs[i - 1].Ok?;
    }
  }

  /** The inner loop raises exactly when a later suggestion's region start is not
      a number or the last one's end position has no ':'; otherwise it keeps every
      suggestion and its order, changes only the region ends, and sets them all. */
  lemma WithEndsResult(grp: seq<Suggestion>)
    requires AllTasks(grp)
    ensures WithEnds(grp).Ok? <==> EndsDefined(grp)
    ensures WithEnds(grp).Ok? ==>
              && Erased(WithEnds(grp).value) == Erased(grp)
              && EndsSet(WithEnds(grp).value)
  {
    WithEndsErr(grp);
    if WithEnds(grp).Ok? {
      var rs := EndRuns(grp);
      GatherErr(rs);
      forall i | 0 <= i < |grp| ensures rs[i].Ok? && |rs[i].value| == 1 {
        assert grp[i] in grp;
      }
      GatherSingles(rs);
      var l := WithEnds(grp).value;
      forall i | 0 <= i < |grp| ensures EndOf(grp, i) == Ok(l[i]) {
        assert grp[i] in grp;
      }
      EndsSetFrom(grp, l);
    }
  }

  /** The inner loop: `s.region_end_line = ...`, then `cu_to_suggestions_map[cu][idx] = s`. */
  method SetEnds(grp: seq<Suggestion>) returns (r: Result<seq<Suggestion>>)
    requires AllTasks(grp)
    ensures r == WithEnds(grp)
  {
    ghost var rs := EndRuns(grp);
    var lst := grp;
    assert rs[..0] == [] && lst[..0] == [];
    var idx := 0;
    while idx < |lst|
      invariant 0 <= idx <= |lst| == |grp|
      invariant lst[idx..] == grp[idx..]
      invariant Gather(rs[..idx]) == Ok(lst[..idx])
    {
      assert lst[idx] == grp[idx] && grp[idx] in grp;
      var s := lst[idx];
      var end: RegionEnd;
      if idx + 1 < |lst| {
        assert lst[idx + 1] == grp[idx + 1];
        var n := ParseNat(StartKey(lst[idx + 1]));
        if n.None? {
          GatherStep(rs, idx);
          GatherStops(rs, idx + 1);
          return Err(ValueError("invalid literal for int()"));
        }
        end := EndNumber(n.value as int - 1);
      } else {
        var t := LineText(s.endLine);
        if t.None? {
          GatherStep(rs, idx);
          GatherStops(rs, idx + 1);
          return Err(ValueError("substring not found"));
        }
        end := EndText(t.value);
      }
      assert rs[idx] == Ok([s.(regionEnd := end)]);
      ghost var done := lst[..idx];
      GatherSnoc(rs, idx, done, [s.(regionEnd := end)]);
      lst := lst[idx := s.(regionEnd := end)];
      assert lst[..idx + 1] == done + [s.(regionEnd := end)];
      assert lst[idx + 1..] == grp[idx + 1..];
      idx := idx + 1;
    }
    assert rs[..idx] == rs && lst[..idx] == lst;
    r := Ok(lst);
  }

  // ---------------------------------------------------------------- the pass

  /** The outer loop's iteration for group `k`: the group with its ends set. */
  function GroupRun(d: Groups, k: nat): Result<Groups>
    requires k < |d| && Keyed(d)
  {
    assert KeyedGroup(d[k].0, d[k].1);
    match WithEnds(d[k].1)
    case Err(e) => Err(e)
    case Ok(l) => Ok([(d[k].0, l)])
  }

  function GroupRuns(d: Groups): (rs: seq<Result<Groups>>)
    requires Keyed(d)
    ensures |rs| == |d| && forall k :: 0 <= k < |d| ==> rs[k] == GroupRun(d, k)
  {
    seq(|d|, k requires 0 <= k < |d| => GroupRun(d, k))
  }

  /** `__set_task_contained_lines(pet, suggestions)`. */
  function ContainedLinesOf(xs: seq<Suggestion>): Result<seq<Suggestion>> {
    var (others, d) := Partition(xs);
    SortKeeps(d);
    match Gather(GroupRuns(SortGroups(d)))
    case Err(e) => Err(e)
    case Ok(ended) => Ok(others + Flatten(ended))
  }

  /** The third loop, over the units, each group updated in place. */
  method EndLoop(d: Groups) returns (r: Result<Groups>)
    requires Keyed(d)
    ensures r == Gather(GroupRuns(d))
  {
    ghost var rs := GroupRuns(d);
    var groups := d;
    assert rs[..0] == [] && groups[..0] == [];
    var k := 0;
    while k < |groups|
      invariant 0 <= k <= |groups| == |d|
      invariant groups[k..] == d[k..]
      invariant Gather(rs[..k]) == Ok(groups[..k])
    {
      assert groups[k] == d[k];
      assert KeyedGroup(d[k].0, d[k].1);
      var ended := SetEnds(groups[k].1);
      if ended.Err? {
        GatherStep(rs, k);
        GatherStops(rs, k + 1);
        return Err(ended.error);
      }
      ghost var done := groups[..k];
      GatherSnoc(rs, k, done, [(d[k].0, ended.value)]);
      groups := groups[k := (groups[k].0, ended.value)];
      assert groups[..k + 1] == done + [(d[k].0, ended.value)];
      assert groups[k + 1..] == d[k + 1..];
      k := k + 1;
    }
    assert rs[..k] == rs && groups[..k] == groups;
    r := Ok(groups);
  }

  lemma {:induction false} FlattenSnoc(d: Groups, p: (string, seq<Suggestion>))
    ensures Flatten(d + [p]) == Flatten(d) + p.1
    decreases |d|
  {
    if d == [] {
      assert Flatten([p]) == p.1 + Flatten([]);
    } else {
      FlattenSnoc(d[1..], p);
      assert (d + [p])[1..] == d[1..] + [p];
    }
  }

  /** The last loop: every unit's list, in unit order, after the region suggestions. */
  method AppendGroups(others: seq<Suggestion>, e: Groups) returns (output: seq<Suggestion>)
    ensures output == others + Flatten(e)
  {
    output := others;
    var k := 0;
    while k < |e|
      invariant 0 <= k <= |e|
      invariant output == others + Flatten(e[..k])
    {
      FlattenSnoc(e[..k], e[k]);
      assert e[..k + 1] == e[..k] + [e[k]];
      output := output + e[k].1;
      k := k + 1;
    }
    assert e[..k] == e;
  }

  method SetTaskContainedLines(xs: seq<Suggestion>) returns (r: Result<seq<Suggestion>>)
    ensures r == ContainedLinesOf(xs)
  {
    var output, groups := PartitionLoop(xs);
    ghost var d := groups;
    SortKeeps(d);
    groups := SortLoop(groups);
    var ended := EndLoop(groups);
    if ended.Err? {
      return Err(ended.error);
    }
    output := AppendGroups(output, ended.value);
    r := Ok(output);
  }

  // ---------------------------------------------------------------- properties

  lemma ErasedAppend(a: seq<Suggestion>, b: seq<Suggestion>)
    ensures Erased(a + b) == Erased(a) + Erased(b)
  {
  }

  /** Clearing the region ends of two permutations of each other leaves permutations. */
  lemma {:induction false} ErasedPermutes(a: seq<Suggestion>, b: seq<Suggestion>)
    requires multiset(a) == multiset(b)
    ensures multiset(Erased(a)) == multiset(Erased(b))
    decreases |a|
  {
    if a != [] {
      var x := a[0];
      assert x in multiset(b);
      var j :| 0 <= j < |b| && b[j] == x;
      var b' := b[..j] + b[j + 1..];
      assert b == b[..j] + [x] + b[j + 1..];
      assert a == [x] + a[1..];
      assert multiset(b) == multiset(b[..j]) + multiset{x} + multiset(b[j + 1..]);
      assert multiset(a) == multiset{x} + multiset(a[1..]);
      assert multiset(b') == multiset(b[..j]) + multiset(b[j + 1..]);
      assert multiset(a[1..]) == multiset(a) - multiset{x};
      assert multiset(b') == multiset(b) - multiset{x};
      ErasedPermutes(a[1..], b');
      ErasedAppend([x], a[1..]);
      ErasedAppend(b[..j] + [x], b[j + 1..]);
      ErasedAppend(b[..j], [x]);
      ErasedAppend(b[..j], b[j + 1..]);
    }
  }

  /** Groups whose lists agree once the ends are cleared flatten to lists that agree. */
  lemma {:induction false} FlattenErased(d: Groups, e: Groups)
    requires |d| == |e| && forall k :: 0 <= k < |d| ==> Erased(d[k].1) == Erased(e[k].1)
    ensures Erased(Flatten(d)) == Erased(Flatten(e))
    decreases |d|
  {
    if d != [] {
      FlattenErased(d[1..], e[1..]);
      ErasedAppend(d[0].1, Flatten(d[1..]));
      ErasedAppend(e[0].1, Flatten(e[1..]));
    }
  }

  /** The groups the third loop produces: each group of `d`, its ends set. */
  lemma {:induction false} EndedGroups(d: Groups)
    requires Keyed(d) && Gather(GroupRuns(d)).Ok?
    ensures var e := Gather(GroupRuns(d)).value;
            && |e| == |d|
            && forall k :: 0 <= k < |d| ==> e[k].0 == d[k].0 && WithEnds(d[k].1).Ok? && e[k].1 == WithEnds(d[k].1).value
  {
    var rs := GroupRuns(d);
    GatherErr(rs);
    forall k | 0 <= k < |d| ensures rs[k].Ok? && |rs[k].value| == 1 {
      assert rs[k] == GroupRun(d, k);
    }
    GatherSingles(rs);
  }

  /** The pass raises exactly when, in some unit's sorted list, a suggestion after
      the first has a region start that is not a number, or the last one's end
      position has no ':'. */
  lemma ContainedLinesErr(xs: seq<Suggestion>)
    ensures var sd := SortGroups(Partition(xs).1);
            ContainedLinesOf(xs).Ok? <==> forall k :: 0 <= k < |sd| ==> EndsDefined(sd[k].1)
  {
    var d := Partition(xs).1;
    SortKeeps(d);
    var sd := SortGroups(d);
    var rs := GroupRuns(sd);
    GatherErr(rs);
    forall k | 0 <= k < |sd| ensures rs[k].Ok? <==> EndsDefined(sd[k].1) {
      assert KeyedGroup(sd[k].0, sd[k].1);
      WithEndsErr(sd[k].1);
    }
  }

  /** The output is the region suggestions, in order, followed by one sorted list
      per unit, units distinct, with every region end set; and apart from the
      region ends it is a permutation of the input. */
  lemma ContainedLinesResult(xs: seq<Suggestion>) returns (e: Groups)
    requires ContainedLinesOf(xs).Ok?
    ensures ContainedLinesOf(xs).value == Partition(xs).0 + Flatten(e)
    ensures UniqueKeys(e) && Keyed(e)
    ensures forall k :: 0 <= k < |e| ==> SortedByStart(e[k].1) && EndsSet(e[k].1)
    ensures multiset(Erased(ContainedLinesOf(xs).value)) == multiset(Erased(xs))
  {
    var (others, d) := Partition(xs);
    SortKeeps(d);
    var sd := SortGroups(d);
    e := Gather(GroupRuns(sd)).value;
    EndedGroups(sd);
    forall k | 0 <= k < |e|
      ensures Erased(sd[k].1) == Erased(e[k].1) && KeyedGroup(e[k].0, e[k].1)
      ensures SortedByStart(e[k].1) && EndsSet(e[k].1)
    {
      assert KeyedGroup(sd[k].0, sd[k].1);
      WithEndsResult(sd[k].1);
      EndsKeepOrder(sd[k].1, e[k].1);
    }
    assert forall k :: 0 <= k < |e| ==> e[k].0 == sd[k].0;
    FlattenErased(sd, e);
    FlattenSorted(d);
    ErasedPermutes(Flatten(sd), Flatten(d));
    ErasedPermutes(others + Flatten(d), xs);
    ErasedAppend(others, Flatten(d));
    ErasedAppend(others, Flatten(e));
  }

  /** Changing only the region ends keeps the order of region starts and the units. */
  lemma EndsKeepOrder(a: seq<Suggestion>, b: seq<Suggestion>)
    requires AllTasks(a) && Erased(a) == Erased(b)
    ensures SortedByStart(a) ==> SortedByStart(b)
    ensures forall key :: KeyedGroup(key, a) ==> KeyedGroup(key, b)
  {
    assert forall i :: 0 <= i < |a| ==> a[i] in a;
    assert forall i :: 0 <= i < |b| ==> StartKey(b[i]) == StartKey(a[i]) && b[i].node == a[i].node && (b[i].TaskInfo? <==> a[i].TaskInfo?) by {
      forall i | 0 <= i < |b| ensures StartKey(b[i]) == StartKey(a[i]) && b[i].node == a[i].node && (b[i].TaskInfo? <==> a[i].TaskInfo?) {
        assert Erase(b[i]) == Erase(a[i]);
      }
    }
  }
}
