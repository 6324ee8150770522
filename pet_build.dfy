/** Construction of the PET graph from parsed computation-unit records and
    dependence records (`PETGraphX.__init__`, `parse_cu`, `parse_dependency`). */
module PetBuild {
  import opened Wrappers
  import opened Text
  import opened PetGraph

  /** One `<Node>` element of the CU file, already read from XML. */
  datatype CuRecord = CuRecord(
    id: string,
    typeCode: string,
    startsAtLine: string,
    endsAtLine: string,
    name: string,
    instructionsCount: Option<int>,
    localVars: seq<Variable>,
    globalVars: seq<Variable>,
    children: seq<string>,
    successors: seq<string>)

  /** One line of the dependence file: `sink` reads what `source` wrote. */
  datatype DependenceItem = DependenceItem(sink: string, source: string, dtype: string, varName: string)

  predicate DistinctIds(cus: seq<CuRecord>) {
    forall i, j :: 0 <= i < j < |cus| ==> cus[i].id != cus[j].id
  }

  function Ids(cus: seq<CuRecord>): (ids: seq<NodeId>)
    ensures |ids| == |cus| && forall i :: 0 <= i < |cus| ==> ids[i] == cus[i].id
  {
    seq(|cus|, i requires 0 <= i < |cus| => cus[i].id)
  }

  /** `CuType(int(code))`: only 0..3 name a type. */
  function ParseCuType(code: string): (r: Option<CuType>)
    ensures r.Some? <==> IsDigits(code) && DigitsValue(code) <= 3
  {
    match ParseNat(code)
    case None => None
    case Some(v) =>
      if v == 0 then Some(Cu) else if v == 1 then Some(Func)
      else if v == 2 then Some(Loop) else if v == 3 then Some(Dummy) else None
  }

  /** `parse_cu`: id, type and the two positions must parse; only CU nodes keep their variables. */
  function ParseCu(rec: CuRecord): (r: Result<Node>)
    ensures r.Ok? <==> ParseId(rec.id).Ok? && ParseCuType(rec.typeCode).Some?
                       && ParseId(rec.startsAtLine).Ok? && ParseId(rec.endsAtLine).Ok?
    ensures r.Ok? ==> && r.value.id == rec.id
                      && ParseId(rec.id) == Ok((r.value.fileId, r.value.nodeId))
                      && Some(r.value.kind) == ParseCuType(rec.typeCode)
                      && ParseId(rec.startsAtLine) == Ok((r.value.sourceFile, r.value.startLine))
                      && ParseId(rec.endsAtLine).value.1 == r.value.endLine
                      && r.value.name == rec.name
                      && r.value.instructionsCount == (if rec.instructionsCount.Some? then rec.instructionsCount.value else 0)
                      && r.value.loopIterations == -1 && r.value.recursiveCalls == []
                      && (r.value.kind != Cu ==> r.value.localVars == [] && r.value.globalVars == [])
                      && (r.value.kind == Cu ==> r.value.localVars == rec.localVars && r.value.globalVars == rec.globalVars)
  {
    match ParseId(rec.id)
    case Err(e) => Err(e)
    case Ok(fn) =>
      match ParseCuType(rec.typeCode)
      case None => Err(ValueError("not a CuType"))
      case Some(kind) =>
        match ParseId(rec.startsAtLine)
        case Err(e) => Err(e)
        case Ok(start) =>
          match ParseId(rec.endsAtLine)
          case Err(e) => Err(e)
          case Ok(end) =>
            var isCu := kind == Cu;
            Ok(Node(rec.id, fn.0, fn.1, kind, start.0, start.1, end.1, rec.name,
                    match rec.instructionsCount case Some(c) => c case None => 0,
                    -1,
                    if isCu then rec.localVars else [],
                    if isCu then rec.globalVars else [],
                    []))
  }

  /** The records parsed in order; the first failure is the outcome. */
  function ParseAll(cus: seq<CuRecord>): (r: Result<seq<Node>>)
    ensures r.Ok? ==> |r.value| == |cus| && forall i :: 0 <= i < |cus| ==> ParseCu(cus[i]) == Ok(r.value[i])
  {
    if cus == [] then Ok([])
    else
      var init := cus[..|cus| - 1];
      assert forall i :: 0 <= i < |cus| - 1 ==> cus[i] == init[i];
      match ParseAll(init)
      case Err(e) => Err(e)
      case Ok(ns) =>
        match ParseCu(cus[|cus| - 1])
        case Err(e) => Err(e)
        case Ok(n) => Ok(ns + [n])
  }

  /** Parsing fails exactly when some record fails to parse. */
  lemma {:induction false} ParseAllFails(cus: seq<CuRecord>)
    ensures ParseAll(cus).Err? <==> exists i :: 0 <= i < |cus| && ParseCu(cus[i]).Err?
    decreases |cus|
  {
    if ParseAll(cus).Err? {
      var init := cus[..|cus| - 1];
      if ParseAll(init).Err? {
        ParseAllFails(init);
        var i :| 0 <= i < |init| && ParseCu(init[i]).Err?;
        assert cus[i] == init[i];
      } else {
        assert ParseCu(cus[|cus| - 1]).Err?;
      }
    }
  }

  /** Loop nodes get their iteration count from the loop data by start position, 0 when absent. */
  function WithLoopIterations(n: Node, loopData: map<string, int>): (r: Node)
    ensures r == n || (n.kind == Loop && r == n.(loopIterations := r.loopIterations))
  {
    if n.kind == Loop then
      n.(loopIterations := if StartPosition(n) in loopData then loopData[StartPosition(n)] else 0)
    else n
  }

  /** The node table: every node under its id. */
  function NodeTable(ns: seq<Node>): (m: map<NodeId, Node>)
    requires forall i, j :: 0 <= i < j < |ns| ==> ns[i].id != ns[j].id
    ensures forall i :: 0 <= i < |ns| ==> ns[i].id in m && m[ns[i].id] == ns[i]
    ensures forall k :: k in m ==> exists i :: 0 <= i < |ns| && ns[i].id == k
  {
    map i | 0 <= i < |ns| :: ns[i].id := ns[i]
  }

  function AllWithLoopIterations(ns: seq<Node>, loopData: map<string, int>): (r: seq<Node>)
    ensures |r| == |ns| && forall i :: 0 <= i < |ns| ==> r[i] == WithLoopIterations(ns[i], loopData) && r[i].id == ns[i].id
  {
    seq(|ns|, i requires 0 <= i < |ns| => WithLoopIterations(ns[i], loopData))
  }

  function RecordEdges(rec: CuRecord): seq<Edge> {
    seq(|rec.children|, j requires 0 <= j < |rec.children| => Edge(rec.id, rec.children[j], Structural(Child)))
    + seq(|rec.successors|, j requires 0 <= j < |rec.successors| => Edge(rec.id, rec.successors[j], Structural(Successor)))
  }

  /** The CHILD and SUCCESSOR edges, record by record, whether or not the target exists. */
  function StructuralEdges(cus: seq<CuRecord>): (es: seq<Edge>)
    ensures forall e :: e in es <==> exists i :: 0 <= i < |cus| && e in RecordEdges(cus[i])
  {
    if cus == [] then []
    else
      var init := cus[..|cus| - 1];
      var rest := StructuralEdges(init);
      assert forall i :: 0 <= i < |cus| - 1 ==> cus[i] == init[i];
      rest + RecordEdges(cus[|cus| - 1])
  }

  /** `DepType[name]`: a missing member is a KeyError. */
  function ParseDepType(s: string): Option<DepType> {
    if s == "RAW" then Some(Raw) else if s == "WAR" then Some(War) else if s == "WAW" then Some(Waw) else None
  }

  /** Whether the pair (sink CU `a`, source CU `b`) yields an edge: never for a WAR/WAW
      dependence inside one CU, and both ids must be non-empty. */
  predicate AddsEdge(dep: DependenceItem, a: string, b: string) {
    !(a == b && (dep.dtype == "WAR" || dep.dtype == "WAW")) && a != "" && b != ""
  }

  /** `parse_dependency`: the DATA edge from the reading CU to the writing CU. */
  function DataEdge(a: string, b: string, dep: DependenceItem, t: DepType): Edge {
    Edge(a, b, Dependency(Data, Some(t), dep.varName, dep.source, dep.sink))
  }

  /** The edges a dependence record adds for one sink CU, over the source CUs in order. */
  function RowEdges(dep: DependenceItem, a: string, sources: seq<string>): (r: Result<seq<Edge>>)
    ensures r.Err? <==> ParseDepType(dep.dtype).None? && exists b :: b in sources && AddsEdge(dep, a, b)
    ensures r.Ok? ==> forall e :: e in r.value <==>
      exists b :: b in sources && AddsEdge(dep, a, b) && e == DataEdge(a, b, dep, ParseDepType(dep.dtype).value)
  {
    if sources == [] then Ok([])
    else
      var init := sources[..|sources| - 1];
      var b := sources[|sources| - 1];
      assert forall x :: x in sources <==> x in init || x == b;
      match RowEdges(dep, a, init)
      case Err(e) => Err(e)
      case Ok(es) =>
        if !AddsEdge(dep, a, b) then Ok(es)
        else match ParseDepType(dep.dtype)
          case None => Err(KeyError("DepType"))
          case Some(t) => Ok(es + [DataEdge(a, b, dep, t)])
  }

  /** The edges of one record over all (sink, source) pairs, sinks outermost. */
  function PairEdges(dep: DependenceItem, sinks: seq<string>, sources: seq<string>): (r: Result<seq<Edge>>)
    ensures r.Err? <==> ParseDepType(dep.dtype).None? && exists a, b :: a in sinks && b in sources && AddsEdge(dep, a, b)
    ensures r.Ok? ==> forall e :: e in r.value <==>
      exists a, b :: a in sinks && b in sources && AddsEdge(dep, a, b) && e == DataEdge(a, b, dep, ParseDepType(dep.dtype).value)
  {
    if sinks == [] then Ok([])
    else
      var init := sinks[..|sinks| - 1];
      var a := sinks[|sinks| - 1];
      assert forall x :: x in sinks <==> x in init || x == a;
      match PairEdges(dep, init, sources)
      case Err(e) => Err(e)
      case Ok(es) =>
        match RowEdges(dep, a, sources)
        case Err(e) => Err(e)
        case Ok(row) => Ok(es + row)
  }

  /** A dependence record's edges; INIT records add none, an unknown line is a KeyError. */
  function RecordDepEdges(dep: DependenceItem, readMap: map<string, seq<string>>, writeMap: map<string, seq<string>>): Result<seq<Edge>> {
    if dep.dtype == "INIT" then Ok([])
    else if dep.sink !in readMap then Err(KeyError("readlineToCUIdMap"))
    else if dep.source !in writeMap then Err(KeyError("writelineToCUIdMap"))
    else PairEdges(dep, readMap[dep.sink], writeMap[dep.source])
  }

  /** The edge `e` is one that record `dep` adds. */
  ghost predicate AddedBy(e: Edge, dep: DependenceItem, readMap: map<string, seq<string>>, writeMap: map<string, seq<string>>) {
    && dep.dtype != "INIT" && dep.sink in readMap && dep.source in writeMap
    && ParseDepType(dep.dtype).Some?
    && exists a, b :: a in readMap[dep.sink] && b in writeMap[dep.source] && AddsEdge(dep, a, b)
                   && e == DataEdge(a, b, dep, ParseDepType(dep.dtype).value)
  }

  function DepEdges(deps: seq<DependenceItem>, readMap: map<string, seq<string>>, writeMap: map<string, seq<string>>): (r: Result<seq<Edge>>)
    ensures r.Ok? ==> forall e :: e in r.value <==> exists i :: 0 <= i < |deps| && AddedBy(e, deps[i], readMap, writeMap)
  {
    if deps == [] then Ok([])
    else
      var init := deps[..|deps| - 1];
      var dep := deps[|deps| - 1];
      assert forall i :: 0 <= i < |deps| - 1 ==> deps[i] == init[i];
      match DepEdges(init, readMap, writeMap)
      case Err(e) => Err(e)
      case Ok(es) =>
        match RecordDepEdges(dep, readMap, writeMap)
        case Err(e) => Err(e)
        case Ok(more) =>
          assert forall e :: e in more <==> AddedBy(e, dep, readMap, writeMap);
          Ok(es + more)
  }

  /** The graph `PETGraphX.__init__` builds, or the exception it raises. */
  function BuildSpec(cus: seq<CuRecord>, deps: seq<DependenceItem>, loopData: map<string, int>,
                     readMap: map<string, seq<string>>, writeMap: map<string, seq<string>>): Result<Graph>
    requires DistinctIds(cus)
  {
    match ParseAll(cus)
    case Err(e) => Err(e)
    case Ok(ns) =>
      match DepEdges(deps, readMap, writeMap)
      case Err(e) => Err(e)
      case Ok(des) => Ok(Graph(Ids(cus), NodeTable(AllWithLoopIterations(ns, loopData)), StructuralEdges(cus) + des))
  }

  // ------------------------------------------------------- error persistence

  lemma {:induction false} ParseAllErrPersists(cus: seq<CuRecord>, k: nat)
    requires k <= |cus| && ParseAll(cus[..k]).Err?
    ensures ParseAll(cus) == ParseAll(cus[..k])
    decreases |cus|
  {
    if k < |cus| {
      var init := cus[..|cus| - 1];
      assert init[..k] == cus[..k];
      ParseAllErrPersists(init, k);
    } else {
      assert cus[..k] == cus;
    }
  }

  /** One more record: its node is appended, or its error becomes the result. */
  lemma ParseAllNext(cus: seq<CuRecord>, i: nat, parsed: seq<Node>)
    requires i < |cus| && ParseAll(cus[..i]) == Ok(parsed)
    ensures ParseAll(cus[..i + 1]) == match ParseCu(cus[i]) case Ok(n) => Ok(parsed + [n]) case Err(e) => Err(e)
  {
    assert cus[..i + 1][..i] == cus[..i];
  }

  lemma {:induction false} RowErrPersists(dep: DependenceItem, a: string, sources: seq<string>, k: nat)
    requires k <= |sources| && RowEdges(dep, a, sources[..k]).Err?
    ensures RowEdges(dep, a, sources) == RowEdges(dep, a, sources[..k])
    decreases |sources|
  {
    if k < |sources| {
      var init := sources[..|sources| - 1];
      assert init[..k] == sources[..k];
      RowErrPersists(dep, a, init, k);
    } else {
      assert sources[..k] == sources;
    }
  }

  lemma {:induction false} PairErrPersists(dep: DependenceItem, sinks: seq<string>, sources: seq<string>, k: nat)
    requires k <= |sinks| && PairEdges(dep, sinks[..k], sources).Err?
    ensures PairEdges(dep, sinks, sources) == PairEdges(dep, sinks[..k], sources)
    decreases |sinks|
  {
    if k < |sinks| {
      var init := sinks[..|sinks| - 1];
      assert init[..k] == sinks[..k];
      PairErrPersists(dep, init, sources, k);
    } else {
      assert sinks[..k] == sinks;
    }
  }

  lemma {:induction false} DepErrPersists(deps: seq<DependenceItem>, readMap: map<string, seq<string>>, writeMap: map<string, seq<string>>, k: nat)
    requires k <= |deps| && DepEdges(deps[..k], readMap, writeMap).Err?
    ensures DepEdges(deps, readMap, writeMap) == DepEdges(deps[..k], readMap, writeMap)
    decreases |deps|
  {
    if k < |deps| {
      var init := deps[..|deps| - 1];
      assert init[..k] == deps[..k];
      DepErrPersists(init, readMap, writeMap, k);
    } else {
      assert deps[..k] == deps;
    }
  }

  // ------------------------------------------------------------- the builder

  /** Adds the edges of one dependence record for one sink CU (the innermost loop). */
  method AddRow(dep: DependenceItem, a: string, sources: seq<string>) returns (r: Result<seq<Edge>>)
    ensures r == RowEdges(dep, a, sources)
  {
    var row: seq<Edge> := [];
    var j := 0;
    while j < |sources|
      invariant 0 <= j <= |sources|
      invariant RowEdges(dep, a, sources[..j]) == Ok(row)
    {
      var b := sources[j];
      assert sources[..j + 1][..j] == sources[..j];
      if a == b && (dep.dtype == "WAR" || dep.dtype == "WAW") {
        // a dependence inside one CU on a write is not an edge
      } else if a != "" && b != "" {
        var t := ParseDepType(dep.dtype);
        if t.None? {
          RowErrPersists(dep, a, sources, j + 1);
          return Err(KeyError("DepType"));
        }
        row := row + [DataEdge(a, b, dep, t.value)];
      }
      j := j + 1;
    }
    assert sources[..j] == sources;
    r := Ok(row);
  }

  /** The node pass: every record parsed, in order; the first failure is raised. */
  method ParseNodes(cus: seq<CuRecord>) returns (r: Result<seq<Node>>)
    ensures r == ParseAll(cus)
  {
    var parsed: seq<Node> := [];
    var i := 0;
    while i < |cus|
      invariant 0 <= i <= |cus|
      invariant ParseAll(cus[..i]) == Ok(parsed)
    {
      var n := ParseCu(cus[i]);
      ParseAllNext(cus, i, parsed);
      if n.Err? {
        ParseAllErrPersists(cus, i + 1);
        return Err(n.error);
      }
      parsed := parsed + [n.value];
      i := i + 1;
    }
    assert cus[..i] == cus;
    r := Ok(parsed);
  }

  /** The loop pass: every LOOP node, in node order, gets `loop_iterations` from the loop data. */
  method SetLoopIterations(parsed: seq<Node>, loopData: map<string, int>) returns (nodes: seq<Node>)
    ensures nodes == AllWithLoopIterations(parsed, loopData)
  {
    nodes := parsed;
    var i := 0;
    while i < |nodes|
      invariant 0 <= i <= |nodes| == |parsed|
      invariant forall k :: 0 <= k < i ==> nodes[k] == WithLoopIterations(parsed[k], loopData)
      invariant forall k :: i <= k < |nodes| ==> nodes[k] == parsed[k]
    {
      var n := nodes[i];
      if n.kind == Loop {
        var iterations := if StartPosition(n) in loopData then loopData[StartPosition(n)] else 0;
        nodes := nodes[i := n.(loopIterations := iterations)];
      }
      i := i + 1;
    }
  }

  /** The CHILD and SUCCESSOR pass, kept even when the target is not a node. */
  method AddStructuralEdges(cus: seq<CuRecord>) returns (edges: seq<Edge>)
    ensures edges == StructuralEdges(cus)
  {
    edges := [];
    var i := 0;
    while i < |cus|
      invariant 0 <= i <= |cus|
      invariant edges == StructuralEdges(cus[..i])
    {
      var rec := cus[i];
      var children: seq<Edge> := [];
      var j := 0;
      while j < |rec.children|
        invariant 0 <= j <= |rec.children|
        invariant children == seq(j, k requires 0 <= k < j => Edge(rec.id, rec.children[k], Structural(Child)))
      {
        children := children + [Edge(rec.id, rec.children[j], Structural(Child))];
        j := j + 1;
      }
      var successors: seq<Edge> := [];
      j := 0;
      while j < |rec.successors|
        invariant 0 <= j <= |rec.successors|
        invariant successors == seq(j, k requires 0 <= k < j => Edge(rec.id, rec.successors[k], Structural(Successor)))
      {
        successors := successors + [Edge(rec.id, rec.successors[j], Structural(Successor))];
        j := j + 1;
      }
      assert cus[..i + 1][..i] == cus[..i];
      edges := edges + (children + successors);
      i := i + 1;
    }
    assert cus[..i] == cus;
  }

  /** The edges of one non-INIT record, sinks outermost. */
  method AddPairs(dep: DependenceItem, sinks: seq<string>, sources: seq<string>) returns (r: Result<seq<Edge>>)
    ensures r == PairEdges(dep, sinks, sources)
  {
    var pairs: seq<Edge> := [];
    var j := 0;
    while j < |sinks|
      invariant 0 <= j <= |sinks|
      invariant PairEdges(dep, sinks[..j], sources) == Ok(pairs)
    {
      assert sinks[..j + 1][..j] == sinks[..j];
      var row := AddRow(dep, sinks[j], sources);
      if row.Err? {
        PairErrPersists(dep, sinks, sources, j + 1);
        return Err(row.error);
      }
      pairs := pairs + row.value;
      j := j + 1;
    }
    assert sinks[..j] == sinks;
    r := Ok(pairs);
  }

  /** The DATA pass over the dependence records. */
  method AddDependenceEdges(deps: seq<DependenceItem>, readMap: map<string, seq<string>>, writeMap: map<string, seq<string>>)
    returns (r: Result<seq<Edge>>)
    ensures r == DepEdges(deps, readMap, writeMap)
  {
    var dataEdges: seq<Edge> := [];
    var i := 0;
    while i < |deps|
      invariant 0 <= i <= |deps|
      invariant DepEdges(deps[..i], readMap, writeMap) == Ok(dataEdges)
    {
      var dep := deps[i];
      assert deps[..i + 1][..i] == deps[..i];
      if dep.dtype != "INIT" {
        if dep.sink !in readMap {
          DepErrPersists(deps, readMap, writeMap, i + 1);
          return Err(KeyError("readlineToCUIdMap"));
        }
        if dep.source !in writeMap {
          DepErrPersists(deps, readMap, writeMap, i + 1);
          return Err(KeyError("writelineToCUIdMap"));
        }
        var pairs := AddPairs(dep, readMap[dep.sink], writeMap[dep.source]);
        if pairs.Err? {
          DepErrPersists(deps, readMap, writeMap, i + 1);
          return Err(pairs.error);
        }
        dataEdges := dataEdges + pairs.value;
      } else {
        assert DepEdges(deps[..i + 1], readMap, writeMap) == Ok(dataEdges + []);
        assert dataEdges + [] == dataEdges;
      }
      i := i + 1;
    }
    assert deps[..i] == deps;
    r := Ok(dataEdges);
  }

  /** `PETGraphX.__init__` without the layout: nodes, loop iteration counts,
      CHILD/SUCCESSOR edges, then DATA edges from the dependence records. */
  method Build(cus: seq<CuRecord>, deps: seq<DependenceItem>, loopData: map<string, int>,
               readMap: map<string, seq<string>>, writeMap: map<string, seq<string>>) returns (r: Result<Graph>)
    requires DistinctIds(cus)
    ensures r == BuildSpec(cus, deps, loopData, readMap, writeMap)
  {
    var parsed := ParseNodes(cus);
    if parsed.Err? {
      return Err(parsed.error);
    }
    var loopsSet := SetLoopIterations(parsed.value, loopData);
    var nodes := NodeTable(loopsSet);
    var edges := AddStructuralEdges(cus);
    var dataEdges := AddDependenceEdges(deps, readMap, writeMap);
    if dataEdges.Err? {
      return Err(dataEdges.error);
    }
    r := Ok(Graph(Ids(cus), nodes, edges + dataEdges.value));
  }

  // -------------------------------------------------------------- properties

  /** The graph's vertices are the records' ids, in record order, each once. */
  lemma BuildOrder(cus: seq<CuRecord>, deps: seq<DependenceItem>, loopData: map<string, int>,
                   readMap: map<string, seq<string>>, writeMap: map<string, seq<string>>, g: Graph)
    requires DistinctIds(cus)
    requires BuildSpec(cus, deps, loopData, readMap, writeMap) == Ok(g)
    ensures g.order == Ids(cus) && OrderedNodes(g)
  {
    BuildSpecValue(cus, deps, loopData, readMap, writeMap);
    var ns := AllWithLoopIterations(ParseAll(cus).value, loopData);
    TableOrdered(cus, ns, g);
  }

  lemma TableOrdered(cus: seq<CuRecord>, ns: seq<Node>, g: Graph)
    requires DistinctIds(cus)
    requires |ns| == |cus| && forall i :: 0 <= i < |cus| ==> ns[i].id == cus[i].id
    requires g.order == Ids(cus) && g.nodes == NodeTable(ns)
    ensures OrderedNodes(g)
  {
    forall n ensures n in g.nodes <==> n in g.order {
      if n in g.nodes {
        var i :| 0 <= i < |ns| && ns[i].id == n;
        assert g.order[i] == n;
      }
      if n in g.order {
        var i :| 0 <= i < |g.order| && g.order[i] == n;
        assert ns[i].id == n;
      }
    }
  }

  /** Each record's node is its parse, with the loop iteration count filled in for LOOP nodes. */
  lemma BuildNodes(cus: seq<CuRecord>, deps: seq<DependenceItem>, loopData: map<string, int>,
                   readMap: map<string, seq<string>>, writeMap: map<string, seq<string>>, g: Graph)
    requires DistinctIds(cus)
    requires BuildSpec(cus, deps, loopData, readMap, writeMap) == Ok(g)
    ensures forall i :: 0 <= i < |cus| ==>
      && ParseCu(cus[i]).Ok?
      && g.nodes[cus[i].id] == WithLoopIterations(ParseCu(cus[i]).value, loopData)
  {
    BuildSpecValue(cus, deps, loopData, readMap, writeMap);
    var ns := AllWithLoopIterations(ParseAll(cus).value, loopData);
    assert g.nodes == NodeTable(ns);
  }

  /** Every LOOP node carries the count the loop data gives for its start position, 0 when absent. */
  lemma BuildLoopIterations(cus: seq<CuRecord>, deps: seq<DependenceItem>, loopData: map<string, int>,
                            readMap: map<string, seq<string>>, writeMap: map<string, seq<string>>, g: Graph, n: NodeId)
    requires DistinctIds(cus)
    requires BuildSpec(cus, deps, loopData, readMap, writeMap) == Ok(g)
    requires n in g.nodes && g.nodes[n].kind == Loop
    ensures g.nodes[n].loopIterations == if StartPosition(g.nodes[n]) in loopData then loopData[StartPosition(g.nodes[n])] else 0
  {
    BuildSpecValue(cus, deps, loopData, readMap, writeMap);
    var ps := ParseAll(cus).value;
    var ns := AllWithLoopIterations(ps, loopData);
    assert g.nodes == NodeTable(ns);
    var i :| 0 <= i < |ns| && ns[i].id == n;
    assert g.nodes[n] == ns[i] == WithLoopIterations(ps[i], loopData);
    assert ps[i].kind == Loop;
  }

  /** The edge list: exactly the CHILD/SUCCESSOR references of the records (dangling
      ones included) and the DATA edges the non-INIT dependence records add. */
  lemma BuildEdges(cus: seq<CuRecord>, deps: seq<DependenceItem>, loopData: map<string, int>,
                   readMap: map<string, seq<string>>, writeMap: map<string, seq<string>>, g: Graph, e: Edge)
    requires DistinctIds(cus)
    requires BuildSpec(cus, deps, loopData, readMap, writeMap) == Ok(g)
    ensures e in g.edges <==>
      || (exists i, j :: 0 <= i < |cus| && 0 <= j < |cus[i].children| && e == Edge(cus[i].id, cus[i].children[j], Structural(Child)))
      || (exists i, j :: 0 <= i < |cus| && 0 <= j < |cus[i].successors| && e == Edge(cus[i].id, cus[i].successors[j], Structural(Successor)))
      || (exists i :: 0 <= i < |deps| && AddedBy(e, deps[i], readMap, writeMap))
  {
    forall i | 0 <= i < |cus| {
      RecordEdgesMembers(cus[i], e);
    }
    BuildSpecValue(cus, deps, loopData, readMap, writeMap);
  }

  lemma RecordEdgesMembers(rec: CuRecord, e: Edge)
    ensures e in RecordEdges(rec) <==>
      || (exists j :: 0 <= j < |rec.children| && e == Edge(rec.id, rec.children[j], Structural(Child)))
      || (exists j :: 0 <= j < |rec.successors| && e == Edge(rec.id, rec.successors[j], Structural(Successor)))
  {
    var cs := seq(|rec.children|, j requires 0 <= j < |rec.children| => Edge(rec.id, rec.children[j], Structural(Child)));
    var ss := seq(|rec.successors|, j requires 0 <= j < |rec.successors| => Edge(rec.id, rec.successors[j], Structural(Successor)));
    assert RecordEdges(rec) == cs + ss;
    if e in cs {
      var j :| 0 <= j < |cs| && cs[j] == e;
    }
    if e in ss {
      var j :| 0 <= j < |ss| && ss[j] == e;
    }
    if exists j :: 0 <= j < |rec.children| && e == Edge(rec.id, rec.children[j], Structural(Child)) {
      var j :| 0 <= j < |rec.children| && e == Edge(rec.id, rec.children[j], Structural(Child));
      assert cs[j] == e;
    }
    if exists j :: 0 <= j < |rec.successors| && e == Edge(rec.id, rec.successors[j], Structural(Successor)) {
      var j :| 0 <= j < |rec.successors| && e == Edge(rec.id, rec.successors[j], Structural(Successor));
      assert ss[j] == e;
    }
  }

  lemma BuildSpecValue(cus: seq<CuRecord>, deps: seq<DependenceItem>, loopData: map<string, int>,
                       readMap: map<string, seq<string>>, writeMap: map<string, seq<string>>)
    requires DistinctIds(cus)
    requires BuildSpec(cus, deps, loopData, readMap, writeMap).Ok?
    ensures ParseAll(cus).Ok? && DepEdges(deps, readMap, writeMap).Ok?
    ensures BuildSpec(cus, deps, loopData, readMap, writeMap).value ==
      Graph(Ids(cus), NodeTable(AllWithLoopIterations(ParseAll(cus).value, loopData)),
            StructuralEdges(cus) + DepEdges(deps, readMap, writeMap).value)
  {
  }

  /** An INIT record anywhere in the list changes nothing. */
  lemma {:induction false} InitAddsNoEdge(before: seq<DependenceItem>, init: DependenceItem, after: seq<DependenceItem>,
                                          readMap: map<string, seq<string>>, writeMap: map<string, seq<string>>)
    requires init.dtype == "INIT"
    ensures DepEdges(before + [init] + after, readMap, writeMap) == DepEdges(before + after, readMap, writeMap)
    decreases |after|
  {
    var xs := before + [init] + after;
    var ys := before + after;
    if after == [] {
      assert xs[..|xs| - 1] == before && ys == before;
      match DepEdges(before, readMap, writeMap)
      case Err(_) =>
      case Ok(es) => assert es + [] == es;
    } else {
      var a' := after[..|after| - 1];
      assert xs[..|xs| - 1] == before + [init] + a';
      assert ys[..|ys| - 1] == before + a';
      InitAddsNoEdge(before, init, a', readMap, writeMap);
    }
  }

  /** Every edge built is typed as the graph requires: structural edges carry no
      dependence type, DATA edges do; and no WAR/WAW dependence becomes a self-loop. */
  lemma BuildTypedEdges(cus: seq<CuRecord>, deps: seq<DependenceItem>, loopData: map<string, int>,
                        readMap: map<string, seq<string>>, writeMap: map<string, seq<string>>, g: Graph)
    requires DistinctIds(cus)
    requires BuildSpec(cus, deps, loopData, readMap, writeMap) == Ok(g)
    ensures TypedEdges(g)
    ensures forall e :: e in g.edges && e.dep.etype == Data && e.s == e.t ==> e.dep.dtype == Some(Raw)
  {
    forall e | e in g.edges ensures (e.dep.etype == Data <==> e.dep.dtype.Some?)
      && (e.dep.etype == Data && e.s == e.t ==> e.dep.dtype == Some(Raw))
    {
      BuildEdges(cus, deps, loopData, readMap, writeMap, g, e);
    }
  }

  /** When every CHILD/SUCCESSOR reference and every CU id of the line maps names a
      record, no edge dangles. */
  lemma BuildClosed(cus: seq<CuRecord>, deps: seq<DependenceItem>, loopData: map<string, int>,
                    readMap: map<string, seq<string>>, writeMap: map<string, seq<string>>, g: Graph)
    requires DistinctIds(cus)
    requires BuildSpec(cus, deps, loopData, readMap, writeMap) == Ok(g)
    requires forall i :: 0 <= i < |cus| ==> forall c :: c in cus[i].children || c in cus[i].successors ==> c in Ids(cus)
    requires forall l :: l in readMap ==> forall c :: c in readMap[l] ==> c in Ids(cus)
    requires forall l :: l in writeMap ==> forall c :: c in writeMap[l] ==> c in Ids(cus)
    ensures Closed(g)
  {
    BuildOrder(cus, deps, loopData, readMap, writeMap, g);
    forall e | e in g.edges ensures e.s in g.nodes && e.t in g.nodes {
      BuildEdges(cus, deps, loopData, readMap, writeMap, g, e);
      if exists i, j :: 0 <= i < |cus| && 0 <= j < |cus[i].children| && e == Edge(cus[i].id, cus[i].children[j], Structural(Child)) {
        var i, j :| 0 <= i < |cus| && 0 <= j < |cus[i].children| && e == Edge(cus[i].id, cus[i].children[j], Structural(Child));
        assert cus[i].children[j] in cus[i].children;
        assert g.order[i] == e.s;
      } else if exists i, j :: 0 <= i < |cus| && 0 <= j < |cus[i].successors| && e == Edge(cus[i].id, cus[i].successors[j], Structural(Successor)) {
        var i, j :| 0 <= i < |cus| && 0 <= j < |cus[i].successors| && e == Edge(cus[i].id, cus[i].successors[j], Structural(Successor));
        assert cus[i].successors[j] in cus[i].successors;
        assert g.order[i] == e.s;
      }
    }
  }
}
