/** The FORK / WORKER / BARRIER / BARRIER_WORKER role machine of task
    parallelism, shared by `PatternDetector.detect_task_parallelism`
    (pattern_detection.py) and `__detect_mw_types` (task_parallelism_detector.py).
    The two differ only in the dependence relation they consult and in the
    newer one's rule that two RAW edges into the base child force BARRIER. */
module MwTypes {
  import opened Wrappers
  import opened PetGraph
  import opened PetState
  import opened PatternQueries

  /** `list.remove(x)`: drops the first occurrence of `x`. */
  function RemoveFirst(xs: seq<NodeId>, x: NodeId): (r: seq<NodeId>)
    requires x in xs
    ensures |r| == |xs| - 1 && multiset(r) == multiset(xs) - multiset{x}
    ensures forall y :: y in r ==> y in xs
  {
    if xs[0] == x then
      assert xs == [x] + xs[1..];
      xs[1..]
    else
      var rest := RemoveFirst(xs[1..], x);
      assert xs == [xs[0]] + xs[1..];
      [xs[0]] + rest
  }

  /** The number of RAW edges from `a` to `b`. */
  function RawEdgeCount(es: seq<Edge>, a: NodeId, b: NodeId): (c: nat)
    ensures c > 0 <==> exists e :: e in es && e.s == a && e.t == b && e.dep.dtype == Some(Raw)
  {
    if es == [] then 0
    else (if es[0].s == a && es[0].t == b && es[0].dep.dtype == Some(Raw) then 1 else 0) + RawEdgeCount(es[1..], a, b)
  }

  /** The base child of a pass: NONE and ROOT become FORK, other roles stay. */
  function BaseRole(r: MwType): MwType {
    if r == MwNone || r == Root then Fork else r
  }

  /** A sibling that depends on the base child: WORKER becomes BARRIER; any other role
      becomes WORKER, or BARRIER when the two-RAW-edge rule applies and holds. */
  function SiblingRole(r: MwType, rawTwice: bool, rawRule: bool): MwType {
    if r == Worker then Barrier
    else if rawRule && rawTwice then Barrier
    else Worker
  }

  /** The roles after visiting the siblings `others` of `base`, in list order. */
  function SiblingsPass(g: Graph, roles: map<NodeId, MwType>, base: NodeId, others: seq<NodeId>,
                        depends: (NodeId, NodeId) -> bool, rawRule: bool): (r: map<NodeId, MwType>)
    requires forall o :: o in others ==> o in roles
    ensures r.Keys == roles.Keys
    ensures forall n :: n in r && (n !in others || !depends(n, base)) ==> r[n] == roles[n]
    ensures forall n :: n in others && depends(n, base) ==> r[n] == Worker || r[n] == Barrier
    ensures forall n :: n in others && depends(n, base) && rawRule && RawEdgeCount(g.edges, n, base) >= 2 ==> r[n] == Barrier
    decreases |others|
  {
    if others == [] then roles
    else
      var init := others[..|others| - 1];
      var o := others[|others| - 1];
      assert forall n :: n in others <==> n in init || n == o;
      SiblingStep(g, SiblingsPass(g, roles, base, init, depends, rawRule), base, o, depends, rawRule)
  }

  /** The visit of one sibling `o`: its role changes only when it depends on the base child. */
  function SiblingStep(g: Graph, prev: map<NodeId, MwType>, base: NodeId, o: NodeId,
                       depends: (NodeId, NodeId) -> bool, rawRule: bool): map<NodeId, MwType>
    requires o in prev
  {
    if depends(o, base) then prev[o := SiblingRole(prev[o], RawEdgeCount(g.edges, o, base) >= 2, rawRule)]
    else prev
  }

  lemma SiblingsPassSnoc(g: Graph, roles: map<NodeId, MwType>, base: NodeId, xs: seq<NodeId>, o: NodeId,
                         depends: (NodeId, NodeId) -> bool, rawRule: bool)
    requires forall x :: x in xs ==> x in roles
    requires o in roles
    ensures SiblingsPass(g, roles, base, xs + [o], depends, rawRule)
            == SiblingStep(g, SiblingsPass(g, roles, base, xs, depends, rawRule), base, o, depends, rawRule)
  {
    assert (xs + [o])[..|xs|] == xs;
  }

  /** One pass with `base` as the base child. */
  function BaseStep(g: Graph, roles: map<NodeId, MwType>, children: seq<NodeId>, base: NodeId,
                    depends: (NodeId, NodeId) -> bool, rawRule: bool): (r: map<NodeId, MwType>)
    requires base in children && forall c :: c in children ==> c in roles
    ensures r.Keys == roles.Keys
    ensures forall n :: n in r && n !in children ==> r[n] == roles[n]
    ensures forall n :: n in r && r[n] == MwNone ==> roles[n] == MwNone
  {
    SiblingsPass(g, roles[base := BaseRole(roles[base])], base, RemoveFirst(children, base), depends, rawRule)
  }

  /** The roles after the passes over `children[..k]`, each child in turn the base. */
  function ChildrenPass(g: Graph, roles: map<NodeId, MwType>, children: seq<NodeId>, k: nat,
                        depends: (NodeId, NodeId) -> bool, rawRule: bool): (r: map<NodeId, MwType>)
    requires k <= |children| && forall c :: c in children ==> c in roles
    ensures r.Keys == roles.Keys
    ensures forall n :: n in r && n !in children ==> r[n] == roles[n]
    ensures forall n :: n in r && r[n] == MwNone ==> roles[n] == MwNone
  {
    if k == 0 then roles
    else
      var prev := ChildrenPass(g, roles, children, k - 1, depends, rawRule);
      BaseStep(g, prev, children, children[k - 1], depends, rawRule)
  }

  /** Some edge joins `a` and `b`, in either direction and of any type. */
  predicate Adjacent(g: Graph, a: NodeId, b: NodeId) {
    exists e :: e in g.edges && ((e.s == a && e.t == b) || (e.s == b && e.t == a))
  }

  predicate Paired(pairs: seq<(NodeId, NodeId)>, n: NodeId) {
    exists p :: p in pairs && (p.0 == n || p.1 == n)
  }

  /** `a` has some edge whose other end is `b` (the out-target and in-source lists of `a`). */
  function AdjacentIn(g: Graph, a: NodeId, b: NodeId): (r: bool)
    ensures r <==> Adjacent(g, a, b)
  {
    var outs := OutEdges(g, a, None);
    var ins := InEdges(g, a, None);
    var r := b in Targets(outs) || b in Sources(ins);
    assert r ==> Adjacent(g, a, b) by {
      if b in Targets(outs) { var i :| 0 <= i < |outs| && Targets(outs)[i] == b; assert outs[i] in outs; }
      else if b in Sources(ins) { var i :| 0 <= i < |ins| && Sources(ins)[i] == b; assert ins[i] in ins; }
    }
    assert Adjacent(g, a, b) ==> r by {
      if Adjacent(g, a, b) {
        var e :| e in g.edges && ((e.s == a && e.t == b) || (e.s == b && e.t == a));
        if e.s == a && e.t == b {
          var i :| 0 <= i < |outs| && outs[i] == e;
          assert Targets(outs)[i] == b;
        } else {
          var i :| 0 <= i < |ins| && ins[i] == e;
          assert Sources(ins)[i] == b;
        }
      }
    }
    r
  }

  /** The recorded pairs join distinct BARRIER children (roles `roles0`) with no edge between them. */
  ghost predicate PairsOk(g: Graph, children: seq<NodeId>, roles0: map<NodeId, MwType>, pairs: seq<(NodeId, NodeId)>) {
    forall p :: p in pairs ==>
      && p.0 != p.1 && p.0 in children && p.1 in children
      && p.0 in roles0 && p.1 in roles0 && roles0[p.0] == Barrier && roles0[p.1] == Barrier
      && !Adjacent(g, p.0, p.1)
  }

  /** Paired nodes are BARRIER_WORKER, every other node keeps its role in `roles0`. */
  ghost predicate RolesFollow(roles: map<NodeId, MwType>, roles0: map<NodeId, MwType>, pairs: seq<(NodeId, NodeId)>) {
    && roles.Keys == roles0.Keys
    && forall n :: n in roles ==> roles[n] == (if Paired(pairs, n) then BarrierWorker else roles0[n])
  }

  /** Pairing two unadjacent BARRIER children keeps both predicates. */
  lemma PairStep(g: Graph, children: seq<NodeId>, roles0: map<NodeId, MwType>, roles: map<NodeId, MwType>,
                 pairs: seq<(NodeId, NodeId)>, n1: NodeId, n2: NodeId)
    requires PairsOk(g, children, roles0, pairs) && RolesFollow(roles, roles0, pairs)
    requires n1 != n2 && n1 in children && n2 in children && n1 in roles0 && roles0[n1] == Barrier
    requires n2 in roles && roles[n2] == Barrier && !Adjacent(g, n1, n2)
    ensures PairsOk(g, children, roles0, pairs + [(n1, n2)])
    ensures RolesFollow(roles[n1 := BarrierWorker][n2 := BarrierWorker], roles0, pairs + [(n1, n2)])
  {
    var pairs' := pairs + [(n1, n2)];
    var roles' := roles[n1 := BarrierWorker][n2 := BarrierWorker];
    assert !Paired(pairs, n2) && roles0[n2] == Barrier;
    forall n | n in roles' ensures roles'[n] == (if Paired(pairs', n) then BarrierWorker else roles0[n]) {
      if n == n1 || n == n2 {
        assert (n1, n2) in pairs';
      } else {
        assert Paired(pairs', n) <==> Paired(pairs, n) by {
          if Paired(pairs', n) {
            var p :| p in pairs' && (p.0 == n || p.1 == n);
            assert p in pairs;
          }
        }
      }
    }
  }

  /** The roles after the scan over `rest` for the BARRIER child `n1`: each BARRIER
      sibling with no edge to `n1` is paired with it, and the scan stops at the
      first BARRIER sibling adjacent to it. */
  ghost function PairScan(g: Graph, roles: map<NodeId, MwType>, n1: NodeId, rest: seq<NodeId>): (r: map<NodeId, MwType>)
    requires n1 in roles
    ensures r.Keys == roles.Keys
    ensures forall n :: n in r && r[n] != roles[n] ==> r[n] == BarrierWorker && (n == n1 || roles[n] == Barrier)
    decreases |rest|
  {
    if rest == [] then roles
    else
      var n2 := rest[0];
      if n2 in roles && roles[n2] == Barrier && n1 != n2 then
        if Adjacent(g, n1, n2) then roles
        else PairScan(g, roles[n1 := BarrierWorker][n2 := BarrierWorker], n1, rest[1..])
      else PairScan(g, roles, n1, rest[1..])
  }

  /** The roles after the pairing loop over the children `rest`, each BARRIER one
      scanning all of `children`. */
  ghost function PairAll(g: Graph, roles: map<NodeId, MwType>, children: seq<NodeId>, rest: seq<NodeId>): (r: map<NodeId, MwType>)
    ensures r.Keys == roles.Keys
    ensures forall n :: n in r && r[n] != roles[n] ==> r[n] == BarrierWorker && roles[n] == Barrier
    decreases |rest|
  {
    if rest == [] then roles
    else
      var n1 := rest[0];
      var next := if n1 in roles && roles[n1] == Barrier then PairScan(g, roles, n1, children) else roles;
      PairAll(g, next, children, rest[1..])
  }

  /** The roles after the BARRIER_WORKER phase over `children`. */
  ghost function PairRoles(g: Graph, roles: map<NodeId, MwType>, children: seq<NodeId>): (r: map<NodeId, MwType>)
    ensures r.Keys == roles.Keys
    ensures forall n :: n in r && r[n] != roles[n] ==> r[n] == BarrierWorker && roles[n] == Barrier
  {
    PairAll(g, roles, children, children)
  }

  /** The scan over `n2` for one BARRIER child `n1`: pairs it with each later-unadjacent
      BARRIER child until the first BARRIER child adjacent to it. */
  method PairWith(pet: Pet, n1: NodeId, children: seq<NodeId>, ghost roles0: map<NodeId, MwType>, pairs0: seq<(NodeId, NodeId)>)
    returns (pairs: seq<(NodeId, NodeId)>)
    requires n1 in children && n1 in roles0 && roles0[n1] == Barrier
    requires PairsOk(pet.g, children, roles0, pairs0) && RolesFollow(pet.mwType, roles0, pairs0)
    modifies pet`mwType
    ensures PairsOk(pet.g, children, roles0, pairs) && RolesFollow(pet.mwType, roles0, pairs)
    ensures pet.mwType == PairScan(pet.g, old(pet.mwType), n1, children)
  {
    pairs := pairs0;
    var j := 0;
    while j < |children|
      invariant 0 <= j <= |children|
      invariant PairsOk(pet.g, children, roles0, pairs) && RolesFollow(pet.mwType, roles0, pairs)
      invariant PairScan(pet.g, pet.mwType, n1, children[j..]) == PairScan(pet.g, old(pet.mwType), n1, children)
    {
      var stop;
      pairs, stop := ScanAt(pet, n1, children, j, roles0, pairs);
      if stop {
        break;
      }
      j := j + 1;
    }
  }

  /** One round of the scan for `n1`: `children[j]` is paired with it, ends the scan,
      or is passed over. */
  method ScanAt(pet: Pet, n1: NodeId, children: seq<NodeId>, j: nat, ghost roles0: map<NodeId, MwType>,
                pairs0: seq<(NodeId, NodeId)>)
    returns (pairs: seq<(NodeId, NodeId)>, stop: bool)
    requires j < |children| && n1 in children && n1 in roles0 && roles0[n1] == Barrier
    requires PairsOk(pet.g, children, roles0, pairs0) && RolesFollow(pet.mwType, roles0, pairs0)
    modifies pet`mwType
    ensures PairsOk(pet.g, children, roles0, pairs) && RolesFollow(pet.mwType, roles0, pairs)
    ensures PairScan(pet.g, old(pet.mwType), n1, children[j..])
            == if stop then pet.mwType else PairScan(pet.g, pet.mwType, n1, children[j + 1..])
  {
    pairs, stop := pairs0, false;
    var n2 := children[j];
    assert children[j..][0] == n2 && children[j..][1..] == children[j + 1..];
    if n2 in pet.mwType && pet.mwType[n2] == Barrier && n1 != n2 {
      if AdjacentIn(pet.g, n1, n2) {
        stop := true;
      } else {
        PairStep(pet.g, children, roles0, pet.mwType, pairs, n1, n2);
        pairs := pairs + [(n1, n2)];
        pet.mwType := pet.mwType[n1 := BarrierWorker][n2 := BarrierWorker];
      }
    }
  }

  /** The BARRIER_WORKER phase: two distinct BARRIER children with no edge between
      them form a pair and both become BARRIER_WORKER; for each `n1` the scan over
      `n2` stops at the first BARRIER child adjacent to it. */
  method PairBarriers(pet: Pet, children: seq<NodeId>) returns (pairs: seq<(NodeId, NodeId)>)
    requires forall c :: c in children ==> c in pet.mwType
    modifies pet`mwType
    ensures PairsOk(pet.g, children, old(pet.mwType), pairs) && RolesFollow(pet.mwType, old(pet.mwType), pairs)
    ensures pet.mwType == PairRoles(pet.g, old(pet.mwType), children)
  {
    pairs := [];
    ghost var roles0 := pet.mwType;
    var i := 0;
    while i < |children|
      invariant 0 <= i <= |children|
      invariant PairsOk(pet.g, children, roles0, pairs) && RolesFollow(pet.mwType, roles0, pairs)
      invariant pet.mwType.Keys == roles0.Keys
      invariant PairAll(pet.g, pet.mwType, children, children[i..]) == PairRoles(pet.g, roles0, children)
    {
      var n1 := children[i];
      if pet.mwType[n1] == Barrier {
        pairs := PairWith(pet, n1, children, roles0, pairs);
      }
      i := i + 1;
    }
  }

  /** The role pass with `base` as base child, over its siblings. */
  method VisitSiblings(pet: Pet, base: NodeId, others: seq<NodeId>, depends: (NodeId, NodeId) -> bool, rawRule: bool)
    requires forall o :: o in others ==> o in pet.mwType
    modifies pet`mwType
    ensures pet.mwType == SiblingsPass(pet.g, old(pet.mwType), base, others, depends, rawRule)
  {
    for k := 0 to |others|
      invariant pet.mwType == SiblingsPass(pet.g, old(pet.mwType), base, others[..k], depends, rawRule)
    {
      var o := others[k];
      assert others[..k + 1] == others[..k] + [o];
      SiblingsPassSnoc(pet.g, old(pet.mwType), base, others[..k], o, depends, rawRule);
      pet.mwType := VisitSibling(pet.g, pet.mwType, base, o, depends, rawRule);
    }
    assert others[..|others|] == others;
  }

  /** One sibling of `__detect_task_parallelism`'s inner loop, computed on the role table. */
  method VisitSibling(g: Graph, roles: map<NodeId, MwType>, base: NodeId, o: NodeId,
                      depends: (NodeId, NodeId) -> bool, rawRule: bool) returns (r: map<NodeId, MwType>)
    requires o in roles
    ensures r == SiblingStep(g, roles, base, o, depends, rawRule)
  {
    r := roles;
    if depends(o, base) {
      var role: MwType;
      if roles[o] == Worker {
        role := Barrier;
      } else {
        role := Worker;
        var rawCount := RawEdgeCount(OutEdges(g, o, None), o, base);
        RawCountOut(g, o, base);
        if rawRule && rawCount >= 2 {
          role := Barrier;
        }
      }
      r := roles[o := role];
    }
  }


  /** One pass with `node` as the base child. */
  method BasePass(pet: Pet, children: seq<NodeId>, node: NodeId, depends: (NodeId, NodeId) -> bool, rawRule: bool)
    requires node in children && forall c :: c in children ==> c in pet.mwType
    modifies pet`mwType
    ensures pet.mwType == BaseStep(pet.g, old(pet.mwType), children, node, depends, rawRule)
  {
    if pet.mwType[node] == MwNone || pet.mwType[node] == Root {
      pet.mwType := pet.mwType[node := Fork];
    }
    assert pet.mwType == old(pet.mwType)[node := BaseRole(old(pet.mwType)[node])];
    var others := RemoveFirst(children, node);
    VisitSiblings(pet, node, others, depends, rawRule);
  }

  /** Counting over the out-edges of `a` counts every RAW edge from `a` to `b`. */
  lemma {:induction false} RawCountOut(g: Graph, a: NodeId, b: NodeId)
    ensures RawEdgeCount(OutEdges(g, a, None), a, b) == RawEdgeCount(g.edges, a, b)
  {
    RawCountIncident(g.edges, a, b);
  }

  lemma {:induction false} RawCountIncident(es: seq<Edge>, a: NodeId, b: NodeId)
    ensures RawEdgeCount(Incident(es, a, None, true), a, b) == RawEdgeCount(es, a, b)
  {
    if es != [] {
      RawCountIncident(es[1..], a, b);
    }
  }

  /** The roles after the detection with `main` as main node: the passes over its
      CHILD children, then the BARRIER_WORKER pairing among them. */
  ghost function DetectSpec(g: Graph, m: map<NodeId, MwType>, main: NodeId,
                            depends: (NodeId, NodeId) -> bool, rawRule: bool): (r: map<NodeId, MwType>)
    requires Wf(g) && m.Keys == g.nodes.Keys
    ensures r.Keys == m.Keys
    ensures forall n :: n in r && r[n] == MwNone ==> m[n] == MwNone
  {
    var children := ChildSubnodes(g, main);
    PairRoles(g, ChildrenPass(g, m, children, |children|, depends, rawRule), children)
  }

  /** The roles after the detection with `v` as main node, run only when `v` has CHILD edges. */
  ghost function ParentStep(g: Graph, m: map<NodeId, MwType>, v: NodeId,
                            depends: (NodeId, NodeId) -> bool, rawRule: bool): (r: map<NodeId, MwType>)
    requires Wf(g) && m.Keys == g.nodes.Keys
    ensures r.Keys == m.Keys
  {
    if FindSubnodes(g, v, "child") != [] then DetectSpec(g, m, v, depends, rawRule) else m
  }

  /** The roles after one round of the vertex loop at `v`: nothing for a DUMMY node;
      otherwise the detection with `v` as main node when it has CHILD edges, then
      ROOT for `v` if it is still NONE. */
  ghost function RoleStep(g: Graph, m: map<NodeId, MwType>, v: NodeId,
                          depends: (NodeId, NodeId) -> bool, rawRule: bool): (r: map<NodeId, MwType>)
    requires Wf(g) && m.Keys == g.nodes.Keys && v in g.nodes
    ensures r.Keys == m.Keys
  {
    if g.nodes[v].kind == Dummy then m
    else
      var m1 := ParentStep(g, m, v, depends, rawRule);
      if m1[v] == MwNone then m1[v := Root] else m1
  }

  /** The roles after the rounds of the vertex loop at `vs`, in order. */
  ghost function RolesAfter(g: Graph, m: map<NodeId, MwType>, vs: seq<NodeId>,
                            depends: (NodeId, NodeId) -> bool, rawRule: bool): (r: map<NodeId, MwType>)
    requires Wf(g) && m.Keys == g.nodes.Keys && forall v :: v in vs ==> v in g.nodes
    ensures r.Keys == m.Keys
    decreases |vs|
  {
    if vs == [] then m
    else
      var init := vs[..|vs| - 1];
      assert forall v :: v in init ==> v in vs;
      RoleStep(g, RolesAfter(g, m, init, depends, rawRule), vs[|vs| - 1], depends, rawRule)
  }

  /** `__detect_mw_types(main_node)` (or the legacy `detect_task_parallelism`): the
      passes over the CHILD children of `main`, then the BARRIER_WORKER pairing. */
  method DetectMwTypes(pet: Pet, main: NodeId, depends: (NodeId, NodeId) -> bool, rawRule: bool)
    returns (pairs: seq<(NodeId, NodeId)>)
    requires pet.Valid() && main in pet.g.nodes
    modifies pet`mwType
    ensures pet.Valid()
    ensures var children := FindSubnodes(pet.g, main, "child");
            var mid := ChildrenPass(pet.g, old(pet.mwType), children, |children|, depends, rawRule);
            PairsOk(pet.g, children, mid, pairs) && RolesFollow(pet.mwType, mid, pairs)
    ensures pet.mwType == DetectSpec(pet.g, old(pet.mwType), main, depends, rawRule)
    ensures NoNewNoneIn(old(pet.mwType), pet.mwType)
  {
    var children := ChildSubnodes(pet.g, main);
    ghost var m0 := pet.mwType;
    ChildPasses(pet, children, depends, rawRule);
    ghost var mid := pet.mwType;
    pairs := PairBarriers(pet, children);
    DetectSpecFrom(pet.g, m0, main, depends, rawRule, children, mid, pet.mwType);
  }

  /** The two passes of `DetectMwTypes` compose to `DetectSpec`. */
  lemma DetectSpecFrom(g: Graph, m: map<NodeId, MwType>, main: NodeId, depends: (NodeId, NodeId) -> bool,
                       rawRule: bool, children: seq<NodeId>, mid: map<NodeId, MwType>, r: map<NodeId, MwType>)
    requires Wf(g) && m.Keys == g.nodes.Keys && children == FindSubnodes(g, main, "child")
    requires forall c :: c in children ==> c in m
    requires mid == ChildrenPass(g, m, children, |children|, depends, rawRule)
    requires r == PairRoles(g, mid, children)
    ensures r == DetectSpec(g, m, main, depends, rawRule)
    ensures r.Keys == g.nodes.Keys && NoNewNoneIn(m, r)
  {
  }

  /** `find_subnodes(node, 'child')`, whose targets are nodes of a well-formed graph. */
  function ChildSubnodes(g: Graph, n: NodeId): (r: seq<NodeId>)
    requires Wf(g)
    ensures r == FindSubnodes(g, n, "child")
    ensures forall c :: c in r ==> c in g.nodes
  {
    var r := FindSubnodes(g, n, "child");
    assert forall c :: c in r ==> c in g.nodes by {
      forall c | c in r ensures c in g.nodes {
        var e :| e in g.edges && e.s == n && EdgeLabel(e.dep.etype) == "child" && e.t == c;
      }
    }
    r
  }

  /** The passes over `children`, each child in turn the base. */
  method ChildPasses(pet: Pet, children: seq<NodeId>, depends: (NodeId, NodeId) -> bool, rawRule: bool)
    requires forall c :: c in children ==> c in pet.mwType
    modifies pet`mwType
    ensures pet.mwType == ChildrenPass(pet.g, old(pet.mwType), children, |children|, depends, rawRule)
  {
    var i := 0;
    while i < |children|
      invariant 0 <= i <= |children|
      invariant pet.mwType == ChildrenPass(pet.g, old(pet.mwType), children, i, depends, rawRule)
    {
      NextPass(pet, old(pet.mwType), children, i, depends, rawRule);
      i := i + 1;
    }
  }

  /** The pass with `children[i]` as the base child, after the passes before it. */
  method NextPass(pet: Pet, ghost roles: map<NodeId, MwType>, children: seq<NodeId>, i: nat,
                  depends: (NodeId, NodeId) -> bool, rawRule: bool)
    requires i < |children| && forall c :: c in children ==> c in roles
    requires pet.mwType == ChildrenPass(pet.g, roles, children, i, depends, rawRule)
    modifies pet`mwType
    ensures pet.mwType == ChildrenPass(pet.g, roles, children, i + 1, depends, rawRule)
  {
    assert children[i] in children;
    BasePass(pet, children, children[i], depends, rawRule);
  }

  /** Running the role machine never turns a role into NONE. */
  lemma NoNewNone(pet0: map<NodeId, MwType>, mid: map<NodeId, MwType>, final: map<NodeId, MwType>, pairs: seq<(NodeId, NodeId)>)
    requires mid.Keys == pet0.Keys
    requires forall n :: n in mid && mid[n] == MwNone ==> pet0[n] == MwNone
    requires RolesFollow(final, mid, pairs)
    ensures forall n :: n in final && final[n] == MwNone ==> pet0[n] == MwNone
  {
  }

  /** `__detect_task_parallelism_loop` and the first loop of `run_detection`: every
      non-DUMMY node with a CHILD edge is a main node in turn, in vertex order, and a
      node still NONE afterwards becomes ROOT. */
  method AssignRoles(pet: Pet, depends: (NodeId, NodeId) -> bool, rawRule: bool)
    requires pet.Valid()
    modifies pet`mwType
    ensures pet.Valid()
    ensures forall n :: n in pet.g.nodes && pet.g.nodes[n].kind != Dummy ==> pet.mwType[n] != MwNone
    ensures forall n :: n in pet.g.nodes && pet.mwType[n] == MwNone ==> old(pet.mwType)[n] == MwNone
    ensures pet.mwType == RolesAfter(pet.g, old(pet.mwType), pet.g.order, depends, rawRule)
  {
    VisitInOrder(pet, depends, rawRule);
    RolesSetOnAll(pet.g, pet.mwType);
  }

  /** The loop over the vertices in order. */
  method VisitInOrder(pet: Pet, depends: (NodeId, NodeId) -> bool, rawRule: bool)
    requires pet.Valid()
    modifies pet`mwType
    ensures pet.Valid()
    ensures RolesSetOn(pet.g, pet.g.order, pet.mwType) && NoNewNoneIn(old(pet.mwType), pet.mwType)
    ensures pet.mwType == RolesAfter(pet.g, old(pet.mwType), pet.g.order, depends, rawRule)
  {
    ghost var m0 := pet.mwType;
    for i := 0 to |pet.g.order|
      invariant pet.Valid()
      invariant RolesSetOn(pet.g, pet.g.order[..i], pet.mwType) && NoNewNoneIn(m0, pet.mwType)
      invariant pet.mwType == RolesAfter(pet.g, m0, pet.g.order[..i], depends, rawRule)
    {
      VisitAt(pet, i, m0, depends, rawRule);
    }
    RolesOnWhole(pet.g, m0, pet.g.order, pet.mwType, depends, rawRule);
  }

  /** The loop invariants at the end of the vertex loop, stated for the whole order. */
  lemma RolesOnWhole(g: Graph, m0: map<NodeId, MwType>, xs: seq<NodeId>, m: map<NodeId, MwType>,
                     depends: (NodeId, NodeId) -> bool, rawRule: bool)
    requires Wf(g) && m0.Keys == g.nodes.Keys && forall v :: v in xs ==> v in g.nodes
    requires RolesSetOn(g, xs[..|xs|], m) && m == RolesAfter(g, m0, xs[..|xs|], depends, rawRule)
    ensures RolesSetOn(g, xs, m) && m == RolesAfter(g, m0, xs, depends, rawRule)
  {
    assert xs[..|xs|] == xs;
  }

  /** One round of the loop over the vertices. */
  method VisitAt(pet: Pet, i: nat, ghost m0: map<NodeId, MwType>, depends: (NodeId, NodeId) -> bool, rawRule: bool)
    requires pet.Valid() && i < |pet.g.order|
    requires RolesSetOn(pet.g, pet.g.order[..i], pet.mwType) && NoNewNoneIn(m0, pet.mwType)
    requires m0.Keys == pet.g.nodes.Keys && pet.mwType == RolesAfter(pet.g, m0, pet.g.order[..i], depends, rawRule)
    modifies pet`mwType
    ensures pet.Valid()
    ensures RolesSetOn(pet.g, pet.g.order[..i + 1], pet.mwType) && NoNewNoneIn(m0, pet.mwType)
    ensures pet.mwType == RolesAfter(pet.g, m0, pet.g.order[..i + 1], depends, rawRule)
  {
    ghost var before := pet.mwType;
    RolesAfterNext(pet.g, m0, pet.g.order, i, depends, rawRule);
    AssignRoleAt(pet, pet.g.order[i], depends, rawRule);
    NoNewNoneTrans(m0, before, pet.mwType);
    RolesSetOnStep(pet.g, pet.g.order, i, before, pet.mwType);
  }

  /** One more round of the vertex loop. */
  lemma RolesAfterNext(g: Graph, m: map<NodeId, MwType>, order: seq<NodeId>, i: nat,
                       depends: (NodeId, NodeId) -> bool, rawRule: bool)
    requires Wf(g) && m.Keys == g.nodes.Keys && i < |order| && forall v :: v in order ==> v in g.nodes
    ensures RolesAfter(g, m, order[..i + 1], depends, rawRule)
            == RoleStep(g, RolesAfter(g, m, order[..i], depends, rawRule), order[i], depends, rawRule)
  {
    assert order[..i + 1][..i] == order[..i];
  }

  /** With every vertex visited, every non-DUMMY node has a role. */
  lemma RolesSetOnAll(g: Graph, m: map<NodeId, MwType>)
    requires Wf(g) && RolesSetOn(g, g.order, m)
    ensures forall n :: n in g.nodes && g.nodes[n].kind != Dummy ==> n in m && m[n] != MwNone
  {
  }

  /** Every non-DUMMY node of `xs` has a role other than NONE in `m`. */
  ghost predicate RolesSetOn(g: Graph, xs: seq<NodeId>, m: map<NodeId, MwType>) {
    forall n :: n in xs && n in g.nodes && g.nodes[n].kind != Dummy ==> n in m && m[n] != MwNone
  }

  lemma RolesSetOnStep(g: Graph, order: seq<NodeId>, i: nat, m0: map<NodeId, MwType>, m1: map<NodeId, MwType>)
    requires i < |order| && RolesSetOn(g, order[..i], m0) && NoNewNoneIn(m0, m1)
    requires order[i] in g.nodes && g.nodes[order[i]].kind != Dummy ==> order[i] in m1 && m1[order[i]] != MwNone
    ensures RolesSetOn(g, order[..i + 1], m1)
  {
    assert order[..i + 1] == order[..i] + [order[i]];
  }

  /** No node has become NONE between `m0` and `m1`. */
  ghost predicate NoNewNoneIn(m0: map<NodeId, MwType>, m1: map<NodeId, MwType>)
  {
    && m1.Keys == m0.Keys
    && forall n :: n in m1 && m1[n] == MwNone ==> m0[n] == MwNone
  }

  lemma NoNewNoneTrans(m0: map<NodeId, MwType>, m1: map<NodeId, MwType>, m2: map<NodeId, MwType>)
    requires NoNewNoneIn(m0, m1) && NoNewNoneIn(m1, m2)
    ensures NoNewNoneIn(m0, m2)
  {
  }

  /** One step of the loop: the detection with `node` as main node when it has
      CHILD edges, then ROOT for a node left NONE. */
  method AssignRoleAt(pet: Pet, node: NodeId, depends: (NodeId, NodeId) -> bool, rawRule: bool)
    requires pet.Valid() && node in pet.g.nodes
    modifies pet`mwType
    ensures pet.Valid()
    ensures NoNewNoneIn(old(pet.mwType), pet.mwType)
    ensures pet.g.nodes[node].kind != Dummy ==> pet.mwType[node] != MwNone
    ensures pet.mwType == RoleStep(pet.g, old(pet.mwType), node, depends, rawRule)
  {
    if pet.g.nodes[node].kind != Dummy {
      DetectIfParent(pet, node, depends, rawRule);
      ghost var mid := pet.mwType;
      SetRootIfNone(pet, node);
      NoNewNoneTrans(old(pet.mwType), mid, pet.mwType);
    }
  }

  /** The detection with `node` as main node, when `node` has CHILD edges. */
  method DetectIfParent(pet: Pet, node: NodeId, depends: (NodeId, NodeId) -> bool, rawRule: bool)
    requires pet.Valid() && node in pet.g.nodes
    modifies pet`mwType
    ensures pet.Valid()
    ensures NoNewNoneIn(old(pet.mwType), pet.mwType)
    ensures pet.mwType == ParentStep(pet.g, old(pet.mwType), node, depends, rawRule)
  {
    if FindSubnodes(pet.g, node, "child") != [] {
      var pairs := DetectMwTypes(pet, node, depends, rawRule);
    }
  }

  /** A node whose role is still NONE becomes ROOT. */
  method SetRootIfNone(pet: Pet, node: NodeId)
    requires pet.Valid() && node in pet.g.nodes
    modifies pet`mwType
    ensures pet.Valid()
    ensures pet.mwType == if old(pet.mwType)[node] == MwNone then old(pet.mwType)[node := Root] else old(pet.mwType)
    ensures NoNewNoneIn(old(pet.mwType), pet.mwType) && pet.mwType[node] != MwNone
  {
    if pet.mwType[node] == MwNone {
      pet.mwType := pet.mwType[node := Root];
    }
  }
}
