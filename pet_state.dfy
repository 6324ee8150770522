/** The vertex property maps that the detectors read and write on the program
    execution tree: the role of each unit in task parallelism, the pattern flags
    and the visualisation flags of the barrier pass. */
module PetState {
  import opened PetGraph

  /** The `mwType` vertex property. */
  datatype MwType = MwNone | Root | Fork | Worker | Barrier | BarrierWorker

  /** The `pipeline` vertex property: a plain score, or the two vectors whose
      cosine the legacy detector stores (the cosine itself is not computed here). */
  datatype PipelineValue = Score(value: real) | Cosine(graphVector: seq<real>, pipelineVector: seq<real>)

  /** A graph together with its mutable vertex properties. Each boolean property
      is the set of nodes on which it is true; the string-valued flags
      `viz_contains_task`, `viz_contains_taskwait` and `viz_omittable` are true
      exactly on the nodes where they hold 'True'. */
  class Pet {
    var g: Graph
    var mwType: map<NodeId, MwType>
    var pipeline: map<NodeId, PipelineValue>
    var doAll: set<NodeId>
    var reduction: set<NodeId>
    var geomDecomp: set<NodeId>
    var vizContainsTask: set<NodeId>
    var vizContainsTaskwait: set<NodeId>
    var vizOmittable: set<NodeId>
    const reductionVars: seq<ReductionFact>
    const main: NodeId

    ghost predicate Valid()
      reads this`g, this`mwType, this`pipeline
    {
      && Wf(g)
      && main in g.nodes
      && mwType.Keys == g.nodes.Keys
      && pipeline.Keys == g.nodes.Keys
    }

    /** Sets `pipeline` of `n` (the node attribute the pipeline pass writes). */
    method SetPipeline(n: NodeId, v: PipelineValue)
      requires Valid() && n in g.nodes
      modifies this`pipeline
      ensures Valid() && pipeline == old(pipeline)[n := v]
      ensures g == old(g) && mwType == old(mwType) && doAll == old(doAll) && reduction == old(reduction)
    {
      pipeline := pipeline[n := v];
    }

    /** Sets the reduction flag of `n`. */
    method MarkReduction(n: NodeId)
      modifies this`reduction
      ensures reduction == old(reduction) + {n}
      ensures g == old(g) && mwType == old(mwType) && pipeline == old(pipeline) && doAll == old(doAll)
    {
      reduction := reduction + {n};
    }

    /** Sets the do-all flag of `n`. */
    method MarkDoAll(n: NodeId)
      modifies this`doAll
      ensures doAll == old(doAll) + {n}
      ensures g == old(g) && mwType == old(mwType) && pipeline == old(pipeline) && reduction == old(reduction)
    {
      doAll := doAll + {n};
    }

    /** Sets the geometric-decomposition flag of `n`. */
    method MarkGeomDecomp(n: NodeId)
      modifies this`geomDecomp
      ensures geomDecomp == old(geomDecomp) + {n}
      ensures g == old(g) && mwType == old(mwType) && pipeline == old(pipeline)
      ensures doAll == old(doAll) && reduction == old(reduction)
    {
      geomDecomp := geomDecomp + {n};
    }

    /** A fresh graph with the property defaults: role FORK, pipeline 0, every flag false. */
    constructor (g0: Graph, reductionVars0: seq<ReductionFact>, main0: NodeId)
      requires Wf(g0) && main0 in g0.nodes
      ensures Valid()
      ensures g == g0 && reductionVars == reductionVars0 && main == main0
      ensures forall n :: n in g.nodes ==> mwType[n] == Fork && pipeline[n] == Score(0.0)
      ensures doAll == {} && reduction == {} && geomDecomp == {}
      ensures vizContainsTask == {} && vizContainsTaskwait == {} && vizOmittable == {}
    {
      g := g0;
      mwType := map n | n in g0.nodes :: Fork;
      pipeline := map n | n in g0.nodes :: Score(0.0);
      doAll, reduction, geomDecomp := {}, {}, {};
      vizContainsTask, vizContainsTaskwait, vizOmittable := {}, {}, {};
      reductionVars := reductionVars0;
      main := main0;
    }
  }

  /** Removing edges keeps a graph well-formed. */
  lemma FewerEdgesWf(g: Graph, es: seq<Edge>)
    requires Wf(g)
    requires forall e :: e in es ==> e in g.edges
    ensures Wf(g.(edges := es))
  {
    assert RankedBy(g.(edges := es), RankOf(g));
  }
}
