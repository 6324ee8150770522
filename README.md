# DiscoPoP pattern detection, modelled in Dafny

DiscoPoP's pattern detector reads a Program Execution Tree (PET). The PET is a graph of computational units (CU), functions (FUNC), loops (LOOP) and DUMMY nodes. CHILD and SUCCESSOR edges give its structure; DATA edges carry the RAW, WAR and WAW dependences that profiling found. The detector marks loops as do-all, reduction, pipeline or geometric-decomposition candidates, and it assigns the roles FORK, WORKER, BARRIER and BARRIER_WORKER to units. From those roles it builds a task tree and emits task, taskwait, parallel-region and taskloop-reduction suggestions.

The project models this core:

- `pet_graph.dfy`, `pet_build.dfy`, `pet_state.dfy` model the graph layer, `PETGraphX`:
  - node ids, positions and the graph value;
  - building the graph from unit records and dependence records;
  - the typed subtree and child queries;
  - the dependence filter that ignores loop indices and read-only variables;
  - the mutable vertex properties, as the class `Pet`.
- `pattern_queries.dfy`, `legacy_vectors.dfy`, `legacy_detector.dfy` model the older `PatternDetector`:
  - its own query versions;
  - the pipeline and do-all vectors;
  - the `__detect_*` passes, which write the vertex properties;
  - dummy-edge pruning;
  - the pass order of `detect_patterns`.
- `loop_iterations.dfy` and `geometric_decomposition.dfy` model the geometric-decomposition detector:
  - the iteration-count cache, as the class `IterationCache`;
  - the chunk-limit test;
  - the qualifying predicate in both polarities;
  - the task-count bucketing;
  - `run_detection`.
- The remaining files model the task-parallelism detector:
  - the role state machine, `mw_types.dfy`;
  - the task tree and its merging, `task_tree.dfy`;
  - the breadth-first reachability and parent searches, `task_search.dfy`;
  - the parsing of recursive-call strings, `recursive_calls.dfy`;
  - the suggestion records and line-keyed grouping, `suggestion.dfy`;
  - the passes of `run_detection`, one file each: `task_suggestions.dfy`, `useless_barriers.dfy`, `parallel_regions.dfy`, `contained_lines.dfy`, `taskloop_reduction.dfy`, `barrier_suggestions.dfy`;
  - the whole detection, `task_parallelism.dfy`.
- `wrappers.dfy` holds the result type and the `Gather` combinator, which models a loop that stops at the first raised exception.
- `text.dfy` holds the string operations the source uses: `split`, `index`, `int()`, `replace`, and string comparison.

Exceptions the source raises become `Err` results, with the exception's class and message. Where the source loops and mutates, the model has a method with the loop and its invariants, proved against a function that specifies the loop's result. Lemmas about that function state what the pass promises. External helpers the source calls enter as function parameters. These are `utils.depends`, the workload and instruction counts, `classify_task_vars`, `get_child_loops`, `get_loop_iterations` and the geometric-decomposition estimate `nt`.

Recursive walks over CHILD edges terminate because `PetGraph.Wf` requires the CHILD edges to be acyclic. It does this by asking for a rank that falls along every CHILD edge.

Line numbers are compared as Python strings, in lexicographic order. The source does this in `task_parallelism_detector.py` at lines 254, 396, 491, 528 and 590, and the model keeps it as written.

Notes on the code as written, which the model follows:

- The geometric-decomposition detector rejects a loop that *is* do-all or reduction. The older detector rejects a loop that is *not*. Both versions are modelled, and `GeometricDecomposition.OppositePolarity` relates them.
- The two `get_all_dependencies` versions filter differently. The graph layer drops a loop index *or* a read-only variable. The older detector drops only a variable that is both.
- The taskwait line is the sink of the last dependence, in edge order, whose line text is below the unit's end line. The variable holding it is named `first_dependency_line`, but the bound it is compared with never changes.
- The predecessor branch of `__merge_tasks` always raises.

## Model

| member | source | states |
|---|---|---|
| `Text.ParseNat` | graph_analyzer/PETGraphX.py:43 | `int(s)` succeeds exactly on non-empty digit strings (ValueError otherwise) |
| `Text.ParseNatOfNatToString` | graph_analyzer/PETGraphX.py:104-108 | `int(str(n)) == n`: parsing a rendered number gives the number back |
| `Text.NatToStringInjective` | graph_analyzer/PETGraphX.py:104-108 | distinct numbers render as distinct strings |
| `Text.IndexOf` | graph_analyzer/pattern_detectors/task_parallelism_detector.py:37 | `s.index(c)` is the first position holding `c`; it raises (None) exactly when `c` does not occur |
| `Text.AfterFirst` | graph_analyzer/pattern_detectors/task_parallelism_detector.py:248-249 | `s[s.index(":") + 1:]` is defined exactly when the separator occurs |
| `Text.BeforeFirst` | graph_analyzer/pattern_detectors/task_parallelism_detector.py:733 | `s[:s.index(":")]` is defined exactly when the separator occurs |
| `Text.SplitJoined` | graph_analyzer/PETGraphX.py:41-43 | splitting `a:b` (no separator in either part) gives back `[a, b]`, and the text before and after the first colon are `a` and `b` |
| `Text.StrLessIrreflexive` | graph_analyzer/pattern_detectors/task_parallelism_detector.py:254 | Python's string `<` is irreflexive |
| `Text.StrLessTransitive` | graph_analyzer/pattern_detectors/task_parallelism_detector.py:396-397 | Python's string `<` is transitive |
| `Text.StrLessTotal` | graph_analyzer/pattern_detectors/task_parallelism_detector.py:528 | Python's string `<` is total, so sorting by a string key is well defined |
| `Text.StrLessIsNotNumeric` | graph_analyzer/pattern_detectors/task_parallelism_detector.py:254 | line numbers compared as text are not compared as numbers: "10" sorts before "9" |
| `Text.RemoveAllAbsent` | graph_analyzer/pattern_detectors/task_parallelism_detector.py:458 | `replace(".addr", "")` leaves a name without `.addr` unchanged |
| `Text.RemoveAllSuffix` | graph_analyzer/pattern_detectors/task_parallelism_detector.py:458 | `replace(".addr", "")` turns a name free of `.addr` followed by `.addr` back into the name |
| `PetGraph.ParseId` | graph_analyzer/PETGraphX.py:41-43 | `parse_id` succeeds exactly when the first two colon-separated parts are numbers, giving their values; a non-number first part is a ValueError even without a colon, a missing second part is then an IndexError, and a non-number second part a ValueError |
| `PetGraph.ParseIdOfRendered` | graph_analyzer/PETGraphX.py:41-43 | `parse_id` inverts the rendering `"a:b"` of two naturals, and the line text after the colon is `b` |
| `PetGraph.ParseIdInvertsPositions` | graph_analyzer/PETGraphX.py:104-108 | `parse_id(start_position())` and `parse_id(end_position())` give back the node's file and line numbers |
| `PetGraph.RenderedPositionsEqual` | graph_analyzer/PETGraphX.py:104-108 | two rendered positions are equal exactly when file and line agree |
| `PetGraph.Incident` | graph_analyzer/PETGraphX.py:235-239 | the kept edges are exactly the listed edges at the node in the requested direction and of the requested type |
| `PetGraph.OutEdges` | graph_analyzer/PETGraphX.py:235-236 | `out_edges` holds exactly the graph's edges leaving the node, of the given type when one is given |
| `PetGraph.InEdges` | graph_analyzer/PETGraphX.py:238-239 | `in_edges` holds exactly the graph's edges entering the node, of the given type when one is given |
| `PetGraph.Subtree` | graph_analyzer/PETGraphX.py:241-247 | the walk returns nodes of the accepted kinds, every one other than the root strictly lower in the CHILD order, and the root exactly when its kind is accepted |
| `PetGraph.SubtreesOfWitness` | graph_analyzer/PETGraphX.py:245-246 | a node returned for a list of CHILD edges comes from the subtree of one of their targets |
| `PetGraph.SubtreesOfHas` | graph_analyzer/PETGraphX.py:245-246 | the subtree of every CHILD target is part of what is returned for the edge list |
| `PetGraph.SubtreeOfType` | graph_analyzer/PETGraphX.py:241-247 | `subtree_of_type` returns nodes of the requested type only, and lists the root first exactly when the root has that type |
| `PetGraph.SubtreeSound` | graph_analyzer/PETGraphX.py:241-247 | everything the walk returns lies in the CHILD-subtree of the root |
| `PetGraph.SubtreeComplete` | graph_analyzer/PETGraphX.py:241-247 | every accepted node reachable by CHILD edges from the root is returned |
| `PetGraph.SubtreeOfTypeMembers` | graph_analyzer/PETGraphX.py:241-247 | `subtree_of_type` returns exactly the nodes of the type in the CHILD-subtree (root included) |
| `PetGraph.SubtreeMembers` | pattern_detection.py:141-151 | the same for any kind filter, the legacy `'*'` wildcard included |
| `PetGraph.DirectChildrenOfType` | graph_analyzer/PETGraphX.py:249-251 | `direct_children_of_type` holds exactly the one-hop CHILD targets of the type |
| `PetGraph.DirectChildrenInSubtree` | graph_analyzer/PETGraphX.py:249-251 | a direct child of a type is in the subtree of that type and is never the root itself |
| `PetGraph.ChildEdgeBelow` | graph_analyzer/PETGraphX.py:245-246 | a CHILD edge leads to a distinct descendant, so the recursion always goes down |
| `PetGraph.IsReductionVar` | graph_analyzer/PETGraphX.py:253-260 | true exactly when some reduction fact names this loop line and this variable |
| `PetGraph.IsLoopIndex` | graph_analyzer/PETGraphX.py:301-321 | true exactly when some RAW edge on the variable out of a child is a self-dependence at a loop start line whose target is a child |
| `PetGraph.IsReadonlyInsideLoopBody` | graph_analyzer/PETGraphX.py:323-349 | false exactly when a CU of the loop has a WAR/WAW out-edge on the variable whose sink, or a RAW in-edge whose source, is not a loop start line |
| `PetGraph.KeptTargets` | graph_analyzer/PETGraphX.py:293-297 | the collected targets are exactly those of the RAW edges that are neither loop-index nor read-only dependences |
| `PetGraph.GetAllDependencies` | graph_analyzer/PETGraphX.py:279-299 | `get_all_dependencies` is exactly the set of targets of the kept RAW edges leaving a CU of the node's subtree, and every one is a node |
| `PetGraph.DependsIgnoreReadonly` | graph_analyzer/PETGraphX.py:262-277 | true exactly when a kept dependency of `source` is a CU inside `target`'s subtree |
| `PetBuild.ParseCuType` | graph_analyzer/PETGraphX.py:125 | `CuType(int(code))` succeeds exactly on digit strings whose value is 0 to 3 |
| `PetBuild.ParseCu` | graph_analyzer/PETGraphX.py:123-140 | `parse_cu` succeeds exactly when the id, the type code and both positions parse; the node keeps the record's id, the parsed numbers, the name and the instruction count (0 when absent), has no iteration count (-1) and no recursive calls, and only CU nodes keep their variables |
| `PetBuild.ParseAll` | graph_analyzer/PETGraphX.py:161-162 | a successful node pass yields one node per record, in record order, each the parse of its record |
| `PetBuild.ParseAllFails` | graph_analyzer/PETGraphX.py:161-162 | the node pass fails exactly when some record fails to parse |
| `PetBuild.WithLoopIterations` | graph_analyzer/PETGraphX.py:164-165 | only a LOOP node changes, and only in its iteration count |
| `PetBuild.NodeTable` | graph_analyzer/PETGraphX.py:161-162 | every parsed node is stored under its id and every stored id comes from a parsed node |
| `PetBuild.StructuralEdges` | graph_analyzer/PETGraphX.py:167-178 | the structural edges are exactly those named by the records' CHILD and SUCCESSOR references |
| `PetBuild.RowEdges` | graph_analyzer/PETGraphX.py:192-196 | one sink CU raises (unknown dependence type) exactly when some source would add an edge; otherwise it adds exactly the DATA edges to the sources that pass the WAR/WAW and empty-id filter |
| `PetBuild.PairEdges` | graph_analyzer/PETGraphX.py:189-196 | the same over all sink and source CUs of a record |
| `PetBuild.DepEdges` | graph_analyzer/PETGraphX.py:185-196 | a successful dependence pass adds exactly the edges some record adds |
| `PetBuild.InitAddsNoEdge` | graph_analyzer/PETGraphX.py:186-187 | an INIT record anywhere in the list changes nothing |
| `PetBuild.ParseAllErrPersists` | graph_analyzer/PETGraphX.py:161-162 | once a record fails to parse, later records do not change the outcome |
| `PetBuild.DepErrPersists` | graph_analyzer/PETGraphX.py:185-196 | once a dependence record raises, later records do not change the outcome |
| `PetBuild.AddRow` | graph_analyzer/PETGraphX.py:192-196 | the innermost loop over source CUs computes the specified edges of one sink CU |
| `PetBuild.ParseNodes` | graph_analyzer/PETGraphX.py:161-162 | the node loop parses the records in order and raises the first failure |
| `PetBuild.SetLoopIterations` | graph_analyzer/PETGraphX.py:164-165 | the loop pass gives every LOOP node its count from the loop data and leaves other nodes as they are |
| `PetBuild.AddStructuralEdges` | graph_analyzer/PETGraphX.py:167-178 | the CHILD and SUCCESSOR loop adds the specified structural edges, dangling ones included |
| `PetBuild.AddPairs` | graph_analyzer/PETGraphX.py:189-196 | the nested sink/source loop computes the specified edges of one record |
| `PetBuild.AddDependenceEdges` | graph_analyzer/PETGraphX.py:185-196 | the dependence loop computes the specified DATA edges or the first error |
| `PetBuild.Build` | graph_analyzer/PETGraphX.py:156-196 | the constructor builds the specified graph or raises the specified error |
| `PetBuild.BuildOrder` | graph_analyzer/PETGraphX.py:161-162 | the vertex list of the model's graph is the record ids, in record order, each once (see "Dangling edges" under Left out for the nodes `add_edge` adds) |
| `PetBuild.BuildNodes` | graph_analyzer/PETGraphX.py:161-165 | each record's node is its parse, with the iteration count filled in for LOOP nodes |
| `PetBuild.BuildLoopIterations` | graph_analyzer/PETGraphX.py:164-165 | every LOOP node carries the loop data's count for its start position, 0 when absent |
| `PetBuild.BuildEdges` | graph_analyzer/PETGraphX.py:167-196 | the built edges are exactly the records' CHILD/SUCCESSOR references and the DATA edges of the non-INIT dependence records |
| `PetBuild.RecordEdgesMembers` | graph_analyzer/PETGraphX.py:167-178 | a record's structural edges are exactly a CHILD edge per child reference and a SUCCESSOR edge per successor reference |
| `PetBuild.BuildTypedEdges` | graph_analyzer/PETGraphX.py:193-196 | only DATA edges carry a dependence type, and no WAR/WAW dependence becomes a self-loop |
| `PetBuild.BuildClosed` | graph_analyzer/PETGraphX.py:167-178 | when every reference and every CU id of the line maps names a record, no edge dangles |
| `PetState.Pet.constructor` | graph_analyzer/PETGraphX.py:19-30 | a fresh graph starts with every node's role FORK, pipeline 0 and every flag false |
| `PetState.Pet.SetPipeline` | pattern_detection.py:168 | stores the pipeline value of one loop and changes no other attribute |
| `PetState.Pet.MarkReduction` | pattern_detection.py:399 | sets one node's reduction flag and changes no other attribute |
| `PetState.Pet.MarkDoAll` | pattern_detection.py:222 | sets one node's do-all flag and changes no other attribute |
| `PetState.Pet.MarkGeomDecomp` | pattern_detection.py:430 | sets one node's geometric-decomposition flag and changes no other attribute |
| `PetState.FewerEdgesWf` | pattern_detection.py:379 | removing edges keeps the graph well formed |
| `PatternQueries.FindSubnodes` | pattern_detection.py:13-16 | `find_subnodes` holds exactly the targets of the node's out-edges whose edge label is the criteria |
| `PatternQueries.FindSubnodesChild` | pattern_detection.py:13-16 | `find_subnodes(..., 'child')` gives exactly the CHILD targets |
| `PatternQueries.FindSubnodesByTypeCodeIsEmpty` | pattern_detection.py:517-518 | a node type code is never an edge label, so `find_subnodes(..., '1')` and `find_subnodes(..., '2')` are always empty |
| `PatternQueries.GetSubtreeOfType` | pattern_detection.py:141-151 | the legacy walk returns only nodes of the requested type code (any node for `'*'`), the root first exactly when it matches |
| `PatternQueries.GetSubtreeOfTypeAgrees` | pattern_detection.py:141-151 | with a type code, the legacy walk is the same list as `PETGraphX.subtree_of_type` |
| `PatternQueries.WholeSubtreeMembers` | pattern_detection.py:141-151 | with `'*'`, the walk returns exactly the CHILD-subtree |
| `PatternQueries.Depends` | pattern_detection.py:65-74 | `depends` is false for a node and itself; otherwise true exactly when a RAW edge leads from the subtree of `source` into the subtree of `target` |
| `PatternQueries.LegacyIsReadonly` | pattern_detection.py:99-122 | the legacy read-only test is false exactly when a CU of the loop has a WAR/WAW out-edge on the variable with its sink outside the loop headers, or a RAW in-edge with its source outside them |
| `PatternQueries.LegacyReadonlyAgrees` | pattern_detection.py:99-122 | when only DATA edges carry a dependence type, the legacy read-only test agrees with `PETGraphX.is_readonly_inside_loop_body` |
| `PatternQueries.LegacyGetAllDependencies` | pattern_detection.py:124-139 | exactly the targets of the RAW dependence edges out of the node's CUs that are not both a loop index and read-only |
| `PatternQueries.DependenciesIncluded` | pattern_detection.py:135-138 | the legacy filter drops an edge only when both tests hold, so it keeps every dependency `PETGraphX.get_all_dependencies` keeps |
| `PatternQueries.IsDependingMeaning` | pattern_detection.py:76-85 | `is_depending` holds exactly when a kept dependency of `source` is `target` itself or a CU below it |
| `LegacyVectors.StartLinesOfLoops` | pattern_detection.py:179-181 | `children_start_lines` holds exactly the start positions of the LOOP children |
| `LegacyVectors.Stages` | pattern_detection.py:183-184 | `loop_subnodes` holds exactly the CHILD children that are pipeline stages, in order |
| `LegacyVectors.IsPipelineSubnodeMeaning` | pattern_detection.py:153-162 | a child is no stage exactly when it is one line on the root's first line, spans exactly the root's last line, or is one line where a LOOP child starts |
| `LegacyVectors.StageDependences` | pattern_detection.py:191-193 | the first entries of `graph_vector` are 1 exactly where a stage depends on the stage before it |
| `LegacyVectors.MinWeightMeaning` | pattern_detection.py:199-206 | `min_weight` stays 1 exactly when no dependence can lower it; otherwise it is the smallest positive weight of a dependence from an earlier on a later stage |
| `LegacyVectors.PipelineVectorsShape` | pattern_detection.py:191-213 | both vectors have one entry per stage, ones then the final pair, which is (0, 0) without a qualifying dependence and (1, smallest weight) with one |
| `LegacyVectors.BuildGraphVector` | pattern_detection.py:191-193 | the loop builds the stage-dependence entries |
| `LegacyVectors.FindMinWeight` | pattern_detection.py:199-206 | the nested loops compute `min_weight` as specified |
| `LegacyVectors.BuildPipelineVectors` | pattern_detection.py:191-213 | the loops build the two specified vectors |
| `LegacyVectors.DoAllRowEntry` | pattern_detection.py:235-239 | entry `k` of row `i` is 0 exactly when child `i` depends on child `i + k` |
| `LegacyVectors.DoAllVectorFullLength` | pattern_detection.py:234-239 | the do-all vector has `n (n + 1) / 2` entries for `n` children |
| `LegacyVectors.DoAllVectorEntry` | pattern_detection.py:234-239 | the entry for the pair `a <= b` sits at the row offset of `a` plus `b - a`, and is 0 exactly when child `a` depends on child `b` |
| `LegacyVectors.DoAllVectorFullEntry` | pattern_detection.py:234-239 | the same for the whole vector |
| `LegacyVectors.DoAllExceedsMeaning` | pattern_detection.py:221 | the decision `correlation > 0.9` is the exact real test `ones > 0.81 * length` (no ones gives 0) |
| `LegacyVectors.BuildDoAllRow` | pattern_detection.py:235-239 | the inner loop builds the specified row |
| `LegacyVectors.BuildDoAllVector` | pattern_detection.py:234-239 | the outer loop builds the specified vector |
| `LegacyDetector.FirstNamed` | pattern_detection.py:37-40 | `main_node` is the first vertex, in vertex order, named `main`, and is absent exactly when no vertex is named so |
| `LegacyDetector.KeepEdgesMembers` | pattern_detection.py:376-381 | the kept edges are exactly those that are not a CHILD edge from an already visited node to a dummy node |
| `LegacyDetector.KeepEdgesTwice` | pattern_detection.py:368-381 | dropping the dummy children one visited node at a time equals dropping them for all visited nodes at once |
| `LegacyDetector.MergedEdges` | pattern_detection.py:359-381 | `__merge(False, True)` keeps the nodes and their order, keeps exactly the edges that are not a CHILD edge from a non-dummy to a dummy node, and keeps the graph well formed |
| `LegacyDetector.MergedHasNoDummyChild` | pattern_detection.py:359-381 | after the merge no dummy node is the child of a non-dummy node |
| `LegacyDetector.MergeIdempotent` | pattern_detection.py:359-381 | merging a second time removes nothing more |
| `LegacyDetector.StageDep` | pattern_detection.py:193 | the relation handed to the vector loops is `is_depending(a, b, root)` on the stages |
| `LegacyDetector.DependsRel` | pattern_detection.py:304 | the relation handed to the role machine is the legacy `depends` on all nodes |
| `LegacyDetector.PipelineSpecZero` | pattern_detection.py:186-189 | `__detect_pipeline` returns 0 exactly when there are fewer than two stages |
| `LegacyDetector.PipelineSpecVectors` | pattern_detection.py:191-214 | with two stages or more, the two vectors compared have one entry per stage, the graph vector marks each stage that depends on the stage before it, the pipeline vector starts with ones, and the final pair is (0, 0) exactly when no dependence lowers the weight |
| `LegacyDetector.DoAllSpecLength` | pattern_detection.py:227-241 | the do-all vector has `n (n + 1) / 2` entries for `n` children |
| `LegacyDetector.DoAllSpecMeaning` | pattern_detection.py:234-239 | the entry for children `a <= b` is 0 exactly when `is_depending(a, b, root)` |
| `LegacyDetector.NodesOfKind` | pattern_detection.py:167 | `find_vertex(type, k)` holds exactly the vertices of kind `k` |
| `LegacyDetector.PipelinesWhole` | pattern_detection.py:164-168 | after the last loop every LOOP holds the value of `__detect_pipeline` and every other node keeps its value |
| `LegacyDetector.SetOfWhole` | pattern_detection.py:368 | the merge loop visits every vertex |
| `LegacyDetector.VarNames` | pattern_detection.py:411-416 | the collected names are exactly the local and global variable names of the CUs |
| `LegacyDetector.VarNamesSnoc` | pattern_detection.py:412-416 | one more CU adds exactly its variable names |
| `LegacyDetector.PatternDetector.constructor` | pattern_detection.py:33-59 | the detector keeps the graph, the loop data and the reduction facts, starts with an empty iteration memo and picks the first vertex named `main` |
| `LegacyDetector.PatternDetector.Merge` | pattern_detection.py:359-381 | the graph becomes its merge and stays valid |
| `LegacyDetector.PatternDetector.MergeNodes` | pattern_detection.py:368-381 | the loop over the vertices leaves the merged graph |
| `LegacyDetector.PatternDetector.MergeStep` | pattern_detection.py:369-381 | one vertex more has lost its dummy children, unless it is a dummy itself |
| `LegacyDetector.PatternDetector.MergeAt` | pattern_detection.py:376-381 | the inner loop drops exactly the dummy children of one node |
| `LegacyDetector.PatternDetector.DetectPipeline` | pattern_detection.py:174-214 | returns the specified value, leaves the graph alone and stores -1 for the root when it has fewer than two stages |
| `LegacyDetector.PatternDetector.PipelineAt` | pattern_detection.py:168 | the stored value of the loop is the one `__detect_pipeline` returns |
| `LegacyDetector.PatternDetector.DetectPipelineLoop` | pattern_detection.py:164-172 | every LOOP ends with the value of `__detect_pipeline`, every other node with its old value |
| `LegacyDetector.PatternDetector.PipelineNext` | pattern_detection.py:167-168 | one more loop holds its value, the others are unchanged |
| `LegacyDetector.PatternDetector.DetectReduction` | pattern_detection.py:402-419 | true exactly when the root is a LOOP and some variable of a CU below it is a reduction variable at the loop's start line |
| `LegacyDetector.PatternDetector.DetectReductionLoop` | pattern_detection.py:394-400 | the reduction flag is added exactly on the loops where `__detect_reduction` holds |
| `LegacyDetector.PatternDetector.ReductionNext` | pattern_detection.py:397-399 | one more loop is marked exactly when it is a reduction loop |
| `LegacyDetector.PatternDetector.DetectDoAll` | pattern_detection.py:227-246 | returns the do-all vector whose correlation is the score |
| `LegacyDetector.PatternDetector.DetectDoAllLoop` | pattern_detection.py:216-225 | the do-all flag is added exactly on the loops whose score exceeds 0.9; the reduction flags are untouched |
| `LegacyDetector.PatternDetector.DoAllNext` | pattern_detection.py:219-222 | one more loop is marked exactly when its score exceeds 0.9 |
| `LegacyDetector.PatternDetector.DetectTaskParallelismLoop` | pattern_detection.py:248-272 | the loop leaves exactly the roles `MwTypes.RolesAfter` specifies for the vertex order, with the legacy dependence relation and without the two-RAW-edge rule; every non-dummy node ends with a role other than NONE, and no node becomes NONE that was not |
| `LegacyDetector.PatternDetector.GeometricDecompositionAt` | pattern_detection.py:427-432 | the function is marked exactly when the legacy predicate accepts it; the do-all and reduction flags are untouched |
| `LegacyDetector.PatternDetector.DetectGeometricDecompositionLoop` | pattern_detection.py:421-433 | the geometric-decomposition flag is added exactly on the FUNC nodes the legacy predicate accepts |
| `LegacyDetector.PatternDetector.AnalyseLoops` | pattern_detection.py:532-536 | after the three loop passes every loop holds its pipeline value, its reduction flag and its do-all flag as specified |
| `LegacyDetector.PatternDetector.ReductionAndDoAll` | pattern_detection.py:534-536 | the reduction pass runs before the do-all pass and both mark as specified |
| `LegacyDetector.PatternDetector.AnalyseMerged` | pattern_detection.py:532-539 | the passes after the merge leave every attribute as its pass specifies; the task pass leaves exactly the roles `MwTypes.RolesAfter` specifies for the vertex order, with the legacy dependence relation and without the two-RAW-edge rule |
| `LegacyDetector.PatternDetector.DetectTasksAndDecomposition` | pattern_detection.py:538-539 | the task pass leaves exactly the roles `MwTypes.RolesAfter` specifies for the vertex order, with the legacy dependence relation and without the two-RAW-edge rule and the decomposition pass marks the accepted functions |
| `LegacyDetector.PatternDetector.DetectPatterns` | pattern_detection.py:525-539 | `detect_patterns` merges, then stores every pipeline value and every reduction, do-all and geometric-decomposition flag as its pass specifies; the roles of the merged graph are those `MwTypes.RolesAfter` specifies |
| `MwTypes.RemoveFirst` | graph_analyzer/pattern_detectors/task_parallelism_detector.py:773-774 | `other_nodes.remove(node)` drops one occurrence: one element shorter, the same multiset less that element |
| `MwTypes.RawEdgeCount` | graph_analyzer/pattern_detectors/task_parallelism_detector.py:787-793 | the count is positive exactly when some RAW edge leads from the sibling to the base child |
| `MwTypes.SiblingsPass` | graph_analyzer/pattern_detectors/task_parallelism_detector.py:776-798 | visiting the siblings changes only the siblings that depend on the base child, and each of those ends as WORKER or BARRIER |
| `MwTypes.SiblingsPassSnoc` | graph_analyzer/pattern_detectors/task_parallelism_detector.py:776-798 | visiting one more sibling applies that sibling's step to the roles reached so far |
| `MwTypes.BaseStep` | graph_analyzer/pattern_detectors/task_parallelism_detector.py:758-798 | one pass changes only the children of the main node and never makes a role NONE |
| `MwTypes.ChildrenPass` | graph_analyzer/pattern_detectors/task_parallelism_detector.py:758-798 | the passes over the children change only the children and never make a role NONE |
| `MwTypes.AdjacentIn` | graph_analyzer/pattern_detectors/task_parallelism_detector.py:809 | true exactly when some edge of any type joins the two nodes, in either direction |
| `MwTypes.PairStep` | graph_analyzer/pattern_detectors/task_parallelism_detector.py:811-814 | recording a pair of unadjacent BARRIER children and making both BARRIER_WORKER keeps the pairing invariant |
| `MwTypes.PairScan` | graph_analyzer/pattern_detectors/task_parallelism_detector.py:807-814 | the scan for one BARRIER child changes no key, and every role it changes becomes BARRIER_WORKER and was BARRIER or was the scanning child |
| `MwTypes.PairAll` | graph_analyzer/pattern_detectors/task_parallelism_detector.py:805-814 | the pairing loop changes no key, and every role it changes was BARRIER and becomes BARRIER_WORKER |
| `MwTypes.PairRoles` | graph_analyzer/pattern_detectors/task_parallelism_detector.py:800-814 | the same for the whole BARRIER_WORKER phase over the children |
| `MwTypes.PairWith` | graph_analyzer/pattern_detectors/task_parallelism_detector.py:807-814 | the scan for one BARRIER child leaves exactly the roles `PairScan` specifies, pairing it only with distinct unadjacent BARRIER children and stopping at the first adjacent one; paired nodes become BARRIER_WORKER and nothing else changes |
| `MwTypes.ScanAt` | graph_analyzer/pattern_detectors/task_parallelism_detector.py:808-814 | one round of the scan: the next child is paired, ends the scan, or is passed over, as `PairScan` specifies |
| `MwTypes.PairBarriers` | graph_analyzer/pattern_detectors/task_parallelism_detector.py:800-814 | the phase leaves exactly the roles `PairRoles` specifies: every recorded pair joins two distinct BARRIER children with no edge between them, and exactly the paired nodes become BARRIER_WORKER |
| `MwTypes.VisitSiblings` | graph_analyzer/pattern_detectors/task_parallelism_detector.py:776-798 | the sibling loop leaves the roles the sibling pass specifies |
| `MwTypes.VisitSibling` | graph_analyzer/pattern_detectors/task_parallelism_detector.py:777-798 | one sibling: WORKER becomes BARRIER, any other role WORKER, or BARRIER when it has two RAW edges to the base child (new detector only) |
| `MwTypes.BasePass` | graph_analyzer/pattern_detectors/task_parallelism_detector.py:758-798 | the pass with one child as base: NONE and ROOT become FORK, then the siblings are visited |
| `MwTypes.RawCountOut` | graph_analyzer/pattern_detectors/task_parallelism_detector.py:788-791 | counting over the sibling's out-edges counts every RAW edge from it to the base child |
| `MwTypes.DetectMwTypes` | graph_analyzer/pattern_detectors/task_parallelism_detector.py:747-815 | `__detect_mw_types` (and the legacy `detect_task_parallelism`, pattern_detection.py lines 274-328) leaves exactly the roles `DetectSpec` specifies: the passes over the children, then the pairing of BARRIER children; no role becomes NONE |
| `MwTypes.DetectSpec` | graph_analyzer/pattern_detectors/task_parallelism_detector.py:747-815 | the detection with one main node changes no key and never makes a role NONE |
| `MwTypes.ParentStep` | graph_analyzer/pattern_detectors/task_parallelism_detector.py:186-188 | the detection runs only for a node with CHILD edges, and changes no key |
| `MwTypes.RoleStep` | graph_analyzer/pattern_detectors/task_parallelism_detector.py:184-191 | one round of the vertex loop changes no key: a DUMMY node changes nothing; any other node gets the detection when it has CHILD edges, then ROOT if still NONE |
| `MwTypes.RolesAfter` | graph_analyzer/pattern_detectors/task_parallelism_detector.py:183-191 | the rounds of the vertex loop over a list of vertices, in order, change no key |
| `MwTypes.RolesAfterNext` | graph_analyzer/pattern_detectors/task_parallelism_detector.py:183-191 | one more vertex applies that vertex's round to the roles reached so far |
| `MwTypes.ChildSubnodes` | graph_analyzer/pattern_detectors/task_parallelism_detector.py:758 | `find_subnodes(node, 'child')` yields nodes of the graph |
| `MwTypes.ChildPasses` | graph_analyzer/pattern_detectors/task_parallelism_detector.py:758-798 | the loop over the children leaves the roles all passes specify |
| `MwTypes.NextPass` | graph_analyzer/pattern_detectors/task_parallelism_detector.py:758-798 | one more child's pass is applied |
| `MwTypes.NoNewNone` | graph_analyzer/pattern_detectors/task_parallelism_detector.py:747-815 | the role machine never turns a role into NONE |
| `MwTypes.AssignRoles` | graph_analyzer/pattern_detectors/task_parallelism_detector.py:183-191 | the loop over the vertices leaves exactly the roles `RolesAfter` specifies for the vertex order; every non-dummy node then has a role other than NONE, and only nodes that were NONE may still be NONE |
| `MwTypes.VisitInOrder` | graph_analyzer/pattern_detectors/task_parallelism_detector.py:183-191 | the vertex loop leaves the roles `RolesAfter` specifies and gives every visited non-dummy node a role |
| `MwTypes.VisitAt` | graph_analyzer/pattern_detectors/task_parallelism_detector.py:184-191 | one more vertex: the roles `RolesAfter` specifies for one more element of the order, with that vertex given a role unless it is a dummy |
| `MwTypes.RolesSetOnAll` | graph_analyzer/pattern_detectors/task_parallelism_detector.py:183 | with every vertex visited, every non-dummy node has a role |
| `MwTypes.AssignRoleAt` | graph_analyzer/pattern_detectors/task_parallelism_detector.py:184-191 | one round leaves exactly the roles `RoleStep` specifies: a dummy is skipped; any other node runs the detection when it has CHILD edges and ends with a role other than NONE |
| `MwTypes.DetectIfParent` | graph_analyzer/pattern_detectors/task_parallelism_detector.py:186-188 | the roles `ParentStep` specifies: the detection runs only for a node with CHILD edges; no role becomes NONE |
| `MwTypes.SetRootIfNone` | graph_analyzer/pattern_detectors/task_parallelism_detector.py:190-191 | a node left NONE becomes ROOT; nothing else changes |
| `LoopIterations.ChildParents` | graph_analyzer/pattern_detectors/geometric_decomposition_detector.py:156 | the parents list holds exactly the sources of the CHILD edges into the node |
| `LoopIterations.NearestLoopAbove` | graph_analyzer/pattern_detectors/geometric_decomposition_detector.py:156-164 | following the first parent upward finds, when it finds one, a LOOP strictly above the node |
| `LoopIterations.ParentIterationsAtLeastOne` | graph_analyzer/pattern_detectors/geometric_decomposition_detector.py:149-166 | the parent factor is at least 1, 1 without a loop above, and the loop's own count when that is at least 1 |
| `LoopIterations.GetParentIterations` | graph_analyzer/pattern_detectors/geometric_decomposition_detector.py:149-166 | the upward walk computes the specified parent factor |
| `LoopIterations.FloorDiv` | graph_analyzer/pattern_detectors/geometric_decomposition_detector.py:144 | Python's `//` rounds toward negative infinity: `q * b <= a < q * b + b` |
| `LoopIterations.IterationsForBounds` | graph_analyzer/pattern_detectors/geometric_decomposition_detector.py:139-144 | with a parent factor of at least 1, a non-negative count stays between 0 and the loop count and is 0 exactly when the loop count is |
| `LoopIterations.IterationsValueBounds` | graph_analyzer/pattern_detectors/geometric_decomposition_detector.py:128-146 | a loop's cached count lies between 0 and its own iteration count and is 0 exactly when that is |
| `LoopIterations.LegacyIters` | pattern_detection.py:480-486 | `loop_data.get(line, 0)`: the loop data's count, 0 for a line without one |
| `LoopIterations.IterationCache.constructor` | graph_analyzer/pattern_detectors/geometric_decomposition_detector.py:22 | the memo starts empty |
| `LoopIterations.IterationCache.IterationsCount` | graph_analyzer/pattern_detectors/geometric_decomposition_detector.py:128-146 | `__iterations_count` returns the specified count, computed once and memoised under the node |
| `LoopIterations.IterationCache.TestChunkLimit` | graph_analyzer/pattern_detectors/geometric_decomposition_detector.py:100-125 | `__test_chunk_limit` returns the minimum of the inner loops' counts (infinity for none) and passes exactly when there are inner loops and every count is positive |
| `LoopIterations.IterationCache.InnerLoopIterations` | graph_analyzer/pattern_detectors/geometric_decomposition_detector.py:120-121 | the loop fills `inner_loop_iter` as specified |
| `LoopIterations.ChunkChildren` | graph_analyzer/pattern_detectors/geometric_decomposition_detector.py:110-118 | the inner loops are exactly the LOOP children of the node and the LOOP children of its FUNC children |
| `LoopIterations.ChunkMapEntries` | graph_analyzer/pattern_detectors/geometric_decomposition_detector.py:120-121 | every inner loop's start line is a key, and every key holds the count of an inner loop starting there |
| `LoopIterations.ChunkTestMeaning` | graph_analyzer/pattern_detectors/geometric_decomposition_detector.py:125 | the dict is non-empty exactly when there are inner loops, and all its counts are positive when every inner loop's count is |
| `LoopIterations.MinValue` | graph_analyzer/pattern_detectors/geometric_decomposition_detector.py:123-124 | the loop over the values computes their minimum, infinity for an empty dict |
| `LoopIterations.LegacyChunkStartAgrees` | pattern_detection.py:441-458 | starting the minimum at 9999999999999 instead of infinity gives the same verdict |
| `GeometricDecomposition.GdPredicate` | graph_analyzer/pattern_detectors/geometric_decomposition_detector.py:169-185 | when `__detect_geometric_decomposition` accepts, no LOOP of the subtree is marked do-all or reduction |
| `GeometricDecomposition.GdPredicateMeaning` | graph_analyzer/pattern_detectors/geometric_decomposition_detector.py:169-185 | it accepts exactly when no LOOP below the root is marked; the check of FUNC children's loops adds nothing, since they lie in the subtree already |
| `GeometricDecomposition.LegacyGdPredicateMeaning` | pattern_detection.py:506-523 | the legacy predicate accepts exactly when every LOOP of the subtree is marked (its FUNC-child check selects edges labelled '1', of which there are none) |
| `GeometricDecomposition.OppositePolarity` | pattern_detection.py:512-515 | whenever the subtree holds a loop, the legacy and the new predicate never both accept |
| `GeometricDecomposition.NumTasks` | graph_analyzer/pattern_detectors/geometric_decomposition_detector.py:45-52 | `num_tasks` rounds the estimate down to a multiple of 100 from 1000, of 10 from 100, to an integer below 100, and is 2 for a negative estimate |
| `GeometricDecomposition.MakeGdInfo` | graph_analyzer/pattern_detectors/geometric_decomposition_detector.py:29-64 | a suggestion keeps the node and the minimum iteration count, and its first-private list is the classified one followed by `int i` |
| `GeometricDecomposition.Passing` | graph_analyzer/pattern_detectors/geometric_decomposition_detector.py:90-92 | the marked loops are nodes of the graph |
| `GeometricDecomposition.PassingAndFoundMembers` | graph_analyzer/pattern_detectors/geometric_decomposition_detector.py:89-97 | the marked nodes are exactly the LOOP nodes the predicate accepts, and the suggestions are exactly those among them whose chunk test succeeds |
| `GeometricDecomposition.SuggestionsStep` | graph_analyzer/pattern_detectors/geometric_decomposition_detector.py:90-95 | one turn of the loop keeps the marks and the suggestions in step with the nodes visited so far |
| `GeometricDecomposition.RunDetection` | graph_analyzer/pattern_detectors/geometric_decomposition_detector.py:83-97 | `run_detection` marks exactly the accepted loops and suggests, in order, exactly those whose chunk test succeeds, each built from the test's minimum |
| `GeometricDecomposition.VisitNode` | graph_analyzer/pattern_detectors/geometric_decomposition_detector.py:90-95 | one node is tested, marked when accepted and suggested when its chunk test succeeds as well |
| `GeometricDecomposition.DetectAt` | graph_analyzer/pattern_detectors/geometric_decomposition_detector.py:91-95 | the suggestion for one node exists exactly when it passes both tests, and is then built from the chunk test's minimum |
| `GeometricDecomposition.RunDetectionAsWritten` | graph_analyzer/pattern_detectors/geometric_decomposition_detector.py:83-97 | as written, `run_detection` raises AttributeError exactly when some LOOP passes the predicate, and otherwise returns the empty list |
| `GeometricDecomposition.AsWrittenRaisesOnOneLoop` | graph_analyzer/pattern_detectors/geometric_decomposition_detector.py:110 | on a graph of one unmarked LOOP unit the code as written raises, while the intended detection marks that loop |
| `TaskSearch.ParentOfDescendant` | graph_analyzer/pattern_detectors/task_parallelism_detector.py:652-660 | a CHILD parent of an ancestor-or-self of the target is a proper ancestor of it |
| `TaskSearch.NotOwnAncestor` | graph_analyzer/pattern_detectors/task_parallelism_detector.py:639-661 | no unit is its own proper ancestor, since the CHILD edges are acyclic |
| `TaskSearch.HeadReplacedLighter` | graph_analyzer/pattern_detectors/task_parallelism_detector.py:649-660 | taking the head of the queue and appending fewer than `W` higher units lowers the queue's weight, so the search ends |
| `TaskSearch.FreshSources` | graph_analyzer/pattern_detectors/task_parallelism_detector.py:652-654 | the kept edges are exactly those whose source is not yet visited |
| `TaskSearch.ReachRound` | graph_analyzer/pattern_detectors/task_parallelism_detector.py:650-660 | one round of `__check_reachability` finds the source only among the CHILD parents of the unit taken, and queues only unvisited parents |
| `TaskSearch.ReachParents` | graph_analyzer/pattern_detectors/task_parallelism_detector.py:655-660 | the inner loop computes the specified round |
| `TaskSearch.ReachInvStep` | graph_analyzer/pattern_detectors/task_parallelism_detector.py:649-660 | one round keeps the search invariant, lowers the queue weight, and a hit is a genuine proper ancestor |
| `TaskSearch.ReachExhausted` | graph_analyzer/pattern_detectors/task_parallelism_detector.py:649-661 | when the queue runs dry, no CHILD path leads from the source to the target |
| `TaskSearch.CheckReachability` | graph_analyzer/pattern_detectors/task_parallelism_detector.py:639-661 | `__check_reachability` is true exactly when the source is a proper CHILD ancestor of the target |
| `TaskSearch.ParentScanAdds` | graph_analyzer/pattern_detectors/task_parallelism_detector.py:687-696 | the scan adds as results and visited only units of the wanted kind, queues only units of other kinds, and touches only sources of scanned edges |
| `TaskSearch.ParentScanCovers` | graph_analyzer/pattern_detectors/task_parallelism_detector.py:687-696 | every scanned edge's source ends up visited before, queued, or a result |
| `TaskSearch.ParentPairAbove` | graph_analyzer/pattern_detectors/task_parallelism_detector.py:688-692 | every result pair's first unit is a proper ancestor of the wanted kind |
| `TaskSearch.RoundCovers` | graph_analyzer/pattern_detectors/task_parallelism_detector.py:680-696 | when a round finds nothing, every CHILD parent of the unit taken is visited or queued |
| `TaskSearch.ParentRound` | graph_analyzer/pattern_detectors/task_parallelism_detector.py:679-696 | one round keeps the search invariant and lowers the queue weight, or returns a sound single result |
| `TaskSearch.ParentExhausted` | graph_analyzer/pattern_detectors/task_parallelism_detector.py:679-697 | when the queue runs dry without results, no unit of the kind lies above the node |
| `TaskSearch.ScanEdges` | graph_analyzer/pattern_detectors/task_parallelism_detector.py:687-696 | the inner loop computes the specified scan |
| `TaskSearch.ParentsOfTypeResult` | graph_analyzer/pattern_detectors/task_parallelism_detector.py:664-697 | every result is a proper ancestor of the kind paired with the unit it was reached from; there is a result exactly when such an ancestor exists; `only_first` gives at most one |
| `TaskSearch.GetParentOfType` | graph_analyzer/pattern_detectors/task_parallelism_detector.py:664-697 | `__get_parent_of_type` returns the specified search result, with the guarantees above |
| `TaskSearch.ReachKeepsClosed` | graph_analyzer/pattern_detectors/task_parallelism_detector.py:649-660 | after a round every expanded unit outside the queue has its CHILD parents among the units seen, so an exhausted queue means no path |
| `TaskSearch.WithinParentBound` | graph_analyzer/pattern_detectors/task_parallelism_detector.py:678-697 | the result count of the parent search stays within a bound fixed by the graph |
| `TaskTree.NewTask` | graph_analyzer/pattern_detectors/task_parallelism_detector.py:32-45 | a new task holds just its unit, no child tasks, the unit's role and positions, and the unit's start line number as its region start |
| `TaskTree.Aggregate` | graph_analyzer/pattern_detectors/task_parallelism_detector.py:47-56 | absorbing a task appends its units, adds workload and instruction count, takes its end line, and makes the role BARRIER_WORKER if the absorbed task is one, WORKER otherwise |
| `TaskTree.AggregateAssociative` | graph_analyzer/pattern_detectors/task_parallelism_detector.py:47-56 | absorbing `b` and then `c` equals absorbing `b` already extended by `c` |
| `TaskTree.LineNumberOf` | graph_analyzer/pattern_detectors/task_parallelism_detector.py:105-106 | `int(pos.split(':')[1])` succeeds exactly when there is a second part and it is a number, and then is its value |
| `TaskTree.LineNumberOfPosition` | graph_analyzer/pattern_detectors/task_parallelism_detector.py:105-106 | the line number of a rendered position is its line |
| `TaskTree.Neighbours` | graph_analyzer/pattern_detectors/task_parallelism_detector.py:98-107 | `__neighbours` raises exactly when a line number does not parse, and otherwise holds exactly when the second task starts 0, 1 or 2 lines after the first ends |
| `TaskTree.NeighboursOfUnits` | graph_analyzer/pattern_detectors/task_parallelism_detector.py:98-107 | for tasks whose lines are unit positions it never raises and compares the units' line numbers |
| `TaskTree.SizeRemove` | graph_analyzer/pattern_detectors/task_parallelism_detector.py:72 | removing a child task removes it and every task below it from the count |
| `TaskTree.FirstLight` | graph_analyzer/pattern_detectors/task_parallelism_detector.py:65-67 | finds the first child whose workload is below 10000, and none exactly when every child is at least that heavy |
| `TaskTree.MaxWorkloadIndex` | graph_analyzer/pattern_detectors/task_parallelism_detector.py:87 | `max(..., key=workload)` picks the first task of greatest workload |
| `TaskTree.SuccessorOrDrop` | graph_analyzer/pattern_detectors/task_parallelism_detector.py:75-84 | the successor and drop branches always shrink the tree below the task |
| `TaskTree.MergeStep` | graph_analyzer/pattern_detectors/task_parallelism_detector.py:65-95 | one round of `__merge_tasks` changes nothing exactly when no child is light and there are no children or at least three; when it changes the list it shrinks the tree |
| `TaskTree.MergeFix` | graph_analyzer/pattern_detectors/task_parallelism_detector.py:59-95 | `__merge_tasks` run to the end leaves a stable list no larger than before, and leaves a stable list alone |
| `TaskTree.PredecessorMergeRaises` | graph_analyzer/pattern_detectors/task_parallelism_detector.py:68-74 | when a light child follows a neighbour, the predecessor branch removes it from the predecessor's own children, where it is not, so it always raises |
| `TaskTree.LastPairNotCombined` | graph_analyzer/pattern_detectors/task_parallelism_detector.py:75 | with two children of which the first is light, the two are never combined, even as neighbours: the light one is dropped |
| `TaskTree.MergeOnce` | graph_analyzer/pattern_detectors/task_parallelism_detector.py:65-91 | the scan and the branch it takes compute one specified round |
| `TaskTree.MergeTasks` | graph_analyzer/pattern_detectors/task_parallelism_detector.py:59-95 | the tail recursion as a loop ends with the merged child list, which is stable and no larger, or with the error the rounds raise |
| `TaskTree.BuildSubtree` | graph_analyzer/pattern_detectors/task_parallelism_detector.py:829-855 | the walk leaves exactly the state `SubtreeOf` specifies; it only appends worker tasks below the root, forks and visited FUNC units, and an already visited FUNC unit changes nothing |
| `TaskTree.WalkChildAt` | graph_analyzer/pattern_detectors/task_parallelism_detector.py:843-855 | one round of the loop over the CHILD children: the state still only grows, and what `ChildrenOf` specifies for the remaining children is unchanged by handling the next one |
| `TaskTree.VisitChild` | graph_analyzer/pattern_detectors/task_parallelism_detector.py:843-855 | one child leaves exactly the state `ChildOf` specifies; it only appends: worker tasks, with worker tasks below them, to the root; FORK tasks whose start line does not end in 16383 to the forks; FUNC units, each once, to the visited list |
| `TaskTree.CreateTaskTree` | graph_analyzer/pattern_detectors/task_parallelism_detector.py:818-826 | the result is `TreeOf` of the main unit: the main unit's task comes first, holding worker tasks only, followed by FORK tasks whose start line does not end in 16383 |
| `TaskTree.SubtreeOf` | graph_analyzer/pattern_detectors/task_parallelism_detector.py:829-855 | the walk below a unit only appends to the fork list |
| `TaskTree.ChildrenOf` | graph_analyzer/pattern_detectors/task_parallelism_detector.py:843-855 | the loop over the CHILD children, in order, only appends to the fork list |
| `TaskTree.ChildOf` | graph_analyzer/pattern_detectors/task_parallelism_detector.py:844-855 | one child only appends to the fork list; a new fork task is added before the forks met below it, as `__forks.add` runs before the recursive call |
| `TaskTree.TreeOf` | graph_analyzer/pattern_detectors/task_parallelism_detector.py:818-826 | the fork list of `__create_task_tree` starts with the main unit's task |
| `TaskTree.ForkAddedFirst` | graph_analyzer/pattern_detectors/task_parallelism_detector.py:850-853 | adding a fork task ahead of the forks found below it keeps the walk growing |
| `Suggestion.RegionStartOfLine` | graph_analyzer/pattern_detectors/task_parallelism_detector.py:127-130 | for a `file:line` pragma line the region starts at `line`; a bare line is its own start |
| `Suggestion.NewTaskInfo` | graph_analyzer/pattern_detectors/task_parallelism_detector.py:114-134 | a task suggestion keeps its unit, pragma, pragma line and variable lists, and has no region end yet |
| `Suggestion.NewRegionInfo` | graph_analyzer/pattern_detectors/task_parallelism_detector.py:152-155 | a region suggestion keeps its unit and its region start and end |
| `Suggestion.Insert` | graph_analyzer/pattern_detectors/task_parallelism_detector.py:259-266 | appending under a key keeps the keys and their order, adding the key last when it is new, and keeps the keys unique |
| `Suggestion.InsertFlatten` | graph_analyzer/pattern_detectors/task_parallelism_detector.py:306-313 | inserting adds exactly the one suggestion to the flattened dictionary |
| `Suggestion.GroupPermutes` | graph_analyzer/pattern_detectors/task_parallelism_detector.py:316-321 | the flattened dictionary holds the suggestions made, each as often as it was made |
| `Suggestion.InFlattenGroup` | graph_analyzer/pattern_detectors/task_parallelism_detector.py:316-321 | every suggestion made is in the result list |
| `Suggestion.FromFlattenGroup` | graph_analyzer/pattern_detectors/task_parallelism_detector.py:316-321 | every suggestion of the result list was made |
| `RecursiveCalls.TrimStart` | graph_analyzer/pattern_detectors/task_parallelism_detector.py:716-717 | the loop drops exactly the leading spaces |
| `RecursiveCalls.TrimEnd` | graph_analyzer/pattern_detectors/task_parallelism_detector.py:718-719 | the loop drops exactly the trailing spaces |
| `RecursiveCalls.SplitCall` | graph_analyzer/pattern_detectors/task_parallelism_detector.py:723-727 | the split raises exactly when the string lacks a space or a colon, and otherwise the name is the text before the first space |
| `RecursiveCalls.SplitRendered` | graph_analyzer/pattern_detectors/task_parallelism_detector.py:723-727 | splitting `name file:line` gives back the three parts |
| `RecursiveCalls.ParseRenderedCall` | graph_analyzer/pattern_detectors/task_parallelism_detector.py:714-727 | a call string as the profiler writes it, with a leading space and a trailing comma, parses back into name, file and line |
| `RecursiveCalls.FirstHolding` | graph_analyzer/pattern_detectors/task_parallelism_detector.py:730-743 | finds the first worker whose file is the call's and whose lines include it, and none exactly when no worker does |
| `RecursiveCalls.WorkerHoldsDigits` | graph_analyzer/pattern_detectors/task_parallelism_detector.py:731-743 | on a digit line the per-worker test is exactly "same file, line within the range" |
| `RecursiveCalls.ScanWorkers` | graph_analyzer/pattern_detectors/task_parallelism_detector.py:730-744 | a worker returned is one of the workers |
| `RecursiveCalls.ScanWorkersFindsFirst` | graph_analyzer/pattern_detectors/task_parallelism_detector.py:730-744 | on a digit line the worker loop finds exactly the first holding worker |
| `RecursiveCalls.ContainedInRendered` | graph_analyzer/pattern_detectors/task_parallelism_detector.py:700-744 | a call string as the profiler writes it is found in the first worker whose range holds it |
| `RecursiveCalls.Clean` | graph_analyzer/pattern_detectors/task_parallelism_detector.py:715-719 | the clean-up loops remove the commas and the surrounding spaces |
| `RecursiveCalls.RecursiveCallContainedIn` | graph_analyzer/pattern_detectors/task_parallelism_detector.py:700-744 | the method computes the specified containing worker, None, or the error the parsing raises |
| `Suggestion.InGroupedAppend` | graph_analyzer/pattern_detectors/task_parallelism_detector.py:245-321 | a suggestion made in the taskwait loop or in the task loop ends up in the flattened dictionary of both |
| `Suggestion.FromGroupedAppend` | graph_analyzer/pattern_detectors/task_parallelism_detector.py:245-321 | a suggestion of the flattened dictionary was made by one of the two loops |
| `RecursiveCalls.CleanedRendered` | graph_analyzer/pattern_detectors/task_parallelism_detector.py:715-719 | cleaning a call string with a leading space and a trailing comma gives back its core |
| `RecursiveCalls.RemoveAllAbsent` | graph_analyzer/pattern_detectors/task_parallelism_detector.py:715 | removing a comma that does not occur changes nothing |
| `TaskSuggestions.WithRole` | graph_analyzer/pattern_detectors/task_parallelism_detector.py:235-241 | the list holds exactly the given units of the role |
| `TaskSuggestions.Workers` | graph_analyzer/pattern_detectors/task_parallelism_detector.py:235-242 | the worker list holds exactly the WORKER and BARRIER_WORKER units |
| `TaskSuggestions.RoleLists` | graph_analyzer/pattern_detectors/task_parallelism_detector.py:235-242 | the first loop collects the workers followed by the barrier workers, and the barriers, in vertex order |
| `TaskSuggestions.TaskwaitLine` | graph_analyzer/pattern_detectors/task_parallelism_detector.py:247-255 | the taskwait line search raises exactly when a data dependence sink has no ':' |
| `TaskSuggestions.LastBelow` | graph_analyzer/pattern_detectors/task_parallelism_detector.py:250-255 | the reference value: a sink of a dependence below the bound, and none exactly when no dependence is below it |
| `TaskSuggestions.TaskwaitLineIsLastBelow` | graph_analyzer/pattern_detectors/task_parallelism_detector.py:247-255 | without a malformed sink, the taskwait line is the last dependence sink whose line text is below the current bound, or the end position |
| `TaskSuggestions.TaskwaitLineNotEarliest` | graph_analyzer/pattern_detectors/task_parallelism_detector.py:250-255 | the line chosen is not the earliest dependence: the bound stays the end line, so a later lower line replaces an earlier one |
| `TaskSuggestions.TaskwaitFor` | graph_analyzer/pattern_detectors/task_parallelism_detector.py:245-258 | a taskwait suggestion is keyed by the barrier's start position and is a task suggestion |
| `TaskSuggestions.TaskwaitForLine` | graph_analyzer/pattern_detectors/task_parallelism_detector.py:245-258 | for a barrier with well-formed positions the taskwait succeeds and its pragma line is the last lower dependence sink or the end position |
| `TaskSuggestions.TaskwaitRuns` | graph_analyzer/pattern_detectors/task_parallelism_detector.py:245-266 | one iteration per barrier, each the taskwait of that barrier |
| `TaskSuggestions.RemoveAllChars` | graph_analyzer/pattern_detectors/task_parallelism_detector.py:284 | removing a character keeps only characters of the input, none equal to it |
| `TaskSuggestions.PragmaLineClean` | graph_analyzer/pattern_detectors/task_parallelism_detector.py:282-284 | a task pragma line holds no comma and no space |
| `TaskSuggestions.WorkerLookup` | graph_analyzer/pattern_detectors/task_parallelism_detector.py:276-277 | the worker lookup answers with a unit of the graph |
| `TaskSuggestions.TaskOf` | graph_analyzer/pattern_detectors/task_parallelism_detector.py:278-300 | a task suggestion is for the vertex holding the call and has the pragma "task" |
| `TaskSuggestions.TaskForCallResult` | graph_analyzer/pattern_detectors/task_parallelism_detector.py:272-313 | the loop body raises only what the lookup or the pragma line raises, and makes the task suggestion exactly when a FUNC or CU unit with role WORKER or BARRIER_WORKER holds the call |
| `TaskSuggestions.CallRuns` | graph_analyzer/pattern_detectors/task_parallelism_detector.py:272-313 | one iteration per recursive call of the vertex |
| `TaskSuggestions.VertexRuns` | graph_analyzer/pattern_detectors/task_parallelism_detector.py:269-313 | one iteration per vertex, gathering its calls' iterations |
| `TaskSuggestions.TaskSuggestionsErr` | graph_analyzer/pattern_detectors/task_parallelism_detector.py:217-321 | the detector raises exactly when a barrier's taskwait line or some call's loop body raises |
| `TaskSuggestions.TaskwaitsErr` | graph_analyzer/pattern_detectors/task_parallelism_detector.py:245-266 | the taskwait loop raises exactly when the taskwait of some BARRIER unit raises |
| `TaskSuggestions.TasksErr` | graph_analyzer/pattern_detectors/task_parallelism_detector.py:269-313 | the task loop raises exactly when the body for some recursive call of some vertex raises |
| `TaskSuggestions.TaskSuggestionsPermute` | graph_analyzer/pattern_detectors/task_parallelism_detector.py:217-321 | the result holds exactly the taskwait and task suggestions made, each as often as made; the dictionary only reorders them |
| `TaskSuggestions.TaskSuggestionsParts` | graph_analyzer/pattern_detectors/task_parallelism_detector.py:217-321 | a result is the taskwaits and tasks grouped by line key |
| `TaskSuggestions.EveryBarrierGetsTaskwait` | graph_analyzer/pattern_detectors/task_parallelism_detector.py:245-266 | every BARRIER unit gets its taskwait suggestion |
| `TaskSuggestions.TaskwaitSound` | graph_analyzer/pattern_detectors/task_parallelism_detector.py:245-266 | a taskwait in the result is the one of a BARRIER unit |
| `TaskSuggestions.TaskSound` | graph_analyzer/pattern_detectors/task_parallelism_detector.py:269-313 | a task in the result belongs to a recursive call of its vertex |
| `TaskSuggestions.TaskSuggestionsSound` | graph_analyzer/pattern_detectors/task_parallelism_detector.py:217-321 | every suggestion is a taskwait of a BARRIER unit or the task of a recursive call of its vertex |
| `TaskSuggestions.EveryTaskSuggested` | graph_analyzer/pattern_detectors/task_parallelism_detector.py:269-313 | every recursive call held by a task unit gets its task suggestion |
| `TaskSuggestions.TaskwaitSuggestion` | graph_analyzer/pattern_detectors/task_parallelism_detector.py:245-258 | the dependence loop for one barrier computes its specified taskwait |
| `TaskSuggestions.GroupSnoc` | graph_analyzer/pattern_detectors/task_parallelism_detector.py:259-266 | appending one keyed suggestion extends its key's list, or adds the key last |
| `TaskSuggestions.AddTaskwaits` | graph_analyzer/pattern_detectors/task_parallelism_detector.py:245-266 | the taskwait loop leaves the dictionary of the grouped taskwaits, or the error |
| `TaskSuggestions.CallTask` | graph_analyzer/pattern_detectors/task_parallelism_detector.py:272-313 | one call's body yields its specified task, at most one suggestion |
| `TaskSuggestions.GroupStep` | graph_analyzer/pattern_detectors/task_parallelism_detector.py:304-313 | inserting the at most one suggestion of a step groups the longer list |
| `TaskSuggestions.GroupAppend` | graph_analyzer/pattern_detectors/task_parallelism_detector.py:269-313 | grouping is insensitive to how the made suggestions are bracketed |
| `TaskSuggestions.AddCallTasks` | graph_analyzer/pattern_detectors/task_parallelism_detector.py:272-313 | the inner loop leaves the dictionary grouping everything made so far, or the error |
| `TaskSuggestions.AddTasks` | graph_analyzer/pattern_detectors/task_parallelism_detector.py:269-313 | the outer loop leaves the dictionary grouping taskwaits and all tasks, or the error |
| `TaskSuggestions.FlattenGroups` | graph_analyzer/pattern_detectors/task_parallelism_detector.py:316-321 | the nested loops list the suggestions key by key in insertion order |
| `TaskSuggestions.DetectTaskSuggestions` | graph_analyzer/pattern_detectors/task_parallelism_detector.py:217-321 | the detector returns the specified suggestion list, or the error |
| `UselessBarriers.FirstPragma` | graph_analyzer/pattern_detectors/task_parallelism_detector.py:565 | `pragma[0]` exists exactly for a task suggestion with a non-empty pragma, and is its first word |
| `UselessBarriers.SplitTaskwaits` | graph_analyzer/pattern_detectors/task_parallelism_detector.py:563-568 | the taskwait list holds only given taskwaits, the other list only given non-taskwait task suggestions |
| `UselessBarriers.SplitTaskwaitsParts` | graph_analyzer/pattern_detectors/task_parallelism_detector.py:563-568 | the split raises exactly on a suggestion without a first pragma word, and otherwise keeps each list in input order |
| `UselessBarriers.SplitTaskwaitsStops` | graph_analyzer/pattern_detectors/task_parallelism_detector.py:563-568 | once a prefix raises, the whole split raises with that error |
| `UselessBarriers.SplitByPragma` | graph_analyzer/pattern_detectors/task_parallelism_detector.py:563-568 | the first loop computes the specified split |
| `UselessBarriers.FirstFunctionAbove` | graph_analyzer/pattern_detectors/task_parallelism_detector.py:574-575 | the first function parent exists exactly when a FUNC unit lies above, and is one of them |
| `UselessBarriers.AddBody` | graph_analyzer/pattern_detectors/task_parallelism_detector.py:576-579 | listing a pragma line under a function body keeps every body's list non-empty |
| `UselessBarriers.Firsts` | graph_analyzer/pattern_detectors/task_parallelism_detector.py:574-575 | the first function parent of each task, in order |
| `UselessBarriers.FunctionBodies` | graph_analyzer/pattern_detectors/task_parallelism_detector.py:571-579 | the dictionary built has a non-empty list for each body |
| `UselessBarriers.FunctionBodiesResult` | graph_analyzer/pattern_detectors/task_parallelism_detector.py:571-579 | the second loop raises exactly when some task has no function above it, and otherwise maps each function parent of a task to exactly the pragma lines of the tasks below it |
| `UselessBarriers.BodiesStep` | graph_analyzer/pattern_detectors/task_parallelism_detector.py:576-579 | one more task keeps the dictionary's meaning |
| `UselessBarriers.FunctionBodiesSnoc` | graph_analyzer/pattern_detectors/task_parallelism_detector.py:572-579 | the loop over one more task lists its pragma line under its function |
| `UselessBarriers.FunctionBodiesStops` | graph_analyzer/pattern_detectors/task_parallelism_detector.py:572-579 | a task without a function parent ends the loop with its error |
| `UselessBarriers.FirstFunctionOf` | graph_analyzer/pattern_detectors/task_parallelism_detector.py:574-575 | the search with `only_first` and the `[0][0]` index give the first function parent, or None where the index raises |
| `UselessBarriers.FunctionBodiesNone` | graph_analyzer/pattern_detectors/task_parallelism_detector.py:575 | a task without a function parent raises IndexError |
| `UselessBarriers.AddTask` | graph_analyzer/pattern_detectors/task_parallelism_detector.py:572-579 | one round of the second loop computes the specified dictionary for the longer prefix, or the error of the whole loop |
| `UselessBarriers.CollectBodies` | graph_analyzer/pattern_detectors/task_parallelism_detector.py:571-579 | the second loop computes the specified dictionary |
| `UselessBarriers.KeptRuns` | graph_analyzer/pattern_detectors/task_parallelism_detector.py:582-592 | one iteration per taskwait |
| `UselessBarriers.AnyLineNoLater` | graph_analyzer/pattern_detectors/task_parallelism_detector.py:589-592 | the innermost loop finds a line exactly when some listed pragma line is not after the taskwait's line in string order |
| `UselessBarriers.KeepOne` | graph_analyzer/pattern_detectors/task_parallelism_detector.py:583-592 | the loop over the function bodies for one taskwait computes its copies |
| `UselessBarriers.KeepTaskwaits` | graph_analyzer/pattern_detectors/task_parallelism_detector.py:582-592 | the third loop gathers the copies of every taskwait |
| `UselessBarriers.RemoveUselessBarrierSuggestions` | graph_analyzer/pattern_detectors/task_parallelism_detector.py:552-593 | the pass returns its specified list or error |
| `UselessBarriers.CopiesHas` | graph_analyzer/pattern_detectors/task_parallelism_detector.py:585-592 | a copy of the taskwait is made exactly for a body above it listing a line not after it |
| `UselessBarriers.SplitMember` | graph_analyzer/pattern_detectors/task_parallelism_detector.py:563-568 | every given suggestion lands in the list its first pragma word selects |
| `UselessBarriers.KeptJustified` | graph_analyzer/pattern_detectors/task_parallelism_detector.py:582-592 | a kept taskwait is justified by a task below the same function body whose line is not after it |
| `UselessBarriers.JustifiedKept` | graph_analyzer/pattern_detectors/task_parallelism_detector.py:582-592 | a justified taskwait is kept |
| `UselessBarriers.SplitErr` | graph_analyzer/pattern_detectors/task_parallelism_detector.py:563-568 | the first loop raises exactly when some suggestion has no first pragma word |
| `UselessBarriers.BodiesErr` | graph_analyzer/pattern_detectors/task_parallelism_detector.py:571-579 | the second loop raises exactly when some task has no function above it |
| `UselessBarriers.KeptErr` | graph_analyzer/pattern_detectors/task_parallelism_detector.py:582-584 | the third loop raises exactly when some taskwait's pragma line has no ':' |
| `UselessBarriers.RemoveUselessErr` | graph_analyzer/pattern_detectors/task_parallelism_detector.py:552-593 | the pass raises exactly in the three cases above |
| `UselessBarriers.RemoveUselessKeepsTasks` | graph_analyzer/pattern_detectors/task_parallelism_detector.py:581 | the non-taskwait suggestions all stay, in order, at the front |
| `UselessBarriers.RemoveUselessSound` | graph_analyzer/pattern_detectors/task_parallelism_detector.py:552-593 | every result suggestion was given, and a taskwait in it is justified by a given task |
| `UselessBarriers.RemoveUselessStages` | graph_analyzer/pattern_detectors/task_parallelism_detector.py:552-593 | a successful pass is the split, the dictionary and the kept taskwaits in turn |
| `UselessBarriers.RemoveUselessComplete` | graph_analyzer/pattern_detectors/task_parallelism_detector.py:552-593 | a taskwait some given task justifies is kept |
| `UselessBarriers.KeptInGather` | graph_analyzer/pattern_detectors/task_parallelism_detector.py:582-592 | a taskwait kept in its own iteration is in the gathered result |
| `ParallelRegions.AncestorHigher` | graph_analyzer/pattern_detectors/task_parallelism_detector.py:617-628 | a function above a unit lies strictly higher in the child tree, so the upward walk climbs |
| `ParallelRegions.TaskSuggestions` | graph_analyzer/pattern_detectors/task_parallelism_detector.py:607 | the comprehension raises exactly when a suggestion has no first pragma word, and keeps exactly the suggestions whose pragma starts with "task" |
| `ParallelRegions.CollectParents` | graph_analyzer/pattern_detectors/task_parallelism_detector.py:609-611 | the first loop collects the function parents of every task, in task order |
| `ParallelRegions.StartParentsFacts` | graph_analyzer/pattern_detectors/task_parallelism_detector.py:609-611 | every collected pair is a function above some task, and every task with a function above it has a collected function above it |
| `ParallelRegions.Dedup` | graph_analyzer/pattern_detectors/task_parallelism_detector.py:613 | `list(set(...))` keeps each pair once and no other |
| `ParallelRegions.Heads` | graph_analyzer/pattern_detectors/task_parallelism_detector.py:627 | the first elements of the outer parents, in order |
| `ParallelRegions.FilterNew` | graph_analyzer/pattern_detectors/task_parallelism_detector.py:628 | keeps exactly the new parents whose function is not yet an outer parent |
| `ParallelRegions.WeightAppend` | graph_analyzer/pattern_detectors/task_parallelism_detector.py:617-628 | the weight of a queue is the sum of its parts |
| `ParallelRegions.NewParentsAbove` | graph_analyzer/pattern_detectors/task_parallelism_detector.py:619-628 | the parents appended to the queue lie above the one popped |
| `ParallelRegions.RoundLowers` | graph_analyzer/pattern_detectors/task_parallelism_detector.py:617-628 | each round of the `while len(parents) > 0` loop lowers the queue's weight, so the loop ends |
| `ParallelRegions.Outer` | graph_analyzer/pattern_detectors/task_parallelism_detector.py:617-628 | the walk only adds outer parents, all units of the graph |
| `ParallelRegions.OuterParents` | graph_analyzer/pattern_detectors/task_parallelism_detector.py:615-628 | the queue loop computes the specified outer parents |
| `ParallelRegions.FromTaskUp` | graph_analyzer/pattern_detectors/task_parallelism_detector.py:619-628 | a function one level above a function above a task is above that task |
| `ParallelRegions.OuterSound` | graph_analyzer/pattern_detectors/task_parallelism_detector.py:617-628 | every outer parent is a function above a task that has no function above it |
| `ParallelRegions.OuterComplete` | graph_analyzer/pattern_detectors/task_parallelism_detector.py:617-628 | a unit below a function of the queue or of the outer parents still has an outer parent above it at the end |
| `ParallelRegions.Regions` | graph_analyzer/pattern_detectors/task_parallelism_detector.py:631-635 | one region per outer parent |
| `ParallelRegions.RegionFrom` | graph_analyzer/pattern_detectors/task_parallelism_detector.py:631-635 | every region comes from an outer parent |
| `ParallelRegions.RegionOf` | graph_analyzer/pattern_detectors/task_parallelism_detector.py:631-635 | every outer parent gets its region |
| `ParallelRegions.RegionSuggestions` | graph_analyzer/pattern_detectors/task_parallelism_detector.py:631-635 | the last loop builds one region suggestion per outer parent, spanning its last node's lines |
| `ParallelRegions.SuggestParallelRegions` | graph_analyzer/pattern_detectors/task_parallelism_detector.py:596-636 | the pass returns its specified region list or error |
| `ParallelRegions.ParallelRegionsSound` | graph_analyzer/pattern_detectors/task_parallelism_detector.py:596-636 | every region is around an outermost function: a FUNC unit with no function above it, reached from a task through its child `last`, spanning `last`'s lines |
| `ParallelRegions.ParallelRegionsComplete` | graph_analyzer/pattern_detectors/task_parallelism_detector.py:596-636 | every task suggestion with a function above it has a region around a function above it |
| `ContainedLines.InsertKeyed` | graph_analyzer/pattern_detectors/task_parallelism_detector.py:521-524 | appending a suggestion under its own unit keeps every list keyed by its unit |
| `ContainedLines.Partition` | graph_analyzer/pattern_detectors/task_parallelism_detector.py:513-524 | region suggestions go straight to the output, the others into the list of their unit, units unique; together they are the input |
| `ContainedLines.PartitionLoop` | graph_analyzer/pattern_detectors/task_parallelism_detector.py:513-524 | the first loop computes the specified partition |
| `ContainedLines.InsertByStart` | graph_analyzer/pattern_detectors/task_parallelism_detector.py:528 | inserting adds exactly the one suggestion |
| `ContainedLines.AppendSorted` | graph_analyzer/pattern_detectors/task_parallelism_detector.py:528 | appending a suggestion that does not start before the last keeps a list sorted |
| `ContainedLines.InsertByStartSorted` | graph_analyzer/pattern_detectors/task_parallelism_detector.py:528 | stable insertion keeps a list sorted by region start |
| `ContainedLines.SortByStart` | graph_analyzer/pattern_detectors/task_parallelism_detector.py:528 | the sort is a permutation sorted by region start in string order |
| `ContainedLines.SortGroups` | graph_analyzer/pattern_detectors/task_parallelism_detector.py:526-529 | every list sorted, the units unchanged |
| `ContainedLines.SortLoop` | graph_analyzer/pattern_detectors/task_parallelism_detector.py:526-529 | the second loop replaces each unit's list by its sorted copy |
| `ContainedLines.FlattenSorted` | graph_analyzer/pattern_detectors/task_parallelism_detector.py:526-529 | sorting the lists keeps the suggestions of all units |
| `ContainedLines.SortKeeps` | graph_analyzer/pattern_detectors/task_parallelism_detector.py:526-529 | sorting keeps the lists keyed by their unit and the units unique |
| `ContainedLines.EndOf` | graph_analyzer/pattern_detectors/task_parallelism_detector.py:533-544 | setting a region end changes only the region end of the task suggestion |
| `ContainedLines.EndRuns` | graph_analyzer/pattern_detectors/task_parallelism_detector.py:533-544 | one step per suggestion of the unit |
| `ContainedLines.Erased` | graph_analyzer/pattern_detectors/task_parallelism_detector.py:539-542 | clearing the region ends keeps the length and clears each |
| `ContainedLines.EndOfValue` | graph_analyzer/pattern_detectors/task_parallelism_detector.py:535-542 | a suggestion followed by another ends one line before the next starts, and the last ends at the line of its end position |
| `ContainedLines.EndsSetAt` | graph_analyzer/pattern_detectors/task_parallelism_detector.py:535-542 | the same, as the clause for one index of a finished list |
| `ContainedLines.EndsSetFrom` | graph_analyzer/pattern_detectors/task_parallelism_detector.py:533-544 | a list whose elements are the steps' values has all ends set and otherwise agrees with the input |
| `ContainedLines.WithEndsErr` | graph_analyzer/pattern_detectors/task_parallelism_detector.py:533-544 | the inner loop raises exactly when a following start is not a number or the last end position lacks its ':' |
| `ContainedLines.WithEndsResult` | graph_analyzer/pattern_detectors/task_parallelism_detector.py:533-544 | without error the inner loop keeps every suggestion and its order, changes only the region ends, and sets them all |
| `ContainedLines.SetEnds` | graph_analyzer/pattern_detectors/task_parallelism_detector.py:533-544 | the inner loop, updating the list in place, computes the specified list or error |
| `ContainedLines.GroupRuns` | graph_analyzer/pattern_detectors/task_parallelism_detector.py:532-544 | one iteration per unit |
| `ContainedLines.EndLoop` | graph_analyzer/pattern_detectors/task_parallelism_detector.py:532-544 | the third loop gathers every unit's list with its ends set, or the first error |
| `ContainedLines.FlattenSnoc` | graph_analyzer/pattern_detectors/task_parallelism_detector.py:546-548 | flattening one more list appends it |
| `ContainedLines.AppendGroups` | graph_analyzer/pattern_detectors/task_parallelism_detector.py:546-548 | the last loop appends every unit's list in unit order after the region suggestions |
| `ContainedLines.SetTaskContainedLines` | graph_analyzer/pattern_detectors/task_parallelism_detector.py:503-549 | the pass returns its specified list or error |
| `ContainedLines.ErasedAppend` | graph_analyzer/pattern_detectors/task_parallelism_detector.py:539-542 | clearing the ends distributes over concatenation |
| `ContainedLines.ErasedPermutes` | graph_analyzer/pattern_detectors/task_parallelism_detector.py:528-542 | clearing the ends of two permutations leaves permutations |
| `ContainedLines.FlattenErased` | graph_analyzer/pattern_detectors/task_parallelism_detector.py:532-548 | lists that agree once the ends are cleared flatten to lists that agree |
| `ContainedLines.EndedGroups` | graph_analyzer/pattern_detectors/task_parallelism_detector.py:532-544 | the third loop's lists are the sorted lists with their ends set |
| `ContainedLines.ContainedLinesErr` | graph_analyzer/pattern_detectors/task_parallelism_detector.py:503-549 | the pass raises exactly when some sorted unit list cannot have its ends set |
| `ContainedLines.ContainedLinesResult` | graph_analyzer/pattern_detectors/task_parallelism_detector.py:503-549 | the result is the region suggestions, then each unit's list sorted by region start with its ends set; once the ends are cleared it is a permutation of the input |
| `ContainedLines.EndsKeepOrder` | graph_analyzer/pattern_detectors/task_parallelism_detector.py:539-544 | changing only region ends keeps the sort order and the unit |
| `TaskloopReduction.EnclosesErr` | graph_analyzer/pattern_detectors/task_parallelism_detector.py:483-491 | the enclosure test raises exactly when the task's positions lack their ':'; the loop's always have one |
| `TaskloopReduction.ContainedIn` | graph_analyzer/pattern_detectors/task_parallelism_detector.py:482-492 | the scan keeps only loops of the graph |
| `TaskloopReduction.ContainedInOk` | graph_analyzer/pattern_detectors/task_parallelism_detector.py:476-492 | the scan raises exactly when there is a loop above and the task's positions lack their ':' |
| `TaskloopReduction.ContainedInMember` | graph_analyzer/pattern_detectors/task_parallelism_detector.py:482-492 | without error the scan keeps exactly the loops whose line texts enclose the task's |
| `TaskloopReduction.FactFor` | graph_analyzer/pattern_detectors/task_parallelism_detector.py:497-499 | the first reduction fact whose loop line is the given line, and none exactly when no fact has it |
| `TaskloopReduction.FirstReduction` | graph_analyzer/pattern_detectors/task_parallelism_detector.py:494-500 | a fact exactly when some kept loop is flagged as reduction and has a fact, and then the first fact of such a loop |
| `TaskloopReduction.ReductionEntryErr` | graph_analyzer/pattern_detectors/task_parallelism_detector.py:466-500 | the lookup raises exactly when a loop is above the task and the task's positions lack their ':' |
| `TaskloopReduction.ReductionEntrySound` | graph_analyzer/pattern_detectors/task_parallelism_detector.py:466-500 | a fact is returned only for an enclosing reduction loop above the task, and it is that loop's first fact |
| `TaskloopReduction.ReductionEntryNone` | graph_analyzer/pattern_detectors/task_parallelism_detector.py:466-500 | None is returned only when no loop above the task both encloses it and is a reduction loop |
| `TaskloopReduction.ScanContained` | graph_analyzer/pattern_detectors/task_parallelism_detector.py:482-492 | the first loop computes the specified enclosing loops or error |
| `TaskloopReduction.ContainedInStep` | graph_analyzer/pattern_detectors/task_parallelism_detector.py:482-492 | one more iteration of the scan appends the loop exactly when it encloses the task |
| `TaskloopReduction.ContainedInStops` | graph_analyzer/pattern_detectors/task_parallelism_detector.py:482-492 | once a prefix raises, the whole scan raises that error |
| `TaskloopReduction.FirstOfContained` | graph_analyzer/pattern_detectors/task_parallelism_detector.py:494-500 | the second loop finds the specified first reduction fact |
| `TaskloopReduction.TaskContainedInReductionLoop` | graph_analyzer/pattern_detectors/task_parallelism_detector.py:466-500 | the lookup returns its specified fact, None or error |
| `TaskloopReduction.ReductionClausePlain` | graph_analyzer/pattern_detectors/task_parallelism_detector.py:456-459 | a variable name without `.addr` appears in the clause unchanged |
| `TaskloopReduction.ReductionClauseAddr` | graph_analyzer/pattern_detectors/task_parallelism_detector.py:458 | `sum.addr` appears in the clause as `sum` |
| `TaskloopReduction.RewrittenMeaning` | graph_analyzer/pattern_detectors/task_parallelism_detector.py:443-462 | each iteration appends one suggestion; only a task's pragma changes, to taskloop with the reduction clause, and exactly when a reduction loop encloses it |
| `TaskloopReduction.RewriteRuns` | graph_analyzer/pattern_detectors/task_parallelism_detector.py:443-462 | one iteration per suggestion |
| `TaskloopReduction.DetectTaskloopReduction` | graph_analyzer/pattern_detectors/task_parallelism_detector.py:429-463 | the pass returns its specified list or error |
| `TaskloopReduction.TaskloopReductionErr` | graph_analyzer/pattern_detectors/task_parallelism_detector.py:429-463 | the pass raises exactly when some task has a loop above it and positions without their ':' |
| `TaskloopReduction.TaskloopReductionOne` | graph_analyzer/pattern_detectors/task_parallelism_detector.py:429-463 | without error the result has one suggestion per input, each the rewrite of its input |
| `TaskloopReduction.TaskloopReductionSound` | graph_analyzer/pattern_detectors/task_parallelism_detector.py:429-463 | a changed suggestion is a task with an enclosing reduction loop above it, and such a task is always changed |
| `BarrierSuggestions.SplitNodesErr` | graph_analyzer/pattern_detectors/task_parallelism_detector.py:337-343 | the split raises exactly when a task suggestion has an empty pragma |
| `BarrierSuggestions.SplitNodesMember` | graph_analyzer/pattern_detectors/task_parallelism_detector.py:337-349 | the split lists exactly the units of the task suggestions and of the taskwait suggestions, region suggestions skipped |
| `BarrierSuggestions.SplitForBarriers` | graph_analyzer/pattern_detectors/task_parallelism_detector.py:337-349 | the first loop computes the specified unit lists or error |
| `BarrierSuggestions.SplitNodesStops` | graph_analyzer/pattern_detectors/task_parallelism_detector.py:337-343 | once a prefix raises, the whole split raises that error |
| `BarrierSuggestions.StartText` | graph_analyzer/pattern_detectors/task_parallelism_detector.py:359-360 | the start line text of a unit is the text after the colon of its start position |
| `BarrierSuggestions.EndText` | graph_analyzer/pattern_detectors/task_parallelism_detector.py:388-389 | the end line text of a unit is the text after the colon of its end position |
| `BarrierSuggestions.DepTargets` | graph_analyzer/pattern_detectors/task_parallelism_detector.py:357-358 | the targets of the unit's outgoing dependences are units of the graph |
| `BarrierSuggestions.Counts` | graph_analyzer/pattern_detectors/task_parallelism_detector.py:361-370 | every target counts once; no task is counted exactly when no target is a task unit, no barrier exactly when every target is a task unit or not a barrier unit |
| `BarrierSuggestions.CountTargets` | graph_analyzer/pattern_detectors/task_parallelism_detector.py:361-370 | the counting loop computes the three counts |
| `BarrierSuggestions.Having` | graph_analyzer/pattern_detectors/task_parallelism_detector.py:378-383 | keeps exactly the targets whose flag is set |
| `BarrierSuggestions.FindUncovered` | graph_analyzer/pattern_detectors/task_parallelism_detector.py:384-398 | the nested loops find an uncovered task exactly when some child barrier does not start and end after some child task, comparing line texts as strings |
| `BarrierSuggestions.UncoveredStep` | graph_analyzer/pattern_detectors/task_parallelism_detector.py:391-398 | one more pair makes the flag true exactly when that barrier fails to cover that task |
| `BarrierSuggestions.UncoveredRow` | graph_analyzer/pattern_detectors/task_parallelism_detector.py:385-398 | finishing one task's row moves on to the next task |
| `BarrierSuggestions.UncoveredAll` | graph_analyzer/pattern_detectors/task_parallelism_detector.py:384-398 | the flag after all pairs is the specified one |
| `BarrierSuggestions.UncoveredMeaning` | graph_analyzer/pattern_detectors/task_parallelism_detector.py:378-398 | the flag is set exactly when some flagged task target is not covered by some flagged taskwait target |
| `BarrierSuggestions.TaskwaitAt` | graph_analyzer/pattern_detectors/task_parallelism_detector.py:406-409 | a new barrier suggestion is a taskwait on the unit at its start line text |
| `BarrierSuggestions.VisitShape` | graph_analyzer/pattern_detectors/task_parallelism_detector.py:371-423 | a visit changes nothing, marks the unit omittable, or makes it a new barrier with a taskwait suggestion |
| `BarrierSuggestions.VisitProgress` | graph_analyzer/pattern_detectors/task_parallelism_detector.py:371-423 | a visit either changes nothing or sets a flag that was unset |
| `BarrierSuggestions.SetFlagLowers` | graph_analyzer/pattern_detectors/task_parallelism_detector.py:374-417 | setting an unset flag lowers the count of flags that can still be set |
| `BarrierSuggestions.SweepAllProgress` | graph_analyzer/pattern_detectors/task_parallelism_detector.py:355-423 | a sweep reports a change only when it lowered that count, so `while transformation_happened` ends |
| `BarrierSuggestions.AddedNodes` | graph_analyzer/pattern_detectors/task_parallelism_detector.py:404-418 | the units of the appended suggestions, in order |
| `BarrierSuggestions.VisitKeeps` | graph_analyzer/pattern_detectors/task_parallelism_detector.py:371-423 | a visit keeps flags growing, and every appended suggestion a taskwait on a newly flagged barrier unit, none twice |
| `BarrierSuggestions.AddBarrierKeeps` | graph_analyzer/pattern_detectors/task_parallelism_detector.py:401-423 | making a unit a barrier keeps the same facts |
| `BarrierSuggestions.SweepAllKeeps` | graph_analyzer/pattern_detectors/task_parallelism_detector.py:355-423 | a sweep keeps the same facts |
| `BarrierSuggestions.ConvergeKeeps` | graph_analyzer/pattern_detectors/task_parallelism_detector.py:353-423 | the repetition keeps the same facts |
| `BarrierSuggestions.VisitQuiet` | graph_analyzer/pattern_detectors/task_parallelism_detector.py:371-423 | a visit that changes nothing finds the unit settled: omittable with one task and no barrier dependence, flagged as taskwait when a barrier is needed or there are only task dependences |
| `BarrierSuggestions.SweepAllQuiet` | graph_analyzer/pattern_detectors/task_parallelism_detector.py:355-423 | a sweep that changes nothing finds every visited unit settled |
| `BarrierSuggestions.ConvergeSettled` | graph_analyzer/pattern_detectors/task_parallelism_detector.py:353-423 | the repetition stops only when every unit of the graph is settled |
| `BarrierSuggestions.BarrierPassErr` | graph_analyzer/pattern_detectors/task_parallelism_detector.py:324-426 | the pass raises exactly when a task suggestion has an empty pragma |
| `BarrierSuggestions.BarrierPassKeeps` | graph_analyzer/pattern_detectors/task_parallelism_detector.py:324-426 | the given suggestions stay in front and new ones are only appended; the task flag is added exactly on the task units; no flag is cleared |
| `BarrierSuggestions.BarrierPassAdds` | graph_analyzer/pattern_detectors/task_parallelism_detector.py:401-423 | every appended suggestion is a taskwait on a unit that had neither a taskwait flag nor a taskwait suggestion; it is now flagged, and no unit gets two |
| `BarrierSuggestions.BarrierPassTaskwaitFlags` | graph_analyzer/pattern_detectors/task_parallelism_detector.py:346-423 | the taskwait flag ends set exactly on the units flagged before, those of the taskwait suggestions and those of the appended ones |
| `BarrierSuggestions.AppendedNodes` | graph_analyzer/pattern_detectors/task_parallelism_detector.py:404-423 | a unit is among the appended units exactly when some suggestion past the given ones is on it |
| `BarrierSuggestions.BarrierPassSettled` | graph_analyzer/pattern_detectors/task_parallelism_detector.py:353-423 | after the pass another sweep would change no unit |
| `BarrierSuggestions.ConvergeQuiet` | graph_analyzer/pattern_detectors/task_parallelism_detector.py:353-354 | the repetition ends on a sweep that changed nothing |
| `BarrierSuggestions.VisitFlags` | graph_analyzer/pattern_detectors/task_parallelism_detector.py:357-423 | the loop body for one unit computes the specified visit |
| `BarrierSuggestions.VisitUnit` | graph_analyzer/pattern_detectors/task_parallelism_detector.py:357-423 | the loop body, on the graph's flags, computes the specified visit |
| `BarrierSuggestions.SweepUnits` | graph_analyzer/pattern_detectors/task_parallelism_detector.py:355-423 | the vertex loop computes one specified sweep |
| `BarrierSuggestions.DetectBarrierSuggestions` | graph_analyzer/pattern_detectors/task_parallelism_detector.py:324-426 | the pass leaves the graph's flags and returns the list the specified pass gives, or raises with no flag touched |
| `BarrierSuggestions.SweepUntilStable` | graph_analyzer/pattern_detectors/task_parallelism_detector.py:351-423 | the `while transformation_happened` loop reaches the specified fixed point |
| `BarrierSuggestions.MarkFlags` | graph_analyzer/pattern_detectors/task_parallelism_detector.py:344-347 | the two loops set the task flag on the task units and the taskwait flag on the taskwait units |
| `TaskParallelism.ForkInfos` | graph_analyzer/pattern_detectors/task_parallelism_detector.py:198-202 | a task entry with an empty pragma for the first node of each fork on the debugging id with child tasks, and none exactly when there is no such fork |
| `TaskParallelism.CollectForkInfos` | graph_analyzer/pattern_detectors/task_parallelism_detector.py:198-202 | the fork loop computes the specified entries |
| `TaskParallelism.RemoveUselessNodes` | graph_analyzer/pattern_detectors/task_parallelism_detector.py:205 | removing useless taskwaits keeps only given entries |
| `TaskParallelism.RegionNodes` | graph_analyzer/pattern_detectors/task_parallelism_detector.py:206 | the regions lie on nodes of the graph |
| `TaskParallelism.ContainedLinesNodes` | graph_analyzer/pattern_detectors/task_parallelism_detector.py:207 | setting contained lines only reorders entries and sets region ends |
| `TaskParallelism.ReductionNodes` | graph_analyzer/pattern_detectors/task_parallelism_detector.py:208 | the reduction pass rewrites entries one for one, on the same node |
| `TaskParallelism.ListPassesOf` | graph_analyzer/pattern_detectors/task_parallelism_detector.py:205-208 | every entry the list passes return lies in the graph |
| `TaskParallelism.TaskNodes` | graph_analyzer/pattern_detectors/task_parallelism_detector.py:204 | every entry of the task pass lies in the graph |
| `TaskParallelism.PassesNeedPragmas` | graph_analyzer/pattern_detectors/task_parallelism_detector.py:198-209 | the passes succeed only when every fork entry carries a pragma, because the useless-barrier pass reads the first pragma word |
| `TaskParallelism.PassesResult` | graph_analyzer/pattern_detectors/task_parallelism_detector.py:204-209 | the final list has every entry on a node of the graph and no task entry without a pragma, and the flags only grow |
| `TaskParallelism.DetectionNeedsNoDebugFork` | graph_analyzer/pattern_detectors/task_parallelism_detector.py:198-209 | `run_detection` returns a list only when no fork on the debugging id has child tasks |
| `TaskParallelism.RunDetection` | graph_analyzer/pattern_detectors/task_parallelism_detector.py:166-214 | the roles and the task tree are built, then the passes give the final list and flags of the specified detection, or its first error with the flags untouched |
| `TaskParallelism.BuildTree` | graph_analyzer/pattern_detectors/task_parallelism_detector.py:183-194 | the roles are exactly those `MwTypes.RolesAfter` specifies for the vertex order with the two-RAW-edge rule, the fork list is exactly `TaskTree.TreeOf` of the main unit under those roles, starting with the main unit's task; the visualisation flags are left unchanged |
| `TaskParallelism.Roles` | graph_analyzer/pattern_detectors/task_parallelism_detector.py:183-191 | the vertex loop of `run_detection` leaves the roles `MwTypes.RolesAfter` specifies, with the two-RAW-edge rule |
| `TaskParallelism.TreeFromMain` | graph_analyzer/pattern_detectors/task_parallelism_detector.py:193-194 | the fork list is `TaskTree.TreeOf` of the main unit under the assigned roles, starts with the main unit's task and names nodes of the graph |
| `TaskParallelism.TreeForksIn` | graph_analyzer/pattern_detectors/task_parallelism_detector.py:193-194 | every fork of the tree names a node of the graph |
| `TaskParallelism.DetectFromTree` | graph_analyzer/pattern_detectors/task_parallelism_detector.py:198-209 | once the tree is built, the passes compute the specified detection |
| `TaskParallelism.ListPasses` | graph_analyzer/pattern_detectors/task_parallelism_detector.py:205-208 | the list passes compute their specified result, ending with the first error raised |

## Left out

- File input: the loop-count and reduction files read by `PatternDetector.__init__` are not parsed. The model takes them as a map and a list of reduction facts.
- XML input: the `lxml` parsing of units and dependences is not modelled. `PetBuild` starts from parsed records.
- Line maps: the read-line and write-line maps that turn a dependence's position into units are given as maps.
- Visualisation: `show()`, `planar_layout` and all printing are left out. The visualisation flags are modelled as sets of units, where the source stores the strings 'True' and 'False'.
- Floating point: the cosine `correlation_coefficient` is not computed.
  - The pipeline pass stores its two vectors, or the score -1 or 0, in the `pipeline` property.
  - The do-all test compares the exact ratio of the 0/1 vector, which stands for the same comparison in real numbers.
  - The square-root estimate `nt` is a parameter, and only its bucketing is modelled.
- Python sets: the order of `list(set(...))` in `__suggest_parallel_regions` is fixed as first occurrence. The order of the module-level `__forks` set is fixed as the order of the `__forks.add` calls: a fork task comes before the forks found below it. Python leaves both orders unspecified.
- Object identity: tasks and suggestions are values. `list.remove` on tasks is modelled as removal at the task's position. Two list entries that are one object in the source are two values in the model, so an update through one entry is not seen through the other.
- `UselessBarriers.RemoveUselessBarrierSuggestions`: it appends the same taskwait object once per reachable function body that qualifies it, so the list can hold one object several times. The model holds equal values instead.
- `ContainedLines.SetTaskContainedLines`: when one taskwait object occurs twice in a unit's group, the source writes `region_end_line` on that object twice, and both entries show the last value written. The model gives each entry its own value. When the two copies are neighbours in the sorted group, the first one ends on the line before its own start.
- `ContainedLines.SetEnds`: the same; each entry's region end is computed on its own, without the shared object.
- `ContainedLines.EndLoop`: the same; the loop writes each entry's value separately.
- `ContainedLines.ContainedLinesResult`: the same; duplicated entries may differ in their region ends, where the source's are equal.
- Python `int()`: it is modelled on digit strings only. Signs, whitespace and underscores are not accepted.
- `TaskTree.MergeTasks`: `__merge_tasks` is not called by `run_detection`, so the model states its result on its own and does not link it to the detection.
- `TaskParallelism.RunDetection`: its contract does not restate the roles and the task tree. `TaskParallelism.BuildTree`, which it calls first, states them as `MwTypes.RolesAfter` and `TaskTree.TreeOf`.
- Dangling edges: the graph builder keeps CHILD and SUCCESSOR edges to missing nodes, as the source does. The queries and passes, however, require `PetGraph.Wf`, in which every edge endpoint is a node. The KeyError that `node_at` raises on a dangling endpoint is therefore not modelled. Also, networkx's `add_edge` creates a missing target as a node without data. The model's vertex list and node map hold only the record ids, so `PetBuild.Build` and `PetBuild.BuildOrder` omit those extra vertices.
- Fork entries on the debugging id `130:0` get an empty pragma, and the useless-barrier pass then raises IndexError on them. The model keeps this behaviour. The source writes the pragma line of these entries as the empty list `[]`; the model writes the empty string.
- `LoopIterations.ChildParents`: models the evidently intended graph query of geometric_decomposition_detector.py. As written, line 156 and line 164 call `node.in_edges()`, which raises AttributeError: a CuNode has no `in_edges` or `out_edges` method, and PETGraphX has no `graph` attribute (see Findings).
- `LoopIterations.NearestLoopAbove`: models the evidently intended graph query of geometric_decomposition_detector.py. As written, lines 156-164 call `node.in_edges()` and read `pet.graph`, which raises AttributeError: a CuNode has no `in_edges` or `out_edges` method, and PETGraphX has no `graph` attribute (see Findings).
- `LoopIterations.GetParentIterations`: models the evidently intended graph query of geometric_decomposition_detector.py. As written, lines 156-164 call `node.in_edges()` and read `pet.graph`, which raises AttributeError: a CuNode has no `in_edges` or `out_edges` method, and PETGraphX has no `graph` attribute (see Findings).
- `LoopIterations.IterationCache.IterationsCount`: models the evidently intended graph query of geometric_decomposition_detector.py. As written, line 136 reads `pet.graph`, which raises AttributeError: a CuNode has no `in_edges` or `out_edges` method, and PETGraphX has no `graph` attribute (see Findings).
- `LoopIterations.IterationCache.TestChunkLimit`: models the evidently intended graph query of geometric_decomposition_detector.py. As written, line 110 calls `node.out_edges()`, which raises AttributeError: a CuNode has no `in_edges` or `out_edges` method, and PETGraphX has no `graph` attribute (see Findings).
- `LoopIterations.IterationCache.InnerLoopIterations`: models the evidently intended graph query of geometric_decomposition_detector.py. As written, line 121 reads `pet.graph`, which raises AttributeError: a CuNode has no `in_edges` or `out_edges` method, and PETGraphX has no `graph` attribute (see Findings).
- `LoopIterations.ChunkChildren`: models the evidently intended graph query of geometric_decomposition_detector.py. As written, lines 110-118 call `node.out_edges()` and read `pet.graph`, which raises AttributeError: a CuNode has no `in_edges` or `out_edges` method, and PETGraphX has no `graph` attribute (see Findings).
- `GeometricDecomposition.MakeGdInfo`: models the evidently intended graph query of geometric_decomposition_detector.py. As written, lines 37-38 read `pet.graph`, which raises AttributeError: a CuNode has no `in_edges` or `out_edges` method, and PETGraphX has no `graph` attribute (see Findings).
- `GeometricDecomposition.RunDetection`: models the evidently intended detection of geometric_decomposition_detector.py. As written, the chunk test reached at line 93 raises AttributeError (see Findings).
- `GeometricDecomposition.VisitNode`: models the evidently intended detection of geometric_decomposition_detector.py. As written, the chunk test reached at line 93 raises AttributeError (see Findings).
- `GeometricDecomposition.DetectAt`: models the evidently intended detection of geometric_decomposition_detector.py. As written, the chunk test reached at line 93 raises AttributeError (see Findings).

## Findings

| source | as written | input that shows it | evidently intended | confidence | as-written member | corrected member |
|---|---|---|---|---|---|---|
| graph_analyzer/pattern_detectors/geometric_decomposition_detector.py:110 | `__test_chunk_limit` calls the graph-tool method `node.out_edges()` on a CuNode, which has no such method; the first LOOP accepted by the predicate therefore raises AttributeError, and `run_detection` never returns a suggestion | a graph of one LOOP unit, no edges, nothing marked do-all or reduction | the chunk test over the LOOP children of the node and of its FUNC children, through `pet.out_edges(node.id, EdgeType.CHILD)` | high; not executed | `GeometricDecomposition.RunDetectionAsWritten`, `GeometricDecomposition.AsWrittenRaisesOnOneLoop` | `GeometricDecomposition.RunDetection` |
