# A Dafny model of the local mixture-of-experts control logic

This project models the parts of the repository that decide, refuse and attest, and proves what
they promise. Each module follows one component:

- **Adaptive selector** (`cell_contracts`, `hard_filter`, `rounding`, `ranking`, `utility`, `selector`, `advisor`,
  `advice_meaning`): hard eligibility, Pareto filter, clamped weighted utility, lexicographic tie-break. The
  selected cell is proved to be the least ranking key over *all* eligible cells, so the Pareto filter never
  changes the winner; selection is stable under removal and addition of cells and monotone in free memory. Each
  metric's exact share of the utility, the order of ties, and each rejection code's own event are stated apart
  from the code.
- **Fail-closed runtime supervisor** (`supervisor_world`, `supervisor_oracle`, `supervisor_runs`,
  `supervisor_readiness`, `supervisor_lives`, `supervisor_reasons`): a backend whose world may change after any snapshot, and the
  supervisor that must not be fooled. At every point of every run, ready is reported exactly when the world and
  the remaining schedule leave everything it vouches for untouched, and each reason code is given exactly for its
  own event; ambiguity is sticky over every run; processes are conserved, and in the
  deterministic world none is ever forgotten.
- **Bounded artifact-tree hashing** (`artifact_spec`, `artifact_walk`, `artifact_meaning`): the recursive walk
  with shared accumulators, three budgets and a hard-link cache, against the plain identity of the tree, whose
  limits, entries and order are read off the paths into the tree.
- **Agent loop and tool registry** (`json_schema`, `schema_meaning`, `agent_tools`, `tool_meaning`, `agent_calls`,
  `agent_transcript`, `agent_books`, `agent_loop`): schema validation, authorization, call-id normalization, and the loop
  with its turn, call and time budgets. Every guarantee holds for every model, clock and registry fault; each
  round carries out one model reply, every tool message renders the result its call must have, and every reason
  a run can end for has its exact condition.
- **Calibration** (`grouping`, `calibration`): the binned calibration error, its bounds by the mean
  absolute error and by the Brier score, and its growth under refinement of the bins.
- **Attestations** (`base64`, `dsse`, `documents`, `statements`, `envelopes`): DSSE v1 pre-authentication
  encoding, base64 of RFC 4648, in-toto statements and the evaluation envelopes around them.
- **Execution preview and receipts** (`execution_gate`, `receipts`, `stored_preview`): the dry-run admission
  preview, tied end to end to the selector; the content-addressed receipts it reads; and the reading that
  turns a parsed receipt into the preview's source.
- **Release gate** (`gate_config`, `release_gate`, `release_meaning`): configuration inheritance and the release decision.
- `basics`, `ordering`, `text`, `floats` hold shared notions: options and raised exceptions, string order and
  sorting, decimal numerals and joined paths, the double nearest to an integer.

Environment behaviour (model replies, clock readings, hash functions, signatures, JSON encoding, text
redaction, directory order, injected failures) is a parameter of function type or an arbitrary choice, so
every statement ranges over all of it. Numbers that the source keeps as floats are reals, rounding to
twelve decimals is modelled as round-half-even.

Results that differ from what one might expect of the code:

- `artifact_tree.py` refuses an empty file that follows an exactly used byte budget
  (`EmptyFileAfterExhaustedBudget`); `HashDirectory` states the exact success condition.
- Against an arbitrary backend, a `start` that spawns while a process is held forgets that process
  (`SecondStartLosesTheFirst`). Against the fake backend this never happens, because a held process keeps the
  port bound (`WorldForgetsNothing`).
- A cleanup reported as complete leaves a running root behind when the process was restarted under its process
  id, before the call or in its slot (`CompleteAfterRestart`, `CompleteYetRunning`, and concretely
  `RestartDuringCleanup`); `StopLeavesNothingIff` and `FailedStartLeavesNothingIff` say exactly when none is left.
- Attestation statements are compared with Python's `==`, under which `true` equals 1. Every accepted
  statement is the built one exactly when the binding's document holds no boolean, 0 or 1
  (`AcceptedIsBuiltIffUnambiguous`); a quorum of 1 is the everyday exception (`BooleanQuorumIsAccepted`).
- Receipt parsing strips white space around identifiers and converts integer metrics to floats before it checks
  digests. The payloads read as one genuine receipt are exactly those that differ from it in these two ways
  (`ReadAsIffTidy`), and an accepted payload reprints to itself exactly when its identifiers are unpadded and its
  metrics are floats already (`AcceptedReceiptReprints`). A padded identifier is accepted (`PaddedIdIsAccepted`), so
  is 1 for 1.0, and even 9007199254740993 under the digests of 9007199254740992.0 (`IntegerMetricIsAccepted`).
- The envelope creator does not check the size limit its verifier applies; `CreatedIsAccepted` gives the exact
  condition, `CreatedIsRefused` creator output that is refused.
- A normalized call id stays within 96 characters for every raw id exactly while fewer than 10^7 - 2 ids are in
  use (`AlwaysFitsIff`): a raw id that equals its own first suffixed form can push the search two suffixes past
  the number of used ids (`ChosenOverflows`).
- Argument validation raises on an integer beyond the range of a float, under every schema that lets it reach the
  number checks (`LimitOverflows`, `IntegerOverflowsIff`); the agent loop then records an internal harness error and
  the runner is not called (`AgentRun.Decide`).

## Model

| member | source | states |
|---|---|---|
| HardFilters.NoRejectionIffAdmits | src/local_moe/adaptive_selector.py:405-548 | the set of rejection codes of a cell is empty iff the cell meets the declarative requirement (demand, identity, measurement, snapshot, headroom) |
| HardFilters.EffectivePeaksShape | src/local_moe/adaptive_selector.py:567-593 | the maximum of estimate and applicable measurement keeps the shape of its pool and stays positive |
| HardFilters.ResourceRejections | src/local_moe/adaptive_selector.py:596-646 | the step-by-step headroom check adds exactly the specified memory codes |
| HardFilters.Freshness | src/local_moe/adaptive_selector.py:551-564 | adds the from-future and expired codes exactly when due, and nothing for absent timestamps |
| HardFilters.CollectRejections | src/local_moe/adaptive_selector.py:405-548 | the set grown over all checks is the union of the specified codes |
| HardFilters.HardFilter | src/local_moe/adaptive_selector.py:405-548 | returns the assessment of the specification, valid for its constructor |
| HardFilters.AssessSound | src/local_moe/adaptive_selector.py:113-190 | an assessment is eligible iff the cell is admitted, and its constructor accepts it |
| HardFilters.MoreMemoryKeepsEligibility | src/local_moe/adaptive_selector.py:596-646 | raising only free host or accelerator memory keeps an eligible cell eligible |
| Rounding.Round12Monotone | src/local_moe/adaptive_selector.py:691-718 | rounding to twelve decimals never reverses an order |
| Rounding.HalfEvenNearest | src/local_moe/adaptive_selector.py:717 | rounding goes to the nearest multiple, of two equally near to the even one |
| Ranking.UtilityMonotone | src/local_moe/adaptive_selector.py:691-718 | no worse on every active objective means at least the utility, before and after rounding, despite clamping |
| Ranking.UtilityInUnit | src/local_moe/adaptive_selector.py:691-718 | the utility lies in [0, 1] before and after rounding, as the assessment constructor demands |
| Ranking.DominanceDecreasesKey | src/local_moe/adaptive_selector.py:668-732 | a dominating cell has a strictly smaller ranking key |
| Ranking.KeyTotal | src/local_moe/adaptive_selector.py:721-732 | ranking keys of different cells are always comparable |
| Utility.QualityShare | src/local_moe/adaptive_selector.py:691-704 | cells that differ in quality alone differ in utility by the weighted difference over the total weight |
| Utility.LatencyShare | src/local_moe/adaptive_selector.py:697-704 | latency lowers the utility by its weighted share of the latency reference up to that reference, and no further beyond |
| Utility.MemoryShare | src/local_moe/adaptive_selector.py:698-704 | the same for memory against the memory reference |
| Utility.BeyondReferences | src/local_moe/adaptive_selector.py:691-704 | at or beyond both references only weighted quality counts |
| Utility.RankedUtility | src/local_moe/adaptive_selector.py:705-718 | the record's utility is within half a unit of the twelfth decimal, and ranking changes nothing else |
| Utility.PrecedesIff | src/local_moe/adaptive_selector.py:721-732 | a cell precedes another iff its rounded utility is higher, or equal and quality, latency, memory and id, in this order, break the tie |
| Utility.DominatesIffObjectives | src/local_moe/adaptive_selector.py:668-688 | dominance is no worse on every active objective and better on one |
| Selector.WinnerIsBest | src/local_moe/adaptive_selector.py:362-386 | the winner on the Pareto frontier is the least key over all eligible cells and is undominated |
| Selector.WinnerIffBest | src/local_moe/adaptive_selector.py:362-386 | a cell wins iff it precedes every other eligible cell |
| Selector.DominatedByFrontier | src/local_moe/adaptive_selector.py:362-380 | every dominated eligible cell is dominated by a frontier member |
| Selector.SelectionIsBest | src/local_moe/adaptive_selector.py:362-386 | something is selected iff some cell is eligible, and the selected one is the unique best |
| Selector.RemovalKeepsSelection | src/local_moe/adaptive_selector.py:362-386 | removing a cell that was not selected keeps the selection |
| Selector.AdditionKeepsOrSelects | src/local_moe/adaptive_selector.py:362-386 | adding a cell keeps the selection or selects the new cell |
| Advisor.CatalogAddition | src/local_moe/adaptive_selector.py:341-386 | both stability laws for whole catalogs |
| Advisor.SelectsIffAdmits | src/local_moe/adaptive_selector.py:341-386 | something is selected iff some cell of the catalog is admitted |
| Advisor.MoreMemoryKeepsRecommending | src/local_moe/adaptive_selector.py:341-386 | more free memory never turns a catalog with a recommendation into one without |
| Advisor.RankFrontier | src/local_moe/adaptive_selector.py:362-380 | the loop fills the frontier and replaces exactly the ranked records of the index |
| Advisor.RankAndSelect | src/local_moe/adaptive_selector.py:362-386 | returns the specified selection and every record ranked or left as it was, in id order |
| Advisor.GlobalRejections | src/local_moe/adaptive_selector.py:389-402 | collects exactly the reasons that block a whole catalog |
| Advisor.AdviseCell | src/local_moe/adaptive_selector.py:341-386 | raises iff capabilities are not explicit or the profile is unknown; otherwise returns the specified advice, which its constructor accepts |
| AdviceMeaning.AdviceMeans | src/local_moe/adaptive_selector.py:341-386 | advice recommends iff the snapshot is usable and some cell is admitted; each reason is given iff its case holds |
| AdviceMeaning.RecommendedLeads | src/local_moe/adaptive_selector.py:362-386 | a cell is recommended iff the snapshot is usable and the cell is eligible and ahead of every other eligible one |
| AdviceMeaning.RecordsMean | src/local_moe/adaptive_selector.py:362-380 | each cell's record is eligible iff assessed so, and on the frontier iff no other eligible cell dominates it |
| AdviceMeaning.RankedBy | src/local_moe/adaptive_selector.py:567-593 | an admitted cell is ranked by its measured success and latency and by the larger of estimate and measurement per pool |
| AdviceMeaning.HeadroomIff | src/local_moe/adaptive_selector.py:567-646 | there is headroom iff the estimate, and a measurement in the same pool, each fit their pool with the reserve |
| AdviceMeaning.AdmittedFits | src/local_moe/adaptive_selector.py:567-646 | an admitted cell's estimate and measurement both fit |
| AdviceMeaning.UnidentifiedAdmitsNothing | src/local_moe/adaptive_selector.py:513-522 | a snapshot that does not identify its machine admits no cell |
| AdviceMeaning.GlobalCodesMean | src/local_moe/adaptive_selector.py:389-402 | each global code is given iff its own event holds, and none iff the snapshot is recent with known, bounded swap |
| AdviceMeaning.DemandCodesMean | src/local_moe/adaptive_selector.py:418-433 | each demand code is given iff its own gap exists |
| AdviceMeaning.ComponentCodesMean | src/local_moe/adaptive_selector.py:433-466 | each identity code is given iff its own component is unknown, missing or different |
| AdviceMeaning.MeasurementCodesMean | src/local_moe/adaptive_selector.py:476-503 | each measurement code is given iff its own event holds |
| AdviceMeaning.ResourceCodesMean | src/local_moe/adaptive_selector.py:596-646 | each host and unified memory code is given iff its own event holds |
| AdviceMeaning.AcceleratorCodesMean | src/local_moe/adaptive_selector.py:626-646 | the same for accelerator memory |
| Advisor.FinalsSound | src/local_moe/adaptive_selector.py:246-312 | the returned records are valid, sorted, and hold the selected Pareto cell |
| SupervisorWorld.FakeBackend.ScheduleAfter | experiments/runtime_supervisor_fakes.py:223-233 | appends the mutation to the slot of the given occurrence |
| SupervisorWorld.FakeBackend.SpawnProcess | experiments/runtime_supervisor_fakes.py:239-256 | a new birth token, the automatic listener, then the scheduled mutations |
| SupervisorWorld.FakeBackend.SnapshotTree | experiments/runtime_supervisor_fakes.py:258-272 | reports the current root and descendants, then lets the schedule act |
| SupervisorWorld.FakeBackend.TerminateProcess | experiments/runtime_supervisor_fakes.py:288-326 | cleans up only the living managed process it is given; on a mismatch it reports complete and leaves the world alone; ambiguity reports survivors |
| SupervisorWorld.FakeBackend.Restart | experiments/runtime_supervisor_fakes.py:354-368 | a new birth under the same process id |
| SupervisorWorld.MutationsKeepPidsAscending | experiments/runtime_supervisor_fakes.py:335-408 | no schedule breaks the ascending order of the world's process ids |
| SupervisorOracle.FailClosedSupervisor.StartRuntime | experiments/runtime_supervisor_fakes.py:431-515 | the new states of supervisor and backend and the outcome are those of one specified start |
| SupervisorReasons.StartStatus | experiments/runtime_supervisor_fakes.py:431-515 | a start is ready iff it gathered everything without a reason, blocked iff blocked before or not cleaned up, else revoked; state, stickiness, process and cleanup follow |
| SupervisorReasons.StopStatus | experiments/runtime_supervisor_fakes.py:517-555 | a stop is blocked iff blocked before or not cleaned up, else stopped with nothing held |
| SupervisorReasons.StateIsStatus | experiments/runtime_supervisor_fakes.py:431-593 | over every run, the state is the reported status after each call, and ready iff that call was a start that reported ready |
| SupervisorReasons.StartReasons | experiments/runtime_supervisor_fakes.py:439-515 | port_occupied iff the port was bound at the check, backend_failure iff a call failed, cleanup_unverified iff blocked; all others are those of the snapshots |
| SupervisorReasons.CodesMean | experiments/runtime_supervisor_fakes.py:462-505 | each snapshot code is given iff its own event was scheduled where it matters: drift, restart, descendant, listener move, missing listener, failing probe |
| SupervisorReasons.CleanupCompleteIff | experiments/runtime_supervisor_fakes.py:288-326 | a cleanup is complete iff no failure is injected for it and the world does not hide it |
| SupervisorOracle.FailClosedSupervisor.StopRuntime | experiments/runtime_supervisor_fakes.py:517-555 | the new state and outcome are those of the specified stop, under every schedule and failure of the fake backend |
| SupervisorOracle.FailClosedSupervisor.FailAfterObservation | experiments/runtime_supervisor_fakes.py:557-593 | cleanup after a failed start; ambiguity keeps the process |
| SupervisorReadiness.MutateAllEffect | experiments/runtime_supervisor_fakes.py:335-420 | a slot raises iff it needs a process that does not exist, and otherwise has the summarized effect |
| SupervisorReadiness.PrepareFacts | experiments/runtime_supervisor_fakes.py:439-449 | from every known world, the phase before the spawn succeeds iff nothing fails, the port is free and stays free, and no slot needs a process when there never was one |
| SupervisorReadiness.ReadyIffUndisturbed | experiments/runtime_supervisor_fakes.py:431-515 | a start from any known world reports ready iff that world has a free port and its binding, no snapshot fails, and the slots ahead leave binding, process tree and listener undisturbed where it matters |
| SupervisorReadiness.RunsKeepKnown | experiments/runtime_supervisor_fakes.py:431-593 | every schedule and command sequence leads from known worlds to known worlds, raising slots included |
| SupervisorReadiness.EveryStartReadyIffUndisturbed | experiments/runtime_supervisor_fakes.py:431-593 | after every run on a fresh world, a further start reports ready iff the supervisor is not blocked and nothing disturbs that start |
| SupervisorReadiness.EmptyScheduleReadyIff | experiments/runtime_supervisor_fakes.py:431-515 | with nothing left scheduled, a start is ready iff it finds the port free and the binding undrifted |
| SupervisorRuns.RunsStayConsistent | experiments/runtime_supervisor_fakes.py:423-593 | over every run: sticky iff the state is unknown-blocking, sticky keeps the process, and ready outcomes name the held process |
| SupervisorRuns.AmbiguityIsSticky | experiments/runtime_supervisor_fakes.py:431-437 | once ambiguous, no call sequence changes the state or reports ready |
| SupervisorRuns.StickyNeverTouchesBackend | experiments/runtime_supervisor_fakes.py:431-437 | a sticky supervisor never calls the backend again |
| SupervisorRuns.ProcessesAreConserved | experiments/runtime_supervisor_fakes.py:431-593 | over every run, held plus spawned equals still held plus terminated plus forgotten |
| SupervisorRuns.DisciplineForgetsNothing | experiments/runtime_supervisor_fakes.py:431-593 | if start is only called while nothing is held, nothing is forgotten |
| SupervisorRuns.ForgetsIffSpawnsWhileHolding | experiments/runtime_supervisor_fakes.py:448-450 | a process is forgotten iff a start spawns while one is held |
| SupervisorRuns.SecondStartLosesTheFirst | experiments/runtime_supervisor_fakes.py:448-450 | the concrete case of two successful starts |
| SupervisorLives.MutationsKeepLife | experiments/runtime_supervisor_fakes.py:335-420 | while a process is managed no slot raises, and only a restart ends its life |
| SupervisorLives.MutationsKeepBound | experiments/runtime_supervisor_fakes.py:335-420 | no slot unbinds a bound listener |
| SupervisorLives.ObservedUntilRestart | experiments/runtime_supervisor_fakes.py:239-256 | after a spawn the observed root is the spawned process exactly until the first restart |
| SupervisorLives.GatherLives | experiments/runtime_supervisor_fakes.py:439-462 | a bound port stops a start before the spawn; a spawned process lives through the snapshots; without reasons the port is bound |
| SupervisorLives.WorldForgetsNothing | experiments/runtime_supervisor_fakes.py:431-593 | for every schedule and command sequence, no process is ever forgotten in the deterministic world |
| SupervisorLives.WorldConservesProcesses | experiments/runtime_supervisor_fakes.py:431-593 | there, every process spawned is still held or was reported terminated |
| SupervisorLives.CleanupLeavesNothingIff | experiments/runtime_supervisor_fakes.py:288-326 | a complete cleanup leaves no root observed iff the process was still the observed root and its slot holds no restart |
| SupervisorLives.CompleteYetRunning | experiments/runtime_supervisor_fakes.py:288-326 | with a restart in its slot, a cleanup of the living process reports complete and a root is observed afterwards |
| SupervisorLives.CompleteAfterRestart | experiments/runtime_supervisor_fakes.py:288-326 | so does a cleanup after the process was restarted |
| SupervisorLives.RestartDuringCleanup | experiments/runtime_supervisor_fakes.py:354-368 | the concrete case: one spawned process and a restart scheduled after its cleanup |
| SupervisorLives.FailedStartLeavesNothingIff | experiments/runtime_supervisor_fakes.py:557-593 | the same for a start that cleans up after itself |
| SupervisorLives.StopLeavesNothingIff | experiments/runtime_supervisor_fakes.py:517-555 | over every run, a stop with complete cleanup leaves no root observed iff the held process was not restarted |
| ArtifactSpec.StepsAreDeclarative | src/local_moe/artifact_tree.py:529-576 | the file-by-file conditions of the walk are plain conditions on all files of the tree |
| ArtifactSpec.FilesAreReachable | src/local_moe/artifact_tree.py:456-591 | every listed file is reached by its path |
| ArtifactSpec.ReachableAreFiles | src/local_moe/artifact_tree.py:456-591 | every regular file of the tree is listed |
| ArtifactSpec.FilesAreDistinct | src/local_moe/artifact_tree.py:456-591 | no file is listed twice |
| ArtifactSpec.HashedAtMostTotal | src/local_moe/artifact_tree.py:155-199 | bytes read never exceed the total size |
| ArtifactWalk.Walker.DigestOf | src/local_moe/artifact_tree.py:540-575 | the digest is the file's own, from the cache or by reading; the cache remembers each linked inode |
| ArtifactWalk.Walker.TakeFile | src/local_moe/artifact_tree.py:529-588 | succeeds iff the file meets its conditions, and appends exactly that file |
| ArtifactWalk.Walker.Scan | src/local_moe/artifact_tree.py:473-491 | whatever the enumeration order, the sorted names, counted against the entry limit |
| ArtifactWalk.Walker.WalkDirectory | src/local_moe/artifact_tree.py:456-591 | succeeds iff the directory meets its conditions, and then has taken in exactly its files in order |
| ArtifactWalk.IdentityIsUnique | src/local_moe/artifact_tree.py:155-199 | at most one identity fits a tree |
| ArtifactWalk.SortedIdentifies | src/local_moe/artifact_tree.py:412-453 | the sorted entries form a valid identity: one entry per file, unique paths, right sums |
| ArtifactWalk.HashDirectory | src/local_moe/artifact_tree.py:412-453 | returns iff the tree is admissible, and then the identity of the tree |
| Ordering.LessIffLexical | src/local_moe/artifact_tree.py:444 | the order used for sorting is Python's: a proper prefix first, else the first difference decides |
| ArtifactMeaning.EntriesInOrder | src/local_moe/artifact_tree.py:444 | any two entries of an identity are in that order of their paths |
| ArtifactMeaning.PrefixListedFirst | src/local_moe/artifact_tree.py:444 | a path that is a prefix of another is listed before it |
| ArtifactMeaning.EntriesDescribe | src/local_moe/artifact_tree.py:412-453 | an entry belongs to the identity iff some path of names leads to a regular file of that joined path, size and hash |
| ArtifactMeaning.DepthIff | src/local_moe/artifact_tree.py:494-498 | the depth limit holds iff no path into the tree is longer |
| ArtifactMeaning.ShapeIff | src/local_moe/artifact_tree.py:487-527 | the shape is right iff every path leads under usable names to a directory or regular file |
| ArtifactMeaning.OneMoreEntry | src/local_moe/artifact_tree.py:474-483 | a new child counts as one entry and everything below it |
| ArtifactMeaning.SharedIsReadOnce | src/local_moe/artifact_tree.py:540-575 | hard links of one known inode are read once |
| ArtifactMeaning.UnsharedIsAllRead | src/local_moe/artifact_tree.py:540-575 | without a shared inode every byte is read |
| ArtifactMeaning.EmptyAfterItsPrefix | src/local_moe/artifact_tree.py:483-545 | a one-byte file and an empty one whose name extends it are refused under a budget of one byte |
| Text.SplitJoin | src/local_moe/artifact_tree.py:483-490 | splitting a joined path at its slashes gives the names back |
| ArtifactWalk.WithoutEmptyFilesLimitsSuffice | src/local_moe/artifact_tree.py:543-547 | without empty files, staying within the limits is enough |
| ArtifactWalk.EmptyFileAfterExhaustedBudget | src/local_moe/artifact_tree.py:543-547 | two unlinked files, the first using up the byte budget and the second empty, are within every limit and still refused, for lack of budget alone |
| ArtifactWalk.OneByteAndNothing | src/local_moe/artifact_tree.py:543-547 | the concrete case of a one-byte file and an empty one under a budget of one byte |
| JsonSchema.NoErrorsIffConforms | src/local_moe/agent_tools.py:536-607 | the error list is empty iff the value conforms to the declarative schema predicate |
| JsonSchema.PathIrrelevant | src/local_moe/agent_tools.py:536-607 | whether there are errors does not depend on the reported path |
| JsonSchema.LimitOverflows | src/local_moe/agent_tools.py:588-596 | 2^1024 - 2^970 and its negative make validation raise under every schema that admits an integer |
| JsonSchema.IntegerOverflowsIff | src/local_moe/agent_tools.py:588-596 | without alternatives, an admitted integer makes validation raise iff it lies at or beyond that limit |
| SchemaMeaning.TypesPartition | src/local_moe/agent_tools.py:610-625 | every value has exactly one of the six types, and integers are the whole numbers |
| SchemaMeaning.EqualIsIdentity | src/local_moe/agent_tools.py:547-548 | on values without numbers and objects enum membership compares by identity |
| SchemaMeaning.EqualNumbers | src/local_moe/agent_tools.py:547-548 | on numbers it compares by value across booleans, integers and floats |
| SchemaMeaning.EqualObjects | src/local_moe/agent_tools.py:547-548 | on objects it compares keys and values, in any order |
| SchemaMeaning.StringProblems | src/local_moe/agent_tools.py:580-586 | each string problem is reported iff its own bound or pattern is violated |
| SchemaMeaning.NumberProblems | src/local_moe/agent_tools.py:588-596 | each number problem is reported iff its own bound is violated |
| JsonSchema.ValidateSchema | src/local_moe/agent_tools.py:536-607 | only appends to the error list, appends exactly the specified errors, and raises iff it meets an integer beyond the range of a float |
| JsonSchema.CheckObject | src/local_moe/agent_tools.py:560-590 | required, unknown and nested property errors, in order |
| JsonSchema.ValidateArguments | src/local_moe/agent_tools.py:528-533 | raises iff validation overflows; otherwise the whole list for a root value, empty iff the value conforms |
| AgentTools.FlagIffApproved | src/local_moe/agent_tool_schemas.py:44-159 | for every tool of the confirmation table, a confirmation flag is in the runner payload iff approval was required and given |
| AgentTools.BuildIndex | src/local_moe/agent_tools.py:121-143 | raises iff a name repeats; otherwise both indexes hold exactly the given tools |
| AgentTools.ToolRegistry.Authorize | src/local_moe/agent_tools.py:259-355 | lets a call through iff policy allows it or the handler approved that exact request; a denial, a missing, failing or refused approval each give their own status, code and message, and only the middle two pause |
| AgentTools.ToolRegistry.ReportReply | src/local_moe/agent_tools.py:357-445 | an ok is a success unless the payload reports an error, other statuses pass through, the data is the sanitized payload, and failures carry their own code |
| AgentTools.ToolRegistry.CheckArguments | src/local_moe/agent_tools.py:219-258 | accepts iff the arguments conform, are finite and hold no secret; otherwise the first of these failures gives its own code and message |
| AgentTools.ToolRegistry.Execute | src/local_moe/agent_tools.py:198-445 | raises iff validation overflows; calls the runner exactly once, with the specified payload, iff the call may run; and every outcome is the one its case demands |
| ToolMeaning.PolicyMeans | src/local_moe/agent_tools.py:71-85 | denial by name or risk comes first, then the need for approval, then the risk class |
| ToolMeaning.ResolveMeans | src/local_moe/agent_tools.py:195-196 | a name means the tool of that canonical name, failing that the one exposed under it |
| ToolMeaning.SanitizedInside | src/local_moe/agent_tools.py:651-669 | outside secret fields sanitizing keeps every value in its place, strings redacted |
| ToolMeaning.SecretIsRedacted | src/local_moe/agent_tools.py:651-669 | the value of a secret field is replaced as a whole |
| ToolMeaning.SecretIff | src/local_moe/agent_tools.py:628-638 | arguments hold a secret iff some place has a secret name or a string that redaction changes |
| ToolMeaning.NonFiniteIff | src/local_moe/agent_tools.py:641-648 | arguments hold a non-finite number iff one sits at some place |
| ToolMeaning.FlagsSet | src/local_moe/agent_tools.py:357 | every confirmation flag is set to true and every other argument arrives unchanged |
| ToolMeaning.BoundIsFirstFitting | src/local_moe/agent_tools.py:489-525 | a result is recorded in the first of its four forms that fits, and in the last if none does |
| AgentTools.BoundResult | src/local_moe/agent_tools.py:489-525 | keeps status and risk class, renders what it returns, and leaves a fitting result alone |
| AgentCalls.RawId | src/local_moe/agent_loop.py:613-618 | the raw id has at most 96 characters |
| AgentCalls.RawIdMeans | src/local_moe/agent_loop.py:613-618 | a usable id is kept, an empty one is replaced by the call's place, a long one keeps 63 characters and 32 of its hash |
| AgentCalls.FreshId | src/local_moe/agent_loop.py:619-624 | the search ends with the raw id if unused and otherwise the first unused suffix, at most two past the number of used ids |
| AgentCalls.NewAreDistinct | src/local_moe/agent_loop.py:619-624 | ids chosen in turn are distinct and outside the used ones |
| AgentCalls.ChosenAllFit | src/local_moe/agent_loop.py:613-624 | all ids stay within 96 characters below 10^7 - 2 used ids |
| AgentCalls.ChosenOverflows | src/local_moe/agent_loop.py:613-624 | from 10^7 - 2 used ids on, some raw id is given at least 97 characters |
| AgentCalls.AlwaysFitsIff | src/local_moe/agent_loop.py:613-624 | every chosen id fits 96 characters iff fewer than 10^7 - 2 ids are used |
| AgentCalls.NormalizeCalls | src/local_moe/agent_loop.py:605-632 | keeps number, order, names and arguments; ids are distinct, new to the run and recorded as used |
| AgentTranscript.TranscriptPaired | src/local_moe/agent_loop.py:300-468 | in a transcript of answered rounds each call has exactly one tool message, in order and after its call |
| AgentTranscript.ExecutionsAreUsed | src/local_moe/agent_loop.py:372-400 | executions never exceed the calls counted against the budget |
| AgentBooks.KeptObserve | src/local_moe/agent_loop.py:316-478 | every observation keeps transcript, tallies, ids, grounding and budget control in step with the rounds |
| AgentBooks.KeptOpen | src/local_moe/agent_loop.py:300-314 | opening a round under new ids keeps the invariant |
| AgentBooks.AdmittedObserve | src/local_moe/agent_loop.py:319-370 | with a monotone clock a used-up budget refuses every later call |
| AgentBooks.PlainResultBounds | src/local_moe/agent_loop.py:441-458 | the replacement for an unserializable result can always be bounded |
| AgentBooks.VerdictExplains | src/local_moe/agent_loop.py:245-557 | a last reply that opens no round ends the run for exactly one reason: raised, too many calls, no usable answer, out of time, or answered |
| AgentBooks.HandedArePaired | src/local_moe/agent_loop.py:220-244 | at every model call of every run, the transcript handed over is paired under run-unique ids |
| AgentBooks.CompletedIsFullyGrounded | src/local_moe/agent_loop.py:479-545 | a completed run is grounded in all successful results, and the runner was called at most as often as calls were used, within the budget |
| AgentLoop.AgentRun.Decide | src/local_moe/agent_loop.py:316-440 | a call is refused iff time, turns or calls are used up, with the code of the first of these; oversized arguments and harness failures carry their own code; otherwise the outcome is the registry's; the runner is called iff the call may run and the harness gets there |
| AgentLoop.AgentRun.BoundOrReplace | src/local_moe/agent_loop.py:441-458 | the recorded result is the bounded one, or the bounded replacement for one that does not serialize, and the text renders it |
| AgentLoop.AgentRun.Observe | src/local_moe/agent_loop.py:316-478 | one call adds exactly one observation to the open round and keeps the invariant |
| AgentLoop.AgentRun.AnswerAll | src/local_moe/agent_loop.py:316-478 | answers every call of the round in order and reports pause and exhaustion |
| AgentLoop.AgentRun.HandOver | src/local_moe/agent_loop.py:234-244 | delivers what is pending; the messages at hand are exactly the transcript so far |
| AgentLoop.AgentRun.Consult | src/local_moe/agent_loop.py:237-244 | hands the model that transcript and gets the reply of this turn |
| AgentLoop.AgentRun.PlayRound | src/local_moe/agent_loop.py:300-478 | the new round carries out the reply: its calls in order under new ids, its redacted content, and every call answered |
| AgentLoop.AgentRun.Conclude | src/local_moe/agent_loop.py:509-557 | a reply without calls ends the run as completed, out of time or invalid |
| AgentLoop.AgentRun.Turn | src/local_moe/agent_loop.py:220-557 | a turn returns a result or leaves the run ready for a turn that still exists |
| AgentLoop.AgentRun.Loop | src/local_moe/agent_loop.py:220-572 | always returns from inside the loop; the fall-through is unreachable |
| AgentLoop.Run | src/local_moe/agent_loop.py:166-572 | raises iff the text is empty or too long; otherwise the result accounts for its rounds: each carries out the model reply of its turn; every observation is what its call, turn, counted calls and clock reading demand, and its text renders its result; turns, calls, runner calls, results, approvals, grounding and budgets are those of the rounds; and each reason is given iff its condition on the last round, the last reply and the last clock reading holds |
| Grouping.GroupBy | experiments/eval_verified_routing.py:162-169 | each group holds its items in order, and each key is listed once |
| Grouping.StrataConserve | experiments/eval_verified_routing.py:162-169 | whatever is summed per case, the strata together hold exactly the whole |
| Calibration.FineBinInCoarse | experiments/eval_verified_routing.py:241-246 | with m times as many bins each fine bin lies in one coarse bin, also where 1 is clamped |
| Calibration.ErrorAtMostMeanAbsolute | experiments/eval_verified_routing.py:241-252 | the error lies between 0 and the mean absolute difference |
| Calibration.ErrorSquaredAtMostBrier | experiments/eval_verified_routing.py:230-252 | the squared error is at most the Brier score |
| Calibration.RefiningNeverDecreases | experiments/eval_verified_routing.py:241-252 | splitting every bin into m parts never lowers the error, before and after rounding |
| Calibration.Ece | experiments/eval_verified_routing.py:241-252 | grouping and summing group by group gives the rounded sum over all bins |
| Calibration.BinHolds | experiments/eval_verified_routing.py:241-252 | a bin holds the predictions from its lower edge to the next, and the last one also 1 |
| Calibration.OneBinError | experiments/eval_verified_routing.py:241-252 | with all samples in one bin the error is the distance of the mean prediction from the mean outcome |
| Calibration.SingleBinError | experiments/eval_verified_routing.py:241-252 | so it is with a single bin |
| Calibration.DisjointBinsAdd | experiments/eval_verified_routing.py:241-252 | samples that share no bin contribute independently |
| Base64.DecodeEncode | src/local_moe/assistant_bridge_attestation.py:767-775 | decoding inverts encoding |
| Base64.ReencodeIffZeroTail | src/local_moe/assistant_bridge_attestation.py:167-178 | an accepted text re-encodes to itself iff its left-over bits are zero |
| Base64.TestVectors | src/local_moe/assistant_bridge_attestation.py:370-375 | the encodings of section 10 of RFC 4648 |
| Base64.Alphabet | src/local_moe/assistant_bridge_attestation.py:370-375 | the alphabet is capitals, small letters, digits, plus and slash in this order |
| Dsse.PreAuthInjective | src/local_moe/assistant_bridge_attestation.py:757-764 | different pairs of payload type and payload are signed as different bytes |
| Dsse.ReadsBack | src/local_moe/assistant_bridge_attestation.py:757-764 | a reader of the header text and two counted fields gets payload type and payload back |
| Documents.SameIsEqual | src/local_moe/assistant_bridge_attestation.py:566-582 | what equals an unambiguous document under Python's comparison is that document |
| Statements.Build | src/local_moe/assistant_bridge_two_phase_contracts.py:442-551 | raises iff id, lifetime or checks are unusable; otherwise the statement with sorted checks |
| Statements.CollectChecks | src/local_moe/assistant_bridge_attestation.py:544-561 | reads all checks back exactly, or raises |
| Statements.Validate | src/local_moe/assistant_bridge_attestation.py:459-754 | returns exactly the accepted terms, and raises iff there are none |
| Statements.BuiltIsAccepted | src/local_moe/assistant_bridge_attestation.py:459-754 | a statement built from admissible terms is accepted with those terms |
| Statements.TermsAreDetermined | src/local_moe/assistant_bridge_attestation.py:459-754 | a statement is accepted with one set of terms at most |
| Statements.AcceptedIsBuiltIffUnambiguous | src/local_moe/assistant_bridge_attestation.py:566-582 | every accepted statement is the built one iff the binding's document holds no boolean, 0 or 1 |
| Statements.BooleanQuorumIsAccepted | src/local_moe/assistant_bridge_attestation.py:489-494 | under a quorum of 1, `true` in its place is accepted |
| Statements.LiveIsHistoricalInTime | src/local_moe/assistant_bridge_attestation.py:678-690 | live acceptance is historical acceptance inside the lifetime, with the same terms |
| Statements.VersionsDoNotMix | src/local_moe/assistant_bridge_attestation.py:474-483 | evaluation evidence is never accepted as authority |
| Statements.AcceptedSays | src/local_moe/assistant_bridge_attestation.py:459-700 | an accepted statement says its terms, verifier and binding field by field, within the binding's lifetime |
| Statements.AcceptedOutcome | src/local_moe/assistant_bridge_attestation.py:459-700 | its outcome lists the checks in order of their ids and passes iff all of them do |
| Envelopes.VerifyEvaluation | src/local_moe/assistant_bridge_attestation.py:153-212 | accepts exactly the canonical encodings of signed, canonical, valid statements |
| Envelopes.AuthenticIsDetermined | src/local_moe/assistant_bridge_attestation.py:381-432 | an accepted envelope has one statement, one signature and one set of terms |
| Envelopes.LiveIsHistoricalEnvelope | src/local_moe/assistant_bridge_attestation.py:133-160 | live verification is historical verification inside the lifetime |
| Envelopes.SignedBytesAreDistinct | src/local_moe/assistant_bridge_attestation.py:757-764 | a signature covers one statement only |
| Envelopes.RecordNeverRefuses | src/local_moe/assistant_bridge_two_phase_contracts.py:617-682 | the result record's own checks hold for everything verification returns |
| Envelopes.CreateEnvelope | src/local_moe/assistant_bridge_attestation.py:337-378 | the canonical envelope over the built statement and its signature; raises iff the key is not the required one, the terms cannot be built, or an encoding is refused |
| Envelopes.CreatedIsAccepted | src/local_moe/assistant_bridge_attestation.py:337-378 | creator output is accepted iff it is within the size limit, in time, and the policy names the verifier |
| Envelopes.CreatedIsRefused | src/local_moe/assistant_bridge_attestation.py:337-378 | creator output is refused a second after it expired, and always when one byte over the limit |
| ExecutionGate.PassportOfSelected | src/local_moe/adaptive_execution_gate.py:774-785 | valid advice always has exactly one passport for its selected cell |
| ExecutionGate.NoneDueIffStillAdmitted | src/local_moe/adaptive_execution_gate.py:591-645 | no reason is due iff every drift, age, semantics and policy condition holds |
| ExecutionGate.PreviewReasons | src/local_moe/adaptive_execution_gate.py:591-645 | each reason is recorded iff it is due |
| ExecutionGate.OneDepartureOneReason | src/local_moe/adaptive_execution_gate.py:591-645 | when everything else still stands, each changed receipt or request field gives exactly its own reason |
| ExecutionGate.OneDemandOneReason | src/local_moe/adaptive_execution_gate.py:591-645 | the same for a changed demand and for the receipt's age |
| ExecutionGate.BuildPreview | src/local_moe/adaptive_execution_gate.py:591-667 | the preview satisfies its own constructor and passes iff the choice still stands |
| ExecutionGate.PassedPreviewAdmits | src/local_moe/adaptive_execution_gate.py:591-667 | a passed preview over fresh advice means the unchanged cell passes every hard filter and fits the free memory with its reserve |
| Receipts.PrintedReceiptParses | src/local_moe/adaptive_execution_gate.py:327-355 | parsing the payload of a receipt returns that receipt |
| Receipts.MakeDemandTwice | src/local_moe/cell_contracts.py:159-194 | making a demand again changes nothing |
| Receipts.MakeAdviceTwice | src/local_moe/adaptive_selector.py:246-312 | making advice again changes nothing |
| Receipts.MadeRequestIsGenuine | src/local_moe/adaptive_selector.py:46-77 | a request made from a made demand is genuine |
| Receipts.MadeAdviceIsGenuine | src/local_moe/adaptive_selector.py:246-312 | advice made from made candidates is genuine |
| Receipts.MadeReceiptIsGenuine | src/local_moe/adaptive_advisor_service.py:80-124 | a receipt made from genuine parts is genuine |
| Receipts.ParsedIsGenuine | src/local_moe/adaptive_execution_gate.py:327-355 | what parsing returns is genuine |
| Receipts.AcceptedReceiptReprints | src/local_moe/adaptive_execution_gate.py:327-355 | an accepted payload is rebuilt with identifiers stripped and metrics as floats; it reprints to itself iff that changes nothing |
| Receipts.AcceptedIsHarmless | src/local_moe/adaptive_selector.py:246-312 | an accepted receipt is offline, not applied, authorizes nothing, used no network and no model, and its parts are bound together |
| Receipts.AcceptedCandidates | src/local_moe/adaptive_selector.py:246-312 | its candidates are in strict order, and a recommended cell is one of them on the frontier |
| Receipts.AcceptedMetrics | src/local_moe/adaptive_selector.py:113-190 | a candidate carries complete metrics when eligible and a utility iff on the frontier, all in range |
| Receipts.ReadAsIffTidy | src/local_moe/adaptive_execution_gate.py:327-355 | a payload is read as a given genuine receipt iff it becomes that receipt by stripping identifiers and converting metrics, all of which convert |
| Receipts.PaddedIdIsAccepted | src/local_moe/verified_routing_contracts.py:51-55 | a genuine receipt with a padded workload id is accepted and reprints without the padding |
| Receipts.RespelledIsAccepted | src/local_moe/adaptive_execution_gate.py:904-913 | metrics that convert to those of a genuine receipt are accepted under its digests |
| Receipts.IntegerMetricIsAccepted | src/local_moe/cell_contracts.py:79-93 | so 1 is accepted for a success rate of 1.0, and 2^53 + 1 for a latency of 2^53 |
| Floats.FirstInexact | src/local_moe/verified_routing_contracts.py:67-86 | 2^53 + 1 converts to 2^53 |
| Floats.NearestNat | src/local_moe/verified_routing_contracts.py:67-86 | an integer converts to a value within half the distance between doubles of its size |
| Receipts.SameDigestSameReceipt | src/local_moe/adaptive_advisor_service.py:80-140 | accepted receipts with one digest that does not collide on their contents are the same up to padding and number spelling |
| Receipts.CandidateChangeReachesTop | src/local_moe/adaptive_execution_gate.py:739-771 | where the digests do not collide on the contents at hand, a changed candidate needs new digests of the candidate, the advice and the receipt |
| Receipts.DemandChangeReachesTop | src/local_moe/adaptive_execution_gate.py:670-703 | likewise a changed demand needs new digests of the demand, the request and the receipt |
| Receipts.RequestChangeReachesTop | src/local_moe/adaptive_execution_gate.py:670-690 | likewise a changed request field needs new digests of the request and the receipt |
| Receipts.AdviceChangeReachesTop | src/local_moe/adaptive_execution_gate.py:704-739 | likewise a changed advice field needs new digests of the advice and the receipt |
| Receipts.AlteredIsRejected | src/local_moe/adaptive_execution_gate.py:327-355 | under an unchanged receipt digest, a payload whose content, after stripping identifiers and converting metrics, differs anywhere is rejected |
| StoredPreview.GenuineReadsValid | src/local_moe/adaptive_advisor_service.py:80-124 | a genuine stored receipt reads as a valid receipt of the preview |
| StoredPreview.PreviewStored | src/local_moe/adaptive_execution_gate.py:327-667 | previewing a stored receipt raises iff its payload is rejected; otherwise the preview is valid and passes iff the stored choice still stands |
| GateConfig.DeepMerge | experiments/run_quality_gate.py:107-115 | the copy-and-update loop computes the merge, in any order of the items |
| GateConfig.MergeFinds | experiments/run_quality_gate.py:106-114 | along every path the override's atoms win and hide what lies below, its tables are merged, and elsewhere the base shows through |
| GateConfig.MergeIdentity | experiments/run_quality_gate.py:107-115 | merging with nothing, and nothing with a table, changes nothing |
| GateConfig.MergeAbsorbs | experiments/run_quality_gate.py:107-115 | applying the same overrides again changes nothing |
| GateConfig.LoadGateConfig | experiments/run_quality_gate.py:79-104 | ends on every finite file system and computes the specified load |
| GateConfig.LoadIffAcyclicChain | experiments/run_quality_gate.py:79-104 | loading returns iff the inheritance reaches a root without repeating a file |
| GateConfig.ChainLoads | experiments/run_quality_gate.py:79-115 | along such a chain the result is the merge from the root down |
| GateConfig.CycleIsRejected | experiments/run_quality_gate.py:85-88 | inheritance that returns to a file is rejected |
| ReleaseGate.CountExpected | experiments/run_quality_gate.py:617-622 | the expected counter holds every variant, case and repetition once |
| ReleaseGate.CountersEqualIffCovers | experiments/run_quality_gate.py:617-642 | the counters agree iff every cell of the grid has exactly one record and no other record exists |
| ReleaseGate.CheckEvidence | experiments/run_quality_gate.py:612-690 | true iff the records are complete and reproduce the stored metrics, comparisons and gate |
| ReleaseGate.CheckBenchmark | experiments/run_quality_gate.py:385-734 | the verdict of the specification: passes with release eligibility iff the mode is required, outputs are stored, every section of the artifact is sound and the evidence is reproduced from the records |
| ReleaseGate.ProfileFixesPath | experiments/run_quality_gate.py:118-145 | under a passing release profile the benchmark is not skipped and passes iff demonstrated with stored outputs; under a passing offline one its verdict never counts for a release |
| ReleaseMeaning.AnyFlawFails | experiments/run_quality_gate.py:480-734 | any one broken section, unplanned metric, uncovered cell or unreproduced evidence fails a complete benchmark |
| ReleaseMeaning.NoResultNoPass | experiments/run_quality_gate.py:385-460 | without a complete, readable result only a skippable benchmark passes |
| ReleaseGate.DecideRelease | experiments/run_quality_gate.py:118-166 | ready for release iff the profile is release, the benchmark was required and demonstrated, and the other checks pass; no skip or offline path leads there |

## Left out

- IEEE floating point: scores, rates and times are reals; not-a-number and infinities appear only in JSON arguments, as their own values.
- Base exceptions (interrupts) that the source does not catch are outside every model; only ordinary exceptions are raised outcomes.
- Fixed message texts and result codes of tools are constructors; the text of argument errors is the list of errors it renders.
- Trace events of the agent loop, and the time limits handed to the model and the tools: they do not influence control flow.
- Text services (redaction, reasoning removal, secret names, white space, SHA-256, RFC 8785 encoding, Ed25519): parameters with the stated laws only.
- Artifact tree: stat races, descriptors, the single-file target and the Windows path are not modelled; the tree does not change during the walk, and error outcomes are distinguished only where the source's limit and contract errors are.
- Selector: rejection and reason codes are sets of constructors instead of sorted strings; catalog and passport digests are opaque.
- SupervisorOracle.FailClosedSupervisor.StartRuntime: runs against the fake backend only, since one class stands for the backend; arbitrary backends are the parameters of `StartStep`, `StopStep` and `SupervisorRuns.Run`.
- Supervisor: the payload form of outcomes and the scenario runner; the supervised endpoint is fixed as in the fake.
- JSON schema: an enum value that is not a number equal to itself follows structural equality here; object keys keep their order.
- Base64.Decode: strict decoding as RFC 4648 defines it; the laxer padding of older library versions is not modelled, and canonical re-encoding makes it irrelevant for version 2 envelopes.
- Envelopes: version 1 verification (which does not demand a canonical envelope) and the trust store lookup are not modelled; statement validation covers both versions.
- Documents: an object with one of the exact key sets the code names is a record; all other key sets are one generic object.
- Receipts: a metric written with a point is a real, so negative zero is not told apart from zero; shape and type checks of the parsers are represented by typed payloads; schema and contract constants and file loading are not modelled.
- Execution preview: reason codes are a set; loading of receipts and policies from files is not modelled.
- Quality gate: routing evaluation, holdout, required files and listener checks are arbitrary results; the git and runtime checks and the benchmark's own metric functions are parameters; stored evidence is compared by a parameter standing for Python's equality.
- Calibration: the percentile, cost, token and routing counts of the evaluation report; they are sums and a sorted lookup that nothing else depends on.
- Cooperative leases, bound cell runs, cascades, route promotion, HTTP adapters, command lines, publication and platform code are not part of this model.
