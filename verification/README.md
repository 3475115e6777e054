# FinalBuilds2 in Dafny

FinalBuilds2 is an event-sourced control plane for a software factory. This project models its state-changing
core and proves what that core is for:

- **Event log and lineage graph** (`GraphModel`, `GraphStore`, `Paths`, `Search`, `Projector`, `Replay`,
  `Persistence`, `EventBus`, `Lineage`, `Descent`, `Attribution`): the in-memory store's maps and indexes, the queue
  search over simple paths with its "best depth + 2" pruning, the projection of events into the graph, what each event
  leaves in the graph and what lies downstream of what, replay, rebuild, and the attribution reports that add up over
  enumerated paths.
- **Release boundary** (`Release`, `ReleaseSafety`, `ReleaseSupervisor`, `ReleaseChecks`, `ReleaseOutcomes`,
  `ReleaseMoves`, `ReleaseScenarios`, `ReleaseRaces`):
  builders, verifiers, promoters and the supervisor as one state machine over an abstract commit graph. Every
  shell-level step is an action, so anything can happen between two of them.
- **Admission and dispatch** (`Planner`, `PlannerChoice`, `PreSort`, `Router`, `RouterOrigins`, `Builds`, `Controller`,
  `ControllerRecords`): a controller tick wired through the bus to the dispatch router.
- **At-most-once ledgers** (`Resolver`, `ResolverRules`, `ResolverRuns`, `Outbox`, `OutboxClasses`, `Ingestor`,
  `IngestorVerdicts`): three restartable loops over append-only logs.
- **Append lock** (`AppendLock`, `AppendLockBreaks`): any number of processes appending to one JSONL file under a
  breakable lock.
- **Standards loop** (`Conformance`, `ConformanceTable`, `ConformanceDrift`, `ConformanceCollisions`): judging sites,
  recording verdicts in the graph and reading the drift back.

`Values` and `Sorting` hold JSON values, facts about sequences and a stable sort.

Code that updates objects step by step is a class whose methods are proved against functions on values; the
theorems are lemmas about those functions. Code that several processes run is a state with an action type, and
its theorems speak of every execution.

## Where the code and its words differ

The model follows the code. Each difference is stated by lemmas: the exact condition under which the promise holds,
a concrete case in which it fails, or both.

- Verification hashes the acceptance suite and copies it in two steps (`CopiedIffUnchanged`,
  `SteadySuitesAreJudged`, `SuiteCanBeSwapped`).
- One run can advance main twice, with two commits: two promoters can pass the status check before either takes
  the lock (`OneRunAdvancesTwice`), a promoter can die between its merge and its status line
  (`KilledPromoterAdvancesTwice`), and a verdict can be recorded after PROMOTED (`StaleVerdictAdvancesTwice`).
  `CanAdvanceIff` says for every reachable state whether it can happen again. Per commit it cannot (`StepAdvances`).
- The append lock counts a missing owner file as stale, and looks and removes in two steps
  (`QuietIffExclusiveAfter`, `PromptMutualExclusion`, `MissingOwnerLosesLines`, `LateBreakLetsTwoIn`). Even when every
  break is quiet, a call that dies in mid-line swallows the next event (`LineReadsBackIff`, `TornLineLosesTheNext`).
- The bus projects the event it was given, and the JSONL file keeps its JSON text, without undefined members; a rebuild
  can differ from the live graph (`LastingIff`, `LostMemberIff`, `UndefinedNameComesBack`).
- `mechanisms/forecast_resolver_v2.yaml` promises one resolution per forecast id and rule version; the key also
  holds the window's end (`AlwaysOncePerPairIff`, `ResolvedTwice`). Duplicate observations can turn "not ready" into
  a resolution (`DuplicatesMatterIff`), a null target stops the whole run (`NullTargetIsFatal`, `FatalStrands`).
- The resolver's header promises that a forecast resolves exactly once. A final ledger that cannot be read, or in which
  one line does not parse, reads as empty; a death in the middle of an append leaves such a line, and the next runs
  resolve everything again (`LedgerParsesIff`, `AlwaysAtMostOnceIff`, `UnreadableResolvesTwice`, `TornResolvesTwice`).
- The outbox ledger misses a dispatch when the process dies before writing it (`SafeIffCovered`,
  `RunKeepsCoveredIff`, `UnrecordedRepeats`).
- The projection checkpoint names the last persisted event, projected or not (`CheckpointIgnoresProjection`).
- The sanitised ids of compliance records are not injective (`RecordIdsCollide`); the drift of a pass is right if and
  only if no two of its pairs share one (`DriftIsFailureIff`).
- Different ids can collate as equal, and tied candidates are chosen as they come (`RankIgnoresOrderIff`,
  `PreSortDecidesIff`).
- Totals count a value once per admissible path (`PlainSumIff`), a negative `limit` is a JavaScript slice from
  the end (`CapacityIffLimit`), and ids containing the unit separator can share an edge key (`LinkKeepsIndexExact`).

Clocks, random ids, the outcomes of checks, the answers of Hydra and of transports, crashes and failing reads or
writes are arbitrary inputs. sha256 is an injective function.

## Model

| member | source | states |
|---|---|---|
| `GraphModel.LinkKeepsIndexExact` | `src/graph/inmemory.js:25-33` | drawing a link keeps both indexes equal to the edges by source and by target if and only if its key does not collide with an edge between other endpoints |
| `GraphModel.KeyInjective` | `src/graph/inmemory.js:27` | the joined edge key determines source, kind and target when source and kind are free of the separator |
| `GraphModel.SeparatorCollides` | `src/graph/inmemory.js:27` | an id containing the separator makes two different edges share one key |
| `GraphModel.CleanLinkKeepsIndex` | `src/graph/inmemory.js:25-33` | with separator-free sources and kinds the indexes stay exact whatever is linked |
| `GraphModel.NeighborsAreFilteredEdges` | `src/graph/inmemory.js:35-53` | reading the index buckets gives exactly the edges that leave or enter the id, filtered by direction and kind, with the stored entity at the other end |
| `GraphModel.NeighborsDistinct` | `src/graph/inmemory.js:35-53` | no edge is listed twice in one direction, and with both directions only a self-loop could be |
| `GraphModel.UpsertWellFormed` | `src/graph/inmemory.js:12-18` | storing an entity keeps every stored edge anchored and the insertion order free of repeats |
| `GraphModel.LinkWellFormed` | `src/graph/inmemory.js:25-33` | drawing a link keeps every index key resolving to an edge with stored endpoints |
| `GraphStore.InMemoryGraphStore.UpsertEntity` | `src/graph/inmemory.js:12-18` | the four maps move exactly to the merged entity, or nothing moves when id or type is missing; exact indexes stay exact |
| `GraphStore.InMemoryGraphStore.LinkEntities` | `src/graph/inmemory.js:25-33` | the link is drawn and indexed on both sides, or nothing moves when an endpoint is missing; exactness is kept if and only if there is no key clash |
| `GraphStore.InMemoryGraphStore.Clear` | `src/graph/inmemory.js:62-67` | nothing is left |
| `GraphStore.InMemoryGraphStore.FindNeighbors` | `src/graph/inmemory.js:35-53` | the two loops over the buckets return the filtered hops in insertion order |
| `GraphStore.InMemoryGraphStore.FindEntities` | `src/graph/inmemory.js:55-60` | the stored entities of the type, in insertion order |
| `GraphStore.OfTypeMembers` | `src/graph/inmemory.js:55-60` | an entity is found if and only if it is stored with that type |
| `GraphStore.InMemoryGraphStore.FindPaths` | `src/graph/store.js:9-33` | for any graph, cyclic ones included, the queue search ends and reports, in order and filtered by the predicate, exactly the enumeration that EnumeratedIffAdmissible characterises; the predicate never influences which paths are continued |
| `Paths.EnumeratedIffAdmissible` | `src/graph/store.js:15-31` | a path is enumerated if and only if it is a simple path of length 1 to maxDepth whose every proper non-empty prefix is at most two longer than the shortest distance of the prefix's end |
| `Paths.EnumeratedOnceByLength` | `src/graph/store.js:12-31` | each path is enumerated once, and lengths never decrease |
| `Paths.ShortestAdmissible` | `src/graph/store.js:20-29` | no shortest path is ever pruned |
| `Paths.ShortestSimple` | `src/graph/store.js:20` | a shortest path visits no entity twice, so the cycle check cannot cost one |
| `Paths.ReachedAtDistance` | `src/graph/store.js:9-33` | every entity at distance 1 to maxDepth is reached by an enumerated path of that length |
| `Paths.DistanceUnique` | `src/graph/store.js:25-27` | the distance of an entity is unique, so the recorded best depth can only be one number |
| `Search.PruningFaithful` | `src/graph/store.js:12-29` | the best-depth map the loop carries decides every pruning test as the true shortest distances do |
| `Search.SearchStep` | `src/graph/store.js:19-30` | meeting one more path keeps the loop's state: results so far, queue ordered by depth, and best depth equal to the shortest distance from first discovery on |
| `Search.SearchDone` | `src/graph/store.js:14-32` | an empty queue means the enumeration is complete |
| `Attribution.TotalIsWeighted` | `src/analytics/lineage.js:10-21` | the total summed path by path is the sum, over matching stored entities, of value times number of admissible paths |
| `Attribution.PlainSumIff` | `src/analytics/lineage.js:15-17` | whatever the values, one admissible path to each matching entity that counts for something makes the total the plain sum; where no value is negative the total is at least that, and equal only then |
| `Attribution.IdsAreDownstream` | `src/analytics/lineage.js:17` | the distinct ids among the reported paths are exactly the matching entities between one and maxDepth hops downstream |
| `Attribution.PathsToIffDownstream` | `src/analytics/lineage.js:6-8` | an entity has an admissible path if and only if it lies within maxDepth hops |
| `Attribution.ReportsSorted` | `src/analytics/lineage.js:20` | the rows come out by descending total, processes of equal total by ascending failures, and no row is added or lost |
| `Attribution.ObservationsCounted` | `src/analytics/lineage.js:15-17` | what counts for a metric is exactly the stored observations of that metric within reach, each at its number or at 0 without a value |
| `Attribution.InStageAre` | `src/analytics/process-attribution.js:9` | exactly the processes of the asked stage are ranked, all of them if none is asked for |
| `Attribution.SubjectsAre` | `src/analytics/lineage.js:11-25` | the reports have a row for exactly the stored generators, products and processes |
| `Attribution.OutcomesCounted` | `src/analytics/process-attribution.js:11-24` | a process row counts exactly the stored products and failures within reach, each once |
| `Attribution.Analytics.Downstreams` | `src/analytics/lineage.js:6-8` | one search answers every total and every distinct count about an origin |
| `Attribution.Analytics.UsageAttribution` | `src/analytics/lineage.js:10-21` | one row per generator with its weighted total and its number of distinct observations, sorted |
| `Attribution.Analytics.BestProducts` | `src/analytics/lineage.js:23-32` | one row per product with its weighted total within ten hops, sorted |
| `Attribution.Analytics.RankProcesses` | `src/analytics/process-attribution.js:6-28` | one row per process of the stage with weighted total and distinct counts of observations, products and failures; ties go to fewer failures |
| `Projector.ProjectEvent` | `src/event/projector.js:8-125` | the graph moves to what the event's commands give, stopping where the first one throws; what that is, kind by kind, is told by EntityIs and EdgesAre |
| `Projector.RebuildProjection` | `src/event/projector.js:127-132` | the store is cleared and becomes the fold of the log, up to the first event that throws |
| `Lineage.EntityIs` | `src/event/projector.js:8-125` | per event kind: which id is stored, under which type and name, and what every member of its data reads afterwards; all other entities stay, and an event without an id throws and stores nothing |
| `Lineage.EdgesAre` | `src/event/projector.js:8-125` | per event kind: exactly the edges (source, kind, target) its payload asks for are new or renewed, with their data, and no other edge changes; the event goes through if and only if its id is there and no required end is missing |
| `Descent.LogIs` | `src/event/projector.js:8-132` | a whole log goes through if and only if each event finds its required ends among the ids stored so far; then the ids and the edges of the graph are told from the events alone |
| `Descent.DownstreamIffReached` | `src/analytics/lineage.js:6-8` | downstream within a depth means another id at the end of a chain of at most that many edges |
| `Descent.ObservationReachesGenerator` | `src/event/projector.js:14-86` | idea, build, product, site and observation events that name each other, whatever else is on the log: the observation is downstream of the generator |
| `Replay.ReplayLog` | `src/event/projector.js:8-132` | a log replayed on its own projection changes no entity and no edge, may add only links whose existence guard had failed, and a further replay changes nothing at all |
| `Replay.ReplayEntities` | `src/event/projector.js:8-125` | whatever is merged again into an entity is already there |
| `Replay.ReplayEdge` | `src/event/projector.js:61-74` | an edge under a key after the replay is the one before it, or one of the guarded links |
| `Replay.SecondReplay` | `src/event/projector.js:113-121` | replaying once more is the identity on the result of the first replay |
| `Replay.CommandsAnchored` | `src/event/projector.js:8-125` | for every event kind, a link that is drawn only if its other end exists hangs on an entity the same event has stored before |
| `Replay.ProjectionWellFormed` | `src/event/projector.js:127-132` | under every log the edges keep stored endpoints, and with separator-free ids both indexes stay exact |
| `Replay.ExecIndexExact` | `src/event/projector.js:8-125` | no sequence of separator-free commands breaks the indexes |
| `Replay.ExecWellFormed` | `src/event/projector.js:8-125` | no sequence of commands loses an entity or an edge |
| `EventBus.EventBus.AppendAndProject` | `src/event/bus.js:21-23` | the log gains what the store keeps of the event whether or not its projection throws, and the emitted events go on explaining the live graph |
| `EventBus.EventBus.Emit` | `src/event/bus.js:21-28` | nested emits of handlers keep the log an explanation of the live graph; a throw ends the emit and rolls nothing back |
| `EventBus.EventBus.AppendEnvelope` | `src/event/jsonl-store.js:80-118` | a canonical envelope in the shared log changes nothing a rebuild does |
| `EventBus.EventBus.RebuildInto` | `src/event/projector.js:127-132` | a rebuild folds what the store kept; if that lost nothing (memory, or a file and events that last) it ends with the live graph, indexes included, when no projection ever threw, and otherwise with exactly the graph the live run had at its first throw |
| `Persistence.LastingIff` | `src/event/jsonl-store.js:49` | JSON text drops undefined members and turns undefined list items into null; the projector reads the same commands from the file as from the live event if and only if the event lasts, a condition on the members its kind keeps |
| `Persistence.LastingLogProjects` | `src/event/jsonl-store.js:60-64` | a log of events that last projects from the file exactly as it did live |
| `Persistence.LostMemberIff` | `src/event/jsonl-store.js:49` | for the events whose payload is copied: a member of the entity reads differently after a rebuild if and only if it holds something undefined within, or is undefined where the entity held a value |
| `Persistence.UndefinedNameComesBack` | `src/controller/control-plane.js:49-51` | a generator registered again without a name: live its name is undefined, rebuilt from the file it is the old one |
| `Planner.TotalBounds` | `src/planner/score.js:60-82` | a total lies between 0 and 19.5, and an unknown rubric is worth its bonus only |
| `Planner.RankIgnoresOrder` | `src/planner/idea-planner.js:12-22` | without ties the ranking depends on the set of candidates only; which order that is, RankDescends says |
| `PlannerChoice.RankDescends` | `src/planner/idea-planner.js:21` | of two ranked ideas the earlier one has the higher total, or the same total and the id that collates first |
| `PlannerChoice.RankMembers` | `src/planner/idea-planner.js:12-22` | exactly the given ideas are ranked, each with its own total |
| `PlannerChoice.SelectIsBeginning` | `src/planner/idea-planner.js:24-29` | a selection is the beginning of the ranking; with a limit of at least 0 it has exactly min(limit, spare capacity, worthy candidates) members |
| `PlannerChoice.NoBetterLeftOut` | `src/planner/idea-planner.js:24-29` | an idea that is left out has no higher total than any selected one, ties going by collated id |
| `PlannerChoice.NativeTotal` | `src/planner/score.js:48-54` | a native rubric in range totals the plain sum of its six fields |
| `PlannerChoice.VentureTotal` | `src/planner/score.js:18-31` | a complete venture rubric totals a 3.33rd of six fields or averages of two |
| `PlannerChoice.FeatureTotal` | `src/planner/score.js:34-46` | a feature rubric totals the weights its features have, and 2 for evidence if acceptance or a real implementation is there |
| `PlannerChoice.OutOfScale` | `src/planner/score.js:16-58` | without a rubric there is no worth, and what lies outside the scale counts as its nearest end |
| `PlannerChoice.BonusCounts` | `src/planner/score.js:75-82` | the bonus is 0 without parents, at least 0.5 with any, and 1.5 exactly with the doomed parent and a known limit class |
| `Planner.SelectIgnoresOrder` | `src/planner/idea-planner.js:24-29` | so does the selection, at any limit and threshold |
| `Planner.RankIgnoresOrderIff` | `src/planner/idea-planner.js:21` | every order of the candidates gives one ranking if and only if no two of them tie on total and on collated id, which different ids can |
| `Planner.RankPreSortedIff` | `src/planner/idea-planner.js:12-22` | sorting the candidates before ranking them changes the ranking if and only if, of some two tied ones, the later goes before the earlier by that sort |
| `Planner.SelectIgnoresOrderIff` | `src/planner/idea-planner.js:21-28` | the same for selections |
| `Planner.SelectedWorthy` | `src/planner/idea-planner.js:26-28` | every selected idea is a candidate whose total reaches the threshold |
| `Planner.SelectedDistinct` | `src/planner/idea-planner.js:24-29` | no idea is selected twice |
| `Planner.CapacityIffLimit` | `src/planner/idea-planner.js:25-28` | the selection stays within capacity for every ranking if and only if the limit is not negative |
| `PreSort.PreSortIff` | `src/controller/factory-controller.js:26-31` | a sort before a stable sort changes its result exactly when it swaps two elements that tie |
| `Router.OneTransportCall` | `src/dispatch/router-dispatcher.js:21-45` | however dispatches overlap, the transport is called at most once per id |
| `Router.LaterCallsReturnIt` | `src/dispatch/router-dispatcher.js:24-26` | from the moment a result is stored, every dispatch of that id that starts returns that very result |
| `Router.StepKeeps` | `src/dispatch/router-dispatcher.js:21-45` | each step between two awaits keeps: one owner per unfinished build, results only for called ids, and answers that are the stored result or in-flight |
| `Router.SecondDispatch` | `src/dispatch/router-dispatcher.js:24-26` | a second dispatch after the first calls nothing, changes nothing and repeats the answer |
| `Router.RouterDispatcher.Build` | `src/dispatch/router-dispatcher.js:31-42` | the transport is called once and its answer, or a failure record with a mirrored outbox line, is stored |
| `Router.RouterDispatcher.Dispatch` | `src/dispatch/router-dispatcher.js:21-45` | an undisturbed dispatch is the machine's steps in a row |
| `RouterOrigins.RepliesAreTold` | `src/dispatch/router-dispatcher.js:21-45` | over whole runs: a build dispatch returns in-flight, or what the transport answered for that task, or, if it threw, a refusal with that error; a thrown build is never accepted |
| `RouterOrigins.StepWrites` | `src/dispatch/router-dispatcher.js:38-44` | a step writes at most one outbox line: a task that is not built here as it came, or a build whose transport threw, marked dispatch-failed |
| `RouterOrigins.OutboxReplies` | `src/dispatch/router-dispatcher.js:36-44` | a queued task is accepted once its line is written and rejected otherwise; a thrown build is refused whether or not its line is written, and the refusal is stored |
| `RouterOrigins.CallsMayEnd` | `src/dispatch/router-dispatcher.js:21-45` | in every state a new call may start, and whatever a call waits for may come |
| `Builds.AnyBuildEventProjects` | `src/event/projector.js:28-39` | any build event with an id, whatever its payload holds and whether or not its link can be drawn, changes the recorded builds at that id only: to its status, and to its idea or the idea recorded before |
| `Builds.OtherEventShrinks` | `src/event/projector.js:8-125` | no other kind of event starts or changes a build; one that reuses a build id makes that build disappear |
| `Builds.StartsNothingIff` | `src/event/projector.js:28-39` | exactly which events let no build start running and none come to exclude an idea, told from payload and graph |
| `Builds.CompletionEnds` | `src/event/projector.js:28-39` | a build.completed event for a running build, with or without idea and status, ends that build |
| `Builds.TaskEventProjects` | `src/event/projector.js:102-109` | announcing a task changes no build |
| `Builds.TickKeepsSound` | `src/controller/factory-controller.js:15-57` | a tick within capacity keeps at most maxBuilding running builds and one live build per idea |
| `Builds.QueuedKeepsSound` | `src/controller/factory-controller.js:34-46` | so does the moment in the middle of a tick when a build is queued and its outcome open |
| `Builds.EndKeepsSound` | `src/controller/factory-controller.js:15-57` | a running build that ends keeps capacity and one live build per idea |
| `Controller.FactoryController.PreSortIsIrrelevant` | `src/controller/factory-controller.js:26-31` | unless two candidates tie, the aligned-first sort before the planner never changes the choice |
| `Controller.FactoryController.PreSortDecidesIff` | `src/controller/factory-controller.js:26-31` | it leaves a ranking as it is if and only if no unaligned candidate stands before an aligned one it ties with |
| `Controller.FactoryController.SelectedIsFree` | `src/controller/factory-controller.js:20-31` | a selected idea is stored, has no live build and meets minBuildScore |
| `Controller.CandidateIff` | `src/controller/factory-controller.js:20-25` | a candidate is exactly a stored idea of which every stored build has been rejected or has failed |
| `Controller.FactoryController.NoBetterIdeaWaits` | `src/controller/factory-controller.js:26-31` | no free idea outside the selection outscores a selected one; on equal totals the selected one collates first |
| `Controller.FactoryController.SelectionSize` | `src/controller/factory-controller.js:26-31` | with a limit of at least 0 a tick selects exactly min(limit, spare capacity, worthy free ideas) |
| `Controller.FactoryController.TickIsAdmissible` | `src/controller/factory-controller.js:15-57` | what a tick starts is new, excluded by nothing and, with a limit of at least 0, within the spare capacity |
| `Controller.FactoryController.Deliver` | `src/controller/factory-controller.js:50-51` | delivered by the bus and by the controller, a task costs one transport call with one answer |
| `Controller.FactoryController.StartBuild` | `src/controller/factory-controller.js:34-55` | three events, one transport call, and its outcome as the final status, whatever failed to project before |
| `Controller.FactoryController.RunTick` | `src/controller/factory-controller.js:15-58` | a tick emits exactly the events of its selected ideas, makes one transport call for each in order, and with a limit of at least 0 is an admissible tick; an earlier failed projection changes nothing about it; which ideas those are, NoBetterIdeaWaits and SelectionSize say |
| `Controller.StartEventsProject` | `src/controller/factory-controller.js:34-55` | the three events of one build always project, record it with its outcome, and touch nothing that was there |
| `ControllerRecords.StartEmits` | `src/controller/factory-controller.js:36-54` | starting a build emits build.started, task.created, and build.started again if the dispatcher accepted, build.completed if not |
| `ControllerRecords.StartLeaves` | `src/controller/factory-controller.js:34-55` | what starting a build leaves, member by member: the build with the dispatcher's answer as its status and reason, the task as announced, both linked from the idea, and everything else as it was |
| `Controller.FactoryController.TickBuilds` | `src/controller/factory-controller.js:15-57` | the events of a tick record the started builds beside the old ones, within capacity |
| `Controller.FactoryController.AlwaysWithinCapacity` | `src/controller/factory-controller.js:15-57` | over any event log made of ticks and of other events that start no build, failing projections included, after every single event, those in the middle of a tick too, at most maxBuilding builds run and no idea has two live builds |
| `Controller.FactoryController.Perform` | `src/controller/factory-controller.js:15-58` | bus and router are where such a move leads |
| `ReleaseSafety.OnlyVerifiedCommitsReachMain` | `scripts/promote-candidate.sh:39-67` | in every interleaving each merged commit was judged PASS for that same run, descends from the run's base, matches the pinned spec digest and the suite digest recomputed at promotion, and is on main |
| `ReleaseChecks.EveryMergeWasChecked` | `scripts/promote-candidate.sh:39-63` | over executions: before every merge there are, in order, states in which that promoter read a PASS receipt of that run and commit, the branch head was that commit, the base its ancestor, the spec digest the pinned one and the suite digest the judged one |
| `ReleaseChecks.CheckIff` | `scripts/promote-candidate.sh:39-61` | each of the five checks lets the promoter pass if and only if its equality holds in that state; otherwise it ends at the release of its lock with a non-zero code, and nothing else changes |
| `ReleaseChecks.EveryVerificationWasMade` | `scripts/verify-candidate.sh:40-166` | over executions: behind every verification there are states in which that verifier took the branch head, hashed the suite, copied it and ran the checks |
| `ReleaseSafety.VerdictIs` | `scripts/verify-candidate.sh:104-118` | PASS, FAIL and ERROR told from exit codes, shape, sources and artifact type: only a web artifact passes without tests of its own, and missing tests are an ERROR |
| `ReleaseOutcomes.SuccessMeansMerged` | `scripts/promote-candidate.sh:63-71` | in every execution a run with a PROMOTED line has been merged, and a promoter that exits 0 has merged the commit of the receipt it read and written that line |
| `ReleaseOutcomes.ExitIs` | `scripts/verify-candidate.sh:40-178` | a verifier exits 0 if its receipt stands and says PASS, 1 if it stands and says something else, and 3 otherwise, leaving an ERROR receipt |
| `ReleaseOutcomes.VerdictIsExit` | `scripts/supervisor.mjs:53-62` | the supervisor records VERIFIED for exit 0, REJECTED for exit 1 or a killed child, ERRORED for any other, and goes on to promote only after the first |
| `ReleaseOutcomes.ProcessesMayAct` | `scripts/promote-candidate.sh:35-71` | a promoter that has not left and a verifier that has not exited can take their next step in every state |
| `ReleaseOutcomes.OthersMayAct` | `scripts/promote-candidate.sh:50-67` | builders, file writers and other committers are never held up, so nothing above holds for want of interference |
| `ReleaseSafety.StepMerges` | `scripts/promote-candidate.sh:50-67` | no later step, a branch move after the head check included, changes what a merge of the past was or takes it off main |
| `ReleaseSafety.StepReceipts` | `scripts/verify-candidate.sh:120-166` | a full receipt always attests a verification of that run with gates computed from its checks |
| `ReleaseSafety.StepPromoters` | `scripts/promote-candidate.sh:39-61` | a promoter at any line has established what its receipt, ancestry, spec and suite checks say; the branch head is checked at one moment only, which CheckIff and EveryMergeWasChecked tell |
| `ReleaseSafety.HeadMoves` | `scripts/promote-candidate.sh:63-67` | main moves only to descendants, and only by a promoter's successful merge or a direct commit |
| `ReleaseSafety.StepAdvances` | `scripts/promote-candidate.sh:63-67` | repeating or racing a promotion of one commit never advances main a second time |
| `ReleaseSafety.StepLocks` | `scripts/promote-candidate.sh:35-37` | at most one promoter per run is past the lock, and it has it |
| `ReleaseSafety.LockRemoval` | `scripts/promote-candidate.sh:35-37` | a lock disappears only by a step of the promoter that holds it, so a refused one never releases another's |
| `ReleaseSafety.StepInv` | `scripts/promote-candidate.sh:29-71` | every step of builders, writers, verifiers, promoters and the supervisor keeps the whole invariant |
| `ReleaseSupervisor.ValidatedPassed` | `scripts/verify-candidate.sh:167-178` | whatever other verifiers left in the shared result file, exit 0 needs an own receipt that says PASS |
| `ReleaseSupervisor.VerifiedMeansPassed` | `scripts/supervisor.mjs:52-62` | in every execution a run marked VERIFIED has a verification of its own that passed every applicable gate |
| `ReleaseSupervisor.OneVerdictOneOutcome` | `scripts/supervisor.mjs:33-101` | without manual promotion a status file is RUNNING, then one verdict, then after VERIFIED at most one promotion outcome |
| `ReleaseSupervisor.StepStatus` | `scripts/supervisor.mjs:33-101` | each step keeps that shape together with where supervisor and promoters stand |
| `ReleaseScenarios.CopiedIffUnchanged` | `scripts/verify-candidate.sh:40-44` | the suite that is copied is the suite that was hashed if and only if the directory is the same at both moments |
| `ReleaseScenarios.SteadySuitesAreJudged` | `scripts/verify-candidate.sh:40-44` | if no suite is written between a verifier's hashing and its copying, every merged commit passed the very suite whose digest the promoter recomputed |
| `ReleaseScenarios.SuiteCanBeSwapped` | `scripts/verify-candidate.sh:40-44` | an execution in which the merged commit was judged on another suite than every recorded digest says |
| `ReleaseRaces.CanAdvanceIff` | `scripts/promote-candidate.sh:29-71` | in every state any execution reaches, a run can advance main again if and only if its lock is not orphaned and the last word on it is not PROMOTED, or a promoter of it can still merge or record a failure, or the supervisor still waits for a verdict on it |
| `ReleaseRaces.ClosedForever` | `scripts/promote-candidate.sh:29-37` | otherwise it never does, whatever happens |
| `ReleaseRaces.OpenAdvances` | `scripts/promote-candidate.sh:63-69` | from such a state another advance is reached |
| `ReleaseRaces.OneCandidateAdvancesOnce` | `scripts/promote-candidate.sh:29-67` | as long as everything verified for a run is one commit, its promotions advance main at most once |
| `ReleaseRaces.OneRunAdvancesTwice` | `scripts/promote-candidate.sh:29-37` | an execution in which one run advances main twice: two promoters read the status before either takes the lock |
| `ReleaseRaces.KilledPromoterAdvancesTwice` | `scripts/promote-candidate.sh:63-69` | one promoter after another: the first is killed between its merge and its status line |
| `ReleaseRaces.StaleVerdictAdvancesTwice` | `scripts/supervisor.mjs:37-62` | a manual promotion is recorded while the supervisor waits for its verifier; the late verdict hides it |
| `Resolver.ValidIff` | `scripts/resolve-forecasts.mjs:25-49` | a forecast is valid if and only if everything a resolution reads is present and in range |
| `Resolver.RulingIsWindowed` | `scripts/resolve-forecasts.mjs:52-65` | observations outside the window, and the order of arrival, never influence a ruling |
| `Resolver.DuplicatesMatterIff` | `scripts/resolve-forecasts.mjs:66-71` | the ruling with duplicate deliveries differs from the ruling without them if and only if the window holds a single observation, finite and not zero, delivered more than once; missing data then becomes a resolution with slope 0 |
| `ResolverRules.CountsIff` | `scripts/resolve-forecasts.mjs:52-68` | an observation counts exactly if its metric starts with the incumbents' minimum price, its dimensions contain the target's entity if there is one, and its time lies in the window, both ends included |
| `ResolverRules.PriceRule` | `scripts/resolve-forecasts.mjs:66-85` | for the price rule, from the earliest and the latest counting observation: ready if and only if they are two (or one delivered twice), finite, and the first is not zero; then the value is the change in percent, rounded to hundredths, and it passes exactly above the threshold |
| `ResolverRules.NothingDecides` | `scripts/resolve-forecasts.mjs:52-85` | without a counting observation, or under another rule, nothing is ever ready; an unreachable store is an error under this rule only |
| `ResolverRules.OutcomeIs` | `scripts/resolve-forecasts.mjs:95-153` | when a forecast is skipped, stops the run, is resolved or attempted, and as what |
| `ResolverRules.RecordIs` | `scripts/resolve-forecasts.mjs:125-145` | what the record of a resolved forecast says: ids, value, pass, and Brier score and skill within rounding |
| `Resolver.BrierInRange` | `scripts/resolve-forecasts.mjs:131-142` | the recorded Brier score of a valid forecast lies between 0 and 1, and is 0 for a certain and right one |
| `Resolver.ForecastResolver.ResolveAll` | `scripts/resolve-forecasts.mjs:88-153` | the loop moves both ledgers to what the run function says, wherever it dies, in the middle of an append too; what it resolves and records, PriceRule, OutcomeIs and RecordIs say |
| `Resolver.LoadedIff` | `scripts/resolve-forecasts.mjs:21-22` | reading the final ledger gives every record written in full if no append was cut short, but for the line end of the last one, and otherwise nothing |
| `ResolverRuns.LedgersGrow` | `scripts/resolve-forecasts.mjs:104-147` | ledgers only grow, by at most one line per forecast |
| `ResolverRuns.FinalsAreEarned` | `scripts/resolve-forecasts.mjs:130-148` | every final record a run writes is the outcome of a forecast it reached whose key was not final, cut as the process died |
| `ResolverRuns.RunIff` | `scripts/resolve-forecasts.mjs:92-148` | told from the inputs: a run survives if and only if nothing kills it and every fatal line is one it skips, and the keys it holds are the known ones and those of the resolvable forecasts it gets to |
| `ResolverRuns.LedgerIff` | `scripts/resolve-forecasts.mjs:22-147` | told from the inputs: a run leaves the final ledger parseable if and only if it was, no append is torn and nothing is appended behind a missing line end |
| `ResolverRuns.AtMostOnceIff` | `scripts/resolve-forecasts.mjs:91-98` | a run keeps one record per key if and only if it could read the final ledger or settles no key that is already there |
| `ResolverRuns.LedgerParsesIff` | `scripts/resolve-forecasts.mjs:21-22` | over any sequence of runs the final ledger reads as all records if and only if no append was torn and none followed one without its line end; otherwise as none |
| `ResolverRuns.AlwaysAtMostOnceIff` | `scripts/resolve-forecasts.mjs:88-153` | over any sequence of runs each key is resolved at most once if and only if no run that finds nothing in the final ledger, because reading fails or an earlier append broke it, earns a key earned before |
| `ResolverRuns.UnreadableResolvesTwice` | `scripts/resolve-forecasts.mjs:21-91` | the concrete case of a read that fails: one forecast resolved twice |
| `ResolverRuns.TornResolvesTwice` | `scripts/resolve-forecasts.mjs:21-147` | the concrete case of a death in the middle of an append: the next run resolves an earlier forecast again |
| `ResolverRuns.AttemptsNeverGate` | `scripts/resolve-forecasts.mjs:90` | earlier attempts play no part in what is resolved |
| `ResolverRuns.CleanRunResolves` | `scripts/resolve-forecasts.mjs:95-152` | after any history a clean run makes final exactly the keys final before and those it can resolve |
| `ResolverRuns.FatalStrands` | `scripts/resolve-forecasts.mjs:95-103` | a line that throws outside the rule strands every forecast behind it |
| `ResolverRuns.NullTargetIsFatal` | `scripts/resolve-forecasts.mjs:36` | a null target is such a line |
| `ResolverRuns.RerunConverges` | `scripts/resolve-forecasts.mjs:88-153` | interrupted between any two forecasts, with a ledger that parses, and repeated on the same inputs, a run leaves record for record what the uninterrupted one leaves; a rerun adds nothing |
| `ResolverRuns.AlwaysOncePerPairIff` | `scripts/resolve-forecasts.mjs:91-98` | over any sequence of runs each forecast id and rule version is resolved at most once if and only if no blind run earns a key again and no two earned keys differ in the window end alone |
| `ResolverRuns.FinalKeysAreEarned` | `scripts/resolve-forecasts.mjs:91-148` | the final keys after any sequence of runs are exactly those some run earned, told from the inputs |
| `ResolverRuns.ResolvedTwice` | `mechanisms/forecast_resolver_v2.yaml:9` | the mechanism promises once per forecast id and rule version; one forecast under two window ends breaks it |
| `Outbox.KeyIgnoresOrder` | `scripts/outbox-consumer.mjs:91-95` | the repair key is the same for every order of the requirement list; which keys are equal, KeysEqualIff says |
| `OutboxClasses.KeysEqualIff` | `scripts/outbox-consumer.mjs:86-95` | two repairs have one key if and only if they name the same site (payload, else subject, else the default), the same version and the same requirements that are not mere information |
| `OutboxClasses.OneDispatchPerClass` | `scripts/outbox-consumer.mjs:62-173` | a clean run from empty files dispatches exactly one task for each such class of repairs in the queue, and none for the three kinds of lines that are no repair |
| `OutboxClasses.FileKeepsLast` | `scripts/outbox-consumer.mjs:168-170` | a run that gets to its end writes its consumed ids, the last 500 of them if there are more |
| `Outbox.OutboxConsumer.Consume` | `scripts/outbox-consumer.mjs:62-173` | the loop moves both files to what the run function says, wherever it dies; what a run sends, OneDispatchPerClass says |
| `Outbox.SafeIffCovered` | `scripts/outbox-consumer.mjs:65-100` | every possible next run keeps one dispatch per key if and only if the ledger it reads holds every key dispatched so far |
| `Outbox.RunKeepsCoveredIff` | `scripts/outbox-consumer.mjs:147-150` | a run leaves the ledger complete if and only if it does not die between an accepted dispatch and the ledger write |
| `Outbox.AlwaysOncePerKey` | `scripts/outbox-consumer.mjs:62-173` | over any number of runs each key is dispatched at most once, although the consumed list is lost on a crash and cut to 500 |
| `Outbox.ConsumedMeansOpen` | `scripts/outbox-consumer.mjs:79-100` | a consumed id is no repair or its key is open: a failed dispatch never counts as done |
| `Outbox.AlwaysOncePerTask` | `scripts/outbox-consumer.mjs:75-100` | with stable requirement lists no queue entry is dispatched twice |
| `Outbox.CleanRunLosesNothing` | `scripts/outbox-consumer.mjs:72-166` | whatever went wrong before, a clean run leaves open exactly the keys open before and those of every repair in the queue |
| `Outbox.UnrecordedRepeats` | `scripts/outbox-consumer.mjs:147-150` | a death between dispatch and ledger write sends a repair out twice |
| `Outbox.ChangedRequirementsRepeat` | `scripts/outbox-consumer.mjs:93-95` | a changed requirement list sends one entry out under two keys |
| `Ingestor.IngestAddsAtMostOne` | `src/events/canonical-ingestor.js:19-68` | an ingest changes nothing, or adds exactly the received envelope under an id the log did not have; what is stored under any id stays |
| `Ingestor.ProjectionNeverMatters` | `src/events/canonical-ingestor.js:50-60` | log, checkpoint and verdict are the same whatever projector and graph do |
| `Ingestor.HistoryKeepsFirst` | `src/events/canonical-ingestor.js:38-48` | over any history, foreign writers included, one event per id, and the first one stays |
| `Ingestor.ReingestChangesNothing` | `src/events/canonical-ingestor.js:38-45` | ingesting again after any history changes nothing; what was accepted is a duplicate from then on, what was rejected is rejected for the same reason |
| `Ingestor.ThrowLosesNothing` | `src/events/canonical-ingestor.js:48-65` | a thrown ingest left the store alone, or the envelope is in and a retry is a duplicate |
| `Ingestor.ProjectedOnceOrNever` | `src/events/canonical-ingestor.js:50-60` | a projection that failed is never made up for by any later ingest |
| `Ingestor.CheckpointIsLastPersisted` | `src/events/canonical-ingestor.js:62-65` | the checkpoint names the last newly persisted event |
| `Ingestor.CheckpointIgnoresProjection` | `src/events/checkpoint-store.js:1-4` | the checkpoint store says it tracks projected events; it moves although projection threw and the graph got nothing |
| `Ingestor.BatchAddsFirsts` | `src/events/canonical-ingestor.js:70-74` | a batch appends exactly its first fit envelope of each id the log did not have, in order |
| `Ingestor.VerdictIff` | `src/events/canonical-ingestor.js:70-80` | accepted, duplicate or rejected, told for each item from the log and the items alone |
| `Ingestor.ReportPartitions` | `src/events/canonical-ingestor.js:75-79` | each reply is the entry of its own list that its position says: the report partitions the batch in order |
| `IngestorVerdicts.FlawsAre` | `contracts/index.js:145-175` | an envelope is reported with exactly its wrong members, each once, in the order of the checks |
| `IngestorVerdicts.ReplyIs` | `src/events/canonical-ingestor.js:19-68` | the table of replies: invalid, tampered, conflicting, duplicate or accepted, told from the envelope and the first event of the log with its id |
| `IngestorVerdicts.EntryIs` | `src/events/canonical-ingestor.js:48-65` | only an envelope that is sound and new enters; then log, graph and checkpoint gain exactly it, its first statements and its id and time |
| `IngestorVerdicts.ForeignStays` | `src/events/canonical-ingestor.js:38-48` | what other writers append to the shared log stays on it through any history of ingests |
| `Ingestor.CanonicalEventIngestor.Ingest` | `src/events/canonical-ingestor.js:19-68` | log, graph, checkpoint and reply are those of the step function |
| `Ingestor.CanonicalEventIngestor.IngestBatch` | `src/events/canonical-ingestor.js:70-80` | the batch ingests in order and reports, or aborts at the first throw with the events before it in |
| `AppendLock.MutualExclusion` | `src/event/jsonl-store.js:25-56` | if no lock is broken while a call is inside, at most one call is ever inside and no append fails |
| `AppendLock.AlwaysInv` | `src/event/jsonl-store.js:25-57` | in such executions the file is at every moment what the calls wrote, call by call in lock order, and it only grows |
| `AppendLock.QuietIffExclusiveAfter` | `src/event/jsonl-store.js:35-43` | a break is quiet if and only if, as long as nobody breaks the lock again, at most one call is ever inside |
| `AppendLock.PromptMutualExclusion` | `src/event/jsonl-store.js:28-46` | if acquiring is one step, finding the lock stale and removing it is one step, and no holder is over age when somebody looks, then in whole executions of any number of calls at most one is ever inside |
| `AppendLock.ReleasesOwnLock` | `src/event/jsonl-store.js:50-56` | a call finds its own lock when it leaves and removes nobody else's |
| `AppendLockBreaks.EveryBreakWasLooked` | `src/event/jsonl-store.js:35-43` | in every execution a call that is about to break the lock has looked, found no owner file or one more than five seconds old, and done nothing since |
| `AppendLockBreaks.LookIs` | `src/event/jsonl-store.js:35-46` | looking sends a waiter to break the lock exactly then, and changes nothing else |
| `AppendLockBreaks.OwnerFails` | `src/event/jsonl-store.js:28-34` | a call fails at its owner file exactly if its directory is gone; otherwise the lock is its own from now on |
| `AppendLockBreaks.WaiterFailsTheOwner` | `src/event/jsonl-store.js:28-43` | an execution in which a waiter breaks the lock between directory and owner file, and the append fails |
| `AppendLockBreaks.CallsMayAct` | `src/event/jsonl-store.js:27-56` | a call that has neither ended nor crashed can take its next step in every state |
| `AppendLock.LogReadsBack` | `src/event/jsonl-store.js:60-68` | in every state of such an execution, crashes in mid-line included, the log reads back as the shares glued together: a complete share ends a line, a torn one lengthens the next |
| `AppendLock.LineReadsBackIff` | `src/event/jsonl-store.js:49-63` | a written line is a line of the log by itself if and only if the nearest call before it that wrote anything wrote its whole line |
| `AppendLock.AckedReadsBackWithoutTears` | `src/event/jsonl-store.js:49-68` | if nobody died in mid-line, every acknowledged event is a line of the log by itself, between the lines of the calls before it and those behind it |
| `AppendLock.TornOnlyAtTheEnd` | `src/event/jsonl-store.js:49` | while one call writes, the log is the complete lines before it and its torn piece |
| `AppendLock.TornLineLosesTheNext` | `src/event/jsonl-store.js:36-49` | an execution with every break quiet: a call dies in mid-line, and the next acknowledged event is lost behind the torn piece |
| `AppendLock.LineReadsBack` | `src/event/jsonl-store.js:63` | splitting gives back a line that was appended |
| `AppendLock.MissingOwnerLosesLines` | `src/event/jsonl-store.js:36-43` | a missing owner file counts as stale at once: an execution with two acknowledged appends and neither line in the log |
| `AppendLock.LateBreakLetsTwoIn` | `src/event/jsonl-store.js:36-43` | looking and removing are two steps: an execution in which a waiter removes the lock another has just taken |
| `Conformance.LatestIff` | `src/standards/conformance.js:29-41` | the observation the checks use is the latest of its metric, and the last of several equally late |
| `Conformance.FailedIff` | `src/standards/conformance.js:54-62` | a version is complied with if and only if no required check fails |
| `ConformanceTable.VerdictIs` | `src/standards/conformance.js:11-24` | a verdict lists exactly what the version asks of the site and its standing observations do not meet, requirement by requirement; it is compliant if and only if every required one is met |
| `ConformanceTable.RecordReads` | `src/standards/conformance.js:75-86` | a recorded verdict reads back as it was: pair, 1 or 0, and both lists |
| `ConformanceTable.PlainRecordId` | `src/standards/conformance.js:78` | for ids of letters, digits and underscores the record is named by both |
| `ConformanceTable.DriftIs` | `src/reconcile/reconciler.js:7-29` | after a pass over every site, on a graph with exact indexes, there is a drift entry for a site and a version if and only if the graph links the site to the version by CONFORMS_TO and the site does not meet something the version requires |
| `Conformance.ConformanceEvaluator.LoadLatestObservations` | `src/standards/conformance.js:29-41` | one pass gives the latest observation of every subject and metric |
| `Conformance.ConformanceEvaluator.EvaluateSite` | `src/standards/conformance.js:43-73` | one verdict per desired version, judged on the latest observations |
| `Conformance.ConformanceEvaluator.JudgeVersion` | `src/standards/conformance.js:49-70` | failed requirements sorted into required and soft |
| `Conformance.ConformanceEvaluator.RecordCompliance` | `src/standards/conformance.js:75-88` | the verdicts are emitted in order until a projection throws |
| `Conformance.Reconciler.CollectCompliance` | `src/reconcile/reconciler.js:10-16` | the map holds, per pair, the latest compliance record, the first of several equally late |
| `Conformance.Reconciler.StandardDrift` | `src/reconcile/reconciler.js:7-29` | one entry per desired pair without a compliant record, in the order of sites and links |
| `ConformanceDrift.RecordProjects` | `src/controller/control-plane.js:85-89` | recording a verdict stores its observation and links it from sensor and site |
| `ConformanceDrift.StepSame` | `src/event/projector.js:81-86` | recording a verdict leaves sites, desired links and every other metric's latest observation as they were |
| `ConformanceDrift.StepCounts` | `src/reconcile/reconciler.js:11-16` | a record later than its pair's others is the one that counts, wherever it stands |
| `ConformanceDrift.DriftIsExactlyFailure` | `src/reconcile/reconciler.js:7-29` | once every site has been judged and recorded, in any order, drift is exactly the desired pairs with a failed required check, each noncompliant and pointing at its own record |
| `ConformanceDrift.ConformSites` | `scripts/conformance.mjs:29-44` | the script's loop judges and records site after site |
| `ConformanceCollisions.RecordIdsCollide` | `src/standards/conformance.js:78` | sanitised record ids of different sites can be equal |
| `ConformanceCollisions.RecordAllOwns` | `src/standards/conformance.js:75-88` | recording a pass of verdicts, clashing or not, changes nothing but compliance, and each record id ends with the record of its last verdict |
| `ConformanceCollisions.CollisionErases` | `src/standards/conformance.js:75-86` | when the last verdict with a record id is another pair's, nothing is left of this pair's record |
| `ConformanceCollisions.DriftIsFailureIff` | `src/reconcile/reconciler.js:7-29` | the drift read back after a whole pass is the desired pairs with a failed required check, each pointing at its own record, if and only if no two different pairs of the pass share a record id |

## Left out

- HTTP server, command line, Hydra clients, object stores, Cloudflare, Porkbun, MCP and mail integrations: plumbing around the logic above.
- Python acceptance stubs, generators of pages and blueprints, scoring tables and listing validators: no state and no loops worth a theorem.
- The Hydra graph backend: it replaces data where the in-memory store merges, so nothing is claimed about it.
- Overlapping ticks, overlapping ingests of one id and concurrent resolver or consumer runs: the code reads and then writes without a lock, so these are modelled one after another.
- `findPaths` on a graph that changes under it: each search reads one snapshot.
- Payload ids are strings or absent, list members are lists or absent, and entity types are the projector's; other JSON shapes in those places are not modelled.
- Names built from templates are kept as the list of their parts, and the `evaluation` member of build events is not stored.
- Number conversion and the text order of strings are parameters; floating point is `real`, non-finite scores and logarithmic scores are not modelled, and the resolver's roundings are exact decimal roundings.
- Edge cases of JavaScript objects (`RULES` or `CHECKS` looked up by a name every object has) are not modelled.
- The wiring of bus and router is fixed: the handler on announced tasks is the first of the two dispatches in `Controller.FactoryController.Deliver`.
- Handlers of the bus are represented by the nested emits they perform and by whether they throw; failures of the event store's own file are modelled in `AppendLock` and `Ingestor` only.
- `Lineage.EdgesAre`, `Descent.LogIs`: the sources of the edges an event asks for are free of the separator; otherwise two edges can share a key (`GraphModel.SeparatorCollides`).
- `Replay.ReplayLog`: sources and kinds of links are free of the separator, as `Replay.ExecIndexExact` needs.
- `Release`: creating a run is one step, the verifier's checks before the clone are part of it, main is the repository's checked-out branch, and the supervisor's kanban filter and event emission are not modelled.
- `ReleaseSafety.StepAdvances`: the bound is per commit, because per run it is false; `ReleaseRaces.CanAdvanceIff` says when.
- `Release`: an empty suite directory and a missing one have one digest in the scripts and two in the model.
- Builders that write to the repository's main branch by other means than a commit on top of it, and rewritten receipts or status files, are outside the model.
- `Resolver.RulingIsWindowed`: asks that no two different in-window observations share a time, since the store's order among them is not specified.
- `ResolverRules.PriceRule`: asks that no two different counting observations share a time, as there.
- `ResolverRuns.RerunConverges`: the interruption falls between two forecasts and leaves a ledger that parses; `ResolverRuns.TornResolvesTwice` says why the second is needed.
- `Resolver`: a part of a record never parses, and nothing appended behind it makes it parse.
- `Resolver`: the parts of a key are kept apart, so separators inside them cannot collide; threshold texts that spell an infinity are read as no number.
- `Outbox.AlwaysOncePerKey`: the ledger is readable and no run dies between an accepted dispatch and the ledger write; `Outbox.SafeIffCovered` says why both are needed.
- `OutboxClasses.KeysEqualIff`: requirement ids are texts without commas and not empty; ids with commas could read alike when they are joined.
- `Outbox`: the parts of a repair key are kept apart where the script joins them with `|`, and the 16 digits kept of its hash are taken to be injective.
- `Outbox`: nothing in the repository closes a repair, so an open key stays open; briefs and telemetry are not modelled.
- `Ingestor`: upper-casing of a system name is that of ASCII letters.
- `Ingestor`: envelopes are compared member by member as JSON text; statements are opaque, and how many of them the graph takes is an input.
- `AppendLock`: an append that fails for other reasons than a lost lock directory is not modelled; a crash is possible at every step.
- `ConformanceDrift.DriftIsExactlyFailure`: the sensor is registered, record ids do not collide with each other (`ConformanceCollisions.DriftIsFailureIff` says that this is needed) or with anything that is not an older record of the same pair, each record is later than its pair's other records, and site ids are free of the separator.
- `ConformanceCollisions.DriftIsFailureIff`: as there, and no record of a pair stands under another id.
- `Conformance`: pairs are compared as values where the code joins them with the separator, an astral character in an id is one underscore in a record id where JavaScript writes two, and a `telemetry_exemptions` that is a string instead of a list exempts nothing.
