# ShadowTrace verification

A Dafny model of the parts of ShadowTrace whose correctness depends on more than one function: the
crash-and-redelivery probe of the worker, the evidence pipeline, the evidence graph and its cache, the
build-context matcher, and three smaller agents (memory, report, risk rubric).

`dafny verify dfyconfig.toml` checks the whole project.

## What is modelled

**Crash and redelivery (`ProbeMachine`, `ProbeSafety`, `ProbeRuns`, `ProbeDrive`, `ProbeGate`, `ProbeAnyRun`,
`ProbeWorker`).** A delivery of the probe task is a program counter over durable state: Redis artifacts, counters,
one-shot latches, the event lease and the disposition provider's records. Each step is at most one durable operation,
so a kill between steps is a kill between durable operations. A run is any sequence of deliveries, steps (each with its own network outcome),
kills, lease expiries and latch lapses, over any number of task ids. `Mode` names the two kinds of run the protocol is
built for: `Solo` (one task id, the lease may expire at any moment) and `Fenced` (any number of task ids, no expiry under a
live holder); results that need neither hold for every run. `Drive` is an undisturbed delivery in any network
weather; the class `Probe` is the worker itself, field by field, and its `RunProbe` is proved equal to `Drive`.

**Evidence (`Collect`, `CollectAgree`, `CollectFacts`, `DedupSort`, `Conflicts`, `ConflictFacts`, `Store`,
`EvidenceRun`).** The sequential and the
concurrent collector as loops over a mutable collector; the concurrent one with an arbitrary set of tools done and an
arbitrary enumeration of the tools pending at the global timeout. Then dedup and sort, the store that refuses to lower
a confidence, the three conflict rules with their penalty, the forced sync, and the overall confidence.

**Graph (`Graph`, `GraphFacts`, `GraphCache`).** Extraction rules, dedup by derived id, and the fingerprint test that lets a stored
graph stand in for a rebuild. Hashes are parameters; a result that needs them to tell things apart asks it only of the
edges, nodes and texts at hand.

**Build context (`Ignore`, `Walk`).** Pattern lists with negation, the pruning walk and the dirty-workspace check.
Globbing is a parameter.

**Memory agent (`Memory`).** The gates of one call and what any sequence of calls files for review.

**Report (`Lines`, `Report`).** Text split at every line boundary Python knows, the merge that protects template lines,
and the fingerprint stamp.

**Rubric (`Rubric`).** The band table, choice resolution and landing, over `real`.

`Basics`, `Sequences`, `Sorting` and `Evidence` hold shared types, list facts and the stable sort.

## Findings

- Lease expiry under a live holder lets a second task past the gate (`ExpiryUnderAHolderAdmitsAnother`), and a late
  write of the first can then reopen a closed event under its terminal (`StaleHolderReopensTheCase`, reached from the
  start by `ExpiryCanReopenAClosedCase`). A closed case stays closed exactly when no delivery is about to create an
  artifact (`ClosedCaseStaysClosedIff`). What no run breaks: each key recorded once (`RecordedAtMostOnce`), the
  terminal written once and counted at most once (`TerminalCountedAtMostOnce`), and every claim of success resting on
  a stored successful receipt (`SuccessIsAlwaysRooted`).
- `terminal_writes` can stay 0 although the terminal exists, in any run exactly when a kill falls between the insert and
  the increment (`UncountedIffKilledBetween`).
- A list with one edge-free evidence row never hits the graph cache, so it is rebuilt every time (`EdgeFreeRowMisses`).
- The fingerprint text confuses id lists when an id holds the separator (`BarsConfuse`), and tells all others apart
  (`MaterialTellsIds`).
- Looking at ancestors changes a verdict of the ignore matcher exactly when a directory above is excluded and the path
  is not (`VerdictsDifferIff`). For tree-covering lists that takes a negation (`CoveringListsDifferIff`,
  `NegationBreaksClosure`); a wildcard without a slash does it alone (`LooseLineDiffersIff`, `LooseLineBreaksClosure`).
- A lost write of the memory output makes the next CLOSED call file the same candidates again (`LostWriteFilesTwice`);
  `ClosedCount` and `EarlyCount` say exactly how often a candidate is filed, and `FiledTwiceIff` when more than once.
- Landing a rule score is monotone exactly for intervals that start at zero (`MonotoneIffFloorIsZero`). With the low
  lean, of two neighbouring bands the higher one scores lower or equal exactly while the rule score lies above the
  lower ceiling and up to the higher one (`HigherBandScoresHigher`).

## Model

| member | source | states |
|---|---|---|
| `ProbeSafety.ReachableStatesAreSafe` | backend/scripts/celery_sigkill_tasks.py:167-290 | In every state of any run at all: at most one counted terminal write, and only once the terminal exists. In every state of every allowed run: one delivery at most is past the lease gate; a closed event has a durable successful receipt; a terminal implies closed event, final action and job, delivered outbox, receipt and provider record with the same status; the provider never had to replay a submission |
| `ProbeSafety.TerminalCountedAtMostOnce` | backend/scripts/celery_sigkill_tasks.py:283-290 | In any run at all, with expiry under a live holder and tasks side by side: the terminal is write-once, at most one delivery is between insert and count, and the counter never falls and never passes 1 |
| `ProbeSafety.ArtifactsOnlyAdvance` | backend/scripts/celery_sigkill_tasks.py:176-290 | Between any two points of a run artifacts only move absent, initial, final; receipt, terminal and provider records are write-once; after the terminal the provider receives nothing |
| `ProbeSafety.NextKeeps` | backend/scripts/celery_sigkill_tasks.py:138-306 | Every delivery, step with any network outcome, kill and allowed expiry keeps the invariant: consistent artifacts, what the live delivery knows, exclusiveness and lease ownership |
| `ProbeSafety.StepPastGate` | backend/scripts/celery_sigkill_tasks.py:176-297 | One durable operation of the lease holder keeps the artifacts consistent, re-establishes what the next operation relies on, and moves artifacts only forward |
| `ProbeSafety.StepMoves` | backend/app/orchestration/lease.py:83-209 | In any state at all, only acquire on a free lease and release by the owner move the lease, only a POST reaches the provider, a latch fires once, and the counter moves only after the insert |
| `ProbeRuns.RecordedAtMostOnce` | backend/app/adapters/mock_xdr.py:404-475 | Whatever is killed, lost, expired or interleaved, the provider's log and records agree and no idempotency key is recorded twice |
| `ProbeRuns.SubmitKeepsLedger` | backend/app/mock_xdr/state.py:668-696 | A POST that reaches the provider stores one attempt per key and answers repeats from it |
| `ProbeRuns.EachPointBlocksOnce` | backend/scripts/celery_sigkill_tasks.py:95-111 | In any run each fault point blocks at most one delivery, plus one for every time its latch key lapsed, and none more while the latch is set |
| `ProbeRuns.UncountedIffKilledBetween` | backend/scripts/celery_sigkill_tasks.py:283-297 | In any run at all, the terminal exists without a counted write if and only if some delivery was killed between the insert and the increment |
| `ProbeRuns.LateOwnerSubmitsNothing` | backend/scripts/celery_sigkill_tasks.py:167-194 | Without expiry, a task that gets past the gate after another was there finds the terminal, and nothing reaches the provider any more |
| `ProbeRuns.ExpiryUnderAHolderAdmitsAnother` | backend/app/orchestration/lease.py:83-122 | From every state with a live holder, an expiry followed by the entry of any idle task leaves both past the gate |
| `ProbeAnyRun.StaleHolderReopensTheCase` | backend/scripts/celery_sigkill_tasks.py:176-183 | From every state with a holder about to open the event: after an expiry and a second task that closes the case, the late write leaves the event open under the unchanged terminal |
| `ProbeAnyRun.ExpiryCanReopenAClosedCase` | backend/scripts/celery_sigkill_tasks.py:176-290 | For any two tasks, the second with the terminal fault point, a run from the start reaches a terminal over an open event |
| `ProbeAnyRun.ClosedCaseStaysClosedIff` | backend/scripts/celery_sigkill_tasks.py:176-281 | From any state with all four artifacts closed, they stay closed in every continuation if and only if no delivery is about to create one of them |
| `ProbeAnyRun.SuccessIsAlwaysRooted` | backend/scripts/celery_sigkill_tasks.py:239-290 | In any run at all, a closed event, a finished action or job, a delivered outbox and a terminal each imply a durable successful receipt that the provider has stored, and every artifact opened |
| `ProbeAnyRun.OnlyAcceptedOrConfirmedCounts` | backend/scripts/celery_sigkill_tasks.py:37-39 | In any run at all, a receipt, a delivered outbox and a terminal carry ACCEPTED or CONFIRMED and nothing else |
| `ProbeAnyRun.AnswerDecides` | backend/scripts/celery_sigkill_tasks.py:246-252 | From any consistent state without receipt and terminal and with the latch spent, a delivery that may enter and gets an answer to its first POST, at once or by the lookup after a loss, returns if and only if that answer is ACCEPTED or CONFIRMED, and raises on every other |
| `ProbeAnyRun.StoredAnswerDecides` | backend/scripts/celery_sigkill_tasks.py:239-252 | When the provider already holds an attempt under the key, the delivery returns if and only if its status is ACCEPTED or CONFIRMED |
| `ProbeDrive.DriveIsARun` | backend/scripts/celery_sigkill_tasks.py:114-309 | An undisturbed delivery is a run of the machine: same final state, other tasks untouched |
| `ProbeDrive.UndisturbedDeliveryReturnsIff` | backend/scripts/celery_sigkill_tasks.py:138-306 | From any consistent state and in any network weather, an undisturbed delivery returns exactly when it may take the lease and the terminal exists or its latch is spent and a receipt comes; it blocks at its fault point exactly when the latch is not spent and it gets that far; else it raises. Returning leaves the lease free and the terminal counted once, unless the count was lost before; blocking leaves the latch spent |
| `ProbeDrive.MarkedKillsThenRedeliveryPasses` | backend/scripts/celery_worker_sigkill_gate.py:274-299 | After any run whose kills hit only workers blocked at a fault point, every redelivery that can return ends in the state the gate asserts: one more attempt, one counted terminal write, free lease, all artifacts final, one recorded request |
| `ProbeGate.FirstDeliveryBlocks` | backend/scripts/celery_sigkill_tasks.py:95-111 | From the fresh state, for each of the four fault points, the first delivery blocks exactly there, holding the lease, after one attempt |
| `ProbeGate.GateScenarioPasses` | backend/scripts/celery_worker_sigkill_gate.py:274-299 | The gate scenario with no premise on the state: first delivery, block, kill, redelivery; for every fault point it ends with two attempts, one counted terminal write, a free lease, all artifacts final and exactly one provider request, in any two weathers that answer |
| `ProbeWorker.Probe.RunProbe` | backend/scripts/celery_sigkill_tasks.py:114-309 | The worker, as it updates its fields, ends in the state and with the result of `Drive`; it completes only with a terminal, and a terminal it writes is the first one and carries ACCEPTED or CONFIRMED |
| `ProbeWorker.Probe.Enter` | backend/scripts/celery_sigkill_tasks.py:138-174 | Counts the attempt, then enters exactly when the lease is free or already its own, which it then holds |
| `ProbeWorker.Probe.OpenCase` | backend/scripts/celery_sigkill_tasks.py:176-194 | Opens the event if absent; a stored terminal is replayed and the lease released |
| `ProbeWorker.Probe.PauseAt` | backend/scripts/celery_sigkill_tasks.py:95-111 | Blocks exactly when the latch has not fired, and leaves latch and marker set |
| `ProbeWorker.Probe.Submit` | backend/app/adapters/mock_xdr.py:404-442 | The client's view of a POST under every network outcome: one request more at the provider exactly when it got there, a status other than UNKNOWN only as stored, an exception exactly on refusal |
| `ProbeWorker.Probe.UnknownAfterLoss` | backend/app/adapters/mock_xdr.py:444-475 | After a lost answer the caller gets a status and nothing is sent or stored: a status other than UNKNOWN is one the provider stored under the key, a recorded POST is missed only when the lookup fails, and a failed lookup never counts as success |
| `ProbeWorker.Probe.Ask` | backend/app/adapters/mock_xdr.py:505-523 | Looks the key up before any POST and submits only when nothing is stored |
| `ProbeWorker.Probe.Fetch` | backend/scripts/celery_sigkill_tasks.py:239-271 | A durable receipt is reused; otherwise one is obtained and stored; either way it is ACCEPTED or CONFIRMED, and the delivery ends as `Drive` says |
| `ProbeWorker.Probe.Finish` | backend/scripts/celery_sigkill_tasks.py:273-306 | Closes event, action, job and outbox in order, inserts and counts the terminal, and releases the lease |
| `Collect.Collector.MergeOutcome` | backend/app/agents/evidence_agent.py:1169-1234 | By kind of outcome: a hit adds all its rows in order and its source once to the successes; an empty answer adds one `no_records` gap; a failure adds its source once to the failures and one gap with its reason; nothing else changes |
| `Collect.CollectSequential` | backend/app/agents/evidence_agent.py:713-776 | The loop yields the merge of the planned tools' outcomes in plan order |
| `Collect.CollectConcurrent` | backend/app/agents/evidence_agent.py:813-994 | Skipped tools, then finished ones in plan order, then the pending ones as timeouts, for any split |
| `CollectFacts.ConcurrentHolds` | backend/app/agents/evidence_agent.py:903-991 | For every split: the evidence is the rows of each tool that hit in time, all of them, in plan order; successes are those tools' sources in plan order; a source failed if and only if its tool was skipped, failed or was pending; each tool that did not hit has exactly one gap with its own reason |
| `CollectFacts.SequentialHolds` | backend/app/agents/evidence_agent.py:713-776 | The same of the sequential collector, with every tool in time |
| `CollectFacts.WhichSource` | backend/app/agents/evidence_parser.py:20-28 | The source each tool reports under, no two the same |
| `Collect.MergeMeaning` | backend/app/agents/evidence_agent.py:1169-1234 | Merging outcomes of distinct tools concatenates their contributions, whatever was merged before |
| `CollectAgree.ConcurrentAgreesWithSequential` | backend/app/agents/evidence_agent.py:713-994 | With every query in time: same evidence and success sequences and status, same gaps and failures as multisets, for every completion order |
| `CollectAgree.EveryToolMergedOnce` | backend/app/agents/evidence_agent.py:903-991 | For every split each planned tool is merged exactly once, and successes, failures and empty answers add up to the plan |
| `CollectAgree.TimeoutOnlyLoses` | backend/app/agents/evidence_agent.py:903-991 | For every split: source lists duplicate-free and disjoint, evidence and successes subsequences of the sequential ones, status never better |
| `DedupSort.WinnerIsFirstBest` | backend/app/agents/evidence_agent.py:1634-1655 | The row kept for a key is the first of the most confident ones, cut to the second |
| `DedupSort.DedupAndSortMeaning` | backend/app/agents/evidence_agent.py:1634-1655 | Output is ordered by time with undated rows last, has pairwise distinct keys, covers every input key, and holds only first-best rows |
| `DedupSort.OneRowPerSlot` | backend/app/agents/evidence_agent.py:1634-1655 | Over source, type and second themselves: no two rows share a slot, every input row has its slot covered, each row is the first most confident of its slot with only its time cut to the second, in order of time with undated rows last |
| `DedupSort.EqualTimesKeepOrder` | backend/app/agents/evidence_agent.py:1634-1655 | Rows of equal time stay in the order in which their keys were first met |
| `DedupSort.DedupAndSortFixpoint` | backend/app/agents/evidence_agent.py:1634-1655 | Running the step on its own output changes nothing |
| `DedupSort.RunDedupAndSort` | backend/app/agents/evidence_agent.py:1634-1655 | The dict loop followed by the sort computes that output |
| `Conflicts.DetectFindsContradictions` | backend/app/agents/conflict_detector.py:104-226 | The three rules name an id if and only if a row with that id takes part in a contradiction, defined over the set of row facets without order or loops |
| `ConflictFacts.ConflictsExplained` | backend/app/agents/conflict_detector.py:47-57 | The conflicts are, in order, one for each endpoint row that sets off the login rule, at most one of the network rule, and one for each asset that sets off the asset rule; each carries its rule and exactly the ids of its own rows, in order |
| `ConflictFacts.IdsOnce` | backend/app/agents/conflict_detector.py:238-244 | A conflict names each id once |
| `ConflictFacts.IdsGrow` | backend/app/agents/conflict_detector.py:238-244 | Ids stand in order of first appearance |
| `Conflicts.OnePenaltyPerContradictedRow` | backend/app/agents/conflict_detector.py:59-93 | Exactly the contradicted rows get 0.7 times their confidence, once, and the flag; all else, order and length stay |
| `Conflicts.PenalisedIdsStable` | backend/app/agents/conflict_detector.py:47-85 | Neither a permutation of the input nor penalties already applied change the set of penalised ids |
| `Conflicts.ApplyPenalties` | backend/app/agents/conflict_detector.py:59-85 | The two loops apply the penalty to the named ids and nothing else |
| `Conflicts.FindIamConflicts` | backend/app/agents/conflict_detector.py:104-150 | The indexed two-pass loop finds the same conflicts as the rule stated row by row |
| `Conflicts.IndexLogins` | backend/app/agents/conflict_detector.py:114-123 | The index holds the accounts with a successful login, and for each account its absent-login rows in order |
| `Conflicts.FindNetworkConflicts` | backend/app/agents/conflict_detector.py:152-185 | The branches and the scan for external flows yield the network rule |
| `Conflicts.FindAssetConflicts` | backend/app/agents/conflict_detector.py:187-226 | Filtering isolated assets and active rows first, then matching hosts, yields the asset rule stated row by row |
| `Conflicts.UniqueIds` | backend/app/agents/conflict_detector.py:238-244 | The ids in order of first appearance, each once |
| `Conflicts.GroupBySource` | backend/app/agents/conflict_detector.py:95-102 | Each group is the subsequence of the rows of its source |
| `Conflicts.RunDetect` | backend/app/agents/conflict_detector.py:47-57 | Grouping and the three loops compute the conflicts the lemmas speak about |
| `Conflicts.DetectAndPenalize` | backend/app/agents/conflict_detector.py:87-93 | Detection by the loops, then the penalties for what was detected |
| `Store.Repository.UpsertBatch` | backend/app/agents/evidence_agent.py:413-427 | Each row replaces the stored one only with a higher confidence |
| `Store.Repository.ApplyConflictUpdates` | backend/app/agents/evidence_agent.py:429-441 | Confidence and flag are overwritten whatever they were |
| `Store.Repository.Consolidate` | backend/app/agents/evidence_agent.py:683-695 | Persist, detect, penalise and sync: returned rows, conflicts and the new store |
| `Store.StoreAgreesIff` | backend/app/agents/evidence_agent.py:1260-1273 | A returned row agrees with the store if and only if it was forced, or it was new, or it was more confident than the stored row, or the stored row matched already |
| `Store.StoredRowIs` | backend/app/agents/evidence_agent.py:419-441 | The whole stored row after a run: the new row with text and entities redacted when it is new or more confident, else the old row; with the returned confidence and flag on top when it is flagged |
| `Store.OtherRowsStay` | backend/app/agents/evidence_agent.py:413-441 | Ids the run did not see keep their rows, or their absence |
| `Store.FreshRowsAgree` | backend/app/agents/evidence_agent.py:683-695 | Every id that was new to the store ends with the returned confidence and flag |
| `Store.UpsertCannotLower` | backend/app/agents/evidence_agent.py:413-441 | A plain upsert of a penalised row leaves the old confidence; the forced update does not |
| `EvidenceRun.Run` | backend/app/agents/evidence_agent.py:655-711 | A whole run in either mode: its output, and the store it leaves |
| `EvidenceRun.ModesGiveTheSameOutput` | backend/app/agents/evidence_agent.py:655-711 | With every query in time the two modes give the same evidence, conflicts, successes, status, confidence and store; only the order of gaps and failures may differ |
| `EvidenceRun.StoreHoldsWhatTheRunReturned` | backend/app/agents/evidence_agent.py:683-695 | After a run over freshly numbered rows the store agrees with every returned row |
| `EvidenceRun.DedupKeepsIdsDistinct` | backend/app/agents/evidence_agent.py:1634-1655 | Distinct ids stay distinct through the dedup |
| `EvidenceRun.RatingNeedsNoCap` | backend/app/agents/evidence_agent.py:1671-1684 | For confidences in [0, 1] the score never passes 1, and only the status penalty can bring it below 0 |
| `EvidenceRun.StatusCountsHits` | backend/app/agents/evidence_agent.py:1658-1669 | The status of a run is decided by the number of planned tools that hit in time: five or more, three or four, one or two, none |
| `EvidenceRun.StatusOrder` | backend/app/agents/evidence_agent.py:1658-1669 | The four statuses, each better than the one before |
| `EvidenceRun.CompleteScore` | backend/app/agents/evidence_agent.py:1672-1684 | With complete collection: three quarters of the mean confidence, 0.03 for each source up to five, and a sixtieth for each row up to six |
| `EvidenceRun.TotalAppend` | backend/app/agents/evidence_agent.py:1678-1678 | The confidence that is averaged is the sum over the rows |
| `EvidenceRun.StatusCosts` | backend/app/agents/evidence_agent.py:93-98 | Partial collection costs 0.10 and degraded 0.25 of that, never below zero; a failed collection costs nothing more, and no rows score zero |
| `EvidenceRun.PenaltiesNeverRaiseConfidence` | backend/app/agents/evidence_agent.py:683-698 | Whatever the conflicts, the overall confidence after the penalties is no higher than before |
| `Graph.RuleLinksMeaning` | backend/app/agents/graph_builder.py:237-564 | The extraction rules of each source produce exactly the supported links between the row's entities |
| `Graph.GraphIsClosed` | backend/app/agents/graph_builder.py:586-660 | For every hash, both ends of every edge are nodes of the output and every non-blank entity has its node |
| `Graph.BuildExtends` | backend/app/agents/graph_builder.py:632-660 | Building a longer list extends the nodes and edges of the shorter one as a prefix |
| `Graph.BuildAbsorbs` | backend/app/agents/graph_builder.py:632-660 | Rows already present add nothing |
| `Graph.IdsIgnoreOrder` | backend/app/agents/graph_builder.py:632-660 | Node and edge id sets depend only on which rows there are |
| `GraphFacts.EdgesAreAttested` | backend/app/agents/graph_builder.py:237-564 | Field by field, every edge has a row and two entities it mentions that the row's source may link, from the first to the second: ends, direction, relation, ids and time; when edges are told apart, every such pair has its edge |
| `GraphFacts.NodesStandForEntities` | backend/app/agents/graph_builder.py:586-660 | Every node stands for an entity some row of its event mentions, with the id derived from it; when nodes are told apart, every mentioned entity has its node |
| `Graph.EdgeOrigin` | backend/app/agents/graph_builder.py:632-660 | Every edge comes from a link of one of the rows |
| `Graph.NoEntitiesNothing` | backend/app/agents/graph_builder.py:639-641 | A row without entities contributes no node and no edge, so passing it over changes nothing |
| `Graph.InsertNew` | backend/app/agents/graph_builder.py:646-658 | A batch adds to the dict exactly its rows with ids not yet there, first one wins |
| `Graph.Accumulate` | backend/app/agents/graph_builder.py:632-660 | The loop over the evidence fills both dicts with the first row of each id, in order |
| `Graph.Build` | backend/app/agents/graph_builder.py:632-660 | The loop with the real extraction rules yields the nodes and edges the lemmas speak about |
| `GraphCache.CacheHitIsSound` | backend/app/agents/graph_agent.py:274-300 | On a hit, if the two fingerprint texts at hand do not collide and ids fix content: when the edges extracted before are told apart by their ids, the cached edges are the rebuild's; the cached node ids include the rebuild's; and when the nodes are told apart, so do the nodes |
| `GraphCache.EdgeFreeRowMisses` | backend/app/agents/graph_agent.py:363-372 | A list holding any edge-free row never hits, whatever edge ids collide |
| `GraphCache.UnchangedListHitsIff` | backend/app/agents/graph_agent.py:363-372 | An unchanged list hits its own graph if and only if every row gave an edge |
| `GraphCache.GraphIdsMeaning` | backend/app/agents/graph_agent.py:369-372 | An id read off a built graph is that of a row with an edge; when the extracted edges are told apart, all of those are read |
| `GraphCache.MaterialTellsIds` | backend/app/agents/graph_agent.py:363-372 | For ids without the separator, the hashed texts are equal if and only if the lists hold the same non-blank ids |
| `GraphCache.BarsConfuse` | backend/app/agents/graph_agent.py:363-366 | Any two ordered ids and their join around the separator give the same text |
| `GraphCache.CollisionsHit` | backend/app/agents/graph_agent.py:296-300 | When the two texts hash alike, any stored graph is taken |
| `GraphCache.ListingMeaning` | backend/app/agents/graph_agent.py:363-365 | The list that is joined holds the non-blank ids, each once, in order |
| `Ignore.RunExcludes` | scripts/check_docker_build_context.py:110-119 | The loop computes the verdict of the pattern list |
| `Ignore.LastMatchWins` | scripts/check_docker_build_context.py:110-119 | A path is excluded if and only if the last line that matches it is not a negation |
| `Ignore.LineMeaning` | scripts/check_docker_build_context.py:131-159 | What one excluding line excludes, by the kind of its pattern: with an inner slash or `**`, what the glob matches at or above the path and what lies below a literal; with neither, also by any name along the path, and above it only when it ends in a slash |
| `Ignore.HarmlessLines` | scripts/check_docker_build_context.py:110-137 | A negation alone and a line of slashes exclude nothing, and the ignore file itself is never excluded |
| `Lines.PartsAreStretches` | scripts/check_docker_build_context.py:154-157 | The names along a path are exactly its stretches between slashes |
| `Ignore.MatchDescends` | scripts/check_docker_build_context.py:131-159 | A tree-covering pattern that matches a directory matches everything below it |
| `Ignore.AncestorsAddNothing` | scripts/check_docker_build_context.py:110-159 | Without negations and with tree-covering patterns only, looking at ancestors changes no verdict |
| `Ignore.VerdictsDifferIff` | scripts/check_docker_build_context.py:110-129 | For any list, the verdict with ancestors differs if and only if some directory above has an excluding last match and the path has none |
| `Ignore.CoveringListsDifferIff` | scripts/check_docker_build_context.py:110-159 | For lists whose excluding lines cover trees, it differs if and only if the last line matching the path is a negation and some directory above, other than the ignore file, has an excluding last match |
| `Ignore.LooseLineDiffersIff` | scripts/check_docker_build_context.py:131-159 | For one excluding line that does not cover trees, it differs if and only if the line matches a directory above as a whole path and neither the path nor a segment of it |
| `Ignore.NegationBreaksClosure` | scripts/check_docker_build_context.py:110-129 | With the shell wildcards, a negation reopens a path below a directory that stays excluded |
| `Ignore.LooseLineBreaksClosure` | scripts/check_docker_build_context.py:153-165 | With the shell wildcards and no negation, a pattern without a slash excludes a directory and not a path below it |
| `Walk.WalkEqualsFlatSum` | scripts/check_docker_build_context.py:199-217 | For every tree and pattern list, negations included, the pruning walk totals exactly the files neither excluded nor under an excluded directory |
| `Walk.JoinVerdict` | scripts/check_docker_build_context.py:121-129 | A path is excluded or below an excluded directory exactly when it is excluded itself or its directory is closed to the walk |
| `Walk.SeedDelta` | scripts/check_docker_build_context.py:282-292 | Seeding markers changes the measured size by exactly the bytes of the markers that leak |
| `Walk.SizeUnchangedIffNoLeak` | scripts/check_docker_build_context.py:282-307 | Non-empty markers leave the size unchanged if and only if none of them leaks |
| `Walk.MeasureContext` | scripts/check_docker_build_context.py:199-217 | The walk as it runs, pruning the listing of each directory, totals what the recursive definition says |
| `Walk.KeepDirs` | scripts/check_docker_build_context.py:206-211 | The kept directories are worth exactly the unpruned part of the subtree |
| `Walk.SumFiles` | scripts/check_docker_build_context.py:212-216 | The file loop adds the sizes of the files that are not excluded |
| `Memory.Agent.Run` | backend/app/agents/memory_agent.py:97-251 | One call: gates in order, what it files, what it stores under which key, and its reply |
| `Memory.Agent.FileAll` | backend/app/agents/memory_agent.py:143-231 | Case, rule and profile candidates are filed in order and reported with their review ids |
| `Memory.Agent.QueueCandidate` | backend/app/agents/memory_agent.py:253-281 | A candidate is filed exactly once if one of three attempts or the fallback succeeds, else not at all |
| `Memory.CandidatesAreAskedFor` | backend/app/agents/memory_agent.py:143-231 | A case is a candidate if and only if the call is CLOSED and the case is ready; a rule if and only if CLOSED, a false positive and ready; a profile if and only if its entity was met |
| `Memory.CandidatesInOrder` | backend/app/agents/memory_agent.py:143-231 | The case comes before the rule, the rule before the profiles, and profiles go by kind and value |
| `Memory.ReplyMeaning` | backend/app/agents/memory_agent.py:97-142 | Exactly when a call is turned away, answered from what is stored, or answered anew; and what each changes |
| `Memory.NewOutputTells` | backend/app/agents/memory_agent.py:128-251 | A new output reports exactly the candidates asked for, truthfully about their filing, and a draft if and only if the threat is confirmed and the draft ready; the output of an unsynced event is empty |
| `Memory.CaseAndRuleOnlyFromClosed` | backend/app/agents/memory_agent.py:144-195 | In every run, calls that are not CLOSED file no case and no rule |
| `Memory.ClosedCount` | backend/app/agents/memory_agent.py:97-251 | From any state without a stored CLOSED output, CLOSED calls file a candidate exactly once for each synced one that offers it, up to and including the first that keeps its output |
| `Memory.EarlyCount` | backend/app/agents/memory_agent.py:97-251 | Early calls file a candidate exactly once for each analysed, synced one that offers it, up to and including the first call of either phase that keeps its output |
| `Memory.FiledTwiceIff` | backend/app/agents/memory_agent.py:97-251 | A phase files a candidate more than once if and only if two of its calls offer it and no output was kept before the second |
| `Memory.EntitiesOnceInOrder` | backend/app/agents/memory_agent.py:433-470 | The profiled entities are those that were met, each once, ordered by kind and value |
| `Memory.KeptWritesFileOnce` | backend/app/agents/memory_agent.py:97-251 | When every write succeeds: at most one case, one rule, and two profiles for each entity |
| `Memory.QueueIsTheTotals` | backend/app/agents/memory_agent.py:97-251 | The queue after a run is what was there plus what the two kinds of call filed |
| `Memory.EarlyNeverSuppresses` | backend/app/agents/memory_agent.py:241-251 | After any calls that are not CLOSED, a CLOSED call passes the same gate and files the same candidates as if it were first |
| `Memory.ClosedPassFilesItsCandidates` | backend/app/agents/memory_agent.py:144-251 | The first CLOSED call files each of its fileable candidates exactly once and stores its output |
| `Memory.FinalIsFixed` | backend/app/agents/memory_agent.py:108-110 | Once a CLOSED output is stored it answers every accepted call and nothing changes |
| `Memory.LostWriteFilesTwice` | backend/app/agents/memory_agent.py:333-347 | A lost write makes the repeated CLOSED call file its case a second time |
| `Memory.ReviewIdsPointAtTheQueue` | backend/app/agents/memory_agent.py:159-163 | A record carries a review id exactly when its candidate was filed, and the id is that candidate's place |
| `Report.ProtectedLinesSurvive` | backend/app/agents/report_agent.py:586-661 | For every override, keys, titles, data and order stay, and every protected template line is a line of the merged section |
| `Report.MergedLinesHaveAnOrigin` | backend/app/agents/report_agent.py:604-661 | A line of a replaced section is the model's or a protected template line, and all of those are there |
| `Report.MergeTwiceIsOnce` | backend/app/agents/report_agent.py:604-661 | Merging the same overrides again changes nothing |
| `Report.UnusableIffAllDropped` | backend/app/agents/prompts/report_prompt.py:14-30 | An override is unusable, so the template stands, exactly when each of its lines is blank or a schema placeholder |
| `Report.UsableLines` | backend/app/agents/prompts/report_prompt.py:14-30 | The usable text holds, line by line and in order, what remains of the override; only the blanks at its two ends are taken off |
| `Report.ContentLines` | backend/app/agents/report_agent.py:604-661 | A merged text is the lines of the usable override, then the protected template lines it lacks, in template order |
| `Report.ProtectedByKey` | backend/app/agents/report_agent.py:632-652 | The protected lines of the action and recommendation sections; sections without a rule protect none |
| `Report.OverviewProtects` | backend/app/agents/report_agent.py:80-105 | The protected lines of the overview |
| `Report.EvidenceProtects` | backend/app/agents/report_agent.py:106-119 | The protected lines of the evidence chain and the storyline |
| `Lines.ContainsMeans` | backend/app/agents/report_agent.py:599-600 | A token is found if and only if it stands somewhere in the line |
| `Lines.WhichCharacters` | backend/app/agents/report_agent.py:596-601 | The characters that end a line, and those that count as blank |
| `Report.ExactlyOneFingerprint` | backend/app/agents/report_agent.py:663-690 | A stamped text has exactly one fingerprint line, the last one, and keeps every other line |
| `Report.StampReplaces` | backend/app/agents/report_agent.py:663-690 | A second stamp replaces the first and touches no other line |
| `Report.StampTouchesOnlyTheAppendix` | backend/app/agents/report_agent.py:663-690 | Only the appendix section changes |
| `Report.RunDropEcho` | backend/app/agents/prompts/report_prompt.py:14-30 | The loop computes the usable text |
| `Report.RunMissing` | backend/app/agents/report_agent.py:586-602 | The loop computes the protected lines the text lacks, in template order |
| `Report.RunMerge` | backend/app/agents/report_agent.py:604-661 | The loop computes the merge of every section |
| `Report.RunStamp` | backend/app/agents/report_agent.py:663-690 | The loop computes the stamp of every section |
| `Lines.SplitAtNewline` | backend/app/agents/report_agent.py:595-602 | The lines of a text extended by a newline and more text, for every text, carriage returns included |
| `Lines.SplitJoin` | backend/app/agents/report_agent.py:676-682 | Lines joined with newlines split into the same lines |
| `Rubric.NearestCuts` | backend/app/agents/risk_rubric.py:141-145 | A legacy score picks the band with the closest centre, the higher on a tie: cuts at 23, 44, 64 and 83 |
| `Rubric.NearestIsClosest` | backend/app/agents/risk_rubric.py:141-145 | For any band table no other centre is closer, and none as close is higher |
| `Rubric.ResolveMeaning` | backend/app/agents/risk_rubric.py:179-221 | A choice comes back if and only if the factor is known and the id is one of its bands or there is a score; its anchor lies strictly inside its interval |
| `Rubric.SecondaryActsIffAdjacent` | backend/app/agents/risk_rubric.py:197-208 | A second band moves interval or anchor if and only if it is a known band next to the first |
| `Rubric.ChoiceNumbers` | backend/app/agents/risk_rubric.py:63-161 | Without a known second band: id, lean by name, and the numbers of interval and anchor for each of the five bands and three leans |
| `Rubric.BlendNumbers` | backend/app/agents/risk_rubric.py:197-208 | With an adjacent second band the interval spans both and the anchor divides the way to its centre three to seven; a known band that is not adjacent is dropped |
| `Rubric.IdPicksItsBand` | backend/app/agents/risk_rubric.py:119-130 | A known id resolves to its own band |
| `Rubric.IdsNameTheirPlace` | backend/app/agents/risk_rubric.py:63-112 | Every id of the table names one factor and one place |
| `Rubric.LandingStaysNear` | backend/app/agents/risk_rubric.py:224-242 | The score lies in the interval, or between its ceiling and eight points above when the rule score is above |
| `Rubric.LandingNumbers` | backend/app/agents/risk_rubric.py:224-242 | Inside, the score divides the way from anchor to rule score seven to thirteen; below, three to seven or the floor; above, three tenths of the excess stay, at most eight points |
| `Rubric.RisingRuleLosesLittle` | backend/app/agents/risk_rubric.py:224-242 | A rising rule score lowers the result only across the floor, by at most 0.05 of the anchor's height above it |
| `Rubric.MonotoneIffFloorIsZero` | backend/app/agents/risk_rubric.py:224-242 | Landing is monotone if and only if the interval starts at zero |
| `Rubric.HigherBandScoresHigher` | backend/app/agents/risk_rubric.py:155-242 | Of any two resolved choices with one lean and no second band, for whatever factors, the higher band scores strictly higher for every rule score, except, exactly, for the low lean on overlapping bands with the rule score above the lower ceiling and up to the higher one |

## Left out

- HTTP, Redis, Celery, SQLAlchemy and the file system: each call is the one state change it makes.
- Concurrent executions of one task id: the lease does not exclude them, so a task is delivered only when no delivery of it is live.
- The clock: leases expire and latches lapse at any moment a run says so; markers, which the worker never reads back, stay.
- `renew` and the renewal loop of the lease: the probe does not start it.
- Provider receipts that change through a later read-back: a stored status is final in the model.
- The retry loop of `_get_json`: a lookup succeeds or fails as a whole.
- `_collect_all_triage_degraded`, query deduplication for repeated tools, and exceptions that escape a query: planned tools are distinct and each answers once.
- The text heuristics that read logins, uploads, hosts and entity kinds off a row, redaction, lower-casing and globbing: parameters of the model.
- `Ignore.Glob`: the translation of `**` patterns to regular expressions is not modelled; every general result holds for any glob. Pattern lists come stripped, without blanks and comments.
- `SqlAlchemyEvidenceRepository`: same keep-the-higher rule behind SQL.
- Store.StoreAgreesIff: assumes the rows of one run have distinct ids, as the id generator provides.
- GraphCache.CacheHitIsSound: assumes of the rows at hand non-empty ids without the separator, as the id generator provides, and ids that fix content.
- Node properties and their merge (always empty when the builder creates nodes), graph analysis and graph persistence.
- Conflict ids, descriptions and severities: a conflict is its rule and its evidence ids.
- Memory review ids are places in the queue; payloads and confidences of candidates are not modelled.
- Memory.Agent.QueueCandidate: an insert that commits but reports failure is not modelled.
- Governance maintenance and degraded flags of the memory agent: they file nothing.
- Report chapter wording, rendering, citations and the hash itself; section data other than the fingerprint field is plain text.
- Non-finite legacy scores and floating-point rounding: scores and confidences are `real`.
- Rubric prompts, reasons and the text of the landing explanation.
- LLM calls, RAG retrieval, configuration, evaluation scripts, the frontend and migrations.
