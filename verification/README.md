# A verified model of the OpenPilot agent runtime

OpenPilot (`opca`) runs background agents. An Orchestrator dispatches Tasks into their own
workspaces, refuses to run two Tasks whose files overlap, lets a Task delegate to sub-tasks, and
merges finished work back. A Task streams answers from a provider, runs tool calls, passes an
evidence gate, and may be continued in a chain of further Tasks. This project models that logic in
Dafny and proves what it keeps, over every run and every interleaving. Where the code does something
else than its documentation says, the model follows the code and the difference is stated below.

Check everything with `dafny verify dfyconfig.toml`.

## Components

| modules | what they model |
|---|---|
| `Lifecycle`, `TaskRegistry` | the status graph, the registry of Tasks and the file-conflict gate |
| `SubtaskProtocol`, `SubtaskNotes`, `SubtaskFamily`, `StrandedParents` | parents, children and Orchestrator as interleaved atomic steps, what notifications say, who waits for whom, and two runs that strand a parent |
| `Orchestration`, `ParentLoop`, `SilentChildren` | the Orchestrator object and the run loop of a parent, whose methods and rounds are runs of those steps, and what becomes of sub-tasks that end unheard |
| `Order`, `Fnv`, `CopyWorkspace`, `MergeConfluence`, `MergeGate` | diff against a hashed baseline, merge path by path, the laws of merging many workspaces, and how far the file-conflict gate provides for them |
| `Glob`, `AgentIgnore`, `MirrorWalk` | the backtracking matcher, last-match-wins patterns, and the pruned walk against the flat filter |
| `ThresholdCompaction`, `OrchestratorCompaction`, `Store` | the two compaction strategies and the recall index |
| `ProviderEvents`, `OpenAi`, `OpenAiStreams`, `Anthropic` | the two streaming tool-call machines and the collector behind them |
| `Continuation`, `Coordinator` | continuation chains as a state machine, and as the objects that keep them |
| `LineNumbers`, `EvidenceGate`, `EvidenceLines`, `StrikeCounters`, `RunState` | message normalization, the gate, what its lines read as, and the three-strike rule |
| `TaskRun`, `TaskWaits`, `TaskBeats`, `TaskLoop` | the run loop against an arbitrary environment, when it waits, what heartbeats it sends, and the Task object that performs it |
| `DispatchBatch`, `BatchOrder` | one batch of tool calls, and when the order of its parallel group makes no difference |
| `Wrappers`, `Text`, `Bytes`, `Encoding` | options, numbers, text operations, bytes and UTF-8, shared by the rest |

Objects the source updates in place are classes (`Orchestrator`, `LifecycleTracker`, `CopyWorkspace`,
`Mirror`, `Memory`, `EventMemory`, `Store`, `EvidenceGate`, `RunState`, `Task`, and the four of
`Coordinator`). Each of their methods is proved equal to a step of the corresponding specification,
and the laws are lemmas about that specification. Iteration over a hash map picks an arbitrary
element each time, so nothing proved depends on its order.

Some fields exist in the model only: `failed`, `dropped` and `overcounted` in `SubtaskProtocol` and
`path`, `retries` and `calls` in `TaskRun` record what happened and never influence a step.

## Where the code differs from its documentation

* Idempotence of the Orchestrator's compaction (memory/compact.rs:239-241) holds only without
  completed highlights: `IdempotentIff`, `SummaryIsWrapped`, `CompletedTasksNeverSettle`. The rolling
  summary for older highlights in progress (memory/compact.rs:236-237) does not exist.
* Threshold compaction archives the items it keeps as well (`KeptItemsAreArchivedToo`), panics on an
  empty region with a threshold of nothing (`PanicsIff`), and never brings a region below the threshold
  whose last item reaches it alone or with the summaries in front of it (`NeverSettlesIff`,
  `HeavyLastItemNeverSettles`, `LightLastItemNeverSettles`).
* A merge looks for conflicts at modified paths only, although the module comment
  (workspace/copy.rs:5-8) promises it for any divergent file: `SilentLossIff`. So two merges may
  both be clean and yet depend on their order: `TwoOrdersAgreeIff`, `CleanInBothOrdersIff`.
* Ignore patterns are not quite gitignore's: `ReopenedDirectoryStaysFiltered`,
  `FileTakenAsDirectoryIff`, `FileNamedLikeDirectoryIsIgnored`, `DirectoryLine`; the `is_dir` flag of `is_path_ignored` has no effect.
* The no-progress limit of a continuation chain is documented as consecutive but counts all repeating
  rounds (`NoProgressIsConsecutiveIff`, `ProgressDoesNotReset`); cost is always booked as zero (`CostTripsOnlyAtZero`); the
  diff-based detector is never fed (`OnlyBudgetOrPolicyEnds`).
* A failed gate reports errors of the baseline among the new ones, and each is a strike
  (`BaselineErrorStrikesOut`); exit codes are not looked at (`UnrecognizedFailurePasses`).
* A failed child dispatch, or an eleventh unread notification, blocks its parent until the wait times
  out (`LossBlocksCompletion`, `FailedDispatchStrandsParent`).
* A parent counts the successful results that carry the id of a dispatch call (task/run.rs:433-439), so
  a batch in which another successful call has that id, as two calls without an id do
  (provider/anthropic.rs:220-224), counts more than it requested: `CountIsExactIff`,
  `SharedIdCountsTwice`. What is counted too much is never taken back, and blocks the parent in the same
  way (`OvercountStrandsParent`).
* A sub-task that runs out of turns, or completes while waiting itself, never reports a settled status:
  its parent is not told and is blocked until the wait times out (`SilentEndIff`,
  `SilentChildBlocksParent`).
* The gate frees a Task's files at delivery, before they are merged, so a later Task can take them and
  the order of the two merges decides what is left (`DeliveredFileIsTaken`).
* The sub-task tool counts as a reader but changes the shared queue (sub_agent/dispatch.rs:178-207):
  `TicketsDependOnOrder`, `OrderFreeIff`.
* The assessment a tool batch may bring (task/run.rs:405-417) makes no difference: the same turn goes on to
  phase two anyway (`AssessmentMakesNoDifference`).
* Transitions whose error is ignored leave a Task with another status than it reports:
  `RunsEndWell`, `WaitingNeverDelivers`. The branches for a stuck Task that is resumed and for
  follow-ups during a run are never taken.

## Model

| member | source | states |
|---|---|---|
| Lifecycle.ArchivedIsTheOnlyDeadEnd | crates/opca-core/src/lifecycle/status.rs:66-83 | archived is the one status without a way out |
| Lifecycle.SuccessorsAre | crates/opca-core/src/lifecycle/status.rs:66-83 | for each of the ten statuses, exactly the statuses it may move to |
| Lifecycle.AxedIsFinal | crates/opca-core/src/lifecycle/status.rs:66-83 | along every valid history, a cancelled Task only ever gets archived |
| Lifecycle.LifecycleTracker.Transition | crates/opca-core/src/lifecycle/heartbeat.rs:85-107 | a valid move changes the status and sends one heartbeat; an invalid one changes and sends nothing |
| TaskRegistry.DispatchKeepsExclusive | crates/opca-core/src/orchestrator/orchestrator.rs:157-177 | dispatching behind the conflict gate never gives a file to two active Tasks |
| TaskRegistry.HeartbeatKeepsExclusiveIff | crates/opca-core/src/orchestrator/registry.rs:140-145 | a heartbeat breaks that exclusivity exactly when it revives a settled entry whose files were taken meanwhile |
| TaskRegistry.ActiveTasksNeverShareFiles | crates/opca-core/src/orchestrator/registry.rs:49-145 | over every run of dispatches and heartbeats, active Tasks hold disjoint files throughout if and only if no such revival occurs |
| TaskRegistry.RevivalSharesAFile | crates/opca-core/src/orchestrator/registry.rs:140-145 | a run of four operations in which a revival makes two active Tasks share a file |
| TaskRegistry.EmptyEstimateIsAlwaysDispatched | crates/opca-core/src/orchestrator/orchestrator.rs:307-312 | sub-tasks are dispatched without an estimate, so the gate never parks one |
| SubtaskProtocol.StepKeepsInv | crates/opca-core/src/orchestrator/orchestrator.rs:286-470 | every atomic step of any thread keeps the ledger of every parent |
| SubtaskProtocol.LedgerBalances | crates/opca-core/src/task/run.rs:387-440 | for every interleaving, at each loop head of a parent that has not timed out, its counter equals queued requests + running children + unread notifications + failed dispatches + dropped notifications + results counted too much |
| SubtaskProtocol.CompletedMeansSettled | crates/opca-core/src/task/run.rs:387-398 | a parent that completes without a timeout has nothing queued, running, unread or lost, and never counted too much |
| SubtaskProtocol.LossIsPermanent | crates/opca-core/src/orchestrator/orchestrator.rs:342-359 | no later step makes up for a failed dispatch, a dropped notification or a result counted too much |
| SubtaskProtocol.LossBlocksCompletion | crates/opca-core/src/task/run.rs:387-396 | after a loss or a result counted too much, no run without a timeout lets the parent complete |
| SubtaskProtocol.DropNeedsElevenInFlight | crates/opca-core/src/orchestrator/orchestrator.rs:433-441 | a notification is dropped only with ten unread ones and more than ten sub-tasks in flight |
| SubtaskNotes.NotesTellEndings | crates/opca-core/src/orchestrator/orchestrator.rs:395-441 | over every run, each unread notification was put there by a completion check of that parent and says completed exactly when the registry then held the child as delivered or archived, failed exactly when as stuck or axed |
| SubtaskFamily.FamiliesAreDisjoint | crates/opca-core/src/orchestrator/orchestrator.rs:302-340 | over every run, whom a parent waits for is in the registry under that parent, dispatched without files and minted after it, so nobody is waited for by two parents or, through others, by itself |
| StrandedParents.FailedDispatchStrandsParent | crates/opca-core/src/orchestrator/orchestrator.rs:342-359 | a reachable state in which one failed dispatch leaves its parent at count one with nothing in flight |
| StrandedParents.OvercountStrandsParent | crates/opca-core/src/task/run.rs:419-440 | a reachable state in which one result counted too much does the same, after the only sub-task was delivered and read |
| ParentLoop.TraceDecides | crates/opca-core/src/task/run.rs:568-603 | if a Task's own record admits the steps it takes, no interleaving with other threads disables one, and its record afterwards depends on them and on the notifications they found, on nothing else |
| ParentLoop.RoundFollows | crates/opca-core/src/task/run.rs:232-310 | every round of the run loop is a run of the protocol's steps: it reads its notifications, then gives up its wait, waits, or takes a turn that pushes one request per successful dispatch and counts by id; counter and mode afterwards are those of the loop |
| ParentLoop.LoopIsARun | crates/opca-core/src/task/run.rs:226-440 | in every interleaving in which a Task does what its run loop does, none of its steps is blocked, and the protocol ends with the loop's counter and outcome |
| ParentLoop.CompletedLoopIsSettled | crates/opca-core/src/task/run.rs:387-398 | a run loop that completes without giving up a wait leaves nothing queued, running, unread or lost, in every interleaving, and no batch of it counted too much |
| ParentLoop.Extra | crates/opca-core/src/task/run.rs:419-440 | what a batch counts beyond the requests it pushes is nothing exactly when no other successful call shares an id with a dispatch |
| ParentLoop.SharedIdCountsTwice | crates/opca-core/src/task/run.rs:433-439 | a dispatch and another successful call under one id push one request and count two |
| SilentChildren.SilentEndIff | crates/opca-core/src/task/run.rs:232-310 | a finished run has sent no settled status exactly when it ran out of turns, completed or struck out in a turn begun as waiting, or met a provider error in its first turn or while waiting |
| SilentChildren.ToolsRunOutOfTurns | crates/opca-core/src/task/run.rs:232-236 | a run of more than fifty rounds of tool calls, without messages or clarification, ends out of turns |
| SilentChildren.SilentChildBlocksParent | crates/opca-core/src/orchestrator/orchestrator.rs:395-432 | a sub-task whose run ends so is never reportable and never reported, and until its parent gives up waiting the parent's counter stays above zero and it cannot complete |
| Orchestration.Orchestrator.ActiveEstimatedFiles | crates/opca-core/src/orchestrator/registry.rs:126-132 | the list holds exactly the files of active Tasks |
| Orchestration.Orchestrator.HasConflict | crates/opca-core/src/orchestrator/conflict.rs:4-6 | a conflict is found exactly when an active Task holds one of the files |
| Orchestration.Orchestrator.DispatchOne | crates/opca-core/src/orchestrator/orchestrator.rs:146-177 | the id is spent in every case; nothing else changes when no workspace can be made, and otherwise one entry is added under the given parent, parked without a queue on a conflict, running with an empty one if there is none |
| Orchestration.Orchestrator.DrainHeartbeats | crates/opca-core/src/orchestrator/orchestrator.rs:513-523 | draining applies the heartbeats to the registry in order |
| Orchestration.Orchestrator.DrainSubtaskRequests | crates/opca-core/src/orchestrator/orchestrator.rs:286-364 | the whole queue is taken and dispatched in order; the pairs returned are those of the dispatches that worked |
| Orchestration.DrainIsARun | crates/opca-core/src/orchestrator/orchestrator.rs:286-364 | a whole drain is one of the interleavings the ledger is proved for |
| Orchestration.Orchestrator.CheckSubtaskCompletions | crates/opca-core/src/orchestrator/orchestrator.rs:375-470 | every settled pending child is told to its parent's queue (up to the cap) and removed from its pending set, whatever the order of iteration: as completed if it was delivered or archived, as failed if it is stuck or axed, each child once; the count returned is that of the settled children |
| Orchestration.SweepAllIsARun | crates/opca-core/src/orchestrator/orchestrator.rs:375-470 | a whole completion check is one of the interleavings the ledger is proved for |
| Fnv.HashBytes | crates/opca-core/src/workspace/copy.rs:241-248 | the loop computes the 64-bit FNV-1a fold of the bytes, wrapping at each multiplication |
| Fnv.KnownValues | crates/opca-core/src/workspace/copy.rs:241-248 | the hash of nothing and that of the letter a are those published for FNV-1a |
| Fnv.OneByteApart | crates/opca-core/src/workspace/copy.rs:241-248 | contents that differ in exactly one byte have different hashes, whatever stands around it: each step is injective in the hash, with an inverse, and in the byte |
| Order.PathsAreOrdered | crates/opca-core/src/workspace/copy.rs:111-113 | comparing paths by components, and components by characters, is a strict total order |
| Order.PathsSortByName | crates/opca-core/src/workspace/copy.rs:111-113 | paths sort by their first different component and that by its first different character; a name or path that is continued comes behind the one it continues |
| Order.ListingIsUnique | crates/opca-core/src/workspace/copy.rs:111-113 | a set of paths has exactly one sorted list |
| CopyWorkspace.Snapshot | crates/opca-core/src/workspace/copy.rs:206-237 | a snapshot holds the hash of every file whose path has no component .git or .agent, and of no other |
| CopyWorkspace.ChangedIsHashChanged | crates/opca-core/src/workspace/copy.rs:99-110 | added, modified and deleted are disjoint and cover exactly the paths whose hash changed |
| CopyWorkspace.CopyWorkspace.Diff | crates/opca-core/src/workspace/copy.rs:93-119 | the three lists are the sorted listings of those three sets |
| CopyWorkspace.CopyWorkspace.CopyModified | crates/opca-core/src/workspace/copy.rs:132-157 | the second pass copies exactly the modified paths that do not conflict and collects the others |
| CopyWorkspace.CopyWorkspace.MergeInto | crates/opca-core/src/workspace/copy.rs:121-169 | the target becomes the path-by-path merge; the result is clean exactly when no modified path diverged, and otherwise lists those paths in order |
| MergeConfluence.MergeOntoBaseline | crates/opca-core/src/workspace/copy.rs:93-169 | merging onto the tree the baseline was taken from is clean and reproduces the workspace if and only if no edit collided with the hash of its original |
| MergeConfluence.OneByteEditLands | crates/opca-core/src/workspace/copy.rs:93-169 | an edit of exactly one byte is always listed as modified and lands in a merge onto the baseline |
| MergeConfluence.RemergeIsIdentity | crates/opca-core/src/workspace/copy.rs:121-169 | merging the same workspace again changes nothing and reports the same conflicts |
| MergeConfluence.SilentLossIff | crates/opca-core/src/workspace/copy.rs:124-167 | content that is neither the baseline's nor the workspace's is lost unreported exactly at added and deleted paths, or anywhere with detection off; reported conflicts keep it |
| MergeConfluence.OwnerDecides | crates/opca-core/src/workspace/copy.rs:121-169 | with disjoint changes, each path ends as the one workspace that changed it would have left it alone |
| MergeConfluence.CleanTogetherIff | crates/opca-core/src/workspace/copy.rs:121-169 | with disjoint changes, all merges are clean in turn exactly when each would be on the first tree |
| MergeConfluence.OrderDoesNotMatter | crates/opca-core/src/workspace/copy.rs:121-169 | workspaces with disjoint changes merge to one tree in every order, all clean in one order exactly when in every |
| MergeConfluence.DisjointWorkLands | crates/opca-core/src/workspace/copy.rs:121-169 | when the target agrees with each baseline on the changed paths, all merge clean and every change lands |
| MergeConfluence.TwoOrdersAgreeIff | crates/opca-core/src/workspace/copy.rs:121-169 | two workspaces leave one tree in both orders if and only if, at each path both changed, they have one content, or both refuse the target's as a conflict, or the one that refuses it refuses the other's content too, or neither does and just one refuses the other's |
| MergeConfluence.CleanInBothOrdersIff | crates/opca-core/src/workspace/copy.rs:121-169 | both orders are clean and leave one tree if and only if each workspace merges clean on its own and every path both changed has one content |
| MergeConfluence.OverlapDependsOnOrder | crates/opca-core/src/workspace/copy.rs:124-131 | two clean merges that add one file with different contents leave whichever came last |
| MergeGate.ExclusiveUntilMergedIff | crates/opca-core/src/orchestrator/registry.rs:126-145 | over every run of dispatches, heartbeats and merges, Tasks at work or delivered and not merged hold disjoint files throughout if and only if no dispatch passes the conflict gate onto a file of a delivered, unmerged Task, and no Task that ended without delivering comes back to a file another still owes |
| MergeGate.UnmergedTasksMergeInAnyOrder | crates/opca-core/src/completion/merge.rs:56-81 | while they do and each keeps to its estimate, their workspaces merge to one tree in every order, all clean in one order exactly when in every |
| MergeGate.DeliveredFileIsTaken | crates/opca-core/src/completion/pipeline.rs:170 | a run in which the gate gives a delivered, unmerged file to a second Task; both merge clean, and the order decides the content |
| Glob.GlobMatchInner | crates/opca-core/src/workspace/agentignore.rs:215-249 | the backtracking loop terminates and decides the recursive match of the two suffixes |
| Glob.MatchesIffSplits | crates/opca-core/src/workspace/agentignore.rs:208-249 | a pattern matches exactly the texts that split into one fitting piece per pattern character |
| Glob.GlobMatch | crates/opca-core/src/workspace/agentignore.rs:209-213 | the matcher decides that splitting |
| AgentIgnore.RenderedPatternParsesBack | crates/opca-core/src/workspace/agentignore.rs:143-173 | writing a parsed pattern back gives a line that parses to it; a pattern that is not anchored has one segment |
| AgentIgnore.IsIgnored | crates/opca-core/src/workspace/agentignore.rs:60-79 | the loop computes the verdict for the non-empty segments of the text, as a directory if it ends in a slash |
| AgentIgnore.SegmentsAround | crates/opca-core/src/workspace/agentignore.rs:61-63 | the segments on both sides of a slash are those of the whole text, however many slashes there are |
| AgentIgnore.LastMatchDecides | crates/opca-core/src/workspace/agentignore.rs:68-78 | a path is ignored exactly when some pattern matches and the last that does is not a negation |
| AgentIgnore.AnchoredMatchesIff | crates/opca-core/src/workspace/agentignore.rs:175-206 | an anchored pattern matches exactly the paths with as many components as it has segments, each splitting into fitting pieces of its segment, that are directories if it asks for one |
| AgentIgnore.LooseMatchesIff | crates/opca-core/src/workspace/agentignore.rs:175-206 | one that is not anchored matches where its one segment fits some component, or its several segments the last components |
| AgentIgnore.RootedLine | crates/opca-core/src/workspace/agentignore.rs:143-206 | for a plain name, the line with a slash in front ignores that name at the root and no other path |
| AgentIgnore.NameLine | crates/opca-core/src/workspace/agentignore.rs:143-206 | the line of the name alone ignores exactly the paths with that component |
| AgentIgnore.DirectoryLine | crates/opca-core/src/workspace/agentignore.rs:143-206 | with a slash behind it ignores the directories with that component, and every file with it but the one at the root |
| AgentIgnore.PairLine | crates/opca-core/src/workspace/agentignore.rs:143-206 | two names with a slash between ignore exactly that path |
| AgentIgnore.NegatedLine | crates/opca-core/src/workspace/agentignore.rs:143-206 | behind other patterns, the line of a name with an exclamation mark in front leaves ignored exactly what they ignored, but for the paths with that component |
| AgentIgnore.TextOfPath | crates/opca-core/src/workspace/agentignore.rs:61-63 | joining the names of a path and splitting the text again gives the path back, as a file or with a slash as a directory |
| AgentIgnore.IsPathIgnored | crates/opca-core/src/workspace/agentignore.rs:84-105 | true exactly when the path is ignored as a file, or it or an ancestor as a directory; the flag makes no difference |
| AgentIgnore.ReopenedIff | crates/opca-core/src/workspace/agentignore.rs:175-179 | what is ignored as a file but not as a directory is exactly what a directory-only negation matched last |
| AgentIgnore.IgnoredIsClosedDownward | crates/opca-core/src/workspace/agentignore.rs:84-105 | without directory-only negations, everything below an ignored path is ignored |
| AgentIgnore.AncestorsMatterIff | crates/opca-core/src/workspace/mirror.rs:439-449 | the loop over ancestors changes the verdict on a path exactly when one of them is reopened by a directory-only negation, so never without such patterns |
| AgentIgnore.ReopenedDirectoryStaysFiltered | crates/opca-core/src/workspace/mirror.rs:439-449 | for any plain name, ignoring it and reopening it as a directory leaves a path below it kept by one test and filtered by the other |
| AgentIgnore.FileTakenAsDirectoryIff | crates/opca-core/src/workspace/agentignore.rs:84-105 | the verdict on a path is that on the file or on a directory above it, except for the paths whose last match as a directory is a directory-only pattern that is no negation: those are ignored as files too |
| AgentIgnore.FileNamedLikeDirectoryIsIgnored | crates/opca-core/src/workspace/agentignore.rs:93-100 | a directory-only pattern ignores a regular file of that name |
| MirrorWalk.FilterPath | crates/opca-core/src/workspace/mirror.rs:439-449 | the loop that pops components decides whether the path or a proper ancestor tests as ignored |
| MirrorWalk.RegularFilesAre | crates/opca-core/src/workspace/mirror.rs:382-411 | the files a walk can meet are those that can be reached through the listings by names none of which is reserved, with their content |
| MirrorWalk.CopyFiltered | crates/opca-core/src/workspace/mirror.rs:382-411 | below an open directory the pruned walk copies exactly the regular files the flat filter keeps |
| MirrorWalk.Import | crates/opca-core/src/workspace/mirror.rs:361-380 | importing into a mirror that is a repository leaves exactly those files; otherwise they come on top of what is there |
| ThresholdCompaction.FindSplit | crates/opca-core/src/memory/compact.rs:64-105 | the two passes find the split of the one-pass specification |
| ThresholdCompaction.FirstFitIsLeast | crates/opca-core/src/memory/compact.rs:80-104 | for two or more items the split is the least that fits the target with its summary, or the last if none does |
| ThresholdCompaction.SplitIsLeast | crates/opca-core/src/memory/compact.rs:64-105 | nothing is split below the threshold percentage; otherwise the fewest items go whose summary fits the target percentage together with what stays, but the last item always stays |
| ThresholdCompaction.Memory.Compact | crates/opca-core/src/memory/compact.rs:108-141 | all active items are archived in order and the active region becomes a summary and the kept suffix; a panic changes nothing |
| ThresholdCompaction.PanicsIff | crates/opca-core/src/memory/compact.rs:75-90 | compaction panics exactly on an empty region with a threshold of zero |
| ThresholdCompaction.GuardedCompaction | crates/opca-core/src/memory/memory.rs:156-158 | behind the 80% guard the default strategy always compacts, and panics only for a budget of zero and no items |
| ThresholdCompaction.CompactionShrinks | crates/opca-core/src/memory/compact.rs:45-49 | afterwards the region fits its target or has at most two items |
| ThresholdCompaction.SecondCompactionIsNoOp | crates/opca-core/src/memory/compact.rs:64-141 | a region that fits a target below the threshold is left alone |
| ThresholdCompaction.KeptItemsAreArchivedToo | crates/opca-core/src/memory/compact.rs:121-138 | every kept item is archived as well, so there is no copy only when one item was compacted |
| ThresholdCompaction.NothingIsLost | crates/opca-core/src/memory/compact.rs:26-30 | over every run of pushes and compactions, each pushed item is still active or archived, as often as it was pushed |
| ThresholdCompaction.LatestStayInOrder | crates/opca-core/src/memory/compact.rs:121-138 | over every run, the active region is all that was held and pushed, in order, or one summary and the latest of it |
| ThresholdCompaction.NeverSettlesDecided | crates/opca-core/src/memory/compact.rs:64-141 | for every strategy, a region settles within as many compactions as it has items, or never |
| ThresholdCompaction.NeverSettlesIff | crates/opca-core/src/memory/compact.rs:45-49 | with a target below the threshold, a region never settles if and only if it reaches the threshold, no split fits the target, and its last item reaches the threshold both with the summary of the rest and with the summary of one item; any other settles within two compactions |
| ThresholdCompaction.StubbornArchivesAgain | crates/opca-core/src/memory/compact.rs:121-138 | as long as it does not settle, each compaction archives the last item once more |
| ThresholdCompaction.HeavyLastItemNeverSettles | crates/opca-core/src/memory/compact.rs:90-104 | a last item that reaches the threshold alone is such a case, whatever summaries weigh: every further compaction archives it once more and none settles |
| ThresholdCompaction.LightLastItemNeverSettles | crates/opca-core/src/memory/compact.rs:64-105 | so is a last item of 60 behind one of 30, with the default strategy and a budget of 100 |
| OrchestratorCompaction.CompactionConserves | crates/opca-core/src/memory/compact.rs:298-357 | every event survives or is archived, exactly once |
| OrchestratorCompaction.LatestOfEachClassSurvive | crates/opca-core/src/memory/compact.rs:276-315 | of each task the last heartbeat and the last three highlights in progress survive, no completed highlight, and all other events, in order |
| OrchestratorCompaction.StaysIff | crates/opca-core/src/memory/compact.rs:276-315 | a heartbeat stays exactly when no later one is of its task, a highlight in progress when fewer than three later ones are, a completed one never, anything else always |
| OrchestratorCompaction.OrderIsKept | crates/opca-core/src/memory/compact.rs:317-352 | survivors and archived events are those that stay and those that go, each in the order they had |
| OrchestratorCompaction.CompletedAfterRun | crates/opca-core/src/memory/compact.rs:329-341 | afterwards the completed highlights of a task are its one summary, or none if it had none |
| OrchestratorCompaction.SecondRun | crates/opca-core/src/memory/compact.rs:274-357 | a second run keeps the survivors and archives exactly the summaries of the first |
| OrchestratorCompaction.IdempotentIff | crates/opca-core/src/memory/compact.rs:239-241 | a second run leaves the whole state as it is if and only if no highlight was completed |
| OrchestratorCompaction.SummaryIsWrapped | crates/opca-core/src/memory/compact.rs:250-257 | each further run wraps the summary of a task once more |
| OrchestratorCompaction.SummaryIsSpelled | crates/opca-core/src/memory/compact.rs:250-257 | a summary of any items gives their number and then, each on a new line, the task and text of every one in order |
| OrchestratorCompaction.SummaryReadsBack | crates/opca-core/src/memory/compact.rs:250-257 | split into lines, a summary of items without line breaks is the header and one line per item |
| OrchestratorCompaction.CompletedIsStillTold | crates/opca-core/src/memory/compact.rs:329-341 | the line of every completed highlight stands in the summary of its task that is active afterwards |
| OrchestratorCompaction.CompletedTasksNeverSettle | crates/opca-core/src/memory/compact.rs:329-341 | once a task has a completed highlight, every further run archives something more |
| OrchestratorCompaction.EventMemory.Compact | crates/opca-core/src/memory/compact.rs:267-357 | the index maps, buckets and sorted index list compute that compaction, with the summaries in some order of the tasks |
| Store.Store.Put | crates/opca-core/src/memory/store.rs:123-155 | storing an item adds its row, keywords and tags so that the tables index exactly what was stored |
| Store.Store.Recall | crates/opca-core/src/memory/store.rs:176-232 | each of the five queries answers with what a linear scan of the stored items finds |
| Store.ScanIsExact | crates/opca-core/src/memory/store.rs:185-232 | that scan finds exactly the items that meet the query, each once and in id order, with their content, milliseconds, task and tags |
| Store.RecallOnlyGrows | crates/opca-core/src/memory/store.rs:174-183 | what is stored later never changes an earlier answer, it only comes behind it |
| Store.KeywordsIgnoreCase | crates/opca-core/src/memory/index.rs:61-66 | keywords do not depend on the case of ASCII letters |
| Store.KeywordIff | crates/opca-core/src/memory/index.rs:61-66 | the keywords of a text are its maximal runs of letters and digits, longer than one byte and in lower case |
| Store.TextQueryFinds | crates/opca-core/src/memory/store.rs:185-205 | a text query finds an item exactly when the item's text or a tag has one of the query's words, in any case of ASCII letters, or the query has no word |
| Store.FoundByItself | crates/opca-core/src/memory/store.rs:123-131 | every item is found by its own text and by each of its tags, in any case of letters, and mentions every word of them |
| Store.TimeRangeMissesNothing | crates/opca-core/src/memory/store.rs:276-280 | a time query misses nothing stamped in its range and adds less than a millisecond on either side |
| Store.MillisAre | crates/opca-core/src/memory/store.rs:276-280 | a stamp is the whole milliseconds since the epoch, nothing before it and the largest 64-bit number beyond that |
| ProviderEvents.CollectStream | crates/opca-core/src/task/run.rs:666-722 | the collector's loop computes text, thinking, calls and error of the event stream up to its end |
| OpenAi.StreamChunks | crates/opca-core/src/provider/openai.rs:194-360 | the stream loop emits the events of the delta machine |
| OpenAi.AtMostOneOpen | crates/opca-core/src/provider/openai.rs:262-309 | whatever deltas arrive, at most one call is open |
| OpenAi.StartsAreEnded | crates/opca-core/src/provider/openai.rs:134-146 | starts equal ends before the stream is done, but for one each time a header reopens its own index |
| OpenAi.StreamOutcome | crates/opca-core/src/provider/openai.rs:199-361 | prose and tool calls of a stream are collected independently of each other and of the chunking |
| OpenAiStreams.ProseIsCollected | crates/opca-core/src/provider/openai.rs:199-361 | for every list of chunks, errors included, the text collected is the content up to the end of the stream, the thinking its reasoning, and the error that which ended it |
| OpenAiStreams.StreamEnds | crates/opca-core/src/provider/openai.rs:124-132 | every stream closes with one event: its error, or the reason it finished with, which is tool use, the token limit, or the end of the turn for any other and for none |
| OpenAiStreams.OrphanFragment | crates/opca-core/src/provider/openai.rs:311-326 | a fragment for an index without a header is lost in the collector, unless a call in flight bears the id made from that index |
| OpenAiStreams.AllAreEnded | crates/opca-core/src/provider/openai.rs:135-146 | at the end of a stream every open call is ended, in the order they were opened |
| OpenAi.ContiguousBlocksRoundTrip | crates/opca-core/src/provider/openai.rs:262-342 | a stream of contiguous blocks is collected as exactly its calls, in order and with whole arguments, if and only if no two neighbouring blocks share an index |
| Anthropic.StreamBlocks | crates/opca-core/src/provider/anthropic.rs:196-346 | the stream loop emits the events of the block machine |
| Anthropic.MirrorsAlways | crates/opca-core/src/provider/anthropic.rs:211-316 | after every event of a bracketed stream, machine and collector hold the same open calls |
| Anthropic.InterleavedBlocksRoundTrip | crates/opca-core/src/provider/anthropic.rs:211-334 | however blocks interleave, each call is returned when its block stops, in that order, with its own fragments only |
| Anthropic.ProseIsCollected | crates/opca-core/src/provider/anthropic.rs:196-346 | for every list of events, the text collected is that of the text deltas up to the end of the stream, the thinking that of the thinking deltas, and the error that of the event that ended it, whatever the tool blocks do |
| Anthropic.StopTellsReason | crates/opca-core/src/provider/anthropic.rs:196-346 | the stop reason handed on is the last one the stream gave before it ended |
| Anthropic.ErrorsAreTold | crates/opca-core/src/provider/anthropic.rs:196-346 | a stream that ends in an error sends that error last, as one of the provider or one of the stream |
| Continuation.ChainsAreBounded | crates/opca-core/src/continuation/coordinator.rs:87-181 | over every run and under every policy: dispatches are numbered 1 to at most the limit; evaluations of the active chain equal its history length, which is the dispatches plus one exactly when an evaluation ended it |
| Continuation.EndedForGood | crates/opca-core/src/continuation/coordinator.rs:94-99 | an ended chain stays ended, keeps its history, and is never dispatched or evaluated again |
| Continuation.NoActiveDoomLoop | crates/opca-core/src/continuation/no_progress.rs:120-142 | no active chain has been through 2 + its limit of consecutive rounds sharing a signature |
| Continuation.NoProgressIsConsecutiveIff | crates/opca-core/src/continuation/coordinator.rs:124-129 | over every run, the no-progress counter of a chain is at least the repeating rounds at its end, and equal to them if and only if no repeating round was ever followed by one that made progress |
| Continuation.RepeatsEndChain | crates/opca-core/src/continuation/coordinator.rs:87-147 | a chain that nothing else ends is ended for no progress by the evaluation at which all its repeating rounds together reach the limit |
| Continuation.ProgressDoesNotReset | crates/opca-core/src/continuation/budget.rs:85-96 | a run of seven evaluations that ends a chain with a limit of two, although progress came in between and its repeating rounds at the end number one |
| Continuation.CostTripsOnlyAtZero | crates/opca-core/src/continuation/coordinator.rs:165 | the cost dimension stops a chain if and only if its limit is not above zero |
| Continuation.OnlyBudgetOrPolicyEnds | crates/opca-core/src/continuation/coordinator.rs:141-147 | the diff-based check never ends a chain |
| Continuation.DefaultPolicyContinuesIff | crates/opca-core/src/continuation/policy.rs:75-120 | an evaluation continues exactly when nothing is exhausted and the audit found a false positive, or a fix it is sure enough of |
| Continuation.DefaultPolicyEndsAs | crates/opca-core/src/continuation/policy.rs:75-120 | and with which reason it ends: the first dimension spent at the first check or else at the second; as complete when the audit confirmed or did not run; for review when it asks for a human or for a fix below the threshold of confidence; with no other |
| Coordinator.ContinuationBudget.ExhaustedDimension | crates/opca-core/src/continuation/budget.rs:103-117 | a dimension is reported only if its limit is reached and that of none declared before it, and nothing only if no limit is reached |
| Continuation.ReportsFirstSpent | crates/opca-core/src/continuation/budget.rs:98-117 | at most one answer meets that, and it is the one the chain logic acts on |
| Continuation.CategorizeIff | crates/opca-core/src/continuation/no_progress.rs:35-53 | the category of a finding is the first of the four one of whose words stands in it, in any case of ASCII letters |
| Coordinator.NoProgressDetector.RecordIteration | crates/opca-core/src/continuation/no_progress.rs:90-113 | the counter is the number of rounds at the end that stalled one after the other |
| Coordinator.TrailingStallsIff | crates/opca-core/src/continuation/no_progress.rs:90-113 | the count is n exactly when the last n rounds had an empty diff, or the files of the round before with fewer than five lines of difference, and the round before those did not |
| Coordinator.NoProgressDetector.RecordAuditFindings | crates/opca-core/src/continuation/no_progress.rs:120-142 | reports a repeat exactly when the last three rounds share a signature |
| Coordinator.ContinuationCoordinator.StartChain | crates/opca-core/src/continuation/coordinator.rs:67-75 | a fresh chain with its own budget and detector is added and no other changes |
| Coordinator.ContinuationCoordinator.Evaluate | crates/opca-core/src/continuation/coordinator.rs:87-181 | performs one evaluation step on some active chain with that current task, or none if there is none, and no other chain changes |
| Coordinator.ContinuationCoordinator.SetCurrentTask | crates/opca-core/src/continuation/coordinator.rs:190-194 | only the current task of that chain changes |
| LineNumbers.ScanMessage | crates/opca-core/src/task/evidence_gate.rs:309-336 | the look-ahead loop computes the scan |
| LineNumbers.ScanIgnoresNumber | crates/opca-core/src/task/evidence_gate.rs:309-336 | replacing any whole number behind a colon by another never changes the scan |
| LineNumbers.ScanIsIdempotent | crates/opca-core/src/task/evidence_gate.rs:309-336 | the scan leaves no colon before a digit and scanning again changes nothing |
| LineNumbers.ScanReplacesNumbers | crates/opca-core/src/task/evidence_gate.rs:309-336 | what stands in front of the first numbered colon is kept, the number and a second one behind it become the placeholder, and the rest is scanned in turn |
| LineNumbers.ReplaceFirst | crates/opca-core/src/task/evidence_gate.rs:337-338 | a replacement replaces the first occurrence, keeps what stands in front of it, and goes on behind it |
| LineNumbers.HomesAreShortened | crates/opca-core/src/task/evidence_gate.rs:337-338 | both directories that hold the homes of users are shortened to one placeholder |
| LineNumbers.StripIgnoresNumber | crates/opca-core/src/task/run.rs:179-206 | the whole normalization ignores line numbers |
| EvidenceGate.EvidenceGate.Verify | crates/opca-core/src/task/evidence_gate.rs:145-175 | fails exactly when some current error matches none of the baseline, and then reports every current error |
| EvidenceGate.MovedLineMatches | crates/opca-core/src/task/evidence_gate.rs:194-273 | a line in which only numbers behind colons moved reads as an error of the same kind and file that matches the old one |
| EvidenceGate.MovedDiagnosticsPass | crates/opca-core/src/task/evidence_gate.rs:145-175 | the gate passes whenever every line is an old one with only its numbers moved |
| EvidenceGate.UnrecognizedFailurePasses | crates/opca-core/src/task/evidence_gate.rs:156-174 | without a recognized line the gate passes, whatever the exit codes |
| EvidenceLines.GateFailsIff | crates/opca-core/src/task/evidence_gate.rs:145-175 | the gate fails exactly when some line of the output is an error and no line of the baseline has its kind, its file and the hash of its normalized text |
| EvidenceLines.FirstFailingIs | crates/opca-core/src/task/evidence_gate.rs:162-170 | a failure is put down to the first command that did not exit with zero |
| EvidenceLines.KindIff | crates/opca-core/src/task/evidence_gate.rs:189-213 | a line is a compile error, a failed test or a warning exactly when the marks of that kind stand in it and no mark of an earlier kind does |
| EvidenceLines.FileInIff | crates/opca-core/src/task/evidence_gate.rs:229-253 | the file of a line is what stands in front of the first colon of the first piece where that has a dot behind the leading current directories |
| Encoding.EncodingDecodes | crates/opca-core/src/task/evidence_gate.rs:341-350 | the bytes hashed for a character are its UTF-8 encoding by section 3 of RFC 3629 |
| Encoding.BytesTellTexts | crates/opca-core/src/task/evidence_gate.rs:341-350 | no two texts have the same bytes |
| EvidenceLines.OneCharacterApart | crates/opca-core/src/task/evidence_gate.rs:265-280 | messages that differ in one ASCII character once normalized never match |
| StrikeCounters.StuckIffThreeStrikes | crates/opca-core/src/task/run.rs:128-154 | below the limit, the verdict is that some issue's true total reaches three, even where a byte would wrap |
| StrikeCounters.HighestIsReached | crates/opca-core/src/task/run.rs:128-154 | the value reported is the highest any of the issues raised its counter to |
| StrikeCounters.AfterCounts | crates/opca-core/src/task/run.rs:135-147 | each counter is the total of its issue modulo 256 |
| StrikeCounters.OverflowIff | crates/opca-core/src/task/run.rs:142 | an increment overflows exactly when some total exceeds 255 |
| StrikeCounters.CountersAreTotals | crates/opca-core/src/task/run.rs:128-154 | over a run that is never stuck every counter is at most two and equals its occurrences |
| StrikeCounters.RetriesAreBounded | crates/opca-core/src/task/run.rs:470-512 | such a run that reports K kinds of issues has at most 2K failed rounds |
| StrikeCounters.PersistentIssueIsStruckOut | crates/opca-core/src/task/run.rs:128-154 | an issue in every failed round strikes out by the third |
| RunState.MatchingErrorsShareCounter | crates/opca-core/src/task/run.rs:136-140 | errors are counted together exactly when the gate matches them |
| RunState.RunState.RecordEvidenceFailure | crates/opca-core/src/task/run.rs:128-154 | counts every error and reports the highest count reached when it is at least three |
| RunState.BaselineErrorStrikesOut | crates/opca-core/src/task/evidence_gate.rs:167-170 | an error of the baseline that stays strikes a Task out at the third failure, however different the new errors |
| RunState.GateFailuresAreBounded | crates/opca-core/src/task/run.rs:470-504 | failing runs of the gate over K issues without a third strike number at most 2K |
| TaskRun.RunsEndWell | crates/opca-core/src/task/run.rs:226-321 | in every environment: at most fifty provider calls; phases move only 0-1-2-3 and 3-2, the latter once per retried gate failure; completion means phase three, count zero, gate absent or passed; the final status is settled by the status the last turn began with |
| TaskRun.RoundEnds | crates/opca-core/src/task/run.rs:239-310 | from the loop head, where a Task is pondering, working or waiting, a round returns there or ends in one of five exact ways |
| TaskBeats.OutOfTurnsIff | crates/opca-core/src/task/run.rs:232-236 | a round is out of turns exactly when fifty rounds not spent waiting came before it, and then changes nothing but the count |
| TaskRun.WaitingNeverDelivers | crates/opca-core/src/task/run.rs:258-286 | a waiting Task that gets no message and does not run over time stays waiting to the end, completed or not, unless cancelled |
| TaskRun.WaitedParentCompletesAsWaiting | crates/opca-core/src/task/run.rs:387-398 | a three-round run in which a parent completes with status waiting |
| TaskWaits.WaitingIffBegunLast | crates/opca-core/src/task/run.rs:258-299 | over every run of live rounds, a Task is waiting at the loop head exactly when, of the waits begun, messages injected and waits given up, the last was a wait begun |
| TaskWaits.DeliveredIffNotWaiting | crates/opca-core/src/task/run.rs:387-398 | a run that completes ends delivered exactly when the Task was not waiting at its last loop head |
| TaskWaits.GivenUpThenDelivers | crates/opca-core/src/task/run.rs:258-286 | a parent that gives up its wait and then answers in text, its gate absent or passed, completes delivered |
| TaskWaits.ClockRunsIff | crates/opca-core/src/task/run.rs:258-396 | over every run of live rounds, the clock of a wait runs exactly when a text answer has begun a wait since the last one was given up; a wait for clarification never starts it |
| TaskRun.RetriesAreGateRounds | crates/opca-core/src/task/run.rs:484-502 | the retries of a run are exactly its gate failures, none of them a third strike |
| TaskRun.RetriesBounded | crates/opca-core/src/task/run.rs:470-512 | a run whose gate reports K kinds of issues is retried at most 2K times |
| TaskRun.HeartbeatsAreOneWay | crates/opca-core/src/task/run.rs:226-321 | no run sends a live status after a settled one |
| TaskBeats.TurnBeats | crates/opca-core/src/task/run.rs:323-540 | a turn sends one heartbeat for each phase it enters, one when work begins, one when a wait begins, and one to close it, two when it waits; a provider error and a third strike close with none |
| TaskBeats.LastBeatTellsStatus | crates/opca-core/src/task/run.rs:226-321 | over every run, the last heartbeat sent told the status the Task has |
| TaskRun.FleetNeverSharesFiles | crates/opca-core/src/orchestrator/registry.rs:49-145 | when the heartbeats of each Task are those of some run of its loop, up to where it has got, active Tasks never share a file |
| TaskRun.CountIsExactIff | crates/opca-core/src/task/run.rs:419-440 | counting dispatches by call id never undercounts, and is exact if and only if no other successful call shares an id with a dispatch |
| TaskLoop.Task.ProcessSteering | crates/opca-core/src/task/run.rs:637-664 | messages are taken up to the first cancellation, and each injection resumes a waiting Task |
| TaskBeats.InjectionResumes | crates/opca-core/src/task/run.rs:637-664 | an injected message takes a waiting Task back to work, and a stuck one with its strikes forgotten; it changes no other |
| TaskLoop.Task.HandleToolCallTurn | crates/opca-core/src/task/run.rs:401-454 | phases, counter, status and heartbeats after a tool turn are those of the model |
| TaskLoop.Task.CheckEvidenceGate | crates/opca-core/src/task/run.rs:470-505 | proceeds, retries in phase two, or is stuck, as the counters decide |
| TaskLoop.Task.RunTurn | crates/opca-core/src/task/run.rs:323-399 | one turn is the turn of the model |
| TaskLoop.Task.Run | crates/opca-core/src/task/run.rs:226-321 | a Task that has never run performs the loop of the model; any other is refused and unchanged |
| DispatchBatch.TraceIsExact | crates/opca-core/src/tools/dispatch.rs:16-50 | each known call runs once, readers and appenders before the others, those in call order |
| DispatchBatch.Dispatch | crates/opca-core/src/tools/dispatch.rs:5-56 | every slot is filled: result i carries the id of call i, for an unknown tool the error that names it, and for any other what executing the call answered in the world its turn in the trace found |
| DispatchBatch.OrderDoesNotMatter | crates/opca-core/src/tools/dispatch.rs:31-44 | when readers and appenders leave the world alone, answers and world do not depend on the order of the parallel group |
| DispatchBatch.TicketsDependOnOrder | crates/opca-core/src/sub_agent/dispatch.rs:178-207 | two sub-task calls, readers by declaration, leave another queue and other answers when their order is changed |
| BatchOrder.OrderFreeIff | crates/opca-core/src/tools/dispatch.rs:31-44 | no batch depends, in any world, on the order of its parallel group if and only if any two calls that may run side by side commute, in world and answers |

## Left out

- Transport, JSON, SQLite, git, subprocesses and file I/O: their results are inputs. The file system is a map from path to content, so empty directories, symbolic links, permissions, and a file where a directory is needed are not modelled; a receiver that hangs up on a stream is not either.
- Text encoding: names and messages are sequences of characters; a path that is not valid text is not modelled. Paths compare as component sequences in the workspace and as text in the gate.
- Clocks and randomness: times and fresh ids are inputs, cost and confidence are real numbers.
- Machine integers: only the strike counters and the hash wrap; the other counters are unbounded.
- Message texts: the conversation handed to the provider, prompts, highlights and outputs carry nothing the model reasons about.
- Injected steering messages in `SubtaskProtocol`: they do not touch the counters; `TaskRun` has them as inputs.
- Global delegation depth and the parallel limit of the sub-task tool: the count the limit is checked against is set nowhere, so requests are modelled as always accepted.
- Mirror and git workspaces beyond the import walk and the filter: their merges rest on git.
- Splitting an ignore file into lines and stripping comments; directory creation during the walk.
- Store.Store.Recall: a record's tags are a set, because their order is that of the database.
- Store.KeywordsIgnoreCase: letters beyond ASCII are classified by a parameter and never lowered, as in the source.
- EvidenceGate.EvidenceGate.Verify: an entry's line number is left out, because it is printed and never compared; paths compare as text, without normalizing repeated separators.
- ThresholdCompaction.CompactionShrinks: takes the text of an item made from a summary to be that summary, as both implementations of the item trait have it.
- Continuation.ChainsAreBounded: chains start with a fresh budget; a budget handed over with iterations already spent only lowers the bound.
- DispatchBatch.Dispatch: each tool call executes atomically at its place in the order of the parallel group, and that order is an input, because the runtime chooses it.
- DispatchBatch.OrderDoesNotMatter: asks that calls of the parallel group leave the world alone, and then says what they answer; the exact condition for any order to do is `BatchOrder.OrderFreeIff`.
- Continuation.NoActiveDoomLoop: the category of a finding lowers ASCII letters only, where the source lowers all; beyond ASCII only the Kelvin sign (to k) and the dotted capital I (to i and a combining dot) become ASCII letters, which completes none of the keywords.
- SilentChildren.SilentChildBlocksParent: takes every heartbeat of the sub-task from its own run; a completion pipeline run on it sends a delivered heartbeat of its own (completion/freeze.rs:44-53), which would report it.
- TaskRun.RunsEndWell: it bounds calls and names endings, but does not claim that a waiting Task ever ends; after a clarification no time limit is set.
- Focus contracts, cleanup schedules, dependency graphs, session files, hooks, plugins, presets and user interfaces: simple lookups and plumbing.
