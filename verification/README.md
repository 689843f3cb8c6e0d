# Agent runtime: a verified model

Dafny models of the stateful parts of the go-reagent agent runtime, with proofs of what they keep over
every run and every interleaving. `dafny verify dfyconfig.toml` checks the whole project.

| part | files |
|---|---|
| runtime pool | `Pool`, `PoolProofs`, `PoolLaws`, `PoolManager` |
| context compaction and pruning | `Messages`, `RangeSelection`, `Compaction`, `CompactionProofs`, `SummaryText`, `CompactionLaws`, `Prune`, `ToolGroups`, `ConversationRuns`, `HarnessScan`, `HarnessPlan`, `HarnessPrune`, `CompactionRuntime` |
| loop detector | `LoopDetect`, `LoopDetectProofs`, `LoopDetectLaws`, `Detector` |
| budgets, ledger, subagents | `Governor`, `Ledger`, `LedgerProofs`, `RunAccounting`, `BatchProofs` |
| tool batches, handler chain, turn loop | `ToolBatch`, `Middleware`, `MiddlewareProofs`, `Turns`, `TurnProofs`, `TurnLaws`, `TurnLoop` |
| training sessions | `Training`, `TrainingProofs`, `TrainingLaws`, `TrainingStore` |

Every part has the same shape. What an operation makes of the state is a function. The code's own form,
a class whose methods update its fields or a loop that builds its result, is proved to compute that
function. What the code promises is proved about the function: as an invariant of every event, then of
every run. The files named `Laws` say what is decided when, in terms of the inputs alone. Concurrency is a state machine with one event for each section the code runs atomically, so
a statement about all runs is a statement about all interleavings.

## What the proofs found

Six statements one might expect are not true of the code as it stands. Each has a lemma with the exact
condition under which it is, and a lemma with an input for which it is not.

- Evicting the entry the pool picks need not make room for the request that asked for it: an ordinary
  request can pick an idle validation entry. `EvictionMakesRoomIff` gives the condition,
  `EvictionMayNotMakeRoom` an example, reachable by `CrowdedIsReachable`. The request then evicts again.
- The range planner can overlook a feasible range. With messages of at least some number of bytes it never does
  exactly when the maximum is at most the estimate, or at least twice the estimate, or the estimate is less than
  two such messages (`CompleteIff` for lists of units, `PlannerCompleteIff` for conversations; `PlanOverlooks` is
  a conversation that is overlooked). The defaults satisfy this (`DefaultsMissNothing`).
- The mark that stops a loop reminder from being sent twice is set before the batch is inserted and can be
  cleaned away by that insertion. `ReminderSurvivesIff` says when it survives; `FreshTripleIsWarnedTwice`
  is the smallest failure.
- The sum of input and output tokens is not range-checked. Beyond the 64-bit range it wraps, and a token
  limit can go unnoticed (`LimitUnnoticed`). A budget is exhausted exactly if some prefix of its calls reached
  the cost limit, or the token limit while the sum was in range (`ExhaustedIffSeen`).
- Totals and ledger need not agree at a batch boundary: a child's calls are debited at once, but enter the
  ledger only through its report. They agree exactly if no child that ended without its report had debited a
  call (`TotalsAgreeIff`; `LosingRunDisagrees` is a run in which one had).
- The guard at the end of a training transaction does not by itself keep sessions and pointer in
  agreement. It does exactly if the transaction also saves the session it moves the pointer away from
  (`GuardSufficesIff`, `GuardMisses`); every transaction of the service does.

Two branches cannot be taken: the loop's repair of misaligned tool results (`ExecuteToolBatch` proves the check
succeeds), and the recovery that publishes a session after the fact (`RecoveryIsNeverNeeded`).

## Model

| member | source | states |
|---|---|---|
| `PoolProofs.ReachableIsSafe` | application/service/agentruntime/manager.go:114-188 | From the empty pool, under every interleaving, all four quotas hold globally and for every tenant, and no two leased entries share tenant, conversation and kind. |
| `PoolProofs.EveryRunKeepsInv` | application/service/agentruntime/manager.go:114-350 | Every event of every run keeps the quotas, the agreement of entry flags with what goroutines still owe, and exclusive conversations. |
| `PoolProofs.ReservedCapacityIsReal` | application/service/agentruntime/manager.go:214-232 | While fewer validation entries live than are reserved, globally and for the tenant, a validation request fits whatever the ordinary load. |
| `PoolProofs.EvictionMakesRoomIff` | application/service/agentruntime/manager.go:233-255 | Removing the picked entry makes the refused key fit if and only if the key is a validation key, the picked entry is an ordinary one, or ordinary room was not what was missing. |
| `PoolProofs.EvictionMayNotMakeRoom` | application/service/agentruntime/manager.go:233-255 | A pool in which the entry picked does not make room, for any keys of these kinds. |
| `PoolProofs.CrowdedIsReachable` | application/service/agentruntime/manager.go:140-188 | That pool comes about from the empty one. |
| `PoolProofs.TurnIsEarliestAdmissible` | application/service/agentruntime/manager.go:200-213 | The waiter whose turn it is is admissible, and nobody queued before it is. |
| `PoolProofs.TurnIsNeverBlocked` | application/service/agentruntime/manager.go:140-188 | Whoever has the turn can reuse, retire, create or evict at once; it never has to wait. |
| `PoolProofs.GrantOverwritesNothing` | application/service/agentruntime/manager.go:162-173 | Nothing lives under the key a new entry is stored at. |
| `PoolProofs.EachRuntimeIsStoppedAtMostOnce` | application/service/agentruntime/manager.go:256-350 | Over every run a runtime is stopped at most once, and exactly once when its entry is gone or quarantined. |
| `PoolProofs.LeavesOnlyAfterStop` | application/service/agentruntime/manager.go:332-350 | An entry leaves the map in one way only: its Stop succeeded, or it had no runtime. |
| `PoolProofs.QuarantineIsForever` | application/service/agentruntime/manager.go:341-347 | After a failed Stop the entry stays in the map, counted, and is never leased again in any continuation. |
| `PoolProofs.NothingAfterShutdown` | application/service/agentruntime/manager.go:354-400 | After shutdown, in any continuation, nothing is issued, nothing is leased again and no key enters the map. |
| `PoolProofs.CloseReturnsNilIffEmpty` | application/service/agentruntime/manager.go:381-393 | When Close stops waiting, its joined error is nil if and only if the map is empty. |
| `PoolLaws.FitsIff` | application/service/agentruntime/manager.go:214-232 | A new key fits if and only if adding it keeps all four quotas. |
| `PoolLaws.OwnOnlyIff` | application/service/agentruntime/manager.go:235-245 | A tenant may displace only its own entries if and only if its own quota is what the new key would exceed. |
| `PoolLaws.PassedOverIff` | application/service/agentruntime/manager.go:200-213 | A waiter is passed over if and only if somebody is at work in its conversation, or it would exceed a quota and no idle entry may be displaced for it. |
| `PoolLaws.StampIsLastRelease` | application/service/agentruntime/manager.go:268-280 | Over every run the idle stamp of an entry is the time of its last release, and only a release makes it idle. |
| `PoolLaws.PassDecides` | application/service/agentruntime/manager.go:145-161 | Over every run from the empty pool: when the entry under a waiter's key is idle, a pass of the waiter whose turn it is leases it if and only if less than the idle time has gone by since its last release; otherwise its Stop is owed. No other entry changes. |
| `PoolLaws.TimerDecides` | application/service/agentruntime/manager.go:283-298 | Over every run from the empty pool: the timer armed at a release stops its entry if and only if that was its last release, nobody uses it, and the pool is open. |
| `PoolLaws.TimersOverRuns` | application/service/agentruntime/manager.go:268-298 | Over every run: the pool is closed if and only if it was shut down; until then every idle entry has its timer and no leased one has, and afterwards there is none. |
| `PoolLaws.ServedOnce` | application/service/agentruntime/manager.go:122-132 | A waiter that was given an entry, or that left, does nothing more until it joins again, in any continuation. |
| `PoolLaws.StaysAhead` | application/service/agentruntime/manager.go:119-132 | First come, first in line: over every run one waiter stays ahead of another as long as neither leaves. |
| `PoolManager.Manager.OccupiedConversation` | application/service/agentruntime/manager.go:192-199 | The scan answers whether the conversation has a busy entry. |
| `PoolManager.Manager.Room` | application/service/agentruntime/manager.go:214-232 | The four counters of the scan decide fit as the quota definition does. |
| `PoolManager.Manager.Evictable` | application/service/agentruntime/manager.go:233-255 | The scan returns a candidate that has been idle for longest, or proves there is none. |
| `PoolManager.Manager.Next` | application/service/agentruntime/manager.go:200-213 | The queue scan returns the earliest admissible waiter. |
| `PoolManager.Manager.Leave` | application/service/agentruntime/manager.go:122-132 | The waiter and only the waiter leaves the queue. |
| `PoolManager.Manager.TryAcquire` | application/service/agentruntime/manager.go:140-180 | Refused if and only if closed, and made to wait if and only if it is not this waiter's turn. An idle entry under the waiter's key is leased if and only if it has been idle for less than the idle time, and is to be stopped otherwise; without one, a key that fits gets a new entry, and any other has an entry stopped that has been idle for longest. Nothing else changes. |
| `PoolManager.Manager.ReleaseLease` | application/service/agentruntime/manager.go:268-280 | Release is the release event: idle from now, timer armed unless closed. |
| `PoolManager.Manager.TimerFired` | application/service/agentruntime/manager.go:283-298 | The timer acts if and only if its entry is still the idle one it was armed for. |
| `PoolManager.Manager.Created` | application/service/agentruntime/manager.go:299-331 | Creation ends in a lease if and only if it succeeded and the manager is still open; otherwise the entry is to be stopped. |
| `PoolManager.Manager.Stopped` | application/service/agentruntime/manager.go:332-350 | A stopped entry is removed, or quarantined with its error. |
| `PoolManager.Manager.BeginShutdown` | application/service/agentruntime/manager.go:355-365 | Shutdown closes the manager and disarms every timer, and nothing else. |
| `PoolManager.Manager.ClosePass` | application/service/agentruntime/manager.go:366-393 | One pass stops an idle entry, waits for an active one, or returns; it returns without error only with an empty map. |
| `Messages.TilingIsUnique` | pi/harness/compaction.go:136-165 | A list has one division into tool-call units. |
| `Messages.ChunksSplice` | pi/harness/compaction.go:235-240 | Replacing units by one plain message replaces exactly these units and leaves every other unit whole. |
| `Messages.ChunksAppend` | pi/harness/compaction.go:136-165 | Appending messages that do not begin with a tool result leaves every unit as it was. |
| `CompactionLaws.CompleteIff` | pi/harness/prune.go:101-128 | A group is complete if and only if every call has an answer, every result answers a call, and no two answer the same one. |
| `CompactionLaws.UnitIsGroup` | pi/harness/compaction.go:136-165 | A unit is one message, or a message of the assistant that makes calls with all the tool results right behind it. |
| `CompactionLaws.SizeIs` | pi/harness/meter.go:86-116 | A list weighs the bytes of its messages and 4096 for every image in them, up to the largest int. |
| `RangeSelection.FoundIsFeasible` | pi/harness/compaction.go:72-134 | The range taken is unguarded, above the estimate, at most the maximum, and cannot be extended. |
| `RangeSelection.CompleteIff` | pi/harness/compaction.go:81-133 | The scan fails only when no feasible range exists, for all lists of units of at least some size, if and only if the maximum is at most the estimate, at least twice it, or two such units exceed the estimate; for all lists whatsoever, the last case falls away. |
| `RangeSelection.OverlookedIsMissed` | pi/harness/compaction.go:112-120 | For every estimate and maximum in between and every smallest size that fits twice into the estimate, lists in which a feasible range is overlooked. |
| `CompactionProofs.PlansMissNothing` | pi/harness/compaction.go:72-134 | For every encoder, every conversation and all such options a failed plan means there was no range to find. |
| `CompactionProofs.PlannerCompleteIff` | pi/harness/compaction.go:72-134 | The planner never overlooks a range, for every encoder and every conversation whose messages have at least some number of bytes, if and only if the options are such. |
| `CompactionProofs.PlanOverlooks` | pi/harness/compaction.go:72-134 | Under all other options, a conversation of three plain messages and the input for which no plan is made although a range was feasible. |
| `CompactionProofs.CutIffInsideUnit` | pi/harness/compaction.go:272-286 | The boundary check refuses a position if and only if it lies inside a unit. |
| `CompactionProofs.PlanIsSound` | pi/harness/compaction.go:72-134 | Every plan covers whole closed units, excludes the leading system block, the current input and the retained tail, and its visible bytes lie above the estimate and within the maximum. |
| `CompactionProofs.PlanIsAcceptedIff` | pi/harness/compaction.go:211-261 | A planned range is accepted for every summary that is not blank, and for no other. |
| `CompactionProofs.DefaultsMissNothing` | pi/harness/compaction.go:47-58 | Under the default sizes a failed plan means there was no range to find. |
| `SummaryText.ClosedOnce` | pi/harness/compaction.go:265-268 | Whatever a summary says, the closing tag of its wrapper occurs exactly once, at the very end. |
| `SummaryText.NoTagRemains` | pi/harness/compaction.go:266-266 | Replacing the closing tag leaves none behind, not even one put together by the replacement. |
| `CompactionLaws.PlanDecides` | pi/harness/compaction.go:72-134 | The units fall into pieces, each as large as can be summarised or one that cannot be; the plan covers the first piece that pays off. There is no plan if and only if none does, and the reason given is an unguarded unit that is too large if and only if there is one. |
| `CompactionLaws.PieceIsUnique` | pi/harness/compaction.go:98-124 | There is only one such division: where a piece begins, it ends. |
| `CompactionLaws.GuardedIff` | pi/harness/compaction.go:169-207 | A unit is guarded if and only if it is an open group, belongs to the leading system block, holds the input, or is among the last ones to be kept behind it. |
| `CompactionLaws.ApplyDecides` | pi/harness/compaction.go:211-261 | A plan is applied if and only if its range lies in the list, still holds what was planned, begins and ends between units, spares the input, and the summary is not blank; otherwise the first that fails is the reason. The range becomes one checkpoint, and the input moves with the list. |
| `CompactionLaws.DefaultsAre` | pi/harness/compaction.go:47-58 | Sizes that are not positive stand for 32 KiB, five units and 2 KiB; positive ones are meant as they are. |
| `CompactionLaws.TrimIs` | pi/harness/compaction.go:229-232 | Trimming takes away the white space around a summary, all of it and nothing else. |
| `CompactionLaws.CheckpointIs` | pi/harness/compaction.go:229-268 | A checkpoint is one text of the user: the trimmed summary, its closing tags escaped, between the tags and the note. |
| `CompactionLaws.ReplacedPieces` | pi/harness/compaction.go:266-266 | Replacing a tag cuts the text at its occurrences, from the left, and joins the same pieces with what stands for it. |
| `ConversationRuns.EveryRunIsSafe` | pi/compaction.go:70-200 | Over every run of appends, prunings and compactions the input index finds the original input verbatim, the leading system block stands, the checkpoint indexes are exactly the checkpoints in increasing order, and open tool groups come through untouched while no result loses its call. |
| `ConversationRuns.NothingIsLost` | pi/compaction.go:70-200 | Everything ever said is represented exactly once and in order: by itself up to pruned content, or within one checkpoint. |
| `ConversationRuns.StepInv` | pi/harness/compaction.go:242-260 | Each event keeps the correspondence between list, history and marks. |
| `ConversationRuns.MovedNames` | pi/harness/compaction.go:242-260 | After a splice the checkpoint indexes name the new checkpoint and, where they now stand, the old ones outside the range. |
| `ConversationRuns.MovedIncreasing` | pi/harness/compaction.go:247-260 | The moved checkpoint indexes are strictly increasing. |
| `ConversationRuns.CompactionShrinks` | pi/compaction.go:303-309 | Every accepted compaction strictly reduces the visible bytes of the list. |
| `ToolGroups.PruneGroups` | pi/harness/prune.go:39-90 | Pruning leaves open groups verbatim and opens none. |
| `ToolGroups.SpliceGroups` | pi/harness/compaction.go:211-261 | A compaction of closed units leaves open groups verbatim and opens none. |
| `Prune.ExposedIffOld` | pi/harness/prune.go:132-152 | Of the complete groups, in order, exactly the last ones asked for are protected. |
| `Prune.PrunesOnlyOldGroups` | pi/harness/prune.go:39-90 | Whatever pruning changes is a result of a complete group older than the protected ones, and ends up as a marker. |
| `Prune.PrunedIff` | pi/harness/prune.go:39-90 | A message changes if and only if pruning is on and it is a result of an old complete group, of a listed tool, no error to be kept, longer than allowed, no marker yet, and longer than its marker; then only its content changes, to a marker that names the tool and the size. |
| `Prune.PruneIsIdempotent` | pi/harness/prune.go:39-90 | Pruning a pruned list changes nothing. |
| `Prune.PruneShrinksIffChanged` | pi/harness/prune.go:60-89 | Content bytes never grow, and strictly drop if and only if some message was pruned. |
| `Prune.ShapeExposed` | pi/harness/prune.go:101-152 | Which results are exposed depends on the shape of the list only, not on any content. |
| `HarnessScan.VisibleMessagesBytes` | pi/harness/meter.go:86-116 | The saturating accumulation over messages and image blocks yields the exact visible size, capped at the largest int. |
| `HarnessScan.ScanToolGroups` | pi/harness/prune.go:101-128 | The scan lists every group with its results, complete if and only if the result ids are distinct and are the call ids. |
| `HarnessScan.SplitCompactionUnits` | pi/harness/compaction.go:136-165 | The split is the unique division into units, with sizes, open groups protected. |
| `HarnessPlan.MarkProtectedUnits` | pi/harness/compaction.go:169-207 | Marking in place protects the leading system block, the unit of the input and the last retained units behind it, and no other. |
| `HarnessPlan.Scan` | pi/harness/compaction.go:81-133 | The scan with its running segment finds the first range of the greedy division, and knows whether a unit was too large. |
| `HarnessPlan.BuildCompactionPlan` | pi/harness/compaction.go:72-134 | Splitting, marking and scanning compute the plan the soundness proof is about. |
| `HarnessPlan.BalancedToolBoundary` | pi/harness/compaction.go:272-286 | The loop over groups answers whether some group stretches over the boundary. |
| `HarnessPlan.ApplySummary` | pi/harness/compaction.go:211-261 | Checks in order, splice and moved marks compute the application the proofs are about. |
| `HarnessPrune.ProtectedToolResultIndexes` | pi/harness/prune.go:132-152 | The marked positions are the results of the most recent complete groups. |
| `HarnessPrune.MarksMean` | pi/harness/prune.go:52-62 | A result is exposed if and only if it is marked prunable and not marked protected. |
| `HarnessPrune.PruneToolResults` | pi/harness/prune.go:39-90 | Marking and overwriting compute the pruned list; the counter is the number of messages that changed, and the byte counts are those of the lists. |
| `CompactionRuntimes.CompactionRuntime.MaybeCompact` | pi/compaction.go:70-126 | With an unknown window or a fatal attempt nothing changes; with the pressure below its threshold after pruning only the pruned list is returned, whatever the reply; messages and state change only together and to strictly lower pressure. When they do is stated by `ThresholdsDecide` about the same result. |
| `CompactionRuntimes.CompactionRuntime.RecoverOverflow` | pi/compaction.go:135-200 | A retry is made only with less to send, and the state changes only with the messages it belongs to; `OverflowDecides` states which outcome it is. |
| `CompactionRuntimes.CompactionRuntime.RetriesOnlyWithLess` | pi/compaction.go:135-200 | A retry is made only with less to send: a smaller estimate whenever the state changed; without a retry nothing changes. |
| `CompactionRuntimes.ThresholdsDecide` | pi/compaction.go:70-126 | With a known window: old results are pruned if and only if pruning is on and the pressure has reached its threshold; if it is then below the second threshold nothing else happens, whatever the summary would have been; otherwise a usable summary that lowers the pressure replaces its range, and the run stops if and only if the attempt was cancelled or its cost refused. |
| `CompactionRuntimes.OverflowDecides` | pi/compaction.go:135-200 | After an overflow, pruning that changed anything suffices if the window is unknown or the pressure back below its threshold; otherwise a usable summary that makes the request smaller than it was replaces its range, a fatal attempt aborts, and else the pruned list is retried if it changed. |
| `CompactionRuntimes.AttemptDecides` | pi/compaction.go:204-325 | An attempt is fatal if and only if there was a range and the call was cancelled or its cost refused; it yields the list with the range replaced if and only if the summary is not blank and smaller than the range. |
| `CompactionRuntimes.PressureIs` | pi/compaction.go:79-84 | The pressure is the visible bytes and those of the tools, in tokens of four bytes, and 6144 tokens of room. |
| `CompactionRuntimes.DefaultsPrune` | pi/compaction.go:328-336 | Under the loop's own options exactly the results of the read tool are pruned that are no errors, longer than 4096 bytes, no markers yet and older than the last three complete groups. |
| `CompactionRuntimes.NextBelongsTogether` | pi/compaction.go:70-126 | Whatever the pressure check returns, its messages and the state kept belong to one conversation reached by pruning and compacting. |
| `CompactionRuntimes.RecoveryBelongsTogether` | pi/compaction.go:135-200 | Whatever the recovery returns, its messages and the state kept belong to one conversation reached by pruning and compacting. |
| `LoopDetectProofs.RunRefines` | pi/loopdetect/detector.go:73-257 | After every run the history is the last 16 committed signatures, and counts and marks are what the trace of the run says. |
| `LoopDetectProofs.CommitHistory` | pi/loopdetect/detector.go:174-178 | The window projected during admission is the window the batch then commits. |
| `LoopDetectProofs.CommitStateInWindow` | pi/loopdetect/detector.go:73-98 | After a non-empty commit every counted or marked signature is in the window. |
| `LoopDetectProofs.BlockedIffStuck` | pi/loopdetect/detector.go:137-153 | A batch is blocked if and only if it holds a signature whose last five or more outcomes were equal. |
| `LoopDetectProofs.WarnedIffRepeated` | pi/loopdetect/detector.go:155-192 | A reminder is sent if and only if nothing is blocked and a signature not yet reminded of repeats for the third time or more. |
| `LoopDetectProofs.StreaksAreBounded` | pi/loopdetect/detector.go:121-257 | With at most m copies of a signature in a batch no streak exceeds 4 + m. |
| `LoopDetectProofs.RecoversOnceThenTerminates` | pi/loopdetect/detector.go:195-211 | Over every run at most one batch is answered by recovery, and the next critical one terminates the run. |
| `LoopDetectProofs.ReminderSurvivesIff` | pi/loopdetect/detector.go:73-98 | The mark of a reminder survives its own batch if and only if the signature stays in the window at every insertion. |
| `LoopDetectProofs.ReminderSurvivesDistinctBatch` | pi/loopdetect/detector.go:187-188 | In a batch of pairwise distinct signatures it survives if and only if at most fifteen calls follow the one it is about, so always in a batch of at most sixteen. |
| `LoopDetectProofs.FreshTripleIsWarnedTwice` | pi/loopdetect/detector.go:187-188 | A fresh signature three times in one batch loses its mark, and the same batch, or the same call alone, is warned of again. |
| `LoopDetectProofs.ReminderEndsOnlyFor` | pi/loopdetect/detector.go:73-98 | A mark disappears only because the signature left the window or changed its outcome. |
| `LoopDetectLaws.AdmissionDecides` | pi/loopdetect/detector.go:121-212 | A batch is blocked if and only if one of its calls has had the same outcome five times in a row, first with a chance to recover and then for good; otherwise a reminder is sent if and only if one of them is at least the third of its kind among the sixteen before it and not reminded of. The first such call is the one named; only what is admitted or recovered is committed. |
| `LoopDetectLaws.CommitDecides` | pi/loopdetect/detector.go:73-98 | A committed batch leaves the last sixteen signatures, and of what was known of a signature exactly that which was among the fifteen before each of its calls. |
| `LoopDetectLaws.NoteDecides` | pi/loopdetect/detector.go:236-256 | An outcome is counted on if and only if it equals the one before; another one starts anew and takes back the reminder. Nothing else changes. |
| `LoopDetectLaws.SignaturesAre` | pi/loopdetect/detector.go:124-128 | The detector sees every call whose tool is not excluded, in order, by tool and arguments. |
| `Detector.Detector.CleanUnreferenced` | pi/loopdetect/detector.go:83-98 | Exactly the state of signatures outside the window is dropped. |
| `Detector.Detector.Push` | pi/loopdetect/detector.go:73-79 | Eviction, cleaning and append, in this order. |
| `Detector.Detector.Consider` | pi/loopdetect/detector.go:130-172 | The choice kept while scanning is the best intervention of the calls so far: the first critical one, else the first reminder. |
| `Detector.Detector.AdmitBatch` | pi/loopdetect/detector.go:121-212 | Projection, choice and commit compute the admission the refinement proof is about. |
| `Detector.Detector.RecordBatch` | pi/loopdetect/detector.go:224-257 | Aligned outcomes are counted call by call; misaligned input changes nothing. |
| `Governor.TotalsAreSums` | pi/governor/governor.go:129-166 | While the sums are in range, calls, input, output and cost are the exact sums of all calls accounted for. |
| `Governor.TokensAreExactIff` | pi/governor/governor.go:142-142 | The token total is the sum of both if and only if that sum is in range. |
| `Governor.LimitUnnoticed` | pi/governor/governor.go:142-162 | One call with both counts in range that exceeds the token limit and does not exhaust the budget. |
| `Governor.ExhaustedIffSeen` | pi/governor/governor.go:142-177 | For all metered calls whose counts are in range, however far the token sum is not: a budget is exhausted if and only if some prefix of the calls reached the cost limit, or the token limit with the token sum in range. |
| `Governor.ExhaustedIffReached` | pi/governor/governor.go:157-177 | While the token sum is in range as well: if and only if the exact sums reach the cost limit or the token limit. |
| `Governor.FirstErrorIs` | pi/governor/governor.go:157-177 | The error kept belongs to the first call that reached a limit, and names cost before tokens. |
| `Governor.FirstErrorSticks` | pi/governor/governor.go:170-177 | Once set, the first error never changes, whatever is added and however far the sums overflow. |
| `Governor.OutOfRangeDecides` | pi/governor/governor.go:129-166 | A token count that would leave its range adds nothing, the call after the last one that can be counted adds neither itself nor its cost, and both exhaust the budget; whatever exhausts it is told once. |
| `Governor.DefaultsAre` | pi/governor/types.go:29-47 | A limit of zero stands for twenty turns, one dollar or two million tokens. |
| `LedgerProofs.TotalsAreConserved` | pi/loop.go:295-323 | In every interleaving of a run and its children the totals are the ledger, the filed reports, what running children have debited and what was lost with children that filed nothing. |
| `LedgerProofs.TotalsAgreeIff` | pi/loop.go:316-323 | At a batch boundary, over every interleaving, totals and ledger agree if and only if no child that ended without filing its report had debited a call. |
| `LedgerProofs.LosingRunDisagrees` | pi/loop.go:316-323 | A run in which a child debits a call and ends without its report: the call is in the totals and not in the ledger. |
| `LedgerProofs.LedgerIsNumbered` | pi/run_state.go:27-46 | The ledger is numbered from one without gaps, and all provider request indexes are positive and pairwise different, children included. |
| `LedgerProofs.GoesOnWhileBudgetLasts` | pi/loop.go:326-335 | The cancellation set by a debit and the budget agree: a batch is cancelled, and after it the run ends, if and only if the budget is exhausted. |
| `LedgerProofs.ProperPrefixesAreBelow` | pi/governor/governor.go:129-166 | Without subagents every proper prefix of the ledger lies below both limits: only the last call can reach one. |
| `LedgerProofs.EndIsFinal` | pi/loop.go:326-335 | Once a run has ended nothing happens any more, neither in it nor in any of its children. |
| `LedgerProofs.OwnCall` | pi/loop.go:161-209 | A call of the run is entered under the next number and the next index and debited once; it ends the run if and only if it uses up the budget. |
| `LedgerProofs.StepKeeps` | pi/subagent.go:146-164 | Every event, of the run or of any child, keeps conservation, numbering and the distinctness of request indexes. |
| `RunAccounting.RunGovernor.AccumulateLocked` | pi/governor/governor.go:129-166 | The field updates and early returns compute the accumulation the proofs are about. |
| `RunAccounting.RunGovernor.Observe` | pi/governor/governor.go:218-230 | Both accounts are debited in every case; the child's error comes before the parent's. |
| `RunAccounting.RunGovernor.CheckTurnLimit` | pi/governor/governor.go:182-197 | A turn is refused if and only if the turns are used up or the parent's budget is exhausted, with that reason. |
| `RunAccounting.BatchBudget.Debit` | pi/governor/governor.go:85-102 | The account is debited even after exhaustion; the batch is cancelled by the debit that exhausts it; the first error is returned. |
| `BatchProofs.BatchIsSettled` | pi/loop.go:295-323 | However its children interleave, a batch ends with the budget debited call by call and the ledger with every report posted, which is what the turn loop does in one step. |
| `BatchProofs.BatchIsReported` | pi/subagent.go:146-164 | In every batch in which no child vanishes with debits, what the children debited is what they report. |
| `BatchProofs.BatchDraws` | pi/governor/primitives.go:39-50 | In every batch the reported calls carry request indexes handed out during the batch, no two the same. |
| `RunAccounting.Recorder.Record` | pi/governor/primitives.go:90-97 | A report is kept in order unless it is empty. |
| `RunAccounting.Books.AddInvocation` | pi/run_state.go:27-46 | The entry appended carries the next number. |
| `RunAccounting.Books.SettleReports` | pi/loop.go:316-323 | Draining enters every child call of every report once, in order, renumbered. |
| `RunAccounting.SettlesAsPosted` | pi/loop.go:316-323 | Settling report by report comes to the same ledger as posting them all. |
| `ToolBatch.PlanToolBatch` | pi/loop.go:385-418 | Kept and rejected calls are a partition, kept ones in strictly increasing original order; silent ones are exactly the invisible ones. |
| `ToolBatch.FirstEightAreKept` | pi/loop.go:399-413 | Every visible ordinary call is kept; of the visible subagent calls a kept one is preceded by kept ones only, and a rejected one by eight or more. |
| `ToolBatch.KeptIff` | pi/loop.go:385-418 | A call goes through if and only if its tool is visible and, for a subagent, fewer than eight visible subagent calls stand before it. |
| `ToolBatch.RunnableAt` | pi/loop.go:385-418 | The calls that go through are scheduled in the order in which they were made. |
| `ToolBatch.WaveIs` | pi/toolexec/runtime.go:123-132 | A wave of more than one call holds parallel-safe calls only and is as long as it can be. |
| `ToolBatch.ExecuteWave` | pi/toolexec/runtime.go:177-221 | Whatever the order in which the calls of a wave end, each fills its own slot, and the wave succeeds if and only if all ran and nothing was cancelled. |
| `ToolBatch.Schedule` | pi/toolexec/runtime.go:115-139 | There is a result list if and only if every call ran and the context was not cancelled, and then every call has its own result in place. |
| `ToolBatch.CheckAlignment` | pi/toolexec/event.go:60-71 | The check answers whether every call has an ended event with its id and name. |
| `ToolBatch.Merge` | pi/loop.go:342-348 | Scheduled results stand at their original places, rejections at theirs. |
| `ToolBatch.MergedResultsAre` | pi/loop.go:342-362 | Plan, schedule and merge compose: every call has its own result or refusal, whatever the order in which calls ended, and the alignment check behind the merge cannot fail. |
| `ToolBatch.ResultIs` | pi/loop.go:342-362 | A call that goes through is answered with the content and error flag it returned at its place among those that do; every other call with an error. |
| `ToolBatch.ResultsMatch` | pi/loop.go:342-362 | A batch that completes has a result with the right id and name for every call. |
| `Middleware.Execution.Run` | pi/middleware/middleware.go:48-52 | The index machine computes the nested composition of its handlers, whose ending `ChainEndsAs` connects to how the tool ended. |
| `Middleware.Execution.Next` | pi/middleware/middleware.go:55-61 | From any position the loop runs the handlers behind it, nested, and leaves the index behind the chain. |
| `Middleware.Execution.Handle` | pi/middleware/middleware.go:23-68 | Each handler either runs everything behind it or leaves that to the loop; none runs anything twice. |
| `Middleware.Execution.RetrySuffix` | pi/middleware/retry.go:56-78 | Resetting the index reruns exactly the suffix behind the retry, from a clean state. |
| `MiddlewareProofs.RunsAreBounded` | pi/middleware/retry.go:35-80 | Under nested retries the tool runs at most the product of their attempts. |
| `MiddlewareProofs.ToolRunsAtMost` | pi/middleware/retry.go:19-43 | Behind one retry the tool runs at most its attempts, and at most five times; without one, at most once. |
| `MiddlewareProofs.EveryPassWalks` | pi/middleware/middleware.go:48-68 | Whatever the chain and however its retries are nested, handlers are entered in order, and the order is broken only by a retry that starts over just behind itself. |
| `MiddlewareProofs.EnteredWithRetry` | pi/middleware/retry.go:52-79 | With one retry that retries, the handlers up to it are entered once, and those behind it once for every attempt, at least once and at most as often as attempts are allowed, each time in order up to the end or to the one that stopped the attempt. |
| `MiddlewareProofs.StoppedBeforeRetry` | pi/middleware/middleware.go:62-68 | A pass refused before its retry is one pass in order up to the refusal. |
| `MiddlewareProofs.EnteredInOrder` | pi/middleware/middleware.go:48-68 | In a suffix without a retry that retries the handlers are entered once each, in order, up to the end of the chain or to the one that stopped it. |
| `MiddlewareProofs.NothingBehindRefusal` | pi/middleware/permission.go:23-43 | Behind a refusal, wherever it stands and however many retries before it start over, no handler is entered and the tool does not run. |
| `MiddlewareProofs.RefusalIsFinal` | pi/middleware/permission.go:23-43 | A refusal that is not retryable is the outcome of the whole chain: every handler before it is entered once, in order, and no retry starts over for it. |
| `MiddlewareProofs.GivesUpOnlyWhen` | pi/middleware/retry.go:60-78 | A retryable error is given up on only when the attempts are used up or the wait was cut short. |
| `MiddlewareProofs.ChainEndsAs` | pi/middleware/middleware.go:48-68 | However a chain is built, with any deadlines and nested retries: its error and output are those of the last execution of its tool, unless a deadline fired or a panic was caught behind it. |
| `MiddlewareProofs.ToolDecides` | pi/middleware/terminal.go:5-11 | Without a deadline the error is the fault of the last execution, and there is none if and only if that was done. |
| `MiddlewareProofs.DeadlineDecides` | pi/middleware/timeout.go:18-38 | What a deadline wraps ends in a timeout without output if and only if the deadline has fired by then, and is left alone otherwise. |
| `MiddlewareProofs.RunsEveryAttempt` | pi/middleware/retry.go:60-79 | A tool that keeps failing in a way that may pass is executed exactly as often as its one retry allows, and five times at most. |
| `MiddlewareProofs.EveryRetryWaited` | pi/middleware/retry.go:69-77 | Whatever the chain and however its retries are nested, no attempt follows a wait that was cut short. |
| `MiddlewareProofs.RunsOnce` | pi/middleware/retry.go:69-71 | A tool that is done, panics or fails for good is executed exactly once, whatever retries there are. |
| `MiddlewareProofs.PanicsStayInside` | pi/middleware/panic_recovery.go:14-32 | No panic of a tool leaves a chain that recovers anywhere before its tool, retries included. |
| `MiddlewareProofs.PanicEscapesIff` | pi/middleware/panic_recovery.go:14-32 | The panic of a tool leaves the chain if and only if no handler before the tool recovers. |
| `MiddlewareProofs.DefaultsContain` | pi/middleware/panic_recovery.go:14-32 | The built-in chain contains every panic, however it is extended, and arguments it refuses reach nothing. |
| `TurnProofs.RunKeepsProtocol` | pi/loop.go:77-133 | Every run: its messages are closed groups followed by what its error allows, nothing said before is touched, a run without an error ends with its one answer and budget left, and turns never exceed their maximum. |
| `TurnProofs.TurnKeepsProtocol` | pi/loop.go:138-261 | A turn that goes on appends exactly one closed group and leaves a budget; a turn that ends the run leaves what the protocol allows for that error. |
| `TurnProofs.BatchKeeps` | pi/loop.go:265-371 | A batch closes its group with one result for every call in call order, or leaves it open for cancellation or budget only. |
| `TurnProofs.ClosedGroupIsComplete` | pi/loop.go:364-367 | What a turn appends is one complete unit, as compaction and pruning expect it. |
| `TurnProofs.ProtocolUnits` | pi/loop.go:77-133 | Cut into units, the messages of a run are its groups, every one complete, and what follows them. |
| `TurnProofs.OnlyTheLastIsOpen` | pi/loop.go:77-133 | No group but the last can be open, and none is after a run without an error. |
| `TurnProofs.RunIsAccounted` | pi/loop.go:77-133 | Over every run whose children report what they debited, the totals are the sums over the ledger, the budget is exhausted exactly if these reach a limit, and a run without an error stays below both. |
| `TurnProofs.TurnAccounts` | pi/loop.go:161-209 | However a turn ends, its ledger and its budget tell of the same calls. |
| `TurnProofs.TurnIsEntered` | pi/loop.go:161-207 | The ledger only grows and stays numbered: a reply that may be acted on is in it, and once a batch was started, so is every call its children reported. |
| `TurnProofs.GenerateHolds` | pi/loop.go:161-207 | Behind every reply that may be acted on, both its summaries and the reply itself are in the ledger. |
| `TurnProofs.RunIsSequenced` | pi/governor/primitives.go:39-50 | Over every run the request indexes in its ledger, those of its children included, are pairwise different and were handed out during the run, so none is zero. |
| `TurnProofs.ChildDrawsBehind` | pi/subagent.go:146-164 | The ledger of a child carries indexes handed out while it ran, no two the same: what its parent expects of a report. |
| `TurnProofs.ParentPaysForEveryCall` | pi/governor/governor.go:218-230 | Over every run of a child each of its own calls reaches the parent budget once and in order, however the run ends, with no sibling in between. |
| `TurnProofs.TurnPlays` | pi/loop.go:227-257 | The loop admits and records as the detector's own proofs assume: every closed group is one turn of the detector, every recovered group one recovery. |
| `TurnProofs.StoppedOnlyAfterRecovery` | pi/loop.go:231-246 | A run stopped by the loop guard has been answered by a recovered group before. |
| `TurnProofs.StreaksInARun` | pi/loop.go:227-257 | However a run ends, and from whatever turn on, no streak exceeds four plus the copies of a signature in a group it adds. |
| `TurnLaws.RunDelivers` | pi/loop.go:265-371 | Over every run the k-th group added stands for the k-th turn: it is headed by that turn's reply, and behind every call stands the content and error flag its tool returned, or an error if it did not go through; or the guard blocked the batch, and every answer is an error. |
| `TurnLaws.TurnDelivers` | pi/toolexec/event.go:81-89 | A turn that goes on appends one group; the guard's decision says which of the two it is, and a group with what the tools returned is only appended if nothing was cancelled and the budget lasts. |
| `TurnLaws.TurnDecides` | pi/loop.go:138-261 | A turn answers if and only if an acceptable reply makes no calls and no budget is used up; it is followed by another one if and only if the guard recovers, or lets the calls through, all of them run, nothing is cancelled and the budget lasts; otherwise its error is the one the code asks for first. |
| `TurnLaws.GenerateDecides` | pi/loop.go:161-209 | A reply may be acted on if and only if the turn was not cancelled, no summary ended it or used up a budget, an index was left, and the reply is acceptable; the budget then reported is the run's own before its parent's. |
| `TurnLaws.AcceptableIff` | pi/loop.go:197-209 | A reply is acceptable if and only if it is a well-formed message of the assistant that answers no call and gives each of its calls an id of its own. |
| `TurnLaws.HeadDecides` | pi/loop.go:118-126 | Before a turn cancellation is asked first, then the number of turns, then the parent's budget; a run refused a turn ends as it is. |
| `TurnLaws.TurnTeaches` | pi/loop.go:227-257 | After a turn that goes on the detector has counted the calls of its group and, if the batch ran, the error flag and content behind every one of them. |
| `TurnLoop.Loop.Run` | pi/loop.go:77-133 | The loop over the objects of a run computes the run the proofs are about, whatever the order in which the calls of a wave end. |
| `TurnLoop.Loop.BeginTurn` | pi/loop.go:118-126 | Cancellation comes before the turn limit, that before the parent's budget; only a turn that starts is counted. |
| `TurnLoop.Loop.Execute` | pi/loop.go:138-261 | One turn changes budget, ledger, detector and messages as specified. |
| `TurnLoop.Loop.Generate` | pi/loop.go:161-209 | Summaries and reply are accounted for before they are judged, in ledger and budgets, and only an acceptable reply is acted on. |
| `TurnLoop.Loop.Act` | pi/loop.go:226-257 | A terminated batch leaves no message, a recovered one a group closed without running anything, any other one is executed. |
| `TurnLoop.Loop.ExecuteToolBatch` | pi/loop.go:265-371 | Children's debits and reports are settled on every path; then cancellation, the budget and the schedule decide, in this order, whether the group is closed, and a closed group delivers to every call what its tool returned, or an error. |
| `TurnLoop.Loop.CommitRecovery` | pi/loop_guard.go:20-33 | A recovered batch is closed by one synthetic result for every call. |
| `TurnLoop.Loop.CloseGroup` | pi/toolexec/event.go:81-89 | The group appended is the head and its results in order, and nothing before it changes. |
| `TurnLaws.GroupIs` | pi/toolexec/event.go:81-89 | Behind its head a group has one message for every event, in order, with the content, error flag, id and name of that event. |
| `TrainingProofs.EveryRunAgrees` | infrastructure/persistence/agenttraining/repository.go:131-154 | After every run of transactions a session is live if and only if its agent points to it, a ready session has evidence for its candidate as it is and is not partial, and a session is published if and only if its version exists. |
| `TrainingProofs.AtMostOneLive` | infrastructure/persistence/agenttraining/repository.go:131-154 | At most one session of an agent is live. |
| `TrainingProofs.GuardSufficesIff` | infrastructure/persistence/agenttraining/repository.go:131-154 | For every sequence of primitives: agreement survives the transaction if and only if the guard holds and the session the pointer was moved away from was saved. |
| `TrainingProofs.GuardMisses` | infrastructure/persistence/agenttraining/repository.go:138-152 | Clearing the pointer alone passes the guard and breaks the agreement. |
| `TrainingProofs.NoUpdateIsLost` | infrastructure/persistence/agenttraining/repository.go:217-252 | Whatever commits from a copy, the copy still was the row in every field. |
| `TrainingProofs.StepKeeps` | application/service/agenttraining/service.go:167-210 | Every transaction keeps agreement, evidence, claims and versions, and creates one row, rewrites one live row or changes nothing. |
| `TrainingProofs.CreateKeeps` | application/service/agenttraining/create.go:36-68 | A created session is the one the agent points to, and no other is live. |
| `TrainingProofs.AdmitKeeps` | application/service/agenttraining/admit.go:12-75 | An admission claims a session that is not running, drops its evidence unless it publishes, and a replay changes nothing. |
| `TrainingProofs.FinishKeeps` | application/service/agenttraining/service.go:167-210 | Finishing commits only on the row it was admitted to, and gives up the pointer exactly when the session ends. |
| `TrainingProofs.FinishRunKeeps` | application/service/agenttraining/run.go:94-129 | A run's end moves head and partial flag without leaving evidence behind. |
| `TrainingProofs.ReconcileKeeps` | application/service/agenttraining/cancel.go:90-124 | An expired or stale session is closed and loses the pointer together. |
| `TrainingProofs.PublishKeeps` | application/service/agenttraining/publish.go:153-183 | The version, the pointer and the session's end are committed together, with evidence for the published candidate. |
| `TrainingProofs.InterruptKeeps` | application/service/agenttraining/recover.go:91-110 | After a crash a running operation is interrupted and its evidence dropped; the session stays live. |
| `TrainingProofs.FinishedIsSound` | application/service/agenttraining/validate.go:57-85 | However an operation ends, a session is left ready only with evidence for its head and config, and no status is left that its operation did not claim. |
| `TrainingProofs.RecoveryIsNeverNeeded` | application/service/agenttraining/recover.go:54-84 | In no run is a live session left whose prepared version exists: the branch that publishes it afterwards is never taken. |
| `TrainingProofs.PublishedIsFinal` | domain/entity/agenttraining/session.go:38-50 | A session that has ended is never rewritten. |
| `TrainingLaws.EvidenceWasEarned` | application/service/agenttraining/validate.go:57-85 | Over every run a session that is ready or published has, in its history, a validation of its head and config as they are that passed and was committed in time. |
| `TrainingLaws.TransitionDecides` | domain/entity/agenttraining/session.go:41-80 | Nothing leaves an end; a session becomes ready only from a validation, whole and with evidence, is published only when ready and whole, and is not ended while an operation runs. |
| `TrainingLaws.SaveDecides` | infrastructure/persistence/agenttraining/repository.go:217-252 | A row is rewritten if and only if it is live, at the version expected, under the same terms, and may turn to the status it is saved with. |
| `TrainingLaws.InsertDecides` | infrastructure/persistence/agenttraining/repository.go:186-216 | A session is inserted if and only if it is new and active and its agent is enabled, points to none, is on its base and has no live session. |
| `TrainingLaws.PointDecides` | infrastructure/persistence/agenttraining/repository.go:253-277 | The pointer moves if and only if it is where and the agent at the version expected, and the session it moves to is live. |
| `TrainingLaws.ActivationDecides` | infrastructure/persistence/agenttraining/publication.go:32-55 | A version is activated if and only if it is new, its session is ready and the one pointed to, and the agent is enabled and at the version expected. |
| `TrainingLaws.GuardDecides` | infrastructure/persistence/agenttraining/repository.go:131-154 | A transaction commits if and only if, of the sessions it saved, the one pointed to is live and the others have ended. |
| `TrainingLaws.ValidationDecides` | application/service/agenttraining/validate.go:65-70 | A validation committed in time makes the session ready if and only if it passed, and leaves evidence for the candidate it looked at if and only if it passed. |
| `TrainingLaws.ChangesDecide` | application/service/agenttraining/mutate.go:36-48 | A failed creation and a withdrawal cancel the session, a restored head and a patched config are taken over, a publication that failed for another reason than a busy agent costs it its evidence; nothing else is touched. |
| `TrainingLaws.FinishDecides` | application/service/agenttraining/service.go:167-210 | Finishing commits if and only if the copy held is the row. The operation ends completed or failed as its caller says, or interrupted with its session expired if it is too late; the pointer is cleared if and only if the session ends. |
| `TrainingLaws.RunDecides` | application/service/agenttraining/run.go:94-129 | A run that ends commits if and only if the copy held is the row, and leaves the snapshot it wrote, or a partial session if it wrote none. |
| `TrainingLaws.CreationDecides` | application/service/agenttraining/create.go:36-68 | A session is created if and only if the agent is enabled, at the expected version, with an active version and no pointer, and the id is new; it is then the one pointed to, active, with its creation running. |
| `TrainingLaws.AdmissionDecides` | application/service/agenttraining/admit.go:12-75 | A repeated request gets its session unchanged; any other claims it if and only if it is live, idle, unexpired, at the version expected and based on the version in use, and ready or whole where its kind asks for that. |
| `TrainingLaws.ReconciliationDecides` | application/service/agenttraining/cancel.go:90-124 | An idle session is closed if and only if it has expired, or its agent is disabled or no longer on its base; a running one is refused. |
| `TrainingLaws.PreparationDecides` | application/service/agenttraining/publish.go:105-125 | Noting the prepared version commits if and only if the copy held is the row, and changes nothing else. |
| `TrainingLaws.PublicationDecides` | application/service/agenttraining/publish.go:153-183 | A publication commits if and only if the copy held is the row, its version is prepared and new, nothing has run out, and the agent is enabled and still on the base; then version, agent and session change together. |
| `TrainingLaws.InterruptionDecides` | application/service/agenttraining/recover.go:91-110 | A running operation is interrupted if and only if the copy held is the row; the session goes on without evidence. |
| `TrainingStore.Transaction.CreateSession` | infrastructure/persistence/agenttraining/repository.go:186-216 | A session is inserted only for an enabled agent without a pointer and without a live session, on its active version. |
| `TrainingStore.Transaction.SaveSession` | infrastructure/persistence/agenttraining/repository.go:217-252 | A row is rewritten only at the expected version, if it has not ended and the status may change so, and its version grows by one. |
| `TrainingStore.Transaction.SetTrainingPointer` | infrastructure/persistence/agenttraining/repository.go:253-277 | The pointer moves only from the expected session at the expected agent version, and only to a live session. |
| `TrainingStore.Transaction.CommitPublication` | infrastructure/persistence/agenttraining/publication.go:32-55 | A new version is inserted and activated, and the pointer cleared, only for the ready session the agent points to. |
| `TrainingStore.Repository.Commit` | infrastructure/persistence/agenttraining/repository.go:131-154 | All rows change or none does, as the guard over the saved sessions decides. |
| `TrainingStore.Service.Create` | application/service/agenttraining/create.go:36-68 | Creation commits as specified or leaves every row as it was. |
| `TrainingStore.Service.Admit` | application/service/agenttraining/admit.go:12-75 | Admission commits as specified or leaves every row as it was. |
| `TrainingStore.Service.Finish` | application/service/agenttraining/service.go:167-210 | Finishing commits as specified or leaves every row as it was. |
| `TrainingStore.Service.FinishRun` | application/service/agenttraining/run.go:94-129 | The end of a run commits as specified or leaves every row as it was. |
| `TrainingStore.Service.Reconcile` | application/service/agenttraining/cancel.go:90-124 | Reconciliation commits as specified or leaves every row as it was. |
| `TrainingStore.Service.CommitPublish` | application/service/agenttraining/publish.go:153-183 | Publication commits as specified or leaves every row as it was. |
| `TrainingStore.Service.Interrupt` | application/service/agenttraining/recover.go:91-110 | Interruption commits as specified or leaves every row as it was. |

## Left out

- Floating-point rounding of costs. Costs are exact multiples of a billionth of a dollar, so the
  compensation term of the running sum (`pi/governor/governor.go` 149-152) is always zero, and the check
  for infinite or undefined costs never applies.
- Usage with negative counts. An action's usage is accounted for before it is validated (`pi/loop.go`
  193-206), and an invalid one ends the run; the exactness of budgets and ledger is stated for metered usage.
- A panic of a handler itself: only tools panic, and only what recovers a tool's panic is modelled.
- What a tool returns (`Output`) is a number to the handler chain; its content matters to the turn loop only.
- Wrap-around of the 32-bit ledger number (`pi/run_state.go` 36) and of the turn counter.
- The compare-and-swap retry of the request sequencer: `Next` is one atomic step.
- JSON encoding, hashing and schema validation. Message sizes come from a `Meter`, fingerprints are taken
  as injective, and the checks of content and arguments are one flag of a reply or a handler.
- The size of tool definitions, pressure thresholds and outcomes of the summary model are parameters. The
  thresholds are numbers; how they follow from the window by a ratio is not modelled.
- Time. Idle times are numbers, timers and deadlines fire at any moment, acquire timeouts are a waiter
  leaving. Nothing is said about fairness or about how long anything takes.
- Text streaming, provider retries and their delays: a generation is one reply, or none.
- The limit on how many calls of a wave run at once (`pi/toolexec/runtime.go` 185-196); the results do not
  depend on it. Likewise `Mode`, which only labels a batch.
- The branch for an infrastructure error of `Schedule` (`pi/loop.go` 336-341): a single execution fails with
  cancellation only, so the model has no other failure.
- Event delivery, tracing, logging and the text of reminders and rejections.
- The error code of a tool result; the turn loop hands the detector the flag and the content of an outcome.
- The turn loop keeps the messages a run adds. The working history, which also holds what was said before, is
  compacted and pruned in `ConversationRuns`; a pending reminder is sent with one request and kept nowhere.
- What the children of a batch debit, report and draw from the sequencer are inputs of a turn. How these come
  about, interleaved, is in `Ledger`; `BatchIsSettled`, `BatchIsReported` and `BatchDraws` connect the two.
- ParentPaysForEveryCall: leaves out debits of siblings in between, because a run is followed alone there; every
  interleaving of debits on the parent's account is in `Ledger`.
- The outcome flag of a ledger entry, which is copied and never read back by the modelled code.
- Of the training service: identity checks, leases of the runtime pool, bundle storage, request digests
  beyond their equality, conversation rows and turns, previews, and the evidence checks of a publication
  before its last transaction. The initial head and config of a session are parameters of its creation.
- Other services that change the agent row or add versions appear as one event each; they never touch the
  pointer.
- Several agents and tenants of training sessions: every transaction locks one agent row, so the model is
  of one agent.
