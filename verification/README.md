# Verification of zotigo's durable core

A Dafny model of the parts of zotigo that hold state or run a protocol, with proofs about every run of
them. Each module names the source files and lines it models.

| component | modules |
|---|---|
| Display log, derived index, paging, read state | `JsonLines`, `TailScan`, `DisplayItems`, `DisplayPaging`, `DisplayIndex`, `IndexedPaging`, `FileStores` |
| Agent turn loop, tool runs, approval and denial | `Messages`, `Conversation`, `Actions`, `Submissions`, `Steering`, `ToolRun`, `AgentTurn`, `AgentInvariant`, `AgentGuarantees`, `AgentObject` |
| Durable conversation, write-ahead log, crash recovery | `RuntimeWal`, `DurableConversation`, `RuntimeRecovery` |
| Prompt projection, compaction, context accounting | `Utf8`, `Spaces`, `InlineMedia`, `Projection`, `Compaction`, `ContextUsage`, `Compressors`, `HistoryCompaction` |
| Input queue and completion triggers | `InputQueue`, `QueueOrder`, `QueueBatches`, `CompletionTriggers`, `QueueStores` |
| Runtime profiles, schema lease, navigation | `RuntimeProfile`, `ProfileSafety`, `SchemaLease`, `Navigation` |

`Sorting` and `Wrappers` are shared. `dafny verify dfyconfig.toml` checks everything.

## How the code is modelled

- Objects whose methods update fields are classes (`FileStore`, `Compressor`, `WorkerRuntimeWal`,
  `ConversationState`, `AgentRuntime`, `QueueStore`, `Activities`, `NavigationList`); loops are loops.
  Each method is proved against a function on values, and the theorems are about those functions.
- Protocols whose parts interleave (turn loop, tool runs, profile switching, schema locks) are state
  machines: a label is one critical section or one statement, a run is any sequence of enabled labels.
- A file is a sequence of bytes that a crash or an error may cut; a transaction is one step that commits
  or does not. Encodings are parameters with laws (injective, newline-free, prefix-free), digests and
  checksums injective, the token counter any function and clocks are arguments.
- Models, tools, callers and recorders are arbitrary choices in labels and arguments.

## What the code does not keep

Where a promise holds only under a condition, the condition is proved both ways.

- A fully approved batch that also had deferred calls answers those twice
  (`AgentGuarantees.ApprovedHistory`: each once if and only if nothing was deferred;
  `AgentGuarantees.ApprovedPairAnswersTwice` is such a batch).
- Outputs that a caller submits are recorded in call order only if every deferred call was made before
  every call that waits (`Submissions.SubmittedInOrder`, with the input of
  `Submissions.OvertakenByDeferred`); each call is still answered once (`Submissions.SubmittedOnce`).
- No other path records answers otherwise than once and in call order, in any run
  (`AgentInvariant.MarksAreEarned`). To say so, a tool message of the model carries a mark, `cover`, that
  the code does not have and nothing reads.
- A run that ends with an error between recording calls and recording their results leaves them
  unanswered, and the next message is sent behind them (`AgentGuarantees.ContinuingNeedsClosedTail`,
  `AgentGuarantees.FailedStartLeavesOpenTail`). Recovery from the write-ahead log repairs this
  (`RuntimeRecovery.RecoveredIsClosed`); continuing in the same process does not.
- Compaction without a safe boundary may cut between calls and answers
  (`Compaction.CompactionIsSafe`, `HistoryCompaction.FallbackOrphansAnswer`); the comment above
  `findSafePartitionPoint` promises more.
- With both cursors, `ReadDisplayPage` applies both and `PageDisplayItems` only `after`
  (`IndexedPaging.BothCursorsAgreeWhen`).
- Steering input that is accepted after the loop last looked for it, and before it ends the turn, is
  dropped (`AgentGuarantees.LateInputIsLost` is such a run; `AgentGuarantees.LosesExactly` names the
  steps that drop input).
- A single-record append that fails is not rolled back: the record stays in the log, and is read back,
  if and only if all its bytes had reached the file (`FileStores.FileStore.AppendDisplayItemIf`, with the
  run of `FileStores.FailedAppendIsReadBack`). Of a batch whose rollback failed exactly the records that
  end before the cut stay (`FileStores.FileStore.AppendDisplayItems`).

## Model

| member | source | states |
|---|---|---|
| `AgentInvariant.RequestsAreAnswered` | core/agent/agent.go:761-1237 | In every interleaving of callers, steering, tools and the loop, whenever the loop may ask for a generation, every tool call of the history is answered in the next message: once each and in call order, whatever was approved elsewhere in the same run, unless this answer itself was recorded, in the run or before it, by a resolved batch with deferred calls or by outputs submitted out of call order; with `tidy` compactions no answer stands without its call. `CarefulRun` lists what callers must check. |
| `AgentInvariant.MarksAreEarned` | core/agent/agent.go:630-1534 | In every run, careful or not, an answer that is not marked as exact was there at the start or was recorded by one of those two kinds of step; compaction and recovery bring none. |
| `AgentInvariant.StepInv` | core/agent/agent.go:630-1237 | Every careful step keeps the loop invariant: where the loop stands, what the history waits for, and what is pending and deferred fit together. |
| `AgentGuarantees.ContinuingNeedsClosedTail` | core/agent/agent.go:630-671 | Continuing after an error exit, with or without steering input left over, sends an answered history if and only if the history does not end in calls. |
| `AgentGuarantees.FailedStartLeavesOpenTail` | core/agent/agent.go:1148-1155 | The failing family exists: when a batch cannot be prepared the run ends and its calls stay unanswered. |
| `AgentGuarantees.HistoryIsNearlyAnswered` | core/agent/agent.go:761-1237 | At any moment of a careful run the history waits at most for the answers of its last message. |
| `AgentGuarantees.ApprovedHistory` | core/agent/agent.go:1439-1488 | The results of an approved batch answer every call, and each once in call order if and only if nothing had been deferred. |
| `AgentGuarantees.ApprovedPairAnswersTwice` | core/agent/agent.go:1439-1488 | A concrete approved batch, in a state the invariant admits, whose deferred call is answered twice. |
| `Submissions.SubmittedOnce` | core/agent/agent.go:1439-1462 | Submitted outputs leave every call of the batch answered exactly once if and only if they answer every waiting call exactly once and nothing else. |
| `Submissions.SubmittedInOrder` | core/agent/agent.go:1695-1721 | They leave the answers in call order if and only if they come in the order of the waiting calls and every deferred call was made before every waiting one. |
| `Submissions.OvertakenByDeferred` | core/agent/agent.go:1709-1720 | A concrete batch, deferred calls 0 and 2 around the waiting call 1, that is recorded as 0, 2, 1. |
| `Submissions.SubmitCoverIsExact` | core/agent/agent.go:1439-1462 | What a caller can see before submitting decides whether the answers will be in order, once each, or only complete. |
| `AgentInvariant.RecoverOk` | core/agent/snapshot_recovery.go:8-24 | Abandoning a paused snapshot answers each of its calls once, in call order, and leaves an idle agent with an answered history. |
| `AgentTurn.InterruptPendingSnapshot` | core/agent/snapshot_recovery.go:8-24 | The recovery loop computes exactly the recovery step of the state machine, and leaves other snapshots alone. |
| `AgentGuarantees.LostResultsAreFatal` | core/agent/agent.go:1150-1168 | Losing the record of a finished tool run leads to durability_failed if and only if one of its bodies was entered; the history does not change. |
| `AgentGuarantees.DurabilityFailedStays` | core/agent/agent.go:630-640 | From durability_failed on no run makes a request or starts a tool; only clearing input and manual compaction are still possible. |
| `AgentGuarantees.NothingUnapprovedRuns` | core/agent/agent.go:1085-1175 | In every run an action that requires approval executes only in a batch a caller has resolved. |
| `AgentGuarantees.SteeringAccounted` | core/agent/agent.go:2505-2580 | In every run each accepted steering input is delivered once and in order, or still pending, or given up, and what is given up is exactly what was pending at the steps that clear, finish or abandon. At most one nudge in a row. |
| `AgentGuarantees.LosesExactly` | core/agent/agent.go:1217-1229 | A step loses input if and only if some is pending and the step clears it, finishes the turn or abandons it. |
| `AgentGuarantees.LateInputIsLost` | core/agent/agent.go:1217-1229 | From every idle agent there is a run in which an input is accepted behind the last look at pending input and never delivered. |
| `Steering.NormalizeQueued` | core/agent/agent.go:584-612 | The loop trims texts, drops blank ones and absent images, and refuses other roles and empty input. |
| `Steering.NormalTwice` | core/agent/agent.go:584-612 | What was queued would be queued again unchanged. |
| `Steering.WordsOfNormal` | core/agent/agent.go:584-612 | Trimming at queueing time leaves the same words to join later. |
| `Spaces.TrimTwice` | core/agent/agent.go:592-594 | Trimming a trimmed text changes nothing, for all white space of UTF-8 text. |
| `Steering.JoinPending` | core/agent/agent.go:2539-2575 | The loops over inputs and parts compute the one user message that stands for them. |
| `Steering.OthersSeparate` | core/agent/agent.go:2543-2569 | Parts that are no text stay in place and order, and separate the texts before them from those behind. |
| `Steering.TextsAreJoined` | core/agent/agent.go:2543-2569 | Texts next to each other become one text: trimmed, blank ones left out, joined by blank lines. |
| `AgentObject.AgentRuntime.QueueTurnUserMessage` | core/agent/agent.go:553-612 | The method accepts normal, admitted input exactly while running or paused, and its whole effect is the state machine's Queue step, interrupting a running batch. |
| `AgentObject.AgentRuntime.RunMessage` | core/agent/agent.go:630-671 | Refusals (running, durability failure, paused, unrecorded input) change nothing; otherwise the effect is the RunMessage step. |
| `AgentObject.AgentRuntime.DrainPendingTurnUserInput` | core/agent/agent.go:2539-2580 | The counted inputs leave the queue in order, joined to one message; a stale count drains nothing; the effect is the Drain step. |
| `AgentObject.AgentRuntime.FinishTurn` | core/agent/agent.go:1224-1229 | Ending the turn drops what is pending then: the FinishTurn step. |
| `AgentObject.AgentRuntime.DispatchBatch` | core/agent/agent.go:1085-1155 | A classified batch is paused, interrupted or begun exactly as the Dispatch step says. |
| `AgentObject.AgentRuntime.RecordInterruptedToolCalls` | core/agent/agent.go:746-759 | Calls overtaken by steering are answered as the RecordInterrupted step says. |
| `AgentObject.AgentRuntime.SubmitOutputs` | core/agent/agent.go:1439-1488 | Recorded outputs, merged with answers for deferred calls, end the pause; a lost record after execution is a durability failure, any other failure changes nothing. |
| `AgentObject.AgentRuntime.SubmitToolOutputs` | core/agent/agent.go:1435-1442 | Succeeds exactly for a paused agent whose record was written, and is then the Submit step. |
| `AgentObject.AgentRuntime.ResolvePendingActions` | core/agent/agent.go:1490-1534 | In any state: refused exactly without pending actions; with a denial the whole batch is answered (the Deny step) or nothing changes; without one the batch is handed out in call order for execution. |
| `ToolRun.OutcomeInOrder` | core/agent/agent.go:1536-1613 | A finished batch has one result per action in action order: its own result if kept, otherwise the interruption. |
| `ToolRun.InterruptKeeps` | core/agent/agent.go:1275-1328 | For an interrupt at any point: kept are exactly the results done before it and the successes of the open group; nothing outside that group moves any more. |
| `ToolRun.NoLaterGroup` | core/agent/agent.go:1567-1590 | After an interrupt no later group starts and no slot outside the open group changes. |
| `ToolRun.StepInv` | core/agent/agent.go:1536-1613 | Every step of every interleaving keeps: slots fit the open group, kept results, no body before its durable start record, no event twice. |
| `ToolRun.OnlyConcurrentOverlap` | core/agent/agent.go:1659-1685 | Two bodies run at once only if both actions may run concurrently, after all earlier groups are done. |
| `ToolRun.InterruptedActionResultsPreservingCompleted` | core/agent/agent.go:1275-1288 | The loop keeps completed results in place and interrupts the rest. |
| `Actions.DeniedAnswersInOrder` | core/agent/agent.go:1490-1534 | A batch of which something was denied is answered once per call in call order: denials for denied calls, a skip for the common reason for all others. |
| `Actions.SubmittedCovers` | core/agent/agent.go:1439-1455 | Submitted outputs answer every call of a paused batch if and only if they cover the calls waiting for approval. |
| `Actions.ApprovedAnswers` | core/agent/agent.go:1615-1643 | Results of an approved batch cover all calls; exactly once, in order, if and only if nothing was deferred. |
| `Actions.OrderedRestores` | core/agent/agent.go:1687-1693 | Stable sorting by order restores call order from any arrangement of a batch. |
| `Actions.MergeDeferredSkippedResults` | core/agent/agent.go:1695-1719 | The map-and-sort loop computes the merge that the other lemmas are about. |
| `Actions.SortToolResultsByActionOrder` | core/agent/agent.go:1734-1744 | The map-and-sort loop sorts by the order of the named actions. |
| `Actions.DeniedOutputs` | core/agent/agent.go:1490-1528 | The loop over the pending actions computes the outputs that DeniedAnswersInOrder describes. |
| `Actions.Split` | core/agent/agent.go:1085-1128 | The classification loop splits a batch by decision, in order. |
| `Actions.CommonDenialReason` | core/agent/agent.go:1746-1754 | The first non-blank reason, trimmed, or the default. |
| `FileStores.FileStore.RepairTail` | core/session/file_store.go:949-1035 | Any torn tail is dropped and the last sequence is the number of complete records. |
| `FileStores.FileStore.Write` | core/session/file_store.go:440-470 | A write cut at any byte leaves exactly the records that end before the cut; a rollback leaves none; success leaves all. |
| `FileStores.FileStore.AppendDisplayItems` | core/session/file_store.go:399-470 | Batches are numbered on from the records there are, kept whole on success, never reorder or lose earlier records, and refuse exactly when the expected sequence is stale; a failed batch leaves none of its records after a rollback and otherwise exactly those that end before the cut. |
| `FileStores.FileStore.AppendDisplayItemIf` | core/session/file_store.go:472-573 | The condition sees every record; on success exactly one numbered record follows; the append fails exactly when the condition accepts and the write fails, and the record then stays if and only if all its bytes were written. |
| `FileStores.FailedAppendIsReadBack` | core/session/file_store.go:472-573 | A failed append that a full read returns, and that a retry stores a second time. |
| `FileStores.FileStore.SyncDisplayIndexBatch` | core/session/display_index.go:82-164 | One batch of at most 256 lines: the rows stay those of a log prefix, a lost transaction changes nothing, an incomplete batch strictly reduces the backlog, a complete one is ready. |
| `FileStores.FileStore.RebuildDisplayIndex` | core/session/display_index.go:34-71 | Repeated batches terminate, and success means the rows of the whole log whatever the index held before. |
| `FileStores.FileStore.ReadyMeansComplete` | core/session/display_index.go:170-184 | A ready marker means the rows are those of the whole log, with offsets and lengths. |
| `FileStores.FileStore.ReadDisplayPage` | core/session/display_index.go:201-311 | Limits outside 1 to 1000 and an index that is not ready are refused; otherwise the page is the specified one over the records of the window, and without a window and with at most one cursor it is the page over what a full read of the log returns. |
| `FileStores.FileStore.PagesListBelow` | core/session/display_index.go:201-311 | Following the previous cursors that reading pages returns, from any cursor and in any time window, lists the matching records below it once and in order, and ends. |
| `FileStores.FileStore.PagesListEverything` | core/session/display_index.go:201-311 | From the newest page without a window it lists every matching record of the log. |
| `FileStores.PageFromRows` | core/session/display_index.go:219-311 | Selecting rows, reading their bytes and sorting gives the page over the records. |
| `FileStores.IndexLines` | core/session/display_index.go:96-143 | The batch loop reads the lines of the records from any record boundary and adds exactly their rows. |
| `FileStores.SyncCommit` | core/session/display_index.go:130-163 | The committed marker is right and leaves less to do. |
| `IndexedPaging.OneCursorAgrees` | core/session/display_log.go:261-316 | With at most one cursor the indexed page is the page over the whole decoded log. |
| `IndexedPaging.BothCursorsAgreeWhen` | core/session/display_index.go:219-260 | With both cursors the two forms, records and cursors of the page, agree if and only if the matching records between the cursors fill the page or no matching record after the one is at or past the other. |
| `IndexedPaging.BothCursorsDiffer` | core/session/display_index.go:219-260 | A concrete log on which they differ. |
| `IndexedPaging.MatchingStands` | core/session/display_index.go:186-240 | The selected rows stand, one for one, for the matching records of the time window. |
| `DisplayPaging.NewestPageReachesAll` | core/session/display_log.go:261-316 | Following the previous cursors from the newest page lists every matching record. |
| `DisplayPaging.PagesPartition` | core/session/display_log.go:261-316 | From any cursor, it lists the matching records below the cursor exactly once, in order, and stops. |
| `DisplayPaging.StepBack` | core/session/display_log.go:261-316 | A page is the newest part of what is left and its cursor leaves exactly the rest. |
| `DisplayPaging.PageDisplayItems` | core/session/display_log.go:261-291 | The filter-and-cut loop computes the specified page. |
| `DisplayPaging.DisplayWindow` | core/session/display_log.go:293-316 | On increasing sequences the window is the records next to the cursor. |
| `DisplayPaging.FirstIndexAfter` | core/session/display_log.go:318-325 | Finds the first index past a sequence. |
| `DisplayPaging.FirstIndexAtOrAfter` | core/session/display_log.go:327-334 | Finds the first index at or past a sequence. |
| `DisplayItems.ClassifyContent` | core/session/display_content.go:17-39 | The loop with its flag computes the kind that paging and the index filter by. |
| `TailScan.LastDisplaySequence` | core/session/file_store.go:949-1017 | The backward scan finds the last record and the end of the complete lines that a full read would find. |
| `TailScan.LastLineIsLastRecord` | core/session/file_store.go:949-1017 | The last non-empty line holds the last record of a full read, whatever line ends surround it. |
| `TailScan.PreviousNewline` | core/session/file_store.go:1037-1056 | The 4096-byte block scan finds the last line break before a position. |
| `JsonLines.CutAnywhere` | core/session/file_store.go:862-889 | Cutting a write at any byte leaves exactly the records that end before the cut, and a rest without line break. |
| `JsonLines.DecodeEncoded` | core/session/file_store.go:862-889 | A full read returns exactly the written records and ignores a torn rest. |
| `FileStores.FileStore.SetSessionReadState` | core/session/read_state.go:50-76 | Unread marks advance the version; an acknowledgement clears unread exactly when it covers the version; negative versions are refused. |
| `FileStores.FileStore.SessionReadState` | core/session/read_state.go:19-27 | The version is the number of distinct indexed terminal records plus unread marks, and read_version never exceeds it. |
| `DisplayIndex.RecordOnce` | core/session/display_index.go:144-153 | Indexing a record again, after any rebuild or crash, does not count it again. |
| `DisplayIndex.DelayedAckKeepsUnread` | core/session/read_state.go:48-76 | In any run of completions, marks and acknowledgements a delayed acknowledgement clears nothing that came later. |
| `RuntimeWal.CutLoads` | core/session/runtime_wal.go:150-198 | A log cut at any byte after its header loads exactly the records whose encodings lie before the cut. |
| `RuntimeWal.WrittenLoads` | core/session/runtime_wal.go:150-198 | Written records load if and only if they are a chain from 1 with matching identity and checksums; a gap, swap, foreign or altered record is refused. |
| `RuntimeWal.LoadsExactlyChains` | core/session/runtime_wal.go:169-196 | The same for any starting number, with an unfinished write behind the records. |
| `RuntimeWal.HeaderCutRefused` | core/session/runtime_wal.go:160-168 | A file cut inside its header is refused. |
| `RuntimeWal.LoadRuntimeWAL` | core/session/runtime_wal.go:150-198 | The load loop computes the specified result, error by error. |
| `DurableConversation.CrashKeepsAcknowledged` | core/session/runtime_wal.go:123-198 | After a crash that cuts behind the synced part, what loads is every acknowledged payload in order and at most the one in flight. |
| `DurableConversation.CrashReplays` | core/agent/conversation_state.go:88-103 | For a running conversation the log replays to what memory holds, or to that with the one change in flight. |
| `DurableConversation.WorkerRuntimeWal.Begin` | internal/zotigod/worker_runtime_wal.go:32-53 | A log begins only when none is active, with an empty body. |
| `DurableConversation.WorkerRuntimeWal.Append` | internal/zotigod/worker_runtime_wal.go:76-97 | An append is acknowledged exactly when written; a failed one poisons the log so that nothing is ever written behind a torn record. |
| `DurableConversation.ConversationState.Apply` | core/agent/conversation_state.go:88-103 | Memory changes exactly when the change was recorded, and equals the replay of the acknowledged changes. |
| `DurableConversation.ConversationState.Append` | core/agent/conversation_state.go:64-70 | Messages and cursor advance together or not at all. |
| `DurableConversation.ConversationState.Replace` | core/agent/conversation_state.go:79-86 | The whole conversation is replaced, or nothing changes. |
| `DurableConversation.ConversationState.RecordToolExecutionStarted` | internal/zotigod/worker_runtime_wal.go:66-74 | A recorded start is in the log, and no message changes. |
| `RuntimeRecovery.RecoverRuntimeWAL` | internal/zotigod/worker_runtime_wal.go:125-196 | The replay loop computes the specified recovery, refusals included. |
| `RuntimeRecovery.RecoveredIsClosed` | internal/zotigod/worker_runtime_wal.go:161-184 | A history that waits at most for its last answers is recovered into one with every call answered, those of its last message once and in order. |
| `RuntimeRecovery.NotExecutedNeverEntered` | internal/zotigod/worker_runtime_wal.go:161-180 | A tool reported as not executed never had its body entered. |
| `RuntimeRecovery.RecoveryHappensOnce` | internal/zotigod/worker_runtime_wal.go:138-140 | A crash between storing the recovered session and removing the log does not apply the log twice. |
| `RuntimeRecovery.CommitHappensOnce` | internal/zotigod/worker_runtime_wal.go:99-123 | A commit that crashed before the snapshot was stored is replayed; one that crashed after it is not. |
| `Projection.BoundTextProjects` | core/services/compressor.go:526-557 | For any counter with count("") = 0 and a positive limit, projected text meets the token and the byte budget, is well formed and has no inline payload. |
| `Projection.TruncatedFits` | core/services/compressor.go:526-557 | A truncated text is a prefix at a character boundary plus the marker, and one step more would break a budget or the text ends. |
| `Projection.SearchFinds` | core/services/compressor.go:540-553 | The binary search finds a candidate that fits and whose successor does not, for any counter, monotone or not. |
| `Projection.ProjectMeetsBudgets` | core/services/compressor.go:442-524 | Every text of a projected history meets its budgets. |
| `Projection.ProjectIdempotent` | core/services/compressor.go:442-557 | Projecting a projected history, at the same or a larger limit, changes nothing. |
| `Projection.ProjectConcat` | core/services/compressor.go:442-524 | Prefixes and suffixes of a projection are projections: histories may grow after a measured request. |
| `InlineMedia.OmittedIdempotent` | core/services/compressor.go:559-595 | Omitting payloads twice is omitting them once: no new payload can arise. |
| `InlineMedia.OmittedClean` | core/services/compressor.go:559-595 | No payload is left. |
| `InlineMedia.CleanTruncated` | core/services/compressor.go:540-553 | Truncation and the marker cannot create a payload. |
| `InlineMedia.OmitInlineMediaPayloads` | core/services/compressor.go:559-590 | The rewriting loop computes the specified text. |
| `Compressors.Compressor.BoundToolText` | core/services/compressor.go:526-557 | The method computes the specified projection, binary search included. |
| `Compressors.Compressor.TruncateToolResults` | core/services/compressor.go:442-524 | The nested loops over messages, parts and contents compute the projection of the history. |
| `Compressors.Compressor.CountTokens` | core/services/compressor.go:168-173 | The count of the bounded projection. |
| `Compressors.Compressor.FindSafePartitionPoint` | core/services/compressor.go:374-424 | The cumulative array and the two searches return the specified cut. |
| `Compressors.Compressor.CompressLocked` | core/services/compressor.go:230-339 | Unchanged without a cut, a summary or a saving; otherwise system messages, one summary and the untouched suffix, strictly cheaper. |
| `Compressors.Compressor.ForceCompress` | core/services/compressor.go:211-226 | The same on the projected history. |
| `Compressors.Compressor.ContextTokens` | core/services/context_usage.go:45-68 | The downward loop with early exit computes the specified estimate. |
| `Compressors.CompactedOneWay` | core/services/compressor.go:230-339 | Where a history is cut, and what is left of it, is decided by the history, the share to keep and the summary. |
| `Compaction.PartitionIsBoundary` | core/services/compressor.go:374-424 | The cut is a real user boundary not preceded by a tool message if and only if there is one at index 1 or later. |
| `Compaction.CompactedAnswered` | core/services/compressor.go:230-339 | Compaction keeps every call answered wherever it cuts. |
| `Compaction.CompactedNoOrphans` | core/services/compressor.go:230-339 | It orphans an answer if and only if it cuts in front of a tool message. |
| `Compaction.CompactionIsSafe` | core/services/compressor.go:374-424 | A balanced history stays balanced if and only if there is a boundary or the rough index is not at a tool message. |
| `Compaction.RebasedIs` | core/agent/agent.go:2707-2752 | After rebasing: system messages, summary, current context, preserved suffix without its old context. |
| `Compaction.RebasedBalanced` | core/agent/agent.go:2707-2752 | Rebasing separates no call from its answer. |
| `HistoryCompaction.FallbackOrphansAnswer` | core/services/compressor.go:422-423 | For every counter and every exchange of one question, call and answer in which the answer costs what is to be preserved and the summary less than the rest, the fallback cut orphans the answer and the result is used. |
| `HistoryCompaction.LargeAnswerIsOrphaned` | core/services/compressor.go:422-423 | One such exchange, with a counter of characters and the default share. |
| `HistoryCompaction.CompressHistory` | core/agent/agent.go:2642-2705 | Committed only if the local count of the rebased projection strictly drops; otherwise the history is unchanged. |
| `HistoryCompaction.CommitKeepsAnswers` | core/agent/agent.go:2642-2705 | A committed compaction keeps every call answered, and orphans nothing when there is a boundary. |
| `HistoryCompaction.RebaseUserContext` | core/agent/agent.go:2707-2752 | The loop with its insertion index computes the rebased history. |
| `ContextUsage.GrowthUsesMeasurement` | core/services/context_usage.go:45-68 | While history only grows after a measured request under the same profile, the estimate is the measured input, plus non-negative prefix growth, plus the local count of all that came after, which is counted as it is sent if the threshold is at least the prompt limit. |
| `ContextUsage.StaleMeasurementIgnored` | core/services/context_usage.go:51-63 | A changed measured prefix or profile gives the pure local estimate. |
| `ContextUsage.OlderMeasurementsIgnored` | core/services/context_usage.go:57-62 | Measurements before the latest one have no influence whatever they say. |
| `ContextUsage.EstimateOfProjected` | core/services/context_usage.go:45-46 | The estimate of a history is that of its projection. |
| `QueueOrder.OneBatchInOrder` | core/workspace/input_queue.go:35-194 | In every run without single claims at most one batch of a session is outstanding, and an item is sent only when every earlier one is sent or cancelled. |
| `QueueOrder.StepInv` | core/workspace/input_queue.go:35-194 | Every operation keeps the order and identity invariants. |
| `QueueBatches.BatchIsFrozen` | core/workspace/input_queue.go:78-184 | A claimed batch keeps its rows, ids and payloads, and no other row joins it, through failed finishes, recovery, resumes, pauses, edits and single claims until it is sent or released. |
| `QueueBatches.ClaimIsFront` | core/workspace/input_queue.go:80-156 | A claim hands out only unsettled rows, with nothing unsettled before them; a notification comes alone under its own id. |
| `QueueBatches.ClaimFrozen` | core/workspace/input_queue.go:96-108 | While a batch is outstanding a claim adds nothing to it and takes nothing from it; only a resume claims in its session, and it claims an outstanding batch: that one, where nothing was claimed out of turn. |
| `QueueBatches.OpsExtend` | core/workspace/input_queue.go:159-194 | Whatever is claimed, singly or not, rows keep their place and identity, and a sent or cancelled row never changes: nothing is delivered twice. |
| `CompletionTriggers.FiredExactlyOnce` | core/workspace/completion_triggers.go:135-171 | A fired trigger has exactly one row in every later state of every run, single claims included; a retry adds none, a different text is refused. |
| `CompletionTriggers.FiredStays` | core/workspace/completion_triggers.go:76-183 | A fired trigger keeps its state and text for ever. |
| `CompletionTriggers.HistoryInv` | core/workspace/completion_triggers.go:76-183 | Every run of queue and trigger operations, single claims included, keeps ids unique and a row for every fired trigger. |
| `QueueStores.QueueStore.QueueInput` | core/workspace/input_queue.go:35-38 | Inserts unless the id is there. |
| `QueueStores.QueueStore.UpdateQueuedInput` | core/workspace/input_queue.go:60-76 | Edits or cancels exactly the row whose revision is current and that no batch holds; otherwise a conflict changes nothing. |
| `QueueStores.QueueStore.ClaimQueuedInputs` | core/workspace/input_queue.go:80-156 | The statements of the transaction compute the specified claim and return its rows in order. |
| `QueueStores.QueueStore.ClaimQueuedInput` | core/workspace/input_queue.go:159-169 | Takes exactly the row whose revision is current and that no batch holds, out of turn; otherwise a conflict changes nothing. |
| `QueueStores.QueueStore.FinishQueuedBatch` | core/workspace/input_queue.go:171-178 | The finish step of the run model. |
| `QueueStores.QueueStore.ReleaseQueuedBatch` | core/workspace/input_queue.go:181-184 | The release step of the run model. |
| `QueueStores.QueueStore.PauseQueuedInputs` | core/workspace/input_queue.go:186-189 | The pause step of the run model. |
| `QueueStores.QueueStore.RecoverQueuedInputs` | core/workspace/input_queue.go:191-194 | The recovery step of the run model. |
| `QueueStores.QueueStore.FireCompletionTrigger` | core/workspace/completion_triggers.go:135-171 | Insertion and consumption in one step, with every refusal. |
| `QueueStores.QueueStore.CreateCompletionTrigger` | core/workspace/completion_triggers.go:76-116 | Existing ids are compared, old ones removed, and at most 16 stay pending. |
| `QueueStores.QueueStore.CancelCompletionTrigger` | core/workspace/completion_triggers.go:173-183 | Cancels exactly a pending trigger of that session. |
| `ProfileSafety.IdleMeansIdle` | core/agent/runtime_profile.go:80-148 | In every run from a new agent (or any state in order) the current idle channel is closed exactly while both counters are zero, that is while nothing runs, executes or switches. |
| `ProfileSafety.WaitingNeverBlocksOnIdle` | core/agent/runtime_profile.go:130-148 | A waiter that finds its channel current and closed has a quiet agent, and a quiet agent's channel is closed. |
| `ProfileSafety.RequestsAnsweredOnce` | core/agent/runtime_profile.go:38-71 | Each request gets at most one answer, and has it unless pending or in hand; profiles take effect in queue order and a superseded one never does. |
| `ProfileSafety.SwitchesOnlyAtBoundaries` | core/agent/runtime_profile.go:165-197 | No switch takes effect between one generation boundary of a run and its next, nor while approved tools execute. |
| `ProfileSafety.StepInv` | core/agent/runtime_profile.go:38-197 | Every critical section keeps the counters, channel, answers, order and phases in step. |
| `RuntimeProfile.Activities.QueueRuntimeProfile` | core/agent/runtime_profile.go:38-58 | Supersedes, enqueues, and starts an applier exactly when nothing runs and nothing is pending approval. |
| `RuntimeProfile.Activities.SupersedePendingRuntimeProfile` | core/agent/runtime_profile.go:62-71 | The pending request, if any, is answered and dropped. |
| `RuntimeProfile.Activities.EndRuntimeActivity` | core/agent/runtime_profile.go:80-96 | The end of a run hands over to an applier or closes the idle channel. |
| `RuntimeProfile.Activities.EndProfileActivity` | core/agent/runtime_profile.go:114-121 | The end of an applier. |
| `RuntimeProfile.Activities.TakeRequest` | core/agent/runtime_profile.go:165-181 | One look of the apply loop. |
| `SchemaLease.LeaseMeansCurrent` | core/catalogschema/database.go:45-105 | With any number of processes, crashes and failures: while a lease is held the schema is current, nobody upgrades or migrates it, and no step changes it. |
| `SchemaLease.HandoffIsSafe` | core/catalogschema/database.go:93-105 | Between the exclusive and the shared lock no other process is, or gets, into a position to change the schema. |
| `SchemaLease.OneChanger` | core/catalogschema/database.go:70-105 | In every run, a step that changes the schema is one of the process with both locks, while no process holds or checks a lease and no other stands anywhere under the catalog lock. |
| `SchemaLease.StepInv` | core/catalogschema/database.go:45-182 | Every lock operation of every process keeps the protocol invariant. |
| `Navigation.ReorderPermutes` | core/workspace/navigation.go:161-190 | A reorder of any subset is a permutation; unselected items keep their slots, selected ones fill the selected slots in the requested order. |
| `Navigation.RereadingGivesTheList` | core/workspace/navigation.go:164-190 | The written positions are strictly increasing, so rereading gives that order. |
| `Navigation.NavigationList.Reorder` | core/workspace/navigation.go:109-192 | Succeeds exactly on distinct items of the list; an import always succeeds; errors change nothing; other lists keep their positions. |
| `Navigation.Validate` | core/workspace/navigation.go:152-160 | Refuses exactly stale and repeated items. |
| `Navigation.Filter` | core/workspace/navigation.go:140-151 | Import filtering keeps what is still there, once, in order. |

## Left out

- `AgentInvariant.RequestsAreAnswered`: assumes distinct call ids within one assistant message, one caller
  resolving a paused batch at a time, and that callers resolve after the paused run has closed its
  channel; `RunMessage` is modelled for user messages and continuation, not for other roles.
- `HistoryCompaction.CommitKeepsAnswers`: a compaction in a run counts as `tidy` only if the
  conversation it compacts has a boundary.
- `ToolRun.StepInv`: loop warnings, middleware, events and panics inside a tool are not modelled; a run
  without a durability recorder skips the start record.
- `DurableConversation.ConversationState.Apply`: a conversation without a recorder (every change is made
  at once) and the deep copies of messages are not modelled; values cannot be aliased here.
- `RuntimeWal.WrittenLoads`: about the current format; for the legacy format only the load loop is
  modelled, with its checksum as a parameter.
- `RuntimeRecovery.RecoverRuntimeWAL`: usage totals and the recovery from display records when no log
  exists are not modelled.
- `FileStores.FileStore.ReadDisplayPage`: the check that the session exists and the dialogue and search
  columns are not modelled.
- `FileStores.FileStore.AppendDisplayItems`: cursors and sequence numbers are unbounded, not 64-bit; the
  lock file protocol around appends is not modelled.
- `Compressors.Compressor.CompressLocked`: the built-in fallback summary and the transcript file are
  arguments; ratios are real numbers, not floating point.
- `QueueOrder.OneBatchInOrder`: single-item claims (`ClaimQueuedInput`) take an item out of order on
  purpose and are not among the operations of this theorem; callers name batches with non-empty ids.
- `QueueBatches.BatchIsFrozen`: assumes that callers name batches as the daemon does: a notification's
  under its own id, every other under a name of its own.
- `CompletionTriggers.FiredExactlyOnce`: trigger tokens and deleting a session are not modelled.
- `ProfileSafety.SwitchesOnlyAtBoundaries`: the contents of a profile and `Restore` during an activity
  are not modelled.
- `SchemaLease.LeaseMeansCurrent`: that a completed migration has recorded its version, and cleanly, is
  the migration library's part; refusing destructive downgrades and timeouts are arbitrary choices to give up.
- Provider streaming, retries, observers, HTTP, SQL and file-system internals.
- Classification of tool calls, snapshots for approved actions, audit records.
- Session metadata and registry ordering, image blobs, session deletion, `ClearHistory`.
- Git worktree provisioning, terminal UI, LSP, skills and transport channels.
