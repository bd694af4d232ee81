# Verified model of the sub-agent queue, the message transformers and the caches around them

The project models, in Dafny, the parts of the agent backend whose correctness rests on state kept over many calls, and
proves what they promise for all inputs, all runs and (for the queue) all interleavings.

**Task queue.** Sub-agent tasks live in a row store (`TaskStore.dfy`) and their ids travel through a Redis list
(`TaskQueue.dfy`). Every public method of the queue is a class method proved equal to a step of the state machine in
`QueueSpec.dfy`, for both backends: with the row store and on Redis alone. Two step models are used.

* *Method steps* (`QueueSpec.Run`): every queue method is one atomic step, operations come in any order, the clock values
  are arbitrary, workers may stop at any point between steps. `TaskLife.dfy` reduces a step to its effect on one task;
  `QueueInvariant`, `QueueHistory`, `QueueTransitions`, `QueueOrder`, `QueueLeases`, `QueueCapacity` and `Backends` prove
  the run theorems; `QueueTransitions` states the whole life of a task field by field, without the step functions. What is final
  without conditions is final here, because recovery and cancellation read a row and write the whole row back.
* *Store and Redis calls as steps*: every call is a step, every actor has a program counter, and any interleaving is
  allowed. With the row store (`Handoff.dfy`, `HandoffFinality.dfy`) the cancellation result holds for every interleaving,
  and the others hold under conditions that are proved exact: no task is lost if and only if no store claim passes over
  the row of the last trace of a pending id because another actor has it locked (`NothingLostIff`), a success stays if and
  only if no actor writes the whole row from memory after it (`SuccessStaysIff`), and the capacity bound holds if and only
  if no recovery revives a finished child while the bound is used up (`CapacityHoldsIff`). Interleavings that break each
  of them are exhibited. On Redis alone (`RedisClaims.dfy`) methods read a key and write it back in two calls; what they
  hold between the two stays current, and then each acts as one step, if and only if no call writes the key meanwhile.

Task ids submitted are new, worker ids are any strings (fencing speaks of non-empty ones), times are reals.

**Transformers.** History repair, the incremental assemblers of OpenAI-style and Anthropic-style streams, and the
encoder/decoder pair of the OpenAI-style wire format are loops proved against functions, and these against declarative
statements that mention no buffer.

**Caches and controllers.** The LRU of runtime registries and the circuit breaker are compared with the trace of requests
and calls, the scaler with the series of polls, the provider manager with its store and with what rebuilding its adapters
would give, the range compactor with the set it was given.

Functions and lemmas state the properties; classes and loops mirror the source where it updates state, and each is proved
equal to a function of its inputs or old state. Clocks, the order in which a database returns rows, generated ids, the
outcome of a provider call and the coroutines that run during an await are parameters.

## Findings

Points where the code does not meet the property one would expect; each is stated exactly by a lemma.

* The two backends differ on exactly these calls: completing or failing an unknown task (False against an error),
  renewing a lease that this moves (ignored by Redis alone), a batch without a parent that only the parentless rows push
  over the bound, and a batch within the bound that repeats an id, names a known task, or during which Redis raises.
  `Backends.BackendsAgreeIff` proves that these are all.
* When Redis raises at the list push of an admitted batch on Redis alone, that payload stays PENDING where no claim finds
  it (`QueueInvariant.RaisingPushHidesTask`), and it is exactly these batches that hide a task (`StepKeepsPendingListed`,
  `NothingHiddenIff`). Such a batch, and one stopped at a time-to-live before its last payload, enters in part
  (`QueueCapacity.RedisBatchWholeIff`); only the row store has a compensation.
* A store claim that passes over a locked row drops the id it popped, and the task is lost exactly if no other trace of
  the id is left (`Handoff.StepLosesIff`). Another batch of the same parent, itself turned away, suffices to lock the row
  (`HandoffFinality.SkippedClaimLosesTheTask`).
* Working from an outdated snapshot, recovery can put a SUCCEEDED row back to PENDING, and with it exceed the bound on a
  parent's children, and cancellation can put one to FAILED (`HandoffFinality.RecoveryCanUndoASuccess`,
  `HandoffFinality.RecoveryCanExceedTheBound`, `HandoffFinality.CancellationCanUndoASuccess`). `SuccessUndoneIff` and
  `StepExceedsIff` say exactly which calls do.
* On Redis alone two overlapping recoveries list a task twice, and two workers can then both be told that they have
  claimed it (`RedisClaims.TwoWorkersClaimOneTask`); `RedisClaims.ClaimedTwiceIff` gives the exact condition.
* A worker id names a process, not a run: the fence lets the stale run of an earlier claim complete a task exactly when
  the same process has claimed it again (`QueueHistory.StaleRunPassesIffReclaimed`); `QueueHistory.StaleRunCanPass` is
  such a run.
* An explicit null name in a later fragment of a streamed tool call replaces the name already received, and the call is
  then dropped (`OpenAiStream.LaterNullNameDropsTheCall`).
* Routed adapters are memoised under the text `primary:id,id,…`. With colons in provider ids two providers can share a
  key, and the second is answered with the first one's adapter (`ProviderRouting.ProvidersCanShareAKey`);
  `ProviderRouting.KeysEqualIff` and `ProviderManager.HitIsExpectedIffOwn` give the exact condition.

## Model

| member | source | states |
|---|---|---|
| TaskRows.GuardsAgree | backend/core/task_queue_support.py:84-95 | the Redis-only completion and failure guards accept exactly what the row store's guards accept on well-formed rows |
| TaskStore.SubAgentTaskStore.SaveManyWithCapacity | backend/storage/sub_agent_capacity_store.py:13-61 | counts the parent's active rows, rejects above the bound, mismatched parents or duplicate ids without any change, otherwise adds every row |
| TaskStore.SubAgentTaskStore.Claim | backend/storage/sub_agent_task_store.py:44-67 | only a PENDING row becomes RUNNING, with worker, start and lease |
| TaskStore.SubAgentTaskStore.Complete | backend/storage/sub_agent_task_store.py:69-86 | accepts a result only under the completion guard and changes nothing otherwise |
| TaskStore.SubAgentTaskStore.Fail | backend/storage/sub_agent_task_store.py:88-104 | fails only an unfinished row, and under a worker id only that worker's |
| TaskStore.SubAgentTaskStore.ListStaleRunning | backend/storage/sub_agent_task_store.py:122-133 | lists exactly the RUNNING rows whose positive lease has passed, in database order |
| TaskStore.SubAgentTaskStore.RenewLease | backend/storage/sub_agent_task_store.py:135-144 | moves the lease of a RUNNING row and of no other |
| TaskQueue.TaskQueue.Submit | backend/core/task_queue.py:28-42 | saves, caches, indexes and pushes the new PENDING task, which carries the spec's fields and is what is answered and stored |
| TaskQueue.TaskQueue.SubmitManyWithCapacity | backend/core/task_queue.py:44-69 | the whole new state of a bounded batch on either backend, also when Redis raises at a list push or at setting a time-to-live, with the row store's compensation; an accepted batch is answered with one untouched task per spec, carrying its fields |
| TaskQueue.TaskQueue.CountActiveChildren | backend/core/task_queue_children.py:9-20 | the Redis-only walk over the index counts exactly the active children of a parent, none for the empty parent |
| TaskQueue.TaskQueue.FailSavedPayloads | backend/core/task_queue_submit.py:69-76 | the compensation fails the saved rows one by one |
| TaskQueue.TaskQueue.Claim | backend/core/task_queue_claim.py:12-39 | the pop loop: ids that are not pending are dropped until one is claimed or the list is empty |
| TaskQueue.TaskQueue.UpdateTerminal | backend/core/task_queue_support.py:51-81 | the Redis-only completion or failure with its guard and its unknown-task error |
| TaskQueue.TaskQueue.Complete | backend/core/task_queue.py:77-88 | the completion step of either backend with the cache refreshed |
| TaskQueue.TaskQueue.Fail | backend/core/task_queue.py:90-101 | the failure step of either backend with the cache refreshed |
| TaskQueue.TaskQueue.RenewLease | backend/core/task_queue.py:127-133 | the renewal step: row and cache, or nothing on Redis alone |
| TaskQueue.TaskQueue.ScanRedisStale | backend/core/task_queue_recover_support.py:35-46 | the Redis-only scan finds exactly the stale snapshot and drops index entries without a payload |
| TaskQueue.TaskQueue.RecoverOne | backend/core/task_queue_recover_support.py:49-89 | requeues below the retry bound and expires otherwise, with the outcome reported |
| TaskQueue.TaskQueue.RecoverStaleTasks | backend/core/task_queue_recover_support.py:16-32 | the recovery loop over the snapshot and the number of tasks it requeued |
| TaskQueue.TaskQueue.Cancel | backend/core/task_queue_cancel.py:20-40 | sets the flag on any unfinished task, and takes a pending one off the list and fails it |
| TaskQueue.TaskQueue.FailStuckTasks | backend/core/task_queue_support.py:103-128 | what a timed-out wait writes and returns for each task |
| TaskQueue.TaskQueue.WaitPoll | backend/core/task_queue_support.py:33-48 | one poll of a waiting parent |
| TaskLife.StepActsPerTask | backend/core/task_queue.py:28-178 | every queue method, loops included, acts on each task as a function of that task's row and the answer alone |
| TaskLife.WaitPollAnswer | backend/core/task_queue_support.py:33-48 | a poll answers exactly when everything is terminal or the deadline has passed, with one entry per known task |
| QueueTransitions.RowMoves | backend/core/task_queue.py:71-178 | in every run each operation moves an existing task exactly under its guard, to a state given field by field (claimed, completed, failed, requeued, expired, renewed, cancelled or waited out), and otherwise leaves every field as it was |
| QueueTransitions.AnswersTellMoves | backend/core/task_queue.py:77-101 | a completion or failure is answered True exactly when it moves its task, a cancellation exactly when the task has not ended |
| QueueTransitions.FlagIffCancelled | backend/core/task_queue_cancel.py:20-47 | the cancel flag of a task is up exactly if some cancellation of it has been answered True |
| QueueTransitions.RecoveryCountsRetries | backend/core/task_queue_recover_support.py:16-32 | a recovery answers with the number of tasks it puts back |
| QueueTransitions.NewRowBelongs | backend/core/task_queue_submit.py:30-42 | a task enters a run PENDING and untouched with the fields of one spec of the call, or failed when its batch was taken back |
| QueueTransitions.RowBelongsToItsSpec | backend/core/task_queue_submit.py:30-42 | at every point of every run a task has the input, parent, timeout, retry bound and creation time of the spec that created it |
| QueueTransitions.WorkerGetsTheSpec | backend/core/task_queue_claim.py:12-39 | every payload a claim answers with carries the spec that created the id, however often it was requeued, runs under the claimer from the time of the claim until the spec's timeout, and is what is stored |
| QueueTransitions.SubmittersGetTheirSpecs | backend/core/task_queue_submit.py:30-42 | the answers to a submission and to an accepted batch carry the specs' fields, PENDING, never tried, created now |
| QueueOrder.FirstInFirstOut | backend/core/task_queue_claim.py:12-21 | a task that was there when a second one came is no longer pending when the second is claimed, unless recovery put it back in between |
| QueueLeases.WaitReturnsTerminalOrDetached | backend/core/task_queue_support.py:33-132 | each payload that any wait of a run returns is the final row of its task, or a detached copy of a running row the wait left alone |
| QueueInvariant.ReachableInv | backend/core/task_queue.py:44-178 | at every point of every run, also when Redis raises during batches: rows well-formed, only known ids listed, every cached payload equal to its row, the Redis-only index equal to its keys |
| QueueInvariant.StepKeepsCoherent | backend/core/task_queue.py:149-178 | after every method, rejected ones included, each cached payload is absent or equal to its row |
| QueueInvariant.StepKeepsPendingListed | backend/core/task_queue.py:61-63 | a method leaves a pending task without its id in the list exactly if it is an admitted batch on Redis alone one of whose list pushes raises |
| QueueInvariant.NothingHiddenIff | backend/core/task_queue_claim.py:12-39 | at every point of a run every pending task is in the list exactly if no such batch came before |
| QueueInvariant.ClaimNoneIffNothingPending | backend/core/task_queue_claim.py:12-39 | where every pending task is listed, a claim comes back empty exactly when no task is pending |
| QueueInvariant.RaisingPushHidesTask | backend/core/task_queue.py:61-63 | a batch on Redis alone whose list push raises: its task is pending and the next claim finds nothing |
| QueueHistory.AttemptAccounting | backend/core/task_queue_recover_support.py:49-78 | the number of claims of a task equals its retry count while pending and one more while running or succeeded |
| QueueHistory.ClaimsBounded | backend/core/task_queue_recover_support.py:49-78 | no task is ever claimed more than 1 + max_retries times |
| QueueHistory.RankDecreases | backend/storage/sub_agent_task_store.py:44-104 | every status change strictly lowers a rank on remaining retries and status, and nothing raises it |
| QueueHistory.StatusChangesBounded | backend/core/task_queue_recover_support.py:49-78 | a task changes status at most 4 * max_retries + 3 times, however long the run |
| QueueHistory.SettledForever | backend/storage/sub_agent_task_store.py:172-177 | a succeeded task, its result, and any failure but a waited-out one never change again |
| QueueHistory.FailedChangesOnlyLate | backend/storage/sub_agent_task_store.py:172-177 | a failed task changes only by the late success of the very worker whose wait ran out |
| QueueHistory.AtMostOneAcceptedResult | backend/storage/sub_agent_task_store.py:69-86 | over any run at most one completion of a task is accepted |
| QueueHistory.WorkerIdNamesLatestClaim | backend/storage/sub_agent_task_store.py:44-67 | a row's worker id is that of its latest claim, with no requeue and no other claim since |
| QueueHistory.FencedCompletion | backend/storage/sub_agent_task_store.py:69-86 | a completion under a worker id is accepted only under the worker id of the latest claim, and its result then stays |
| QueueHistory.StaleRunPassesIffReclaimed | backend/storage/sub_agent_task_store.py:172-177 | a run whose completion is accepted still held the task exactly if the task was not claimed again under the same worker id |
| QueueHistory.StaleRunCanPass | backend/storage/sub_agent_task_store.py:172-177 | a run in which a completion is accepted from the first of two claims of one process, after the task was requeued and claimed again |
| QueueHistory.CancelledPendingIsFinal | backend/core/task_queue_cancel.py:20-40 | a task cancelled while pending is never claimed, completed or requeued later |
| QueueLeases.HeartbeatKeepsLease | backend/core/task_queue_consumer_helpers.py:45-66 | with renewals and clock readings at most a gap apart, below the extension and the timeout, the row stays running under its worker with its lease beyond the last beat by more than the gap, whatever recovery, waiters, cancellations and calls under other worker ids do |
| QueueLeases.ClaimedTaskIsKept | backend/core/task_queue_consumer_helpers.py:19-66 | the same from the claim on, with renewals at most 15 + d seconds apart |
| QueueLeases.WaiterDetachesFromLeasedTask | backend/core/task_queue_support.py:98-132 | a waiter that gives up while the lease is alive gets a detached copy and leaves the row alone |
| QueueLeases.WaiterDetachesFromBeatingTask | backend/core/task_queue_support.py:33-132 | a parent that stops waiting for a task whose worker beats in time gets the detached copy of the very row the worker holds, and the row stays |
| QueueLeases.RecoveryLeavesBeatingTask | backend/core/task_queue_recover_support.py:16-32 | recovery neither requeues nor expires a task whose worker beats in time |
| QueueLeases.RedisOnlyLeaseNeverMoves | backend/core/task_queue.py:127-133 | without the row store the lease of a running task is always start + timeout |
| QueueLeases.RedisOnlyRecoversIffTimedOut | backend/core/task_queue_support.py:98-100 | there recovery takes a running task exactly when start + timeout has passed |
| QueueCapacity.ActiveComesFromBatch | backend/storage/sub_agent_capacity_store.py:13-61 | a new active child of the parent comes from an accepted batch of that parent and from nowhere else |
| QueueCapacity.CapacityHolds | backend/storage/sub_agent_capacity_store.py:13-61 | if children of a parent enter only through batches bounded by M, at most M of them are ever unfinished |
| QueueCapacity.BatchAllOrNothing | backend/core/task_queue.py:44-63 | the row and listing of each task of a batch after it: it enters whole and listed, or changes nothing, or ends failed as a whole; on Redis alone, when Redis raises, the payloads up to that one stay pending, all listed but one whose push raised |
| QueueCapacity.RedisBatchWholeIff | backend/core/task_queue.py:58-63 | on Redis alone a batch enters whole and listed or changes nothing exactly unless it is admitted and Redis raises before the time-to-live of its last payload |
| QueueCapacity.CompensationRestoresActive | backend/core/task_queue_submit.py:69-78 | the compensation after a failed push gives every parent its previous active children back |
| Backends.RefinesMachine | backend/core/task_queue_support.py:51-100 | on every portable call each backend takes the step of one abstract machine of tasks, list and flags, and gives its answer |
| Backends.BackendsAgreeIff | backend/core/task_queue_support.py:51-100 | the two backends take the same step exactly when the call is portable, a condition on the tasks and the call before it is made and on whether Redis raises |
| Backends.BackendsAgree | backend/core/task_queue_recover_support.py:16-89 | over any run of such calls both backends give the same answers and reach the same tasks, list and flags |
| AgentRunner.ExecuteAgentPayload | backend/core/task_queue_agent_runner.py:30-108 | which queue calls follow each way an agent run can end; a task the worker still held has then ended for good, with the result or the error of the outcome, a waited-out one takes the result, and any other ended task or another worker's is as it was |
| AgentRunner.NoLateResult | backend/storage/sub_agent_task_store.py:172-177 | after the run of a held task has ended in any way, no later completion of the task is accepted in any run |
| AgentRunner.HeartbeatRound | backend/core/task_queue_consumer_helpers.py:53-64 | a heartbeat round renews the lease and stops the run exactly when the cancel flag is up |
| AgentRunner.WorkerLetsGo | backend/core/task_queue_agent_runner.py:91-109 | with any other operations between its completion and failure calls, a worker's report is accepted and final if it still holds the task, and otherwise it no longer has the task running and leaves another worker's alone |
| Handoff.NoLostTask | backend/core/task_queue_claim.py:12-39 | after any interleaving of store and Redis calls in which no claim drops the last trace of a pending row, each pending row is in the list, held by a claimer, or owed a push or failure by an actor |
| Handoff.StepLosesIff | backend/storage/sub_agent_task_store.py:48-57 | a call loses a pending task exactly when it is a store claim that holds the last trace of its id and passes over the row because another actor's transaction has it locked |
| Handoff.NothingLostIff | backend/core/task_queue_claim.py:18-21 | nothing is lost at any point of an interleaving exactly when no call of it does that |
| Handoff.QuiescentPendingIsListed | backend/core/task_queue_recover_support.py:66-81 | after such an interleaving, once no actor is inside a method, each pending row is in the list |
| Handoff.OnlyPendingIsClaimed | backend/storage/sub_agent_task_store.py:44-67 | stale and duplicate list entries never let a row that is not pending be claimed |
| Handoff.CancelReachesTheWorker | backend/core/task_queue_cancel.py:20-47 | however cancel and claim interleave, an accepted cancellation leaves the flag up, and a worker that then checks stops and, whatever others do before its failure write, no longer has the row running |
| HandoffFinality.SuccessUndoneIff | backend/core/task_queue_recover_support.py:66-81 | a store call undoes a success exactly when it writes a whole row from an actor's memory |
| HandoffFinality.SuccessStaysIff | backend/core/task_queue_recover_support.py:66-81 | under any interleaving a success stays from some point on exactly if no actor writes the whole row from memory after it |
| HandoffFinality.FreshSuccessIsFinal | backend/core/task_queue_cancel.py:28-32 | if every such snapshot still is the row when written back, a success is final under every interleaving |
| HandoffFinality.StepExceedsIff | backend/core/task_queue_recover_support.py:66-81 | a call takes a parent over its bound exactly if it is a recovery's requeue of a child that no longer counts while the bound is used up |
| HandoffFinality.CapacityHoldsIff | backend/storage/sub_agent_capacity_store.py:21-33 | if children enter only through batches bounded by M, at most M are unfinished at every point of an interleaving exactly if no recovery does that |
| HandoffFinality.FreshCapacityHolds | backend/storage/sub_agent_capacity_store.py:21-33 | in particular when every snapshot still is the row when written back |
| HandoffFinality.RecoveryCanUndoASuccess | backend/core/task_queue_recover_support.py:25-26 | an interleaving in which recovery puts a succeeded task back to pending |
| HandoffFinality.RecoveryCanExceedTheBound | backend/core/task_queue_recover_support.py:25-26 | an interleaving in which that leaves two unfinished children under a bound of one |
| HandoffFinality.CancellationCanUndoASuccess | backend/core/task_queue_cancel.py:22-32 | an interleaving in which cancellation writes a failure over a success |
| HandoffFinality.SkippedClaimLosesTheTask | backend/storage/sub_agent_task_store.py:48-57 | an interleaving in which a claim skips a row that a batch of the same parent has locked, and which ends with the task pending, nobody holding it and an empty list |
| RedisClaims.AlwaysCurrentIff | backend/core/task_queue_claim.py:25-37 | on Redis alone every payload read is still what the key holds when it is written back, at every point of an interleaving, exactly if no call writes a key between another actor's read and write of it |
| RedisClaims.CurrentWriteIsTheMethod | backend/core/task_queue_support.py:51-81 | the write of such a payload does to the keys what the whole claim, completion, failure, requeue or cancellation does as one step |
| RedisClaims.ClaimedTwiceIff | backend/core/task_queue_claim.py:25-37 | no point of an interleaving lets a task be claimed twice exactly if no call takes a task out of PENDING between another claimer's read and write |
| RedisClaims.TwoWorkersClaimOneTask | backend/core/task_queue_recover_support.py:66-81 | an interleaving in which two overlapping recoveries list a task twice and two workers both claim it |
| MessageHistory.FindMatchingToolMessageIndex | backend/common/message_history.py:29-47 | the first unused later tool message that covers all call ids, none for a message without calls |
| MessageHistory.SanitizeMessageHistory | backend/common/message_history.py:8-26 | the repair loop computes the repaired list |
| MessageHistory.RepairTheorem | backend/common/message_history.py:8-26 | the repaired list is well-formed and keeps all other messages in order; repair is idempotent and its fixed points are exactly the well-formed lists |
| MessageHistory.EachToolMessageUsedOnce | backend/common/message_history.py:29-62 | each call gets the first covering tool message no earlier call took, an orphan reply only when there is none, and no tool message is used twice |
| MessageHistory.EveryCallIsAnswered | backend/common/message_history.py:8-65 | in a repaired history the message after a tool call is a tool message with a result for each call, captured or one error per call with the given text, and there are no other tool messages |
| OpenAiStream.ToolChunks.ParseStreamLine | backend/adapters/openai_support.py:142-170 | one line extends the buffers, emits its reasoning, its text and its usage, each once unless absent or empty, in this order, and flushes the calls on finish |
| OpenAiStream.ToolChunks.FlushToolCalls | backend/adapters/openai_support.py:173-187 | a flush emits the named buffers by index and leaves none |
| OpenAiStream.HandleStreamResponse | backend/adapters/openai_streaming.py:112-141 | the line loop with its finish, done and end flushes, whose chunks the stream laws below describe |
| OpenAiStream.StreamIsLines | backend/adapters/openai_support.py:160-170 | the chunks of any stream are one block per data line before the done marker, each with its reasoning, text, usage and calls in this order, then left-over calls, then the done chunk |
| OpenAiStream.StreamSaysEverything | backend/adapters/openai_support.py:160-168 | the reasoning, text and usage chunks are exactly the non-empty ones of the data lines, in order; the last chunk and no other is the done chunk |
| OpenAiStream.AbsorbingIsGrouping | backend/adapters/openai_support.py:149-159 | for every interleaving the buffers hold exactly the per-index groups of fragments |
| OpenAiStream.StreamIsGrouping | backend/adapters/openai_streaming.py:120-141 | the tool calls of a stream are those of the fragment segments between flushes, each emitted once |
| OpenAiStream.WholeStreamIsOneGrouping | backend/adapters/openai_streaming.py:120-141 | when no fragment follows a finish line the whole stream is one grouping |
| OpenAiStream.EmittedCalls | backend/adapters/openai_support.py:173-187 | a segment emits, by ascending index, exactly the calls whose last given name is neither null nor empty, arguments joined in arrival order |
| OpenAiStream.LaterNullNameDropsTheCall | backend/adapters/openai_support.py:154-154 | a null name in a later fragment drops the call however it was named before |
| AnthropicStream.BlockBuffers.StartChunk | backend/adapters/anthropic_stream.py:65-87 | a start opens a tool buffer or extends a thinking slot |
| AnthropicStream.BlockBuffers.DeltaChunk | backend/adapters/anthropic_stream.py:39-62 | a delta extends its block's buffer and passes non-empty text and reasoning on |
| AnthropicStream.BlockBuffers.StopChunk | backend/adapters/anthropic_stream.py:90-104 | a stop emits and removes the thinking slot or the tool buffer of its index |
| AnthropicStream.BuffersAreOpenBlocks | backend/adapters/anthropic_stream.py:39-104 | for well-formed streams the buffers hold exactly the open tool and thinking blocks, each joined from its own events |
| AnthropicStream.OneChunkPerBlock | backend/adapters/anthropic_stream.py:90-104 | for well-formed streams the chunks are the non-empty texts as they arrive and one chunk per block at its stop |
| WireFormat.ToOpenaiMessages | backend/adapters/openai_support.py:59-92 | the encoder loop |
| WireFormat.OpenaiMessagesToInternal | backend/api/routes/chat_completions.py:25-65 | the decoder loop, for arbitrary wire items |
| WireFormat.RoundTrip | backend/adapters/openai_support.py:59-92 | decoding an encoded history gives its normal form, and encoding that again gives the same wire items |
| WireFormat.DecodedIsStable | backend/api/routes/chat_completions.py:42-65 | whatever the wire holds, decoded messages are normal and survive encoding and decoding unchanged |
| WireFormat.NormalIsFixed | backend/api/routes/chat_completions.py:42-65 | the fixed points of the round trip are exactly the lists of normal messages |
| WireFormat.EncodedIsOnWire | backend/adapters/openai_support.py:59-92 | an encoded history is, message by message, items with the given role, text or null, reasoning, calls with dumped arguments, and one item per tool result |
| WireFormat.EveryItemIsRead | backend/api/routes/chat_completions.py:25-65 | the decoder reads every item of any wire list field by field, unknown roles as user text and unreadable arguments under "raw" |
| WireFormat.TextOfParts | backend/api/routes/chat_completions.py:25-65 | the text of a list of parts is that of its text parts, put together in order |
| LruRegistry.RuntimeRegistryCache.GetRuntimeRegistry | backend/api/routes/completion_runtime.py:34-65 | a request fails only on a miss whose build fails, and otherwise adds itself to the trace the cache is a function of |
| LruRegistry.OrderIsLatest | backend/api/routes/completion_runtime.py:29-61 | the cached keys in order are exactly the at most eight most recently requested ones in last-use order |
| LruRegistry.RecencyShape | backend/api/routes/completion_runtime.py:29-61 | the recency list holds every key ever requested exactly once |
| LruRegistry.HitIffRecent | backend/api/routes/completion_runtime.py:47-60 | a request hits exactly when its key was requested before and fewer than eight other keys since |
| LruRegistry.EntryIsFromLastMiss | backend/api/routes/completion_runtime.py:47-60 | a hit returns the registry built at the key's last miss, that is since its last eviction |
| Breaker.CircuitBreaker.RecordFailure | backend/adapters/resilient_adapter.py:51-56 | the entries stay those of the recorded trace, with this failure at its end |
| Breaker.CircuitBreaker.CircuitOpen | backend/adapters/resilient_adapter.py:44-46 | answers what the trace of all requests says |
| Breaker.OpenIffTraceOpen | backend/adapters/resilient_adapter.py:38-56 | a circuit is open exactly when at least one and at least `threshold` failures followed the last success and the latest is under `open_seconds` ago |
| Breaker.ResilientAdapter.Complete | backend/adapters/resilient_adapter.py:79-135 | a completion over the candidates under a deadline, cancellation from outside included, with other requests recording on the shared breaker at every await |
| Breaker.ResilientAdapter.Stream | backend/adapters/resilient_adapter.py:137-164 | a stream over the candidates, closed or cancelled by its consumer after any number of chunks or run to its end, with other requests recording on the shared breaker at every await |
| Breaker.NoOpenCandidateIsCalled | backend/adapters/resilient_adapter.py:79-164 | the entries skip a candidate exactly when the interleaved trace of all requests says its circuit is open; each call leaves its provider's failures empty after an answer, one longer after a timeout or fallback error, and as they were otherwise; and the entries end as those of the whole trace |
| Breaker.CallRecords | backend/adapters/resilient_adapter.py:95-127 | on the entries: an answered call removes its provider, a timeout or fallback error counts one failure more, and any other end changes nothing of it |
| Breaker.CompleteMeetsDeadline | backend/adapters/resilient_adapter.py:87-94 | every completing call starts before the deadline, all but the last end before it, and the last ends by it but for the time to unwind |
| Breaker.CompleteEndsInTime | backend/adapters/resilient_adapter.py:79-135 | the whole completion is over by the deadline but for the time between candidates and for cut calls to unwind |
| Breaker.AtMostOneAnswers | backend/adapters/resilient_adapter.py:137-164 | candidates are tried in order and the request goes on exactly after a skip, a timeout of a completion or a fallback error that streamed nothing; it ends with the last call's result, having yielded its stream or the prefix taken before leaving, or exhausted when all passed on or time ran out; a completing call times out exactly if it would last to the deadline |
| WorkerPool.GetTaskQueueSnapshot | backend/core/task_queue_stats.py:21-33 | the counts per status of all listed tasks, with no task changed |
| WorkerPool.WorkerPoolController.AdjustOnce | backend/sub_worker_scaler.py:59-72 | one adjustment to a poll |
| WorkerPool.WorkerPoolController.ScaleTo | backend/sub_worker_scaler.py:79-97 | growing creates new consumers, shrinking retires and cancels the latest ones |
| WorkerPool.WorkerPoolController.Run | backend/sub_worker_scaler.py:44-57 | after shutdown every consumer ever created is cancelled and none is kept |
| WorkerPool.EveryConsumerIsLiveOrRetired | backend/sub_worker_scaler.py:59-97 | after any polls the pool is between default and max, and every consumer ever created is in exactly one of live and cancelled-retired |
| WorkerPool.SizeAfterPoll | backend/sub_worker_scaler.py:59-77 | the pool shrinks exactly after a run of idle polls spanning at least `idle_seconds`, then to the default, and grows exactly to the number of unfinished tasks or the maximum |
| WorkerPool.PollRetiresTheLatest | backend/sub_worker_scaler.py:79-97 | a poll lets new consumers join at the end, or retires and cancels the latest ones |
| CompactRanges.Compact | scripts/subset_fonts_cjk.py:62-74 | the text can be read back, its ranges are ascending, disjoint and non-adjacent and denote exactly the code points; an empty set raises |
| CompactRanges.DescriptorRoundTrip | scripts/subset_fonts_cjk.py:71-74 | a reader of the descriptor text gets the ranges back |
| CompactRanges.FewestRanges | scripts/subset_fonts_cjk.py:62-74 | no description of the same set uses fewer ranges |
| ProviderConfigs.ProviderStore.SetDefault | backend/storage/provider_store.py:93-108 | exactly the named row is flagged, or nothing changes when it is missing |
| ProviderConfigs.ProviderStore.ImportFromJson | backend/storage/provider_store.py:110-123 | adds exactly the configs whose id is new, or nothing when a new id comes twice |
| ProviderConfigs.ImportMeans | backend/storage/provider_store.py:110-123 | an import goes through exactly if no new id comes twice, and then every old row stays and each new config is stored |
| ProviderConfigs.ChangedIffTakes | backend/adapters/provider_manager.py:78-104 | an update takes exactly the given fields, and writing it makes it the only default if it says so or no other is one, changing nothing else |
| ProviderConfigs.WritingIsWrittenInto | backend/adapters/provider_manager.py:61-76 | the same for a written config in general |
| ProviderConfigs.WithDefaultIsMoved | backend/storage/provider_store.py:93-108 | moving the default flags exactly that provider and changes no other field |
| ProviderManager.ProviderManager.EnsureInitialized | backend/adapters/provider_manager.py:35-59 | memory becomes the stored or seeded configs with one default in memory and store, or nothing is installed |
| ProviderManager.ProviderManager.SetDefaultLocked | backend/adapters/provider_manager_support.py:35-50 | memory and store get the same single default, and nothing built from a changed config stays memoised |
| ProviderManager.ProviderManager.Add | backend/adapters/provider_manager.py:61-76 | the new config is stored and in memory, with exactly one default, under any adapter requests during the awaits |
| ProviderManager.ProviderManager.Update | backend/adapters/provider_manager.py:78-104 | the changed config is stored and in memory, with exactly one default, under any adapter requests during the awaits |
| ProviderManager.ProviderManager.Remove | backend/adapters/provider_manager.py:106-123 | the config is gone from memory and store, and a removed default passes to the first that is left |
| ProviderManager.ProviderManager.SetDefault | backend/adapters/provider_manager.py:139-147 | the named provider becomes the only default, or nothing changes |
| ProviderManager.ProviderManager.GetResilientAdapter | backend/adapters/provider_routing.py:24-61 | the adapter is the provider's own exactly if the setting names no other enabled provider, otherwise one that falls back to exactly those, in the setting's order; all this exactly unless the memo holds another primary's entry under the key |
| ProviderManager.ProviderManager.GetAdapter | backend/adapters/provider_manager.py:159-179 | which error, or that the requested or flagged provider is reached in this way, exactly unless another primary's entry sits under its key, which colon-free ids exclude |
| ProviderManager.ProviderManager.AwaitStore | backend/adapters/provider_manager.py:159-179 | any number of adapter requests at an await point keep every memo equal to a rebuild |
| ProviderManager.HitIsExpectedIffOwn | backend/adapters/provider_routing.py:28-30 | a memo hit is what rebuilding gives exactly when the entry was stored for this primary |
| ProviderRouting.ExpectedIffReaches | backend/adapters/provider_routing.py:34-61 | an adapter is what building gives exactly if it reaches the provider in this way |
| ProviderRouting.PickedAreServing | backend/adapters/provider_routing.py:24-40 | the fallbacks are exactly the enabled configs that the setting names besides the primary |
| ProviderRouting.KeysEqualIff | backend/adapters/provider_routing.py:28-28 | two routes share a memo key exactly when they are the same route or one primary id is the other continued by a colon |
| ProviderRouting.ColonFreeKeysDiffer | backend/adapters/provider_routing.py:28-28 | without colons in the ids the key tells routes apart |
| ProviderRouting.ProvidersCanShareAKey | backend/adapters/provider_routing.py:28-30 | two providers whose keys coincide although their adapters differ |

## Left out

- HandoffFinality.FreshSuccessIsFinal: finality at the grain of single store calls needs the snapshot hypothesis; without it the statement is false, as RecoveryCanUndoASuccess shows, and SuccessStaysIff is exact; likewise FreshCapacityHolds, RecoveryCanExceedTheBound and CapacityHoldsIff.
- QueueCapacity.CapacityHolds: says nothing of the empty parent on Redis alone, where the code counts no children and enforces no bound across batches.
- QueueLeases.HeartbeatKeepsLease: is about the row store; on Redis alone renewals do nothing, which RedisOnlyLeaseNeverMoves states.
- QueueInvariant.ReachableInv: is about runs in which submissions, and on Redis alone batches too, bring new ids, which the callers generate.
- Handoff.NoLostTask: a row is locked for a claim by an actor whose next call locks or writes it; the store calls made by no actor (a waiter's failure, say) are single actions that hold no lock between two others.
- RedisClaims.AlwaysCurrentIff: is about task keys and the list; the cancel flag, which no claim reads, the index and the count of a batch against its bound are not part of this model of single Redis calls.
- AnthropicStream.OneChunkPerBlock: is about well-formed streams; for any stream ParseStream is proved equal to the event-by-event function.
- WorkerPool.SizeAfterPoll: takes clock readings to be positive, because a reading of zero is taken by the code for "not idle".
- Breaker.OpenIffTraceOpen: takes the clock not to be negative, because a circuit below its threshold is stamped zero.
- Redis key expiry, crashes between a pop and its claim, database errors, and an exception from Redis outside the pushes of a batch (on Redis alone it strikes at the list push or the time-to-live of a payload).
- The blocking pop, the sleep of a waiting parent between polls (one poll is a step, with any clock values) and the sleep between heartbeats and scaler polls.
- In the method-step runs, rows skipped because another transaction has locked them; a store method is one transaction.
- The duplicate listing of an id by a Redis scan: a scan lists each indexed id once, in any order.
- The namespace, trace ids added to task input, checkpoints, logging and metrics.
- The agent run itself, session restoration and tool execution; only how a run ends reaches the queue.
- JSON text: argument objects and their dumps are a datatype in which load inverts dump; text that is JSON but no object is not modelled.
- Usage chunks, errors and HTTP status handling of the provider streams, and the branch of the Anthropic parser without block dictionaries.
- Message fields no encoder sends (id, timestamp, kind, ephemeral flag, diffs, artifacts), kept as one opaque stamp.
- The synchronisation of MCP tools after a registry is found, and the lock around the registry cache.
- The model name put into a candidate's request, the response annotation and the text of the error raised when every candidate failed.
- Parsing of the comma-separated fallback settings, aliases of provider types, and what an adapter does; an adapter is the configs it was built from.
- Provider store errors in the middle of a write, and several server processes with separate memories.
- Glyph subsetting, CSS writing and the choice of code points.
