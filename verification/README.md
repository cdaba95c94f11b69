# What this project proves about the agent

plastic-wan answers Telegram chats with a long-lived language-model agent per conversation. This project models the
parts whose guarantees span many calls, and proves them for every input, every run and every reachable state. Times are
integers in milliseconds, SQLite tables are maps or sequences, and each transaction is one step.

**Batches and runs** (`Lifecycle*.dfy`, `InvocationQueue.dfy`, `Scheduler.dfy`, `AgentRun.dfy`). Messages collect in a
bucket, which opens an invocation or is attached to the live one, is injected at a turn boundary, and is closed or
released when the run ends; receipts of long tasks travel the same way. `LifecycleSteps` says what each step does,
`LifecycleInvariant` what holds in every reachable state, and `LifecycleResults` what follows: every batch is conserved,
injected at most once, re-queued at most once, and collects a full window. `LifecycleArrivals`, `LifecycleTurns`,
`LifecycleEnds` and `LifecycleRestart` say of every kind of step, row by row, what it makes of the state before it. The
classes carry out the same steps in place, row by row, and are proved to reach the states of `LifecycleSteps`.
`LifecycleTeardown`, `LifecycleSplit`, `LifecycleMeanwhile` and `LifecycleReplay` take the end of a run apart and say
exactly what may happen between the teardown of its memory and its terminal transaction.

**The conversation context** (`Context*.dfy`, `Transcript*.dfy`, `AgentCache.dfy`). A canonical history with a moving
head, the plan that decides where to cut it, the references that hang on its rows, and the transcript an agent keeps in
memory. Over every run the cached transcript is a faithful copy of the history, up to what is never stored, the head
never moves back, and the shape of the stored window is that of what was written since the head.

**Configuration** (`Config*.dfy`, `KeyJar.dfy`). The comparison of the running configuration with the file, the reload
that applies it, and the two-file write of configuration and key jar, consistent at every crash point.

**Algorithms.** Message headers that read back (`JsText.dfy`, `MessageHeaders.dfy`, `Injection.dfy`,
`MessageContent.dfy`), the semaphores (`Concurrency.dfy`), secret redaction (`Redaction.dfy`), the reduction of tool
schemas (`ToolSchema*.dfy`, `SchemaPositions.dfy`), the sliding-window send limit (`SendLimit.dfy`, `SendTool.dfy`) and
UTF-8 truncation (`Truncation.dfy`, RFC 3629, section 3, and the Encoding Standard, section 8.1.1).

## Where the code does less than one would say

Each of these is a lemma with an input on which the plain statement fails; the table below names the condition under
which it holds.

- The end of a run is two halves, the teardown of its memory and the terminal transaction. A tick in between is harmless
  unless a due batch of the conversation, whose chat is configured, awake, not paused and not taken by other work, or a
  deliverable receipt of it, finds the run still there; then some legal run injects a batch twice
  (`LifecycleSplit.SplitEndInjectsTwice`, exactly when: `SplitEndKeeps`; with any steps in between:
  `LifecycleMeanwhile.LateEndInjects`).
- After a restart a running batch is closed as unknown also when only an earlier run it had been attached to ended that
  way (`LifecycleRestart.EarlierRunDecides`, exactly when: `BatchRestarts`).
- A topic cut during a run leaves the tool results still in flight without their calls: the stored window is not
  renderable until the next run repairs it (`TranscriptRuns.CutLeavesResult`, exactly when: `WindowOverRuns`). The same
  happens to a result that follows a failed turn, which is not stored (`TranscriptRuns.UnwrittenCallBreaksWindow`).
- A run that lost its topic and hands out a sticker before it writes again leaves a reference below the head (exactly
  when: `TranscriptRuns.ReferenceInRange`).
- An edit that makes the image section invalid leaves its key names in the text and takes them for unused
  (`ConfigFile.DroppedSectionLosesSecret`, exactly when: `LastStage`).
- A keyed lock whose first call came too late keeps its entry until another call uses the key (exactly when:
  `Concurrency.KeyedSemaphore.IdleMeans`).
- A reduced tool schema can be stricter than the original: through the type of a union, through `patternProperties`
  dropped beside `additionalProperties`, and through a reference into a dropped keyword
  (`ToolSchemaMeaning.UnionNarrows`, `PatternNarrows`, `ReferencesNarrow`).
- The send limit reads the clock twice; a window as long as the configured one can hold one send too many
  (`SendLimit.OneTooMany`, exactly when: `WindowExact`).
- A truncated text loses a byte order mark in front, and lone surrogates become U+FFFD (`Truncation.PrefixKept`); a
  marker that is not ASCII and does not fit is cut at a byte, which can cost one or two bytes too many (exactly when:
  `Truncation.TruncateUtf8`).

## Assumptions

- At a turn boundary the agent library's turn context is the agent's own message list, steered messages are delivered
  first in first out, and the hook that prepares the next turn runs before the one that may stop the loop.
- `bucket_window_seconds` is fixed while a process runs (it changes only on restart), the attachment target is wired,
  and a conversation is its pair of chat and thread.
- A launch and the opening round of its run are one step; so are a run's teardown and its terminal transaction. The
  scheduler's map of active runs has one entry per running row.
- The clock does not run back.
- Rows of sends are kept at least as long as any window, which the configuration schema ensures: a window is at most a
  day (`src/platform/config.ts:334`) and the retention at least one (`src/platform/config.ts:355`). The limit itself may
  change between two sends (`src/platform/config-diff.ts:71`).
- Whether a tool result can follow a failed turn is up to the agent library.
- Key-jar names added by one edit are new, which `updateKeyJar` enforces; the registry and image snapshot built from one
  configuration are the same each time; hashes of different texts differ.
- Each release of a semaphore is called once, and an abort removes its waiter at once.

## Model

| member | source | states |
|---|---|---|
| LifecycleRuns.ReachableStates | src/orchestration/invocation-queue.ts:71-838 | In every state any run reaches (messages, due ticks, receipts, launches, turn boundaries, barrier, ends, pause, cancel, restart, catch-up) the whole-system invariant holds: one collecting batch per conversation, queued exactly when one queued invocation opens with it, a running batch joined to a running invocation, one run per chat, claims on live work, memory holding only what a live run has still to read |
| LifecycleRuns.NextKeeps | src/orchestration/invocation-queue.ts:71-838 | Every one of the 23 kinds of step keeps that invariant, with a clock that does not run back |
| LifecycleRuns.RunKeeps | src/orchestration/invocation-queue.ts:71-838 | From any good state every legal sequence of steps ends in a good state |
| LifecycleResults.InjectedOnce | src/orchestration/agent-runtime.ts:499-563 | Over every run from an empty database no batch is written into a transcript twice |
| LifecycleResults.FinishConserves | src/orchestration/invocation-queue.ts:451-520 | When a run ends, each of its batches it read closes with it, each running one it never read goes back to the queue under exactly one new invocation, cancelled ones and all other batches stay as they are |
| LifecycleResults.ReleasedOnce | src/orchestration/invocation-queue.ts:451-520 | A batch released once is never again an unread attached batch of any later run, so no batch is re-queued twice |
| LifecycleResults.ReceiptsOverRuns | src/store/long-tasks.ts:457-625 | Over every run a task waits exactly while it has no receipt, each receipt is claimed at most once, and a claimed receipt points to a queued or running invocation |
| LifecycleResults.ReceiptsAdvance | src/orchestration/invocation-queue.ts:114-177 | Between any two moments of a run receipts only move forward, a handled one stays handled and a suppressed one suppressed, and none is claimed after `recover` |
| LifecycleResults.ProcessDueRows | src/orchestration/invocation-queue.ts:307-375 | What a due tick does to every batch: untouched when not due, otherwise exactly the one outcome its conversation calls for, whatever the other due batches do |
| LifecycleResults.StaysCollecting | src/orchestration/invocation-queue.ts:307-431 | A due batch goes on collecting exactly when its chat is paused, other work owns the chat, or its conversation's run is mid-round or closing |
| LifecycleResults.FullWindow | src/orchestration/agent-runtime.ts:565-573 | Only a batch that collected a full window leaves collection through a due tick, and one handed to a live run comes at least a window after that run's agent was last free |
| LifecycleForward.NextForward | src/orchestration/invocation-queue.ts:71-838 | No step moves backwards: windows only grow, a closed batch stays closed, an ended invocation stays ended, an acknowledgement is never withdrawn, receipts and tasks never go back |
| LifecycleForward.RunForward | src/orchestration/invocation-queue.ts:71-838 | The same between any two moments of any run |
| LifecycleTeardown.HalvesMakeWhole | src/orchestration/scheduler.ts:322-383 | Teardown of memory followed at once by the terminal transaction is the one step modelled as the end of a run |
| LifecycleSplit.TickEmptied | src/orchestration/scheduler.ts:165-183 | A tick (timers, receipts, due batches) after the teardown of a run's memory hands that run something exactly when one of its due batches is free to go or a receipt of its conversation, pending or written by a due timer, can be delivered |
| LifecycleSplit.SplitEndKeeps | src/orchestration/scheduler.ts:299-383 | From any good state, with that tick between the two halves, the state after the end of the run is good exactly when the tick hands the run nothing |
| LifecycleSplit.SplitEndHarmless | src/orchestration/scheduler.ts:299-383 | Then no run from there on writes a batch twice |
| LifecycleSplit.SplitEndInjectsTwice | src/orchestration/scheduler.ts:299-383 | Otherwise memory keeps a batch the transaction re-queued, and some legal run of launches, readings and ends writes a batch twice |
| LifecycleReplay.Repeats | src/orchestration/scheduler.ts:240-297 | From any state in which memory, or a transcript, has a batch that a queued invocation opens with, the scheduler comes to that invocation, whatever else is queued in that chat or others, and the batch is written twice |
| LifecycleMeanwhile.AsideStep | src/orchestration/scheduler.ts:165-183 | A step of any other kind between the two halves (messages, tasks and receipts, timers, launches, other runs and their ends, sleep, catch-up) leaves the torn run as it is; a due or receipt tick hands it something exactly when a batch or receipt of its conversation is free to go |
| LifecycleMeanwhile.LateEndKeeps | src/orchestration/scheduler.ts:299-383 | From any good state, with any legal sequence of such steps between the two halves, the state after the end is good exactly when no step handed the run anything |
| LifecycleMeanwhile.LateEndInjects | src/orchestration/scheduler.ts:299-383 | And exactly then no legal run from there on writes any batch twice |
| LifecycleTeardown.StaleEntryInjectsTwice | src/orchestration/agent-runtime.ts:913-940 | A batch left in memory, and first there to be taken, is written twice by the run of the invocation it opens |
| LifecycleKeeps.EnqueueKeeps | src/orchestration/invocation-queue.ts:798-828 | Queueing a batch under a new invocation keeps the invariant, when nothing opened with it and no transcript has it |
| LifecycleKeeps.AttachKeeps | src/orchestration/invocation-queue.ts:71-92 | Attaching a batch that belongs to nothing to the running invocation of its conversation keeps the invariant |
| LifecycleKeeps.AddBucketKeeps | src/ingress/telegram-ingestion.ts:486-515 | A new batch with a full window keeps the invariant |
| LifecycleQueries.IngestKeeps | src/ingress/telegram-ingestion.ts:450-534 | A stored message keeps the invariant: it opens a batch only when none is collecting |
| LifecycleQueries.ProcessDueKeeps | src/orchestration/invocation-queue.ts:307-449 | A due tick keeps the invariant |
| LifecycleQueries.BarrierKeeps | src/orchestration/agent-runtime.ts:343-390 | The send barrier keeps the invariant while it attaches a collecting batch |
| LifecycleQueries.ReceiptFoldKeeps | src/orchestration/invocation-queue.ts:530-590 | Claiming every deliverable receipt keeps the invariant |
| LifecycleQueries.SuppressKeeps | src/orchestration/invocation-queue.ts:592-633 | Suppressing queued deliveries that are no longer valid keeps the invariant |
| LifecycleQueries.SkipSleepersKeeps | src/orchestration/invocation-queue.ts:635-678 | Skipping queued work for sleep keeps the invariant |
| LifecycleQueries.CatchUpKeeps | src/orchestration/invocation-queue.ts:179-305 | Startup catch-up, which opens one batch for each of any number of conversations in one transaction, keeps the invariant |
| LifecycleQueries.EndTaskKeeps | src/store/long-tasks.ts:457-508 | Ending a task writes its one receipt and keeps the invariant |
| LifecycleQueries.CancelTaskKeeps | src/store/long-tasks.ts:510-580 | Cancelling a task, or its pending receipt, keeps the invariant |
| LifecycleHandover.LaunchKeeps | src/orchestration/scheduler.ts:240-297 | Launching with its opening round keeps the invariant, one run per chat included |
| LifecycleHandover.ClaimQueuedKeeps | src/orchestration/invocation-queue.ts:730-764 | A receipt that opens its own invocation keeps the invariant |
| LifecycleHandover.ClaimAttachedKeeps | src/orchestration/invocation-queue.ts:730-764 | A receipt handed to the live run of its conversation keeps the invariant |
| LifecycleHandover.ReleaseStepKeeps | src/orchestration/invocation-queue.ts:451-520 | Releasing one unread batch, its carried claim moved to the new invocation, keeps the invariant |
| LifecycleHandover.FinishKeeps | src/orchestration/scheduler.ts:322-383 | The end of a run keeps the invariant |
| LifecycleRounds.TakenAndLeft | src/orchestration/conversation-runtime.ts:147-162 | What a turn boundary takes and what it leaves are together everything that was waiting |
| LifecycleRounds.InjectPendingKeeps | src/orchestration/agent-runtime.ts:540-563 | Steering the waiting batches keeps the invariant |
| LifecycleRounds.UserMessageEndKeeps | src/orchestration/agent-runtime.ts:866-875 | Acknowledging the batch whose user message reached the transcript keeps the invariant |
| LifecycleRounds.FreeAgentKeeps | src/orchestration/agent-runtime.ts:565-573 | A finished round pushes the collecting deadline and keeps the invariant |
| LifecycleDrops.SuppressIsDrop | src/orchestration/invocation-queue.ts:592-633 | Suppressing one receipt with its invocation is dropping every receipt of that invocation |
| LifecycleDrops.SealKeeps | src/orchestration/scheduler.ts:340-383 | Closing what the ended run held keeps the invariant |
| LifecycleDrops.ExpireKeeps | src/orchestration/bot-commands.ts:204-240 | Expiring the open work of a pause or a cancellation keeps the invariant |
| LifecycleDrops.RestartKeeps | src/orchestration/invocation-queue.ts:114-177 | Ending what a dead process left running, claims included, keeps the invariant |
| LifecycleDrops.RestartEnds | src/orchestration/invocation-queue.ts:114-177 | After that nothing runs, nothing is claimed and memory is empty |
| LifecycleDrops.RecoverKeeps | src/orchestration/invocation-queue.ts:114-177 | Recovery with its expiry of stale work keeps the invariant |
| LifecycleRestart.BatchRestarts | src/orchestration/invocation-queue.ts:114-177 | After a restart a collecting batch is expired exactly when more than five minutes old; so is a queued one, unless its invocation carried a claim, and then it is aborted whatever its age; a running one is closed as unknown exactly when some invocation it was attached to is, and as aborted otherwise |
| LifecycleRestart.InvocationRestarts | src/orchestration/invocation-queue.ts:114-177 | A running invocation ends as unknown exactly when its side effect had started; a queued one is aborted exactly when claimed or with its expired batch |
| LifecycleRestart.EarlierRunDecides | src/orchestration/invocation-queue.ts:120-135 | In a good state with a batch that was released by a run that ended unknown, a restart closes the batch as unknown although its own run had sent nothing |
| LifecycleRestart.RestRestarts | src/orchestration/invocation-queue.ts:114-177 | Every claimed receipt becomes handled, memory is empty, and nothing else changes or appears |
| LifecycleArrivals.MessageOpens | src/ingress/telegram-ingestion.ts:450-534 | A message opens a batch exactly when an eligible human wrote it, no gate holds it, its chat is not paused and its conversation is not collecting; the batch then collects for one window |
| LifecycleArrivals.TaskStarts | src/store/long-tasks.ts:333-395 | A task is created once, waiting |
| LifecycleArrivals.TaskEnds | src/store/long-tasks.ts:457-508 | A waiting task that ends leaves one receipt, pending exactly where its user is to be notified |
| LifecycleArrivals.TaskCancels | src/store/long-tasks.ts:510-580 | Cancelling ends a waiting task quietly or silences a pending receipt, and touches no other |
| LifecycleArrivals.TimersRing | src/store/long-tasks.ts:582-625 | A tick ends exactly the waiting tasks whose time has come, each with a pending receipt |
| LifecycleArrivals.ReceiptsMeet | src/orchestration/invocation-queue.ts:530-590 | A tick drops every pending receipt whose conversation is blocked, claims the others for the live run or for a new invocation, and leaves those that wait for sleep, a closing run or another run of the chat; each as if it were the only one |
| LifecycleArrivals.CatchUpRows | src/orchestration/invocation-queue.ts:179-305 | Startup catch-up gives each conversation one batch, queued exactly where the chat is configured, awake, not paused and not gated |
| LifecycleEnds.InvocationEnds | src/orchestration/scheduler.ts:322-383 | The invocation ends as reported and no other changes |
| LifecycleEnds.ReceiptsEnd | src/orchestration/scheduler.ts:322-383 | A claim of the ended run is handled, unless the run never read its batch: then it moves to the invocation that opens with the batch, or is suppressed where the batch was cancelled; no other receipt changes |
| LifecycleEnds.DeadlinesEnd | src/orchestration/scheduler.ts:322-383 | Batches of the chat that still collect wait at least until the end of the run and a window from its start |
| LifecycleEnds.EndTouches | src/orchestration/scheduler.ts:322-383 | The end of a run touches its own memory, tables and receipts only, and opens new invocations only for running batches it never read |
| LifecycleEnds.PauseCancels | src/orchestration/bot-commands.ts:204-240 | Pausing cancels the undone work of that chat and of no other: collecting, queued and handed but unread batches, queued invocations, and their claims |
| LifecycleEnds.ResumeLifts | src/orchestration/bot-commands.ts:242-249 | Resuming lifts the pause of that chat and changes nothing else |
| LifecycleEnds.CancelCancels | src/ingress/admin/operations.ts:12-50 | Cancelling does so in every chat |
| LifecycleEnds.RecheckSilences | src/orchestration/invocation-queue.ts:592-633 | The recheck silences exactly the queued deliveries to conversations blocked now, and drops the invocations that were to make them |
| LifecycleEnds.SleepSkips | src/orchestration/invocation-queue.ts:635-678 | Sleep skips exactly the queued invocations without a claim exempt from the budget, with their batches |
| LifecycleTurns.DueFates | src/orchestration/invocation-queue.ts:307-449 | What a due tick makes of every batch, from the state before it: put off by a window mid-round, left while closing, skipped where unconfigured or asleep, handed to the run, or queued |
| LifecycleTurns.DueRemembered | src/orchestration/invocation-queue.ts:377-431 | A batch handed to a run waits in its memory |
| LifecycleTurns.LaunchStarts | src/orchestration/scheduler.ts:240-297 | With room, the first startable invocation starts, receipts before other work and then the oldest, with its batch and nothing else |
| LifecycleTurns.BoundaryTakes | src/orchestration/conversation-runtime.ts:147-162 | A turn boundary takes every waiting user batch in order and leaves the receipts; with none waiting, the oldest receipt where allowed |
| LifecycleTurns.BoundarySteers | src/orchestration/agent-runtime.ts:540-563 | What was taken is steered in order, one message each |
| LifecycleTurns.MessageRead | src/orchestration/agent-runtime.ts:866-875 | The message steered longest ago is the one that ended; its batch is written once and acknowledged where the run holds it |
| LifecycleTurns.BarrierHolds | src/orchestration/agent-runtime.ts:343-390 | A reply is held exactly when the run is open, nothing is completing, no user batch waits, the barrier is unspent and a batch is collecting; that batch is then handed over |
| LifecycleTurns.AgentFreed | src/orchestration/agent-runtime.ts:565-573 | A finished round clears its flags and gives the collecting batch a full window from then |
| LifecycleTurns.HooksRecord | src/orchestration/agent-runtime.ts:757-790 | A nudge is one more message to be read, closing is remembered, and a side effect is recorded on the run of the conversation |
| InvocationQueue.InvocationQueueService.AttachBucketToInvocation | src/orchestration/invocation-queue.ts:71-92 | The rows after the call are those of one attached batch |
| InvocationQueue.InvocationQueueService.AttachBucket | src/orchestration/invocation-queue.ts:377-431 | False exactly when the run cannot take the batch; the state after is the one the decision calls for |
| InvocationQueue.InvocationQueueService.DeferBucket | src/orchestration/invocation-queue.ts:433-449 | Only a deadline that is too early moves |
| InvocationQueue.InvocationQueueService.QueueBucket | src/orchestration/invocation-queue.ts:766-796 | The batch is queued under a new invocation, or skipped while paused, unconfigured or asleep |
| InvocationQueue.InvocationQueueService.HandleDue | src/orchestration/invocation-queue.ts:337-372 | One due batch is decided and applied |
| InvocationQueue.InvocationQueueService.ProcessDue | src/orchestration/invocation-queue.ts:307-375 | The loop over the due rows, in deadline order, leaves the state of the fold over the rows still valid when reached |
| InvocationQueue.InvocationQueueService.InsertInvocation | src/orchestration/invocation-queue.ts:798-828 | A new queued invocation joined to its opening batch |
| InvocationQueue.InvocationQueueService.InsertReceiptInvocation | src/orchestration/invocation-queue.ts:730-764 | The receipt is claimed by a new invocation, or by the live run through its memory queue |
| InvocationQueue.InvocationQueueService.HandleReceipt | src/orchestration/invocation-queue.ts:540-586 | One receipt is dropped, left waiting, delivered to the live run or given an invocation |
| InvocationQueue.InvocationQueueService.ProcessTasksDue | src/orchestration/invocation-queue.ts:530-590 | Due timers end first, then every pending receipt is handled in creation order |
| InvocationQueue.InvocationQueueService.EndDueTimers | src/store/long-tasks.ts:582-625 | Every due task finishes with a pending receipt |
| InvocationQueue.InvocationQueueService.SuppressInvalidQueuedReceipts | src/orchestration/invocation-queue.ts:592-633 | Every queued delivery is looked at again before launch |
| InvocationQueue.InvocationQueueService.SkipQueuedInvocations | src/orchestration/invocation-queue.ts:635-678 | Every queued invocation sleep does not exempt is skipped with its batches |
| InvocationQueue.InvocationQueueService.ReleaseUninjectedBuckets | src/orchestration/invocation-queue.ts:451-520 | The loop over the unread batches leaves the state of the fold |
| InvocationQueue.InvocationQueueService.Recover | src/orchestration/invocation-queue.ts:114-177 | The set-oriented updates and the loop over stale rows reach the modelled restart, whose effect on every row `LifecycleRestart` states |
| Scheduler.BucketScheduler.Candidate | src/orchestration/scheduler.ts:255-279 | The launchable invocation that comes first: receipts, then queue order; none exactly when nothing can start |
| Scheduler.PreparedLeaves | src/orchestration/invocation-queue.ts:592-678 | Before a candidate is looked for, exactly those invocations stay queued, as they were, none of whose claims is blocked and, under sleep, one of whose claims is exempt |
| Scheduler.BucketScheduler.LaunchQueued | src/orchestration/scheduler.ts:240-297 | The loop starts candidates one by one until the limit is reached or nothing can start; each turn reads the clock, the policies and the limit anew |
| Scheduler.LaunchesKeep | src/orchestration/scheduler.ts:240-297 | However many candidates that loop starts, and whatever each turn reads, the invariant holds after it, one run per chat included |
| Scheduler.BucketScheduler.EndRun | src/orchestration/scheduler.ts:322-383 | Ending the invocation, releasing its unread batches, closing the rest and settling claims, in the order of the transaction, is the modelled end of a run |
| Scheduler.ReleaseCommutes | src/orchestration/scheduler.ts:326-341 | Ending the invocation before the release gives the same rows as after it |
| AgentRun.Run.TakeNextInjections | src/orchestration/conversation-runtime.ts:147-162 | Every waiting user batch, or else between rounds one receipt, leaves the queue; the rest keeps its order |
| AgentRun.Run.InjectPending | src/orchestration/agent-runtime.ts:540-563 | What was taken is steered in order, one user message each |
| AgentRun.Run.HoldForNewMessages | src/orchestration/agent-runtime.ts:343-390 | True exactly when the reply has to wait, and then the state is that of the barrier |
| AgentRun.Run.FreeAgent | src/orchestration/agent-runtime.ts:565-573 | Flags clear and the collecting batch gets a full window |
| AgentRun.Run.UserMessageEnd | src/orchestration/agent-runtime.ts:866-875 | The oldest tag names the message that ended; its batch is acknowledged once |
| ContextCodec.RoundTrip | src/context/context-codec.ts:149-263 | A stored row decodes to a message that is stored as the same row again |
| ContextCodec.ContentKept | src/context/context-codec.ts:149-277 | What comes back from storage: an assistant turn and a plain text unchanged; a user message or tool result with exactly its texts, in order and without signatures, and its other fields |
| ContextCodec.ShapeKept | src/context/context-codec.ts:149-263 | Role, issued calls and answered call survive storage |
| ContextCodec.NotStored | src/context/context-codec.ts:149-239 | Exactly the failed assistant turns and the messages with nothing to read are not stored |
| ContextGc.IsRenderable | src/context/context-gc.ts:126-149 | The one-pass check with a set of open calls computes the protocol shape |
| ContextGc.AcceptsMeans | src/context/context-gc.ts:126-149 | That shape by positions: every tool result answers an earlier call of its id not consumed in between |
| ContextGc.AnsweredMeans | src/context/context-gc.ts:126-149 | For a whole history the two agree: the loop accepts exactly the histories whose every result has an open call |
| ContextGc.CutKeeps | src/context/context-gc.ts:47-100 | Cutting a renderable history at a user message keeps the shape exactly when no later result answers an earlier call |
| ContextGc.CutAtRest | src/context/context-gc.ts:47-100 | So a cut at a user message with no open call keeps it |
| ContextGc.PlanContextGc | src/context/context-gc.ts:47-100 | A plan exists exactly when collection is due and a checkpoint above the head can be cut to; its target and counts are those of the specification |
| ContextGc.TargetMeans | src/context/context-gc.ts:47-100 | The target is the newest checkpoint that keeps the wanted sends (within the soft budget under pressure), otherwise the last checkpoint |
| ContextGc.FewerTokens | src/context/context-gc.ts:106-118 | A later cut never leaves more tokens |
| ContextStore.EvictedStays | src/context/context-store.ts:129-255 | No append, advance, clear or reference, through any handle, brings an evicted row back |
| ContextStore.NeverReadAgain | src/context/context-store.ts:175-290 | An evicted row is in no window, no retained list and no statistics of any handle, however stale its head |
| ContextStore.AppendKeeps | src/context/context-store.ts:129-173 | Appending keeps rows dense, evicted exactly below the head, sends counted and references in range |
| ContextStore.AdvanceKeeps | src/context/context-store.ts:212-236 | So does advancing the head, with the references below it deleted |
| ContextStore.ClearKeeps | src/context/context-store.ts:238-255 | So does clearing |
| ContextStore.SendsInOrder | src/context/context-store.ts:129-173 | Send numbers run from one to the total, in the order of the rows |
| ContextStore.RefsKeep | src/context/context-refs.ts:48-143 | Minting or reusing a media, sticker or reply reference keeps every reference between head and next |
| ContextStore.ResolveAgrees | src/context/context-refs.ts:145-171 | With one live handle the check in `resolve` never fires: deletion on advance already agrees with it |
| ContextStore.ResolvesInWindow | src/context/context-refs.ts:145-171 | A reference resolves only while its row is in the window or still to be written |
| ContextStore.MediaRefResolves | src/context/context-refs.ts:48-82 | A media reference just handed out, minted or reused, resolves to its own media |
| ContextStore.AdvancedWindow | src/context/context-store.ts:185-236 | After an advance the window is the old one from the target on |
| ContextStore.PlanPredicts | src/context/context-gc.ts:80-100 | The counts a plan predicts are those `stats` reports after the advance |
| ContextRecords.AppendedLast | src/context/context-store.ts:129-173 | An appended message is the last of the window, with its checkpoint mark, send number and tokens, and is read back as stored |
| ContextRecords.AdvanceDrops | src/context/context-store.ts:212-236 | Moving the head evicts exactly the rows below it and deletes exactly the references below it |
| ContextRecords.ClearDrops | src/context/context-store.ts:238-255 | Clearing evicts every visible row, deletes every reference and forgets no row |
| ContextRecords.MessagePersisted | src/orchestration/agent-runtime.ts:1051-1079 | A finished message is kept in memory as it is, and is the last row of the store, with its marks, when it is stored at all |
| ContextRecords.RunKeepsTranscript | src/orchestration/agent-runtime.ts:913-940 | A transcript is kept for the next run exactly when the run did not fail and did not lose its topic |
| ContextRecords.StickerRefResolves | src/context/context-refs.ts:84-105 | A sticker reference resolves to its sticker until it expires, and to nothing else |
| ContextRecords.ReplyRefResolves | src/context/context-refs.ts:107-143 | A reply reference resolves to the conversation and thread of its message until it expires |
| ContextRecords.MediaRefReused | src/context/context-refs.ts:48-82 | A media reference is minted only when no live one names the medium, and handed out again otherwise |
| ContextRecords.CollectsWhen | src/context/context-gc.ts:40-100 | Collection is due only with more visible sends than allowed, or when prompt and answer reach the hard share of the context window, and then happens whenever a target leaves a renderable transcript |
| ContextRecords.TargetFits | src/context/context-gc.ts:55-80 | Under token pressure the target fits four fifths of the hard share |
| Transcript.CacheFaithful | src/orchestration/agent-runtime.ts:993-1145 | Over every run of opens, messages, collections, cuts, evictions and ends, a held entry has as many numbers as messages, its written numbers are exactly the window, and seeding again from the history gives the cached transcript without its unwritten entries |
| Transcript.NextValid | src/orchestration/agent-runtime.ts:993-1145 | Each of those steps keeps the entry in agreement with the history, a run that lost its entry included |
| Transcript.PersistKeeps | src/orchestration/agent-runtime.ts:1051-1079 | Writing one message keeps the agreement |
| Transcript.CollectKeeps | src/orchestration/agent-runtime.ts:1105-1145 | Moving head, rows and transcript together keeps it |
| Transcript.Reseeded | src/orchestration/agent-runtime.ts:1019-1049 | An agreeing entry projected through storage is the retained history |
| Transcript.PlanIsApplicable | src/orchestration/agent-runtime.ts:1105-1145 | A plan's target is a written message above the head, so the store accepts it |
| Transcript.WindowRenderable | src/orchestration/agent-runtime.ts:993-1017 | For an entry that agrees with the history, the stored window is renderable exactly when the first written message is a user's and every tool result answers a call that was written |
| TranscriptRuns.NextInStep | src/context/context-store.ts:129-255 | Every step keeps the rows dense, evicted exactly below the head and their sends counted, and no step but a changed prompt takes the head or the next number back |
| TranscriptRuns.HeadForward | src/context/context-store.ts:129-255 | The same over every run, a run detached by a topic cut included |
| TranscriptRuns.ReferenceInRange | src/context/context-refs.ts:48-143 | A reference a run hands out keeps all references in range exactly when the run did not lose its topic or a row has been written since |
| TranscriptRuns.SoundOverRuns | src/context/context-store.ts:129-255 | So the whole history, references included, stays sound over every run whose references meet that condition |
| TranscriptRuns.SoundFromStart | src/context/context-store.ts:77-255 | In particular in every state a new conversation can reach |
| TranscriptRuns.WindowOverRuns | src/orchestration/agent-runtime.ts:980-1079 | Over every run, detached runs, collections and repairs included, the stored window is empty or renderable exactly when the first message ended since its head and every call a tool result answers were written |
| TranscriptRuns.WindowFromStart | src/orchestration/agent-runtime.ts:980-1079 | In particular in every state a new conversation can reach |
| TranscriptRuns.MessageBreaksWindow | src/orchestration/agent-runtime.ts:1051-1079 | One message breaks the shape exactly when it is stored and is a tool result no call of the window waits for, or anything but a user's message in an empty window |
| TranscriptRuns.CutLeavesResult | src/orchestration/bot-commands.ts:260-311 | A topic cut during a run, before a tool result in flight: the window is left with that result alone, not renderable, until the next run repairs it |
| TranscriptRuns.UnwrittenCallBreaksWindow | src/orchestration/agent-runtime.ts:1051-1079 | In any run, a failed turn followed by the result of its call leaves a window that is not renderable under a transcript that is |
| Transcript.AlignedKeeps | src/orchestration/agent-runtime.ts:993-1017 | The repaired window is empty or renderable, and the head did not move back |
| TranscriptSeeding.WholeWindow | src/orchestration/agent-runtime.ts:993-997 | A window that is empty or renderable is used as it is: history, head, references and messages unchanged |
| TranscriptSeeding.FromFirstUser | src/orchestration/agent-runtime.ts:998-1006 | Otherwise, where the part from the first user message above the head is renderable, exactly that part is kept and seeded |
| TranscriptSeeding.NothingUsable | src/orchestration/agent-runtime.ts:1007-1016 | Otherwise the window is dropped |
| TranscriptSeeding.ReopeningKeeps | src/orchestration/agent-runtime.ts:993-1049 | After any run, reopening with an unchanged prompt leaves a usable window as it is, in the store and in memory |
| Transcript.CreatedAgrees | src/orchestration/agent-runtime.ts:1019-1049 | A freshly seeded entry agrees with the history and is renderable or empty |
| ContextService.ConversationContextStore.Open | src/context/context-store.ts:77-122 | Created on first use, started over when the stable prompt changed, otherwise as stored |
| ContextService.ConversationContextStore.AppendMessage | src/context/context-store.ts:129-173 | Refused when the number is taken; otherwise one row, the handle advanced with it |
| ContextService.ConversationContextStore.AdvanceTo | src/context/context-store.ts:212-236 | Refused outside the window; otherwise rows and references below the target go |
| ContextService.AgentRuntime.PersistMessage | src/orchestration/agent-runtime.ts:1051-1079 | The in-place update of store, handle and entry is the modelled step |
| ContextService.AgentRuntime.MaybeCollect | src/orchestration/agent-runtime.ts:1105-1145 | Collects exactly when the plan does, and then cuts store and transcript at the same place; otherwise nothing changes |
| ContextService.AgentRuntime.AlignedRetained | src/orchestration/agent-runtime.ts:993-1017 | The calls on the store reach the modelled repair (`TranscriptSeeding`), and what is returned is the retained window after it, empty or renderable |
| ContextService.AgentRuntime.CreateCachedAgent | src/orchestration/agent-runtime.ts:1019-1049 | The entry is seeded with exactly that window |
| AgentCache.ConversationRuntime.EvictOverflow | src/orchestration/conversation-runtime.ts:211-229 | Drops only agents no newer than any it keeps, never the spared one, no more than the bound asks for, and stops short of it only when that one is left |
| AgentCache.ConversationRuntime.Remember | src/orchestration/conversation-runtime.ts:57-62 | Stores the agent in its state or a new one, leaves the others, and enforces the bound without dropping it |
| ConfigDiff.DeepEqualMeans | src/platform/config-diff.ts:113-128 | Structural comparison is equality of values, whatever the key order |
| ConfigDiff.Selects | src/platform/config-diff.ts:359-416 | At every path where the sides part, the candidate has the active value on a restart path and the file's on any other |
| ConfigDiff.MergeTwice | src/platform/config-diff.ts:393-416 | Merging the result with the same file again changes nothing |
| ConfigDiff.ChangedAgain | src/platform/config-diff.ts:359-416 | Comparing the result with the same file again reports exactly what waits for a restart |
| ConfigDiff.NothingPending | src/platform/config-diff.ts:359-416 | With no restart change the result is the file |
| ConfigDiff.NothingApplied | src/platform/config-diff.ts:359-416 | With only restart changes the result is the active value |
| ConfigConverges.CandidateTwice | src/platform/config-diff.ts:103-111 | The candidate of a candidate and the same file is the candidate |
| ConfigConverges.CandidateLoaded | src/platform/config-diff.ts:348-357 | A candidate is itself a configuration a load could have produced |
| ConfigConverges.ChangesAgain | src/platform/config-diff.ts:103-111 | Over chats, providers, models and prompt texts too, the second comparison reports exactly the first one's restart changes |
| ConfigConverges.NoRestartIsFile | src/platform/config-diff.ts:103-111 | With none of those the candidate is the file up to the order of chats |
| ConfigConverges.ProvidersTakeFile | src/platform/config-diff.ts:281-346 | Providers and models always follow the file: none of their paths waits for a restart |
| ConfigReports.OnlyRestartIsActive | src/platform/config-diff.ts:103-346 | Where every reported change waits for a restart the candidate is the running configuration: nothing is applied unreported |
| ConfigMerge.MergeFieldInto | src/platform/config-diff.ts:359-391 | Writing one merged field into a record, and recording its change, is the pointwise selection |
| ConfigMerge.MergeRecord | src/platform/config-diff.ts:405-416 | Filling the record key by key gives the merged record and exactly its changes |
| ConfigMerge.Differ.MergeAllChats | src/platform/config-diff.ts:206-229 | The loop over chats gives the merged list and its changes |
| ConfigMerge.Differ.MergeChatRecord | src/platform/config-diff.ts:231-279 | One chat: every field, each setting and the instructions |
| ConfigMerge.Differ.MergeAllProviders | src/platform/config-diff.ts:281-315 | The loop over aliases gives the merged providers and their changes |
| ConfigMerge.Differ.NoteModels | src/platform/config-diff.ts:317-346 | The changes of one provider's models |
| ConfigMerge.Differ.DiffConfig | src/platform/config-diff.ts:103-111 | The whole walk computes the candidate and the kind of every changed path |
| ConfigReload.ApplyKeeps | src/platform/config-reload.ts:276-393 | A refused reload leaves what the process runs on; an accepted one keeps it valid and its pending list exact |
| ConfigReload.OutcomeMeans | src/platform/config-reload.ts:276-330 | A reload is applied exactly when the file may be read, loads, is valid together with the pending fields, its registry builds, its models are usable and its image snapshot prepares; a refusal names the first that fails |
| ConfigReload.PublishMeans | src/platform/config-reload.ts:331-393 | What an applied reload reports by kind, which hash it settles on, and that the candidate is published exactly when something applicable, the image or the hash changed |
| ConfigReload.SecondReloadIsQuiet | src/platform/config-reload.ts:276-393 | A second reload of an unchanged file publishes nothing and changes nothing |
| ConfigReload.PublishedIsFile | src/platform/config-reload.ts:276-393 | With nothing pending, a publishing reload leaves the process on exactly the file |
| ConfigReload.ConfigReloader.ApplyFile | src/platform/config-reload.ts:276-393 | The field updates of one reload are that step, refusals included |
| ConfigFile.AllStagesConsistent | src/platform/config-file.ts:68-151 | All four stages a write passes through are consistent exactly when the new text names no released entry and every other name was in the jar or added |
| ConfigFile.LastStage | src/platform/config-file.ts:143-150 | The stage a write without faults ends in is consistent under exactly that condition |
| ConfigFile.NothingDropped | src/platform/config-file.ts:143-149 | When loading stripped nothing, that holds for every text that names only known entries |
| ConfigFile.DroppedSectionLosesSecret | src/platform/config-file.ts:143-149 | It fails when the edit makes the image section invalid: the write goes through, and its last stage has lost a secret the text on disk still names |
| ConfigFile.EveryCrashConsistent | src/platform/config-file.ts:68-151 | At every point a crash can leave, the text is the old one or one that loads, and it names only entries the jar has |
| ConfigFile.VerdictMeans | src/platform/config-file.ts:68-144 | A write goes through exactly when nothing stands in its way, and otherwise reports the first step that did not |
| ConfigFile.AddedMeans | src/platform/config-file.ts:93-106 | Every entry an edit carries is added, with the value of the last edit that carries it |
| ConfigFile.Files.WriteConfigEdits | src/platform/config-file.ts:68-151 | The result says at which step the write ended, for every combination of faults; every disk it passes through is one of those stages; and a write whose clean-up does not fail ends in the last one, consistent exactly when the condition holds |
| ConfigFile.Files.UpdateKeyJar | src/platform/key-jar.ts:67-116 | Refuses a name already there and otherwise adds and removes exactly the named entries in one rename, with nothing to rename when nothing changed |
| ConfigFile.Files.ApplyEdits | src/platform/config-file.ts:94-106 | The new text, or none when an edit changes nothing, and the entries the edits carry |
| KeyJar.NamesAreRefs | src/platform/key-jar.ts:118-135 | A name is found exactly when a reference to it stands somewhere in the configuration |
| KeyJar.NameSet.Collect | src/platform/key-jar.ts:118-135 | The recursive walk adds exactly those names to the shared set |
| MessageHeaders.FormatSnapshot | src/context/context-builder.ts:625-673 | The pushed tokens and lines are the header and indented body of the layout, whose content `MessageContent` states |
| MessageHeaders.ParseLineMatches | src/context/context-builder.ts:744-776 | The parser accepts exactly the lines the expression matches, with the only groups there are |
| MessageHeaders.ParseLineFinds | src/context/context-builder.ts:744-776 | On a line that matches it returns those groups |
| MessageHeaders.HeaderReadsBack | src/context/context-builder.ts:625-776 | Whatever name, text and user name Telegram sent, a printed header reads back as its id, a non-negative sender id, a valid user name, and the name on one line |
| MessageContent.FormattedShows | src/context/context-builder.ts:625-673 | A printed message is a header line with id, time, topic, own mark, reply, sender and user name in that order, and, two blanks in, the forward line, the quote where it is shown, every line of text and caption, and one line per medium, or its kind alone |
| MessageContent.TextShown | src/context/context-builder.ts:650-659 | A message that is only a text gives that text back when its lines are joined |
| JsText.JoinSplit | src/context/context-builder.ts:655-659 | The pieces of a text, joined again, are the text |
| JsText.SingleLineWords | src/context/context-builder.ts:675-678 | On one line a text is its words with one blank between them |
| JsText.SplitAppend | src/context/context-builder.ts:753-776 | Splitting two texts joined by a separator splits each of them |
| JsText.SingleLineMeans | src/context/context-builder.ts:675-678 | A single line has no white space but single blanks between words |
| Injection.BatchReadsBack | src/context/context-builder.ts:274-455 | Whatever Telegram sent and the runtime block quotes, a rendered batch reads back as the headers of exactly its messages, in order |
| Injection.MessageReadsBack | src/context/context-builder.ts:625-673 | No body line of a printed message reads back as a header |
| Injection.OmissionSilent | src/context/context-builder.ts:274-455 | Nor does the line that counts omitted messages |
| Injection.FiguredSame | src/context/context-builder.ts:274-455 | Numbering attachments changes no header |
| Injection.ParseSnapshotLines | src/context/context-builder.ts:753-776 | The loop after the last runtime block returns the headers the text holds |
| Injection.CollectInjectedMessageIds | src/context/context-builder.ts:501-503 | Exactly the ids of the headers, each once, in the order they first appear |
| Injection.SelectRecent | src/context/context-builder.ts:274-455 | The longest run of newest messages that fits, the newest in any case where asked |
| Injection.RenderInjection | src/context/context-builder.ts:274-455 | What is rendered reads back as the headers of the shown messages, with at least the newest new one among them; what it says of them is in `MessageContent.RenderedSays` |
| MessageContent.BatchSays | src/context/context-builder.ts:274-455 | The lines of a batch are the runtime block, receipt and catalog where given, every message of the history, the count of omitted new messages, and every new message, section by section and nothing else |
| MessageContent.FiguredNumbers | src/context/context-builder.ts:274-455 | Attachments are numbered through all shown new messages, stickers left out, and nothing else about a message changes |
| MessageContent.RenderedSays | src/context/context-builder.ts:274-455 | What the renderer returns says all of that of the newest history and new messages it selected, with quotes shown unless the quoted message is in the batch |
| Concurrency.AsyncSemaphore.Acquire | src/platform/concurrency.ts:25-49 | Rejected when aborted, granted below the limit, otherwise queued by priority and arrival; active equals holders and waiters exist only at the limit |
| Concurrency.AsyncSemaphore.Release | src/platform/concurrency.ts:51-66 | The permit goes to the first waiter not aborted or is given back; none is lost |
| Concurrency.AsyncSemaphore.Abort | src/platform/concurrency.ts:25-49 | An aborted waiter leaves the queue and no permit moves |
| Concurrency.GrantsInOrder | src/platform/concurrency.ts:51-66 | The waiter a release picks comes before every other, by priority and then by arrival |
| Concurrency.KeyedSemaphore.OneHolder | src/platform/concurrency.ts:75-90 | At most one call holds a key, across every drop and re-creation of its semaphore |
| Concurrency.KeyedSemaphore.Acquire | src/platform/concurrency.ts:75-90 | A grant makes the caller the only holder; the key is then kept for nothing exactly when the call came too late and its key had no semaphore, or one kept for nothing |
| Concurrency.KeyedSemaphore.IdleMeans | src/platform/concurrency.ts:25-28 | A key in the map has an idle semaphore exactly when every call since it was made was rejected at once |
| Concurrency.KeyedSemaphore.Release | src/platform/concurrency.ts:75-90 | The key leaves the map exactly when its semaphore is idle, and other keys stay |
| Concurrency.KeyedSemaphore.Drop | src/platform/concurrency.ts:68-90 | The idle callback removes a semaphore only while the map still has it |
| Redaction.SecretStore.Redact | src/platform/secrets.ts:111-138 | The result marks every position any occurrence of a known value of at least six characters covers, overlaps included, and replaces each maximal covered run by one marker |
| Redaction.SecretStore.Remember | src/platform/secrets.ts:94-109 | The value becomes the newest and the oldest goes when there are too many |
| Redaction.SpansOf | src/platform/secrets.ts:111-126 | All occurrences are found, overlapping ones included |
| Redaction.Replace | src/platform/secrets.ts:126-138 | Merging sorted spans and cutting them out is masking position by position |
| Redaction.MaskRun | src/platform/secrets.ts:126-138 | A whole covered run becomes one marker |
| ToolSchemaReducer.FirstVariantType | src/platform/tool-schema.ts:90-104 | The type named by the first variant that names one |
| ToolSchemaReducer.ReduceSchemaNode | src/platform/tool-schema.ts:106-143 | Filling a fresh record entry by entry is the reduction |
| ToolSchema.ReducedLookup | src/platform/tool-schema.ts:106-143 | What each key of a reduced object holds |
| ToolSchema.ReduceTwice | src/platform/tool-schema.ts:106-143 | Reduction is idempotent |
| SchemaPositions.PositionsKept | src/platform/tool-schema.ts:106-143 | Reduction keeps every position where a schema stands, adds none, and reduces the schema there |
| SchemaPositions.Foldable | src/platform/tool-schema.ts:62-87 | No dropped or alternative keyword is left at any schema position |
| SchemaPositions.KeywordsKept | src/platform/tool-schema.ts:106-138 | Every other keyword stays: its value where it holds no schema (`required` included), its names in order under `properties`, even names spelled like keywords |
| SchemaPositions.TypeKept | src/platform/tool-schema.ts:139-141 | A type is added only where none stood, and then it is that of the first typed variant |
| ToolSchemaMeaning.Weakens | src/platform/tool-schema.ts:106-143 | Where no type is added, no `patternProperties` is dropped beside `additionalProperties`, and every reference leads to a schema position (or its schema accepts nothing anyway), every accepted value stays accepted |
| ToolSchemaMeaning.WithoutUnionsWeakens | src/platform/tool-schema.ts:150-152 | In particular for a whole schema without `anyOf` and `oneOf` |
| ToolSchemaMeaning.UnionNarrows | src/platform/tool-schema.ts:62-71 | A union of types loses no value exactly when its first type covers every other |
| ToolSchemaMeaning.PatternNarrows | src/platform/tool-schema.ts:41-60 | A closed object with patterns loses a value exactly when some name matches |
| SchemaPositions.OutOfReach | src/platform/tool-schema.ts:120-122 | What a path led to is gone from the reduced schema exactly when the path enters a dropped keyword or alternatives from a schema position |
| ToolSchemaMeaning.DanglingReference | src/platform/tool-schema.ts:120-122 | A schema whose reference has such a path accepts nothing once reduced, whatever else it says |
| ToolSchemaMeaning.ReferencesNarrow | src/platform/tool-schema.ts:106-143 | Where only references can be lost, values are lost exactly when some schema with a lost reference accepts one |
| ToolSchemaMeaning.ReferringLoses | src/platform/tool-schema.ts:120-122 | The smallest such schema loses exactly what the dropped keyword lets through |
| SendLimit.WindowHolds | src/capabilities/send-tool.ts:309-366 | In every run, over all conversations, purges and changes of the limit, a closed interval holds at most as many sends of a chat as the limit in force at the last of them, if it is no longer than the window of that limit less the drift of the two clock readings |
| SendLimit.LargestLimit | src/capabilities/send-tool.ts:309-366 | So an interval no longer than any window in force in it, less that drift, holds at most the largest limit in force in it |
| SendLimit.WindowExact | src/capabilities/send-tool.ts:310-328 | Under one limit, intervals as long as the whole window keep it exactly when both readings are one |
| SendLimit.OneTooMany | src/capabilities/send-tool.ts:310-328 | With readings a millisecond apart a window can hold one send too many |
| SendLimit.CountsAll | src/store/database.ts:285-301 | The retention purge never changes a count: it is as if every send were still on record |
| SendLimit.BurstFills | src/capabilities/send-tool.ts:328-334 | A chat may use up its whole limit at once |
| SendTool.SendStore.RecentSendCount | src/capabilities/send-tool.ts:557-571 | The query over the table counts the live sends of the chat in the window |
| SendTool.SendStore.AdmitSend | src/capabilities/send-tool.ts:309-366 | Admitted exactly below the limit; then one pending row for this tool call, otherwise the call is marked rate limited and no row is written |
| SendTool.SendStore.Deliver | src/capabilities/send-tool.ts:384-470 | However often it is retried, the send keeps its one row; the outcome recorded is that of the first attempt not repeated |
| SendTool.SettledMeans | src/capabilities/send-tool.ts:430-470 | The outcome is unknown exactly when the send may have arrived without an answer, success exactly with the returned message, and otherwise an error with its reason |
| SendTool.RetriedMeans | src/capabilities/send-tool.ts:418-433 | An attempt is repeated exactly when Telegram asked to wait, the wait ends before the deadline, and neither an abort nor a new message comes in between |
| SendTool.SendStore.PurgeSends | src/store/database.ts:285-301 | The purge removes exactly the given rows |
| Truncation.TruncateUtf8 | src/platform/truncate.ts:8-24 | Short input unchanged; otherwise the longest fitting whole-code-point prefix, as decoded, and the marker; a marker too long is cut at a byte. More than `maxBytes` exactly when that cut leaves one or two bytes of a code point |
| Truncation.MarkerCut | src/platform/truncate.ts:14-16 | Bytes of a marker cut anywhere decode to its whole code points and one replacement character for the rest |
| Truncation.AsciiCut | src/platform/truncate.ts:6-16 | An ASCII marker, such as the default one, is cut at its characters and the result always fits |
| Truncation.WholeSequence | src/platform/truncate.ts:22-23 | A byte sequence is the shortest form of a code point exactly when the decoder takes it as a whole |
| Truncation.PrefixKept | src/platform/truncate.ts:22-23 | That decoded prefix is the prefix itself exactly when it has no lone surrogate and no byte order mark in front |
| Truncation.MarkIsLost | src/platform/truncate.ts:22-23 | A byte order mark in front is lost as soon as its three bytes fit |
| Truncation.DecodeEncode | src/platform/truncate.ts:22-23 | Decoding an encoded text gives it back with lone surrogates replaced |
| Truncation.StartsRune | src/platform/truncate.ts:18-21 | A byte that continues nothing starts a code point |

## Left out

- LifecycleResults.InjectedOnce: counts a batch as injected when its user message reaches the transcript; what the agent library does with a steered message after an abort is not modelled.
- Truncation.TruncateUtf8: texts are sequences of code points, a surrogate without its partner being one of its own.
- ToolSchemaMeaning.Weakens: validation vocabulary is JSON Schema 2020-12; keywords that look only at their own value are left open, `$dynamicRef`, `$anchor` and the dialect named by `$schema` are not modelled, and a chain of references is followed to any fixed depth.
- ToolSchemaReducer.ReduceSchemaNode: a key named `__proto__`, which JavaScript would assign to the record's prototype, is treated like any other key.
- SendTool.SendStore.AdmitSend: the conversation written to is one of the run's own chat, chat migration is not modelled, and the checks before the transaction (input, deadline, barrier) are not repeated.
- Redaction.SecretStore.Redact: texts are sequences of UTF-16 units; sorting of spans is modelled by insertion.
- LifecycleMeanwhile.LateEndKeeps: a pause or a cancellation between the two halves, which also cancels batches already handed to a run, and a restart, after which there is no second half, are not among the steps in between.
- ContextGc.PlanContextGc: the token ratio is an exact real number, without floating-point rounding.
- ConfigFile.Files.WriteConfigEdits: parsing, editing and validating the text are left open as functions; files are replaced whole by a rename, and a crash inside a rename is not modelled.
- Injection.RenderInjection: the filter of history messages already injected is done by the caller; texts of the runtime block, times and attachment labels are given strings.
- MessageHeaders.HeaderReadsBack: a user name that is not a valid Telegram user name, and a negative sender id, are printed but not promised to read back.
- ConfigConverges.NoRestartIsFile: the change report is a map from path to kind, without the sorted order in which it is listed.
- AgentCache.ConversationRuntime.EvictOverflow: waiting for an injection and its timers are left out.
- Ingestion of a message into its bucket: sequence numbers, adoption of other bots' messages, edits and migrations are left out; opening a bucket and its deadline are modelled.
- Audit columns, error codes, model calls, tool registries, budgets, sleep arithmetic and participation windows are left out, or are parameters of a step.
- Task quotas, delivery policies and JSON payloads of long tasks are left out.
- Pausing a chat also aborts its runs: the abort is the end of a run at some later step.
- Purges other than that of send rows, migrations, search and backups are left out.
- Telegram, model providers, MCP transports and the agent library itself are left out: each call succeeds, fails or never returns.
- The admin panel, terminal interface, documentation, sticker and image services and command menus are left out.
- `applyToolSchemaKeywords` is left out: it maps the reduction over the tools of a request, or returns them as they are.
