# Mokei protocol verification

A Dafny model of the in-process protocols of Mokei, an MCP toolkit, with proofs of what they promise over every
interleaving of frames, promises, timers and failures. Each protocol is a state with atomic steps, one step per
synchronous stretch of the program; promises, timers and transport writes that are outstanding are part of the state,
and histories record what was accepted, started, written or delivered. Objects that update their fields are classes
whose methods are proved to take exactly those steps.

| file | protocol |
|---|---|
| `SummaryCache.dfy`, `CacheRefinement.dfy`, `TraceQueue.dfy`, `TraceRecorder.dfy` | the write-behind trace recorder: summary cache, bounded queue, and the recorder object over both |
| `TraceReader.dfy` | paging over the trace index and the recorder's memory as one list |
| `ReconciledQuery.dfy` | a client list kept current from one snapshot and a stream of events |
| `SubscriptionDriver.dfy` | the client's subscription stream: generations, mutation queue, reconnection |
| `RequestScheduler.dfy`, `RpcRequests.dfy` | bounded request handling, held responses and cancellation (JSON-RPC 2.0) |
| `ExchangeRegistry.dfy` | settlement of outbound exchanges |
| `SubscriptionWriter.dfy` | the server's serialised notification writer |
| `SubscriptionHub.dfy` | the server's registry of subscriptions and its fan-out |
| `JsonPointer.dfy`, `HeaderWalk.dfy`, `HeaderRules.dfy` | the `x-mcp-header` schema walk (RFC 6901 pointers, RFC 9110 tokens) |
| `TaskWaiter.dfy` | callers sharing one task entry |
| `Forest.dfy`, `SpanTree.dfy`, `SpanTreeBuilder.dfy` | the span tree of the trace view |
| `TraceMerge.dfy` | the trace view's merge of snapshots and live pieces |
| `Histories.dfy` | the history of an object: the actions that led from its first state to the present one |
| `Options.dfy` | the optional value and facts about sets used throughout |

`dafny verify dfyconfig.toml` checks the whole project.

## What the proofs found

- **A late loss check forgets a rooted trace** (`packages/app-node/src/trace-recorder.ts:370-384`). A delta refused at
  the hydration limit starts an index lookup; if the lookup finds nothing, the trace is remembered as unrooted. When
  the root of that trace starts between the refusal and the delivery of the answer, the trace is marked although it has
  a root, and while it is not in memory its later deltas are dropped without being counted. `RefinesExactlyIfRecorded`
  says for every run without a counted loss when the summary is the direct result; the refinement from construction
  asks that no lookup that found nothing is delivered for a trace that has a summary by then, and
  `LateCheckForgetsRootedTrace` is the run that breaks it.
- **A flush can hang** (`packages/context-server/src/subscriptions.ts:145-148`, `188-203`). If a writer has been aborted
  or has overflowed while a write is in flight and that write is then rejected, the early return leaves the flush
  promise pending for good although nothing is pending. `FlushSettlesUnlessLate` says exactly when.
- **A reused subscription key loses the newer stream** (`packages/context-server/src/subscriptions.ts:280-291`). Removal
  goes by connection and request id, not by registration: if a key is registered again while its first registration is
  live, ending the first takes the second out of the registry. `EndingTakesOnlyItself` and `LiveSubscriptionLostIff` say
  exactly when, and `SharedKeyLosesTheNewer` is such a run.
- **A reused subscription key calls back after the end** (`packages/context-server/src/subscriptions.ts:286-287`,
  `395-419`). The same removal clears the timer of the registration the key leads to, not that of the one that ended. If
  a timed registration is completed or closed after its key was registered again, its timer stays armed, and when it
  fires the entry is called although it has ended: a second time after completion (`SharedKeyCallsTwice`), and with a
  completion that closing rules out (`SharedKeyCallsClosed`). `EndingKeepsTimerIff`, `CalledAfterEndIff` and
  `CalledTwiceIff` say exactly when. Request ids are not reused within a session, so a conforming peer avoids both.
- **Dotted paths are ambiguous** (`packages/context-protocol/src/x-mcp-header.ts:127`). Claims are keyed by the path joined
  with dots, so a property `a.b` and a property `b` inside `a` that carry the same header name count as one declaration
  and only the first path is mirrored. `MirroredIffUnambiguous` says exactly when every annotated path is mirrored, and
  `AmbiguousSchemaExists` is the schema.
- **A withdrawn input is not asked for again** (`packages/context-client/src/task-waiter.ts:389`). An input that a
  snapshot stops listing while its handler runs is never answered by this entry, even if a later snapshot lists it
  again. `AnsweredIffListedThroughout` says exactly when a fulfilled input is answered, and `WithdrawnInputIsForgotten`
  is a run from a new entry in which one is not.
- **A waiter can return what it was never told** (`packages/context-client/src/task-waiter.ts:109`). A status taken in by
  a read is reported to the caller that read, not to the others, so a caller can return a result whose status its own
  callback never got. `UpToDateIffTold` says exactly when a caller's last report is current, and `ReturnsUntold` is a run.

## Model

| member | source | states |
|---|---|---|
| `CacheRefinement.LosslessRecorderRefinesDirectUpdates` | `packages/app-node/src/trace-recorder.ts:182-341` | From construction, over every interleaving of span reports, dropped entries, index reads, loss checks and commits: if no loss was counted, no check is still out and no check came back empty for a trace that has a summary by then, every trace whose root started at any point of the run shows exactly what its events from there on give, applied directly to its summary at that start |
| `CacheRefinement.NewTraceRefinesDirectUpdates` | `packages/app-node/src/trace-recorder.ts:182-341` | In such a run a trace unknown to index and recorder that begins with its root shows exactly what all of its events give, applied directly to the empty summary |
| `CacheRefinement.IndexedTraceRefinesDirectUpdates` | `packages/app-node/src/trace-recorder.ts:244-341` | In such a run every trace the index held at construction shows exactly what its events give, applied directly to its row |
| `CacheRefinement.RefinesExactlyIfRecorded` | `packages/app-node/src/trace-recorder.ts:244-288` | Over any run without a counted loss, late checks or not, a trace with a summary ends up with the direct result of its events if and only if each of them found the trace in memory, or a pending record or room for one |
| `CacheRefinement.RootStartGivesSummary` | `packages/app-node/src/trace-recorder.ts:187-201` | A root start that costs no counted loss always leaves its trace with a summary: the start applied to the summary it had, or else to all the deltas held for it |
| `CacheRefinement.RunKeepsUnrooted` | `packages/app-node/src/trace-recorder.ts:343-349` | In every such run a trace remembered as unrooted has no summary |
| `CacheRefinement.LosslessRunRefinesDirectUpdates` | `packages/app-node/src/trace-recorder.ts:406-445` | The same from any coherent state and for any trace that has a summary there, in memory, in the index, or as a row joined with a pending delta |
| `CacheRefinement.WrittenBackIndexIsExact` | `packages/app-node/src/trace-recorder.ts:531-586` | Once nothing is dirty and nothing pending, the index alone holds the direct result |
| `CacheRefinement.UpdateLandsExactlyWhenRecorded` | `packages/app-node/src/trace-recorder.ts:244-288` | For a trace that has a summary, a change or dropped log that costs no counted loss has its direct effect if and only if the trace is in memory, or it is not remembered as unrooted (or its root just started) and there is a pending record or room for one |
| `CacheRefinement.OnlyRootStartGivesFirstSummary` | `packages/app-node/src/trace-recorder.ts:187-201` | A trace without a summary gets its first one only from the start of its root span; it is then active, in that segment, without outcome or end |
| `CacheRefinement.ReachableCacheInvariant` | `packages/app-node/src/trace-recorder.ts:290-325` | In every state reached without a counted loss: pending and in-memory traces are disjoint; dirty traces are in memory; a clean in-memory summary is active and equals its row; a dirty one is strictly newer than its row unless its own commit is just being delivered; a captured summary is still in memory at an equal or greater revision; equal revisions mean equal summaries |
| `CacheRefinement.RunKeepsCoherence` | `packages/app-node/src/trace-recorder.ts:531-586` | Every step of every run without a counted loss keeps the cache and the index coherent, with reads and commits in flight |
| `CacheRefinement.IndexNotNewer` | `packages/app-node/src/trace-index.ts:183-213` | The stored row of an in-memory summary is never newer, and equal to it at the same revision |
| `CacheRefinement.LossesOnlyGrow` | `packages/app-node/src/trace-recorder.ts:406-418` | No step takes back a counted loss |
| `CacheRefinement.UnderCheckToTheEnd` | `packages/app-node/src/trace-recorder.ts:355-385` | A trace with a summary whose delta was refused stays under check until a loss is counted |
| `CacheRefinement.LateCheckForgetsRootedTrace` | `packages/app-node/src/trace-recorder.ts:370-384` | The reachable run the condition shuts out: an empty answer delivered after the root of the trace started marks a rooted trace unrooted, and a later span end is missing from its summary although nothing is counted and nothing outstanding |
| `CacheRefinement.CheckedThenRootedIsReachable` | `packages/app-node/src/trace-recorder.ts:182-201` | The state that run starts from is reached from a new recorder |
| `SummaryCache.ForgettingOneMore` | `packages/app-node/src/trace-recorder.ts:580-584` | Forgetting what a commit saved, one captured summary at a time, gives the same state as all at once |
| `TraceQueue.NoSilentLoss` | `packages/app-node/src/trace-recorder.ts:531-586` | After every run each pushed entry is queued, stored or counted as dropped; counted at most once and stored at most once, in push order; only entries shifted out of a batch in flight can be both |
| `TraceQueue.AlwaysWithinLimit` | `packages/app-node/src/trace-recorder.ts:227-233` | The queue is within its limit after every step, also while a batch is in flight |
| `TraceQueue.StepKeeps` | `packages/app-node/src/trace-recorder.ts:420-445` | Push with overflow, taking a batch, storing, finishing and giving up each keep the accounting of entries |
| `TraceRecorder.LocalTraceRecorder.Evict` | `packages/app-node/src/trace-recorder.ts:410-417` | Evicts the oldest inactive dirty summaries beyond the limit and counts each |
| `TraceRecorder.LocalTraceRecorder.Changed` | `packages/app-node/src/trace-recorder.ts:406-418` | Stores a summary, marks it dirty and evicts |
| `TraceRecorder.LocalTraceRecorder.MarkUnrooted` | `packages/app-node/src/trace-recorder.ts:343-349` | Remembers a trace without root, forgetting the oldest beyond a thousand |
| `TraceRecorder.LocalTraceRecorder.VerifyLoss` | `packages/app-node/src/trace-recorder.ts:355-385` | Starts the check of a refused delta, or counts a loss beyond the bound |
| `TraceRecorder.LocalTraceRecorder.GetPending` | `packages/app-node/src/trace-recorder.ts:261-288` | Finds or creates the pending record, or refuses the delta |
| `TraceRecorder.LocalTraceRecorder.Update` | `packages/app-node/src/trace-recorder.ts:244-259` | A change goes to the in-memory summary or to the pending delta |
| `TraceRecorder.LocalTraceRecorder.DropLog` | `packages/app-node/src/trace-recorder.ts:431-442` | A dropped log is counted in memory or in the pending record |
| `TraceRecorder.LocalTraceRecorder.ReadDelivered` | `packages/app-node/src/trace-recorder.ts:290-325` | The delta joins the row read for it, or the trace turns out unrooted |
| `TraceRecorder.LocalTraceRecorder.ReadRejected` | `packages/app-node/src/trace-recorder.ts:326-340` | A failed read is retried while delays remain, then given up and counted if it held anything |
| `TraceRecorder.LocalTraceRecorder.CheckDelivered` | `packages/app-node/src/trace-recorder.ts:372-384` | A check that finds the trace counts a loss, one that does not marks it unrooted |
| `TraceRecorder.LocalTraceRecorder.Drop` | `packages/app-node/src/trace-recorder.ts:420-445` | Counts the dropped entries in total and each in its own trace, in order |
| `TraceRecorder.LocalTraceRecorder.OnStart` | `packages/app-node/src/trace-recorder.ts:182-201` | Only the start of a root span changes the cache, by exactly that change |
| `TraceRecorder.LocalTraceRecorder.OnEnd` | `packages/app-node/src/trace-recorder.ts:203-225` | Queues the span, reports its end, then drops overflow oldest first, leaving the queue within its limit; a full batch is under way afterwards |
| `TraceRecorder.LocalTraceRecorder.OnLog` | `packages/app-node/src/trace-recorder.ts:159-162` | Queues the log and drops overflow oldest first |
| `TraceRecorder.LocalTraceRecorder.ShiftOverflow` | `packages/app-node/src/trace-recorder.ts:227-233` | Shifts out exactly the overflow, oldest first, and counts each shifted entry |
| `TraceRecorder.LocalTraceRecorder.CheckQueue` | `packages/app-node/src/trace-recorder.ts:227-234` | After a push the overflow is gone and counted, and a full batch is under way |
| `TraceRecorder.LocalTraceRecorder.RefreshRoots` | `packages/app-node/src/trace-recorder.ts:478-490` | Refreshing renamed roots only adds changes to the history |
| `TraceRecorder.LocalTraceRecorder.ForceFlush` | `packages/app-node/src/trace-recorder.ts:517-529` | Starts a drain unless one is under way |
| `TraceRecorder.LocalTraceRecorder.TakeBatch` | `packages/app-node/src/trace-recorder.ts:533-538` | Captures a prefix of the queue and every dirty summary, or ends when there is neither |
| `TraceRecorder.LocalTraceRecorder.Upsert` | `packages/app-node/src/trace-index.ts:183-213` | Row by row, a summary replaces its row only at a greater revision |
| `TraceRecorder.LocalTraceRecorder.TransactionCommitted` | `packages/app-node/src/trace-recorder.ts:542-566` | One atomic step stores the batch and indexes the captured summaries |
| `TraceRecorder.LocalTraceRecorder.ForgetSaved` | `packages/app-node/src/trace-recorder.ts:580-584` | What has not changed since capture is clean, and leaves memory if inactive |
| `TraceRecorder.LocalTraceRecorder.TransactionDone` | `packages/app-node/src/trace-recorder.ts:577-585` | Removes the batch from the queue and goes on with the next one |
| `TraceRecorder.LocalTraceRecorder.TransactionFailed` | `packages/app-node/src/trace-recorder.ts:567-579` | Retries while delays remain, then drops and counts what is still queued of the batch |
| `TraceRecorder.LocalTraceRecorder.IndexedTraceIsExact` | `packages/app-node/src/trace-recorder.ts:492-494` | For the object: with no counted loss, no check out and none late, memory and index hold, for a trace of the index it was given, the direct result of its history |
| `TraceRecorder.LocalTraceRecorder.StartedTraceIsExact` | `packages/app-node/src/trace-recorder.ts:492-494` | For the object, under the same conditions: a trace whose root it started shows the direct result of its history from that start on |
| `TraceRecorder.LocalTraceRecorder.NewTraceIsExact` | `packages/app-node/src/trace-recorder.ts:492-494` | For the object, under the same conditions: a trace new to it that began with its root shows the direct result of its whole history |
| `TraceRecorder.LocalTraceRecorder.DroppedCountCoversLosses` | `packages/app-node/src/trace-recorder.ts:492-494` | For the object: the reported drop count is the number of entries counted, and every entry is accounted for |
| `TraceReader.List` | `packages/app-node/src/trace-reader.ts:123-169` | A negative limit is a range error, a zero limit an empty page; otherwise the page and its cursor are those of the sorted, filtered list of newest summaries after the cursor, though only `limit + memory + 1` rows are fetched, and although the rows of the traces in memory are read later, each from a table that may have gained newer revisions |
| `TraceReader.SeenGained` | `packages/app-node/src/trace-reader.ts:134-137` | The table one call sees has every trace in memory as its own later read found it and all others as the page did, none older than it was |
| `TraceReader.SeenIsConsistent` | `packages/app-node/src/trace-reader.ts:134-137` | That table has one row per trace and agrees with memory on equal revisions |
| `TraceReader.SeenUnchanged` | `packages/app-node/src/trace-reader.ts:134-137` | Without a commit to a trace in memory between the reads, the page is that of the table itself |
| `TraceReader.EarlyInTable` | `packages/app-node/src/trace-reader.ts:133-137` | A stored row that belongs on the page and that memory does not supersede stands early enough in the index to be among the rows fetched |
| `TraceReader.OrderedGivesPage` | `packages/app-node/src/trace-reader.ts:138-168` | What the reader sorts gives the same page, and a cursor exactly when more remain, as the whole list |
| `TraceReader.ReferenceExists` | `packages/app-node/src/trace-reader.ts:145-158` | The simple list exists: the newest row per trace, filtered and sorted |
| `TraceReader.CursorSkipsPage` | `packages/app-node/src/trace-reader.ts:146-153` | The list after a cursor is the list without the page that gave it |
| `TraceReader.CursorsVisitEverythingOnce` | `packages/app-node/src/trace-reader.ts:159-168` | Following the cursors over a fixed state visits every match exactly once, in order |
| `TraceReader.ReadCounterparts` | `packages/app-node/src/trace-reader.ts:136` | Reads the stored row of every in-memory trace, each from the table as it is by then |
| `TraceReader.Merge` | `packages/app-node/src/trace-reader.ts:138-144` | Puts the in-memory rows and then the stored counterparts into the fetched page, each replacing only an older revision of its trace |
| `TraceReader.MergeNewest` | `packages/app-node/src/trace-reader.ts:138-144` | The merge has exactly one row for each trace looked at, at the newest revision seen |
| `ReconciledQuery.Converges` | `monitor/src/flow/useReconciledQuery.ts:33-96` | For every interleaving of server updates, event delivery, snapshots, re-reads, failures, refreshes and reconnections: once no event is on its way, the snapshot is in and no re-read that would still be used is out, the client shows what the server has for every id it was informed about |
| `ReconciledQuery.ConvergesEverywhere` | `monitor/src/flow/useReconciledQuery.ts:63-91` | With its snapshot landed and no needed re-read failed, the client data is exactly the server map filtered |
| `ReconciledQuery.RunsQuery.ShowsServerWhenQuiet` | `monitor/src/flow/useReconciledQuery.ts:33-96` | For the object: whenever its system is quiet it shows what the server has for each id it was informed about |
| `ReconciledQuery.RunsQuery.TakeSnapshot` | `monitor/src/flow/useReconciledQuery.ts:65-76` | A delivered snapshot is one step of the system, and the ids it hands out are exactly those the system then has re-reads out for |
| `ReconciledQuery.StepKeeps` | `monitor/src/flow/useReconciledQuery.ts:51-88` | Every step keeps the invariant behind convergence |
| `ReconciledQuery.RunsQuery.Start` | `monitor/src/flow/useReconciledQuery.ts:33-50` | A new generation buffers from nothing, keeping the data only on a refresh |
| `ReconciledQuery.RunsQuery.OnEvent` | `monitor/src/flow/useReconciledQuery.ts:51-62` | An event bumps the version of its id and is buffered or applied |
| `ReconciledQuery.RunsQuery.Issue` | `monitor/src/flow/useReconciledQuery.ts:74-76` | A re-read is issued for exactly the buffered ids, with their versions |
| `ReconciledQuery.RunsQuery.OnSnapshot` | `monitor/src/flow/useReconciledQuery.ts:65-76` | A current snapshot replaces the data and ends buffering |
| `ReconciledQuery.RunsQuery.OnSnapshotRejected` | `monitor/src/flow/useReconciledQuery.ts:68-76` | A current failure ends buffering and keeps the data |
| `ReconciledQuery.RunsQuery.OnReread` | `monitor/src/flow/useReconciledQuery.ts:78-82` | A re-read is merged only in its generation and at its version |
| `SubscriptionDriver.MutationsAreSerialisable` | `packages/context-client/src/subscriptions.ts:241-321` | In every reachable state calls have settled in call order; one resolved exactly if the generation opened for it was promoted; the desired set, and the filter of the active stream, is the fold of the resolved calls; an idle driver has settled every call |
| `SubscriptionDriver.OpenBeforeRetire` | `packages/context-client/src/subscriptions.ts:313-321` | No step but the end of the active stream itself or disposal leaves the driver without a live acknowledged stream, and a replacement is newer than the stream it retires |
| `SubscriptionDriver.OnlyActiveAndCandidateLive` | `packages/context-client/src/subscriptions.ts:270-311` | A generation that is not retired is the active one or the running candidate |
| `SubscriptionDriver.PromotionsGateFrames` | `packages/context-client/src/subscriptions.ts:394-417` | Promoted generations strictly increase, and every frame delivered is at least as new as all generations promoted before it |
| `SubscriptionDriver.NothingOpensAfterDisposal` | `packages/context-client/src/subscriptions.ts:246-248` | No run from a disposed driver allocates a generation |
| `SubscriptionDriver.DisposalSettlesEverything` | `packages/context-client/src/subscriptions.ts:224-237` | After disposal the running task can always finish, and finishing it and the queue settles every call and leaves every stream retired |
| `SubscriptionDriver.LostStreamIsPursued` | `packages/context-client/src/subscriptions.ts:433-489` | After the active stream is closed by its transport, at every later point of every run a delay is outstanding or a reconnection queued or running, until a stream is promoted, a reconnection fails for good, or the driver is disposed |
| `SubscriptionDriver.OwedUntilReplacedOrGivenUp` | `packages/context-client/src/subscriptions.ts:476-488` | A reconnection stays owed until a stream is promoted or a reconnection fails with an error that is not retryable |
| `SubscriptionDriver.NoReconnectForgotten` | `packages/context-client/src/subscriptions.ts:433-489` | While a stream lost to its transport has been neither replaced nor given up, a delay is outstanding or a reconnection is queued or running |
| `SubscriptionDriver.BackoffGrowsToItsCap` | `packages/context-client/src/subscriptions.ts:445-464` | Between resets delays never shrink, never exceed the cap, and equal it after at most that many attempts when the base is positive |
| `SubscriptionDriver.StepKeeps` | `packages/context-client/src/subscriptions.ts:241-489` | Every step keeps the invariant of generations, promotions, calls and reconnections |
| `SubscriptionDriver.Driver.Enqueue` | `packages/context-client/src/subscriptions.ts:241-260` | A call joins the single queue |
| `SubscriptionDriver.Driver.StartNext` | `packages/context-client/src/subscriptions.ts:245-251` | The next task is refused by a disposed driver, satisfied by a live stream if it is a reconnection, and otherwise opens a candidate |
| `SubscriptionDriver.Driver.AllocateGeneration` | `packages/context-client/src/subscriptions.ts:323-382` | Opens and publishes a candidate for the resource set with the change applied, or one already failed when its signal is aborted |
| `SubscriptionDriver.Driver.FailCandidate` | `packages/context-client/src/subscriptions.ts:385-392` | Fails a candidate only while it is neither acknowledged nor retired |
| `SubscriptionDriver.Driver.ReceiveFrame` | `packages/context-client/src/subscriptions.ts:394-417` | Drops frames of retired generations, takes an acknowledgement first, fails on any other first frame, delivers the rest |
| `SubscriptionDriver.Driver.ReceiveSettle` | `packages/context-client/src/subscriptions.ts:419-443` | The end of a stream fails a candidate, clears the active generation, and reconnects only after a transport close |
| `SubscriptionDriver.Driver.Schedule` | `packages/context-client/src/subscriptions.ts:445-464` | Schedules the next attempt with its backoff unless disposed |
| `SubscriptionDriver.Driver.ResumeTask` | `packages/context-client/src/subscriptions.ts:292-320` | Promotes the candidate only if it is acknowledged, not retired and the driver not disposed |
| `SubscriptionDriver.Driver.Install` | `packages/context-client/src/subscriptions.ts:313-320` | Makes the candidate active, commits its target, retires the previous stream |
| `SubscriptionDriver.Driver.Conclude` | `packages/context-client/src/subscriptions.ts:476-488` | Settles the call, or resets, repeats or gives up the reconnection |
| `SubscriptionDriver.Driver.ElapseDelay` | `packages/context-client/src/subscriptions.ts:458-463` | An elapsed delay enqueues a reconnection unless disposed |
| `SubscriptionDriver.Driver.Dispose` | `packages/context-client/src/subscriptions.ts:224-237` | Fails the candidate, retires the active stream, clears both |
| `SubscriptionDriver.Driver.Handle` | `packages/context-client/src/subscriptions.ts:200-489` | Every event the driver reacts to is one step, and enters its history |
| `SubscriptionDriver.Driver.FollowsResolvedCalls` | `packages/context-client/src/subscriptions.ts:241-321` | For the object: its resource set, and the filter of its live stream, is the fold of its resolved calls |
| `RequestScheduler.SlotsAreBoundedAndUsed` | `packages/context-rpc/src/scheduler.ts:90-112` | Over every run the slots and the queue stay within their bounds, no id has two places, and a request waits only while every slot is taken |
| `RequestScheduler.StartedInAcceptanceOrder` | `packages/context-rpc/src/scheduler.ts:185-195` | When a request has started, every request accepted before it has started earlier or was dropped from the queue, and never both |
| `RequestScheduler.CancelledWaiterNeverStarts` | `packages/context-rpc/src/scheduler.ts:115-122` | A request cancelled while it waited never starts, whatever happens afterwards |
| `RequestScheduler.StepKeeps` | `packages/context-rpc/src/scheduler.ts:90-195` | Every step keeps bounds, disjointness, order and full use of the slots |
| `RequestScheduler.Scheduler.Accept` | `packages/context-rpc/src/scheduler.ts:90-112` | Refuses an id in flight, starts if a slot is free, queues up to the bound, otherwise refuses as busy |
| `RequestScheduler.Scheduler.Drain` | `packages/context-rpc/src/scheduler.ts:185-195` | Starts waiting requests, oldest first, while slots are free |
| `RequestScheduler.Scheduler.Finish` | `packages/context-rpc/src/scheduler.ts:165-183` | Frees the slot of a settled request and drains |
| `RequestScheduler.Scheduler.CancelRequest` | `packages/context-rpc/src/scheduler.ts:115-126` | Drops a waiting request or aborts the signal of a running or detached one |
| `RequestScheduler.Scheduler.AbortEverything` | `packages/context-rpc/src/scheduler.ts:129-143` | Drops every waiting request and aborts every signal |
| `RequestScheduler.Scheduler.DetachRequest` | `packages/context-rpc/src/scheduler.ts:150-158` | Moves a running request out of its slot, keeping its identity, and drains |
| `RequestScheduler.Scheduler.CompleteDetached` | `packages/context-rpc/src/scheduler.ts:161-163` | Forgets a detached request |
| `RequestScheduler.Scheduler.Handle` | `packages/context-rpc/src/scheduler.ts:90-195` | Every event the scheduler reacts to is one step, and enters its history |
| `RequestScheduler.Scheduler.BoundedAndUsed` | `packages/context-rpc/src/scheduler.ts:90-112` | For the object: its bounds hold, and a request waits only while every slot is taken |
| `RpcRequests.AtMostOneResponse` | `packages/context-rpc/src/rpc.ts:521-567` | Every request frame is answered at most once; never if its signal aborted in time; a frame finished in silence was aborted in time or had its held terminal rejected |
| `RpcRequests.CancelledInTimeNeverAnswered` | `packages/context-rpc/src/rpc.ts:541-543` | A request cancelled before its handler settled, or held before its terminal was claimed, is never answered in any continuation |
| `RpcRequests.ClosedInTimeNeverAnswered` | `packages/context-rpc/src/rpc.ts:356-373` | So is every request pending or held unclaimed when the connection first closes |
| `RpcRequests.ClaimWins` | `packages/context-rpc/src/rpc.ts:625-641` | Once a held terminal is claimed, no later cancellation or close takes its response away |
| `RpcRequests.HeldRequestsTakeNoSlot` | `packages/context-rpc/src/rpc.ts:544-551` | Held requests are exactly the scheduler's detached ones, frame by frame, and none of them occupies a slot |
| `RpcRequests.NothingIsStuck` | `packages/context-rpc/src/rpc.ts:536-567` | Every unfinished frame has its next step enabled, or waits in a queue while every slot is taken |
| `RpcRequests.StepKeeps` | `packages/context-rpc/src/rpc.ts:609-660` | Every step keeps records, phases and responses in agreement |
| `RpcRequests.Connection.HandleRequest` | `packages/context-rpc/src/rpc.ts:527-536` | Refuses while disposing, otherwise hands the request to the scheduler |
| `RpcRequests.Connection.HandleCancelled` | `packages/context-rpc/src/rpc.ts:499-502` | Cancels a waiting, running or held request, with the abort listener of the latter |
| `RpcRequests.Connection.OnAbort` | `packages/context-rpc/src/rpc.ts:613-621` | The abort of a held request removes both records and answers nothing |
| `RpcRequests.Connection.RemoveRecords` | `packages/context-rpc/src/rpc.ts:657-660` | The one cleanup path removes the record here and in the scheduler |
| `RpcRequests.Connection.OnHandlerSettled` | `packages/context-rpc/src/rpc.ts:540-566` | Answers nothing after an abort, holds a deferred response and frees its slot, otherwise owes a response |
| `RpcRequests.Connection.OnSlotReleased` | `packages/context-rpc/src/scheduler.ts:165-183` | The scheduler frees the slot, drains, and only then hands the response on |
| `RpcRequests.Connection.OnTerminal` | `packages/context-rpc/src/rpc.ts:625-632` | A resolved terminal is claimed before anything is awaited |
| `RpcRequests.Connection.OnTerminalWritten` | `packages/context-rpc/src/rpc.ts:638-640` | After the write both records go |
| `RpcRequests.Connection.OnTerminalRejected` | `packages/context-rpc/src/rpc.ts:642-652` | A rejected terminal answers nothing and removes both records |
| `RpcRequests.Connection.CloseConnection` | `packages/context-rpc/src/rpc.ts:356-373` | Drops waiting requests, aborts running ones, and runs the abort listener of every held one, once |
| `RpcRequests.Connection.AbortHeld` | `packages/context-rpc/src/scheduler.ts:138-142` | Running the listeners one record at a time removes exactly the unclaimed ones |
| `RpcRequests.Connection.Handle` | `packages/context-rpc/src/rpc.ts:521-660` | Every event the connection reacts to is one step, and enters its history |
| `RpcRequests.Connection.AnswersOnce` | `packages/context-rpc/src/rpc.ts:521-567` | For the object: each frame is answered at most once, none silenced in time, and held requests take no slot |
| `ExchangeRegistry.RegistryIsAllLives` | `packages/context-rpc/src/exchange.ts:47-159` | After any events with fresh ids every exchange is pending or settled, with what was delivered to it, exactly as its own events alone would have it |
| `ExchangeRegistry.SettledByFirstTerminal` | `packages/context-rpc/src/exchange.ts:51-61` | The first event that ends a pending exchange settles it once, with that event's reason, and nothing is delivered afterwards |
| `ExchangeRegistry.EndAllLeavesNothing` | `packages/context-rpc/src/exchange.ts:147-151` | Ending all leaves nothing pending and settles what was pending as closed |
| `ExchangeRegistry.Registry.RouteResponse` | `packages/context-rpc/src/exchange.ts:84-99` | Settles either kind: result, error, or malformed as an error; unknown ids are ignored |
| `ExchangeRegistry.Registry.RouteStreamFrame` | `packages/context-rpc/src/exchange.ts:106-125` | Delivers or settles stream exchanges only |
| `ExchangeRegistry.Registry.End` | `packages/context-rpc/src/exchange.ts:147-151` | The loop over a snapshot leaves nothing pending and settles each pending exchange once, as closed |
| `ExchangeRegistry.Registry.Handle` | `packages/context-rpc/src/exchange.ts:47-159` | Every event the registry reacts to is one step, and enters its history |
| `ExchangeRegistry.Registry.ExchangesLiveAlone` | `packages/context-rpc/src/exchange.ts:47-159` | For the object: each exchange is where its own events alone would have brought it |
| `SubscriptionWriter.FramesInOrderWithinBound` | `packages/context-server/src/subscriptions.ts:105-126` | What the sink gets is a prefix of what was accepted; pending is the queue plus the one write, within the bound; a healthy idle writer has handed over everything |
| `SubscriptionWriter.EachFrameSettlesOnce` | `packages/context-server/src/subscriptions.ts:177-204` | Every accepted frame waits or has settled exactly once, with the sink's own answer if the sink got it and with the writer's failure if not |
| `SubscriptionWriter.FailsOnce` | `packages/context-server/src/subscriptions.ts:145-166` | After the first failure nothing is accepted or handed over, the failure stays, and at most one was reported |
| `SubscriptionWriter.FlushedMeansDrained` | `packages/context-server/src/subscriptions.ts:129-131` | A settled flush means no frame waits and no write is outstanding |
| `SubscriptionWriter.FlushSettlesUnlessLate` | `packages/context-server/src/subscriptions.ts:188-203` | When the last write is rejected, flush settles exactly if the writer had not failed before; otherwise it never settles |
| `SubscriptionWriter.DrainedMeansFlushed` | `packages/context-server/src/subscriptions.ts:163-165` | Without such a late rejection flush is settled whenever nothing is pending |
| `SubscriptionWriter.FlushCanHang` | `packages/context-server/src/subscriptions.ts:145-148` | The run in which flush never settles: a frame in flight, an abort, then the rejection of that frame |
| `SubscriptionWriter.StepKeeps` | `packages/context-server/src/subscriptions.ts:105-205` | Every step keeps counts, order, settlements and the flush signal in agreement |
| `SubscriptionWriter.Writer.Accept` | `packages/context-server/src/subscriptions.ts:105-126` | Refuses with the failure or with backpressure, otherwise accepts and drains |
| `SubscriptionWriter.Writer.Drain` | `packages/context-server/src/subscriptions.ts:168-177` | Starts the next write only if none is outstanding and nothing failed |
| `SubscriptionWriter.Writer.Fail` | `packages/context-server/src/subscriptions.ts:145-166` | The first failure rejects every waiting frame and reports if asked to; later ones do nothing |
| `SubscriptionWriter.Writer.OnWritten` | `packages/context-server/src/subscriptions.ts:179-187` | Settles the frame, and flush when nothing is left, then goes on |
| `SubscriptionWriter.Writer.OnWriteRejected` | `packages/context-server/src/subscriptions.ts:188-203` | Rejects the frame and fails the writer |
| `SubscriptionWriter.Writer.Handle` | `packages/context-server/src/subscriptions.ts:105-205` | Every event the writer reacts to is one step, and enters its history |
| `SubscriptionWriter.Writer.WritesInOrder` | `packages/context-server/src/subscriptions.ts:105-126` | For the object: frames go out in the order accepted, within the bound, and each settles at most once |
| `SubscriptionHub.EachSubscriptionEndsOnce` | `packages/context-server/src/subscriptions.ts:375-425` | Over every run in which no key is registered again before its registration is settled: a subscription is registered exactly until it is settled, at most one of its completion and expiry callbacks is ever called, none after its end, and a settled one has no timer left |
| `SubscriptionHub.EventsReachLiveSubscriptions` | `packages/context-server/src/subscriptions.ts:303-312` | An event goes to exactly the live subscriptions that asked for it |
| `SubscriptionHub.EndingTakesOnlyItself` | `packages/context-server/src/subscriptions.ts:280-291` | Ending a subscription leaves every other one registered if and only if its key does not lead to another registration |
| `SubscriptionHub.SharedKeyLosesTheNewer` | `packages/context-server/src/subscriptions.ts:405-411` | Two registrations of one key: closing the first stops deliveries to the second, which is still live |
| `SubscriptionHub.EventsReachRegistered` | `packages/context-server/src/subscriptions.ts:303-312` | In every run, keys shared or not, an event goes to exactly the registrations that asked for it and that their keys lead to |
| `SubscriptionHub.LiveSubscriptionLostIff` | `packages/context-server/src/subscriptions.ts:280-291` | A step takes a live subscription out of the registry if and only if it is disposal, a new registration of its key, or the end of another registration of its key |
| `SubscriptionHub.EndingKeepsTimerIff` | `packages/context-server/src/subscriptions.ts:286-287` | An ended registration keeps an armed timer if and only if it had one and its key did not lead to it |
| `SubscriptionHub.CalledTwiceIff` | `packages/context-server/src/subscriptions.ts:375-425` | In every run, keys shared or not, a registration is called back at most twice, and twice if and only if it was completed while its timer was armed and its key did not lead to it, and that timer then fired |
| `SubscriptionHub.SharedKeyCallsTwice` | `packages/context-server/src/subscriptions.ts:413-419` | The run that does so: a timed registration, its key registered again, completion, and the timer |
| `SubscriptionHub.CalledAfterEndIff` | `packages/context-server/src/subscriptions.ts:395-419` | In every run, keys shared or not, a registration is called back after its end if and only if it ended, by completion or closing, while its timer was armed and its key did not lead to it, and that timer then fired |
| `SubscriptionHub.SharedKeyCallsClosed` | `packages/context-server/src/subscriptions.ts:395-419` | The run in which a registration that was closed is completed all the same |
| `SubscriptionHub.StepStaysSane` | `packages/context-server/src/subscriptions.ts:375-442` | Every step of every run, keys shared or not, keeps the registry leading to registrations of its keys, calls nothing before an end, and leaves no timer after two calls |
| `SubscriptionHub.StepKeeps` | `packages/context-server/src/subscriptions.ts:375-442` | Every step keeps registry, settlement and timers in agreement |
| `SubscriptionHub.Hub.RegisterEntry` | `packages/context-server/src/subscriptions.ts:405-424` | Enters a registration under its key, with its timer if it expires |
| `SubscriptionHub.Hub.RemoveEntry` | `packages/context-server/src/subscriptions.ts:280-291` | Takes the key out of the registry and clears the timer of what it led to |
| `SubscriptionHub.Hub.CompleteEntry` | `packages/context-server/src/subscriptions.ts:384-392` | The first ending by completion calls the entry; later endings do nothing |
| `SubscriptionHub.Hub.CloseEntry` | `packages/context-server/src/subscriptions.ts:395-402` | The first ending by closing calls nothing |
| `SubscriptionHub.Hub.OnDeadline` | `packages/context-server/src/subscriptions.ts:413-419` | The timer closes the subscription, then calls its expiry or completion |
| `SubscriptionHub.Hub.Deliver` | `packages/context-server/src/subscriptions.ts:303-312` | One pass over the registry finds whom the event goes to |
| `SubscriptionHub.Hub.DropAll` | `packages/context-server/src/subscriptions.ts:434-442` | Disposal clears the timer of whatever each key leads to and forgets all of it |
| `SubscriptionHub.Hub.Handle` | `packages/context-server/src/subscriptions.ts:375-442` | Every event the hub reacts to is one step, and enters its history |
| `SubscriptionHub.Hub.CallsBackTwiceIff` | `packages/context-server/src/subscriptions.ts:375-425` | For the object: the exact condition for a second callback, over its own history |
| `HeaderRules.ValidIffRulesMet` | `packages/context-protocol/src/x-mcp-header.ts:97-236` | The outcome of a walk is valid if and only if its visits meet the rules, stated over the visits without any accumulated state: references resolve without circles; annotations outside arrays, tokens, on an eligible or deferring type; agreement per dotted path and difference ignoring case elsewhere; every deferral settled by the next type declared there |
| `HeaderRules.NamesAreDistinctTokens` | `packages/context-protocol/src/x-mcp-header.ts:97-172` | In a valid result names are tokens, pairwise distinct ignoring case, and each dotted path is claimed once |
| `HeaderRules.AnnotationsAreTyped` | `packages/context-protocol/src/x-mcp-header.ts:129-155` | Each annotation comes from a visited node of exactly its path, and some visited node outside arrays at its dotted path declares an eligible type |
| `HeaderRules.NoAnnotationIsMissed` | `packages/context-protocol/src/x-mcp-header.ts:143-172` | Every annotation met at a named node of a valid schema is in the result for its dotted path |
| `HeaderRules.ReachableAnnotationsAreCollected` | `packages/context-protocol/src/x-mcp-header.ts:84-96` | Every annotation a chain of properties, branches, items and references leads to is in the result of a valid schema |
| `HeaderRules.MirroredIffUnambiguous` | `packages/context-protocol/src/x-mcp-header.ts:127-170` | The path of every annotated node is in a valid result if and only if no two annotated nodes have different paths that read the same with dots |
| `HeaderRules.AmbiguousSchemaExists` | `packages/context-protocol/src/x-mcp-header.ts:127-170` | A valid schema for which that fails: a property `a.b`, and `b` inside `a`, both strings with the same header name; the second path is not mirrored |
| `HeaderRules.DotlessPathsDiffer` | `packages/context-protocol/src/x-mcp-header.ts:127` | Paths whose keys hold no dot never collide |
| `HeaderWalk.WalkIsReachability` | `packages/context-protocol/src/x-mcp-header.ts:110-226` | Without circular references the walk, which ends on every schema, visits exactly the nodes that chains of descents from the root lead to |
| `HeaderWalk.VisitsClosed` | `packages/context-protocol/src/x-mcp-header.ts:175-225` | Whatever a visited node leads to is visited, provided no circle was met |
| `JsonPointer.Resolve` | `packages/context-protocol/src/x-mcp-header.ts:69-82` | Walking a reference token by token gives what following the decoded tokens gives |
| `JsonPointer.PointerRoundTrip` | `packages/context-protocol/src/x-mcp-header.ts:60-82` | The pointer written for a path of keys resolves to exactly what the path leads to, whatever the keys hold |
| `JsonPointer.DecodeEncode` | `packages/context-protocol/src/x-mcp-header.ts:61-63` | Decoding undoes escaping for every key |
| `HeaderRules.Collector.VisitNode` | `packages/context-protocol/src/x-mcp-header.ts:110-226` | Visits a node, its reference and its children, to the effect of absorbing exactly its visits |
| `HeaderRules.Collector.CheckSelf` | `packages/context-protocol/src/x-mcp-header.ts:126-173` | Settles what waits at the path, then judges the annotation |
| `HeaderRules.Collector.SettleDeferred` | `packages/context-protocol/src/x-mcp-header.ts:131-141` | A type outside arrays settles the check deferred at its path |
| `HeaderRules.Collector.CheckMark` | `packages/context-protocol/src/x-mcp-header.ts:143-172` | Judges an annotation in the order of the source |
| `HeaderRules.Collector.FollowRef` | `packages/context-protocol/src/x-mcp-header.ts:177-189` | Reports a circular or unresolved reference, or walks its target at the same path |
| `HeaderRules.Collector.VisitChildren` | `packages/context-protocol/src/x-mcp-header.ts:191-225` | Visits the children in order |
| `HeaderRules.Collector.Collect` | `packages/context-protocol/src/x-mcp-header.ts:97-236` | Valid exactly if the rules are met; only then the annotations are returned |
| `HeaderRules.Collector.ReportPending` | `packages/context-protocol/src/x-mcp-header.ts:229-233` | Whatever still waits for a type makes the schema invalid |
| `TaskWaiter.LatestAdvances` | `packages/context-client/src/task-waiter.ts:266-291` | Over any interleaving of pushes and reads the shared snapshot never goes back, and only a strictly newer one replaces a terminal one |
| `TaskWaiter.ReportsIncrease` | `packages/context-client/src/task-waiter.ts:78-87` | Each waiter is told strictly newer statuses only, none newer than the shared snapshot, and the terminal snapshot it returns was the shared one |
| `TaskWaiter.NewsReachesEveryone` | `packages/context-client/src/task-waiter.ts:239-241` | A pushed status that is news becomes the shared snapshot, is reported to every waiter still there, and leaves nobody asleep |
| `TaskWaiter.TurnGoesByLatest` | `packages/context-client/src/task-waiter.ts:93-128` | A turn of the loop, after a read whatever crossed it or woken by a change, goes by what is then the shared snapshot: it ends the wait exactly if that is terminal or an input failed, and otherwise leaves every input it lists dispatched |
| `TaskWaiter.UpToDateIffTold` | `packages/context-client/src/task-waiter.ts:78-109` | Over every run, a waiter's last report is of the time the shared snapshot has if and only if it was told a snapshot of that time: it was there when that was pushed, or its own read was taken in |
| `TaskWaiter.StepUpToDate` | `packages/context-client/src/task-waiter.ts:109-239` | The exact condition for one step: it tells the waiter, or the waiter was up to date and the time did not change |
| `TaskWaiter.ReturnsUntold` | `packages/context-client/src/task-waiter.ts:109-122` | The run from a new entry in which the read of one waiter ends the wait of another, which returns the result without having been told of it |
| `TaskWaiter.NoSleepThroughChange` | `packages/context-client/src/task-waiter.ts:336-349` | A sleeping waiter has seen the current version of an active, healthy entry |
| `TaskWaiter.InputsDispatchedOnce` | `packages/context-client/src/task-waiter.ts:387-440` | Each input is dispatched at most once and answered at most once, and an un-aborted handler in flight serves a current input |
| `TaskWaiter.WithdrawnNeverAnswers` | `packages/context-client/src/task-waiter.ts:396-400` | A handler whose input was withdrawn, or whose entry was released, before it answered never sends its answer |
| `TaskWaiter.UnlistedIsNeverAnswered` | `packages/context-client/src/task-waiter.ts:284-288` | A snapshot, pushed or read, that does not list an input in flight withdraws it for good, listed again or not |
| `TaskWaiter.AbortedIffUnlisted` | `packages/context-client/src/task-waiter.ts:284-288` | While its handler runs, an input is aborted in a step if and only if the shared snapshot after it does not list it |
| `TaskWaiter.AnswersUnlessWithdrawn` | `packages/context-client/src/task-waiter.ts:396-405` | A handler that fulfils has its answer sent if and only if the entry is not released and the input was not aborted |
| `TaskWaiter.AnsweredIffListedThroughout` | `packages/context-client/src/task-waiter.ts:387-405` | When its handler fulfils, an input is answered, then and ever after, if and only if the entry was not released and every snapshot since its dispatch listed it |
| `TaskWaiter.WithdrawnInputIsForgotten` | `packages/context-client/src/task-waiter.ts:389-400` | The run from a new entry in which an input is dispatched, withdrawn, listed again and fulfilled while listed, and yet never answered nor dispatched again, whatever follows |
| `TaskWaiter.StepKeeps` | `packages/context-client/src/task-waiter.ts:72-175` | Every step keeps sleepers current, reports ordered and inputs in agreement |
| `TaskWaiter.Entry.TakeSnapshot` | `packages/context-client/src/task-waiter.ts:266-291` | Takes a snapshot unless it is stale, aborts the handlers it withdraws, wakes the sleepers |
| `TaskWaiter.Entry.OnPush` | `packages/context-client/src/task-waiter.ts:239-241` | A pushed status that is news reaches every waiter |
| `TaskWaiter.Entry.WakeSleepers` | `packages/context-client/src/task-waiter.ts:331-334` | A change wakes every sleeper |
| `TaskWaiter.Entry.DispatchInputs` | `packages/context-client/src/task-waiter.ts:387-393` | Starts each listed input not dispatched before |
| `TaskWaiter.Entry.TakeTurn` | `packages/context-client/src/task-waiter.ts:108-144` | Ends the wait on a terminal snapshot or an input error, otherwise dispatches and sleeps or polls |
| `TaskWaiter.Entry.OnRead` | `packages/context-client/src/task-waiter.ts:93-111` | Takes a read unless something newer crossed it, and goes by what is current |
| `TaskWaiter.Entry.OnWoken` | `packages/context-client/src/task-waiter.ts:145-152` | Reads again after expiry or a poll, otherwise goes by the entry |
| `TaskWaiter.Entry.LeaveWith` | `packages/context-client/src/task-waiter.ts:257-264` | The last waiter to leave releases the entry |
| `TaskWaiter.Entry.OnFulfilled` | `packages/context-client/src/task-waiter.ts:396-405` | Sends an answer only if its signal is not aborted and the input is still listed |
| `TaskWaiter.Entry.OnInputFailed` | `packages/context-client/src/task-waiter.ts:426-435` | A failure that was not an abort stops every waiter |
| `TaskWaiter.Entry.OnReread` | `packages/context-client/src/task-waiter.ts:418-424` | An unknown input fails if the task still lists it, otherwise the read is taken in |
| `TaskWaiter.Entry.Handle` | `packages/context-client/src/task-waiter.ts:72-440` | Every event the entry reacts to is one step, and enters its history |
| `TaskWaiter.Entry.AnswersOnceAndWakes` | `packages/context-client/src/task-waiter.ts:387-440` | For the object: inputs are dispatched and answered at most once, and nobody sleeps through a change |
| `Forest.EachGroundedNodeOnce` | `monitor/src/traces/span-tree.ts:82-92` | For any parent pointers, with every parentless node a root: a node is drawn exactly if its parent chain ends, once, below its one root |
| `Forest.RootsAreUnique` | `monitor/src/traces/span-tree.ts:82` | No node hangs below two roots |
| `Forest.CirclesHaveNoRoot` | `monitor/src/traces/span-tree.ts:82` | A node on or below a circle has no root |
| `Forest.RootOrCircle` | `monitor/src/traces/span-tree.ts:82` | Conversely every node without a root is on or below a circle |
| `Forest.BelowDistinct` | `monitor/src/traces/span-tree.ts:83-91` | The recursion below a node ends and meets no node twice |
| `SpanTree.SortIsSorted` | `monitor/src/traces/span-tree.ts:90` | Siblings are all kept, once each, in order of start |
| `SpanTree.BarFits` | `monitor/src/traces/span-tree.ts:99-108` | Every bar stays within the track, and a node inside the interval gets its exact share |
| `SpanTreeBuilder.RefreshAgrees` | `monitor/src/traces/span-tree.ts:83-91` | Refreshing a node does not depend on which others had their turn |
| `SpanTreeBuilder.AppliedShapes` | `monitor/src/traces/span-tree.ts:85-90` | A refreshed placeholder spans exactly the hull of its children and is open exactly if one of them is, and its children are sorted |
| `SpanTreeBuilder.TreeBuilder.AddSpans` | `monitor/src/traces/span-tree.ts:22-44` | Enters one node per span with its own interval |
| `SpanTreeBuilder.TreeBuilder.AddSummary` | `monitor/src/traces/span-tree.ts:45-58` | Enters the summary's root if no span has its id |
| `SpanTreeBuilder.TreeBuilder.LinkAll` | `monitor/src/traces/span-tree.ts:59-81` | Links are exactly the parent pointers, with a placeholder for each missing parent |
| `SpanTreeBuilder.TreeBuilder.FindRoots` | `monitor/src/traces/span-tree.ts:82` | The roots are the nodes that are nobody's child |
| `SpanTreeBuilder.TreeBuilder.Refresh` | `monitor/src/traces/span-tree.ts:83-91` | The recursion refreshes exactly the nodes below, once each |
| `SpanTreeBuilder.TreeBuilder.Interval` | `monitor/src/traces/span-tree.ts:94-95` | The interval covers every node and is attained |
| `SpanTreeBuilder.TreeBuilder.Build` | `monitor/src/traces/span-tree.ts:17-97` | For unique span ids: links are the parent pointers; exactly the nodes whose parent chain ends are drawn, once; spans keep their interval, and the root of the summary keeps the summary's when no span has its id; placeholders for missing parents span exactly their children and are open exactly while one of them is; roots and drawn siblings are sorted; the interval covers every node and is attained |
| `TraceMerge.MergeIsOrderIndependent` | `monitor/src/traces/trace-merge.ts:57-94` | If equal revisions mean equal summaries and ended records and logs are unique per id, the same pieces in any order and with any repetition give the same summary, flags, logs, ended records and open ids |
| `TraceMerge.ArrivalsOrderIndependent` | `monitor/src/traces/trace-merge.ts:57-94` | The same for lists of arrivals, each a live piece or a whole snapshot: under the same condition on all that they bring, the same arrivals in any order and with any repetition lead to the same view |
| `TraceMerge.RecordsReceived` | `monitor/src/traces/trace-merge.ts:57-71` | A merged span or call was received, is there if any was received for its id, and is ended exactly if an ended one was received |
| `TraceMerge.HeadReceived` | `monitor/src/traces/trace-merge.ts:80-89` | The merged summary is the newest received, and a truncation flag is set exactly if one received was |
| `TraceMerge.EndedStaysEnded` | `monitor/src/traces/trace-merge.ts:65-71` | An ended span is never reopened, whatever arrives later |
| `TraceMerge.ApplySnapshot` | `monitor/src/traces/trace-merge.ts:80-94` | Taking in a snapshot is taking in its pieces one by one |
| `TraceMerge.MergeSummaries` | `monitor/src/traces/trace-merge.ts:10-20` | The loop merges summary by summary |
| `TraceMerge.MergedIsNewest` | `monitor/src/traces/trace-merge.ts:10-20` | Each trace ends up with the newest summary there is for it |
| `TraceMerge.SummariesOrderIndependent` | `monitor/src/traces/trace-merge.ts:10-20` | Lists with the same summaries merge to the same map |

## Left out

Assumptions that the source makes or that the model adds:

- Callbacks handed in (listeners, error and retry sinks, `openListen`, settle handlers, input handlers) return without
  throwing and without calling back into the object; a status callback that throws is not modelled.
- A request id is not reused while the promise chain of an earlier request with it is unwinding; ids of one exchange
  registry are fresh; span ids of one trace are unique.
- Server events reach the client in order, and the server does not delete runs.
- The reads of one page are answered in the order in which they are issued, and no commit takes a stored trace back.
- A failed transaction has no effect; a transaction is one atomic step.

Not modelled:

- Recorder: summary attributes and identity fields (name, kind, root span, start time), `sweepInterrupted`, `shutdown`,
  retention, the calls table, event emission and error reports. `callsInto`, `snapshot` and the reader's `get`, `logs` and
  `readCalls` merge in the same way as what is modelled.
- Reader: the base64 form of cursors, lower-casing and the `LIKE` pattern of the name search (taken as a substring test),
  and pages over a state that changes between them.
- Run list: the page limit with its extra refreshes, the loading flag and errors shown, and the inbox variant.
- Driver: generations are records in a list indexed by number rather than objects shared with their handlers, so aliasing
  of a generation is not captured. The ack timer and abort signal are one step that may fail any candidate at any time.
- Scheduler and RPC: response bodies, error codes, validation of frames, notifications other than cancellation, write
  failures, and the deadlines of disposal. Promise chains are phases per frame.
- Exchange registry: the order in which ending all settles exchanges, and the values delivered with a settlement.
- Writer and hub: `sink.close`, task notifications with their access checks, and registrations after disposal. Filters are sets
  of topics; ending all gracefully is completing each registration.
- Header walk: texts of errors, prototype members reached by a pointer (`constructor`, `__proto__`), and lower-casing outside
  ASCII, which tokens cannot contain.
- Task waiter: task ids, validation of results, cancellation requests, and a clock: an expiry timer may fire whenever the
  snapshot has a deadline. One entry is modelled, from its first waiter to its release.
- Span tree: names, status, attributes and links. Times are integers.
- Trace merge: turning a span into a call.
- Transports, processes, the HTTP server, rendering, providers, SQL and the wiring of `ContextClient` and the servers.

Stated weaker than the source:

- TraceRecorder.LocalTraceRecorder.RefreshRoots: which roots were renamed is a parameter, because attributes are not modelled.
- ExchangeRegistry.Registry.End: leaves open in which order the exchanges settle, because a map has none here.
- SubscriptionHub.EachSubscriptionEndsOnce: speaks of runs without reused keys, because it fails for others; `CalledTwiceIff`,
  `CalledAfterEndIff` and `LiveSubscriptionLostIff` say exactly when, over all runs.
- SubscriptionHub.EventsReachLiveSubscriptions: likewise; `EventsReachRegistered` speaks of all runs.
- SubscriptionHub.StepKeeps: likewise; `StepStaysSane` is what every step of every run keeps.
