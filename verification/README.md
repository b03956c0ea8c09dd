# cairn-rs: a verified model of its control-plane protocols

cairn-rs is a control plane for agent runs. This project models the stateful
protocols at its core in Dafny and proves what they keep over whole runs:

- **Quotas** (`WindowLedger`, `Entitlements`): tumbling day and month windows per tenant, and how much any
  day or month can see.
- **Span batching** (`SpanBatching`, `HexBytes`): a locked buffer, a timer task and a shutdown, interleaved
  freely; and the ids decoded on the way out.
- **The event log and its edge** (`EventStore`, `AppendHandler`, `ConcurrentAppends`, `LiveFanout`, `SseReplay`, `AdminPaging`,
  `NotificationRing`, with `Principals` and `Decimal`): the idempotent dual write, live delivery over a
  WebSocket, replay by cursor, paging, and the notification ring.
- **The agent loop** (`AgentLoop`): the grammar of the hook calls of one execution.
- **Fabric** (`SessionBarrier`, `FabricTasks`): a projection that lags behind commits, the bounded
  read-after-write barrier, and which execution a task call reaches.
- **Text and time** (`CivilDate`, `StreamLines`, `ArgScanner`, with `Whitespace`): seconds to civil date,
  token streams cut into lines, and the command line.

Objects the source changes in place are classes here, and its loops are loops, each proved against a function
on values; what the code promises is then proved about those functions. Concurrent parts are state machines:
one step per lock-held section, and every result holds in every interleaving of such steps.

`dafny verify dfyconfig.toml` checks the whole project.

## What holds, and what does not

Some statements one would like to make, or that comments in the code make, are not true of it as they stand. The
code is modelled as it is. For each such statement there is a lemma that says exactly when, or how far, it
holds, and a lemma with an input on which it fails.

- *Daily and monthly limits* (crates/cairn-app/src/entitlements.rs:327-408) hold for the runs of one window
  (`RunsWithinOneWindow`). A day can see up to twice the daily limit, never more (`RunsPerDayBound`,
  `TokensPerMonthBound`), and twice is reached (`RunsPerDayBoundIsReached`, `TokensPerMonthBoundIsReached`).
- *Usage reports* (crates/cairn-app/src/entitlements.rs:412-438) do not roll the windows over
  (`ReportIsCurrentIff`, `ReportGoesStale`).
- *"Any buffered spans have been flushed" once shutdown returns* (crates/cairn-app/src/metrics_otel.rs:305-308)
  holds for every span accepted before the cancel; for all spans exactly when the exports that got the lock
  after the timer's final drain left nothing in the buffer (`ShutdownFlushesIff`). An export of less than a
  batch after the shutdown stays there until later exports fill the batch (`LateExportIsLeftBehind`).
- *Idempotent append* (crates/cairn-app/src/bin_events.rs:84-98) holds for calls one at a time
  (`SecondCallChangesNothing`). Among concurrent calls a causation id stays unique exactly when no envelope is
  committed whose id has entered the index since its own check (`UniqueCausesIff`,
  `InterleavedCallsDuplicate`).
- *Two logs in the same order* (crates/cairn-app/src/bin_events.rs:261-283) holds for calls one at a time
  (`LogsAgree`), and among concurrent calls exactly when no memory append overtakes an earlier durable write
  (`LogsAgreeIff`, `OvertakingReorders`); the same events are in both in any case.
- *A successful dual write* (crates/cairn-app/src/main.rs:1048-1062 together with bin_events.rs:261-283). The
  durable log is also wired as the memory store's secondary log, event ids are unique in it, and so the second
  write of the same event is refused: in this configuration a call that appends anything ends in an error,
  although both logs hold the event (`WiredCallSucceedsIff`; `SecondWriteFails` for every such event).
- *Replay to the head, then live events* (crates/cairn-app/src/bin_websocket.rs:70-95) has no gap exactly when
  the projections have derived no events of their own since, because derived events enter the log without
  being broadcast (`GapFreeIff`, `DerivedEventIsAGap`).
- *Reconnecting with the last frame id* (crates/cairn-api/src/sse_publisher.rs:206-220). The limit counts
  events, not frames; following frame ids gets everything exactly when no mapped event is hidden behind
  `limit` unmapped ones (`ReconnectsCompleteIff`, `HiddenFrameIsNeverReached`).
- *The iteration limit* (crates/cairn-agent/src/executor.rs:113-121) ends the loop for every limit except the
  largest 32-bit number, which the wrapping counter cannot exceed (`LoopEnds`, `LargestLimitNeverStops`).
- *Task reads* (crates/cairn-app/src/fabric_adapter.rs:710-725) ignore the task's own session
  (`GetAddressesTheSameIff`, `GetCanMissATask`).
- *A call reaches what was created.* A session id or a task id that is used more than once resolves to what the
  last event drained for it says (`GetAfterCreateFinds`, `SharedIdResolvesOtherProject`;
  `MutationHitsLastDrainedIff`, `SoloThenUnderRunMoves`), and connected tasks share one session exactly when no
  task has edges under two (`AllConnectedShareIff`, `ReusedIdJoinsSessions`).
- *`[DONE]`* ends the client's stream, but only the inner loop of the server's
  (crates/cairn-app/src/bin_providers.rs:1730-1732): its tokens are independent of the chunking exactly when
  no token follows the first `[DONE]` (`ServerChunkingIff`, `TokenBehindDone`).
- *Reordering flags* changes nothing, except which of two bad values is complained about
  (`SwapChangesNothingIff`, `SwapCanChangeTheComplaint`).

## Model

| member | source | states |
|---|---|---|
| WindowLedger.TwiceTheLimit | crates/cairn-app/src/entitlements.rs:464-478 | Under the window invariant, the charges dated within any interval one width long add up to at most two limits |
| WindowLedger.TouchKeepsValid | crates/cairn-app/src/entitlements.rs:327-408 | A check that clears no more than still fits, or a charge of no more than was cleared, keeps the window invariant, rolling over or not, and adds exactly that charge to the history |
| Entitlements.EntitlementService.constructor | crates/cairn-app/src/entitlements.rs:249-258 | No plans and no counters |
| Entitlements.EntitlementService.SetPlan | crates/cairn-app/src/entitlements.rs:260-265 | Only the plan of this tenant changes; the counters stay |
| Entitlements.EntitlementService.CheckRunLimit | crates/cairn-app/src/entitlements.rs:327-351 | Both maps and the reply are those of the sequential meaning: no plan, unlimited, roll over, then compare |
| Entitlements.EntitlementService.CheckTokenLimit | crates/cairn-app/src/entitlements.rs:354-383 | The same for tokens, with a saturating sum |
| Entitlements.EntitlementService.RecordRun | crates/cairn-app/src/entitlements.rs:395-400 | One more run in the current day of this tenant only, in 32-bit arithmetic |
| Entitlements.EntitlementService.RecordTokens | crates/cairn-app/src/entitlements.rs:403-408 | More tokens in the current month of this tenant only, saturating |
| Entitlements.NoPlanAnswersIff | crates/cairn-app/src/entitlements.rs:327-369 | After any calls a run check, and a token check, tells a tenant that it has no plan if and only if no call has set one for it |
| Entitlements.RunCheckAnswers | crates/cairn-app/src/entitlements.rs:327-351 | After any calls the answer is decided by the tier of the last SetPlan for the tenant and the number of runs recorded in the day open at the time |
| Entitlements.TokenCheckAnswers | crates/cairn-app/src/entitlements.rs:354-383 | The same for the tokens of the open month, with their sum capped at 64 bits |
| Entitlements.TierLimits | crates/cairn-app/src/entitlements.rs:43-97 | 50 and 1000 runs, 100 000 and 5 000 000 tokens, and none for enterprise, as the checks answer |
| Entitlements.TenantsAreIsolated | crates/cairn-app/src/entitlements.rs:260-408 | A tenant's plan, counters and answers after any calls are those after its own calls alone |
| Entitlements.RunsPerDayBound | crates/cairn-app/src/entitlements.rs:327-408 | Over every trace with a clock that never goes back and a check of its own before each recorded run, no stretch of one day sees more than twice the daily limit |
| Entitlements.TokensPerMonthBound | crates/cairn-app/src/entitlements.rs:354-408 | The same for tokens and any thirty days |
| Entitlements.RunsPerDayBoundIsReached | crates/cairn-app/src/entitlements.rs:464-470 | Under every limited plan some such trace records twice the limit within two milliseconds |
| Entitlements.TokensPerMonthBoundIsReached | crates/cairn-app/src/entitlements.rs:472-478 | The same for tokens |
| Entitlements.RunsWithinOneWindow | crates/cairn-app/src/entitlements.rs:327-400 | In every such trace the runs recorded since any call, while the window has not rolled over since, are at most one limit |
| Entitlements.ReportIsCurrentIff | crates/cairn-app/src/entitlements.rs:412-438 | A report shows the run count, and the token count, a check would act on if and only if that window has not run out or the count is 0 |
| Entitlements.ReportGoesStale | crates/cairn-app/src/entitlements.rs:412-438 | A run recorded one day is still reported the next, when a check counts none |
| SpanBatching.BatchingSink.constructor | crates/cairn-app/src/metrics_otel.rs:252-258 | Starts with an empty buffer and the given batch size |
| SpanBatching.BatchingSink.Extend | crates/cairn-app/src/metrics_otel.rs:321-335 | The lock-held part of an export: append, and hand over everything once full |
| SpanBatching.BatchingSink.TakeAll | crates/cairn-app/src/metrics_otel.rs:270-286 | The lock-held part of the timer: hand over everything, or nothing when empty |
| SpanBatching.InvHolds | crates/cairn-app/src/metrics_otel.rs:252-340 | In every interleaving of exports, timer and shutdowns: conservation, bounds, each batch with the call that took it until its export ends, and the rules around cancel and join |
| SpanBatching.NoSpanLostBeforeHandOver | crates/cairn-app/src/metrics_otel.rs:261-335 | In every run the batches in take order followed by the buffer are the accepted spans in lock order; with a batch size of 1 or more the buffer stays below it and no batch is empty |
| SpanBatching.EmptyBatchWithSizeZero | crates/cairn-app/src/metrics_otel.rs:321-335 | With batch size 0 an empty batch is handed over |
| SpanBatching.BufferAfterLastLook | crates/cairn-app/src/metrics_otel.rs:281-335 | In every run, once the timer has made its final drain, the buffer is what the exports that got the lock since have left in it, starting from empty |
| SpanBatching.FewStayBehind | crates/cairn-app/src/metrics_otel.rs:321-335 | Late spans that are fewer than a batch all stay |
| SpanBatching.ShutdownFlushesIff | crates/cairn-app/src/metrics_otel.rs:281-316 | When a shutdown has returned, every span accepted before the first cancel was handed over; all accepted spans were if and only if those late exports left nothing; and a batch has been exported if and only if no export call is still at it |
| SpanBatching.QuietShutdownFlushes | crates/cairn-app/src/metrics_otel.rs:305-316 | With no export running at the cancel or begun after it, the buffer is empty, all spans were handed over and all inner exports have ended |
| SpanBatching.LateExportIsLeftBehind | crates/cairn-app/src/metrics_otel.rs:305-335 | For every batch size and every export of fewer spans after a shutdown, a run that leaves them all in the buffer with the timer stopped |
| SpanBatching.TimerFlushes | crates/cairn-app/src/metrics_otel.rs:261-295 | Without a cancel the delay can elapse and then everything buffered is handed over; a cancel that is set wins |
| SpanBatching.NobodyIsStuck | crates/cairn-app/src/metrics_otel.rs:261-335 | In every run each export that has not returned, a timer that has not stopped, and a shutdown whose timer has stopped, can go on |
| HexBytes.HexToBytes | crates/cairn-app/src/metrics_otel.rs:208-228 | Always the target length; byte i is made of digits 2i and 2i+1 where both exist, else 0 |
| HexBytes.DecodeUndoesPrint | crates/cairn-app/src/metrics_otel.rs:173-228 | For every n of at most len bytes, decoding its 2·len zero-padded hex digits gives its big-endian bytes, whose value is n |
| HexBytes.IdsStayDistinct | crates/cairn-app/src/metrics_otel.rs:173-182 | Distinct 64-bit ids in 16 digits, and distinct 128-bit ids in 32, decode to distinct bytes |
| HexBytes.CaseAndJunk | crates/cairn-app/src/metrics_otel.rs:208-228 | Letter case makes no difference, and what is no hex digit counts as 0 |
| HexBytes.LongAndShort | crates/cairn-app/src/metrics_otel.rs:208-228 | Surplus digits are ignored; missing pairs give zero bytes |
| NotificationRing.NotificationBuffer.constructor | crates/cairn-app/src/bin_state.rs:151-156 | Starts empty |
| NotificationRing.NotificationBuffer.Push | crates/cairn-app/src/bin_state.rs:158-163 | Drops the oldest entry of a full ring, then appends |
| NotificationRing.NotificationBuffer.List | crates/cairn-app/src/bin_state.rs:165-169 | The last entries in order, as many as asked for or there are |
| NotificationRing.NotificationBuffer.MarkRead | crates/cairn-app/src/bin_state.rs:171-178 | Sets the flag of the oldest entry with this id and nothing else; reports whether there is one |
| NotificationRing.NotificationBuffer.MarkAllRead | crates/cairn-app/src/bin_state.rs:180-184 | Sets every flag and changes nothing else |
| NotificationRing.NotificationBuffer.UnreadCount | crates/cairn-app/src/bin_state.rs:186-188 | Counts exactly the entries whose flag is not set |
| NotificationRing.RingIsWindow | crates/cairn-app/src/bin_state.rs:147-188 | After any operations the ring is the last 200 notifications of an unbounded history, flags included |
| NotificationRing.ListingIsSuffix | crates/cairn-app/src/bin_state.rs:165-188 | A listing is a suffix of the history; the unread count is that of its last 200 |
| NotificationRing.MarkFirstMeans | crates/cairn-app/src/bin_state.rs:171-178 | Marking by id sets the flag of the oldest entry with it, nothing else, and lowers the unread count by one if that was unread |
| NotificationRing.MarkAllMeans | crates/cairn-app/src/bin_state.rs:180-184 | Marking all leaves an unread count of 0 and changes nothing but flags |
| NotificationRing.UnreadMeans | crates/cairn-app/src/bin_state.rs:186-188 | The unread count is the number of places whose flag is not set |
| NotificationRing.ListingMeans | crates/cairn-app/src/bin_state.rs:165-169 | A listing is as long as asked for or as the ring, and ends with the newest |
| EventStore.AppendKeepsOk | crates/cairn-store/src/in_memory.rs:2100-2134 | Positions stay increasing and at least 1, and the index still names the first event of each causation id, with derived events between |
| EventStore.PastIsSuffix | crates/cairn-store/src/in_memory.rs:2212-2229 | A read past a position returns the suffix of the log beyond it, for increasing positions with gaps |
| EventStore.ReadStreamMeans | crates/cairn-store/src/in_memory.rs:2212-2229 | A read is the first `limit` events past the position, all of them when there are fewer |
| AppendHandler.EventsApi.constructor | crates/cairn-app/src/main.rs:1048-1062 | An empty memory log beside the given durable log, wired as secondary or not |
| AppendHandler.EventsApi.OwnsAll | crates/cairn-app/src/bin_events.rs:114-137 | Whether the gate lets the caller write the batch, by a loop over the envelopes |
| AppendHandler.GateIff | crates/cairn-app/src/bin_events.rs:114-137 | An operator, or a service account other than `admin`, may write exactly the batches its own tenant owns, with nothing of the system's; the system and `admin` may write any |
| AppendHandler.EventsApi.AppendEnvelope | crates/cairn-app/src/bin_events.rs:244-283 | Duplicate, durable failure, append, or failing secondary write: both logs and the answer in each case |
| AppendHandler.EventsApi.Notify | crates/cairn-app/src/bin_events.rs:144-239 | The hook adds the notification this envelope calls for, if it calls for one, before any duplicate check |
| AppendHandler.EventsApi.AppendEvents | crates/cairn-app/src/bin_events.rs:99-287 | Forbidden exactly for an ordinary caller with an envelope its tenant does not own; else both logs, the notification ring and the response, also when it stops mid-batch; a refused or empty call changes nothing |
| AppendHandler.NoticeIff | crates/cairn-app/src/bin_events.rs:154-232 | Which events notify of what, about which entity and page: approvals asked for and decided, runs completed and failed, tasks stuck |
| AppendHandler.NotifiedIsWindow | crates/cairn-app/src/bin_events.rs:144-239 | The ring after a call is the last 200 of what it held and of what the envelopes seen call for, duplicates included |
| AppendHandler.ReachedMeans | crates/cairn-app/src/bin_events.rs:141-287 | The envelopes seen are all, or those up to the first that fails |
| AppendHandler.AnswersAreTrue | crates/cairn-app/src/bin_events.rs:246-281 | Each envelope answered as appended stands in the log at its position, each duplicate names an event with its causation id, and the log has grown by exactly the former, in order |
| AppendHandler.SecondCallChangesNothing | crates/cairn-app/src/bin_events.rs:139-286 | If every envelope has a causation id (repeats allowed) and a call succeeded, repeating it changes neither log and answers the same positions, all as duplicates, whatever fails meanwhile |
| AppendHandler.ProcessKeepsLog | crates/cairn-app/src/bin_events.rs:242-283 | Any call, also one cut short, keeps positions increasing, the index right and each causation id in the log at most once |
| AppendHandler.ProcessOnlyAppends | crates/cairn-app/src/bin_events.rs:274-283 | What was in the memory log stays where it was |
| ConcurrentAppends.UniqueCausesIff | crates/cairn-app/src/bin_events.rs:246-274 | In every interleaving of calls each causation id is in the log at most once if and only if no envelope was committed whose id had entered the index since its own check |
| ConcurrentAppends.InterleavedCallsDuplicate | crates/cairn-app/src/bin_events.rs:246-274 | For every two envelopes with one causation id, a run of two calls that puts both in the log |
| ConcurrentAppends.LogsAgreeIff | crates/cairn-app/src/bin_events.rs:261-283 | In every interleaving from equal logs, memory follows the durable log in order if and only if no memory append overtakes an earlier durable write; between writes both hold the same events in any case, in the same order if and only if so |
| ConcurrentAppends.OvertakingReorders | crates/cairn-app/src/bin_events.rs:261-283 | For every two events, a run of two calls after which the logs differ at a place both have filled |
| ConcurrentAppends.UndisturbedIsAppendOne | crates/cairn-app/src/bin_events.rs:242-283 | With no other call in between, the steps of one envelope do what the sequential handler does, and leave other calls alone |
| AppendHandler.LogsAgree | crates/cairn-app/src/bin_events.rs:261-283 | From agreement, the durable log holds exactly the appended events of the memory log in the same order after every call, also when a durable failure cuts it short |
| AppendHandler.OriginalsAreAllIff | crates/cairn-store/src/in_memory.rs:2124-2129 | That is all of the memory log if and only if no event was derived |
| AppendHandler.SecondWriteFails | crates/cairn-store/src/in_memory.rs:2167-2186 | With the durable log wired as secondary an envelope succeeds if and only if it is a duplicate |
| AppendHandler.WiredCallSucceedsIff | crates/cairn-app/src/main.rs:1048-1062 | In that configuration a call succeeds if and only if all its envelopes were in the log before, and then changes nothing |
| AppendHandler.RetryConverges | crates/cairn-app/src/bin_events.rs:242-283 | Without a wired secondary, a call cut short by a durable failure and tried again leaves both logs as one undisturbed call would |
| AdminPaging.HasMoreIsExact | crates/cairn-app/src/bin_admin.rs:326-357 | A page is the beginning of what is owed from the cursor on, and `has_more` holds if and only if something owed is left out |
| AdminPaging.PageLength | crates/cairn-app/src/bin_admin.rs:326-347 | A page is as long as asked for, up to 500 and to the end of what is owed |
| AdminPaging.PagesTile | crates/cairn-app/src/bin_admin.rs:300-357 | Pages followed by last position + 1, over a log that may grow meanwhile, are the owed events in order without gap or repeat, and all of them once `has_more` is false |
| AdminPaging.FollowPages | crates/cairn-app/src/bin_admin.rs:320-357 | On a fixed log, with a limit of 1 or more, following the pages ends with `has_more` false |
| AdminPaging.FollowedPagesReturnTheLog | crates/cairn-app/src/bin_admin.rs:300-357 | Following the pages of a fixed log returns exactly its events at positions from the cursor on |
| Decimal.ParseUndoesPrint | crates/cairn-api/src/sse_publisher.rs:171-173 | Parsing a printed number within the range gives the number back |
| Decimal.ParseForms | crates/cairn-app/src/bootstrap.rs:184-186 | A plus sign and leading zeros make no difference; too large a number, no digit at all, or any other character is refused |
| SseReplay.FramedIffMapped | crates/cairn-api/src/sse_payloads.rs:407-611 | The name map and the payload shaper accept the same events: an event has a frame if and only if it has a name, with or without projection rows |
| SseReplay.NamesFit | crates/cairn-api/src/sse_publisher.rs:15-57 | Which events appear under which name, each name with its own payload, and which do not appear |
| SseReplay.Replay | crates/cairn-api/src/sse_publisher.rs:206-220 | The frames of the first `limit` events past the cursor: one for each mapped event, in order |
| SseReplay.ReconnectLosesNothing | crates/cairn-api/src/sse_publisher.rs:171-220 | The last frame's id parses to a cursor from which exactly the frames not yet seen follow, although it falls back over an unmapped tail |
| SseReplay.ReconnectsCompleteIff | crates/cairn-api/src/sse_publisher.rs:206-220 | Reconnecting with the last frame's id while frames arrive gets every frame once and in order if and only if no mapped event is hidden behind `limit` unmapped ones |
| SseReplay.HiddenFrameIsNeverReached | crates/cairn-api/src/sse_publisher.rs:206-220 | For every limit, a log whose one frame such a client never gets |
| LiveFanout.Connection.constructor | crates/cairn-app/src/bin_websocket.rs:70-82 | No filter, and nothing sent |
| LiveFanout.Connection.OnEvent | crates/cairn-app/src/bin_websocket.rs:143-189 | One event message if tenant gate and filter let it through, else none; a failed send ends the connection |
| LiveFanout.HeadIsAnnouncedFirst | crates/cairn-app/src/bin_websocket.rs:84-102 | In every run the first message, and no other, announces the position of the log's last event at the handshake, 0 for an empty log; a client that got none is closed |
| LiveFanout.InvHolds | crates/cairn-app/src/bin_websocket.rs:63-206 | In every interleaving of a connection with appenders: the broadcasts are the log without derived events, and the receiver's place, received and missed events account for each other |
| LiveFanout.NothingMissedPastHead | crates/cairn-app/src/bin_websocket.rs:70-95 | A connection that never lagged has received, past the announced head, a beginning of exactly the broadcast events past it, in order, and all of them once caught up |
| LiveFanout.GapFreeIff | crates/cairn-app/src/bin_websocket.rs:70-95 | Log up to the head plus live events past it is the whole log if and only if no event past the head was derived |
| LiveFanout.DerivedEventIsAGap | crates/cairn-app/src/bin_websocket.rs:70-95 | For every two events, a run in which the second is derived from the first: it is in the log past the head and is not received |
| LiveFanout.LagIsReportedIff | crates/cairn-app/src/bin_websocket.rs:191-199 | Received events plus the numbers in the warnings account for every broadcast passed since the subscription if and only if no warning failed to be sent; else by how many they fall short |
| LiveFanout.SentIsWhatPasses | crates/cairn-app/src/bin_websocket.rs:112-189 | What was sent is exactly one message per received event that the caller may see and has asked for by the last subscribe message before its receipt, in order; on a closed connection at most the last one is wanting |
| LiveFanout.EachArrivalIsAnswered | crates/cairn-app/src/bin_websocket.rs:143-189 | In every run an event that the caller may see, and whose type the last subscribe message before it names (or that names none), is sent, or the connection ends in the attempt; for any other nothing is sent |
| LiveFanout.NoForeignEvents | crates/cairn-app/src/bin_websocket.rs:144-161 | In every run each event message sent comes from a received event, and unless the caller is an administrator that is the system's or of the caller's tenant |
| AgentLoop.AgentExecutor.constructor | crates/cairn-agent/src/executor.rs:81-88 | No hook has been called |
| AgentLoop.AgentExecutor.CallHook | crates/cairn-agent/src/executor.rs:96-197 | The hook that is due is called, once, and its answer passed on |
| AgentLoop.AgentExecutor.Settle | crates/cairn-agent/src/executor.rs:149-197 | After a completed step: the hook that advice and outcome call for, if any, and the result with the step's own outcome or the escalation's reason, or on to the next pass |
| AgentLoop.AgentExecutor.Execute | crates/cairn-agent/src/executor.rs:90-198 | Each hook call follows those before it, which have all succeeded: what the completed step calls for, else the next step the driver takes, giving up past the limit, or the end on a driver error; and the result is by the end of the trace |
| AgentLoop.AgentExecutor.Loop | crates/cairn-agent/src/executor.rs:125-197 | The loop alone, from the `starting` hook on |
| AgentLoop.EachHookFollows | crates/cairn-agent/src/executor.rs:125-197 | For all drivers, reflections and hooks: what is called obeys those rules at every place |
| AgentLoop.ResultConcludes | crates/cairn-agent/src/executor.rs:125-197 | A finished result has the last step's number, and its own outcome or Failed with the escalation's reason; a driver error means the driver failed at the next step; giving up means the next number is past the limit |
| AgentLoop.TraceIsWellFormed | crates/cairn-agent/src/executor.rs:96-197 | For all driver, reflection and hook behaviours and every limit: starting, steps numbered 1, 2, ... in 32 bits, each followed by at most one request for that step's subagent, then at most one terminal hook and nothing after; at most `max` steps for every limit but the largest |
| AgentLoop.ResultMatchesTrace | crates/cairn-agent/src/executor.rs:113-197 | An Ok result ends in exactly one terminal hook, `completed` if and only if the outcome is Done, and numbers the last step; giving up takes exactly `max` steps; a driver error ends with no terminal hook |
| AgentLoop.LoopEnds | crates/cairn-agent/src/executor.rs:113-121 | Below the largest 32-bit limit, one pass more than the limit is enough |
| AgentLoop.LargestLimitNeverStops | crates/cairn-agent/src/executor.rs:113-121 | With the largest 32-bit limit a driver that always continues is never stopped |
| SessionBarrier.DelaysAddUp | crates/cairn-app/src/fabric_adapter.rs:110-141 | From the seventh on every delay is 5 ms, and the sum of the delays in closed form |
| SessionBarrier.WaitForProjection | crates/cairn-app/src/fabric_adapter.rs:102-141 | Visible, timed out or failed exactly as the last poll says, after at most 406 polls; the last sleep begins within the 2 s budget |
| SessionBarrier.GetAfterCreateFinds | crates/cairn-app/src/fabric_adapter.rs:1230-1285 | In every run, after a create has returned Ok every get of that session finds a committed flow: that of the last event drained for it |
| SessionBarrier.GetResolvesItsProject | crates/cairn-app/src/fabric_adapter.rs:1230-1285 | If the session id is used under one project only, get resolves that project |
| SessionBarrier.BridgeIsFifo | crates/cairn-app/src/fabric_adapter.rs:1230-1273 | In every run what has left the bridge, and then what is on it, is what was put on it, in order |
| SessionBarrier.GetFindsLastCreated | crates/cairn-app/src/fabric_adapter.rs:1275-1285 | Once all is drained and stored, get finds the project the session was last created under, if any |
| SessionBarrier.SharedIdResolvesOtherProject | crates/cairn-app/src/fabric_adapter.rs:80-88 | Used under two projects, a run in which it resolves the other one |
| FabricTasks.TaskServiceAdapter.constructor | crates/cairn-app/src/fabric_adapter.rs:645-650 | Nothing submitted, queued or projected |
| FabricTasks.TaskServiceAdapter.Resolve | crates/cairn-app/src/fabric_adapter.rs:727-786 | Row session, else parent run's session, else none; checked against the caller's; with each error |
| FabricTasks.TaskServiceAdapter.Submit | crates/cairn-app/src/fabric_adapter.rs:869-912 | Own session, else the parent run's, else solo; an unknown parent run changes nothing; a repeated submission queues no second event |
| FabricTasks.SubmitAnswers | crates/cairn-app/src/fabric_adapter.rs:869-912 | In every run a submission is answered with its project and task and the session it names, whatever the parent run, or else that of the last event drained for the parent run; a new execution queues one event with that session; a refusal changes nothing |
| FabricTasks.TaskServiceAdapter.Mutate | crates/cairn-app/src/fabric_adapter.rs:1014-1035 | Fabric is asked for the resolved execution, or for nothing on an error |
| FabricTasks.TaskServiceAdapter.DeclareDependency | crates/cairn-app/src/fabric_adapter.rs:915-978 | An edge is added exactly when both tasks resolve to one project and one session and differ |
| FabricTasks.DeclareAnswers | crates/cairn-app/src/fabric_adapter.rs:915-978 | In every run an edge is accepted if and only if the last events drained give both tasks one project and one session and they differ; it is then all that is new; else the error, and no change |
| FabricTasks.RowIsLastDrained | crates/cairn-store/src/in_memory.rs:408-425 | In every run the row of a task is what the last TaskCreated event drained for it says |
| FabricTasks.MutationHitsLastDrainedIff | crates/cairn-app/src/fabric_adapter.rs:727-786 | In every run a mutation addresses an execution if and only if the last event drained for the task stands for it and the caller names its session or none |
| FabricTasks.MutationAnswers | crates/cairn-app/src/fabric_adapter.rs:727-786 | In every run: not found without an event drained for the task, refused for another session, else asked of Fabric and answered so |
| FabricTasks.BridgeIsFifo | crates/cairn-fabric/src/services/task_service.rs:224-291 | In every run the executions are those the accepted submissions asked for, and events leave the bridge in the order they were put on it |
| FabricTasks.MutationFindsLastSubmitted | crates/cairn-app/src/fabric_adapter.rs:727-786 | Once all is drained and stored, a mutation addresses what the last submission that created an execution for the task was answered |
| FabricTasks.MutationHitsWhatSubmitMade | crates/cairn-app/src/fabric_adapter.rs:727-786 | What is addressed, some submit has created; so a task always submitted with a session, its own or its run's, is never looked for on the solo path |
| FabricTasks.SoloThenUnderRunMoves | crates/cairn-app/src/fabric_adapter.rs:727-786 | A run in which a task id is used solo and then under a run, and mutations move to the run's session |
| FabricTasks.CallerSessionIsChecked | crates/cairn-app/src/fabric_adapter.rs:759-783 | A caller naming a session reaches Fabric if and only if it is the session of the task's row; else nothing is asked |
| FabricTasks.SubmitUnderRunIsNeverSolo | crates/cairn-app/src/fabric_adapter.rs:877-897 | Under a parent run a submission carries a session, or is refused, exactly when it names none and the run is unknown |
| FabricTasks.GetAddressesTheSameIff | crates/cairn-app/src/fabric_adapter.rs:710-757 | In every run, reads and mutations address the same execution if and only if the row has no session or its known parent run has the same one |
| FabricTasks.GetAnswers | crates/cairn-app/src/fabric_adapter.rs:710-725 | In every run a read addresses the task's project under the session of the last event drained for its parent run, else none |
| FabricTasks.GetCanMissATask | crates/cairn-app/src/fabric_adapter.rs:710-725 | For every task submitted with a session and no parent run, mutations find it and reads do not |
| FabricTasks.ConnectedTasksShareSession | crates/cairn-app/src/fabric_adapter.rs:915-978 | In every run, tasks at the ends of a trail of accepted edges, on which no task has edges under two sessions, have executions under one project and session |
| FabricTasks.AllConnectedShareIff | crates/cairn-app/src/fabric_adapter.rs:915-978 | In every run all connected tasks share project and session if and only if no task has accepted edges under two |
| FabricTasks.OneExecutionOnePair | crates/cairn-app/src/fabric_adapter.rs:915-978 | A task with one session-bound execution has edges under one project and session only |
| FabricTasks.ReusedIdJoinsSessions | crates/cairn-app/src/fabric_adapter.rs:915-978 | For every three tasks and two sessions, a run in which accepted edges connect tasks of different sessions through the reused one |
| CivilDate.CivilFromSeconds | crates/cairn-app/build.rs:23-83 | For every number of seconds both loops end, the month stays within its table, all fields are in calendar range, and the date converts back to the same seconds by a formula that does not walk |
| CivilDate.EarlierMeansFewerSeconds | crates/cairn-app/build.rs:27-83 | An earlier valid date has strictly fewer seconds |
| CivilDate.OrderAgrees | crates/cairn-app/build.rs:27-83 | Calendar order is the order of seconds, and no two seconds share a date |
| StreamLines.LinesOfMore | sdk/typescript/cairn-client.ts:741-743 | Cutting a longer text gives the lines of its beginning, then those of the unfinished line continued |
| StreamLines.LinesAreTheText | sdk/typescript/cairn-client.ts:741-743 | The lines, each ended by a newline, and then the rest are the text |
| StreamLines.LinesHaveNoNewline | sdk/typescript/cairn-client.ts:741-743 | No line, nor the rest, has a newline in it |
| StreamLines.ClientLineMeans | sdk/typescript/cairn-client.ts:746-755 | A line with the prefix says what stands behind it without the white space around; any other says nothing |
| StreamLines.ServerLineMeans | crates/cairn-app/src/bin_providers.rs:1723-1752 | A line without the white space around it says what stands behind its prefix; any other says nothing |
| Whitespace.TrimMeans | sdk/typescript/cairn-client.ts:747 | Trimming takes the white space off both ends, all of it and nothing else |
| StreamLines.YieldLines | sdk/typescript/cairn-client.ts:745-756 | Over the lines of one chunk: the tokens before the first `[DONE]`, and whether there is one |
| StreamLines.StreamGenerate | sdk/typescript/cairn-client.ts:734-757 | For every chunking the tokens are those of the newline-terminated lines of the whole text before the first `[DONE]` |
| StreamLines.DrainBuffer | crates/cairn-app/src/bin_providers.rs:1723-1753 | The inner loop: tokens sent and buffer left |
| StreamLines.ChatStreamLoop | crates/cairn-app/src/bin_providers.rs:1705-1754 | The tokens sent over all chunks, each drained onto what the one before left |
| StreamLines.ServerUsesLines | crates/cairn-app/src/bin_providers.rs:1705-1754 | In every chunking the tokens sent are those of some first lines of the text: all of them, unless a `[DONE]` is among them |
| StreamLines.ServerChunkingIff | crates/cairn-app/src/bin_providers.rs:1730-1732 | In one chunk the text gives the tokens before the first `[DONE]`; every chunking gives the same if and only if no token follows it |
| StreamLines.TokenBehindDone | crates/cairn-app/src/bin_providers.rs:1730-1732 | For every `[DONE]` line with a token line behind it, two chunkings with different tokens |
| ArgScanner.ParseArgsWithEnv | crates/cairn-app/src/bootstrap.rs:165-248 | For all argument lists the configuration or the refusal is that of the per-flag specification: last value on the command line, else non-blank environment value, else default, then the rules of team mode |
| ArgScanner.ApplyEnvFallback | crates/cairn-app/src/bootstrap.rs:125-155 | Only fields not given on the command line are taken from the environment; the first bad value is refused |
| ArgScanner.TakeFlag | crates/cairn-app/src/bootstrap.rs:175-225 | One flag with its value keeps every field at the per-flag specification of the pairs so far, or is refused as bad |
| ArgScanner.PairsUndoFlatten | crates/cairn-app/src/bootstrap.rs:172-230 | A well-formed command line is read as written, even when a value looks like a flag |
| ArgScanner.OrderAcrossFlagsIsFree | crates/cairn-app/src/bootstrap.rs:172-248 | Command lines that give each flag the same values in the same order are both refused or give the same configuration |
| ArgScanner.SwapChangesNothingIff | crates/cairn-app/src/bootstrap.rs:172-248 | Swapping neighbours with different flags changes nothing if and only if they are not the first two bad values |
| ArgScanner.SwapCanChangeTheComplaint | crates/cairn-app/src/bootstrap.rs:172-193 | A bad mode and a bad port: the complaint is about the first, either way round |
| ArgScanner.CommandLineWins | crates/cairn-app/src/bootstrap.rs:125-155 | The environment value of a flag given on the command line has no effect |
| ArgScanner.TeamModeIsSafe | crates/cairn-app/src/bootstrap.rs:232-247 | A returned team configuration binds no loopback address, has no auto-generated key and no `.db` or `.sqlite` file |
| ArgScanner.RefusedIff | crates/cairn-app/src/bootstrap.rs:53-90 | Starting is refused if and only if some mode or port value is bad, a consulted environment value is bad, or team mode has such a SQLite file |
| ArgScanner.FieldsMean | crates/cairn-app/src/bootstrap.rs:73-99 | Each field of a returned configuration by the values given for it: mode words, port, address, keys, TLS |
| ArgScanner.StorageMeans | crates/cairn-app/src/bootstrap.rs:87-99 | The storage is memory, Postgres or SQLite by the word or the scheme of the value |
| ArgScanner.FlagsByName | crates/cairn-app/src/bootstrap.rs:172-230 | Each of the seven flags by its name takes the next argument, and means nothing at the end; any other argument is passed over |
| ArgScanner.NonBlankMeans | crates/cairn-app/src/bootstrap.rs:130-153 | An environment value counts without the white space around it, and not at all if there is nothing else |

## Left out

- Transport and encoding: HTTP routing and status codes, JSON, protobuf, sockets and databases. A backend's answers (poll results, durable failures, send failures, driver steps) are parameters.
- Contents of event payloads, message texts, and creation times of notifications; the id of a notification is cut by characters, where the source cuts bytes and can panic inside a character.
- ConcurrentAppends.UniqueCausesIff: for appends by calls of the handler; other writers of the memory log are not part of the runs.
- AppendHandler.RetryConverges: only without a wired secondary log; with one, `WiredCallSucceedsIff` applies.
- FabricTasks.AllConnectedShareIff: Fabric's own refusals of edges other than a task's dependency on itself (cycles, repeats) only make fewer edges.
- FabricTasks.TaskServiceAdapter.Mutate: stands for all mutations (claim, start, complete, and so on), which resolve alike; their effect inside Fabric, and its error classification, are not modelled.
- AgentLoop.AgentExecutor.Execute: observed for a number of passes, because the source's loop need not end; a debug build stops with an overflow at the largest limit instead of wrapping.
- SpanBatching.InvHolds: a call whose future is dropped midway, a panicking timer task, and what a failing inner export does with its batch are not modelled.
- Entitlements.RunsPerDayBound: daily limits below 2^32, as their type has it; a check under an unlimited plan clears nothing, so runs recorded under such a plan are outside the bound.
- StreamLines.ServerChunkingIff: chunks are decoded text; a chunk boundary inside a multi-byte character, which the server decodes lossily on each side, is not modelled. A read error ends the stream: the chunks are those before it.
- AdminPaging.FollowPages: with a limit of 0 every page is empty and `has_more` never turns false on a non-empty rest.
- Projections other than the row a lookup needs; snapshot, restore, rebuild and compaction. What projections derive on an append is a parameter.
- Raw event-log appends that write session, run or task events around Fabric.
- Session, feature and seat checks, the detailed usage report and its percentages: counting of the same kind, or floating point.
- `event_count_handler`, `list_events_handler`, `list_dead_lettered`, `estimate_tokens` and `compute_max_output_tokens`: single passes or arithmetic that would add only easy members.
- The text layout of the build date, and the command line parser of the binary beyond the helpers it shares.
