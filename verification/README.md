# oxicast, modelled and proved in Dafny

oxicast is an async Google Cast client. A connected client is three background tasks (reader, writer,
heartbeat) that share an `alive` flag, a swappable write channel, a table of pending requests, watch
channels and a bounded event channel; a reconnect procedure, serialized by a mutex, replaces the whole
task generation while user calls, `disconnect` and the auto-reconnect monitor go on. This project models
that protocol as atomic steps under an arbitrary scheduler (one step per lock acquisition, atomic load or
store, or channel send) and proves invariants over all runs. Beside it stand the parts the protocol is made
of: request correlation, the router, the wire format, the media serializer and parser, backoff, heartbeat
timing and the file server.

Three kinds of module:

- State machines, for what only makes sense under interleaving: `Lifecycle` (`reconnect_with_attempt`,
  `disconnect`, `TaskHandles::shutdown`, `writer_loop`, `reader_loop`, the heartbeat task and
  `spawn_auto_reconnect` of src/client.rs), `Correlation` (`RequestTracker` under concurrent calls,
  connections and answers) and `Session` (the tracked media session id). Each has a `Step` function that gives
  the state after an action, or `None` where the action is not allowed, and `Run` for any sequence of actions
  (`Machine`). Around `Lifecycle`: `LifecycleShutdown` and `LifecycleHolder` say what the steps of a shutdown,
  a disconnect, the monitor and the lock-holding reconnect do and leave alone; `LifecycleSafety` has the inductive
  invariant, `LifecycleProgress` the absence of deadlock, `LifecycleAnswers` what the answer of a reconnect says,
  `LifecycleWatch` what the connection watch is told, `LifecyclePermanence`, `LifecycleTruth`, `LifecycleOverlap`
  and `LifecycleEvents` what a disconnect rules out, `LifecycleRecovery` what a reconnect achieves, and
  `AutoReconnect` and `AutoRecovery` what the monitor may do and gets done. `CorrelationProgress` is about the end
  of calls.
- Imperative classes and methods, for what the source updates in place: `RequestTracker.Tracker`,
  `Router.Holder`, `Framing.ReadMessage`/`ReaderLoop`/`WriteMessage`/`WriterLoop`, `Media.JsonMap` and the
  serializers, `Heartbeat.Shared` and its loop, `Backoff.HandleOutage`, `Serve.FileServer`. Each method's
  contract ties its whole new state to a specification function, and the properties are lemmas about that
  function.
- Pure modules: `Json` (a JSON value tree), `Types`, `Parsing`, `DeviceStatus` (what a device sends), `Proto`,
  `Wrappers`.

`dafny verify dfyconfig.toml` checks everything.

Where the code and its documentation disagree, the model follows the code:

- docs/getting-started.md:256 says that `reconnect()` works after `disconnect()`; src/client.rs:332 returns
  `Disconnected`, and that is what `LifecyclePermanence.DisconnectIsPermanent` states.
- docs/architecture.md:95 says that a reconnect creates a fresh event channel; src/client.rs:365-367 keeps it.

Seven properties one might expect are false of the code, and are stated with the exact condition under which they
hold. A reconnect is meant to be ruled out by two checks of `shutting_down` (src/client.rs:332, 360); the first
five conditions say where it stands, past one of these checks, when `disconnect` sets the flag.

- "After `disconnect` the client stays down": no later step sets `alive`, spawns a task, posts `Connected` or
  answers a later reconnect with anything but `Disconnected`. `LifecyclePermanence.DisconnectIsPermanentExactly`:
  if and only if no reconnect is between its second check and its last spawn, or past it and still able to post
  `Connected` (17 or 18 in the numbering of `HolderPc.Rank`, with the writer running, or 19 or 20).
- "`alive` implies that the tasks run." `LifecycleOverlap.AliveIsTruthfulExactly`: in a client where no earlier
  `disconnect` did so, a `disconnect` keeps it true, in every continuation without a further such start, if and
  only if it does not start between the second check and the reset of `shutting_down` (src/client.rs:360-374).
  Otherwise some run ends with `disconnect` returned, `alive` set, `shutting_down` cleared and nothing running,
  so that a later `reconnect()` reports success and does nothing; `AliveCanLie` shows that every client has one.
- "After `disconnect` returns, the event stream ends." `LifecycleEvents.EventStreamEndsExactly`: if and only if
  no reconnect carries a live sender past it. It does so up to the store of the task handles
  (src/client.rs:410): a `disconnect` that starts just before that store may find the old, empty handles and
  return with the new tasks running.
- "After `disconnect` returns, `connection_state()` is `Disconnected`."
  `LifecycleWatch.WatchStaysDisconnectedExactly`: in every run and from the return on, if and only if no reconnect
  has news ahead: it is not between its first check and its post of `Reconnecting` (1 or 2 in the numbering of
  `HolderPc.Rank`), nor between its second check and its post of `Connected` with its writer, once spawned, still
  listening until the first message is sent (8 to 20). `Disconnected` is posted in any case (`DisconnectIsTold`).
- "`disconnect` disables auto-reconnect" (src/client.rs:292). `AutoRecovery.DisconnectDisablesExactly`: a `disconnect`
  that begins while the monitor is between outages disables it, in every run, if and only if no reconnect is between
  its second check and its reset of `shutting_down`.
- "Each backoff delay is longer than the one before." `Backoff.DelaysIncreaseExactly`: if and only if the
  configured delay is positive and the attempt number is at most 32, where the power of two saturates.
- "Parsing what was serialized gives the value back." `Media.MediaRoundTrip`: if and only if the duration is
  absent or finite and positive and the metadata's floats are finite.

## Model

| member | source | states |
|---|---|---|
| LifecycleSafety.StepKeepsInv | src/client.rs:41-422 | every step of every actor, taken from any state that satisfies the invariant (tasks accounted for, locks owned by one party, one generation alive), leads to such a state |
| LifecycleSafety.ReachedIsSound | src/client.rs:158-252 | every state of every run of a client fresh from `from_builder` satisfies that invariant |
| LifecycleSafety.OneGeneration | src/client.rs:41-410 | in every reachable state all running tasks belong to the newest generation, and each is held in `task_handles`, awaited by the shutdown in progress, or held by the one reconnector that owns the lock |
| LifecycleSafety.OldTasksAreSilent | src/client.rs:329-410 | once a newer generation exists, no task of an older one takes another step: it cannot clear `alive`, post `Disconnected` or clear pending requests |
| LifecycleShutdown.ShutdownKeepsShape | src/client.rs:41-55 | the first step of `TaskHandles::shutdown` cancels the token; no step moves a task, sets a flag or swaps a channel, and only the last moves a call: the one that holds the lock |
| LifecycleShutdown.DisconnectKeepsShape | src/client.rs:293-314 | each step of `disconnect` outside the shutdown moves that call one place on; it clears `alive`, posts `Disconnected`, emits `Disconnected(None)` and closes the event slot at their places, and does nothing else anywhere |
| LifecycleShutdown.AutoKeepsShape | src/client.rs:955-1033 | the monitor touches neither flags, tasks nor locks; it posts `Disconnected` and emits "reconnect failed" where it gives up and nothing anywhere else |
| LifecycleSafety.TaskKeepsShape | src/client.rs:845-939 | a task answers no call; it posts `Disconnected` at the one place of a failure, emits routed events, `Disconnected` with the read error, or `HeartbeatTimeout` at their places through its own sender, and nothing anywhere else |
| LifecycleHolder.ReconnectKeepsShape | src/client.rs:327-422 | each step of the lock-holding reconnect moves it one place on, or answers its call with the one answer of that place, exactly where a check or a send fails or at the end; it touches flags, tasks, watch and event channel at their places only, posting `Reconnecting` and `Connected` and emitting their events there |
| LifecycleAnswers.AnswersExactly | src/client.rs:327-422 | over every run a reconnect is answered `Ok` if and only if it found `alive` set, or has itself added a generation, then posted `Connected` and returned; `ConnectError` if and only if its TLS handshake failed; `Disconnected` if and only if one of its two checks found `shutting_down` set or one of its two sends found the writer gone |
| LifecycleAnswers.AnswerStands | src/client.rs:322-330 | an answer once given never changes in any run |
| LifecycleRecovery.ReconnectCanSucceed | src/client.rs:327-422 | from every state of the invariant in which a reconnect has the lock of a client that is down, with no `disconnect` in the way: with its handshake accepted some run ends with the answer `Ok`, `Connected` on the watch, and one new generation whose three tasks run undisturbed and are held |
| LifecycleRecovery.ReconnectCanFail | src/client.rs:345-356 | from the same states, with its handshake refused, some run ends with `ConnectError`, no new generation, and the attempt or `Disconnected` on the watch |
| LifecycleWatch.DisconnectIsTold | src/client.rs:293-306 | in every run, whenever a `disconnect` has returned, `Disconnected` has been posted and the watch's version has grown since it began |
| LifecycleWatch.FailureIsTold | src/client.rs:863-936 | in every run, once a failed reader, writer or heartbeat is past its post or done, `Disconnected` has been posted since it failed |
| LifecycleWatch.SoundTasksPostNothing | src/client.rs:845-939 | in every run a task that has not failed posts nothing, however it is cancelled or aborted: controlled shutdowns are silent |
| LifecycleWatch.WatchStaysDisconnectedExactly | src/client.rs:293-418 | from the return of a `disconnect` on the watch shows `Disconnected` in every run, if and only if no reconnect can still post when it begins |
| LifecycleProgress.DisconnectsMoveOn | src/client.rs:293-315 | no step of any actor moves a `disconnect` call but forward, one place at a time, and its post is made on the way |
| LifecycleProgress.OthersKeepTasks | src/client.rs:41-422 | a step of any actor but the tasks leaves every running task of every generation where it is, and spawns only in the loop |
| LifecycleProgress.ShutdownCanFinish | src/client.rs:41-55 | from every state of the invariant, a shutdown in progress can be driven to the release of `task_handles` by its own steps and those of the aborted tasks it joins |
| LifecycleProgress.DisconnectCanFinish | src/client.rs:293-315 | no deadlock: from every reachable state an unfinished `disconnect` can be driven to its return |
| LifecycleProgress.ReconnectCanFinish | src/client.rs:327-422 | no deadlock: from every reachable state the reconnect that holds the lock can be driven to an answer and the release of the lock |
| LifecycleProgress.CancelledTasksCanEnd | src/client.rs:845-939 | without any abort a cancelled reader, writer or heartbeat can be driven to its end by its own steps, and so can a writer whose channel is closed and a heartbeat whose writer is gone |
| LifecyclePermanence.DisconnectIsPermanent | src/client.rs:293-374 | after a `disconnect` that begins while no reconnect can still revive or announce the client, no later step of any run sets `alive`, spawns a task or posts `Connected`, and a reconnect called afterwards can only return `Disconnected` |
| LifecyclePermanence.DisconnectIsPermanentExactly | src/client.rs:360-418 | none of the four ever happens in any run if and only if, when `disconnect` begins, no reconnect is between its second check and its last spawn or can still post `Connected` |
| LifecyclePermanence.CommittedHolderUndoes | src/client.rs:358-418 | from every state with such a reconnect, some run sets `alive`, spawns a task or posts `Connected` |
| LifecycleTruth.AliveIsTruthful | src/client.rs:373-410 | in every state of every run in which no `disconnect` begins between a reconnect's second check and its reset of `shutting_down`, `alive` implies that the newest reader, writer and heartbeat all run, except between the store of the flag and the third spawn |
| LifecycleTruth.StepKeepsTruth | src/client.rs:845-939 | no single step, of a failing task, a shutdown or a reconnect, leaves `alive` set with one of the three tasks gone |
| LifecycleOverlap.AliveIsTruthfulExactly | src/client.rs:293-410 | after such a run, a `disconnect` that starts now keeps `alive` truthful in every continuation without a further such start if and only if no reconnect is now between its second check and its reset of `shutting_down` |
| LifecycleOverlap.AliveCanLie | src/client.rs:293-410 | every client has a run without earlier `disconnect` after which one overlaps a reconnect and returns with `alive` set, `shutting_down` cleared and no task running |
| LifecycleEvents.NoSenderStays | src/client.rs:264-314 | once no event sender is left, no step of any actor brings one back, and only the consumer touches the stream |
| LifecycleEvents.EventStreamEndsExactly | src/client.rs:302-410 | a `disconnect` leaves no event sender whenever it has returned, in every run, if and only if no reconnect carries a live sender past it when it begins |
| LifecycleEvents.EventStreamEnds | src/client.rs:264-314 | after such a `disconnect` has returned, whatever steps follow, `next_event` hands out exactly the buffered events in order and then only `None` |
| LifecycleEvents.StepsEmitOne | src/client.rs:821-828 | no step but the consumer's takes an event away, and none buffers more than one event, or any without room, or through a slot that cannot be read or holds the dead sender |
| LifecycleEvents.ConsumerTakesOldest | src/client.rs:264-266 | the consumer takes the oldest buffered event, or learns of the end of a stream that has no sender left |
| LifecycleEvents.BufferIsBounded | src/client.rs:821-828 | in every reachable state the event buffer holds at most its capacity |
| LifecycleEvents.TerminalEventIsLast | src/client.rs:307-314 | if the terminal emit finds the sender live and room in the buffer, and no reconnect or give-up emits after it, the last event of the stream is `Disconnected(None)` |
| AutoReconnect.AutoReconnectIsBounded | src/client.rs:955-1033 | in every reachable state the attempts of the outage are 1, 2, ..., n without gaps, n at most the maximum, all but the last failed; "reconnect failed" is tried at most once, only after all allowed attempts failed, and the monitor is then gone; and a monitor gone after its last attempt failed has tried it exactly once |
| AutoRecovery.ObservedOutageBegins | src/client.rs:974-980 | whenever the monitor reads the watch, its move begins an outage at attempt 1 exactly when the watch shows `Disconnected` and attempts are allowed, and otherwise it waits again |
| AutoRecovery.OutageFollowsPattern | src/client.rs:977-1030 | for every pattern of handshakes some run takes the monitor from the start of an outage through attempts 1 to n, n the first success or the maximum, each call answered as its handshake went: to a client that is up and a waiting monitor, or to exactly one give-up with `Disconnected` on the watch |
| AutoRecovery.FailureIsHandled | src/client.rs:845-1033 | from every healthy client with a waiting monitor, a read failure, a write failure or a heartbeat timeout is an outage that can be driven through any pattern of handshakes to its end |
| AutoRecovery.EveryClientSurvives | src/client.rs:158-1033 | every client with auto-reconnect has, for any series of such failures with some handshake accepted in time in each, a run through all of them, after which it is healthy, on one new generation for each failure |
| AutoRecovery.MonitorIsNeverStuck | src/client.rs:980-1030 | from every reachable state a monitor in the middle of an outage can be driven to its next move; in particular its call, queued or holding the lock, to an answer |
| AutoRecovery.DisconnectDisablesExactly | src/client.rs:292-374 | a `disconnect` that begins while the monitor is between outages is followed by no attempt in any run, if and only if no reconnect is between its second check and its reset of `shutting_down` |
| AutoRecovery.MonitorWakesForNews | src/client.rs:955-976 | in every reachable state the waiting monitor wakes only for a version of the watch that it has not seen |
| AutoRecovery.MonitorLeavesWithClient | src/client.rs:955-966 | when the last client handle is gone a waiting monitor can leave at once, and never acts again in any run |
| AutoReconnect.ExitedForEver | src/client.rs:1015-1027 | once the monitor has returned, no run makes it attempt or emit again |
| RequestTracker.Tracker.Register | src/client/request_tracker.rs:31-41 | an uninterrupted registration gives a positive id, the next of the wrapping counter, and adds exactly that entry |
| RequestTracker.Tracker.FetchAdd | src/client/request_tracker.rs:34-37 | the wrapping counter gives the id determined by the number of earlier allocations |
| RequestTracker.Tracker.Resolve | src/client/request_tracker.rs:46-53 | the entry, if there, leaves the table and its sender fires with the payload; nothing else changes |
| RequestTracker.Tracker.Remove | src/client/request_tracker.rs:63-74 | the clean-up of `wait_for` removes the id's entry and nothing else |
| RequestTracker.Tracker.Clear | src/client/request_tracker.rs:78-80 | all entries are dropped, none fires |
| RequestTracker.ResolveConserves | src/client/request_tracker.rs:46-53 | resolving keeps every registration in exactly one place, changes no earlier fate and delivers to the entry's own call |
| RequestTracker.RemoveConserves | src/client/request_tracker.rs:63-74 | removal loses no registration and changes no earlier fate |
| RequestTracker.ClearConserves | src/client/request_tracker.rs:78-80 | clearing empties the table, loses no registration and changes no earlier fate |
| RequestTracker.InsertAdds | src/client/request_tracker.rs:38-40 | an insert registers exactly the new call; an entry it replaces is accounted for as overwritten |
| Correlation.NoCrossWiring | src/client/request_tracker.rs:31-80 | with at most 2^32 id allocations, over any number of concurrent calls, connections and answers: what a call returns is a response the device made to that very call, on the one connection that carried its request, after receiving it there |
| Correlation.DistinctCallsDistinctIds | src/client/request_tracker.rs:31-41 | with at most 2^32 allocations no two calls ever hold the same id |
| Correlation.ZeroOnlyAfterWrap | src/client/request_tracker.rs:34-37 | with `register` interleaved at `fetch_add` granularity, a call gets id 0 only if at least 2^32 - 1 other allocations fell between its two |
| Correlation.InsertSparesLiveEntries | src/client/request_tracker.rs:38-39 | while every unfinished call sees at most 2^32 - 1 further allocations, an insert never replaces the entry of an unfinished call |
| Correlation.TableConserves | src/client/request_tracker.rs:31-80 | in every reachable state each registered call is either in the table, under its own id, or has met one fate (delivered, cleared, removed, overwritten), never both |
| Correlation.RouteFiresAtMostOne | src/client/router.rs:71-176 | one inbound message fires at most one sender, the one registered under its id if there is one, and alters no earlier fate |
| CorrelationProgress.RouteDelivers | src/client/router.rs:71-176 | an answer with a positive id is delivered to the call registered under that id, truncated to u32, whose entry leaves the table; nothing else changes, and any other answer changes nothing |
| CorrelationProgress.AnswersComeBack | src/client/request_tracker.rs:46-61 | end to end: from every reachable state in which a call waits with its own entry and its request was received on its connection, some run ends with the call returning the device's answer to it, whatever that says |
| CorrelationProgress.NewCallsCanSucceed | src/client/request_tracker.rs:31-61 | from every reachable state, a wrap of the id counter included, a new call can be driven from its start to any answer of the device on the current connection |
| CorrelationProgress.CallsCanFinish | src/client/request_tracker.rs:55-75 | no call hangs: from every reachable state each can be driven to its result |
| CorrelationProgress.WaitersCanTimeOut | src/client/request_tracker.rs:69-73 | a waiting call without an answer can time out, and has no entry then |
| CorrelationProgress.ResultsAreEarned | src/client/request_tracker.rs:55-75 | a finished call failed to send if and only if no request of its was ever handed to a connection; it returns `Ok` only what its sender delivered, and `Disconnected` only if its sender was dropped without an answer |
| CorrelationProgress.ClearingReleasesWaiters | src/client/request_tracker.rs:64-80 | when the table is cleared, a call waiting with an entry can notice at once and returns `Disconnected` |
| CorrelationProgress.ClearedCallsFail | src/client/request_tracker.rs:78-80 | and no call that had an entry in a cleared table returns `Ok` in any run |
| CorrelationProgress.ReplacedConnectionIsNew | src/client.rs:366-371 | after the write channel is replaced, whoever clones it, in any run, gets one that no earlier request was sent on |
| Correlation.FateIsFinal | src/client/request_tracker.rs:46-80 | in every run a sender's fate, once met, never changes: it fires at most once |
| Correlation.EntryIsAwaited | src/client/request_tracker.rs:55-75 | every entry of the table belongs to a registered call that is unfinished or failed to send |
| Correlation.NoCallNoEntry | src/client/request_tracker.rs:55-75 | when every registered call is finished and none failed to send, the table is empty |
| Session.SessionIdsAreNeverInvented | src/client.rs:556-838 | in every interleaving of broadcasts, LOAD responses, STOPs and commands, the session id of every command is positive and is the i32 value of a `mediaSessionId` in a message that came in before the command was sent |
| Session.InboundKeepsInv | src/client/router.rs:106-112 | routing a message keeps every stored, read and sent session id announced by an earlier message: a broadcast stores only the id it carries itself |
| Session.StopForgetsSession | src/client.rs:607-617 | after a STOP no command reads a session id, in any run, until a broadcast or a LOAD response stores one again |
| Session.StoredSessionIsSent | src/client.rs:556-690 | a positive id stored from a broadcast status or a LOAD response is what the next command reads and sends |
| DeviceStatus.MediaStatusRoundTrip | src/client/router.rs:250-308 | for every player state, idle reason, time, volume and media, whatever unread fields and further entries come with it and however its numbers are written, the status read from the device's JSON is exactly the one it sent, if and only if it repeats its media's duration and JSON can express that media |
| DeviceStatus.MediaStatusIsAcceptedExactly | src/client/router.rs:250-272 | a media status is accepted if and only if its first entry names one of the four player states and has an integer session id |
| DeviceStatus.BareStatusHasDefaults | src/client/router.rs:271-288 | a status with nothing but id and state is read with time 0, full volume and no media |
| DeviceStatus.ReceiverStatusRoundTrip | src/client/router.rs:198-248 | every receiver status is read back as it was sent, its applications in order, entries that lack an id and namespaces that lack a name skipped |
| DeviceStatus.BareReceiverHasDefaults | src/client/router.rs:198-248 | a receiver status with nothing but its volume is read as no application, neither active input nor standing by |
| DeviceStatus.AppIsKeptExactly | src/client/router.rs:207-237 | an application entry is kept if and only if its three ids are strings |
| DeviceStatus.MediaStatusIsAnnounced | src/client/router.rs:114-128 | the events of a device's status are the end of its session, if it is idle with a reason and a positive id, and then the status itself |
| DeviceStatus.MediaWatchHoldsStatus | src/client/router.rs:90-129 | end to end, under any schedule: once a device has sent a media status and no later one is readable, the media watch holds exactly that status, and its session id, if positive, is tracked |
| DeviceStatus.ReceiverWatchHoldsStatus | src/client/router.rs:71-88 | the same for the receiver watch |
| Router.Holder.Route | src/client/router.rs:33-186 | one message has exactly the effect of its list of steps, branch by branch and in source order, on watches, session id, event queue, resolutions and PONGs |
| Router.Holder.RouteMedia | src/client/router.rs:90-164 | statuses and the three error types resolve a request once; only a parseable status updates watch, session id and events |
| Router.Holder.RouteMediaStatus | src/client/router.rs:107-129 | session ids at or below 0 are not tracked; session-ended precedes status-changed and needs Idle, a positive id and a reason |
| Router.Holder.RouteReceiver | src/client/router.rs:71-88 | any correlated receiver message resolves its request; only a parseable RECEIVER_STATUS updates the watch and emits |
| Router.Holder.TrySend | src/client/router.rs:126-127 | an event joins the queue exactly when there is room and is dropped otherwise |
| Router.Holder.NextEvent | src/client.rs:264-266 | a poll takes the oldest buffered event; on an empty buffer it is pending while a sender exists and `None` otherwise |
| Router.ResolutionsInOrder | src/client/router.rs:71-176 | under any schedule exactly the correlated messages (JSON with a positive `requestId`, outside heartbeat and connection, on the media namespace only the four known types) resolve a request, one each, in order of arrival |
| Router.OnePongAPing | src/client/router.rs:45-52 | under any schedule each PING, and no other message, is answered with one PONG |
| Router.LastStatusWins | src/client/router.rs:81-128 | after any messages, any event capacity and any consumer schedule, the consumer acting between any two steps of the router, each watch holds the last parseable status of its kind, and the tracked session id is that of the last status with a positive one |
| Router.WorkUpdates | src/client/router.rs:33-186 | the single steps of a message, whatever their order, add up to the effects the message asks for |
| Router.UntouchedWatches | src/client/router.rs:33-186 | messages without a parseable status of a kind leave that watch, and the tracked session id, as they were |
| Router.EventsAreKeptInOrder | src/client/router.rs:61-183 | under any schedule in which the consumer may take an event between any two emissions, what it has and will receive is the ideal event list, in order, without the events that met a full buffer |
| Router.LargeBufferLosesNothing | src/client/router.rs:61-183 | a buffer as large as the ideal list loses nothing, however slow the consumer |
| Proto.VarintRoundTrip | src/proto_gen.rs:2-49 | every u64 is read back from its varint, whatever follows, using exactly the bytes written |
| Proto.DecodedVarintFits | src/proto_gen.rs:2-49 | a varint that decodes, of up to ten bytes, never exceeds a u64 |
| Proto.MessageRoundTrip | src/proto_gen.rs:2-49 | decoding the encoding of any message with valid strings gives the message back, presence of every optional field included |
| Proto.WireLayout | src/proto_gen.rs:2-49 | the bytes written are the schema's: each field that is present, in tag order, under its key byte, varints for the numbers and a length before each string |
| Proto.VarintLayout | src/proto_gen.rs:2-49 | a varint holds the groups of seven bits, least significant first, with a continuation bit on every byte but the last |
| Proto.DecodingConcatenates | src/proto_gen.rs:2-49 | decoding concatenated encodings is decoding them in turn, later fields overriding earlier ones: fields may come in any order |
| Proto.UnknownFieldIsSkipped | src/proto_gen.rs:2-49 | a field the schema does not know, nested groups included, is skipped wherever it stands |
| Proto.EncodingIsNotEmpty | src/proto_gen.rs:2-49 | no message encodes to zero bytes, so the writer never emits a frame of length 0 |
| Framing.ReadMessage | src/client/framing.rs:14-45 | the result, with all error cases including a stream that fails, and the bytes left unread equal the specification `ReadFrame` |
| Framing.ReaderLoop | src/client.rs:894-933 | the loop routes exactly the messages of `ReadAll` and stops at the first error, or exactly those before its cancellation |
| Framing.WriteMessage | src/client/framing.rs:48-76 | a message over 65,536 bytes is refused and nothing is written; otherwise its frame is appended, or a proper part of it before a write fault, with the error of the fault or of the flush |
| Framing.WriterLoop | src/client.rs:845-880 | whatever ends the loop (closed channel, cancellation, an over-long message, a fault), a reader of what it wrote gets exactly the first `written` messages of the channel and no error but the end of the stream |
| Framing.BigEndianIsMostSignificantFirst | src/client/framing.rs:16-76 | the length prefix has its most significant byte first |
| Framing.EveryPrefixIsJudged | src/client/framing.rs:16-45 | whatever follows a length prefix: 0 and more than 65,536 are refused at once, a cut-off body is the end of the stream or its I/O error, and a whole one is decoded |
| Framing.FrameRoundTrip | src/client/framing.rs:14-76 | a frame is read back as its message, leaving exactly what follows, if and only if its message is one the writer would send |
| Framing.CutFrameDisconnects | src/client/framing.rs:16-42 | any proper prefix of a frame reads as `Disconnected`, or as the stream's own I/O error |
| Framing.PrefixRoundTrip | src/client/framing.rs:14-76 | reading any prefix of concatenated frames gives exactly the messages whose frames lie wholly in it, and then `Disconnected` |
| Framing.StreamRoundTrip | src/client/framing.rs:14-76 | the same for the concrete protobuf codec: any list of messages each encoding to at most 65,536 bytes, cut off anywhere |
| Framing.StreamIsUnambiguous | src/client/framing.rs:48-76 | two message lists with the same byte stream are the same list |
| Media.SerializeImages | src/channel/media.rs:275-291 | the loop builds the JSON array of all images, in order |
| Media.SerializeMetadata | src/channel/media.rs:193-273 | the in-place insertions build the metadata object, absent options leaving no key |
| Media.SerializeMedia | src/channel/media.rs:18-33 | the in-place insertions build the media object |
| Media.JsonMap.InsertOpt | src/channel/media.rs:183-191 | an absent value leaves the map unchanged |
| Media.MetadataRoundTrip | src/client/router.rs:310-390 | for all six variants and any image list, parsing the serialized metadata gives it back if and only if its floats are finite |
| Media.MediaRoundTrip | src/client/router.rs:290-390 | a whole `MediaInfo` comes back if and only if its duration is absent or finite and positive and its metadata is finite |
| Media.ParseSerializeParse | src/client/router.rs:290-390 | for every JSON value, parse-serialize-parse equals parse |
| Media.MediaJsonIsInjective | src/channel/media.rs:18-33 | two representable media with the same JSON are equal |
| Media.LoadCarriesMedia | src/channel/media.rs:9-46 | a LOAD request carries its type, request id, session id, autoplay flag and custom data, its start time exactly when that is finite, and its media exactly when that is representable |
| Media.SerializeQueueItem | src/channel/media.rs:105-126 | the queue item's object is built from its serialized media, flag and start time |
| Media.QueueItemCarriesMedia | src/channel/media.rs:105-126 | so can the media of a queue item, beside its flag and, when finite, its start time |
| Backoff.DelayWithinAQuarter | src/client.rs:980-1001 | attempt k sleeps within a quarter either side of `reconnect_delay * 2^(k-1)`, for every seed, until the power saturates |
| Backoff.EveryOffsetOccurs | src/client.rs:986-1001 | every whole number of milliseconds from minus a quarter of the base up to, but not including, plus a quarter is the jitter for some seed |
| Backoff.OnlyTheseOffsetsOccur | src/client.rs:986-1001 | and no other jitter occurs |
| Backoff.DelaysIncreaseExactly | src/client.rs:980-1001 | without overflow, the next delay is strictly longer for every pair of seeds if and only if the configured delay is positive and k is at most 32 |
| Backoff.TotalWithinAQuarter | src/client.rs:980-1007 | the sleeps of n attempts, none overflowing, sum to between 3/4 and 5/4 of `reconnect_delay * (2^n - 1)` |
| Backoff.HandleOutage | src/client.rs:980-1030 | the attempt loop stops at the first success, at the first overflowing delay, or after all allowed attempts failed, and has slept the total just stated |
| Heartbeat.Shared.Beat | src/client/heartbeat.rs:107-125 | one tick stops on a closed channel, or else pings and clears `alive` exactly when the elapsed silence exceeds the timeout |
| Heartbeat.HeartbeatLoop | src/client/heartbeat.rs:101-132 | over any run of touches, ticks and a cancellation the task declares the timeout at the first tick past it, stops without one, or still beats, as `OutcomeOf` says, and has sent as many PINGs as `Pings` says |
| Heartbeat.OnePingATick | src/client/heartbeat.rs:105-110 | a task that still beats has sent one PING at every tick |
| Heartbeat.CancelledStops | src/client/heartbeat.rs:103-131 | a task that still beats stops at its cancellation, and at a tick that finds the write channel closed, without a further PING |
| Heartbeat.NoFalseAlarm | src/client/heartbeat.rs:105-126 | if inbound gaps stay at or below the timeout, none is ever declared |
| Heartbeat.SilenceIsDeclaredInTime | src/client/heartbeat.rs:101-126 | with punctual ticks, a task that is neither cancelled nor cut off declares silence at an elapsed time above `timeout` and at most `timeout + interval` |
| Serve.NumeralRoundTrip | src/serve.rs:109 | decimal and lowercase-hex numerals are read back as the number they print |
| Serve.AcceptedRangesAreInside | src/serve.rs:224-248 | every accepted range satisfies `start <= end < file_size`, so its length cannot underflow |
| Serve.RangeRoundTrip | src/serve.rs:229-248 | printing a pair as `bytes=s-e` and parsing it gives the pair back exactly when it is a range of the file; an over-long end is rejected, not clamped |
| Serve.SuffixSelectsTail | src/serve.rs:235-241 | `bytes=-n` selects the last n bytes, the whole file when n is larger, and nothing when n is 0 or the file empty |
| Serve.OpenRangeSelectsRest | src/serve.rs:243-247 | `bytes=n-` selects everything from n on, or is rejected past the end |
| Serve.AcceptedHeadersSpellTheirRange | src/serve.rs:224-248 | every accepted header is `bytes=`, a first position or none, a dash, and a last position, a suffix length or nothing, and the range is the one it spells |
| Serve.OnlyDigitsHaveValue | src/serve.rs:237-245 | a numeral is read as a number if and only if all its characters are digits |
| Serve.ResponsesAreExact | src/serve.rs:162-222 | the whole file answers exactly the requests without a Range header, and a request is refused exactly if its header is unreadable or spells no range of the file |
| Serve.PartialBodyIsExact | src/serve.rs:183-207 | a partial response's body is the slice it announces and has the announced length |
| Serve.PartitionsConcatenate | src/serve.rs:183-207 | the bodies served for any partition of the file concatenate to the file |
| Serve.IdsCollideExactly | src/serve.rs:108-109 | two counter values print the same id if and only if they are a multiple of 2^64 apart |
| Serve.UrlsAreStable | src/serve.rs:102-119 | over any servers and at most 2^64 registrations, every issued id keeps naming the entry it was issued for |
| Serve.FileServer.ServeFile | src/serve.rs:102-119 | a missing file is refused without using an id; otherwise the entry is added under the id in the returned URL |

## Left out

- The lifecycle, correlation and session id are state machines on values, not classes: their properties are
  about interleavings at single loads, stores and sends, which sequential methods cannot express. Sequential
  methods are given where the source updates one object in place.
- TLS, certificate verification and TCP connect (src/client/connection.rs): a step that succeeds or fails.
- mDNS discovery (src/discovery.rs), and the request builders with fixed fields: only easy claims.
- JSON text, UTF-8 decoding and IEEE rounding: JSON is a value tree, a float is a real or not finite, and
  UTF-8 validity is a parameter. A JSON parser is a parameter of the router.
- tokio: mpsc, watch, oneshot, Mutex, select and abort-then-await have their documented semantics as atomic
  steps. Dropped futures, task panics and memory orderings weaker than sequential consistency are not modelled.
- A write-channel sender cloned by a user call and still in flight: in the lifecycle the writer may see its
  channel closed while such a clone lives. In the correlation model clones are explicit.
- The interleavings inside `from_builder`: runs start from the client it hands out. Dropping the last client
  handle appears only as the failed upgrade that ends the auto-reconnect monitor.
- The media stop and the close message that `disconnect` sends first are one step that changes no shared
  flag; their requests are calls of the correlation model.
- `last_activity` is not part of the lifecycle; the heartbeat may time out at any moment there, and
  `Heartbeat` treats timing on its own, with ticks that are punctual and sends that do not block.
- Backoff overflow: a delay beyond what `Duration` can hold panics in the source; it is `None` here and ends
  the handling of the outage.
- The transport a reconnect re-addresses: whether there is one is left open, so its second send may or may not
  take place.
- Message contents beyond routing: `check_device_error`, `launch_app` polling, and the fixed fields of the
  `queue_load` and `queue_insert` payloads around their items.
- A task aborted in the middle of a read or a write; in the framing model a loop is cancelled between messages.
- axum plumbing, headers, file opening, poisoned locks and LAN-IP detection in src/serve.rs.
