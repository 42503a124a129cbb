# Realtime client: event dispatch and connection lifecycle

A Dafny model of the core of `RealtimeClient`, the asynchronous client for a
realtime speech/text API spoken over one WebSocket. The client keeps four
pieces of state that its operations update in place:

- `ws`, the WebSocket connection (absent until the first `connect`);
- `event_handlers`, at most one handler registration per server event name,
  each a handler together with the positional and keyword arguments bound to it;
- `pending_events`, one waiter entry per event name, each a one-shot signal;
- `listener_task`, the background task that reads server frames.

`on`/`off` edit the handler registry; `emit` routes one decoded server event,
first setting the signal of the waiter registered under exactly that name and
then calling the handler registered under it; `wait_for` adds a waiter,
suspends, and deletes the waiter when it resumes; `connect`, `disconnect` and
`send_event` are guarded by `is_connected`; `__aenter__` connects and then
starts the listener; `__aexit__` clears both registries, cancels and drops the
listener task, and only then disconnects; the listener reads frames in arrival
order, emits each one completely before reading the next, and stops at the
first exception. The one-command helpers each build exactly one outbound
command with a fixed type tag and hand it to `send_event`.

Modules:

- `Wrappers` (`wrappers.dfy`): `Option`, `Result`, `Outcome`.
- `Wire` (`wire.dfy`): decoded JSON values, inbound frames (a decoded value or a
  decoding failure), how the stream ends, outbound commands as a
  `(type tag, fields)` record, and a socket as a protocol state plus the
  commands written to it.
- `Dispatch` (`dispatch.dfy`): `emit` and the listener loop as pure functions
  (`Emit`, `Step`, `Run`) over the two registries and a trace of effects
  (a waiter signalled, a handler called).
- `Listener` (`listener.dfy`): lemmas about whole runs of the listener.
- `Client` (`client.dfy`): the class `RealtimeClient` with the fields above and
  one method per operation; each method's postcondition ties the new state to
  the functions of `Dispatch` or states it outright.

Foreign parts are parameters: whether the WebSocket handshake succeeds
(`handshakeOk`), whether a handler call raises (`handlerRaises`, or the set
`raising` of frame positions whose handler raises), the frames the server
sends and how the stream ends. Handlers are identified by an opaque
`ObjectId`; calling one appends an `Invoked` effect to the client's `trace`,
and setting a waiter's signal appends a `Signalled` effect.

Behaviour of the code as written that the model keeps. The source's own
comments describe handler exceptions as "eaten" (realtime_client.py:175) and
the listener as cancelling itself on any error (realtime_client.py:115-119);
the model follows what the statements do:

- An exception raised by a handler leaves `emit` and ends the listener; it is
  not logged and swallowed per dispatch.
- A `wait_for` that times out skips its `del`, so the entry stays in
  `pending_events` and a later `wait_for` of the same name returns at once.
- A frame that is not JSON, or lacks `"type"`, ends the listener but does not
  close the connection: `send_event` keeps working afterwards.
- `disconnect` closes the connection but keeps it referenced in state CLOSED,
  and a later `connect` opens a new one.
- A second `wait_for` for a name that already has a waiter returns at once
  instead of waiting.
- `emit` logs the event before anything else, and the log line reads
  `event['type']` (realtime_client/utils/logger.py:85): a direct call with an event that has no
  `"type"` raises KeyError before any waiter is set or handler called. The
  listener only passes events that have a `"type"` member, and `Dispatch.Emit`
  requires one.
- The generic `except` clause of the listener logs `event['type']`; when no
  frame has been decoded yet (`event` is unbound), or the last decoded value is
  not an object or has no `"type"`, that log line raises in turn, so the task
  ends failed with that error instead of cancelling itself
  (`ListenerExit.Crashed`).
- A `"type"` that is a list or an object cannot be looked up in the registries
  and raises `TypeError`, which ends the listener; any other non-string
  `"type"` (number, boolean, null) matches no entry and is ignored.

## Model

| member | source | states |
|---|---|---|
| Dispatch.Emit | realtime_client/realtime_client.py:176-187 | for an event that has a "type" member, emit adds or removes no waiter entry, and raises exactly when a handler is registered under the name and that handler raises |
| Dispatch.EmitWakesThenCalls | realtime_client/realtime_client.py:176-187 | only the waiter for the name becomes set, and it is signalled exactly when it exists; no other waiter is signalled; the handler for the name, and only it, is called exactly once with the event and its bound arguments; the signal precedes the handler call |
| Dispatch.EndOf | realtime_client/realtime_client.py:122-127 | when every frame was read, the stream's end (normal close or ConnectionClosedError) leaves the connection closed and is not a frame fault |
| Dispatch.Abort | realtime_client/realtime_client.py:128-130 | an exception from a frame that reaches the generic except clause is the cause the listener stops with |
| Dispatch.RouteOf | realtime_client/realtime_client.py:123-124 | a frame is delivered exactly when it decodes to an object whose "type" member is a string; the delivered event is that decoded object and its name is that string |
| Dispatch.Step | realtime_client/realtime_client.py:122-124 | one pass of the loop body raises nothing exactly when the frame decodes to an object whose "type" is usable and its handler does not raise; otherwise it raises that frame's fault; only a delivered frame changes the waiters or has effects, and then exactly those of emit |
| Dispatch.RunStep | realtime_client/realtime_client.py:121-124 | the listener is one loop pass followed by the rest of the run, or ends with that pass's exception |
| Dispatch.Run | realtime_client/realtime_client.py:121-130 | the listener reads frames in order from its start and never past the end; no waiter entry is added or removed |
| Listener.HandlerCallsFollowFrames | realtime_client/realtime_client.py:121-124 | the handler calls made are exactly one per frame read whose name has a handler, in arrival order, each with that frame's event |
| Listener.SignalledExactlyByNamingFrames | realtime_client/realtime_client.py:121-124 | an existing waiter is set after the listener exactly when it was set before or some frame read names it |
| Listener.StopsAtFirstFault | realtime_client/realtime_client.py:121-130 | the first frame that raises (malformed JSON, non-object, missing or unhashable "type", raising handler) is the last frame read, and its exception is the one the loop stops with |
| Listener.ReadsAllUnlessStopped | realtime_client/realtime_client.py:121-130 | unless a frame raises, every frame is read and the loop ends as the stream ends; when one raises, it is the last read and every earlier frame was dispatched cleanly |
| Listener.LaterFramesNeverRead | realtime_client/realtime_client.py:121-130 | once a frame has stopped the listener, frames arriving after it change nothing |
| Listener.EveryFrameInvokesItsHandler | realtime_client/realtime_client.py:121-124 | with a handler for n that never raises and frames all named n, the handler is called once per frame, in order, with each frame's event, and the loop ends with the stream |
| Listener.FirstFrameNotJsonCrashes | realtime_client/realtime_client.py:121-130 | a first frame that is not JSON makes the except clause's log line raise because `event` is unbound |
| Client.TaskAfter | realtime_client/realtime_client.py:121-130 | the listener task is no longer running once the loop has ended |
| Client.RealtimeClient.Create | realtime_client/realtime_client.py:77-94 | construction fails exactly when the API key is empty; an empty model name becomes the default model; a new client has no connection, no handlers, no waiters and no listener |
| Client.RealtimeClient.Init | realtime_client/realtime_client.py:83-94 | the fields start as given, with empty registries and no connection or listener |
| Client.RealtimeClient.IsConnected | realtime_client/realtime_client.py:189-195 | connected exactly when a connection exists and is in state OPEN |
| Client.RealtimeClient.Connect | realtime_client/realtime_client.py:197-218 | fails with ValueError and changes nothing when connected; otherwise a successful handshake leaves a fresh open connection and a failed one leaves the old connection |
| Client.RealtimeClient.Disconnect | realtime_client/realtime_client.py:220-230 | fails with ValueError and changes nothing when not connected; otherwise the connection becomes CLOSED and stays referenced |
| Client.RealtimeClient.SendEvent | realtime_client/realtime_client.py:232-245 | when connected, exactly the one command is written to the connection; otherwise ConnectionError and nothing is written |
| Client.RealtimeClient.On | realtime_client/realtime_client.py:132-156 | the registration for the name becomes the given handler with its arguments, replacing any earlier one; other names keep their registrations; nothing else changes |
| Client.RealtimeClient.Off | realtime_client/realtime_client.py:158-165 | the name has no registration afterwards and every other registration is unchanged (so a second call changes nothing) |
| Client.RealtimeClient.Emit | realtime_client/realtime_client.py:167-187 | an event without "type" makes the logging raise KeyError and changes nothing; otherwise the waiters and the trace change exactly as Dispatch.Emit says, and the handler's exception is reported |
| Client.RealtimeClient.WaitBegin | realtime_client/realtime_client.py:259-261 | a name already waited on returns at once and adds nothing; otherwise a fresh unset entry is added and the caller suspends |
| Client.RealtimeClient.WaitResume | realtime_client/realtime_client.py:261-262 | resuming deletes the entry for the name, or raises KeyError when it is gone |
| Client.RealtimeClient.WaitTimeout | realtime_client/realtime_client.py:261 | a timeout raises TimeoutError and leaves every field as it was, the waiter entry included |
| Client.RealtimeClient.WaitAfterTimeout | realtime_client/realtime_client.py:259-262 | after a wait that timed out, the next wait for the same name returns at once and its unset entry remains |
| Client.RealtimeClient.Enter | realtime_client/realtime_client.py:96-99 | the listener is started only after connect succeeded; a failed connect leaves connection and listener as they were |
| Client.RealtimeClient.Exit | realtime_client/realtime_client.py:101-111 | both registries end empty and the listener task is dropped; with no listener task the teardown stops before disconnecting; otherwise disconnect runs last and fails when the connection is not open |
| Client.RealtimeClient.ReadFrame | realtime_client/realtime_client.py:122-124 | one pass of the loop body changes the waiters and the trace as Dispatch.Step says and raises that step's fault |
| Client.RealtimeClient.ReadFrames | realtime_client/realtime_client.py:121-130 | the loop leaves the waiters and the trace as Dispatch.Run says and ends as Run's exit |
| Client.RealtimeClient.Listen | realtime_client/realtime_client.py:113-130 | after the listener, waiters and trace are those of Dispatch.Run; the connection is closed exactly when the stream ended or was lost; the task ends done, cancelled or failed as the loop ended |
| Client.RealtimeClient.ConversationItemCreate | realtime_client/realtime_client.py:266-275 | sends exactly one "conversation.item.create" command carrying the item |
| Client.RealtimeClient.ConversationItemDelete | realtime_client/realtime_client.py:277-286 | sends exactly one "conversation.item.delete" command carrying the item id |
| Client.RealtimeClient.ConversationItemTruncate | realtime_client/realtime_client.py:288-307 | sends exactly one "conversation.item.truncate" command carrying item id, content index and audio end |
| Client.RealtimeClient.InputAudioBufferAppend | realtime_client/realtime_client.py:309-318 | sends exactly one "input_audio_buffer.append" command carrying the audio |
| Client.RealtimeClient.InputAudioBufferClear | realtime_client/realtime_client.py:320-326 | sends exactly one "input_audio_buffer.clear" command with no fields |
| Client.RealtimeClient.InputAudioBufferCommit | realtime_client/realtime_client.py:328-334 | sends exactly one "input_audio_buffer.commit" command with no fields |
| Client.RealtimeClient.ResponseCancel | realtime_client/realtime_client.py:336-342 | sends exactly one "response.cancel" command with no fields |
| Client.RealtimeClient.ResponseCreate | realtime_client/realtime_client.py:344-358 | sends exactly one "response.create" command, carrying the response configuration only when one is given |
| Client.RealtimeClient.SessionUpdate | realtime_client/realtime_client.py:360-369 | sends exactly one "session.update" command carrying the session configuration |

## Left out

- The real WebSocket: opening it (URI with the model query parameter, the authorization and beta headers, open/ping/close timeouts), sending and closing are network I/O; a connection is a protocol state plus the commands written to it, and the handshake outcome is a parameter.
- Reading the API key from the `OPENAI_API_KEY` environment variable: `Create` receives the key after that lookup.
- asyncio scheduling: task creation, the interleaving of the listener with other coroutines, `asyncio.Event` objects and `wait_for` timing in seconds. `wait_for` is split into its begin, resume and timeout steps, and a timeout is an outcome chosen by the caller rather than a clock.
- Client.RealtimeClient.Exit: cancelling the listener only requests cancellation; the model drops the task reference without modelling the cancelled task's later progress.
- The difference between synchronous and coroutine handlers, and anything a handler does to the client while it runs: a handler is an opaque identity whose call is recorded, and whether it raises is a parameter.
- A handler that raises ConnectionClosed itself, which the listener would treat as a lost connection; the model treats every handler exception as a handler fault.
- The logger's console output (`log_event`, `debug`, `error`). Two ways logging raises are modelled: the `event['type']` read in `log_event` (realtime_client/utils/logger.py:85), which emit performs first (`Client.RealtimeClient.Emit`), and the `event['type']` read in the f-string of the listener's generic `except` clause (realtime_client/realtime_client.py:129, `Dispatch.Abort`).
- Serialisation of outbound commands (`dump_json` over the pydantic event classes): a command is its type tag plus the fields set explicitly; the classes under `realtime_client/events` and `realtime_client/models` are not part of this model.
- JSON numbers are integers only; floating-point values play no part in routing.
- Dispatch.Emit: the KeyError of the log line at realtime_client/realtime_client.py:174 for an event without "type" is modelled by `Client.RealtimeClient.Emit`; the pure function requires a "type" member, which every frame the listener delivers has.
- Dispatch.Run: for a frame whose `"type"` is a number, boolean or null, `emit` is called but matches no entry; the model skips that call, which has no effect other than logging.
- The console application (audio capture and playback, keyboard polling) is not part of this model.
