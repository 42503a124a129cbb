/**
 * The realtime client: a connection, a registry of event handlers, a registry
 * of one-shot waiters and a background listener, updated in place by the
 * client's operations.
 */
module Client {
  import opened Wrappers
  import opened Wire
  import opened Dispatch

  const DefaultModel: string := "gpt-4o-realtime-preview-2024-10-01"

  /** The exceptions the client's own operations raise. */
  datatype ClientError =
    | MissingApiKey       // ValueError: no API key
    | AlreadyConnected    // ValueError from connect
    | NotConnected        // ValueError from disconnect
    | ConnectionNotOpen   // ConnectionError from send_event
    | HandshakeFailed     // whatever opening the WebSocket raised
    | NoListenerTask      // AttributeError: teardown cancels a listener task that is None
    | WaitTimedOut        // asyncio.TimeoutError from wait_for
    | WaiterEntryGone     // KeyError: the entry wait_for deletes was already removed

  /** The state of the listener task. */
  datatype TaskStatus = Running | Done | Cancelled | Failed(error: LogFault)

  /** The state the listener task is left in when the loop ends as `exit`. */
  function TaskAfter(exit: ListenerExit): (t: TaskStatus)
    ensures t != Running
  {
    match exit
    case StreamEnded => Done
    case SelfCancelled(_) => Cancelled
    case Crashed(_, g) => Failed(g)
  }

  /** How the first step of wait_for ends. */
  datatype WaitStart = Suspended | ReturnedAtOnce

  /**
   * `send_event(c)` on a connection that was `ws0` leaves it `ws1` with outcome `r`:
   * when open, exactly one frame, `c`, is written; otherwise ConnectionError and no frame.
   */
  ghost predicate SendsOne(ws0: Option<Socket>, ws1: Option<Socket>, r: Outcome<ClientError>, c: Command) {
    if IsOpen(ws0) then r == Pass && ws1 == Some(Write(ws0.value, c))
    else r == Fail(ConnectionNotOpen) && ws1 == ws0
  }

  class RealtimeClient {
    const uri: string
    const modelName: string
    const apiKey: string

    /** The WebSocket connection; None until the first connect. */
    var ws: Option<Socket>
    /** At most one handler registration per event name. */
    var eventHandlers: map<string, Registration>
    /** One waiter entry per event name; the flag is whether its signal is set. */
    var pendingEvents: map<string, bool>
    var listenerTask: Option<TaskStatus>
    /** The signals set and handler calls made by dispatch, oldest first. */
    var trace: seq<Effect>

    /** `RealtimeClient(uri, model_name, api_key)`: refuses an empty API key; an empty model name means the default. */
    static method Create(uri: string, modelName: string, apiKey: string) returns (r: Result<RealtimeClient, ClientError>)
      ensures r.Failure? <==> apiKey == ""
      ensures r.Failure? ==> r.error == MissingApiKey
      ensures r.Success? ==>
                && fresh(r.value)
                && r.value.uri == uri && r.value.apiKey == apiKey
                && r.value.modelName == (if modelName == "" then DefaultModel else modelName)
                && r.value.ws.None? && r.value.listenerTask.None?
                && r.value.eventHandlers == map[] && r.value.pendingEvents == map[] && r.value.trace == []
    {
      if apiKey == "" {
        return Failure(MissingApiKey);
      }
      var c := new RealtimeClient.Init(uri, if modelName == "" then DefaultModel else modelName, apiKey);
      return Success(c);
    }

    constructor Init(uri: string, modelName: string, apiKey: string)
      ensures this.uri == uri && this.modelName == modelName && this.apiKey == apiKey
      ensures ws.None? && listenerTask.None?
      ensures eventHandlers == map[] && pendingEvents == map[] && trace == []
    {
      this.uri, this.modelName, this.apiKey := uri, modelName, apiKey;
      ws, listenerTask := None, None;
      eventHandlers, pendingEvents, trace := map[], map[], [];
    }

    /** `is_connected()`: a connection exists and is in state OPEN. */
    function IsConnected(): (r: bool)
      reads this
      ensures r <==> ws.Some? && ws.value.state == Open
    {
      IsOpen(ws)
    }

    /** `connect()`: refuses when already connected; otherwise opens a fresh connection. */
    method Connect(handshakeOk: bool) returns (r: Outcome<ClientError>)
      modifies this`ws
      ensures old(IsConnected()) ==> r == Fail(AlreadyConnected) && ws == old(ws)
      ensures !old(IsConnected()) && handshakeOk ==> r == Pass && ws == Some(Socket(Open, []))
      ensures !old(IsConnected()) && !handshakeOk ==> r == Fail(HandshakeFailed) && ws == old(ws)
    {
      if IsConnected() {
        return Fail(AlreadyConnected);
      }
      if !handshakeOk {
        return Fail(HandshakeFailed);
      }
      ws := Some(Socket(Open, []));
      return Pass;
    }

    /** `disconnect()`: refuses when not connected; otherwise closes the connection, which stays referenced. */
    method Disconnect() returns (r: Outcome<ClientError>)
      modifies this`ws
      ensures old(IsConnected()) ==> r == Pass && ws == Some(old(ws).value.(state := Closed))
      ensures !old(IsConnected()) ==> r == Fail(NotConnected) && ws == old(ws)
    {
      if IsConnected() {
        ws := Some(ws.value.(state := Closed));
        return Pass;
      }
      return Fail(NotConnected);
    }

    /** `send_event(c)`: writes exactly one frame when connected, none otherwise. */
    method SendEvent(c: Command) returns (r: Outcome<ClientError>)
      modifies this`ws
      ensures SendsOne(old(ws), ws, r, c)
    {
      if IsConnected() {
        ws := Some(Write(ws.value, c));
        return Pass;
      }
      return Fail(ConnectionNotOpen);
    }

    /** `on(n, handler, *args, **kwargs)`: registers the handler for `n`, replacing any earlier one. */
    method On(n: string, handler: ObjectId, args: seq<ObjectId>, kwargs: map<string, ObjectId>)
      modifies this`eventHandlers
      ensures n in eventHandlers && eventHandlers[n] == Registration(handler, args, kwargs)
      ensures forall m :: m != n ==> (m in eventHandlers <==> m in old(eventHandlers))
      ensures forall m :: m != n && m in eventHandlers ==> eventHandlers[m] == old(eventHandlers)[m]
    {
      eventHandlers := eventHandlers[n := Registration(handler, args, kwargs)];
    }

    /** `off(n)`: removes the handler for `n` if there is one; nothing else changes. */
    method Off(n: string)
      modifies this`eventHandlers
      ensures n !in eventHandlers
      ensures eventHandlers == old(eventHandlers) - {n}
    {
      if n in eventHandlers {
        eventHandlers := eventHandlers - {n};
      }
    }

    /**
     * `emit(n, event)`: logs the event, which reads its `"type"` and raises KeyError
     * when there is none; then sets the signal of the waiter for `n` and calls the
     * handler for `n`. `handlerRaises` is whether that handler raises.
     */
    method Emit(n: string, event: Event, handlerRaises: bool) returns (r: Outcome<Fault>)
      modifies this`pendingEvents, this`trace
      ensures "type" !in event ==> r == Fail(MissingType) && pendingEvents == old(pendingEvents) && trace == old(trace)
      ensures "type" in event ==>
                var e := Dispatch.Emit(eventHandlers, old(pendingEvents), n, event, handlerRaises);
                && pendingEvents == e.pending && trace == old(trace) + e.effects
                && r == if e.raised then Fail(HandlerRaised) else Pass
    {
      if "type" !in event {
        return Fail(MissingType);
      }
      if n in pendingEvents {
        pendingEvents := pendingEvents[n := true];
        trace := trace + [Signalled(n)];
      }
      r := Pass;
      if n in eventHandlers {
        trace := trace + [Invoked(CallOf(eventHandlers[n], event))];
        if handlerRaises {
          r := Fail(HandlerRaised);
        }
      }
    }

    /** `wait_for(n)`, first step: a name already waited on returns at once; otherwise a fresh unset entry is added and the caller suspends. */
    method WaitBegin(n: string) returns (r: WaitStart)
      modifies this`pendingEvents
      ensures n in old(pendingEvents) ==> r == ReturnedAtOnce && pendingEvents == old(pendingEvents)
      ensures n !in old(pendingEvents) ==> r == Suspended && pendingEvents == old(pendingEvents)[n := false]
    {
      if n in pendingEvents {
        return ReturnedAtOnce;
      }
      pendingEvents := pendingEvents[n := false];
      return Suspended;
    }

    /**
     * `wait_for(n)`, resumed after its signal was set: deletes whatever entry is now
     * under `n`, or raises KeyError if there is none (teardown cleared the waiters).
     */
    method WaitResume(n: string) returns (r: Outcome<ClientError>)
      modifies this`pendingEvents
      ensures pendingEvents == old(pendingEvents) - {n}
      ensures r == if n in old(pendingEvents) then Pass else Fail(WaiterEntryGone)
    {
      if n !in pendingEvents {
        return Fail(WaiterEntryGone);
      }
      pendingEvents := pendingEvents - {n};
      return Pass;
    }

    /** `wait_for(n)`, when the timeout elapses first: raises TimeoutError and skips the deletion, so the entry stays. */
    method WaitTimeout(n: string) returns (r: Outcome<ClientError>)
      ensures r == Fail(WaitTimedOut)
      ensures unchanged(this)
    {
      return Fail(WaitTimedOut);
    }

    /**
     * A `wait_for(n)` that times out leaves its unset entry behind, so the next
     * `wait_for(n)` returns at once without waiting for any signal.
     */
    method WaitAfterTimeout(n: string) returns (first: WaitStart, second: WaitStart)
      requires n !in pendingEvents
      modifies this`pendingEvents
      ensures first == Suspended && second == ReturnedAtOnce
      ensures pendingEvents == old(pendingEvents)[n := false]
    {
      first := WaitBegin(n);
      var timedOut := WaitTimeout(n);
      second := WaitBegin(n);
    }

    /** `__aenter__`: connects, and only once connected starts the listener task. */
    method Enter(handshakeOk: bool) returns (r: Outcome<ClientError>)
      modifies this`ws, this`listenerTask
      ensures old(IsConnected()) ==> r == Fail(AlreadyConnected) && ws == old(ws) && listenerTask == old(listenerTask)
      ensures !old(IsConnected()) && !handshakeOk ==> r == Fail(HandshakeFailed) && ws == old(ws) && listenerTask == old(listenerTask)
      ensures !old(IsConnected()) && handshakeOk ==> r == Pass && ws == Some(Socket(Open, [])) && listenerTask == Some(Running)
    {
      r := Connect(handshakeOk);
      if r.Pass? {
        listenerTask := Some(Running);
      }
    }

    /**
     * `__aexit__`: clears the handlers, then the waiters, then cancels and drops the
     * listener task, and only then disconnects; each failure leaves the earlier steps done.
     */
    method Exit() returns (r: Outcome<ClientError>)
      modifies this`eventHandlers, this`pendingEvents, this`listenerTask, this`ws
      ensures eventHandlers == map[] && pendingEvents == map[] && listenerTask.None?
      ensures old(listenerTask).None? ==> r == Fail(NoListenerTask) && ws == old(ws)
      ensures old(listenerTask).Some? && old(IsConnected()) ==> r == Pass && ws == Some(old(ws).value.(state := Closed))
      ensures old(listenerTask).Some? && !old(IsConnected()) ==> r == Fail(NotConnected) && ws == old(ws)
    {
      eventHandlers := map[];
      pendingEvents := map[];
      if listenerTask.None? {
        return Fail(NoListenerTask);
      }
      // cancel() only requests cancellation; the reference to the task is dropped at once
      listenerTask := None;
      r := Disconnect();
    }

    /**
     * One pass of the listener's loop body on frame `f`: the frame is decoded, its
     * `"type"` looked up and the event emitted; `fault` is the exception that leaves
     * the body, if any. `raises` is whether the handler called for `f` raises.
     */
    method ReadFrame(f: Frame, raises: bool) returns (fault: Option<Fault>)
      modifies this`pendingEvents, this`trace
      ensures var s := Step(eventHandlers, old(pendingEvents), f, raises);
              pendingEvents == s.pending && trace == old(trace) + s.effects && fault == s.fault
    {
      match RouteOf(f) {
        case Reject(x) =>
          fault := Some(x);
        case Ignore =>
          fault := None;
        case Deliver(n, event) =>
          var outcome := Emit(n, event, raises);
          fault := if outcome.Fail? then Some(outcome.error) else None;
      }
    }

    /**
     * The loop of `listener()`: reads the frames in order and emits each delivered
     * one before reading the next; the first exception ends the loop. `raising`
     * holds the positions of the frames whose handler call raises.
     */
    method ReadFrames(frames: seq<Frame>, end: StreamEnd, raising: set<nat>) returns (exit: ListenerExit)
      modifies this`pendingEvents, this`trace
      ensures var r := Run(eventHandlers, old(pendingEvents), frames, 0, end, raising, None);
              pendingEvents == r.pending && trace == old(trace) + r.effects && exit == r.exit
    {
      ghost var goal := Run(eventHandlers, pendingEvents, frames, 0, end, raising, None);
      ghost var done: seq<Effect> := [];
      var i := 0;
      var event: Option<Json> := None;
      while i < |frames|
        invariant 0 <= i <= |frames|
        invariant trace == old(trace) + done
        invariant goal == Prepend(done, Run(eventHandlers, pendingEvents, frames, i, end, raising, event))
        decreases |frames| - i
      {
        RunStep(eventHandlers, pendingEvents, frames, i, end, raising, event);
        ghost var step := Step(eventHandlers, pendingEvents, frames[i], i in raising);
        event := Seen(frames[i], event);
        var fault := ReadFrame(frames[i], i in raising);
        ghost var prior := done;
        AppendAssoc(old(trace), prior, step.effects);
        done := done + step.effects;
        if fault.Some? {
          return Abort(fault.value, event);
        }
        PrependTwice(prior, step.effects, Run(eventHandlers, pendingEvents, frames, i + 1, end, raising, event));
        i := i + 1;
      }
      return EndOf(end);
    }

    /**
     * `listener()`: runs the loop; a normal end of the stream or a lost connection
     * leaves the connection closed, and the task ends done, cancelled by itself, or
     * failed when logging the exception raised in turn.
     */
    method Listen(frames: seq<Frame>, end: StreamEnd, raising: set<nat>)
      requires ws.Some? && listenerTask == Some(Running)
      modifies this`pendingEvents, this`trace, this`ws, this`listenerTask
      ensures var r := Run(eventHandlers, old(pendingEvents), frames, 0, end, raising, None);
              && pendingEvents == r.pending
              && trace == old(trace) + r.effects
              && listenerTask == Some(TaskAfter(r.exit))
              && ws == if r.exit.ClosesSocket() then Some(old(ws).value.(state := Closed)) else old(ws)
    {
      var exit := ReadFrames(frames, end, raising);
      if exit.ClosesSocket() {
        ws := Some(ws.value.(state := Closed));
      }
      listenerTask := Some(TaskAfter(exit));
    }

    // High-level helpers: each builds one command with a fixed type tag and sends it.

    /** `conversation_item_create(item)`. */
    method ConversationItemCreate(item: Json) returns (r: Outcome<ClientError>)
      modifies this`ws
      ensures SendsOne(old(ws), ws, r, Command("conversation.item.create", map["item" := item]))
    {
      r := SendEvent(Command("conversation.item.create", map["item" := item]));
    }

    /** `conversation_item_delete(item_id)`. */
    method ConversationItemDelete(itemId: string) returns (r: Outcome<ClientError>)
      modifies this`ws
      ensures SendsOne(old(ws), ws, r, Command("conversation.item.delete", map["item_id" := JString(itemId)]))
    {
      r := SendEvent(Command("conversation.item.delete", map["item_id" := JString(itemId)]));
    }

    /** `conversation_item_truncate(item_id, content_index, audio_end_ms)`. */
    method ConversationItemTruncate(itemId: string, contentIndex: int, audioEndMs: int) returns (r: Outcome<ClientError>)
      modifies this`ws
      ensures SendsOne(old(ws), ws, r, Command("conversation.item.truncate",
                map["item_id" := JString(itemId), "content_index" := JNumber(contentIndex), "audio_end_ms" := JNumber(audioEndMs)]))
    {
      r := SendEvent(Command("conversation.item.truncate",
             map["item_id" := JString(itemId), "content_index" := JNumber(contentIndex), "audio_end_ms" := JNumber(audioEndMs)]));
    }

    /** `input_audio_buffer_append(audio_bytes)`: the audio is already base64 text. */
    method InputAudioBufferAppend(audio: string) returns (r: Outcome<ClientError>)
      modifies this`ws
      ensures SendsOne(old(ws), ws, r, Command("input_audio_buffer.append", map["audio" := JString(audio)]))
    {
      r := SendEvent(Command("input_audio_buffer.append", map["audio" := JString(audio)]));
    }

    /** `input_audio_buffer_clear()`. */
    method InputAudioBufferClear() returns (r: Outcome<ClientError>)
      modifies this`ws
      ensures SendsOne(old(ws), ws, r, Command("input_audio_buffer.clear", map[]))
    {
      r := SendEvent(Command("input_audio_buffer.clear", map[]));
    }

    /** `input_audio_buffer_commit()`. */
    method InputAudioBufferCommit() returns (r: Outcome<ClientError>)
      modifies this`ws
      ensures SendsOne(old(ws), ws, r, Command("input_audio_buffer.commit", map[]))
    {
      r := SendEvent(Command("input_audio_buffer.commit", map[]));
    }

    /** `response_cancel()`. */
    method ResponseCancel() returns (r: Outcome<ClientError>)
      modifies this`ws
      ensures SendsOne(old(ws), ws, r, Command("response.cancel", map[]))
    {
      r := SendEvent(Command("response.cancel", map[]));
    }

    /** `response_create(config)`: the "response" field is set only when a configuration is given. */
    method ResponseCreate(config: Option<Json>) returns (r: Outcome<ClientError>)
      modifies this`ws
      ensures SendsOne(old(ws), ws, r, Command("response.create", if config.Some? then map["response" := config.value] else map[]))
    {
      if config.Some? {
        r := SendEvent(Command("response.create", map["response" := config.value]));
      } else {
        r := SendEvent(Command("response.create", map[]));
      }
    }

    /** `session_update(config)`. */
    method SessionUpdate(config: Json) returns (r: Outcome<ClientError>)
      modifies this`ws
      ensures SendsOne(old(ws), ws, r, Command("session.update", map["session" := config]))
    {
      r := SendEvent(Command("session.update", map["session" := config]));
    }
  }
}
