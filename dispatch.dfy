/**
 * The event router of the realtime client as pure functions: how one decoded
 * event is emitted to the waiter and the handler registered under its name,
 * and how the listener consumes a sequence of frames until the stream ends or
 * the first exception stops it.
 */
module Dispatch {
  import opened Wrappers
  import opened Wire

  /** The identity of a Python object the client only passes around (a callable, a bound argument). */
  type ObjectId = nat

  /** What `on` stores under an event name: the handler and the arguments bound to it. */
  datatype Registration = Registration(handler: ObjectId, args: seq<ObjectId>, kwargs: map<string, ObjectId>)

  /** One invocation of a handler: `handler(event, *args, **kwargs)`. */
  datatype Call = Call(handler: ObjectId, event: Event, args: seq<ObjectId>, kwargs: map<string, ObjectId>)

  /** The call `emit` makes for `event` to the handler registered as `reg`. */
  function CallOf(reg: Registration, event: Event): Call {
    Call(reg.handler, event, reg.args, reg.kwargs)
  }

  /** What dispatch does that is visible outside the router: setting a waiter's signal, calling a handler. */
  datatype Effect = Signalled(name: string) | Invoked(call: Call)

  /** The handler calls in a trace of effects, in order. */
  function Invocations(effects: seq<Effect>): (calls: seq<Call>)
    ensures |calls| <= |effects|
  {
    if effects == [] then []
    else (if effects[0].Invoked? then [effects[0].call] else []) + Invocations(effects[1..])
  }

  lemma {:induction false} InvocationsAppend(a: seq<Effect>, b: seq<Effect>)
    ensures Invocations(a + b) == Invocations(a) + Invocations(b)
  {
    if a == [] {
      assert a + b == b;
    } else {
      assert (a + b)[0] == a[0] && (a + b)[1..] == a[1..] + b;
      InvocationsAppend(a[1..], b);
    }
  }

  // ---------------------------------------------------------------------------
  // emit

  datatype EmitResult = EmitResult(pending: map<string, bool>, effects: seq<Effect>, raised: bool)

  /**
   * `emit(name, event)`: signal the waiter registered under `name`, if any, then call
   * the handler registered under `name`, if any. `handlerRaises` is whether that
   * (foreign) handler raises; its exception leaves `emit` after the waiter was signalled.
   * The event has a "type" member: the log line before these steps reads it and raises
   * KeyError otherwise, which `Client.RealtimeClient.Emit` models.
   */
  function Emit(handlers: map<string, Registration>, pending: map<string, bool>,
                name: string, event: Event, handlerRaises: bool): (r: EmitResult)
    requires "type" in event
    // no waiter entry is added or removed
    ensures r.pending.Keys == pending.Keys
    ensures r.raised <==> name in handlers && handlerRaises
  {
    EmitResult(if name in pending then pending[name := true] else pending,
               (if name in pending then [Signalled(name)] else []) +
               (if name in handlers then [Invoked(CallOf(handlers[name], event))] else []),
               name in handlers && handlerRaises)
  }

  /**
   * What `emit` does to the waiters and handlers: only the waiter for `name` becomes
   * set, and is signalled exactly when it exists; then the handler for `name`, and
   * only it, is called exactly once with the event first.
   */
  lemma EmitWakesThenCalls(handlers: map<string, Registration>, pending: map<string, bool>,
                           name: string, event: Event, handlerRaises: bool)
    requires "type" in event
    ensures var r := Emit(handlers, pending, name, event, handlerRaises);
            && (forall m :: m in pending ==> r.pending[m] == (pending[m] || m == name))
            && (Signalled(name) in r.effects <==> name in pending)
            && (forall k :: 0 <= k < |r.effects| && r.effects[k].Signalled? ==> r.effects[k].name == name)
            && Invocations(r.effects) == (if name in handlers then [CallOf(handlers[name], event)] else [])
            && (forall a, b :: 0 <= a < b < |r.effects| ==> !(r.effects[a].Invoked? && r.effects[b].Signalled?))
  {
    var signal := if name in pending then [Signalled(name)] else [];
    var invoke := if name in handlers then [Invoked(CallOf(handlers[name], event))] else [];
    assert Invocations(signal) == [];
    assert Invocations(invoke) == if name in handlers then [CallOf(handlers[name], event)] else [];
    InvocationsAppend(signal, invoke);
  }

  // ---------------------------------------------------------------------------
  // listener

  /** The exceptions that reach the listener's `except` clauses. */
  datatype Fault =
    | NotJson          // json.loads rejects the frame
    | NotAnObject      // the frame is JSON but not an object, so event["type"] raises TypeError
    | MissingType      // the object has no "type" member: KeyError
    | UnhashableType   // "type" is a list or an object: the dict lookup in emit raises TypeError
    | HandlerRaised    // the handler called by emit raised
    | ConnectionLost   // the connection closed abnormally while reading

  /**
   * The exceptions raised by the generic `except` clause's own log line, which
   * reads `event['type']` from the last value the loop decoded.
   */
  datatype LogFault =
    | EventUnbound       // no frame was decoded yet, so `event` is unbound
    | EventNotAnObject   // the last decoded value is not an object
    | EventMissingType   // the last decoded object has no "type"

  /** How the listener task ends. */
  datatype ListenerExit =
    | StreamEnded                                    // the server closed normally; the loop finished
    | SelfCancelled(cause: Fault)                    // an exception was logged and the task cancelled itself
    | Crashed(cause: Fault, whileLogging: LogFault)  // logging that exception raised in turn
  {
    /** The loop stopped on an exception raised by a frame, before the stream ended. */
    predicate StoppedByFault() {
      !StreamEnded? && cause != ConnectionLost
    }

    /** The connection is closed when the listener ends this way. */
    predicate ClosesSocket() {
      StreamEnded? || (SelfCancelled? && cause == ConnectionLost)
    }
  }

  /** The listener's exit once every frame was read and the stream ended as `end`. */
  function EndOf(end: StreamEnd): (x: ListenerExit)
    ensures x.ClosesSocket() && !x.StoppedByFault()
  {
    match end
    case ClosedOk => StreamEnded
    case ClosedError => SelfCancelled(ConnectionLost)
  }

  /** The exception raised by the log line `event['type']` when `event` is `last`. */
  function LoggingFault(last: Option<Json>): Option<LogFault> {
    match last
    case None => Some(EventUnbound)
    case Some(JObject(m)) => if "type" in m then None else Some(EventMissingType)
    case Some(_) => Some(EventNotAnObject)
  }

  /** The listener's exit when `f` reaches the generic `except` clause and `event` is `last`. */
  function Abort(f: Fault, last: Option<Json>): (x: ListenerExit)
    ensures f != ConnectionLost ==> x.StoppedByFault() && x.cause == f
  {
    match LoggingFault(last)
    case None => SelfCancelled(f)
    case Some(g) => Crashed(f, g)
  }

  /** Where a frame goes: delivered to `emit` under a string name, ignored, or rejected with a fault. */
  datatype Route = Deliver(name: string, event: Event) | Ignore | Reject(fault: Fault)

  /**
   * How the listener routes one frame: `event["type"]` must exist; a string name is
   * looked up in the maps; a list or object cannot be looked up; any other JSON
   * scalar is looked up and matches nothing.
   */
  function RouteOf(f: Frame): (r: Route)
    // exactly the decoded objects whose "type" is a string are delivered,
    // as the decoded object itself, under that string
    ensures r.Deliver? <==> f.decoded.Some? && f.decoded.value.JObject? && "type" in f.decoded.value.members
                            && f.decoded.value.members["type"].JString?
    ensures r.Deliver? ==> f.decoded == Some(JObject(r.event))
    ensures r.Deliver? ==> "type" in r.event && r.event["type"] == JString(r.name)
  {
    match f.decoded
    case None => Reject(NotJson)
    case Some(JObject(members)) =>
      if "type" !in members then Reject(MissingType)
      else (match members["type"]
        case JString(s) => Deliver(s, members)
        case JArray(_) => Reject(UnhashableType)
        case JObject(_) => Reject(UnhashableType)
        case _ => Ignore)
    case Some(_) => Reject(NotAnObject)
  }

  /** Frame `f` names event `m`. */
  predicate Names(f: Frame, m: string) {
    RouteOf(f).Deliver? && RouteOf(f).name == m
  }

  /** The decoded event of a frame that names one. */
  function EventOf(f: Frame): Event
    requires RouteOf(f).Deliver?
  {
    RouteOf(f).event
  }

  /** Dispatching `f` raises nothing, when a handler for its name would raise iff `raises`. */
  predicate Clean(handlers: map<string, Registration>, f: Frame, raises: bool) {
    RouteOf(f).Ignore? || (RouteOf(f).Deliver? && !(RouteOf(f).name in handlers && raises))
  }

  /** The fault raised by dispatching a frame that is not clean. */
  function FaultOf(handlers: map<string, Registration>, f: Frame, raises: bool): Fault
    requires !Clean(handlers, f, raises)
  {
    if RouteOf(f).Reject? then RouteOf(f).fault else HandlerRaised
  }

  /** The loop's `event` variable after reading `f`: its decoded value, or the previous one when decoding failed. */
  function Seen(f: Frame, last: Option<Json>): Option<Json> {
    if f.decoded.Some? then f.decoded else last
  }

  /**
   * The result of the listener: the waiter entries afterwards, the effects of
   * dispatch in order, how the task ended, and the position after the last frame read.
   */
  datatype RunResult = RunResult(pending: map<string, bool>, effects: seq<Effect>, exit: ListenerExit, read: nat)

  function Prepend(effects: seq<Effect>, r: RunResult): RunResult {
    r.(effects := effects + r.effects)
  }

  /** Proof helper for the listener loop: regrouping the effects appended so far. */
  lemma AppendAssoc(a: seq<Effect>, b: seq<Effect>, c: seq<Effect>)
    ensures (a + b) + c == a + (b + c)
  {
  }

  /** Proof helper for the listener loop: effects prepended in two steps. */
  lemma PrependTwice(a: seq<Effect>, b: seq<Effect>, r: RunResult)
    ensures Prepend(a, Prepend(b, r)) == Prepend(a + b, r)
  {
    assert a + (b + r.effects) == (a + b) + r.effects;
  }

  datatype StepResult = StepResult(pending: map<string, bool>, effects: seq<Effect>, fault: Option<Fault>)

  /**
   * One pass of the loop body on frame `f`: decode, look up `"type"`, emit. `fault`
   * is the exception that leaves the body, if any.
   */
  function Step(handlers: map<string, Registration>, pending: map<string, bool>, f: Frame, raises: bool): (s: StepResult)
    ensures s.fault.None? <==> Clean(handlers, f, raises)
    ensures s.fault.Some? ==> s.fault.value == FaultOf(handlers, f, raises)
    ensures RouteOf(f).Deliver? ==> s.pending == Emit(handlers, pending, RouteOf(f).name, RouteOf(f).event, raises).pending
    ensures RouteOf(f).Deliver? ==> s.effects == Emit(handlers, pending, RouteOf(f).name, RouteOf(f).event, raises).effects
    ensures !RouteOf(f).Deliver? ==> s.pending == pending && s.effects == []
  {
    match RouteOf(f)
    case Reject(x) => StepResult(pending, [], Some(x))
    case Ignore => StepResult(pending, [], None)
    case Deliver(n, event) =>
      var e := Emit(handlers, pending, n, event, raises);
      StepResult(e.pending, e.effects, if e.raised then Some(HandlerRaised) else None)
  }

  /** The listener from frame `i` on is one loop pass followed by the rest of the run, or ends with that pass's fault. */
  lemma RunStep(handlers: map<string, Registration>, pending: map<string, bool>,
                frames: seq<Frame>, i: nat, end: StreamEnd, raising: set<nat>,
                last: Option<Json>)
    requires i < |frames|
    ensures var seen := Seen(frames[i], last);
            var s := Step(handlers, pending, frames[i], i in raising);
            Run(handlers, pending, frames, i, end, raising, last) ==
              if s.fault.Some? then RunResult(s.pending, s.effects, Abort(s.fault.value, seen), i + 1)
              else Prepend(s.effects, Run(handlers, s.pending, frames, i + 1, end, raising, seen))
  {
    var r := Run(handlers, pending, frames, i, end, raising, last);
    assert r.effects == [] + r.effects;
  }

  /**
   * The listener from frame `i` on: frames are read in order and each delivered
   * frame is emitted completely before the next is read; the first exception ends
   * the loop. `last` is the value of the loop's `event` variable; `raising` holds the
   * positions of the frames whose handler call raises.
   */
  function Run(handlers: map<string, Registration>, pending: map<string, bool>,
               frames: seq<Frame>, i: nat, end: StreamEnd, raising: set<nat>,
               last: Option<Json>): (r: RunResult)
    requires i <= |frames|
    decreases |frames| - i
    ensures i <= r.read <= |frames|
    ensures r.pending.Keys == pending.Keys
  {
    if i == |frames| then RunResult(pending, [], EndOf(end), i)
    else
      var seen := Seen(frames[i], last);
      match RouteOf(frames[i])
      case Reject(f) => RunResult(pending, [], Abort(f, seen), i + 1)
      case Ignore => Run(handlers, pending, frames, i + 1, end, raising, seen)
      case Deliver(n, event) =>
        var e := Emit(handlers, pending, n, event, i in raising);
        if e.raised then RunResult(e.pending, e.effects, Abort(HandlerRaised, seen), i + 1)
        else Prepend(e.effects, Run(handlers, e.pending, frames, i + 1, end, raising, seen))
  }
}
