/**
 * What the listener loop guarantees about a whole sequence of frames:
 * arrival-order dispatch, which waiters it wakes, and that it never reads
 * past the first frame that raises.
 */
module Listener {
  import opened Wrappers
  import opened Wire
  import opened Dispatch

  /** The handler call due for one frame: to the handler registered under its name, if there is one. */
  function CallsFor(handlers: map<string, Registration>, f: Frame): (calls: seq<Call>)
    ensures |calls| <= 1
  {
    match RouteOf(f)
    case Deliver(n, event) => if n in handlers then [CallOf(handlers[n], event)] else []
    case _ => []
  }

  /**
   * Reference definition of the handler calls due for frames i..j-1: one call per
   * frame whose name has a handler, in frame order, to that name's handler.
   */
  function ExpectedCalls(handlers: map<string, Registration>, frames: seq<Frame>, i: nat, j: nat): seq<Call>
    requires i <= j <= |frames|
    decreases j - i
  {
    if i == j then [] else CallsFor(handlers, frames[i]) + ExpectedCalls(handlers, frames, i + 1, j)
  }

  /** Every frame read whose name has a handler invokes that handler once, in arrival order, and nothing else is invoked. */
  lemma {:induction false} HandlerCallsFollowFrames(handlers: map<string, Registration>, pending: map<string, bool>,
                                                    frames: seq<Frame>, i: nat, end: StreamEnd, raising: set<nat>,
                                                    last: Option<Json>)
    requires i <= |frames|
    ensures var r := Run(handlers, pending, frames, i, end, raising, last);
            Invocations(r.effects) == ExpectedCalls(handlers, frames, i, r.read)
    decreases |frames| - i
  {
    if i < |frames| {
      var r := Run(handlers, pending, frames, i, end, raising, last);
      var seen := Seen(frames[i], last);
      match RouteOf(frames[i])
      case Reject(f) =>
        assert ExpectedCalls(handlers, frames, i + 1, i + 1) == [];
      case Ignore =>
        HandlerCallsFollowFrames(handlers, pending, frames, i + 1, end, raising, seen);
      case Deliver(n, event) =>
        var e := Emit(handlers, pending, n, event, i in raising);
        if e.raised {
          assert ExpectedCalls(handlers, frames, i + 1, i + 1) == [];
        } else {
          HandlerCallsFollowFrames(handlers, e.pending, frames, i + 1, end, raising, seen);
          DeliveredFrameCalls(handlers, pending, frames, i, end, raising, last);
        }
    }
  }

  /** The step of HandlerCallsFollowFrames for a delivered frame whose handler returns. */
  lemma DeliveredFrameCalls(handlers: map<string, Registration>, pending: map<string, bool>,
                            frames: seq<Frame>, i: nat, end: StreamEnd, raising: set<nat>,
                            last: Option<Json>)
    requires i < |frames| && RouteOf(frames[i]).Deliver?
    requires !Emit(handlers, pending, RouteOf(frames[i]).name, RouteOf(frames[i]).event, i in raising).raised
    requires var e := Emit(handlers, pending, RouteOf(frames[i]).name, RouteOf(frames[i]).event, i in raising);
             var rest := Run(handlers, e.pending, frames, i + 1, end, raising, Seen(frames[i], last));
             Invocations(rest.effects) == ExpectedCalls(handlers, frames, i + 1, rest.read)
    ensures var r := Run(handlers, pending, frames, i, end, raising, last);
            Invocations(r.effects) == ExpectedCalls(handlers, frames, i, r.read)
  {
    var e := Emit(handlers, pending, RouteOf(frames[i]).name, RouteOf(frames[i]).event, i in raising);
    var rest := Run(handlers, e.pending, frames, i + 1, end, raising, Seen(frames[i], last));
    InvocationsAppend(e.effects, rest.effects);
  }

  /**
   * A waiter entry that exists when the listener starts is set afterwards exactly
   * when it was already set or some frame read names it; frames naming other
   * events never set it.
   */
  lemma {:induction false} SignalledExactlyByNamingFrames(handlers: map<string, Registration>, pending: map<string, bool>,
                                                          frames: seq<Frame>, i: nat, end: StreamEnd, raising: set<nat>,
                                                          last: Option<Json>, m: string)
    requires i <= |frames| && m in pending
    ensures var r := Run(handlers, pending, frames, i, end, raising, last);
            r.pending[m] == (pending[m] || exists k :: i <= k < r.read && Names(frames[k], m))
    decreases |frames| - i
  {
    if i < |frames| {
      var seen := Seen(frames[i], last);
      match RouteOf(frames[i])
      case Reject(f) =>
      case Ignore =>
        SignalledExactlyByNamingFrames(handlers, pending, frames, i + 1, end, raising, seen, m);
      case Deliver(n, event) =>
        var e := Emit(handlers, pending, n, event, i in raising);
        if !e.raised {
          var rest := Run(handlers, e.pending, frames, i + 1, end, raising, seen);
          SignalledExactlyByNamingFrames(handlers, e.pending, frames, i + 1, end, raising, seen, m);
          if exists k :: i <= k < rest.read && Names(frames[k], m) {
            var k :| i <= k < rest.read && Names(frames[k], m);
            if k != i {
              assert i + 1 <= k < rest.read && Names(frames[k], m);
            }
          }
        }
    }
  }

  /**
   * The listener stops at the first frame that raises (malformed JSON, a missing
   * or unhashable "type", a raising handler): it is the last frame read and its
   * exception is the one the loop ends with.
   */
  lemma {:induction false} StopsAtFirstFault(handlers: map<string, Registration>, pending: map<string, bool>,
                                             frames: seq<Frame>, i: nat, k: nat, end: StreamEnd, raising: set<nat>,
                                             last: Option<Json>)
    requires i <= k < |frames|
    requires forall j :: i <= j < k ==> Clean(handlers, frames[j], j in raising)
    requires !Clean(handlers, frames[k], k in raising)
    ensures var r := Run(handlers, pending, frames, i, end, raising, last);
            r.read == k + 1 && r.exit.StoppedByFault() && r.exit.cause == FaultOf(handlers, frames[k], k in raising)
    decreases k - i
  {
    if i < k {
      assert Clean(handlers, frames[i], i in raising);
      var seen := Seen(frames[i], last);
      match RouteOf(frames[i])
      case Ignore =>
        StopsAtFirstFault(handlers, pending, frames, i + 1, k, end, raising, seen);
      case Deliver(n, event) =>
        var e := Emit(handlers, pending, n, event, i in raising);
        StopsAtFirstFault(handlers, e.pending, frames, i + 1, k, end, raising, seen);
    }
  }

  /**
   * The loop reads every frame and ends with the stream unless some frame raises;
   * then that frame is the last one read and every frame before it was dispatched cleanly.
   */
  lemma {:induction false} ReadsAllUnlessStopped(handlers: map<string, Registration>, pending: map<string, bool>,
                                                 frames: seq<Frame>, i: nat, end: StreamEnd, raising: set<nat>,
                                                 last: Option<Json>)
    requires i <= |frames|
    ensures var r := Run(handlers, pending, frames, i, end, raising, last);
            && (!r.exit.StoppedByFault() ==> r.read == |frames| && r.exit == EndOf(end))
            && (r.exit.StoppedByFault() ==>
                  && i < r.read
                  && !Clean(handlers, frames[r.read - 1], r.read - 1 in raising)
                  && forall k :: i <= k < r.read - 1 ==> Clean(handlers, frames[k], k in raising))
    decreases |frames| - i
  {
    if i < |frames| {
      var seen := Seen(frames[i], last);
      match RouteOf(frames[i])
      case Reject(f) =>
      case Ignore =>
        ReadsAllUnlessStopped(handlers, pending, frames, i + 1, end, raising, seen);
      case Deliver(n, event) =>
        var e := Emit(handlers, pending, n, event, i in raising);
        if !e.raised {
          ReadsAllUnlessStopped(handlers, e.pending, frames, i + 1, end, raising, seen);
        }
    }
  }

  /** Once a frame has stopped the listener, frames after it are never read: appending more changes nothing. */
  lemma {:induction false} LaterFramesNeverRead(handlers: map<string, Registration>, pending: map<string, bool>,
                                                frames: seq<Frame>, more: seq<Frame>, i: nat,
                                                end: StreamEnd, end': StreamEnd, raising: set<nat>,
                                                last: Option<Json>)
    requires i <= |frames|
    requires Run(handlers, pending, frames, i, end, raising, last).exit.StoppedByFault()
    ensures Run(handlers, pending, frames + more, i, end', raising, last) == Run(handlers, pending, frames, i, end, raising, last)
    decreases |frames| - i
  {
    if i < |frames| {
      assert (frames + more)[i] == frames[i];
      var seen := Seen(frames[i], last);
      match RouteOf(frames[i])
      case Reject(f) =>
      case Ignore =>
        LaterFramesNeverRead(handlers, pending, frames, more, i + 1, end, end', raising, seen);
      case Deliver(n, event) =>
        var e := Emit(handlers, pending, n, event, i in raising);
        if !e.raised {
          LaterFramesNeverRead(handlers, e.pending, frames, more, i + 1, end, end', raising, seen);
        }
    }
  }

  /**
   * A handler registered for `n` is invoked exactly once per frame named `n`, in
   * arrival order, when no invocation raises; every frame is read and the loop
   * ends with the stream.
   */
  lemma {:induction false} EveryFrameInvokesItsHandler(handlers: map<string, Registration>, pending: map<string, bool>,
                                                       frames: seq<Frame>, i: nat, end: StreamEnd, raising: set<nat>,
                                                       last: Option<Json>, n: string)
    requires i <= |frames| && n in handlers
    requires forall k :: i <= k < |frames| ==> Names(frames[k], n) && k !in raising
    ensures var r := Run(handlers, pending, frames, i, end, raising, last);
            && r.read == |frames| && r.exit == EndOf(end)
            && |Invocations(r.effects)| == |frames| - i
            && forall k :: i <= k < |frames| ==> Names(frames[k], n) && Invocations(r.effects)[k - i] == CallOf(handlers[n], EventOf(frames[k]))
    decreases |frames| - i
  {
    if i < |frames| {
      var seen := Seen(frames[i], last);
      var e := Emit(handlers, pending, n, EventOf(frames[i]), false);
      var rest := Run(handlers, e.pending, frames, i + 1, end, raising, seen);
      var r := Run(handlers, pending, frames, i, end, raising, last);
      NamedFrameStep(handlers, pending, frames, i, end, raising, last, n);
      EveryFrameInvokesItsHandler(handlers, e.pending, frames, i + 1, end, raising, seen, n);
      CallsShift(Invocations(rest.effects), frames, i, handlers[n], n);
    }
  }

  /** Index arithmetic of EveryFrameInvokesItsHandler: one more call in front shifts every later call by one. */
  lemma CallsShift(later: seq<Call>, frames: seq<Frame>, i: nat, reg: Registration, n: string)
    requires i < |frames| && Names(frames[i], n) && |later| == |frames| - (i + 1)
    requires forall k :: i + 1 <= k < |frames| ==> Names(frames[k], n) && later[k - (i + 1)] == CallOf(reg, EventOf(frames[k]))
    ensures var calls := [CallOf(reg, EventOf(frames[i]))] + later;
            forall k :: i <= k < |frames| ==> Names(frames[k], n) && calls[k - i] == CallOf(reg, EventOf(frames[k]))
  {
    var calls := [CallOf(reg, EventOf(frames[i]))] + later;
    forall k | i <= k < |frames|
      ensures Names(frames[k], n) && calls[k - i] == CallOf(reg, EventOf(frames[k]))
    {
      if k > i {
        assert calls[k - i] == later[k - (i + 1)];
      }
    }
  }

  /** The step of EveryFrameInvokesItsHandler: a frame named `n` whose handler returns is one call followed by the rest of the run. */
  lemma NamedFrameStep(handlers: map<string, Registration>, pending: map<string, bool>,
                       frames: seq<Frame>, i: nat, end: StreamEnd, raising: set<nat>,
                       last: Option<Json>, n: string)
    requires i < |frames| && n in handlers && Names(frames[i], n) && i !in raising
    ensures var e := Emit(handlers, pending, n, EventOf(frames[i]), false);
            var rest := Run(handlers, e.pending, frames, i + 1, end, raising, Seen(frames[i], last));
            var r := Run(handlers, pending, frames, i, end, raising, last);
            && r == Prepend(e.effects, rest)
            && Invocations(r.effects) == [CallOf(handlers[n], EventOf(frames[i]))] + Invocations(rest.effects)
  {
    var event := EventOf(frames[i]);
    assert RouteOf(frames[i]) == Deliver(n, event);
    var e := Emit(handlers, pending, n, event, false);
    var rest := Run(handlers, e.pending, frames, i + 1, end, raising, Seen(frames[i], last));
    EmitWakesThenCalls(handlers, pending, n, event, false);
    InvocationsAppend(e.effects, rest.effects);
  }

  /**
   * As written, a first frame that is not JSON reaches the generic `except` clause
   * while `event` is still unbound, so its log line raises and the task ends with
   * that error instead of cancelling itself.
   */
  lemma FirstFrameNotJsonCrashes(handlers: map<string, Registration>, pending: map<string, bool>,
                                 frames: seq<Frame>, end: StreamEnd, raising: set<nat>)
    requires |frames| > 0 && frames[0].decoded.None?
    ensures Run(handlers, pending, frames, 0, end, raising, None).exit == Crashed(NotJson, EventUnbound)
  {
  }
}
