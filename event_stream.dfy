/**
 * GET /events: one client's event stream. The handler subscribes to `sse:messages`, writes a
 * `connected` comment, forwards every message the subscription delivers as an `agent_update`
 * frame, writes a `ping` comment every 25 seconds until the request is cancelled, and
 * unsubscribes in a `finally` block.
 */
module EventStream {
  import opened Text
  import opened SseFrames
  import opened SseParsing
  import opened AgentJson

  const UPDATE_EVENT := "agent_update"
  const CONNECTED := "connected"
  const PING := "ping"

  /** What the world does to one connection while the heartbeat loop waits. */
  datatype Signal =
    | Message(payload: string)  // the subscription hands a published message to the handler
    | Tick                      // the 25-second delay elapses
    | Disconnect                // the client goes away: every later write fails
    | Cancel                    // the request's cancellation token fires

  /** What one write puts on the response: the frame when it goes through, nothing when it fails. */
  function Emit(goesThrough: bool, f: Frame): seq<Frame> {
    if goesThrough then [f] else []
  }

  /**
   * The frames written once the first ping is out: each message becomes an update frame and
   * each elapsed delay a ping, while the client is there; nothing from cancellation on.
   */
  function Streaming(connected: bool, signals: seq<Signal>): seq<Frame> {
    if signals == [] then []
    else
      match signals[0]
      case Message(p) => Emit(connected, Event(UPDATE_EVENT, p)) + Streaming(connected, signals[1..])
      case Tick => Emit(connected, Comment(PING)) + Streaming(connected, signals[1..])
      case Disconnect => Streaming(false, signals[1..])
      case Cancel => []
  }

  /** What the heartbeat loop writes from its next ping on. */
  function Looping(connected: bool, signals: seq<Signal>): seq<Frame> {
    Emit(connected, Comment(PING)) + Streaming(connected, signals)
  }

  /** Everything GetEvents writes, for a token that may already be cancelled. */
  function Transcript(cancelled: bool, connected: bool, signals: seq<Signal>): seq<Frame> {
    if cancelled then [] else Emit(connected, Comment(CONNECTED)) + Looping(connected, signals)
  }

  /** Whether the client is still there when the token fires. */
  function ConnectedAfter(connected: bool, signals: seq<Signal>): bool {
    if signals == [] then connected
    else
      match signals[0]
      case Disconnect => ConnectedAfter(false, signals[1..])
      case Cancel => connected
      case _ => ConnectedAfter(connected, signals[1..])
  }

  /** The messages that reach the client: those delivered before cancellation while it is there. */
  function Delivered(connected: bool, signals: seq<Signal>): seq<string> {
    if signals == [] then []
    else
      match signals[0]
      case Message(p) => (if connected then [p] else []) + Delivered(connected, signals[1..])
      case Tick => Delivered(connected, signals[1..])
      case Disconnect => Delivered(false, signals[1..])
      case Cancel => []
  }

  /** The `agent_update` events a browser raises for the given payloads. */
  function Updates(payloads: seq<string>): seq<Dispatched> {
    if payloads == [] then [] else [Dispatched(UPDATE_EVENT, payloads[0])] + Updates(payloads[1..])
  }

  predicate SingleLinePayloads(signals: seq<Signal>) {
    forall i :: 0 <= i < |signals| && signals[i].Message? ==> SingleLine(signals[i].payload)
  }

  /** Whether a signal leaves the heartbeat's wait running: a message, or the client going away. */
  predicate KeepsWaiting(s: Signal) {
    s.Message? || s == Disconnect
  }

  /**
   * Where the current wait ends: the index of the first elapsed delay or firing of the token,
   * or the number of signals when neither comes (the token then fires as they run out).
   */
  function WaitEnd(signals: seq<Signal>): (k: nat)
    ensures k <= |signals|
    ensures forall j :: 0 <= j < k ==> KeepsWaiting(signals[j])
    ensures k < |signals| ==> !KeepsWaiting(signals[k])
  {
    if signals == [] || !KeepsWaiting(signals[0]) then 0 else 1 + WaitEnd(signals[1..])
  }

  /**
   * Signals before the token fires can be taken in two parts: what is written and delivered for
   * `s + t` is that of `s`, then that of `t` for the client as `s` left it.
   */
  lemma {:induction false} StreamingAppend(connected: bool, s: seq<Signal>, t: seq<Signal>)
    requires forall j :: 0 <= j < |s| ==> s[j] != Cancel
    ensures Streaming(connected, s + t) == Streaming(connected, s) + Streaming(ConnectedAfter(connected, s), t)
    ensures Delivered(connected, s + t) == Delivered(connected, s) + Delivered(ConnectedAfter(connected, s), t)
    ensures ConnectedAfter(connected, s + t) == ConnectedAfter(ConnectedAfter(connected, s), t)
    decreases |s|
  {
    if s == [] {
      assert s + t == t;
    } else {
      assert (s + t)[0] == s[0] && (s + t)[1..] == s[1..] + t;
      var next := if s[0] == Disconnect then false else connected;
      var after := ConnectedAfter(connected, s);
      StreamingAppend(next, s[1..], t);
      match s[0]
      case Message(p) =>
        Regroup(Emit(connected, Event(UPDATE_EVENT, p)), Streaming(connected, s[1..]), Streaming(after, t));
        Regroup(if connected then [p] else [], Delivered(connected, s[1..]), Delivered(after, t));
      case Tick =>
        Regroup(Emit(connected, Comment(PING)), Streaming(connected, s[1..]), Streaming(after, t));
      case Disconnect =>
    }
  }

  /**
   * One more signal of the current wait: it keeps the wait running exactly when the wait ends
   * later, and then it adds its update frame, if any, and its effect on the client.
   */
  lemma WaitStep(connected: bool, signals: seq<Signal>, i: nat)
    requires i < |signals| && i <= WaitEnd(signals)
    ensures KeepsWaiting(signals[i]) <==> i < WaitEnd(signals)
    ensures var after := ConnectedAfter(connected, signals[..i]);
      KeepsWaiting(signals[i]) ==>
        && Streaming(connected, signals[..i + 1]) == Streaming(connected, signals[..i])
             + (if signals[i].Message? then Emit(after, Event(UPDATE_EVENT, signals[i].payload)) else [])
        && ConnectedAfter(connected, signals[..i + 1]) == (signals[i].Message? && after)
  {
    if KeepsWaiting(signals[i]) {
      var signal := signals[i];
      assert signals[..i + 1] == signals[..i] + [signal];
      assert [signal][1..] == [];
      StreamingAppend(connected, signals[..i], [signal]);
    }
  }

  /**
   * The stream up to where the current wait ends, then what ends it: nothing more when the
   * token fires or the signals run out, and the rest of the loop from its next ping when the
   * delay elapses.
   */
  lemma StreamingAtWaitEnd(connected: bool, signals: seq<Signal>)
    ensures var k := WaitEnd(signals);
      var after := ConnectedAfter(connected, signals[..k]);
      && (k == |signals| || signals[k] == Cancel ==>
            && Streaming(connected, signals) == Streaming(connected, signals[..k])
            && ConnectedAfter(connected, signals) == after)
      && (k < |signals| && signals[k] == Tick ==>
            && Streaming(connected, signals) == Streaming(connected, signals[..k]) + Looping(after, signals[k + 1..])
            && ConnectedAfter(connected, signals) == ConnectedAfter(after, signals[k + 1..]))
  {
    var k := WaitEnd(signals);
    var quiet := signals[..k];
    assert signals == quiet + signals[k..];
    assert forall j :: 0 <= j < |quiet| ==> quiet[j] != Cancel by {
      forall j | 0 <= j < |quiet| ensures quiet[j] != Cancel {
        assert KeepsWaiting(signals[j]);
      }
    }
    StreamingAppend(connected, quiet, signals[k..]);
    if k < |signals| {
      assert signals[k..][1..] == signals[k + 1..];
    } else {
      assert Streaming(connected, quiet) + [] == Streaming(connected, quiet);
    }
  }

  class Connection {
    /** The frames flushed to the client, in order; the bytes on the wire are `Wire(frames)`. */
    var frames: seq<Frame>
    /** Whether the `sse:messages` subscription is held. */
    var subscribed: bool
    /** Whether the request's cancellation token has fired. */
    var cancelled: bool
    /** Whether writes reach the client (false once it has gone away). */
    var clientConnected: bool
    /** How many frames had been written when the subscription was last taken. */
    ghost var subscribedAt: nat
    /** How many frames had been written when the subscription was last released. */
    ghost var releasedAt: nat

    constructor (alreadyCancelled: bool)
      ensures frames == [] && !subscribed && cancelled == alreadyCancelled && clientConnected && subscribedAt == 0 && releasedAt == 0
    {
      frames := [];
      subscribed := false;
      cancelled := alreadyCancelled;
      clientConnected := true;
      subscribedAt, releasedAt := 0, 0;
    }

    /** SubscribeAsync on `sse:messages`. */
    method Subscribe()
      modifies this`subscribed, this`subscribedAt
      ensures subscribed && subscribedAt == |frames|
    {
      subscribed := true;
      subscribedAt := |frames|;
    }

    /** UnsubscribeAsync: after it the handler is never called again. */
    method Unsubscribe()
      modifies this`subscribed, this`releasedAt
      ensures !subscribed && releasedAt == |frames|
    {
      subscribed := false;
      releasedAt := |frames|;
    }

    /** WriteAsync then FlushAsync; a failure is caught and only logged. */
    method Send(f: Frame)
      modifies this`frames
      ensures frames == old(frames) + (Emit(clientConnected, f))
    {
      if clientConnected {
        frames := frames + [f];
      }
    }

    /** WriteSseEventAsync: nothing at all once cancellation has been requested. */
    method WriteSseEvent(name: string, payload: string)
      modifies this`frames
      ensures frames == old(frames) + (Emit(!cancelled && clientConnected, Event(name, payload)))
    {
      if cancelled {
        return;
      }
      Send(Event(name, payload));
    }

    /** WriteSseCommentAsync: nothing at all once cancellation has been requested. */
    method WriteSseComment(text: string)
      modifies this`frames
      ensures frames == old(frames) + (Emit(!cancelled && clientConnected, Comment(text)))
    {
      if cancelled {
        return;
      }
      Send(Comment(text));
    }

    /**
     * The handler registered with OnMessage. The subscription only calls it while it is held;
     * the handler itself skips the write once cancellation has been requested.
     */
    method OnMessage(payload: string)
      modifies this`frames
      ensures frames == old(frames) + (Emit(subscribed && !cancelled && clientConnected, Event(UPDATE_EVENT, payload)))
    {
      if !subscribed || cancelled {
        return;
      }
      WriteSseEvent(UPDATE_EVENT, payload);
    }

    /**
     * The heartbeat loop's Task.Delay(25 s, ct), facing the signals `pending`: the handler runs
     * for each message until the delay elapses (a Tick) or the token fires (a Cancel, on which
     * the delay throws and the loop is left). The signals are all that happens until the
     * request ends, so the token fires when they run out. `rest` is what has not happened yet.
     */
    method AwaitHeartbeat(pending: seq<Signal>) returns (rest: seq<Signal>, ghost emitted: seq<Frame>)
      requires subscribed && !cancelled
      modifies this`frames, this`cancelled, this`clientConnected
      ensures subscribed && frames == old(frames) + emitted && |rest| <= |pending|
      ensures cancelled <==> WaitEnd(pending) == |pending| || pending[WaitEnd(pending)] == Cancel
      ensures !cancelled ==> rest == pending[WaitEnd(pending) + 1..]
      ensures emitted == old(Streaming(clientConnected, pending[..WaitEnd(pending)]))
      ensures clientConnected == old(ConnectedAfter(clientConnected, pending[..WaitEnd(pending)]))
    {
      ghost var connected0 := clientConnected;
      ghost var frames0 := frames;
      ghost var k := WaitEnd(pending);
      ghost var i := 0;
      emitted := [];
      rest := pending;
      var waiting := true;
      while waiting
        invariant subscribed && i <= |pending| && rest == pending[i..]
        invariant frames == frames0 + emitted
        invariant waiting ==> !cancelled && i <= k
        invariant waiting ==> emitted == Streaming(connected0, pending[..i])
        invariant waiting ==> clientConnected == ConnectedAfter(connected0, pending[..i])
        invariant !waiting ==> emitted == Streaming(connected0, pending[..k])
        invariant !waiting ==> clientConnected == ConnectedAfter(connected0, pending[..k])
        invariant !waiting ==> (cancelled <==> k == |pending| || pending[k] == Cancel)
        invariant !waiting && !cancelled ==> i == k + 1
        decreases |rest|, waiting
      {
        if rest == [] {
          cancelled := true;
          waiting := false;
        } else {
          var signal := rest[0];
          assert signal == pending[i];
          WaitStep(connected0, pending, i);
          match signal {
            case Message(p) =>
              ghost var update := Emit(clientConnected, Event(UPDATE_EVENT, p));
              Regroup(frames0, emitted, update);
              OnMessage(p);
              emitted := emitted + update;
            case Tick =>
              waiting := false;
            case Disconnect =>
              clientConnected := false;
            case Cancel =>
              cancelled := true;
              waiting := false;
          }
          rest := rest[1..];
          i := i + 1;
        }
      }
    }

    /** One turn of the heartbeat loop: a `ping` comment, then the 25-second wait. */
    method Beat(pending: seq<Signal>) returns (rest: seq<Signal>, ghost emitted: seq<Frame>)
      requires subscribed && !cancelled
      modifies this`frames, this`cancelled, this`clientConnected
      ensures subscribed && frames == old(frames) + emitted && |rest| <= |pending|
      ensures cancelled <==> WaitEnd(pending) == |pending| || pending[WaitEnd(pending)] == Cancel
      ensures !cancelled ==> rest == pending[WaitEnd(pending) + 1..]
      ensures emitted == old(Emit(clientConnected, Comment(PING)) + Streaming(clientConnected, pending[..WaitEnd(pending)]))
      ensures clientConnected == old(ConnectedAfter(clientConnected, pending[..WaitEnd(pending)]))
      ensures cancelled ==> emitted == old(Looping(clientConnected, pending))
      ensures cancelled ==> clientConnected == old(ConnectedAfter(clientConnected, pending))
      ensures !cancelled ==> emitted + Looping(clientConnected, rest) == old(Looping(clientConnected, pending))
      ensures !cancelled ==> ConnectedAfter(clientConnected, rest) == old(ConnectedAfter(clientConnected, pending))
    {
      ghost var connected0 := clientConnected;
      ghost var ping := Emit(clientConnected, Comment(PING));
      WriteSseComment(PING);
      ghost var waited;
      rest, waited := AwaitHeartbeat(pending);
      emitted := ping + waited;
      Regroup(old(frames), ping, waited);
      StreamingAtWaitEnd(connected0, pending);
      if !cancelled {
        Regroup(ping, waited, Looping(clientConnected, rest));
      }
    }

    /** The heartbeat loop of GET /events, which runs until the token fires. */
    method Heartbeats(pending: seq<Signal>)
      requires subscribed
      modifies this`frames, this`cancelled, this`clientConnected
      ensures cancelled && subscribed
      ensures frames == old(frames) + if old(cancelled) then [] else old(Looping(clientConnected, pending))
      ensures clientConnected == if old(cancelled) then old(clientConnected) else old(ConnectedAfter(clientConnected, pending))
    {
      ghost var frames0 := frames;
      ghost var goal := if cancelled then [] else Looping(clientConnected, pending);
      ghost var finalConnected := if cancelled then clientConnected else ConnectedAfter(clientConnected, pending);
      ghost var written: seq<Frame> := [];
      var rest := pending;
      while !cancelled
        invariant subscribed
        invariant frames == frames0 + written
        invariant cancelled ==> written == goal && clientConnected == finalConnected
        invariant !cancelled ==> written + Looping(clientConnected, rest) == goal
        invariant !cancelled ==> ConnectedAfter(clientConnected, rest) == finalConnected
        decreases |rest|, !cancelled
      {
        ghost var before := written;
        ghost var emitted;
        rest, emitted := Beat(rest);
        written := written + emitted;
        Regroup(frames0, before, emitted);
        if !cancelled {
          Regroup(before, emitted, Looping(clientConnected, rest));
        }
      }
    }

    /**
     * GET /events, for the signals that arrive while it runs. It returns only once the token
     * has fired, and it releases the subscription on the way out whatever happened before.
     */
    method GetEvents(signals: seq<Signal>)
      modifies this
      ensures cancelled && !subscribed
      ensures frames == old(frames) + Transcript(old(cancelled), old(clientConnected), signals)
      ensures clientConnected == if old(cancelled) then old(clientConnected) else ConnectedAfter(old(clientConnected), signals)
      ensures subscribedAt == |old(frames)| && releasedAt == |frames|
      ensures Wire(frames) == Wire(old(frames)) + Wire(Transcript(old(cancelled), old(clientConnected), signals))
    {
      Subscribe();
      WriteSseComment(CONNECTED);
      Heartbeats(signals);
      assert frames == old(frames) + Transcript(old(cancelled), old(clientConnected), signals) by {
        if !old(cancelled) {
          Regroup(old(frames), Emit(old(clientConnected), Comment(CONNECTED)), Looping(old(clientConnected), signals));
        }
      }
      // the subscription is released whatever ended the loop
      Unsubscribe();
      WireAppend(old(frames), Transcript(old(cancelled), old(clientConnected), signals));
    }
  }
}
