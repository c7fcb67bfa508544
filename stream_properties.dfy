/**
 * What one client of GET /events observes: the frames the handler writes, read back the way a
 * browser's EventSource reads them.
 */
module StreamProperties {
  import opened Wrappers
  import opened Text
  import opened SseFrames
  import opened SseParsing
  import opened AgentJson
  import opened EventStream

  predicate AllWellFormed(fs: seq<Frame>) {
    forall i :: 0 <= i < |fs| ==> WellFormed(fs[i])
  }

  lemma AllWellFormedAppend(a: seq<Frame>, b: seq<Frame>)
    requires AllWellFormed(a) && AllWellFormed(b)
    ensures AllWellFormed(a + b)
  {
    forall i | 0 <= i < |a + b|
      ensures WellFormed((a + b)[i])
    {
      if i >= |a| {
        assert (a + b)[i] == b[i - |a|];
      }
    }
  }

  lemma {:induction false} DispatchesAppend(a: seq<Frame>, b: seq<Frame>)
    ensures Dispatches(a + b) == Dispatches(a) + Dispatches(b)
    decreases |a|
  {
    if a == [] {
      assert a + b == b;
    } else {
      assert (a + b)[0] == a[0] && (a + b)[1..] == a[1..] + b;
      DispatchesCons(a);
      DispatchesCons(a + b);
      DispatchesAppend(a[1..], b);
      Regroup(Dispatches([a[0]]), Dispatches(a[1..]), Dispatches(b));
    }
  }

  lemma CommentsDispatchNothing(connected: bool, text: string)
    ensures Dispatches(Emit(connected, Comment(text))) == []
  {
    assert [Comment(text)][1..] == [];
  }

  lemma UpdatesCons(p: string, rest: seq<string>)
    ensures Updates([p] + rest) == [Dispatched(UPDATE_EVENT, p)] + Updates(rest)
  {
    assert ([p] + rest)[1..] == rest;
  }

  /** The token firing ends the stream: signals after it change nothing that is written. */
  lemma {:induction false} NothingAfterCancel(connected: bool, s: seq<Signal>, t: seq<Signal>)
    requires Cancel in s
    ensures Streaming(connected, s + t) == Streaming(connected, s)
    ensures Delivered(connected, s + t) == Delivered(connected, s)
    ensures ConnectedAfter(connected, s + t) == ConnectedAfter(connected, s)
    decreases |s|
  {
    assert (s + t)[0] == s[0];
    if s[0] != Cancel {
      assert s == [s[0]] + s[1..];
      assert Cancel in s[1..];
      assert (s + t)[1..] == s[1..] + t;
      if s[0] == Disconnect {
        NothingAfterCancel(false, s[1..], t);
      } else {
        NothingAfterCancel(connected, s[1..], t);
      }
    }
  }

  /** Once the client has gone away, no frame and no message reaches it any more. */
  lemma {:induction false} GoneClientGetsNothing(s: seq<Signal>)
    ensures Streaming(false, s) == [] && Delivered(false, s) == []
    decreases |s|
  {
    if s != [] {
      GoneClientGetsNothing(s[1..]);
    }
  }

  /**
   * Once the client has gone away, whatever happens later adds nothing to the response and
   * delivers nothing more: the handler goes on running, but it writes to no one.
   */
  lemma NothingAfterDisconnect(connected: bool, s: seq<Signal>, t: seq<Signal>)
    ensures Transcript(false, connected, s + [Disconnect] + t) == Transcript(false, connected, s + [Disconnect])
    ensures Delivered(connected, s + [Disconnect] + t) == Delivered(connected, s + [Disconnect])
  {
    Regroup(s, [Disconnect], t);
    if Cancel in s {
      NothingAfterCancel(connected, s, [Disconnect] + t);
      NothingAfterCancel(connected, s, [Disconnect]);
    } else {
      StreamingAppend(connected, s, [Disconnect] + t);
      StreamingAppend(connected, s, [Disconnect]);
      assert ([Disconnect] + t)[1..] == t;
      assert [Disconnect][1..] == [];
      GoneClientGetsNothing(t);
    }
  }

  /** The only events in the stream are the `agent_update` events of the delivered messages. */
  lemma {:induction false} StreamingCarriesDelivered(connected: bool, s: seq<Signal>)
    ensures Dispatches(Streaming(connected, s)) == Updates(Delivered(connected, s))
    decreases |s|
  {
    if s != [] {
      match s[0]
      case Message(p) =>
        StreamingCarriesDelivered(connected, s[1..]);
        DispatchesAppend(Emit(connected, Event(UPDATE_EVENT, p)), Streaming(connected, s[1..]));
        if connected {
          UpdatesCons(p, Delivered(connected, s[1..]));
        } else {
          assert [] + Delivered(connected, s[1..]) == Delivered(connected, s[1..]);
        }
      case Tick =>
        StreamingCarriesDelivered(connected, s[1..]);
        DispatchesAppend(Emit(connected, Comment(PING)), Streaming(connected, s[1..]));
      case Disconnect =>
        StreamingCarriesDelivered(false, s[1..]);
      case Cancel =>
    }
  }

  /** With single-line payloads every frame the stream writes can be framed without ambiguity. */
  lemma {:induction false} StreamingWellFormed(connected: bool, s: seq<Signal>)
    requires SingleLinePayloads(s)
    ensures AllWellFormed(Streaming(connected, s))
    decreases |s|
  {
    if s != [] {
      assert SingleLinePayloads(s[1..]) by {
        forall i | 0 <= i < |s[1..]| && s[1..][i].Message?
          ensures SingleLine(s[1..][i].payload)
        {
          assert s[1..][i] == s[i + 1];
        }
      }
      match s[0]
      case Message(p) =>
        assert SingleLine(p) by { assert s[0].Message?; }
        StreamingWellFormed(connected, s[1..]);
        AllWellFormedAppend(Emit(connected, Event(UPDATE_EVENT, p)), Streaming(connected, s[1..]));
      case Tick =>
        StreamingWellFormed(connected, s[1..]);
        AllWellFormedAppend(Emit(connected, Comment(PING)), Streaming(connected, s[1..]));
      case Disconnect =>
        StreamingWellFormed(false, s[1..]);
      case Cancel =>
    }
  }

  /**
   * What the browser raises for the whole response of a request that was not cancelled on
   * arrival: one `agent_update` event per delivered message, in order, and nothing else.
   */
  lemma ClientSeesDeliveredUpdates(connected: bool, s: seq<Signal>)
    requires SingleLinePayloads(s)
    ensures Run(Fresh, Wire(Transcript(false, connected, s))) == Parse(Fresh, Updates(Delivered(connected, s)))
  {
    var hello := Emit(connected, Comment(CONNECTED));
    var ping := Emit(connected, Comment(PING));
    var stream := Streaming(connected, s);
    assert Transcript(false, connected, s) == hello + (ping + stream);
    StreamingWellFormed(connected, s);
    AllWellFormedAppend(ping, stream);
    AllWellFormedAppend(hello, ping + stream);
    WireIsDispatches(hello + (ping + stream));
    DispatchesAppend(hello, ping + stream);
    DispatchesAppend(ping, stream);
    CommentsDispatchNothing(connected, CONNECTED);
    CommentsDispatchNothing(connected, PING);
    StreamingCarriesDelivered(connected, s);
  }

  /**
   * An agent published as JSON arrives as one `agent_update` event whose data reads back as
   * the same agent.
   */
  lemma UpdateFrameCarriesAgent(a: AgentStatus)
    ensures Run(Fresh, Encode(Event(UPDATE_EVENT, Serialize(a)))) == Parse(Fresh, [Dispatched(UPDATE_EVENT, Serialize(a))])
    ensures Deserialize(Serialize(a)) == Some(a)
  {
    EventFrameIsOneEvent(UPDATE_EVENT, Serialize(a));
    RoundTrip(a);
  }
}
