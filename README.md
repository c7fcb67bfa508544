# Agent status over Server-Sent Events — a Dafny model

`EventsController` is an ASP.NET Core controller. It keeps the state of a set of agents in
the Redis hash `agents`, where each agent id maps to `running` or `paused`. Every change it
makes is published as an `AgentStatusDto` in JSON on the Redis channel `sse:messages`. Each
client of `GET /events` receives those publications as a text/event-stream (Server-Sent
Events) response.

This project models three parts of the controller.

- **The SSE framing.**
  - `SseFrames` holds an event frame (`event: <name>`, `data: <payload>`, blank line) and a
    comment frame (`: <text>`, blank line).
  - `SseParsing` is an independent reference. It is the event-stream interpretation of the
    HTML Living Standard (sections 9.2.5 and 9.2.6), restricted to the `event` and `data`
    fields. The lemmas read the controller's frames through it.
- **The agent store.** `Agents.AgentStore` is a class over the Redis hash (a `map`), the
  channel (the `seq` of published messages) and a ghost log of the Redis calls, in the order
  they are made.
  - `AddAgent`, `UpdateAgentState` and `GetAllAgents` are its methods.
  - `AgentJson` stands in for `JsonSerializer.Serialize(new AgentStatusDto(...))`. It comes
    with a reader that gets every payload back.
- **One event stream.** `EventStream.Connection` is a class holding four things:
  - the frames flushed so far;
  - whether the subscription is held;
  - whether the cancellation token has fired;
  - whether the client is still there.

  `GetEvents` runs the handler against a sequence of `Signal`s. A signal is a published
  message reaching the handler, the 25-second delay elapsing, the client going away, or the
  token firing. Pure functions (`Streaming`, `Looping`, `Transcript`, `Delivered`) say what the handler
  writes and which messages reach the client for a given sequence of signals. `GetEvents` is proved against them, and
  `StreamProperties` proves what a browser's `EventSource` makes of the result.

Two behaviours of the code are worth stating, and the model follows them:

- A failed write does not end the connection. The code logs any exception from a write other
  than a cancellation and goes on with the heartbeat loop until the token fires; a write
  cancelled by the token is dropped silently. `GetEvents` therefore
  keeps looping after the client has gone, writing nothing.
- `UpdateAgentState` does not look the agent up. An unknown id is created with the requested
  state, and the model does the same.

## Model

| member | source | states |
|---|---|---|
| SseFrames.Encode | SseDemo/EventsController.cs:101-116 | every frame, event or comment, ends with the blank line that closes it |
| SseFrames.WireAppend | SseDemo/EventsController.cs:101-102 | the bytes of frames flushed one after another are the bytes of each frame, back to back |
| SseParsing.EventFrameIsOneEvent | SseDemo/EventsController.cs:101 | an event frame with a single-line name and payload is read as exactly one event with that type (`message` for an empty name) and exactly that data, leaving the parser's buffers empty |
| SseParsing.CommentFrameIsNoEvent | SseDemo/EventsController.cs:116 | a comment frame with single-line text raises no event and leaves the buffers empty |
| SseParsing.FrameIsItsDispatches | SseDemo/EventsController.cs:96-124 | any well-formed frame is read as its own dispatches, whichever kind it is |
| SseParsing.WireIsDispatches | SseDemo/EventsController.cs:96-124 | any sequence of well-formed frames written back to back is read as the events of those frames, in order, with nothing lost or merged |
| SseParsing.RunAppend | SseDemo/EventsController.cs:101-102 | reading a stream in two pieces split after a LF gives the same events as reading it whole, so frames flushed one by one can be read incrementally |
| SseParsing.MultiLinePayloadIsCut | SseDemo/EventsController.cs:101 | a payload holding a line break, which the interpolation does not escape, is read as an event carrying only its first line when its second line is not itself a field |
| AgentJson.Escape | SseDemo/EventsController.cs:73 | the escaped body of a JSON string has no line break and no quotation mark |
| AgentJson.UnescapeEscape | SseDemo/EventsController.cs:73 | unescaping an escaped string gives the string back |
| AgentJson.Serialize | SseDemo/EventsController.cs:73 | the serialised `AgentStatusDto` is a single line, so it fits in one `data:` field |
| AgentJson.RoundTrip | SseDemo/EventsController.cs:73 | every published payload deserialises to exactly the status it was made from |
| AgentJson.SerializeInjective | SseDemo/EventsController.cs:90 | distinct statuses are published as distinct payloads |
| Agents.LowerInvariant | SseDemo/EventsController.cs:82 | lower-casing keeps the length and lowers each character in place |
| Agents.LowerMatches | SseDemo/EventsController.cs:82-83 | the lowered state equals a lower-case word exactly when the state is that word up to case |
| Agents.ValidateState | SseDemo/EventsController.cs:82-86 | a state is accepted if and only if it is present and is `running` or `paused` in any case; an accepted state is the lower-case word it matches |
| Agents.AcceptedInAnyCase | SseDemo/EventsController.cs:82-83 | any spelling of `running` or `paused`, in any mix of cases, is accepted as exactly that lower-case word |
| Agents.RefusedStates | SseDemo/EventsController.cs:82-86 | `archived` and a missing state are refused |
| Agents.AcceptedStates | SseDemo/EventsController.cs:82-86 | `PAUSED` is accepted as `paused` and `Running` as `running` |
| Agents.AgentStore.constructor | SseDemo/EventsController.cs:12-20 | the store starts from the given hash with nothing published |
| Agents.AgentStore.HashSet | SseDemo/EventsController.cs:71 | one field of the hash is created or overwritten and nothing else changes |
| Agents.AgentStore.Publish | SseDemo/EventsController.cs:74 | the message is appended to the channel and nothing else changes |
| Agents.AgentStore.AddAgent | SseDemo/EventsController.cs:66-77 | the supplied id, or the generated id when none or an empty one is given, is set to `running` and then published; the response is 201 with `/agents/{id}` and that status; the message published is the serialisation of the response body; only valid states are stored |
| Agents.AgentStore.UpdateAgentState | SseDemo/EventsController.cs:80-94 | a refused state answers 400 with the fixed message and leaves the hash, the channel and the call log untouched; an accepted one is stored lower-cased for that id, then published, then returned as 200; the message published is the serialisation of the response body; only valid states are stored |
| Agents.AgentStore.GetAllAgents | SseDemo/EventsController.cs:57-63 | the list holds one status per field of the hash, a status is in the list exactly when the hash maps its id to its state, and no id appears twice; while only valid states are stored, every listed state is `running` or `paused` |
| EventStream.Connection.constructor | SseDemo/EventsController.cs:24 | a request starts with an empty response, no subscription, a present client and a token that may already have fired |
| EventStream.Connection.Subscribe | SseDemo/EventsController.cs:30-31 | the subscription is held, and it is recorded how much had been written at that moment |
| EventStream.Connection.Unsubscribe | SseDemo/EventsController.cs:50-53 | the subscription is released, and it is recorded how much had been written at that moment |
| EventStream.Connection.Send | SseDemo/EventsController.cs:99-108 | the frame is appended to the response if the client is there; a failed write appends nothing and raises nothing |
| EventStream.Connection.WriteSseEvent | SseDemo/EventsController.cs:96-109 | nothing is written once the token has fired; otherwise the event frame goes out if the client is there |
| EventStream.Connection.WriteSseComment | SseDemo/EventsController.cs:111-124 | nothing is written once the token has fired; otherwise the comment frame goes out if the client is there |
| EventStream.Connection.OnMessage | SseDemo/EventsController.cs:35-39 | a delivered message becomes one `agent_update` frame carrying it, unless the token has fired or the subscription has been released |
| EventStream.WaitEnd | SseDemo/EventsController.cs:46 | the wait ends at the first elapsed delay or firing of the token: every signal before that point is a message or the client leaving, and the signal at it is neither |
| EventStream.StreamingAppend | SseDemo/EventsController.cs:35-47 | before the token fires, the signals can be taken in two parts: what is written and delivered for the whole is that of the first part followed by that of the second, for the client as the first part left it |
| EventStream.StreamingAtWaitEnd | SseDemo/EventsController.cs:43-47 | what the whole stream writes is what is written up to the end of the current wait, followed by nothing when the token fires there and by the next turn of the loop (a ping first) when the delay elapses there |
| EventStream.Connection.AwaitHeartbeat | SseDemo/EventsController.cs:46 | the wait ends exactly at `WaitEnd`: the token has fired when the signals ran out or the one there is a `Cancel`, and otherwise the signals after the elapsed delay are left; every message before that point is forwarded, so what was written is `Streaming` of exactly those signals and the client is as they left it |
| EventStream.Connection.Beat | SseDemo/EventsController.cs:45-46 | one turn of the loop writes one ping and then `Streaming` of the signals up to `WaitEnd`, ending and leaving the signals exactly as the wait does; this is a prefix of what the rest of the loop writes, and all of it once the token has fired |
| EventStream.Connection.Heartbeats | SseDemo/EventsController.cs:41-49 | the loop ends only once the token has fired and writes the first ping followed by `Streaming` of the signals; a token fired before the loop means nothing is written |
| EventStream.Connection.GetEvents | SseDemo/EventsController.cs:24-54 | the handler returns with the token fired and the subscription released; it wrote exactly `Transcript` (the `connected` comment, a ping, then the stream), and nothing if the token had already fired; the subscription covers everything it wrote; the bytes it added to the response body are those of `Transcript` |
| StreamProperties.NothingAfterCancel | SseDemo/EventsController.cs:43-49 | once the token fires, later signals change neither what is written nor what is delivered |
| StreamProperties.GoneClientGetsNothing | SseDemo/EventsController.cs:99-108 | once the client has gone away, no frame and no message reaches it |
| StreamProperties.NothingAfterDisconnect | SseDemo/EventsController.cs:35-47 | whatever happens after the client goes away changes neither the response of GET /events nor the messages delivered |
| StreamProperties.StreamingCarriesDelivered | SseDemo/EventsController.cs:35-47 | the only events in the stream are one `agent_update` per delivered message, in order; pings raise none |
| StreamProperties.StreamingWellFormed | SseDemo/EventsController.cs:38-45 | with single-line payloads every frame the stream writes is well formed |
| StreamProperties.ClientSeesDeliveredUpdates | SseDemo/EventsController.cs:24-54 | a browser reading the whole response raises exactly one `agent_update` event per delivered message, in order, carrying that message, and nothing else |
| StreamProperties.UpdateFrameCarriesAgent | SseDemo/EventsController.cs:73-74 | a status published by the agent endpoints arrives as one `agent_update` event whose data reads back as the same status |

## Left out

- HTTP concerns are not modelled: routing, model binding and the response headers
  (`SseDemo/EventsController.cs:26-28`). `SseDemo/Program.cs`, the application start-up, is
  not part of this model.
- Redis is modelled only as the controller uses it: a hash and a channel that records its
  messages. Its server, its persistence and its fan-out to other subscribers and processes are
  left out. A failure of `SubscribeAsync`, `HashSetAsync` or `PublishAsync` is not modelled.
- Concurrency is not modelled. The `OnMessage` callback and the heartbeat loop run
  concurrently in the source; the model interleaves them through the sequence of signals.
  Deliveries are modelled only while the loop waits on `Task.Delay`. A message that arrives
  before the handler is registered, or between the end of a delay and the next ping, is not
  modelled.
- EventStream.Connection.Heartbeats, EventStream.Connection.GetEvents: the token is seen firing only during the 25-second wait
  (a `Cancel` signal). The token firing at any other point is not modelled: after the
  `connected` comment and before the first loop check (`SseDemo/EventsController.cs:33-43`),
  between an elapsed delay and the next loop check (`:43-46`), or during a write, where
  `WriteAsync` throws, the write helper swallows the cancellation and the delay that follows
  throws at once. In each of these the source leaves the loop without writing the next ping.
  `Transcript` therefore always carries the first ping, and a ping after every `Tick` (while
  the client is there), even when a `Cancel` follows it at once.
- Timing: the 25-second delay is a `Tick` signal; clocks are not modelled.
- A failed write (the client has gone, or `WriteAsync`/`FlushAsync` throws) is modelled as
  the client being gone for good: from then on every write appends nothing. A partial write is
  not modelled, and neither is the logging to the console.
- EventStream.Connection.AwaitHeartbeat: the signals are finite and stand for everything
  that happens until the request ends, so the token fires when they run out. A stream that
  is never cancelled, on which the source's loop would run for ever, is not modelled.
- Agents.LowerInvariant: lowers only the ASCII letters A to Z, not all of `ToLowerInvariant`'s
  Unicode case mapping.
- AgentJson.Serialize: escapes only what RFC 8259 (section 7) requires (the quotation mark, the
  reverse solidus and control characters), and always in the form `\u00XX`. `System.Text.Json`
  writes the short forms `\n`, `\r`, `\t`, `\b`, `\f` and `\\` for those characters, so the
  model's payload bytes differ from the source's for them. Its default encoder also escapes
  non-ASCII characters and HTML-sensitive characters such as `<`, `>`, `&`, `'` and `+`. Any
  such escaping keeps the payload on one line and readable back, which is what the lemmas use.
- SseParsing.Run: reads only the `event` and `data` fields. The `id` and `retry` fields, the
  byte order mark and the reconnection behaviour of `EventSource` are left out. A carriage
  return at the very end of the input is taken as a complete line break.
- Agents.AgentStore.AddAgent: the GUID for a missing id is a parameter; its uniqueness is not
  modelled.
