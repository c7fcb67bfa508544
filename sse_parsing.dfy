/**
 * How a client reads an event stream: the interpretation of section 9.2.6 of the
 * WHATWG HTML Living Standard ("Interpreting an event stream"), restricted to the
 * `event` and `data` fields. It is the reference the controller's frames are checked against.
 */
module SseParsing {
  import opened Wrappers
  import opened Text
  import opened SseFrames

  /** The event type buffer and the data buffer of the standard. */
  datatype Buffers = Buffers(eventType: string, data: string)

  /** Both buffers empty: the state at the start of a stream and after every dispatch. */
  const Fresh := Buffers("", "")

  /** An event handed to the page: its type and its data. */
  datatype Dispatched = Dispatched(eventType: string, data: string)

  /** What a prefix of a stream leaves behind: the buffers and the events dispatched, in order. */
  datatype Parse = Parse(buffers: Buffers, events: seq<Dispatched>)

  /** The index of the first CR or LF in `s`, or `|s|` when there is none. */
  function LineEndAt(s: string): (k: nat)
    ensures k <= |s|
    ensures forall i :: 0 <= i < k ==> !IsLineBreak(s[i])
    ensures k < |s| ==> IsLineBreak(s[k])
  {
    if s == [] || IsLineBreak(s[0]) then 0 else 1 + LineEndAt(s[1..])
  }

  /**
   * The first complete line of `s` and what follows its terminator (CR LF, LF or CR);
   * None when `s` holds no complete line.
   */
  function NextLine(s: string): (r: Option<(string, string)>)
    ensures r.Some? ==> |r.value.1| < |s|
  {
    var k := LineEndAt(s);
    if k == |s| then None
    else
      var width := if s[k] == '\r' && k + 1 < |s| && s[k + 1] == '\n' then 2 else 1;
      Some((s[..k], s[k + width..]))
  }

  /** The field name and value of a line that is not blank and not a comment. */
  function Field(line: string): (string, string) {
    var k := IndexOf(line, ':');
    if k == |line| then (line, "")
    else
      var value := line[k + 1..];
      (line[..k], if value != [] && value[0] == ' ' then value[1..] else value)
  }

  /** The event type a client reports for a frame's `event:` value. */
  function TypeOf(name: string): string {
    if name == "" then "message" else name
  }

  /** A blank line: dispatch the buffered event, if there is data, and empty both buffers. */
  function Dispatch(b: Buffers): (Buffers, seq<Dispatched>) {
    if b.data == "" then (Fresh, [])
    else
      var data := if b.data[|b.data| - 1] == '\n' then b.data[..|b.data| - 1] else b.data;
      (Fresh, [Dispatched(TypeOf(b.eventType), data)])
  }

  function ProcessLine(b: Buffers, line: string): (Buffers, seq<Dispatched>) {
    if line == "" then Dispatch(b)
    else if line[0] == ':' then (b, [])
    else
      var field := Field(line);
      if field.0 == "event" then (b.(eventType := field.1), [])
      else if field.0 == "data" then (b.(data := b.data + field.1 + "\n"), [])
      else (b, [])
  }

  /** Reads `s` line by line from buffers `b`; an unterminated last line is discarded. */
  function Run(b: Buffers, s: string): Parse
    decreases |s|, 0
  {
    match NextLine(s)
    case None => Parse(b, [])
    case Some((line, rest)) => Continue(ProcessLine(b, line), rest)
  }

  /** The events of one processed line followed by the reading of `rest`. */
  function Continue(step: (Buffers, seq<Dispatched>), rest: string): Parse
    decreases |rest|, 1
  {
    var p := Run(step.0, rest);
    Parse(p.buffers, step.1 + p.events)
  }

  /** Reading `p`, then going on to read `c` from the buffers `p` left. */
  function Then(p: Parse, c: string): Parse {
    var q := Run(p.buffers, c);
    Parse(q.buffers, p.events + q.events)
  }

  /** What a client dispatches for a sequence of well-formed frames: one event per data frame. */
  function Dispatches(fs: seq<Frame>): seq<Dispatched> {
    if fs == [] then []
    else
      (match fs[0]
       case Event(name, payload) => [Dispatched(TypeOf(name), payload)]
       case Comment(_) => []) + Dispatches(fs[1..])
  }

  lemma NextLineOf(line: string, rest: string)
    requires SingleLine(line)
    ensures NextLine(line + "\n" + rest) == Some((line, rest))
  {
    var s := line + "\n" + rest;
    assert s[|line|] == '\n';
    assert LineEndAt(s) == |line|;
    assert s[..|line|] == line;
    assert s[|line| + 1..] == rest;
  }

  /** Reading a complete first line, then the rest. */
  lemma RunLine(b: Buffers, line: string, rest: string)
    requires SingleLine(line)
    ensures Run(b, line + "\n" + rest) == Continue(ProcessLine(b, line), rest)
  {
    NextLineOf(line, rest);
  }

  lemma RunNext(b: Buffers, s: string)
    requires NextLine(s).Some?
    ensures Run(b, s) == Continue(ProcessLine(b, NextLine(s).value.0), NextLine(s).value.1)
  {
  }

  lemma RunEmpty(b: Buffers)
    ensures Run(b, "") == Parse(b, [])
  {
    assert NextLine("") == None;
  }

  lemma FieldOf(name: string, value: string)
    requires ':' !in name
    ensures Field(name + ": " + value) == (name, value)
  {
    var line := name + ": " + value;
    assert line == name + [':'] + (" " + value);
    IndexOfAt(name, ':', " " + value);
    assert line[..|name|] == name;
    assert line[|name| + 1..] == " " + value;
  }

  /** Appending text after a string that ends with LF leaves its first line where it was. */
  lemma NextLineAppend(a: string, c: string)
    requires a != [] && a[|a| - 1] == '\n'
    ensures NextLine(a).Some?
    ensures NextLine(a + c) == Some((NextLine(a).value.0, NextLine(a).value.1 + c))
    ensures var rest := NextLine(a).value.1; rest == [] || rest[|rest| - 1] == '\n'
  {
    var s := a + c;
    var k := LineEndAt(a);
    assert k < |a|;
    assert s[k] == a[k];
    assert LineEndAt(s) == k;
    if k + 1 < |a| {
      assert s[k + 1] == a[k + 1];
    }
    var width := if a[k] == '\r' && k + 1 < |a| && a[k + 1] == '\n' then 2 else 1;
    assert s[..k] == a[..k];
    assert s[k + width..] == a[k + width..] + c;
  }

  /** A frame ends with LF, so reading it never runs into what follows it. */
  lemma {:induction false} RunAppend(b: Buffers, a: string, c: string)
    requires a == [] || a[|a| - 1] == '\n'
    ensures Run(b, a + c) == Then(Run(b, a), c)
    decreases |a|
  {
    if a == [] {
      assert a + c == c;
    } else {
      NextLineAppend(a, c);
      var line := NextLine(a).value.0;
      var rest := NextLine(a).value.1;
      var step := ProcessLine(b, line);
      RunNext(b, a);
      RunNext(b, a + c);
      RunAppend(step.0, rest, c);
      ContinueThen(step, rest, c);
    }
  }

  lemma ContinueThen(step: (Buffers, seq<Dispatched>), rest: string, c: string)
    requires Run(step.0, rest + c) == Then(Run(step.0, rest), c)
    ensures Continue(step, rest + c) == Then(Continue(step, rest), c)
  {
    var p := Run(step.0, rest);
    var q := Run(p.buffers, c);
    assert step.1 + (p.events + q.events) == (step.1 + p.events) + q.events;
  }

  /** An `event:` line sets the event type buffer to the line's value. */
  lemma EventLine(b: Buffers, name: string)
    ensures ProcessLine(b, "event: " + name) == (b.(eventType := name), [])
  {
    var line := "event: " + name;
    assert line == "event" + ": " + name;
    FieldOf("event", name);
    assert line[0] == 'e';
  }

  /** A `data:` line appends the line's value and a LF to the data buffer. */
  lemma DataLine(b: Buffers, payload: string)
    ensures ProcessLine(b, "data: " + payload) == (b.(data := b.data + payload + "\n"), [])
  {
    var line := "data: " + payload;
    assert line == "data" + ": " + payload;
    FieldOf("data", payload);
    assert line[0] == 'd';
  }

  /** The blank line that closes a frame. */
  lemma BlankLineRun(b: Buffers)
    ensures Run(b, "\n") == Parse(Fresh, Dispatch(b).1)
  {
    assert "\n" == "" + "\n" + "";
    RunLine(b, "", "");
    RunEmpty(Fresh);
  }

  /** A line that dispatches nothing: reading goes on from the buffers it leaves. */
  lemma QuietLine(b: Buffers, line: string, filled: Buffers, rest: string)
    requires SingleLine(line) && ProcessLine(b, line) == (filled, [])
    ensures Run(b, line + "\n" + rest) == Run(filled, rest)
  {
    RunLine(b, line, rest);
    var p := Run(filled, rest);
    assert [] + p.events == p.events;
  }

  /** An `event:` line sets the event type, and reading goes on from there. */
  lemma EventLineThen(b: Buffers, name: string, rest: string)
    requires SingleLine(name)
    ensures Run(b, "event: " + name + "\n" + rest) == Run(b.(eventType := name), rest)
  {
    SingleLineAppend("event: ", name);
    EventLine(b, name);
    QuietLine(b, "event: " + name, b.(eventType := name), rest);
  }

  /** A `data:` line appends its value and a LF to the data buffer, and reading goes on from there. */
  lemma DataLineThen(b: Buffers, payload: string, rest: string)
    requires SingleLine(payload)
    ensures Run(b, "data: " + payload + "\n" + rest) == Run(b.(data := b.data + payload + "\n"), rest)
  {
    SingleLineAppend("data: ", payload);
    DataLine(b, payload);
    QuietLine(b, "data: " + payload, b.(data := b.data + payload + "\n"), rest);
  }

  /** A line that only fills the buffers, then the blank line: what it buffered is dispatched. */
  lemma LineThenBlank(b: Buffers, line: string, filled: Buffers)
    requires SingleLine(line) && ProcessLine(b, line) == (filled, [])
    ensures Run(b, line + "\n\n") == Parse(Fresh, Dispatch(filled).1)
  {
    assert line + "\n\n" == line + "\n" + "\n";
    QuietLine(b, line, filled, "\n");
    BlankLineRun(filled);
  }

  /** The data of one `data:` line is dispatched without its final LF. */
  lemma DispatchData(eventType: string, payload: string)
    ensures Dispatch(Buffers(eventType, payload + "\n")) == (Fresh, [Dispatched(TypeOf(eventType), payload)])
  {
    assert (payload + "\n")[..|payload|] == payload;
  }

  /** The `data:` line and the blank line of a data frame dispatch one event. */
  lemma DataThenBlank(b: Buffers, payload: string)
    requires SingleLine(payload) && b.data == ""
    ensures Run(b, "data: " + payload + "\n\n") == Parse(Fresh, [Dispatched(TypeOf(b.eventType), payload)])
  {
    assert "data: " + payload + "\n\n" == "data: " + payload + "\n" + "\n";
    DataLineThen(b, payload, "\n");
    assert b.data + payload + "\n" == payload + "\n";
    BlankLineRun(Buffers(b.eventType, payload + "\n"));
    DispatchData(b.eventType, payload);
  }

  /** One data frame is read as exactly one event carrying the frame's name and payload. */
  lemma EventFrameIsOneEvent(name: string, payload: string)
    requires SingleLine(name) && SingleLine(payload)
    ensures Run(Fresh, Encode(Event(name, payload))) == Parse(Fresh, [Dispatched(TypeOf(name), payload)])
  {
    var afterFirst := "data: " + payload + "\n\n";
    assert Encode(Event(name, payload)) == "event: " + name + "\n" + afterFirst;
    EventLineThen(Fresh, name, afterFirst);
    DataThenBlank(Buffers(name, ""), payload);
  }

  /** A comment frame dispatches nothing and leaves the buffers empty. */
  lemma CommentFrameIsNoEvent(text: string)
    requires SingleLine(text)
    ensures Run(Fresh, Encode(Comment(text))) == Parse(Fresh, [])
  {
    var line := ": " + text;
    SingleLineAppend(": ", text);
    var second := "" + "\n" + "";
    assert Encode(Comment(text)) == line + "\n" + second;
    assert ProcessLine(Fresh, line) == (Fresh, []);
    assert ProcessLine(Fresh, "") == (Fresh, []);
    RunEmpty(Fresh);
    RunLine(Fresh, "", "");
    RunLine(Fresh, line, second);
  }

  /** Any well-formed frame is read as the events `Dispatches` gives it. */
  lemma FrameIsItsDispatches(f: Frame)
    requires WellFormed(f)
    ensures Run(Fresh, Encode(f)) == Parse(Fresh, Dispatches([f]))
  {
    assert [f][1..] == [];
    match f
    case Event(name, payload) => EventFrameIsOneEvent(name, payload);
    case Comment(text) => CommentFrameIsNoEvent(text);
  }

  /** A stream of well-formed frames is read as exactly the events of its data frames, in order. */
  lemma {:induction false} WireIsDispatches(fs: seq<Frame>)
    requires forall i :: 0 <= i < |fs| ==> WellFormed(fs[i])
    ensures Run(Fresh, Wire(fs)) == Parse(Fresh, Dispatches(fs))
    decreases |fs|
  {
    if fs == [] {
      RunEmpty(Fresh);
    } else {
      var head := Encode(fs[0]);
      var tail := Wire(fs[1..]);
      assert head[|head| - 1] == '\n' by {
        assert head[|head| - 2..][1] == head[|head| - 1];
      }
      DispatchesCons(fs);
      RunAppend(Fresh, head, tail);
      FrameIsItsDispatches(fs[0]);
      WireIsDispatches(fs[1..]);
    }
  }

  lemma DispatchesCons(fs: seq<Frame>)
    requires fs != []
    ensures Dispatches(fs) == Dispatches([fs[0]]) + Dispatches(fs[1..])
  {
    assert [fs[0]][1..] == [];
  }

  /** A line with no colon and an unknown field name is ignored; the blank line then dispatches. */
  lemma StrayLineThenBlank(b: Buffers, line: string)
    requires SingleLine(line) && line != "" && ':' !in line && line != "event" && line != "data"
    ensures Run(b, line + "\n\n") == Parse(Fresh, Dispatch(b).1)
  {
    assert IndexOf(line, ':') == |line|;
    LineThenBlank(b, line, b);
  }

  /** The `data:` line of a two-line payload, its stray second line and the blank line. */
  lemma DataThenStray(b: Buffers, first: string, second: string)
    requires SingleLine(first) && SingleLine(second) && b.data == ""
    requires second != "" && ':' !in second && second != "event" && second != "data"
    ensures Run(b, "data: " + first + "\n" + second + "\n\n") == Parse(Fresh, [Dispatched(TypeOf(b.eventType), first)])
  {
    assert "data: " + first + "\n" + second + "\n\n" == "data: " + first + "\n" + (second + "\n\n");
    DataLineThen(b, first, second + "\n\n");
    assert b.data + first + "\n" == first + "\n";
    StrayLineThenBlank(Buffers(b.eventType, first + "\n"), second);
    DispatchData(b.eventType, first);
  }

  /**
   * Why the payload must be a single line: a payload whose second line is not itself a field
   * reaches the client cut at its first line break.
   */
  lemma MultiLinePayloadIsCut(name: string, first: string, second: string)
    requires SingleLine(name) && SingleLine(first) && SingleLine(second)
    requires second != "" && ':' !in second && second != "event" && second != "data"
    ensures Run(Fresh, Encode(Event(name, first + "\n" + second))) == Parse(Fresh, [Dispatched(TypeOf(name), first)])
  {
    var rest := "data: " + first + "\n" + second + "\n\n";
    assert Encode(Event(name, first + "\n" + second)) == "event: " + name + "\n" + rest;
    EventLineThen(Fresh, name, rest);
    DataThenStray(Buffers(name, ""), first, second);
  }
}
