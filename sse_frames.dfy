/**
 * The text/event-stream frames the events controller writes
 * (section 9.2.5 of the WHATWG HTML Living Standard, "Parsing an event stream").
 */
module SseFrames {
  import opened Text

  /** One frame, as written by WriteSseEventAsync or WriteSseCommentAsync. */
  datatype Frame =
    | Event(name: string, payload: string)
    | Comment(text: string)

  /** Every field of the frame fits on one line, so the frame is read back as written. */
  predicate WellFormed(f: Frame) {
    match f
    case Event(name, payload) => SingleLine(name) && SingleLine(payload)
    case Comment(text) => SingleLine(text)
  }

  /** The text of a frame: `event: <name>`, `data: <payload>`, or `: <comment>`, closed by a blank line. */
  function Encode(f: Frame): (r: string)
    ensures |r| >= 2 && r[|r| - 2..] == "\n\n"
  {
    match f
    case Event(name, payload) => "event: " + name + "\ndata: " + payload + "\n\n"
    case Comment(text) => ": " + text + "\n\n"
  }

  /** The bytes a sequence of frames puts on the response body. */
  function Wire(fs: seq<Frame>): string {
    if fs == [] then [] else Encode(fs[0]) + Wire(fs[1..])
  }

  lemma {:induction false} WireAppend(a: seq<Frame>, b: seq<Frame>)
    ensures Wire(a + b) == Wire(a) + Wire(b)
    decreases |a|
  {
    if a == [] {
      assert a + b == b;
    } else {
      assert (a + b)[1..] == a[1..] + b;
      WireAppend(a[1..], b);
    }
  }
}
