/**
 * The payload the controller publishes: an AgentStatusDto serialised as JSON.
 * The serialiser is modelled as the minimal escaping of RFC 8259 (section 7): a quotation
 * mark, a reverse solidus and every control character become `\u00XX`; every other
 * character is copied. System.Text.Json writes some of these in their short forms instead
 * (`\n`, `\r`, `\t`, `\b`, `\f`, `\\`); either form keeps the payload on one line.
 */
module AgentJson {
  import opened Wrappers
  import opened Text

  /** AgentStatusDto(AgentId, State). */
  datatype AgentStatus = AgentStatus(agentId: string, state: string)

  predicate MustEscape(c: char) {
    c < ' ' || c == '"' || c == '\\'
  }

  function HexDigit(n: nat): char
    requires n < 16
  {
    if n < 10 then ('0' as int + n) as char else ('A' as int + n - 10) as char
  }

  function HexValue(c: char): (r: Option<nat>)
    ensures r.Some? ==> r.value < 16
  {
    if '0' <= c && c <= '9' then Some(c as int - '0' as int)
    else if 'A' <= c && c <= 'F' then Some(c as int - 'A' as int + 10)
    else if 'a' <= c && c <= 'f' then Some(c as int - 'a' as int + 10)
    else None
  }

  lemma HexRoundTrip(n: nat)
    requires n < 16
    ensures HexValue(HexDigit(n)) == Some(n)
  {
  }

  function EscapeChar(c: char): string {
    if MustEscape(c) then ['\\', 'u', '0', '0', HexDigit(c as int / 16), HexDigit(c as int % 16)]
    else [c]
  }

  /** The body of a JSON string literal: one line, and no quotation mark to end it early. */
  function Escape(s: string): (r: string)
    ensures SingleLine(r) && '"' !in r
  {
    if s == [] then []
    else
      var head := EscapeChar(s[0]);
      var tail := Escape(s[1..]);
      assert SingleLine(head) && '"' !in head;
      SingleLineAppend(head, tail);
      head + tail
  }

  /** Reads back the body of a string literal written by `Escape`; None for anything it would not write. */
  function Unescape(s: string): Option<string> {
    if s == [] then Some([])
    else if s[0] == '\\' then
      if |s| >= 6 && s[1..4] == "u00" && HexValue(s[4]).Some? && HexValue(s[5]).Some? then
        var c := (16 * HexValue(s[4]).value + HexValue(s[5]).value) as char;
        match Unescape(s[6..])
        case None => None
        case Some(rest) => Some([c] + rest)
      else None
    else if MustEscape(s[0]) then None
    else
      match Unescape(s[1..])
      case None => None
      case Some(rest) => Some([s[0]] + rest)
  }

  lemma {:induction false} UnescapeEscape(s: string)
    ensures Unescape(Escape(s)) == Some(s)
    decreases |s|
  {
    if s != [] {
      var c := s[0];
      var head := EscapeChar(c);
      var r := head + Escape(s[1..]);
      UnescapeEscape(s[1..]);
      if MustEscape(c) {
        var n := c as int;
        HexRoundTrip(n / 16);
        HexRoundTrip(n % 16);
        assert r[1..4] == "u00";
        assert r[4] == HexDigit(n / 16) && r[5] == HexDigit(n % 16);
        assert r[6..] == Escape(s[1..]);
        assert (16 * (n / 16) + n % 16) as char == c;
      } else {
        assert r[1..] == Escape(s[1..]);
      }
      assert [c] + s[1..] == s;
    }
  }

  const ID_OPEN := "{\"AgentId\":\""
  const STATE_OPEN := "\",\"State\":\""
  const CLOSE := "\"}"

  lemma PunctuationIsSingleLine()
    ensures SingleLine(ID_OPEN) && SingleLine(STATE_OPEN) && SingleLine(CLOSE)
  {
  }

  /** The punctuation around two single-line bodies keeps the payload on one line. */
  lemma PayloadIsSingleLine(id: string, state: string)
    requires SingleLine(id) && SingleLine(state)
    ensures SingleLine(ID_OPEN + id + STATE_OPEN + state + CLOSE)
  {
    PunctuationIsSingleLine();
    SingleLineAppend(ID_OPEN, id);
    SingleLineAppend(ID_OPEN + id, STATE_OPEN);
    SingleLineAppend(ID_OPEN + id + STATE_OPEN, state);
    SingleLineAppend(ID_OPEN + id + STATE_OPEN + state, CLOSE);
  }

  /** JsonSerializer.Serialize(new AgentStatusDto(agentId, state)). */
  function Serialize(a: AgentStatus): (json: string)
    ensures SingleLine(json)
  {
    var id := Escape(a.agentId);
    var state := Escape(a.state);
    PayloadIsSingleLine(id, state);
    ID_OPEN + id + STATE_OPEN + state + CLOSE
  }

  /** Reads a payload back; None for text `Serialize` does not produce. */
  function Deserialize(json: string): Option<AgentStatus> {
    if !(ID_OPEN <= json) then None
    else
      var afterOpen := json[|ID_OPEN|..];
      var idEnd := IndexOf(afterOpen, '"');
      match (Unescape(afterOpen[..idEnd]), ReadState(afterOpen[idEnd..]))
      case (Some(id), Some(state)) => Some(AgentStatus(id, state))
      case _ => None
  }

  /** The `State` member and the closing brace that follow the agent id. */
  function ReadState(s: string): Option<string> {
    if !(STATE_OPEN <= s) then None
    else
      var afterKey := s[|STATE_OPEN|..];
      var stateEnd := IndexOf(afterKey, '"');
      if afterKey[stateEnd..] != CLOSE then None else Unescape(afterKey[..stateEnd])
  }

  lemma AfterPrefix(prefix: string, rest: string)
    ensures prefix <= prefix + rest && (prefix + rest)[|prefix|..] == rest
  {
  }

  /** A string body without quotation marks ends at the first quotation mark that follows it. */
  lemma SplitAtQuote(body: string, tail: string)
    requires '"' !in body && tail != [] && tail[0] == '"'
    ensures IndexOf(body + tail, '"') == |body|
    ensures (body + tail)[..|body|] == body && (body + tail)[|body|..] == tail
  {
    var quote: string := ['"'];
    assert tail == quote + tail[1..];
    assert body + tail == body + quote + tail[1..];
    IndexOfAt(body, '"', tail[1..]);
  }

  lemma ReadStateOf(state: string)
    ensures ReadState(STATE_OPEN + Escape(state) + CLOSE) == Some(state)
  {
    var body := Escape(state);
    var s := STATE_OPEN + body + CLOSE;
    assert s == STATE_OPEN + (body + CLOSE);
    AfterPrefix(STATE_OPEN, body + CLOSE);
    SplitAtQuote(body, CLOSE);
    UnescapeEscape(state);
  }

  /** Every published payload reads back as the status it was made from. */
  lemma RoundTrip(a: AgentStatus)
    ensures Deserialize(Serialize(a)) == Some(a)
  {
    var id := Escape(a.agentId);
    var tail := STATE_OPEN + Escape(a.state) + CLOSE;
    assert Serialize(a) == ID_OPEN + (id + tail);
    AfterPrefix(ID_OPEN, id + tail);
    assert tail[0] == STATE_OPEN[0] == '"';
    SplitAtQuote(id, tail);
    UnescapeEscape(a.agentId);
    ReadStateOf(a.state);
  }

  /** Distinct statuses are published as distinct payloads. */
  lemma SerializeInjective(a: AgentStatus, b: AgentStatus)
    requires Serialize(a) == Serialize(b)
    ensures a == b
  {
    RoundTrip(a);
    RoundTrip(b);
  }
}
