/**
 * The receiving side of the `text/event-stream` format: the interpretation of an
 * event stream in section 9.2.6 of the WHATWG HTML Living Standard ("Interpreting
 * an event stream"), restricted to what decides the type and data of the
 * dispatched events. The stream is split into lines ended by CRLF, LF or CR; an
 * empty line dispatches the pending event, a line starting with `:` is a comment,
 * and every other line is a field name and a value separated by the first colon.
 *
 * On top of it, the framing a server uses to send one string as one event: one
 * `data:` line per line of the string, then an empty line.
 */
module EventStream {

  const LF: char := '\n'
  const CR: char := '\r'
  const BOM: char := '\U{FEFF}'

  predicate IsEol(c: char) {
    c == LF || c == CR
  }

  /** True when `s` has no line terminator. */
  predicate NoEol(s: string) {
    forall i :: 0 <= i < |s| ==> !IsEol(s[i])
  }

  /** True when `s` has no carriage return. */
  predicate NoCR(s: string) {
    forall i :: 0 <= i < |s| ==> s[i] != CR
  }

  /** An event as the `EventSource` object dispatches it. */
  datatype Event = Event(kind: string, data: string)

  /** The position of the first line terminator of `s`, or `|s|` when there is none. */
  function LineEnd(s: string): (n: nat)
    ensures n <= |s|
    ensures NoEol(s[..n])
    ensures n < |s| ==> IsEol(s[n])
  {
    if s == [] then 0
    else if IsEol(s[0]) then 0
    else
      var n := LineEnd(s[1..]);
      assert s[..n + 1] == [s[0]] + s[1..][..n];
      n + 1
  }

  /** The position of the first colon of `line`, or `|line|` when there is none. */
  function ColonAt(line: string): (n: nat)
    ensures n <= |line|
    ensures forall i :: 0 <= i < n ==> line[i] != ':'
    ensures n < |line| ==> line[n] == ':'
  {
    if line == [] then 0
    else if line[0] == ':' then 0
    else 1 + ColonAt(line[1..])
  }

  /** The field name and value of a non-comment line: split at the first colon,
    * dropping one space after it; a line without a colon is a name with an empty value. */
  function FieldOf(line: string): (string, string) {
    var c := ColonAt(line);
    if c == |line| then (line, "")
    else
      var value := line[c + 1..];
      (line[..c], if value != [] && value[0] == ' ' then value[1..] else value)
  }

  /** The parser's buffers: the event type buffer, the data buffer, and the events
    * dispatched so far. */
  datatype State = State(kind: string, data: string, events: seq<Event>)

  /** Dispatching the pending event at an empty line. */
  function Dispatch(st: State): State {
    if st.data == "" then State("", "", st.events)
    else
      var data := if st.data[|st.data| - 1] == LF then st.data[..|st.data| - 1] else st.data;
      var kind := if st.kind == "" then "message" else st.kind;
      State("", "", st.events + [Event(kind, data)])
  }

  /** Processing one line. Fields other than `event` and `data` (`id`, `retry`,
    * unknown names) do not change the type or data of any event. */
  function ProcessLine(st: State, line: string): State {
    if line == "" then Dispatch(st)
    else if line[0] == ':' then st
    else
      var (name, value) := FieldOf(line);
      if name == "event" then st.(kind := value)
      else if name == "data" then st.(data := st.data + value + [LF])
      else st
  }

  /** The lines of `s` processed in order; a last line without a terminator, and
    * with it any event still pending at the end of the stream, is discarded. */
  function ParseFrom(st: State, s: string): State
    decreases |s|
  {
    var n := LineEnd(s);
    if n == |s| then st
    else
      var skip := if s[n] == CR && n + 1 < |s| && s[n + 1] == LF then 2 else 1;
      ParseFrom(ProcessLine(st, s[..n]), s[n + skip..])
  }

  const Start := State("", "", [])

  /** The events a whole stream dispatches; a leading byte order mark is ignored. */
  function Parse(s: string): seq<Event> {
    var body := if s != [] && s[0] == BOM then s[1..] else s;
    ParseFrom(Start, body).events
  }

  /** A line followed by LF is processed and parsing goes on after the LF. */
  lemma ParseLine(st: State, line: string, rest: string)
    requires NoEol(line)
    ensures ParseFrom(st, line + [LF] + rest) == ParseFrom(ProcessLine(st, line), rest)
  {
    var s := line + [LF] + rest;
    assert s == line + ([LF] + rest);
    LineEndOf(line, [LF] + rest);
    var n := LineEnd(s);
    assert n == |line| && s[n] == LF;
    assert s[..n] == line;
    assert s[n + 1..] == rest;
  }

  /** The first terminator after a terminator-free prefix is right after it. */
  lemma {:induction false} LineEndOf(line: string, rest: string)
    requires NoEol(line)
    requires rest != [] && IsEol(rest[0])
    ensures LineEnd(line + rest) == |line|
  {
    if line != [] {
      assert (line + rest)[1..] == line[1..] + rest;
      LineEndOf(line[1..], rest);
    }
  }

  /** A `data:` line appends its value and an LF to the data buffer, whatever colons
    * the value holds. */
  lemma DataLine(st: State, value: string)
    ensures ProcessLine(st, "data: " + value) == st.(data := st.data + value + [LF])
  {
    var line := "data: " + value;
    assert line[..4] == "data";
    assert line[4] == ':';
    assert ColonAt(line) == 4 by {
      assert forall i :: 0 <= i < 4 ==> line[i] != ':';
      ColonAtFirst(line, 4);
    }
    assert line[5..] == " " + value;
    assert line[6..] == value;
  }

  /** A `data` line holds a line terminator only where its value does. */
  lemma DataLinePlain(value: string)
    requires NoEol(value)
    ensures NoEol("data: " + value)
  {
    var line := "data: " + value;
    forall i | 0 <= i < |line|
      ensures !IsEol(line[i])
    {
      if i >= 6 {
        assert line[i] == value[i - 6];
      }
    }
  }

  /** `ColonAt` is the first colon. */
  lemma {:induction false} ColonAtFirst(line: string, k: nat)
    requires k < |line| && line[k] == ':'
    requires forall i :: 0 <= i < k ==> line[i] != ':'
    ensures ColonAt(line) == k
  {
    if k > 0 {
      ColonAtFirst(line[1..], k - 1);
    }
  }

  // ---------------------------------------------------------------------------
  // Framing one string as one event
  // ---------------------------------------------------------------------------

  /** The position of the first LF of `s`, or `|s|`. */
  function LfAt(s: string): (n: nat)
    ensures n <= |s|
    ensures forall i :: 0 <= i < n ==> s[i] != LF
    ensures n < |s| ==> s[n] == LF
  {
    if s == [] then 0
    else if s[0] == LF then 0
    else 1 + LfAt(s[1..])
  }

  /** One `data: ` line per line of `s`. */
  function DataLines(s: string): string
    decreases |s|
  {
    var n := LfAt(s);
    if n == |s| then "data: " + s + [LF]
    else "data: " + s[..n] + [LF] + DataLines(s[n + 1..])
  }

  /** The frame that sends `s` as the data of one `message` event. */
  function EncodeEvent(s: string): string {
    DataLines(s) + [LF]
  }

  /** One `data:` line of a terminator-free string adds the string and an LF to the
    * data buffer. */
  lemma ParseDataLine(st: State, s: string, rest: string)
    requires NoEol(s)
    ensures ParseFrom(st, "data: " + s + [LF] + rest) == ParseFrom(st.(data := st.data + s + [LF]), rest)
  {
    assert NoEol("data: " + s) by {
      assert forall i :: 6 <= i < |"data: " + s| ==> ("data: " + s)[i] == s[i - 6];
    }
    ParseLine(st, "data: " + s, rest);
    DataLine(st, s);
  }

  /** The `data:` lines of a CR-free string add the string and an LF to the data buffer. */
  lemma {:induction false} ParseDataLines(st: State, s: string, rest: string)
    requires NoCR(s)
    ensures ParseFrom(st, DataLines(s) + rest) == ParseFrom(st.(data := st.data + s + [LF]), rest)
    decreases |s|
  {
    var n := LfAt(s);
    assert NoEol(s[..n]);
    if n == |s| {
      assert s[..n] == s;
      ParseDataLine(st, s, rest);
    } else {
      var head, tail := s[..n], s[n + 1..];
      assert NoCR(tail) by {
        assert forall i :: 0 <= i < |tail| ==> tail[i] == s[n + 1 + i];
      }
      var st1 := st.(data := st.data + head + [LF]);
      assert st1.data + tail + [LF] == st.data + s + [LF] by {
        assert s == head + [LF] + tail;
      }
      assert DataLines(s) + rest == ("data: " + head) + [LF] + (DataLines(tail) + rest);
      ParseDataLine(st, head, DataLines(tail) + rest);
      ParseDataLines(st1, tail, rest);
    }
  }

  /** Round trip: from a state with empty buffers, the frame of a CR-free string
    * dispatches exactly one `message` event whose data is the string. */
  lemma ParseEncodeEvent(events: seq<Event>, s: string, rest: string)
    requires NoCR(s)
    ensures ParseFrom(State("", "", events), EncodeEvent(s) + rest)
         == ParseFrom(State("", "", events + [Event("message", s)]), rest)
  {
    ParseFrameLines(events, s, rest);
    ParseBlankLine(events, s, rest);
  }

  /** The `data:` lines of a frame fill the data buffer. */
  lemma ParseFrameLines(events: seq<Event>, s: string, rest: string)
    requires NoCR(s)
    ensures ParseFrom(State("", "", events), EncodeEvent(s) + rest)
         == ParseFrom(State("", s + [LF], events), [LF] + rest)
  {
    var st := State("", "", events);
    assert EncodeEvent(s) + rest == DataLines(s) + ([LF] + rest);
    ParseDataLines(st, s, [LF] + rest);
    assert st.data + s + [LF] == s + [LF];
  }

  /** The blank line that ends a frame dispatches it. */
  lemma ParseBlankLine(events: seq<Event>, s: string, rest: string)
    ensures ParseFrom(State("", s + [LF], events), [LF] + rest)
         == ParseFrom(State("", "", events + [Event("message", s)]), rest)
  {
    assert [LF] + rest == "" + [LF] + rest;
    ParseLine(State("", s + [LF], events), "", rest);
    DispatchData(events, s);
  }

  /** The blank line after a frame dispatches its data, without the last LF, as a
    * `message` event. */
  lemma DispatchData(events: seq<Event>, s: string)
    ensures ProcessLine(State("", s + [LF], events), "") == State("", "", events + [Event("message", s)])
  {
    var d := s + [LF];
    assert d[|d| - 1] == LF;
    assert d[..|d| - 1] == s;
  }

  /** The body of a response that sends `chunks` one event each. */
  function Body(chunks: seq<string>): string
    decreases |chunks|
  {
    if chunks == [] then "" else EncodeEvent(chunks[0]) + Body(chunks[1..])
  }

  /** The events of a body made of `message` frames. */
  function Messages(chunks: seq<string>): (r: seq<Event>)
    ensures |r| == |chunks|
    ensures forall i :: 0 <= i < |chunks| ==> r[i] == Event("message", chunks[i])
  {
    seq(|chunks|, i requires 0 <= i < |chunks| => Event("message", chunks[i]))
  }

  /** Every chunk of a body is dispatched, in order, as one `message` event, as long
    * as no chunk holds a carriage return. */
  lemma {:induction false} ParseBody(events: seq<Event>, chunks: seq<string>)
    requires forall i :: 0 <= i < |chunks| ==> NoCR(chunks[i])
    ensures ParseFrom(State("", "", events), Body(chunks)) == State("", "", events + Messages(chunks))
    decreases |chunks|
  {
    if chunks == [] {
      assert events + Messages(chunks) == events;
    } else {
      var e := Event("message", chunks[0]);
      calc {
        ParseFrom(State("", "", events), Body(chunks));
        ParseFrom(State("", "", events), EncodeEvent(chunks[0]) + Body(chunks[1..]));
      == { ParseEncodeEvent(events, chunks[0], Body(chunks[1..])); }
        ParseFrom(State("", "", events + [e]), Body(chunks[1..]));
      == { ParseBody(events + [e], chunks[1..]); }
        State("", "", events + [e] + Messages(chunks[1..]));
      == { MessagesCons(chunks);
           assert events + [e] + Messages(chunks[1..]) == events + ([e] + Messages(chunks[1..])); }
        State("", "", events + Messages(chunks));
      }
    }
  }

  /** The first chunk's event comes first. */
  lemma MessagesCons(chunks: seq<string>)
    requires chunks != []
    ensures Messages(chunks) == [Event("message", chunks[0])] + Messages(chunks[1..])
  {
    var r := [Event("message", chunks[0])] + Messages(chunks[1..]);
    assert forall i :: 0 <= i < |chunks| ==> r[i] == Messages(chunks)[i];
  }

  /** A whole body parses back into its chunks. */
  lemma BodyRoundTrip(chunks: seq<string>)
    requires forall i :: 0 <= i < |chunks| ==> NoCR(chunks[i])
    ensures Parse(Body(chunks)) == Messages(chunks)
  {
    ParseBody([], chunks);
    BodyStart(chunks);
    assert [] + Messages(chunks) == Messages(chunks);
  }

  /** A body does not start with a byte order mark. */
  lemma BodyStart(chunks: seq<string>)
    ensures Body(chunks) == [] || Body(chunks)[0] == 'd'
  {
    if chunks != [] {
      var c := chunks[0];
      DataLinesStart(c);
      assert Body(chunks)[0] == (DataLines(c) + [LF] + Body(chunks[1..]))[0];
    }
  }

  /** Every frame starts with the `data` field. */
  lemma DataLinesStart(s: string)
    ensures |DataLines(s)| > 0 && DataLines(s)[0] == 'd'
  {
    var n := LfAt(s);
    if n == |s| {
      assert DataLines(s)[0] == ("data: " + s + [LF])[0];
    } else {
      assert DataLines(s)[0] == ("data: " + s[..n] + [LF] + DataLines(s[n + 1..]))[0];
    }
  }
}
