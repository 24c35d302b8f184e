/** The receiving side of a `text/event-stream` response, as section 9.2.6
    of the WHATWG HTML Living Standard ("Interpreting an event stream")
    describes it: an optional leading byte order mark, lines ended by CR
    LF, LF or CR, `field: value` lines, comment lines starting with a
    colon, and a blank line that dispatches the event collected so far.
    The stream is taken whole, after UTF-8 decoding; an unterminated last
    line is discarded, as the standard asks at the end of the stream. */
module Sse {

  predicate IsEol(c: char)
  {
    c == '\r' || c == '\n'
  }

  /** Index of the first CR or LF in `s`, or `|s|` when there is none. */
  function LineEnd(s: string): (n: nat)
    ensures n <= |s|
    ensures forall k :: 0 <= k < n ==> !IsEol(s[k])
    ensures n < |s| ==> IsEol(s[n])
    decreases |s|
  {
    if s == [] || IsEol(s[0]) then 0 else 1 + LineEnd(s[1..])
  }

  /** Where the line ending at `n` is over: a CR LF pair counts as one
      ending. */
  function NextLine(s: string, n: nat): nat
    requires n < |s|
  {
    if s[n] == '\r' && n + 1 < |s| && s[n + 1] == '\n' then n + 2 else n + 1
  }

  /** The complete lines of `s`, without their line endings. */
  function Lines(s: string): seq<string>
    decreases |s|
  {
    var n := LineEnd(s);
    if n == |s| then []
    else [s[..n]] + Lines(s[NextLine(s, n)..])
  }

  /** A line free of CR and LF, then LF: one line is split off. */
  lemma LinesCons(line: string, rest: string)
    requires forall k :: 0 <= k < |line| ==> !IsEol(line[k])
    ensures Lines(line + "\n" + rest) == [line] + Lines(rest)
  {
    var s := line + "\n" + rest;
    LineEndOfLine(line, "\n" + rest);
    assert s == line + ("\n" + rest);
    assert s[..|line|] == line;
    assert s[|line| + 1..] == rest;
  }

  lemma {:induction false} LineEndOfLine(line: string, rest: string)
    requires forall k :: 0 <= k < |line| ==> !IsEol(line[k])
    requires rest != [] && IsEol(rest[0])
    ensures LineEnd(line + rest) == |line|
    decreases |line|
  {
    if line != [] {
      assert (line + rest)[1..] == line[1..] + rest;
      LineEndOfLine(line[1..], rest);
    }
  }

  /** What the receiver keeps between lines: the data buffer, the event
      type buffer and the last event ID buffer. */
  datatype Buffers = Buffers(data: string, eventType: string, lastId: string)

  const Initial := Buffers("", "", "")

  /** A dispatched event: its type, its data and its last event ID. */
  datatype Event = Event(name: string, data: string, lastEventId: string)

  /** Index of the first colon of `line`, or `|line|` when there is none. */
  function ColonAt(line: string): (n: nat)
    ensures n <= |line|
    ensures forall k :: 0 <= k < n ==> line[k] != ':'
    ensures n < |line| ==> line[n] == ':'
    decreases |line|
  {
    if line == [] || line[0] == ':' then 0 else 1 + ColonAt(line[1..])
  }

  lemma {:induction false} ColonAfterName(name: string, rest: string)
    requires forall k :: 0 <= k < |name| ==> name[k] != ':'
    requires rest != [] && rest[0] == ':'
    ensures ColonAt(name + rest) == |name|
    decreases |name|
  {
    if name != [] {
      assert (name + rest)[1..] == name[1..] + rest;
      ColonAfterName(name[1..], rest);
    }
  }

  /** The field name and value of a non-blank line that does not start
      with a colon: split at the first colon, dropping one space after it;
      a line without a colon is a name with an empty value. */
  function Field(line: string): (string, string)
  {
    var k := ColonAt(line);
    if k == |line| then (line, "")
    else
      var v := line[k + 1..];
      (line[..k], if v != [] && v[0] == ' ' then v[1..] else v)
  }

  /** "Process the field": `event` sets the type, `data` appends the value
      and a LF, `id` sets the last event ID unless the value holds NULL;
      `retry` (the reconnection time) and unknown names leave every buffer
      that an event carries unchanged. */
  function ApplyField(b: Buffers, name: string, value: string): Buffers
  {
    if name == "event" then b.(eventType := value)
    else if name == "data" then b.(data := b.data + value + "\n")
    else if name == "id" then (if '\0' in value then b else b.(lastId := value))
    else b
  }

  /** Dispatch on a blank line: nothing when the data buffer is empty;
      otherwise one event whose data loses its final LF and whose type is
      "message" unless one was set. Both the data and the type buffers are
      emptied either way. */
  function Dispatch(b: Buffers): (Buffers, seq<Event>)
  {
    var cleared := b.(data := "", eventType := "");
    if b.data == "" then (cleared, [])
    else
      var d := if b.data[|b.data| - 1] == '\n' then b.data[..|b.data| - 1] else b.data;
      (cleared, [Event(if b.eventType == "" then "message" else b.eventType, d, b.lastId)])
  }

  function LineStep(b: Buffers, line: string): (Buffers, seq<Event>)
  {
    if line == "" then Dispatch(b)
    else if line[0] == ':' then (b, [])
    else
      var f := Field(line);
      (ApplyField(b, f.0, f.1), [])
  }

  /** The events dispatched while the lines are read in order. */
  function Interpret(lines: seq<string>, b: Buffers): seq<Event>
  {
    if lines == [] then []
    else
      var st := LineStep(b, lines[0]);
      st.1 + Interpret(lines[1..], st.0)
  }

  /** The events of a whole stream. */
  function Decode(s: string): seq<Event>
  {
    var body := if s != [] && s[0] == '\U{FEFF}' then s[1..] else s;
    Interpret(Lines(body), Initial)
  }

  /** A stream that does not start with a byte order mark is read as it
      is. */
  lemma DecodeWithoutBom(s: string)
    requires s == [] || s[0] != '\U{FEFF}'
    ensures Decode(s) == Interpret(Lines(s), Initial)
  {
  }

  /** A `data: v` line appends `v` and a LF to the data buffer. */
  lemma DataLine(b: Buffers, v: string)
    ensures LineStep(b, "data: " + v) == (b.(data := b.data + v + "\n"), [])
  {
    var line := "data: " + v;
    assert line == "data" + (": " + v);
    ColonAfterName("data", ": " + v);
    assert line[..4] == "data";
    assert line[5..] == " " + v;
    assert Field(line) == ("data", v);
  }

  /** An `event: v` line sets the event type buffer to `v`. */
  lemma EventLine(b: Buffers, v: string)
    ensures LineStep(b, "event: " + v) == (b.(eventType := v), [])
  {
    var line := "event: " + v;
    assert line == "event" + (": " + v);
    ColonAfterName("event", ": " + v);
    assert line[..5] == "event";
    assert line[6..] == " " + v;
    assert Field(line) == ("event", v);
  }

  /** A blank line after data `v` dispatches an event carrying `v` with
      the type set so far (or "message"), and empties the buffers. */
  lemma BlankAfterData(t: string, v: string)
    ensures LineStep(Buffers(v + "\n", t, ""), "")
         == (Initial, [Event(if t == "" then "message" else t, v, "")])
  {
    assert (v + "\n")[..|v|] == v;
  }

  /** `data: v` then a blank line, from empty buffers: one "message" event
      carrying exactly `v`, and the buffers are empty again. */
  lemma DataEvent(v: string, lines: seq<string>)
    ensures Interpret(["data: " + v, ""] + lines, Initial)
         == [Event("message", v, "")] + Interpret(lines, Initial)
  {
    DataLine(Initial, v);
    assert Initial.data + v + "\n" == v + "\n";
    BlankAfterData("", v);
    var all := ["data: " + v, ""] + lines;
    assert all[1..] == [""] + lines;
    assert ([""] + lines)[1..] == lines;
  }

  lemma EndTypeLine()
    ensures LineStep(Initial, "event: end") == (Buffers("", "end", ""), [])
  {
    EventLine(Initial, "end");
    assert "event: " + "end" == "event: end";
  }

  lemma EmptyDataLine(t: string)
    ensures LineStep(Buffers("", t, ""), "data: ") == (Buffers("\n", t, ""), [])
  {
    DataLine(Buffers("", t, ""), "");
    assert "data: " + "" == "data: ";
    assert "" + "" + "\n" == "\n";
  }

  lemma BlankAfterEmptyData(t: string)
    ensures LineStep(Buffers("\n", t, ""), "") == (Initial, [Event(if t == "" then "message" else t, "", "")])
  {
    BlankAfterData(t, "");
    assert "" + "\n" == "\n";
  }

  /** `event: end`, an empty `data:` line and a blank line, from empty
      buffers: one "end" event with empty data. An empty data line still
      makes the data buffer non-empty (it holds the LF), so the event is
      dispatched. */
  lemma EndEvent()
    ensures Interpret(["event: end", "data: ", ""], Initial) == [Event("end", "", "")]
  {
    EndTypeLine();
    EmptyDataLine("end");
    BlankAfterEmptyData("end");
    var all := ["event: end", "data: ", ""];
    assert all[1..] == ["data: ", ""];
    assert all[1..][1..] == [""];
  }
}
