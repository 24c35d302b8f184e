/** The text shaping of the Flask backend (backend/app.py): the reply of
    `POST /chat`, the word-by-word body of `POST /chat-stream` and the
    server-sent event stream of `GET /chat`. The language model is a
    parameter that maps the user's message to a completion. */
module Backend {
  import opened Text
  import Sse

  /** A request body after `request.get_json(force=True)`: either it could
      not be used (not JSON, or JSON without `.get`), with the text of the
      exception, or a JSON object's string fields. */
  datatype JsonBody = Unusable(reason: string) | Object(fields: map<string, string>)

  /** `data.get("message", "")`: a missing field reads as "". */
  function MessageOf(fields: map<string, string>): (m: string)
    ensures "message" in fields ==> m == fields["message"]
    ensures "message" !in fields ==> m == ""
  {
    if "message" in fields then fields["message"] else ""
  }

  /** What the completion call gives: an exception (with its text), a
      response without usable `choices`, or the first choice's content. */
  datatype Completion = Raised(error: string) | NoChoices | Content(text: string)

  datatype ReplyBody = MessageBody(message: string) | ErrorBody(error: string)

  datatype Reply = Reply(status: int, body: ReplyBody)

  const NoValidReply := "No valid response from AI"

  /** `chat()`: 200 with the stripped content when there is a choice, and
      500 with an error object on every other path. */
  function ChatReply(body: JsonBody, complete: string -> Completion): (r: Reply)
    ensures r.status == 200 || r.status == 500
    ensures r.status == 200 <==> body.Object? && complete(MessageOf(body.fields)).Content?
    ensures r.status == 200 ==> r.body.MessageBody?
    ensures r.status == 500 ==> r.body.ErrorBody?
    ensures body.Unusable? ==> r.body == ErrorBody(body.reason)
    ensures body.Object? && complete(MessageOf(body.fields)).Raised? ==>
      r.body == ErrorBody(complete(MessageOf(body.fields)).error)
    ensures body.Object? && complete(MessageOf(body.fields)).NoChoices? ==> r.body == ErrorBody(NoValidReply)
  {
    match body
    case Unusable(e) => Reply(500, ErrorBody(e))
    case Object(f) =>
      match complete(MessageOf(f))
      case Raised(e) => Reply(500, ErrorBody(e))
      case NoChoices => Reply(500, ErrorBody(NoValidReply))
      case Content(t) => Reply(200, MessageBody(PyStrip(t)))
  }

  /** The message of a successful `chat()` reply is the content with its
      surrounding whitespace removed: it neither starts nor ends with
      whitespace, and it is all of the content once that is trimmed. */
  lemma ChatMessageStripped(body: JsonBody, complete: string -> Completion)
    requires body.Object? && complete(MessageOf(body.fields)).Content?
    ensures var m := ChatReply(body, complete).body.message;
            var t := complete(MessageOf(body.fields)).text;
            (m == [] <==> forall k :: 0 <= k < |t| ==> IsPySpace(t[k]))
            && (m != [] ==> !IsPySpace(m[0]) && !IsPySpace(m[|m| - 1]))
            && (m != [] ==> exists i :: TrimmedAt(t, m, i, IsPySpace))
  {
  }

  /** A body without a `message` field is answered exactly as one whose
      message is empty. */
  lemma MissingMessageIsEmpty(fields: map<string, string>, complete: string -> Completion)
    requires "message" !in fields
    ensures ChatReply(Object(fields), complete) == ChatReply(Object(map["message" := ""]), complete)
  {
  }

  const NoValidStream := "No valid response from AI."

  /** What `generate()` yields for a completion, and whether it raises
      before its first chunk: the words of the content each followed by one
      space (so that splitting the whole body gives the words back), a
      single fallback chunk, or nothing. */
  ghost predicate Generated(c: Completion, chunks: seq<string>, raised: bool)
  {
    match c
    case Raised(_) => raised && chunks == []
    case NoChoices => !raised && chunks == [NoValidStream]
    case Content(t) =>
      !raised && |chunks| == |Split(t)|
      && (forall i :: 0 <= i < |chunks| ==> chunks[i] == Split(t)[i] + " ")
      && Split(Concat(chunks)) == Split(t)
  }

  /** `generate()`. The completion is requested inside the generator, so an
      exception there is raised only when the response body is iterated,
      after `chat_stream` has returned, and before any chunk is yielded. */
  method Generate(c: Completion) returns (chunks: seq<string>, raised: bool)
    ensures Generated(c, chunks, raised)
  {
    chunks := [];
    raised := false;
    match c {
      case Raised(_) =>
        raised := true;
      case NoChoices =>
        chunks := [NoValidStream];
      case Content(t) =>
        var words := Split(t);
        for i := 0 to |words|
          invariant chunks == SpaceAfterEach(words[..i])
        {
          assert words[..i + 1] == words[..i] + [words[i]];
          SpaceAfterEachSnoc(words[..i], words[i]);
          chunks := chunks + [words[i] + " "];
        }
        assert words[..|words|] == words;
        SplitYieldsWords(t);
        SplitSpaceAfterEach(words);
    }
  }

  lemma SpaceAfterEachSnoc(ws: seq<string>, w: string)
    ensures SpaceAfterEach(ws + [w]) == SpaceAfterEach(ws) + [w + " "]
  {
    var l := SpaceAfterEach(ws + [w]);
    var r := SpaceAfterEach(ws) + [w + " "];
    assert |l| == |r|;
    forall i | 0 <= i < |l|
      ensures l[i] == r[i]
    {
      assert (ws + [w])[i] == if i < |ws| then ws[i] else w;
    }
  }

  /** How `POST /chat-stream` ends: the view's own error reply, a streamed
      body, or an exception that leaves the view's code while the body is
      iterated (what the server then answers is not the view's doing). */
  datatype StreamReply =
    | Refused(status: int, error: string)
    | Streaming(chunks: seq<string>)
    | Escaped(error: string)

  /** `chat_stream()` as written. Only reading the body can reach the
      `except` branch: a failing completion escapes the view during
      streaming, so `{"error": ...}` is never sent for it. */
  method ChatStream(body: JsonBody, complete: string -> Completion) returns (r: StreamReply)
    ensures r.Refused? <==> body.Unusable?
    ensures body.Unusable? ==> r == Refused(500, body.reason)
    ensures body.Object? && complete(MessageOf(body.fields)).Raised? ==>
      r == Escaped(complete(MessageOf(body.fields)).error)
    ensures body.Object? && !complete(MessageOf(body.fields)).Raised? ==>
      r.Streaming? && Generated(complete(MessageOf(body.fields)), r.chunks, false)
  {
    match body {
      case Unusable(e) =>
        r := Refused(500, e);
      case Object(f) =>
        var c := complete(MessageOf(f));
        var chunks, raised := Generate(c);
        if raised {
          r := Escaped(c.error);
        } else {
          r := Streaming(chunks);
        }
    }
  }

  /** `chat_stream()` with the completion requested before the streamed
      response is built, inside the `try`: every failure is answered as
      500 with its error text, and no exception escapes. */
  method ChatStreamEager(body: JsonBody, complete: string -> Completion) returns (r: StreamReply)
    ensures !r.Escaped?
    ensures r.Refused? <==> body.Unusable? || complete(MessageOf(body.fields)).Raised?
    ensures r.Refused? ==> r.status == 500
    ensures body.Unusable? ==> r.error == body.reason
    ensures body.Object? && complete(MessageOf(body.fields)).Raised? ==>
      r.error == complete(MessageOf(body.fields)).error
    ensures r.Streaming? ==> Generated(complete(MessageOf(body.fields)), r.chunks, false)
  {
    match body {
      case Unusable(e) =>
        r := Refused(500, e);
      case Object(f) =>
        var c := complete(MessageOf(f));
        if c.Raised? {
          r := Refused(500, c.error);
        } else {
          var chunks, raised := Generate(c);
          r := Streaming(chunks);
        }
    }
  }

  // ---------------------------------------------------------------- server-sent events

  /** The echo that `chat_sse` streams. */
  function EchoReply(m: string): string
  {
    "Echo: " + m
  }

  /** `f"data: {word} \n\n"`. */
  function DataFrame(w: string): string
  {
    "data: " + w + " \n\n"
  }

  const EndFrame := "event: end\ndata: \n\n"

  function DataFrames(words: seq<string>): (r: seq<string>)
    ensures |r| == |words|
    ensures forall i :: 0 <= i < |words| ==> r[i] == DataFrame(words[i])
  {
    if words == [] then [] else [DataFrame(words[0])] + DataFrames(words[1..])
  }

  /** The first word of the echo is always "Echo:"; the rest are the
      words of the message. */
  lemma EchoWords(m: string)
    ensures Split(EchoReply(m)) == ["Echo:"] + Split(m)
  {
    assert EchoReply(m) == "Echo:" + (" " + m);
    assert IsWord("Echo:");
    SplitWordThen("Echo:", " " + m);
    assert (" " + m)[1..] == m;
  }

  /** `event_stream()` for the query's `message`: one data frame per word of
      the echo, in order, then the end frame, which occurs nowhere else.
      There are always at least two frames. */
  method EventStream(args: map<string, string>) returns (frames: seq<string>)
    ensures var words := Split(EchoReply(MessageOf(args)));
      && |frames| == |words| + 1 >= 2
      && (forall i :: 0 <= i < |words| ==> frames[i] == DataFrame(words[i]))
      && frames[|frames| - 1] == EndFrame
      && (forall i :: 0 <= i < |frames| - 1 ==> frames[i] != EndFrame)
      && frames == DataFrames(words) + [EndFrame]
  {
    var reply := EchoReply(MessageOf(args));
    var words := Split(reply);
    EchoWords(MessageOf(args));
    frames := [];
    for i := 0 to |words|
      invariant |frames| == i
      invariant forall k :: 0 <= k < i ==> frames[k] == DataFrame(words[k])
    {
      frames := frames + [DataFrame(words[i])];
    }
    forall i | 0 <= i < |frames|
      ensures frames[i] != EndFrame
    {
      assert DataFrame(words[i])[0] == 'd';
    }
    frames := frames + [EndFrame];
  }

  /** The events a standard event-stream receiver sees for each framed word:
      a "message" whose data is the word and the space after it. */
  function WordEvents(words: seq<string>): (r: seq<Sse.Event>)
    ensures |r| == |words|
    ensures forall i :: 0 <= i < |words| ==> r[i] == Sse.Event("message", words[i] + " ", "")
  {
    if words == [] then [] else [Sse.Event("message", words[0] + " ", "")] + WordEvents(words[1..])
  }

  lemma DataLineHasNoEol(w: string)
    requires IsWord(w)
    ensures forall k :: 0 <= k < |"data: " + w + " "| ==> !Sse.IsEol(("data: " + w + " ")[k])
  {
    var line := "data: " + w + " ";
    forall k | 0 <= k < |line|
      ensures !Sse.IsEol(line[k])
    {
      if 6 <= k < 6 + |w| {
        assert line[k] == w[k - 6];
      }
    }
  }

  lemma DataFrameShape(w: string, rest: string)
    ensures DataFrame(w) + rest == ("data: " + w + " ") + "\n" + ("" + "\n" + rest)
  {
  }

  /** The lines of a data frame for a word: the `data:` line and a blank
      line. */
  lemma DataFrameLines(w: string, rest: string)
    requires IsWord(w)
    ensures Sse.Lines(DataFrame(w) + rest) == ["data: " + w + " ", ""] + Sse.Lines(rest)
  {
    DataLineHasNoEol(w);
    DataFrameShape(w, rest);
    Sse.LinesCons("data: " + w + " ", "" + "\n" + rest);
    Sse.LinesCons("", rest);
  }

  lemma EndFrameShape()
    ensures EndFrame == "event: end" + "\n" + ("data: " + "\n" + ("" + "\n" + ""))
    ensures forall k :: 0 <= k < |"event: end"| ==> !Sse.IsEol("event: end"[k])
    ensures forall k :: 0 <= k < |"data: "| ==> !Sse.IsEol("data: "[k])
  {
  }

  /** The lines of the end frame. */
  lemma EndFrameLines()
    ensures Sse.Lines(EndFrame) == ["event: end", "data: ", ""]
  {
    EndFrameShape();
    Sse.LinesCons("event: end", "data: " + "\n" + ("" + "\n" + ""));
    Sse.LinesCons("data: ", "" + "\n" + "");
    Sse.LinesCons("", "");
  }

  /** One data frame in front of more text adds one "message" event
      carrying the word and a space. */
  lemma DataFrameDecodes(w: string, rest: string)
    requires IsWord(w)
    ensures Sse.Interpret(Sse.Lines(DataFrame(w) + rest), Sse.Initial)
         == [Sse.Event("message", w + " ", "")] + Sse.Interpret(Sse.Lines(rest), Sse.Initial)
  {
    DataFrameLines(w, rest);
    assert "data: " + w + " " == "data: " + (w + " ");
    Sse.DataEvent(w + " ", Sse.Lines(rest));
  }

  lemma FramesText(words: seq<string>)
    requires words != []
    ensures Concat(DataFrames(words)) + EndFrame == DataFrame(words[0]) + (Concat(DataFrames(words[1..])) + EndFrame)
  {
    assert DataFrames(words)[1..] == DataFrames(words[1..]);
  }

  /** Data frames followed by the end frame are read back, one event per
      word and then the "end" event. */
  lemma {:induction false} FramesDecode(words: seq<string>)
    requires forall i :: 0 <= i < |words| ==> IsWord(words[i])
    ensures Sse.Interpret(Sse.Lines(Concat(DataFrames(words)) + EndFrame), Sse.Initial)
         == WordEvents(words) + [Sse.Event("end", "", "")]
  {
    if words == [] {
      assert Concat(DataFrames(words)) + EndFrame == EndFrame;
      EndFrameLines();
      Sse.EndEvent();
    } else {
      FramesText(words);
      DataFrameDecodes(words[0], Concat(DataFrames(words[1..])) + EndFrame);
      FramesDecode(words[1..]);
      assert WordEvents(words) == [Sse.Event("message", words[0] + " ", "")] + WordEvents(words[1..]);
    }
  }

  /** The frames, joined, are exactly what the loop of `FramesDecode` reads,
      and start with the `d` of the first `data:` line (so no byte order
      mark is stripped). */
  lemma EchoText(m: string)
    ensures var words := Split(EchoReply(m));
      && Concat(DataFrames(words) + [EndFrame]) == Concat(DataFrames(words)) + EndFrame
      && (Concat(DataFrames(words)) + EndFrame)[0] == 'd'
  {
    var words := Split(EchoReply(m));
    EchoWords(m);
    ConcatAppend(DataFrames(words), [EndFrame]);
    assert Concat([EndFrame]) == EndFrame + Concat([]);
    FramesText(words);
    assert DataFrame(words[0])[0] == 'd';
  }

  /** What a browser's `EventSource` dispatches for the stream of
      `chat_sse`: a "message" event for "Echo:" and for each word of the
      message, each carrying the word and one space, then one "end" event
      with empty data. */
  lemma EchoStreamDecodes(m: string)
    ensures Sse.Decode(Concat(DataFrames(Split(EchoReply(m))) + [EndFrame]))
         == [Sse.Event("message", "Echo: ", "")] + WordEvents(Split(m)) + [Sse.Event("end", "", "")]
  {
    var words := Split(EchoReply(m));
    var t := Concat(DataFrames(words)) + EndFrame;
    EchoText(m);
    Sse.DecodeWithoutBom(t);
    SplitWordsIndexed(EchoReply(m));
    FramesDecode(words);
    EchoEvents(m);
  }

  lemma EchoEvents(m: string)
    ensures WordEvents(Split(EchoReply(m))) == [Sse.Event("message", "Echo: ", "")] + WordEvents(Split(m))
  {
    var ws := ["Echo:"] + Split(m);
    EchoWords(m);
    assert ws[0] == "Echo:" && ws[1..] == Split(m);
    assert "Echo:" + " " == "Echo: ";
    assert WordEvents(ws) == [Sse.Event("message", ws[0] + " ", "")] + WordEvents(ws[1..]);
  }

  lemma SplitWordsIndexed(s: string)
    ensures forall i :: 0 <= i < |Split(s)| ==> IsWord(Split(s)[i])
  {
    SplitYieldsWords(s);
    forall i | 0 <= i < |Split(s)|
      ensures IsWord(Split(s)[i])
    {
      assert Split(s)[i] in Split(s);
    }
  }
}
