/** The chat page of frontend/src/ChatApp.jsx: the `messages` list, the
    `input` box and the `loading` flag, as `sendMessage` and the welcome
    loader update them. The server's answer and the clock readings
    (`toLocaleTimeString`) are inputs. */
module ChatApp {
  import opened Text

  datatype Sender = User | Bot

  /** One entry of the `messages` list. */
  datatype Message = Message(sender: Sender, text: string, time: string)

  // ---------------------------------------------------------------- list updaters

  /** `prev => [...prev, m]`. */
  function Appended(prev: seq<Message>, m: Message): (r: seq<Message>)
    ensures |r| == |prev| + 1
    ensures r[..|prev|] == prev && r[|prev|] == m
  {
    prev + [m]
  }

  /** `prev => [...prev.slice(0, -1), m]`: the last entry is replaced, and an
      empty list (whose slice is empty too) becomes `[m]`. */
  function ReplacedLast(prev: seq<Message>, m: Message): (r: seq<Message>)
    ensures prev != [] ==> |r| == |prev| && r[..|prev| - 1] == prev[..|prev| - 1] && r[|prev| - 1] == m
    ensures prev == [] ==> r == [m]
  {
    if prev == [] then [m] else prev[..|prev| - 1] + [m]
  }

  /** `copy[copy.length - 1] = m` on a copy of `prev`: on an empty array the
      assignment creates the property "-1" and no element, so the list
      stays empty. */
  function SetLast(prev: seq<Message>, m: Message): (r: seq<Message>)
    ensures |r| == |prev|
    ensures prev != [] ==> r[..|prev| - 1] == prev[..|prev| - 1] && r[|prev| - 1] == m
  {
    if prev == [] then [] else prev[|prev| - 1 := m]
  }

  /** The two ways the code replaces the last entry agree on a non-empty
      list, which is the only kind `sendMessage` applies them to. */
  lemma ReplaceLastAgree(prev: seq<Message>, m: Message)
    requires prev != []
    ensures ReplacedLast(prev, m) == SetLast(prev, m)
  {
    assert ReplacedLast(prev, m) == prev[..|prev| - 1] + [m];
  }

  // ---------------------------------------------------------------- welcome

  /** What `GET /bot/<name>` yields: nothing usable (the fetch or the JSON
      decoding threw), or its `suggestion` and `welcomeMessage` fields ("" when
      missing or falsy). */
  datatype Welcome = WelcomeFailed | WelcomeData(suggestion: string, welcomeMessage: string)

  /** `loadWelcome` at clock reading `time`: one bot entry holding the
      suggestion, or failing that the welcome message; otherwise the list is
      left as it was. */
  function LoadWelcome(prev: seq<Message>, w: Welcome, time: string): (r: seq<Message>)
    ensures w.WelcomeData? && (w.suggestion != "" || w.welcomeMessage != "") ==>
      |r| == 1 && r[0].sender == Bot && r[0].time == time && r[0].text != ""
      && (w.suggestion != "" ==> r[0].text == w.suggestion)
      && (w.suggestion == "" ==> r[0].text == w.welcomeMessage)
    ensures !(w.WelcomeData? && (w.suggestion != "" || w.welcomeMessage != "")) ==> r == prev
  {
    match w
    case WelcomeFailed => prev
    case WelcomeData(s, wm) =>
      if s != "" then [Message(Bot, s, time)]
      else if wm != "" then [Message(Bot, wm, time)]
      else prev
  }

  // ---------------------------------------------------------------- sending

  /** How `POST /chat` ends: the fetch throws; a non-OK status whose body is
      JSON with `message` and `error` ("" when missing or falsy); a non-OK
      status whose body is not JSON (so `response.json()` throws); or an OK
      body read as `chunks` in arrival order, after which the reader throws
      when `broken` holds. */
  datatype ChatResponse =
    | FetchFailed
    | ErrorJson(message: string, error: string)
    | ErrorNotJson
    | Stream(chunks: seq<string>, broken: bool)

  const Unavailable := "Bot is unavailable. Check server/API key."

  /** The text shown for a non-OK JSON body: `err.message || err.error`. */
  function ErrorText(message: string, error: string): string
  {
    if message != "" then message else error
  }

  /** Every path through `sendMessage` after a non-blank input: the list
      given the raw input, the response and the three clock readings (when
      the user entry, the placeholder and the error entry are made). */
  function AfterSend(prev: seq<Message>, raw: string, response: ChatResponse,
                     userTime: string, botTime: string, errTime: string): seq<Message>
  {
    var base := prev + [Message(User, raw, userTime)];
    match response
    case FetchFailed => base + [Message(Bot, Unavailable, botTime)]
    case ErrorNotJson => base + [Message(Bot, Unavailable, botTime)]
    case ErrorJson(msg, err) => base + [Message(Bot, ErrorText(msg, err), errTime)]
    case Stream(cs, broken) =>
      if broken then base + [Message(Bot, Unavailable, botTime)]
      else base + [Message(Bot, Concat(cs), botTime)]
  }

  /** A send adds exactly two entries, the user's raw input and then one bot
      entry, and leaves the earlier entries alone. A completed stream shows
      the concatenation of its chunks; every failure shows an error text. */
  lemma AfterSendShape(prev: seq<Message>, raw: string, response: ChatResponse,
                       userTime: string, botTime: string, errTime: string)
    ensures var r := AfterSend(prev, raw, response, userTime, botTime, errTime);
      && |r| == |prev| + 2
      && r[..|prev|] == prev
      && r[|prev|] == Message(User, raw, userTime)
      && r[|prev| + 1].sender == Bot
      && (response.Stream? && !response.broken ==> r[|prev| + 1] == Message(Bot, Concat(response.chunks), botTime))
      && (response.ErrorJson? ==> r[|prev| + 1] == Message(Bot, ErrorText(response.message, response.error), errTime))
      && (response.FetchFailed? || response.ErrorNotJson? || (response.Stream? && response.broken) ==>
            r[|prev| + 1] == Message(Bot, Unavailable, botTime))
  {
  }

  /** A stream that ends without any chunk leaves the empty placeholder. */
  lemma EmptyStreamKeepsPlaceholder(prev: seq<Message>, raw: string, userTime: string, botTime: string, errTime: string)
    ensures AfterSend(prev, raw, Stream([], false), userTime, botTime, errTime)
         == prev + [Message(User, raw, userTime), Message(Bot, "", botTime)]
  {
  }

  /** The component's state. */
  class ChatView {
    var messages: seq<Message>
    var input: string
    var loading: bool

    constructor ()
      ensures messages == [] && input == "" && !loading
    {
      messages := [];
      input := "";
      loading := false;
    }

    /** The welcome effect. */
    method Welcome(w: Welcome, time: string)
      modifies this`messages
      ensures messages == LoadWelcome(old(messages), w, time)
    {
      messages := LoadWelcome(messages, w, time);
    }

    /** The read loop: each chunk rewrites the last entry with the text so
        far; nothing else changes. */
    method ReadReply(chunks: seq<string>, botTime: string)
      requires messages != []
      modifies this`messages
      ensures |messages| == |old(messages)|
      ensures messages[..|messages| - 1] == old(messages)[..|old(messages)| - 1]
      ensures chunks != [] ==> messages[|messages| - 1] == Message(Bot, Concat(chunks), botTime)
      ensures chunks == [] ==> messages == old(messages)
    {
      var botText := "";
      var i := 0;
      while i < |chunks|
        invariant 0 <= i <= |chunks|
        invariant botText == Concat(chunks[..i])
        invariant |messages| == |old(messages)|
        invariant messages[..|messages| - 1] == old(messages)[..|old(messages)| - 1]
        invariant i > 0 ==> messages[|messages| - 1] == Message(Bot, botText, botTime)
        invariant i == 0 ==> messages == old(messages)
      {
        ConcatSnoc(chunks, i);
        botText := botText + chunks[i];
        messages := SetLast(messages, Message(Bot, botText, botTime));
        i := i + 1;
      }
      assert chunks[..i] == chunks;
    }

    /** `sendMessage()`. A blank input changes nothing (not even `loading`);
        otherwise the input is cleared, the list ends as `AfterSend` says,
        and `loading` is false again on every way out. */
    method SendMessage(response: ChatResponse, userTime: string, botTime: string, errTime: string)
      modifies this
      ensures JsTrim(old(input)) == [] ==>
        messages == old(messages) && input == old(input) && loading == old(loading)
      ensures JsTrim(old(input)) != [] ==>
        messages == AfterSend(old(messages), old(input), response, userTime, botTime, errTime)
        && input == "" && !loading
    {
      if JsTrim(input) == [] {
        return;
      }
      ghost var base := messages + [Message(User, input, userTime)];
      messages := Appended(messages, Message(User, input, userTime));
      input := "";
      loading := true;
      messages := Appended(messages, Message(Bot, "", botTime));
      assert messages[..|messages| - 1] == base;
      match response {
        case FetchFailed =>
          messages := ReplacedLast(messages, Message(Bot, Unavailable, botTime));
        case ErrorNotJson =>
          messages := ReplacedLast(messages, Message(Bot, Unavailable, botTime));
        case ErrorJson(msg, err) =>
          messages := ReplacedLast(messages, Message(Bot, ErrorText(msg, err), errTime));
          loading := false;
        case Stream(cs, broken) =>
          ReadReply(cs, botTime);
          if broken {
            messages := ReplacedLast(messages, Message(Bot, Unavailable, botTime));
          }
      }
      loading := false;
      assert messages[..|messages| - 1] == base;
    }
  }
}
