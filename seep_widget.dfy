/** The state of the embeddable widget of backend/static/seep-widget.js:
    the message pane (as the sequence of elements appended to it), the
    input box, the `unhelp` counter, the `pending` smart-link buttons and
    the bot bubble that a streamed reply writes into. The network reply and
    `JSON.parse` are inputs. */
module SeepWidget {
  import opened Text
  import opened ChatRules

  /** How the `/chat` request ended: rejected (a non-OK status or a failed
      fetch, both of which reach `.catch`), or a body read as these decoded
      chunks in arrival order. */
  datatype Response = Failed | Chunks(chunks: seq<string>)

  /** What `handleBot` appends after rewriting the bot bubble: the JSON
      buttons, the cart/checkout buttons, the hand-off offer and the pending
      smart links, in that order. */
  function ReplyEntries(cfg: Config, reply: string, obj: Option<Parsed>, u: nat,
                        pending: Option<seq<Button>>): seq<Entry>
  {
    var shown := ShownText(reply, obj);
    JsonButtons(obj) + ShowButtons(ExtraButtons(cfg, shown))
    + EscalationEntries(cfg, Step(cfg, u, shown).escalate) + PendingEntries(pending)
  }

  function EscalationCount(es: seq<Entry>): nat
  {
    if es == [] then 0 else (if es[0].Escalation? then 1 else 0) + EscalationCount(es[1..])
  }

  lemma {:induction false} EscalationCountAppend(a: seq<Entry>, b: seq<Entry>)
    ensures EscalationCount(a + b) == EscalationCount(a) + EscalationCount(b)
  {
    if a == [] {
      assert a + b == b;
    } else {
      assert (a + b)[1..] == a[1..] + b;
      EscalationCountAppend(a[1..], b);
    }
  }

  /** One finished reply offers the hand-off to a human at most once: exactly
      when the counter reaches 3 with a support link configured. */
  lemma ReplyEscalatesOnce(cfg: Config, reply: string, obj: Option<Parsed>, u: nat,
                           pending: Option<seq<Button>>)
    ensures EscalationCount(ReplyEntries(cfg, reply, obj, u, pending))
         == if Step(cfg, u, ShownText(reply, obj)).escalate then 1 else 0
  {
    var shown := ShownText(reply, obj);
    var a := JsonButtons(obj);
    var b := ShowButtons(ExtraButtons(cfg, shown));
    var c := EscalationEntries(cfg, Step(cfg, u, shown).escalate);
    var d := PendingEntries(pending);
    EscalationCountAppend(a, b);
    EscalationCountAppend(a + b, c);
    EscalationCountAppend(a + b + c, d);
  }

  /** A snapshot of the widget's mutable state: the pane, the counter, the
      pending smart links and the bubble a stream writes into. */
  datatype Turn = Turn(transcript: seq<Entry>, unhelp: nat, pending: Option<seq<Button>>, botDiv: Option<nat>)

  /** The state after reading a reply as `chunks`: nothing is shown (and
      `handleBot` does not run) when no chunk arrives. */
  function Streamed(cfg: Config, s: Turn, chunks: seq<string>, parseJson: string -> Option<Parsed>): Turn
  {
    if chunks == [] then s.(botDiv := None)
    else
      var reply := Concat(chunks);
      var obj := parseJson(reply);
      var shown := ShownText(reply, obj);
      Turn(s.transcript + [BotLine(shown)] + ReplyEntries(cfg, reply, obj, s.unhelp, s.pending),
           Step(cfg, s.unhelp, shown).unhelp, None, Some(|s.transcript|))
  }

  /** The state after a message that goes to the server: the smart links
      are remembered, then the reply is read or "Error" is shown. */
  function Forwarded(cfg: Config, s: Turn, text: string, response: Response,
                     parseJson: string -> Option<Parsed>): Turn
  {
    var s1 := s.(pending := Some(SmartLinks(cfg, text)));
    match response
    case Failed => s1.(transcript := s1.transcript + [BotLine("Error")])
    case Chunks(cs) => Streamed(cfg, s1, cs, parseJson)
  }

  /** The state after sending the (trimmed, non-empty) `text`. */
  function Sent(cfg: Config, s: Turn, text: string, response: Response,
                parseJson: string -> Option<Parsed>): Turn
  {
    var shownUser := s.(transcript := s.transcript + [UserText(text)]);
    var cmd := Command(cfg, text);
    if cmd.handled then shownUser.(transcript := shownUser.transcript + cmd.emitted)
    else Forwarded(cfg, shownUser, text, response, parseJson)
  }

  lemma AppendFour<T>(x: seq<T>, a: seq<T>, b: seq<T>, c: seq<T>, d: seq<T>)
    ensures x + a + b + c + d == x + (a + b + c + d)
  {
  }

  class Widget {
    const config: Config
    var transcript: seq<Entry>
    var actions: seq<Button>
    var input: string
    var unhelp: nat
    var pending: Option<seq<Button>>
    var botDiv: Option<nat>

    /** The mutable part of the widget's state. */
    function State(): Turn
      reads this
    {
      Turn(transcript, unhelp, pending, botDiv)
    }

    /** The bubble being streamed into exists, and with a support link set
        the counter is always below the escalation threshold. */
    ghost predicate Valid()
      reads this
    {
      (botDiv.Some? ==> botDiv.value < |transcript|)
      && (config.supportLink != "" ==> unhelp < 3)
    }

    /** `init(c)` at local hour `hour`: the action bar, the greeting and the
        quick replies. */
    constructor (c: Config, hour: int)
      ensures Valid()
      ensures config == c && actions == ActionButtons(c) && input == ""
      ensures transcript == [BotLine(GreetingLine(hour, c))] + QuickReplyEntries(c.quickReplies)
      ensures unhelp == 0 && pending == None && botDiv == None
    {
      config := c;
      actions := ActionButtons(c);
      input := "";
      unhelp := 0;
      pending := None;
      botDiv := None;
      var greet := TimeGreeting(hour);
      var g := GreetingText(c);
      transcript := [BotLine(greet + (if g != "" then "! " + g else "!"))];
      if c.quickReplies.Some? && c.quickReplies.value != [] {
        transcript := transcript + [QuickReplies(c.quickReplies.value)];
      }
    }

    /** `handleCommand(t)`. */
    method HandleCommand(t: string) returns (handled: bool)
      requires Valid()
      modifies this`transcript
      ensures Valid()
      ensures handled == Command(config, t).handled
      ensures transcript == old(transcript) + Command(config, t).emitted
    {
      var l := Lower(t);
      if Contains(l, "track order") {
        transcript := transcript + [BotLine(TrackingPrompt)];
        return true;
      }
      if Contains(l, "view cart") && config.cartUrl != "" {
        transcript := transcript + [BotLine(config.cartUrl)];
        return true;
      }
      if Contains(l, "browse products") && config.popularLinks.Some? {
        var arr := CollectLinks(config.popularLinks.value);
        transcript := transcript + ShowButtons(arr);
        return |arr| > 0;
      }
      if Contains(l, "speak to agent") && config.supportEmail != "" {
        transcript := transcript + [BotLine(ConnectingTo(config.supportEmail))];
        return true;
      }
      return false;
    }

    /** Line 43 of `handleBot`: write the shown text into the bot bubble and,
        on the JSON branch, show the reply's own buttons. */
    method ShowReply(text: string, obj: Option<Parsed>) returns (shown: string)
      requires Valid() && botDiv.Some?
      modifies this`transcript
      ensures Valid()
      ensures shown == ShownText(text, obj)
      ensures transcript == old(transcript)[botDiv.value := BotLine(shown)] + JsonButtons(obj)
    {
      if obj.Some? && obj.value.text != "" {
        shown := obj.value.text;
        transcript := transcript[botDiv.value := BotLine(shown)];
        transcript := transcript + ShowButtons(obj.value.buttons);
      } else {
        shown := text;
        transcript := transcript[botDiv.value := BotLine(shown)];
      }
    }

    /** Lines 48-51 of `handleBot`: count an unhelpful reply, reset on a
        helpful one, and offer a human once the count reaches 3. */
    method CountReply(shown: string)
      requires Valid()
      modifies this`transcript, this`unhelp
      ensures Valid()
      ensures unhelp == Step(config, old(unhelp), shown).unhelp
      ensures transcript == old(transcript) + EscalationEntries(config, Step(config, old(unhelp), shown).escalate)
    {
      if IsUnhelpful(shown) {
        unhelp := unhelp + 1;
      } else {
        unhelp := 0;
      }
      if unhelp >= 3 && config.supportLink != "" {
        transcript := transcript + [Escalation(HumanPrompt, Button("Connect to Support", config.supportLink))];
        unhelp := 0;
      }
    }

    /** Line 52 of `handleBot`: show the pending smart links once. */
    method ShowPending()
      requires Valid()
      modifies this`transcript, this`pending
      ensures Valid()
      ensures transcript == old(transcript) + PendingEntries(old(pending))
      ensures pending == None
    {
      if pending.Some? {
        transcript := transcript + ShowButtons(pending.value);
        pending := None;
      }
    }

    /** `handleBot(text)` once the stream has ended. */
    method HandleBot(text: string, parseJson: string -> Option<Parsed>)
      requires Valid() && botDiv.Some?
      modifies this`transcript, this`unhelp, this`pending
      ensures Valid()
      ensures transcript == old(transcript)[botDiv.value := BotLine(ShownText(text, parseJson(text)))]
                            + ReplyEntries(config, text, parseJson(text), old(unhelp), old(pending))
      ensures unhelp == Step(config, old(unhelp), ShownText(text, parseJson(text))).unhelp
      ensures pending == None
    {
      var obj := parseJson(text);
      var shown := ShowReply(text, obj);
      var extra := ExtraButtons(config, shown);
      transcript := transcript + ShowButtons(extra);
      CountReply(shown);
      ShowPending();
      AppendFour(old(transcript)[botDiv.value := BotLine(shown)], JsonButtons(obj), ShowButtons(extra),
                 EscalationEntries(config, Step(config, old(unhelp), shown).escalate), PendingEntries(old(pending)));
    }

    /** The recursive `read()` of `send` up to the end of the stream:
        accumulate the chunks, create the bot bubble on the first one and
        rewrite it with the whole text so far on each later one. */
    method ReadChunks(chunks: seq<string>) returns (bot: string)
      requires Valid()
      modifies this`transcript, this`botDiv
      ensures Valid()
      ensures bot == Concat(chunks)
      ensures chunks == [] ==> botDiv == None && transcript == old(transcript)
      ensures chunks != [] ==> botDiv == Some(|old(transcript)|) && transcript == old(transcript) + [BotLine(bot)]
    {
      bot := "";
      botDiv := None;
      var i := 0;
      while i < |chunks|
        invariant 0 <= i <= |chunks|
        invariant Valid()
        invariant bot == Concat(chunks[..i])
        invariant i == 0 ==> botDiv == None && transcript == old(transcript)
        invariant i > 0 ==> botDiv == Some(|old(transcript)|) && transcript == old(transcript) + [BotLine(bot)]
      {
        ConcatSnoc(chunks, i);
        bot := bot + chunks[i];
        if botDiv.Some? {
          transcript := transcript[botDiv.value := BotLine(bot)];
        } else {
          transcript := transcript + [BotLine(bot)];
          botDiv := Some(|transcript| - 1);
        }
        i := i + 1;
      }
      assert chunks[..i] == chunks;
    }

    /** Reading a reply to the end, then `handleBot` on the whole text if a
        bubble was created. */
    method ReadStream(chunks: seq<string>, parseJson: string -> Option<Parsed>)
      requires Valid()
      modifies this`transcript, this`unhelp, this`pending, this`botDiv
      ensures Valid()
      ensures State() == Streamed(config, old(State()), chunks, parseJson)
    {
      var bot := ReadChunks(chunks);
      if botDiv.Some? {
        ghost var line := BotLine(ShownText(bot, parseJson(bot)));
        HandleBot(bot, parseJson);
        assert (old(transcript) + [BotLine(bot)])[|old(transcript)| := line] == old(transcript) + [line];
      }
    }

    /** The part of `send()` after the local commands declined the message:
        remember the smart links for `text` and consume the reply. */
    method Forward(text: string, response: Response, parseJson: string -> Option<Parsed>)
      requires Valid()
      modifies this`transcript, this`unhelp, this`pending, this`botDiv
      ensures Valid()
      ensures State() == Forwarded(config, old(State()), text, response, parseJson)
    {
      pending := Some(SmartLinks(config, text));
      match response
      case Failed =>
        transcript := transcript + [BotLine("Error")];
      case Chunks(cs) =>
        ReadStream(cs, parseJson);
    }

    /** `send()` once the trimmed text is known to be non-empty: show it,
        then answer it locally or forward it. */
    method Deliver(text: string, response: Response, parseJson: string -> Option<Parsed>)
      requires Valid()
      modifies this`transcript, this`unhelp, this`pending, this`botDiv
      ensures Valid()
      ensures State() == Sent(config, old(State()), text, response, parseJson)
    {
      transcript := transcript + [UserText(text)];
      ghost var shown := State();
      CommandEmitsIffHandled(config, text);
      var handled := HandleCommand(text);
      if !handled {
        assert State() == shown;
        Forward(text, response, parseJson);
      }
    }

    /** `send()`: read and trim the input; if anything is left, show it,
        clear the input, and either answer it locally or forward it. */
    method Send(response: Response, parseJson: string -> Option<Parsed>)
      requires Valid()
      modifies this`transcript, this`input, this`unhelp, this`pending, this`botDiv
      ensures Valid()
      ensures JsTrim(old(input)) == [] ==> State() == old(State()) && input == old(input)
      ensures JsTrim(old(input)) != [] ==>
        input == "" && State() == Sent(config, old(State()), JsTrim(old(input)), response, parseJson)
    {
      var text := JsTrim(input);
      if text == [] {
        return;
      }
      input := "";
      Deliver(text, response, parseJson);
    }
  }
}
