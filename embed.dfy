/** The older embeddable widget of embed.js. It shares the smart links and
    the "unhelpful reply" counter with backend/static/seep-widget.js, but
    has no local commands, no greeting, no cart/checkout buttons, and
    shows every bot text through `textContent` (no markdown stripping, no
    links). The network reply and `JSON.parse` are inputs. */
module Embed {
  import opened Text
  import opened ChatRules
  import opened SeepWidget

  /** What `handleBot` appends after rewriting the bot bubble: the JSON
      buttons, the hand-off offer and the pending smart links. */
  function EmbedReplyEntries(cfg: Config, reply: string, obj: Option<Parsed>, u: nat,
                             pending: Option<seq<Button>>): seq<Entry>
  {
    JsonButtons(obj) + EscalationEntries(cfg, Step(cfg, u, ShownText(reply, obj)).escalate)
    + PendingEntries(pending)
  }

  /** The state after reading a reply as `chunks`. */
  function EmbedStreamed(cfg: Config, s: Turn, chunks: seq<string>, parseJson: string -> Option<Parsed>): Turn
  {
    if chunks == [] then s.(botDiv := None)
    else
      var reply := Concat(chunks);
      var obj := parseJson(reply);
      var shown := ShownText(reply, obj);
      Turn(s.transcript + [BotText(shown)] + EmbedReplyEntries(cfg, reply, obj, s.unhelp, s.pending),
           Step(cfg, s.unhelp, shown).unhelp, None, Some(|s.transcript|))
  }

  /** The state after sending the (trimmed, non-empty) `text`: it is shown,
      its smart links are remembered, then the reply is read or "Error" is
      shown. */
  function EmbedSent(cfg: Config, s: Turn, text: string, response: Response,
                     parseJson: string -> Option<Parsed>): Turn
  {
    var s1 := s.(transcript := s.transcript + [UserText(text)], pending := Some(SmartLinks(cfg, text)));
    match response
    case Failed => s1.(transcript := s1.transcript + [BotText("Error")])
    case Chunks(cs) => EmbedStreamed(cfg, s1, cs, parseJson)
  }

  /** The two scripts keep the same counter, pending links and bubble for a
      forwarded message; their panes differ only in how the bot text is
      rendered and in the widget's cart/checkout buttons. */
  lemma EmbedAgreesWithWidget(cfg: Config, s: Turn, text: string, response: Response,
                              parseJson: string -> Option<Parsed>)
    ensures var e := EmbedSent(cfg, s, text, response, parseJson);
            var w := Forwarded(cfg, s.(transcript := s.transcript + [UserText(text)]), text, response, parseJson);
            e.unhelp == w.unhelp && e.pending == w.pending && e.botDiv == w.botDiv
            && |e.transcript| <= |w.transcript|
  {
  }

  /** Without "go to cart" and "checkout" in the shown text, the entries
      after the bot bubble are the same in both scripts. */
  lemma EmbedEntriesMatchWidget(cfg: Config, reply: string, obj: Option<Parsed>, u: nat,
                                pending: Option<seq<Button>>)
    requires !Contains(Lower(ShownText(reply, obj)), "go to cart")
    requires !Contains(Lower(ShownText(reply, obj)), "checkout")
    ensures EmbedReplyEntries(cfg, reply, obj, u, pending) == ReplyEntries(cfg, reply, obj, u, pending)
  {
    var a := JsonButtons(obj);
    var c := EscalationEntries(cfg, Step(cfg, u, ShownText(reply, obj)).escalate);
    var d := PendingEntries(pending);
    assert ExtraButtons(cfg, ShownText(reply, obj)) == [];
    assert a + [] + c + d == a + c + d;
  }

  /** The smart links of a message are shown with the first reply that
      reaches `handleBot`, and no later one: pending is cleared then, and
      kept when the stream carries no chunk. */
  lemma PendingShownOnce(cfg: Config, s: Turn, chunks: seq<string>, parseJson: string -> Option<Parsed>)
    ensures chunks != [] ==> EmbedStreamed(cfg, s, chunks, parseJson).pending == None
    ensures chunks == [] ==> EmbedStreamed(cfg, s, chunks, parseJson).pending == s.pending
    ensures chunks != [] && s.pending.Some? && s.pending.value != [] ==>
      EmbedStreamed(cfg, s, chunks, parseJson).transcript[|EmbedStreamed(cfg, s, chunks, parseJson).transcript| - 1]
        == ButtonRow(s.pending.value)
  {
  }

  class EmbedWidget {
    const config: Config
    var transcript: seq<Entry>
    var input: string
    var unhelp: nat
    var pending: Option<seq<Button>>
    var botDiv: Option<nat>

    function State(): Turn
      reads this
    {
      Turn(transcript, unhelp, pending, botDiv)
    }

    /** The bubble being streamed into exists, and with a support link set
        the counter is always below the escalation threshold. */
    ghost predicate Valid()
      reads this
    {
      (botDiv.Some? ==> botDiv.value < |transcript|)
      && (config.supportLink != "" ==> unhelp < 3)
    }

    /** `init(c)`: the welcome message, when there is one, as plain text. */
    constructor (c: Config)
      ensures Valid()
      ensures config == c && input == ""
      ensures transcript == (if c.welcomeMessage != "" then [BotText(c.welcomeMessage)] else [])
      ensures unhelp == 0 && pending == None && botDiv == None
    {
      config := c;
      input := "";
      unhelp := 0;
      pending := None;
      botDiv := None;
      transcript := [];
      if c.welcomeMessage != "" {
        transcript := [BotText(c.welcomeMessage)];
      }
    }

    /** Line 23 of `handleBot`: write the shown text into the bot bubble and,
        on the JSON branch, show the reply's own buttons. */
    method ShowReply(text: string, obj: Option<Parsed>) returns (shown: string)
      requires Valid() && botDiv.Some?
      modifies this`transcript
      ensures Valid()
      ensures shown == ShownText(text, obj)
      ensures transcript == old(transcript)[botDiv.value := BotText(shown)] + JsonButtons(obj)
    {
      if obj.Some? && obj.value.text != "" {
        shown := obj.value.text;
        transcript := transcript[botDiv.value := BotText(shown)];
        transcript := transcript + ShowButtons(obj.value.buttons);
      } else {
        shown := text;
        transcript := transcript[botDiv.value := BotText(shown)];
      }
    }

    /** Lines 24-27 of `handleBot`: the counter and the hand-off offer. */
    method CountReply(shown: string)
      requires Valid()
      modifies this`transcript, this`unhelp
      ensures Valid()
      ensures unhelp == Step(config, old(unhelp), shown).unhelp
      ensures transcript == old(transcript) + EscalationEntries(config, Step(config, old(unhelp), shown).escalate)
    {
      if IsUnhelpful(shown) {
        unhelp := unhelp + 1;
      } else {
        unhelp := 0;
      }
      if unhelp >= 3 && config.supportLink != "" {
        transcript := transcript + [Escalation(HumanPrompt, Button("Connect to Support", config.supportLink))];
        unhelp := 0;
      }
    }

    /** Line 28 of `handleBot`: show the pending smart links once. */
    method ShowPending()
      requires Valid()
      modifies this`transcript, this`pending
      ensures Valid()
      ensures transcript == old(transcript) + PendingEntries(old(pending))
      ensures pending == None
    {
      if pending.Some? {
        transcript := transcript + ShowButtons(pending.value);
        pending := None;
      }
    }

    /** `handleBot(text)` once the stream has ended. */
    method HandleBot(text: string, parseJson: string -> Option<Parsed>)
      requires Valid() && botDiv.Some?
      modifies this`transcript, this`unhelp, this`pending
      ensures Valid()
      ensures transcript == old(transcript)[botDiv.value := BotText(ShownText(text, parseJson(text)))]
                            + EmbedReplyEntries(config, text, parseJson(text), old(unhelp), old(pending))
      ensures unhelp == Step(config, old(unhelp), ShownText(text, parseJson(text))).unhelp
      ensures pending == None
    {
      var obj := parseJson(text);
      var shown := ShowReply(text, obj);
      CountReply(shown);
      ShowPending();
      AppendFour(old(transcript)[botDiv.value := BotText(shown)], JsonButtons(obj), [],
                 EscalationEntries(config, Step(config, old(unhelp), shown).escalate), PendingEntries(old(pending)));
    }

    /** The `read()` loop of `send` up to the end of the stream. */
    method ReadChunks(chunks: seq<string>) returns (bot: string)
      requires Valid()
      modifies this`transcript, this`botDiv
      ensures Valid()
      ensures bot == Concat(chunks)
      ensures chunks == [] ==> botDiv == None && transcript == old(transcript)
      ensures chunks != [] ==> botDiv == Some(|old(transcript)|) && transcript == old(transcript) + [BotText(bot)]
    {
      bot := "";
      botDiv := None;
      var i := 0;
      while i < |chunks|
        invariant 0 <= i <= |chunks|
        invariant Valid()
        invariant bot == Concat(chunks[..i])
        invariant i == 0 ==> botDiv == None && transcript == old(transcript)
        invariant i > 0 ==> botDiv == Some(|old(transcript)|) && transcript == old(transcript) + [BotText(bot)]
      {
        ConcatSnoc(chunks, i);
        bot := bot + chunks[i];
        if botDiv.Some? {
          transcript := transcript[botDiv.value := BotText(bot)];
        } else {
          transcript := transcript + [BotText(bot)];
          botDiv := Some(|transcript| - 1);
        }
        i := i + 1;
      }
      assert chunks[..i] == chunks;
    }

    /** Reading a reply to the end, then `handleBot` if a bubble exists. */
    method ReadStream(chunks: seq<string>, parseJson: string -> Option<Parsed>)
      requires Valid()
      modifies this`transcript, this`unhelp, this`pending, this`botDiv
      ensures Valid()
      ensures State() == EmbedStreamed(config, old(State()), chunks, parseJson)
    {
      var bot := ReadChunks(chunks);
      if botDiv.Some? {
        ghost var line := BotText(ShownText(bot, parseJson(bot)));
        HandleBot(bot, parseJson);
        assert (old(transcript) + [BotText(bot)])[|old(transcript)| := line] == old(transcript) + [line];
      }
    }

    /** `send()`: read and trim the input; if anything is left, show it,
        remember its smart links, clear the input and consume the reply. */
    method Send(response: Response, parseJson: string -> Option<Parsed>)
      requires Valid()
      modifies this`transcript, this`input, this`unhelp, this`pending, this`botDiv
      ensures Valid()
      ensures JsTrim(old(input)) == [] ==> State() == old(State()) && input == old(input)
      ensures JsTrim(old(input)) != [] ==>
        input == "" && State() == EmbedSent(config, old(State()), JsTrim(old(input)), response, parseJson)
    {
      var text := JsTrim(input);
      if text == [] {
        return;
      }
      transcript := transcript + [UserText(text)];
      pending := Some(SmartLinks(config, text));
      input := "";
      ghost var sent := State();
      match response
      case Failed =>
        transcript := transcript + [BotText("Error")];
      case Chunks(cs) =>
        ReadStream(cs, parseJson);
        assert State() == EmbedStreamed(config, sent, cs, parseJson);
    }
  }
}
