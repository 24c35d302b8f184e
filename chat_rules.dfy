/** The decision rules of the chat widget scripts
    (backend/static/seep-widget.js and its older copy embed.js), as values:
    the merchant configuration, buttons and transcript entries, smart links,
    the time-of-day greeting, local commands, the JSON reply, the extra
    cart/checkout buttons and the "unhelpful reply" counter. */
module ChatRules {
  import opened Text
  import Markup

  /** A link button: label and target. */
  datatype Button = Button(text: string, url: string)

  /** The merchant configuration object fetched at start-up. A string that
      is missing (or otherwise falsy) is "", and a field that must pass
      `Array.isArray` is `None` when it does not. */
  datatype Config = Config(
    trackLink: string,
    returnsLink: string,
    supportLink: string,
    cartUrl: string,
    checkoutUrl: string,
    contactUrl: string,
    supportEmail: string,                 // `support_email`
    popularLinks: Option<seq<Button>>,    // `popular_links`
    cartLabel: string,
    checkoutLabel: string,
    greeting: string,
    welcomeMessage: string,
    quickReplies: Option<seq<string>>)

  datatype Option<T> = None | Some(value: T)

  /** One element appended to the message pane. */
  datatype Entry =
    | UserText(text: string)              // a user bubble (textContent)
    | BotHtml(html: string)               // a bot bubble set through innerHTML
    | BotText(text: string)               // a bot bubble set through textContent
    | ButtonRow(buttons: seq<Button>)     // showButtons
    | QuickReplies(labels: seq<string>)   // showQuickReplies
    | Escalation(prompt: string, button: Button)

  /** The result of `JSON.parse` on a finished reply, when it succeeds:
      its `text` ("" when missing or falsy) and its `buttons` ([] when
      missing). */
  datatype Parsed = Parsed(text: string, buttons: seq<Button>)

  // ---------------------------------------------------------------- smart links

  function TrackButton(cfg: Config): Button { Button("Track Order", cfg.trackLink) }
  function ReturnButton(cfg: Config): Button { Button("Return Item", cfg.returnsLink) }
  function SupportButton(cfg: Config): Button { Button("Contact Support", cfg.supportLink) }

  predicate AsksTracking(l: string) { Contains(l, "where is my order") || Contains(l, "track order") }
  predicate AsksReturn(l: string) { Contains(l, "return item") || Contains(l, "refund policy") }
  predicate AsksSupport(l: string) { Contains(l, "support") }

  /** Position of a smart-link label in the fixed order. */
  function Rank(name: string): nat
  {
    if name == "Track Order" then 0
    else if name == "Return Item" then 1
    else if name == "Contact Support" then 2
    else 3
  }

  /** `smartLinks(t)`: the buttons offered below the answer to `t`. */
  function SmartLinks(cfg: Config, t: string): seq<Button>
  {
    var l := Lower(t);
    (if cfg.trackLink != "" && AsksTracking(l) then [TrackButton(cfg)] else [])
    + (if cfg.returnsLink != "" && AsksReturn(l) then [ReturnButton(cfg)] else [])
    + (if cfg.supportLink != "" && AsksSupport(l) then [SupportButton(cfg)] else [])
  }

  /** At most three buttons, always in the order Track Order, Return Item,
      Contact Support; each is offered exactly when its link is configured
      and the lower-cased message mentions one of its phrases. */
  lemma SmartLinksRules(cfg: Config, t: string)
    ensures var r := SmartLinks(cfg, t);
      && |r| <= 3
      && (forall i, j :: 0 <= i < j < |r| ==> Rank(r[i].text) < Rank(r[j].text))
      && (forall b :: b in r ==> b == TrackButton(cfg) || b == ReturnButton(cfg) || b == SupportButton(cfg))
      && (TrackButton(cfg) in r <==> cfg.trackLink != "" && AsksTracking(Lower(t)))
      && (ReturnButton(cfg) in r <==> cfg.returnsLink != "" && AsksReturn(Lower(t)))
      && (SupportButton(cfg) in r <==> cfg.supportLink != "" && AsksSupport(Lower(t)))
  {
  }

  // ---------------------------------------------------------------- greeting

  const Morning := "Good morning"
  const Afternoon := "Good afternoon"
  const Evening := "Good evening"

  /** `timeGreeting()` for the local hour `h` of `new Date().getHours()`. */
  function TimeGreeting(h: int): string
  {
    if h < 12 then Morning else if h < 18 then Afternoon else Evening
  }

  /** Each greeting belongs to exactly one part of the day. */
  lemma GreetingPeriods(h: int)
    ensures TimeGreeting(h) == Morning <==> h < 12
    ensures TimeGreeting(h) == Afternoon <==> 12 <= h < 18
    ensures TimeGreeting(h) == Evening <==> 18 <= h
  {
  }

  /** `c.greeting || c.welcomeMessage`. */
  function GreetingText(cfg: Config): (g: string)
    ensures g == "" <==> cfg.greeting == "" && cfg.welcomeMessage == ""
  {
    if cfg.greeting != "" then cfg.greeting else cfg.welcomeMessage
  }

  /** The first bot line: `greet + (g ? '! ' + g : '!')`. */
  function GreetingLine(h: int, cfg: Config): string
  {
    var g := GreetingText(cfg);
    TimeGreeting(h) + (if g != "" then "! " + g else "!")
  }

  /** The greeting line always opens with the time-of-day greeting and "!";
      it is exactly that when no greeting text is configured, and otherwise
      continues with a space and the configured text. */
  lemma GreetingLineShape(h: int, cfg: Config)
    ensures TimeGreeting(h) + "!" <= GreetingLine(h, cfg)
    ensures GreetingText(cfg) == "" ==> GreetingLine(h, cfg) == TimeGreeting(h) + "!"
    ensures GreetingText(cfg) != "" ==> GreetingLine(h, cfg) == TimeGreeting(h) + "! " + GreetingText(cfg)
  {
  }

  /** `showButtons(arr)` adds a row only for a non-empty list. */
  function ShowButtons(bs: seq<Button>): (r: seq<Entry>)
    ensures |r| <= 1
    ensures r != [] <==> bs != []
  {
    if bs == [] then [] else [ButtonRow(bs)]
  }

  function CartAction(cfg: Config): Button { Button("\U{1F6D2} View Cart", cfg.cartUrl) }
  function CheckoutAction(cfg: Config): Button { Button("\U{2705} Checkout", cfg.checkoutUrl) }
  function ContactAction(cfg: Config): Button { Button("\U{1F4AC} Contact Us", cfg.contactUrl) }

  /** Position of an action-bar label in the fixed order. */
  function ActionRank(name: string): nat
  {
    if name == "\U{1F6D2} View Cart" then 0
    else if name == "\U{2705} Checkout" then 1
    else if name == "\U{1F4AC} Contact Us" then 2
    else 3
  }

  /** The buttons of the action bar built by `init`. */
  function ActionButtons(cfg: Config): (r: seq<Button>)
    ensures |r| <= 3
  {
    (if cfg.cartUrl != "" then [CartAction(cfg)] else [])
    + (if cfg.checkoutUrl != "" then [CheckoutAction(cfg)] else [])
    + (if cfg.contactUrl != "" then [ContactAction(cfg)] else [])
  }

  /** The action bar holds View Cart, Checkout and Contact Us, in that
      order, each exactly when its URL is configured, and nothing else. */
  lemma ActionButtonsRules(cfg: Config)
    ensures var r := ActionButtons(cfg);
      && (forall i, j :: 0 <= i < j < |r| ==> ActionRank(r[i].text) < ActionRank(r[j].text))
      && (forall b :: b in r ==> b == CartAction(cfg) || b == CheckoutAction(cfg) || b == ContactAction(cfg))
      && (CartAction(cfg) in r <==> cfg.cartUrl != "")
      && (CheckoutAction(cfg) in r <==> cfg.checkoutUrl != "")
      && (ContactAction(cfg) in r <==> cfg.contactUrl != "")
  {
  }

  /** `showQuickReplies(c.quickReplies)` when the field is an array. */
  function QuickReplyEntries(qr: Option<seq<string>>): (r: seq<Entry>)
    ensures r != [] <==> qr.Some? && qr.value != []
  {
    if qr.Some? && qr.value != [] then [QuickReplies(qr.value)] else []
  }

  // ---------------------------------------------------------------- local commands

  predicate HasBoth(b: Button) { b.url != "" && b.text != "" }

  /** Reference definition of the `for` loop in `handleCommand`: the popular
      links that have both `url` and `text`, in order. */
  function WithUrlAndText(links: seq<Button>): seq<Button>
  {
    if links == [] then []
    else (if HasBoth(links[0]) then [links[0]] else []) + WithUrlAndText(links[1..])
  }

  /** The usable links are exactly the popular links that have both fields,
      none is added and the others are dropped. */
  lemma {:induction false} WithUrlAndTextMembers(links: seq<Button>)
    ensures |WithUrlAndText(links)| <= |links|
    ensures forall b :: b in WithUrlAndText(links) <==> b in links && HasBoth(b)
  {
    if links != [] {
      WithUrlAndTextMembers(links[1..]);
      assert forall b :: b in links <==> b == links[0] || b in links[1..];
    }
  }

  /** The loop of `handleCommand` (line 30) that collects the usable links. */
  method CollectLinks(links: seq<Button>) returns (arr: seq<Button>)
    ensures arr == WithUrlAndText(links)
  {
    arr := [];
    for i := 0 to |links|
      invariant arr + WithUrlAndText(links[i..]) == WithUrlAndText(links)
    {
      var it := links[i];
      assert links[i..][1..] == links[i + 1..];
      if HasBoth(it) {
        arr := arr + [it];
      }
    }
    assert links[|links|..] == [];
  }

  const TrackingPrompt := "Please enter your tracking number or contact support."

  function ConnectingTo(email: string): string
  {
    "Connecting you to support at " + email
  }

  /** `handleCommand(t)`: whether the message is answered locally, and what
      it adds to the pane. The bot lines are the text given to
      `addMsg(..., 'bot')`. */
  datatype CommandResult = CommandResult(handled: bool, emitted: seq<Entry>)

  function BotLine(text: string): Entry
  {
    BotHtml(Markup.Render(text))
  }

  function Command(cfg: Config, t: string): CommandResult
  {
    var l := Lower(t);
    if Contains(l, "track order") then CommandResult(true, [BotLine(TrackingPrompt)])
    else if Contains(l, "view cart") && cfg.cartUrl != "" then CommandResult(true, [BotLine(cfg.cartUrl)])
    else if Contains(l, "browse products") && cfg.popularLinks.Some? then
      var arr := WithUrlAndText(cfg.popularLinks.value);
      CommandResult(arr != [], ShowButtons(arr))
    else if Contains(l, "speak to agent") && cfg.supportEmail != "" then
      CommandResult(true, [BotLine(ConnectingTo(cfg.supportEmail))])
    else CommandResult(false, [])
  }

  /** The commands are tried in priority order; a message that matches none
      of them (or whose rule is not configured) goes to the server. The
      "browse products" rule, once it applies, decides alone: with no usable
      link the message goes to the server even if it also says "speak to
      agent". A rule whose phrase appears but which is not configured (no cart
      URL, no `popular_links` array) is passed over, and the next rule is
      tried. */
  lemma CommandPriority(cfg: Config, t: string)
    ensures Contains(Lower(t), "track order") ==>
      Command(cfg, t) == CommandResult(true, [BotLine(TrackingPrompt)])
    ensures !Contains(Lower(t), "track order") && Contains(Lower(t), "view cart") ==>
      (Command(cfg, t).handled || cfg.cartUrl == "")
    ensures !Contains(Lower(t), "track order") && Contains(Lower(t), "view cart") && cfg.cartUrl != "" ==>
      Command(cfg, t) == CommandResult(true, [BotLine(cfg.cartUrl)])
    ensures (!Contains(Lower(t), "track order") && !(Contains(Lower(t), "view cart") && cfg.cartUrl != "")
             && Contains(Lower(t), "browse products") && cfg.popularLinks.Some?) ==>
      (Command(cfg, t).handled <==> exists b :: b in cfg.popularLinks.value && HasBoth(b))
    ensures Command(cfg, t).handled ==>
      Contains(Lower(t), "track order") || (Contains(Lower(t), "view cart") && cfg.cartUrl != "")
      || Contains(Lower(t), "browse products") || (Contains(Lower(t), "speak to agent") && cfg.supportEmail != "")
    ensures (!Contains(Lower(t), "track order") && !(Contains(Lower(t), "view cart") && cfg.cartUrl != "")
             && !(Contains(Lower(t), "browse products") && cfg.popularLinks.Some?)
             && Contains(Lower(t), "speak to agent")) ==>
      Command(cfg, t) == (if cfg.supportEmail != "" then CommandResult(true, [BotLine(ConnectingTo(cfg.supportEmail))])
                          else CommandResult(false, []))
  {
    var l := Lower(t);
    if !Contains(l, "track order") && !(Contains(l, "view cart") && cfg.cartUrl != "")
      && Contains(l, "browse products") && cfg.popularLinks.Some? {
      var arr := WithUrlAndText(cfg.popularLinks.value);
      WithUrlAndTextMembers(cfg.popularLinks.value);
      if arr != [] { assert arr[0] in arr; }
    }
  }

  /** A command adds exactly one element to the pane when it is handled and
      nothing when the message goes on to the server. */
  lemma CommandEmitsIffHandled(cfg: Config, t: string)
    ensures Command(cfg, t).handled <==> |Command(cfg, t).emitted| == 1
    ensures !Command(cfg, t).handled ==> Command(cfg, t).emitted == []
  {
  }

  // ---------------------------------------------------------------- replies

  /** The text a finished reply shows: `obj.text` when the reply parses as
      JSON with a truthy `text`, the raw reply otherwise. */
  function ShownText(reply: string, obj: Option<Parsed>): (r: string)
    ensures obj.Some? && obj.value.text != "" ==> r == obj.value.text
    ensures !(obj.Some? && obj.value.text != "") ==> r == reply
  {
    if obj.Some? && obj.value.text != "" then obj.value.text else reply
  }

  /** `showButtons(obj.buttons)`, which runs only on the JSON branch. */
  function JsonButtons(obj: Option<Parsed>): seq<Entry>
  {
    if obj.Some? && obj.value.text != "" then ShowButtons(obj.value.buttons) else []
  }

  function CartLabel(cfg: Config): string
  {
    if cfg.cartLabel != "" then cfg.cartLabel else "\U{1F6D2} View Cart"
  }

  function CheckoutLabel(cfg: Config): string
  {
    if cfg.checkoutLabel != "" then cfg.checkoutLabel else "\U{1F4B3} Checkout"
  }

  /** The `extra` buttons of the widget's `handleBot`. */
  function ExtraButtons(cfg: Config, text: string): seq<Button>
  {
    var lc := Lower(text);
    (if Contains(lc, "go to cart") then [Button(CartLabel(cfg), "/cart")] else [])
    + (if Contains(lc, "checkout") then [Button(CheckoutLabel(cfg), "/checkout")] else [])
  }

  /** A cart button exactly when the reply says "go to cart", a checkout
      button exactly when it says "checkout", cart first, with the
      configured labels or their defaults. */
  lemma ExtraButtonsRules(cfg: Config, text: string)
    ensures var r := ExtraButtons(cfg, text);
      && |r| <= 2
      && (Button(CartLabel(cfg), "/cart") in r <==> Contains(Lower(text), "go to cart"))
      && (Button(CheckoutLabel(cfg), "/checkout") in r <==> Contains(Lower(text), "checkout"))
      && (forall b :: b in r ==> b == Button(CartLabel(cfg), "/cart") || b == Button(CheckoutLabel(cfg), "/checkout"))
      && (|r| == 2 ==> r[0].url == "/cart" && r[1].url == "/checkout")
  {
  }

  /** `/don't understand|not sure|sorry/i.test(text)`. */
  predicate IsUnhelpful(text: string)
  {
    var l := Lower(text);
    Contains(l, "don't understand") || Contains(l, "not sure") || Contains(l, "sorry")
  }

  /** The counter after one reply and whether the hand-off to a human is
      offered. */
  datatype CounterStep = CounterStep(unhelp: nat, escalate: bool)

  function Step(cfg: Config, u: nat, text: string): (r: CounterStep)
    ensures r.escalate <==> cfg.supportLink != "" && IsUnhelpful(text) && u + 1 >= 3
    ensures r.escalate ==> r.unhelp == 0
    ensures !r.escalate ==> r.unhelp == (if IsUnhelpful(text) then u + 1 else 0)
  {
    var n := if IsUnhelpful(text) then u + 1 else 0;
    if n >= 3 && cfg.supportLink != "" then CounterStep(0, true) else CounterStep(n, false)
  }

  const HumanPrompt := "Would you like me to connect you to a human?"

  function EscalationEntries(cfg: Config, escalate: bool): seq<Entry>
  {
    if escalate then [Escalation(HumanPrompt, Button("Connect to Support", cfg.supportLink))] else []
  }

  /** `if(pending){showButtons(pending);}`: an empty list is truthy in
      JavaScript but shows nothing. */
  function PendingEntries(pending: Option<seq<Button>>): (r: seq<Entry>)
    ensures r != [] <==> pending.Some? && pending.value != []
  {
    if pending.Some? then ShowButtons(pending.value) else []
  }

  /** With a support link configured the counter stays below 3. */
  lemma StepKeepsBound(cfg: Config, u: nat, text: string)
    requires cfg.supportLink != "" && u < 3
    ensures Step(cfg, u, text).unhelp < 3
  {
  }

  /** Counter and number of hand-offs after a run of replies. */
  function Run(cfg: Config, u: nat, replies: seq<string>): (nat, nat)
    decreases |replies|
  {
    if replies == [] then (u, 0)
    else
      var s := Step(cfg, u, replies[0]);
      var rest := Run(cfg, s.unhelp, replies[1..]);
      (rest.0, rest.1 + (if s.escalate then 1 else 0))
  }

  /** A run of unhelpful replies, with a support link set, offers the
      hand-off on every third one and leaves the remainder in the counter. */
  lemma {:induction false} UnhelpfulRun(cfg: Config, u: nat, replies: seq<string>)
    requires cfg.supportLink != "" && u < 3
    requires forall i :: 0 <= i < |replies| ==> IsUnhelpful(replies[i])
    ensures Run(cfg, u, replies) == ((u + |replies|) % 3, (u + |replies|) / 3)
    decreases |replies|
  {
    if replies != [] {
      var s := Step(cfg, u, replies[0]);
      UnhelpfulRun(cfg, s.unhelp, replies[1..]);
    }
  }

  /** Without a support link nothing is ever offered and the counter
      counts the unhelpful replies since the last helpful one. */
  lemma {:induction false} RunWithoutSupport(cfg: Config, u: nat, replies: seq<string>)
    requires cfg.supportLink == ""
    ensures Run(cfg, u, replies).1 == 0
    ensures Run(cfg, u, replies).0 == TrailingUnhelpful(u, replies)
    decreases |replies|
  {
    if replies != [] {
      RunWithoutSupport(cfg, Step(cfg, u, replies[0]).unhelp, replies[1..]);
      TrailingUnhelpfulStep(u, replies);
    }
  }

  /** `u` plus the unhelpful replies at the end of `replies`, or just those
      when a helpful reply comes among them. */
  function TrailingUnhelpful(u: nat, replies: seq<string>): nat
  {
    if replies == [] then u
    else if IsUnhelpful(replies[|replies| - 1]) then TrailingUnhelpful(u, replies[..|replies| - 1]) + 1
    else 0
  }

  lemma {:induction false} TrailingUnhelpfulStep(u: nat, replies: seq<string>)
    requires replies != []
    ensures TrailingUnhelpful(u, replies)
      == TrailingUnhelpful(if IsUnhelpful(replies[0]) then u + 1 else 0, replies[1..])
    decreases |replies|
  {
    if |replies| > 1 {
      var init := replies[..|replies| - 1];
      assert init[0] == replies[0];
      assert init[1..] == replies[1..][..|replies[1..]| - 1];
      TrailingUnhelpfulStep(u, init);
    }
  }
}
