# Seep chat: widget rules, transcript updates and stream framing

Seep is a shop assistant. A merchant embeds a chat widget in their site, and a
Flask backend answers through a language model. This project models the rules
of that conversation and proves properties of the models:

- **The embeddable widget** (`backend/static/seep-widget.js`) and its older copy
  (`embed.js`). Covered rules:
  - markdown stripping and URL linkification of bot text;
  - the smart-link buttons offered for a message;
  - the time-of-day greeting;
  - the local commands answered without the server;
  - the JSON form of a reply and the cart/checkout buttons;
  - the "unhelpful reply" counter that offers a human, and the hand-off of the pending smart links.

  Each script's closure state becomes a class. The class fields are the message pane (as
  the sequence of elements appended to it), the input box, the counter, the
  pending buttons and the bubble a stream writes into. Every method is proved
  to move from one snapshot of that state to the snapshot a pure transition
  function computes (`Streamed`, `Forwarded`, `Sent`; `EmbedStreamed`,
  `EmbedSent`).
- **The chat page** (`frontend/src/ChatApp.jsx`): the `messages` list, the input
  and the `loading` flag. These change as `sendMessage` shows the user entry and a placeholder, streams
  into the last entry and replaces it on error, and as the welcome loader
  picks the first message.
- **The backend's text shaping** (`backend/app.py`):
  - the reply shape of `POST /chat`;
  - the word-and-space chunks of `POST /chat-stream`;
  - the server-sent event frames of `GET /chat`.

  The frames are read back with a model of the standard event-stream
  receiver (section 9.2.6 of the WHATWG HTML Living Standard, "Interpreting an
  event stream"). The receiver yields one "message" event per word, then one
  "end" event.

Modules:
- `Text`: whitespace classes, ASCII lower-casing, substring search, chunk concatenation, trimming, Python `str.split()`.
- `Markup`: `stripMd` and `linkify`.
- `ChatRules`: the values and per-message rules the two scripts share.
- `SeepWidget`: `seep-widget.js` state.
- `Embed`: `embed.js` state.
- `ChatApp`
- `Sse`: the event-stream receiver.
- `Backend`

Inputs are parameters:
- the network reply is a `Response` of decoded chunks, or a failure;
- `JSON.parse` is the function `parseJson`;
- the clock is an hour or a time string;
- the language model is the function `complete`.

One consequence of the widget's rendering is proved outright. Markdown marks are
deleted before URLs are detected, so an underscore inside a URL is removed
from the link target as well (`Markup.UnderscoreInUrlIsDropped`).

## Model

| member | source | states |
|---|---|---|
| `Markup.StripMdIsWithoutMarks` | backend/static/seep-widget.js:13 | `stripMd` deletes exactly the `*` and `_` characters and keeps every other character in order (equal to the reference filter `WithoutMarks`, with `**` tried first) |
| `Markup.WithoutMarksFilters` | backend/static/seep-widget.js:13 | the reference filter keeps only characters of its input, none of them a mark, and never lengthens it |
| `Markup.StripMdHasNoMarks` | backend/static/seep-widget.js:13 | the stripped text contains neither `*` nor `_` |
| `Markup.StripMdIdempotent` | backend/static/seep-widget.js:13 | stripping twice equals stripping once |
| `Markup.UrlAt` | backend/static/seep-widget.js:14 | a match of `https?://[^\s]+` is found exactly when the text starts with a scheme followed by a non-space character; it then runs greedily to the next whitespace or the end |
| `Markup.LinkifyWithoutUrl` | backend/static/seep-widget.js:14 | text containing neither `http://` nor `https://` is returned unchanged |
| `Markup.LinkifyUrl` | backend/static/seep-widget.js:14 | a whole `http://` URL with no whitespace becomes exactly one anchor |
| `Markup.UnderscoreInUrlIsDropped` | backend/static/seep-widget.js:25 | because `addMsg` strips marks before linkifying, `http://a_b` is rendered as a link to `http://ab` |
| `ChatRules.SmartLinksRules` | backend/static/seep-widget.js:15-20 | at most 3 buttons, in the order Track Order, Return Item, Contact Support; each is present iff its link is configured and the lower-cased text contains one of its phrases; no other button appears |
| `ChatRules.GreetingPeriods` | backend/static/seep-widget.js:24 | "Good morning" iff the hour is below 12, "Good afternoon" iff 12 to 17, "Good evening" iff 18 or later |
| `ChatRules.GreetingText` | backend/static/seep-widget.js:93 | `greeting || welcomeMessage` is empty iff both fields are empty |
| `ChatRules.GreetingLineShape` | backend/static/seep-widget.js:93 | the first bot line is the time greeting and "!", followed by a space and the configured text exactly when there is one |
| `ChatRules.ShowButtons` | backend/static/seep-widget.js:35 | `showButtons` adds at most one row, and one iff the list is non-empty |
| `ChatRules.ActionButtonsRules` | backend/static/seep-widget.js:90-92 | the action bar holds View Cart, Checkout and Contact Us in that order, each exactly when its URL is configured, and no other button |
| `ChatRules.QuickReplyEntries` | backend/static/seep-widget.js:94 | the quick replies are shown iff the field is an array with at least one element |
| `ChatRules.WithUrlAndTextMembers` | backend/static/seep-widget.js:30 | the usable popular links are exactly the ones that have both `url` and `text`; the rest are dropped and none is added |
| `ChatRules.CollectLinks` | backend/static/seep-widget.js:30 | the `for` loop collects the links with both fields, in their original order |
| `ChatRules.CommandPriority` | backend/static/seep-widget.js:26-33 | "track order" is always answered; "view cart" only with a cart URL; "browse products" (with an array) is answered iff some link has both fields and then decides alone; an unconfigured earlier rule is passed over, so "speak to agent" is answered (with a support e-mail) whenever no earlier rule applies; a handled message matched one of these rules |
| `ChatRules.CommandEmitsIffHandled` | backend/static/seep-widget.js:26-33 | a command adds exactly one element iff it is handled, and nothing otherwise |
| `ChatRules.ExtraButtonsRules` | backend/static/seep-widget.js:44-47 | a cart button iff the shown text says "go to cart", a checkout button iff it says "checkout", cart first, with the configured labels or their defaults, and nothing else |
| `ChatRules.Step` | backend/static/seep-widget.js:48-51 | the counter rises on an unhelpful reply (case-insensitive) and resets otherwise; the hand-off is offered iff it reaches 3 with a support link, and then the counter is 0 |
| `ChatRules.PendingEntries` | backend/static/seep-widget.js:52 | pending buttons add a row iff there are some; an empty list is truthy but shows nothing |
| `ChatRules.StepKeepsBound` | backend/static/seep-widget.js:48-51 | with a support link the counter stays below 3 |
| `ChatRules.UnhelpfulRun` | backend/static/seep-widget.js:48-51 | a run of n unhelpful replies from counter u offers the hand-off (u+n)/3 times and leaves (u+n) mod 3 |
| `ChatRules.RunWithoutSupport` | backend/static/seep-widget.js:49 | without a support link the hand-off is never offered and the counter counts the unhelpful replies since the last helpful one |
| `ChatRules.TrailingUnhelpfulStep` | backend/static/seep-widget.js:48 | counting unhelpful replies from the end agrees with stepping the counter from the front |
| `SeepWidget.ReplyEscalatesOnce` | backend/static/seep-widget.js:41-53 | one finished reply adds the hand-off offer at most once, exactly when the counter step escalates |
| `SeepWidget.Widget.constructor` | backend/static/seep-widget.js:89-94 | `init` builds the action bar, shows the greeting line, then the quick replies; the counter is 0 and nothing is pending |
| `SeepWidget.Widget.HandleCommand` | backend/static/seep-widget.js:26-33 | the method answers as `Command` says and appends exactly its output |
| `SeepWidget.Widget.ShowReply` | backend/static/seep-widget.js:43 | the bubble is rewritten with the rendered shown text, then the JSON buttons follow |
| `SeepWidget.Widget.CountReply` | backend/static/seep-widget.js:48-51 | the counter and the pane move as `Step` says |
| `SeepWidget.Widget.ShowPending` | backend/static/seep-widget.js:52 | the pending buttons are shown once and cleared |
| `SeepWidget.Widget.HandleBot` | backend/static/seep-widget.js:41-53 | the bubble is rewritten, then the JSON buttons, the cart/checkout buttons, the hand-off and the pending links follow in that order; the counter is stepped and nothing stays pending |
| `SeepWidget.Widget.ReadChunks` | backend/static/seep-widget.js:96 | the bubble is created on the first chunk and always shows the concatenation of the chunks so far; no chunk means no bubble |
| `SeepWidget.Widget.ReadStream` | backend/static/seep-widget.js:96 | reading a reply ends in the state `Streamed` describes; `handleBot` runs only if a bubble exists |
| `SeepWidget.Widget.Forward` | backend/static/seep-widget.js:95-96 | the smart links are remembered, then a failure shows "Error" or the reply is read, as `Forwarded` says |
| `SeepWidget.Widget.Deliver` | backend/static/seep-widget.js:95-96 | the user line is shown, then a local command answers or the message is forwarded, as `Sent` says |
| `SeepWidget.Widget.Send` | backend/static/seep-widget.js:95 | whitespace-only input changes nothing; otherwise the trimmed text is sent and the input cleared |
| `Embed.EmbedWidget.constructor` | embed.js:41 | the welcome message is shown as plain text when there is one, and nothing otherwise |
| `Embed.EmbedWidget.ShowReply` | embed.js:22-23 | the bubble shows the shown text as plain text, then the JSON buttons follow |
| `Embed.EmbedWidget.CountReply` | embed.js:24-27 | the counter and the hand-off move as `Step` says |
| `Embed.EmbedWidget.ShowPending` | embed.js:28 | the pending buttons are shown once and cleared |
| `Embed.EmbedWidget.HandleBot` | embed.js:21-29 | the bubble is rewritten, then the JSON buttons, the hand-off and the pending links follow; no cart/checkout buttons |
| `Embed.EmbedWidget.ReadChunks` | embed.js:43 | the displayed bot text is the concatenation of the decoded chunks in arrival order |
| `Embed.EmbedWidget.ReadStream` | embed.js:43 | reading a reply ends in the state `EmbedStreamed` describes |
| `Embed.EmbedWidget.Send` | embed.js:42-43 | whitespace-only input changes nothing; otherwise the trimmed text is shown, its smart links are remembered, the input is cleared and the reply is read or "Error" shown, as `EmbedSent` says |
| `Embed.EmbedAgreesWithWidget` | embed.js:10-29 | for a forwarded message the two scripts agree on the counter, the pending links and the bubble; the older script's pane is never longer |
| `Embed.EmbedEntriesMatchWidget` | embed.js:21-29 | without "go to cart" and "checkout" the two scripts append the same entries after the bubble |
| `Embed.PendingShownOnce` | embed.js:28 | the smart links are cleared by the first reply that reaches `handleBot` (they are the last row it adds) and kept when no chunk arrives |
| `ChatApp.Appended` | frontend/src/ChatApp.jsx:45 | appending keeps every earlier entry and adds one at the end |
| `ChatApp.ReplacedLast` | frontend/src/ChatApp.jsx:63 | `[...prev.slice(0, -1), m]` keeps the length and the earlier entries and replaces the last; an empty list becomes `[m]` |
| `ChatApp.SetLast` | frontend/src/ChatApp.jsx:74-78 | the copy-and-assign updater keeps the length and the earlier entries and replaces the last; an empty list stays empty |
| `ChatApp.ReplaceLastAgree` | frontend/src/ChatApp.jsx:63-82 | on a non-empty list the two ways of replacing the last entry agree |
| `ChatApp.LoadWelcome` | frontend/src/ChatApp.jsx:30-34 | one bot entry with the suggestion, or failing that the welcome message; otherwise the list is untouched |
| `ChatApp.AfterSendShape` | frontend/src/ChatApp.jsx:44-85 | a send adds exactly two entries, the raw user input and one bot entry, and keeps the earlier ones; a completed stream shows the concatenation of its chunks; a non-OK JSON body shows `message` or else `error`; every other failure shows "Bot is unavailable. Check server/API key." |
| `ChatApp.EmptyStreamKeepsPlaceholder` | frontend/src/ChatApp.jsx:49-79 | a stream without chunks leaves the empty placeholder |
| `ChatApp.ChatView.Welcome` | frontend/src/ChatApp.jsx:30-34 | the welcome effect sets the list as `LoadWelcome` says |
| `ChatApp.ChatView.ReadReply` | frontend/src/ChatApp.jsx:69-78 | each chunk rewrites only the last entry, with the concatenation so far; length and earlier entries never change |
| `ChatApp.ChatView.SendMessage` | frontend/src/ChatApp.jsx:42-86 | blank input changes nothing (not even `loading`); otherwise the input is cleared, the list ends as `AfterSend` says and `loading` is false on every way out |
| `Backend.ChatReply` | backend/app.py:38-50 | 200 iff the body is usable and the completion has a choice, then a message body; every other path is 500 with an error body: the exception text, or "No valid response from AI" |
| `Backend.ChatMessageStripped` | backend/app.py:39 | the message is the content with surrounding whitespace removed: empty iff the content is all whitespace, otherwise it neither starts nor ends with whitespace and sits inside the content with only whitespace around it |
| `Backend.MissingMessageIsEmpty` | backend/app.py:25 | a body without `message` is answered exactly like one whose message is "" |
| `Backend.Generate` | backend/app.py:58-71 | with choices the chunks are the content's words each followed by one space, and splitting their concatenation gives the words back; without choices exactly one chunk "No valid response from AI."; a failing completion raises out of the generator before any chunk |
| `Backend.ChatStream` | backend/app.py:53-77 | the view's JSON error is sent iff the body is unusable (500 with its error); a failing completion escapes the view during streaming, carrying its error; otherwise the body is streamed as `Generate` says |
| `Backend.ChatStreamEager` | backend/app.py:53-77 | with the completion requested inside the `try`, the reply is 500 with the error text iff the body is unusable or the completion fails, no exception escapes, and a streamed body is as `Generate` says |
| `Backend.DataFrames` | backend/app.py:86 | one `"data: " + w + " \n\n"` frame per word, in order (a helper for `Backend.FramesDecode`) |
| `Backend.EchoWords` | backend/app.py:84-85 | the echo's words are "Echo:" followed by the words of the message |
| `Backend.EventStream` | backend/app.py:81-88 | one data frame per word of `"Echo: " + message` in order, then the end frame, which occurs nowhere else; always at least two frames |
| `Backend.WordEvents` | backend/app.py:86 | one "message" event per word, carrying the word and one space (a helper for `Backend.FramesDecode`) |
| `Backend.FramesDecode` | backend/app.py:85-88 | an event-stream receiver reads data frames then the end frame back as one event per word and then the "end" event |
| `Backend.EchoStreamDecodes` | backend/app.py:82-89 | a browser receives "Echo: ", then each word of the message with one space, as "message" events, then exactly one "end" event with empty data |
| `Backend.DataFrameLines` | backend/app.py:86 | a data frame for a word is one `data:` line and one blank line |
| `Backend.EndFrameLines` | backend/app.py:88 | the end frame is the lines `event: end`, `data: ` and a blank line |
| `Sse.DataEvent` | backend/app.py:86 | a `data: v` line and a blank line dispatch one "message" event carrying exactly `v` |
| `Sse.EndEvent` | backend/app.py:88 | `event: end`, an empty data line and a blank line dispatch one "end" event with empty data |
| `Sse.LinesCons` | backend/app.py:86 | a line without CR or LF followed by LF is split off as one line |
| `Text.SplitYieldsWords` | backend/app.py:85 | no piece of `str.split()` is empty or contains whitespace |
| `Text.SplitSpaceAfterEach` | backend/app.py:68-69 | re-splitting the concatenated `word + " "` chunks gives back the words |
| `Text.SplitJoinSpaced` | backend/app.py:85 | `str.split()` undoes joining words with single spaces |
| `Text.Trim` | backend/app.py:39 | the trimmed text is empty iff the input is all whitespace; otherwise it starts and ends with non-whitespace and sits inside the input with only whitespace around it |
| `Text.LowerIdempotent` | backend/static/seep-widget.js:15 | lower-casing twice is lower-casing once |
| `Text.LowerHasNoCapital` | backend/static/seep-widget.js:15 | no ASCII capital letter survives `toLowerCase` |
| `Text.ContainsLowerIgnoresCase` | backend/static/seep-widget.js:48 | for a lower-case pattern, searching the lower-cased text finds a match exactly when the text matches the pattern somewhere with letter case ignored, as `/…/i.test` does |
| `Text.ContainsIffOccurs` | backend/static/seep-widget.js:16-18 | the literal search used for each regex alternative succeeds exactly when the pattern occurs at some offset |
| `Text.SplitKeepsText` | backend/app.py:68 | `str.split()` drops only whitespace: its pieces put back together are the input with every whitespace character deleted |

## Left out

- DOM construction, CSS, scrolling, click and key wiring, the input hint and the typing indicator are not modelled. The pane is the sequence of elements appended to it.
- `fetch`, the stream reader, `TextDecoder`, the analytics `track` calls and `localStorage` are browser I/O. Decoded chunks, a failure, and the parsed JSON are inputs.
- `JSON.parse` is the parameter `parseJson`. Only a truthy string `text` and the `buttons` list are modelled.
- JavaScript values that are not strings or arrays are not modelled: numbers, objects and `undefined` are folded into "". This includes a JSON error body in the chat page in which neither `message` nor `error` is truthy (such as `{}`): there `err.message || err.error` shows `undefined`, and the model shows "". A non-JSON error body makes `response.json()` throw and is modelled (`ErrorNotJson`, shown as "Bot is unavailable. Check server/API key.").
- Lower-casing covers only A-Z. Full Unicode case mapping is not modelled.
- `init(null)` throws in the widget script. The model always receives a configuration.
- Sends that overlap in time are not modelled. The model runs them one after another, although the page still accepts Enter while `loading` is set.
- A `reader.read()` rejection in either widget script is not modelled, whenever it happens, including before the first chunk when no bubble exists yet. The read loop is not chained into the `.catch`, so the rejection goes unhandled: no "Error" line appears, and the widget's typing indicator stays on screen. `Response.Failed` covers only a failed `fetch`, a non-OK status and `getReader`. In the chat page a reader failure is caught and modelled as the `broken` flag.
- Flask routing, CORS, `time.sleep`, printing and tracebacks are framework plumbing and timing.
- What the server answers once an exception escapes a view during streaming (Werkzeug's own 500 page, or the debugger page under `debug=True`) is server behaviour. `Backend.ChatStream` only records that the error escaped, with its text.
- The OpenAI/OpenRouter client is a foreign network library. It is the parameter `complete`, and an exception from any later step, such as `.strip()` on a missing content, counts as `Raised`.
- Request fields other than strings are not modelled, nor is `user_input` reaching the model.
- From the event-stream receiver: reconnection, the `retry` field, and the reordering of chunks by the network. The receiver reads the whole body at once.
- backend/models.py and reset_db.py are not part of this model. They hold persistence only.
- The other frontend files are not part of this model. They are UI, routing, authentication round trips and settings.

## Findings

| source | as written | input that shows it | evidently intended | confidence | as-written member | corrected member |
|---|---|---|---|---|---|---|
| backend/app.py:53-77 | the completion is requested inside the lazy `generate()`, which first runs while the response body is iterated, after the view has returned; the provider error escapes the view during streaming, so the `except` branch's JSON is never sent | any usable body while the provider call fails (an invalid API key, or the network down): the error leaves the view instead of producing `{"error": ...}` | a failing completion answered as 500 with `{"error": ...}`, as the `except` branch is written to do | medium, not executed | `Backend.ChatStream` | `Backend.ChatStreamEager` |
