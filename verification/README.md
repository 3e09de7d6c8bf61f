# Movie-search Telegram bot: a Dafny model of its event handlers

The bot lets members of a Telegram channel search a movie catalog and get
download links. It is one event-driven script. Each incoming update is handled
on its own:

- A text message first passes a subscription gate. The gate asks the platform
  for the sender's membership status in the configured channel.
- If the sender is subscribed, the text is sent to the catalog's search
  endpoint. Each result comes back as a photo message with a "Download"
  button.
- Pressing that button sends the payload `download_<id>` back to the bot. The
  bot fetches the item's download record and replies with a formatted message.
- Two text-pattern handlers answer `/start` and `/help` with fixed texts.

The model treats every network answer as an input and every outbound effect
as data.

- **Inputs.** The `Answers` record holds the member status or error, and the
  search and fetch outcomes, each `Found(value)`, `FieldMissing` or
  `RequestFailed`.
- **Outputs.** A handler returns a `Trace`: the requests it awaits, in order,
  then the messages it sends, in order. The code sends nothing before its last
  awaited request, so this split loses no ordering.
- **Failure.** A handler that throws is `Crashed`.

Modules:

- `Text`: the JavaScript string operations used: `startsWith`, literal regex
  containment, `split` on one character, and `join`.
- `Config`: the start-up check of the three secrets and the "Join Channel" link.
- `Gate`: `isUserSubscribed`.
- `Catalog`: catalog items, download records, and how search and fetch
  answers are normalised.
- `Payload`: the `download_<id>` button payload and its `split('_')[1]`
  decoding.
- `Render`: the photo caption and the download-record message, each also
  described by the list of lines it splits into.
- `Bot`: the message, callback and text-pattern handlers, and the routing of
  one update.

Behaviour of the code that the model keeps and proves:

- The subscription gate fails closed. Only `member`, `administrator` and
  `creator` pass. Any other status, or an error, denies.
- Text starting with `/` is ignored by the general handler: no request is
  made and nothing is sent. `/start` and `/help` are matched anywhere in the
  text, not only at its start. So `watch /start` gets the welcome message and
  is also searched.
- For a user who is not subscribed, the general message handler issues
  exactly one send call. It carries one "Join Channel" button, and no search
  is made. A `/start` or `/help` reply may be sent besides.
- For a subscribed user, the general message handler issues one photo send
  per result, in result order. Its only other outcome is a single "No
  results found or an error occurred." send. That send covers three cases:
  the search failed, the result field was missing, or the list was empty.
  Again, a `/start` or `/help` reply may be sent besides.
- Button presses are not gated. The callback handler never asks for
  membership.
- The payload round-trips only for ids without `_`. Otherwise only the part
  before the id's first `_` is fetched. A payload without any `_` makes the
  bot fetch the id `undefined`. The tag before the first `_` is never checked.
- The download message renders only the Telegram link group. If that group is
  empty, the message ends with "No download links available.".

Three details of the code are easy to misread:

- **Link groups.** A download record has three link groups, but only
  `telegramLinks` is rendered. `driveLinks` and `otherLinks` never appear.
- **Channel link.** The comment at index.js:113 says `slice(1)` removes the
  `@`. In fact it drops the first character whatever it is.
- **Payload parsing.** The id is the second `_`-separated piece of the
  payload. An id that contains `_` is therefore cut at its first `_`.

## Model

| member | source | states |
|---|---|---|
| Config.LoadConfig | index.js:6-14 | the bot starts only when all three variables are set and non-empty, and then holds exactly their values |
| Config.JoinUrl | index.js:113 | the join link is `https://t.me/` followed by the channel id without its first character |
| Config.DropFirst | index.js:113 | `slice(1)`: a non-empty string is its first character followed by the result; the empty string gives the empty string |
| Config.JoinUrlDropsFirstCharacter | index.js:113 | the first character of the channel id is dropped whether or not it is `@`; a different first character is lost from the link |
| Gate.IsUserSubscribed | index.js:28-35 | subscribed exactly when the platform answered with status member, administrator or creator; every error denies (fail closed) |
| Gate.OutsidersDenied | index.js:31 | the statuses left, kicked and restricted, and the empty status, are denied |
| Catalog.SearchMovies | index.js:39-49 | the search yields null exactly when the request failed; a missing result field becomes the empty list; a found list is passed through unchanged |
| Catalog.FetchDownloadLinks | index.js:52-62 | the fetch yields a record exactly when the result field was found, and then that record; a missing field and a failure both yield null |
| Text.Split | index.js:154 | `split` on one character returns at least one piece; no piece contains the separator; there is more than one piece exactly when the separator occurs; joining the pieces with the separator gives back the string |
| Text.SplitJoin | index.js:154 | splitting undoes joining for a non-empty list whose elements do not contain the separator |
| Payload.Encode | index.js:139 | a button payload is `download_` followed by exactly the id |
| Payload.RequestId | index.js:154-157 | the id text placed in the fetch is the decoded id, or `undefined` when there is none, as a template literal renders it |
| Payload.Decode | index.js:154 | decoding yields nothing (JavaScript `undefined`) exactly when the payload has no `_`; a decoded id never contains `_` |
| Payload.DecodeEncode | index.js:139-154 | decoding the payload of an id yields the part of the id before its first `_`; this is the whole id exactly when the id has no `_` |
| Payload.RoundTrip | index.js:139-157 | for an id without `_`, the id the callback handler fetches is the id the button was made for |
| Payload.TagIgnored | index.js:154 | any `_`-free tag in front of the id decodes to the same id as `download` does |
| Payload.NoDelimiterAsksForUndefined | index.js:154-157 | a payload without `_` makes the handler fetch the id `undefined` |
| Render.Caption | index.js:129 | the caption is the bold-title line and the type line, each ended by a line break |
| Render.CaptionLines | index.js:129 | a result caption is exactly two lines, the bold title then the type, each ended by a line break |
| Render.LinkText | index.js:167 | a link line is exactly the marker, the quality in bold, the size in parentheses and ` - `, followed by the Markdown link `[Download](url)`; it fits on one line when the link's fields do |
| Render.LinkLines | index.js:166-168 | the appended link lines are the link texts, in list order, each followed by a line break |
| Render.LinksSection | index.js:164-171 | the section is the no-links notice exactly when there are no Telegram links, and otherwise starts with the heading line |
| Render.DownloadMessage | index.js:161-171 | the message starts with the banner line and ends with the Telegram link section |
| Render.DownloadMessageLines | index.js:161-171 | the download message is, line by line: banner, blank line, date, country, duration, genres joined by ", ", IMDB, TMDB, blank line, and then either the no-links notice or the heading and one line per Telegram link in list order |
| Render.LinkLinesSplit | index.js:164-168 | the link lines are one line per link, in list order |
| Render.NoLinksNoticeIffEmpty | index.js:164-171 | the message ends with "No download links available." exactly when there are no Telegram links |
| Render.OnlyTelegramLinksRendered | index.js:161-171 | changing the drive and other link groups never changes the message |
| Bot.JoinPrompt | index.js:104-119 | the prompt is a plain message with exactly one button, "Join Channel", whose URL is `https://t.me/` plus the channel id without its first character |
| Bot.ResultCard | index.js:129-144 | a result card is a Markdown photo of the item's image with its caption and exactly one "Download" button whose payload decodes to the id up to its first `_`, and to the whole id when it has no `_` |
| Bot.ResultCards | index.js:128-145 | one photo card per search result, in list order |
| Bot.HandleMessage | index.js:89-149 | missing text throws; text starting with `/` does nothing; otherwise membership is asked first; a search happens exactly when the sender is subscribed, and the search text is the message text; for a user who is not subscribed exactly the join prompt is issued; for a subscribed user one card per result is issued, in order, or exactly one "no results" message when the search failed, the field was missing or the list was empty |
| Bot.HandleCallback | index.js:152-180 | a button press makes exactly one fetch, for the decoded id, and sends exactly one message: the rendered record (Markdown, previews off) when a record was found, otherwise the fetch-failed notice |
| Bot.CommandReplies | index.js:64-86 | the welcome reply is sent exactly when the text contains `/start` anywhere; the help reply is sent exactly when it contains `/help` anywhere; nothing else is sent, one reply per matching pattern |
| Bot.HandleUpdate | index.js:64-152 | a message reaches the pattern handlers and the general handler; a button press reaches only the callback handler, so it fetches the decoded id, sends one reply, and is never gated; any other update causes nothing |
| Bot.ButtonFetchesItsResult | index.js:128-157 | pressing the i-th card's button fetches that result's id exactly when the id has no `_`; otherwise it fetches the part of the id before the first `_` |
| Bot.PatternTextAlsoSearched | index.js:65-124 | text that mentions `/start` but does not start with `/` gets the welcome reply and is searched verbatim for a subscribed sender |
| Bot.WatchStartIsBoth | index.js:65-124 | `watch /start` mentions `/start` without starting with `/`, so a subscribed sender gets the welcome reply and a search for `watch /start` |
| Bot.UnknownCommandIgnored | index.js:64-97 | a `/` text that mentions neither `/start` nor `/help` gets no reply and causes no request |
| Bot.TextlessMessageCrashes | index.js:92-95 | a message without text makes the general handler throw before doing anything, and no pattern handler fires |
| Bot.DeadpoolSearch | index.js:124-145 | worked example: a member searching "Deadpool" with one result of id 7 gets one photo whose button carries `download_7` |
| Bot.DeadpoolPress | index.js:154-157 | worked example: the payload `download_7` fetches id `7` |

## Left out

- Bot construction, long polling and the reconnect after a polling error
  (index.js:17-25). These are transport lifecycle and timers.
- Logging (`console.error`, `console.log`).
- The HTTP requests themselves, including the URLs, the API key parameter and
  `encodeURIComponent`. A request is recorded only by the search text or the
  id it carries. Its outcome is an input.
- The Telegram SDK calls `getChatMember`, `sendMessage` and `sendPhoto`.
  They appear only as emitted `Query` and `Send` records.
- Delivery of sends. `sendMessage` and `sendPhoto` are never awaited, so
  sends are fire-and-forget. A `Trace` lists send calls in the order they are
  issued. It does not model the order Telegram delivers them in, a send
  that is rejected and lost (a bad image URL, a user who blocked the bot), or
  the unhandled rejection behind `Crashed`.
- Order between the text-pattern replies and the general handler's sends.
  That order is decided by the messaging library, which is not part of this
  model. `Reaction` keeps the two apart.
- Order between concurrent updates. The model handles one update at a time.
- Malformed catalog data. Item and record fields hold the text JavaScript
  would interpolate, so an absent field is the text `undefined`. A `genres`
  that is not a list, or a missing `links` object, would throw in the code.
  The model's record type always has them.
- A falsy value other than a missing field in a result slot (`0`, `""`) is
  covered by `FieldMissing`.
- Callback updates without `data` or without `message`. The bot's own buttons
  always carry both.
- Markdown escaping of titles and link fields (the code does none). Telegram's
  rendering of Markdown is also not modelled.
- String units. JavaScript strings count UTF-16 code units and Dafny strings
  count Unicode scalar values. This only matters for `slice(1)` on a channel
  id that starts with a character outside the Basic Multilingual Plane.
- Config.JoinUrl: the length clause counts scalar values, not UTF-16 units,
  for the reason above.
