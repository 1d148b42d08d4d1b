# Coded For You site: a verified model of its behaviour

The Coded For You website is a single-page marketing site for an AI-automation
agency. It is written as one React component file, `src/App.jsx`. Almost all of
that file is layout, styling and animation. Four pieces of it have behaviour
that can be stated:

- **The chat widget** (`Chatbot`). It keeps an ordered transcript of user and
  assistant turns, a text box and a `loading` flag. It sends the whole
  transcript to a text-generation endpoint and appends exactly one reply.
  A send is ignored when the text is empty or a request is already in flight.
  `chat.dfy` models it as the class `Chat.Chatbot`. The network call is not
  made. An accepted send returns the request it would submit. The call's
  outcome is fed back through `Complete`.
- **The testimonials carousel** (`Testimonials`). It shows one of eight cards.
  The index moves by the clamped previous and next arrows, by one dot per card,
  and by a swipe. A swipe records the start at touch-start and compares it
  with the end at touch-end, against a 40-pixel threshold. `carousel.dfy`
  models it as the class `Carousel.Testimonials`.
- **The booking hand-off** (`BookingModal.handleBook`, `waLink`). It composes a
  greeting from optional name, business and note fields and the chosen
  service's prefilled text. It then opens a WhatsApp deep link that carries
  that text. `booking.dfy` models this with pure functions. It relies on
  `text.dfy`, ECMAScript's `String.prototype.trim`, and on `uri_encoding.dfy`,
  ECMAScript's `encodeURIComponent`. The encoder does UTF-8 (RFC 3629,
  section 3) followed by percent-encoding (RFC 3986, section 2.1). A decoder
  is modelled as its inverse.
- **Viewport predicates** (`useIsMobile`, `useScrolled`, the hero's rotating
  word). `viewport.dfy` models them as pure functions, with lemmas about
  boundaries, monotonicity and the rotation period.

`wrappers.dfy` holds the `Option` datatype the other modules share.

Modelling choices:
- Touch positions (`clientX`) and the scroll offset are `real`. The browser
  reports them as doubles. The subtraction `startX - clientX` in the touch-end handler is an IEEE double subtraction, which rounds; the model's `dx` is the exact difference, so a swipe within one unit in the last place of ±40 pixels may fall on the other side of the threshold in the browser. That rounding is not modelled. The window width
  is an `int`.
- The network outcome is an input, `Chat.Outcome`. `Replied(Some(t))` means the
  response's first content segment had text `t`. `Replied(None)` means the
  response had no such text (an error body, a missing segment). `Threw` means
  anything in the request's `try` block threw: `fetch`, `res.json()`, or
  reading `data.content` from a body that parsed to `null`.
- `Chat.Chatbot.Complete` requires `loading`. In the source, the completion
  code runs only after an accepted send, and nothing else changes the
  transcript while the request is in flight.

## Model

| member | source | states |
|---|---|---|
| `Chat.ReplyText` | src/App.jsx:2310-2317 | The assistant reply is never empty. It is the first segment's text when that is present and non-empty. It is the fixed "Sorry, I had trouble connecting…" text when the response carried no text or an empty one, and the fixed "Looks like I lost connection…" text when the call threw. |
| `Chat.ExtendWellFormed` | src/App.jsx:2266-2271 | Appending a non-empty turn of the role due next keeps the transcript greeting-first and alternating. |
| `Chat.Chatbot.constructor` | src/App.jsx:2266-2273 | The widget starts idle, with the greeting as its only turn and an empty text box. |
| `Chat.Chatbot.SetInput` | src/App.jsx:2486 | Typing replaces the text box's content. |
| `Chat.Chatbot.SendText` | src/App.jsx:2292-2307 | Empty text, or a send while loading, changes nothing and submits nothing. Otherwise the transcript grows by exactly one user turn holding the text, the text box is cleared, loading is set, and the request carries model id, token budget and the transcript including the new turn, in order. The alternation invariant is kept. |
| `Chat.Chatbot.Send` | src/App.jsx:2320-2321 | The typed text is trimmed first. Blank input (all white space) is rejected with no change. Otherwise the trimmed text becomes the new user turn. |
| `Chat.Chatbot.QuickRepliesShown` | src/App.jsx:2460 | The suggestions (`messages.length <= 2 && !loading`) are shown exactly when the greeting is the whole transcript. |
| `Chat.Chatbot.ChooseQuickReply` | src/App.jsx:2461-2463 | Pressing a shown suggestion is always accepted. It sends the suggestion's text as the first user turn and enters the awaiting-reply state. |
| `Chat.Chatbot.Complete` | src/App.jsx:2308-2318 | Exactly one assistant turn, `ReplyText(outcome)`, is appended. Earlier turns are unchanged, loading is cleared in every case, and the widget is back in a well-formed idle state. |
| `Carousel.StepBack` | src/App.jsx:1296 | `Math.max(0, i - 1)` never goes below 0. It moves one card back from any positive index, and it leaves the index unchanged exactly when the index is 0. |
| `Carousel.StepForward` | src/App.jsx:1297 | `Math.min(n - 1, i + 1)` never passes `n - 1`. It moves one card on below the last, and it leaves the index unchanged exactly at `n - 1`. |
| `Carousel.ForwardTimesClamps` | src/App.jsx:1297 | `k` presses of next from a valid index reach `min(i + k, n - 1)`. |
| `Carousel.BackTimesClamps` | src/App.jsx:1296 | `k` presses of previous from index `i` reach `max(i - k, 0)`. |
| `Carousel.Testimonials.constructor` | src/App.jsx:1292-1294 | The carousel starts on card 0, with no touch recorded. |
| `Carousel.Testimonials.Prev` | src/App.jsx:1296-1311 | The index stays in `[0, 8)`. It is unchanged exactly when the previous arrow is shown disabled (`active === 0`), and otherwise it drops by one. |
| `Carousel.Testimonials.Next` | src/App.jsx:1297-1311 | The index stays in `[0, 8)`. It is unchanged exactly when the next arrow is shown disabled (`active === length - 1`), and otherwise it rises by one. |
| `Carousel.Testimonials.PrevDisabled` | src/App.jsx:1311 | No contract of its own. The disabled state of the previous arrow (`active === 0`). `Prev` proves that pressing it changes nothing exactly when it is disabled. |
| `Carousel.Testimonials.NextDisabled` | src/App.jsx:1311 | No contract of its own. The disabled state of the next arrow (`active === length - 1`). `Next` proves that pressing it changes nothing exactly when it is disabled. |
| `Carousel.Testimonials.SelectDot` | src/App.jsx:1394 | A dot exists for each card, and pressing it shows that card. |
| `Carousel.Testimonials.TouchStart` | src/App.jsx:1299 | Records where the touch began. |
| `Carousel.Testimonials.TouchEnd` | src/App.jsx:1300-1306 | With no recorded start, nothing changes. Otherwise, with `dx = start - end`: `dx > 40` acts as next, `dx < -40` acts as previous, and anything in between leaves the index. The start is then cleared and the index stays in range. |
| `Booking.Who` | src/App.jsx:2094 | The greeting uses the name exactly as typed, untrimmed, and falls back to "a potential client" only for the empty string. |
| `Booking.BookingMessage` | src/App.jsx:2094 | No contract of its own. The lemmas below carry its properties: `GreetingPrefix`, `EmptyNameIsDefault`, `BusinessClausePresent`/`Absent`, `NoteClausePresent`/`Absent`, `MessageLength`, `NoteOnlyMattersTrimmed`, `BlankNoteIsNoNote` and `NoteDeterminesMessage`. |
| `Booking.FromClause` | src/App.jsx:2094 | The " from …" clause is empty exactly when the business field is empty, and otherwise it ends with the business as typed. |
| `Booking.InfoClause` | src/App.jsx:2093-2094 | The "Additional info" paragraph is empty exactly when the trimmed note is empty, and otherwise it ends with the trimmed note. |
| `Booking.GreetingPrefix` | src/App.jsx:2094 | The message starts with "Hi! I'm " and the name, or the default name when the field is empty. |
| `Booking.MessageLength` | src/App.jsx:2094 | The message is exactly as long as the greeting, the name, the business clause if present, the blank line, the service's text and the note paragraph if present. |
| `Booking.EmptyNameIsDefault` | src/App.jsx:2094 | An empty name gives the same message as the name "a potential client". |
| `Booking.BusinessClausePresent` | src/App.jsx:2094 | With a business, the message starts "Hi! I'm <who> from <business>.\n\n". |
| `Booking.BusinessClauseAbsent` | src/App.jsx:2094 | Without a business, the message starts "Hi! I'm <who>.\n\n" followed by the service's text. |
| `Booking.NoteClausePresent` | src/App.jsx:2093-2094 | With a non-blank note, the message ends with ".\n\n", the service's text, "\n\nAdditional info: " and the trimmed note. |
| `Booking.NoteClauseAbsent` | src/App.jsx:2093-2094 | With a blank note, the message ends with ".\n\n" and the service's text. |
| `Booking.NoteOnlyMattersTrimmed` | src/App.jsx:2093 | Replacing the note by its trimmed form does not change the message. |
| `Booking.BlankNoteIsNoNote` | src/App.jsx:2093-2094 | A note of white space only adds nothing to the message. |
| `Booking.NoteDeterminesMessage` | src/App.jsx:2093-2094 | For fixed name, business and service, two notes give the same message if and only if they trim to the same text. |
| `Booking.WaLink` | src/App.jsx:195 | The link starts with `https://wa.me/27619229670?text=`. Every character after that prefix is unreserved, `%` or a hex digit, so the message cannot spill out of the `text` parameter. |
| `Booking.WaLinkRoundTrip` | src/App.jsx:195 | Decoding the `text` parameter of `waLink(msg)` gives back `msg`, for every message. |
| `Booking.BookingUrl` | src/App.jsx:2095 | The URL handleBook opens equals `waLink` of the composed message, and it decodes back to that message. |
| `UriEncoding.Utf8` | src/App.jsx:195 | A character's UTF-8 encoding has 1 to 4 bytes. It is a single byte equal to the code point exactly for ASCII, and all bytes after the first are continuation bytes. |
| `UriEncoding.Utf8RoundTrip` | src/App.jsx:195 | Decoding a character's UTF-8 encoding gives that character back. |
| `UriEncoding.HexDigit` | src/App.jsx:195 | Escapes use upper-case hex digits, and each reads back as the value it encodes. |
| `UriEncoding.EncodeChar` | src/App.jsx:195 | What encodeURIComponent writes for one character is URI-safe (unreserved, `%` or an upper-case hex digit). An unreserved character, and only an unreserved one, is written as itself; any other becomes three characters per UTF-8 byte. The output decodes back to exactly that character. |
| `UriEncoding.DecodeEncodedChar` | src/App.jsx:195 | Decoding what was written for one character yields that character and resumes right after it. |
| `UriEncoding.EncodeUriComponent` | src/App.jsx:195 | The encoding is never shorter than the input. `UriRoundTrip` proves it is undone by decoding, and `EncodingIsUriSafe` proves it is URI-safe. |
| `UriEncoding.UriRoundTrip` | src/App.jsx:195 | `decodeURIComponent(encodeURIComponent(s)) == s` for every string. |
| `UriEncoding.EncodingIsUriSafe` | src/App.jsx:195 | Every character the encoder emits is unreserved, `%` or an upper-case hex digit. |
| `Text.LeadingWhiteSpace` | src/App.jsx:2093 | Counts the run of white space the input starts with: every character in it is white space, and the character after it, if any, is not. |
| `Text.TrailingWhiteSpace` | src/App.jsx:2093 | Counts the run of white space the input ends with: every character in it is white space, and the character before it, if any, is not. |
| `Text.Trim` | src/App.jsx:2093 | The result has no white space at either end. |
| `Text.TrimIsInfix` | src/App.jsx:2093 | The result is a contiguous piece of the input, with only white space cut on either side. |
| `Text.TrimEmptyIffBlank` | src/App.jsx:2093 | Trimming gives the empty string exactly when the input is all white space. |
| `Text.TrimOfTrimmed` | src/App.jsx:2093 | A string with no white space at either end is left unchanged. |
| `Text.TrimIdempotent` | src/App.jsx:2093 | Trimming twice is the same as trimming once. |
| `Viewport.IsMobile` | src/App.jsx:16-19 | No contract of its own. `IsMobileBoundary` and `IsMobileMonotone` carry its properties: the breakpoint width itself is narrow, one pixel more is wide, and the narrow widths are exactly those below some cut-off. |
| `Viewport.IsMobileBoundary` | src/App.jsx:14-19 | A width equal to the breakpoint is narrow and one pixel more is wide: 768/769 by default, 600/601 for the carousel. |
| `Viewport.IsMobileMonotone` | src/App.jsx:16-19 | A narrower window than a narrow one is narrow, and a wider window than a wide one is wide. |
| `Viewport.ScrolledBoundary` | src/App.jsx:28-35 | Exactly 50 pixels is not scrolled. Scrolled means strictly more than 50. |
| `Viewport.ScrolledMonotone` | src/App.jsx:35 | Scrolling further down never clears the scrolled flag. |
| `Viewport.Scrolled` | src/App.jsx:35 | No contract of its own. `ScrolledBoundary` and `ScrolledMonotone` carry its properties: strictly past the threshold, never at it, and monotone in the offset. |
| `Viewport.NextWord` | src/App.jsx:480 | The next word index is in range. It is one more below the last, and it wraps to 0 after the last. |
| `Viewport.WordAfter` | src/App.jsx:480 | After at least one tick the index is in `[0, n)`, whatever index it started from. `WordAfterClosedForm` and `WordRotationPeriod` carry the rest. |
| `Viewport.WordAfterClosedForm` | src/App.jsx:476-480 | After `t` ticks from a valid index `i`, the index is `(i + t) % n`, which stays in `[0, n)`. |
| `Viewport.WordRotationPeriod` | src/App.jsx:480 | The headline shows the same word again every `n` ticks. |

## Left out

- Rendering, inline styles, CSS and animation props are left out. They are presentation and have no behaviour to state.
- The `fetch` call, its headers, JSON parsing and `window.open` are left out as I/O. The call's result is the `Chat.Outcome` input, and handleBook's URL is returned rather than opened.
- `Chat.Request` does not carry the fixed persona prompt sent as `system`. That prompt is marketing copy, and every request carries the same one.
- Timers and event plumbing are left out, because they are scheduling in the browser's event loop: the loading screen, the unread-badge pulse, the hero's 2.5-second interval, `matchMedia` listeners and `requestAnimationFrame` scroll coalescing. Only the values they compute are modelled: `IsMobile`, `Scrolled`, `NextWord`.
- The chat widget's open/closed toggle, the unread counter, focus and scroll-into-view are left out. They are display state with no effect on the transcript.
- React's batching and stale closures are not modelled. Each event is assumed to see the state the previous event committed, so two sends within one render cannot both pass the `loading` check.
- The floating-point pieces are left out: the hex opacity of `GlowCircle` and the one-decimal average rating of the testimonials.
- The static content arrays are not modelled as data. A service enters the model as a parameter whose prefilled text is its `msg`, and the counts (8 testimonials, 3 hero words) are constants or parameters. The page text itself is not modelled.
- useIsMobile's initial value when there is no `window` (server-side rendering, always `false`) is not modelled. The model assumes a browser, where the first value is `IsMobile` of the current width.
- `UriEncoding.EncodeUriComponent` covers only strings of Unicode scalar values. The one input on which `encodeURIComponent` throws, a lone UTF-16 surrogate, cannot be written as a Dafny string.
- vite.config.js is bundler configuration and is not part of this model.
