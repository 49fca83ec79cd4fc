# Portfolio message intake and page state, in Dafny

This project models the two pieces of a personal portfolio site that carry logic.

- **The message endpoint** (`POST /api/message`, module `MessageRoute`). A visitor's message passes an ordered chain of checks:
  1. the body is JSON;
  2. `message` is a string;
  3. the trimmed message is not empty;
  4. it is at most 500 UTF-16 code units;
  5. the webhook URL is configured;
  6. the client's key is not in its 5000 ms cooldown.

  The first failing check decides the HTTP status. A submission that passes the cooldown check records the current time in the process-wide ledger `rateLimitByIp` before the relay to the chat webhook. A relay that fails (502) or whose `fetch` throws (the framework's 500) therefore still uses up the cooldown. The client key comes from `x-forwarded-for`, then `x-real-ip`, then `"unknown"`.
- **The home page's interaction state** (module `HomePage`):
  - the project-gallery filter and its two toggle buttons;
  - the hover/tap expansion of experience cards;
  - the experience-title font size, which only shrinks until a window resize resets it to 30;
  - the message box, whose send is skipped while a send is in flight or when the text is blank, and which is cleared only after a successful response.

Module `JsString` gives the two JavaScript string operations the route relies on: `trim` (removing JavaScript's WhiteSpace and LineTerminator code points) and `length` (in UTF-16 code units).

The framework and the outside world are inputs:
- the parsed body is an `Option<Json>`, where `None` means `request.json()` threw;
- headers are a map keyed by lower-case name;
- the clock reading `now` is an integer;
- the configured webhook URL is an `Option<string>`;
- the relay's answer is one of three: a response with `ok`, one without, or a thrown error. `Post` returns the relay call it makes (`sent`), so "no relay call" can be stated.

`MessageRoute.Handle` is the reference definition of one call. `Route.Post` implements the same behaviour with the handler's early returns over the mutable ledger and is proved equal to it. The lemmas state the route's properties about `Handle`.

Behaviour of the code that the model keeps, and that a reader might not expect:
- If the first `x-forwarded-for` entry is blank after trimming, the key is `"unknown"`. It does not fall back to `x-real-ip`.
- An `x-real-ip` that is present but empty gives the empty key.
- A body that parses to JSON `null` makes `body.message` throw outside the `try`. The result is the framework's 500, not a 400. This is outcome `Crashed`.
- The relay `fetch` is awaited outside any `try`. If it rejects, the handler throws after the ledger write: the framework's 500 (outcome `Crashed`), with the cooldown used up.
- An empty webhook URL counts as unset.
- A stored timestamp of 0 is falsy, so it blocks nothing.
- The 500 limit is counted in UTF-16 code units, not characters.

## Model

| member | source | states |
|---|---|---|
| JsString.TrimStart | src/app/api/message/route.ts:29 | leading half of `trim`; its meaning is stated by `TrimStartSpec` |
| JsString.TrimEnd | src/app/api/message/route.ts:29 | trailing half of `trim`; its meaning is stated by `TrimEndSpec` |
| JsString.Trim | src/app/api/message/route.ts:29 | `String.prototype.trim`; its meaning is stated by `TrimSpec`, `TrimIdempotent` and `TrimEmptyIff` |
| JsString.Utf16Length | src/app/api/message/route.ts:34 | `String.prototype.length` in UTF-16 code units; stated by `Utf16LengthBounds`, `Utf16LengthBasicPlane`, `Utf16LengthAppend` |
| JsString.TrimStartSpec | src/app/api/message/route.ts:29 | leading-whitespace removal keeps the longest suffix that does not start with whitespace; everything dropped is whitespace |
| JsString.TrimEndSpec | src/app/api/message/route.ts:29 | trailing-whitespace removal keeps the longest prefix that does not end with whitespace; everything dropped is whitespace |
| JsString.TrimSpec | src/app/api/message/route.ts:29 | `trim` returns an infix of the input that neither starts nor ends with whitespace, and everything cut off on either side is whitespace |
| JsString.TrimIdempotent | src/app/api/message/route.ts:29 | trimming twice equals trimming once |
| JsString.TrimEmptyIff | src/app/api/message/route.ts:29-32 | a string trims to empty exactly when it is whitespace throughout |
| JsString.TrimOfTrimmed | src/app/api/message/route.ts:29 | a string with no whitespace at either end is its own trim |
| JsString.Utf16LengthBounds | src/app/api/message/route.ts:34 | the UTF-16 length lies between the number of characters and twice that |
| JsString.Utf16LengthBasicPlane | src/app/api/message/route.ts:34 | without characters above U+FFFF, `length` is the number of characters |
| JsString.Utf16LengthAppend | src/app/api/message/route.ts:34 | UTF-16 length is additive over concatenation |
| JsString.Utf16LengthSlice | src/app/api/message/route.ts:34 | a slice is never longer in UTF-16 units than the whole string |
| JsString.TrimShortens | src/app/api/message/route.ts:29-34 | trimming never increases the UTF-16 length |
| MessageRoute.Status | src/app/api/message/route.ts:22-71 | 200 exactly on success; 400 exactly for the four input errors; 429 exactly for the cooldown; 500 exactly for a missing webhook or an uncaught exception (null body, or a relay `fetch` that throws); 502 exactly for a relay answering not ok |
| MessageRoute.ErrorText | src/app/api/message/route.ts:22-68 | the error text of each rejection, as the handler writes it |
| MessageRoute.Respond | src/app/api/message/route.ts:22-71 | the reply carries the outcome's status, with body `{ok: true}` on success, `{error: text}` on a rejection, and no JSON body only for the uncaught exception |
| MessageRoute.HeaderOr | src/app/api/message/route.ts:47-51 | `headers.get(name) ?? "unknown"`; stated through `NotificationHeaderIndependent` and `NotificationDefaults` |
| MessageRoute.FirstEntry | src/app/api/message/route.ts:11 | the first comma-separated entry is the longest comma-free prefix of the header |
| MessageRoute.NotificationFor | src/app/api/message/route.ts:46-51 | the relay payload: the trimmed message, the client key and five origin fields; stated by the two lemmas below |
| MessageRoute.NotificationHeaderIndependent | src/app/api/message/route.ts:46-51 | setting one header changes only the payload fields read from it (the key reads two headers), and a field whose header is set reports that value |
| MessageRoute.NotificationDefaults | src/app/api/message/route.ts:47-51 | the payload's `ip` is the client key `ClientIp`, and each origin field whose header is absent reports "unknown", independently of the others |
| MessageRoute.ClientIp | src/app/api/message/route.ts:8-14 | `getClientIp`; stated by `ForwardedForKey`, `RealIpKey` and `ForgedForwardedFor` |
| MessageRoute.ForwardedForKey | src/app/api/message/route.ts:9-12 | with a non-empty `x-forwarded-for`, the key is "unknown" when the first entry is blank; otherwise it is exactly `Trim` of that entry, which is non-empty, comma-free, already trimmed and a piece of the entry. `x-real-ip` is then ignored |
| MessageRoute.RealIpKey | src/app/api/message/route.ts:13 | without a non-empty `x-forwarded-for`, the key is `x-real-ip`, or "unknown" when that header is absent |
| MessageRoute.ForgedForwardedFor | src/app/api/message/route.ts:9-11 | any non-empty, comma-free, trimmed value the client sends as `x-forwarded-for` becomes its key, so the key is spoofable |
| MessageRoute.HasStringMessage | src/app/api/message/route.ts:25 | `typeof body.message === "string"` on a non-null body; used by `Validate` and `NonStringMessageRejected` |
| MessageRoute.Configured | src/app/api/message/route.ts:41-42 | `!webhookUrl` is false: set and non-empty; used by `Validate` and `UnconfiguredNeverRelays` |
| MessageRoute.Validate | src/app/api/message/route.ts:19-44 | the stateless checks pass exactly when the body is a non-null JSON value whose `message` is a string that is not all whitespace, whose trim is at most 500 code units, and the webhook URL is set and non-empty; the result is then the trimmed `message`, which is non-empty and already trimmed. No stateless check yields 200, 429 or 502 |
| MessageRoute.Cooling | src/app/api/message/route.ts:53-54 | `lastSentAt && now - lastSentAt < 5000`; used by `Handle`, `CooldownRejects` and `AcceptedIff` |
| MessageRoute.Handle | src/app/api/message/route.ts:46-71 | a relay is made exactly when the stateless checks pass and the key is not cooling, and then the ledger is the old one with the key set to `now`. Otherwise the ledger is unchanged. What is relayed is the validated message with the request's origin fields. After a relay the outcome is 200, 502 or the uncaught exception exactly as the `fetch` answers ok, not ok, or throws. A call that fails a stateless check ends in that check's outcome, and a validated call whose key is cooling ends in 429 |
| MessageRoute.Route.constructor | src/app/api/message/route.ts:6 | the ledger starts empty |
| MessageRoute.Route.Post | src/app/api/message/route.ts:16-72 | the early-return handler over the mutable ledger returns `Respond` of `Handle`'s outcome and makes `Handle`'s relay call. It leaves the ledger as `Handle` computes it |
| MessageRoute.MalformedBodyRejected | src/app/api/message/route.ts:19-23 | a body that is not JSON gets 400, with no relay and the ledger unchanged |
| MessageRoute.NonStringMessageRejected | src/app/api/message/route.ts:25-27 | a missing or non-string `message` gets 400 "must be a string" (never the empty-message error), with no relay and the ledger unchanged |
| MessageRoute.NullBodyCrashes | src/app/api/message/route.ts:17-25 | a JSON `null` body ends in the uncaught exception: 500, no relay, ledger unchanged |
| MessageRoute.BlankMessageRequired | src/app/api/message/route.ts:29-32 | for any body whose `message` is a string, the handler answers 400 "Message is required." exactly when that string is all whitespace, with no relay and the ledger unchanged |
| MessageRoute.MessageLengthLimit | src/app/api/message/route.ts:34-39 | for any body whose `message` is a non-blank string, the handler answers the too-long 400 exactly when the trimmed UTF-16 length exceeds 500, with no relay and the ledger unchanged |
| MessageRoute.MessageLengthBoundary | src/app/api/message/route.ts:34-39 | a trimmed message of exactly 500 code units passes validation unchanged; 501 is rejected as too long |
| MessageRoute.TrimmedResubmission | src/app/api/message/route.ts:29 | a message already trimmed by the client is judged exactly like the untrimmed one |
| MessageRoute.UnconfiguredNeverRelays | src/app/api/message/route.ts:41-44 | without a configured webhook URL there is no relay, no ledger write and no success. A message that passes the message checks gets 500 `{error: "Discord webhook not configured."}` |
| MessageRoute.CooldownRejects | src/app/api/message/route.ts:52-56 | a validated submission whose key holds a truthy timestamp less than 5000 ms old gets 429, with no relay and the ledger unchanged |
| MessageRoute.AcceptedIff | src/app/api/message/route.ts:52-71 | status 200 exactly when validation passes, the key is not cooling and the relay reports ok |
| MessageRoute.RelayFailureConsumesCooldown | src/app/api/message/route.ts:57-69 | a relay answering not ok gives 502 and one whose `fetch` throws gives 500; either way the key's ledger entry is `now` |
| MessageRoute.LedgerFrame | src/app/api/message/route.ts:57 | a call never adds, removes or changes the ledger entry of any other key |
| MessageRoute.RepeatWithinCooldown | src/app/api/message/route.ts:52-57 | after a call with the same key passed the cooldown at a non-zero time, a valid call less than 5000 ms later gets 429 and changes nothing |
| MessageRoute.RepeatAfterCooldown | src/app/api/message/route.ts:52-57 | a valid call with the same key at least 5000 ms later passes the cooldown and records its own time |
| MessageRoute.KeysIndependent | src/app/api/message/route.ts:53-57 | a call under one key never changes the outcome or the relay of a later call under another key |
| MessageRoute.HelloAccepted | src/app/api/message/route.ts:16-71 | `{"message":"hello"}` from an unrecorded client, with the webhook configured and answering ok, gets 200 `{ok: true}`. The ledger then maps the client to `now` |
| MessageRoute.EmptyMessageScenario | src/app/api/message/route.ts:29-32 | `{"message":""}` gets 400 `{error: "Message is required."}` and leaves the ledger alone |
| HomePage.Shown | src/app/page.tsx:476 | the gallery's filter predicate; stated by `FilterMembership` |
| HomePage.FilterProjects | src/app/page.tsx:476 | `projects.filter(...)`; stated by `FilterIsSubsequence`, `FilterMembership` and `FilterKeepsEveryOccurrence` |
| HomePage.ProjectCatalogue | src/app/page.tsx:37-109 | the `projects` array (`HomePage.Projects`): nine entries, two of category "both", two mechanical, five software, and only the WATonomous entry has a link |
| HomePage.FilterIsSubsequence | src/app/page.tsx:476 | the filtered gallery is an order-preserving subsequence of the project list |
| HomePage.FilterMembership | src/app/page.tsx:476 | a project is shown exactly when it is in the list and the filter is "all", or its category equals the filter, or its category is "both" |
| HomePage.FilterMembershipAll | src/app/page.tsx:476 | the same, for every project at once |
| HomePage.FilterKeepsEveryOccurrence | src/app/page.tsx:476 | a shown project appears in the gallery as many times as in the list; a hidden one not at all |
| HomePage.FilterAllKeepsEverything | src/app/page.tsx:476 | under "all", the gallery is the whole project list, in order |
| HomePage.BothAlwaysShown | src/app/page.tsx:476 | a project of category "both" is shown under every filter |
| HomePage.Toggled | src/app/page.tsx:454-464 | every press changes the filter, and only to "all" or the button's own filter |
| HomePage.ToggleTwice | src/app/page.tsx:454-464 | pressing a button twice restores the filter exactly when "all" or that button's filter was on. From any other filter it ends at "all" |
| HomePage.Clicked | src/app/page.tsx:112-114 | every tap changes the expanded card, and only to none or the tapped card |
| HomePage.ClickOtherCard | src/app/page.tsx:112-114 | a tap on any card other than the expanded one, or with none expanded, expands the tapped card |
| HomePage.ClickSameCard | src/app/page.tsx:112-114 | a tap on the expanded card collapses it |
| HomePage.ClickTwice | src/app/page.tsx:112-114 | two taps on one card restore the state exactly when nothing or that card was expanded |
| HomePage.Shrunk | src/app/page.tsx:126-128 | the new title size is the smaller of the current and the reported size |
| HomePage.ShrunkAll | src/app/page.tsx:126-128 | the title size after a run of reports; stated by `ShrunkAllIsMinimum` |
| HomePage.ShrunkAllIsMinimum | src/app/page.tsx:126-128 | after any run of size reports without a resize, the title size is the least of the starting size and all reported sizes. It never grew |
| HomePage.SentMessagePassesValidation | src/app/page.tsx:135-145 | the trimmed, non-blank text the page posts, within the input's 500-unit limit, passes the route's checks unchanged when the webhook is configured |
| HomePage.Home.constructor | src/app/page.tsx:29-35 | the initial state: nothing expanded, title size 30, empty message, not sending, filter "all" |
| HomePage.Home.VisibleProjects | src/app/page.tsx:476 | the gallery shows exactly the listed projects that the current filter keeps |
| HomePage.Home.MouseEnter | src/app/page.tsx:110 | hovering a card expands it, and only `expandedId` changes |
| HomePage.Home.MouseLeave | src/app/page.tsx:111 | leaving a card always collapses, and only `expandedId` changes |
| HomePage.Home.Click | src/app/page.tsx:112-114 | a tap sets `expandedId` to `Clicked` of the old value, and only `expandedId` changes |
| HomePage.Home.ReportTitleSize | src/app/page.tsx:126-128 | a size report sets the title size to the minimum of the old size and the report, keeping it at most 30 |
| HomePage.Home.Resize | src/app/page.tsx:117-124 | a resize resets the title size to 30 |
| HomePage.Home.PressFilter | src/app/page.tsx:454-464 | a button press sets the filter to `Toggled` of the old one, and only the filter changes |
| HomePage.Home.Type | src/app/page.tsx:280 | typing replaces the message box's text |
| HomePage.Home.BeginSend | src/app/page.tsx:130-140 | while a send is in flight, or when the text is blank, nothing happens and nothing is posted. Otherwise the send starts and the trimmed text is posted |
| HomePage.Home.FinishSend | src/app/page.tsx:141-157 | an ok response clears the message box and a failed one keeps it; either way the send is over |

## Left out

- The outbound webhook `fetch` and the page's `fetch` to the endpoint are network I/O. The relay's answer is `RelayAnswer` (ok, not ok, or thrown). The page's answer is a boolean (`responseOk`), and a network exception on the page side is the same as a non-ok answer.
- `request.json()`, `NextResponse` and the `process.env` read are framework calls. They are inputs (`Option<Json>`, `Option<string>`) and a reply datatype. JSON numbers are kept as their literal text.
- `Date.now()` is the integer parameter `now`.
- Header names are looked up by lower-case key. The framework's case folding and its joining of repeated headers are not modelled.
- Interleaved requests are not modelled; calls are sequential. This means the read-then-write race on the ledger across concurrent requests is not captured. The ledger's unbounded growth is kept as in the source.
- The wording of the chat message built from the payload is not modelled. The payload's fields are.
- The framework's 500 page for the uncaught exception has no modelled body.
- React batches state updates per render. Two sends started from one render could both see `isSending` false. The model applies every handler to the current state in sequence.
- HomePage.Shrunk: sizes are integers. JavaScript numbers may be fractional or NaN.
- The page's concrete project list is kept (`HomePage.Projects`). The number of projects each filter shows on the real page is not proved.
- Images, alt texts and aspect ratios of projects are left out because they only affect rendering. So are all rendering components, the tilt animation, the card's title fitting, the modal's scroll lock, the theme toggle and the class-name helper.
- JsString.Utf16Length: a Dafny `string` holds Unicode scalar values, so a message holding a lone UTF-16 surrogate (which `JSON.parse` accepts from `"\ud800"`, and `length` counts as 1) cannot be represented. Such messages are not modelled.
- Logging of a failed send (`console.error`) is left out.
