# Budget API handlers and webhook diagnostics, modelled in Dafny

This project models the two request handlers at the core of a small budget (quotation)
service:

- `app/api/budgets/route.ts`. POST validates a budget body and upserts it into the external
  store. On success it notifies an n8n webhook once, best effort. GET lists the stored budgets.
- `app/api/diag/n8n/route.ts`. GET reports which webhook settings are present. It shows a
  masked preview of the URL and never the token. POST sends one synthetic "ping" to the
  webhook and classifies the answer.

The store, the webhook and the clock are outside the model. What they return is an input:
- the upsert or select result,
- a `FetchOutcome` (a response with status, `ok` flag and body text, or a thrown value),
- the timestamp.

What the handler sends them is an output. POST budgets returns the record it upserts
(`upserted`) and the request it sends (`sent`). The diagnostics POST returns `sent`. With
these, "no store write" and "no outbound call" become plain statements about outputs.

Modules:

| file | module | what it holds |
|---|---|---|
| `wrappers.dfy` | `Wrappers` | `Option` |
| `text.dfy` | `Text` | JavaScript `trim`, `slice(0, n)`, `repeat`, `replace(/\D/g, "")`, decimal rendering, ASCII case folding |
| `json.dfy` | `JsonValues` | parsed JSON bodies, JavaScript truthiness, `v?.key`, `Object.keys(v).length` |
| `config.dfy` | `Config` | the environment variables, the store-configured check, trimmed optional settings |
| `webhook.dfy` | `Webhook` | request headers (built in place), the outbound request, the fetch outcome |
| `budgets.dfy` | `Budgets` | POST and GET of `app/api/budgets/route.ts` |
| `diag.dfy` | `Diag` | `mask`, GET and POST of `app/api/diag/n8n/route.ts` |

The handlers are methods. POST budgets follows the source step by step:
1. It updates the locals `n8nNotified`, `n8nStatusCode` and `n8nError` in place (see `Notify`).
2. The header dictionary gets its Authorization entry in place (see `RequestHeaders`).

Validation, phone normalisation, the base URL and the PDF link are functions called from
these methods.

Three facts about the code are worth stating up front:
- **Order of checks.** POST budgets checks the store configuration first (lines 40-48). It
  then parses the JSON (50-55) and only then validates the required fields (58-63). A body
  with missing fields therefore gets 500, not 400, when the store is not configured.
  `Budgets.Post` has this order.
- **The diagnostic sample.** The sample test `body && Object.keys(body).length` accepts a
  non-empty object, and also a non-empty array or a non-empty string. `Diag.Sample` has
  this test.
- **A preview can contain the whole URL.** The 9-character value `abcdefgh.` is a substring
  of its own preview `abcdefgh...(9)`. What holds is that the preview depends only on the
  first eight characters and the length (`MaskRevealsOnlyPrefixAndLength`), and that the
  length can be read back from it (`MaskDisclosesLength`, `PreviewOfUrl`).

Two details that follow from the code:
- The store check uses untrimmed truthiness (`!process.env.SUPABASE_URL`). The webhook
  settings are `(x || "").trim()`.
- The two files differ on an exception's text. Budgets uses `message ?? String(e)`
  (`Webhook.MessageOrString`), so an empty message is kept and reported as `""`. Diagnostics
  uses `message || String(e)` (`Webhook.NonEmptyMessageOrString`), so an empty message falls
  back to the value's string form.
- Two things can throw inside the budgets notification before any call is made, in this
  order: `encodeURIComponent` on the budget number (a URIError for a lone surrogate, line
  99) and `replace` on a phone that is not a string (a TypeError, line 103). Either is
  caught at line 134 and reported as `n8nError`.

## Model

| member | source | states |
|---|---|---|
| `Budgets.Post` | app/api/budgets/route.ts:39-147 | Without the store configured: 500 and no write, before the body is looked at. Then: unparsable body, 400 "JSON inválido", no write. Then: 400 with the combined message exactly when a required field is missing, no write. Otherwise the six budget fields are upserted. A store error gives 500 with the store's message and no webhook call. A success gives `id` from the store. With an empty trimmed webhook URL: `n8nNotified` false, status code and error null, no call. Otherwise the notification fields are as `Reported` says, and the request sent carries the headers and body below |
| `Budgets.Notify` | app/api/budgets/route.ts:91-137 | One notification attempt. If encoding the number throws, its message is reported and no call is made. Then, if the phone is truthy but not a string, the TypeError is reported and no call is made. Otherwise exactly one request goes to the trimmed URL with `HeadersFor` headers and the webhook body. `notified`, `statusCode` and `error` are then as `Reported` says |
| `Budgets.Reported` | app/api/budgets/route.ts:99-137 | How the three notification fields follow from the encoding outcome, the phone outcome and the fetch outcome, in the code's order |
| `Budgets.ReportedFields` | app/api/budgets/route.ts:123-137 | `n8nNotified` is true exactly when encoding and the phone succeeded and the remote answered ok. A status code is present exactly when the remote was called and answered. The error is null exactly when notified. A URIError or TypeError gives its message. A non-ok answer gives the status and the rejection message. A thrown value gives its message |
| `Budgets.RejectionMessage` | app/api/budgets/route.ts:125-126 | The message starts "n8n respondeu <status>: ". The rest is a prefix of the body text, of length min(500, body length) |
| `Budgets.HasRequiredFields` | app/api/budgets/route.ts:58 | A body passing the check is an object with a `number` key, a `client` object with a `name` key, and an `items` array |
| `Budgets.Payload` | app/api/budgets/route.ts:66-73 | The stored record has exactly the body's keys among number, date, company, client, items, total, each with the body's value. It still passes the check |
| `Budgets.HasHttpScheme` | app/api/budgets/route.ts:96 | `/^https?:\/\//i`: the value starts with `http://` or `https://`, letters in any case |
| `Budgets.ChooseBase` | app/api/budgets/route.ts:94-98 | A non-empty public base that starts with http:// or https:// (any case) is used with its final `/` removed when it has one, and unchanged otherwise. Otherwise the base is `protocol//host` |
| `Budgets.StripTrailingSlash` | app/api/budgets/route.ts:97 | The result is the input or the input minus one final `/`. It differs exactly when the input ends in `/` |
| `Budgets.StripRemovesOneSlash` | app/api/budgets/route.ts:97 | A stripped base that still ends in `/` came from a value ending in `//` |
| `Budgets.PublicBaseKeepsScheme` | app/api/budgets/route.ts:95-98 | A public base that is longer than its scheme, or has no trailing `/`, still has an http(s) scheme after stripping |
| `Budgets.PdfUrl` | app/api/budgets/route.ts:99-101 | The link splits back into the base, `/api/budgets/pdf?number=` and the encoded number |
| `Budgets.PhoneDigits` | app/api/budgets/route.ts:103 | A falsy phone gives "". A string gives its digits. Any other truthy value throws (None) |
| `Budgets.NotificationBody` | app/api/budgets/route.ts:116-120 | The webhook body has every stored field plus `pdfUrl`. `client` is the stored client plus `phoneDigits`, and no other value changes |
| `Budgets.WebhookBody` | app/api/budgets/route.ts:94-120 | The body sent is the notification body (all stored fields, `client` with `phoneDigits`) whose `pdfUrl` is the PDF link on the chosen base and the encoded budget number |
| `Budgets.List` | app/api/budgets/route.ts:149-171 | GET: 500 without the store configured. 500 with the store's message on a store error. Otherwise the rows, or an empty list when the store returned null |
| `Webhook.RequestHeaders` | app/api/budgets/route.ts:107-111 | The headers are a JSON content type plus `Authorization: Bearer <token>`, and the latter is present exactly when the trimmed token is non-empty |
| `Config.StoreConfigured` | app/api/budgets/route.ts:40 | The store is usable exactly when `SUPABASE_URL` and `SUPABASE_SERVICE_ROLE_KEY` are both defined and non-empty, untrimmed |
| `Config.Setting` | app/api/budgets/route.ts:87 | The trimmed optional setting: "" when unset, and otherwise a value with no whitespace at either end |
| `Config.SettingEmptyIff` | app/api/budgets/route.ts:87 | A trimmed setting is empty exactly when the variable is unset or all whitespace |
| `JsonValues.Truthy` | app/api/budgets/route.ts:58 | JavaScript truthiness: undefined, null, false, 0 and "" are falsy; everything else is truthy |
| `JsonValues.Member` | app/api/budgets/route.ts:58 | `v?.key` is defined exactly on an object holding `key`, and gives that key's value |
| `JsonValues.HasKeys` | app/api/diag/n8n/route.ts:41 | A value has keys when it is a non-empty object, array or string |
| `JsonValues.KeyCount` | app/api/diag/n8n/route.ts:41 | `Object.keys(v).length` is positive exactly when the value `HasKeys` |
| `Webhook.BodyText` | app/api/diag/n8n/route.ts:58 | The response text when it could be read, and `<no-body>` otherwise |
| `Webhook.MessageOrString` | app/api/budgets/route.ts:135 | The nullish-fallback rendering: the message whenever there is one, even an empty one, else the string form |
| `Webhook.NonEmptyMessageOrString` | app/api/diag/n8n/route.ts:77 | The falsy-fallback rendering: the message when it is non-empty, else the string form |
| `Webhook.MessageRenderingsDiffer` | app/api/diag/n8n/route.ts:77 | The two renderings differ exactly for an empty message on a value whose string form is not empty |
| `Text.SkipWhitespace` | app/api/diag/n8n/route.ts:5 | The index found is at or after the start, within the string, and not at a whitespace character |
| `Text.SkippedAreWhitespace` | app/api/diag/n8n/route.ts:5 | Every character skipped is whitespace |
| `Text.BackOverWhitespace` | app/api/diag/n8n/route.ts:5 | The end found is at or before the start, and the character before it is not whitespace |
| `Text.BackedOverAreWhitespace` | app/api/diag/n8n/route.ts:5 | Every character passed over is whitespace |
| `Text.TrimStart` | app/api/diag/n8n/route.ts:5 | The result is a suffix of the input and does not start with whitespace |
| `Text.TrimStartRemovesWhitespace` | app/api/diag/n8n/route.ts:5 | Everything TrimStart removes is whitespace |
| `Text.TrimEnd` | app/api/diag/n8n/route.ts:5 | The result is a prefix of the input and does not end with whitespace |
| `Text.TrimEndRemovesWhitespace` | app/api/diag/n8n/route.ts:5 | Everything TrimEnd removes is whitespace |
| `Text.Trim` | app/api/diag/n8n/route.ts:5 | `trim()` neither starts nor ends with whitespace and is no longer than its input |
| `Text.TrimIsInfix` | app/api/diag/n8n/route.ts:5 | The trim is the infix of the input after its leading whitespace, and only whitespace lies before and after it |
| `Text.TrimIdempotent` | app/api/diag/n8n/route.ts:5 | Trimming twice is trimming once |
| `Text.TrimOfTrimmed` | app/api/diag/n8n/route.ts:5 | A string with no whitespace at either end is its own trim |
| `Text.TrimEmptyIff` | app/api/diag/n8n/route.ts:16-18 | The trim is empty exactly when every character is whitespace |
| `Text.Prefix` | app/api/diag/n8n/route.ts:66 | `slice(0, n)` is the prefix of length min(n, length) |
| `Text.Repeat` | app/api/diag/n8n/route.ts:6 | `"*".repeat(n)` has n characters, all `*` |
| `Text.DigitsOnly` | app/api/budgets/route.ts:103 | The result is no longer than the input, all digits, and equal to the input when the input is all digits |
| `Text.DigitsOnlyAppend` | app/api/budgets/route.ts:103 | Digit filtering distributes over concatenation |
| `Text.DigitsOnlyKeepsExactlyDigits` | app/api/budgets/route.ts:103 | Wherever a character stands, it is kept if it is a digit and dropped otherwise, and order is kept |
| `Text.DigitsOnlyIdempotent` | app/api/budgets/route.ts:103 | Filtering twice is filtering once |
| `Text.Decimal` | app/api/diag/n8n/route.ts:7 | The decimal rendering is non-empty, all digits, and without a leading zero |
| `Text.DecimalRoundTrip` | app/api/diag/n8n/route.ts:7 | Reading back the decimal rendering of n gives n |
| `Text.DecimalInjective` | app/api/diag/n8n/route.ts:7 | Different numbers render differently |
| `Diag.Masked` | app/api/diag/n8n/route.ts:6-7 | A value no longer than `keep` gives that many `*`. A longer one gives its first `keep` characters, "...(", the decimal rendering of its length (which reads back as the length), and ")" |
| `Diag.Mask` | app/api/diag/n8n/route.ts:3-8 | `mask` returns null exactly for an undefined or empty value. Otherwise it masks the trimmed value |
| `Diag.MaskRevealsOnlyPrefixAndLength` | app/api/diag/n8n/route.ts:5-7 | Two values with the same trimmed length and the same first `keep` characters mask alike |
| `Diag.MaskDisclosesLength` | app/api/diag/n8n/route.ts:7 | Two values longer than `keep` that mask alike have the same trimmed length |
| `Diag.Status` | app/api/diag/n8n/route.ts:10-25 | GET: hasUrl, hasToken and publicBaseSet are true exactly when the trimmed variable is non-empty. tokenPresent equals hasToken. The public base is shown only when set. The preview is present exactly when a URL is set, and is `mask(url, 8)` |
| `Diag.StatusHidesToken` | app/api/diag/n8n/route.ts:12-21 | The GET report depends on the token only through whether it is set |
| `Diag.PreviewIsMaskedUrl` | app/api/diag/n8n/route.ts:20 | The URL preview is the mask of the trimmed URL itself: the second trim inside `mask` changes nothing |
| `Diag.PreviewOfUrl` | app/api/diag/n8n/route.ts:20 | A URL of at most 8 characters previews as stars only. A longer one previews as its first 8 characters plus digits from which its length is read back |
| `Diag.PingReply.HttpStatus` | app/api/diag/n8n/route.ts:30-80 | 400 for a missing URL, 200 or 502 for an answer as it is ok or not, 500 for a thrown value |
| `Diag.Sample` | app/api/diag/n8n/route.ts:37-41 | The sample is the caller's body when it parsed and has keys. Otherwise, and for an unparsable body, it is `{message: "diagnostic"}` |
| `Diag.PingPayload` | app/api/diag/n8n/route.ts:38-42 | The ping payload has exactly `ping: true`, `ts` and `sample` |
| `Diag.Classify` | app/api/diag/n8n/route.ts:58-80 | A remote answer gives `ok` and `status` as the remote's and the body cut to its first min(1000, length) characters, with 200 if ok and 502 if not. A thrown value gives 500 with its message. `ok` is true exactly when the status is 200 |
| `Diag.Ping` | app/api/diag/n8n/route.ts:27-82 | With an empty trimmed URL: 400, not ok, no call. Otherwise exactly one request goes to the URL with `HeadersFor` headers and the ping payload, and the reply is `Classify` of the outcome |

## Left out

- The store client (`getSupabaseServer`, upsert/select/order, the `onConflict` uniqueness). Its result is an input, and the record upserted is an output.
- `fetch`, `AbortController` and the 7-second timer. The call's outcome is an input. An abort is one more thrown value.
- JSON parsing and serialisation (`req.json`, `JSON.stringify`). Bodies are parsed JSON values, and a failed parse is `None`. Numbers are reals, so NaN and infinities do not occur. Key order is not modelled.
- `new URL(req.url)`. The request's protocol and host are inputs.
- `new Date().toISOString()`. The timestamp is an input.
- `console.warn` logging.
- `encodeURIComponent(body.number)`. It is the uninterpreted parameter `encodeNumber`, which gives the encoded text or the URIError thrown. Dafny strings cannot hold a lone surrogate, so which numbers throw is left to that parameter.
- The text of the TypeError thrown when a truthy, non-string phone has no `replace`. It is the parameter `phoneTypeError`.
- Lengths, `slice` and `repeat` count Unicode scalar values, not UTF-16 code units. A string with characters outside the Basic Multilingual Plane would be measured differently by the source.
- The constant `ok: true` of the GET diagnostics report is not a field of `Diag.Report`.
- The constant `ok: true` of a successful budgets POST is not a field of `Budgets.Reply.Saved` (its status 200 is `Reply.Status()`).
- `app/components/SplashScreen.tsx` is a UI timer with no business logic.
- The resend-notification endpoint (`app/api/budgets/[number]/send/route.ts`) and the PDF endpoint are not part of this model.
