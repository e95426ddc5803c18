# bobchat-api handlers, modelled in Dafny

The repository holds two serverless HTTP handlers that proxy requests to a
generative AI service:

- `api/chat.js` answers chat messages. It gates on the HTTP method, reads a
  message, a system or personalization text, a conversation history and
  uploaded files from the request body, assembles the `input` list sent
  upstream, and turns the upstream answer into `{reply}` or an error.
- `api/api/media.js` generates images. It gates on the method, validates the
  prompt, checks for the API key, forwards prompt and size, and turns the
  upstream answer into `{url}` or an error.

Each handler is modelled as a total function from a typed request, the API key
(an `Option<string>`) and an abstract upstream result to an `Exchange`. An
exchange records the upstream call that was issued, if any, and the one
response `(status, body)` that was sent.

Modules:

- `Wrappers` (wrappers.dfy): `Option`.
- `Js` (js.dfy): the JavaScript values a parsed JSON payload can hold, plus
  `undefined`. It also models truthiness, `||`, optional property access
  (`?.key`, `?.[0]`), thrown exceptions and `Outcome` (a value or a throw).
- `Text` (text.dfy): `join`, `slice(0, n)`, and `trim` with the ECMAScript
  whitespace set.
- `Http` (http.dfy): the response and body shapes, and the abstract upstream
  result. `r.ok` is derived from the status, 200 to 299, as the Fetch standard
  defines it. The module also holds the shared responses: "Use POST", the
  missing key, the `catch` clause, and the upstream-failure pass-through.
- `Chat` (chat.dfy) and `Media` (media.dfy): the two handlers.

The upstream payload is a general `Js.Value`, not a typed record. This lets the
model follow the source's `||`, `?.` and `Array.prototype.find` exactly. That
includes the two TypeErrors the reply extraction can raise: `content.find` is
not a function when `content` is neither nullish nor an array, and `c.type`
fails on a null item met before a match.

Edge cases of the code that the model keeps:

- Only the system turn and the file-context turn can be dropped from the
  prompt. `filter(Boolean)` removes only those two `null` placeholders, so
  history turns with empty content and an empty current message are always
  sent (api/chat.js:30-41).
- When the API key is set, a null entry among the 12 most recent conversation
  entries makes the chat handler throw, and the `catch` turns that into a 500.
  When the key is absent, the missing-key 500 comes first (api/chat.js:26-28),
  because the history is read only afterwards. Null entries older than the
  most recent 12 are never read.
- A string body that parses to `null` makes `body.message` throw, which also
  gives a 500 from the `catch`.
- Unlike the chat handler, the image handler never runs `JSON.parse` on a
  string body. A string `req.body` has no `prompt` property, so the prompt
  defaults to "" and the answer is 400 "Missing prompt". `MediaBody` with an
  undefined prompt covers that case.
- A `null` size is forwarded as given, because the destructuring default
  applies only to `undefined`. A non-string prompt other than `undefined`
  throws in `trim`, which gives a 500.

## Model

| member | source | states |
|---|---|---|
| `Chat.SystemText` | api/chat.js:16 | the system text is non-empty iff `system` or `personalization` is non-empty; a non-empty `system` wins, otherwise it is the `personalization` text or "" |
| `Chat.MessageText` | api/chat.js:15 | the message is the body's `message`, and is "" exactly when that is absent or empty |
| `Chat.KeptTexts` | api/chat.js:20-22 | at most one kept text per file, and every kept text is non-empty |
| `Chat.KeptTextsAppend` | api/chat.js:20-22 | filtering distributes over concatenation, so texts keep their original relative order |
| `Chat.KeptTextsSingle` | api/chat.js:21-22 | one file contributes its text exactly when the text is a non-empty string |
| `Chat.KeptTextsEmptyIff` | api/chat.js:20-22 | nothing is kept iff no file has a non-empty string text |
| `Text.Join` | api/chat.js:23 | joined length is the sum of part lengths plus one separator between each pair; the first part is a prefix; no parts gives "" |
| `Text.JoinSnoc` | api/chat.js:23 | appending a part appends the separator and that part |
| `Text.JoinEmptyIff` | api/chat.js:22-23 | a join of non-empty parts is empty iff there are no parts |
| `Text.Prefix` | api/chat.js:24 | `slice(0, n)` has length `min(n, |s|)`, is a prefix of `s`, and is `s` itself when `s` is short enough |
| `Chat.FilesText` | api/chat.js:20-24 | `filesText` is at most 120000 characters, and is exactly the first `min(120000, |full join|)` characters of the full join |
| `Chat.FilesTextNonEmptyIff` | api/chat.js:20-34 | the file-context turn is present iff some file entry has a non-empty string text |
| `Chat.RecentHistory` | api/chat.js:36 | `slice(-12)` keeps exactly the last `min(12, n)` entries, in the same relative order |
| `Chat.NormalizeTurn` | api/chat.js:37-38 | role is "assistant" iff the source role is exactly "assistant", else "user"; content is the source content or "" when absent; a null entry throws |
| `Chat.NormalizeAll` | api/chat.js:36-39 | mapping succeeds iff no entry is null, keeps the length, and normalises each entry in place |
| `Chat.Assemble` | api/chat.js:30-41 | `input` holds the history plus one to three turns, and always ends with `{role: "user", content: message}` |
| `Chat.AssembleLayout` | api/chat.js:30-41 | `|input|` is `[system≠""] + [filesText≠""] + |history| + 1`; history follows the head turns in order; the last turn is the user's message, even when it is "" |
| `Chat.AssembleHead` | api/chat.js:30-34 | the first turn has role "system" iff the system text is non-empty; the file-context turn comes right after the system turn when present |
| `Chat.BuildInput` | api/chat.js:30-41 | building `input` throws only the TypeError of a null entry; otherwise it holds at least `min(12, n) + 1` turns and ends with the user's message |
| `Chat.BuildInputThrowsIff` | api/chat.js:36-39 | building `input` throws (a TypeError) iff a null entry is among the most recent 12 |
| `Chat.BuildInputShape` | api/chat.js:30-41 | the `input` sent is: `{role: "system", content: system text}` first iff there is system text, file turn iff some file text, then exactly the last `min(12, n)` entries normalised in order, then `{role: "user", content: message}` |
| `Chat.FindOutputText` | api/chat.js:66 | `find` returns the first "output_text" item when every earlier item is readable and does not match, throws on a null item before any match, and returns undefined when nothing matches |
| `Chat.FindCasesExhaustive` | api/chat.js:66 | every item list is one of: found, throws, or no match |
| `Chat.Content` | api/chat.js:66 | `data?.output?.[0]?.content` is the `content` of the first element of `output` (array element or entry "0"); undefined when `output` is an empty array, an object without entry "0", or neither an array nor an object |
| `Chat.ExtractReply` | api/chat.js:65-67 | `reply` is the text of the first "output_text" item when truthy, else `output_text`; it throws only the TypeError of `content.find` or `c.type` |
| `Chat.Translate` | api/chat.js:55-75 | a non-ok status passes through with the upstream message or "OpenAI request failed" and `raw`; a truthy reply gives 200 `{reply}` and is the only way to 200; a falsy reply gives 500 "No reply returned by model" with `raw`; a throw gives 500 |
| `Chat.Handle` | api/chat.js:7-75 | an upstream call is made iff the method is POST, the body parsed, the key is set and the history is readable; the call carries the key and `input`, and the response is then the translation; without a call the status is 200, 405 or 500, and always 500 for a POST; a body parsed to `null`, or (with the key set) a null recent history entry, gives the `catch`'s 500 |
| `Chat.MethodGate` | api/chat.js:7-8 | OPTIONS gives 200 with an empty body, other non-POST methods 405 "Use POST"; neither makes a call |
| `Chat.MissingKeyBlocksCall` | api/chat.js:26-28 | with a parsed body and no key: 500 "Missing OPENAI_API_KEY" and no call |
| `Chat.NoCallIgnoresUpstream` | api/chat.js:7-41 | when no call is made, the response does not depend on the upstream result |
| `Chat.FirstOutputTextIsReply` | api/chat.js:65-73 | an ok answer whose first content item is output text `t` (non-empty) gives 200 `{reply: t}` |
| `Chat.UnparsableBodyIsServerError` | api/chat.js:10-12 | a body `JSON.parse` rejects gives 500 with the parse error's message, before the key check, and no call |
| `Chat.NullBodyIsServerError` | api/chat.js:10-15 | a body that parses to `null` gives 500 from the `catch`, before the key check, and no call |
| `Chat.NullRecentEntryIsServerError` | api/chat.js:36-37 | with the key set, a null entry among the last 12 history entries gives 500 from the `catch` and no call |
| `Chat.UpstreamFailurePassesThrough` | api/chat.js:58-63 | a non-ok answer `{error: {message: m}}` gives status passed through, `{error: m, raw: payload}` |
| `Http.ServerError` | api/chat.js:74-75 | the `catch` gives 500 with the thrown value's truthy `message`, else "Server error" |
| `Http.UpstreamError` | api/api/media.js:27-32 | the pass-through keeps the upstream status and payload; `error` is the truthy `data.error.message`, else the fallback |
| `Js.Or` | api/chat.js:60 | `a || b` is truthy iff either operand is, and is `a` whenever `a` is truthy |
| `Js.Truthy` | api/chat.js:69 | only non-nullish values are truthy; a boolean is its own value; a number is truthy iff non-zero; a string is truthy iff non-empty; arrays and objects always are |
| `Js.Get` | api/chat.js:60 | `v?.key` is the object's own entry for `key`, and undefined on every non-object value and for a missing key |
| `Js.First` | api/chat.js:66 | `v?.[0]` is the first array element, the first character of a string, or an object's entry "0"; undefined when there is none and on nullish, boolean and number values |
| `Http.IsOk` | api/chat.js:58 | `r.ok` holds exactly for statuses from 200 to 299 (`status / 100 == 2`) |
| `Http.KeyPresent` | api/chat.js:26 | the key counts as present exactly when it is set and non-empty |
| `Text.SkipLeading` | api/api/media.js:6 | the scan passes only whitespace and stops at the first non-whitespace character or the end |
| `Text.SkipTrailing` | api/api/media.js:6 | the backward scan passes only whitespace and stops after the last non-whitespace character or at the lower bound |
| `Text.Trim` | api/api/media.js:6 | `trim()` is a slice with only whitespace outside it, neither starting nor ending with whitespace |
| `Text.TrimEmptyIff` | api/api/media.js:6 | a string trims to "" iff every character of it is whitespace |
| `Text.IsWhitespace` | api/api/media.js:6 | on ASCII, `trim` removes exactly tab, line feed, vertical tab, form feed, carriage return and space; every whitespace character lies in the Basic Multilingual Plane |
| `Media.PromptText` | api/api/media.js:5-6 | an absent prompt defaults to ""; a string prompt is kept; any other prompt throws in `trim` |
| `Media.SizeOf` | api/api/media.js:5 | size is "1024x1024" exactly when absent, and the caller's value otherwise |
| `Media.ImageUrl` | api/api/media.js:34 | the URL is `url` of the first element of `data` (array element or entry "0"); undefined when `data` is nullish, an empty array, a boolean, number or string, or an object without entry "0" |
| `Media.Translate` | api/api/media.js:25-39 | a non-ok status passes through with the upstream message or "OpenAI error" and `raw`; a truthy URL gives 200 `{url}` and is the only way to 200; a falsy URL gives 500 "No image URL returned" with `raw`; a throw gives 500 |
| `Media.Handle` | api/api/media.js:1-41 | a call is made iff the method is POST, the prompt is a string that is not blank after trimming, and the key is set; it carries the untrimmed prompt and the defaulted size; without a call the status is 400, 405 or 500 |
| `Media.MethodGate` | api/api/media.js:3 | any non-POST method gives 405 "Use POST" before anything else |
| `Media.EmptyPromptBeforeKey` | api/api/media.js:5-10 | an absent or whitespace-only prompt gives 400 "Missing prompt", whatever the key |
| `Media.NonStringPromptThrows` | api/api/media.js:5-6 | a prompt that is neither absent nor a string gives 500 from the `catch`, before the key check |
| `Media.MissingKeyBlocksCall` | api/api/media.js:8-10 | with a usable prompt and no key: 500 "Missing OPENAI_API_KEY" and no call |
| `Media.ForwardsUntrimmedPrompt` | api/api/media.js:5-22 | the call carries the prompt as received, untrimmed, and the size, defaulted only when absent |
| `Media.NoCallIgnoresUpstream` | api/api/media.js:3-10 | when no call is made, the response does not depend on the upstream result |
| `Media.FirstUrlIsReturned` | api/api/media.js:34-37 | an ok answer `{data: [{url: u}]}` (non-empty) gives 200 `{url: u}` |
| `Media.UpstreamFailurePassesThrough` | api/api/media.js:27-32 | a non-ok answer `{error: {message: m}}` gives status passed through, `{error: m, raw: payload}` |

## Left out

- The network round trip (`fetch`, api/chat.js:43-55, api/api/media.js:12-25) is a parameter. It either rejects or yields a status and a payload that parsed or threw. The endpoint URLs, the model names and the literal Authorization header are not modelled. The call record keeps only the key and the fields the handler chose.
- `JSON.parse` of a string body and `r.json()` are modelled as "parsed value or exception". JSON text is not parsed.
- `process.env.OPENAI_API_KEY` is an `Option<string>` argument. An empty value counts as missing, as JavaScript truthiness has it.
- The CORS headers (api/chat.js:3-5) are set on every chat response, whatever the outcome. Headers are not part of the modelled response.
- Request fields are typed:
  - `message`, `system` and `personalization` are optional strings. `String()` coercion of other types is not modelled (api/chat.js:15-16, 38).
  - A `conversation` or `files` that is not an array is the empty sequence.
  - A history entry whose `role` or `content` is not a string is outside the model.
- A body that is not a string but has other falsy or primitive values reads as `{}`. A string body that parses to `null` is a separate case, because reading its fields throws.
- Exception messages: the wording of the engine's TypeError is not modelled. The model uses a fixed non-empty text, so the `catch` gives 500 with a non-empty message either way.
- `slice(0, 120000)` and `[0]` on strings count UTF-16 code units. The model counts Unicode scalar values, so the two differ only for characters outside the Basic Multilingual Plane.
- `Js.Get` models own properties only. None of the keys read through `Js.Get` are inherited from `Object.prototype`, `Array.prototype` or `String.prototype`. The two inherited methods the handlers call are modelled separately: `Array.prototype.find` in `Chat.FindOutputText` and `Chat.ExtractReply`, and `String.prototype.trim` in `Media.PromptText` and `Text.Trim`.
- `Text.IsWhitespace` is the ECMAScript WhiteSpace and LineTerminator set, with category Zs as of Unicode 15. Later Unicode versions may change Zs.
- Asynchrony (`async`/`await`) is not modelled. Each handler has one await point and no shared state.
- A status code outside the range `res.status` accepts is not modelled.
