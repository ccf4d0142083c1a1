# RFD chat widget: reply extraction and submission, in Dafny

This project models the chat widget that the RFD landing page (`script.js`) puts in front of an
n8n webhook. It covers five things:

- the helper `parseMaybeJson`, which decodes a string only when it looks like a JSON array or
  object;
- `extractReplyText` and its inner `resolve`, which search whatever the webhook answered for a
  human-readable reply;
- the ordered fallback over the configured chat endpoints;
- what one submission of the chat form does to the transcript, the text area, the status line,
  the form's disabled state and the requests sent;
- the session id the widget sends: the one already in session storage, or a freshly generated
  one.

Modules, one or two per concern:

- `JsonValue` (`json_value.dfy`): the JSON values the page handles. It defines a size measure
  and `Lookup`, the `key in obj` / `obj[key]` pair.
- `JsText` (`js_text.dfy`): JavaScript's `String.prototype.trim` over ECMAScript's white space
  and line terminators, and the bracket test.
- `ReplyExtractor` (`reply_extractor.dfy`): `parseMaybeJson`, `resolve` and its two object
  loops, and the reference predicate `Mentions`, "`x` is the text of a string inside this
  payload".
- `ReplyProperties` (`reply_properties.dfy`): lemmas that characterise the extractor over all
  payloads.
- `ChatSession` (`chat_session.dfy`): the endpoint loop as a method with loop invariants, and
  the widget as a class. The class fields are the transcript, the text area, the status line,
  the disabled flag and the log of posted requests. Its `Submit` method is the submit handler.
- `ChatProperties` (`chat_properties.dfy`): lemmas about a submission over all sequences of
  endpoint outcomes.

`JSON.parse` is a parameter `parse: string -> Option<Json>` (None when it throws), constrained by
`ValidParser`. Under that constraint, a bracket-delimited text that parses yields an array or an
object whose size is smaller than the text's length. That is true of `JSON.parse`. It is also
what makes the mutual recursion of `resolve` through re-parsed strings terminate.

What each `fetch` comes to is a parameter too: a sequence of `Attempt`s, one per endpoint. An
attempt is either a rejected request, or a response with its `ok` flag and its body as
`response.json()` read it.

The endpoint list is a constructor parameter of the widget, so the model covers a list of any
length. The page itself configures exactly one endpoint (`CHAT_ENDPOINTS`, script.js:61). Lemmas
about several endpoints, such as `FallbackToSecondEndpoint`, describe the fallback loop in
general, not a situation the deployed page can reach.

The widget's two fixed assistant sentences sit in a `Fallbacks` value held by the widget. The
constructor sets it to the page's sentences (`WidgetFallbacks`). The methods' contracts speak of
that field rather than of the literal texts.

## Model

| member | source | states |
|---|---|---|
| `JsonValue.Lookup` | script.js:126-127 | `key in obj` is false exactly when no property has the key; otherwise `obj[key]` is the value of the first property with that key, and it is strictly smaller than the object |
| `JsText.TrimStart` | script.js:93 | the result is a suffix of the input, everything cut off is white space, and the result does not start with white space |
| `JsText.TrimEnd` | script.js:93 | the result is a prefix of the input, everything cut off is white space, and the result does not end with white space |
| `JsText.Trim` | script.js:93 | `trim()` yields a middle part of the string, with only white space cut off on either side, whose first and last characters are not white space |
| `JsText.TrimOfTrimmed` | script.js:93 | a string that neither starts nor ends with white space is its own trimmed form |
| `JsText.TrimIdempotent` | script.js:93 | trimming twice is trimming once |
| `ReplyExtractor.ValidParser` | script.js:99 | definition: the model's assumption about `JSON.parse`, that a bracket-delimited text which parses denotes an array or object smaller than the text; it holds of `JSON.parse` and is what `Resolve` terminates by |
| `JsText.Bracketed` | script.js:94-97 | definition: the bracket test; used by `ParseMaybeJson` and its lemmas |
| `ReplyExtractor.ParseMaybeJson` | script.js:89-105 | a non-string is returned untouched; the value changes exactly when it is a string whose trimmed form is bracket-delimited and parses, and then it becomes a strictly smaller array or object; a string result is always the input |
| `ReplyExtractor.ParseMaybeJsonParses` | script.js:93-99 | in the changing case the result is exactly what `JSON.parse` makes of the trimmed string |
| `ReplyExtractor.Resolve` | script.js:109-144 | a non-empty reply is always the text of some string inside the input (never invented) |
| `ReplyExtractor.Examine` | script.js:114-143 | after `parseMaybeJson`, a string is its own reply, even when empty, and any other non-empty reply is the text of a string inside the value |
| `ReplyExtractor.SearchKeys` | script.js:125-132 | the preferred-key loop only returns text found inside the object's properties |
| `ReplyExtractor.SearchValues` | script.js:134-140 | the scan over `Object.values` only returns text found inside the object's properties |
| `ReplyExtractor.ExtractReplyText` | script.js:107-147 | `extractReplyText` returns `""` or the text of a string inside the payload |
| `ReplyExtractor.LookupMentioned` | script.js:126-127 | a string inside the value under a key is a string inside the object |
| `ReplyProperties.NothingFromEmptyShapes` | script.js:110-112 | null, numbers, booleans, an empty array and an empty object give `""` |
| `ReplyProperties.StringVerbatim` | script.js:90-104 | a string whose trimmed form is not bracket-delimited, or does not parse, is its own reply, untrimmed and even when empty |
| `ReplyProperties.ParsedStringResolved` | script.js:93-99 | a string whose trimmed form is bracket-delimited and parses gives the reply of the parsed value |
| `ReplyProperties.ReplyOfJsonText` | script.js:89-147 | a JSON text, with or without white space around it, that parses to an object with a non-empty string under `reply` gives that string, provided that string is not re-parsed (its trimmed form is not bracket-delimited, or does not parse) |
| `ReplyProperties.MalformedTextExample` | script.js:94-104 | `{not json` is returned as it is, because it does not end with `}` |
| `ReplyProperties.ArrayGivesFirst` | script.js:120-122 | a non-empty array gives exactly the reply of its first element |
| `ReplyProperties.ArrayIgnoresRest` | script.js:120-122 | the elements after the first never affect the reply of an array |
| `ReplyProperties.SearchKeysFirstHit` | script.js:125-132 | the key loop returns the reply under the first key that is present and resolves to non-empty text |
| `ReplyProperties.SearchKeysAllMiss` | script.js:125-132 | the key loop gives `""` when every key is absent or resolves to `""` |
| `ReplyProperties.SearchValuesFirstHit` | script.js:134-140 | the value scan returns the first non-empty reply in property order |
| `ReplyProperties.SearchValuesAllMiss` | script.js:134-140 | the value scan gives `""` when every value resolves to `""` |
| `ReplyProperties.ObjectPreferredKey` | script.js:124-133 | an object gives the reply under its first preferred key that is present with a non-empty reply |
| `ReplyProperties.ObjectFallbackValue` | script.js:134-141 | only when no preferred key gives a reply, the object gives the first non-empty reply among all its values, in order |
| `ReplyProperties.ObjectNoReply` | script.js:124-143 | an object in which neither a preferred key nor any value gives a reply gives `""` |
| `ReplyProperties.PlainStringUnderPreferredKey` | script.js:125-131 | a non-empty string under a preferred key that is not re-parsed is the reply when none of the earlier keys is present |
| `ReplyProperties.ReplyKeyWins` | script.js:125-131 | a non-empty string under `reply` that is not re-parsed is the reply whatever else the object holds |
| `ReplyProperties.TextKeyWhenHigherKeysAbsent` | script.js:125-131 | a non-empty string under `text` that is not re-parsed is the reply when `reply`, `response` and `message` are absent |
| `ChatSession.Succeeds` | script.js:263-268 | definition: an attempt succeeds only when a response came back with `response.ok`; characterised through `FirstSuccess` and `FailureStatusLikeTransportFailure` |
| `ChatSession.FirstSuccess` | script.js:247-273 | the index of the first attempt with an `ok` response, every earlier one failing; none exactly when no attempt succeeds |
| `ChatSession.AttemptCount` | script.js:247-273 | no more endpoints are called than there are |
| `ChatSession.PostsTo` | script.js:249-259 | one POST per endpoint, in order, each with the same request |
| `ChatSession.TryEndpoints` | script.js:244-277 | the loop succeeds exactly when some attempt succeeds; `data` is then the body of the first success; the endpoints called are the prefix up to and including the first success, or all of them |
| `ChatSession.AssistantText` | script.js:275-284 | definition: the assistant message of a submission; characterised by `SuccessfulSubmission`, `FailedSubmission`, `AssistantTextOrigin` and `LaterAttemptsIgnored` |
| `ChatSession.NewMessages` | script.js:231-236 | definition: the messages one submission appends (none for a blank draft, the user's then the assistant's otherwise, lines 279-284 for the latter); characterised by `SubmissionMessages` |
| `ChatSession.Exchange` | script.js:244-284 | the same request is posted to that prefix of endpoints; the assistant text is the reply of the first success, the no-text sentence when that is empty, or the apology when all failed |
| `ChatSession.SessionIdFor` | script.js:69-78 | a non-empty stored id is reused; the id is always either the stored one or the generated one, and never empty when the generated one is not |
| `ChatSession.StoredAfter` | script.js:71-80 | storage ends holding either what it held or the generated id; when writing works it holds exactly the session id in use, and a failed write leaves it as it was |
| `ChatSession.ChatWidget.constructor` | script.js:61-81 | the widget starts with the given endpoint list (the page's has one entry), the page's transcript, an empty text area, a never-empty session id chosen as above, the storage as above, an enabled form and no requests sent; reading storage is assumed not to throw |
| `ChatSession.ChatWidget.Type` | script.js:231 | the text area holds what the user typed |
| `ChatSession.ChatWidget.Submit` | script.js:229-288 | a blank draft changes nothing; otherwise the transcript gains the trimmed draft and then exactly one assistant message, the text area is cleared, the form ends enabled, the requests go out as `Exchange` says, and the status line shows the in-progress notice or the connection error |
| `ChatSession.ChatWidget.Send` | script.js:236-287 | from a non-blank message on: the two messages appended, the posts, the status and the form state after the handler |
| `ChatSession.ChatWidget.ShowUserMessage` | script.js:236-242 | the user's message appended, the text area cleared, the form disabled and the in-progress notice shown |
| `ChatSession.ChatWidget.ShowAssistantMessage` | script.js:279-287 | the assistant message appended after the connection error when nothing succeeded, and the form enabled again |
| `ChatProperties.FirstSuccessAt` | script.js:247-268 | the first attempt with an `ok` response is the one the loop stops at |
| `ChatProperties.SuccessfulSubmission` | script.js:267-280 | when attempt `i` is the first success, `i + 1` endpoints are called and the assistant says the extracted reply, or the no-text sentence exactly when that reply is empty |
| `ChatProperties.FailedSubmission` | script.js:275-284 | when nothing succeeds, every endpoint is called and the assistant says the apology |
| `ChatProperties.AssistantTextOrigin` | script.js:279-284 | the assistant message is never empty: it is one of the two fixed sentences or text found in the body of the first successful response |
| `ChatProperties.LaterAttemptsIgnored` | script.js:267-268 | attempts after the first success change neither the number of calls nor the assistant message |
| `ChatProperties.FailureStatusLikeTransportFailure` | script.js:261-271 | a response with a failure status counts like a request that failed outright: its body is never used |
| `ChatProperties.SubmissionMessages` | script.js:231-284 | a blank draft adds no message; any other adds exactly two, the trimmed draft as the user's and then one non-empty assistant message |
| `ChatProperties.MessageReply` | script.js:125-131 | the body `{"message": reply}` gives `reply` for a non-empty string that is not re-parsed |
| `ChatProperties.FallbackToSecondEndpoint` | script.js:247-280 | with a first endpoint that fails in any way (a rejected request or a failure status, whatever its body) and a second that answers `{"message": reply}`, both endpoints are called, in order, and the assistant says `reply` |
| `ChatProperties.SessionIdStable` | script.js:70-80 | after a set-up whose storage write succeeded, opening the page again in the tab sends the same session id |

## Left out

- The DOM is left out: element lookup, message elements, the sender label, timestamps
  (`formatTime`, `toISOString`), scrolling, `autoResize`, the Enter-key shortcut, navigation,
  smooth scrolling and whatever else the page script does outside the chat. A message is only
  its role and text.
- `JSON.parse` is a parameter; its constraint `ValidParser` is all the model knows of it.
- `fetch`, `await` and `response.json()` are left out. The network is a sequence of
  outcomes, one per endpoint. Interleaving with other events while a request is pending is not
  modelled.
- `console.warn` and `console.error` are left out. So is the `data?.error` message thrown for a
  failing response: it is caught at once and only logged.
- `crypto.randomUUID`, `Date.now` and `Math.random` are left out. The generated session id is a
  parameter, required to be non-empty as both generators guarantee. Whether the storage write
  succeeds is a parameter.
- `ChatSession.ChatWidget.constructor` assumes that reading `window.sessionStorage` and calling
  its `getItem` (script.js:69-70) do not throw. The browser may throw a `SecurityError` there, for
  instance for an opaque origin or when site data is blocked. Those lines sit outside any `try`,
  so in that case the set-up callback stops, the submit listener is never attached, and the page
  has no working chat. The model's constructor always yields a working widget. Only a failing
  write (script.js:77) is modelled, through `canStore`.
- `setStatus` when the page has no status element is not modelled: the status line is always
  there.
- Numbers carry no value, because nothing in the extractor reads one. `undefined` is not
  distinguished from `null`.
- An object is the list of its properties in `Object.values` order. JavaScript's rule that
  integer-like keys come first is assumed to be already reflected in that order.
- On success, the status line keeps showing "Sto elaborando la risposta...". The handler never
  clears it, and the model keeps that.
- A `fetch` or `response.json()` that never settles is not modelled: every attempt in the model
  comes to an outcome, so every non-blank submission ends with an assistant message and an
  enabled form. In the page such a request (there is no timeout) leaves the form disabled with
  only the user's message shown.
- `resolve` recurses without bound in the page, so a deeply nested or repeatedly re-encoded body
  can exhaust the JavaScript stack. The resulting `RangeError` is raised inside the outer `try`,
  so the page then shows the connection error and the apology even after a successful response.
  The model has no stack limit and gives the extracted reply in that case.
- JavaScript strings are sequences of UTF-16 code units and may hold unpaired surrogates. Dafny's
  `string` holds Unicode scalar values only, so such strings are not represented.
