# Outcome classification of the CopilotKit forwarding route

The repository's one API route (`POST /api/copilotkit`) hands each request to the CopilotKit
runtime and the Agno agent connector, then inspects how that delegated call ended and picks the
response the client gets:

- the delegate returned a response with status 500: it is replaced by a 503 with the JSON body
  `{error: "Service Unavailable", message}`; any other returned response is relayed unchanged;
- the delegate threw an *abort-shaped* error (named `AbortError`, or `code === 20`, or a message
  that includes `aborted`): an empty 499 ("client closed request");
- it threw an error whose message includes `fetch` or `network`: 503 `Service Unavailable`;
- it threw anything else: 500 `Internal Server Error`.

The same abort-shaped test drives the process-wide `unhandledRejection` listener, which stays
silent for abort-shaped rejections and logs all others.

Files:

- `wrappers.dfy` — `Option`, for properties that may be absent.
- `strings.dfy` — `Includes`, JavaScript's case-sensitive `String.prototype.includes`, proved
  equal to the reference definition `Contains` (some offset holds the word).
- `abort.dfy` — `ErrorShape` (the `name`, `code` and `message` the route reads) and
  `IsAbortShaped`, written with the route's own truthiness guard on `message`.
- `route.dfy` — `Outcome`, `Reply`, `Classify` (the decision table) and `ResponseStatus`, with one
  lemma per rule of the table and lemmas tracing each client-visible 499, 503 and 500 back to its causes.
- `rejection_filter.dfy` — `GlobalSilences`, the listener's silence-or-log decision, and the lemma that the
  listener and the handler agree on which errors are cancellations.

Only string messages are modelled; an absent message is `None`. A thrown `name` that is not a
string, and a `code` that is not an integral number, is modelled as absent too: neither can
satisfy the route's `===` tests.
The three localized `message` texts are opaque constants (`Notice`); the two 503 paths use
different texts (lines 86 and 114), so they are distinct constructors.

The abort test (route.ts lines 99-100) runs before the network test (line 109), so a thrown
error whose message contains both `aborted` and `fetch` or `network` gets 499
(`Route.AbortTakesPrecedence`). Case-sensitivity of every message test follows from
`Strings.Includes`, whose result is exact character-by-character containment.

## Model

| member | source | states |
|---|---|---|
| Strings.Includes | app/api/copilotkit/route.ts:21 | `includes` is true exactly when some offset of the message holds the word, compared character by character (so case-sensitively) |
| Abort.MessageIncludesIff | app/api/copilotkit/route.ts:21 | the guard `message && message.includes(w)` is "message present and contains w" for any non-empty word; the empty message never passes |
| Abort.IsAbortShaped | app/api/copilotkit/route.ts:99-100 | the route's abort test holds exactly when the error is named `AbortError`, or coded 20, or its message is present and contains `aborted` |
| Abort.CapitalisedAbortedIsNotAbort | app/api/copilotkit/route.ts:99-100 | example: a lone message `Aborted`, with no name or code, is not abort-shaped |
| Route.MentionsNetwork | app/api/copilotkit/route.ts:109 | the route's network test holds exactly when the message is present and contains `fetch` or `network` |
| Route.Classify | app/api/copilotkit/route.ts:78-133 | a returned response is relayed exactly when its status is not 500; a thrown error always gets a synthesized 499, 503 or 500; a synthesized reply has no body exactly when it is 499, and otherwise names `Service Unavailable` for 503 and `Internal Server Error` for 500 |
| Route.ResponseStatus | app/api/copilotkit/route.ts:81-133 | a returned status other than 500 reaches the client unchanged, a returned 500 never does, and a thrown error yields 499, 503 or 500 |
| Route.ThrownAbortIff | app/api/copilotkit/route.ts:99-104 | a thrown error gets the empty 499 reply if and only if it is named `AbortError`, coded 20, or its message contains `aborted` |
| Route.AbortIgnoresMessage | app/api/copilotkit/route.ts:99-104 | an error named `AbortError` or coded 20 gets the empty 499 whatever its message is, including none |
| Route.AbortTakesPrecedence | app/api/copilotkit/route.ts:99-120 | a message containing `aborted` together with `fetch` or `network` yields 499, not 503 |
| Route.NetworkFailureIff | app/api/copilotkit/route.ts:109-120 | a thrown error gets 503 `Service Unavailable` (with the unreachable-backend text) if and only if it is not abort-shaped and its message contains `fetch` or `network` |
| Route.UnclassifiedFailureIff | app/api/copilotkit/route.ts:121-132 | a thrown error gets 500 `Internal Server Error` if and only if it is neither abort-shaped nor network-shaped |
| Route.MissingMessageYields500 | app/api/copilotkit/route.ts:99-132 | an error with no message, not named `AbortError` and not coded 20, gets 500 |
| Route.ThrownBodies | app/api/copilotkit/route.ts:96-133 | for a thrown error only the 499 reply is empty; the others carry an `error` field of `Service Unavailable` or `Internal Server Error` and a message |
| Route.ReturnedRemap | app/api/copilotkit/route.ts:81-95 | a returned 500 becomes 503 `Service Unavailable` with the backend-unavailable text; any other returned status is relayed and reaches the client unchanged |
| Route.Status500Origin | app/api/copilotkit/route.ts:78-133 | the client sees 500 if and only if the delegate threw an error that is neither abort-shaped nor network-shaped |
| Route.Status499Origin | app/api/copilotkit/route.ts:78-133 | the client sees 499 if and only if the delegate returned 499 (relayed) or threw an abort-shaped error |
| Route.Status503Origin | app/api/copilotkit/route.ts:78-133 | the client sees 503 if and only if the delegate returned 500 or 503, or threw a network-shaped error that is not abort-shaped |
| Route.ExampleAbortError | app/api/copilotkit/route.ts:99-104 | example: `{name: "AbortError"}` thrown yields the empty 499 |
| Route.ExampleFetchFailed | app/api/copilotkit/route.ts:99-120 | example: a thrown `fetch failed` yields 503 |
| Route.ExampleCapitalisedAborted | app/api/copilotkit/route.ts:99-132 | example: a thrown message `Aborted` alone yields 500 |
| RejectionFilter.GlobalSilences | app/api/copilotkit/route.ts:17-29 | the listener returns silently exactly for an object reason named `AbortError`, coded 20, or whose message contains `aborted`, and logs every other reason |
| RejectionFilter.NonObjectReasonLogged | app/api/copilotkit/route.ts:19-28 | example: a `null`, `undefined` or primitive reason is logged |
| RejectionFilter.FilterAgreesWithHandler | app/api/copilotkit/route.ts:19-21 | the listener is silent for an error exactly when the handler would answer it with 499, and logs exactly the errors the handler answers with 503 or 500 |

## Left out

- Construction of the CopilotKit runtime, the empty service adapter, the Agno connector and the
  endpoint's `handleRequest` (route.ts lines 1-7, 34-44, 72-78): foreign library code; the
  model takes the delegate's `Outcome` as its input.
- Creating a fresh runtime for every request (lines 66-70): as the comments at lines 36 and
  66-69 explain, a runtime kept from a request the user stopped may still hold its aborted
  `AbortController` and would poison later requests. The model keeps no state across requests,
  so there is nothing to model.
- The diagnostic block (lines 49-63): parsing a clone of the body as JSON and logging it. It
  catches its own failures and its result is not used afterwards, so `Classify` does not take
  the body as an input.
- Removing and installing process listeners (lines 12-17) and every `console` call: only the
  silence-or-log decision of the listener is modelled.
- A thrown value that is `null` or `undefined`: the handler's `error.name` (line 99) would
  itself throw, so the route defines no response for it.
- A truthy `message` that is not a string. A number or boolean has no `includes`, so the
  handler's test (line 100) and the listener's test (line 21) would themselves throw; an array
  has `Array.prototype.includes`, which tests element membership, so `{message: ["aborted"]}`
  would be abort-shaped. Neither case is modelled: the model covers string messages only.
- Response headers (`Content-Type`) and the localized message texts, which are opaque constants.
- `next.config.js`: static framework configuration with no logic.
- Characters are Unicode scalar values rather than UTF-16 code units; the words searched for
  are ASCII, so the substring tests are unaffected.
