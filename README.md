# passport-canvas-app: a Dafny model of the `canvas-app` strategy

`CanvasAppStrategy` is a Passport strategy for Salesforce Canvas apps. A
Canvas app receives a POST whose form body carries
`signed_request = "<signature>.<encoded payload>"`. The payload is base64
JSON holding the OAuth token (`client.oauthToken`), the user and
organization ids (`context.user.userId`, `context.organization.organizationId`)
and a `context.environment` object.

The strategy works through these steps in order:

1. It checks the signature: the HMAC-SHA256 of the encoded payload under the
   consumer secret, in base64.
2. It decodes the payload.
3. It loads the user's identity profile with the payload's token. This
   lookup is the only defence against replay.
4. It asks the application's verify callback for a user.

On success it merges `context.environment` into `req.body`. It calls at most
one of Passport's `success(user)`, `pass()` or `fail(403, message)`. It calls
none of them when the identity lookup never answers or answers with a status
other than 200, or when the verify callback never answers.

The model:

- `js_string.dfy`, module `JsString`: JavaScript's `split` with a
  one-character separator, its inverse `join`, and the decimal keys of array
  indices. Split/join round trips are proved in both directions.
- `js_value.dfy`, module `JsValue`: JSON-shaped JavaScript values,
  truthiness, property reads, and `Object.assign`'s copy of a source's own
  entries (objects, and index-keyed entries of strings and arrays).
- `canvas_app.dfy`, module `CanvasApp`: the pipeline as pure functions over
  a `Promise` datatype. A promise is `Fulfilled`, `Rejected` or `Pending`;
  `Pending` means it never settles. This module also holds the
  `CanvasAppStrategy` class and the `Request` class. Their `Authenticate`
  method updates `req.body` in place and returns the `Outcome`: `Success`,
  `Pass`, `Fail`, or `Stuck` when none of the three is called.
- `canvas_properties.dfy`, module `CanvasProperties`: the guarantees.
  - When a request passes.
  - Which malformed requests fail.
  - Only the secret's own signature gets past the check.
  - The later steps are reached only in order.
  - How the callback's answer decides the outcome and the merged body.
- `canvas_scenarios.dfy`, module `CanvasScenarios`: the repository's test
  fixtures (payload, identity answer, the test server's `verifyUser`) as
  lemmas.

The collaborators are fields of a `Platform` value passed to the pipeline:
HMAC-SHA256 with a base64 digest (RFC 2104 over FIPS 180-4), Node's lenient
base64 decoding (section 4 of RFC 4648), `JSON.parse` (RFC 8259) and the HTTP
identity lookup. Nothing is assumed about them beyond what a lemma states in
its `requires`.

Behaviour of the code that the model keeps:

- A response other than 200 from the identity lookup does not fail the
  request. The `assert.equal` at index.js:136 throws inside the HTTP
  callback, outside the promise, so the promise never settles. The model
  gives `Pending`/`Stuck` (`StuckOnlyWhenUnanswered`). That `AssertionError`
  is an uncaught exception, which by Node's default ends the whole process;
  `Stuck` records only that the request gets no Passport action.
- The lookup request at index.js:132 sets no timeout, so it may never answer
  (`NoAnswer`). The promise then never settles either, and the outcome is
  `Stuck`.
- A missing *leaf* field (`userId`, `organizationId`, `oauthToken`) does not
  fail before the lookup: the code passes `undefined` on. Only a null or
  missing payload, `context`, `context.user`, `context.organization` or
  `client` throws (`ReadQuery`).
- The split accepts empty pieces. An empty signature fails only at the
  signature comparison (`EmptySignatureFails`), and only because a digest is
  never empty.
- A truthy `user` wins over an `error` passed with it.
- The signature is compared with plain string equality, not in constant
  time. There is no nonce or timestamp check.

## Model

| member | source | states |
|---|---|---|
| JsString.Split | index.js:49 | `split('.')` gives one piece more than there are dots, and no piece contains a dot |
| JsString.JoinSplit | index.js:49-52 | joining the pieces of a split gives back the original signed request, so the two parts are exactly what surrounds its single dot |
| JsString.SplitJoin | index.js:49-52 | splitting the join of dot-free pieces gives back those pieces |
| JsString.SplitPair | test/canvas_auth_test.js:63-71 | a request built as `signature + "." + encoded` from dot-free parts splits into exactly `[signature, encoded]` |
| JsString.DecimalStringInjective | index.js:29 | distinct indices have distinct decimal keys, so `Object.assign` from a string or array environment never collapses entries |
| JsValue.IndexedEntriesAt | index.js:29 | a string or array source contributes one entry per index, keyed by the index's decimal spelling, holding that element, and nothing else |
| JsValue.AssignFrom | index.js:29 | after `Object.assign(req.body, environment)` the keys are the union; the environment's entries override; other body entries are unchanged; a null or undefined environment changes nothing |
| CanvasApp.ReadQuery | index.js:121-129 | the property reads (`Read`, which throws on a null or undefined base) of `loadUserProfile`: the lookup query is built exactly when the payload, `context`, `context.user`, `context.organization` and `client` are all readable; it carries the organization id, user id and token as found, `undefined` included; otherwise it throws a read error |
| CanvasApp.LoadUserProfile | index.js:121-141 | a profile is produced only from a 200 answer to the payload's query; the promise stays pending exactly for a readable payload whose lookup answered another status or never answered; a transport error rejects with its message |
| CanvasApp.VerifyAsync | index.js:81-93 | only a truthy user resolves; a truthy user wins even with an error; an error rejects with its message; no user and no error rejects as not authorized; a throw rejects; a callback that never answers leaves the promise pending |
| CanvasApp.VerifyUser | index.js:68-77 | `_verifyUser` resolves only with a truthy user |
| CanvasApp.VerifySignature | index.js:44-63 | `_verifySignature` resolves to "no result" exactly when the request is not a POST with a truthy `signed_request`; any result carries a truthy user |
| CanvasApp.Settle | index.js:26-37 | `authenticate` fails only on a rejection, and always with 403; it passes exactly on "no result" and succeeds exactly on a result |
| CanvasApp.CanvasAppStrategy.constructor | index.js:10-18 | a strategy needs a truthy consumer secret; it is named `canvas-app` and keeps the secret and callback |
| CanvasApp.CanvasAppStrategy.Authenticate | index.js:21-39 | the outcome is the settled pipeline; `req.body` is merged with the environment on success and unchanged otherwise; a configured strategy never fails for a missing secret |
| CanvasProperties.PassExactlyWhenNotApplicable | index.js:44-62 | a request passes if and only if it is not a POST or its `signed_request` is missing or falsy; then the body is untouched |
| CanvasProperties.UnsplittableRequestFails | index.js:49 | a truthy `signed_request` that is not a string fails with 403 |
| CanvasProperties.WrongPartCountFails | index.js:49-50 | a signed request without exactly one dot fails with 403, reporting the part count |
| CanvasProperties.SignatureCheckedExactly | index.js:51-57 | for `signature.encoded` with dot-free parts, the request goes on to `_verifyUser(encoded)` if and only if `signature` equals the secret's signature of `encoded`; otherwise it fails with 403 |
| CanvasProperties.SignedRequestAccepted | index.js:54-59 | a request signed with the configured secret reaches `_verifyUser` with its payload |
| CanvasProperties.EmptySignatureFails | index.js:51-57 | an empty signature fails with 403 when the digest is not empty |
| CanvasProperties.ForeignSecretFails | index.js:54-57 | a request signed with another secret fails with 403 when the two signatures differ |
| CanvasProperties.CollaboratorsOnlyAfterSignature | index.js:54-59 | decoding, lookup and callback can affect the result only for a POST whose signed request is the configured secret's signature, a dot, and the payload |
| CanvasProperties.LookupOnlyForReadablePayload | index.js:68-71 | the lookup and the callback can affect the result only when the payload decodes and its field paths can be read |
| CanvasProperties.CallbackOnlyAfterProfile | index.js:70-71 | the callback can affect the result only after the lookup answered 200 |
| CanvasProperties.PayloadFailuresFail | index.js:98-141 | for a genuinely signed request: an unparseable payload fails with 403; an unreadable field path fails with 403; a transport error fails with 403 and its message; a non-200 answer, or no answer, leaves the request stuck |
| CanvasProperties.CallbackDecides | index.js:81-93 | after a 200 profile, the callback's answer decides the outcome. A truthy user is the success user, and the body gains `context.environment`. Otherwise: an error's message, the info, or "Not an authorized user" becomes the 403 failure. A throw fails. Silence leaves the request stuck |
| CanvasProperties.SuccessOnlyWhenEveryCheckPasses | index.js:21-93 | success requires all of these: a POST, a signed request that is the secret's signature, a dot and the payload, a decodable payload, a 200 profile for its query, and a callback answering with that very truthy user |
| CanvasProperties.ConfiguredSecretNeverMissing | index.js:54-55 | with a truthy secret the consumer-secret assertion never fails |
| CanvasProperties.StuckOnlyWhenUnanswered | index.js:131-140 | no Passport action is taken only for a genuinely signed, readable request whose lookup never answered or answered with a status other than 200, or whose callback never answered |
| CanvasScenarios.ServerVerifyUser | test/server.js:44-49 | the test callback authorizes exactly the profiles of organization 000123 and never passes an error or info |
| CanvasScenarios.CanvasDataQuery | test/canvas_auth_test.js:18-42 | the test payload addresses organization 000123, user 000456, token 00D000, and carries the parameters and record environment |
| CanvasScenarios.SignedInAsProfile | test/canvas_auth_test.js:230-282 | a correctly signed test request signs in as the identity profile, and the body is merged with the environment |
| CanvasScenarios.EnvironmentMerged | test/canvas_auth_test.js:273-281 | the merged body holds `parameters.page = special` and `record.Id = 001xx1`, and keeps `signed_request` |
| CanvasScenarios.OtherOrganizationRefused | test/canvas_auth_test.js:215-227 | a payload for organization 00DDDD fails with 403: "Not an authorized user" on a profile of that organization, or the transport error |
| CanvasScenarios.MissingPayloadObjectsRefused | test/canvas_auth_test.js:170-212 | payloads without `client`, `context.user` or `context.organization` fail with 403 at the read of the missing object |
| CanvasScenarios.MissingObjectsUnreadable | index.js:122-125 | the reads stop at `oauthToken`, `userId` and `organizationId` respectively on those payloads |
| CanvasScenarios.NonsensePayloadRefused | test/canvas_auth_test.js:117-127 | a payload whose decoded text is not JSON fails with 403 |
| CanvasScenarios.UnsignedFormPasses | test/canvas_auth_test.js:104-114 | a form without `signed_request` passes |
| CanvasScenarios.UndelimitedRequestRefused | index.js:49-50 | any non-empty signed request with no dot fails with 403, the split having given one part |

## Left out

- HMAC-SHA256, base64 and `JSON.parse` are function-valued collaborators, not implementations. `SignatureFor`, `DecodeEnvelope` and the scenario lemmas assume only what each statement names, for example that a digest is not empty or has no dot.
- The HTTP request to `login.salesforce.com` is left out: the URL template, query-string encoding and network I/O. The lookup is a function from the query's three values to a transport error, a status and body, or no answer.
- Promise scheduling, microtask order and the `Promise.resolve().then` chain are left out. The pipeline is a straight-line function whose result is the promise's final state.
- Passport's own behaviour is left out: sessions, and turning `fail(403, message)` into a `Forbidden` response. `Authenticate` returns which action it calls instead of calling it.
- Reason: the message text Node generates for its own `AssertionError` and `TypeError` (bad split, signature mismatch, read of null) is a tag, not the exact string. Callback and transport messages are kept exactly.
- CanvasAppStrategy.constructor: the `options` object and a non-string `consumerSecret` (a Buffer, say) are not modelled. The secret is a string copied at construction. A later change to the caller's `options` object, which the source would see, is not modelled.
- Verdict: the callback's `error` is an Error object, modelled by its message. Its `info` is a string. Other values for either, and a callback that calls `done` twice or throws after calling it, are not modelled.
- Characters: a string is a sequence of Unicode scalar values here, while JavaScript indexes it by UTF-16 code unit. A string environment holding a character outside the Basic Multilingual Plane contributes one index key in the model but two in JavaScript, each a lone surrogate. Lone surrogates, which `JSON.parse` can produce from `\ud83d` escapes, cannot be represented at all.
- JsValue.Get: inherited and built-in properties are not modelled (none of the keys the strategy reads names one). A `__proto__` key in the environment, non-integral numbers and NaN are not modelled either.
- A request without a parsed body (`req.body` undefined) is not modelled: the body is always a map.
- The test harness is left out: the Express server, body-parser and nock in test/server.js and test/canvas_auth_test.js. The payload, identity answer and `verifyUser` appear as scenario lemmas.
