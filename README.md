# VibeCode photo enhancement, modelled in Dafny

VibeCode is a single-page React app. A signed-in user uploads a photo, writes a
"vibe" prompt and presses **Enhance Photo**. The handler `handleEnhancePhoto`
then checks its inputs and saves the prompt to the user's document in the
document store. It calls the image-generation endpoint with up to three
retries, waiting 1000, 2000 and 4000 ms between attempts, and reports the
result in the status line. This project models that orchestration. It also
models the rules around it:

- how the base64 payload is taken out of the uploaded `data:` URI and how the
  generated image is wrapped back into one (RFC 2397, section 3);
- how an endpoint reply is classified;
- when the submit button is enabled;
- how sign-out, the auth callback and the prompt snapshot change the
  component state.

Layout, one module per concern:

- `wrappers.dfy` (`Wrappers`): `Option`, the model of `null`/`undefined`.
- `data_uri.dfy` (`DataUri`): JavaScript's `split(',')` and `join(',')` on
  strings; `StripEnvelope` (`uri.split(',')[1]`); `PngDataUri` (the
  `data:image/png;base64,` envelope).
- `backoff.dfy` (`Backoff`): the retry constants and the delay schedule.
- `gemini_reply.dfy` (`GeminiReply`): the reply shapes and `PayloadOf`. A reply
  is a rejected fetch, or an HTTP status with a body that parses or does not.
  `PayloadOf` is the optional chain of line 163 plus the `!response.ok` and
  `!base64Data` checks.
- `prompt_store.dfy` (`PromptStore`): the merge write of the prompt document and
  the snapshot read of it.
- `enhancement.dfy` (`Enhancement`): one run as values. It covers the request
  sent, the trace of effects (`PromptWrite`, `Attempt`, `Wait`) and
  `Run`/`RunFrom`. Those two give the number of attempts and the final payload
  as a function of the endpoint's replies.
- `vibe_app.dfy` (`VibeApp`): class `App` holds the component state
  (`user`, `loading`, `vibe`, `message`, `inputImage`, `generatedImage`,
  `isEnhancing`). It also holds the document store contents and the event
  trace. Its methods are the handlers. `EnhancePhoto` calls `FetchWithRetry`,
  whose `while` loop replaces the source's recursion over `retryCount`. Both
  are proved against `Enhancement.Run` and `Enhancement.EnhanceTrace`. Client
  methods at the end replay concrete scenarios.

Inputs from the outside world are parameters:

- the outcome of the prompt save (`saveSucceeds`);
- the clock reading of `new Date()` (`now`);
- the endpoint's replies to successive attempts (`replies`; an attempt beyond
  the given sequence meets a network failure);
- the outcome of `signOut` (`succeeds`);
- the user delivered by the auth callback, and the document delivered by the
  snapshot.

`setTimeout` becomes a recorded `Wait(ms)` event.

What the code does not do, and the model therefore does not either:

- The handler does not reject a submission made while a run is in flight. Only
  the disabled button does (`SubmitEnabled`). `SubmitWhileEnhancingScenario`
  shows a run going ahead with `isEnhancing` already true.
- A failed prompt save is only logged. No status message reports it, and the
  run's final message is the generation result.
- Results are not discarded when the user signs out mid-run. There is no
  identity check at completion.
- The run's progress is held only in the `isEnhancing` flag and the message
  text; the component keeps no other record of which phase a run is in.
- `handleSignOut` does not clear `user` itself. The auth callback does that
  when it fires with no user.

## Model

| member | source | states |
|---|---|---|
| DataUri.SplitOnComma | VibeCodeApp.jsx:113 | `split(',')` yields at least one field, none holds a comma, and joining them with commas gives back the input |
| DataUri.SplitJoin | VibeCodeApp.jsx:113 | splitting undoes joining comma-free fields, so split and join are inverse |
| DataUri.StripEnvelope | VibeCodeApp.jsx:113 | `split(',')[1]` is undefined exactly when the URI has no comma; when defined it holds no comma |
| DataUri.StripEnvelopeSound | VibeCodeApp.jsx:113 | a stripped payload is the text between the first comma and the next comma (or the end) |
| DataUri.StripEnvelopeComplete | VibeCodeApp.jsx:113 | conversely, the text between the first and the next comma is what stripping returns |
| DataUri.StripPngDataUri | VibeCodeApp.jsx:168 | stripping a URI built at line 168 returns its payload if and only if the payload has no comma |
| DataUri.Base64RoundTrip | VibeCodeApp.jsx:168 | a base64 payload always survives build-then-strip |
| DataUri.StripUploadedUri | VibeCodeApp.jsx:113 | an uploaded `data:<type>;base64,<payload>` URI of any media type strips to its payload |
| Backoff.DelaysAt | VibeCodeApp.jsx:174 | the k-th entry of the wait schedule is the wait `retryDelay * 2 ** (k - 1)` before retry k |
| Backoff.DelayDoubles | VibeCodeApp.jsx:174 | each backoff wait is twice the one before |
| Backoff.DelayTable | VibeCodeApp.jsx:128-130 | with three retries and a 1000 ms base, the waits are 1000, 2000 and 4000 ms |
| GeminiReply.FirstInlinePart | VibeCodeApp.jsx:163 | `find(p => p.inlineData)` returns the first part with `inlineData` and none exists when it finds nothing |
| GeminiReply.PayloadOf | VibeCodeApp.jsx:158-166 | an attempt yields a payload only for an ok status with a parsed body, and the payload is never empty |
| GeminiReply.PayloadIsFirstImagePart | VibeCodeApp.jsx:158-166 | an attempt succeeds with `d` if and only if `d` is the non-empty data of the first part of the first candidate that carries `inlineData` |
| GeminiReply.LaterImagePartIgnored | VibeCodeApp.jsx:163 | if the first `inlineData` part has no data, an image in a later part does not rescue the attempt |
| PromptStore.MergeWrite | VibeCodeApp.jsx:118-121 | a merge write overwrites the given fields and keeps every other field |
| PromptStore.SavePromptMerges | VibeCodeApp.jsx:117-121 | the prompt save sets `text` and `lastUpdated` of the user's own document and keeps other fields and other users' documents |
| PromptStore.SavedPromptReloads | VibeCodeApp.jsx:39-45 | a saved prompt is what the next snapshot of that document loads into `vibe` |
| Enhancement.RequestCarriesUploadPayload | VibeCodeApp.jsx:134-149 | the request carries the prompt and the upload's base64 payload, tagged `image/png` whatever the uploaded type |
| Enhancement.RunFrom | VibeCodeApp.jsx:132-181 | a run makes between 1 and 4 attempts, every attempt before the last failed, the result is the last attempt's payload, and a failed run has used all 4 |
| Enhancement.RunStopsAtFirstSuccess | VibeCodeApp.jsx:132-181 | if attempt n+1 (n at most 3) is the first to succeed, the run stops after n+1 attempts with that payload |
| Enhancement.RunExhaustsRetries | VibeCodeApp.jsx:172-178 | if every attempt fails, the run makes exactly 4 attempts and yields nothing |
| Enhancement.FailedAttemptsCounts | VibeCodeApp.jsx:172-175 | r failed attempts record r attempts, the first r backoff waits in order, and no prompt save |
| Enhancement.EnhanceTraceShape | VibeCodeApp.jsx:115-181 | a run of n attempts saves the prompt exactly once and first, sends the same request n times, ends on an attempt, and waits exactly the first n-1 backoff delays |
| Enhancement.ExhaustedRunWaits | VibeCodeApp.jsx:128-178 | when every attempt fails, there are 4 attempts and exactly the waits 1000, 2000, 4000, with no fourth retry |
| VibeApp.SubmitEnabled | VibeCodeApp.jsx:288 | the button is enabled exactly when the handler's guard would pass and no run is in flight |
| VibeApp.App.constructor | VibeCodeApp.jsx:21-28 | the initial state: no user, loading, empty prompt and message, no images, not enhancing |
| VibeApp.App.EnhancePhoto | VibeCodeApp.jsx:103-189 | guard failure changes only the message; otherwise the save goes ahead whatever its outcome, the trace is the save then the attempts of `Run`, the image and message follow the run's result, and `isEnhancing` ends false |
| VibeApp.App.FetchWithRetry | VibeCodeApp.jsx:132-181 | entered with `isEnhancing` true and the image cleared, the retry loop makes exactly `Run`'s attempts with the backoff waits between them; on success it sets the PNG data URI and the success message, on exhaustion the failure message and leaves the image |
| VibeApp.App.SignOut | VibeCodeApp.jsx:78-89 | a successful sign-out clears both images and reports success; a failed one only reports the error |
| VibeApp.App.OnAuthStateChangedAsWritten | VibeCodeApp.jsx:33-57 | the callback as written: with a user it sets the user and returns before ending loading; without one it clears user and prompt and ends loading |
| VibeApp.App.OnAuthStateChanged | VibeCodeApp.jsx:33-57 | the callback with loading ended on both branches |
| VibeApp.App.OnSnapshot | VibeCodeApp.jsx:39-48 | the prompt becomes the document's `text`, or empty for a missing document or field |
| VibeApp.RetriedSuccessScenario | VibeCodeApp.jsx:103-189 | three 500 replies then an image, with a failed save: success message, the PNG data URI, and waits 1000, 2000, 4000 |
| VibeApp.EmptyPromptScenario | VibeCodeApp.jsx:104-107 | an empty prompt yields the validation message with no save and no attempt |
| VibeApp.SubmitWhileEnhancingScenario | VibeCodeApp.jsx:103-110 | a submission while `isEnhancing` is true, which the button would refuse, still makes all 4 attempts against a failing endpoint and ends with `isEnhancing` false while the first run is still in flight |
| VibeApp.RestoredSessionAsWritten | VibeCodeApp.jsx:50-56 | as written, a first auth notification that carries a user leaves `loading` true |
| VibeApp.RestoredSession | VibeCodeApp.jsx:50-56 | with the correction, the same notification ends loading |

`FetchWithRetry` requires `isEnhancing` to be true, `generatedImage` to be
cleared and the message to be "Enhancing photo...". `EnhancePhoto` establishes
all three before it calls it. The frame of `FetchWithRetry` covers only
`events`, `generatedImage` and `message`. So `isEnhancing` stays true for every
attempt and wait, and the image stays cleared until a success.

## Left out

- Firebase initialisation and the ambient globals (lines 6-18) are left out. They are configuration with no logic. The document path's `appId` is dropped, so the store is keyed by user id alone.
- The initial sign-in attempt (lines 59-72) is left out, and so is its error message. It is a call into the identity provider.
- Subscribing and unsubscribing the auth and snapshot listeners is left out. Only the state updates of their callbacks are modelled. The unsubscribe function returned at line 50 is ignored by the auth library, so the snapshot listener leaks; this is not modelled.
- `fetch`, the URL and API key, `JSON.stringify` and `response.json()` are replaced by the `Reply` datatype. Reply shapes outside the typed JSON structure are not modelled.
- GeminiReply.PayloadOf: a truthy `data` that is not a string, such as a number or an object, passes the `!base64Data` test of line 165. Line 168 then embeds it in the URI and the attempt succeeds. The model's `data` is always a string, so it cannot represent that success.
- GeminiReply.PayloadOf: a `null` part makes `find` throw, which fails the attempt, but only when it comes before the first part with `inlineData`. The model's parts are never `null`.
- `setTimeout` is recorded as a `Wait` event. No time passes.
- `handleImageUpload` and `FileReader` (lines 91-101), and the prompt textarea's `onChange`, are left out. These are browser I/O. The stored data URI and the prompt are inputs.
- JSX rendering, the payment placeholder (lines 192-318), `console` logging and the unused `isSaving` state are left out.
- The outer `catch` at lines 183-185 is left out. It cannot be reached, because the inner handler catches every error an attempt throws.
- Interleaving is not modelled. Each handler runs to completion in one step. In the app, other handlers can run at each `await` of a run, for example a sign-out whose result the run then overwrites. The intermediate message "Enhancing photo..." is set but is visible only during a run.
- A failed prompt save writes nothing. Local caching by the document store before a failed round trip is not modelled.
- App.EnhancePhoto: a prompt save whose promise never settles, as a document-store write does while the client is offline, is not modelled. At line 118 the run would then wait before its first attempt, with `isEnhancing` true and the message "Enhancing photo...". `saveSucceeds` covers only a save that resolves or rejects.
- PromptStore.SnapshotText: a truthy `text` field that is not a string (the model's `Timestamp`) becomes the empty prompt. The app would store that value itself.
- Enhancement.ReplyAt: a reply script shorter than the attempts made counts the missing replies as network failures. A fetch that never settles, which would leave the run pending forever, is not modelled.

## Findings

| source | as written | input that shows it | evidently intended | confidence | as-written member | corrected member |
|---|---|---|---|---|---|---|
| VibeCodeApp.jsx:50-56 | when the auth callback receives a user it returns at line 50, so `setLoading(false)` at line 56 never runs | the first auth notification already carries a user, as when a persisted session is restored on page load: `loading` stays true, and the spinner hides the main panel and the sign-out button | loading ends on every auth notification | medium, not executed | VibeApp.RestoredSessionAsWritten | VibeApp.RestoredSession |
