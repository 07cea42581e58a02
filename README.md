# AI chat relay backend: a verified model

This project models the backend of a real-time AI chat application. It has three parts:

- **The socket handler** (`backend/server.js`). Every connection writes to one chat
  transcript that lives at module level. Each connection has its own `isProcessing`
  flag. An `ai-message` event drops a missing or empty prompt and appends the prompt as
  a user turn. If the flag is set, it then rejects the prompt. Otherwise it sets the
  flag and hands the whole transcript to `generateContent`. On success it appends a
  model turn and emits `ai-response`; on failure it emits a fixed `ai-error`. A
  cooldown timer clears the flag afterwards.
- **The completion service** (`backend/src/service/ai.service.js`). `generateContent`
  makes at most two attempts. It retries only after a 429, rethrows any other error at
  once, and returns a fixed "busy" text when both attempts were rate limited.
- **The account endpoints** (`backend/src/controllers/auth.controller.js`).
  `registeruser` and `loginuser` work over the users collection, a hash, a comparison
  and a token signer.

The handler's `await` and its `setTimeout` split it into separate events:

- `Message`: drop, append, busy check, dispatch.
- `UpstreamResult`: what happens after the await.
- `Cooldown`: the timer fires.
- `Connect` and `Disconnect`.

Any interleaving of these events across connections is a trace. `ChatServer.Step` is
the specification of one event. The class `ChatServer.Server` performs each event in
place and is proved against `Step`. An invariant is proved for every legal trace: a
flag is set exactly while that connection's call is outstanding or its cooldown is
pending, and every request sent upstream, as it stands at dispatch, is a prefix of the
shared history that ends with a user turn.

Points worth knowing about the code's behaviour:

- The transcript is one sequence shared by every connection. It has no cap and no
  eviction. `HistorySharedAcrossConnections` exhibits a second connection's request
  that carries the first connection's prompt.
- A prompt is appended before the busy check, so rejected prompts are recorded and
  sent upstream with the next admitted request.
- Completion does not clear the flag; only the cooldown event does.
- An empty upstream payload is not a distinct failure. Whatever `response.text()`
  returns is relayed as the answer.

Modules: `Wrappers` (Option), `Conversation` (turns), `AiService`, `ChatServer`,
`AuthController`.

## Model

| member | source | states |
|---|---|---|
| `AiService.GenerateContent` | backend/src/service/ai.service.js:16-38 | The loop gives the result and action log of the retry specification with 2 attempts. A generated text on attempt 1 is returned after exactly one request. A non-429 error on attempt 1 is rethrown after exactly one request. A 429 on attempt 1 is followed by a pause and a second request, whose outcome decides the result; a second 429 yields the fallback text. Its action log is exactly one of: one request; request, pause, request; or request, pause, request, pause. Every request carries the history unchanged, and a 429 is never rethrown. |
| `AiService.TwoAttempts` | backend/src/service/ai.service.js:20-37 | With the source's 2 attempts, the outcome is decided case by case by the first attempt: a generated text, a non-429 error, or a 429 followed by a pause and a second request whose outcome decides. The log is one request, or a request, a pause and a second request with an optional final pause. Every request carries the history, and a rethrown error is never a 429. |
| `AiService.AttemptsBounded` | backend/src/service/ai.service.js:20-21 | With `n` attempts left, at least one and at most `n` requests are made. |
| `AiService.RequestsCarryHistory` | backend/src/service/ai.service.js:22-25 | Every request sends the given history, unchanged, as its contents. |
| `AiService.RetryOutcome` | backend/src/service/ai.service.js:21-37 | Every attempt before the last was a 429. A rethrown error is the last attempt's, and not a 429. A returned text is either the last attempt's generated text or, when every attempt was a 429, the fallback text. |
| `ChatServer.StepPreservesInv` | backend/server.js:16-57 | Every enabled event keeps the invariant: flag set iff a call is outstanding or a cooldown is pending, never both; every request, as it stands at dispatch, is a prefix of the history ending in a user turn. |
| `ChatServer.RunPreservesInv` | backend/server.js:16-57 | Every legal trace of events across connections keeps the invariant. |
| `ChatServer.DroppedPromptIsIgnored` | backend/server.js:22-23 | A missing or empty prompt leaves the whole state unchanged: no append, no flag change, no emission, no call. A prompt of blanks is kept and appended. |
| `ChatServer.PromptRecordedBeforeBusyCheck` | backend/server.js:25-29 | A non-empty prompt is appended as a user turn whatever the flag says. |
| `ChatServer.BusyPromptRejected` | backend/server.js:31-34 | While the flag is set, a prompt emits exactly one `ai-error` with the wait notice. It makes no upstream call and leaves the flags and pending sets unchanged. |
| `ChatServer.IdlePromptDispatched` | backend/server.js:36-39 | An admitted prompt sets the flag and calls upstream with the whole shared history, which ends with that prompt. Nothing is emitted yet. |
| `ChatServer.NoSecondCall` | backend/server.js:31-39 | While a connection's call is outstanding, no prompt from it starts another call. |
| `ChatServer.SuccessRecordedAndRelayed` | backend/server.js:39-47 | A returned text, including the fallback text, is appended as exactly one model turn and emitted unchanged as `ai-response`. |
| `ChatServer.FailureEmitsFixedNotice` | backend/server.js:48-50 | A thrown error appends no turn and emits the fixed busy notice. Two different errors lead to the same state, so no part of the error reaches the client. |
| `ChatServer.CompletionKeepsFlag` | backend/server.js:51-53 | Completion on either path leaves every flag as it was and schedules the cooldown. The cooldown event then clears the flag. |
| `ChatServer.DisconnectKeepsState` | backend/server.js:55-57 | Disconnect changes neither the shared history nor any flag. |
| `ChatServer.HistoryOnlyGrows` | backend/server.js:15-47 | After any events from any connections, the old history is a prefix of the new one. Its length grew by one per kept prompt plus one per returned text. |
| `ChatServer.FlagHeldUntilCooldown` | backend/server.js:20-53 | Once a connection's flag is set, it stays set through any legal events that do not include that connection's cooldown. During them no upstream call is made for that connection. |
| `ChatServer.SingleExchange` | backend/server.js:22-47 | "hello" answered with "hi there" on a fresh connection gives a history of those two turns, one call carrying the user turn, one `ai-response`, and a flag still set. |
| `ChatServer.HistorySharedAcrossConnections` | backend/server.js:15-39 | Prompts from two connections go into one history: the second connection's request holds the first connection's prompt. |
| `ChatServer.Server.constructor` | backend/server.js:15 | The server starts with an empty shared history and no connections. |
| `ChatServer.Server.OnConnect` | backend/server.js:16-20 | A new connection gets a flag that is false; the history is unchanged. |
| `ChatServer.Server.OnMessage` | backend/server.js:22-39 | Performs the message step in place. It returns the transcript handed upstream exactly when the prompt is kept and the flag was clear; that transcript is the new history, ending with the prompt. |
| `ChatServer.Server.OnUpstreamResult` | backend/server.js:39-53 | Performs the result step in place. Flags are unchanged and the cooldown becomes pending. |
| `ChatServer.Server.OnCooldown` | backend/server.js:52 | The timer clears exactly that connection's flag. |
| `ChatServer.Server.OnDisconnect` | backend/server.js:55-57 | Only the connection's open status changes; history and flags are kept. |
| `ChatServer.Server.HandleAiMessage` | backend/server.js:22-53 | One message handled without interleaving: the message step. When the prompt was admitted, this is followed by the result step with what the retry loop computes for the new history. |
| `AuthController.Register` | backend/src/controllers/auth.controller.js:5-35 | An existing email gives 400 "User already exists!" with the store unchanged. Otherwise at most one record is added under the new email, and it holds the hashed password. A 201 response carries only username, email and id, and sets a cookie whose value is the signer's output over the new id with a 24 hour lifetime. The cookie is set exactly on 201. Any throwing collaborator, or an empty email or username rejected by the schema, gives 500 "Server Error" with the thrown message. |
| `AuthController.Login` | backend/src/controllers/auth.controller.js:37-56 | It responds 200 exactly when no used collaborator throws and the password matches the stored hash; the response carries only username, email and id, with a cookie whose value is the signer's output over the found id with a 24 hour lifetime, as `generateToken` (lines 5-7) makes it. An unknown email or a wrong password gives 400 "Invalid Credentials!". A throwing collaborator gives 500. |
| `AuthController.RegisterKeepsEmailsUnique` | backend/src/controllers/auth.controller.js:12-23 | Registration keeps every record under its own email and alters no existing record. |
| `AuthController.RegistrationsKeepEmailsUnique` | backend/src/controllers/auth.controller.js:12-23 | After any sequence of registrations, no two records share an email and no earlier record was changed or removed. The collection grew by at least the number of 201 responses. |
| `AuthController.LoginFailuresIndistinguishable` | backend/src/controllers/auth.controller.js:40-44 | An unknown email and a wrong password give the same response. |
| `AuthController.RegisterThenLogin` | backend/src/controllers/auth.controller.js:18-52 | After a successful registration, logging in with the same email and password returns 200 with the same user, provided the comparison accepts a password against its own hash. |
| `AuthController.TokenFailureAfterCreate` | backend/src/controllers/auth.controller.js:19-34 | A signer that throws after `create` gives the 500 response, but the new record stays stored. |
| `AuthController.UserCollection.RegisterUser` | backend/src/controllers/auth.controller.js:9-35 | Registration performed call by call on the collection. The new collection and the response are those of `Register`. |
| `AuthController.UserCollection.LoginUser` | backend/src/controllers/auth.controller.js:37-56 | Login performed call by call; it only reads the collection. The response is that of `Login`, and it is 200 exactly when the credentials match and no used collaborator throws. |

## Left out

- Cookie options: `AuthController.Response` keeps only the cookie's value. The cookie name `token` and the `{ httpOnly: true }` option (`backend/src/controllers/auth.controller.js:26`, `:47`) are the same on every response, so they are not modelled.
- Time: the 1200 ms pause after a 429 is a `Backoff` entry in the action log, and the 1500 ms cooldown is the `Cooldown` event. No durations are modelled; `Cooldown` can come at any point after the result.
- `ChatServer.Server.OnMessage`: the request is the history as it stands at dispatch. In the source, `generateContent` receives the live shared array. A retry after a 429 therefore sends the array as it is 1200 ms later, including turns other connections pushed in the meantime. The aliasing of the array is not modelled.
- Concurrency: the event loop and socket.io delivery become an arbitrary sequence of enabled events. Emissions to a socket that has disconnected are still recorded in the log, though socket.io discards them.
- HTTP bodies: `AuthController.RegisterBody` and `AuthController.LoginBody` assume that the JSON body carries `email`, `username` and `password` as strings. A missing or non-string field is not modelled. The source handles those through its collaborators: `bcrypt.hash` or `bcrypt.compare` throws on a missing password, which gives 500, and a missing `email` reaches `findOne({ email })` unchanged.
- Payloads: `data?.prompt` is `None` or a string. Other falsy values (`0`, `false`, `null`) behave like `None`. Truthy values that are not strings are not modelled.
- Gemini SDK, bcrypt and jsonwebtoken: these are oracles. The per-attempt outcomes are a sequence, and the hash, comparison, signer and assigned id are fields of `AuthController.Env`. Which collaborator throws is a set, and it carries one error message. Their internals, and the randomness of bcrypt's salt, are not modelled.
- `AiService.GenerateContent`: requires the oracle to supply at least two outcomes, meaning the upstream answers every attempt. A hung request is not modelled.
- `AuthController.RegistrationsKeepEmailsUnique`: says "at least" one record per 201 response. Sign failures after `create` also add records, so it does not give the exact count.
- Uniqueness of database ids is not modelled. The id is whatever the database assigns, as `Env.newId`.
- Concurrent registrations of the same email, where the unique index rather than the controller would reject the second, are not modelled.
- `console.log`, `dotenv`, the Express and socket.io wiring, the database connection and the React client are not modelled. The client refuses to send a prompt that is empty after trimming (`frontend/src/App.jsx:117`), but sends the text untrimmed (`frontend/src/App.jsx:130`). The server has no such check, so a prompt of blanks from any other client is kept, and the model follows the server.
