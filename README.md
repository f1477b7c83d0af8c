# Digital Twin chat: session manager, input validator and admission control

This project models the logic of the "Digital Twin" chat of a portfolio site.
The rest of the site is static pages and a bilingual string table.

- **The chat widget's session manager** (`frontend/components/twin.tsx`, `sendMessage`), in module `Widget`.
  The class `ChatWidget` holds the four React state cells: the transcript, the input text, the busy flag and the session id.
  - `Begin` is the synchronous half of a submission. It is the guard, the optimistic user turn and the request it sends.
  - `Complete` is the half that runs after the `await`. It adopts the session id if none is held, appends the reply or the fixed apology, and clears the busy flag.
  - Both methods are tied to the pure transition functions `Submit` and `Settle`.
  - Lemmas over those functions state the one-step guarantees. `Play` replays many rounds, and lemmas about it state what holds across a whole conversation.
- **The backend's input validator** (`backend/security.py`), in module `Security`.
  - It has the empty check on the raw message and the sanitiser: drop null characters, collapse every whitespace run into one space, strip.
  - It has the 2000-character cap on the sanitised text and the injection screen, run in that order. Everything is pure functions and lemmas.
- **The backend's admission control and bookkeeping** (`backend/server.py`), in module `Server`.
  - The class `Backend` holds the stores as fields: the module-level per-IP rate-limit store and per-minute token budget, and the conversation store (S3 objects or local files, which outlive the process).
  - Its methods are the API-key and rate-limit middleware, the two budget helpers, `/chat` and `/conversation/{id}`.
  - The history window that `call_bedrock` builds is a method with a loop.
  - A replay of one IP's requests (`Replay`) proves that the sliding window is exact.

Outside effects are parameters. The widget receives the fetch result as an `Outcome`: a parsed reply, or one failure value. That value covers a status that is not ok, a fetch that throws and a body that is not JSON. The backend receives an `Environment` with these parts:

- a fresh uuid4;
- the minute read by the budget check, and the minute read again when the tokens are recorded after the model call;
- the two save timestamps;
- a uuid well-formedness predicate;
- the injection-pattern matcher;
- the model call, which returns a reply text with its token count, or an error.

Some consequences of the code that a reader might not expect:

- Only the guard trims (`twin.tsx:30`). The stored and the sent message are the raw, untrimmed input (`twin.tsx:35,51`).
- A body that parses to a JSON object without a `response` field is not turned into the apology. The apology follows a status that is not ok, a thrown fetch, a JSON parse failure, or a body that parses to `null`, because reading a field of `null` throws inside the `try` (`twin.tsx:56-58,61,67,72-80`). All of these are the single `Outcome.Failed`.
- Typing is blocked while a request is in flight, because the input box is `disabled={isLoading}` (`twin.tsx:239`). `Widget.Typed` and `ChatWidget.Type` leave the state unchanged while busy.
- A validation failure on the server is an ordinary reply carrying a session id. So the widget can adopt its first session id from a refused message (`server.py:216-220`).
- The minute is read twice per request: once by the budget check (`server.py:236`) and again when the tokens are recorded after the model call (`server.py:244`). If the minute changes while the model runs, the count restarts and the reply's tokens are charged to the new minute.
- A valid verdict does not promise a non-empty message. The empty check runs on the raw text, before null characters are removed, so `"\0"` passes it and sanitises to `""` (`Security.NullOnlyMessage`).

## Model

| member | source | states |
|---|---|---|
| `Security.RemoveNulls` | backend/security.py:81 | the result holds no null character, and every other character of the input the same number of times as before |
| `Security.RemoveNullsAppend` | backend/security.py:81 | removing nulls works piece by piece, so the other characters keep their order |
| `Security.CollapseRuns` | backend/security.py:84 | every whitespace character of the result is a plain space and no two are adjacent; after a run it does not start with whitespace; it adds no character except the space |
| `Security.CollapsePadded` | backend/security.py:84 | the collapsed text is the words of the text joined by single spaces, with one space in front when the text starts with whitespace and one behind when it ends with whitespace after a word |
| `Security.TrimStart` | backend/security.py:84 | the result is a suffix of the input that does not start with whitespace, and everything dropped is whitespace |
| `Security.TrimEnd` | backend/security.py:84 | the result is a prefix of the input that does not end with whitespace, and everything dropped is whitespace |
| `Security.Strip` | backend/security.py:84 | the result has no leading and no trailing whitespace |
| `Security.Sanitize` | backend/security.py:75-86 | the sanitised text holds no null, no whitespace but single spaces, no two adjacent whitespace characters, and no leading or trailing whitespace |
| `Security.SanitizeFixesSanitized` | backend/security.py:75-86 | text that already has those properties is returned unchanged |
| `Security.SanitizeIdempotent` | backend/security.py:75-86 | sanitising twice gives the same as sanitising once |
| `Security.SanitizeKeepsVisible` | backend/security.py:80-84 | the sanitiser removes only whitespace and null characters: every other character survives, in order |
| `Security.SanitizeEmptyIff` | backend/security.py:80-84 | the sanitised text is empty exactly when the message holds only whitespace and null characters |
| `Security.SanitizeJoinsWords` | backend/security.py:80-86 | the sanitised message is exactly the words of the message, nulls removed, joined by single spaces: each whitespace run between two words becomes one space, and leading and trailing whitespace is gone |
| `Security.CheckLength` | backend/security.py:56-60 | passes exactly when the text has at most 2000 characters; otherwise the error is the "Message too long" text, and the error is empty on a pass |
| `Security.LengthCapInclusive` | backend/security.py:15 | exactly 2000 characters pass the length check; 2001 fail with the "Message too long" text |
| `Security.Lower` | backend/security.py:65 | same length; each ASCII capital becomes its lower-case letter and every other character is unchanged |
| `Security.FirstMatch` | backend/security.py:67-70 | the search over the patterns returns the first pattern that matches, or nothing exactly when no pattern matches |
| `Security.DetectInjection` | backend/security.py:63-72 | fails exactly when some pattern matches the lower-cased text, and then with the fixed "I can only answer questions…" text; empty error on a pass |
| `Security.Validate` | backend/security.py:89-111 | a refusal has an empty third component and one of the three fixed errors; an acceptance has an empty error and the sanitised message, at most 2000 characters long |
| `Security.EmptyMessageIff` | backend/security.py:95 | the empty check fails exactly on text that is empty or all whitespace, judged on the raw message |
| `Security.ValidateRefusesBlank` | backend/security.py:95-96 | empty or whitespace-only input gives `(False, "Message cannot be empty.", "")` |
| `Security.ValidateOrder` | backend/security.py:95-109 | checks run empty, then length, then injection: a message that is too long reports the length error even if a pattern matches |
| `Security.ValidateAcceptsIff` | backend/security.py:89-111 | a message is accepted exactly when it is not blank, its sanitised form has at most 2000 characters and no pattern matches that form lower-cased |
| `Security.NullOnlyMessage` | backend/security.py:95-111 | a lone null character gets past the empty check and, when no pattern matches empty text, is accepted with an empty sanitised message |
| `Widget.Endpoint` | frontend/components/twin.tsx:44 | the URL is the configured base URL, or `http://localhost:8000` when none is set, followed by `/chat` |
| `Widget.RequestFor` | frontend/components/twin.tsx:44-53 | the body carries `session_id` exactly when one is held, and it is the id held; the `X-API-Key` header is present exactly when a key is configured, and it is that key |
| `Widget.ChatWidget.constructor` | frontend/components/twin.tsx:14-17 | the widget starts with an empty transcript, empty input, not busy, no session id |
| `Widget.ChatWidget.Type` | frontend/components/twin.tsx:235-239 | typing replaces the input text while idle and changes nothing while a request is in flight |
| `Widget.ChatWidget.Begin` | frontend/components/twin.tsx:29-54 | the new state and the request are those of `Submit`; turns keep alternating user, assistant |
| `Widget.ChatWidget.Complete` | frontend/components/twin.tsx:56-87 | the new state is that of `Settle`; turns keep alternating and the transcript is even-length again |
| `Widget.SubmitRefused` | frontend/components/twin.tsx:30 | blank input or a request in flight: the state is unchanged and no request is sent |
| `Widget.SubmitAccepted` | frontend/components/twin.tsx:32-53 | an accepted submit appends exactly one user turn holding the raw input, keeps earlier turns, clears the input, sets busy and sends that turn's content with the session id held, when one is held |
| `Widget.SettleAppendsOneAssistantTurn` | frontend/components/twin.tsx:64-82 | every completion appends exactly one assistant turn after the earlier ones and clears busy; a failure appends "Sorry, I encountered an error. Please try again.", a reply its text |
| `Widget.SettleAdoptsSessionOnce` | frontend/components/twin.tsx:60-62 | a reply's session id is adopted only while none is held; a held id is never replaced, and a failure never changes it |
| `Widget.PlayGrowsByTwoPerSubmission` | frontend/components/twin.tsx:29-88 | over any sequence of rounds starting idle, the transcript grows by exactly two turns per non-blank submission, earlier turns are unchanged and the widget ends idle |
| `Widget.PlayKeepsAlternation` | frontend/components/twin.tsx:39-80 | over any sequence of rounds, turns alternate user, assistant: each submission's user turn comes right before its assistant turn |
| `Widget.PlayKeepsSession` | frontend/components/twin.tsx:60-62 | once a session id is held, no later round changes it |
| `Server.Recent` | backend/server.py:80 | each timestamp `t` with `now - t < window` is kept as many times as it occurs, every other timestamp is dropped, and the list does not grow |
| `Server.RateStep` | backend/server.py:80-83 | admits exactly when fewer than MAX kept timestamps remain; the stored list is the kept one, plus `now` on admission; an admitted list has at most MAX entries |
| `Server.KeepRecent` | backend/server.py:80 | the loop keeps exactly the timestamps `Recent` keeps, in order |
| `Server.RecentTwice` | backend/server.py:80 | pruning at one time and then at a later time is the same as pruning at the later time |
| `Server.AdmitsExactlyUnderLimit` | backend/server.py:76-83 | for a clock that never runs backwards, a request is admitted exactly when fewer than MAX earlier admitted requests of that IP lie within the window |
| `Server.BuildMessages` | backend/server.py:169-178 | the model gets the last min(20, n) stored turns in their original order, then one user message holding the new text: at most 21 messages |
| `Server.Backend.constructor` | backend/server.py:38-42 | the rate-limit store starts empty, the token store starts at minute "" with 0 used, and the conversation store is whatever storage already holds |
| `Server.Backend.SecurityMiddleware` | backend/server.py:62-85 | root, /health and OPTIONS pass untouched; a wrong key gets 403 and the store is untouched; otherwise this IP's list is pruned, a count at or above MAX gets 429 and records nothing more, and an admission appends `now`; other IPs never change and no list exceeds MAX |
| `Server.Backend.WithinTokenBudget` | backend/server.py:47-52 | a new minute resets the count to 0; the gate is open exactly when the count is below 15000 |
| `Server.Backend.RecordTokens` | backend/server.py:54-59 | after any reset, the count grows by exactly the tokens used |
| `Server.Backend.GetConversation` | backend/server.py:270-281 | an id that is not a uuid gets 400 "Invalid session ID format"; otherwise the stored turns of that id, none when unknown |
| `Server.Backend.Chat` | backend/server.py:211-240 | a refused message is answered with its error text and the supplied id unchecked or a fresh one, and nothing changes; a supplied id that is not a uuid gives 400 and nothing changes; otherwise the request is served under the supplied or a fresh id as `Respond` states |
| `Server.Backend.Respond` | backend/server.py:232-261 | an exhausted budget gives the fixed "temporarily unavailable" text, with no model call and nothing saved; a failed model call gives 500 and nothing saved; a reply is returned with the same session id and its tokens are recorded against the minute read after the model call: if that minute differs from the one the budget check read, the count restarts from 0 before the tokens are added, otherwise it grows by them; and the stored conversation grows by exactly the user turn (sanitised text) then the assistant turn |

## Left out

- Conversation storage (`load_conversation`, `save_conversation`, `get_memory_path`, S3 or local files) is a map from session id to turns. Storage errors, and the 500 they would cause, are not modelled.
- The model call (`bedrock_client.converse`, the system prompt built in `backend/context.py`, the inference settings) is the function `Environment.converse`. It returns the reply and its token count, or the error detail that `/chat` answers with 500. A response without its reply text counts as such an error. A missing token count is 0 (`Replied(text, 0)`), so the reply is recorded, saved and returned as usual (`server.py:191-192`).
- The injection patterns' regular-expression semantics are the abstract `Security.Matcher`. The warning logged on a match is left out.
- Security.Lower: folds ASCII letters only. The other case mappings of Python's `str.lower()` are not modelled. They matter only to the abstract matcher.
- uuid generation and parsing are abstract: `Environment.freshId` and `Environment.isUuid`. That a fresh uuid4 is unique and well-formed is not modelled.
- Clocks are integers: `time.time()` seconds and the millisecond `Date.now()`. The `strftime` minute is an abstract string. `Server.AdmitsExactlyUnderLimit` assumes a clock that never runs backwards.
- The middleware's hand-off to the endpoint (`call_next`) is the `Forward` decision. The endpoints are modelled separately.
- Requests to the backend are handled one at a time. Interleaving of concurrent async handlers, for example two `/chat` calls on one session between load and save, is not modelled.
- FastAPI, CORS and environment configuration, uvicorn, `print` and logging are left out.
- Widget: the scroll effect, the refocus `setTimeout`, the avatar HEAD probe, rendering and the Enter-key handler are left out. The Enter-key handler only calls `sendMessage`. The send button's `disabled={!input.trim() || isLoading}` (`twin.tsx:244`) is not modelled separately, because the guard in `Begin` refuses the same cases. The input box's `disabled={isLoading}` is modelled in `Type`.
- Widget: async interleaving and stale closures are not modelled. The widget runs sequentially, and the busy flag is the only exclusion.
- Widget: a reply body that parses but lacks `response` or `session_id` is not modelled. The source would store `undefined` there.
- Widget: message ids are the clock readings. Their decimal-string form, and the chance that two ids coincide, are not modelled.
