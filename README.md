# egogo: per-user records and client state machines in Dafny

egogo lets a signed-in user describe themself in a form, have a generative
model turn that description into an "ego" persona (an avatar image plus a
system prompt), and chat with it. This project models the parts of the app
that decide what is stored and what is shown:

- the three serverless handlers that read and write the per-user record in
  the key-value store: `api/get-user-data.ts` (fetch-or-create, the 24-hour
  energy recharge, the identity refresh), `api/save-chat-history.ts` (the
  50-message window) and `api/create-persona.ts` (prompt templates, image
  selection with its placeholder, greeting fallback, replacement of the
  persona slot);
- the chat relay `api/chat.ts` (history to role-tagged transcript, one-shot
  or streamed reply, empty chunks dropped);
- the browser side: the chat screen's daily counter, send guard and
  streaming placeholder (`components/ChatScreen.tsx`), the app's
  creation/loading/chat machine (`App.tsx`), the persona form
  (`components/PersonaCreation.tsx`) and the home screen's preview
  (`components/HomeScreen.tsx`).

Modules, one per source file plus shared ones:

| file | module | form |
|---|---|---|
| types.dfy | `Types` | the records of `types.ts`, plus the stored `UserData`/`PersonaInstance` and `Raw`, a stored value as a handler sees it (null, a primitive, or an object with its key set) |
| http.dfy | `Http` | requests, responses, and `Gen<T>` for a model call that returns or throws |
| kv_store.dfy | `KvStore` | the store as a class over `map<string, Raw>`, and `StoreFault` for a store that is not configured, or whose read or write throws |
| js_text.dfy | `JsText` | the JavaScript primitives the core relies on: `trim`, `parseInt`, number `toString`, `join`, `encodeURIComponent` |
| get_user_data.dfy, save_chat_history.dfy, create_persona.dfy | `GetUserData`, `SaveChatHistory`, `CreatePersona` | each handler is a method on the store, proved equal to a function of the old store and the inputs; the properties are lemmas about that function |
| chat_api.dfy | `ChatApi` | the handler as a method without state; the stream relay as a loop over a controller class |
| chat_screen.dfy | `ChatScreen` | the component's state as a class; `SendMessage` streams into the placeholder with a loop |
| app.dfy | `AppScreen` | the component's state as a class whose methods are proved against functions on a `Snapshot` of it |
| persona_creation.dfy, home_screen.dfy | `PersonaCreation`, `HomeScreen` | pure functions and lemmas |

Inputs a handler or component cannot compute are parameters: `Date.now()`
readings, `toLocaleDateString()`, the browser's local storage, what the
models return (or that they throw), and how the store misbehaves.

Facts about the code that shape the model:
- In api/create-persona.ts a throwing image or greeting call ends in 500
  and nothing is stored; only an empty result falls back (to the
  placeholder or the default greeting).
- api/chat.ts does no email, persona or energy checks and has no 429. No
  handler reads or decrements `chatEnergy` except the recharge in
  api/get-user-data.ts.
- A creation replaces the single persona slot; there is no persona cap.
- The daily limit the user meets is the browser's local counter in
  components/ChatScreen.tsx, not the stored energy.

## Model

| member | source | states |
|---|---|---|
| GetUserData.Classify | api/get-user-data.ts:8-17 | a stored value passes the shape check exactly when it is an object holding all four keys (values are not checked); it counts as missing (nothing logged) exactly when it is null or a falsy primitive |
| GetUserData.FreshRecord | api/get-user-data.ts:44-51 | a new record has the request's user, no persona, energy 20 and the recharge time `now` |
| GetUserData.Recharge | api/get-user-data.ts:54-57 | a day or more after the last recharge, energy becomes 20 and the time `now`; before that, the record is unchanged |
| GetUserData.Refreshed | api/get-user-data.ts:37-60 | the record written back always passes the shape check and carries the request's user |
| GetUserData.HandleGetUserData | api/get-user-data.ts:19-77 | the handler's response and new store equal `GetUserDataSpec` of the old store: 405, 500 for a missing configuration (before the body is read) or unparsable body, 400, 500 on store failures, else 200 after one write |
| GetUserData.MissingEmailIsRejected | api/get-user-data.ts:27-30 | no body or no email gives 400 and the store is untouched |
| GetUserData.ReturnedIsWritten | api/get-user-data.ts:62-66 | only a 200 changes the store, and it writes exactly the returned record under the request's email |
| GetUserData.MissingOrMalformedIsFresh | api/get-user-data.ts:37-51 | a missing or malformed value becomes a fresh full-energy record with no persona, stamped `now` |
| GetUserData.ValidRecordIsRefreshed | api/get-user-data.ts:52-60 | for a valid record the user is replaced and the persona and keys kept; it recharges iff a full day has passed |
| GetUserData.RechargeBoundary | api/get-user-data.ts:5 | 24 h minus 1 ms after the last recharge does not recharge; 24 h does |
| GetUserData.EnergyStaysInRange | api/get-user-data.ts:49-55 | energy in [0, 20] before stays in [0, 20] after |
| GetUserData.FetchIsIdempotent | api/get-user-data.ts:54-62 | repeating the fetch on its own output with the same clock gives the same response and store |
| SaveChatHistory.CapHistory | api/save-chat-history.ts:33-37 | the saved log is the input's last min(n, 50) messages |
| SaveChatHistory.HandleSaveChatHistory | api/save-chat-history.ts:10-55 | the handler's response and new store equal `SaveChatHistorySpec` of the old store: 405, 500 for an unparsable body, 400, 500 on a failing read, 404 "User not found." for null or a falsy primitive, 404 "Persona not found.", 500 on a failing write, else 200 after one write |
| SaveChatHistory.CapIsIdempotent | api/save-chat-history.ts:34-36 | capping a capped log changes nothing |
| SaveChatHistory.CapDropsOldest | api/save-chat-history.ts:8 | one message added to a full window pushes out exactly the oldest |
| SaveChatHistory.MissingFieldsAreRejected | api/save-chat-history.ts:18-20 | a falsy email, persona id or log gives 400 and nothing is written |
| SaveChatHistory.NotFoundWritesNothing | api/save-chat-history.ts:22-30 | an unknown user (null or a falsy primitive), no persona or another persona's id gives 404 with the matching message and nothing is written, whether or not the write would fail |
| SaveChatHistory.SaveChangesOnlyHistory | api/save-chat-history.ts:39-41 | a save changes only the persona's log under that email; user, energy, recharge time, persona id and content, and every other key are kept |
| CreatePersona.InterleaveEmbedsHole | api/create-persona.ts:13-32 | filling a template puts each value verbatim at its computed offset |
| CreatePersona.InterleaveLength | api/create-persona.ts:35-70 | a filled template is as long as its fixed text plus its values |
| CreatePersona.JoinIsInterleave | api/create-persona.ts:19 | `keywords.join(', ')` is the template with nothing before the first keyword, ", " between neighbours and nothing after the last |
| CreatePersona.JoinPiecesShape | api/create-persona.ts:19 | the join template of n values is "" first, the separator at each of the n − 1 inner places, and "" last |
| CreatePersona.JoinEmbedsEach | api/create-persona.ts:19 | each keyword appears verbatim in the joined text at its offset |
| CreatePersona.SystemInstruction | api/create-persona.ts:13-32 | no contract of its own: the template literal as fixed pieces filled with the form values; its content is stated by `SystemInstructionEmbedsForm` |
| CreatePersona.ImagePrompt | api/create-persona.ts:35-70 | no contract of its own: the template literal as fixed pieces filled with personality, tone and joined keywords; its content is stated by `ImagePromptEmbedsForm` |
| CreatePersona.SystemInstructionEmbedsForm | api/create-persona.ts:13-32 | the system prompt holds the six fields and the keywords joined by ", " verbatim, and nothing else varies |
| CreatePersona.ImagePromptEmbedsForm | api/create-persona.ts:35-70 | the image prompt holds personality, tone and joined keywords verbatim |
| CreatePersona.FirstImageUrl | api/create-persona.ts:110-118 | the data URI of the first part with both a MIME type and data; none iff no part has both |
| CreatePersona.SelectImageUrl | api/create-persona.ts:108-119 | the loop with its `break` yields that first data URI, or "" |
| CreatePersona.DataUriIsNonEmpty | api/create-persona.ts:115 | a data URI is never empty, so the `!imageUrl` test means "no image" |
| CreatePersona.PlaceholderUrl | api/create-persona.ts:123 | the placeholder is the picsum prefix, the seed and "/512", and the seed holds no '/', so it stays one path segment |
| CreatePersona.ImageUrl | api/create-persona.ts:121-124 | the avatar URL is never empty |
| CreatePersona.ImageUrlFallsBackToPlaceholder | api/create-persona.ts:121-124 | the avatar URL is never empty; with no image it is the placeholder whose seed is the encoded personality, with no '/' in it |
| CreatePersona.GreetingText | api/create-persona.ts:131 | the model's text if non-empty, else the default greeting; never empty |
| CreatePersona.HandleCreatePersona | api/create-persona.ts:78-166 | the handler's response and new store equal `CreatePersonaSpec` of the old store: 405, 500 for an unparsable body, 400, 500 on a failing read, 404 for null or a falsy primitive before any model call, 500 for a missing form, a throwing model call, a truthy primitive or a failing write, else 200 after one write |
| CreatePersona.MissingEmailIsRejected | api/create-persona.ts:87-89 | a missing email gives 400 whatever the store holds, and nothing is written |
| CreatePersona.UnknownUserIsRejected | api/create-persona.ts:91-95 | an unknown user (null or a falsy primitive) gives 404 whatever the models would return, and nothing is written |
| CreatePersona.TruthyPrimitiveFails | api/create-persona.ts:91-95 | a truthy primitive under the email passes the `!userData` test, and setting its `persona` throws (line 148): 500 with nothing written |
| CreatePersona.FailureWritesNothing | api/create-persona.ts:148-165 | every non-200 outcome leaves the store as it was |
| CreatePersona.CreationReplacesOnlyPersona | api/create-persona.ts:133-157 | a success replaces only the persona slot, with the generated prompt, the avatar `ImageUrl` chooses from the image reply (never empty) and one AI greeting; all else is kept and the record is returned |
| CreatePersona.BareFormBodyIsRejected | services/geminiService.ts:32-38 | the body the client posts always draws 400 (see Findings) |
| CreatePersona.WrappedBodyCreatesPersona | api/create-persona.ts:84-95 | the body the handler expects, for a known user, creates the persona from the form |
| ChatApi.ToContents | api/chat.ts:32-35 | the transcript has one entry per history message |
| ChatApi.ToContentsPointwise | api/chat.ts:32-35 | the transcript keeps length and order, copies each text, and gives the user role exactly to user messages |
| ChatApi.HandleChat | api/chat.ts:23-93 | 405; 500 for an unparsable body or missing history; otherwise the model gets the transcript plus the new user turn, one-shot iff `stream === false`; the reply is JSON text, a stream, or 500 if the call throws |
| ChatApi.TranscriptEndsWithUserTurn | api/chat.ts:37 | the transcript is one longer than the history and ends with the new message as a user turn |
| ChatApi.Forwarded | api/chat.ts:68-74 | only non-empty chunk texts are forwarded |
| ChatApi.ForwardedKeepsAllText | api/chat.ts:68-74 | the forwarded chunks together equal all chunk texts together |
| ChatApi.ForwardedAppend | api/chat.ts:69-73 | one more chunk adds its text to what is forwarded iff that text is non-empty |
| ChatApi.StreamController.Enqueue | api/chat.ts:72 | enqueuing appends one chunk to an open stream |
| ChatApi.StreamController.Close | api/chat.ts:75 | closing marks an open stream closed |
| ChatApi.StreamController.Error | api/chat.ts:66-76 | a `start` that rejects errors an open stream; `queued` is the record of the `enqueue` calls made before, which is kept, not what a reader still receives |
| ChatApi.Pump | api/chat.ts:66-77 | the `enqueue` calls are exactly the forwarded chunks, in order; the stream is then closed once, or errored instead if iteration fails |
| ChatScreen.Remaining | components/ChatScreen.tsx:253 | the label is max(0, 20 − count), never negative; NaN stays NaN |
| ChatScreen.StoredCount | components/ChatScreen.tsx:49 | `parseInt` of the stored count; a missing or empty value reads as 0 |
| ChatScreen.StoredCountRoundTrip | components/ChatScreen.tsx:49 | the count a send stores reads back unchanged on the next mount, NaN included |
| ChatScreen.UpdateText | components/ChatScreen.tsx:130-134 | update-by-id keeps the length and changes only the text of messages with that id |
| ChatScreen.UpdateTextOverwrites | components/ChatScreen.tsx:128-134 | a later update of the same id replaces an earlier one |
| ChatScreen.UpdateTextOfFreshId | components/ChatScreen.tsx:138-144 | with a fresh id only the placeholder's text changes |
| ChatScreen.AsWrittenShowsUndefined | components/ChatScreen.tsx:129 | as written, a chunk without text shows as "undefined" (see Findings) |
| ChatScreen.AccumulationMatchesRelay | components/ChatScreen.tsx:127-129 | the corrected accumulation equals the text the server relay forwards, and agrees with the written one when every chunk has text |
| ChatScreen.AllTextAgreesWhenPresent | components/ChatScreen.tsx:129 | the two accumulations agree when every chunk has text |
| ChatScreen.AllTextSnoc | components/ChatScreen.tsx:128-129 | accumulating one more chunk appends its text |
| ChatScreen.ChatScreenState.constructor | components/ChatScreen.tsx:38-43 | the initial messages, empty input, count 0, no limit, nothing loading |
| ChatScreen.ChatScreenState.Mount | components/ChatScreen.tsx:46-62 | on the stored day the stored count is restored and the limit is set iff it is ≥ 20; otherwise the date and "0" are stored and the count and limit reset |
| ChatScreen.ChatScreenState.OpenChat | components/ChatScreen.tsx:64-91 | the chat session becomes available; nothing else changes |
| ChatScreen.ChatScreenState.SetInput | components/ChatScreen.tsx:239 | typing changes only the input |
| ChatScreen.ChatScreenState.CanSend | components/ChatScreen.tsx:103 | no contract of its own: the send guard (non-blank input, a chat, nothing loading, no limit); `SendMessage` is a no-op exactly when it is false |
| ChatScreen.ChatScreenState.SendMessage | components/ChatScreen.tsx:101-157 | a blank input, no chat, a send in flight or the limit makes it a no-op; else the count rises by one and is stored, the input clears, the user message and the AI placeholder are appended, the placeholder ends with the streamed text (the apology on failure, no refund), loading clears, and the limit is set iff the count is ≥ 20 |
| ChatScreen.ChatScreenState.Send | components/ChatScreen.tsx:105-148 | the send once its guard has passed, with the effects listed above |
| ChatScreen.ChatScreenState.StreamReply | components/ChatScreen.tsx:125-144 | the placeholder holds the text so far after each chunk (loop invariant) and ends with all of it, or with the apology |
| ChatScreen.ChatScreenState.RemainingLabel | components/ChatScreen.tsx:253 | the remaining count shown is never negative |
| ChatScreen.SendAppendsTwoMessages | components/ChatScreen.tsx:107-123 | with fresh ids a send leaves exactly the old list, the user's message and one AI message with the final text |
| AppScreen.AfterRestart | App.tsx:61-68 | restart clears everything but the user and returns to creation |
| AppScreen.AfterLogout | App.tsx:23-31 | logout returns to the initial state |
| AppScreen.AfterCreate | App.tsx:33-59 | the user is kept and the form data stored; the chat state iff both awaits returned; an error iff not |
| AppScreen.View | App.tsx:70-98 | login iff no user; loading iff the loading state; chat iff the chat state with data, image and prompt all present; otherwise the form with the current error |
| AppScreen.Rendered | App.tsx:78-93 | rendering changes only the state, leaving the chat state only when its data is incomplete |
| AppScreen.RenderIsStable | App.tsx:91-93 | after the fallback, rendering again shows the same screen and changes nothing |
| AppScreen.CreatedPersonaIsShown | App.tsx:39-53 | a successful creation shows loading first and then the chat opened by the greeting alone |
| AppScreen.FailedCreationShowsError | App.tsx:54-58 | a failure at either await shows the form with the failure message |
| AppScreen.LogoutAndRestartViews | App.tsx:23-31 | logout shows the login screen; restart shows an empty form for the same user |
| AppScreen.App.constructor | App.tsx:11-17 | no user, the creation state, everything empty |
| AppScreen.App.LoginSuccess | App.tsx:19-21 | sign-in sets only the user |
| AppScreen.App.Logout | App.tsx:23-31 | the state becomes `AfterLogout` of the old one |
| AppScreen.App.Restart | App.tsx:61-68 | the state becomes `AfterRestart` of the old one |
| AppScreen.App.PersonaCreate | App.tsx:33-59 | the state becomes `AfterCreate` of the old one |
| AppScreen.App.RenderContent | App.tsx:70-98 | returns `View` of the old state and leaves `Rendered` of it |
| PersonaCreation.UpdateField | components/PersonaCreation.tsx:53-56 | an edit sets its field and keeps the other five |
| PersonaCreation.IsFormValid | components/PersonaCreation.tsx:66-68 | no contract of its own: every one of the six values trims to a non-empty string; `FormValidIffNoFieldBlank` characterises it |
| PersonaCreation.FormValidIffNoFieldBlank | components/PersonaCreation.tsx:66-68 | the form is valid iff none of the six fields is blank; keywords do not matter |
| PersonaCreation.RemoveAll | components/PersonaCreation.tsx:61 | the filter removes every occurrence of the keyword and keeps how often each other keyword occurs |
| PersonaCreation.ToggleKeyword | components/PersonaCreation.tsx:58-64 | the keyword is selected afterwards iff it was not before |
| PersonaCreation.ToggleFlipsOnlyItsKeyword | components/PersonaCreation.tsx:58-64 | a toggle flips that keyword's membership and changes nothing about the others |
| PersonaCreation.ToggleTwiceRestores | components/PersonaCreation.tsx:58-64 | toggling an unselected keyword twice restores the selection |
| PersonaCreation.ToggleKeepsNoDuplicates | components/PersonaCreation.tsx:58-64 | toggling never creates a duplicate in a duplicate-free selection |
| PersonaCreation.RemoveKeepsNoDuplicates | components/PersonaCreation.tsx:61 | filtering a duplicate-free selection keeps it duplicate-free |
| PersonaCreation.HandleSubmit | components/PersonaCreation.tsx:70-77 | no contract of its own: the popup for an invalid form, else the form handed on; `SubmitPassesFormOn` states both cases |
| PersonaCreation.SubmitPassesFormOn | components/PersonaCreation.tsx:70-77 | the popup shows iff a field is blank; otherwise the six fields and the selection are handed on unchanged |
| PersonaCreation.UnfilledFieldShowsPopup | components/PersonaCreation.tsx:41-48 | a field still at its initial "" brings up the popup, so the form as first rendered cannot be submitted |
| HomeScreen.LastMessage | components/HomeScreen.tsx:15 | the last message of the persona's log; none without a persona or with an empty log |
| HomeScreen.Snippet | components/HomeScreen.tsx:16 | "나: " + text for the user's message, the text for the AI's, the prompt when there is none |
| HomeScreen.Displayed | components/HomeScreen.tsx:46 | the shown text is never longer than 48 characters, and a snippet of at most 45 is shown whole |
| HomeScreen.DisplayedShape | components/HomeScreen.tsx:46 | a snippet of at most 45 characters is shown whole; a longer one as its first 45 plus "..."; never more than 48 |
| HomeScreen.PreviewOfUserData | components/HomeScreen.tsx:15-16 | no message shows the prompt uncut; the user's own message is shown with its "나: " mark |
| JsText.TrimStart | components/ChatScreen.tsx:103 | the result is a suffix of the input |
| JsText.TrimStartDropsBlank | components/ChatScreen.tsx:103 | everything `trimStart` drops is white space and what it keeps does not start with white space, so it removes exactly the leading white space |
| JsText.TrimEnd | components/ChatScreen.tsx:103 | the result is a prefix of the input |
| JsText.TrimEndDropsBlank | components/ChatScreen.tsx:103 | everything `trimEnd` drops is white space and what it keeps does not end with white space |
| JsText.TrimEmptyIffBlank | components/PersonaCreation.tsx:67 | a string trims to "" iff it is all white space |
| JsText.LeadingDigits | components/ChatScreen.tsx:49 | the longest all-digit prefix |
| JsText.NatDigitsValue | components/ChatScreen.tsx:115 | the decimal digits of n read back as n |
| JsText.ParseIntOfDigits | components/ChatScreen.tsx:49 | `parseInt` reads a digit string as its value |
| JsText.ParseIntOfMinus | components/ChatScreen.tsx:49 | `parseInt` reads a leading '-' as the negation of the number after it |
| JsText.ParseIntOfCountToString | components/ChatScreen.tsx:115 | `parseInt(n.toString())` is n for every count, NaN included |
| JsText.Join | api/create-persona.ts:19 | joining none gives "", one gives it unchanged; two or more are covered by `CreatePersona.JoinIsInterleave` |
| JsText.EncodeUriComponentIsSafe | api/create-persona.ts:123 | the encoding uses only unreserved characters and '%'-escapes, so it holds no '/' |

## Left out

- Concurrency: two requests for the same email can interleave their read and write; each handler is modelled as one atomic step.
- Floating point: the clock and the counters are integers. `Count` keeps JavaScript's NaN for the stored chat counter, because `parseInt` of a tampered value gives NaN.
- String lengths: JavaScript counts UTF-16 code units and the model counts characters, so the 45-character cut and `substring` differ for characters outside the Basic Multilingual Plane. Lone surrogates and the `URIError` they raise in `encodeURIComponent` are not modelled.
- Field types: a request field of the wrong JSON type (a number where a string is expected, say) is not modelled. For the top-level fields, which the handlers test with `!x`, a missing string is "", a missing id is 0 and a missing list is None.
- Form fields: a `formData` object that lacks some of its fields is not modelled; `PersonaData` always holds six strings and a keyword list. In the source, a missing text field is rendered as "undefined" in both templates (api/create-persona.ts:13-70) and becomes the placeholder seed "undefined" (line 123), where "" would leave an empty value and the URL `.../seed//512`. A missing `keywords` throws at `data.keywords.join` (line 19), which is the same 500 as a `formData` of None. Likewise a missing `message` in api/chat.ts:37 is sent as `{text: undefined}`, while `ChatRequest.message` is a string. A body that is the JSON literal `null` parses, and the destructuring that follows throws, giving 500 in api/save-chat-history.ts, api/create-persona.ts and api/chat.ts; `Json<T>` cannot express it.
- Stored field types: a stored object's fields are typed (`Raw.Object` holds a `UserData`), so an object that has the four keys but values of the wrong type cannot be expressed. `isUserData` accepts such an object (api/get-user-data.ts:8-17) and line 54 then computes with it: a `null` timestamp acts as 0, a numeric string such as "1700000000000" is converted to its number and "" acts as 0, and a non-numeric string timestamp gives NaN, so that record never recharges. `GetUserData.EnergyStaysInRange` relies on the typing.
- The generative models, the Gemini chat session, `fetch`, the KV client and its configuration lookup: only their results enter, as parameters. The model names, safety settings and thinking budgets they are called with are not modelled. Neither is the fixed greeting prompt sent in api/create-persona.ts:128.
- `lib/redis.ts` is not part of this model beyond the message it throws. A missing configuration in the `@vercel/kv` handlers is treated like a failing read.
- The response of api/create-persona.ts is the stored record, but `services/geminiService.ts` returns it to `App.tsx` as `{imageUrl, systemInstruction}`. The service is not part of this model; `AppScreen.App.PersonaCreate` takes the outcome of its awaits as an input. `generateInitialGreeting` catches its own errors, so with the shown service the `GreetingFailed` outcome does not arise.
- The end-of-day message added by a timer (components/ChatScreen.tsx:149-154), scrolling, the typing indicator, and all JSX and styling.
- components/LoginScreen.tsx (sign-in and token parsing: the user is an input) and components/LoadingScreen.tsx.
- The intermediate message lists during one send are stated as a loop invariant of `ChatScreen.ChatScreenState.StreamReply`, not as a postcondition.
- ChatApi.StreamController.Error: erroring the stream keeps `queued`, the record of the `enqueue` calls. The Streams standard also empties the queue when the `start` promise rejects, so chunks enqueued but not yet read are dropped and a reader may receive only a prefix of them before the error. That reset is not modelled, and neither `Error` nor `ChatApi.Pump` promises what a reader receives.
- ChatScreen.ChatScreenState.StreamReply: models the corrected accumulation. A chunk without text adds nothing, where components/ChatScreen.tsx:129 appends the string "undefined" (see Findings). The as-written accumulation is `ChatScreen.AccumulateAsWritten`; the two agree whenever every chunk has text (`ChatScreen.AllTextAgreesWhenPresent`).
- ChatScreen.ChatScreenState.Send: inherits the corrected accumulation of `StreamReply` for the placeholder's final text.
- ChatScreen.ChatScreenState.SendMessage: inherits the corrected accumulation of `StreamReply` for the placeholder's final text.
- ChatScreen.ChatScreenState.SendMessage: the user message and the placeholder are appended in one step. The two updates are queued in the same handler before its first await, so no render sees only one of them.

## Findings

| source | as written | input that shows it | evidently intended | confidence | as-written member | corrected member |
|---|---|---|---|---|---|---|
| components/ChatScreen.tsx:129 | `text += chunk.text` also appends a chunk whose `text` is undefined, as the string "undefined" | chunk texts "안녕" then none: the screen shows "안녕undefined" | skip chunks without text, as the relay in api/chat.ts:69-73 does | not executed; medium | ChatScreen.AsWrittenShowsUndefined | ChatScreen.AccumulationMatchesRelay |
| services/geminiService.ts:32-38 | the client posts the bare form, while the handler reads `formData` and `userEmail` from the body | any form: `userEmail` is undefined, so api/create-persona.ts:87-89 answers 400 | post `{formData, userEmail}` | not executed; high | CreatePersona.BareFormBodyIsRejected | CreatePersona.WrappedBodyCreatesPersona |
