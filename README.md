# MindMate in Dafny

MindMate is an emotion-aware chat companion. It has a Flask backend and a React frontend.

- A user sends text or a voice recording.
- The backend guesses the emotion of the text, and of the voice's tone when there is audio.
- It chooses a sampling temperature from the text emotion and builds a chat-model context from the session's earlier turns.
- It asks the chat model for a reply, cleans the reply, and gives a new session a short title.
- The frontend shows sessions in a sidebar with relative dates. It flattens each stored exchange into chat bubbles, lets the user compose text, speech or recorded audio, and decides who is signed in from an auth listener and persisted manual-login flags.

This project models those rules and proves properties of the model. There is one module per source file:

| module | file | models |
|---|---|---|
| `Wrappers` | `wrappers.dfy` | `Option` and `Result` |
| `Text` | `text.dfy` | Python `str.strip` and JavaScript `trim` (with their different whitespace sets), `split(sep)[0]`, decimal rendering |
| `AiCore` | `ai_core.dfy` | `backend/ai_core.py` |
| `Gatekeeper` | `gatekeeper.dfy` | `backend/app.py`: the `check_auth` decorator and the routes |
| `SessionTitle` | `session_title.dfy` | `SessionTitle.jsx` |
| `Sidebar` | `sidebar.dfy` | `Sidebar.jsx` |
| `InputBar` | `input_bar.dfy` | `InputBar.jsx`, as a class whose methods are the event handlers |
| `ChatWindow` | `chat_window.dfy` | `ChatWindow.jsx`: bubbles, the play guard, and `sendMessage` as a class over an abstract store |
| `App` | `app.dfy` | `App.jsx` and the flag clearing in `Logout.jsx`, as a class |

External services are function-typed parameters, and `None` or `Err` from one means that the call raised. These services are the classifiers, the chat and title models, Firebase token verification, Firestore reads and writes, speech transcription, and the reply and session endpoints.

JavaScript truthiness of strings is modelled with `""`: a missing `title` or `input_text` is `""`.

## Model

| member | source | states |
|---|---|---|
| Text.TrimStart | backend/ai_core.py:80 | drops only leading space characters, and what is kept does not start with one |
| Text.TrimStartIsSuffix | backend/ai_core.py:80 | what is kept after the leading spaces are dropped is a suffix of the input |
| Text.TrimEnd | backend/ai_core.py:80 | drops only trailing space characters, keeps the rest in place, and what is kept does not end with one |
| Text.TrimEndIsPrefix | backend/ai_core.py:80 | what is kept after the trailing spaces are dropped is a prefix of the input |
| Text.Strip | backend/ai_core.py:80 | the result starts and ends with a non-space, and it is empty exactly when the input is all spaces |
| Text.StripStripped | backend/ai_core.py:80 | stripping already-stripped text changes nothing |
| Text.PyStrip | backend/ai_core.py:72 | `str.strip()` over Python's whitespace set: stripped, and empty iff the text is blank |
| Text.JsTrim | chatbot-frontend/src/components/InputBar.jsx:51 | `trim()` over ECMAScript whitespace: stripped, and empty iff the text is blank |
| Text.BeforeFirst | backend/app.py:36 | element 0 of `split(sep)`: a prefix with no occurrence of `sep` inside, ending at the end or at the first occurrence |
| Text.NatToString | chatbot-frontend/src/components/Sidebar.jsx:20 | a non-empty decimal rendering; a one-digit number is its digit |
| Text.NatToStringDenotes | chatbot-frontend/src/components/Sidebar.jsx:20 | the rendering is all digits, and its decimal value is the number rendered |
| AiCore.LeadingNewlines | backend/ai_core.py:80 | the length of the run of newlines at the start of the text |
| AiCore.CollapseLeavesNoTripleNewline | backend/ai_core.py:80 | after `\n{3,}` is rewritten to `\n\n`, no three newlines are adjacent |
| AiCore.CollapseFixesTripleFree | backend/ai_core.py:80 | the rewrite changes nothing in text with no run of three newlines |
| AiCore.StripKeepsTripleFree | backend/ai_core.py:80 | stripping keeps text free of triple newlines |
| AiCore.FormatGptReply | backend/ai_core.py:79-82 | a cleaned reply has no three adjacent newlines and no surrounding whitespace |
| AiCore.FormatGptReplyIdempotent | backend/ai_core.py:79-82 | cleaning a cleaned reply changes nothing |
| AiCore.AdjustTemperature | backend/ai_core.py:84-94 | the temperature is one of 0.45, 0.6, 0.75 or 0.9, each exactly on its score band |
| AiCore.AdjustTemperatureMonotone | backend/ai_core.py:84-94 | a higher emotion score never gives a lower temperature |
| AiCore.LastContentOfAbsent | backend/ai_core.py:54-59 | with no message of a role, the content picked for it is "" |
| AiCore.LastContentOfIsLastEntry | backend/ai_core.py:54-59 | the content picked for a role is that of its last message |
| AiCore.LastContentOfAppend | backend/ai_core.py:54-59 | appending a message changes the picked content of its own role only |
| AiCore.TitleForExchange | backend/ai_core.py:64-77 | the title is the model's stripped answer, or "Conversation" when that is blank or the call raised; never empty |
| AiCore.GenerateTitle | backend/ai_core.py:50-77 | a generated title is non-empty and stripped |
| AiCore.GenerateTitleDependsOnLastTurns | backend/ai_core.py:54-59 | histories with the same last user turn and last assistant turn get the same title |
| AiCore.MaxScoreIndex | backend/ai_core.py:122 | `max` by score: no label scores higher, and every earlier label scores lower |
| AiCore.ClassifyTone | backend/ai_core.py:103-116 | the tone is the classifier's first label when an existing audio file gives a non-empty answer, else "Unknown" with score 0 |
| AiCore.ClassifyText | backend/ai_core.py:118-125 | the text emotion is the first of the highest-scoring labels of the first list, as `max` picks it, else "neutral" with score 0 |
| AiCore.TextEmotionIsTopScoring | backend/ai_core.py:122 | the chosen label belongs to the first list and no label of it scores higher |
| AiCore.TextEmotionTieGoesToFirst | backend/ai_core.py:122 | of two labels tied at the top score, the one listed first is reported |
| AiCore.BuildContext | backend/ai_core.py:144-154 | the context is the system prompt, then every stored turn as a user and an assistant message in order, then the new input |
| AiCore.UpdateTitleIfUntitled | backend/ai_core.py:170-181 | only an "Untitled Session" title is replaced, and only by a non-empty title other than "Mindful Moment" |
| AiCore.ReplyText | backend/ai_core.py:157-168 | "Error: Processing failed" when the chat model raises, else a cleaned reply |
| AiCore.RequestReply | backend/ai_core.py:157-168 | the reply is the cleaned model answer for the context and temperature, or the failure text |
| AiCore.AnalyzeAndRespond | backend/ai_core.py:97-188 | tone, text emotion (the first top-scoring label, which also names the prompt's tone), temperature from the text score, context shape, reply for that context, and the title rule, all together |
| Gatekeeper.BearerToken | backend/app.py:36 | the token is the text after "Bearer " up to the next "Bearer ", if any |
| Gatekeeper.BearerTokenExample | backend/app.py:36 | "Bearer abc" carries "abc" |
| Gatekeeper.BearerTokenStopsAtSecondPrefix | backend/app.py:36 | a second "Bearer " cuts the token short |
| Gatekeeper.CheckAuth | backend/app.py:29-55 | 401 "missing or invalid" without a Bearer header; otherwise a uid exactly when verification and the user write succeed, and 401 "invalid or expired" in every other case |
| Gatekeeper.CheckAuthSkipsVerifier | backend/app.py:32-34 | without a Bearer header the verifier's answer does not matter |
| Gatekeeper.ManualUserRejected | backend/app.py:32-34 | a request carrying only `X-User-ID` always gets 401 |
| Gatekeeper.Guarded | backend/app.py:29-55 | the handler runs with the verified uid, and only then |
| Gatekeeper.GuardedSkipsHandler | backend/app.py:32-34 | no handler runs without a Bearer header |
| Gatekeeper.NewSession | backend/app.py:60-70 | 201 with the new id, or 500 when the store raises |
| Gatekeeper.AnalysisResponse | backend/app.py:83-89 | 200 exactly for a successful analysis; a KeyError gives 400 naming the key; anything else gives 500 |
| Gatekeeper.HandleText | backend/app.py:72-89 | `session_id` is checked before `input_text`, a missing one gives 400, a non-object body gives 500, and otherwise the analysis runs without audio |
| Gatekeeper.HandleTextNeedsBothFields | backend/app.py:79-86 | a request missing either field gets 400 |
| Gatekeeper.HandleVoice | backend/app.py:91-113 | a missing `session_id` gives 400 with werkzeug's Bad Request text rather than the key, a missing audio file gives 400, and a request with both gets the analysis response for the transcript and the upload path (200, 400 naming a KeyError's key, or 500) |
| Gatekeeper.GetSessions | backend/app.py:115-130 | 403 exactly for another user's history; otherwise the sessions, or 500 |
| Gatekeeper.GetSessionChat | backend/app.py:132-147 | 403 exactly for another user's history; otherwise the messages, or 500 |
| Gatekeeper.HistoryForbiddenBeforeStoreRead | backend/app.py:122-123 | a 403 does not depend on the store |
| Gatekeeper.HistoryRequest | backend/app.py:115-130 | a 200 needs a token verified for the requested user; a 403 means a valid token for someone else |
| SessionTitle.Truncate | chatbot-frontend/src/components/SessionTitle.jsx:17-20 | text within the limit is kept; longer text becomes its first `maxLength` characters plus "..." |
| SessionTitle.TruncateIdempotent | chatbot-frontend/src/components/SessionTitle.jsx:17-20 | truncating twice is truncating once |
| SessionTitle.DisplayTitle | chatbot-frontend/src/components/SessionTitle.jsx:5-27 | the placeholder exactly for a missing or blank title; otherwise the title cut to 35 characters |
| SessionTitle.DisplayTitleBounds | chatbot-frontend/src/components/SessionTitle.jsx:17-24 | a shown title is at most 38 characters, and it is the title itself or its first 35 characters plus "..." |
| Sidebar.DiffDays | chatbot-frontend/src/components/Sidebar.jsx:15-16 | the ceiling of the distance in days, in either direction |
| Sidebar.FormatDate | chatbot-frontend/src/components/Sidebar.jsx:11-22 | "" for a falsy timestamp; Today for at most 1 day, Yesterday for 2, "N days ago" with N = d-1 for 3 to 7, else the locale date |
| Sidebar.FutureLikePast | chatbot-frontend/src/components/Sidebar.jsx:15-21 | a time k ms ahead is labelled like one k ms behind |
| Sidebar.RenderRows | chatbot-frontend/src/components/Sidebar.jsx:72-100 | one row per session, in order, with its title view and its `formatDate` label, marked active iff its id is the current id |
| Sidebar.View | chatbot-frontend/src/components/Sidebar.jsx:9 | loading exactly without a list; the empty note exactly for an empty list |
| Sidebar.AtMostOneActive | chatbot-frontend/src/components/Sidebar.jsx:74 | with distinct ids, at most one row is active |
| Sidebar.NoCurrentNoActive | chatbot-frontend/src/components/Sidebar.jsx:74 | without a current id no row is active |
| InputBar.SendEnabled | chatbot-frontend/src/components/InputBar.jsx:348 | the send button is enabled only when the bar is enabled, and then exactly when there is non-blank text or a capture running |
| InputBar.Counter | chatbot-frontend/src/components/InputBar.jsx:358-361 | the counter shows exactly above 500 characters, and then reads the message length in decimal digits followed by "/1000" |
| InputBar.CounterStaysWhileAppending | chatbot-frontend/src/components/InputBar.jsx:358-361 | appending text never hides a counter that is shown |
| InputBar.InputBar.constructor | chatbot-frontend/src/components/InputBar.jsx:20-47 | the empty bar, with the tooltip latch read back from session storage |
| InputBar.InputBar.OnTextareaChange | chatbot-frontend/src/components/InputBar.jsx:209-215 | only the message changes |
| InputBar.InputBar.StopAudioRecording | chatbot-frontend/src/components/InputBar.jsx:158-163 | a running capture is asked to stop; nothing else changes |
| InputBar.InputBar.HandleSubmit | chatbot-frontend/src/components/InputBar.jsx:49-63 | nothing for blank text or a disabled bar; during a capture, only the stop; otherwise the trimmed text is sent and the message and picker are cleared |
| InputBar.InputBar.OnDataAvailable | chatbot-frontend/src/components/InputBar.jsx:131-133 | a chunk is appended while the recorder is live |
| InputBar.InputBar.OnRecorderStop | chatbot-frontend/src/components/InputBar.jsx:135-148 | after a stop, the trimmed text is sent with the audio when the recorder was made with tone analysis on; the message and picker are cleared |
| InputBar.InputBar.StartAudioRecording | chatbot-frontend/src/components/InputBar.jsx:124-156 | a fresh capturing recorder with empty chunks, or the permission error |
| InputBar.InputBar.StartRecording | chatbot-frontend/src/components/InputBar.jsx:165-181 | nothing without speech support; otherwise recording follows whether recognition started, and a capture starts only with tone analysis on and microphone access |
| InputBar.InputBar.StopRecording | chatbot-frontend/src/components/InputBar.jsx:183-192 | recording is off and any capture is asked to stop |
| InputBar.InputBar.ToggleRecording | chatbot-frontend/src/components/InputBar.jsx:194-200 | while recording, the whole new state is StopRecording's; otherwise it is StartRecording's, field by field, with everything else unchanged |
| InputBar.InputBar.OnSpeechResult | chatbot-frontend/src/components/InputBar.jsx:77-79 | the transcript is appended to the message |
| InputBar.InputBar.OnRecognitionEnd | chatbot-frontend/src/components/InputBar.jsx:89-94 | recording is off and a capture keeps running |
| InputBar.InputBar.OnRecognitionError | chatbot-frontend/src/components/InputBar.jsx:96-102 | recording is off, and a refused permission is shown |
| InputBar.InputBar.OnEmojiClick | chatbot-frontend/src/components/InputBar.jsx:218-221 | the emoji is appended and the picker stays as it was |
| InputBar.InputBar.ToggleEmojiPicker | chatbot-frontend/src/components/InputBar.jsx:270 | only the picker flips |
| InputBar.InputBar.HandleToneToggle | chatbot-frontend/src/components/InputBar.jsx:224-236 | tone analysis flips; the first flip of the session also shows the tooltip and sets the latch and the storage key |
| InputBar.InputBar.OnToneHover | chatbot-frontend/src/components/InputBar.jsx:295-300 | hovering shows the tooltip only while the latch is unset, without setting it |
| InputBar.InputBar.DismissTooltip | chatbot-frontend/src/components/InputBar.jsx:317 | only the tooltip is hidden |
| InputBar.ToggleTwice | chatbot-frontend/src/components/InputBar.jsx:224-236 | two toggles restore the flag and show the tooltip at most once per session |
| InputBar.SubmitWhileCapturing | chatbot-frontend/src/components/InputBar.jsx:49-63 | a submit during a capture sends, through the stop handler, the trimmed text with the collected audio |
| ChatWindow.DocumentBubbles | chatbot-frontend/src/components/ChatWindow.jsx:272-292 | a user bubble for truthy input text, then a bot bubble for a truthy reply; ids end in "-user" and "-bot"; only bot bubbles carry the error flag |
| ChatWindow.Flatten | chatbot-frontend/src/components/ChatWindow.jsx:270-301 | at most two bubbles per document, and no user bubble is an error |
| ChatWindow.FlattenAppend | chatbot-frontend/src/components/ChatWindow.jsx:270-301 | flattening keeps the documents' order |
| ChatWindow.FlattenAt | chatbot-frontend/src/components/ChatWindow.jsx:270-301 | each document's bubbles sit between those of the documents before it and after it |
| ChatWindow.ErrorDocumentRendersOneBubble | chatbot-frontend/src/components/ChatWindow.jsx:206-212 | the error document renders as exactly one bot bubble flagged as an error |
| ChatWindow.MessageBubble.constructor | chatbot-frontend/src/components/ChatWindow.jsx:298 | play is offered exactly for bot messages |
| ChatWindow.MessageBubble.TypingIndicator | chatbot-frontend/src/components/ChatWindow.jsx:304-306 | the typing bubble is a bot bubble without play |
| ChatWindow.MessageBubble.HandlePlayAudio | chatbot-frontend/src/components/ChatWindow.jsx:26-37 | a press starts playback only with a handler and nothing playing |
| ChatWindow.MessageBubble.PlaybackSettled | chatbot-frontend/src/components/ChatWindow.jsx:31-33 | playback always ends in the not-playing state |
| ChatWindow.RenderedBubbleSpeaker | chatbot-frontend/src/components/ChatWindow.jsx:71 | a rendered message shows the speaker exactly when it is a bot message |
| ChatWindow.PressTwiceThenSettle | chatbot-frontend/src/components/ChatWindow.jsx:26-37 | a second press while playing requests nothing, and play works again after it settles |
| ChatWindow.ApplyAllAppend | chatbot-frontend/src/components/ChatWindow.jsx:197-212 | applying two runs of writes in turn is applying them together |
| ChatWindow.SendCreatesSessionOnlyWhenNoneSelected | chatbot-frontend/src/components/ChatWindow.jsx:158-192 | a session is created exactly when none is selected; otherwise the reply is requested first |
| ChatWindow.SendSelectsCreatedSessionFirst | chatbot-frontend/src/components/ChatWindow.jsx:158-192 | a created session is selected before the reply is requested for it; a failed creation does nothing more |
| ChatWindow.SendSuccessWrites | chatbot-frontend/src/components/ChatWindow.jsx:197-200 | on an answer the last write is the timestamp, the title is written exactly when truthy, and there is no error document |
| ChatWindow.SendFailureErrorDocument | chatbot-frontend/src/components/ChatWindow.jsx:202-213 | on a failure nothing is written to the session, and the error document goes under the originally selected session, exactly when there was one |
| ChatWindow.TextRouteNeverWritesTitle | chatbot-frontend/src/components/ChatWindow.jsx:192-199 | the `/text` body has no `title` key, so no title is ever written by this flow |
| ChatWindow.NoErrorDocumentForNewSession | chatbot-frontend/src/components/ChatWindow.jsx:202-204 | a failure right after a lazy session creation leaves no error document |
| ChatWindow.ChatWindowState.OpenSession | chatbot-frontend/src/components/ChatWindow.jsx:158-190 | the creation block's steps, and the session the reply then goes to |
| ChatWindow.ChatWindowState.RequestAndRecord | chatbot-frontend/src/components/ChatWindow.jsx:192-213 | the reply request, then the title and timestamp writes or the error document |
| ChatWindow.ChatWindowState.SendMessage | chatbot-frontend/src/components/ChatWindow.jsx:149-217 | blank text or no user changes nothing, not even `sending`; otherwise the steps of `SendEffects` are taken, their writes reach the store, and `sending` ends false |
| ChatWindow.TrimArgument | chatbot-frontend/src/components/ChatWindow.jsx:150 | `text.trim()` succeeds exactly for a string argument |
| ChatWindow.ChatWindowState.ReceiveAsWired | chatbot-frontend/src/components/ChatWindow.jsx:312-317 | the input bar's payload object changes nothing; a plain string sends |
| ChatWindow.ChatWindowState.ReceivePayload | chatbot-frontend/src/components/ChatWindow.jsx:149-217 | the payload's already-trimmed text runs the flow unchanged |
| ChatWindow.InputBarMessageLost | chatbot-frontend/src/components/ChatWindow.jsx:312-317 | "hello" from the input bar is lost as wired, and requested when corrected |
| App.ManualUser | chatbot-frontend/src/App.jsx:36-40 | the manual user keeps the id, and its display name is "User ", then the id's first five characters (or all of a shorter id), then "..." |
| App.FetchedOrEmpty | chatbot-frontend/src/App.jsx:22-31 | a failed session fetch leaves the list empty |
| App.HistoryResult | chatbot-frontend/src/lib/api.js:29-40 | a status outside 200-299 is a failure; a success yields every listed session in order, or none when the body has no list |
| App.SessionHistoryAsWiredForbidden | chatbot-frontend/src/lib/api.js:29 | a history request for `[object Object]` under another verified uid gets 403, and the list becomes empty |
| App.SessionHistoryForOwnUid | backend/app.py:115-130 | a history request under the verified uid yields the store's sessions, in order |
| App.AppState.FetchSessions | chatbot-frontend/src/App.jsx:22-31 | corrected: the sessions are fetched under the user's uid, and nothing else changes |
| App.SignedInSessionsLost | chatbot-frontend/src/App.jsx:52 | for an accepted Firebase user, the sign-in event leaves the list empty while fetching under the uid yields every stored session |
| App.AppState.constructor | chatbot-frontend/src/App.jsx:15-44 | the persisted manual login, and only it, restores the user, fetches sessions (under `[object Object]`, as the user object is passed) and ends loading |
| App.AppState.OnAuthStateChanged | chatbot-frontend/src/App.jsx:47-56 | ignored while `isManualUser` holds any non-empty string; otherwise takes the event's user even when there is none, fetches sessions under `[object Object]` when there is one, and ends loading |
| App.AppState.OnManualUserLogin | chatbot-frontend/src/App.jsx:58-63 | always takes the event's user, fetches sessions under `[object Object]`, and ends loading |
| App.AppState.Logout | chatbot-frontend/src/components/Logout.jsx:20-22 | both manual-login items are removed |
| App.AppState.ToggleSidebar | chatbot-frontend/src/App.jsx:79 | only the sidebar flips |
| App.AppState.CloseSidebar | chatbot-frontend/src/App.jsx:125 | only the sidebar closes |
| App.AppState.Resize | chatbot-frontend/src/App.jsx:67-69 | the sidebar is open exactly at widths of 1024 or more |
| App.AppState.StartNewChat | chatbot-frontend/src/App.jsx:81-86 | no session is selected; the sidebar closes only on narrow windows; user and sessions are untouched |
| App.AppState.SelectChat | chatbot-frontend/src/App.jsx:88-93 | the session is selected; the sidebar closes only on narrow windows; user and sessions are untouched |
| App.AppState.SidebarAsWired | chatbot-frontend/src/App.jsx:123-130 | the sidebar never marks a row active |
| App.AppState.SidebarView | chatbot-frontend/src/components/Sidebar.jsx:72-74 | with the selection passed, a row is active exactly when it is the selected session |
| App.SelectedSessionNotHighlighted | chatbot-frontend/src/App.jsx:123-130 | after a session is selected, the wired sidebar highlights nothing and the corrected one highlights it |
| App.ManualFlagOutlivesAuthEvents | chatbot-frontend/src/App.jsx:34-56 | a persisted manual login survives an auth event reporting no user, until logout clears the flags |

## Left out

- External services are oracles, and their internals are not modelled. This covers the OpenAI and Gemini models, the HuggingFace classifiers, speech transcription, Firebase Auth and Firestore. The Firestore helpers `get_session_interactions` and `get_session_details`, which `backend/ai_core.py` imports, are not defined in `backend/firebase_utils.py`. Here they are the `interactions` list and the `titles` map passed to `AiCore.AnalyzeAndRespond`.
- Saving the upload to disk (`backend/app.py:102-104`) and loading the audio file are left out. `Gatekeeper.HandleVoice` only passes the fixed upload path on.
- JSON values are strings, and the `/text` body is a string map. `str(data['input_text'])` on a non-string value is not modelled.
- Header names are not case-folded.
- Promises and their interleaving are not modelled: each handler is one sequential step. Overlapping sends, overlapping recorders, a late `finally`, and the order of the logout page's sign-out against the auth listener are all out of scope.
- Timers are left out: the 4-second tooltip auto-dismiss is the `DismissTooltip` event.
- Textarea resizing, focus, rendering and styling are left out.
- Speech auto-submit after a recognition result (`InputBar.jsx:81-86`) is left out, because what it submits depends on React's render timing.
- `Date`, the locale date format and `toLocaleDateString` are left out. Times are integer milliseconds, and the locale date is an uninterpreted function.
- Floating point is left out: emotion scores and temperatures are exact reals.
- String length is counted in characters, not UTF-16 code units (`SessionTitle.Truncate`, `InputBar.Counter`, `App.ManualUser`).
- AiCore.AnalyzeAndRespond: the store read and the title write are assumed to succeed. A raising `get_session_interactions` (`backend/ai_core.py:144`) would make the route answer 500, or 400 for a KeyError. A raising `get_session_details` is caught at `backend/ai_core.py:180`, and a failing `update_session_title` is swallowed (`backend/firebase_utils.py:100-105`), which would leave "Untitled Session" stored where `newTitles` holds the new title.
- ChatWindow.ChatWindowState.SendMessage: the Firestore writes after a reply are assumed to succeed. A failing write would also land in the error branch.
- The message subscription in `ChatWindow.jsx:106-131` is left out. The stored documents are the input of `ChatWindow.Flatten`.
- Text-to-speech playback is left out: `playAudio` is the play request counted by `MessageBubble`.
- The login popup and `api.js` header plumbing are left out. `api.js` sends `X-User-ID` for manual users, and the backend ignores it (`Gatekeeper.ManualUserRejected`), so a manual user's history request gets 401 whatever path it names. A network failure of `fetch` is a `None` from the history oracle.
- InputBar.InputBar.OnRecorderStop: the stop handler captures the tone flag as it was when the recorder was created (`attachAudio`). Audio is therefore attached even when tone analysis is switched off during the recording. Releasing the media stream is not modelled.
- The `stream` track cleanup effect (`InputBar.jsx:116-122`) is left out, because it only releases browser resources.

## Findings

| source | as written | input that shows it | evidently intended | confidence | as-written member | corrected member |
|---|---|---|---|---|---|---|
| chatbot-frontend/src/components/ChatWindow.jsx:150 | `sendMessage(text)` calls `text.trim()`, but the input bar calls it with an object `{text, audioBlob}` (`InputBar.jsx:55`, `InputBar.jsx:137-140`); the call throws before anything is sent | the payload `{text: "hello"}` from the input bar with a session selected | take `payload.text` and run the send flow on it | high, not executed | ChatWindow.ChatWindowState.ReceiveAsWired | ChatWindow.ChatWindowState.ReceivePayload |
| chatbot-frontend/src/App.jsx:123-130 | the sidebar is rendered without `currentSessionId`, so `session.session_id === currentSessionId` is never true | select the first listed session, then render the sidebar | pass `currentSessionId` so the selected row is highlighted | high, not executed | App.AppState.SidebarAsWired | App.AppState.SidebarView |
| chatbot-frontend/src/App.jsx:25 | `fetchSessions` passes the whole user object to `getSessionHistory(userId)`, which requests `/history/[object Object]` (`api.js:29`); the backend answers 403 because the verified uid differs (`app.py:122-123`), `api.js:34-36` throws, and the list is set to `[]` | a Firebase sign-in whose token verifies, with stored sessions | pass `currentUser.uid`, so the sidebar lists the user's sessions | high, not executed | App.SignedInSessionsLost | App.AppState.FetchSessions |
