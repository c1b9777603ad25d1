# Live-classroom transcription client: a Dafny model of its session logic

This project models the parts of the browser client that carry decisions:

- the credential store, one `auth_tokens` entry in the browser's key-value storage (`TokenService`);
- the authenticated fetch client, with its one-shot refresh-and-retry, and the endpoint wrappers built on it (`FetchService`);
- the sign-up screen: the password rule, the KAIST e-mail check, the verification step and the ordered sign-up and log-in checks (`LoginScreen`);
- the room-creation screen: the 30-character name, the language dropdown, the enable rule and the `Create`/`Creating...` label cycle (`CreateRoom`);
- the in-room transcription view: socket events, the record toggle, finalising the live buffer into the permanent transcript, the save callback, the history mapping, teardown and the host's exit popup (`AudioTranscription`).

`JsText` gives the JavaScript string operations these rely on: `trim` over ECMAScript's whitespace and line terminators, `endsWith`, `join` and the `!s.trim()` test. `Wrappers` holds `Option` and `Result`.

Effects are parameters. The network is a function from a request and the access token in its Bearer header to a status or a rejection. The refresh endpoint is a function from a refresh token to a status and new access token, or an exception. Storage is a class whose `items` map the operations update. Microphone, recorder and socket answers are booleans passed to the toggle. Timestamps are opaque strings. Code whose job is to change state is modelled as classes and methods. Each method's `ensures` gives the new state. For the fetch client, the state is a pure specification function, `FetchOutcome`, and the properties of one call are proved as lemmas about that function.

The model follows the code as written, including where it departs from how the client is meant to behave:
- The socket carries raw audio frames out and plain text in. There is no speaker floor (one speaker at a time), no typed message envelope and no room-closing notice.
- Socket close and error set `isRecording` to false but do not stop the recorder or the microphone tracks, although capture is meant to end with the connection.
- A stop appends the finalised line at once. The live buffer is cleared when `saveTranscript` resolves, including on a non-ok HTTP status, because the wrappers throw only on a `null` result. When the save throws, the buffer is kept. The next stop then finalises that text again, at the start of the new line (`KeptBufferIsFinalizedAgain`).
- The room-creation screen does not use the fetch client. It posts with `localStorage.getItem("access_token")`, a key the credential store never writes (`OnlyAuthKeyTouched`), so its header is `Bearer null` unless something outside this code sets that key. It sends the trimmed dropdown label (` korean` or ` english`) rather than a language tag. The service's own `createClassroom` mapping is case-sensitive, so it would turn that ` english` label into `ko` (`EnglishLabelMapsToKorean`).

## Model

| member | source | states |
|---|---|---|
| `JsText.Trim` | src/app/LoginScreen.tsx:41-42 | `trim` returns the middle slice of its input; everything removed on either side is whitespace or a line terminator, and a non-empty result starts and ends with neither |
| `JsText.BlankIffAllTrimmable` | src/app/CreateRoom.tsx:35 | `!s.trim()` holds exactly when every character of `s` is whitespace or a line terminator |
| `JsText.JoinConcat` | src/app/AudioTranscription.tsx:291 | `join` keeps order across a concatenation: the first group's join, one separator, then the second group's join |
| `JsText.JoinLength` | src/app/AudioTranscription.tsx:291 | the joined text is as long as all parts together plus one separator between each neighbouring pair |
| `JsText.JoinEmptyIff` | src/app/AudioTranscription.tsx:290-292 | when no part is empty, the join is empty exactly when there are no parts, so the inner `if (textToSave)` never fails for a non-empty buffer |
| `TokenService.StoredTokens` | src/service/tokenService.ts:15-23 | the stored pair is returned exactly when the `auth_tokens` entry exists and holds a token object |
| `TokenService.SaveTokens` | src/service/tokenService.ts:1-13 | the `auth_tokens` entry becomes the new pair, and no other key changes |
| `TokenService.GetTokens` | src/service/tokenService.ts:15-23 | returns the pair when the key is present and parses, and `null` when it is absent or unparsable; it never throws |
| `TokenService.RemoveTokens` | src/service/tokenService.ts:25-31 | the `auth_tokens` entry is deleted, and no other key changes |
| `TokenService.SaveThenGet` | src/service/tokenService.ts:1-18 | after `saveTokens(a, r)`, `getTokens` returns exactly `{a, r}` |
| `TokenService.SaveOverwrites` | src/service/tokenService.ts:3-9 | a second save replaces the whole pair; the single key keeps nothing of the first |
| `TokenService.RemoveThenGet` | src/service/tokenService.ts:25-27 | after `removeTokens`, `getTokens` returns `null` |
| `TokenService.OnlyAuthKeyTouched` | src/service/tokenService.ts:3-9 | save and remove leave every storage key other than `auth_tokens` as it was |
| `FetchService.RefreshOutcome` | src/service/fetchService.ts:5-30 | a refresh posts the stored refresh token at most once; on success it stores the new access token next to the old refresh token; on any failure the storage is unchanged |
| `FetchService.FetchOutcome` | src/service/fetchService.ts:32-67 | a call sends at most two requests and at most one refresh; it sends no request exactly when no tokens are stored; the first request carries the stored access token; a second request carries the access token that is stored afterwards; storage changes only by removal or by a successful refresh |
| `FetchService.RefreshAccessToken` | src/service/fetchService.ts:5-30 | the method's result, posted refresh tokens and new storage are those of `RefreshOutcome` |
| `FetchService.FetchWithAuth` | src/service/fetchService.ts:32-67 | the method's result, Bearer tokens sent, refresh tokens posted and new storage are those of `FetchOutcome` |
| `FetchService.NoTokensNoRequest` | src/service/fetchService.ts:33-37 | with no stored tokens, the result is `null`, no request is sent and the storage is untouched |
| `FetchService.OtherStatusPassesThrough` | src/service/fetchService.ts:47-66 | a first answer other than 401/403 (or a rejection) is returned unchanged, with one request, no refresh and no storage change |
| `FetchService.AuthFailureRefreshesOnce` | src/service/fetchService.ts:47-64 | a 401/403 makes exactly one refresh call; it posts the stored refresh token when there is one; the call makes one or two requests |
| `FetchService.RefreshFailureLogsOut` | src/service/fetchService.ts:50-55 | a missing refresh token, a non-ok refresh, an exception or an empty new token removes the stored tokens and yields `null` after the single first request |
| `FetchService.RefreshSuccessRetriesOnce` | src/service/fetchService.ts:57-63 | after a successful refresh, the new access token is stored with the unchanged refresh token; the retry carries the new token, and the retry's answer is the result |
| `FetchService.SecondAuthFailureKeepsTokens` | src/service/fetchService.ts:57-66 | a retry that again gets 401/403 returns that response as it is, with no second refresh and the tokens still stored |
| `FetchService.Unwrap` | src/service/fetchService.ts:132-134 | the wrappers throw `Failed to fetch data` on a `null` result and rethrow a rejection as the network failure; every HTTP status, ok or not, is returned |
| `FetchService.ClassroomLanguage` | src/service/fetchService.ts:151 | the language sent by `createClassroom` is always `en` or `ko` |
| `FetchService.ClassroomLanguageIsCaseSensitive` | src/service/fetchService.ts:151 | for any label whose ends `trim` leaves alone, a leading space makes no difference, and the tag is `en` exactly when the label ends with `English`, capital E included |
| `FetchService.CapitalEnglishIsEn` | src/service/fetchService.ts:151 | ` English` is sent as `en` |
| `FetchService.LowerEnglishIsKo` | src/service/fetchService.ts:151 | ` english` is sent as `ko` |
| `FetchService.Me` | src/service/fetchService.ts:117-120 | the identity request goes through the fetch client, and a `null` result is passed back |
| `FetchService.GetRooms` | src/service/fetchService.ts:122-138 | a GET of the active-rooms endpoint through the fetch client; it throws on `null` |
| `FetchService.CreateClassroom` | src/service/fetchService.ts:140-158 | a POST of the name and the mapped language through the fetch client; it throws on `null` |
| `FetchService.GetClassroom` | src/service/fetchService.ts:160-176 | a GET of the classroom endpoint through the fetch client; it throws on `null` |
| `FetchService.SaveTranscript` | src/service/fetchService.ts:178-198 | a POST of the text to the room's transcription endpoint through the fetch client; it throws on `null` |
| `FetchService.GetTranscript` | src/service/fetchService.ts:200-216 | a GET of the room's transcription history through the fetch client; it throws on `null` |
| `LoginScreen.OccursMeans` | src/app/LoginScreen.tsx:15 | a lookahead `(?=.*[class])` holds exactly when some character is in the class |
| `LoginScreen.AllInMeans` | src/app/LoginScreen.tsx:15 | the anchored body `[class]{n}` holds exactly when every character is in the class |
| `LoginScreen.ValidatePassword` | src/app/LoginScreen.tsx:14-17 | a password is valid exactly when it has 6 to 15 characters, all ASCII letters or digits, with at least one letter and at least one digit |
| `LoginScreen.SignupForm.constructor` | src/app/LoginScreen.tsx:4-12 | all fields start empty; not disabled, not verifying, not verified; the button reads `Send Verification Code` |
| `LoginScreen.SignupForm.SetUsername` | src/app/LoginScreen.tsx:79 | the name field takes the typed value; nothing else changes |
| `LoginScreen.SignupForm.SetCode` | src/app/LoginScreen.tsx:106 | the code field takes the typed value; nothing else changes |
| `LoginScreen.SignupForm.SetPassword` | src/app/LoginScreen.tsx:119 | the password field takes the typed value; nothing else changes |
| `LoginScreen.SignupForm.SetConfirmPassword` | src/app/LoginScreen.tsx:126 | the confirmation field takes the typed value; nothing else changes |
| `LoginScreen.SignupForm.SetEmail` | src/app/LoginScreen.tsx:19-25 | a changed e-mail resets `disabled`, `isVerifying`, `isVerified`, `code` and the button text; the same e-mail changes nothing; the verification invariant is kept |
| `LoginScreen.SignupForm.SendVerificationCode` | src/app/LoginScreen.tsx:52-59 | a non-KAIST address is refused with the state unchanged; otherwise the button is disabled, verification starts and the text is `Code Sent!` |
| `LoginScreen.SignupForm.Verify` | src/app/LoginScreen.tsx:61-69 | an empty code leaves the form unverified and still verifying; a non-empty code sets verified, ends verifying and sets `Verified!` |
| `LoginScreen.SignupForm.HandleLogin` | src/app/LoginScreen.tsx:31-38 | log-in succeeds exactly with a non-blank e-mail and a valid password; otherwise the first failing check's alert is shown |
| `LoginScreen.SignupForm.HandleSignup` | src/app/LoginScreen.tsx:40-50 | the five checks run in order and the first failure is reported; sign-up succeeds exactly when all five hold; the log-in that follows always succeeds; a verified sign-up is for a KAIST address |
| `LoginScreen.KaistEmailIsNotBlank` | src/app/LoginScreen.tsx:53 | an address that passed the domain check is never blank |
| `CreateRoom.CapName` | src/app/CreateRoom.tsx:125 | the field holds at most 30 characters; input within the limit is kept whole |
| `CreateRoom.RequestLanguage` | src/app/CreateRoom.tsx:50 | the body's language is the trimmed selection, or `Unknown` when the selection is blank; it is never empty |
| `CreateRoom.SubmitDisabledFor` | src/app/CreateRoom.tsx:136-140 | the button is enabled exactly for a non-empty name while the label is not `Creating...`; a request in flight always disables it |
| `CreateRoom.CreateRoomForm.SubmitDisabled` | src/app/CreateRoom.tsx:136-140 | on the screen, whose label is always `Create` or `Creating...`, the button is enabled exactly when the name is non-empty and the label is `Create` |
| `CreateRoom.EnableRuleIgnoresTrim` | src/app/CreateRoom.tsx:136-140 | the button is disabled for an empty name or while `Creating...`; a name made only of spaces still enables it |
| `CreateRoom.AccessTokenItem` | src/app/CreateRoom.tsx:21 | `getItem("access_token")` yields the text stored under that key, and `null` exactly when there is none |
| `CreateRoom.CredentialStoreNeverSetsAccessToken` | src/app/CreateRoom.tsx:21 | saving or removing tokens leaves what the screen reads unchanged, so starting from empty storage its header stays `Bearer null` after any log-in |
| `CreateRoom.CreateRoomForm.constructor` | src/app/CreateRoom.tsx:13-21 | the screen starts with an empty name, `Select`, a closed dropdown and the label `Create`, and holds the `access_token` read from storage |
| `CreateRoom.CreateRoomForm.OnNameInput` | src/app/CreateRoom.tsx:125-127 | typing stores the input capped at 30 characters |
| `CreateRoom.CreateRoomForm.ToggleLanguageDropdown` | src/app/CreateRoom.tsx:23-25 | the dropdown's visibility flips |
| `CreateRoom.CreateRoomForm.HandleLanguageSelect` | src/app/CreateRoom.tsx:27-30 | the chosen label becomes the selection and the dropdown closes |
| `CreateRoom.CreateRoomForm.HandleCreateRoom` | src/app/CreateRoom.tsx:32-52 | a blank name is refused with an alert, no request and the label back at `Create`; otherwise the request carries the name, the request language and the Bearer header, and the label stays `Creating...`, which disables the button |
| `CreateRoom.CreateRoomForm.FinishCreateRoom` | src/app/CreateRoom.tsx:54-68 | on success the room id is stored under `classroom_uid` and the screen navigates to the room; on failure it alerts; in every case the label ends at `Create` |
| `CreateRoom.OfferedLanguages` | src/app/CreateRoom.tsx:7-14 | the initial `Select` and the two offered labels are sent as `Select`, `korean` and `english`, so `Unknown` is never sent for them |
| `CreateRoom.EnglishLabelMapsToKorean` | src/app/CreateRoom.tsx:9 | the offered ` english` label is lower-case, so the service's `createClassroom` mapping would send it as `ko` |
| `AudioTranscription.MapHistory` | src/app/AudioTranscription.tsx:114-119 | the history mapping keeps the length and order and copies each field: speaker name, speaker id, text and creation time |
| `AudioTranscription.Texts` | src/app/AudioTranscription.tsx:291 | the buffer's texts, one per line, in order |
| `AudioTranscription.Finalize` | src/app/AudioTranscription.tsx:290-299 | a stop yields no line only for an empty buffer or a buffer of one empty text; a line is attributed to the current user at the current time, has non-empty text and starts with the buffer's first text |
| `AudioTranscription.Connect` | src/app/AudioTranscription.tsx:51-56 | a socket is created exactly when there is a user and a room id, and it starts connecting |
| `AudioTranscription.FinalizeLine` | src/app/AudioTranscription.tsx:290-299 | a stop produces a line exactly when the live buffer is non-empty; that line's text is the buffer's texts joined by a space, tagged with the current user |
| `AudioTranscription.FinalizeInArrivalOrder` | src/app/AudioTranscription.tsx:64-69 | a message that arrives later comes after a space at the end of the finalised text |
| `AudioTranscription.KeptBufferIsFinalizedAgain` | src/app/AudioTranscription.tsx:305-310 | when a failed save leaves the buffer in place, the next finalised text starts with the previous one |
| `AudioTranscription.TeardownReleases` | src/app/AudioTranscription.tsx:136-147 | teardown leaves nothing open, recording or capturing, even for resources never acquired; running it twice is the same as once |
| `AudioTranscription.TranscriptionView.Mount` | src/app/AudioTranscription.tsx:85-133 | without a user, go to log-in; without a room id, go to the room list; otherwise open exactly one socket; the view starts idle, not recording, with empty buffers |
| `AudioTranscription.TranscriptionView.OnOpen` | src/app/AudioTranscription.tsx:58-60 | the socket is open and the status reads `Connected. Ready to record.` |
| `AudioTranscription.TranscriptionView.OnMessage` | src/app/AudioTranscription.tsx:62-70 | messages arrive only on an open socket; empty data is ignored; otherwise exactly one line, attributed to this user, is appended to the live buffer and nothing else changes |
| `AudioTranscription.TranscriptionView.OnClose` | src/app/AudioTranscription.tsx:72-75 | not recording, status `Click to start transcription`, socket closed, so no later chunk is forwarded; only these three fields change |
| `AudioTranscription.TranscriptionView.OnError` | src/app/AudioTranscription.tsx:77-80 | not recording, status `Connection error. Please try again.`, and the socket is closed, since a WebSocket reports an error only after its connection has failed, so no later chunk is forwarded; only these three fields change |
| `AudioTranscription.TranscriptionView.OnAudioChunk` | src/app/AudioTranscription.tsx:260-264 | a chunk is forwarded exactly when its size is positive and the socket is open |
| `AudioTranscription.TranscriptionView.ToggleRecording` | src/app/AudioTranscription.tsx:228-314 | without a user, go to log-in and change nothing else. Start: a socket that is not open is replaced by a fresh one; if it is not open after the wait, status `Failed to connect. Please try again.` and not recording; a microphone failure leaves it not recording. If `new MediaRecorder` throws, the old recorder stays in the ref. If `start` throws, the new, inactive recorder replaces it. Either way the status is `Failed to start recording.` while `isRecording` stays true. Success records. Stop: recorder, socket and tracks are stopped, so no further chunk is forwarded; at most one finalised line is appended and handed to the save, which then counts as outstanding; the live buffer is kept |
| `AudioTranscription.TranscriptionView.OnSaveSettled` | src/app/AudioTranscription.tsx:305-310 | settles one outstanding save, counted up by each stop that hands text to `saveTranscript`; the live buffer is cleared when the save resolves and kept when it throws |
| `AudioTranscription.TranscriptionView.OnRoomInfo` | src/app/AudioTranscription.tsx:100-104 | the view is the host's exactly when the room's `created_by` equals this user's uid |
| `AudioTranscription.TranscriptionView.OnHistory` | src/app/AudioTranscription.tsx:111-126 | the mapped history becomes the permanent transcript and loading ends |
| `AudioTranscription.TranscriptionView.OnHistoryFailed` | src/app/AudioTranscription.tsx:121-125 | a failed history fetch ends loading and leaves the transcript as it was |
| `AudioTranscription.TranscriptionView.Cleanup` | src/app/AudioTranscription.tsx:136-147 | unmounting closes any socket, stops an active recorder, stops the tracks and drops the stream; afterwards nothing is live and no chunk is forwarded |
| `AudioTranscription.TranscriptionView.ExitConfirm` | src/app/AudioTranscription.tsx:205-220 | confirming exit hides the popup, tears everything down (keeping the stream reference), so no chunk is forwarded, and navigates to `/join-room` |
| `AudioTranscription.TranscriptionView.ExitCancel` | src/app/AudioTranscription.tsx:222-224 | cancelling exit only hides the popup |

## Left out

- Real `fetch`, WebSocket, MediaRecorder, `getUserMedia` and `localStorage`: they are parameters or plain fields of the model, and their outcomes are inputs.
- Asynchrony: each handler runs as one step. Events that could arrive during an `await` (for example a socket message during the 500 ms reconnect wait) are not interleaved inside it. The wait itself is the `openedInTime` input, and the recorder's 500 ms time slice is not modelled.
- A socket, stream or recorder that the start branch replaces is dropped without being closed or stopped, as in the code. The model does not track it afterwards or model its later events. In particular, a recorder still recording after a socket close, replaced by a new recorder whose `start` throws, keeps capturing, and neither the stop branch nor the cleanup can reach it. After that sequence, `Released` holds of the refs but not of the browser.
- `new Date().toISOString()` is an opaque `now` input.
- JSON: request bodies are datatypes, and response bodies are reduced to what the code reads (a status, the refresh's `access_token`, the created room's `uid`). A `response.json()` failure in the GET wrappers, and the data those wrappers return, are not modelled.
- The storage `try/catch` around `setItem` and `removeItem`: in the model, writes always succeed. Any non-token content under `auth_tokens` reads back as `null`.
- AccessTokenItem: a token object stored under `access_token` would read back as its JSON text; the model reads it as `null`. Nothing in this code stores one there.
- The host's navigation interception (`beforeunload` and `popstate` listeners, `history.pushState`, the `window.close` override). Nothing in the model opens the exit popup; only confirm and cancel are modelled.
- The mount effect's wait while the user is still loading: the constructor models the effect once the user has loaded.
- Mount: the effect re-runs whenever `room_id` or `user` changes (AudioTranscription.tsx:148). That re-run tears down and opens a new socket but keeps the transcript, `isRecording` and the status. The model has one `Mount` over a fixed user and room id and one `Cleanup`, and does not model the re-run.
- The room-info and history fetches run concurrently on entry (AudioTranscription.tsx:128-129). `FetchOutcome` describes one call in isolation. Two interleaved calls that both get 401/403 can each post the same refresh token, and a failed second refresh removes the tokens the first refresh has just saved. This interleaving is not modelled.
- A failed room-info fetch only shows an alert and changes no state, so it is not modelled.
- Rendering, styles and the text of alerts beyond the outcome values.
- `signUp`, `sendCode`, `verifyCode` and `login` in the fetch service: the sign-up screen never calls them. The log-in screen and the user context are not part of this model, and neither are the home, room-list and no-room screens or the route table.
- CapName: counts Unicode scalar values, while the browser's `maxLength` counts UTF-16 code units, so the two differ for characters outside the Basic Multilingual Plane. It also keeps the first 30 characters of the new value. A browser instead refuses the part of an insertion that would pass the limit, so an insertion before the end of a full field leaves the existing text intact, not a prefix of the combined text.
