# Tutor front end: session, video form and chat, as verified state machines

This project models the client of a video tutor. A user submits a video URL and the backend
transcribes and summarises the video. When the summary arrives, the user can ask questions
about the video, either typed or recorded from the microphone.

The model covers the three components that hold the client's state-transition logic:

- **The session** (`App`, module `AppState`, file `app.dfy`):
  - the per-browser client id kept in `localStorage`;
  - the display state: transcription, summary, status and video URL;
  - the task being tracked, and the polling interval armed for it;
  - `handleVideoSubmit`, the interval's `checkTaskStatus` and `fetchTranscriptionAndSummary`;
  - the conditions that show the summary and the chat.
- **The video form** (`VideoForm`, module `VideoFormState`, file `video_form.dfy`):
  - the two guards, checked in order: empty URL, then missing client id;
  - the state set before the request;
  - how the backend's `message` is read;
  - the `finally` reset that always runs.
- **The chat** (`Chat`, module `ChatState`, file `chat.dfy`):
  - the conversation log;
  - typed questions, sent with the log truncated to its last 15 turns;
  - answers and error markers appended with functional updates;
  - the recording state machine;
  - the recorder's stop handler, which appends a voice question;
  - the bookkeeping of audio answers (`error`, `lastAudioSent`) and `retrySendAudio`.

Module `Browser` (file `browser.dfy`) holds the small part of JavaScript and the browser the
components rely on. That is null/undefined as `Option`, truthiness, `startsWith`, `substring`,
`slice`, and a `LocalStorage` class.

## How the model is built

- **Handlers are class methods.** Each component's state is a Dafny class whose fields are
  the component's state variables. Each synchronous handler is one method whose setter calls
  become assignments, applied in order, so the last write wins.
- **The App and Chat handlers are proved against pure step functions.** Each such handler
  is proved to leave the object's view (`View()`, a datatype of all fields) equal to a pure
  function of the old view (`SubmitVideo`, `Poll`, `SubmitQuestion`, `ReceiveReply`,
  `FinishRecording`, ...). The properties of the component are proved as lemmas about those
  functions and as the functions' own contracts. The `VideoForm` handlers, and the App's
  `GenerateClientId`, `InitClientId` and `RunPollingEffect`, state their new state field by
  field instead; `OnReply` ties the session's new state to the pure `ApplyReply`.
- **Network replies are inputs.** Every network reply is a datatype value passed as an
  input, so `fetch` and JSON parsing are not modelled. The variants are: an ok reply with
  its fields (each possibly absent), a non-ok reply, and a thrown exception.
- **The polling interval is a field.** `timer` holds the task the live interval queries,
  and `Settled` says it equals `currentTask`. The polling effect (`RunPollingEffect`) clears
  the old interval and arms one for the current task. Every handler that changes
  `currentTask` runs it, so at most one interval is ever live. A tick of the interval is
  `CheckTaskStatus`. The interval firing repeatedly is `FireInterval` (a loop over the
  replies), specified by `RunPolling`. The queries sent are recorded in `statusQueries` and
  `resultsQueries`, so that "exactly one results fetch" can be stated.
- **Chat requests stay in flight.** A chat request sent and not yet answered is kept in
  `pending`. `Resolve(k, reply)` delivers the reply to any of them, in any order. The
  recorder (`mediaRecorderRef.current`) is modelled as:
  - its state (`Inactive`/`Recording`);
  - the chunks collected by its `dataavailable` handler;
  - the log captured when `startRecording` ran, which the stop handler closes over;
  - whether the microphone stream is still open.
- **The form waits for one reply.** The video form's request, from sending to reply, is
  `HandleSubmit` followed by `OnReply`.
- **Randomness is a parameter.** The text of `Math.random().toString(36)` is an input of
  client-id generation.

Behaviour of the code that the model makes explicit:

- **No edit, delete, feedback or stale-response handling.** The chat has no way to edit,
  delete or rate a turn, and no reply is ever discarded. `ReceiveReply` appends whatever
  reply arrives, in arrival order (`RepliesLandInArrivalOrder`).
- **The retry.** `retrySendAudio` resends `lastAudioSent`, which only a successful audio
  answer sets, so the retry resends the last *answered* audio
  (`RetryResendsLastAnsweredAudio`, `FailedFirstVoiceQuestionIsNotRetried`). No rendered
  element calls `retrySendAudio`, but it is modelled as an operation.
- **A denied microphone.** A denied microphone is only logged (src/components/Chat.jsx
  lines 85-87), so in the model it changes nothing.
- **Uncapped appends.** Only the history sent with a typed question is cut to 15 turns.
  Answers are appended without the cap, so typed rounds alone take the log to
  `HistoryLimit + 1` turns (`Conversation`). The stop handler appends the voice question
  without the cap too, so voice questions take the log past any bound: each one with its
  reply adds two turns, whatever the log's length (`VoiceQuestionGetsOneAnswer`).
- **The stop handler's stale snapshot.** The stop handler rebuilds the log from the turns
  captured at the start of recording, which drops any exchange that happened meanwhile
  (`RoundDuringRecordingIsOverwritten`).

## Model

| member | source | states |
|---|---|---|
| `Browser.Substring` | src/App.jsx:35 | JavaScript `substring`: indices clamped into the string; for `0 <= start <= end` the result is exactly `s[start..min(end, len)]` |
| `Browser.Slice` | src/components/Chat.jsx:32 | `slice(start)` always yields a suffix of its input; `slice(-n)` keeps exactly the last `min(n, len)` elements |
| `Browser.StartsWith` | src/components/VideoForm.jsx:43 | `startsWith(prefix)` holds exactly when the string is the prefix followed by some rest |
| `Browser.LocalStorage.GetItem` | src/App.jsx:18 | `getItem` yields a value exactly when the key is stored, and then the stored value; null otherwise |
| `Browser.LocalStorage.SetItem` | src/App.jsx:36 | the key maps to the new value afterwards and every other key is unchanged |
| `AppState.NewClientId` | src/App.jsx:34-38 | a generated id starts with `client-`, is non-empty, at most 20 characters, and continues with the random text's characters 2 to 14 |
| `AppState.App.GenerateClientId` | src/App.jsx:34-38 | returns the generated id and stores it under key `clientId`, changing nothing else in storage |
| `AppState.App.InitClientId` | src/App.jsx:17-20 | a stored truthy id is reused unchanged and storage is untouched; otherwise a new id is generated, stored under `clientId` and used |
| `AppState.ReloadKeepsClientId` | src/App.jsx:17-38 | two page loads sharing one storage end with the same truthy client id, the stored one if there was one, else the id generated by the first load |
| `AppState.SubmitVideo` | src/App.jsx:40-57 | a cached transcription ends with the supplied transcription, summary, message as status, no task, no interval and the supplied URL; a task id ends with that task tracked and polled and status `Processando...`; without a transcription the display is cleared; with neither the task is kept and the URL cleared; the interval always follows the task |
| `AppState.App.HandleVideoSubmit` | src/App.jsx:40-57 | the handler's setters in order, then the polling effect, leave the session equal to `SubmitVideo` of the old session |
| `AppState.App.RunPollingEffect` | src/App.jsx:22-32 | after the effect, the armed interval is exactly the current task (none when there is none) |
| `AppState.ReceiveResults` | src/App.jsx:87-108 | exactly one results query for the URL; an ok reply replaces transcription and summary and leaves the status; a non-ok reply or an exception only sets the error status, which is then shown |
| `AppState.App.FetchTranscriptionAndSummary` | src/App.jsx:87-108 | leaves the session equal to `ReceiveResults` of the old session |
| `AppState.Poll` | src/App.jsx:59-85 | one status query for the armed task; the task is cleared iff the reply is SUCCESS or FAILURE; SUCCESS issues one results query for the task's URL and sets `Transcrição concluída!`, or the load error when that query fails, and with an empty URL sets the load error without a query; FAILURE sets `Erro ao processar a transcrição.`; any other status sets `Processando...` and an exception sets `Erro ao verificar o status.`, both keeping the task and the interval; a status line is shown after every tick |
| `AppState.App.CheckTaskStatus` | src/App.jsx:59-85 | leaves the session equal to `Poll` of the old session, keeping the interval in step with the task |
| `AppState.SuccessShowsSummaryAndChat` | src/App.jsx:127-135 | a success whose results query returns a non-empty transcription and summary shows the summary, and the chat when the session has a video URL, with the polling stopped |
| `AppState.PollCount` | src/App.jsx:22-32 | the interval fires up to and including the first terminal reply: every earlier reply is non-terminal, and the last one fired is terminal unless the replies ran out |
| `AppState.RunPolling` | src/App.jsx:22-32 | successive ticks keep the interval in step with the current task |
| `AppState.PollStep` | src/App.jsx:64-84 | a terminal reply ends the polling run and disarms the interval; any other reply keeps it armed on the same task and sends no results query |
| `AppState.RunPollingQueriesTask` | src/App.jsx:25-28 | polling sends exactly `PollCount(replies)` status queries, all for the armed task |
| `AppState.RunPollingFetchesOnSuccess` | src/App.jsx:64-73 | polling sends one results query, for the task's video, iff the run ends on SUCCESS, and none otherwise |
| `AppState.RunPollingStopsAtTerminal` | src/App.jsx:22-32 | the interval is disarmed at the end iff a terminal reply was met, and otherwise still polls the same task |
| `AppState.FireInterval` | src/App.jsx:26-28 | firing the armed interval once per reply until it is cleared leaves the session equal to `RunPolling` |
| `AppState.ShowsStatus` | src/App.jsx:122 | the status line is rendered exactly when the status is a non-empty string; every polling tick and every failed results query leaves it rendered (`Poll`, `ReceiveResults`) |
| `AppState.ShowsSummary` | src/App.jsx:127 | the summary block is rendered exactly when both transcription and summary are truthy |
| `AppState.ShowsChat` | src/App.jsx:127-135 | the chat panel is rendered when summary and video URL are truthy; whenever it is, the summary block is rendered too unless the transcription is empty |
| `AppState.App.constructor` | src/App.jsx:8-13 | the initial state: empty transcription, summary and status, no task, no client id, no interval |
| `VideoFormState.Classify` | src/components/VideoForm.jsx:43-49 | a message is "started" iff it starts with `Transcrição iniciada.`, "cached" iff it equals `Transcrição já existe`, and unrecognised otherwise |
| `VideoFormState.ApplyReply` | src/components/VideoForm.jsx:40-57 | a started task calls `handleVideoSubmit(null, null, message, url, task_id)`; a cached result sets the status, then calls it with transcription, summary and no task; any other ok message does nothing; a non-ok reply sets `detail` or the default text; an exception, or an ok reply without a message, sets `Erro ao enviar a requisição.` |
| `VideoFormState.VideoForm.constructor` | src/components/VideoForm.jsx:3-6 | the form starts with an empty input, not loading, key 0 and no request in flight, bound to the session it updates |
| `VideoFormState.VideoForm.HandleInputChange` | src/components/VideoForm.jsx:10-12 | the input holds the typed text |
| `VideoFormState.VideoForm.HandleSubmit` | src/components/VideoForm.jsx:14-29 | an empty URL changes nothing and sends nothing, checked before the client id; a missing client id only sets `Erro: Client ID não encontrado.`; otherwise loading, status `Enviando requisição...` and the parent's URL are set and one request with the URL and client id is in flight |
| `VideoFormState.VideoForm.OnReply` | src/components/VideoForm.jsx:40-62 | the session moves as `ApplyReply` says, then, whatever the reply, the input is cleared, `inputKey` grows by one, loading ends and no request is in flight |
| `VideoFormState.SubmitWithoutClientId` | src/components/VideoForm.jsx:16-25 | with no client id stored no request is ever sent; an empty URL is refused first and leaves the status empty |
| `VideoFormState.SubmitCachedVideo` | src/components/VideoForm.jsx:46-48 | a cached result submitted through the form is shown at once, with status `Transcrição já existe`, no task, no polling and no query |
| `VideoFormState.SubmitAndPoll` | src/App.jsx:22-85 | a task started through the form is queried `PollCount(replies)` times, always for its id, and exactly one results query for the URL follows iff the polling ended on SUCCESS |
| `VideoFormState.PendingTwiceThenSuccess` | src/App.jsx:64-80 | PENDING, PENDING, then SUCCESS: three status queries for the task and exactly one results query for its video |
| `ChatState.WithQuestion` | src/components/Chat.jsx:31-32 | the new history has `min(len + 1, 15)` turns: the most recent old turns followed by the new question |
| `ChatState.WithAnswer` | src/components/Chat.jsx:57-60 | the functional update appends exactly one answer turn, holding the reply's data or the fixed error text, after the latest turns kept as they are |
| `ChatState.ResolutionAddsOneAnswer` | src/components/Chat.jsx:56-61 | a resolution, success or failure, adds exactly one answer turn and no question turn |
| `ChatState.SubmitQuestion` | src/components/Chat.jsx:27-47 | an empty question changes nothing and sends nothing; otherwise the log becomes `WithQuestion`, the request carries the panel's video URL and exactly that log, the input is cleared and nothing else changes |
| `ChatState.StartRecorder` | src/components/Chat.jsx:64-88 | with the microphone granted a recorder starts recording with no chunks and the current log captured; a denied microphone changes nothing |
| `ChatState.StopRecorder` | src/components/Chat.jsx:90-95 | a no-op unless the recorder is recording; then it stops it, `isRecording` becomes false and the stop event is still to come |
| `ChatState.CollectChunk` | src/components/Chat.jsx:71 | the chunk is added after those collected so far; nothing else changes |
| `ChatState.CollectChunks` | src/components/Chat.jsx:71 | a sequence of `dataavailable` events adds exactly those chunks, in order |
| `ChatState.FinishRecording` | src/components/Chat.jsx:72-81 | the stop handler sets `audioBlob` to the collected chunks, replaces the log with the captured log plus one voice question holding them, sends one audio request with them for the panel's video and releases the stream |
| `ChatState.ReceiveReply` | src/components/Chat.jsx:50-122 | the request leaves the in-flight list and one answer turn is appended; a typed question touches nothing else; an answered voice question clears `error` and becomes `lastAudioSent`; a failed one sets `error` to the caught message and leaves `lastAudioSent` |
| `ChatState.RetryAudio` | src/components/Chat.jsx:125-131 | a no-op without `lastAudioSent`; otherwise it sends that audio again for the panel's video, adds no turn and leaves `audioBlob` null |
| `ChatState.RecordVoice` | src/components/Chat.jsx:64-95 | a full recording from an idle panel keeps the panel consistent and leaves no stop event pending |
| `ChatState.VoiceQuestionRoundTrip` | src/components/Chat.jsx:64-95 | start, chunks, stop and the stop event append exactly one voice question holding exactly those chunks, send exactly one audio request with them and release the microphone |
| `ChatState.AskByVoice` | src/components/Chat.jsx:97-123 | a recorded question and its reply leave the panel idle and consistent |
| `ChatState.VoiceQuestionGetsOneAnswer` | src/components/Chat.jsx:97-123 | a voice question and its reply add the question and one answer turn and leave no request in flight; success sets `lastAudioSent` to that audio and clears `error`, failure sets `error` and keeps `lastAudioSent` |
| `ChatState.VoiceQuestionAddsOneAnswerTurn` | src/components/Chat.jsx:114-121 | a voice question and its reply add exactly one answer turn to the log |
| `ChatState.Exchange` | src/components/Chat.jsx:31-60 | one typed round leaves `min(len + 2, 16)` turns, ending with the question and then its answer |
| `ChatState.Conversation` | src/components/Chat.jsx:31-60 | after n ≥ 1 rounds the log has `min(len + 2n, 16)` turns: the cap applies to the question but not to the answer |
| `ChatState.ConversationEndsWithLastExchange` | src/components/Chat.jsx:31-60 | after one or more rounds the last two turns are the last question and its answer |
| `ChatState.Round` | src/components/Chat.jsx:27-61 | a typed round keeps the panel consistent |
| `ChatState.RoundAddsQuestionThenAnswer` | src/components/Chat.jsx:27-61 | a typed round changes exactly the log, to `Exchange`, and the input, to empty; the requests in flight are as before |
| `ChatState.Rounds` | src/components/Chat.jsx:27-61 | successive typed rounds keep the panel consistent |
| `ChatState.RoundsFollowConversation` | src/components/Chat.jsx:27-61 | rounds on the panel change its log as `Conversation` says and nothing else but the input |
| `ChatState.RepliesLandInArrivalOrder` | src/components/Chat.jsx:57-60 | two typed questions whose replies arrive in reverse order get their answers in arrival order, after both questions |
| `ChatState.FailedFirstVoiceQuestionIsNotRetried` | src/components/Chat.jsx:114-131 | a voice question that fails with no earlier answered audio sets the error, and the retry then sends nothing |
| `ChatState.AnsweredThenFailedVoiceQuestions` | src/components/Chat.jsx:114-121 | after an answered and then a failed voice question, `lastAudioSent` is the first audio, `error` the caught message, and nothing is in flight |
| `ChatState.AnsweredThenFailedLog` | src/components/Chat.jsx:72-121 | both voice questions and both answer turns are in the log, in order |
| `ChatState.RetryResendsLastAnsweredAudio` | src/components/Chat.jsx:125-131 | the retry after those two resends the first, answered audio, not the failed one, adds no turn and leaves `audioBlob` null |
| `ChatState.RoundDuringRecordingIsOverwritten` | src/components/Chat.jsx:72-77 | a typed exchange made while recording is in the log until the stop event, which rebuilds the log from the turns captured at the start and drops it |
| `ChatState.CaughtMessage` | src/components/Chat.jsx:108-121 | the `message` of the caught error: a non-ok reply's truthy `detail`, else `Erro na API: ` followed by the status text, which is never empty; an exception's own message |
| `ChatState.Chat.constructor` | src/components/Chat.jsx:5-13 | a new panel is consistent, with an empty log, no recorder and nothing in flight |
| `ChatState.Chat.HandleInputChange` | src/components/Chat.jsx:17-19 | only the input changes, to the typed text |
| `ChatState.Chat.HandleSubmit` | src/components/Chat.jsx:27-47 | leaves the panel equal to `SubmitQuestion` of the old panel |
| `ChatState.Chat.StartRecording` | src/components/Chat.jsx:64-88 | leaves the panel equal to `StartRecorder` of the old panel |
| `ChatState.Chat.StopRecording` | src/components/Chat.jsx:90-95 | leaves the panel equal to `StopRecorder` of the old panel |
| `ChatState.Chat.ToggleRecording` | src/components/Chat.jsx:173 | the record button stops while recording and starts otherwise |
| `ChatState.Chat.DataAvailable` | src/components/Chat.jsx:71 | leaves the panel equal to `CollectChunk` of the old panel |
| `ChatState.Chat.OnStop` | src/components/Chat.jsx:72-81 | leaves the panel equal to `FinishRecording` of the old panel |
| `ChatState.Chat.SendAudio` | src/components/Chat.jsx:97-106 | exactly one audio request with the blob is added to those in flight |
| `ChatState.Chat.Resolve` | src/components/Chat.jsx:50-122 | leaves the panel equal to `ReceiveReply` of the old panel |
| `ChatState.Chat.RetrySendAudio` | src/components/Chat.jsx:125-131 | leaves the panel equal to `RetryAudio` of the old panel |
| `ChatState.DeliverChunks` | src/components/Chat.jsx:71 | feeding chunks one event at a time to the live recorder leaves the panel equal to `CollectChunks` |
| `ChatState.RecordFirstVoiceQuestion` | src/components/Chat.jsx:64-95 | on a fresh panel, the record button twice and the stop event leave exactly one voice question with the chunks and exactly one audio request, and the microphone released |

## Left out

- Rendering is not modelled: JSX, `ReactMarkdown`, CSS, `scrollIntoView`, `URL.createObjectURL` and the `audioURL` state are presentation only. The rendering conditions are modelled as `ShowsStatus`, `ShowsSummary` and `ShowsChat`.
- Network transport is not modelled: `fetch`, `FormData`, URL query encoding, JSON parsing and the backend URL. Each reply is an input value. A reply field that is present but of the wrong JSON type is not distinguished from a string.
- `MediaRecorder`, `getUserMedia` and the stream tracks are reduced to a recorder state, its chunks and a "stream live" flag. The Blob's MIME type is not modelled.
- The 5-second timing of `setInterval` is not modelled. The browser firing the interval is `FireInterval`'s loop over the replies.
- React's batching of state updates and the interleaving of asynchronous continuations are only partly modelled:
  - Each handler is atomic.
  - A polling tick, including its results fetch, is one step.
  - A chat request may be answered at any later point, in any order.
  - The video form waits for its single reply: the button is disabled while loading.
- `Math.random` is not modelled. Its text is a parameter.
- `alert` on an empty URL is not modelled. `console` logging is left out.
- React `StrictMode`, which runs mount effects twice in development, is not modelled.
- Mounting and unmounting the chat panel is not modelled, and the panel's `videoUrl` is fixed for its lifetime. The panel unmounts, and so loses its state, only when the summary or the URL becomes empty. That does not happen for a cached resubmission of another video: the form sets the new URL, and the cached reply sets the new summary, so the chat stays shown throughout (React batches the two groups of setters). The mounted panel then keeps the old video's log and its in-flight replies, and sends later questions for the new URL. The model does not capture this carry-over.
- `src/components/Navbar.jsx`, `src/main.jsx` and `tailwind.config.js` hold no session logic and are not part of this model.
- Strings are sequences of characters, not JavaScript's UTF-16 code units.
- `ChatState.StartRecorder`: requires that no stop event of an earlier recording is still to be delivered, as `ChatState.Chat.StartRecording` does.
- `ChatState.Chat.StartRecording`: requires that no stop event of an earlier recording is still to be delivered. The model does not cover a new recording starting before the previous one's `onstop` has run.
- `ChatState.AskByVoice`: resolves the voice question's request at index `|v.pending|`, so earlier requests stay in flight. Other orders are covered by `ReceiveReply` itself.
- `retrySendAudio` resending the last answered audio rather than the failed one is modelled as written. It is not claimed as a defect, because the intended behaviour cannot be read from the code.
