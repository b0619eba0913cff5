# File Processor chat session, modelled in Dafny

File Processor is a single-page client. The user uploads one file (PDF, image or CSV)
to a backend and then asks questions about its content in a conversation. This
project models the client-side session state machine of the page component
`FileProcessor` in `chat/src/App.js`, and the older, simpler variant of the same page
in `chat/src/pixel.js`.

- `js.dfy` (module `Js`): the JavaScript values the components rely on. It holds an
  optional value (`undefined`), a browser `File` (name, size, MIME type), and
  `String.prototype.trim` over ECMAScript's whitespace and line-terminator code points.
  It also holds the `value || fallback` idiom on an optional string.
- `app.dfy` (module `App`): the six `useState` fields as the datatype `State`. The
  status line and the file-info label are functions. The enablement of the question
  box and the Ask button are predicates. `Next` gives the state after one event, and
  `UploadIssued`/`AskIssued` give the request an event sends. One lemma per handler
  states what that handler does. `Coherent` is an invariant every event keeps. The
  class `App.FileProcessor` has the six fields as mutable fields and one method per
  handler. Each method updates the fields step by step, and its contract ties the new
  state to `Next` of the old state and keeps `Coherent`.
- `app_runs.dfy` (module `AppRuns`): runs, that is, sequences of events from mount.
  `Coherent` holds after every run. After every well-formed run, a file is installed
  exactly when the status is not `idle`, and in `idle` the conversation is empty. A
  run is well-formed when each completion answers a request sent earlier in it. Two
  lemmas show what the page does not guarantee.
- `pixel.dfy` (module `Pixel`): the older page. Its class has a question box and one
  answer string that every handler overwrites.

Each asynchronous handler is split at its `await`. The part before the `await` is a
start method or event, and it returns the request the handler sends. The network's
outcome arrives later as a success or failure completion that names that request.
Completions are independent events. Any number may be outstanding, and they may
arrive in any order, because the component does not prevent it. Message ids and
timestamps come from the clock in the source; here they are parameters of the events.

Three React details are kept:

- The chat request is built from the values the handler's render saw. So `q` is the
  trimmed question, and `chat_history` is the history *before* the user message is
  appended.
- Answer completions append to the history as it is when they arrive.
- Upload completions replace the history outright.

Where a reader might expect one behaviour and the code does another, the model
follows the code:

- Upload outcome. One might expect any non-2xx response to count as an upload
  failure. The code's `fetch` does not reject on HTTP status, so an error response
  whose body parses as JSON takes the success path. In the model the outcome is the
  completion event's kind.
- Upload completion. The comment at chat/src/App.js:52 speaks of adding a system
  message to the chat history. The code replaces the whole history by that one
  message (`UploadSuccessAnnouncesFile`, `UploadFailureKeepsFile`).
- One question at a time. One might expect at most one question in flight, and a
  bot message always directly answering the preceding user message. Neither the Ask
  button nor the handler looks at `isTyping` (`TypingDoesNotGateAsk`).
  `SecondQuestionWhileTyping` and `TwoQuestionsInFlight` show two questions in
  flight, the second sent without the first answer, and two consecutive bot
  messages. `StaleAnswerJoinsNewConversation` shows an answer arriving after a new
  upload: it lands right after the new file's system message.
- Failed upload notices. The status line after a failed upload reads "Error
  processing file. Please try again.". The system message reads "Error processing
  file. Please try uploading again.". Both texts are modelled as written.

## Model

| member | source | states |
|---|---|---|
| `Js.IsWhiteSpace` | chat/src/App.js:96 | the characters `trim` removes; within ASCII exactly space and tab through carriage return, and never a letter or a digit |
| `Js.TrimStart` | chat/src/App.js:96 | the result is a suffix of the input that is empty or does not start with whitespace |
| `Js.TrimStartDropsWhiteSpace` | chat/src/App.js:96 | everything `TrimStart` drops is whitespace |
| `Js.TrimEnd` | chat/src/App.js:96 | the result is a prefix of the input that is empty or does not end with whitespace |
| `Js.TrimEndDropsWhiteSpace` | chat/src/App.js:96 | everything `TrimEnd` drops is whitespace |
| `Js.Trim` | chat/src/App.js:96 | `question.trim()`: the result is no longer than the input and neither starts nor ends with whitespace |
| `Js.TrimBlankIffAllWhiteSpace` | chat/src/App.js:96 | the `!question.trim()` gate: the trimmed question is empty exactly when the input is all whitespace |
| `Js.TrimStripsEnds` | chat/src/App.js:101 | the trimmed question is the middle of the typed one, with only whitespace removed at the two ends |
| `Js.IsBlank` | chat/src/App.js:96 | `!question.trim()`: a question is blank exactly when every character is whitespace |
| `Js.TrimIdempotent` | chat/src/App.js:101 | trimming a trimmed question changes nothing, so user messages hold trimmed text |
| `Js.TrimUnchanged` | chat/src/pixel.js:43 | the untrimmed `q` of the old page equals App's trimmed `q` exactly when the question has no whitespace at either end |
| `Js.OrElse` | chat/src/App.js:128 | the `data.answer` fallback: the answer when it is a non-empty string, the fallback when it is missing or empty |
| `App.UploadSuccessText` | chat/src/App.js:56 | the upload-success system message contains the uploaded file's name and differs from the upload-failure message |
| `App.StatusMessage` | chat/src/App.js:156-167 | `getUploadStatusMessage` is total over the four statuses, and it is empty exactly for `idle` |
| `App.StatusLinesDistinct` | chat/src/App.js:156-167 | no two statuses share a status line |
| `App.FileInfoLabel` | chat/src/App.js:355-357 | the file-info label is total, and its catch-all "Uploaded" is taken by `idle` and by no other status |
| `App.FileInfoLabelsDistinct` | chat/src/App.js:355-357 | no two statuses share a file-info label |
| `App.Next` | chat/src/App.js:32-154 | the state after each handler; no event returns the status to `idle`, and a new file always comes with an empty history in `processing` |
| `App.HistoryGrowsByOne` | chat/src/App.js:37-143 | every event keeps the history, replaces it by at most one message, or appends exactly one message at its end |
| `App.StartUpload` | chat/src/App.js:32-37 | `handleFileUpload` before its `await`; its properties are stated by `AbsentFileChangesNothing` and `UploadStartResetsSession` |
| `App.Submit` | chat/src/App.js:95-108 | `handleQuestionSubmit` before its `await`; its properties are stated by `SubmitGate` and `SubmitAppendsQuestion` |
| `App.SubmitRequest` | chat/src/App.js:110-120 | the chat request body; its properties are stated by `AskIssued`, `SubmitGate` and `SubmitAppendsQuestion` |
| `App.UploadIssued` | chat/src/App.js:39-46 | the upload request an event sends; stated by `UploadStartResetsSession`, `AbsentFileChangesNothing` and `DragAndDrop` |
| `App.AskIssued` | chat/src/App.js:110-120 | the chat request an event sends carries a non-empty question with no whitespace at either end, and the history as it was before the event |
| `App.InputEnabled` | chat/src/App.js:318 | the question box's enablement; `EnablementMatchesGate` states that a submit is a no-op while it is disabled |
| `App.AskButtonEnabled` | chat/src/App.js:323 | the Ask button's enablement; `EnablementMatchesGate` states that it coincides with a submit sending a question |
| `App.AbsentFileChangesNothing` | chat/src/App.js:32-33 | an absent file (`files[0]` undefined) changes no state and sends no upload |
| `App.UploadStartResetsSession` | chat/src/App.js:35-37 | starting an upload sets the file and `processing` and empties the history before any result, keeps the question and flags, and sends that file |
| `App.UploadSuccessAnnouncesFile` | chat/src/App.js:50-58 | upload success sets `success` and makes the history exactly one system message naming that upload's file; the file, question and typing flag are kept |
| `App.UploadFailureKeepsFile` | chat/src/App.js:59-67 | upload failure sets `error`, makes the history exactly the fixed system notice, and keeps the attempted file |
| `App.SubmitGate` | chat/src/App.js:96 | a submit changes nothing and sends nothing exactly when the question is blank or the status is not `success` |
| `App.SubmitAppendsQuestion` | chat/src/App.js:98-119 | an accepted submit appends exactly one user message with the trimmed question after the unchanged earlier entries, empties the question, sets `isTyping`, and sends the trimmed question with the history as it was before the append |
| `App.AskSuccessAppendsAnswer` | chat/src/App.js:122-146 | an answer appends exactly one bot message to the current history, holding the answer or "No answer found."; `isTyping` is false afterwards |
| `App.AskFailureAppendsNotice` | chat/src/App.js:133-146 | a failed ask appends the fixed bot error notice to the current history; `isTyping` is false afterwards |
| `App.DragAndDrop` | chat/src/App.js:76-93 | drag-over sets `isDragOver`; drag-leave and drop clear it; a drop starts an upload exactly when it carries a file |
| `App.KeyPressSubmits` | chat/src/App.js:149-154 | Enter without Shift acts as a submit; any other key changes nothing |
| `App.EnablementMatchesGate` | chat/src/App.js:318-323 | the Ask button is enabled exactly when a submit would send a question; a disabled question box means a submit is a no-op; `isTyping` does not disable asking |
| `App.TypingDoesNotGateAsk` | chat/src/App.js:96 | whether and what a submit sends does not depend on `isTyping` |
| `App.InitialCoherent` | chat/src/App.js:8-13 | the mounted state satisfies the session invariant |
| `App.NextPreservesCoherent` | chat/src/App.js:32-147 | every event keeps the invariant: a system message only first, user messages non-empty and trimmed, bot messages non-empty, a file only outside `idle`, not typing in `idle` |
| `App.SubmitPreservesCoherent` | chat/src/App.js:95-108 | a submit keeps the invariant |
| `App.FileProcessor.constructor` | chat/src/App.js:8-13 | the component mounts with an empty question and history, no file, `idle`, and both flags false |
| `App.FileProcessor.EditQuestion` | chat/src/App.js:314 | typing replaces the question and nothing else |
| `App.FileProcessor.StartUpload` | chat/src/App.js:32-37 | `handleFileUpload` before its `await` moves the state by `Next` and returns the upload it sends |
| `App.FileProcessor.FileInputChanged` | chat/src/App.js:71-74 | the file input's change uploads the first selected file, if any |
| `App.FileProcessor.UploadSucceeded` | chat/src/App.js:48-58 | the upload's success completion, as `Next` |
| `App.FileProcessor.UploadFailed` | chat/src/App.js:59-67 | the upload's failure completion, as `Next` |
| `App.FileProcessor.DragOver` | chat/src/App.js:76-79 | `handleDragOver`, as `Next` |
| `App.FileProcessor.DragLeave` | chat/src/App.js:81-84 | `handleDragLeave`, as `Next` |
| `App.FileProcessor.Drop` | chat/src/App.js:86-93 | `handleDrop` clears the highlight and uploads the dropped file if any, returning the upload it sends |
| `App.FileProcessor.SubmitQuestion` | chat/src/App.js:95-108 | `handleQuestionSubmit` before its `await` moves the state by `Next` and returns the request it sends |
| `App.FileProcessor.KeyPress` | chat/src/App.js:149-154 | `handleKeyPress` submits on Enter without Shift |
| `App.FileProcessor.AskSucceeded` | chat/src/App.js:122-132 | the answer completion with its `finally`, as `Next` |
| `App.FileProcessor.AskFailed` | chat/src/App.js:133-146 | the failure completion with its `finally`, as `Next` |
| `App.FileProcessor.GetUploadStatusMessage` | chat/src/App.js:156-167 | reads the status line of the current status (see `StatusMessage`) |
| `AppRuns.RunCoherent` | chat/src/App.js:32-147 | after any sequence of events from mount, including late completions, the session invariant holds |
| `AppRuns.SendingLeavesIdle` | chat/src/App.js:36 | an event that sends a request leaves the status outside `idle` |
| `AppRuns.LeftIdleStaysOut` | chat/src/App.js:32-69 | once a run has left `idle`, every longer run stays out of it |
| `AppRuns.NextKeepsFacts` | chat/src/App.js:32-147 | one event keeps the run facts when a completion arrives only outside `idle` |
| `AppRuns.AnsweredRequestWasSent` | chat/src/App.js:32-147 | a completion only answers an event that did send a request |
| `AppRuns.AnsweredStart` | chat/src/App.js:32-147 | every completion of a well-formed run has an earlier start that sent its request |
| `AppRuns.AnsweredStartLeavesIdle` | chat/src/App.js:32-37 | the run ending with a start that sent a request is outside `idle` |
| `AppRuns.CompletionArrivesOutOfIdle` | chat/src/App.js:32-147 | in a well-formed run every completion finds the status outside `idle` |
| `AppRuns.WellFormedRunFacts` | chat/src/App.js:8-69 | after any well-formed run: status `idle` exactly when no file is installed, and in `idle` the history is empty |
| `AppRuns.StaleAnswerJoinsNewConversation` | chat/src/App.js:132 | an answer arriving after a new upload succeeded appends to the new file's conversation, directly after its system message |
| `AppRuns.SecondQuestionWhileTyping` | chat/src/App.js:95-108 | while `isTyping` is up, a second question is accepted and sent with a history that holds the first question but not its answer |
| `AppRuns.TwoQuestionsAppend` | chat/src/App.js:95-108 | two accepted questions in a row append two trimmed user messages in order |
| `AppRuns.TwoAnswersAppend` | chat/src/App.js:122-146 | two answers in a row append two bot messages in arrival order, with `isTyping` down |
| `AppRuns.TwoQuestionsInFlight` | chat/src/App.js:95-147 | two questions in flight end as two user messages followed by two consecutive bot messages, with `isTyping` down |
| `Pixel.FileProcessor.constructor` | chat/src/pixel.js:9-10 | the old page mounts with an empty question and the answer "Answer" |
| `Pixel.FileProcessor.EditQuestion` | chat/src/pixel.js:89 | typing replaces the question and keeps the answer |
| `Pixel.FileProcessor.StartUpload` | chat/src/pixel.js:12-17 | the upload start sends the chosen file if there is one, and changes nothing either way |
| `Pixel.FileProcessor.UploadSucceeded` | chat/src/pixel.js:25-27 | upload success sets the answer to "File uploaded. You can now ask questions!" and keeps the question |
| `Pixel.FileProcessor.UploadFailed` | chat/src/pixel.js:28-31 | upload failure sets the answer to "Error uploading file." and keeps the question |
| `Pixel.FileProcessor.SubmitQuestion` | chat/src/pixel.js:33-44 | a blank question changes nothing; otherwise the answer becomes "Thinking..." and the untrimmed question is sent, with no upload gate; the question is never modified |
| `Pixel.FileProcessor.AskSucceeded` | chat/src/pixel.js:46-47 | the answer becomes the reply when non-empty, else "No answer found." |
| `Pixel.FileProcessor.AskFailed` | chat/src/pixel.js:48-50 | the answer becomes "Error fetching answer." |

## Left out

- Rendering: the JSX markup, CSS class selection and icons. The textarea autosize
  effect (chat/src/App.js:18-23) and scroll-into-view (chat/src/App.js:26-30) are
  browser side effects with no state. `console.log` is omitted too.
- The kilobyte display `(size / 1024).toFixed(1)` is floating-point formatting.
- `preventDefault` calls in the drag and key handlers are browser effects.
- Network and serialisation: `fetch`, `FormData`, `JSON.stringify`, `res.json()`.
  The outcome of each request is the kind of completion event, whatever the HTTP
  status. An upload succeeds when the response body parses as JSON. An ask succeeds
  when the body parses as JSON to a non-null value; a `null` body makes
  `data.answer` throw, and the `catch` turns that into the failure completion. A
  failure completion means anything in the `try` block threw.
- The question box is disabled outside `success` (chat/src/App.js:318), but `Next`
  accepts `QuestionEdited` and `KeyPressed` in every state. This over-approximates
  the page. It changes no conclusion, since a submit outside `success` is a no-op
  (`SubmitGate`).
- The `answer` property is a string or absent. A non-string `answer` in the JSON (a
  number, say) would be shown as is; that case is not modelled.
- Clocks: message ids (`Date.now()`, and `Date.now() + 1` for bot messages) and ISO
  timestamps are event parameters. Id uniqueness is not claimed, since a user id and
  a bot id can collide.
- The backend (`backend/main.py`) is not part of this model. It does OCR, text
  splitting, vector search and model calls. Its `Question` has only `q`, so the
  `chat_history` the client sends is ignored there.
- `chat/tailwind.config.js` is styling configuration and is not part of this model.
- Concurrency is not constrained. There is no promise of one request in flight, of
  alternating user and bot messages, or of dropped stale completions. The code
  provides none of these; the two lemmas in `AppRuns` show this.
