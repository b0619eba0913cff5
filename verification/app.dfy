/** The session state machine of the chat page (`FileProcessor` in chat/src/App.js):
    six pieces of component state, the handlers that change them, and the status
    labels and enablement conditions the page derives from them.

    Each asynchronous handler is split at its `await`: the part before it is one
    event, which returns the request the handler would send, and the network's
    outcome arrives later as a separate completion event naming that request.
    Completions are independent events: any number of them may be outstanding and
    they may arrive in any order, as nothing in the component prevents it. Message
    ids and timestamps (from the clock in the source) are event parameters. */
module App {
  import opened Js

  datatype UploadStatus = Idle | Processing | Success | Error

  datatype Role = System | User | Bot

  /** One conversation entry; `role` is the `type` field of the source's message objects. */
  datatype Message = Message(id: int, role: Role, content: string, timestamp: string)

  /** The six `useState` fields of the component. */
  datatype State = State(
    question: string,
    chatHistory: seq<Message>,
    uploadedFile: Option<File>,
    uploadStatus: UploadStatus,
    isDragOver: bool,
    isTyping: bool)

  /** The values the component mounts with. */
  const Initial := State("", [], None, Idle, false, false)

  /** The multipart body of `POST /upload/`: the one file field. */
  datatype UploadRequest = UploadRequest(file: File)

  /** The JSON body of `POST /chat/`. */
  datatype AskRequest = AskRequest(q: string, chatHistory: seq<Message>)

  const UploadErrorText := "Error processing file. Please try uploading again."
  const NoAnswerText := "No answer found."
  const AskErrorText := "Error fetching answer. Please try again."

  /** The system message announcing that an upload was processed: the file name in
      quotes between a fixed opening and a fixed closing sentence. */
  function UploadSuccessText(name: string): (r: string)
    ensures Contains(r, name)
    ensures r != UploadErrorText
  {
    var r := UploadSuccessOpening + name + UploadSuccessClosing;
    assert name <= r[|UploadSuccessOpening|..];
    assert |r| > |UploadErrorText|;
    r
  }

  const UploadSuccessOpening := "File \""
  const UploadSuccessClosing := "\" has been processed successfully. You can now ask questions about its content."

  /** The status line under the drop zone. It is empty only for `Idle`, and no two
      statuses share a line (see StatusLinesDistinct). */
  function StatusMessage(status: UploadStatus): (r: string)
    ensures r == [] <==> status == Idle
  {
    match status
    case Processing => "Processing..."
    case Success => "File processed, you may ask questions now!"
    case Error => "Error processing file. Please try again."
    case Idle => ""
  }

  /** The label of the file-info card. Its catch-all "Uploaded" is the label of
      `Idle` and of no other status, and no two statuses share a label (see
      FileInfoLabelsDistinct). */
  function FileInfoLabel(status: UploadStatus): (r: string)
    ensures r == "Uploaded" <==> status == Idle
  {
    if status.Success? then "Ready"
    else if status.Processing? then "Processing"
    else if status.Error? then "Error"
    else "Uploaded"
  }

  lemma StatusLinesDistinct(a: UploadStatus, b: UploadStatus)
    ensures StatusMessage(a) == StatusMessage(b) ==> a == b
  {
  }

  lemma FileInfoLabelsDistinct(a: UploadStatus, b: UploadStatus)
    ensures FileInfoLabel(a) == FileInfoLabel(b) ==> a == b
  {
  }

  /** The question box is enabled only once the upload succeeded. */
  predicate InputEnabled(status: UploadStatus) {
    status == Success
  }

  /** The Ask button is enabled when there is a non-blank question and the upload succeeded. */
  predicate AskButtonEnabled(question: string, status: UploadStatus) {
    !IsBlank(question) && status == Success
  }

  /** Everything that can happen to the component. A completion names the request
      it answers. */
  datatype Event =
    | QuestionEdited(text: string)
    | FileChosen(file: Option<File>)
    | DragOver
    | DragLeave
    | Dropped(file: Option<File>)
    | UploadSucceeded(upload: UploadRequest, id: int, timestamp: string)
    | UploadFailed(upload: UploadRequest, id: int, timestamp: string)
    | Submitted(id: int, timestamp: string)
    | KeyPressed(key: string, shiftKey: bool, id: int, timestamp: string)
    | AskSucceeded(ask: AskRequest, answer: Option<string>, id: int, timestamp: string)
    | AskFailed(ask: AskRequest, id: int, timestamp: string)
  {
    predicate IsCompletion() {
      UploadSucceeded? || UploadFailed? || AskSucceeded? || AskFailed?
    }
  }

  /** `handleFileUpload` up to its `await`. */
  function StartUpload(s: State, file: Option<File>): State {
    match file
    case None => s
    case Some(f) => s.(uploadedFile := Some(f), uploadStatus := Processing, chatHistory := [])
  }

  /** The guard at the top of `handleQuestionSubmit`. */
  predicate SubmitAccepted(s: State) {
    !IsBlank(s.question) && s.uploadStatus == Success
  }

  /** `handleQuestionSubmit` up to its `await`. */
  function Submit(s: State, id: int, timestamp: string): State {
    if !SubmitAccepted(s) then s
    else s.(chatHistory := s.chatHistory + [Message(id, User, Trim(s.question), timestamp)],
            question := "",
            isTyping := true)
  }

  /** The request `handleQuestionSubmit` sends: the trimmed question and the history
      the handler's render saw, that is, before the user message is appended. */
  function SubmitRequest(s: State): Option<AskRequest> {
    if SubmitAccepted(s) then Some(AskRequest(Trim(s.question), s.chatHistory)) else None
  }

  /** The key that submits: Enter without Shift. */
  predicate IsSubmitKey(key: string, shiftKey: bool) {
    key == "Enter" && !shiftKey
  }

  /** The state after one event. No event returns the page to `Idle`, and a new
      file always starts an empty conversation in `Processing` (for the history see
      HistoryGrowsByOne). */
  function Next(s: State, e: Event): (t: State)
    ensures s.uploadStatus != Idle ==> t.uploadStatus != Idle
    ensures t.uploadedFile != s.uploadedFile ==> t.uploadStatus == Processing && t.chatHistory == []
  {
    match e
    case QuestionEdited(text) => s.(question := text)
    case FileChosen(file) => StartUpload(s, file)
    case DragOver => s.(isDragOver := true)
    case DragLeave => s.(isDragOver := false)
    case Dropped(file) => StartUpload(s.(isDragOver := false), file)
    case UploadSucceeded(upload, id, timestamp) =>
      s.(uploadStatus := Success,
         chatHistory := [Message(id, System, UploadSuccessText(upload.file.name), timestamp)])
    case UploadFailed(_, id, timestamp) =>
      s.(uploadStatus := Error, chatHistory := [Message(id, System, UploadErrorText, timestamp)])
    case Submitted(id, timestamp) => Submit(s, id, timestamp)
    case KeyPressed(key, shiftKey, id, timestamp) =>
      if IsSubmitKey(key, shiftKey) then Submit(s, id, timestamp) else s
    case AskSucceeded(_, answer, id, timestamp) =>
      s.(chatHistory := s.chatHistory + [Message(id, Bot, OrElse(answer, NoAnswerText), timestamp)],
         isTyping := false)
    case AskFailed(_, id, timestamp) =>
      s.(chatHistory := s.chatHistory + [Message(id, Bot, AskErrorText, timestamp)], isTyping := false)
  }

  /** The upload request an event sends, if any. */
  function UploadIssued(s: State, e: Event): Option<UploadRequest> {
    match e
    case FileChosen(Some(f)) => Some(UploadRequest(f))
    case Dropped(Some(f)) => Some(UploadRequest(f))
    case _ => None
  }

  /** The chat request an event sends, if any. The question it carries is non-empty
      with no whitespace at either end, and its history is the page's history before the event. */
  function AskIssued(s: State, e: Event): (r: Option<AskRequest>)
    ensures r.Some? ==> r.value.q != [] && !IsWhiteSpace(r.value.q[0]) && !IsWhiteSpace(r.value.q[|r.value.q| - 1])
    ensures r.Some? ==> r.value.chatHistory == s.chatHistory
  {
    match e
    case Submitted(_, _) => SubmitRequest(s)
    case KeyPressed(key, shiftKey, _, _) => if IsSubmitKey(key, shiftKey) then SubmitRequest(s) else None
    case _ => None
  }

  /** The history changes only as a whole or at its end: an event keeps it,
      replaces it by at most one message, or appends exactly one message. */
  lemma HistoryGrowsByOne(s: State, e: Event)
    ensures var h := Next(s, e).chatHistory;
      || h == s.chatHistory
      || |h| <= 1
      || (|h| == |s.chatHistory| + 1 && h[..|s.chatHistory|] == s.chatHistory)
  {
    match e
    case Submitted(id, timestamp) =>
      if SubmitAccepted(s) { SubmitAppendsQuestion(s, id, timestamp); }
    case KeyPressed(key, shiftKey, id, timestamp) =>
      if IsSubmitKey(key, shiftKey) && SubmitAccepted(s) { SubmitAppendsQuestion(s, id, timestamp); }
    case AskSucceeded(_, answer, id, timestamp) =>
      assert (s.chatHistory + [Message(id, Bot, OrElse(answer, NoAnswerText), timestamp)])[..|s.chatHistory|] == s.chatHistory;
    case AskFailed(_, id, timestamp) =>
      assert (s.chatHistory + [Message(id, Bot, AskErrorText, timestamp)])[..|s.chatHistory|] == s.chatHistory;
    case _ =>
  }

  // ---------------------------------------------------------------------------
  // What each handler does

  /** An absent file (`files[0]` undefined) starts no upload and changes nothing. */
  lemma AbsentFileChangesNothing(s: State)
    ensures Next(s, FileChosen(None)) == s
    ensures UploadIssued(s, FileChosen(None)) == None
  {
  }

  /** Starting an upload installs the file, marks it processing and empties the
      conversation before any result arrives; the question and flags are kept. */
  lemma UploadStartResetsSession(s: State, f: File)
    ensures var t := Next(s, FileChosen(Some(f)));
      t.uploadedFile == Some(f) && t.uploadStatus == Processing && t.chatHistory == []
      && t.question == s.question && t.isTyping == s.isTyping && t.isDragOver == s.isDragOver
    ensures UploadIssued(s, FileChosen(Some(f))) == Some(UploadRequest(f))
  {
  }

  /** A successful upload replaces the conversation by one system message that
      names the uploaded file, whatever the conversation held meanwhile. */
  lemma UploadSuccessAnnouncesFile(s: State, upload: UploadRequest, id: int, timestamp: string)
    ensures var t := Next(s, UploadSucceeded(upload, id, timestamp));
      t.uploadStatus == Success && |t.chatHistory| == 1
      && t.chatHistory[0].role == System && t.chatHistory[0].id == id
      && Contains(t.chatHistory[0].content, upload.file.name)
      && t.uploadedFile == s.uploadedFile && t.question == s.question && t.isTyping == s.isTyping
  {
  }

  /** A failed upload replaces the conversation by the fixed error notice and keeps
      the attempted file for display. */
  lemma UploadFailureKeepsFile(s: State, upload: UploadRequest, id: int, timestamp: string)
    ensures var t := Next(s, UploadFailed(upload, id, timestamp));
      t.uploadStatus == Error
      && t.chatHistory == [Message(id, System, "Error processing file. Please try uploading again.", timestamp)]
      && t.uploadedFile == s.uploadedFile && t.question == s.question && t.isTyping == s.isTyping
    ensures Next(s, UploadFailed(upload, id, timestamp)).chatHistory[0].content
         != Next(s, UploadSucceeded(upload, id, timestamp)).chatHistory[0].content
  {
  }

  /** A submit with a blank question or before a successful upload is a no-op that
      sends nothing; otherwise it sends a request and changes the state. */
  lemma SubmitGate(s: State, id: int, timestamp: string)
    ensures IsBlank(s.question) || s.uploadStatus != Success
        <==> Next(s, Submitted(id, timestamp)) == s
    ensures IsBlank(s.question) || s.uploadStatus != Success
        <==> AskIssued(s, Submitted(id, timestamp)) == None
  {
    var t := Next(s, Submitted(id, timestamp));
    assert t == Submit(s, id, timestamp);
    if SubmitAccepted(s) {
      var m := Message(id, User, Trim(s.question), timestamp);
      assert t.chatHistory == s.chatHistory + [m];
      assert |t.chatHistory| != |s.chatHistory|;
      assert t != s;
      assert AskIssued(s, Submitted(id, timestamp)).Some?;
    } else {
      assert t == s;
      assert AskIssued(s, Submitted(id, timestamp)) == None;
    }
  }

  /** An accepted submit appends the trimmed question as one user message after the
      unchanged earlier entries, empties the input, raises the typing flag, and sends
      the trimmed question with the history as it was before the append. */
  lemma SubmitAppendsQuestion(s: State, id: int, timestamp: string)
    requires !IsBlank(s.question) && s.uploadStatus == Success
    ensures var t := Next(s, Submitted(id, timestamp));
      |t.chatHistory| == |s.chatHistory| + 1 && t.chatHistory[..|s.chatHistory|] == s.chatHistory
      && t.chatHistory[|s.chatHistory|] == Message(id, User, Trim(s.question), timestamp)
      && t.question == "" && t.isTyping
      && t.uploadStatus == s.uploadStatus && t.uploadedFile == s.uploadedFile
    ensures AskIssued(s, Submitted(id, timestamp)) == Some(AskRequest(Trim(s.question), s.chatHistory))
    ensures var t := Next(s, Submitted(id, timestamp));
      t.chatHistory == AskIssued(s, Submitted(id, timestamp)).value.chatHistory
                       + [Message(id, User, AskIssued(s, Submitted(id, timestamp)).value.q, timestamp)]
  {
    var m := Message(id, User, Trim(s.question), timestamp);
    var t := Next(s, Submitted(id, timestamp));
    assert t == s.(chatHistory := s.chatHistory + [m], question := "", isTyping := true);
    assert t.chatHistory[..|s.chatHistory|] == s.chatHistory;
  }

  /** An answer appends one bot message to the conversation as it is when the answer
      arrives: the answer text, or "No answer found." when it is missing or empty.
      The typing flag is down afterwards. */
  lemma AskSuccessAppendsAnswer(s: State, ask: AskRequest, answer: Option<string>, id: int, timestamp: string)
    ensures var t := Next(s, AskSucceeded(ask, answer, id, timestamp));
      t.chatHistory == s.chatHistory + [Message(id, Bot, OrElse(answer, NoAnswerText), timestamp)]
      && !t.isTyping && t.question == s.question && t.uploadStatus == s.uploadStatus
      && t.uploadedFile == s.uploadedFile
    ensures answer.Some? && answer.value != [] ==> OrElse(answer, NoAnswerText) == answer.value
    ensures answer.None? || answer.value == [] ==> OrElse(answer, NoAnswerText) == "No answer found."
  {
  }

  /** A failed ask appends the fixed error notice as a bot message, and the typing
      flag is down afterwards. */
  lemma AskFailureAppendsNotice(s: State, ask: AskRequest, id: int, timestamp: string)
    ensures var t := Next(s, AskFailed(ask, id, timestamp));
      t.chatHistory == s.chatHistory + [Message(id, Bot, "Error fetching answer. Please try again.", timestamp)]
      && !t.isTyping && t.question == s.question && t.uploadStatus == s.uploadStatus
  {
  }

  /** Drag-over raises the highlight; drag-leave and drop lower it; a drop starts an
      upload exactly when it carries a file. */
  lemma DragAndDrop(s: State, file: Option<File>)
    ensures Next(s, DragOver).isDragOver
    ensures !Next(s, DragLeave).isDragOver && !Next(s, Dropped(file)).isDragOver
    ensures UploadIssued(s, Dropped(file)).Some? <==> file.Some?
    ensures file.None? ==> Next(s, Dropped(file)) == s.(isDragOver := false)
    ensures file.Some? ==> Next(s, Dropped(file)) == Next(s.(isDragOver := false), FileChosen(file))
  {
  }

  /** Enter without Shift acts as the Ask button; every other key changes nothing. */
  lemma KeyPressSubmits(s: State, key: string, shiftKey: bool, id: int, timestamp: string)
    ensures key == "Enter" && !shiftKey ==>
      Next(s, KeyPressed(key, shiftKey, id, timestamp)) == Next(s, Submitted(id, timestamp))
      && AskIssued(s, KeyPressed(key, shiftKey, id, timestamp)) == AskIssued(s, Submitted(id, timestamp))
    ensures !(key == "Enter" && !shiftKey) ==>
      Next(s, KeyPressed(key, shiftKey, id, timestamp)) == s
      && AskIssued(s, KeyPressed(key, shiftKey, id, timestamp)) == None
  {
  }

  /** The Ask button is enabled exactly when pressing it would send a question, and a
      disabled question box means a submit does nothing. Neither looks at the typing
      flag (TypingDoesNotGateAsk), so a second question may be sent while an answer
      is pending. */
  lemma EnablementMatchesGate(s: State, id: int, timestamp: string)
    ensures AskButtonEnabled(s.question, s.uploadStatus) <==> AskIssued(s, Submitted(id, timestamp)).Some?
    ensures !InputEnabled(s.uploadStatus) ==> Next(s, Submitted(id, timestamp)) == s
  {
  }

  /** Whether and what a submit sends is the same with the typing flag up or down. */
  lemma TypingDoesNotGateAsk(s: State, typing: bool, id: int, timestamp: string)
    ensures AskIssued(s.(isTyping := typing), Submitted(id, timestamp)) == AskIssued(s, Submitted(id, timestamp))
  {
  }

  // ---------------------------------------------------------------------------
  // The invariant every event keeps

  /** Where each kind of message may stand: a system message only first, a user
      message is a non-empty trimmed question, a bot message is never empty. */
  predicate MessageFits(m: Message, index: int) {
    match m.role
    case System => index == 0
    case User => m.content != [] && Trim(m.content) == m.content
    case Bot => m.content != []
  }

  predicate Coherent(s: State) {
    HistoryFits(s.chatHistory)
    && (s.uploadedFile.Some? ==> s.uploadStatus != Idle)
    && (s.uploadStatus == Idle ==> !s.isTyping)
  }

  lemma InitialCoherent()
    ensures Coherent(Initial)
  {
  }

  predicate HistoryFits(h: seq<Message>) {
    forall i :: 0 <= i < |h| ==> MessageFits(h[i], i)
  }

  /** Appending a message that fits its new position keeps the history shape. */
  lemma AppendFits(h: seq<Message>, m: Message)
    requires HistoryFits(h) && MessageFits(m, |h|)
    ensures HistoryFits(h + [m])
  {
    forall i | 0 <= i < |h| + 1 ensures MessageFits((h + [m])[i], i) {
      if i < |h| { assert (h + [m])[i] == h[i]; }
    }
  }

  /** Every event, including a completion that arrives late, keeps the invariant. */
  lemma NextPreservesCoherent(s: State, e: Event)
    requires Coherent(s)
    ensures Coherent(Next(s, e))
  {
    match e
    case Submitted(id, timestamp) => SubmitPreservesCoherent(s, id, timestamp);
    case KeyPressed(_, _, id, timestamp) => SubmitPreservesCoherent(s, id, timestamp);
    case AskSucceeded(_, answer, id, timestamp) =>
      AppendFits(s.chatHistory, Message(id, Bot, OrElse(answer, NoAnswerText), timestamp));
    case AskFailed(_, id, timestamp) =>
      AppendFits(s.chatHistory, Message(id, Bot, AskErrorText, timestamp));
    case _ =>
  }

  lemma SubmitPreservesCoherent(s: State, id: int, timestamp: string)
    requires Coherent(s)
    ensures Coherent(Submit(s, id, timestamp))
  {
    if SubmitAccepted(s) {
      var q := Trim(s.question);
      assert q != [];
      TrimIdempotent(s.question);
      var m := Message(id, User, q, timestamp);
      assert MessageFits(m, |s.chatHistory|);
      AppendFits(s.chatHistory, m);
      assert Submit(s, id, timestamp) == s.(chatHistory := s.chatHistory + [m], question := "", isTyping := true);
    }
  }

  // ---------------------------------------------------------------------------
  // The component

  /** The React component, its state fields updated in place by its handlers. */
  class FileProcessor {
    var question: string
    var chatHistory: seq<Message>
    var uploadedFile: Option<File>
    var uploadStatus: UploadStatus
    var isDragOver: bool
    var isTyping: bool

    function Snapshot(): State
      reads this
    {
      State.State(question, chatHistory, uploadedFile, uploadStatus, isDragOver, isTyping)
    }

    ghost predicate Valid()
      reads this
    {
      Coherent(Snapshot())
    }

    constructor ()
      ensures Snapshot() == Initial && Valid()
    {
      question, chatHistory, uploadedFile := "", [], None;
      uploadStatus, isDragOver, isTyping := Idle, false, false;
    }

    /** The question box's `onChange`. */
    method EditQuestion(text: string)
      requires Valid()
      modifies this
      ensures Snapshot() == Next(old(Snapshot()), Event.QuestionEdited(text)) && Valid()
    {
      question := text;
    }

    /** `handleFileUpload` before its `await`. */
    method StartUpload(file: Option<File>) returns (upload: Option<UploadRequest>)
      requires Valid()
      modifies this
      ensures Snapshot() == Next(old(Snapshot()), Event.FileChosen(file)) && Valid()
      ensures upload == UploadIssued(old(Snapshot()), Event.FileChosen(file))
    {
      if file.None? {
        return None;
      }
      uploadedFile := file;
      uploadStatus := Processing;
      chatHistory := [];
      upload := Some(UploadRequest(file.value));
    }

    /** `handleFileInputChange`: the first selected file, if any, is uploaded. */
    method FileInputChanged(file: Option<File>) returns (upload: Option<UploadRequest>)
      requires Valid()
      modifies this
      ensures Snapshot() == Next(old(Snapshot()), Event.FileChosen(file)) && Valid()
      ensures upload == UploadIssued(old(Snapshot()), Event.FileChosen(file))
    {
      upload := StartUpload(file);
    }

    /** `handleFileUpload` after a response that decoded as JSON. */
    method UploadSucceeded(upload: UploadRequest, id: int, timestamp: string)
      requires Valid()
      modifies this
      ensures Snapshot() == Next(old(Snapshot()), Event.UploadSucceeded(upload, id, timestamp)) && Valid()
    {
      uploadStatus := Success;
      chatHistory := [Message(id, System, UploadSuccessText(upload.file.name), timestamp)];
    }

    /** `handleFileUpload`'s `catch`. */
    method UploadFailed(upload: UploadRequest, id: int, timestamp: string)
      requires Valid()
      modifies this
      ensures Snapshot() == Next(old(Snapshot()), Event.UploadFailed(upload, id, timestamp)) && Valid()
    {
      uploadStatus := Error;
      chatHistory := [Message(id, System, UploadErrorText, timestamp)];
    }

    method DragOver()
      requires Valid()
      modifies this
      ensures Snapshot() == Next(old(Snapshot()), Event.DragOver) && Valid()
    {
      isDragOver := true;
    }

    method DragLeave()
      requires Valid()
      modifies this
      ensures Snapshot() == Next(old(Snapshot()), Event.DragLeave) && Valid()
    {
      isDragOver := false;
    }

    /** `handleDrop`: lowers the highlight, then uploads the first dropped file if any. */
    method Drop(file: Option<File>) returns (upload: Option<UploadRequest>)
      requires Valid()
      modifies this
      ensures Snapshot() == Next(old(Snapshot()), Event.Dropped(file)) && Valid()
      ensures upload == UploadIssued(old(Snapshot()), Event.Dropped(file))
    {
      isDragOver := false;
      if file.Some? {
        upload := StartUpload(file);
      } else {
        upload := None;
      }
    }

    /** `handleQuestionSubmit` before its `await`. The request is built from the
        values this render saw, so its history lacks the message appended here. */
    method SubmitQuestion(id: int, timestamp: string) returns (ask: Option<AskRequest>)
      requires Valid()
      modifies this
      ensures Snapshot() == Next(old(Snapshot()), Event.Submitted(id, timestamp)) && Valid()
      ensures ask == AskIssued(old(Snapshot()), Event.Submitted(id, timestamp))
    {
      ghost var before := Snapshot();
      assert Next(before, Event.Submitted(id, timestamp)) == Submit(before, id, timestamp);
      if IsBlank(question) || uploadStatus != Success {
        return None;
      }
      var userMessage := Message(id, User, Trim(question), timestamp);
      ask := Some(AskRequest(Trim(question), chatHistory));
      chatHistory := chatHistory + [userMessage];
      question := "";
      isTyping := true;
      assert Snapshot() == before.(chatHistory := before.chatHistory + [userMessage], question := "", isTyping := true);
      SubmitPreservesCoherent(before, id, timestamp);
    }

    /** `handleKeyPress`. */
    method KeyPress(key: string, shiftKey: bool, id: int, timestamp: string) returns (ask: Option<AskRequest>)
      requires Valid()
      modifies this
      ensures Snapshot() == Next(old(Snapshot()), Event.KeyPressed(key, shiftKey, id, timestamp)) && Valid()
      ensures ask == AskIssued(old(Snapshot()), Event.KeyPressed(key, shiftKey, id, timestamp))
    {
      if key == "Enter" && !shiftKey {
        ask := SubmitQuestion(id, timestamp);
      } else {
        ask := None;
      }
    }

    /** `handleQuestionSubmit` after a response that decoded as JSON, with its
        `finally`; `answer` is the response's `answer` property. */
    method AskSucceeded(ask: AskRequest, answer: Option<string>, id: int, timestamp: string)
      requires Valid()
      modifies this
      ensures Snapshot() == Next(old(Snapshot()), Event.AskSucceeded(ask, answer, id, timestamp)) && Valid()
    {
      ghost var before := Snapshot();
      var botMessage := Message(id, Bot, OrElse(answer, NoAnswerText), timestamp);
      chatHistory := chatHistory + [botMessage];
      isTyping := false;
      NextPreservesCoherent(before, Event.AskSucceeded(ask, answer, id, timestamp));
    }

    /** `handleQuestionSubmit`'s `catch` and `finally`. */
    method AskFailed(ask: AskRequest, id: int, timestamp: string)
      requires Valid()
      modifies this
      ensures Snapshot() == Next(old(Snapshot()), Event.AskFailed(ask, id, timestamp)) && Valid()
    {
      ghost var before := Snapshot();
      var errorMessage := Message(id, Bot, AskErrorText, timestamp);
      chatHistory := chatHistory + [errorMessage];
      isTyping := false;
      NextPreservesCoherent(before, Event.AskFailed(ask, id, timestamp));
    }

    /** The status line (`getUploadStatusMessage`) of the current status; reads only. */
    method GetUploadStatusMessage() returns (message: string)
      ensures message == StatusMessage(uploadStatus)
    {
      message := StatusMessage(uploadStatus);
    }
  }
}
