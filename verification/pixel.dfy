/** The older page (chat/src/pixel.js): the same upload-then-ask flow with no
    history and no status. Its whole state is the question box and one answer
    string that every handler overwrites. As in App, each asynchronous handler is
    split at its `await` into a start and completions that name their request. */
module Pixel {
  import opened Js

  const InitialAnswer := "Answer"
  const UploadedText := "File uploaded. You can now ask questions!"
  const UploadErrorText := "Error uploading file."
  const ThinkingText := "Thinking..."
  const NoAnswerText := "No answer found."
  const AskErrorText := "Error fetching answer."

  /** The multipart body of `POST /upload/`. */
  datatype UploadRequest = UploadRequest(file: File)

  /** The JSON body of `POST /chat/`: the question as typed, with no history. */
  datatype AskRequest = AskRequest(q: string)

  class FileProcessor {
    var question: string
    var answer: string

    /** The invariant every handler keeps: the answer box always shows some text,
        since the initial text and every text a handler writes are non-empty (an
        empty reply is replaced by "No answer found."). */
    ghost predicate Valid()
      reads this
    {
      answer != []
    }

    constructor ()
      ensures question == "" && answer == "Answer" && Valid()
    {
      question, answer := "", InitialAnswer;
    }

    /** The question input's `onChange`. */
    method EditQuestion(text: string)
      requires Valid()
      modifies this
      ensures question == text && answer == old(answer) && Valid()
    {
      question := text;
    }

    /** `handleFileUpload` up to its `await`: it sends the chosen file, if there is
        one, and changes no state. */
    method StartUpload(file: Option<File>) returns (upload: Option<UploadRequest>)
      ensures upload.Some? <==> file.Some?
      ensures upload.Some? ==> upload.value.file == file.value
    {
      if file.None? {
        return None;
      }
      upload := Some(UploadRequest(file.value));
    }

    /** `handleFileUpload` after a response that decoded as JSON. */
    method UploadSucceeded(upload: UploadRequest)
      requires Valid()
      modifies this
      ensures answer == "File uploaded. You can now ask questions!"
      ensures question == old(question) && Valid()
    {
      answer := UploadedText;
    }

    /** `handleFileUpload`'s `catch`. */
    method UploadFailed(upload: UploadRequest)
      requires Valid()
      modifies this
      ensures answer == "Error uploading file."
      ensures question == old(question) && Valid()
    {
      answer := UploadErrorText;
    }

    /** `handleQuestionSubmit` up to its `await`. A blank question does nothing;
        otherwise the answer box shows "Thinking..." and the question is sent as
        typed. There is no upload gate, and the question box is never cleared. */
    method SubmitQuestion() returns (ask: Option<AskRequest>)
      requires Valid()
      modifies this
      ensures question == old(question)
      ensures IsBlank(old(question)) ==> ask == None && answer == old(answer)
      ensures !IsBlank(old(question)) ==> ask == Some(AskRequest(old(question))) && answer == "Thinking..."
      ensures Valid()
    {
      if IsBlank(question) {
        return None;
      }
      answer := ThinkingText;
      ask := Some(AskRequest(question));
    }

    /** `handleQuestionSubmit` after a response that decoded as JSON; `reply` is its
        `answer` property. */
    method AskSucceeded(ask: AskRequest, reply: Option<string>)
      requires Valid()
      modifies this
      ensures reply.Some? && reply.value != [] ==> answer == reply.value
      ensures reply.None? || reply.value == [] ==> answer == "No answer found."
      ensures question == old(question) && Valid()
    {
      answer := OrElse(reply, NoAnswerText);
    }

    /** `handleQuestionSubmit`'s `catch`. */
    method AskFailed(ask: AskRequest)
      requires Valid()
      modifies this
      ensures answer == "Error fetching answer."
      ensures question == old(question) && Valid()
    {
      answer := AskErrorText;
    }
  }
}
