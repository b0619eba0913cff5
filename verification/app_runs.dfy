/** Runs of the chat page: sequences of events from mount, what holds after every
    run, and two event sequences showing what the page does not guarantee. */
module AppRuns {
  import opened Js
  import opened App

  /** The state after a sequence of events, starting from the mounted component. */
  function Run(t: seq<Event>): State {
    if t == [] then Initial else Next(Run(t[..|t| - 1]), t[|t| - 1])
  }

  /** `completion` answers the request that `start` sent from state `s`. */
  predicate Answers(s: State, start: Event, completion: Event) {
    match completion
    case UploadSucceeded(upload, _, _) => UploadIssued(s, start) == Some(upload)
    case UploadFailed(upload, _, _) => UploadIssued(s, start) == Some(upload)
    case AskSucceeded(ask, _, _, _) => AskIssued(s, start) == Some(ask)
    case AskFailed(ask, _, _) => AskIssued(s, start) == Some(ask)
    case _ => true
  }

  /** Every completion in the run answers a request sent earlier in the same run.
      Nothing limits how many completions a request gets or in which order they
      arrive. */
  ghost predicate WellFormed(t: seq<Event>) {
    forall i {:trigger AnsweredEarlier(t, i)} :: 0 <= i < |t| && t[i].IsCompletion() ==> AnsweredEarlier(t, i)
  }

  /** The event at `i` answers a request sent by an earlier event of `t`. */
  ghost predicate AnsweredEarlier(t: seq<Event>, i: nat)
    requires i < |t|
  {
    exists j :: 0 <= j < i && Answers(Run(t[..j]), t[j], t[i])
  }

  /** The run one event shorter ends in the state the last event starts from. */
  lemma RunStep(t: seq<Event>, n: nat)
    requires n < |t|
    ensures Run(t[..n + 1]) == Next(Run(t[..n]), t[n])
  {
    assert t[..n + 1][..n] == t[..n];
  }

  /** The invariant of App holds after every run, whatever order completions take. */
  lemma {:induction false} RunCoherent(t: seq<Event>)
    ensures Coherent(Run(t))
  {
    if t == [] {
      InitialCoherent();
    } else {
      RunCoherent(t[..|t| - 1]);
      NextPreservesCoherent(Run(t[..|t| - 1]), t[|t| - 1]);
    }
  }

  lemma WellFormedPrefix(t: seq<Event>, n: nat)
    requires WellFormed(t) && n <= |t|
    ensures WellFormed(t[..n])
  {
    var p := t[..n];
    forall i | 0 <= i < |p| && p[i].IsCompletion()
      ensures AnsweredEarlier(p, i)
    {
      assert t[i] == p[i];
      assert AnsweredEarlier(t, i);
      var j :| 0 <= j < i && Answers(Run(t[..j]), t[j], t[i]);
      assert p[..j] == t[..j];
      assert Answers(Run(p[..j]), p[j], p[i]);
    }
  }

  /** The start a completion answers did send a request. */
  lemma AnsweredRequestWasSent(s: State, start: Event, completion: Event)
    requires completion.IsCompletion() && Answers(s, start, completion)
    ensures UploadIssued(s, start).Some? || AskIssued(s, start).Some?
  {
  }

  /** An event that sends a request leaves the page out of `Idle`. */
  lemma SendingLeavesIdle(s: State, e: Event)
    requires UploadIssued(s, e).Some? || AskIssued(s, e).Some?
    ensures Next(s, e).uploadStatus != Idle
  {
  }

  /** Nothing returns the page to `Idle`: once it has left, it stays out. */
  lemma {:induction false} LeftIdleStaysOut(t: seq<Event>, j: nat)
    requires j <= |t| && Run(t[..j]).uploadStatus != Idle
    ensures Run(t).uploadStatus != Idle
    decreases |t| - j
  {
    if j == |t| {
      assert t[..j] == t;
    } else {
      RunStep(t, j);
      LeftIdleStaysOut(t, j + 1);
    }
  }

  /** What the page looks like after a well-formed run: a file is installed exactly
      when the status is no longer `Idle`, and in `Idle` the conversation is empty. */
  predicate SessionFacts(s: State) {
    Coherent(s)
    && (s.uploadStatus == Idle <==> s.uploadedFile.None?)
    && (s.uploadStatus == Idle ==> s.chatHistory == [])
  }

  /** One step keeps the facts, provided a completion arrives only out of `Idle`. */
  lemma NextKeepsFacts(s: State, e: Event)
    requires SessionFacts(s)
    requires e.IsCompletion() ==> s.uploadStatus != Idle
    ensures SessionFacts(Next(s, e))
  {
    NextPreservesCoherent(s, e);
    match e
    case Submitted(_, _) =>
    case KeyPressed(_, _, _, _) =>
    case FileChosen(_) =>
    case Dropped(_) =>
    case _ =>
  }

  /** A completion in a well-formed run finds the page out of `Idle`: the request
      it answers was sent earlier, which left `Idle` for good. */
  lemma CompletionArrivesOutOfIdle(t: seq<Event>, n: nat)
    requires WellFormed(t) && n < |t| && t[n].IsCompletion()
    ensures Run(t[..n]).uploadStatus != Idle
  {
    var p := t[..n];
    var j := AnsweredStart(t, n);
    assert p[..j] == t[..j] && p[j] == t[j];
    AnsweredStartLeavesIdle(p, j, t[n]);
    LeftIdleStaysOut(p, j + 1);
  }

  /** The position of the start a completion of a well-formed run answers. */
  lemma AnsweredStart(t: seq<Event>, n: nat) returns (j: nat)
    requires WellFormed(t) && n < |t| && t[n].IsCompletion()
    ensures j < n && Answers(Run(t[..j]), t[j], t[n])
  {
    assert AnsweredEarlier(t, n);
    j :| 0 <= j < n && Answers(Run(t[..j]), t[j], t[n]);
  }

  /** The run that ends with an answered start is out of `Idle`. */
  lemma AnsweredStartLeavesIdle(p: seq<Event>, j: nat, completion: Event)
    requires j < |p| && completion.IsCompletion() && Answers(Run(p[..j]), p[j], completion)
    ensures Run(p[..j + 1]).uploadStatus != Idle
  {
    AnsweredRequestWasSent(Run(p[..j]), p[j], completion);
    SendingLeavesIdle(Run(p[..j]), p[j]);
    RunStep(p, j);
  }

  lemma {:induction false} WellFormedRunFacts(t: seq<Event>)
    requires WellFormed(t)
    ensures SessionFacts(Run(t))
  {
    if t == [] {
      InitialCoherent();
      return;
    }
    var n := |t| - 1;
    var p, e := t[..n], t[n];
    WellFormedPrefix(t, n);
    WellFormedRunFacts(p);
    assert Run(t) == Next(Run(p), e);
    if e.IsCompletion() {
      CompletionArrivesOutOfIdle(t, n);
    }
    NextKeepsFacts(Run(p), e);
  }

  // ---------------------------------------------------------------------------
  // What the page does not guarantee

  /** An answer that arrives after a new upload has started lands in the new file's
      conversation: whatever the page held when `q` was asked, the history becomes
      the new file's system message directly followed by the stale answer. */
  lemma StaleAnswerJoinsNewConversation(s: State, askId: int, askTime: string, f: File,
                                        uploadId: int, uploadTime: string,
                                        answer: Option<string>, answerId: int, answerTime: string)
    requires !IsBlank(s.question) && s.uploadStatus == Success
    ensures AskIssued(s, Submitted(askId, askTime)).Some?
    ensures var ask := AskIssued(s, Submitted(askId, askTime)).value;
      var asked := Next(s, Submitted(askId, askTime));
      var restarted := Next(asked, FileChosen(Some(f)));
      var processed := Next(restarted, UploadSucceeded(UploadRequest(f), uploadId, uploadTime));
      var answered := Next(processed, AskSucceeded(ask, answer, answerId, answerTime));
      answered.chatHistory == [Message(uploadId, System, UploadSuccessText(f.name), uploadTime),
                               Message(answerId, Bot, OrElse(answer, NoAnswerText), answerTime)]
  {
    SubmitAppendsQuestion(s, askId, askTime);
    var ask := AskIssued(s, Submitted(askId, askTime)).value;
    var asked := Next(s, Submitted(askId, askTime));
    var restarted := Next(asked, FileChosen(Some(f)));
    assert restarted.chatHistory == [];
    var processed := Next(restarted, UploadSucceeded(UploadRequest(f), uploadId, uploadTime));
    assert processed.chatHistory == [Message(uploadId, System, UploadSuccessText(f.name), uploadTime)];
    var answered := Next(processed, AskSucceeded(ask, answer, answerId, answerTime));
    AskSuccessAppendsAnswer(processed, ask, answer, answerId, answerTime);
    assert answered.chatHistory == processed.chatHistory + [Message(answerId, Bot, OrElse(answer, NoAnswerText), answerTime)];
  }

  /** Nothing stops a second question while the first is unanswered: with the typing
      flag up, a new question is accepted and sent with a history that holds the
      first question but not its answer. */
  lemma SecondQuestionWhileTyping(s: State, q2: string)
    requires !IsBlank(s.question) && s.uploadStatus == Success && !IsBlank(q2)
    ensures var asked1 := Next(s, Submitted(1, "t1"));
      asked1.isTyping
      && AskIssued(Next(asked1, QuestionEdited(q2)), Submitted(2, "t2"))
         == Some(AskRequest(Trim(q2), s.chatHistory + [Message(1, User, Trim(s.question), "t1")]))
  {
    SubmitAppendsQuestion(s, 1, "t1");
    var asked1 := Next(s, Submitted(1, "t1"));
    var edited := Next(asked1, QuestionEdited(q2));
    assert edited == asked1.(question := q2);
    SubmitAppendsQuestion(edited, 2, "t2");
  }

  /** Two accepted questions in a row append two user messages, in order. */
  lemma TwoQuestionsAppend(s: State, q2: string)
    requires !IsBlank(s.question) && s.uploadStatus == Success && !IsBlank(q2)
    ensures Next(Next(Next(s, Submitted(1, "t1")), QuestionEdited(q2)), Submitted(2, "t2")).chatHistory
         == s.chatHistory + [Message(1, User, Trim(s.question), "t1"), Message(2, User, Trim(q2), "t2")]
  {
    var user1 := Message(1, User, Trim(s.question), "t1");
    var user2 := Message(2, User, Trim(q2), "t2");
    SubmitAppendsQuestion(s, 1, "t1");
    var asked1 := Next(s, Submitted(1, "t1"));
    var edited := Next(asked1, QuestionEdited(q2));
    assert edited == asked1.(question := q2);
    SubmitAppendsQuestion(edited, 2, "t2");
    assert s.chatHistory + [user1] + [user2] == s.chatHistory + [user1, user2];
  }

  /** Two answers in a row append two bot messages, in arrival order. */
  lemma TwoAnswersAppend(u: State, ask1: AskRequest, a1: Option<string>, ask2: AskRequest, a2: Option<string>)
    ensures var done := Next(Next(u, AskSucceeded(ask1, a1, 3, "t3")), AskSucceeded(ask2, a2, 4, "t4"));
      done.chatHistory == u.chatHistory + [Message(3, Bot, OrElse(a1, NoAnswerText), "t3"),
                                           Message(4, Bot, OrElse(a2, NoAnswerText), "t4")]
      && !done.isTyping
  {
    var first := Next(u, AskSucceeded(ask1, a1, 3, "t3"));
    AskSuccessAppendsAnswer(u, ask1, a1, 3, "t3");
    AskSuccessAppendsAnswer(first, ask2, a2, 4, "t4");
    assert u.chatHistory + [Message(3, Bot, OrElse(a1, NoAnswerText), "t3")] + [Message(4, Bot, OrElse(a2, NoAnswerText), "t4")]
        == u.chatHistory + [Message(3, Bot, OrElse(a1, NoAnswerText), "t3"), Message(4, Bot, OrElse(a2, NoAnswerText), "t4")];
  }

  /** Two questions in flight end as two user messages followed by two bot messages,
      and the typing flag is down although both answers came in. */
  lemma TwoQuestionsInFlight(s: State, q2: string, ask1: AskRequest, ask2: AskRequest,
                             a1: Option<string>, a2: Option<string>)
    requires !IsBlank(s.question) && s.uploadStatus == Success && !IsBlank(q2)
    ensures var asked2 := Next(Next(Next(s, Submitted(1, "t1")), QuestionEdited(q2)), Submitted(2, "t2"));
      var done := Next(Next(asked2, AskSucceeded(ask1, a1, 3, "t3")), AskSucceeded(ask2, a2, 4, "t4"));
      done.chatHistory == s.chatHistory + [Message(1, User, Trim(s.question), "t1"), Message(2, User, Trim(q2), "t2"),
                                           Message(3, Bot, OrElse(a1, NoAnswerText), "t3"),
                                           Message(4, Bot, OrElse(a2, NoAnswerText), "t4")]
      && !done.isTyping
  {
    var user1 := Message(1, User, Trim(s.question), "t1");
    var user2 := Message(2, User, Trim(q2), "t2");
    TwoQuestionsAppend(s, q2);
    var asked2 := Next(Next(Next(s, Submitted(1, "t1")), QuestionEdited(q2)), Submitted(2, "t2"));
    TwoAnswersAppend(asked2, ask1, a1, ask2, a2);
    assert s.chatHistory + [user1, user2] + [Message(3, Bot, OrElse(a1, NoAnswerText), "t3"),
                                             Message(4, Bot, OrElse(a2, NoAnswerText), "t4")]
        == s.chatHistory + [user1, user2, Message(3, Bot, OrElse(a1, NoAnswerText), "t3"),
                            Message(4, Bot, OrElse(a2, NoAnswerText), "t4")];
  }
}
