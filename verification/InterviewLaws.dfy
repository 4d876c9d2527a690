/** What every sequence of service calls keeps. */
module InterviewLaws {
  import opened Coverage
  import opened InterviewSession
  import opened SessionState
  import opened Text
  import opened Wrappers

  // -- the record -----------------------------------------------------------------

  ghost predicate SeqsCount(turns: seq<Turn>) {
    forall i :: 0 <= i < |turns| ==> turns[i].seqNo == i + 1
  }

  predicate AsksAt(turns: seq<Turn>, q: Question) {
    q.turn < |turns| && turns[q.turn].kind == QuestionTurn && turns[q.turn].content == q.text
  }

  /** An answer has its own turn, later than the turn of the question it answers. */
  predicate AnswersAt(turns: seq<Turn>, questions: seq<Question>, a: Answer) {
    && a.turn < |turns| && turns[a.turn].kind == AnswerTurn && turns[a.turn].content == a.text
    && a.question < |questions| && questions[a.question].turn < a.turn
  }

  /** Questions and answers come in turn order, and no question is answered twice. */
  ghost predicate Ordered(questions: seq<Question>, answers: seq<Answer>) {
    && (forall i, j :: 0 <= i < j < |questions| ==> questions[i].turn < questions[j].turn)
    && (forall i, j :: 0 <= i < j < |answers| ==> answers[i].turn < answers[j].turn)
    && (forall i, j :: 0 <= i < j < |answers| ==> answers[i].question != answers[j].question)
  }

  ghost predicate Owned(s: Session, turn: nat) {
    || (exists q :: 0 <= q < |s.questions| && s.questions[q].turn == turn)
    || (exists a :: 0 <= a < |s.answers| && s.answers[a].turn == turn)
  }

  /** The durable record: turns are numbered from one without gaps, there is one for each
      question and each answer, and nothing else. */
  ghost predicate RecordSound(s: Session) {
    && SeqsCount(s.turns) && |s.turns| == |s.questions| + |s.answers|
    && (forall q :: 0 <= q < |s.questions| ==> AsksAt(s.turns, s.questions[q]))
    && (forall a :: 0 <= a < |s.answers| ==> AnswersAt(s.turns, s.questions, s.answers[a]))
    && Ordered(s.questions, s.answers)
    && (forall t: nat :: t < |s.turns| ==> Owned(s, t))
  }

  ghost predicate StatusSound(s: Session) {
    && (s.status == Created ==> s.turns == [])
    && (s.questions != [] ==> s.context.Some?)
    && (forall e :: 0 <= e < |s.evaluations| ==> s.evaluations[e].answer < |s.answers|)
    && |s.feedback| <= 1 && (s.feedback != [] ==> s.status == Completed)
    && AllDistinct(s.coverage)
  }

  ghost predicate Sound(s: Session) {
    RecordSound(s) && StatusSound(s)
  }

  lemma {:induction false} MaxSeqCounts(turns: seq<Turn>)
    requires SeqsCount(turns)
    ensures MaxSeq(turns) == |turns|
  {
    if turns != [] {
      MaxSeqCounts(turns[..|turns| - 1]);
    }
  }

  lemma StillOwned(s: Session, t: Session, turn: nat)
    requires s.questions <= t.questions && s.answers <= t.answers && Owned(s, turn)
    ensures Owned(t, turn)
  {
    if q :| 0 <= q < |s.questions| && s.questions[q].turn == turn {
      assert t.questions[q].turn == turn;
    } else {
      var a :| 0 <= a < |s.answers| && s.answers[a].turn == turn;
      assert t.answers[a].turn == turn;
    }
  }

  lemma PersistKeepsRecord(s: Session, q: Generated)
    requires RecordSound(s)
    ensures RecordSound(Persisted(s, q))
  {
    MaxSeqCounts(s.turns);
    var t := Persisted(s, q);
    forall turn: nat | turn < |t.turns|
      ensures Owned(t, turn)
    {
      if turn < |s.turns| {
        StillOwned(s, t, turn);
      } else {
        assert t.questions[|s.questions|].turn == turn;
      }
    }
  }

  lemma RecordKeepsRecord(s: Session, question: nat, text: string, key: string)
    requires RecordSound(s) && question < |s.questions| && FindAnswer(s.answers, question) == |s.answers|
    ensures RecordSound(Recorded(s, question, text, key))
  {
    MaxSeqCounts(s.turns);
    RecordedOwned(s, question, text, key);
  }

  lemma RecordedOwned(s: Session, question: nat, text: string, key: string)
    requires forall t: nat :: t < |s.turns| ==> Owned(s, t)
    ensures var t := Recorded(s, question, text, key); forall turn: nat :: turn < |t.turns| ==> Owned(t, turn)
  {
    var t := Recorded(s, question, text, key);
    forall turn: nat | turn < |t.turns|
      ensures Owned(t, turn)
    {
      if turn < |s.turns| {
        StillOwned(s, t, turn);
      } else {
        assert t.answers[|s.answers|].turn == turn;
      }
    }
  }

  /** A hint changes one turn's hint counter and nothing else. */
  lemma HintKeepsRecord(s: Session, question: nat, hinted: bool)
    requires RecordSound(s)
    ensures RecordSound(AfterHint(s, question, hinted).0)
  {
    var t := AfterHint(s, question, hinted).0;
    if t != s {
      forall turn: nat | turn < |t.turns|
        ensures Owned(t, turn)
      {
        StillOwned(s, t, turn);
      }
    }
  }

  lemma EvaluateKeepsSound(s: Session, question: nat, graded: Option<real>)
    requires Sound(s)
    ensures Sound(AfterEvaluate(s, question, graded).0)
  {
    SameRecord(s, AfterEvaluate(s, question, graded).0);
  }

  lemma RecordedSound(s: Session, question: nat, text: string, key: string)
    requires Sound(s) && question < |s.questions| && FindAnswer(s.answers, question) == |s.answers| && Asking(s)
    ensures Sound(Recorded(s, question, text, key))
  {
    RecordKeepsRecord(s, question, text, key);
    assert StatusSound(Recorded(s, question, text, key));
  }

  lemma SubmitKeepsSound(s: Session, question: nat, text: string, key: string, inline: bool, graded: Option<real>)
    requires Sound(s)
    ensures Sound(AfterSubmit(s, question, text, key, inline, graded).0)
  {
    if AfterSubmit(s, question, text, key, inline, graded).0 != s {
      RecordedSound(s, question, text, key);
      EvaluateKeepsSound(Recorded(s, question, text, key), question, graded);
    }
  }

  lemma SameRecord(s: Session, t: Session)
    requires RecordSound(s) && s.turns == t.turns && s.questions == t.questions && s.answers == t.answers
    ensures RecordSound(t)
  {
    forall turn: nat | turn < |t.turns|
      ensures Owned(t, turn)
    {
      StillOwned(s, t, turn);
    }
  }

  lemma QuestionKeepsSound(s: Session, built: Option<Snapshot>, generated: Option<Generated>)
    requires Sound(s)
    ensures Sound(AfterNextQuestion(s, built, generated).0)
  {
    if AfterNextQuestion(s, built, generated).0 != s {
      var grounded := Grounded(s, built).value;
      SameRecord(s, grounded);
      PersistKeepsRecord(grounded, generated.value);
      MarkQuestionKeeps(s.coverage, generated.value.asked, generated.value.matched);
    }
  }

  lemma BeginKeepsSound(s: Session, built: Option<Snapshot>)
    requires Sound(s)
    ensures Sound(AfterBegin(s, built).0)
  {
    SameRecord(s, AfterBegin(s, built).0);
  }

  lemma MoveKeepsSound(s: Session, target: Status)
    requires Sound(s) && target in {Questioning, Paused, Cancelled}
    ensures Sound(Moved(s, target).0)
  {
    SameRecord(s, Moved(s, target).0);
  }

  lemma StopKeepsSound(s: Session)
    requires Sound(s)
    ensures Sound(AfterStop(s).0)
  {
    SameRecord(s, AfterStop(s).0);
  }

  lemma CallKeepsSound(s: Session, call: Call)
    requires Sound(s)
    ensures Sound(After(s, call).0)
  {
    match call
    case NextQuestion(built, generated) => QuestionKeepsSound(s, built, generated);
    case SubmitAnswer(question, text, key, inline, graded) =>
      SubmitKeepsSound(s, question, text, key, inline, graded);
    case Evaluate(question, graded) => EvaluateKeepsSound(s, question, graded);
    case Hint(question, hinted) => HintKeepsRecord(s, question, hinted);
    case Begin(built) => BeginKeepsSound(s, built);
    case Pause => MoveKeepsSound(s, Paused);
    case Resume => MoveKeepsSound(s, Questioning);
    case Stop => StopKeepsSound(s);
    case Cancel => MoveKeepsSound(s, Cancelled);
  }

  /** The record stays sound over every sequence of calls. */
  lemma {:induction false} RunsAreSound(calls: seq<Call>)
    ensures Sound(Run(NEW_SESSION, calls))
  {
    if calls != [] {
      RunsAreSound(calls[..|calls| - 1]);
      CallKeepsSound(Run(NEW_SESSION, calls[..|calls| - 1]), calls[|calls| - 1]);
    }
  }

  // -- what a call may change -----------------------------------------------------

  /** Turns keep everything but their hint counter. */
  ghost predicate TurnsKept(before: seq<Turn>, after: seq<Turn>) {
    && |before| <= |after|
    && forall i :: 0 <= i < |before| ==> before[i].(hintsUsed := 0) == after[i].(hintsUsed := 0)
                                         && before[i].hintsUsed <= after[i].hintsUsed
  }

  /** Nothing recorded is lost or rewritten, and a built snapshot stays as it was built. */
  ghost predicate Extends(before: Session, after: Session) {
    && TurnsKept(before.turns, after.turns) && before.questions <= after.questions
    && before.answers <= after.answers && before.evaluations <= after.evaluations
    && before.feedback <= after.feedback && before.keys <= after.keys
    && (before.context.Some? ==> after.context == before.context)
    && (AllDistinct(before.coverage) ==> Grows(before.coverage, after.coverage))
  }

  lemma QuestionExtends(s: Session, built: Option<Snapshot>, generated: Option<Generated>)
    requires Sound(s)
    ensures Extends(s, AfterNextQuestion(s, built, generated).0)
  {
    if generated.Some? {
      MarkQuestionKeeps(s.coverage, generated.value.asked, generated.value.matched);
    }
  }

  lemma SubmitExtends(s: Session, question: nat, text: string, key: string, inline: bool, graded: Option<real>)
    ensures Extends(s, AfterSubmit(s, question, text, key, inline, graded).0)
  {
  }

  lemma HintExtends(s: Session, question: nat, hinted: bool)
    ensures Extends(s, AfterHint(s, question, hinted).0)
  {
  }

  lemma EvaluateExtends(s: Session, question: nat, graded: Option<real>)
    ensures Extends(s, AfterEvaluate(s, question, graded).0)
  {
  }

  lemma MoveExtends(s: Session, call: Call)
    requires call.Begin? || call.Pause? || call.Resume? || call.Stop? || call.Cancel?
    ensures Extends(s, After(s, call).0)
  {
  }

  lemma CallExtends(s: Session, call: Call)
    requires Sound(s)
    ensures Extends(s, After(s, call).0)
  {
    match call
    case NextQuestion(built, generated) => QuestionExtends(s, built, generated);
    case SubmitAnswer(question, text, key, inline, graded) => SubmitExtends(s, question, text, key, inline, graded);
    case Hint(question, hinted) => HintExtends(s, question, hinted);
    case Evaluate(question, graded) => EvaluateExtends(s, question, graded);
    case _ => MoveExtends(s, call);
  }

  lemma ExtendsChain(a: Session, b: Session, c: Session)
    requires Extends(a, b) && Extends(b, c) && AllDistinct(a.coverage) && AllDistinct(b.coverage)
    ensures Extends(a, c)
  {
    GrowsChain(a.coverage, b.coverage, c.coverage);
  }

  /** Later calls never undo what earlier calls recorded. */
  lemma {:induction false} RunExtends(s: Session, calls: seq<Call>)
    requires Sound(s)
    ensures Sound(Run(s, calls)) && Extends(s, Run(s, calls))
    decreases |calls|
  {
    if calls != [] {
      var earlier := Run(s, calls[..|calls| - 1]);
      RunExtends(s, calls[..|calls| - 1]);
      CallKeepsSound(earlier, calls[|calls| - 1]);
      CallExtends(earlier, calls[|calls| - 1]);
      ExtendsChain(s, earlier, Run(s, calls));
    }
  }

  /** A completed or cancelled session is frozen: every call raises and changes nothing. */
  lemma {:induction false} TerminalIsFrozen(s: Session, calls: seq<Call>)
    requires Terminal(s.status)
    ensures Run(s, calls) == s && forall call :: After(s, call).1.Raised?
    decreases |calls|
  {
    if calls != [] {
      TerminalIsFrozen(s, calls[..|calls| - 1]);
    }
    forall call
      ensures After(s, call) == (s, After(s, call).1) && After(s, call).1.Raised?
    {
      TerminalRaises(s, call);
    }
  }

  lemma TerminalRaises(s: Session, call: Call)
    requires Terminal(s.status)
    ensures After(s, call).0 == s && After(s, call).1.Raised?
  {
  }

  // -- answering ------------------------------------------------------------------

  /** Submitting again, after any calls that leave the session open, returns the answer
      that was recorded first and changes nothing - whatever the text and the key. */
  lemma ResubmissionReturnsTheAnswer(s: Session, question: nat, text: string, key: string, inline: bool,
                                     graded: Option<real>, calls: seq<Call>, again: string, otherKey: string,
                                     inlineAgain: bool, gradedAgain: Option<real>)
    requires Sound(s)
    requires var first := AfterSubmit(s, question, text, key, inline, graded);
             first.1.Returned? && Asking(Run(first.0, calls)) && !AllSpace(again)
    ensures var first := AfterSubmit(s, question, text, key, inline, graded);
            var later := Run(first.0, calls);
            AfterSubmit(later, question, again, otherKey, inlineAgain, gradedAgain) == (later, first.1)
  {
    var first := AfterSubmit(s, question, text, key, inline, graded);
    SubmitKeepsSound(s, question, text, key, inline, graded);
    RunExtends(first.0, calls);
    var later := Run(first.0, calls);
    Recorder(s, question, text, key, inline, graded);
    var i := FindAnswer(first.0.answers, question);
    assert later.answers[i] == first.1.answer;
    SameAnswer(later, question, i);
  }

  /** A returned answer is in the record. */
  lemma Recorder(s: Session, question: nat, text: string, key: string, inline: bool, graded: Option<real>)
    requires Sound(s) && AfterSubmit(s, question, text, key, inline, graded).1.Returned?
    ensures var first := AfterSubmit(s, question, text, key, inline, graded);
            var i := FindAnswer(first.0.answers, question);
            i < |first.0.answers| && first.0.answers[i] == first.1.answer && question < |first.0.questions|
  {
    if FindAnswer(s.answers, question) == |s.answers| {
      FindLast(s.answers, Answer(question, |s.turns|, text));
    }
  }

  lemma FindLast(answers: seq<Answer>, a: Answer)
    requires FindAnswer(answers, a.question) == |answers|
    ensures FindAnswer(answers + [a], a.question) == |answers|
  {
    assert (answers + [a])[|answers|] == a;
  }

  lemma SameAnswer(s: Session, question: nat, i: nat)
    requires Sound(s) && i < |s.answers| && s.answers[i].question == question
    ensures FindAnswer(s.answers, question) == i
  {
  }
}
