/** What the rows of a session say about the calls that were made: over every run, each
    row comes from one call, and each call leaves what it promises. */
module InterviewHistory {
  import opened InterviewLaws
  import opened InterviewSession
  import opened SessionState
  import opened Text
  import opened Wrappers

  /** The session before call `i` of a run. */
  function Before(calls: seq<Call>, i: nat): Session
    requires i <= |calls|
  {
    Run(NEW_SESSION, calls[..i])
  }

  lemma BeforeNext(calls: seq<Call>, i: nat)
    requires i < |calls|
    ensures Before(calls, i + 1) == After(Before(calls, i), calls[i]).0
  {
    assert calls[..i + 1][..i] == calls[..i];
  }

  lemma BeforeFront(calls: seq<Call>, i: nat)
    requires calls != [] && i <= |calls| - 1
    ensures Before(calls[..|calls| - 1], i) == Before(calls, i)
  {
    assert calls[..|calls| - 1][..i] == calls[..i];
  }

  // -- status ---------------------------------------------------------------------

  /** Which call moves a session, from where, and where to; every other call leaves it. A
      move that cannot be made raises and changes nothing. */
  lemma MovesExactly(s: Session, call: Call)
    ensures var t := After(s, call).0.status;
            && (call.Begin? ==>
                  t == if (s.context.Some? || call.built.Some?) && s.status in {Created, Planning, Paused, Interrupted}
                       then Questioning else s.status)
            && (call.Pause? ==> t == if s.status in {Questioning, Interrupted} then Paused else s.status)
            && (call.Resume? ==> t == if s.status in {Planning, Paused, Interrupted} then Questioning else s.status)
            && (call.Stop? ==> t == if s.status == Questioning then Completed else s.status)
            && (call.Cancel? ==> t == if s.status in {Completed, Cancelled} then s.status else Cancelled)
            && (call.NextQuestion? || call.SubmitAnswer? || call.Evaluate? || call.Hint? ==> t == s.status)
    ensures call.Begin? || call.Pause? || call.Resume? || call.Stop? || call.Cancel? ==>
              if After(s, call).0.status == s.status then After(s, call).0 == s && After(s, call).1.Raised?
              else After(s, call).1 == Done
  {
  }

  /** The snapshot of the first call that needed one: a begin that could move the session,
      or a question asked. */
  function Grounding(calls: seq<Call>): Option<Snapshot> {
    if calls == [] then None
    else
      var n := |calls| - 1;
      var s, call, before := Run(NEW_SESSION, calls[..n]), calls[n], Grounding(calls[..n]);
      if before.Some? then before
      else if call.Begin? && s.status in {Created, Planning, Paused, Interrupted} then call.built
      else if call.NextQuestion? && s.status in {Questioning, Interrupted} && call.generated.Some? then call.built
      else None
  }

  lemma GroundingStep(s: Session, call: Call)
    ensures After(s, call).0.context ==
              if s.context.Some? then s.context
              else if call.Begin? && s.status in {Created, Planning, Paused, Interrupted} then call.built
              else if call.NextQuestion? && s.status in {Questioning, Interrupted} && call.generated.Some? then call.built
              else None
  {
  }

  /** Over every run, the session is grounded in the snapshot it was first built with. */
  lemma {:induction false} GroundedOnce(calls: seq<Call>)
    ensures Run(NEW_SESSION, calls).context == Grounding(calls)
  {
    if calls != [] {
      GroundedOnce(calls[..|calls| - 1]);
      GroundingStep(Run(NEW_SESSION, calls[..|calls| - 1]), calls[|calls| - 1]);
    }
  }

  // -- hints ----------------------------------------------------------------------

  /** How many hints were given on a question: calls with a hint, while the session was
      asking and the question was there. */
  function HintsGiven(calls: seq<Call>, question: nat): nat {
    if calls == [] then 0
    else
      var n := |calls| - 1;
      var s, call := Run(NEW_SESSION, calls[..n]), calls[n];
      HintsGiven(calls[..n], question)
        + if call == Hint(question, true) && s.status in {Questioning, Interrupted} && question < |s.questions|
          then 1 else 0
  }

  lemma {:induction false} NoHintsYet(calls: seq<Call>, question: nat)
    requires question >= |Run(NEW_SESSION, calls).questions|
    ensures HintsGiven(calls, question) == 0
  {
    if calls != [] {
      var n := |calls| - 1;
      RunsAreSound(calls[..n]);
      CallExtends(Run(NEW_SESSION, calls[..n]), calls[n]);
      NoHintsYet(calls[..n], question);
    }
  }

  /** The hint counters of a session are `counts`, question by question. */
  ghost predicate HintsAre(s: Session, counts: nat -> nat) {
    forall q :: 0 <= q < |s.questions| ==>
      s.questions[q].turn < |s.turns| && s.turns[s.questions[q].turn].hintsUsed == counts(q)
  }

  lemma HintCounts(s: Session, question: nat, counts: nat -> nat)
    requires RecordSound(s) && HintsAre(s, counts)
    ensures var given := Asking(s) && question < |s.questions|;
            HintsAre(AfterHint(s, question, true).0, q => counts(q) + if q == question && given then 1 else 0)
  {
  }

  lemma QuestionCounts(s: Session, built: Option<Snapshot>, generated: Option<Generated>, counts: nat -> nat)
    requires HintsAre(s, counts) && counts(|s.questions|) == 0
    ensures HintsAre(AfterNextQuestion(s, built, generated).0, counts)
  {
  }

  lemma SubmitCounts(s: Session, call: Call, counts: nat -> nat)
    requires call.SubmitAnswer? && HintsAre(s, counts)
    ensures HintsAre(After(s, call).0, counts)
  {
  }

  lemma OtherCounts(s: Session, call: Call, counts: nat -> nat)
    requires !call.NextQuestion? && !call.SubmitAnswer? && !(call.Hint? && call.hinted) && HintsAre(s, counts)
    ensures HintsAre(After(s, call).0, counts)
  {
  }

  /** Over every run, the counter on a question's turn is the number of hints given on it. */
  lemma {:induction false} HintsCounted(calls: seq<Call>)
    ensures var s := Run(NEW_SESSION, calls);
            forall q :: 0 <= q < |s.questions| ==>
              s.questions[q].turn < |s.turns| && s.turns[s.questions[q].turn].hintsUsed == HintsGiven(calls, q)
    decreases |calls|
  {
    if calls != [] {
      var n := |calls| - 1;
      var s, call := Run(NEW_SESSION, calls[..n]), calls[n];
      HintsCounted(calls[..n]);
      RunsAreSound(calls[..n]);
      var counts := (q: nat) => HintsGiven(calls[..n], q);
      assert HintsAre(s, counts);
      if call.Hint? && call.hinted {
        HintCounts(s, call.question, counts);
      } else if call.NextQuestion? {
        NoHintsYet(calls[..n], |s.questions|);
        QuestionCounts(s, call.built, call.generated, counts);
      } else if call.SubmitAnswer? {
        SubmitCounts(s, call, counts);
      } else {
        OtherCounts(s, call, counts);
      }
    }
  }

  // -- answers and grades ---------------------------------------------------------

  /** An answer row for the question. */
  predicate Answered(s: Session, question: nat) {
    exists a :: 0 <= a < |s.answers| && s.answers[a].question == question
  }

  /** What submitting does: an answer to an open question is recorded once, with the next
      turn; submitted again it comes back unchanged; a used key and a blank text are
      refused. A failing inline evaluation does not take the answer back. */
  lemma SubmitExactly(s: Session, question: nat, text: string, key: string, inline: bool, graded: Option<real>)
    requires Sound(s)
    ensures var after := AfterSubmit(s, question, text, key, inline, graded);
            var row := Answer(question, |s.turns|, text);
            if AllSpace(text) || s.status !in {Questioning, Interrupted} || question >= |s.questions| then
              after.0 == s && after.1.Raised?
            else if Answered(s, question) then
              after.0 == s && after.1.Returned? && after.1.answer in s.answers && after.1.answer.question == question
            else if key != [] && key in s.keys then after == (s, Raised(DuplicateKey))
            else
              && after.0 == s.(answers := s.answers + [row],
                               turns := s.turns + [Turn(|s.turns| + 1, AnswerTurn, text, 0)],
                               keys := s.keys + if key == [] then {} else {key},
                               evaluations := s.evaluations
                                 + if inline && graded.Some? then [Evaluation(|s.answers|, graded.value)] else [])
              && after.1 == if inline && graded.None? then Raised(ModelFailed) else Returned(row)
  {
    MaxSeqCounts(s.turns);
    var i := FindAnswer(s.answers, question);
    if Answered(s, question) {
      assert i < |s.answers|;
    } else {
      FindLast(s.answers, Answer(question, |s.turns|, text));
    }
  }

  /** Call `i` recorded an answer. */
  predicate Records(calls: seq<Call>, i: nat)
    requires i < |calls|
  {
    calls[i].SubmitAnswer? && |Before(calls, i + 1).answers| > |Before(calls, i).answers|
  }

  /** The keys of the calls that recorded an answer. */
  ghost predicate KeysAreUsed(calls: seq<Call>, keys: set<string>) {
    forall key :: key in keys <==>
      key != [] && exists i :: 0 <= i < |calls| && Records(calls, i) && calls[i].key == key
  }

  lemma KeyStep(s: Session, call: Call)
    requires Sound(s)
    ensures var t := After(s, call).0;
            && (call.SubmitAnswer? && |t.answers| > |s.answers| ==>
                  t.keys == s.keys + (if call.key == [] then {} else {call.key})
                  && (call.key != [] ==> call.key !in s.keys))
            && (!(call.SubmitAnswer? && |t.answers| > |s.answers|) ==> t.keys == s.keys && t.answers == s.answers)
  {
    if call.SubmitAnswer? {
      SubmitExactly(s, call.question, call.text, call.key, call.inline, call.graded);
    }
  }

  lemma RecordsFront(calls: seq<Call>, i: nat)
    requires i + 1 < |calls|
    ensures Records(calls[..|calls| - 1], i) == Records(calls, i)
  {
    BeforeFront(calls, i);
    BeforeFront(calls, i + 1);
  }

  /** One call more: its key is added exactly if it recorded an answer. */
  lemma KeysGrow(calls: seq<Call>, before: set<string>, keys: set<string>)
    requires calls != [] && KeysAreUsed(calls[..|calls| - 1], before)
    requires var n := |calls| - 1;
             keys == before + if Records(calls, n) && calls[n].key != [] then {calls[n].key} else {}
    ensures KeysAreUsed(calls, keys)
  {
    var n := |calls| - 1;
    forall i | 0 <= i < n
      ensures Records(calls[..n], i) == Records(calls, i) && calls[..n][i] == calls[i]
    {
      RecordsFront(calls, i);
    }
    forall key | key in before
      ensures exists i :: 0 <= i < |calls| && Records(calls, i) && calls[i].key == key
    {
      var i :| 0 <= i < n && Records(calls[..n], i) && calls[..n][i].key == key;
    }
  }

  lemma {:induction false} KeysOfRun(calls: seq<Call>)
    ensures KeysAreUsed(calls, Run(NEW_SESSION, calls).keys)
    decreases |calls|
  {
    if calls != [] {
      var n := |calls| - 1;
      var s := Run(NEW_SESSION, calls[..n]);
      KeysOfRun(calls[..n]);
      RunsAreSound(calls[..n]);
      KeyStep(s, calls[n]);
      BeforeNext(calls, n);
      assert calls[..|calls|] == calls;
      KeysGrow(calls, s.keys, Run(NEW_SESSION, calls).keys);
    }
  }

  /** A key records at most one answer in a whole run. */
  lemma KeysRecordOnce(calls: seq<Call>, i: nat, j: nat)
    requires i < j < |calls| && Records(calls, i) && Records(calls, j) && calls[i].key == calls[j].key
    ensures calls[i].key == []
  {
    var prefix := calls[..j];
    KeysOfRun(prefix);
    RunsAreSound(prefix);
    BeforeNext(calls, j);
    KeyStep(Before(calls, j), calls[j]);
    assert prefix[..i] == calls[..i] && prefix[..i + 1] == calls[..i + 1];
    assert Records(prefix, i) && prefix[i] == calls[i];
  }

  // -- the rows of a run ----------------------------------------------------------

  predicate Open(s: Session, question: nat) {
    s.status in {Questioning, Interrupted} && question < |s.questions|
  }

  predicate Asks(s: Session, call: Call) {
    && call.NextQuestion? && s.status in {Questioning, Interrupted} && call.generated.Some?
    && (s.context.Some? || call.built.Some?)
  }

  predicate Answers(s: Session, call: Call) {
    && call.SubmitAnswer? && Open(s, call.question) && !AllSpace(call.text) && !Answered(s, call.question)
    && (call.key == [] || call.key !in s.keys)
  }

  predicate GradesNow(s: Session, call: Call) {
    || (call.Evaluate? && Open(s, call.question) && Answered(s, call.question) && call.graded.Some?)
    || (Answers(s, call) && call.inline && call.graded.Some?)
  }

  /** The calls of a run that asked a question, those that answered one, and those that
      graded an answer, each in order. */
  function AskingCalls(calls: seq<Call>): seq<Call> {
    if calls == [] then []
    else
      var n := |calls| - 1;
      AskingCalls(calls[..n]) + if Asks(Run(NEW_SESSION, calls[..n]), calls[n]) then [calls[n]] else []
  }

  function AnsweringCalls(calls: seq<Call>): seq<Call> {
    if calls == [] then []
    else
      var n := |calls| - 1;
      AnsweringCalls(calls[..n]) + if Answers(Run(NEW_SESSION, calls[..n]), calls[n]) then [calls[n]] else []
  }

  function GradingCalls(calls: seq<Call>): seq<Call> {
    if calls == [] then []
    else
      var n := |calls| - 1;
      GradingCalls(calls[..n]) + if GradesNow(Run(NEW_SESSION, calls[..n]), calls[n]) then [calls[n]] else []
  }

  predicate AskedBy(q: Question, call: Call) {
    && call.NextQuestion? && call.generated.Some?
    && q.text == call.generated.value.text && q.asked == call.generated.value.asked
  }

  predicate AnsweredBy(a: Answer, call: Call) {
    call.SubmitAnswer? && a.question == call.question && a.text == call.text
  }

  predicate GradedBy(answers: seq<Answer>, e: Evaluation, call: Call) {
    && (call.Evaluate? || call.SubmitAnswer?) && call.graded.Some? && e.overall == call.graded.value
    && e.answer < |answers| && answers[e.answer].question == call.question
  }

  ghost predicate RowsTell(s: Session, asking: seq<Call>, answering: seq<Call>, grading: seq<Call>) {
    && |s.questions| == |asking| && |s.answers| == |answering| && |s.evaluations| == |grading|
    && (forall i :: 0 <= i < |asking| ==> AskedBy(s.questions[i], asking[i]))
    && (forall i :: 0 <= i < |answering| ==> AnsweredBy(s.answers[i], answering[i]))
    && (forall i :: 0 <= i < |grading| ==> GradedBy(s.answers, s.evaluations[i], grading[i]))
  }

  lemma AskTells(s: Session, call: Call, asking: seq<Call>, answering: seq<Call>, grading: seq<Call>)
    requires call.NextQuestion? && RowsTell(s, asking, answering, grading)
    ensures RowsTell(After(s, call).0, asking + if Asks(s, call) then [call] else [], answering, grading)
  {
  }

  lemma SubmitTells(s: Session, call: Call, asking: seq<Call>, answering: seq<Call>, grading: seq<Call>)
    requires Sound(s) && call.SubmitAnswer? && RowsTell(s, asking, answering, grading)
    ensures RowsTell(After(s, call).0, asking, answering + if Answers(s, call) then [call] else [],
                     grading + if GradesNow(s, call) then [call] else [])
  {
    SubmitExactly(s, call.question, call.text, call.key, call.inline, call.graded);
    if Answers(s, call) {
      var t := After(s, call).0;
      assert forall i :: 0 <= i < |s.answers| ==> t.answers[i] == s.answers[i];
    }
  }

  lemma EvaluateTells(s: Session, call: Call, asking: seq<Call>, answering: seq<Call>, grading: seq<Call>)
    requires call.Evaluate? && RowsTell(s, asking, answering, grading)
    ensures RowsTell(After(s, call).0, asking, answering, grading + if GradesNow(s, call) then [call] else [])
  {
    if Answered(s, call.question) {
      assert FindAnswer(s.answers, call.question) < |s.answers|;
    }
  }

  lemma OtherTells(s: Session, call: Call, asking: seq<Call>, answering: seq<Call>, grading: seq<Call>)
    requires !call.NextQuestion? && !call.SubmitAnswer? && !call.Evaluate? && RowsTell(s, asking, answering, grading)
    ensures RowsTell(After(s, call).0, asking, answering, grading)
  {
  }

  /** Over every run, the question rows are the questions asked, the answer rows the first
      answers given, and the evaluation rows the grades, in the order of the calls. */
  lemma {:induction false} RowsAreCalls(calls: seq<Call>)
    ensures RowsTell(Run(NEW_SESSION, calls), AskingCalls(calls), AnsweringCalls(calls), GradingCalls(calls))
    decreases |calls|
  {
    if calls != [] {
      var n := |calls| - 1;
      var s, call := Run(NEW_SESSION, calls[..n]), calls[n];
      var asking, answering, grading := AskingCalls(calls[..n]), AnsweringCalls(calls[..n]), GradingCalls(calls[..n]);
      RowsAreCalls(calls[..n]);
      RunsAreSound(calls[..n]);
      if call.NextQuestion? {
        AskTells(s, call, asking, answering, grading);
      } else if call.SubmitAnswer? {
        SubmitTells(s, call, asking, answering, grading);
      } else if call.Evaluate? {
        EvaluateTells(s, call, asking, answering, grading);
      } else {
        OtherTells(s, call, asking, answering, grading);
      }
    }
  }
}
