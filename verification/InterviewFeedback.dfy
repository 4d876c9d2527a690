/** The prep-memory row that stopping a session leaves behind, over every run of calls. */
module InterviewFeedback {
  import opened InterviewLaws
  import opened InterviewSession
  import opened SessionState

  /** Some answer to the question has been evaluated. */
  ghost predicate Evaluated(s: Session, question: nat) {
    exists a, e :: Grades(s, question, a, e)
  }

  /** Evaluation row `e` grades answer row `a`, which answers the question. */
  predicate Grades(s: Session, question: nat, a: int, e: int) {
    && 0 <= a < |s.answers| && s.answers[a].question == question
    && 0 <= e < |s.evaluations| && s.evaluations[e].answer == a
  }

  /** The question's first evaluation gave `overall`. */
  ghost predicate FirstGrade(s: Session, question: nat, overall: real) {
    exists a, e :: Grades(s, question, a, e) && s.evaluations[e].overall == overall
                   && forall d :: 0 <= d < e ==> s.evaluations[d].answer != a
  }

  /** `questions` are exactly the questions below `n` with an evaluated answer, in order,
      and `overalls` their first evaluations. */
  ghost predicate Lists(s: Session, n: nat, questions: seq<nat>, overalls: seq<real>) {
    && |questions| == |overalls|
    && (forall i, j :: 0 <= i < j < |questions| ==> questions[i] < questions[j])
    && (forall q: nat :: q in questions <==> q < n && Evaluated(s, q))
    && (forall i :: 0 <= i < |questions| ==> FirstGrade(s, questions[i], overalls[i]))
  }

  /** No feedback before completion; a completed session has one row exactly if an answer
      has been evaluated, and it lists the first evaluations in question order. */
  ghost predicate FeedbackTells(s: Session) {
    && (s.status != Completed ==> s.feedback == [])
    && (s.status == Completed ==>
          && |s.feedback| <= 1
          && (|s.feedback| == 1 <==> exists q: nat :: Evaluated(s, q))
          && (s.feedback != [] ==> exists questions :: Lists(s, |s.questions|, questions, s.feedback[0].overalls)))
  }

  ghost predicate AnsweredOnce(s: Session) {
    forall i, j :: 0 <= i < j < |s.answers| ==> s.answers[i].question != s.answers[j].question
  }

  lemma OnlyAnswer(s: Session, question: nat, a: nat)
    requires AnsweredOnce(s) && a < |s.answers| && s.answers[a].question == question
    ensures FindAnswer(s.answers, question) == a
  {
  }

  /** The question of the lookups: its first evaluation, if any. */
  lemma GradeFound(s: Session, question: nat)
    requires AnsweredOnce(s)
    ensures var a := FindAnswer(s.answers, question);
            var e := FindEvaluation(s.evaluations, a);
            && (Evaluated(s, question) <==> a < |s.answers| && e < |s.evaluations|)
            && (a < |s.answers| && e < |s.evaluations| ==> FirstGrade(s, question, s.evaluations[e].overall))
  {
    var a := FindAnswer(s.answers, question);
    var e := FindEvaluation(s.evaluations, a);
    if a < |s.answers| && e < |s.evaluations| {
      assert Grades(s, question, a, e);
    }
    if Evaluated(s, question) {
      var b, f :| Grades(s, question, b, f);
      OnlyAnswer(s, question, b);
    }
  }

  lemma {:induction false} OverallsListed(s: Session, n: nat) returns (questions: seq<nat>)
    requires AnsweredOnce(s)
    ensures Lists(s, n, questions, Overalls(s, n))
  {
    if n == 0 {
      questions := [];
    } else {
      var before := OverallsListed(s, n - 1);
      GradeFound(s, n - 1);
      questions := ListsNext(s, n - 1, before, Overalls(s, n - 1), FindAnswer(s.answers, n - 1));
    }
  }

  /** One question more: a new last grade if it has one. */
  lemma ListsNext(s: Session, n: nat, before: seq<nat>, overalls: seq<real>, a: nat) returns (questions: seq<nat>)
    requires Lists(s, n, before, overalls)
    requires var e := FindEvaluation(s.evaluations, a);
             && (Evaluated(s, n) <==> a < |s.answers| && e < |s.evaluations|)
             && (a < |s.answers| && e < |s.evaluations| ==> FirstGrade(s, n, s.evaluations[e].overall))
    ensures var e := FindEvaluation(s.evaluations, a);
            Lists(s, n + 1, questions,
                  overalls + if a < |s.answers| && e < |s.evaluations| then [s.evaluations[e].overall] else [])
  {
    var e := FindEvaluation(s.evaluations, a);
    if a < |s.answers| && e < |s.evaluations| {
      ListsMore(s, n, before, overalls, s.evaluations[e].overall);
      questions := before + [n];
    } else {
      questions := before;
      assert overalls + [] == overalls;
    }
  }

  lemma ListsMore(s: Session, n: nat, questions: seq<nat>, overalls: seq<real>, overall: real)
    requires Lists(s, n, questions, overalls) && Evaluated(s, n) && FirstGrade(s, n, overall)
    ensures Lists(s, n + 1, questions + [n], overalls + [overall])
  {
    assert forall i :: 0 <= i < |questions| ==> questions[i] in questions;
  }

  /** The lists are about the answer and evaluation rows alone. */
  lemma SameLists(s: Session, t: Session, n: nat, questions: seq<nat>, overalls: seq<real>)
    requires s.answers == t.answers && s.evaluations == t.evaluations && Lists(s, n, questions, overalls)
    ensures Lists(t, n, questions, overalls)
  {
    forall q: nat
      ensures Evaluated(s, q) == Evaluated(t, q)
    {
      SameGrades(s, t, q);
    }
    forall i | 0 <= i < |questions|
      ensures FirstGrade(t, questions[i], overalls[i])
    {
      var a, e :| Grades(s, questions[i], a, e) && s.evaluations[e].overall == overalls[i]
                  && forall d :: 0 <= d < e ==> s.evaluations[d].answer != a;
      assert Grades(t, questions[i], a, e);
    }
  }

  lemma SameGrades(s: Session, t: Session, question: nat)
    requires s.answers == t.answers && s.evaluations == t.evaluations
    ensures Evaluated(s, question) == Evaluated(t, question)
  {
    assert forall a, e :: Grades(s, question, a, e) == Grades(t, question, a, e);
  }

  /** An empty list means that nothing has been evaluated. */
  lemma NoneListed(s: Session, questions: seq<nat>, overalls: seq<real>)
    requires RecordSound(s) && Lists(s, |s.questions|, questions, overalls)
    ensures overalls != [] <==> exists q: nat :: Evaluated(s, q)
  {
    if questions != [] {
      assert questions[0] in questions;
    }
    forall q: nat | Evaluated(s, q)
      ensures questions != []
    {
      EvaluatedIsAsked(s, q);
      assert q in questions;
    }
  }

  lemma StopLists(s: Session, t: Session) returns (questions: seq<nat>)
    requires RecordSound(s) && s.questions == t.questions && s.answers == t.answers && s.evaluations == t.evaluations
    ensures Lists(t, |t.questions|, questions, Overalls(s, |s.questions|))
    ensures Overalls(s, |s.questions|) != [] <==> exists q: nat :: Evaluated(t, q)
  {
    questions := OverallsListed(s, |s.questions|);
    NoneListed(s, questions, Overalls(s, |s.questions|));
    SameLists(s, t, |s.questions|, questions, Overalls(s, |s.questions|));
    forall q: nat
      ensures Evaluated(s, q) == Evaluated(t, q)
    {
      SameGrades(s, t, q);
    }
  }

  lemma ListedTells(t: Session, questions: seq<nat>, overalls: seq<real>)
    requires t.status == Completed && Lists(t, |t.questions|, questions, overalls)
    requires overalls != [] <==> exists q: nat :: Evaluated(t, q)
    requires t.feedback == if overalls == [] then [] else [Feedback(overalls)]
    ensures FeedbackTells(t)
  {
    if overalls != [] {
      assert t.feedback[0].overalls == overalls;
    }
  }

  lemma StopWrites(s: Session)
    requires Sound(s) && s.feedback == [] && Legal(s.status, Completed)
    ensures FeedbackTells(AfterStop(s).0)
  {
    var questions := StopLists(s, AfterStop(s).0);
    ListedTells(AfterStop(s).0, questions, Overalls(s, |s.questions|));
  }

  lemma StopTells(s: Session)
    requires Sound(s) && FeedbackTells(s)
    ensures FeedbackTells(AfterStop(s).0)
  {
    if s.status == Questioning {
      StopWrites(s);
    } else {
      assert !Legal(s.status, Completed);
    }
  }

  lemma EvaluatedIsAsked(s: Session, question: nat)
    requires RecordSound(s) && Evaluated(s, question)
    ensures question < |s.questions|
  {
    var a, e :| Grades(s, question, a, e);
    assert AnswersAt(s.turns, s.questions, s.answers[a]);
  }

  /** Only stopping completes a session or writes feedback. */
  lemma OthersTell(s: Session, call: Call)
    requires Sound(s) && FeedbackTells(s) && !call.Stop?
    ensures FeedbackTells(After(s, call).0)
  {
    if s.status == Completed {
      TerminalRaises(s, call);
    } else {
      NotCompleted(s, call);
    }
  }

  lemma NotCompleted(s: Session, call: Call)
    requires s.status != Completed && !call.Stop?
    ensures After(s, call).0.status != Completed && After(s, call).0.feedback == s.feedback
  {
  }

  /** Over every run of calls: feedback appears at completion only, exactly when an answer
      has been evaluated, and it is the first evaluation of each such question, in order. */
  lemma {:induction false} FeedbackExactly(calls: seq<Call>)
    ensures Sound(Run(NEW_SESSION, calls)) && FeedbackTells(Run(NEW_SESSION, calls))
    decreases |calls|
  {
    RunsAreSound(calls);
    if calls != [] {
      var earlier, call := Run(NEW_SESSION, calls[..|calls| - 1]), calls[|calls| - 1];
      FeedbackExactly(calls[..|calls| - 1]);
      if call.Stop? {
        StopTells(earlier);
      } else {
        OthersTell(earlier, call);
      }
    }
  }
}
