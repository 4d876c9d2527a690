/** The service methods on the rows of one session. */
module InterviewService {
  import opened Coverage
  import opened InterviewSession
  import opened SessionState
  import opened Text
  import opened Wrappers

  class SessionRows {
    var status: Status
    var context: Option<Snapshot>
    var coverage: Lists
    var turns: seq<Turn>
    var questions: seq<Question>
    var answers: seq<Answer>
    var evaluations: seq<Evaluation>
    var feedback: seq<Feedback>
    var keys: set<string>

    ghost function View(): Session
      reads this
    {
      Session(status, context, coverage, turns, questions, answers, evaluations, feedback, keys)
    }

    constructor ()
      ensures View() == NEW_SESSION
    {
      status, context, coverage := Created, None, map[];
      turns, questions, answers, evaluations, feedback, keys := [], [], [], [], [], {};
    }

    method Begin(built: Option<Snapshot>) returns (outcome: Outcome)
      modifies this
      ensures (View(), outcome) == AfterBegin(old(View()), built)
    {
      var snapshot := context;
      if snapshot.None? {
        if built.None? {
          return Raised(NoGrounding);
        }
        snapshot := built;
      }
      var current := status;
      if current == Created {
        current := Planning;
      }
      if !Legal(current, Questioning) {
        return Raised(IllegalMove);
      }
      context, status := snapshot, Questioning;
      return Done;
    }

    method PersistQuestion(q: Generated)
      modifies this
      ensures View() == Persisted(old(View()), q)
    {
      var row := Question(|turns|, q.text, q.asked);
      var seqNo := MaxSeq(turns) + 1;
      turns := turns + [Turn(seqNo, QuestionTurn, q.text, 0)];
      questions := questions + [row];
      MarkCoverage(q.asked, q.matched);
    }

    method MarkCoverage(asked: Asked, matched: seq<string>)
      modifies this`coverage
      ensures coverage == MarkedQuestion(old(coverage), asked, matched)
    {
      var state := new CoverageState.Of(coverage);
      state.MarkQuestion(asked, matched);
      coverage := state.lists;
    }

    method NextQuestion(built: Option<Snapshot>, generated: Option<Generated>) returns (outcome: Outcome)
      modifies this
      ensures (View(), outcome) == AfterNextQuestion(old(View()), built, generated)
    {
      if status != Questioning && status != Interrupted {
        return Raised(NotQuestioning);
      }
      if context.None? && built.None? {
        return Raised(NoGrounding);
      }
      if generated.None? {
        return Raised(ModelFailed);
      }
      if context.None? {
        context := built;
      }
      PersistQuestion(generated.value);
      return Done;
    }

    /** The first answer row of the question. */
    method GetByQuestion(question: nat) returns (i: nat)
      ensures i == FindAnswer(answers, question)
    {
      i := 0;
      while i < |answers| && answers[i].question != question
        invariant i <= |answers| && forall j :: 0 <= j < i ==> answers[j].question != question
      {
        i := i + 1;
      }
    }

    method EvaluateAnswer(question: nat, graded: Option<real>) returns (outcome: Outcome)
      modifies this`evaluations
      ensures (View(), outcome) == AfterEvaluate(old(View()), question, graded)
    {
      if status != Questioning && status != Interrupted {
        return Raised(NotQuestioning);
      }
      if question >= |questions| {
        return Raised(NotFound);
      }
      var answer := GetByQuestion(question);
      if answer == |answers| {
        return Raised(NotFound);
      }
      if graded.None? {
        return Raised(ModelFailed);
      }
      evaluations := evaluations + [Evaluation(answer, graded.value)];
      return Done;
    }

    method SubmitAnswer(question: nat, text: string, key: string, inline: bool, graded: Option<real>)
      returns (outcome: Outcome)
      modifies this
      ensures (View(), outcome) == AfterSubmit(old(View()), question, text, key, inline, graded)
    {
      StripEmpty(text);
      if Strip(text) == [] {
        return Raised(BlankAnswer);
      }
      if status != Questioning && status != Interrupted {
        return Raised(NotQuestioning);
      }
      if question >= |questions| {
        return Raised(NotFound);
      }
      var existing := GetByQuestion(question);
      if existing < |answers| {
        return Returned(answers[existing]);
      }
      if key != [] {
        if key in keys {
          return Raised(DuplicateKey);
        }
        keys := keys + {key};
      }
      var seqNo := MaxSeq(turns) + 1;
      var answer := Answer(question, |turns|, text);
      turns := turns + [Turn(seqNo, AnswerTurn, text, 0)];
      answers := answers + [answer];
      if !inline {
        return Returned(answer);
      }
      outcome := EvaluateAnswer(question, graded);
      if !outcome.Raised? {
        outcome := Returned(answer);
      }
    }

    method RequestHint(question: nat, hinted: bool) returns (outcome: Outcome)
      modifies this`turns
      ensures (View(), outcome) == AfterHint(old(View()), question, hinted)
    {
      if status != Questioning && status != Interrupted {
        return Raised(NotQuestioning);
      }
      if question >= |questions| {
        return Raised(NotFound);
      }
      if !hinted {
        return Raised(ModelFailed);
      }
      var turn := questions[question].turn;
      if turn < |turns| {
        turns := turns[turn := turns[turn].(hintsUsed := turns[turn].hintsUsed + 1)];
      }
      return Done;
    }

    method Move(target: Status) returns (outcome: Outcome)
      modifies this`status
      ensures (View(), outcome) == Moved(old(View()), target)
    {
      if !Legal(status, target) {
        return Raised(IllegalMove);
      }
      status := target;
      return Done;
    }

    /** The first evaluation of each answered question, in question order. */
    method EvaluationsForSession() returns (overalls: seq<real>)
      ensures overalls == Overalls(View(), |questions|)
    {
      overalls := [];
      for n := 0 to |questions|
        invariant overalls == Overalls(View(), n)
      {
        var answer := GetByQuestion(n);
        if answer < |answers| {
          var e := 0;
          while e < |evaluations| && evaluations[e].answer != answer
            invariant e <= |evaluations| && forall j :: 0 <= j < e ==> evaluations[j].answer != answer
          {
            e := e + 1;
          }
          if e < |evaluations| {
            overalls := overalls + [evaluations[e].overall];
          }
        }
      }
    }

    method Stop() returns (outcome: Outcome)
      modifies this
      ensures (View(), outcome) == AfterStop(old(View()))
    {
      if !Legal(status, Completed) {
        return Raised(IllegalMove);
      }
      ghost var before := View();
      status := Completed;
      var overalls := EvaluationsForSession();
      SameOveralls(before, View(), |questions|);
      if overalls != [] {
        feedback := feedback + [Feedback(overalls)];
      }
      return Done;
    }

    /** One service call, as the handlers make it. */
    method Serve(call: Call) returns (outcome: Outcome)
      modifies this
      ensures (View(), outcome) == After(old(View()), call)
    {
      match call
      case Begin(built) => outcome := Begin(built);
      case NextQuestion(built, generated) => outcome := NextQuestion(built, generated);
      case SubmitAnswer(question, text, key, inline, graded) =>
        outcome := SubmitAnswer(question, text, key, inline, graded);
      case Evaluate(question, graded) => outcome := EvaluateAnswer(question, graded);
      case Hint(question, hinted) => outcome := RequestHint(question, hinted);
      case Pause => outcome := Move(Paused);
      case Resume => outcome := Move(Questioning);
      case Stop => outcome := Stop();
      case Cancel => outcome := Move(Cancelled);
    }
  }

  lemma {:induction false} SameOveralls(s: Session, t: Session, n: nat)
    requires s.answers == t.answers && s.evaluations == t.evaluations
    ensures Overalls(s, n) == Overalls(t, n)
  {
    if n > 0 {
      SameOveralls(s, t, n - 1);
    }
  }

  /** A whole session on rows: what the rows hold is what the calls say, so every law
      about sequences of calls is about them. */
  method Serve(calls: seq<Call>) returns (rows: SessionRows)
    ensures fresh(rows) && rows.View() == Run(NEW_SESSION, calls)
  {
    rows := new SessionRows();
    for i := 0 to |calls|
      invariant fresh(rows) && rows.View() == Run(NEW_SESSION, calls[..i])
    {
      assert calls[..i + 1][..i] == calls[..i];
      var outcome := rows.Serve(calls[i]);
    }
    assert calls[..|calls|] == calls;
  }
}
