/** One interview session as its service methods change it: the rows of the session, its
    turns, questions, answers, evaluations and feedback. A row's id is its position. Model
    calls and the grounding builder are parameters. */
module InterviewSession {
  import opened Coverage
  import opened SessionState
  import opened Text
  import opened Wrappers

  type Snapshot = string

  datatype TurnKind = QuestionTurn | AnswerTurn
  datatype Turn = Turn(seqNo: nat, kind: TurnKind, content: string, hintsUsed: nat)
  datatype Question = Question(turn: nat, text: string, asked: Asked)
  datatype Answer = Answer(question: nat, turn: nat, text: string)
  datatype Evaluation = Evaluation(answer: nat, overall: real)
  /** The prep-memory row: the evaluations it summarises. */
  datatype Feedback = Feedback(overalls: seq<real>)

  datatype Session = Session(status: Status, context: Option<Snapshot>, coverage: Lists, turns: seq<Turn>,
                             questions: seq<Question>, answers: seq<Answer>, evaluations: seq<Evaluation>,
                             feedback: seq<Feedback>, keys: set<string>)

  const NEW_SESSION := Session(Created, None, map[], [], [], [], [], [], {})

  datatype Problem = IllegalMove | NotQuestioning | NotFound | BlankAnswer | DuplicateKey | NoGrounding | ModelFailed

  /** What a service call gives its caller. */
  datatype Outcome = Done | Returned(answer: Answer) | Raised(problem: Problem)

  /** A generated question, and the skills of the snapshot's resume that its job description names. */
  datatype Generated = Generated(text: string, asked: Asked, matched: seq<string>)

  /** A service call, with what the foreign calls inside it will return: `built` is the
      grounding snapshot, absent when grounding is incomplete; an absent model result is a
      failed call. `SubmitAnswer` evaluates inline when `inline` holds. */
  datatype Call =
    | Begin(built: Option<Snapshot>)
    | NextQuestion(built: Option<Snapshot>, generated: Option<Generated>)
    | SubmitAnswer(question: nat, text: string, key: string, inline: bool, graded: Option<real>)
    | Evaluate(question: nat, graded: Option<real>)
    | Hint(question: nat, hinted: bool)
    | Pause
    | Resume
    | Stop
    | Cancel

  // -- lookups --------------------------------------------------------------------

  function MaxSeq(turns: seq<Turn>): nat {
    if turns == [] then 0
    else
      var rest := MaxSeq(turns[..|turns| - 1]);
      if turns[|turns| - 1].seqNo >= rest then turns[|turns| - 1].seqNo else rest
  }

  /** The first answer to the question, as its position, or the number of answers. */
  function FindAnswer(answers: seq<Answer>, question: nat): (i: nat)
    ensures i <= |answers| && (i < |answers| ==> answers[i].question == question)
    ensures forall j :: 0 <= j < i ==> answers[j].question != question
  {
    if answers == [] || answers[0].question == question then 0 else 1 + FindAnswer(answers[1..], question)
  }

  function FindEvaluation(evaluations: seq<Evaluation>, answer: nat): (i: nat)
    ensures i <= |evaluations| && (i < |evaluations| ==> evaluations[i].answer == answer)
    ensures forall j :: 0 <= j < i ==> evaluations[j].answer != answer
  {
    if evaluations == [] || evaluations[0].answer == answer then 0 else 1 + FindEvaluation(evaluations[1..], answer)
  }

  /** For each of the first `n` questions that has an evaluated answer, its first evaluation. */
  function Overalls(s: Session, n: nat): seq<real> {
    if n == 0 then []
    else
      var answer := FindAnswer(s.answers, n - 1);
      var evaluation := FindEvaluation(s.evaluations, answer);
      Overalls(s, n - 1)
        + if answer < |s.answers| && evaluation < |s.evaluations| then [s.evaluations[evaluation].overall] else []
  }

  // -- the calls on values --------------------------------------------------------

  predicate Asking(s: Session) {
    s.status == Questioning || s.status == Interrupted
  }

  /** Build the snapshot on first use. */
  function Grounded(s: Session, built: Option<Snapshot>): Option<Session> {
    if s.context.Some? then Some(s)
    else if built.None? then None
    else Some(s.(context := built))
  }

  function AfterBegin(s: Session, built: Option<Snapshot>): (Session, Outcome) {
    var grounded := Grounded(s, built);
    if grounded.None? then (s, Raised(NoGrounding))
    else
      var status := if s.status == Created then Planning else s.status;
      if Legal(status, Questioning) then (grounded.value.(status := Questioning), Done) else (s, Raised(IllegalMove))
  }

  function Persisted(s: Session, q: Generated): Session {
    s.(questions := s.questions + [Question(|s.turns|, q.text, q.asked)],
       turns := s.turns + [Turn(MaxSeq(s.turns) + 1, QuestionTurn, q.text, 0)],
       coverage := MarkedQuestion(s.coverage, q.asked, q.matched))
  }

  function AfterNextQuestion(s: Session, built: Option<Snapshot>, generated: Option<Generated>): (Session, Outcome) {
    var grounded := Grounded(s, built);
    if !Asking(s) then (s, Raised(NotQuestioning))
    else if grounded.None? then (s, Raised(NoGrounding))
    else if generated.None? then (s, Raised(ModelFailed))
    else (Persisted(grounded.value, generated.value), Done)
  }

  function Recorded(s: Session, question: nat, text: string, key: string): Session {
    s.(answers := s.answers + [Answer(question, |s.turns|, text)],
       turns := s.turns + [Turn(MaxSeq(s.turns) + 1, AnswerTurn, text, 0)],
       keys := if key != [] then s.keys + {key} else s.keys)
  }

  /** The snapshot is already there: a session with questions has one. */
  function AfterEvaluate(s: Session, question: nat, graded: Option<real>): (Session, Outcome) {
    if !Asking(s) then (s, Raised(NotQuestioning))
    else if question >= |s.questions| then (s, Raised(NotFound))
    else if FindAnswer(s.answers, question) == |s.answers| then (s, Raised(NotFound))
    else if graded.None? then (s, Raised(ModelFailed))
    else (s.(evaluations := s.evaluations + [Evaluation(FindAnswer(s.answers, question), graded.value)]), Done)
  }

  function AfterSubmit(s: Session, question: nat, text: string, key: string, inline: bool, graded: Option<real>)
    : (Session, Outcome)
  {
    if AllSpace(text) then (s, Raised(BlankAnswer))
    else if !Asking(s) then (s, Raised(NotQuestioning))
    else if question >= |s.questions| then (s, Raised(NotFound))
    else
      var existing := FindAnswer(s.answers, question);
      if existing < |s.answers| then (s, Returned(s.answers[existing]))
      else if key != [] && key in s.keys then (s, Raised(DuplicateKey))
      else
        var committed := Recorded(s, question, text, key);
        var graded := AfterEvaluate(committed, question, graded);
        if !inline then (committed, Returned(Answer(question, |s.turns|, text)))
        else if graded.1.Raised? then graded
        else (graded.0, Returned(Answer(question, |s.turns|, text)))
  }

  function AfterHint(s: Session, question: nat, hinted: bool): (Session, Outcome) {
    if !Asking(s) then (s, Raised(NotQuestioning))
    else if question >= |s.questions| then (s, Raised(NotFound))
    else if !hinted then (s, Raised(ModelFailed))
    else
      var turn := s.questions[question].turn;
      if turn < |s.turns| then
        (s.(turns := s.turns[turn := s.turns[turn].(hintsUsed := s.turns[turn].hintsUsed + 1)]), Done)
      else (s, Done)
  }

  function Moved(s: Session, target: Status): (Session, Outcome) {
    if Legal(s.status, target) then (s.(status := target), Done) else (s, Raised(IllegalMove))
  }

  function AfterStop(s: Session): (Session, Outcome) {
    if !Legal(s.status, Completed) then (s, Raised(IllegalMove))
    else
      var overalls := Overalls(s, |s.questions|);
      (s.(status := Completed, feedback := if overalls == [] then s.feedback else s.feedback + [Feedback(overalls)]),
       Done)
  }

  function After(s: Session, call: Call): (Session, Outcome) {
    match call
    case Begin(built) => AfterBegin(s, built)
    case NextQuestion(built, generated) => AfterNextQuestion(s, built, generated)
    case SubmitAnswer(question, text, key, inline, graded) => AfterSubmit(s, question, text, key, inline, graded)
    case Evaluate(question, graded) => AfterEvaluate(s, question, graded)
    case Hint(question, hinted) => AfterHint(s, question, hinted)
    case Pause => Moved(s, Paused)
    case Resume => Moved(s, Questioning)
    case Stop => AfterStop(s)
    case Cancel => Moved(s, Cancelled)
  }

  /** The session after any sequence of calls. */
  function Run(s: Session, calls: seq<Call>): Session
    decreases |calls|
  {
    if calls == [] then s else After(Run(s, calls[..|calls| - 1]), calls[|calls| - 1]).0
  }
}
