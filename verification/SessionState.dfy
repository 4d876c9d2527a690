/** The interview session's status table. */
module SessionState {
  datatype Status = Created | Planning | Questioning | Paused | Interrupted | Completed | Cancelled | Failed

  function Targets(current: Status): set<Status> {
    match current
    case Created => {Planning, Cancelled}
    case Planning => {Questioning, Cancelled, Failed}
    case Questioning => {Paused, Interrupted, Completed, Cancelled, Failed}
    case Paused => {Questioning, Cancelled}
    case Interrupted => {Questioning, Paused, Cancelled, Failed}
    case Completed => {}
    case Cancelled => {}
    case Failed => {Cancelled}
  }

  predicate Legal(current: Status, target: Status) {
    target in Targets(current)
  }

  predicate Terminal(status: Status) {
    status == Completed || status == Cancelled
  }

  /** A legal move of any length. */
  ghost predicate Path(moves: seq<Status>) {
    moves != [] && forall i :: 0 < i < |moves| ==> Legal(moves[i - 1], moves[i])
  }

  /** The table by columns: where each status may be entered from. */
  lemma EnteredFrom(current: Status, target: Status)
    ensures Legal(current, target) <==>
              match target
              case Created => false
              case Planning => current == Created
              case Questioning => current in {Planning, Paused, Interrupted}
              case Paused => current in {Questioning, Interrupted}
              case Interrupted => current == Questioning
              case Completed => current == Questioning
              case Cancelled => !Terminal(current)
              case Failed => current in {Planning, Questioning, Interrupted}
  {
  }

  /** Terminal states are exactly the ones that cannot be left. */
  lemma TerminalIsFinal(current: Status)
    ensures Terminal(current) <==> forall target :: !Legal(current, target)
  {
    assert Legal(Created, Cancelled) && Legal(Planning, Cancelled) && Legal(Questioning, Cancelled);
    assert Legal(Paused, Cancelled) && Legal(Interrupted, Cancelled) && Legal(Failed, Cancelled);
  }

  /** A session completes only out of the questioning state, and never returns to its start. */
  lemma {:induction false} CompletionComesFromQuestioning(moves: seq<Status>)
    requires Path(moves) && moves[0] == Created && moves[|moves| - 1] == Completed
    ensures |moves| >= 4 && moves[|moves| - 2] == Questioning && Created !in moves[1..]
  {
    var n := |moves| - 1;
    assert Legal(moves[n - 1], moves[n]);
    assert Legal(moves[0], moves[1]);
    forall i | 0 < i < |moves|
      ensures moves[i] != Created
    {
      assert Legal(moves[i - 1], moves[i]);
    }
  }
}
