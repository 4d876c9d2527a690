/** How a session ends: which message of the client leads to which terminal state, on
    both sides, over every run whatsoever. */
module VoiceEndings {
  import opened VoiceTypes
  import opened EngineSteps
  import opened ClientSteps
  import opened VoiceProtocol
  import opened VoicePlaying
  import opened ReceiveLoop

  predicate Parting(message: ClientMsg) {
    message.Stop? || message.Cancel?
  }

  /** The terminal state a parting message asks for. */
  function AskedFor(message: ClientMsg): VoiceState
    requires Parting(message)
  {
    if message.Stop? then Completed else Cancelled
  }

  predicate Terminal(state: VoiceState) {
    state.Completed? || state.Cancelled?
  }

  predicate TerminalMessage(message: ServerMsg) {
    message.State? && Terminal(message.state)
  }

  // -- nothing else ends a session --------------------------------------------------------

  /** At most one message more, and not a terminal one. */
  predicate AddsMildly(wire: seq<ServerMsg>, after: seq<ServerMsg>) {
    after == wire || (|after| == |wire| + 1 && after[..|wire|] == wire && !TerminalMessage(after[|wire|]))
  }

  /** The engine sends nothing terminal and does not become terminal. */
  predicate GoesOn(e: Engine, after: Engine) {
    AddsMildly(e.wire, after.wire) && (Terminal(after.state) ==> Terminal(e.state))
  }

  lemma SetStateGoesOn(e: Engine, state: VoiceState)
    requires !Terminal(state)
    ensures AddsMildly(e.wire, SetState(e, state).wire) && AddsMildly(e.wire, Emit(e, Notice).wire)
  {}

  lemma HandlerGoesOn(e: Engine, message: ClientMsg, bargeIn: bool)
    requires message.StartTurn? || message.EndTurn? || message.PlaybackComplete? || message.Resume? || message.Heartbeat?
    ensures GoesOn(e, OnMessage(e, message, bargeIn))
  {
    SetStateGoesOn(e, Listening);
  }

  lemma PauseGoesOn(e: Engine)
    ensures GoesOn(e, OnPause(e))
  {
    SetStateGoesOn(e, Paused);
  }

  lemma AudioGoesOn(e: Engine, chunk: Bytes, bargeIn: bool)
    ensures GoesOn(e, OnAudio(e, chunk, bargeIn)) && GoesOn(e, OnInterrupt(e))
  {
    SetStateGoesOn(e, Interrupted);
  }

  lemma MessageGoesOn(e: Engine, message: ClientMsg, bargeIn: bool)
    ensures GoesOn(e, OnMessage(e, message, bargeIn))
  {
    match message
    case Interrupt => AudioGoesOn(e, [], false);
    case Pause => PauseGoesOn(e);
    case Mic(chunk) => AudioGoesOn(e, chunk, bargeIn);
    case Stop =>
    case Cancel =>
    case _ => HandlerGoesOn(e, message, bargeIn);
  }

  lemma ProceedGoesOn(e: Engine)
    requires !e.receiver.Ending?
    ensures GoesOn(e, Proceed(e))
  {
    SetStateGoesOn(e, Listening);
  }

  lemma SessionGoesOn(e: Engine, found: SessionOutcome)
    ensures GoesOn(e, SessionStep(e, found))
  {
    SetStateGoesOn(e, if e.session.Connecting? then Starting else Listening);
  }

  lemma BackgroundGoesOn(e: Engine)
    ensures GoesOn(e, PlaybackTimeout(e)) && GoesOn(e, WatchdogEndsTurn(e)) && GoesOn(e, WatchdogCreates(e))
  {
    SetStateGoesOn(e, Listening);
  }

  lemma PipeEndGoesOn(e: Engine, p: nat, segments: seq<string>, last: bool)
    requires p in e.tasks.pipes && (e.tasks.pipes[p].Awaiting? || e.tasks.pipes[p].Stopped?)
    ensures GoesOn(e, PipeStep(e, p, segments, last))
  {}

  lemma PipeBeginGoesOn(e: Engine, p: nat, segments: seq<string>, last: bool)
    requires p in e.tasks.pipes && (e.tasks.pipes[p].Fresh? || e.tasks.pipes[p].Numbered? || e.tasks.pipes[p].Thought?)
    ensures GoesOn(e, PipeStep(e, p, segments, last))
  {
    SetStateGoesOn(e, Thinking);
  }

  lemma PipeGoesOn(e: Engine, p: nat, segments: seq<string>, last: bool)
    requires p in e.tasks.pipes
    ensures GoesOn(e, PipeStep(e, p, segments, last))
  {
    match e.tasks.pipes[p]
    case Started(_) =>
    case Streaming(_) => SetStateGoesOn(e, Thinking);
    case Asked(_) =>
    case Awaiting(_) => PipeEndGoesOn(e, p, segments, last);
    case Stopped(_) => PipeEndGoesOn(e, p, segments, last);
    case _ => PipeBeginGoesOn(e, p, segments, last);
  }

  /** The degrade path sends two messages: an error, and LISTENING. */
  lemma FailingGoesOn(e: Engine, p: nat)
    requires p in e.tasks.pipes
    ensures var after := PipeFails(e, p);
            && AddsMildly(e.wire + [Notice], after.wire) && AddsMildly(e.wire, e.wire + [Notice]) && !Terminal(after.state)
  {}

  lemma SenderGoesOn(e: Engine, g: nat)
    requires g in e.tasks.workers
    ensures GoesOn(e, SenderStep(e, g))
  {}

  lemma AnswerGoesOn(e: Engine, a: nat, reply: AnswerOutcome)
    requires a in e.tasks.answers
    ensures GoesOn(e, AnswerStep(e, a, reply))
  {
    AnswerReports(e, a, reply);
    AnswerMoves(e, a, reply);
    AnswerState(e, a, reply);
    SetStateGoesOn(e, Processing);
    SetStateGoesOn(e, Listening);
  }

  lemma AnswerState(e: Engine, a: nat, reply: AnswerOutcome)
    requires a in e.tasks.answers
    ensures var state := AnswerStep(e, a, reply).state; state == e.state || state.Processing? || state.Listening?
  {}

  /** What every step but the carrying out of a stop or cancel leaves alone. */
  predicate NotEnding(e: Engine, after: Engine) {
    && e.wire <= after.wire
    && (forall message :: message in after.wire && TerminalMessage(message) ==> message in e.wire)
    && (Terminal(after.state) ==> Terminal(e.state))
  }

  lemma MildIsNotEnding(wire: seq<ServerMsg>, after: seq<ServerMsg>)
    requires AddsMildly(wire, after)
    ensures wire <= after && forall message :: message in after && TerminalMessage(message) ==> message in wire
  {
    if after != wire {
      assert after == wire + [after[|wire|]];
    }
  }

  lemma EngineGoesOn(s: System, l: Step)
    requires ServerStep(l) && !l.PipelineRaises? && !(l.ServerProceeds? && s.engine.receiver.Ending?)
    ensures GoesOn(s.engine, Apply(s, l).engine)
  {
    var e := s.engine;
    if !e.receiver.Gone? {
      match l
      case ServerReceives(bargeIn) => if e.receiver.Ready? && s.up != [] { MessageGoesOn(e, s.up[0], bargeIn); }
      case ServerProceeds => ProceedGoesOn(e);
      case SessionRuns(found) => SessionGoesOn(e, found);
      case TimerFires => BackgroundGoesOn(e);
      case WatchdogDecides => BackgroundGoesOn(e);
      case WatchdogCreatesTask => BackgroundGoesOn(e);
      case PipelineRuns(p, segments, last) => if p in e.tasks.pipes { PipeGoesOn(e, p, segments, last); }
      case ProducerRuns(_, _) =>
      case SenderRuns(g) => if g in e.tasks.workers { SenderGoesOn(e, g); }
      case AnswerRuns(a, reply) => if a in e.tasks.answers { AnswerGoesOn(e, a, reply); }
    }
  }

  lemma RaisingGoesOn(s: System, p: nat)
    ensures NotEnding(s.engine, Apply(s, PipelineRaises(p)).engine)
  {
    var e, after := s.engine, Apply(s, PipelineRaises(p)).engine;
    if !e.receiver.Gone? && p in e.tasks.pipes {
      FailingGoesOn(e, p);
      MildIsNotEnding(e.wire, e.wire + [Notice]);
      MildIsNotEnding(e.wire + [Notice], after.wire);
    }
  }

  lemma StepGoesOn(s: System, l: Step)
    requires !(l.ServerProceeds? && s.engine.receiver.Ending?)
    ensures NotEnding(s.engine, Apply(s, l).engine)
  {
    if l.PipelineRaises? {
      RaisingGoesOn(s, l.pipe);
    } else if ServerStep(l) {
      EngineGoesOn(s, l);
      MildIsNotEnding(s.engine.wire, Apply(s, l).engine.wire);
    }
  }

  // -- what the loop has been asked ---------------------------------------------------------

  /** The message that step `i` of the run takes out of the channel. */
  predicate TakesAt(steps: seq<Step>, i: nat, message: ClientMsg) {
    i < |steps| && Consumes(Run(START, steps[..i]), steps[i]) && Run(START, steps[..i]).up[0] == message
  }

  /** `message` was taken at some step, and the loop has gone on since. */
  ghost predicate CarriedOut(steps: seq<Step>, message: ClientMsg) {
    exists i: nat, j: nat :: i < j < |steps| && TakesAt(steps, i, message) && steps[j].ServerProceeds?
  }

  ghost predicate TakenSince(steps: seq<Step>, i: nat, message: ClientMsg) {
    TakesAt(steps, i, message) && forall j :: i < j < |steps| ==> !steps[j].ServerProceeds?
  }

  lemma TakenEarlier(steps: seq<Step>, i: nat, message: ClientMsg)
    requires i < |steps| - 1
    ensures TakesAt(steps, i, message) <==> TakesAt(steps[..|steps| - 1], i, message)
  {
    assert steps[..|steps| - 1][..i] == steps[..i];
  }

  lemma AudioReceiver(e: Engine, chunk: Bytes, bargeIn: bool)
    requires e.receiver.Ready?
    ensures var r := OnAudio(e, chunk, bargeIn).receiver; !r.Ending? && !r.Leaving? && !r.Gone?
  {}

  lemma ControlReceiver(e: Engine, message: ClientMsg)
    requires e.receiver.Ready? && !Parting(message) && !message.Mic?
    ensures var r := OnMessage(e, message, false).receiver; !r.Ending? && !r.Leaving? && !r.Gone?
  {}

  lemma MessageReceiver(e: Engine, message: ClientMsg, bargeIn: bool)
    requires e.receiver.Ready?
    ensures var r := OnMessage(e, message, bargeIn).receiver;
            if Parting(message) then r == Ending(AskedFor(message)) else !r.Ending? && !r.Leaving? && !r.Gone?
  {
    if message.Mic? {
      AudioReceiver(e, message.chunk, bargeIn);
    } else if !Parting(message) {
      ControlReceiver(e, message);
      assert OnMessage(e, message, bargeIn) == OnMessage(e, message, false);
    }
  }

  lemma ProceedReceiver(e: Engine)
    ensures var r := Proceed(e).receiver;
            match e.receiver
            case Ending(_) => r.Leaving?
            case Leaving => r.Gone?
            case Gone => r.Gone?
            case _ => r.Ready?
  {}

  /** A parting message that asks for `last` has been taken, and is not carried out yet. */
  ghost predicate Asked(steps: seq<Step>, last: VoiceState) {
    exists i: nat, m :: TakenSince(steps, i, m) && Parting(m) && AskedFor(m) == last
  }

  /** Where the receive loop stands says which parting message it has taken, if any. */
  ghost predicate Standing(s: System, steps: seq<Step>) {
    match s.engine.receiver
    case Ending(last) =>
      && !Terminal(s.engine.state) && NoneTerminal(s.engine.wire)
      && Asked(steps, last)
    case Leaving => exists m :: Parting(m) && CarriedOut(steps, m) && OnlyTerminal(s.engine.wire, AskedFor(m))
    case Gone => exists m :: Parting(m) && CarriedOut(steps, m) && OnlyTerminal(s.engine.wire, AskedFor(m))
    case _ => !Terminal(s.engine.state) && NoneTerminal(s.engine.wire)
  }

  predicate NoneTerminal(wire: seq<ServerMsg>) {
    forall message :: message in wire ==> !TerminalMessage(message)
  }

  /** The one terminal state in the stream. */
  predicate OnlyTerminal(wire: seq<ServerMsg>, state: VoiceState) {
    State(state) in wire && forall message :: message in wire && TerminalMessage(message) ==> message == State(state)
  }

  // -- every run --------------------------------------------------------------------------------

  lemma CarriedOutStays(steps: seq<Step>, message: ClientMsg)
    requires steps != [] && CarriedOut(steps[..|steps| - 1], message)
    ensures CarriedOut(steps, message)
  {
    var init := steps[..|steps| - 1];
    var i: nat, j: nat :| i < j < |init| && TakesAt(init, i, message) && init[j].ServerProceeds?;
    TakenEarlier(steps, i, message);
    assert steps[j].ServerProceeds?;
  }

  /** The step takes a parting message: the loop now closes the interview. */
  lemma TakingStands(s: System, steps: seq<Step>, n: nat)
    requires steps != [] && n == |steps| - 1 && s == Run(START, steps[..n]) && Standing(s, steps[..n])
    requires Consumes(s, steps[n])
    ensures Standing(Apply(s, steps[n]), steps)
  {
    var l, message := steps[n], s.up[0];
    MessageReceiver(s.engine, message, l.bargeIn);
    StepGoesOn(s, l);
    if Parting(message) {
      assert TakenSince(steps, n, message);
    }
  }

  /** The parting message is carried out. */
  lemma EndingStands(s: System, steps: seq<Step>, n: nat)
    requires steps != [] && n == |steps| - 1 && s == Run(START, steps[..n]) && Standing(s, steps[..n])
    requires steps[n].ServerProceeds? && s.engine.receiver.Ending?
    ensures Standing(Apply(s, steps[n]), steps)
    ensures Apply(s, steps[n]).engine.state == s.engine.receiver.last
    ensures Apply(s, steps[n]).engine.wire == s.engine.wire + [State(s.engine.receiver.last)]
  {
    var last, after := s.engine.receiver.last, Apply(s, steps[n]).engine;
    ProceedReceiver(s.engine);
    EndingBroadcasts(s.engine);
    var i: nat, m :| TakenSince(steps[..n], i, m) && Parting(m) && AskedFor(m) == last;
    TakenEarlier(steps, i, m);
    assert TakesAt(steps, i, m) && steps[n].ServerProceeds?;
    assert CarriedOut(steps, m);
    assert OnlyTerminal(after.wire, last);
  }

  lemma EndingBroadcasts(e: Engine)
    requires e.receiver.Ending? && e.state != e.receiver.last
    ensures Proceed(e).state == e.receiver.last && Proceed(e).wire == e.wire + [State(e.receiver.last)]
  {}

  /** Any other step leaves the session where it stands, or ends the loop. */
  lemma OtherStands(s: System, steps: seq<Step>, n: nat)
    requires steps != [] && n == |steps| - 1 && s == Run(START, steps[..n]) && Standing(s, steps[..n])
    requires !Consumes(s, steps[n]) && !(steps[n].ServerProceeds? && s.engine.receiver.Ending?)
    requires s.engine.receiver.Ending? ==> !steps[n].ServerProceeds?
    ensures Standing(Apply(s, steps[n]), steps)
  {
    var l, after := steps[n], Apply(s, steps[n]);
    StepGoesOn(s, l);
    OtherReceiver(s, l);
    match s.engine.receiver
    case Ending(last) => StillTaken(steps, last);
    case Leaving => StaysOver(s.engine, after.engine, steps);
    case Gone => StaysOver(s.engine, after.engine, steps);
    case _ =>
  }

  lemma StillTaken(steps: seq<Step>, last: VoiceState)
    requires steps != [] && !steps[|steps| - 1].ServerProceeds?
    requires Asked(steps[..|steps| - 1], last)
    ensures Asked(steps, last)
  {
    var i: nat, m :| TakenSince(steps[..|steps| - 1], i, m) && Parting(m) && AskedFor(m) == last;
    TakenSinceStays(steps, i, m);
  }

  lemma TakenSinceStays(steps: seq<Step>, i: nat, message: ClientMsg)
    requires steps != [] && !steps[|steps| - 1].ServerProceeds?
    requires TakenSince(steps[..|steps| - 1], i, message)
    ensures TakenSince(steps, i, message)
  {
    TakenEarlier(steps, i, message);
    forall j | i < j < |steps|
      ensures !steps[j].ServerProceeds?
    {
      if j < |steps| - 1 {
        assert steps[..|steps| - 1][j] == steps[j];
      }
    }
  }

  lemma OtherReceiver(s: System, l: Step)
    requires !Consumes(s, l) && !(l.ServerProceeds? && s.engine.receiver.Ending?)
    ensures var r := Apply(s, l).engine.receiver;
            match s.engine.receiver
            case Ending(_) => r == s.engine.receiver
            case Leaving => r.Leaving? || r.Gone?
            case Gone => r.Gone?
            case _ => !r.Ending? && !r.Leaving? && !r.Gone?
  {
    if l.ServerProceeds? {
      ProceedReceiver(s.engine);
    } else if !l.ServerReceives? {
      OtherStepsKeepReceiver(s, l);
    }
  }

  lemma StaysOver(e: Engine, after: Engine, steps: seq<Step>)
    requires steps != [] && NotEnding(e, after)
    requires exists m :: Parting(m) && CarriedOut(steps[..|steps| - 1], m) && OnlyTerminal(e.wire, AskedFor(m))
    ensures exists m :: Parting(m) && CarriedOut(steps, m) && OnlyTerminal(after.wire, AskedFor(m))
  {
    var m :| Parting(m) && CarriedOut(steps[..|steps| - 1], m) && OnlyTerminal(e.wire, AskedFor(m));
    CarriedOutStays(steps, m);
    assert OnlyTerminal(after.wire, AskedFor(m));
  }

  lemma {:induction false} RunStands(steps: seq<Step>)
    ensures Standing(Run(START, steps), steps)
  {
    if steps != [] {
      var n := |steps| - 1;
      var s := Run(START, steps[..n]);
      RunStands(steps[..n]);
      if Consumes(s, steps[n]) {
        TakingStands(s, steps, n);
      } else if steps[n].ServerProceeds? && s.engine.receiver.Ending? {
        EndingStands(s, steps, n);
      } else {
        OtherStands(s, steps, n);
      }
    }
  }

  // -- what a stop and a cancel come to --------------------------------------------------------

  /** As long as the loop has not gone on it is closing the interview for that message;
      once it has, the terminal state is in the stream. */
  lemma {:induction false} TakenIsCarriedOut(steps: seq<Step>, i: nat, message: ClientMsg)
    requires TakesAt(steps, i, message) && Parting(message)
    ensures Pursued(Run(START, steps).engine, AskedFor(message), TakenSince(steps, i, message))
  {
    var n := |steps| - 1;
    var s := Run(START, steps[..n]);
    if i == n {
      MessageReceiver(s.engine, message, steps[n].bargeIn);
    } else {
      TakenEarlier(steps, i, message);
      TakenIsCarriedOut(steps[..n], i, message);
      TakenOneMore(steps, i, message);
      RunStands(steps[..n]);
      StepPursues(s, steps[n], AskedFor(message), TakenSince(steps[..n], i, message));
    }
  }

  /** The loop is closing the interview, or the terminal state is out. */
  predicate Pursued(e: Engine, state: VoiceState, waiting: bool) {
    if waiting then e.receiver == Ending(state) else State(state) in e.wire && (e.receiver.Leaving? || e.receiver.Gone?)
  }

  lemma TakenOneMore(steps: seq<Step>, i: nat, message: ClientMsg)
    requires i < |steps| - 1
    ensures TakenSince(steps, i, message) <==>
              TakenSince(steps[..|steps| - 1], i, message) && !steps[|steps| - 1].ServerProceeds?
  {
    TakenEarlier(steps, i, message);
    assert forall j :: 0 <= j < |steps| - 1 ==> steps[..|steps| - 1][j] == steps[j];
  }

  lemma StepPursues(s: System, l: Step, state: VoiceState, waiting: bool)
    requires Pursued(s.engine, state, waiting) && (waiting ==> s.engine.state != state)
    ensures Pursued(Apply(s, l).engine, state, waiting && !l.ServerProceeds?)
  {
    if l.ServerProceeds? && s.engine.receiver.Ending? {
      EndingBroadcasts(s.engine);
      ProceedReceiver(s.engine);
    } else {
      OtherReceiver(s, l);
      StepGoesOn(s, l);
    }
  }

  /** COMPLETED is broadcast exactly when a stop has been taken out of the channel and the
      loop has gone on, CANCELLED exactly when a cancel has - in every run. */
  lemma TerminalExactlyAfter(steps: seq<Step>)
    ensures State(Completed) in Run(START, steps).engine.wire <==> CarriedOut(steps, ClientMsg.Stop)
    ensures State(Cancelled) in Run(START, steps).engine.wire <==> CarriedOut(steps, ClientMsg.Cancel)
  {
    var wire := Run(START, steps).engine.wire;
    RunStands(steps);
    forall message | Parting(message)
      ensures State(AskedFor(message)) in wire <==> CarriedOut(steps, message)
    {
      if i: nat, j: nat :| i < j < |steps| && TakesAt(steps, i, message) && steps[j].ServerProceeds? {
        TakenIsCarriedOut(steps, i, message);
      }
      if State(AskedFor(message)) in wire {
        assert TerminalMessage(State(AskedFor(message)));
        var m :| Parting(m) && CarriedOut(steps, m) && OnlyTerminal(wire, AskedFor(m));
        assert m == message;
      }
    }
    assert AskedFor(ClientMsg.Stop) == Completed && AskedFor(ClientMsg.Cancel) == Cancelled;
  }

  /** When the loop goes on after taking a stop, or a cancel, the engine is in COMPLETED,
      or CANCELLED, and has just broadcast it - whatever else happened in between. */
  lemma PartingEndsSession(steps: seq<Step>, i: nat)
    requires TakenSince(steps, i, ClientMsg.Stop) || TakenSince(steps, i, ClientMsg.Cancel)
    ensures var e, after := Run(START, steps).engine, Apply(Run(START, steps), ServerProceeds).engine;
            && (TakenSince(steps, i, ClientMsg.Stop) ==> after.state.Completed? && after.wire == e.wire + [State(Completed)])
            && (TakenSince(steps, i, ClientMsg.Cancel) ==> after.state.Cancelled? && after.wire == e.wire + [State(Cancelled)])
  {
    var message := if TakenSince(steps, i, ClientMsg.Stop) then ClientMsg.Stop else ClientMsg.Cancel;
    TakenIsCarriedOut(steps, i, message);
    RunStands(steps);
    EndingBroadcasts(Run(START, steps).engine);
  }

  // -- both ends -----------------------------------------------------------------------------------

  /** The candidate leaves once, with the button, and no other control says so. */
  predicate LeavesByButton(s: System, l: Step) {
    (l.UserLeaves? ==> s.client.open) && (l.UserSends? ==> !Parting(l.message))
  }

  ghost predicate ButtonRun(steps: seq<Step>) {
    forall i {:trigger steps[i]} :: 0 <= i < |steps| ==> LeavesByButton(Run(START, steps[..i]), steps[i])
  }

  /** A parting message on its way, or taken, is that of a client that has left. */
  ghost predicate Announced(s: System, steps: seq<Step>) {
    && (forall k :: 0 <= k < |s.up| && Parting(s.up[k]) ==> Left(s.client, s.up[k]))
    && (forall i: nat, m :: TakesAt(steps, i, m) && Parting(m) ==> Left(s.client, m))
  }

  predicate Left(c: Client, message: ClientMsg)
    requires Parting(message)
  {
    !c.open && c.state == AskedFor(message)
  }

  /** What the client adds to the channel is no parting message, unless it leaves. */
  lemma ClientStepLeaves(s: System, l: Step)
    requires LeavesByButton(s, l)
    ensures var t := Apply(s, l);
            && (!s.client.open ==> !t.client.open && t.client.state == s.client.state)
            && (forall k :: 0 <= k < |t.up| && Parting(t.up[k]) ==> t.up[k] in s.up || Left(t.client, t.up[k]))
  {
    var t := Apply(s, l);
    if l.UserLeaves? {
      assert t.up == s.up + [if l.cancel then Cancel else Stop];
    } else if l.ClientReceives? && s.client.open && s.got < |s.engine.wire| {
      ReceiveLeavesNothing(s.client, s.got, s.engine.wire[s.got]);
    }
  }

  lemma ReceiveLeavesNothing(c: Client, id: nat, message: ServerMsg)
    ensures forall m :: m in Receive(c, id, message).1 ==> !Parting(m)
  {}

  lemma ButtonPrefix(steps: seq<Step>)
    requires ButtonRun(steps) && steps != []
    ensures ButtonRun(steps[..|steps| - 1]) && LeavesByButton(Run(START, steps[..|steps| - 1]), steps[|steps| - 1])
  {
    var n := |steps| - 1;
    assert LeavesByButton(Run(START, steps[..n]), steps[n]);
    forall i | 0 <= i < n
      ensures LeavesByButton(Run(START, steps[..n][..i]), steps[..n][i])
    {
      assert steps[..n][..i] == steps[..i] && steps[..n][i] == steps[i];
      assert LeavesByButton(Run(START, steps[..i]), steps[i]);
    }
  }

  lemma LeftStaysLeft(s: System, l: Step, message: ClientMsg)
    requires LeavesByButton(s, l) && Parting(message) && Left(s.client, message)
    ensures Left(Apply(s, l).client, message)
  {
    ClientStepLeaves(s, l);
  }

  lemma OnItsWayHasLeft(s: System, l: Step, steps: seq<Step>, k: nat)
    requires Announced(s, steps) && LeavesByButton(s, l) && k < |Apply(s, l).up| && Parting(Apply(s, l).up[k])
    ensures Left(Apply(s, l).client, Apply(s, l).up[k])
  {
    ClientStepLeaves(s, l);
    var message := Apply(s, l).up[k];
    if message in s.up {
      LeftStaysLeft(s, l, message);
    }
  }

  lemma TakenHasLeft(steps: seq<Step>, s: System, i: nat, message: ClientMsg)
    requires steps != [] && s == Run(START, steps[..|steps| - 1]) && Announced(s, steps[..|steps| - 1])
    requires LeavesByButton(s, steps[|steps| - 1]) && TakesAt(steps, i, message) && Parting(message)
    ensures Left(Apply(s, steps[|steps| - 1]).client, message)
  {
    if i < |steps| - 1 {
      TakenEarlier(steps, i, message);
    } else {
      assert message == s.up[0];
    }
    LeftStaysLeft(s, steps[|steps| - 1], message);
  }

  lemma {:induction false} RunAnnounces(steps: seq<Step>)
    requires ButtonRun(steps)
    ensures Announced(Run(START, steps), steps)
  {
    if steps != [] {
      var n := |steps| - 1;
      var s, l := Run(START, steps[..n]), steps[n];
      var t := Apply(s, l);
      ButtonPrefix(steps);
      RunAnnounces(steps[..n]);
      forall k | 0 <= k < |t.up| && Parting(t.up[k])
        ensures Left(t.client, t.up[k])
      {
        OnItsWayHasLeft(s, l, steps[..n], k);
      }
      forall i: nat, m | TakesAt(steps, i, m) && Parting(m)
        ensures Left(t.client, m)
      {
        TakenHasLeft(steps, s, i, m);
      }
    }
  }

  /** Both ends agree: the terminal state the server broadcasts is the state in which the
      candidate's client was left. */
  lemma BothEndsAgree(steps: seq<Step>, state: VoiceState)
    requires ButtonRun(steps) && Terminal(state) && State(state) in Run(START, steps).engine.wire
    ensures var c := Run(START, steps).client; !c.open && c.state == state
  {
    TerminalExactlyAfter(steps);
    RunAnnounces(steps);
    var message := if state.Completed? then ClientMsg.Stop else ClientMsg.Cancel;
    var i: nat, j: nat :| i < j < |steps| && TakesAt(steps, i, message) && steps[j].ServerProceeds?;
  }
}
