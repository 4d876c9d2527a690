/** When the receive loop is not hot: exactly which messages make it wait for
    speech recognition or for the database, and what waits with it. */
module ReceiveLoop {
  import opened VoiceTypes
  import opened EngineSteps
  import opened ClientSteps
  import opened VoiceProtocol

  /** The loop awaits speech recognition, or the closing of the interview row. */
  predicate Waits(r: Receiver) {
    r.Partial? || r.Ending?
  }

  /** A mic chunk that makes a partial transcript due in LISTENING, two seconds of audio
      after the last, a stop, or a cancel. */
  predicate MakesWait(e: Engine, message: ClientMsg) {
    || (message.Mic? && e.state.Listening? && |e.mic.buffer| + |message.chunk| - e.partialSince >= 64000)
    || message.Stop? || message.Cancel?
  }

  lemma AudioWaitsExactlyWhen(e: Engine, chunk: Bytes, bargeIn: bool)
    requires e.receiver.Ready?
    ensures Waits(OnAudio(e, chunk, bargeIn).receiver) <==> e.state.Listening? && PartialDue(e, chunk)
  {}

  lemma HandlingWaitsExactlyWhen(e: Engine, message: ClientMsg, bargeIn: bool)
    requires e.receiver.Ready?
    ensures Waits(OnMessage(e, message, bargeIn).receiver) <==> MakesWait(e, message)
  {
    if message.Mic? { AudioWaitsExactlyWhen(e, message.chunk, bargeIn); }
  }

  /** The step handles a message that makes the loop wait. */
  predicate StartsWait(s: System, l: Step) {
    Consumes(s, l) && MakesWait(s.engine, s.up[0])
  }

  lemma OtherStepsKeepReceiver(s: System, l: Step)
    requires !l.ServerReceives? && !l.ServerProceeds?
    ensures Apply(s, l).engine.receiver == s.engine.receiver
  {
    if ServerStep(l) {
      match l
      case PipelineRuns(p, segments, last) => PipeKeepsReceiver(s.engine, p, segments, last);
      case AnswerRuns(a, reply) => AnswerKeepsReceiver(s.engine, a, reply);
      case SenderRuns(g) => SenderKeepsReceiver(s.engine, g);
      case _ =>
    }
  }

  lemma PipeKeepsReceiver(e: Engine, p: nat, segments: seq<string>, last: bool)
    ensures p in e.tasks.pipes ==> PipeStep(e, p, segments, last).receiver == e.receiver
  {}

  lemma AnswerKeepsReceiver(e: Engine, a: nat, reply: AnswerOutcome)
    ensures a in e.tasks.answers ==> AnswerStep(e, a, reply).receiver == e.receiver
  {}

  lemma SenderKeepsReceiver(e: Engine, g: nat)
    ensures g in e.tasks.workers ==> SenderStep(e, g).receiver == e.receiver
  {}

  lemma ProceedingEndsWait(e: Engine)
    ensures !Waits(Proceed(e).receiver)
  {}

  /** One step: the loop waits afterwards exactly if the step started a wait, or it was
      waiting and the step is not the end of the wait. */
  lemma StepWaits(s: System, l: Step)
    ensures Waits(Apply(s, l).engine.receiver) <==>
              StartsWait(s, l) || (Waits(s.engine.receiver) && !l.ServerProceeds?)
  {
    if l.ServerReceives? {
      if Consumes(s, l) { HandlingWaitsExactlyWhen(s.engine, s.up[0], l.bargeIn); }
    } else if l.ServerProceeds? {
      ProceedingEndsWait(s.engine);
    } else {
      OtherStepsKeepReceiver(s, l);
    }
  }

  /** A wait began at step `i`, and has not ended. */
  ghost predicate WaitingSince(steps: seq<Step>, i: nat) {
    i < |steps| && StartsWait(Run(START, steps[..i]), steps[i]) && forall j :: i < j < |steps| ==> !steps[j].ServerProceeds?
  }

  ghost predicate SomeWait(steps: seq<Step>) {
    exists i: nat :: WaitingSince(steps, i)
  }

  /** In every run whatsoever, the receive loop is waiting for foreign work at the end if and
      only if some step of the run started a wait that nothing has ended since. */
  lemma {:induction false} LoopWaitsExactlyWhen(steps: seq<Step>)
    ensures Waits(Run(START, steps).engine.receiver) <==> SomeWait(steps)
  {
    if steps != [] {
      var init, last := steps[..|steps| - 1], steps[|steps| - 1];
      LoopWaitsExactlyWhen(init);
      StepWaits(Run(START, init), last);
      SomeWaitGoesOn(steps);
    }
  }

  lemma WaitStays(steps: seq<Step>)
    requires steps != [] && SomeWait(steps[..|steps| - 1]) && !steps[|steps| - 1].ServerProceeds?
    ensures SomeWait(steps)
  {
    var i: nat :| WaitingSince(steps[..|steps| - 1], i);
    WaitGoesOn(steps, i);
  }

  lemma WaitWasThere(steps: seq<Step>)
    requires steps != [] && SomeWait(steps) && !StartsWait(Run(START, steps[..|steps| - 1]), steps[|steps| - 1])
    ensures SomeWait(steps[..|steps| - 1]) && !steps[|steps| - 1].ServerProceeds?
  {
    var i: nat :| WaitingSince(steps, i);
    WaitGoesOn(steps, i);
  }

  lemma SomeWaitGoesOn(steps: seq<Step>)
    requires steps != []
    ensures var init, last := steps[..|steps| - 1], steps[|steps| - 1];
            SomeWait(steps) <==> StartsWait(Run(START, init), last) || (SomeWait(init) && !last.ServerProceeds?)
  {
    var init, last := steps[..|steps| - 1], steps[|steps| - 1];
    if StartsWait(Run(START, init), last) {
      assert WaitingSince(steps, |steps| - 1);
    } else if SomeWait(steps) {
      WaitWasThere(steps);
    } else if SomeWait(init) && !last.ServerProceeds? {
      WaitStays(steps);
    }
  }

  lemma WaitGoesOn(steps: seq<Step>, i: nat)
    requires i < |steps| - 1
    ensures WaitingSince(steps, i) <==> WaitingSince(steps[..|steps| - 1], i) && !steps[|steps| - 1].ServerProceeds?
  {
    var init := steps[..|steps| - 1];
    assert init[..i] == steps[..i];
    assert forall j :: 0 <= j < |init| ==> init[j] == steps[j];
  }

  /** While it waits, nothing the client sends is handled: no message leaves the channel. */
  lemma WaitingKeepsMessages(s: System, l: Step)
    requires Waits(s.engine.receiver)
    ensures s.up <= Apply(s, l).up
    ensures l.ServerReceives? ==> Apply(s, l) == s
  {}

  // -- it happens --------------------------------------------------------------------

  /** Two seconds of silence. */
  const TWO_SECONDS: Bytes := seq(PARTIAL_BYTES, _ => 0)

  const REJOINED := INITIAL.(session := SessionDone, state := Listening, watchdog := true, wire := [Notice] + [State(Listening)])
  const AT_WINDOW := START.(engine := REJOINED, client := FRESH.(state := Listening), got := 2)

  lemma RunOne(before: seq<Step>, l: Step)
    ensures Run(START, before + [l]) == Apply(Run(START, before), l)
  {
    assert (before + [l])[..|before|] == before;
  }

  lemma RejoinedWindow() returns (steps: seq<Step>)
    ensures Run(START, steps) == AT_WINDOW
  {
    var rejoin := SessionRuns(Rejoins);
    RunOne([], rejoin);
    RunOne([] + [rejoin], rejoin);
    assert [] + [Notice] == [Notice];
    assert Run(START, [] + [rejoin] + [rejoin]) == START.(engine := REJOINED);
    RunOne([] + [rejoin] + [rejoin], ClientReceives);
    RunOne([] + [rejoin] + [rejoin] + [ClientReceives], ClientReceives);
    steps := [] + [rejoin] + [rejoin] + [ClientReceives] + [ClientReceives];
  }

  lemma TwoSecondsAreDue()
    ensures var s := Apply(Apply(Apply(AT_WINDOW, UserSpeaks(TWO_SECONDS)), ServerReceives(false)), UserInterrupts);
            && s.up == [ClientMsg.Interrupt] && s.engine.state.Listening? && s.engine.receiver.Partial?
            && Apply(s, ServerReceives(false)) == s
  {
    assert [] + [Mic(TWO_SECONDS)] == [Mic(TWO_SECONDS)];
    assert [] + [ClientMsg.Interrupt] == [ClientMsg.Interrupt];
    assert Apply(AT_WINDOW, UserSpeaks(TWO_SECONDS)) == AT_WINDOW.(up := [Mic(TWO_SECONDS)]);
  }

  /** An interrupt sent after two seconds of speech stays in the channel as long as the
      partial transcript is awaited. */
  lemma InterruptWaits() returns (steps: seq<Step>)
    ensures var s := Run(START, steps);
            && s.up == [ClientMsg.Interrupt] && s.engine.state.Listening? && s.engine.receiver.Partial?
            && Apply(s, ServerReceives(false)) == s
  {
    var first := RejoinedWindow();
    var receive := ServerReceives(false);
    RunOne(first, UserSpeaks(TWO_SECONDS));
    RunOne(first + [UserSpeaks(TWO_SECONDS)], receive);
    RunOne(first + [UserSpeaks(TWO_SECONDS)] + [receive], UserInterrupts);
    TwoSecondsAreDue();
    steps := first + [UserSpeaks(TWO_SECONDS)] + [receive] + [UserInterrupts];
  }
}
