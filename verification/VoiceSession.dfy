/** The two objects and the channels between them, run step by step: what they do
    together is `VoiceProtocol.Run`, so every theorem about runs is about them. */
module VoiceSession {
  import opened VoiceTypes
  import opened VoiceProtocol
  import opened VoiceMonitor
  import opened VoiceRuns
  import opened VoiceIntegrity
  import opened VoicePlaying
  import Server = VoiceEngine
  import Browser = VoiceClient
  import SpeechWorker

  class VoiceSession {
    const engine: Server.VoiceEngine
    const client: Browser.VoiceClient
    var got: nat
    var up: seq<ClientMsg>
    ghost var finished: set<nat>
    ghost var accepted: map<nat, int>

    ghost predicate Valid()
      reads this, client
    {
      client.outbox == []
    }

    ghost function View(): System
      reads this, engine, client
    {
      System(engine.View(), client.View(), got, up, finished, accepted)
    }

    constructor ()
      ensures Valid() && View() == START && fresh(engine) && fresh(client)
    {
      engine := new Server.VoiceEngine();
      client := new Browser.VoiceClient();
      got, up, finished, accepted := 0, [], {}, map[];
    }

    /** The receive loop, or a task without a number, runs to its next await. */
    method RunEngine(l: Step)
      requires Valid() && ServerStep(l)
      modifies this, engine
      ensures Valid() && View() == Apply(old(View()), l)
    {
      if engine.receiver.Gone? {
        return;
      }
      if l.ServerReceives? {
        if engine.receiver.Ready? && up != [] {
          var message := up[0];
          up := up[1..];
          engine.Handle(message, l.bargeIn);
        }
      } else if l.ServerProceeds? {
        engine.GoOn();
      } else if l.SessionRuns? {
        engine.StartSession(l.found);
      } else if l.TimerFires? {
        engine.PlaybackTimeoutGuard();
      } else if l.WatchdogDecides? {
        engine.SilenceWatchdog();
      } else if l.WatchdogCreatesTask? {
        engine.FinishSilence();
      } else {
        RunTask(l);
      }
    }

    /** A task of a question or of an answer. */
    method RunTask(l: Step)
      requires Valid() && !engine.receiver.Gone?
      requires l.PipelineRuns? || l.PipelineRaises? || l.ProducerRuns? || l.SenderRuns? || l.AnswerRuns?
      modifies this, engine
      ensures Valid() && View() == Apply(old(View()), l)
    {
      if l.PipelineRuns? {
        if l.pipe in engine.pipes { engine.PipelineTurn(l.pipe, l.segments, l.last); }
      } else if l.PipelineRaises? {
        if l.pipe in engine.pipes { engine.DegradeToText(l.pipe); }
      } else if l.AnswerRuns? {
        if l.answer in engine.answers { engine.AnswerTurn(l.answer, l.reply); }
      } else if l.generation in engine.workers && SpeechWorker.Alive(engine.workers[l.generation]) {
        if l.ProducerRuns? { engine.ProducerTurn(l.generation, l.outcome); } else { engine.SenderTurn(l.generation); }
      }
    }

    /** The client reads the next message of the stream. */
    method Deliver()
      requires Valid()
      modifies this, client
      ensures Valid() && View() == ClientReceivesNext(old(View()))
    {
      if !client.open || got >= |engine.wire| {
        return;
      }
      ghost var before := client.currentGeneration;
      client.Receive(got, engine.wire[got]);
      if got in client.activeSources {
        accepted := accepted[got := before];
      }
      got := got + 1;
      Collect();
    }

    method Collect()
      modifies this`up, client`outbox
      ensures Valid() && up == old(up) + old(client.outbox) && client.View() == old(client.View())
    {
      var sent := client.Collect();
      up := up + sent;
    }

    method EndSource(id: nat)
      requires Valid()
      modifies this, client
      ensures Valid() && View() == SourceEndsAt(old(View()), id)
    {
      if id in client.activeSources { finished := finished + {id}; }
      client.OnEnded(id);
      Collect();
    }

    /** A message arrives, a source ends, or the candidate does something. */
    method RunClient(l: Step)
      requires Valid() && !ServerStep(l)
      modifies this, client
      ensures Valid() && View() == Apply(old(View()), l)
    {
      if l.ClientReceives? {
        Deliver();
      } else if l.SourceEnds? {
        EndSource(l.id);
      } else {
        Candidate(l);
      }
    }

    method Candidate(l: Step)
      requires Valid() && (l.UserInterrupts? || l.UserSends? || l.UserSpeaks? || l.UserLeaves?)
      modifies this, client
      ensures Valid() && View() == Apply(old(View()), l)
    {
      if l.UserInterrupts? {
        client.InterruptNow();
        Collect();
      } else if l.UserLeaves? {
        client.LeaveNow(l.cancel);
        Collect();
      } else {
        Talk(l);
      }
    }

    method Talk(l: Step)
      requires Valid() && (l.UserSends? || l.UserSpeaks?)
      modifies this, client
      ensures Valid() && View() == Apply(old(View()), l)
    {
      if l.UserSends? {
        client.SendControl(l.message);
      } else {
        client.Forward(l.chunk);
      }
      Collect();
    }
  }

  /** A whole session. Whatever order the scheduler picks, the objects are where the
      protocol says; so under the hypotheses the stream carries no stale audio, and
      what sounds in the browser belongs to its current generation. */
  method Play(steps: seq<Step>) returns (session: VoiceSession)
    ensures fresh(session) && session.Valid() && session.View() == Run(START, steps)
    ensures DisciplinedRun(START, steps) ==> Watch(session.engine.wire).ok
    ensures DisciplinedRun(START, steps) && SteadyRun(START, steps) && PatientRun(START, steps) ==> InPlace(session.View())
  {
    session := new VoiceSession();
    for i := 0 to |steps|
      invariant fresh(session) && fresh(session.engine) && fresh(session.client)
      invariant session.Valid() && session.View() == Run(START, steps[..i])
    {
      assert steps[..i + 1][..i] == steps[..i];
      if ServerStep(steps[i]) {
        session.RunEngine(steps[i]);
      } else {
        session.RunClient(steps[i]);
      }
    }
    assert steps[..|steps|] == steps;
    if DisciplinedRun(START, steps) {
      RunsAreSound(steps);
      if SteadyRun(START, steps) && PatientRun(START, steps) { RunsPlay(steps); }
    }
  }
}
