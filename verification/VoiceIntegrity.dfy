/** Speaker integrity: the microphone opens only after the question was heard. */
module VoiceIntegrity {
  import opened EngineSteps
  import opened ClientSteps
  import opened VoiceProtocol
  import opened VoiceMonitor
  import opened VoiceRuns

  /** No underrun: when the last scheduled source ends and the client is about to
      acknowledge, the tts_stop of that question has already been received. And
      acknowledgements come from the playback alone. */
  predicate Steady(s: System, l: Step) {
    && (l.SourceEnds? && SourceEnded(s.client, l.id).1 != [] ==>
          s.got <= |s.engine.wire| && Watch(s.engine.wire[..s.got]).stopped)
    && (l.UserSends? ==> !l.message.PlaybackComplete?)
  }

  ghost predicate SteadyRun(s: System, steps: seq<Step>) {
    forall i {:trigger steps[i]} :: 0 <= i < |steps| ==> Steady(Run(s, steps[..i]), steps[i])
  }

  /** Every frame of generation `g` that was ever sent has been received and has played to its end. */
  predicate Heard(s: System, g: int) {
    forall i :: 0 <= i < |s.engine.wire| && s.engine.wire[i].Audio? && s.engine.wire[i].frame.origin == g ==>
      i < s.got && i in s.finished
  }

  /** What the client has to acknowledge is what it is playing, and it has
      dropped no frame of it. */
  predicate Attentive(s: System) {
    s.client.pendingPlayback >= 0 ==>
      && s.client.pendingPlayback == s.client.currentGeneration
      && (forall i :: 0 <= i < s.got <= |s.engine.wire| && s.engine.wire[i].Audio? ==>
            s.engine.wire[i].frame.origin == s.client.pendingPlayback ==> i in s.client.active || i in s.finished)
  }

  /** An acknowledgement on its way speaks of a question that is over and was heard. */
  ghost predicate AcksTrue(s: System) {
    forall k :: 0 <= k < |s.up| && s.up[k].PlaybackComplete? ==>
      s.up[k].generation >= 0 && Sealed(Watch(s.engine.wire), s.up[k].generation) && Heard(s, s.up[k].generation)
  }

  ghost predicate Honest(s: System) {
    Attentive(s) && AcksTrue(s)
  }

  lemma ServerKeepsHonest(s: System, l: Step)
    requires SystemSound(s) && Honest(s) && Disciplined(s, l) && ServerStep(l)
    ensures Honest(Apply(s, l))
  {
    ServerKeepsSystem(s, l);
    WireGrows(s.engine, Head(s.up), l);
    var after := Apply(s, l);
    var n := |s.engine.wire|;
    assert after.engine.wire[..n] == s.engine.wire;
    forall k | 0 <= k < |after.up| && after.up[k].PlaybackComplete?
      ensures after.up[k].generation >= 0
      ensures Sealed(Watch(after.engine.wire), after.up[k].generation) && Heard(after, after.up[k].generation)
    {
      assert after.up[k] == s.up[k + |s.up| - |after.up|];
      SealedStays(after.engine.wire, n, after.up[k].generation);
    }
  }

  /** An acknowledgement sent once the stop has been received and nothing is playing. */
  lemma AckIsTrue(s: System, g: nat)
    requires SystemSound(s)
    requires Watch(s.engine.wire[..s.got]).live == g && Watch(s.engine.wire[..s.got]).stopped
    requires forall i :: 0 <= i < s.got && s.engine.wire[i].Audio? && s.engine.wire[i].frame.origin == g ==> i in s.finished
    ensures Sealed(Watch(s.engine.wire), g) && Heard(s, g)
  {
    LiveBelowTop(s.engine.wire[..s.got]);
    SealedStays(s.engine.wire, s.got, g);
  }

  lemma ReceiveKeepsHonest(s: System)
    requires SystemSound(s) && Honest(s)
    ensures Honest(ClientReceivesNext(s))
  {
    if s.client.open && s.got < |s.engine.wire| {
      ReceiveKeepsSystem(s);
      var w, n, after := s.engine.wire, s.got, ClientReceivesNext(s);
      var m := Watch(w[..n]);
      PrefixOk(w, n + 1);
      assert w[..n + 1] == w[..n] + [w[n]];
      WatchSnoc(w[..n], w[n]);
      match w[n]
      case TtsStart(g) =>
        forall i | 0 <= i < n && w[i].Audio? ensures w[i].frame.origin < g {
          PrefixOk(w, n);
          FramesBelowTop(w[..n], i);
        }
      case TtsStop(g) =>
        if s.client.active == {} && Notifies(s.client) { AckIsTrue(after, g); }
      case _ =>
    }
  }

  lemma SourceKeepsHonest(s: System, id: nat)
    requires SystemSound(s) && Honest(s) && Steady(s, SourceEnds(id))
    ensures Honest(SourceEndsAt(s, id))
  {
    var after := SourceEndsAt(s, id);
    assert after.client.active == {} ==> s.client.active <= {id} by {
      assert s.client.active <= after.client.active + {id};
    }
    if SourceEnded(s.client, id).1 != [] {
      AckIsTrue(after, s.client.pendingPlayback);
    }
  }

  lemma StepKeepsHonest(s: System, l: Step)
    requires SystemSound(s) && Honest(s) && Disciplined(s, l) && Steady(s, l)
    ensures Honest(Apply(s, l))
  {
    if ServerStep(l) {
      ServerKeepsHonest(s, l);
    } else if l.ClientReceives? {
      ReceiveKeepsHonest(s);
    } else if l.SourceEnds? {
      SourceKeepsHonest(s, l.id);
    }
  }

  lemma {:induction false} RunsAreHonest(steps: seq<Step>)
    requires DisciplinedRun(START, steps) && SteadyRun(START, steps)
    ensures Honest(Run(START, steps))
  {
    if steps != [] {
      var init := steps[..|steps| - 1];
      DisciplinedPrefix(START, steps);
      assert Steady(Run(START, steps[..|steps| - 1]), steps[|steps| - 1]);
      assert forall i :: 0 <= i < |init| ==> init[i] == steps[i] && init[..i] == steps[..i];
      RunsAreHonest(init);
      RunsAreSound(init);
      StepKeepsHonest(Run(START, init), steps[|steps| - 1]);
    }
  }

  /** Speaker integrity. When the receive loop handles an acknowledgement and the
      engine leaves SPEAKING because of it, the acknowledged generation is the
      current one, all its audio is over, and every frame of it has been received
      and played to the end: none is in flight. */
  lemma AckOpensMicOnlyAfterPlayback(steps: seq<Step>, l: Step)
    requires DisciplinedRun(START, steps) && SteadyRun(START, steps)
    requires var s := Run(START, steps);
             l.ServerReceives? && Consumes(s, l) && s.up[0].PlaybackComplete? && s.engine.state.Speaking?
             && !Apply(s, l).engine.state.Speaking?
    ensures var s := Run(START, steps);
            && Apply(s, l).engine.state.Listening?
            && s.up[0].generation == s.engine.generation
            && Heard(s, s.up[0].generation) && Sealed(Watch(s.engine.wire), s.engine.generation)
  {
    RunsAreHonest(steps);
    RunsAreSound(steps);
  }

  /** An acknowledgement of any generation but the current one, or outside SPEAKING,
      changes nothing, whatever arrived before it. */
  lemma StaleAckIgnored(steps: seq<Step>, generation: int)
    requires DisciplinedRun(START, steps)
    requires generation != Run(START, steps).engine.generation || !Run(START, steps).engine.state.Speaking?
    ensures var e := Run(START, steps).engine; OnPlaybackComplete(e, generation) == e
  {
    RunsAreSound(steps);
  }
}
