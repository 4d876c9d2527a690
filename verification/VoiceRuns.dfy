/** Theorems about every disciplined run: no stale audio on the wire, none scheduled. */
module VoiceRuns {
  import opened Wrappers
  import opened VoiceTypes
  import opened EngineSteps
  import opened ClientSteps
  import opened VoiceProtocol
  import opened VoiceMonitor
  import opened VoiceSafety
  import opened VoiceQuiet

  /** The client follows what the server has announced, as far as it has read;
      it may know less (after a barge-in of its own), never something else. */
  predicate Follows(c: Client, m: Monitor) {
    && (c.open ==> c.state == m.state)
    && (c.currentGeneration == m.live || c.currentGeneration == -1)
    && (!c.open ==> c.currentGeneration == -1)
  }

  /** Sources are frames already received, and none waits to be scheduled. */
  predicate SourcesReceived(s: System) {
    s.client.queue == [] && forall id :: id in s.client.active ==> id < s.got
  }

  /** Every frame the client scheduled carries the generation it was playing then. */
  predicate PlayedInPlace(s: System) {
    forall id :: id in s.accepted ==>
      id < s.got <= |s.engine.wire| && s.engine.wire[id].Audio? && s.accepted[id] == s.engine.wire[id].frame.origin
  }

  ghost predicate SystemSound(s: System) {
    && EngineSound(s.engine)
    && s.got <= |s.engine.wire|
    && Follows(s.client, Watch(s.engine.wire[..s.got]))
    && SourcesReceived(s)
    && PlayedInPlace(s)
  }

  /** Nothing sent is ever taken back. */
  lemma WireGrows(e: Engine, head: Option<ClientMsg>, l: Step)
    requires ServerStep(l)
    ensures e.wire <= EngineAfter(e, head, l).wire
  {
    if !OnSpeechPath(l) {
      OtherStepsAreQuiet(e, head, l);
    } else if l.PipelineRuns? && l.pipe in e.tasks.pipes {
      PipeGrows(e, l.pipe, l.segments, l.last);
    } else if l.PipelineRaises? && l.pipe in e.tasks.pipes {
      FailingGrows(e, l.pipe);
    } else if l.SenderRuns? && l.generation in e.tasks.workers {
      SenderGrows(e, l.generation);
    }
  }

  lemma FailingGrows(e: Engine, p: nat)
    requires p in e.tasks.pipes
    ensures e.wire <= PipeFails(e, p).wire
  {}

  lemma SenderGrows(e: Engine, g: nat)
    requires g in e.tasks.workers
    ensures e.wire <= SenderStep(e, g).wire
  {}

  lemma PipeGrows(e: Engine, p: nat, segments: seq<string>, last: bool)
    requires p in e.tasks.pipes
    ensures e.wire <= PipeStep(e, p, segments, last).wire
  {
    match e.tasks.pipes[p]
    case Awaiting(_) => PipeEndGrows(e, p, segments, last);
    case Stopped(_) => PipeEndGrows(e, p, segments, last);
    case _ =>
  }

  lemma PipeEndGrows(e: Engine, p: nat, segments: seq<string>, last: bool)
    requires p in e.tasks.pipes && (e.tasks.pipes[p].Awaiting? || e.tasks.pipes[p].Stopped?)
    ensures e.wire <= PipeStep(e, p, segments, last).wire
  {}

  lemma ServerKeepsSystem(s: System, l: Step)
    requires SystemSound(s) && Disciplined(s, l) && ServerStep(l)
    ensures SystemSound(Apply(s, l))
  {
    ServerKeepsSound(s.engine, Head(s.up), l);
    WireGrows(s.engine, Head(s.up), l);
    assert Apply(s, l).engine.wire[..s.got] == s.engine.wire[..s.got];
  }

  lemma ReceiveKeepsSystem(s: System)
    requires SystemSound(s)
    ensures SystemSound(ClientReceivesNext(s))
  {
    if s.client.open && s.got < |s.engine.wire| {
      var w, n := s.engine.wire, s.got;
      PrefixOk(w, n + 1);
      assert w[..n + 1] == w[..n] + [w[n]];
      WatchSnoc(w[..n], w[n]);
      ReceiveFollows(s.client, n, w[n], Watch(w[..n]));
    }
  }

  lemma ReceiveFollows(c: Client, id: nat, message: ServerMsg, m: Monitor)
    requires Follows(c, m) && c.open && c.queue == [] && id !in c.active && Observe(m, message).ok
    ensures var next := Receive(c, id, message).0;
            && Follows(next, Observe(m, message)) && next.queue == []
            && next.active <= c.active + {id}
            && (id in next.active ==> message.Audio? && c.currentGeneration == message.frame.origin)
  {}

  lemma StepKeepsSystem(s: System, l: Step)
    requires SystemSound(s) && Disciplined(s, l)
    ensures SystemSound(Apply(s, l))
  {
    if ServerStep(l) {
      ServerKeepsSystem(s, l);
    } else if l.ClientReceives? {
      ReceiveKeepsSystem(s);
    }
  }

  lemma {:induction false} RunKeepsSystem(s: System, steps: seq<Step>)
    requires SystemSound(s) && DisciplinedRun(s, steps)
    ensures SystemSound(Run(s, steps))
  {
    if steps != [] {
      var init := steps[..|steps| - 1];
      DisciplinedPrefix(s, steps);
      RunKeepsSystem(s, init);
      StepKeepsSystem(Run(s, init), steps[|steps| - 1]);
    }
  }

  lemma RunsAreSound(steps: seq<Step>)
    requires DisciplinedRun(START, steps)
    ensures SystemSound(Run(START, steps))
  {
    assert START.engine.wire[..0] == [];
    RunKeepsSystem(START, steps);
  }

  /** In every disciplined run each audio frame on the wire follows the tts_start
      of its own generation, with nothing in between that ends that generation:
      no other tts_start, no tts_stop of it, no interrupted, paused, completed or
      cancelled broadcast; and the last state broadcast before it is SPEAKING. */
  lemma NoStaleFrameSent(steps: seq<Step>, i: nat)
    requires DisciplinedRun(START, steps)
    requires i < |Run(START, steps).engine.wire| && Run(START, steps).engine.wire[i].Audio?
    ensures var wire := Run(START, steps).engine.wire;
            LastState(wire[..i]).Speaking? && exists start :: HoldsSince(wire, start, i, wire[i].frame.origin)
  {
    RunsAreSound(steps);
    FramesBelong(Run(START, steps).engine.wire, i);
  }

  /** Once the server has broadcast a silencing state, no frame is sent before a
      tts_start whose generation exceeds every earlier one. */
  lemma SilenceHolds(steps: seq<Step>, i: nat, j: nat)
    requires DisciplinedRun(START, steps)
    requires var wire := Run(START, steps).engine.wire;
             i < j < |wire| && wire[i].State? && Silencing(wire[i].state) && wire[j].Audio?
    ensures var wire := Run(START, steps).engine.wire;
            exists k :: i < k < j && wire[k] == TtsStart(wire[j].frame.origin)
                        && forall h :: 0 <= h < k && wire[h].TtsStart? ==> wire[h].generation < wire[j].frame.origin
  {
    NoStaleFrameSent(steps, j);
    RunsAreSound(steps);
    SilenceLasts(Run(START, steps).engine.wire, i, j);
  }

  lemma SilenceLasts(wire: seq<ServerMsg>, i: nat, j: nat)
    requires Watch(wire).ok && i < j < |wire| && wire[i].State? && Silencing(wire[i].state) && wire[j].Audio?
    requires exists start :: HoldsSince(wire, start, j, wire[j].frame.origin)
    ensures exists k :: i < k < j && wire[k] == TtsStart(wire[j].frame.origin)
                        && forall h :: 0 <= h < k && wire[h].TtsStart? ==> wire[h].generation < wire[j].frame.origin
  {
    var k: nat :| HoldsSince(wire, k, j, wire[j].frame.origin);
    assert Ends(wire[i], wire[j].frame.origin);
    forall h | 0 <= h < k && wire[h].TtsStart? ensures wire[h].generation < wire[j].frame.origin {
      StartsIncrease(wire, h, k);
    }
  }

  /** The client schedules a frame only while its current generation is the one
      that synthesised the frame, although the frame does not say so. */
  lemma NoStaleFrameScheduled(steps: seq<Step>, id: nat)
    requires DisciplinedRun(START, steps) && id in Run(START, steps).accepted
    ensures var s := Run(START, steps);
            id < |s.engine.wire| && s.engine.wire[id].Audio? && s.accepted[id] == s.engine.wire[id].frame.origin
  {
    RunsAreSound(steps);
  }

  /** A pending playback is always that of the current generation, with no
      pipeline or answer in flight, and SPEAKING never waits without a timeout. */
  lemma PendingIsCurrent(steps: seq<Step>)
    requires DisciplinedRun(START, steps)
    ensures var e := Run(START, steps).engine;
            e.pending.Some? ==>
              && e.pending.value == e.generation && (e.state.Speaking? || e.state.Thinking?)
              && e.tasks.pipes == map[] && e.tasks.answers == map[]
              && (e.state.Speaking? ==> e.timer)
  {
    RunsAreSound(steps);
  }
}
