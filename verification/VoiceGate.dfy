/** The generation check before each send, in every run whatsoever: once the engine has
    moved on to another generation, at most the one frame in hand still goes out. */
module VoiceGate {
  import opened Wrappers
  import opened VoiceTypes
  import opened SpeechWorker
  import opened EngineSteps
  import opened VoiceProtocol
  import opened VoiceQuiet
  import opened VoiceSpeech

  lemma GenerationGrows(s: System, l: Step)
    ensures Apply(s, l).engine.generation >= s.engine.generation
  {
    if ServerStep(l) {
      if !OnSpeechPath(l) {
        OtherStepsAreQuiet(s.engine, Head(s.up), l);
      } else if l.PipelineRuns? && l.pipe in s.engine.tasks.pipes {
        PipeGenerationGrows(s.engine, l.pipe, l.segments, l.last);
      } else if l.SenderRuns? && l.generation in s.engine.tasks.workers {
        SenderKeepsGeneration(s.engine, l.generation);
      }
    }
  }

  lemma PipeGenerationGrows(e: Engine, p: nat, segments: seq<string>, last: bool)
    requires p in e.tasks.pipes
    ensures PipeStep(e, p, segments, last).generation >= e.generation
  {}

  lemma SenderKeepsGeneration(e: Engine, g: nat)
    requires g in e.tasks.workers
    ensures SenderStep(e, g).generation == e.generation
  {}

  /** The frame the sender of generation `g` has in hand, as a list of at most one. */
  function InSenderHand(e: Engine, g: nat): seq<Bytes> {
    if g in e.tasks.workers then Held(e.tasks.workers[g].sender) else []
  }

  /** What is out for `g`, and what could still come, at a moment when `g` is over. */
  predicate NoMoreThan(e: Engine, g: nat, sent: seq<Bytes>, held: seq<Bytes>) {
    || (FramesOf(e.wire, g) == sent && (InSenderHand(e, g) == held || InSenderHand(e, g) == []))
    || (FramesOf(e.wire, g) == sent + held && InSenderHand(e, g) == [])
  }

  /** The step sends no frame of `g` and puts none into its sender's hand. */
  predicate LeavesFrames(e: Engine, after: Engine, g: nat) {
    && FramesOf(after.wire, g) == FramesOf(e.wire, g)
    && (InSenderHand(after, g) == InSenderHand(e, g) || InSenderHand(after, g) == [])
  }

  lemma QuietLeavesFrames(e: Engine, after: Engine, g: nat)
    requires GrowsQuietly(e.wire, after.wire) && SameSpeech(e.tasks.workers, after.tasks.workers)
    ensures LeavesFrames(e, after, g)
  {
    QuietFrames(e.wire, after.wire, g);
    assert g in e.tasks.workers ==> after.tasks.workers[g].(killed := e.tasks.workers[g].killed) == e.tasks.workers[g];
  }

  /** A message that is not a frame. */
  lemma MessageLeavesFrames(wire: seq<ServerMsg>, message: ServerMsg, g: nat)
    requires !message.Audio?
    ensures FramesOf(wire + [message], g) == FramesOf(wire, g)
  {
    FramesSnoc(wire, message, g);
  }

  lemma PipeSaysNoFrame(e: Engine, p: nat, segments: seq<string>, last: bool)
    requires p in e.tasks.pipes
    ensures var after := PipeStep(e, p, segments, last).wire;
            after == e.wire || (after != [] && after == e.wire + [after[|after| - 1]] && !after[|after| - 1].Audio?)
  {
    match e.tasks.pipes[p]
    case Awaiting(_) => PipeEndSaysNoFrame(e, p, segments, last);
    case Stopped(_) => PipeEndSaysNoFrame(e, p, segments, last);
    case _ =>
  }

  lemma PipeEndSaysNoFrame(e: Engine, p: nat, segments: seq<string>, last: bool)
    requires p in e.tasks.pipes && (e.tasks.pipes[p].Awaiting? || e.tasks.pipes[p].Stopped?)
    ensures var after := PipeStep(e, p, segments, last).wire;
            after == e.wire || (after != [] && after == e.wire + [after[|after| - 1]] && !after[|after| - 1].Audio?)
  {}

  /** A new worker has empty hands; segments and their end leave the sender alone. */
  lemma PipeKeepsHands(e: Engine, p: nat, segments: seq<string>, last: bool, g: nat)
    requires p in e.tasks.pipes
    ensures var hand := InSenderHand(PipeStep(e, p, segments, last), g); hand == InSenderHand(e, g) || hand == []
  {
    var stage := e.tasks.pipes[p];
    if stage.Started? {
      StartKeepsHands(e, p, segments, last, g);
    } else if stage.Streaming? || stage.Asked? {
      FeedKeepsHands(e, p, segments, last, g);
    } else {
      WaitKeepsHands(e, p, segments, last, g);
    }
  }

  lemma StartKeepsHands(e: Engine, p: nat, segments: seq<string>, last: bool, g: nat)
    requires p in e.tasks.pipes && e.tasks.pipes[p].Started?
    ensures var hand := InSenderHand(PipeStep(e, p, segments, last), g); hand == InSenderHand(e, g) || hand == []
  {}

  lemma FeedKeepsHands(e: Engine, p: nat, segments: seq<string>, last: bool, g: nat)
    requires p in e.tasks.pipes && (e.tasks.pipes[p].Streaming? || e.tasks.pipes[p].Asked?)
    ensures InSenderHand(PipeStep(e, p, segments, last), g) == InSenderHand(e, g)
  {}

  lemma WaitKeepsHands(e: Engine, p: nat, segments: seq<string>, last: bool, g: nat)
    requires p in e.tasks.pipes
    requires !e.tasks.pipes[p].Started? && !e.tasks.pipes[p].Streaming? && !e.tasks.pipes[p].Asked?
    ensures InSenderHand(PipeStep(e, p, segments, last), g) == InSenderHand(e, g)
  {}

  lemma PipeLeavesFrames(e: Engine, p: nat, segments: seq<string>, last: bool, g: nat)
    requires p in e.tasks.pipes
    ensures LeavesFrames(e, PipeStep(e, p, segments, last), g)
  {
    var after := PipeStep(e, p, segments, last);
    PipeSaysNoFrame(e, p, segments, last);
    PipeKeepsHands(e, p, segments, last, g);
    if after.wire != e.wire { MessageLeavesFrames(e.wire, after.wire[|after.wire| - 1], g); }
  }

  lemma RaisingLeavesFrames(e: Engine, p: nat, g: nat)
    requires p in e.tasks.pipes
    ensures LeavesFrames(e, PipeFails(e, p), g)
  {
    MessageLeavesFrames(e.wire, Notice, g);
    MessageLeavesFrames(e.wire + [Notice], State(Listening), g);
  }

  lemma ProducerLeavesFrames(e: Engine, h: nat, outcome: seq<Bytes>, g: nat)
    requires h in e.tasks.workers
    ensures LeavesFrames(e, ProducerStep(e, h, outcome), g)
  {
    ProduceIsLocal(e.tasks.workers[h], Current(e, h), outcome);
  }

  /** A sender whose generation is over takes nothing into its hand. */
  lemma TakeLeavesFrames(e: Engine, h: nat, g: nat)
    requires h in e.tasks.workers && !e.tasks.workers[h].sender.Holding? && !Current(e, g)
    ensures LeavesFrames(e, SenderStep(e, h), g)
  {}

  lemma AnnounceLeavesFrames(e: Engine, h: nat, g: nat)
    requires h in e.tasks.workers && e.tasks.workers[h].sender.Holding? && !e.tasks.workers[h].announced
    ensures LeavesFrames(e, SenderStep(e, h), g)
  {
    MessageLeavesFrames(e.wire, State(Speaking), g);
  }

  lemma OtherSenderLeavesFrames(e: Engine, h: nat, g: nat)
    requires h in e.tasks.workers && e.tasks.workers[h].sender.Holding? && e.tasks.workers[h].announced && h != g
    ensures LeavesFrames(e, SenderStep(e, h), g)
  {
    FramesSnoc(e.wire, Audio(Frame(h, e.tasks.workers[h].sender.pcm)), g);
  }

  /** What it has in hand, it sends. */
  lemma OwnFrameGoesOut(e: Engine, g: nat)
    requires g in e.tasks.workers && e.tasks.workers[g].sender.Holding? && e.tasks.workers[g].announced
    ensures var after := SenderStep(e, g);
            FramesOf(after.wire, g) == FramesOf(e.wire, g) + InSenderHand(e, g) && InSenderHand(after, g) == []
  {
    FramesSnoc(e.wire, Audio(Frame(g, e.tasks.workers[g].sender.pcm)), g);
  }

  lemma SenderGate(e: Engine, h: nat, g: nat, sent: seq<Bytes>, held: seq<Bytes>)
    requires h in e.tasks.workers && !Current(e, g) && NoMoreThan(e, g, sent, held)
    ensures NoMoreThan(SenderStep(e, h), g, sent, held)
  {
    var w := e.tasks.workers[h];
    if !w.sender.Holding? {
      TakeLeavesFrames(e, h, g);
    } else if !w.announced {
      AnnounceLeavesFrames(e, h, g);
    } else if h != g {
      OtherSenderLeavesFrames(e, h, g);
    } else {
      OwnFrameGoesOut(e, g);
    }
  }

  lemma SpeechStepSendsNoMore(e: Engine, head: Option<ClientMsg>, l: Step, g: nat, sent: seq<Bytes>, held: seq<Bytes>)
    requires !Current(e, g) && NoMoreThan(e, g, sent, held) && ServerStep(l) && OnSpeechPath(l) && !e.receiver.Gone?
    ensures NoMoreThan(EngineAfter(e, head, l), g, sent, held)
  {
    if l.PipelineRuns? {
      if l.pipe in e.tasks.pipes { PipeLeavesFrames(e, l.pipe, l.segments, l.last, g); }
    } else if l.PipelineRaises? {
      if l.pipe in e.tasks.pipes { RaisingLeavesFrames(e, l.pipe, g); }
    } else if l.generation in e.tasks.workers && Alive(e.tasks.workers[l.generation]) {
      if l.ProducerRuns? { ProducerLeavesFrames(e, l.generation, l.outcome, g); }
      else { SenderGate(e, l.generation, g, sent, held); }
    }
  }

  lemma OverStepSendsNoMore(s: System, l: Step, g: nat, sent: seq<Bytes>, held: seq<Bytes>)
    requires !Current(s.engine, g) && NoMoreThan(s.engine, g, sent, held)
    ensures NoMoreThan(Apply(s, l).engine, g, sent, held)
  {
    if ServerStep(l) && !s.engine.receiver.Gone? {
      if OnSpeechPath(l) {
        SpeechStepSendsNoMore(s.engine, Head(s.up), l, g, sent, held);
      } else {
        OtherStepsAreQuiet(s.engine, Head(s.up), l);
        QuietLeavesFrames(s.engine, EngineAfter(s.engine, Head(s.up), l), g);
      }
    }
  }

  /** Stale audio is dropped before it is sent. In every run, whatever the peer or the
      scheduler does, once the generation has moved past `g` the frames of `g` on the wire
      are those already there and, at most, the one its sender then had in hand. */
  lemma {:induction false} OverSendsAtMostOne(s: System, more: seq<Step>, g: nat)
    requires s.engine.generation > g
    ensures var sent, held := FramesOf(s.engine.wire, g), InSenderHand(s.engine, g);
            var after := FramesOf(Run(s, more).engine.wire, g);
            (after == sent || after == sent + held) && |held| <= 1
    ensures NoMoreThan(Run(s, more).engine, g, FramesOf(s.engine.wire, g), InSenderHand(s.engine, g))
    ensures Run(s, more).engine.generation > g
    decreases |more|
  {
    if more != [] {
      var init := more[..|more| - 1];
      OverSendsAtMostOne(s, init, g);
      GenerationGrows(Run(s, init), more[|more| - 1]);
      OverStepSendsNoMore(Run(s, init), more[|more| - 1], g, FramesOf(s.engine.wire, g), InSenderHand(s.engine, g));
    }
  }
}
