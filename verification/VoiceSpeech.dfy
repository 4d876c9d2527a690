/** Audio order in the whole protocol: what the wire carries for a generation is
    what its worker relayed, and `tts_stop` comes after all of it. */
module VoiceSpeech {
  import opened Wrappers
  import opened VoiceTypes
  import opened SpeechWorker
  import opened EngineSteps
  import opened VoiceProtocol
  import opened VoiceSafety
  import opened VoiceQuiet
  import opened VoiceRuns

  /** The audio sent for generation `g`, in order. */
  function FramesOf(wire: seq<ServerMsg>, g: nat): seq<Bytes> {
    if wire == [] then []
    else
      var last := wire[|wire| - 1];
      FramesOf(wire[..|wire| - 1], g) + if last.Audio? && last.frame.origin == g then [last.frame.pcm] else []
  }

  /** What the wire carries is what the workers relayed. */
  ghost predicate Relayed(wire: seq<ServerMsg>, workers: map<nat, Worker>) {
    && (forall g :: g in workers ==> Ordered(workers[g]) && FramesOf(wire, g) == workers[g].sent)
    && (forall g :: g !in workers ==> FramesOf(wire, g) == [])
    && (forall i :: 0 <= i < |wire| && wire[i].TtsStop? ==>
          wire[i].generation in workers && workers[wire[i].generation].sender == SenderDone(false))
  }

  /** The pipeline feeds a worker of its own that nothing has disturbed. */
  predicate PipeSpeech(workers: map<nat, Worker>, stage: Pipe) {
    match stage
    case Fresh => true
    case Numbered(g) => g !in workers
    case Thought(g) => g !in workers
    case Started(g) => g !in workers
    case Streaming(g) => g in workers && Unbroken(workers[g]) && !workers[g].closed
    case Asked(g) => g in workers && Unbroken(workers[g]) && !workers[g].closed
    case Awaiting(g) => g in workers && Unbroken(workers[g])
    case Stopped(_) => true
  }

  ghost predicate SpeechSound(e: Engine) {
    && Relayed(e.wire, e.tasks.workers)
    && (forall g :: g in e.tasks.workers ==> g <= e.generation)
    && (ThePipe(e.tasks).Some? ==> PipeSpeech(e.tasks.workers, ThePipe(e.tasks).value))
    && (e.running || e.receiver.Gone?)
  }

  lemma FramesSnoc(wire: seq<ServerMsg>, message: ServerMsg, g: nat)
    ensures FramesOf(wire + [message], g) ==
              FramesOf(wire, g) + if message.Audio? && message.frame.origin == g then [message.frame.pcm] else []
  {
    assert (wire + [message])[..|wire|] == wire;
  }

  lemma {:induction false} QuietFrames(before: seq<ServerMsg>, after: seq<ServerMsg>, g: nat)
    requires GrowsQuietly(before, after)
    ensures FramesOf(after, g) == FramesOf(before, g)
  {
    if |after| > |before| {
      QuietFrames(before, after[..|after| - 1], g);
      assert Quiet(after[|after| - 1]);
    } else {
      assert after == before;
    }
  }

  lemma QuietKeepsRelayed(wire: seq<ServerMsg>, after: seq<ServerMsg>, workers: map<nat, Worker>, workers': map<nat, Worker>)
    requires Relayed(wire, workers) && GrowsQuietly(wire, after) && SameSpeech(workers, workers')
    ensures Relayed(after, workers')
  {
    forall g ensures FramesOf(after, g) == FramesOf(wire, g) {
      QuietFrames(wire, after, g);
    }
    forall i | 0 <= i < |after| && after[i].TtsStop?
      ensures i < |wire| && after[i] == wire[i]
    {}
  }

  /** One worker changes without sending. */
  lemma WorkerKeepsRelayed(wire: seq<ServerMsg>, after: seq<ServerMsg>, workers: map<nat, Worker>, g: nat, w: Worker)
    requires Relayed(wire, workers) && GrowsQuietly(wire, after) && Ordered(w)
    requires if g in workers then w.sent == workers[g].sent && (workers[g].sender == SenderDone(false) ==> w.sender == SenderDone(false))
             else w.sent == []
    ensures Relayed(after, workers[g := w])
  {
    QuietKeepsRelayed(wire, after, workers, workers);
  }

  lemma SendKeepsRelayed(wire: seq<ServerMsg>, workers: map<nat, Worker>, g: nat)
    requires Relayed(wire, workers) && g in workers && workers[g].sender.Holding?
    ensures Relayed(wire + [Audio(Frame(g, workers[g].sender.pcm))], workers[g := Relay(workers[g])])
  {
    var message := Audio(Frame(g, workers[g].sender.pcm));
    RelayKeepsOrder(workers[g]);
    forall h ensures FramesOf(wire + [message], h) == FramesOf(wire, h) + if h == g then [message.frame.pcm] else [] {
      FramesSnoc(wire, message, h);
    }
    forall i | 0 <= i < |wire + [message]| && (wire + [message])[i].TtsStop?
      ensures i < |wire| && (wire + [message])[i] == wire[i]
    {}
  }

  lemma StopKeepsRelayed(wire: seq<ServerMsg>, workers: map<nat, Worker>, g: nat)
    requires Relayed(wire, workers) && g in workers && workers[g].sender == SenderDone(false)
    ensures Relayed(wire + [TtsStop(g)], workers)
  {
    forall h ensures FramesOf(wire + [TtsStop(g)], h) == FramesOf(wire, h) {
      FramesSnoc(wire, TtsStop(g), h);
    }
  }

  // -- every step keeps it ------------------------------------------------------------

  /** What the safety invariant says about the worker that may speak. */
  ghost predicate Fed(e: Engine) {
    && Linked(e.tasks)
    && (TheVoice(e.tasks).Some? ==>
          && TheVoice(e.tasks).value.generation == e.generation
          && ThePipe(e.tasks).Some? && FeedsWorker(ThePipe(e.tasks).value, e.generation))
    && (ThePipe(e.tasks).Some? && !ThePipe(e.tasks).value.Fresh? ==> ThePipe(e.tasks).value.generation == e.generation)
  }

  lemma QuietStepKeepsSpeech(e: Engine, after: Engine)
    requires SpeechSound(e) && e.running && Undisturbed(e, after)
    ensures SpeechSound(after)
  {
    QuietKeepsRelayed(e.wire, after.wire, e.tasks.workers, after.tasks.workers);
  }

  lemma PipeOpensSpeech(e: Engine, p: nat, segments: seq<string>, last: bool)
    requires Fed(e) && SpeechSound(e) && p in e.tasks.pipes
    requires e.tasks.pipes[p].Fresh? || e.tasks.pipes[p].Numbered? || e.tasks.pipes[p].Thought?
    ensures SpeechSound(PipeStep(e, p, segments, last))
  {
    var t, after := e.tasks, PipeStep(e, p, segments, last);
    PipeTasks(t, p, after.tasks.pipes[p]);
    assert GrowsQuietly(e.wire, after.wire);
    QuietKeepsRelayed(e.wire, after.wire, t.workers, t.workers);
  }

  lemma PipeSpawnsSpeech(e: Engine, p: nat)
    requires Fed(e) && SpeechSound(e) && p in e.tasks.pipes && e.tasks.pipes[p].Started?
    ensures SpeechSound(PipeStep(e, p, [], false))
  {
    PipeTasks(e.tasks, p, e.tasks.pipes[p]);
    WorkerKeepsRelayed(e.wire, e.wire, e.tasks.workers, e.tasks.pipes[p].generation, NEW_WORKER);
  }

  lemma PipePutsSpeech(e: Engine, p: nat, segments: seq<string>)
    requires Fed(e) && SpeechSound(e) && p in e.tasks.pipes && e.tasks.pipes[p].Streaming?
    ensures SpeechSound(PipeStep(e, p, segments, false))
  {
    var t, stage := e.tasks, e.tasks.pipes[p];
    var g := stage.generation;
    PipeTasks(t, p, stage);
    var w := Put(t.workers[g], segments);
    PutKeepsOrder(t.workers[g], segments);
    WorkerTasks(t, g, w);
    WorkerKeepsRelayed(e.wire, e.wire, t.workers, g, w);
  }

  /** The last tokens: the notice goes out and the pipeline moves on. */
  lemma PipeAsksSpeech(e: Engine, p: nat, segments: seq<string>)
    requires Fed(e) && SpeechSound(e) && p in e.tasks.pipes && e.tasks.pipes[p].Streaming?
    ensures SpeechSound(PipeStep(e, p, segments, true))
  {
    var t, stage := e.tasks, e.tasks.pipes[p];
    var g := stage.generation;
    PipeTasks(t, p, stage);
    var w := Put(t.workers[g], segments);
    PutKeepsOrder(t.workers[g], segments);
    WorkerTasks(t, g, w);
    PipeTasks(SetWorker(t, g, w), p, Asked(g));
    SendsAreQuiet(e.wire, Idle);
    WorkerKeepsRelayed(e.wire, e.wire + [Notice], t.workers, g, w);
  }

  lemma PipeMarksSpeech(e: Engine, p: nat, segments: seq<string>, last: bool)
    requires Fed(e) && SpeechSound(e) && p in e.tasks.pipes && e.tasks.pipes[p].Asked?
    ensures SpeechSound(PipeStep(e, p, segments, last))
  {
    var t, stage := e.tasks, e.tasks.pipes[p];
    var g := stage.generation;
    PipeTasks(t, p, stage);
    var w := Close(t.workers[g]);
    CloseKeepsOrder(t.workers[g]);
    WorkerTasks(t, g, w);
    PipeTasks(SetWorker(t, g, w), p, Awaiting(g));
    WorkerKeepsRelayed(e.wire, e.wire, t.workers, g, w);
  }

  /** The worker is done and the question still current: `tts_stop` goes out. */
  lemma PipeStopsSpeech(e: Engine, p: nat)
    requires Fed(e) && SpeechSound(e) && p in e.tasks.pipes && e.tasks.pipes[p].Awaiting?
    requires !Alive(e.tasks.workers[e.tasks.pipes[p].generation])
    ensures var g := e.tasks.pipes[p].generation;
            SpeechSound(Emit(e.(tasks := SetPipe(e.tasks, p, Stopped(g))), TtsStop(g)))
  {
    var g := e.tasks.pipes[p].generation;
    PipeTasks(e.tasks, p, Stopped(g));
    StopKeepsRelayed(e.wire, e.tasks.workers, g);
  }

  lemma PipeDropsSpeech(e: Engine, p: nat)
    requires Fed(e) && SpeechSound(e) && p in e.tasks.pipes
    ensures ThePipe(DropPipe(e.tasks, p)).None? && Relayed(e.wire, DropPipe(e.tasks, p).workers)
  {
    PipeTasks(e.tasks, p, e.tasks.pipes[p]);
  }

  lemma PipeAwaitsSpeech(e: Engine, p: nat)
    requires Fed(e) && SpeechSound(e) && p in e.tasks.pipes && e.tasks.pipes[p].Awaiting?
    ensures SpeechSound(PipeStep(e, p, [], false))
  {
    PipeDropsSpeech(e, p);
    PipeTasks(e.tasks, p, e.tasks.pipes[p]);
    if !Alive(e.tasks.workers[e.tasks.pipes[p].generation]) {
      PipeStopsSpeech(e, p);
    }
  }

  lemma PipeEndsSpeech(e: Engine, p: nat)
    requires Fed(e) && SpeechSound(e) && p in e.tasks.pipes && e.tasks.pipes[p].Stopped?
    ensures SpeechSound(PipeStep(e, p, [], false))
  {
    PipeDropsSpeech(e, p);
  }

  lemma PipeKeepsSpeech(e: Engine, p: nat, segments: seq<string>, last: bool)
    requires Fed(e) && SpeechSound(e) && p in e.tasks.pipes
    ensures SpeechSound(PipeStep(e, p, segments, last))
  {
    match e.tasks.pipes[p]
    case Started(_) => PipeSpawnsSpeech(e, p);
    case Streaming(_) =>
      if last { PipeAsksSpeech(e, p, segments); } else { PipePutsSpeech(e, p, segments); }
    case Asked(_) => PipeMarksSpeech(e, p, segments, last);
    case Awaiting(_) => PipeAwaitsSpeech(e, p);
    case Stopped(_) => PipeEndsSpeech(e, p);
    case _ => PipeOpensSpeech(e, p, segments, last);
  }

  /** A step of the live worker that sends no audio. */
  lemma WorkerKeepsSpeech(e: Engine, g: nat, next: Worker, after: Engine)
    requires Fed(e) && SpeechSound(e) && g in e.tasks.workers && Alive(e.tasks.workers[g])
    requires Ordered(next) && next.sent == e.tasks.workers[g].sent && next.closed == e.tasks.workers[g].closed
    requires (Unbroken(e.tasks.workers[g]) ==> Unbroken(next)) && (Alive(next) ==> Alive(e.tasks.workers[g]))
    requires e.tasks.workers[g].sender == SenderDone(false) ==> next.sender == SenderDone(false)
    requires GrowsQuietly(e.wire, after.wire) && after.tasks == SetWorker(e.tasks, g, next)
    requires after.generation == e.generation && after.running == e.running && after.receiver == e.receiver
    ensures SpeechSound(after)
  {
    WorkerTasks(e.tasks, g, next);
    WorkerKeepsRelayed(e.wire, after.wire, e.tasks.workers, g, next);
  }

  lemma LiveIsCurrent(e: Engine, g: nat)
    requires Fed(e) && SpeechSound(e) && g in e.tasks.workers && Alive(e.tasks.workers[g]) && !e.receiver.Gone?
    ensures Current(e, g)
  {}

  lemma ProducerKeepsSpeech(e: Engine, g: nat, outcome: seq<Bytes>)
    requires Fed(e) && SpeechSound(e) && g in e.tasks.workers && Alive(e.tasks.workers[g]) && !e.receiver.Gone?
    ensures SpeechSound(ProducerStep(e, g, outcome))
  {
    LiveIsCurrent(e, g);
    ProduceKeepsOrder(e.tasks.workers[g], true, outcome);
    ProduceIsLocal(e.tasks.workers[g], true, outcome);
    WorkerKeepsSpeech(e, g, Produce(e.tasks.workers[g], true, outcome), ProducerStep(e, g, outcome));
  }

  lemma SenderTakesSpeech(e: Engine, g: nat)
    requires Fed(e) && SpeechSound(e) && g in e.tasks.workers && Alive(e.tasks.workers[g]) && !e.receiver.Gone?
    requires e.tasks.workers[g].sender.Receiving? && e.tasks.workers[g].frames != []
    ensures SpeechSound(SenderStep(e, g))
  {
    LiveIsCurrent(e, g);
    TakeKeepsOrder(e.tasks.workers[g], true);
    WorkerKeepsSpeech(e, g, Take(e.tasks.workers[g], true), SenderStep(e, g));
  }

  lemma SenderAnnouncesSpeech(e: Engine, g: nat)
    requires Fed(e) && SpeechSound(e) && g in e.tasks.workers && Alive(e.tasks.workers[g])
    requires e.tasks.workers[g].sender.Holding? && !e.tasks.workers[g].announced
    ensures SpeechSound(SenderStep(e, g))
  {
    SendsAreQuiet(e.wire, Speaking);
    WorkerKeepsSpeech(e, g, e.tasks.workers[g].(announced := true), SenderStep(e, g));
  }

  lemma SenderSendsSpeech(e: Engine, g: nat)
    requires Fed(e) && SpeechSound(e) && g in e.tasks.workers && Alive(e.tasks.workers[g])
    requires e.tasks.workers[g].sender.Holding? && e.tasks.workers[g].announced
    ensures SpeechSound(SenderStep(e, g))
  {
    WorkerTasks(e.tasks, g, Relay(e.tasks.workers[g]));
    SendKeepsRelayed(e.wire, e.tasks.workers, g);
    var after := SenderStep(e, g);
    assert after.tasks.workers == e.tasks.workers[g := Relay(e.tasks.workers[g])];
    assert Relayed(after.wire, after.tasks.workers);
  }

  lemma SenderKeepsSpeech(e: Engine, g: nat)
    requires Fed(e) && SpeechSound(e) && g in e.tasks.workers && Alive(e.tasks.workers[g]) && !e.receiver.Gone?
    ensures SpeechSound(SenderStep(e, g))
  {
    var w := e.tasks.workers[g];
    if w.sender.Holding? {
      if w.announced { SenderSendsSpeech(e, g); } else { SenderAnnouncesSpeech(e, g); }
    } else if w.sender.Receiving? && w.frames != [] {
      SenderTakesSpeech(e, g);
    }
  }

  lemma ServerKeepsSpeech(e: Engine, head: Option<ClientMsg>, l: Step)
    requires EngineSound(e) && SpeechSound(e) && ServerStep(l) && !l.PipelineRaises?
    ensures SpeechSound(EngineAfter(e, head, l))
  {
    if !e.receiver.Gone? {
      assert Fed(e);
      if !OnSpeechPath(l) {
        OtherStepsAreQuiet(e, head, l);
        QuietStepKeepsSpeech(e, EngineAfter(e, head, l));
      } else if l.PipelineRuns? {
        if l.pipe in e.tasks.pipes { PipeKeepsSpeech(e, l.pipe, l.segments, l.last); }
      } else if l.generation in e.tasks.workers && Alive(e.tasks.workers[l.generation]) {
        if l.ProducerRuns? { ProducerKeepsSpeech(e, l.generation, l.outcome); } else { SenderKeepsSpeech(e, l.generation); }
      }
    }
  }

  lemma {:induction false} RunsKeepSpeech(steps: seq<Step>)
    requires DisciplinedRun(START, steps)
    ensures SpeechSound(Run(START, steps).engine)
  {
    if steps != [] {
      var init, l := steps[..|steps| - 1], steps[|steps| - 1];
      DisciplinedPrefix(START, steps);
      RunsKeepSpeech(init);
      RunsAreSound(init);
      var s := Run(START, init);
      if ServerStep(l) { ServerKeepsSpeech(s.engine, Head(s.up), l); }
    }
  }

  /** Audio order. In every disciplined run, for every question that got a worker,
      the audio on the wire is a prefix of the frames of its segments in order;
      a segment that failed counts with the frames it gave before failing. */
  lemma AudioIsInOrder(steps: seq<Step>, g: nat)
    requires DisciplinedRun(START, steps) && g in Run(START, steps).engine.tasks.workers
    ensures var e := Run(START, steps).engine;
            var w := e.tasks.workers[g];
            FramesOf(e.wire, g) <= Flatten(w.outcomes) && |w.outcomes| <= |w.given|
  {
    RunsKeepSpeech(steps);
  }

  /** A question whose tts_stop is on the wire was spoken completely: every
      segment was synthesised and every one of its frames was sent. */
  lemma StopMeansAllSent(steps: seq<Step>, i: nat)
    requires DisciplinedRun(START, steps)
    requires i < |Run(START, steps).engine.wire| && Run(START, steps).engine.wire[i].TtsStop?
    ensures var e := Run(START, steps).engine;
            var g := e.wire[i].generation;
            && g in e.tasks.workers && |e.tasks.workers[g].outcomes| == |e.tasks.workers[g].given|
            && FramesOf(e.wire, g) == Flatten(e.tasks.workers[g].outcomes)
  {
    RunsKeepSpeech(steps);
    var e := Run(START, steps).engine;
    EndedMeansAllSent(e.tasks.workers[e.wire[i].generation]);
  }
}
