/** The question without audio: THINKING has no way out of its own. */
module VoiceSilent {
  import opened Wrappers
  import opened VoiceTypes
  import opened SpeechWorker
  import opened EngineSteps
  import opened VoiceProtocol
  import opened VoiceSafety
  import opened VoiceQuiet
  import opened VoiceRuns
  import opened VoiceSpeech

  /** The question is out and the engine waits for its playback. */
  predicate Waiting(e: Engine) {
    e.state.Thinking? && !e.receiver.Gone? && (e.pending == Some(e.generation) || ThePipe(e.tasks) == Some(Stopped(e.generation)))
  }

  /** The candidate interrupts or pauses, or the session is left. */
  predicate Releases(e: Engine, head: Option<ClientMsg>, l: Step) {
    || (l.ServerReceives? && e.receiver.Ready? && head.Some?
        && (head.value.Interrupt? || head.value.Pause? || (head.value.Mic? && l.bargeIn)))
    || (l.ServerProceeds? && (e.receiver.Ending? || e.receiver.Leaving?))
  }

  predicate Released(e: Engine, after: Engine, released: bool) {
    if released then after.generation > e.generation else after.generation == e.generation && Waiting(after)
  }

  lemma MessageReleases(e: Engine, message: ClientMsg, bargeIn: bool)
    requires EngineSound(e) && Waiting(e) && e.receiver.Ready? && Admissible(e, message)
    ensures Released(e, OnMessage(e, message, bargeIn), Releases(e, Some(message), ServerReceives(bargeIn)))
  {}

  lemma ProceedReleases(e: Engine)
    requires EngineSound(e) && Waiting(e)
    ensures Released(e, Proceed(e), Releases(e, None, ServerProceeds))
  {}

  lemma BackgroundWaits(e: Engine, found: SessionOutcome)
    requires EngineSound(e) && Waiting(e)
    ensures SessionStep(e, found) == e && Waiting(PlaybackTimeout(e)) && PlaybackTimeout(e).generation == e.generation
    ensures Waiting(WatchdogEndsTurn(e)) && WatchdogEndsTurn(e).generation == e.generation && WatchdogCreates(e) == e
  {}

  lemma PipeWaits(e: Engine, p: nat, segments: seq<string>, last: bool)
    requires EngineSound(e) && Waiting(e) && p in e.tasks.pipes
    ensures Released(e, PipeStep(e, p, segments, last), false)
  {
    PipeTasks(e.tasks, p, e.tasks.pipes[p]);
  }

  /** Every step leaves a waiting engine waiting, unless it is one of the releases. */
  lemma StepReleases(e: Engine, head: Option<ClientMsg>, l: Step)
    requires EngineSound(e) && Waiting(e) && ServerStep(l) && !l.PipelineRaises?
    requires l.ServerReceives? && e.receiver.Ready? && head.Some? ==> Admissible(e, head.value)
    ensures Released(e, EngineAfter(e, head, l), Releases(e, head, l))
  {
    match l
    case ServerReceives(bargeIn) =>
      if e.receiver.Ready? && head.Some? { MessageReleases(e, head.value, bargeIn); }
    case ServerProceeds => ProceedReleases(e);
    case SessionRuns(found) => BackgroundWaits(e, found);
    case TimerFires => BackgroundWaits(e, Begins);
    case WatchdogDecides => BackgroundWaits(e, Begins);
    case WatchdogCreatesTask => BackgroundWaits(e, Begins);
    case PipelineRuns(p, segments, last) => if p in e.tasks.pipes { PipeWaits(e, p, segments, last); }
    case ProducerRuns(g, _) => if g in e.tasks.workers { WorkerTasks(e.tasks, g, e.tasks.workers[g]); }
    case SenderRuns(g) => if g in e.tasks.workers { WorkerTasks(e.tasks, g, e.tasks.workers[g]); }
    case AnswerRuns(a, reply) => if a in e.tasks.answers { AnswerTasks(e.tasks, a, e.tasks.answers[a]); }
  }

  // -- a question without audio never gets to SPEAKING ------------------------------------

  /** A worker that announced SPEAKING had a frame to send. */
  ghost predicate Spoke(workers: map<nat, Worker>) {
    forall g :: g in workers && workers[g].announced ==> workers[g].sent != [] || workers[g].sender.Holding?
  }

  /** SPEAKING was announced by the worker of the current generation. */
  predicate Announced(e: Engine) {
    e.state.Speaking? && !e.receiver.Gone? ==> e.generation in e.tasks.workers && e.tasks.workers[e.generation].announced
  }

  predicate Unspoken(e: Engine) {
    TtsStop(e.generation) in e.wire && e.generation in e.tasks.workers && e.tasks.workers[e.generation].sent == []
  }

  ghost predicate SilentSound(e: Engine) {
    Spoke(e.tasks.workers) && Announced(e) && (Unspoken(e) && !e.receiver.Gone? ==> Waiting(e))
  }

  // -- steps away from the speech path ------------------------------------------------

  lemma QuietSpoke(e: Engine, after: Engine)
    requires Spoke(e.tasks.workers) && Undisturbed(e, after)
    ensures Spoke(after.tasks.workers)
  {}

  /** Only a sender announces SPEAKING, and whoever leaves a generation leaves SPEAKING. */
  predicate NoNewSpeaker(e: Engine, after: Engine) {
    after.state.Speaking? && !after.receiver.Gone? ==> e.state.Speaking? && after.generation == e.generation
  }

  lemma MessageNoNewSpeaker(e: Engine, message: ClientMsg, bargeIn: bool)
    ensures NoNewSpeaker(e, OnMessage(e, message, bargeIn))
  {}

  lemma ProceedNoNewSpeaker(e: Engine)
    requires EngineSound(e)
    ensures NoNewSpeaker(e, Proceed(e))
  {
    if e.receiver.Ending? {
      assert Proceed(e).state == e.receiver.last;
    } else if !e.receiver.Leaving? {
      assert Proceed(e).generation == e.generation;
    }
  }

  lemma TasksNoNewSpeaker(e: Engine, found: SessionOutcome)
    ensures NoNewSpeaker(e, SessionStep(e, found))
    ensures NoNewSpeaker(e, PlaybackTimeout(e)) && NoNewSpeaker(e, WatchdogEndsTurn(e)) && NoNewSpeaker(e, WatchdogCreates(e))
  {}

  lemma AnswerNoNewSpeaker(e: Engine, a: nat, reply: AnswerOutcome)
    requires a in e.tasks.answers
    ensures NoNewSpeaker(e, AnswerStep(e, a, reply))
  {}

  lemma OthersNoNewSpeaker(e: Engine, head: Option<ClientMsg>, l: Step)
    requires EngineSound(e) && ServerStep(l) && !OnSpeechPath(l)
    ensures NoNewSpeaker(e, EngineAfter(e, head, l))
  {
    match l
    case ServerReceives(bargeIn) => if head.Some? { MessageNoNewSpeaker(e, head.value, bargeIn); }
    case ServerProceeds => ProceedNoNewSpeaker(e);
    case SessionRuns(found) => TasksNoNewSpeaker(e, found);
    case AnswerRuns(a, reply) => if a in e.tasks.answers { AnswerNoNewSpeaker(e, a, reply); }
    case _ => TasksNoNewSpeaker(e, Begins);
  }

  lemma QuietKeepsSilent(e: Engine, head: Option<ClientMsg>, l: Step)
    requires EngineSound(e) && SpeechSound(e) && SilentSound(e) && !e.receiver.Gone? && ServerStep(l) && !OnSpeechPath(l)
    requires l.ServerReceives? && e.receiver.Ready? && head.Some? ==> Admissible(e, head.value)
    ensures SilentSound(EngineAfter(e, head, l))
  {
    var after := EngineAfter(e, head, l);
    OtherStepsAreQuiet(e, head, l);
    QuietSpoke(e, after);
    OthersNoNewSpeaker(e, head, l);
    if Unspoken(after) {
      assert TtsStop(after.generation) in e.wire;
      StillWaiting(e, head, l);
    }
  }

  /** A question whose stop is on the wire is still waiting, or the generation has moved on. */
  lemma StillWaiting(e: Engine, head: Option<ClientMsg>, l: Step)
    requires EngineSound(e) && SilentSound(e) && !e.receiver.Gone? && ServerStep(l) && !l.PipelineRaises?
    requires l.ServerReceives? && e.receiver.Ready? && head.Some? ==> Admissible(e, head.value)
    requires Unspoken(e)
    ensures var after := EngineAfter(e, head, l); after.generation == e.generation ==> Waiting(after)
  {
    StepReleases(e, head, l);
  }

  // -- the speech path -----------------------------------------------------------------

  predicate SpokeTruly(w: Worker) {
    w.announced ==> w.sent != [] || w.sender.Holding?
  }

  /** One worker moves on, in an engine that keeps its generation. */
  lemma MoveKeepsSilent(e: Engine, after: Engine, g: nat, w: Worker)
    requires EngineSound(e) && SpeechSound(e) && SilentSound(e) && !e.receiver.Gone?
    requires after.generation == e.generation && (after.state == e.state || (after.state.Speaking? && g == e.generation && w.announced))
    requires g in e.tasks.workers && after.tasks.workers == e.tasks.workers[g := w] && SpokeTruly(w)
    requires (e.tasks.workers[g].announced ==> w.announced) && (w.sent == [] ==> e.tasks.workers[g].sent == [])
    requires TtsStop(after.generation) in after.wire ==> TtsStop(after.generation) in e.wire
    requires Waiting(e) ==> Waiting(after)
    ensures SilentSound(after)
  {}

  lemma ProducerKeepsSilent(e: Engine, g: nat, outcome: seq<Bytes>)
    requires EngineSound(e) && SpeechSound(e) && SilentSound(e) && !e.receiver.Gone?
    requires g in e.tasks.workers && Alive(e.tasks.workers[g])
    ensures SilentSound(ProducerStep(e, g, outcome))
  {
    var w := Produce(e.tasks.workers[g], Current(e, g), outcome);
    ProduceIsLocal(e.tasks.workers[g], Current(e, g), outcome);
    MoveKeepsSilent(e, ProducerStep(e, g, outcome), g, w);
  }

  lemma SenderKeepsSilent(e: Engine, g: nat)
    requires EngineSound(e) && SpeechSound(e) && SilentSound(e) && !e.receiver.Gone?
    requires g in e.tasks.workers && Alive(e.tasks.workers[g])
    ensures SilentSound(SenderStep(e, g))
  {
    var w, after := e.tasks.workers[g], SenderStep(e, g);
    WorkerTasks(e.tasks, g, w);
    match w.sender
    case Receiving =>
      if w.frames != [] { MoveKeepsSilent(e, after, g, Take(w, Current(e, g))); }
    case Holding(_) =>
      if w.announced { MoveKeepsSilent(e, after, g, Relay(w)); }
      else { MoveKeepsSilent(e, after, g, w.(announced := true)); }
    case SenderDone(_) =>
  }

  lemma PipeOpensSilent(e: Engine, p: nat, segments: seq<string>, last: bool)
    requires EngineSound(e) && SpeechSound(e) && SilentSound(e) && !e.receiver.Gone? && p in e.tasks.pipes
    requires e.tasks.pipes[p].Fresh? || e.tasks.pipes[p].Numbered? || e.tasks.pipes[p].Thought?
    ensures SilentSound(PipeStep(e, p, segments, last))
  {
    PipeTasks(e.tasks, p, e.tasks.pipes[p]);
  }

  lemma PipeSpawnsSilent(e: Engine, p: nat)
    requires EngineSound(e) && SpeechSound(e) && SilentSound(e) && !e.receiver.Gone? && p in e.tasks.pipes
    requires e.tasks.pipes[p].Started?
    ensures SilentSound(PipeStep(e, p, [], false))
  {
    PipeTasks(e.tasks, p, e.tasks.pipes[p]);
  }

  lemma PipeFeedsSilent(e: Engine, p: nat, segments: seq<string>, last: bool)
    requires EngineSound(e) && SpeechSound(e) && SilentSound(e) && !e.receiver.Gone? && p in e.tasks.pipes
    requires e.tasks.pipes[p].Streaming? || e.tasks.pipes[p].Asked?
    ensures SilentSound(PipeStep(e, p, segments, last))
  {
    PipeTasks(e.tasks, p, e.tasks.pipes[p]);
    var g, after := e.tasks.pipes[p].generation, PipeStep(e, p, segments, last);
    MoveKeepsSilent(e, after, g, after.tasks.workers[g]);
  }

  lemma PipeStopsSilent(e: Engine, p: nat)
    requires EngineSound(e) && SpeechSound(e) && SilentSound(e) && !e.receiver.Gone? && p in e.tasks.pipes
    requires e.tasks.pipes[p].Awaiting? || e.tasks.pipes[p].Stopped?
    ensures SilentSound(PipeStep(e, p, [], false))
  {
    PipeTasks(e.tasks, p, Stopped(e.generation));
    if e.tasks.pipes[p].Stopped? { StillWaitingAfter(e, p); }
  }

  lemma StillWaitingAfter(e: Engine, p: nat)
    requires EngineSound(e) && SilentSound(e) && !e.receiver.Gone? && p in e.tasks.pipes && e.tasks.pipes[p].Stopped?
    ensures Unspoken(e) ==> Waiting(PipeStep(e, p, [], false))
  {
    PipeTasks(e.tasks, p, e.tasks.pipes[p]);
  }

  lemma ServerKeepsSilent(e: Engine, head: Option<ClientMsg>, l: Step)
    requires EngineSound(e) && SpeechSound(e) && SilentSound(e) && ServerStep(l) && !l.PipelineRaises?
    requires l.ServerReceives? && e.receiver.Ready? && head.Some? ==> Admissible(e, head.value)
    ensures SilentSound(EngineAfter(e, head, l))
  {
    if !e.receiver.Gone? {
      match l
      case PipelineRuns(p, segments, last) =>
        if p in e.tasks.pipes { PipeKeepsSilent(e, p, segments, last); }
      case ProducerRuns(g, outcome) =>
        if g in e.tasks.workers && Alive(e.tasks.workers[g]) { ProducerKeepsSilent(e, g, outcome); }
      case SenderRuns(g) =>
        if g in e.tasks.workers && Alive(e.tasks.workers[g]) { SenderKeepsSilent(e, g); }
      case _ => QuietKeepsSilent(e, head, l);
    }
  }

  lemma PipeKeepsSilent(e: Engine, p: nat, segments: seq<string>, last: bool)
    requires EngineSound(e) && SpeechSound(e) && SilentSound(e) && !e.receiver.Gone? && p in e.tasks.pipes
    ensures SilentSound(PipeStep(e, p, segments, last))
  {
    match e.tasks.pipes[p]
    case Started(_) => PipeSpawnsSilent(e, p);
    case Streaming(_) => PipeFeedsSilent(e, p, segments, last);
    case Asked(_) => PipeFeedsSilent(e, p, segments, last);
    case Awaiting(_) => PipeStopsSilent(e, p);
    case Stopped(_) => PipeStopsSilent(e, p);
    case _ => PipeOpensSilent(e, p, segments, last);
  }

  lemma {:induction false} RunsKeepSilent(steps: seq<Step>)
    requires DisciplinedRun(START, steps)
    ensures SilentSound(Run(START, steps).engine)
  {
    if steps != [] {
      var init, l := steps[..|steps| - 1], steps[|steps| - 1];
      DisciplinedPrefix(START, steps);
      RunsKeepSilent(init);
      RunsAreSound(init);
      RunsKeepSpeech(init);
      var s := Run(START, init);
      if ServerStep(l) { ServerKeepsSilent(s.engine, Head(s.up), l); }
    }
  }

  lemma SilentIsWaiting(e: Engine)
    requires SpeechSound(e) && SilentSound(e) && !e.receiver.Gone? && TtsStop(e.generation) in e.wire
    requires e.generation in e.tasks.workers && Flatten(e.tasks.workers[e.generation].outcomes) == []
    ensures Waiting(e)
  {
    var i :| 0 <= i < |e.wire| && e.wire[i] == TtsStop(e.generation);
    EndedMeansAllSent(e.tasks.workers[e.generation]);
  }

  lemma WaitingStays(s: System, l: Step)
    requires EngineSound(s.engine) && Waiting(s.engine) && Disciplined(s, l)
    ensures var next := Apply(s, l).engine;
            (next.state.Thinking? && next.generation == s.engine.generation)
            <==> !(ServerStep(l) && Releases(s.engine, Head(s.up), l))
  {
    if ServerStep(l) { StepReleases(s.engine, Head(s.up), l); }
  }

  /** A question without audio. When the tts_stop of the current question is on the
      wire and no segment of it gave a frame, the engine is in THINKING; and the next
      step, whichever it is, leaves it in THINKING with that question unless it is an
      interrupt, a pause, a barge-in, or the end of a stop or cancel. */
  lemma SilentQuestionStays(steps: seq<Step>, l: Step)
    requires DisciplinedRun(START, steps) && Disciplined(Run(START, steps), l)
    requires var e := Run(START, steps).engine;
             && !e.receiver.Gone? && TtsStop(e.generation) in e.wire
             && e.generation in e.tasks.workers && Flatten(e.tasks.workers[e.generation].outcomes) == []
    ensures var s := Run(START, steps);
            var next := Apply(s, l).engine;
            && s.engine.state.Thinking?
            && ((next.state.Thinking? && next.generation == s.engine.generation)
                <==> !(ServerStep(l) && Releases(s.engine, Head(s.up), l)))
  {
    var s := Run(START, steps);
    RunsAreSound(steps);
    RunsKeepSpeech(steps);
    RunsKeepSilent(steps);
    SilentIsWaiting(s.engine);
    WaitingStays(s, l);
  }
}
