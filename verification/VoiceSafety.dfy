/** The invariant behind "stale audio is never sent": what every disciplined step
    of the engine keeps. */
module VoiceSafety {
  import opened Wrappers
  import opened VoiceTypes
  import opened SpeechWorker
  import opened EngineSteps
  import opened VoiceProtocol
  import opened VoiceMonitor

  // -- the tasks behind the engine's handles -------------------------------------

  /** A speech worker that can still send. */
  datatype Voice = Voice(generation: nat, announced: bool)

  function ThePipe(t: Tasks): Option<Pipe> {
    if t.ttsTask.Some? && t.ttsTask.value in t.pipes then Some(t.pipes[t.ttsTask.value]) else None
  }

  function TheAnswer(t: Tasks): Option<Answer> {
    if AnswerAlive(t) then Some(t.answers[t.answerTask.value]) else None
  }

  function TheVoice(t: Tasks): Option<Voice> {
    if t.speechTask.Some? && t.speechTask.value in t.workers && Alive(t.workers[t.speechTask.value])
    then Some(Voice(t.speechTask.value, t.workers[t.speechTask.value].announced)) else None
  }

  /** No live task escapes its handle, so cancelling the handles cancels everything. */
  ghost predicate Linked(t: Tasks) {
    && (forall p :: p in t.pipes ==> t.ttsTask == Some(p))
    && (forall a :: a in t.answers ==> t.answerTask == Some(a))
    && (forall g :: g in t.workers && Alive(t.workers[g]) ==> t.speechTask == Some(g))
  }

  ghost predicate TasksAre(t: Tasks, p: Option<Pipe>, a: Option<Answer>, v: Option<Voice>) {
    Linked(t) && ThePipe(t) == p && TheAnswer(t) == a && TheVoice(t) == v
  }

  // -- what holds between steps ----------------------------------------------------

  predicate FeedsWorker(p: Pipe, g: nat) {
    p == Streaming(g) || p == Asked(g) || p == Awaiting(g)
  }

  predicate Resting(s: VoiceState) {
    s.Listening? || s.Paused? || s.Interrupted?
  }

  predicate Voiced(s: VoiceState) {
    s.Thinking? || s.Speaking?
  }

  /** The stage of the pipeline fixes the generation, what the wire has announced and the state. */
  predicate PipeSound(e: Engine, m: Monitor, p: Pipe, v: Option<Voice>) {
    match p
    case Fresh => v.None? && !Voiced(e.state)
    case Numbered(g) => v.None? && g == e.generation && m.top < g
    case Thought(g) => v.None? && g == e.generation && m.top < g && Voiced(e.state)
    case Started(g) => v.None? && g == e.generation == m.live && !m.stopped && Voiced(e.state)
    case Stopped(g) => v.None? && g == e.generation && Voiced(e.state)
    case _ => p.generation == e.generation == m.live && !m.stopped && Voiced(e.state)
  }

  /** The invariant, given what the monitor has seen and which tasks are alive. */
  predicate Good(e: Engine, m: Monitor, p: Option<Pipe>, a: Option<Answer>, v: Option<Voice>) {
    && m.ok && m.state == e.state && m.top <= e.generation && m.live <= m.top
    // tasks
    && (p.Some? ==> a.None? && e.session.SessionDone? && !Resting(e.state) && PipeSound(e, m, p.value, v))
    && (v.Some? ==> p.Some? && v.value.generation == e.generation && FeedsWorker(p.value, e.generation)
                    && (v.value.announced ==> e.state == Speaking))
    && (a.Some? ==> e.session.SessionDone? && (a.value.Created? || !(Resting(e.state) || Voiced(e.state))))
    && (!e.session.SessionDone? ==> !Resting(e.state) && !Voiced(e.state))
    // a pending generation is the current one, and while SPEAKING the timeout is armed
    && (e.pending.Some? ==> p.None? && a.None? && e.session.SessionDone? && Voiced(e.state)
                            && e.pending.value == e.generation && (e.state == Speaking ==> e.timer))
    // an engine that thinks or speaks has a question in hand, a silenced one has none announced
    && (Voiced(e.state) ==> p.Some? || e.pending.Some? || e.receiver.Gone?)
    && (Silencing(e.state) ==> m.live == -1)
    // a turn that is ending, or the receive loop in the middle of a message
    && (e.finalizing > 0 || e.receiver.FinishTurn? || e.receiver.Reopen? ==>
          p.None? && a.None? && e.session.SessionDone? && e.pending.None?)
    && (e.receiver.FinishTurn? || e.receiver.Reopen? ==> e.finalizing == 0 && !e.watchdog)
    && e.finalizing <= 1
    && (e.receiver.Ending? ==> e.receiver.last.Completed? || e.receiver.last.Cancelled?)
  }

  ghost predicate EngineSound(e: Engine) {
    && Linked(e.tasks)
    && Good(e, Watch(e.wire), ThePipe(e.tasks), TheAnswer(e.tasks), TheVoice(e.tasks))
  }

  // -- tasks ------------------------------------------------------------------------

  lemma CancelledTasks(t: Tasks)
    requires Linked(t)
    ensures TasksAre(WithoutTts(t), None, TheAnswer(t), None)
    ensures TasksAre(WithoutAnswer(WithoutTts(t)), None, None, None)
  {}

  lemma WithPipeTasks(t: Tasks)
    requires Linked(t) && ThePipe(t).None?
    ensures TasksAre(WithPipe(t), Some(Fresh), TheAnswer(t), TheVoice(t))
  {}

  lemma WithAnswerTasks(t: Tasks)
    requires Linked(t) && TheAnswer(t).None?
    ensures TasksAre(WithAnswer(t), ThePipe(t), Some(Created), TheVoice(t))
  {}

  lemma PipeTasks(t: Tasks, p: nat, stage: Pipe)
    requires Linked(t) && p in t.pipes
    ensures ThePipe(t) == Some(t.pipes[p])
    ensures TasksAre(SetPipe(t, p, stage), Some(stage), TheAnswer(t), TheVoice(t))
    ensures TasksAre(DropPipe(t, p), None, TheAnswer(t), TheVoice(t))
  {}

  lemma AnswerTasks(t: Tasks, a: nat, stage: Answer)
    requires Linked(t) && a in t.answers
    ensures TheAnswer(t) == Some(t.answers[a])
    ensures TasksAre(SetAnswer(t, a, stage), ThePipe(t), Some(stage), TheVoice(t))
    ensures TasksAre(DropAnswer(t, a), ThePipe(t), None, TheVoice(t))
  {}

  lemma WorkerTasks(t: Tasks, g: nat, worker: Worker)
    requires Linked(t) && g in t.workers && (Alive(worker) ==> Alive(t.workers[g]))
    ensures Alive(t.workers[g]) ==> TheVoice(t) == Some(Voice(g, t.workers[g].announced))
    ensures TasksAre(SetWorker(t, g, worker), ThePipe(t), TheAnswer(t),
                     if Alive(worker) then Some(Voice(g, worker.announced))
                     else if Alive(t.workers[g]) then None else TheVoice(t))
  {}

  lemma SpawnTasks(t: Tasks, p: nat, g: nat)
    requires Linked(t) && p in t.pipes && TheVoice(t).None?
    ensures TasksAre(SetPipe(SetWorker(t, g, NEW_WORKER), p, Streaming(g)).(speechTask := Some(g)),
                     Some(Streaming(g)), TheAnswer(t), Some(Voice(g, false)))
  {}

  // -- the invariant after each step, tasks and wire aside -------------------------------

  /** What the monitor sees of a step that ends in `_set_state`. */
  function Broadcast(e: Engine, state: VoiceState, m: Monitor): Monitor {
    if e.state == state then m else Observe(m, State(state))
  }

  lemma GoodAck(e: Engine, m: Monitor, v: Option<Voice>)
    requires Good(e, m, None, None, v) && e.session.SessionDone? && e.receiver.Ready?
    ensures Good(StartListening(e.(timer := false)), Broadcast(e, Listening, m), None, None, v)
  {}

  lemma GoodInterrupt(e: Engine, m: Monitor, p: Option<Pipe>, a: Option<Answer>, v: Option<Voice>)
    requires Good(e, m, p, a, v) && e.session.SessionDone? && e.finalizing == 0
    ensures Good(OnInterrupt(e), Broadcast(e, Interrupted, m), None, None, None)
  {}

  lemma GoodPause(e: Engine, m: Monitor, p: Option<Pipe>, a: Option<Answer>, v: Option<Voice>)
    requires Good(e, m, p, a, v) && e.receiver.Ready?
    ensures Voiced(e.state) ==> Good(OnPause(e), Observe(m, State(Paused)), None, a, None)
    ensures e.state.Listening? ==> Good(OnPause(e), Observe(m, State(Paused)), p, a, v)
  {}

  lemma GoodResume(e: Engine, m: Monitor, p: Option<Pipe>, a: Option<Answer>, v: Option<Voice>)
    requires Good(e, m, p, a, v) && e.receiver.Ready? && e.state.Paused?
    ensures Good(OnResume(e), Observe(m, State(Listening)), p, a, v)
  {}

  lemma GoodAudio(e: Engine, m: Monitor, p: Option<Pipe>, a: Option<Answer>, v: Option<Voice>,
                  chunk: Bytes)
    requires Good(e, m, p, a, v) && e.receiver.Ready?
    ensures Good(OnAudio(e, chunk, false), m, p, a, v)
  {}

  lemma GoodProceed(e: Engine, m: Monitor, p: Option<Pipe>, a: Option<Answer>, v: Option<Voice>)
    requires Good(e, m, p, a, v)
    ensures e.receiver.FinishTurn? ==> Good(Proceed(e), m, p, Some(Created), v)
    ensures e.receiver.Partial? || e.receiver.ClearWindow? ==> Good(Proceed(e), m, p, a, v)
  {}

  lemma GoodReopen(e: Engine, m: Monitor, p: Option<Pipe>, a: Option<Answer>, v: Option<Voice>)
    requires Good(e, m, p, a, v)
    ensures e.receiver.Reopen? ==> Good(Proceed(e), Broadcast(e, Listening, m), p, a, v)
    ensures e.receiver.Leaving? ==> Good(Proceed(e), m, None, None, None)
  {}

  lemma GoodFinish(e: Engine, m: Monitor, p: Option<Pipe>, a: Option<Answer>, v: Option<Voice>)
    requires Good(e, m, p, a, v) && e.receiver.Ending?
    ensures Good(Proceed(e), Broadcast(e, e.receiver.last, m), None, None, None)
  {}

  /** The state the session start task broadcasts at first. */
  function SessionBroadcasts(e: Engine, found: SessionOutcome): VoiceState {
    if found.Begins? then Starting else e.state
  }

  lemma GoodConnect(e: Engine, m: Monitor, found: SessionOutcome)
    requires Good(e, m, None, None, None) && e.session.Connecting?
    ensures Good(SessionStep(e, found), Broadcast(e, SessionBroadcasts(e, found), m), None, None, None)
  {}

  lemma GoodRejoin(e: Engine, m: Monitor, found: SessionOutcome)
    requires Good(e, m, None, None, None)
    ensures e.session.Rejoining? ==> Good(SessionStep(e, found), Broadcast(e, Listening, m), None, None, None)
    ensures e.session.Warming? ==> Good(SessionStep(e, found), m, Some(Fresh), None, None)
  {}

  lemma GoodTimer(e: Engine, m: Monitor, p: Option<Pipe>, a: Option<Answer>, v: Option<Voice>)
    requires Good(e, m, p, a, v) && e.timer
    ensures if e.pending.Some? && e.state == Speaking
            then Good(PlaybackTimeout(e), Observe(m, State(Listening)), p, a, v)
            else Good(PlaybackTimeout(e), m, p, a, v)
  {}

  lemma GoodEndTurn(e: Engine, m: Monitor, v: Option<Voice>)
    requires Good(e, m, None, None, v) && e.state.Listening? && e.finalizing == 0 && e.pending.None?
    ensures e.receiver.Ready? ==> Good(Emit(e.(watchdog := false, receiver := FinishTurn), Notice), m, None, None, v)
    ensures e.watchdog ==> Good(Emit(e.(watchdog := false, finalizing := 1), Notice), m, None, None, v)
  {}

  lemma GoodIdleWatchdog(e: Engine, m: Monitor, p: Option<Pipe>, a: Option<Answer>, v: Option<Voice>)
    requires Good(e, m, p, a, v)
    ensures Good(e.(watchdog := false), m, p, a, v)
    ensures e.finalizing > 0 ==> Good(e.(finalizing := e.finalizing - 1), m, p, Some(Created), v)
  {}

  lemma GoodPipeOpens(e: Engine, m: Monitor, p: nat, segments: seq<string>, last: bool, v: Option<Voice>)
    requires p in e.tasks.pipes && Good(e, m, Some(e.tasks.pipes[p]), None, v)
    ensures match e.tasks.pipes[p]
            case Fresh => Good(PipeStep(e, p, segments, last), m, Some(Numbered(e.generation + 1)), None, None)
            case Numbered(g) => Good(PipeStep(e, p, segments, last), Broadcast(e, Thinking, m), Some(Thought(g)), None, None)
            case _ => true
  {}

  lemma GoodPipeStarts(e: Engine, m: Monitor, p: nat, segments: seq<string>, last: bool, v: Option<Voice>)
    requires p in e.tasks.pipes && Good(e, m, Some(e.tasks.pipes[p]), None, v)
    ensures match e.tasks.pipes[p]
            case Thought(g) => Good(PipeStep(e, p, segments, last), Observe(m, TtsStart(g)), Some(Started(g)), None, None)
            case Started(g) => Good(PipeStep(e, p, segments, last), m, Some(Streaming(g)), None, Some(Voice(g, false)))
            case _ => true
  {}

  lemma GoodPipeRuns(e: Engine, m: Monitor, p: nat, segments: seq<string>, last: bool, v: Option<Voice>)
    requires p in e.tasks.pipes && Good(e, m, Some(e.tasks.pipes[p]), None, v)
    ensures match e.tasks.pipes[p]
            case Streaming(g) =>
              Good(PipeStep(e, p, segments, last), m, Some(if last then Asked(g) else Streaming(g)), None, v)
            case Asked(g) => Good(PipeStep(e, p, segments, last), m, Some(Awaiting(g)), None, v)
            case Stopped(g) => Good(PipeStep(e, p, segments, last), m, None, None, None)
            case _ => true
  {}

  lemma GoodPipeStops(e: Engine, m: Monitor, p: nat)
    requires p in e.tasks.pipes && e.tasks.pipes[p].Awaiting? && Good(e, m, Some(e.tasks.pipes[p]), None, None)
    ensures var g := e.tasks.pipes[p].generation;
            Good(Emit(e.(tasks := SetPipe(e.tasks, p, Stopped(g))), TtsStop(g)), Observe(m, TtsStop(g)), Some(Stopped(g)), None, None)
  {}

  lemma GoodSender(e: Engine, m: Monitor, p: Pipe, g: nat)
    requires g in e.tasks.workers && e.tasks.workers[g].sender.Holding?
    requires Good(e, m, Some(p), None, Some(Voice(g, e.tasks.workers[g].announced)))
    ensures e.tasks.workers[g].announced ==>
              Good(SenderStep(e, g), Observe(m, Audio(Frame(g, e.tasks.workers[g].sender.pcm))), Some(p), None, Some(Voice(g, true)))
    ensures !e.tasks.workers[g].announced ==>
              Good(SenderStep(e, g), Broadcast(e, Speaking, m), Some(p), None, Some(Voice(g, true)))
  {}

  lemma GoodAnswerStarts(e: Engine, m: Monitor, a: nat)
    requires a in e.tasks.answers && Good(e, m, None, Some(Created), None)
    ensures Good(SetState(e.(tasks := SetAnswer(e.tasks, a, Claimed)), Processing), Broadcast(e, Processing, m),
                 None, Some(Claimed), None)
  {}

  lemma GoodAnswerClaims(e: Engine, m: Monitor, a: nat)
    requires a in e.tasks.answers && Good(e, m, None, Some(Claimed), None)
    ensures Good(e.(mic := e.mic.(buffer := []), tasks := SetAnswer(e.tasks, a, Transcribing(e.mic.buffer))), m,
                 None, Some(Transcribing(e.mic.buffer)), None)
  {}

  /** An answer task that ends, reopening the window or asking the next question. */
  lemma GoodAnswerEnds(e: Engine, m: Monitor, a: nat, stage: Answer)
    requires a in e.tasks.answers && !stage.Created? && Good(e, m, None, Some(stage), None)
    ensures var gone := e.(tasks := DropAnswer(e.tasks, a));
            && Good(ListenAgain(gone), Broadcast(e, Listening, m), None, None, None)
            && Good(gone, m, None, None, None)
  {}

  lemma GoodAsks(e: Engine, m: Monitor, a: nat, stage: Answer)
    requires a in e.tasks.answers && !stage.Created? && Good(e, m, None, Some(stage), None)
    ensures Good(e.(tasks := WithPipe(DropAnswer(e.tasks, a))), m, Some(Fresh), None, None)
  {}

  lemma GoodReply(e: Engine, m: Monitor, a: nat, next: Answer)
    requires a in e.tasks.answers && Good(e, m, None, Some(e.tasks.answers[a]), None)
    requires !e.tasks.answers[a].Created? && !next.Created?
    ensures Good(Emit(e.(tasks := SetAnswer(e.tasks, a, next)), Notice), m, None, Some(next), None)
    ensures Good(e.(tasks := DropAnswer(e.tasks, a)), m, None, None, None)
  {}

  // -- every step keeps the invariant -------------------------------------------------

  lemma WatchSetState(e: Engine, state: VoiceState)
    ensures Watch(SetState(e, state).wire) == Broadcast(e, state, Watch(e.wire))
  {
    WatchSnoc(e.wire, State(state));
  }

  lemma InterruptKeepsSound(e: Engine)
    requires EngineSound(e) && e.session.SessionDone? && e.finalizing == 0
    ensures EngineSound(OnInterrupt(e))
  {
    CancelledTasks(e.tasks);
    WatchSetState(e, Interrupted);
    GoodInterrupt(e, Watch(e.wire), ThePipe(e.tasks), TheAnswer(e.tasks), TheVoice(e.tasks));
  }

  lemma PauseKeepsSound(e: Engine)
    requires EngineSound(e) && !e.state.Processing? && e.receiver.Ready?
    ensures EngineSound(OnPause(e))
  {
    CancelledTasks(e.tasks);
    WatchSetState(e, Paused);
    GoodPause(e, Watch(e.wire), ThePipe(e.tasks), TheAnswer(e.tasks), TheVoice(e.tasks));
  }

  lemma ResumeKeepsSound(e: Engine)
    requires EngineSound(e) && e.receiver.Ready?
    ensures EngineSound(OnResume(e))
  {
    if e.state.Paused? {
      WatchSetState(e, Listening);
      GoodResume(e, Watch(e.wire), ThePipe(e.tasks), TheAnswer(e.tasks), TheVoice(e.tasks));
    }
  }

  lemma AudioKeepsSound(e: Engine, chunk: Bytes, bargeIn: bool)
    requires EngineSound(e) && e.receiver.Ready?
    ensures EngineSound(OnAudio(e, chunk, bargeIn))
  {
    var counted := OnAudio(e, chunk, false);
    assert counted.tasks == e.tasks && counted.wire == e.wire;
    GoodAudio(e, Watch(e.wire), ThePipe(e.tasks), TheAnswer(e.tasks), TheVoice(e.tasks), chunk);
    if Voiced(e.state) && bargeIn {
      InterruptKeepsSound(counted);
    }
  }

  lemma AckKeepsSound(e: Engine, generation: int)
    requires EngineSound(e) && e.receiver.Ready?
    ensures EngineSound(OnPlaybackComplete(e, generation))
  {
    if OnPlaybackComplete(e, generation) != e {
      WatchSetState(e, Listening);
      GoodAck(e, Watch(e.wire), TheVoice(e.tasks));
    }
  }

  lemma EndTurnKeepsSound(e: Engine)
    requires EngineSound(e) && (EndsTurn(e) ==> e.finalizing == 0)
    ensures e.receiver.Ready? ==> EngineSound(OnEndTurn(e))
  {
    if EndsTurn(e) {
      WatchSnoc(e.wire, Notice);
      GoodEndTurn(e, Watch(e.wire), TheVoice(e.tasks));
    }
  }

  lemma WatchdogKeepsSound(e: Engine)
    requires EngineSound(e) && (e.watchdog && EndsTurn(e) ==> e.finalizing == 0)
    ensures EngineSound(WatchdogEndsTurn(e))
  {
    if e.watchdog {
      GoodIdleWatchdog(e, Watch(e.wire), ThePipe(e.tasks), TheAnswer(e.tasks), TheVoice(e.tasks));
      if EndsTurn(e) {
        WatchSnoc(e.wire, Notice);
        GoodEndTurn(e, Watch(e.wire), TheVoice(e.tasks));
      }
    }
  }

  lemma MessageKeepsSound(e: Engine, message: ClientMsg, bargeIn: bool)
    requires EngineSound(e) && e.receiver.Ready? && Admissible(e, message)
    ensures EngineSound(OnMessage(e, message, bargeIn))
  {
    match message
    case EndTurn => EndTurnKeepsSound(e);
    case PlaybackComplete(generation) => AckKeepsSound(e, generation);
    case Interrupt => InterruptKeepsSound(e);
    case Pause => PauseKeepsSound(e);
    case Resume => ResumeKeepsSound(e);
    case Mic(chunk) => AudioKeepsSound(e, chunk, bargeIn);
    case Heartbeat => WatchSnoc(e.wire, Notice);
    case Stop =>
    case Cancel =>
  }

  lemma FinishKeepsSound(e: Engine)
    requires EngineSound(e) && e.receiver.Ending?
    ensures EngineSound(Proceed(e))
  {
    CancelledTasks(e.tasks);
    WatchSetState(e, e.receiver.last);
    assert Proceed(e).wire == SetState(e, e.receiver.last).wire;
    assert Proceed(e).tasks == WithoutAnswer(WithoutTts(e.tasks));
    GoodFinish(e, Watch(e.wire), ThePipe(e.tasks), TheAnswer(e.tasks), TheVoice(e.tasks));
  }

  lemma HandlerKeepsSound(e: Engine)
    requires EngineSound(e) && (e.receiver.Partial? || e.receiver.FinishTurn? || e.receiver.ClearWindow?)
    ensures EngineSound(Proceed(e))
  {
    GoodProceed(e, Watch(e.wire), ThePipe(e.tasks), TheAnswer(e.tasks), TheVoice(e.tasks));
    if e.receiver.FinishTurn? { WithAnswerTasks(e.tasks); }
    if e.receiver.Partial? { WatchSnoc(e.wire, Notice); }
  }

  lemma ProceedKeepsSound(e: Engine)
    requires EngineSound(e)
    ensures EngineSound(Proceed(e))
  {
    match e.receiver
    case Partial => HandlerKeepsSound(e);
    case FinishTurn => HandlerKeepsSound(e);
    case ClearWindow => HandlerKeepsSound(e);
    case Reopen =>
      GoodReopen(e, Watch(e.wire), ThePipe(e.tasks), TheAnswer(e.tasks), TheVoice(e.tasks));
      WatchSetState(e, Listening);
    case Leaving =>
      GoodReopen(e, Watch(e.wire), ThePipe(e.tasks), TheAnswer(e.tasks), TheVoice(e.tasks));
      CancelledTasks(e.tasks);
    case Ending(_) => FinishKeepsSound(e);
    case _ =>
  }

  lemma ConnectKeepsSound(e: Engine, found: SessionOutcome)
    requires EngineSound(e) && e.session.Connecting?
    ensures EngineSound(SessionStep(e, found))
  {
    GoodConnect(e, Watch(e.wire), found);
    if found.Begins? { WatchSetState(e, Starting); } else { WatchSnoc(e.wire, Notice); }
  }

  lemma SessionKeepsSound(e: Engine, found: SessionOutcome)
    requires EngineSound(e)
    ensures EngineSound(SessionStep(e, found))
  {
    match e.session
    case Connecting => ConnectKeepsSound(e, found);
    case Rejoining =>
      GoodRejoin(e, Watch(e.wire), found);
      WatchSetState(e, Listening);
    case Warming =>
      GoodRejoin(e, Watch(e.wire), found);
      WithPipeTasks(e.tasks);
    case SessionDone =>
  }

  lemma TimerKeepsSound(e: Engine)
    requires EngineSound(e)
    ensures EngineSound(PlaybackTimeout(e))
  {
    if e.timer {
      WatchSetState(e, Listening);
      GoodTimer(e, Watch(e.wire), ThePipe(e.tasks), TheAnswer(e.tasks), TheVoice(e.tasks));
    }
  }

  lemma WatchdogCreatesKeepsSound(e: Engine)
    requires EngineSound(e)
    ensures EngineSound(WatchdogCreates(e))
  {
    if e.finalizing > 0 {
      GoodIdleWatchdog(e, Watch(e.wire), ThePipe(e.tasks), TheAnswer(e.tasks), TheVoice(e.tasks));
      WithAnswerTasks(e.tasks);
    }
  }

  lemma PipeOpensSound(e: Engine, p: nat, segments: seq<string>, last: bool)
    requires EngineSound(e) && p in e.tasks.pipes
    requires e.tasks.pipes[p].Fresh? || e.tasks.pipes[p].Numbered? || e.tasks.pipes[p].Thought? || e.tasks.pipes[p].Started?
    ensures EngineSound(PipeStep(e, p, segments, last))
  {
    var t, stage := e.tasks, e.tasks.pipes[p];
    PipeTasks(t, p, stage);
    if stage.Fresh? || stage.Numbered? {
      GoodPipeOpens(e, Watch(e.wire), p, segments, last, TheVoice(t));
      WatchSetState(e, Thinking);
      PipeTasks(t, p, if stage.Fresh? then Numbered(e.generation + 1) else Thought(stage.generation));
    } else {
      GoodPipeStarts(e, Watch(e.wire), p, segments, last, TheVoice(t));
      WatchSnoc(e.wire, TtsStart(stage.generation));
      PipeTasks(t, p, Started(stage.generation));
      SpawnTasks(t, p, stage.generation);
    }
  }

  lemma PipeFeedsSound(e: Engine, p: nat, segments: seq<string>, last: bool)
    requires EngineSound(e) && p in e.tasks.pipes && (e.tasks.pipes[p].Streaming? || e.tasks.pipes[p].Asked?)
    ensures EngineSound(PipeStep(e, p, segments, last))
  {
    var t, stage := e.tasks, e.tasks.pipes[p];
    PipeTasks(t, p, stage);
    GoodPipeRuns(e, Watch(e.wire), p, segments, last, TheVoice(t));
    WatchSnoc(e.wire, Notice);
    var g := stage.generation;
    var fed := t;
    if g in t.workers {
      var w := if stage.Streaming? then Put(t.workers[g], segments) else Close(t.workers[g]);
      WorkerTasks(t, g, w);
      fed := SetWorker(t, g, w);
    }
    PipeTasks(fed, p, if stage.Streaming? then Asked(g) else Awaiting(g));
  }

  lemma PipeClosesSound(e: Engine, p: nat)
    requires EngineSound(e) && p in e.tasks.pipes && (e.tasks.pipes[p].Awaiting? || e.tasks.pipes[p].Stopped?)
    ensures EngineSound(PipeStep(e, p, [], false))
  {
    var t, stage := e.tasks, e.tasks.pipes[p];
    var g := stage.generation;
    PipeTasks(t, p, Stopped(g));
    if stage.Stopped? {
      GoodPipeRuns(e, Watch(e.wire), p, [], false, TheVoice(t));
    } else if !(g in t.workers && Alive(t.workers[g])) {
      GoodPipeStops(e, Watch(e.wire), p);
      WatchSnoc(e.wire, TtsStop(g));
    }
  }

  lemma PipeKeepsSound(e: Engine, p: nat, segments: seq<string>, last: bool)
    requires EngineSound(e) && p in e.tasks.pipes
    ensures EngineSound(PipeStep(e, p, segments, last))
  {
    match e.tasks.pipes[p]
    case Streaming(_) => PipeFeedsSound(e, p, segments, last);
    case Asked(_) => PipeFeedsSound(e, p, segments, last);
    case Awaiting(_) => PipeClosesSound(e, p);
    case Stopped(_) => PipeClosesSound(e, p);
    case _ => PipeOpensSound(e, p, segments, last);
  }

  lemma ProducerKeepsSound(e: Engine, g: nat, outcome: seq<Bytes>)
    requires EngineSound(e) && g in e.tasks.workers && Alive(e.tasks.workers[g])
    ensures EngineSound(ProducerStep(e, g, outcome))
  {
    WorkerTasks(e.tasks, g, Produce(e.tasks.workers[g], Current(e, g), outcome));
  }

  /** The sender broadcasts SPEAKING or hands its frame to the socket. */
  lemma SenderSpeaksSound(e: Engine, g: nat)
    requires EngineSound(e) && g in e.tasks.workers && Alive(e.tasks.workers[g]) && e.tasks.workers[g].sender.Holding?
    ensures EngineSound(SenderStep(e, g))
  {
    var t, w := e.tasks, e.tasks.workers[g];
    WorkerTasks(t, g, w);
    GoodSender(e, Watch(e.wire), ThePipe(t).value, g);
    if w.announced {
      WorkerTasks(t, g, Relay(w));
      WatchSnoc(e.wire, Audio(Frame(g, w.sender.pcm)));
    } else {
      WorkerTasks(t, g, w.(announced := true));
      WatchSetState(e, Speaking);
    }
  }

  lemma SenderKeepsSound(e: Engine, g: nat)
    requires EngineSound(e) && g in e.tasks.workers && Alive(e.tasks.workers[g])
    ensures EngineSound(SenderStep(e, g))
  {
    var w := e.tasks.workers[g];
    if w.sender.Holding? {
      SenderSpeaksSound(e, g);
    } else if w.sender.Receiving? && w.frames != [] {
      WorkerTasks(e.tasks, g, Take(w, Current(e, g)));
    }
  }

  lemma AnswerStartsSound(e: Engine, a: nat, reply: AnswerOutcome)
    requires EngineSound(e) && a in e.tasks.answers && e.tasks.answers[a].Created?
    ensures EngineSound(AnswerStep(e, a, reply))
  {
    AnswerTasks(e.tasks, a, Claimed);
    WatchSetState(e, Processing);
    GoodAnswerStarts(e, Watch(e.wire), a);
  }

  lemma AnswerClaimsSound(e: Engine, a: nat, reply: AnswerOutcome)
    requires EngineSound(e) && a in e.tasks.answers && e.tasks.answers[a].Claimed?
    ensures EngineSound(AnswerStep(e, a, reply))
  {
    AnswerTasks(e.tasks, a, Transcribing(e.mic.buffer));
    if e.mic.buffer == [] {
      WatchSetState(e, Listening);
      GoodAnswerEnds(e, Watch(e.wire), a, Claimed);
    } else {
      GoodAnswerClaims(e, Watch(e.wire), a);
    }
  }

  lemma AnswerEndsSound(e: Engine, a: nat, reply: AnswerOutcome)
    requires EngineSound(e) && a in e.tasks.answers && (e.tasks.answers[a].Submitted? || e.tasks.answers[a].Blank?)
    ensures EngineSound(AnswerStep(e, a, reply))
  {
    var stage := e.tasks.answers[a];
    AnswerTasks(e.tasks, a, stage);
    GoodAnswerEnds(e, Watch(e.wire), a, stage);
    if stage.Submitted? {
      WithPipeTasks(DropAnswer(e.tasks, a));
      GoodAsks(e, Watch(e.wire), a, stage);
    } else {
      WatchSetState(e, Listening);
    }
  }

  lemma AnswerKeepsSound(e: Engine, a: nat, reply: AnswerOutcome)
    requires EngineSound(e) && a in e.tasks.answers
    ensures EngineSound(AnswerStep(e, a, reply))
  {
    match e.tasks.answers[a]
    case Created => AnswerStartsSound(e, a, reply);
    case Claimed => AnswerClaimsSound(e, a, reply);
    case Submitted => AnswerEndsSound(e, a, reply);
    case Blank => AnswerEndsSound(e, a, reply);
    case Transcribing(_) => ReplyKeepsSound(e, a, if reply.Goes? then Submitting else Blank);
    case Submitting => ReplyKeepsSound(e, a, Submitted);
  }

  /** The task announces something and goes on, or ends. */
  lemma ReplyKeepsSound(e: Engine, a: nat, next: Answer)
    requires EngineSound(e) && a in e.tasks.answers && !e.tasks.answers[a].Created? && !next.Created?
    ensures EngineSound(Emit(e.(tasks := SetAnswer(e.tasks, a, next)), Notice))
    ensures EngineSound(e.(tasks := DropAnswer(e.tasks, a)))
  {
    AnswerTasks(e.tasks, a, next);
    WatchSnoc(e.wire, Notice);
    GoodReply(e, Watch(e.wire), a, next);
  }

  lemma ServerKeepsSound(e: Engine, head: Option<ClientMsg>, l: Step)
    requires EngineSound(e) && ServerStep(l) && !l.PipelineRaises?
    requires l.ServerReceives? && e.receiver.Ready? && head.Some? ==> Admissible(e, head.value)
    requires l.WatchdogDecides? && e.watchdog && EndsTurn(e) ==> e.finalizing == 0
    ensures EngineSound(EngineAfter(e, head, l))
  {
    if !e.receiver.Gone? {
      match l
      case ServerReceives(bargeIn) =>
        if e.receiver.Ready? && head.Some? { MessageKeepsSound(e, head.value, bargeIn); }
      case ServerProceeds => ProceedKeepsSound(e);
      case SessionRuns(found) => SessionKeepsSound(e, found);
      case TimerFires => TimerKeepsSound(e);
      case WatchdogDecides => WatchdogKeepsSound(e);
      case WatchdogCreatesTask => WatchdogCreatesKeepsSound(e);
      case PipelineRuns(p, segments, last) =>
        if p in e.tasks.pipes { PipeKeepsSound(e, p, segments, last); }
      case ProducerRuns(g, outcome) =>
        if g in e.tasks.workers && Alive(e.tasks.workers[g]) { ProducerKeepsSound(e, g, outcome); }
      case SenderRuns(g) =>
        if g in e.tasks.workers && Alive(e.tasks.workers[g]) { SenderKeepsSound(e, g); }
      case AnswerRuns(a, reply) =>
        if a in e.tasks.answers { AnswerKeepsSound(e, a, reply); }
    }
  }
}
