/** What the steps that neither speak nor feed a worker leave alone. */
module VoiceQuiet {
  import opened Wrappers
  import opened VoiceTypes
  import opened SpeechWorker
  import opened EngineSteps
  import opened VoiceProtocol
  import opened VoiceSafety

  predicate Quiet(message: ServerMsg) {
    !message.Audio? && !message.TtsStop?
  }

  /** `after` continues `before` with messages that are neither audio nor tts_stop. */
  predicate GrowsQuietly(before: seq<ServerMsg>, after: seq<ServerMsg>) {
    before <= after && forall i :: |before| <= i < |after| ==> Quiet(after[i])
  }

  /** Workers that differ at most in being killed. */
  predicate SameSpeech(before: map<nat, Worker>, after: map<nat, Worker>) {
    before.Keys == after.Keys && forall g :: g in before ==> after[g].(killed := before[g].killed) == before[g]
  }

  /** No worker is touched except by killing, and the pipeline is gone, new, or as it was. */
  predicate TasksUndisturbed(t: Tasks, after: Tasks) {
    && SameSpeech(t.workers, after.workers)
    && (ThePipe(after) == None || ThePipe(after) == Some(Fresh)
        || (ThePipe(after) == ThePipe(t) && after.workers == t.workers))
  }

  /** A step away from the speech path. */
  predicate Undisturbed(e: Engine, after: Engine) {
    && GrowsQuietly(e.wire, after.wire)
    && TasksUndisturbed(e.tasks, after.tasks)
    && after.generation >= e.generation
    && (after.running == e.running || after.receiver.Gone?)
  }

  lemma TaskFactsAreQuiet(t: Tasks)
    ensures TasksUndisturbed(t, t)
    ensures TasksUndisturbed(t, WithoutTts(t))
    ensures TasksUndisturbed(t, WithoutAnswer(WithoutTts(t)))
    ensures TasksUndisturbed(t, WithPipe(t))
    ensures TasksUndisturbed(t, WithAnswer(t))
  {}

  lemma AnswerFactsAreQuiet(t: Tasks, a: nat, stage: Answer)
    ensures TasksUndisturbed(t, SetAnswer(t, a, stage))
    ensures TasksUndisturbed(t, DropAnswer(t, a))
    ensures TasksUndisturbed(t, WithPipe(DropAnswer(t, a)))
  {}

  lemma SendsAreQuiet(wire: seq<ServerMsg>, state: VoiceState)
    ensures GrowsQuietly(wire, wire)
    ensures GrowsQuietly(wire, wire + [Notice])
    ensures GrowsQuietly(wire, wire + [State(state)])
    ensures GrowsQuietly(wire, wire + [Notice] + [State(state)])
  {}

  lemma HandlersAreQuiet(e: Engine)
    ensures Undisturbed(e, OnInterrupt(e))
    ensures Undisturbed(e, OnResume(e))
    ensures Undisturbed(e, OnEndTurn(e))
    ensures Undisturbed(e, StartListening(e))
    ensures Undisturbed(e, ListenAgain(e))
  {
    TaskFactsAreQuiet(e.tasks);
    SendsAreQuiet(e.wire, Interrupted);
    SendsAreQuiet(e.wire, Listening);
  }

  lemma PauseIsQuiet(e: Engine)
    ensures Undisturbed(e, OnPause(e))
  {
    TaskFactsAreQuiet(e.tasks);
    SendsAreQuiet(e.wire, Paused);
  }

  lemma AudioIsQuiet(e: Engine, chunk: Bytes, bargeIn: bool)
    ensures Undisturbed(e, OnAudio(e, chunk, bargeIn))
  {
    TaskFactsAreQuiet(e.tasks);
    SendsAreQuiet(e.wire, Idle);
    if (e.state.Speaking? || e.state.Thinking?) && bargeIn {
      HandlersAreQuiet(e.(mic := e.mic.(discardedTts := Tally(e.mic.discardedTts, chunk))));
    }
  }

  lemma AckIsQuiet(e: Engine, generation: int)
    ensures Undisturbed(e, OnPlaybackComplete(e, generation))
  {
    TaskFactsAreQuiet(e.tasks);
    HandlersAreQuiet(e.(timer := false));
  }

  lemma MessageIsQuiet(e: Engine, message: ClientMsg, bargeIn: bool)
    ensures Undisturbed(e, OnMessage(e, message, bargeIn))
  {
    match message
    case PlaybackComplete(generation) => AckIsQuiet(e, generation);
    case Mic(chunk) => AudioIsQuiet(e, chunk, bargeIn);
    case Pause => PauseIsQuiet(e);
    case StartTurn => HandlersAreQuiet(e);
    case EndTurn => HandlersAreQuiet(e);
    case Interrupt => HandlersAreQuiet(e);
    case Resume => HandlersAreQuiet(e);
    case _ =>
      TaskFactsAreQuiet(e.tasks);
      SendsAreQuiet(e.wire, Idle);
  }

  lemma ProceedIsQuiet(e: Engine)
    ensures Undisturbed(e, Proceed(e))
  {
    TaskFactsAreQuiet(e.tasks);
    match e.receiver
    case Ending(last) => SendsAreQuiet(e.wire, last);
    case Reopen => SendsAreQuiet(e.wire, Listening);
    case _ => SendsAreQuiet(e.wire, Idle);
  }

  lemma SessionIsQuiet(e: Engine, found: SessionOutcome)
    ensures Undisturbed(e, SessionStep(e, found))
  {
    match e.session
    case Rejoining => HandlersAreQuiet(e.(session := SessionDone));
    case Connecting => ConnectIsQuiet(e, found);
    case _ => TaskFactsAreQuiet(e.tasks);
  }

  lemma ConnectIsQuiet(e: Engine, found: SessionOutcome)
    requires e.session.Connecting?
    ensures Undisturbed(e, SessionStep(e, found))
  {
    TaskFactsAreQuiet(e.tasks);
    SendsAreQuiet(e.wire, Starting);
  }

  lemma TimerIsQuiet(e: Engine)
    ensures Undisturbed(e, PlaybackTimeout(e))
  {
    TaskFactsAreQuiet(e.tasks);
    SendsAreQuiet(e.wire, Idle);
    HandlersAreQuiet(e.(timer := false));
  }

  lemma WatchdogIsQuiet(e: Engine)
    ensures Undisturbed(e, WatchdogEndsTurn(e))
    ensures Undisturbed(e, WatchdogCreates(e))
  {
    TaskFactsAreQuiet(e.tasks);
    SendsAreQuiet(e.wire, Idle);
  }

  lemma AnswerStartsQuietly(e: Engine, a: nat, reply: AnswerOutcome)
    requires a in e.tasks.answers && (e.tasks.answers[a].Created? || e.tasks.answers[a].Claimed?)
    ensures Undisturbed(e, AnswerStep(e, a, reply))
  {
    AnswerFactsAreQuiet(e.tasks, a, if e.tasks.answers[a].Created? then Claimed else Transcribing(e.mic.buffer));
    SendsAreQuiet(e.wire, if e.tasks.answers[a].Created? then Processing else Listening);
  }

  lemma AnswerRunsQuietly(e: Engine, a: nat, reply: AnswerOutcome)
    requires a in e.tasks.answers && (e.tasks.answers[a].Transcribing? || e.tasks.answers[a].Submitting?)
    ensures Undisturbed(e, AnswerStep(e, a, reply))
  {
    var next := if e.tasks.answers[a].Submitting? then Submitted else if reply.Goes? then Submitting else Blank;
    AnswerFactsAreQuiet(e.tasks, a, next);
    SendsAreQuiet(e.wire, Idle);
  }

  lemma AnswerEndsQuietly(e: Engine, a: nat, reply: AnswerOutcome)
    requires a in e.tasks.answers && (e.tasks.answers[a].Submitted? || e.tasks.answers[a].Blank?)
    ensures Undisturbed(e, AnswerStep(e, a, reply))
  {
    AnswerFactsAreQuiet(e.tasks, a, Submitted);
    SendsAreQuiet(e.wire, Listening);
  }

  lemma AnswerIsQuiet(e: Engine, a: nat, reply: AnswerOutcome)
    requires a in e.tasks.answers
    ensures Undisturbed(e, AnswerStep(e, a, reply))
  {
    match e.tasks.answers[a]
    case Created => AnswerStartsQuietly(e, a, reply);
    case Claimed => AnswerStartsQuietly(e, a, reply);
    case Transcribing(_) => AnswerRunsQuietly(e, a, reply);
    case Submitting => AnswerRunsQuietly(e, a, reply);
    case Submitted => AnswerEndsQuietly(e, a, reply);
    case Blank => AnswerEndsQuietly(e, a, reply);
  }

  predicate OnSpeechPath(l: Step) {
    l.PipelineRuns? || l.PipelineRaises? || l.ProducerRuns? || l.SenderRuns?
  }

  lemma OtherStepsAreQuiet(e: Engine, head: Option<ClientMsg>, l: Step)
    requires ServerStep(l) && !OnSpeechPath(l)
    ensures Undisturbed(e, EngineAfter(e, head, l))
  {
    match l
    case ServerReceives(bargeIn) =>
      if head.Some? { MessageIsQuiet(e, head.value, bargeIn); }
    case ServerProceeds => ProceedIsQuiet(e);
    case AnswerRuns(a, reply) =>
      if a in e.tasks.answers { AnswerIsQuiet(e, a, reply); }
    case SessionRuns(found) => SessionIsQuiet(e, found);
    case TimerFires => TimerIsQuiet(e);
    case _ => WatchdogIsQuiet(e);
  }
}
