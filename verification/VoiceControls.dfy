/** Where each control of the candidate leads once its handler is done, and where the
    session start, an answer, a silence and a playback timeout lead once their tasks are:
    the state, the messages sent for it, and what is dropped. */
module VoiceControls {
  import opened Wrappers
  import opened VoiceTypes
  import opened EngineSteps
  import opened VoiceProtocol

  /** The oldest message is taken, and its handler runs to its end. */
  function Handled(s: System, bargeIn: bool): Engine {
    Apply(Apply(s, ServerReceives(bargeIn)), ServerProceeds).engine
  }

  predicate Awaits(s: System, message: ClientMsg) {
    s.engine.receiver.Ready? && s.up != [] && s.up[0] == message
  }

  lemma HandledIs(s: System, message: ClientMsg, bargeIn: bool)
    requires Awaits(s, message)
    ensures Handled(s, bargeIn) == Proceed(OnMessage(s.engine, message, bargeIn))
  {
    assert !OnMessage(s.engine, message, bargeIn).receiver.Gone?;
  }

  lemma InterruptHandled(e: Engine)
    requires !e.state.Interrupted?
    ensures var after := Proceed(OnInterrupt(e));
            && after.state.Listening? && after.wire == e.wire + [State(Interrupted)] + [State(Listening)]
            && after.generation == e.generation + 1 && after.pending.None? && !after.timer
            && after.mic.buffer == [] && after.watchdog && after.receiver.Ready?
            && after.tasks.ttsTask.None? && after.tasks.speechTask.None? && after.tasks.answerTask.None?
  {}

  /** An interrupt goes through INTERRUPTED to LISTENING, drops the audio and the playback
      that was waited for, and moves the generation on. */
  lemma InterruptLands(s: System)
    requires Awaits(s, ClientMsg.Interrupt) && !s.engine.state.Interrupted?
    ensures var e, after := s.engine, Handled(s, false);
            && after.state.Listening? && after.wire == e.wire + [State(Interrupted)] + [State(Listening)]
            && after.generation == e.generation + 1 && after.pending.None? && !after.timer
            && after.mic.buffer == [] && after.watchdog && after.receiver.Ready?
            && after.tasks.ttsTask.None? && after.tasks.speechTask.None? && after.tasks.answerTask.None?
  {
    HandledIs(s, ClientMsg.Interrupt, false);
    InterruptHandled(s.engine);
  }

  lemma PauseHandled(e: Engine)
    requires e.receiver.Ready?
    ensures Proceed(OnMessage(e, ClientMsg.Pause, false)) == OnPause(e)
  {}

  /** A pause leads to PAUSED from the four active states, taking the question with it from
      the two in which the interviewer has the turn; elsewhere it does nothing. */
  lemma PauseLands(s: System)
    requires Awaits(s, ClientMsg.Pause)
    ensures var e, after := s.engine, Handled(s, false);
            if e.state.Speaking? || e.state.Thinking? then
              after.state.Paused? && after.wire == e.wire + [State(Paused)] && after.generation == e.generation + 1
              && after.pending.None? && !after.timer && after.tasks.answers == e.tasks.answers
            else if e.state.Listening? || e.state.Processing? then
              after == e.(state := Paused, wire := e.wire + [State(Paused)], watchdog := false)
            else after == e
  {
    HandledIs(s, ClientMsg.Pause, false);
    PauseHandled(s.engine);
  }

  /** A resume leads from PAUSED to LISTENING with an empty buffer; elsewhere it does nothing. */
  lemma ResumeLands(s: System)
    requires Awaits(s, ClientMsg.Resume)
    ensures var e, after := s.engine, Handled(s, false);
            if e.state.Paused? then
              after.state.Listening? && after.wire == e.wire + [State(Listening)] && after.mic.buffer == [] && after.watchdog
              && after.generation == e.generation && after.tasks == e.tasks
            else after == e
  {}

  /** An end of turn makes one answer task, in LISTENING and with none alive; else nothing. */
  lemma EndTurnLands(s: System)
    requires Awaits(s, EndTurn)
    ensures var e, after := s.engine, Handled(s, false);
            if e.state.Listening? && !AnswerAlive(e.tasks) then
              after.wire == e.wire + [Notice] && after.tasks.answers == e.tasks.answers[e.tasks.made := Created]
              && after.tasks.answerTask == Some(e.tasks.made) && after.mic == e.mic && after.state.Listening?
            else after == e
  {}

  /** An acknowledgement opens a fresh window from SPEAKING, for the pending generation. */
  lemma AckLands(s: System, generation: int)
    requires Awaits(s, PlaybackComplete(generation))
    ensures var e, after := s.engine, Handled(s, false);
            if e.state.Speaking? && e.pending.Some? && e.pending.value == generation then
              after.state.Listening? && after.wire == e.wire + [State(Listening)] && after.mic == EMPTY_WINDOW
              && after.pending.None? && !after.timer && after.generation == e.generation && after.tasks == e.tasks
            else after == e
  {}

  /** A heartbeat is answered, and nothing else happens. */
  lemma HeartbeatLands(s: System)
    requires Awaits(s, Heartbeat)
    ensures Handled(s, false) == s.engine.(wire := s.engine.wire + [Notice])
  {}

  /** A chunk that is no barge-in changes nothing but the window, which keeps it in LISTENING. */
  lemma AudioLands(s: System, chunk: Bytes)
    requires Awaits(s, Mic(chunk))
    ensures var e, after := s.engine, Handled(s, false);
            && after.state == e.state && after.tasks == e.tasks && after.generation == e.generation
            && after.mic.buffer == e.mic.buffer + if e.state.Listening? then chunk else []
  {
    AudioIsRecorded(s.engine, chunk);
    if s.engine.state.Listening? {
      PartialLands(OnAudio(s.engine, chunk, false));
    }
  }

  lemma AudioIsRecorded(e: Engine, chunk: Bytes)
    requires e.receiver.Ready?
    ensures var after := OnAudio(e, chunk, false);
            && after.state == e.state && after.tasks == e.tasks && after.generation == e.generation
            && (after.receiver.Ready? || (e.state.Listening? && after.receiver.Partial?))
            && after.mic.buffer == e.mic.buffer + if e.state.Listening? then chunk else []
  {}

  lemma PartialLands(e: Engine)
    requires e.receiver.Ready? || e.receiver.Partial?
    ensures Proceed(e).state == e.state && Proceed(e).tasks == e.tasks && Proceed(e).generation == e.generation
    ensures Proceed(e).mic == e.mic
  {}

  /** A barge-in takes the turn from the interviewer, as an interrupt does. */
  lemma BargeInLands(s: System, chunk: Bytes)
    requires Awaits(s, Mic(chunk)) && (s.engine.state.Speaking? || s.engine.state.Thinking?)
    ensures var after := Handled(s, true);
            && after.state.Listening? && after.generation == s.engine.generation + 1 && after.pending.None?
            && after.mic.buffer == [] && after.wire == s.engine.wire + [State(Interrupted)] + [State(Listening)]
  {
    HandledIs(s, Mic(chunk), true);
    var counted := BargedInto(s.engine, chunk);
    InterruptHandled(counted);
  }

  lemma BargedInto(e: Engine, chunk: Bytes) returns (counted: Engine)
    requires e.state.Speaking? || e.state.Thinking?
    ensures OnMessage(e, Mic(chunk), true) == OnInterrupt(counted)
    ensures counted == e.(mic := counted.mic)
  {
    counted := e.(mic := e.mic.(discardedTts := Tally(e.mic.discardedTts, chunk)));
  }

  // -- background tasks ---------------------------------------------------------------------

  /** A session that begins warms up and asks its first question; one that is rejoined
      listens; one that is refused says so and stays as it is. */
  lemma SessionLands(s: System, found: SessionOutcome)
    requires s.engine.session.Connecting? && s.engine.state.Idle? && !s.engine.receiver.Gone?
    ensures var e := s.engine;
            var once := Apply(s, SessionRuns(found)).engine;
            var twice := Apply(Apply(s, SessionRuns(found)), SessionRuns(found)).engine;
            match found
            case Begins =>
              twice == e.(state := Starting, wire := e.wire + [State(Starting)], session := SessionDone,
                          tasks := e.tasks.(pipes := e.tasks.pipes[e.tasks.made := Fresh], ttsTask := Some(e.tasks.made),
                                            made := e.tasks.made + 1))
            case Rejoins =>
              twice.state.Listening? && twice.wire == e.wire + [Notice] + [State(Listening)] && twice.tasks == e.tasks
              && twice.mic.buffer == [] && twice.watchdog && twice.pending.None?
            case Refused => once == e.(session := SessionDone, wire := e.wire + [Notice])
  {}

  /** Over an unacknowledged playback the timeout opens the window, and only then. */
  lemma TimeoutLands(s: System)
    requires !s.engine.receiver.Gone?
    ensures var e, after := s.engine, Apply(s, TimerFires).engine;
            && !after.timer
            && if e.timer && e.state.Speaking? && e.pending == Some(e.generation) then
                 after.state.Listening? && after.wire == e.wire + [State(Listening)] && after.mic == EMPTY_WINDOW
                 && after.pending.None? && after.tasks == e.tasks
               else after == e.(timer := false)
  {}

  /** A silence in LISTENING, with no answer under way, ends the turn as the candidate would. */
  lemma SilenceLands(s: System)
    requires s.engine.watchdog && !s.engine.receiver.Gone?
    ensures var e, after := s.engine, Apply(Apply(s, WatchdogDecides), WatchdogCreatesTask).engine;
            if e.state.Listening? && !AnswerAlive(e.tasks) then
              after == e.(watchdog := false, wire := e.wire + [Notice],
                          tasks := e.tasks.(answers := e.tasks.answers[e.tasks.made := Created],
                                            answerTask := Some(e.tasks.made), made := e.tasks.made + 1))
            else e.finalizing == 0 ==> after == e.(watchdog := false)
  {}

  /** The next steps of an answer task. */
  function Answered(e: Engine, a: nat, replies: seq<AnswerOutcome>): Engine {
    if replies == [] then e
    else
      var before := Answered(e, a, replies[..|replies| - 1]);
      EngineAfter(before, None, AnswerRuns(a, replies[|replies| - 1]))
  }

  lemma AnsweredNext(e: Engine, a: nat, replies: seq<AnswerOutcome>, reply: AnswerOutcome)
    ensures Answered(e, a, replies + [reply]) == EngineAfter(Answered(e, a, replies), None, AnswerRuns(a, reply))
  {
    assert (replies + [reply])[..|replies|] == replies;
  }

  predicate Begun(e: Engine, a: nat) {
    a in e.tasks.answers && e.tasks.answers[a].Created? && !e.state.Processing? && !e.receiver.Gone?
  }

  /** An answer claims the window in PROCESSING; an empty one reopens it. */
  lemma AnswerClaims(e: Engine, a: nat, x: AnswerOutcome, y: AnswerOutcome)
    requires Begun(e, a)
    ensures var after := Answered(e, a, [x] + [y]);
            if e.mic.buffer == [] then
              after.state.Listening? && after.wire == e.wire + [State(Processing)] + [State(Listening)]
              && after.tasks == e.tasks.(answers := after.tasks.answers) && a !in after.tasks.answers && after.watchdog
            else
              after == e.(state := Processing, wire := e.wire + [State(Processing)], mic := e.mic.(buffer := []),
                          tasks := e.tasks.(answers := e.tasks.answers[a := Transcribing(e.mic.buffer)]))
  {
    AnsweredNext(e, a, [], x);
    AnsweredNext(e, a, [x], y);
    assert [] + [x] == [x] && Answered(e, a, []) == e;
  }

  predicate Transcribes(e: Engine, a: nat) {
    a in e.tasks.answers && e.tasks.answers[a].Transcribing? && e.state.Processing? && !e.receiver.Gone?
  }

  /** A failed recognition only drops the task. */
  lemma FailedAnswerLands(e: Engine, a: nat)
    requires Transcribes(e, a)
    ensures Answered(e, a, [Raises]) == e.(tasks := e.tasks.(answers := e.tasks.answers - {a}))
  {
    AnsweredNext(e, a, [], Raises);
    assert [] + [Raises] == [Raises] && Answered(e, a, []) == e;
  }

  lemma SilentAnswerSaid(e: Engine, a: nat)
    requires Transcribes(e, a)
    ensures Answered(e, a, [Silent])
         == e.(wire := e.wire + [Notice], tasks := e.tasks.(answers := e.tasks.answers[a := Blank]))
  {
    AnsweredNext(e, a, [], Silent);
    assert [] + [Silent] == [Silent] && Answered(e, a, []) == e;
  }

  lemma BlankAnswerEnds(e: Engine, a: nat, x: AnswerOutcome)
    requires a in e.tasks.answers && e.tasks.answers[a].Blank? && e.state.Processing? && !e.receiver.Gone?
    ensures EngineAfter(e, None, AnswerRuns(a, x))
         == e.(state := Listening, wire := e.wire + [State(Listening)], watchdog := true,
               tasks := e.tasks.(answers := e.tasks.answers - {a}))
  {}

  /** A blank transcript opens the window again, without a question. */
  lemma SilentAnswerLands(e: Engine, a: nat, x: AnswerOutcome)
    requires Transcribes(e, a)
    ensures var after := Answered(e, a, [Silent] + [x]);
            after.state.Listening? && after.wire == e.wire + [Notice] + [State(Listening)] && after.watchdog
            && a !in after.tasks.answers && after.tasks.pipes == e.tasks.pipes && after.mic == e.mic
  {
    SilentAnswerSaid(e, a);
    AnsweredNext(e, a, [Silent], x);
    BlankAnswerEnds(Answered(e, a, [Silent]), a, x);
  }

  /** A transcribed answer is announced, stored and announced again, and then the next
      question is asked; without a stored question, or if storing fails, it is dropped. */
  lemma AnswerLands(e: Engine, a: nat, stored: AnswerOutcome, x: AnswerOutcome)
    requires Transcribes(e, a)
    ensures var dropped := e.tasks.(answers := e.tasks.answers - {a});
            Answered(e, a, [Goes] + [stored] + [x])
            == if e.questionKnown && stored.Goes? then
                 e.(wire := e.wire + [Notice] + [Notice],
                    tasks := if e.running
                             then dropped.(pipes := e.tasks.pipes[e.tasks.made := Fresh], ttsTask := Some(e.tasks.made),
                                           made := e.tasks.made + 1)
                             else dropped)
               else e.(wire := e.wire + [Notice], tasks := dropped)
  {
    AnsweredNext(e, a, [], Goes);
    AnsweredNext(e, a, [Goes], stored);
    AnsweredNext(e, a, [Goes] + [stored], x);
    assert [] + [Goes] == [Goes] && Answered(e, a, []) == e;
    var t := e.tasks.answers;
    assert t[a := Submitting] - {a} == t - {a} && t[a := Submitting][a := Submitted] - {a} == t - {a};
  }
}
