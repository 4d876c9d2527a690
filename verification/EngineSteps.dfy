/** The server side of the voice protocol as functions on a value: the fields of
    `VoiceEngine`, the asyncio tasks it owns, and everything it has sent.
    One function is the code of one task between two awaits; a send is an await,
    and cancel-and-await removes the task at once. */
module EngineSteps {
  import opened Wrappers
  import opened VoiceTypes
  import opened SpeechWorker

  /** Where the question pipeline (`_speak_next_question`) stands. */
  datatype Pipe =
    | Fresh                       // task created, nothing executed
    | Numbered(generation: nat)   // generation taken
    | Thought(generation: nat)    // THINKING broadcast
    | Started(generation: nat)    // tts_start sent
    | Streaming(generation: nat)  // worker spawned, consuming model tokens
    | Asked(generation: nat)      // question persisted, all text enqueued
    | Awaiting(generation: nat)   // end-of-stream marker put, waiting for the worker
    | Stopped(generation: nat)    // tts_stop sent

  /** Where an answer task (`_process_answer`) stands. */
  datatype Answer = Created | Claimed | Transcribing(audio: Bytes) | Submitting | Submitted | Blank

  datatype SessionTask = Connecting | Rejoining | Warming | SessionDone

  /** What the session start task finds: an interview to begin, one under way, or an error. */
  datatype SessionOutcome = Begins | Rejoins | Refused

  /** What the receive loop still has to do for the message it is handling. */
  datatype Receiver =
    | Ready
    | Partial              // awaiting a partial transcript
    | FinishTurn           // turn_ended sent, answer task not created yet
    | Reopen               // INTERRUPTED broadcast, LISTENING not yet
    | ClearWindow          // LISTENING broadcast on resume, buffer not cleared yet
    | Ending(last: VoiceState)   // waiting for the interview row to be closed
    | Leaving              // terminal state broadcast
    | Gone                 // loop left, socket closed

  /** A pair of diagnostic counters: mic chunks and their bytes. */
  datatype Count = Count(frames: nat, bytes: nat)

  /** The candidate window: `_audio_buf` and the counters. */
  datatype Window = Window(buffer: Bytes, accepted: Count, discardedTts: Count, discardedOther: Count)

  const EMPTY_WINDOW := Window([], Count(0, 0), Count(0, 0), Count(0, 0))

  /** Two seconds of 16 kHz PCM16: the audio between two partial transcripts. */
  const PARTIAL_BYTES: nat := 64000

  function Tally(c: Count, chunk: Bytes): Count {
    Count(c.frames + 1, c.bytes + |chunk|)
  }

  /** The question pipelines, speech workers and answer tasks, and the handles
      under which the engine keeps the latest of each. */
  datatype Tasks = Tasks(
    pipes: map<nat, Pipe>,       // live question pipelines
    ttsTask: Option<nat>,
    workers: map<nat, Worker>,   // every speech worker ever spawned, by generation
    speechTask: Option<nat>,
    answers: map<nat, Answer>,   // live answer tasks
    answerTask: Option<nat>,
    made: nat)                   // pipelines and answer tasks created so far

  const NO_TASKS := Tasks(map[], None, map[], None, map[], None, 0)

  datatype Engine = Engine(
    state: VoiceState,
    generation: nat,
    pending: Option<nat>,        // _playback_pending_generation
    timer: bool,                 // playback timeout task alive
    running: bool,
    mic: Window,
    partialSince: nat,           // buffer length at the last partial transcript
    questionKnown: bool,         // _last_question_id is not None
    session: SessionTask,
    tasks: Tasks,
    watchdog: bool,              // the silence watchdog behind _silence_task is alive
    finalizing: nat,             // watchdogs that have sent turn_ended and not created the task yet
    receiver: Receiver,
    wire: seq<ServerMsg>)        // everything sent, oldest first

  const INITIAL := Engine(Idle, 0, None, false, true, EMPTY_WINDOW, 0, false, Connecting, NO_TASKS, false, 0,
                          Ready, [])

  function Emit(e: Engine, message: ServerMsg): Engine {
    e.(wire := e.wire + [message])
  }

  /** `_set_state`: a broadcast only when the state changes. */
  function SetState(e: Engine, state: VoiceState): Engine {
    e.(state := state, wire := if e.state == state then e.wire else e.wire + [State(state)])
  }

  // -- tasks -------------------------------------------------------------------

  predicate AnswerAlive(t: Tasks) {
    t.answerTask.Some? && t.answerTask.value in t.answers
  }

  function Forget<T>(tasks: map<nat, T>, handle: Option<nat>): map<nat, T> {
    if handle.Some? then tasks - {handle.value} else tasks
  }

  function KillWorker(workers: map<nat, Worker>, handle: Option<nat>): map<nat, Worker> {
    if handle.Some? && handle.value in workers && Alive(workers[handle.value])
    then workers[handle.value := workers[handle.value].(killed := true)]
    else workers
  }

  function WithoutTts(t: Tasks): Tasks {
    t.(workers := KillWorker(t.workers, t.speechTask), speechTask := None,
       pipes := Forget(t.pipes, t.ttsTask), ttsTask := None)
  }

  function WithoutAnswer(t: Tasks): Tasks {
    t.(answers := Forget(t.answers, t.answerTask), answerTask := None)
  }

  function WithPipe(t: Tasks): Tasks {
    t.(pipes := t.pipes[t.made := Fresh], ttsTask := Some(t.made), made := t.made + 1)
  }

  function WithAnswer(t: Tasks): Tasks {
    t.(answers := t.answers[t.made := Created], answerTask := Some(t.made), made := t.made + 1)
  }

  function SetPipe(t: Tasks, p: nat, stage: Pipe): Tasks {
    t.(pipes := t.pipes[p := stage])
  }

  function DropPipe(t: Tasks, p: nat): Tasks {
    t.(pipes := t.pipes - {p})
  }

  function SetAnswer(t: Tasks, a: nat, stage: Answer): Tasks {
    t.(answers := t.answers[a := stage])
  }

  function DropAnswer(t: Tasks, a: nat): Tasks {
    t.(answers := t.answers - {a})
  }

  function SetWorker(t: Tasks, g: nat, worker: Worker): Tasks {
    t.(workers := t.workers[g := worker])
  }

  /** `_cancel_tts` */
  function CancelTts(e: Engine): Engine {
    e.(generation := e.generation + 1, tasks := WithoutTts(e.tasks))
  }

  /** `_cancel_tts` and `_cancel_answer`, with the pending playback forgotten. */
  function CancelAll(e: Engine): Engine {
    e.(generation := e.generation + 1, tasks := WithoutAnswer(WithoutTts(e.tasks)), pending := None, timer := false)
  }

  /** `_start_listening`: opens a fresh candidate window, watched for silence. */
  function StartListening(e: Engine): Engine {
    SetState(e.(mic := EMPTY_WINDOW, partialSince := 0, pending := None, watchdog := true), Listening)
  }

  /** LISTENING again over the window there is, watched for silence. */
  function ListenAgain(e: Engine): Engine {
    SetState(e.(watchdog := true), Listening)
  }

  // -- receive loop ------------------------------------------------------------

  function OnPlaybackComplete(e: Engine, generation: int): Engine {
    if e.state != Speaking || e.pending.None? || e.pending.value != generation then e
    else StartListening(e.(timer := false))
  }

  /** First half of `_request_end_turn`: true when an answer task is to follow. */
  predicate EndsTurn(e: Engine) {
    e.state == Listening && !AnswerAlive(e.tasks)
  }

  function OnEndTurn(e: Engine): Engine {
    if EndsTurn(e) then Emit(e.(watchdog := false, receiver := FinishTurn), Notice) else e
  }

  function OnInterrupt(e: Engine): Engine {
    SetState(CancelAll(e).(mic := e.mic.(buffer := []), partialSince := 0, watchdog := false, receiver := Reopen),
             Interrupted)
  }

  function OnPause(e: Engine): Engine {
    if e.state.Speaking? || e.state.Thinking? then
      SetState(CancelTts(e).(pending := None, timer := false, watchdog := false), Paused)
    else if e.state.Listening? || e.state.Processing? then SetState(e.(watchdog := false), Paused)
    else e
  }

  function OnResume(e: Engine): Engine {
    if e.state.Paused? then SetState(e.(receiver := ClearWindow), Listening) else e
  }

  /** With this chunk there is enough new audio for a partial transcript. */
  predicate PartialDue(e: Engine, chunk: Bytes) {
    |e.mic.buffer| + |chunk| - e.partialSince >= PARTIAL_BYTES
  }

  /** `_on_audio` in LISTENING. */
  function Record(e: Engine, chunk: Bytes): Engine {
    var heard := e.(mic := e.mic.(buffer := e.mic.buffer + chunk, accepted := Tally(e.mic.accepted, chunk)));
    if PartialDue(e, chunk) then heard.(partialSince := |e.mic.buffer| + |chunk|, receiver := Partial) else heard
  }

  /** `_on_audio`. `bargeIn`: the energy test of the opt-in voice barge-in fires
      on this chunk. */
  function OnAudio(e: Engine, chunk: Bytes, bargeIn: bool): Engine {
    if e.state.Listening? then Record(e, chunk)
    else if e.state.Speaking? || e.state.Thinking? then
      var counted := e.(mic := e.mic.(discardedTts := Tally(e.mic.discardedTts, chunk)));
      if bargeIn then OnInterrupt(counted) else counted
    else
      e.(mic := e.mic.(discardedOther := Tally(e.mic.discardedOther, chunk)))
  }

  function OnMessage(e: Engine, message: ClientMsg, bargeIn: bool): Engine {
    match message
    case StartTurn => StartListening(e)
    case EndTurn => OnEndTurn(e)
    case PlaybackComplete(generation) => OnPlaybackComplete(e, generation)
    case Interrupt => OnInterrupt(e)
    case Pause => OnPause(e)
    case Resume => OnResume(e)
    case Heartbeat => Emit(e, Notice)
    case Stop => e.(receiver := Ending(Completed))
    case Cancel => e.(receiver := Ending(Cancelled))
    case Mic(chunk) => OnAudio(e, chunk, bargeIn)
  }

  /** The receive loop resumes after an await inside a handler. */
  function Proceed(e: Engine): Engine {
    match e.receiver
    case Partial => if e.state.Listening? then Emit(e.(receiver := Ready), Notice) else e.(receiver := Ready)
    case FinishTurn => e.(tasks := WithAnswer(e.tasks), receiver := Ready)
    case Reopen => ListenAgain(e.(receiver := Ready))
    case ClearWindow => e.(mic := e.mic.(buffer := []), partialSince := 0, watchdog := true, receiver := Ready)
    case Ending(last) => SetState(CancelAll(e).(watchdog := false, receiver := Leaving), last)
    case Leaving => CancelAll(e).(running := false, receiver := Gone)
    case _ => e
  }

  // -- background tasks ----------------------------------------------------------

  /** `_start_session`. */
  function SessionStep(e: Engine, outcome: SessionOutcome): Engine {
    match e.session
    case Connecting =>
      (match outcome
       case Begins => SetState(e.(session := Warming), Starting)
       case Rejoins => Emit(e.(session := Rejoining), Notice)
       case Refused => Emit(e.(session := SessionDone), Notice))
    case Rejoining => StartListening(e.(session := SessionDone))
    case Warming => e.(session := SessionDone, tasks := WithPipe(e.tasks))
    case SessionDone => e
  }

  function PlaybackTimeout(e: Engine): Engine {
    if !e.timer then e
    else if e.pending.Some? && e.state == Speaking && e.generation == e.pending.value
    then StartListening(e.(timer := false)) else e.(timer := false)
  }

  /** `_silence_watchdog` finds the candidate silent, or leaves its loop. */
  function WatchdogEndsTurn(e: Engine): Engine {
    if !e.watchdog then e
    else if EndsTurn(e) then Emit(e.(watchdog := false, finalizing := e.finalizing + 1), Notice)
    else e.(watchdog := false)
  }

  function WatchdogCreates(e: Engine): Engine {
    if e.finalizing > 0 then e.(finalizing := e.finalizing - 1, tasks := WithAnswer(e.tasks)) else e
  }

  /** One step of pipeline `p`. `segments`: what the segmenter lets through for
      the next tokens; `last`: the model stream ended and the question is stored. */
  function PipeStep(e: Engine, p: nat, segments: seq<string>, last: bool): Engine
    requires p in e.tasks.pipes
  {
    var t := e.tasks;
    match t.pipes[p]
    case Fresh => e.(generation := e.generation + 1, tasks := SetPipe(t, p, Numbered(e.generation + 1)))
    case Numbered(g) => SetState(e.(tasks := SetPipe(t, p, Thought(g))), Thinking)
    case Thought(g) => Emit(e.(tasks := SetPipe(t, p, Started(g))), TtsStart(g))
    case Started(g) =>
      e.(tasks := SetPipe(SetWorker(t, g, NEW_WORKER), p, Streaming(g)).(speechTask := Some(g)))
    case Streaming(g) =>
      var fed := if g in t.workers then SetWorker(t, g, Put(t.workers[g], segments)) else t;
      if last then Emit(e.(questionKnown := true, tasks := SetPipe(fed, p, Asked(g))), Notice) else e.(tasks := fed)
    case Asked(g) =>
      var fed := if g in t.workers then SetWorker(t, g, Close(t.workers[g])) else t;
      e.(tasks := SetPipe(fed, p, Awaiting(g)))
    case Awaiting(g) =>
      if g in t.workers && Alive(t.workers[g]) then e
      else if e.generation == g && (e.state.Thinking? || e.state.Speaking?)
      then Emit(e.(tasks := SetPipe(t, p, Stopped(g))), TtsStop(g))
      else e.(tasks := DropPipe(t, p))
    case Stopped(g) => e.(pending := Some(g), timer := true, tasks := DropPipe(t, p))
  }

  /** The degrade path: the pipeline raised, its worker is left alone. */
  function PipeFails(e: Engine, p: nat): Engine
    requires p in e.tasks.pipes
  {
    ListenAgain(Emit(e.(tasks := DropPipe(e.tasks, p)), Notice))
  }

  predicate Current(e: Engine, g: nat) {
    e.generation == g && e.running
  }

  function ProducerStep(e: Engine, g: nat, outcome: seq<Bytes>): Engine
    requires g in e.tasks.workers
  {
    e.(tasks := SetWorker(e.tasks, g, Produce(e.tasks.workers[g], Current(e, g), outcome)))
  }

  function SenderStep(e: Engine, g: nat): Engine
    requires g in e.tasks.workers
  {
    var t, w := e.tasks, e.tasks.workers[g];
    match w.sender
    case Receiving => if w.frames == [] then e else e.(tasks := SetWorker(t, g, Take(w, Current(e, g))))
    case Holding(pcm) =>
      if !w.announced then SetState(e.(tasks := SetWorker(t, g, w.(announced := true))), Speaking)
      else Emit(e.(tasks := SetWorker(t, g, Relay(w))), Audio(Frame(g, pcm)))
    case SenderDone(_) => e
  }

  /** What ASR and the database do to an answer. */
  datatype AnswerOutcome = Goes | Silent | Raises

  function AnswerStep(e: Engine, a: nat, outcome: AnswerOutcome): Engine
    requires a in e.tasks.answers
  {
    var t, gone := e.tasks, e.(tasks := DropAnswer(e.tasks, a));
    match t.answers[a]
    case Created => SetState(e.(tasks := SetAnswer(t, a, Claimed)), Processing)
    case Claimed =>
      if e.mic.buffer == [] then ListenAgain(gone)
      else e.(mic := e.mic.(buffer := []), tasks := SetAnswer(t, a, Transcribing(e.mic.buffer)))
    case Transcribing(_) =>
      (match outcome
       case Goes => Emit(e.(tasks := SetAnswer(t, a, Submitting)), Notice)
       case Silent => Emit(e.(tasks := SetAnswer(t, a, Blank)), Notice)
       case Raises => gone)
    case Blank => ListenAgain(gone)
    case Submitting =>
      if !e.questionKnown || !outcome.Goes? then gone
      else Emit(e.(tasks := SetAnswer(t, a, Submitted)), Notice)
    case Submitted => if e.running then gone.(tasks := WithPipe(gone.tasks)) else gone
  }
}
