/** `VoiceEngine` as an object: the handlers of the receive loop, the playback
    guard and the task segments, updating the fields in place. Each method is
    proved to do what `EngineSteps` says, which is what the protocol theorems
    speak about. */
module VoiceEngine {
  import opened Wrappers
  import opened VoiceTypes
  import opened SpeechWorker
  import EngineSteps

  class VoiceEngine {
    var state: VoiceState
    var generation: nat
    var pendingGeneration: Option<nat>
    var timeoutArmed: bool
    var running: bool
    var audioBuf: Bytes
    var accepted: EngineSteps.Count
    var discardedTts: EngineSteps.Count
    var discardedOther: EngineSteps.Count
    var partialSince: nat
    var questionKnown: bool
    var session: EngineSteps.SessionTask
    var pipes: map<nat, EngineSteps.Pipe>
    var ttsTask: Option<nat>
    var workers: map<nat, Worker>
    var speechTask: Option<nat>
    var answers: map<nat, EngineSteps.Answer>
    var answerTask: Option<nat>
    var tasksMade: nat
    var silenceTask: bool
    var finalizing: nat
    var receiver: EngineSteps.Receiver
    var wire: seq<ServerMsg>

    function TasksView(): EngineSteps.Tasks
      reads this
    {
      EngineSteps.Tasks(pipes, ttsTask, workers, speechTask, answers, answerTask, tasksMade)
    }

    function View(): EngineSteps.Engine
      reads this
    {
      EngineSteps.Engine(state, generation, pendingGeneration, timeoutArmed, running,
                         EngineSteps.Window(audioBuf, accepted, discardedTts, discardedOther), partialSince,
                         questionKnown, session, TasksView(), silenceTask, finalizing, receiver, wire)
    }

    constructor ()
      ensures View() == EngineSteps.INITIAL
    {
      state, generation, pendingGeneration, timeoutArmed, running := Idle, 0, None, false, true;
      audioBuf, partialSince := [], 0;
      accepted, discardedTts, discardedOther := EngineSteps.Count(0, 0), EngineSteps.Count(0, 0), EngineSteps.Count(0, 0);
      questionKnown, session := false, EngineSteps.Connecting;
      pipes, ttsTask, workers, speechTask, answers, answerTask, tasksMade := map[], None, map[], None, map[], None, 0;
      silenceTask, finalizing, receiver, wire := false, 0, EngineSteps.Ready, [];
    }

    method Emit(message: ServerMsg)
      modifies this`wire
      ensures wire == old(wire) + [message]
    {
      wire := wire + [message];
    }

    method ClearBuffer()
      modifies this`audioBuf, this`partialSince
      ensures View() == old(View()).(mic := old(View()).mic.(buffer := []), partialSince := 0)
    {
      audioBuf, partialSince := [], 0;
    }

    /** A new window: nothing recorded, nothing counted. */
    method ResetWindow()
      modifies this
      ensures View() == old(View()).(mic := EngineSteps.EMPTY_WINDOW, partialSince := 0)
    {
      ClearBuffer();
      discardedTts, discardedOther, accepted := EngineSteps.Count(0, 0), EngineSteps.Count(0, 0), EngineSteps.Count(0, 0);
    }

    method SetState(next: VoiceState)
      modifies this`state, this`wire
      ensures View() == EngineSteps.SetState(old(View()), next)
    {
      if state != next {
        state := next;
        Emit(State(next));
      }
    }

    /** The two tasks of `_cancel_tts`, cancelled and awaited. */
    method CancelSpeechTasks()
      modifies this`workers, this`speechTask, this`pipes, this`ttsTask
      ensures TasksView() == EngineSteps.WithoutTts(old(TasksView()))
    {
      if speechTask.Some? && speechTask.value in workers && Alive(workers[speechTask.value]) {
        workers := workers[speechTask.value := workers[speechTask.value].(killed := true)];
      }
      speechTask := None;
      if ttsTask.Some? {
        pipes := pipes - {ttsTask.value};
      }
      ttsTask := None;
    }

    method CancelTts()
      modifies this`generation, this`workers, this`speechTask, this`pipes, this`ttsTask
      ensures View() == EngineSteps.CancelTts(old(View()))
    {
      generation := generation + 1;
      CancelSpeechTasks();
    }

    method CancelAnswer()
      modifies this`answers, this`answerTask
      ensures View() == old(View()).(tasks := EngineSteps.WithoutAnswer(old(View()).tasks))
    {
      if answerTask.Some? {
        answers := answers - {answerTask.value};
      }
      answerTask := None;
    }

    /** Speech, answer and the playback that is waited for. */
    method CancelEverything()
      modifies this
      ensures View() == EngineSteps.CancelAll(old(View()))
    {
      CancelTts();
      CancelAnswer();
      pendingGeneration := None;
      timeoutArmed := false;
    }

    method AskNextQuestion()
      modifies this`pipes, this`ttsTask, this`tasksMade
      ensures View() == old(View()).(tasks := EngineSteps.WithPipe(old(View()).tasks))
    {
      pipes, ttsTask := pipes[tasksMade := EngineSteps.Fresh], Some(tasksMade);
      tasksMade := tasksMade + 1;
    }

    /** `_set_state(LISTENING)`, then `_start_silence_watchdog`, which keeps a live one. */
    method ListenAgain()
      modifies this`state, this`wire, this`silenceTask
      ensures View() == EngineSteps.ListenAgain(old(View()))
    {
      SetState(Listening);
      if !silenceTask {
        silenceTask := true;
      }
    }

    /** The task of `_process_answer` is created. */
    method ProcessAnswer()
      modifies this`answers, this`answerTask, this`tasksMade
      ensures View() == old(View()).(tasks := EngineSteps.WithAnswer(old(View()).tasks))
    {
      answers, answerTask := answers[tasksMade := EngineSteps.Created], Some(tasksMade);
      tasksMade := tasksMade + 1;
    }

    method StartListening()
      modifies this
      ensures View() == EngineSteps.StartListening(old(View()))
    {
      ResetWindow();
      pendingGeneration := None;
      ListenAgain();
    }

    method OnPlaybackComplete(acked: int)
      modifies this
      ensures View() == EngineSteps.OnPlaybackComplete(old(View()), acked)
    {
      if state != Speaking {
        return;
      }
      if pendingGeneration.None? || pendingGeneration.value != acked {
        return;
      }
      pendingGeneration := None;
      timeoutArmed := false;
      StartListening();
    }

    method PlaybackTimeoutGuard()
      modifies this
      ensures View() == EngineSteps.PlaybackTimeout(old(View()))
    {
      if timeoutArmed {
        timeoutArmed := false;
        if pendingGeneration.Some? && state == Speaking && generation == pendingGeneration.value {
          StartListening();
        }
      }
    }

    /** First half of `_request_end_turn`, in the receive loop. */
    method RequestEndTurn()
      modifies this
      ensures View() == EngineSteps.OnEndTurn(old(View()))
    {
      if state != Listening {
        return;
      }
      if answerTask.Some? && answerTask.value in answers {
        return;
      }
      silenceTask := false;
      Emit(Notice);
      receiver := EngineSteps.FinishTurn;
    }

    /** `_silence_watchdog` finds the candidate silent, or the window closed. */
    method SilenceWatchdog()
      modifies this`silenceTask, this`finalizing, this`wire
      ensures View() == EngineSteps.WatchdogEndsTurn(old(View()))
    {
      if silenceTask {
        silenceTask := false;
        if state == Listening && !(answerTask.Some? && answerTask.value in answers) {
          Emit(Notice);
          finalizing := finalizing + 1;
        }
      }
    }

    /** The watchdog's half of `_request_end_turn` after `turn_ended`. */
    method FinishSilence()
      modifies this`finalizing, this`answers, this`answerTask, this`tasksMade
      ensures View() == EngineSteps.WatchdogCreates(old(View()))
    {
      if finalizing > 0 {
        finalizing := finalizing - 1;
        ProcessAnswer();
      }
    }

    method Interrupt()
      modifies this
      ensures View() == EngineSteps.OnInterrupt(old(View()))
    {
      CancelEverything();
      ClearBuffer();
      silenceTask := false;
      receiver := EngineSteps.Reopen;
      SetState(Interrupted);
    }

    /** What a pause cancels while the interviewer owns the turn. */
    method StopTalking()
      modifies this
      ensures View() == EngineSteps.CancelTts(old(View())).(pending := None, timer := false)
    {
      CancelTts();
      pendingGeneration := None;
      timeoutArmed := false;
    }

    method Pause()
      modifies this
      ensures View() == EngineSteps.OnPause(old(View()))
    {
      if state.Listening? || state.Processing? || state.Speaking? || state.Thinking? {
        if state.Speaking? || state.Thinking? {
          StopTalking();
        }
        silenceTask := false;
        SetState(Paused);
      }
    }

    method Resume()
      modifies this
      ensures View() == EngineSteps.OnResume(old(View()))
    {
      if state.Paused? {
        receiver := EngineSteps.ClearWindow;
        SetState(Listening);
      }
    }

    method Accept(chunk: Bytes)
      modifies this`audioBuf, this`accepted
      ensures View() == old(View()).(mic := old(View()).mic.(buffer := old(audioBuf) + chunk,
                                                             accepted := EngineSteps.Tally(old(accepted), chunk)))
    {
      audioBuf := audioBuf + chunk;
      accepted := EngineSteps.Tally(accepted, chunk);
    }

    /** A chunk of the candidate's window; a partial transcript is due after enough of them. */
    method Record(chunk: Bytes)
      modifies this
      ensures View() == EngineSteps.Record(old(View()), chunk)
    {
      Accept(chunk);
      if |audioBuf| - partialSince >= EngineSteps.PARTIAL_BYTES {
        partialSince := |audioBuf|;
        receiver := EngineSteps.Partial;
      }
    }

    method OnAudio(chunk: Bytes, bargeIn: bool)
      modifies this
      ensures View() == EngineSteps.OnAudio(old(View()), chunk, bargeIn)
    {
      if state.Listening? {
        Record(chunk);
      } else if state.Speaking? || state.Thinking? {
        discardedTts := EngineSteps.Tally(discardedTts, chunk);
        if bargeIn {
          Interrupt();
        }
      } else {
        discardedOther := EngineSteps.Tally(discardedOther, chunk);
      }
    }

    /** `_on_control` and `_on_audio`: one message of the client. */
    method Handle(message: ClientMsg, bargeIn: bool)
      modifies this
      ensures View() == EngineSteps.OnMessage(old(View()), message, bargeIn)
    {
      match message
      case StartTurn => StartListening();
      case EndTurn => RequestEndTurn();
      case PlaybackComplete(acked) => OnPlaybackComplete(acked);
      case Interrupt => Interrupt();
      case Pause => Pause();
      case Resume => Resume();
      case Heartbeat => Emit(Notice);
      case Stop => receiver := EngineSteps.Ending(Completed);
      case Cancel => receiver := EngineSteps.Ending(Cancelled);
      case Mic(chunk) => OnAudio(chunk, bargeIn);
    }

    /** `_stop` and `_cancel` once the interview row is closed. */
    method Finish()
      requires receiver.Ending?
      modifies this
      ensures View() == EngineSteps.Proceed(old(View()))
    {
      var last := receiver.last;
      CancelEverything();
      silenceTask := false;
      receiver := EngineSteps.Leaving;
      SetState(last);
    }

    /** The `finally` of `run`: whatever is left is cancelled. */
    method Leave()
      requires receiver.Leaving?
      modifies this
      ensures View() == EngineSteps.Proceed(old(View()))
    {
      CancelEverything();
      running := false;
      receiver := EngineSteps.Gone;
    }

    /** The opening of `_speak_next_question`: a generation, THINKING, `tts_start`. */
    method OpenQuestion(pipe: nat)
      requires pipe in pipes && (pipes[pipe].Fresh? || pipes[pipe].Numbered? || pipes[pipe].Thought?)
      modifies this`generation, this`pipes, this`state, this`wire
      ensures View() == EngineSteps.PipeStep(old(View()), pipe, [], false)
    {
      match pipes[pipe]
      case Fresh =>
        generation := generation + 1;
        pipes := pipes[pipe := EngineSteps.Numbered(generation)];
      case Numbered(g) =>
        pipes := pipes[pipe := EngineSteps.Thought(g)];
        SetState(Thinking);
      case Thought(g) =>
        pipes := pipes[pipe := EngineSteps.Started(g)];
        Emit(TtsStart(g));
    }

    method SpawnWorker(pipe: nat)
      requires pipe in pipes && pipes[pipe].Started?
      modifies this`pipes, this`workers, this`speechTask
      ensures View() == EngineSteps.PipeStep(old(View()), pipe, [], false)
    {
      var g := pipes[pipe].generation;
      workers := workers[g := NEW_WORKER];
      speechTask := Some(g);
      pipes := pipes[pipe := EngineSteps.Streaming(g)];
    }

    /** What the segmenter lets through goes into the segment queue. */
    method PutSegments(pipe: nat, segments: seq<string>)
      requires pipe in pipes && pipes[pipe].Streaming?
      modifies this`workers
      ensures View() == EngineSteps.PipeStep(old(View()), pipe, segments, false)
    {
      var g := pipes[pipe].generation;
      if g in workers {
        workers := workers[g := Put(workers[g], segments)];
      }
    }

    method MarkAsked(pipe: nat)
      requires pipe in pipes && pipes[pipe].Streaming?
      modifies this`questionKnown, this`pipes
      ensures View() == old(View()).(questionKnown := true,
                tasks := EngineSteps.SetPipe(old(TasksView()), pipe, EngineSteps.Asked(old(pipes)[pipe].generation)))
    {
      questionKnown := true;
      pipes := pipes[pipe := EngineSteps.Asked(pipes[pipe].generation)];
    }

    /** With the last tokens the question is stored and announced. */
    method FinishQuestion(pipe: nat, segments: seq<string>)
      requires pipe in pipes && pipes[pipe].Streaming?
      modifies this`workers, this`questionKnown, this`pipes, this`wire
      ensures View() == EngineSteps.PipeStep(old(View()), pipe, segments, true)
    {
      PutSegments(pipe, segments);
      MarkAsked(pipe);
      Emit(Notice);
    }

    /** The end marker goes into the segment queue. */
    method CloseQuestion(pipe: nat)
      requires pipe in pipes && pipes[pipe].Asked?
      modifies this`workers, this`pipes
      ensures View() == EngineSteps.PipeStep(old(View()), pipe, [], false)
    {
      var g := pipes[pipe].generation;
      if g in workers {
        workers := workers[g := Close(workers[g])];
      }
      pipes := pipes[pipe := EngineSteps.Awaiting(g)];
    }

    /** The end of `_speak_next_question`: all audio sent, then `tts_stop`. */
    method StopSpeaking(pipe: nat)
      requires pipe in pipes && pipes[pipe].Awaiting?
      modifies this
      ensures View() == EngineSteps.PipeStep(old(View()), pipe, [], false)
    {
      var g := pipes[pipe].generation;
      if !(g in workers && Alive(workers[g])) {
        if generation == g && (state == Thinking || state == Speaking) {
          pipes := pipes[pipe := EngineSteps.Stopped(g)];
          Emit(TtsStop(g));
        } else {
          pipes := pipes - {pipe};
        }
      }
    }

    method AwaitPlayback(pipe: nat)
      requires pipe in pipes && pipes[pipe].Stopped?
      modifies this
      ensures View() == EngineSteps.PipeStep(old(View()), pipe, [], false)
    {
      pendingGeneration := Some(pipes[pipe].generation);
      timeoutArmed := true;
      pipes := pipes - {pipe};
    }

    /** The degrade path of `_speak_next_question`: an error event, and LISTENING. */
    method DegradeToText(pipe: nat)
      requires pipe in pipes
      modifies this
      ensures View() == EngineSteps.PipeFails(old(View()), pipe)
    {
      pipes := pipes - {pipe};
      Emit(Notice);
      ListenAgain();
    }

    /** One turn of the question pipeline, whatever its stage. */
    method PipelineTurn(pipe: nat, segments: seq<string>, last: bool)
      requires pipe in pipes
      modifies this
      ensures View() == EngineSteps.PipeStep(old(View()), pipe, segments, last)
    {
      StageIgnoresTokens(View(), pipe, segments, last);
      match pipes[pipe]
      case Started(_) => SpawnWorker(pipe);
      case Streaming(_) =>
        if last {
          FinishQuestion(pipe, segments);
        } else {
          PutSegments(pipe, segments);
        }
      case Asked(_) => CloseQuestion(pipe);
      case Awaiting(_) => StopSpeaking(pipe);
      case Stopped(_) => AwaitPlayback(pipe);
      case _ => OpenQuestion(pipe);
    }

    /** One turn of the producer loop of `_speech_worker`. */
    method ProducerTurn(g: nat, outcome: seq<Bytes>)
      requires g in workers
      modifies this`workers
      ensures View() == EngineSteps.ProducerStep(old(View()), g, outcome)
    {
      workers := workers[g := Produce(workers[g], generation == g && running, outcome)];
    }

    /** One turn of the sender loop of `_speech_worker`. */
    method SenderTurn(g: nat)
      requires g in workers
      modifies this
      ensures View() == EngineSteps.SenderStep(old(View()), g)
    {
      var w := workers[g];
      match w.sender
      case Receiving =>
        if w.frames != [] {
          workers := workers[g := Take(w, generation == g && running)];
        }
      case Holding(pcm) =>
        if !w.announced {
          workers := workers[g := w.(announced := true)];
          SetState(Speaking);
        } else {
          workers := workers[g := Relay(w)];
          Emit(Audio(Frame(g, pcm)));
        }
      case SenderDone(_) =>
    }

    /** `_process_answer` up to its first broadcast. */
    method StartAnswer(answer: nat)
      requires answer in answers && answers[answer].Created?
      modifies this`answers, this`state, this`wire
      ensures View() == EngineSteps.AnswerStep(old(View()), answer, EngineSteps.Goes)
    {
      answers := answers[answer := EngineSteps.Claimed];
      SetState(Processing);
    }

    /** The first segment of `_process_answer`: the buffer becomes the answer. */
    method ClaimAudio(answer: nat)
      requires answer in answers && answers[answer].Claimed?
      modifies this
      ensures View() == EngineSteps.AnswerStep(old(View()), answer, EngineSteps.Goes)
    {
      var audio := audioBuf;
      audioBuf := [];
      if audio == [] {
        answers := answers - {answer};
        ListenAgain();
      } else {
        answers := answers[answer := EngineSteps.Transcribing(audio)];
      }
    }

    /** `_process_answer` after recognition: the transcript is announced, or found blank. */
    method FinishRecognition(answer: nat, outcome: EngineSteps.AnswerOutcome)
      requires answer in answers && answers[answer].Transcribing?
      modifies this`answers, this`wire
      ensures View() == EngineSteps.AnswerStep(old(View()), answer, outcome)
    {
      match outcome
      case Goes =>
        answers := answers[answer := EngineSteps.Submitting];
        Emit(Notice);
      case Silent =>
        answers := answers[answer := EngineSteps.Blank];
        Emit(Notice);
      case Raises =>
        answers := answers - {answer};
    }

    /** The answer is stored and, when the engine still runs, the next question asked. */
    method CompleteAnswer(answer: nat, outcome: EngineSteps.AnswerOutcome)
      requires answer in answers && (answers[answer].Submitting? || answers[answer].Submitted? || answers[answer].Blank?)
      modifies this`answers, this`wire, this`state, this`pipes, this`ttsTask, this`tasksMade, this`silenceTask
      ensures View() == EngineSteps.AnswerStep(old(View()), answer, outcome)
    {
      match answers[answer]
      case Submitting =>
        if !questionKnown || !outcome.Goes? {
          answers := answers - {answer};
        } else {
          answers := answers[answer := EngineSteps.Submitted];
          Emit(Notice);
        }
      case Submitted =>
        answers := answers - {answer};
        if running {
          AskNextQuestion();
        }
      case Blank =>
        answers := answers - {answer};
        ListenAgain();
    }

    /** One turn of an answer task, whatever its stage. */
    method AnswerTurn(answer: nat, outcome: EngineSteps.AnswerOutcome)
      requires answer in answers
      modifies this
      ensures View() == EngineSteps.AnswerStep(old(View()), answer, outcome)
    {
      match answers[answer]
      case Created => StartAnswer(answer);
      case Claimed => ClaimAudio(answer);
      case Transcribing(_) => FinishRecognition(answer, outcome);
      case _ => CompleteAnswer(answer, outcome);
    }

    /** `_start_session`: warm up and ask, rejoin an interview under way, or report an error. */
    method StartSession(found: EngineSteps.SessionOutcome)
      modifies this
      ensures View() == EngineSteps.SessionStep(old(View()), found)
    {
      match session
      case Connecting =>
        if found.Begins? {
          session := EngineSteps.Warming;
          SetState(Starting);
        } else {
          session := if found.Rejoins? then EngineSteps.Rejoining else EngineSteps.SessionDone;
          Emit(Notice);
        }
      case Rejoining =>
        session := EngineSteps.SessionDone;
        StartListening();
      case Warming =>
        session := EngineSteps.SessionDone;
        AskNextQuestion();
      case SessionDone =>
    }

    /** The receive loop goes on with the message it was handling. */
    method ResumeHandler()
      requires receiver.Partial? || receiver.Reopen? || receiver.ClearWindow?
      modifies this`receiver, this`audioBuf, this`partialSince, this`silenceTask, this`state, this`wire
      ensures View() == EngineSteps.Proceed(old(View()))
    {
      var paused := receiver;
      receiver := EngineSteps.Ready;
      if paused.Partial? {
        if state.Listening? {
          Emit(Notice);
        }
      } else if paused.Reopen? {
        ListenAgain();
      } else {
        ClearBuffer();
        silenceTask := true;
      }
    }

    /** Second half of `_request_end_turn`. */
    method CreateAnswerTask()
      requires receiver.FinishTurn?
      modifies this`receiver, this`answers, this`answerTask, this`tasksMade
      ensures View() == EngineSteps.Proceed(old(View()))
    {
      receiver := EngineSteps.Ready;
      ProcessAnswer();
    }

    /** The receive loop goes on, whatever it was doing. */
    method GoOn()
      modifies this
      ensures View() == EngineSteps.Proceed(old(View()))
    {
      match receiver
      case FinishTurn => CreateAnswerTask();
      case Ending(_) => Finish();
      case Leaving => Leave();
      case Ready =>
      case Gone =>
      case _ => ResumeHandler();
    }
  }

  /** Only a pipeline that consumes tokens looks at them. */
  lemma StageIgnoresTokens(e: EngineSteps.Engine, p: nat, segments: seq<string>, last: bool)
    requires p in e.tasks.pipes
    ensures !e.tasks.pipes[p].Streaming? ==> EngineSteps.PipeStep(e, p, segments, last) == EngineSteps.PipeStep(e, p, [], false)
  {}
}
