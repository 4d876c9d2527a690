/** Concrete stretches of runs, from which the counterexamples are put together.
    Each scene says which disciplined steps lead from one system to another. */
module VoiceScenes {
  import opened Wrappers
  import opened VoiceTypes
  import opened SpeechWorker
  import opened EngineSteps
  import opened ClientSteps
  import opened VoiceProtocol
  import opened VoiceIntegrity
  import opened VoicePlaying

  const RECEIVE := ServerReceives(false)
  const HEAR := ClientReceives

  // -- putting stretches together ----------------------------------------------------

  /** A step on which the hypotheses about playback have nothing to say. */
  predicate Plain(l: Step) {
    !l.SourceEnds? && !l.TimerFires? && (l.UserSends? ==> !l.message.PlaybackComplete?)
  }

  ghost predicate PlainRun(s: System, steps: seq<Step>) {
    DisciplinedRun(s, steps) && forall i :: 0 <= i < |steps| ==> Plain(steps[i])
  }

  /** Disciplined, plain steps lead from `s` to `t`. */
  ghost predicate Leads(s: System, steps: seq<Step>, t: System) {
    Run(s, steps) == t && PlainRun(s, steps)
  }

  /** All hypotheses of the voice theorems hold of a plain run. */
  lemma PlainRunsAreRegular(s: System, steps: seq<Step>)
    requires PlainRun(s, steps)
    ensures DisciplinedRun(s, steps) && SteadyRun(s, steps) && PatientRun(s, steps)
  {}

  lemma LeadsOn(s: System, steps: seq<Step>, t: System, l: Step)
    requires Leads(s, steps, t) && Disciplined(t, l) && Plain(l)
    ensures Leads(s, steps + [l], Apply(t, l))
  {
    var more := steps + [l];
    assert more[..|steps|] == steps;
    forall i | 0 <= i < |more|
      ensures Disciplined(Run(s, more[..i]), more[i])
    {
      if i < |steps| {
        assert more[..i] == steps[..i] && more[i] == steps[i];
        assert Disciplined(Run(s, steps[..i]), steps[i]);
      }
    }
  }

  lemma {:induction false} RunThen(s: System, first: seq<Step>, more: seq<Step>)
    ensures Run(s, first + more) == Run(Run(s, first), more)
    decreases |more|
  {
    if more == [] {
      assert first + more == first;
    } else {
      RunThen(s, first, more[..|more| - 1]);
      assert (first + more)[..|first + more| - 1] == first + more[..|more| - 1];
    }
  }

  lemma LeadsThen(s: System, first: seq<Step>, t: System, more: seq<Step>, u: System)
    requires Leads(s, first, t) && Leads(t, more, u)
    ensures Leads(s, first + more, u)
  {
    var whole, n := first + more, |first|;
    RunThen(s, first, more);
    forall i | 0 <= i < |whole|
      ensures Disciplined(Run(s, whole[..i]), whole[i])
    {
      if i < n {
        assert whole[..i] == first[..i] && whole[i] == first[i];
        assert Disciplined(Run(s, first[..i]), first[i]);
      } else {
        assert whole[..i] == first + more[..i - n] && whole[i] == more[i - n];
        RunThen(s, first, more[..i - n]);
        assert Disciplined(Run(t, more[..i - n]), more[i - n]);
      }
    }
  }

  lemma OneStep(s: System, l: Step)
    requires Disciplined(s, l) && Plain(l)
    ensures Leads(s, [l], Apply(s, l))
  {
    LeadsOn(s, [], s, l);
    assert [] + [l] == [l];
  }

  lemma TwoSteps(s: System, a: Step, b: Step)
    requires Disciplined(s, a) && Disciplined(Apply(s, a), b) && Plain(a) && Plain(b)
    ensures Leads(s, [a] + [b], Apply(Apply(s, a), b))
  {
    OneStep(s, a);
    LeadsOn(s, [a], Apply(s, a), b);
  }

  lemma ThreeSteps(s: System, a: Step, b: Step, c: Step)
    requires Disciplined(s, a) && Disciplined(Apply(s, a), b) && Disciplined(Apply(Apply(s, a), b), c)
    requires Plain(a) && Plain(b) && Plain(c)
    ensures Leads(s, [a] + [b] + [c], Apply(Apply(Apply(s, a), b), c))
  {
    TwoSteps(s, a, b);
    LeadsOn(s, [a] + [b], Apply(Apply(s, a), b), c);
  }

  // -- what the candidate does ---------------------------------------------------------

  /** The receive loop waits for a message and the client has sent none. */
  predicate Calm(s: System) {
    s.up == [] && s.client.open && s.engine.receiver.Ready? && s.engine.running
  }

  /** A control is sent; handling it is the next step. */
  lemma Told(s: System, message: ClientMsg)
    requires Calm(s) && !message.PlaybackComplete?
    ensures Leads(s, [UserSends(message)], s.(up := [message]))
    ensures Apply(s.(up := [message]), RECEIVE) == s.(engine := OnMessage(s.engine, message, false))
  {
    OneStep(s, UserSends(message));
    assert [] + [message] == [message];
  }

  lemma Tell(s: System, message: ClientMsg)
    requires Calm(s) && Admissible(s.engine, message) && !message.PlaybackComplete?
    ensures Leads(s, [UserSends(message)] + [RECEIVE], s.(engine := OnMessage(s.engine, message, false)))
  {
    Told(s, message);
    LeadsOn(s, [UserSends(message)], s.(up := [message]), RECEIVE);
  }

  lemma Speak(s: System, chunk: Bytes)
    requires Calm(s) && s.engine.state.Listening? && (s.client.state.Listening? || s.client.state.Speaking?)
    requires !PartialDue(s.engine, chunk)
    ensures Leads(s, [UserSpeaks(chunk)] + [RECEIVE], s.(engine := Record(s.engine, chunk)))
  {
    assert [] + [Mic(chunk)] == [Mic(chunk)];
    assert Apply(s, UserSpeaks(chunk)) == s.(up := [Mic(chunk)]);
    TwoSteps(s, UserSpeaks(chunk), RECEIVE);
  }

  /** The candidate interrupts, and the window opens. */
  lemma BargeIn(s: System)
    requires Calm(s) && s.engine.session.SessionDone? && s.engine.finalizing == 0
    ensures Leads(s, [UserInterrupts] + [RECEIVE] + [ServerProceeds],
                  s.(client := Silence(s.client), engine := ListenAgain(OnInterrupt(s.engine).(receiver := Ready))))
  {
    var b := s.(client := Silence(s.client), engine := OnInterrupt(s.engine));
    InterruptHandled(s);
    LeadsOn(s, [UserInterrupts] + [RECEIVE], b, ServerProceeds);
  }

  lemma InterruptHandled(s: System)
    requires Calm(s) && s.engine.session.SessionDone? && s.engine.finalizing == 0
    ensures Leads(s, [UserInterrupts] + [RECEIVE], s.(client := Silence(s.client), engine := OnInterrupt(s.engine)))
  {
    var a := s.(client := Silence(s.client), up := [ClientMsg.Interrupt]);
    assert [] + [ClientMsg.Interrupt] == [ClientMsg.Interrupt];
    OneStep(s, UserInterrupts);
    LeadsOn(s, [UserInterrupts], a, RECEIVE);
  }

  function TurnEnded(e: Engine): Engine {
    e.(watchdog := false, wire := e.wire + [Notice], tasks := WithAnswer(e.tasks))
  }

  lemma EndTheTurn(s: System) returns (steps: seq<Step>)
    requires Calm(s) && EndsTurn(s.engine) && s.engine.finalizing == 0
    ensures Leads(s, steps, s.(engine := TurnEnded(s.engine)))
  {
    Tell(s, EndTurn);
    steps := [UserSends(EndTurn)] + [RECEIVE] + [ServerProceeds];
    var asked := s.(engine := OnMessage(s.engine, EndTurn, false));
    LeadsOn(s, [UserSends(EndTurn)] + [RECEIVE], asked, ServerProceeds);
  }

  // -- what an answer task does --------------------------------------------------------

  function Claiming(e: Engine, a: nat): Engine {
    SetState(e, Processing).(mic := e.mic.(buffer := []), tasks := SetAnswer(e.tasks, a, Transcribing(e.mic.buffer)))
  }

  /** The task takes the audio. */
  lemma Claim(s: System, a: nat)
    requires !s.engine.receiver.Gone? && s.engine.mic.buffer != []
    requires a in s.engine.tasks.answers && s.engine.tasks.answers[a].Created?
    ensures Leads(s, [AnswerRuns(a, Goes)] + [AnswerRuns(a, Goes)], s.(engine := Claiming(s.engine, a)))
  {
    TwoSteps(s, AnswerRuns(a, Goes), AnswerRuns(a, Goes));
    var t := s.engine.tasks;
    assert t.answers[a := Claimed][a := Transcribing(s.engine.mic.buffer)] == t.answers[a := Transcribing(s.engine.mic.buffer)];
  }

  /** The transcript is stored as the answer. */
  lemma Submit(s: System, a: nat)
    requires !s.engine.receiver.Gone? && s.engine.questionKnown
    requires a in s.engine.tasks.answers && s.engine.tasks.answers[a].Transcribing?
    ensures Leads(s, [AnswerRuns(a, Goes)] + [AnswerRuns(a, Goes)],
                  s.(engine := s.engine.(wire := s.engine.wire + [Notice] + [Notice],
                                         tasks := SetAnswer(s.engine.tasks, a, Submitted))))
  {
    TwoSteps(s, AnswerRuns(a, Goes), AnswerRuns(a, Goes));
    var t := s.engine.tasks;
    assert t.answers[a := Submitting][a := Submitted] == t.answers[a := Submitted];
  }

  /** The next question is asked. */
  lemma AskNext(s: System, a: nat)
    requires !s.engine.receiver.Gone? && s.engine.running
    requires a in s.engine.tasks.answers && s.engine.tasks.answers[a].Submitted?
    ensures Leads(s, [AnswerRuns(a, Goes)], s.(engine := s.engine.(tasks := WithPipe(DropAnswer(s.engine.tasks, a)))))
  {
    OneStep(s, AnswerRuns(a, Goes));
  }

  // -- what a question does ------------------------------------------------------------

  function Announcing(e: Engine, p: nat): Engine {
    SetState(e.(generation := e.generation + 1), Thinking).(
      wire := SetState(e, Thinking).wire + [TtsStart(e.generation + 1)],
      tasks := SetPipe(e.tasks, p, Started(e.generation + 1)))
  }

  /** A generation is taken and announced. */
  lemma Announce(s: System, p: nat)
    requires !s.engine.receiver.Gone? && p in s.engine.tasks.pipes && s.engine.tasks.pipes[p].Fresh?
    ensures var next := PipelineRuns(p, [], false);
            Leads(s, [next] + [next] + [next], s.(engine := Announcing(s.engine, p)))
  {
    var next := PipelineRuns(p, [], false);
    AnnounceSteps(s, p);
    ThreeSteps(s, next, next, next);
  }

  lemma AnnounceSteps(s: System, p: nat)
    requires !s.engine.receiver.Gone? && p in s.engine.tasks.pipes && s.engine.tasks.pipes[p].Fresh?
    ensures var next := PipelineRuns(p, [], false);
            Apply(Apply(Apply(s, next), next), next) == s.(engine := Announcing(s.engine, p))
  {
    var t, g := s.engine.tasks, s.engine.generation + 1;
    assert t.pipes[p := Numbered(g)][p := Thought(g)] == t.pipes[p := Thought(g)];
    assert t.pipes[p := Thought(g)][p := Started(g)] == t.pipes[p := Started(g)];
  }

  /** The worker is spawned, and the model stream ends without a word to speak. */
  lemma FinishMute(s: System, p: nat, g: nat)
    requires !s.engine.receiver.Gone? && p in s.engine.tasks.pipes && s.engine.tasks.pipes[p] == Started(g)
    ensures Leads(s, [PipelineRuns(p, [], false)] + [PipelineRuns(p, [], true)],
                  s.(engine := s.engine.(questionKnown := true, wire := s.engine.wire + [Notice],
                                         tasks := SetPipe(SetWorker(s.engine.tasks, g, NEW_WORKER), p, Asked(g)).(speechTask := Some(g)))))
  {
    TwoSteps(s, PipelineRuns(p, [], false), PipelineRuns(p, [], true));
    var t := s.engine.tasks;
    assert Put(NEW_WORKER, []) == NEW_WORKER;
    assert t.workers[g := NEW_WORKER][g := NEW_WORKER] == t.workers[g := NEW_WORKER];
    assert t.pipes[p := Streaming(g)][p := Asked(g)] == t.pipes[p := Asked(g)];
  }

  const WORDS := ["Why?"]
  const HELLO: Bytes := [1]
  const AGAIN: Bytes := [2]

  /** The worker is spawned and gets its first words. */
  lemma Feed(s: System, p: nat, g: nat)
    requires !s.engine.receiver.Gone? && p in s.engine.tasks.pipes && s.engine.tasks.pipes[p] == Started(g)
    ensures Leads(s, [PipelineRuns(p, [], false)] + [PipelineRuns(p, WORDS, false)],
                  s.(engine := s.engine.(tasks := SetPipe(SetWorker(s.engine.tasks, g, NEW_WORKER.(given := WORDS)), p,
                                                          Streaming(g)).(speechTask := Some(g)))))
  {
    TwoSteps(s, PipelineRuns(p, [], false), PipelineRuns(p, WORDS, false));
    var t := s.engine.tasks;
    assert t.workers[g := NEW_WORKER][g := NEW_WORKER.(given := WORDS)] == t.workers[g := NEW_WORKER.(given := WORDS)];
    assert Put(NEW_WORKER, WORDS) == NEW_WORKER.(given := WORDS);
  }

  /** The worker of generation `g` moves, nothing else. */
  lemma WorkerMoves(s: System, g: nat, l: Step, w: Worker)
    requires !s.engine.receiver.Gone? && Current(s.engine, g) && g in s.engine.tasks.workers && Alive(s.engine.tasks.workers[g])
    requires var was := s.engine.tasks.workers[g];
             || (l.ProducerRuns? && l.generation == g && w == Produce(was, true, l.outcome))
             || (l == SenderRuns(g) && was.sender.Receiving? && was.frames != [] && w == Take(was, true))
    ensures Leads(s, [l], s.(engine := s.engine.(tasks := SetWorker(s.engine.tasks, g, w))))
  {
    OneStep(s, l);
  }

  const GIVEN := NEW_WORKER.(given := WORDS)
  const TAKEN := GIVEN.(taken := 1, outcomes := [[HELLO, AGAIN]])
  /** The first frame is in the sender's hands and SPEAKING is announced. */
  const TALKING := TAKEN.(producer := Synthesising([AGAIN]), sender := Holding(HELLO), announced := true)

  function WithWorker(s: System, g: nat, w: Worker): System {
    s.(engine := s.engine.(tasks := SetWorker(s.engine.tasks, g, w)))
  }

  /** Worker moves in a row amount to the last of them. */
  lemma WorkerAgain(s: System, steps: seq<Step>, g: nat, v: Worker, l: Step, w: Worker)
    requires !s.engine.receiver.Gone? && Current(s.engine, g) && Alive(v)
    requires Leads(s, steps, WithWorker(s, g, v))
    requires || (l.ProducerRuns? && l.generation == g && w == Produce(v, true, l.outcome))
             || (l == SenderRuns(g) && v.sender.Receiving? && v.frames != [] && w == Take(v, true))
    ensures Leads(s, steps + [l], WithWorker(s, g, w))
  {
    var t := WithWorker(s, g, v);
    WorkerMoves(t, g, l, w);
    assert s.engine.tasks.workers[g := v][g := w] == s.engine.tasks.workers[g := w];
    LeadsThen(s, steps, t, [l], WithWorker(s, g, w));
  }

  /** The worker synthesises its words, and its sender takes the first frame. */
  lemma Synthesise(s: System, g: nat) returns (steps: seq<Step>)
    requires !s.engine.receiver.Gone? && Current(s.engine, g) && g in s.engine.tasks.workers && s.engine.tasks.workers[g] == GIVEN
    ensures Leads(s, steps, WithWorker(s, g, TALKING.(announced := false)))
  {
    var produce := ProducerRuns(g, [HELLO, AGAIN]);
    var taken := TAKEN.(producer := Synthesising([HELLO, AGAIN]));
    WorkerMoves(s, g, produce, taken);
    assert [HELLO, AGAIN][1..] == [AGAIN];
    WorkerAgain(s, [produce], g, taken, produce, TAKEN.(producer := Putting(HELLO, [AGAIN])));
    var queued := TAKEN.(producer := Synthesising([AGAIN]), frames := [Some(HELLO)]);
    WorkerAgain(s, [produce] + [produce], g, TAKEN.(producer := Putting(HELLO, [AGAIN])), produce, queued);
    WorkerAgain(s, [produce] + [produce] + [produce], g, queued, SenderRuns(g), TALKING.(announced := false));
    steps := [produce] + [produce] + [produce] + [SenderRuns(g)];
  }

  function Talking(s: System, g: nat): System {
    s.(engine := SetState(s.engine.(tasks := SetWorker(s.engine.tasks, g, TALKING)), Speaking))
  }

  /** SPEAKING is announced over the first frame. */
  lemma StartTalking(s: System, g: nat) returns (steps: seq<Step>)
    requires !s.engine.receiver.Gone? && Current(s.engine, g) && g in s.engine.tasks.workers && s.engine.tasks.workers[g] == GIVEN
    ensures Leads(s, steps, Talking(s, g))
  {
    var first := Synthesise(s, g);
    SpeakingAnnounced(s, g);
    LeadsOn(s, first, WithWorker(s, g, TALKING.(announced := false)), SenderRuns(g));
    steps := first + [SenderRuns(g)];
  }

  lemma SpeakingAnnounced(s: System, g: nat)
    requires !s.engine.receiver.Gone?
    ensures Apply(WithWorker(s, g, TALKING.(announced := false)), SenderRuns(g)) == Talking(s, g)
  {
    assert s.engine.tasks.workers[g := TALKING.(announced := false)][g := TALKING] == s.engine.tasks.workers[g := TALKING];
  }

  // -- from the start -------------------------------------------------------------------

  const ASKING := INITIAL.(state := Starting, session := SessionDone, wire := [State(Starting)], tasks := WithPipe(NO_TASKS))

  /** The session begins and its first question pipeline exists. */
  lemma Begin()
    ensures Leads(START, [SessionRuns(Begins)] + [SessionRuns(Begins)], START.(engine := ASKING))
  {
    TwoSteps(START, SessionRuns(Begins), SessionRuns(Begins));
  }

  const ANNOUNCED := Announcing(ASKING, 0)

  lemma FirstAnnounced() returns (steps: seq<Step>)
    ensures Leads(START, steps, START.(engine := ANNOUNCED))
  {
    Begin();
    Announce(START.(engine := ASKING), 0);
    var next := PipelineRuns(0, [], false);
    LeadsThen(START, [SessionRuns(Begins)] + [SessionRuns(Begins)], START.(engine := ASKING),
              [next] + [next] + [next], START.(engine := ANNOUNCED));
    steps := [SessionRuns(Begins)] + [SessionRuns(Begins)] + ([next] + [next] + [next]);
  }

  const FED := ANNOUNCED.(tasks := Tasks(map[0 := Streaming(1)], Some(0), map[1 := GIVEN], Some(1), map[], None, 1))

  /** The first question is being spoken: a frame is held, SPEAKING is announced. */
  const SPEAKING := FED.(state := Speaking, wire := FED.wire + [State(Speaking)],
                         tasks := FED.tasks.(workers := map[1 := TALKING]))

  lemma FirstFed() returns (steps: seq<Step>)
    ensures Leads(START, steps, START.(engine := FED))
  {
    var first := FirstAnnounced();
    Feed(START.(engine := ANNOUNCED), 0, 1);
    var feed := [PipelineRuns(0, [], false)] + [PipelineRuns(0, WORDS, false)];
    LeadsThen(START, first, START.(engine := ANNOUNCED), feed, START.(engine := FED));
    steps := first + feed;
  }

  lemma FirstSpeaking() returns (steps: seq<Step>)
    ensures Leads(START, steps, START.(engine := SPEAKING))
  {
    var first := FirstFed();
    var talk := StartTalking(START.(engine := FED), 1);
    assert map[1 := GIVEN][1 := TALKING] == map[1 := TALKING];
    assert Talking(START.(engine := FED), 1) == START.(engine := SPEAKING);
    LeadsThen(START, first, START.(engine := FED), talk, START.(engine := SPEAKING));
    steps := first + talk;
  }

  // -- a window that is open, with a question to answer ----------------------------------

  /** A question is known, nothing is in flight, and the candidate may speak. */
  predicate Open(s: System) {
    var e := s.engine;
    && Calm(s) && s.client.state.Listening? && e.state.Listening? && e.questionKnown && e.session.SessionDone?
    && e.mic == EMPTY_WINDOW && e.partialSince == 0 && e.watchdog && e.finalizing == 0
    && e.tasks.pipes == map[] && e.tasks.answers == map[] && e.tasks.answerTask.None?
  }

  const KNOWN := ANNOUNCED.(questionKnown := true, wire := ANNOUNCED.wire + [Notice],
                            tasks := Tasks(map[0 := Asked(1)], Some(0), map[1 := NEW_WORKER], Some(1), map[], None, 1))

  lemma FirstKnown() returns (steps: seq<Step>)
    ensures Leads(START, steps, START.(engine := KNOWN))
  {
    var first := FirstAnnounced();
    FinishMute(START.(engine := ANNOUNCED), 0, 1);
    var last := [PipelineRuns(0, [], false)] + [PipelineRuns(0, [], true)];
    LeadsThen(START, first, START.(engine := ANNOUNCED), last, START.(engine := KNOWN));
    steps := first + last;
  }

  const WINDOW := KNOWN.(state := Listening, generation := 2, watchdog := true,
                         wire := KNOWN.wire + [State(Interrupted)] + [State(Listening)],
                         tasks := Tasks(map[], None, map[1 := NEW_WORKER.(killed := true)], None, map[], None, 1))

  lemma WindowReached()
    ensures ListenAgain(OnInterrupt(KNOWN).(receiver := Ready)) == WINDOW
  {
    assert map[1 := NEW_WORKER][1 := NEW_WORKER.(killed := true)] == map[1 := NEW_WORKER.(killed := true)];
    assert map[0 := Asked(1)] - {0} == map[];
  }

  /** The candidate interrupts the first question before it is spoken. */
  lemma FirstInterrupted() returns (steps: seq<Step>)
    ensures Leads(START, steps, START.(engine := WINDOW))
  {
    var first := FirstKnown();
    WindowReached();
    BargeIn(START.(engine := KNOWN));
    assert Silence(FRESH) == FRESH;
    LeadsThen(START, first, START.(engine := KNOWN), [UserInterrupts] + [RECEIVE] + [ServerProceeds], START.(engine := WINDOW));
    steps := first + ([UserInterrupts] + [RECEIVE] + [ServerProceeds]);
  }

  const HALFWAY := START.(engine := WINDOW, client := FRESH.(state := Thinking, currentGeneration := 1, pendingPlayback := 1), got := 3)
  const AT_THE_WINDOW := HALFWAY.(client := FRESH.(state := Listening), got := 6)

  lemma QuestionHeard()
    ensures Leads(START.(engine := WINDOW), [HEAR] + [HEAR] + [HEAR], HALFWAY)
  {
    assert WINDOW.wire == [State(Starting), State(Thinking), TtsStart(1), Notice, State(Interrupted), State(Listening)];
    var s := START.(engine := WINDOW);
    assert Apply(s, HEAR) == s.(client := FRESH.(state := Starting), got := 1);
    assert Apply(s.(client := FRESH.(state := Starting), got := 1), HEAR) == s.(client := FRESH.(state := Thinking), got := 2);
    ThreeSteps(s, HEAR, HEAR, HEAR);
  }

  lemma WindowHeard()
    ensures Leads(HALFWAY, [HEAR] + [HEAR] + [HEAR], AT_THE_WINDOW)
  {
    assert WINDOW.wire == [State(Starting), State(Thinking), TtsStart(1), Notice, State(Interrupted), State(Listening)];
    assert Apply(HALFWAY, HEAR) == HALFWAY.(got := 4);
    assert Apply(HALFWAY.(got := 4), HEAR) == HALFWAY.(client := FRESH.(state := Interrupted), got := 5);
    ThreeSteps(HALFWAY, HEAR, HEAR, HEAR);
  }

  lemma OpenWindow() returns (steps: seq<Step>, s: System)
    ensures Leads(START, steps, s) && Open(s)
  {
    var first := FirstInterrupted();
    var hear := [HEAR] + [HEAR] + [HEAR];
    QuestionHeard();
    WindowHeard();
    LeadsThen(START, first, START.(engine := WINDOW), hear, HALFWAY);
    LeadsThen(START, first + hear, HALFWAY, hear, AT_THE_WINDOW);
    steps, s := first + hear + hear, AT_THE_WINDOW;
  }
}
