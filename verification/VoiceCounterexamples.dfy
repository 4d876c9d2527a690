/** Why the hypotheses are needed. For each of them a run from the start that
    breaks it in one step, and only there, and ends with a wire that the monitor
    refuses: a frame sent into a state in which nobody may speak. */
module VoiceCounterexamples {
  import opened Wrappers
  import opened VoiceTypes
  import opened SpeechWorker
  import opened EngineSteps
  import opened ClientSteps
  import opened VoiceProtocol
  import opened VoiceMonitor
  import opened VoiceScenes

  /** A disciplined run, one step that is not, disciplined steps again, and stale audio; with
      no underrun and no playback timeout anywhere. */
  ghost predicate Lapse(before: seq<Step>, l: Step, after: seq<Step>) {
    var s := Run(START, before);
    && PlainRun(START, before) && !Disciplined(s, l) && Plain(l)
    && PlainRun(Apply(s, l), after) && !Watch(Run(Apply(s, l), after).engine.wire).ok
  }

  // -- speech while nobody may speak -----------------------------------------------------

  /** A sender that holds a frame it has announced hands it over in any state. */
  lemma FrameGoesOut(s: System, g: nat)
    requires !s.engine.receiver.Gone? && g in s.engine.tasks.workers && HoldsAnnounced(s.engine.tasks.workers[g])
    requires !Watch(s.engine.wire).state.Speaking?
    ensures Disciplined(s, SenderRuns(g)) && !Watch(Apply(s, SenderRuns(g)).engine.wire).ok
    ensures Apply(s, SenderRuns(g)).engine.state == s.engine.state
  {
    WatchSnoc(s.engine.wire, Audio(Frame(g, s.engine.tasks.workers[g].sender.pcm)));
  }

  predicate HoldsAnnounced(w: Worker) {
    Alive(w) && w.sender.Holding? && w.announced
  }

  /** A turn ended under a worker that has words: the answer task announces PROCESSING
      between SPEAKING and the frame. */
  lemma TalksOverAnswer(s: System, g: nat, a: nat) returns (steps: seq<Step>)
    requires !s.engine.receiver.Gone? && Current(s.engine, g)
    requires g in s.engine.tasks.workers && s.engine.tasks.workers[g] == GIVEN
    requires a in s.engine.tasks.answers && s.engine.tasks.answers[a].Created?
    ensures PlainRun(s, steps) && !Watch(Run(s, steps).engine.wire).ok
  {
    var talk := StartTalking(s, g);
    var t := Talking(s, g);
    LeadsOn(s, talk, t, AnswerRuns(a, Goes));
    ProcessingIsAnnounced(t, a);
    var u := Apply(t, AnswerRuns(a, Goes));
    FrameGoesOut(u, g);
    LeadsOn(s, talk + [AnswerRuns(a, Goes)], u, SenderRuns(g));
    steps := talk + [AnswerRuns(a, Goes)] + [SenderRuns(g)];
  }

  lemma ProcessingIsAnnounced(s: System, a: nat)
    requires !s.engine.receiver.Gone? && s.engine.state.Speaking? && a in s.engine.tasks.answers && s.engine.tasks.answers[a].Created?
    ensures var e := Apply(s, AnswerRuns(a, Goes)).engine;
            e.tasks.workers == s.engine.tasks.workers && !e.receiver.Gone? && Watch(e.wire).state.Processing?
  {
    WatchSnoc(s.engine.wire, State(Processing));
  }

  /** The open window with a question pipeline in it: the candidate can end a turn
      over a question, and is talked over. */
  predicate Overtaken(s: System, p: nat) {
    && Calm(s) && EndsTurn(s.engine) && s.engine.finalizing == 0
    && p in s.engine.tasks.pipes && s.engine.tasks.pipes[p].Fresh?
  }

  lemma QuestionComes(s: System, p: nat) returns (steps: seq<Step>, t: System)
    requires Overtaken(s, p)
    ensures Leads(s, steps, t) && !t.engine.receiver.Gone? && Current(t.engine, s.engine.generation + 1)
    ensures s.engine.generation + 1 in t.engine.tasks.workers && t.engine.tasks.workers[s.engine.generation + 1] == GIVEN
    ensures s.engine.tasks.made in t.engine.tasks.answers && t.engine.tasks.answers[s.engine.tasks.made].Created?
  {
    var turn := EndTheTurn(s);
    var a := s.(engine := TurnEnded(s.engine));
    Announce(a, p);
    var next, g := PipelineRuns(p, [], false), s.engine.generation + 1;
    var b := a.(engine := Announcing(a.engine, p));
    LeadsThen(s, turn, a, [next] + [next] + [next], b);
    Feed(b, p, g);
    var feed := [next] + [PipelineRuns(p, WORDS, false)];
    t := Run(b, feed);
    LeadsThen(s, turn + ([next] + [next] + [next]), b, feed, t);
    steps := turn + ([next] + [next] + [next]) + feed;
  }

  lemma OvertakenIsTalkedOver(s: System, p: nat) returns (steps: seq<Step>)
    requires Overtaken(s, p)
    ensures PlainRun(s, steps) && !Watch(Run(s, steps).engine.wire).ok
  {
    var first, t := QuestionComes(s, p);
    var more := TalksOverAnswer(t, s.engine.generation + 1, s.engine.tasks.made);
    LeadsThen(s, first, t, more, Run(t, more));
    steps := first + more;
  }

  lemma LapseFrom(before: seq<Step>, s: System, l: Step, after: seq<Step>)
    requires Leads(START, before, s) && !Disciplined(s, l) && Plain(l) && Plain(l)
    requires PlainRun(Apply(s, l), after) && !Watch(Run(Apply(s, l), after).engine.wire).ok
    ensures Lapse(before, l, after)
  {}

  // -- the pipeline raises, and start_turn ------------------------------------------------

  /** From every state in which a frame is held: after the pipeline raises, its worker
      sends the frame into LISTENING. */
  lemma DegradeSpeaksIntoListening(s: System, p: nat, g: nat)
    requires !s.engine.receiver.Gone? && s.engine.state.Speaking? && p in s.engine.tasks.pipes
    requires g in s.engine.tasks.workers && HoldsAnnounced(s.engine.tasks.workers[g])
    ensures var t := Apply(s, PipelineRaises(p));
            && t.engine.state.Listening? && Disciplined(t, SenderRuns(g))
            && Apply(t, SenderRuns(g)).engine.state.Listening? && !Watch(Apply(t, SenderRuns(g)).engine.wire).ok
  {
    WatchSnoc(s.engine.wire + [Notice], State(Listening));
    FrameGoesOut(Apply(s, PipelineRaises(p)), g);
  }

  /** From every state in which a frame is held: `start_turn` opens the window, and the
      frame is sent into it. */
  lemma StartTurnSpeaksIntoListening(s: System, g: nat)
    requires s.engine.receiver.Ready? && s.engine.state.Speaking? && s.up != [] && s.up[0] == StartTurn
    requires g in s.engine.tasks.workers && HoldsAnnounced(s.engine.tasks.workers[g])
    ensures var t := Apply(s, RECEIVE);
            && t.engine.state.Listening? && Disciplined(t, SenderRuns(g))
            && Apply(t, SenderRuns(g)).engine.state.Listening? && !Watch(Apply(t, SenderRuns(g)).engine.wire).ok
  {
    WatchSnoc(s.engine.wire, State(Listening));
    FrameGoesOut(Apply(s, RECEIVE), g);
  }

  /** The degrade path leaves the worker alive: it goes on into LISTENING. */
  lemma PipelineMustNotRaise() returns (before: seq<Step>, after: seq<Step>)
    ensures Lapse(before, PipelineRaises(0), after)
  {
    before := FirstSpeaking();
    var s := START.(engine := SPEAKING);
    DegradeSpeaksIntoListening(s, 0, 1);
    OneStep(Apply(s, PipelineRaises(0)), SenderRuns(1));
    after := [SenderRuns(1)];
    LapseFrom(before, s, PipelineRaises(0), after);
  }

  /** `start_turn` opens the window under a speaking worker. */
  lemma StartTurnMustNotCome() returns (before: seq<Step>, after: seq<Step>)
    ensures Lapse(before, RECEIVE, after) && Run(START, before).up == [StartTurn]
  {
    var first := FirstSpeaking();
    var s := START.(engine := SPEAKING);
    Told(s, StartTurn);
    LeadsThen(START, first, s, [UserSends(StartTurn)], s.(up := [StartTurn]));
    var asked := s.(up := [StartTurn]);
    StartTurnSpeaksIntoListening(asked, 1);
    OneStep(Apply(asked, RECEIVE), SenderRuns(1));
    before, after := first + [UserSends(StartTurn)], [SenderRuns(1)];
    LapseFrom(before, asked, RECEIVE, after);
  }

  // -- an interrupt while the session starts ------------------------------------------------

  const WARMING := START.(engine := INITIAL.(state := Starting, session := Warming, wire := [State(Starting)]),
                         up := [ClientMsg.Interrupt])

  lemma WarmingReached()
    ensures Leads(START, [SessionRuns(Begins)] + [UserInterrupts], WARMING)
  {
    assert [] + [State(Starting)] == [State(Starting)];
    assert [] + [ClientMsg.Interrupt] == [ClientMsg.Interrupt];
    TwoSteps(START, SessionRuns(Begins), UserInterrupts);
  }

  lemma WarmingInterrupted()
    ensures Apply(WARMING, RECEIVE) == WARMING.(up := [], engine := OnInterrupt(WARMING.engine))
    ensures !Disciplined(WARMING, RECEIVE)
    ensures var e := OnInterrupt(WARMING.engine);
            e.receiver.Reopen? && e.session.Warming? && e.running && e.finalizing == 0 && e.tasks == NO_TASKS
  {}

  /** The interrupt opens the window, and the session start goes on. */
  lemma EarlyBargeIn(s: System) returns (t: System)
    requires s.client.open && s.up == [] && s.engine.running && s.engine.receiver.Reopen? && s.engine.session.Warming?
    requires s.engine.finalizing == 0 && s.engine.tasks == NO_TASKS
    ensures Leads(s, [ServerProceeds] + [SessionRuns(Begins)], t) && Overtaken(t, 0)
  {
    TwoSteps(s, ServerProceeds, SessionRuns(Begins));
    t := Apply(Apply(s, ServerProceeds), SessionRuns(Begins));
  }

  /** The session start asks its question into the window the interrupt has opened. */
  lemma SessionStartMustNotBeInterrupted() returns (before: seq<Step>, after: seq<Step>)
    ensures Lapse(before, RECEIVE, after)
    ensures Run(START, before).up == [ClientMsg.Interrupt] && !Run(START, before).engine.session.SessionDone?
  {
    WarmingReached();
    WarmingInterrupted();
    var s := WARMING.(up := [], engine := OnInterrupt(WARMING.engine));
    var t := EarlyBargeIn(s);
    var more := OvertakenIsTalkedOver(t, 0);
    LeadsThen(s, [ServerProceeds] + [SessionRuns(Begins)], t, more, Run(t, more));
    before, after := [SessionRuns(Begins)] + [UserInterrupts], [ServerProceeds] + [SessionRuns(Begins)] + more;
    LapseFrom(before, WARMING, RECEIVE, after);
  }

  // -- answers that outlive their turn ---------------------------------------------------------

  const SPOKEN: Bytes := [7]

  /** A candidate who has spoken into an open window. */
  predicate Spoken(s: System) {
    var e := s.engine;
    && Calm(s) && e.state.Listening? && e.questionKnown && e.session.SessionDone? && e.mic.buffer == SPOKEN
    && e.tasks.pipes == map[] && e.tasks.answers == map[] && e.tasks.answerTask.None?
  }

  lemma SpeakAtTheWindow() returns (steps: seq<Step>, s: System)
    ensures Leads(START, steps, s) && Spoken(s) && s.engine.watchdog && s.engine.finalizing == 0
  {
    var first, open := OpenWindow();
    Speak(open, SPOKEN);
    s := open.(engine := Record(open.engine, SPOKEN));
    assert [] + SPOKEN == SPOKEN;
    LeadsThen(START, first, open, [UserSpeaks(SPOKEN)] + [RECEIVE], s);
    steps := first + ([UserSpeaks(SPOKEN)] + [RECEIVE]);
  }

  /** An answer about to be stored, in a window that is open again. */
  predicate Outliving(s: System, a: nat) {
    var e := s.engine;
    && Calm(s) && e.state.Listening? && e.questionKnown && e.finalizing == 0
    && e.tasks.pipes == map[] && a in e.tasks.answers && e.tasks.answers[a].Transcribing?
    && (e.tasks.answerTask == Some(a) || !AnswerAlive(e.tasks))
  }

  lemma OutlivingOvertakes(s: System, a: nat) returns (steps: seq<Step>)
    requires Outliving(s, a)
    ensures PlainRun(s, steps) && !Watch(Run(s, steps).engine.wire).ok
  {
    var run := AnswerRuns(a, Goes);
    Submit(s, a);
    var t := s.(engine := s.engine.(wire := s.engine.wire + [Notice] + [Notice], tasks := SetAnswer(s.engine.tasks, a, Submitted)));
    AskNext(t, a);
    var u := t.(engine := t.engine.(tasks := WithPipe(DropAnswer(t.engine.tasks, a))));
    LeadsThen(s, [run] + [run], t, [run], u);
    var more := OvertakenIsTalkedOver(u, s.engine.tasks.made);
    LeadsThen(s, [run] + [run] + [run], u, more, Run(u, more));
    steps := [run] + [run] + [run] + more;
  }

  // -- a pause in PROCESSING -----------------------------------------------------------------

  lemma AnswerInProcessing() returns (steps: seq<Step>, s: System, a: nat)
    ensures Leads(START, steps, s) && Calm(s) && s.engine.state.Processing? && s.engine.questionKnown && s.engine.finalizing == 0
    ensures s.engine.tasks.pipes == map[] && s.engine.tasks.answerTask == Some(a)
    ensures a in s.engine.tasks.answers && s.engine.tasks.answers[a].Transcribing?
  {
    var first, spoken := SpeakAtTheWindow();
    var turn := EndTheTurn(spoken);
    var t := spoken.(engine := TurnEnded(spoken.engine));
    a := spoken.engine.tasks.made;
    Claim(t, a);
    s := t.(engine := Claiming(t.engine, a));
    LeadsThen(START, first, spoken, turn, t);
    LeadsThen(START, first + turn, t, [AnswerRuns(a, Goes)] + [AnswerRuns(a, Goes)], s);
    steps := first + turn + ([AnswerRuns(a, Goes)] + [AnswerRuns(a, Goes)]);
  }

  /** The receive loop after a resume. */
  lemma ResumeWindow(s: System)
    requires Calm(s) && s.engine.state.Paused?
    ensures Leads(s, [UserSends(Resume)] + [RECEIVE] + [ServerProceeds],
                  s.(engine := ListenAgain(s.engine.(mic := s.engine.mic.(buffer := []), partialSince := 0))))
  {
    Tell(s, Resume);
    LeadsOn(s, [UserSends(Resume)] + [RECEIVE], s.(engine := OnResume(s.engine)), ServerProceeds);
  }

  /** Pausing leaves the answer task alone: it asks its question into the resumed window. */
  lemma ProcessingMustNotPause() returns (before: seq<Step>, after: seq<Step>)
    ensures Lapse(before, RECEIVE, after)
    ensures Run(START, before).up == [ClientMsg.Pause] && Run(START, before).engine.state.Processing?
  {
    var first, s, a := AnswerInProcessing();
    Told(s, ClientMsg.Pause);
    LeadsThen(START, first, s, [UserSends(ClientMsg.Pause)], s.(up := [ClientMsg.Pause]));
    var t := s.(engine := OnPause(s.engine));
    ResumeWindow(t);
    var u := t.(engine := ListenAgain(t.engine.(mic := t.engine.mic.(buffer := []), partialSince := 0)));
    var resume := [UserSends(Resume)] + [RECEIVE] + [ServerProceeds];
    var more := OutlivingOvertakes(u, a);
    LeadsThen(t, resume, u, more, Run(u, more));
    before, after := first + [UserSends(ClientMsg.Pause)], resume + more;
    LapseFrom(before, s.(up := [ClientMsg.Pause]), RECEIVE, after);
  }

  // -- an interrupt while the watchdog ends the turn -----------------------------------------

  function Finalised(e: Engine): Engine {
    e.(watchdog := false, finalizing := e.finalizing + 1, wire := e.wire + [Notice])
  }

  lemma TurnEndsItself(s: System)
    requires !s.engine.receiver.Gone? && s.engine.watchdog && EndsTurn(s.engine) && s.engine.finalizing == 0
    ensures Leads(s, [WatchdogDecides], s.(engine := Finalised(s.engine)))
  {
    OneStep(s, WatchdogDecides);
  }

  /** The interrupt is handled, and then the watchdog creates its task all the same. */
  lemma InterruptedAnswer(s: System) returns (steps: seq<Step>, t: System)
    requires s.client.open && s.client.state.Listening? && s.up == [] && s.engine.running
    requires s.engine.receiver.Reopen? && s.engine.state.Interrupted? && s.engine.finalizing == 1 && s.engine.questionKnown
    requires s.engine.mic.buffer == [] && s.engine.partialSince == 0
    requires s.engine.tasks.pipes == map[] && s.engine.tasks.answers == map[]
    ensures Leads(s, steps, t) && Calm(t) && t.client == s.client && t.engine.state.Listening? && t.engine.finalizing == 0
    ensures t.engine.questionKnown && t.engine.mic.buffer == [] && t.engine.partialSince == 0
    ensures t.engine.tasks.pipes == map[] && t.engine.tasks.answerTask == Some(s.engine.tasks.made)
    ensures s.engine.tasks.made in t.engine.tasks.answers && t.engine.tasks.answers[s.engine.tasks.made].Claimed?
  {
    var run := AnswerRuns(s.engine.tasks.made, Goes);
    ThreeSteps(s, WatchdogCreatesTask, run, ServerProceeds);
    steps, t := [WatchdogCreatesTask] + [run] + [ServerProceeds], Apply(Apply(Apply(s, WatchdogCreatesTask), run), ServerProceeds);
  }

  lemma SpokenToLateAnswer(s: System, a: nat) returns (steps: seq<Step>, t: System)
    requires Calm(s) && s.client.state.Listening? && s.engine.state.Listening? && s.engine.finalizing == 0
    requires s.engine.questionKnown && s.engine.mic.buffer == [] && s.engine.partialSince == 0
    requires s.engine.tasks.pipes == map[] && s.engine.tasks.answerTask == Some(a)
    requires a in s.engine.tasks.answers && s.engine.tasks.answers[a].Claimed?
    ensures Leads(s, steps, t) && Outliving(t, a)
  {
    Speak(s, SPOKEN);
    var u := s.(engine := Record(s.engine, SPOKEN));
    LeadsOn(s, [UserSpeaks(SPOKEN)] + [RECEIVE], u, AnswerRuns(a, Goes));
    steps, t := [UserSpeaks(SPOKEN)] + [RECEIVE] + [AnswerRuns(a, Goes)], Apply(u, AnswerRuns(a, Goes));
  }

  /** An interrupt does not reach a watchdog that is ending the turn: its answer task
      comes after the interrupt and asks a question into the reopened window. */
  lemma EndingTurnMustNotBeInterrupted() returns (before: seq<Step>, after: seq<Step>)
    ensures Lapse(before, RECEIVE, after)
    ensures var s := Run(START, before);
            s.up == [ClientMsg.Interrupt] && s.engine.session.SessionDone? && s.engine.finalizing == 1
  {
    var first, open := OpenWindow();
    TurnEndsItself(open);
    var ending := open.(engine := Finalised(open.engine));
    LeadsThen(START, first, open, [WatchdogDecides], ending);
    var s := ending.(client := Silence(ending.client), up := [ClientMsg.Interrupt]);
    InterruptSent(ending);
    LeadsThen(START, first + [WatchdogDecides], ending, [UserInterrupts], s);
    before := first + [WatchdogDecides] + [UserInterrupts];
    var t := ending.(client := Silence(ending.client), engine := OnInterrupt(ending.engine));
    LateInterrupt(ending);
    after := AfterLateInterrupt(t);
    LapseFrom(before, s, RECEIVE, after);
  }

  lemma InterruptSent(s: System)
    requires Calm(s)
    ensures Leads(s, [UserInterrupts], s.(client := Silence(s.client), up := [ClientMsg.Interrupt]))
  {
    assert [] + [ClientMsg.Interrupt] == [ClientMsg.Interrupt];
    OneStep(s, UserInterrupts);
  }

  lemma LateInterrupt(s: System)
    requires s.up == [] && s.engine.receiver.Ready?
    requires s.engine.state.Listening? && s.engine.tasks.pipes == map[] && s.engine.tasks.answers == map[]
    ensures var e := OnInterrupt(s.engine);
            && Apply(s.(client := Silence(s.client), up := [ClientMsg.Interrupt]), RECEIVE)
               == s.(client := Silence(s.client), engine := e)
            && e.receiver.Reopen? && e.state.Interrupted? && e.finalizing == s.engine.finalizing && e.mic.buffer == []
            && e.partialSince == 0 && e.tasks.pipes == map[] && e.tasks.answers == map[] && e.tasks.made == s.engine.tasks.made
            && e.running == s.engine.running && e.questionKnown == s.engine.questionKnown
  {}

  lemma AfterLateInterrupt(t: System) returns (after: seq<Step>)
    requires t.client.open && t.client.state.Listening? && t.up == [] && t.engine.running
    requires t.engine.receiver.Reopen? && t.engine.state.Interrupted? && t.engine.finalizing == 1 && t.engine.questionKnown
    requires t.engine.mic.buffer == [] && t.engine.partialSince == 0
    requires t.engine.tasks.pipes == map[] && t.engine.tasks.answers == map[]
    ensures PlainRun(t, after) && !Watch(Run(t, after).engine.wire).ok
  {
    var a, u := InterruptedAnswer(t);
    var b, v := SpokenToLateAnswer(u, t.engine.tasks.made);
    LeadsThen(t, a, u, b, v);
    var c := OutlivingOvertakes(v, t.engine.tasks.made);
    LeadsThen(t, a + b, v, c, Run(v, c));
    after := a + b + c;
  }

  // -- two answer tasks for one turn -----------------------------------------------------------

  /** Both tasks of a turn that was ended twice; the handle knows the second. */
  predicate EndedTwice(s: System, a: nat, b: nat) {
    var e := s.engine;
    && Calm(s) && e.state.Listening? && e.questionKnown && e.finalizing == 0 && e.mic.buffer == SPOKEN
    && e.tasks.pipes == map[] && a != b && e.tasks.answers == map[a := Created, b := Created] && e.tasks.answerTask == Some(b)
  }

  /** The first task takes the audio, the second finds none and reopens the window. */
  lemma SecondReopens(s: System, a: nat, b: nat) returns (steps: seq<Step>, t: System)
    requires EndedTwice(s, a, b)
    ensures Leads(s, steps, t) && Outliving(t, a)
  {
    Claim(s, a);
    var first := [AnswerRuns(a, Goes)] + [AnswerRuns(a, Goes)];
    var u := s.(engine := Claiming(s.engine, a));
    t := FindsNothing(u, a, b);
    var second := [AnswerRuns(b, Goes)] + [AnswerRuns(b, Goes)];
    LeadsThen(s, first, u, second, t);
    steps := first + second;
  }

  lemma FindsNothing(s: System, a: nat, b: nat) returns (t: System)
    requires Calm(s) && s.engine.questionKnown && s.engine.finalizing == 0 && s.engine.mic.buffer == []
    requires s.engine.tasks.pipes == map[] && a != b && s.engine.tasks.answerTask == Some(b)
    requires a in s.engine.tasks.answers && s.engine.tasks.answers[a].Transcribing?
    requires b in s.engine.tasks.answers && s.engine.tasks.answers[b].Created?
    ensures Leads(s, [AnswerRuns(b, Goes)] + [AnswerRuns(b, Goes)], t) && Outliving(t, a)
  {
    var claimed := s.(engine := SetState(s.engine.(tasks := SetAnswer(s.engine.tasks, b, Claimed)), Processing));
    assert Apply(s, AnswerRuns(b, Goes)) == claimed;
    TwoSteps(s, AnswerRuns(b, Goes), AnswerRuns(b, Goes));
    t := Apply(claimed, AnswerRuns(b, Goes));
  }

  lemma EndedTwiceIsTalkedOver(s: System, a: nat, b: nat) returns (steps: seq<Step>)
    requires EndedTwice(s, a, b)
    ensures PlainRun(s, steps) && !Watch(Run(s, steps).engine.wire).ok
  {
    var first, t := SecondReopens(s, a, b);
    var more := OutlivingOvertakes(t, a);
    LeadsThen(s, first, t, more, Run(t, more));
    steps := first + more;
  }

  lemma TwoTasks(t: Tasks)
    requires t.answers == map[]
    ensures WithAnswer(WithAnswer(t)).answers == map[t.made := Created, t.made + 1 := Created]
    ensures WithAnswer(WithAnswer(t)).answerTask == Some(t.made + 1)
  {}

  lemma EndingTwice() returns (before: seq<Step>, s: System)
    ensures Spoken(s) && s.engine.finalizing == 1 && Leads(START, before, s.(up := [EndTurn]))
  {
    var first, spoken := SpeakAtTheWindow();
    TurnEndsItself(spoken);
    s := spoken.(engine := Finalised(spoken.engine));
    LeadsThen(START, first, spoken, [WatchdogDecides], s);
    Told(s, EndTurn);
    LeadsThen(START, first + [WatchdogDecides], s, [UserSends(EndTurn)], s.(up := [EndTurn]));
    before := first + [WatchdogDecides] + [UserSends(EndTurn)];
  }

  /** The candidate ends the turn that the watchdog is ending. */
  lemma EndingTurnMustNotEndAgain() returns (before: seq<Step>, after: seq<Step>)
    ensures Lapse(before, RECEIVE, after)
    ensures var s := Run(START, before); s.up == [EndTurn] && EndsTurn(s.engine) && s.engine.finalizing == 1
  {
    var s;
    before, s := EndingTwice();
    after := AfterEndingTwice(s);
    EndTurnHandled(s);
    LapseFrom(before, s.(up := [EndTurn]), RECEIVE, after);
  }

  lemma EndTurnHandled(s: System)
    requires Spoken(s) && s.engine.finalizing == 1
    ensures Apply(s.(up := [EndTurn]), RECEIVE) == s.(engine := OnEndTurn(s.engine))
    ensures !Disciplined(s.(up := [EndTurn]), RECEIVE)
  {
    Told(s, EndTurn);
  }

  lemma AfterEndingTwice(s: System) returns (after: seq<Step>)
    requires Spoken(s) && s.engine.finalizing == 1
    ensures var t := s.(engine := OnEndTurn(s.engine)); PlainRun(t, after) && !Watch(Run(t, after).engine.wire).ok
  {
    var t, made := s.(engine := OnEndTurn(s.engine)), s.engine.tasks.made;
    var u := ReceiverAndWatchdogCreate(s);
    var more := EndedTwiceIsTalkedOver(u, made, made + 1);
    LeadsThen(t, [ServerProceeds] + [WatchdogCreatesTask], u, more, Run(u, more));
    after := [ServerProceeds] + [WatchdogCreatesTask] + more;
  }

  lemma ReceiverAndWatchdogCreate(s: System) returns (u: System)
    requires Spoken(s) && s.engine.finalizing == 1
    ensures Leads(s.(engine := OnEndTurn(s.engine)), [ServerProceeds] + [WatchdogCreatesTask], u)
    ensures EndedTwice(u, s.engine.tasks.made, s.engine.tasks.made + 1)
  {
    var t := s.(engine := OnEndTurn(s.engine));
    TwoSteps(t, ServerProceeds, WatchdogCreatesTask);
    u := Apply(Apply(t, ServerProceeds), WatchdogCreatesTask);
    TwoTasks(s.engine.tasks);
  }

  /** A watchdog ends the turn, the candidate pauses, resumes and speaks: a second
      watchdog is at the window. */
  lemma SecondWatchdog() returns (steps: seq<Step>, s: System)
    ensures Leads(START, steps, s) && Spoken(s) && s.engine.watchdog && s.engine.finalizing == 1
  {
    var first, open := OpenWindow();
    TurnEndsItself(open);
    var a := open.(engine := Finalised(open.engine));
    LeadsThen(START, first, open, [WatchdogDecides], a);
    var resume, b := PauseAndResume(a);
    LeadsThen(START, first + [WatchdogDecides], a, resume, b);
    Speak(b, SPOKEN);
    s := b.(engine := Record(b.engine, SPOKEN));
    assert [] + SPOKEN == SPOKEN;
    LeadsThen(START, first + [WatchdogDecides] + resume, b, [UserSpeaks(SPOKEN)] + [RECEIVE], s);
    steps := first + [WatchdogDecides] + resume + ([UserSpeaks(SPOKEN)] + [RECEIVE]);
  }

  lemma PauseAndResume(s: System) returns (steps: seq<Step>, t: System)
    requires Calm(s) && s.engine.state.Listening?
    ensures Leads(s, steps, t) && t.client == s.client && t.up == s.up && t.got == s.got
    ensures t.engine == ListenAgain(OnPause(s.engine).(mic := s.engine.mic.(buffer := []), partialSince := 0))
  {
    Tell(s, ClientMsg.Pause);
    var u := s.(engine := OnPause(s.engine));
    ResumeWindow(u);
    steps := [UserSends(ClientMsg.Pause)] + [RECEIVE] + ([UserSends(Resume)] + [RECEIVE] + [ServerProceeds]);
    t := u.(engine := ListenAgain(u.engine.(mic := u.engine.mic.(buffer := []), partialSince := 0)));
    LeadsThen(s, [UserSends(ClientMsg.Pause)] + [RECEIVE], u, [UserSends(Resume)] + [RECEIVE] + [ServerProceeds], t);
  }

  /** The second watchdog ends the turn that the first is ending. */
  lemma SecondWatchdogMustWait() returns (before: seq<Step>, after: seq<Step>)
    ensures Lapse(before, WatchdogDecides, after)
    ensures var e := Run(START, before).engine; e.watchdog && EndsTurn(e) && e.finalizing == 1
  {
    var s;
    before, s := SecondWatchdog();
    var t := s.(engine := Finalised(s.engine));
    SecondDecides(s);
    var u := BothCreate(t);
    var made := s.engine.tasks.made;
    var more := EndedTwiceIsTalkedOver(u, made, made + 1);
    LeadsThen(t, [WatchdogCreatesTask] + [WatchdogCreatesTask], u, more, Run(u, more));
    after := [WatchdogCreatesTask] + [WatchdogCreatesTask] + more;
    LapseFrom(before, s, WatchdogDecides, after);
  }

  lemma SecondDecides(s: System)
    requires Spoken(s) && s.engine.watchdog && s.engine.finalizing == 1
    ensures Apply(s, WatchdogDecides) == s.(engine := Finalised(s.engine)) && !Disciplined(s, WatchdogDecides)
  {}

  lemma BothCreate(t: System) returns (u: System)
    requires Spoken(t) && t.engine.finalizing == 2
    ensures Leads(t, [WatchdogCreatesTask] + [WatchdogCreatesTask], u)
    ensures EndedTwice(u, t.engine.tasks.made, t.engine.tasks.made + 1)
  {
    TwoSteps(t, WatchdogCreatesTask, WatchdogCreatesTask);
    u := Apply(Apply(t, WatchdogCreatesTask), WatchdogCreatesTask);
    TwoTasks(t.engine.tasks);
  }
}
