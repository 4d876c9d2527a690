/** Why a client must be given the time to play. A playback timeout, and an
    underrun, each in a run that is regular otherwise, open the microphone over
    audio not yet heard; and the audio goes on sounding under the next question. */
module VoiceOverlaps {
  import opened Wrappers
  import opened VoiceTypes
  import opened SpeechWorker
  import opened EngineSteps
  import opened ClientSteps
  import opened VoiceProtocol
  import opened VoiceMonitor
  import opened VoiceIntegrity
  import opened VoicePlaying
  import opened VoiceScenes

  // -- the end of a question --------------------------------------------------------------

  /** The held frame goes out. */
  lemma SendFrame(s: System, g: nat, w: Worker)
    requires !s.engine.receiver.Gone? && g in s.engine.tasks.workers && s.engine.tasks.workers[g] == w
    requires Alive(w) && w.sender.Holding? && w.announced
    ensures Leads(s, [SenderRuns(g)],
                  s.(engine := s.engine.(wire := s.engine.wire + [Audio(Frame(g, w.sender.pcm))],
                                         tasks := SetWorker(s.engine.tasks, g, Relay(w)))))
  {
    OneStep(s, SenderRuns(g));
  }

  /** The model stream ends: the question is stored and the end marker put. */
  lemma FinishQuestion(s: System, p: nat, g: nat, w: Worker)
    requires !s.engine.receiver.Gone? && p in s.engine.tasks.pipes && s.engine.tasks.pipes[p] == Streaming(g)
    requires g in s.engine.tasks.workers && s.engine.tasks.workers[g] == w
    ensures Leads(s, [PipelineRuns(p, [], true)] + [PipelineRuns(p, [], false)],
                  s.(engine := s.engine.(questionKnown := true, wire := s.engine.wire + [Notice],
                                         tasks := SetPipe(SetWorker(s.engine.tasks, g, Close(w)), p, Awaiting(g)))))
  {
    FinishSteps(s, p, g, w);
    TwoSteps(s, PipelineRuns(p, [], true), PipelineRuns(p, [], false));
  }

  lemma FinishSteps(s: System, p: nat, g: nat, w: Worker)
    requires !s.engine.receiver.Gone? && p in s.engine.tasks.pipes && s.engine.tasks.pipes[p] == Streaming(g)
    requires g in s.engine.tasks.workers && s.engine.tasks.workers[g] == w
    ensures Apply(Apply(s, PipelineRuns(p, [], true)), PipelineRuns(p, [], false))
            == s.(engine := s.engine.(questionKnown := true, wire := s.engine.wire + [Notice],
                                      tasks := SetPipe(SetWorker(s.engine.tasks, g, Close(w)), p, Awaiting(g))))
  {
    var t := s.engine.tasks;
    assert Put(w, []) == w by { assert w.given + [] == w.given; }
    assert t.workers[g := w][g := Close(w)] == t.workers[g := Close(w)];
    assert t.pipes[p := Asked(g)][p := Awaiting(g)] == t.pipes[p := Awaiting(g)];
  }

  /** The worker is done: `tts_stop` goes out and the playback is awaited. */
  lemma StopQuestion(s: System, p: nat, g: nat)
    requires !s.engine.receiver.Gone? && p in s.engine.tasks.pipes && s.engine.tasks.pipes[p] == Awaiting(g)
    requires s.engine.generation == g && s.engine.state.Speaking? && g in s.engine.tasks.workers && !Alive(s.engine.tasks.workers[g])
    ensures var next := PipelineRuns(p, [], false);
            Leads(s, [next] + [next],
                  s.(engine := s.engine.(wire := s.engine.wire + [TtsStop(g)], pending := Some(g), timer := true,
                                         tasks := DropPipe(s.engine.tasks, p))))
  {
    var next := PipelineRuns(p, [], false);
    TwoSteps(s, next, next);
    assert s.engine.tasks.pipes[p := Stopped(g)] - {p} == s.engine.tasks.pipes - {p};
  }

  const HEARD_ONE := TALKING.(sender := Receiving, sent := [HELLO])
  const SENT_BOTH := HEARD_ONE.(producer := Synthesising([]), sent := [HELLO, AGAIN])
  const DRAINED := SENT_BOTH.(closed := true, producer := ProducerDone(false), sender := SenderDone(false))

  /** The second frame is put and taken. */
  lemma SecondFrame(s: System, g: nat) returns (steps: seq<Step>)
    requires !s.engine.receiver.Gone? && Current(s.engine, g) && g in s.engine.tasks.workers && s.engine.tasks.workers[g] == HEARD_ONE
    ensures Leads(s, steps, WithWorker(s, g, HEARD_ONE.(producer := Synthesising([]), sender := Holding(AGAIN))))
  {
    var produce := ProducerRuns(g, []);
    var putting := HEARD_ONE.(producer := Putting(AGAIN, []));
    assert [AGAIN][1..] == [];
    WorkerMoves(s, g, produce, putting);
    var queued := HEARD_ONE.(producer := Synthesising([]), frames := [Some(AGAIN)]);
    WorkerAgain(s, [produce], g, putting, produce, queued);
    WorkerAgain(s, [produce] + [produce], g, queued, SenderRuns(g), HEARD_ONE.(producer := Synthesising([]), sender := Holding(AGAIN)));
    steps := [produce] + [produce] + [SenderRuns(g)];
  }

  /** A closed worker with nothing left to synthesise comes to its end. */
  lemma DrainWorker(s: System, g: nat) returns (steps: seq<Step>)
    requires !s.engine.receiver.Gone? && Current(s.engine, g) && g in s.engine.tasks.workers
    requires s.engine.tasks.workers[g] == SENT_BOTH.(closed := true)
    ensures Leads(s, steps, WithWorker(s, g, DRAINED))
  {
    var produce, w := ProducerRuns(g, []), SENT_BOTH.(closed := true);
    WorkerMoves(s, g, produce, w.(producer := Waiting));
    WorkerAgain(s, [produce], g, w.(producer := Waiting), produce, w.(producer := Closing));
    var last := w.(producer := ProducerDone(false), frames := [None]);
    WorkerAgain(s, [produce] + [produce], g, w.(producer := Closing), produce, last);
    WorkerAgain(s, [produce] + [produce] + [produce], g, last, SenderRuns(g), DRAINED);
    steps := [produce] + [produce] + [produce] + [SenderRuns(g)];
  }

  /** What is left of a question once its first frame is out. */
  function Complete(e: Engine, p: nat, g: nat): Engine {
    e.(questionKnown := true, pending := Some(g), timer := true,
       wire := e.wire + [Audio(Frame(g, AGAIN))] + [Notice] + [TtsStop(g)],
       tasks := DropPipe(SetWorker(e.tasks, g, DRAINED), p))
  }

  lemma CompleteQuestion(s: System, p: nat, g: nat) returns (steps: seq<Step>)
    requires !s.engine.receiver.Gone? && Current(s.engine, g) && s.engine.state.Speaking?
    requires p in s.engine.tasks.pipes && s.engine.tasks.pipes[p] == Streaming(g)
    requires g in s.engine.tasks.workers && s.engine.tasks.workers[g] == HEARD_ONE
    ensures Leads(s, steps, s.(engine := Complete(s.engine, p, g)))
  {
    var first, a := SendBoth(s, g);
    FinishQuestion(a, p, g, SENT_BOTH);
    var finish := [PipelineRuns(p, [], true)] + [PipelineRuns(p, [], false)];
    var b := Run(a, finish);
    LeadsThen(s, first, a, finish, b);
    var drain := DrainWorker(b, g);
    var c := WithWorker(b, g, DRAINED);
    LeadsThen(s, first + finish, b, drain, c);
    StopQuestion(c, p, g);
    var stop := [PipelineRuns(p, [], false)] + [PipelineRuns(p, [], false)];
    Completed(s.engine, p, g);
    LeadsThen(s, first + finish + drain, c, stop, s.(engine := Complete(s.engine, p, g)));
    steps := first + finish + drain + stop;
  }

  lemma SendBoth(s: System, g: nat) returns (steps: seq<Step>, t: System)
    requires !s.engine.receiver.Gone? && Current(s.engine, g) && g in s.engine.tasks.workers && s.engine.tasks.workers[g] == HEARD_ONE
    ensures t == s.(engine := s.engine.(wire := s.engine.wire + [Audio(Frame(g, AGAIN))], tasks := SetWorker(s.engine.tasks, g, SENT_BOTH)))
    ensures Leads(s, steps, t)
  {
    var held := HEARD_ONE.(producer := Synthesising([]), sender := Holding(AGAIN));
    var take := SecondFrame(s, g);
    SendFrame(WithWorker(s, g, held), g, held);
    assert [HELLO] + [AGAIN] == [HELLO, AGAIN];
    assert s.engine.tasks.workers[g := held][g := SENT_BOTH] == s.engine.tasks.workers[g := SENT_BOTH];
    t := s.(engine := s.engine.(wire := s.engine.wire + [Audio(Frame(g, AGAIN))], tasks := SetWorker(s.engine.tasks, g, SENT_BOTH)));
    LeadsThen(s, take, WithWorker(s, g, held), [SenderRuns(g)], t);
    steps := take + [SenderRuns(g)];
  }

  lemma Completed(e: Engine, p: nat, g: nat)
    requires p in e.tasks.pipes && g in e.tasks.workers
    ensures var t := SetPipe(SetWorker(SetWorker(e.tasks, g, SENT_BOTH), g, Close(SENT_BOTH)), p, Awaiting(g));
            DropPipe(SetWorker(t, g, DRAINED), p) == DropPipe(SetWorker(e.tasks, g, DRAINED), p)
  {
    assert e.tasks.workers[g := SENT_BOTH][g := Close(SENT_BOTH)][g := DRAINED] == e.tasks.workers[g := DRAINED];
    assert e.tasks.pipes[p := Awaiting(g)] - {p} == e.tasks.pipes - {p};
  }

  // -- a client that has heard the beginning ------------------------------------------------

  const BEGUN := SPEAKING.(wire := SPEAKING.wire + [Audio(Frame(1, HELLO))], tasks := SPEAKING.tasks.(workers := map[1 := HEARD_ONE]))
  const LISTENER := FRESH.(state := Speaking, currentGeneration := 1, pendingPlayback := 1)

  /** The first frame is sounding, the second is still to come. */
  const SOUNDING := START.(engine := BEGUN, client := LISTENER.(active := {4}), got := 5, accepted := map[4 := 1])

  lemma AnnouncementHeard()
    ensures Leads(START.(engine := BEGUN), [HEAR] + [HEAR] + [HEAR],
                  START.(engine := BEGUN, client := LISTENER.(state := Thinking), got := 3))
  {
    assert BEGUN.wire == [State(Starting), State(Thinking), TtsStart(1), State(Speaking), Audio(Frame(1, HELLO))];
    var s := START.(engine := BEGUN);
    assert Apply(s, HEAR) == s.(client := FRESH.(state := Starting), got := 1);
    assert Apply(s.(client := FRESH.(state := Starting), got := 1), HEAR) == s.(client := FRESH.(state := Thinking), got := 2);
    ThreeSteps(s, HEAR, HEAR, HEAR);
  }

  lemma BeginningHeard()
    ensures Leads(START.(engine := BEGUN, client := LISTENER.(state := Thinking), got := 3), [HEAR] + [HEAR], SOUNDING)
  {
    assert BEGUN.wire == [State(Starting), State(Thinking), TtsStart(1), State(Speaking), Audio(Frame(1, HELLO))];
    var s := START.(engine := BEGUN, client := LISTENER.(state := Thinking), got := 3);
    assert Apply(s, HEAR) == s.(client := LISTENER, got := 4);
    assert EnqueuePlayback(LISTENER, 4).active == {4};
    TwoSteps(s, HEAR, HEAR);
  }

  lemma FirstSounding() returns (steps: seq<Step>)
    ensures Leads(START, steps, SOUNDING)
  {
    var first := FirstSpeaking();
    var a := START.(engine := SPEAKING);
    SendFrame(a, 1, TALKING);
    assert Relay(TALKING) == HEARD_ONE by { assert [] + [HELLO] == [HELLO]; }
    assert map[1 := TALKING][1 := Relay(TALKING)] == map[1 := HEARD_ONE];
    LeadsThen(START, first, a, [SenderRuns(1)], START.(engine := BEGUN));
    AnnouncementHeard();
    BeginningHeard();
    var hear, b := [HEAR] + [HEAR] + [HEAR], START.(engine := BEGUN, client := LISTENER.(state := Thinking), got := 3);
    LeadsThen(START, first + [SenderRuns(1)], START.(engine := BEGUN), hear, b);
    LeadsThen(START, first + [SenderRuns(1)] + hear, b, [HEAR] + [HEAR], SOUNDING);
    steps := first + [SenderRuns(1)] + hear + ([HEAR] + [HEAR]);
  }

  // -- the next question comes -----------------------------------------------------------------

  /** The window is open over a known question, and nothing is in flight. */
  predicate Free(s: System) {
    var e := s.engine;
    && Calm(s) && s.client.state.Speaking? && EndsTurn(e) && e.questionKnown && e.finalizing == 0
    && e.mic.buffer == [] && e.partialSince == 0
  }

  predicate SameClient(s: System, t: System) {
    t.client == s.client && t.got == s.got
  }

  /** What the server sends from the end of a turn to the next announcement. */
  function TurnMessages(g: nat): seq<ServerMsg> {
    [Notice, State(Processing), Notice, Notice, State(Thinking), TtsStart(g)]
  }

  lemma AnswerTurn(s: System) returns (steps: seq<Step>, t: System)
    requires Free(s)
    ensures Leads(s, steps, t) && SameClient(s, t) && Calm(t) && t.engine.state.Processing?
    ensures t.engine.wire == s.engine.wire + [Notice, State(Processing)] && t.engine.generation == s.engine.generation
    ensures s.engine.tasks.made in t.engine.tasks.answers && t.engine.tasks.answers[s.engine.tasks.made].Transcribing?
    ensures t.engine.questionKnown && t.engine.tasks.made == s.engine.tasks.made + 1
  {
    var chunk: Bytes, a := [7], s.engine.tasks.made;
    Speak(s, chunk);
    var u := s.(engine := Record(s.engine, chunk));
    var turn := EndTheTurn(u);
    var v := u.(engine := TurnEnded(u.engine));
    LeadsThen(s, [UserSpeaks(chunk)] + [RECEIVE], u, turn, v);
    t := ClaimTurn(v, a);
    LeadsThen(s, [UserSpeaks(chunk)] + [RECEIVE] + turn, v, [AnswerRuns(a, Goes)] + [AnswerRuns(a, Goes)], t);
    steps := [UserSpeaks(chunk)] + [RECEIVE] + turn + ([AnswerRuns(a, Goes)] + [AnswerRuns(a, Goes)]);
    assert t.engine.wire == s.engine.wire + [Notice, State(Processing)];
  }

  lemma ClaimTurn(s: System, a: nat) returns (t: System)
    requires Calm(s) && s.engine.mic.buffer != [] && s.engine.state.Listening? && s.engine.questionKnown
    requires a in s.engine.tasks.answers && s.engine.tasks.answers[a].Created?
    ensures Leads(s, [AnswerRuns(a, Goes)] + [AnswerRuns(a, Goes)], t) && SameClient(s, t) && Calm(t)
    ensures t.engine.state.Processing? && t.engine.wire == s.engine.wire + [State(Processing)]
    ensures t.engine.generation == s.engine.generation && t.engine.questionKnown && t.engine.tasks.made == s.engine.tasks.made
    ensures a in t.engine.tasks.answers && t.engine.tasks.answers[a].Transcribing?
  {
    Claim(s, a);
    t := s.(engine := Claiming(s.engine, a));
  }

  lemma StoreTurn(s: System, a: nat) returns (steps: seq<Step>, t: System)
    requires Calm(s) && s.engine.state.Processing? && s.engine.questionKnown
    requires a in s.engine.tasks.answers && s.engine.tasks.answers[a].Transcribing?
    ensures Leads(s, steps, t) && SameClient(s, t) && !t.engine.receiver.Gone?
    ensures t.engine.wire == s.engine.wire + [Notice] + [Notice] && t.engine.generation == s.engine.generation
    ensures t.engine.state.Processing? && s.engine.tasks.made in t.engine.tasks.pipes && t.engine.tasks.pipes[s.engine.tasks.made].Fresh?
  {
    var run := AnswerRuns(a, Goes);
    Submit(s, a);
    var u := s.(engine := s.engine.(wire := s.engine.wire + [Notice] + [Notice], tasks := SetAnswer(s.engine.tasks, a, Submitted)));
    AskNext(u, a);
    t := u.(engine := u.engine.(tasks := WithPipe(DropAnswer(u.engine.tasks, a))));
    LeadsThen(s, [run] + [run], u, [run], t);
    steps := [run] + [run] + [run];
  }

  lemma AnnounceTurn(s: System, p: nat) returns (steps: seq<Step>, t: System)
    requires s.engine.state.Processing? && !s.engine.receiver.Gone? && p in s.engine.tasks.pipes && s.engine.tasks.pipes[p].Fresh?
    ensures Leads(s, steps, t) && SameClient(s, t)
    ensures t.engine.wire == s.engine.wire + [State(Thinking)] + [TtsStart(s.engine.generation + 1)]
  {
    Announce(s, p);
    AnnouncingSends(s.engine, p);
    var next := PipelineRuns(p, [], false);
    steps, t := [next] + [next] + [next], s.(engine := Announcing(s.engine, p));
  }

  lemma AnnouncingSends(e: Engine, p: nat)
    requires e.state.Processing?
    ensures Announcing(e, p).wire == e.wire + [State(Thinking)] + [TtsStart(e.generation + 1)]
  {}

  /** A message that stops nothing and announces nothing. */
  predicate Gentle(message: ServerMsg) {
    !message.TtsStart? && (message.State? ==> !Silencing(message.state))
  }

  /** The client reads on, and what was sounding goes on sounding. */
  lemma {:induction false} ReadOn(s: System, id: nat, n: nat) returns (steps: seq<Step>, t: System)
    requires s.client.open && id in s.client.active && s.got <= n <= |s.engine.wire|
    requires forall i :: s.got <= i < n ==> Gentle(s.engine.wire[i])
    ensures Leads(s, steps, t) && t.client.open && id in t.client.active && t.got == n && t.engine == s.engine
    decreases n - s.got
  {
    if s.got == n {
      steps, t := [], s;
    } else {
      var next := Apply(s, HEAR);
      OneStep(s, HEAR);
      var more;
      more, t := ReadOn(next, id, n);
      LeadsThen(s, [HEAR], next, more, t);
      steps := [HEAR] + more;
    }
  }

  /** With a frame of the current generation sounding and the window open, the next
      question is announced over it. */
  lemma NextQuestionOverlaps(s: System, id: nat) returns (steps: seq<Step>)
    requires Free(s) && id in s.client.active && id < s.got <= |s.engine.wire|
    requires s.engine.wire[id].Audio? && s.engine.wire[id].frame.origin == s.engine.generation
    requires forall i :: s.got <= i < |s.engine.wire| ==> Gentle(s.engine.wire[i])
    ensures PlainRun(s, steps) && !InPlace(Run(s, steps))
  {
    var first, t := QuestionAnswered(s);
    var w, n := s.engine.wire, |s.engine.wire| + 5;
    forall i | s.got <= i < n ensures Gentle(t.engine.wire[i]) {
      assert i < |w| ==> t.engine.wire[i] == w[i];
    }
    var read, u := ReadOn(t, id, n);
    LeadsThen(s, first, t, read, u);
    StartOverlaps(u, id);
    LeadsThen(s, first + read, u, [HEAR], Apply(u, HEAR));
    steps := first + read + [HEAR];
  }

  lemma AnswerStored(s: System) returns (steps: seq<Step>, t: System, p: nat)
    requires Free(s)
    ensures Leads(s, steps, t) && SameClient(s, t) && t.engine.generation == s.engine.generation
    ensures t.engine.wire == s.engine.wire + [Notice, State(Processing)] + [Notice] + [Notice]
    ensures !t.engine.receiver.Gone? && t.engine.state.Processing? && p in t.engine.tasks.pipes && t.engine.tasks.pipes[p].Fresh?
  {
    var first, u := AnswerTurn(s);
    var second;
    second, t := StoreTurn(u, s.engine.tasks.made);
    p := u.engine.tasks.made;
    LeadsThen(s, first, u, second, t);
    steps := first + second;
  }

  lemma QuestionAnswered(s: System) returns (steps: seq<Step>, t: System)
    requires Free(s)
    ensures Leads(s, steps, t) && SameClient(s, t)
    ensures t.engine.wire == s.engine.wire + TurnMessages(s.engine.generation + 1)
  {
    var first, u, p := AnswerStored(s);
    var second;
    second, t := AnnounceTurn(u, p);
    LeadsThen(s, first, u, second, t);
    TurnJoins(s.engine.wire, u.engine.wire, t.engine.wire, s.engine.generation + 1);
    steps := first + second;
  }

  lemma TurnJoins(w: seq<ServerMsg>, u: seq<ServerMsg>, t: seq<ServerMsg>, g: nat)
    requires u == w + [Notice, State(Processing)] + [Notice] + [Notice] && t == u + [State(Thinking)] + [TtsStart(g)]
    ensures t == w + TurnMessages(g)
  {}

  /** The announcement takes the current generation away from what is sounding. */
  lemma StartOverlaps(s: System, id: nat)
    requires s.client.open && id in s.client.active && id < s.got < |s.engine.wire| && s.engine.wire[s.got].TtsStart?
    requires s.engine.wire[id].Audio? && s.engine.wire[id].frame.origin != s.engine.wire[s.got].generation
    ensures Leads(s, [HEAR], Apply(s, HEAR)) && !InPlace(Apply(s, HEAR))
  {
    OneStep(s, HEAR);
    assert id in Apply(s, HEAR).client.active;
  }

  /** A regular run, one step, regular steps again, and audio out of its place. */
  ghost predicate Overlaps(before: seq<Step>, l: Step, after: seq<Step>) {
    var s := Run(START, before);
    PlainRun(START, before) && Disciplined(s, l) && PlainRun(Apply(s, l), after) && !InPlace(Run(Apply(s, l), after))
  }

  lemma OverlapsFrom(before: seq<Step>, s: System, l: Step, after: seq<Step>)
    requires Leads(START, before, s) && Disciplined(s, l) && PlainRun(Apply(s, l), after) && !InPlace(Run(Apply(s, l), after))
    ensures Overlaps(before, l, after) && Run(START, before) == s
  {}

  // -- a timeout ----------------------------------------------------------------------------------

  /** The playback timeout comes before the client is done: the answer is taken and the
      next question announced while the first frame is still sounding. */
  lemma TimeoutOverlaps() returns (before: seq<Step>, after: seq<Step>)
    ensures Overlaps(before, TimerFires, after) && !Patient(Run(START, before), TimerFires)
  {
    var first := FirstSounding();
    var complete := CompleteQuestion(SOUNDING, 0, 1);
    var s := SOUNDING.(engine := Complete(BEGUN, 0, 1));
    LeadsThen(START, first, SOUNDING, complete, s);
    before := first + complete;
    WindowOpens(s);
    after := AfterTimeout(s);
    OverlapsFrom(before, s, TimerFires, after);
  }

  lemma AfterTimeout(s: System) returns (after: seq<Step>)
    requires s == SOUNDING.(engine := Complete(BEGUN, 0, 1))
    ensures PlainRun(Apply(s, TimerFires), after) && !InPlace(Run(Apply(s, TimerFires), after))
  {
    WindowOpens(s);
    var t := Apply(s, TimerFires);
    assert t.engine.wire[4] == Audio(Frame(1, HELLO));
    after := NextQuestionOverlaps(t, 4);
  }

  lemma WindowOpens(s: System)
    requires s == SOUNDING.(engine := Complete(BEGUN, 0, 1))
    ensures TimeoutOpens(s.engine) && Free(Apply(s, TimerFires))
    ensures var t := Apply(s, TimerFires);
            && t.client == s.client && t.got == s.got && t.engine.generation == 1
            && t.engine.wire == BEGUN.wire + [Audio(Frame(1, AGAIN)), Notice, TtsStop(1), State(Listening)]
    ensures !Patient(s, TimerFires)
  {
    assert s.engine.wire[4] == Audio(Frame(1, HELLO));
  }

  // -- an acknowledgement the playback did not send ------------------------------------------------

  /** A control that says the playback is complete, sent while it is not. */
  lemma ForgedAckOverlaps() returns (before: seq<Step>, after: seq<Step>)
    ensures Overlaps(before, UserSends(PlaybackComplete(1)), after)
    ensures !Steady(Run(START, before), UserSends(PlaybackComplete(1)))
  {
    var first := FirstSounding();
    var complete := CompleteQuestion(SOUNDING, 0, 1);
    var s := SOUNDING.(engine := Complete(BEGUN, 0, 1));
    LeadsThen(START, first, SOUNDING, complete, s);
    before := first + complete;
    after := AfterForgedAck(s);
    OverlapsFrom(before, s, UserSends(PlaybackComplete(1)), after);
  }

  lemma AfterForgedAck(s: System) returns (after: seq<Step>)
    requires s == SOUNDING.(engine := Complete(BEGUN, 0, 1))
    ensures var t := Apply(s, UserSends(PlaybackComplete(1))); PlainRun(t, after) && !InPlace(Run(t, after))
  {
    var t := s.(up := [PlaybackComplete(1)]);
    assert [] + [PlaybackComplete(1)] == [PlaybackComplete(1)];
    assert Apply(s, UserSends(PlaybackComplete(1))) == t;
    ForgedAckOpens(t);
    OneStep(t, RECEIVE);
    var u := Apply(t, RECEIVE);
    var more := NextQuestionOverlaps(u, 4);
    LeadsThen(t, [RECEIVE], u, more, Run(u, more));
    after := [RECEIVE] + more;
  }

  lemma ForgedAckOpens(t: System)
    requires t == SOUNDING.(engine := Complete(BEGUN, 0, 1), up := [PlaybackComplete(1)])
    ensures Disciplined(t, RECEIVE) && Free(Apply(t, RECEIVE))
    ensures var u := Apply(t, RECEIVE);
            && u.client == t.client && u.got == 5 && u.engine.generation == 1 && u.engine.wire[4] == Audio(Frame(1, HELLO))
            && u.engine.wire == BEGUN.wire + [Audio(Frame(1, AGAIN)), Notice, TtsStop(1), State(Listening)]
  {}

  // -- an underrun ---------------------------------------------------------------------------------

  /** The client has played all it has, and acknowledges a question still being sent. */
  const STARVED := SOUNDING.(client := LISTENER.(pendingPlayback := -1), up := [PlaybackComplete(1)], finished := {4})

  lemma NotStopped()
    ensures !Watch(BEGUN.wire).stopped
  {
    var w := BEGUN.wire;
    assert w == [State(Starting), State(Thinking)] + [TtsStart(1)] + [State(Speaking)] + [Audio(Frame(1, HELLO))];
    WatchSnoc([State(Starting), State(Thinking)], TtsStart(1));
    WatchSnoc([State(Starting), State(Thinking)] + [TtsStart(1)], State(Speaking));
    WatchSnoc([State(Starting), State(Thinking)] + [TtsStart(1)] + [State(Speaking)], Audio(Frame(1, HELLO)));
  }

  lemma SourceStarves()
    ensures Apply(SOUNDING, SourceEnds(4)) == STARVED
    ensures Disciplined(SOUNDING, SourceEnds(4)) && !Steady(SOUNDING, SourceEnds(4))
  {
    assert BEGUN.wire == [State(Starting), State(Thinking), TtsStart(1), State(Speaking), Audio(Frame(1, HELLO))];
    assert {4} - {4} == {};
    assert BEGUN.wire[..5] == BEGUN.wire;
    NotStopped();
  }

  /** The rest of the question is sent, and only then the acknowledgement is read. */
  lemma StarvedToTheEnd() returns (steps: seq<Step>, s: System)
    ensures Leads(STARVED, steps, s) && s == STARVED.(engine := Complete(BEGUN, 0, 1))
    ensures s.engine.state.Speaking? && !Heard(s, 1) && Disciplined(s, RECEIVE)
    ensures Apply(s, RECEIVE).engine.state.Listening?
  {
    steps := CompleteQuestion(STARVED, 0, 1);
    s := STARVED.(engine := Complete(BEGUN, 0, 1));
    assert s.engine.wire[5] == Audio(Frame(1, AGAIN));
  }

  /** Without the no-underrun hypothesis speaker integrity fails: the client's only
      source ends before the second frame arrives, its early acknowledgement is read
      after the question is complete, and the microphone opens with that frame in flight. */
  lemma UnderrunOpensMicEarly() returns (before: seq<Step>, after: seq<Step>)
    ensures PlainRun(START, before)
    ensures var s := Run(START, before); Disciplined(s, SourceEnds(4)) && !Steady(s, SourceEnds(4))
    ensures var s := Apply(Run(START, before), SourceEnds(4));
            && PlainRun(s, after)
            && Run(s, after).engine.state.Speaking? && Run(s, after).up == [PlaybackComplete(1)]
            && Apply(Run(s, after), RECEIVE).engine.state.Listening? && !Heard(Run(s, after), 1)
  {
    before := FirstSounding();
    SourceStarves();
    var s;
    after, s := StarvedToTheEnd();
  }

  /** And the second frame, heard at last, sounds on under the next question. */
  lemma UnderrunOverlaps() returns (before: seq<Step>, after: seq<Step>)
    ensures Overlaps(before, SourceEnds(4), after) && !Steady(Run(START, before), SourceEnds(4))
  {
    before := FirstSounding();
    SourceStarves();
    after := AfterUnderrun();
    OverlapsFrom(before, SOUNDING, SourceEnds(4), after);
  }

  lemma AfterUnderrun() returns (after: seq<Step>)
    ensures PlainRun(STARVED, after) && !InPlace(Run(STARVED, after))
  {
    var complete, s := StarvedToTheEnd();
    var t := LateFrameSounds(s);
    LeadsThen(STARVED, complete, s, [RECEIVE] + [HEAR], t);
    var more := LateFrameOverlaps(t);
    LeadsThen(STARVED, complete + ([RECEIVE] + [HEAR]), t, more, Run(t, more));
    after := complete + ([RECEIVE] + [HEAR]) + more;
  }

  lemma LateFrameOverlaps(t: System) returns (steps: seq<Step>)
    requires Free(t) && t.client.active == {5} && t.got == 6 && t.engine.generation == 1
    requires t.engine.wire == BEGUN.wire + [Audio(Frame(1, AGAIN)), Notice, TtsStop(1), State(Listening)]
    ensures PlainRun(t, steps) && !InPlace(Run(t, steps))
  {
    assert |BEGUN.wire| == 5;
    steps := NextQuestionOverlaps(t, 5);
  }

  lemma LateFrameSounds(s: System) returns (t: System)
    requires s == STARVED.(engine := Complete(BEGUN, 0, 1))
    ensures Leads(s, [RECEIVE] + [HEAR], t) && Free(t) && t.client.active == {5} && t.got == 6 && t.engine.generation == 1
    ensures t.engine.wire == BEGUN.wire + [Audio(Frame(1, AGAIN)), Notice, TtsStop(1), State(Listening)]
  {
    var u := s.(engine := StartListening(s.engine.(timer := false)), up := []);
    assert Apply(s, RECEIVE) == u;
    assert u.engine.wire == BEGUN.wire + [Audio(Frame(1, AGAIN)), Notice, TtsStop(1), State(Listening)];
    TwoSteps(s, RECEIVE, HEAR);
    t := Apply(u, HEAR);
    assert EnqueuePlayback(u.client, 5).active == {5};
  }
}
