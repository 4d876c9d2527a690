/** Stale audio is never heard: what is sounding belongs to the client's current
    generation. On top of the discipline this takes a client that is given the
    time to play: no underrun, and no playback timeout over unheard audio. */
module VoicePlaying {
  import opened Wrappers
  import opened VoiceTypes
  import opened SpeechWorker
  import opened EngineSteps
  import opened VoiceProtocol
  import opened VoiceMonitor
  import opened VoiceSafety
  import opened VoiceRuns
  import opened VoiceIntegrity

  /** Every source that is scheduled or sounding is a frame of the current generation. */
  predicate InPlace(s: System) {
    forall id :: id in s.client.active ==>
      id < |s.engine.wire| && s.engine.wire[id].Audio? && s.engine.wire[id].frame.origin == s.client.currentGeneration
  }

  // -- the exact condition ---------------------------------------------------------

  predicate ReceivesStart(s: System, l: Step) {
    l.ClientReceives? && s.client.open && s.got < |s.engine.wire| && s.engine.wire[s.got].TtsStart?
  }

  /** No `tts_start` is received while something is sounding. */
  predicate CleanStart(s: System, l: Step) {
    ReceivesStart(s, l) ==> s.client.active == {}
  }

  lemma ReceivedSoFar(s: System)
    requires SystemSound(s) && s.got < |s.engine.wire|
    ensures Watch(s.engine.wire[..s.got]).ok
    ensures Watch(s.engine.wire[..s.got + 1]) == Observe(Watch(s.engine.wire[..s.got]), s.engine.wire[s.got])
    ensures Watch(s.engine.wire[..s.got + 1]).ok
  {
    var w, n := s.engine.wire, s.got;
    PrefixOk(w, n);
    PrefixOk(w, n + 1);
    assert w[..n + 1] == w[..n] + [w[n]];
    WatchSnoc(w[..n], w[n]);
  }

  lemma CleanReceiveKeepsInPlace(s: System)
    requires SystemSound(s) && InPlace(s) && CleanStart(s, ClientReceives)
    ensures InPlace(ClientReceivesNext(s))
  {
    if s.client.open && s.got < |s.engine.wire| {
      ReceivedSoFar(s);
      ReceiveFollows(s.client, s.got, s.engine.wire[s.got], Watch(s.engine.wire[..s.got]));
    }
  }

  lemma CleanStepKeepsInPlace(s: System, l: Step)
    requires SystemSound(s) && InPlace(s) && Disciplined(s, l) && CleanStart(s, l)
    ensures InPlace(Apply(s, l))
  {
    if ServerStep(l) {
      WireGrows(s.engine, Head(s.up), l);
      assert forall i :: 0 <= i < |s.engine.wire| ==> Apply(s, l).engine.wire[i] == s.engine.wire[i];
    } else if l.ClientReceives? {
      CleanReceiveKeepsInPlace(s);
    }
  }

  /** A `tts_start` takes over the current generation from whatever is sounding. */
  lemma UncleanStartMisplaces(s: System)
    requires SystemSound(s) && InPlace(s) && !CleanStart(s, ClientReceives)
    ensures !InPlace(ClientReceivesNext(s))
  {
    var id :| id in s.client.active;
    ReceivedSoFar(s);
    FramesBelowTop(s.engine.wire[..s.got], id);
    assert id in ClientReceivesNext(s).client.active;
  }

  ghost predicate AlwaysInPlace(steps: seq<Step>) {
    forall n :: 0 <= n <= |steps| ==> InPlace(Run(START, steps[..n]))
  }

  ghost predicate StartsCleanly(steps: seq<Step>) {
    forall n {:trigger steps[n]} :: 0 <= n < |steps| ==> CleanStart(Run(START, steps[..n]), steps[n])
  }

  lemma PrefixesOf(steps: seq<Step>, n: nat)
    requires n < |steps|
    ensures Run(START, steps[..n + 1]) == Apply(Run(START, steps[..n]), steps[n])
    ensures DisciplinedRun(START, steps) ==> SystemSound(Run(START, steps[..n])) && Disciplined(Run(START, steps[..n]), steps[n])
  {
    assert steps[..n + 1][..n] == steps[..n];
    if DisciplinedRun(START, steps) {
      assert Disciplined(Run(START, steps[..n]), steps[n]);
      forall i | 0 <= i < n ensures Disciplined(Run(START, steps[..n][..i]), steps[..n][i]) {
        assert steps[..n][..i] == steps[..i] && steps[..n][i] == steps[i];
        assert Disciplined(Run(START, steps[..i]), steps[i]);
      }
      RunsAreSound(steps[..n]);
    }
  }

  lemma {:induction false} InPlaceUpTo(steps: seq<Step>, n: nat)
    requires DisciplinedRun(START, steps) && StartsCleanly(steps) && n <= |steps|
    ensures InPlace(Run(START, steps[..n]))
  {
    if n > 0 {
      InPlaceUpTo(steps, n - 1);
      PrefixesOf(steps, n - 1);
      assert CleanStart(Run(START, steps[..n - 1]), steps[n - 1]);
      CleanStepKeepsInPlace(Run(START, steps[..n - 1]), steps[n - 1]);
    } else {
      assert steps[..0] == [];
    }
  }

  /** In a disciplined run the frames sounding are at all times those of the current
      generation if and only if no `tts_start` is received while a source is active. */
  lemma PlaysInPlaceExactlyWhen(steps: seq<Step>)
    requires DisciplinedRun(START, steps)
    ensures AlwaysInPlace(steps) <==> StartsCleanly(steps)
  {
    if StartsCleanly(steps) {
      forall n | 0 <= n <= |steps| ensures InPlace(Run(START, steps[..n])) {
        InPlaceUpTo(steps, n);
      }
    }
    if AlwaysInPlace(steps) {
      forall n | 0 <= n < |steps| ensures CleanStart(Run(START, steps[..n]), steps[n]) {
        PrefixesOf(steps, n);
        assert InPlace(Run(START, steps[..n])) && InPlace(Run(START, steps[..n + 1]));
        if !CleanStart(Run(START, steps[..n]), steps[n]) {
          UncleanStartMisplaces(Run(START, steps[..n]));
        }
      }
    }
  }

  // -- a client that is given the time to play ----------------------------------------

  predicate TimeoutOpens(e: Engine) {
    e.timer && e.pending.Some? && e.state.Speaking? && e.generation == e.pending.value
  }

  /** The playback timeout does not open the window over a question not yet heard. */
  predicate Patient(s: System, l: Step) {
    l.TimerFires? && TimeoutOpens(s.engine) ==> Heard(s, s.engine.generation)
  }

  ghost predicate PatientRun(s: System, steps: seq<Step>) {
    forall i {:trigger steps[i]} :: 0 <= i < |steps| ==> Patient(Run(s, steps[..i]), steps[i])
  }

  /** The announced question is no longer the engine's business. */
  predicate Closed(e: Engine) {
    var live := Watch(e.wire).live;
    !e.receiver.Gone? && live >= 0 && (e.generation != live || !Voiced(e.state))
  }

  predicate Over(s: System) {
    Closed(s.engine) ==> Heard(s, Watch(s.engine.wire).live)
  }

  /** When a question was announced, the one announced before it had been heard. */
  ghost predicate HeardBefore(s: System) {
    forall n, i :: 0 <= i < n < |s.engine.wire| && s.engine.wire[n].TtsStart? && s.engine.wire[i].Audio? ==>
      s.engine.wire[i].frame.origin == Watch(s.engine.wire[..n]).live ==> i in s.finished
  }

  predicate FinishedApart(s: System) {
    s.client.active !! s.finished && forall id :: id in s.finished ==> id < s.got
  }

  ghost predicate Playing(s: System) {
    InPlace(s) && FinishedApart(s) && Over(s) && HeardBefore(s)
  }

  // -- what a server step sends ---------------------------------------------------------

  /** An announcement comes from a pipeline in THINKING, a frame from a live sender. */
  predicate ComesFrom(e: Engine, l: Step, message: ServerMsg) {
    && (message.TtsStart? ==> l.PipelineRuns? && l.pipe in e.tasks.pipes && e.tasks.pipes[l.pipe] == Thought(message.generation))
    && (message.Audio? ==> l.SenderRuns? && l.generation in e.tasks.workers && Alive(e.tasks.workers[l.generation]))
  }

  /** A server step sends at most one message. */
  ghost predicate SendsOne(e: Engine, l: Step, after: seq<ServerMsg>) {
    after == e.wire || exists message :: after == e.wire + [message] && ComesFrom(e, l, message)
  }

  lemma SetStateSends(e: Engine, l: Step, state: VoiceState)
    ensures SendsOne(e, l, SetState(e, state).wire) && SendsOne(e, l, Emit(e, Notice).wire)
  {
    assert ComesFrom(e, l, State(state)) && ComesFrom(e, l, Notice);
  }

  lemma MessageSends(e: Engine, l: Step, message: ClientMsg, bargeIn: bool)
    ensures SendsOne(e, l, OnMessage(e, message, bargeIn).wire)
  {
    match message
    case Interrupt => SetStateSends(e, l, Interrupted);
    case Pause => SetStateSends(e, l, Paused);
    case Mic(_) => SetStateSends(e, l, Interrupted);
    case _ => SetStateSends(e, l, Listening);
  }

  lemma ProceedSends(e: Engine, l: Step)
    ensures SendsOne(e, l, Proceed(e).wire)
  {
    SetStateSends(e, l, Listening);
    if e.receiver.Ending? { SetStateSends(e, l, e.receiver.last); }
  }

  lemma SessionSends(e: Engine, l: Step, found: SessionOutcome)
    ensures SendsOne(e, l, SessionStep(e, found).wire)
  {
    SetStateSends(e, l, Listening);
    SetStateSends(e, l, Starting);
  }

  lemma BackgroundSends(e: Engine, l: Step)
    ensures SendsOne(e, l, PlaybackTimeout(e).wire)
    ensures SendsOne(e, l, WatchdogEndsTurn(e).wire)
    ensures SendsOne(e, l, WatchdogCreates(e).wire)
  {
    SetStateSends(e, l, Listening);
  }

  lemma PipeSends(e: Engine, p: nat, segments: seq<string>, last: bool)
    requires p in e.tasks.pipes
    ensures SendsOne(e, PipelineRuns(p, segments, last), PipeStep(e, p, segments, last).wire)
  {
    var l := PipelineRuns(p, segments, last);
    SetStateSends(e, l, Thinking);
    match e.tasks.pipes[p]
    case Thought(g) => assert ComesFrom(e, l, TtsStart(g));
    case Awaiting(g) => assert ComesFrom(e, l, TtsStop(g));
    case _ =>
  }

  lemma AnswerReports(e: Engine, a: nat, reply: AnswerOutcome)
    requires a in e.tasks.answers
    ensures var stage, after := e.tasks.answers[a], AnswerStep(e, a, reply).wire;
            stage.Transcribing? || stage.Submitting? || stage.Submitted? ==> after == e.wire || after == Emit(e, Notice).wire
  {}

  lemma AnswerMoves(e: Engine, a: nat, reply: AnswerOutcome)
    requires a in e.tasks.answers
    ensures var stage, after := e.tasks.answers[a], AnswerStep(e, a, reply).wire;
            && (stage.Created? ==> after == SetState(e, Processing).wire)
            && (stage.Claimed? || stage.Blank? ==> after == e.wire || after == SetState(e, Listening).wire)
  {}

  lemma AnswerSends(e: Engine, l: Step, a: nat, reply: AnswerOutcome)
    requires a in e.tasks.answers
    ensures SendsOne(e, l, AnswerStep(e, a, reply).wire)
  {
    AnswerReports(e, a, reply);
    AnswerMoves(e, a, reply);
    SetStateSends(e, l, Processing);
    SetStateSends(e, l, Listening);
  }

  lemma SenderSends(e: Engine, g: nat)
    requires g in e.tasks.workers && Alive(e.tasks.workers[g])
    ensures SendsOne(e, SenderRuns(g), SenderStep(e, g).wire)
  {
    SetStateSends(e, SenderRuns(g), Speaking);
    var w := e.tasks.workers[g];
    if w.sender.Holding? { assert ComesFrom(e, SenderRuns(g), Audio(Frame(g, w.sender.pcm))); }
  }

  lemma ServerSends(e: Engine, head: Option<ClientMsg>, l: Step)
    requires ServerStep(l) && !l.PipelineRaises?
    ensures SendsOne(e, l, EngineAfter(e, head, l).wire)
  {
    match l
    case ServerReceives(bargeIn) => if head.Some? { MessageSends(e, l, head.value, bargeIn); }
    case ServerProceeds => ProceedSends(e, l);
    case SessionRuns(found) => SessionSends(e, l, found);
    case TimerFires => BackgroundSends(e, l);
    case WatchdogDecides => BackgroundSends(e, l);
    case WatchdogCreatesTask => BackgroundSends(e, l);
    case PipelineRuns(p, segments, last) => if p in e.tasks.pipes { PipeSends(e, p, segments, last); }
    case ProducerRuns(_, _) =>
    case SenderRuns(g) => if g in e.tasks.workers && Alive(e.tasks.workers[g]) { SenderSends(e, g); }
    case AnswerRuns(a, reply) => if a in e.tasks.answers { AnswerSends(e, l, a, reply); }
  }

  // -- how a question is left -------------------------------------------------------------

  /** The two ways out of a question that do not silence the client. */
  predicate LetsGo(e: Engine, head: Option<ClientMsg>, l: Step) {
    || (l.TimerFires? && TimeoutOpens(e))
    || (l.ServerReceives? && e.receiver.Ready? && head == Some(PlaybackComplete(e.generation)))
  }

  /** The engine is still busy with the same question, or has silenced the client. */
  predicate StaysOn(e: Engine, after: Engine) {
    || (after.generation == e.generation && Voiced(after.state))
    || Silencing(after.state)
    || after.receiver.Gone?
  }

  lemma MessageStaysOn(e: Engine, message: ClientMsg, bargeIn: bool)
    requires EngineSound(e) && Voiced(e.state) && e.receiver.Ready? && Admissible(e, message)
    requires message != PlaybackComplete(e.generation)
    ensures StaysOn(e, OnMessage(e, message, bargeIn))
  {}

  lemma ProceedStaysOn(e: Engine)
    requires EngineSound(e) && Voiced(e.state)
    ensures StaysOn(e, Proceed(e))
  {}

  lemma BackgroundStaysOn(e: Engine, found: SessionOutcome)
    requires EngineSound(e) && Voiced(e.state)
    ensures StaysOn(e, SessionStep(e, found))
    ensures !TimeoutOpens(e) ==> StaysOn(e, PlaybackTimeout(e))
    ensures StaysOn(e, WatchdogEndsTurn(e)) && StaysOn(e, WatchdogCreates(e))
  {}

  /** A pipeline moves the generation on only from its first stage, and leaves the
      state alone but for THINKING. */
  lemma PipeStateAfter(e: Engine, p: nat, segments: seq<string>, last: bool)
    requires p in e.tasks.pipes && !e.tasks.pipes[p].Fresh?
    ensures var after := PipeStep(e, p, segments, last);
            after.generation == e.generation && (after.state == e.state || after.state.Thinking?)
  {}

  lemma PipeStaysOn(e: Engine, p: nat, segments: seq<string>, last: bool)
    requires EngineSound(e) && Voiced(e.state) && p in e.tasks.pipes
    ensures StaysOn(e, PipeStep(e, p, segments, last))
  {
    PipeTasks(e.tasks, p, e.tasks.pipes[p]);
    PipeStateAfter(e, p, segments, last);
  }

  lemma ServerStaysOn(e: Engine, head: Option<ClientMsg>, l: Step)
    requires EngineSound(e) && Voiced(e.state) && ServerStep(l) && !l.PipelineRaises? && !LetsGo(e, head, l)
    requires l.ServerReceives? && e.receiver.Ready? && head.Some? ==> Admissible(e, head.value)
    ensures StaysOn(e, EngineAfter(e, head, l))
  {
    match l
    case ServerReceives(bargeIn) =>
      if e.receiver.Ready? && head.Some? { MessageStaysOn(e, head.value, bargeIn); }
    case ServerProceeds => ProceedStaysOn(e);
    case SessionRuns(found) => BackgroundStaysOn(e, found);
    case TimerFires => BackgroundStaysOn(e, Begins);
    case WatchdogDecides => BackgroundStaysOn(e, Begins);
    case WatchdogCreatesTask => BackgroundStaysOn(e, Begins);
    case PipelineRuns(p, segments, last) => if p in e.tasks.pipes { PipeStaysOn(e, p, segments, last); }
    case ProducerRuns(_, _) =>
    case SenderRuns(g) => if g in e.tasks.workers { SenderStateAfter(e, g); }
    case AnswerRuns(a, reply) => if a in e.tasks.answers { AnswerTasks(e.tasks, a, e.tasks.answers[a]); }
  }

  lemma SenderStateAfter(e: Engine, g: nat)
    requires g in e.tasks.workers
    ensures var after := SenderStep(e, g); after.generation == e.generation && (after.state == e.state || after.state.Speaking?)
  {}

  // -- every step keeps it ------------------------------------------------------------------

  /** A live sender speaks for a question that is not over. */
  lemma SpeakerIsOpen(e: Engine, g: nat)
    requires EngineSound(e) && g in e.tasks.workers && Alive(e.tasks.workers[g])
    ensures !Closed(e)
  {
    WorkerTasks(e.tasks, g, e.tasks.workers[g]);
  }

  /** A question just announced is not over; the one before it was. */
  lemma AnnouncedIsOpen(e: Engine, p: nat, g: nat)
    requires EngineSound(e) && p in e.tasks.pipes && e.tasks.pipes[p] == Thought(g)
    ensures g == e.generation && Voiced(e.state) && (Watch(e.wire).live >= 0 && !e.receiver.Gone? ==> Closed(e))
  {
    PipeTasks(e.tasks, p, e.tasks.pipes[p]);
  }

  /** A step that leaves the announced question over has not announced it. */
  lemma LiveStays(s: System, l: Step)
    requires SystemSound(s) && Disciplined(s, l) && ServerStep(l) && Closed(Apply(s, l).engine)
    ensures Watch(Apply(s, l).engine.wire).live == Watch(s.engine.wire).live
  {
    var e, after := s.engine, Apply(s, l).engine;
    ServerKeepsSound(e, Head(s.up), l);
    ServerSends(e, Head(s.up), l);
    if after.wire != e.wire {
      var message :| after.wire == e.wire + [message] && ComesFrom(e, l, message);
      MessageKeepsLive(e, after, l, message);
    }
  }

  lemma MessageKeepsLive(e: Engine, after: Engine, l: Step, message: ServerMsg)
    requires EngineSound(e) && EngineSound(after) && Closed(after)
    requires after.wire == e.wire + [message] && ComesFrom(e, l, message)
    requires l.PipelineRuns? && l.pipe in e.tasks.pipes ==> after == PipeStep(e, l.pipe, l.segments, l.last)
    ensures Watch(after.wire).live == Watch(e.wire).live
  {
    WatchSnoc(e.wire, message);
    if message.TtsStart? { StartStaysOpen(e, l, message.generation); }
  }

  lemma StartStaysOpen(e: Engine, l: Step, g: nat)
    requires EngineSound(e) && l.PipelineRuns? && l.pipe in e.tasks.pipes && e.tasks.pipes[l.pipe] == Thought(g)
    ensures var after := PipeStep(e, l.pipe, l.segments, l.last); g == after.generation && Voiced(after.state)
  {
    AnnouncedIsOpen(e, l.pipe, g);
  }

  /** What an engine step can make of the announced question. */
  lemma ServerCloses(s: System, l: Step)
    requires SystemSound(s) && Disciplined(s, l) && ServerStep(l)
    ensures var e, after := s.engine, Apply(s, l).engine;
            Closed(after) ==>
              && Watch(after.wire).live == Watch(e.wire).live
              && (Closed(e) || (LetsGo(e, Head(s.up), l) && Watch(e.wire).live == e.generation))
  {
    var e, head := s.engine, Head(s.up);
    if Closed(Apply(s, l).engine) {
      LiveStays(s, l);
      if !Closed(e) && !LetsGo(e, head, l) {
        ServerKeepsSound(e, head, l);
        ServerStaysOn(e, head, l);
      }
    }
  }

  /** What was heard stays heard as long as nothing more of it is sent. */
  lemma HeardStays(s: System, after: System, g: int)
    requires Heard(s, g) && s.got <= after.got && s.finished <= after.finished && s.engine.wire <= after.engine.wire
    requires forall i :: |s.engine.wire| <= i < |after.engine.wire| && after.engine.wire[i].Audio? ==>
               after.engine.wire[i].frame.origin != g
    ensures Heard(after, g)
  {}

  /** A question over is heard: by the acknowledgement, by a patient timeout, or from before. */
  lemma ServerKeepsOver(s: System, l: Step)
    requires SystemSound(s) && Honest(s) && Over(s) && Disciplined(s, l) && Patient(s, l) && ServerStep(l)
    ensures Over(Apply(s, l))
  {
    var e, after := s.engine, Apply(s, l);
    if Closed(after.engine) {
      ServerCloses(s, l);
      ServerSends(e, Head(s.up), l);
      var g := Watch(e.wire).live;
      assert Heard(s, g);
      if after.engine.wire != e.wire {
        var message :| after.engine.wire == e.wire + [message] && ComesFrom(e, l, message);
        if message.Audio? { SenderLeavesOpen(s, l); }
      }
      HeardStays(s, after, g);
    }
  }

  /** After a frame the question is not over. */
  lemma SenderLeavesOpen(s: System, l: Step)
    requires SystemSound(s) && Disciplined(s, l) && l.SenderRuns?
    requires l.generation in s.engine.tasks.workers && Alive(s.engine.tasks.workers[l.generation])
    ensures !Closed(Apply(s, l).engine)
  {
    SpeakerIsOpen(s.engine, l.generation);
    ServerCloses(s, l);
  }

  lemma ServerKeepsHeardBefore(s: System, l: Step)
    requires SystemSound(s) && Over(s) && HeardBefore(s) && Disciplined(s, l) && ServerStep(l)
    ensures HeardBefore(Apply(s, l))
  {
    var e, w := s.engine, s.engine.wire;
    var after := Apply(s, l).engine.wire;
    ServerSends(e, Head(s.up), l);
    if after != w {
      var message :| after == w + [message] && ComesFrom(e, l, message);
      if message.TtsStart? { AnnouncedIsOpen(e, l.pipe, message.generation); }
      forall n, i | 0 <= i < n < |after| && after[n].TtsStart? && after[i].Audio?
        ensures after[i].frame.origin == Watch(after[..n]).live ==> i in s.finished
      {
        assert after[..n] == w[..n] && after[i] == w[i];
        assert n < |w| ==> after[n] == w[n];
        assert w[..|w|] == w;
      }
    }
  }

  lemma ServerKeepsPlaying(s: System, l: Step)
    requires SystemSound(s) && Honest(s) && Playing(s) && Disciplined(s, l) && Patient(s, l) && ServerStep(l)
    ensures Playing(Apply(s, l))
  {
    CleanStepKeepsInPlace(s, l);
    ServerKeepsOver(s, l);
    ServerKeepsHeardBefore(s, l);
  }

  /** When the client reads a `tts_start`, nothing is sounding. */
  lemma StartsAreClean(s: System)
    requires SystemSound(s) && Playing(s)
    ensures CleanStart(s, ClientReceives)
  {
    if ReceivesStart(s, ClientReceives) {
      assert forall id :: id in s.client.active ==> id in s.finished;
    }
  }

  lemma StepKeepsPlaying(s: System, l: Step)
    requires SystemSound(s) && Honest(s) && Playing(s) && Disciplined(s, l) && Patient(s, l)
    ensures Playing(Apply(s, l))
  {
    if ServerStep(l) {
      ServerKeepsPlaying(s, l);
    } else {
      StartsAreClean(s);
      CleanStepKeepsInPlace(s, l);
      var after := Apply(s, l);
      assert after.engine == s.engine && s.finished <= after.finished && s.got <= after.got;
      if Closed(s.engine) { HeardStays(s, after, Watch(s.engine.wire).live); }
      if l.ClientReceives? && s.client.open && s.got < |s.engine.wire| {
        ReceivedSoFar(s);
        ReceiveFollows(s.client, s.got, s.engine.wire[s.got], Watch(s.engine.wire[..s.got]));
      }
    }
  }

  lemma {:induction false} RunsPlay(steps: seq<Step>)
    requires DisciplinedRun(START, steps) && SteadyRun(START, steps) && PatientRun(START, steps)
    ensures Playing(Run(START, steps))
  {
    if steps != [] {
      var init, n := steps[..|steps| - 1], |steps| - 1;
      DisciplinedPrefix(START, steps);
      assert Steady(Run(START, steps[..n]), steps[n]) && Patient(Run(START, steps[..n]), steps[n]);
      forall i | 0 <= i < n
        ensures init[i] == steps[i] && init[..i] == steps[..i]
        ensures Steady(Run(START, init[..i]), init[i]) && Patient(Run(START, init[..i]), init[i])
      {
        assert init[..i] == steps[..i];
        assert Steady(Run(START, steps[..i]), steps[i]) && Patient(Run(START, steps[..i]), steps[i]);
      }
      RunsPlay(init);
      RunsAreSound(init);
      RunsAreHonest(init);
      StepKeepsPlaying(Run(START, init), steps[n]);
    }
  }

  /** Stale audio is never heard. In every disciplined run without an underrun, and
      without a playback timeout over unheard audio, each frame that is scheduled or
      sounding was synthesised for the generation the client takes to be current. */
  lemma NoStaleFramePlayed(steps: seq<Step>, id: nat)
    requires DisciplinedRun(START, steps) && SteadyRun(START, steps) && PatientRun(START, steps)
    requires id in Run(START, steps).client.active
    ensures var s := Run(START, steps);
            id < |s.engine.wire| && s.engine.wire[id].Audio? && s.engine.wire[id].frame.origin == s.client.currentGeneration
  {
    RunsPlay(steps);
  }
}
