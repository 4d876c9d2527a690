/** Microphone integrity, for every run whatsoever: what is transcribed as an
    answer is what the candidate said into an open window, and every byte of a
    window is counted once. */
module VoiceMic {
  import opened Wrappers
  import opened VoiceTypes
  import opened EngineSteps
  import opened VoiceProtocol

  datatype MicEvent =
    | Chunk(bytes: Bytes, state: VoiceState)   // a mic frame handled in that state
    | Opened                                   // a fresh candidate window
    | Cleared                                  // the audio so far is dropped or taken

  /** What step `l`, taken in `s`, means for the microphone. */
  function MicEvents(s: System, l: Step): seq<MicEvent> {
    if ServerStep(l) then EngineEvents(s.engine, Head(s.up), l) else []
  }

  function EngineEvents(e: Engine, head: Option<ClientMsg>, l: Step): seq<MicEvent>
    requires ServerStep(l)
  {
    if e.receiver.Gone? then []
    else match l
      case ServerReceives(bargeIn) =>
        if e.receiver.Ready? && head.Some? then MessageEvents(e, head.value, bargeIn) else []
      case ServerProceeds => if e.receiver.ClearWindow? then [Cleared] else []
      case SessionRuns(_) => if e.session.Rejoining? then [Opened] else []
      case TimerFires =>
        if e.timer && e.pending.Some? && e.state.Speaking? && e.generation == e.pending.value then [Opened] else []
      case AnswerRuns(a, _) => if a in e.tasks.answers && e.tasks.answers[a].Claimed? then [Cleared] else []
      case _ => []
  }

  function MessageEvents(e: Engine, message: ClientMsg, bargeIn: bool): seq<MicEvent> {
    match message
    case StartTurn => [Opened]
    case PlaybackComplete(g) => if e.state.Speaking? && e.pending.Some? && e.pending.value == g then [Opened] else []
    case Interrupt => [Cleared]
    case Mic(chunk) =>
      [Chunk(chunk, e.state)] + if bargeIn && (e.state.Speaking? || e.state.Thinking?) then [Cleared] else []
    case _ => []
  }

  /** The microphone history of a run from its start. */
  function MicLog(steps: seq<Step>): seq<MicEvent> {
    if steps == [] then []
    else
      var init := steps[..|steps| - 1];
      MicLog(init) + MicEvents(Run(START, init), steps[|steps| - 1])
  }

  /** Where the current window starts, and where the audio still in the buffer starts. */
  function LastOpen(log: seq<MicEvent>): (n: nat)
    ensures n <= |log|
  {
    if log == [] then 0 else if log[|log| - 1].Opened? then |log| else LastOpen(log[..|log| - 1])
  }

  function LastClear(log: seq<MicEvent>): (n: nat)
    ensures n <= |log|
  {
    if log == [] then 0 else if !log[|log| - 1].Chunk? then |log| else LastClear(log[..|log| - 1])
  }

  datatype Fate = ToAnswer | Interviewing | Elsewhere

  function FateOf(state: VoiceState): Fate {
    if state.Listening? then ToAnswer
    else if state.Speaking? || state.Thinking? then Interviewing
    else Elsewhere
  }

  /** The bytes of the chunks of one fate, in order. */
  function BytesOf(log: seq<MicEvent>, fate: Fate): Bytes {
    if log == [] then []
    else
      var last := log[|log| - 1];
      BytesOf(log[..|log| - 1], fate) + if last.Chunk? && FateOf(last.state) == fate then last.bytes else []
  }

  /** How many chunks of one fate there are, and how many bytes they hold. */
  function CountOf(log: seq<MicEvent>, fate: Fate): Count {
    if log == [] then Count(0, 0)
    else
      var last, before := log[|log| - 1], CountOf(log[..|log| - 1], fate);
      if last.Chunk? && FateOf(last.state) == fate then Tally(before, last.bytes) else before
  }

  /** All chunks, and all bytes. */
  function Everything(log: seq<MicEvent>): Count {
    if log == [] then Count(0, 0)
    else
      var last, before := log[|log| - 1], Everything(log[..|log| - 1]);
      if last.Chunk? then Tally(before, last.bytes) else before
  }

  /** The window fields of the engine tell exactly this history. */
  predicate Tells(mic: Window, log: seq<MicEvent>) {
    var window := log[LastOpen(log)..];
    && mic.buffer == BytesOf(log[LastClear(log)..], ToAnswer)
    && mic.accepted == CountOf(window, ToAnswer)
    && mic.discardedTts == CountOf(window, Interviewing)
    && mic.discardedOther == CountOf(window, Elsewhere)
  }

  function AfterEvent(mic: Window, event: MicEvent): Window {
    match event
    case Opened => EMPTY_WINDOW
    case Cleared => mic.(buffer := [])
    case Chunk(bytes, state) =>
      match FateOf(state)
      case ToAnswer => mic.(buffer := mic.buffer + bytes, accepted := Tally(mic.accepted, bytes))
      case Interviewing => mic.(discardedTts := Tally(mic.discardedTts, bytes))
      case Elsewhere => mic.(discardedOther := Tally(mic.discardedOther, bytes))
  }

  function AfterEvents(mic: Window, events: seq<MicEvent>): Window
    decreases |events|
  {
    if events == [] then mic else AfterEvents(AfterEvent(mic, events[0]), events[1..])
  }

  lemma BytesSnoc(log: seq<MicEvent>, event: MicEvent, fate: Fate)
    ensures BytesOf(log + [event], fate) ==
              BytesOf(log, fate) + if event.Chunk? && FateOf(event.state) == fate then event.bytes else []
    ensures CountOf(log + [event], fate) ==
              if event.Chunk? && FateOf(event.state) == fate then Tally(CountOf(log, fate), event.bytes) else CountOf(log, fate)
  {
    assert (log + [event])[..|log|] == log;
  }

  /** A chunk prolongs the log since any earlier point. */
  lemma ChunkProlongs(log: seq<MicEvent>, event: MicEvent, from: nat, fate: Fate)
    requires from <= |log| && event.Chunk?
    ensures (log + [event])[from..] == log[from..] + [event]
    ensures BytesOf((log + [event])[from..], fate)
         == BytesOf(log[from..], fate) + if FateOf(event.state) == fate then event.bytes else []
    ensures CountOf((log + [event])[from..], fate)
         == if FateOf(event.state) == fate then Tally(CountOf(log[from..], fate), event.bytes) else CountOf(log[from..], fate)
  {
    assert (log + [event])[from..] == log[from..] + [event];
    BytesSnoc(log[from..], event, fate);
  }

  lemma ClearProlongs(log: seq<MicEvent>, from: nat, fate: Fate)
    requires from <= |log|
    ensures BytesOf((log + [Cleared])[from..], fate) == BytesOf(log[from..], fate)
    ensures CountOf((log + [Cleared])[from..], fate) == CountOf(log[from..], fate)
  {
    assert (log + [Cleared])[from..] == log[from..] + [Cleared];
    BytesSnoc(log[from..], Cleared, fate);
  }

  lemma LastPlaces(log: seq<MicEvent>, event: MicEvent)
    ensures LastOpen(log + [event]) == if event.Opened? then |log| + 1 else LastOpen(log)
    ensures LastClear(log + [event]) == if !event.Chunk? then |log| + 1 else LastClear(log)
  {
    assert (log + [event])[..|log|] == log;
  }

  lemma EventTells(mic: Window, log: seq<MicEvent>, event: MicEvent)
    requires Tells(mic, log)
    ensures Tells(AfterEvent(mic, event), log + [event])
  {
    LastPlaces(log, event);
    match event
    case Chunk(_, _) =>
      ChunkProlongs(log, event, LastClear(log), ToAnswer);
      forall fate { ChunkProlongs(log, event, LastOpen(log), fate); }
    case Cleared =>
      forall fate { ClearProlongs(log, LastOpen(log), fate); }
    case Opened =>
  }

  lemma {:induction false} EventsTell(mic: Window, log: seq<MicEvent>, events: seq<MicEvent>)
    requires Tells(mic, log)
    ensures Tells(AfterEvents(mic, events), log + events)
    decreases |events|
  {
    if events == [] {
      assert log + events == log;
    } else {
      EventTells(mic, log, events[0]);
      EventsTell(AfterEvent(mic, events[0]), log + [events[0]], events[1..]);
      assert log + [events[0]] + events[1..] == log + events;
    }
  }

  lemma TwoEvents(mic: Window, first: MicEvent, second: MicEvent)
    ensures AfterEvents(mic, [first]) == AfterEvent(mic, first)
    ensures AfterEvents(mic, [first] + [second]) == AfterEvent(AfterEvent(mic, first), second)
  {
    var both, once := [first] + [second], AfterEvent(mic, first);
    assert both[0] == first && both[1..] == [second];
    assert AfterEvents(once, [second]) == AfterEvent(once, second);
  }

  lemma AudioWindow(e: Engine, chunk: Bytes, bargeIn: bool)
    ensures OnAudio(e, chunk, bargeIn).mic == AfterEvents(e.mic, MessageEvents(e, Mic(chunk), bargeIn))
  {
    TwoEvents(e.mic, Chunk(chunk, e.state), Cleared);
    assert [Chunk(chunk, e.state)] + [] == [Chunk(chunk, e.state)];
  }

  lemma MessageWindow(e: Engine, message: ClientMsg, bargeIn: bool)
    ensures OnMessage(e, message, bargeIn).mic == AfterEvents(e.mic, MessageEvents(e, message, bargeIn))
  {
    match message
    case Mic(chunk) => AudioWindow(e, chunk, bargeIn);
    case _ =>
  }

  lemma ProceedWindow(e: Engine)
    ensures Proceed(e).mic == if e.receiver.ClearWindow? then AfterEvent(e.mic, Cleared) else e.mic
  {}

  lemma TaskWindow(e: Engine, a: nat, reply: AnswerOutcome)
    ensures a in e.tasks.answers ==>
              AnswerStep(e, a, reply).mic == if e.tasks.answers[a].Claimed? then AfterEvent(e.mic, Cleared) else e.mic
  {}

  lemma SessionWindow(e: Engine, found: SessionOutcome)
    ensures SessionStep(e, found).mic == if e.session.Rejoining? then AfterEvent(e.mic, Opened) else e.mic
  {}

  lemma BackgroundWindow(e: Engine)
    ensures PlaybackTimeout(e).mic
            == if e.timer && e.pending.Some? && e.state.Speaking? && e.generation == e.pending.value then AfterEvent(e.mic, Opened) else e.mic
    ensures WatchdogEndsTurn(e).mic == e.mic && WatchdogCreates(e).mic == e.mic
  {}

  lemma PipeWindow(e: Engine, p: nat, segments: seq<string>, last: bool)
    requires p in e.tasks.pipes
    ensures PipeStep(e, p, segments, last).mic == e.mic && PipeFails(e, p).mic == e.mic
  {}

  lemma SenderWindow(e: Engine, g: nat)
    requires g in e.tasks.workers
    ensures SenderStep(e, g).mic == e.mic
  {}

  lemma EngineWindow(e: Engine, head: Option<ClientMsg>, l: Step)
    requires ServerStep(l)
    ensures EngineAfter(e, head, l).mic == AfterEvents(e.mic, EngineEvents(e, head, l))
  {
    match l
    case ServerReceives(bargeIn) =>
      if head.Some? { MessageWindow(e, head.value, bargeIn); }
    case ServerProceeds => ProceedWindow(e);
    case AnswerRuns(a, reply) => TaskWindow(e, a, reply);
    case SessionRuns(found) => SessionWindow(e, found);
    case TimerFires => BackgroundWindow(e);
    case WatchdogDecides => BackgroundWindow(e);
    case WatchdogCreatesTask => BackgroundWindow(e);
    case PipelineRuns(p, segments, last) => if p in e.tasks.pipes { PipeWindow(e, p, segments, last); }
    case PipelineRaises(p) => if p in e.tasks.pipes { PipeWindow(e, p, [], false); }
    case ProducerRuns(_, _) =>
    case SenderRuns(g) => if g in e.tasks.workers { SenderWindow(e, g); }
  }

  /** Each step changes the window fields as its microphone events say. */
  lemma StepWindow(s: System, l: Step)
    ensures Apply(s, l).engine.mic == AfterEvents(s.engine.mic, MicEvents(s, l))
  {
    if ServerStep(l) {
      EngineWindow(s.engine, Head(s.up), l);
    }
  }

  lemma {:induction false} WindowTellsHistory(steps: seq<Step>)
    ensures Tells(Run(START, steps).engine.mic, MicLog(steps))
  {
    if steps != [] {
      var init := steps[..|steps| - 1];
      WindowTellsHistory(init);
      StepWindow(Run(START, init), steps[|steps| - 1]);
      EventsTell(Run(START, init).engine.mic, MicLog(init), MicEvents(Run(START, init), steps[|steps| - 1]));
    }
  }

  /** Whenever an answer task takes audio to be transcribed, that audio is, in
      order, exactly the mic chunks handled in LISTENING since the buffer was
      last cleared. */
  lemma AnswerIsWhatWasSaid(steps: seq<Step>, a: nat, reply: AnswerOutcome)
    requires var e := Run(START, steps).engine;
             a in e.tasks.answers && e.tasks.answers[a].Claimed? && !e.receiver.Gone?
    ensures var next := Apply(Run(START, steps), AnswerRuns(a, reply)).engine;
            a in next.tasks.answers ==>
              next.tasks.answers[a] == Transcribing(BytesOf(MicLog(steps)[LastClear(MicLog(steps))..], ToAnswer))
  {
    WindowTellsHistory(steps);
    ClaimTakesBuffer(Run(START, steps), a, reply);
  }

  lemma ClaimTakesBuffer(s: System, a: nat, reply: AnswerOutcome)
    requires a in s.engine.tasks.answers && s.engine.tasks.answers[a].Claimed? && !s.engine.receiver.Gone?
    ensures var next := Apply(s, AnswerRuns(a, reply)).engine;
            a in next.tasks.answers ==> next.tasks.answers[a] == Transcribing(s.engine.mic.buffer)
  {}

  lemma {:induction false} FatesPartition(log: seq<MicEvent>)
    ensures var a, b, c := CountOf(log, ToAnswer), CountOf(log, Interviewing), CountOf(log, Elsewhere);
            Everything(log) == Count(a.frames + b.frames + c.frames, a.bytes + b.bytes + c.bytes)
  {
    if log != [] {
      FatesPartition(log[..|log| - 1]);
    }
  }

  lemma {:induction false} CountedBytes(log: seq<MicEvent>, fate: Fate)
    ensures CountOf(log, fate).bytes == |BytesOf(log, fate)|
  {
    if log != [] {
      CountedBytes(log[..|log| - 1], fate);
    }
  }

  /** Every chunk received since the window opened, and every byte of it, is in
      exactly one counter; the accepted ones are those of LISTENING. */
  lemma EveryByteCounted(steps: seq<Step>)
    ensures var mic, window := Run(START, steps).engine.mic, MicLog(steps)[LastOpen(MicLog(steps))..];
            && Everything(window) == Count(mic.accepted.frames + mic.discardedTts.frames + mic.discardedOther.frames,
                                           mic.accepted.bytes + mic.discardedTts.bytes + mic.discardedOther.bytes)
            && mic.accepted.bytes == |BytesOf(window, ToAnswer)|
  {
    WindowTellsHistory(steps);
    FatesPartition(MicLog(steps)[LastOpen(MicLog(steps))..]);
    CountedBytes(MicLog(steps)[LastOpen(MicLog(steps))..], ToAnswer);
  }
}
