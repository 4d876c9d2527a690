/** The whole voice protocol: engine, client, and the two FIFO channels between
    them, as a deterministic transition function over labelled steps. A step that
    is not enabled changes nothing, so a run is any sequence of labels. */
module VoiceProtocol {
  import opened Wrappers
  import opened VoiceTypes
  import opened SpeechWorker
  import opened EngineSteps
  import opened ClientSteps

  datatype System = System(
    engine: Engine,
    client: Client,
    got: nat,               // messages of engine.wire the client has received
    up: seq<ClientMsg>,     // client to server, oldest first
    finished: set<nat>,     // frames (by place on the wire) that played to their end
    accepted: map<nat, int>)  // frames the client scheduled, with its generation at that moment

  const START := System(INITIAL, FRESH, 0, [], {}, map[])

  datatype Step =
    | ServerReceives(bargeIn: bool)
    | ServerProceeds
    | SessionRuns(found: SessionOutcome)
    | TimerFires
    | WatchdogDecides
    | WatchdogCreatesTask
    | PipelineRuns(pipe: nat, segments: seq<string>, last: bool)
    | PipelineRaises(pipe: nat)
    | ProducerRuns(generation: nat, outcome: seq<Bytes>)
    | SenderRuns(generation: nat)
    | AnswerRuns(answer: nat, reply: AnswerOutcome)
    | ClientReceives
    | SourceEnds(id: nat)
    | UserInterrupts
    | UserSends(message: ClientMsg)
    | UserSpeaks(chunk: Bytes)
    | UserLeaves(cancel: bool)

  predicate ServerStep(l: Step) {
    !(l.ClientReceives? || l.SourceEnds? || l.UserInterrupts? || l.UserSends? || l.UserSpeaks? || l.UserLeaves?)
  }

  /** What the engine does in a server step; `head` is the oldest message from the client, if any. */
  function EngineAfter(e: Engine, head: Option<ClientMsg>, l: Step): Engine
    requires ServerStep(l)
  {
    if e.receiver.Gone? then e else
    match l
    case ServerReceives(bargeIn) =>
      if e.receiver.Ready? && head.Some? then OnMessage(e, head.value, bargeIn) else e
    case ServerProceeds => Proceed(e)
    case SessionRuns(found) => SessionStep(e, found)
    case TimerFires => PlaybackTimeout(e)
    case WatchdogDecides => WatchdogEndsTurn(e)
    case WatchdogCreatesTask => WatchdogCreates(e)
    case PipelineRuns(p, segments, last) => if p in e.tasks.pipes then PipeStep(e, p, segments, last) else e
    case PipelineRaises(p) => if p in e.tasks.pipes then PipeFails(e, p) else e
    case ProducerRuns(g, outcome) =>
      if g in e.tasks.workers && Alive(e.tasks.workers[g]) then ProducerStep(e, g, outcome) else e
    case SenderRuns(g) => if g in e.tasks.workers && Alive(e.tasks.workers[g]) then SenderStep(e, g) else e
    case AnswerRuns(a, reply) => if a in e.tasks.answers then AnswerStep(e, a, reply) else e
  }

  function Head(up: seq<ClientMsg>): Option<ClientMsg> {
    if up == [] then None else Some(up[0])
  }

  predicate Consumes(s: System, l: Step) {
    l.ServerReceives? && s.engine.receiver.Ready? && s.up != []
  }

  function ServerAfter(s: System, l: Step): System
    requires ServerStep(l)
  {
    s.(engine := EngineAfter(s.engine, Head(s.up), l), up := if Consumes(s, l) then s.up[1..] else s.up)
  }

  function ClientReceivesNext(s: System): System {
    if !s.client.open || s.got >= |s.engine.wire| then s
    else
      var (client, sends) := Receive(s.client, s.got, s.engine.wire[s.got]);
      s.(client := client, got := s.got + 1, up := s.up + sends,
         accepted := if s.got in client.active then s.accepted[s.got := s.client.currentGeneration] else s.accepted)
  }

  /** The `ended` event of a source; flushed sources fire it too. */
  function SourceEndsAt(s: System, id: nat): System {
    var (client, sends) := SourceEnded(s.client, id);
    s.(client := client, up := s.up + sends,
       finished := if id in s.client.active then s.finished + {id} else s.finished)
  }

  function Apply(s: System, l: Step): System {
    match l
    case ClientReceives => ClientReceivesNext(s)
    case SourceEnds(id) => SourceEndsAt(s, id)
    case UserInterrupts =>
      var (client, sends) := UserInterrupt(s.client);
      s.(client := client, up := s.up + sends)
    case UserSends(message) => if s.client.open then s.(up := s.up + [message]) else s
    case UserSpeaks(chunk) => s.(up := s.up + SendMic(s.client, chunk))
    case UserLeaves(cancel) =>
      var (client, sends) := Leave(s.client, cancel);
      s.(client := client, up := s.up + sends)
    case _ => ServerAfter(s, l)
  }

  function Run(s: System, steps: seq<Step>): System {
    if steps == [] then s else Apply(Run(s, steps[..|steps| - 1]), steps[|steps| - 1])
  }

  // -- hypotheses ----------------------------------------------------------------

  /** A message that the receive loop may handle in the engine state `e`:
      - no `start_turn`, which `VoiceClient` never sends;
      - no pause while an answer is being processed;
      - no interrupt while the session start task is still running;
      - no interrupt, and no second end of turn, while the silence watchdog is
        suspended between sending `turn_ended` and creating the answer task. */
  predicate Admissible(e: Engine, message: ClientMsg) {
    && !message.StartTurn?
    && (message.Pause? ==> !e.state.Processing?)
    && (message.Interrupt? ==> e.session.SessionDone? && e.finalizing == 0)
    && (message.EndTurn? && EndsTurn(e) ==> e.finalizing == 0)
  }

  /** The steps the safety theorem covers. Besides `Admissible`: the question
      pipeline does not raise, and a second watchdog does not end the turn that
      the first is ending. */
  predicate Disciplined(s: System, l: Step) {
    && (Consumes(s, l) ==> Admissible(s.engine, s.up[0]))
    && !l.PipelineRaises?
    && (l.WatchdogDecides? && s.engine.watchdog && EndsTurn(s.engine) ==> s.engine.finalizing == 0)
  }

  ghost predicate DisciplinedRun(s: System, steps: seq<Step>) {
    forall i {:trigger steps[i]} :: 0 <= i < |steps| ==> Disciplined(Run(s, steps[..i]), steps[i])
  }

  lemma DisciplinedPrefix(s: System, steps: seq<Step>)
    requires DisciplinedRun(s, steps) && steps != []
    ensures var init := steps[..|steps| - 1];
            DisciplinedRun(s, init) && Disciplined(Run(s, init), steps[|steps| - 1])
            && Run(s, steps) == Apply(Run(s, init), steps[|steps| - 1])
  {
    var init, n := steps[..|steps| - 1], |steps| - 1;
    assert Disciplined(Run(s, steps[..n]), steps[n]);
    forall i | 0 <= i < n
      ensures Disciplined(Run(s, init[..i]), init[i])
    {
      assert init[..i] == steps[..i] && init[i] == steps[i];
      assert Disciplined(Run(s, steps[..i]), steps[i]);
    }
  }
}
