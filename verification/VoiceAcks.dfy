/** What the client owes the engine, over everything that can happen to it: one
    acknowledgement for each announced question, and the microphone while it is asked to. */
module VoiceAcks {
  import opened Wrappers
  import opened VoiceTypes
  import opened ClientSteps

  /** What happens to the client: a server message arrives, a source ends, or the
      candidate interrupts or leaves. */
  datatype Event = Got(message: ServerMsg) | Ended(id: nat) | Interrupts | Leaves(cancel: bool)

  function Received(events: seq<Event>): nat {
    if events == [] then 0 else Received(events[..|events| - 1]) + if events[|events| - 1].Got? then 1 else 0
  }

  function React(c: Client, n: nat, event: Event): (Client, seq<ClientMsg>) {
    match event
    case Got(message) => Receive(c, n, message)
    case Ended(id) => SourceEnded(c, id)
    case Interrupts => UserInterrupt(c)
    case Leaves(cancel) => Leave(c, cancel)
  }

  function After(events: seq<Event>): Client {
    if events == [] then FRESH
    else React(After(events[..|events| - 1]), Received(events[..|events| - 1]), events[|events| - 1]).0
  }

  /** What the client sends at the last event. */
  function SentLast(events: seq<Event>): seq<ClientMsg> {
    if events == [] then []
    else React(After(events[..|events| - 1]), Received(events[..|events| - 1]), events[|events| - 1]).1
  }

  // -- the history ----------------------------------------------------------------------

  predicate Revokes(event: Event) {
    event.Interrupts? || event.Leaves? || (event.Got? && event.message.State? && Silencing(event.message.state))
  }

  predicate Announces(event: Event) {
    event.Got? && event.message.TtsStart?
  }

  /** The question last announced, unless the client was silenced since. */
  function Announced(events: seq<Event>): Option<nat> {
    if events == [] then None
    else
      var last := events[|events| - 1];
      if Announces(last) then Some(last.message.generation)
      else if Revokes(last) then None
      else Announced(events[..|events| - 1])
  }

  /** The acknowledgements sent since the last announcement or silencing. */
  function Acked(events: seq<Event>): seq<ClientMsg> {
    if events == [] then []
    else
      var last := events[|events| - 1];
      if Announces(last) || Revokes(last) then [] else Acked(events[..|events| - 1]) + SentLast(events)
  }

  /** The state the server announced last, or the one the candidate left in. */
  function Told(events: seq<Event>): VoiceState {
    if events == [] then Idle
    else
      var last := events[|events| - 1];
      if last.Got? && last.message.State? then last.message.state
      else if last.Leaves? then if last.cancel then Cancelled else Completed
      else Told(events[..|events| - 1])
  }

  predicate Left(events: seq<Event>) {
    exists i :: 0 <= i < |events| && events[i].Leaves?
  }

  /** What the client's fields say about the history. */
  predicate Tells(c: Client, open: bool, announced: Option<nat>, acked: seq<ClientMsg>, state: VoiceState) {
    && c.open == open && c.state == state && c.queue == []
    && (match announced
        case None => c.currentGeneration == -1 && c.pendingPlayback == -1 && acked == []
        case Some(g) =>
          && c.currentGeneration == g
          && (if c.pendingPlayback == -1 then acked == [PlaybackComplete(g)] else c.pendingPlayback == g && acked == []))
  }

  lemma MessageTells(c: Client, n: nat, message: ServerMsg, open: bool, announced: Option<nat>,
                     acked: seq<ClientMsg>, state: VoiceState)
    requires Tells(c, open, announced, acked, state)
    requires !message.TtsStart? && !(message.State? && Silencing(message.state))
    ensures var (after, sends) := Receive(c, n, message);
            Tells(after, open, announced, acked + sends, if message.State? then message.state else state)
  {}

  lemma EventTells(c: Client, n: nat, event: Event, open: bool, announced: Option<nat>, acked: seq<ClientMsg>,
                   state: VoiceState)
    requires Tells(c, open, announced, acked, state) && !event.Leaves?
    ensures var (after, sends) := React(c, n, event);
            Tells(after, open,
                  if Announces(event) then Some(event.message.generation) else if Revokes(event) then None else announced,
                  if Announces(event) || Revokes(event) then [] else acked + sends,
                  if event.Got? && event.message.State? then event.message.state else state)
  {
    if event.Got? && !Announces(event) && !Revokes(event) {
      MessageTells(c, n, event.message, open, announced, acked, state);
    }
  }

  lemma LeftNow(events: seq<Event>)
    requires events != []
    ensures Left(events) <==> Left(events[..|events| - 1]) || events[|events| - 1].Leaves?
  {
    var n := |events| - 1;
    if Left(events[..n]) {
      var i :| 0 <= i < n && events[..n][i].Leaves?;
      assert events[i].Leaves?;
    }
  }

  lemma {:induction false} HistoryTells(events: seq<Event>)
    ensures Tells(After(events), !Left(events), Announced(events), Acked(events), Told(events))
  {
    if events != [] {
      var n := |events| - 1;
      var before, last := events[..n], events[n];
      HistoryTells(before);
      LeftNow(events);
      if !last.Leaves? {
        EventTells(After(before), Received(before), last, !Left(before), Announced(before), Acked(before), Told(before));
      }
    }
  }

  // -- what it owes ---------------------------------------------------------------------

  /** The end of a question was announced, or a source ended, and nothing is left to play. */
  predicate Silent(events: seq<Event>) {
    && events != [] && After(events).active == {}
    && (events[|events| - 1].Ended? || (events[|events| - 1].Got? && events[|events| - 1].message.TtsStop?))
  }

  /** Over every history, a question that was announced and not silenced is acknowledged at
      most once, by its own generation, and it has been once the client fell silent; no
      acknowledgement is sent for any other. */
  lemma AcksExactlyOnce(events: seq<Event>)
    ensures match Announced(events)
            case None => Acked(events) == []
            case Some(g) => Acked(events) == [] || Acked(events) == [PlaybackComplete(g)]
    ensures (Silent(events) && !Left(events) && Announced(events).Some?) ==>
              Acked(events) == [PlaybackComplete(Announced(events).value)]
  {
    HistoryTells(events);
    if Silent(events) && !Left(events) && Announced(events).Some? {
      HistoryTells(events[..|events| - 1]);
      LeftNow(events);
    }
  }

  /** Over every history, a microphone chunk goes out exactly while the server last said
      listening or speaking, and the candidate has not left. */
  lemma MicGoesOutExactlyWhen(events: seq<Event>, chunk: Bytes)
    ensures SendMic(After(events), chunk)
         == if !Left(events) && (Told(events).Listening? || Told(events).Speaking?) then [Mic(chunk)] else []
  {
    HistoryTells(events);
  }

  /** Over every history, an event starts playing something only as audio that arrives in
      speaking under an announced question, and silences everything exactly as a silencing
      state, an interrupt or a parting; an ending source only ends itself. */
  lemma PlaysExactlyWhen(events: seq<Event>)
    requires events != []
    ensures var before, last := events[..|events| - 1], events[|events| - 1];
            After(events).active
            == if Revokes(last) then {}
               else if last.Ended? then After(before).active - {last.id}
               else if last.Got? && last.message.Audio? && Announced(before).Some? && Told(before).Speaking? then
                 After(before).active + {Received(before)}
               else After(before).active
  {
    var before, last := events[..|events| - 1], events[|events| - 1];
    HistoryTells(before);
    if last.Got? && last.message.Audio? {
      AudioPlays(After(before), Received(before), last.message);
    }
  }

  lemma AudioPlays(c: Client, n: nat, message: ServerMsg)
    requires message.Audio? && c.queue == []
    ensures Receive(c, n, message).0.active
         == if c.state.Speaking? && c.currentGeneration >= 0 then c.active + {n} else c.active
  {
    assert (set id | id in [n]) == {n};
  }
}
