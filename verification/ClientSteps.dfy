/** The browser side of the voice protocol as functions on a value. A frame is
    known to the client only by its place in the stream of received messages:
    the generation that synthesised it is not on the wire. The audio context is
    taken to be running and the socket open while `open`. */
module ClientSteps {
  import opened VoiceTypes

  datatype Client = Client(
    open: bool,
    state: VoiceState,
    currentGeneration: int,
    pendingPlayback: int,
    queue: seq<nat>,     // received, not scheduled
    active: set<nat>)    // scheduled, not ended

  const FRESH := Client(true, Idle, -1, -1, [], {})

  function FlushPlayback(c: Client): Client {
    c.(queue := [], active := {})
  }

  function Silence(c: Client): Client {
    FlushPlayback(c.(currentGeneration := -1, pendingPlayback := -1))
  }

  predicate Notifies(c: Client) {
    c.open && c.pendingPlayback >= 0 && c.pendingPlayback == c.currentGeneration
  }

  /** `notifyPlaybackComplete`: the new client and what it sends. */
  function NotifyPlaybackComplete(c: Client): (Client, seq<ClientMsg>) {
    if Notifies(c) then (c.(pendingPlayback := -1), [PlaybackComplete(c.pendingPlayback)]) else (c, [])
  }

  function ScheduleQueued(c: Client): Client {
    if c.state != Speaking || c.currentGeneration < 0 then c.(queue := [])
    else c.(active := c.active + (set id | id in c.queue), queue := [])
  }

  function EnqueuePlayback(c: Client, id: nat): Client {
    if c.state != Speaking || c.currentGeneration < 0 then c
    else ScheduleQueued(c.(queue := c.queue + [id]))
  }

  /** `handleMessage`, the message being number `id` of the stream. */
  function Receive(c: Client, id: nat, message: ServerMsg): (Client, seq<ClientMsg>) {
    match message
    case State(state) =>
      var moved := c.(state := state);
      (if Silencing(state) then Silence(moved) else moved, [])
    case TtsStart(generation) => (c.(currentGeneration := generation, pendingPlayback := generation), [])
    case TtsStop(_) => if c.queue == [] && c.active == {} then NotifyPlaybackComplete(c) else (c, [])
    case Audio(_) => (EnqueuePlayback(c, id), [])
    case Notice => (c, [])
  }

  /** A scheduled source ended. */
  function SourceEnded(c: Client, id: nat): (Client, seq<ClientMsg>) {
    var rest := c.(active := c.active - {id});
    if rest.active == {} && rest.queue == [] then NotifyPlaybackComplete(rest) else (rest, [])
  }

  /** `interrupt()`: barge-in from the user interface. */
  function UserInterrupt(c: Client): (Client, seq<ClientMsg>) {
    (Silence(c), if c.open then [ClientMsg.Interrupt] else [])
  }

  /** `stop()` and `cancel()`: send the control, then tear everything down. */
  function Leave(c: Client, cancel: bool): (Client, seq<ClientMsg>) {
    (Silence(c).(open := false, state := if cancel then Cancelled else Completed),
     if c.open then [if cancel then Cancel else Stop] else [])
  }

  /** The capture worklet forwards a mic frame only while listening or speaking. */
  function SendMic(c: Client, chunk: Bytes): seq<ClientMsg> {
    if c.open && (c.state.Listening? || c.state.Speaking?) then [Mic(chunk)] else []
  }
}
