/** A monitor that reads the messages sent by the server, in order, and turns
    `ok` off when a frame or a tts_stop does not belong to the generation
    announced last, or when a generation is announced out of order. */
module VoiceMonitor {
  import opened VoiceTypes

  datatype Monitor = Monitor(
    state: VoiceState,   // last broadcast state
    live: int,           // announced generation, -1 when silenced
    stopped: bool,       // its tts_stop has been sent
    top: nat,            // largest generation announced so far
    ok: bool)

  const QUIET := Monitor(Idle, -1, false, 0, true)

  function Observe(m: Monitor, message: ServerMsg): Monitor {
    match message
    case State(state) => m.(state := state, live := if Silencing(state) then -1 else m.live)
    case TtsStart(g) => m.(live := g, stopped := false, top := g, ok := m.ok && g > m.top)
    case TtsStop(g) => m.(stopped := true, ok := m.ok && g == m.live && !m.stopped)
    case Audio(frame) => m.(ok := m.ok && m.live == frame.origin && !m.stopped && m.state.Speaking?)
    case Notice => m
  }

  function Watch(wire: seq<ServerMsg>): Monitor {
    if wire == [] then QUIET else Observe(Watch(wire[..|wire| - 1]), wire[|wire| - 1])
  }

  lemma WatchSnoc(wire: seq<ServerMsg>, message: ServerMsg)
    ensures Watch(wire + [message]) == Observe(Watch(wire), message)
  {
    assert (wire + [message])[..|wire|] == wire;
  }

  lemma {:induction false} PrefixOk(wire: seq<ServerMsg>, n: nat)
    requires n <= |wire| && Watch(wire).ok
    ensures Watch(wire[..n]).ok
    decreases |wire| - n
  {
    if n < |wire| {
      PrefixOk(wire, n + 1);
      assert wire[..n + 1][..n] == wire[..n];
    } else {
      assert wire[..n] == wire;
    }
  }

  /** A message that ends the right to send frames of generation `g`. */
  predicate Ends(message: ServerMsg, g: nat) {
    match message
    case State(state) => Silencing(state)
    case TtsStart(_) => true
    case TtsStop(h) => h == g
    case _ => false
  }

  /** Position `start` announces `g` and nothing before `i` revokes it. */
  predicate HoldsSince(wire: seq<ServerMsg>, start: nat, i: nat, g: nat) {
    && start < i <= |wire|
    && wire[start] == TtsStart(g)
    && forall k :: start < k < i ==> !Ends(wire[k], g)
  }

  lemma {:induction false} LiveMeaning(wire: seq<ServerMsg>)
    ensures Watch(wire).live >= -1
    ensures Watch(wire).live >= 0 && !Watch(wire).stopped ==>
              exists start :: HoldsSince(wire, start, |wire|, Watch(wire).live)
  {
    if wire != [] {
      var init, last := wire[..|wire| - 1], wire[|wire| - 1];
      LiveMeaning(init);
      var m, n := Watch(init), Watch(wire);
      if n.live >= 0 && !n.stopped {
        if last.TtsStart? {
          assert HoldsSince(wire, |wire| - 1, |wire|, n.live);
        } else {
          var start: nat :| HoldsSince(init, start, |init|, m.live);
          assert forall k :: start < k < |init| ==> wire[k] == init[k];
          assert HoldsSince(wire, start, |wire|, n.live);
        }
      }
    }
  }

  /** The last state broadcast in `wire`. */
  function LastState(wire: seq<ServerMsg>): VoiceState {
    if wire == [] then Idle
    else if wire[|wire| - 1].State? then wire[|wire| - 1].state
    else LastState(wire[..|wire| - 1])
  }

  lemma {:induction false} StateMeaning(wire: seq<ServerMsg>)
    ensures Watch(wire).state == LastState(wire)
  {
    if wire != [] {
      StateMeaning(wire[..|wire| - 1]);
    }
  }

  /** What a clean monitor says of every frame: its own generation was announced
      before it, and since then there was no other announcement, no tts_stop of
      it, and no broadcast of interrupted, paused, completed or cancelled; and
      the state broadcast last is SPEAKING. */
  lemma FramesBelong(wire: seq<ServerMsg>, i: nat)
    requires Watch(wire).ok && i < |wire| && wire[i].Audio?
    ensures exists start :: HoldsSince(wire, start, i, wire[i].frame.origin)
    ensures LastState(wire[..i]).Speaking?
  {
    PrefixOk(wire, i + 1);
    StateMeaning(wire[..i]);
    assert wire[..i + 1][..i] == wire[..i];
    LiveMeaning(wire[..i]);
    var g := wire[i].frame.origin;
    var start: nat :| HoldsSince(wire[..i], start, i, g);
    assert forall k :: start <= k < i ==> wire[..i][k] == wire[k];
    assert HoldsSince(wire, start, i, g);
  }

  lemma {:induction false} StartsBelowTop(wire: seq<ServerMsg>, i: nat)
    requires Watch(wire).ok && i < |wire| && wire[i].TtsStart?
    ensures wire[i].generation <= Watch(wire).top
  {
    PrefixOk(wire, |wire| - 1);
    if i < |wire| - 1 {
      StartsBelowTop(wire[..|wire| - 1], i);
    }
  }

  /** Announced generations strictly increase. */
  lemma StartsIncrease(wire: seq<ServerMsg>, i: nat, j: nat)
    requires Watch(wire).ok && i < j < |wire| && wire[i].TtsStart? && wire[j].TtsStart?
    ensures wire[i].generation < wire[j].generation
  {
    PrefixOk(wire, j + 1);
    assert wire[..j + 1][..j] == wire[..j];
    StartsBelowTop(wire[..j], i);
  }

  // -- a generation that is over stays over --------------------------------------------

  /** Nothing can be sent for `g` any more. */
  predicate Sealed(m: Monitor, g: nat) {
    g <= m.top && (m.live == g ==> m.stopped)
  }

  lemma {:induction false} SealedStays(wire: seq<ServerMsg>, n: nat, g: nat)
    requires n <= |wire| && Watch(wire).ok && Sealed(Watch(wire[..n]), g)
    ensures Sealed(Watch(wire), g)
    ensures forall i :: n <= i < |wire| && wire[i].Audio? ==> wire[i].frame.origin != g
  {
    if n < |wire| {
      var init := wire[..|wire| - 1];
      PrefixOk(wire, |wire| - 1);
      assert init[..n] == wire[..n];
      SealedStays(init, n, g);
      assert forall i :: 0 <= i < |init| ==> init[i] == wire[i];
    } else {
      assert wire[..n] == wire;
    }
  }

  lemma {:induction false} FramesBelowTop(wire: seq<ServerMsg>, i: nat)
    requires Watch(wire).ok && i < |wire| && wire[i].Audio?
    ensures wire[i].frame.origin <= Watch(wire).top && Watch(wire).live <= Watch(wire).top
  {
    PrefixOk(wire, |wire| - 1);
    LiveBelowTop(wire);
    if i < |wire| - 1 {
      FramesBelowTop(wire[..|wire| - 1], i);
    }
  }

  lemma {:induction false} LiveBelowTop(wire: seq<ServerMsg>)
    ensures Watch(wire).live <= Watch(wire).top
  {
    if wire != [] {
      LiveBelowTop(wire[..|wire| - 1]);
    }
  }
}
