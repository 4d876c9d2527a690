/** The speech worker of one question (`_speech_worker`): a producer that turns
    text segments into audio frames and a sender that relays the frames, joined
    by a bounded queue. Each step is the code between two awaits. */
module SpeechWorker {
  import opened Wrappers
  import opened VoiceTypes

  const FRAME_QUEUE_SIZE := 64

  /** `Synthesising(rest)`: the current segment will still yield `rest`, then
      end or fail. `Putting(frame, rest)`: the generation check has passed and
      the producer waits for room in the queue. */
  datatype Producer =
    | Waiting
    | Synthesising(rest: seq<Bytes>)
    | Putting(frame: Bytes, rest: seq<Bytes>)
    | Closing
    | ProducerDone(aborted: bool)

  datatype Sender =
    | Receiving
    | Holding(pcm: Bytes)
    | SenderDone(aborted: bool)

  datatype Worker = Worker(
    given: seq<string>,           // segments put by the question pipeline
    closed: bool,                 // the end-of-stream marker was put
    taken: nat,                   // segments the producer has taken
    outcomes: seq<seq<Bytes>>,    // frames yielded by each taken segment, up to its failure
    producer: Producer,
    frames: seq<Option<Bytes>>,   // the bounded queue; None is the end marker
    sender: Sender,
    announced: bool,              // the sender has announced SPEAKING
    sent: seq<Bytes>,             // frames handed to the socket
    killed: bool)                 // the task was cancelled

  const NEW_WORKER := Worker([], false, 0, [], Waiting, [], Receiving, false, [], false)

  predicate Finished(w: Worker) {
    w.producer.ProducerDone? && w.sender.SenderDone?
  }

  predicate Alive(w: Worker) {
    !w.killed && !Finished(w)
  }

  function Put(w: Worker, segments: seq<string>): Worker {
    w.(given := w.given + segments)
  }

  function Close(w: Worker): Worker {
    w.(closed := true)
  }

  /** One producer step. `current` is the check `_generation == generation and
      _running`; `outcome` is what the TTS provider will yield for a segment
      taken by this step. A step that is not enabled changes nothing. */
  function Produce(w: Worker, current: bool, outcome: seq<Bytes>): Worker {
    match w.producer
    case Waiting =>
      if w.taken < |w.given| then
        if current then
          w.(taken := w.taken + 1, outcomes := w.outcomes + [outcome], producer := Synthesising(outcome))
        else
          w.(taken := w.taken + 1, outcomes := w.outcomes + [[]], producer := ProducerDone(true))
      else if w.closed then w.(producer := Closing)
      else w
    case Synthesising(rest) =>
      if rest == [] then w.(producer := Waiting)
      else if current then w.(producer := Putting(rest[0], rest[1..]))
      else w.(producer := ProducerDone(true))
    case Putting(frame, rest) =>
      if |w.frames| < FRAME_QUEUE_SIZE then
        w.(frames := w.frames + [Some(frame)], producer := Synthesising(rest))
      else w
    case Closing =>
      if |w.frames| < FRAME_QUEUE_SIZE then
        w.(frames := w.frames + [None], producer := ProducerDone(false))
      else w
    case ProducerDone(_) => w
  }

  /** The sender takes the next queue entry and checks the generation. */
  function Take(w: Worker, current: bool): Worker
    requires w.sender.Receiving? && w.frames != []
  {
    match w.frames[0]
    case None => w.(frames := w.frames[1..], sender := SenderDone(false))
    case Some(pcm) =>
      w.(frames := w.frames[1..], sender := if current then Holding(pcm) else SenderDone(true))
  }

  /** The sender hands the frame it holds to the socket. */
  function Relay(w: Worker): Worker
    requires w.sender.Holding?
  {
    w.(sent := w.sent + [w.sender.pcm], sender := Receiving)
  }

  // -- audio order -----------------------------------------------------------

  function Flatten(outcomes: seq<seq<Bytes>>): seq<Bytes> {
    if outcomes == [] then [] else Flatten(outcomes[..|outcomes| - 1]) + outcomes[|outcomes| - 1]
  }

  function Somes(q: seq<Option<Bytes>>): seq<Bytes> {
    if q == [] then []
    else Somes(q[..|q| - 1]) + (match q[|q| - 1] case None => [] case Some(pcm) => [pcm])
  }

  function InHand(p: Producer): seq<Bytes> {
    match p
    case Synthesising(rest) => rest
    case Putting(frame, rest) => [frame] + rest
    case _ => []
  }

  function Held(s: Sender): seq<Bytes> {
    if s.Holding? then [s.pcm] else []
  }

  predicate NoMarker(q: seq<Option<Bytes>>) {
    forall i :: 0 <= i < |q| ==> q[i].Some?
  }

  /** The end marker is the last entry ever queued, and only a producer that ran
      to the end queues it. */
  predicate MarkerLast(w: Worker) {
    if w.producer == ProducerDone(false) then
      if w.sender == SenderDone(false) then w.frames == []
      else w.sender.SenderDone? || (w.frames != [] && w.frames[|w.frames| - 1].None? && NoMarker(w.frames[..|w.frames| - 1]))
    else NoMarker(w.frames) && w.sender != SenderDone(false)
  }

  /** What every step keeps: the frames of the taken segments, in order, are
      those sent, then the one held, then the queued ones, then those in hand. */
  ghost predicate Ordered(w: Worker) {
    && |w.frames| <= FRAME_QUEUE_SIZE
    && |w.outcomes| == w.taken <= |w.given|
    && (w.producer.Closing? || w.producer == ProducerDone(false) ==> w.closed && w.taken == |w.given|)
    && MarkerLast(w)
    && w.sent <= Flatten(w.outcomes)
    && (w.sender != SenderDone(true) ==> w.sent + Held(w.sender) + Somes(w.frames) <= Flatten(w.outcomes))
    && (w.sender != SenderDone(true) && w.producer != ProducerDone(true) ==>
          w.sent + Held(w.sender) + Somes(w.frames) + InHand(w.producer) == Flatten(w.outcomes))
  }

  lemma FlattenSnoc(outcomes: seq<seq<Bytes>>, last: seq<Bytes>)
    ensures Flatten(outcomes + [last]) == Flatten(outcomes) + last
  {
    assert (outcomes + [last])[..|outcomes|] == outcomes;
  }

  lemma SomesSnoc(q: seq<Option<Bytes>>, last: Option<Bytes>)
    ensures Somes(q + [last]) == Somes(q) + (match last case None => [] case Some(pcm) => [pcm])
  {
    assert (q + [last])[..|q|] == q;
  }

  lemma {:induction false} SomesCons(q: seq<Option<Bytes>>)
    requires q != []
    ensures Somes(q) == (match q[0] case None => [] case Some(pcm) => [pcm]) + Somes(q[1..])
  {
    if |q| > 1 {
      var init := q[..|q| - 1];
      SomesCons(init);
      assert init[1..] == q[1..][..|q| - 2];
    }
  }

  lemma PutKeepsOrder(w: Worker, segments: seq<string>)
    requires Ordered(w) && !w.closed
    ensures Ordered(Put(w, segments))
  {}

  lemma CloseKeepsOrder(w: Worker)
    requires Ordered(w)
    ensures Ordered(Close(w))
  {}

  lemma EnqueueKeepsOrder(w: Worker)
    requires Ordered(w) && (w.producer.Putting? || w.producer.Closing?)
    ensures Ordered(Produce(w, true, []))
  {
    if |w.frames| < FRAME_QUEUE_SIZE {
      if w.producer.Putting? {
        SomesSnoc(w.frames, Some(w.producer.frame));
      } else {
        SomesSnoc(w.frames, None);
        assert (w.frames + [None])[..|w.frames|] == w.frames;
      }
    }
  }

  lemma SegmentKeepsOrder(w: Worker, current: bool, outcome: seq<Bytes>)
    requires Ordered(w) && w.producer.Waiting?
    ensures Ordered(Produce(w, current, outcome))
  {
    FlattenSnoc(w.outcomes, outcome);
    FlattenSnoc(w.outcomes, []);
  }

  lemma ProduceKeepsOrder(w: Worker, current: bool, outcome: seq<Bytes>)
    requires Ordered(w)
    ensures Ordered(Produce(w, current, outcome))
  {
    match w.producer
    case Waiting => SegmentKeepsOrder(w, current, outcome);
    case Putting(_, _) => EnqueueKeepsOrder(w);
    case Closing => EnqueueKeepsOrder(w);
    case Synthesising(rest) => assert rest != [] ==> [rest[0]] + rest[1..] == rest;
    case ProducerDone(_) =>
  }

  lemma TakeKeepsOrder(w: Worker, current: bool)
    requires Ordered(w) && w.sender.Receiving? && w.frames != []
    ensures Ordered(Take(w, current))
  {
    SomesCons(w.frames);
    var rest := w.frames[1..];
    if rest != [] {
      assert rest[|rest| - 1] == w.frames[|w.frames| - 1];
      assert rest[..|rest| - 1] == w.frames[..|w.frames| - 1][1..];
    }
  }

  lemma RelayKeepsOrder(w: Worker)
    requires Ordered(w) && w.sender.Holding?
    ensures Ordered(Relay(w))
  {}

  /** Neither coroutine gave up on a generation check, and nobody cancelled them. */
  predicate Unbroken(w: Worker) {
    !w.killed && w.producer != ProducerDone(true) && w.sender != SenderDone(true)
  }

  lemma ProduceIsLocal(w: Worker, current: bool, outcome: seq<Bytes>)
    ensures var next := Produce(w, current, outcome);
            && next.sent == w.sent && next.closed == w.closed && next.sender == w.sender
            && next.announced == w.announced && next.killed == w.killed
            && (current && Unbroken(w) ==> Unbroken(next))
            && (Alive(next) ==> Alive(w))
  {}

  /** A sender that reached the end marker has relayed every frame of every
      segment the pipeline enqueued. */
  lemma EndedMeansAllSent(w: Worker)
    requires Ordered(w) && w.sender == SenderDone(false)
    ensures w.closed && |w.outcomes| == |w.given| && w.sent == Flatten(w.outcomes)
  {}
}
