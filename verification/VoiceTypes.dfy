/** Vocabulary of the live-voice protocol: states, audio frames and the
    messages of the two FIFO channels between `VoiceEngine` and `VoiceClient`. */
module VoiceTypes {
  type Bytes = seq<bv8>

  datatype VoiceState =
    | Idle | Starting | Thinking | Speaking | Listening | Processing
    | Paused | Interrupted | Completed | Cancelled

  /** States on which the client silences its speaker and forgets the current generation. */
  predicate Silencing(s: VoiceState) {
    s.Interrupted? || s.Cancelled? || s.Paused? || s.Completed?
  }

  /** One binary audio message. On the wire it is `pcm` alone: `origin`, the
      generation of the worker that synthesised it, is bookkeeping of the
      proofs and no handler of either peer looks at it. */
  datatype Frame = Frame(origin: nat, pcm: Bytes)

  /** Server to client. `Notice` is any JSON event that changes no client field
      used here (question, transcripts, turn_ended, evaluation, errors, acks). */
  datatype ServerMsg =
    | State(state: VoiceState)
    | TtsStart(generation: nat)
    | TtsStop(generation: nat)
    | Audio(frame: Frame)
    | Notice

  /** Client to server. */
  datatype ClientMsg =
    | StartTurn | EndTurn | PlaybackComplete(generation: int)
    | Interrupt | Pause | Resume | Heartbeat | Stop | Cancel
    | Mic(chunk: Bytes)
}
