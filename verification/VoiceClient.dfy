/** `VoiceClient` as an object: the fields of the class, updated in place. What a
    handler sends goes to the end of `outbox`. */
module VoiceClient {
  import opened VoiceTypes
  import ClientSteps

  class VoiceClient {
    var open: bool
    var state: VoiceState
    var currentGeneration: int
    var pendingPlaybackGeneration: int
    var playbackQueue: seq<nat>
    var activeSources: set<nat>
    var outbox: seq<ClientMsg>

    function View(): ClientSteps.Client
      reads this
    {
      ClientSteps.Client(open, state, currentGeneration, pendingPlaybackGeneration, playbackQueue, activeSources)
    }

    constructor ()
      ensures View() == ClientSteps.FRESH && outbox == []
    {
      open, state := true, Idle;
      currentGeneration, pendingPlaybackGeneration := -1, -1;
      playbackQueue, activeSources, outbox := [], {}, [];
    }

    method SendControl(message: ClientMsg)
      modifies this`outbox
      ensures outbox == old(outbox) + if open then [message] else []
    {
      if open {
        outbox := outbox + [message];
      }
    }

    method NotifyPlaybackComplete()
      modifies this
      ensures View() == ClientSteps.NotifyPlaybackComplete(old(View())).0
      ensures outbox == old(outbox) + ClientSteps.NotifyPlaybackComplete(old(View())).1
    {
      var gen := pendingPlaybackGeneration;
      if open && gen >= 0 && gen == currentGeneration {
        pendingPlaybackGeneration := -1;
        SendControl(PlaybackComplete(gen));
      }
    }

    method FlushPlayback()
      modifies this
      ensures View() == ClientSteps.FlushPlayback(old(View())) && outbox == old(outbox)
    {
      while activeSources != {}
        invariant View() == old(View()).(active := activeSources) && outbox == old(outbox)
        decreases |activeSources|
      {
        var src :| src in activeSources;
        activeSources := activeSources - {src};
      }
      playbackQueue := [];
    }

    method Silence()
      modifies this
      ensures View() == ClientSteps.Silence(old(View())) && outbox == old(outbox)
    {
      currentGeneration := -1;
      pendingPlaybackGeneration := -1;
      FlushPlayback();
    }

    method ScheduleQueuedPlayback()
      modifies this
      ensures View() == ClientSteps.ScheduleQueued(old(View())) && outbox == old(outbox)
    {
      if state != Speaking || currentGeneration < 0 {
        playbackQueue := [];
        return;
      }
      ghost var queued := playbackQueue;
      ghost var n := 0;
      while playbackQueue != []
        invariant n <= |queued| && playbackQueue == queued[n..]
        invariant activeSources == old(activeSources) + set id | id in queued[..n]
        invariant View() == old(View()).(queue := playbackQueue, active := activeSources) && outbox == old(outbox)
        decreases |playbackQueue|
      {
        var src := playbackQueue[0];
        playbackQueue := playbackQueue[1..];
        activeSources := activeSources + {src};
        assert queued[..n + 1] == queued[..n] + [src];
        n := n + 1;
      }
      assert queued[..n] == queued;
    }

    method EnqueuePlayback(id: nat)
      modifies this
      ensures View() == ClientSteps.EnqueuePlayback(old(View()), id) && outbox == old(outbox)
    {
      if state != Speaking || currentGeneration < 0 {
        return;
      }
      playbackQueue := playbackQueue + [id];
      ScheduleQueuedPlayback();
    }

    /** `handleMessage` and `dispatch`; `id` numbers the received messages. */
    method Receive(id: nat, message: ServerMsg)
      modifies this
      ensures View() == ClientSteps.Receive(old(View()), id, message).0
      ensures outbox == old(outbox) + ClientSteps.Receive(old(View()), id, message).1
    {
      match message
      case State(next) =>
        state := next;
        if next.Interrupted? || next.Cancelled? || next.Paused? || next.Completed? {
          Silence();
        }
      case TtsStart(generation) =>
        currentGeneration := generation;
        pendingPlaybackGeneration := generation;
      case TtsStop(_) =>
        if |playbackQueue| == 0 && activeSources == {} {
          NotifyPlaybackComplete();
        }
      case Audio(_) => EnqueuePlayback(id);
      case Notice =>
    }

    /** `onended` of a scheduled source. */
    method OnEnded(id: nat)
      modifies this
      ensures View() == ClientSteps.SourceEnded(old(View()), id).0
      ensures outbox == old(outbox) + ClientSteps.SourceEnded(old(View()), id).1
    {
      activeSources := activeSources - {id};
      if activeSources == {} && |playbackQueue| == 0 {
        NotifyPlaybackComplete();
      }
    }

    method InterruptNow()
      modifies this
      ensures View() == ClientSteps.UserInterrupt(old(View())).0
      ensures outbox == old(outbox) + ClientSteps.UserInterrupt(old(View())).1
    {
      Silence();
      SendControl(ClientMsg.Interrupt);
    }

    /** `stop` and `cancel`: the control first, then everything is torn down. */
    method LeaveNow(cancel: bool)
      modifies this
      ensures View() == ClientSteps.Leave(old(View()), cancel).0
      ensures outbox == old(outbox) + ClientSteps.Leave(old(View()), cancel).1
    {
      SendControl(if cancel then Cancel else Stop);
      Silence();
      open, state := false, if cancel then Cancelled else Completed;
    }

    /** A mic frame of the capture worklet. */
    method Forward(chunk: Bytes)
      modifies this
      ensures View() == old(View()) && outbox == old(outbox) + ClientSteps.SendMic(old(View()), chunk)
    {
      if state.Listening? || state.Speaking? {
        SendControl(Mic(chunk));
      }
    }

    /** The socket takes what has been sent. */
    method Collect() returns (sent: seq<ClientMsg>)
      modifies this`outbox
      ensures sent == old(outbox) && outbox == [] && View() == old(View())
    {
      sent, outbox := outbox, [];
    }
  }
}
