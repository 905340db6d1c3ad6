/** The playback sink as the object whose fields the playback loop updates. */
module PlaybackSink {
  import opened Frames
  import Playback

  class PlaybackSink {
    var playbackQueue: seq<Frame>
    var interrupted: bool
    var playbackStarted: bool
    var finished: bool
    var dequeued: nat
    var up: seq<Playback.Report>
    var down: seq<Frame>

    ghost function Get(): Playback.State
      reads this
    {
      Playback.State(playbackQueue, interrupted, playbackStarted, finished, dequeued, up, down)
    }

    constructor ()
      ensures Get() == Playback.INITIAL
    {
      playbackQueue, interrupted, playbackStarted, finished := [], false, false, false;
      dequeued, up, down := 0, [], [];
    }

    method HandleQueueFrame(f: Frame)
      modifies this
      ensures Get() == Playback.HandleQueueFrame(old(Get()), f)
    {
      match f {
        case AudioFrame(_) => Append(f);
        case WordTimestampFrame(_) => Append(f);
        case TTSDoneFrame => Append(f);
        case EndFrame(reason) =>
          if Playback.StopsImmediately(reason) {
            playbackQueue := [];
            interrupted := true;
          }
          playbackQueue := playbackQueue + [f];
        case LLMResponseStartFrame => BeginTurn();
        case TTSSpeakFrame(_) => BeginTurn();
        case InterruptFrame =>
          interrupted := true;
          Purge();
        case _ =>
      }
    }

    method Append(f: Frame)
      modifies this`playbackQueue
      ensures playbackQueue == if interrupted then old(playbackQueue) else old(playbackQueue) + [f]
    {
      if !interrupted {
        playbackQueue := playbackQueue + [f];
      }
    }

    method BeginTurn()
      modifies this
      ensures Get() == Playback.StartTurn(old(Get()))
    {
      interrupted, playbackStarted, playbackQueue, dequeued := false, false, [], 0;
    }

    method Purge()
      modifies this`playbackQueue
      ensures playbackQueue == Playback.KeptFrames(old(playbackQueue))
    {
      var kept: seq<Frame> := [];
      for i := 0 to |playbackQueue|
        invariant kept == Playback.KeptFrames(playbackQueue[..i])
      {
        assert playbackQueue[..i + 1][..i] == playbackQueue[..i];
        if !playbackQueue[i].IsInterruptible() {
          kept := kept + [playbackQueue[i]];
        }
      }
      assert playbackQueue[..|playbackQueue|] == playbackQueue;
      playbackQueue := kept;
    }

    method PushUp(f: Frame)
      modifies this`up
      ensures up == old(up) + [Playback.Report(f, dequeued)]
    {
      up := up + [Playback.Report(f, dequeued)];
    }

    method Broadcast(f: Frame)
      modifies this`up, this`down
      ensures down == old(down) + [f] && up == old(up) + [Playback.Report(f, dequeued)]
    {
      down := down + [f];
      PushUp(f);
    }

    /** One tick; true exactly if the EndFrame has been played. */
    method Tick() returns (ended: bool)
      requires !finished
      modifies this
      ensures Get() == Playback.Tick(old(Get()))
      ensures ended == finished
    {
      while playbackQueue != []
        invariant !finished
        invariant Playback.Tick(Get()) == Playback.Tick(old(Get()))
        decreases |playbackQueue|
      {
        var f := playbackQueue[0];
        playbackQueue := playbackQueue[1..];
        match f {
          case AudioFrame(_) =>
            if !playbackStarted {
              playbackStarted := true;
              Broadcast(BotStartedSpeakingFrame);
            }
            dequeued := dequeued + 1;
            return false;
          case WordTimestampFrame(_) => PushUp(f);
          case TTSDoneFrame =>
            PushUp(f);
            Broadcast(BotStoppedSpeakingFrame);
          case EndFrame(_) =>
            down := down + [f];
            finished := true;
            return true;
          case _ =>
        }
      }
      return false;
    }
  }
}
