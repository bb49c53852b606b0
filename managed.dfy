/** ManagedMediaPlayer: the per-track session object. Its fields are the
    engine it wraps, its Handler's pending callbacks, the seek-complete
    listener slot and the host's notification log; every method updates
    them in place and is proved to do what the matching function of
    ManagedSession does to the session value. */
module Managed {
  import opened Handler
  import S = ManagedSession

  class ManagedMediaPlayer {
    const audioId: string
    var engine: S.Engine
    var pending: seq<Callback>
    var seekListener: bool
    var events: seq<S.Event>

    function State(): S.Session
      reads this
    {
      S.Session(audioId, engine, pending, seekListener, events)
    }

    ghost predicate Valid()
      reads this
    {
      S.Valid(State())
    }

    /** Builds the engine and posts the position reporter. */
    constructor (audioId: string)
      ensures Valid() && State() == S.Initial(audioId)
    {
      this.audioId := audioId;
      engine := S.Engine(0, false, false, 1.0);
      seekListener := false;
      events := [];
      pending := PostDelayed([], UpdatePositionData, 0);
    }

    method SetOnSeekCompleteListener(present: bool)
      requires Valid()
      modifies this
      ensures Valid() && State() == S.SetOnSeekCompleteListener(old(State()), present)
    {
      seekListener := present;
    }

    method Play(playFromStart: bool, endpointMs: int)
      requires Valid()
      modifies this
      ensures Valid() && State() == S.Play(old(State()), playFromStart, endpointMs)
    {
      ghost var before := State();
      if playFromStart {
        engine := engine.(positionMs := 0);
      }
      if endpointMs == S.PLAY_TO_END {
        pending := RemoveCallbacks(pending, PauseAtEndpoint);
        engine := engine.(playing := true);
      } else {
        // With an endpoint, play only if it lies ahead, and arm the watchdog.
        var positionMs := engine.positionMs;
        var durationMs := endpointMs - positionMs;
        if durationMs <= 0 {
          assert State() == S.Play(before, playFromStart, endpointMs) == before.(engine := engine);
          return;
        }
        pending := RemoveCallbacks(pending, PauseAtEndpoint);
        engine := engine.(playing := true);
        pending := PostDelayed(pending, PauseAtEndpoint, durationMs);
      }
      assert State() == S.Play(before, playFromStart, endpointMs);
    }

    method Release()
      requires Valid()
      modifies this
      ensures Valid() && State() == S.Release(old(State()))
    {
      engine := engine.(playing := false);
      engine := engine.(released := true);
      pending := [];
    }

    method Seek(positionMs: int)
      requires Valid()
      modifies this
      ensures Valid() && State() == S.Seek(old(State()), positionMs)
    {
      engine := engine.(positionMs := positionMs);
    }

    method SetVolume(volume: real)
      requires Valid()
      modifies this
      ensures Valid() && State() == S.SetVolume(old(State()), volume)
    {
      engine := engine.(volume := volume);
    }

    method Pause()
      requires Valid()
      modifies this
      ensures Valid() && State() == S.Pause(old(State()))
    {
      engine := engine.(playing := false);
    }

    method OnPlaybackStateChanged(state: S.PlaybackState)
      requires Valid()
      modifies this
      ensures Valid() && State() == S.OnPlaybackStateChanged(old(State()), state)
    {
      if state == S.StateEnded {
        engine := engine.(positionMs := 0);
        events := events + [S.HandleCompletion(audioId)];
      }
    }

    method OnPositionDiscontinuity(reason: S.DiscontinuityReason)
      requires Valid()
      modifies this
      ensures Valid() && State() == S.OnPositionDiscontinuity(old(State()), reason)
    {
      if reason == S.ReasonSeek {
        if seekListener {
          events := events + [S.SeekCompleted];
        }
      }
    }

    /** The handler runs its `i`-th pending callback. */
    method RunPending(i: nat, present: bool)
      requires Valid() && i < |pending|
      modifies this
      ensures Valid() && State() == S.RunPending(old(State()), i, present)
    {
      var callback := pending[i];
      pending := RemoveAt(pending, i);
      match callback.task {
        case PauseAtEndpoint => PauseAtEndpointRun(present);
        case UpdatePositionData => UpdatePositionDataRun();
      }
    }

    /** PauseAtEndpointRunnable.run(); `present` is whether its weak
        reference still reaches this session. */
    method PauseAtEndpointRun(present: bool)
      modifies this
      ensures State() == S.PauseAtEndpointRun(old(State()), present)
    {
      if !present {
        return;
      }
      engine := engine.(playing := false);
      events := events + [S.HandleCompletion(audioId)];
    }

    /** The updatePositionData runnable. */
    method UpdatePositionDataRun()
      modifies this
      ensures State() == S.UpdatePositionDataRun(old(State()))
    {
      if engine.playing {
        var positionSeconds := S.Seconds(engine.positionMs);
        events := events + [S.HandlePosition(audioId, positionSeconds)];
      }
      pending := PostDelayed(pending, UpdatePositionData, S.POSITION_UPDATE_INTERVAL_MS);
    }
  }
}
