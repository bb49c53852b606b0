/** RemoteManagedMediaPlayer: a ManagedMediaPlayer whose engine loads over the
    network. The base-class object is held in `base`; the overriding methods
    either append to `onPreparedRunnables` or call the base, and the READY
    handler replays the list with a loop. Each method is proved to do what
    the matching function of RemoteSession does. */
module Remote {
  import S = ManagedSession
  import M = Managed
  import R = RemoteSession

  class RemoteManagedMediaPlayer {
    const base: M.ManagedMediaPlayer
    var isPrepared: bool
    var onPreparedRunnables: seq<R.Command>

    function State(): R.RemoteState
      reads this, base
    {
      R.RemoteState(base.State(), isPrepared, onPreparedRunnables)
    }

    ghost predicate Valid()
      reads this, base
    {
      base.Valid()
    }

    /** Starts the load; the engine reports READY or an error later. */
    constructor (audioId: string)
      ensures Valid() && fresh(base) && State() == R.Initial(audioId)
    {
      base := new M.ManagedMediaPlayer(audioId);
      isPrepared := false;
      onPreparedRunnables := [];
    }

    method Play(playFromStart: bool, endpointMs: int)
      requires Valid()
      modifies this, base
      ensures Valid() && State() == R.Issue(old(State()), R.Play(playFromStart, endpointMs))
    {
      if !isPrepared {
        onPreparedRunnables := onPreparedRunnables + [R.Play(playFromStart, endpointMs)];
      } else {
        base.Play(playFromStart, endpointMs);
      }
    }

    method Release()
      requires Valid()
      modifies this, base
      ensures Valid() && State() == R.Issue(old(State()), R.Release)
    {
      if !isPrepared {
        onPreparedRunnables := onPreparedRunnables + [R.Release];
      } else {
        base.Release();
      }
    }

    method Seek(positionMs: int)
      requires Valid()
      modifies this, base
      ensures Valid() && State() == R.Issue(old(State()), R.Seek(positionMs))
    {
      if !isPrepared {
        onPreparedRunnables := onPreparedRunnables + [R.Seek(positionMs)];
      } else {
        base.Seek(positionMs);
      }
    }

    method Pause()
      requires Valid()
      modifies this, base
      ensures Valid() && State() == R.Issue(old(State()), R.Pause)
    {
      if !isPrepared {
        onPreparedRunnables := onPreparedRunnables + [R.Pause];
      } else {
        base.Pause();
      }
    }

    /** Not overridden: forwarded whether or not the engine is prepared. */
    method SetVolume(volume: real)
      requires Valid()
      modifies base
      ensures Valid() && State() == R.SetVolume(old(State()), volume)
    {
      base.SetVolume(volume);
    }

    method OnPlaybackStateChanged(state: S.PlaybackState)
      requires Valid()
      modifies this, base
      ensures Valid() && State() == R.OnPlaybackStateChanged(old(State()), state)
    {
      base.OnPlaybackStateChanged(state);
      if state == S.StateReady {
        isPrepared := true;
        base.events := base.events + [S.RemoteLoadComplete(true)];
        ghost var loaded := base.State();
        for i := 0 to |onPreparedRunnables|
          invariant isPrepared && onPreparedRunnables == old(onPreparedRunnables)
          invariant base.Valid()
          invariant base.State() == R.Replay(loaded, onPreparedRunnables[..i])
        {
          assert onPreparedRunnables[..i + 1][..i] == onPreparedRunnables[..i];
          RunCommand(onPreparedRunnables[i]);
        }
        assert onPreparedRunnables[..|onPreparedRunnables|] == onPreparedRunnables;
      }
    }

    /** A queued runnable: the base-class call it captured. */
    method RunCommand(c: R.Command)
      requires base.Valid()
      modifies base
      ensures base.Valid() && base.State() == R.Dispatch(old(base.State()), c)
    {
      match c {
        case Play(playFromStart, endpointMs) => base.Play(playFromStart, endpointMs);
        case Pause => base.Pause();
        case Seek(positionMs) => base.Seek(positionMs);
        case Release => base.Release();
      }
    }

    method OnPlayerError()
      requires Valid()
      modifies base
      ensures Valid() && State() == R.OnPlayerError(old(State()))
    {
      base.events := base.events + [S.RemoteLoadComplete(false)];
    }

    method OnPositionDiscontinuity(reason: S.DiscontinuityReason)
      requires Valid()
      modifies base
      ensures Valid() && State() == old(State()).(base := S.OnPositionDiscontinuity(old(State()).base, reason))
    {
      base.OnPositionDiscontinuity(reason);
    }

    method SetOnSeekCompleteListener(present: bool)
      requires Valid()
      modifies base
      ensures Valid() && State() == old(State()).(base := S.SetOnSeekCompleteListener(old(State()).base, present))
    {
      base.SetOnSeekCompleteListener(present);
    }

    /** The base session's handler runs its `i`-th pending callback. */
    method RunPending(i: nat, present: bool)
      requires Valid() && i < |base.pending|
      modifies base
      ensures Valid() && State() == old(State()).(base := S.RunPending(old(State()).base, i, present))
    {
      base.RunPending(i, present);
    }
  }
}
