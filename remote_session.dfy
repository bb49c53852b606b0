/** The session of RemoteManagedMediaPlayer as a value: the base session,
    whether the engine has reported READY, and the commands deferred until it
    does. Until READY, play, pause, seek and release are queued instead of
    run; on READY the host is told the load succeeded and the queue is run in
    the order it was filled. The queue is never cleared, so every later READY
    notifies and replays it again. */
module RemoteSession {
  import opened Handler
  import S = ManagedSession

  /** A deferred call of the base class, with its arguments. */
  datatype Command =
    | Play(playFromStart: bool, endpointMs: int)
    | Pause
    | Seek(positionMs: int)
    | Release

  datatype RemoteState = RemoteState(
    base: S.Session,
    isPrepared: bool,
    onPreparedRunnables: seq<Command>)

  /** A new remote session: the base session, not prepared, nothing queued. */
  function Initial(audioId: string): (r: RemoteState)
    ensures !r.isPrepared && r.onPreparedRunnables == []
    ensures r.base == S.Initial(audioId) && S.Valid(r.base)
  {
    RemoteState(S.Initial(audioId), false, [])
  }

  /** The base-class call a command stands for. None of them notifies the host. */
  function Dispatch(s: S.Session, c: Command): (r: S.Session)
    ensures r.events == s.events && r.audioId == s.audioId && r.seekListener == s.seekListener
    ensures S.Valid(s) ==> S.Valid(r)
  {
    match c
    case Play(playFromStart, endpointMs) => S.Play(s, playFromStart, endpointMs)
    case Pause => S.Pause(s)
    case Seek(positionMs) => S.Seek(s, positionMs)
    case Release => S.Release(s)
  }

  /** The commands run as base-class calls, first queued first run. */
  function Replay(s: S.Session, cmds: seq<Command>): (r: S.Session)
    ensures r.events == s.events && r.audioId == s.audioId && r.seekListener == s.seekListener
    ensures S.Valid(s) ==> S.Valid(r)
    decreases |cmds|
  {
    if cmds == [] then s
    else Dispatch(Replay(s, cmds[..|cmds| - 1]), cmds[|cmds| - 1])
  }

  /** Replaying two batches is replaying their concatenation. */
  lemma {:induction false} ReplayAppend(s: S.Session, a: seq<Command>, b: seq<Command>)
    ensures Replay(s, a + b) == Replay(Replay(s, a), b)
    decreases |b|
  {
    if b == [] {
      assert a + b == a;
    } else {
      assert (a + b)[..|a + b| - 1] == a + b[..|b| - 1];
      ReplayAppend(s, a, b[..|b| - 1]);
    }
  }

  /** The first command queued is the first one run. */
  lemma ReplayFirst(s: S.Session, c: Command, rest: seq<Command>)
    ensures Replay(s, [c] + rest) == Replay(Dispatch(s, c), rest)
  {
    ReplayAppend(s, [c], rest);
    assert [c][..0] == [];
  }

  /** The overridden play, pause, seek and release: queued while the engine is
      not prepared, forwarded to the base class once it is. */
  function Issue(r: RemoteState, c: Command): (r': RemoteState)
    ensures r'.isPrepared == r.isPrepared
    ensures !r.isPrepared ==>
      r'.base == r.base && r'.onPreparedRunnables == r.onPreparedRunnables + [c]
    ensures r.isPrepared ==>
      r'.base == Dispatch(r.base, c) && r'.onPreparedRunnables == r.onPreparedRunnables
  {
    if !r.isPrepared then r.(onPreparedRunnables := r.onPreparedRunnables + [c])
    else r.(base := Dispatch(r.base, c))
  }

  /** Several calls, first to last. */
  function IssueAll(r: RemoteState, cmds: seq<Command>): RemoteState
    decreases |cmds|
  {
    if cmds == [] then r else IssueAll(Issue(r, cmds[0]), cmds[1..])
  }

  /** setVolume is not overridden: it reaches the engine even before READY. */
  function SetVolume(r: RemoteState, volume: real): (r': RemoteState)
    ensures r'.base.engine == r.base.engine.(volume := volume)
    ensures r'.base.seekListener == r.base.seekListener && r'.base.audioId == r.base.audioId
    ensures r'.base.events == r.base.events && r'.base.pending == r.base.pending
    ensures r'.isPrepared == r.isPrepared && r'.onPreparedRunnables == r.onPreparedRunnables
    ensures S.Valid(r.base) ==> S.Valid(r'.base)
  {
    r.(base := S.SetVolume(r.base, volume))
  }

  /** onRemoteLoadListener.onRemoteLoadComplete(success), recorded in the host log. */
  function NotifyLoad(s: S.Session, success: bool): (r: S.Session)
    ensures r.events == s.events + [S.RemoteLoadComplete(success)]
    ensures r.engine == s.engine && r.pending == s.pending
    ensures r.audioId == s.audioId && r.seekListener == s.seekListener
  {
    s.(events := s.events + [S.RemoteLoadComplete(success)])
  }

  /** The overridden onPlaybackStateChanged: the base handling first; then on
      READY the session becomes prepared, the host is told the load
      succeeded, and the queue is replayed in order without being cleared. */
  function OnPlaybackStateChanged(r: RemoteState, state: S.PlaybackState): (r': RemoteState)
    ensures r'.onPreparedRunnables == r.onPreparedRunnables
    ensures state == S.StateReady ==>
      r'.isPrepared &&
      r'.base.events == r.base.events + [S.RemoteLoadComplete(true)] &&
      r'.base == Replay(NotifyLoad(r.base, true), r.onPreparedRunnables)
    ensures state != S.StateReady ==>
      r'.isPrepared == r.isPrepared && r'.base == S.OnPlaybackStateChanged(r.base, state)
    ensures S.Valid(r.base) ==> S.Valid(r'.base)
  {
    var base := S.OnPlaybackStateChanged(r.base, state);
    if state == S.StateReady then
      RemoteState(Replay(NotifyLoad(base, true), r.onPreparedRunnables), true, r.onPreparedRunnables)
    else
      r.(base := base)
  }

  /** The overridden onPlayerError: every error is reported as a failed load;
      readiness and the queue are untouched. */
  function OnPlayerError(r: RemoteState): (r': RemoteState)
    ensures r'.base.events == r.base.events + [S.RemoteLoadComplete(false)]
    ensures r'.base.engine == r.base.engine && r'.base.pending == r.base.pending
    ensures r'.isPrepared == r.isPrepared && r'.onPreparedRunnables == r.onPreparedRunnables
    ensures S.Valid(r.base) ==> S.Valid(r'.base)
  {
    r.(base := NotifyLoad(r.base, false))
  }

  /** Everything that can happen to a remote session. */
  datatype Input =
    | Call(command: Command)
    | SetVolumeCall(volume: real)
    | SetSeekListenerCall(present: bool)
    | StateChanged(state: S.PlaybackState)
    | Discontinuity(reason: S.DiscontinuityReason)
    | PlayerError
    | RunPendingCall(index: nat, present: bool)

  function Step(r: RemoteState, input: Input): (r': RemoteState)
    // readiness is never lost, and once ready nothing more is queued
    ensures r.isPrepared ==> r'.isPrepared && r'.onPreparedRunnables == r.onPreparedRunnables
    // only READY makes a session ready
    ensures !r.isPrepared && r'.isPrepared ==> input == StateChanged(S.StateReady)
    ensures S.Valid(r.base) ==> S.Valid(r'.base)
  {
    match input
    case Call(c) => Issue(r, c)
    case SetVolumeCall(volume) => SetVolume(r, volume)
    case SetSeekListenerCall(present) => r.(base := S.SetOnSeekCompleteListener(r.base, present))
    case StateChanged(state) => OnPlaybackStateChanged(r, state)
    case Discontinuity(reason) => r.(base := S.OnPositionDiscontinuity(r.base, reason))
    case PlayerError => OnPlayerError(r)
    case RunPendingCall(i, present) =>
      if i < |r.base.pending| then r.(base := S.RunPending(r.base, i, present)) else r
  }

  function Run(r: RemoteState, inputs: seq<Input>): RemoteState
    decreases |inputs|
  {
    if inputs == [] then r else Run(Step(r, inputs[0]), inputs[1..])
  }

  /** isPrepared is never reset, and once it is set the queue never grows. */
  lemma {:induction false} PreparedIsPermanent(r: RemoteState, inputs: seq<Input>)
    requires r.isPrepared
    ensures Run(r, inputs).isPrepared
    ensures Run(r, inputs).onPreparedRunnables == r.onPreparedRunnables
    decreases |inputs|
  {
    if inputs != [] {
      PreparedIsPermanent(Step(r, inputs[0]), inputs[1..]);
    }
  }

  /** A session that was not prepared becomes prepared only through READY. */
  lemma {:induction false} OnlyReadyPrepares(r: RemoteState, inputs: seq<Input>)
    requires !r.isPrepared && Run(r, inputs).isPrepared
    ensures exists k :: 0 <= k < |inputs| && inputs[k] == StateChanged(S.StateReady)
    decreases |inputs|
  {
    var next := Step(r, inputs[0]);
    if next.isPrepared {
      assert inputs[0] == StateChanged(S.StateReady);
    } else {
      OnlyReadyPrepares(next, inputs[1..]);
      var k :| 0 <= k < |inputs[1..]| && inputs[1..][k] == StateChanged(S.StateReady);
      assert inputs[k + 1] == StateChanged(S.StateReady);
    }
  }

  /** Before READY, calls only fill the queue, in the order they were made. */
  lemma {:induction false} IssueAllDeferred(r: RemoteState, cmds: seq<Command>)
    requires !r.isPrepared
    ensures IssueAll(r, cmds) == r.(onPreparedRunnables := r.onPreparedRunnables + cmds)
    decreases |cmds|
  {
    if cmds == [] {
      assert r.onPreparedRunnables + cmds == r.onPreparedRunnables;
    } else {
      IssueAllDeferred(Issue(r, cmds[0]), cmds[1..]);
      assert r.onPreparedRunnables + [cmds[0]] + cmds[1..] == r.onPreparedRunnables + cmds;
    }
  }

  /** After READY, calls go straight to the base class, in order. */
  lemma {:induction false} IssueAllForwarded(r: RemoteState, cmds: seq<Command>)
    requires r.isPrepared
    ensures IssueAll(r, cmds).base == Replay(r.base, cmds)
    ensures IssueAll(r, cmds).isPrepared
    ensures IssueAll(r, cmds).onPreparedRunnables == r.onPreparedRunnables
    decreases |cmds|
  {
    if cmds != [] {
      IssueAllForwarded(Issue(r, cmds[0]), cmds[1..]);
      ReplayFirst(r.base, cmds[0], cmds[1..]);
      assert [cmds[0]] + cmds[1..] == cmds;
    }
  }

  /** Deferral is invisible to the base session: calls made before the first
      READY leave it, once READY arrives, exactly as the same calls made
      after READY would, behind whatever was already queued. */
  lemma DeferralIsTransparent(r: RemoteState, cmds: seq<Command>)
    requires !r.isPrepared
    ensures OnPlaybackStateChanged(IssueAll(r, cmds), S.StateReady).base ==
            IssueAll(OnPlaybackStateChanged(r, S.StateReady), cmds).base
  {
    IssueAllDeferred(r, cmds);
    ReplayAppend(NotifyLoad(r.base, true), r.onPreparedRunnables, cmds);
    IssueAllForwarded(OnPlaybackStateChanged(r, S.StateReady), cmds);
  }

  /** A release queued before READY never runs if the load fails: the
      engine is not released and the position reporter stays pending. */
  lemma FailedLoadNeverReleases(audioId: string)
    ensures var r := OnPlayerError(Issue(Initial(audioId), Release));
      !r.isPrepared && r.onPreparedRunnables == [Release] &&
      !r.base.engine.released &&
      Count(r.base.pending, UpdatePositionData) == 1 &&
      r.base.events == [S.RemoteLoadComplete(false)]
  {
  }

  /** A second READY notifies success again and runs the queue a second time. */
  lemma RepeatedReadyReplaysAgain(r: RemoteState)
    ensures var once := OnPlaybackStateChanged(r, S.StateReady);
      var twice := OnPlaybackStateChanged(once, S.StateReady);
      twice.base.events == r.base.events + [S.RemoteLoadComplete(true), S.RemoteLoadComplete(true)] &&
      twice.base == Replay(NotifyLoad(once.base, true), r.onPreparedRunnables) &&
      twice.onPreparedRunnables == r.onPreparedRunnables
  {
  }

  /** An error after a successful load is still reported as a failed load. */
  lemma ErrorAfterLoadReportsFailure(r: RemoteState)
    ensures var loaded := OnPlayerError(OnPlaybackStateChanged(r, S.StateReady));
      loaded.isPrepared &&
      loaded.base.events == r.base.events + [S.RemoteLoadComplete(true), S.RemoteLoadComplete(false)]
  {
  }
}
