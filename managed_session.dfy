/** The playback session of ManagedMediaPlayer as a value: the media engine it
    wraps, the callbacks pending on its Handler, whether a seek-complete
    listener is registered, and the log of notifications sent to the host.
    Each operation of ManagedMediaPlayer is a function from the old session
    to the new one; the class in module Managed is proved against them. */
module ManagedSession {
  import opened Handler

  /** ManagedMediaPlayer.PLAY_TO_END: the endpoint that means "no endpoint". */
  const PLAY_TO_END: int := -1

  /** Delay, in ms, with which the position reporter reposts itself. */
  const POSITION_UPDATE_INTERVAL_MS: int := 250

  /** The media engine (an ExoPlayer) as far as the session sees it. */
  datatype Engine = Engine(positionMs: int, playing: bool, released: bool, volume: real)

  /** Notifications to the host: the plugin's handlePosition and
      handleCompletion, the seek-complete listener and the remote-load
      listener. */
  datatype Event =
    | HandlePosition(audioId: string, positionSeconds: real)
    | HandleCompletion(audioId: string)
    | SeekCompleted
    | RemoteLoadComplete(success: bool)

  /** The engine's playback states (Player.STATE_*). */
  datatype PlaybackState = StateIdle | StateBuffering | StateReady | StateEnded

  /** Why the engine's position jumped (Player.DISCONTINUITY_REASON_*). */
  datatype DiscontinuityReason =
    | ReasonAutoTransition | ReasonSeek | ReasonSeekAdjustment | ReasonSkip | ReasonRemove | ReasonInternal

  datatype Session = Session(
    audioId: string,
    engine: Engine,
    pending: seq<Callback>,
    seekListener: bool,
    events: seq<Event>)

  /** Engine milliseconds as the seconds the host is told. */
  function Seconds(ms: int): real
  {
    ms as real / 1000.0
  }

  /** What every reachable session satisfies: the position reporter is pending
      exactly once until the engine is released and never afterwards, at most
      one endpoint watchdog is armed, and an armed watchdog has a positive delay. */
  predicate Valid(s: Session)
  {
    Count(s.pending, UpdatePositionData) == (if s.engine.released then 0 else 1) &&
    Count(s.pending, PauseAtEndpoint) <= 1 &&
    forall c :: c in s.pending && c.task == PauseAtEndpoint ==> c.delayMs > 0
  }

  predicate NoPositionReports(evs: seq<Event>)
  {
    forall k :: 0 <= k < |evs| ==> !evs[k].HandlePosition?
  }

  /** A freshly constructed session: a new engine at position 0, and the
      position reporter posted to the handler with no delay. */
  function Initial(audioId: string): (r: Session)
    ensures Valid(r)
    ensures !r.engine.playing && r.events == []
    ensures Count(r.pending, UpdatePositionData) == 1 && Count(r.pending, PauseAtEndpoint) == 0
  {
    Session(audioId, Engine(0, false, false, 1.0), PostDelayed([], UpdatePositionData, 0), false, [])
  }

  /** Where the endpoint arithmetic of play measures from. */
  function StartPositionMs(s: Session, playFromStart: bool): int
  {
    if playFromStart then 0 else s.engine.positionMs
  }

  /** ManagedMediaPlayer.play(playFromStart, endpointMs). */
  function Play(s: Session, playFromStart: bool, endpointMs: int): (r: Session)
    // play never notifies the host and touches neither the reporter nor the listener
    ensures r.audioId == s.audioId && r.events == s.events && r.seekListener == s.seekListener
    ensures r.engine.released == s.engine.released && r.engine.volume == s.engine.volume
    ensures Count(r.pending, UpdatePositionData) == Count(s.pending, UpdatePositionData)
    // playing from the start rewinds first, and the endpoint is measured from there
    ensures r.engine.positionMs == StartPositionMs(s, playFromStart)
    // no endpoint: unbounded playback, any armed watchdog cancelled
    ensures endpointMs == PLAY_TO_END ==> r.engine.playing && Count(r.pending, PauseAtEndpoint) == 0
    // an endpoint already reached: nothing starts and the armed watchdog stays
    ensures endpointMs != PLAY_TO_END && endpointMs - StartPositionMs(s, playFromStart) <= 0 ==>
      r.engine.playing == s.engine.playing && r.pending == s.pending
    // an endpoint ahead: playback starts and exactly one watchdog is armed for the remaining time
    ensures endpointMs != PLAY_TO_END && endpointMs - StartPositionMs(s, playFromStart) > 0 ==>
      r.engine.playing && Count(r.pending, PauseAtEndpoint) == 1 &&
      Callback(PauseAtEndpoint, endpointMs - StartPositionMs(s, playFromStart)) in r.pending
    ensures Valid(s) ==> Valid(r)
  {
    var engine := if playFromStart then s.engine.(positionMs := 0) else s.engine;
    if endpointMs == PLAY_TO_END then
      s.(engine := engine.(playing := true), pending := RemoveCallbacks(s.pending, PauseAtEndpoint))
    else
      var durationMs := endpointMs - engine.positionMs;
      if durationMs <= 0 then
        s.(engine := engine)
      else
        s.(engine := engine.(playing := true),
           pending := PostDelayed(RemoveCallbacks(s.pending, PauseAtEndpoint), PauseAtEndpoint, durationMs))
  }

  /** ManagedMediaPlayer.pause(): the engine pauses; an armed watchdog is not
      cancelled. */
  function Pause(s: Session): (r: Session)
    ensures !r.engine.playing
    ensures r.pending == s.pending && r.events == s.events
    ensures r.engine.positionMs == s.engine.positionMs && r.engine.released == s.engine.released
    ensures r.audioId == s.audioId && r.seekListener == s.seekListener && r.engine.volume == s.engine.volume
    ensures Valid(s) ==> Valid(r)
  {
    s.(engine := s.engine.(playing := false))
  }

  /** ManagedMediaPlayer.seek(position), the position already in ms. The seek
      itself notifies nobody: completion arrives as a discontinuity. */
  function Seek(s: Session, positionMs: int): (r: Session)
    ensures r.engine.positionMs == positionMs
    ensures r.pending == s.pending && r.events == s.events
    ensures r.engine.playing == s.engine.playing && r.engine.released == s.engine.released
    ensures r.audioId == s.audioId && r.seekListener == s.seekListener && r.engine.volume == s.engine.volume
    ensures Valid(s) ==> Valid(r)
  {
    s.(engine := s.engine.(positionMs := positionMs))
  }

  /** ManagedMediaPlayer.setVolume(volume): only the engine's volume changes. */
  function SetVolume(s: Session, volume: real): (r: Session)
    ensures r.engine.volume == volume
    ensures r.pending == s.pending && r.events == s.events
    ensures r.engine.playing == s.engine.playing && r.engine.positionMs == s.engine.positionMs
    ensures r.engine.released == s.engine.released
    ensures r.audioId == s.audioId && r.seekListener == s.seekListener
    ensures Valid(s) ==> Valid(r)
  {
    s.(engine := s.engine.(volume := volume))
  }

  /** ManagedMediaPlayer.release(): stop and release the engine and drop every
      pending callback, so neither the watchdog nor the reporter is left. */
  function Release(s: Session): (r: Session)
    ensures r.engine.released && !r.engine.playing
    ensures Count(r.pending, PauseAtEndpoint) == 0 && Count(r.pending, UpdatePositionData) == 0
    ensures r.events == s.events && r.engine.positionMs == s.engine.positionMs
    ensures r.audioId == s.audioId && r.seekListener == s.seekListener
    ensures Valid(r)
  {
    s.(engine := s.engine.(playing := false, released := true), pending := [])
  }

  /** ManagedMediaPlayer.setOnSeekCompleteListener: registers (or clears) the listener. */
  function SetOnSeekCompleteListener(s: Session, present: bool): (r: Session)
    ensures r.seekListener == present
    ensures r.engine == s.engine && r.pending == s.pending && r.events == s.events && r.audioId == s.audioId
    ensures Valid(s) ==> Valid(r)
  {
    s.(seekListener := present)
  }

  /** ManagedMediaPlayer.onPlaybackStateChanged: at the end of the media the
      engine rewinds to 0 and the host is told of completion; every other
      state is ignored. */
  function OnPlaybackStateChanged(s: Session, state: PlaybackState): (r: Session)
    ensures state == StateEnded ==>
      r.engine.positionMs == 0 && r.events == s.events + [HandleCompletion(s.audioId)]
    ensures state != StateEnded ==> r == s
    ensures r.pending == s.pending && r.engine.playing == s.engine.playing
    ensures r.engine.released == s.engine.released && r.engine.volume == s.engine.volume
    ensures r.audioId == s.audioId && r.seekListener == s.seekListener
    ensures Valid(s) ==> Valid(r)
  {
    if state == StateEnded then
      s.(engine := s.engine.(positionMs := 0), events := s.events + [HandleCompletion(s.audioId)])
    else
      s
  }

  /** ManagedMediaPlayer.onPositionDiscontinuity: a jump caused by a seek is
      passed on to the seek-complete listener when one is registered. */
  function OnPositionDiscontinuity(s: Session, reason: DiscontinuityReason): (r: Session)
    ensures |r.events| == |s.events| + 1 <==> reason == ReasonSeek && s.seekListener
    ensures |r.events| == |s.events| + 1 ==> r.events == s.events + [SeekCompleted]
    ensures |r.events| != |s.events| + 1 ==> r.events == s.events
    ensures r.engine == s.engine && r.pending == s.pending
    ensures r.audioId == s.audioId && r.seekListener == s.seekListener
    ensures Valid(s) ==> Valid(r)
  {
    if reason == ReasonSeek && s.seekListener then s.(events := s.events + [SeekCompleted]) else s
  }

  /** PauseAtEndpointRunnable.run(), once the handler has taken it off the
      queue. `present` is whether its weak reference still reaches the session. */
  function PauseAtEndpointRun(s: Session, present: bool): (r: Session)
    ensures present ==> !r.engine.playing && r.events == s.events + [HandleCompletion(s.audioId)]
    ensures !present ==> r == s
    ensures r.pending == s.pending && r.engine.positionMs == s.engine.positionMs
    ensures r.engine.released == s.engine.released && r.engine.volume == s.engine.volume
    ensures r.audioId == s.audioId && r.seekListener == s.seekListener
  {
    if !present then s
    else s.(engine := s.engine.(playing := false), events := s.events + [HandleCompletion(s.audioId)])
  }

  /** The updatePositionData runnable, once the handler has taken it off the
      queue: report the position while playing, then repost itself. */
  function UpdatePositionDataRun(s: Session): (r: Session)
    ensures s.engine.playing ==>
      r.events == s.events + [HandlePosition(s.audioId, Seconds(s.engine.positionMs))]
    ensures !s.engine.playing ==> r.events == s.events
    ensures Count(r.pending, UpdatePositionData) == Count(s.pending, UpdatePositionData) + 1
    ensures Count(r.pending, PauseAtEndpoint) == Count(s.pending, PauseAtEndpoint)
    ensures forall c :: c in r.pending <==> c in s.pending || c == Callback(UpdatePositionData, POSITION_UPDATE_INTERVAL_MS)
    ensures r.engine == s.engine && r.audioId == s.audioId && r.seekListener == s.seekListener
  {
    var events := if s.engine.playing
      then s.events + [HandlePosition(s.audioId, Seconds(s.engine.positionMs))]
      else s.events;
    s.(events := events, pending := PostDelayed(s.pending, UpdatePositionData, POSITION_UPDATE_INTERVAL_MS))
  }

  /** The handler runs its `i`-th pending callback: it is taken off the queue,
      then its runnable runs. */
  function RunPending(s: Session, i: nat, present: bool): (r: Session)
    requires i < |s.pending|
    ensures Count(r.pending, UpdatePositionData) == Count(s.pending, UpdatePositionData)
    ensures r.audioId == s.audioId && r.seekListener == s.seekListener
    ensures r.engine.released == s.engine.released
    // the watchdog: one-shot, it pauses and reports completion once
    ensures s.pending[i].task == PauseAtEndpoint ==>
      Count(r.pending, PauseAtEndpoint) == Count(s.pending, PauseAtEndpoint) - 1 &&
      (present ==> !r.engine.playing && r.events == s.events + [HandleCompletion(s.audioId)]) &&
      (!present ==> r.engine == s.engine && r.events == s.events)
    // the reporter: a position report only while playing, and always reposted 250 ms later
    ensures s.pending[i].task == UpdatePositionData ==>
      Count(r.pending, PauseAtEndpoint) == Count(s.pending, PauseAtEndpoint) &&
      Callback(UpdatePositionData, POSITION_UPDATE_INTERVAL_MS) in r.pending &&
      r.engine == s.engine &&
      r.events == s.events + (if s.engine.playing then [HandlePosition(s.audioId, Seconds(s.engine.positionMs))] else [])
    ensures Valid(s) && s.pending[i].task == PauseAtEndpoint ==> Count(r.pending, PauseAtEndpoint) == 0
    ensures Valid(s) ==> Valid(r)
  {
    var callback := s.pending[i];
    var rest := s.(pending := RemoveAt(s.pending, i));
    match callback.task
    case PauseAtEndpoint => PauseAtEndpointRun(rest, present)
    case UpdatePositionData => UpdatePositionDataRun(rest)
  }

  /** Everything that can happen to a session: a call from the host, an engine
      notification, or the handler running a pending callback. The base
      class's onPlayerError only logs. */
  datatype Input =
    | PlayCall(playFromStart: bool, endpointMs: int)
    | PauseCall
    | SeekCall(positionMs: int)
    | ReleaseCall
    | SetVolumeCall(volume: real)
    | SetSeekListenerCall(present: bool)
    | StateChanged(state: PlaybackState)
    | Discontinuity(reason: DiscontinuityReason)
    | PlayerError
    | RunPendingCall(index: nat, present: bool)

  /** One input; the handler can only run a callback that is pending. */
  function Step(s: Session, input: Input): (r: Session)
    ensures Valid(s) ==> Valid(r)
    ensures r.audioId == s.audioId
    ensures s.events <= r.events
    // once stopped, the position reporter never comes back and never reports
    ensures Count(s.pending, UpdatePositionData) == 0 ==>
      Count(r.pending, UpdatePositionData) == 0 && NoPositionReports(r.events[|s.events|..])
  {
    match input
    case PlayCall(playFromStart, endpointMs) => Play(s, playFromStart, endpointMs)
    case PauseCall => Pause(s)
    case SeekCall(positionMs) => Seek(s, positionMs)
    case ReleaseCall => Release(s)
    case SetVolumeCall(volume) => SetVolume(s, volume)
    case SetSeekListenerCall(present) => SetOnSeekCompleteListener(s, present)
    case StateChanged(state) => OnPlaybackStateChanged(s, state)
    case Discontinuity(reason) => OnPositionDiscontinuity(s, reason)
    case PlayerError => s
    case RunPendingCall(i, present) =>
      if i < |s.pending| then
        CountMember(s.pending, i);
        RunPending(s, i, present)
      else s
  }

  /** A sequence of inputs, first to last. */
  function Run(s: Session, inputs: seq<Input>): Session
    decreases |inputs|
  {
    if inputs == [] then s else Run(Step(s, inputs[0]), inputs[1..])
  }

  /** Every reachable session keeps the invariant. */
  lemma {:induction false} RunPreservesValid(s: Session, inputs: seq<Input>)
    requires Valid(s)
    ensures Valid(Run(s, inputs))
    decreases |inputs|
  {
    if inputs != [] {
      RunPreservesValid(Step(s, inputs[0]), inputs[1..]);
    }
  }

  /** The host log is append-only. */
  lemma {:induction false} RunExtendsEvents(s: Session, inputs: seq<Input>)
    ensures s.events <= Run(s, inputs).events
    ensures Run(s, inputs).audioId == s.audioId
    decreases |inputs|
  {
    if inputs != [] {
      RunExtendsEvents(Step(s, inputs[0]), inputs[1..]);
    }
  }

  /** Once the reporter is no longer pending, whatever happens next, it is
      never pending again and no position is ever reported. */
  lemma {:induction false} ReporterStaysStopped(s: Session, inputs: seq<Input>)
    requires Count(s.pending, UpdatePositionData) == 0
    ensures Count(Run(s, inputs).pending, UpdatePositionData) == 0
    ensures s.events <= Run(s, inputs).events
    ensures NoPositionReports(Run(s, inputs).events[|s.events|..])
    decreases |inputs|
  {
    if inputs != [] {
      var next := Step(s, inputs[0]);
      ReporterStaysStopped(next, inputs[1..]);
      var r := Run(next, inputs[1..]);
      assert r.events[|s.events|..] == next.events[|s.events|..] + r.events[|next.events|..];
    }
  }

  /** After release no position is reported again, whatever the host or the
      engine does afterwards. */
  lemma NoPositionAfterRelease(s: Session, inputs: seq<Input>)
    ensures s.events <= Run(Release(s), inputs).events
    ensures NoPositionReports(Run(Release(s), inputs).events[|s.events|..])
  {
    ReporterStaysStopped(Release(s), inputs);
  }

  predicate NoPlayCalls(inputs: seq<Input>)
  {
    forall k :: 0 <= k < |inputs| ==> !inputs[k].PlayCall?
  }

  /** Only play arms the watchdog: with none armed and no play among the
      inputs, none is ever armed, so none can fire. */
  lemma {:induction false} NoWatchdogWithoutPlay(s: Session, inputs: seq<Input>)
    requires Count(s.pending, PauseAtEndpoint) == 0
    requires NoPlayCalls(inputs)
    ensures Count(Run(s, inputs).pending, PauseAtEndpoint) == 0
    decreases |inputs|
  {
    if inputs != [] {
      assert !inputs[0].PlayCall?;
      if inputs[0].RunPendingCall? && inputs[0].index < |s.pending| {
        // the callback run cannot be a watchdog, since none is pending
        CountMember(s.pending, inputs[0].index);
      }
      NoWatchdogWithoutPlay(Step(s, inputs[0]), inputs[1..]);
    }
  }

  /** After release no endpoint watchdog is armed again unless play is
      called: releasing cancels the pending one for good. */
  lemma NoWatchdogAfterRelease(s: Session, inputs: seq<Input>)
    requires NoPlayCalls(inputs)
    ensures Count(Run(Release(s), inputs).pending, PauseAtEndpoint) == 0
  {
    NoWatchdogWithoutPlay(Release(s), inputs);
  }

  /** Playing to the end and releasing straight away leaves nothing pending. */
  lemma PlayToEndThenRelease(s: Session, playFromStart: bool)
    ensures Release(Play(s, playFromStart, PLAY_TO_END)).pending == []
    ensures !Release(Play(s, playFromStart, PLAY_TO_END)).engine.playing
  {
  }

  /** On a fresh session, play(true, 3000) arms one watchdog for 3000 ms; when
      it fires, playback pauses and exactly one completion is reported, and no
      watchdog is left to fire again. */
  lemma EndpointPlaybackCompletesOnce(audioId: string)
    ensures var s := Play(Initial(audioId), true, 3000);
      s.engine.playing && s.pending[1] == Callback(PauseAtEndpoint, 3000) &&
      var r := RunPending(s, 1, true);
      !r.engine.playing && r.events == [HandleCompletion(audioId)] &&
      Count(r.pending, PauseAtEndpoint) == 0
  {
    var s0 := Initial(audioId);
    assert s0.pending == [Callback(UpdatePositionData, 0)];
    var s := Play(s0, true, 3000);
    assert RemoveCallbacks(s0.pending, PauseAtEndpoint) == s0.pending;
    assert s.pending == [Callback(UpdatePositionData, 0), Callback(PauseAtEndpoint, 3000)];
    assert s.events == [] && s.audioId == audioId && s.engine.playing;
    assert Valid(s);
    var r := RunPending(s, 1, true);
    assert r.events == [HandleCompletion(audioId)];
  }

  /** play(false, 2000) at position 5000 changes nothing. */
  lemma StaleEndpointIgnored(s: Session)
    requires s.engine.positionMs == 5000
    ensures Play(s, false, 2000) == s
  {
  }
}
