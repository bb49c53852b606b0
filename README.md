# audiofileplayer Android playback session, modelled in Dafny

This project models the per-track playback session of the Android side of the
audiofileplayer Flutter plugin: `ManagedMediaPlayer`, which wraps one ExoPlayer
engine, and `RemoteManagedMediaPlayer`, which loads over the network and defers
calls until the engine is ready.

The state of a session is kept in integer milliseconds and booleans:
- an abstract engine record: position, playing, released, volume;
- the Android `Handler` as the ordered list of pending callbacks, each either the
  endpoint watchdog (`PauseAtEndpointRunnable`) or the 250 ms position reporter
  (`updatePositionData`);
- the seek-complete listener slot;
- an append-only log of host notifications (`handlePosition`, `handleCompletion`,
  `onSeekComplete`, `onRemoteLoadComplete`).

For the remote variant it adds the `isPrepared` flag and the deferral queue, whose
entries are a tagged command `Play(playFromStart, endpointMs) | Pause | Seek(ms) | Release`.

Files:
- `handler.dfy`, module `Handler`: the handler's pending callbacks (`postDelayed`,
  `removeCallbacks`, running one).
- `managed_session.dfy`, module `ManagedSession`: the session as a value. It has one
  function per operation of `ManagedMediaPlayer`, whose contracts state the
  behaviour. It also has the invariant `Valid` and the lemmas over arbitrary input
  sequences.
- `managed.dfy`, module `Managed`: the class `ManagedMediaPlayer`. Its fields are
  updated in place, and each method is proved equal to the matching function.
- `remote_session.dfy`, module `RemoteSession`: the remote session as a value:
  deferral, replay in order, READY and error handling, and lemmas.
- `remote.dfy`, module `Remote`: the class `RemoteManagedMediaPlayer`. It holds its
  base-class object and replays the queue with a loop proved against
  `RemoteSession.Replay`.

Behaviour kept as the code has it, although a cleaner session lifecycle would differ:
- The deferral queue is never cleared. Every later READY (ExoPlayer reports READY
  again after rebuffering) sends another success notification and replays the
  queue again (`RemoteSession.RepeatedReadyReplaysAgain`).
- Every player error is reported as a failed load, also after a successful load.
  A failed load does not discard the queue (`RemoteSession.ErrorAfterLoadReportsFailure`).
- A `release` issued before READY is only queued. If the load then fails, it never
  runs: the engine is not released and the position reporter stays pending
  (`RemoteSession.FailedLoadNeverReleases`).
- `pause` does not cancel an armed watchdog. If the watchdog later runs, it still
  pauses and reports completion.
- `release` does not guard later calls. A `play` with an endpoint after `release`
  arms a watchdog again. The position reporter, however, never comes back
  (`ManagedSession.NoPositionAfterRelease`).
- With `playFromStart`, the rewind to 0 happens even when the endpoint guard
  then stops playback from starting.

## Model

| member | source | states |
|---|---|---|
| Handler.PostDelayed | packages/audiofileplayer/android/src/main/java/com/google/flutter/plugins/audiofileplayer/ManagedMediaPlayer.java:105 | posting a runnable adds exactly one pending callback for it, with the given delay, and leaves every other pending callback |
| Handler.RemoveCallbacks | packages/audiofileplayer/android/src/main/java/com/google/flutter/plugins/audiofileplayer/ManagedMediaPlayer.java:103 | removing a runnable leaves no pending post of it and keeps every other pending callback |
| Handler.RemoveAt | packages/audiofileplayer/android/src/main/java/com/google/flutter/plugins/audiofileplayer/ManagedMediaPlayer.java:170-180 | the handler takes the callback it runs off the queue: one fewer of its runnable, the others unchanged |
| Handler.CountAppend | packages/audiofileplayer/android/src/main/java/com/google/flutter/plugins/audiofileplayer/ManagedMediaPlayer.java:105 | pending callbacks of a runnable in two queues add up (used for the at-most-one-watchdog invariant) |
| ManagedSession.Initial | packages/audiofileplayer/android/src/main/java/com/google/flutter/plugins/audiofileplayer/ManagedMediaPlayer.java:50-66 | a new session has a stopped engine, an empty host log, the position reporter pending once and no watchdog |
| ManagedSession.Play | packages/audiofileplayer/android/src/main/java/com/google/flutter/plugins/audiofileplayer/ManagedMediaPlayer.java:86-107 | rewinds first when playing from the start and measures the endpoint from there; PLAY_TO_END plays and cancels any watchdog; an endpoint not ahead starts nothing and leaves the watchdog; an endpoint ahead plays and arms exactly one watchdog with the remaining time; never notifies the host; keeps the invariant |
| ManagedSession.Pause | packages/audiofileplayer/android/src/main/java/com/google/flutter/plugins/audiofileplayer/ManagedMediaPlayer.java:132-134 | the engine stops playing; pending callbacks (an armed watchdog included), position and host log unchanged |
| ManagedSession.Seek | packages/audiofileplayer/android/src/main/java/com/google/flutter/plugins/audiofileplayer/ManagedMediaPlayer.java:123-126 | the engine moves to the requested position; nothing else changes and the host is not notified |
| ManagedSession.SetVolume | packages/audiofileplayer/android/src/main/java/com/google/flutter/plugins/audiofileplayer/ManagedMediaPlayer.java:128-130 | only the engine volume changes: playing, position, pending callbacks and host log are untouched |
| ManagedSession.Release | packages/audiofileplayer/android/src/main/java/com/google/flutter/plugins/audiofileplayer/ManagedMediaPlayer.java:110-121 | engine stopped and released, no watchdog and no reporter pending, host log unchanged; the invariant holds afterwards |
| ManagedSession.SetOnSeekCompleteListener | packages/audiofileplayer/android/src/main/java/com/google/flutter/plugins/audiofileplayer/ManagedMediaPlayer.java:68-70 | registers or clears the seek-complete listener and changes nothing else |
| ManagedSession.OnPlaybackStateChanged | packages/audiofileplayer/android/src/main/java/com/google/flutter/plugins/audiofileplayer/ManagedMediaPlayer.java:137-142 | on STATE_ENDED the engine rewinds to 0 and exactly one completion is reported; any other state changes nothing |
| ManagedSession.OnPositionDiscontinuity | packages/audiofileplayer/android/src/main/java/com/google/flutter/plugins/audiofileplayer/ManagedMediaPlayer.java:151-158 | one seek-complete notification exactly when the reason is a seek and a listener is registered, otherwise none |
| ManagedSession.PauseAtEndpointRun | packages/audiofileplayer/android/src/main/java/com/google/flutter/plugins/audiofileplayer/ManagedMediaPlayer.java:170-180 | with the session still reachable, pauses and reports exactly one completion for its audio id; otherwise does nothing |
| ManagedSession.UpdatePositionDataRun | packages/audiofileplayer/android/src/main/java/com/google/flutter/plugins/audiofileplayer/ManagedMediaPlayer.java:34-48 | reports the position in seconds (ms / 1000) only while playing, and always reposts itself with a 250 ms delay |
| ManagedSession.RunPending | packages/audiofileplayer/android/src/main/java/com/google/flutter/plugins/audiofileplayer/ManagedMediaPlayer.java:161-180 | running the watchdog removes it (one-shot: none left in a valid session), pauses and reports one completion; running the reporter keeps it pending once and reports only while playing; keeps the invariant |
| ManagedSession.Step | packages/audiofileplayer/android/src/main/java/com/google/flutter/plugins/audiofileplayer/ManagedMediaPlayer.java:86-158 | every call, engine notification or handler run keeps the invariant, only appends to the host log, and never revives a stopped reporter |
| ManagedSession.RunPreservesValid | packages/audiofileplayer/android/src/main/java/com/google/flutter/plugins/audiofileplayer/ManagedMediaPlayer.java:103-105 | over any sequence of inputs at most one watchdog is armed, and the reporter is pending exactly until release |
| ManagedSession.RunExtendsEvents | packages/audiofileplayer/android/src/main/java/com/google/flutter/plugins/audiofileplayer/ManagedMediaPlayer.java:136-158 | host notifications are only ever appended |
| ManagedSession.ReporterStaysStopped | packages/audiofileplayer/android/src/main/java/com/google/flutter/plugins/audiofileplayer/ManagedMediaPlayer.java:38-47 | once the reporter is not pending it never is again and no position is reported, whatever follows |
| ManagedSession.NoPositionAfterRelease | packages/audiofileplayer/android/src/main/java/com/google/flutter/plugins/audiofileplayer/ManagedMediaPlayer.java:110-121 | after release no position event is ever reported, whatever the host or engine does next |
| ManagedSession.NoWatchdogWithoutPlay | packages/audiofileplayer/android/src/main/java/com/google/flutter/plugins/audiofileplayer/ManagedMediaPlayer.java:90-105 | only play arms the watchdog: with none armed and no play among any later inputs, none is ever armed, so none can fire |
| ManagedSession.NoWatchdogAfterRelease | packages/audiofileplayer/android/src/main/java/com/google/flutter/plugins/audiofileplayer/ManagedMediaPlayer.java:110-121 | after release, as long as play is not called again, no endpoint watchdog is ever armed, so no endpoint completion follows |
| ManagedSession.PlayToEndThenRelease | packages/audiofileplayer/android/src/main/java/com/google/flutter/plugins/audiofileplayer/ManagedMediaPlayer.java:86-121 | play to the end followed by release leaves nothing pending and the engine stopped |
| ManagedSession.EndpointPlaybackCompletesOnce | packages/audiofileplayer/android/src/main/java/com/google/flutter/plugins/audiofileplayer/ManagedMediaPlayer.java:103-105 | play(true, 3000) on a new session arms one 3000 ms watchdog; when it fires playback pauses, one completion is reported and no watchdog remains |
| ManagedSession.StaleEndpointIgnored | packages/audiofileplayer/android/src/main/java/com/google/flutter/plugins/audiofileplayer/ManagedMediaPlayer.java:96-102 | play(false, 2000) at position 5000 leaves the session exactly as it was |
| Managed.ManagedMediaPlayer.constructor | packages/audiofileplayer/android/src/main/java/com/google/flutter/plugins/audiofileplayer/ManagedMediaPlayer.java:50-66 | builds a valid session equal to Initial: reporter posted, nothing else pending |
| Managed.ManagedMediaPlayer.Play | packages/audiofileplayer/android/src/main/java/com/google/flutter/plugins/audiofileplayer/ManagedMediaPlayer.java:86-107 | updates the fields in place exactly as ManagedSession.Play and keeps the invariant |
| Managed.ManagedMediaPlayer.Release | packages/audiofileplayer/android/src/main/java/com/google/flutter/plugins/audiofileplayer/ManagedMediaPlayer.java:110-121 | updates the fields exactly as ManagedSession.Release |
| Managed.ManagedMediaPlayer.Seek | packages/audiofileplayer/android/src/main/java/com/google/flutter/plugins/audiofileplayer/ManagedMediaPlayer.java:123-126 | updates the fields exactly as ManagedSession.Seek |
| Managed.ManagedMediaPlayer.SetVolume | packages/audiofileplayer/android/src/main/java/com/google/flutter/plugins/audiofileplayer/ManagedMediaPlayer.java:128-130 | updates the fields exactly as ManagedSession.SetVolume |
| Managed.ManagedMediaPlayer.Pause | packages/audiofileplayer/android/src/main/java/com/google/flutter/plugins/audiofileplayer/ManagedMediaPlayer.java:132-134 | updates the fields exactly as ManagedSession.Pause |
| Managed.ManagedMediaPlayer.SetOnSeekCompleteListener | packages/audiofileplayer/android/src/main/java/com/google/flutter/plugins/audiofileplayer/ManagedMediaPlayer.java:68-70 | updates the listener slot exactly as ManagedSession.SetOnSeekCompleteListener |
| Managed.ManagedMediaPlayer.OnPlaybackStateChanged | packages/audiofileplayer/android/src/main/java/com/google/flutter/plugins/audiofileplayer/ManagedMediaPlayer.java:137-142 | updates the fields exactly as ManagedSession.OnPlaybackStateChanged |
| Managed.ManagedMediaPlayer.OnPositionDiscontinuity | packages/audiofileplayer/android/src/main/java/com/google/flutter/plugins/audiofileplayer/ManagedMediaPlayer.java:151-158 | updates the log exactly as ManagedSession.OnPositionDiscontinuity |
| Managed.ManagedMediaPlayer.RunPending | packages/audiofileplayer/android/src/main/java/com/google/flutter/plugins/audiofileplayer/ManagedMediaPlayer.java:161-180 | takes the callback off the handler queue and runs it, exactly as ManagedSession.RunPending, keeping the invariant |
| Managed.ManagedMediaPlayer.PauseAtEndpointRun | packages/audiofileplayer/android/src/main/java/com/google/flutter/plugins/audiofileplayer/ManagedMediaPlayer.java:170-180 | the watchdog runnable, exactly as ManagedSession.PauseAtEndpointRun |
| Managed.ManagedMediaPlayer.UpdatePositionDataRun | packages/audiofileplayer/android/src/main/java/com/google/flutter/plugins/audiofileplayer/ManagedMediaPlayer.java:34-48 | the reporter runnable, exactly as ManagedSession.UpdatePositionDataRun |
| RemoteSession.Initial | packages/audiofileplayer/android/src/main/java/com/google/flutter/plugins/audiofileplayer/RemoteManagedMediaPlayer.java:42-55 | a new remote session: the base session as constructed (valid, reporter pending), not prepared, empty queue |
| RemoteSession.Dispatch | packages/audiofileplayer/android/src/main/java/com/google/flutter/plugins/audiofileplayer/RemoteManagedMediaPlayer.java:76-106 | a queued command runs as the base-class call it captured; none notifies the host and each keeps the invariant |
| RemoteSession.Replay | packages/audiofileplayer/android/src/main/java/com/google/flutter/plugins/audiofileplayer/RemoteManagedMediaPlayer.java:68-70 | replaying queued commands never notifies the host and keeps the invariant |
| RemoteSession.ReplayAppend | packages/audiofileplayer/android/src/main/java/com/google/flutter/plugins/audiofileplayer/RemoteManagedMediaPlayer.java:68-70 | replaying a list is replaying its first part and then the rest: insertion (FIFO) order |
| RemoteSession.ReplayFirst | packages/audiofileplayer/android/src/main/java/com/google/flutter/plugins/audiofileplayer/RemoteManagedMediaPlayer.java:68-70 | the first command queued is the first one run |
| RemoteSession.Issue | packages/audiofileplayer/android/src/main/java/com/google/flutter/plugins/audiofileplayer/RemoteManagedMediaPlayer.java:75-108 | before READY play, release, seek and pause only append their command and leave the base session untouched; after READY they run the base call and the queue does not grow |
| RemoteSession.SetVolume | packages/audiofileplayer/android/src/main/java/com/google/flutter/plugins/audiofileplayer/ManagedMediaPlayer.java:128-130 | not overridden: the volume reaches the engine whether or not the track is prepared; the rest of the engine (playing, position, released), the listener, the audio id, the log, the pending callbacks, readiness and the queue are unchanged |
| RemoteSession.NotifyLoad | packages/audiofileplayer/android/src/main/java/com/google/flutter/plugins/audiofileplayer/RemoteManagedMediaPlayer.java:67 | the load listener call appends one load notification and changes nothing else |
| RemoteSession.OnPlaybackStateChanged | packages/audiofileplayer/android/src/main/java/com/google/flutter/plugins/audiofileplayer/RemoteManagedMediaPlayer.java:62-72 | base handling first; on READY the session is prepared, one success notification is appended, then the queue is replayed in order and not cleared; other states only run the base handling |
| RemoteSession.OnPlayerError | packages/audiofileplayer/android/src/main/java/com/google/flutter/plugins/audiofileplayer/RemoteManagedMediaPlayer.java:111-114 | every error appends one failed-load notification; engine, pending callbacks, readiness and queue unchanged |
| RemoteSession.Step | packages/audiofileplayer/android/src/main/java/com/google/flutter/plugins/audiofileplayer/RemoteManagedMediaPlayer.java:30-115 | readiness is never lost, only READY sets it, and once prepared the queue never grows |
| RemoteSession.PreparedIsPermanent | packages/audiofileplayer/android/src/main/java/com/google/flutter/plugins/audiofileplayer/RemoteManagedMediaPlayer.java:66 | over any sequence of inputs a prepared session stays prepared and its queue never changes |
| RemoteSession.OnlyReadyPrepares | packages/audiofileplayer/android/src/main/java/com/google/flutter/plugins/audiofileplayer/RemoteManagedMediaPlayer.java:64-66 | a session that becomes prepared saw a READY notification |
| RemoteSession.IssueAllDeferred | packages/audiofileplayer/android/src/main/java/com/google/flutter/plugins/audiofileplayer/RemoteManagedMediaPlayer.java:75-108 | calls made before READY fill the queue in the order they were made and touch nothing else |
| RemoteSession.IssueAllForwarded | packages/audiofileplayer/android/src/main/java/com/google/flutter/plugins/audiofileplayer/RemoteManagedMediaPlayer.java:75-108 | calls made after READY run as base calls in order and leave the queue alone |
| RemoteSession.DeferralIsTransparent | packages/audiofileplayer/android/src/main/java/com/google/flutter/plugins/audiofileplayer/RemoteManagedMediaPlayer.java:62-108 | for any unprepared session, calls made before READY leave the base session, once READY arrives, exactly as the same calls made after READY, behind what was already queued |
| RemoteSession.FailedLoadNeverReleases | packages/audiofileplayer/android/src/main/java/com/google/flutter/plugins/audiofileplayer/RemoteManagedMediaPlayer.java:84-90 | a release issued before READY followed by a load error is never run: the engine stays unreleased and the reporter stays pending |
| RemoteSession.RepeatedReadyReplaysAgain | packages/audiofileplayer/android/src/main/java/com/google/flutter/plugins/audiofileplayer/RemoteManagedMediaPlayer.java:64-70 | a second READY reports success a second time and replays the same queue again |
| RemoteSession.ErrorAfterLoadReportsFailure | packages/audiofileplayer/android/src/main/java/com/google/flutter/plugins/audiofileplayer/RemoteManagedMediaPlayer.java:111-114 | an error after a successful load appends a failure notification after the success one; the session stays prepared |
| Remote.RemoteManagedMediaPlayer.constructor | packages/audiofileplayer/android/src/main/java/com/google/flutter/plugins/audiofileplayer/RemoteManagedMediaPlayer.java:42-55 | a new remote session: a fresh base session, not prepared, empty queue |
| Remote.RemoteManagedMediaPlayer.Play | packages/audiofileplayer/android/src/main/java/com/google/flutter/plugins/audiofileplayer/RemoteManagedMediaPlayer.java:75-81 | queues or forwards exactly as RemoteSession.Issue with a Play command |
| Remote.RemoteManagedMediaPlayer.Release | packages/audiofileplayer/android/src/main/java/com/google/flutter/plugins/audiofileplayer/RemoteManagedMediaPlayer.java:84-90 | queues or forwards exactly as RemoteSession.Issue with a Release command |
| Remote.RemoteManagedMediaPlayer.Seek | packages/audiofileplayer/android/src/main/java/com/google/flutter/plugins/audiofileplayer/RemoteManagedMediaPlayer.java:93-99 | queues or forwards exactly as RemoteSession.Issue with a Seek command |
| Remote.RemoteManagedMediaPlayer.Pause | packages/audiofileplayer/android/src/main/java/com/google/flutter/plugins/audiofileplayer/RemoteManagedMediaPlayer.java:102-108 | queues or forwards exactly as RemoteSession.Issue with a Pause command |
| Remote.RemoteManagedMediaPlayer.SetVolume | packages/audiofileplayer/android/src/main/java/com/google/flutter/plugins/audiofileplayer/ManagedMediaPlayer.java:128-130 | forwards immediately, exactly as RemoteSession.SetVolume |
| Remote.RemoteManagedMediaPlayer.OnPlaybackStateChanged | packages/audiofileplayer/android/src/main/java/com/google/flutter/plugins/audiofileplayer/RemoteManagedMediaPlayer.java:62-72 | the replay loop leaves the state exactly as RemoteSession.OnPlaybackStateChanged: each iteration has run the queue prefix in order |
| Remote.RemoteManagedMediaPlayer.RunCommand | packages/audiofileplayer/android/src/main/java/com/google/flutter/plugins/audiofileplayer/RemoteManagedMediaPlayer.java:76-106 | runs a queued command as its base-class call, exactly as RemoteSession.Dispatch |
| Remote.RemoteManagedMediaPlayer.OnPlayerError | packages/audiofileplayer/android/src/main/java/com/google/flutter/plugins/audiofileplayer/RemoteManagedMediaPlayer.java:111-114 | appends the failed-load notification, exactly as RemoteSession.OnPlayerError |
| Remote.RemoteManagedMediaPlayer.OnPositionDiscontinuity | packages/audiofileplayer/android/src/main/java/com/google/flutter/plugins/audiofileplayer/ManagedMediaPlayer.java:151-158 | inherited: passes the discontinuity to the base session |
| Remote.RemoteManagedMediaPlayer.SetOnSeekCompleteListener | packages/audiofileplayer/android/src/main/java/com/google/flutter/plugins/audiofileplayer/ManagedMediaPlayer.java:68-70 | inherited: registers the listener on the base session |
| Remote.RemoteManagedMediaPlayer.RunPending | packages/audiofileplayer/android/src/main/java/com/google/flutter/plugins/audiofileplayer/ManagedMediaPlayer.java:161-180 | the base session's handler runs one pending callback, before or after READY alike |

## Left out

- ExoPlayer itself: the builder, listener registration, media-source construction over HTTP and `prepare`. The engine is a record that changes only through the session's own calls.
- The engine's own progress: the position advancing while playing, and playback stopping at the end of the media. Engine notifications (state changes, discontinuities, errors) are inputs chosen by the environment.
- The engine's own play state: `engine.playing` is the play state the session last requested. The reporter's condition `player.isPlaying()` is also false while the engine is buffering or has ended, and the model does not capture that.
- Wall-clock time: a pending handler callback runs when the environment picks it (`RunPending`). Delays are recorded as posted, but their timing is not modelled.
- Floating point: positions sent to the host are exact rationals `ms / 1000`, not doubles. `Seek` takes the position already converted to integer milliseconds, so the `(int)(seconds * 1000.0)` cast is not modelled. The volume is a real, without the float cast.
- Java `int` width: `endpointMs` and the seek position are Java ints, and the remaining time is computed in `long`. Nothing overflows in the source, so unbounded integers model it exactly.
- `getDurationSeconds` and `getAudioId`: plain accessors (the first a floating-point conversion of the engine duration). They are not modelled.
- The `looping` and `playInBackground` constructor flags: the source stores or ignores them (`setLooping` is commented out) and no modelled behaviour depends on them.
- Logging, including the base `onPlayerError`, which only logs. In the input model it is a step that changes nothing.
- The `try`/`catch` around the position reporter: the abstract engine and host do not throw.
- The `WeakReference` of the watchdog: it becomes the `present` argument of the watchdog run.
- The remote-load listener is taken to be registered before the engine reports anything. If it were unset, the source would throw a `NullPointerException` on READY or on an error.
- The plugin bridge, the registry of sessions by audio id, and threading: the host calls are recorded in the event log, and one control sequence is assumed.
