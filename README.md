# Screen recording sample — a Dafny model of its recording core

The app records the screen of an Android device. The user taps a floating
record button. The activity asks for screen-capture consent and then starts a
foreground service. The service records through a `MediaProjection` into a
virtual display, and it runs a one-second timer. That timer reports the
elapsed time to a listener and to the notification, and it gives up after 60
seconds. A second tap stops the service and opens a preview of the file.
A view model holds the button's state (START/STOP), the status-bar colour and
the timer text. The activity observes the button action through
`distinctUntilChanged()`. An older service (the root `ScreenRecordingService.kt`)
records through `MediaRecorder` on Android 7.0, 7.1 and 10. On every other
version it uses a `MediaCodec` encoder whose output a loop drains into a
`MediaMuxer`.

The model has one module per source file:

- `RecordingService` (`recording_service.dfy`) covers `service/ScreenRecordingService.kt`:
  - `formatTime` with Kotlin's truncating division;
  - the timer coroutine, as a trace of what it reports (`TimerTrace`);
  - the cancellation of earlier timer jobs;
  - `onStartCommand` with its START and STOP branches.

  The service is a class, and its reports to the listener and the notification are appended to `events`.
- `MainViewModel` (`view_model.dfy`) covers `viewmodel/MainActivityViewModel.kt`:
  - a class with one field per `MutableLiveData`, plus the history of the values written to the button action;
  - `distinctUntilChanged()` as a pure filter over that history, with its laws.
- `Activity` (`main_activity.dfy`) covers `MainActivity.kt`. It models these handlers as methods of a class:
  - the click handler;
  - the capture-consent callback;
  - the permission callbacks;
  - the button-action observer.

  What the activity does to the outside world is appended to `effects`.
- `Paths` (`paths.dfy`) covers the output-path choice. `getOutputPath` in the activity and `startRecording` in the older service both make this choice.
- `LegacyRecording` (`legacy_recording_service.dfy`) covers the root `ScreenRecordingService.kt`. It models:
  - the version test;
  - `startRecording`;
  - one pass of the drain loop, as the pure function `DrainStep` and the method `DrainOnce`;
  - the whole loop, as `DrainRun` and the method `WriteEncodedData`;
  - `startMuxer`;
  - `stopRecording`.

  The platform media calls it makes are appended to `calls`.
- `Binding` (`view_binding_holder.dfy`) covers `ViewBindingHolder.kt`.

How platform objects are represented:

- The inflater, the views and the capture consent are opaque values.
- Each iteration of the drain loop gets a `Dequeue` value. It holds the index `dequeueOutputBuffer` answers and whether `getOutputBuffer` finds a buffer. It also says whether the `Thread.sleep` after `INFO_TRY_AGAIN_LATER` is interrupted, which is the only way the loop breaks out.
- The outcome of `MediaCodec.stop`/`release` is a `CodecTeardown` parameter.
- A Kotlin `!!` on a null value, or a read of an unassigned `lateinit` property, crashes the app. The model turns each of these into a `requires` clause.

## Model

| member | source | states |
|---|---|---|
| RecordingService.FormatTime | app/src/main/java/com/android/example/screenrecording/service/ScreenRecordingService.kt:245-249 | minutes*60 + seconds equals the input; for a non-negative input, seconds is in 0..59 and minutes >= 0; for a negative input, both parts are <= 0 (Kotlin truncation) |
| RecordingService.TimerTrace | app/src/main/java/com/android/example/screenrecording/service/ScreenRecordingService.kt:223-236 | what the timer coroutine reports when left to run from a given count; its content is stated by TimerTraceShape, TimerCountsUpToLimit and TimerNeverReportsLimit, and RunTimer is proved to produce it |
| RecordingService.TimerTraceShape | app/src/main/java/com/android/example/screenrecording/service/ScreenRecordingService.kt:221-237 | a timer left to run from t reports 2*(60-t)+2 events: each second i in t..59 goes to the listener and then to the notification, and the last two events report 0 and signal the limit |
| RecordingService.TimerNeverReportsLimit | app/src/main/java/com/android/example/screenrecording/service/ScreenRecordingService.kt:225-232 | every time the timer reports has 0 minutes and seconds below 60; the limit signal appears only as the last event |
| RecordingService.TimerCountsUpToLimit | app/src/main/java/com/android/example/screenrecording/service/ScreenRecordingService.kt:224-235 | from t, the reported clocks are exactly 00:t, 00:t+1, ..., 00:59, and then 00:00 followed by the limit signal |
| RecordingService.CancelCurrent | app/src/main/java/com/android/example/screenrecording/service/ScreenRecordingService.kt:222 | `timerJob?.cancel()` cancels only the newest job and leaves every earlier job as it was |
| RecordingService.AtMostOneTimerActive | app/src/main/java/com/android/example/screenrecording/service/ScreenRecordingService.kt:221-223 | if every job but the newest is cancelled, at most one timer is active, and one is active exactly when the newest job is |
| RecordingService.StartKeepsOneActive | app/src/main/java/com/android/example/screenrecording/service/ScreenRecordingService.kt:221-223 | cancelling the old job before launching keeps the at-most-one invariant, and exactly one timer is active afterwards |
| RecordingService.CancelIdempotent | app/src/main/java/com/android/example/screenrecording/service/ScreenRecordingService.kt:239-240 | cancelling the current job twice has the same effect as cancelling it once |
| RecordingService.ScreenRecordingService.constructor | app/src/main/java/com/android/example/screenrecording/service/ScreenRecordingService.kt:47-56 | a new service is not recording; its count is 0; it has no timer job, no listener, no projection and no display |
| RecordingService.ScreenRecordingService.SetScreenRecordingServiceInteractionListener | app/src/main/java/com/android/example/screenrecording/service/ScreenRecordingService.kt:58-60 | the listener is set |
| RecordingService.ScreenRecordingService.StartTimer | app/src/main/java/com/android/example/screenrecording/service/ScreenRecordingService.kt:221-223 | the previous job is cancelled and a new active one is launched; exactly one timer runs; the count is not reset |
| RecordingService.ScreenRecordingService.StopTimer | app/src/main/java/com/android/example/screenrecording/service/ScreenRecordingService.kt:239-243 | no timer runs, the count is 0, and 00:00 is reported to the listener |
| RecordingService.ScreenRecordingService.Tick | app/src/main/java/com/android/example/screenrecording/service/ScreenRecordingService.kt:224-235 | below the limit: the current time is reported to the listener and to the notification, and the count goes up by one; at the limit: the timer stops itself (reporting 0) and signals the limit; without an active job: nothing happens |
| RecordingService.ScreenRecordingService.RunTimer | app/src/main/java/com/android/example/screenrecording/service/ScreenRecordingService.kt:223-236 | a timer left to run appends exactly TimerTrace of its starting count and ends stopped at 0; isRecording is untouched, so the limit does not stop the recording |
| RecordingService.ScreenRecordingService.StartRecording | app/src/main/java/com/android/example/screenrecording/service/ScreenRecordingService.kt:131-160 | the service holds the projection and the display, is recording, and its recorder has started |
| RecordingService.ScreenRecordingService.StopRecording | app/src/main/java/com/android/example/screenrecording/service/ScreenRecordingService.kt:180-194 | the display and the projection are dropped, recording is off, and the recorder is released; requires a recorder that is recording |
| RecordingService.ScreenRecordingService.OnStartCommand | app/src/main/java/com/android/example/screenrecording/service/ScreenRecordingService.kt:70-90 | always returns START_NOT_STICKY; START goes foreground with the current time, records with the intent's extras (result code -1 if missing) and starts one timer; STOP releases everything, stops the foreground and the service, and resets the timer to 0; any other action changes nothing |
| RecordingService.StartWithoutListener | app/src/main/java/com/android/example/screenrecording/service/ScreenRecordingService.kt:56-89 | START sent to a fresh service without a listener being set leaves the timer running with no listener, so the next tick would read the unassigned listener (the as-written half of the first finding) |
| RecordingService.SessionWithListener | app/src/main/java/com/android/example/screenrecording/service/ScreenRecordingService.kt:58-89 | with a listener set before START, a fresh service reports: foreground started at 00:00 and recording started; then every second from 0 up to the limit; then, on STOP, the teardown events and 00:00 |
| MainViewModel.ColorDependsOnlyOnLastAction | app/src/main/java/com/android/example/screenrecording/viewmodel/MainActivityViewModel.kt:33-44 | after any sequence of actions, the status-bar colour is red if the last action was START, primary if it was STOP, and the initial colour if there was none |
| MainViewModel.DistinctUntilChanged | app/src/main/java/com/android/example/screenrecording/viewmodel/MainActivityViewModel.kt:18-20 | the observer receives no more values than were written, and only values that were written |
| MainViewModel.DistinctHasNoRepeats | app/src/main/java/com/android/example/screenrecording/viewmodel/MainActivityViewModel.kt:18-20 | the observer never receives the same value twice in a row, and never first receives the value it last saw |
| MainViewModel.DistinctAppend | app/src/main/java/com/android/example/screenrecording/viewmodel/MainActivityViewModel.kt:18-20 | a new write is delivered exactly when it differs from the last value passed on |
| MainViewModel.DistinctOfRepeatFree | app/src/main/java/com/android/example/screenrecording/viewmodel/MainActivityViewModel.kt:18-20 | a sequence without repeats passes the filter unchanged |
| MainViewModel.DistinctIdempotent | app/src/main/java/com/android/example/screenrecording/viewmodel/MainActivityViewModel.kt:18-20 | filtering twice gives the same result as filtering once |
| MainViewModel.ObservedActionsAlternate | app/src/main/java/com/android/example/screenrecording/viewmodel/MainActivityViewModel.kt:18-20 | the actions the observer receives alternate between START and STOP |
| MainViewModel.MainActivityViewModel.constructor | app/src/main/java/com/android/example/screenrecording/viewmodel/MainActivityViewModel.kt:16-31 | a new view model has no action and no time, and the primary status-bar colour |
| MainViewModel.MainActivityViewModel.SetScreenRecordButtonAction | app/src/main/java/com/android/example/screenrecording/viewmodel/MainActivityViewModel.kt:33-44 | the action is stored and appended to the history; the colour becomes red for START and primary for STOP; the time is untouched |
| MainViewModel.MainActivityViewModel.SetTime | app/src/main/java/com/android/example/screenrecording/viewmodel/MainActivityViewModel.kt:46-48 | the time text is stored as given |
| MainViewModel.MainActivityViewModel.SetStatusBarColor | app/src/main/java/com/android/example/screenrecording/viewmodel/MainActivityViewModel.kt:51-53 | the colour is stored as given |
| Paths.SplitJoin | app/src/main/java/com/android/example/screenrecording/MainActivity.kt:352 | for a file name without '/', splitting `dir/name` at its last '/' gives back both dir and name |
| Paths.RecordingOutputPath | app/src/main/java/com/android/example/screenrecording/MainActivity.kt:346-365 | the path getOutputPath builds, `<movies directory>/screen_recording.mp4`; its meaning is stated by OutputPathShape |
| Paths.OutputPathShape | app/src/main/java/com/android/example/screenrecording/MainActivity.kt:346-365 | the output file is always screen_recording.mp4; it lies in the app's movies directory up to Android 10 (API 29) and in the public movies directory after it |
| Activity.Reaction | app/src/main/java/com/android/example/screenrecording/MainActivity.kt:174-184 | the observer's reaction, and nothing else: two effects for START and three for STOP; the first animates the button icon (stop for START, play for STOP); the pulse starts only for START; the pulse stops and the preview of the output path opens only for STOP; it never sends to the service or launches a dialog |
| Activity.OutputPathWithContext | app/src/main/java/com/android/example/screenrecording/MainActivity.kt:346-365 | the path cannot be built exactly when the version is at most Android 10 and the activity has no context; whenever a path is built, it is the RecordingOutputPath for the version, so after Android 10 the public movies directory is used with or without a context |
| Activity.OutputPathInInitializer | app/src/main/java/com/android/example/screenrecording/MainActivity.kt:56 | evaluated from the property initializer, before the activity has a context, the path fails exactly on Android 10 and earlier (the as-written half of the second finding) |
| Activity.OutputPathOnceAttached | app/src/main/java/com/android/example/screenrecording/MainActivity.kt:346-365 | evaluated once the activity has its context, the path always exists, names screen_recording.mp4 and lies in the version-selected directory |
| Activity.AllGranted | app/src/main/java/com/android/example/screenrecording/MainActivity.kt:84 | true exactly when every permission result is granted |
| Activity.MissingPermissions | app/src/main/java/com/android/example/screenrecording/MainActivity.kt:102-104 | a permission is in the result exactly when it is required and not granted; the result is never longer than the required list |
| Activity.MainActivity.constructor | app/src/main/java/com/android/example/screenrecording/MainActivity.kt:56 | the output path is chosen by platform version; the new observer receives the view model's current action (if any) once and reacts to it |
| Activity.MainActivity.SetButtonAction | app/src/main/java/com/android/example/screenrecording/MainActivity.kt:172-186 | the observer reacts only when the action differs from the previous one: START gives the stop icon and the pulse; STOP gives the play icon, stops the pulse and shows the preview of the output path |
| Activity.MainActivity.OnRecordButtonClick | app/src/main/java/com/android/example/screenrecording/MainActivity.kt:207-219 | while the action is START: sends STOP to the service, then sets STOP; otherwise (STOP or none yet): only asks for capture consent and changes no state |
| Activity.MainActivity.OnScreenCaptureResult | app/src/main/java/com/android/example/screenrecording/MainActivity.kt:113-134 | only RESULT_OK with data sends START (with the code, the data and the output path) and sets START; any other result changes nothing |
| Activity.MainActivity.OnPermissionsResult | app/src/main/java/com/android/example/screenrecording/MainActivity.kt:82-90 | asks for capture consent if every permission was granted, and shows the denial message otherwise |
| Activity.MainActivity.RequestPermissionsIfNecessary | app/src/main/java/com/android/example/screenrecording/MainActivity.kt:97-111 | requests exactly the required permissions not yet granted, or goes straight to capture consent when none is missing |
| LegacyRecording.UsesMediaRecorder | app/src/main/java/com/android/example/screenrecording/ScreenRecordingService.kt:53-56 | true exactly for API levels 24, 25 and 29 |
| LegacyRecording.DrainStep | app/src/main/java/com/android/example/screenrecording/ScreenRecordingService.kt:230-254 | one pass: the loop breaks out exactly on an interrupted sleep; a started muxer's state never changes; the muxer is started after the pass exactly when it was before or the index is INFO_OUTPUT_FORMAT_CHANGED |
| LegacyRecording.DrainStepCalls | app/src/main/java/com/android/example/screenrecording/ScreenRecordingService.kt:234-250 | a present buffer is written to the video track if the muxer runs, and is always released; a missing buffer is neither written nor released; the first format change adds one track, records addTrack's answer (the next track index) and starts the muxer; TRY_AGAIN_LATER sleeps; anything else does nothing |
| LegacyRecording.DrainRun | app/src/main/java/com/android/example/screenrecording/ScreenRecordingService.kt:229-256 | the loop over a sequence of iterations, stopping at the first interrupted sleep; a started muxer's state is kept |
| LegacyRecording.RunExitsOnlyOnInterruptedSleep | app/src/main/java/com/android/example/screenrecording/ScreenRecordingService.kt:248-253 | the loop breaks out exactly when one of its sleeps is interrupted |
| LegacyRecording.MuxerStartedAtMostOnce | app/src/main/java/com/android/example/screenrecording/ScreenRecordingService.kt:243-247 | however the encoder answers, the loop calls addTrack and start at most once each, and equally often; never if the muxer was already started; exactly once when it leaves the muxer started |
| LegacyRecording.EveryBufferReleased | app/src/main/java/com/android/example/screenrecording/ScreenRecordingService.kt:234-242 | every buffer the loop meets is released exactly once, in dequeue order, whether or not the muxer runs |
| LegacyRecording.StartedMuxerWritesEveryBuffer | app/src/main/java/com/android/example/screenrecording/ScreenRecordingService.kt:238-240 | once the muxer runs, every buffer the loop meets is written exactly once, in dequeue order |
| LegacyRecording.FreshMuxerWritesAfterFormatChange | app/src/main/java/com/android/example/screenrecording/ScreenRecordingService.kt:234-247 | from a muxer not yet started, buffers met before the first format change are only released, and every buffer after it is written exactly once, in dequeue order; the written buffers are a suffix of the released ones, and none is written if the format never changes |
| LegacyRecording.WritesFollowMuxerStart | app/src/main/java/com/android/example/screenrecording/ScreenRecordingService.kt:238-247 | every sample the loop writes comes after the muxer start, and goes to the track that addTrack returned |
| LegacyRecording.WritesUseStartedTrack | app/src/main/java/com/android/example/screenrecording/ScreenRecordingService.kt:238-240 | once the muxer has started, every write goes to its video track |
| LegacyRecording.LegacyScreenRecordingService.constructor | app/src/main/java/com/android/example/screenrecording/ScreenRecordingService.kt:48-69 | a new service is not recording, its muxer has not started, the track index is -1, and no encoder, projection or display exists |
| LegacyRecording.LegacyScreenRecordingService.StartRecording | app/src/main/java/com/android/example/screenrecording/ScreenRecordingService.kt:120-189 | returns the version-dependent output path; on 24/25/29 it prepares a recorder for that path, gives its surface to the display and starts it; otherwise it creates a muxer for the path, configures the codec, gives the codec's input surface to the display, starts the codec and launches the drain loop |
| LegacyRecording.LegacyScreenRecordingService.StartMuxer | app/src/main/java/com/android/example/screenrecording/ScreenRecordingService.kt:259-262 | the muxer is started and isMuxerStarted is set |
| LegacyRecording.LegacyScreenRecordingService.DrainOnce | app/src/main/java/com/android/example/screenrecording/ScreenRecordingService.kt:231-254 | one pass of the loop body ends in the state, with the calls and with the exit decision that DrainStep gives |
| LegacyRecording.LegacyScreenRecordingService.WriteEncodedData | app/src/main/java/com/android/example/screenrecording/ScreenRecordingService.kt:226-257 | does nothing unless recording; otherwise it ends in exactly the state and with exactly the calls that DrainRun gives |
| LegacyRecording.LegacyScreenRecordingService.ReleaseCapture | app/src/main/java/com/android/example/screenrecording/ScreenRecordingService.kt:266-286 | recording is cleared; the display is released and the projection stopped only when held; the recorder is stopped, reset and released, or the codec is stopped and released; an exception from the codec's `stop` skips only its `release`, and the display, projection and (in StopRecording) muxer steps still run |
| LegacyRecording.LegacyScreenRecordingService.StopRecording | app/src/main/java/com/android/example/screenrecording/ScreenRecordingService.kt:264-294 | after ReleaseCapture, the muxer is stopped and released only when it had started; a muxer that never started is still held afterwards |
| LegacyRecording.LegacyScreenRecordingService.StopRecordingReleasingMuxer | app/src/main/java/com/android/example/screenrecording/ScreenRecordingService.kt:289-293 | the corrected teardown: a started muxer is stopped, and any muxer still held is released; afterwards no muxer is held |
| LegacyRecording.StopBeforeFormatChangeKeepsMuxer | app/src/main/java/com/android/example/screenrecording/ScreenRecordingService.kt:151-153 | on the codec path, START followed by STOP before any format change creates the muxer for the output file and never releases it (the as-written half of the third finding) |
| LegacyRecording.StopAfterAnyDrainReleasesMuxer | app/src/main/java/com/android/example/screenrecording/ScreenRecordingService.kt:289-293 | with the corrected teardown, START, any drain run, and STOP create the muxer for the output file, release it as the last call, and leave none held |
| Binding.ViewBindingHolder.constructor | app/src/main/java/com/android/example/screenrecording/ViewBindingHolder.kt:10-13 | a new holder holds no binding and has inflated nothing |
| Binding.ViewBindingHolder.Binding | app/src/main/java/com/android/example/screenrecording/ViewBindingHolder.kt:14-15 | returns the held binding; requires that one is held (`!!`) |
| Binding.ViewBindingHolder.CreateBinding | app/src/main/java/com/android/example/screenrecording/ViewBindingHolder.kt:17-20 | inflates with attachToParent = false, holds the result and returns its root view |
| Binding.ViewBindingHolder.DestroyBinding | app/src/main/java/com/android/example/screenrecording/ViewBindingHolder.kt:22-24 | no binding is held afterwards, whatever was held before |
| Binding.RecreateAfterDestroy | app/src/main/java/com/android/example/screenrecording/ViewBindingHolder.kt:17-24 | create, destroy twice, create again: the holder holds the fresh binding and returns its root, and no inflate call attaches to the parent |

## Left out

- Notifications, the notification channel and `startForeground` are not modelled as platform objects. They appear only as events.
- `getScreenMetrics` is not modelled, and neither are the encoder's size, rate and bit-rate settings.
- The coroutine timing is not modelled. That covers `delay(1000)`, `Thread.sleep(10)`, dispatchers, and `recordingScope.cancel()`. The timer is modelled as ticks of the one active job.
- Concurrency between the drain loop and `stopRecording` is not modelled. The loop reads `isRecording` on another thread; `WriteEncodedData` runs with `isRecording` fixed.
- The timer's trace ends where the source would throw. `StopTimer` and `Tick` require the listener to be set, because the listener is a `lateinit` property and reading it unset throws. The first finding below is about this.
- `onTimeUpdate` and `onTimerReachedMaxLimit` are events and not calls into an implementation. The activity does not implement the listener interface.
- Reaching the 60-second limit stops only the timer and not the recording; the model follows the code here.
- `RecordingService.ScreenRecordingService.StopRecording`: requires a recorder that is recording, because `stop()` on an unprepared or released `MediaRecorder` throws. A STOP before START, or a second STOP, is therefore outside the model.
- `getMediaProjection` returning null is not modelled. The projection and the display are assumed to be obtained.
- `LegacyRecording.LegacyScreenRecordingService.StartRecording`: the `MediaMuxer` and `MediaCodec` constructors, `prepare` and `createInputSurface` are treated as always succeeding.
- The `onStartCommand`, notification and metrics code of the root `ScreenRecordingService.kt` is not modelled. It repeats the timer service's START/STOP without a timer.
- The format string `timer_format` is not modelled. `FormatTime` yields the (minutes, seconds) pair that is passed to it.
- The LiveData lifecycle is not modelled: inactive observers and the coalescing of values written while the activity is stopped. The observer is taken to receive every write in order.
- `Activity.MainActivity.OnRecordButtonClick`: reads the current value of the filtered LiveData. This assumes the lifecycle library copies the source's value into a freshly created `distinctUntilChanged()` LiveData, as current releases do.
- `Activity.MainActivity.RequestPermissionsIfNecessary`: `MainActivity.kt` never calls it, and it is the only place that launches the permission request (MainActivity.kt:97-111). `Activity.MainActivity.OnPermissionsResult` is therefore unreachable in the app as written. Both are modelled as the code defines them.
- `Activity.MainActivity.constructor`: takes the movies directories as resolved, which is the corrected behaviour of the second finding. `mkdirs` is not modelled.
- `LegacyRecording.LegacyScreenRecordingService.StartRecording`: a second START on the codec path replaces a muxer that is still held; that leak is not tracked.
- `LegacyRecording.LegacyScreenRecordingService.ReleaseCapture`: on the MediaRecorder path it requires a recorder not yet released, because `mediaRecorder.stop()` on a released recorder throws an uncaught `IllegalStateException` (ScreenRecordingService.kt:274-277). A second STOP on Android 7.0, 7.1 or 10 is therefore outside the model.
- `LegacyRecording.LegacyScreenRecordingService.StopRecording`: inherits that requirement from ReleaseCapture, so a second STOP on the MediaRecorder path is outside the model.
- `LegacyRecording.LegacyScreenRecordingService.StopRecordingReleasingMuxer`: inherits the same requirement.
- `RecordingService.ScreenRecordingService.StartRecording`: a second START replaces the recorder, the projection and the display. The source never stops the old recorder or projection, and never releases the old display (service/ScreenRecordingService.kt:135, 146, 163-167). The model does not track these leaked objects.
- The following are not modelled: `PreviewDialog`, the fragments, `BaseFragment` and `BaseDialogFragment` (which only delegate to `ViewBindingHolder`), navigation, dragging, the opacity timer, and the view model's `dX`, `dY` and `navigationActionId`.
- The animations are modelled only as effects.

## Findings

| source | as written | input that shows it | evidently intended | confidence | as-written member | corrected member |
|---|---|---|---|---|---|---|
| app/src/main/java/com/android/example/screenrecording/service/ScreenRecordingService.kt:56-60, 221-243 | the timer and `stopTimer` report to a `lateinit` listener; no source file shown calls `setScreenRecordingServiceInteractionListener`, and the activity never binds to the service | START from the activity; the timer's first tick (line 231) reads the unassigned listener and throws | the activity binds to the service and sets the listener before the timer runs | medium, not executed (a file outside those shown might set the listener) | RecordingService.StartWithoutListener | RecordingService.SessionWithListener |
| app/src/main/java/com/android/example/screenrecording/MainActivity.kt:56, 346-352 | `recordOutputPath` is initialised by a property initializer, which runs when the activity is constructed and before it has a base context; on Android 10 and earlier `getExternalFilesDir` is then called on the missing context | any device at API level 29 or lower, on activity creation | the path is resolved in `onCreate`, after the context is attached | high, not executed | Activity.OutputPathInInitializer | Activity.OutputPathOnceAttached |
| app/src/main/java/com/android/example/screenrecording/ScreenRecordingService.kt:151-153, 289-293 | the `MediaMuxer` is created on START on the codec path, but is stopped and released only if `isMuxerStarted` | a START on API level 30 followed by STOP before the encoder's first INFO_OUTPUT_FORMAT_CHANGED | the muxer is released whenever it was created, and stopped only if it was started | medium, not executed | LegacyRecording.StopBeforeFormatChangeKeepsMuxer | LegacyRecording.LegacyScreenRecordingService.StopRecordingReleasingMuxer |
