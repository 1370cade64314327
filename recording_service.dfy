/** Model of service/ScreenRecordingService.kt: the foreground service that
    records through MediaRecorder, answers the START and STOP commands and runs
    the one-second recording timer that gives up at sixty seconds.

    Platform calls (projection, virtual display, recorder, notifications) are
    abstract events appended to `events`; the interaction listener's two
    callbacks are events too. */
module RecordingService {
  import opened Optional

  /** MAX_RECORDING_TIME_SECONDS */
  const MAX_RECORDING_TIME_SECONDS: int := 60
  /** Service.START_NOT_STICKY */
  const START_NOT_STICKY: int := 2
  const ACTION_START: string := "ACTION_START_SCREEN_RECORDING"
  const ACTION_STOP: string := "ACTION_STOP_SCREEN_RECORDING"

  // ---------------------------------------------------------------------------
  // formatTime
  // ---------------------------------------------------------------------------

  /** Kotlin's Int division, which truncates toward zero. */
  function TruncDiv(a: int, b: int): int
    requires b > 0
  {
    if a >= 0 then a / b else -((-a) / b)
  }

  /** Kotlin's Int remainder, which takes the sign of the dividend. */
  function TruncRem(a: int, b: int): int
    requires b > 0
  {
    if a >= 0 then a % b else -((-a) % b)
  }

  /** The (minutes, seconds) pair that formatTime passes to the timer_format
      string resource. */
  datatype Clock = Clock(minutes: int, seconds: int)

  /** formatTime: `seconds / 60` and `seconds % 60`. The pair always recombines
      to the input; for a non-negative input it is a proper minutes/seconds split. */
  function FormatTime(s: int): (c: Clock)
    ensures c.minutes * 60 + c.seconds == s
    ensures s >= 0 ==> 0 <= c.minutes && 0 <= c.seconds < 60
    ensures s < 0 ==> c.minutes <= 0 && -60 < c.seconds <= 0
  {
    Clock(TruncDiv(s, 60), TruncRem(s, 60))
  }

  // ---------------------------------------------------------------------------
  // What the service reports
  // ---------------------------------------------------------------------------

  datatype CaptureToken = CaptureToken(id: nat)  // the consent Intent handed over by the activity; opaque

  datatype Event =
    | TimeUpdate(time: Clock)          // listener.onTimeUpdate
    | NotificationUpdate(time: Clock)  // updateNotification
    | MaxLimitReached                  // listener.onTimerReachedMaxLimit
    | ForegroundStarted(time: Clock)   // startForeground with the first notification
    | RecordingStarted(resultCode: int, data: CaptureToken, outputPath: string)
    | RecordingStopped                 // stopRecording's teardown
    | ForegroundStopped                // stopForeground(STOP_FOREGROUND_REMOVE)
    | SelfStopped                      // stopSelf

  /** Everything one timer coroutine reports when it is left to run from
      `seconds` until it gives up: each second below the limit is sent to the
      listener and to the notification; at the limit the timer is stopped
      (which reports 0) and the limit is signalled. */
  function TimerTrace(seconds: int): seq<Event>
    requires 0 <= seconds <= MAX_RECORDING_TIME_SECONDS
    decreases MAX_RECORDING_TIME_SECONDS - seconds
  {
    if seconds == MAX_RECORDING_TIME_SECONDS then
      [TimeUpdate(FormatTime(0)), MaxLimitReached]
    else
      [TimeUpdate(FormatTime(seconds)), NotificationUpdate(FormatTime(seconds))]
      + TimerTrace(seconds + 1)
  }

  /** The timer's report, position by position: second i (from `seconds` up to
      59) is reported twice in a row, then 0 and the limit signal close it. */
  lemma {:induction false} TimerTraceShape(seconds: int)
    requires 0 <= seconds <= MAX_RECORDING_TIME_SECONDS
    ensures |TimerTrace(seconds)| == 2 * (MAX_RECORDING_TIME_SECONDS - seconds) + 2
    ensures forall i :: seconds <= i < MAX_RECORDING_TIME_SECONDS ==>
      TimerTrace(seconds)[2 * (i - seconds)] == TimeUpdate(FormatTime(i)) &&
      TimerTrace(seconds)[2 * (i - seconds) + 1] == NotificationUpdate(FormatTime(i))
    ensures TimerTrace(seconds)[2 * (MAX_RECORDING_TIME_SECONDS - seconds)..]
      == [TimeUpdate(FormatTime(0)), MaxLimitReached]
    decreases MAX_RECORDING_TIME_SECONDS - seconds
  {
    if seconds < MAX_RECORDING_TIME_SECONDS {
      TimerTraceShape(seconds + 1);
      var head := [TimeUpdate(FormatTime(seconds)), NotificationUpdate(FormatTime(seconds))];
      var tail := TimerTrace(seconds + 1);
      assert TimerTrace(seconds) == head + tail;
      forall i | seconds < i < MAX_RECORDING_TIME_SECONDS
        ensures TimerTrace(seconds)[2 * (i - seconds)] == TimeUpdate(FormatTime(i))
        ensures TimerTrace(seconds)[2 * (i - seconds) + 1] == NotificationUpdate(FormatTime(i))
      {
        assert TimerTrace(seconds)[2 * (i - seconds)] == tail[2 * (i - (seconds + 1))];
        assert TimerTrace(seconds)[2 * (i - seconds) + 1] == tail[2 * (i - (seconds + 1)) + 1];
      }
      assert TimerTrace(seconds)[2 * (MAX_RECORDING_TIME_SECONDS - seconds)..]
        == tail[2 * (MAX_RECORDING_TIME_SECONDS - (seconds + 1))..];
    }
  }

  /** No report of the timer ever shows the limit itself: every time it sends
      is below one minute, the limit signal appears exactly once and last. */
  lemma {:induction false} TimerNeverReportsLimit(seconds: int)
    requires 0 <= seconds <= MAX_RECORDING_TIME_SECONDS
    ensures forall e :: e in TimerTrace(seconds) && (e.TimeUpdate? || e.NotificationUpdate?) ==>
      e.time.minutes == 0 && 0 <= e.time.seconds < MAX_RECORDING_TIME_SECONDS
    ensures forall k :: 0 <= k < |TimerTrace(seconds)| - 1 ==> TimerTrace(seconds)[k] != MaxLimitReached
    ensures TimerTrace(seconds)[|TimerTrace(seconds)| - 1] == MaxLimitReached
    decreases MAX_RECORDING_TIME_SECONDS - seconds
  {
    if seconds < MAX_RECORDING_TIME_SECONDS {
      TimerNeverReportsLimit(seconds + 1);
      var head := [TimeUpdate(FormatTime(seconds)), NotificationUpdate(FormatTime(seconds))];
      var tail := TimerTrace(seconds + 1);
      assert TimerTrace(seconds) == head + tail;
      forall k | 2 <= k < |TimerTrace(seconds)| - 1
        ensures TimerTrace(seconds)[k] != MaxLimitReached
      {
        assert TimerTrace(seconds)[k] == tail[k - 2];
      }
    }
  }

  /** Left to run from `seconds` (0 for a fresh recording), the timer reports
      00:seconds, ..., 00:59 in this order, each twice, then 00:00 again and
      the limit signal. */
  lemma TimerCountsUpToLimit(seconds: int)
    requires 0 <= seconds <= MAX_RECORDING_TIME_SECONDS
    ensures |TimerTrace(seconds)| == 2 * (MAX_RECORDING_TIME_SECONDS - seconds) + 2
    ensures forall i :: seconds <= i < MAX_RECORDING_TIME_SECONDS ==>
      TimerTrace(seconds)[2 * (i - seconds)] == TimeUpdate(Clock(0, i)) &&
      TimerTrace(seconds)[2 * (i - seconds) + 1] == NotificationUpdate(Clock(0, i))
    ensures TimerTrace(seconds)[2 * (MAX_RECORDING_TIME_SECONDS - seconds)..]
      == [TimeUpdate(Clock(0, 0)), MaxLimitReached]
  {
    var trace := TimerTrace(seconds);
    TimerTraceShape(seconds);
    forall i | seconds <= i < MAX_RECORDING_TIME_SECONDS
      ensures trace[2 * (i - seconds)] == TimeUpdate(Clock(0, i))
      ensures trace[2 * (i - seconds) + 1] == NotificationUpdate(Clock(0, i))
    {
      assert FormatTime(i) == Clock(0, i);
    }
    assert FormatTime(0) == Clock(0, 0);
  }

  // ---------------------------------------------------------------------------
  // Timer coroutines
  // ---------------------------------------------------------------------------

  datatype JobState = Active | Cancelled

  /** `timerJob?.cancel()`: the most recently launched timer coroutine, which
      is the one `timerJob` refers to, is cancelled. */
  function CancelCurrent(jobs: seq<JobState>): (r: seq<JobState>)
    ensures |r| == |jobs|
    ensures forall i :: 0 <= i < |jobs| - 1 ==> r[i] == jobs[i]
    ensures jobs != [] ==> r[|r| - 1] == Cancelled
  {
    if jobs == [] then [] else jobs[..|jobs| - 1] + [Cancelled]
  }

  /** Every timer coroutine but the one `timerJob` refers to has been cancelled. */
  predicate OnlyCurrentMayBeActive(jobs: seq<JobState>) {
    forall i :: 0 <= i < |jobs| - 1 ==> jobs[i] == Cancelled
  }

  /** How many timer coroutines are still active. */
  function ActiveJobs(jobs: seq<JobState>): nat {
    if jobs == [] then 0
    else ActiveJobs(jobs[..|jobs| - 1]) + (if jobs[|jobs| - 1] == Active then 1 else 0)
  }

  lemma {:induction false} NoneActive(jobs: seq<JobState>)
    requires forall i :: 0 <= i < |jobs| ==> jobs[i] == Cancelled
    ensures ActiveJobs(jobs) == 0
  {
    if jobs != [] {
      NoneActive(jobs[..|jobs| - 1]);
    }
  }

  /** Because startTimer cancels the previous coroutine before launching a new
      one, at most one timer ticks, and it is the one `timerJob` refers to. */
  lemma AtMostOneTimerActive(jobs: seq<JobState>)
    requires OnlyCurrentMayBeActive(jobs)
    ensures ActiveJobs(jobs) <= 1
    ensures ActiveJobs(jobs) == 1 <==> jobs != [] && jobs[|jobs| - 1] == Active
  {
    if jobs != [] {
      NoneActive(jobs[..|jobs| - 1]);
    }
  }

  /** Starting a timer cancels the running one first, so the "at most one
      active" shape survives it. */
  lemma StartKeepsOneActive(jobs: seq<JobState>)
    requires OnlyCurrentMayBeActive(jobs)
    ensures OnlyCurrentMayBeActive(CancelCurrent(jobs) + [Active])
    ensures ActiveJobs(CancelCurrent(jobs) + [Active]) == 1
  {
    var r := CancelCurrent(jobs) + [Active];
    assert forall i :: 0 <= i < |r| - 1 ==> r[i] == Cancelled;
    AtMostOneTimerActive(r);
  }

  /** Cancelling twice is cancelling once: stopTimer's effect on the
      coroutines is idempotent. */
  lemma CancelIdempotent(jobs: seq<JobState>)
    ensures CancelCurrent(CancelCurrent(jobs)) == CancelCurrent(jobs)
  {
    if jobs != [] {
      var r := CancelCurrent(jobs);
      assert r[..|r| - 1] + [Cancelled] == r;
    }
  }

  // ---------------------------------------------------------------------------
  // The service
  // ---------------------------------------------------------------------------

  /** The service's MediaRecorder (a lateinit property). */
  datatype RecorderState = Unprepared | Recording | Released

  /** The parts of an Intent that onStartCommand reads. */
  datatype Intent = Intent(
    action: Option<string>,
    resultCode: Option<int>,          // EXTRA_RESULT_CODE
    resultData: Option<CaptureToken>, // EXTRA_RESULT_DATA
    outputPath: Option<string>)       // OUTPUT_PATH

  predicate HasAction(intent: Option<Intent>, action: string) {
    intent.Some? && intent.value.action == Some(action)
  }

  class ScreenRecordingService {
    var isRecording: bool
    var timeInSeconds: int
    /** Every timer coroutine launched so far, oldest first; the last one is `timerJob`. */
    var timerJobs: seq<JobState>
    /** Whether setScreenRecordingServiceInteractionListener has been called. */
    var hasListener: bool
    var recorder: RecorderState
    var holdsProjection: bool       // mediaProjection != null
    var holdsVirtualDisplay: bool   // virtualDisplay != null
    var events: seq<Event>

    ghost predicate Valid()
      reads this
    {
      && 0 <= timeInSeconds <= MAX_RECORDING_TIME_SECONDS
      && OnlyCurrentMayBeActive(timerJobs)
    }

    /** `timerJob` refers to a coroutine that is still active. */
    predicate TimerRunning()
      reads this
    {
      timerJobs != [] && timerJobs[|timerJobs| - 1] == Active
    }

    constructor ()
      ensures Valid()
      ensures !isRecording && timeInSeconds == 0 && timerJobs == [] && !hasListener
      ensures recorder == Unprepared && !holdsProjection && !holdsVirtualDisplay && events == []
    {
      isRecording := false;
      timeInSeconds := 0;
      timerJobs := [];
      hasListener := false;
      recorder := Unprepared;
      holdsProjection := false;
      holdsVirtualDisplay := false;
      events := [];
    }

    method SetScreenRecordingServiceInteractionListener()
      modifies this`hasListener
      ensures hasListener
    {
      hasListener := true;
    }

    /** startTimer: cancels the previous coroutine and launches a new one. It
        does not reset the count. */
    method StartTimer()
      requires Valid()
      modifies this`timerJobs
      ensures Valid() && TimerRunning() && ActiveJobs(timerJobs) == 1
      ensures timerJobs == CancelCurrent(old(timerJobs)) + [Active]
      ensures timeInSeconds == old(timeInSeconds) && events == old(events)
    {
      StartKeepsOneActive(timerJobs);
      timerJobs := CancelCurrent(timerJobs) + [Active];
    }

    /** stopTimer: cancels the coroutine, resets the count and reports 0 to
        the listener (a lateinit property, so it must have been set). */
    method StopTimer()
      requires Valid() && hasListener
      modifies this`timerJobs, this`timeInSeconds, this`events
      ensures Valid() && !TimerRunning() && ActiveJobs(timerJobs) == 0
      ensures timeInSeconds == 0
      ensures timerJobs == CancelCurrent(old(timerJobs))
      ensures events == old(events) + [TimeUpdate(FormatTime(0))]
    {
      timerJobs := CancelCurrent(timerJobs);
      AtMostOneTimerActive(timerJobs);
      timeInSeconds := 0;
      events := events + [TimeUpdate(FormatTime(timeInSeconds))];
    }

    /** One pass of the running timer coroutine's `while (isActive)` body; a
        tick when no coroutine is active does nothing. */
    method Tick()
      requires Valid() && (TimerRunning() ==> hasListener)
      modifies this`timerJobs, this`timeInSeconds, this`events
      ensures Valid()
      ensures !old(TimerRunning()) ==> unchanged(this)
      ensures old(TimerRunning()) && old(timeInSeconds) == MAX_RECORDING_TIME_SECONDS ==>
        && !TimerRunning() && timeInSeconds == 0
        && timerJobs == CancelCurrent(old(timerJobs))
        && events == old(events) + [TimeUpdate(FormatTime(0)), MaxLimitReached]
      ensures old(TimerRunning()) && old(timeInSeconds) < MAX_RECORDING_TIME_SECONDS ==>
        && TimerRunning() && timeInSeconds == old(timeInSeconds) + 1
        && timerJobs == old(timerJobs)
        && events == old(events) + [TimeUpdate(FormatTime(old(timeInSeconds))),
                                    NotificationUpdate(FormatTime(old(timeInSeconds)))]
    {
      if !TimerRunning() {
        return;
      }
      if timeInSeconds == MAX_RECORDING_TIME_SECONDS {
        StopTimer();
        events := events + [MaxLimitReached];
        return;
      }
      var time := FormatTime(timeInSeconds);
      events := events + [TimeUpdate(time)];
      events := events + [NotificationUpdate(time)];
      timeInSeconds := timeInSeconds + 1;
    }

    /** The timer coroutine left to run undisturbed: it ticks until it stops
        itself at the limit. Reaching the limit does not stop the recording. */
    method RunTimer()
      requires Valid() && TimerRunning() && hasListener
      modifies this`timerJobs, this`timeInSeconds, this`events
      ensures Valid() && !TimerRunning() && timeInSeconds == 0
      ensures events == old(events) + TimerTrace(old(timeInSeconds))
      ensures isRecording == old(isRecording)
    {
      while TimerRunning()
        invariant Valid() && hasListener
        invariant TimerRunning() ==>
          old(events) + TimerTrace(old(timeInSeconds)) == events + TimerTrace(timeInSeconds)
        invariant !TimerRunning() ==>
          timeInSeconds == 0 && events == old(events) + TimerTrace(old(timeInSeconds))
        decreases TimerRunning(), MAX_RECORDING_TIME_SECONDS - timeInSeconds
      {
        ghost var before := events;
        ghost var t := timeInSeconds;
        Tick();
        if t < MAX_RECORDING_TIME_SECONDS {
          ghost var pair := [TimeUpdate(FormatTime(t)), NotificationUpdate(FormatTime(t))];
          assert TimerTrace(t) == pair + TimerTrace(t + 1);
          assert events == before + pair;
          assert before + TimerTrace(t) == events + TimerTrace(t + 1);
        } else {
          assert events == before + TimerTrace(t);
        }
      }
    }

    /** startRecording: acquires the projection, creates the virtual display on
        the recorder's surface and starts the recorder. */
    method StartRecording(resultCode: int, data: CaptureToken, outputPath: string)
      modifies this`holdsProjection, this`holdsVirtualDisplay, this`isRecording, this`recorder, this`events
      ensures holdsProjection && holdsVirtualDisplay && isRecording && recorder == Recording
      ensures events == old(events) + [RecordingStarted(resultCode, data, outputPath)]
    {
      holdsProjection := true;
      recorder := Recording;
      holdsVirtualDisplay := true;
      isRecording := true;
      events := events + [RecordingStarted(resultCode, data, outputPath)];
    }

    /** stopRecording: releases the virtual display and the projection, then
        stops, resets and releases the recorder (which throws unless it is
        recording). */
    method StopRecording()
      requires recorder == Recording
      modifies this`holdsProjection, this`holdsVirtualDisplay, this`isRecording, this`recorder, this`events
      ensures !holdsProjection && !holdsVirtualDisplay && !isRecording && recorder == Released
      ensures events == old(events) + [RecordingStopped]
    {
      isRecording := false;
      holdsVirtualDisplay := false;
      holdsProjection := false;
      recorder := Released;
      events := events + [RecordingStopped];
    }

    /** onStartCommand. START needs the consent data and the output path (both
        read with `!!`); STOP needs a recording recorder and the listener (both
        lateinit). Any other action does nothing; every path returns
        START_NOT_STICKY. */
    method OnStartCommand(intent: Option<Intent>) returns (r: int)
      requires Valid()
      requires HasAction(intent, ACTION_START) ==>
        intent.value.resultData.Some? && intent.value.outputPath.Some?
      requires HasAction(intent, ACTION_STOP) ==> recorder == Recording && hasListener
      modifies this
      ensures Valid() && r == START_NOT_STICKY
      ensures HasAction(intent, ACTION_START) ==>
        && isRecording && recorder == Recording && holdsProjection && holdsVirtualDisplay
        && TimerRunning() && ActiveJobs(timerJobs) == 1
        && timerJobs == CancelCurrent(old(timerJobs)) + [Active]
        && timeInSeconds == old(timeInSeconds)
        && events == old(events) + [
             ForegroundStarted(FormatTime(old(timeInSeconds))),
             RecordingStarted(intent.value.resultCode.GetOr(-1), intent.value.resultData.value,
                              intent.value.outputPath.value)]
        && hasListener == old(hasListener)
      ensures HasAction(intent, ACTION_STOP) ==>
        && !isRecording && recorder == Released && !holdsProjection && !holdsVirtualDisplay
        && !TimerRunning() && ActiveJobs(timerJobs) == 0 && timeInSeconds == 0
        && timerJobs == CancelCurrent(old(timerJobs))
        && events == old(events) + [RecordingStopped, ForegroundStopped, SelfStopped,
                                    TimeUpdate(FormatTime(0))]
        && hasListener == old(hasListener)
      ensures !HasAction(intent, ACTION_START) && !HasAction(intent, ACTION_STOP) ==> unchanged(this)
    {
      if HasAction(intent, ACTION_START) {
        var resultCode := intent.value.resultCode.GetOr(-1);
        var resultData := intent.value.resultData.value;
        var outputPath := intent.value.outputPath.value;
        events := events + [ForegroundStarted(FormatTime(timeInSeconds))];
        StartRecording(resultCode, resultData, outputPath);
        StartTimer();
      } else if HasAction(intent, ACTION_STOP) {
        StopRecording();
        events := events + [ForegroundStopped];
        events := events + [SelfStopped];
        StopTimer();
      }
      r := START_NOT_STICKY;
    }
  }

  /** START sent to a fresh service, as the activity sends it, without the
      listener ever being set: the timer is left running with no listener, so
      its first tick (which reports to the listener) reads an unassigned
      lateinit property. */
  method StartWithoutListener(resultCode: int, data: CaptureToken, outputPath: string)
    returns (timerRunning: bool, listenerSet: bool)
    ensures timerRunning && !listenerSet
  {
    var service := new ScreenRecordingService();
    var r := service.OnStartCommand(Some(Intent(Some(ACTION_START), Some(resultCode), Some(data), Some(outputPath))));
    timerRunning := service.TimerRunning();
    listenerSet := service.hasListener;
  }

  /** A whole session once a listener is set before START: the service goes
      foreground, records, reports every second from `startCount` (0 for a
      fresh service) up to the limit, and STOP then tears everything down and
      reports 00:00. */
  method SessionWithListener(resultCode: int, data: CaptureToken, outputPath: string)
    returns (startCount: int, events: seq<Event>)
    ensures startCount == 0
    ensures events == [ForegroundStarted(FormatTime(startCount)), RecordingStarted(resultCode, data, outputPath)]
      + TimerTrace(startCount)
      + [RecordingStopped, ForegroundStopped, SelfStopped, TimeUpdate(FormatTime(startCount))]
  {
    var service := new ScreenRecordingService();
    service.SetScreenRecordingServiceInteractionListener();
    startCount := service.timeInSeconds;
    var r := service.OnStartCommand(Some(Intent(Some(ACTION_START), Some(resultCode), Some(data), Some(outputPath))));
    ghost var started := [ForegroundStarted(FormatTime(startCount)), RecordingStarted(resultCode, data, outputPath)];
    assert service.events == started;
    assert service.timeInSeconds == startCount && service.hasListener && service.recorder == Recording;
    service.RunTimer();
    ghost var timed := service.events;
    assert timed == started + TimerTrace(startCount);
    r := service.OnStartCommand(Some(Intent(Some(ACTION_STOP), None, None, None)));
    events := service.events;
    ghost var stopped := [RecordingStopped, ForegroundStopped, SelfStopped, TimeUpdate(FormatTime(0))];
    assert events == timed + stopped;
  }
}
