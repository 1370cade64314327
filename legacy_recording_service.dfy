/** Model of the older ScreenRecordingService.kt at the package root: on
    Android 7.0, 7.1 and 10 it records through MediaRecorder; everywhere else it
    encodes with MediaCodec and drains the encoder into a MediaMuxer itself.

    MediaCodec, MediaMuxer, MediaRecorder, the projection and the virtual
    display are opaque: what the code asks of them is appended to `calls`, and
    what they answer (a dequeued index, a missing buffer, a thrown exception,
    the track index addTrack hands out) comes in as data. */
module LegacyRecording {
  import Paths

  /** Build.VERSION_CODES.N and N_MR1 (Q is Paths.SDK_Q) */
  const SDK_N: int := 24
  const SDK_N_MR1: int := 25
  /** MediaCodec.INFO_TRY_AGAIN_LATER and INFO_OUTPUT_FORMAT_CHANGED */
  const INFO_TRY_AGAIN_LATER: int := -1
  const INFO_OUTPUT_FORMAT_CHANGED: int := -2

  /** androidVersionIs24Or25Or29: the platform versions that use MediaRecorder. */
  function UsesMediaRecorder(sdk: int): (r: bool)
    ensures r <==> sdk in {24, 25, 29}
  {
    sdk == SDK_N || sdk == SDK_N_MR1 || sdk == Paths.SDK_Q
  }

  // ---------------------------------------------------------------------------
  // What the service asks of the platform
  // ---------------------------------------------------------------------------

  datatype Surface = RecorderSurface | CodecInputSurface

  datatype MediaCall =
    | GetMediaProjection(resultCode: int)
    | CreateMuxer(path: string)
    | SetupRecorder(path: string)
    | SetupCodec
    | CreateVirtualDisplay(surface: Surface)
    | RecorderStart
    | CodecStart
    | LaunchDrainLoop
    | WriteSample(track: int, bufferIndex: int)
    | ReleaseOutputBuffer(bufferIndex: int)
    | AddTrack
    | MuxerStart
    | SleepBeforeRetry
    | ReleaseVirtualDisplay
    | StopProjection
    | RecorderStop
    | RecorderReset
    | RecorderRelease
    | CodecStop
    | CodecRelease
    | MuxerStop
    | MuxerRelease

  // ---------------------------------------------------------------------------
  // The drain loop, one iteration at a time
  // ---------------------------------------------------------------------------

  /** What one iteration of writeEncodedData meets: the index
      dequeueOutputBuffer answers, whether getOutputBuffer finds a buffer for a
      non-negative index, and whether the `Thread.sleep` taken after
      INFO_TRY_AGAIN_LATER is interrupted. `bufferPresent` matters only for a
      non-negative index and `sleepInterrupted` only for INFO_TRY_AGAIN_LATER. */
  datatype Dequeue = Dequeued(index: int, bufferPresent: bool, sleepInterrupted: bool)

  /** The InterruptedException that ends the loop can only come from the sleep. */
  predicate StopsLoop(o: Dequeue) {
    o.index == INFO_TRY_AGAIN_LATER && o.sleepInterrupted
  }

  /** An output buffer that is there to be written and released. */
  predicate HasBuffer(o: Dequeue) {
    o.index >= 0 && o.bufferPresent
  }

  /** The flags the drain loop reads and writes, and how many tracks the
      current muxer holds (addTrack answers with the next track index). */
  datatype Drain = Drain(isMuxerStarted: bool, videoTrackIndex: int, muxerTracks: nat)

  datatype Step = Step(drain: Drain, calls: seq<MediaCall>, exit: bool)

  /** One iteration of the `while (isRecording)` body. What it asks of the
      codec and the muxer is stated by DrainStepCalls. */
  function DrainStep(d: Drain, o: Dequeue): (s: Step)
    ensures s.exit <==> StopsLoop(o)
    ensures d.isMuxerStarted ==> s.drain == d
    ensures s.drain.isMuxerStarted <==>
      d.isMuxerStarted || o.index == INFO_OUTPUT_FORMAT_CHANGED
  {
    if o.index >= 0 then
      if !o.bufferPresent then Step(d, [], false)
      else Step(d, (if d.isMuxerStarted then [WriteSample(d.videoTrackIndex, o.index)] else [])
                   + [ReleaseOutputBuffer(o.index)], false)
    else if o.index == INFO_OUTPUT_FORMAT_CHANGED then
      if d.isMuxerStarted then Step(d, [], false)
      else Step(Drain(true, d.muxerTracks, d.muxerTracks + 1), [AddTrack, MuxerStart], false)
    else if o.index == INFO_TRY_AGAIN_LATER then Step(d, [SleepBeforeRetry], o.sleepInterrupted)
    else Step(d, [], false)
  }

  /** What one iteration asks of the codec and the muxer. */
  lemma DrainStepCalls(d: Drain, o: Dequeue)
    // a present buffer is written when the muxer runs, and released in any case
    ensures HasBuffer(o) ==>
      DrainStep(d, o).calls == (if d.isMuxerStarted then [WriteSample(d.videoTrackIndex, o.index)] else [])
                               + [ReleaseOutputBuffer(o.index)]
    // `?: continue`: a missing buffer is neither written nor released
    ensures o.index >= 0 && !o.bufferPresent ==> DrainStep(d, o).calls == [] && DrainStep(d, o).drain == d
    // the first format change adds the one track and starts the muxer on it
    ensures o.index == INFO_OUTPUT_FORMAT_CHANGED && !d.isMuxerStarted ==>
      && DrainStep(d, o).drain == Drain(true, d.muxerTracks, d.muxerTracks + 1)
      && DrainStep(d, o).calls == [AddTrack, MuxerStart]
    // a later format change, and any other negative index, does nothing
    ensures (o.index < 0 && o.index != INFO_TRY_AGAIN_LATER &&
             (o.index != INFO_OUTPUT_FORMAT_CHANGED || d.isMuxerStarted)) ==>
      DrainStep(d, o).calls == [] && DrainStep(d, o).drain == d
    ensures o.index == INFO_TRY_AGAIN_LATER ==>
      DrainStep(d, o).calls == [SleepBeforeRetry] && DrainStep(d, o).drain == d
  {
  }

  /** The drain loop run over `os` while recording: it stops at the first
      interrupted sleep or when `os` runs out. */
  function DrainRun(d: Drain, os: seq<Dequeue>): (r: Step)
    ensures d.isMuxerStarted ==> r.drain == d
    decreases |os|
  {
    if os == [] then Step(d, [], false)
    else
      var s := DrainStep(d, os[0]);
      if s.exit then s
      else
        var rest := DrainRun(s.drain, os[1..]);
        Step(rest.drain, s.calls + rest.calls, rest.exit)
  }

  /** The loop breaks out exactly when some sleep it takes is interrupted;
      no answer of the codec ends it. */
  lemma {:induction false} RunExitsOnlyOnInterruptedSleep(d: Drain, os: seq<Dequeue>)
    ensures DrainRun(d, os).exit <==> exists k :: 0 <= k < |os| && StopsLoop(os[k])
    decreases |os|
  {
    if os != [] {
      var s := DrainStep(d, os[0]);
      if !s.exit {
        RunExitsOnlyOnInterruptedSleep(s.drain, os[1..]);
        assert forall k :: 1 <= k < |os| ==> os[k] == os[1..][k - 1];
      }
    }
  }

  /** The run over `os` is one step followed by the run over the rest. */
  lemma DrainRunUnfold(d: Drain, os: seq<Dequeue>)
    requires os != []
    ensures !DrainStep(d, os[0]).exit ==>
      && DrainRun(d, os).drain == DrainRun(DrainStep(d, os[0]).drain, os[1..]).drain
      && DrainRun(d, os).calls == DrainStep(d, os[0]).calls + DrainRun(DrainStep(d, os[0]).drain, os[1..]).calls
    ensures DrainStep(d, os[0]).exit ==> DrainRun(d, os) == DrainStep(d, os[0])
  {
  }

  /** How often `c` occurs among the calls. */
  function Occurrences(calls: seq<MediaCall>, c: MediaCall): nat {
    multiset(calls)[c]
  }

  /** However the encoder answers, the loop adds at most one track and starts
      the muxer at most once per session, and does neither if the muxer was
      already started; it does both exactly when it leaves the muxer started. */
  lemma {:induction false} MuxerStartedAtMostOnce(d: Drain, os: seq<Dequeue>)
    ensures Occurrences(DrainRun(d, os).calls, MuxerStart) <= (if d.isMuxerStarted then 0 else 1)
    ensures Occurrences(DrainRun(d, os).calls, AddTrack) == Occurrences(DrainRun(d, os).calls, MuxerStart)
    ensures Occurrences(DrainRun(d, os).calls, MuxerStart) == 1 <==>
      !d.isMuxerStarted && DrainRun(d, os).drain.isMuxerStarted
    decreases |os|
  {
    if os != [] {
      var s := DrainStep(d, os[0]);
      DrainRunUnfold(d, os);
      DrainStepCalls(d, os[0]);
      if !s.exit {
        MuxerStartedAtMostOnce(s.drain, os[1..]);
      }
    }
  }

  /** The indices of the buffers written to the muxer, in call order. */
  function WrittenBuffers(calls: seq<MediaCall>): seq<int> {
    if calls == [] then []
    else (if calls[0].WriteSample? then [calls[0].bufferIndex] else []) + WrittenBuffers(calls[1..])
  }

  /** The indices of the buffers handed back to the codec, in call order. */
  function ReleasedBuffers(calls: seq<MediaCall>): seq<int> {
    if calls == [] then []
    else (if calls[0].ReleaseOutputBuffer? then [calls[0].bufferIndex] else []) + ReleasedBuffers(calls[1..])
  }

  lemma {:induction false} WrittenAppend(a: seq<MediaCall>, b: seq<MediaCall>)
    ensures WrittenBuffers(a + b) == WrittenBuffers(a) + WrittenBuffers(b)
    decreases |a|
  {
    if a == [] {
      assert a + b == b;
    } else {
      assert (a + b)[0] == a[0] && (a + b)[1..] == a[1..] + b;
      WrittenAppend(a[1..], b);
    }
  }

  lemma {:induction false} ReleasedAppend(a: seq<MediaCall>, b: seq<MediaCall>)
    ensures ReleasedBuffers(a + b) == ReleasedBuffers(a) + ReleasedBuffers(b)
    decreases |a|
  {
    if a == [] {
      assert a + b == b;
    } else {
      assert (a + b)[0] == a[0] && (a + b)[1..] == a[1..] + b;
      ReleasedAppend(a[1..], b);
    }
  }

  /** The indices of the buffers the loop meets before it stops, in order. */
  function PresentBuffers(os: seq<Dequeue>): seq<int>
    decreases |os|
  {
    if os == [] || StopsLoop(os[0]) then []
    else (if HasBuffer(os[0]) then [os[0].index] else []) + PresentBuffers(os[1..])
  }

  /** The buffers one step writes and releases. */
  lemma StepBuffers(d: Drain, o: Dequeue)
    ensures ReleasedBuffers(DrainStep(d, o).calls) == (if HasBuffer(o) then [o.index] else [])
    ensures WrittenBuffers(DrainStep(d, o).calls) ==
      (if HasBuffer(o) && d.isMuxerStarted then [o.index] else [])
  {
    DrainStepCalls(d, o);
    var calls := DrainStep(d, o).calls;
    if HasBuffer(o) && d.isMuxerStarted {
      var w, r := WriteSample(d.videoTrackIndex, o.index), ReleaseOutputBuffer(o.index);
      assert calls == [w, r] && calls[1..] == [r] && calls[1..][1..] == [];
    } else if HasBuffer(o) {
      assert calls[1..] == [];
    } else if o.index == INFO_OUTPUT_FORMAT_CHANGED && !d.isMuxerStarted {
      assert calls[1..] == [MuxerStart] && calls[1..][1..] == [];
    } else if o.index == INFO_TRY_AGAIN_LATER {
      assert calls[1..] == [];
    }
  }

  /** Every buffer the loop meets is released exactly once, in dequeue order,
      whether or not the muxer runs. */
  lemma {:induction false} EveryBufferReleased(d: Drain, os: seq<Dequeue>)
    ensures ReleasedBuffers(DrainRun(d, os).calls) == PresentBuffers(os)
    decreases |os|
  {
    if os != [] {
      var s := DrainStep(d, os[0]);
      DrainRunUnfold(d, os);
      StepBuffers(d, os[0]);
      if !s.exit {
        EveryBufferReleased(s.drain, os[1..]);
        ReleasedAppend(s.calls, DrainRun(s.drain, os[1..]).calls);
      }
    }
  }

  /** Once the muxer runs, every buffer the loop meets is written exactly
      once, in dequeue order: no frame is dropped. */
  lemma {:induction false} StartedMuxerWritesEveryBuffer(d: Drain, os: seq<Dequeue>)
    requires d.isMuxerStarted
    ensures WrittenBuffers(DrainRun(d, os).calls) == PresentBuffers(os)
    decreases |os|
  {
    if os != [] {
      var s := DrainStep(d, os[0]);
      DrainRunUnfold(d, os);
      StepBuffers(d, os[0]);
      if !s.exit {
        StartedMuxerWritesEveryBuffer(s.drain, os[1..]);
        WrittenAppend(s.calls, DrainRun(s.drain, os[1..]).calls);
      }
    }
  }

  /** The buffers the loop meets after its first format change and before it
      stops: none if the format never changes. */
  function BuffersAfterFormatChange(os: seq<Dequeue>): seq<int>
    decreases |os|
  {
    if os == [] || StopsLoop(os[0]) then []
    else if os[0].index == INFO_OUTPUT_FORMAT_CHANGED then PresentBuffers(os[1..])
    else BuffersAfterFormatChange(os[1..])
  }

  /** A suffix of `p` is still a suffix once something is put in front. */
  lemma SuffixOfLonger(h: seq<int>, p: seq<int>, n: nat)
    requires n <= |p|
    ensures (h + p)[|h + p| - n..] == p[|p| - n..]
  {
    var whole, part := (h + p)[|h + p| - n..], p[|p| - n..];
    assert forall k :: 0 <= k < |whole| ==> whole[k] == part[k];
  }

  /** The buffers met after the first format change end the buffers met. */
  lemma {:induction false} AfterFormatChangeIsSuffix(os: seq<Dequeue>)
    ensures |BuffersAfterFormatChange(os)| <= |PresentBuffers(os)|
    ensures PresentBuffers(os)[|PresentBuffers(os)| - |BuffersAfterFormatChange(os)|..] == BuffersAfterFormatChange(os)
    decreases |os|
  {
    if os != [] && !StopsLoop(os[0]) && os[0].index != INFO_OUTPUT_FORMAT_CHANGED {
      AfterFormatChangeIsSuffix(os[1..]);
      var head := if HasBuffer(os[0]) then [os[0].index] else [];
      assert PresentBuffers(os) == head + PresentBuffers(os[1..]);
      SuffixOfLonger(head, PresentBuffers(os[1..]), |BuffersAfterFormatChange(os[1..])|);
    }
  }

  /** From a muxer that has not started, the buffers met before the first
      format change are only released; every buffer met after it is written
      exactly once, in dequeue order. The written ones are thus a suffix of
      the released ones. */
  lemma {:induction false} FreshMuxerWritesAfterFormatChange(d: Drain, os: seq<Dequeue>)
    requires !d.isMuxerStarted
    ensures WrittenBuffers(DrainRun(d, os).calls) == BuffersAfterFormatChange(os)
    ensures ReleasedBuffers(DrainRun(d, os).calls) == PresentBuffers(os)
    ensures |BuffersAfterFormatChange(os)| <= |PresentBuffers(os)|
    ensures PresentBuffers(os)[|PresentBuffers(os)| - |BuffersAfterFormatChange(os)|..] == BuffersAfterFormatChange(os)
    decreases |os|
  {
    EveryBufferReleased(d, os);
    AfterFormatChangeIsSuffix(os);
    if os != [] {
      var s := DrainStep(d, os[0]);
      DrainRunUnfold(d, os);
      StepBuffers(d, os[0]);
      if !s.exit {
        WrittenAppend(s.calls, DrainRun(s.drain, os[1..]).calls);
        if os[0].index == INFO_OUTPUT_FORMAT_CHANGED {
          StartedMuxerWritesEveryBuffer(s.drain, os[1..]);
        } else {
          FreshMuxerWritesAfterFormatChange(s.drain, os[1..]);
        }
      }
    }
  }

  /** Every write in `calls` comes after a muxer start and goes to `track`. */
  predicate WritesAfterStart(calls: seq<MediaCall>, track: int) {
    forall k :: 0 <= k < |calls| && calls[k].WriteSample? ==>
      MuxerStart in calls[..k] && calls[k].track == track
  }

  /** Putting calls that write nothing in front keeps every write after a
      muxer start, if they start the muxer or the later calls do. */
  lemma PrefixWithoutWrites(pre: seq<MediaCall>, rest: seq<MediaCall>, track: int)
    requires forall k :: 0 <= k < |pre| ==> !pre[k].WriteSample?
    requires forall k :: 0 <= k < |rest| && rest[k].WriteSample? ==>
      (MuxerStart in pre || MuxerStart in rest[..k]) && rest[k].track == track
    ensures WritesAfterStart(pre + rest, track)
  {
    var all := pre + rest;
    forall k | 0 <= k < |all| && all[k].WriteSample?
      ensures MuxerStart in all[..k] && all[k].track == track
    {
      assert all[k] == rest[k - |pre|];
      if MuxerStart in pre {
        var j :| 0 <= j < |pre| && pre[j] == MuxerStart;
        assert all[..k][j] == MuxerStart;
      } else {
        var j :| 0 <= j < k - |pre| && rest[..k - |pre|][j] == MuxerStart;
        assert all[..k][|pre| + j] == MuxerStart;
      }
    }
  }

  /** Every sample the loop writes goes to the track the muxer handed out,
      and comes after the muxer was started. */
  lemma {:induction false} WritesFollowMuxerStart(d: Drain, os: seq<Dequeue>)
    requires !d.isMuxerStarted
    ensures WritesAfterStart(DrainRun(d, os).calls, DrainRun(d, os).drain.videoTrackIndex)
    decreases |os|
  {
    if os != [] {
      var s := DrainStep(d, os[0]);
      DrainRunUnfold(d, os);
      DrainStepCalls(d, os[0]);
      if s.exit {
        assert s.calls == [SleepBeforeRetry];
      } else {
        var rest := DrainRun(s.drain, os[1..]);
        assert forall k :: 0 <= k < |s.calls| ==> !s.calls[k].WriteSample?;
        if s.drain.isMuxerStarted {
          // the format change that started the muxer was this very step
          assert s.calls[1] == MuxerStart;
          WritesUseStartedTrack(s.drain, os[1..]);
        } else {
          WritesFollowMuxerStart(s.drain, os[1..]);
        }
        PrefixWithoutWrites(s.calls, rest.calls, rest.drain.videoTrackIndex);
      }
    }
  }

  /** Once the muxer is started, the loop writes only to its track. */
  lemma {:induction false} WritesUseStartedTrack(d: Drain, os: seq<Dequeue>)
    requires d.isMuxerStarted
    ensures forall k :: 0 <= k < |DrainRun(d, os).calls| && DrainRun(d, os).calls[k].WriteSample? ==>
      DrainRun(d, os).calls[k].track == d.videoTrackIndex
    decreases |os|
  {
    if os != [] {
      var s := DrainStep(d, os[0]);
      DrainRunUnfold(d, os);
      DrainStepCalls(d, os[0]);
      if !s.exit {
        WritesUseStartedTrack(s.drain, os[1..]);
        var all := s.calls + DrainRun(s.drain, os[1..]).calls;
        forall k | 0 <= k < |all| && all[k].WriteSample?
          ensures all[k].track == d.videoTrackIndex
        {
          if k >= |s.calls| {
            assert all[k] == DrainRun(s.drain, os[1..]).calls[k - |s.calls|];
          }
        }
      }
    }
  }

  /** The loop's bookkeeping across one iteration: if the run from the start
      is what has been done so far followed by the run from iteration i, then
      after iteration i it is what has been done followed by the run from i + 1,
      or, if iteration i broke out, exactly what has been done. */
  lemma RunAfterIteration(d0: Drain, os: seq<Dequeue>, i: nat, d: Drain, done: seq<MediaCall>)
    requires i < |os|
    requires DrainRun(d0, os).drain == DrainRun(d, os[i..]).drain
    requires DrainRun(d0, os).calls == done + DrainRun(d, os[i..]).calls
    ensures !DrainStep(d, os[i]).exit ==>
      && DrainRun(d0, os).drain == DrainRun(DrainStep(d, os[i]).drain, os[i + 1..]).drain
      && DrainRun(d0, os).calls == (done + DrainStep(d, os[i]).calls) + DrainRun(DrainStep(d, os[i]).drain, os[i + 1..]).calls
    ensures DrainStep(d, os[i]).exit ==>
      && DrainRun(d0, os).drain == DrainStep(d, os[i]).drain
      && DrainRun(d0, os).calls == done + DrainStep(d, os[i]).calls
  {
    assert os[i..][0] == os[i] && os[i..][1..] == os[i + 1..];
    DrainRunUnfold(d, os[i..]);
  }

  // ---------------------------------------------------------------------------
  // The service
  // ---------------------------------------------------------------------------

  /** How MediaCodec's stop/release behave at teardown: an
      IllegalStateException from either is caught and logged. */
  datatype CodecTeardown = StopsCleanly | StopThrows | ReleaseThrows

  /** The codec calls stopRecording gets through before an exception. */
  function CodecTeardownCalls(t: CodecTeardown): seq<MediaCall> {
    match t
    case StopsCleanly => [CodecStop, CodecRelease]
    case StopThrows => [CodecStop]
    case ReleaseThrows => [CodecStop, CodecRelease]
  }

  class LegacyScreenRecordingService {
    /** Build.VERSION.SDK_INT */
    const androidVersion: int
    var isRecording: bool
    var isMuxerStarted: bool
    var videoTrackIndex: int
    /** Tracks added to the current muxer. */
    var muxerTracks: nat
    /** Whether setupVideoEncoder has assigned the lateinit recorder or codec. */
    var encoderReady: bool
    /** Whether the lateinit recorder has been released. */
    var recorderReleased: bool
    var holdsProjection: bool       // mediaProjection != null
    var holdsVirtualDisplay: bool   // virtualDisplay != null
    /** Whether a MediaMuxer has been created and not released since. */
    var holdsMuxer: bool
    var calls: seq<MediaCall>

    function DrainState(): Drain
      reads this
    {
      Drain(isMuxerStarted, videoTrackIndex, muxerTracks)
    }

    constructor (sdk: int)
      ensures androidVersion == sdk
      ensures !isRecording && !isMuxerStarted && videoTrackIndex == -1 && muxerTracks == 0
      ensures !encoderReady && !recorderReleased && !holdsProjection && !holdsVirtualDisplay
      ensures !holdsMuxer && calls == []
    {
      androidVersion := sdk;
      isRecording := false;
      isMuxerStarted := false;
      videoTrackIndex := -1;
      muxerTracks := 0;
      encoderReady := false;
      recorderReleased := false;
      holdsProjection := false;
      holdsVirtualDisplay := false;
      holdsMuxer := false;
      calls := [];
    }

    /** startRecording: picks the output path, then either hands the virtual
        display the recorder's surface, or creates the muxer, hands it the
        codec's input surface and launches the drain loop. */
    method StartRecording(resultCode: int, appMoviesDir: string, publicMoviesDir: string)
      returns (outputPath: string)
      modifies this`isRecording, this`muxerTracks, this`encoderReady, this`recorderReleased,
        this`holdsProjection, this`holdsVirtualDisplay, this`holdsMuxer, this`calls
      ensures outputPath == Paths.RecordingOutputPath(androidVersion, appMoviesDir, publicMoviesDir)
      ensures isRecording && encoderReady && holdsProjection && holdsVirtualDisplay
      ensures UsesMediaRecorder(androidVersion) ==>
        && !recorderReleased && muxerTracks == old(muxerTracks) && holdsMuxer == old(holdsMuxer)
        && calls == old(calls) + [GetMediaProjection(resultCode), SetupRecorder(outputPath),
                                  CreateVirtualDisplay(RecorderSurface), RecorderStart]
      ensures !UsesMediaRecorder(androidVersion) ==>
        && recorderReleased == old(recorderReleased) && muxerTracks == 0 && holdsMuxer
        && calls == old(calls) + [GetMediaProjection(resultCode), CreateMuxer(outputPath), SetupCodec,
                                  CreateVirtualDisplay(CodecInputSurface), CodecStart, LaunchDrainLoop]
      ensures isMuxerStarted == old(isMuxerStarted) && videoTrackIndex == old(videoTrackIndex)
    {
      calls := calls + [GetMediaProjection(resultCode)];
      holdsProjection := true;
      outputPath := Paths.RecordingOutputPath(androidVersion, appMoviesDir, publicMoviesDir);
      if UsesMediaRecorder(androidVersion) {
        // setupVideoEncoder prepares a MediaRecorder; its surface feeds the display
        calls := calls + [SetupRecorder(outputPath)];
        recorderReleased := false;
        encoderReady := true;
        calls := calls + [CreateVirtualDisplay(RecorderSurface)];
        holdsVirtualDisplay := true;
        isRecording := true;
        calls := calls + [RecorderStart];
      } else {
        // a muxer for the path, a configured codec whose input surface feeds
        // the display, and the drain loop
        calls := calls + [CreateMuxer(outputPath)];
        holdsMuxer := true;
        muxerTracks := 0;
        calls := calls + [SetupCodec];
        encoderReady := true;
        calls := calls + [CreateVirtualDisplay(CodecInputSurface)];
        holdsVirtualDisplay := true;
        isRecording := true;
        calls := calls + [CodecStart];
        calls := calls + [LaunchDrainLoop];
      }
    }

    /** startMuxer */
    method StartMuxer()
      modifies this`isMuxerStarted, this`calls
      ensures isMuxerStarted && calls == old(calls) + [MuxerStart]
    {
      calls := calls + [MuxerStart];
      isMuxerStarted := true;
    }

    /** writeEncodedData: the drain loop, over the encoder's answers `os`.
        Nothing runs unless recording; otherwise it ends in the state and
        with the calls DrainRun gives. */
    method WriteEncodedData(os: seq<Dequeue>)
      requires encoderReady && !UsesMediaRecorder(androidVersion)
      modifies this`isMuxerStarted, this`videoTrackIndex, this`muxerTracks, this`calls
      ensures !old(isRecording) ==> unchanged(this)
      ensures old(isRecording) ==>
        && DrainState() == DrainRun(old(DrainState()), os).drain
        && calls == old(calls) + DrainRun(old(DrainState()), os).calls
    {
      if !isRecording {
        return;
      }
      ghost var d0 := DrainState();
      ghost var calls0 := calls;
      ghost var done: seq<MediaCall> := [];
      var i := 0;
      var interrupted := false;
      while i < |os| && !interrupted
        invariant 0 <= i <= |os|
        invariant calls == calls0 + done
        invariant !interrupted ==>
          && DrainRun(d0, os).drain == DrainRun(DrainState(), os[i..]).drain
          && DrainRun(d0, os).calls == done + DrainRun(DrainState(), os[i..]).calls
        invariant interrupted ==>
          && DrainState() == DrainRun(d0, os).drain
          && done == DrainRun(d0, os).calls
      {
        ghost var d := DrainState();
        RunAfterIteration(d0, os, i, d, done);
        interrupted := DrainOnce(os[i]);
        done := done + DrainStep(d, os[i]).calls;
        i := i + 1;
      }
      if !interrupted {
        assert os[i..] == [];
      }
    }

    /** One pass of writeEncodedData's loop body on what the iteration meets;
        `interrupted` tells whether the loop breaks out. */
    method DrainOnce(o: Dequeue) returns (interrupted: bool)
      modifies this`isMuxerStarted, this`videoTrackIndex, this`muxerTracks, this`calls
      ensures interrupted == DrainStep(old(DrainState()), o).exit
      ensures DrainState() == DrainStep(old(DrainState()), o).drain
      ensures calls == old(calls) + DrainStep(old(DrainState()), o).calls
    {
      interrupted := false;
      if o.index >= 0 {
        if o.bufferPresent {
          if isMuxerStarted {
            calls := calls + [WriteSample(videoTrackIndex, o.index), ReleaseOutputBuffer(o.index)];
          } else {
            calls := calls + [ReleaseOutputBuffer(o.index)];
          }
        }
      } else if o.index == INFO_OUTPUT_FORMAT_CHANGED {
        if !isMuxerStarted {
          calls := calls + [AddTrack];
          videoTrackIndex := muxerTracks;
          muxerTracks := muxerTracks + 1;
          StartMuxer();
        }
      } else if o.index == INFO_TRY_AGAIN_LATER {
        calls := calls + [SleepBeforeRetry];
        interrupted := o.sleepInterrupted;
      }
    }

    /** The part of stopRecording before the muxer: clears isRecording, drops
        the virtual display and the projection, and tears the encoder down
        (codec exceptions are swallowed). */
    method ReleaseCapture(codec: CodecTeardown)
      requires encoderReady
      requires UsesMediaRecorder(androidVersion) ==> !recorderReleased
      modifies this`isRecording, this`recorderReleased, this`holdsProjection, this`holdsVirtualDisplay, this`calls
      ensures !isRecording && !holdsProjection && !holdsVirtualDisplay
      ensures recorderReleased == (old(recorderReleased) || UsesMediaRecorder(androidVersion))
      ensures calls == old(calls)
        + (if old(holdsVirtualDisplay) then [ReleaseVirtualDisplay] else [])
        + (if old(holdsProjection) then [StopProjection] else [])
        + (if UsesMediaRecorder(androidVersion) then [RecorderStop, RecorderReset, RecorderRelease]
           else CodecTeardownCalls(codec))
    {
      isRecording := false;
      ghost var start := calls;
      if holdsVirtualDisplay {
        calls := calls + [ReleaseVirtualDisplay];
      }
      holdsVirtualDisplay := false;
      ghost var afterDisplay := calls;
      if holdsProjection {
        calls := calls + [StopProjection];
      }
      holdsProjection := false;
      ghost var afterProjection := calls;
      if UsesMediaRecorder(androidVersion) {
        calls := calls + [RecorderStop, RecorderReset, RecorderRelease];
        recorderReleased := true;
      } else {
        calls := calls + [CodecStop];
        if codec != StopThrows {
          calls := calls + [CodecRelease];
        }
        assert calls == afterProjection + CodecTeardownCalls(codec);
      }
      assert afterDisplay == start + (if old(holdsVirtualDisplay) then [ReleaseVirtualDisplay] else []);
      assert afterProjection == afterDisplay + (if old(holdsProjection) then [StopProjection] else []);
    }

    /** stopRecording as written: after releasing the capture it stops and
        releases the muxer only if the muxer was started, so a muxer that
        never saw a format change is kept. */
    method StopRecording(codec: CodecTeardown)
      requires encoderReady
      requires UsesMediaRecorder(androidVersion) ==> !recorderReleased
      modifies this`isRecording, this`isMuxerStarted, this`recorderReleased,
        this`holdsProjection, this`holdsVirtualDisplay, this`holdsMuxer, this`calls
      ensures !isRecording && !isMuxerStarted && !holdsProjection && !holdsVirtualDisplay
      ensures holdsMuxer == (old(holdsMuxer) && !old(isMuxerStarted))
      ensures recorderReleased == (old(recorderReleased) || UsesMediaRecorder(androidVersion))
      ensures calls == old(calls)
        + (if old(holdsVirtualDisplay) then [ReleaseVirtualDisplay] else [])
        + (if old(holdsProjection) then [StopProjection] else [])
        + (if UsesMediaRecorder(androidVersion) then [RecorderStop, RecorderReset, RecorderRelease]
           else CodecTeardownCalls(codec))
        + (if old(isMuxerStarted) then [MuxerStop, MuxerRelease] else [])
    {
      ReleaseCapture(codec);
      if isMuxerStarted {
        calls := calls + [MuxerStop, MuxerRelease];
        isMuxerStarted := false;
        holdsMuxer := false;
      }
    }

    /** stopRecording with the muxer teardown corrected: it stops the muxer if
        it was started and releases any muxer the service still holds. */
    method StopRecordingReleasingMuxer(codec: CodecTeardown)
      requires encoderReady
      requires UsesMediaRecorder(androidVersion) ==> !recorderReleased
      modifies this`isRecording, this`isMuxerStarted, this`recorderReleased,
        this`holdsProjection, this`holdsVirtualDisplay, this`holdsMuxer, this`calls
      ensures !isRecording && !isMuxerStarted && !holdsProjection && !holdsVirtualDisplay && !holdsMuxer
      ensures recorderReleased == (old(recorderReleased) || UsesMediaRecorder(androidVersion))
      ensures calls == old(calls)
        + (if old(holdsVirtualDisplay) then [ReleaseVirtualDisplay] else [])
        + (if old(holdsProjection) then [StopProjection] else [])
        + (if UsesMediaRecorder(androidVersion) then [RecorderStop, RecorderReset, RecorderRelease]
           else CodecTeardownCalls(codec))
        + (if old(isMuxerStarted) then [MuxerStop] else [])
        + (if old(holdsMuxer) || old(isMuxerStarted) then [MuxerRelease] else [])
    {
      ReleaseCapture(codec);
      ghost var afterCapture := calls;
      if isMuxerStarted {
        calls := calls + [MuxerStop];
      }
      ghost var afterStop := calls;
      if holdsMuxer || isMuxerStarted {
        calls := calls + [MuxerRelease];
      }
      isMuxerStarted := false;
      holdsMuxer := false;
      assert afterStop == afterCapture + (if old(isMuxerStarted) then [MuxerStop] else []);
    }
  }

  /** A codec-path recording stopped before the encoder's first format change,
      as the service is written: the muxer created for the file is never
      released. */
  method StopBeforeFormatChangeKeepsMuxer(sdk: int, resultCode: int, appMoviesDir: string, publicMoviesDir: string)
    returns (muxerStillHeld: bool, calls: seq<MediaCall>)
    requires !UsesMediaRecorder(sdk)
    ensures muxerStillHeld
    ensures CreateMuxer(Paths.RecordingOutputPath(sdk, appMoviesDir, publicMoviesDir)) in calls
    ensures MuxerRelease !in calls
  {
    var service := new LegacyScreenRecordingService(sdk);
    var path := service.StartRecording(resultCode, appMoviesDir, publicMoviesDir);
    service.StopRecording(StopsCleanly);
    muxerStillHeld := service.holdsMuxer;
    calls := service.calls;
    assert calls[1] == CreateMuxer(path);
  }

  /** With the corrected teardown, a codec-path recording releases its muxer
      however the encoder answered and however the codec's teardown went. */
  method StopAfterAnyDrainReleasesMuxer(sdk: int, resultCode: int, appMoviesDir: string, publicMoviesDir: string,
                                        os: seq<Dequeue>, codec: CodecTeardown)
    returns (muxerStillHeld: bool, calls: seq<MediaCall>)
    requires !UsesMediaRecorder(sdk)
    ensures !muxerStillHeld
    ensures CreateMuxer(Paths.RecordingOutputPath(sdk, appMoviesDir, publicMoviesDir)) in calls
    ensures calls[|calls| - 1] == MuxerRelease
  {
    var service := new LegacyScreenRecordingService(sdk);
    var path := service.StartRecording(resultCode, appMoviesDir, publicMoviesDir);
    assert service.calls[1] == CreateMuxer(path);
    service.WriteEncodedData(os);
    assert service.calls[1] == CreateMuxer(path);
    service.StopRecordingReleasingMuxer(codec);
    muxerStillHeld := service.holdsMuxer;
    calls := service.calls;
    assert calls[1] == CreateMuxer(path);
  }
}
