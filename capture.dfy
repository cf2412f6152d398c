/** System-audio capture (src-tauri/src/audio/capture.rs): the recorder's
    start/stop control, the stop conditions of the cpal capture thread's wait
    loop (stop message, maximum duration, closed channel), and how the cpal
    input callbacks deliver samples to the encoder. */
module Capture {
  import opened Common
  import opened Text
  import opened Encoder

  // ---------------------------------------------------------------------------
  // Recorder control
  // ---------------------------------------------------------------------------

  /** What the capture thread was spawned to do. */
  datatype CaptureJob = CaptureJob(outputPath: string, format: AudioFormat, silenceTrim: bool, maxDurationSecs: Option<U32>)

  /** The sending end of the channel on which the thread waits for `Stop`. */
  datatype StopSender = StopSender(job: CaptureJob)

  /** The join handle of the spawned capture thread. */
  datatype CaptureThread = CaptureThread(job: CaptureJob)

  /** How the capture thread ended, as `join` reports it: with the thread's own
      result (the saved path, or its error), or by panicking. */
  datatype ThreadExit = Finished(result: Result<Option<string>>) | Panicked

  /** The recorder. Its `status` is shared with the capture thread, which may
      clear the recording flag on its own when the maximum duration is reached. */
  class AudioCapture {
    var stopTx: Option<StopSender>
    var threadHandle: Option<CaptureThread>
    const status: LiveStatus

    /** Both handles are held together, and a recording recorder holds them. */
    ghost predicate Valid()
      reads this, status
    {
      && (stopTx.Some? <==> threadHandle.Some?)
      && (status.isRecording ==> threadHandle.Some?)
    }

    constructor ()
      ensures Valid() && fresh(status)
      ensures stopTx.None? && threadHandle.None?
      ensures !status.isRecording && status.peakLevel == 0.0
    {
      stopTx := None;
      threadHandle := None;
      status := new LiveStatus();
    }

    function IsRecording(): bool
      reads this, status
    {
      status.isRecording
    }

    /** Spawns the capture thread for a new recording, unless one is running. */
    method Start(outputPath: string, format: AudioFormat, silenceTrim: bool, maxDurationSecs: Option<U32>)
      returns (r: Result<()>)
      requires Valid()
      modifies this, status
      ensures Valid() && status.isRecording && status.peakLevel == old(status.peakLevel)
      ensures old(status.isRecording) ==>
        r == Err("Already recording") && stopTx == old(stopTx) && threadHandle == old(threadHandle)
      ensures !old(status.isRecording) ==>
        && r == Ok(())
        && var job := CaptureJob(outputPath, format, silenceTrim, maxDurationSecs);
        && stopTx == Some(StopSender(job)) && threadHandle == Some(CaptureThread(job))
    {
      if IsRecording() {
        return Err("Already recording");
      }
      var job := CaptureJob(outputPath, format, silenceTrim, maxDurationSecs);
      status.isRecording := true;
      stopTx := Some(StopSender(job));
      threadHandle := Some(CaptureThread(job));
      r := Ok(());
    }

    /** Clears the flag and the meter, signals the thread and joins it. Both
        handles are taken, so a later call finds nothing to join. */
    method Stop(joined: ThreadExit) returns (r: Result<Option<string>>)
      requires Valid()
      modifies this, status
      ensures Valid() && !status.isRecording && status.peakLevel == 0.0
      ensures stopTx.None? && threadHandle.None?
      ensures old(threadHandle).None? ==> r == Ok(None)
      ensures old(threadHandle).Some? && joined.Finished? ==> r == joined.result
      ensures old(threadHandle).Some? && joined.Panicked? ==> r == Err("Recording thread panicked")
    {
      status.isRecording := false;
      status.peakLevel := 0.0;
      stopTx := None;
      if threadHandle.Some? {
        threadHandle := None;
        match joined
        case Finished(result) => return result;
        case Panicked => return Err("Recording thread panicked");
      }
      r := Ok(None);
    }
  }

  /** Stopping twice: the second call reports no recording and changes nothing
      further, whatever the first one joined. */
  method RepeatedStop(c: AudioCapture, first: ThreadExit, second: ThreadExit)
    returns (r1: Result<Option<string>>, r2: Result<Option<string>>)
    requires c.Valid()
    modifies c, c.status
    ensures c.Valid() && !c.status.isRecording && c.threadHandle.None?
    ensures r2 == Ok(None)
  {
    r1 := c.Stop(first);
    r2 := c.Stop(second);
  }

  // ---------------------------------------------------------------------------
  // Stop conditions of the capture loops
  // ---------------------------------------------------------------------------

  const NANOS_PER_SEC: nat := 1_000_000_000

  /** The maximum-duration cut-off: the whole seconds elapsed (`as_secs`) have
      reached the limit. Without a limit it never fires. */
  predicate DurationReached(maxDurationSecs: Option<U32>, elapsedNanos: nat) {
    maxDurationSecs.Some? && elapsedNanos / NANOS_PER_SEC >= maxDurationSecs.value
  }

  datatype LoopExit = StopRequested | MaxDurationReached | ChannelClosed | StillRunning

  /** What the cpal loop's `recv_timeout(1 s)` returned in one round: the stop
      message, a timeout observed at some elapsed time, or a closed channel. */
  datatype RecvEvent = StopMessage | TimedOut(elapsedNanos: nat) | Disconnected

  /** How one round of the cpal loop ends the loop (StillRunning: it goes on). */
  function CpalRound(e: RecvEvent, maxDurationSecs: Option<U32>): LoopExit {
    match e
    case StopMessage => StopRequested
    case Disconnected => ChannelClosed
    case TimedOut(t) => if DurationReached(maxDurationSecs, t) then MaxDurationReached else StillRunning
  }

  /** The cpal capture thread's wait loop, over the rounds the environment
      delivers. It ends at the first round that ends it; on reaching the limit
      it clears the shared recording flag itself. */
  method CpalWaitLoop(events: seq<RecvEvent>, maxDurationSecs: Option<U32>, status: LiveStatus)
    returns (exit: LoopExit, consumed: nat)
    modifies status
    ensures consumed <= |events|
    ensures exit == StillRunning ==> consumed == |events|
    ensures exit != StillRunning ==> 0 < consumed && exit == CpalRound(events[consumed - 1], maxDurationSecs)
    ensures forall i :: 0 <= i < consumed && (exit == StillRunning || i < consumed - 1) ==>
      CpalRound(events[i], maxDurationSecs) == StillRunning
    ensures maxDurationSecs.None? ==> exit != MaxDurationReached
    ensures status.isRecording == (old(status.isRecording) && exit != MaxDurationReached)
  {
    exit, consumed := StillRunning, 0;
    while consumed < |events|
      invariant consumed <= |events|
      invariant forall i :: 0 <= i < consumed ==> CpalRound(events[i], maxDurationSecs) == StillRunning
      invariant status.isRecording == old(status.isRecording)
    {
      var e := events[consumed];
      consumed := consumed + 1;
      match e
      case StopMessage =>
        exit := StopRequested;
        break;
      case TimedOut(t) =>
        if DurationReached(maxDurationSecs, t) {
          status.isRecording := false;
          exit := MaxDurationReached;
          break;
        }
      case Disconnected =>
        exit := ChannelClosed;
        break;
    }
  }

  /** One invocation of the cpal input callback: whether the shared flag was
      set when it ran, and the samples it was handed. */
  datatype Callback<S> = Callback(recording: bool, data: seq<S>)

  /** The encoder after the callbacks ran in order: each one that sees the
      flag set writes its samples until a write fails; the others write nothing. */
  function Delivered<S>(sink: Sink<S>, callbacks: seq<Callback<S>>): (r: Sink<S>)
    requires sink.Valid()
    ensures r.Valid() && r == sink.(written := r.written)
    ensures |r.written| >= |sink.written| && r.written[..|sink.written|] == sink.written
  {
    if callbacks == [] then sink
    else
      var before := Delivered(sink, callbacks[..|callbacks| - 1]);
      var last := callbacks[|callbacks| - 1];
      if last.recording then WriteBlock(before, last.data) else before
  }

  /** The samples of the callbacks that saw the flag set, in order. */
  function Recorded<S>(callbacks: seq<Callback<S>>): seq<S> {
    if callbacks == [] then []
    else
      var last := callbacks[|callbacks| - 1];
      Recorded(callbacks[..|callbacks| - 1]) + (if last.recording then last.data else [])
  }

  /** The file holds exactly the longest prefix that fits of what the callbacks
      saw while recording: samples are neither reordered nor duplicated, and
      those offered while the flag was clear are dropped. */
  lemma {:induction false} DeliveredIsRecorded<S>(sink: Sink<S>, callbacks: seq<Callback<S>>)
    requires sink.Valid()
    ensures Delivered(sink, callbacks) == WriteBlock(sink, Recorded(callbacks))
  {
    if callbacks == [] {
      assert Room(sink, 0) == 0;
      assert sink.written + [] == sink.written;
    } else {
      var init := callbacks[..|callbacks| - 1];
      var last := callbacks[|callbacks| - 1];
      DeliveredIsRecorded(sink, init);
      WriteBlockConcat(sink, Recorded(init), if last.recording then last.data else []);
      if !last.recording {
        assert Recorded(callbacks) == Recorded(init);
      }
    }
  }

  /** The end of the cpal capture thread: the encoder is taken out of its
      shared slot and finalized; an empty slot yields no path. */
  function CpalFinish<S>(slot: Option<Sink<S>>, disk: Disk): (r: Result<Option<string>>)
    ensures slot.None? ==> r == Ok(None)
    ensures slot.Some? ==> (r.Ok? <==> slot.value.path !in disk.cannotFinalize)
    ensures slot.Some? && r.Ok? ==> r.value == Some(slot.value.path)
    ensures slot.Some? && r.Err? ==> r.msg == "Failed to finalize WAV file"
  {
    match slot
    case None => Ok(None)
    case Some(w) =>
      match Finalize(w, disk)
      case Ok(p) => Ok(Some(p))
      case Err(e) => Err(e)
  }
}
