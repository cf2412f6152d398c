/** The Windows capture thread of src-tauri/src/audio/capture.rs: process
    loopback through WASAPI, captured bytes queued and drained into the
    encoder in whole 4-byte samples, and the loop's stop conditions. */
module Wasapi {
  import opened Common
  import opened Encoder
  import opened Capture

  // ---------------------------------------------------------------------------
  // The WASAPI loop and its byte queue
  // ---------------------------------------------------------------------------

  type Byte = b: nat | b < 256

  /** `f32::from_le_bytes`, kept as the bit pattern of the sample: the 32-bit
      little-endian word of four bytes. */
  function Word(b: seq<Byte>): U32
    requires |b| == 4
  {
    b[0] as nat + 256 * (b[1] as nat) + 65536 * (b[2] as nat) + 16777216 * (b[3] as nat)
  }

  /** The samples of the whole 4-byte groups at the front of `b`, in queue
      order; a trailing incomplete group is not (yet) a sample. */
  function Words(b: seq<Byte>): seq<U32>
    decreases |b|
  {
    if |b| < 4 then [] else [Word(b[..4])] + Words(b[4..])
  }

  /** The incomplete group behind the whole ones. */
  function Leftover(b: seq<Byte>): seq<Byte>
    decreases |b|
  {
    if |b| < 4 then b else Leftover(b[4..])
  }

  /** Sample `j` is the word of bytes `4j` to `4j + 3`. */
  lemma {:induction false} WordsAt(b: seq<Byte>, j: nat)
    requires 4 * j + 4 <= |b|
    ensures j < |Words(b)| && Words(b)[j] == Word(b[4 * j..4 * j + 4])
    decreases j
  {
    var tail := b[4..];
    assert Words(b) == [Word(b[..4])] + Words(tail);
    if j > 0 {
      WordsAt(tail, j - 1);
      assert tail[4 * (j - 1)..4 * (j - 1) + 4] == b[4 * j..4 * j + 4];
    }
  }

  /** A byte run is its whole groups, one per sample, followed by a leftover
      of fewer than four bytes. */
  lemma {:induction false} LeftoverShape(b: seq<Byte>)
    ensures |Leftover(b)| < 4
    ensures |b| == 4 * |Words(b)| + |Leftover(b)| && Leftover(b) == b[4 * |Words(b)|..]
    decreases |b|
  {
    if |b| >= 4 {
      LeftoverShape(b[4..]);
      assert b[4..][4 * |Words(b[4..])|..] == b[4 * |Words(b)|..];
    }
  }

  /** Appending `c` to a queue holding `a`: the samples of `a + c` are those
      of `a`, then those of `a`'s leftover followed by `c`; the leftover is
      the same either way. */
  lemma {:induction false} GroupsAppend(a: seq<Byte>, c: seq<Byte>)
    ensures Words(a + c) == Words(a) + Words(Leftover(a) + c)
    ensures Leftover(a + c) == Leftover(Leftover(a) + c)
    decreases |a|
  {
    if |a| >= 4 {
      assert (a + c)[..4] == a[..4];
      assert (a + c)[4..] == a[4..] + c;
      GroupsAppend(a[4..], c);
    }
  }

  /** The queue and encoder after the drain loop: while four bytes are
      queued, pop them and write their sample; a failed write ends the
      drain, and its sample is lost. */
  function Drained(queue: seq<Byte>, sink: Sink<U32>): (r: (seq<Byte>, Sink<U32>))
    requires sink.Valid()
    ensures r.1.Valid() && r.1 == sink.(written := r.1.written)
    decreases |queue|
  {
    if |queue| < 4 then (queue, sink)
    else
      match WriteSample(sink, Word(queue[..4]))
      case Ok(next) => Drained(queue[4..], next)
      case Err(_) => (queue[4..], sink)
  }

  /** Taking one sample when the sink accepts it leaves one sample less room. */
  lemma RoomStep(sink: Sink<U32>, x: U32, n: nat)
    requires sink.Valid() && sink.Accepts() && 0 < n
    ensures Room(sink, n) == 1 + Room(sink.(written := sink.written + [x]), n - 1)
  {
  }

  /** Draining writes the queue's samples front first, as one block write
      would: as many as the encoder takes. If all of them were taken, only
      the incomplete group stays queued; otherwise the bytes of the sample
      whose write failed are gone, and every later byte stays queued. */
  lemma {:induction false} DrainedFifo(queue: seq<Byte>, sink: Sink<U32>)
    requires sink.Valid()
    ensures var (rest, out) := Drained(queue, sink);
      var n := |Words(queue)|;
      var k := Room(sink, n);
      && out == WriteBlock(sink, Words(queue))
      && (k == n ==> rest == Leftover(queue))
      && (k < n ==> 4 * (k + 1) <= |queue| && rest == queue[4 * (k + 1)..])
    decreases |queue|
  {
    if |queue| < 4 {
      assert sink.written + [] == sink.written;
    } else {
      var w, tail := Word(queue[..4]), queue[4..];
      assert Words(queue) == [w] + Words(tail);
      if sink.Accepts() {
        var next := sink.(written := sink.written + [w]);
        DrainedFifo(tail, next);
        RoomStep(sink, w, |Words(queue)|);
        assert WriteBlock(sink, [w]) == next;
        WriteBlockConcat(sink, [w], Words(tail));
        var k := Room(next, |Words(tail)|);
        assert k < |Words(tail)| ==> tail[4 * (k + 1)..] == queue[4 * (k + 2)..];
      } else {
        assert Room(sink, |Words(queue)|) == 0;
        assert sink.written + [] == sink.written;
      }
    }
  }

  /** The drain loop of the WASAPI thread: pop four bytes, decode one sample,
      write it, and stop at the first failed write. */
  method DrainQueue(queue: seq<Byte>, sink: Sink<U32>) returns (rest: seq<Byte>, out: Sink<U32>)
    requires sink.Valid()
    ensures (rest, out) == Drained(queue, sink)
  {
    rest, out := queue, sink;
    while |rest| >= 4
      invariant out.Valid() && Drained(rest, out) == Drained(queue, sink)
      decreases |rest|
    {
      var sample := Word(rest[..4]);
      rest := rest[4..];
      match WriteSample(out, sample)
      case Ok(next) =>
        out := next;
      case Err(_) =>
        return;
    }
  }

  /** One round of the WASAPI loop as the environment delivers it: whether a
      stop was signalled, the elapsed time, and the bytes read from the device. */
  datatype Poll = Poll(stopSignalled: bool, elapsedNanos: nat, captured: seq<Byte>)

  /** How one round of the WASAPI loop ends the loop (StillRunning: it goes on). */
  function WasapiRound(p: Poll, recording: bool, maxDurationSecs: Option<U32>): LoopExit {
    if p.stopSignalled || !recording then StopRequested
    else if DurationReached(maxDurationSecs, p.elapsedNanos) then MaxDurationReached
    else StillRunning
  }

  /** All the bytes read in the first `n` rounds, in order. */
  function Captured(polls: seq<Poll>, n: nat): seq<Byte>
    requires n <= |polls|
  {
    if n == 0 then [] else Captured(polls, n - 1) + polls[n - 1].captured
  }

  /** The queue and encoder after the first `n` rounds have each read their
      bytes into the queue and drained it. */
  function Rounds(encoder: Sink<U32>, polls: seq<Poll>, n: nat): (r: (seq<Byte>, Sink<U32>))
    requires encoder.Valid() && n <= |polls|
    ensures r.1.Valid() && r.1.path == encoder.path
  {
    if n == 0 then ([], encoder)
    else
      var before := Rounds(encoder, polls, n - 1);
      Drained(before.0 + polls[n - 1].captured, before.1)
  }

  /** The queue and encoder once every whole 4-byte group of `all` has been
      written: the incomplete tail stays queued. */
  function WroteAll(sink: Sink<U32>, all: seq<Byte>): (seq<Byte>, Sink<U32>) {
    (Leftover(all), sink.(written := sink.written + Words(all)))
  }

  /** With no write failures, the rounds write every whole 4-byte group of
      everything read, in order, and keep only the incomplete tail. */
  lemma {:induction false} RoundsUnbounded(encoder: Sink<U32>, polls: seq<Poll>, n: nat)
    requires encoder.Valid() && encoder.capacity.None? && n <= |polls|
    ensures Rounds(encoder, polls, n) == WroteAll(encoder, Captured(polls, n))
  {
    if n == 0 {
      assert encoder.(written := encoder.written + []) == encoder;
    } else {
      RoundsUnbounded(encoder, polls, n - 1);
      DrainAfterUnbounded(Captured(polls, n - 1), polls[n - 1].captured, encoder);
    }
  }

  /** One more round, without a capacity: draining the leftover of `a`
      followed by `c`, after the whole groups of `a` were written, leaves what
      writing the whole groups of `a + c` at once leaves. */
  lemma DrainAfterUnbounded(a: seq<Byte>, c: seq<Byte>, sink: Sink<U32>)
    requires sink.capacity.None?
    ensures var before := WroteAll(sink, a);
      Drained(before.0 + c, before.1) == WroteAll(sink, a + c)
  {
    var s, b := sink.(written := sink.written + Words(a)), Leftover(a) + c;
    assert WroteAll(sink, a) == (Leftover(a), s);
    assert Drained(b, s) == (Leftover(b), s.(written := s.written + Words(b))) by {
      DrainedUnbounded(b, s);
    }
    assert Words(a + c) == Words(a) + Words(b) && Leftover(a + c) == Leftover(b) by {
      GroupsAppend(a, c);
    }
    assert s.written + Words(b) == sink.written + Words(a + c);
  }

  /** Without a capacity, draining writes every whole group. */
  lemma DrainedUnbounded(b: seq<Byte>, s: Sink<U32>)
    requires s.capacity.None?
    ensures Drained(b, s) == WroteAll(s, b)
  {
    DrainedFifo(b, s);
    assert Words(b)[..|Words(b)|] == Words(b);
  }

  /** None of the first `n` rounds ends the loop. */
  predicate RunningThrough(polls: seq<Poll>, recording: bool, maxDurationSecs: Option<U32>, n: int) {
    n <= |polls| && forall i :: 0 <= i < n ==> WasapiRound(polls[i], recording, maxDurationSecs) == StillRunning
  }

  /** The WASAPI capture thread's main loop, over the rounds the environment
      delivers. A round first checks for a stop (message or cleared flag),
      then the duration limit, and only then reads and drains; reaching the
      limit clears the shared recording flag. */
  method WasapiLoop(polls: seq<Poll>, maxDurationSecs: Option<U32>, status: LiveStatus, encoder: Sink<U32>)
    returns (exit: LoopExit, consumed: nat, queue: seq<Byte>, sink: Sink<U32>)
    requires encoder.Valid()
    modifies status
    ensures consumed <= |polls|
    ensures exit == StillRunning ==> consumed == |polls|
    ensures exit != StillRunning ==>
      0 < consumed && exit == WasapiRound(polls[consumed - 1], old(status.isRecording), maxDurationSecs)
    ensures RunningThrough(polls, old(status.isRecording), maxDurationSecs,
      if exit == StillRunning then consumed else consumed - 1)
    ensures status.isRecording == (old(status.isRecording) && exit != MaxDurationReached)
    ensures var read := if exit == StillRunning then consumed else consumed - 1;
      (queue, sink) == Rounds(encoder, polls, read)
  {
    exit, consumed, queue, sink := RunRounds(polls, maxDurationSecs, status.isRecording, encoder);
    if exit == MaxDurationReached {
      status.isRecording := false;
    }
  }

  /** The rounds of the loop while nobody else touches the shared flag, whose
      value is `recording` throughout. */
  method RunRounds(polls: seq<Poll>, maxDurationSecs: Option<U32>, recording: bool, encoder: Sink<U32>)
    returns (exit: LoopExit, consumed: nat, queue: seq<Byte>, sink: Sink<U32>)
    requires encoder.Valid()
    ensures consumed <= |polls|
    ensures exit == StillRunning ==> consumed == |polls|
    ensures exit != StillRunning ==>
      0 < consumed && exit == WasapiRound(polls[consumed - 1], recording, maxDurationSecs)
    ensures RunningThrough(polls, recording, maxDurationSecs, if exit == StillRunning then consumed else consumed - 1)
    ensures var read := if exit == StillRunning then consumed else consumed - 1;
      (queue, sink) == Rounds(encoder, polls, read)
  {
    exit, consumed, queue, sink := StillRunning, 0, [], encoder;
    while consumed < |polls|
      invariant consumed <= |polls|
      invariant RunningThrough(polls, recording, maxDurationSecs, consumed)
      invariant sink.Valid() && (queue, sink) == Rounds(encoder, polls, consumed)
    {
      var e, q, s := PollRound(polls[consumed], maxDurationSecs, recording, queue, sink);
      if e != StillRunning {
        exit, consumed := e, consumed + 1;
        return;
      }
      RunningStep(polls, recording, maxDurationSecs, consumed);
      queue, sink, consumed := q, s, consumed + 1;
    }
  }

  lemma RunningStep(polls: seq<Poll>, recording: bool, maxDurationSecs: Option<U32>, n: nat)
    requires RunningThrough(polls, recording, maxDurationSecs, n) && n < |polls|
    requires WasapiRound(polls[n], recording, maxDurationSecs) == StillRunning
    ensures RunningThrough(polls, recording, maxDurationSecs, n + 1)
  {
  }

  /** One round of the WASAPI loop, given the shared flag as read at its
      start: check for a stop, then the duration limit, then read and drain.
      The caller clears the flag when the limit is reached. */
  method PollRound(p: Poll, maxDurationSecs: Option<U32>, recording: bool, queue: seq<Byte>, sink: Sink<U32>)
    returns (exit: LoopExit, queue': seq<Byte>, sink': Sink<U32>)
    requires sink.Valid()
    ensures exit == WasapiRound(p, recording, maxDurationSecs)
    ensures exit == StillRunning ==> (queue', sink') == Drained(queue + p.captured, sink)
  {
    queue', sink' := queue, sink;
    if p.stopSignalled || !recording {
      return StopRequested, queue', sink';
    }
    if DurationReached(maxDurationSecs, p.elapsedNanos) {
      return MaxDurationReached, queue', sink';
    }
    exit := StillRunning;
    queue', sink' := DrainQueue(queue + p.captured, sink);
  }

  /** The WASAPI capture thread: the main loop, then finalizing the encoder,
      whose outcome is the thread's result (the saved path). */
  method WasapiThread(polls: seq<Poll>, maxDurationSecs: Option<U32>, status: LiveStatus, encoder: Sink<U32>, disk: Disk)
    returns (result: Result<Option<string>>)
    requires encoder.Valid()
    modifies status
    ensures result.Ok? <==> encoder.path !in disk.cannotFinalize
    ensures result.Ok? ==> result.value == Some(encoder.path)
    ensures result.Err? ==> result.msg == "Failed to finalize WAV file"
  {
    var exit, consumed, queue, sink := WasapiLoop(polls, maxDurationSecs, status, encoder);
    match Finalize(sink, disk)
    case Ok(p) => result := Ok(Some(p));
    case Err(e) => result := Err(e);
  }
}
