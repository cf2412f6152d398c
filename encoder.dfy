/** The audio encoder as the recorder sees it: a sink that is opened at a path,
    accepts samples one at a time with `write_sample`, reports its `path` and is
    closed with `finalize`. The file system decides whether opening, writing and
    finalizing succeed; here that decision is the `Disk` value. */
module Encoder {
  import opened Common

  /** The output format; the core only uses its file extension. */
  datatype AudioFormat = AudioFormat(extension: string)

  /** How the file system answers: paths that cannot be created, paths whose
      finalization fails, and how many samples a file can take before a write
      fails (None: no limit). */
  datatype Disk = Disk(cannotCreate: set<string>, cannotFinalize: set<string>, quota: Option<nat>)

  /** An open encoder: where it writes, its stream layout, the samples written so
      far and how many it can hold in all. */
  datatype Sink<S> = Sink(path: string, channels: nat, sampleRate: nat, written: seq<S>, capacity: Option<nat>)
  {
    predicate Valid() {
      capacity.None? || |written| <= capacity.value
    }

    /** A further `write_sample` succeeds. */
    predicate Accepts() {
      capacity.None? || |written| < capacity.value
    }
  }

  /** Opening an encoder (the encoder factory): fails exactly for the paths the
      disk refuses; a new sink has written nothing. */
  function Open<S>(path: string, channels: nat, sampleRate: nat, disk: Disk): (r: Option<Sink<S>>)
    ensures r.Some? <==> path !in disk.cannotCreate
    ensures r.Some? ==>
      && r.value.Valid() && r.value.path == path && r.value.written == []
      && r.value.channels == channels && r.value.sampleRate == sampleRate
  {
    if path in disk.cannotCreate then None
    else Some(Sink(path, channels, sampleRate, [], disk.quota))
  }

  /** `write_sample`: appends one sample, or fails once the file is full. */
  function WriteSample<S>(sink: Sink<S>, x: S): (r: Result<Sink<S>>)
    requires sink.Valid()
    ensures r.Ok? <==> sink.Accepts()
    ensures r.Ok? ==> r.value.Valid() && r.value == sink.(written := sink.written + [x])
    ensures r.Err? ==> r.msg == "Failed to write audio sample"
  {
    if sink.Accepts() then Ok(sink.(written := sink.written + [x]))
    else Err("Failed to write audio sample")
  }

  /** How many of `n` offered samples the sink takes before a write fails. */
  function Room<S>(sink: Sink<S>, n: nat): (k: nat)
    requires sink.Valid()
    ensures k <= n
    ensures k < n ==> sink.capacity.Some? && |sink.written| + k == sink.capacity.value
  {
    if sink.capacity.None? || |sink.written| + n <= sink.capacity.value then n
    else sink.capacity.value - |sink.written|
  }

  /** Writing a block sample by sample and stopping at the first failed write:
      the longest prefix of the block that fits is appended, in order. */
  function WriteBlock<S>(sink: Sink<S>, xs: seq<S>): (r: Sink<S>)
    requires sink.Valid()
    ensures r.Valid() && r == sink.(written := r.written)
    ensures |sink.written| <= |r.written| <= |sink.written| + |xs|
    ensures r.written[..|sink.written|] == sink.written
    ensures r.written[|sink.written|..] == xs[..|r.written| - |sink.written|]
    ensures |r.written| - |sink.written| < |xs| ==> !r.Accepts()
  {
    sink.(written := sink.written + xs[..Room(sink, |xs|)])
  }

  /** Writing two blocks one after the other leaves the sink as writing their
      concatenation would: the sink is a stream. */
  lemma WriteBlockConcat<S>(sink: Sink<S>, xs: seq<S>, ys: seq<S>)
    requires sink.Valid()
    ensures WriteBlock(WriteBlock(sink, xs), ys) == WriteBlock(sink, xs + ys)
  {
    var k := Room(sink, |xs|);
    var s1 := WriteBlock(sink, xs);
    var k2 := Room(s1, |ys|);
    var k12 := Room(sink, |xs| + |ys|);
    if k < |xs| {
      assert k2 == 0;
      assert k12 == k;
      assert (xs + ys)[..k12] == xs[..k];
    } else {
      assert k12 == |xs| + k2;
      assert (xs + ys)[..k12] == xs + ys[..k2];
    }
  }

  /** `finalize`: closes the file and yields its path, unless the disk refuses. */
  function Finalize<S>(sink: Sink<S>, disk: Disk): (r: Result<string>)
    ensures r.Ok? <==> sink.path !in disk.cannotFinalize
    ensures r.Ok? ==> r.value == sink.path
    ensures r.Err? ==> r.msg == "Failed to finalize WAV file"
  {
    if sink.path in disk.cannotFinalize then Err("Failed to finalize WAV file") else Ok(sink.path)
  }
}
