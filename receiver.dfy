/** The voice receiver (src-tauri/src/discord/receiver.rs): one track per
    speaker in a Discord voice call. The receiver learns which user speaks on
    which SSRC (the RTP stream id), opens a track the first time an SSRC
    delivers decoded voice, appends each tick's samples to that speaker's own
    track, and at the end finalizes every track and reports the saved paths. */
module Receiver {
  import opened Common
  import opened Text
  import opened Encoder

  /** A decoded voice sample, as songbird delivers it. */
  type I16 = x: int | -0x8000 <= x < 0x8000

  // ---------------------------------------------------------------------------
  // Track names
  // ---------------------------------------------------------------------------

  /** The speaker part of a track name: the user id when the SSRC is known to
      belong to a user, the SSRC itself otherwise. */
  function Label(ssrcMap: map<U32, U64>, ssrc: U32): string {
    if ssrc in ssrcMap then "user-" + Decimal(ssrcMap[ssrc]) else "ssrc-" + Decimal(ssrc)
  }

  /** `Path::join` with `/` as the separator: an absolute `file` replaces `dir`,
      an empty `dir` or one ending in `/` takes `file` directly, any other
      `dir` gets a separator first. */
  function JoinPath(dir: string, file: string): string {
    if |file| > 0 && file[0] == '/' then file
    else if dir == [] || dir[|dir| - 1] == '/' then dir + file
    else dir + "/" + file
  }

  /** The file name of a track, `discord-<timestamp>-<label>.<extension>`,
      joined under the output directory. */
  function TrackPath(outputDir: string, format: AudioFormat, timestamp: string, speaker: string): string {
    JoinPath(outputDir, "discord-" + timestamp + "-" + speaker + "." + format.extension)
  }

  /** Two SSRCs get the same label only when they are the same SSRC or are
      mapped to the same user. */
  lemma LabelInjective(ssrcMap: map<U32, U64>, a: U32, b: U32)
    ensures Label(ssrcMap, a) == Label(ssrcMap, b) <==>
      a == b || (a in ssrcMap && b in ssrcMap && ssrcMap[a] == ssrcMap[b])
  {
    var la, lb := Label(ssrcMap, a), Label(ssrcMap, b);
    if la == lb {
      assert la[0] == lb[0];
      assert la[5..] == lb[5..];
      if a in ssrcMap {
        assert la[5..] == Decimal(ssrcMap[a]);
        assert lb[5..] == Decimal(ssrcMap[b]);
        DecimalInjective(ssrcMap[a], ssrcMap[b]);
      } else {
        assert la[5..] == Decimal(a);
        assert lb[5..] == Decimal(b);
        DecimalInjective(a, b);
      }
    }
  }

  /** Under one directory, timestamp and format, different labels give
      different paths. */
  lemma TrackPathInjective(outputDir: string, format: AudioFormat, timestamp: string, l1: string, l2: string)
    ensures TrackPath(outputDir, format, timestamp, l1) == TrackPath(outputDir, format, timestamp, l2) <==> l1 == l2
  {
    var pre := "discord-" + timestamp + "-";
    var post := "." + format.extension;
    var f1, f2 := pre + l1 + post, pre + l2 + post;
    assert "discord-" + timestamp + "-" + l1 + "." + format.extension == f1;
    assert "discord-" + timestamp + "-" + l2 + "." + format.extension == f2;
    if JoinPath(outputDir, f1) == JoinPath(outputDir, f2) {
      assert f1[0] == 'd' && f2[0] == 'd';
      var sep := if outputDir == [] || outputDir[|outputDir| - 1] == '/' then "" else "/";
      assert JoinPath(outputDir, f1) == (outputDir + sep) + f1;
      assert JoinPath(outputDir, f2) == (outputDir + sep) + f2;
      assert f1 == JoinPath(outputDir, f1)[|outputDir + sep|..];
      assert f1 == f2;
      assert l1 == f1[|pre|..|f1| - |post|];
      assert l2 == f2[|pre|..|f2| - |post|];
    }
  }

  /** Within one second, two speakers get separate files unless they are the
      same SSRC or the same user. */
  lemma DistinctSpeakersDistinctTracks(outputDir: string, format: AudioFormat, timestamp: string,
                                       ssrcMap: map<U32, U64>, a: U32, b: U32)
    requires a != b && !(a in ssrcMap && b in ssrcMap && ssrcMap[a] == ssrcMap[b])
    ensures TrackPath(outputDir, format, timestamp, Label(ssrcMap, a)) !=
            TrackPath(outputDir, format, timestamp, Label(ssrcMap, b))
  {
    LabelInjective(ssrcMap, a, b);
    TrackPathInjective(outputDir, format, timestamp, Label(ssrcMap, a), Label(ssrcMap, b));
  }

  // ---------------------------------------------------------------------------
  // What a tick does to the track table
  // ---------------------------------------------------------------------------

  /** The decoded voice of each speaker in one tick (None: the speaker's
      packet was not decoded). */
  type Speaking = map<U32, Option<seq<I16>>>

  function Get(tracks: map<U32, Sink<I16>>, ssrc: U32): Option<Sink<I16>> {
    if ssrc in tracks then Some(tracks[ssrc]) else None
  }

  /** One speaker's track after a tick, from its track before and its voice:
      without decoded voice nothing happens; otherwise the track is opened at
      `path` if there is none (a failed open leaves the speaker without a
      track) and the samples are written until a write fails. */
  function TrackAfter(current: Option<Sink<I16>>, voice: Option<seq<I16>>, path: string, disk: Disk): (r: Option<Sink<I16>>)
    requires current.Some? ==> current.value.Valid()
    ensures r.Some? ==> r.value.Valid()
    ensures voice.None? ==> r == current
    ensures voice.Some? && current.Some? ==> r == Some(WriteBlock(current.value, voice.value))
    ensures voice.Some? && current.None? ==>
      (r.Some? <==> path !in disk.cannotCreate) &&
      (r.Some? ==> r.value.path == path && |r.value.written| <= |voice.value|
                   && r.value.written == voice.value[..|r.value.written|]
                   && r.value == WriteBlock(Open(path, 1, 48000, disk).value, voice.value))
  {
    if voice.None? then current
    else if current.Some? then Some(WriteBlock(current.value, voice.value))
    else match Open(path, 1, 48000, disk)
      case None => None
      case Some(s) => Some(WriteBlock(s, voice.value))
  }

  /** What a tick leaves in the slot of `ssrc` once the speakers in `done` have
      been handled. */
  function Slot(tracks: map<U32, Sink<I16>>, ssrcMap: map<U32, U64>, speaking: Speaking, done: set<U32>,
                outputDir: string, format: AudioFormat, timestamp: string, disk: Disk, ssrc: U32): (r: Option<Sink<I16>>)
    requires forall s :: s in tracks ==> tracks[s].Valid()
    ensures r.Some? ==> r.value.Valid()
  {
    if ssrc in speaking && ssrc in done then
      TrackAfter(Get(tracks, ssrc), speaking[ssrc], TrackPath(outputDir, format, timestamp, Label(ssrcMap, ssrc)), disk)
    else Get(tracks, ssrc)
  }

  /** The track table once the speakers in `done` have been handled. */
  function Handled(tracks: map<U32, Sink<I16>>, ssrcMap: map<U32, U64>, speaking: Speaking, done: set<U32>,
                   outputDir: string, format: AudioFormat, timestamp: string, disk: Disk): map<U32, Sink<I16>>
    requires forall s :: s in tracks ==> tracks[s].Valid()
  {
    map s | s in tracks.Keys + (speaking.Keys * done)
        && Slot(tracks, ssrcMap, speaking, done, outputDir, format, timestamp, disk, s).Some?
      :: Slot(tracks, ssrcMap, speaking, done, outputDir, format, timestamp, disk, s).value
  }

  /** The track table after a tick in which every speaker has been handled. */
  function AfterTick(tracks: map<U32, Sink<I16>>, ssrcMap: map<U32, U64>, speaking: Speaking,
                     outputDir: string, format: AudioFormat, timestamp: string, disk: Disk): map<U32, Sink<I16>>
    requires forall s :: s in tracks ==> tracks[s].Valid()
  {
    Handled(tracks, ssrcMap, speaking, speaking.Keys, outputDir, format, timestamp, disk)
  }

  /** Each speaker's track after a tick depends on that speaker alone: a
      speaker without decoded voice keeps the track it had, one with voice
      has the samples appended to its track, and one without a track gets a
      new one at its own path unless the disk refuses it. */
  lemma AfterTickPerSpeaker(tracks: map<U32, Sink<I16>>, ssrcMap: map<U32, U64>, speaking: Speaking,
                            outputDir: string, format: AudioFormat, timestamp: string, disk: Disk, ssrc: U32)
    requires forall s :: s in tracks ==> tracks[s].Valid()
    ensures var after := AfterTick(tracks, ssrcMap, speaking, outputDir, format, timestamp, disk);
      var path := TrackPath(outputDir, format, timestamp, Label(ssrcMap, ssrc));
      && ((ssrc !in speaking || speaking[ssrc].None?) ==> Get(after, ssrc) == Get(tracks, ssrc))
      && (ssrc in speaking && speaking[ssrc].Some? && ssrc in tracks ==>
            ssrc in after && after[ssrc] == WriteBlock(tracks[ssrc], speaking[ssrc].value))
      && (ssrc in speaking && speaking[ssrc].Some? && ssrc !in tracks ==>
            (ssrc in after <==> path !in disk.cannotCreate)
            && (ssrc in after ==>
                  (after[ssrc].path == path && |after[ssrc].written| <= |speaking[ssrc].value|
                   && after[ssrc].written == speaking[ssrc].value[..|after[ssrc].written|]
                   && after[ssrc] == WriteBlock(Open(path, 1, 48000, disk).value, speaking[ssrc].value))))
  {
    var after := AfterTick(tracks, ssrcMap, speaking, outputDir, format, timestamp, disk);
    assert Get(after, ssrc) == Slot(tracks, ssrcMap, speaking, speaking.Keys, outputDir, format, timestamp, disk, ssrc);
  }

  /** The slot of `ssrc` in the table is the slot the tick leaves. */
  lemma GetHandled(tracks: map<U32, Sink<I16>>, ssrcMap: map<U32, U64>, speaking: Speaking, done: set<U32>,
                   outputDir: string, format: AudioFormat, timestamp: string, disk: Disk, ssrc: U32)
    requires forall s :: s in tracks ==> tracks[s].Valid()
    ensures Get(Handled(tracks, ssrcMap, speaking, done, outputDir, format, timestamp, disk), ssrc)
         == Slot(tracks, ssrcMap, speaking, done, outputDir, format, timestamp, disk, ssrc)
  {
  }

  /** Tables that agree on every slot are equal. */
  lemma SameSlots(a: map<U32, Sink<I16>>, b: map<U32, Sink<I16>>)
    requires forall s :: Get(a, s) == Get(b, s)
    ensures a == b
  {
    assert a.Keys == b.Keys by {
      forall s ensures s in a <==> s in b {
        assert Get(a, s).Some? == Get(b, s).Some?;
      }
    }
    forall s | s in a ensures a[s] == b[s] {
      assert Get(a, s) == Get(b, s);
    }
  }

  // ---------------------------------------------------------------------------
  // The receiver's shared state
  // ---------------------------------------------------------------------------

  /** `ReceiverState`: the SSRC-to-user table and the open track of each SSRC,
      the output directory and format, the stream layout of every track (mono,
      48 kHz) and the status cell shared with the bot. */
  class ReceiverState {
    var ssrcMap: map<U32, U64>
    var encoders: map<U32, Sink<I16>>
    const outputDir: string
    const format: AudioFormat
    const sampleRate: nat
    const channels: nat
    const status: LiveStatus

    /** Every open track is within its capacity and has the receiver's layout. */
    ghost predicate Valid()
      reads this
    {
      && sampleRate == 48000 && channels == 1
      && forall s :: s in encoders ==>
        encoders[s].Valid() && encoders[s].channels == channels && encoders[s].sampleRate == sampleRate
    }

    /** `ReceiverState::new`: both tables empty, mono at 48 kHz. */
    constructor (outputDir: string, format: AudioFormat, status: LiveStatus)
      ensures Valid()
      ensures ssrcMap == map[] && encoders == map[]
      ensures this.outputDir == outputDir && this.format == format && this.status == status
      ensures sampleRate == 48000 && channels == 1
    {
      ssrcMap := map[];
      encoders := map[];
      this.outputDir := outputDir;
      this.format := format;
      sampleRate := 48000;
      channels := 1;
      this.status := status;
    }

    /** The path a new track for `ssrc` gets at `timestamp`. */
    function PathFor(ssrc: U32, timestamp: string): string
      reads this
    {
      TrackPath(outputDir, format, timestamp, Label(ssrcMap, ssrc))
    }

    /** `get_or_create_encoder`: nothing to do when the SSRC has a track;
        otherwise open one at its path and add it, or fail and add nothing. */
    method GetOrCreateEncoder(ssrc: U32, timestamp: string, disk: Disk) returns (r: Result<()>)
      requires Valid()
      modifies this
      ensures Valid() && ssrcMap == old(ssrcMap)
      ensures ssrc in old(encoders) ==> r.Ok? && encoders == old(encoders)
      ensures ssrc !in old(encoders) ==>
        && (r.Ok? <==> PathFor(ssrc, timestamp) !in disk.cannotCreate)
        && (r.Ok? ==> encoders == old(encoders)[ssrc := Sink(PathFor(ssrc, timestamp), 1, 48000, [], disk.quota)])
        && (r.Err? ==> encoders == old(encoders))
    {
      if ssrc in encoders {
        return Ok(());
      }
      var path := PathFor(ssrc, timestamp);
      match Open(path, channels, sampleRate, disk)
      case None =>
        r := Err("Failed to create WAV file");
      case Some(encoder) =>
        encoders := encoders[ssrc := encoder];
        r := Ok(());
    }

    /** `finalize_all`: takes every track out of the table and finalizes it,
        in the table's (unspecified) order, stopping at the first failure;
        the table is left empty either way. On success the paths returned are
        those of the tracks the table held, one per track. */
    method FinalizeAll(disk: Disk) returns (r: Result<seq<string>>)
      requires Valid()
      modifies this
      ensures Valid() && encoders == map[] && ssrcMap == old(ssrcMap)
      ensures r.Ok? <==> forall s :: s in old(encoders) ==> old(encoders)[s].path !in disk.cannotFinalize
      ensures r.Ok? ==>
        (|r.value| == |old(encoders)|
         && exists order :: Enumerates(order, old(encoders).Keys) && r.value == PathsOf(old(encoders), order))
      ensures r.Err? ==> r.msg == "Failed to finalize WAV file"
    {
      var drained := encoders;
      encoders := map[];
      r := FinalizeTracks(drained, disk);
    }

    /** Writing one speaker's samples: sample by sample, stopping at the
        first write that fails. */
    static method WriteSamples(encoder: Sink<I16>, samples: seq<I16>) returns (out: Sink<I16>)
      requires encoder.Valid()
      ensures out == WriteBlock(encoder, samples)
    {
      out := encoder;
      var i := 0;
      while i < |samples|
        invariant i <= |samples| && out.Valid()
        invariant out == encoder.(written := encoder.written + samples[..i])
        invariant i < |samples| ==> |out.written| <= |encoder.written| + i
      {
        match WriteSample(out, samples[i])
        case Err(_) =>
          assert Room(encoder, |samples|) == i;
          return;
        case Ok(next) =>
          out := next;
          i := i + 1;
      }
      assert samples[..i] == samples;
      assert Room(encoder, |samples|) == |samples|;
    }

    /** A voice tick: while recording, every speaker with decoded voice gets a
        track if it has none, and that speaker's samples are written to it; a
        speaker whose track cannot be opened is skipped. */
    method Tick(speaking: Speaking, timestamp: string, disk: Disk)
      requires Valid()
      modifies this
      ensures Valid() && ssrcMap == old(ssrcMap)
      ensures !status.isRecording ==> encoders == old(encoders)
      ensures status.isRecording ==>
        encoders == AfterTick(old(encoders), ssrcMap, speaking, outputDir, format, timestamp, disk)
    {
      if !status.isRecording {
        return;
      }
      ghost var start := encoders;
      ghost var done: set<U32> := {};
      var pending := speaking.Keys;
      while pending != {}
        invariant pending <= speaking.Keys && done == speaking.Keys - pending
        invariant Valid() && ssrcMap == old(ssrcMap)
        invariant forall s :: Get(encoders, s) == Slot(start, ssrcMap, speaking, done, outputDir, format, timestamp, disk, s)
        decreases |pending|
      {
        var ssrc :| ssrc in pending;
        pending := pending - {ssrc};
        SpeakerStep(ssrc, speaking[ssrc], timestamp, disk);
        done := done + {ssrc};
      }
      forall s ensures Get(encoders, s) == Get(AfterTick(start, ssrcMap, speaking, outputDir, format, timestamp, disk), s) {
        GetHandled(start, ssrcMap, speaking, speaking.Keys, outputDir, format, timestamp, disk, s);
      }
      SameSlots(encoders, AfterTick(start, ssrcMap, speaking, outputDir, format, timestamp, disk));
    }

    /** One speaker of a tick. */
    method SpeakerStep(ssrc: U32, voice: Option<seq<I16>>, timestamp: string, disk: Disk)
      requires Valid()
      modifies this
      ensures Valid() && ssrcMap == old(ssrcMap)
      ensures Get(encoders, ssrc) == TrackAfter(Get(old(encoders), ssrc), voice, PathFor(ssrc, timestamp), disk)
      ensures forall s :: s != ssrc ==> Get(encoders, s) == Get(old(encoders), s)
    {
      if voice.None? {
        return;
      }
      var created := GetOrCreateEncoder(ssrc, timestamp, disk);
      if created.Err? {
        return;
      }
      var written := WriteSamples(encoders[ssrc], voice.value);
      encoders := encoders[ssrc := written];
    }
  }

  /** `order` lists each key of `keys` exactly once. */
  predicate Enumerates(order: seq<U32>, keys: set<U32>) {
    && (forall i, j :: 0 <= i < j < |order| ==> order[i] != order[j])
    && (forall i :: 0 <= i < |order| ==> order[i] in keys)
    && (forall k :: k in keys ==> k in order)
  }

  /** The paths of the tracks of the SSRCs in `order`, in that order. */
  function PathsOf(tracks: map<U32, Sink<I16>>, order: seq<U32>): (r: seq<string>)
    requires forall i :: 0 <= i < |order| ==> order[i] in tracks
    ensures |r| == |order|
  {
    if order == [] then []
    else PathsOf(tracks, order[..|order| - 1]) + [tracks[order[|order| - 1]].path]
  }

  lemma PathsSnoc(tracks: map<U32, Sink<I16>>, order: seq<U32>, k: U32)
    requires forall i :: 0 <= i < |order| ==> order[i] in tracks
    requires k in tracks
    ensures PathsOf(tracks, order + [k]) == PathsOf(tracks, order) + [tracks[k].path]
  {
    assert (order + [k])[..|order|] == order;
  }

  /** The draining loop of `finalize_all` over the tracks taken out of the
      table: each is finalized in turn, in no particular order, and the first
      failure ends the loop. It succeeds exactly when every track can be
      finalized, and then returns each track's path once. */
  method FinalizeTracks(tracks: map<U32, Sink<I16>>, disk: Disk) returns (r: Result<seq<string>>)
    ensures r.Ok? <==> forall s :: s in tracks ==> tracks[s].path !in disk.cannotFinalize
    ensures r.Ok? ==>
      (|r.value| == |tracks|
       && exists order :: Enumerates(order, tracks.Keys) && r.value == PathsOf(tracks, order))
    ensures r.Err? ==> r.msg == "Failed to finalize WAV file"
  {
    var pending := tracks.Keys;
    var paths := [];
    ghost var order: seq<U32> := [];
    ghost var taken: set<U32> := {};
    while pending != {}
      invariant FinalizedSoFar(tracks, disk, taken, pending, order, paths)
      decreases |pending|
    {
      var ssrc :| ssrc in pending;
      var encoder := tracks[ssrc];
      match Finalize(encoder, disk)
      case Err(e) =>
        return Err(e);
      case Ok(_) =>
      FinalizedOneMore(tracks, disk, taken, pending, order, paths, ssrc);
      pending := pending - {ssrc};
      paths := paths + [encoder.path];
      order, taken := order + [ssrc], taken + {ssrc};
    }
    r := Ok(paths);
  }

  /** The loop invariant of the draining loop: the tracks of `taken` have been
      finalized, in the order `order`, and their paths collected; those of
      `pending` are still to do. */
  predicate FinalizedSoFar(tracks: map<U32, Sink<I16>>, disk: Disk, taken: set<U32>, pending: set<U32>,
                           order: seq<U32>, paths: seq<string>) {
    && taken + pending == tracks.Keys && taken !! pending
    && Enumerates(order, taken) && |order| == |taken|
    && paths == PathsOf(tracks, order)
    && forall k :: k in taken ==> tracks[k].path !in disk.cannotFinalize
  }

  lemma FinalizedOneMore(tracks: map<U32, Sink<I16>>, disk: Disk, taken: set<U32>, pending: set<U32>,
                         order: seq<U32>, paths: seq<string>, ssrc: U32)
    requires FinalizedSoFar(tracks, disk, taken, pending, order, paths)
    requires ssrc in pending && tracks[ssrc].path !in disk.cannotFinalize
    ensures FinalizedSoFar(tracks, disk, taken + {ssrc}, pending - {ssrc}, order + [ssrc], paths + [tracks[ssrc].path])
  {
    EnumeratesStep(order, taken, ssrc);
    PathsSnoc(tracks, order, ssrc);
  }

  lemma EnumeratesStep(order: seq<U32>, keys: set<U32>, k: U32)
    requires Enumerates(order, keys) && k !in keys
    ensures Enumerates(order + [k], keys + {k})
  {
  }

  // ---------------------------------------------------------------------------
  // The songbird event handler
  // ---------------------------------------------------------------------------

  /** The songbird events the handler reacts to: a speaking-state update (an
      SSRC and, when known, its user), a voice tick, and everything else. */
  datatype VoiceEvent =
    | SpeakingStateUpdate(ssrc: U32, userId: Option<U64>)
    | VoiceTick(speaking: Speaking)
    | OtherEvent

  /** `VoiceHandler`: a handle on the receiver state shared by all its clones. */
  class VoiceHandler {
    const state: ReceiverState

    constructor (state: ReceiverState)
      ensures this.state == state
    {
      this.state := state;
    }

    /** `act`: a speaking update with a user records (or replaces) that SSRC's
        user; a voice tick routes the voice to the speakers' tracks; nothing
        else changes anything. The handler never asks to be removed. */
    method Act(event: VoiceEvent, timestamp: string, disk: Disk) returns (r: Option<()>)
      requires state.Valid()
      modifies state
      ensures state.Valid() && r.None?
      ensures event.SpeakingStateUpdate? ==>
        && state.encoders == old(state.encoders)
        && state.ssrcMap == (if event.userId.Some? then old(state.ssrcMap)[event.ssrc := event.userId.value]
                             else old(state.ssrcMap))
      ensures event.VoiceTick? ==>
        && state.ssrcMap == old(state.ssrcMap)
        && (!state.status.isRecording ==> state.encoders == old(state.encoders))
        && (state.status.isRecording ==>
              state.encoders == AfterTick(old(state.encoders), state.ssrcMap, event.speaking,
                                          state.outputDir, state.format, timestamp, disk))
      ensures event.OtherEvent? ==> state.encoders == old(state.encoders) && state.ssrcMap == old(state.ssrcMap)
    {
      r := None;
      match event
      case SpeakingStateUpdate(ssrc, userId) =>
        if userId.Some? {
          state.ssrcMap := state.ssrcMap[ssrc := userId.value];
        }
      case VoiceTick(speaking) =>
        state.Tick(speaking, timestamp, disk);
      case OtherEvent =>
    }
  }
}
