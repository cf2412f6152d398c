/** The Discord bot's control state (src-tauri/src/discord/bot.rs): whether it
    is connected (the ready flag, the gateway context and the voice manager),
    whether it is recording a voice channel (the shared status cell, the
    receiver state and the guild it joined), and the voice-channel member
    count read from the gateway cache. Network operations (building and
    starting the client, joining, leaving, posting a message) are given as
    their outcomes. */
module Bot {
  import opened Common
  import opened Encoder
  import opened Receiver

  // ---------------------------------------------------------------------------
  // The gateway cache and the member count
  // ---------------------------------------------------------------------------

  /** A guild as cached: the voice channel each member with a voice state is
      in (None: the state is cached but the member is in no channel). */
  datatype Guild = Guild(voiceStates: map<U64, Option<U64>>)

  /** The gateway context a ready event delivers; only its guild cache matters here. */
  datatype Context = Context(cache: map<U64, Guild>)

  /** The members whose voice state is in `channel`. */
  function InChannel(voiceStates: map<U64, Option<U64>>, channel: U64): set<U64> {
    set u | u in voiceStates && voiceStates[u] == Some(channel)
  }

  /** `get_channel_member_count` over a context: not connected is an error;
      an uncached guild counts 0; otherwise the number of voice states in the
      channel. */
  function ChannelMemberCount(ctx: Option<Context>, guildId: U64, channelId: U64): (r: Result<nat>)
    ensures ctx.None? <==> r.Err?
    ensures r.Err? ==> r.msg == "Not connected to Discord"
    ensures ctx.Some? && guildId !in ctx.value.cache ==> r == Ok(0)
    ensures r.Ok? && guildId in ctx.value.cache ==> r.value == |InChannel(ctx.value.cache[guildId].voiceStates, channelId)|
    ensures r.Ok? && guildId in ctx.value.cache ==> r.value <= |ctx.value.cache[guildId].voiceStates|
  {
    match ctx
    case None => Err("Not connected to Discord")
    case Some(c) =>
      if guildId in c.cache then
        CountBound(c.cache[guildId].voiceStates, channelId);
        Ok(|InChannel(c.cache[guildId].voiceStates, channelId)|)
      else Ok(0)
  }

  /** No more members are in a channel than have voice states. */
  lemma CountBound(voiceStates: map<U64, Option<U64>>, channel: U64)
    ensures |InChannel(voiceStates, channel)| <= |voiceStates|
  {
    assert InChannel(voiceStates, channel) <= voiceStates.Keys;
    SubsetCard(InChannel(voiceStates, channel), voiceStates.Keys);
  }

  lemma {:induction false} SubsetCard(a: set<U64>, b: set<U64>)
    requires a <= b
    ensures |a| <= |b|
    decreases |b|
  {
    if b != {} {
      var x :| x in b;
      SubsetCard(a - {x}, b - {x});
    }
  }

  /** A member moving into the channel raises its count by one, unless the
      member was already there. */
  lemma CountJoin(voiceStates: map<U64, Option<U64>>, channel: U64, user: U64)
    ensures |InChannel(voiceStates[user := Some(channel)], channel)| ==
      |InChannel(voiceStates, channel)| + (if user in InChannel(voiceStates, channel) then 0 else 1)
  {
    var before := InChannel(voiceStates, channel);
    assert InChannel(voiceStates[user := Some(channel)], channel) == before + {user};
  }

  /** A member leaving the channel (for another channel or none) lowers its
      count by one, if the member was there. */
  lemma CountLeave(voiceStates: map<U64, Option<U64>>, channel: U64, user: U64, elsewhere: Option<U64>)
    requires elsewhere != Some(channel)
    ensures |InChannel(voiceStates[user := elsewhere], channel)| ==
      |InChannel(voiceStates, channel)| - (if user in InChannel(voiceStates, channel) then 1 else 0)
  {
    var before := InChannel(voiceStates, channel);
    assert InChannel(voiceStates[user := elsewhere], channel) == before - {user};
  }

  // ---------------------------------------------------------------------------
  // Connection and recording control
  // ---------------------------------------------------------------------------

  /** The songbird voice manager registered with the client. */
  datatype VoiceManager = VoiceManager

  /** How building the client and waiting for the ready event turn out. */
  datatype ConnectOutcome =
    | ClientFailed
    | ReadyTimedOut
    | ReadyWith(ctx: Context)

  /** `DiscordBot`. */
  class DiscordBot {
    var ctx: Option<Context>
    var voice: Option<VoiceManager>
    var ready: bool
    var receiverState: Option<ReceiverState>
    var currentGuild: Option<U64>
    const status: LiveStatus

    /** Connected means ready, with a context and a voice manager; recording
        means holding a receiver state, which shares this bot's status cell. */
    ghost predicate Valid()
      reads this, status, if receiverState.Some? then {receiverState.value} else {}
    {
      && ctx.Some? == ready && voice.Some? == ready
      && receiverState.Some? == status.isRecording
      && (receiverState.Some? ==> receiverState.value.Valid() && receiverState.value.status == status)
    }

    /** `DiscordBot::new`: disconnected and not recording. */
    constructor ()
      ensures Valid() && fresh(status)
      ensures ctx.None? && voice.None? && !ready && receiverState.None? && currentGuild.None?
      ensures !status.isRecording && status.peakLevel == 0.0
    {
      ctx, voice, ready, receiverState, currentGuild := None, None, false, None, None;
      status := new LiveStatus();
    }

    /** `connect`: refused while connected; otherwise the connection state is
        reset, and the bot ends up connected exactly when the client was built
        and the ready event arrived in time. Recording state is untouched. */
    method Connect(outcome: ConnectOutcome) returns (r: Result<()>)
      requires Valid()
      modifies this
      ensures Valid()
      ensures receiverState == old(receiverState) && currentGuild == old(currentGuild)
      ensures old(ready) ==> r == Err("Already connected to Discord") && ctx == old(ctx) && voice == old(voice) && ready
      ensures !old(ready) ==>
        && (r.Ok? <==> outcome.ReadyWith?)
        && (r.Ok? ==> ready && ctx == Some(outcome.ctx) && voice == Some(VoiceManager))
        && (r.Err? ==> !ready && ctx.None? && voice.None?)
        && (outcome.ClientFailed? ==> r == Err("Failed to create Discord client"))
        && (outcome.ReadyTimedOut? ==> r == Err("Timed out waiting for Discord bot to connect"))
    {
      if ready {
        return Err("Already connected to Discord");
      }
      ready := false;
      ctx := None;
      match outcome
      case ClientFailed =>
        r := Err("Failed to create Discord client");
      case ReadyTimedOut =>
        r := Err("Timed out waiting for Discord bot to connect");
      case ReadyWith(c) =>
        ctx := Some(c);
        ready := true;
        voice := Some(VoiceManager);
        r := Ok(());
    }

    /** `disconnect`: clears the ready flag, the voice manager and the context;
        a recording in progress keeps its state. */
    method Disconnect()
      requires Valid()
      modifies this
      ensures Valid()
      ensures !ready && voice.None? && ctx.None?
      ensures receiverState == old(receiverState) && currentGuild == old(currentGuild)
    {
      ready := false;
      voice := None;
      ctx := None;
    }

    /** `start_recording`: refused while recording, when not connected, and
        when joining the channel fails, in that order, with nothing changed.
        Otherwise a fresh receiver state sharing the bot's status cell is
        kept, the recording flag is set and the guild remembered. Whether the
        start notice could be posted does not matter. */
    method StartRecording(guildId: U64, channelId: U64, outputDir: string, format: AudioFormat,
                          notify: bool, joined: bool, noticePosted: bool)
      returns (r: Result<()>)
      requires Valid()
      modifies this, status
      ensures Valid()
      ensures ctx == old(ctx) && voice == old(voice) && ready == old(ready)
      ensures old(status.isRecording) ==> r == Err("Already recording")
      ensures !old(status.isRecording) && old(voice).None? ==> r == Err("Not connected to Discord")
      ensures !old(status.isRecording) && old(voice).Some? && !joined ==> r == Err("Failed to join voice channel")
      ensures r.Ok? <==> !old(status.isRecording) && old(voice).Some? && joined
      ensures r.Err? ==>
        && status.isRecording == old(status.isRecording) && status.peakLevel == old(status.peakLevel)
        && receiverState == old(receiverState) && currentGuild == old(currentGuild)
      ensures r.Ok? ==>
        && status.isRecording && currentGuild == Some(guildId) && status.peakLevel == old(status.peakLevel)
        && receiverState.Some? && fresh(receiverState.value)
        && receiverState.value.ssrcMap == map[] && receiverState.value.encoders == map[]
        && receiverState.value.outputDir == outputDir && receiverState.value.format == format
    {
      if status.isRecording {
        return Err("Already recording");
      }
      if voice.None? {
        return Err("Not connected to Discord");
      }
      if !joined {
        return Err("Failed to join voice channel");
      }
      var state := new ReceiverState(outputDir, format, status);
      receiverState := Some(state);
      status.isRecording := true;
      currentGuild := Some(guildId);
      r := Ok(());
    }

    /** `stop_recording`: nothing to do when not recording. Otherwise the flag
        is cleared and the peak zeroed, the guild is forgotten when there is a
        voice manager to leave it with, and the receiver state is taken and
        all its tracks finalized; the result is `finalize_all`'s. */
    method StopRecording(disk: Disk) returns (r: Result<seq<string>>)
      requires Valid()
      modifies this, status, if receiverState.Some? then {receiverState.value} else {}
      ensures Valid()
      ensures ctx == old(ctx) && voice == old(voice) && ready == old(ready)
      ensures !old(status.isRecording) ==>
        && r == Ok([]) && receiverState == old(receiverState) && currentGuild == old(currentGuild)
        && status.peakLevel == old(status.peakLevel)
      ensures old(status.isRecording) ==>
        && !status.isRecording && status.peakLevel == 0.0 && receiverState.None?
        && currentGuild == (if voice.Some? then None else old(currentGuild))
        && var tracks := old(receiverState.value.encoders);
        && (r.Ok? <==> forall s :: s in tracks ==> tracks[s].path !in disk.cannotFinalize)
        && (r.Ok? ==> |r.value| == |tracks|
                      && exists order :: Enumerates(order, tracks.Keys) && r.value == PathsOf(tracks, order))
        && old(receiverState.value).encoders == map[]
    {
      if !status.isRecording {
        return Ok([]);
      }
      status.isRecording := false;
      status.peakLevel := 0.0;
      if voice.Some? && currentGuild.Some? {
        currentGuild := None;
      }
      var state := receiverState.value;
      receiverState := None;
      r := state.FinalizeAll(disk);
    }
  }

  /** Stopping twice: the second stop finds nothing recording and returns no paths. */
  method StopTwice(bot: DiscordBot, disk: Disk) returns (first: Result<seq<string>>, second: Result<seq<string>>)
    requires bot.Valid()
    modifies bot, bot.status, if bot.receiverState.Some? then {bot.receiverState.value} else {}
    ensures second == Ok([])
  {
    first := bot.StopRecording(disk);
    second := bot.StopRecording(disk);
  }
}
