# DiscRec recording core, modelled in Dafny

DiscRec is a desktop recorder for Discord audio. This project models the
parts of its Rust back end that decide what gets recorded and where it ends up.

**System-audio capture** (`src-tauri/src/audio/capture.rs`)
- The `AudioCapture` start/stop control, with the shared recording flag that
  the capture thread can also clear.
- The Windows WASAPI thread. Each round checks for a stop, then checks the
  maximum duration, then reads captured bytes into a queue. The queue drains
  into the encoder in whole 4-byte samples until a write fails.
- On Windows, choosing the Discord process to capture.
- The cpal thread's wait loop, and its input callbacks writing to the encoder.
- On Linux and macOS, choosing the loopback input device.
- On Linux, per-application routing through PulseAudio:
  - the parser of `pactl list sink-inputs`;
  - loading the null sink and the loopback;
  - moving Discord onto the null sink, with rollback when the move fails;
  - teardown when the routing is dropped.

**The voice receiver** (`src-tauri/src/discord/receiver.rs`)
- The speaker table: which user speaks on which SSRC, the RTP stream id.
- One track per SSRC, named after its user or its SSRC, opened on first voice.
- Each voice tick appends the decoded samples to the speaker's own track.
- `finalize_all` closes every track and returns the saved paths.

**The bot** (`src-tauri/src/discord/bot.rs`)
- Connection state, with the guards of `connect` and `disconnect`.
- The guards of `start_recording` and `stop_recording`, and their effect on
  the receiver state.
- The member count of a voice channel, read from the gateway cache.

## How the model is built

Modules follow the source files:

| Module | What it holds | Source |
|---|---|---|
| `Common` | `Option`/`Result`, fixed-width integers, `LiveStatus` | — |
| `Text` | Rust string behaviour the parsers rely on | — |
| `Encoder` | the encoder as the core sees it | `encoder.rs` |
| `Capture` | recorder control, the cpal loop and its callbacks | `capture.rs` |
| `Wasapi` | the Windows capture thread | `capture.rs` |
| `DiscordProcess` | choosing the Discord process | `capture.rs` |
| `Devices` | choosing the loopback input device | `capture.rs` |
| `PulseRouting` | per-application routing on Linux | `capture.rs` |
| `Receiver` | the voice receiver | `receiver.rs` |
| `Bot` | connection and recording control | `bot.rs` |

`LiveStatus` is the shared cell: the recording flag and the peak level.

The `Text` module covers `trim` with Unicode whitespace, `lines`,
`strip_prefix`, `contains`, decimal rendering and `parse::<u32>`.

Code that changes state in place becomes classes with `modifies` clauses:
- `AudioCapture`;
- `ReceiverState`;
- `VoiceHandler`;
- `DiscordBot`;
- the shared status object.

The loops of the source are methods with loop invariants, each proved
against a specification function:
- the WASAPI loop and its drain;
- the cpal wait loop;
- the sink-input parser;
- the per-speaker tick and sample-write loops;
- the `finalize_all` drain.

Pure choices are functions with lemmas: process selection, device selection,
track naming and the member count.

Some inputs come from outside the program, so they are parameters:
- what the operating system, the sound server, the audio device or Discord answer;
- the wall clock.

Four of these deserve a word:
- **The file system.** A `Disk` value says which paths cannot be created or
  finalized, and how many samples a file holds before a write fails.
- **`pactl`.** A run of `pactl` is a `PactlRun`. Each invocation setup or
  teardown issues is an entry of a command trace. "Every module loaded is
  unloaded" is stated as a balance of loads against unloads over that trace.
- **The WASAPI device.** Its rounds are a sequence of `Poll` values: a stop
  signal, the elapsed time and the bytes read.
- **HashMap iteration order.** It is left unspecified. The loops choose the
  next key nondeterministically.

## Model

| member | source | states |
|---|---|---|
| Text.TrimStartSpec | src-tauri/src/audio/capture.rs:591 | trimming the start leaves the suffix that follows the leading Unicode whitespace, and that suffix does not start with whitespace |
| Text.TrimEndSpec | src-tauri/src/audio/capture.rs:591 | trimming the end leaves the prefix that precedes the trailing Unicode whitespace, and that prefix does not end with whitespace |
| Text.TrimStartConcat | src-tauri/src/audio/capture.rs:591 | trimming the start of a concatenation trims into the second part only when the first part is all whitespace |
| Text.TrimEndConcat | src-tauri/src/audio/capture.rs:591 | trimming the end of a concatenation trims into the first part only when the second part is all whitespace |
| Text.WhitespaceTrimsAway | src-tauri/src/audio/capture.rs:591 | a run of whitespace trims to nothing from either end |
| Text.TrimPadded | src-tauri/src/audio/capture.rs:591 | whitespace before and after a line does not change its trim |
| Text.FirstNewline | src-tauri/src/audio/capture.rs:589 | the position found is the first line feed, or the end when there is none |
| Text.Lines | src-tauri/src/audio/capture.rs:589 | no line of the output contains a line feed |
| Text.LinesCons | src-tauri/src/audio/capture.rs:589 | a line followed by a line feed is read back as that line, followed by the lines of the rest |
| Text.LinesCrlf | src-tauri/src/audio/capture.rs:589 | a line ended by a carriage return and a line feed is read back without the carriage return, followed by the lines of the rest |
| Text.LinesLast | src-tauri/src/audio/capture.rs:589 | a last line without a line feed is read back whole, a trailing carriage return included |
| Text.StripPrefix | src-tauri/src/audio/capture.rs:592 | a remainder exists exactly when the line starts with the prefix, and prefix + remainder is the line |
| Text.ToLowercase | src-tauri/src/audio/capture.rs:598 | same length, and each ASCII capital and each Kelvin sign is replaced by its lower-case ASCII letter, every other character kept |
| Text.ToLowercaseIdempotent | src-tauri/src/audio/capture.rs:598 | lower-casing twice gives what lower-casing once gives, with no capital left |
| Text.ParseU32 | src-tauri/src/audio/capture.rs:593 | a parsed number is the value of a non-empty digit string, optionally preceded by `+` |
| Text.ParseU32Digits | src-tauri/src/audio/capture.rs:593 | every optional `+` followed by digits, leading zeros included, is read as its value when that fits in 32 bits, and refused otherwise |
| Text.ParseU32Decimal | src-tauri/src/audio/capture.rs:563 | parsing the decimal rendering of any 32-bit number gives that number back |
| Text.DecimalInjective | src-tauri/src/discord/receiver.rs:70-74 | distinct numbers render to distinct decimal strings |
| Encoder.Open | src-tauri/src/audio/encoder.rs:11-23 | opening fails exactly for the paths the disk refuses; a new encoder is empty, with the requested path and layout |
| Encoder.WriteSample | src-tauri/src/audio/encoder.rs:25-30 | a write succeeds exactly while the file has room, appends the one sample, and otherwise fails with "Failed to write audio sample" |
| Encoder.WriteBlock | src-tauri/src/audio/capture.rs:284-287 | writing sample by sample until a failure appends the longest prefix of the block that fits, in order, and a short write leaves the file full |
| Encoder.WriteBlockConcat | src-tauri/src/audio/capture.rs:268-288 | writing two blocks in turn leaves the file as writing their concatenation does |
| Encoder.Finalize | src-tauri/src/audio/encoder.rs:36-41 | finalizing fails exactly when the disk refuses the path, with "Failed to finalize WAV file", and otherwise yields the encoder's path |
| Capture.AudioCapture.constructor | src-tauri/src/audio/capture.rs:25-33 | a new recorder holds no thread and no sender, is not recording and shows a zero level |
| Capture.AudioCapture.Start | src-tauri/src/audio/capture.rs:43-94 | refused with "Already recording" while recording, changing nothing; otherwise sets the flag and keeps the sender and thread of a job that carries exactly the given path, format, silence-trim flag and limit |
| Capture.AudioCapture.Stop | src-tauri/src/audio/capture.rs:96-115 | always clears the flag, zeroes the level and drops both handles; returns the joined thread's result, "Recording thread panicked" on a panic, or no path when no thread was running |
| Capture.RepeatedStop | src-tauri/src/audio/capture.rs:102-114 | a second stop finds nothing to join and returns no path |
| Capture.CpalWaitLoop | src-tauri/src/audio/capture.rs:424-440 | the loop ends at the first round that is a stop message, a closed channel or a timeout past the limit; every earlier round kept it running; without a limit it never ends by duration; only the limit clears the shared flag |
| Capture.DeliveredIsRecorded | src-tauri/src/audio/capture.rs:370-415 | the file holds the longest prefix that fits of the samples the callbacks received while the flag was set, in order; callbacks that saw the flag clear contribute nothing |
| Capture.CpalFinish | src-tauri/src/audio/capture.rs:446-455 | an empty encoder slot yields no path; otherwise the result is the encoder's path, or the finalize error exactly when finalizing fails |
| Wasapi.WordsAt | src-tauri/src/audio/capture.rs:268-275 | sample number j of a queue is the little-endian word of its bytes 4j to 4j + 3 |
| Wasapi.LeftoverShape | src-tauri/src/audio/capture.rs:268 | a queue is its whole 4-byte samples followed by a leftover of fewer than four bytes |
| Wasapi.GroupsAppend | src-tauri/src/audio/capture.rs:247-275 | appending bytes to a queue: its samples are the old queue's samples, then those of its leftover followed by the new bytes, and the leftover agrees |
| Wasapi.DrainedFifo | src-tauri/src/audio/capture.rs:268-288 | draining writes the queue's samples front first, as many as the encoder takes; if all are taken only the leftover stays queued; if a write fails, that sample's bytes are gone and every later byte stays queued |
| Wasapi.DrainQueue | src-tauri/src/audio/capture.rs:268-288 | the drain loop leaves exactly the queue and encoder that the drain specification describes |
| Wasapi.RoundsUnbounded | src-tauri/src/audio/capture.rs:229-295 | with no write failure, the rounds together write every whole sample of all bytes read, in order, and keep only the incomplete tail queued |
| Wasapi.PollRound | src-tauri/src/audio/capture.rs:231-288 | a round exits on a stop message or a cleared flag, then exits on reaching the limit; otherwise it appends the bytes read to the queue and drains it |
| Wasapi.RunRounds | src-tauri/src/audio/capture.rs:229-295 | the rounds run until the first one that exits, none before it exited, and the queue and encoder are those left by the rounds that read |
| Wasapi.WasapiLoop | src-tauri/src/audio/capture.rs:229-295 | the loop ends at the first round that stops it; no earlier round did; the flag is cleared only on the limit; the queue and encoder are those left by the rounds that read |
| Wasapi.WasapiThread | src-tauri/src/audio/capture.rs:297-302 | after the loop the result is the encoder's path, or the finalize error exactly when finalizing fails |
| DiscordProcess.LowestMatch | src-tauri/src/audio/capture.rs:139-143 | no index exactly when no process name contains the candidate; otherwise the first-listed process with the lowest pid among those that match |
| DiscordProcess.SelectCandidate | src-tauri/src/audio/capture.rs:138-153 | a chosen candidate is one of the names, paired with its lowest-pid matching process |
| DiscordProcess.SelectCandidateFirst | src-tauri/src/audio/capture.rs:138-153 | nothing is chosen exactly when no process matches any candidate, and no candidate before the chosen one matches any process |
| DiscordProcess.FindDiscordPid | src-tauri/src/audio/capture.rs:123-156 | fails with the "Discord is not running" message exactly when no process matches any of the four names; otherwise the chosen process's parent pid, or its own pid when it has no parent |
| Devices.FirstWithKeyword | src-tauri/src/audio/capture.rs:640-644 | the first device whose readable name, lower-cased when asked, contains a keyword; nothing exactly when no device qualifies |
| Devices.LinuxLoopbackDevice | src-tauri/src/audio/capture.rs:613-656 | the first device whose name contains the preferred source, else the first monitor device, else the default input; with neither, the PulseAudio/PipeWire error; when the devices cannot be listed, the host's error unchanged |
| Devices.MacLoopbackDevice | src-tauri/src/audio/capture.rs:659-695 | the first device whose lower-cased name names a known virtual device, else the default input, else the BlackHole error; when the devices cannot be listed, the host's error unchanged |
| PulseRouting.ClassifyPadded | src-tauri/src/audio/capture.rs:590-591 | a line is classified the same whatever whitespace indents or follows it |
| PulseRouting.FindDiscordSinkInput | src-tauri/src/audio/capture.rs:576-609 | no answer when pactl cannot start or fails; otherwise, over the lines of its output, no answer exactly when no line is a Discord line inside a block with a known number and sink, and an answer is the number and sink at the first such line |
| PulseRouting.ScanOrigin | src-tauri/src/audio/capture.rs:592-596 | the remembered number comes from the last header and the remembered sink from a sink line after it, so an answer never pairs a block with an earlier block's sink |
| PulseRouting.FindsDiscordBlock | src-tauri/src/audio/capture.rs:590-604 | a header, a sink line and a Discord line are found as that block's number and sink, whatever non-matching lines precede them |
| PulseRouting.ClassifyHeader | src-tauri/src/audio/capture.rs:592-593 | a printed block header is read back as its number |
| PulseRouting.ClassifySinkLine | src-tauri/src/audio/capture.rs:595-596 | an indented printed sink line is read back as its sink number |
| PulseRouting.ClassifyAppName | src-tauri/src/audio/capture.rs:597-599 | an application.name property whose value mentions Discord in any ASCII case is a Discord line |
| PulseRouting.ModuleNumber | src-tauri/src/audio/capture.rs:557-564 | no number when pactl cannot start or fails; a number read is the value of the trimmed output's digits |
| PulseRouting.ModuleNumberOfPrinted | src-tauri/src/audio/capture.rs:557-564 | a module number printed with a trailing newline is read back |
| PulseRouting.Teardown | src-tauri/src/audio/capture.rs:538-554 | dropping the routing first moves Discord back to its original sink, then only unloads modules, and loads nothing |
| PulseRouting.TeardownNet | src-tauri/src/audio/capture.rs:549-552 | teardown unloads the null sink once, and the loopback once unless its number is the 0 placeholder |
| PulseRouting.PreparedNet | src-tauri/src/audio/capture.rs:481-512 | up to the move, setup has loaded the null sink and, when its load succeeded, the loopback, and unloaded nothing |
| PulseRouting.RollbackBalanced | src-tauri/src/audio/capture.rs:514-521 | after a failed move, every module loaded is unloaded exactly once and nothing else is unloaded |
| PulseRouting.SetupTeardownBalanced | src-tauri/src/audio/capture.rs:475-554 | an established routing, once dropped, has unloaded exactly the modules it loaded, when the loopback's number is not 0 |
| PulseRouting.LoopbackZeroLeaks | src-tauri/src/audio/capture.rs:526 | a loopback that got module number 0 stays loaded after teardown |
| PulseRouting.EarlyExitBalanced | src-tauri/src/audio/capture.rs:477-488 | a setup that ends at the listing or at the null-sink load leaves nothing loaded |
| PulseRouting.Setup | src-tauri/src/audio/capture.rs:475-530 | a routing exists only for the Discord stream a successful listing reveals, a loaded null sink and a successful move, and always exists then; without a routing nothing stays loaded; a routing's teardown unloads what setup loaded |
| PulseRouting.Reroute | src-tauri/src/audio/capture.rs:480-529 | a routing exists exactly when the null sink loaded and the move succeeded; it records the module numbers, with 0 for a failed loopback, the stream and its original sink; otherwise everything loaded was unloaded |
| Receiver.LabelInjective | src-tauri/src/discord/receiver.rs:70-74 | two SSRCs get the same label exactly when they are the same SSRC or belong to the same user |
| Receiver.TrackPathInjective | src-tauri/src/discord/receiver.rs:77-87 | under one directory, timestamp and format, two labels give the same path exactly when they are equal |
| Receiver.DistinctSpeakersDistinctTracks | src-tauri/src/discord/receiver.rs:70-87 | speakers that are neither the same SSRC nor the same user get different files |
| Receiver.TrackAfter | src-tauri/src/discord/receiver.rs:130-158 | without decoded voice a speaker's track is unchanged; with voice, the samples are written to the existing track, or a track is opened at the speaker's path unless the disk refuses, and the new track holds what writing the samples to a fresh file leaves: the longest prefix that fits |
| Receiver.AfterTickPerSpeaker | src-tauri/src/discord/receiver.rs:123-164 | after a tick each speaker's track depends only on that speaker: kept without voice, extended by the samples that fit, or newly opened at the speaker's own path holding the longest prefix of the samples that fits |
| Receiver.ReceiverState.constructor | src-tauri/src/discord/receiver.rs:24-40 | both tables are empty, the directory, format and status are the given ones, and tracks are mono at 48 kHz |
| Receiver.ReceiverState.GetOrCreateEncoder | src-tauri/src/discord/receiver.rs:63-93 | with a track present nothing changes; otherwise a new empty mono 48 kHz track at the speaker's path is added, or, when the disk refuses the path, an error with nothing added |
| Receiver.ReceiverState.FinalizeAll | src-tauri/src/discord/receiver.rs:43-61 | the track table ends empty; success exactly when every track can be finalized, and then one path per track, each track's path once |
| Receiver.FinalizeTracks | src-tauri/src/discord/receiver.rs:48-60 | finalizing the drained tracks in some order succeeds exactly when each can be finalized, and then returns the tracks' paths in that order, each once |
| Receiver.ReceiverState.WriteSamples | src-tauri/src/discord/receiver.rs:150-156 | the sample loop writes the longest prefix of the samples that fits, in order |
| Receiver.ReceiverState.Tick | src-tauri/src/discord/receiver.rs:123-164 | while not recording the tracks are unchanged; while recording the track table becomes the one every speaker's voice leads to, and the speaker map is untouched |
| Receiver.ReceiverState.SpeakerStep | src-tauri/src/discord/receiver.rs:131-157 | one speaker's handling changes only that speaker's track, as the per-speaker rule says |
| Receiver.VoiceHandler.Act | src-tauri/src/discord/receiver.rs:108-168 | a speaking update with a user maps that SSRC to the user; a voice tick updates the tracks as a tick does; other events change nothing; the handler never asks to be removed |
| Bot.ChannelMemberCount | src-tauri/src/discord/bot.rs:240-260 | "Not connected to Discord" exactly when there is no context; an uncached guild counts 0; otherwise the count is exactly the number of voice states in the channel, and so at most the guild's number of voice states |
| Bot.CountBound | src-tauri/src/discord/bot.rs:247-255 | no more members are counted in a channel than the guild has voice states |
| Bot.CountJoin | src-tauri/src/discord/bot.rs:247-255 | a member moving into the channel raises the count by one unless already there |
| Bot.CountLeave | src-tauri/src/discord/bot.rs:247-255 | a member leaving the channel lowers the count by one if it was there |
| Bot.DiscordBot.constructor | src-tauri/src/discord/bot.rs:52-62 | a new bot is disconnected, not recording, with no receiver state, no guild and a zero level |
| Bot.DiscordBot.Connect | src-tauri/src/discord/bot.rs:76-121 | refused with "Already connected to Discord" when connected; otherwise connected exactly when the client was built and the ready event came in time, with the client-creation or time-out message otherwise; recording state untouched |
| Bot.DiscordBot.Disconnect | src-tauri/src/discord/bot.rs:123-128 | not ready, no voice manager, no context; a recording keeps its state |
| Bot.DiscordBot.StartRecording | src-tauri/src/discord/bot.rs:172-238 | refused while recording, when not connected, or when joining fails, in that order and with nothing changed; otherwise recording, with a fresh empty receiver state for the given directory and format, and the guild remembered |
| Bot.DiscordBot.StopRecording | src-tauri/src/discord/bot.rs:262-286 | no paths when not recording; otherwise the flag is cleared and the level zeroed, the guild is forgotten when a voice manager can leave it, and the result is finalizing all tracks of the receiver state |
| Bot.StopTwice | src-tauri/src/discord/bot.rs:262-265 | a second stop finds nothing recording and returns no paths |

## Left out

- Floating point. The peak meter is left out: the per-sample maximum, the
  5 % decay per WASAPI round and the normalised peak a voice tick stores.
  The model's level is only set to zero by `stop` and `stop_recording`.
- Samples are kept without conversion to `f32`:
  - a WASAPI sample is the 32-bit bit pattern of its four little-endian bytes;
  - a receiver sample is the decoded `i16` value, not its division by `i16::MAX`.
- Receiver.ReceiverState.Tick: does not store the tick's peak level into the
  shared status, because that value is a float computation.
- Threads and locks are not modelled: mutexes, atomics, interleavings of the
  capture thread with `stop`, and songbird calling the handler concurrently.
  Each operation is one atomic step on the shared state.
- Capture.CpalWaitLoop and Wasapi.WasapiLoop run over a finite sequence of
  rounds that the environment supplies. A run that never stops is not
  modelled.
- Device set-up before the loops is not modelled: COM initialisation, WASAPI
  client creation, the cpal stream building and its sample-format dispatch.
  Their errors are not modelled either.
- Silence trimming is not modelled. `create_encoder` and the encoder
  implementations behind it are not part of this model. The encoder is the
  abstract sink of `Encoder`.
- Receiver.ReceiverState.GetOrCreateEncoder reports "Failed to create WAV
  file" for every refused path. The source also creates the parent directory
  first, and that failure has its own message. It is folded into the same
  refusal.
- The receiver calls `create_encoder` with four arguments, but the capture
  threads pass a fifth, the silence-trim flag. The model follows the four-argument
  call the receiver makes, and the sink has no silence-trim option.
- Receiver.ReceiverState.GetOrCreateEncoder and Receiver.AfterTickPerSpeaker
  treat every track as an independent file. Two SSRCs of the same user get
  the same path, so when both are first heard before either track is
  finalized, the source's second `create_encoder` truncates the file the
  first writer holds. In the model both tracks exist side by side, and the
  `Disk` does not refuse a second open of a path that is already open.
- Receiver.JoinPath follows the Unix rules of `Path::join` only. Windows
  prefixes and separators are not modelled.
- Receiver.ReceiverState.Tick takes one timestamp for the whole tick. The
  source reads the local clock each time it creates a track, so tracks opened
  in the same tick may get timestamps a second apart.
- The output of `pactl` is a string. `from_utf8_lossy` decoding of its bytes
  is not modelled.
- Text.ToLowercase maps the ASCII capitals and the Kelvin sign (to `k`) and
  keeps every other character. Rust's `to_lowercase` also maps other
  non-ASCII letters, but to non-ASCII letters, with one exception: the dotted
  capital I becomes `i` followed by a combining dot. That `i` cannot complete
  any keyword searched for in lower-cased text ("discord" and the macOS
  virtual-device names): in each of them an `i` is followed by an ASCII
  letter. So PulseRouting.Classify and Devices.MacLoopbackDevice give the
  same answers. This reasoning about Unicode is not proved in the model.
- Encoder.WriteSample models a write failure as a full file. After one
  failure every later write to that file fails too, and one `Disk` quota
  applies to every file. The source goes on writing after a failed write:
  the WASAPI drain stops for that round only, and each cpal callback and each
  voice tick writes again. A transient failure there leaves a gap in the
  file, not a shorter file. Encoder.WriteBlockConcat,
  Capture.DeliveredIsRecorded and Receiver.TrackAfter describe the file as a
  prefix of the samples only because of this.
- PulseRouting.ModuleNumber reads no number from a `load-module` that
  succeeded but printed no number `parse` accepts. The trace then records the
  load as `loaded: None`, like a failed load. So the balance lemmas
  (PulseRouting.Setup, PulseRouting.EarlyExitBalanced,
  PulseRouting.RollbackBalanced) count only the modules whose number the
  program learned.
- Devices.LinuxLoopbackDevice takes one enumeration of the devices. The
  source enumerates them again for each search, and the enumerations could
  differ or fail separately.
- Starting the serenity client, the gateway and the cache that fills it are
  outcome parameters: the `ConnectOutcome` value and the `Context`.
  Joining and leaving a channel and posting the start notice are outcome
  parameters too.
- Bot.DiscordBot.Connect does not model a ready event that arrives after the
  time-out, which would still fill the context.
- Bot.DiscordBot.StartRecording does not model registering the handlers with
  songbird. `Receiver.VoiceHandler` is the handler that would be registered.
- The text of the notification message is not modelled.
- Guild and channel ids of 0, which `GuildId::new` rejects by panicking,
  are not excluded.
- `list_guilds` and `list_voice_channels` are not modelled. Neither is the
  token storage in the OS keyring, the settings, or the Tauri command glue
  around the core.
- PulseRouting.SetupTeardownBalanced requires that the loopback did not get
  module number 0. That number is the source's placeholder for "no loopback",
  so teardown would not unload such a module.
  PulseRouting.LoopbackZeroLeaks states that case.
