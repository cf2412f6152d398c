/** Per-application routing on Linux (the `pulse_routing` module of
    src-tauri/src/audio/capture.rs): Discord's playback stream is found in the
    listing printed by `pactl list sink-inputs`, moved onto a private null sink
    whose monitor is then recorded, and a loopback keeps it audible. Dropping
    the routing moves the stream back and unloads the modules.

    Each `pactl` invocation is an entry of a trace of commands; the outcome of
    an invocation is a parameter, since it comes from the sound server. */
module PulseRouting {
  import opened Common
  import opened Text

  // ---------------------------------------------------------------------------
  // Reading `pactl list sink-inputs`
  // ---------------------------------------------------------------------------

  /** What the parser remembers: the number of the current sink-input block
      and the sink that block reported, when they parsed. */
  datatype ScanState = ScanState(index: Option<U32>, sink: Option<U32>)

  const START := ScanState(None, None)

  const HEADER_PREFIX := "Sink Input #"
  const SINK_PREFIX := "Sink: "
  const APP_NAME_KEY := "application.name"
  const DISCORD := "discord"

  /** What a line of the listing is, once trimmed; the first rule that applies wins. */
  datatype LineKind =
    | Header(index: Option<U32>)
    | SinkLine(sink: Option<U32>)
    | AppName(isDiscord: bool)
    | OtherLine

  function Classify(line: string): LineKind
  {
    ClassifyTrimmed(Trim(line))
  }

  /** The rules applied to a line that has already been trimmed. */
  function ClassifyTrimmed(t: string): LineKind
  {
    match StripPrefix(t, HEADER_PREFIX)
    case Some(rest) => Header(ParseU32(rest))
    case None =>
      match StripPrefix(t, SINK_PREFIX)
      case Some(rest) => SinkLine(ParseU32(Trim(rest)))
      case None =>
        if Contains(t, APP_NAME_KEY) then AppName(Contains(ToLowercase(t), DISCORD))
        else OtherLine
  }

  /** A line is classified the same however it is indented or padded: the
      nesting of `pactl`'s output does not matter. */
  lemma ClassifyPadded(ws1: string, line: string, ws2: string)
    requires AllWhitespace(ws1) && AllWhitespace(ws2)
    ensures Classify(ws1 + line + ws2) == Classify(line)
  {
    TrimPadded(ws1, line, ws2);
  }


  function Kinds(lines: seq<string>): (r: seq<LineKind>)
    ensures |r| == |lines| && forall i :: 0 <= i < |lines| ==> r[i] == Classify(lines[i])
  {
    seq(|lines|, i requires 0 <= i < |lines| => Classify(lines[i]))
  }

  /** How a line changes what the parser remembers: a header starts a new block
      (forgetting the previous block's sink), a sink line records the sink. */
  function Step(st: ScanState, k: LineKind): ScanState {
    match k
    case Header(i) => ScanState(i, None)
    case SinkLine(s) => st.(sink := s)
    case _ => st
  }

  /** What the parser remembers after the given lines. */
  function Scan(st: ScanState, kinds: seq<LineKind>): ScanState
    decreases |kinds|
  {
    if kinds == [] then st else Step(Scan(st, kinds[..|kinds| - 1]), kinds[|kinds| - 1])
  }

  /** A Discord application line inside a block whose number and sink parsed. */
  predicate Hit(st: ScanState, k: LineKind) {
    k == AppName(true) && st.index.Some? && st.sink.Some?
  }

  /** Line `k` of the listing is a hit. */
  predicate HitAt(kinds: seq<LineKind>, k: int) {
    0 <= k < |kinds| && Hit(Scan(START, kinds[..k]), kinds[k])
  }

  /** No line in `lo..hi` starts a new block. */
  predicate NoHeaderIn(kinds: seq<LineKind>, lo: int, hi: int) {
    forall j :: lo <= j < hi && 0 <= j < |kinds| ==> !kinds[j].Header?
  }

  /** The result of the search: the block number and sink at the first hit. */
  predicate FoundAt(kinds: seq<LineKind>, k: int, idx: U32, sink: U32) {
    && HitAt(kinds, k)
    && (forall j :: 0 <= j < k ==> !HitAt(kinds, j))
    && Scan(START, kinds[..k]) == ScanState(Some(idx), Some(sink))
  }

  /** The output of one `pactl` run: it did not start, or it exited with a
      status and printed something. */
  datatype PactlRun = NotSpawned | Exited(success: bool, stdout: string)

  /** `find_discord_sink_input`: walks the listing line by line and answers at
      the first Discord application line of a block whose number and sink are
      known. */
  method FindDiscordSinkInput(listing: PactlRun) returns (r: Option<(U32, U32)>)
    ensures (listing.NotSpawned? || !listing.success) ==> r.None?
    ensures listing.Exited? && listing.success ==>
      var lines := Lines(listing.stdout);
      && (r.None? <==> forall k :: 0 <= k < |lines| ==> !HitAt(Kinds(lines), k))
      && (r.Some? ==> exists k :: FoundAt(Kinds(lines), k, r.value.0, r.value.1))
  {
    if listing.NotSpawned? || !listing.success {
      return None;
    }
    var lines := Lines(listing.stdout);
    ghost var kinds := Kinds(lines);
    var st := START;
    var i := 0;
    while i < |lines|
      invariant i <= |lines| && st == Scan(START, kinds[..i])
      invariant forall j :: 0 <= j < i ==> !HitAt(kinds, j)
    {
      var kind := Classify(lines[i]);
      if Hit(st, kind) {
        assert FoundAt(kinds, i, st.index.value, st.sink.value);
        return Some((st.index.value, st.sink.value));
      }
      NoHitStep(kinds, i, st);
      st := Step(st, kind);
      i := i + 1;
    }
    r := None;
  }

  /** One more line read without a hit. */
  lemma NoHitStep(kinds: seq<LineKind>, i: nat, st: ScanState)
    requires i < |kinds| && st == Scan(START, kinds[..i]) && !Hit(st, kinds[i])
    requires forall j :: 0 <= j < i ==> !HitAt(kinds, j)
    ensures Step(st, kinds[i]) == Scan(START, kinds[..i + 1])
    ensures forall j :: 0 <= j < i + 1 ==> !HitAt(kinds, j)
  {
    assert kinds[..i + 1][..i] == kinds[..i];
  }

  /** Where the remembered values come from: the block number from the last
      header so far, and the sink from a sink line after it. So a hit never
      pairs a block with the sink of an earlier block. */
  lemma {:induction false} ScanOrigin(kinds: seq<LineKind>, k: nat)
    requires k <= |kinds|
    ensures var st := Scan(START, kinds[..k]);
      && (st.index.Some? ==> exists h :: 0 <= h < k && kinds[h] == Header(st.index) && NoHeaderIn(kinds, h + 1, k))
      && (st.sink.Some? ==> exists s :: 0 <= s < k && kinds[s] == SinkLine(st.sink) && NoHeaderIn(kinds, s + 1, k))
  {
    if k > 0 {
      ScanOrigin(kinds, k - 1);
      assert kinds[..k][..k - 1] == kinds[..k - 1];
      var prev := Scan(START, kinds[..k - 1]);
      var st := Scan(START, kinds[..k]);
      var kind := kinds[k - 1];
      assert st == Step(prev, kind);
      if !kind.Header? && st.index.Some? {
        var h :| 0 <= h < k - 1 && kinds[h] == Header(prev.index) && NoHeaderIn(kinds, h + 1, k - 1);
        assert NoHeaderIn(kinds, h + 1, k);
      }
      if !kind.Header? && !kind.SinkLine? && st.sink.Some? {
        var s :| 0 <= s < k - 1 && kinds[s] == SinkLine(prev.sink) && NoHeaderIn(kinds, s + 1, k - 1);
        assert NoHeaderIn(kinds, s + 1, k);
      }
    }
  }

  /** Whatever came before, a block made of a header, a sink line and a
      Discord application line is found: its header forgets any earlier block,
      so the search reports exactly this block's number and sink unless an
      earlier line already hit. */
  lemma FindsDiscordBlock(before: seq<LineKind>, idx: U32, sink: U32)
    requires forall k :: 0 <= k < |before| ==> !HitAt(before, k)
    ensures FoundAt(before + [Header(Some(idx)), SinkLine(Some(sink)), AppName(true)], |before| + 2, idx, sink)
  {
    var kinds := before + [Header(Some(idx)), SinkLine(Some(sink)), AppName(true)];
    var n := |before|;
    forall j | 0 <= j < n ensures !HitAt(kinds, j) {
      assert kinds[..j] == before[..j] && kinds[j] == before[j];
      assert !HitAt(before, j);
    }
    assert kinds[..n + 1][..n] == kinds[..n];
    assert kinds[..n + 2][..n + 1] == kinds[..n + 1];
    assert Scan(START, kinds[..n + 1]) == ScanState(Some(idx), None);
    assert Scan(START, kinds[..n + 2]) == ScanState(Some(idx), Some(sink));
  }

  /** A block header as `pactl` prints it is read back as that block's number. */
  lemma ClassifyHeader(idx: U32)
    ensures Classify(HEADER_PREFIX + Decimal(idx)) == Header(Some(idx))
  {
    var d := Decimal(idx);
    var line := HEADER_PREFIX + d;
    assert IsDigit(d[|d| - 1]);
    TrimmedIsTrim(line);
    assert StripPrefix(line, HEADER_PREFIX) == Some(d);
    ParseU32Decimal(idx);
  }

  lemma SinkLineTrim(e: string)
    requires |e| > 0 && IsDigit(e[|e| - 1])
    ensures Trim("\t" + SINK_PREFIX + e) == SINK_PREFIX + e
  {
    assert "\t" + SINK_PREFIX + e == "\t" + (SINK_PREFIX + e);
    TrimIndented("\t", SINK_PREFIX + e);
  }

  lemma SinkLineFields(e: string)
    ensures StripPrefix(SINK_PREFIX + e, HEADER_PREFIX).None?
    ensures StripPrefix(SINK_PREFIX + e, SINK_PREFIX) == Some(e)
  {
    assert (SINK_PREFIX + e)[4] != HEADER_PREFIX[4];
  }

  /** An indented sink line is read back as that sink's number. */
  lemma ClassifySinkLine(sink: U32)
    ensures Classify("\t" + SINK_PREFIX + Decimal(sink)) == SinkLine(Some(sink))
  {
    var e := Decimal(sink);
    DecimalTrimmed(sink);
    SinkLineTrim(e);
    SinkLineFields(e);
    ParseU32Decimal(sink);
    assert ClassifyTrimmed(SINK_PREFIX + e) == SinkLine(ParseU32(Trim(e)));
  }

  /** The application-name property line marks a Discord line exactly when the
      name mentions Discord in any ASCII case. */
  lemma ClassifyAppName(name: string)
    requires Contains(ToLowercase(name), DISCORD)
    ensures Classify("\t\t" + APP_NAME_KEY + " = \"" + name + "\"") == AppName(true)
  {
    var t := AppNameLineTrim(name);
    ClassifyDiscordName(t);
  }

  /** The indented `application.name = "…"` line trims to its unindented
      text, which names Discord when `name` does. */
  lemma AppNameLineTrim(name: string) returns (t: string)
    requires Contains(ToLowercase(name), DISCORD)
    ensures Trim("\t\t" + APP_NAME_KEY + " = \"" + name + "\"") == t
    ensures StartsWith(t, APP_NAME_KEY) && Contains(ToLowercase(t), DISCORD)
  {
    t := APP_NAME_KEY + " = \"" + name + "\"";
    assert "\t\t" + APP_NAME_KEY + " = \"" + name + "\"" == "\t\t" + t;
    TrimIndented("\t\t", t);
    InfixContains(APP_NAME_KEY + " = \"", name, "\"", DISCORD);
  }

  /** A trimmed line that starts with the application-name key and names
      Discord is classified as a Discord application-name line. */
  lemma ClassifyDiscordName(t: string)
    requires StartsWith(t, APP_NAME_KEY) && Contains(ToLowercase(t), DISCORD)
    ensures ClassifyTrimmed(t) == AppName(true)
  {
    assert t[0] == 'a';
    assert OccursAt(t, APP_NAME_KEY, 0);
    ContainsAt(t, APP_NAME_KEY, 0);
  }

  // ---------------------------------------------------------------------------
  // Loading, moving and unloading
  // ---------------------------------------------------------------------------

  /** The null sink Discord is moved to, and the source recorded from it. */
  const CAPTURE_SINK := "discrec_capture"

  /** The two modules setup loads: the capture sink, and the loopback that
      plays its monitor back to the user. */
  datatype ModuleKind = NullSink | Loopback

  /** A `pactl` invocation, with the module number a load returned (None when
      the load failed or printed no number). Numbers are passed to `pactl` in
      decimal. */
  datatype Command =
    | ListSinkInputs
    | LoadModule(kind: ModuleKind, loaded: Option<U32>)
    | MoveSinkInput(input: U32, target: string)
    | UnloadModule(id: U32)

  /** `run_pactl`: the trimmed standard output of a successful run, read as a module number. */
  function ModuleNumber(run: PactlRun): (r: Option<U32>)
    ensures run.NotSpawned? || !run.success ==> r.None?
    ensures r.Some? ==> exists d :: (d == Trim(run.stdout) || "+" + d == Trim(run.stdout)) && AllDigits(d) && DigitsValue(d) == r.value
  {
    if run.Exited? && run.success then ParseU32(Trim(run.stdout)) else None
  }

  /** `pactl load-module` prints the new module's number and a newline; that is read back. */
  lemma ModuleNumberOfPrinted(n: U32)
    ensures ModuleNumber(Exited(true, Decimal(n) + "\n")) == Some(n)
  {
    var d := Decimal(n);
    assert IsDigit(d[0]) && IsDigit(d[|d| - 1]);
    TrimNewline(d);
    ParseU32Decimal(n);
  }

  /** What an established routing remembers; 0 stands for "no loopback". */
  datatype Routing = Routing(nullSinkModule: U32, loopbackModule: U32, sinkInputIdx: U32, originalSink: U32)

  /** How a command changes the number of times module `m` is loaded. */
  function Delta(c: Command, m: U32): int {
    (if c.LoadModule? && c.loaded == Some(m) then 1 else 0) - (if c.UnloadModule? && c.id == m then 1 else 0)
  }

  /** Loads of `m` minus unloads of `m` over a trace. */
  function Net(trace: seq<Command>, m: U32): int {
    if trace == [] then 0 else Net(trace[..|trace| - 1], m) + Delta(trace[|trace| - 1], m)
  }

  /** Every module loaded is unloaded as often as it is loaded, and nothing
      else is unloaded. */
  predicate Balanced(trace: seq<Command>) {
    forall m: U32 :: Net(trace, m) == 0
  }

  lemma NetSnoc(trace: seq<Command>, c: Command, m: U32)
    ensures Net(trace + [c], m) == Net(trace, m) + Delta(c, m)
  {
    assert (trace + [c])[..|trace|] == trace;
  }

  /** The commands dropping a routing issues: move Discord back to its sink,
      unload the loopback unless it is the 0 placeholder, unload the null sink. */
  function Teardown(r: Routing): (cmds: seq<Command>)
    ensures |cmds| >= 2 && cmds[0] == MoveSinkInput(r.sinkInputIdx, Decimal(r.originalSink))
    ensures forall i :: 0 <= i < |cmds| ==> !cmds[i].LoadModule? && !cmds[i].ListSinkInputs?
    ensures forall i :: 1 <= i < |cmds| ==> cmds[i].UnloadModule?
  {
    [MoveSinkInput(r.sinkInputIdx, Decimal(r.originalSink))]
      + (if r.loopbackModule != 0 then [UnloadModule(r.loopbackModule)] else [])
      + [UnloadModule(r.nullSinkModule)]
  }

  /** Dropping a routing unloads the null sink once, and the loopback once
      unless its number is the 0 placeholder, and loads nothing. */
  lemma TeardownNet(trace: seq<Command>, r: Routing, m: U32)
    ensures Net(trace + Teardown(r), m) ==
      Net(trace, m) - (if m == r.nullSinkModule then 1 else 0) - (if r.loopbackModule != 0 && m == r.loopbackModule then 1 else 0)
  {
    var t1 := trace + [MoveSinkInput(r.sinkInputIdx, Decimal(r.originalSink))];
    var t2 := if r.loopbackModule != 0 then t1 + [UnloadModule(r.loopbackModule)] else t1;
    assert trace + Teardown(r) == t2 + [UnloadModule(r.nullSinkModule)];
    NetSnoc(trace, MoveSinkInput(r.sinkInputIdx, Decimal(r.originalSink)), m);
    if r.loopbackModule != 0 {
      NetSnoc(t1, UnloadModule(r.loopbackModule), m);
    }
    NetSnoc(t2, UnloadModule(r.nullSinkModule), m);
  }

  /** The commands of a setup that got as far as moving Discord. */
  function Prepared(nullSink: U32, loopback: Option<U32>, idx: U32): seq<Command> {
    [ListSinkInputs] + [LoadModule(NullSink, Some(nullSink))] + [LoadModule(Loopback, loopback)]
      + [MoveSinkInput(idx, CAPTURE_SINK)]
  }

  /** Up to the move, setup has loaded the null sink and, when that load
      succeeded, the loopback, and unloaded nothing. */
  lemma PreparedNet(nullSink: U32, loopback: Option<U32>, idx: U32, m: U32)
    ensures Net(Prepared(nullSink, loopback, idx), m) ==
      (if m == nullSink then 1 else 0) + (if loopback == Some(m) then 1 else 0)
  {
    var p1 := [ListSinkInputs];
    var p2 := p1 + [LoadModule(NullSink, Some(nullSink))];
    var p3 := p2 + [LoadModule(Loopback, loopback)];
    NetSnoc([], ListSinkInputs, m);
    assert [] + [ListSinkInputs] == p1;
    NetSnoc(p1, LoadModule(NullSink, Some(nullSink)), m);
    NetSnoc(p2, LoadModule(Loopback, loopback), m);
    NetSnoc(p3, MoveSinkInput(idx, CAPTURE_SINK), m);
  }

  /** After a failed move, the commands issued unload exactly what was loaded. */
  lemma RollbackBalanced(nullSink: U32, loopback: Option<U32>, idx: U32)
    ensures Balanced(Prepared(nullSink, loopback, idx) + [UnloadModule(nullSink)]
      + (if loopback.Some? then [UnloadModule(loopback.value)] else []))
  {
    var p := Prepared(nullSink, loopback, idx);
    var t := p + [UnloadModule(nullSink)] + (if loopback.Some? then [UnloadModule(loopback.value)] else []);
    forall m: U32 ensures Net(t, m) == 0 {
      PreparedNet(nullSink, loopback, idx, m);
      NetSnoc(p, UnloadModule(nullSink), m);
      if loopback.Some? {
        NetSnoc(p + [UnloadModule(nullSink)], UnloadModule(loopback.value), m);
      } else {
        assert t == p + [UnloadModule(nullSink)];
      }
    }
  }

  /** A routing set up and later dropped unloads exactly what it loaded,
      unless the loopback got module number 0. */
  lemma SetupTeardownBalanced(r: Routing, loopback: Option<U32>)
    requires r.loopbackModule == loopback.GetOr(0) && loopback != Some(0)
    ensures Balanced(Prepared(r.nullSinkModule, loopback, r.sinkInputIdx) + Teardown(r))
  {
    forall m: U32 ensures Net(Prepared(r.nullSinkModule, loopback, r.sinkInputIdx) + Teardown(r), m) == 0 {
      PreparedNet(r.nullSinkModule, loopback, r.sinkInputIdx, m);
      TeardownNet(Prepared(r.nullSinkModule, loopback, r.sinkInputIdx), r, m);
    }
  }

  /** A loopback that got module number 0 is loaded by setup and never
      unloaded: the 0 placeholder for "no loopback" hides it. */
  lemma LoopbackZeroLeaks(r: Routing)
    requires r.loopbackModule == 0 && r.nullSinkModule != 0
    ensures Net(Prepared(r.nullSinkModule, Some(0), r.sinkInputIdx) + Teardown(r), 0) == 1
  {
    PreparedNet(r.nullSinkModule, Some(0), r.sinkInputIdx, 0);
    TeardownNet(Prepared(r.nullSinkModule, Some(0), r.sinkInputIdx), r, 0);
  }

  /** Nothing issued yet, or only a failed listing or load: nothing to undo. */
  lemma EarlyExitBalanced(c: Command)
    requires !c.UnloadModule? && (c.LoadModule? ==> c.loaded.None?)
    ensures Balanced([ListSinkInputs]) && Balanced([ListSinkInputs] + [c])
  {
    forall m: U32 ensures Net([ListSinkInputs], m) == 0 && Net([ListSinkInputs] + [c], m) == 0 {
      NetSnoc([], ListSinkInputs, m);
      assert [] + [ListSinkInputs] == [ListSinkInputs];
      NetSnoc([ListSinkInputs], c, m);
    }
  }

  /** `DiscordRouting::setup`, given how each `pactl` run turns out: the listing,
      the null-sink load, the loopback load and the move. The routing is
      established only if Discord is found, the null sink loads and the move
      succeeds; a failed move unloads what was loaded. */
  method Setup(listing: PactlRun, nullSinkRun: PactlRun, loopbackRun: PactlRun, moved: bool)
    returns (routing: Option<Routing>, trace: seq<Command>)
    ensures |trace| >= 1 && trace[0] == ListSinkInputs
    ensures routing.Some? ==>
      && listing.Exited? && listing.success
      && (exists k :: FoundAt(Kinds(Lines(listing.stdout)), k, routing.value.sinkInputIdx, routing.value.originalSink))
      && ModuleNumber(nullSinkRun) == Some(routing.value.nullSinkModule)
      && routing.value.loopbackModule == ModuleNumber(loopbackRun).GetOr(0)
      && moved
      && trace == Prepared(routing.value.nullSinkModule, ModuleNumber(loopbackRun), routing.value.sinkInputIdx)
    ensures routing.None? ==> Balanced(trace)
    ensures routing.Some? && ModuleNumber(loopbackRun) != Some(0) ==> Balanced(trace + Teardown(routing.value))
    ensures listing.Exited? && listing.success && (exists k :: HitAt(Kinds(Lines(listing.stdout)), k)) && ModuleNumber(nullSinkRun).Some? && moved
      ==> routing.Some?
  {
    var found := FindDiscordSinkInput(listing);
    if found.None? {
      EarlyExitBalanced(ListSinkInputs);
      return None, [ListSinkInputs];
    }
    routing, trace := Reroute(found.value.0, found.value.1, nullSinkRun, loopbackRun, moved);
  }

  /** The part of setup after Discord's sink input `idx` was found on sink
      `originalSink`: load the null sink and the loopback, move the input,
      and undo the loads if the move fails. */
  method Reroute(idx: U32, originalSink: U32, nullSinkRun: PactlRun, loopbackRun: PactlRun, moved: bool)
    returns (routing: Option<Routing>, trace: seq<Command>)
    ensures |trace| >= 1 && trace[0] == ListSinkInputs
    ensures routing.Some? ==>
      && ModuleNumber(nullSinkRun) == Some(routing.value.nullSinkModule)
      && routing.value.loopbackModule == ModuleNumber(loopbackRun).GetOr(0)
      && routing.value.sinkInputIdx == idx && routing.value.originalSink == originalSink
      && moved
      && trace == Prepared(routing.value.nullSinkModule, ModuleNumber(loopbackRun), idx)
    ensures routing.None? ==> Balanced(trace)
    ensures routing.Some? && ModuleNumber(loopbackRun) != Some(0) ==> Balanced(trace + Teardown(routing.value))
    ensures routing.Some? <==> ModuleNumber(nullSinkRun).Some? && moved
  {
    var nullSink := ModuleNumber(nullSinkRun);
    if nullSink.None? {
      trace := [ListSinkInputs] + [LoadModule(NullSink, None)];
      EarlyExitBalanced(LoadModule(NullSink, None));
      return None, trace;
    }
    var loopback := ModuleNumber(loopbackRun);
    trace := Prepared(nullSink.value, loopback, idx);
    if !moved {
      RollbackBalanced(nullSink.value, loopback, idx);
      trace := trace + [UnloadModule(nullSink.value)];
      if loopback.Some? {
        trace := trace + [UnloadModule(loopback.value)];
      } else {
        assert trace + [] == trace;
      }
      return None, trace;
    }
    routing := Some(Routing(nullSink.value, loopback.GetOr(0), idx, originalSink));
    if loopback != Some(0) {
      SetupTeardownBalanced(routing.value, loopback);
    }
  }
}
