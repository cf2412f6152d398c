/** Choosing the Discord process whose audio is captured on Windows
    (`find_discord_pid` in src-tauri/src/audio/capture.rs). */
module DiscordProcess {
  import opened Common
  import opened Text

  // ---------------------------------------------------------------------------
  // Choosing the Discord process (Windows)
  // ---------------------------------------------------------------------------

  datatype Process = Process(pid: U32, parent: Option<U32>, name: string)

  /** The executable names tried, in order. */
  const DISCORD_PROCESS_NAMES: seq<string> := ["Discord.exe", "discord.exe", "DiscordPTB.exe", "DiscordCanary.exe"]

  /** `processes_by_name(name)` (names containing `name`), sorted by pid with a
      stable sort, first element: the index of the earliest-listed process with
      the lowest pid among those whose name contains `name`. */
  function LowestMatch(procs: seq<Process>, name: string): (r: Option<nat>)
    ensures r.None? <==> forall i :: 0 <= i < |procs| ==> !Contains(procs[i].name, name)
    ensures r.Some? ==> r.value < |procs| && Contains(procs[r.value].name, name)
    ensures r.Some? ==> forall i :: 0 <= i < |procs| && Contains(procs[i].name, name) ==>
      procs[r.value].pid < procs[i].pid || (procs[r.value].pid == procs[i].pid && r.value <= i)
    decreases |procs|
  {
    if procs == [] then None
    else
      var rest := LowestMatch(procs[1..], name);
      if !Contains(procs[0].name, name) then
        if rest.None? then None else Some(rest.value + 1)
      else if rest.Some? && procs[rest.value + 1].pid < procs[0].pid then Some(rest.value + 1)
      else Some(0)
  }

  /** Tries the candidate names in order and keeps the first that matches any
      process: the candidate's position and the index of its chosen process. */
  function SelectCandidate(names: seq<string>, procs: seq<Process>): (r: Option<(nat, nat)>)
    ensures r.Some? ==> r.value.0 < |names| && LowestMatch(procs, names[r.value.0]) == Some(r.value.1)
    decreases |names|
  {
    if names == [] then None
    else match LowestMatch(procs, names[0])
      case Some(i) => Some((0, i))
      case None =>
        match SelectCandidate(names[1..], procs)
        case None => None
        case Some((c, i)) => Some((c + 1, i))
  }

  /** No candidate is chosen exactly when no process matches any of them, and
      every candidate before the chosen one matches no process. */
  lemma {:induction false} SelectCandidateFirst(names: seq<string>, procs: seq<Process>)
    ensures var r := SelectCandidate(names, procs);
      && (r.None? <==> forall c, i :: 0 <= c < |names| && 0 <= i < |procs| ==> !Contains(procs[i].name, names[c]))
      && (r.Some? ==> forall c, i :: 0 <= c < r.value.0 && 0 <= i < |procs| ==> !Contains(procs[i].name, names[c]))
    decreases |names|
  {
    if names != [] && LowestMatch(procs, names[0]).None? {
      SelectCandidateFirst(names[1..], procs);
      assert forall c :: 1 <= c < |names| ==> names[c] == names[1..][c - 1];
    }
  }

  /** `find_discord_pid`: the parent of the chosen Discord process when it has
      one (the root of its process tree), otherwise the process itself. */
  function FindDiscordPid(procs: seq<Process>): (r: Result<U32>)
    ensures r.Err? <==> forall c, i :: 0 <= c < |DISCORD_PROCESS_NAMES| && 0 <= i < |procs| ==>
      !Contains(procs[i].name, DISCORD_PROCESS_NAMES[c])
    ensures r.Err? ==> r.msg == "Discord is not running. Please start Discord before recording."
    ensures r.Ok? ==> exists c, i ::
      && 0 <= c < |DISCORD_PROCESS_NAMES| && LowestMatch(procs, DISCORD_PROCESS_NAMES[c]) == Some(i)
      && (forall c', j :: 0 <= c' < c && 0 <= j < |procs| ==> !Contains(procs[j].name, DISCORD_PROCESS_NAMES[c']))
      && r.value == procs[i].parent.GetOr(procs[i].pid)
  {
    SelectCandidateFirst(DISCORD_PROCESS_NAMES, procs);
    match SelectCandidate(DISCORD_PROCESS_NAMES, procs)
    case None => Err("Discord is not running. Please start Discord before recording.")
    case Some((_, i)) => Ok(procs[i].parent.GetOr(procs[i].pid))
  }
}
