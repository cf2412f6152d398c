/** Choosing the loopback input device on Linux and macOS
    (`get_loopback_device` in src-tauri/src/audio/capture.rs). */
module Devices {
  import opened Common
  import opened Text

  // ---------------------------------------------------------------------------
  // Choosing the loopback input device
  // ---------------------------------------------------------------------------

  /** An input device as enumerated; reading its name may fail. */
  datatype Device = Device(name: Option<string>)

  /** The device's name (lower-cased first, when asked) contains one of the keywords. */
  predicate NameHasKeyword(d: Device, keywords: seq<string>, lowered: bool) {
    d.name.Some? &&
    var n := if lowered then ToLowercase(d.name.value) else d.name.value;
    exists k :: 0 <= k < |keywords| && Contains(n, keywords[k])
  }

  /** Device `i` is the first one whose name has a keyword. */
  predicate IsFirstWithKeyword(devices: seq<Device>, i: int, keywords: seq<string>, lowered: bool) {
    && 0 <= i < |devices| && NameHasKeyword(devices[i], keywords, lowered)
    && forall j :: 0 <= j < i ==> !NameHasKeyword(devices[j], keywords, lowered)
  }

  /** `Iterator::find` over the enumerated devices. */
  function FirstWithKeyword(devices: seq<Device>, keywords: seq<string>, lowered: bool): (r: Option<nat>)
    ensures r.None? <==> forall j :: 0 <= j < |devices| ==> !NameHasKeyword(devices[j], keywords, lowered)
    ensures r.Some? ==> IsFirstWithKeyword(devices, r.value, keywords, lowered)
    decreases |devices|
  {
    if devices == [] then None
    else if NameHasKeyword(devices[0], keywords, lowered) then Some(0)
    else match FirstWithKeyword(devices[1..], keywords, lowered)
      case None => None
      case Some(i) => Some(i + 1)
  }

  const MONITOR_KEYWORDS: seq<string> := ["monitor", "Monitor"]
  const VIRTUAL_KEYWORDS: seq<string> := ["blackhole", "loopback", "soundflower", "virtual", "screencapture"]
  const NO_LINUX_INPUT := "No input device available. Ensure PulseAudio or PipeWire is running."
  const NO_MAC_INPUT := "No input device available. Install BlackHole for system audio capture on macOS."

  /** `get_loopback_device` on Linux: the device carrying the preferred source
      (per-app routing), else the first monitor source, else the default input.
      When the devices cannot be enumerated, `devices` carries the host's
      error, which is passed on unchanged. */
  function LinuxLoopbackDevice(preferred: Option<string>, devices: Result<seq<Device>>, defaultInput: Option<Device>)
    : (r: Result<Device>)
    ensures devices.Err? ==> r == Err(devices.msg)
    ensures devices.Ok? ==>
      var ds := devices.value;
      var prefMatch := preferred.Some? && exists i :: IsFirstWithKeyword(ds, i, [preferred.value], false);
      var monMatch := exists i :: IsFirstWithKeyword(ds, i, MONITOR_KEYWORDS, false);
      && (prefMatch ==> exists i :: IsFirstWithKeyword(ds, i, [preferred.value], false) && r == Ok(ds[i]))
      && (!prefMatch && monMatch ==> exists i :: IsFirstWithKeyword(ds, i, MONITOR_KEYWORDS, false) && r == Ok(ds[i]))
      && (!prefMatch && !monMatch && defaultInput.Some? ==> r == Ok(defaultInput.value))
      && (!prefMatch && !monMatch && defaultInput.None? ==> r == Err(NO_LINUX_INPUT))
  {
    if devices.Err? then Err(devices.msg)
    else
      var ds := devices.value;
      var pref := if preferred.Some? then FirstWithKeyword(ds, [preferred.value], false) else None;
      if pref.Some? then Ok(ds[pref.value])
      else match FirstWithKeyword(ds, MONITOR_KEYWORDS, false)
        case Some(i) => Ok(ds[i])
        case None => if defaultInput.Some? then Ok(defaultInput.value) else Err(NO_LINUX_INPUT)
  }

  /** `get_loopback_device` on macOS: the first device whose lower-cased name
      names a known virtual audio device, else the default input; a failed
      enumeration's error is passed on unchanged. */
  function MacLoopbackDevice(devices: Result<seq<Device>>, defaultInput: Option<Device>): (r: Result<Device>)
    ensures devices.Err? ==> r == Err(devices.msg)
    ensures devices.Ok? ==>
      var ds := devices.value;
      var virt := exists i :: IsFirstWithKeyword(ds, i, VIRTUAL_KEYWORDS, true);
      && (virt ==> exists i :: IsFirstWithKeyword(ds, i, VIRTUAL_KEYWORDS, true) && r == Ok(ds[i]))
      && (!virt && defaultInput.Some? ==> r == Ok(defaultInput.value))
      && (!virt && defaultInput.None? ==> r == Err(NO_MAC_INPUT))
  {
    if devices.Err? then Err(devices.msg)
    else match FirstWithKeyword(devices.value, VIRTUAL_KEYWORDS, true)
      case Some(i) => Ok(devices.value[i])
      case None => if defaultInput.Some? then Ok(defaultInput.value) else Err(NO_MAC_INPUT)
  }
}
