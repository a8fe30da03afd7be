// Native HUD suppression (NotchApp/Sources/Core/Gesture/SystemHUDSuppressor.swift):
// hiding and restoring the system OSD helper, the listen-only event tap's
// lifecycle, and the tap callback that decodes media-key events and forwards
// the volume, brightness and keyboard-backlight keys.
//
// What the operating system does (accessibility trust, whether `launchctl`
// could be launched, whether the tap could be created) arrives as parameters.
module HUDSuppression {
  import opened Wrappers

  // ---------------------------------------------------------------------------
  // Decoding `data1` of a system-defined event
  // ---------------------------------------------------------------------------

  /** `Int32((data1 & 0xFFFF0000) >> 16)`: the media key code. */
  function KeyCodeOf(data1: bv64): (k: bv64)
    ensures k < 0x1_0000
  {
    (data1 & 0xFFFF_0000) >> 16
  }

  /** `((data1 & 0x0000FFFF) & 0xFF00) >> 8`: the key state byte. */
  function KeyStateOf(data1: bv64): (s: bv64)
    ensures s < 0x100
  {
    ((data1 & 0x0000_FFFF) & 0xFF00) >> 8
  }

  /** The key state of a key press. */
  const KeyDownState: bv64 := 0x0A

  /** `data1` as the system lays it out: key code in bits 16-31, key state in bits 8-15, a repeat byte in bits 0-7. */
  function EncodeData1(keyCode: bv64, keyState: bv64, low: bv8): bv64
    requires keyCode < 0x1_0000 && keyState < 0x100
  {
    (keyCode << 16) | (keyState << 8) | (low as bv64)
  }

  /** Decoding an encoded `data1` gives back its key code and key state, whatever the low byte holds. */
  lemma DecodeEncode(keyCode: bv64, keyState: bv64, low: bv8)
    requires keyCode < 0x1_0000 && keyState < 0x100
    ensures KeyCodeOf(EncodeData1(keyCode, keyState, low)) == keyCode
    ensures KeyStateOf(EncodeData1(keyCode, keyState, low)) == keyState
  {
  }

  /** Bits above 31 of `data1` never reach the key code or state. */
  lemma HighBitsIgnored(data1: bv64, high: bv64)
    ensures KeyCodeOf(data1 | (high << 32)) == KeyCodeOf(data1)
    ensures KeyStateOf(data1 | (high << 32)) == KeyStateOf(data1)
  {
    assert (data1 | (high << 32)) & 0xFFFF_0000 == data1 & 0xFFFF_0000;
    assert (data1 | (high << 32)) & 0x0000_FFFF == data1 & 0x0000_FFFF;
  }

  /** Volume up, down, mute (0, 1, 7); brightness up, down (2, 3); keyboard backlight up, down (21, 22). */
  predicate IsSuppressible(keyCode: bv64)
  {
    keyCode == 0 || keyCode == 1 || keyCode == 7 || keyCode == 2 || keyCode == 3
    || keyCode == 21 || keyCode == 22
  }

  // ---------------------------------------------------------------------------
  // The tap callback
  // ---------------------------------------------------------------------------

  /** The type a tap callback receives. `Other(14)` is `NSSystemDefined`. */
  datatype TapEventType = TapDisabledByTimeout | TapDisabledByUserInput | Other(rawValue: nat)

  /** A tapped event: its type, its NSEvent subtype if it converts to an NSEvent, and `data1`. */
  datatype TapEvent = TapEvent(kind: TapEventType, subtype: Option<int>, data1: bv64)

  /** What the callback does: the event it returns, whether it re-enables the tap, and what it forwards. */
  datatype CallbackOutcome = CallbackOutcome(
    returned: TapEvent,
    reEnableTap: bool,
    forwarded: Option<(bv64, bool)>)

  const SystemDefinedType: nat := 14
  const MediaKeySubtype: int := 8

  /** The event-tap callback. */
  function Callback(e: TapEvent): (r: CallbackOutcome)
    ensures r.returned == e
    ensures r.reEnableTap <==> e.kind.TapDisabledByTimeout? || e.kind.TapDisabledByUserInput?
    ensures r.forwarded.Some? <==>
              e.kind == Other(SystemDefinedType) && e.subtype == Some(MediaKeySubtype)
              && IsSuppressible(KeyCodeOf(e.data1))
    ensures r.forwarded.Some? ==>
              r.forwarded.value == (KeyCodeOf(e.data1), KeyStateOf(e.data1) == KeyDownState)
  {
    if e.kind.TapDisabledByTimeout? || e.kind.TapDisabledByUserInput? then
      CallbackOutcome(e, true, None)
    else if e.kind != Other(SystemDefinedType) then
      CallbackOutcome(e, false, None)
    else if e.subtype != Some(MediaKeySubtype) then
      CallbackOutcome(e, false, None)
    else
      var keyCode := KeyCodeOf(e.data1);
      var isKeyDown := KeyStateOf(e.data1) == KeyDownState;
      CallbackOutcome(e, false, if IsSuppressible(keyCode) then Some((keyCode, isKeyDown)) else None)
  }

  /** A volume-up press as the system encodes it is forwarded as key 0, down. */
  lemma VolumeUpPressForwarded(low: bv8)
    ensures Callback(TapEvent(Other(14), Some(8), EncodeData1(0, 0x0A, low))).forwarded == Some((0, true))
  {
    DecodeEncode(0, 0x0A, low);
  }

  /** A key release (state 0x0B) is forwarded too, as not down. */
  lemma KeyReleaseForwardedAsUp(keyCode: bv64, low: bv8)
    requires IsSuppressible(keyCode)
    ensures Callback(TapEvent(Other(14), Some(8), EncodeData1(keyCode, 0x0B, low))).forwarded
            == Some((keyCode, false))
  {
    DecodeEncode(keyCode, 0x0B, low);
  }

  // ---------------------------------------------------------------------------
  // Lifecycle
  // ---------------------------------------------------------------------------

  /** The system's OSD helper launch agent, shared by every suppressor. */
  class OSDHelper {
    var loaded: bool

    constructor ()
      ensures loaded
    {
      loaded := true;
    }
  }

  /** The suppressor's fields and whether the OSD helper is loaded. */
  datatype Suppression = Suppression(
    hasTap: bool,
    hasRunLoopSource: bool,
    tapEnabled: bool,
    isOSDHidden: bool,
    osdLoaded: bool)

  /** `hideNativeOSD()`: `launched` says whether `launchctl unload` could be run. */
  function HideStep(s: Suppression, launched: bool): Suppression
  {
    if s.isOSDHidden || !launched then s else s.(isOSDHidden := true, osdLoaded := false)
  }

  /** `restoreNativeOSD()`: `launched` says whether `launchctl load` could be run. */
  function RestoreStep(s: Suppression, launched: bool): Suppression
  {
    if !s.isOSDHidden || !launched then s else s.(isOSDHidden := false, osdLoaded := true)
  }

  /** `start(hideOSD:)`: the new state and the returned flag. */
  function StartStep(s: Suppression, hideOSD: bool, trusted: bool, launched: bool, tapCreated: bool): (Suppression, bool)
  {
    if s.hasTap then (s, true)
    else if !trusted then (s, false)
    else
      var hidden := if hideOSD then HideStep(s, launched) else s;
      if !tapCreated then (hidden, false)
      else (hidden.(hasTap := true, hasRunLoopSource := true, tapEnabled := true), true)
  }

  /** `stop()`. */
  function StopStep(s: Suppression, launched: bool): Suppression
  {
    if !s.hasTap then s
    else RestoreStep(s.(hasTap := false, hasRunLoopSource := false, tapEnabled := false), launched)
  }

  /** `deinit`: a live tap is disabled and its source removed; the OSD is left as it is. */
  function ReleaseStep(s: Suppression): Suppression
  {
    if s.hasTap then s.(tapEnabled := false, hasRunLoopSource := false) else s
  }

  /** A suppressor just created over a helper whose loaded flag is `osdLoaded`. */
  function Created(osdLoaded: bool): Suppression
  {
    Suppression(false, false, false, false, osdLoaded)
  }

  /** A tap always has its run-loop source and is enabled; a hidden OSD means the helper is unloaded. */
  predicate Inv(s: Suppression)
  {
    (s.hasTap <==> s.hasRunLoopSource) && (s.hasTap ==> s.tapEnabled)
    && (s.isOSDHidden ==> !s.osdLoaded)
  }

  /** `start` and `stop` keep the invariant, whatever the system does. */
  lemma StartStopKeepInv(s: Suppression, hideOSD: bool, trusted: bool, launched: bool, tapCreated: bool)
    requires Inv(s)
    ensures Inv(StartStep(s, hideOSD, trusted, launched, tapCreated).0)
    ensures Inv(StopStep(s, launched))
  {
  }

  /**
   * `start` reports success exactly when a tap is installed afterwards, and a
   * second `start` on a running suppressor changes nothing.
   */
  lemma StartReportsTap(s: Suppression, hideOSD: bool, trusted: bool, launched: bool, tapCreated: bool)
    ensures var (s', ok) := StartStep(s, hideOSD, trusted, launched, tapCreated);
      ok <==> s'.hasTap
    ensures s.hasTap ==> StartStep(s, hideOSD, trusted, launched, tapCreated) == (s, true)
  {
  }

  /** Without accessibility trust, `start` fails and leaves everything, the OSD included, as it was. */
  lemma UntrustedStartChangesNothing(s: Suppression, hideOSD: bool, launched: bool, tapCreated: bool)
    requires !s.hasTap
    ensures StartStep(s, hideOSD, false, launched, tapCreated) == (s, false)
  {
  }

  /** A successful start that hid the OSD, followed by a stop, loads the OSD helper again. */
  lemma StartThenStopRestoresOSD(s: Suppression)
    requires Inv(s) && !s.hasTap && !s.tapEnabled && !s.isOSDHidden && s.osdLoaded
    ensures var (started, ok) := StartStep(s, true, true, true, true);
      ok && !started.osdLoaded && StopStep(started, true) == s
  {
  }

  /**
   * When the tap cannot be created after the OSD was hidden, `start` fails
   * with the OSD still hidden, and `stop` cannot bring it back: without a
   * tap it returns at once.
   */
  lemma FailedStartLeavesOSDHidden(s: Suppression)
    requires Inv(s) && !s.hasTap && !s.isOSDHidden && s.osdLoaded
    ensures var (failed, ok) := StartStep(s, true, true, true, false);
      !ok && !failed.hasTap && failed.isOSDHidden && !failed.osdLoaded
      && StopStep(failed, true) == failed
  {
  }

  /**
   * Releasing a suppressor whose tap hid the OSD leaves the OSD hidden, where
   * stopping it would have brought the OSD back.
   */
  lemma ReleaseLeavesOSDHidden(s: Suppression, launched: bool)
    requires Inv(s) && s.hasTap && s.isOSDHidden && launched
    ensures ReleaseStep(s).isOSDHidden && !ReleaseStep(s).osdLoaded && !ReleaseStep(s).tapEnabled
    ensures !StopStep(s, launched).isOSDHidden && StopStep(s, launched).osdLoaded
  {
  }

  class SystemHUDSuppressor {
    var hasTap: bool
    var hasRunLoopSource: bool
    var tapEnabled: bool
    var isOSDHidden: bool
    const osd: OSDHelper

    function Snapshot(): Suppression
      reads this, osd
    {
      Suppression(hasTap, hasRunLoopSource, tapEnabled, isOSDHidden, osd.loaded)
    }

    constructor (osd: OSDHelper)
      ensures this.osd == osd && !hasTap && !hasRunLoopSource && !tapEnabled && !isOSDHidden
      ensures Snapshot() == Created(osd.loaded)
    {
      this.osd := osd;
      hasTap := false;
      hasRunLoopSource := false;
      tapEnabled := false;
      isOSDHidden := false;
    }

    /** `hideNativeOSD()`. */
    method HideNativeOSD(launched: bool)
      modifies this, osd
      ensures Snapshot() == HideStep(old(Snapshot()), launched)
    {
      if isOSDHidden {
        return;
      }
      if launched {
        osd.loaded := false;
        isOSDHidden := true;
      }
    }

    /** `restoreNativeOSD()`. */
    method RestoreNativeOSD(launched: bool)
      modifies this, osd
      ensures Snapshot() == RestoreStep(old(Snapshot()), launched)
    {
      if !isOSDHidden {
        return;
      }
      if launched {
        osd.loaded := true;
        isOSDHidden := false;
      }
    }

    /** `start(hideOSD:)`. */
    method Start(hideOSD: bool, trusted: bool, launched: bool, tapCreated: bool) returns (ok: bool)
      modifies this, osd
      ensures (Snapshot(), ok) == StartStep(old(Snapshot()), hideOSD, trusted, launched, tapCreated)
    {
      if hasTap {
        return true;
      }
      if !trusted {
        return false;
      }
      if hideOSD {
        HideNativeOSD(launched);
      }
      if !tapCreated {
        return false;
      }
      hasTap := true;
      hasRunLoopSource := true;
      tapEnabled := true;
      ok := true;
    }

    /** `stop()`. */
    method Stop(launched: bool)
      modifies this, osd
      ensures Snapshot() == StopStep(old(Snapshot()), launched)
    {
      if !hasTap {
        return;
      }
      tapEnabled := false;
      if hasRunLoopSource {
        hasRunLoopSource := false;
      }
      hasTap := false;
      RestoreNativeOSD(launched);
    }

    /** `deinit`. */
    method Release()
      modifies this
      ensures Snapshot() == ReleaseStep(old(Snapshot()))
    {
      if hasTap {
        tapEnabled := false;
        hasRunLoopSource := false;
      }
    }
  }
}
