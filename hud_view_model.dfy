// The HUD widget's view-model (NotchApp/Sources/Widgets/HUD/HUDViewModel.swift):
// a HUD trigger shows the slider with an icon chosen by thresholds and
// re-arms an auto-dismiss task; a dismiss that runs uncancelled hides the
// HUD and tells the notch panel.
//
// The dismiss task is a numbered pending step: showing cancels the previous
// number and schedules a new one, and firing a number is an explicit call.
// The delay itself (a setting read when the task starts) is not modelled.
module HudWidget {
  import opened Wrappers
  import opened Events
  import Panel

  // ---------------------------------------------------------------------------
  // Icons
  // ---------------------------------------------------------------------------

  const SpeakerSlash := "speaker.slash.fill"
  const SpeakerWave1 := "speaker.wave.1.fill"
  const SpeakerWave2 := "speaker.wave.2.fill"
  const SpeakerWave3 := "speaker.wave.3.fill"
  const SunMin := "sun.min.fill"
  const SunMax := "sun.max.fill"
  const LightMin := "light.min"
  const LightMax := "light.max"

  /** The volume icon's level, 0 (muted) to 3, by the thresholds 0.001, 0.33 and 0.66. */
  function VolumeLevel(v: real): (n: nat)
    ensures n <= 3
  {
    if v <= 0.001 then 0 else if v < 0.33 then 1 else if v < 0.66 then 2 else 3
  }

  /** `iconForType(_:value:)`. */
  function IconForType(t: HUDType, v: real): string
  {
    match t
    case Volume => [SpeakerSlash, SpeakerWave1, SpeakerWave2, SpeakerWave3][VolumeLevel(v)]
    case Brightness => if v < 0.5 then SunMin else SunMax
    case KeyboardBacklight => if v < 0.01 then LightMin else LightMax
  }

  /** The eight icon names are pairwise different. */
  lemma IconsDistinct()
    ensures SpeakerSlash != SpeakerWave1 && SpeakerSlash != SpeakerWave2 && SpeakerSlash != SpeakerWave3
    ensures SpeakerWave1 != SpeakerWave2 && SpeakerWave1 != SpeakerWave3 && SpeakerWave2 != SpeakerWave3
    ensures SunMin != SunMax && LightMin != LightMax
  {
    assert SpeakerSlash[8] == 's' && SpeakerWave1[8] == 'w';
    assert SpeakerWave1[13] == '1' && SpeakerWave2[13] == '2' && SpeakerWave3[13] == '3';
    assert SpeakerWave2[8] == 'w' && SpeakerWave3[8] == 'w';
    assert SunMin[5] == 'i' && SunMax[5] == 'a';
    assert LightMin[7] == 'i' && LightMax[7] == 'a';
  }

  /** Each icon shows exactly on its own range of values. */
  lemma IconRanges(v: real)
    ensures IconForType(Volume, v) == SpeakerSlash <==> v <= 0.001
    ensures IconForType(Volume, v) == SpeakerWave1 <==> 0.001 < v < 0.33
    ensures IconForType(Volume, v) == SpeakerWave2 <==> 0.33 <= v < 0.66
    ensures IconForType(Volume, v) == SpeakerWave3 <==> 0.66 <= v
    ensures IconForType(Brightness, v) == SunMin <==> v < 0.5
    ensures IconForType(Brightness, v) == SunMax <==> 0.5 <= v
    ensures IconForType(KeyboardBacklight, v) == LightMin <==> v < 0.01
    ensures IconForType(KeyboardBacklight, v) == LightMax <==> 0.01 <= v
  {
    IconsDistinct();
  }

  /** A louder volume never shows fewer waves. */
  lemma VolumeLevelMonotone(v: real, w: real)
    requires v <= w
    ensures VolumeLevel(v) <= VolumeLevel(w)
  {
  }

  // ---------------------------------------------------------------------------
  // The view-model as a value
  // ---------------------------------------------------------------------------

  /**
   * The published fields, whether the `hudTriggers` subscription is held, the
   * number of the dismiss task that may still act (none when it was cancelled
   * or has run), and the next task number.
   */
  datatype Hud = Hud(isVisible: bool, hudType: HUDType, value: real, iconName: string,
                     observing: bool, pendingDismiss: Option<nat>, nextTask: nat)

  const Initial := Hud(false, Volume, 0.0, SpeakerWave2, false, None, 0)

  /** A pending dismiss is for a HUD on screen, under a number already issued. */
  predicate Inv(h: Hud)
  {
    h.pendingDismiss.Some? ==> h.isVisible && h.pendingDismiss.value < h.nextTask
  }

  /** The icon agrees with the type and value shown. */
  predicate IconConsistent(h: Hud)
  {
    h.iconName == IconForType(h.hudType, h.value)
  }

  /** `showHUD(type:value:)`. */
  function ShowStep(h: Hud, t: HUDType, v: real): Hud
  {
    Hud(true, t, v, IconForType(t, v), h.observing, Some(h.nextTask), h.nextTask + 1)
  }

  /** A trigger on the `hudTriggers` stream reaches `showHUD` only while subscribed. */
  function TriggerStep(h: Hud, t: HUDType, v: real): Hud
  {
    if h.observing then ShowStep(h, t, v) else h
  }

  /** Dismiss task `task` wakes up: the new value and whether it hid the panel's HUD. */
  function FireStep(h: Hud, task: nat): (Hud, bool)
  {
    if h.pendingDismiss == Some(task) then (h.(isVisible := false, pendingDismiss := None), true)
    else (h, false)
  }

  /** `startObserving()`. */
  function StartStep(h: Hud): Hud
  {
    h.(observing := true)
  }

  /** `stopObserving()`. */
  function StopStep(h: Hud): Hud
  {
    h.(observing := false, pendingDismiss := None)
  }

  datatype HudOp = Start | Stop | Trigger(t: HUDType, v: real) | Fire(task: nat)

  function Apply(h: Hud, op: HudOp): Hud
  {
    match op
    case Start => StartStep(h)
    case Stop => StopStep(h)
    case Trigger(t, v) => TriggerStep(h, t, v)
    case Fire(task) => FireStep(h, task).0
  }

  function Run(h: Hud, ops: seq<HudOp>): Hud
  {
    if ops == [] then h else Apply(Run(h, ops[..|ops| - 1]), ops[|ops| - 1])
  }

  /** Every step keeps the invariant, and a shown HUD's icon stays consistent. */
  lemma {:induction false} RunKeepsInv(h: Hud, ops: seq<HudOp>)
    requires Inv(h)
    ensures Inv(Run(h, ops))
    ensures IconConsistent(h) ==> IconConsistent(Run(h, ops))
  {
    if ops != [] {
      RunKeepsInv(h, ops[..|ops| - 1]);
    }
  }

  /** The initial icon is not the one `iconForType` gives for the initial volume 0. */
  lemma InitialIconInconsistent()
    ensures Inv(Initial) && !IconConsistent(Initial)
  {
    IconRanges(0.0);
    IconsDistinct();
  }

  /**
   * Showing makes the HUD visible with a consistent icon; the new dismiss task
   * hides it and tells the panel, while every earlier task has been cancelled.
   */
  lemma ShowReplacesDismiss(h: Hud, t: HUDType, v: real, older: nat)
    requires Inv(h) && older < h.nextTask
    ensures var s := ShowStep(h, t, v);
      s.isVisible && IconConsistent(s) && s.hudType == t && s.value == v
      && FireStep(s, h.nextTask) == (s.(isVisible := false, pendingDismiss := None), true)
      && FireStep(s, older) == (s, false)
  {
  }

  /** After `stopObserving` no dismiss acts and no trigger shows anything, until observing restarts. */
  lemma StopSilences(h: Hud, ops: seq<HudOp>)
    requires forall k :: 0 <= k < |ops| ==> !ops[k].Start?
    ensures Run(StopStep(h), ops) == StopStep(h)
  {
    StopSilencesRun(StopStep(h), ops);
  }

  lemma {:induction false} StopSilencesRun(h: Hud, ops: seq<HudOp>)
    requires !h.observing && h.pendingDismiss.None?
    requires forall k :: 0 <= k < |ops| ==> !ops[k].Start?
    ensures Run(h, ops) == h
  {
    if ops != [] {
      StopSilencesRun(h, ops[..|ops| - 1]);
    }
  }

  // ---------------------------------------------------------------------------
  // The view-model object
  // ---------------------------------------------------------------------------

  class HUDViewModel {
    var isVisible: bool
    var hudType: HUDType
    var value: real
    var iconName: string
    var observing: bool
    var pendingDismiss: Option<nat>
    var nextTask: nat

    function Snapshot(): Hud
      reads this
    {
      Hud(isVisible, hudType, value, iconName, observing, pendingDismiss, nextTask)
    }

    constructor ()
      ensures Snapshot() == Initial
    {
      isVisible := false;
      hudType := Volume;
      value := 0.0;
      iconName := SpeakerWave2;
      observing := false;
      pendingDismiss := None;
      nextTask := 0;
    }

    method StartObserving()
      modifies this
      ensures Snapshot() == StartStep(old(Snapshot()))
    {
      observing := true;
    }

    method StopObserving()
      modifies this
      ensures Snapshot() == StopStep(old(Snapshot()))
    {
      observing := false;
      pendingDismiss := None;
    }

    /** `showHUD(type:value:)`: returns the number of the dismiss task it schedules. */
    method ShowHUD(t: HUDType, v: real) returns (task: nat)
      modifies this
      ensures Snapshot() == ShowStep(old(Snapshot()), t, v) && task == old(nextTask)
    {
      hudType := t;
      value := v;
      iconName := IconForType(t, v);
      isVisible := true;
      pendingDismiss := Some(nextTask);
      task := nextTask;
      nextTask := nextTask + 1;
    }

    /** The `hudTriggers` sink. */
    method OnHUDTrigger(t: HUDType, v: real)
      modifies this
      ensures Snapshot() == TriggerStep(old(Snapshot()), t, v)
    {
      if observing {
        var _ := ShowHUD(t, v);
      }
    }

    /** Dismiss task `task` wakes up after its delay. */
    method FireDismiss(task: nat, panel: Panel.NotchViewModel)
      modifies this, panel
      ensures Snapshot() == FireStep(old(Snapshot()), task).0
      ensures FireStep(old(Snapshot()), task).1 ==>
                !panel.isHUDVisible && panel.Snapshot() == old(panel.Snapshot())
                && panel.panelWidth == old(panel.panelWidth) && panel.expandedHeight == old(panel.expandedHeight)
                && panel.notchGeometry == old(panel.notchGeometry)
      ensures !FireStep(old(Snapshot()), task).1 ==> unchanged(panel)
    {
      if pendingDismiss != Some(task) {
        return;
      }
      isVisible := false;
      pendingDismiss := None;
      panel.SetHUDHidden();
    }
  }
}
