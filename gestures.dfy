// Pointer and keyboard handling (NotchApp/Sources/Core/Gesture/GestureHandler.swift):
// the notch, hover, expanded and panel zones, the state-machine operations a
// mouse move, a click outside the app or a key press leads to, and the
// handler object that owns the event monitors and the HUD suppressor.
//
// The pointer location and the first screen's frame arrive as parameters.
module Gestures {
  import opened Wrappers
  import opened Events
  import opened Shape
  import opened Panel
  import HUDSuppression

  // ---------------------------------------------------------------------------
  // Zones
  // ---------------------------------------------------------------------------

  /** The area the physical notch covers, at the top centre of the screen. */
  function NotchZone(screen: Rect, geo: NotchGeometry): Rect
  {
    Rect(screen.MidX() - geo.notchWidth / 2.0, screen.MaxY() - geo.notchHeight,
         geo.notchWidth, geo.notchHeight)
  }

  /** The notch widened by a wing on each side and lowered by 5 points. */
  function HoverZone(screen: Rect, geo: NotchGeometry): Rect
  {
    Rect(screen.MidX() - (geo.notchWidth / 2.0 + WingWidth), screen.MaxY() - geo.notchHeight - 5.0,
         geo.notchWidth + WingWidth * 2.0, geo.notchHeight + 5.0)
  }

  /** The expanded panel with 20 points of slack on each side and 10 above. */
  function ExpandedZone(screen: Rect, geo: NotchGeometry, panelWidth: real): Rect
  {
    var width := panelWidth + 40.0;
    Rect(screen.MidX() - width / 2.0, screen.MaxY() - geo.notchHeight - MaxExpandedHeight,
         width, MaxExpandedHeight + geo.notchHeight + 10.0)
  }

  /** The expanded panel itself, as the global click handler measures it. */
  function PanelRect(screen: Rect, geo: NotchGeometry, panelWidth: real): Rect
  {
    Rect(screen.MidX() - panelWidth / 2.0, screen.MaxY() - geo.notchHeight - MaxExpandedHeight,
         panelWidth, MaxExpandedHeight + geo.notchHeight)
  }

  /** The notch lies inside the hover zone. */
  lemma NotchZoneWithinHoverZone(screen: Rect, geo: NotchGeometry)
    requires geo.notchWidth >= 0.0 && geo.notchHeight >= 0.0
    ensures Within(NotchZone(screen, geo), HoverZone(screen, geo))
  {
  }

  /** The panel lies inside the expanded zone, whatever its width. */
  lemma PanelRectWithinExpandedZone(screen: Rect, geo: NotchGeometry, panelWidth: real)
    requires panelWidth >= 0.0 && geo.notchHeight >= 0.0
    ensures Within(PanelRect(screen, geo, panelWidth), ExpandedZone(screen, geo, panelWidth))
  {
  }

  /** With the expanded panel's width, the hover zone lies inside the expanded zone. */
  lemma HoverZoneWithinExpandedZone(screen: Rect, geo: NotchGeometry)
    requires geo.notchWidth >= 0.0 && geo.notchHeight >= 0.0
    ensures Within(HoverZone(screen, geo),
                   ExpandedZone(screen, geo, PanelWidthFor(Expanded, geo.notchWidth)))
  {
  }

  // ---------------------------------------------------------------------------
  // What each input leads to
  // ---------------------------------------------------------------------------

  /** `handleMouseMoved(at:)`: the operations it calls on the view-model, in order. */
  function MouseMovedOps(state: NotchState, geo: NotchGeometry, screen: Option<Rect>,
                         panelWidth: real, p: Point): seq<Op>
  {
    if !geo.hasNotch || screen.None? then []
    else
      var frame := screen.value;
      match state
      case Idle => if HoverZone(frame, geo).Contains(p) then [Hover] else []
      case Hovering =>
        (if NotchZone(frame, geo).Contains(p) then [Expand] else [])
        + (if !HoverZone(frame, geo).Contains(p) then [Collapse] else [])
      case Expanded => if !ExpandedZone(frame, geo, panelWidth).Contains(p) then [Collapse] else []
  }

  /** `handleGlobalClick(at:)`: a click outside the expanded panel collapses it. */
  function GlobalClickOps(state: NotchState, geo: NotchGeometry, screen: Option<Rect>,
                          panelWidth: real, p: Point): seq<Op>
  {
    if state != Expanded || screen.None? then []
    else if !PanelRect(screen.value, geo, panelWidth).Contains(p) then [Collapse]
    else []
  }

  const EscapeKeyCode: nat := 53

  /** `handleKeyDown(_:)`: Escape collapses unless idle. */
  function KeyDownOps(state: NotchState, keyCode: nat): seq<Op>
  {
    if keyCode == EscapeKeyCode && state != Idle then [Collapse] else []
  }

  /** Without a physical notch (or without a screen) mouse movement does nothing. */
  lemma NoNotchNoMouseOps(state: NotchState, geo: NotchGeometry, screen: Option<Rect>,
                          panelWidth: real, p: Point)
    requires !geo.hasNotch || screen.None?
    ensures MouseMovedOps(state, geo, screen, panelWidth, p) == []
  {
  }

  /**
   * While hovering, one mouse move never both expands and collapses: a point
   * in the notch is in the hover zone.
   */
  lemma HoveringNeverExpandsAndCollapses(geo: NotchGeometry, screen: Option<Rect>,
                                         panelWidth: real, p: Point)
    requires geo.notchWidth >= 0.0 && geo.notchHeight >= 0.0
    ensures |MouseMovedOps(Hovering, geo, screen, panelWidth, p)| <= 1
  {
    if geo.hasNotch && screen.Some? && NotchZone(screen.value, geo).Contains(p) {
      NotchZoneWithinHoverZone(screen.value, geo);
      WithinContains(NotchZone(screen.value, geo), HoverZone(screen.value, geo), p);
    }
  }

  /**
   * The previous lemma needs a notch of non-negative width: auxiliary areas
   * that overlap give a negative width, and then a point in the notch can lie
   * outside the hover zone, so the move expands and collapses at once.
   */
  lemma OverlappingAreasExpandAndCollapse()
    ensures var geo := NotchGeometry(-300.0, 30.0, 1440.0, 900.0, 870.0, 570.0, true, false);
      MouseMovedOps(Hovering, geo, Some(Rect(0.0, 0.0, 1440.0, 900.0)), 0.0, Point(860.0, 890.0))
      == [Expand, Collapse]
  {
  }

  /**
   * A pointer inside the expanded panel is left alone by both mouse moves
   * and clicks.
   */
  lemma InsidePanelKeepsExpanded(geo: NotchGeometry, frame: Rect, panelWidth: real, p: Point)
    requires panelWidth >= 0.0 && geo.notchHeight >= 0.0
    requires PanelRect(frame, geo, panelWidth).Contains(p)
    ensures MouseMovedOps(Expanded, geo, Some(frame), panelWidth, p) == []
    ensures GlobalClickOps(Expanded, geo, Some(frame), panelWidth, p) == []
  {
    PanelRectWithinExpandedZone(frame, geo, panelWidth);
    WithinContains(PanelRect(frame, geo, panelWidth), ExpandedZone(frame, geo, panelWidth), p);
  }

  /**
   * The click handler does not look at `hasNotch`: in floating mode a click
   * outside the expanded panel still collapses it.
   */
  lemma ClickCollapsesWithoutNotch(screen: Screen)
    requires screen.safeAreaTop <= 0.0
    ensures var geo := Detect(Some(screen));
      var outside := Point(screen.frame.MidX(), screen.frame.MaxY() + 1.0);
      GlobalClickOps(Expanded, geo, Some(screen.frame), 0.0, outside) == [Collapse]
  {
  }

  /** Escape collapses exactly when the panel is not idle, and from expanded it lands on hovering. */
  lemma EscapeCollapses(m: Machine, keyCode: nat)
    ensures KeyDownOps(m.current, keyCode) == [Collapse] <==> keyCode == EscapeKeyCode && m.current != Idle
    ensures KeyDownOps(m.current, keyCode) == [] <==> keyCode != EscapeKeyCode || m.current == Idle
    ensures m.current == Expanded ==> Run(m, KeyDownOps(m.current, EscapeKeyCode)).0.current == Hovering
  {
    if m.current == Expanded {
      assert KeyDownOps(m.current, EscapeKeyCode)[..0] == [];
    }
  }

  // ---------------------------------------------------------------------------
  // The handler object
  // ---------------------------------------------------------------------------

  class GestureHandler {
    var hasGlobalMonitor: bool
    var hasLocalMonitor: bool
    var suppressor: HUDSuppression.SystemHUDSuppressor?
    /** The OSD helper every suppressor this handler creates acts on. */
    const osd: HUDSuppression.OSDHelper

    constructor (osd: HUDSuppression.OSDHelper)
      ensures !hasGlobalMonitor && !hasLocalMonitor && suppressor == null && this.osd == osd
    {
      hasGlobalMonitor := false;
      hasLocalMonitor := false;
      suppressor := null;
      this.osd := osd;
    }

    /**
     * `setupSystemHUDSuppression()`: with the setting off, stop and drop the
     * suppressor; with it on, start a fresh one (hiding the OSD) and keep it
     * only if it started, keeping the previous one otherwise. A suppressor it
     * replaces is released, not stopped, so the OSD it hid stays hidden; a
     * failed start can still have hidden the OSD.
     */
    method SetupSystemHUDSuppression(suppressSystemHUD: bool, trusted: bool, launched: bool, tapCreated: bool)
      requires suppressor != null ==> suppressor.osd == osd
      modifies this, suppressor, osd
      ensures suppressor != null ==> suppressor.osd == osd
      ensures !suppressSystemHUD ==> suppressor == null
      ensures !suppressSystemHUD && old(suppressor) != null ==>
                old(suppressor).Snapshot() == HUDSuppression.StopStep(old(suppressor.Snapshot()), launched)
      ensures !suppressSystemHUD && old(suppressor) == null ==> osd.loaded == old(osd.loaded)
      ensures suppressSystemHUD ==>
                osd.loaded == HUDSuppression.StartStep(HUDSuppression.Created(old(osd.loaded)), true, trusted, launched, tapCreated).0.osdLoaded
      ensures suppressSystemHUD && !(trusted && tapCreated) ==> suppressor == old(suppressor)
      ensures suppressSystemHUD && !(trusted && tapCreated) && old(suppressor) != null ==>
                suppressor.Snapshot() == old(suppressor.Snapshot()).(osdLoaded := osd.loaded)
      ensures suppressSystemHUD && trusted && tapCreated ==>
                suppressor != null && fresh(suppressor)
                && suppressor.Snapshot() == HUDSuppression.StartStep(HUDSuppression.Created(old(osd.loaded)), true, trusted, launched, tapCreated).0
      ensures suppressSystemHUD && trusted && tapCreated && old(suppressor) != null ==>
                old(suppressor).Snapshot() == HUDSuppression.ReleaseStep(old(suppressor.Snapshot())).(osdLoaded := osd.loaded)
      ensures hasGlobalMonitor == old(hasGlobalMonitor) && hasLocalMonitor == old(hasLocalMonitor)
    {
      if !suppressSystemHUD {
        if suppressor != null {
          suppressor.Stop(launched);
        }
        suppressor := null;
        return;
      }
      var created := new HUDSuppression.SystemHUDSuppressor(osd);
      var ok := created.Start(true, trusted, launched, tapCreated);
      if ok {
        if suppressor != null {
          suppressor.Release();
        }
        suppressor := created;
      }
    }

    /** `setup()`: install both monitors, then set up suppression. */
    method Setup(suppressSystemHUD: bool, trusted: bool, launched: bool, tapCreated: bool)
      requires suppressor != null ==> suppressor.osd == osd
      modifies this, suppressor, osd
      ensures hasGlobalMonitor && hasLocalMonitor
      ensures suppressor != null ==> suppressor.osd == osd
      ensures !suppressSystemHUD ==> suppressor == null
      ensures !suppressSystemHUD && old(suppressor) != null ==>
                old(suppressor).Snapshot() == HUDSuppression.StopStep(old(suppressor.Snapshot()), launched)
      ensures !suppressSystemHUD && old(suppressor) == null ==> osd.loaded == old(osd.loaded)
      ensures suppressSystemHUD ==>
                osd.loaded == HUDSuppression.StartStep(HUDSuppression.Created(old(osd.loaded)), true, trusted, launched, tapCreated).0.osdLoaded
      ensures suppressSystemHUD && !(trusted && tapCreated) ==> suppressor == old(suppressor)
      ensures suppressSystemHUD && !(trusted && tapCreated) && old(suppressor) != null ==>
                suppressor.Snapshot() == old(suppressor.Snapshot()).(osdLoaded := osd.loaded)
      ensures suppressSystemHUD && trusted && tapCreated ==>
                suppressor != null && fresh(suppressor)
                && suppressor.Snapshot() == HUDSuppression.StartStep(HUDSuppression.Created(old(osd.loaded)), true, trusted, launched, tapCreated).0
      ensures suppressSystemHUD && trusted && tapCreated && old(suppressor) != null ==>
                old(suppressor).Snapshot() == HUDSuppression.ReleaseStep(old(suppressor.Snapshot())).(osdLoaded := osd.loaded)
    {
      hasGlobalMonitor := true;
      hasLocalMonitor := true;
      SetupSystemHUDSuppression(suppressSystemHUD, trusted, launched, tapCreated);
    }

    /** `teardown()`: remove both monitors, stop and drop the suppressor. */
    method Teardown(launched: bool)
      requires suppressor != null ==> suppressor.osd == osd
      modifies this, suppressor, osd
      ensures !hasGlobalMonitor && !hasLocalMonitor && suppressor == null
      ensures old(suppressor) != null ==>
                old(suppressor).Snapshot() == HUDSuppression.StopStep(old(suppressor.Snapshot()), launched)
      ensures old(suppressor) == null ==> osd.loaded == old(osd.loaded)
    {
      hasGlobalMonitor := false;
      hasLocalMonitor := false;
      if suppressor != null {
        suppressor.Stop(launched);
      }
      suppressor := null;
    }

    /** `handleMouseMoved(at:)`. */
    method HandleMouseMoved(vm: NotchViewModel, screen: Option<Rect>, p: Point)
      requires vm.Valid()
      modifies vm, vm.bus
      ensures vm.Valid()
      ensures vm.Snapshot() == Run(old(vm.Snapshot()),
                                   MouseMovedOps(old(vm.currentState), old(vm.notchGeometry), screen,
                                                 old(vm.panelWidth), p)).0
      ensures vm.bus.log == old(vm.bus.log)
                            + Run(old(vm.Snapshot()),
                                  MouseMovedOps(old(vm.currentState), old(vm.notchGeometry), screen,
                                                old(vm.panelWidth), p)).1
      ensures vm.notchGeometry == old(vm.notchGeometry) && vm.isHUDVisible == old(vm.isHUDVisible)
    {
      var geo := vm.notchGeometry;
      var ops := MouseMovedOps(vm.currentState, geo, screen, vm.panelWidth, p);
      ghost var m0 := vm.Snapshot();
      if !geo.hasNotch || screen.None? {
        return;
      }
      var frame := screen.value;
      match vm.currentState
      case Idle =>
        if HoverZone(frame, geo).Contains(p) {
          vm.Hover();
          assert ops[..0] == [];
        }
      case Hovering =>
        var inNotch := NotchZone(frame, geo).Contains(p);
        var inHover := HoverZone(frame, geo).Contains(p);
        if inNotch {
          vm.Expand();
        }
        ghost var m1 := vm.Snapshot();
        ghost var log1 := vm.bus.log;
        if !inHover {
          vm.Collapse();
        }
        if inNotch && !inHover {
          assert ops == [Op.Expand, Op.Collapse];
          assert ops[..1] == [Op.Expand] && [Op.Expand][..0] == [];
          assert Run(m0, [Op.Expand]).0 == m1;
          assert Run(m0, [Op.Expand]).1 == Step(m0, Op.Expand).1;
          assert log1 == old(vm.bus.log) + Step(m0, Op.Expand).1;
          assert vm.bus.log == old(vm.bus.log) + (Step(m0, Op.Expand).1 + Step(m1, Op.Collapse).1);
        } else if inNotch {
          assert ops == [Op.Expand] && ops[..0] == [];
        } else if !inHover {
          assert ops == [Op.Collapse] && ops[..0] == [];
        }
      case Expanded =>
        if !ExpandedZone(frame, geo, vm.panelWidth).Contains(p) {
          vm.Collapse();
          assert ops[..0] == [];
        }
    }

    /** `handleGlobalClick(at:)`. */
    method HandleGlobalClick(vm: NotchViewModel, screen: Option<Rect>, p: Point)
      requires vm.Valid()
      modifies vm, vm.bus
      ensures vm.Valid()
      ensures vm.Snapshot() == Run(old(vm.Snapshot()),
                                   GlobalClickOps(old(vm.currentState), old(vm.notchGeometry), screen,
                                                  old(vm.panelWidth), p)).0
      ensures vm.bus.log == old(vm.bus.log)
                            + Run(old(vm.Snapshot()),
                                  GlobalClickOps(old(vm.currentState), old(vm.notchGeometry), screen,
                                                 old(vm.panelWidth), p)).1
      ensures vm.notchGeometry == old(vm.notchGeometry) && vm.isHUDVisible == old(vm.isHUDVisible)
    {
      if vm.currentState != Expanded || screen.None? {
        return;
      }
      if !PanelRect(screen.value, vm.notchGeometry, vm.panelWidth).Contains(p) {
        vm.Collapse();
        assert [Op.Collapse][..0] == [];
      }
    }

    /** `handleKeyDown(_:)`. */
    method HandleKeyDown(vm: NotchViewModel, keyCode: nat)
      requires vm.Valid()
      modifies vm, vm.bus
      ensures vm.Valid()
      ensures vm.Snapshot() == Run(old(vm.Snapshot()), KeyDownOps(old(vm.currentState), keyCode)).0
      ensures vm.bus.log == old(vm.bus.log) + Run(old(vm.Snapshot()), KeyDownOps(old(vm.currentState), keyCode)).1
      ensures vm.notchGeometry == old(vm.notchGeometry) && vm.isHUDVisible == old(vm.isHUDVisible)
    {
      if keyCode == EscapeKeyCode && vm.currentState != Idle {
        vm.Collapse();
        assert [Op.Collapse][..0] == [];
      }
    }
  }
}
