// The notch window (NotchApp/Sources/Core/NotchWindow/NotchWindow.swift): its
// frame, sized to the visible content plus a margin and anchored to the top
// centre of the first screen, and the setup and observers that keep it so.
//
// The first screen's frame arrives as a parameter each time the source reads
// `NSScreen.screens.first`.
module Window {
  import opened Wrappers
  import opened Events
  import opened Shape
  import opened Panel

  /** Extra height while a HUD is showing. */
  const HUDExtraHeight: real := 50.0
  /** Least window width while a HUD is showing. */
  const HUDMinWidth: real := 320.0
  /** How far below the screen top a floating panel sits. */
  const FloatingDrop: real := 25.0

  function Max(a: real, b: real): real { if a >= b then a else b }

  /** The margin under the content: 30 when expanded, 10 otherwise. */
  function Margin(state: NotchState): real
  {
    if state == Expanded then 30.0 else 10.0
  }

  /** `updateWindowFrame()`: the window's frame for the view-model's values on a screen. */
  function FrameFor(screen: Rect, geo: NotchGeometry, expandedHeight: real, isHUDVisible: bool,
                    state: NotchState): Rect
  {
    var contentHeight := geo.notchHeight + expandedHeight;
    var hudExtra := if isHUDVisible then HUDExtraHeight else 0.0;
    var height := contentHeight + hudExtra + Margin(state);
    var fullWidth := geo.notchWidth + WingWidth * 2.0 + 40.0;
    var width := if isHUDVisible then Max(fullWidth, HUDMinWidth) else fullWidth;
    var y := if geo.isFloatingMode then screen.MaxY() - height - FloatingDrop else screen.MaxY() - height;
    Rect(screen.MidX() - width / 2.0, y, width, height)
  }

  /** The visible panel, drawn at the top centre of a window whose top edge is `top`. */
  function ContentRect(midX: real, top: real, geo: NotchGeometry, expandedHeight: real, panelWidth: real): Rect
  {
    Rect(midX - panelWidth / 2.0, top - geo.notchHeight - expandedHeight,
         panelWidth, geo.notchHeight + expandedHeight)
  }

  /**
   * The window is centred on the screen and its top edge is the screen's top,
   * or 25 points lower in floating mode.
   */
  lemma FrameAnchoredTopCentre(screen: Rect, geo: NotchGeometry, state: NotchState, isHUDVisible: bool)
    requires geo.notchHeight >= 0.0
    ensures var f := FrameFor(screen, geo, ExpandedHeightFor(state), isHUDVisible, state);
      f.MidX() == screen.MidX()
      && f.MaxY() == screen.MaxY() - (if geo.isFloatingMode then FloatingDrop else 0.0)
  {
  }

  /**
   * For the dimensions the view-model keeps, the window holds the visible
   * panel in every state, with 20 points or more free on each side and the
   * margin (plus the HUD's extra height) free below it.
   */
  lemma FrameHoldsPanel(screen: Rect, geo: NotchGeometry, state: NotchState, isHUDVisible: bool)
    requires geo.notchWidth >= 0.0 && geo.notchHeight >= 0.0
    ensures var f := FrameFor(screen, geo, ExpandedHeightFor(state), isHUDVisible, state);
      var content := ContentRect(screen.MidX(), f.MaxY(), geo, ExpandedHeightFor(state),
                                 PanelWidthFor(state, geo.notchWidth));
      Within(content, f)
      && f.Width() - content.Width() >= 40.0
      && f.Height() - content.Height() == Margin(state) + (if isHUDVisible then HUDExtraHeight else 0.0)
  {
  }

  /** The width does not depend on the state, so changing state never resizes sideways. */
  lemma FrameWidthIgnoresState(screen: Rect, geo: NotchGeometry, h1: real, h2: real, hud: bool,
                               s1: NotchState, s2: NotchState)
    ensures FrameFor(screen, geo, h1, hud, s1).width == FrameFor(screen, geo, h2, hud, s2).width
  {
  }

  /** A visible HUD widens the window to at least 320 points and never narrows it. */
  lemma HUDWidensFrame(screen: Rect, geo: NotchGeometry, h: real, state: NotchState)
    ensures FrameFor(screen, geo, h, true, state).width >= HUDMinWidth
    ensures FrameFor(screen, geo, h, true, state).width >= FrameFor(screen, geo, h, false, state).width
    ensures FrameFor(screen, geo, h, true, state).height == FrameFor(screen, geo, h, false, state).height + HUDExtraHeight
  {
  }

  class NotchWindow {
    var frame: Option<Rect>
    var ignoresMouseEvents: bool
    /** `orderFrontRegardless()` has been called. */
    var isVisible: bool
    /** The state, width, height and HUD observers are installed. */
    var observing: bool
    /** A retry of `setup()` is scheduled 0.5 s from now. */
    var retryPending: bool

    /** `init()` with `configureWindow()`. */
    constructor ()
      ensures frame == None && !ignoresMouseEvents && !isVisible && !observing && !retryPending
    {
      frame := None;
      ignoresMouseEvents := false;
      isVisible := false;
      observing := false;
      retryPending := false;
    }

    /** `updateWindowFrame()`: without a screen, the frame is left alone. */
    method UpdateWindowFrame(screen: Option<Rect>, vm: NotchViewModel)
      modifies this
      ensures screen.None? ==> frame == old(frame)
      ensures screen.Some? ==>
                frame == Some(FrameFor(screen.value, vm.notchGeometry, vm.expandedHeight,
                                       vm.isHUDVisible, vm.currentState))
      ensures ignoresMouseEvents == old(ignoresMouseEvents) && isVisible == old(isVisible)
      ensures observing == old(observing) && retryPending == old(retryPending)
    {
      if screen.None? {
        return;
      }
      var s := screen.value;
      var geo := vm.notchGeometry;
      var contentHeight := geo.notchHeight + vm.expandedHeight;
      var hudExtra := if vm.isHUDVisible then HUDExtraHeight else 0.0;
      var margin := if vm.currentState == Expanded then 30.0 else 10.0;
      var panelHeight := contentHeight + hudExtra + margin;
      var fullWidth := geo.notchWidth + WingWidth * 2.0 + 40.0;
      var targetWidth := fullWidth;
      if vm.isHUDVisible {
        targetWidth := Max(fullWidth, HUDMinWidth);
      }
      var panelX := s.MidX() - targetWidth / 2.0;
      var panelY := s.MaxY() - panelHeight;
      if geo.isFloatingMode {
        panelY := s.MaxY() - panelHeight - FloatingDrop;
      }
      frame := Some(Rect(panelX, panelY, targetWidth, panelHeight));
    }

    /**
     * `setup()`. `firstScreen` is the first screen when setup starts and
     * `detectScreen` the one geometry detection then reads; with no screen a
     * retry is scheduled, and a geometry with neither a notch nor floating
     * mode stops setup before the frame is set.
     */
    method Setup(firstScreen: Option<Screen>, detectScreen: Option<Screen>, vm: NotchViewModel)
      modifies this
      ensures firstScreen.None? ==> retryPending && frame == old(frame) && isVisible == old(isVisible)
                                    && observing == old(observing)
      ensures firstScreen.Some? && detectScreen.None? ==>
                frame == old(frame) && isVisible == old(isVisible) && observing == old(observing)
      ensures firstScreen.Some? && detectScreen.Some? ==>
                isVisible && observing
                && frame == Some(FrameFor(firstScreen.value.frame, vm.notchGeometry, vm.expandedHeight,
                                          vm.isHUDVisible, vm.currentState))
      ensures firstScreen.Some? ==> retryPending == old(retryPending)
      ensures ignoresMouseEvents == old(ignoresMouseEvents)
    {
      if firstScreen.None? {
        retryPending := true;
        return;
      }
      var geo := Detect(detectScreen);
      if !geo.hasNotch && !geo.isFloatingMode {
        return;
      }
      UpdateWindowFrame(Some(firstScreen.value.frame), vm);
      isVisible := true;
      observing := true;
    }

    /** `handleStateChange(_:)`: the window takes mouse events in every state and is resized. */
    method HandleStateChange(state: NotchState, screen: Option<Rect>, vm: NotchViewModel)
      modifies this
      ensures !ignoresMouseEvents
      ensures screen.Some? ==>
                frame == Some(FrameFor(screen.value, vm.notchGeometry, vm.expandedHeight,
                                       vm.isHUDVisible, vm.currentState))
      ensures screen.None? ==> frame == old(frame)
      ensures isVisible == old(isVisible) && observing == old(observing) && retryPending == old(retryPending)
    {
      match state {
        case Idle => ignoresMouseEvents := false;
        case Hovering => ignoresMouseEvents := false;
        case Expanded => ignoresMouseEvents := false;
      }
      UpdateWindowFrame(screen, vm);
    }

    /**
     * The `panelWidth`, `expandedHeight` and `isHUDVisible` observers: each
     * change resizes the window, and the observation stays installed.
     */
    method OnDimensionsChanged(screen: Option<Rect>, vm: NotchViewModel)
      requires observing
      modifies this
      ensures observing
      ensures screen.Some? ==>
                frame == Some(FrameFor(screen.value, vm.notchGeometry, vm.expandedHeight,
                                       vm.isHUDVisible, vm.currentState))
      ensures screen.None? ==> frame == old(frame)
      ensures ignoresMouseEvents == old(ignoresMouseEvents) && isVisible == old(isVisible)
      ensures retryPending == old(retryPending)
    {
      UpdateWindowFrame(screen, vm);
    }
  }
}
