// Notch geometry detection (NotchApp/Sources/Core/NotchWindow/NotchShape.swift,
// `NotchGeometry` and `NotchGeometry.detect`), with the rectangle arithmetic
// of CGRect that the engine uses for zones and window frames.
module Shape {
  import opened Wrappers

  /**
   * A CGRect/NSRect. Its width and height may be negative; like CGRect's
   * `minX`, `maxX`, `minY`, `maxY`, `width`, `height` and `contains`, the
   * accessors below work on the standardized rectangle.
   */
  datatype Rect = Rect(x: real, y: real, width: real, height: real) {

    function MinX(): real { if width >= 0.0 then x else x + width }
    function MaxX(): real { if width >= 0.0 then x + width else x }
    function MidX(): real { x + width / 2.0 }
    function MinY(): real { if height >= 0.0 then y else y + height }
    function MaxY(): real { if height >= 0.0 then y + height else y }
    function Width(): real { if width >= 0.0 then width else -width }
    function Height(): real { if height >= 0.0 then height else -height }

    /** `contains(_:)`: half-open on both axes. */
    predicate Contains(p: Point)
    {
      MinX() <= p.x < MaxX() && MinY() <= p.y < MaxY()
    }
  }

  datatype Point = Point(x: real, y: real)

  /** `NSRect.zero`. */
  const ZeroRect := Rect(0.0, 0.0, 0.0, 0.0)

  /** `inner` lies inside `outer` edge by edge. */
  predicate Within(inner: Rect, outer: Rect)
  {
    outer.MinX() <= inner.MinX() && inner.MaxX() <= outer.MaxX()
    && outer.MinY() <= inner.MinY() && inner.MaxY() <= outer.MaxY()
  }

  /** A point of a rectangle that lies within another is a point of that other rectangle. */
  lemma WithinContains(inner: Rect, outer: Rect, p: Point)
    requires Within(inner, outer) && inner.Contains(p)
    ensures outer.Contains(p)
  {
  }

  /** What `NSScreen.screens.first` reports: its frame, top safe-area inset and auxiliary top areas. */
  datatype Screen = Screen(
    frame: Rect,
    safeAreaTop: real,
    auxiliaryTopLeftArea: Option<Rect>,
    auxiliaryTopRightArea: Option<Rect>)

  datatype NotchGeometry = NotchGeometry(
    notchWidth: real,
    notchHeight: real,
    screenWidth: real,
    screenHeight: real,
    notchMinX: real,
    notchMaxX: real,
    hasNotch: bool,
    isFloatingMode: bool)

  /** The geometry returned when there is no screen at all. */
  const NoScreenGeometry := NotchGeometry(0.0, 0.0, 1440.0, 900.0, 0.0, 0.0, false, false)

  /** Width assumed for a notch whose auxiliary areas are not reported. */
  const EstimatedNotchWidth: real := 180.0

  /** The virtual pill used on displays without a notch. */
  const FloatingWidth: real := 200.0
  const FloatingHeight: real := 8.0

  /** Both auxiliary areas are reported and neither is `.zero`. */
  predicate HasAuxiliaryAreas(s: Screen)
  {
    s.auxiliaryTopLeftArea.GetOr(ZeroRect) != ZeroRect
    && s.auxiliaryTopRightArea.GetOr(ZeroRect) != ZeroRect
  }

  /** `NotchGeometry.detect()` for the first screen, if there is one. */
  function Detect(screen: Option<Screen>): (g: NotchGeometry)
    ensures screen.None? ==> g == NoScreenGeometry
    ensures screen.Some? ==> (g.hasNotch <==> screen.value.safeAreaTop > 0.0)
    ensures screen.Some? ==> g.screenWidth == screen.value.frame.Width()
                              && g.screenHeight == screen.value.frame.Height()
    ensures g.hasNotch ==> g.notchHeight == screen.value.safeAreaTop
                           && g.notchWidth == g.notchMaxX - g.notchMinX
                           && !g.isFloatingMode
    ensures g.hasNotch && HasAuxiliaryAreas(screen.value) ==>
              g.notchMinX == screen.value.auxiliaryTopLeftArea.value.MaxX()
              && g.notchMaxX == screen.value.auxiliaryTopRightArea.value.MinX()
    ensures g.hasNotch && !HasAuxiliaryAreas(screen.value) ==>
              g.notchMinX == screen.value.frame.MidX() - EstimatedNotchWidth / 2.0
              && g.notchMaxX == screen.value.frame.MidX() + EstimatedNotchWidth / 2.0
    ensures screen.Some? && !g.hasNotch ==>
              g.isFloatingMode && g.notchWidth == FloatingWidth && g.notchHeight == FloatingHeight
              && g.notchMinX == screen.value.frame.MidX() - FloatingWidth / 2.0
              && g.notchMaxX == screen.value.frame.MidX() + FloatingWidth / 2.0
  {
    match screen
    case None => NoScreenGeometry
    case Some(s) =>
      var frame := s.frame;
      if s.safeAreaTop > 0.0 then
        var left := s.auxiliaryTopLeftArea.GetOr(ZeroRect);
        var right := s.auxiliaryTopRightArea.GetOr(ZeroRect);
        var minX := if left != ZeroRect && right != ZeroRect then left.MaxX() else frame.MidX() - EstimatedNotchWidth / 2.0;
        var maxX := if left != ZeroRect && right != ZeroRect then right.MinX() else frame.MidX() + EstimatedNotchWidth / 2.0;
        NotchGeometry(maxX - minX, s.safeAreaTop, frame.Width(), frame.Height(), minX, maxX, true, false)
      else
        var midX := frame.MidX();
        NotchGeometry(FloatingWidth, FloatingHeight, frame.Width(), frame.Height(),
                      midX - FloatingWidth / 2.0, midX + FloatingWidth / 2.0, false, true)
  }

  /** Floating mode never coexists with a notch, whatever the screen reports. */
  lemma FloatingExcludesNotch(screen: Option<Screen>)
    ensures Detect(screen).isFloatingMode ==> !Detect(screen).hasNotch
  {
  }

  /** With a screen, the two flags are each other's negation; only the no-screen result has neither. */
  lemma FlagsComplementaryWithScreen(screen: Option<Screen>)
    ensures screen.Some? ==> (Detect(screen).isFloatingMode <==> !Detect(screen).hasNotch)
    ensures screen.None? ==> !Detect(screen).isFloatingMode && !Detect(screen).hasNotch
  {
  }

  /** The notch height is never negative, and it is positive whenever a screen exists. */
  lemma DetectedHeightPositive(screen: Option<Screen>)
    ensures Detect(screen).notchHeight >= 0.0
    ensures screen.Some? ==> Detect(screen).notchHeight > 0.0
  {
  }

  /**
   * The estimated and floating bands are centred on the screen and have
   * positive width; with reported auxiliary areas the width is positive
   * exactly when the left area ends before the right one begins.
   */
  lemma DetectedBandCentredOrBetweenAreas(s: Screen)
    ensures var g := Detect(Some(s));
      (!g.hasNotch || !HasAuxiliaryAreas(s)) ==>
        g.notchMaxX > g.notchMinX && (g.notchMinX + g.notchMaxX) / 2.0 == s.frame.MidX()
    ensures var g := Detect(Some(s));
      g.hasNotch && HasAuxiliaryAreas(s) ==>
        (g.notchWidth > 0.0 <==> s.auxiliaryTopLeftArea.value.MaxX() < s.auxiliaryTopRightArea.value.MinX())
  {
  }
}
