/** Where the popover and its pointer triangle are drawn, computed from the
    component's state, its props and the screen size. Pixel arithmetic is exact
    (`real`). The two geometry helpers the component imports are passed in as
    functions; nothing is assumed about them unless a lemma says so. */
module TooltipPlacement {

  import opened TooltipState

  datatype Coordinate = Coordinate(x: real, y: real)

  /** `getTooltipCoordinate(xOffset, yOffset, elementWidth, elementHeight,
      ScreenWidth, ScreenHeight, width, height, withPointer)`. */
  type CoordinateHelper = (real, real, real, real, real, real, real, real, bool) -> Coordinate

  /** `getElementVisibleWidth(elementWidth, xOffset, ScreenWidth)`. */
  type VisibleWidthHelper = (real, real, real) -> real

  datatype Screen = Screen(width: real, height: real)

  /** The props that take part in placement. `addYOffset` is optional. */
  datatype Props = Props(width: real, height: real, withPointer: bool, addYOffset: Option<real>)

  /** The computed part of the popover's style. */
  datatype TooltipStyle = TooltipStyle(left: real, top: real, width: real, height: real)

  /** The computed part of the pointer's style and the triangle's orientation. */
  datatype PointerStyle = PointerStyle(top: real, left: real, isDown: bool)

  const DefaultWidth: real := 150.0
  const DefaultHeight: real := 40.0

  /** A popover at least this fraction of the screen wide is centred on screen. */
  const WideFraction: real := 0.94

  /** Half of the pointer triangle's width. */
  const PointerHalfWidth: real := 7.5

  /** The pointer sits this far above the anchor when it points down... */
  const PointerAboveGap: real := 13.0
  /** ...and overlaps the anchor's bottom edge by this much when it points up. */
  const PointerBelowOverlap: real := 2.0

  /** `addYOffset` as a number; absent and 0 are both falsy and mean no offset. */
  function Decay(p: Props): (d: real) {
    if p.addYOffset.Some? && p.addYOffset.value != 0.0 then p.addYOffset.value else 0.0
  }

  function Direction(pastMiddleLine: bool): (d: real) {
    if pastMiddleLine then 1.0 else -1.0
  }

  function HelperCoordinate(st: State, p: Props, screen: Screen, coordinate: CoordinateHelper): (c: Coordinate) {
    coordinate(st.xOffset, st.yOffset, st.elementWidth, st.elementHeight,
               screen.width, screen.height, p.width, p.height, p.withPointer)
  }

  /** The horizontal centre of the anchor's visible part. */
  function AnchorCentre(st: State, screen: Screen, visibleWidth: VisibleWidthHelper): (x: real) {
    st.xOffset + visibleWidth(st.elementWidth, st.xOffset, screen.width) / 2.0
  }

  /** The popover's left edge when centred on the anchor, before any fallback. */
  function CentredLeft(st: State, p: Props, screen: Screen, visibleWidth: VisibleWidthHelper): (left: real) {
    AnchorCentre(st, screen, visibleWidth) - p.width / 2.0
  }

  /** A box from `left` of width `width` lies in `[0, screenWidth]`. */
  predicate FitsOnScreen(left: real, width: real, screenWidth: real) {
    !(left < 0.0 || left + width > screenWidth)
  }

  /** `getTooltipStyle`: the popover's `top` and `left`. */
  function GetTooltipStyle(st: State, p: Props, screen: Screen,
                           coordinate: CoordinateHelper, visibleWidth: VisibleWidthHelper): (s: TooltipStyle)
    ensures s.width == p.width && s.height == p.height
    // vertical: top is y + addYOffset when the anchor lies below the helper's y,
    // y - addYOffset otherwise, and equals y exactly when the offset is absent or 0
    ensures var c := HelperCoordinate(st, p, screen, coordinate);
            (st.yOffset > c.y ==> s.top == c.y + Decay(p)) &&
            (st.yOffset <= c.y ==> s.top == c.y - Decay(p)) &&
            (s.top == c.y <==> Decay(p) == 0.0)
    // horizontal: centred on the anchor when that fits on screen ...
    ensures var l := CentredLeft(st, p, screen, visibleWidth);
            FitsOnScreen(l, p.width, screen.width) ==> s.left == l
    // ... otherwise centred on screen when wide ...
    ensures var l := CentredLeft(st, p, screen, visibleWidth);
            !FitsOnScreen(l, p.width, screen.width) && p.width >= WideFraction * screen.width
            ==> s.left == (screen.width - p.width) / 2.0
    // ... otherwise at the helper's x
    ensures var l := CentredLeft(st, p, screen, visibleWidth);
            !FitsOnScreen(l, p.width, screen.width) && p.width < WideFraction * screen.width
            ==> s.left == HelperCoordinate(st, p, screen, coordinate).x
  {
    var c := HelperCoordinate(st, p, screen, coordinate);
    var pastMiddleLine := st.yOffset > c.y;
    var top := c.y + Decay(p) * Direction(pastMiddleLine);
    var centred := CentredLeft(st, p, screen, visibleWidth);
    var left :=
      if centred < 0.0 || centred + p.width > screen.width then
        if p.width >= WideFraction * screen.width then (screen.width - p.width) / 2.0 else c.x
      else centred;
    TooltipStyle(left, top, p.width, p.height)
  }

  /** `renderPointer(tooltipY)`: the triangle's position and orientation. */
  function RenderPointer(st: State, p: Props, screen: Screen,
                         visibleWidth: VisibleWidthHelper, tooltipY: real): (ptr: PointerStyle)
    ensures ptr.isDown <==> st.yOffset > tooltipY
    ensures ptr.isDown ==> ptr.top == st.yOffset - PointerAboveGap + Decay(p)
    ensures !ptr.isDown ==> ptr.top == st.yOffset + st.elementHeight - PointerBelowOverlap - Decay(p)
    // the triangle's centre is the anchor's visible centre, i.e. the unclamped popover centre
    ensures ptr.left + PointerHalfWidth == CentredLeft(st, p, screen, visibleWidth) + p.width / 2.0
  {
    var pastMiddleLine := st.yOffset > tooltipY;
    PointerStyle(
      if pastMiddleLine then st.yOffset - PointerAboveGap + Decay(p)
      else st.yOffset + st.elementHeight - PointerBelowOverlap - Decay(p),
      AnchorCentre(st, screen, visibleWidth) - PointerHalfWidth,
      pastMiddleLine)
  }

  /** The pointer as `renderContent` draws it: only with `withPointer`, and fed
      the popover's already offset `top`. */
  function PointerFor(st: State, p: Props, screen: Screen,
                      coordinate: CoordinateHelper, visibleWidth: VisibleWidthHelper): (ptr: Option<PointerStyle>)
    ensures ptr.Some? <==> p.withPointer
    ensures ptr.Some? ==> ptr.value.isDown == (st.yOffset > GetTooltipStyle(st, p, screen, coordinate, visibleWidth).top)
  {
    if p.withPointer
    then Some(RenderPointer(st, p, screen, visibleWidth, GetTooltipStyle(st, p, screen, coordinate, visibleWidth).top))
    else None
  }

  // ---------------------------------------------------------------------------
  // Properties of the placement

  /** The popover stays on screen when it is no wider than the screen, provided
      the coordinate helper's own x keeps a narrow popover on screen. */
  lemma StaysOnScreen(st: State, p: Props, screen: Screen,
                      coordinate: CoordinateHelper, visibleWidth: VisibleWidthHelper)
    requires 0.0 <= p.width <= screen.width
    requires p.width < WideFraction * screen.width ==>
             FitsOnScreen(HelperCoordinate(st, p, screen, coordinate).x, p.width, screen.width)
    ensures FitsOnScreen(GetTooltipStyle(st, p, screen, coordinate, visibleWidth).left, p.width, screen.width)
  {
  }

  /** A wide popover that does not fit centred on its anchor is placed the same
      way whatever the anchor and whatever the helpers answer. */
  lemma WideIgnoresAnchor(st1: State, st2: State, p: Props, screen: Screen,
                          coordinate1: CoordinateHelper, visibleWidth1: VisibleWidthHelper,
                          coordinate2: CoordinateHelper, visibleWidth2: VisibleWidthHelper)
    requires p.width >= WideFraction * screen.width
    requires !FitsOnScreen(CentredLeft(st1, p, screen, visibleWidth1), p.width, screen.width)
    requires !FitsOnScreen(CentredLeft(st2, p, screen, visibleWidth2), p.width, screen.width)
    ensures GetTooltipStyle(st1, p, screen, coordinate1, visibleWidth1).left
            == GetTooltipStyle(st2, p, screen, coordinate2, visibleWidth2).left
  {
  }

  /** When no fallback is needed, the pointer is centred on the popover. */
  lemma PointerCentredOnPopover(st: State, p: Props, screen: Screen,
                                coordinate: CoordinateHelper, visibleWidth: VisibleWidthHelper)
    requires FitsOnScreen(CentredLeft(st, p, screen, visibleWidth), p.width, screen.width)
    ensures var s := GetTooltipStyle(st, p, screen, coordinate, visibleWidth);
            RenderPointer(st, p, screen, visibleWidth, s.top).left + PointerHalfWidth == s.left + p.width / 2.0
  {
  }

  /** The pointer is decided on the offset `top` while the popover's side is
      decided on the helper's y. They agree exactly when the offset does not
      carry the popover's top across the anchor's `yOffset`; in particular they
      always agree without an offset. */
  lemma PointerFacesPopover(st: State, p: Props, screen: Screen,
                            coordinate: CoordinateHelper, visibleWidth: VisibleWidthHelper)
    requires p.withPointer
    ensures var c := HelperCoordinate(st, p, screen, coordinate);
            var ptr := PointerFor(st, p, screen, coordinate, visibleWidth);
            ptr.Some? &&
            (st.yOffset > c.y ==> (ptr.value.isDown <==> Decay(p) < st.yOffset - c.y)) &&
            (st.yOffset <= c.y ==> (ptr.value.isDown <==> Decay(p) > c.y - st.yOffset)) &&
            (Decay(p) == 0.0 ==> ptr.value.isDown == (st.yOffset > c.y))
  {
  }

  // ---------------------------------------------------------------------------
  // Worked placements on a 320 x 640 screen

  /** Anchor at (10, 10), 50 x 20, fully visible, default 150 x 40 popover: the
      centred left edge would be -40, so the popover falls back to the helper's x. */
  lemma DefaultPopoverNearLeftEdge(coordinate: CoordinateHelper, visibleWidth: VisibleWidthHelper)
    requires visibleWidth(50.0, 10.0, 320.0) == 50.0
    ensures var st := State(true, 10.0, 10.0, 50.0, 20.0);
            var p := Props(DefaultWidth, DefaultHeight, true, None);
            var screen := Screen(320.0, 640.0);
            CentredLeft(st, p, screen, visibleWidth) == -40.0 &&
            GetTooltipStyle(st, p, screen, coordinate, visibleWidth).left == HelperCoordinate(st, p, screen, coordinate).x
  {
  }

  /** A 310-wide popover always lies on the 320-wide screen; it sits at x = 5
      whenever centring on the anchor would not fit. */
  lemma WidePopoverScenario(st: State, coordinate: CoordinateHelper, visibleWidth: VisibleWidthHelper)
    ensures var p := Props(310.0, DefaultHeight, true, None);
            var screen := Screen(320.0, 640.0);
            var s := GetTooltipStyle(st, p, screen, coordinate, visibleWidth);
            FitsOnScreen(s.left, 310.0, 320.0) &&
            (!FitsOnScreen(CentredLeft(st, p, screen, visibleWidth), 310.0, 320.0) ==> s.left == 5.0)
  {
  }
}
