/**
 * The Scroll container's autoscroll computation (`DefaultScroll`'s
 * `onChildFocus`): given the bounding box of a newly focused descendant and the
 * live geometry of the viewport and the track, compute the target scroll
 * offsets and store them in the component's `scrollX`/`scrollY` state.
 *
 * JavaScript numbers are modelled as reals. The two axes run the same
 * arithmetic, so it is written once over an `Axis` record and instantiated
 * with the horizontal fields (left, width, offsetWidth, scrollWidth) and the
 * vertical ones (top, height, offsetHeight, scrollHeight).
 */
module Scroll {
  import opened Wrappers

  /** A `getBoundingClientRect()` snapshot, in on-screen (possibly scaled) units. */
  datatype ClientRect = ClientRect(left: real, top: real, width: real, height: real)

  /** What the handler reads from the viewport `div`: its on-screen box and its layout size. */
  datatype ViewportMetrics = ViewportMetrics(rect: ClientRect, offsetWidth: real, offsetHeight: real)

  /** What the handler reads from the track `Frame`: its on-screen box and its full scrollable size. */
  datatype TrackMetrics = TrackMetrics(rect: ClientRect, scrollWidth: real, scrollHeight: real)

  /** The `direction` property: which axes scroll. */
  datatype Direction = Vertical | Horizontal | Both

  /**
   * A per-axis stickiness property: `Leading` is "left" for the horizontal axis
   * and "top" for the vertical one, `Trailing` is "right" or "bottom".
   */
  datatype Stickiness = Auto | Leading | Trailing

  /** The computed target offsets. */
  datatype ScrollOffset = ScrollOffset(x: real, y: real)

  predicate HorizontalEnabled(direction: Direction) {
    direction == Horizontal || direction == Both
  }

  predicate VerticalEnabled(direction: Direction) {
    direction == Vertical || direction == Both
  }

  /** The quantities one axis of the computation reads. */
  datatype Axis = Axis(
    viewportStart: real,       // viewportLeft / viewportTop
    viewportSize: real,        // viewportWidth / viewportHeight (on screen)
    viewportLayoutSize: real,  // viewport.offsetWidth / offsetHeight
    trackStart: real,          // trackLeft / trackTop
    trackScrollSize: real,     // track.scrollWidth / scrollHeight
    elementStart: real,        // elementLeft / elementTop
    elementSize: real          // elementWidth / elementHeight
  )

  function AxisX(viewport: ViewportMetrics, track: TrackMetrics, element: ClientRect): Axis {
    Axis(viewport.rect.left, viewport.rect.width, viewport.offsetWidth,
         track.rect.left, track.scrollWidth, element.left, element.width)
  }

  function AxisY(viewport: ViewportMetrics, track: TrackMetrics, element: ClientRect): Axis {
    Axis(viewport.rect.top, viewport.rect.height, viewport.offsetHeight,
         track.rect.top, track.scrollHeight, element.top, element.height)
  }

  /**
   * The divisions of one axis are defined: the source divides by the layout
   * size and then by the scale without a guard.
   */
  predicate Measurable(a: Axis) {
    a.viewportSize > 0.0 && a.viewportLayoutSize > 0.0
  }

  /** The geometry is measurable on every axis the direction enables. */
  predicate MeasurableFor(direction: Direction, viewport: ViewportMetrics, track: TrackMetrics, element: ClientRect) {
    (HorizontalEnabled(direction) ==> Measurable(AxisX(viewport, track, element))) &&
    (VerticalEnabled(direction) ==> Measurable(AxisY(viewport, track, element)))
  }

  /** The rendered size of the viewport per unit of layout size. */
  function Scale(a: Axis): (r: real)
    requires Measurable(a)
    ensures r > 0.0
  {
    a.viewportSize / a.viewportLayoutSize
  }

  /** The scale turns the viewport's layout size into its rendered size. */
  lemma ScaleMapsLayoutToScreen(a: Axis)
    requires Measurable(a)
    ensures Scale(a) * a.viewportLayoutSize == a.viewportSize
  {
  }

  /**
   * The live scroll position, recovered from how far the track is shifted
   * against the viewport: that on-screen distance expressed in layout units.
   */
  function CurrentScroll(a: Axis): real
    requires Measurable(a)
  {
    (a.viewportStart - a.trackStart) / Scale(a)
  }

  /** The live position, scaled back to the screen, is the track's shift against the viewport. */
  lemma CurrentScrollRecovered(a: Axis)
    requires Measurable(a)
    ensures CurrentScroll(a) * Scale(a) == a.viewportStart - a.trackStart
  {
  }

  /** `elementOffsetLeft`: the element's leading edge relative to the viewport's. */
  function LeadingOffset(a: Axis): real {
    a.elementStart - a.viewportStart
  }

  /** `elementRightEdge`: the element's trailing edge relative to the viewport's leading edge. */
  function TrailingEdge(a: Axis): real {
    LeadingOffset(a) + a.elementSize
  }

  /** The "reveal with minimal movement" rule applies: stickiness is auto, or the element fits. */
  predicate MinimalReveal(a: Axis, stickiness: Stickiness) {
    stickiness == Auto || a.elementSize <= a.viewportSize
  }

  /**
   * The delta before it is converted to layout units, an on-screen distance:
   * align the leading edges, align the trailing edges, or stay.
   */
  function ScreenDelta(a: Axis, stickiness: Stickiness): real {
    if MinimalReveal(a, stickiness) then
      if a.elementStart < a.viewportStart then LeadingOffset(a)
      else if TrailingEdge(a) > a.viewportSize then TrailingEdge(a) - a.viewportSize
      else 0.0
    else if stickiness == Leading then LeadingOffset(a)
    else TrailingEdge(a) - a.viewportSize
  }

  /**
   * The scroll delta chosen for the focused element, in layout units. Each
   * non-zero branch of the source divides its distance by the scale; the zero
   * branch is `0 / scale` as well.
   */
  function Delta(a: Axis, stickiness: Stickiness): real
    requires Measurable(a)
  {
    ScreenDelta(a, stickiness) / Scale(a)
  }

  /** `Math.max(x, y)`. */
  function Max(x: real, y: real): (r: real)
    ensures r >= x && r >= y
    ensures r == x || r == y
  {
    if x >= y then x else y
  }

  /** The largest valid offset: `Math.max(scrollExtent - layoutExtent, 0)`. */
  function MaxScroll(a: Axis): real {
    Max(a.trackScrollSize - a.viewportLayoutSize, 0.0)
  }

  /** `ensureScrollXWithinBounds` / `ensureScrollYWithinBounds`. */
  function Clamp(value: real, max: real): (r: real)
    requires max >= 0.0
    ensures 0.0 <= r <= max
    ensures 0.0 <= value <= max ==> r == value
    ensures value < 0.0 ==> r == 0.0
    ensures value > max ==> r == max
  {
    if value < 0.0 then 0.0
    else if value > max then max
    else value
  }

  /** The new offset of one enabled axis. */
  function AxisTarget(a: Axis, stickiness: Stickiness): (r: real)
    requires Measurable(a)
    ensures 0.0 <= r <= MaxScroll(a)
  {
    Clamp(CurrentScroll(a) + Delta(a, stickiness), MaxScroll(a))
  }

  /**
   * The offsets `onChildFocus` stores when both refs are set. Each enabled axis
   * lands in its valid range; a disabled axis is reset to 0.
   */
  function NewScroll(direction: Direction, horizontal: Stickiness, vertical: Stickiness,
                     viewport: ViewportMetrics, track: TrackMetrics, element: ClientRect): (r: ScrollOffset)
    requires MeasurableFor(direction, viewport, track, element)
    ensures 0.0 <= r.x <= Max(track.scrollWidth - viewport.offsetWidth, 0.0)
    ensures 0.0 <= r.y <= Max(track.scrollHeight - viewport.offsetHeight, 0.0)
    ensures !HorizontalEnabled(direction) ==> r.x == 0.0
    ensures !VerticalEnabled(direction) ==> r.y == 0.0
  {
    ScrollOffset(
      if HorizontalEnabled(direction) then AxisTarget(AxisX(viewport, track, element), horizontal) else 0.0,
      if VerticalEnabled(direction) then AxisTarget(AxisY(viewport, track, element), vertical) else 0.0)
  }

  // ----- Properties of one axis -----

  /**
   * Under the minimal-reveal rule, an element that already lies within the
   * viewport causes no movement: the result is the clamped live position, which
   * is the live position itself when that is in range.
   */
  lemma VisibleElementDoesNotMove(a: Axis, stickiness: Stickiness)
    requires Measurable(a) && MinimalReveal(a, stickiness)
    requires a.elementStart >= a.viewportStart && TrailingEdge(a) <= a.viewportSize
    ensures Delta(a, stickiness) == 0.0
    ensures AxisTarget(a, stickiness) == Clamp(CurrentScroll(a), MaxScroll(a))
    ensures 0.0 <= CurrentScroll(a) <= MaxScroll(a) ==> AxisTarget(a, stickiness) == CurrentScroll(a)
  {
  }

  /**
   * Under the minimal-reveal rule the leading-edge test is made first: an
   * element starting before the viewport aligns the leading edges, and the
   * delta is negative, whatever its trailing edge.
   */
  lemma LeadingEdgeFirst(a: Axis, stickiness: Stickiness)
    requires Measurable(a) && MinimalReveal(a, stickiness)
    requires a.elementStart < a.viewportStart
    ensures Delta(a, stickiness) == (a.elementStart - a.viewportStart) / Scale(a)
    ensures Delta(a, stickiness) < 0.0
  {
    NegativeQuotient(LeadingOffset(a), Scale(a));
  }

  /**
   * Under the minimal-reveal rule, an element that starts inside the viewport
   * but ends past it aligns the trailing edges, and the delta is positive.
   */
  lemma TrailingEdgeSecond(a: Axis, stickiness: Stickiness)
    requires Measurable(a) && MinimalReveal(a, stickiness)
    requires a.elementStart >= a.viewportStart && TrailingEdge(a) > a.viewportSize
    ensures Delta(a, stickiness) == (TrailingEdge(a) - a.viewportSize) / Scale(a)
    ensures Delta(a, stickiness) > 0.0
  {
    PositiveQuotient(TrailingEdge(a) - a.viewportSize, Scale(a));
  }

  /**
   * An element larger than the viewport, with non-auto stickiness, is aligned
   * by the chosen edge regardless of where it is.
   */
  lemma OversizedElementSticks(a: Axis, stickiness: Stickiness)
    requires Measurable(a) && stickiness != Auto && a.elementSize > a.viewportSize
    ensures stickiness == Leading ==> Delta(a, stickiness) == (a.elementStart - a.viewportStart) / Scale(a)
    ensures stickiness == Trailing ==> Delta(a, stickiness) == (TrailingEdge(a) - a.viewportSize) / Scale(a)
  {
  }

  /**
   * An element that fits in the viewport ends up wholly inside it once the
   * track has moved by the on-screen delta, whatever the stickiness.
   */
  lemma FittingElementRevealed(a: Axis, stickiness: Stickiness)
    requires 0.0 <= a.elementSize <= a.viewportSize
    ensures 0.0 <= LeadingOffset(a) - ScreenDelta(a, stickiness)
    ensures TrailingEdge(a) - ScreenDelta(a, stickiness) <= a.viewportSize
  {
  }

  /** When the live position plus the delta is already in range, it is the result. */
  lemma UnclampedTarget(a: Axis, stickiness: Stickiness)
    requires Measurable(a)
    requires 0.0 <= CurrentScroll(a) + Delta(a, stickiness) <= MaxScroll(a)
    ensures AxisTarget(a, stickiness) == CurrentScroll(a) + Delta(a, stickiness)
  {
  }

  lemma NegativeQuotient(x: real, y: real)
    requires x < 0.0 && y > 0.0
    ensures x / y < 0.0
  {
    var q := x / y;
    assert q * y == x;
  }

  lemma PositiveQuotient(x: real, y: real)
    requires x > 0.0 && y > 0.0
    ensures x / y > 0.0
  {
    var q := x / y;
    assert q * y == x;
  }

  // ----- Scale invariance -----

  /** Every on-screen quantity of an axis multiplied by `k`; layout sizes stay as they are. */
  function ScaledAxis(a: Axis, k: real): Axis {
    Axis(k * a.viewportStart, k * a.viewportSize, a.viewportLayoutSize,
         k * a.trackStart, a.trackScrollSize, k * a.elementStart, k * a.elementSize)
  }

  function ScaledRect(r: ClientRect, k: real): ClientRect {
    ClientRect(k * r.left, k * r.top, k * r.width, k * r.height)
  }

  /** The scale grows by `k`; the live position, in layout units, does not change. */
  lemma ScaledAxisMeasures(a: Axis, k: real)
    requires Measurable(a) && k > 0.0
    ensures Measurable(ScaledAxis(a, k))
    ensures Scale(ScaledAxis(a, k)) == k * Scale(a)
    ensures CurrentScroll(ScaledAxis(a, k)) == CurrentScroll(a)
  {
    var b := ScaledAxis(a, k);
    PositiveProduct(k, a.viewportSize);
    var s := Scale(a);
    ScaleMapsLayoutToScreen(a);
    assert (k * s) * a.viewportLayoutSize == k * (s * a.viewportLayoutSize);
    QuotientUnique(b.viewportSize, b.viewportLayoutSize, k * s);
    var c := CurrentScroll(a);
    CurrentScrollRecovered(a);
    assert c * (k * s) == k * (c * s);
    assert k * (a.viewportStart - a.trackStart) == b.viewportStart - b.trackStart;
    QuotientUnique(b.viewportStart - b.trackStart, k * s, c);
  }

  /** Multiplying dividend and divisor by the same `k > 0` keeps the quotient. */
  lemma ScaledQuotient(k: real, x: real, y: real)
    requires k > 0.0 && y != 0.0
    ensures (k * x) / (k * y) == x / y
  {
    var q := x / y;
    assert q * y == x;
    assert q * (k * y) == k * (q * y);
    assert k * y != 0.0;
    QuotientUnique(k * x, k * y, q);
  }

  /** The quotient is the one number that multiplied by the divisor gives the dividend. */
  lemma QuotientUnique(x: real, y: real, q: real)
    requires y != 0.0 && q * y == x
    ensures x / y == q
  {
  }

  lemma PositiveProduct(x: real, y: real)
    requires x > 0.0 && y > 0.0
    ensures x * y > 0.0
  {
  }

  /** Scaling every on-screen quantity by `k > 0` scales the on-screen delta by `k`. */
  lemma ScaledScreenDelta(a: Axis, stickiness: Stickiness, k: real)
    requires k > 0.0
    ensures ScreenDelta(ScaledAxis(a, k), stickiness) == k * ScreenDelta(a, stickiness)
  {
    var b := ScaledAxis(a, k);
    var lead, trail := LeadingOffset(a), TrailingEdge(a);
    assert LeadingOffset(b) == k * lead;
    assert TrailingEdge(b) == k * trail;
    assert TrailingEdge(b) - b.viewportSize == k * (trail - a.viewportSize);
    assert (b.elementSize <= b.viewportSize) == (a.elementSize <= a.viewportSize) by {
      PreservesOrder(k, a.elementSize, a.viewportSize);
    }
    assert (b.elementStart < b.viewportStart) == (a.elementStart < a.viewportStart) by {
      PreservesOrder(k, a.elementStart, a.viewportStart);
    }
    var size := a.viewportSize;
    assert (k * size < k * trail) == (size < trail) by {
      PreservesOrder(k, size, trail);
    }
    assert TrailingEdge(b) == k * trail && b.viewportSize == k * size;
  }

  /** Scaling every on-screen quantity by `k > 0` leaves the delta unchanged. */
  lemma ScaledAxisDelta(a: Axis, stickiness: Stickiness, k: real)
    requires Measurable(a) && k > 0.0
    ensures Measurable(ScaledAxis(a, k))
    ensures Delta(ScaledAxis(a, k), stickiness) == Delta(a, stickiness)
  {
    var b := ScaledAxis(a, k);
    assert Measurable(b) && Scale(b) == k * Scale(a) by {
      ScaledAxisMeasures(a, k);
    }
    assert ScreenDelta(b, stickiness) == k * ScreenDelta(a, stickiness) by {
      ScaledScreenDelta(a, stickiness, k);
    }
    QuotientOfScaled(ScreenDelta(b, stickiness), Scale(b), ScreenDelta(a, stickiness), Scale(a), k);
  }

  lemma QuotientOfScaled(n1: real, d1: real, n0: real, d0: real, k: real)
    requires k > 0.0 && d0 != 0.0 && n1 == k * n0 && d1 == k * d0
    ensures d1 != 0.0 && n1 / d1 == n0 / d0
  {
    ScaledQuotient(k, n0, d0);
  }

  lemma PreservesOrder(k: real, x: real, y: real)
    requires k > 0.0
    ensures (k * x < k * y) == (x < y)
    ensures (k * x <= k * y) == (x <= y)
  {
    if x < y {
      PositiveProduct(k, y - x);
    } else {
      assert x - y >= 0.0;
      assert k * (x - y) >= 0.0;
    }
    if x <= y {
      assert k * (y - x) >= 0.0;
    } else {
      PositiveProduct(k, x - y);
    }
  }

  /** Scaling every on-screen quantity of an axis by `k > 0` leaves its new offset unchanged. */
  lemma ScaledAxisTarget(a: Axis, stickiness: Stickiness, k: real)
    requires Measurable(a) && k > 0.0
    ensures Measurable(ScaledAxis(a, k))
    ensures AxisTarget(ScaledAxis(a, k), stickiness) == AxisTarget(a, stickiness)
  {
    ScaledAxisMeasures(a, k);
    ScaledAxisDelta(a, stickiness, k);
    assert MaxScroll(ScaledAxis(a, k)) == MaxScroll(a);
  }

  /** The viewport, track and element boxes multiplied by `k`. */
  function ScaledGeometry(viewport: ViewportMetrics, track: TrackMetrics, element: ClientRect, k: real)
    : (ViewportMetrics, TrackMetrics, ClientRect)
  {
    (viewport.(rect := ScaledRect(viewport.rect, k)), track.(rect := ScaledRect(track.rect, k)), ScaledRect(element, k))
  }

  /**
   * Scaling the viewport, track and element boxes by the same `k > 0` (a
   * zoomed canvas) while the layout sizes stay fixed leaves both computed
   * offsets unchanged.
   */
  lemma NewScrollScaleInvariant(direction: Direction, horizontal: Stickiness, vertical: Stickiness,
                                viewport: ViewportMetrics, track: TrackMetrics, element: ClientRect, k: real)
    requires MeasurableFor(direction, viewport, track, element) && k > 0.0
    ensures var (v, t, e) := ScaledGeometry(viewport, track, element, k);
      MeasurableFor(direction, v, t, e) &&
      NewScroll(direction, horizontal, vertical, v, t, e) == NewScroll(direction, horizontal, vertical, viewport, track, element)
  {
    var (v, t, e) := ScaledGeometry(viewport, track, element, k);
    var x, y := AxisX(viewport, track, element), AxisY(viewport, track, element);
    assert AxisX(v, t, e) == ScaledAxis(x, k);
    assert AxisY(v, t, e) == ScaledAxis(y, k);
    if HorizontalEnabled(direction) {
      ScaledAxisTarget(x, horizontal, k);
    }
    if VerticalEnabled(direction) {
      ScaledAxisTarget(y, vertical, k);
    }
  }

  /**
   * A viewport at 0 of width 100 (scale 1) and an element at 40 of width 140:
   * "left" stickiness scrolls by 40, "right" by 180 - 100 = 80.
   */
  lemma OversizedExample(viewport: ViewportMetrics, track: TrackMetrics, element: ClientRect)
    requires viewport == ViewportMetrics(ClientRect(0.0, 0.0, 100.0, 100.0), 100.0, 100.0)
    requires track == TrackMetrics(ClientRect(0.0, 0.0, 1000.0, 100.0), 1000.0, 100.0)
    requires element == ClientRect(40.0, 0.0, 140.0, 50.0)
    ensures MeasurableFor(Horizontal, viewport, track, element)
    ensures NewScroll(Horizontal, Leading, Auto, viewport, track, element) == ScrollOffset(40.0, 0.0)
    ensures NewScroll(Horizontal, Trailing, Auto, viewport, track, element) == ScrollOffset(80.0, 0.0)
  {
    OversizedAxisExample(AxisX(viewport, track, element));
  }

  lemma OversizedAxisExample(a: Axis)
    requires a == Axis(0.0, 100.0, 100.0, 0.0, 1000.0, 40.0, 140.0)
    ensures Measurable(a)
    ensures Delta(a, Leading) == 40.0 && AxisTarget(a, Leading) == 40.0
    ensures Delta(a, Trailing) == 80.0 && AxisTarget(a, Trailing) == 80.0
  {
    UnitScale(a, Leading);
    UnitScale(a, Trailing);
    assert ScreenDelta(a, Leading) == 40.0 && ScreenDelta(a, Trailing) == 80.0;
    assert MaxScroll(a) == 900.0;
  }

  /** At scale 1 layout units are screen units: no division changes anything. */
  lemma UnitScale(a: Axis, stickiness: Stickiness)
    requires a.viewportSize == a.viewportLayoutSize > 0.0
    ensures Measurable(a) && Scale(a) == 1.0
    ensures CurrentScroll(a) == a.viewportStart - a.trackStart
    ensures Delta(a, stickiness) == ScreenDelta(a, stickiness)
  {
    QuotientUnique(a.viewportSize, a.viewportLayoutSize, 1.0);
    QuotientUnique(a.viewportStart - a.trackStart, 1.0, a.viewportStart - a.trackStart);
    QuotientUnique(ScreenDelta(a, stickiness), 1.0, ScreenDelta(a, stickiness));
  }

  // ----- The component -----

  /**
   * `DefaultScroll`: its properties are fixed at mount (the handler is memoised
   * with no dependencies), its `scrollX`/`scrollY` state is what the track is
   * animated towards.
   */
  class DefaultScroll {
    const direction: Direction
    const horizontalStickiness: Stickiness
    const verticalStickiness: Stickiness
    var scrollX: real
    var scrollY: real

    /** Offsets are never negative, and a disabled axis stays at 0. */
    ghost predicate Valid()
      reads this
    {
      0.0 <= scrollX && 0.0 <= scrollY &&
      (!HorizontalEnabled(direction) ==> scrollX == 0.0) &&
      (!VerticalEnabled(direction) ==> scrollY == 0.0)
    }

    constructor (direction: Direction, horizontalStickiness: Stickiness, verticalStickiness: Stickiness)
      ensures Valid()
      ensures this.direction == direction
      ensures this.horizontalStickiness == horizontalStickiness
      ensures this.verticalStickiness == verticalStickiness
      ensures scrollX == 0.0 && scrollY == 0.0
    {
      this.direction := direction;
      this.horizontalStickiness := horizontalStickiness;
      this.verticalStickiness := verticalStickiness;
      scrollX := 0.0;
      scrollY := 0.0;
    }

    /**
     * `onChildFocus`: `viewport` and `track` are the measurements of the two
     * refs, `None` when a ref is not set. The stored offsets are not read: the
     * live position comes from the geometry.
     */
    method OnChildFocus(viewport: Option<ViewportMetrics>, track: Option<TrackMetrics>, boundingBox: ClientRect)
      requires Valid()
      requires viewport.Some? && track.Some? ==> MeasurableFor(direction, viewport.value, track.value, boundingBox)
      modifies this
      ensures Valid()
      ensures viewport.None? || track.None? ==> scrollX == old(scrollX) && scrollY == old(scrollY)
      ensures viewport.Some? && track.Some? ==>
        ScrollOffset(scrollX, scrollY) ==
        NewScroll(direction, horizontalStickiness, verticalStickiness, viewport.value, track.value, boundingBox)
    {
      if viewport.None? || track.None? {
        return;
      }
      var offset := NewScroll(direction, horizontalStickiness, verticalStickiness, viewport.value, track.value, boundingBox);
      scrollX := offset.x;
      scrollY := offset.y;
    }
  }
}
