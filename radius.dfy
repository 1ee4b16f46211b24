/**
 * Elliptical corner radii (src/border_radius.cpp, include/border_radius.hpp).
 *
 * A `Radius` is an (x, y) pair tagged with its unit: pixels or a fraction
 * of the box. The class's constructor is private and every public factory
 * clamps, so the values a program can hold are exactly those of the subset
 * type `Radius` below: both components non-negative, whole numbers when
 * measured in pixels (they come from `int` arguments), at most 1 when
 * measured as a fraction.
 */
module Radii {
  import opened Geometry

  /** The three private fields `_x`, `_y` and `_isPixels`. */
  datatype RadiusValue = RadiusValue(x: real, y: real, isPixels: bool)

  predicate IsWhole(v: real)
  {
    v.Floor as real == v
  }

  /** What the clamping factories guarantee of every value they build. */
  predicate Reachable(r: RadiusValue)
  {
    && 0.0 <= r.x && 0.0 <= r.y
    && (r.isPixels ==> IsWhole(r.x) && IsWhole(r.y))
    && (!r.isPixels ==> r.x <= 1.0 && r.y <= 1.0)
  }

  type Radius = r: RadiusValue | Reachable(r) witness RadiusValue(0.0, 0.0, false)

  /** `std::max(0, v)` on `int`. */
  function AtLeastZero(v: int): (r: nat)
    ensures v >= 0 ==> r == v
    ensures v < 0 ==> r == 0
  {
    if v < 0 then 0 else v
  }

  /**
   * The conversion of a `float` to `int` that passing it to an `int`
   * parameter performs: truncation toward zero.
   */
  function TruncateToInt(v: real): (r: int)
    ensures 0.0 <= v ==> 0 <= r && r as real <= v < r as real + 1.0
    ensures v < 0.0 ==> r <= 0 && r as real - 1.0 < v <= r as real
  {
    if 0.0 <= v then v.Floor else -((-v).Floor)
  }

  /** One axis of `toScale` on a pixel radius: divide by the extent, clamp to [0, 1]. */
  function AxisToScale(v: real, extent: real): (s: real)
    requires extent != 0.0
    ensures 0.0 <= s <= 1.0
  {
    Clamp01(v / extent)
  }

  /** The `int` argument `toPixels` passes to `ellipticalPixel` for one axis. */
  function PixelCount(v: real, extent: real): int
  {
    TruncateToInt(v * extent)
  }

  /** One axis of `toPixels` on a scale radius: multiply, truncate to `int`, floor at 0. */
  function AxisToPixels(v: real, extent: real): (p: real)
    ensures 0.0 <= p && IsWhole(p)
  {
    AtLeastZero(PixelCount(v, extent)) as real
  }

  /** `Radius::ellipticalPixel`: each component floored at 0, tagged as pixels. */
  function EllipticalPixel(x: int, y: int): (r: Radius)
    ensures r.isPixels
    ensures r.x == AtLeastZero(x) as real && r.y == AtLeastZero(y) as real
  {
    RadiusValue(AtLeastZero(x) as real, AtLeastZero(y) as real, true)
  }

  /** `Radius::ellipticalScale`: each component clamped to [0, 1], tagged as scale. */
  function EllipticalScale(x: real, y: real): (r: Radius)
    ensures !r.isPixels
    ensures r.x == Clamp01(x) && r.y == Clamp01(y)
    ensures 0.0 <= x <= 1.0 && 0.0 <= y <= 1.0 ==> r.x == x && r.y == y
  {
    RadiusValue(Clamp01(x), Clamp01(y), false)
  }

  /** `Radius::circularPixel`: converts to float first, then floors at 0. */
  function CircularPixel(radius: int): (r: Radius)
    ensures r == EllipticalPixel(radius, radius)
    ensures r.x == r.y
  {
    var f := radius as real;
    var f' := if f < 0.0 then 0.0 else f;
    RadiusValue(f', f', true)
  }

  /** `Radius::circularScale`. */
  function CircularScale(radius: real): (r: Radius)
    ensures r == EllipticalScale(radius, radius)
    ensures r.x == r.y
  {
    var f := Clamp01(radius);
    RadiusValue(f, f, false)
  }

  /** `Radius::zero`: no rounding, measured as scale. */
  function Zero(): (r: Radius)
    ensures !r.isPixels && r.x == 0.0 && r.y == 0.0
  {
    RadiusValue(0.0, 0.0, false)
  }

  /** `Radius::toVector2`. */
  function ToVector2(r: Radius): (v: Vec2)
    ensures v.x == r.x && v.y == r.y
  {
    Vec2(r.x, r.y)
  }

  /** Converting pixels to scale divides by the viewport, so it needs a viewport with no zero side. */
  predicate ScalableBy(r: Radius, viewport: Vec2)
  {
    r.isPixels ==> viewport.x != 0.0 && viewport.y != 0.0
  }

  /**
   * `Radius::toScale`: a scale radius is returned as it is; a pixel
   * radius is divided per axis by the viewport and rebuilt by the clamping
   * scale factory.
   */
  function ToScale(r: Radius, viewport: Vec2): (s: Radius)
    requires ScalableBy(r, viewport)
    ensures !s.isPixels
    ensures !r.isPixels ==> s == r
    ensures r.isPixels ==> s == EllipticalScale(r.x / viewport.x, r.y / viewport.y)
    ensures r.isPixels ==> s.x == AxisToScale(r.x, viewport.x) && s.y == AxisToScale(r.y, viewport.y)
  {
    if !r.isPixels then r else EllipticalScale(r.x / viewport.x, r.y / viewport.y)
  }

  /**
   * `Radius::toPixels`: a pixel radius is returned as it is; a scale
   * radius is multiplied by the viewport, truncated to `int` by the
   * parameters of `ellipticalPixel`, and floored at 0 there.
   */
  function ToPixels(r: Radius, viewport: Vec2): (p: Radius)
    ensures p.isPixels
    ensures r.isPixels ==> p == r
    ensures !r.isPixels ==> p == EllipticalPixel(PixelCount(r.x, viewport.x), PixelCount(r.y, viewport.y))
    ensures !r.isPixels ==> p.x == AxisToPixels(r.x, viewport.x) && p.y == AxisToPixels(r.y, viewport.y)
  {
    if r.isPixels then r else EllipticalPixel(PixelCount(r.x, viewport.x), PixelCount(r.y, viewport.y))
  }

  /**
   * The factories build exactly the values of `Radius`: every value
   * satisfying the invariant is the output of `ellipticalPixel` or of
   * `ellipticalScale`, so the invariant is no stronger than what the
   * private constructor lets through.
   */
  lemma FactoriesCoverRadius(r: Radius)
    ensures r.isPixels ==> r == EllipticalPixel(r.x.Floor, r.y.Floor)
    ensures !r.isPixels ==> r == EllipticalScale(r.x, r.y)
  {
    if r.isPixels {
      assert r.x.Floor >= 0 && r.y.Floor >= 0;
    }
  }

  /** `toScale` always yields a scale radius, so converting twice changes nothing. */
  lemma ToScaleIdempotent(r: Radius, viewport: Vec2, other: Vec2)
    requires ScalableBy(r, viewport)
    ensures ScalableBy(ToScale(r, viewport), other)
    ensures ToScale(ToScale(r, viewport), other) == ToScale(r, viewport)
  {
  }

  /** `toPixels` always yields a pixel radius, so converting twice changes nothing. */
  lemma ToPixelsIdempotent(r: Radius, viewport: Vec2, other: Vec2)
    ensures ToPixels(ToPixels(r, viewport), other) == ToPixels(r, viewport)
  {
  }

  /**
   * A pixel radius that fits in a positive viewport survives the round
   * trip through scale exactly: its components are whole numbers, so the
   * truncation on the way back loses nothing.
   */
  lemma PixelRoundTrip(r: Radius, viewport: Vec2)
    requires r.isPixels
    requires 0.0 < viewport.x && 0.0 < viewport.y
    requires r.x <= viewport.x && r.y <= viewport.y
    ensures ToPixels(ToScale(r, viewport), viewport) == r
  {
    WholeSurvivesScale(r.x, viewport.x);
    WholeSurvivesScale(r.y, viewport.y);
  }

  /**
   * A scale radius taken through pixels and back loses less than one
   * pixel per axis: the result lies in (r - 1/viewport, r].
   */
  lemma ScaleRoundTrip(r: Radius, viewport: Vec2)
    requires !r.isPixels
    requires 0.0 < viewport.x && 0.0 < viewport.y
    ensures ScalableBy(ToPixels(r, viewport), viewport)
    ensures var s := ToScale(ToPixels(r, viewport), viewport);
      && !s.isPixels
      && r.x - 1.0 / viewport.x < s.x <= r.x
      && r.y - 1.0 / viewport.y < s.y <= r.y
  {
    TruncatedWithinOnePixel(r.x, viewport.x);
    TruncatedWithinOnePixel(r.y, viewport.y);
  }

  /** One axis of `PixelRoundTrip`. */
  lemma WholeSurvivesScale(v: real, extent: real)
    requires IsWhole(v) && 0.0 <= v <= extent && 0.0 < extent
    ensures AxisToPixels(AxisToScale(v, extent), extent) == v
  {
    DivideWithinUnit(v, extent);
    assert AxisToScale(v, extent) == v / extent;
    assert v / extent * extent == v;
  }

  lemma DivideWithinUnit(a: real, b: real)
    requires 0.0 <= a <= b && 0.0 < b
    ensures 0.0 <= a / b <= 1.0
  {
  }

  /** One axis of `ScaleRoundTrip`: the truncated pixel count divided back lies within one pixel below. */
  lemma TruncatedWithinOnePixel(v: real, extent: real)
    requires 0.0 <= v <= 1.0 && 0.0 < extent
    ensures var q := AxisToScale(AxisToPixels(v, extent), extent);
      v - 1.0 / extent < q <= v
  {
    var n := PixelCount(v, extent);
    assert 0.0 <= v * extent;
    assert 0 <= n && n as real <= v * extent < n as real + 1.0;
    assert AxisToPixels(v, extent) == n as real;
    QuotientBounds(n as real, v, extent);
    assert 0.0 <= n as real / extent <= 1.0;
    assert AxisToScale(n as real, extent) == n as real / extent;
  }

  /** If `v*e - 1 < n <= v*e` with `e > 0`, then `v - 1/e < n/e <= v`. */
  lemma QuotientBounds(n: real, v: real, e: real)
    requires 0.0 < e && v * e - 1.0 < n <= v * e
    ensures v - 1.0 / e < n / e <= v
  {
    assert n / e <= v * e / e;
    assert (v * e - 1.0) / e < n / e;
    assert (v * e - 1.0) / e == v - 1.0 / e;
  }
}

/**
 * `BorderRadius`: four independently chosen corner radii, with factories
 * that place radii on corners and corner-wise unit conversion.
 */
module BorderRadii {
  import opened Geometry
  import Radii

  type Radius = Radii.Radius

  /** The constructor, every corner defaulting to `Radius::zero()`. */
  datatype BorderRadius = BorderRadius(
    topLeft: Radius := Radii.Zero(),
    topRight: Radius := Radii.Zero(),
    bottomLeft: Radius := Radii.Zero(),
    bottomRight: Radius := Radii.Zero())

  predicate AllEqual(b: BorderRadius)
  {
    b.topLeft == b.topRight == b.bottomLeft == b.bottomRight
  }

  predicate HorizontallySymmetric(b: BorderRadius)
  {
    b.topLeft == b.bottomLeft && b.topRight == b.bottomRight
  }

  predicate VerticallySymmetric(b: BorderRadius)
  {
    b.topLeft == b.topRight && b.bottomLeft == b.bottomRight
  }

  /** `BorderRadius::all`. */
  function All(r: Radius): (b: BorderRadius)
    ensures AllEqual(b) && b.topLeft == r
  {
    BorderRadius(r, r, r, r)
  }

  /** `BorderRadius::circularPixel`. */
  function CircularPixel(radius: int): (b: BorderRadius)
    ensures b == All(Radii.CircularPixel(radius))
    ensures b.topLeft.isPixels && b.topLeft.x == b.topLeft.y == Radii.AtLeastZero(radius) as real
  {
    All(Radii.CircularPixel(radius))
  }

  /** `BorderRadius::circularScale`. */
  function CircularScale(radius: real): (b: BorderRadius)
    ensures b == All(Radii.CircularScale(radius))
    ensures !b.topLeft.isPixels && b.topLeft.x == b.topLeft.y == Clamp01(radius)
  {
    All(Radii.CircularScale(radius))
  }

  /** `BorderRadius::horizontal(left = zero, right = zero)`: (left, right, left, right). */
  function Horizontal(left: Radius := Radii.Zero(), right: Radius := Radii.Zero()): (b: BorderRadius)
    ensures HorizontallySymmetric(b) && b.topLeft == left && b.topRight == right
  {
    BorderRadius(left, right, left, right)
  }

  /** `BorderRadius::vertical(top = zero, bottom = zero)`: (top, top, bottom, bottom). */
  function Vertical(top: Radius := Radii.Zero(), bottom: Radius := Radii.Zero()): (b: BorderRadius)
    ensures VerticallySymmetric(b) && b.topLeft == top && b.bottomLeft == bottom
  {
    BorderRadius(top, top, bottom, bottom)
  }

  /** `BorderRadius::zero`. */
  function Zero(): (b: BorderRadius)
    ensures b == All(Radii.Zero())
  {
    All(Radii.Zero())
  }

  predicate ScalableBy(b: BorderRadius, viewport: Vec2)
  {
    && Radii.ScalableBy(b.topLeft, viewport)
    && Radii.ScalableBy(b.topRight, viewport)
    && Radii.ScalableBy(b.bottomLeft, viewport)
    && Radii.ScalableBy(b.bottomRight, viewport)
  }

  /** `BorderRadius::toScale`: each corner converted in place. */
  function ToScale(b: BorderRadius, viewport: Vec2): (s: BorderRadius)
    requires ScalableBy(b, viewport)
    ensures s.topLeft == Radii.ToScale(b.topLeft, viewport)
    ensures s.topRight == Radii.ToScale(b.topRight, viewport)
    ensures s.bottomLeft == Radii.ToScale(b.bottomLeft, viewport)
    ensures s.bottomRight == Radii.ToScale(b.bottomRight, viewport)
  {
    BorderRadius(
      Radii.ToScale(b.topLeft, viewport),
      Radii.ToScale(b.topRight, viewport),
      Radii.ToScale(b.bottomLeft, viewport),
      Radii.ToScale(b.bottomRight, viewport))
  }

  /** `BorderRadius::toPixels`: each corner converted in place. */
  function ToPixels(b: BorderRadius, viewport: Vec2): (p: BorderRadius)
    ensures p.topLeft == Radii.ToPixels(b.topLeft, viewport)
    ensures p.topRight == Radii.ToPixels(b.topRight, viewport)
    ensures p.bottomLeft == Radii.ToPixels(b.bottomLeft, viewport)
    ensures p.bottomRight == Radii.ToPixels(b.bottomRight, viewport)
  {
    BorderRadius(
      Radii.ToPixels(b.topLeft, viewport),
      Radii.ToPixels(b.topRight, viewport),
      Radii.ToPixels(b.bottomLeft, viewport),
      Radii.ToPixels(b.bottomRight, viewport))
  }

  /** The default constructor and `zero()` agree: no rounding, measured as scale, on every corner. */
  lemma DefaultIsZero()
    ensures BorderRadius() == Zero()
    ensures var z := Zero(); !z.topLeft.isPixels && z.topLeft.x == 0.0 && z.topLeft.y == 0.0 && AllEqual(z)
  {
  }

  /** The shape predicates hold exactly of the values the matching factory builds. */
  lemma ShapesAreFactoryOutputs(b: BorderRadius)
    ensures AllEqual(b) <==> b == All(b.topLeft)
    ensures HorizontallySymmetric(b) <==> b == Horizontal(b.topLeft, b.topRight)
    ensures VerticallySymmetric(b) <==> b == Vertical(b.topLeft, b.bottomLeft)
  {
  }

  /** Converting to scale keeps each factory's shape. */
  lemma ToScaleKeepsShape(r: Radius, s: Radius, viewport: Vec2)
    requires Radii.ScalableBy(r, viewport) && Radii.ScalableBy(s, viewport)
    ensures ToScale(All(r), viewport) == All(Radii.ToScale(r, viewport))
    ensures ToScale(Horizontal(r, s), viewport) == Horizontal(Radii.ToScale(r, viewport), Radii.ToScale(s, viewport))
    ensures ToScale(Vertical(r, s), viewport) == Vertical(Radii.ToScale(r, viewport), Radii.ToScale(s, viewport))
  {
  }

  /** Converting to pixels keeps each factory's shape. */
  lemma ToPixelsKeepsShape(r: Radius, s: Radius, viewport: Vec2)
    ensures ToPixels(All(r), viewport) == All(Radii.ToPixels(r, viewport))
    ensures ToPixels(Horizontal(r, s), viewport) == Horizontal(Radii.ToPixels(r, viewport), Radii.ToPixels(s, viewport))
    ensures ToPixels(Vertical(r, s), viewport) == Vertical(Radii.ToPixels(r, viewport), Radii.ToPixels(s, viewport))
  {
  }

  /** After `toScale` every corner is a scale radius inside [0, 1], and converting again changes nothing. */
  lemma ToScaleNormalises(b: BorderRadius, viewport: Vec2, other: Vec2)
    requires ScalableBy(b, viewport)
    ensures var s := ToScale(b, viewport);
      && !s.topLeft.isPixels && !s.topRight.isPixels && !s.bottomLeft.isPixels && !s.bottomRight.isPixels
      && 0.0 <= s.topLeft.x <= 1.0 && 0.0 <= s.topLeft.y <= 1.0
      && 0.0 <= s.topRight.x <= 1.0 && 0.0 <= s.topRight.y <= 1.0
      && 0.0 <= s.bottomLeft.x <= 1.0 && 0.0 <= s.bottomLeft.y <= 1.0
      && 0.0 <= s.bottomRight.x <= 1.0 && 0.0 <= s.bottomRight.y <= 1.0
      && ScalableBy(s, other)
      && ToScale(s, other) == s
  {
  }

  /** `toPixels` on a border radius is idempotent. */
  lemma ToPixelsIdempotent(b: BorderRadius, viewport: Vec2, other: Vec2)
    ensures ToPixels(ToPixels(b, viewport), other) == ToPixels(b, viewport)
  {
  }
}
