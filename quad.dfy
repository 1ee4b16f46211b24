/**
 * Rounded quads (src/quad.cpp): a rectangle with a position, a size, an
 * anchor point, a rotation, a colour, four elliptical corner radii and an
 * ordered list of child quads drawn in the parent's frame.
 *
 * What `Quad::draw` hands to the shader is recorded as a `DrawCall` value:
 * the model matrix (as the list of transforms it composes), the colour,
 * position and size, and the per-corner radius uniforms. Vertex buffers,
 * the shader object and the GL calls themselves are outside the model.
 */
module Quads {
  import opened Geometry
  import opened Wrappers
  import Radii
  import BorderRadii

  // ---------------------------------------------------------------------
  // Corner radii as the shader receives them
  // ---------------------------------------------------------------------

  /** The four local vectors `borderTL`, `borderTR`, `borderBL`, `borderBR` of `draw`. */
  datatype Corners = Corners(tl: Vec2, tr: Vec2, bl: Vec2, br: Vec2)

  /** `toVector2` of each corner of a border radius. */
  function CornersOf(b: BorderRadii.BorderRadius): (c: Corners)
    ensures c.tl == Vec2(b.topLeft.x, b.topLeft.y) && c.tr == Vec2(b.topRight.x, b.topRight.y)
    ensures c.bl == Vec2(b.bottomLeft.x, b.bottomLeft.y) && c.br == Vec2(b.bottomRight.x, b.bottomRight.y)
  {
    Corners(Radii.ToVector2(b.topLeft), Radii.ToVector2(b.topRight),
            Radii.ToVector2(b.bottomLeft), Radii.ToVector2(b.bottomRight))
  }

  predicate NonNegativeVec(v: Vec2)
  {
    0.0 <= v.x && 0.0 <= v.y
  }

  predicate NonNegative(c: Corners)
  {
    NonNegativeVec(c.tl) && NonNegativeVec(c.tr) && NonNegativeVec(c.bl) && NonNegativeVec(c.br)
  }

  predicate InUnitSquare(v: Vec2)
  {
    0.0 <= v.x <= 1.0 && 0.0 <= v.y <= 1.0
  }

  /**
   * No two corners sharing an edge overlap: along each edge the two radii,
   * as fractions of the half-extent, add up to at most 1.
   */
  predicate EdgesFit(c: Corners)
  {
    && c.tl.y + c.bl.y <= 1.0
    && c.tr.y + c.br.y <= 1.0
    && c.tl.x + c.tr.x <= 1.0
    && c.bl.x + c.br.x <= 1.0
  }

  /** `v` is `w` multiplied on both axes by one factor in (0, 1]: same shape, no larger. */
  ghost predicate ShrinkOf(v: Vec2, w: Vec2)
  {
    exists k: real {:trigger Scaled(w, k)} :: 0.0 < k <= 1.0 && v == Scaled(w, k)
  }

  /** One edge step: when `total` exceeds 1, both corners are multiplied by `1/total`. */
  function FitPair(a: Vec2, b: Vec2, total: real): (Vec2, Vec2)
  {
    if total > 1.0 then (Scaled(a, 1.0 / total), Scaled(b, 1.0 / total)) else (a, b)
  }

  /** The left edge: `borderTL.y + borderBL.y`. */
  function FitLeft(c: Corners): Corners
  {
    var (tl, bl) := FitPair(c.tl, c.bl, c.tl.y + c.bl.y);
    c.(tl := tl, bl := bl)
  }

  /** The right edge: `borderTR.y + borderBR.y`. */
  function FitRight(c: Corners): Corners
  {
    var (tr, br) := FitPair(c.tr, c.br, c.tr.y + c.br.y);
    c.(tr := tr, br := br)
  }

  /** The top edge: `borderTL.x + borderTR.x`. */
  function FitTop(c: Corners): Corners
  {
    var (tl, tr) := FitPair(c.tl, c.tr, c.tl.x + c.tr.x);
    c.(tl := tl, tr := tr)
  }

  /** The bottom edge: `borderBL.x + borderBR.x`. */
  function FitBottom(c: Corners): Corners
  {
    var (bl, br) := FitPair(c.bl, c.br, c.bl.x + c.br.x);
    c.(bl := bl, br := br)
  }

  /** The overlap correction: the four edge steps, left, right, top, bottom, in that order. */
  function CorrectOverlap(c: Corners): Corners
  {
    FitBottom(FitTop(FitRight(FitLeft(c))))
  }

  /** The sanity clamp of every corner to [0, 1]. */
  function ClampCorners(c: Corners): (r: Corners)
    ensures InUnitSquare(r.tl) && InUnitSquare(r.tr) && InUnitSquare(r.bl) && InUnitSquare(r.br)
  {
    Corners(ClampVec01(c.tl), ClampVec01(c.tr), ClampVec01(c.bl), ClampVec01(c.br))
  }

  /**
   * What `draw` sends for one corner: the radius, whether the fragment
   * stage tests the elliptical corner, and `1/radius²` per axis, which is
   * only sent (and so only defined) when the test is on.
   */
  datatype CornerShade = CornerShade(border: Vec2, check: bool, inv2: Option<Vec2>)

  function Shade(v: Vec2): CornerShade
  {
    if v.x * v.y > 0.0 then CornerShade(v, true, Some(InverseSquares(v)))
    else CornerShade(v, false, None)
  }

  /** `1.0f / glm::pow(v, vec2{2.0f})`: the reciprocal of each component squared. */
  function InverseSquares(v: Vec2): (r: Vec2)
    requires v.x != 0.0 && v.y != 0.0
    ensures r.x * (v.x * v.x) == 1.0 && r.y * (v.y * v.y) == 1.0
    ensures 0.0 < r.x && 0.0 < r.y
  {
    Vec2(1.0 / (v.x * v.x), 1.0 / (v.y * v.y))
  }

  datatype CornerUniforms = CornerUniforms(tl: CornerShade, tr: CornerShade, bl: CornerShade, br: CornerShade)

  function Borders(u: CornerUniforms): Corners
  {
    Corners(u.tl.border, u.tr.border, u.bl.border, u.br.border)
  }

  /** The corner uniforms `draw` computes from a border radius already converted to scale. */
  function ShaderCorners(scaled: BorderRadii.BorderRadius): CornerUniforms
  {
    var c := ClampCorners(CorrectOverlap(CornersOf(scaled)));
    CornerUniforms(Shade(c.tl), Shade(c.tr), Shade(c.bl), Shade(c.br))
  }

  /**
   * The corner block of `draw`: the corrected, clamped radii, then each
   * corner's check flag and inverse squares.
   */
  method CornerUniformsFor(scaled: BorderRadii.BorderRadius) returns (u: CornerUniforms)
    ensures u == ShaderCorners(scaled)
    ensures Borders(u) == CorrectOverlap(CornersOf(scaled))
    ensures EdgesFit(Borders(u))
    ensures InUnitSquare(u.tl.border) && InUnitSquare(u.tr.border)
    ensures InUnitSquare(u.bl.border) && InUnitSquare(u.br.border)
  {
    var borderTL, borderTR, borderBL, borderBR := CorrectedBorders(scaled);
    var tl := ShadeCorner(borderTL);
    var tr := ShadeCorner(borderTR);
    var bl := ShadeCorner(borderBL);
    var br := ShadeCorner(borderBR);
    u := CornerUniforms(tl, tr, bl, br);
  }

  /**
   * The overlap correction and the sanity clamp, step by step on the four
   * local vectors of `draw`.
   */
  method CorrectedBorders(scaled: BorderRadii.BorderRadius) returns (borderTL: Vec2, borderTR: Vec2, borderBL: Vec2, borderBR: Vec2)
    ensures Corners(borderTL, borderTR, borderBL, borderBR) == ClampCorners(CorrectOverlap(CornersOf(scaled)))
    ensures Corners(borderTL, borderTR, borderBL, borderBR) == CorrectOverlap(CornersOf(scaled))
    ensures EdgesFit(Corners(borderTL, borderTR, borderBL, borderBR))
  {
    CorrectOverlapFits(CornersOf(scaled));
    ClampAfterCorrection(CornersOf(scaled));
    borderTL := Radii.ToVector2(scaled.topLeft);
    borderTR := Radii.ToVector2(scaled.topRight);
    borderBL := Radii.ToVector2(scaled.bottomLeft);
    borderBR := Radii.ToVector2(scaled.bottomRight);

    var total: real;
    var div: real;
    total := borderTL.y + borderBL.y;
    if total > 1.0 {
      div := 1.0 / total;
      borderTL := Scaled(borderTL, div);
      borderBL := Scaled(borderBL, div);
    }
    total := borderTR.y + borderBR.y;
    if total > 1.0 {
      div := 1.0 / total;
      borderTR := Scaled(borderTR, div);
      borderBR := Scaled(borderBR, div);
    }
    total := borderTL.x + borderTR.x;
    if total > 1.0 {
      div := 1.0 / total;
      borderTL := Scaled(borderTL, div);
      borderTR := Scaled(borderTR, div);
    }
    total := borderBL.x + borderBR.x;
    if total > 1.0 {
      div := 1.0 / total;
      borderBL := Scaled(borderBL, div);
      borderBR := Scaled(borderBR, div);
    }

    borderTL := ClampVec01(borderTL);
    borderTR := ClampVec01(borderTR);
    borderBL := ClampVec01(borderBL);
    borderBR := ClampVec01(borderBR);
  }

  /**
   * One `if (borderXX.x * borderXX.y > 0)` block: the flag starts false,
   * and only when the product is positive is it raised and `inv2XX` sent.
   */
  method ShadeCorner(border: Vec2) returns (s: CornerShade)
    ensures s == Shade(border)
    ensures s.check <==> border.x * border.y > 0.0
    ensures s.check ==>
      && s.inv2.Some?
      && s.inv2.value.x * (border.x * border.x) == 1.0
      && s.inv2.value.y * (border.y * border.y) == 1.0
    ensures !s.check ==> s.inv2 == None
  {
    var check := false;
    var inv2: Option<Vec2> := None;
    if border.x * border.y > 0.0 {
      check := true;
      inv2 := Some(InverseSquares(border));
    }
    s := CornerShade(border, check, inv2);
  }

  // ---------------------------------------------------------------------
  // Properties of the correction
  // ---------------------------------------------------------------------

  /** `Scaled` composes by multiplying the factors. */
  lemma ScaledTwice(w: Vec2, k1: real, k2: real)
    ensures Scaled(Scaled(w, k1), k2) == Scaled(w, k1 * k2)
  {
    assert w.x * k1 * k2 == w.x * (k1 * k2);
    assert w.y * k1 * k2 == w.y * (k1 * k2);
  }

  lemma ShrinkReflexive(v: Vec2)
    ensures ShrinkOf(v, v)
  {
    assert v == Scaled(v, 1.0);
  }

  lemma ShrinkTransitive(u: Vec2, v: Vec2, w: Vec2)
    requires ShrinkOf(u, v) && ShrinkOf(v, w)
    ensures ShrinkOf(u, w)
  {
    var k1 :| 0.0 < k1 <= 1.0 && v == Scaled(w, k1);
    var k2 :| 0.0 < k2 <= 1.0 && u == Scaled(v, k2);
    ScaledTwice(w, k1, k2);
    ProductInUnit(k1, k2);
    assert u == Scaled(w, k1 * k2);
  }

  lemma ProductInUnit(a: real, b: real)
    requires 0.0 < a <= 1.0 && 0.0 < b <= 1.0
    ensures 0.0 < a * b <= 1.0
  {
    assert a * b <= a * 1.0;
  }

  /** A shrink of a non-negative vector stays non-negative and grows on neither axis. */
  lemma ShrinkBounds(v: Vec2, w: Vec2)
    requires ShrinkOf(v, w) && NonNegativeVec(w)
    ensures 0.0 <= v.x <= w.x && 0.0 <= v.y <= w.y
  {
    var k :| 0.0 < k <= 1.0 && v == Scaled(w, k);
    ShrinkComponent(w.x, k);
    ShrinkComponent(w.y, k);
  }

  lemma ShrinkComponent(a: real, k: real)
    requires 0.0 <= a && 0.0 < k <= 1.0
    ensures 0.0 <= a * k <= a
  {
    assert a - a * k == a * (1.0 - k);
  }

  /** A shrink keeps the corner's x:y ratio. */
  lemma ShrinkKeepsRatio(v: Vec2, w: Vec2)
    requires ShrinkOf(v, w)
    ensures v.x * w.y == v.y * w.x
  {
    var k :| 0.0 < k <= 1.0 && v == Scaled(w, k);
    assert w.x * k * w.y == w.y * k * w.x;
  }

  /**
   * One edge step on non-negative corners: each corner is shrunk, and if
   * `total` is the sum of two non-negative measures `s` and `t` of the
   * corners, the same measures of the results add up to at most 1
   * whenever the step fired; when it did not fire nothing changes.
   */
  lemma FitPairShrinks(a: Vec2, b: Vec2, s: real, t: real)
    requires NonNegativeVec(a) && NonNegativeVec(b)
    requires 0.0 <= s && 0.0 <= t
    ensures var r := FitPair(a, b, s + t);
      && ShrinkOf(r.0, a) && ShrinkOf(r.1, b)
      && NonNegativeVec(r.0) && NonNegativeVec(r.1)
      && (s + t <= 1.0 ==> r == (a, b))
      && (s + t > 1.0 ==> s * (1.0 / (s + t)) + t * (1.0 / (s + t)) == 1.0)
  {
    var total := s + t;
    if total > 1.0 {
      var k := 1.0 / total;
      assert 0.0 < k <= 1.0;
      assert ShrinkOf(Scaled(a, k), a);
      assert ShrinkOf(Scaled(b, k), b);
      ShrinkBounds(Scaled(a, k), a);
      ShrinkBounds(Scaled(b, k), b);
      assert s * k + t * k == (s + t) * k;
    } else {
      ShrinkReflexive(a);
      ShrinkReflexive(b);
    }
  }

  /** Every corner of `r` is a shrink of the same corner of `c`. */
  ghost predicate ShrinksOf(r: Corners, c: Corners)
  {
    ShrinkOf(r.tl, c.tl) && ShrinkOf(r.tr, c.tr) && ShrinkOf(r.bl, c.bl) && ShrinkOf(r.br, c.br)
  }

  lemma ShrinksTransitive(a: Corners, b: Corners, c: Corners)
    requires ShrinksOf(a, b) && ShrinksOf(b, c)
    ensures ShrinksOf(a, c)
  {
    ShrinkTransitive(a.tl, b.tl, c.tl);
    ShrinkTransitive(a.tr, b.tr, c.tr);
    ShrinkTransitive(a.bl, b.bl, c.bl);
    ShrinkTransitive(a.br, b.br, c.br);
  }

  /** Shrinking never raises a corner, so edges that fit keep fitting. */
  lemma ShrinksKeepFit(r: Corners, c: Corners)
    requires ShrinksOf(r, c) && NonNegative(c)
    ensures NonNegative(r)
    ensures c.tl.y + c.bl.y <= 1.0 ==> r.tl.y + r.bl.y <= 1.0
    ensures c.tr.y + c.br.y <= 1.0 ==> r.tr.y + r.br.y <= 1.0
    ensures c.tl.x + c.tr.x <= 1.0 ==> r.tl.x + r.tr.x <= 1.0
    ensures c.bl.x + c.br.x <= 1.0 ==> r.bl.x + r.br.x <= 1.0
  {
    ShrinkBounds(r.tl, c.tl);
    ShrinkBounds(r.tr, c.tr);
    ShrinkBounds(r.bl, c.bl);
    ShrinkBounds(r.br, c.br);
  }

  lemma FitLeftFits(c: Corners)
    requires NonNegative(c)
    ensures var r := FitLeft(c); ShrinksOf(r, c) && r.tl.y + r.bl.y <= 1.0
  {
    FitPairShrinks(c.tl, c.bl, c.tl.y, c.bl.y);
    ShrinkReflexive(c.tr);
    ShrinkReflexive(c.br);
  }

  lemma FitRightFits(c: Corners)
    requires NonNegative(c)
    ensures var r := FitRight(c); ShrinksOf(r, c) && r.tr.y + r.br.y <= 1.0
  {
    FitPairShrinks(c.tr, c.br, c.tr.y, c.br.y);
    ShrinkReflexive(c.tl);
    ShrinkReflexive(c.bl);
  }

  lemma FitTopFits(c: Corners)
    requires NonNegative(c)
    ensures var r := FitTop(c); ShrinksOf(r, c) && r.tl.x + r.tr.x <= 1.0
  {
    FitPairShrinks(c.tl, c.tr, c.tl.x, c.tr.x);
    ShrinkReflexive(c.bl);
    ShrinkReflexive(c.br);
  }

  lemma FitBottomFits(c: Corners)
    requires NonNegative(c)
    ensures var r := FitBottom(c); ShrinksOf(r, c) && r.bl.x + r.br.x <= 1.0
  {
    FitPairShrinks(c.bl, c.br, c.bl.x, c.br.x);
    ShrinkReflexive(c.tl);
    ShrinkReflexive(c.tr);
  }

  /**
   * The overlap correction resolves every overlap: on non-negative
   * corners, after the four steps no two corners sharing an edge overlap,
   * and every corner is its original multiplied by a single factor in
   * (0, 1] (a later step only ever shrinks corners further, so it cannot
   * undo an earlier one).
   */
  lemma {:induction false} CorrectOverlapFits(c: Corners)
    requires NonNegative(c)
    ensures NonNegative(CorrectOverlap(c))
    ensures EdgesFit(CorrectOverlap(c))
    ensures ShrinksOf(CorrectOverlap(c), c)
  {
    var c1 := FitLeft(c);
    FitLeftFits(c);
    ShrinksKeepFit(c1, c);
    var c2 := FitRight(c1);
    FitRightFits(c1);
    ShrinksKeepFit(c2, c1);
    var c3 := FitTop(c2);
    FitTopFits(c2);
    ShrinksKeepFit(c3, c2);
    var c4 := FitBottom(c3);
    FitBottomFits(c3);
    ShrinksKeepFit(c4, c3);
    ShrinksTransitive(c2, c1, c);
    ShrinksTransitive(c3, c2, c);
    ShrinksTransitive(c4, c3, c);
  }

  /** The correction changes exactly the corner sets that overlap, so applying it twice is applying it once. */
  lemma CorrectOverlapFixedPoints(c: Corners)
    requires NonNegative(c)
    ensures CorrectOverlap(c) == c <==> EdgesFit(c)
    ensures CorrectOverlap(CorrectOverlap(c)) == CorrectOverlap(c)
  {
    CorrectOverlapFits(c);
  }

  /** A corner shrunk by one factor in (0, 1] grows on neither axis and keeps its x:y ratio. */
  lemma ShrinkFacts(v: Vec2, w: Vec2)
    requires ShrinkOf(v, w) && NonNegativeVec(w)
    ensures v.x <= w.x && v.y <= w.y && v.x * w.y == v.y * w.x
  {
    ShrinkBounds(v, w);
    ShrinkKeepsRatio(v, w);
  }

  /** No component of any corner ever grows (each keeps its x:y ratio too: see `ShrinkKeepsRatio` with `CorrectOverlapFits`). */
  lemma CorrectOverlapShrinks(c: Corners, r: Corners)
    requires NonNegative(c) && r == CorrectOverlap(c)
    ensures r.tl.x <= c.tl.x && r.tl.y <= c.tl.y
    ensures r.tr.x <= c.tr.x && r.tr.y <= c.tr.y
    ensures r.bl.x <= c.bl.x && r.bl.y <= c.bl.y
    ensures r.br.x <= c.br.x && r.br.y <= c.br.y
  {
    CorrectOverlapFits(c);
    ShrinkFacts(r.tl, c.tl);
    ShrinkFacts(r.tr, c.tr);
    ShrinkFacts(r.bl, c.bl);
    ShrinkFacts(r.br, c.br);
  }

  /**
   * The sanity clamp after the correction is a safeguard that never
   * fires: corrected non-negative corners already lie in [0, 1], since
   * each component is at most the sum along its edge.
   */
  lemma ClampAfterCorrection(c: Corners)
    requires NonNegative(c)
    ensures ClampCorners(CorrectOverlap(c)) == CorrectOverlap(c)
  {
    CorrectOverlapFits(c);
  }

  /** Top-left (1, 1), top-right (1, 0), bottom-left (0, 1), bottom-right (0, 0). */
  function OverlappingCorners(): Corners
  {
    Corners(Vec2(1.0, 1.0), Vec2(1.0, 0.0), Vec2(0.0, 1.0), Vec2(0.0, 0.0))
  }

  /** In source order the left step halves top-left and bottom-left, and bottom-left is final. */
  lemma SourceOrderOnOverlapping()
    ensures CorrectOverlap(OverlappingCorners()).bl == Vec2(0.0, 0.5)
  {
    var l := FitLeft(OverlappingCorners());
    assert l.tl == Vec2(0.5, 0.5) && l.bl == Vec2(0.0, 0.5);
    assert FitRight(l).bl == Vec2(0.0, 0.5);
  }

  /** The top step halves top-left and top-right; the bottom step then finds nothing to fix. */
  lemma TopAndBottomOnOverlapping()
    ensures FitBottom(FitTop(OverlappingCorners()))
      == Corners(Vec2(0.5, 0.5), Vec2(0.5, 0.0), Vec2(0.0, 1.0), Vec2(0.0, 0.0))
  {
    var t := FitTop(OverlappingCorners());
    assert t.tl == Scaled(Vec2(1.0, 1.0), 1.0 / 2.0) && t.tr == Scaled(Vec2(1.0, 0.0), 1.0 / 2.0);
  }

  /** Top first: top-left is halved, so the left step then scales bottom-left by 2/3 only. */
  lemma TopFirstOnOverlapping()
    ensures FitRight(FitLeft(FitBottom(FitTop(OverlappingCorners())))).bl == Vec2(0.0, 2.0 / 3.0)
  {
    TopAndBottomOnOverlapping();
    var tb := Corners(Vec2(0.5, 0.5), Vec2(0.5, 0.0), Vec2(0.0, 1.0), Vec2(0.0, 0.0));
    var tbl := FitLeft(tb);
    assert tbl.bl == Scaled(Vec2(0.0, 1.0), 1.0 / 1.5);
    assert FitRight(tbl).bl == tbl.bl;
  }

  /**
   * The order of the four steps is part of the algorithm: with the top
   * edge corrected before the left edge, the same corners come out
   * different.
   */
  lemma EdgeOrderMatters()
    ensures CorrectOverlap(OverlappingCorners()) != FitRight(FitLeft(FitBottom(FitTop(OverlappingCorners()))))
  {
    SourceOrderOnOverlapping();
    TopFirstOnOverlapping();
  }

  /**
   * The check flag of a corner with non-negative radius is on exactly when
   * the corner is rounded on both axes, and then the inverse squares are
   * the reciprocals of the squared radii.
   */
  lemma ShadeMeaning(v: Vec2)
    requires NonNegativeVec(v)
    ensures Shade(v).border == v
    ensures Shade(v).check <==> 0.0 < v.x && 0.0 < v.y
    ensures Shade(v).check ==> Shade(v).inv2 == Some(InverseSquares(v))
    ensures !Shade(v).check ==> Shade(v).inv2 == None
  {
    if 0.0 < v.x && 0.0 < v.y {
      assert v.x * v.y > 0.0;
    } else {
      assert v.x * v.y == 0.0;
    }
  }

  /**
   * The uniforms of a scale border radius: every corner radius lies in
   * [0, 1], no two corners on an edge overlap, each corner is the input
   * corner shrunk by one factor, and a corner's test is on exactly when it
   * is rounded on both axes.
   */
  lemma ShaderCornersMeaning(scaled: BorderRadii.BorderRadius)
    ensures var u := ShaderCorners(scaled);
      && Borders(u) == CorrectOverlap(CornersOf(scaled))
      && EdgesFit(Borders(u))
      && ShrinksOf(Borders(u), CornersOf(scaled))
      && InUnitSquare(u.tl.border) && InUnitSquare(u.tr.border)
      && InUnitSquare(u.bl.border) && InUnitSquare(u.br.border)
      && (u.tl.check <==> 0.0 < u.tl.border.x && 0.0 < u.tl.border.y)
      && (u.tr.check <==> 0.0 < u.tr.border.x && 0.0 < u.tr.border.y)
      && (u.bl.check <==> 0.0 < u.bl.border.x && 0.0 < u.bl.border.y)
      && (u.br.check <==> 0.0 < u.br.border.x && 0.0 < u.br.border.y)
  {
    var c := CornersOf(scaled);
    CorrectOverlapFits(c);
    ClampAfterCorrection(c);
    var r := CorrectOverlap(c);
    ShadeMeaning(r.tl);
    ShadeMeaning(r.tr);
    ShadeMeaning(r.bl);
    ShadeMeaning(r.br);
  }

  // ---------------------------------------------------------------------
  // Placement
  // ---------------------------------------------------------------------

  /** `_pos - _size * (_anchorPoint * 2 - 1)`: the centre the unit quad is translated to. */
  function CorrectedPosition(pos: Vec2, size: Vec2, anchor: Vec2): Vec2
  {
    Sub(pos, Mul(size, Vec2(anchor.x * 2.0 - 1.0, anchor.y * 2.0 - 1.0)))
  }

  /**
   * The anchor point is the point of the quad that lands on `pos`: the
   * quad spans `corrected ± size` (its vertices are at ±1 before scaling),
   * and its point at relative position `anchor` is exactly `pos`. Anchor
   * (0.5, 0.5) centres the quad on `pos`, (0, 0) puts its corner
   * `(-1, -1)` there, and (1, 1) the opposite corner.
   */
  lemma AnchorLandsOnPosition(pos: Vec2, size: Vec2, anchor: Vec2)
    ensures var corrected := CorrectedPosition(pos, size, anchor);
      Add(corrected, Mul(size, Vec2(anchor.x * 2.0 - 1.0, anchor.y * 2.0 - 1.0))) == pos
    ensures CorrectedPosition(pos, size, Vec2(0.5, 0.5)) == pos
    ensures CorrectedPosition(pos, size, Vec2(0.0, 0.0)) == Add(pos, size)
    ensures CorrectedPosition(pos, size, Vec2(1.0, 1.0)) == Sub(pos, size)
    ensures Sub(CorrectedPosition(pos, size, Vec2(0.0, 0.0)), CorrectedPosition(pos, size, Vec2(0.5, 0.5))) == size
  {
  }

  /** `myModel`: the parent's matrix, then translate, rotate about z, scale. */
  function LocalModel(model: Matrix, corrected: Vec2, rotation: real, size: Vec2): (m: Matrix)
    ensures |m| == |model| + 3 && m[..|model|] == model
    ensures m[|model|] == Translate(corrected) && m[|model| + 1] == RotateZ(rotation) && m[|model| + 2] == Scale(size)
  {
    model + [Translate(corrected), RotateZ(rotation), Scale(size)]
  }

  /**
   * What one `draw` takes from one quad: its model matrix, colour,
   * position and size, and its border radius converted to the quad's own
   * scale, from which the corner uniforms are computed.
   */
  datatype QuadFrame = QuadFrame(model: Matrix, color: Vec4, pos: Vec2, size: Vec2, scaled: BorderRadii.BorderRadius)

  /** Everything one `draw` of one quad sends to the shader before drawing its children. */
  datatype DrawCall = DrawCall(model: Matrix, color: Vec4, pos: Vec2, size: Vec2, corners: CornerUniforms)

  /** The uniforms one frame yields: its own values, and the corner block applied to its radius. */
  function Render(f: QuadFrame): DrawCall
  {
    DrawCall(f.model, f.color, f.pos, f.size, ShaderCorners(f.scaled))
  }

  function RenderAll(fs: seq<QuadFrame>): seq<DrawCall>
  {
    seq(|fs|, k requires 0 <= k < |fs| => Render(fs[k]))
  }

  lemma RenderAllAppend(a: seq<QuadFrame>, b: seq<QuadFrame>)
    ensures RenderAll(a + b) == RenderAll(a) + RenderAll(b)
  {
    assert forall k :: 0 <= k < |a + b| ==> RenderAll(a + b)[k] == (RenderAll(a) + RenderAll(b))[k];
  }

  /**
   * Every quad a draw reaches gets corner radii in [0, 1] that do not
   * overlap along any edge.
   */
  lemma RenderedCornersFit(fs: seq<QuadFrame>, k: nat)
    requires k < |fs|
    ensures var u := RenderAll(fs)[k].corners;
      && EdgesFit(Borders(u))
      && InUnitSquare(u.tl.border) && InUnitSquare(u.tr.border)
      && InUnitSquare(u.bl.border) && InUnitSquare(u.br.border)
  {
    ShaderCornersMeaning(fs[k].scaled);
  }

  // ---------------------------------------------------------------------
  // The quad tree
  // ---------------------------------------------------------------------

  class Quad {
    var pos: Vec2
    var size: Vec2
    var color: Vec4
    var anchorPoint: Vec2
    var rotation: real
    var borderRadius: BorderRadii.BorderRadius
    /** `children`: shared pointers, so one quad may appear under several parents. */
    var children: seq<Quad>

    /** The quads reachable from this one, itself included. */
    ghost var Repr: set<object>

    /** The tree is finite and has no cycle: every child's footprint lies strictly inside its parent's. */
    ghost predicate Valid()
      reads this, Repr
      decreases Repr
    {
      && this in Repr
      && forall c :: c in children ==>
           && c in Repr
           && c.Repr <= Repr
           && this !in c.Repr
           && c.Valid()
    }

    /**
     * Every quad of the tree can convert its border radius to scale: a
     * pixel radius needs a quad whose on-screen size has no zero side.
     */
    ghost predicate Drawable(windowSize: Vec2)
      requires Valid()
      reads this, Repr
      decreases Repr
    {
      && BorderRadii.ScalableBy(borderRadius, Mul(windowSize, size))
      && forall c :: c in children ==> c.Drawable(windowSize)
    }

    /** What `draw` takes from this quad alone when drawn under `model`. */
    ghost function OwnFrame(windowSize: Vec2, model: Matrix): QuadFrame
      requires BorderRadii.ScalableBy(borderRadius, Mul(windowSize, size))
      reads this
    {
      var corrected := CorrectedPosition(pos, size, anchorPoint);
      QuadFrame(LocalModel(model, corrected, rotation, size), color, pos, size,
                BorderRadii.ToScale(borderRadius, Mul(windowSize, size)))
    }

    /**
     * The quads `draw(shader, windowSize, model)` draws, in order: this
     * quad, then each child's whole subtree under this quad's matrix. Every
     * frame's matrix extends `model`.
     */
    ghost function FramesOf(windowSize: Vec2, model: Matrix): (fs: seq<QuadFrame>)
      requires Valid() && Drawable(windowSize)
      reads this, Repr
      decreases Repr, |children| + 1
      ensures |fs| >= 1 && fs[0] == OwnFrame(windowSize, model)
      ensures forall k :: 0 <= k < |fs| ==> model <= fs[k].model
    {
      var own := OwnFrame(windowSize, model);
      [own] + ChildFrames(|children|, windowSize, own.model)
    }

    /** The frames of the first `n` children, in insertion order, each drawn under `model`. */
    ghost function ChildFrames(n: nat, windowSize: Vec2, model: Matrix): (fs: seq<QuadFrame>)
      requires Valid() && Drawable(windowSize)
      requires n <= |children|
      reads this, Repr
      decreases Repr, n
      ensures forall k :: 0 <= k < |fs| ==> model <= fs[k].model
    {
      if n == 0 then []
      else
        var child := children[n - 1];
        ChildFrames(n - 1, windowSize, model) + child.FramesOf(windowSize, model)
    }

    /** `Quad()`: no children; the other fields keep their in-class defaults, which this model leaves open. */
    constructor Default()
      ensures children == [] && Repr == {this}
      ensures Valid()
    {
      children := [];
      Repr := {this};
    }

    /** `Quad(pos, size, color)`: no children yet. */
    constructor (pos: Vec2, size: Vec2, color: Vec4)
      ensures this.pos == pos && this.size == size && this.color == color
      ensures children == [] && Repr == {this}
      ensures Valid()
    {
      this.pos := pos;
      this.size := size;
      this.color := color;
      children := [];
      Repr := {this};
    }

    method SetPosition(pos: Vec2)
      modifies this`pos
      ensures this.pos == pos
      ensures old(Valid()) ==> Valid()
    {
      this.pos := pos;
    }

    /** `setAnchorPoint`: each component clamped to [0, 1]. */
    method SetAnchorPoint(anchorPoint: Vec2)
      modifies this`anchorPoint
      ensures this.anchorPoint == ClampVec01(anchorPoint)
      ensures InUnitSquare(this.anchorPoint)
      ensures InUnitSquare(anchorPoint) ==> this.anchorPoint == anchorPoint
      ensures old(Valid()) ==> Valid()
    {
      this.anchorPoint := ClampVec01(anchorPoint);
    }

    method SetSize(size: Vec2)
      modifies this`size
      ensures this.size == size
      ensures old(Valid()) ==> Valid()
    {
      this.size := size;
    }

    method SetRotation(rotation: real)
      modifies this`rotation
      ensures this.rotation == rotation
      ensures old(Valid()) ==> Valid()
    {
      this.rotation := rotation;
    }

    method SetColor(color: Vec4)
      modifies this`color
      ensures this.color == color
      ensures old(Valid()) ==> Valid()
    {
      this.color := color;
    }

    method SetBorderRadius(borderRadius: BorderRadii.BorderRadius)
      modifies this`borderRadius
      ensures this.borderRadius == borderRadius
      ensures old(Valid()) ==> Valid()
    {
      this.borderRadius := borderRadius;
    }

    /**
     * `addChild`: appended after the existing children. The child must not
     * already contain this quad, or drawing would never end.
     */
    method AddChild(child: Quad)
      requires Valid() && child.Valid()
      requires this !in child.Repr
      modifies this`children, this`Repr
      ensures children == old(children) + [child]
      ensures Repr == old(Repr) + child.Repr
      ensures Valid()
    {
      children := children + [child];
      Repr := Repr + child.Repr;
    }

    /**
     * The first part of `draw`: the anchor-corrected translation, the model
     * matrix, the border radius in the quad's own scale and the corner
     * uniforms.
     */
    method OwnDrawCall(windowSize: Vec2, model: Matrix) returns (d: DrawCall)
      requires BorderRadii.ScalableBy(borderRadius, Mul(windowSize, size))
      ensures d == Render(OwnFrame(windowSize, model))
      ensures d.model == LocalModel(model, CorrectedPosition(pos, size, anchorPoint), rotation, size)
      ensures EdgesFit(Borders(d.corners))
    {
      var correctedPos := CorrectedPosition(pos, size, anchorPoint);
      var myModel := model + [Translate(correctedPos), RotateZ(rotation), Scale(size)];
      var quadPixelsSize := Mul(windowSize, size);
      var scaled := BorderRadii.ToScale(borderRadius, quadPixelsSize);
      var corners := CornerUniformsFor(scaled);
      d := DrawCall(myModel, color, pos, size, corners);
    }

    /** Each child is a valid, drawable, strictly smaller tree, and the child frames grow one child at a time. */
    lemma ChildSteps(windowSize: Vec2, model: Matrix)
      requires Valid() && Drawable(windowSize)
      ensures forall i :: 0 <= i < |children| ==>
        && children[i].Valid() && children[i].Drawable(windowSize)
        && children[i].Repr < Repr
        && ChildFrames(i + 1, windowSize, model)
           == ChildFrames(i, windowSize, model) + children[i].FramesOf(windowSize, model)
    {
      forall i | 0 <= i < |children|
        ensures children[i].Valid() && children[i].Drawable(windowSize)
        ensures children[i].Repr < Repr
        ensures ChildFrames(i + 1, windowSize, model)
          == ChildFrames(i, windowSize, model) + children[i].FramesOf(windowSize, model)
      {
        assert children[i] in children;
      }
    }

    /**
     * `draw`: this quad's matrix, colour, position, size and corner
     * uniforms, then every child drawn under this quad's matrix. The
     * parent matrix defaults to the identity, the empty transform list.
     */
    method Draw(windowSize: Vec2, model: Matrix := []) returns (calls: seq<DrawCall>)
      requires Valid() && Drawable(windowSize)
      decreases Repr, 1
      ensures calls == RenderAll(old(FramesOf(windowSize, model)))
    {
      var own := OwnDrawCall(windowSize, model);
      ghost var ownFrame := OwnFrame(windowSize, model);
      var rest := DrawChildren(windowSize, own.model);
      RenderAllAppend([ownFrame], old(ChildFrames(|children|, windowSize, own.model)));
      calls := [own] + rest;
    }

    /** The loop at the end of `draw`: each child in insertion order, under this quad's matrix. */
    method DrawChildren(windowSize: Vec2, myModel: Matrix) returns (calls: seq<DrawCall>)
      requires Valid() && Drawable(windowSize)
      decreases Repr, 0
      ensures calls == RenderAll(old(ChildFrames(|children|, windowSize, myModel)))
    {
      calls := [];
      ghost var frames: seq<QuadFrame> := [];
      ChildSteps(windowSize, myModel);
      for i := 0 to |children|
        invariant frames == old(ChildFrames(i, windowSize, myModel))
        invariant calls == RenderAll(frames)
      {
        ghost var childFrames := old(children[i].FramesOf(windowSize, myModel));
        var sub := children[i].Draw(windowSize, myModel);
        RenderAllAppend(frames, childFrames);
        frames := frames + childFrames;
        calls := calls + sub;
      }
    }
  }
}
