/**
 * Hybrid lengths (src/dim.cpp, include/dim.hpp): a `Dim` pairs an integer
 * pixel offset with a viewport-relative scale factor, and a `Dim2` is one
 * `Dim` per axis. Only the operations the source defines are modelled.
 *
 * `Dim` and `Dim2` are plain values (copied, never shared), so the
 * compound assignments `+=` and `-=`, which update the receiver in place,
 * are methods that take the receiver and return its new value.
 */
module Dimensions {

  /** `Dim(int pixels = 0, float scale = 0.0f)`. */
  datatype Dim = Dim(pixels: int := 0, scale: real := 0.0) {

    /** `Dim::fromPixels`: the given pixels and no scale. */
    static function FromPixels(pixels: int): (d: Dim)
      ensures d.pixels == pixels && d.scale == 0.0
    {
      Dim(pixels, 0.0)
    }

    /** `Dim::fromScale`: the given scale and no pixels. */
    static function FromScale(scale: real): (d: Dim)
      ensures d.pixels == 0 && d.scale == scale
    {
      Dim(0, scale)
    }

    /** `operator+`: adds each channel, leaving both operands alone. */
    function Plus(d: Dim): Dim
    {
      Dim(pixels + d.pixels, scale + d.scale)
    }

    /** Unary `operator-`. */
    function Negate(): Dim
    {
      Dim(-pixels, -scale)
    }

    /** Binary `operator-`: a copy of the receiver with `-= d` applied. */
    function Minus(d: Dim): Dim
    {
      Plus(d.Negate())
    }

    /** `operator+=`: the receiver's pixels, then its scale, grow by `d`'s. */
    method AddAssign(d: Dim) returns (self: Dim)
      ensures self == Plus(d)
      ensures self.pixels == pixels + d.pixels && self.scale == scale + d.scale
    {
      self := this;
      self := self.(pixels := self.pixels + d.pixels);
      self := self.(scale := self.scale + d.scale);
    }

    /** `operator-=`: implemented as `+=` of the negation. */
    method SubAssign(d: Dim) returns (self: Dim)
      ensures self == Minus(d)
      ensures self.pixels == pixels - d.pixels && self.scale == scale - d.scale
    {
      self := AddAssign(d.Negate());
    }
  }

  /** `Dim2(const Dim &x, const Dim &y)`: one independent `Dim` per axis. */
  datatype Dim2 = Dim2(x: Dim, y: Dim) {

    /** `Dim2(int pixelsX = 0, float scaleX = 0, int pixelsY = 0, float scaleY = 0)`. */
    static function Of(pixelsX: int := 0, scaleX: real := 0.0, pixelsY: int := 0, scaleY: real := 0.0): (d: Dim2)
      ensures d.x == Dim(pixelsX, scaleX) && d.y == Dim(pixelsY, scaleY)
    {
      Dim2(Dim(pixelsX, scaleX), Dim(pixelsY, scaleY))
    }

    /** `Dim2::fromPixels`: pixels on both axes, no scale on either. */
    static function FromPixels(px: int, py: int): (d: Dim2)
      ensures d.x.pixels == px && d.y.pixels == py
      ensures d.x.scale == 0.0 && d.y.scale == 0.0
    {
      Dim2(Dim.FromPixels(px), Dim.FromPixels(py))
    }

    /** `Dim2::fromScale`: scale on both axes, no pixels on either. */
    static function FromScale(sx: real, sy: real): (d: Dim2)
      ensures d.x.scale == sx && d.y.scale == sy
      ensures d.x.pixels == 0 && d.y.pixels == 0
    {
      Dim2(Dim.FromScale(sx), Dim.FromScale(sy))
    }

    function Plus(d: Dim2): Dim2
    {
      Dim2(x.Plus(d.x), y.Plus(d.y))
    }

    function Negate(): Dim2
    {
      Dim2(x.Negate(), y.Negate())
    }

    function Minus(d: Dim2): Dim2
    {
      Plus(d.Negate())
    }

    /** `Dim2::operator+=`: `_x += d.x()` then `_y += d.y()`. */
    method AddAssign(d: Dim2) returns (self: Dim2)
      ensures self == Plus(d)
      ensures self.x == x.Plus(d.x) && self.y == y.Plus(d.y)
    {
      self := this;
      var nx := self.x.AddAssign(d.x);
      self := self.(x := nx);
      var ny := self.y.AddAssign(d.y);
      self := self.(y := ny);
    }

    /** `Dim2::operator-=`: `+=` of the negation. */
    method SubAssign(d: Dim2) returns (self: Dim2)
      ensures self == Minus(d)
      ensures self.x == x.Minus(d.x) && self.y == y.Minus(d.y)
    {
      self := AddAssign(d.Negate());
    }
  }

  /** Default-constructed values are zero on every channel. */
  lemma DefaultsAreZero()
    ensures Dim().pixels == 0 && Dim().scale == 0.0
    ensures Dim2.Of() == Dim2(Dim(), Dim())
    ensures Dim2.Of().x.pixels == 0 && Dim2.Of().y.pixels == 0
    ensures Dim2.Of().x.scale == 0.0 && Dim2.Of().y.scale == 0.0
  {
  }

  /** `+` adds the pixel channels and the scale channels independently. */
  lemma PlusComponentwise(a: Dim, b: Dim)
    ensures a.Plus(b).pixels == a.pixels + b.pixels
    ensures a.Plus(b).scale == a.scale + b.scale
  {
  }

  /** `+` with the zero value: commutative, associative, with the default `Dim` as identity. */
  lemma PlusMonoid(a: Dim, b: Dim, c: Dim)
    ensures a.Plus(b) == b.Plus(a)
    ensures a.Plus(b).Plus(c) == a.Plus(b.Plus(c))
    ensures a.Plus(Dim()) == a
  {
  }

  /** Negation negates both channels, is an involution, and is the additive inverse. */
  lemma NegateInverse(a: Dim)
    ensures a.Negate().pixels == -a.pixels && a.Negate().scale == -a.scale
    ensures a.Negate().Negate() == a
    ensures a.Plus(a.Negate()) == Dim()
  {
  }

  /** `a - b` subtracts channel by channel and undoes `+ b`. */
  lemma MinusComponentwise(a: Dim, b: Dim)
    ensures a.Minus(b) == Dim(a.pixels - b.pixels, a.scale - b.scale)
    ensures a.Minus(b).Plus(b) == a
    ensures a.Plus(b).Minus(b) == a
  {
  }

  /** The splitting factories recombine: `fromPixels(p) + fromScale(s) == Dim(p, s)`. */
  lemma FactoriesRecombine(p: int, s: real)
    ensures Dim.FromPixels(p).Plus(Dim.FromScale(s)) == Dim(p, s)
    ensures Dim2.FromPixels(p, p).Plus(Dim2.FromScale(s, s)) == Dim2.Of(p, s, p, s)
  {
  }

  /** Every `Dim2` operator acts on the two axes independently. */
  lemma Dim2Pointwise(a: Dim2, b: Dim2)
    ensures a.Plus(b) == Dim2(a.x.Plus(b.x), a.y.Plus(b.y))
    ensures a.Negate() == Dim2(a.x.Negate(), a.y.Negate())
    ensures a.Minus(b) == Dim2(a.x.Minus(b.x), a.y.Minus(b.y))
    ensures a.Negate().Negate() == a
    ensures a.Minus(b).Plus(b) == a
  {
  }
}
