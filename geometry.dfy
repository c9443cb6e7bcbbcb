/**
 * Points, sizes and rectangles as the scenes use them (CGPoint, CGSize,
 * CGRect), over exact reals.  A rectangle is an origin plus a signed extent;
 * as with CGRect, its edges and its width and height are read off the
 * standardised rectangle, so a negative extent is allowed.
 */
module Geometry {

  /** Floor applied to a world extent or a camera scale before dividing by it. */
  const DivisorFloor: real := 0.0001

  function Min(a: real, b: real): real { if a <= b then a else b }

  function Max(a: real, b: real): real { if a >= b then a else b }

  function Abs(a: real): real { if a >= 0.0 then a else -a }

  datatype Point = Point(x: real, y: real)

  datatype Size = Size(width: real, height: real) {
    predicate NonNegative() { width >= 0.0 && height >= 0.0 }
  }

  datatype Rect = Rect(x: real, y: real, width: real, height: real) {
    function MinX(): real { Min(x, x + width) }
    function MaxX(): real { Max(x, x + width) }
    function MinY(): real { Min(y, y + height) }
    function MaxY(): real { Max(y, y + height) }
    function MidX(): real { x + width / 2.0 }
    function MidY(): real { y + height / 2.0 }
    function Width(): real { Abs(width) }
    function Height(): real { Abs(height) }

    /** The closed rectangle holds `p` (edges included). */
    predicate Covers(p: Point) {
      MinX() <= p.x <= MaxX() && MinY() <= p.y <= MaxY()
    }

    /** The closed rectangle holds all of `r`. */
    predicate Encloses(r: Rect) {
      MinX() <= r.MinX() && r.MaxX() <= MaxX() && MinY() <= r.MinY() && r.MaxY() <= MaxY()
    }
  }

  /** Products of non-negative factors are non-negative. */
  lemma MulNonNegative(a: real, b: real)
    requires a >= 0.0 && b >= 0.0
    ensures a * b >= 0.0
  {
  }

  /** Scaling by a non-negative factor keeps order. */
  lemma MulMonotone(a: real, b: real, s: real)
    requires a <= b && s >= 0.0
    ensures a * s <= b * s
  {
  }
}
