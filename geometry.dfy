/**
 Plane geometry used by the input normaliser: surface-local coordinates, the midpoint of two
 contacts (`_calculateTargetPoint`) and their Euclidean distance (`_calculateDistance`).

 The distance takes a square root (`Math.sqrt`), which has no Dafny counterpart. The model treats
 it as an external collaborator: a function `sqrt` passed in by the caller, of which only one thing
 is known, that at the value it is applied to it returns the non-negative square root.
 */
module Geometry {

  datatype Point = Point(x: real, y: real)

  /** Viewport coordinates to surface-local ones: subtract the surface's top-left offset. */
  function Relative(client: Point, offset: Point): (p: Point)
    ensures p.x + offset.x == client.x && p.y + offset.y == client.y
  {
    Point(client.x - offset.x, client.y - offset.y)
  }

  /** `_calculateTargetPoint`: the point halfway between two contacts. */
  function Midpoint(first: Point, second: Point): Point
  {
    Point((second.x + first.x) / 2.0, (second.y + first.y) / 2.0)
  }

  /** `Math.pow(r, 2)`. */
  function Square(r: real): real
  {
    r * r
  }

  /** The square of the Euclidean distance, the argument `_calculateDistance` hands to `Math.sqrt`. */
  function SquaredDistance(a: Point, b: Point): real
  {
    Square(b.x - a.x) + Square(b.y - a.y)
  }

  /** `r` is the non-negative square root of `v`. */
  predicate IsRootOf(r: real, v: real)
  {
    r >= 0.0 && Square(r) == v
  }

  /** What the model knows of `Math.sqrt`: at `v`, it returns the non-negative square root. */
  predicate SqrtAt(sqrt: real -> real, v: real)
  {
    IsRootOf(sqrt(v), v)
  }

  /** `_calculateDistance`: the Euclidean distance between two contacts. */
  function Distance(a: Point, b: Point, sqrt: real -> real): (d: real)
    requires SqrtAt(sqrt, SquaredDistance(a, b))
    ensures IsRootOf(d, SquaredDistance(a, b))
  {
    sqrt(SquaredDistance(a, b))
  }

  /** The distance is non-negative and zero exactly when the two contacts coincide. */
  lemma DistanceZero(a: Point, b: Point, sqrt: real -> real)
    requires SqrtAt(sqrt, SquaredDistance(a, b))
    ensures Distance(a, b, sqrt) >= 0.0
    ensures Distance(a, b, sqrt) == 0.0 <==> a == b
  {
    RootZero(Distance(a, b, sqrt), SquaredDistance(a, b));
    SquaredDistanceZero(a, b);
  }

  /** The squared distance is non-negative and vanishes exactly when the points coincide. */
  lemma SquaredDistanceZero(a: Point, b: Point)
    ensures SquaredDistance(a, b) >= 0.0
    ensures SquaredDistance(a, b) == 0.0 <==> a == b
  {
    SquareSign(b.x - a.x);
    SquareSign(b.y - a.y);
    SameCoordinates(a, b);
  }

  lemma SameCoordinates(a: Point, b: Point)
    ensures a == b <==> b.x - a.x == 0.0 && b.y - a.y == 0.0
  {
  }

  /** A square is non-negative, and zero only for zero. */
  lemma SquareSign(r: real)
    ensures Square(r) >= 0.0
    ensures Square(r) == 0.0 <==> r == 0.0
  {
    if r > 0.0 {
      ProductPositive(r, r, Square(r));
    } else if r < 0.0 {
      ProductPositive(-r, -r, Square(r));
    } else {
      ZeroProduct(r, Square(r));
    }
  }

  lemma ProductPositive(p: real, q: real, s: real)
    requires p > 0.0 && q > 0.0 && s == p * q
    ensures s > 0.0
  {
  }

  lemma ZeroProduct(r: real, s: real)
    requires r == 0.0 && s == r * r
    ensures s == 0.0
  {
  }

  /** A non-negative square root is zero exactly when its square is. */
  lemma RootZero(r: real, v: real)
    requires IsRootOf(r, v)
    ensures r == 0.0 <==> v == 0.0
  {
    SquareSign(r);
  }

  /** Two non-negative square roots of the same value are equal. */
  lemma RootUnique(r1: real, r2: real, v: real)
    requires IsRootOf(r1, v) && IsRootOf(r2, v)
    ensures r1 == r2
  {
    if r1 < r2 {
      SquareLess(r1, r2);
    } else if r2 < r1 {
      SquareLess(r2, r1);
    }
  }

  /** Squaring is strictly increasing on the non-negative reals. */
  lemma SquareLess(a: real, b: real)
    requires 0.0 <= a < b
    ensures Square(a) < Square(b)
  {
    ProductPositive(b - a, b + a, Square(b) - Square(a));
  }

  /** The midpoint does not depend on the order of the two contacts. */
  lemma MidpointSymmetric(a: Point, b: Point)
    ensures Midpoint(a, b) == Midpoint(b, a)
  {
  }

  /** The midpoint lies halfway: the step from the first contact to it equals the step from it to the second. */
  lemma MidpointHalfway(a: Point, b: Point)
    ensures Midpoint(a, b).x - a.x == b.x - Midpoint(a, b).x
    ensures Midpoint(a, b).y - a.y == b.y - Midpoint(a, b).y
  {
  }

  /** The squared distance, and so the distance, is symmetric in its two contacts. */
  lemma DistanceSymmetric(a: Point, b: Point, sqrt: real -> real)
    requires SqrtAt(sqrt, SquaredDistance(a, b))
    ensures SqrtAt(sqrt, SquaredDistance(b, a))
    ensures Distance(a, b, sqrt) == Distance(b, a, sqrt)
  {
    NegatedSquare(b.x - a.x);
    NegatedSquare(b.y - a.y);
  }

  lemma NegatedSquare(r: real)
    ensures Square(r) == Square(-r)
  {
  }

  /** The distance does not depend on which square-root function is supplied. */
  lemma DistanceAnyRoot(a: Point, b: Point, f: real -> real, g: real -> real)
    requires SqrtAt(f, SquaredDistance(a, b)) && SqrtAt(g, SquaredDistance(a, b))
    ensures Distance(a, b, f) == Distance(a, b, g)
  {
    RootUnique(Distance(a, b, f), Distance(a, b, g), SquaredDistance(a, b));
  }
}
