/** The inside test of the dartboard: a circle of a given radius centred at the
    origin, with the rim counted as inside, and the number of darts it admits. */
module Geometry {

  /** A position on the board, in the turtle's world coordinates. */
  datatype Point = Point(x: real, y: real)

  const Origin := Point(0.0, 0.0)

  /** The square of the Euclidean distance from the origin. The inside test is
      stated on squares so that no square root is needed. */
  function SquaredNorm(p: Point): real {
    p.x * p.x + p.y * p.y
  }

  /** A dart hits when its distance from the origin is at most `radius`. The rim
      is inside (closed disk). A distance is never negative, so a negative radius
      admits no point at all. */
  predicate InCircle(p: Point, radius: real)
    ensures InCircle(p, radius) ==> 0.0 <= radius
    ensures InCircle(p, radius) ==> -radius <= p.x <= radius && -radius <= p.y <= radius
  {
    HitWithinRadius(p, radius);
    0.0 <= radius && SquaredNorm(p) <= radius * radius
  }

  /** A coordinate whose square is at most `radius * radius` lies within
      `radius` of zero. */
  lemma CoordinateWithinRadius(v: real, radius: real)
    requires 0.0 <= radius && v * v <= radius * radius
    ensures -radius <= v <= radius
  {
    if radius < v {
      SquareStrictMonotone(radius, v);
    } else if v < -radius {
      SquareStrictMonotone(radius, -v);
    }
  }

  lemma HitWithinRadius(p: Point, radius: real)
    ensures 0.0 <= radius && SquaredNorm(p) <= radius * radius
            ==> -radius <= p.x <= radius && -radius <= p.y <= radius
  {
    if 0.0 <= radius && SquaredNorm(p) <= radius * radius {
      CoordinateWithinRadius(p.x, radius);
      CoordinateWithinRadius(p.y, radius);
    }
  }

  lemma SquareMonotone(a: real, b: real)
    requires 0.0 <= a <= b
    ensures a * a <= b * b
  {
    assert a * a <= a * b;
    assert a * b <= b * b;
  }

  lemma SquareStrictMonotone(a: real, b: real)
    requires 0.0 <= a < b
    ensures a * a < b * b
  {
    calc {
      a * a;
    <=
      a * b;
    <
      b * b;
    }
  }

  /** The squared test agrees with the distance test: for the distance `dist`
      of `p` from the origin (the non-negative root of its squared norm), `p` is
      inside exactly when `dist <= radius`; in particular a dart exactly on the
      rim is inside. */
  lemma InCircleIffWithinDistance(p: Point, radius: real, dist: real)
    requires 0.0 <= dist && dist * dist == SquaredNorm(p)
    ensures InCircle(p, radius) <==> dist <= radius
    ensures dist == radius ==> InCircle(p, radius)
  {
    if 0.0 <= radius {
      if dist <= radius {
        SquareMonotone(dist, radius);
      } else {
        SquareStrictMonotone(radius, dist);
      }
    }
  }

  /** The circle is centred at the origin: mirroring a dart in either axis, or
      swapping its coordinates, never changes its classification. */
  lemma InCircleCentredAtOrigin(p: Point, radius: real)
    ensures InCircle(Point(-p.x, p.y), radius) <==> InCircle(p, radius)
    ensures InCircle(Point(p.x, -p.y), radius) <==> InCircle(p, radius)
    ensures InCircle(Point(p.y, p.x), radius) <==> InCircle(p, radius)
    ensures InCircle(Origin, radius) <==> 0.0 <= radius
  {
  }

  /** Growing the circle never loses a hit. */
  lemma InCircleMonotoneInRadius(p: Point, radius: real, larger: real)
    requires radius <= larger
    requires InCircle(p, radius)
    ensures InCircle(p, larger)
  {
    SquareMonotone(radius, larger);
  }

  /** The number of points of `points` that pass the inside test. */
  function CountInside(points: seq<Point>, radius: real): (n: nat)
    ensures n <= |points|
  {
    if |points| == 0 then 0
    else (if InCircle(points[0], radius) then 1 else 0) + CountInside(points[1..], radius)
  }

  /** Every point hits exactly when the count is the full length. */
  lemma {:induction false} CountInsideAll(points: seq<Point>, radius: real)
    ensures CountInside(points, radius) == |points|
            <==> forall i :: 0 <= i < |points| ==> InCircle(points[i], radius)
  {
    if |points| > 0 {
      var rest := points[1..];
      CountInsideAll(rest, radius);
      assert forall i :: 0 < i < |points| ==> points[i] == rest[i - 1];
      assert (forall i :: 0 <= i < |points| ==> InCircle(points[i], radius))
             <==> InCircle(points[0], radius) && forall i :: 0 <= i < |rest| ==> InCircle(rest[i], radius);
    }
  }

  /** No point hits exactly when the count is zero. */
  lemma {:induction false} CountInsideNone(points: seq<Point>, radius: real)
    ensures CountInside(points, radius) == 0
            <==> forall i :: 0 <= i < |points| ==> !InCircle(points[i], radius)
  {
    if |points| > 0 {
      var rest := points[1..];
      CountInsideNone(rest, radius);
      assert forall i :: 0 < i < |points| ==> points[i] == rest[i - 1];
      assert (forall i :: 0 <= i < |points| ==> !InCircle(points[i], radius))
             <==> !InCircle(points[0], radius) && forall i :: 0 <= i < |rest| ==> !InCircle(rest[i], radius);
    }
  }

  /** Counting distributes over concatenation. */
  lemma {:induction false} CountInsideAppend(a: seq<Point>, b: seq<Point>, radius: real)
    ensures CountInside(a + b, radius) == CountInside(a, radius) + CountInside(b, radius)
  {
    if |a| > 0 {
      assert (a + b)[1..] == a[1..] + b;
      CountInsideAppend(a[1..], b, radius);
    } else {
      assert a + b == b;
    }
  }
}
