/** Where a thrown dart lands. The random source is an explicit input: each
    coordinate is a unit draw `u` in [0, 1), a value of `random.random()`, that
    `random.uniform(lo, hi)` scales to `lo + (hi - lo) * u`. Both coordinates
    are drawn from [-1, 1), whatever the radius of the circle is. */
module Sampling {
  import opened Geometry

  /** One value of the unit random source: 0 can be drawn, 1 cannot. */
  type Unit = u: real | 0.0 <= u < 1.0

  /** The two unit draws consumed by one dart. */
  datatype Draw = Draw(ux: Unit, uy: Unit)

  /** The sampling range of both coordinates of a dart. */
  const Low := -1.0
  const High := 1.0

  lemma ScaleWithinWidth(width: real, u: Unit)
    requires 0.0 <= width
    ensures 0.0 <= width * u <= width
    ensures 0.0 < width ==> width * u < width
  {
    calc {
      0.0;
    ==
      0.0 * u;
    <=
      width * u;
    <=
      width * 1.0;
    }
    if 0.0 < width {
      assert width * u < width * 1.0;
    }
  }

  /** `random.uniform(lo, hi)` for the unit draw `u`: a value in [lo, hi] that
      is `lo` for the draw 0 and stays below `hi` whenever `lo < hi`. */
  function Uniform(lo: real, hi: real, u: Unit): (v: real)
    requires lo <= hi
    ensures lo <= v <= hi
    ensures lo < hi ==> v < hi
    ensures u == 0.0 ==> v == lo
  {
    var width := hi - lo;
    ScaleWithinWidth(width, u);
    lo + width * u
  }

  /** The half-open square [-1, 1) x [-1, 1) that every dart lands in. */
  predicate OnBoard(p: Point) {
    Low <= p.x < High && Low <= p.y < High
  }

  /** The position of the dart thrown with draw `d`. The radius of the circle is
      not an argument: it has no influence on where darts land. */
  function DartPosition(d: Draw): (p: Point)
    ensures OnBoard(p)
  {
    Point(Uniform(Low, High, d.ux), Uniform(Low, High, d.uy))
  }

  /** The draw that lands a dart on `p`: every point of the square is reachable. */
  function DrawFor(p: Point): (d: Draw)
    requires OnBoard(p)
    ensures DartPosition(d) == p
  {
    Draw((p.x - Low) / (High - Low), (p.y - Low) / (High - Low))
  }

  /** Distinct draws land on distinct points: the position determines the draw. */
  lemma DrawForDartPosition(d: Draw)
    ensures DrawFor(DartPosition(d)) == d
  {
  }

  /** The positions of a sequence of darts, in throwing order. */
  function Positions(draws: seq<Draw>): (ps: seq<Point>)
    ensures |ps| == |draws|
    ensures forall i :: 0 <= i < |ps| ==> OnBoard(ps[i])
  {
    seq(|draws|, i requires 0 <= i < |draws| => DartPosition(draws[i]))
  }

  lemma PositionsCons(draws: seq<Draw>)
    requires |draws| > 0
    ensures Positions(draws) == [DartPosition(draws[0])] + Positions(draws[1..])
  {
    assert Positions(draws)[1..] == Positions(draws[1..]);
  }
}
