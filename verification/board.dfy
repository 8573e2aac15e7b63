/** The state of a `Dartboard` and its per-dart operations: changing the
    circle's radius, the inside test on the turtle's position, and throwing one
    dart, which moves the turtle and stamps a mark coloured by the inside test. */
module Board {
  import opened Geometry
  import opened Sampling

  /** The colours a dart's mark can be stamped in. */
  datatype Colour = Blue | Red

  /** A mark left on the canvas by a thrown dart. */
  datatype Stamp = Stamp(at: Point, colour: Colour)

  /** What a `Dartboard` keeps between calls: the circle's radius, the turtle's
      position (the last dart thrown) and the marks stamped so far. */
  datatype Dartboard = Dartboard(circleRadius: real, turtle: Point, stamps: seq<Stamp>)

  /** The radius a new board is created with. */
  const DefaultRadius := 1.0

  /** A fresh board: the turtle starts at the origin and nothing is stamped. */
  function NewDartboard(circleRadius: real): (b: Dartboard)
    ensures b.circleRadius == circleRadius
    ensures b.turtle == Origin && b.stamps == []
  {
    Dartboard(circleRadius, Origin, [])
  }

  /** Replaces the circle's radius; the turtle and the marks stay as they are. */
  function SetCircle(b: Dartboard, circleRadius: real): (r: Dartboard)
    ensures r.circleRadius == circleRadius
    ensures r.turtle == b.turtle && r.stamps == b.stamps
  {
    b.(circleRadius := circleRadius)
  }

  /** The inside test applied to the turtle's current position. A hit needs a
      non-negative radius and lies on the board `setUpDartboard` draws, the
      square of half-width `circleRadius` around the origin. */
  predicate IsInCircle(b: Dartboard)
    ensures IsInCircle(b) ==> 0.0 <= b.circleRadius
    ensures IsInCircle(b) ==> -b.circleRadius <= b.turtle.x <= b.circleRadius
                              && -b.circleRadius <= b.turtle.y <= b.circleRadius
    ensures b.turtle == Origin ==> (IsInCircle(b) <==> 0.0 <= b.circleRadius)
  {
    InCircle(b.turtle, b.circleRadius)
  }

  /** After a radius change, only the new radius decides the inside test, and
      a second change overrides the first. */
  lemma SetCircleDecidesInsideTest(b: Dartboard, first: real, second: real)
    ensures IsInCircle(SetCircle(b, second)) <==> InCircle(b.turtle, second)
    ensures SetCircle(SetCircle(b, first), second) == SetCircle(b, second)
  {
  }

  /** The mark stamped for a dart at `p`: blue when it is inside the circle of
      radius `radius`, red otherwise. */
  function Mark(p: Point, radius: real): (s: Stamp)
    ensures s.at == p
    ensures s.colour == Blue <==> InCircle(p, radius)
    ensures s.colour == Red <==> !InCircle(p, radius)
  {
    Stamp(p, if InCircle(p, radius) then Blue else Red)
  }

  /** The marks stamped for the darts `points`, in throwing order. */
  function Marks(points: seq<Point>, radius: real): (ms: seq<Stamp>)
    ensures |ms| == |points|
    ensures forall i :: 0 <= i < |ms| ==> ms[i] == Mark(points[i], radius)
  {
    seq(|points|, i requires 0 <= i < |points| => Mark(points[i], radius))
  }

  lemma MarksAppend(a: seq<Point>, b: seq<Point>, radius: real)
    ensures Marks(a + b, radius) == Marks(a, radius) + Marks(b, radius)
  {
  }

  /** Throws one dart with draw `d`: the turtle moves to where it lands, which is
      in the square whatever the radius, and a mark is appended whose colour is
      blue exactly when the inside test then holds. The radius is untouched. */
  function ThrowDart(b: Dartboard, d: Draw): (r: Dartboard)
    ensures r.turtle == DartPosition(d) && OnBoard(r.turtle)
    ensures r.circleRadius == b.circleRadius
    ensures |r.stamps| == |b.stamps| + 1 && r.stamps[..|b.stamps|] == b.stamps
    ensures r.stamps[|b.stamps|].at == r.turtle
    ensures r.stamps[|b.stamps|].colour == Blue <==> IsInCircle(r)
  {
    var p := DartPosition(d);
    b.(turtle := p, stamps := b.stamps + [Mark(p, b.circleRadius)])
  }

  /** The number of blue marks in `stamps`. */
  function CountBlue(stamps: seq<Stamp>): (n: nat)
    ensures n <= |stamps|
  {
    if |stamps| == 0 then 0
    else (if stamps[0].colour == Blue then 1 else 0) + CountBlue(stamps[1..])
  }

  /** Colouring never changes the classification: the blue marks stamped for a
      sequence of darts are exactly as many as the darts inside the circle. */
  lemma {:induction false} BlueMarksCountHits(points: seq<Point>, radius: real)
    ensures CountBlue(Marks(points, radius)) == CountInside(points, radius)
  {
    if |points| > 0 {
      assert Marks(points, radius)[1..] == Marks(points[1..], radius);
      BlueMarksCountHits(points[1..], radius);
    }
  }

  /** `len(range(n))`: how many times a `for` loop over `range(n)` runs. */
  function RangeLength(n: int): (k: nat)
    ensures n <= 0 ==> k == 0
    ensures n > 0 ==> k == n
  {
    if n > 0 then n else 0
  }
}
