/** `montePi`: throw a number of darts, count those inside the circle and
    return four times the fraction of hits. */
module MonteCarlo {
  import opened Geometry
  import opened Sampling
  import opened Board

  /** The board after a run of darts, and how many of them tested inside. */
  datatype Run = Run(board: Dartboard, hits: nat)

  /** Throws the darts `draws` one after another, testing the turtle's position
      after each throw. The hits are the darts inside the circle and the marks
      are those of the darts, in order. */
  function ThrowAll(b: Dartboard, draws: seq<Draw>): (r: Run)
    ensures r.hits == CountInside(Positions(draws), b.circleRadius)
    ensures r.board.circleRadius == b.circleRadius
    ensures r.board.stamps == b.stamps + Marks(Positions(draws), b.circleRadius)
    ensures |draws| == 0 ==> r.board == b
    decreases |draws|
  {
    if |draws| == 0 then Run(b, 0)
    else
      var next := ThrowDart(b, draws[0]);
      var rest := ThrowAll(next, draws[1..]);
      ThrowStep(b, draws);
      Run(rest.board, (if IsInCircle(next) then 1 else 0) + rest.hits)
  }

  /** Throwing the first dart of `draws` stamps its mark and scores it: what is
      left to do is the same as for the remaining darts from the new board. */
  lemma ThrowStep(b: Dartboard, draws: seq<Draw>)
    requires |draws| > 0
    ensures var next := ThrowDart(b, draws[0]);
            && next.stamps + Marks(Positions(draws[1..]), b.circleRadius)
               == b.stamps + Marks(Positions(draws), b.circleRadius)
            && CountInside(Positions(draws), b.circleRadius)
               == (if IsInCircle(next) then 1 else 0) + CountInside(Positions(draws[1..]), b.circleRadius)
  {
    var first := DartPosition(draws[0]);
    PositionsCons(draws);
    MarksAppend([first], Positions(draws[1..]), b.circleRadius);
  }

  /** After a run the turtle rests on the last dart thrown, so a later inside
      test on the board classifies that dart. */
  lemma {:induction false} ThrowAllRestsOnLastDart(b: Dartboard, draws: seq<Draw>)
    requires |draws| > 0
    ensures ThrowAll(b, draws).board.turtle == DartPosition(draws[|draws| - 1])
    ensures IsInCircle(ThrowAll(b, draws).board)
            <==> InCircle(DartPosition(draws[|draws| - 1]), b.circleRadius)
    decreases |draws|
  {
    if |draws| > 1 {
      ThrowAllRestsOnLastDart(ThrowDart(b, draws[0]), draws[1..]);
      assert draws[1..][|draws[1..]| - 1] == draws[|draws| - 1];
    }
  }

  /** The number of darts `montePi` throws when none is given. */
  const DefaultNumDarts := 0

  /** What `montePi` yields: the estimate, or the division-by-zero error raised
      when no dart is requested. */
  datatype Approximation = Estimate(value: real) | ZeroDivisionError

  /** One call of `montePi`: the board it leaves behind, its `inside_count` and
      its result. */
  datatype MonteCarloRun = MonteCarloRun(board: Dartboard, insideCount: nat, approxPi: Approximation)

  /** `value` times `numDarts` is four times `hits`: for a positive number of
      darts, `value` is four times the fraction of hits. */
  predicate ScalesToFourTimes(value: real, numDarts: int, hits: nat) {
    value * numDarts as real == 4.0 * hits as real
  }

  /** The value `montePi` computes from its count: dividing by no dart is an
      error; otherwise the estimate times the number of darts is four times the
      hits, it lies in [0, 4], is 4 exactly for all hits and 0 exactly for none,
      and a negative request (which throws no dart) yields 0. */
  function Approximate(insideCount: nat, numDarts: int): (a: Approximation)
    requires insideCount <= RangeLength(numDarts)
    ensures a == ZeroDivisionError <==> numDarts == 0
    ensures numDarts < 0 ==> a == Estimate(0.0)
    ensures numDarts > 0 ==> a.Estimate? && ScalesToFourTimes(a.value, numDarts, insideCount)
    ensures a.Estimate? ==> 0.0 <= a.value <= 4.0
    ensures numDarts > 0 ==> (a == Estimate(4.0) <==> insideCount == numDarts)
    ensures numDarts > 0 ==> (a == Estimate(0.0) <==> insideCount == 0)
  {
    if numDarts == 0 then ZeroDivisionError
    else
      RatioTimesFour(insideCount, numDarts);
      Estimate((insideCount as real / numDarts as real) * 4.0)
  }

  /** `montePi(num_darts)` with the random source fixed to `draws`, one draw per
      iteration of the loop over `range(num_darts)`. The count is the number of
      darts passing the inside test. With no dart the ratio divides by zero; a
      negative request throws nothing and yields zero; otherwise the estimate
      times the number of darts is four times the count, so it lies in [0, 4]. */
  function MontePi(b: Dartboard, numDarts: int, draws: seq<Draw>): (r: MonteCarloRun)
    requires |draws| == RangeLength(numDarts)
    ensures r.insideCount == CountInside(Positions(draws), b.circleRadius)
    ensures 0 <= r.insideCount <= RangeLength(numDarts)
    ensures r.board.stamps == b.stamps + Marks(Positions(draws), b.circleRadius)
    ensures r.board.circleRadius == b.circleRadius
    ensures r.approxPi == ZeroDivisionError <==> numDarts == 0
    ensures numDarts < 0 ==> r.approxPi == Estimate(0.0)
    ensures numDarts > 0 ==> r.approxPi.Estimate? && ScalesToFourTimes(r.approxPi.value, numDarts, r.insideCount)
    ensures r.approxPi.Estimate? ==> 0.0 <= r.approxPi.value <= 4.0
    ensures numDarts > 0 ==> (r.approxPi == Estimate(4.0) <==> r.insideCount == numDarts)
    ensures numDarts > 0 ==> (r.approxPi == Estimate(0.0) <==> r.insideCount == 0)
  {
    var run := ThrowAll(b, draws);
    MonteCarloRun(run.board, run.hits, Approximate(run.hits, numDarts))
  }

  /** Four times the fraction `hits / n`, for a negative `n` with no hit or
      for at most `n` hits out of `n`, lies in [0, 4], scales back to four
      times the hits, and reaches 4 or 0 only when all or none hit. */
  lemma RatioTimesFour(hits: nat, n: int)
    requires n != 0
    requires n < 0 ==> hits == 0
    requires n > 0 ==> hits <= n
    ensures 0.0 <= (hits as real / n as real) * 4.0 <= 4.0
    ensures (hits as real / n as real) * 4.0 * n as real == 4.0 * hits as real
    ensures n > 0 ==> ((hits as real / n as real) * 4.0 == 4.0 <==> hits == n)
    ensures (hits as real / n as real) * 4.0 == 0.0 <==> hits == 0
  {
    var h := hits as real;
    var d := n as real;
    var q := h / d;
    assert q * d == h;
    if n > 0 {
      assert (1.0 - q) * d == d - h;
      assert 0.0 <= 1.0 - q;
      assert 0.0 <= q;
    }
  }

  /** The estimate is 4 exactly when every dart lands inside the circle, and 0
      exactly when none does. */
  lemma EstimateExtremes(b: Dartboard, numDarts: int, draws: seq<Draw>)
    requires numDarts > 0 && |draws| == numDarts
    ensures MontePi(b, numDarts, draws).approxPi == Estimate(4.0)
            <==> forall i :: 0 <= i < |draws| ==> InCircle(DartPosition(draws[i]), b.circleRadius)
    ensures MontePi(b, numDarts, draws).approxPi == Estimate(0.0)
            <==> forall i :: 0 <= i < |draws| ==> !InCircle(DartPosition(draws[i]), b.circleRadius)
  {
    var ps := Positions(draws);
    CountInsideAll(ps, b.circleRadius);
    CountInsideNone(ps, b.circleRadius);
    assert forall i :: 0 <= i < |draws| ==> ps[i] == DartPosition(draws[i]);
  }

  /** Colouring never changes the count: the blue marks a `montePi` run stamps
      are exactly its `inside_count`. */
  lemma MontePiBlueMarksMatchCount(b: Dartboard, numDarts: int, draws: seq<Draw>)
    requires |draws| == RangeLength(numDarts)
    ensures var r := MontePi(b, numDarts, draws);
            && |r.board.stamps| == |b.stamps| + |draws|
            && CountBlue(r.board.stamps[|b.stamps|..]) == r.insideCount
  {
    var r := MontePi(b, numDarts, draws);
    assert r.board.stamps[|b.stamps|..] == Marks(Positions(draws), b.circleRadius);
    BlueMarksCountHits(Positions(draws), b.circleRadius);
  }

  /** Darts are drawn from [-1, 1) whatever the radius: once the circle covers
      the whole square (radius at least the corner distance, the square root of
      2), every dart hits and the estimate is 4, not an approximation of pi. */
  lemma LargeCircleAlwaysEstimatesFour(b: Dartboard, numDarts: int, draws: seq<Draw>)
    requires 0.0 <= b.circleRadius && 2.0 <= b.circleRadius * b.circleRadius
    requires numDarts > 0 && |draws| == numDarts
    ensures MontePi(b, numDarts, draws).approxPi == Estimate(4.0)
  {
    forall i | 0 <= i < |draws|
      ensures InCircle(DartPosition(draws[i]), b.circleRadius)
    {
      var p := DartPosition(draws[i]);
      assert p.x * p.x <= 1.0 && p.y * p.y <= 1.0 by {
        SquareBelowOne(p.x);
        SquareBelowOne(p.y);
      }
    }
    EstimateExtremes(b, numDarts, draws);
  }

  lemma SquareBelowOne(v: real)
    requires -1.0 <= v <= 1.0
    ensures v * v <= 1.0
  {
    if v >= 0.0 {
      SquareMonotone(v, 1.0);
    } else {
      SquareMonotone(-v, 1.0);
    }
  }

  /** `montePi` called with its default of no dart divides by zero. */
  lemma DefaultMontePiDividesByZero(b: Dartboard)
    ensures MontePi(b, DefaultNumDarts, []).approxPi == ZeroDivisionError
    ensures MontePi(b, DefaultNumDarts, []).board == b
  {
  }

  /** Four darts at (0.1, 0.1), (0.9, 0.9), (-0.99, -0.99) and (0.5, -0.5) on the
      unit circle: the first and the last hit, so the estimate is 2. */
  lemma FourDartEstimate()
    ensures MontePi(NewDartboard(DefaultRadius), 4,
                    [Draw(0.55, 0.55), Draw(0.95, 0.95), Draw(0.005, 0.005), Draw(0.75, 0.25)]).approxPi
            == Estimate(2.0)
  {
    var draws := [Draw(0.55, 0.55), Draw(0.95, 0.95), Draw(0.005, 0.005), Draw(0.75, 0.25)];
    var ps := Positions(draws);
    assert ps == [Point(0.1, 0.1), Point(0.9, 0.9), Point(-0.99, -0.99), Point(0.5, -0.5)];
    assert CountInside(ps[3..], DefaultRadius) == 1;
    assert CountInside(ps[2..], DefaultRadius) == 1;
    assert CountInside(ps[1..], DefaultRadius) == 1;
  }
}
