/** `playDarts`: two players take turns, one dart each per round; a player
    scores a point for each dart inside the circle, and the one with strictly
    more points wins. */
module DartsGame {
  import opened Geometry
  import opened Sampling
  import opened Board

  /** The draws of one round: player one's dart, then player two's. */
  datatype Round = Round(first: Draw, second: Draw)

  /** How a game ends. */
  datatype Winner = PlayerOne | PlayerTwo | Tie

  /** The rounds a game is played for when none is given. */
  const DefaultRounds := 10

  /** The board after a game, each player's points and who won. */
  datatype Game = Game(board: Dartboard, playerOnePoints: nat, playerTwoPoints: nat, winner: Winner)

  /** Where player one's darts land, round by round. */
  function FirstDarts(rounds: seq<Round>): (ps: seq<Point>)
    ensures |ps| == |rounds|
    ensures forall i :: 0 <= i < |ps| ==> ps[i] == DartPosition(rounds[i].first)
    decreases |rounds|
  {
    if |rounds| == 0 then []
    else
      var rest := FirstDarts(rounds[1..]);
      var ps := [DartPosition(rounds[0].first)] + rest;
      assert forall i :: 1 <= i < |rounds| ==> ps[i] == rest[i - 1];
      ps
  }

  /** Where player two's darts land, round by round. */
  function SecondDarts(rounds: seq<Round>): (ps: seq<Point>)
    ensures |ps| == |rounds|
    ensures forall i :: 0 <= i < |ps| ==> ps[i] == DartPosition(rounds[i].second)
    decreases |rounds|
  {
    if |rounds| == 0 then []
    else
      var rest := SecondDarts(rounds[1..]);
      var ps := [DartPosition(rounds[0].second)] + rest;
      assert forall i :: 1 <= i < |rounds| ==> ps[i] == rest[i - 1];
      ps
  }

  /** Every dart of the game in throwing order: the two darts of each round,
      player one's first. */
  function AllDarts(rounds: seq<Round>): (ps: seq<Point>)
    ensures |ps| == 2 * |rounds|
    ensures forall i :: 0 <= i < |rounds| ==> ps[2 * i] == DartPosition(rounds[i].first)
    ensures forall i :: 0 <= i < |rounds| ==> ps[2 * i + 1] == DartPosition(rounds[i].second)
  {
    if |rounds| == 0 then []
    else
      var rest := AllDarts(rounds[1..]);
      var ps := [DartPosition(rounds[0].first), DartPosition(rounds[0].second)] + rest;
      assert forall i :: 1 <= i < |rounds| ==> ps[2 * i] == rest[2 * (i - 1)];
      assert forall i :: 1 <= i < |rounds| ==> ps[2 * i + 1] == rest[2 * (i - 1) + 1];
      ps
  }

  /** Playing the first round stamps the marks of its two darts, ahead of the
      marks of the remaining rounds. */
  lemma RoundMarks(b: Dartboard, rounds: seq<Round>)
    requires |rounds| > 0
    ensures ThrowDart(ThrowDart(b, rounds[0].first), rounds[0].second).stamps
              + Marks(AllDarts(rounds[1..]), b.circleRadius)
            == b.stamps + Marks(AllDarts(rounds), b.circleRadius)
  {
    var r := b.circleRadius;
    var pair := [Mark(DartPosition(rounds[0].first), r)] + [Mark(DartPosition(rounds[0].second), r)];
    var later := Marks(AllDarts(rounds[1..]), r);
    RoundStamps(b, rounds[0]);
    AllDartsMarksCons(rounds, r);
    ConcatAssociative(b.stamps, pair, later);
  }

  /** The two throws of a round append their two marks. */
  lemma RoundStamps(b: Dartboard, round: Round)
    ensures ThrowDart(ThrowDart(b, round.first), round.second).stamps
            == b.stamps + ([Mark(DartPosition(round.first), b.circleRadius)]
                           + [Mark(DartPosition(round.second), b.circleRadius)])
  {
  }

  /** The marks of a game's darts start with those of its first round. */
  lemma AllDartsMarksCons(rounds: seq<Round>, r: real)
    requires |rounds| > 0
    ensures Marks(AllDarts(rounds), r)
            == [Mark(DartPosition(rounds[0].first), r)] + [Mark(DartPosition(rounds[0].second), r)]
               + Marks(AllDarts(rounds[1..]), r)
  {
    var one, two := DartPosition(rounds[0].first), DartPosition(rounds[0].second);
    assert Marks([one, two], r) == [Mark(one, r)] + [Mark(two, r)];
    MarksAppend([one, two], AllDarts(rounds[1..]), r);
  }

  /** Concatenation regroups freely. */
  lemma ConcatAssociative<T>(a: seq<T>, b: seq<T>, c: seq<T>)
    ensures (a + b) + c == a + (b + c)
  {
  }

  /** Playing the first round scores each player's dart of that round, ahead
      of their darts in the remaining rounds. */
  lemma RoundScores(b: Dartboard, rounds: seq<Round>)
    requires |rounds| > 0
    ensures var afterOne := ThrowDart(b, rounds[0].first);
            CountInside(FirstDarts(rounds), b.circleRadius)
            == (if IsInCircle(afterOne) then 1 else 0) + CountInside(FirstDarts(rounds[1..]), b.circleRadius)
    ensures var afterTwo := ThrowDart(ThrowDart(b, rounds[0].first), rounds[0].second);
            CountInside(SecondDarts(rounds), b.circleRadius)
            == (if IsInCircle(afterTwo) then 1 else 0) + CountInside(SecondDarts(rounds[1..]), b.circleRadius)
  {
  }

  /** Scores of the rounds played so far, and the board they leave. */
  datatype Tally = Tally(board: Dartboard, one: nat, two: nat)

  /** Plays `rounds` in order: player one throws and scores if the turtle is
      then inside, then player two does the same. Each player's points are the
      number of their darts inside the circle, and the board carries the marks
      of every dart in throwing order. */
  function PlayRounds(b: Dartboard, rounds: seq<Round>): (t: Tally)
    ensures t.one == CountInside(FirstDarts(rounds), b.circleRadius)
    ensures t.two == CountInside(SecondDarts(rounds), b.circleRadius)
    ensures t.board.circleRadius == b.circleRadius
    ensures t.board.stamps == b.stamps + Marks(AllDarts(rounds), b.circleRadius)
    decreases |rounds|
  {
    if |rounds| == 0 then Tally(b, 0, 0)
    else
      var afterOne := ThrowDart(b, rounds[0].first);
      var afterTwo := ThrowDart(afterOne, rounds[0].second);
      var rest := PlayRounds(afterTwo, rounds[1..]);
      RoundMarks(b, rounds);
      RoundScores(b, rounds);
      Tally(rest.board,
            (if IsInCircle(afterOne) then 1 else 0) + rest.one,
            (if IsInCircle(afterTwo) then 1 else 0) + rest.two)
  }

  /** The announced result: player one wins on strictly more points, player
      two on strictly fewer, and equal points are a tie. */
  function Decide(one: nat, two: nat): (w: Winner)
    ensures w == PlayerOne <==> one > two
    ensures w == PlayerTwo <==> one < two
    ensures w == Tie <==> one == two
  {
    if one > two then PlayerOne
    else if one < two then PlayerTwo
    else Tie
  }

  /** `playDarts(rounds)` with the random source fixed to `throws`, one round
      per iteration of the loop over `range(rounds)`. Each player's points are
      the number of their darts inside the circle, at most the number of
      rounds; exactly one of the three outcomes holds and it is decided by
      comparing the points. */
  function PlayDarts(b: Dartboard, rounds: int, throws: seq<Round>): (g: Game)
    requires |throws| == RangeLength(rounds)
    ensures g.playerOnePoints == CountInside(FirstDarts(throws), b.circleRadius)
    ensures g.playerTwoPoints == CountInside(SecondDarts(throws), b.circleRadius)
    ensures g.playerOnePoints <= RangeLength(rounds) && g.playerTwoPoints <= RangeLength(rounds)
    ensures g.winner == PlayerOne <==> g.playerOnePoints > g.playerTwoPoints
    ensures g.winner == PlayerTwo <==> g.playerOnePoints < g.playerTwoPoints
    ensures g.winner == Tie <==> g.playerOnePoints == g.playerTwoPoints
    ensures g.board.circleRadius == b.circleRadius
    ensures g.board.stamps == b.stamps + Marks(AllDarts(throws), b.circleRadius)
  {
    var t := PlayRounds(b, throws);
    Game(t.board, t.one, t.two, Decide(t.one, t.two))
  }

  /** The hits among all darts of a game are player one's plus player two's. */
  lemma {:induction false} AllDartsHits(rounds: seq<Round>, radius: real)
    ensures CountInside(AllDarts(rounds), radius)
            == CountInside(FirstDarts(rounds), radius) + CountInside(SecondDarts(rounds), radius)
  {
    if |rounds| > 0 {
      var pair := [DartPosition(rounds[0].first), DartPosition(rounds[0].second)];
      assert AllDarts(rounds) == pair + AllDarts(rounds[1..]);
      CountInsideAppend(pair, AllDarts(rounds[1..]), radius);
      assert pair[1..][1..] == [];
      AllDartsHits(rounds[1..], radius);
    }
  }

  /** Colouring never changes the score: the blue marks a game stamps are
      exactly the two players' points together. */
  lemma PlayDartsBlueMarksMatchPoints(b: Dartboard, rounds: int, throws: seq<Round>)
    requires |throws| == RangeLength(rounds)
    ensures var g := PlayDarts(b, rounds, throws);
            && |g.board.stamps| == |b.stamps| + 2 * |throws|
            && CountBlue(g.board.stamps[|b.stamps|..]) == g.playerOnePoints + g.playerTwoPoints
  {
    var g := PlayDarts(b, rounds, throws);
    assert g.board.stamps[|b.stamps|..] == Marks(AllDarts(throws), b.circleRadius);
    BlueMarksCountHits(AllDarts(throws), b.circleRadius);
    AllDartsHits(throws, b.circleRadius);
  }

  /** Swapping the players' darts in every round swaps their points and turns
      a win of one player into a win of the other. */
  lemma PlayDartsSymmetric(b: Dartboard, rounds: int, throws: seq<Round>)
    requires |throws| == RangeLength(rounds)
    ensures var swapped := seq(|throws|, i requires 0 <= i < |throws| => Round(throws[i].second, throws[i].first));
            var g := PlayDarts(b, rounds, throws);
            var h := PlayDarts(b, rounds, swapped);
            && h.playerOnePoints == g.playerTwoPoints
            && h.playerTwoPoints == g.playerOnePoints
            && (g.winner == PlayerOne <==> h.winner == PlayerTwo)
            && (g.winner == Tie <==> h.winner == Tie)
  {
    var swapped := seq(|throws|, i requires 0 <= i < |throws| => Round(throws[i].second, throws[i].first));
    assert FirstDarts(swapped) == SecondDarts(throws);
    assert SecondDarts(swapped) == FirstDarts(throws);
  }

  /** One round on the unit circle in which player one's dart lands at the
      centre and player two's in the corner (-1, -1): player one wins 1 to 0. */
  lemma OneRoundPlayerOneWins()
    ensures var g := PlayDarts(NewDartboard(DefaultRadius), 1, [Round(Draw(0.5, 0.5), Draw(0.0, 0.0))]);
            g.playerOnePoints == 1 && g.playerTwoPoints == 0 && g.winner == PlayerOne
  {
    var throws := [Round(Draw(0.5, 0.5), Draw(0.0, 0.0))];
    var centre := DartPosition(Draw(0.5, 0.5));
    var corner := DartPosition(Draw(0.0, 0.0));
    assert centre == Point(0.0, 0.0);
    assert corner == Point(-1.0, -1.0);
    assert FirstDarts(throws) == [centre];
    assert SecondDarts(throws) == [corner];
    assert CountInside([centre], DefaultRadius) == 1;
    assert CountInside([corner], DefaultRadius) == 0;
  }

  /** A game of the default ten rounds in which every dart hits ends in a
      10 to 10 tie. */
  lemma DefaultGameAllHitsIsTie(b: Dartboard, throws: seq<Round>)
    requires |throws| == DefaultRounds
    requires forall i :: 0 <= i < |throws| ==> InCircle(DartPosition(throws[i].first), b.circleRadius)
    requires forall i :: 0 <= i < |throws| ==> InCircle(DartPosition(throws[i].second), b.circleRadius)
    ensures var g := PlayDarts(b, DefaultRounds, throws);
            g.playerOnePoints == 10 && g.playerTwoPoints == 10 && g.winner == Tie
  {
    CountInsideAll(FirstDarts(throws), b.circleRadius);
    CountInsideAll(SecondDarts(throws), b.circleRadius);
  }
}
