# Dartboard Monte Carlo estimate of pi, in Dafny

The program throws virtual darts at a 2 x 2 board with a circle centred at the
origin. A dart hits when its distance from the origin is at most the circle's
radius, the rim included. `montePi` counts the hits over `num_darts` throws and
returns `4 * inside_count / num_darts`. `playDarts` gives two players one dart
each per round and compares their hits. Every dart is stamped blue when it hits
and red when it misses.

This project models the `Dartboard` class of `main.py` as pure functions:

- `Geometry`: points, the inside test `InCircle` and `CountInside`, the number of hits
  among a sequence of darts.
- `Sampling`: where a dart lands. The random source is an explicit input. Each
  coordinate is a unit draw `u` in [0, 1), a value of `random.random()`, and
  `random.uniform(lo, hi)` is `lo + (hi - lo) * u`.
- `Board`: the state a `Dartboard` keeps between calls. That is the radius, the
  turtle's position and the marks stamped so far. The module also holds
  `setCircle`, `isInCircle` and `throwDart`.
- `MonteCarlo`: `montePi`, with the division by zero for `num_darts == 0`
  modelled as an error value.
- `DartsGame`: `playDarts`. It returns both players' points and the winner
  instead of printing them.

The inside test is `0 <= r && x*x + y*y <= r*r`. For a non-negative radius this
is the same as `distance <= r`, and `Geometry.InCircleIffWithinDistance`
proves it. The `0 <= r` conjunct keeps the distance semantics for a negative
radius, which no point can meet.

Three behaviours of `main.py` are easy to miss, and the model keeps them:

- Darts are drawn from [-1, 1) on both axes whatever `circle_radius` is
  (main.py:60-61), while `setUpDartboard` sizes the drawn board to
  [-circle_radius, circle_radius] (main.py:45-49). Only for radius 1 do the
  darts' square and the drawn board match: for a larger radius the darts fill only the middle of the
  board, and for a smaller one many darts land outside it.
  `MonteCarlo.LargeCircleAlwaysEstimatesFour` shows the effect: once the radius
  reaches the square root of 2, every dart hits and the estimate is 4.
- The circle is always centred at (0, 0) (main.py:57). The module docstring
  lists `isInCircle` with centre arguments (main.py:22), but the method takes
  none.
- A negative `num_darts` is not an error. `range` is then empty and the ratio
  is `0 / num_darts * 4`, which is zero. Only `num_darts == 0` divides by zero.

The defaults of the source are constants of the model: `Board.DefaultRadius`
(a radius of 1, main.py:34 and main.py:40), `DartsGame.DefaultRounds` (ten
rounds, main.py:72) and `MonteCarlo.DefaultNumDarts` (no dart, main.py:91).
`MonteCarlo.DefaultMontePiDividesByZero` shows that `montePi` called with its
default divides by zero, and `DartsGame.DefaultGameAllHitsIsTie` plays a game
of the default length.

## Model

| member | source | states |
|---|---|---|
| `Geometry.InCircle` | main.py:56-57 | a dart passes the inside test only for a non-negative radius, and then lies within `circle_radius` of the origin on both axes, on the board `setUpDartboard` draws |
| `Geometry.InCircleIffWithinDistance` | main.py:56-57 | for the distance `d >= 0` of a dart from the origin, the dart is inside exactly when `d <= circle_radius`; a dart exactly on the rim is inside, and a negative radius admits nothing |
| `Geometry.InCircleCentredAtOrigin` | main.py:57 | the classification depends only on the position relative to (0, 0) and the radius: mirroring in either axis or swapping coordinates does not change it, and the origin is inside exactly when the radius is non-negative |
| `Geometry.InCircleMonotoneInRadius` | main.py:57 | a dart inside a circle is inside every larger circle |
| `Geometry.CountInside` | main.py:92-96 | the number of hits among a sequence of darts is at most the number of darts |
| `Geometry.CountInsideAll` | main.py:92-96 | the hit count equals the number of darts exactly when every dart is inside |
| `Geometry.CountInsideNone` | main.py:92-96 | the hit count is zero exactly when no dart is inside |
| `Sampling.Uniform` | main.py:60-61 | `random.uniform(lo, hi)` yields a value in [lo, hi], never `hi` when `lo < hi`, and `lo` for the draw 0 |
| `Sampling.DartPosition` | main.py:60-61 | every thrown dart lands in the half-open square [-1, 1) x [-1, 1); the radius is not an input to where it lands |
| `Sampling.DrawFor` | main.py:60-61 | every point of the half-open square is where some draw lands a dart |
| `Sampling.DrawForDartPosition` | main.py:60-61 | the landing point determines the draw: different draws land on different points |
| `Board.NewDartboard` | main.py:34-38 | a new board has the given radius, the turtle at the origin and no marks |
| `Board.SetCircle` | main.py:40-41 | `setCircle` replaces the radius and leaves the turtle and the marks unchanged |
| `Board.IsInCircle` | main.py:56-57 | `isInCircle` holds only for a non-negative radius and only with the turtle within `circle_radius` of the origin on both axes; with the turtle at the origin it holds exactly when the radius is non-negative |
| `Board.SetCircleDecidesInsideTest` | main.py:40-41 | after `setCircle` the inside test uses the new radius only, and a later `setCircle` overrides an earlier one |
| `Board.Mark` | main.py:64-69 | a dart's mark sits where the dart landed and is blue exactly when the dart is inside, red exactly when it is not |
| `Board.ThrowDart` | main.py:59-70 | `throwDart` moves the turtle to the dart's position in the square, keeps the radius, keeps the earlier marks and appends one mark that is blue exactly when `isInCircle` then holds |
| `Board.BlueMarksCountHits` | main.py:64-69 | colouring does not change the classification: the blue marks for a sequence of darts are exactly as many as the darts inside |
| `Board.RangeLength` | main.py:75 | a loop over `range(n)` runs `n` times for a positive `n` and not at all otherwise |
| `MonteCarlo.ThrowAll` | main.py:93-96 | throwing darts in order and testing after each throw counts exactly the darts inside; the radius is kept and one mark per dart is appended in throwing order |
| `MonteCarlo.ThrowAllRestsOnLastDart` | main.py:93-96 | after a run the turtle is on the last dart thrown, so `isInCircle` classifies that dart |
| `MonteCarlo.MontePi` | main.py:91-98 | `inside_count` is the number of darts inside and lies in [0, len(range(num_darts))]; `num_darts == 0` is a division by zero and nothing else is; a negative request yields 0; otherwise the estimate times `num_darts` is `4 * inside_count`, lies in [0, 4], is 4 exactly when every dart hits and 0 exactly when none does |
| `MonteCarlo.Approximate` | main.py:97 | for at most `len(range(num_darts))` hits, `(inside_count / num_darts) * 4` is a division by zero exactly when `num_darts == 0`, is 0 for a negative request, and otherwise times `num_darts` gives `4 * inside_count`, lies in [0, 4], is 4 exactly for all hits and 0 exactly for none |
| `MonteCarlo.RatioTimesFour` | main.py:97 | `(inside_count / num_darts) * 4` for at most `num_darts` hits lies in [0, 4], scales back to `4 * inside_count`, is 4 only for all hits and 0 only for none |
| `MonteCarlo.EstimateExtremes` | main.py:91-98 | the estimate is 4 exactly when every thrown dart passes the inside test and 0 exactly when none does |
| `MonteCarlo.MontePiBlueMarksMatchCount` | main.py:93-96 | a `montePi` run stamps one mark per dart, and its blue marks are exactly `inside_count` |
| `MonteCarlo.LargeCircleAlwaysEstimatesFour` | main.py:59-61 | because darts land in [-1, 1] x [-1, 1] whatever the radius, a radius of at least the square root of 2, the distance of the square's corners, makes every dart hit and the estimate 4 |
| `MonteCarlo.DefaultMontePiDividesByZero` | main.py:91-98 | `montePi` called with its default of no dart throws nothing, leaves the board as it was and divides by zero |
| `MonteCarlo.FourDartEstimate` | main.py:91-98 | darts at (0.1, 0.1), (0.9, 0.9), (-0.99, -0.99) and (0.5, -0.5) on the unit circle give an estimate of 2 |
| `DartsGame.AllDarts` | main.py:75-81 | the darts of a game in throwing order: each round contributes player one's dart, then player two's |
| `DartsGame.PlayRounds` | main.py:75-81 | each player's points are the number of their own darts inside; the radius is kept and the marks of all darts are appended in throwing order |
| `DartsGame.Decide` | main.py:84-89 | player one wins exactly on strictly more points, player two exactly on strictly fewer, and equal points are exactly a tie |
| `DartsGame.PlayDarts` | main.py:72-89 | each player's points are the number of their darts inside and lie in [0, len(range(rounds))]; player one wins exactly on strictly more points, player two exactly on strictly fewer, and equal points are exactly a tie |
| `DartsGame.AllDartsHits` | main.py:75-81 | the hits among all darts of a game are player one's points plus player two's |
| `DartsGame.PlayDartsBlueMarksMatchPoints` | main.py:75-81 | a game stamps two marks per round, and its blue marks are exactly the two players' points together |
| `DartsGame.PlayDartsSymmetric` | main.py:84-89 | swapping the two players' darts swaps their points, turns a win for one player into a win for the other and keeps a tie a tie |
| `DartsGame.OneRoundPlayerOneWins` | main.py:72-89 | one round on the unit circle where player one's dart lands at the centre and player two's in the corner (-1, -1) ends 1 to 0 for player one |
| `DartsGame.DefaultGameAllHitsIsTie` | main.py:72-89 | a game of the default ten rounds in which every dart hits ends ten points each, a tie |

## Left out

- Drawing the board (`drawSquare`, `drawLine`, `drawCircle`, `setUpDartboard`), window setup, `tracer`, `exitonclick` and clearing the canvas: these are drawing calls into the turtle graphics library, which is not part of this model. A stamp is modelled only as its position and colour.
- The pen colour reset to black and `penup` in `throwDart`: they affect only how later lines are drawn, not any count or mark colour.
- `random.uniform`: replaced by explicit unit draws. A unit draw is a value of `random.random()`, in the half-open interval [0, 1), so a dart never lands at x = 1 or y = 1. Convergence of the estimate toward pi is statistical and is not stated.
- Floating point: coordinates, distances and the ratio are exact reals. `turtle.distance` rounding near the rim and the sign of Python's `-0.0` for a negative `num_darts` are not modelled.
- The `print` calls of `playDarts` and the console input and output of `main`: `playDarts` returns the points and the winner instead.
- `main`'s scripted sequence (ten warm-up throws, one game, one estimate): it is a composition of the modelled operations with drawing calls. Among those, `setUpDartboard` moves the turtle to (0, -circle_radius) and around the circle (main.py:53-54), and `clear()` wipes the canvas; both are drawing and are left out.
- The bouncing-ball screensaver reflector: main.py contains no code for it, so there is nothing to model.
