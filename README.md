# Fuzzy: a grid robot steered by fuzzy obstacle pressure

Fuzzy is a small Windows Forms program. A robot walks a rectangular grid of
cells, some of which are obstacles. On every step it does four things:

- It measures each obstacle: a distance and a bearing `atan2(dx, dy)`.
- It turns each measurement into fuzzy degrees. The distance gives a
  closeness degree, and the bearing gives a share for each of the four
  sides.
- It adds up a pressure per side. An obstacle that is touching or adjacent
  counts ten thousand times as much.
- It weighs each side by three things: a standing direction bias, that
  side's pressure, and how recently the neighbour cell on that side was
  visited. It then moves one cell towards the heaviest side and records the
  move in a fifteen-entry history.

This project models that decision core in Dafny. The core is
`Fuzzy/Form1.cs`: the classes `Robot`, `Field`, `HistoryStepsFuzzy`,
`Fuzzyfication`, `DistanceToWallFuzzy` and `ObstacleFuzzyLogic`.

Modules:

- `Fuzzification` (fuzzification.dfy) covers three things:
  - the trapezoidal membership curve, with `+inf` breakpoints as the datatype
    `Breakpoint`;
  - the distance curve `Close`;
  - the four bearing curves.
- `Grid` (field.dfy): the `Field` class over an `array2<bool>`. It has the
  loops that enumerate the set cells and then the ring of border points.
- `MoveHistory` (history.dfy): the `History` class. It holds a `seq` of
  cells, which `Push` reassigns. It also defines the first-occurrence index
  (`List.IndexOf`) and the recency degree.
- `Robots` (robot.dfy) covers three things:
  - directions, readings and per-side pressure sums;
  - weights (`Weight` is a real or `+inf`, the result of dividing by a zero
    pressure) and the tie-breaking choice of move;
  - the `Robot` class, with `Move`, `SetNextCoord` (the source's `setNextCoord`) and the pressure loop as
    methods.

Each method is proved against a specification function: `Obstacles`,
`Pressure`/`Accumulate`, `Pushed`, `ChooseDirection` and `NextDirection`. The
lemmas then state what those functions promise.

Behaviour of the code worth knowing, all kept as written:

- With `a == b` the rising branch is never reached (it needs `a <= v < b`),
  so the curve never divides by zero there.
- A cell absent from the history scores 0 (`IndexOf` returns -1, and the
  curve maps 0 to 0), which gives the largest weight.
- At `v == b < c` the code takes the falling branch, which yields more than
  1. For the distance curve this is 1.25 at distance 0 (see
  `FallingOvershoot` and `CloseProfile`).
- The bearing curve named `Top` peaks at angle 0, which is straight down
  (+y). `GetCoefficientTop` uses the curve named `Bottom`, and
  `GetCoefficientBottom` uses the one named `Top`. The model keeps these
  names and this wiring.

## Model

| member | source | states |
|---|---|---|
| Fuzzification.Membership | Fuzzy/Form1.cs:290-304 | degree 0 outside [a, d]; 1 strictly inside (b, c); in [0, 1] on a well-shaped curve except at v == b < c |
| Fuzzification.RisingIncreases | Fuzzy/Form1.cs:300 | the rising ramp is strictly increasing on [a, b) and starts at 0 |
| Fuzzification.FallingDecreases | Fuzzy/Form1.cs:301 | the falling ramp is strictly decreasing on [max(b, c), d], from 1 at c to 0 at d |
| Fuzzification.FallingOvershoot | Fuzzy/Form1.cs:298-301 | at v == b < c the curve yields 1 + (c - b) / (d - c), which is more than 1 |
| Fuzzification.GetDistanceToWall | Fuzzy/Form1.cs:306-314 | closeness in [0, 1.25]; 0 for negative distances and from 5 on; 1 on (0, 1] |
| Fuzzification.CloseProfile | Fuzzy/Form1.cs:308-313 | closeness 1.25 at distance 0, strictly decreasing on [1, 5] |
| Fuzzification.CloseThreshold | Fuzzy/Form1.cs:308-313 | closeness exceeds 0.999 exactly for distances in [0, 1.004) |
| Fuzzification.GetCoefficientTop | Fuzzy/Form1.cs:323-326 | the share of the top side is in [0, 1] (negative bearings shifted by 6.28) |
| Fuzzification.GetCoefficientRight | Fuzzy/Form1.cs:327-330 | the share of the right side is in [0, 1] |
| Fuzzification.GetCoefficientBottom | Fuzzy/Form1.cs:331-334 | the share of the bottom side is in [0, 1] |
| Fuzzification.GetCoefficientLeft | Fuzzy/Form1.cs:335-338 | the share of the left side is in [0, 1] |
| Fuzzification.CoefficientsPartition | Fuzzy/Form1.cs:316-338 | the four shares sum to at most 1, and to exactly 1 exactly for bearings in [-3.14, 3.14] |
| Fuzzification.UpperLeft | Fuzzy/Form1.cs:316-338 | on [-3.14, -1.57] only top and left have a share, summing to 1 |
| Fuzzification.LowerLeft | Fuzzy/Form1.cs:316-338 | on [-1.57, 0] only bottom and left have a share, summing to 1 |
| Fuzzification.LowerRight | Fuzzy/Form1.cs:316-338 | on [0, 1.57] only bottom and right have a share, summing to 1 |
| Fuzzification.UpperRight | Fuzzy/Form1.cs:316-338 | on [1.57, 3.14] only right and top have a share, summing to 1 |
| Fuzzification.BeyondUp | Fuzzy/Form1.cs:316-338 | outside [-3.14, 3.14] only the top side can have a share, and it is below 1 (positive within 1.57 of the edge) |
| Fuzzification.CardinalBearings | Fuzzy/Form1.cs:318-338 | bearing 0 is all bottom, 1.57 all right, ±3.14 all top, -1.57 all left |
| Grid.OrderedCardinality | Fuzzy/Form1.cs:240-252 | a strictly ordered cell sequence has no repeats |
| Grid.Field.constructor | Fuzzy/Form1.cs:188-194 | an X by Y grid with no obstacle set |
| Grid.Field.SetObstacle | Fuzzy/Form1.cs:196-199 | the cell takes the new flag and every other cell is unchanged |
| Grid.Field.IsObstacle | Fuzzy/Form1.cs:221-224 | the stored flag of an in-grid cell: true exactly when the cell is one of the obstacle cells |
| Grid.Field.InnerObstacles | Fuzzy/Form1.cs:240-252 | the inner enumeration holds exactly the set cells of the grid, each once, in x-major then y order |
| Grid.Field.GetInnerObstacles | Fuzzy/Form1.cs:240-252 | the nested loops yield the inner enumeration |
| Grid.Field.RowBorder | Fuzzy/Form1.cs:256-260 | two points per column |
| Grid.Field.ColumnBorder | Fuzzy/Form1.cs:262-266 | two points per row |
| Grid.Field.BorderRing | Fuzzy/Form1.cs:254-267 | the border is the ring around the grid without its corners: 2X + 2Y points, none in the grid, exactly the outside cells sharing an edge with a grid cell |
| Grid.Field.GetBorderPoints | Fuzzy/Form1.cs:254-267 | the two loops yield the row border, then the column border |
| Grid.Field.GetObstacles | Fuzzy/Form1.cs:227-238 | the set cells, then the border points |
| Grid.Field.ObstaclesLayout | Fuzzy/Form1.cs:227-238 | the enumeration has one element per set cell plus 2X + 2Y; the set cells, all in the grid, come first, then the ring |
| MoveHistory.IndexOf | Fuzzy/Form1.cs:285 | -1 exactly when the cell is absent; otherwise an index holding the cell |
| MoveHistory.IndexOfFirst | Fuzzy/Form1.cs:285 | no entry before the index found holds the cell |
| MoveHistory.FirstOccurrence | Fuzzy/Form1.cs:285 | the index found is the first occurrence |
| MoveHistory.PushedWindow | Fuzzy/Form1.cs:277-281 | one push keeps the newest fifteen entries |
| MoveHistory.WindowOfWindow | Fuzzy/Form1.cs:277-281 | trimming to the newest fifteen twice is trimming once |
| MoveHistory.PushAllWindow | Fuzzy/Form1.cs:277-281 | after any number of pushes the history is exactly the newest fifteen cells pushed, oldest first |
| MoveHistory.HistoryDegree | Fuzzy/Form1.cs:275 | below 15 the recency curve is the ramp n / 15 |
| MoveHistory.History.constructor | Fuzzy/Form1.cs:273 | the history starts empty |
| MoveHistory.History.Push | Fuzzy/Form1.cs:277-281 | appends the cell, first dropping the oldest entry when fifteen are held; the others keep their order |
| MoveHistory.History.GetLastStep | Fuzzy/Form1.cs:283-287 | the recency degree is in [0, 1], and 0 for a cell not in the history |
| MoveHistory.History.LastStepDegree | Fuzzy/Form1.cs:283-287 | a cell first occurring at index i scores (i + 1) / 15 |
| MoveHistory.History.RecencyOrder | Fuzzy/Form1.cs:283-287 | one cell scores less than another exactly when it first occurs earlier (absent counts as earliest) |
| Robots.Step | Fuzzy/Form1.cs:136 | the move changes exactly one coordinate by one (top is y - 1) |
| Robots.GetFieldStatus | Fuzzy/Form1.cs:161-169 | one sensor reading per enumerated obstacle, of its displacement from the robot, in enumeration order |
| Robots.Proximity | Fuzzy/Form1.cs:149-150 | the proximity is amplified (at least 9990) exactly for distances in [0, 1.004); otherwise it is the closeness degree, at most 0.999 |
| Robots.Coefficient | Fuzzy/Form1.cs:152-155 | the share of each side is in [0, 1] |
| Robots.Contribution | Fuzzy/Form1.cs:152-155 | an obstacle never lowers a pressure |
| Robots.Scaled | Fuzzy/Form1.cs:152-155 | a product of shares is zero exactly when a factor is zero |
| Robots.ContributionZero | Fuzzy/Form1.cs:152-155 | an obstacle adds nothing to a side exactly when it is far or gives that side no share |
| Robots.PressureBounds | Fuzzy/Form1.cs:140-159 | each sum is at least its start plus any one share, and equals its start exactly when no obstacle presses on that side |
| Robots.TouchingObstacle | Fuzzy/Form1.cs:149-155 | an obstacle at distance below 1.004 adds at least 9990 times its share |
| Robots.AmplifiedShare | Fuzzy/Form1.cs:149-155 | a touching obstacle's contribution is at least 9990 times its share |
| Robots.AmplifiedWhenAdjacent | Fuzzy/Form1.cs:149-150 | under the Euclidean distance, an obstacle is amplified exactly when it is on the robot's cell or shares an edge with it |
| Robots.Max | Fuzzy/Form1.cs:134 | the larger of two weights, +inf above every real |
| Robots.BiasFactor | Fuzzy/Form1.cs:129 | the bias is between 1 and 2 |
| Robots.GetPriorityDirection | Fuzzy/Form1.cs:127-130 | the weight is +inf exactly when the pressure is 0, and a positive real when it is positive |
| Robots.WeightOrder | Fuzzy/Form1.cs:127-130 | a weight grows with the bias and falls with the pressure and with the recency |
| Robots.ChooseDirection | Fuzzy/Form1.cs:132-136 | the side chosen is a heaviest one, and no earlier side in top, right, bottom, left order is as heavy |
| Robots.ChoiceIsUnique | Fuzzy/Form1.cs:132-136 | those two properties single out the side chosen |
| Robots.EvenFieldFollowsPriority | Fuzzy/Form1.cs:119-136 | with equal positive pressure and equal recency on all sides the robot moves in its standing direction |
| Robots.ClearFieldGoesTop | Fuzzy/Form1.cs:119-136 | with no pressure on any side every weight is +inf and the robot moves to the top |
| Robots.OnlyNewestUnscored | Fuzzy/Form1.cs:283-287 | in a history whose newest entry is p, no other cell first occurs at index 14 |
| Robots.Robot.constructor | Fuzzy/Form1.cs:84-93 | a robot at (0, 0) with an empty history and bias towards the bottom |
| Robots.Robot.NeighboursScored | Fuzzy/Form1.cs:112-115 | all four neighbours have a defined recency degree |
| Robots.Robot.ReturnMostPenalised | Fuzzy/Form1.cs:112-115 | the cell just left, when it is nowhere earlier in the history, scores higher than any other cell but the robot's own |
| Robots.Robot.SetCoord | Fuzzy/Form1.cs:99-103 | records the new position in the history |
| Robots.Robot.SetNextCoord | Fuzzy/Form1.cs:132-138 | moves one cell to the side `ChooseDirection` picks, records it, and keeps the robot's invariant |
| Robots.Robot.ProcessObstacleDistancesAndDirections | Fuzzy/Form1.cs:140-159 | the loop returns the four per-side sums over every obstacle's reading |
| Robots.Robot.Move | Fuzzy/Form1.cs:105-125 | one step moves to the neighbour that the weights of this step's pressures and recencies pick, records it, and keeps the bias |

## Left out

- The form, its timer, `Task.Run` and drawing are not modelled: they are UI and concurrency.
- `Field.RandomlyFillObstacles` is not modelled because it draws from `System.Random`. `SetObstacle` is the only way the model sets cells.
- `Math.Sqrt`, `Math.Pow` and `Math.Atan2` are not modelled. `GetFieldStatus` takes a `Sensor` parameter instead, which maps a displacement to a reading. `AmplifiedWhenAdjacent` assumes only that the distance is Euclidean.
- The `MoveEvent` notification is not modelled: it calls code outside the core.
- The `Robot` that `Field`'s constructor creates and nothing reads is not modelled.
- The `NumCellsX`/`NumCellsY` constants (10 by 10) are used only by the form, to size the field, the window and the paint loops. The model takes the field's sizes as constructor arguments instead.
- C#'s 32-bit `int` is modelled as Dafny's unbounded `int`. This covers the robot's `x` and `y`, the grid sizes and `IndexOf + 1`. Wrap-around would take about 2^31 single-cell moves in one direction, so the model does not represent it.
- Doubles are modelled as exact reals, without rounding or overflow. The IEEE infinities appear only where the code relies on them: the `+inf` breakpoints and a division by a zero pressure.
- MoveHistory.History.GetLastStep: requires that the cell does not first occur at index 14. There the curve is evaluated at 15 and takes the falling branch, (+inf - 15) / (+inf - +inf) + 1, which is NaN. `NeighboursScored` proves that a robot's four neighbours never hit this case.
- Fuzzification.Membership: requires `Defined`, which rules out a falling branch with an infinite c or d, or with c == d. The code then yields NaN or an infinity, except for a finite c with d = +inf, where it yields (c - v) / +inf + 1 = 1. No curve of the program has that shape.
- Grid.Field.constructor: takes natural sizes. `new bool[x, y]` throws for a negative size, and the model does not represent that exception.
- Fuzzification.CoefficientsPartition: the exact sum of 1 covers [-3.14, 3.14], but `Math.Atan2(0, dy)` with dy < 0 is pi, which is above 3.14. That is the bearing of every obstacle straight above the robot, such as the border point (x, -1). There the top share is 1 - (pi - 3.14) / 1.57, about 0.999, and the shares sum to less than 1 (`BeyondUp`). The model's bearings come from the `Sensor` parameter, so it does not tie pi to that case. `CardinalBearings`' "3.14 is all top" likewise holds at 3.14, not at pi.
- Robots.GetPriorityDirection: requires a recency degree of at least 0, as every degree `GetLastStep` yields is.
- Grid.Field.SetObstacle: requires an in-grid cell. The source throws outside the grid. The same holds for `IsObstacle`.
- Robots.Robot.constructor: requires a field whose array matches its dimensions.
