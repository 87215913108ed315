/** The robot's decision step (`Robot`): sum the fuzzy pressure of every
    obstacle on each of the four sides, weigh each side by the standing
    direction bias, that pressure and how recently its neighbour cell was
    visited, and move one cell towards the heaviest side. */
module Robots {
  import opened Fuzzification
  import opened Grid
  import opened MoveHistory

  /** The four moves, numbered as the `Side` constants. */
  datatype Direction = Top | Right | Bottom | Left
  {
    function Side(): int {
      match this
      case Top => 0
      case Right => 1
      case Bottom => 2
      case Left => 3
    }

    function Opposite(): Direction {
      match this
      case Top => Bottom
      case Right => Left
      case Bottom => Top
      case Left => Right
    }
  }

  /** The neighbour of p in direction d; y grows downwards, so Top is y - 1.
      Exactly one coordinate changes, by one. */
  function Step(p: Cell, d: Direction): (q: Cell)
    ensures (q.0 == p.0 && (q.1 == p.1 - 1 || q.1 == p.1 + 1)) || (q.1 == p.1 && (q.0 == p.0 - 1 || q.0 == p.0 + 1))
  {
    match d
    case Top => (p.0, p.1 - 1)
    case Right => (p.0 + 1, p.1)
    case Bottom => (p.0, p.1 + 1)
    case Left => (p.0 - 1, p.1)
  }

  /** One value per side, in the order top, right, bottom, left. */
  datatype Quad<T> = Quad(top: T, right: T, bottom: T, left: T)
  {
    function Get(d: Direction): T {
      match d
      case Top => top
      case Right => right
      case Bottom => bottom
      case Left => left
    }
  }

  // ---------------------------------------------------------------------
  // Obstacle pressure

  /** What the robot measures of one obstacle: its distance and its bearing
      atan2(dx, dy). */
  datatype Reading = Reading(dist: real, dir: real)

  /** The measurement of an obstacle at displacement (dx, dy) from the robot
      (`Math.Sqrt`, `Math.Pow` and `Math.Atan2` in the source). */
  type Sensor = (int, int) -> Reading

  /** One reading per obstacle, in the enumeration's order. */
  function GetFieldStatus(obstacles: seq<Cell>, pos: Cell, sensor: Sensor): (rs: seq<Reading>)
    ensures |rs| == |obstacles|
    ensures forall i :: 0 <= i < |obstacles| ==> rs[i] == sensor(obstacles[i].0 - pos.0, obstacles[i].1 - pos.1)
  {
    seq(|obstacles|, i requires 0 <= i < |obstacles| => sensor(obstacles[i].0 - pos.0, obstacles[i].1 - pos.1))
  }

  /** The closeness degree of an obstacle, multiplied by 10000 when it is
      above 0.999: that is, exactly when the distance is in [0, 1.004). */
  function Proximity(dist: real): (p: real)
    ensures p >= 0.0
    ensures 0.0 <= dist < 1.004 ==> p >= 9990.0
    ensures !(0.0 <= dist < 1.004) ==> p == GetDistanceToWall(dist) <= 0.999
  {
    CloseThreshold(dist);
    var proximity := GetDistanceToWall(dist);
    if proximity > 0.999 then proximity * 10000.0 else proximity
  }

  /** The bearing coefficient of side d. */
  function Coefficient(d: Direction, angle: real): (k: real)
    ensures 0.0 <= k <= 1.0
  {
    match d
    case Top => GetCoefficientTop(angle)
    case Right => GetCoefficientRight(angle)
    case Bottom => GetCoefficientBottom(angle)
    case Left => GetCoefficientLeft(angle)
  }

  lemma CoefficientSides(angle: real)
    ensures Coefficient(Top, angle) == GetCoefficientTop(angle)
    ensures Coefficient(Right, angle) == GetCoefficientRight(angle)
    ensures Coefficient(Bottom, angle) == GetCoefficientBottom(angle)
    ensures Coefficient(Left, angle) == GetCoefficientLeft(angle)
  {
  }

  /** The share of side d's pressure one obstacle adds: its proximity
      times its bearing coefficient for that side, never negative. */
  function Contribution(r: Reading, d: Direction): (c: real)
    ensures c >= 0.0
  {
    Scaled(Proximity(r.dist), Coefficient(d, r.dir))
  }

  /** p scaled by the share k. */
  function Scaled(p: real, k: real): (c: real)
    requires p >= 0.0 && k >= 0.0
    ensures c >= 0.0
    ensures c == 0.0 <==> p == 0.0 || k == 0.0
  {
    if p == 0.0 || k == 0.0 then 0.0 else Positive(p, k); p * k
  }

  lemma Positive(p: real, k: real)
    requires p > 0.0 && k > 0.0
    ensures p * k > 0.0
  {
  }

  /** An obstacle adds nothing to a side exactly when it is far (its
      closeness degree is 0) or its bearing gives that side no share. */
  lemma ContributionZero(r: Reading, d: Direction)
    ensures Contribution(r, d) == 0.0 <==> GetDistanceToWall(r.dist) == 0.0 || Coefficient(d, r.dir) == 0.0
  {
    assert Proximity(r.dist) == 0.0 <==> GetDistanceToWall(r.dist) == 0.0;
  }

  /** Side d's running sum after the readings rs, starting from init. */
  function Pressure(init: real, rs: seq<Reading>, d: Direction): real
    decreases |rs|
  {
    if rs == [] then init else Pressure(init, rs[..|rs| - 1], d) + Contribution(rs[|rs| - 1], d)
  }

  /** The four running sums, one per side. */
  function Accumulate(init: Quad<real>, rs: seq<Reading>): Quad<real> {
    Quad(Pressure(init.top, rs, Top), Pressure(init.right, rs, Right),
         Pressure(init.bottom, rs, Bottom), Pressure(init.left, rs, Left))
  }

  /** One more reading adds its contribution to the running sum. */
  lemma PressureSnoc(init: real, rs: seq<Reading>, i: int, d: Direction)
    requires 0 <= i < |rs|
    ensures Pressure(init, rs[..i + 1], d) == Pressure(init, rs[..i], d) + Contribution(rs[i], d)
  {
    assert rs[..i + 1][..i] == rs[..i];
  }

  /** The contribution is the proximity p times the coefficient k. */
  lemma ContributionProduct(r: Reading, d: Direction, p: real, k: real)
    requires p == Proximity(r.dist) && k == Coefficient(d, r.dir)
    ensures Contribution(r, d) == p * k
  {
    assert Contribution(r, d) == Scaled(p, k);
    ScaledProduct(p, k);
  }

  lemma ScaledProduct(p: real, k: real)
    requires p >= 0.0 && k >= 0.0
    ensures Scaled(p, k) == p * k
  {
  }

  /** The loop step: adding proximity p times coefficient k to the sum of
      the first i readings gives the sum of the first i + 1. */
  lemma PressureStep(acc: real, init: real, rs: seq<Reading>, i: int, d: Direction, p: real, k: real)
    requires 0 <= i < |rs| && acc == Pressure(init, rs[..i], d)
    requires p == Proximity(rs[i].dist) && k == Coefficient(d, rs[i].dir)
    ensures acc + p * k == Pressure(init, rs[..i + 1], d)
  {
    PressureSnoc(init, rs, i, d);
    ContributionProduct(rs[i], d, p, k);
  }

  /** No obstacle lowers a pressure: each side's sum is at least its start
      plus any one obstacle's share, and it stays at its start exactly when
      no obstacle presses on that side. */
  lemma {:induction false} PressureBounds(init: real, rs: seq<Reading>, d: Direction)
    ensures Pressure(init, rs, d) >= init
    ensures forall i :: 0 <= i < |rs| ==> Pressure(init, rs, d) >= init + Contribution(rs[i], d)
    ensures Pressure(init, rs, d) == init <==> forall i :: 0 <= i < |rs| ==> Contribution(rs[i], d) == 0.0
    decreases |rs|
  {
    if rs != [] {
      var front := rs[..|rs| - 1];
      PressureBounds(init, front, d);
      assert forall i :: 0 <= i < |front| ==> rs[i] == front[i];
    }
  }

  /** An obstacle touching the robot's cell or next to it (distance below
      1.004) is amplified: it adds at least 9990 times its bearing share. */
  lemma TouchingObstacle(init: real, rs: seq<Reading>, i: int, d: Direction)
    requires 0 <= i < |rs| && 0.0 <= rs[i].dist < 1.004
    ensures Pressure(init, rs, d) >= init + 9990.0 * Coefficient(d, rs[i].dir)
  {
    PressureBounds(init, rs, d);
    AmplifiedShare(rs[i], d);
  }

  lemma AmplifiedShare(r: Reading, d: Direction)
    requires 0.0 <= r.dist < 1.004
    ensures Contribution(r, d) >= 9990.0 * Coefficient(d, r.dir)
  {
    var p, k := Proximity(r.dist), Coefficient(d, r.dir);
    ContributionProduct(r, d, p, k);
    ProductBound(Contribution(r, d), p, k);
  }

  lemma ProductBound(c: real, p: real, k: real)
    requires p >= 9990.0 && k >= 0.0 && c == p * k
    ensures c >= 9990.0 * k
  {
    ScaleUp(p, 9990.0, k);
  }

  lemma ScaleUp(p: real, q: real, k: real)
    requires p >= q && k >= 0.0
    ensures p * k >= q * k
  {
  }

  /** An obstacle measured at a Euclidean distance is amplified exactly
      when it is on the robot's own cell or shares an edge with it. */
  lemma AmplifiedWhenAdjacent(dx: int, dy: int, dist: real)
    requires dist >= 0.0 && dist * dist == (dx * dx + dy * dy) as real
    ensures Proximity(dist) >= 9990.0 <==> dx * dx + dy * dy <= 1
  {
    var n := dx * dx + dy * dy;
    if n <= 1 {
      if dist > 1.0 {
        ScaleUp(dist, 1.0, dist);
        ScaleUp(dist, 1.0, 1.0);
      }
    } else if dist < 1.004 {
      ScaleUp(1.004, dist, dist);
      ScaleUp(1.004, dist, 1.004);
    }
  }

  // ---------------------------------------------------------------------
  // Weights and the choice of move

  /** How much a move is worth: a real number, or +inf when nothing presses
      on that side (a division by a zero pressure). */
  datatype Weight = Finite(value: real) | Unbounded

  predicate AtLeast(a: Weight, b: Weight) {
    a.Unbounded? || (b.Finite? && a.value >= b.value)
  }

  /** `Math.Max`. */
  function Max(a: Weight, b: Weight): (m: Weight)
    ensures (m == a || m == b) && AtLeast(m, a) && AtLeast(m, b)
  {
    if AtLeast(a, b) then a else b
  }

  /** 2 towards the standing direction, 1 away from it, 1.5 across it. */
  function BiasFactor(priority: Direction, toward: Direction, behind: Direction): (f: real)
    ensures 1.0 <= f <= 2.0
  {
    if priority == toward then 2.0 else if priority == behind then 1.0 else 1.5
  }

  /** The weight of moving toward `toward`: the bias factor divided by the
      pressure on that side and by 0.1 plus the neighbour's recency degree.
      A zero pressure gives +inf; a positive one a positive real. */
  function GetPriorityDirection(priority: Direction, toward: Direction, behind: Direction,
                                obstruction: real, recency: real): (w: Weight)
    requires 0.0 <= recency
    ensures w.Unbounded? <==> obstruction == 0.0
    ensures obstruction > 0.0 ==> w.Finite? && w.value > 0.0
  {
    if obstruction == 0.0 then Unbounded
    else
      var f := BiasFactor(priority, toward, behind);
      assert obstruction > 0.0 ==> f / obstruction / (0.1 + recency) > 0.0 by {
        if obstruction > 0.0 {
          Quotient(f, obstruction);
          Quotient(f / obstruction, 0.1 + recency);
        }
      }
      Finite(f / obstruction / (0.1 + recency))
  }

  /** A larger numerator over a smaller positive denominator gives a larger
      quotient, strictly so when either comparison is strict. */
  lemma RatioOrder(n1: real, n2: real, s1: real, s2: real)
    requires 0.0 < n2 <= n1 && 0.0 < s1 <= s2
    ensures n1 / s1 >= n2 / s2
    ensures n1 > n2 || s1 < s2 ==> n1 / s1 > n2 / s2
  {
    if n1 > n2 { DivMonotone(n2, n1, s1); }
    if s1 < s2 { DivAntitone(n2, s1, s2); }
  }

  /** A move's weight grows with its bias factor and falls with its
      pressure and its recency degree. */
  lemma WeightOrder(priority: Direction, t1: Direction, b1: Direction, t2: Direction, b2: Direction,
                    o1: real, o2: real, r1: real, r2: real)
    requires 0.0 < o1 <= o2 && 0.0 <= r1 <= r2
    requires BiasFactor(priority, t1, b1) >= BiasFactor(priority, t2, b2)
    requires BiasFactor(priority, t1, b1) > BiasFactor(priority, t2, b2) || o1 < o2 || r1 < r2
    ensures GetPriorityDirection(priority, t1, b1, o1, r1).value > GetPriorityDirection(priority, t2, b2, o2, r2).value
  {
    var f1, f2 := BiasFactor(priority, t1, b1), BiasFactor(priority, t2, b2);
    RatioOrder(f1, f2, o1, o2);
    Quotient(f2, o2);
    RatioOrder(f1 / o1, f2 / o2, 0.1 + r1, 0.1 + r2);
  }

  /** The four weights of one decision step. */
  function Weights(priority: Direction, pressure: Quad<real>, recency: Quad<real>): Quad<Weight>
    requires recency.top >= 0.0 && recency.right >= 0.0 && recency.bottom >= 0.0 && recency.left >= 0.0
  {
    Quad(GetPriorityDirection(priority, Top, Bottom, pressure.top, recency.top),
         GetPriorityDirection(priority, Right, Left, pressure.right, recency.right),
         GetPriorityDirection(priority, Bottom, Top, pressure.bottom, recency.bottom),
         GetPriorityDirection(priority, Left, Right, pressure.left, recency.left))
  }

  /** The move `setNextCoord` picks: a heaviest side, and of the heaviest
      the first of top, right, bottom, left. */
  function ChooseDirection(w: Quad<Weight>): (d: Direction)
    ensures forall e :: AtLeast(w.Get(d), w.Get(e))
    ensures forall e: Direction :: e.Side() < d.Side() ==> !AtLeast(w.Get(e), w.Get(d))
  {
    var maxWeight := Max(Max(w.top, w.right), Max(w.bottom, w.left));
    if maxWeight == w.top then Top
    else if maxWeight == w.right then Right
    else if maxWeight == w.bottom then Bottom
    else Left
  }

  /** The two properties above single the choice out: any side that is
      heaviest and strictly heavier than every side before it is the one
      chosen. */
  lemma ChoiceIsUnique(w: Quad<Weight>, d: Direction)
    requires forall e :: AtLeast(w.Get(d), w.Get(e))
    requires forall e: Direction :: e.Side() < d.Side() ==> !AtLeast(w.Get(e), w.Get(d))
    ensures ChooseDirection(w) == d
  {
    var c := ChooseDirection(w);
    assert AtLeast(w.Get(c), w.Get(d)) && AtLeast(w.Get(d), w.Get(c));
    if c.Side() < d.Side() {
      assert false;
    } else if d.Side() < c.Side() {
      assert false;
    }
  }

  /** When every side has the same positive pressure and the same recency,
      the bias decides: the robot moves in its standing direction. */
  lemma EvenFieldFollowsPriority(priority: Direction, pressure: real, recency: real)
    requires pressure > 0.0 && recency >= 0.0
    ensures ChooseDirection(Weights(priority, Quad(pressure, pressure, pressure, pressure),
                                    Quad(recency, recency, recency, recency))) == priority
  {
    var w := Weights(priority, Quad(pressure, pressure, pressure, pressure), Quad(recency, recency, recency, recency));
    forall e | e != priority ensures !AtLeast(w.Get(e), w.Get(priority)) {
      WeightOrder(priority, priority, priority.Opposite(), e, e.Opposite(), pressure, pressure, recency, recency);
    }
    ChoiceIsUnique(w, priority);
  }

  /** When no side has any pressure every weight is +inf, and the first
      side, top, wins whatever the bias. */
  lemma ClearFieldGoesTop(priority: Direction, recency: Quad<real>)
    requires recency.top >= 0.0 && recency.right >= 0.0 && recency.bottom >= 0.0 && recency.left >= 0.0
    ensures ChooseDirection(Weights(priority, Quad(0.0, 0.0, 0.0, 0.0), recency)) == Top
  {
  }

  // ---------------------------------------------------------------------
  // The robot

  /** In a history of at most fifteen cells whose newest entry is p, only p
      can first occur at index 14, the index whose degree is undefined. */
  lemma OnlyNewestUnscored(s: seq<Cell>, p: Cell, n: Cell)
    requires |s| <= MaxHistoryLength && (s != [] ==> s[|s| - 1] == p) && n != p
    ensures IndexOf(s, n) + 1 != MaxHistoryLength
  {
  }

  class Robot {
    const field: Field
    const historyStep: History
    var priorityDirection: Direction
    var x: int
    var y: int

    /** The history is bounded, and its newest entry, if any, is the
        robot's own position. */
    ghost predicate Valid()
      reads this, historyStep
    {
      field.Valid() && historyStep.Valid() &&
      (historyStep.steps != [] ==> historyStep.steps[|historyStep.steps| - 1] == (x, y))
    }

    constructor (field: Field)
      requires field.Valid()
      ensures Valid() && this.field == field && fresh(historyStep)
      ensures historyStep.steps == [] && priorityDirection == Bottom && x == 0 && y == 0
    {
      this.field := field;
      historyStep := new History();
      priorityDirection := Bottom;
      x, y := 0, 0;
    }

    /** Every neighbour has a recency degree: the one index whose degree is
        undefined is the newest entry, and that is the robot's own cell. */
    lemma NeighboursScored()
      requires Valid()
      ensures IndexOf(historyStep.steps, (x, y - 1)) + 1 != MaxHistoryLength
      ensures IndexOf(historyStep.steps, (x + 1, y)) + 1 != MaxHistoryLength
      ensures IndexOf(historyStep.steps, (x, y + 1)) + 1 != MaxHistoryLength
      ensures IndexOf(historyStep.steps, (x - 1, y)) + 1 != MaxHistoryLength
    {
      var s := historyStep.steps;
      OnlyNewestUnscored(s, (x, y), (x, y - 1));
      OnlyNewestUnscored(s, (x, y), (x + 1, y));
      OnlyNewestUnscored(s, (x, y), (x, y + 1));
      OnlyNewestUnscored(s, (x, y), (x - 1, y));
    }

    /** The recency degrees of the four neighbours, as `Move` reads them. */
    ghost function Recency(): Quad<real>
      reads this, historyStep
      requires Valid()
    {
      NeighboursScored();
      Quad(historyStep.GetLastStep(x, y - 1), historyStep.GetLastStep(x + 1, y),
           historyStep.GetLastStep(x, y + 1), historyStep.GetLastStep(x - 1, y))
    }

    /** The cell the robot has just come from, when it appears nowhere
        earlier in the history, scores higher than any cell but the robot's
        own: of the four neighbours, the move back is the most penalised. */
    lemma ReturnMostPenalised(back: Cell, other: Cell)
      requires Valid() && |historyStep.steps| >= 2
      requires historyStep.steps[|historyStep.steps| - 2] == back
      requires back !in historyStep.steps[..|historyStep.steps| - 2]
      requires other != back && other != (x, y)
      ensures IndexOf(historyStep.steps, back) + 1 != MaxHistoryLength
      ensures IndexOf(historyStep.steps, other) + 1 != MaxHistoryLength
      ensures historyStep.GetLastStep(other.0, other.1) < historyStep.GetLastStep(back.0, back.1)
    {
      var s := historyStep.steps;
      assert IndexOf(s, back) == |s| - 2 by { FirstOccurrence(s, back, |s| - 2); }
      OnlyNewestUnscored(s, (x, y), other);
      assert IndexOf(s, other) < |s| - 2;
      historyStep.RecencyOrder(other, back);
    }

    /** The four sums over every obstacle's reading from the robot's
        position, starting from init. */
    ghost function Collisions(init: Quad<real>, sensor: Sensor): Quad<real>
      reads this, field.obstacles
      requires field.Valid()
    {
      Accumulate(init, GetFieldStatus(field.Obstacles(), (x, y), sensor))
    }

    /** The move one decision step makes. */
    ghost function NextDirection(sensor: Sensor): Direction
      reads this, historyStep, field.obstacles
      requires Valid()
    {
      ChooseDirection(Weights(priorityDirection, Collisions(Quad(0.0, 0.0, 0.0, 0.0), sensor), Recency()))
    }

    /** Pushes the new position into the history (the source also raises
        `MoveEvent` here). */
    method SetCoord(px: int, py: int)
      requires historyStep.Valid()
      modifies historyStep
      ensures historyStep.Valid()
      ensures historyStep.steps == Pushed(old(historyStep.steps), (px, py))
    {
      historyStep.Push(px, py);
    }

    /** Moves one cell towards the heaviest side, ties going to the first of
        top, right, bottom, left, and records the new position. */
    method SetNextCoord(top: Weight, right: Weight, bottom: Weight, left: Weight)
      requires Valid()
      modifies this, historyStep
      ensures Valid()
      ensures priorityDirection == old(priorityDirection)
      ensures (x, y) == Step(old((x, y)), ChooseDirection(Quad(top, right, bottom, left)))
      ensures historyStep.steps == Pushed(old(historyStep.steps), (x, y))
    {
      var maxWeight := Max(Max(top, right), Max(bottom, left));
      if maxWeight == top {
        y := y - 1;
      } else if maxWeight == right {
        x := x + 1;
      } else if maxWeight == bottom {
        y := y + 1;
      } else {
        x := x - 1;
      }
      SetCoord(x, y);
    }

    /** The four running sums over every obstacle's reading: each adds its
        proximity (amplified when touching) times its bearing share. */
    method ProcessObstacleDistancesAndDirections(initialCollisionTop: real, initialCollisionRight: real,
                                                 initialCollisionBottom: real, initialCollisionLeft: real,
                                                 sensor: Sensor)
      returns (collisions: Quad<real>)
      requires field.Valid()
      ensures collisions == Collisions(Quad(initialCollisionTop, initialCollisionRight, initialCollisionBottom, initialCollisionLeft), sensor)
    {
      var collisionTop, collisionRight, collisionBottom, collisionLeft :=
        initialCollisionTop, initialCollisionRight, initialCollisionBottom, initialCollisionLeft;
      var obstacles := field.GetObstacles();
      var status := GetFieldStatus(obstacles, (x, y), sensor);
      for i := 0 to |status|
        invariant collisionTop == Pressure(initialCollisionTop, status[..i], Top)
        invariant collisionRight == Pressure(initialCollisionRight, status[..i], Right)
        invariant collisionBottom == Pressure(initialCollisionBottom, status[..i], Bottom)
        invariant collisionLeft == Pressure(initialCollisionLeft, status[..i], Left)
      {
        var reading := status[i];
        var proximity := GetDistanceToWall(reading.dist);
        if proximity > 0.999 {
          proximity := proximity * 10000.0;
        }
        assert proximity == Proximity(reading.dist);
        var top, right := GetCoefficientTop(reading.dir), GetCoefficientRight(reading.dir);
        var bottom, left := GetCoefficientBottom(reading.dir), GetCoefficientLeft(reading.dir);
        CoefficientSides(reading.dir);
        PressureStep(collisionTop, initialCollisionTop, status, i, Top, proximity, top);
        PressureStep(collisionRight, initialCollisionRight, status, i, Right, proximity, right);
        PressureStep(collisionBottom, initialCollisionBottom, status, i, Bottom, proximity, bottom);
        PressureStep(collisionLeft, initialCollisionLeft, status, i, Left, proximity, left);
        collisionTop := collisionTop + proximity * top;
        collisionRight := collisionRight + proximity * right;
        collisionBottom := collisionBottom + proximity * bottom;
        collisionLeft := collisionLeft + proximity * left;
      }
      assert status[..|status|] == status;
      collisions := Quad(collisionTop, collisionRight, collisionBottom, collisionLeft);
    }

    /** One decision step: score the four neighbours' recency, sum the
        obstacle pressure per side, weigh the sides and move. */
    method Move(sensor: Sensor)
      requires Valid()
      modifies this, historyStep
      ensures Valid()
      ensures priorityDirection == old(priorityDirection)
      ensures (x, y) == Step(old((x, y)), old(NextDirection(sensor)))
      ensures historyStep.steps == Pushed(old(historyStep.steps), (x, y))
    {
      NeighboursScored();
      ghost var next := NextDirection(sensor);
      var lastMoveTop := historyStep.GetLastStep(x, y - 1);
      var lastMoveRight := historyStep.GetLastStep(x + 1, y);
      var lastMoveBottom := historyStep.GetLastStep(x, y + 1);
      var lastMoveLeft := historyStep.GetLastStep(x - 1, y);
      ghost var recency := Quad(lastMoveTop, lastMoveRight, lastMoveBottom, lastMoveLeft);
      assert recency == Recency();

      var result := ProcessObstacleDistancesAndDirections(0.0, 0.0, 0.0, 0.0, sensor);

      var weightTop := GetPriorityDirection(priorityDirection, Top, Bottom, result.top, lastMoveTop);
      var weightRight := GetPriorityDirection(priorityDirection, Right, Left, result.right, lastMoveRight);
      var weightBottom := GetPriorityDirection(priorityDirection, Bottom, Top, result.bottom, lastMoveBottom);
      var weightLeft := GetPriorityDirection(priorityDirection, Left, Right, result.left, lastMoveLeft);
      assert Quad(weightTop, weightRight, weightBottom, weightLeft) == Weights(priorityDirection, result, recency);
      SetNextCoord(weightTop, weightRight, weightBottom, weightLeft);
    }
  }
}
