/** The fuzzy membership curve of `Fuzzyfication` and the fixed curves the
    robot builds from it: closeness to an obstacle (`DistanceToWallFuzzy`) and
    the four bearing coefficients (`ObstacleFuzzyLogic`). */
module Fuzzification {

  /** A breakpoint of a curve: a real number, or positive infinity (the
      history curve uses +inf for its last two breakpoints). */
  datatype Breakpoint = At(r: real) | PlusInfinity

  predicate Below(v: real, p: Breakpoint) { p.PlusInfinity? || v < p.r }

  predicate Above(v: real, p: Breakpoint) { p.At? && v > p.r }

  /** The four breakpoints a, b, c, d a curve is built from. */
  datatype Trapezoid = Trapezoid(a: real, b: real, c: Breakpoint, d: Breakpoint)
  {
    /** a <= b <= c < d, where an infinite d needs nothing of c. */
    predicate Shaped() {
      a <= b && (c.At? ==> b <= c.r) && (d.At? ==> c.At? && c.r < d.r)
    }
  }

  /** The four branches of the curve, tested in the order the curve tests them. */
  datatype Region = Outside | Plateau | Rising | Falling

  function RegionOf(t: Trapezoid, v: real): Region {
    if v < t.a || Above(v, t.d) then Outside
    else if v > t.b && Below(v, t.c) then Plateau
    else if v < t.b then Rising
    else Falling
  }

  /** Where the model defines the curve. The falling branch divides by
      d - c. With c or d infinite, or with c == d, the code yields NaN or an
      infinity, except for a finite c with d = +inf, where it yields
      (c - v) / +inf + 1 = 1. The model leaves all of these undefined. No
      curve of the program has a finite c with d = +inf; the history curve,
      with c = d = +inf, reaches its falling branch only at 15, where the
      code yields NaN. The rising branch never divides by zero: it is reached only when
      a <= v < b. */
  predicate Defined(t: Trapezoid, v: real) {
    RegionOf(t, v) == Falling ==> t.c.At? && t.d.At? && t.c.r != t.d.r
  }

  /** The membership degree of v. On a shaped curve it lies in [0, 1],
      except at v == b < c, where the falling branch is taken although v has
      not reached c (see `FallingOvershoot`). */
  function Membership(t: Trapezoid, v: real): (m: real)
    requires Defined(t, v)
    ensures v < t.a || Above(v, t.d) ==> m == 0.0
    ensures t.a <= v && !Above(v, t.d) && t.b < v && Below(v, t.c) ==> m == 1.0
    ensures t.Shaped() ==> 0.0 <= m
    ensures t.Shaped() && (v != t.b || t.c == At(t.b)) ==> m <= 1.0
  {
    match RegionOf(t, v)
    case Outside => 0.0
    case Plateau => 1.0
    case Rising =>
      Quotient(v - t.a, t.b - t.a);
      (v - t.a) / (t.b - t.a)
    case Falling =>
      FallingBounds(t.c.r, t.d.r, v);
      (t.c.r - v) / (t.d.r - t.c.r) + 1.0
  }

  /** Sign facts about dividing by a positive real. */
  lemma Quotient(n: real, s: real)
    requires s > 0.0
    ensures n <= 0.0 ==> n / s <= 0.0
    ensures n >= 0.0 ==> n / s >= 0.0
    ensures n > 0.0 ==> n / s > 0.0
    ensures n < s ==> n / s < 1.0
    ensures n >= -s ==> n / s >= -1.0
    ensures n == -s ==> n / s == -1.0
  {
    var q := n / s;
    assert q * s == n;
    if q > 0.0 { assert q * s > 0.0; }
    if q < 0.0 { assert q * s < 0.0; }
    if q >= 1.0 { assert q * s >= 1.0 * s; }
    if q < -1.0 { assert q * s < -1.0 * s; }
  }

  /** Dividing by a positive real keeps strict order. */
  lemma DivMonotone(n1: real, n2: real, s: real)
    requires s > 0.0 && n1 < n2
    ensures n1 / s < n2 / s
  {
    var q1, q2 := n1 / s, n2 / s;
    assert q1 * s == n1 && q2 * s == n2;
  }

  /** Dividing a positive real by a larger positive real gives less. */
  lemma DivAntitone(n: real, s1: real, s2: real)
    requires n > 0.0 && 0.0 < s1 < s2
    ensures n / s1 > n / s2
  {
    var q1, q2 := n / s1, n / s2;
    assert q1 * s1 == n && q2 * s2 == n;
    assert q2 > 0.0 by { Quotient(n, s2); }
    assert q2 * s1 < q2 * s2;
  }

  /** The falling ramp stays in [0, 1] between c and d. */
  lemma FallingBounds(c: real, d: real, v: real)
    requires c != d
    ensures c < d && c <= v <= d ==> 0.0 <= (c - v) / (d - c) + 1.0 <= 1.0
  {
    if c < d && c <= v <= d {
      Quotient(c - v, d - c);
    }
  }

  /** The rising ramp is strictly increasing on [a, b). */
  lemma RisingIncreases(t: Trapezoid, v: real, w: real)
    requires t.a <= v < w < t.b && !Above(w, t.d)
    ensures Defined(t, v) && Defined(t, w)
    ensures Membership(t, v) < Membership(t, w)
    ensures v == t.a ==> Membership(t, v) == 0.0
  {
    DivMonotone(v - t.a, w - t.a, t.b - t.a);
  }

  /** The falling ramp is strictly decreasing on [max(b, c), d], from 1 at
      c (when c >= b) to 0 at d. */
  lemma FallingDecreases(t: Trapezoid, v: real, w: real)
    requires t.Shaped() && t.c.At? && t.d.At?
    requires t.b <= v && t.c.r <= v < w <= t.d.r
    ensures Defined(t, v) && Defined(t, w)
    ensures Membership(t, v) > Membership(t, w)
    ensures v == t.c.r ==> Membership(t, v) == 1.0
    ensures w == t.d.r ==> Membership(t, w) == 0.0
  {
    DivMonotone(t.c.r - w, t.c.r - v, t.d.r - t.c.r);
    Quotient(t.c.r - w, t.d.r - t.c.r);
  }

  /** At v == b < c the curve takes the falling branch and yields
      1 + (c - b) / (d - c), which is more than 1. */
  lemma FallingOvershoot(t: Trapezoid)
    requires t.Shaped() && t.c.At? && t.d.At? && t.b < t.c.r
    ensures Defined(t, t.b)
    ensures Membership(t, t.b) == 1.0 + (t.c.r - t.b) / (t.d.r - t.c.r)
    ensures Membership(t, t.b) > 1.0
  {
    var q := (t.c.r - t.b) / (t.d.r - t.c.r);
    assert q * (t.d.r - t.c.r) == t.c.r - t.b;
    Quotient(t.c.r - t.b, t.d.r - t.c.r);
  }

  // ---------------------------------------------------------------------
  // Closeness to an obstacle

  /** The `Close` curve: touching at distance 0, far from distance 5 on. */
  const Close := Trapezoid(0.0, 0.0, At(1.0), At(5.0))

  function GetDistanceToWall(dist: real): (m: real)
    ensures 0.0 <= m <= 1.25
    ensures dist < 0.0 || dist >= 5.0 ==> m == 0.0
    ensures 0.0 < dist <= 1.0 ==> m == 1.0
  {
    assert Close.Shaped();
    FallingBounds(1.0, 5.0, dist);
    Membership(Close, dist)
  }

  /** The distance curve as it is written: 1.25 at distance 0 (the overshoot
      at v == b < c), 1 at distance 1, 0 at distance 5, and strictly
      decreasing in between. */
  lemma CloseProfile(v: real, w: real)
    requires 1.0 <= v < w <= 5.0
    ensures GetDistanceToWall(0.0) == 1.25
    ensures GetDistanceToWall(v) > GetDistanceToWall(w)
  {
    FallingOvershoot(Close);
    FallingDecreases(Close, v, w);
  }

  /** The closeness degree exceeds 0.999, the threshold at which the robot
      amplifies it, exactly for distances in [0, 1.004). */
  lemma CloseThreshold(dist: real)
    ensures GetDistanceToWall(dist) > 0.999 <==> 0.0 <= dist < 1.004
  {
    if 1.0 <= dist <= 5.0 {
      var q := (1.0 - dist) / 4.0;
      assert q * 4.0 == 1.0 - dist;
    }
  }

  // ---------------------------------------------------------------------
  // Bearing coefficients

  /** The four bearing curves, named as in the source. The bearing is
      atan2(dx, dy), so angle 0 is straight down (+y) and the curve named
      `Top` is the one peaking there. */
  const TopCurve := Trapezoid(-1.57, 0.0, At(0.0), At(1.57))
  const RightCurve := Trapezoid(0.0, 1.57, At(1.57), At(3.14))
  const BottomCurve := Trapezoid(1.57, 3.14, At(3.14), At(4.71))
  const LeftCurve := Trapezoid(-3.14, -1.57, At(-1.57), At(0.0))

  /** Share of an obstacle at this bearing that presses on the top side:
      the `Bottom` curve, over the angle shifted into [0, 2*3.14). */
  function GetCoefficientTop(angle: real): (k: real)
    ensures 0.0 <= k <= 1.0
  {
    assert BottomCurve.Shaped();
    Membership(BottomCurve, if angle >= 0.0 then angle else angle + 6.28)
  }

  function GetCoefficientRight(angle: real): (k: real)
    ensures 0.0 <= k <= 1.0
  {
    assert RightCurve.Shaped();
    Membership(RightCurve, angle)
  }

  /** Share pressing on the bottom side: the `Top` curve. */
  function GetCoefficientBottom(angle: real): (k: real)
    ensures 0.0 <= k <= 1.0
  {
    assert TopCurve.Shaped();
    Membership(TopCurve, angle)
  }

  function GetCoefficientLeft(angle: real): (k: real)
    ensures 0.0 <= k <= 1.0
  {
    assert LeftCurve.Shaped();
    Membership(LeftCurve, angle)
  }

  function CoefficientSum(angle: real): real {
    GetCoefficientTop(angle) + GetCoefficientRight(angle) + GetCoefficientBottom(angle) + GetCoefficientLeft(angle)
  }

  /** The four coefficients split a bearing completely between two
      neighbouring sides exactly when it is in [-3.14, 3.14], and never add
      up to more than 1. */
  lemma CoefficientsPartition(angle: real)
    ensures 0.0 <= CoefficientSum(angle) <= 1.0
    ensures CoefficientSum(angle) == 1.0 <==> -3.14 <= angle <= 3.14
  {
    if angle < -3.14 {
      BeyondUp(angle);
    } else if angle <= -1.57 {
      UpperLeft(angle);
    } else if angle <= 0.0 {
      LowerLeft(angle);
    } else if angle <= 1.57 {
      LowerRight(angle);
    } else if angle <= 3.14 {
      UpperRight(angle);
    } else {
      BeyondUp(angle);
    }
  }

  /** Between straight up and straight left only top and left share. */
  lemma UpperLeft(angle: real)
    requires -3.14 <= angle <= -1.57
    ensures GetCoefficientRight(angle) == 0.0 && GetCoefficientBottom(angle) == 0.0
    ensures GetCoefficientTop(angle) + GetCoefficientLeft(angle) == 1.0
  {
    assert GetCoefficientTop(angle) == (3.14 - (angle + 6.28)) / 1.57 + 1.0;
    assert GetCoefficientLeft(angle) == (angle + 3.14) / 1.57;
  }

  /** Between straight left and straight down only left and bottom share. */
  lemma LowerLeft(angle: real)
    requires -1.57 <= angle <= 0.0
    ensures GetCoefficientTop(angle) == 0.0 && GetCoefficientRight(angle) == 0.0
    ensures GetCoefficientBottom(angle) + GetCoefficientLeft(angle) == 1.0
  {
    assert GetCoefficientBottom(angle) == (angle + 1.57) / 1.57;
    assert GetCoefficientLeft(angle) == (-1.57 - angle) / 1.57 + 1.0;
  }

  /** Between straight down and straight right only bottom and right share. */
  lemma LowerRight(angle: real)
    requires 0.0 <= angle <= 1.57
    ensures GetCoefficientTop(angle) == 0.0 && GetCoefficientLeft(angle) == 0.0
    ensures GetCoefficientBottom(angle) + GetCoefficientRight(angle) == 1.0
  {
    assert GetCoefficientBottom(angle) == (0.0 - angle) / 1.57 + 1.0;
    assert GetCoefficientRight(angle) == angle / 1.57;
  }

  /** Between straight right and straight up only right and top share. */
  lemma UpperRight(angle: real)
    requires 1.57 <= angle <= 3.14
    ensures GetCoefficientBottom(angle) == 0.0 && GetCoefficientLeft(angle) == 0.0
    ensures GetCoefficientRight(angle) + GetCoefficientTop(angle) == 1.0
  {
    assert GetCoefficientRight(angle) == (1.57 - angle) / 1.57 + 1.0;
    assert GetCoefficientTop(angle) == (angle - 1.57) / 1.57;
  }

  /** Outside [-3.14, 3.14] only the top coefficient can be non-zero, and
      it stays below 1, so the shares fall short of a whole. atan2 does reach
      this range: straight up (dx == 0, dy < 0) its bearing is pi. */
  lemma BeyondUp(angle: real)
    requires angle < -3.14 || angle > 3.14
    ensures GetCoefficientRight(angle) == 0.0 && GetCoefficientBottom(angle) == 0.0
    ensures GetCoefficientLeft(angle) == 0.0
    ensures GetCoefficientTop(angle) < 1.0
    ensures -4.71 < angle < -3.14 || 3.14 < angle < 4.71 ==> GetCoefficientTop(angle) > 0.0
  {
    if angle > 3.14 && angle <= 4.71 {
      Quotient(3.14 - angle, 1.57);
      Quotient(4.71 - angle, 1.57);
      assert GetCoefficientTop(angle) == (3.14 - angle) / 1.57 + 1.0;
    } else if -4.71 <= angle < -3.14 {
      Quotient(angle + 6.28 - 1.57, 1.57);
      assert GetCoefficientTop(angle) == (angle + 6.28 - 1.57) / 1.57;
    }
  }

  /** Each side's coefficient is 1 at the bearing that points straight at it. */
  lemma CardinalBearings()
    ensures GetCoefficientBottom(0.0) == 1.0 && GetCoefficientRight(0.0) == 0.0
    ensures GetCoefficientLeft(0.0) == 0.0 && GetCoefficientTop(0.0) == 0.0
    ensures GetCoefficientRight(1.57) == 1.0 && GetCoefficientBottom(1.57) == 0.0
    ensures GetCoefficientTop(3.14) == 1.0 && GetCoefficientTop(-3.14) == 1.0
    ensures GetCoefficientRight(3.14) == 0.0 && GetCoefficientLeft(-3.14) == 0.0
    ensures GetCoefficientLeft(-1.57) == 1.0 && GetCoefficientBottom(-1.57) == 0.0
  {
  }
}
