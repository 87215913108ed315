/** The robot's move history (`HistoryStepsFuzzy`): the last fifteen
    positions it moved to, oldest first, and a recency degree per cell. */
module MoveHistory {
  import opened Fuzzification
  import opened Grid

  const MaxHistoryLength := 15

  /** The recency curve (0, 15, +inf, +inf): n / 15 for 0 <= n < 15, NaN
      at 15 (the falling branch divides by +inf - +inf), 1 above 15. */
  const HistoryCurve := Trapezoid(0.0, MaxHistoryLength as real, PlusInfinity, PlusInfinity)

  /** `List.IndexOf`: the position of the first occurrence of p, -1 when p
      is absent (`IndexOfFirst` states that no earlier entry is p). */
  function IndexOf(s: seq<Cell>, p: Cell): (i: int)
    ensures -1 <= i < |s|
    ensures i == -1 <==> p !in s
    ensures 0 <= i ==> s[i] == p
  {
    if s == [] then -1
    else if s[0] == p then 0
    else
      var j := IndexOf(s[1..], p);
      assert s == [s[0]] + s[1..];
      if j == -1 then -1 else j + 1
  }

  /** No entry before the one `IndexOf` finds is p. */
  lemma {:induction false} IndexOfFirst(s: seq<Cell>, p: Cell)
    ensures 0 <= IndexOf(s, p) ==> p !in s[..IndexOf(s, p)]
  {
    if s != [] && s[0] != p {
      IndexOfFirst(s[1..], p);
      var j := IndexOf(s[1..], p);
      assert j != -1 ==> s[..j + 1] == [s[0]] + s[1..][..j];
    }
  }

  /** `IndexOf` finds the first occurrence of p and no other index. */
  lemma FirstOccurrence(s: seq<Cell>, p: Cell, i: int)
    requires 0 <= i < |s| && s[i] == p && p !in s[..i]
    ensures IndexOf(s, p) == i
  {
    IndexOfFirst(s, p);
    var j := IndexOf(s, p);
    InPrefix(s, j, i);
    InPrefix(s, i, j);
  }

  lemma InPrefix(s: seq<Cell>, k: int, n: int)
    requires 0 <= k < |s| && 0 <= n <= |s|
    ensures k < n ==> s[k] in s[..n]
  {
    if k < n {
      assert s[..n][k] == s[k];
    }
  }

  /** The list after `Push(p)`: the oldest entry dropped when the list is
      full, then p appended. */
  function Pushed(s: seq<Cell>, p: Cell): seq<Cell> {
    (if |s| == MaxHistoryLength then s[1..] else s) + [p]
  }

  /** The newest MaxHistoryLength entries of t, in order. */
  function Window(t: seq<Cell>): seq<Cell> {
    if |t| <= MaxHistoryLength then t else t[|t| - MaxHistoryLength..]
  }

  /** The list after pushing each of ps in turn. */
  function PushAll(s: seq<Cell>, ps: seq<Cell>): seq<Cell>
    decreases |ps|
  {
    if ps == [] then s else PushAll(Pushed(s, ps[0]), ps[1..])
  }

  lemma PushedWindow(s: seq<Cell>, p: Cell)
    requires |s| <= MaxHistoryLength
    ensures Pushed(s, p) == Window(s + [p])
  {
    if |s| == MaxHistoryLength {
      assert (s + [p])[1..] == s[1..] + [p];
    }
  }

  lemma WindowOfWindow(t: seq<Cell>, u: seq<Cell>)
    ensures Window(Window(t) + u) == Window(t + u)
  {
    if |t| > MaxHistoryLength {
      var k := |t| - MaxHistoryLength;
      var w := t[k..];
      assert Window(t) == w;
      assert t + u == t[..k] + (w + u) by {
        assert t == t[..k] + w;
      }
      DropPrefix(t[..k], w + u, |u|);
      assert Window(t + u) == (t + u)[k + |u|..];
      if u == [] {
        assert w + u == w;
      } else {
        assert Window(w + u) == (w + u)[|u|..];
      }
    }
  }

  lemma DropPrefix(a: seq<Cell>, b: seq<Cell>, j: int)
    requires 0 <= j <= |b|
    ensures (a + b)[|a| + j..] == b[j..]
  {
  }

  /** However many cells are pushed, the history holds exactly the newest
      fifteen of everything pushed, oldest first: first in, first out. */
  lemma {:induction false} PushAllWindow(s: seq<Cell>, ps: seq<Cell>)
    requires |s| <= MaxHistoryLength
    ensures PushAll(s, ps) == Window(s + ps)
    ensures |PushAll(s, ps)| <= MaxHistoryLength
    decreases |ps|
  {
    if ps != [] {
      PushedWindow(s, ps[0]);
      PushAllWindow(Pushed(s, ps[0]), ps[1..]);
      WindowOfWindow(s + [ps[0]], ps[1..]);
      assert s + [ps[0]] + ps[1..] == s + ps;
    }
  }

  class History {
    var steps: seq<Cell>

    ghost predicate Valid()
      reads this
    {
      |steps| <= MaxHistoryLength
    }

    constructor ()
      ensures Valid() && steps == []
    {
      steps := [];
    }

    /** Appends (x, y), first evicting the oldest entry when the history is
        full; the older entries keep their order. */
    method Push(x: int, y: int)
      requires Valid()
      modifies this
      ensures Valid()
      ensures steps == Pushed(old(steps), (x, y))
      ensures steps[|steps| - 1] == (x, y)
      ensures |old(steps)| == MaxHistoryLength ==> steps[..|steps| - 1] == old(steps)[1..]
      ensures |old(steps)| < MaxHistoryLength ==> steps[..|steps| - 1] == old(steps)
    {
      if |steps| == MaxHistoryLength {
        steps := steps[1..];
      }
      steps := steps + [(x, y)];
    }

    /** The recency degree of (x, y): 0 for a cell not in the history, and
        (i + 1) / 15 for a cell whose first occurrence is at index i. The
        degree of index 14 would be NaN, hence the precondition. */
    function GetLastStep(x: int, y: int): (r: real)
      reads this
      requires IndexOf(steps, (x, y)) + 1 != MaxHistoryLength
      ensures 0.0 <= r <= 1.0
      ensures (x, y) !in steps ==> r == 0.0
    {
      Membership(HistoryCurve, (IndexOf(steps, (x, y)) + 1) as real)
    }

    /** A cell whose first occurrence is at index i scores (i + 1) / 15. */
    lemma LastStepDegree(p: Cell, i: int)
      requires Valid() && 0 <= i < |steps| && steps[i] == p && p !in steps[..i]
      requires i + 1 != MaxHistoryLength
      ensures IndexOf(steps, p) == i
      ensures GetLastStep(p.0, p.1) == (i + 1) as real / MaxHistoryLength as real
    {
      FirstOccurrence(steps, p, i);
      HistoryDegree(i + 1);
    }

    /** A cell scores strictly less than another exactly when it first
        appears earlier in the history, a cell not in the history counting as
        earliest of all. */
    lemma RecencyOrder(p: Cell, q: Cell)
      requires Valid()
      requires IndexOf(steps, p) + 1 != MaxHistoryLength && IndexOf(steps, q) + 1 != MaxHistoryLength
      ensures GetLastStep(p.0, p.1) < GetLastStep(q.0, q.1) <==> IndexOf(steps, p) < IndexOf(steps, q)
    {
      var i, j := IndexOf(steps, p), IndexOf(steps, q);
      var m := MaxHistoryLength as real;
      HistoryDegree(i + 1);
      HistoryDegree(j + 1);
      if i < j {
        DivMonotone((i + 1) as real, (j + 1) as real, m);
      } else if j < i {
        DivMonotone((j + 1) as real, (i + 1) as real, m);
      }
    }
  }

  /** Below 15 the recency curve is the ramp n / 15. */
  lemma HistoryDegree(n: int)
    requires 0 <= n < MaxHistoryLength
    ensures Defined(HistoryCurve, n as real)
    ensures Membership(HistoryCurve, n as real) == n as real / MaxHistoryLength as real
  {
  }


}
