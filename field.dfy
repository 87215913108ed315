/** The obstacle field: a fixed X by Y grid of obstacle flags, and the
    enumeration of obstacles the robot reacts to, namely the set cells
    followed by a synthetic ring of border points just outside the grid. */
module Grid {

  /** A grid position (x, y); y grows downwards. */
  type Cell = (int, int)

  /** Cell p comes before cell q in x-major, then y, order. */
  predicate Precedes(p: Cell, q: Cell) {
    p.0 < q.0 || (p.0 == q.0 && p.1 < q.1)
  }

  predicate StrictlyOrdered(s: seq<Cell>) {
    forall i, j :: 0 <= i < j < |s| ==> Precedes(s[i], s[j])
  }

  /** A strictly ordered sequence has no repeated cell, so it has as many
      elements as the set of its cells. */
  lemma {:induction false} OrderedCardinality(s: seq<Cell>)
    requires StrictlyOrdered(s)
    ensures |set p | p in s| == |s|
  {
    if s != [] {
      var init, last := s[..|s| - 1], s[|s| - 1];
      assert StrictlyOrdered(init);
      OrderedCardinality(init);
      assert s == init + [last];
      assert last !in init by {
        forall i | 0 <= i < |init| ensures init[i] != last {
          assert Precedes(s[i], s[|s| - 1]);
        }
      }
      assert (set p | p in s) == (set p | p in init) + {last};
    }
  }

  /** Every cell of a precedes every cell of b. */
  predicate AllBefore(a: seq<Cell>, b: seq<Cell>) {
    forall i, j :: 0 <= i < |a| && 0 <= j < |b| ==> Precedes(a[i], b[j])
  }

  /** Two ordered runs, the first wholly before the second, join into one. */
  lemma ConcatOrdered(a: seq<Cell>, b: seq<Cell>)
    requires StrictlyOrdered(a) && StrictlyOrdered(b)
    requires AllBefore(a, b)
    ensures StrictlyOrdered(a + b)
  {
    var s := a + b;
    forall i, j | 0 <= i < j < |s| ensures Precedes(s[i], s[j]) {
      if j < |a| {
        assert s[i] == a[i] && s[j] == a[j];
      } else if i >= |a| {
        assert s[i] == b[i - |a|] && s[j] == b[j - |a|];
      } else {
        assert s[i] == a[i] && s[j] == b[j - |a|];
      }
    }
  }

  class Field {
    const X: nat
    const Y: nat
    const obstacles: array2<bool>

    ghost predicate Valid() {
      obstacles.Length0 == X && obstacles.Length1 == Y
    }

    /** A field with no obstacle set. */
    constructor (x: nat, y: nat)
      ensures Valid() && X == x && Y == y && fresh(obstacles)
      ensures forall i, j :: 0 <= i < x && 0 <= j < y ==> !obstacles[i, j]
    {
      X := x;
      Y := y;
      obstacles := new bool[x, y]((_, _) => false);
    }

    predicate InGrid(p: Cell) {
      0 <= p.0 < X && 0 <= p.1 < Y
    }

    /** Setting a cell changes that cell and no other. */
    method SetObstacle(x: int, y: int, obstacle: bool)
      requires Valid() && InGrid((x, y))
      modifies obstacles
      ensures IsObstacle(x, y) == obstacle
      ensures forall i, j :: 0 <= i < X && 0 <= j < Y && (i, j) != (x, y) ==> obstacles[i, j] == old(obstacles[i, j])
    {
      obstacles[x, y] := obstacle;
    }

    /** The stored flag of an in-grid cell: set exactly when the cell is
        one of the obstacle cells. */
    function IsObstacle(x: int, y: int): (b: bool)
      reads obstacles
      requires Valid() && InGrid((x, y))
      ensures b <==> (x, y) in ObstacleCells()
    {
      obstacles[x, y]
    }

    /** The set cells, as a set. */
    ghost function ObstacleCells(): set<Cell>
      reads obstacles
      requires Valid()
    {
      set i, j | 0 <= i < X && 0 <= j < Y && obstacles[i, j] :: (i, j)
    }

    // -------------------------------------------------------------------
    // Set cells, column by column

    /** The set cells (x, 0) .. (x, m - 1), by increasing y. */
    ghost function Column(x: int, m: int): seq<Cell>
      reads obstacles
      requires Valid() && 0 <= x < X && 0 <= m <= Y
      decreases m
    {
      if m == 0 then [] else Column(x, m - 1) + (if obstacles[x, m - 1] then [(x, m - 1)] else [])
    }

    /** The set cells of columns 0 .. n - 1, column after column. */
    ghost function InnerUpTo(n: int): seq<Cell>
      reads obstacles
      requires Valid() && 0 <= n <= X
      decreases n
    {
      if n == 0 then [] else InnerUpTo(n - 1) + Column(n - 1, Y)
    }

    lemma {:induction false} ColumnContents(x: int, m: int, p: Cell)
      requires Valid() && 0 <= x < X && 0 <= m <= Y
      ensures p in Column(x, m) <==> p.0 == x && 0 <= p.1 < m && obstacles[x, p.1]
      ensures forall q :: q in Column(x, m) ==> q.0 == x && 0 <= q.1 < m
      decreases m
    {
      if m > 0 {
        ColumnContents(x, m - 1, p);
      }
    }

    lemma {:induction false} ColumnOrdered(x: int, m: int)
      requires Valid() && 0 <= x < X && 0 <= m <= Y
      ensures StrictlyOrdered(Column(x, m))
      decreases m
    {
      if m > 0 {
        ColumnOrdered(x, m - 1);
        ColumnContents(x, m - 1, (x, m - 1));
      }
    }

    lemma {:induction false} InnerContents(n: int, p: Cell)
      requires Valid() && 0 <= n <= X
      ensures p in InnerUpTo(n) <==> 0 <= p.0 < n && 0 <= p.1 < Y && obstacles[p.0, p.1]
      decreases n
    {
      if n > 0 {
        InnerContents(n - 1, p);
        ColumnContents(n - 1, Y, p);
      }
    }

    lemma {:induction false} InnerOrdered(n: int)
      requires Valid() && 0 <= n <= X
      ensures StrictlyOrdered(InnerUpTo(n))
      decreases n
    {
      if n > 0 {
        InnerOrdered(n - 1);
        ColumnOrdered(n - 1, Y);
        ColumnsFollow(n);
        ConcatOrdered(InnerUpTo(n - 1), Column(n - 1, Y));
      }
    }

    /** Every cell of column n - 1 comes after every cell of the columns
        before it. */
    lemma ColumnsFollow(n: int)
      requires Valid() && 0 < n <= X
      ensures AllBefore(InnerUpTo(n - 1), Column(n - 1, Y))
    {
      var prefix, col := InnerUpTo(n - 1), Column(n - 1, Y);
      InnerColumnsBefore(n - 1);
      ColumnContents(n - 1, Y, (0, 0));
      forall i | 0 <= i < |prefix| ensures prefix[i].0 < n - 1 {
        assert prefix[i] in prefix;
      }
      forall j | 0 <= j < |col| ensures col[j].0 == n - 1 {
        assert col[j] in col;
      }
    }

    /** The cells of columns 0 .. n - 1 all lie left of column n. */
    lemma {:induction false} InnerColumnsBefore(n: int)
      requires Valid() && 0 <= n <= X
      ensures forall p :: p in InnerUpTo(n) ==> p.0 < n
      decreases n
    {
      if n > 0 {
        var prefix, col := InnerUpTo(n - 1), Column(n - 1, Y);
        InnerColumnsBefore(n - 1);
        ColumnContents(n - 1, Y, (0, 0));
        assert InnerUpTo(n) == prefix + col;
        forall p: Cell | p in prefix + col ensures p.0 < n {
          if p !in prefix {
            assert p in col;
          }
        }
      }
    }

    /** The set cells are yielded exactly once each, in x-major then y
        order: the enumeration holds a cell iff it is in the grid and set,
        and it has as many elements as there are set cells. */
    lemma InnerObstacles(p: Cell)
      requires Valid()
      ensures p in InnerUpTo(X) <==> InGrid(p) && obstacles[p.0, p.1]
      ensures StrictlyOrdered(InnerUpTo(X))
      ensures |InnerUpTo(X)| == |ObstacleCells()|
    {
      InnerContents(X, p);
      InnerOrdered(X);
      OrderedCardinality(InnerUpTo(X));
      assert (set q | q in InnerUpTo(X)) == ObstacleCells() by {
        forall q | q in InnerUpTo(X) ensures q in ObstacleCells() {
          InnerContents(X, q);
        }
        forall q | q in ObstacleCells() ensures q in InnerUpTo(X) {
          InnerContents(X, q);
        }
      }
    }

    /** The nested loops over x, then y, collecting the set cells. */
    method GetInnerObstacles() returns (cells: seq<Cell>)
      requires Valid()
      ensures cells == InnerUpTo(X)
    {
      cells := [];
      for x := 0 to X
        invariant cells == InnerUpTo(x)
      {
        for y := 0 to Y
          invariant cells == InnerUpTo(x) + Column(x, y)
        {
          if obstacles[x, y] {
            cells := cells + [(x, y)];
          }
        }
      }
    }

    // -------------------------------------------------------------------
    // Border points

    /** (0, -1), (0, Y), (1, -1), (1, Y), ... up to column n - 1. */
    function RowBorder(n: int): (r: seq<Cell>)
      requires 0 <= n <= X
      ensures |r| == 2 * n
      decreases n
    {
      if n == 0 then [] else RowBorder(n - 1) + [(n - 1, -1), (n - 1, Y as int)]
    }

    /** (-1, 0), (X, 0), (-1, 1), (X, 1), ... up to row m - 1. */
    function ColumnBorder(m: int): (r: seq<Cell>)
      requires 0 <= m <= Y
      ensures |r| == 2 * m
      decreases m
    {
      if m == 0 then [] else ColumnBorder(m - 1) + [(-1, m - 1), (X as int, m - 1)]
    }

    function BorderPoints(): seq<Cell> {
      RowBorder(X) + ColumnBorder(Y)
    }

    /** The cells just above and below each column and just left and right
        of each row: the ring around the grid without its four corners. */
    predicate OnRing(p: Cell) {
      (0 <= p.0 < X && (p.1 == -1 || p.1 == Y)) || (0 <= p.1 < Y && (p.0 == -1 || p.0 == X))
    }

    lemma {:induction false} RowBorderContents(n: int, p: Cell)
      requires 0 <= n <= X
      ensures p in RowBorder(n) <==> 0 <= p.0 < n && (p.1 == -1 || p.1 == Y)
      decreases n
    {
      if n > 0 {
        RowBorderContents(n - 1, p);
      }
    }

    lemma {:induction false} ColumnBorderContents(m: int, p: Cell)
      requires 0 <= m <= Y
      ensures p in ColumnBorder(m) <==> 0 <= p.1 < m && (p.0 == -1 || p.0 == X)
      decreases m
    {
      if m > 0 {
        ColumnBorderContents(m - 1, p);
      }
    }

    /** The border points are the ring around the grid without its corners:
        2X + 2Y of them, each outside the grid, and (when the grid has a cell)
        exactly the outside points that share an edge with a grid cell. */
    lemma BorderRing(p: Cell)
      ensures p in BorderPoints() <==> OnRing(p)
      ensures |BorderPoints()| == 2 * X + 2 * Y
      ensures p in BorderPoints() ==> !InGrid(p)
      ensures (-1, -1) !in BorderPoints() && (X, -1) !in BorderPoints()
      ensures (-1, Y) !in BorderPoints() && (X, Y) !in BorderPoints()
      ensures X > 0 && Y > 0 ==>
        (p in BorderPoints() <==>
          !InGrid(p) &&
          (InGrid((p.0 + 1, p.1)) || InGrid((p.0 - 1, p.1)) || InGrid((p.0, p.1 + 1)) || InGrid((p.0, p.1 - 1))))
    {
      RowBorderContents(X, p);
      ColumnBorderContents(Y, p);
      RowBorderContents(X, (-1, -1));
      ColumnBorderContents(Y, (-1, -1));
      RowBorderContents(X, (X, -1));
      ColumnBorderContents(Y, (X, -1));
      RowBorderContents(X, (-1, Y));
      ColumnBorderContents(Y, (-1, Y));
      RowBorderContents(X, (X, Y));
      ColumnBorderContents(Y, (X, Y));
    }

    /** The two loops yielding the row border, then the column border. */
    method GetBorderPoints() returns (points: seq<Cell>)
      ensures points == BorderPoints()
    {
      points := [];
      for x := 0 to X
        invariant points == RowBorder(x)
      {
        points := points + [(x, -1)];
        points := points + [(x, Y)];
      }
      for y := 0 to Y
        invariant points == RowBorder(X) + ColumnBorder(y)
      {
        points := points + [(-1, y)];
        points := points + [(X, y)];
      }
    }

    // -------------------------------------------------------------------
    // All obstacles

    /** Everything the robot reacts to: the set cells, then the border. */
    ghost function Obstacles(): seq<Cell>
      reads obstacles
      requires Valid()
    {
      InnerUpTo(X) + BorderPoints()
    }

    method GetObstacles() returns (cells: seq<Cell>)
      requires Valid()
      ensures cells == Obstacles()
    {
      var inner := GetInnerObstacles();
      var border := GetBorderPoints();
      cells := inner + border;
    }

    /** The enumeration has one element per set cell plus 2X + 2Y border
        points, and the set cells come first. */
    lemma ObstaclesLayout()
      requires Valid()
      ensures |Obstacles()| == |ObstacleCells()| + 2 * X + 2 * Y
      ensures forall i :: 0 <= i < |ObstacleCells()| ==> InGrid(Obstacles()[i])
      ensures forall i :: |ObstacleCells()| <= i < |Obstacles()| ==> OnRing(Obstacles()[i])
    {
      InnerObstacles((0, 0));
      BorderRing((0, 0));
      var inner := InnerUpTo(X);
      forall i | 0 <= i < |inner| ensures InGrid(Obstacles()[i]) {
        InnerContents(X, inner[i]);
      }
      forall i | |inner| <= i < |Obstacles()| ensures OnRing(Obstacles()[i]) {
        BorderRing(Obstacles()[i]);
      }
    }
  }
}
