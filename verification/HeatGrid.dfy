/**
 * The heat relaxation as mathematics: a plate is a grid of exact reals, one state is one Jacobi
 * step of the discrete heat equation, and the simulation stops at the first state whose cells all
 * changed by at most epsilon. Every program variant is proved against these definitions.
 */
module HeatGrid {
  import opened Arith

  type Grid = seq<seq<real>>

  predicate Rect(g: Grid, rows: nat, cols: nat) {
    |g| == rows && forall r :: 0 <= r < rows ==> |g[r]| == cols
  }

  predicate Interior(rows: nat, cols: nat, r: int, c: int) {
    1 <= r < rows - 1 && 1 <= c < cols - 1
  }

  /** The heat equation for one cell, from its own temperature and those around it. */
  function Stencil(cell: real, top: real, right: real, bottom: real, left: real, mult: real): real {
    (-4.0 * cell + top + right + bottom + left) * mult + cell
  }

  function NextCell(g: Grid, rows: nat, cols: nat, mult: real, r: int, c: int): real
    requires Rect(g, rows, cols) && 0 <= r < rows && 0 <= c < cols
  {
    if Interior(rows, cols, r, c)
    then Stencil(g[r][c], g[r - 1][c], g[r][c + 1], g[r + 1][c], g[r][c - 1], mult)
    else g[r][c]
  }

  /** One state of the simulation: interior cells move, the border is a fixed heat source. */
  function Next(g: Grid, rows: nat, cols: nat, mult: real): (h: Grid)
    requires Rect(g, rows, cols)
    ensures Rect(h, rows, cols)
  {
    seq(rows, r requires 0 <= r < rows => seq(cols, c requires 0 <= c < cols => NextCell(g, rows, cols, mult, r, c)))
  }

  lemma NextCells(g: Grid, rows: nat, cols: nat, mult: real)
    requires Rect(g, rows, cols)
    ensures forall r, c :: 0 <= r < rows && 0 <= c < cols ==>
                             Next(g, rows, cols, mult)[r][c] == NextCell(g, rows, cols, mult, r, c)
    ensures forall r, c :: 0 <= r < rows && 0 <= c < cols && !Interior(rows, cols, r, c) ==>
                             Next(g, rows, cols, mult)[r][c] == g[r][c]
  {
    hide Stencil;
  }

  function State(g: Grid, rows: nat, cols: nat, mult: real, k: nat): (h: Grid)
    requires Rect(g, rows, cols)
    ensures Rect(h, rows, cols)
  {
    if k == 0 then g else Next(State(g, rows, cols, mult, k - 1), rows, cols, mult)
  }

  function Abs(x: real): real {
    if x < 0.0 then -x else x
  }

  /** The distance of a number from zero. */
  lemma AbsIsDistance(x: real)
    ensures Abs(x) >= 0.0 && (Abs(x) == x || Abs(x) == -x)
  {
  }

  /** No interior cell differs by more than `bound`. */
  ghost predicate Within(g: Grid, h: Grid, rows: nat, cols: nat, bound: real)
    requires Rect(g, rows, cols) && Rect(h, rows, cols)
  {
    forall r, c :: Interior(rows, cols, r, c) ==> Abs(h[r][c] - g[r][c]) <= bound
  }

  /** No interior cell has moved up or down by more than `bound`. */
  ghost predicate NoCellMoves(g: Grid, h: Grid, rows: nat, cols: nat, bound: real)
    requires Rect(g, rows, cols) && Rect(h, rows, cols)
  {
    forall r, c :: Interior(rows, cols, r, c) ==> -bound <= h[r][c] - g[r][c] <= bound
  }

  /** The equilibrium test without the distance. */
  lemma WithinMeans(g: Grid, h: Grid, rows: nat, cols: nat, bound: real)
    requires Rect(g, rows, cols) && Rect(h, rows, cols)
    ensures Within(g, h, rows, cols, bound) <==> NoCellMoves(g, h, rows, cols, bound)
  {
    forall r, c | Interior(rows, cols, r, c)
      ensures Abs(h[r][c] - g[r][c]) <= bound <==> -bound <= h[r][c] - g[r][c] <= bound
    {
    }
  }

  function Max(x: real, y: real): real {
    if y > x then y else x
  }

  /** Where a sweep over the columns of one row stops. */
  function EndCol(cols: nat): nat {
    if cols >= 2 then cols - 1 else 1
  }

  /** The biggest change among the interior cells that a row by row sweep visits before (r, c). */
  function BiggestBefore(g: Grid, h: Grid, rows: nat, cols: nat, r: nat, c: nat): real
    requires Rect(g, rows, cols) && Rect(h, rows, cols)
    requires 1 <= r <= rows && 1 <= c <= EndCol(cols) && (r < rows || c == 1)
    decreases r, c
  {
    if c > 1 then Max(BiggestBefore(g, h, rows, cols, r, c - 1), Abs(h[r][c - 1] - g[r][c - 1]))
    else if r > 1 then BiggestBefore(g, h, rows, cols, r - 1, EndCol(cols))
    else 0.0
  }

  /** The biggest change of any interior cell from one state to the next. */
  function BiggestChange(g: Grid, h: Grid, rows: nat, cols: nat): real
    requires Rect(g, rows, cols) && Rect(h, rows, cols) && rows >= 2
  {
    BiggestBefore(g, h, rows, cols, rows - 1, 1)
  }

  lemma BiggestChangeIs(g: Grid, h: Grid, rows: nat, cols: nat)
    requires Rect(g, rows, cols) && Rect(h, rows, cols) && rows >= 2
    ensures BiggestChange(g, h, rows, cols) == BiggestBefore(g, h, rows, cols, rows - 1, 1)
  {
  }

  predicate Visited(cols: nat, r: int, c: int, r': nat, c': nat) {
    1 <= r <= r' && 1 <= c < EndCol(cols) && (r < r' || c < c')
  }

  lemma {:induction false} BiggestBeforeIsMax(g: Grid, h: Grid, rows: nat, cols: nat, r: nat, c: nat)
    requires Rect(g, rows, cols) && Rect(h, rows, cols)
    requires 1 <= r <= rows && 1 <= c <= EndCol(cols) && (r < rows || c == 1)
    ensures BiggestBefore(g, h, rows, cols, r, c) >= 0.0
    ensures forall r', c' :: Visited(cols, r', c', r, c) && r' < rows ==>
                               Abs(h[r'][c'] - g[r'][c']) <= BiggestBefore(g, h, rows, cols, r, c)
    ensures BiggestBefore(g, h, rows, cols, r, c) == 0.0 ||
            exists r', c' :: Visited(cols, r', c', r, c) && r' < rows &&
                             BiggestBefore(g, h, rows, cols, r, c) == Abs(h[r'][c'] - g[r'][c'])
    decreases r, c
  {
    if c > 1 {
      BiggestBeforeIsMax(g, h, rows, cols, r, c - 1);
      assert Visited(cols, r, c - 1, r, c);
      forall r', c' | Visited(cols, r', c', r, c - 1) ensures Visited(cols, r', c', r, c) {}
      forall r', c' | Visited(cols, r', c', r, c) && r' < rows
        ensures Abs(h[r'][c'] - g[r'][c']) <= BiggestBefore(g, h, rows, cols, r, c)
      {
        if r' != r || c' != c - 1 {
          assert Visited(cols, r', c', r, c - 1);
        }
      }
    } else if r > 1 {
      BiggestBeforeIsMax(g, h, rows, cols, r - 1, EndCol(cols));
      forall r', c' | Visited(cols, r', c', r - 1, EndCol(cols)) ensures Visited(cols, r', c', r, c) {}
      forall r', c' | Visited(cols, r', c', r, c) && r' < rows
        ensures Abs(h[r'][c'] - g[r'][c']) <= BiggestBefore(g, h, rows, cols, r, c)
      {
        assert Visited(cols, r', c', r - 1, EndCol(cols));
      }
    }
  }

  /** The serial test (biggest change) and the parallel test (every cell) agree. */
  lemma BiggestChangeWithin(g: Grid, h: Grid, rows: nat, cols: nat, bound: real)
    requires Rect(g, rows, cols) && Rect(h, rows, cols) && rows >= 2
    ensures BiggestChange(g, h, rows, cols) >= 0.0
    ensures BiggestChange(g, h, rows, cols) <= bound <==> 0.0 <= bound && Within(g, h, rows, cols, bound)
  {
    var b := BiggestChange(g, h, rows, cols);
    BiggestBeforeIsMax(g, h, rows, cols, rows - 1, 1);
    forall r, c ensures Interior(rows, cols, r, c) <==> Visited(cols, r, c, rows - 1, 1) {}
    if b <= bound {
      forall r, c | Interior(rows, cols, r, c) ensures Abs(h[r][c] - g[r][c]) <= bound {
        assert Visited(cols, r, c, rows - 1, 1);
      }
    }
    if 0.0 <= bound && Within(g, h, rows, cols, bound) && b != 0.0 {
      var r, c :| Visited(cols, r, c, rows - 1, 1) && r < rows && b == Abs(h[r][c] - g[r][c]);
      assert Interior(rows, cols, r, c);
    }
  }

  /** State `k` (counted from 1) changed no cell by more than epsilon. */
  ghost predicate Settled(g: Grid, rows: nat, cols: nat, mult: real, epsilon: real, k: nat)
    requires Rect(g, rows, cols)
  {
    k > 0 && Within(State(g, rows, cols, mult, k - 1), State(g, rows, cols, mult, k), rows, cols, epsilon)
  }

  /** `k` is the number of states a plate takes to reach equilibrium. */
  ghost predicate FirstSettled(g: Grid, rows: nat, cols: nat, mult: real, epsilon: real, k: nat)
    requires Rect(g, rows, cols)
  {
    && Settled(g, rows, cols, mult, epsilon, k)
    && forall j: nat :: j < k ==> !Settled(g, rows, cols, mult, epsilon, j)
  }

  /** A state is settled exactly when it moves no cell of the one before by more than epsilon. */
  lemma SettledMeans(g: Grid, rows: nat, cols: nat, mult: real, epsilon: real, k: nat)
    requires Rect(g, rows, cols)
    ensures Settled(g, rows, cols, mult, epsilon, k) <==>
            k > 0 &&
            NoCellMoves(State(g, rows, cols, mult, k - 1), State(g, rows, cols, mult, k), rows, cols, epsilon)
  {
    hide State, Within, NoCellMoves;
    if k > 0 {
      WithinMeans(State(g, rows, cols, mult, k - 1), State(g, rows, cols, mult, k), rows, cols, epsilon);
    }
  }

  /** The simulation of the plate ends. */
  ghost predicate Settles(g: Grid, rows: nat, cols: nat, mult: real, epsilon: real)
    requires Rect(g, rows, cols)
  {
    exists k: nat :: Settled(g, rows, cols, mult, epsilon, k)
  }

  /** A plate that settles at all has a first settled state. */
  lemma {:induction false} FirstSettledUpTo(g: Grid, rows: nat, cols: nat, mult: real, epsilon: real, bound: nat)
    returns (k: nat)
    requires Rect(g, rows, cols) && Settled(g, rows, cols, mult, epsilon, bound)
    ensures k <= bound && FirstSettled(g, rows, cols, mult, epsilon, k)
  {
    if j: nat :| j < bound && Settled(g, rows, cols, mult, epsilon, j) {
      k := FirstSettledUpTo(g, rows, cols, mult, epsilon, j);
    } else {
      k := bound;
    }
  }

  // ---- Flat storage: cell (r, c) lives at r * cols + c ----

  function Index(cols: nat, r: nat, c: nat): nat {
    r * cols + c
  }

  lemma IndexInBounds(rows: nat, cols: nat, r: nat, c: nat)
    requires r < rows && c < cols
    ensures Index(cols, r, c) < rows * cols
  {
    var rest := rows - r - 1;
    assert rest * cols >= 0;
    assert rows * cols == (r + 1 + rest) * cols == r * cols + cols + rest * cols;
  }

  /** Two cells never share a flat index. */
  lemma IndexInjective(cols: nat, r: nat, c: nat, r': nat, c': nat)
    requires c < cols && c' < cols && Index(cols, r, c) == Index(cols, r', c')
    ensures r == r' && c == c'
  {
    assert cols * (r - r') == r * cols - r' * cols;
    MultipleIsFar(cols, r - r');
  }

  function At(flat: seq<real>, rows: nat, cols: nat, r: nat, c: nat): real
    requires |flat| == rows * cols && r < rows && c < cols
  {
    IndexInBounds(rows, cols, r, c);
    flat[Index(cols, r, c)]
  }

  function Put(flat: seq<real>, rows: nat, cols: nat, r: nat, c: nat, x: real): (flat': seq<real>)
    requires |flat| == rows * cols && r < rows && c < cols
    ensures |flat'| == |flat|
    ensures At(flat', rows, cols, r, c) == x
    ensures forall r': nat, c': nat :: r' < rows && c' < cols && (r' != r || c' != c) ==>
                                         At(flat', rows, cols, r', c') == At(flat, rows, cols, r', c')
  {
    IndexInBounds(rows, cols, r, c);
    var flat' := flat[Index(cols, r, c) := x];
    assert forall r': nat, c': nat :: r' < rows && c' < cols && (r' != r || c' != c) ==>
                                        At(flat', rows, cols, r', c') == At(flat, rows, cols, r', c') by {
      forall r': nat, c': nat | r' < rows && c' < cols && (r' != r || c' != c)
        ensures At(flat', rows, cols, r', c') == At(flat, rows, cols, r', c')
      {
        IndexInBounds(rows, cols, r', c');
        if Index(cols, r, c) == Index(cols, r', c') {
          IndexInjective(cols, r, c, r', c');
        }
      }
    }
    flat'
  }

  /** The grid that flat storage holds. */
  function Unflatten(flat: seq<real>, rows: nat, cols: nat): (g: Grid)
    requires |flat| == rows * cols
    ensures Rect(g, rows, cols)
  {
    seq(rows, r requires 0 <= r < rows => seq(cols, c requires 0 <= c < cols => At(flat, rows, cols, r, c)))
  }

  /** Two grids of one shape are equal when all their cells are. */
  lemma GridEqual(g: Grid, h: Grid, rows: nat, cols: nat)
    requires Rect(g, rows, cols) && Rect(h, rows, cols)
    requires forall r, c :: 0 <= r < rows && 0 <= c < cols ==> g[r][c] == h[r][c]
    ensures g == h
  {
    forall r | 0 <= r < rows ensures g[r] == h[r] {
      assert |g[r]| == |h[r]| == cols;
    }
  }
}
