/**
 * Exact equilibrium: with epsilon zero a plate stops only when no cell changes at all. Different non-zero
 * constants then stop on the same plates, those that are steady from the start.
 */
module HeatSteady {
  import opened HeatGrid
  import opened HeatAnalysis

  /** How far the neighbourhood of an interior cell pulls it; the border is not pulled. */
  function Pull(g: Grid, rows: nat, cols: nat, r: nat, c: nat): real
    requires Rect(g, rows, cols) && r < rows && c < cols
  {
    if Interior(rows, cols, r, c) then -4.0 * g[r][c] + g[r - 1][c] + g[r][c + 1] + g[r + 1][c] + g[r][c - 1] else 0.0
  }

  function Pulls(g: Grid, rows: nat, cols: nat): (h: Grid)
    requires Rect(g, rows, cols)
    ensures Rect(h, rows, cols)
    ensures forall r, c :: 0 <= r < rows && 0 <= c < cols ==> h[r][c] == Pull(g, rows, cols, r, c)
  {
    seq(rows, r requires 0 <= r < rows => seq(cols, c requires 0 <= c < cols => Pull(g, rows, cols, r, c)))
  }

  /** No cell is pulled. */
  ghost predicate Steady(g: Grid, rows: nat, cols: nat)
    requires Rect(g, rows, cols)
  {
    forall r, c :: 0 <= r < rows && 0 <= c < cols ==> Pull(g, rows, cols, r, c) == 0.0
  }

  lemma NextIsPulled(g: Grid, rows: nat, cols: nat, mult: real, r: nat, c: nat)
    requires Rect(g, rows, cols) && r < rows && c < cols
    ensures Next(g, rows, cols, mult)[r][c] == g[r][c] + mult * Pull(g, rows, cols, r, c)
  {
    NextCells(g, rows, cols, mult);
  }

  lemma Distributes(mult: real, x: real, t: real, r: real, b: real, l: real)
    ensures -4.0 * (mult * x) + mult * t + mult * r + mult * b + mult * l == mult * (-4.0 * x + t + r + b + l)
  {
    assert mult * (-4.0 * x + (t + r + b + l)) == mult * (-4.0 * x) + mult * (t + r + b + l);
    assert mult * (-4.0 * x) == -4.0 * (mult * x);
  }

  /** The pull is linear. */
  lemma PullOfNext(g: Grid, rows: nat, cols: nat, mult: real, r: nat, c: nat)
    requires Rect(g, rows, cols) && r < rows && c < cols
    ensures Pull(Next(g, rows, cols, mult), rows, cols, r, c)
            == Pull(g, rows, cols, r, c) + mult * Pull(Pulls(g, rows, cols), rows, cols, r, c)
  {
    hide Next, Pulls;
    if Interior(rows, cols, r, c) {
      var p := Pulls(g, rows, cols);
      NextIsPulled(g, rows, cols, mult, r, c);
      NextIsPulled(g, rows, cols, mult, r - 1, c);
      NextIsPulled(g, rows, cols, mult, r, c + 1);
      NextIsPulled(g, rows, cols, mult, r + 1, c);
      NextIsPulled(g, rows, cols, mult, r, c - 1);
      Distributes(mult, p[r][c], p[r - 1][c], p[r][c + 1], p[r + 1][c], p[r][c - 1]);
    }
  }

  lemma PullsCommute(x: real, p: real, q: real, m: real, m': real)
    ensures (x + m * p) + m' * (p + m * q) == (x + m' * p) + m * (p + m' * q)
  {
    assert m' * (p + m * q) == m' * p + m' * (m * q);
    assert m * (p + m' * q) == m * p + m * (m' * q);
    assert m' * (m * q) == m * (m' * q);
  }

  /** Steps with different constants commute. */
  lemma NextsCommute(g: Grid, rows: nat, cols: nat, m: real, m': real)
    requires Rect(g, rows, cols)
    ensures Next(Next(g, rows, cols, m), rows, cols, m') == Next(Next(g, rows, cols, m'), rows, cols, m)
  {
    hide Next, Pull, Pulls;
    var h, h' := Next(g, rows, cols, m), Next(g, rows, cols, m');
    forall r, c | 0 <= r < rows && 0 <= c < cols
      ensures Next(h, rows, cols, m')[r][c] == Next(h', rows, cols, m)[r][c]
    {
      NextIsPulled(h, rows, cols, m', r, c);
      NextIsPulled(h', rows, cols, m, r, c);
      NextIsPulled(g, rows, cols, m, r, c);
      NextIsPulled(g, rows, cols, m', r, c);
      PullOfNext(g, rows, cols, m, r, c);
      PullOfNext(g, rows, cols, m', r, c);
      PullsCommute(g[r][c], Pull(g, rows, cols, r, c), Pull(Pulls(g, rows, cols), rows, cols, r, c), m, m');
    }
    GridEqual(Next(h, rows, cols, m'), Next(h', rows, cols, m), rows, cols);
  }

  lemma {:induction false} StatesCommute(g: Grid, rows: nat, cols: nat, m: real, m': real, k: nat)
    requires Rect(g, rows, cols)
    ensures State(Next(g, rows, cols, m), rows, cols, m', k) == Next(State(g, rows, cols, m', k), rows, cols, m)
  {
    hide Next;
    if k > 0 {
      StatesCommute(g, rows, cols, m, m', k - 1);
      NextsCommute(State(g, rows, cols, m', k - 1), rows, cols, m, m');
    }
  }

  /** Nothing changes after state `k`. */
  predicate StopsAt(g: Grid, rows: nat, cols: nat, mult: real, k: nat)
    requires Rect(g, rows, cols)
  {
    State(g, rows, cols, mult, k + 1) == State(g, rows, cols, mult, k)
  }

  lemma ZeroProduct(a: real, b: real)
    requires a != 0.0 && a * b == 0.0
    ensures b == 0.0
  {
  }

  lemma StopsAtOnce(g: Grid, rows: nat, cols: nat, mult: real)
    requires Rect(g, rows, cols) && mult != 0.0
    ensures StopsAt(g, rows, cols, mult, 0) <==> Steady(g, rows, cols)
  {
    hide Next, Pull;
    assert State(g, rows, cols, mult, 0) == g && State(g, rows, cols, mult, 1) == Next(g, rows, cols, mult);
    forall r, c | 0 <= r < rows && 0 <= c < cols
      ensures Next(g, rows, cols, mult)[r][c] == g[r][c] + mult * Pull(g, rows, cols, r, c)
    {
      NextIsPulled(g, rows, cols, mult, r, c);
    }
    if StopsAt(g, rows, cols, mult, 0) {
      forall r, c | 0 <= r < rows && 0 <= c < cols ensures Pull(g, rows, cols, r, c) == 0.0 {
        ZeroProduct(mult, Pull(g, rows, cols, r, c));
      }
    }
    if Steady(g, rows, cols) {
      GridEqual(Next(g, rows, cols, mult), g, rows, cols);
    }
  }

  lemma NoPull(p: real, q: real, m: real, m': real)
    requires m != m' && p + m * q == 0.0 && p + m' * q == 0.0
    ensures p == 0.0
  {
    assert (m - m') * q == m * q - m' * q;
    ZeroProduct(m - m', q);
  }

  /** One step with two constants leads to steady plates from steady plates only. */
  lemma SteadyBefore(g: Grid, rows: nat, cols: nat, m: real, m': real)
    requires Rect(g, rows, cols) && m != m'
    requires Steady(Next(g, rows, cols, m), rows, cols) && Steady(Next(g, rows, cols, m'), rows, cols)
    ensures Steady(g, rows, cols)
  {
    hide Next, Pull, Pulls;
    forall r, c | 0 <= r < rows && 0 <= c < cols ensures Pull(g, rows, cols, r, c) == 0.0 {
      PullOfNext(g, rows, cols, m, r, c);
      PullOfNext(g, rows, cols, m', r, c);
      NoPull(Pull(g, rows, cols, r, c), Pull(Pulls(g, rows, cols), rows, cols, r, c), m, m');
    }
  }

  /** One step later the plate stops one state earlier, with any other constant no later. */
  lemma StopsAfterNext(g: Grid, rows: nat, cols: nat, m: real, m': real, k: nat)
    requires Rect(g, rows, cols) && StopsAt(g, rows, cols, m', k)
    ensures StopsAt(Next(g, rows, cols, m), rows, cols, m', k)
    ensures m == m' && k > 0 ==> StopsAt(Next(g, rows, cols, m), rows, cols, m', k - 1)
  {
    hide Next;
    StatesCommute(g, rows, cols, m, m', k);
    StatesCommute(g, rows, cols, m, m', k + 1);
    if m == m' && k > 0 {
      StatesCommute(g, rows, cols, m, m', k - 1);
    }
  }

  /** A plate that stops with two constants has not moved at all. */
  lemma {:induction false} StopsWithBoth(g: Grid, rows: nat, cols: nat, m: real, m': real, k: nat, k': nat)
    requires Rect(g, rows, cols) && m != m' && m != 0.0 && m' != 0.0
    requires StopsAt(g, rows, cols, m, k) && StopsAt(g, rows, cols, m', k')
    ensures Steady(g, rows, cols)
    decreases k + k'
  {
    hide Next, Steady, StopsAt;
    if k == 0 {
      StopsAtOnce(g, rows, cols, m);
    } else if k' == 0 {
      StopsAtOnce(g, rows, cols, m');
    } else {
      StopsAfterNext(g, rows, cols, m, m, k);
      StopsAfterNext(g, rows, cols, m, m', k');
      StopsWithBoth(Next(g, rows, cols, m), rows, cols, m, m', k - 1, k');
      StopsAfterNext(g, rows, cols, m', m', k');
      StopsAfterNext(g, rows, cols, m', m, k);
      StopsWithBoth(Next(g, rows, cols, m'), rows, cols, m, m', k, k' - 1);
      SteadyBefore(g, rows, cols, m, m');
    }
  }

  lemma StateIsNext(g: Grid, rows: nat, cols: nat, mult: real, k: nat)
    requires Rect(g, rows, cols)
    ensures State(g, rows, cols, mult, k + 1) == Next(State(g, rows, cols, mult, k), rows, cols, mult)
  {
  }

  /** With epsilon zero, settled states are those that equal the state before. */
  lemma SettledIsStopped(g: Grid, rows: nat, cols: nat, mult: real, k: nat)
    requires Rect(g, rows, cols)
    ensures Settled(g, rows, cols, mult, 0.0, k + 1) <==> StopsAt(g, rows, cols, mult, k)
  {
    hide State, Next, Stencil;
    StateIsNext(g, rows, cols, mult, k);
    var s, t := State(g, rows, cols, mult, k), State(g, rows, cols, mult, k + 1);
    NextCells(s, rows, cols, mult);
    if Settled(g, rows, cols, mult, 0.0, k + 1) {
      forall r, c | 0 <= r < rows && 0 <= c < cols ensures t[r][c] == s[r][c] {
        if Interior(rows, cols, r, c) {
          assert Abs(t[r][c] - s[r][c]) <= 0.0;
        }
      }
      GridEqual(t, s, rows, cols);
    }
  }

  /** A steady plate settles in its first state. */
  lemma SteadySettles(g: Grid, rows: nat, cols: nat, mult: real, k: nat)
    requires Rect(g, rows, cols) && mult != 0.0 && Steady(g, rows, cols)
    requires FirstSettled(g, rows, cols, mult, 0.0, k)
    ensures k == 1 && State(g, rows, cols, mult, k) == g
  {
    hide Steady, Within, Next;
    StopsAtOnce(g, rows, cols, mult);
    SettledIsStopped(g, rows, cols, mult, 0);
    assert Settled(g, rows, cols, mult, 0.0, 1);
  }

  lemma FirstSettledStops(g: Grid, rows: nat, cols: nat, mult: real, k: nat)
    requires Rect(g, rows, cols) && FirstSettled(g, rows, cols, mult, 0.0, k)
    ensures k > 0 && StopsAt(g, rows, cols, mult, k - 1)
  {
    hide Within, State, StopsAt;
    SettledIsStopped(g, rows, cols, mult, k - 1);
  }

  /** The plates that settle exactly with two constants are steady, and settle in their first state. */
  lemma SettlesWithBoth(g: Grid, rows: nat, cols: nat, m: real, m': real, k: nat, k': nat)
    requires Rect(g, rows, cols) && m != m' && m != 0.0 && m' != 0.0
    requires FirstSettled(g, rows, cols, m, 0.0, k) && FirstSettled(g, rows, cols, m', 0.0, k')
    ensures k == k' == 1 && State(g, rows, cols, m, k) == State(g, rows, cols, m', k') == g
  {
    hide Steady, FirstSettled, State, StopsAt;
    FirstSettledStops(g, rows, cols, m, k);
    FirstSettledStops(g, rows, cols, m', k');
    StopsWithBoth(g, rows, cols, m, m', k - 1, k' - 1);
    SteadySettles(g, rows, cols, m, k);
    SteadySettles(g, rows, cols, m', k');
  }
}
