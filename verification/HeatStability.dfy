/**
 * For which constants the simulation ends on every plate: exactly those with mult at most 1/4 (and an
 * epsilon above zero, unless nothing diffuses). Above 1/4 a chessboard of alternating temperatures grows.
 */
module HeatStability {
  import opened HeatGrid
  import opened HeatAnalysis

  ghost predicate EveryPlateSettles(mult: real, epsilon: real) {
    forall g, rows: nat, cols: nat :: Rect(g, rows, cols) && rows >= 3 && cols >= 3 ==>
        Settles(g, rows, cols, mult, epsilon)
  }

  /** A plate with a cell that changes by more than epsilon in every round never settles. */
  lemma ActiveCellNeverSettles(g: Grid, rows: nat, cols: nat, mult: real, epsilon: real, r: nat, c: nat)
    requires Rect(g, rows, cols) && Interior(rows, cols, r, c)
    requires forall k: nat :: Abs(Change(g, rows, cols, mult, k, r, c)) > epsilon
    ensures !Settles(g, rows, cols, mult, epsilon)
  {
    hide State;
    forall k: nat ensures !Settled(g, rows, cols, mult, epsilon, k) {
      if k > 0 {
        assert Abs(Change(g, rows, cols, mult, k - 1, r, c)) > epsilon;
      }
    }
  }

  // ---- Above 1/4: the chessboard ----

  /** x with the sign of a chessboard field. */
  function Signed(j: nat, x: real): real {
    if j % 2 == 0 then x else -x
  }

  /** The temperatures of the chessboard plate: a parabolic hill in both directions, with alternating signs. */
  function Hill(n: nat, height: real, r: nat, c: nat): real
    requires r < n && c < n
  {
    height * (Weight(n, r) * Weight(n, c))
  }

  function Chessboard(n: nat, height: real): (g: Grid)
    ensures Rect(g, n, n)
  {
    seq(n, r requires 0 <= r < n => seq(n, c requires 0 <= c < n => Signed(r + c + 1, Hill(n, height, r, c))))
  }

  /** The stencil on alternating values. */
  lemma AlternatingStencil(x: real, t: real, r: real, b: real, l: real, mult: real)
    ensures Stencil(-x, t, r, b, l, mult) == (4.0 * mult - 1.0) * x + mult * (t + r + b + l)
    ensures Stencil(x, -t, -r, -b, -l, mult) == -((4.0 * mult - 1.0) * x + mult * (t + r + b + l))
  {
    var q := t + r + b + l;
    StencilIsMix(-x, t, r, b, l, mult);
    StencilIsMix(x, -t, -r, -b, -l, mult);
    assert mult * (-q) == -(mult * q);
  }

  /** With enough rows, the loss at the rim of the hill is less than what the rest gains. */
  predicate Steep(n: nat, mult: real) {
    n >= 3 && mult > 0.25 && (4.0 * mult - 1.0) * ((n - 2) as real) >= 2.0 * mult
  }

  lemma SteepSide(n: nat, mult: real)
    requires Steep(n, mult)
    ensures n >= 3
  {
  }

  /** Inside the hill, weights are at least n - 2. */
  lemma WeightAtLeast(n: nat, r: nat)
    requires 1 <= r < n - 1
    ensures Weight(n, r) >= (n - 2) as real >= 1.0
  {
    var x, y := r as real, (n - 1 - r) as real;
    var p := x * y;
    Scale(x - 1.0, 0.0, y - 1.0);
    assert (x - 1.0) * (y - 1.0) == p - x - y + 1.0;
    assert x + y == (n - 1) as real;
    assert p >= x + y - 1.0;
  }

  /** The product of two weights against their sum. */
  lemma HillOutweighsRim(n: nat, mult: real, v: real, w: real)
    requires Steep(n, mult) && v >= (n - 2) as real && w >= (n - 2) as real
    ensures (8.0 * mult - 2.0) * (v * w) >= 2.0 * mult * (v + w)
  {
    var d, e := (n - 2) as real, 4.0 * mult - 1.0;
    var p, a, b := v * w, w * d, v * d;
    Scale(w, d, v);
    Scale(v, d, w);
    assert a <= p && b <= p;
    assert d * (v + w) == a + b;
    Scale(e, d * (v + w), 2.0 * (v * w));
    assert e * (d * (v + w)) == (e * d) * (v + w);
    Scale(v + w, 2.0 * mult, e * d);
    assert e * (2.0 * (v * w)) == (8.0 * mult - 2.0) * (v * w);
  }

  lemma HillSum(n: nat, height: real, r: nat, c: nat)
    requires Interior(n, n, r, c)
    ensures Hill(n, height, r, c) == height * (Weight(n, r) * Weight(n, c))
    ensures Hill(n, height, r - 1, c) + Hill(n, height, r + 1, c)
            + Hill(n, height, r, c + 1) + Hill(n, height, r, c - 1)
         == 4.0 * Hill(n, height, r, c) - height * (2.0 * (Weight(n, r) + Weight(n, c)))
  {
    WeightFacts(n, r);
    WeightFacts(n, c);
    var v, w := Weight(n, r), Weight(n, c);
    var up, down, left, right := Weight(n, r - 1), Weight(n, r + 1), Weight(n, c - 1), Weight(n, c + 1);
    hide Weight;
    assert height * (up * w) + height * (down * w) == height * ((up + down) * w);
    assert height * (v * left) + height * (v * right) == height * (v * (left + right));
    assert (2.0 * v - 2.0) * w == 2.0 * (v * w) - 2.0 * w;
    assert v * (2.0 * w - 2.0) == 2.0 * (v * w) - 2.0 * v;
    assert height * (2.0 * (v * w) - 2.0 * w) + height * (2.0 * (v * w) - 2.0 * v)
        == 4.0 * (height * (v * w)) - height * (2.0 * (v + w));
  }

  lemma HillBalance(mult: real, height: real, v: real, w: real, hill: real, sum: real)
    requires height >= 0.0 && hill == height * (v * w) && sum == 4.0 * hill - height * (2.0 * (v + w))
    requires (8.0 * mult - 2.0) * (v * w) >= 2.0 * mult * (v + w)
    ensures (4.0 * mult - 1.0) * hill + mult * sum >= hill
  {
    Scale(height, 2.0 * mult * (v + w), (8.0 * mult - 2.0) * (v * w));
    assert height * ((8.0 * mult - 2.0) * (v * w)) == (8.0 * mult - 2.0) * hill;
    assert height * (2.0 * mult * (v + w)) == mult * (height * (2.0 * (v + w)));
    assert mult * sum == 4.0 * mult * hill - mult * (height * (2.0 * (v + w)));
  }

  /** The sum of a hill over the four neighbours of a cell. */
  function Around(n: nat, height: real, r: nat, c: nat): real
    requires Interior(n, n, r, c)
  {
    Hill(n, height, r - 1, c) + Hill(n, height, r + 1, c) + Hill(n, height, r, c + 1) + Hill(n, height, r, c - 1)
  }

  /** A hill grows under one alternating round. */
  lemma HillGrows(n: nat, mult: real, height: real, r: nat, c: nat)
    requires Steep(n, mult) && height >= 0.0 && Interior(n, n, r, c)
    ensures (4.0 * mult - 1.0) * Hill(n, height, r, c) + mult * Around(n, height, r, c) >= Hill(n, height, r, c)
  {
    hide Weight, Hill, Steep;
    SteepSide(n, mult);
    HillSum(n, height, r, c);
    WeightAtLeast(n, r);
    WeightAtLeast(n, c);
    HillOutweighsRim(n, mult, Weight(n, r), Weight(n, c));
    HillBalance(mult, height, Weight(n, r), Weight(n, c), Hill(n, height, r, c), Around(n, height, r, c));
  }

  /** Changes above a hill stay above it. */
  lemma AboveHill(n: nat, mult: real, height: real, r: nat, c: nat, x: real, around: real)
    requires Steep(n, mult) && height >= 0.0 && Interior(n, n, r, c)
    requires x >= Hill(n, height, r, c) && around >= Around(n, height, r, c)
    ensures (4.0 * mult - 1.0) * x + mult * around >= Hill(n, height, r, c)
  {
    hide Hill, Around;
    HillGrows(n, mult, height, r, c);
    Scale(4.0 * mult - 1.0, Hill(n, height, r, c), x);
    Scale(mult, Around(n, height, r, c), around);
  }

  /** The change of a cell, with the sign of the chessboard. */
  function Swing(n: nat, height: real, mult: real, k: nat, r: nat, c: nat): real
    requires r < n && c < n
  {
    Signed(r + c + k, Change(Chessboard(n, height), n, n, mult, k, r, c))
  }

  /** Where an index has the parity of the field, it gives the sign of the swing. */
  lemma ChangeOfSwing(n: nat, height: real, mult: real, k: nat, r: nat, c: nat, j: nat)
    requires r < n && c < n && j % 2 == (r + c + k) % 2
    ensures Change(Chessboard(n, height), n, n, mult, k, r, c) == Signed(j, Swing(n, height, mult, k, r, c))
    ensures Swing(n, height, mult, k, r, c) == Signed(j, Change(Chessboard(n, height), n, n, mult, k, r, c))
  {
    hide Chessboard, Change;
  }

  /** The stencil on the signs of a chessboard. */
  lemma SignedStencil(j: nat, x: real, t: real, r: real, b: real, l: real, mult: real)
    ensures Signed(j + 1, Stencil(Signed(j, x), Signed(j + 1, t), Signed(j + 1, r), Signed(j + 1, b),
                                  Signed(j + 1, l), mult))
         == (4.0 * mult - 1.0) * x + mult * (t + r + b + l)
  {
    hide Stencil;
    AlternatingStencil(x, t, r, b, l, mult);
  }

  lemma SwingStep(n: nat, height: real, mult: real, k: nat, r: nat, c: nat)
    requires Interior(n, n, r, c)
    ensures Swing(n, height, mult, k + 1, r, c) ==
            (4.0 * mult - 1.0) * Swing(n, height, mult, k, r, c)
            + mult * (Swing(n, height, mult, k, r - 1, c) + Swing(n, height, mult, k, r, c + 1)
                      + Swing(n, height, mult, k, r + 1, c) + Swing(n, height, mult, k, r, c - 1))
  {
    hide Chessboard, Stencil, Change, Swing, Signed;
    var j := r + c + k;
    ChangeRecurrence(Chessboard(n, height), n, n, mult, k, r, c);
    ChangeOfSwing(n, height, mult, k + 1, r, c, j + 1);
    ChangeOfSwing(n, height, mult, k, r, c, j);
    ChangeOfSwing(n, height, mult, k, r - 1, c, j + 1);
    ChangeOfSwing(n, height, mult, k, r, c + 1, j + 1);
    ChangeOfSwing(n, height, mult, k, r + 1, c, j + 1);
    ChangeOfSwing(n, height, mult, k, r, c - 1, j + 1);
    SignedStencil(j, Swing(n, height, mult, k, r, c), Swing(n, height, mult, k, r - 1, c),
                  Swing(n, height, mult, k, r, c + 1), Swing(n, height, mult, k, r + 1, c),
                  Swing(n, height, mult, k, r, c - 1), mult);
  }

  lemma SwingAtRim(n: nat, height: real, mult: real, k: nat, r: nat, c: nat)
    requires r < n && c < n && !Interior(n, n, r, c)
    ensures Swing(n, height, mult, k, r, c) == 0.0 && Hill(n, height, r, c) == 0.0
  {
    hide Chessboard;
    ChangeRecurrence(Chessboard(n, height), n, n, mult, k, r, c);
    assert Weight(n, r) == 0.0 || Weight(n, c) == 0.0;
  }

  lemma FirstChangeOf(g: Grid, rows: nat, cols: nat, mult: real, r: nat, c: nat)
    requires Rect(g, rows, cols) && Interior(rows, cols, r, c)
    ensures Change(g, rows, cols, mult, 0, r, c)
         == Stencil(g[r][c], g[r - 1][c], g[r][c + 1], g[r + 1][c], g[r][c - 1], mult) - g[r][c]
  {
    hide Stencil;
    assert State(g, rows, cols, mult, 0) == g;
    NextCells(g, rows, cols, mult);
  }

  lemma ChessboardCell(n: nat, height: real, r: nat, c: nat, j: nat)
    requires r < n && c < n && j % 2 != (r + c) % 2
    ensures Chessboard(n, height)[r][c] == Signed(j, Hill(n, height, r, c))
  {
    hide Hill;
  }

  /** What the stencil adds to a cell between neighbours of the other sign. */
  lemma SwingOf(j: nat, x: real, t: real, r: real, b: real, l: real, mult: real)
    ensures Signed(j, Stencil(Signed(j + 1, x), Signed(j, t), Signed(j, r), Signed(j, b), Signed(j, l), mult)
                      - Signed(j + 1, x))
         == mult * (4.0 * x + (t + b + r + l))
  {
    hide Stencil;
    AlternatingStencil(x, t, r, b, l, mult);
    var q := t + b + r + l;
    assert (4.0 * mult - 1.0) * x + mult * q + x == mult * (4.0 * x + q);
  }

  lemma FirstSwingIs(n: nat, height: real, mult: real, r: nat, c: nat)
    requires Interior(n, n, r, c)
    ensures Swing(n, height, mult, 0, r, c) == mult * (4.0 * Hill(n, height, r, c) + Around(n, height, r, c))
  {
    hide Hill, Stencil, Change, State, Chessboard, Swing, Signed;
    var j := r + c;
    FirstChangeOf(Chessboard(n, height), n, n, mult, r, c);
    ChangeOfSwing(n, height, mult, 0, r, c, j);
    ChessboardCell(n, height, r, c, j + 1);
    ChessboardCell(n, height, r - 1, c, j);
    ChessboardCell(n, height, r, c + 1, j);
    ChessboardCell(n, height, r + 1, c, j);
    ChessboardCell(n, height, r, c - 1, j);
    SwingOf(j, Hill(n, height, r, c), Hill(n, height, r - 1, c), Hill(n, height, r, c + 1),
            Hill(n, height, r + 1, c), Hill(n, height, r, c - 1), mult);
  }

  lemma HillNotNegative(n: nat, height: real, r: nat, c: nat)
    requires r < n && c < n && height >= 0.0
    ensures Hill(n, height, r, c) >= 0.0
  {
    WeightFacts(n, r);
    WeightFacts(n, c);
    hide Weight;
    Scale(Weight(n, r), 0.0, Weight(n, c));
    Scale(height, 0.0, Weight(n, r) * Weight(n, c));
  }

  lemma FirstSwingArithmetic(n: nat, height: real, mult: real, r: nat, c: nat)
    requires Steep(n, mult) && height >= 0.0 && Interior(n, n, r, c)
    ensures mult * (4.0 * Hill(n, height, r, c) + Around(n, height, r, c)) >= Hill(n, height, r, c)
  {
    HillNotNegative(n, height, r, c);
    HillNotNegative(n, height, r - 1, c);
    HillNotNegative(n, height, r + 1, c);
    HillNotNegative(n, height, r, c - 1);
    HillNotNegative(n, height, r, c + 1);
    hide Hill;
    Scale(mult, 4.0 * Hill(n, height, r, c), 4.0 * Hill(n, height, r, c) + Around(n, height, r, c));
    Scale(Hill(n, height, r, c), 0.25, mult);
  }

  /** The first change. */
  lemma FirstSwing(n: nat, height: real, mult: real, r: nat, c: nat)
    requires Steep(n, mult) && height >= 0.0 && Interior(n, n, r, c)
    ensures Swing(n, height, mult, 0, r, c) >= Hill(n, height, r, c)
  {
    FirstSwingIs(n, height, mult, r, c);
    FirstSwingArithmetic(n, height, mult, r, c);
  }

  /** In every round the change of every cell is at least the height of the hill, with alternating sign. */
  lemma {:induction false} SwingsStayAbove(n: nat, height: real, mult: real, k: nat, r: nat, c: nat)
    requires Steep(n, mult) && height >= 0.0 && r < n && c < n
    ensures Swing(n, height, mult, k, r, c) >= Hill(n, height, r, c)
    decreases k
  {
    hide Swing, Hill, Steep;
    if !Interior(n, n, r, c) {
      SwingAtRim(n, height, mult, k, r, c);
    } else if k == 0 {
      FirstSwing(n, height, mult, r, c);
    } else {
      SwingsStayAbove(n, height, mult, k - 1, r, c);
      SwingsStayAbove(n, height, mult, k - 1, r - 1, c);
      SwingsStayAbove(n, height, mult, k - 1, r, c + 1);
      SwingsStayAbove(n, height, mult, k - 1, r + 1, c);
      SwingsStayAbove(n, height, mult, k - 1, r, c - 1);
      SwingStep(n, height, mult, k - 1, r, c);
      AboveHill(n, mult, height, r, c, Swing(n, height, mult, k - 1, r, c),
                Swing(n, height, mult, k - 1, r - 1, c) + Swing(n, height, mult, k - 1, r, c + 1)
                + Swing(n, height, mult, k - 1, r + 1, c) + Swing(n, height, mult, k - 1, r, c - 1));
    }
  }

  lemma QuotientTimes(a: real, b: real)
    requires b > 0.0
    ensures b * (a / b) == a
  {
  }

  /** A side long enough for the constant. */
  lemma SteepEnough(mult: real) returns (n: nat)
    requires mult > 0.25
    ensures Steep(n, mult)
  {
    var e, q := 4.0 * mult - 1.0, 2.0 * mult / (4.0 * mult - 1.0);
    NonNegativeQuotient(2.0 * mult, e);
    FloorFacts(q);
    n := q.Floor + 3;
    Scale(e, q, (n - 2) as real);
    QuotientTimes(2.0 * mult, e);
  }

  lemma SwingIsChange(n: nat, height: real, mult: real, k: nat, r: nat, c: nat)
    requires r < n && c < n
    ensures Swing(n, height, mult, k, r, c) <= Abs(Change(Chessboard(n, height), n, n, mult, k, r, c))
  {
    hide Change, Chessboard;
  }

  lemma HillTop(n: nat, height: real)
    requires n >= 3 && height >= 0.0
    ensures Hill(n, height, 1, 1) >= height
  {
    WeightAtLeast(n, 1);
    var w := Weight(n, 1);
    Scale(w, 1.0, w);
    Scale(height, 1.0, w * w);
  }

  /** Above 1/4, for every epsilon, some plate never settles. */
  lemma ChessboardNeverSettles(mult: real, epsilon: real)
    requires mult > 0.25
    ensures !EveryPlateSettles(mult, epsilon)
  {
    hide Swing, Hill, Steep, Settles;
    var n := SteepEnough(mult);
    var height := Abs(epsilon) + 1.0;
    SteepSide(n, mult);
    forall k: nat ensures Abs(Change(Chessboard(n, height), n, n, mult, k, 1, 1)) > epsilon {
      SwingsStayAbove(n, height, mult, k, 1, 1);
      HillTop(n, height);
      SwingIsChange(n, height, mult, k, 1, 1);
    }
    ActiveCellNeverSettles(Chessboard(n, height), n, n, mult, epsilon, 1, 1);
  }

  // ---- Below zero, and with epsilon zero: two warm cells ----

  function TwoCells(t: real): (g: Grid)
    ensures Rect(g, 4, 3)
  {
    [[0.0, 0.0, 0.0], [0.0, t, 0.0], [0.0, t, 0.0], [0.0, 0.0, 0.0]]
  }

  /** Two equal cells in a border of zeros. */
  predicate IsTwoCells(g: Grid, t: real) {
    && Rect(g, 4, 3) && g[1][1] == g[2][1] == t
    && forall r, c :: 0 <= r < 4 && 0 <= c < 3 && !Interior(4, 3, r, c) ==> g[r][c] == 0.0
  }

  lemma TwoCellsNext(g: Grid, t: real, mult: real)
    requires IsTwoCells(g, t)
    ensures IsTwoCells(Next(g, 4, 3, mult), (1.0 - 3.0 * mult) * t)
  {
    hide Next, Stencil;
    NextCells(g, 4, 3, mult);
    StencilIsMix(t, 0.0, 0.0, t, 0.0, mult);
    StencilIsMix(t, t, 0.0, 0.0, 0.0, mult);
    assert (1.0 - 4.0 * mult) * t + mult * t == (1.0 - 3.0 * mult) * t;
  }

  lemma {:induction false} TwoCellsState(t: real, mult: real, k: nat)
    ensures IsTwoCells(State(TwoCells(t), 4, 3, mult, k), Power(1.0 - 3.0 * mult, k) * t)
  {
    if k == 0 {
      assert 1.0 * t == t;
    } else {
      TwoCellsState(t, mult, k - 1);
      var b, p := 1.0 - 3.0 * mult, Power(1.0 - 3.0 * mult, k - 1);
      TwoCellsNext(State(TwoCells(t), 4, 3, mult, k - 1), p * t, mult);
      assert b * (p * t) == (b * p) * t;
    }
  }

  lemma TwoCellsChange(t: real, mult: real, k: nat)
    ensures Change(TwoCells(t), 4, 3, mult, k, 1, 1) == -(3.0 * mult) * (Power(1.0 - 3.0 * mult, k) * t)
  {
    hide State;
    TwoCellsState(t, mult, k);
    TwoCellsState(t, mult, k + 1);
    var b, p := 1.0 - 3.0 * mult, Power(1.0 - 3.0 * mult, k);
    assert (b * p) * t == b * (p * t);
    assert b * (p * t) - p * t == -(3.0 * mult) * (p * t);
  }

  lemma {:induction false} PowerPositive(x: real, k: nat)
    requires x > 0.0
    ensures Power(x, k) > 0.0
    ensures x >= 1.0 ==> Power(x, k) >= 1.0
  {
    if k > 0 {
      PowerPositive(x, k - 1);
      var p := Power(x, k - 1);
      assert x * p > 0.0;
      if x >= 1.0 {
        Scale(x, 1.0, p);
      }
    }
  }

  /** With a negative constant the two cells drift apart from their border. */
  lemma NegativeNeverSettles(mult: real, epsilon: real)
    requires mult < 0.0
    ensures !EveryPlateSettles(mult, epsilon)
  {
    hide TwoCells, State, Power, Settles, Change;
    var m := -(3.0 * mult);
    var t := (Abs(epsilon) + 1.0) / m;
    QuotientTimes(Abs(epsilon) + 1.0, m);
    NonNegativeQuotient(Abs(epsilon) + 1.0, m);
    forall k: nat ensures Abs(Change(TwoCells(t), 4, 3, mult, k, 1, 1)) > epsilon {
      TwoCellsChange(t, mult, k);
      var p := Power(1.0 - 3.0 * mult, k);
      PowerPositive(1.0 - 3.0 * mult, k);
      Scale(t, 1.0, p);
      Scale(m, t, p * t);
    }
    ActiveCellNeverSettles(TwoCells(t), 4, 3, mult, epsilon, 1, 1);
  }

  /** With epsilon zero the two cells only tend to the temperature of the border. */
  lemma ZeroEpsilonNeverSettles(mult: real)
    requires 0.0 < mult <= 0.25
    ensures !EveryPlateSettles(mult, 0.0)
  {
    hide TwoCells, State, Power, Settles, Change;
    forall k: nat ensures Abs(Change(TwoCells(1.0), 4, 3, mult, k, 1, 1)) > 0.0 {
      TwoCellsChange(1.0, mult, k);
      var p := Power(1.0 - 3.0 * mult, k);
      PowerPositive(1.0 - 3.0 * mult, k);
      assert (3.0 * mult) * p > 0.0;
    }
    ActiveCellNeverSettles(TwoCells(1.0), 4, 3, mult, 0.0, 1, 1);
  }

  lemma NegativeEpsilonNeverSettles(mult: real, epsilon: real)
    requires epsilon < 0.0
    ensures !EveryPlateSettles(mult, epsilon)
  {
    hide TwoCells, State, Settles, Change;
    ActiveCellNeverSettles(TwoCells(0.0), 4, 3, mult, epsilon, 1, 1);
  }

  // ---- Main result ----

  /** The constants for which the bound on the number of states applies. */
  lemma RelaxationEnds(g: Grid, rows: nat, cols: nat, mult: real, epsilon: real)
    requires Rect(g, rows, cols) && rows >= 3
    requires epsilon >= 0.0 && (mult == 0.0 || (0.0 < mult <= 0.25 && epsilon > 0.0))
    ensures Settles(g, rows, cols, mult, epsilon)
  {
    if mult == 0.0 {
      SettlesWithoutDiffusion(g, rows, cols, epsilon);
    } else {
      SettlesInTime(g, rows, cols, mult, epsilon);
    }
  }

  /** The simulation ends on every plate exactly when mult is zero, or at most 1/4 with a positive epsilon. */
  lemma EveryPlateSettlesExactly(mult: real, epsilon: real)
    ensures EveryPlateSettles(mult, epsilon) <==>
            epsilon >= 0.0 && (mult == 0.0 || (0.0 < mult <= 0.25 && epsilon > 0.0))
  {
    hide Settles;
    if epsilon < 0.0 {
      NegativeEpsilonNeverSettles(mult, epsilon);
    } else if mult < 0.0 {
      NegativeNeverSettles(mult, epsilon);
    } else if mult > 0.25 {
      ChessboardNeverSettles(mult, epsilon);
    } else if mult > 0.0 && epsilon == 0.0 {
      ZeroEpsilonNeverSettles(mult);
    } else {
      forall g, rows: nat, cols: nat | Rect(g, rows, cols) && rows >= 3 && cols >= 3
        ensures Settles(g, rows, cols, mult, epsilon)
      {
        RelaxationEnds(g, rows, cols, mult, epsilon);
      }
    }
  }
}
