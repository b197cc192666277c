/**
 * What the relaxation does over exact reals when mult is at most 1/4: temperatures stay between the
 * initial extremes, the biggest change never grows, and the loop ends after a bounded number of states.
 */
module HeatAnalysis {
  import opened HeatGrid

  // ---- Maximum principle ----

  ghost predicate Bounded(g: Grid, rows: nat, cols: nat, lo: real, hi: real)
    requires Rect(g, rows, cols)
  {
    forall r, c :: 0 <= r < rows && 0 <= c < cols ==> lo <= g[r][c] <= hi
  }

  lemma Scale(k: real, x: real, y: real)
    requires 0.0 <= k && x <= y
    ensures k * x <= k * y
  {
    assert k * (y - x) >= 0.0;
  }

  lemma MixBound(p: real, q: real, x: real, s: real, x': real, s': real)
    requires 0.0 <= p && 0.0 <= q && x <= x' && s <= s'
    ensures p * x + q * s <= p * x' + q * s'
  {
    Scale(p, x, x');
    Scale(q, s, s');
  }

  /** The new temperature is a mix of the old one and those around it. */
  lemma StencilIsMix(x: real, t: real, r: real, b: real, l: real, mult: real)
    ensures Stencil(x, t, r, b, l, mult) == (1.0 - 4.0 * mult) * x + mult * (t + r + b + l)
  {
    assert (-4.0 * x + (t + r + b + l)) * mult == -4.0 * x * mult + (t + r + b + l) * mult;
  }

  lemma Mixed(mult: real, x: real, s: real)
    ensures (1.0 - 4.0 * mult) * x + mult * s == x + mult * (s - 4.0 * x)
  {
    assert mult * (s - 4.0 * x) == mult * s - mult * (4.0 * x);
  }

  lemma StencilIsConvex(x: real, t: real, r: real, b: real, l: real, mult: real, lo: real, hi: real)
    requires 0.0 <= mult <= 0.25
    requires lo <= x <= hi && lo <= t <= hi && lo <= r <= hi && lo <= b <= hi && lo <= l <= hi
    ensures lo <= Stencil(x, t, r, b, l, mult) <= hi
  {
    var p, s := 1.0 - 4.0 * mult, t + r + b + l;
    StencilIsMix(x, t, r, b, l, mult);
    hide Stencil;
    MixBound(p, mult, x, s, hi, 4.0 * hi);
    MixBound(p, mult, lo, 4.0 * lo, x, s);
    Mixed(mult, lo, 4.0 * lo);
    Mixed(mult, hi, 4.0 * hi);
  }

  lemma CancelFactor(w: real, x: real, y: real)
    requires w > 0.0 && w * x <= w * y
    ensures x <= y
  {
    assert w * (x - y) <= 0.0;
  }

  /** Temperatures never leave the range of the initial plate, and the border never changes. */
  lemma {:induction false} MaximumPrinciple(g: Grid, rows: nat, cols: nat, mult: real, lo: real, hi: real, k: nat)
    requires Rect(g, rows, cols) && 0.0 <= mult <= 0.25
    requires Bounded(g, rows, cols, lo, hi)
    ensures Bounded(State(g, rows, cols, mult, k), rows, cols, lo, hi)
    ensures forall r, c :: 0 <= r < rows && 0 <= c < cols && !Interior(rows, cols, r, c) ==>
                             State(g, rows, cols, mult, k)[r][c] == g[r][c]
  {
    hide Stencil;
    if k > 0 {
      MaximumPrinciple(g, rows, cols, mult, lo, hi, k - 1);
      var s := State(g, rows, cols, mult, k - 1);
      forall r, c | 0 <= r < rows && 0 <= c < cols
        ensures lo <= State(g, rows, cols, mult, k)[r][c] <= hi
      {
        if Interior(rows, cols, r, c) {
          StencilIsConvex(s[r][c], s[r - 1][c], s[r][c + 1], s[r + 1][c], s[r][c - 1], mult, lo, hi);
        }
      }
    }
  }

  // ---- The change from one state to the next obeys the same equation, with a border of zeros ----

  function Change(g: Grid, rows: nat, cols: nat, mult: real, k: nat, r: nat, c: nat): real
    requires Rect(g, rows, cols) && r < rows && c < cols
  {
    State(g, rows, cols, mult, k + 1)[r][c] - State(g, rows, cols, mult, k)[r][c]
  }

  lemma StencilLinear(x: real, t: real, r: real, b: real, l: real,
                      x': real, t': real, r': real, b': real, l': real, mult: real)
    ensures Stencil(x, t, r, b, l, mult) - Stencil(x', t', r', b', l', mult)
         == Stencil(x - x', t - t', r - r', b - b', l - l', mult)
  {
    var p, q := -4.0 * x + t + r + b + l, -4.0 * x' + t' + r' + b' + l';
    assert p * mult - q * mult == (p - q) * mult;
  }

  lemma ChangeRecurrence(g: Grid, rows: nat, cols: nat, mult: real, k: nat, r: nat, c: nat)
    requires Rect(g, rows, cols) && r < rows && c < cols
    ensures !Interior(rows, cols, r, c) ==> Change(g, rows, cols, mult, k, r, c) == 0.0
    ensures Interior(rows, cols, r, c) ==>
              Change(g, rows, cols, mult, k + 1, r, c) ==
              Stencil(Change(g, rows, cols, mult, k, r, c), Change(g, rows, cols, mult, k, r - 1, c),
                      Change(g, rows, cols, mult, k, r, c + 1), Change(g, rows, cols, mult, k, r + 1, c),
                      Change(g, rows, cols, mult, k, r, c - 1), mult)
  {
    hide Stencil;
    if Interior(rows, cols, r, c) {
      var s, t := State(g, rows, cols, mult, k), State(g, rows, cols, mult, k + 1);
      StencilLinear(t[r][c], t[r - 1][c], t[r][c + 1], t[r + 1][c], t[r][c - 1],
                    s[r][c], s[r - 1][c], s[r][c + 1], s[r + 1][c], s[r][c - 1], mult);
    }
  }

  /** A cell changes no more than its neighbourhood allows. */
  lemma StencilShrinks(x: real, t: real, r: real, b: real, l: real, mult: real,
                       side: real, up: real, down: real)
    requires 0.0 <= mult <= 0.25
    requires Abs(x) <= side && Abs(r) <= side && Abs(l) <= side && Abs(t) <= up && Abs(b) <= down
    ensures Abs(Stencil(x, t, r, b, l, mult)) <= side + mult * (up + down - 2.0 * side)
  {
    var p, s, limit := 1.0 - 4.0 * mult, t + r + b + l, up + down + 2.0 * side;
    StencilIsMix(x, t, r, b, l, mult);
    MixBound(p, mult, x, s, side, limit);
    MixBound(p, mult, -side, -limit, x, s);
    Mixed(mult, side, limit);
    assert limit - 4.0 * side == up + down - 2.0 * side;
    assert p * (-side) + mult * (-limit) == -(p * side + mult * limit) by {
      assert p * (-side) == -(p * side);
      assert mult * (-limit) == -(mult * limit);
    }
  }

  /** The same for the change of an interior cell from one round to the next. */
  lemma ChangeShrinks(g: Grid, rows: nat, cols: nat, mult: real, k: nat, r: nat, c: nat,
                      side: real, up: real, down: real)
    requires Rect(g, rows, cols) && Interior(rows, cols, r, c) && 0.0 <= mult <= 0.25
    requires Abs(Change(g, rows, cols, mult, k, r, c)) <= side
    requires Abs(Change(g, rows, cols, mult, k, r, c + 1)) <= side
    requires Abs(Change(g, rows, cols, mult, k, r, c - 1)) <= side
    requires Abs(Change(g, rows, cols, mult, k, r - 1, c)) <= up
    requires Abs(Change(g, rows, cols, mult, k, r + 1, c)) <= down
    ensures Abs(Change(g, rows, cols, mult, k + 1, r, c)) <= side + mult * (up + down - 2.0 * side)
  {
    ChangeRecurrence(g, rows, cols, mult, k, r, c);
    hide Stencil, Change, State;
    StencilShrinks(Change(g, rows, cols, mult, k, r, c), Change(g, rows, cols, mult, k, r - 1, c),
                   Change(g, rows, cols, mult, k, r, c + 1), Change(g, rows, cols, mult, k, r + 1, c),
                   Change(g, rows, cols, mult, k, r, c - 1), mult, side, up, down);
  }

  // ---- The biggest change never grows ----

  lemma ChangeWithin(g: Grid, rows: nat, cols: nat, mult: real, k: nat, bound: real, r: nat, c: nat, r': nat, c': nat)
    requires Rect(g, rows, cols) && Interior(rows, cols, r, c) && r' < rows && c' < cols
    requires Within(State(g, rows, cols, mult, k), State(g, rows, cols, mult, k + 1), rows, cols, bound)
    ensures Abs(Change(g, rows, cols, mult, k, r', c')) <= bound
  {
    hide State;
    ChangeRecurrence(g, rows, cols, mult, k, r', c');
  }

  lemma WithinNextRound(g: Grid, rows: nat, cols: nat, mult: real, k: nat, bound: real)
    requires Rect(g, rows, cols) && 0.0 <= mult <= 0.25
    requires Within(State(g, rows, cols, mult, k), State(g, rows, cols, mult, k + 1), rows, cols, bound)
    ensures Within(State(g, rows, cols, mult, k + 1), State(g, rows, cols, mult, k + 2), rows, cols, bound)
  {
    hide Stencil, Next, Abs;
    forall r, c | Interior(rows, cols, r, c)
      ensures Abs(State(g, rows, cols, mult, k + 2)[r][c] - State(g, rows, cols, mult, k + 1)[r][c]) <= bound
    {
      forall r', c' | r - 1 <= r' <= r + 1 && c - 1 <= c' <= c + 1
        ensures Abs(Change(g, rows, cols, mult, k, r', c')) <= bound
      {
        ChangeWithin(g, rows, cols, mult, k, bound, r, c, r', c');
      }
      ChangeShrinks(g, rows, cols, mult, k, r, c, bound, bound, bound);
    }
  }

  /** The biggest change of a round never exceeds that of an earlier round. */
  lemma {:induction false} BiggestChangeNeverGrows(g: Grid, rows: nat, cols: nat, mult: real, j: nat, k: nat)
    requires Rect(g, rows, cols) && rows >= 2 && 0.0 <= mult <= 0.25 && j <= k
    ensures BiggestChange(State(g, rows, cols, mult, k), State(g, rows, cols, mult, k + 1), rows, cols)
         <= BiggestChange(State(g, rows, cols, mult, j), State(g, rows, cols, mult, j + 1), rows, cols)
    decreases k
  {
    hide *;
    if j < k {
      BiggestChangeNeverGrows(g, rows, cols, mult, j, k - 1);
      var before, mid, after := State(g, rows, cols, mult, k - 1), State(g, rows, cols, mult, k),
          State(g, rows, cols, mult, k + 1);
      var b := BiggestChange(before, mid, rows, cols);
      BiggestChangeWithin(before, mid, rows, cols, b);
      WithinNextRound(g, rows, cols, mult, k - 1, b);
      BiggestChangeWithin(mid, after, rows, cols, b);
    }
  }

  /** Once a plate is in equilibrium it stays in equilibrium. */
  lemma {:induction false} SettledForever(g: Grid, rows: nat, cols: nat, mult: real, epsilon: real, j: nat, k: nat)
    requires Rect(g, rows, cols) && 0.0 <= mult <= 0.25 && j <= k
    requires Settled(g, rows, cols, mult, epsilon, j)
    ensures Settled(g, rows, cols, mult, epsilon, k)
    decreases k
  {
    hide Stencil, State, Next, NextCell;
    if j < k {
      SettledForever(g, rows, cols, mult, epsilon, j, k - 1);
      WithinNextRound(g, rows, cols, mult, k - 2, epsilon);
    }
  }

  // ---- Termination: the change decays geometrically under a parabolic weight ----

  /** Zero on the first and last rows, and with second difference -2. */
  function Weight(rows: nat, r: nat): real
    requires r < rows
  {
    (r as real) * ((rows - 1 - r) as real)
  }

  /** An upper bound of the weight. */
  function Peak(rows: nat): real
    requires rows > 0
  {
    ((rows - 1) as real) * ((rows - 1) as real) / 4.0
  }

  lemma SquareNotNegative(x: real)
    ensures x * x >= 0.0
  {
    if x < 0.0 {
      Scale(-x, 0.0, -x);
      assert (-x) * (-x) == x * x;
    } else {
      Scale(x, 0.0, x);
    }
  }

  lemma WeightFacts(rows: nat, r: nat)
    requires r < rows
    ensures 0.0 <= Weight(rows, r) <= Peak(rows)
    ensures 1 <= r < rows - 1 ==> Weight(rows, r) >= 1.0
    ensures 1 <= r < rows - 1 ==> Weight(rows, r - 1) + Weight(rows, r + 1) == 2.0 * Weight(rows, r) - 2.0
  {
    var x, y := r as real, (rows - 1 - r) as real;
    assert (rows - 1) as real == x + y;
    assert (x + y) * (x + y) == 4.0 * (x * y) + (x - y) * (x - y);
    SquareNotNegative(x - y);
    if 1 <= r < rows - 1 {
      assert x >= 1.0 && y >= 1.0;
      Scale(x, 1.0, y);
      assert Weight(rows, r - 1) == (x - 1.0) * (y + 1.0) == x * y + x - y - 1.0;
      assert Weight(rows, r + 1) == (x + 1.0) * (y - 1.0) == x * y - x + y - 1.0;
    }
  }

  function Power(x: real, k: nat): real {
    if k == 0 then 1.0 else x * Power(x, k - 1)
  }

  /** Bernoulli's inequality, in the form that bounds a decaying power from above. */
  lemma {:induction false} PowerDecays(d: real, k: nat)
    requires 0.0 <= d <= 1.0
    ensures 0.0 <= Power(1.0 - d, k)
    ensures Power(1.0 - d, k) * (1.0 + (k as real) * d) <= 1.0
  {
    if k > 0 {
      PowerDecays(d, k - 1);
      var p, n := Power(1.0 - d, k - 1), (k - 1) as real;
      Scale(1.0 - d, 0.0, p);
      var kd := n * d + d;
      assert (k as real) * d == kd;
      assert (1.0 - d) * (1.0 + kd) == 1.0 + n * d - d * kd;
      assert d * kd >= 0.0 by {
        assert n * d >= 0.0;
      }
      Scale(p, 1.0 + n * d - d * kd, 1.0 + n * d);
      assert ((1.0 - d) * p) * (1.0 + kd) == p * ((1.0 - d) * (1.0 + kd));
    }
  }

  lemma PeakPositive(rows: nat)
    requires rows >= 3
    ensures Peak(rows) >= 1.0
  {
    WeightFacts(rows, 1);
  }

  /** How much of the change survives one round. */
  function Decay(rows: nat, mult: real): real
    requires rows >= 3
  {
    PeakPositive(rows);
    2.0 * mult / Peak(rows)
  }

  lemma NonNegativeQuotient(a: real, b: real)
    requires 0.0 <= a && 0.0 < b
    ensures a / b >= 0.0
  {
    assert (a / b) * b == a;
  }

  lemma DecayFacts(rows: nat, mult: real)
    requires rows >= 3 && 0.0 <= mult <= 0.25
    ensures 0.0 <= Decay(rows, mult) <= 1.0
    ensures Decay(rows, mult) * Peak(rows) == 2.0 * mult
  {
    PeakPositive(rows);
    var w, d := Peak(rows), Decay(rows, mult);
    assert d * w == 2.0 * mult;
    NonNegativeQuotient(2.0 * mult, w);
    CancelFactor(w, d, 1.0);
  }

  /** In round k the change of a cell is at most first * (1 - decay)^k times the weight of its row. */
  ghost predicate ChangeUnder(g: Grid, rows: nat, cols: nat, mult: real, k: nat, scale: real)
    requires Rect(g, rows, cols)
  {
    forall r: nat, c: nat :: r < rows && c < cols ==>
                               Abs(Change(g, rows, cols, mult, k, r, c)) <= scale * Weight(rows, r)
  }

  lemma DecayStep(scale: real, w: real, up: real, down: real, mult: real, d: real, peak: real)
    requires 0.0 <= scale && 0.0 <= d && w <= peak && d * peak == 2.0 * mult && up + down == 2.0 * w - 2.0
    ensures scale * w + mult * (scale * up + scale * down - 2.0 * (scale * w)) <= scale * (1.0 - d) * w
  {
    assert scale * up + scale * down - 2.0 * (scale * w) == scale * (up + down - 2.0 * w) == -2.0 * scale;
    Scale(d, w, peak);
    Scale(scale, d * w, 2.0 * mult);
    assert scale * (1.0 - d) * w == scale * w - scale * (d * w);
    assert mult * (-2.0 * scale) == -(scale * (2.0 * mult));
  }

  lemma ChangeUnderAt(g: Grid, rows: nat, cols: nat, mult: real, k: nat, scale: real, r: nat, c: nat)
    requires Rect(g, rows, cols) && rows >= 3 && 0.0 <= mult <= 0.25 && 0.0 <= scale
    requires ChangeUnder(g, rows, cols, mult, k, scale)
    requires Interior(rows, cols, r, c)
    ensures Abs(Change(g, rows, cols, mult, k + 1, r, c)) <= scale * (1.0 - Decay(rows, mult)) * Weight(rows, r)
  {
    hide Abs, Change, Weight, Peak, Decay;
    var w, up, down := Weight(rows, r), Weight(rows, r - 1), Weight(rows, r + 1);
    DecayFacts(rows, mult);
    WeightFacts(rows, r);
    ChangeShrinks(g, rows, cols, mult, k, r, c, scale * w, scale * up, scale * down);
    DecayStep(scale, w, up, down, mult, Decay(rows, mult), Peak(rows));
  }

  lemma ChangeUnderNextRound(g: Grid, rows: nat, cols: nat, mult: real, k: nat, scale: real, scale': real)
    requires Rect(g, rows, cols) && rows >= 3 && 0.0 <= mult <= 0.25 && 0.0 <= scale
    requires ChangeUnder(g, rows, cols, mult, k, scale)
    requires scale' == scale * (1.0 - Decay(rows, mult))
    ensures ChangeUnder(g, rows, cols, mult, k + 1, scale')
  {
    hide Change, Weight, Decay;
    var d := Decay(rows, mult);
    DecayFacts(rows, mult);
    forall r: nat, c: nat {:trigger Change(g, rows, cols, mult, k + 1, r, c)} | r < rows && c < cols
      ensures Abs(Change(g, rows, cols, mult, k + 1, r, c)) <= scale' * Weight(rows, r)
    {
      if Interior(rows, cols, r, c) {
        ChangeUnderAt(g, rows, cols, mult, k, scale, r, c);
      } else {
        ChangeRecurrence(g, rows, cols, mult, k + 1, r, c);
        WeightFacts(rows, r);
        Scale(scale, 0.0, 1.0 - d);
        Scale(scale', 0.0, Weight(rows, r));
      }
    }
  }

  lemma FirstChange(g: Grid, rows: nat, cols: nat, mult: real, first: real)
    requires Rect(g, rows, cols) && rows >= 3 && 0.0 <= first
    requires Within(g, State(g, rows, cols, mult, 1), rows, cols, first)
    ensures ChangeUnder(g, rows, cols, mult, 0, first)
  {
    hide Weight, Next;
    assert State(g, rows, cols, mult, 0) == g;
    forall r: nat, c: nat | r < rows && c < cols
      ensures Abs(Change(g, rows, cols, mult, 0, r, c)) <= first * Weight(rows, r)
    {
      ChangeRecurrence(g, rows, cols, mult, 0, r, c);
      WeightFacts(rows, r);
      if Interior(rows, cols, r, c) {
        Scale(first, 1.0, Weight(rows, r));
      } else {
        Scale(first, 0.0, Weight(rows, r));
      }
    }
  }

  /** The scale under which the change of round k stays. */
  function DecayScale(rows: nat, mult: real, first: real, k: nat): real
    requires rows >= 3
  {
    first * Power(1.0 - Decay(rows, mult), k)
  }

  lemma DecayScaleNext(rows: nat, mult: real, first: real, k: nat)
    requires rows >= 3 && 0.0 <= mult <= 0.25 && 0.0 <= first
    ensures DecayScale(rows, mult, first, 0) == first
    ensures 0.0 <= DecayScale(rows, mult, first, k)
    ensures DecayScale(rows, mult, first, k + 1) == DecayScale(rows, mult, first, k) * (1.0 - Decay(rows, mult))
  {
    hide Decay;
    var d := Decay(rows, mult);
    DecayFacts(rows, mult);
    PowerDecays(d, k);
    var p := Power(1.0 - d, k);
    Scale(first, 0.0, p);
    assert first * ((1.0 - d) * p) == first * p * (1.0 - d);
  }

  lemma {:induction false} GeometricDecay(g: Grid, rows: nat, cols: nat, mult: real, first: real, k: nat)
    requires Rect(g, rows, cols) && rows >= 3 && 0.0 <= mult <= 0.25 && 0.0 <= first
    requires Within(g, State(g, rows, cols, mult, 1), rows, cols, first)
    ensures ChangeUnder(g, rows, cols, mult, k, DecayScale(rows, mult, first, k))
  {
    hide Within, State, Decay, DecayScale, Weight, Change;
    if k == 0 {
      FirstChange(g, rows, cols, mult, first);
      DecayScaleNext(rows, mult, first, 0);
    } else {
      GeometricDecay(g, rows, cols, mult, first, k - 1);
      DecayScaleNext(rows, mult, first, k - 1);
      ChangeUnderNextRound(g, rows, cols, mult, k - 1,
                           DecayScale(rows, mult, first, k - 1), DecayScale(rows, mult, first, k));
    }
  }

  function FloorPlusTwo(a: real, unit: real): int
    requires unit > 0.0
  {
    (a / unit).Floor + 2
  }

  /** A number of states that suffices, given the biggest change `first` of the first one. */
  function StatesEnough(rows: nat, mult: real, epsilon: real, first: real): (k: int)
    requires rows >= 3 && 0.0 < mult && 0.0 < epsilon
  {
    assert 2.0 * mult * epsilon > 0.0;
    FloorPlusTwo(first * Peak(rows) * Peak(rows), 2.0 * mult * epsilon)
  }

  lemma FloorFacts(x: real)
    requires x >= 0.0
    ensures x.Floor >= 0
    ensures (x.Floor + 1) as real >= x
  {
  }

  lemma FloorPlusTwoFacts(a: real, unit: real)
    requires unit > 0.0 && a >= 0.0
    ensures FloorPlusTwo(a, unit) >= 2
    ensures a <= (FloorPlusTwo(a, unit) - 1) as real * unit
  {
    NonNegativeQuotient(a, unit);
    var q := a / unit;
    assert unit * q == a;
    FloorFacts(q);
    Scale(unit, q, (q.Floor + 1) as real);
  }

  lemma EnoughArithmetic(p: real, n: real, d: real, w: real, mult: real, epsilon: real, first: real)
    requires w >= 1.0 && d * w == 2.0 * mult && 0.0 <= p && p * (1.0 + n * d) <= 1.0
    requires 0.0 <= first && 0.0 < epsilon && 0.0 <= n && 0.0 <= d
    requires first * w * w <= n * (2.0 * mult * epsilon)
    ensures first * p * w <= epsilon
  {
    // first * w * w <= (1 + n * d) * w * epsilon, hence first * w <= (1 + n * d) * epsilon
    var q := 1.0 + n * d;
    assert n * (2.0 * mult * epsilon) == n * d * w * epsilon;
    assert n * d * w * epsilon <= q * w * epsilon by {
      assert q * w * epsilon == n * d * w * epsilon + w * epsilon;
      assert w * epsilon >= 0.0;
    }
    assert first * w <= q * epsilon by {
      assert w * (first * w) == first * w * w;
      assert w * (q * epsilon) == q * w * epsilon;
      CancelFactor(w, first * w, q * epsilon);
    }
    Scale(p, first * w, q * epsilon);
    assert p * (q * epsilon) == (p * q) * epsilon;
    Scale(epsilon, p * q, 1.0);
    assert first * p * w == p * (first * w);
  }

  lemma StatesEnoughFacts(rows: nat, mult: real, epsilon: real, first: real)
    requires rows >= 3 && 0.0 < mult && 0.0 < epsilon && 0.0 <= first
    ensures StatesEnough(rows, mult, epsilon, first) >= 2
    ensures first * Peak(rows) * Peak(rows)
         <= (StatesEnough(rows, mult, epsilon, first) - 1) as real * (2.0 * mult * epsilon)
  {
    PeakPositive(rows);
    hide Peak, FloorPlusTwo;
    var a, unit := first * Peak(rows) * Peak(rows), 2.0 * mult * epsilon;
    assert unit > 0.0;
    Scale(first, 0.0, Peak(rows));
    Scale(first * Peak(rows), 0.0, Peak(rows));
    var k := StatesEnough(rows, mult, epsilon, first);
    assert k == FloorPlusTwo(a, unit);
    FloorPlusTwoFacts(a, unit);
    assert a <= (k - 1) as real * unit;
  }

  lemma UnderIsWithin(g: Grid, rows: nat, cols: nat, mult: real, k: nat, scale: real, epsilon: real)
    requires Rect(g, rows, cols) && rows >= 3 && 0.0 <= scale
    requires ChangeUnder(g, rows, cols, mult, k, scale) && scale * Peak(rows) <= epsilon
    ensures Within(State(g, rows, cols, mult, k), State(g, rows, cols, mult, k + 1), rows, cols, epsilon)
  {
    hide Weight, Peak, State;
    forall r, c | Interior(rows, cols, r, c)
      ensures Abs(State(g, rows, cols, mult, k + 1)[r][c] - State(g, rows, cols, mult, k)[r][c]) <= epsilon
    {
      WeightFacts(rows, r);
      Scale(scale, Weight(rows, r), Peak(rows));
      assert Abs(Change(g, rows, cols, mult, k, r, c)) <= scale * Weight(rows, r);
    }
  }

  /** The relaxation loop ends, and no later than after StatesEnough states. */
  lemma SettlesInTime(g: Grid, rows: nat, cols: nat, mult: real, epsilon: real)
    requires Rect(g, rows, cols) && rows >= 3 && 0.0 < mult <= 0.25 && 0.0 < epsilon
    ensures var first := BiggestChange(g, State(g, rows, cols, mult, 1), rows, cols);
            StatesEnough(rows, mult, epsilon, first) > 0 &&
            Settled(g, rows, cols, mult, epsilon, StatesEnough(rows, mult, epsilon, first))
  {
    hide Stencil, State, Weight, Peak, Decay, Power, BiggestChange, StatesEnough, Change, Within;
    var first := BiggestChange(g, State(g, rows, cols, mult, 1), rows, cols);
    BiggestChangeWithin(g, State(g, rows, cols, mult, 1), rows, cols, first);
    var w, d := Peak(rows), Decay(rows, mult);
    PeakPositive(rows);
    DecayFacts(rows, mult);
    var k := StatesEnough(rows, mult, epsilon, first);
    StatesEnoughFacts(rows, mult, epsilon, first);
    var p := Power(1.0 - d, k - 1);
    PowerDecays(d, k - 1);
    EnoughArithmetic(p, (k - 1) as real, d, w, mult, epsilon, first);
    assert DecayScale(rows, mult, first, k - 1) == first * p;
    GeometricDecay(g, rows, cols, mult, first, k - 1);
    DecayScaleNext(rows, mult, first, k - 1);
    UnderIsWithin(g, rows, cols, mult, k - 1, DecayScale(rows, mult, first, k - 1), epsilon);
  }

  /** With no diffusion at all the first state already is the last. */
  lemma SettlesWithoutDiffusion(g: Grid, rows: nat, cols: nat, epsilon: real)
    requires Rect(g, rows, cols) && 0.0 <= epsilon
    ensures Settled(g, rows, cols, 0.0, epsilon, 1)
  {
    assert State(g, rows, cols, 0.0, 0) == g;
    forall r, c | Interior(rows, cols, r, c)
      ensures Abs(State(g, rows, cols, 0.0, 1)[r][c] - State(g, rows, cols, 0.0, 0)[r][c]) <= epsilon
    {
      assert State(g, rows, cols, 0.0, 1)[r][c] == NextCell(g, rows, cols, 0.0, r, c);
    }
  }
}
