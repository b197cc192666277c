/**
 * When the serial and the parallel programs leave the same plate. They differ in the area of a cell, which
 * the serial program truncates; different constants give different plates, so the areas decide.
 */
module ProgramsAgree {
  import opened HeatGrid
  import opened HeatAnalysis
  import opened HeatStability
  import opened HeatSteady
  import opened Options
  import S = SerialPlate
  import B = BarrierPlate

  /** The constant of the serial program, none where it divides by an area of zero. */
  function SerialConstant(thermalDiffusivity: real, intervalDuration: nat, cellsDimension: real): Option<real> {
    if S.SerialCellArea(cellsDimension) > 0
    then Some(S.SerialMult(thermalDiffusivity, intervalDuration, cellsDimension))
    else None
  }

  /** On every plate that both simulate to an end, the constants lead to the same plate and number of states. */
  ghost predicate SameResult(m: real, m': real, epsilon: real) {
    forall g, rows: nat, cols: nat, k: nat, k': nat ::
      rows >= 3 && cols >= 3 && Rect(g, rows, cols)
      && FirstSettled(g, rows, cols, m, epsilon, k) && FirstSettled(g, rows, cols, m', epsilon, k') ==>
        k == k' && State(g, rows, cols, m, k) == State(g, rows, cols, m', k')
  }

  /** The serial program has a constant, and it leads to the results of the parallel one. */
  ghost predicate ProgramsAgree(thermalDiffusivity: real, intervalDuration: nat, cellsDimension: real, epsilon: real)
    requires cellsDimension * cellsDimension != 0.0
  {
    var serial := SerialConstant(thermalDiffusivity, intervalDuration, cellsDimension);
    var parallel := S.ParallelMult(thermalDiffusivity, intervalDuration, cellsDimension);
    serial.Some? && SameResult(serial.value, parallel, epsilon)
  }

  lemma FirstSettledUnique(g: Grid, rows: nat, cols: nat, mult: real, epsilon: real, k: nat, k': nat)
    requires Rect(g, rows, cols)
    requires FirstSettled(g, rows, cols, mult, epsilon, k) && FirstSettled(g, rows, cols, mult, epsilon, k')
    ensures k == k'
  {
    hide Settled, State;
  }

  /** Two warm cells, cold enough to be settled after one state. */
  lemma TwoCellsSettleAtOnce(t: real, mult: real, epsilon: real)
    requires Abs(3.0 * mult * t) <= epsilon
    ensures FirstSettled(TwoCells(t), 4, 3, mult, epsilon, 1)
    ensures State(TwoCells(t), 4, 3, mult, 1)[1][1] == (1.0 - 3.0 * mult) * t
  {
    hide Next, Stencil;
    var g := TwoCells(t);
    assert State(g, 4, 3, mult, 0) == g && State(g, 4, 3, mult, 1) == Next(g, 4, 3, mult);
    TwoCellsNext(g, t, mult);
    var h := State(g, 4, 3, mult, 1);
    assert (1.0 - 3.0 * mult) * t == t - 3.0 * mult * t;
    forall r, c | Interior(4, 3, r, c) ensures Abs(h[r][c] - g[r][c]) <= epsilon {
      assert c == 1 && (r == 1 || r == 2);
    }
  }

  lemma SmallProduct(m: real, t: real, d: real)
    requires t > 0.0 && 3.0 * Abs(m) <= d
    ensures Abs(3.0 * m * t) <= d * t
  {
    Scale(t, 3.0 * m, d);
    Scale(t, -(3.0 * m), d);
  }

  /** A temperature that suits both constants. */
  lemma SmallTemperature(m: real, m': real, epsilon: real) returns (t: real)
    requires epsilon > 0.0
    ensures t > 0.0 && Abs(3.0 * m * t) <= epsilon && Abs(3.0 * m' * t) <= epsilon
  {
    var d := 3.0 * Abs(m) + 3.0 * Abs(m') + 1.0;
    t := epsilon / d;
    QuotientTimes(epsilon, d);
    NonNegativeQuotient(epsilon, d);
    assert t != 0.0;
    SmallProduct(m, t, d);
    SmallProduct(m', t, d);
  }

  lemma Cancel(t: real, a: real, b: real)
    requires t > 0.0
    ensures a * t == b * t ==> a == b
  {
    if a * t == b * t {
      assert (a - b) * t == 0.0;
    }
  }

  /** Different constants give different plates. */
  lemma SameResultExactly(m: real, m': real, epsilon: real)
    requires epsilon > 0.0
    ensures SameResult(m, m', epsilon) <==> m == m'
  {
    hide FirstSettled, State, TwoCells;
    if m == m' {
      forall g, rows: nat, cols: nat, k: nat, k': nat |
        rows >= 3 && cols >= 3 && Rect(g, rows, cols)
        && FirstSettled(g, rows, cols, m, epsilon, k) && FirstSettled(g, rows, cols, m', epsilon, k')
        ensures k == k'
      {
        FirstSettledUnique(g, rows, cols, m, epsilon, k, k');
      }
    } else if SameResult(m, m', epsilon) {
      var t := SmallTemperature(m, m', epsilon);
      TwoCellsSettleAtOnce(t, m, epsilon);
      TwoCellsSettleAtOnce(t, m', epsilon);
      Cancel(t, 1.0 - 3.0 * m, 1.0 - 3.0 * m');
    }
  }

  /** With an epsilon that is not positive, no two non-zero constants can be told apart. */
  lemma SameResultWithoutTolerance(m: real, m': real, epsilon: real)
    requires epsilon <= 0.0 && (m == 0.0 <==> m' == 0.0)
    ensures SameResult(m, m', epsilon)
  {
    hide State, Next;
    forall g, rows: nat, cols: nat, k: nat, k': nat |
      rows >= 3 && cols >= 3 && Rect(g, rows, cols)
      && FirstSettled(g, rows, cols, m, epsilon, k) && FirstSettled(g, rows, cols, m', epsilon, k')
      ensures k == k' && State(g, rows, cols, m, k) == State(g, rows, cols, m', k')
    {
      assert Interior(rows, cols, 1, 1);
      assert epsilon == 0.0;
      if m == m' {
        FirstSettledUnique(g, rows, cols, m, epsilon, k, k');
      } else {
        SettlesWithBoth(g, rows, cols, m, m', k, k');
      }
    }
  }

  /** The area truncates to zero exactly below one. */
  lemma AreaVanishesBelowOne(thermalDiffusivity: real, intervalDuration: nat, cellsDimension: real)
    ensures SerialConstant(thermalDiffusivity, intervalDuration, cellsDimension).None?
       <==> cellsDimension * cellsDimension < 1.0
  {
  }

  lemma QuotientVanishes(n: real, a: real)
    requires a != 0.0
    ensures n / a == 0.0 <==> n == 0.0
  {
    assert n / a * a == n;
  }

  /** Whether anything diffuses does not depend on the area. */
  lemma BothVanish(thermalDiffusivity: real, intervalDuration: nat, cellsDimension: real)
    requires S.SerialCellArea(cellsDimension) > 0 && cellsDimension * cellsDimension != 0.0
    ensures S.SerialMult(thermalDiffusivity, intervalDuration, cellsDimension) == 0.0
       <==> S.ParallelMult(thermalDiffusivity, intervalDuration, cellsDimension) == 0.0
  {
    var n := thermalDiffusivity * (intervalDuration as real);
    QuotientVanishes(n, S.SerialCellArea(cellsDimension) as real);
    QuotientVanishes(n, cellsDimension * cellsDimension);
  }

  // ---- Main results ----

  /**
   * For every non-zero area and every epsilon: the serial and the parallel programs leave the same plates and
   * numbers of states exactly when the area is at least one, and a whole number unless nothing diffuses or
   * epsilon is not positive.
   */
  lemma ProgramsAgreeExactly(thermalDiffusivity: real, intervalDuration: nat, cellsDimension: real, epsilon: real)
    requires cellsDimension * cellsDimension != 0.0
    ensures ProgramsAgree(thermalDiffusivity, intervalDuration, cellsDimension, epsilon)
       <==> cellsDimension * cellsDimension >= 1.0 &&
            (S.IsWhole(cellsDimension * cellsDimension) ||
             thermalDiffusivity == 0.0 || intervalDuration == 0 || epsilon <= 0.0)
  {
    hide SameResult, S.SerialMult, S.ParallelMult, S.IsWhole;
    AreaVanishesBelowOne(thermalDiffusivity, intervalDuration, cellsDimension);
    var serial := SerialConstant(thermalDiffusivity, intervalDuration, cellsDimension);
    if serial.Some? {
      var parallel := S.ParallelMult(thermalDiffusivity, intervalDuration, cellsDimension);
      if epsilon > 0.0 {
        S.MultConstantsAgree(thermalDiffusivity, intervalDuration, cellsDimension);
        SameResultExactly(serial.value, parallel, epsilon);
      } else {
        BothVanish(thermalDiffusivity, intervalDuration, cellsDimension);
        SameResultWithoutTolerance(serial.value, parallel, epsilon);
      }
    }
  }

  /** Cells of side 1.5 lead the programs to different results, for every positive epsilon. */
  lemma TruncatedAreaDiffers(epsilon: real)
    requires epsilon > 0.0
    ensures !ProgramsAgree(1.0, 9, 1.5, epsilon)
  {
    ProgramsAgreeExactly(1.0, 9, 1.5, epsilon);
  }

  /**
   * When the programs agree, every run of the pthread program that ends leaves the plate and the number of
   * states that the serial program leaves.
   */
  lemma BarrierLeavesSerialPlate(c: B.Config, g: Grid, run: seq<B.State>, k: nat,
                                 thermalDiffusivity: real, intervalDuration: nat, cellsDimension: real)
    requires c.rows >= 3 && c.cols >= 3 && cellsDimension * cellsDimension != 0.0
    requires B.IsRun(c, g, run) && B.AllFinished(run[|run| - 1])
    requires c.mult == S.ParallelMult(thermalDiffusivity, intervalDuration, cellsDimension)
    requires ProgramsAgree(thermalDiffusivity, intervalDuration, cellsDimension, c.epsilon)
    requires var serial := S.SerialMult(thermalDiffusivity, intervalDuration, cellsDimension);
             FirstSettled(g, c.rows, c.cols, serial, c.epsilon, k)
    ensures var s, serial := run[|run| - 1], S.SerialMult(thermalDiffusivity, intervalDuration, cellsDimension);
            && s.kStates == k && B.Shape(c, s)
            && Unflatten(B.SetAuxiliary(s).matrix, c.rows, c.cols) == State(g, c.rows, c.cols, serial, k)
  {
    hide FirstSettled, State, Unflatten, S.SerialMult, S.ParallelMult;
    B.BarrierRefinesSerial(c, g, run);
  }
}
