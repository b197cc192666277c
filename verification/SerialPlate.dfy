/**
 * The serial simulation: a plate with two buffers of doubles, modelled as exact reals, that swap
 * roles before every state. Proved against the states of HeatGrid.
 */
module SerialPlate {
  import opened HeatGrid

  function Row(a: array2<real>, r: nat): seq<real>
    requires r < a.Length0
    reads a
  {
    seq(a.Length1, c requires 0 <= c < a.Length1 reads a => a[r, c])
  }

  function View(a: array2<real>): (g: Grid)
    reads a
    ensures Rect(g, a.Length0, a.Length1)
    ensures forall r, c :: 0 <= r < a.Length0 && 0 <= c < a.Length1 ==> g[r][c] == a[r, c]
  {
    seq(a.Length0, r requires 0 <= r < a.Length0 reads a => Row(a, r))
  }

  class PlateMatrix {
    const rows: nat
    const cols: nat
    var matrix: array2<real>
    var auxiliary: array2<real>

    ghost predicate Valid()
      reads this
    {
      && rows >= 2 && cols >= 1
      && matrix != auxiliary
      && matrix.Length0 == rows && matrix.Length1 == cols
      && auxiliary.Length0 == rows && auxiliary.Length1 == cols
    }

    /** The two buffers agree on the border, so that swapping them keeps the heat sources. */
    ghost predicate SameBorder()
      requires Valid()
      reads this, matrix, auxiliary
    {
      forall r, c :: 0 <= r < rows && 0 <= c < cols && !Interior(rows, cols, r, c) ==>
                       auxiliary[r, c] == matrix[r, c]
    }

    constructor (rows: nat, cols: nat)
      requires rows >= 2 && cols >= 1
      ensures Valid() && fresh(matrix) && fresh(auxiliary)
      ensures this.rows == rows && this.cols == cols
      ensures forall r, c :: 0 <= r < rows && 0 <= c < cols ==> matrix[r, c] == auxiliary[r, c] == 0.0
    {
      this.rows, this.cols := rows, cols;
      matrix := new real[rows, cols]((_, _) => 0.0);
      auxiliary := new real[rows, cols]((_, _) => 0.0);
    }

    method InitAuxiliary()
      requires Valid()
      modifies auxiliary
      ensures Valid() && SameBorder()
      ensures forall r, c :: 0 <= r < rows && 0 <= c < cols && Interior(rows, cols, r, c) ==>
                               auxiliary[r, c] == old(auxiliary[r, c])
    {
      for col := 0 to cols
        invariant forall c :: 0 <= c < col ==> auxiliary[0, c] == matrix[0, c]
        invariant forall r, c :: 0 < r < rows && 0 <= c < cols ==> auxiliary[r, c] == old(auxiliary[r, c])
      {
        auxiliary[0, col] := matrix[0, col];
      }
      var lastRow := rows - 1;
      for col := 0 to cols
        invariant forall c :: 0 <= c < cols ==> auxiliary[0, c] == matrix[0, c]
        invariant forall c :: 0 <= c < col ==> auxiliary[lastRow, c] == matrix[lastRow, c]
        invariant forall r, c :: 0 < r < lastRow && 0 <= c < cols ==> auxiliary[r, c] == old(auxiliary[r, c])
      {
        auxiliary[lastRow, col] := matrix[lastRow, col];
      }
      for row := 1 to lastRow
        invariant forall c :: 0 <= c < cols ==> auxiliary[0, c] == matrix[0, c]
        invariant forall c :: 0 <= c < cols ==> auxiliary[lastRow, c] == matrix[lastRow, c]
        invariant forall r :: 0 < r < row ==> auxiliary[r, 0] == matrix[r, 0]
        invariant forall r, c :: 0 < r < lastRow && 0 < c < cols ==> auxiliary[r, c] == old(auxiliary[r, c])
      {
        auxiliary[row, 0] := matrix[row, 0];
      }
      var lastCol := cols - 1;
      for row := 1 to lastRow
        invariant forall c :: 0 <= c < cols ==> auxiliary[0, c] == matrix[0, c]
        invariant forall c :: 0 <= c < cols ==> auxiliary[lastRow, c] == matrix[lastRow, c]
        invariant forall r :: 0 < r < lastRow ==> auxiliary[r, 0] == matrix[r, 0]
        invariant forall r :: 0 < r < row ==> auxiliary[r, lastCol] == matrix[r, lastCol]
        invariant forall r, c :: 0 < r < lastRow && 0 < c < lastCol ==> auxiliary[r, c] == old(auxiliary[r, c])
      {
        auxiliary[row, lastCol] := matrix[row, lastCol];
      }
    }

    method SetAuxiliary()
      requires Valid()
      modifies this
      ensures Valid()
      ensures matrix == old(auxiliary) && auxiliary == old(matrix)
    {
      var currentTemperatures := matrix;
      matrix := auxiliary;
      auxiliary := currentTemperatures;
    }

    method UpdateCell(row: nat, col: nat, mult: real)
      requires Valid() && Interior(rows, cols, row, col)
      modifies matrix
      ensures matrix[row, col] == NextCell(View(auxiliary), rows, cols, mult, row, col)
      ensures forall r, c :: 0 <= r < rows && 0 <= c < cols && (r != row || c != col) ==>
                               matrix[r, c] == old(matrix[r, c])
    {
      var current := auxiliary;
      var result := -4.0 * current[row, col];
      result := result + current[row - 1, col];
      result := result + current[row, col + 1];
      result := result + current[row + 1, col];
      result := result + current[row, col - 1];
      result := result * mult;
      result := result + current[row, col];
      matrix[row, col] := result;
    }
  }

  /** The serial program stores the area of a cell in an unsigned integer: the fraction is lost. */
  function SerialCellArea(cellsDimension: real): (area: int)
    ensures area as real <= cellsDimension * cellsDimension < area as real + 1.0
  {
    (cellsDimension * cellsDimension).Floor
  }

  function SerialMult(thermalDiffusivity: real, intervalDuration: nat, cellsDimension: real): (mult: real)
    requires SerialCellArea(cellsDimension) > 0
    ensures mult * (SerialCellArea(cellsDimension) as real) == thermalDiffusivity * (intervalDuration as real)
  {
    thermalDiffusivity * (intervalDuration as real) / (SerialCellArea(cellsDimension) as real)
  }

  class Plate {
    const plateMatrix: PlateMatrix
    const thermalDiffusivity: real
    const intervalDuration: nat
    const cellsDimension: real
    const epsilon: real
    var kStates: nat

    ghost predicate Valid()
      reads this, plateMatrix
    {
      plateMatrix.Valid() && SerialCellArea(cellsDimension) > 0
    }

    ghost function Mult(): real
      requires SerialCellArea(cellsDimension) > 0
    {
      SerialMult(thermalDiffusivity, intervalDuration, cellsDimension)
    }

    constructor (plateMatrix: PlateMatrix, thermalDiffusivity: real, intervalDuration: nat,
                 cellsDimension: real, epsilon: real)
      ensures this.plateMatrix == plateMatrix && this.thermalDiffusivity == thermalDiffusivity
      ensures this.intervalDuration == intervalDuration && this.cellsDimension == cellsDimension
      ensures this.epsilon == epsilon
    {
      this.plateMatrix, this.thermalDiffusivity := plateMatrix, thermalDiffusivity;
      this.intervalDuration, this.cellsDimension := intervalDuration, cellsDimension;
      this.epsilon, this.kStates := epsilon, 0;
    }

    /** One state: the buffers swap, every interior cell moves, and the biggest change decides. */
    method UpdatePlate() returns (reachedEquilibrium: bool)
      requires Valid() && plateMatrix.SameBorder()
      modifies plateMatrix, plateMatrix.matrix, plateMatrix.auxiliary
      ensures Valid() && plateMatrix.SameBorder()
      ensures plateMatrix.matrix == old(plateMatrix.auxiliary) && plateMatrix.auxiliary == old(plateMatrix.matrix)
      ensures View(plateMatrix.auxiliary) == old(View(plateMatrix.matrix))
      ensures View(plateMatrix.matrix)
              == Next(old(View(plateMatrix.matrix)), plateMatrix.rows, plateMatrix.cols, Mult())
      ensures var g, h := old(View(plateMatrix.matrix)), View(plateMatrix.matrix);
              && (reachedEquilibrium <==>
                  0.0 <= epsilon && Within(g, h, plateMatrix.rows, plateMatrix.cols, epsilon))
              && (reachedEquilibrium <==>
                  0.0 <= epsilon && NoCellMoves(g, h, plateMatrix.rows, plateMatrix.cols, epsilon))
    {
      hide Next, NextCell, View, Within, NoCellMoves, BiggestChange;
      var p := plateMatrix;
      ghost var g := View(p.matrix);
      p.SetAuxiliary();
      reachedEquilibrium := true;
      var biggestChange := 0.0;
      var diffTimesInterval := thermalDiffusivity * (intervalDuration as real);
      var cellArea := SerialCellArea(cellsDimension);
      var multConstant := diffTimesInterval / (cellArea as real);
      ghost var h := Next(g, p.rows, p.cols, multConstant);
      NextCells(g, p.rows, p.cols, multConstant);
      assert View(p.auxiliary) == g;
      for row := 1 to p.rows - 1
        invariant p.matrix == old(p.auxiliary) && p.auxiliary == old(p.matrix) && p.Valid()
        invariant View(p.auxiliary) == g
        invariant forall r, c :: 0 <= r < p.rows && 0 <= c < p.cols && !Interior(p.rows, p.cols, r, c) ==>
                                   p.matrix[r, c] == g[r][c]
        invariant forall r, c :: Interior(p.rows, p.cols, r, c) && r < row ==> p.matrix[r, c] == h[r][c]
        invariant biggestChange == BiggestBefore(g, h, p.rows, p.cols, row, 1)
      {
        var col := 1;
        while col < p.cols - 1
          invariant 1 <= col <= EndCol(p.cols)
          invariant p.matrix == old(p.auxiliary) && p.auxiliary == old(p.matrix) && p.Valid()
          invariant View(p.auxiliary) == g
          invariant forall r, c :: 0 <= r < p.rows && 0 <= c < p.cols && !Interior(p.rows, p.cols, r, c) ==>
                                     p.matrix[r, c] == g[r][c]
          invariant forall r, c :: Interior(p.rows, p.cols, r, c) && (r < row || (r == row && c < col)) ==>
                                     p.matrix[r, c] == h[r][c]
          invariant biggestChange == BiggestBefore(g, h, p.rows, p.cols, row, col)
        {
          p.UpdateCell(row, col, multConstant);
          assert p.matrix[row, col] == h[row][col];
          var newTemperature := p.matrix[row, col];
          var oldTemperature := p.auxiliary[row, col];
          var difference := Abs(newTemperature - oldTemperature);
          if difference > biggestChange {
            biggestChange := difference;
          }
          col := col + 1;
        }
      }
      GridEqual(View(p.matrix), h, p.rows, p.cols);
      BiggestChangeIs(g, h, p.rows, p.cols);
      BiggestChangeWithin(g, h, p.rows, p.cols, epsilon);
      WithinMeans(g, h, p.rows, p.cols, epsilon);
      if biggestChange > epsilon {
        reachedEquilibrium := false;
      }
    }

    /**
     * The simulation loop. It ends exactly on the plates that settle (with epsilon >= 0), and leaves
     * the first settled state and its number.
     */
    method EquilibratePlate()
      requires Valid() && plateMatrix.SameBorder()
      requires 0.0 <= epsilon && Settles(View(plateMatrix.matrix), plateMatrix.rows, plateMatrix.cols, Mult(), epsilon)
      modifies this, plateMatrix, plateMatrix.matrix, plateMatrix.auxiliary
      ensures Valid() && plateMatrix.SameBorder()
      ensures var g, rows, cols := old(View(plateMatrix.matrix)), plateMatrix.rows, plateMatrix.cols;
              && FirstSettled(g, rows, cols, Mult(), epsilon, kStates)
              && View(plateMatrix.matrix) == HeatGrid.State(g, rows, cols, Mult(), kStates)
    {
      hide Next, Within, View, SerialMult;
      ghost var g, rows, cols, mult := View(plateMatrix.matrix), plateMatrix.rows, plateMatrix.cols, Mult();
      ghost var bound: nat :| Settled(g, rows, cols, mult, epsilon, bound);
      ghost var last := FirstSettledUpTo(g, rows, cols, mult, epsilon, bound);
      var k: nat := 0;
      var reachedEquilibrium := false;
      while !reachedEquilibrium
        invariant Valid() && plateMatrix.SameBorder()
        invariant {plateMatrix.matrix, plateMatrix.auxiliary} == {old(plateMatrix.matrix), old(plateMatrix.auxiliary)}
        invariant View(plateMatrix.matrix) == HeatGrid.State(g, rows, cols, mult, k)
        invariant forall j: nat :: j < k ==> !Settled(g, rows, cols, mult, epsilon, j)
        invariant reachedEquilibrium <==> Settled(g, rows, cols, mult, epsilon, k)
        invariant k <= last
        decreases last - k, !reachedEquilibrium
      {
        assert !Settled(g, rows, cols, mult, epsilon, k);
        reachedEquilibrium := UpdatePlate();
        k := k + 1;
      }
      this.kStates := k;
    }
  }

  // ---- The multiplicative constant ----

  /** The parallel programs keep the area as a double. */
  function ParallelMult(thermalDiffusivity: real, intervalDuration: nat, cellsDimension: real): (mult: real)
    requires cellsDimension * cellsDimension != 0.0
    ensures mult * (cellsDimension * cellsDimension) == thermalDiffusivity * (intervalDuration as real)
  {
    thermalDiffusivity * (intervalDuration as real) / (cellsDimension * cellsDimension)
  }

  lemma NonZeroProduct(a: real, b: real)
    requires a != 0.0 && b != 0.0
    ensures a * b != 0.0
  {
  }

  lemma QuotientsAgree(n: real, a: real, b: real)
    requires a > 0.0 && b > 0.0
    ensures n / a == n / b <==> (n == 0.0 || a == b)
  {
    var p, q := n / a, n / b;
    assert p * a == n && q * b == n;
    if p == q {
      assert p * (a - b) == 0.0;
      if a != b && p != 0.0 {
        NonZeroProduct(p, a - b);
      }
    }
  }

  predicate IsInteger(x: real, n: int) {
    x == n as real
  }

  ghost predicate IsWhole(x: real) {
    exists n: int :: IsInteger(x, n)
  }

  /** What truncates to itself is whole, and conversely. */
  lemma WholeArea(cellsDimension: real)
    ensures IsWhole(cellsDimension * cellsDimension)
       <==> cellsDimension * cellsDimension == SerialCellArea(cellsDimension) as real
  {
    assert cellsDimension * cellsDimension == SerialCellArea(cellsDimension) as real ==>
      IsInteger(cellsDimension * cellsDimension, SerialCellArea(cellsDimension));
  }

  /** The serial and the parallel constants agree exactly when the cell area is a whole number, or nothing diffuses. */
  lemma MultConstantsAgree(thermalDiffusivity: real, intervalDuration: nat, cellsDimension: real)
    requires SerialCellArea(cellsDimension) > 0
    ensures cellsDimension * cellsDimension >= 1.0
    ensures SerialMult(thermalDiffusivity, intervalDuration, cellsDimension)
            == ParallelMult(thermalDiffusivity, intervalDuration, cellsDimension)
       <==> (IsWhole(cellsDimension * cellsDimension) || thermalDiffusivity == 0.0 || intervalDuration == 0)
  {
    WholeArea(cellsDimension);
    var x := cellsDimension * cellsDimension;
    QuotientsAgree(thermalDiffusivity * (intervalDuration as real), x.Floor as real, x);
    if thermalDiffusivity != 0.0 && intervalDuration != 0 {
      NonZeroProduct(thermalDiffusivity, intervalDuration as real);
    }
  }

  /** A cell of side 1.5 has area 2.25, which the serial program takes for 2. */
  lemma TruncatedAreaExample()
    ensures SerialCellArea(1.5) == 2
    ensures SerialMult(1.0, 9, 1.5) == 4.5 && ParallelMult(1.0, 9, 1.5) == 4.0
  {
  }
}
