/**
 * The optimized plate: both buffers are flat arrays, cell (r, c) at index r * cols + c. Used by the
 * pthread and by the OpenMP program. Here a round runs block after block; the threads of the two programs
 * are in BarrierPlate and OmpTeam.
 */
module FlatPlate {
  import opened HeatGrid
  import opened BlockMap

  /** The new temperature of an interior cell, read from flat storage. */
  function FlatCell(aux: seq<real>, rows: nat, cols: nat, mult: real, r: nat, c: nat): real
    requires |aux| == rows * cols && Interior(rows, cols, r, c)
  {
    Stencil(At(aux, rows, cols, r, c), At(aux, rows, cols, r - 1, c), At(aux, rows, cols, r, c + 1),
            At(aux, rows, cols, r + 1, c), At(aux, rows, cols, r, c - 1), mult)
  }

  lemma FlatCellIsNextCell(aux: seq<real>, rows: nat, cols: nat, mult: real, r: nat, c: nat)
    requires |aux| == rows * cols && Interior(rows, cols, r, c)
    ensures FlatCell(aux, rows, cols, mult, r, c) == Next(Unflatten(aux, rows, cols), rows, cols, mult)[r][c]
  {
    assert Next(Unflatten(aux, rows, cols), rows, cols, mult)[r][c]
        == NextCell(Unflatten(aux, rows, cols), rows, cols, mult, r, c);
  }

  ghost predicate FlatSameBorder(a: seq<real>, b: seq<real>, rows: nat, cols: nat)
    requires |a| == |b| == rows * cols
  {
    forall r: nat, c: nat :: r < rows && c < cols && !Interior(rows, cols, r, c) ==>
                               At(a, rows, cols, r, c) == At(b, rows, cols, r, c)
  }

  /** The interior cells that satisfy `done` hold their new temperature. */
  ghost predicate FlatSwept(aux: seq<real>, matrix: seq<real>, rows: nat, cols: nat, mult: real,
                            done: (nat, nat) -> bool)
    requires |aux| == |matrix| == rows * cols
  {
    forall r: nat, c: nat :: Interior(rows, cols, r, c) && done(r, c) ==>
                               At(matrix, rows, cols, r, c) == FlatCell(aux, rows, cols, mult, r, c)
  }

  /** The rows [from, to). */
  ghost function RowsIn(from: nat, to: nat): (nat, nat) -> bool {
    (r: nat, c: nat) => from <= r < to
  }

  /** What a sweep from row `from` has visited when it stands at (row, col). */
  ghost function Before(from: nat, row: nat, col: nat): (nat, nat) -> bool {
    (r: nat, c: nat) => from <= r && (r < row || (r == row && c < col))
  }

  function FlatChange(aux: seq<real>, rows: nat, cols: nat, mult: real, r: nat, c: nat): real
    requires |aux| == rows * cols && Interior(rows, cols, r, c)
  {
    Abs(FlatCell(aux, rows, cols, mult, r, c) - At(aux, rows, cols, r, c))
  }

  /** No interior cell that satisfies `done` moves by more than epsilon. */
  ghost predicate FlatWithin(aux: seq<real>, rows: nat, cols: nat, mult: real, epsilon: real, done: (nat, nat) -> bool)
    requires |aux| == rows * cols
  {
    forall r: nat, c: nat :: Interior(rows, cols, r, c) && done(r, c) ==>
                               FlatChange(aux, rows, cols, mult, r, c) <= epsilon
  }

  /** No interior cell that satisfies `done` has moved up or down by more than epsilon. */
  ghost predicate NoFlatCellMoves(aux: seq<real>, matrix: seq<real>, rows: nat, cols: nat, epsilon: real,
                                  done: (nat, nat) -> bool)
    requires |aux| == |matrix| == rows * cols
  {
    forall r: nat, c: nat :: Interior(rows, cols, r, c) && done(r, c) ==>
                               -epsilon <= At(matrix, rows, cols, r, c) - At(aux, rows, cols, r, c) <= epsilon
  }

  /** On cells that have been computed the test needs no distance. */
  lemma FlatWithinMeans(aux: seq<real>, matrix: seq<real>, rows: nat, cols: nat, mult: real, epsilon: real,
                        done: (nat, nat) -> bool)
    requires |aux| == |matrix| == rows * cols && FlatSwept(aux, matrix, rows, cols, mult, done)
    ensures FlatWithin(aux, rows, cols, mult, epsilon, done)
       <==> NoFlatCellMoves(aux, matrix, rows, cols, epsilon, done)
  {
    hide FlatCell, At;
    forall r: nat, c: nat | Interior(rows, cols, r, c) && done(r, c)
      ensures FlatChange(aux, rows, cols, mult, r, c) <= epsilon
         <==> -epsilon <= At(matrix, rows, cols, r, c) - At(aux, rows, cols, r, c) <= epsilon
    {
    }
  }

  /** A complete sweep over a plate with an equal border leaves the next state. */
  lemma SweptIsNext(aux: seq<real>, matrix: seq<real>, rows: nat, cols: nat, mult: real, done: (nat, nat) -> bool)
    requires |aux| == |matrix| == rows * cols
    requires FlatSwept(aux, matrix, rows, cols, mult, done) && FlatSameBorder(aux, matrix, rows, cols)
    requires forall r: nat, c: nat :: Interior(rows, cols, r, c) ==> done(r, c)
    ensures Unflatten(matrix, rows, cols) == Next(Unflatten(aux, rows, cols), rows, cols, mult)
  {
    var g, h := Unflatten(matrix, rows, cols), Next(Unflatten(aux, rows, cols), rows, cols, mult);
    forall r, c | 0 <= r < rows && 0 <= c < cols ensures g[r][c] == h[r][c] {
      assert g[r][c] == At(matrix, rows, cols, r, c);
      if Interior(rows, cols, r, c) {
        FlatCellIsNextCell(aux, rows, cols, mult, r, c);
      } else {
        assert h[r][c] == At(aux, rows, cols, r, c);
      }
    }
    GridEqual(g, h, rows, cols);
  }

  lemma FlatWithinIsWithin(aux: seq<real>, rows: nat, cols: nat, mult: real, epsilon: real, done: (nat, nat) -> bool)
    requires |aux| == rows * cols
    requires forall r: nat, c: nat :: Interior(rows, cols, r, c) ==> done(r, c)
    ensures FlatWithin(aux, rows, cols, mult, epsilon, done) <==>
            Within(Unflatten(aux, rows, cols), Next(Unflatten(aux, rows, cols), rows, cols, mult), rows, cols, epsilon)
  {
    var g := Unflatten(aux, rows, cols);
    var h := Next(g, rows, cols, mult);
    forall r: nat, c: nat | Interior(rows, cols, r, c)
      ensures FlatChange(aux, rows, cols, mult, r, c) == Abs(h[r][c] - g[r][c])
    {
      FlatCellIsNextCell(aux, rows, cols, mult, r, c);
    }
    hide Next, Unflatten;
  }

  class FlatMatrix {
    const rows: nat
    const cols: nat
    var matrix: array<real>
    var auxiliary: array<real>

    ghost predicate Valid()
      reads this
    {
      && rows >= 2 && cols >= 1 && matrix != auxiliary
      && matrix.Length == rows * cols && auxiliary.Length == rows * cols
    }

    ghost predicate SameBorder()
      requires Valid()
      reads this, matrix, auxiliary
    {
      FlatSameBorder(auxiliary[..], matrix[..], rows, cols)
    }

    constructor (rows: nat, cols: nat)
      requires rows >= 2 && cols >= 1
      ensures Valid() && fresh(matrix) && fresh(auxiliary)
      ensures this.rows == rows && this.cols == cols
    {
      this.rows, this.cols := rows, cols;
      matrix := new real[rows * cols](_ => 0.0);
      auxiliary := new real[rows * cols](_ => 0.0);
    }

    /** One store into a buffer. */
    method Store(buffer: array<real>, row: nat, col: nat, x: real)
      requires buffer.Length == rows * cols && row < rows && col < cols
      modifies buffer
      ensures buffer[..] == Put(old(buffer[..]), rows, cols, row, col, x)
    {
      IndexInBounds(rows, cols, row, col);
      buffer[row * cols + col] := x;
    }

    method InitAuxiliary()
      requires Valid()
      modifies auxiliary
      ensures Valid() && SameBorder()
      ensures forall r: nat, c: nat :: r < rows && c < cols && Interior(rows, cols, r, c) ==>
                                         At(auxiliary[..], rows, cols, r, c) == old(At(auxiliary[..], rows, cols, r, c))
    {
      ghost var start := auxiliary[..];
      var lastRow, lastCol := rows - 1, cols - 1;
      for col := 0 to cols
        invariant forall c: nat :: c < col ==> At(auxiliary[..], rows, cols, 0, c) == At(matrix[..], rows, cols, 0, c)
        invariant forall r: nat, c: nat :: r < rows && c < cols && Interior(rows, cols, r, c) ==>
                                             At(auxiliary[..], rows, cols, r, c) == At(start, rows, cols, r, c)
      {
        IndexInBounds(rows, cols, 0, col);
        Store(auxiliary, 0, col, matrix[col]);
      }
      for col := 0 to cols
        invariant forall c: nat :: c < cols ==> At(auxiliary[..], rows, cols, 0, c) == At(matrix[..], rows, cols, 0, c)
        invariant forall c: nat :: c < col ==>
                At(auxiliary[..], rows, cols, lastRow, c) == At(matrix[..], rows, cols, lastRow, c)
        invariant forall r: nat, c: nat :: r < rows && c < cols && Interior(rows, cols, r, c) ==>
                                             At(auxiliary[..], rows, cols, r, c) == At(start, rows, cols, r, c)
      {
        IndexInBounds(rows, cols, lastRow, col);
        Store(auxiliary, lastRow, col, matrix[lastRow * cols + col]);
      }
      for row := 1 to lastRow
        invariant forall c: nat :: c < cols ==> At(auxiliary[..], rows, cols, 0, c) == At(matrix[..], rows, cols, 0, c)
        invariant forall c: nat :: c < cols ==>
                At(auxiliary[..], rows, cols, lastRow, c) == At(matrix[..], rows, cols, lastRow, c)
        invariant forall r: nat :: 1 <= r < row ==>
                At(auxiliary[..], rows, cols, r, 0) == At(matrix[..], rows, cols, r, 0)
        invariant forall r: nat, c: nat :: r < rows && c < cols && Interior(rows, cols, r, c) ==>
                                             At(auxiliary[..], rows, cols, r, c) == At(start, rows, cols, r, c)
      {
        IndexInBounds(rows, cols, row, 0);
        Store(auxiliary, row, 0, matrix[row * cols]);
      }
      for row := 1 to lastRow
        invariant forall c: nat :: c < cols ==> At(auxiliary[..], rows, cols, 0, c) == At(matrix[..], rows, cols, 0, c)
        invariant forall c: nat :: c < cols ==>
                At(auxiliary[..], rows, cols, lastRow, c) == At(matrix[..], rows, cols, lastRow, c)
        invariant forall r: nat :: 1 <= r < lastRow ==>
                At(auxiliary[..], rows, cols, r, 0) == At(matrix[..], rows, cols, r, 0)
        invariant forall r: nat :: 1 <= r < row ==>
                At(auxiliary[..], rows, cols, r, lastCol) == At(matrix[..], rows, cols, r, lastCol)
        invariant forall r: nat, c: nat :: r < rows && c < cols && Interior(rows, cols, r, c) ==>
                                             At(auxiliary[..], rows, cols, r, c) == At(start, rows, cols, r, c)
      {
        IndexInBounds(rows, cols, row, lastCol);
        Store(auxiliary, row, lastCol, matrix[row * cols + lastCol]);
      }
    }

    method SetAuxiliary()
      requires Valid()
      modifies this
      ensures Valid()
      ensures matrix == old(auxiliary) && auxiliary == old(matrix)
    {
      var currentTemperatures := matrix;
      matrix := auxiliary;
      auxiliary := currentTemperatures;
    }

    method UpdateCell(row: nat, col: nat, mult: real)
      requires Valid() && Interior(rows, cols, row, col)
      modifies matrix
      ensures var temperature := FlatCell(auxiliary[..], rows, cols, mult, row, col);
              matrix[..] == Put(old(matrix[..]), rows, cols, row, col, temperature)
    {
      IndexInBounds(rows, cols, row, col);
      IndexInBounds(rows, cols, row - 1, col);
      IndexInBounds(rows, cols, row + 1, col);
      IndexInBounds(rows, cols, row, col + 1);
      IndexInBounds(rows, cols, row, col - 1);
      var index := row * cols + col;
      ghost var aux := auxiliary[..];
      assert auxiliary[index] == At(aux, rows, cols, row, col);
      assert auxiliary[(row - 1) * cols + col] == At(aux, rows, cols, row - 1, col);
      assert auxiliary[(row + 1) * cols + col] == At(aux, rows, cols, row + 1, col);
      assert auxiliary[index + 1] == At(aux, rows, cols, row, col + 1);
      assert auxiliary[index - 1] == At(aux, rows, cols, row, col - 1);
      var result := -4.0 * auxiliary[index];
      result := result + auxiliary[(row - 1) * cols + col];
      result := result + auxiliary[index + 1];
      result := result + auxiliary[(row + 1) * cols + col];
      result := result + auxiliary[index - 1];
      result := result * mult;
      result := result + auxiliary[index];
      assert result == FlatCell(aux, rows, cols, mult, row, col);
      matrix[index] := result;
      assert auxiliary[..] == aux;
      assert matrix[..] == old(matrix[..])[index := result];
    }

    /** The work of one thread on rows [startingRow, finishRow): the rest of the plate is left alone. */
    method EquilibrateRows(startingRow: nat, finishRow: nat, mult: real, epsilon: real) returns (equilibrated: bool)
      requires Valid() && 1 <= startingRow <= finishRow <= rows - 1
      modifies matrix
      ensures FlatSwept(auxiliary[..], matrix[..], rows, cols, mult, RowsIn(startingRow, finishRow))
      ensures forall r: nat, c: nat ::
                r < rows && c < cols && !(startingRow <= r < finishRow && Interior(rows, cols, r, c)) ==>
                  At(matrix[..], rows, cols, r, c) == old(At(matrix[..], rows, cols, r, c))
      ensures equilibrated <==> FlatWithin(auxiliary[..], rows, cols, mult, epsilon, RowsIn(startingRow, finishRow))
      ensures equilibrated <==>
              NoFlatCellMoves(auxiliary[..], matrix[..], rows, cols, epsilon, RowsIn(startingRow, finishRow))
    {
      hide FlatCell, NoFlatCellMoves;
      ghost var start := matrix[..];
      equilibrated := true;
      for row := startingRow to finishRow
        invariant FlatSwept(auxiliary[..], matrix[..], rows, cols, mult, RowsIn(startingRow, row))
        invariant forall r: nat, c: nat ::
                    r < rows && c < cols && !(startingRow <= r < row && Interior(rows, cols, r, c)) ==>
                      At(matrix[..], rows, cols, r, c) == At(start, rows, cols, r, c)
        invariant equilibrated <==> FlatWithin(auxiliary[..], rows, cols, mult, epsilon, RowsIn(startingRow, row))
      {
        var col := 1;
        while col < cols - 1
          invariant 1 <= col <= EndCol(cols)
          invariant FlatSwept(auxiliary[..], matrix[..], rows, cols, mult, Before(startingRow, row, col))
          invariant forall r: nat, c: nat ::
                      r < rows && c < cols &&
                      !(startingRow <= r && (r < row || (r == row && c < col)) && Interior(rows, cols, r, c)) ==>
                        At(matrix[..], rows, cols, r, c) == At(start, rows, cols, r, c)
          invariant equilibrated <==>
                    FlatWithin(auxiliary[..], rows, cols, mult, epsilon, Before(startingRow, row, col))
        {
          UpdateCell(row, col, mult);
          IndexInBounds(rows, cols, row, col);
          var accessed := row * cols + col;
          var newTemperature := matrix[accessed];
          var oldTemperature := auxiliary[accessed];
          var difference := Abs(newTemperature - oldTemperature);
          assert newTemperature == At(matrix[..], rows, cols, row, col);
          assert difference == FlatChange(auxiliary[..], rows, cols, mult, row, col);
          if difference > epsilon {
            equilibrated := false;
          }
          col := col + 1;
        }
      }
      FlatWithinMeans(auxiliary[..], matrix[..], rows, cols, mult, epsilon, RowsIn(startingRow, finishRow));
    }
  }

  // ---- Sharing the rows out among threads ----

  function Threads(count: nat): (ids: set<nat>)
    ensures forall t: nat :: t in ids <==> t < count
  {
    if count == 0 then {} else Threads(count - 1) + {count - 1}
  }

  /** The cells in the rows of the finished blocks. */
  ghost function DoneBy(finished: set<nat>, rows: nat, count: nat): (nat, nat) -> bool
    requires rows >= 2 && count > 0
  {
    (r: nat, c: nat) => exists t :: t in finished && InBlock(r - 1, t, rows - 2, count)
  }

  lemma BlockInPlate(t: nat, rows: nat, count: nat)
    requires rows >= 2 && t < count
    ensures 1 <= FinishRow(t, rows - 2, count) + 1 <= FinishRow(t + 1, rows - 2, count) + 1 <= rows - 1
  {
    FinishRowMonotone(0, t, rows - 2, count);
    FinishRowMonotone(t, t + 1, rows - 2, count);
    FinishRowMonotone(t + 1, count, rows - 2, count);
    FinishRowEnds(rows - 2, count);
  }

  lemma AllBlocksDone(rows: nat, count: nat)
    requires rows >= 2 && count > 0
    ensures forall r: nat, c: nat :: 1 <= r < rows - 1 ==> DoneBy(Threads(count), rows, count)(r, c)
  {
    BlocksTile(rows - 2, count);
    forall r: nat, c: nat | 1 <= r < rows - 1 ensures DoneBy(Threads(count), rows, count)(r, c) {
      assert HasOwner(r - 1, rows - 2, count);
      var t: nat :| t < count && InBlock(r - 1, t, rows - 2, count);
      assert t in Threads(count);
    }
  }

  /** The state of a round in which the `finished` blocks have run. */
  ghost predicate Progress(aux: seq<real>, matrix: seq<real>, rows: nat, cols: nat, mult: real, epsilon: real,
                           count: nat, finished: set<nat>, equilibrated: bool)
    requires rows >= 2 && count > 0 && |aux| == |matrix| == rows * cols
  {
    && FlatSameBorder(aux, matrix, rows, cols)
    && FlatSwept(aux, matrix, rows, cols, mult, DoneBy(finished, rows, count))
    && (equilibrated <==> FlatWithin(aux, rows, cols, mult, epsilon, DoneBy(finished, rows, count)))
  }

  lemma BlockProgress(aux: seq<real>, before: seq<real>, after: seq<real>, rows: nat, cols: nat,
                      mult: real, epsilon: real, count: nat, finished: set<nat>, equilibrated: bool, t: nat, mine: bool)
    requires rows >= 2 && count > 0 && t < count && |aux| == |before| == |after| == rows * cols
    requires Progress(aux, before, rows, cols, mult, epsilon, count, finished, equilibrated)
    requires var from, to := FinishRow(t, rows - 2, count) + 1, FinishRow(t + 1, rows - 2, count) + 1;
             && FlatSwept(aux, after, rows, cols, mult, RowsIn(from, to))
             && (forall r: nat, c: nat :: r < rows && c < cols && !(from <= r < to && Interior(rows, cols, r, c)) ==>
                                            At(after, rows, cols, r, c) == At(before, rows, cols, r, c))
             && (mine <==> FlatWithin(aux, rows, cols, mult, epsilon, RowsIn(from, to)))
    ensures Progress(aux, after, rows, cols, mult, epsilon, count, finished + {t}, equilibrated && mine)
  {
    hide FlatCell, FlatChange, FinishRow, At;
    var was, now := DoneBy(finished, rows, count), DoneBy(finished + {t}, rows, count);
    var from, to := FinishRow(t, rows - 2, count) + 1, FinishRow(t + 1, rows - 2, count) + 1;
    forall r: nat, c: nat ensures now(r, c) <==> was(r, c) || from <= r < to {
      if was(r, c) {
        var u :| u in finished && InBlock(r - 1, u, rows - 2, count);
        assert u in finished + {t};
      }
      if from <= r < to {
        assert t in finished + {t} && InBlock(r - 1, t, rows - 2, count);
      }
    }
    assert FlatSwept(aux, after, rows, cols, mult, now);
    assert equilibrated && mine <==> FlatWithin(aux, rows, cols, mult, epsilon, now);
  }

  lemma NothingDone(aux: seq<real>, matrix: seq<real>, rows: nat, cols: nat, mult: real, epsilon: real, count: nat)
    requires rows >= 2 && count > 0 && |aux| == |matrix| == rows * cols && FlatSameBorder(aux, matrix, rows, cols)
    ensures Progress(aux, matrix, rows, cols, mult, epsilon, count, {}, true)
  {
  }

  /** A round in which all blocks have run is one state of the simulation. */
  lemma AllDone(aux: seq<real>, matrix: seq<real>, rows: nat, cols: nat, mult: real, epsilon: real,
                count: nat, equilibrated: bool)
    requires rows >= 2 && count > 0 && |aux| == |matrix| == rows * cols
    requires Progress(aux, matrix, rows, cols, mult, epsilon, count, Threads(count), equilibrated)
    ensures FlatSameBorder(aux, matrix, rows, cols)
    ensures var g := Unflatten(aux, rows, cols);
            && Unflatten(matrix, rows, cols) == Next(g, rows, cols, mult)
            && (equilibrated <==> Within(g, Next(g, rows, cols, mult), rows, cols, epsilon))
  {
    AllBlocksDone(rows, count);
    SweptIsNext(aux, matrix, rows, cols, mult, DoneBy(Threads(count), rows, count));
    FlatWithinIsWithin(aux, rows, cols, mult, epsilon, DoneBy(Threads(count), rows, count));
  }

  /** The OpenMP program in one thread: the swap opens the round, and a reduction joins the flags of the blocks. */
  class OmpPlate {
    const plateMatrix: FlatMatrix
    const epsilon: real
    var kStates: nat

    constructor (plateMatrix: FlatMatrix, epsilon: real)
      ensures this.plateMatrix == plateMatrix && this.epsilon == epsilon && this.kStates == 0
    {
      this.plateMatrix, this.epsilon, this.kStates := plateMatrix, epsilon, 0;
    }

    /**
     * One round. The row loop is shared out in `threadCount` blocks; the order in which the blocks
     * run is arbitrary, and so is the order in which their flags are combined.
     */
    method Round(threadCount: nat, mult: real) returns (equilibratedPlate: bool)
      requires plateMatrix.Valid() && plateMatrix.SameBorder() && threadCount > 0
      modifies this`kStates, plateMatrix, plateMatrix.matrix, plateMatrix.auxiliary
      ensures plateMatrix.Valid() && plateMatrix.SameBorder() && kStates == old(kStates) + 1
      ensures plateMatrix.matrix == old(plateMatrix.auxiliary) && plateMatrix.auxiliary == old(plateMatrix.matrix)
      ensures var rows, cols := plateMatrix.rows, plateMatrix.cols;
              var g := old(Unflatten(plateMatrix.matrix[..], plateMatrix.rows, plateMatrix.cols));
              && Unflatten(plateMatrix.matrix[..], rows, cols) == Next(g, rows, cols, mult)
              && (equilibratedPlate <==> Within(g, Next(g, rows, cols, mult), rows, cols, epsilon))
    {
      hide Next, Unflatten, FlatSwept, FlatWithin, Within, Progress, RowsIn, FinishRow;
      var p := plateMatrix;
      kStates := kStates + 1;
      p.SetAuxiliary();
      equilibratedPlate := true;
      var rows, cols := p.rows, p.cols;
      ghost var aux := p.auxiliary[..];
      NothingDone(aux, p.matrix[..], rows, cols, mult, epsilon, threadCount);
      var waiting := Threads(threadCount);
      ghost var finished: set<nat> := {};
      while waiting != {}
        invariant waiting + finished == Threads(threadCount) && kStates == old(kStates) + 1
        invariant p.Valid() && p.matrix == old(p.auxiliary) && p.auxiliary == old(p.matrix) && p.auxiliary[..] == aux
        invariant Progress(aux, p.matrix[..], rows, cols, mult, epsilon, threadCount, finished, equilibratedPlate)
      {
        var t :| t in waiting;
        BlockInPlate(t, rows, threadCount);
        ghost var before := p.matrix[..];
        var first, last := FinishRow(t, rows - 2, threadCount) + 1, FinishRow(t + 1, rows - 2, threadCount) + 1;
        var mine := p.EquilibrateRows(first, last, mult, epsilon);
        BlockProgress(aux, before, p.matrix[..], rows, cols, mult, epsilon,
                      threadCount, finished, equilibratedPlate, t, mine);
        equilibratedPlate := equilibratedPlate && mine;
        waiting, finished := waiting - {t}, finished + {t};
      }
      assert finished == Threads(threadCount);
      AllDone(aux, p.matrix[..], rows, cols, mult, epsilon, threadCount, equilibratedPlate);
    }

    /** The same grid and the same number of states as the serial program. */
    method EquilibratePlate(threadCount: nat, mult: real)
      requires plateMatrix.Valid() && plateMatrix.SameBorder() && threadCount > 0
      requires var g := Unflatten(plateMatrix.matrix[..], plateMatrix.rows, plateMatrix.cols);
               Settles(g, plateMatrix.rows, plateMatrix.cols, mult, epsilon)
      modifies this, plateMatrix, plateMatrix.matrix, plateMatrix.auxiliary
      ensures plateMatrix.Valid() && plateMatrix.SameBorder() && kStates >= old(kStates)
      ensures var g := old(Unflatten(plateMatrix.matrix[..], plateMatrix.rows, plateMatrix.cols));
              && FirstSettled(g, plateMatrix.rows, plateMatrix.cols, mult, epsilon, kStates - old(kStates))
              && Unflatten(plateMatrix.matrix[..], plateMatrix.rows, plateMatrix.cols)
                 == HeatGrid.State(g, plateMatrix.rows, plateMatrix.cols, mult, kStates - old(kStates))
    {
      hide Next, Within, Unflatten;
      ghost var rows, cols := plateMatrix.rows, plateMatrix.cols;
      ghost var g := Unflatten(plateMatrix.matrix[..], rows, cols);
      ghost var bound: nat :| Settled(g, rows, cols, mult, epsilon, bound);
      ghost var last := FirstSettledUpTo(g, rows, cols, mult, epsilon, bound);
      while true
        invariant plateMatrix.Valid() && plateMatrix.SameBorder()
        invariant {plateMatrix.matrix, plateMatrix.auxiliary} == {old(plateMatrix.matrix), old(plateMatrix.auxiliary)}
        invariant kStates >= old(kStates) && kStates - old(kStates) < last
        invariant Unflatten(plateMatrix.matrix[..], rows, cols)
                == HeatGrid.State(g, rows, cols, mult, kStates - old(kStates))
        invariant forall j: nat :: j <= kStates - old(kStates) ==> !Settled(g, rows, cols, mult, epsilon, j)
        decreases last - (kStates - old(kStates))
      {
        var equilibratedPlate := Round(threadCount, mult);
        assert equilibratedPlate <==> Settled(g, rows, cols, mult, epsilon, kStates - old(kStates));
        if equilibratedPlate {
          break;
        }
      }
    }
  }
}
