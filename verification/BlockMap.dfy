/**
 * The static distribution by blocks: how a range of indices is split among workers.
 * The pthread simulation uses it for rows, the MPI program for an index range.
 */
module BlockMap {
  import opened Arith

  /** End (exclusive) of the first `number` blocks of `rows` rows split among `count` threads. */
  function FinishRow(number: nat, rows: nat, count: nat): nat
    requires count > 0
  {
    number * (rows / count) + (if number < rows % count then number else rows % count)
  }

  /** Size of block `number`: the first `rows % count` blocks hold one row more. */
  function BlockSize(number: nat, rows: nat, count: nat): nat
    requires count > 0
  {
    rows / count + (if number < rows % count then 1 else 0)
  }

  lemma FinishRowAdvances(number: nat, rows: nat, count: nat)
    requires count > 0
    ensures FinishRow(number + 1, rows, count) == FinishRow(number, rows, count) + BlockSize(number, rows, count)
  {
    assert (number + 1) * (rows / count) == number * (rows / count) + rows / count;
  }

  lemma {:induction false} FinishRowMonotone(a: nat, b: nat, rows: nat, count: nat)
    requires count > 0 && a <= b
    ensures FinishRow(a, rows, count) <= FinishRow(b, rows, count)
    decreases b - a
  {
    if a < b {
      FinishRowAdvances(a, rows, count);
      FinishRowMonotone(a + 1, b, rows, count);
    }
  }

  lemma FinishRowEnds(rows: nat, count: nat)
    requires count > 0
    ensures FinishRow(0, rows, count) == 0
    ensures FinishRow(count, rows, count) == rows
  {
    assert count * (rows / count) + rows % count == rows;
  }

  /** No worker is idle when there are no more workers than rows. */
  lemma BlockNotEmpty(number: nat, rows: nat, count: nat)
    requires 0 < count <= rows
    ensures BlockSize(number, rows, count) > 0
  {
    assert rows == count * (rows / count) + rows % count;
  }

  /** The blocks differ in size by at most one, the larger ones first. */
  lemma BlocksBalanced(a: nat, b: nat, rows: nat, count: nat)
    requires count > 0 && a <= b
    ensures BlockSize(b, rows, count) <= BlockSize(a, rows, count) <= BlockSize(b, rows, count) + 1
  {
  }

  ghost predicate InBlock(row: int, number: nat, rows: nat, count: nat)
    requires count > 0
  {
    FinishRow(number, rows, count) <= row < FinishRow(number + 1, rows, count)
  }

  ghost predicate HasOwner(row: nat, rows: nat, count: nat)
    requires count > 0
  {
    exists t: nat :: t < count && InBlock(row, t, rows, count)
  }

  /** Every row belongs to the block of some worker ... */
  lemma {:induction false} BlockOwner(row: nat, rows: nat, count: nat, upTo: nat) returns (owner: nat)
    requires count > 0 && upTo <= count && row < FinishRow(upTo, rows, count)
    ensures owner < upTo && InBlock(row, owner, rows, count)
  {
    FinishRowEnds(rows, count);
    if upTo > 0 && row >= FinishRow(upTo - 1, rows, count) {
      owner := upTo - 1;
    } else {
      owner := BlockOwner(row, rows, count, upTo - 1);
    }
  }

  /** ... and of no other: together the blocks tile the rows exactly. */
  lemma BlocksTile(rows: nat, count: nat)
    requires count > 0
    ensures forall row: nat :: row < rows ==> HasOwner(row, rows, count)
    ensures forall row: int, t: nat :: t < count && InBlock(row, t, rows, count) ==> 0 <= row < rows
    ensures forall row: int, t: nat, u: nat ::
              InBlock(row, t, rows, count) && InBlock(row, u, rows, count) ==> t == u
  {
    FinishRowEnds(rows, count);
    forall row: nat | row < rows
      ensures HasOwner(row, rows, count)
    {
      var t := BlockOwner(row, rows, count, count);
    }
    forall row: int, t: nat | t < count && InBlock(row, t, rows, count) ensures 0 <= row < rows {
      FinishRowMonotone(0, t, rows, count);
      FinishRowMonotone(t + 1, count, rows, count);
    }
    forall row: int, t: nat, u: nat | InBlock(row, t, rows, count) && InBlock(row, u, rows, count)
      ensures t == u
    {
      if t < u {
        FinishRowMonotone(t + 1, u, rows, count);
      } else if u < t {
        FinishRowMonotone(u + 1, t, rows, count);
      }
    }
  }

  /** The record of one worker thread, as the creation loop fills it. */
  datatype RowRange = RowRange(startingRow: nat, finishRow: nat)

  /** The rows of one thread; row 0 belongs to the border. */
  function RowsOf(number: nat, rows: nat, count: nat): RowRange
    requires count > 0
  {
    RowRange(FinishRow(number, rows, count) + 1, FinishRow(number + 1, rows, count) + 1)
  }

  /** Rows 1 .. rows - 2 of a plate, split among `count` threads, as the creation loop computes them. */
  method InitPrivateData(rows: nat, count: nat) returns (team: array<RowRange>)
    requires rows >= 3 && 0 < count <= rows - 2
    ensures fresh(team) && team.Length == count
    ensures forall t: nat :: t < count ==> team[t] == RowsOf(t, rows - 2, count)
    ensures forall t: nat :: t < count ==> 1 <= team[t].startingRow < team[t].finishRow <= rows - 1
    ensures team[0].startingRow == 1 && team[count - 1].finishRow == rows - 1
    ensures forall t: nat :: t + 1 < count ==> team[t].finishRow == team[t + 1].startingRow
  {
    var evaluatedRows := rows - 2;
    team := new RowRange[count](_ => RowRange(0, 0));
    var prevFinishRow := 1;
    FinishRowEnds(evaluatedRows, count);
    for t := 0 to count
      invariant prevFinishRow == FinishRow(t, evaluatedRows, count) + 1
      invariant forall u: nat :: u < t ==> team[u] == RowsOf(u, evaluatedRows, count)
      invariant forall u: nat :: u < t ==> 1 <= team[u].startingRow < team[u].finishRow <= rows - 1
    {
      FinishRowAdvances(t, evaluatedRows, count);
      BlockNotEmpty(t, evaluatedRows, count);
      FinishRowMonotone(t + 1, count, evaluatedRows, count);
      var finishRow := FinishRow(t + 1, evaluatedRows, count) + 1;
      team[t] := RowRange(prevFinishRow, finishRow);
      prevFinishRow := finishRow;
    }
  }

  // ---- The MPI version, over C `int`s: an arbitrary range, with division truncating toward zero ----

  function TruncDiv(a: int, b: int): int
    requires b > 0
  {
    if a >= 0 then a / b else -((-a) / b)
  }

  function TruncMod(a: int, b: int): int
    requires b > 0
  {
    a - b * TruncDiv(a, b)
  }

  function Min(a: int, b: int): int {
    if b < a then b else a
  }

  function CalculateStart(rank: int, end: int, workers: int, begin: int): int
    requires workers > 0
  {
    begin + rank * TruncDiv(end - begin, workers) + Min(rank, TruncMod(end - begin, workers))
  }

  function CalculateFinish(rank: int, end: int, workers: int, begin: int): int
    requires workers > 0
  {
    CalculateStart(rank + 1, end, workers, begin)
  }

  lemma ModOfMultiple(k: int, b: int)
    requires b > 0
    ensures (b * k) % b == 0
  {
    ModUnique(b * k, b, k, 0);
  }

  lemma TruncModSign(a: int, b: int)
    requires b > 0
    ensures a >= 0 ==> TruncDiv(a, b) == a / b && TruncMod(a, b) == a % b && 0 <= TruncMod(a, b) < b
    ensures a < 0 ==> -b < TruncMod(a, b) <= 0
    ensures TruncMod(a, b) == 0 <==> a % b == 0
  {
    if a >= 0 {
      assert a == b * (a / b) + a % b;
    } else {
      var q, r := (-a) / b, (-a) % b;
      assert -a == b * q + r;
      assert TruncMod(a, b) == a - b * (-q);
      assert b * (-q) == -(b * q);
      assert TruncMod(a, b) == -r;
      if r == 0 {
        assert a == b * (-q);
        ModOfMultiple(-q, b);
      } else {
        assert a == b * (-q - 1) + (b - r) by { assert b * (-q - 1) == b * (-q) - b; }
        ModUnique(a, b, -q - 1, b - r);
      }
    }
  }

  /** On a range that is not reversed it is the same map as the row distribution. */
  lemma CalculateStartIsFinishRow(rank: nat, end: int, workers: nat, begin: int)
    requires workers > 0 && begin <= end
    ensures CalculateStart(rank, end, workers, begin) == begin + FinishRow(rank, end - begin, workers)
  {
    TruncModSign(end - begin, workers);
  }

  /**
   * The last block always ends at `end`, but the first one starts at `begin` exactly when the range
   * is not reversed or the workers divide it: on other reversed ranges `std::min` picks the negative remainder.
   */
  lemma CalculateStartBegins(end: int, workers: int, begin: int)
    requires workers > 0
    ensures CalculateFinish(workers - 1, end, workers, begin) == end
    ensures CalculateStart(0, end, workers, begin) == begin <==> begin <= end || (end - begin) % workers == 0
  {
    var range := end - begin;
    TruncModSign(range, workers);
    assert 0 * TruncDiv(range, workers) == 0;
  }

  /**
   * On a reversed range all processes are given the same number of indices, none or less, and the last one
   * ends at `end`.
   */
  lemma CalculateStartReversed(rank: nat, end: int, workers: int, begin: int)
    requires workers > 0 && end < begin
    ensures var size := CalculateFinish(rank, end, workers, begin) - CalculateStart(rank, end, workers, begin);
            && size <= 0 && end - begin <= workers * size < end - begin + workers
            && CalculateStart(rank, end, workers, begin) == end - (workers - rank) * size
  {
    var q := TruncDiv(end - begin, workers);
    TruncModSign(end - begin, workers);
    assert (rank + 1) * q == rank * q + q;
    assert (workers - rank) * q == workers * q - rank * q;
    assert workers * ((begin - end) / workers) >= 0;
    assert workers * -((begin - end) / workers) == -(workers * ((begin - end) / workers));
  }

  /** A reversed range on which the first process does not start at `begin`. */
  lemma CalculateStartReversedExample()
    ensures CalculateStart(0, 3, 4, 5) == 3
  {
  }
}
