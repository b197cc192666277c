/**
 * The tasks of the merge sort as a tree in which any task may take the next step: it forks, sorts a
 * small range by the library, starts to merge when both halves are done, merges one element into its
 * temporary vector, or copies one element back.
 */
module MergeTasks {
  import opened MergeSort

  /** How far the sorting of a range has come; `i` and `j` are the next elements of the halves to merge. */
  datatype Task =
    | Todo
    | Forked(left: Task, right: Task)
    | Merging(temp: seq<int>, i: nat, j: nat)
    | Copying(temp: seq<int>, copied: nat)
    | Done

  datatype State = State(root: Task, values: seq<int>)

  /** A range of one element more than the difference of its inclusive bounds, lo and hi - 1. */
  predicate IsLarge(lo: nat, hi: nat) {
    hi - 1 - lo > 1024
  }

  /** Where the right half begins. */
  function Middle(lo: nat, hi: nat): (mid: nat)
    requires IsLarge(lo, hi)
    ensures lo < mid < hi
  {
    (lo + (hi - 1)) / 2 + 1
  }

  /** Whether the left half is worth a task of its own; otherwise the right task is not made before it ends. */
  predicate IsDeferred(lo: nat, hi: nat)
    requires IsLarge(lo, hi)
  {
    Middle(lo, hi) - 1 - lo >= 5000
  }

  /** The merge of v[i..mid] and v[j..hi] takes an element from the right only if it is smaller. */
  function OneMerged(temp: seq<int>, v: seq<int>, i: nat, mid: nat, j: nat, hi: nat): Task
    requires i <= mid && mid <= |v| && j <= hi <= |v|
  {
    if i == mid && j == hi then Copying(temp, 0)
    else if i == mid || (j < hi && v[j] < v[i]) then Merging(temp + [v[j]], i, j + 1)
    else Merging(temp + [v[i]], i + 1, j)
  }

  /** One step of one task in the tree of the range from `lo` to `hi`. */
  ghost predicate TaskStep(t: Task, lo: nat, hi: nat, v: seq<int>, t': Task, v': seq<int>)
    requires lo <= hi <= |v|
  {
    match t
    case Todo =>
      if IsLarge(lo, hi) then t' == Forked(Todo, Todo) && v' == v
      else t' == Done && |Sort(v[lo..hi])| == hi - lo && v' == Overwritten(v, lo, Sort(v[lo..hi]))
    case Forked(l, r) =>
      && IsLarge(lo, hi)
      && var mid := Middle(lo, hi);
         || (t'.Forked? && t'.right == r && TaskStep(l, lo, mid, v, t'.left, v'))
         || (t'.Forked? && t'.left == l && (l.Done? || IsDeferred(lo, hi)) && TaskStep(r, mid, hi, v, t'.right, v'))
         || (l.Done? && r.Done? && t' == Merging([], lo, mid) && v' == v)
    case Merging(temp, i, j) =>
      && IsLarge(lo, hi) && i <= Middle(lo, hi) && j <= hi
      && t' == OneMerged(temp, v, i, Middle(lo, hi), j, hi) && v' == v
    case Copying(temp, k) =>
      if k < |temp| then lo + k < hi && t' == Copying(temp, k + 1) && v' == v[lo + k := temp[k]]
      else t' == Done && v' == v
    case Done => false
  }

  ghost predicate Step(s: State, s': State) {
    TaskStep(s.root, 0, |s.values|, s.values, s'.root, s'.values)
  }

  ghost predicate IsRun(input: seq<int>, run: seq<State>) {
    && |run| > 0 && run[0] == State(Todo, input)
    && forall i :: 0 <= i < |run| - 1 ==> Step(run[i], run[i + 1])
  }

  /** Some task of the tree can take a step. */
  ghost predicate CanMove(s: State) {
    exists s' :: Step(s, s')
  }

  /**
   * Ranges of up to 1025 elements go to the library, larger ones to two halves that differ by at most one
   * element.
   */
  lemma ForksOrSorts(lo: nat, hi: nat, v: seq<int>, t': Task, v': seq<int>)
    requires lo <= hi <= |v| && TaskStep(Todo, lo, hi, v, t', v')
    ensures hi - lo <= 1025 ==> t' == Done && v'[..lo] + v'[hi..] == v[..lo] + v[hi..] && v'[lo..hi] == Sort(v[lo..hi])
    ensures hi - lo > 1025 ==>
              && t' == Forked(Todo, Todo) && v' == v
              && var left, right := Middle(lo, hi) - lo, hi - Middle(lo, hi);
                 right >= 513 && (left == right || left == right + 1)
  {
    hide Sort;
  }

  /** The right half moves before the left half is done only on ranges of more than 10000 elements. */
  lemma RightHalfMoves(l: Task, r: Task, lo: nat, hi: nat, v: seq<int>, r': Task, v': seq<int>)
    requires lo <= hi <= |v| && IsLarge(lo, hi) && !l.Done? && r' != r
    requires TaskStep(r, Middle(lo, hi), hi, v, r', v')
    ensures TaskStep(Forked(l, r), lo, hi, v, Forked(l, r'), v') <==> hi - lo > 10000
  {
  }

  // ---- A task keeps to its range ----

  predicate SameOutside(lo: nat, hi: nat, v: seq<int>, v': seq<int>) {
    |v'| == |v| && forall k :: 0 <= k < |v| && !(lo <= k < hi) ==> v'[k] == v[k]
  }

  /** No step of a task, nor of the tasks it has forked, touches an element outside its range. */
  lemma {:induction false} TaskStaysInside(t: Task, lo: nat, hi: nat, v: seq<int>, t': Task, v': seq<int>)
    requires lo <= hi <= |v| && TaskStep(t, lo, hi, v, t', v')
    ensures SameOutside(lo, hi, v, v')
  {
    if t.Forked? {
      var mid := Middle(lo, hi);
      if t'.Forked? && t'.right == t.right && TaskStep(t.left, lo, mid, v, t'.left, v') {
        TaskStaysInside(t.left, lo, mid, v, t'.left, v');
      } else if t'.Forked? && t'.left == t.left && TaskStep(t.right, mid, hi, v, t'.right, v') {
        TaskStaysInside(t.right, mid, hi, v, t'.right, v');
      }
    }
  }

  // ---- What holds of the range of a task ----

  /** What is merged and what is left to merge make up the result. */
  predicate MergeHolds(temp: seq<int>, v: seq<int>, lo: nat, i: nat, mid: nat, j: nat, hi: nat, result: seq<int>)
    requires hi <= |v|
  {
    lo <= i <= mid <= j <= hi && temp + Merged(v[i..mid], v[j..hi]) == result
  }

  /** `s` are the values before the sort. */
  ghost predicate Holds(t: Task, lo: nat, hi: nat, s: seq<int>, v: seq<int>)
    requires lo <= hi <= |s| == |v|
  {
    match t
    case Todo => v[lo..hi] == s[lo..hi]
    case Forked(l, r) =>
      && IsLarge(lo, hi)
      && Holds(l, lo, Middle(lo, hi), s, v) && Holds(r, Middle(lo, hi), hi, s, v)
    case Merging(temp, i, j) =>
      IsLarge(lo, hi) && MergeHolds(temp, v, lo, i, Middle(lo, hi), j, hi, Sort(s[lo..hi]))
    case Copying(temp, k) =>
      && IsLarge(lo, hi) && temp == Sort(s[lo..hi]) && |temp| == hi - lo
      && k <= |temp| && v[lo..lo + k] == temp[..k]
    case Done => v[lo..hi] == Sort(s[lo..hi])
  }

  /** Only the range itself matters. */
  lemma {:induction false} HoldsLocally(t: Task, lo: nat, hi: nat, s: seq<int>, v: seq<int>, v': seq<int>)
    requires lo <= hi <= |s| == |v| == |v'| && Holds(t, lo, hi, s, v)
    requires forall k :: lo <= k < hi ==> v'[k] == v[k]
    ensures Holds(t, lo, hi, s, v')
  {
    hide Sort, Merged;
    match t {
      case Forked(l, r) =>
        HoldsLocally(l, lo, Middle(lo, hi), s, v, v');
        HoldsLocally(r, Middle(lo, hi), hi, s, v, v');
      case Merging(_, i, j) =>
        assert v'[i..Middle(lo, hi)] == v[i..Middle(lo, hi)] && v'[j..hi] == v[j..hi];
      case Copying(_, k) => assert v'[lo..lo + k] == v[lo..lo + k];
      case _ => assert v'[lo..hi] == v[lo..hi];
    }
  }

  lemma ForkStarts(lo: nat, hi: nat, s: seq<int>, v: seq<int>)
    requires lo <= hi <= |s| == |v| && IsLarge(lo, hi) && Holds(Todo, lo, hi, s, v)
    ensures Holds(Forked(Todo, Todo), lo, hi, s, v)
  {
    var mid := Middle(lo, hi);
    assert v[lo..mid] == v[lo..hi][..mid - lo] && s[lo..mid] == s[lo..hi][..mid - lo];
    assert v[mid..hi] == v[lo..hi][mid - lo..] && s[mid..hi] == s[lo..hi][mid - lo..];
    assert Holds(Todo, lo, mid, s, v) && Holds(Todo, mid, hi, s, v);
  }

  lemma SortStarts(lo: nat, hi: nat, s: seq<int>, v: seq<int>)
    requires lo <= hi <= |s| == |v| && Holds(Todo, lo, hi, s, v)
    ensures |Sort(v[lo..hi])| == hi - lo
    ensures Holds(Done, lo, hi, s, Overwritten(v, lo, Sort(v[lo..hi])))
  {
    hide Sort;
    SortSorts(v[lo..hi]);
  }

  lemma MergeStarts(lo: nat, hi: nat, s: seq<int>, v: seq<int>)
    requires lo <= hi <= |s| == |v| && IsLarge(lo, hi) && Holds(Forked(Done, Done), lo, hi, s, v)
    ensures Holds(Merging([], lo, Middle(lo, hi)), lo, hi, s, v)
  {
    hide Sort, Merged;
    var mid := Middle(lo, hi);
    assert Holds(Done, lo, mid, s, v) && Holds(Done, mid, hi, s, v);
    MergeSortsWhole(s[lo..mid], s[mid..hi]);
    assert s[lo..mid] + s[mid..hi] == s[lo..hi];
  }

  /** The next element of the merge is the first of the left half, unless that of the right half is smaller. */
  lemma NextMerged(a: seq<int>, b: seq<int>)
    ensures a != [] && (b == [] || b[0] >= a[0]) ==> Merged(a, b) == [a[0]] + Merged(a[1..], b)
    ensures b != [] && (a == [] || b[0] < a[0]) ==> Merged(a, b) == [b[0]] + Merged(a, b[1..])
  {
    if a == [] {
      MergedWithEmpty(b);
      if b != [] {
        MergedWithEmpty(b[1..]);
      }
    } else if b == [] {
      MergedWithEmpty(a);
      MergedWithEmpty(a[1..]);
    }
  }

  lemma MergeGoesOn(temp: seq<int>, v: seq<int>, lo: nat, i: nat, mid: nat, j: nat, hi: nat, result: seq<int>)
    requires hi <= |v| && MergeHolds(temp, v, lo, i, mid, j, hi, result)
    ensures var t' := OneMerged(temp, v, i, mid, j, hi);
            if t'.Merging? then MergeHolds(t'.temp, v, lo, t'.i, mid, t'.j, hi, result) else t' == Copying(result, 0)
  {
    hide Merged;
    var a, b := v[i..mid], v[j..hi];
    NextMerged(a, b);
    if i == mid && j == hi {
      MergedWithEmpty([]);
      assert a == [] && b == [];
    } else if i == mid || (j < hi && v[j] < v[i]) {
      assert b[1..] == v[j + 1..hi];
    } else {
      assert a[1..] == v[i + 1..mid];
    }
  }

  lemma CopyGoesOn(t: Task, lo: nat, hi: nat, s: seq<int>, v: seq<int>, t': Task, v': seq<int>)
    requires lo <= hi <= |s| == |v| == |v'| && t.Copying?
    requires TaskStep(t, lo, hi, v, t', v') && Holds(t, lo, hi, s, v)
    ensures Holds(t', lo, hi, s, v')
  {
    hide Sort;
    if t.copied < |t.temp| {
      assert v'[lo..lo + t.copied + 1] == v[lo..lo + t.copied] + [t.temp[t.copied]];
    }
  }

  /** Whatever task of the tree moves, what holds of each goes on to hold. */
  lemma {:induction false} HoldsStep(t: Task, lo: nat, hi: nat, s: seq<int>, v: seq<int>, t': Task, v': seq<int>)
    requires lo <= hi <= |s| == |v| && TaskStep(t, lo, hi, v, t', v') && Holds(t, lo, hi, s, v)
    ensures |v'| == |v| && Holds(t', lo, hi, s, v')
  {
    hide Sort, Merged, Overwritten;
    TaskStaysInside(t, lo, hi, v, t', v');
    match t {
      case Todo =>
        if IsLarge(lo, hi) {
          ForkStarts(lo, hi, s, v);
        } else {
          SortStarts(lo, hi, s, v);
        }
      case Forked(l, r) =>
        var mid := Middle(lo, hi);
        if t'.Forked? && t'.right == r && TaskStep(l, lo, mid, v, t'.left, v') {
          HoldsStep(l, lo, mid, s, v, t'.left, v');
          TaskStaysInside(l, lo, mid, v, t'.left, v');
          HoldsLocally(r, mid, hi, s, v, v');
        } else if t'.Forked? && t'.left == l && TaskStep(r, mid, hi, v, t'.right, v') {
          HoldsStep(r, mid, hi, s, v, t'.right, v');
          TaskStaysInside(r, mid, hi, v, t'.right, v');
          HoldsLocally(l, lo, mid, s, v, v');
        } else {
          MergeStarts(lo, hi, s, v);
        }
      case Merging(temp, i, j) =>
        MergeGoesOn(temp, v, lo, i, Middle(lo, hi), j, hi, Sort(s[lo..hi]));
        SortSorts(s[lo..hi]);
      case Copying(_, _) => CopyGoesOn(t, lo, hi, s, v, t', v');
    }
  }

  // ---- Progress and the number of steps ----

  /** Some task can move until the root is done. */
  lemma {:induction false} SomeTaskMoves(t: Task, lo: nat, hi: nat, s: seq<int>, v: seq<int>)
    returns (t': Task, v': seq<int>)
    requires lo <= hi <= |s| == |v| && Holds(t, lo, hi, s, v) && !t.Done?
    ensures TaskStep(t, lo, hi, v, t', v')
  {
    hide Merged, Sort;
    match t {
      case Todo =>
        if IsLarge(lo, hi) {
          t', v' := Forked(Todo, Todo), v;
        } else {
          SortSorts(v[lo..hi]);
          t', v' := Done, Overwritten(v, lo, Sort(v[lo..hi]));
        }
      case Forked(l, r) =>
        var mid := Middle(lo, hi);
        if !l.Done? {
          var l', u := SomeTaskMoves(l, lo, mid, s, v);
          t', v' := Forked(l', r), u;
        } else if !r.Done? {
          var r', u := SomeTaskMoves(r, mid, hi, s, v);
          t', v' := Forked(l, r'), u;
        } else {
          t', v' := Merging([], lo, mid), v;
        }
      case Merging(temp, i, j) =>
        v' := v;
        t' := OneMerged(temp, v, i, Middle(lo, hi), j, hi);
      case Copying(temp, k) =>
        if k < |temp| {
          t', v' := Copying(temp, k + 1), v[lo + k := temp[k]];
        } else {
          t', v' := Done, v;
        }
    }
  }

  /** The steps that a range takes. */
  function Work(lo: nat, hi: nat): nat
    decreases hi - lo
  {
    if IsLarge(lo, hi) then
      Work(lo, Middle(lo, hi)) + Work(Middle(lo, hi), hi) + 2 * (hi - lo) + 4
    else 1
  }

  /** The steps that are left. */
  function Rank(t: Task, lo: nat, hi: nat): int
    decreases t
  {
    match t
    case Todo => Work(lo, hi)
    case Forked(l, r) =>
      if IsLarge(lo, hi) then Rank(l, lo, Middle(lo, hi)) + Rank(r, Middle(lo, hi), hi) + 2 * (hi - lo) + 3 else 0
    case Merging(temp, i, j) =>
      if IsLarge(lo, hi) then (Middle(lo, hi) - i) + (hi - j) + (hi - lo) + 2 else 0
    case Copying(temp, k) => hi - lo - k + 1
    case Done => 0
  }

  /** Every step of every task is one step less for the whole tree. */
  lemma {:induction false} StepCounts(t: Task, lo: nat, hi: nat, s: seq<int>, v: seq<int>, t': Task, v': seq<int>)
    requires lo <= hi <= |s| == |v| && TaskStep(t, lo, hi, v, t', v') && Holds(t, lo, hi, s, v)
    ensures Rank(t', lo, hi) == Rank(t, lo, hi) - 1
  {
    hide Merged, Sort, Overwritten;
    if t.Forked? {
      var mid := Middle(lo, hi);
      if t'.Forked? && t'.right == t.right && TaskStep(t.left, lo, mid, v, t'.left, v') {
        StepCounts(t.left, lo, mid, s, v, t'.left, v');
      } else if t'.Forked? && t'.left == t.left && TaskStep(t.right, mid, hi, v, t'.right, v') {
        StepCounts(t.right, mid, hi, s, v, t'.right, v');
      }
    }
  }

  lemma DoneIsStuck(s: State)
    requires s.root.Done?
    ensures !CanMove(s)
  {
  }

  lemma {:induction false} RankNotNegative(t: Task, lo: nat, hi: nat, s: seq<int>, v: seq<int>)
    requires lo <= hi <= |s| == |v| && Holds(t, lo, hi, s, v)
    ensures 0 <= Rank(t, lo, hi)
  {
    hide Merged, Sort;
    if t.Forked? {
      RankNotNegative(t.left, lo, Middle(lo, hi), s, v);
      RankNotNegative(t.right, Middle(lo, hi), hi, s, v);
    }
  }

  // ---- Every run ----

  lemma RunStarts(input: seq<int>)
    ensures Holds(Todo, 0, |input|, input, input) && Rank(Todo, 0, |input|) == Work(0, |input|)
  {
  }

  lemma {:induction false} RunHolds(input: seq<int>, run: seq<State>)
    requires IsRun(input, run)
    ensures var s := run[|run| - 1];
            && |s.values| == |input| && Holds(s.root, 0, |input|, input, s.values)
            && |run| - 1 + Rank(s.root, 0, |input|) == Work(0, |input|)
  {
    hide Merged, Sort, TaskStep, Holds, Rank, Work;
    if |run| == 1 {
      RunStarts(input);
    } else {
      RunHolds(input, run[..|run| - 1]);
      var s, s' := run[|run| - 2], run[|run| - 1];
      assert Step(run[|run| - 2], run[|run| - 2 + 1]);
      HoldsStep(s.root, 0, |input|, input, s.values, s'.root, s'.values);
      StepCounts(s.root, 0, |input|, input, s.values, s'.root, s'.values);
    }
  }

  /** However the steps of the tasks interleave, a run that has ended has sorted the values. */
  lemma InterleavedTasksSort(input: seq<int>, run: seq<State>)
    requires IsRun(input, run)
    ensures run[|run| - 1].root.Done? ==> run[|run| - 1].values == Sort(input)
  {
    hide Sort;
    RunHolds(input, run);
    var s := run[|run| - 1];
    assert s.values[0..|input|] == s.values && input[0..|input|] == input;
  }

  /** No schedule is stuck before the sort has ended, and all take the same number of steps. */
  lemma TasksEnd(input: seq<int>, run: seq<State>)
    requires IsRun(input, run)
    ensures |run| - 1 <= Work(0, |input|)
    ensures run[|run| - 1].root.Done? <==> |run| - 1 == Work(0, |input|)
    ensures run[|run| - 1].root.Done? <==> !CanMove(run[|run| - 1])
  {
    hide TaskStep, Holds, Work, Sort, Merged;
    RunHolds(input, run);
    var s := run[|run| - 1];
    RankNotNegative(s.root, 0, |input|, input, s.values);
    if s.root.Done? {
      DoneIsStuck(s);
    } else {
      var t', v' := SomeTaskMoves(s.root, 0, |input|, input, s.values);
      assert Step(s, State(t', v'));
      StepCounts(s.root, 0, |input|, input, s.values, t', v');
      HoldsStep(s.root, 0, |input|, input, s.values, t', v');
      RankNotNegative(t', 0, |input|, input, v');
    }
  }
}
