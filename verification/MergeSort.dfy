/**
 * The task-parallel merge sort: both bounds inclusive, ranges of at most 1025 elements left to the
 * library sort, and two tasks per larger range, which may run in either order.
 */
module MergeSort {

  // ---- What sorting means ----

  predicate AtMost(x: int, s: seq<int>) {
    forall y :: y in s ==> x <= y
  }

  predicate IsSorted(s: seq<int>) {
    s == [] || (AtMost(s[0], s[1..]) && IsSorted(s[1..]))
  }

  predicate Pairwise(s: seq<int>) {
    forall i, j :: 0 <= i < j < |s| ==> s[i] <= s[j]
  }

  /** `IsSorted` is what one expects. */
  lemma {:induction false} SortedPairwise(s: seq<int>)
    ensures IsSorted(s) <==> Pairwise(s)
  {
    if s != [] {
      var rest := s[1..];
      SortedPairwise(rest);
      assert forall j :: 0 < j < |s| ==> s[j] == rest[j - 1];
      if IsSorted(s) {
        forall i, j | 0 <= i < j < |s| ensures s[i] <= s[j] {
          assert s[j] == rest[j - 1];
          assert s[j] in rest;
        }
      }
      if Pairwise(s) {
        forall y | y in rest ensures s[0] <= y {
          var j :| 0 <= j < |rest| && rest[j] == y;
          assert s[j + 1] == y;
        }
        assert AtMost(s[0], s[1..]);
        assert Pairwise(rest) by {
          assert forall j :: 0 <= j < |rest| ==> rest[j] == s[j + 1];
        }
      }
    }
  }

  lemma SameMembers(s: seq<int>, t: multiset<int>)
    requires multiset(s) == t
    ensures forall y :: y in s <==> y in t
  {
  }

  function Insert(x: int, s: seq<int>): seq<int> {
    if s == [] || x <= s[0] then [x] + s else [s[0]] + Insert(x, s[1..])
  }

  function Sort(s: seq<int>): seq<int> {
    if s == [] then [] else Insert(s[0], Sort(s[1..]))
  }

  lemma {:induction false} InsertKeeps(x: int, s: seq<int>)
    ensures multiset(Insert(x, s)) == multiset(s) + multiset{x} && |Insert(x, s)| == |s| + 1
  {
    if s != [] {
      InsertKeeps(x, s[1..]);
      assert s == [s[0]] + s[1..];
    }
  }

  lemma {:induction false} InsertSorts(x: int, s: seq<int>)
    requires IsSorted(s)
    ensures IsSorted(Insert(x, s))
  {
    if s != [] {
      if s[0] < x {
        var t := Insert(x, s[1..]);
        InsertSorts(x, s[1..]);
        InsertKeeps(x, s[1..]);
        SameMembers(t, multiset(s[1..]) + multiset{x});
        forall y | y in t ensures s[0] <= y {
          assert y in multiset(s[1..]) + multiset{x};
          assert y == x || y in s[1..];
        }
        assert ([s[0]] + t)[1..] == t;
      } else {
        assert ([x] + s)[1..] == s && s == [s[0]] + s[1..];
      }
    }
  }

  lemma {:induction false} SortKeeps(s: seq<int>)
    ensures IsSorted(Sort(s)) && multiset(Sort(s)) == multiset(s) && |Sort(s)| == |s|
  {
    if s != [] {
      SortKeeps(s[1..]);
      InsertSorts(s[0], Sort(s[1..]));
      InsertKeeps(s[0], Sort(s[1..]));
      assert s == [s[0]] + s[1..];
    }
  }

  /** `Sort` gives a sorted permutation. */
  lemma SortSorts(s: seq<int>)
    ensures Pairwise(Sort(s)) && IsSorted(Sort(s)) && multiset(Sort(s)) == multiset(s) && |Sort(s)| == |s|
  {
    SortKeeps(s);
    SortedPairwise(Sort(s));
  }

  lemma WithoutHead(s: seq<int>)
    requires s != []
    ensures multiset(s[1..]) == multiset(s) - multiset{s[0]}
  {
    assert s == [s[0]] + s[1..];
  }

  lemma HeadIsLeast(s: seq<int>)
    requires IsSorted(s) && s != []
    ensures AtMost(s[0], s)
  {
    assert s == [s[0]] + s[1..];
  }

  /** Sorted permutations of each other have the same head. */
  lemma SameHead(s: seq<int>, t: seq<int>)
    requires IsSorted(s) && IsSorted(t) && multiset(s) == multiset(t) && s != [] && t != []
    ensures s[0] == t[0]
    ensures multiset(s[1..]) == multiset(t[1..])
  {
    hide IsSorted;
    SameMembers(s, multiset(t));
    SameMembers(t, multiset(s));
    HeadIsLeast(s);
    HeadIsLeast(t);
    assert s[0] in s && t[0] in t;
    WithoutHead(s);
    WithoutHead(t);
  }

  /** A sequence has one sorted permutation only. */
  lemma {:induction false} SortedIsUnique(s: seq<int>, t: seq<int>)
    requires IsSorted(s) && IsSorted(t) && multiset(s) == multiset(t)
    ensures s == t
  {
    assert |s| == |multiset(s)| == |multiset(t)| == |t|;
    if s != [] {
      SameHead(s, t);
      SortedIsUnique(s[1..], t[1..]);
      assert s == [s[0]] + s[1..] && t == [t[0]] + t[1..];
    }
  }

  /** Merging as the library does it: the second sequence goes first only if its head is smaller. */
  function Merged(a: seq<int>, b: seq<int>): seq<int> {
    if a == [] then b
    else if b == [] then a
    else if b[0] < a[0] then [b[0]] + Merged(a, b[1..])
    else [a[0]] + Merged(a[1..], b)
  }

  /** The first of `s` goes in front of what the rest of it and `t` merge to. */
  lemma InFront(s: seq<int>, t: seq<int>, rest: seq<int>)
    requires s != [] && multiset(rest) == multiset(s[1..]) + multiset(t)
    ensures multiset([s[0]] + rest) == multiset(s) + multiset(t)
  {
    WithoutHead(s);
  }

  lemma {:induction false} MergedKeeps(a: seq<int>, b: seq<int>)
    ensures multiset(Merged(a, b)) == multiset(a) + multiset(b) && |Merged(a, b)| == |a| + |b|
  {
    if a != [] && b != [] {
      if b[0] < a[0] {
        MergedKeeps(a, b[1..]);
        InFront(b, a, Merged(a, b[1..]));
      } else {
        MergedKeeps(a[1..], b);
        InFront(a, b, Merged(a[1..], b));
      }
    }
  }

  /** A head in front of a merged rest. */
  lemma SortedCons(head: int, a: seq<int>, b: seq<int>)
    requires IsSorted(Merged(a, b)) && AtMost(head, a) && AtMost(head, b)
    ensures IsSorted([head] + Merged(a, b))
  {
    var rest := Merged(a, b);
    MergedKeeps(a, b);
    SameMembers(rest, multiset(a) + multiset(b));
    assert forall y :: y in multiset(a) + multiset(b) ==> y in a || y in b;
    assert ([head] + rest)[1..] == rest;
  }

  lemma {:induction false} MergedIsSorted(a: seq<int>, b: seq<int>)
    requires IsSorted(a) && IsSorted(b)
    ensures IsSorted(Merged(a, b))
  {
    if a != [] && b != [] {
      HeadIsLeast(a);
      HeadIsLeast(b);
      if b[0] < a[0] {
        MergedIsSorted(a, b[1..]);
        SortedCons(b[0], a, b[1..]);
      } else {
        MergedIsSorted(a[1..], b);
        SortedCons(a[0], a[1..], b);
      }
    }
  }

  /** Sorting two parts and merging them sorts the whole. */
  lemma MergeSortsWhole(a: seq<int>, b: seq<int>)
    ensures Merged(Sort(a), Sort(b)) == Sort(a + b)
  {
    SortSorts(a);
    SortSorts(b);
    SortSorts(a + b);
    MergedIsSorted(Sort(a), Sort(b));
    MergedKeeps(Sort(a), Sort(b));
    SortedIsUnique(Merged(Sort(a), Sort(b)), Sort(a + b));
  }

  /** Replaces the part of `s` from `from` on. */
  function Overwritten(s: seq<int>, from: nat, part: seq<int>): seq<int>
    requires from + |part| <= |s|
  {
    s[..from] + part + s[from + |part|..]
  }

  // ---- The program ----

  /** std::copy into the array. */
  method CopyInto(part: seq<int>, values: array<int>, from: nat)
    requires from + |part| <= values.Length
    modifies values
    ensures values[..] == Overwritten(old(values[..]), from, part)
  {
    var i := 0;
    while i < |part|
      invariant 0 <= i <= |part|
      invariant values[..] == Overwritten(old(values[..]), from, part[..i])
    {
      values[from + i] := part[i];
      i := i + 1;
      assert part[..i] == part[..i - 1] + [part[i - 1]];
    }
    assert part[..i] == part;
  }

  /** std::sort, by what it promises. */
  method LibrarySort(values: array<int>, from: nat, to: nat)
    requires from <= to <= values.Length
    modifies values
    ensures |Sort(old(values[from..to]))| == to - from
    ensures values[..] == Overwritten(old(values[..]), from, Sort(old(values[from..to])))
  {
    SortSorts(values[from..to]);
    CopyInto(Sort(values[from..to]), values, from);
  }

  /** One step of the merge loop, on values. */
  lemma MergeStep(temp: seq<int>, a: seq<int>, b: seq<int>)
    requires a != [] && b != []
    ensures b[0] < a[0] ==> (temp + [b[0]]) + Merged(a, b[1..]) == temp + Merged(a, b)
    ensures b[0] >= a[0] ==> (temp + [a[0]]) + Merged(a[1..], b) == temp + Merged(a, b)
  {
  }

  lemma MergedWithEmpty(a: seq<int>)
    ensures Merged(a, []) == a && Merged([], a) == a
  {
  }

  /** std::merge of two adjacent ranges into a new vector. */
  method LibraryMerge(values: array<int>, from: nat, mid: nat, to: nat) returns (temp: seq<int>)
    requires from <= mid <= to <= values.Length
    ensures temp == Merged(values[from..mid], values[mid..to])
  {
    hide Merged;
    temp := [];
    var i, j := from, mid;
    while i < mid && j < to
      invariant from <= i <= mid <= j <= to
      invariant temp + Merged(values[i..mid], values[j..to]) == Merged(values[from..mid], values[mid..to])
    {
      MergeStep(temp, values[i..mid], values[j..to]);
      if values[j] < values[i] {
        assert values[j..to][1..] == values[j + 1..to];
        temp := temp + [values[j]];
        j := j + 1;
      } else {
        assert values[i..mid][1..] == values[i + 1..mid];
        temp := temp + [values[i]];
        i := i + 1;
      }
    }
    MergedWithEmpty(values[i..mid]);
    MergedWithEmpty(values[j..to]);
    temp := temp + values[i..mid] + values[j..to];
  }

  /** `t` is `s` with the part between the bounds sorted. */
  predicate SortedWithin(s: seq<int>, left: nat, to: nat, t: seq<int>) {
    && left <= to <= |s| == |t|
    && t[..left] == s[..left] && t[left..to] == Sort(s[left..to]) && t[to..] == s[to..]
  }

  /** Sorting two adjacent parts, whichever comes first. */
  lemma PartsSorted(s: seq<int>, left: nat, mid: nat, to: nat, u: seq<int>, t: seq<int>)
    requires left <= mid <= to
    requires || (SortedWithin(s, left, mid, u) && SortedWithin(u, mid, to, t))
             || (SortedWithin(s, mid, to, u) && SortedWithin(u, left, mid, t))
    ensures |t| == |s| && t[..left] == s[..left] && t[to..] == s[to..]
    ensures t[left..mid] == Sort(s[left..mid]) && t[mid..to] == Sort(s[mid..to])
  {
    hide Sort;
    if SortedWithin(s, left, mid, u) && SortedWithin(u, mid, to, t) {
      assert u[mid..to] == s[mid..][..to - mid] == s[mid..to];
      assert t[left..mid] == u[..mid][left..] == u[left..mid];
      assert t[..left] == u[..mid][..left] == s[..left];
      assert t[to..] == u[mid..][to - mid..] == s[mid..][to - mid..] == s[to..];
    } else {
      assert u[left..mid] == s[..mid][left..] == s[left..mid];
      assert t[mid..to] == u[mid..][..to - mid] == u[mid..to];
      assert t[..left] == s[..mid][..left] == s[..left];
      assert t[to..] == u[mid..][to - mid..] == u[to..] == s[to..];
    }
  }

  /** The two tasks of a range, in either order. */
  method SortHalves(values: array<int>, left: nat, mid: int, right: int)
    requires left <= mid < right < values.Length
    modifies values
    ensures values[..left] == old(values[..left]) && values[right + 1..] == old(values[right + 1..])
    ensures values[left..mid + 1] == Sort(old(values[left..mid + 1]))
    ensures values[mid + 1..right + 1] == Sort(old(values[mid + 1..right + 1]))
    decreases right - left, 0
  {
    hide Sort;
    ghost var s := values[..];
    ghost var u;
    if * {
      Mergesort(values, left, mid);
      u := values[..];
      Mergesort(values, mid + 1, right);
    } else {
      Mergesort(values, mid + 1, right);
      u := values[..];
      Mergesort(values, left, mid);
    }
    PartsSorted(s, left, mid + 1, right + 1, u, values[..]);
    assert values[left..mid + 1] == values[..][left..mid + 1];
    assert values[mid + 1..right + 1] == values[..][mid + 1..right + 1];
  }

  lemma OverwrittenSorts(s: seq<int>, left: nat, to: nat, u: seq<int>)
    requires left <= to <= |s| == |u| && u[..left] == s[..left] && u[to..] == s[to..]
    ensures |Sort(s[left..to])| == to - left
    ensures SortedWithin(s, left, to, Overwritten(u, left, Sort(s[left..to])))
  {
    SortSorts(s[left..to]);
  }

  /** Sorts the elements from `left` to `right`, both included, and changes no other. */
  method Mergesort(values: array<int>, left: nat, right: int)
    requires left <= right + 1 <= values.Length
    modifies values
    ensures SortedWithin(old(values[..]), left, right + 1, values[..])
    decreases right - left, 1
  {
    hide Sort, Merged, SortedWithin, Overwritten;
    ghost var s := values[..];
    var count := right - left;
    if count > 1024 {
      var mid := (left + right) / 2;
      ghost var a, b := values[left..mid + 1], values[mid + 1..right + 1];
      SortHalves(values, left, mid, right);
      var temp := LibraryMerge(values, left, mid + 1, right + 1);
      MergeSortsWhole(a, b);
      assert a + b == s[left..right + 1];
      OverwrittenSorts(s, left, right + 1, values[..]);
      CopyInto(temp, values, left);
    } else {
      assert values[left..right + 1] == s[left..right + 1];
      OverwrittenSorts(s, left, right + 1, s);
      LibrarySort(values, left, right + 1);
    }
  }

  /** The whole vector, which may be empty. */
  method MergesortAll(values: array<int>)
    modifies values
    ensures values[..] == Sort(old(values[..]))
  {
    Mergesort(values, 0, values.Length - 1);
    assert old(values[..])[0..values.Length] == old(values[..]);
  }
}
