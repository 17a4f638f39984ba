/**
 per_insert_sort and shell_insert: sorting the columns of an array, and the theorem that makes Shell's
 sort work, that sorting with one gap keeps the array sorted with every other gap.
 */
module ShellSort {
  /** Every element is at most the one h further on. */
  ghost predicate GapSorted(a: seq<int>, h: nat) {
    forall i :: 0 <= i && i + h < |a| ==> a[i] <= a[i + h]
  }

  // ---------- counting in a column ----------

  function One(x: int, v: int): nat {
    if x <= v then 1 else 0
  }

  /** How many of the elements at p, p - d, p - 2d, ... are at most v. */
  function Down(a: seq<int>, d: nat, p: nat, v: int): nat
    requires d >= 1 && p < |a|
  {
    One(a[p], v) + if p >= d then Down(a, d, p - d, v) else 0
  }

  /** How many of the elements at p + d, p + 2d, ... are at most v. */
  function Up(a: seq<int>, d: nat, p: nat, v: int): nat
    requires d >= 1 && p < |a|
    decreases |a| - p
  {
    if p + d < |a| then One(a[p + d], v) + Up(a, d, p + d, v) else 0
  }

  /** How many elements of p's column are at most v. */
  function Column(a: seq<int>, d: nat, p: nat, v: int): nat
    requires d >= 1 && p < |a|
  {
    Down(a, d, p, v) + Up(a, d, p, v)
  }

  /** How many places p, p - d, p - 2d, ... there are. */
  function Len(d: nat, p: nat): nat
    requires d >= 1
  {
    1 + if p >= d then Len(d, p - d) else 0
  }

  /** Every column holds the same elements, counted with repetition. */
  ghost predicate SameColumns(a: seq<int>, b: seq<int>, d: nat)
    requires d >= 1
  {
    |a| == |b| && forall p, v :: 0 <= p < |a| ==> Column(a, d, p, v) == Column(b, d, p, v)
  }

  lemma {:induction false} DownLen(a: seq<int>, d: nat, p: nat, v: int)
    requires d >= 1 && p < |a|
    ensures Down(a, d, p, v) <= Len(d, p)
    ensures a[p] > v ==> Down(a, d, p, v) < Len(d, p)
  {
    if p >= d { DownLen(a, d, p - d, v); }
  }

  lemma {:induction false} DownAll(a: seq<int>, d: nat, p: nat, v: int)
    requires d >= 1 && p < |a| && GapSorted(a, d) && a[p] <= v
    ensures Down(a, d, p, v) == Len(d, p)
  {
    if p >= d {
      assert a[p - d] <= a[p - d + d];
      DownAll(a, d, p - d, v);
    }
  }

  lemma {:induction false} UpNone(a: seq<int>, d: nat, p: nat, v: int)
    requires d >= 1 && p < |a| && GapSorted(a, d) && a[p] > v
    ensures Up(a, d, p, v) == 0
    decreases |a| - p
  {
    if p + d < |a| { UpNone(a, d, p + d, v); }
  }

  /** In a sorted column, the element at p is at most v just if the column has enough such elements. */
  lemma SortedColumn(a: seq<int>, d: nat, p: nat, v: int)
    requires d >= 1 && p < |a| && GapSorted(a, d)
    ensures a[p] <= v <==> Len(d, p) <= Column(a, d, p, v)
  {
    DownLen(a, d, p, v);
    if a[p] <= v { DownAll(a, d, p, v); } else { UpNone(a, d, p, v); }
  }

  /** Going h up from p's column can only add the places below h. */
  lemma {:induction false} DownShift(a: seq<int>, d: nat, h: nat, p: nat, v: int)
    requires d >= 1 && p + h < |a| && GapSorted(a, h)
    ensures Down(a, d, p + h, v) + Len(d, p) <= Down(a, d, p, v) + Len(d, p + h)
  {
    assert a[p] <= a[p + h];
    if p >= d {
      assert p + h - d == p - d + h;
      DownShift(a, d, h, p - d, v);
    } else if p + h >= d {
      DownLen(a, d, p + h - d, v);
    }
  }

  lemma {:induction false} UpShift(a: seq<int>, d: nat, h: nat, p: nat, v: int)
    requires d >= 1 && p + h < |a| && GapSorted(a, h)
    ensures Up(a, d, p + h, v) <= Up(a, d, p, v)
    decreases |a| - p
  {
    if p + h + d < |a| {
      assert a[p + d] <= a[p + d + h];
      assert p + d + h == p + h + d;
      UpShift(a, d, h, p + d, v);
    }
  }

  /** Sorting the columns of gap d keeps an h-sorted array h-sorted. */
  lemma GapTheorem(a: seq<int>, b: seq<int>, h: nat, d: nat)
    requires d >= 1 && GapSorted(a, h) && GapSorted(b, d) && SameColumns(a, b, d)
    ensures GapSorted(b, h)
  {
    forall p | 0 <= p && p + h < |b|
      ensures b[p] <= b[p + h]
    {
      var v := b[p + h];
      SortedColumn(b, d, p + h, v);
      DownShift(a, d, h, p, v);
      UpShift(a, d, h, p, v);
      assert Column(a, d, p, v) == Column(b, d, p, v) && Column(a, d, p + h, v) == Column(b, d, p + h, v);
      SortedColumn(b, d, p, v);
    }
  }

  // ---------- swapping two neighbours of a column ----------

  function Swap(a: seq<int>, j: nat, d: nat): (b: seq<int>)
    requires j + d < |a|
    ensures |b| == |a|
  {
    a[j := a[j + d]][j + d := a[j]]
  }

  lemma {:induction false} DownSwap(a: seq<int>, d: nat, j: nat, p: nat, v: int)
    requires d >= 1 && j + d < |a| && p < |a| && p != j
    ensures Down(Swap(a, j, d), d, p, v) == Down(a, d, p, v)
  {
    if p == j + d {
      if j >= d { DownSwap(a, d, j, j - d, v); }
      assert Down(a, d, j + d, v) == One(a[j + d], v) + Down(a, d, j, v);
      assert Down(Swap(a, j, d), d, j + d, v) == One(a[j], v) + Down(Swap(a, j, d), d, j, v);
    } else if p >= d {
      DownSwap(a, d, j, p - d, v);
    }
  }

  lemma {:induction false} UpSwap(a: seq<int>, d: nat, j: nat, p: nat, v: int)
    requires d >= 1 && j + d < |a| && p < |a| && p != j
    ensures Up(Swap(a, j, d), d, p, v) == Up(a, d, p, v)
    decreases |a| - p
  {
    if p + d == j {
      UpSwap(a, d, j, j + d, v);
      assert Up(a, d, j, v) == One(a[j + d], v) + Up(a, d, j + d, v);
      assert Up(Swap(a, j, d), d, j, v) == One(a[j], v) + Up(Swap(a, j, d), d, j + d, v);
    } else if p + d < |a| {
      UpSwap(a, d, j, p + d, v);
    }
  }

  lemma SwapColumns(a: seq<int>, d: nat, j: nat)
    requires d >= 1 && j + d < |a|
    ensures SameColumns(a, Swap(a, j, d), d)
  {
    var b := Swap(a, j, d);
    forall p, v | 0 <= p < |a|
      ensures Column(a, d, p, v) == Column(b, d, p, v)
    {
      var q := if p == j then j + d else p;
      DownSwap(a, d, j, q, v);
      UpSwap(a, d, j, q, v);
      assert p == j ==> Column(a, d, p, v) == Column(a, d, q, v) && Column(b, d, p, v) == Column(b, d, q, v);
    }
  }

  lemma SwapMultiset(a: seq<int>, d: nat, j: nat)
    requires d >= 1 && j + d < |a|
    ensures multiset(Swap(a, j, d)) == multiset(a)
  {
  }

  /** b has the elements of a, and each column of gap d has its own. */
  ghost predicate Rearranged(a: seq<int>, b: seq<int>, d: nat)
    requires d >= 1
  {
    SameColumns(a, b, d) && multiset(a) == multiset(b)
  }

  lemma SwapRearranged(a: seq<int>, b: seq<int>, d: nat, j: nat)
    requires d >= 1 && Rearranged(a, b, d) && j + d < |b|
    ensures Rearranged(a, Swap(b, j, d), d)
  {
    hide Column, Swap;
    SwapColumns(b, d, j);
    SwapMultiset(b, d, j);
    var c := Swap(b, j, d);
    forall p, v | 0 <= p < |a|
      ensures Column(a, d, p, v) == Column(c, d, p, v)
    {
      assert Column(a, d, p, v) == Column(b, d, p, v);
    }
  }

  lemma RearrangedTwice(a: seq<int>, b: seq<int>, c: seq<int>, d: nat)
    requires d >= 1 && Rearranged(a, b, d) && Rearranged(b, c, d)
    ensures Rearranged(a, c, d)
  {
  }

  // ---------- per_insert_sort ----------

  /** The first place of p's column. */
  function Base(d: nat, p: nat): (k: nat)
    requires d >= 1
    ensures k < d && k <= p
  {
    if p < d then p else Base(d, p - d)
  }

  /** The columns below k are sorted, and column k up to place m. */
  ghost predicate ColumnsSorted(a: seq<int>, d: nat, k: nat, m: int)
    requires d >= 1
  {
    forall p {:trigger Base(d, p)} :: 0 <= p && p + d < |a| && (Base(d, p) < k || (Base(d, p) == k && p + d <= m)) ==>
      a[p] <= a[p + d]
  }

  /** The same with the new element of the column on its way down, at j + d; the ones it passed are above it. */
  ghost predicate Inserting(a: seq<int>, d: nat, k: nat, i: nat, j: int)
    requires d >= 1
  {
    && (forall p {:trigger Base(d, p)} ::
          0 <= p && p + d < |a| && p != j && (Base(d, p) < k || (Base(d, p) == k && p + d <= i)) ==> a[p] <= a[p + d])
    && (0 <= j && j + 2 * d <= i && i < |a| ==> a[j] <= a[j + 2 * d])
  }

  lemma InsertStep(a: seq<int>, d: nat, k: nat, i: nat, j: nat)
    requires d >= 1 && Inserting(a, d, k, i, j) && j + d <= i < |a| && Base(d, j) == k && a[j] > a[j + d]
    ensures Inserting(Swap(a, j, d), d, k, i, j - d)
  {
  }

  lemma InsertStart(a: seq<int>, d: nat, k: nat, i: nat)
    requires d >= 1 && d <= i < |a| && Base(d, i) == k && ColumnsSorted(a, d, k, i - d)
    ensures Inserting(a, d, k, i, i - d)
  {
    forall p | 0 <= p && p + d < |a| && p != i - d && (Base(d, p) < k || (Base(d, p) == k && p + d <= i))
      ensures a[p] <= a[p + d]
    {
      if Base(d, p) == k { SameBase(d, p + d, i); }
    }
  }

  lemma Below(d: nat, j: int)
    requires d >= 1 && j + d >= 0
    ensures j >= 0 ==> Base(d, j) == Base(d, j + d)
    ensures j < 0 ==> j + d == Base(d, j + d)
  {
  }

  /** The new element has met one that is not larger, or the bottom. */
  lemma InsertDone(a: seq<int>, d: nat, k: nat, i: nat, j: int)
    requires d >= 1 && Inserting(a, d, k, i, j) && (0 <= j && j + d < |a| ==> a[j] <= a[j + d])
    ensures ColumnsSorted(a, d, k, i)
  {
  }

  lemma RearrangedSame(a: seq<int>, d: nat)
    requires d >= 1
    ensures Rearranged(a, a, d)
  {
  }

  /** The loop over j: the element at i goes down its column to its place. */
  method Sink(a: array<int>, d: nat, k: nat, i: nat)
    requires d >= 1 && d <= i < a.Length && Base(d, i) == k && ColumnsSorted(a[..], d, k, i - d)
    modifies a
    ensures Rearranged(old(a[..]), a[..], d) && ColumnsSorted(a[..], d, k, i)
  {
    hide Rearranged, ColumnsSorted, Inserting, Base;
    ghost var was := a[..];
    ghost var w := a[..];
    var tmp := a[i];
    var j: int := i - d;
    RearrangedSame(was, d);
    InsertStart(w, d, k, i);
    while j >= 0
      invariant 0 <= j + d <= i && Base(d, j + d) == k
      invariant w == a[..][j + d := tmp] && Rearranged(was, w, d) && Inserting(w, d, k, i, j)
    {
      Below(d, j);
      if a[j] > tmp {
        SwapRearranged(was, w, d, j);
        InsertStep(w, d, k, i, j);
        a[j + d] := a[j];
        assert Swap(w, j, d) == a[..][j := tmp];
        w := Swap(w, j, d);
      } else {
        a[j + d] := tmp;
        assert w == a[..];
        break;
      }
      j := j - d;
    }
    InsertDone(w, d, k, i, j);
    if j < 0 {
      Below(d, j);
      a[k] := tmp;
      assert w == a[..];
    }
  }

  /** The loop over i: column k is sorted. */
  method SortColumn(a: array<int>, d: nat, k: nat)
    requires k < d && ColumnsSorted(a[..], d, k, 0)
    modifies a
    ensures Rearranged(old(a[..]), a[..], d) && ColumnsSorted(a[..], d, k + 1, 0)
  {
    ghost var was := a[..];
    var i := k + d;
    assert ColumnsSorted(a[..], d, k, k);
    while i < a.Length
      invariant d <= i && Base(d, i) == k && Rearranged(was, a[..], d) && ColumnsSorted(a[..], d, k, i - d)
    {
      ghost var mid := a[..];
      Sink(a, d, k, i);
      RearrangedTwice(was, mid, a[..], d);
      i := i + d;
    }
    ColumnDone(a[..], d, k, i);
  }

  lemma ColumnDone(a: seq<int>, d: nat, k: nat, i: nat)
    requires d >= 1 && d <= i && |a| <= i && ColumnsSorted(a, d, k, i - d) && Base(d, i) == k
    ensures ColumnsSorted(a, d, k + 1, 0)
  {
    forall p | 0 <= p && p + d < |a| && Base(d, p) < k + 1
      ensures a[p] <= a[p + d]
    {
      if Base(d, p) == k && p + d > i - d { SameBase(d, p + d, i); }
    }
  }

  /** Two places of one column are at least d apart. */
  lemma {:induction false} SameBase(d: nat, p: nat, q: nat)
    requires d >= 1 && Base(d, p) == Base(d, q) && p < q
    ensures p + d <= q
  {
    if q >= d {
      if p >= d { SameBase(d, p - d, q - d); }
    }
  }

  lemma AllColumns(a: seq<int>, d: nat)
    requires d >= 1 && ColumnsSorted(a, d, d, 0)
    ensures GapSorted(a, d)
  {
    forall p | 0 <= p && p + d < |a|
      ensures a[p] <= a[p + d]
    {
      assert Base(d, p) < d;
    }
  }

  method PerInsertSort(a: array<int>, d: nat)
    modifies a
    ensures d == 0 ==> a[..] == old(a[..])
    ensures d >= 1 ==> GapSorted(a[..], d) && Rearranged(old(a[..]), a[..], d)
    ensures forall h: nat :: GapSorted(old(a[..]), h) ==> GapSorted(a[..], h)
  {
    ghost var was := a[..];
    var k := 0;
    while k < d
      invariant 0 <= k <= d && (d >= 1 ==> Rearranged(was, a[..], d) && ColumnsSorted(a[..], d, k, 0))
      invariant d == 0 ==> a[..] == was
    {
      ghost var mid := a[..];
      SortColumn(a, d, k);
      RearrangedTwice(was, mid, a[..], d);
      k := k + 1;
    }
    if d >= 1 {
      AllColumns(a[..], d);
      forall h: nat | GapSorted(was, h)
        ensures GapSorted(a[..], h)
      {
        GapTheorem(was, a[..], h, d);
      }
    }
  }

  // ---------- shell_insert ----------

  /** The gaps of the passes: half the length, halved again until it is 0. */
  function Gaps(d: nat): seq<nat> {
    if d == 0 then [] else [d] + Gaps(d / 2)
  }

  method ShellInsert(a: array<int>)
    modifies a
    ensures GapSorted(a[..], 1) && multiset(a[..]) == multiset(old(a[..]))
    ensures forall n :: 0 <= n < |Gaps(a.Length / 2)| ==> GapSorted(a[..], Gaps(a.Length / 2)[n])
  {
    ghost var done: seq<nat> := [];
    var d := a.Length / 2;
    while d != 0
      invariant d >= 0
      invariant done + Gaps(d) == Gaps(a.Length / 2)
      invariant multiset(a[..]) == multiset(old(a[..]))
      invariant forall n :: 0 <= n < |done| ==> GapSorted(a[..], done[n])
      invariant d == 0 && a.Length >= 2 ==> done != [] && done[|done| - 1] == 1
      invariant d <= a.Length / 2 && (done == [] ==> d == a.Length / 2) && (done != [] ==> d == done[|done| - 1] / 2)
    {
      PerInsertSort(a, d);
      done := done + [d];
      d := d / 2;
    }
  }

  /** Sorted with gap 1 is sorted. */
  lemma {:induction false} GapOne(a: seq<int>, i: nat, j: nat)
    requires GapSorted(a, 1) && i <= j < |a|
    ensures a[i] <= a[j]
  {
    if i < j {
      GapOne(a, i, j - 1);
      assert a[j - 1] <= a[j - 1 + 1];
    }
  }
}
