/**
 merge and merge_sort, where the right half is read in place while the result is written over it, and
 partition and quick_sort, where one element is held back and leaves a hole.
 */
module MergeQuick {
  ghost predicate Sorted(a: seq<int>) {
    forall i, j :: 0 <= i < j < |a| ==> a[i] <= a[j]
  }

  // ---------- merge ----------

  /** Merging two sequences; of equal elements the left one goes first. */
  function Merged(x: seq<int>, y: seq<int>): (z: seq<int>)
    ensures |z| == |x| + |y|
  {
    if x == [] then y
    else if y == [] then x
    else if x[0] > y[0] then [y[0]] + Merged(x, y[1..])
    else [x[0]] + Merged(x[1..], y)
  }

  lemma {:induction false} MergedMultiset(x: seq<int>, y: seq<int>)
    ensures multiset(Merged(x, y)) == multiset(x) + multiset(y)
  {
    if x != [] && y != [] {
      if x[0] > y[0] {
        MergedMultiset(x, y[1..]);
        assert y == [y[0]] + y[1..];
      } else {
        MergedMultiset(x[1..], y);
        assert x == [x[0]] + x[1..];
      }
    }
  }

  ghost predicate AtLeast(v: int, a: seq<int>) {
    forall i :: 0 <= i < |a| ==> v <= a[i]
  }

  lemma {:induction false} MergedAtLeast(v: int, x: seq<int>, y: seq<int>)
    requires AtLeast(v, x) && AtLeast(v, y)
    ensures AtLeast(v, Merged(x, y))
  {
    if x != [] && y != [] {
      if x[0] > y[0] { MergedAtLeast(v, x, y[1..]); } else { MergedAtLeast(v, x[1..], y); }
    }
  }

  lemma {:induction false} MergedSorted(x: seq<int>, y: seq<int>)
    requires Sorted(x) && Sorted(y)
    ensures Sorted(Merged(x, y))
  {
    if x != [] && y != [] {
      if x[0] > y[0] {
        MergedSorted(x, y[1..]);
        MergedAtLeast(y[0], x, y[1..]);
      } else {
        MergedSorted(x[1..], y);
        MergedAtLeast(x[0], x[1..], y);
      }
    }
  }

  lemma SamePrefix(a: seq<int>, b: seq<int>, lo: nat, m: nat)
    requires lo <= m <= |a| == |b| && a[..m] == b[..m]
    ensures a[..lo] == b[..lo] && a[lo..m] == b[lo..m]
  {
    assert forall i :: 0 <= i < m ==> a[..m][i] == a[i] && b[..m][i] == b[i];
  }

  lemma SameSuffix(a: seq<int>, b: seq<int>, m: nat, hi: nat)
    requires m <= hi <= |a| == |b| && a[m..] == b[m..]
    ensures a[m..hi] == b[m..hi] && a[hi..] == b[hi..]
    ensures forall i :: m <= i < |a| ==> a[i] == b[i]
  {
    assert forall i :: m <= i < |a| ==> a[m..][i - m] == a[i] && b[m..][i - m] == b[i];
  }

  lemma Parts(a: seq<int>, lo: nat, m: nat, hi: nat)
    requires lo <= m <= hi <= |a|
    ensures a == a[..lo] + (a[lo..m] + a[m..hi]) + a[hi..] && a[lo..hi] == a[lo..m] + a[m..hi]
  {
  }

  /** p elements of the left half and q of the right half have been written from lo on. */
  ghost predicate Merging(a: seq<int>, was: seq<int>, lo: nat, mid: nat, hi: nat, p: nat, q: nat) {
    && lo <= mid <= hi <= |was| == |a| && p <= mid - lo && q <= hi - mid
    && a[..lo] == was[..lo] && a[mid + q..] == was[mid + q..]
    && a[lo..lo + p + q] + Merged(was[lo + p..mid], was[mid + q..hi]) == Merged(was[lo..mid], was[mid..hi])
  }

  /** Putting v at place k: the stretch from lo grows by v, the rest stays. */
  lemma PutAt(a: seq<int>, lo: nat, k: nat, v: int, m: nat)
    requires lo <= k < m <= |a|
    ensures a[k := v][..lo] == a[..lo] && a[k := v][lo..k + 1] == a[lo..k] + [v] && a[k := v][m..] == a[m..]
  {
  }

  lemma HeadTail(s: seq<int>, i: nat, j: nat)
    requires i < j <= |s|
    ensures s[i..j][0] == s[i] && s[i..j][1..] == s[i + 1..j] && s[i..j] != []
  {
  }

  lemma DropMore(a: seq<int>, b: seq<int>, m: nat)
    requires m < |a| == |b| && a[m..] == b[m..]
    ensures a[m + 1..] == b[m + 1..]
  {
    assert a[m + 1..] == a[m..][1..] && b[m + 1..] == b[m..][1..];
  }

  /** One more element is written, and one less is left to merge. */
  lemma OneMore(w: seq<int>, v: int, rest: seq<int>, rest': seq<int>, all: seq<int>)
    requires w + rest == all && rest == [v] + rest'
    ensures w + [v] + rest' == all
  {
  }

  lemma TakeLeft(a: seq<int>, was: seq<int>, lo: nat, mid: nat, hi: nat, p: nat, q: nat)
    requires Merging(a, was, lo, mid, hi, p, q) && p < mid - lo && (q == hi - mid || was[lo + p] <= was[mid + q])
    ensures Merging(a[lo + p + q := was[lo + p]], was, lo, mid, hi, p + 1, q)
  {
    var y, v := was[mid + q..hi], was[lo + p];
    HeadTail(was, lo + p, mid);
    if q < hi - mid { HeadTail(was, mid + q, hi); }
    assert Merged(was[lo + p..mid], y) == [v] + Merged(was[lo + (p + 1)..mid], y);
    hide Merged;
    PutAt(a, lo, lo + p + q, v, mid + q);
    OneMore(a[lo..lo + p + q], v, Merged(was[lo + p..mid], y), Merged(was[lo + (p + 1)..mid], y),
            Merged(was[lo..mid], was[mid..hi]));
    assert lo + p + q + 1 == lo + (p + 1) + q;
  }

  lemma TakeRight(a: seq<int>, was: seq<int>, lo: nat, mid: nat, hi: nat, p: nat, q: nat)
    requires Merging(a, was, lo, mid, hi, p, q) && p < mid - lo && q < hi - mid && was[lo + p] > was[mid + q]
    ensures Merging(a[lo + p + q := was[mid + q]], was, lo, mid, hi, p, q + 1)
  {
    var x, v := was[lo + p..mid], was[mid + q];
    HeadTail(was, lo + p, mid);
    HeadTail(was, mid + q, hi);
    assert Merged(x, was[mid + q..hi]) == [v] + Merged(x, was[mid + (q + 1)..hi]);
    hide Merged;
    DropMore(a, was, mid + q);
    PutAt(a, lo, lo + p + q, v, mid + (q + 1));
    OneMore(a[lo..lo + p + q], v, Merged(x, was[mid + q..hi]), Merged(x, was[mid + (q + 1)..hi]),
            Merged(was[lo..mid], was[mid..hi]));
    assert lo + p + q + 1 == lo + p + (q + 1);
  }

  /** What is left of the right half is where it belongs. */
  lemma MergeEnd(a: seq<int>, was: seq<int>, lo: nat, mid: nat, hi: nat, p: nat, q: nat)
    requires Merging(a, was, lo, mid, hi, p, q) && lo + p == mid
    ensures a == was[..lo] + Merged(was[lo..mid], was[mid..hi]) + was[hi..]
  {
    assert Merged(was[lo + p..mid], was[mid + q..hi]) == was[mid + q..hi];
    hide Merged;
    SameSuffix(a, was, mid + q, hi);
    Parts(a, lo, mid + q, hi);
  }

  lemma MergeStart(a: seq<int>, lo: nat, mid: nat, hi: nat)
    requires lo <= mid <= hi <= |a|
    ensures Merging(a, a, lo, mid, hi, 0, 0)
  {
  }

  lemma RightUnread(a: seq<int>, was: seq<int>, lo: nat, mid: nat, hi: nat, p: nat, q: nat)
    requires Merging(a, was, lo, mid, hi, p, q) && mid + q < hi
    ensures mid + q < |a| == |was| && a[mid + q] == was[mid + q]
  {
    SameSuffix(a, was, mid + q, hi);
  }

  /** The left half, in an array of its own. */
  ghost predicate CopyOf(left: array<int>, was: seq<int>, lo: nat, mid: nat)
    reads left
  {
    lo <= mid <= |was| && left.Length == mid - lo && forall n :: 0 <= n < mid - lo ==> left[n] == was[lo + n]
  }

  lemma LeftAt(left: array<int>, was: seq<int>, lo: nat, mid: nat, p: nat)
    requires CopyOf(left, was, lo, mid) && p < mid - lo
    ensures p < left.Length && lo + p < |was| && left[p] == was[lo + p]
  {
  }

  /** The first loop: the smaller head goes to place i, until one half is used up. */
  method MergeHeads(a: array<int>, left: array<int>, ghost was: seq<int>, lo: nat, mid: nat, hi: nat)
    returns (i: nat, p: nat, q: nat)
    requires left != a && CopyOf(left, was, lo, mid) && mid <= hi && Merging(a[..], was, lo, mid, hi, 0, 0)
    modifies a
    ensures Merging(a[..], was, lo, mid, hi, p, q) && i == lo + p + q && p <= mid - lo
    ensures q <= hi - mid <= a.Length - mid
    ensures p < mid - lo ==> q == hi - mid
  {
    i, p, q := lo, 0, 0;
    assert hi <= a.Length == |was| && left.Length == mid - lo;
    hide Merging, CopyOf;
    while p < mid - lo && q < hi - mid
      invariant p <= mid - lo && q <= hi - mid && i == lo + p + q && CopyOf(left, was, lo, mid)
      invariant Merging(a[..], was, lo, mid, hi, p, q)
      decreases hi - i
    {
      ghost var w := a[..];
      RightUnread(w, was, lo, mid, hi, p, q);
      LeftAt(left, was, lo, mid, p);
      if left[p] > a[mid + q] {
        TakeRight(w, was, lo, mid, hi, p, q);
        a[i] := a[mid + q];
        assert a[..] == w[lo + p + q := was[mid + q]];
        q := q + 1;
      } else {
        TakeLeft(w, was, lo, mid, hi, p, q);
        a[i] := left[p];
        assert a[..] == w[lo + p + q := was[lo + p]];
        p := p + 1;
      }
      i := i + 1;
    }
  }

  /** The second: what is left of the left half follows. */
  method MergeTail(a: array<int>, left: array<int>, ghost was: seq<int>, lo: nat, mid: nat, hi: nat, i0: nat, p0: nat,
          ghost q: nat)
    requires left != a && CopyOf(left, was, lo, mid) && mid <= hi <= a.Length && Merging(a[..], was, lo, mid, hi, p0, q)
    requires i0 == lo + p0 + q && p0 <= mid - lo && q <= hi - mid && (p0 < mid - lo ==> q == hi - mid)
    modifies a
    ensures Merging(a[..], was, lo, mid, hi, (mid - lo) as nat, q)
  {
    var i, p := i0, p0;
    assert left.Length == mid - lo && a.Length == |was|;
    hide Merging, CopyOf;
    while p < mid - lo
      invariant p0 <= p <= mid - lo && i == lo + p + q && CopyOf(left, was, lo, mid)
      invariant Merging(a[..], was, lo, mid, hi, p, q)
    {
      LeftAt(left, was, lo, mid, p);
      TakeLeft(a[..], was, lo, mid, hi, p, q);
      a[i] := left[p];
      i, p := i + 1, p + 1;
    }
  }

  method Merge(a: array<int>, lo: nat, mid: nat, hi: nat)
    requires lo <= mid <= hi <= a.Length
    modifies a
    ensures a[..] == old(a[..])[..lo] + Merged(old(a[..])[lo..mid], old(a[..])[mid..hi]) + old(a[..])[hi..]
  {
    hide Merged, Merging;
    ghost var was := a[..];
    var left := new int[mid - lo];
    var k := 0;
    while k < mid - lo
      invariant 0 <= k <= mid - lo && a[..] == was
      invariant forall n :: 0 <= n < k ==> left[n] == was[lo + n]
    {
      left[k] := a[lo + k];
      k := k + 1;
    }
    MergeStart(was, lo, mid, hi);
    var i, p, q := MergeHeads(a, left, was, lo, mid, hi);
    MergeTail(a, left, was, lo, mid, hi, i, p, q);
    MergeEnd(a[..], was, lo, mid, hi, mid - lo, q);
  }

  // ---------- merge_sort ----------

  /** b is a with the elements from lo to hi put in order. */
  ghost predicate SortedRange(a: seq<int>, b: seq<int>, lo: nat, hi: nat) {
    && lo <= hi <= |a| == |b| && a[..lo] == b[..lo] && a[hi..] == b[hi..]
    && multiset(a[lo..hi]) == multiset(b[lo..hi]) && Sorted(b[lo..hi])
  }

  lemma MergeSorts(a: seq<int>, b: seq<int>, c: seq<int>, d: seq<int>, lo: nat, mid: nat, hi: nat)
    requires lo <= mid <= hi && SortedRange(a, b, lo, mid) && SortedRange(b, c, mid, hi)
    requires d == c[..lo] + Merged(c[lo..mid], c[mid..hi]) + c[hi..]
    ensures SortedRange(a, d, lo, hi)
  {
    hide Sorted, Merged;
    var x, y := c[lo..mid], c[mid..hi];
    SamePrefix(c, b, lo, mid);
    SameSuffix(a, b, mid, hi);
    MergedMultiset(x, y);
    MergedSorted(x, y);
    Parts(a, lo, mid, hi);
    Placed(c[..lo], Merged(x, y), c[hi..]);
    assert d[lo..hi] == Merged(x, y);
  }

  lemma Placed(x: seq<int>, y: seq<int>, z: seq<int>)
    ensures var d := x + y + z; d[..|x|] == x && d[|x|..|x| + |y|] == y && d[|x| + |y|..] == z
  {
  }

  method MergeSort(a: array<int>, lo: nat, hi: nat)
    requires hi <= a.Length
    modifies a
    ensures if lo < hi then SortedRange(old(a[..]), a[..], lo, hi) else a[..] == old(a[..])
    decreases hi - lo
  {
    if hi - lo <= 1 {
      return;
    }
    ghost var was := a[..];
    var mid := (lo + hi) / 2;
    MergeSort(a, lo, mid);
    ghost var half := a[..];
    MergeSort(a, mid, hi);
    ghost var both := a[..];
    Merge(a, lo, mid, hi);
    MergeSorts(was, half, both, a[..], lo, mid, hi);
  }

  // ---------- partition ----------

  ghost predicate AtMost(v: int, a: seq<int>) {
    forall i :: 0 <= i < |a| ==> a[i] <= v
  }

  /**
   The elements below i are at most the pivot, those above j at least, and with the pivot in the hole
   (at i or at j) the array holds what it held.
   */
  ghost predicate Dividing(a: seq<int>, was: seq<int>, lo: nat, hi: nat, i: nat, j: nat, hole: nat, v: int) {
    && lo <= i <= j <= hi < |was| == |a| && (hole == i || hole == j)
    && (forall n :: 0 <= n < lo || hi < n < |a| ==> a[n] == was[n])
    && (forall n :: lo <= n < i ==> a[n] <= v) && (forall n :: j < n <= hi ==> a[n] >= v)
    && multiset(a[hole := v]) == multiset(was)
  }

  /** Moving an element into the hole moves the hole. */
  lemma FillHole(s: seq<int>, x: nat, y: nat, v: int)
    requires x < |s| && y < |s| && x != y
    ensures multiset(s[x := s[y]][y := v]) == multiset(s[x := v])
  {
    var t := s[x := v];
    assert s[x := s[y]][y := v] == t[x := t[y]][y := t[x]];
  }

  /** The element at j goes into the hole at i. */
  lemma MoveDown(a: seq<int>, was: seq<int>, lo: nat, hi: nat, i: nat, j: nat, v: int)
    requires Dividing(a, was, lo, hi, i, j, i, v) && i < j && a[j] <= v
    ensures Dividing(a[i := a[j]], was, lo, hi, i + 1, j, j, v)
  {
    FillHole(a, i, j, v);
  }

  /** The element at i goes into the hole at j. */
  lemma MoveUp(a: seq<int>, was: seq<int>, lo: nat, hi: nat, i: nat, j: nat, v: int)
    requires Dividing(a, was, lo, hi, i, j, j, v) && i < j && a[i] >= v
    ensures Dividing(a[j := a[i]], was, lo, hi, i, j - 1, i, v)
  {
    FillHole(a, j, i, v);
  }

  lemma Stay(a: seq<int>, was: seq<int>, lo: nat, hi: nat, i: nat, j: nat, v: int)
    requires i < j
    ensures Dividing(a, was, lo, hi, i, j, i, v) && a[j] > v ==> Dividing(a, was, lo, hi, i, j - 1, i, v)
    ensures Dividing(a, was, lo, hi, i, j, j, v) && a[i] < v ==> Dividing(a, was, lo, hi, i + 1, j, j, v)
  {
  }

  /** What partition leaves: was with lo..hi rearranged around the pivot at p. */
  ghost predicate Divided(a: seq<int>, was: seq<int>, lo: nat, hi: nat, p: nat) {
    && lo <= p <= hi < |was| == |a| && a[p] == was[lo]
    && AtMost(a[p], a[lo..p]) && AtLeast(a[p], a[p + 1..hi + 1])
    && a[..lo] == was[..lo] && a[hi + 1..] == was[hi + 1..]
    && multiset(a[lo..hi + 1]) == multiset(was[lo..hi + 1])
  }

  lemma ThreeParts(a: seq<int>, lo: nat, hi: nat)
    requires lo <= hi <= |a|
    ensures multiset(a) == multiset(a[..lo]) + multiset(a[lo..hi]) + multiset(a[hi..])
  {
    assert a == a[..lo] + a[lo..hi] + a[hi..];
  }

  lemma RangeMultiset(a: seq<int>, b: seq<int>, lo: nat, hi: nat)
    requires lo <= hi <= |a| == |b| && a[..lo] == b[..lo] && a[hi..] == b[hi..] && multiset(a) == multiset(b)
    ensures multiset(a[lo..hi]) == multiset(b[lo..hi])
  {
    ThreeParts(a, lo, hi);
    ThreeParts(b, lo, hi);
    Cancel(multiset(a[..lo]), multiset(a[lo..hi]), multiset(b[lo..hi]), multiset(a[hi..]));
  }

  lemma Cancel(x: multiset<int>, y: multiset<int>, y': multiset<int>, z: multiset<int>)
    requires x + y + z == x + y' + z
    ensures y == y'
  {
    assert y == (x + y + z) - x - z && y' == (x + y' + z) - x - z;
  }

  lemma DivideEnd(a: seq<int>, was: seq<int>, lo: nat, hi: nat, p: nat)
    requires lo < |was| && Dividing(a, was, lo, hi, p, p, p, was[lo])
    ensures Divided(a[p := was[lo]], was, lo, hi, p)
  {
    var b := a[p := was[lo]];
    assert b[..lo] == was[..lo] && b[hi + 1..] == was[hi + 1..];
    RangeMultiset(b, was, lo, hi + 1);
  }

  /** The first inner loop: down from j to an element that belongs below, which goes into the hole. */
  method ScanDown(a: array<int>, ghost was: seq<int>, ghost lo: nat, ghost hi: nat, i0: nat, j0: nat, v: int)
    returns (i: nat, j: nat)
    requires i0 < j0 < a.Length && Dividing(a[..], was, lo, hi, i0, j0, i0, v)
    modifies a
    ensures i0 <= i <= j <= j0 && j - i < j0 - i0 && Dividing(a[..], was, lo, hi, i, j, j, v)
  {
    hide Dividing;
    i, j := i0, j0;
    while i < j
      invariant i0 == i <= j <= j0 && Dividing(a[..], was, lo, hi, i, j, i, v)
    {
      if a[j] > v {
        Stay(a[..], was, lo, hi, i, j, v);
        j := j - 1;
      } else {
        MoveDown(a[..], was, lo, hi, i, j, v);
        a[i] := a[j];
        i := i + 1;
        break;
      }
    }
  }

  /** The second: up from i to an element that belongs above. */
  method ScanUp(a: array<int>, ghost was: seq<int>, ghost lo: nat, ghost hi: nat, i0: nat, j0: nat, v: int)
    returns (i: nat, j: nat)
    requires i0 <= j0 < a.Length && Dividing(a[..], was, lo, hi, i0, j0, j0, v)
    modifies a
    ensures i0 <= i <= j <= j0 && Dividing(a[..], was, lo, hi, i, j, i, v)
  {
    hide Dividing;
    i, j := i0, j0;
    while i < j
      invariant i0 <= i <= j == j0 && Dividing(a[..], was, lo, hi, i, j, j, v)
    {
      if a[i] < v {
        Stay(a[..], was, lo, hi, i, j, v);
        i := i + 1;
      } else {
        MoveUp(a[..], was, lo, hi, i, j, v);
        a[j] := a[i];
        j := j - 1;
        break;
      }
    }
  }

  method Partition(a: array<int>, lo: nat, hi: nat) returns (p: nat)
    requires lo <= hi < a.Length
    modifies a
    ensures Divided(a[..], old(a[..]), lo, hi, p)
  {
    ghost var was := a[..];
    var v := a[lo];
    var i, j := lo, hi;
    assert was[lo := v] == was;
    assert Dividing(a[..], was, lo, hi, i, j, i, v);
    hide Dividing, Divided;
    while i < j
      invariant lo <= i <= j <= hi && Dividing(a[..], was, lo, hi, i, j, i, v)
    {
      i, j := ScanDown(a, was, lo, hi, i, j, v);
      i, j := ScanUp(a, was, lo, hi, i, j, v);
    }
    DivideEnd(a[..], was, lo, hi, i);
    a[i] := v;
    p := i;
  }

  // ---------- quick_sort ----------

  lemma {:induction false} MultisetAtMost(a: seq<int>, b: seq<int>, v: int)
    requires multiset(a) == multiset(b)
    ensures AtMost(v, a) ==> AtMost(v, b)
    ensures AtLeast(v, a) ==> AtLeast(v, b)
  {
    forall i | 0 <= i < |b|
      ensures exists j :: 0 <= j < |a| && a[j] == b[i]
    {
      assert b[i] in multiset(b);
    }
  }

  lemma SortedAround(x: seq<int>, v: int, y: seq<int>)
    requires Sorted(x) && AtMost(v, x) && AtLeast(v, y) && Sorted(y)
    ensures Sorted(x + [v] + y)
  {
  }

  /** Sorting both sides of the pivot sorts the range. */
  lemma QuickSorts(a: seq<int>, b: seq<int>, c: seq<int>, d: seq<int>, lo: nat, hi: nat, p: nat)
    requires lo < hi && Divided(b, a, lo, hi - 1, p) && SortedRange(b, c, lo, p) && SortedRange(c, d, p + 1, hi)
    ensures SortedRange(a, d, lo, hi)
  {
    hide Sorted, AtMost, AtLeast;
    var v, x, y := b[p], c[lo..p], d[p + 1..hi];
    QuickFrame(b, c, d, lo, hi, p);
    MultisetAtMost(b[lo..p], x, v);
    MultisetAtMost(b[p + 1..hi], y, v);
    Around(b, lo, p, hi);
    Around(d, lo, p, hi);
    SortedAround(x, v, y);
  }

  lemma QuickFrame(b: seq<int>, c: seq<int>, d: seq<int>, lo: nat, hi: nat, p: nat)
    requires lo <= p < hi <= |b| == |c| == |d|
    requires b[..lo] == c[..lo] && b[p..] == c[p..] && c[..p + 1] == d[..p + 1] && c[hi..] == d[hi..]
    ensures d[..lo] == b[..lo] && d[hi..] == b[hi..] && d[p] == b[p] && d[lo..p] == c[lo..p]
    ensures c[p + 1..hi] == b[p + 1..hi]
  {
  }

  lemma Around(a: seq<int>, lo: nat, p: nat, hi: nat)
    requires lo <= p < hi <= |a|
    ensures a[lo..hi] == a[lo..p] + [a[p]] + a[p + 1..hi]
    ensures multiset(a[lo..hi]) == multiset(a[lo..p]) + multiset{a[p]} + multiset(a[p + 1..hi])
  {
  }

  method QuickSort(a: array<int>, lo: nat, hi: nat)
    requires hi <= a.Length
    modifies a
    ensures if lo < hi then SortedRange(old(a[..]), a[..], lo, hi) else a[..] == old(a[..])
    decreases hi - lo
  {
    if hi - lo <= 1 {
      return;
    }
    ghost var was := a[..];
    var p := Partition(a, lo, hi - 1);
    ghost var split := a[..];
    QuickSort(a, lo, p);
    ghost var left := a[..];
    QuickSort(a, p + 1, hi);
    QuickSorts(was, split, left, a[..], lo, hi, p);
  }
}
