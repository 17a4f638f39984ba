/**
 merge of barrier.c: equal-length segments of one array are merged by taking, again and again, the smallest
 of the elements that come next. Any number n of segments, of any length t. An element LONG_MAX is never
 smallest; the program then takes the next element of the segment it took from last.
 */
module SegmentMerge {
  import opened Basics

  const LONG_MAX: int := 0x7FFF_FFFF_FFFF_FFFF

  type Long = x: int | -LONG_MAX - 1 <= x <= LONG_MAX

  ghost predicate Sorted(s: seq<Long>) {
    forall i, j :: 0 <= i < j < |s| ==> s[i] <= s[j]
  }

  ghost predicate AllBelow(s: seq<Long>, v: int) {
    forall i :: 0 <= i < |s| ==> s[i] < v
  }

  /** Where segment i begins. */
  function Start(i: nat, t: nat): nat {
    i * t
  }

  lemma {:induction false} StartUp(i: nat, j: nat, t: nat)
    requires i <= j
    ensures Start(i, t) <= Start(j, t)
  {
  }

  predicate InSegment(len: nat, x: nat, t: nat, i: nat) {
    Start(i, t) <= x <= Start(i + 1, t) <= len
  }

  /** idx[i] is a place of segment i, or its end. */
  ghost predicate Inside(nums: seq<Long>, idx: seq<nat>, t: nat) {
    |nums| == Start(|idx|, t) && forall i :: 0 <= i < |idx| ==> InSegment(|nums|, idx[i], t, i)
  }

  /** What is left in the first n segments. */
  function Rest(nums: seq<Long>, idx: seq<nat>, t: nat, n: nat): multiset<Long>
    requires Inside(nums, idx, t) && n <= |idx|
  {
    if n == 0 then multiset{} else Rest(nums, idx, t, n - 1) + multiset(nums[idx[n - 1]..Start(n, t)])
  }

  lemma {:induction false} RestAll(nums: seq<Long>, idx: seq<nat>, t: nat, n: nat)
    requires Inside(nums, idx, t) && n <= |idx| && forall i :: 0 <= i < |idx| ==> idx[i] == Start(i, t)
    ensures Start(n, t) <= |nums| && Rest(nums, idx, t, n) == multiset(nums[..Start(n, t)])
  {
    assert Start(0, t) == 0;
    hide Start;
    if n > 0 {
      RestAll(nums, idx, t, n - 1);
      RestStep(nums, idx, t, n);
      hide Rest, Inside;
      Chunk(nums, Start(n - 1, t), Start(n, t));
    }
  }

  lemma Chunk(nums: seq<Long>, i: nat, j: nat)
    requires i <= j <= |nums|
    ensures multiset(nums[..j]) == multiset(nums[..i]) + multiset(nums[i..j])
  {
    assert nums[..j] == nums[..i] + nums[i..j];
  }

  lemma InsideTaken(nums: seq<Long>, idx: seq<nat>, t: nat, m: nat)
    requires Inside(nums, idx, t) && m < |idx| && idx[m] < Start(m + 1, t)
    ensures Inside(nums, idx[m := idx[m] + 1], t)
  {
  }

  lemma FirstOut(nums: seq<Long>, from: nat, to: nat)
    requires from < to <= |nums|
    ensures multiset(nums[from..to]) == multiset{nums[from]} + multiset(nums[from + 1..to])
  {
    assert nums[from..to] == [nums[from]] + nums[from + 1..to];
  }

  lemma InsideAt(nums: seq<Long>, idx: seq<nat>, t: nat, i: nat)
    requires Inside(nums, idx, t) && i < |idx|
    ensures Start(i, t) <= idx[i] <= Start(i + 1, t) <= |nums|
  {
  }

  lemma PlusSwap(a: multiset<Long>, b: multiset<Long>, x: multiset<Long>, s: multiset<Long>)
    requires a == b + x
    ensures a + s == b + s + x
  {
  }

  lemma RestStep(nums: seq<Long>, idx: seq<nat>, t: nat, n: nat)
    requires Inside(nums, idx, t) && 0 < n <= |idx|
    ensures idx[n - 1] <= Start(n, t) <= |nums|
    ensures Rest(nums, idx, t, n) == Rest(nums, idx, t, n - 1) + multiset(nums[idx[n - 1]..Start(n, t)])
  {
    hide Start;
  }

  lemma {:induction false} RestTaken(nums: seq<Long>, idx: seq<nat>, idx': seq<nat>, t: nat, n: nat, m: nat)
    requires Inside(nums, idx, t) && n <= |idx| && m < |idx| && idx[m] < Start(m + 1, t) <= |nums|
    requires Inside(nums, idx', t) && idx' == idx[m := idx[m] + 1]
    ensures Rest(nums, idx, t, n) == Rest(nums, idx', t, n) + if m < n then multiset{nums[idx[m]]} else multiset{}
  {
    hide Start, Inside;
    if n > 0 {
      RestTaken(nums, idx, idx', t, n - 1, m);
      RestStep(nums, idx, t, n);
      RestStep(nums, idx', t, n);
      hide Rest;
      if m == n - 1 {
        FirstOut(nums, idx[m], Start(n, t));
      } else {
        PlusSwap(Rest(nums, idx, t, n - 1), Rest(nums, idx', t, n - 1),
                 if m < n - 1 then multiset{nums[idx[m]]} else multiset{}, multiset(nums[idx[n - 1]..Start(n, t)]));
      }
    }
  }

  /** If something is left, it is left in some segment. */
  lemma {:induction false} RestSome(nums: seq<Long>, idx: seq<nat>, t: nat, n: nat) returns (m: nat)
    requires Inside(nums, idx, t) && n <= |idx| && Rest(nums, idx, t, n) != multiset{}
    ensures m < n && idx[m] < Start(m + 1, t)
  {
    if idx[n - 1] < Start(n, t) {
      m := n - 1;
    } else {
      assert nums[idx[n - 1]..Start(n, t)] == [];
      m := RestSome(nums, idx, t, n - 1);
    }
  }

  /** Place p belongs to segment i. */
  predicate Place(len: nat, t: nat, i: nat, p: int) {
    Start(i, t) <= p < Start(i + 1, t) && p < len
  }

  ghost predicate SegmentsSorted(nums: seq<Long>, t: nat, n: nat) {
    forall i, p, q :: 0 <= i < n && Place(|nums|, t, i, p) && Place(|nums|, t, i, q) && p <= q ==> nums[p] <= nums[q]
  }

  // ---------- when merge stays inside the segments ----------

  /** No element below LONG_MAX is larger than the one at p, and no segment above L holds its equal. */
  ghost predicate LastAt(nums: seq<Long>, t: nat, n: nat, L: nat, p: nat) {
    && Place(|nums|, t, L, p) && nums[p] < LONG_MAX
    && forall i, q :: 0 <= i < n && Place(|nums|, t, i, q) && nums[q] < LONG_MAX ==>
         nums[q] <= nums[p] && (i > L ==> nums[q] != nums[p])
  }

  /** L is the highest-numbered segment that holds the largest of the elements below LONG_MAX. */
  ghost predicate LastSmaller(nums: seq<Long>, t: nat, n: nat, L: nat) {
    L < n && exists p :: LastAt(nums, t, n, L, p)
  }

  ghost predicate MaxesIn(nums: seq<Long>, t: nat, n: nat, L: nat) {
    forall i, q :: 0 <= i < n && Place(|nums|, t, i, q) && nums[q] == LONG_MAX ==> i == L
  }

  /** There is no LONG_MAX, or each lies in the segment from which the last smaller element is taken. */
  ghost predicate StaysInside(nums: seq<Long>, t: nat, n: nat) {
    AllBelow(nums, LONG_MAX) || exists L :: LastSmaller(nums, t, n, L) && MaxesIn(nums, t, n, L)
  }

  lemma LastUnique(nums: seq<Long>, t: nat, n: nat, L: nat, K: nat)
    requires LastSmaller(nums, t, n, L) && LastSmaller(nums, t, n, K)
    ensures L == K
  {
    hide Start;
    var p, q :| LastAt(nums, t, n, L, p) && LastAt(nums, t, n, K, q);
  }

  /** Every place is in some segment. */
  lemma {:induction false} SegmentOf(len: nat, t: nat, n: nat, p: nat) returns (i: nat)
    requires p < Start(n, t) <= len
    ensures i < n && Place(len, t, i, p)
  {
    assert Start(0, t) == 0;
    if p < Start(n - 1, t) {
      StartUp(n - 1, n, t);
      i := SegmentOf(len, t, n - 1, p);
    } else {
      i := n - 1;
    }
  }

  /** Everything left is at least v. */
  ghost predicate RestAbove(nums: seq<Long>, idx: seq<nat>, t: nat, v: int) {
    forall i, p :: 0 <= i < |idx| && Place(|nums|, t, i, p) && idx[i] <= p ==> v <= nums[p]
  }

  /** v is at most the next element of every segment that has one. */
  ghost predicate HeadsAbove(nums: seq<Long>, idx: seq<nat>, t: nat, v: int)
    requires Inside(nums, idx, t)
  {
    forall i {:trigger idx[i]} :: 0 <= i < |idx| && idx[i] < Start(i + 1, t) ==> v <= nums[idx[i]]
  }

  /** What was taken and what is left are all there was. */
  ghost predicate Merging(nums: seq<Long>, idx: seq<nat>, t: nat, out: seq<Long>) {
    Inside(nums, idx, t) && multiset(out) + Rest(nums, idx, t, |idx|) == multiset(nums)
  }

  /** What was taken is in order, and below what is left. */
  ghost predicate InOrder(nums: seq<Long>, idx: seq<nat>, t: nat, out: seq<Long>) {
    Inside(nums, idx, t) && Sorted(out) && (out != [] ==> RestAbove(nums, idx, t, out[|out| - 1]))
  }

  lemma Begin(nums: seq<Long>, idx: seq<nat>, t: nat, n: nat)
    requires |idx| == n && |nums| == Start(n, t) && forall i :: 0 <= i < n ==> idx[i] == Start(i, t)
    ensures Loop(nums, idx, t, [], None, false)
  {
    forall i | 0 <= i < n
      ensures InSegment(|nums|, idx[i], t, i)
    {
      StartUp(i, i + 1, t);
      StartUp(i + 1, n, t);
    }
    RestAll(nums, idx, t, n);
    assert nums[..Start(n, t)] == nums;
  }

  lemma Take(nums: seq<Long>, idx: seq<nat>, t: nat, out: seq<Long>, m: nat)
    requires Merging(nums, idx, t, out) && m < |idx| && idx[m] < Start(m + 1, t)
    ensures Merging(nums, idx[m := idx[m] + 1], t, out + [nums[idx[m]]])
  {
    hide Start;
    InsideTaken(nums, idx, t, m);
    InsideAt(nums, idx, t, m);
    RestTaken(nums, idx, idx[m := idx[m] + 1], t, |idx|, m);
  }

  lemma TakeInOrder(nums: seq<Long>, idx: seq<nat>, t: nat, out: seq<Long>, m: nat)
    requires InOrder(nums, idx, t, out) && m < |idx| && idx[m] < Start(m + 1, t)
    requires HeadsAbove(nums, idx, t, nums[idx[m]]) && SegmentsSorted(nums, t, |idx|)
    ensures InOrder(nums, idx[m := idx[m] + 1], t, out + [nums[idx[m]]])
  {
    hide Start;
    InsideTaken(nums, idx, t, m);
    InsideAt(nums, idx, t, m);
    var v, idx' := nums[idx[m]], idx[m := idx[m] + 1];
    assert Place(|nums|, t, m, idx[m]);
    forall i, p | 0 <= i < |idx'| && Place(|nums|, t, i, p) && idx'[i] <= p
      ensures v <= nums[p]
    {
      assert Place(|nums|, t, i, idx[i]) && v <= nums[idx[i]] <= nums[p];
    }
  }

  /** As long as not everything was taken some segment has an element left. */
  lemma SomeLeft(nums: seq<Long>, idx: seq<nat>, t: nat, out: seq<Long>) returns (m: nat)
    requires Merging(nums, idx, t, out) && |out| < |nums|
    ensures m < |idx| && idx[m] < Start(m + 1, t) && idx[m] < |nums|
  {
    hide Start;
    assert |multiset(out)| < |multiset(nums)|;
    m := RestSome(nums, idx, t, |idx|);
    InsideAt(nums, idx, t, m);
  }

  /** At the end every segment is used up. */
  lemma End(nums: seq<Long>, idx: seq<nat>, t: nat, out: seq<Long>)
    requires Merging(nums, idx, t, out) && |out| == |nums|
    ensures multiset(out) == multiset(nums) && forall i :: 0 <= i < |idx| ==> idx[i] == Start(i + 1, t)
  {
    hide Start, Rest;
    var r := Rest(nums, idx, t, |idx|);
    assert |multiset(out) + r| == |out| + |r|;
    assert r == multiset{};
    NoneLeft(nums, idx, t, |idx|);
  }

  lemma {:induction false} NoneLeft(nums: seq<Long>, idx: seq<nat>, t: nat, n: nat)
    requires Inside(nums, idx, t) && n <= |idx| && Rest(nums, idx, t, n) == multiset{}
    ensures forall i :: 0 <= i < n ==> idx[i] == Start(i + 1, t)
  {
    hide Start;
    if n > 0 {
      RestStep(nums, idx, t, n);
      NoneLeft(nums, idx, t, n - 1);
      var left := nums[idx[n - 1]..Start(n, t)];
      assert |multiset(left)| == |left|;
    }
  }

  // ---------- where the last element came from ----------

  /** Nothing taken is LONG_MAX, the elements of one segment aside. */
  ghost predicate TakenBelow(nums: seq<Long>, idx: seq<nat>, t: nat, aside: int) {
    forall i, p ::
      0 <= i < |idx| && i != aside && Place(|nums|, t, i, p) && p < idx[i] ==> nums[p] < LONG_MAX
  }

  /**
   The last element taken is v, from segment m: no larger one was taken, none equal from a segment above
   m, and the segments below m go on with larger ones.
   */
  ghost predicate LastFrom(nums: seq<Long>, idx: seq<nat>, t: nat, v: Long, m: nat) {
    && m < |idx| && Start(m, t) < idx[m] <= |nums| && Place(|nums|, t, m, idx[m] - 1) && nums[idx[m] - 1] == v
    && (forall i, p ::
          0 <= i < |idx| && Place(|nums|, t, i, p) && p < idx[i] ==> nums[p] <= v && (i > m ==> nums[p] != v))
    && (forall i {:trigger idx[i]} :: 0 <= i < m && Place(|nums|, t, i, idx[i]) ==> nums[idx[i]] > v)
  }

  /** So far every round found an element below LONG_MAX. */
  ghost predicate Fresh(nums: seq<Long>, idx: seq<nat>, t: nat, out: seq<Long>, last: Option<nat>) {
    && TakenBelow(nums, idx, t, -1)
    && if out == [] then last == None && forall i :: 0 <= i < |idx| ==> idx[i] == Start(i, t)
       else last.Some? && LastFrom(nums, idx, t, out[|out| - 1], last.value)
  }

  /** Only LONG_MAX is left, and minidx has kept the segment of the last smaller element. */
  ghost predicate Stale(nums: seq<Long>, idx: seq<nat>, t: nat, last: Option<nat>) {
    && Inside(nums, idx, t) && last.Some?
    && LastSmaller(nums, t, |idx|, last.value) && TakenBelow(nums, idx, t, last.value)
    && RestAbove(nums, idx, t, LONG_MAX)
  }

  lemma FreshTake(nums: seq<Long>, idx: seq<nat>, t: nat, out: seq<Long>, last: Option<nat>, m: nat)
    requires Inside(nums, idx, t) && m < |idx| && idx[m] < Start(m + 1, t) && nums[idx[m]] < LONG_MAX
    requires Fresh(nums, idx, t, out, last) && InOrder(nums, idx, t, out)
    requires forall i {:trigger idx[i]} :: 0 <= i < m && idx[i] < Start(i + 1, t) ==> nums[idx[i]] > nums[idx[m]]
    ensures Fresh(nums, idx[m := idx[m] + 1], t, out + [nums[idx[m]]], Some(m))
  {
    hide Start;
  }

  lemma HeadsToRest(nums: seq<Long>, idx: seq<nat>, t: nat, v: int)
    requires Inside(nums, idx, t) && HeadsAbove(nums, idx, t, v) && SegmentsSorted(nums, t, |idx|)
    ensures RestAbove(nums, idx, t, v)
  {
    hide Start;
    forall i, p | 0 <= i < |idx| && Place(|nums|, t, i, p) && idx[i] <= p
      ensures v <= nums[p]
    {
      InsideAt(nums, idx, t, i);
      assert Place(|nums|, t, i, idx[i]);
    }
  }

  /** The first round that finds nothing below LONG_MAX, after others that did. */
  lemma BecomeStale(nums: seq<Long>, idx: seq<nat>, t: nat, out: seq<Long>, last: Option<nat>)
    requires Inside(nums, idx, t) && HeadsAbove(nums, idx, t, LONG_MAX) && SegmentsSorted(nums, t, |idx|)
    requires Fresh(nums, idx, t, out, last) && out != []
    ensures Stale(nums, idx, t, last)
  {
    hide Start;
    HeadsToRest(nums, idx, t, LONG_MAX);
    assert LastAt(nums, t, |idx|, last.value, idx[last.value] - 1);
  }

  lemma StaleTake(nums: seq<Long>, idx: seq<nat>, t: nat, last: Option<nat>)
    requires Stale(nums, idx, t, last) && idx[last.value] < Start(last.value + 1, t)
    ensures Stale(nums, idx[last.value := idx[last.value] + 1], t, last)
  {
    assert last.value < |idx|;
    hide Start, LastSmaller;
    InsideTaken(nums, idx, t, last.value);
  }

  /** When the segment minidx has kept is used up but another is not, there is a LONG_MAX in that one. */
  lemma StaleStuck(nums: seq<Long>, idx: seq<nat>, t: nat, last: Option<nat>, k: nat)
    requires Stale(nums, idx, t, last) && idx[last.value] == Start(last.value + 1, t)
    requires k < |idx| && idx[k] < Start(k + 1, t)
    ensures !StaysInside(nums, t, |idx|)
  {
    hide Start, LastSmaller;
    InsideAt(nums, idx, t, k);
    assert Place(|nums|, t, k, idx[k]) && nums[idx[k]] == LONG_MAX;
    forall L | LastSmaller(nums, t, |idx|, L)
      ensures !MaxesIn(nums, t, |idx|, L)
    {
      LastUnique(nums, t, |idx|, L, last.value);
    }
  }

  /** When the very first round finds nothing below LONG_MAX, minidx was never set. */
  lemma NeverSet(nums: seq<Long>, idx: seq<nat>, t: nat)
    requires Inside(nums, idx, t) && HeadsAbove(nums, idx, t, LONG_MAX) && SegmentsSorted(nums, t, |idx|) && nums != []
    requires forall i :: 0 <= i < |idx| ==> idx[i] == Start(i, t)
    ensures !StaysInside(nums, t, |idx|)
  {
    hide Start;
    HeadsToRest(nums, idx, t, LONG_MAX);
    var i := SegmentOf(|nums|, t, |idx|, 0);
    assert nums[0] == LONG_MAX;
  }

  lemma AllTaken(nums: seq<Long>, idx: seq<nat>, t: nat, aside: int)
    requires Inside(nums, idx, t) && TakenBelow(nums, idx, t, aside)
    requires forall i :: 0 <= i < |idx| ==> idx[i] == Start(i + 1, t)
    ensures forall i, p :: 0 <= i < |idx| && i != aside && Place(|nums|, t, i, p) ==> nums[p] < LONG_MAX
    ensures aside < 0 ==> AllBelow(nums, LONG_MAX)
  {
    hide Start;
    if aside < 0 {
      forall p | 0 <= p < |nums|
        ensures nums[p] < LONG_MAX
      {
        var i := SegmentOf(|nums|, t, |idx|, p);
      }
    }
  }

  // ---------- merge ----------

  /**
   The inner loop: the lowest-numbered segment whose next element is smallest, if one is below LONG_MAX.
   Otherwise minidx keeps its value; None stands for the undefined value it starts with.
   */
  method Smallest(nums: array<Long>, idx: array<nat>, t: nat, was: Option<nat>) returns (num: Long, minidx: Option<nat>)
    requires Inside(nums[..], idx[..], t) && (was.Some? ==> was.value < idx.Length)
    ensures Found(nums[..], idx[..], t, was, num, minidx) && (minidx.Some? ==> minidx.value < idx.Length)
  {
    num, minidx := LONG_MAX, was;
    var i := 0;
    while i < idx.Length
      invariant 0 <= i <= idx.Length
      invariant forall k :: 0 <= k < i && idx[..][k] < Start(k + 1, t) ==> num <= nums[..][idx[..][k]]
      invariant if num == LONG_MAX then minidx == was
                else minidx.Some? && minidx.value < i && idx[..][minidx.value] < Start(minidx.value + 1, t)
                     && nums[..][idx[..][minidx.value]] == num
      invariant num < LONG_MAX ==> forall k ::
                  0 <= k < minidx.value && idx[..][k] < Start(k + 1, t) ==> nums[..][idx[..][k]] > num
    {
      assert idx[i] == idx[..][i];
      if idx[i] < Start(i + 1, t) && nums[idx[i]] < num {
        num, minidx := nums[idx[i]], Some(i);
      }
      i := i + 1;
    }
  }

  /** What is known of sorted segments between two rounds. */
  ghost predicate Round(nums: seq<Long>, idx: seq<nat>, t: nat, out: seq<Long>, last: Option<nat>, stale: bool) {
    && InOrder(nums, idx, t, out)
    && if stale then Stale(nums, idx, t, last) else Fresh(nums, idx, t, out, last)
  }

  /** A round that finds an element below LONG_MAX. */
  lemma RoundTake(nums: seq<Long>, idx: seq<nat>, t: nat, out: seq<Long>, last: Option<nat>, stale: bool, m: nat)
    requires Round(nums, idx, t, out, last, stale) && SegmentsSorted(nums, t, |idx|)
    requires m < |idx| && idx[m] < Start(m + 1, t) && idx[m] < |nums| && nums[idx[m]] < LONG_MAX
    requires HeadsAbove(nums, idx, t, nums[idx[m]])
    requires forall i {:trigger idx[i]} :: 0 <= i < m && idx[i] < Start(i + 1, t) ==> nums[idx[i]] > nums[idx[m]]
    ensures Round(nums, idx[m := idx[m] + 1], t, out + [nums[idx[m]]], Some(m), false)
  {
    InsideAt(nums, idx, t, m);
    assert Place(|nums|, t, m, idx[m]);
    assert !stale;
    TakeInOrder(nums, idx, t, out, m);
    hide HeadsAbove, SegmentsSorted, Start;
    FreshTake(nums, idx, t, out, last, m);
  }

  /** A round that finds none, with the segment in minidx not used up. */
  lemma RoundKeep(nums: seq<Long>, idx: seq<nat>, t: nat, out: seq<Long>, last: Option<nat>, stale: bool)
    requires Round(nums, idx, t, out, last, stale) && SegmentsSorted(nums, t, |idx|)
    requires HeadsAbove(nums, idx, t, LONG_MAX)
    requires last.Some? && last.value < |idx| && idx[last.value] < Start(last.value + 1, t) && idx[last.value] < |nums|
    ensures Round(nums, idx[last.value := idx[last.value] + 1], t, out + [nums[idx[last.value]]], last, true)
  {
    hide Start, Fresh, Stale, SegmentsSorted;
    assert nums[idx[last.value]] == LONG_MAX;
    TakeInOrder(nums, idx, t, out, last.value);
    NowStale(nums, idx, t, out, last, stale);
    hide HeadsAbove, Inside;
    StaleTake(nums, idx, t, last);
  }

  lemma NowStale(nums: seq<Long>, idx: seq<nat>, t: nat, out: seq<Long>, last: Option<nat>, stale: bool)
    requires Round(nums, idx, t, out, last, stale) && SegmentsSorted(nums, t, |idx|)
    requires HeadsAbove(nums, idx, t, LONG_MAX)
    requires last.Some?
    ensures Stale(nums, idx, t, last)
  {
    if !stale { BecomeStale(nums, idx, t, out, last); }
  }

  /** A round that finds none, with minidx undefined or its segment used up. */
  lemma RoundStop(nums: seq<Long>, idx: seq<nat>, t: nat, out: seq<Long>, last: Option<nat>, stale: bool, k: nat)
    requires Round(nums, idx, t, out, last, stale) && SegmentsSorted(nums, t, |idx|)
    requires HeadsAbove(nums, idx, t, LONG_MAX)
    requires last.Some? ==> last.value < |idx| && idx[last.value] >= Start(last.value + 1, t)
    requires k < |idx| && idx[k] < Start(k + 1, t)
    ensures !StaysInside(nums, t, |idx|)
  {
    hide Start, StaysInside;
    InsideAt(nums, idx, t, k);
    if last.Some? {
      InsideAt(nums, idx, t, last.value);
      NowStale(nums, idx, t, out, last, stale);
      StaleStuck(nums, idx, t, last, k);
    } else {
      NeverSet(nums, idx, t);
    }
  }

  lemma RoundEnd(nums: seq<Long>, idx: seq<nat>, t: nat, out: seq<Long>, last: Option<nat>, stale: bool)
    requires Round(nums, idx, t, out, last, stale) && forall i :: 0 <= i < |idx| ==> idx[i] == Start(i + 1, t)
    ensures StaysInside(nums, t, |idx|) && Sorted(out)
  {
    hide Start, LastSmaller, RestAbove, LastFrom;
    if stale {
      AllTaken(nums, idx, t, last.value);
      assert MaxesIn(nums, t, |idx|, last.value);
    } else {
      AllTaken(nums, idx, t, -1);
    }
  }

  /** What holds before each round. */
  ghost predicate Loop(nums: seq<Long>, idx: seq<nat>, t: nat, out: seq<Long>, last: Option<nat>, stale: bool) {
    && Merging(nums, idx, t, out) && (last.Some? ==> last.value < |idx|)
    && (SegmentsSorted(nums, t, |idx|) ==> Round(nums, idx, t, out, last, stale))
  }

  /** What the inner loop found: the smallest next element and its segment, or nothing. */
  ghost predicate Found(nums: seq<Long>, idx: seq<nat>, t: nat, was: Option<nat>, num: Long, now: Option<nat>) {
    && Inside(nums, idx, t) && HeadsAbove(nums, idx, t, num)
    && (if num == LONG_MAX then now == was
        else now.Some? && now.value < |idx| && idx[now.value] < Start(now.value + 1, t) && nums[idx[now.value]] == num)
    && (num < LONG_MAX ==> forall i {:trigger idx[i]} ::
          0 <= i < now.value && idx[i] < Start(i + 1, t) ==> nums[idx[i]] > num)
  }

  lemma Advance(nums: seq<Long>, idx: seq<nat>, t: nat, out: seq<Long>, was: Option<nat>, stale: bool, num: Long,
          m: nat)
    requires Loop(nums, idx, t, out, was, stale) && Found(nums, idx, t, was, num, Some(m))
    requires m < |idx| && idx[m] < Start(m + 1, t)
    ensures idx[m] < |nums|
    ensures Loop(nums, idx[m := idx[m] + 1], t, out + [nums[idx[m]]], Some(m), num == LONG_MAX)
  {
    hide Start, Round, SegmentsSorted;
    InsideAt(nums, idx, t, m);
    Take(nums, idx, t, out, m);
    hide Merging, Inside;
    if SegmentsSorted(nums, t, |idx|) {
      if num < LONG_MAX {
        RoundTake(nums, idx, t, out, was, stale, m);
      } else {
        RoundKeep(nums, idx, t, out, was, stale);
      }
    }
  }

  lemma Halt(nums: seq<Long>, idx: seq<nat>, t: nat, out: seq<Long>, was: Option<nat>, stale: bool, num: Long,
          now: Option<nat>)
    requires Loop(nums, idx, t, out, was, stale) && Found(nums, idx, t, was, num, now) && |out| < |nums|
    requires now.Some? ==> now.value < |idx| && idx[now.value] >= Start(now.value + 1, t)
    ensures !AllBelow(nums, LONG_MAX) && (SegmentsSorted(nums, t, |idx|) ==> !StaysInside(nums, t, |idx|))
  {
    hide Start, Round, SegmentsSorted, StaysInside;
    var k := SomeLeft(nums, idx, t, out);
    NotAllBelow(nums, idx, t, k);
    if SegmentsSorted(nums, t, |idx|) { RoundStop(nums, idx, t, out, was, stale, k); }
  }

  lemma Finish(nums: seq<Long>, idx: seq<nat>, t: nat, out: seq<Long>, last: Option<nat>, stale: bool)
    requires Loop(nums, idx, t, out, last, stale) && |out| == |nums|
    ensures multiset(out) == multiset(nums)
    ensures SegmentsSorted(nums, t, |idx|) ==> StaysInside(nums, t, |idx|) && Sorted(out)
  {
    hide Start, Round, SegmentsSorted, StaysInside, Sorted;
    End(nums, idx, t, out);
    if SegmentsSorted(nums, t, |idx|) { RoundEnd(nums, idx, t, out, last, stale); }
  }

  /**
   merge. It stops where the program would use an undefined minidx or read past the end of a segment. On
   sorted segments that never happens just if each LONG_MAX lies where the last smaller element came from.
   */
  method Merge(nums: array<Long>, snums: array<Long>, n: nat, t: nat) returns (ok: bool)
    requires nums.Length == snums.Length == Start(n, t) && nums != snums
    modifies snums
    ensures AllBelow(nums[..], LONG_MAX) ==> ok
    ensures SegmentsSorted(nums[..], t, n) ==> (ok <==> StaysInside(nums[..], t, n))
    ensures ok ==> multiset(snums[..]) == multiset(nums[..])
    ensures ok && SegmentsSorted(nums[..], t, n) ==> Sorted(snums[..])
  {
    hide Start, AllBelow, Sorted, SegmentsSorted, StaysInside, Loop, Found;
    var idx := new nat[n](i requires 0 <= i => Start(i, t));
    var minidx: Option<nat> := None;
    ghost var ns, xs, taken, stale := nums[..], idx[..], [], false;
    Begin(ns, xs, t, n);
    var sidx := 0;
    while sidx < nums.Length
      invariant 0 <= sidx <= nums.Length && nums[..] == ns && idx[..] == xs && |xs| == n && |taken| == sidx
      invariant forall k :: 0 <= k < sidx ==> snums[k] == taken[k]
      invariant Loop(ns, xs, t, taken, minidx, stale)
    {
      LoopInside(ns, xs, t, taken, minidx, stale);
      ghost var was := minidx;
      var num;
      num, minidx := Smallest(nums, idx, t, minidx);
      if minidx == None || idx[minidx.value] >= Start(minidx.value + 1, t) {
        Halt(ns, xs, t, taken, was, stale, num, minidx);
        return false;
      }
      var m := minidx.value;
      Advance(ns, xs, t, taken, was, stale, num, m);
      snums[sidx] := nums[idx[m]];
      idx[m] := idx[m] + 1;
      taken, xs, stale := taken + [ns[xs[m]]], xs[m := xs[m] + 1], num == LONG_MAX;
      sidx := sidx + 1;
    }
    assert snums[..] == taken;
    Finish(ns, xs, t, taken, minidx, stale);
    ok := true;
  }

  lemma NotAllBelow(nums: seq<Long>, idx: seq<nat>, t: nat, k: nat)
    requires Inside(nums, idx, t) && HeadsAbove(nums, idx, t, LONG_MAX) && k < |idx| && idx[k] < Start(k + 1, t)
    ensures !AllBelow(nums, LONG_MAX)
  {
    InsideAt(nums, idx, t, k);
    assert nums[idx[k]] >= LONG_MAX;
  }

  lemma LoopInside(nums: seq<Long>, idx: seq<nat>, t: nat, out: seq<Long>, last: Option<nat>, stale: bool)
    requires Loop(nums, idx, t, out, last, stale)
    ensures Inside(nums, idx, t) && (last.Some? ==> last.value < |idx|)
  {
  }
}
