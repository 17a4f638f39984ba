/**
 The linked structure inside db.c's index file. A pointer slot is an offset at which a chain
 pointer is stored: the free-list slot 0, the 137 hash slots behind it, and the first field of
 every index record. `ptrs` gives the number in each slot. The free list is list 0 and the chain of
 hash value h is list h + 1, so the slot that heads list k is at offset 7 * k.
 */
module DbIndex {
  import opened Basics
  import opened DbText

  const NHASH: nat := 137
  const NLISTS: nat := NHASH + 1
  const FREE_OFF: nat := 0
  const HASH_OFF: nat := PTR_SZ
  const REC_START: nat := NLISTS * PTR_SZ + 1

  datatype Rec = Rec(key: string, datoff: nat, datlen: nat)

  function HeadSlot(k: nat): nat {
    k * PTR_SZ
  }

  // ---------- hashing ----------

  const WORD: nat := 0x1_0000_0000_0000_0000

  /** A plain `char` on the machines the source runs on: signed, eight bits. */
  function SignedChar(c: char): int {
    if c as int < 128 then c as int else c as int - 256
  }

  /** The sum of each of the first `n` characters times its 1-based index. */
  function WeightedSum(key: string, n: nat): int
    requires n <= |key|
  {
    if n == 0 then 0 else WeightedSum(key, n - 1) + SignedChar(key[n - 1]) * n
  }

  /** The chain a key belongs to; `unsigned long` wraps at 2^64. */
  function Hash(key: string): (h: nat)
    ensures h < NHASH
  {
    (WeightedSum(key, |key|) % WORD) % NHASH
  }

  /** 65 + 2 * 108 + 3 * 112 + 4 * 104 + 5 * 97 is 1518, and 1518 modulo 137 is 11. */
  lemma HashExample()
    ensures Hash("Alpha") == 11
  {
    assert WeightedSum("Alpha", 2) == 281 && WeightedSum("Alpha", 4) == 1033;
  }

  // ---------- one list ----------

  /** The slot that points to the p-th element of the list headed by `head`. */
  function SlotAt(head: nat, l: seq<nat>, p: nat): nat
    requires p <= |l|
  {
    if p == 0 then head else l[p - 1]
  }

  /** The number that slot has to hold: the element's offset, or 0 at the end. */
  function ValAt(l: seq<nat>, p: nat): nat
    requires p <= |l|
  {
    if p < |l| then l[p] else 0
  }

  /** The slots from `head` on spell out `l` and end at 0, the slot `except` aside. */
  ghost predicate LinkedBut(ptrs: map<nat, nat>, head: nat, l: seq<nat>, except: int) {
    forall p {:trigger SlotAt(head, l, p)} :: 0 <= p <= |l| ==>
      && SlotAt(head, l, p) in ptrs
      && (SlotAt(head, l, p) == except || ptrs[SlotAt(head, l, p)] == ValAt(l, p))
  }

  ghost predicate Linked(ptrs: map<nat, nat>, head: nat, l: seq<nat>) {
    LinkedBut(ptrs, head, l, -1)
  }

  function RemoveAt(l: seq<nat>, p: nat): (r: seq<nat>)
    requires p < |l|
    ensures |r| == |l| - 1
    ensures forall i :: 0 <= i < p ==> r[i] == l[i]
    ensures forall i :: p <= i < |r| ==> r[i] == l[i + 1]
  {
    l[..p] + l[p + 1..]
  }

  lemma LinkedFrame(ptrs: map<nat, nat>, ptrs': map<nat, nat>, head: nat, l: seq<nat>, except: int)
    requires LinkedBut(ptrs, head, l, except)
    requires forall x :: x == head || x in l ==> x in ptrs && x in ptrs' && (x == except || ptrs'[x] == ptrs[x])
    ensures LinkedBut(ptrs', head, l, except)
  {
  }

  /** Storing a record's offset in the head slot, after its own slot got the old head, pushes it. */
  lemma LinkedPush(ptrs: map<nat, nat>, ptrs': map<nat, nat>, head: nat, l: seq<nat>, o: nat)
    requires Linked(ptrs, head, l)
    requires o != head && o !in l && head !in l
    requires o in ptrs' && ptrs'[o] == ValAt(l, 0)
    requires head in ptrs' && ptrs'[head] == o
    requires forall x :: x in l ==> x in ptrs && x in ptrs' && ptrs'[x] == ptrs[x]
    ensures Linked(ptrs', head, [o] + l)
  {
    var m := [o] + l;
    forall p | 0 <= p <= |m|
      ensures SlotAt(head, m, p) in ptrs' && ptrs'[SlotAt(head, m, p)] == ValAt(m, p)
    {
      if p >= 2 {
        assert SlotAt(head, l, p - 1) == l[p - 2] == m[p - 1];
        assert m[p - 1] in l;
      }
    }
  }

  /** Storing the successor of the p-th element in the slot before it unlinks the element. */
  lemma LinkedRemove(ptrs: map<nat, nat>, ptrs': map<nat, nat>, head: nat, l: seq<nat>, p: nat)
    requires Linked(ptrs, head, l)
    requires p < |l| && NoDup(l) && head !in l
    requires SlotAt(head, l, p) in ptrs' && ptrs'[SlotAt(head, l, p)] == ValAt(l, p + 1)
    requires forall x :: (x == head || x in l) && x != SlotAt(head, l, p) && x != l[p] ==>
        x in ptrs && x in ptrs' && ptrs'[x] == ptrs[x]
    ensures Linked(ptrs', head, RemoveAt(l, p))
  {
    var m := RemoveAt(l, p);
    forall q | 0 <= q <= |m|
      ensures SlotAt(head, m, q) in ptrs' && ptrs'[SlotAt(head, m, q)] == ValAt(m, q)
    {
      if q < p {
        assert SlotAt(head, l, q) == SlotAt(head, m, q);
        assert q > 0 ==> l[q - 1] in l;
      } else if q > p {
        assert SlotAt(head, l, q + 1) == SlotAt(head, m, q) == l[q];
        assert l[q] in l;
      }
    }
  }

  // ---------- all lists ----------

  /**
   Every record in `home` lies on exactly one list, the one `home` names, and once on it; a record
   outside `home` lies on none.
   */
  ghost predicate ListsOk(recs: map<nat, Rec>, lists: seq<seq<nat>>, home: map<nat, nat>) {
    && |lists| == NLISTS
    && (forall o :: o in home ==> o in recs && home[o] < NLISTS && o in lists[home[o]])
    && (forall k, p :: 0 <= k < NLISTS && 0 <= p < |lists[k]| ==> lists[k][p] in home && home[lists[k][p]] == k)
    && (forall k :: 0 <= k < NLISTS ==> NoDup(lists[k]))
    && (forall o :: o in recs ==> o >= REC_START)
  }

  ghost predicate AllLinked(ptrs: map<nat, nat>, lists: seq<seq<nat>>)
    requires |lists| == NLISTS
  {
    forall k :: 0 <= k < NLISTS ==> Linked(ptrs, HeadSlot(k), lists[k])
  }

  lemma ListMember(recs: map<nat, Rec>, lists: seq<seq<nat>>, home: map<nat, nat>, k: nat, o: nat)
    requires ListsOk(recs, lists, home) && k < NLISTS
    ensures o in lists[k] <==> o in home && home[o] == k
    ensures o in lists[k] ==> o in recs && o >= REC_START
  {
  }

  lemma PushOk(recs: map<nat, Rec>, lists: seq<seq<nat>>, home: map<nat, nat>, k: nat, o: nat)
    requires ListsOk(recs, lists, home)
    requires k < NLISTS && o in recs && o !in home
    ensures ListsOk(recs, lists[k := [o] + lists[k]], home[o := k])
  {
  }

  lemma DetachOk(recs: map<nat, Rec>, lists: seq<seq<nat>>, home: map<nat, nat>, k: nat, p: nat)
    requires ListsOk(recs, lists, home)
    requires k < NLISTS && p < |lists[k]|
    ensures ListsOk(recs, lists[k := RemoveAt(lists[k], p)], home - {lists[k][p]})
  {
  }

  /** A push on list k leaves every other list linked, and list k linked with the new head. */
  lemma AllLinkedPush(ptrs: map<nat, nat>, ptrs': map<nat, nat>, recs: map<nat, Rec>, lists: seq<seq<nat>>,
          home: map<nat, nat>, k: nat, o: nat)
    requires ListsOk(recs, lists, home) && AllLinked(ptrs, lists)
    requires k < NLISTS && o in recs && o !in home
    requires ptrs' == ptrs[o := ValAt(lists[k], 0)][HeadSlot(k) := o]
    ensures AllLinked(ptrs', lists[k := [o] + lists[k]])
  {
    var lists' := lists[k := [o] + lists[k]];
    forall j | 0 <= j < NLISTS
      ensures Linked(ptrs', HeadSlot(j), lists'[j])
    {
      ListMember(recs, lists, home, j, o);
      ListMember(recs, lists, home, j, HeadSlot(k));
      ListMember(recs, lists, home, j, HeadSlot(j));
      LinkedSlots(ptrs, HeadSlot(j), lists[j]);
      if j == k {
        LinkedPush(ptrs, ptrs', HeadSlot(k), lists[k], o);
      } else {
        LinkedFrame(ptrs, ptrs', HeadSlot(j), lists[j], -1);
      }
    }
  }

  /** Unlinking the p-th element of list k leaves every list linked; the element's own slot is free. */
  lemma AllLinkedRemove(ptrs: map<nat, nat>, ptrs': map<nat, nat>, recs: map<nat, Rec>, lists: seq<seq<nat>>,
          home: map<nat, nat>, k: nat, p: nat)
    requires ListsOk(recs, lists, home) && AllLinked(ptrs, lists)
    requires k < NLISTS && p < |lists[k]|
    requires ptrs.Keys <= ptrs'.Keys && ptrs'[SlotAt(HeadSlot(k), lists[k], p)] == ValAt(lists[k], p + 1)
    requires forall x :: x in ptrs && x != SlotAt(HeadSlot(k), lists[k], p) && x != lists[k][p] ==> ptrs'[x] == ptrs[x]
    ensures AllLinked(ptrs', lists[k := RemoveAt(lists[k], p)])
  {
    var lists' := lists[k := RemoveAt(lists[k], p)];
    var slot := SlotAt(HeadSlot(k), lists[k], p);
    assert lists[k][p] in lists[k];
    assert p > 0 ==> slot in lists[k];
    forall j | 0 <= j < NLISTS
      ensures Linked(ptrs', HeadSlot(j), lists'[j])
    {
      LinkedSlots(ptrs, HeadSlot(j), lists[j]);
      ListMember(recs, lists, home, j, HeadSlot(j));
      ListMember(recs, lists, home, j, HeadSlot(k));
      ListMember(recs, lists, home, j, slot);
      ListMember(recs, lists, home, j, lists[k][p]);
      ListMember(recs, lists, home, k, slot);
      ListMember(recs, lists, home, k, lists[k][p]);
      if j == k {
        LinkedRemove(ptrs, ptrs', HeadSlot(k), lists[k], p);
      } else {
        LinkedFrame(ptrs, ptrs', HeadSlot(j), lists[j], -1);
      }
    }
  }

  lemma LinkedSlots(ptrs: map<nat, nat>, head: nat, l: seq<nat>)
    requires Linked(ptrs, head, l)
    ensures head in ptrs
    ensures forall x :: x in l ==> x in ptrs
  {
    assert SlotAt(head, l, 0) == head;
    forall x | x in l
      ensures x in ptrs
    {
      var i :| 0 <= i < |l| && l[i] == x;
      assert SlotAt(head, l, i + 1) == x;
    }
  }

  /** A walk that follows the slots from the head visits exactly the list, in order, and stops at 0. */
  lemma {:induction false} LinkedUnique(ptrs: map<nat, nat>, head: nat, l: seq<nat>, m: seq<nat>)
    requires Linked(ptrs, head, l) && Linked(ptrs, head, m)
    requires 0 !in l && 0 !in m
    ensures l == m
  {
    LinkedPrefix(ptrs, head, l, m, 0);
  }

  lemma ValAtMember(l: seq<nat>, p: nat)
    requires p <= |l|
    ensures p < |l| ==> ValAt(l, p) in l
  {
  }

  lemma {:induction false} LinkedPrefix(ptrs: map<nat, nat>, head: nat, l: seq<nat>, m: seq<nat>, p: nat)
    requires Linked(ptrs, head, l) && Linked(ptrs, head, m)
    requires 0 !in l && 0 !in m
    requires p <= |l| && p <= |m| && l[..p] == m[..p]
    ensures l == m
    decreases |l| - p
  {
    assert SlotAt(head, l, p) == SlotAt(head, m, p) by { assert p > 0 ==> l[..p][p - 1] == m[..p][p - 1]; }
    assert ValAt(l, p) == ValAt(m, p);
    if p < |l| {
      assert l[p] in l;
      assert l[..p + 1] == l[..p] + [l[p]] && m[..p + 1] == m[..p] + [m[p]];
      LinkedPrefix(ptrs, head, l, m, p + 1);
    } else {
      ValAtMember(m, p);
      assert l == l[..p] && m == m[..p];
    }
  }
}
