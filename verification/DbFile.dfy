/**
 db.c for one process: the library's private DB structure, its two files, and every operation that
 reads or rewrites them. The ghost fields say what the bytes mean; `m` is the map from keys to data
 that the library promises to be. Record locks belong to module DbSteps.
 */
module DbFile {
  import opened Basics
  import opened DbText
  import opened DbIndex
  import opened DbBytes

  const DB_INSERT: int := 1
  const DB_REPLACE: int := 2
  const DB_STORE: int := 3

  /** A call either returns a code or ends the process: err_dump and err_quit do not return. */
  datatype Outcome = Returned(rc: int) | Died

  /** What db_store does to a finite map, and what it returns. */
  function StoreSpec(m: map<string, string>, key: string, data: string, flag: int): (int, map<string, string>) {
    if flag != DB_INSERT && flag != DB_REPLACE && flag != DB_STORE then (-1, m)
    else if key in m then (if flag == DB_INSERT then (1, m) else (0, m[key := data]))
    else if flag == DB_REPLACE then (-1, m)
    else (0, m[key := data])
  }

  /** Two maps agree everywhere but at `key`. */
  ghost predicate SameBut(m: map<string, string>, m': map<string, string>, key: string) {
    forall k :: k != key ==> (k in m' <==> k in m) && (k in m && k in m' ==> m'[k] == m[k])
  }

  /** What db_store promises: what a return code says about the map before and after. */
  ghost predicate StoreMeans(m: map<string, string>, key: string, data: string, flag: int, rc: int,
          m': map<string, string>) {
    && (rc == 0 || rc == 1 || rc == -1)
    && (rc == 0 ==> key in m' && m'[key] == data && SameBut(m, m', key))
    && (rc != 0 ==> m' == m)
    && (rc == 1 <==> flag == DB_INSERT && key in m)
    && (rc == -1 <==> flag !in {DB_INSERT, DB_REPLACE, DB_STORE} || (flag == DB_REPLACE && key !in m))
  }

  lemma StoreSpecMeans(m: map<string, string>, key: string, data: string, flag: int)
    ensures var (rc, m') := StoreSpec(m, key, data, flag); StoreMeans(m, key, data, flag, rc, m')
  {
  }

  /** The free record r can take a key of `keylen` characters and `datlen` bytes of data. */
  predicate Fits(r: Rec, keylen: nat, datlen: nat) {
    |r.key| == keylen && r.datlen == datlen
  }

  /** A store has to add a record at the ends of the files. */
  ghost predicate Appends(m: map<string, string>, recs: map<nat, Rec>, free: seq<nat>, key: string, data: string,
          flag: int) {
    flag in {DB_INSERT, DB_REPLACE, DB_STORE} &&
    if key in m then
      flag != DB_INSERT && |m[key]| != |data|
    else
      flag != DB_REPLACE && forall o :: o in free && o in recs ==> !Fits(recs[o], |key|, |data| + 1)
  }

  /** A record for this key and data can be added to files of these lengths. */
  predicate HasRoom(idxlen: nat, datlen: nat, key: string, data: string) {
    IDXLEN_MIN <= BodyLen(|key|, datlen, |data| + 1) <= IDXLEN_MAX && idxlen <= PTR_MAX
  }

  predicate DataSizeOk(data: string) {
    DATLEN_MIN <= |data| + 1 <= DATLEN_MAX
  }

  lemma ListsGrow(recs: map<nat, Rec>, recs': map<nat, Rec>, lists: seq<seq<nat>>, home: map<nat, nat>)
    requires ListsOk(recs, lists, home)
    requires recs.Keys <= recs'.Keys && forall o :: o in recs' ==> o >= REC_START
    ensures ListsOk(recs', lists, home)
  {
  }

  lemma TextSlots(idx: string, ptrs: map<nat, nat>, recs: map<nat, Rec>)
    requires TextOk(idx, ptrs, recs)
    ensures forall k :: 0 <= k < NLISTS ==> HeadSlot(k) in ptrs
    ensures forall x :: x in ptrs ==> ptrs[x] <= PTR_MAX
    ensures forall o :: o in recs ==> o in ptrs && o >= REC_START && RecOk(recs[o]) && o + RecSize(recs[o]) <= |idx|
    ensures |idx| !in recs && |idx| >= REC_START
  {
    forall x | x in ptrs
      ensures ptrs[x] <= PTR_MAX
    {
      assert SlotHolds(idx, x, ptrs[x]);
    }
    forall o | o in recs
      ensures RecOk(recs[o])
    {
      assert RecAt(idx, o, recs[o]);
    }
    forall k | 0 <= k < NLISTS
      ensures HeadSlot(k) in ptrs
    {
      assert IsSlot(recs, HeadSlot(k));
    }
  }

  lemma TextParts(idx: string, ptrs: map<nat, nat>, recs: map<nat, Rec>)
    requires TextOk(idx, ptrs, recs)
    ensures SlotsAt(idx, ptrs) && RecsAt(idx, recs)
  {
  }

  /** Between calls every index record lies on exactly one list, once: its key's chain, or the free list. */
  lemma OneList(s: State, o: nat) returns (k: nat, p: nat)
    requires Good(s, {}) && o in s.recs
    ensures k < NLISTS && |s.lists| == NLISTS && p < |s.lists[k]| && s.lists[k][p] == o
    ensures forall j, q :: 0 <= j < NLISTS && 0 <= q < |s.lists[j]| && s.lists[j][q] == o ==> j == k && q == p
    ensures if k == 0 then Blank(s.recs[o].key) else k == 1 + Hash(s.recs[o].key) && s.recs[o].key in s.m
    ensures Linked(s.ptrs, HeadSlot(k), s.lists[k])
  {
    k := s.home[o];
    p := HomeListed(s.recs, s.lists, s.home, o);
    Distinct(s.recs, s.lists, s.home, k);
  }

  lemma NextRecord(idx: string, ptrs: map<nat, nat>, recs: map<nat, Rec>, o: nat)
    requires TextOk(idx, ptrs, recs) && o in recs
    ensures RecEnd(recs, o) in recs || RecEnd(recs, o) == |idx|
    ensures RecEnd(recs, o) > o
    ensures forall q :: q in recs && o < q ==> RecEnd(recs, o) <= q
  {
  }

  /** Following list k from its p-th slot: what the slot holds, and where that leads. */
  lemma Follow(ptrs: map<nat, nat>, recs: map<nat, Rec>, lists: seq<seq<nat>>, home: map<nat, nat>, k: nat, p: nat)
    requires ListsOk(recs, lists, home) && AllLinked(ptrs, lists)
    requires k < NLISTS && p <= |lists[k]|
    ensures SlotAt(HeadSlot(k), lists[k], p) in ptrs
    ensures ptrs[SlotAt(HeadSlot(k), lists[k], p)] == ValAt(lists[k], p)
    ensures p < |lists[k]| ==>
              && lists[k][p] in recs && lists[k][p] >= REC_START && lists[k][p] in home
              && home[lists[k][p]] == k
  {
    assert Linked(ptrs, HeadSlot(k), lists[k]);
  }

  /** Everything a state consists of: the two files and the ghost fields that say what they mean. */
  datatype State = State(idx: string, dat: string, ptrs: map<nat, nat>, recs: map<nat, Rec>, lists: seq<seq<nat>>,
                               home: map<nat, nat>, loc: map<string, nat>, m: map<string, string>)

  /** Bytes, lists and map agree; `spare` are the records that lie on no list. */
  ghost predicate Good(s: State, spare: set<nat>) {
    && TextOk(s.idx, s.ptrs, s.recs)
    && |s.lists| == NLISTS && ListsOk(s.recs, s.lists, s.home) && AllLinked(s.ptrs, s.lists)
    && Content(s.dat, s.recs, s.home, s.loc, s.m)
    && s.recs.Keys == s.home.Keys + spare && s.home.Keys !! spare
  }

  /**
   The state after an insertion. The record at `o`, a spare one or a new one at the ends of the files,
   has been given the key, the data and the old head of its chain; the chain's head is `o`.
   */
  function Inserted(s: State, idx: string, o: nat, r: Rec, data: string): State
    requires r.datoff <= |s.dat| && |s.lists| == NLISTS && HeadSlot(1 + Hash(r.key)) in s.ptrs
  {
    var k: nat := 1 + Hash(r.key);
    State(idx, WriteAt(s.dat, r.datoff, data + [NEWLINE]),
          s.ptrs[o := s.ptrs[HeadSlot(k)]][HeadSlot(k) := o], s.recs[o := r],
          s.lists[k := [o] + s.lists[k]], s.home[o := k], s.loc[r.key := o], s.m[r.key := data])
  }

  lemma InsertDone(s: State, spare: set<nat>, idx: string, o: nat, r: Rec, data: string)
    requires r.key !in s.m && spare <= {o} && r.datlen == |data| + 1 >= DATLEN_MIN
    requires if o in spare then o in s.recs && r.datoff == s.recs[o].datoff && r.datlen == s.recs[o].datlen
             else o !in s.recs && o >= REC_START && r.datoff == |s.dat|
    requires |s.lists| == NLISTS && HeadSlot(1 + Hash(r.key)) in s.ptrs && r.datoff <= |s.dat|
    requires var t := Inserted(s, idx, o, r, data); TextOk(t.idx, t.ptrs, t.recs)
    requires Good(s, spare)
    ensures Good(Inserted(s, idx, o, r, data), {})
  {
    hide TextOk, ListsOk, AllLinked, Content, WriteAt, Hash;
    SameKeys(s.dat, s.recs, s.home, s.loc, s.m);
    HomeInRecs(s.recs, s.lists, s.home);
    FillContent(s.dat, s.recs, s.home, s.loc, s.m, o, r, data);
    InsertLists(s.ptrs, s.recs, s.recs[o := r], s.lists, s.home, 1 + Hash(r.key), o);
    assert s.recs[o := r].Keys == s.home[o := 1 + Hash(r.key)].Keys;
  }

  /** The list half of every insertion: the record's own pointer, then the head of its chain. */
  lemma InsertLists(ptrs: map<nat, nat>, recs: map<nat, Rec>, recs': map<nat, Rec>, lists: seq<seq<nat>>,
          home: map<nat, nat>, k: nat, o: nat)
    requires |lists| == NLISTS && 1 <= k < NLISTS && HeadSlot(k) in ptrs
    requires ListsOk(recs, lists, home) && AllLinked(ptrs, lists)
    requires o !in home && o >= REC_START && recs'.Keys == recs.Keys + {o}
    ensures ListsOk(recs', lists[k := [o] + lists[k]], home[o := k])
    ensures AllLinked(ptrs[o := ptrs[HeadSlot(k)]][HeadSlot(k) := o], lists[k := [o] + lists[k]])
  {
    hide ListsOk, AllLinked;
    Follow(ptrs, recs, lists, home, k, 0);
    HomeInRecs(recs, lists, home);
    ListsGrow(recs, recs', lists, home);
    PushOk(recs', lists, home, k, o);
    AllLinkedPush(ptrs, ptrs[o := ptrs[HeadSlot(k)]][HeadSlot(k) := o], recs', lists, home, k, o);
  }

  lemma HomeInRecs(recs: map<nat, Rec>, lists: seq<seq<nat>>, home: map<nat, nat>)
    requires ListsOk(recs, lists, home)
    ensures forall o :: o in recs ==> o >= REC_START
    ensures forall o :: o in home ==> o in recs
  {
  }

  /** The state after a deletion: blanked in both files, off its chain, at the head of the free list. */
  function Deleted(s: State, idx: string, k: nat, p: nat): State
    requires |s.lists| == NLISTS && k < NLISTS && p < |s.lists[k]| && FREE_OFF in s.ptrs && s.lists[k][p] in s.recs
    requires var r := s.recs[s.lists[k][p]]; 1 <= r.datlen && r.datoff <= |s.dat|
  {
    var o := s.lists[k][p];
    var r := s.recs[o];
    State(idx, WriteAt(s.dat, r.datoff, Spaces(r.datlen - 1) + [NEWLINE]),
          s.ptrs[o := s.ptrs[FREE_OFF]][FREE_OFF := o][SlotAt(HeadSlot(k), s.lists[k], p) := ValAt(s.lists[k], p + 1)],
          s.recs[o := Rec(Spaces(|r.key|), r.datoff, r.datlen)],
          s.lists[k := RemoveAt(s.lists[k], p)][0 := [o] + s.lists[0]], s.home[o := 0],
          s.loc - {r.key}, s.m - {r.key})
  }

  lemma DeleteDone(s: State, idx: string, k: nat, p: nat)
    requires |s.lists| == NLISTS && 1 <= k < NLISTS && p < |s.lists[k]| && FREE_OFF in s.ptrs && s.lists[k][p] in s.recs
    requires var r := s.recs[s.lists[k][p]]; 1 <= r.datlen && r.datoff <= |s.dat|
    requires var t := Deleted(s, idx, k, p); TextOk(t.idx, t.ptrs, t.recs)
    requires Good(s, {})
    ensures Good(Deleted(s, idx, k, p), {})
  {
    hide TextOk, ListsOk, AllLinked, Content, WriteAt;
    var o := s.lists[k][p];
    var r' := Rec(Spaces(|s.recs[o].key|), s.recs[o].datoff, s.recs[o].datlen);
    Follow(s.ptrs, s.recs, s.lists, s.home, k, p);
    DeleteContent(s.dat, s.recs, s.home, s.loc, s.m, o, r');
    DeleteLists(s.idx, s.ptrs, Deleted(s, idx, k, p).ptrs, s.recs, s.lists, s.home, k, p, r');
    assert s.recs[o := r'].Keys == s.home[o := 0].Keys;
  }

  /** What a deletion needs to know of the record it blanks and of the slots it rewrites. */
  lemma DeleteFacts(s: State, k: nat, p: nat)
    requires Good(s, {}) && |s.lists| == NLISTS && k < NLISTS && p < |s.lists[k]|
    ensures var o := s.lists[k][p];
            && o in s.recs && o <= PTR_MAX
            && DATLEN_MIN <= s.recs[o].datlen <= DATLEN_MAX && s.recs[o].datoff + s.recs[o].datlen <= |s.dat|
            && IDXLEN_MIN <= RecBodyLen(s.recs[o]) <= IDXLEN_MAX
    ensures FREE_OFF in s.ptrs && s.ptrs[FREE_OFF] <= PTR_MAX
    ensures SlotAt(HeadSlot(k), s.lists[k], p) in s.ptrs && ValAt(s.lists[k], p + 1) <= PTR_MAX
  {
    hide TextOk, ListsOk, AllLinked, Content, BodyLen;
    TextSlots(s.idx, s.ptrs, s.recs);
    Follow(s.ptrs, s.recs, s.lists, s.home, k, p);
    Follow(s.ptrs, s.recs, s.lists, s.home, k, p + 1);
    Follow(s.ptrs, s.recs, s.lists, s.home, 0, 0);
    ExtentOf(s.dat, s.recs, s.home, s.loc, s.m, s.lists[k][p]);
  }

  /** The list half of a deletion: two pointer writes after the record's own one move it over. */
  lemma DeleteLists(idx: string, ptrs: map<nat, nat>, ptrs': map<nat, nat>, recs: map<nat, Rec>, lists: seq<seq<nat>>,
                    home: map<nat, nat>, k: nat, p: nat, r': Rec)
    requires |lists| == NLISTS && 1 <= k < NLISTS && p < |lists[k]| && FREE_OFF in ptrs
    requires ptrs' == ptrs[lists[k][p] := ptrs[FREE_OFF]][FREE_OFF := lists[k][p]]
                      [SlotAt(HeadSlot(k), lists[k], p) := ValAt(lists[k], p + 1)]
    requires TextOk(idx, ptrs, recs) && ListsOk(recs, lists, home) && AllLinked(ptrs, lists)
    ensures ListsOk(recs[lists[k][p] := r'], lists[k := RemoveAt(lists[k], p)][0 := [lists[k][p]] + lists[0]],
        home[lists[k][p] := 0])
    ensures AllLinked(ptrs', lists[k := RemoveAt(lists[k], p)][0 := [lists[k][p]] + lists[0]])
  {
    hide TextOk, ListsOk, AllLinked, RemoveAt, ValAt, SlotAt;
    var o: nat, slot: nat, next: nat := lists[k][p], SlotAt(HeadSlot(k), lists[k], p), ValAt(lists[k], p + 1);
    var lists1, home1 := lists[k := RemoveAt(lists[k], p)], home - {o};
    var ptrs1: map<nat, nat> := ptrs[slot := next];
    DeleteSlots(idx, ptrs, recs, lists, home, k, p);
    DetachOk(recs, lists, home, k, p);
    AllLinkedRemove(ptrs, ptrs1, recs, lists, home, k, p);
    var recs' := recs[o := r'];
    ListsGrow(recs, recs', lists1, home1);
    PushOk(recs', lists1, home1, 0, o);
    AllLinkedPush(ptrs1, ptrs1[o := ValAt(lists1[0], 0)][FREE_OFF := o], recs', lists1, home1, 0, o);
    assert home1[o := 0] == home[o := 0];
    assert ptrs1[o := ValAt(lists1[0], 0)][FREE_OFF := o] == ptrs';
  }

  /** The slots of a deletion are three different ones. */
  lemma DeleteSlots(idx: string, ptrs: map<nat, nat>, recs: map<nat, Rec>, lists: seq<seq<nat>>,
          home: map<nat, nat>, k: nat, p: nat)
    requires |lists| == NLISTS && 1 <= k < NLISTS && p < |lists[k]|
    requires TextOk(idx, ptrs, recs) && ListsOk(recs, lists, home) && AllLinked(ptrs, lists)
    ensures var o, slot := lists[k][p], SlotAt(HeadSlot(k), lists[k], p);
            && o in recs && o in home && o >= REC_START && o in ptrs && slot in ptrs && FREE_OFF in ptrs
            && o != slot && slot != FREE_OFF && ptrs[FREE_OFF] == ValAt(lists[0], 0)
    ensures forall x :: x in recs ==> x >= REC_START
  {
    hide TextOk, ListsOk, AllLinked, ValAt;
    Follow(ptrs, recs, lists, home, k, p);
    Follow(ptrs, recs, lists, home, 0, 0);
    Follow(ptrs, recs, lists, home, k, if p > 0 then p - 1 else 0);
    Distinct(recs, lists, home, k);
    TextSlots(idx, ptrs, recs);
  }

  /** The state after taking the p-th free record: it is spare. */
  function Taken(s: State, idx: string, p: nat): State
    requires |s.lists| == NLISTS && p < |s.lists[0]|
  {
    s.(idx := idx, ptrs := s.ptrs[SlotAt(FREE_OFF, s.lists[0], p) := ValAt(s.lists[0], p + 1)],
       lists := s.lists[0 := RemoveAt(s.lists[0], p)], home := s.home - {s.lists[0][p]})
  }

  lemma TakeDone(s: State, idx: string, p: nat)
    requires |s.lists| == NLISTS && p < |s.lists[0]|
    requires var t := Taken(s, idx, p); TextOk(t.idx, t.ptrs, t.recs)
    requires Good(s, {})
    ensures Good(Taken(s, idx, p), {s.lists[0][p]})
  {
    hide TextOk, ListsOk, AllLinked, Content;
    Follow(s.ptrs, s.recs, s.lists, s.home, 0, p);
    DetachOk(s.recs, s.lists, s.home, 0, p);
    AllLinkedRemove(s.ptrs, Taken(s, idx, p).ptrs, s.recs, s.lists, s.home, 0, p);
    DetachContent(s.dat, s.recs, s.home, s.loc, s.m, s.lists[0][p]);
    assert s.recs.Keys == (s.home - {s.lists[0][p]}).Keys + {s.lists[0][p]};
  }

  lemma DetachContent(dat: string, recs: map<nat, Rec>, home: map<nat, nat>, loc: map<string, nat>,
          m: map<string, string>, o: nat)
    requires Content(dat, recs, home, loc, m) && o in home && home[o] == 0
    ensures Content(dat, recs, home - {o}, loc, m)
  {
    hide Holds, Blank, Extents, Hash, FreeBlank, Stored;
    DetachBlank(dat, recs, home, o);
  }

  lemma DetachBlank(dat: string, recs: map<nat, Rec>, home: map<nat, nat>, o: nat)
    requires FreeBlank(dat, recs, home)
    ensures FreeBlank(dat, recs, home - {o})
  {
    hide Holds, Blank;
  }

  /** Where the map keeps a pair: the record of the key, on the chain of the key, with the data behind it. */
  lemma Lookup(dat: string, recs: map<nat, Rec>, home: map<nat, nat>, loc: map<string, nat>, m: map<string, string>,
          key: string)
    requires Content(dat, recs, home, loc, m) && key in m
    ensures key in loc && loc[key] in home && home[loc[key]] == 1 + Hash(key)
    ensures loc[key] in recs && recs[loc[key]].key == key && Holds(dat, recs[loc[key]], m[key])
    ensures recs[loc[key]].datlen == |m[key]| + 1 && recs[loc[key]].datoff + recs[loc[key]].datlen <= |dat|
    ensures dat[recs[loc[key]].datoff..recs[loc[key]].datoff + recs[loc[key]].datlen] == m[key] + [NEWLINE]
  {
  }

  lemma ExtentOf(dat: string, recs: map<nat, Rec>, home: map<nat, nat>, loc: map<string, nat>, m: map<string, string>,
          o: nat)
    requires Content(dat, recs, home, loc, m) && o in recs
    ensures DATLEN_MIN <= recs[o].datlen && recs[o].datoff + recs[o].datlen <= |dat|
  {
  }

  lemma SameKeys(dat: string, recs: map<nat, Rec>, home: map<nat, nat>, loc: map<string, nat>, m: map<string, string>)
    requires Content(dat, recs, home, loc, m)
    ensures m.Keys == loc.Keys
  {
  }

  /** A record on a chain is where the map says its key is. */
  lemma OnChain(dat: string, recs: map<nat, Rec>, home: map<nat, nat>, loc: map<string, nat>, m: map<string, string>,
          o: nat)
    requires Content(dat, recs, home, loc, m) && o in home && home[o] >= 1
    ensures o in recs && recs[o].key in m && recs[o].key in loc && loc[recs[o].key] == o
  {
  }

  lemma Distinct(recs: map<nat, Rec>, lists: seq<seq<nat>>, home: map<nat, nat>, k: nat)
    requires ListsOk(recs, lists, home) && k < NLISTS
    ensures |lists| == NLISTS && NoDup(lists[k])
  {
  }

  lemma HomeListed(recs: map<nat, Rec>, lists: seq<seq<nat>>, home: map<nat, nat>, o: nat) returns (p: nat)
    requires ListsOk(recs, lists, home) && o in home
    ensures |lists| == NLISTS && home[o] < NLISTS && p < |lists[home[o]]| && lists[home[o]][p] == o
  {
    p :| p < |lists[home[o]]| && lists[home[o]][p] == o;
  }

  lemma NotFree(dat: string, recs: map<nat, Rec>, home: map<nat, nat>, loc: map<string, nat>, m: map<string, string>,
          o: nat)
    requires Content(dat, recs, home, loc, m) && o in recs && home.Keys == recs.Keys && !Blank(recs[o].key)
    ensures recs[o].key in m && recs[o].key in loc && loc[recs[o].key] == o
  {
  }

  class Db {
    var idx: string      // bytes of the index file
    var dat: string      // bytes of the data file
    var pos: nat         // file offset of the index descriptor

    var idxbuf: string   // the C string at the front of the index buffer
    var datbuf: string
    var idxoff: nat
    var idxlen: nat
    var datoff: nat
    var datlen: nat
    var ptrval: nat
    var ptroff: nat
    var chainoff: nat

    ghost var g: State   // both files again, and what they mean: g.m is the map the library promises to be

    ghost predicate Valid()
      reads this
    {
      g.idx == idx && g.dat == dat && Good(g, {})
    }

    ghost predicate BytesOk()
      reads this
    {
      g.idx == idx && TextOk(g.idx, g.ptrs, g.recs)
    }

    /** db_open with O_CREAT | O_TRUNC: a free-list pointer, 137 chain pointers, a newline. */
    constructor ()
      ensures Valid() && g.m == map[] && pos == REC_START && |idx| == REC_START && |dat| == 0
    {
      var hash := InitialHash();
      idx, dat := hash, "";
      pos := REC_START;
      idxbuf, datbuf := "", "";
      idxoff, idxlen, datoff, datlen, ptrval, ptroff, chainoff := REC_START, 0, 0, 0, 0, 0, 0;
      g := State(hash, "", map x | 0 <= x < REC_START - 1 && x % PTR_SZ == 0 :: 0,
                 map[], seq(NLISTS, _ => []), map[], map[], map[]);
      new;
      forall k | 0 <= k < NLISTS
        ensures Linked(g.ptrs, HeadSlot(k), g.lists[k])
      {
        assert HeadSlot(k) in g.ptrs;
      }
    }

    static method InitialHash() returns (hash: string)
      ensures |hash| == REC_START && hash[REC_START - 1] == NEWLINE
      ensures forall x :: 0 <= x < REC_START - 1 && x % PTR_SZ == 0 ==> At(hash, x, Pad(0, PTR_SZ))
    {
      var asciiptr := Pad(0, PTR_SZ);
      PtrWidth(0);
      hash := "";
      var i := 0;
      while i < NHASH + 1
        invariant 0 <= i <= NHASH + 1 && |hash| == PTR_SZ * i
        invariant forall x :: 0 <= x < PTR_SZ * i && x % PTR_SZ == 0 ==> At(hash, x, asciiptr)
      {
        forall x | 0 <= x < PTR_SZ * (i + 1) && x % PTR_SZ == 0
          ensures At(hash + asciiptr, x, asciiptr)
        {
          if x < PTR_SZ * i {
            AtExtend(hash, asciiptr, x, asciiptr);
          } else {
            assert x == |hash|;
          }
        }
        hash := hash + asciiptr;
        i := i + 1;
      }
      forall x | 0 <= x < REC_START - 1 && x % PTR_SZ == 0
        ensures At(hash + [NEWLINE], x, asciiptr)
      {
        AtExtend(hash, [NEWLINE], x, asciiptr);
      }
      hash := hash + [NEWLINE];
    }

    // ---------- raw reads and writes ----------

    method ReadPtr(offset: nat) returns (v: nat)
      requires BytesOk() && offset in g.ptrs
      modifies `pos
      ensures v == g.ptrs[offset]
    {
      hide TextOk, SlotsAt, RecsAt, Pad, Atol;
      TextParts(idx, g.ptrs, g.recs);
      ReadPtrText(idx, g.ptrs, offset);
      pos := offset;
      var asciiptr := idx[pos..pos + PTR_SZ];
      pos := pos + PTR_SZ;
      v := Atol(asciiptr);
    }

    /** Reads the record at `offset`, or the one at the current file offset when `offset` is 0. */
    method ReadIdx(offset: nat) returns (r: int)
      requires BytesOk()
      requires if offset == 0 then pos in g.recs || pos == |idx| else offset in g.recs
      modifies `pos, `idxoff, `idxlen, `datoff, `datlen, `ptrval, `idxbuf
      ensures idxoff == if offset == 0 then old(pos) else offset
      ensures idxoff !in g.recs ==> r == -1 && pos == |idx|
      ensures idxoff in g.recs ==>
                && r == g.ptrs[idxoff] == ptrval
                && idxlen == RecBodyLen(g.recs[idxoff])
                && idxbuf == g.recs[idxoff].key && datoff == g.recs[idxoff].datoff && datlen == g.recs[idxoff].datlen
                && pos == RecEnd(g.recs, idxoff)
    {
      hide TextOk, SlotsAt, RecsAt, Atol, ParseBody;
      TextSlots(idx, g.ptrs, g.recs);
      TextParts(idx, g.ptrs, g.recs);
      if offset != 0 {
        pos := offset;
      }
      idxoff := pos;
      if pos == |idx| {
        return -1;
      }
      ReadPtrText(idx, g.ptrs, pos);
      ReadRecText(idx, g.recs, pos);
      ptrval := Atol(idx[pos..pos + PTR_SZ]);
      idxlen := Atol(idx[pos + PTR_SZ..pos + PTR_SZ + IDXLEN_SZ]);
      pos := pos + PTR_SZ + IDXLEN_SZ;
      var fields := ParseBody(idx[pos..pos + idxlen]);
      pos := pos + idxlen;
      idxbuf, datoff, datlen := fields.key, fields.datoff, fields.datlen;
      r := ptrval;
    }

    method ReadDat() returns (data: string)
      requires datlen >= 1 && datoff + datlen <= |dat| && dat[datoff + datlen - 1] == NEWLINE
      modifies `datbuf
      ensures data == datbuf == dat[datoff..datoff + datlen - 1]
    {
      datbuf := dat[datoff..datoff + datlen];
      datbuf := datbuf[..datlen - 1];
      data := datbuf;
    }

    method WriteDat(data: string, offset: nat, append: bool)
      requires append || offset <= |dat|
      modifies `dat, `datoff, `datlen, `g
      ensures datoff == if append then |old(dat)| else offset
      ensures datlen == |data| + 1
      ensures dat == WriteAt(old(dat), datoff, data + [NEWLINE]) && g == old(g).(dat := dat)
    {
      datoff := if append then |dat| else offset;
      datlen := |data| + 1;
      dat := WriteAt(dat, datoff, data + [NEWLINE]);
      g := g.(dat := dat);
    }

    method WriteIdx(key: string, offset: nat, append: bool, ptr: nat) returns (ok: bool)
      requires BytesOk()
      requires CString(key) && SEP !in key && DATLEN_MIN <= datlen <= DATLEN_MAX
      requires append || (offset in g.recs && BodyLen(|key|, datoff, datlen) == RecBodyLen(g.recs[offset]))
      modifies `idx, `pos, `idxoff, `ptrval, `idxbuf, `g
      ensures ok <==> ptr <= PTR_MAX && IDXLEN_MIN <= BodyLen(|key|, datoff, datlen) <= IDXLEN_MAX
      ensures ok ==> BytesOk() && ptrval == ptr && idxoff == if append then |old(idx)| else offset
      ensures ok ==> g == old(g).(idx := idx, ptrs := old(g.ptrs)[idxoff := ptr],
          recs := old(g.recs)[idxoff := Rec(key, datoff, datlen)])
      ensures ok ==> |idx| == if append then |old(idx)| + RecSize(g.recs[idxoff]) else |old(idx)|
    {
      hide TextOk, Pad, Body, WriteAt, CString;
      TextSlots(idx, g.ptrs, g.recs);
      ptrval := ptr;
      if ptr > PTR_MAX {
        return false;
      }
      ghost var r := Rec(key, datoff, datlen);
      BodyRoundTrip(key, datoff, datlen);
      idxbuf := Body(key, datoff, datlen);
      var len := |idxbuf|;
      if len < IDXLEN_MIN || len > IDXLEN_MAX {
        return false;
      }
      var asciiptrlen := Pad(ptr, PTR_SZ) + Pad(len, IDXLEN_SZ);
      idxoff := if append then |idx| else offset;
      assert asciiptrlen + idxbuf == RecText(ptr, r);
      WriteRecText(idx, g.ptrs, g.recs, idxoff, ptr, r);
      idx := WriteAt(idx, idxoff, asciiptrlen + idxbuf);
      pos := idxoff + PTR_SZ + IDXLEN_SZ + len;
      g := g.(idx := idx, ptrs := g.ptrs[idxoff := ptr], recs := g.recs[idxoff := r]);
      ok := true;
    }

    method WritePtr(offset: nat, v: nat) returns (ok: bool)
      requires BytesOk() && offset in g.ptrs
      modifies `idx, `pos, `g
      ensures ok <==> v <= PTR_MAX
      ensures ok ==> BytesOk() && g == old(g).(idx := idx, ptrs := old(g.ptrs)[offset := v]) && |idx| == |old(idx)|
    {
      hide TextOk, Pad, WriteAt;
      if v > PTR_MAX {
        return false;
      }
      WritePtrText(idx, g.ptrs, g.recs, offset, v);
      var asciiptr := Pad(v, PTR_SZ);
      idx := WriteAt(idx, offset, asciiptr);
      pos := offset + PTR_SZ;
      g := g.(idx := idx, ptrs := g.ptrs[offset := v]);
      ok := true;
    }

    // ---------- lookup ----------

    static lemma Wrapped(x: int, y: int)
      ensures (x % WORD + y) % WORD == (x + y) % WORD
    {
      var q := x / WORD;
      assert x == q * WORD + x % WORD;
      WrappedBy(x % WORD + y, q);
    }

    static lemma WrappedBy(z: int, q: int)
      ensures (z + q * WORD) % WORD == z % WORD
    {
      var r := z / WORD;
      assert z == r * WORD + z % WORD;
      assert z + q * WORD == (r + q) * WORD + z % WORD;
    }

    static method HashOf(key: string) returns (h: nat)
      ensures h == Hash(key)
    {
      var hval: nat := 0;
      var i := 1;
      while i <= |key|
        invariant 1 <= i <= |key| + 1
        invariant hval == WeightedSum(key, i - 1) % WORD
      {
        Wrapped(WeightedSum(key, i - 1), SignedChar(key[i - 1]) * i);
        hval := (hval + SignedChar(key[i - 1]) * i) % WORD;
        i := i + 1;
      }
      h := hval % NHASH;
    }

    /**
     Walks the key's chain. The walk ends; it finds the key exactly when the map has it, and then the
     fields describe its record and the slot that points to it, the p-th of the chain.
     */
    method FindAndLock(key: string) returns (rc: int, ghost p: nat)
      requires Valid()
      modifies `pos, `idxoff, `idxlen, `datoff, `datlen, `ptrval, `idxbuf, `ptroff, `chainoff
      ensures chainoff == HeadSlot(1 + Hash(key))
      ensures rc == if key in g.m then 0 else -1
      ensures rc == 0 ==> AtRecord(1 + Hash(key), p) && key in g.loc && idxoff == g.loc[key] && idxbuf == key
    {
      hide TextOk, ListsOk, AllLinked, Content, Hash;
      var h := HashOf(key);
      chainoff := h * PTR_SZ + HASH_OFF;
      ptroff := chainoff;
      ghost var k := 1 + h;
      p := 0;
      Follow(g.ptrs, g.recs, g.lists, g.home, k, 0);
      var offset := ReadPtr(ptroff);
      while offset != 0
        invariant p <= |g.lists[k]|
        invariant ptroff == SlotAt(HeadSlot(k), g.lists[k], p) && offset == ValAt(g.lists[k], p)
        invariant forall q :: 0 <= q < p ==> g.lists[k][q] in g.recs && g.recs[g.lists[k][q]].key != key
        modifies `pos, `idxoff, `idxlen, `datoff, `datlen, `ptrval, `idxbuf, `ptroff
        decreases |g.lists[k]| - p
      {
        Follow(g.ptrs, g.recs, g.lists, g.home, k, p);
        Follow(g.ptrs, g.recs, g.lists, g.home, k, p + 1);
        var nextoffset := ReadIdx(offset);
        if idxbuf == key {
          OnChain(dat, g.recs, g.home, g.loc, g.m, offset);
          return 0, p;
        }
        ptroff := offset;
        offset := nextoffset;
        p := p + 1;
      }
      if p < |g.lists[k]| {
        Follow(g.ptrs, g.recs, g.lists, g.home, k, p);
      }
      if key in g.m {
        Lookup(dat, g.recs, g.home, g.loc, g.m, key);
        ghost var q := HomeListed(g.recs, g.lists, g.home, g.loc[key]);
      }
      rc := -1;
    }

    /** The fields describe the p-th record of list k. */
    ghost predicate AtRecord(k: nat, p: nat)
      reads this
    {
      && k < NLISTS && |g.lists| == NLISTS && p < |g.lists[k]|
      && idxoff == g.lists[k][p] && idxoff in g.recs
      && ptroff == SlotAt(HeadSlot(k), g.lists[k], p) && ptrval == ValAt(g.lists[k], p + 1)
      && idxbuf == g.recs[idxoff].key && datoff == g.recs[idxoff].datoff && datlen == g.recs[idxoff].datlen
    }

    method Fetch(key: string) returns (r: Option<string>)
      requires Valid()
      modifies `pos, `idxoff, `idxlen, `datoff, `datlen, `ptrval, `idxbuf, `ptroff, `chainoff, `datbuf
      ensures Valid()
      ensures r == if key in g.m then Some(g.m[key]) else None
    {
      hide TextOk, ListsOk, AllLinked, Content;
      var rc, p := FindAndLock(key);
      if rc < 0 {
        r := None;
      } else {
        Lookup(dat, g.recs, g.home, g.loc, g.m, key);
        var data := ReadDat();
        assert data == (g.m[key] + [NEWLINE])[..datlen - 1] == g.m[key];
        r := Some(data);
      }
    }

    // ---------- deletion ----------

    static method BlankOut(n: nat) returns (s: string)
      ensures s == Spaces(n)
    {
      s := "";
      var i := 0;
      while i < n
        invariant 0 <= i <= n && s == Spaces(i)
      {
        s := s + [SPACE];
        i := i + 1;
      }
    }

    /** The last two writes of a deletion: the free list takes the record, its chain lets go of it. */
    method MoveOver(saveptr: nat)
      requires BytesOk() && FREE_OFF in g.ptrs && ptroff in g.ptrs && idxoff <= PTR_MAX && saveptr <= PTR_MAX
      modifies `idx, `pos, `g
      ensures BytesOk() && |idx| == |old(idx)|
      ensures g == old(g).(idx := idx, ptrs := old(g.ptrs)[FREE_OFF := idxoff][ptroff := saveptr])
    {
      hide TextOk;
      var ok := WritePtr(FREE_OFF, idxoff);
      ok := WritePtr(ptroff, saveptr);
    }

    /**
     Blanks the current record in both files and moves it from its chain to the head of the free
     list. Both files keep their length.
     */
    method DoDelete(ghost k: nat, ghost p: nat)
      requires Valid() && AtRecord(k, p) && k >= 1
      modifies `idx, `dat, `pos, `idxoff, `ptrval, `idxbuf, `datbuf, `datoff, `datlen, `g
      ensures Valid()
      ensures g.m == old(g.m) - {old(idxbuf)}
      ensures |idx| == |old(idx)| && |dat| == |old(dat)|
    {
      hide TextOk, ListsOk, AllLinked, Content, WriteAt, BodyLen, Digits, Hash, SlotAt, ValAt, RecOk, RemoveAt;
      DeleteFacts(g, k, p);
      hide Good;
      label start:

      datbuf := BlankOut(datlen - 1);
      idxbuf := BlankOut(|idxbuf|);
      WriteDat(datbuf, datoff, false);
      var freeptr := ReadPtr(FREE_OFF);
      var saveptr := ptrval;
      assert SEP !in idxbuf;
      var ok := WriteIdx(idxbuf, idxoff, false, freeptr);
      MoveOver(saveptr);

      ghost var t := Deleted(old@start(g), idx, k, p);
      DeleteDone(old@start(g), idx, k, p);
      g := t;
    }

    method Delete(key: string) returns (rc: int)
      requires Valid()
      modifies this
      ensures Valid()
      ensures rc == if key in old(g.m) then 0 else -1
      ensures g.m == old(g.m) - {key}
      ensures |idx| == |old(idx)| && |dat| == |old(dat)|
    {
      hide TextOk, ListsOk, AllLinked, Content;
      rc := 0;
      var found, p := FindAndLock(key);
      if found == 0 {
        DoDelete(1 + Hash(key), p);
      } else {
        rc := -1;
        assert g.m - {key} == g.m;
      }
    }

    // ---------- storing ----------

    /** The record at idxoff is on no list; everything else is as in Valid(). */
    ghost predicate Detached()
      reads this
    {
      && g.idx == idx && g.dat == dat && Good(g, {idxoff})
      && idxoff in g.recs && idxoff <= PTR_MAX
      && datoff == g.recs[idxoff].datoff && datlen == g.recs[idxoff].datlen
    }

    /** Takes the first record of the right sizes, the p-th, off the free list. */
    method FindFree(keylen: nat, dlen: nat) returns (rc: int, ghost p: nat)
      requires Valid()
      modifies `idx, `pos, `idxoff, `idxlen, `datoff, `datlen, `ptrval, `idxbuf, `g
      ensures (rc == 0 || rc == -1) && |idx| == |old(idx)|
      ensures |old(g.lists)| == NLISTS
      ensures rc == 0 <==> exists o :: o in old(g.lists[0]) && o in old(g.recs) && Fits(old(g.recs)[o], keylen, dlen)
      ensures rc == -1 ==> Valid() && g == old(g)
      ensures rc == 0 ==> Detached() && Fits(g.recs[idxoff], keylen, dlen)
      ensures rc == 0 ==> p < |old(g.lists)[0]| && idxoff == old(g.lists)[0][p] && g == Taken(old(g), idx, p)
      ensures rc == 0 ==> forall q :: 0 <= q < p && old(g.lists)[0][q] in old(g.recs) ==>
          !Fits(old(g.recs)[old(g.lists)[0][q]], keylen, dlen)
    {
      hide TextOk, ListsOk, AllLinked, Content, BodyLen, RecOk, RecSize;
      var saveoffset: nat := FREE_OFF;
      p := 0;
      Follow(g.ptrs, g.recs, g.lists, g.home, 0, 0);
      var offset := ReadPtr(saveoffset);
      while offset != 0
        invariant |g.lists| == NLISTS && p <= |g.lists[0]|
        invariant saveoffset == SlotAt(FREE_OFF, g.lists[0], p) && offset == ValAt(g.lists[0], p)
        invariant forall q :: 0 <= q < p ==> g.lists[0][q] in g.recs && !Fits(g.recs[g.lists[0][q]], keylen, dlen)
        modifies `pos, `idxoff, `idxlen, `datoff, `datlen, `ptrval, `idxbuf
        decreases |g.lists[0]| - p
      {
        Follow(g.ptrs, g.recs, g.lists, g.home, 0, p);
        Follow(g.ptrs, g.recs, g.lists, g.home, 0, p + 1);
        var nextoffset := ReadIdx(offset);
        if |idxbuf| == keylen && datlen == dlen {
          break;
        }
        saveoffset := offset;
        offset := nextoffset;
        p := p + 1;
      }
      if offset == 0 {
        if p < |g.lists[0]| {
          Follow(g.ptrs, g.recs, g.lists, g.home, 0, p);
        }
        rc := -1;
      } else {
        Follow(g.ptrs, g.recs, g.lists, g.home, 0, p);
        Follow(g.ptrs, g.recs, g.lists, g.home, 0, p + 1);
        TextSlots(idx, g.ptrs, g.recs);
        assert offset in g.lists[0] && Fits(g.recs[offset], keylen, dlen);
        label found:
        var ok := WritePtr(saveoffset, ptrval);
        ghost var t := Taken(old@found(g), idx, p);
        TakeDone(old@found(g), idx, p);
        g := t;
        rc := 0;
      }
    }

    /** Adds a record for an absent key at the ends of both files and at the front of its chain. */
    method Append(key: string, data: string, ptr: nat) returns (ok: bool)
      requires Valid() && key !in g.m && CString(key) && SEP !in key && DataSizeOk(data)
      requires chainoff == HeadSlot(1 + Hash(key)) && chainoff in g.ptrs && ptr == g.ptrs[chainoff]
      modifies `idx, `dat, `pos, `idxoff, `datoff, `datlen, `ptrval, `idxbuf, `g
      ensures ok <==> HasRoom(|old(idx)|, |old(dat)|, key, data)
      ensures ok ==> Valid() && g.m == old(g.m)[key := data]
      ensures ok ==> |idx| == |old(idx)| + RecSize(Rec(key, |old(dat)|, |data| + 1)) && |dat| == |old(dat)| + |data| + 1
    {
      hide TextOk, ListsOk, AllLinked, Content, WriteAt, Digits, Hash, CString, RecSize;
      ghost var r := Rec(key, |dat|, |data| + 1);
      TextSlots(idx, g.ptrs, g.recs);
      label start:
      WriteDat(data, 0, true);
      ok := WriteIdx(key, 0, true, ptr);
      if !ok {
        return false;
      }
      TextSlots(idx, g.ptrs, g.recs);
      ok := WritePtr(chainoff, idxoff);
      if !ok {
        return false;
      }
      ghost var t := Inserted(old@start(g), idx, idxoff, r, data);
      InsertDone(old@start(g), {}, idx, idxoff, r, data);
      g := t;
    }

    /** Puts an absent key and its data into the detached record and at the front of its chain. */
    method Refill(key: string, data: string, ptr: nat)
      requires Detached() && key !in g.m && CString(key) && SEP !in key && DataSizeOk(data)
      requires Fits(g.recs[idxoff], |key|, |data| + 1)
      requires chainoff == HeadSlot(1 + Hash(key)) && chainoff in g.ptrs && ptr == g.ptrs[chainoff]
      modifies `idx, `dat, `pos, `idxoff, `datoff, `datlen, `ptrval, `idxbuf, `g
      ensures Valid() && g.m == old(g.m)[key := data]
      ensures |idx| == |old(idx)| && |dat| == |old(dat)|
    {
      hide TextOk, ListsOk, AllLinked, Content, WriteAt, BodyLen, Digits, Hash, CString, HeadSlot;
      ghost var r := Rec(key, datoff, |data| + 1);
      TextSlots(idx, g.ptrs, g.recs);
      ExtentOf(dat, g.recs, g.home, g.loc, g.m, idxoff);
      label start:
      WriteDat(data, datoff, false);
      var ok := WriteIdx(key, idxoff, false, ptr);
      TextSlots(idx, g.ptrs, g.recs);
      ok := WritePtr(chainoff, idxoff);
      ghost var t := Inserted(old@start(g), idx, idxoff, r, data);
      InsertDone(old@start(g), {idxoff}, idx, idxoff, r, data);
      g := t;
    }

    /**
     db_store. It behaves as the finite map does, unless it ends the process, which it does exactly for
     data of a bad length or when a record it must append does not fit.
     */
    method Store(key: string, data: string, flag: int) returns (r: Outcome)
      requires Valid() && CString(key) && SEP !in key && CString(data)
      modifies this
      ensures |old(g.lists)| == NLISTS
      ensures r.Returned? ==> Valid() && (r.rc, g.m) == StoreSpec(old(g.m), key, data, flag)
      ensures r.Returned? ==> StoreMeans(old(g.m), key, data, flag, r.rc, g.m)
      ensures r.Returned? ==>
                var more := Appends(old(g.m), old(g.recs), old(g.lists[0]), key, data, flag);
                && |idx| == |old(idx)| + (if more then RecSize(Rec(key, |old(dat)|, |data| + 1)) else 0)
                && |dat| == |old(dat)| + (if more then |data| + 1 else 0)
      ensures r.Died? <==>
                && flag in {DB_INSERT, DB_REPLACE, DB_STORE}
                && (!DataSizeOk(data) || (Appends(old(g.m), old(g.recs), old(g.lists[0]), key, data, flag)
                                          && !HasRoom(|old(idx)|, |old(dat)|, key, data)))
    {
      hide TextOk, ListsOk, AllLinked, Content, CString, RecSize, HasRoom, Hash, HeadSlot, WriteAt, StoreMeans;
      StoreSpecMeans(g.m, key, data, flag);
      if flag != DB_INSERT && flag != DB_REPLACE && flag != DB_STORE {
        return Returned(-1);
      }
      var keylen, dlen := |key|, |data| + 1;
      if dlen < DATLEN_MIN || dlen > DATLEN_MAX {
        return Died;
      }
      var found, p := FindAndLock(key);
      HeadSlotOf(key);
      if found < 0 {
        if flag == DB_REPLACE {
          return Returned(-1);
        }
        var ptr := ReadPtr(chainoff);
        var free, q := FindFree(keylen, dlen);
        HeadSlotOf(key);
        if free < 0 {
          var ok := Append(key, data, ptr);
          if !ok {
            return Died;
          }
        } else {
          Refill(key, data, ptr);
        }
      } else {
        Lookup(dat, g.recs, g.home, g.loc, g.m, key);
        if flag == DB_INSERT {
          return Returned(1);
        }
        if dlen != datlen {
          DoDelete(1 + Hash(key), p);
          HeadSlotOf(key);
          var ptr := ReadPtr(chainoff);
          var ok := Append(key, data, ptr);
          if !ok {
            return Died;
          }
          assert g.m == old(g.m)[key := data];
        } else {
          OverwriteContent(dat, g.recs, g.home, g.loc, g.m, key, data);
          WriteDat(data, datoff, false);
          g := g.(m := g.m[key := data]);
        }
      }
      return Returned(0);
    }

    lemma HeadSlotOf(key: string)
      requires Valid() || Detached()
      ensures HeadSlot(1 + Hash(key)) in g.ptrs
      ensures g.ptrs[HeadSlot(1 + Hash(key))] == ValAt(g.lists[1 + Hash(key)], 0)
    {
      Follow(g.ptrs, g.recs, g.lists, g.home, 1 + Hash(key), 0);
    }

    // ---------- sequential reading ----------

    method Rewind()
      requires BytesOk()
      modifies `pos, `idxoff
      ensures pos == REC_START && (pos in g.recs || pos == |idx|)
    {
      var offset := (NHASH + 1) * PTR_SZ;
      idxoff := offset + 1;
      pos := idxoff;
    }

    /**
     The next record whose key is not all blanks, with its data; nothing but blank records lies
     between, and None means the end of the file with nothing but blank records before it.
     */
    method NextRec() returns (r: Option<(string, string)>, ghost o: nat)
      requires Valid() && (pos in g.recs || pos == |idx|)
      modifies `pos, `idxoff, `idxlen, `datoff, `datlen, `ptrval, `idxbuf, `datbuf
      ensures pos in g.recs || pos == |idx|
      ensures r.None? ==> pos == |idx| && forall q :: q in g.recs && q >= old(pos) ==> Blank(g.recs[q].key)
      ensures r.Some? ==>
                && o in g.recs && old(pos) <= o && pos == RecEnd(g.recs, o)
                && !Blank(g.recs[o].key) && g.recs[o].key in g.m && g.loc[g.recs[o].key] == o
                && r.value == (g.recs[o].key, g.m[g.recs[o].key])
                && forall q :: q in g.recs && old(pos) <= q < o ==> Blank(g.recs[q].key)
    {
      hide TextOk, ListsOk, AllLinked, Content, RecOk, RecSize, Hash, WriteAt;
      o := 0;
      ghost var start := pos;
      while true
        invariant start <= pos && (pos in g.recs || pos == |idx|)
        invariant forall q :: q in g.recs && start <= q < pos ==> Blank(g.recs[q].key)
        decreases |idx| - pos
      {
        TextSlots(idx, g.ptrs, g.recs);
        if pos in g.recs {
          NextRecord(idx, g.ptrs, g.recs, pos);
        }
        var next := ReadIdx(0);
        if next < 0 {
          return None, o;
        }
        var i := 0;
        while i < |idxbuf| && idxbuf[i] == SPACE
          invariant 0 <= i <= |idxbuf| && forall j :: 0 <= j < i ==> idxbuf[j] == SPACE
        {
          i := i + 1;
        }
        if i < |idxbuf| {
          break;
        }
        assert idxbuf == Spaces(|idxbuf|);
      }
      o := idxoff;
      assert !Blank(idxbuf);
      NotFree(dat, g.recs, g.home, g.loc, g.m, o);
      Lookup(dat, g.recs, g.home, g.loc, g.m, idxbuf);
      var key := idxbuf;
      var data := ReadDat();
      assert data == (g.m[key] + [NEWLINE])[..datlen - 1] == g.m[key];
      r := Some((key, data));
    }

    /**
     db_rewind and then db_nextrec until it returns NULL: every pair of the map whose key is not all
     blanks, once, in file order, and nothing else.
     */
    method ScanAll() returns (pairs: seq<(string, string)>)
      requires Valid()
      modifies `pos, `idxoff, `idxlen, `datoff, `datlen, `ptrval, `idxbuf, `datbuf
      ensures Valid()
      ensures forall i :: 0 <= i < |pairs| ==>
                pairs[i].0 in g.m && pairs[i].1 == g.m[pairs[i].0] && !Blank(pairs[i].0)
      ensures forall i, j :: 0 <= i < j < |pairs| ==>
          pairs[i].0 in g.loc && pairs[j].0 in g.loc && g.loc[pairs[i].0] < g.loc[pairs[j].0]
      ensures forall key :: key in g.m && !Blank(key) ==> (key, g.m[key]) in pairs
    {
      hide TextOk, ListsOk, AllLinked, Content, Blank, RecOk, RecSize, RecEnd, Hash;
      pairs := [];
      Rewind();
      SameKeys(dat, g.recs, g.home, g.loc, g.m);
      TextSlots(idx, g.ptrs, g.recs);
      while true
        invariant REC_START <= pos && (pos in g.recs || pos == |idx|)
        invariant forall i :: 0 <= i < |pairs| ==>
                    && pairs[i].0 in g.m && pairs[i].1 == g.m[pairs[i].0] && !Blank(pairs[i].0)
                    && g.loc[pairs[i].0] < pos
        invariant forall i, j :: 0 <= i < j < |pairs| ==>
            pairs[i].0 in g.loc && pairs[j].0 in g.loc && g.loc[pairs[i].0] < g.loc[pairs[j].0]
        invariant forall o :: o in g.recs && o < pos && !Blank(g.recs[o].key) ==>
                    g.recs[o].key in g.m && (g.recs[o].key, g.m[g.recs[o].key]) in pairs
        decreases |idx| - pos
      {
        ghost var was := pairs;
        var next, o := NextRec();
        if next == None {
          break;
        }
        NextRecord(idx, g.ptrs, g.recs, o);
        pairs := pairs + [next.value];
      }
      forall key | key in g.m && !Blank(key)
        ensures (key, g.m[key]) in pairs
      {
        Lookup(dat, g.recs, g.home, g.loc, g.m, key);
        assert g.recs[g.loc[key]].key == key;
      }
    }
  }
}
