/**
 The bytes of db.c's two files: what the index file looks like for given pointer slots and records,
 what a read finds at a slot or a record, and what a write at one place leaves alone.
 */
module DbBytes {
  import opened DbText
  import opened DbIndex

  // ---------- files ----------

  /** lseek to `off` and write `t`. */
  function WriteAt(f: string, off: nat, t: string): (g: string)
    requires off <= |f|
    ensures |g| == if off + |t| < |f| then |f| else off + |t|
  {
    f[..off] + t + (if off + |t| < |f| then f[off + |t|..] else [])
  }

  predicate At(f: string, off: nat, t: string) {
    off + |t| <= |f| && f[off..off + |t|] == t
  }

  lemma WriteHere(f: string, off: nat, t: string)
    requires off <= |f|
    ensures At(WriteAt(f, off, t), off, t)
  {
  }

  lemma WriteElsewhere(f: string, off: nat, t: string, o: nat, u: string)
    requires off <= |f| && At(f, o, u) && (o + |u| <= off || off + |t| <= o)
    ensures At(WriteAt(f, off, t), o, u)
  {
  }

  lemma AtExtend(f: string, g: string, off: nat, t: string)
    requires At(f, off, t)
    ensures At(f + g, off, t)
  {
    assert (f + g)[off..off + |t|] == f[off..off + |t|];
  }

  lemma AtSplit(f: string, off: nat, t: string, u: string)
    requires At(f, off, t + u)
    ensures At(f, off, t) && At(f, off + |t|, u)
  {
    var s := f[off..off + |t + u|];
    assert f[off..off + |t|] == s[..|t|] == t;
    assert f[off + |t|..off + |t| + |u|] == s[|t|..] == u;
  }

  // ---------- the index file ----------

  function RecBodyLen(r: Rec): nat {
    BodyLen(|r.key|, r.datoff, r.datlen)
  }

  function RecSize(r: Rec): nat {
    PTR_SZ + IDXLEN_SZ + RecBodyLen(r)
  }

  predicate RecOk(r: Rec) {
    && CString(r.key) && SEP !in r.key
    && DATLEN_MIN <= r.datlen <= DATLEN_MAX
    && IDXLEN_MIN <= RecBodyLen(r) <= IDXLEN_MAX
  }

  /** One index record: chain pointer, length, body. */
  function RecText(ptr: nat, r: Rec): string {
    Pad(ptr, PTR_SZ) + (Pad(RecBodyLen(r), IDXLEN_SZ) + Body(r.key, r.datoff, r.datlen))
  }

  /** The layout by an example: the record of "Alpha" with six bytes of data at 0, in front of the record at 146. */
  lemma LayoutExample()
    ensures RecText(146, Rec("Alpha", 0, 6)) == "    146  10Alpha:0:6\n"
  {
    ExampleParts();
    hide Pad, Body, RecBodyLen;
  }

  lemma ExampleParts()
    ensures Body("Alpha", 0, 6) == "Alpha:0:6\n" && RecBodyLen(Rec("Alpha", 0, 6)) == 10
    ensures Pad(10, IDXLEN_SZ) == "  10" && Pad(146, PTR_SZ) == "    146"
  {
    assert Digits(146) == Digits(14) + ['6'] && Digits(14) == Digits(1) + ['4'] == "14" && Digits(10) == "10";
  }

  predicate IsSlot(recs: map<nat, Rec>, x: nat) {
    (x % PTR_SZ == 0 && x < REC_START - 1) || x in recs
  }

  ghost predicate SlotHolds(idx: string, x: nat, v: nat) {
    v <= PTR_MAX && At(idx, x, Pad(v, PTR_SZ))
  }

  ghost predicate RecAt(idx: string, o: nat, r: Rec) {
    && At(idx, o + PTR_SZ, Pad(RecBodyLen(r), IDXLEN_SZ))
    && At(idx, o + PTR_SZ + IDXLEN_SZ, Body(r.key, r.datoff, r.datlen))
  }

  /** Where the record at `o` ends and the next one begins. */
  function RecEnd(recs: map<nat, Rec>, o: nat): nat
    requires o in recs
  {
    o + RecSize(recs[o])
  }

  /** The records follow one another without gaps from the end of the hash table to the end of the file. */
  ghost predicate Layout(recs: map<nat, Rec>, end: nat) {
    && (REC_START in recs || end == REC_START)
    && (forall o :: o in recs ==> REC_START <= o && o + RecSize(recs[o]) <= end)
    && (forall o {:trigger RecEnd(recs, o)} :: o in recs ==> RecEnd(recs, o) in recs || RecEnd(recs, o) == end)
    && (forall o, o' :: o in recs && o' in recs && o < o' ==> o + RecSize(recs[o]) <= o')
  }

  ghost predicate SlotsAt(idx: string, ptrs: map<nat, nat>) {
    forall x {:trigger SlotHolds(idx, x, ptrs[x])} :: x in ptrs ==> SlotHolds(idx, x, ptrs[x])
  }

  ghost predicate RecsAt(idx: string, recs: map<nat, Rec>) {
    forall o {:trigger RecAt(idx, o, recs[o])} :: o in recs ==> RecOk(recs[o]) && RecAt(idx, o, recs[o])
  }

  /** The index file reads as these slots and these records, and as nothing else. */
  ghost predicate TextOk(idx: string, ptrs: map<nat, nat>, recs: map<nat, Rec>) {
    && |idx| >= REC_START && idx[REC_START - 1] == NEWLINE
    && (forall x :: x in ptrs <==> IsSlot(recs, x))
    && SlotsAt(idx, ptrs)
    && RecsAt(idx, recs)
    && Layout(recs, |idx|)
  }

  lemma RecTextLen(ptr: nat, r: Rec)
    requires ptr <= PTR_MAX && RecOk(r)
    ensures |Pad(ptr, PTR_SZ)| == PTR_SZ
    ensures |Pad(RecBodyLen(r), IDXLEN_SZ)| == IDXLEN_SZ
    ensures |Body(r.key, r.datoff, r.datlen)| == RecBodyLen(r)
    ensures |RecText(ptr, r)| == RecSize(r)
  {
    PtrWidth(ptr);
    LenWidth(RecBodyLen(r));
    BodyRoundTrip(r.key, r.datoff, r.datlen);
  }

  /** Where a slot's seven bytes lie relative to a record: never across its length and body. */
  lemma SlotApart(recs: map<nat, Rec>, end: nat, x: nat, o: nat)
    requires Layout(recs, end) && IsSlot(recs, x) && o in recs
    ensures x + PTR_SZ <= o + PTR_SZ || o + RecSize(recs[o]) <= x
    ensures x != o ==> x + PTR_SZ <= o || o + RecSize(recs[o]) <= x
  {
  }

  lemma SlotsApart(recs: map<nat, Rec>, end: nat, x: nat, y: nat)
    requires Layout(recs, end) && IsSlot(recs, x) && IsSlot(recs, y) && x != y
    ensures x + PTR_SZ <= y || y + PTR_SZ <= x
  {
  }

  /** A write that stays clear of a record's length and body leaves both readable. */
  lemma RecKept(idx: string, off: nat, t: string, o: nat, r: Rec)
    requires off <= |idx| && RecOk(r) && RecAt(idx, o, r)
    requires off + |t| <= o + PTR_SZ || o + RecSize(r) <= off
    ensures RecAt(WriteAt(idx, off, t), o, r)
  {
    RecTextLen(0, r);
    WriteElsewhere(idx, off, t, o + PTR_SZ, Pad(RecBodyLen(r), IDXLEN_SZ));
    WriteElsewhere(idx, off, t, o + PTR_SZ + IDXLEN_SZ, Body(r.key, r.datoff, r.datlen));
  }

  lemma SlotKept(idx: string, off: nat, t: string, x: nat, v: nat)
    requires off <= |idx| && SlotHolds(idx, x, v)
    requires off + |t| <= x || x + PTR_SZ <= off
    ensures SlotHolds(WriteAt(idx, off, t), x, v)
  {
    PtrWidth(v);
    WriteElsewhere(idx, off, t, x, Pad(v, PTR_SZ));
  }

  lemma WritePtrSlots(idx: string, ptrs: map<nat, nat>, recs: map<nat, Rec>, x: nat, v: nat)
    requires SlotsAt(idx, ptrs) && Layout(recs, |idx|) && x in ptrs && v <= PTR_MAX
    requires forall y :: y in ptrs ==> IsSlot(recs, y)
    requires x + PTR_SZ <= |idx|
    ensures SlotsAt(WriteAt(idx, x, Pad(v, PTR_SZ)), ptrs[x := v])
  {
    hide Layout, WriteAt, Pad;
    PtrWidth(v);
    WriteHere(idx, x, Pad(v, PTR_SZ));
    var ptrs' := ptrs[x := v];
    forall y | y in ptrs'
      ensures SlotHolds(WriteAt(idx, x, Pad(v, PTR_SZ)), y, ptrs'[y])
    {
      if y != x {
        assert SlotHolds(idx, y, ptrs[y]);
        SlotsApart(recs, |idx|, x, y);
        SlotKept(idx, x, Pad(v, PTR_SZ), y, ptrs[y]);
      }
    }
  }

  lemma WritePtrRecs(idx: string, recs: map<nat, Rec>, x: nat, t: string)
    requires RecsAt(idx, recs) && Layout(recs, |idx|) && IsSlot(recs, x)
    requires |t| == PTR_SZ && x + PTR_SZ <= |idx|
    ensures RecsAt(WriteAt(idx, x, t), recs)
  {
    hide Layout, WriteAt, RecOk;
    forall o | o in recs
      ensures RecOk(recs[o]) && RecAt(WriteAt(idx, x, t), o, recs[o])
    {
      assert RecAt(idx, o, recs[o]);
      SlotApart(recs, |idx|, x, o);
      RecKept(idx, x, t, o, recs[o]);
    }
  }

  lemma HeaderKept(idx: string, recs: map<nat, Rec>, x: nat, t: string)
    requires Layout(recs, |idx|) && |idx| >= REC_START && idx[REC_START - 1] == NEWLINE
    requires x <= |idx| && (x >= REC_START || (IsSlot(recs, x) && |t| == PTR_SZ))
    ensures WriteAt(idx, x, t)[REC_START - 1] == NEWLINE
  {
  }

  /** Rewriting one pointer field changes that slot and no other byte that means anything. */
  lemma WritePtrText(idx: string, ptrs: map<nat, nat>, recs: map<nat, Rec>, x: nat, v: nat)
    requires TextOk(idx, ptrs, recs) && x in ptrs && v <= PTR_MAX
    ensures x <= |idx| && |WriteAt(idx, x, Pad(v, PTR_SZ))| == |idx|
    ensures TextOk(WriteAt(idx, x, Pad(v, PTR_SZ)), ptrs[x := v], recs)
  {
    ReadPtrText(idx, ptrs, x);
    PtrWidth(v);
    WritePtrSlots(idx, ptrs, recs, x, v);
    WritePtrRecs(idx, recs, x, Pad(v, PTR_SZ));
    HeaderKept(idx, recs, x, Pad(v, PTR_SZ));
  }

  lemma RecHere(idx: string, o: nat, v: nat, r: Rec)
    requires o <= |idx| && v <= PTR_MAX && RecOk(r)
    ensures At(WriteAt(idx, o, RecText(v, r)), o, Pad(v, PTR_SZ))
    ensures RecAt(WriteAt(idx, o, RecText(v, r)), o, r)
  {
    RecTextLen(v, r);
    var idx' := WriteAt(idx, o, RecText(v, r));
    WriteHere(idx, o, RecText(v, r));
    AtSplit(idx', o, Pad(v, PTR_SZ), Pad(RecBodyLen(r), IDXLEN_SZ) + Body(r.key, r.datoff, r.datlen));
    AtSplit(idx', o + PTR_SZ, Pad(RecBodyLen(r), IDXLEN_SZ), Body(r.key, r.datoff, r.datlen));
  }

  lemma WriteRecSlots(idx: string, ptrs: map<nat, nat>, recs: map<nat, Rec>, o: nat, v: nat, r: Rec)
    requires SlotsAt(idx, ptrs) && Layout(recs, |idx|) && v <= PTR_MAX && RecOk(r)
    requires forall x :: x in ptrs ==> IsSlot(recs, x)
    requires REC_START <= |idx| && o <= |idx|
    requires if o in recs then RecSize(r) == RecSize(recs[o]) else o == |idx|
    ensures SlotsAt(WriteAt(idx, o, RecText(v, r)), ptrs[o := v])
  {
    hide Layout, WriteAt, RecText, RecOk;
    RecFits(recs, |idx|, o, v, r);
    RecHere(idx, o, v, r);
    var ptrs' := ptrs[o := v];
    forall x | x in ptrs'
      ensures SlotHolds(WriteAt(idx, o, RecText(v, r)), x, ptrs'[x])
    {
      if x != o {
        assert SlotHolds(idx, x, ptrs[x]);
        SlotClear(recs, |idx|, o, r, x);
        SlotKept(idx, o, RecText(v, r), x, ptrs[x]);
      }
    }
  }

  lemma WriteRecRecs(idx: string, recs: map<nat, Rec>, o: nat, v: nat, r: Rec)
    requires RecsAt(idx, recs) && Layout(recs, |idx|) && v <= PTR_MAX && RecOk(r)
    requires REC_START <= |idx| && o <= |idx|
    requires if o in recs then RecSize(r) == RecSize(recs[o]) else o == |idx|
    ensures RecsAt(WriteAt(idx, o, RecText(v, r)), recs[o := r])
  {
    hide Layout, WriteAt, RecText, RecOk, RecAt;
    RecFits(recs, |idx|, o, v, r);
    RecHere(idx, o, v, r);
    var recs' := recs[o := r];
    forall q | q in recs'
      ensures RecOk(recs'[q]) && RecAt(WriteAt(idx, o, RecText(v, r)), q, recs'[q])
    {
      if q != o {
        assert RecAt(idx, q, recs[q]);
        RecClear(recs, |idx|, o, r, q);
        RecKept(idx, o, RecText(v, r), q, recs[q]);
      }
    }
  }

  /**
   Writing a whole record, over a record of the same length or at the end of the file, changes that
   record and its slot only.
   */
  lemma WriteRecText(idx: string, ptrs: map<nat, nat>, recs: map<nat, Rec>, o: nat, v: nat, r: Rec)
    requires TextOk(idx, ptrs, recs) && v <= PTR_MAX && RecOk(r)
    requires if o in recs then RecSize(r) == RecSize(recs[o]) else o == |idx|
    ensures o <= |idx|
    ensures TextOk(WriteAt(idx, o, RecText(v, r)), ptrs[o := v], recs[o := r])
    ensures |WriteAt(idx, o, RecText(v, r))| == if o in recs then |idx| else |idx| + RecSize(r)
  {
    hide Layout, RecText, RecOk, SlotsAt, RecsAt;
    RecFits(recs, |idx|, o, v, r);
    WriteRecSlots(idx, ptrs, recs, o, v, r);
    WriteRecRecs(idx, recs, o, v, r);
    LayoutWith(recs, |idx|, o, r);
    HeaderKept(idx, recs, o, RecText(v, r));
  }

  lemma RecFits(recs: map<nat, Rec>, end: nat, o: nat, v: nat, r: Rec)
    requires Layout(recs, end) && v <= PTR_MAX && RecOk(r) && REC_START <= end
    requires if o in recs then RecSize(r) == RecSize(recs[o]) else o == end
    ensures REC_START <= o <= end && |RecText(v, r)| == RecSize(r)
    ensures o in recs ==> o + RecSize(r) <= end
  {
    RecTextLen(v, r);
  }

  lemma SlotClear(recs: map<nat, Rec>, end: nat, o: nat, r: Rec, x: nat)
    requires Layout(recs, end) && IsSlot(recs, x) && x != o && end >= REC_START
    requires if o in recs then RecSize(r) == RecSize(recs[o]) else o == end
    ensures o + RecSize(r) <= x || x + PTR_SZ <= o
  {
  }

  lemma RecClear(recs: map<nat, Rec>, end: nat, o: nat, r: Rec, q: nat)
    requires Layout(recs, end) && q in recs && q != o && end >= REC_START
    requires if o in recs then RecSize(r) == RecSize(recs[o]) else o == end
    ensures o + RecSize(r) <= q + PTR_SZ || q + RecSize(recs[q]) <= o
  {
  }

  lemma LayoutWith(recs: map<nat, Rec>, end: nat, o: nat, r: Rec)
    requires Layout(recs, end) && end >= REC_START
    requires if o in recs then RecSize(r) == RecSize(recs[o]) else o == end
    ensures Layout(recs[o := r], if o in recs then end else end + RecSize(r))
  {
    var recs', end' := recs[o := r], if o in recs then end else end + RecSize(r);
    forall q | q in recs'
      ensures RecEnd(recs', q) in recs' || RecEnd(recs', q) == end'
    {
      if q in recs {
        assert RecEnd(recs', q) == RecEnd(recs, q);
      }
    }
  }

  /** A read of a slot's seven bytes gives the number it holds. */
  lemma ReadPtrText(idx: string, ptrs: map<nat, nat>, x: nat)
    requires SlotsAt(idx, ptrs) && x in ptrs
    ensures x + PTR_SZ <= |idx| && Atol(idx[x..x + PTR_SZ]) == ptrs[x]
  {
    assert SlotHolds(idx, x, ptrs[x]);
    PtrWidth(ptrs[x]);
    AtolPad(ptrs[x], PTR_SZ);
  }

  /** A read of a record gives its length and its fields back; none of the err_dump branches is taken. */
  lemma ReadRecText(idx: string, recs: map<nat, Rec>, o: nat)
    requires RecsAt(idx, recs) && o in recs
    ensures o + RecSize(recs[o]) <= |idx|
    ensures Atol(idx[o + PTR_SZ..o + PTR_SZ + IDXLEN_SZ]) == RecBodyLen(recs[o])
    ensures ParseBody(idx[o + PTR_SZ + IDXLEN_SZ..o + RecSize(recs[o])])
         == Fields(recs[o].key, recs[o].datoff, recs[o].datlen)
  {
    assert RecAt(idx, o, recs[o]) && RecOk(recs[o]);
    ReadRecAt(idx, o, recs[o]);
  }

  lemma ReadRecAt(idx: string, o: nat, r: Rec)
    requires RecAt(idx, o, r) && RecOk(r)
    ensures o + RecSize(r) <= |idx|
    ensures Atol(idx[o + PTR_SZ..o + PTR_SZ + IDXLEN_SZ]) == RecBodyLen(r)
    ensures ParseBody(idx[o + PTR_SZ + IDXLEN_SZ..o + RecSize(r)]) == Fields(r.key, r.datoff, r.datlen)
  {
    RecTextLen(0, r);
    var len, body := Pad(RecBodyLen(r), IDXLEN_SZ), Body(r.key, r.datoff, r.datlen);
    assert idx[o + PTR_SZ..o + PTR_SZ + IDXLEN_SZ] == len;
    assert Atol(len) == RecBodyLen(r) by { AtolPad(RecBodyLen(r), IDXLEN_SZ); }
    assert idx[o + PTR_SZ + IDXLEN_SZ..o + RecSize(r)] == body;
    assert ParseBody(body) == Fields(r.key, r.datoff, r.datlen) by { BodyRoundTrip(r.key, r.datoff, r.datlen); }
  }

  // ---------- the data file ----------

  predicate Blank(s: string) {
    s == Spaces(|s|)
  }

  predicate Holds(dat: string, r: Rec, data: string) {
    r.datlen == |data| + 1 && At(dat, r.datoff, data + [NEWLINE])
  }

  predicate Apart(r: Rec, s: Rec) {
    r.datoff + r.datlen <= s.datoff || s.datoff + s.datlen <= r.datoff
  }

  /** Every record has its own stretch of the data file. */
  ghost predicate Extents(dat: string, recs: map<nat, Rec>) {
    && (forall o :: o in recs ==> recs[o].datlen >= DATLEN_MIN && recs[o].datoff + recs[o].datlen <= |dat|)
    && (forall o, o' :: o in recs && o' in recs && o != o' ==> Apart(recs[o], recs[o']))
  }

  /**
   What the files mean. `loc` takes each stored key to its record, `m` to its data. A record on the
   free list is blank in both files.
   */
  ghost predicate Content(dat: string, recs: map<nat, Rec>, home: map<nat, nat>, loc: map<string, nat>,
          m: map<string, string>) {
    && Extents(dat, recs)
    && Located(recs, home, loc)
    && FreeBlank(dat, recs, home)
    && Stored(dat, recs, loc, m)
  }

  /** The live records and `loc` are inverse to each other, and each lies on its key's chain. */
  ghost predicate Located(recs: map<nat, Rec>, home: map<nat, nat>, loc: map<string, nat>) {
    && (forall o :: o in home ==> o in recs)
    && (forall o :: o in home && home[o] >= 1 ==>
          && recs[o].key in loc && loc[recs[o].key] == o
          && home[o] == 1 + Hash(recs[o].key))
    && (forall key :: key in loc ==> loc[key] in home && home[loc[key]] >= 1 && recs[loc[key]].key == key)
  }

  ghost predicate FreeBlank(dat: string, recs: map<nat, Rec>, home: map<nat, nat>) {
    forall o :: o in home && home[o] == 0 ==>
      o in recs && recs[o].datlen >= 1 && Blank(recs[o].key) && Holds(dat, recs[o], Spaces(recs[o].datlen - 1))
  }

  ghost predicate Stored(dat: string, recs: map<nat, Rec>, loc: map<string, nat>, m: map<string, string>) {
    && m.Keys == loc.Keys
    && (forall key :: key in loc ==> loc[key] in recs && Holds(dat, recs[loc[key]], m[key]))
  }

  lemma HoldsHere(dat: string, r: Rec, data: string)
    requires r.datlen == |data| + 1 && r.datoff <= |dat|
    ensures Holds(WriteAt(dat, r.datoff, data + [NEWLINE]), r, data)
  {
    WriteHere(dat, r.datoff, data + [NEWLINE]);
  }

  lemma HoldsElsewhere(dat: string, r: Rec, data: string, s: Rec, t: string)
    requires r.datoff <= |dat| && r.datlen == |data| + 1 && Holds(dat, s, t) && Apart(r, s)
    ensures Holds(WriteAt(dat, r.datoff, data + [NEWLINE]), s, t)
  {
    WriteElsewhere(dat, r.datoff, data + [NEWLINE], s.datoff, t + [NEWLINE]);
  }

  /** A write into one extent leaves the blank records blank, those that lie elsewhere. */
  lemma FreeBlankKept(dat: string, recs: map<nat, Rec>, home: map<nat, nat>, r: Rec, data: string)
    requires FreeBlank(dat, recs, home) && r.datlen == |data| + 1 && r.datoff <= |dat|
    requires forall x :: x in home && home[x] == 0 ==> x in recs && Apart(r, recs[x])
    ensures FreeBlank(WriteAt(dat, r.datoff, data + [NEWLINE]), recs, home)
  {
  }

  lemma StoredKept(dat: string, recs: map<nat, Rec>, loc: map<string, nat>, m: map<string, string>, r: Rec,
          data: string)
    requires Stored(dat, recs, loc, m) && r.datlen == |data| + 1 && r.datoff <= |dat|
    requires forall key :: key in loc ==> loc[key] in recs && Apart(r, recs[loc[key]])
    ensures Stored(WriteAt(dat, r.datoff, data + [NEWLINE]), recs, loc, m)
  {
  }

  lemma DeleteLocated(recs: map<nat, Rec>, home: map<nat, nat>, loc: map<string, nat>, o: nat)
    requires Located(recs, home, loc) && o in home && home[o] >= 1
    ensures Located(recs, home - {o}, loc - {recs[o].key})
  {
  }

  lemma LocatedFree(recs: map<nat, Rec>, home: map<nat, nat>, loc: map<string, nat>, o: nat, r: Rec)
    requires Located(recs, home, loc) && o !in home
    ensures Located(recs[o := r], home[o := 0], loc)
  {
  }

  lemma DeleteFree(dat: string, recs: map<nat, Rec>, home: map<nat, nat>, o: nat, r': Rec)
    requires FreeBlank(dat, recs, home) && Extents(dat, recs) && o in recs
    requires forall x :: x in home ==> x in recs
    requires r'.datoff == recs[o].datoff && r'.datlen == recs[o].datlen >= DATLEN_MIN && Blank(r'.key)
    ensures r'.datoff <= |dat|
    ensures FreeBlank(WriteAt(dat, r'.datoff, Spaces(r'.datlen - 1) + [NEWLINE]), recs[o := r'], home[o := 0])
  {
    FreeBlankKept(dat, recs[o := r'], home - {o}, r', Spaces(r'.datlen - 1));
    HoldsHere(dat, r', Spaces(r'.datlen - 1));
    FreeBlankAdd(WriteAt(dat, r'.datoff, Spaces(r'.datlen - 1) + [NEWLINE]), recs[o := r'], home - {o}, o);
    assert (home - {o})[o := 0] == home[o := 0];
  }

  lemma DeleteStored(dat: string, recs: map<nat, Rec>, loc: map<string, nat>, m: map<string, string>, key: string,
          r': Rec)
    requires Stored(dat, recs, loc, m) && Extents(dat, recs) && key in loc
    requires forall k :: k in loc && k != key ==> loc[k] != loc[key]
    requires r'.datoff == recs[loc[key]].datoff && r'.datlen == recs[loc[key]].datlen
    ensures r'.datoff <= |dat| && r'.datlen >= 1
    ensures Stored(WriteAt(dat, r'.datoff, Spaces(r'.datlen - 1) + [NEWLINE]), recs[loc[key] := r'], loc - {key},
        m - {key})
  {
    assert recs[loc[key]].datlen >= DATLEN_MIN && recs[loc[key]].datoff + recs[loc[key]].datlen <= |dat|;
    StoredKept(dat, recs[loc[key] := r'], loc - {key}, m - {key}, r', Spaces(r'.datlen - 1));
  }

  lemma DeleteLoc(recs: map<nat, Rec>, home: map<nat, nat>, loc: map<string, nat>, o: nat, r': Rec)
    requires Located(recs, home, loc) && o in home && home[o] >= 1
    ensures Located(recs[o := r'], home[o := 0], loc - {recs[o].key})
    ensures recs[o].key in loc && loc[recs[o].key] == o
    ensures forall k :: k in loc && k != recs[o].key ==> loc[k] != o
  {
  }

  /** Blanking a live record in both files and moving it to the free list takes its key out of the map. */
  lemma DeleteContent(dat: string, recs: map<nat, Rec>, home: map<nat, nat>, loc: map<string, nat>,
          m: map<string, string>, o: nat, r': Rec)
    requires Content(dat, recs, home, loc, m) && o in home && home[o] >= 1
    requires r' == Rec(Spaces(|recs[o].key|), recs[o].datoff, recs[o].datlen)
    ensures r'.datlen >= 1 && r'.datoff <= |dat|
    ensures Content(WriteAt(dat, r'.datoff, Spaces(r'.datlen - 1) + [NEWLINE]),
                    recs[o := r'], home[o := 0], loc - {recs[o].key}, m - {recs[o].key})
  {
    assert r'.datlen >= DATLEN_MIN && r'.datoff + r'.datlen <= |dat|;
    DeleteLoc(recs, home, loc, o, r');
    DeleteStored(dat, recs, loc, m, recs[o].key, r');
    DeleteFree(dat, recs, home, o, r');
    ExtentsWith(dat, recs, o, r', Spaces(r'.datlen - 1));
  }

  lemma FreeBlankAdd(dat: string, recs: map<nat, Rec>, home: map<nat, nat>, o: nat)
    requires FreeBlank(dat, recs, home) && o in recs && recs[o].datlen >= 1
    requires Blank(recs[o].key) && Holds(dat, recs[o], Spaces(recs[o].datlen - 1))
    ensures FreeBlank(dat, recs, home[o := 0])
  {
  }

  lemma LocatedLive(recs: map<nat, Rec>, home: map<nat, nat>, loc: map<string, nat>, o: nat, r: Rec)
    requires Located(recs, home, loc) && o !in home && r.key !in loc
    ensures Located(recs[o := r], home[o := 1 + Hash(r.key)], loc[r.key := o])
  {
  }

  lemma ExtentsWith(dat: string, recs: map<nat, Rec>, o: nat, r: Rec, data: string)
    requires Extents(dat, recs) && r.datlen == |data| + 1 && r.datlen >= DATLEN_MIN
    requires if o in recs then r.datoff == recs[o].datoff && r.datlen == recs[o].datlen else r.datoff == |dat|
    ensures r.datoff <= |dat| && Extents(WriteAt(dat, r.datoff, data + [NEWLINE]), recs[o := r])
    ensures forall x :: x in recs && x != o ==> Apart(r, recs[x])
  {
  }

  lemma StoredAdd(dat: string, recs: map<nat, Rec>, loc: map<string, nat>, m: map<string, string>, o: nat, data: string)
    requires Stored(dat, recs, loc, m) && o in recs && Holds(dat, recs[o], data)
    ensures Stored(dat, recs, loc[recs[o].key := o], m[recs[o].key := data])
  {
  }

  /**
   Writing key and data into a record that is on no list, whether a detached old one or a new one at
   the ends of the files, and hanging it on its chain puts the pair into the map.
   */
  lemma FillContent(dat: string, recs: map<nat, Rec>, home: map<nat, nat>, loc: map<string, nat>,
          m: map<string, string>, o: nat, r: Rec, data: string)
    requires Content(dat, recs, home, loc, m) && o !in home && r.key !in loc
    requires r.datlen == |data| + 1 && r.datlen >= DATLEN_MIN
    requires if o in recs then r.datoff == recs[o].datoff && r.datlen == recs[o].datlen else r.datoff == |dat|
    ensures r.datoff <= |dat|
    ensures Content(WriteAt(dat, r.datoff, data + [NEWLINE]), recs[o := r], home[o := 1 + Hash(r.key)],
                    loc[r.key := o], m[r.key := data])
  {
    ExtentsWith(dat, recs, o, r, data);
    LocatedLive(recs, home, loc, o, r);
    FillFree(dat, recs, home, o, r, data, 1 + Hash(r.key));
    FillStored(dat, recs, loc, m, o, r, data);
  }

  lemma FillFree(dat: string, recs: map<nat, Rec>, home: map<nat, nat>, o: nat, r: Rec, data: string, k: nat)
    requires FreeBlank(dat, recs, home) && o !in home && k >= 1
    requires r.datlen == |data| + 1 && r.datoff <= |dat|
    requires forall x :: x in recs && x != o ==> Apart(r, recs[x])
    ensures FreeBlank(WriteAt(dat, r.datoff, data + [NEWLINE]), recs[o := r], home[o := k])
  {
    FreeBlankKept(dat, recs[o := r], home, r, data);
  }

  lemma FillStored(dat: string, recs: map<nat, Rec>, loc: map<string, nat>, m: map<string, string>, o: nat, r: Rec,
          data: string)
    requires Stored(dat, recs, loc, m) && r.datlen == |data| + 1 && r.datoff <= |dat|
    requires forall key :: key in loc ==> loc[key] in recs && loc[key] != o && Apart(r, recs[loc[key]])
    ensures Stored(WriteAt(dat, r.datoff, data + [NEWLINE]), recs[o := r], loc[r.key := o], m[r.key := data])
  {
    StoredKept(dat, recs[o := r], loc, m, r, data);
    HoldsHere(dat, r, data);
    StoredAdd(WriteAt(dat, r.datoff, data + [NEWLINE]), recs[o := r], loc, m, o, data);
  }

  lemma OverwriteStored(dat: string, recs: map<nat, Rec>, loc: map<string, nat>, m: map<string, string>, key: string,
          data: string)
    requires Stored(dat, recs, loc, m) && Extents(dat, recs) && key in loc && recs[loc[key]].datlen == |data| + 1
    requires forall k :: k in loc && k != key ==> loc[k] != loc[key]
    ensures recs[loc[key]].datoff <= |dat|
    ensures Stored(WriteAt(dat, recs[loc[key]].datoff, data + [NEWLINE]), recs, loc, m[key := data])
  {
    var r := recs[loc[key]];
    assert r.datoff + r.datlen <= |dat|;
    HoldsHere(dat, r, data);
    forall k | k in loc && k != key
      ensures Holds(WriteAt(dat, r.datoff, data + [NEWLINE]), recs[loc[k]], m[k])
    {
      HoldsElsewhere(dat, r, data, recs[loc[k]], m[k]);
    }
  }

  lemma LocInjective(recs: map<nat, Rec>, home: map<nat, nat>, loc: map<string, nat>, key: string)
    requires Located(recs, home, loc) && key in loc
    ensures forall k :: k in loc && k != key ==> loc[k] != loc[key]
    ensures forall x :: x in home && home[x] == 0 ==> x != loc[key]
  {
  }

  /** Overwriting the data of a live record with data of the same length changes that pair only. */
  lemma OverwriteContent(dat: string, recs: map<nat, Rec>, home: map<nat, nat>, loc: map<string, nat>,
          m: map<string, string>, key: string, data: string)
    requires Content(dat, recs, home, loc, m) && key in loc && recs[loc[key]].datlen == |data| + 1
    ensures recs[loc[key]].datoff <= |dat|
    ensures Content(WriteAt(dat, recs[loc[key]].datoff, data + [NEWLINE]), recs, home, loc, m[key := data])
  {
    LocInjective(recs, home, loc, key);
    OverwriteStored(dat, recs, loc, m, key, data);
    FreeBlankKept(dat, recs, home, recs[loc[key]], data);
    ExtentsWith(dat, recs, loc[key], recs[loc[key]], data);
    assert recs[loc[key] := recs[loc[key]]] == recs;
  }
}
