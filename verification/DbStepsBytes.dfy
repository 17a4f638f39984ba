/**
 The bytes under module DbSteps: every writing system call is one write into one of the two files, and in
 every run the files keep reading as the pointers, records and data that the steps are about.
 */
module DbStepsBytes {
  import opened Basics
  import opened DbText
  import opened DbIndex
  import opened DbBytes
  import opened DbFile
  import opened DbSteps
  import opened DbStepsInv
  import opened DbStepsMem
  import opened DbStepsSafe

  datatype Files = Files(idx: string, dat: string)

  /** The index file reads as these slots and records, and every record's offset can be a pointer. */
  ghost predicate IdxOk(idx: string, mem: Mem) {
    && TextOk(idx, mem.ptrs, mem.recs) && |idx| == mem.eof
    && forall o :: o in mem.recs ==> o <= PTR_MAX
  }

  /** Each data text is in the data file, in bytes of its own. */
  ghost predicate DatOk(dat: string, cells: map<nat, string>) {
    && (forall c :: c in cells ==> At(dat, c, cells[c] + [NEWLINE]))
    && (forall c, d :: c in cells && d in cells && c < d ==> c + |cells[c]| + 1 <= d)
  }

  ghost predicate Carries(f: Files, mem: Mem) {
    IdxOk(f.idx, mem) && |f.dat| == mem.deof && DatOk(f.dat, mem.cells)
  }

  // ---------- one write ----------

  function Put(f: string, off: nat, t: string): string {
    if off <= |f| then WriteAt(f, off, t) else f
  }

  /** What each system call does to the files: at most one write. */
  function FileStep(f: Files, mem: Mem, pc: Pc): Files
    requires Sane(mem, pc)
  {
    match pc
    case DelBlank(_, _, o, _, _) =>
      var r := RecOf(mem, o);
      f.(dat := Put(f.dat, r.datoff, Spaces(if r.datlen == 0 then 0 else r.datlen - 1) + [NEWLINE]))
    case DelRec(_, _, o, _, _, ptr) =>
      var r := RecOf(mem, o);
      f.(idx := Put(f.idx, o, RecText(ptr, Rec(Spaces(|r.key|), r.datoff, r.datlen))))
    case DelFree(_, _, o, _, _) => f.(idx := Put(f.idx, FREE_OFF, Pad(o, PTR_SZ)))
    case DelChain(_, slot, next, _) => f.(idx := Put(f.idx, slot, Pad(next, PTR_SZ)))
    case FreeTake(_, _, slot, _, next, _) => f.(idx := Put(f.idx, slot, Pad(next, PTR_SZ)))
    case FillDat(op, _, o) => f.(dat := Put(f.dat, RecOf(mem, o).datoff, op.data + [NEWLINE]))
    case FillIdx(op, ptr, o) =>
      f.(idx := Put(f.idx, o, RecText(ptr, Rec(op.key, RecOf(mem, o).datoff, |op.data| + 1))))
    case DatWrite(op, _, _, at) => f.(dat := Put(f.dat, at, op.data + [NEWLINE]))
    case IdxWrite(op, _, ptr, at, o) => f.(idx := Put(f.idx, o, RecText(ptr, Rec(op.key, at, |op.data| + 1))))
    case SetHead(op, _, o) => f.(idx := Put(f.idx, HeadSlot(Chain(op)), Pad(o, PTR_SZ)))
    case Overwrite(op, datoff) => f.(dat := Put(f.dat, datoff, op.data + [NEWLINE]))
    case _ => f
  }

  /** An appended record fits; otherwise the process would end instead. */
  predicate Room(pc: Pc) {
    pc.IdxWrite? ==>
      && pc.op.Store? && pc.o <= PTR_MAX
      && IDXLEN_MIN <= BodyLen(|pc.op.key|, pc.at, |pc.op.data| + 1) <= IDXLEN_MAX
  }

  // ---------- the data file ----------

  lemma DatRewrite(dat: string, cells: map<nat, string>, c: nat, data: string)
    requires DatOk(dat, cells) && c in cells && |data| == |cells[c]|
    ensures c <= |dat| && |WriteAt(dat, c, data + [NEWLINE])| == |dat|
    ensures DatOk(WriteAt(dat, c, data + [NEWLINE]), cells[c := data])
  {
    var dat', cells' := WriteAt(dat, c, data + [NEWLINE]), cells[c := data];
    WriteHere(dat, c, data + [NEWLINE]);
    forall d | d in cells' && d != c
      ensures At(dat', d, cells'[d] + [NEWLINE])
    {
      WriteElsewhere(dat, c, data + [NEWLINE], d, cells[d] + [NEWLINE]);
    }
  }

  lemma DatAppend(dat: string, cells: map<nat, string>, data: string)
    requires DatOk(dat, cells)
    ensures DatOk(WriteAt(dat, |dat|, data + [NEWLINE]), cells[|dat| := data])
  {
    var c := |dat|;
    var dat', cells' := WriteAt(dat, c, data + [NEWLINE]), cells[c := data];
    WriteHere(dat, c, data + [NEWLINE]);
    forall d | d in cells && d != c
      ensures At(dat', d, cells[d] + [NEWLINE]) && d + |cells[d]| + 1 <= c
    {
      assert At(dat, d, cells[d] + [NEWLINE]);
      WriteElsewhere(dat, c, data + [NEWLINE], d, cells[d] + [NEWLINE]);
    }
    forall d | d in cells
      ensures d < c
    {
      assert At(dat, d, cells[d] + [NEWLINE]);
    }
  }

  /** A record's data is in the file, with the length that the record says. */
  lemma RecCell(mem: Mem, o: nat)
    requires CellsOk(mem) && o in mem.recs
    ensures mem.recs[o].datoff in mem.cells && mem.recs[o].datlen == |mem.cells[mem.recs[o].datoff]| + 1
  {
  }

  lemma DatStep(f: Files, mem: Mem, p: Pid, pc: Pc)
    requires |mem.lists| == NLISTS && CellsOk(mem) && PointOk(mem, p, pc) && Sane(mem, pc) && Carries(f, mem)
    requires pc.DelBlank? || pc.FillDat? || pc.DatWrite? || pc.Overwrite?
    ensures Carries(FileStep(f, mem, pc), CallEffect(mem, p, pc).mem)
  {
    hide TextOk, CellsOk, DatOk, WriteAt, Hash, Wellformed, Blank, RemoveAt;
    if pc.DelBlank? {
      RecCell(mem, pc.o);
      DatRewrite(f.dat, mem.cells, mem.recs[pc.o].datoff, Spaces(mem.recs[pc.o].datlen - 1));
    } else if pc.FillDat? {
      RecCell(mem, pc.o);
      DatRewrite(f.dat, mem.cells, mem.recs[pc.o].datoff, pc.op.data);
    } else if pc.DatWrite? {
      DatAppend(f.dat, mem.cells, pc.op.data);
    } else {
      RecCell(mem, mem.loc[pc.op.key]);
      DatRewrite(f.dat, mem.cells, pc.datoff, pc.op.data);
    }
  }

  // ---------- the index file ----------

  predicate PtrWriter(pc: Pc) {
    pc.DelFree? || pc.DelChain? || pc.FreeTake? || pc.SetHead?
  }

  /** The slot and the value of a pointer write. */
  function PtrWrite(pc: Pc): (nat, nat)
    requires PtrWriter(pc)
  {
    match pc
    case DelFree(_, _, o, _, _) => (FREE_OFF, o)
    case DelChain(_, slot, next, _) => (slot, next)
    case FreeTake(_, _, slot, _, next, _) => (slot, next)
    case SetHead(op, _, o) => (HeadSlot(Chain(op)), o)
  }

  lemma ListSlot(mem: Mem, k: nat, i: nat)
    requires |mem.lists| == NLISTS && ListsOk(mem.recs, mem.lists, mem.home) && SlotsOk(mem)
    requires k < NLISTS && i <= |mem.lists[k]|
    requires forall o :: o in mem.recs ==> o <= PTR_MAX
    ensures SlotAt(HeadSlot(k), mem.lists[k], i) in mem.ptrs && ValAt(mem.lists[k], i) <= PTR_MAX
  {
    hide ListsOk, HeadSlot;
    if i > 0 {
      MemberIn(mem, k, i - 1);
    }
    if i < |mem.lists[k]| {
      MemberIn(mem, k, i);
    }
  }

  lemma PtrFits(mem: Mem, p: Pid, pc: Pc)
    requires |mem.lists| == NLISTS && ListsOk(mem.recs, mem.lists, mem.home) && SlotsOk(mem)
    requires PtrWriter(pc) && PointOk(mem, p, pc)
    requires forall o :: o in mem.recs ==> o <= PTR_MAX
    ensures PtrWrite(pc).0 in mem.ptrs && PtrWrite(pc).1 <= PTR_MAX
  {
    hide ListsOk, HeadSlot, Hash, Wellformed, Blank, SlotAt, ValAt;
    assert FREE_OFF == HeadSlot(0) by { PtrSlotZero(); }
    if pc.DelChain? {
      ListSlot(mem, Chain(pc.op), pc.i);
    } else if pc.FreeTake? {
      ListSlot(mem, 0, pc.i);
      ListSlot(mem, 0, pc.i + 1);
    }
  }

  lemma PtrSlotZero()
    ensures FREE_OFF == HeadSlot(0)
  {
  }

  lemma PtrStep(f: Files, mem: Mem, p: Pid, pc: Pc)
    requires |mem.lists| == NLISTS && ListsOk(mem.recs, mem.lists, mem.home) && SlotsOk(mem)
    requires PtrWriter(pc) && PointOk(mem, p, pc) && Sane(mem, pc) && Carries(f, mem)
    ensures Carries(FileStep(f, mem, pc), CallEffect(mem, p, pc).mem)
  {
    hide ListsOk, SlotsOk, PointOk, TextOk, DatOk, WriteAt, Hash, HeadSlot, RemoveAt, Pad;
    PtrFits(mem, p, pc);
    WritePtrText(f.idx, mem.ptrs, mem.recs, PtrWrite(pc).0, PtrWrite(pc).1);
  }

  predicate RecWriter(pc: Pc) {
    pc.DelRec? || pc.FillIdx? || pc.IdxWrite?
  }

  /** The place, the pointer and the fields of a record write. */
  function RecWrite(mem: Mem, pc: Pc): (nat, nat, Rec)
    requires RecWriter(pc) && (pc.DelRec? || pc.op.Store?)
  {
    match pc
    case DelRec(_, _, o, _, _, ptr) =>
      (o, ptr, Rec(Spaces(|RecOf(mem, o).key|), RecOf(mem, o).datoff, RecOf(mem, o).datlen))
    case FillIdx(op, ptr, o) => (o, ptr, Rec(op.key, RecOf(mem, o).datoff, |op.data| + 1))
    case IdxWrite(op, _, ptr, at, o) => (o, ptr, Rec(op.key, at, |op.data| + 1))
  }

  /** A record keeps its length when its key changes to one as long. */
  lemma KeyChange(r: Rec, key: string)
    requires RecOk(r) && |key| == |r.key| && CString(key) && SEP !in key
    ensures RecOk(Rec(key, r.datoff, r.datlen)) && RecSize(Rec(key, r.datoff, r.datlen)) == RecSize(r)
  {
  }

  lemma SpacesOk(n: nat)
    ensures |Spaces(n)| == n && CString(Spaces(n)) && SEP !in Spaces(n)
  {
  }

  lemma RecOkAt(idx: string, recs: map<nat, Rec>, o: nat)
    requires RecsAt(idx, recs) && o in recs
    ensures RecOk(recs[o])
  {
    assert RecAt(idx, o, recs[o]);
  }

  lemma RecFitsAt(f: Files, mem: Mem, p: Pid, pc: Pc)
    requires |mem.lists| == NLISTS && ListsOk(mem.recs, mem.lists, mem.home) && SlotsOk(mem) && CellsOk(mem)
    requires RecWriter(pc) && PointOk(mem, p, pc) && Sane(mem, pc) && Room(pc) && IdxOk(f.idx, mem)
    ensures var (o, v, r) := RecWrite(mem, pc);
            && o <= PTR_MAX && v <= PTR_MAX && RecOk(r)
            && if pc.IdxWrite? then o == mem.eof && o !in mem.recs
               else o in mem.recs && RecSize(r) == RecSize(mem.recs[o])
  {
    hide ListsOk, TextOk, CellsOk, HeadSlot, Hash, RecOk, SlotAt, RecSize, BodyLen;
    TextParts(f.idx, mem.ptrs, mem.recs);
    TextSlots(f.idx, mem.ptrs, mem.recs);
    if pc.DelRec? {
      ListSlot(mem, 0, 0);
      RecOkAt(f.idx, mem.recs, pc.o);
      SpacesOk(|mem.recs[pc.o].key|);
      KeyChange(mem.recs[pc.o], Spaces(|mem.recs[pc.o].key|));
    } else if pc.FillIdx? {
      ListSlot(mem, Chain(pc.op), 0);
      RecOkAt(f.idx, mem.recs, pc.o);
      KeyChange(mem.recs[pc.o], pc.op.key);
    } else {
      ListSlot(mem, Chain(pc.op), 0);
      NewRecOk(pc.op, pc.at);
    }
  }

  lemma NewRecOk(op: Op, at: nat)
    requires op.Store? && Wellformed(op) && IDXLEN_MIN <= BodyLen(|op.key|, at, |op.data| + 1) <= IDXLEN_MAX
    ensures RecOk(Rec(op.key, at, |op.data| + 1))
  {
  }

  lemma RecStep(f: Files, mem: Mem, p: Pid, pc: Pc)
    requires |mem.lists| == NLISTS && ListsOk(mem.recs, mem.lists, mem.home) && SlotsOk(mem) && CellsOk(mem)
    requires RecWriter(pc) && PointOk(mem, p, pc) && Sane(mem, pc) && Room(pc) && Carries(f, mem)
    ensures Carries(FileStep(f, mem, pc), CallEffect(mem, p, pc).mem)
  {
    hide ListsOk, SlotsOk, PointOk, TextOk, DatOk, CellsOk, WriteAt, Hash, HeadSlot, RecText, RecSize, RecOk, Spaces;
    RecFitsAt(f, mem, p, pc);
    var (o, v, r) := RecWrite(mem, pc);
    WriteRecText(f.idx, mem.ptrs, mem.recs, o, v, r);
  }

  // ---------- every step, and every run ----------

  /** One system call on the files does to the bytes what the step does to their meaning. */
  lemma StepCarries(f: Files, mem: Mem, p: Pid, pc: Pc)
    requires MemOk(mem) && PointOk(mem, p, pc) && Sane(mem, pc) && Room(pc) && Carries(f, mem)
    ensures Carries(FileStep(f, mem, pc), CallEffect(mem, p, pc).mem)
  {
    assert ListsOk(mem.recs, mem.lists, mem.home) && SlotsOk(mem) && CellsOk(mem);
    hide MemOk, PointOk, ListsOk, SlotsOk, CellsOk, Carries, Room, CallEffect, FileStep;
    if PtrWriter(pc) {
      PtrStep(f, mem, p, pc);
    } else if RecWriter(pc) {
      RecStep(f, mem, p, pc);
    } else if Quiet(pc) {
      QuietMem(mem, p, pc);
      QuietFiles(f, mem, pc);
    } else {
      DatStep(f, mem, p, pc);
    }
  }

  lemma QuietFiles(f: Files, mem: Mem, pc: Pc)
    requires Sane(mem, pc) && Quiet(pc)
    ensures FileStep(f, mem, pc) == f
  {
  }

  /** What db_open leaves behind when it has created the two files. */
  ghost predicate Created(f: Files) {
    && |f.idx| == REC_START && f.idx[REC_START - 1] == NEWLINE && f.dat == ""
    && forall x :: 0 <= x < REC_START - 1 && x % PTR_SZ == 0 ==> At(f.idx, x, Pad(0, PTR_SZ))
  }

  lemma InitCarries(s: Sys, f: Files)
    requires Init(s) && Created(f)
    ensures Carries(f, s.mem)
  {
    hide Pad;
    var ptrs := s.mem.ptrs;
    forall x | x in ptrs
      ensures SlotHolds(f.idx, x, ptrs[x])
    {
      assert At(f.idx, x, Pad(0, PTR_SZ));
    }
  }

  /** A step of the system together with what it does to the files. */
  ghost predicate NextBytes(s: Sys, f: Files, s': Sys, f': Files, p: Pid) {
    || (Begins(s, s', p) && f' == f)
    || (&& |s.locks.bytes| == NLISTS && Enabled(s, p) && Sane(s.mem, s.procs[p].pc) && Room(s.procs[p].pc)
        && s' == Step(s, p) && f' == FileStep(f, s.mem, s.procs[p].pc))
  }

  ghost predicate FollowsBytes(s: Sys, f: Files, s': Sys, f': Files) {
    exists p :: NextBytes(s, f, s', f', p)
  }

  ghost predicate RunBytes(b: seq<Sys>, fs: seq<Files>) {
    && |b| == |fs| > 0 && Init(b[0]) && Created(fs[0])
    && forall i :: 0 <= i < |b| - 1 ==> FollowsBytes(b[i], fs[i], b[i + 1], fs[i + 1])
  }

  lemma BeginCarries(s: Sys, f: Files, s': Sys, p: Pid)
    requires Carries(f, s.mem) && Begins(s, s', p)
    ensures Carries(f, s'.mem)
  {
    hide TextOk, DatOk, Wellformed;
  }

  lemma CallCarries(s: Sys, f: Files, p: Pid)
    requires Inv(s) && Carries(f, s.mem) && p in s.procs && |s.locks.bytes| == NLISTS
    requires Sane(s.mem, s.procs[p].pc) && Room(s.procs[p].pc)
    ensures Carries(FileStep(f, s.mem, s.procs[p].pc), Step(s, p).mem)
  {
    assert MemOk(s.mem);
    hide Inv, MemOk, PointOk, Carries, Room, Sane, CallEffect, FileStep, Relock;
    InvPoint(s, p);
    StepCarries(f, s.mem, p, s.procs[p].pc);
  }

  lemma NextCarries(s: Sys, f: Files, s': Sys, f': Files, p: Pid)
    requires Inv(s) && Carries(f, s.mem) && NextBytes(s, f, s', f', p)
    ensures Next(s, s', p) && Carries(f', s'.mem)
  {
    hide Inv, Carries, Room, Sane, FileStep, Step, Begins, Enabled;
    if Begins(s, s', p) && f' == f {
      BeginCarries(s, f, s', p);
    } else {
      assert p in s.procs by { EnabledIn(s, p); }
      CallCarries(s, f, p);
    }
  }

  /**
   In every run of the processes on the two files, where each system call is at most one write, the
   files read at every moment as the pointers, records and data of the run of module DbSteps.
   */
  lemma {:induction false} RunCarries(b: seq<Sys>, fs: seq<Files>, i: nat)
    requires RunBytes(b, fs) && i < |b|
    ensures Run(b[..i + 1]) && Carries(fs[i], b[i].mem)
  {
    hide Inv, Init, Created, Carries, NextBytes, Next;
    var a := b[..i + 1];
    if i == 0 {
      InitCarries(b[0], fs[0]);
    } else {
      RunCarries(b, fs, i - 1);
      RunInv(b[..i], i - 1);
      assert FollowsBytes(b[i - 1], fs[i - 1], b[i - 1 + 1], fs[i - 1 + 1]);
      var p :| NextBytes(b[i - 1], fs[i - 1], b[i], fs[i], p);
      NextCarries(b[i - 1], fs[i - 1], b[i], fs[i], p);
      forall j | 0 <= j < |a| - 1
        ensures Follows(a[j], a[j + 1])
      {
        if j < i - 1 {
          assert Follows(b[..i][j], b[..i][j + 1]);
        }
      }
    }
  }

  /** What a step reads is what the system call finds in the bytes. */
  lemma ReadsCarry(f: Files, mem: Mem)
    requires Carries(f, mem)
    ensures forall x :: x in mem.ptrs ==> x + PTR_SZ <= |f.idx| && Atol(f.idx[x..x + PTR_SZ]) == PtrAt(mem, x)
    ensures forall o :: o in mem.recs ==>
              var r := RecOf(mem, o);
              && o + RecSize(r) <= |f.idx|
              && Atol(f.idx[o + PTR_SZ..o + PTR_SZ + IDXLEN_SZ]) == RecBodyLen(r)
              && ParseBody(f.idx[o + PTR_SZ + IDXLEN_SZ..o + RecSize(r)]) == Fields(r.key, r.datoff, r.datlen)
    ensures forall c :: c in mem.cells ==>
              c + |mem.cells[c]| + 1 <= |f.dat| && f.dat[c..c + |mem.cells[c]| + 1] == CellAt(mem, c) + [NEWLINE]
    ensures mem.eof == |f.idx| && mem.deof == |f.dat|
  {
    hide RecBodyLen, Atol, ParseBody, Pad, Layout;
    TextParts(f.idx, mem.ptrs, mem.recs);
    forall x | x in mem.ptrs
      ensures x + PTR_SZ <= |f.idx| && Atol(f.idx[x..x + PTR_SZ]) == mem.ptrs[x]
    {
      ReadPtrText(f.idx, mem.ptrs, x);
    }
    forall o | o in mem.recs
      ensures o + RecSize(mem.recs[o]) <= |f.idx|
      ensures Atol(f.idx[o + PTR_SZ..o + PTR_SZ + IDXLEN_SZ]) == RecBodyLen(mem.recs[o])
      ensures ParseBody(f.idx[o + PTR_SZ + IDXLEN_SZ..o + RecSize(mem.recs[o])])
           == Fields(mem.recs[o].key, mem.recs[o].datoff, mem.recs[o].datlen)
    {
      ReadRecText(f.idx, mem.recs, o);
    }
    forall c | c in mem.cells
      ensures At(f.dat, c, mem.cells[c] + [NEWLINE])
    {
    }
  }
}
