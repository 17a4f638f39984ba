/**
 Any number of processes: the invariant of module DbSteps over every run, the serial order of the
 calls, what db_nextrec can return, and the absence of deadlock.
 */
module DbStepsSafe {
  import opened Basics
  import opened DbText
  import opened DbIndex
  import opened DbBytes
  import opened DbFile
  import opened DbSteps
  import opened DbStepsInv
  import opened DbStepsMem

  // ---------- locks ----------

  ghost predicate ByteOk(b: ByteLock, k: nat, procs: map<Pid, Proc>) {
    && (forall p :: b.writer == Some(p) <==> p in procs && HoldsW(procs[p].pc, k))
    && (forall p :: p in b.readers <==> p in procs && HoldsR(procs[p].pc, k))
    && (b.writer.Some? ==> b.readers == {})
  }

  /** The lock table says exactly what the processes hold. */
  ghost predicate LocksOk(l: Locks, procs: map<Pid, Proc>) {
    && |l.bytes| == NLISTS
    && (forall k :: 0 <= k < NLISTS ==> ByteOk(l.bytes[k], k, procs))
    && (forall p :: l.dat == Some(p) <==> p in procs && HoldsDat(procs[p].pc))
    && (forall p :: l.idx == Some(p) <==> p in procs && HoldsIdx(procs[p].pc))
  }

  /** Whatever is out of order for a moment is covered by a lock. */
  ghost predicate Guarded(mem: Mem, l: Locks, procs: map<Pid, Proc>) {
    && |l.bytes| == NLISTS
    && (forall k :: k in mem.hole ==> k < NLISTS && l.bytes[k].writer.Some?)
    && (forall key :: key in mem.pend ==> mem.pend[key] in procs && Replaces(procs[mem.pend[key]].pc, key))
    && (mem.dying.Some? ==> l.bytes[0].writer.Some?)
  }

  predicate Replaces(pc: Pc, key: string) {
    InChain(pc) && pc.op.Store? && pc.op.key == key
  }

  // ---------- history ----------

  /** A call that has taken effect and not yet returned. */
  function Pending(p: Pid, pc: Pc): seq<Event> {
    if pc.Unlock? then [Event(p, pc.op, pc.res)]
    else if AtDelete(pc) && pc.op.Delete? then [Event(p, pc.op, Code(0))]
    else []
  }

  ghost predicate HistOk(hist: seq<Event>, m: map<string, string>, procs: map<Pid, Proc>) {
    && Serial(hist) && Replay(hist) == m
    && forall p :: p in procs ==> Proj(hist, p) == procs[p].log + Pending(p, procs[p].pc)
  }

  ghost predicate PointsOk(mem: Mem, procs: map<Pid, Proc>) {
    forall p :: p in procs ==> PointOk(mem, p, procs[p].pc)
  }

  ghost predicate Inv(s: Sys) {
    && MemOk(s.mem)
    && PointsOk(s.mem, s.procs)
    && LocksOk(s.locks, s.procs)
    && Guarded(s.mem, s.locks, s.procs)
    && HistOk(s.hist, s.mem.m, s.procs)
  }

  lemma InitInv(s: Sys)
    requires Init(s)
    ensures Inv(s)
  {
    hide Hash, Spaces, RecSize;
    assert forall k {:trigger HeadSlot(k)} :: 0 <= k < NLISTS ==> HeadSlot(k) in s.mem.ptrs;
  }

  // ---------- one call, seen from the calling process ----------

  /** A point that is not about to write. */
  predicate Quiet(pc: Pc) {
    !(pc.DelBlank? || pc.DelRec? || pc.DelFree? || pc.DelChain? || pc.FreeTake? || pc.FillDat? || pc.FillIdx?
      || pc.DatWrite? || pc.IdxWrite? || pc.SetHead? || pc.Overwrite?)
  }

  lemma SaneAt(mem: Mem, p: Pid, pc: Pc)
    requires |mem.lists| == NLISTS && PointOk(mem, p, pc)
    ensures Sane(mem, pc)
  {
    hide Hash, Wellformed, PointOk;
    if ForStore(pc) {
      StoreAt(mem, p, pc);
    }
    if pc.DelBlank? || pc.FreeTake? {
      InListAt(mem, p, pc);
    }
  }

  lemma InListAt(mem: Mem, p: Pid, pc: Pc)
    requires (pc.DelBlank? || pc.FreeTake?) && PointOk(mem, p, pc)
    ensures |mem.lists| == NLISTS && pc.i < |mem.lists[if pc.FreeTake? then 0 else Chain(pc.op)]|
  {
    hide Hash, Wellformed, HeadSlot, KeyFree, InsertingAt, Fits;
  }

  lemma StoreAt(mem: Mem, p: Pid, pc: Pc)
    requires PointOk(mem, p, pc) && ForStore(pc)
    ensures pc.op.Store?
  {
    hide Hash, Wellformed, HeadSlot, Walking, AtElem, Spare, MyCell, NewRec, LiveAt, HasData;
  }

  lemma QuietMem(mem: Mem, p: Pid, pc: Pc)
    requires Sane(mem, pc) && Quiet(pc)
    ensures CallEffect(mem, p, pc).mem == mem
  {
    hide Hash, Blank, RecSize;
  }

  /** What a walker finds: the element it stands at, and the slot that follows. */
  lemma WalkAt(mem: Mem, k: nat, slot: nat, off: nat, i: nat)
    requires MemOk(mem) && k < NLISTS && k !in mem.hole && Walking(mem, k, slot, off, i)
    ensures off == 0 <==> i == |mem.lists[k]|
    ensures off != 0 ==> AtElem(mem, k, slot, off, PtrAt(mem, off), i) && off in mem.home && mem.home[off] == k
    ensures off != 0 ==> Walking(mem, k, off, PtrAt(mem, off), i + 1)
    ensures PtrAt(mem, HeadSlot(k)) == ValAt(mem.lists[k], 0)
  {
    hide ListsOk, SlotsOk, Chained, Owned, Located, Mapped, CellsOk, FreeOnes, Seen, Layout;
    ChainedAt(mem, k);
    assert SlotAt(HeadSlot(k), mem.lists[k], 0) == HeadSlot(k);
    if i < |mem.lists[k]| {
      MemberIn(mem, k, i);
      assert SlotAt(HeadSlot(k), mem.lists[k], i + 1) == off;
    }
  }

  /** A walk that reached the end without a match: the key is not in the map. */
  lemma WalkMiss(mem: Mem, p: Pid, op: Op, slot: nat, off: nat, i: nat)
    requires MemOk(mem) && PointOk(mem, p, Walk(op, slot, off, i)) && off == 0
    ensures op.key !in mem.loc && op.key !in mem.m
  {
    hide ListsOk, SlotsOk, Chained, Owned, Located, CellsOk, FreeOnes, Seen, Layout, Hash, Wellformed;
    WalkAt(mem, Chain(op), slot, off, i);
    assert forall o :: o in mem.lists[Chain(op)] ==> RecOf(mem, o).key != op.key;
    if op.key in mem.loc {
      LiveOnChain(mem, op);
      RecKeyed(mem, op.key);
    }
  }

  lemma RecKeyed(mem: Mem, key: string)
    requires Located(mem.recs, mem.home, mem.loc) && key in mem.loc
    ensures mem.loc[key] in mem.recs && mem.recs[mem.loc[key]].key == key
  {
    hide Hash;
  }

  /** A walk that found a match stands at the key's record. */
  lemma WalkHit(mem: Mem, p: Pid, op: Op, slot: nat, off: nat, i: nat)
    requires MemOk(mem) && PointOk(mem, p, Walk(op, slot, off, i)) && off != 0 && RecOf(mem, off).key == op.key
    ensures off in mem.recs && op.key in mem.loc && mem.loc[op.key] == off && op.key in mem.m
    ensures HasData(mem, mem.recs[off].datoff, mem.m[op.key]) && mem.recs[off].datlen == |mem.m[op.key]| + 1
  {
    hide ListsOk, SlotsOk, Chained, Owned, FreeOnes, Seen, Layout, Hash, Wellformed, Blank;
    WalkAt(mem, Chain(op), slot, off, i);
  }

  lemma WalkPoint(mem: Mem, p: Pid, op: Op, slot: nat, off: nat, i: nat)
    requires MemOk(mem) && PointOk(mem, p, Walk(op, slot, off, i))
    ensures PointOk(mem, p, WalkStep(mem, op, slot, off, i).pc)
  {
    hide ListsOk, SlotsOk, Chained, Owned, Located, Mapped, CellsOk, FreeOnes, Seen, Layout, Hash, Wellformed, Blank;
    WalkAt(mem, Chain(op), slot, off, i);
    if off == 0 {
      WalkMiss(mem, p, op, slot, off, i);
    } else if RecOf(mem, off).key == op.key {
      WalkHit(mem, p, op, slot, off, i);
    }
  }

  lemma FreePoint(mem: Mem, p: Pid, pc: Pc)
    requires MemOk(mem) && PointOk(mem, p, pc) && (pc.FreeHead? || pc.FreeWalk? || pc.FreeUnlock? || pc.InsHead?)
    ensures Sane(mem, pc) && PointOk(mem, p, CallEffect(mem, p, pc).pc)
  {
    hide ListsOk, SlotsOk, Owned, Located, Mapped, CellsOk, FreeOnes, Seen, Layout, Hash, Wellformed, Blank;
    ChainedAt(mem, 0);
    hide Chained, Linked, LinkedBut;
    if pc.FreeHead? {
      WalkAt(mem, 0, FREE_OFF, ValAt(mem.lists[0], 0), 0);
    } else if pc.FreeWalk? {
      hide SlotAt;
      WalkAt(mem, 0, pc.slot, pc.off, pc.i);
    } else if pc.InsHead? {
      WalkAt(mem, Chain(pc.op), HeadSlot(Chain(pc.op)), ValAt(mem.lists[Chain(pc.op)], 0), 0);
    }
  }

  lemma NextBoundary(mem: Mem, pos: nat)
    requires Layout(mem.recs, mem.eof) && pos in mem.recs
    ensures Boundary(mem, pos + RecSize(mem.recs[pos]))
  {
    hide RecSize;
    assert RecEnd(mem.recs, pos) in mem.recs || RecEnd(mem.recs, pos) == mem.eof;
  }

  /** The data of a record with a key to be seen is its key's, as no deletion is halfway. */
  lemma NextSeen(mem: Mem, o: nat)
    requires Seen(mem) && o in mem.recs && mem.dying == None && !Blank(mem.recs[o].key)
    ensures (mem.recs[o].key, CellAt(mem, mem.recs[o].datoff)) in mem.stored
  {
    hide Blank;
  }

  lemma ScanPoint(mem: Mem, p: Pid, pc: Pc)
    requires MemOk(mem) && PointOk(mem, p, pc) && (pc.NextHead? || pc.NextBody? || pc.NextDat? || pc.NextUnlock?)
    ensures Sane(mem, pc) && PointOk(mem, p, CallEffect(mem, p, pc).pc)
  {
    hide ListsOk, SlotsOk, Chained, Owned, Located, Mapped, CellsOk, FreeOnes, Seen, Layout, Hash, Wellformed, Blank,
         RecSize, CellAt;
    if pc.NextBody? {
      NextBoundary(mem, pc.pos);
    } else if pc.NextDat? {
      NextSeen(mem, pc.o);
    }
  }

  /** Points that lead on without a new lock, a write or a walk. */
  predicate Plain(pc: Pc) {
    pc.Head? || pc.Read? || pc.DelHead? || pc.DelUnlock? || pc.Unlock?
    || pc.DatSeek? || pc.DatUnlock? || pc.DatLock? || pc.IdxLock? || pc.IdxSeek? || pc.IdxUnlock?
  }

  lemma HeadsPoint(mem: Mem, p: Pid, pc: Pc)
    requires MemOk(mem) && PointOk(mem, p, pc) && (pc.Head? || pc.DelHead?)
    ensures Sane(mem, pc) && PointOk(mem, p, CallEffect(mem, p, pc).pc)
  {
    hide ListsOk, SlotsOk, Owned, Located, Mapped, CellsOk, FreeOnes, Seen, Layout, Hash, Wellformed, Blank;
    ChainedAt(mem, 0);
    hide Chained;
    if pc.Head? {
      WalkAt(mem, Chain(pc.op), HeadSlot(Chain(pc.op)), ValAt(mem.lists[Chain(pc.op)], 0), 0);
    } else {
      WalkAt(mem, 0, FREE_OFF, ValAt(mem.lists[0], 0), 0);
    }
  }

  lemma OnwardPoint(mem: Mem, p: Pid, pc: Pc)
    requires PointOk(mem, p, pc) && Plain(pc) && !pc.Head? && !pc.DelHead? && |mem.lists| == NLISTS
    ensures Sane(mem, pc) && PointOk(mem, p, CallEffect(mem, p, pc).pc)
  {
    hide PointOk, CallEffect;
    if pc.Read? || pc.DelUnlock? || pc.Unlock? {
      ReturnPoint(mem, p, pc);
    } else if pc.DatLock? || pc.DatSeek? || pc.DatUnlock? {
      DatPoint(mem, p, pc);
    } else {
      IdxPoint(mem, p, pc);
    }
  }

  lemma ReturnPoint(mem: Mem, p: Pid, pc: Pc)
    requires PointOk(mem, p, pc) && (pc.Read? || pc.DelUnlock? || pc.Unlock?) && |mem.lists| == NLISTS
    ensures Sane(mem, pc) && PointOk(mem, p, CallEffect(mem, p, pc).pc)
  {
    hide Hash, Wellformed;
  }

  lemma DatPoint(mem: Mem, p: Pid, pc: Pc)
    requires PointOk(mem, p, pc) && (pc.DatLock? || pc.DatSeek? || pc.DatUnlock?) && |mem.lists| == NLISTS
    ensures Sane(mem, pc) && PointOk(mem, p, CallEffect(mem, p, pc).pc)
  {
    hide Hash, Wellformed, MyCell;
  }

  lemma IdxPoint(mem: Mem, p: Pid, pc: Pc)
    requires PointOk(mem, p, pc) && (pc.IdxLock? || pc.IdxSeek? || pc.IdxUnlock?) && |mem.lists| == NLISTS
    ensures Sane(mem, pc) && PointOk(mem, p, CallEffect(mem, p, pc).pc)
  {
    hide Hash, Wellformed, MyCell, NewRec;
  }

  lemma PlainPoint(mem: Mem, p: Pid, pc: Pc)
    requires MemOk(mem) && PointOk(mem, p, pc) && Plain(pc)
    ensures Sane(mem, pc) && PointOk(mem, p, CallEffect(mem, p, pc).pc)
  {
    assert |mem.lists| == NLISTS;
    hide MemOk, PointOk, Sane, CallEffect;
    if pc.Head? || pc.DelHead? { HeadsPoint(mem, p, pc); } else { OnwardPoint(mem, p, pc); }
  }

  /** A process that gets its chain lock finds the whole chain linked, and no replacement of its key under way. */
  lemma ChainLockPoint(s: Sys, p: Pid)
    requires Inv(s) && Enabled(s, p) && s.procs[p].pc.Lock?
    ensures KeyFree(s.mem, s.procs[p].pc.op)
    ensures |s.mem.lists| == NLISTS
    ensures Linked(s.mem.ptrs, HeadSlot(Chain(s.procs[p].pc.op)), s.mem.lists[Chain(s.procs[p].pc.op)])
  {
    hide MemOk, HistOk, Hash, PointsOk, ByteOk;
    var op := s.procs[p].pc.op;
    if op.key in s.mem.pend {
      assert ByteOk(s.locks.bytes[Chain(op)], Chain(op), s.procs);
      WriterOf(s.locks.bytes[Chain(op)], Chain(op), s.procs, s.mem.pend[op.key]);
    }
    MemChained(s.mem, Chain(op));
  }

  lemma MemChained(mem: Mem, k: nat)
    requires MemOk(mem) && k < NLISTS
    ensures |mem.lists| == NLISTS && 0 !in mem.hole
    ensures k !in mem.hole ==> Linked(mem.ptrs, HeadSlot(k), mem.lists[k])
  {
  }

  /** A process that gets the free-list lock finds no deletion halfway. */
  lemma FreeLockPoint(mem: Mem, p: Pid, pc: Pc)
    requires PointOk(mem, p, pc) && (pc.DelLock? || pc.FreeLock? || pc.NextLock?) && mem.dying == None
    requires |mem.lists| == NLISTS
    ensures Sane(mem, pc) && PointOk(mem, p, CallEffect(mem, p, pc).pc)
  {
    hide Hash, Wellformed, KeyFree, AtElem, Boundary;
  }

  lemma NoDying(s: Sys, p: Pid)
    requires LocksOk(s.locks, s.procs) && Guarded(s.mem, s.locks, s.procs) && Enabled(s, p)
    requires var pc := s.procs[p].pc; pc.DelLock? || pc.FreeLock? || pc.NextLock?
    ensures s.mem.dying == None
  {
    hide Hash, ByteOk;
  }

  lemma HeadPoint(mem: Mem, p: Pid, pc: Pc)
    requires PointOk(mem, p, pc) && pc.Lock? && KeyFree(mem, pc.op) && |mem.lists| == NLISTS
    ensures Sane(mem, pc) && PointOk(mem, p, CallEffect(mem, p, pc).pc)
  {
    hide Hash, Wellformed;
  }

  /** A process that gets its lock finds what the lock covers in order. */
  lemma LockPoint(s: Sys, p: Pid)
    requires Inv(s) && Enabled(s, p)
    requires var pc := s.procs[p].pc; pc.Lock? || pc.DelLock? || pc.FreeLock? || pc.NextLock?
    ensures Sane(s.mem, s.procs[p].pc) && PointOk(s.mem, p, CallEffect(s.mem, p, s.procs[p].pc).pc)
  {
    MemChained(s.mem, 0);
    InvPoint(s, p);
    hide MemOk, HistOk, PointsOk, PointOk, CallEffect, Sane, LocksOk, Guarded, Enabled;
    if s.procs[p].pc.Lock? {
      ChainLockPoint(s, p);
      HeadPoint(s.mem, p, s.procs[p].pc);
    } else {
      NoDying(s, p);
      FreeLockPoint(s.mem, p, s.procs[p].pc);
    }
  }

  lemma WriterOf(b: ByteLock, k: nat, procs: map<Pid, Proc>, q: Pid)
    requires ByteOk(b, k, procs) && q in procs && HoldsW(procs[q].pc, k)
    ensures b.writer == Some(q)
  {
  }

  // ---------- one call, seen from everybody ----------

  /** Two different processes never hold conflicting locks. */
  lemma LocksExclude(l: Locks, procs: map<Pid, Proc>, p: Pid, q: Pid)
    requires LocksOk(l, procs) && p in procs && q in procs && p != q
    ensures Exclusive(procs[p].pc, procs[q].pc)
  {
    hide Hash, ByteOk;
    var pc, qc := procs[p].pc, procs[q].pc;
    if InChain(pc) && InChain(qc) && !pc.op.Fetch? && Chain(pc.op) == Chain(qc.op) {
      OneWriter(l.bytes[Chain(pc.op)], Chain(pc.op), procs, p, q);
    }
    if FreeW(pc) {
      OneWriter(l.bytes[0], 0, procs, p, q);
    }
  }

  lemma OneWriter(b: ByteLock, k: nat, procs: map<Pid, Proc>, p: Pid, q: Pid)
    requires ByteOk(b, k, procs) && p in procs && q in procs && p != q && HoldsW(procs[p].pc, k)
    ensures !HoldsW(procs[q].pc, k) && !HoldsR(procs[q].pc, k)
  {
  }

  lemma DeletePoint(mem: Mem, p: Pid, pc: Pc)
    requires MemOk(mem) && PointOk(mem, p, pc) && Sane(mem, pc)
    requires (pc.DelBlank? || pc.DelRec? || pc.DelFree? || pc.DelChain?)
    ensures MemOk(CallEffect(mem, p, pc).mem) && PointOk(CallEffect(mem, p, pc).mem, p, CallEffect(mem, p, pc).pc)
  {
    hide MemOk, PointOk, Blanked, Rewritten, Freed, Unhooked, Sane;
    if pc.DelBlank? {
      BlankedOk(mem, p, pc.op, pc.slot, pc.o, pc.next, pc.i);
    } else if pc.DelRec? {
      RewrittenOk(mem, p, pc.op, pc.slot, pc.o, pc.next, pc.i, pc.ptr);
    } else if pc.DelFree? {
      FreedOk(mem, p, pc.op, pc.slot, pc.o, pc.next, pc.i);
    } else {
      UnhookedOk(mem, p, pc.op, pc.slot, pc.next, pc.i);
    }
  }

  lemma FillPoint(mem: Mem, p: Pid, pc: Pc)
    requires MemOk(mem) && PointOk(mem, p, pc) && Sane(mem, pc)
    requires (pc.FreeTake? || pc.FillDat? || pc.FillIdx? || pc.Overwrite?)
    ensures MemOk(CallEffect(mem, p, pc).mem) && PointOk(CallEffect(mem, p, pc).mem, p, CallEffect(mem, p, pc).pc)
  {
    hide MemOk, PointOk, TakenFree, FilledDat, FilledIdx, Overwritten, Sane;
    if pc.FreeTake? {
      TakenOk(mem, p, pc.op, pc.ptr, pc.slot, pc.o, pc.next, pc.i);
    } else if pc.FillDat? {
      FilledDatOk(mem, p, pc.op, pc.ptr, pc.o);
    } else if pc.FillIdx? {
      FilledIdxOk(mem, p, pc.op, pc.ptr, pc.o);
    } else {
      OverwrittenOk(mem, p, pc.op, pc.datoff);
    }
  }

  lemma AppendPoint(mem: Mem, p: Pid, pc: Pc)
    requires MemOk(mem) && PointOk(mem, p, pc) && Sane(mem, pc) && (pc.DatWrite? || pc.IdxWrite? || pc.SetHead?)
    ensures MemOk(CallEffect(mem, p, pc).mem) && PointOk(CallEffect(mem, p, pc).mem, p, CallEffect(mem, p, pc).pc)
  {
    hide MemOk, PointOk, GrownDat, GrownIdx, Headed, Sane;
    if pc.DatWrite? {
      GrownDatOk(mem, p, pc.op, pc.reuse, pc.ptr, pc.at);
    } else if pc.IdxWrite? {
      GrownIdxOk(mem, p, pc.op, pc.reuse, pc.ptr, pc.at, pc.o);
    } else {
      HeadedOk(mem, p, pc.op, pc.reuse, pc.o);
    }
  }

  /** A writing call keeps the files well-formed and brings its process to a point that agrees with them. */
  lemma WritePoint(mem: Mem, p: Pid, pc: Pc)
    requires MemOk(mem) && PointOk(mem, p, pc) && !Quiet(pc)
    ensures Sane(mem, pc)
    ensures MemOk(CallEffect(mem, p, pc).mem) && PointOk(CallEffect(mem, p, pc).mem, p, CallEffect(mem, p, pc).pc)
  {
    assert |mem.lists| == NLISTS;
    hide MemOk, PointOk, CallEffect, Sane;
    SaneAt(mem, p, pc);
    if pc.DelBlank? || pc.DelRec? || pc.DelFree? || pc.DelChain? {
      DeletePoint(mem, p, pc);
    } else if pc.FreeTake? || pc.FillDat? || pc.FillIdx? || pc.Overwrite? {
      FillPoint(mem, p, pc);
    } else {
      AppendPoint(mem, p, pc);
    }
  }

  lemma DeleteRely(mem: Mem, p: Pid, pc: Pc, q: Pid, qc: Pc)
    requires MemOk(mem) && PointOk(mem, p, pc) && Sane(mem, pc) && q != p && Exclusive(pc, qc)
    requires pc.DelBlank? || pc.DelRec? || pc.DelFree? || pc.DelChain?
    ensures Rely(mem, CallEffect(mem, p, pc).mem, q, qc)
  {
    hide ListsOk, SlotsOk, Chained, Owned, Located, Mapped, CellsOk, FreeOnes, Seen, Layout, Hash, Wellformed, Blank,
         Rely, Spaces;
    hide Blanked, Rewritten, Freed, Unhooked, TakenFree, FilledDat, FilledIdx, GrownDat, GrownIdx, Headed, Overwritten;
    match pc
    case DelBlank(op, slot, o, next, i) => BlankedRely(mem, p, op, slot, o, i, q, qc);
    case DelRec(op, slot, o, next, i, ptr) => RewrittenRely(mem, p, o, ptr, q, qc);
    case DelFree(op, slot, o, next, i) => FreedRely(mem, p, o, q, qc);
    case DelChain(op, slot, next, i) => UnhookedRely(mem, op, slot, next, i, q, qc);
  }

  lemma FillRely(mem: Mem, p: Pid, pc: Pc, q: Pid, qc: Pc)
    requires MemOk(mem) && PointOk(mem, p, pc) && Sane(mem, pc) && q != p && Exclusive(pc, qc)
    requires pc.FreeTake? || pc.FillDat? || pc.FillIdx? || pc.Overwrite?
    ensures Rely(mem, CallEffect(mem, p, pc).mem, q, qc)
  {
    hide ListsOk, SlotsOk, Chained, Owned, Located, Mapped, CellsOk, FreeOnes, Seen, Layout, Hash, Wellformed, Blank,
         Rely, Spaces;
    hide Blanked, Rewritten, Freed, Unhooked, TakenFree, FilledDat, FilledIdx, GrownDat, GrownIdx, Headed, Overwritten;
    match pc
    case FreeTake(op, ptr, slot, o, next, i) => TakenRely(mem, p, slot, o, next, i, q, qc);
    case FillDat(op, ptr, o) => FilledDatRely(mem, p, op, o, q, qc);
    case FillIdx(op, ptr, o) => FilledIdxRely(mem, p, op, ptr, o, q, qc);
    case Overwrite(op, datoff) => OverwrittenRely(mem, p, op, datoff, q, qc);
  }

  lemma AppendRely(mem: Mem, p: Pid, pc: Pc, q: Pid, qc: Pc)
    requires MemOk(mem) && PointOk(mem, p, pc) && Sane(mem, pc) && q != p && Exclusive(pc, qc)
    requires pc.DatWrite? || pc.IdxWrite? || pc.SetHead?
    ensures Rely(mem, CallEffect(mem, p, pc).mem, q, qc)
  {
    hide ListsOk, SlotsOk, Chained, Owned, Located, Mapped, CellsOk, FreeOnes, Seen, Layout, Hash, Wellformed, Blank,
         Rely, Spaces;
    hide Blanked, Rewritten, Freed, Unhooked, TakenFree, FilledDat, FilledIdx, GrownDat, GrownIdx, Headed, Overwritten;
    match pc
    case DatWrite(op, reuse, ptr, at) => GrownDatRely(mem, p, op, at, q, qc);
    case IdxWrite(op, reuse, ptr, at, o) => GrownIdxRely(mem, p, op, ptr, at, o, q, qc);
    case SetHead(op, reuse, o) => HeadedRely(mem, p, op, o, q, qc);
  }

  /** And it leaves alone what every process relies on that holds its locks beside it. */
  lemma WriteRely(mem: Mem, p: Pid, pc: Pc, q: Pid, qc: Pc)
    requires MemOk(mem) && PointOk(mem, p, pc) && !Quiet(pc) && q != p && Exclusive(pc, qc)
    ensures Sane(mem, pc) && Rely(mem, CallEffect(mem, p, pc).mem, q, qc)
  {
    assert |mem.lists| == NLISTS;
    hide MemOk, PointOk, Sane, CallEffect, Rely, Exclusive;
    SaneAt(mem, p, pc);
    if pc.DelBlank? || pc.DelRec? || pc.DelFree? || pc.DelChain? {
      DeleteRely(mem, p, pc, q, qc);
    } else if pc.FreeTake? || pc.FillDat? || pc.FillIdx? || pc.Overwrite? {
      FillRely(mem, p, pc, q, qc);
    } else {
      AppendRely(mem, p, pc, q, qc);
    }
  }

  lemma QuietPoint(s: Sys, p: Pid)
    requires Inv(s) && Enabled(s, p) && Quiet(s.procs[p].pc)
    ensures Sane(s.mem, s.procs[p].pc) && PointOk(s.mem, p, CallEffect(s.mem, p, s.procs[p].pc).pc)
  {
    hide MemOk, LocksOk, Guarded, HistOk, PointOk, WalkStep;
    var pc := s.procs[p].pc;
    assert PointOk(s.mem, p, pc);
    MemChained(s.mem, 0);
    SaneAt(s.mem, p, pc);
    if pc.Walk? {
      WalkPoint(s.mem, p, pc.op, pc.slot, pc.off, pc.i);
    } else if pc.FreeHead? || pc.FreeWalk? || pc.FreeUnlock? || pc.InsHead? {
      FreePoint(s.mem, p, pc);
    } else if pc.NextHead? || pc.NextBody? || pc.NextDat? || pc.NextUnlock? {
      ScanPoint(s.mem, p, pc);
    } else if Plain(pc) {
      PlainPoint(s.mem, p, pc);
    } else {
      LockPoint(s, p);
    }
  }

  /** Files and points after a call of p. */
  lemma CallPoints(s: Sys, p: Pid)
    requires Inv(s) && Enabled(s, p)
    ensures Sane(s.mem, s.procs[p].pc)
    ensures var e := CallEffect(s.mem, p, s.procs[p].pc);
            MemOk(e.mem) && PointOk(e.mem, p, e.pc)
            && forall q :: q in s.procs && q != p ==> PointOk(e.mem, q, s.procs[q].pc)
  {
    hide MemOk, Guarded, HistOk, PointOk, Rely, LocksOk;
    var pc := s.procs[p].pc;
    assert PointOk(s.mem, p, pc);
    MemChained(s.mem, 0);
    if Quiet(pc) {
      QuietPoint(s, p);
      QuietMem(s.mem, p, pc);
    } else {
      WritePoint(s.mem, p, pc);
      forall q | q in s.procs && q != p
        ensures PointOk(CallEffect(s.mem, p, pc).mem, q, s.procs[q].pc)
      {
        LocksExclude(s.locks, s.procs, p, q);
        WriteRely(s.mem, p, pc, q, s.procs[q].pc);
        PointStable(s.mem, CallEffect(s.mem, p, pc).mem, q, s.procs[q].pc);
      }
    }
  }

  // ---------- locks after a call ----------

  /** Which locks a call can take and which operation it belongs to. */
  ghost predicate LocksMove(pc: Pc, pc': Pc) {
    && (InChain(pc') ==> HasOp(pc) && pc'.op == pc.op)
    && (InChain(pc) && !pc.Unlock? ==> InChain(pc'))
    && (FreeW(pc') ==> FreeW(pc) || pc.DelLock? || pc.FreeLock?)
    && (FreeR(pc') ==> FreeR(pc) || pc.NextLock?)
    && (HoldsDat(pc') ==> HoldsDat(pc) || pc.DatLock?)
    && (HoldsIdx(pc') ==> HoldsIdx(pc) || pc.IdxLock?)
  }

  lemma WriteLocks(mem: Mem, p: Pid, pc: Pc)
    requires Sane(mem, pc) && !Quiet(pc)
    ensures LocksMove(pc, CallEffect(mem, p, pc).pc)
  {
    hide Hash, Blanked, Rewritten, Freed, Unhooked, TakenFree, FilledDat, FilledIdx, GrownDat, GrownIdx, Headed,
         Overwritten;
  }

  lemma CallLocks(mem: Mem, p: Pid, pc: Pc)
    requires Sane(mem, pc)
    ensures LocksMove(pc, CallEffect(mem, p, pc).pc)
  {
    hide CallEffect, Sane, LocksMove;
    if Quiet(pc) { QuietLocks(mem, p, pc); } else { WriteLocks(mem, p, pc); }
  }

  lemma QuietLocks(mem: Mem, p: Pid, pc: Pc)
    requires Sane(mem, pc) && Quiet(pc)
    ensures LocksMove(pc, CallEffect(mem, p, pc).pc)
  {
    hide CallEffect, LocksMove;
    if AtReuse(pc) || AtAppend(pc) {
      GrowLocks(mem, p, pc);
    } else {
      WalkLocks(mem, p, pc);
    }
  }

  lemma GrowLocks(mem: Mem, p: Pid, pc: Pc)
    requires Sane(mem, pc) && Quiet(pc) && (AtReuse(pc) || AtAppend(pc))
    ensures LocksMove(pc, CallEffect(mem, p, pc).pc)
  {
    hide Hash, Fits;
  }

  lemma WalkLocks(mem: Mem, p: Pid, pc: Pc)
    requires Sane(mem, pc) && Quiet(pc) && !AtReuse(pc) && !AtAppend(pc)
    ensures LocksMove(pc, CallEffect(mem, p, pc).pc)
  {
    hide Hash, Blank, RecSize;
  }

  lemma CallTakes(s: Sys, p: Pid)
    requires LocksOk(s.locks, s.procs) && Enabled(s, p) && Sane(s.mem, s.procs[p].pc)
    ensures Takes(s.locks, s.procs[p].pc, CallEffect(s.mem, p, s.procs[p].pc).pc)
  {
    hide CallEffect, ByteOk, Sane, Hash;
    CallLocks(s.mem, p, s.procs[p].pc);
  }

  /** Locks are only taken when they are free. */
  ghost predicate Takes(l: Locks, pc: Pc, pc': Pc) {
    && |l.bytes| == NLISTS
    && (forall k :: 0 <= k < NLISTS && HoldsW(pc', k) ==> HoldsW(pc, k) || CanWrite(l.bytes[k]))
    && (forall k :: 0 <= k < NLISTS && HoldsR(pc', k) ==> HoldsR(pc, k) || CanRead(l.bytes[k]))
    && (HoldsDat(pc') ==> HoldsDat(pc) || l.dat == None)
    && (HoldsIdx(pc') ==> HoldsIdx(pc) || l.idx == None)
  }

  lemma SetByteOk(b: ByteLock, k: nat, procs: map<Pid, Proc>, p: Pid, proc': Proc)
    requires ByteOk(b, k, procs) && p in procs
    requires HoldsW(proc'.pc, k) ==> HoldsW(procs[p].pc, k) || CanWrite(b)
    requires HoldsR(proc'.pc, k) ==> HoldsR(procs[p].pc, k) || CanRead(b)
    ensures ByteOk(SetByte(b, p, HoldsR(proc'.pc, k), HoldsW(proc'.pc, k)), k, procs[p := proc'])
  {
  }

  lemma RelockOk(l: Locks, procs: map<Pid, Proc>, p: Pid, proc': Proc)
    requires LocksOk(l, procs) && p in procs && Takes(l, procs[p].pc, proc'.pc)
    ensures LocksOk(Relock(l, p, proc'.pc), procs[p := proc'])
  {
    hide ByteOk, SetByte, HoldsW, HoldsR, HoldsDat, HoldsIdx;
    forall k | 0 <= k < NLISTS
      ensures ByteOk(Relock(l, p, proc'.pc).bytes[k], k, procs[p := proc'])
    {
      SetByteOk(l.bytes[k], k, procs, p, proc');
    }
  }

  // ---------- what is out of order stays covered ----------

  /** What a call does to the gaps, the replaced keys and the dying record, and where that leaves p. */
  ghost predicate MarksMove(mem: Mem, mem': Mem, p: Pid, pc: Pc, pc': Pc) {
    && (forall k :: k in mem'.hole && k !in mem.hole ==> HoldsW(pc', k))
    && (forall key :: key in mem'.pend && (key !in mem.pend || mem.pend[key] != mem'.pend[key]) ==>
          mem'.pend[key] == p && Replaces(pc', key))
    && (mem'.dying.Some? ==> FreeW(pc') || mem'.dying == mem.dying)
    && (pc.Unlock? ==> mem' == mem && Chain(pc.op) !in mem.hole && pc.op.key !in mem.pend)
    && (FreeW(pc) && !FreeW(pc') ==> mem' == mem && mem.dying == None)
  }

  lemma WriteMarks(mem: Mem, p: Pid, pc: Pc)
    requires Sane(mem, pc) && !Quiet(pc) && (pc.DelBlank? ==> !pc.op.Fetch?)
    ensures MarksMove(mem, CallEffect(mem, p, pc).mem, p, pc, CallEffect(mem, p, pc).pc)
  {
    hide CallEffect, MarksMove;
    if pc.DelBlank? {
      BlankMarks(mem, p, pc);
    } else if AtDelete(pc) {
      DeleteMarks(mem, p, pc);
    } else {
      StoreMarks(mem, p, pc);
    }
  }

  lemma BlankMarks(mem: Mem, p: Pid, pc: Pc)
    requires Sane(mem, pc) && pc.DelBlank? && !pc.op.Fetch?
    ensures MarksMove(mem, CallEffect(mem, p, pc).mem, p, pc, CallEffect(mem, p, pc).pc)
  {
    hide Hash, RemoveAt, Spaces;
  }

  lemma DeleteMarks(mem: Mem, p: Pid, pc: Pc)
    requires Sane(mem, pc) && !Quiet(pc) && AtDelete(pc)
    ensures MarksMove(mem, CallEffect(mem, p, pc).mem, p, pc, CallEffect(mem, p, pc).pc)
  {
    hide Hash, Spaces;
  }

  lemma StoreMarks(mem: Mem, p: Pid, pc: Pc)
    requires Sane(mem, pc) && !Quiet(pc) && (AtReuse(pc) || AtAppend(pc) || pc.Overwrite?)
    ensures MarksMove(mem, CallEffect(mem, p, pc).mem, p, pc, CallEffect(mem, p, pc).pc)
  {
    hide MarksMove, Hash, TakenFree, FilledDat, FilledIdx, GrownDat, GrownIdx, Headed, Overwritten;
    if AtReuse(pc) {
      FillMarked(mem, p, pc);
    } else {
      AppendMarked(mem, p, pc);
    }
    var mem' := CallEffect(mem, p, pc).mem;
    MarksSame(mem, mem', p, pc, CallEffect(mem, p, pc).pc);
  }

  /** No write of a store leaves a mark; the last one takes the mark of a replacement away. */
  lemma FillMarked(mem: Mem, p: Pid, pc: Pc)
    requires Sane(mem, pc) && (pc.FreeTake? || pc.FillDat? || pc.FillIdx?)
    ensures var mem' := CallEffect(mem, p, pc).mem;
            mem'.hole == mem.hole && mem'.dying == mem.dying && mem'.pend == mem.pend
  {
    hide Hash, RemoveAt, Chain;
  }

  lemma AppendMarked(mem: Mem, p: Pid, pc: Pc)
    requires Sane(mem, pc) && (pc.DatWrite? || pc.IdxWrite? || pc.SetHead? || pc.Overwrite?)
    ensures var mem' := CallEffect(mem, p, pc).mem;
            && mem'.hole == mem.hole && mem'.dying == mem.dying
            && (mem'.pend == mem.pend || mem'.pend == mem.pend - {pc.op.key})
  {
    hide Hash, RecSize, Chain, HeadSlot;
  }

  lemma MarksSame(mem: Mem, mem': Mem, p: Pid, pc: Pc, pc': Pc)
    requires mem'.hole == mem.hole && mem'.dying == mem.dying
    requires mem'.pend == mem.pend || exists key :: mem'.pend == mem.pend - {key}
    requires !pc.Unlock? && (FreeW(pc) ==> FreeW(pc'))
    ensures MarksMove(mem, mem', p, pc, pc')
  {
    hide FreeW;
  }

  /** At these points a process is about to leave its locks, and everything is in order. */
  lemma LeaveMarks(mem: Mem, p: Pid, pc: Pc)
    requires PointOk(mem, p, pc)
    ensures pc.Unlock? ==> Chain(pc.op) !in mem.hole && pc.op.key !in mem.pend
    ensures pc.DelUnlock? || pc.FreeUnlock? ==> mem.dying == None
  {
    hide Hash, Wellformed, InsertingAt;
  }

  lemma NotFetch(mem: Mem, p: Pid, pc: Pc)
    requires PointOk(mem, p, pc)
    ensures pc.DelBlank? || AtDelete(pc) ==> !pc.op.Fetch?
  {
    hide Hash, Wellformed, Gap, AtElem, KeyFree;
  }

  lemma QuietLeaves(mem: Mem, p: Pid, pc: Pc)
    requires Sane(mem, pc) && Quiet(pc) && FreeW(pc) && !FreeW(CallEffect(mem, p, pc).pc)
    ensures pc.DelUnlock? || pc.FreeUnlock?
  {
    hide Hash, Blank, RecSize, Fits;
  }

  lemma CallMarks(mem: Mem, p: Pid, pc: Pc)
    requires |mem.lists| == NLISTS && PointOk(mem, p, pc) && Sane(mem, pc)
    ensures MarksMove(mem, CallEffect(mem, p, pc).mem, p, pc, CallEffect(mem, p, pc).pc)
  {
    hide PointOk, Sane, CallEffect, Hash, FreeW, Replaces, HoldsW;
    if Quiet(pc) {
      QuietMem(mem, p, pc);
      LeaveMarks(mem, p, pc);
      if FreeW(pc) && !FreeW(CallEffect(mem, p, pc).pc) { QuietLeaves(mem, p, pc); }
    } else {
      hide MarksMove;
      NotFetch(mem, p, pc);
      WriteMarks(mem, p, pc);
    }
  }

  lemma GuardedStep(s: Sys, p: Pid)
    requires LocksOk(s.locks, s.procs) && Guarded(s.mem, s.locks, s.procs)
    requires |s.mem.lists| == NLISTS && 0 !in s.mem.hole
    requires Enabled(s, p) && PointOk(s.mem, p, s.procs[p].pc) && Sane(s.mem, s.procs[p].pc)
    ensures Guarded(Step(s, p).mem, Step(s, p).locks, Step(s, p).procs)
  {
    hide CallEffect, PointOk, Sane, Hash, ByteOk;
    var pc, e := s.procs[p].pc, CallEffect(s.mem, p, s.procs[p].pc);
    var s' := Step(s, p);
    CallMarks(s.mem, p, pc);
    CallLocks(s.mem, p, pc);
    CallTakes(s, p);
    RelockOk(s.locks, s.procs, p, s'.procs[p]);
    forall k | k in e.mem.hole
      ensures k < NLISTS && s'.locks.bytes[k].writer.Some?
    {
      HoleCovered(s, p, k);
    }
    forall key | key in e.mem.pend
      ensures e.mem.pend[key] in s'.procs && Replaces(s'.procs[e.mem.pend[key]].pc, key)
    {
    }
    if e.mem.dying.Some? {
      DyingCovered(s, p);
    }
  }

  lemma WriterStays(s: Sys, p: Pid, k: nat)
    requires LocksOk(s.locks, s.procs) && Enabled(s, p) && Sane(s.mem, s.procs[p].pc) && k < NLISTS
    requires HoldsW(CallEffect(s.mem, p, s.procs[p].pc).pc, k)
             || (s.locks.bytes[k].writer.Some? && s.locks.bytes[k].writer != Some(p))
    ensures Step(s, p).locks.bytes[k].writer.Some?
  {
    hide CallEffect, Sane, HoldsW, HoldsR, ByteOk;
  }

  lemma DyingCovered(s: Sys, p: Pid)
    requires LocksOk(s.locks, s.procs) && Guarded(s.mem, s.locks, s.procs)
    requires |s.mem.lists| == NLISTS && Enabled(s, p) && PointOk(s.mem, p, s.procs[p].pc) && Sane(s.mem, s.procs[p].pc)
    requires CallEffect(s.mem, p, s.procs[p].pc).mem.dying.Some?
    ensures Step(s, p).locks.bytes[0].writer.Some?
  {
    hide CallEffect, PointOk, Sane, Hash, Step, FreeW;
    var pc, e := s.procs[p].pc, CallEffect(s.mem, p, s.procs[p].pc);
    CallMarks(s.mem, p, pc);
    assert ByteOk(s.locks.bytes[0], 0, s.procs);
    WriterStays(s, p, 0);
  }

  lemma HoleCovered(s: Sys, p: Pid, k: nat)
    requires LocksOk(s.locks, s.procs) && Guarded(s.mem, s.locks, s.procs)
    requires |s.mem.lists| == NLISTS && 0 !in s.mem.hole
    requires Enabled(s, p) && PointOk(s.mem, p, s.procs[p].pc) && Sane(s.mem, s.procs[p].pc)
    requires k in CallEffect(s.mem, p, s.procs[p].pc).mem.hole
    ensures k < NLISTS && Step(s, p).locks.bytes[k].writer.Some?
  {
    hide CallEffect, PointOk, Sane, Hash, ByteOk, Step;
    var pc, e := s.procs[p].pc, CallEffect(s.mem, p, s.procs[p].pc);
    CallMarks(s.mem, p, pc);
    CallLocks(s.mem, p, pc);
    if k !in s.mem.hole {
      assert HoldsW(e.pc, k);
    } else if s.locks.bytes[k].writer == Some(p) {
      assert ByteOk(s.locks.bytes[k], k, s.procs);
      HoldsKept(s.mem, p, pc, k, s.locks.bytes[k], s.procs);
    }
    assert k < NLISTS;
    WriterStays(s, p, k);
  }

  /** A process with a gap behind it does not let go of the lock that covers the gap. */
  lemma HoldsKept(mem: Mem, p: Pid, pc: Pc, k: nat, b: ByteLock, procs: map<Pid, Proc>)
    requires |mem.lists| == NLISTS && PointOk(mem, p, pc) && Sane(mem, pc) && p in procs && procs[p].pc == pc
    requires ByteOk(b, k, procs) && b.writer == Some(p) && k in mem.hole && k != 0
    ensures HoldsW(CallEffect(mem, p, pc).pc, k)
  {
    hide CallEffect, PointOk, Sane, Hash;
    CallMarks(mem, p, pc);
    CallLocks(mem, p, pc);
  }

  // ---------- the serial order ----------

  lemma HistAppend(hist: seq<Event>, e: Event, m: map<string, string>, p: Pid)
    requires Serial(hist) && Replay(hist) == m && e.res == Result(m, e.op)
    ensures Serial(hist + [e]) && Replay(hist + [e]) == After(m, e.op)
    ensures Proj(hist + [e], p) == Proj(hist, p) + (if e.pid == p then [e] else [])
  {
    hide Result, After;
    var h := hist + [e];
    assert h[..|h| - 1] == hist;
    forall i | 0 <= i < |h|
      ensures h[i].res == Result(Replay(h[..i]), h[i].op)
    {
      assert h[..i] == hist[..i];
    }
  }

  /** The results of a search are those of the atomic map. */
  lemma WalkEvent(mem: Mem, p: Pid, op: Op, slot: nat, off: nat, i: nat)
    requires MemOk(mem) && PointOk(mem, p, Walk(op, slot, off, i))
    ensures var e := WalkStep(mem, op, slot, off, i);
            e.mem == mem && (e.event.Some? ==> e.event.value == Result(mem.m, op) && After(mem.m, op) == mem.m)
            && (if e.event.Some? then e.pc == Unlock(op, e.event.value) else Pending(p, e.pc) == [])
  {
    hide MemOk, Hash, Wellformed, Fits;
    var r := RecOf(mem, off);
    if off == 0 {
      WalkMiss(mem, p, op, slot, off, i);
      assert mem.m - {op.key} == mem.m;
    } else if r.key == op.key {
      WalkHit(mem, p, op, slot, off, i);
    }
  }

  lemma LiveData(mem: Mem, op: Op, datoff: nat)
    requires MemOk(mem) && LiveAt(mem, op, datoff)
    ensures op.key in mem.m && mem.m[op.key] == CellAt(mem, datoff)
  {
    hide ListsOk, SlotsOk, Chained, Owned, Located, CellsOk, FreeOnes, Seen, Layout, Hash;
  }

  lemma RecLive(mem: Mem, k: nat, slot: nat, o: nat, next: nat, i: nat)
    requires MemOk(mem) && 1 <= k < NLISTS && AtElem(mem, k, slot, o, next, i)
    ensures mem.recs[o].key in mem.m
  {
    hide SlotsOk, Chained, Owned, CellsOk, FreeOnes, Seen, Layout, Hash;
    MemberIn(mem, k, i);
    hide ListsOk;
  }

  lemma InsertResult(mem: Mem, op: Op, reuse: bool)
    requires MemOk(mem) && Inserting(mem, op, reuse) && Wellformed(op)
    ensures Result(mem.m, op) == Code(0) && After(mem.m, op) == mem.m[op.key := op.data]
  {
    hide ListsOk, SlotsOk, Chained, Owned, Located, CellsOk, FreeOnes, Seen, Layout, Hash, CString;
  }

  /** What it means that a call takes effect: then, and only then, the map changes, as the atomic map says. */
  ghost predicate EventOk(mem: Mem, p: Pid, pc: Pc, e: Effect) {
    && (e.event.None? ==> e.mem.m == mem.m && Pending(p, e.pc) == if pc.Unlock? then [] else Pending(p, pc))
    && (e.event.Some? ==>
        && HasOp(pc) && !pc.Unlock?
        && e.event.value == Result(mem.m, pc.op) && e.mem.m == After(mem.m, pc.op)
        && Pending(p, pc) == [] && Pending(p, e.pc) == [Event(p, pc.op, e.event.value)])
  }

  predicate Silent(pc: Pc) {
    !(pc.Walk? || pc.Read? || pc.DelBlank? || pc.SetHead? || pc.Overwrite?)
  }

  lemma SilentWrite(mem: Mem, p: Pid, pc: Pc)
    requires Sane(mem, pc) && Silent(pc) && !Quiet(pc) && (AtDelete(pc) ==> !pc.op.Fetch?)
    ensures EventOk(mem, p, pc, CallEffect(mem, p, pc))
  {
    hide Hash, RecSize, Result, After, RemoveAt, Spaces;
  }

  lemma SilentRead(mem: Mem, p: Pid, pc: Pc)
    requires Sane(mem, pc) && Silent(pc) && Quiet(pc) && (AtDelete(pc) ==> !pc.op.Fetch?)
    ensures EventOk(mem, p, pc, CallEffect(mem, p, pc))
  {
    hide CallEffect, EventOk;
    if AtReuse(pc) || AtAppend(pc) {
      SilentGrow(mem, p, pc);
    } else {
      SilentWalk(mem, p, pc);
    }
  }

  lemma SilentGrow(mem: Mem, p: Pid, pc: Pc)
    requires Sane(mem, pc) && Silent(pc) && Quiet(pc) && (AtReuse(pc) || AtAppend(pc))
    ensures EventOk(mem, p, pc, CallEffect(mem, p, pc))
  {
    hide Pending, Hash, Fits, Result, After;
    NotPending(p, pc);
    NotPending(p, CallEffect(mem, p, pc).pc);
  }

  lemma NotPending(p: Pid, pc: Pc)
    requires AtReuse(pc) || AtAppend(pc)
    ensures Pending(p, pc) == []
  {
  }

  lemma SilentWalk(mem: Mem, p: Pid, pc: Pc)
    requires Sane(mem, pc) && Silent(pc) && Quiet(pc) && (AtDelete(pc) ==> !pc.op.Fetch?)
    requires !AtReuse(pc) && !AtAppend(pc)
    ensures EventOk(mem, p, pc, CallEffect(mem, p, pc))
  {
    hide Hash, Blank, RecSize, Result, After;
  }

  lemma DeleteEvent(mem: Mem, p: Pid, pc: Pc)
    requires MemOk(mem) && pc.DelBlank? && PointOk(mem, p, pc) && Sane(mem, pc)
    ensures EventOk(mem, p, pc, CallEffect(mem, p, pc))
  {
    hide MemOk, Hash, Wellformed, RemoveAt, Spaces;
    RecLive(mem, Chain(pc.op), pc.slot, pc.o, pc.next, pc.i);
  }

  lemma StoreEvent(mem: Mem, p: Pid, pc: Pc)
    requires MemOk(mem) && (pc.SetHead? || pc.Overwrite?) && PointOk(mem, p, pc) && Sane(mem, pc)
    ensures EventOk(mem, p, pc, CallEffect(mem, p, pc))
  {
    hide MemOk, Hash, Wellformed, Inserting, NewRec, Result, After;
    if pc.SetHead? {
      InsertResult(mem, pc.op, pc.reuse);
    } else {
      LiveData(mem, pc.op, pc.datoff);
      OverwriteResult(mem.m, pc.op);
    }
  }

  lemma ReadEvent(mem: Mem, p: Pid, pc: Pc)
    requires MemOk(mem) && (pc.Walk? || pc.Read?) && PointOk(mem, p, pc) && Sane(mem, pc)
    ensures EventOk(mem, p, pc, CallEffect(mem, p, pc))
  {
    hide MemOk, Hash, Wellformed, WalkStep;
    if pc.Walk? {
      WalkEvent(mem, p, pc.op, pc.slot, pc.off, pc.i);
    } else {
      LiveData(mem, pc.op, pc.datoff);
    }
  }

  /** A call takes effect at most once, with the result the atomic map gives at that moment. */
  lemma CallEvent(mem: Mem, p: Pid, pc: Pc)
    requires MemOk(mem) && PointOk(mem, p, pc) && Sane(mem, pc)
    ensures EventOk(mem, p, pc, CallEffect(mem, p, pc))
  {
    hide MemOk, PointOk, Sane, CallEffect, EventOk;
    if Silent(pc) {
      NotFetch(mem, p, pc);
      if Quiet(pc) { SilentRead(mem, p, pc); } else { SilentWrite(mem, p, pc); }
    } else if pc.DelBlank? {
      DeleteEvent(mem, p, pc);
    } else if pc.Walk? || pc.Read? {
      ReadEvent(mem, p, pc);
    } else {
      StoreEvent(mem, p, pc);
    }
  }

  lemma OverwriteResult(m: map<string, string>, op: Op)
    requires op.Store? && Wellformed(op) && op.key in m && op.flag != DB_INSERT
    ensures Result(m, op) == Code(0) && After(m, op) == m[op.key := op.data]
  {
    hide CString;
  }

  lemma HistStep(s: Sys, p: Pid)
    requires MemOk(s.mem) && HistOk(s.hist, s.mem.m, s.procs)
    requires |s.locks.bytes| == NLISTS && p in s.procs && PointOk(s.mem, p, s.procs[p].pc) && Sane(s.mem, s.procs[p].pc)
    ensures HistOk(Step(s, p).hist, Step(s, p).mem.m, Step(s, p).procs)
  {
    hide MemOk, PointOk, CallEffect, Sane, Serial, Replay, Proj, Result, After, Pending, Relock;
    var pc, e, s' := s.procs[p].pc, CallEffect(s.mem, p, s.procs[p].pc), Step(s, p);
    CallEvent(s.mem, p, pc);
    if e.event.Some? {
      HistAppend(s.hist, Event(p, pc.op, e.event.value), s.mem.m, p);
    }
    forall q | q in s'.procs
      ensures Proj(s'.hist, q) == s'.procs[q].log + Pending(q, s'.procs[q].pc)
    {
      if e.event.Some? {
        HistAppend(s.hist, Event(p, pc.op, e.event.value), s.mem.m, q);
      }
      if q == p && pc.Unlock? {
        assert Pending(p, pc) == [Event(p, pc.op, pc.res)] by { UnlockPending(p, pc); }
      }
    }
  }

  lemma UnlockPending(p: Pid, pc: Pc)
    requires pc.Unlock?
    ensures Pending(p, pc) == [Event(p, pc.op, pc.res)]
  {
  }

  // ---------- the invariant ----------

  lemma StepInv(s: Sys, p: Pid)
    requires Inv(s) && Enabled(s, p)
    ensures Sane(s.mem, s.procs[p].pc) && Inv(Step(s, p))
  {
    hide Inv, MemOk, PointOk, CallEffect, Sane, LocksOk, Guarded, HistOk, Relock, Enabled, LinkedBut, Linked;
    InvParts(s);
    EnabledIn(s, p);
    InvPoint(s, p);
    MemChained(s.mem, 0);
    CallPoints(s, p);
    CallTakes(s, p);
    RelockOk(s.locks, s.procs, p, Step(s, p).procs[p]);
    GuardedStep(s, p);
    HistStep(s, p);
    PartsInv(Step(s, p));
  }

  lemma InvParts(s: Sys)
    requires Inv(s)
    ensures MemOk(s.mem) && PointsOk(s.mem, s.procs) && LocksOk(s.locks, s.procs) && |s.locks.bytes| == NLISTS
    ensures Guarded(s.mem, s.locks, s.procs) && HistOk(s.hist, s.mem.m, s.procs)
  {
    hide MemOk, PointsOk, Guarded, HistOk;
  }

  lemma PartsInv(s: Sys)
    requires MemOk(s.mem) && PointsOk(s.mem, s.procs) && LocksOk(s.locks, s.procs)
    requires Guarded(s.mem, s.locks, s.procs) && HistOk(s.hist, s.mem.m, s.procs)
    ensures Inv(s)
  {
    hide MemOk, PointsOk, LocksOk, Guarded, HistOk;
  }

  lemma EnabledIn(s: Sys, p: Pid)
    requires |s.locks.bytes| == NLISTS && Enabled(s, p)
    ensures p in s.procs
  {
  }

  /** Remembering one more pair that was passed to a store changes nothing else. */
  lemma StoredGrow(mem: Mem, mem': Mem)
    requires MemOk(mem) && mem' == mem.(stored := mem'.stored) && mem.stored <= mem'.stored
    ensures MemOk(mem')
  {
    hide ListsOk, Located, Layout, Chained, Mapped, CellsOk, FreeOnes, Seen, SlotsOk;
    SlotsSame(mem, mem');
    ChainedSame(mem, mem');
    MapSame(mem, mem');
    SeenMore(mem, mem');
  }

  lemma SlotsSame(mem: Mem, mem': Mem)
    requires SlotsOk(mem) && mem'.ptrs == mem.ptrs && mem'.recs == mem.recs
    ensures SlotsOk(mem')
  {
  }

  lemma SeenMore(mem: Mem, mem': Mem)
    requires Seen(mem) && mem' == mem.(stored := mem'.stored) && mem.stored <= mem'.stored
    ensures Seen(mem')
  {
    hide Blank;
  }

  lemma StoredRely(mem: Mem, mem': Mem, q: Pid, qc: Pc)
    requires |mem.lists| == NLISTS && CellsOk(mem) && mem' == mem.(stored := mem'.stored) && mem.stored <= mem'.stored
    ensures Rely(mem, mem', q, qc)
  {
    hide CellsOk, Rely, Hash, Blank;
    OwnCells(mem, 0);
    TouchRely(mem, mem', {}, {}, {}, {}, q, qc);
  }

  lemma BeginLocks(l: Locks, procs: map<Pid, Proc>, p: Pid, pc': Pc)
    requires LocksOk(l, procs) && p in procs && (procs[p].pc.Idle? || procs[p].pc.Scanning?)
    requires pc'.Lock? || pc'.Scanning? || pc'.NextLock?
    ensures LocksOk(l, procs[p := procs[p].(pc := pc')])
  {
    var procs' := procs[p := procs[p].(pc := pc')];
    hide ByteOk;
    forall k | 0 <= k < NLISTS
      ensures ByteOk(l.bytes[k], k, procs')
    {
      BeginByte(l.bytes[k], k, procs, p, pc');
    }
  }

  lemma BeginByte(b: ByteLock, k: nat, procs: map<Pid, Proc>, p: Pid, pc': Pc)
    requires ByteOk(b, k, procs) && p in procs && (procs[p].pc.Idle? || procs[p].pc.Scanning?)
    requires pc'.Lock? || pc'.Scanning? || pc'.NextLock?
    ensures ByteOk(b, k, procs[p := procs[p].(pc := pc')])
  {
    hide Hash;
  }

  lemma BeginPoints(s: Sys, p: Pid, pc': Pc)
    requires MemOk(s.mem) && PointsOk(s.mem, s.procs)
    requires p in s.procs && PointOk(Begin(s, p, pc').mem, p, pc')
    ensures MemOk(Begin(s, p, pc').mem) && PointsOk(Begin(s, p, pc').mem, Begin(s, p, pc').procs)
  {
    var s' := Begin(s, p, pc');
    assert |s.mem.lists| == NLISTS && CellsOk(s.mem);
    hide MemOk, Rely, PointOk, CellsOk;
    StoredGrow(s.mem, s'.mem);
    forall q | q in s'.procs
      ensures PointOk(s'.mem, q, s'.procs[q].pc)
    {
      if q != p {
        StoredRely(s.mem, s'.mem, q, s.procs[q].pc);
        PointStable(s.mem, s'.mem, q, s.procs[q].pc);
      }
    }
  }

  lemma BeginPoint(s: Sys, p: Pid, pc': Pc)
    requires REC_START in s.mem.recs || REC_START == s.mem.eof
    requires p in s.procs && PointOk(s.mem, p, s.procs[p].pc)
    requires (pc'.Lock? && Wellformed(pc'.op)) || pc' == Scanning(REC_START)
        || (s.procs[p].pc.Scanning? && pc' == NextLock(s.procs[p].pc.pos))
    ensures PointOk(Begin(s, p, pc').mem, p, pc')
  {
    hide Wellformed, Hash, Blank;
  }

  lemma BeginHist(s: Sys, p: Pid, pc': Pc)
    requires HistOk(s.hist, s.mem.m, s.procs) && p in s.procs && (s.procs[p].pc.Idle? || s.procs[p].pc.Scanning?)
    requires pc'.Lock? || pc'.Scanning? || pc'.NextLock?
    ensures HistOk(s.hist, Begin(s, p, pc').mem.m, Begin(s, p, pc').procs)
  {
    hide Serial, Replay, Proj;
  }

  lemma BeginInv(s: Sys, p: Pid, pc': Pc)
    requires Inv(s) && p in s.procs && (s.procs[p].pc.Idle? || s.procs[p].pc.Scanning?)
    requires (pc'.Lock? && Wellformed(pc'.op)) || pc' == Scanning(REC_START)
        || (s.procs[p].pc.Scanning? && pc' == NextLock(s.procs[p].pc.pos))
    ensures Inv(Begin(s, p, pc'))
  {
    hide MemOk, Wellformed, LocksOk, HistOk, PointOk, Guarded;
    LayoutStart(s.mem);
    InvPoint(s, p);
    BeginPoint(s, p, pc');
    BeginPoints(s, p, pc');
    BeginLocks(s.locks, s.procs, p, pc');
    BeginGuarded(s, p, pc');
    BeginHist(s, p, pc');
  }

  lemma BeginGuarded(s: Sys, p: Pid, pc': Pc)
    requires Guarded(s.mem, s.locks, s.procs) && p in s.procs && (s.procs[p].pc.Idle? || s.procs[p].pc.Scanning?)
    ensures Guarded(Begin(s, p, pc').mem, s.locks, Begin(s, p, pc').procs)
  {
  }

  lemma LayoutStart(mem: Mem)
    requires MemOk(mem)
    ensures REC_START in mem.recs || REC_START == mem.eof
  {
    hide ListsOk, SlotsOk, Chained, Owned, Located, Mapped, CellsOk, FreeOnes, Seen, RecSize;
  }

  /** Every step keeps the invariant. */
  lemma NextInv(s: Sys, s': Sys, p: Pid)
    requires Inv(s) && Next(s, s', p)
    ensures Inv(s')
  {
    hide Inv, Begin, Step, Enabled, Wellformed;
    if Begins(s, s', p) {
      if op :| Wellformed(op) && s' == Begin(s, p, Lock(op)) {
        BeginInv(s, p, Lock(op));
      } else if s' == Begin(s, p, Scanning(REC_START)) {
        BeginInv(s, p, Scanning(REC_START));
      } else {
        BeginInv(s, p, NextLock(s.procs[p].pc.pos));
      }
    } else {
      StepInv(s, p);
    }
  }

  // ---------- runs ----------

  /** A run: any interleaving of the processes' steps from a fresh database on. */
  ghost predicate Run(b: seq<Sys>) {
    && |b| > 0 && Init(b[0])
    && forall i :: 0 <= i < |b| - 1 ==> Follows(b[i], b[i + 1])
  }

  ghost predicate Follows(s: Sys, s': Sys) {
    exists p :: Next(s, s', p)
  }

  lemma {:induction false} RunInv(b: seq<Sys>, i: nat)
    requires Run(b) && i < |b|
    ensures Inv(b[i])
  {
    hide Inv, Init, Next;
    if i == 0 {
      InitInv(b[0]);
    } else {
      RunInv(b, i - 1);
      assert Follows(b[i - 1], b[i - 1 + 1]);
      var p :| Next(b[i - 1], b[i], p);
      NextInv(b[i - 1], b[i], p);
    }
  }

  /**
   Serializability. At every moment of every run there is one serial order of calls on one map whose
   results are the map's own, and which consists of calls of these processes: for every process it lists
   exactly the calls that have returned to it, in its order and with the results it got, then at most one
   call it is still inside.
   */
  lemma RunsAreSerial(b: seq<Sys>, i: nat)
    requires Run(b) && i < |b|
    ensures Serial(b[i].hist) && Replay(b[i].hist) == b[i].mem.m
    ensures forall e :: e in b[i].hist ==> e.pid in b[i].procs
    ensures forall p :: p in b[i].procs ==>
              && b[i].procs[p].log <= Proj(b[i].hist, p)
              && |Proj(b[i].hist, p)| <= |b[i].procs[p].log| + 1
              && (b[i].procs[p].pc.Idle? || b[i].procs[p].pc.Scanning? ==> b[i].procs[p].log == Proj(b[i].hist, p))
  {
    hide Inv, Serial, Replay, Proj, Run;
    RunInv(b, i);
    InvSerial(b[i]);
    RunPids(b, i);
  }

  /** Every event is some process's. */
  lemma {:induction false} RunPids(b: seq<Sys>, i: nat)
    requires Run(b) && i < |b|
    ensures forall e :: e in b[i].hist ==> e.pid in b[i].procs
  {
    hide Next;
    if i > 0 {
      RunPids(b, i - 1);
      var p := StepOf(b, i - 1);
      PidsKept(b[i - 1], b[i], p);
    }
  }

  lemma StepOf(b: seq<Sys>, i: nat) returns (p: Pid)
    requires Run(b) && i + 1 < |b|
    ensures Next(b[i], b[i + 1], p)
  {
    hide Next, Init;
    assert Follows(b[i], b[i + 1]);
    p :| Next(b[i], b[i + 1], p);
  }

  lemma PidsKept(s: Sys, s': Sys, p: Pid)
    requires Next(s, s', p) && forall e :: e in s.hist ==> e.pid in s.procs
    ensures forall e :: e in s'.hist ==> e.pid in s'.procs
  {
    hide CallEffect, Relock, Sane, Enabled, Wellformed;
  }

  lemma InvSerial(s: Sys)
    requires Inv(s)
    ensures Serial(s.hist) && Replay(s.hist) == s.mem.m
    ensures forall p :: p in s.procs ==>
              && s.procs[p].log <= Proj(s.hist, p)
              && |Proj(s.hist, p)| <= |s.procs[p].log| + 1
              && (s.procs[p].pc.Idle? || s.procs[p].pc.Scanning? ==> s.procs[p].log == Proj(s.hist, p))
  {
    hide MemOk, LocksOk, Guarded, PointsOk, Serial, Replay, Proj, Pending;
    forall p | p in s.procs
      ensures Proj(s.hist, p) == s.procs[p].log + Pending(p, s.procs[p].pc) && |Pending(p, s.procs[p].pc)| <= 1
      ensures s.procs[p].pc.Idle? || s.procs[p].pc.Scanning? ==> Pending(p, s.procs[p].pc) == []
    {
      PendingFew(p, s.procs[p].pc);
    }
  }

  lemma PendingFew(p: Pid, pc: Pc)
    ensures |Pending(p, pc)| <= 1 && (pc.Idle? || pc.Scanning? ==> Pending(p, pc) == [])
  {
  }

  /** The serial order only grows, so a call that returned before another began comes before it. */
  lemma HistGrows(s: Sys, s': Sys, p: Pid)
    requires Next(s, s', p)
    ensures s.hist <= s'.hist && |s'.hist| <= |s.hist| + 1
    ensures forall q :: q in s.procs ==> q in s'.procs && s.procs[q].log <= s'.procs[q].log
  {
    hide CallEffect, Relock, Sane, Enabled, Wellformed;
  }

  /**
   The serial order respects time, over any stretch of a run: what had taken effect by then stays where
   it is, and a process that was between two calls has all its later calls in the part that came later.
   */
  lemma {:induction false} OrderRespectsTime(b: seq<Sys>, i: nat, j: nat)
    requires Run(b) && i <= j < |b|
    ensures b[i].hist <= b[j].hist
    ensures forall p :: p in b[i].procs ==> p in b[j].procs && b[i].procs[p].log <= b[j].procs[p].log
    ensures forall p :: p in b[i].procs && (b[i].procs[p].pc.Idle? || b[i].procs[p].pc.Scanning?) ==>
              Proj(b[j].hist, p) == b[i].procs[p].log + Proj(b[j].hist[|b[i].hist|..], p)
  {
    HistPrefix(b, i, j);
    RunsAreSerial(b, i);
    hide Run, Serial, Replay, Proj;
    forall p | p in b[i].procs && (b[i].procs[p].pc.Idle? || b[i].procs[p].pc.Scanning?)
      ensures Proj(b[j].hist, p) == b[i].procs[p].log + Proj(b[j].hist[|b[i].hist|..], p)
    {
      ProjAppend(b[i].hist, b[j].hist[|b[i].hist|..], p);
      assert b[j].hist == b[i].hist + b[j].hist[|b[i].hist|..];
    }
  }

  /** What has happened stays as it is. */
  ghost predicate Extends(s: Sys, s': Sys) {
    s.hist <= s'.hist && forall p :: p in s.procs ==> p in s'.procs && s.procs[p].log <= s'.procs[p].log
  }

  lemma ExtendsTwice(s: Sys, s': Sys, s'': Sys)
    requires Extends(s, s') && Extends(s', s'')
    ensures Extends(s, s'')
  {
  }

  lemma ExtendsNext(s: Sys, s': Sys, p: Pid)
    requires Next(s, s', p)
    ensures Extends(s, s')
  {
    hide Next;
    HistGrows(s, s', p);
  }

  lemma ExtendsSame(s: Sys)
    ensures Extends(s, s)
  {
  }

  lemma {:induction false} HistPrefix(b: seq<Sys>, i: nat, j: nat)
    requires Run(b) && i <= j < |b|
    ensures Extends(b[i], b[j])
    decreases j
  {
    hide Run, Next, Extends;
    if i == j { ExtendsSame(b[i]); } else {
      HistPrefix(b, i, j - 1);
      var p := StepOf(b, j - 1);
      ExtendsNext(b[j - 1], b[j], p);
      ExtendsTwice(b[i], b[j - 1], b[j]);
    }
  }

  lemma {:induction false} ProjAppend(h: seq<Event>, k: seq<Event>, p: Pid)
    ensures Proj(h + k, p) == Proj(h, p) + Proj(k, p)
  {
    if k == [] {
      assert h + k == h;
    } else {
      assert (h + k)[..|h + k| - 1] == h + k[..|k| - 1];
      ProjAppend(h, k[..|k| - 1], p);
    }
  }

  lemma InvPoint(s: Sys, p: Pid)
    requires Inv(s) && p in s.procs
    ensures PointOk(s.mem, p, s.procs[p].pc)
  {
    hide MemOk, LocksOk, Guarded, HistOk, PointOk;
  }

  lemma PointStored(mem: Mem, p: Pid, pc: Pc)
    requires PointOk(mem, p, pc)
    ensures pc.NextUnlock? && pc.pair.Some? ==> pc.pair.value in mem.stored
  {
    hide Hash, Wellformed, Blank;
  }

  /** What db_nextrec is about to return was passed to some db_store, whatever the others are doing. */
  lemma NextRecReal(b: seq<Sys>, i: nat, p: Pid)
    requires Run(b) && i < |b| && p in b[i].procs
    ensures var pc := b[i].procs[p].pc; pc.NextUnlock? && pc.pair.Some? ==> pc.pair.value in b[i].mem.stored
  {
    hide Inv, Run, PointOk;
    RunInv(b, i);
    InvPoint(b[i], p);
    PointStored(b[i].mem, p, b[i].procs[p].pc);
  }

  /** No record ever belongs to two processes, or to a process and a list. */
  lemma RecordsExclusive(b: seq<Sys>, i: nat, p: Pid, q: Pid, o: nat)
    requires Run(b) && i < |b| && Mine(b[i].mem, p, o)
    ensures o !in b[i].mem.home && (Mine(b[i].mem, q, o) ==> p == q)
    ensures |b[i].mem.lists| == NLISTS && forall k :: 0 <= k < NLISTS ==> o !in b[i].mem.lists[k]
  {
    RunInv(b, i);
    hide LocksOk, Guarded, HistOk, PointsOk, Chained, Located, Mapped, CellsOk, Seen, Layout, FreeOnes, SlotsOk;
    Listed(b[i].mem, o);
  }

  // ---------- no deadlock ----------

  predicate Busy(pc: Pc) {
    !pc.Idle? && !pc.Scanning?
  }

  lemma HolderRuns(s: Sys, p: Pid)
    requires LocksOk(s.locks, s.procs) && p in s.procs
    requires FreeW(s.procs[p].pc) || FreeR(s.procs[p].pc) || HoldsDat(s.procs[p].pc) || HoldsIdx(s.procs[p].pc)
    ensures Enabled(s, p) && Busy(s.procs[p].pc)
  {
    hide ByteOk;
  }

  /** Whoever waits for the free list or for an append waits for a process that can run. */
  lemma InnerLocks(s: Sys, p: Pid) returns (q: Pid)
    requires LocksOk(s.locks, s.procs) && p in s.procs && Busy(s.procs[p].pc) && !s.procs[p].pc.Lock?
    ensures Enabled(s, q) && Busy(s.procs[q].pc)
  {
    var pc := s.procs[p].pc;
    q := p;
    if !Enabled(s, p) {
      if pc.DatLock? {
        q := s.locks.dat.value;
      } else if pc.IdxLock? {
        q := s.locks.idx.value;
      } else {
        q := Holder(s.locks.bytes[0], 0, s.procs);
      }
      HolderRuns(s, q);
    }
  }

  lemma Holder(b: ByteLock, k: nat, procs: map<Pid, Proc>) returns (q: Pid)
    requires ByteOk(b, k, procs) && !CanWrite(b)
    ensures q in procs && (HoldsW(procs[q].pc, k) || HoldsR(procs[q].pc, k))
  {
    hide HoldsW, HoldsR;
    if b.writer.Some? {
      q := b.writer.value;
    } else {
      q :| q in b.readers;
    }
  }

  /** As long as some process is inside a call, some process can make its next step. */
  lemma NoDeadlock(s: Sys, p: Pid) returns (q: Pid)
    requires Inv(s) && p in s.procs && Busy(s.procs[p].pc)
    ensures Enabled(s, q) && Busy(s.procs[q].pc) && Sane(s.mem, s.procs[q].pc) && Next(s, Step(s, q), q)
  {
    hide MemOk, HistOk, Guarded, Step, Sane, Begins, PointOk, ByteOk;
    q := p;
    if !Enabled(s, p) {
      if s.procs[p].pc.Lock? {
        var k := Chain(s.procs[p].pc.op);
        assert ByteOk(s.locks.bytes[k], k, s.procs);
        var h := Holder(s.locks.bytes[k], k, s.procs);
        q := InnerLocks(s, h);
      } else {
        q := InnerLocks(s, p);
      }
    }
    MemChained(s.mem, 0);
    assert PointOk(s.mem, q, s.procs[q].pc);
    SaneAt(s.mem, q, s.procs[q].pc);
  }
}
