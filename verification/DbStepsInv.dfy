/**
 The invariant of module DbSteps: what the files look like at every moment, what each process may
 rely on at the point it has reached, and that the steps of one process leave the others' points alone.
 */
module DbStepsInv {
  import opened Basics
  import opened DbText
  import opened DbIndex
  import opened DbBytes
  import opened DbFile
  import opened DbSteps

  // ---------- the files ----------

  function Hole(mem: Mem, k: nat): int {
    if k in mem.hole then mem.hole[k] else -1
  }

  ghost predicate SlotsOk(mem: Mem) {
    && (forall k :: 0 <= k < NLISTS ==> HeadSlot(k) in mem.ptrs)
    && (forall o :: o in mem.recs ==> o in mem.ptrs)
  }

  /** Every list is linked at every moment, up to the one slot a deletion has yet to rewrite. */
  ghost predicate Chained(mem: Mem)
    requires |mem.lists| == NLISTS
  {
    && 0 !in mem.hole
    && forall k :: 0 <= k < NLISTS ==> LinkedBut(mem.ptrs, HeadSlot(k), mem.lists[k], Hole(mem, k))
  }

  /** A record is on a list or belongs to exactly one process. */
  ghost predicate Owned(mem: Mem) {
    mem.recs.Keys == mem.home.Keys + mem.owner.Keys && mem.home.Keys !! mem.owner.Keys
  }

  /** The map is what the chains hold, and a key that is being replaced keeps its old data. */
  ghost predicate Mapped(mem: Mem) {
    && (forall key :: key in mem.loc ==>
          && key in mem.m && LocOf(mem, key) in mem.recs
          && RecOf(mem, LocOf(mem, key)).datoff in mem.cells
          && mem.m[key] == mem.cells[RecOf(mem, LocOf(mem, key)).datoff])
    && (forall key :: key in mem.m ==> key in mem.loc || key in mem.pend)
    && (forall key :: key in mem.pend ==> key in mem.m && key !in mem.loc)
  }

  function LocOf(mem: Mem, key: string): nat {
    if key in mem.loc then mem.loc[key] else 0
  }

  ghost predicate CellsOk(mem: Mem) {
    && (forall o :: o in mem.recs ==>
          mem.recs[o].datoff in mem.cells && mem.recs[o].datlen == |mem.cells[mem.recs[o].datoff]| + 1)
    && (forall o, o' :: o in mem.recs && o' in mem.recs && o != o' ==> mem.recs[o].datoff != mem.recs[o'].datoff)
    && (forall c :: c in mem.cells ==> c < mem.deof)
    && (forall c, o :: c in mem.cellOwner && o in mem.recs ==> mem.recs[o].datoff != c)
    && (forall c :: c in mem.cellOwner ==> c in mem.cells)
  }

  ghost predicate FreeOnes(mem: Mem) {
    forall o :: o in mem.home && mem.home[o] == 0 ==> o in mem.recs && Blank(mem.recs[o].key)
  }

  /** A record with a key to be seen has the data of some store of that key, unless it is being deleted. */
  ghost predicate Seen(mem: Mem) {
    forall o :: o in mem.recs ==>
      Blank(mem.recs[o].key) || mem.dying == Some(o) || (mem.recs[o].key, CellAt(mem, mem.recs[o].datoff)) in mem.stored
  }

  ghost predicate MemOk(mem: Mem) {
    && |mem.lists| == NLISTS
    && ListsOk(mem.recs, mem.lists, mem.home)
    && SlotsOk(mem) && Chained(mem) && Owned(mem)
    && Located(mem.recs, mem.home, mem.loc)
    && Mapped(mem) && CellsOk(mem) && FreeOnes(mem) && Seen(mem)
    && Layout(mem.recs, mem.eof) && REC_START <= mem.eof
  }

  // ---------- one process ----------

  ghost predicate Boundary(mem: Mem, pos: nat) {
    pos in mem.recs || pos == mem.eof
  }

  ghost predicate KeyFree(mem: Mem, op: Op) {
    Chain(op) !in mem.hole && op.key !in mem.pend
  }

  ghost predicate Walking(mem: Mem, k: nat, slot: nat, off: nat, i: nat)
    requires k < NLISTS
  {
    |mem.lists| == NLISTS && i <= |mem.lists[k]|
    && slot == SlotAt(HeadSlot(k), mem.lists[k], i) && off == ValAt(mem.lists[k], i)
  }

  ghost predicate AtElem(mem: Mem, k: nat, slot: nat, o: nat, next: nat, i: nat)
    requires k < NLISTS
  {
    |mem.lists| == NLISTS && i < |mem.lists[k]| && o == mem.lists[k][i] && o in mem.recs
    && slot == SlotAt(HeadSlot(k), mem.lists[k], i) && next == ValAt(mem.lists[k], i + 1)
  }

  /** The record has left the list but the slot before it still points to it. */
  ghost predicate Gap(mem: Mem, op: Op, slot: nat, next: nat, i: nat) {
    Walking(mem, Chain(op), slot, next, i) && Chain(op) in mem.hole && mem.hole[Chain(op)] == slot
  }

  ghost predicate Removed(mem: Mem, op: Op) {
    && !op.Fetch? && op.key !in mem.loc
    && (op.Delete? ==> op.key !in mem.pend)
    && (op.Store? ==> op.key in mem.pend && op.flag != DB_INSERT)
  }

  /** A store is about to add a record: for a key that is absent, or for one whose record it deleted. */
  ghost predicate Inserting(mem: Mem, op: Op, reuse: bool) {
    && op.Store? && Chain(op) !in mem.hole && op.key !in mem.loc
    && (if reuse then op.key !in mem.pend && op.flag != DB_REPLACE else op.key in mem.pend && op.flag != DB_INSERT)
  }

  ghost predicate InsertingAt(mem: Mem, op: Op, reuse: bool, ptr: nat) {
    Inserting(mem, op, reuse) && |mem.lists| == NLISTS && ptr == ValAt(mem.lists[Chain(op)], 0)
  }

  ghost predicate Mine(mem: Mem, p: Pid, o: nat) {
    o in mem.owner && mem.owner[o] == p && o in mem.recs && o in mem.ptrs
  }

  ghost predicate Spare(mem: Mem, p: Pid, op: Op, o: nat) {
    op.Store? && Mine(mem, p, o) && Fits(mem.recs[o], |op.key|, |op.data| + 1) && Blank(mem.recs[o].key)
  }

  ghost predicate HasData(mem: Mem, c: nat, data: string) {
    c in mem.cells && mem.cells[c] == data
  }

  ghost predicate NewRec(mem: Mem, p: Pid, op: Op, o: nat) {
    && op.Store? && Mine(mem, p, o) && |mem.lists| == NLISTS
    && mem.recs[o].key == op.key && mem.recs[o].datlen == |op.data| + 1
    && HasData(mem, mem.recs[o].datoff, op.data)
    && mem.ptrs[o] == ValAt(mem.lists[Chain(op)], 0)
  }

  ghost predicate MyCell(mem: Mem, p: Pid, op: Op, c: nat) {
    op.Store? && c in mem.cellOwner && mem.cellOwner[c] == p && HasData(mem, c, op.data)
  }

  ghost predicate LiveAt(mem: Mem, op: Op, datoff: nat) {
    op.key in mem.loc && mem.loc[op.key] in mem.recs && mem.recs[mem.loc[op.key]].datoff == datoff
  }

  /** The locals of a process agree with the files, wherever it stands. */
  ghost predicate PointOk(mem: Mem, p: Pid, pc: Pc) {
    (HasOp(pc) ==> Wellformed(pc.op) && (pc.op.Store? ==> (pc.op.key, pc.op.data) in mem.stored)) &&
    match pc
    case Idle => true
    case Lock(_) => true
    case Scanning(pos) => Boundary(mem, pos)
    case NextLock(pos) => Boundary(mem, pos)
    case Head(op) => KeyFree(mem, op)
    case Walk(op, slot, off, i) =>
      KeyFree(mem, op) && Walking(mem, Chain(op), slot, off, i)
      && forall j :: 0 <= j < i ==> RecOf(mem, mem.lists[Chain(op)][j]).key != op.key
    case Read(op, datoff) => KeyFree(mem, op) && op.Fetch? && LiveAt(mem, op, datoff)
    case DelLock(op, slot, o, next, i) =>
      KeyFree(mem, op) && AtElem(mem, Chain(op), slot, o, next, i) && mem.recs[o].key == op.key
      && !op.Fetch? && (op.Store? ==> op.flag != DB_INSERT)
    case DelBlank(op, slot, o, next, i) =>
      KeyFree(mem, op) && AtElem(mem, Chain(op), slot, o, next, i) && mem.recs[o].key == op.key && mem.dying == None
      && !op.Fetch? && (op.Store? ==> op.flag != DB_INSERT)
    case DelHead(op, slot, o, next, i) =>
      Gap(mem, op, slot, next, i) && Removed(mem, op) && Mine(mem, p, o) && mem.dying == Some(o)
    case DelRec(op, slot, o, next, i, ptr) =>
      Gap(mem, op, slot, next, i) && Removed(mem, op) && Mine(mem, p, o) && mem.dying == Some(o)
        && ptr == ValAt(mem.lists[0], 0)
    case DelFree(op, slot, o, next, i) =>
      Gap(mem, op, slot, next, i) && Removed(mem, op) && Mine(mem, p, o) && mem.dying == None
      && mem.ptrs[o] == ValAt(mem.lists[0], 0) && Blank(mem.recs[o].key)
    case DelChain(op, slot, next, i) => Gap(mem, op, slot, next, i) && Removed(mem, op) && mem.dying == None
    case DelUnlock(op) => Chain(op) !in mem.hole && Removed(mem, op) && mem.dying == None
    case InsHead(op, reuse) => Inserting(mem, op, reuse)
    case FreeLock(op, ptr) => InsertingAt(mem, op, true, ptr)
    case FreeHead(op, ptr) => InsertingAt(mem, op, true, ptr) && mem.dying == None
    case FreeWalk(op, ptr, slot, off, i) =>
      InsertingAt(mem, op, true, ptr) && Walking(mem, 0, slot, off, i) && mem.dying == None
    case FreeTake(op, ptr, slot, o, next, i) =>
      InsertingAt(mem, op, true, ptr) && AtElem(mem, 0, slot, o, next, i) && Fits(mem.recs[o], |op.key|, |op.data| + 1)
        && mem.dying == None
    case FreeUnlock(op, ptr, got) =>
      InsertingAt(mem, op, true, ptr) && (got.Some? ==> Spare(mem, p, op, got.value)) && mem.dying == None
    case FillDat(op, ptr, o) => InsertingAt(mem, op, true, ptr) && Spare(mem, p, op, o)
    case FillIdx(op, ptr, o) =>
      InsertingAt(mem, op, true, ptr) && Spare(mem, p, op, o) && HasData(mem, mem.recs[o].datoff, op.data)
    case DatLock(op, reuse, ptr) => InsertingAt(mem, op, reuse, ptr)
    case DatSeek(op, reuse, ptr) => InsertingAt(mem, op, reuse, ptr)
    case DatWrite(op, reuse, ptr, at) => InsertingAt(mem, op, reuse, ptr) && at == mem.deof
    case DatUnlock(op, reuse, ptr, at) => InsertingAt(mem, op, reuse, ptr) && MyCell(mem, p, op, at)
    case IdxLock(op, reuse, ptr, at) => InsertingAt(mem, op, reuse, ptr) && MyCell(mem, p, op, at)
    case IdxSeek(op, reuse, ptr, at) => InsertingAt(mem, op, reuse, ptr) && MyCell(mem, p, op, at)
    case IdxWrite(op, reuse, ptr, at, o) => InsertingAt(mem, op, reuse, ptr) && MyCell(mem, p, op, at) && o == mem.eof
    case IdxUnlock(op, reuse, o) => Inserting(mem, op, reuse) && NewRec(mem, p, op, o)
    case SetHead(op, reuse, o) => Inserting(mem, op, reuse) && NewRec(mem, p, op, o)
    case Overwrite(op, datoff) =>
      KeyFree(mem, op) && op.Store? && op.flag != DB_INSERT && LiveAt(mem, op, datoff)
        && mem.recs[mem.loc[op.key]].datlen == |op.data| + 1
    case Unlock(op, res) => KeyFree(mem, op)
    case NextHead(pos) => Boundary(mem, pos) && mem.dying == None
    case NextBody(pos) => pos in mem.recs && mem.dying == None
    case NextDat(pos, o, key, datoff) =>
      Boundary(mem, pos) && mem.dying == None
      && o in mem.recs && mem.recs[o].key == key && mem.recs[o].datoff == datoff && !Blank(key)
    case NextUnlock(pos, pair) => Boundary(mem, pos) && mem.dying == None && (pair.Some? ==> pair.value in mem.stored)
  }

  // ---------- what others leave alone ----------

  ghost predicate KeepList(mem: Mem, mem': Mem, k: nat) {
    && |mem.lists| == |mem'.lists| == NLISTS && k < NLISTS && mem'.lists[k] == mem.lists[k]
    && forall o :: o in mem.lists[k] && o in mem.recs ==> o in mem'.recs && mem'.recs[o] == mem.recs[o]
  }

  ghost predicate KeepChain(mem: Mem, mem': Mem, op: Op) {
    && KeepList(mem, mem', Chain(op))
    && Hole(mem', Chain(op)) == Hole(mem, Chain(op))
    && (op.key in mem'.pend <==> op.key in mem.pend)
    && (op.key in mem'.loc <==> op.key in mem.loc)
    && (op.key in mem.loc && op.key in mem'.loc ==> mem'.loc[op.key] == mem.loc[op.key])
  }

  ghost predicate KeepMine(mem: Mem, mem': Mem, q: Pid) {
    && (forall o :: Mine(mem, q, o) ==>
          && Mine(mem', q, o) && mem'.recs[o] == mem.recs[o] && mem'.ptrs[o] == mem.ptrs[o]
          && CellAt(mem', mem.recs[o].datoff) == CellAt(mem, mem.recs[o].datoff))
    && (forall c :: c in mem.cellOwner && mem.cellOwner[c] == q ==>
          c in mem'.cellOwner && mem'.cellOwner[c] == q && CellAt(mem', c) == CellAt(mem, c))
    && mem.cells.Keys <= mem'.cells.Keys
  }

  ghost predicate KeepFree(mem: Mem, mem': Mem, pc: Pc) {
    && (FreeW(pc) || FreeR(pc) ==> KeepList(mem, mem', 0) && mem'.dying == mem.dying)
    && (FreeR(pc) ==> forall o :: o in mem.recs && !Blank(mem.recs[o].key) ==>
          o in mem'.recs && mem'.recs[o] == mem.recs[o])
  }

  ghost predicate KeepEnds(mem: Mem, mem': Mem, pc: Pc) {
    && (HoldsDat(pc) ==> mem'.deof == mem.deof)
    && (HoldsIdx(pc) ==> mem'.eof == mem.eof)
    && mem.stored <= mem'.stored
    && mem.recs.Keys <= mem'.recs.Keys
    && (forall x :: Boundary(mem, x) ==> Boundary(mem', x))
  }

  /** What a process at `pc` can rely on while another one makes a step. */
  ghost predicate Rely(mem: Mem, mem': Mem, q: Pid, pc: Pc) {
    && (InChain(pc) ==> KeepChain(mem, mem', pc.op))
    && KeepFree(mem, mem', pc)
    && KeepMine(mem, mem', q)
    && KeepEnds(mem, mem', pc)
  }

  /** The key's record is on the key's chain. */
  lemma LiveOnChain(mem: Mem, op: Op)
    requires |mem.lists| == NLISTS && ListsOk(mem.recs, mem.lists, mem.home) && Located(mem.recs, mem.home, mem.loc)
    requires op.key in mem.loc
    ensures mem.loc[op.key] in mem.recs && mem.loc[op.key] in mem.lists[Chain(op)]
  {
  }

  lemma MemberIn(mem: Mem, k: nat, i: nat)
    requires |mem.lists| == NLISTS && ListsOk(mem.recs, mem.lists, mem.home) && k < NLISTS && i < |mem.lists[k]|
    ensures mem.lists[k][i] in mem.recs && mem.lists[k][i] >= REC_START
    ensures mem.lists[k][i] in mem.home && mem.home[mem.lists[k][i]] == k
  {
  }

  predicate AtLive(pc: Pc) {
    pc.Head? || pc.Walk? || pc.Read? || pc.DelLock? || pc.DelBlank? || pc.Overwrite? || pc.Unlock?
  }

  predicate AtDelete(pc: Pc) {
    pc.DelHead? || pc.DelRec? || pc.DelFree? || pc.DelChain? || pc.DelUnlock?
  }

  predicate AtReuse(pc: Pc) {
    pc.InsHead? || pc.FreeLock? || pc.FreeHead? || pc.FreeWalk? || pc.FreeTake? || pc.FreeUnlock? || pc.FillDat?
      || pc.FillIdx?
  }

  predicate AtAppend(pc: Pc) {
    pc.DatLock? || pc.DatSeek? || pc.DatWrite? || pc.DatUnlock? || pc.IdxLock? || pc.IdxSeek? || pc.IdxWrite?
      || pc.IdxUnlock? || pc.SetHead?
  }

  lemma WalkStable(mem: Mem, mem': Mem, q: Pid, pc: Pc)
    requires |mem.lists| == NLISTS && ListsOk(mem.recs, mem.lists, mem.home)
    requires pc.Walk? && PointOk(mem, q, pc) && Rely(mem, mem', q, pc)
    ensures PointOk(mem', q, pc)
  {
  }

  lemma AtElemStable(mem: Mem, mem': Mem, q: Pid, pc: Pc)
    requires (pc.DelLock? || pc.DelBlank?) && PointOk(mem, q, pc) && Rely(mem, mem', q, pc)
    ensures PointOk(mem', q, pc)
  {
  }

  lemma LiveStable(mem: Mem, mem': Mem, q: Pid, pc: Pc)
    requires |mem.lists| == NLISTS && ListsOk(mem.recs, mem.lists, mem.home) && Located(mem.recs, mem.home, mem.loc)
    requires AtLive(pc) && PointOk(mem, q, pc) && Rely(mem, mem', q, pc)
    ensures PointOk(mem', q, pc)
  {
    hide ListsOk, Located, PointOk, Rely;
    if pc.Walk? {
      WalkStable(mem, mem', q, pc);
    } else if pc.DelLock? || pc.DelBlank? {
      AtElemStable(mem, mem', q, pc);
    } else {
      KeyStable(mem, mem', q, pc);
    }
  }

  lemma KeyStable(mem: Mem, mem': Mem, q: Pid, pc: Pc)
    requires |mem.lists| == NLISTS && ListsOk(mem.recs, mem.lists, mem.home) && Located(mem.recs, mem.home, mem.loc)
    requires (pc.Head? || pc.Read? || pc.Overwrite? || pc.Unlock?) && PointOk(mem, q, pc) && Rely(mem, mem', q, pc)
    ensures PointOk(mem', q, pc)
  {
    hide ListsOk, Located, Wellformed, Hash, HeadSlot, Boundary, KeepMine, KeepFree, SlotAt;
    if pc.op.key in mem.loc {
      LiveOnChain(mem, pc.op);
    }
  }

  lemma DeleteStable(mem: Mem, mem': Mem, q: Pid, pc: Pc)
    requires AtDelete(pc) && PointOk(mem, q, pc) && Rely(mem, mem', q, pc)
    ensures PointOk(mem', q, pc)
  {
    hide Wellformed, Hash, HeadSlot, Spaces;
  }

  lemma InsertingStable(mem: Mem, mem': Mem, op: Op, reuse: bool, ptr: nat)
    requires KeepChain(mem, mem', op)
    ensures Inserting(mem, op, reuse) ==> Inserting(mem', op, reuse)
    ensures InsertingAt(mem, op, reuse, ptr) ==> InsertingAt(mem', op, reuse, ptr)
  {
    hide Hash;
  }

  lemma MineStable(mem: Mem, mem': Mem, q: Pid, op: Op, o: nat)
    requires KeepMine(mem, mem', q)
    ensures Spare(mem, q, op, o) ==> Spare(mem', q, op, o)
    ensures MyCell(mem, q, op, o) ==> MyCell(mem', q, op, o)
  {
    hide Blank;
  }

  lemma MineKept(mem: Mem, mem': Mem, q: Pid, o: nat, data: string)
    requires KeepMine(mem, mem', q) && Mine(mem, q, o)
    ensures Mine(mem', q, o) && mem'.recs[o] == mem.recs[o] && mem'.ptrs[o] == mem.ptrs[o]
    ensures HasData(mem, mem.recs[o].datoff, data) ==> HasData(mem', mem'.recs[o].datoff, data)
  {
  }

  lemma NewRecStable(mem: Mem, mem': Mem, q: Pid, op: Op, o: nat)
    requires KeepMine(mem, mem', q) && KeepChain(mem, mem', op) && NewRec(mem, q, op, o)
    ensures NewRec(mem', q, op, o)
  {
    hide Hash, KeepMine, Mine, HasData, HeadSlot;
    assert Mine(mem, q, o);
    MineKept(mem, mem', q, o, op.data);
    assert mem'.lists[Chain(op)] == mem.lists[Chain(op)];
    hide KeepChain;
  }

  lemma FreeListStable(mem: Mem, mem': Mem, q: Pid, pc: Pc)
    requires (pc.FreeWalk? || pc.FreeTake?) && PointOk(mem, q, pc) && KeepFree(mem, mem', pc)
    ensures pc.FreeWalk? ==> Walking(mem', 0, pc.slot, pc.off, pc.i) && mem'.dying == None
    ensures pc.FreeTake? ==>
              AtElem(mem', 0, pc.slot, pc.o, pc.next, pc.i) && mem'.dying == None && mem'.recs[pc.o] == mem.recs[pc.o]
  {
    hide Wellformed, HeadSlot, Spaces, Blank, SlotAt, InsertingAt;
    if pc.FreeTake? {
      assert pc.o in mem.lists[0];
    }
  }

  lemma RelyParts(mem: Mem, mem': Mem, q: Pid, pc: Pc)
    requires Rely(mem, mem', q, pc)
    ensures InChain(pc) ==> KeepChain(mem, mem', pc.op)
    ensures KeepFree(mem, mem', pc) && KeepMine(mem, mem', q) && KeepEnds(mem, mem', pc)
    ensures FreeW(pc) ==> mem'.dying == mem.dying
    ensures mem.stored <= mem'.stored
    ensures HoldsDat(pc) ==> mem'.deof == mem.deof
    ensures HoldsIdx(pc) ==> mem'.eof == mem.eof
  {
    hide KeepChain, KeepMine, KeepList, Boundary, Blank;
  }

  lemma ReuseStable(mem: Mem, mem': Mem, q: Pid, pc: Pc)
    requires AtReuse(pc) && PointOk(mem, q, pc) && Rely(mem, mem', q, pc)
    ensures PointOk(mem', q, pc)
  {
    hide PointOk, Rely, KeepChain, KeepFree, KeepMine, KeepEnds;
    RelyParts(mem, mem', q, pc);
    if pc.FillDat? || pc.FillIdx? {
      FillStable(mem, mem', q, pc);
    } else {
      SearchStable(mem, mem', q, pc);
    }
  }

  lemma SearchStable(mem: Mem, mem': Mem, q: Pid, pc: Pc)
    requires AtReuse(pc) && !pc.FillDat? && !pc.FillIdx? && PointOk(mem, q, pc)
    requires KeepChain(mem, mem', pc.op) && KeepFree(mem, mem', pc) && KeepMine(mem, mem', q)
    requires mem.stored <= mem'.stored && (FreeW(pc) ==> mem'.dying == mem.dying)
    ensures PointOk(mem', q, pc)
  {
    hide Wellformed, Hash, Spare, Inserting, InsertingAt, KeepChain, KeepFree, KeepMine, Walking, AtElem;
    InsertingStable(mem, mem', pc.op, if pc.InsHead? then pc.reuse else true, if pc.InsHead? then 0 else pc.ptr);
    if pc.FreeWalk? || pc.FreeTake? {
      FreeListStable(mem, mem', q, pc);
    } else if pc.FreeUnlock? && pc.got.Some? {
      MineStable(mem, mem', q, pc.op, pc.got.value);
    }
  }

  lemma FillStable(mem: Mem, mem': Mem, q: Pid, pc: Pc)
    requires (pc.FillDat? || pc.FillIdx?) && PointOk(mem, q, pc)
    requires KeepChain(mem, mem', pc.op) && KeepMine(mem, mem', q) && mem.stored <= mem'.stored
    ensures PointOk(mem', q, pc)
  {
    hide Wellformed, Hash, Blank, Inserting, InsertingAt, KeepChain, KeepMine, HasData;
    InsertingStable(mem, mem', pc.op, true, pc.ptr);
    MineStable(mem, mem', q, pc.op, pc.o);
    if pc.FillIdx? {
      MineKept(mem, mem', q, pc.o, pc.op.data);
    }
  }

  lemma AppendStable(mem: Mem, mem': Mem, q: Pid, pc: Pc)
    requires AtAppend(pc) && PointOk(mem, q, pc) && Rely(mem, mem', q, pc)
    ensures PointOk(mem', q, pc)
  {
    hide Wellformed, Hash, Rely, Inserting, InsertingAt, KeepChain, KeepFree, KeepMine, KeepEnds, NewRec, MyCell;
    RelyParts(mem, mem', q, pc);
    InsertingStable(mem, mem', pc.op, pc.reuse, if pc.IdxUnlock? || pc.SetHead? then 0 else pc.ptr);
    if pc.IdxUnlock? || pc.SetHead? {
      NewRecStable(mem, mem', q, pc.op, pc.o);
    } else if !(pc.DatLock? || pc.DatSeek? || pc.DatWrite?) {
      MineStable(mem, mem', q, pc.op, pc.at);
    }
  }

  lemma BoundaryStable(mem: Mem, mem': Mem, pc: Pc, pos: nat)
    requires KeepEnds(mem, mem', pc) && Boundary(mem, pos)
    ensures Boundary(mem', pos)
  {
    hide Boundary;
  }

  lemma FreeRStable(mem: Mem, mem': Mem, pc: Pc)
    requires FreeR(pc) && KeepFree(mem, mem', pc)
    ensures mem'.dying == mem.dying
    ensures pc.NextDat? && pc.o in mem.recs && !Blank(mem.recs[pc.o].key) ==>
        pc.o in mem'.recs && mem'.recs[pc.o] == mem.recs[pc.o]
  {
    hide KeepList, Blank;
  }

  lemma ScanStable(mem: Mem, mem': Mem, q: Pid, pc: Pc)
    requires (!HasOp(pc) || pc.Lock?) && PointOk(mem, q, pc) && Rely(mem, mem', q, pc)
    ensures PointOk(mem', q, pc)
  {
    hide Wellformed, Hash, Blank, Rely, KeepFree, KeepMine, KeepEnds, Boundary;
    RelyParts(mem, mem', q, pc);
    if pc.Scanning? || pc.NextLock? || pc.NextHead? || pc.NextDat? || pc.NextUnlock? {
      BoundaryStable(mem, mem', pc, pc.pos);
    }
    if pc.NextBody? {
      assert mem.recs.Keys <= mem'.recs.Keys by { RecsGrow(mem, mem', pc); }
    }
    if FreeR(pc) {
      FreeRStable(mem, mem', pc);
    }
  }

  lemma RecsGrow(mem: Mem, mem': Mem, pc: Pc)
    requires KeepEnds(mem, mem', pc)
    ensures mem.recs.Keys <= mem'.recs.Keys
  {
  }

  /** A point that agrees with the files keeps agreeing under everything the locks let others do. */
  lemma PointStable(mem: Mem, mem': Mem, q: Pid, pc: Pc)
    requires MemOk(mem) && PointOk(mem, q, pc) && Rely(mem, mem', q, pc)
    ensures PointOk(mem', q, pc)
  {
    hide ListsOk, SlotsOk, Chained, Owned, Located, Mapped, CellsOk, FreeOnes, Seen, Layout, PointOk, Rely;
    if AtLive(pc) {
      LiveStable(mem, mem', q, pc);
    } else if AtDelete(pc) {
      DeleteStable(mem, mem', q, pc);
    } else if AtReuse(pc) {
      ReuseStable(mem, mem', q, pc);
    } else if AtAppend(pc) {
      AppendStable(mem, mem', q, pc);
    } else {
      ScanStable(mem, mem', q, pc);
    }
  }
}
