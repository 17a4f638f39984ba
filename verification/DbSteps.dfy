/**
 db.c for any number of processes: every system call of db_fetch, db_delete, db_store and db_nextrec
 is one atomic step, and the record locks decide which steps are enabled. Files appear as DbIndex
 describes them; module DbStepsBytes shows that the bytes of the two files carry exactly this.
 */
module DbSteps {
  import opened Basics
  import opened DbText
  import opened DbIndex
  import opened DbBytes
  import opened DbFile

  type Pid = nat

  datatype Op = Fetch(key: string) | Delete(key: string) | Store(key: string, data: string, flag: int)
  datatype Res = Data(value: Option<string>) | Code(rc: int)
  datatype Event = Event(pid: Pid, op: Op, res: Res)

  // ---------- the atomic map ----------

  function Result(m: map<string, string>, op: Op): Res {
    match op
    case Fetch(key) => Data(if key in m then Some(m[key]) else None)
    case Delete(key) => Code(if key in m then 0 else -1)
    case Store(key, data, flag) => Code(StoreSpec(m, key, data, flag).0)
  }

  function After(m: map<string, string>, op: Op): map<string, string> {
    match op
    case Fetch(key) => m
    case Delete(key) => m - {key}
    case Store(key, data, flag) => StoreSpec(m, key, data, flag).1
  }

  /** The map after the operations of `hist`, one after the other, on an empty map. */
  function Replay(hist: seq<Event>): map<string, string> {
    if hist == [] then map[] else After(Replay(hist[..|hist| - 1]), hist[|hist| - 1].op)
  }

  /** Every result in `hist` is the one the atomic map gives at that point. */
  ghost predicate Serial(hist: seq<Event>) {
    forall i :: 0 <= i < |hist| ==> hist[i].res == Result(Replay(hist[..i]), hist[i].op)
  }

  /** The events of one process, in order. */
  function Proj(hist: seq<Event>, p: Pid): seq<Event> {
    if hist == [] then []
    else Proj(hist[..|hist| - 1], p) + (if hist[|hist| - 1].pid == p then [hist[|hist| - 1]] else [])
  }

  // ---------- files and locks ----------

  /**
   The two files. `cells` gives the data text at each data offset in use. The last eight fields are
   there for the proof: the lists and the map the files stand for; who owns the records and data that
   are on no list; the one slot of a chain that a deletion has yet to rewrite; the keys whose record
   is being replaced; the record whose data is blank but not yet its key; and every pair that was
   ever passed to a store.
   */
  datatype Mem = Mem(
    ptrs: map<nat, nat>, recs: map<nat, Rec>, cells: map<nat, string>, eof: nat, deof: nat,
    lists: seq<seq<nat>>, home: map<nat, nat>, loc: map<string, nat>, m: map<string, string>,
    owner: map<nat, Pid>, cellOwner: map<nat, Pid>, hole: map<nat, nat>, pend: map<string, Pid>,
    dying: Option<nat>, stored: set<(string, string)>)

  datatype ByteLock = ByteLock(readers: set<Pid>, writer: Option<Pid>)

  /** Lock byte 0 is the free list's, byte h + 1 stands for the first byte of hash slot h. */
  datatype Locks = Locks(bytes: seq<ByteLock>, dat: Option<Pid>, idx: Option<Pid>)

  function Chain(op: Op): (k: nat)
    ensures 1 <= k < NLISTS
  {
    1 + Hash(op.key)
  }

  function PtrAt(mem: Mem, x: nat): nat {
    if x in mem.ptrs then mem.ptrs[x] else 0
  }

  function RecOf(mem: Mem, o: nat): Rec {
    if o in mem.recs then mem.recs[o] else Rec("", 0, 0)
  }

  function CellAt(mem: Mem, c: nat): string {
    if c in mem.cells then mem.cells[c] else ""
  }

  // ---------- processes ----------

  /**
   Where a process stands: the system call it makes next, and the local variables it still needs.
   In the walks `i` counts the records passed; it is there for the proof.
   */
  datatype Pc =
    | Idle
    | Scanning(pos: nat)
    | Lock(op: Op)
    | Head(op: Op)
    | Walk(op: Op, slot: nat, off: nat, i: nat)
    | Read(op: Op, datoff: nat)
    | DelLock(op: Op, slot: nat, o: nat, next: nat, i: nat)
    | DelBlank(op: Op, slot: nat, o: nat, next: nat, i: nat)
    | DelHead(op: Op, slot: nat, o: nat, next: nat, i: nat)
    | DelRec(op: Op, slot: nat, o: nat, next: nat, i: nat, ptr: nat)
    | DelFree(op: Op, slot: nat, o: nat, next: nat, i: nat)
    | DelChain(op: Op, slot: nat, next: nat, i: nat)
    | DelUnlock(op: Op)
    | InsHead(op: Op, reuse: bool)
    | FreeLock(op: Op, ptr: nat)
    | FreeHead(op: Op, ptr: nat)
    | FreeWalk(op: Op, ptr: nat, slot: nat, off: nat, i: nat)
    | FreeTake(op: Op, ptr: nat, slot: nat, o: nat, next: nat, i: nat)
    | FreeUnlock(op: Op, ptr: nat, got: Option<nat>)
    | FillDat(op: Op, ptr: nat, o: nat)
    | FillIdx(op: Op, ptr: nat, o: nat)
    | DatLock(op: Op, reuse: bool, ptr: nat)
    | DatSeek(op: Op, reuse: bool, ptr: nat)
    | DatWrite(op: Op, reuse: bool, ptr: nat, at: nat)
    | DatUnlock(op: Op, reuse: bool, ptr: nat, at: nat)
    | IdxLock(op: Op, reuse: bool, ptr: nat, at: nat)
    | IdxSeek(op: Op, reuse: bool, ptr: nat, at: nat)
    | IdxWrite(op: Op, reuse: bool, ptr: nat, at: nat, o: nat)
    | IdxUnlock(op: Op, reuse: bool, o: nat)
    | SetHead(op: Op, reuse: bool, o: nat)
    | Overwrite(op: Op, datoff: nat)
    | Unlock(op: Op, res: Res)
    | NextLock(pos: nat)
    | NextHead(pos: nat)
    | NextBody(pos: nat)
    | NextDat(pos: nat, o: nat, key: string, datoff: nat)
    | NextUnlock(pos: nat, pair: Option<(string, string)>)

  /** `log` lists the calls that have returned to this process, with their results. */
  datatype Proc = Proc(pc: Pc, log: seq<Event>)

  datatype Sys = Sys(mem: Mem, locks: Locks, procs: map<Pid, Proc>, hist: seq<Event>)

  predicate HasOp(pc: Pc) {
    !(pc.Idle? || pc.Scanning? || pc.NextLock? || pc.NextHead? || pc.NextBody? || pc.NextDat? || pc.NextUnlock?)
  }

  predicate InChain(pc: Pc) {
    HasOp(pc) && !pc.Lock?
  }

  predicate FreeW(pc: Pc) {
    pc.DelBlank? || pc.DelHead? || pc.DelRec? || pc.DelFree? || pc.DelChain? || pc.DelUnlock?
    || pc.FreeHead? || pc.FreeWalk? || pc.FreeTake? || pc.FreeUnlock?
  }

  predicate FreeR(pc: Pc) {
    pc.NextHead? || pc.NextBody? || pc.NextDat? || pc.NextUnlock?
  }

  predicate HoldsW(pc: Pc, k: nat) {
    if k == 0 then FreeW(pc) else InChain(pc) && !pc.op.Fetch? && k == Chain(pc.op)
  }

  predicate HoldsR(pc: Pc, k: nat) {
    if k == 0 then FreeR(pc) else InChain(pc) && pc.op.Fetch? && k == Chain(pc.op)
  }

  predicate HoldsDat(pc: Pc) {
    pc.DatSeek? || pc.DatWrite? || pc.DatUnlock?
  }

  predicate HoldsIdx(pc: Pc) {
    pc.IdxSeek? || pc.IdxWrite? || pc.IdxUnlock?
  }

  // ---------- what each writing call does to the files ----------

  /** The record's data becomes blanks; the record leaves its chain and belongs to p. */
  function Blanked(mem: Mem, p: Pid, op: Op, slot: nat, o: nat, i: nat): Mem
    requires |mem.lists| == NLISTS && i < |mem.lists[Chain(op)]|
  {
    var r := RecOf(mem, o);
    mem.(cells := mem.cells[r.datoff := Spaces(if r.datlen == 0 then 0 else r.datlen - 1)],
         lists := mem.lists[Chain(op) := RemoveAt(mem.lists[Chain(op)], i)], home := mem.home - {o},
         owner := mem.owner[o := p], hole := mem.hole[Chain(op) := slot], dying := Some(o),
         loc := mem.loc - {op.key},
         m := if op.Delete? then mem.m - {op.key} else mem.m,
         pend := if op.Delete? then mem.pend else mem.pend[op.key := p])
  }

  /** The record's key becomes blanks and its pointer the head of the free list. */
  function Rewritten(mem: Mem, o: nat, ptr: nat): Mem {
    var r := RecOf(mem, o);
    mem.(recs := mem.recs[o := Rec(Spaces(|r.key|), r.datoff, r.datlen)], ptrs := mem.ptrs[o := ptr], dying := None)
  }

  /** The free-list slot points to the record. */
  function Freed(mem: Mem, o: nat): Mem
    requires |mem.lists| == NLISTS
  {
    mem.(ptrs := mem.ptrs[FREE_OFF := o], lists := mem.lists[0 := [o] + mem.lists[0]],
         home := mem.home[o := 0], owner := mem.owner - {o})
  }

  /** The slot that pointed to the deleted record points to its old successor. */
  function Unhooked(mem: Mem, op: Op, slot: nat, next: nat): Mem {
    mem.(ptrs := mem.ptrs[slot := next], hole := mem.hole - {Chain(op)})
  }

  /** The i-th free record leaves the free list and belongs to p. */
  function TakenFree(mem: Mem, p: Pid, slot: nat, o: nat, next: nat, i: nat): Mem
    requires |mem.lists| == NLISTS && i < |mem.lists[0]|
  {
    mem.(ptrs := mem.ptrs[slot := next], lists := mem.lists[0 := RemoveAt(mem.lists[0], i)],
         home := mem.home - {o}, owner := mem.owner[o := p])
  }

  function FilledDat(mem: Mem, op: Op, o: nat): Mem
    requires op.Store?
  {
    mem.(cells := mem.cells[RecOf(mem, o).datoff := op.data])
  }

  function FilledIdx(mem: Mem, op: Op, ptr: nat, o: nat): Mem
    requires op.Store?
  {
    mem.(recs := mem.recs[o := Rec(op.key, RecOf(mem, o).datoff, |op.data| + 1)], ptrs := mem.ptrs[o := ptr])
  }

  function GrownDat(mem: Mem, p: Pid, op: Op, at: nat): Mem
    requires op.Store?
  {
    mem.(cells := mem.cells[at := op.data], deof := at + |op.data| + 1, cellOwner := mem.cellOwner[at := p])
  }

  function GrownIdx(mem: Mem, p: Pid, op: Op, ptr: nat, at: nat, o: nat): Mem
    requires op.Store?
  {
    var r := Rec(op.key, at, |op.data| + 1);
    mem.(recs := mem.recs[o := r], ptrs := mem.ptrs[o := ptr], eof := o + RecSize(r),
         owner := mem.owner[o := p], cellOwner := mem.cellOwner - {at})
  }

  /** The chain's head slot points to the new record: the store takes effect. */
  function Headed(mem: Mem, op: Op, o: nat): Mem
    requires op.Store? && |mem.lists| == NLISTS
  {
    mem.(ptrs := mem.ptrs[HeadSlot(Chain(op)) := o], lists := mem.lists[Chain(op) := [o] + mem.lists[Chain(op)]],
         home := mem.home[o := Chain(op)], owner := mem.owner - {o}, loc := mem.loc[op.key := o],
         m := mem.m[op.key := op.data], pend := mem.pend - {op.key})
  }

  function Overwritten(mem: Mem, op: Op, datoff: nat): Mem
    requires op.Store?
  {
    mem.(cells := mem.cells[datoff := op.data], m := mem.m[op.key := op.data])
  }

  // ---------- steps ----------

  predicate CanWrite(b: ByteLock) {
    b.readers == {} && b.writer == None
  }

  predicate CanRead(b: ByteLock) {
    b.writer == None
  }

  /** A process that is inside a call can make its next system call: only locks can hold it up. */
  predicate Enabled(s: Sys, p: Pid)
    requires |s.locks.bytes| == NLISTS
  {
    p in s.procs &&
    match s.procs[p].pc
    case Idle => false
    case Scanning(_) => false
    case Lock(op) => if op.Fetch? then CanRead(s.locks.bytes[Chain(op)]) else CanWrite(s.locks.bytes[Chain(op)])
    case DelLock(_, _, _, _, _) => CanWrite(s.locks.bytes[0])
    case FreeLock(_, _) => CanWrite(s.locks.bytes[0])
    case NextLock(_) => CanRead(s.locks.bytes[0])
    case DatLock(_, _, _) => s.locks.dat == None
    case IdxLock(_, _, _, _) => s.locks.idx == None
    case _ => true
  }

  /** What the call leads to inside the calling process. */
  datatype Effect = Effect(mem: Mem, pc: Pc, event: Option<Res>)

  function Local(mem: Mem, pc: Pc): Effect {
    Effect(mem, pc, None)
  }

  /** The walk of `_db_find_and_lock` and what its caller does with the outcome. */
  function WalkStep(mem: Mem, op: Op, slot: nat, off: nat, i: nat): Effect {
    var r, next := RecOf(mem, off), PtrAt(mem, off);
    if off == 0 then
      if op.Store? && op.flag != DB_REPLACE then Local(mem, InsHead(op, true))
      else
        var res := if op.Fetch? then Data(None) else Code(-1);
        Effect(mem, Unlock(op, res), Some(res))
    else if r.key != op.key then Local(mem, Walk(op, off, next, i + 1))
    else match op
      case Fetch(_) => Local(mem, Read(op, r.datoff))
      case Delete(_) => Local(mem, DelLock(op, slot, off, next, i))
      case Store(_, data, flag) =>
        if flag == DB_INSERT then Effect(mem, Unlock(op, Code(1)), Some(Code(1)))
        else if r.datlen != |data| + 1 then Local(mem, DelLock(op, slot, off, next, i))
        else Local(mem, Overwrite(op, r.datoff))
  }

  function FreeWalkStep(mem: Mem, op: Op, ptr: nat, slot: nat, off: nat, i: nat): Effect
    requires op.Store?
  {
    var r, next := RecOf(mem, off), PtrAt(mem, off);
    if off == 0 then Local(mem, FreeUnlock(op, ptr, None))
    else if Fits(r, |op.key|, |op.data| + 1) then Local(mem, FreeTake(op, ptr, slot, off, next, i))
    else Local(mem, FreeWalk(op, ptr, off, next, i + 1))
  }

  function NextBodyStep(mem: Mem, pos: nat): Effect {
    var r := RecOf(mem, pos);
    var pos' := pos + RecSize(r);
    if Blank(r.key) then Local(mem, NextHead(pos')) else Local(mem, NextDat(pos', pos, r.key, r.datoff))
  }

  /** The positions in the walks are within the lists, and insertions belong to stores. */
  predicate Sane(mem: Mem, pc: Pc) {
    && |mem.lists| == NLISTS
    && (pc.DelBlank? ==> pc.i < |mem.lists[Chain(pc.op)]|)
    && (pc.FreeTake? ==> pc.i < |mem.lists[0]|)
    && (ForStore(pc) ==> pc.op.Store?)
  }

  predicate ForStore(pc: Pc) {
    || pc.InsHead? || pc.FreeLock? || pc.FreeHead? || pc.FreeWalk? || pc.FreeTake? || pc.FreeUnlock?
    || pc.FillDat? || pc.FillIdx? || pc.DatLock? || pc.DatSeek? || pc.DatWrite? || pc.DatUnlock?
    || pc.IdxLock? || pc.IdxSeek? || pc.IdxWrite? || pc.IdxUnlock?
    || pc.SetHead? || pc.Overwrite?
  }

  function CallEffect(mem: Mem, p: Pid, pc: Pc): Effect
    requires Sane(mem, pc)
  {
    match pc
    case Idle => Local(mem, pc)
    case Scanning(_) => Local(mem, pc)
    case Lock(op) => Local(mem, Head(op))
    case Head(op) => Local(mem, Walk(op, HeadSlot(Chain(op)), PtrAt(mem, HeadSlot(Chain(op))), 0))
    case Walk(op, slot, off, i) => WalkStep(mem, op, slot, off, i)
    case Read(op, datoff) =>
      var res := Data(Some(CellAt(mem, datoff)));
      Effect(mem, Unlock(op, res), Some(res))
    case DelLock(op, slot, o, next, i) => Local(mem, DelBlank(op, slot, o, next, i))
    case DelBlank(op, slot, o, next, i) =>
      Effect(Blanked(mem, p, op, slot, o, i), DelHead(op, slot, o, next, i), if op.Delete? then Some(Code(0)) else None)
    case DelHead(op, slot, o, next, i) => Local(mem, DelRec(op, slot, o, next, i, PtrAt(mem, FREE_OFF)))
    case DelRec(op, slot, o, next, i, ptr) => Local(Rewritten(mem, o, ptr), DelFree(op, slot, o, next, i))
    case DelFree(op, slot, o, next, i) => Local(Freed(mem, o), DelChain(op, slot, next, i))
    case DelChain(op, slot, next, i) => Local(Unhooked(mem, op, slot, next), DelUnlock(op))
    case DelUnlock(op) => Local(mem, if op.Store? then InsHead(op, false) else Unlock(op, Code(0)))
    case InsHead(op, reuse) =>
      var ptr := PtrAt(mem, HeadSlot(Chain(op)));
      Local(mem, if reuse then FreeLock(op, ptr) else DatLock(op, reuse, ptr))
    case FreeLock(op, ptr) => Local(mem, FreeHead(op, ptr))
    case FreeHead(op, ptr) => Local(mem, FreeWalk(op, ptr, FREE_OFF, PtrAt(mem, FREE_OFF), 0))
    case FreeWalk(op, ptr, slot, off, i) => FreeWalkStep(mem, op, ptr, slot, off, i)
    case FreeTake(op, ptr, slot, o, next, i) => Local(TakenFree(mem, p, slot, o, next, i), FreeUnlock(op, ptr, Some(o)))
    case FreeUnlock(op, ptr, got) =>
      Local(mem, if got.Some? then FillDat(op, ptr, got.value) else DatLock(op, true, ptr))
    case FillDat(op, ptr, o) => Local(FilledDat(mem, op, o), FillIdx(op, ptr, o))
    case FillIdx(op, ptr, o) => Local(FilledIdx(mem, op, ptr, o), SetHead(op, true, o))
    case DatLock(op, reuse, ptr) => Local(mem, DatSeek(op, reuse, ptr))
    case DatSeek(op, reuse, ptr) => Local(mem, DatWrite(op, reuse, ptr, mem.deof))
    case DatWrite(op, reuse, ptr, at) => Local(GrownDat(mem, p, op, at), DatUnlock(op, reuse, ptr, at))
    case DatUnlock(op, reuse, ptr, at) => Local(mem, IdxLock(op, reuse, ptr, at))
    case IdxLock(op, reuse, ptr, at) => Local(mem, IdxSeek(op, reuse, ptr, at))
    case IdxSeek(op, reuse, ptr, at) => Local(mem, IdxWrite(op, reuse, ptr, at, mem.eof))
    case IdxWrite(op, reuse, ptr, at, o) => Local(GrownIdx(mem, p, op, ptr, at, o), IdxUnlock(op, reuse, o))
    case IdxUnlock(op, reuse, o) => Local(mem, SetHead(op, reuse, o))
    case SetHead(op, reuse, o) => Effect(Headed(mem, op, o), Unlock(op, Code(0)), Some(Code(0)))
    case Overwrite(op, datoff) => Effect(Overwritten(mem, op, datoff), Unlock(op, Code(0)), Some(Code(0)))
    case Unlock(op, res) => Local(mem, Idle)
    case NextLock(pos) => Local(mem, NextHead(pos))
    case NextHead(pos) => Local(mem, if pos == mem.eof then NextUnlock(pos, None) else NextBody(pos))
    case NextBody(pos) => NextBodyStep(mem, pos)
    case NextDat(pos, o, key, datoff) => Local(mem, NextUnlock(pos, Some((key, CellAt(mem, datoff)))))
    case NextUnlock(pos, pair) => Local(mem, Scanning(pos))
  }

  function SetByte(b: ByteLock, p: Pid, r: bool, w: bool): ByteLock {
    ByteLock(if r then b.readers + {p} else b.readers - {p},
             if w then Some(p) else if b.writer == Some(p) then None else b.writer)
  }

  /** The locks after p moved from a point where it held some to a point where it holds others. */
  function Relock(l: Locks, p: Pid, pc': Pc): Locks
    requires |l.bytes| == NLISTS
  {
    Locks(seq(NLISTS, k requires 0 <= k < NLISTS => SetByte(l.bytes[k], p, HoldsR(pc', k), HoldsW(pc', k))),
          if HoldsDat(pc') then Some(p) else if l.dat == Some(p) then None else l.dat,
          if HoldsIdx(pc') then Some(p) else if l.idx == Some(p) then None else l.idx)
  }

  /** One system call of process p. */
  function Step(s: Sys, p: Pid): Sys
    requires |s.locks.bytes| == NLISTS && p in s.procs && Sane(s.mem, s.procs[p].pc)
  {
    var pc := s.procs[p].pc;
    var e := CallEffect(s.mem, p, pc);
    var log := if pc.Unlock? then s.procs[p].log + [Event(p, pc.op, pc.res)] else s.procs[p].log;
    Sys(e.mem, Relock(s.locks, p, e.pc), s.procs[p := Proc(e.pc, log)],
        if e.event.Some? then s.hist + [Event(p, pc.op, e.event.value)] else s.hist)
  }

  /** What a caller may ask for: no NUL or `:` in a stored key, a valid flag, data of a valid size. */
  predicate Wellformed(op: Op) {
    CString(op.key) &&
    (op.Store? ==>
       SEP !in op.key && CString(op.data) && DataSizeOk(op.data) && op.flag in {DB_INSERT, DB_REPLACE, DB_STORE})
  }

  function Begin(s: Sys, p: Pid, pc: Pc): Sys
    requires p in s.procs
  {
    s.(procs := s.procs[p := s.procs[p].(pc := pc)],
       mem := if pc.Lock? && pc.op.Store? then s.mem.(stored := s.mem.stored + {(pc.op.key, pc.op.data)}) else s.mem)
  }

  /** A process starts a call, rewinds, asks for the next record or drops its scan. */
  ghost predicate Begins(s: Sys, s': Sys, p: Pid) {
    && p in s.procs
    && (s.procs[p].pc.Idle? || s.procs[p].pc.Scanning?)
    && ((exists op :: Wellformed(op) && s' == Begin(s, p, Lock(op)))
        || s' == Begin(s, p, Scanning(REC_START))
        || (s.procs[p].pc.Scanning? && s' == Begin(s, p, NextLock(s.procs[p].pc.pos))))
  }

  ghost predicate Next(s: Sys, s': Sys, p: Pid) {
    || Begins(s, s', p)
    || (|s.locks.bytes| == NLISTS && Enabled(s, p) && Sane(s.mem, s.procs[p].pc) && s' == Step(s, p))
  }

  /** A freshly created database, and processes that have not called anything yet. */
  ghost predicate Init(s: Sys) {
    && s.mem == Mem(map x | 0 <= x < REC_START - 1 && x % PTR_SZ == 0 :: 0, map[], map[], REC_START, 0,
                    seq(NLISTS, _ => []), map[], map[], map[], map[], map[], map[], map[], None, {})
    && s.locks == Locks(seq(NLISTS, _ => ByteLock({}, None)), None, None)
    && (forall p :: p in s.procs ==> s.procs[p] == Proc(Idle, []))
    && s.hist == []
  }
}
