/**
 mutex3.c: the same table with everything under hashlock. foo_rele decrements first and unlinks at 0; an
 object's own lock is only taken by the thread that allocates it.
 */
module FooOneLock {
  import opened Basics
  import opened FooTable
  import opened FooMoves

  /** The next access of a thread and the local variables it still needs; `i` is a position in the chain. */
  datatype Pc =
    | Idle
    // foo_alloc
    | AllocLock(o: Ref) | AllocNext(o: Ref) | AllocHead(o: Ref) | AllocFLock(o: Ref) | AllocHUnlock(o: Ref)
    | AllocFUnlock(o: Ref)
    // foo_hold
    | HoldLock(o: Ref) | HoldInc(o: Ref)
    // foo_find
    | FindLock(id: int) | FindHead(id: int) | FindWalk(id: int, fp: Option<Ref>, i: nat)
    | FindInc(id: int, o: Ref, i: nat)
    // foo_rele
    | ReleLock(o: Ref) | ReleDec(o: Ref)
    | ReleHead(o: Ref) | ReleWalk(o: Ref, tfp: Ref, i: nat) | ReleUnlink0(o: Ref) | ReleUnlink(o: Ref, tfp: Ref, i: nat)
    | ReleUnlock(o: Ref) | ReleFree(o: Ref)
    // the unlock of hashlock before a call returns
    | Unlock

  datatype Sys = Sys(t: Table, locks: Locks, pcs: map<Tid, Pc>)

  predicate HoldsH(pc: Pc) {
    || pc.AllocNext? || pc.AllocHead? || pc.AllocFLock? || pc.AllocHUnlock? || pc.HoldInc?
    || pc.FindHead? || pc.FindWalk? || pc.FindInc?
    || pc.ReleDec? || pc.ReleHead? || pc.ReleWalk? || pc.ReleUnlink0? || pc.ReleUnlink? || pc.ReleUnlock? || pc.Unlock?
  }

  /** The object whose lock the thread has. */
  function HoldsF(pc: Pc): Option<Ref> {
    if pc.AllocHUnlock? || pc.AllocFUnlock? then Some(pc.o) else None
  }

  /** The object only this thread can reach: not yet in the table, or no longer. */
  function PrivateOf(pc: Pc): Option<Ref> {
    if pc.AllocLock? || pc.AllocNext? || pc.AllocHead? || pc.ReleUnlock? || pc.ReleFree? then Some(pc.o) else None
  }

  /** The object whose count this thread has taken to 0 and that is still on its chain. */
  function DyingOf(pc: Pc): Option<Ref> {
    if pc.ReleHead? || pc.ReleWalk? || pc.ReleUnlink0? || pc.ReleUnlink? then Some(pc.o) else None
  }

  /** The objects whose memory the thread's next access touches. */
  function Touches(pc: Pc): set<Ref> {
    if pc.Idle? || pc.FindLock? || pc.FindHead? || pc.Unlock? || pc.AllocHead? || pc.AllocHUnlock?
       || pc.AllocLock? || pc.HoldLock? || pc.ReleLock? || pc.ReleUnlock? then {}
    else if pc.FindWalk? then (if pc.fp.Some? then {pc.fp.value} else {})
    else if pc.ReleWalk? || pc.ReleUnlink? then {pc.o, pc.tfp}
    else {pc.o}
  }

  // ---------- steps ----------

  predicate Enabled(s: Sys, u: Tid) {
    u in s.pcs &&
    match s.pcs[u]
    case Idle => false
    case AllocLock(_) => s.locks.hash == None
    case HoldLock(_) => s.locks.hash == None
    case FindLock(_) => s.locks.hash == None
    case ReleLock(_) => s.locks.hash == None
    case AllocFLock(o) => o !in s.locks.obj
    case _ => true
  }

  datatype Effect = Effect(t: Table, pc: Pc, act: Act)

  function Access(t: Table, u: Tid, pc: Pc): Effect {
    match pc
    case Idle => Effect(t, Idle, Tau)
    case AllocLock(o) => Effect(t, AllocNext(o), Tau)
    case AllocNext(o) => Effect(Put(t, o, ObjAt(t, o).(next := HeadAt(t, ObjAt(t, o).id))), AllocHead(o), Tau)
    case AllocHead(o) => Effect(PublishEffect(t, o), AllocFLock(o), Insert(o, ObjAt(t, o).id))
    case AllocFLock(o) => Effect(t, AllocHUnlock(o), Tau)
    case AllocHUnlock(o) => Effect(t, AllocFUnlock(o), Tau)
    case AllocFUnlock(o) => Effect(t, Idle, Tau)
    case HoldLock(o) => Effect(t, HoldInc(o), Tau)
    case HoldInc(o) => Effect(Put(t, o, Counted(ObjAt(t, o), u)), Unlock, Hold(o))
    case FindLock(id) => Effect(t, FindHead(id), Tau)
    case FindHead(id) => Effect(t, FindWalk(id, HeadAt(t, id), 0), Tau)
    case FindWalk(id, fp, i) =>
      if fp == None then Effect(t, Unlock, Missed(id))
      else if ObjAt(t, fp.value).id == id then Effect(t, FindInc(id, fp.value, i), Tau)
      else Effect(t, FindWalk(id, ObjAt(t, fp.value).next, i + 1), Tau)
    case FindInc(id, o, i) => Effect(Put(t, o, Counted(ObjAt(t, o), u)), Unlock, Found(id, o))
    case ReleLock(o) => Effect(t, ReleDec(o), Tau)
    case ReleDec(o) =>
      if ObjAt(t, o).count - 1 == 0 then Effect(Put(t, o, ObjAt(t, o).(count := 0)), ReleHead(o), Tau)
      else Effect(Put(t, o, Uncounted(ObjAt(t, o), u)), Unlock, Drop(o))
    case ReleHead(o) =>
      var tfp := HeadAt(t, ObjAt(t, o).id);
      Effect(t, if tfp == Some(o) then ReleUnlink0(o) else ReleWalk(o, if tfp.Some? then tfp.value else o, 0), Tau)
    case ReleWalk(o, tfp, i) =>
      var next := ObjAt(t, tfp).next;
      Effect(t, if next == Some(o) then ReleUnlink(o, tfp, i)
                else ReleWalk(o, if next.Some? then next.value else o, i + 1), Tau)
    case ReleUnlink0(o) => Effect(UnlinkEffect(t, u, o, 0), ReleUnlock(o), Drop(o))
    case ReleUnlink(o, tfp, i) => Effect(UnlinkEffect(t, u, o, i + 1), ReleUnlock(o), Drop(o))
    case ReleUnlock(o) => Effect(t, ReleFree(o), Tau)
    case ReleFree(o) => Effect(Put(t, o, ObjAt(t, o).(freed := true, priv := None, holders := multiset{})), Idle, Tau)
    case Unlock => Effect(t, Idle, Tau)
  }

  function Step(s: Sys, u: Tid): Sys
    requires u in s.pcs
  {
    var e := Access(s.t, u, s.pcs[u]);
    Sys(e.t, Relock(s.locks, u, HoldsH(e.pc), HoldsF(e.pc)), s.pcs[u := e.pc])
  }

  /** malloc and the initialisation that nobody else can see. */
  function New(s: Sys, u: Tid, o: Ref, id: int): Sys {
    s.(t := Put(s.t, o, Obj(id, 1, None, multiset{u}, Some(u), false)), pcs := s.pcs[u := AllocLock(o)])
  }

  /** u hands one of its references to v. */
  function Given(s: Sys, u: Tid, v: Tid, o: Ref): Sys {
    s.(t := Put(s.t, o, ObjAt(s.t, o).(holders := ObjAt(s.t, o).holders - multiset{u} + multiset{v})))
  }

  /** A thread that is not inside a call starts one, for a reference it has, or hands a reference on. */
  ghost predicate Begins(s: Sys, s': Sys, u: Tid) {
    && u in s.pcs && s.pcs[u].Idle?
    && ((exists o, id :: o !in s.t.objs && s' == New(s, u, o, id))
        || (exists id :: s' == s.(pcs := s.pcs[u := FindLock(id)]))
        || (exists o :: u in ObjAt(s.t, o).holders
              && (s' == s.(pcs := s.pcs[u := HoldLock(o)]) || s' == s.(pcs := s.pcs[u := ReleLock(o)])))
        || (exists o, v :: u in ObjAt(s.t, o).holders && v in s.pcs && s' == Given(s, u, v, o)))
  }

  ghost predicate Next(s: Sys, s': Sys, u: Tid) {
    Begins(s, s', u) || (Enabled(s, u) && s' == Step(s, u))
  }

  ghost predicate Init(s: Sys) {
    && s.t == Table(map[], seq(NHASH, _ => None), seq(NHASH, _ => []), map[])
    && s.locks == Locks(None, map[])
    && forall u :: u in s.pcs ==> s.pcs[u] == Idle
  }
}
