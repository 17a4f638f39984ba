/**
 mutex2.c: the table under hashlock, the count of each object under its own lock, every pointer or
 count access one step, and any number of threads. foo_rele lets go of an object's lock before it takes
 hashlock, and looks at the count again afterwards.
 */
module FooTwoLocks {
  import opened Basics
  import opened FooTable
  import opened FooMoves

  /** The next access of a thread and the local variables it still needs; `i` is a position in the chain. */
  datatype Pc =
    | Idle
    // foo_alloc
    | AllocLock(o: Ref) | AllocNext(o: Ref) | AllocHead(o: Ref) | AllocFLock(o: Ref) | AllocHUnlock(o: Ref)
    | AllocFUnlock(o: Ref)
    // foo_hold
    | HoldLock(o: Ref) | HoldInc(o: Ref) | HoldUnlock(o: Ref)
    // foo_find
    | FindLock(id: int) | FindHead(id: int) | FindWalk(id: int, fp: Option<Ref>, i: nat)
    | FindFLock(id: int, o: Ref, i: nat) | FindInc(id: int, o: Ref, i: nat) | FindFUnlock(o: Ref) | FindHUnlock
    // foo_rele
    | ReleLock(o: Ref) | ReleTest(o: Ref) | ReleDec(o: Ref) | ReleDone(o: Ref)
    | ReleDrop(o: Ref) | ReleHLock(o: Ref) | ReleRelock(o: Ref) | ReleRetest(o: Ref)
    | ReleDec2(o: Ref) | ReleFUnlock2(o: Ref) | ReleHUnlock2
    | ReleHead(o: Ref) | ReleWalk(o: Ref, tfp: Ref, i: nat) | ReleUnlink0(o: Ref) | ReleUnlink(o: Ref, tfp: Ref, i: nat)
    | ReleHUnlock(o: Ref) | ReleFUnlock(o: Ref) | ReleFree(o: Ref)

  datatype Sys = Sys(t: Table, locks: Locks, pcs: map<Tid, Pc>)

  predicate HoldsH(pc: Pc) {
    || pc.AllocNext? || pc.AllocHead? || pc.AllocFLock? || pc.AllocHUnlock?
    || pc.FindHead? || pc.FindWalk? || pc.FindFLock? || pc.FindInc? || pc.FindFUnlock? || pc.FindHUnlock?
    || pc.ReleRelock? || pc.ReleRetest? || pc.ReleDec2? || pc.ReleFUnlock2? || pc.ReleHUnlock2?
    || pc.ReleHead? || pc.ReleWalk? || pc.ReleUnlink0? || pc.ReleUnlink? || pc.ReleHUnlock?
  }

  /** The object whose lock the thread has. */
  function HoldsF(pc: Pc): Option<Ref> {
    if pc.AllocHUnlock? || pc.AllocFUnlock? || pc.HoldInc? || pc.HoldUnlock? || pc.FindInc? || pc.FindFUnlock?
       || pc.ReleTest? || pc.ReleDec? || pc.ReleDone? || pc.ReleDrop? || pc.ReleRetest? || pc.ReleDec2?
       || pc.ReleFUnlock2?
       || pc.ReleHead? || pc.ReleWalk? || pc.ReleUnlink0? || pc.ReleUnlink? || pc.ReleHUnlock? || pc.ReleFUnlock?
    then Some(pc.o) else None
  }

  /** The object only this thread can reach: not yet in the table, or no longer. */
  function PrivateOf(pc: Pc): Option<Ref> {
    if pc.AllocLock? || pc.AllocNext? || pc.AllocHead? || pc.ReleHUnlock? || pc.ReleFUnlock? || pc.ReleFree?
    then Some(pc.o) else None
  }

  /** The objects whose memory the thread's next access touches. */
  function Touches(pc: Pc): set<Ref> {
    if pc.Idle? || pc.FindLock? || pc.FindHead? || pc.FindHUnlock? || pc.ReleHUnlock2?
       || pc.AllocHead? || pc.AllocHUnlock?
       || pc.AllocLock? || pc.ReleHLock? || pc.ReleHUnlock? then {}
    else if pc.FindWalk? then (if pc.fp.Some? then {pc.fp.value} else {})
    else if pc.ReleWalk? || pc.ReleUnlink? then {pc.o, pc.tfp}
    else {pc.o}
  }

  // ---------- steps ----------

  predicate Enabled(s: Sys, u: Tid) {
    u in s.pcs &&
    match s.pcs[u]
    case Idle => false
    case AllocLock(_) => s.locks.hash == None
    case FindLock(_) => s.locks.hash == None
    case ReleHLock(_) => s.locks.hash == None
    case AllocFLock(o) => o !in s.locks.obj
    case HoldLock(o) => o !in s.locks.obj
    case FindFLock(_, o, _) => o !in s.locks.obj
    case ReleLock(o) => o !in s.locks.obj
    case ReleRelock(o) => o !in s.locks.obj
    case _ => true
  }

  datatype Effect = Effect(t: Table, pc: Pc, act: Act)

  function Access(t: Table, u: Tid, pc: Pc): Effect {
    match pc
    case Idle => Effect(t, Idle, Tau)
    case AllocLock(o) => Effect(t, AllocNext(o), Tau)
    case AllocNext(o) => Effect(Put(t, o, ObjAt(t, o).(next := HeadAt(t, ObjAt(t, o).id))), AllocHead(o), Tau)
    case AllocHead(o) => Effect(PublishEffect(t, o), AllocFLock(o), Insert(o, ObjAt(t, o).id))
    case AllocFLock(o) => Effect(t, AllocHUnlock(o), Tau)
    case AllocHUnlock(o) => Effect(t, AllocFUnlock(o), Tau)
    case AllocFUnlock(o) => Effect(t, Idle, Tau)
    case HoldLock(o) => Effect(t, HoldInc(o), Tau)
    case HoldInc(o) => Effect(Put(t, o, Counted(ObjAt(t, o), u)), HoldUnlock(o), Hold(o))
    case HoldUnlock(o) => Effect(t, Idle, Tau)
    case FindLock(id) => Effect(t, FindHead(id), Tau)
    case FindHead(id) => Effect(t, FindWalk(id, HeadAt(t, id), 0), Tau)
    case FindWalk(id, fp, i) =>
      if fp == None then Effect(t, FindHUnlock, Missed(id))
      else if ObjAt(t, fp.value).id == id then Effect(t, FindFLock(id, fp.value, i), Tau)
      else Effect(t, FindWalk(id, ObjAt(t, fp.value).next, i + 1), Tau)
    case FindFLock(id, o, i) => Effect(t, FindInc(id, o, i), Tau)
    case FindInc(id, o, i) => Effect(Put(t, o, Counted(ObjAt(t, o), u)), FindFUnlock(o), Found(id, o))
    case FindFUnlock(o) => Effect(t, FindHUnlock, Tau)
    case FindHUnlock => Effect(t, Idle, Tau)
    case ReleLock(o) => Effect(t, ReleTest(o), Tau)
    case ReleTest(o) => Effect(t, if ObjAt(t, o).count == 1 then ReleDrop(o) else ReleDec(o), Tau)
    case ReleDec(o) => Effect(Put(t, o, Uncounted(ObjAt(t, o), u)), ReleDone(o), Drop(o))
    case ReleDone(o) => Effect(t, Idle, Tau)
    case ReleDrop(o) => Effect(t, ReleHLock(o), Tau)
    case ReleHLock(o) => Effect(t, ReleRelock(o), Tau)
    case ReleRelock(o) => Effect(t, ReleRetest(o), Tau)
    case ReleRetest(o) => Effect(t, if ObjAt(t, o).count != 1 then ReleDec2(o) else ReleHead(o), Tau)
    case ReleDec2(o) => Effect(Put(t, o, Uncounted(ObjAt(t, o), u)), ReleFUnlock2(o), Drop(o))
    case ReleFUnlock2(o) => Effect(t, ReleHUnlock2, Tau)
    case ReleHUnlock2 => Effect(t, Idle, Tau)
    case ReleHead(o) =>
      var tfp := HeadAt(t, ObjAt(t, o).id);
      Effect(t, if tfp == Some(o) then ReleUnlink0(o) else ReleWalk(o, if tfp.Some? then tfp.value else o, 0), Tau)
    case ReleWalk(o, tfp, i) =>
      var next := ObjAt(t, tfp).next;
      Effect(t, if next == Some(o) then ReleUnlink(o, tfp, i)
                else ReleWalk(o, if next.Some? then next.value else o, i + 1), Tau)
    case ReleUnlink0(o) => Effect(UnlinkEffect(t, u, o, 0), ReleHUnlock(o), Drop(o))
    case ReleUnlink(o, tfp, i) => Effect(UnlinkEffect(t, u, o, i + 1), ReleHUnlock(o), Drop(o))
    case ReleHUnlock(o) => Effect(t, ReleFUnlock(o), Tau)
    case ReleFUnlock(o) => Effect(t, ReleFree(o), Tau)
    case ReleFree(o) => Effect(Put(t, o, ObjAt(t, o).(freed := true, priv := None, holders := multiset{})), Idle, Tau)
  }

  function Step(s: Sys, u: Tid): Sys
    requires u in s.pcs
  {
    var e := Access(s.t, u, s.pcs[u]);
    Sys(e.t, Relock(s.locks, u, HoldsH(e.pc), HoldsF(e.pc)), s.pcs[u := e.pc])
  }

  /** malloc and the initialisation that nobody else can see. */
  function New(s: Sys, u: Tid, o: Ref, id: int): Sys {
    s.(t := Put(s.t, o, Obj(id, 1, None, multiset{u}, Some(u), false)), pcs := s.pcs[u := AllocLock(o)])
  }

  /** u hands one of its references to v. */
  function Given(s: Sys, u: Tid, v: Tid, o: Ref): Sys {
    s.(t := Put(s.t, o, ObjAt(s.t, o).(holders := ObjAt(s.t, o).holders - multiset{u} + multiset{v})))
  }

  /** A thread that is not inside a call starts one, for a reference it has, or hands a reference on. */
  ghost predicate Begins(s: Sys, s': Sys, u: Tid) {
    && u in s.pcs && s.pcs[u].Idle?
    && ((exists o, id :: o !in s.t.objs && s' == New(s, u, o, id))
        || (exists id :: s' == s.(pcs := s.pcs[u := FindLock(id)]))
        || (exists o :: u in ObjAt(s.t, o).holders
              && (s' == s.(pcs := s.pcs[u := HoldLock(o)]) || s' == s.(pcs := s.pcs[u := ReleLock(o)])))
        || (exists o, v :: u in ObjAt(s.t, o).holders && v in s.pcs && s' == Given(s, u, v, o)))
  }

  ghost predicate Next(s: Sys, s': Sys, u: Tid) {
    Begins(s, s', u) || (Enabled(s, u) && s' == Step(s, u))
  }

  ghost predicate Init(s: Sys) {
    && s.t == Table(map[], seq(NHASH, _ => None), seq(NHASH, _ => []), map[])
    && s.locks == Locks(None, map[])
    && forall u :: u in s.pcs ==> s.pcs[u] == Idle
  }
}
