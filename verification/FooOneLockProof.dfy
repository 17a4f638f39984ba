/**
 What every run of mutex3.c keeps. It is the table of mutex2.c again: the same atomic operations, the same
 count, the same promises about freed memory.
 */
module FooOneLockProof {
  import opened Basics
  import opened FooTable
  import opened FooMoves
  import opened FooOneLock

  // ---------- what a thread knows at each point ----------

  /** u has dropped the last reference, and the object is still on its chain. */
  ghost predicate Last(t: Table, u: Tid, o: Ref) {
    Live(t, u, o) && t.objs[o].count == 0
  }

  ghost predicate PcOk(t: Table, u: Tid, pc: Pc) {
    match pc
    case Idle => true
    case AllocLock(o) => Fresh(t, u, o)
    case AllocNext(o) => Fresh(t, u, o)
    case AllocHead(o) => Fresh(t, u, o) && t.objs[o].next == HeadAt(t, t.objs[o].id)
    case AllocFLock(o) => Live(t, u, o)
    case AllocHUnlock(o) => Live(t, u, o)
    case AllocFUnlock(o) => Live(t, u, o)
    case HoldLock(o) => Live(t, u, o)
    case HoldInc(o) => Live(t, u, o)
    case FindLock(_) => true
    case FindHead(_) => true
    case FindWalk(id, fp, i) => Walked(t, id, fp, i)
    case FindInc(id, o, i) => Spotted(t, id, o, i)
    case ReleLock(o) => Live(t, u, o)
    case ReleDec(o) => Live(t, u, o)
    case ReleHead(o) => Last(t, u, o)
    case ReleWalk(o, tfp, i) => Last(t, u, o) && Behind(t, o, tfp, i)
    case ReleUnlink0(o) => Last(t, u, o) && At(ChainOf(t, t.objs[o].id), 0) == Some(o)
    case ReleUnlink(o, tfp, i) =>
      Last(t, u, o) && Behind(t, o, tfp, i) && At(ChainOf(t, t.objs[o].id), i + 1) == Some(o)
    case ReleUnlock(o) => Mine(t, u, o)
    case ReleFree(o) => Mine(t, u, o)
    case Unlock => true
  }

  // ---------- the invariant ----------

  function Hs(pcs: map<Tid, Pc>): map<Tid, bool> {
    map u | u in pcs :: HoldsH(pcs[u])
  }

  function Fs(pcs: map<Tid, Pc>): map<Tid, Option<Ref>> {
    map u | u in pcs :: HoldsF(pcs[u])
  }

  ghost predicate PcsOk(t: Table, pcs: map<Tid, Pc>) {
    forall u :: u in pcs ==> PcOk(t, u, pcs[u])
  }

  /** An object is private only to a thread that is at a point where it knows that. */
  ghost predicate OwnersOk(t: Table, pcs: map<Tid, Pc>) {
    forall o :: o in t.objs && t.objs[o].priv.Some? ==>
      t.objs[o].priv.value in pcs && PrivateOf(pcs[t.objs[o].priv.value]) == Some(o)
  }

  /** The object that is at 0 but not yet unlinked, if there is one. */
  function DyingIn(l: Locks, pcs: map<Tid, Pc>): Option<Ref> {
    if l.hash.Some? && l.hash.value in pcs then DyingOf(pcs[l.hash.value]) else None
  }

  /** That object when a thread goes from pc to pc'. */
  function After(d: Option<Ref>, pc: Pc, pc': Pc): Option<Ref> {
    if HoldsH(pc) || HoldsH(pc') then DyingOf(pc') else d
  }

  /** What a thread at pc may assume about it. */
  ghost predicate DyingOk(t: Table, pc: Pc, d: Option<Ref>) {
    && (HoldsH(pc) ==> d == DyingOf(pc))
    && (d.Some? ==> d.value in t.home)
  }

  ghost predicate Inv(s: Sys) {
    Ok(s.t, DyingIn(s.locks, s.pcs)) && PcsOk(s.t, s.pcs) && OwnersOk(s.t, s.pcs)
      && LocksOk(s.locks, Hs(s.pcs), Fs(s.pcs))
  }

  /** A thread's point stays justified while others step. */
  lemma Stable(t: Table, t': Table, u: Tid, pc: Pc)
    requires PcOk(t, u, pc) && Rely(t, t', u, HoldsH(pc), DyingOf(pc))
    ensures PcOk(t', u, pc)
  {
    hide Hash, Walked, Spotted, Behind;
    if pc.FindWalk? {
      WalkedStable(t, t', u, DyingOf(pc), pc.id, pc.fp, pc.i);
    } else if pc.FindInc? {
      SpottedStable(t, t', u, DyingOf(pc), pc.id, pc.o, pc.i);
    } else if pc.ReleWalk? || pc.ReleUnlink? {
      BehindStable(t, t', u, DyingOf(pc), pc.o, pc.tfp, pc.i);
    }
  }

  // ---------- steps that store nothing ----------

  predicate Stores(pc: Pc) {
    pc.AllocNext? || pc.AllocHead? || pc.HoldInc? || pc.FindInc? || pc.ReleDec? || pc.ReleUnlink0? || pc.ReleUnlink?
      || pc.ReleFree?
  }

  lemma WalkStep(t: Table, u: Tid, pc: Pc)
    requires TableOk(t) && PcOk(t, u, pc) && (pc.FindWalk? || pc.FindHead?)
    ensures PcOk(t, u, Access(t, u, pc).pc)
  {
    hide TableOk, Hash;
    if pc.FindHead? {
      HeadOfChain(t, pc.id);
    } else if pc.fp.Some? {
      NextOnChain(t, pc.id, pc.i);
    }
  }

  /** The unlink loop stays on the chain: it meets the object before the end. */
  lemma UnlinkWalk(t: Table, u: Tid, pc: Pc)
    requires TableOk(t) && PcOk(t, u, pc) && (pc.ReleHead? || pc.ReleWalk?)
    ensures PcOk(t, u, Access(t, u, pc).pc)
    ensures pc.ReleHead? ==> HeadAt(t, ObjAt(t, pc.o).id).Some?
    ensures pc.ReleWalk? ==> ObjAt(t, pc.tfp).next.Some?
  {
    hide TableOk, Hash;
    var id := t.objs[pc.o].id;
    HeadOfChain(t, id);
    var k := OnChain(t, pc.o);
    if pc.ReleWalk? {
      NextOnChain(t, id, pc.i);
    }
  }

  lemma OtherRead(t: Table, u: Tid, pc: Pc)
    requires PcOk(t, u, pc) && !Stores(pc) && !pc.FindHead? && !pc.FindWalk? && !pc.ReleHead? && !pc.ReleWalk?
    ensures PcOk(t, u, Access(t, u, pc).pc) && Access(t, u, pc).act == Tau
  {
    hide Hash, Walked, Behind;
  }

  lemma ReadStep(t: Table, u: Tid, pc: Pc)
    requires TableOk(t) && PcOk(t, u, pc) && !Stores(pc)
    ensures Access(t, u, pc).t == t && PcOk(t, u, Access(t, u, pc).pc)
    ensures HoldsH(pc) ==> DyingOf(Access(t, u, pc).pc) == DyingOf(pc)
    ensures !HoldsH(pc) ==> DyingOf(Access(t, u, pc).pc) == None
    ensures (forall o :: o in t.home ==> o in t.objs) && AbsStep(AbsOf(t), Access(t, u, pc).act, AbsOf(t))
  {
    AbsDomain(t);
    hide TableOk, PcOk;
    if pc.FindHead? || pc.FindWalk? {
      WalkStep(t, u, pc);
      if pc.FindWalk? && pc.fp == None {
        WalkPc(t, u, pc);
        MissStep(t, pc.id, pc.i);
      }
    } else if pc.ReleHead? || pc.ReleWalk? {
      UnlinkWalk(t, u, pc);
    } else {
      OtherRead(t, u, pc);
    }
  }

  lemma WalkPc(t: Table, u: Tid, pc: Pc)
    requires PcOk(t, u, pc) && pc.FindWalk?
    ensures Walked(t, pc.id, pc.fp, pc.i)
  {
  }

  // ---------- steps that store ----------

  /** What a step by v establishes, given what holds before it. */
  ghost predicate StepDone(t: Table, v: Tid, pc: Pc, d: Option<Ref>) {
    var e := Access(t, v, pc);
    && Ok(e.t, After(d, pc, e.pc)) && PcOk(e.t, v, e.pc)
    && (forall o :: o in t.home ==> o in t.objs) && (forall o :: o in e.t.home ==> o in e.t.objs)
    && AbsStep(AbsOf(t), e.act, AbsOf(e.t))
  }

  predicate Counts(pc: Pc) {
    pc.HoldInc? || pc.FindInc? || pc.ReleDec?
  }

  function CountOf(t: Table, v: Tid, pc: Pc): Obj
    requires Counts(pc)
  {
    if pc.HoldInc? || pc.FindInc? then Counted(ObjAt(t, pc.o), v)
    else if ObjAt(t, pc.o).count == 1 then ObjAt(t, pc.o).(count := 0)
    else Uncounted(ObjAt(t, pc.o), v)
  }

  lemma CountEffect(t: Table, v: Tid, pc: Pc)
    requires Counts(pc) && PcOk(t, v, pc) && pc.o in t.objs && ObjOk(t, pc.o, None)
    ensures var x := CountOf(t, v, pc);
            && Access(t, v, pc).t == t.(objs := t.objs[pc.o := x]) && Recount(t, pc.o, x)
            && x.count == |x.holders| - (if DyingOf(Access(t, v, pc).pc) == Some(pc.o) then 1 else 0)
            && |x.holders| >= 1
            && PcOk(Access(t, v, pc).t, v, Access(t, v, pc).pc) && DyingOf(Access(t, v, pc).pc) in {None, Some(pc.o)}
  {
    hide Hash, Spotted, PcOk;
    CountTarget(t, v, pc);
    CountNext(t, v, pc);
  }

  lemma CountNext(t: Table, v: Tid, pc: Pc)
    requires Counts(pc) && PcOk(t, v, pc) && pc.o in t.objs
    ensures PcOk(Access(t, v, pc).t, v, Access(t, v, pc).pc)
    ensures pc.ReleDec? ==> Live(t, v, pc.o)
  {
    hide Hash;
  }

  lemma CountTarget(t: Table, v: Tid, pc: Pc)
    requires Counts(pc) && PcOk(t, v, pc)
    ensures pc.o in t.objs && pc.o in t.home
    ensures pc.FindInc? ==> Spotted(t, pc.id, pc.o, pc.i)
  {
    hide Hash;
  }

  /** Which operation a new count is, and how the number of references moves. */
  lemma CountAct(t: Table, v: Tid, pc: Pc)
    requires Counts(pc) && pc.o in t.objs && (pc.ReleDec? ==> v in t.objs[pc.o].holders)
    ensures Access(t, v, pc).act ==
              if pc.HoldInc? then Hold(pc.o) else if pc.FindInc? then Found(pc.id, pc.o)
              else if t.objs[pc.o].count == 1 then Tau else Drop(pc.o)
    ensures |CountOf(t, v, pc).holders| ==
              |t.objs[pc.o].holders|
              + if pc.HoldInc? || pc.FindInc? then 1 else if t.objs[pc.o].count == 1 then 0 else -1
  {
  }

  lemma CountAbs(t: Table, v: Tid, pc: Pc)
    requires TableOk(t) && Counts(pc) && PcOk(t, v, pc) && pc.o in t.objs && ObjOk(t, pc.o, None)
    requires forall o :: o in t.home ==> o in t.objs
    ensures AbsStep(AbsOf(t), Access(t, v, pc).act, AbsOf(t.(objs := t.objs[pc.o := CountOf(t, v, pc)])))
  {
    hide TableOk, PcOk, Access, CountOf, Hash, FirstWith, Spotted, Recount;
    CountEffect(t, v, pc);
    CountTarget(t, v, pc);
    CountNext(t, v, pc);
    CountAct(t, v, pc);
    if pc.FindInc? { FoundFirst(t, pc.id, pc.o, pc.i); }
    RecountAbs(t, pc.o, CountOf(t, v, pc));
    HeadOfChain(t, 0);
    assert AbsOf(t).refs[pc.o := |t.objs[pc.o].holders|] == AbsOf(t).refs;
  }

  lemma CountStep(t: Table, v: Tid, pc: Pc, d: Option<Ref>)
    requires Ok(t, d) && DyingOk(t, pc, d) && PcOk(t, v, pc) && Counts(pc)
    ensures StepDone(t, v, pc, d)
  {
    hide TableOk, PcOk, Access, AbsStep, Recount, CountOf, Hash;
    CountTarget(t, v, pc);
    AbsDomain(t);
    CountEffect(t, v, pc);
    RecountOk(t, pc.o, CountOf(t, v, pc), None, DyingOf(Access(t, v, pc).pc));
    CountAbs(t, v, pc);
    AbsDomain(Access(t, v, pc).t);
  }

  function PrivateObj(t: Table, v: Tid, pc: Pc): Obj
    requires pc.AllocNext? || pc.ReleFree?
  {
    if pc.AllocNext? then ObjAt(t, pc.o).(next := HeadAt(t, ObjAt(t, pc.o).id))
    else ObjAt(t, pc.o).(freed := true, priv := None, holders := multiset{})
  }

  lemma PrivatePc(t: Table, v: Tid, pc: Pc)
    requires PcOk(t, v, pc) && (pc.AllocNext? || pc.ReleFree?)
    ensures Mine(t, v, pc.o) && (pc.AllocNext? ==> Fresh(t, v, pc.o))
  {
  }

  lemma PrivatePre(t: Table, v: Tid, pc: Pc, d: Option<Ref>)
    requires PcOk(t, v, pc) && (pc.AllocNext? || pc.ReleFree?)
    requires forall o :: o in t.objs ==> ObjOk(t, o, d)
    ensures var x := PrivateObj(t, v, pc);
            && Mine(t, v, pc.o) && Access(t, v, pc).t == t.(objs := t.objs[pc.o := x])
            && x.id == t.objs[pc.o].id && x.count == t.objs[pc.o].count
            && (if x.freed then x.holders == multiset{} && x.priv == None
                else x.priv == Some(v) && x.holders == multiset{v})
    ensures PcOk(Access(t, v, pc).t, v, Access(t, v, pc).pc) && Access(t, v, pc).act == Tau
    ensures Access(t, v, pc).pc == if pc.AllocNext? then AllocHead(pc.o) else Idle
  {
  }

  lemma PrivateStep(t: Table, v: Tid, pc: Pc, d: Option<Ref>)
    requires Ok(t, d) && DyingOk(t, pc, d) && PcOk(t, v, pc) && (pc.AllocNext? || pc.ReleFree?)
    ensures StepDone(t, v, pc, d)
  {
    hide TableOk, Ok, Hash, PcOk, Access, PrivateObj, AbsStep, AbsOf;
    OkDomain(t, d);
    OkObjs(t, d);
    PrivatePre(t, v, pc, d);
    var x := PrivateObj(t, v, pc);
    assert ObjOk(t, pc.o, d);
    PrivateOk(t, v, pc.o, x, d);
    PrivateAbs(t, pc.o, x);
    OkDomain(Access(t, v, pc).t, d);
    TauStep(AbsOf(t));
    hide ObjOk, Mine;
  }

  lemma TauStep(a: Abs)
    ensures AbsStep(a, Tau, a)
  {
  }

  lemma PublishPre(t: Table, v: Tid, pc: Pc, d: Option<Ref>)
    requires Ok(t, d) && DyingOk(t, pc, d) && PcOk(t, v, pc) && pc.AllocHead?
    ensures CanPublish(t, v, pc.o, None) && t.objs[pc.o].count == 1 && PublishEffect(t, pc.o) == Published(t, pc.o)
    ensures pc.o !in t.home && t.objs[pc.o].holders == multiset{v}
    ensures forall o :: o in t.home ==> o in t.objs
  {
  }

  lemma PublishStep(t: Table, v: Tid, pc: Pc, d: Option<Ref>)
    requires Ok(t, d) && DyingOk(t, pc, d) && PcOk(t, v, pc) && pc.AllocHead?
    ensures StepDone(t, v, pc, d)
  {
    hide TableOk, Hash, AbsStep, PublishEffect;
    PublishPre(t, v, pc, d);
    PublishOk(t, v, pc.o, None);
    PublishAbs(t, v, pc.o);
    AbsDomain(Published(t, pc.o));
    hide Ok, Headed;
  }

  function Position(pc: Pc): nat
    requires pc.ReleUnlink0? || pc.ReleUnlink?
  {
    if pc.ReleUnlink0? then 0 else pc.i + 1
  }

  lemma TakePc(t: Table, v: Tid, pc: Pc)
    requires PcOk(t, v, pc) && (pc.ReleUnlink0? || pc.ReleUnlink?)
    ensures Last(t, v, pc.o) && At(ChainOf(t, t.objs[pc.o].id), Position(pc)) == Some(pc.o)
    ensures pc.ReleUnlink? ==> Behind(t, pc.o, pc.tfp, pc.i)
  {
    hide Hash;
  }

  lemma TakePre(t: Table, v: Tid, pc: Pc, d: Option<Ref>)
    requires Ok(t, d) && DyingOk(t, pc, d) && PcOk(t, v, pc) && (pc.ReleUnlink0? || pc.ReleUnlink?)
    ensures pc.o in t.objs && |t.chains| == NHASH && |t.fh| == NHASH
    ensures var h := Hash(t.objs[pc.o].id);
            CanTake(t, h, Position(pc), v, d) && t.chains[h][Position(pc)] == pc.o && t.objs[pc.o].count == 0
            && Access(t, v, pc).t == Taken(t, h, Position(pc), v)
  {
    hide TableOk, Hash, PcOk, Taken;
    TakePc(t, v, pc);
    OkDomain(t, d);
    HeadOfChain(t, 0);
    OkObjs(t, d);
    assert ObjOk(t, pc.o, d);
    if pc.ReleUnlink? { NextOnChain(t, t.objs[pc.o].id, pc.i); }
    Only(t.objs[pc.o].holders, v);
  }

  lemma TakeFresh(t: Table, v: Tid, pc: Pc, d: Option<Ref>)
    requires Ok(t, d) && DyingOk(t, pc, d) && PcOk(t, v, pc) && (pc.ReleUnlink0? || pc.ReleUnlink?)
    ensures var e := Access(t, v, pc);
        Ok(e.t, None) && After(d, pc, e.pc) == None && PcOk(e.t, v, e.pc) && e.act == Drop(pc.o)
  {
    hide TableOk, Ok, Hash, UnlinkEffect, CanTake, Taken;
    TakePre(t, v, pc, d);
    TakeOk(t, Hash(t.objs[pc.o].id), Position(pc), v, d);
  }

  lemma TakeStep(t: Table, v: Tid, pc: Pc, d: Option<Ref>)
    requires Ok(t, d) && DyingOk(t, pc, d) && PcOk(t, v, pc) && (pc.ReleUnlink0? || pc.ReleUnlink?)
    ensures StepDone(t, v, pc, d)
  {
    hide TableOk, Ok, PcOk, Hash, AbsStep, Access, CanTake, Taken, AbsOf;
    TakePre(t, v, pc, d);
    TakeFresh(t, v, pc, d);
    OkDomain(t, d);
    OkDomain(Access(t, v, pc).t, None);
    TakeAbs(t, Hash(t.objs[pc.o].id), Position(pc), v, d);
  }

  lemma OwnStep(t: Table, v: Tid, pc: Pc, d: Option<Ref>)
    requires Ok(t, d) && DyingOk(t, pc, d) && PcOk(t, v, pc)
    requires !HoldsH(pc) && HoldsH(Access(t, v, pc).pc) ==> d == None
    ensures StepDone(t, v, pc, d)
  {
    hide Ok, PcOk, AbsStep;
    if Counts(pc) {
      CountStep(t, v, pc, d);
    } else if pc.AllocNext? || pc.ReleFree? {
      PrivateStep(t, v, pc, d);
    } else if pc.AllocHead? {
      PublishStep(t, v, pc, d);
    } else if pc.ReleUnlink0? || pc.ReleUnlink? {
      TakeStep(t, v, pc, d);
    } else {
      OkDomain(t, d);
      ReadStep(t, v, pc);
    }
  }

  /** What v's step looks like to w. */
  lemma OthersStep(t: Table, v: Tid, pc: Pc, d: Option<Ref>, w: Tid, pw: Pc)
    requires Ok(t, d) && DyingOk(t, pc, d) && PcOk(t, v, pc) && PcOk(t, w, pw) && v != w
    requires HoldsH(pc) ==> !HoldsH(pw)
    ensures Rely(t, Access(t, v, pc).t, w, HoldsH(pw), DyingOf(pw))
  {
    hide TableOk, Ok, PcOk, Access, Rely, Recount, CountOf, Hash;
    var f := DyingOf(pw);
    if Counts(pc) {
      CountTarget(t, v, pc);
      CountHolders(t, v, pc, d, w);
      RecountRely(t, pc.o, CountOf(t, v, pc), d, w, HoldsH(pw), f);
    } else if pc.AllocNext? || pc.ReleFree? {
      OkObjs(t, d);
      PrivatePre(t, v, pc, d);
      PrivateRely(t, v, pc.o, PrivateObj(t, v, pc), d, w, HoldsH(pw), f);
    } else if pc.AllocHead? {
      PublishPre(t, v, pc, d);
      PublishRely(t, v, pc.o, d, w, f);
      PublishAccess(t, v, pc);
    } else if pc.ReleUnlink0? || pc.ReleUnlink? {
      TakePre(t, v, pc, d);
      TakeRely(t, Hash(t.objs[pc.o].id), Position(pc), v, d, w, f);
    } else {
      OkDomain(t, d);
      ReadStep(t, v, pc);
      Same(t, w, HoldsH(pw), f);
    }
  }

  lemma PublishAccess(t: Table, v: Tid, pc: Pc)
    requires pc.AllocHead?
    ensures Access(t, v, pc).t == PublishEffect(t, pc.o)
  {
  }

  lemma CountHolders(t: Table, v: Tid, pc: Pc, d: Option<Ref>, w: Tid)
    requires Ok(t, d) && DyingOk(t, pc, d) && PcOk(t, v, pc) && Counts(pc) && v != w
    ensures pc.o in t.objs && Recount(t, pc.o, CountOf(t, v, pc)) && HoldsH(pc)
    ensures Access(t, v, pc).t == t.(objs := t.objs[pc.o := CountOf(t, v, pc)])
    ensures w in t.objs[pc.o].holders ==> w in CountOf(t, v, pc).holders
  {
    CountTarget(t, v, pc);
    OkObjs(t, d);
    assert ObjOk(t, pc.o, None);
    hide Ok, PcOk, ObjOk, CountOf, Recount, Hash;
    CountEffect(t, v, pc);
    CountMore(t, v, pc, w);
  }

  lemma CountMore(t: Table, v: Tid, pc: Pc, w: Tid)
    requires Counts(pc) && v != w
    ensures w in ObjAt(t, pc.o).holders ==> w in CountOf(t, v, pc).holders
  {
  }

  // ---------- the whole system ----------

  lemma LocksAt(s: Sys, u: Tid, w: Tid)
    requires LocksOk(s.locks, Hs(s.pcs), Fs(s.pcs)) && u in s.pcs && w in s.pcs && u != w
    ensures HoldsH(s.pcs[u]) ==> !HoldsH(s.pcs[w])
    ensures HoldsF(s.pcs[u]).Some? ==> HoldsF(s.pcs[w]) != HoldsF(s.pcs[u])
  {
    assert Hs(s.pcs)[u] == HoldsH(s.pcs[u]) && Hs(s.pcs)[w] == HoldsH(s.pcs[w]);
    assert Fs(s.pcs)[u] == HoldsF(s.pcs[u]) && Fs(s.pcs)[w] == HoldsF(s.pcs[w]);
  }

  lemma LocksStep(s: Sys, u: Tid)
    requires LocksOk(s.locks, Hs(s.pcs), Fs(s.pcs)) && Enabled(s, u)
    ensures LocksOk(Step(s, u).locks, Hs(Step(s, u).pcs), Fs(Step(s, u).pcs))
  {
    hide LocksOk, Enabled, Access, HoldsH, HoldsF, Relock;
    EnabledIn(s, u);
    var pc, pc' := s.pcs[u], Access(s.t, u, s.pcs[u]).pc;
    assert Hs(s.pcs)[u] == HoldsH(pc) && Fs(s.pcs)[u] == HoldsF(pc);
    LocksAvailable(s, u);
    RelockOk(s.locks, Hs(s.pcs), Fs(s.pcs), u, HoldsH(pc'), HoldsF(pc'));
    assert Hs(s.pcs[u := pc']) == Hs(s.pcs)[u := HoldsH(pc')];
    assert Fs(s.pcs[u := pc']) == Fs(s.pcs)[u := HoldsF(pc')];
  }

  lemma LocksAvailable(s: Sys, u: Tid)
    requires Enabled(s, u)
    ensures var pc, pc' := s.pcs[u], Access(s.t, u, s.pcs[u]).pc;
            && (HoldsH(pc') && !HoldsH(pc) ==> s.locks.hash == None)
            && (HoldsF(pc').Some? && HoldsF(pc) != HoldsF(pc') ==> HoldsF(pc').value !in s.locks.obj)
  {
  }

  /** Only AllocHead and ReleFree end a thread's privacy, and they end the object's as well. */
  lemma PrivAfter(t: Table, u: Tid, pc: Pc, o: Ref, x: Tid)
    requires TableOk(t) && PcOk(t, u, pc) && o in Access(t, u, pc).t.objs && Access(t, u, pc).t.objs[o].priv == Some(x)
    requires x == u && o in t.objs && t.objs[o].priv == Some(u) ==> PrivateOf(pc) == Some(o)
    ensures if x == u then PrivateOf(Access(t, u, pc).pc) == Some(o) else o in t.objs && t.objs[o].priv == Some(x)
  {
    hide TableOk, PcOk, Hash, Headed, Unlinked;
    if pc.AllocHead? || pc.AllocNext? || pc.ReleFree? {
      hide Access;
      PrivOwn(t, u, pc, o, x);
    } else if pc.ReleUnlink0? || pc.ReleUnlink? {
      TakePriv(t, u, pc.o, Position(pc), o);
    } else if Counts(pc) {
      CountTarget(t, u, pc);
      CountPriv(t, u, pc, o);
    } else {
      PrivRead(t, u, pc);
    }
  }

  lemma PrivOwn(t: Table, u: Tid, pc: Pc, o: Ref, x: Tid)
    requires TableOk(t) && PcOk(t, u, pc) && o in Access(t, u, pc).t.objs && Access(t, u, pc).t.objs[o].priv == Some(x)
    requires pc.AllocHead? || pc.AllocNext? || pc.ReleFree?
    ensures if x == u then PrivateOf(pc) == Some(o) ==> PrivateOf(Access(t, u, pc).pc) == Some(o)
            else o in t.objs && t.objs[o].priv == Some(x)
    ensures x == u ==> o in t.objs && t.objs[o].priv == Some(u)
  {
    HeadOfChain(t, 0);
    hide TableOk, PcOk, Hash, Headed;
    PrivAtPc(t, u, pc);
  }

  lemma CountPriv(t: Table, u: Tid, pc: Pc, o: Ref)
    requires Counts(pc) && pc.o in t.objs && o in t.objs
    ensures Access(t, u, pc).t == t.(objs := t.objs[pc.o := CountOf(t, u, pc)])
    ensures Access(t, u, pc).t.objs[o].priv == t.objs[o].priv
  {
  }

  lemma PrivAtPc(t: Table, u: Tid, pc: Pc)
    requires PcOk(t, u, pc) && (pc.AllocHead? || pc.AllocNext? || pc.ReleFree?)
    ensures Mine(t, u, pc.o)
  {
  }

  lemma PrivRead(t: Table, u: Tid, pc: Pc)
    requires !Stores(pc)
    ensures Access(t, u, pc).t == t && (PrivateOf(pc).Some? ==> PrivateOf(Access(t, u, pc).pc) == PrivateOf(pc))
  {
  }

  lemma OwnersStep(t: Table, pcs: map<Tid, Pc>, u: Tid)
    requires OwnersOk(t, pcs) && u in pcs && PcOk(t, u, pcs[u]) && TableOk(t)
    ensures OwnersOk(Access(t, u, pcs[u]).t, pcs[u := Access(t, u, pcs[u]).pc])
  {
    hide TableOk, PcOk, Access, PrivateOf;
    var e := Access(t, u, pcs[u]);
    forall o | o in e.t.objs && e.t.objs[o].priv.Some?
      ensures e.t.objs[o].priv.value in pcs && PrivateOf(pcs[u := e.pc][e.t.objs[o].priv.value]) == Some(o)
    {
      PrivAfter(t, u, pcs[u], o, e.t.objs[o].priv.value);
    }
  }

  lemma DyingInOk(s: Sys, u: Tid)
    requires Inv(s) && u in s.pcs
    ensures DyingOk(s.t, s.pcs[u], DyingIn(s.locks, s.pcs))
  {
    hide Ok, PcOk, OwnersOk, HoldsH, DyingOf;
    assert Hs(s.pcs)[u] == HoldsH(s.pcs[u]);
    var d := DyingIn(s.locks, s.pcs);
    if d.Some? {
      var v := s.locks.hash.value;
      assert PcOk(s.t, v, s.pcs[v]);
      DyingLast(s.t, v, s.pcs[v]);
    }
  }

  lemma DyingLast(t: Table, u: Tid, pc: Pc)
    requires PcOk(t, u, pc) && DyingOf(pc).Some?
    ensures Last(t, u, DyingOf(pc).value)
  {
    hide Behind;
  }

  lemma DyingStep(s: Sys, u: Tid)
    requires LocksOk(s.locks, Hs(s.pcs), Fs(s.pcs)) && Enabled(s, u)
    ensures var pc, pc', d := s.pcs[u], Access(s.t, u, s.pcs[u]).pc, DyingIn(s.locks, s.pcs);
            DyingIn(Step(s, u).locks, Step(s, u).pcs) == After(d, pc, pc') && (!HoldsH(pc) && HoldsH(pc') ==> d == None)
  {
  }

  /** Every step keeps the invariant and is a step of the atomic table. */
  lemma StepInv(s: Sys, u: Tid)
    requires Inv(s) && Enabled(s, u)
    ensures Inv(Step(s, u))
    ensures forall o :: o in s.t.home ==> o in s.t.objs
    ensures forall o :: o in Step(s, u).t.home ==> o in Step(s, u).t.objs
    ensures AbsStep(AbsOf(s.t), Access(s.t, u, s.pcs[u]).act, AbsOf(Step(s, u).t))
  {
    hide Ok, PcOk, Access, Rely, LocksOk, Enabled, AbsStep, HoldsH, HoldsF, OwnersOk, DyingOf, DyingOk, DyingIn, After;
    EnabledIn(s, u);
    var e, d := Access(s.t, u, s.pcs[u]), DyingIn(s.locks, s.pcs);
    DyingInOk(s, u);
    DyingStep(s, u);
    OwnStep(s.t, u, s.pcs[u], d);
    forall w | w in s.pcs && w != u
      ensures PcOk(e.t, w, s.pcs[w])
    {
      LocksAt(s, u, w);
      OthersStep(s.t, u, s.pcs[u], d, w, s.pcs[w]);
      Stable(s.t, e.t, w, s.pcs[w]);
    }
    LocksStep(s, u);
    OkDomain(s.t, d);
    OwnersStep(s.t, s.pcs, u);
  }

  lemma EnabledIn(s: Sys, u: Tid)
    requires Enabled(s, u)
    ensures u in s.pcs
  {
  }

  // ---------- the start of a call ----------

  lemma NewInv(s: Sys, u: Tid, o: Ref, id: int)
    requires Inv(s) && u in s.pcs && s.pcs[u].Idle? && o !in s.t.objs
    ensures Inv(New(s, u, o, id)) && Refines(s.t, Tau, New(s, u, o, id).t)
  {
    hide Ok, PcOk, Rely, LocksOk, HoldsH, HoldsF, OwnersOk, DyingIn, DyingOf;
    var x := Obj(id, 1, None, multiset{u}, Some(u), false);
    var s', d := New(s, u, o, id), DyingIn(s.locks, s.pcs);
    DyingInOk(s, u);
    SameDying(s, u, AllocLock(o));
    OkDomain(s.t, d);
    PrivateOk(s.t, u, o, x, d);
    OkDomain(s'.t, d);
    AbsDomain(s.t);
    AbsDomain(s'.t);
    hide TableOk;
    PrivateAbs(s.t, o, x);
    forall w | w in s.pcs && w != u
      ensures PcOk(s'.t, w, s.pcs[w])
    {
      PrivateRely(s.t, u, o, x, d, w, HoldsH(s.pcs[w]), DyingOf(s.pcs[w]));
      Stable(s.t, s'.t, w, s.pcs[w]);
    }
    NewPc(s', u, o);
    NewLocks(o);
    SameLocks(s, u, AllocLock(o));
    NewOwners(s, u, o, x);
    hide AbsOf;
  }

  lemma NewLocks(o: Ref)
    ensures !HoldsH(AllocLock(o)) && HoldsF(AllocLock(o)) == None
  {
  }

  lemma NewOwners(s: Sys, u: Tid, o: Ref, x: Obj)
    requires OwnersOk(s.t, s.pcs) && u in s.pcs && s.pcs[u].Idle? && x.priv == Some(u)
    ensures OwnersOk(s.t.(objs := s.t.objs[o := x]), s.pcs[u := AllocLock(o)])
  {
  }

  lemma NewPc(s: Sys, u: Tid, o: Ref)
    requires Fresh(s.t, u, o)
    ensures PcOk(s.t, u, AllocLock(o))
  {
  }

  lemma SameLocks(s: Sys, u: Tid, pc: Pc)
    requires u in s.pcs && s.pcs[u].Idle? && !HoldsH(pc) && HoldsF(pc) == None
    ensures Hs(s.pcs[u := pc]) == Hs(s.pcs) && Fs(s.pcs[u := pc]) == Fs(s.pcs)
  {
  }

  lemma SameDying(s: Sys, u: Tid, pc: Pc)
    requires LocksOk(s.locks, Hs(s.pcs), Fs(s.pcs)) && u in s.pcs && s.pcs[u].Idle?
    ensures DyingIn(s.locks, s.pcs[u := pc]) == DyingIn(s.locks, s.pcs)
  {
    assert Hs(s.pcs)[u] == HoldsH(s.pcs[u]);
  }

  /** An idle thread's reference is to an object in the table. */
  lemma RefLive(s: Sys, u: Tid, o: Ref)
    requires Inv(s) && u in s.pcs && s.pcs[u].Idle? && u in ObjAt(s.t, o).holders
    ensures Live(s.t, u, o) && !s.t.objs[o].freed
  {
  }

  lemma CallInv(s: Sys, u: Tid, pc: Pc)
    requires Inv(s) && u in s.pcs && s.pcs[u].Idle? && PcOk(s.t, u, pc)
    requires pc.FindLock? || pc.HoldLock? || pc.ReleLock?
    ensures Inv(s.(pcs := s.pcs[u := pc])) && Refines(s.t, Tau, s.t)
  {
    SameDying(s, u, pc);
    hide Ok, PcOk, LocksOk, OwnersOk, DyingIn, TableOk, Refines;
    SameLocks(s, u, pc);
    OkDomain(s.t, DyingIn(s.locks, s.pcs));
    RefinesSelf(s.t);
    IdleOwners(s.t, s.pcs, u, pc);
  }

  lemma IdleOwners(t: Table, pcs: map<Tid, Pc>, u: Tid, pc: Pc)
    requires OwnersOk(t, pcs) && u in pcs && pcs[u].Idle?
    ensures OwnersOk(t, pcs[u := pc])
  {
  }

  lemma GivenInv(s: Sys, u: Tid, v: Tid, o: Ref)
    requires Inv(s) && u in s.pcs && s.pcs[u].Idle? && u in ObjAt(s.t, o).holders
    ensures Inv(Given(s, u, v, o)) && Refines(s.t, Tau, Given(s, u, v, o).t)
  {
    RefLive(s, u, o);
    var d := DyingIn(s.locks, s.pcs);
    hide TableOk, Ok, PcOk, Rely, LocksOk, HoldsH, HoldsF, Recount, Given, OwnersOk, Refines, DyingIn, DyingOf;
    var x := s.t.objs[o].(holders := s.t.objs[o].holders - multiset{u} + multiset{v});
    var t' := s.t.(objs := s.t.objs[o := x]);
    GivenCount(s, u, v, o, x);
    GivenTable(s.t, o, x, d);
    forall w | w in s.pcs && w != u
      ensures PcOk(t', w, s.pcs[w])
    {
      RecountRely(s.t, o, x, d, w, HoldsH(s.pcs[w]), DyingOf(s.pcs[w]));
      Stable(s.t, t', w, s.pcs[w]);
    }
    IdleOk(t', u);
    GivenOwners(s, o, x);
  }

  lemma GivenCount(s: Sys, u: Tid, v: Tid, o: Ref, x: Obj)
    requires Ok(s.t, DyingIn(s.locks, s.pcs)) && o in s.t.objs && o in s.t.home && u in s.t.objs[o].holders
    requires x == s.t.objs[o].(holders := s.t.objs[o].holders - multiset{u} + multiset{v})
    ensures |x.holders| == |s.t.objs[o].holders| >= 1
    ensures x.count == |x.holders| - (if DyingIn(s.locks, s.pcs) == Some(o) then 1 else 0)
    ensures Given(s, u, v, o) == s.(t := s.t.(objs := s.t.objs[o := x]))
  {
    assert ObjOk(s.t, o, DyingIn(s.locks, s.pcs));
  }

  lemma GivenOwners(s: Sys, o: Ref, x: Obj)
    requires OwnersOk(s.t, s.pcs) && o in s.t.objs && x.priv == s.t.objs[o].priv
    ensures OwnersOk(s.t.(objs := s.t.objs[o := x]), s.pcs)
  {
  }

  lemma IdleOk(t: Table, u: Tid)
    ensures PcOk(t, u, Idle)
  {
  }

  lemma BeginInv(s: Sys, s': Sys, u: Tid)
    requires Inv(s) && Begins(s, s', u)
    ensures Inv(s') && Refines(s.t, Tau, s'.t)
  {
    hide Inv, Refines, New, Given;
    if o, id :| o !in s.t.objs && s' == New(s, u, o, id) {
      NewInv(s, u, o, id);
    } else if id :| s' == s.(pcs := s.pcs[u := FindLock(id)]) {
      CallInv(s, u, FindLock(id));
    } else if o :| u in ObjAt(s.t, o).holders
                   && (s' == s.(pcs := s.pcs[u := HoldLock(o)]) || s' == s.(pcs := s.pcs[u := ReleLock(o)])) {
      RefLive(s, u, o);
      CallInv(s, u, s'.pcs[u]);
    } else {
      var o, v :| u in ObjAt(s.t, o).holders && v in s.pcs && s' == Given(s, u, v, o);
      GivenInv(s, u, v, o);
    }
  }

  // ---------- main results ----------

  /** The operation on the atomic table that takes effect in this step. */
  ghost function ActOf(s: Sys, u: Tid): Act {
    if u in s.pcs then Access(s.t, u, s.pcs[u]).act else Tau
  }

  ghost predicate Run(states: seq<Sys>, who: seq<Tid>) {
    && |states| == |who| + 1 && Init(states[0])
    && forall i :: 0 <= i < |who| ==> Next(states[i], states[i + 1], who[i])
  }

  lemma InitInv(s: Sys)
    requires Init(s)
    ensures Inv(s) && StandsFor(s.t) && AbsOf(s.t) == Abs(seq(NHASH, _ => []), map[], map[])
  {
    hide Hash;
  }

  lemma NextInv(s: Sys, s': Sys, u: Tid)
    requires Inv(s) && Next(s, s', u)
    ensures Inv(s') && Refines(s.t, ActOf(s, u), s'.t)
  {
    hide Inv, Access, AbsStep, Step, Enabled;
    if Begins(s, s', u) {
      BeginInv(s, s', u);
      IdleAct(s, u);
    } else {
      EnabledIn(s, u);
      StepInv(s, u);
    }
  }

  lemma IdleAct(s: Sys, u: Tid)
    requires u in s.pcs && s.pcs[u].Idle?
    ensures ActOf(s, u) == Tau
  {
  }

  /** In every run every step is one operation of the atomic table, or none. */
  lemma {:induction false} RunsRefine(states: seq<Sys>, who: seq<Tid>, n: nat)
    requires Run(states, who) && n <= |who|
    ensures Inv(states[n]) && StandsFor(states[n].t)
    ensures n < |who| ==> Refines(states[n].t, ActOf(states[n], who[n]), states[n + 1].t)
    decreases n
  {
    hide Inv, Next, Refines, StandsFor;
    if n == 0 {
      InitInv(states[0]);
    } else {
      RunsRefine(states, who, n - 1);
      NextInv(states[n - 1], states[n], who[n - 1]);
      StandsForNext(states[n - 1].t, ActOf(states[n - 1], who[n - 1]), states[n].t);
    }
    if n < |who| { NextInv(states[n], states[n + 1], who[n]); }
  }

  /**
   While an object is in the table its count is the number of references to it, except that a thread with
   hashlock may have counted the last one down already.
   */
  lemma CountIsReferences(s: Sys, o: Ref)
    requires Inv(s) && o in s.t.objs
    ensures o in s.t.home ==> !s.t.objs[o].freed && |s.t.objs[o].holders| >= 1
    ensures o in s.t.home && s.t.objs[o].count != |s.t.objs[o].holders| ==>
              && s.t.objs[o].count == 0 && s.locks.hash.Some? && s.locks.hash.value in s.pcs
              && DyingOf(s.pcs[s.locks.hash.value]) == Some(o) && s.t.objs[o].holders == multiset{s.locks.hash.value}
    ensures s.t.objs[o].freed ==> s.t.objs[o].holders == multiset{}
  {
    hide TableOk, Hash, Walked, Spotted, Behind, OwnersOk, PcOk;
    var d := DyingIn(s.locks, s.pcs);
    assert ObjOk(s.t, o, d);
    if o in s.t.home && d == Some(o) {
      var u := s.locks.hash.value;
      assert PcOk(s.t, u, s.pcs[u]);
      DyingLast(s.t, u, s.pcs[u]);
      Only(s.t.objs[o].holders, u);
    }
  }

  /** No thread touches the memory of a freed object, nor memory that is no object. */
  lemma NoUseAfterFree(s: Sys, u: Tid, o: Ref)
    requires Inv(s) && u in s.pcs && o in Touches(s.pcs[u])
    ensures o in s.t.objs && !s.t.objs[o].freed
  {
    hide LocksOk, Hash, TableOk, Ok, PcOk, OwnersOk;
    var pc := s.pcs[u];
    assert PcOk(s.t, u, pc);
    OkDomain(s.t, DyingIn(s.locks, s.pcs));
    OkObjs(s.t, DyingIn(s.locks, s.pcs));
    if pc.FindWalk? {
      WalkPc(s.t, u, pc);
      WalkedOn(s.t, pc.id, pc.fp, pc.i);
    } else if (pc.ReleWalk? || pc.ReleUnlink?) && o == pc.tfp {
      BehindPc(s.t, u, pc);
      BehindOn(s.t, pc.o, pc.tfp, pc.i);
    } else {
      PointAt(s.t, u, pc, o);
      assert ObjOk(s.t, o, DyingIn(s.locks, s.pcs));
    }
  }

  lemma BehindPc(t: Table, u: Tid, pc: Pc)
    requires PcOk(t, u, pc) && (pc.ReleWalk? || pc.ReleUnlink?)
    ensures pc.o in t.objs && Behind(t, pc.o, pc.tfp, pc.i)
  {
    hide Behind, Hash;
  }

  /** An object that a thread is at is in the table or the thread's own. */
  lemma PointAt(t: Table, u: Tid, pc: Pc, o: Ref)
    requires PcOk(t, u, pc) && o in Touches(pc) && !pc.FindWalk?
    requires pc.ReleWalk? || pc.ReleUnlink? ==> o != pc.tfp
    ensures o in t.objs && (o in t.home || t.objs[o].priv.Some?)
  {
    hide Hash, Behind, Walked, Differ, ChainOf;
  }

  /** An object is freed only by the thread that has the last reference, with the object off the table. */
  lemma FreedByLast(s: Sys, s': Sys, u: Tid, o: Ref)
    requires Inv(s) && Next(s, s', u) && o in s.t.objs
    ensures o in s'.t.objs
    ensures !s.t.objs[o].freed && s'.t.objs[o].freed ==>
              u in s.pcs && s.pcs[u] == ReleFree(o) && s.t.objs[o].holders == multiset{u} && o !in s.t.home
    ensures s.t.objs[o].freed ==> s'.t.objs[o].freed
  {
    hide Ok, PcOk, LocksOk, Hash;
    OkObjs(s.t, DyingIn(s.locks, s.pcs));
    assert ObjOk(s.t, o, DyingIn(s.locks, s.pcs));
    if Begins(s, s', u) {
      BeginFrees(s, s', u, o);
    } else {
      var pc := s.pcs[u];
      if pc == ReleFree(o) { PrivatePc(s.t, u, pc); }
      hide ObjOk;
      assert PcOk(s.t, u, pc);
      AccessFrees(s.t, u, pc, o, DyingIn(s.locks, s.pcs));
    }
  }

  lemma BeginFrees(s: Sys, s': Sys, u: Tid, o: Ref)
    requires Begins(s, s', u) && o in s.t.objs
    ensures o in s'.t.objs && s'.t.objs[o].freed == s.t.objs[o].freed
  {
  }

  lemma AccessFrees(t: Table, u: Tid, pc: Pc, o: Ref, d: Option<Ref>)
    requires o in t.objs && PcOk(t, u, pc) && Ok(t, d)
    ensures o in Access(t, u, pc).t.objs
    ensures !t.objs[o].freed && Access(t, u, pc).t.objs[o].freed ==> pc == ReleFree(o)
    ensures t.objs[o].freed ==> Access(t, u, pc).t.objs[o].freed
  {
    hide Ok, PcOk, Hash;
    if Counts(pc) {
      CountTarget(t, u, pc);
      OkObjs(t, d);
    } else if pc.AllocNext? || pc.AllocHead? || pc.ReleFree? {
      PrivAtPc(t, u, pc);
    } else if !pc.ReleUnlink? && !pc.ReleUnlink0? {
      PrivRead(t, u, pc);
    }
  }

  lemma HolderRuns(s: Sys, o: Ref)
    requires LocksOk(s.locks, Hs(s.pcs), Fs(s.pcs)) && o in s.locks.obj
    ensures Enabled(s, s.locks.obj[o])
  {
    assert Fs(s.pcs)[s.locks.obj[o]] == Some(o);
  }

  lemma Blocked(s: Sys, u: Tid)
    requires u in s.pcs && !s.pcs[u].Idle? && !Enabled(s, u)
    ensures s.locks.obj != map[] || (s.locks.hash.Some? && !HoldsH(s.pcs[u]))
  {
  }

  /** As long as a thread is inside a call, some thread can step. */
  lemma NoDeadlock(s: Sys, u: Tid) returns (v: Tid)
    requires Inv(s) && u in s.pcs && !s.pcs[u].Idle?
    ensures Enabled(s, v)
  {
    hide Ok, PcOk, OwnersOk, Enabled, HoldsF, HoldsH;
    v := u;
    if s.locks.obj != map[] {
      var o :| o in s.locks.obj;
      HolderRuns(s, o);
      v := s.locks.obj[o];
    } else if !Enabled(s, u) {
      Blocked(s, u);
      v := s.locks.hash.value;
      assert Hs(s.pcs)[v];
      HashHolder(s.pcs[v]);
      if !Enabled(s, v) { Blocked(s, v); }
    }
  }

  lemma HashHolder(pc: Pc)
    requires HoldsH(pc)
    ensures !pc.Idle?
  {
  }
}
