/**
 The calls of mutex3.c in a run, from their start until they return: each is its one operation on the atomic
 table, and moves the references of its thread by what it should.
 */
module FooOneLockCalls {
  import opened Basics
  import opened FooTable
  import opened FooMoves
  import opened FooCalls
  import opened FooOneLock
  import opened FooOneLockProof

  // ---------- runs ----------

  /** u starts the call c. */
  ghost predicate Starts(s: Sys, s': Sys, u: Tid, c: Call) {
    && u in s.pcs && s.pcs[u].Idle?
    && match c
       case Alloc(o, id) => o !in s.t.objs && s' == New(s, u, o, id)
       case Holding(o) => u in ObjAt(s.t, o).holders && s' == s.(pcs := s.pcs[u := HoldLock(o)])
       case Finding(id) => s' == s.(pcs := s.pcs[u := FindLock(id)])
       case Releasing(o) => u in ObjAt(s.t, o).holders && s' == s.(pcs := s.pcs[u := ReleLock(o)])
  }

  function PcAt(s: Sys, u: Tid): Pc {
    if u in s.pcs then s.pcs[u] else Idle
  }

  /** The operations of u's accesses from step lo to step hi. */
  ghost function Acts(states: seq<Sys>, who: seq<Tid>, u: Tid, lo: nat, hi: nat): seq<Act>
    requires hi <= |who| <= |states|
  {
    if hi <= lo then []
    else
      var acts := Acts(states, who, u, lo, hi - 1);
      if who[hi - 1] == u then Also(acts, ActOf(states[hi - 1], u)) else acts
  }

  /** v hands u a reference to o. */
  ghost predicate Gift(s: Sys, s': Sys, v: Tid, u: Tid, o: Ref) {
    v != u && Begins(s, s', v) && v in ObjAt(s.t, o).holders && s' == Given(s, v, u, o)
  }

  /** How many references to o other threads hand u meanwhile. */
  ghost function Gifts(states: seq<Sys>, who: seq<Tid>, u: Tid, o: Ref, lo: nat, hi: nat): nat
    requires hi <= |who| < |states|
  {
    if hi <= lo then 0
    else Gifts(states, who, u, o, lo, hi - 1)
         + if Gift(states[hi - 1], states[hi], who[hi - 1], u, o) then 1 else 0
  }

  // ---------- inside a call ----------

  predicate BeforeDrop(pc: Pc) {
    pc.ReleLock? || pc.ReleDec? || pc.ReleHead? || pc.ReleWalk? || pc.ReleUnlink0? || pc.ReleUnlink?
  }

  /** The object is off the table, and its memory still says that the thread has it. */
  predicate ToFree(pc: Pc) {
    pc.ReleUnlock? || pc.ReleFree?
  }

  predicate Inserted(pc: Pc) {
    pc.AllocFLock? || pc.AllocHUnlock? || pc.AllocFUnlock?
  }

  /** How far the call is and what it has performed so far. */
  ghost predicate During(t: Table, pc: Pc, c: Call, acts: seq<Act>) {
    match c
    case Alloc(o, id) =>
      && o in t.objs && t.objs[o].id == id
      && if pc.AllocLock? || pc.AllocNext? || pc.AllocHead? then pc.o == o && acts == []
         else Performed(c, acts) && ((Inserted(pc) && pc.o == o) || pc.Idle?)
    case Holding(o) =>
      if pc.HoldLock? || pc.HoldInc? then pc.o == o && acts == []
      else Performed(c, acts) && (pc.Unlock? || pc.Idle?)
    case Finding(id) =>
      if pc.FindLock? || pc.FindHead? || pc.FindWalk? || pc.FindInc? then pc.id == id && acts == []
      else Performed(c, acts) && (pc.Unlock? || pc.Idle?)
    case Releasing(o) =>
      if BeforeDrop(pc) then pc.o == o && acts == []
      else Performed(c, acts) && ((ToFree(pc) && pc.o == o) || pc.Unlock? || pc.Idle?)
  }

  lemma DuringStep(t: Table, u: Tid, pc: Pc, c: Call, acts: seq<Act>)
    requires During(t, pc, c, acts) && !pc.Idle?
    ensures During(Access(t, u, pc).t, Access(t, u, pc).pc, c, Also(acts, Access(t, u, pc).act))
  {
    hide During, Access;
    match c
    case Alloc(_, _) => AllocStep(t, u, pc, c, acts);
    case Holding(_) => HoldStep(t, u, pc, c, acts);
    case Finding(_) => FindStep(t, u, pc, c, acts);
    case Releasing(_) => ReleaseStep(t, u, pc, c, acts);
  }

  lemma AllocStep(t: Table, u: Tid, pc: Pc, c: Call, acts: seq<Act>)
    requires c.Alloc? && During(t, pc, c, acts) && !pc.Idle?
    ensures During(Access(t, u, pc).t, Access(t, u, pc).pc, c, Also(acts, Access(t, u, pc).act))
  {
    IdsPublish(t, c.o);
    hide Hash, PublishEffect, HeadAt;
  }

  lemma HoldStep(t: Table, u: Tid, pc: Pc, c: Call, acts: seq<Act>)
    requires c.Holding? && During(t, pc, c, acts) && !pc.Idle?
    ensures During(Access(t, u, pc).t, Access(t, u, pc).pc, c, Also(acts, Access(t, u, pc).act))
  {
    hide Hash, Counted, ObjAt;
  }

  lemma FindStep(t: Table, u: Tid, pc: Pc, c: Call, acts: seq<Act>)
    requires c.Finding? && During(t, pc, c, acts) && !pc.Idle?
    ensures During(Access(t, u, pc).t, Access(t, u, pc).pc, c, Also(acts, Access(t, u, pc).act))
  {
    hide Hash, Counted, ObjAt, HeadAt;
  }

  lemma ReleaseStep(t: Table, u: Tid, pc: Pc, c: Call, acts: seq<Act>)
    requires c.Releasing? && During(t, pc, c, acts) && !pc.Idle?
    ensures During(Access(t, u, pc).t, Access(t, u, pc).pc, c, Also(acts, Access(t, u, pc).act))
  {
    hide Hash, UnlinkEffect, Uncounted, HeadAt;
  }

  // ---------- references ----------

  /** What an access does to the references of the thread that makes it. */
  function Change(t: Table, pc: Pc, x: Ref): int {
    if (pc.HoldInc? || pc.FindInc?) && pc.o == x then 1
    else if pc.ReleDec? && pc.o == x && ObjAt(t, x).count != 1 then -1
    else if pc.ReleFree? && pc.o == x then -1
    else 0
  }

  /** An access changes the references of its own thread only. */
  lemma AccessRefs(t: Table, v: Tid, pc: Pc, d: Option<Ref>, u: Tid, x: Ref)
    requires Ok(t, d) && PcOk(t, v, pc)
    ensures RefsOf(Access(t, v, pc).t, u, x) == RefsOf(t, u, x) + if u == v then Change(t, pc, x) else 0
  {
    hide Ok, PcOk, Hash, PublishEffect, UnlinkEffect;
    if Counts(pc) {
      CountRefs(t, v, pc, u, x);
    } else if pc.ReleFree? {
      FreeRefs(t, v, pc, d, u, x);
    } else if pc.AllocNext? {
      PrivatePc(t, v, pc);
      RefsPut(t, pc.o, ObjAt(t, pc.o).(next := HeadAt(t, ObjAt(t, pc.o).id)), u, x);
    } else if pc.AllocHead? {
      RefsPublish(t, pc.o, u, x);
    } else if pc.ReleUnlink0? || pc.ReleUnlink? {
      RefsUnlink(t, v, pc.o, Position(pc), u, x);
    } else {
      PrivRead(t, v, pc);
    }
  }

  lemma CountRefs(t: Table, v: Tid, pc: Pc, u: Tid, x: Ref)
    requires PcOk(t, v, pc) && Counts(pc)
    ensures RefsOf(Access(t, v, pc).t, u, x) == RefsOf(t, u, x) + if u == v then Change(t, pc, x) else 0
  {
    hide Hash, Spotted;
    CountTarget(t, v, pc);
    if pc.ReleDec? { CountNext(t, v, pc); }
  }

  lemma FreeRefs(t: Table, v: Tid, pc: Pc, d: Option<Ref>, u: Tid, x: Ref)
    requires Ok(t, d) && PcOk(t, v, pc) && pc.ReleFree?
    ensures RefsOf(Access(t, v, pc).t, u, x) == RefsOf(t, u, x) + if u == v then Change(t, pc, x) else 0
  {
    PrivatePc(t, v, pc);
    OkObjs(t, d);
    assert ObjOk(t, pc.o, d);
    hide Ok, PcOk, Hash;
  }

  /** The start of another thread's call leaves u's references alone, unless it is a gift. */
  lemma BeginRefs(s: Sys, s': Sys, v: Tid, u: Tid, x: Ref)
    requires Begins(s, s', v) && u != v && u in s.pcs
    ensures RefsOf(s'.t, u, x) == RefsOf(s.t, u, x) + if Gift(s, s', v, u, x) then 1 else 0
    ensures forall o :: o in s.t.objs ==> o in s'.t.objs && s'.t.objs[o].id == s.t.objs[o].id
    ensures u in s'.pcs && s'.pcs[u] == s.pcs[u]
  {
    if o, w :| v in ObjAt(s.t, o).holders && w in s.pcs && s' == Given(s, v, w, o) {
      GivenRefs(s, s', v, w, o, u, x);
    } else {
      assert Gift(s, s', v, u, x) ==> false;
    }
  }

  lemma GivenRefs(s: Sys, s': Sys, v: Tid, w: Tid, o: Ref, u: Tid, x: Ref)
    requires Begins(s, s', v) && v in ObjAt(s.t, o).holders && s' == Given(s, v, w, o) && u != v
    ensures RefsOf(s'.t, u, x) == RefsOf(s.t, u, x) + if Gift(s, s', v, u, x) then 1 else 0
    ensures forall p :: p in s.t.objs ==> p in s'.t.objs && s'.t.objs[p].id == s.t.objs[p].id
    ensures s'.pcs == s.pcs
  {
    hide Begins;
  }

  // ---------- whole calls ----------

  /** What the call has brought its thread so far. */
  function Got(pc: Pc, c: Call, acts: seq<Act>, x: Ref): int {
    if c.Alloc? || (acts != [] && !ToFree(pc)) then Gain(c, acts, x) else 0
  }

  lemma GotStep(t: Table, u: Tid, pc: Pc, c: Call, acts: seq<Act>, x: Ref)
    requires During(t, pc, c, acts) && !pc.Idle?
    ensures var e := Access(t, u, pc); Got(e.pc, c, Also(acts, e.act), x) == Got(pc, c, acts, x) + Change(t, pc, x)
  {
    hide Got, Access, Change, Also;
    if c.Alloc? || c.Holding? {
      AllocGot(t, u, pc, c, acts, x);
    } else if c.Finding? {
      FindGot(t, u, pc, c, acts, x);
    } else {
      ReleaseGot(t, u, pc, c, acts, x);
    }
  }

  lemma AllocGot(t: Table, u: Tid, pc: Pc, c: Call, acts: seq<Act>, x: Ref)
    requires (c.Alloc? || c.Holding?) && During(t, pc, c, acts) && !pc.Idle?
    ensures var e := Access(t, u, pc); Got(e.pc, c, Also(acts, e.act), x) == Got(pc, c, acts, x) + Change(t, pc, x)
  {
    hide PublishEffect, Counted, HeadAt, ObjAt, Put;
  }

  lemma FindGot(t: Table, u: Tid, pc: Pc, c: Call, acts: seq<Act>, x: Ref)
    requires c.Finding? && During(t, pc, c, acts) && !pc.Idle?
    ensures var e := Access(t, u, pc); Got(e.pc, c, Also(acts, e.act), x) == Got(pc, c, acts, x) + Change(t, pc, x)
  {
    hide Counted, HeadAt, ObjAt, Put;
    var e := Access(t, u, pc);
    assert acts == [] && e.act != Tau ==> Also(acts, e.act) == [e.act];
  }

  lemma ReleaseGot(t: Table, u: Tid, pc: Pc, c: Call, acts: seq<Act>, x: Ref)
    requires c.Releasing? && During(t, pc, c, acts) && !pc.Idle?
    ensures var e := Access(t, u, pc); Got(e.pc, c, Also(acts, e.act), x) == Got(pc, c, acts, x) + Change(t, pc, x)
  {
    hide UnlinkEffect, Uncounted, HeadAt, ObjAt, Put;
  }

  ghost predicate Inside(states: seq<Sys>, who: seq<Tid>, u: Tid, c: Call, i: nat, k: nat)
    requires i < k <= |who| < |states|
  {
    var pc, acts := PcAt(states[k], u), Acts(states, who, u, i + 1, k);
    && During(states[k].t, pc, c, acts)
    && forall x :: RefsOf(states[k].t, u, x)
                   == RefsOf(states[i].t, u, x) + Gifts(states, who, u, x, i, k) + Got(pc, c, acts, x)
  }

  lemma InsideStart(states: seq<Sys>, who: seq<Tid>, u: Tid, c: Call, i: nat)
    requires |states| == |who| + 1 && i < |who| && who[i] == u && Starts(states[i], states[i + 1], u, c)
    ensures Inside(states, who, u, c, i, i + 1)
  {
    var k := i + 1;
    forall x
      ensures Gifts(states, who, u, x, i, k) == 0
    {
      assert Gifts(states, who, u, x, i, i) == 0;
    }
  }

  lemma OwnInside(states: seq<Sys>, who: seq<Tid>, u: Tid, c: Call, i: nat, k: nat)
    requires Run(states, who) && i < k < |who| && Inside(states, who, u, c, i, k) && who[k] == u
    requires u in states[k].pcs && !states[k].pcs[u].Idle? && Inv(states[k])
    ensures Inside(states, who, u, c, i, k + 1) && u in states[k + 1].pcs
  {
    var s, pc, acts := states[k], PcAt(states[k], u), Acts(states, who, u, i + 1, k);
    assert Next(s, states[k + 1], u);
    var d := DyingIn(s.locks, s.pcs);
    assert states[k + 1] == Step(s, u) && PcOk(s.t, u, pc) && Ok(s.t, d);
    hide Run, Inv, Next, Begins, Enabled, Access, During, Ok, PcOk, RefsOf, Got, Change, Relock, Gift, DyingIn;
    DuringStep(s.t, u, pc, c, acts);
    forall x
      ensures RefsOf(states[k + 1].t, u, x)
           == RefsOf(states[i].t, u, x) + Gifts(states, who, u, x, i, k + 1)
              + Got(PcAt(states[k + 1], u), c, Acts(states, who, u, i + 1, k + 1), x)
    {
      AccessRefs(s.t, u, pc, d, u, x);
      GotStep(s.t, u, pc, c, acts, x);
      NoGift(s, states[k + 1], u, x);
    }
  }

  lemma NoGift(s: Sys, s': Sys, u: Tid, x: Ref)
    ensures !Gift(s, s', u, u, x)
  {
  }

  lemma OtherInside(states: seq<Sys>, who: seq<Tid>, u: Tid, c: Call, i: nat, k: nat)
    requires Run(states, who) && i < k < |who| && Inside(states, who, u, c, i, k) && who[k] != u
    requires u in states[k].pcs && Inv(states[k])
    ensures Inside(states, who, u, c, i, k + 1) && u in states[k + 1].pcs
  {
    var s, s', v := states[k], states[k + 1], who[k];
    hide Run, Inv, Next, Begins, Access, RefsOf, Got, Gift, During;
    OtherStep(states, who, u, k, 0);
    DuringKept(s.t, s'.t, PcAt(s, u), c, Acts(states, who, u, i + 1, k));
    forall x
      ensures RefsOf(s'.t, u, x) == RefsOf(s.t, u, x) + if Gift(s, s', v, u, x) then 1 else 0
    {
      OtherStep(states, who, u, k, x);
    }
  }

  lemma DuringKept(t: Table, t': Table, pc: Pc, c: Call, acts: seq<Act>)
    requires During(t, pc, c, acts) && forall o :: o in t.objs ==> o in t'.objs && t'.objs[o].id == t.objs[o].id
    ensures During(t', pc, c, acts)
  {
    hide Performed;
  }

  /** What another thread's step does to u. */
  lemma OtherStep(states: seq<Sys>, who: seq<Tid>, u: Tid, k: nat, x: Ref)
    requires Run(states, who) && k < |who| && who[k] != u && u in states[k].pcs && Inv(states[k])
    ensures var s, s' := states[k], states[k + 1];
            && RefsOf(s'.t, u, x) == RefsOf(s.t, u, x) + (if Gift(s, s', who[k], u, x) then 1 else 0)
            && (forall o :: o in s.t.objs ==> o in s'.t.objs && s'.t.objs[o].id == s.t.objs[o].id)
            && u in s'.pcs && s'.pcs[u] == s.pcs[u]
  {
    var s, s', v := states[k], states[k + 1], who[k];
    assert Next(s, s', v);
    hide Run;
    if Begins(s, s', v) {
      hide Begins, Inv;
      BeginRefs(s, s', v, u, x);
    } else {
      EnabledIn(s, v);
      var d := DyingIn(s.locks, s.pcs);
      DyingInOk(s, v);
      assert s' == Step(s, v) && PcOk(s.t, v, s.pcs[v]) && PcOk(s.t, u, s.pcs[u]) && Ok(s.t, d);
      LocksAt(s, v, u);
      hide Inv, Begins, Enabled, Access, Ok, PcOk, RefsOf, Relock, HoldsH, HoldsF, DyingIn, DyingOf, DyingOk;
      AccessRefs(s.t, v, s.pcs[v], d, u, x);
      OthersStep(s.t, v, s.pcs[v], d, u, s.pcs[u]);
    }
  }

  lemma {:induction false} InsideUntil(states: seq<Sys>, who: seq<Tid>, u: Tid, c: Call, i: nat, k: nat)
    requires Run(states, who) && i < k <= |who| && who[i] == u && Starts(states[i], states[i + 1], u, c)
    requires forall m :: i < m < k ==> !PcAt(states[m], u).Idle?
    ensures Inside(states, who, u, c, i, k) && u in states[k].pcs
    decreases k
  {
    hide Inv, Inside, Next, Init;
    if k == i + 1 {
      InsideStart(states, who, u, c, i);
    } else {
      InsideUntil(states, who, u, c, i, k - 1);
      RunsRefine(states, who, k - 1);
      hide Run, Starts, StandsFor, Refines;
      if who[k - 1] == u {
        OwnInside(states, who, u, c, i, k - 1);
      } else {
        OtherInside(states, who, u, c, i, k - 1);
      }
    }
  }

  /**
   A call that starts at i and has returned at j was, in between, its one operation on the atomic table and
   nothing else; and each reference that its thread has at j it had at i, or was given by another thread
   meanwhile, or has by this call.
   */
  lemma CallPerforms(states: seq<Sys>, who: seq<Tid>, u: Tid, c: Call, i: nat, j: nat)
    requires Run(states, who) && i + 1 < j <= |who| && who[i] == u && Starts(states[i], states[i + 1], u, c)
    requires forall k :: i < k < j ==> !PcAt(states[k], u).Idle?
    requires PcAt(states[j], u).Idle?
    ensures Performed(c, Acts(states, who, u, i + 1, j))
    ensures forall x :: RefsOf(states[j].t, u, x)
                     == RefsOf(states[i].t, u, x) + Gifts(states, who, u, x, i, j)
                       + Gain(c, Acts(states, who, u, i + 1, j), x)
  {
    hide Run, Starts, RefsOf, Gain;
    InsideUntil(states, who, u, c, i, j);
  }

  // ---------- nothing is leaked ----------

  /** An object that has not been freed is in the table, or some thread is inside a call that has it in hand. */
  lemma NoLeak(s: Sys, o: Ref)
    requires Inv(s) && o in s.t.objs && !s.t.objs[o].freed
    ensures o in s.t.home || exists u :: u in s.pcs && PrivateOf(s.pcs[u]) == Some(o)
  {
    hide TableOk, LocksOk, PcsOk;
    assert ObjOk(s.t, o, DyingIn(s.locks, s.pcs));
  }
}
