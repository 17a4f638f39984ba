/**
 Whole calls on the semaphore set: a log of the calls that processes began and returned from, and of their
 deaths, and what it says about the values of the set at any moment of any run.
 */
module SemCalls {
  import opened Basics
  import opened SemSet

  // ---------- the log ----------

  /** What an idle process may begin; `Start` is a new process taking a free place. */
  datatype Call = Create(init: nat) | Open | Close | Operate(value: int) | Start

  datatype Entry = Called(p: nat, call: Call) | Returned(p: nat, call: Call) | Died(p: nat)

  datatype Logged = Logged(s: Sys, log: seq<Entry>)

  ghost predicate Starts(s: Sys, s': Sys, p: nat, viaOpen: bool, call: Call) {
    && p < |s.pcs| && Sized(s)
    && match call
       case Create(init) => s.pcs[p].Idle? && s' == s.(pcs := s.pcs[p := CreateGetId(init)])
       case Open => s.pcs[p].Idle? && viaOpen && s.cur.Some? && s' == s.(pcs := s.pcs[p := OpenDec(s.cur.value.id)])
       case Close =>
         && s.pcs[p].Idle? && s.cur.Some? && s.cur.value.opens[p] >= 1
         && s' == s.(pcs := s.pcs[p := CloseLock(s.cur.value.id)])
       case Operate(value) => CanOp(s, p, value) && s' == Op(s, p, value)
       case Start => s.pcs[p].Dead? && s' == s.(pcs := s.pcs[p := Idle])
  }

  /** The call that p began last. */
  function LastCall(log: seq<Entry>, p: nat): Call {
    if log == [] then Start
    else
      var e := log[|log| - 1];
      if e.Called? && e.p == p then e.call else LastCall(log[..|log| - 1], p)
  }

  /** What is logged when p goes from one point to the next. */
  function Ends(pc: Pc, pc': Pc, p: nat, call: Call): seq<Entry> {
    if pc'.Dead? then [Died(p)] else if pc'.Idle? then [Returned(p, call)] else []
  }

  ghost predicate NextLogged(l: Logged, l': Logged, p: nat, viaOpen: bool) {
    && p < |l.s.pcs| && Sized(l.s)
    && (|| (exists call :: Starts(l.s, l'.s, p, viaOpen, call) && l'.log == l.log + [Called(p, call)])
        || (&& Enabled(l.s, p) && l'.s == Step(l.s, p) && p < |l'.s.pcs|
            && l'.log == l.log + Ends(l.s.pcs[p], l'.s.pcs[p], p, LastCall(l.log, p)))
        || (!l.s.pcs[p].Dead? && l'.s == Death(l.s, p) && l'.log == l.log + [Died(p)]))
  }

  function States(ls: seq<Logged>): (states: seq<Sys>)
    ensures |states| == |ls| && forall i :: 0 <= i < |ls| ==> states[i] == ls[i].s
  {
    seq(|ls|, i requires 0 <= i < |ls| => ls[i].s)
  }

  ghost predicate RunLogged(ls: seq<Logged>, who: seq<nat>, viaOpen: bool) {
    && |ls| == |who| + 1 && Init(ls[0].s) && ls[0].log == []
    && forall i :: 0 <= i < |who| ==> NextLogged(ls[i], ls[i + 1], who[i], viaOpen)
  }

  lemma StartsBegins(s: Sys, s': Sys, p: nat, viaOpen: bool, call: Call)
    requires Starts(s, s', p, viaOpen, call)
    ensures Begins(s, s', p, viaOpen)
  {
    hide CanOp, Op;
  }

  lemma BeginsStarts(s: Sys, s': Sys, p: nat, viaOpen: bool) returns (call: Call)
    requires Begins(s, s', p, viaOpen)
    ensures Starts(s, s', p, viaOpen, call)
  {
    hide CanOp, Op;
    if init :| s.pcs[p].Idle? && s' == s.(pcs := s.pcs[p := CreateGetId(init)]) {
      call := Create(init);
    } else if value :| CanOp(s, p, value) && s' == Op(s, p, value) {
      call := Operate(value);
    } else if s.pcs[p].Dead? {
      call := Start;
    } else if s'.pcs[p].OpenDec? {
      call := Open;
    } else {
      call := Close;
    }
  }

  lemma LoggedNext(l: Logged, l': Logged, p: nat, viaOpen: bool)
    requires NextLogged(l, l', p, viaOpen)
    ensures Next(l.s, l'.s, p, viaOpen)
  {
    hide Starts, Begins, Enabled, Step, Death, Ends, LastCall;
    if call :| Starts(l.s, l'.s, p, viaOpen, call) && l'.log == l.log + [Called(p, call)] {
      StartsBegins(l.s, l'.s, p, viaOpen, call);
    }
  }

  lemma LoggedRun(ls: seq<Logged>, who: seq<nat>, viaOpen: bool)
    requires RunLogged(ls, who, viaOpen)
    ensures Run(States(ls), who, viaOpen)
  {
    hide Next, NextLogged;
    forall i | 0 <= i < |who|
      ensures Next(States(ls)[i], States(ls)[i + 1], who[i], viaOpen)
    {
      LoggedNext(ls[i], ls[i + 1], who[i], viaOpen);
    }
  }

  /** Every run can be logged, so what holds of logged runs holds of all. */
  lemma {:induction false} CanLog(states: seq<Sys>, who: seq<nat>, viaOpen: bool) returns (ls: seq<Logged>)
    requires Run(states, who, viaOpen)
    ensures RunLogged(ls, who, viaOpen) && States(ls) == states
    decreases |who|
  {
    hide Next, NextLogged;
    if who == [] {
      ls := [Logged(states[0], [])];
    } else {
      var n := |who| - 1;
      var front := CanLog(states[..n + 1], who[..n], viaOpen);
      assert States(front)[n] == states[n];
      var l := LogNext(front[n], states[n + 1], who[n], viaOpen);
      ls := front + [l];
      forall i | 0 <= i < |who|
        ensures NextLogged(ls[i], ls[i + 1], who[i], viaOpen)
      {
        if i < n { assert NextLogged(front[i], front[i + 1], who[..n][i], viaOpen); }
      }
    }
  }

  lemma LogNext(l: Logged, s': Sys, p: nat, viaOpen: bool) returns (l': Logged)
    requires Next(l.s, s', p, viaOpen)
    ensures l'.s == s' && NextLogged(l, l', p, viaOpen)
  {
    hide Starts, Begins, Enabled, Death, Ends, LastCall;
    if Begins(l.s, s', p, viaOpen) {
      var call := BeginsStarts(l.s, s', p, viaOpen);
      l' := Logged(s', l.log + [Called(p, call)]);
    } else if Enabled(l.s, p) && s' == Step(l.s, p) {
      StepPlace(l.s, p);
      l' := Logged(s', l.log + Ends(l.s.pcs[p], s'.pcs[p], p, LastCall(l.log, p)));
    } else {
      l' := Logged(s', l.log + [Died(p)]);
    }
  }

  lemma StepPlace(s: Sys, p: nat)
    requires Sized(s) && Enabled(s, p)
    ensures |Step(s, p).pcs| == |s.pcs| && Sized(Step(s, p))
  {
  }

  lemma OneEntry(l: Logged, l': Logged, p: nat, viaOpen: bool)
    requires NextLogged(l, l', p, viaOpen)
    ensures |l'.s.pcs| == |l.s.pcs| && Sized(l'.s)
    ensures l'.log == l.log || exists e: Entry :: e.p == p && l'.log == l.log + [e]
  {
    hide LastCall, Step, Enabled, Ends;
    if Enabled(l.s, p) && l'.s == Step(l.s, p)
      && l'.log == l.log + Ends(l.s.pcs[p], l'.s.pcs[p], p, LastCall(l.log, p)) {
      StepPlace(l.s, p);
      EndsOne(l.s.pcs[p], l'.s.pcs[p], p, LastCall(l.log, p));
    }
  }

  lemma EndsOne(pc: Pc, pc': Pc, p: nat, call: Call)
    ensures var t := Ends(pc, pc', p, call); t == [] || (t == [t[0]] && t[0].p == p)
  {
  }

  // ---------- what the log says of one process ----------

  /** What p has added to [0] by sem_wait, sem_signal and sem_op; its death undoes it. */
  function Net(log: seq<Entry>, p: nat): int {
    if log == [] then 0
    else
      var e, rest := log[|log| - 1], Net(log[..|log| - 1], p);
      if e.p != p then rest
      else if e.Died? then 0
      else if e.Called? && e.call.Operate? then rest + e.call.value
      else rest
  }

  /** How often p has the set open: sem_create and sem_open that returned, less sem_close; its death closes. */
  function Held(log: seq<Entry>, p: nat): int {
    if log == [] then 0
    else
      var e, rest := log[|log| - 1], Held(log[..|log| - 1], p);
      if e.p != p then rest
      else if e.Died? then 0
      else if e.Returned? && (e.call.Create? || e.call.Open?) then rest + 1
      else if e.Returned? && e.call.Close? then rest - 1
      else rest
  }

  /** p is past the semop of sem_close. */
  predicate Closing(pc: Pc) {
    pc.CloseGet? || pc.CloseRm? || pc.CloseUnlock?
  }

  // ---------- the call that a process is inside ----------

  ghost predicate KnowsCall(l: Logged, p: nat)
    requires p < |l.s.pcs|
  {
    var pc, call := l.s.pcs[p], LastCall(l.log, p);
    && (pc.CreateGetId? || pc.CreateLock? || pc.CreateGet? || pc.CreateSet0? ==> call == Create(pc.init))
    && (pc.CreateSet1? ==> call.Create? && l.s.cur.Some? && l.s.cur.value.init == call.init)
    && (pc.CreateEnd? ==> call.Create?)
    && (pc.OpenDec? ==> call.Open?)
    && (pc.CloseLock? || Closing(pc) ==> call.Close?)
  }

  lemma StillInside(log: seq<Entry>, e: Entry, q: nat)
    ensures LastCall(log + [e], q) == if e.Called? && e.p == q then e.call else LastCall(log, q)
  {
    assert (log + [e])[..|log|] == log;
  }

  /** The points before the second SETVAL of sem_create, where the argument is still at hand. */
  predicate Creating(pc: Pc) {
    pc.CreateGetId? || pc.CreateLock? || pc.CreateGet? || pc.CreateSet0?
  }

  lemma OwnStep(s: Sys, p: nat)
    requires Sized(s) && Enabled(s, p)
    ensures |Step(s, p).pcs| == |s.pcs|
    ensures var s', pc := Step(s, p), s.pcs[p];
            var pc' := s'.pcs[p];
            && (Creating(pc') ==> Creating(pc) && pc'.init == pc.init)
            && (pc'.CreateSet1? ==> pc.CreateSet0? && s'.cur.Some? && s'.cur.value.init == pc.init)
            && (pc'.CreateEnd? ==> pc.CreateGet? || pc.CreateSet1?)
            && !pc'.OpenDec? && !pc'.CloseLock?
            && (Closing(pc') ==> pc.CloseLock? || pc.CloseGet?)
  {
  }

  lemma OwnCall(l: Logged, l': Logged, p: nat, viaOpen: bool)
    requires NextLogged(l, l', p, viaOpen) && KnowsCall(l, p) && |l'.s.pcs| == |l.s.pcs|
    ensures KnowsCall(l', p)
  {
    hide LastCall, Step, Enabled, Ends;
    if call :| Starts(l.s, l'.s, p, viaOpen, call) && l'.log == l.log + [Called(p, call)] {
      StillInside(l.log, Called(p, call), p);
    } else if l'.s == Death(l.s, p) && l'.log == l.log + [Died(p)] {
    } else {
      OwnStep(l.s, p);
      EndsSay(l.s.pcs[p], l'.s.pcs[p], p, LastCall(l.log, p));
      if l'.log != l.log { StillInside(l.log, l'.log[|l.log|], p); }
    }
  }

  /** While q is at its second SETVAL, nobody else sets [0] or removes the set. */
  lemma OthersCall(l: Logged, l': Logged, p: nat, viaOpen: bool, q: nat)
    requires Inv(l.s) && NextLogged(l, l', p, viaOpen) && |l'.s.pcs| == |l.s.pcs|
    requires q < |l.s.pcs| && q != p && KnowsCall(l, q)
    ensures KnowsCall(l', q)
  {
    OneEntry(l, l', p, viaOpen);
    if e: Entry :| e.p == p && l'.log == l.log + [e] { StillInside(l.log, e, q); }
    OthersStep(l, l', p, viaOpen, q);
    hide NextLogged, Inv, LastCall;
  }

  lemma OthersStep(l: Logged, l': Logged, p: nat, viaOpen: bool, q: nat)
    requires Inv(l.s) && NextLogged(l, l', p, viaOpen) && |l'.s.pcs| == |l.s.pcs| && q < |l.s.pcs| && q != p
    ensures l'.s.pcs[q] == l.s.pcs[q]
    ensures l.s.pcs[q].CreateSet1? ==>
              l.s.cur.Some? && l'.s.cur.Some? && l'.s.cur.value.init == l.s.cur.value.init
  {
    assert PcOk(l.s, q) && PcOk(l.s, p);
    if l.s.cur.Some? { Holder(l.s.cur.value, l.s.pcs, p); }
    hide LockOk, CountOk, ValueOk, LastCall;
  }

  lemma {:induction false} CallsKnown(ls: seq<Logged>, who: seq<nat>, viaOpen: bool, n: nat)
    requires RunLogged(ls, who, viaOpen) && NeverOverfull(States(ls), who) && n <= |who|
    ensures Inv(ls[n].s) && forall p :: 0 <= p < |ls[n].s.pcs| ==> KnowsCall(ls[n], p)
  {
    hide Inv, NextLogged, KnowsCall, Overfull, Next;
    LoggedRun(ls, who, viaOpen);
    RunInv(States(ls), who, viaOpen, n);
    if n == 0 {
      forall p | 0 <= p < |ls[0].s.pcs|
        ensures KnowsCall(ls[0], p)
      {
        assert KnowsCall(ls[0], p) by { FirstCall(ls[0], p); }
      }
    } else {
      var l, l', w := ls[n - 1], ls[n], who[n - 1];
      CallsKnown(ls, who, viaOpen, n - 1);
      assert NextLogged(l, l', w, viaOpen);
      OneEntry(l, l', w, viaOpen);
      WhoPlace(l, l', w, viaOpen);
      forall p | 0 <= p < |l'.s.pcs|
        ensures KnowsCall(l', p)
      {
        if p == w { OwnCall(l, l', w, viaOpen); } else { OthersCall(l, l', w, viaOpen, p); }
      }
    }
  }

  lemma FirstCall(l: Logged, p: nat)
    requires Init(l.s) && p < |l.s.pcs|
    ensures KnowsCall(l, p)
  {
  }

  lemma WhoPlace(l: Logged, l': Logged, p: nat, viaOpen: bool)
    requires NextLogged(l, l', p, viaOpen)
    ensures p < |l.s.pcs|
  {
  }

  // ---------- what one step does to an initialised set ----------

  ghost predicate Living(l: Logged, id: nat) {
    Current(l.s, id) && l.s.cur.value.inited
  }

  /** The entry that a step logs decides what it does to [0] and its undo values. */
  lemma ValueMoves(l: Logged, l': Logged, p: nat, viaOpen: bool, id: nat)
    requires Inv(l.s) && NextLogged(l, l', p, viaOpen) && Living(l, id) && Current(l'.s, id)
    ensures |l'.s.cur.value.adj0| == |l.s.cur.value.adj0| == |l.s.pcs|
    ensures var c, c' := l.s.cur.value, l'.s.cur.value;
            || (exists v :: l'.log == l.log + [Called(p, Operate(v))] && c'.adj0 == c.adj0[p := c.adj0[p] - v]
                            && c'.clamped == c.clamped)
            || (l'.log == l.log + [Died(p)] && c'.adj0 == c.adj0[p := 0]
                && c'.clamped == (c.clamped || c.v0 + c.adj0[p] < 0))
            || (&& c'.adj0 == c.adj0 && c'.clamped == c.clamped
                && (l'.log == l.log
                    || exists e: Entry :: l'.log == l.log + [e] && !e.Died? && !(e.Called? && e.call.Operate?)))
  {
    var c, c' := l.s.cur.value, l'.s.cur.value;
    hide LockOk, CountOk, ValueOk, PcOk, LastCall, Step, Enabled, Ends;
    if call :| Starts(l.s, l'.s, p, viaOpen, call) && l'.log == l.log + [Called(p, call)] {
      assert !call.Operate? ==> c' == c;
    } else if l'.s == Death(l.s, p) && l'.log == l.log + [Died(p)] {
    } else {
      ValueStep(l.s, p, id);
      EndsSay(l.s.pcs[p], l'.s.pcs[p], p, LastCall(l.log, p));
    }
  }

  lemma EndsSay(pc: Pc, pc': Pc, p: nat, call: Call)
    ensures Ends(pc, pc', p, call) ==
            if pc'.Dead? then [Died(p)] else if pc'.Idle? then [Returned(p, call)] else []
  {
  }

  /** A system call touches [0] and its undo values only if it ends the process. */
  lemma ValueStep(s: Sys, p: nat, id: nat)
    requires Inv(s) && Enabled(s, p) && Current(s, id) && s.cur.value.inited && Current(Step(s, p), id)
    ensures |Step(s, p).pcs| == |s.pcs|
    ensures var c, s' := s.cur.value, Step(s, p);
            if s'.pcs[p].Dead? then s' == Death(s, p)
            else s'.cur.value.v0 == c.v0 && s'.cur.value.adj0 == c.adj0 && s'.cur.value.clamped == c.clamped
  {
    NotSetting(s);
    hide LockOk, CountOk, ValueOk, PcOk;
  }

  lemma NetMore(log: seq<Entry>, k: nat, e: Entry, p: nat)
    requires k <= |log|
    ensures var l, l' := log[k..], (log + [e])[k..];
            Net(l', p) == if e.p != p then Net(l, p) else if e.Died? then 0
                          else if e.Called? && e.call.Operate? then Net(l, p) + e.call.value else Net(l, p)
  {
    assert (log + [e])[k..] == log[k..] + [e];
    assert (log[k..] + [e])[..|log[k..]|] == log[k..];
  }

  lemma HeldMore(log: seq<Entry>, k: nat, e: Entry, p: nat)
    requires k <= |log|
    ensures var l, l' := log[k..], (log + [e])[k..];
            Held(l', p) == if e.p != p then Held(l, p) else if e.Died? then 0
                           else if e.Returned? && (e.call.Create? || e.call.Open?) then Held(l, p) + 1
                           else if e.Returned? && e.call.Close? then Held(l, p) - 1 else Held(l, p)
  {
    assert (log + [e])[k..] == log[k..] + [e];
    assert (log[k..] + [e])[..|log[k..]|] == log[k..];
  }

  /** What p has open at l, by the log since k and whether it is closing. */
  function Outstanding(l: Logged, k: nat, p: nat): int
    requires k <= |l.log| && p < |l.s.pcs|
  {
    Held(l.log[k..], p) - (if Closing(l.s.pcs[p]) then 1 else 0)
  }

  /** How many more opens the step from pc to pc' makes. */
  function OpensMore(pc: Pc, pc': Pc): int {
    if pc.CreateEnd? || pc.OpenDec? then 1 else if pc.CloseLock? && Closing(pc') then -1 else 0
  }

  lemma CountStep(s: Sys, p: nat, id: nat)
    requires Inv(s) && Enabled(s, p) && Current(s, id) && s.cur.value.inited && Current(Step(s, p), id)
    ensures |Step(s, p).pcs| == |s.pcs| && !s.pcs[p].Idle?
    ensures var c, s', pc := s.cur.value, Step(s, p), s.pcs[p];
            var pc' := s'.pcs[p];
            if pc'.Dead? then s' == Death(s, p)
            else
              && s'.cur.value.opens == c.opens[p := c.opens[p] + OpensMore(pc, pc')]
              && (pc'.Idle? <==> pc.CreateEnd? || pc.OpenDec? || pc.CloseUnlock?)
              && (Closing(pc') ==> pc.CloseLock? || pc.CloseGet?)
              && (Closing(pc) ==> Closing(pc') || pc'.Idle?)
    ensures forall q :: 0 <= q < |s.pcs| && q != p ==> Step(s, p).pcs[q] == s.pcs[q]
  {
    NotSetting(s);
    hide LockOk, CountOk, ValueOk, PcOk;
  }

  lemma CountStarts(s: Sys, s': Sys, p: nat, viaOpen: bool, call: Call)
    requires Starts(s, s', p, viaOpen, call) && s.cur.Some?
    ensures |s'.pcs| == |s.pcs| && s'.cur.Some? && s'.cur.value.opens == s.cur.value.opens
    ensures forall q :: 0 <= q < |s.pcs| ==> (Closing(s'.pcs[q]) <==> Closing(s.pcs[q]))
  {
  }

  lemma CountNext(l: Logged, l': Logged, p: nat, viaOpen: bool, id: nat, k: nat, q: nat)
    requires Inv(l.s) && NextLogged(l, l', p, viaOpen) && Living(l, id) && Current(l'.s, id) && KnowsCall(l, p)
    requires k <= |l.log| && q < |l.s.pcs| && |l.s.pcs| == |l.s.cur.value.opens|
    requires l.s.cur.value.opens[q] == Outstanding(l, k, q)
    ensures k <= |l'.log| && q < |l'.s.pcs| && |l'.s.pcs| == |l'.s.cur.value.opens|
    ensures l'.s.cur.value.opens[q] == Outstanding(l', k, q)
  {
    hide Inv, LastCall, Held, Enabled, Step, Ends;
    OneEntry(l, l', p, viaOpen);
    if call :| Starts(l.s, l'.s, p, viaOpen, call) && l'.log == l.log + [Called(p, call)] {
      hide Starts, NextLogged, Death;
      CountStarts(l.s, l'.s, p, viaOpen, call);
      HeldMore(l.log, k, Called(p, call), q);
    } else if l'.s == Death(l.s, p) && l'.log == l.log + [Died(p)] {
      HeldMore(l.log, k, Died(p), q);
    } else {
      hide Starts, NextLogged;
      CountStep(l.s, p, id);
      EndsSay(l.s.pcs[p], l'.s.pcs[p], p, LastCall(l.log, p));
      if l'.log != l.log { HeldMore(l.log, k, l'.log[|l.log|], q); }
    }
  }

  lemma UndoNext(l: Logged, l': Logged, p: nat, viaOpen: bool, id: nat, k: nat, q: nat)
    requires Inv(l.s) && NextLogged(l, l', p, viaOpen) && Living(l, id) && Current(l'.s, id)
    requires k <= |l.log| && q < |l.s.pcs| && |l.s.pcs| == |l.s.cur.value.adj0|
    requires l.s.cur.value.adj0[q] == -Net(l.log[k..], q)
    ensures k <= |l'.log| && q < |l'.s.pcs| && |l'.s.pcs| == |l'.s.cur.value.adj0|
    ensures l'.s.cur.value.adj0[q] == -Net(l'.log[k..], q)
  {
    OneEntry(l, l', p, viaOpen);
    ValueMoves(l, l', p, viaOpen, id);
    hide Inv, LastCall, Net, NextLogged;
    if l'.log != l.log { NetMore(l.log, k, l'.log[|l.log|], q); }
  }

  // ---------- main results ----------

  /** Step m sets [1] of the set for the first time: it is open for business from m + 1 on. */
  ghost predicate Initialised(ls: seq<Logged>, m: nat, id: nat) {
    && m + 1 < |ls|
    && Current(ls[m].s, id) && !ls[m].s.cur.value.inited
    && Current(ls[m + 1].s, id) && ls[m + 1].s.cur.value.inited
  }

  /** [0] is `init`, nothing is open, and nothing is to be undone. */
  ghost predicate Untouched(s: Sys, init: int) {
    && Sized(s) && s.cur.Some?
    && var c := s.cur.value;
       && c.v0 == init && c.init == init && c.v1 == BIGCOUNT && !c.clamped
       && forall q :: 0 <= q < |s.pcs| ==> c.adj0[q] == 0 == c.opens[q] && !Closing(s.pcs[q])
  }

  /** The process that initialises a set does so with the argument of its own sem_create. */
  lemma FirstValue(ls: seq<Logged>, who: seq<nat>, viaOpen: bool, m: nat, id: nat)
    requires RunLogged(ls, who, viaOpen) && NeverOverfull(States(ls), who) && Initialised(ls, m, id)
    ensures m < |who|
    ensures var call := LastCall(ls[m].log, who[m]); call.Create? && Untouched(ls[m + 1].s, call.init)
  {
    hide Inv, NextLogged, Overfull, LastCall, Untouched;
    CallsKnown(ls, who, viaOpen, m);
    assert NextLogged(ls[m], ls[m + 1], who[m], viaOpen);
    WhoPlace(ls[m], ls[m + 1], who[m], viaOpen);
    FirstStep(ls[m], ls[m + 1], who[m], viaOpen, id);
  }

  lemma FirstStep(l: Logged, l': Logged, p: nat, viaOpen: bool, id: nat)
    requires Inv(l.s) && p < |l.s.pcs| && KnowsCall(l, p) && NextLogged(l, l', p, viaOpen)
    requires Current(l.s, id) && !l.s.cur.value.inited && Current(l'.s, id) && l'.s.cur.value.inited
    ensures var call := LastCall(l.log, p); call.Create? && Untouched(l'.s, call.init)
  {
    var c := l.s.cur.value;
    assert PcOk(l.s, p);
    forall q | 0 <= q < |l.s.pcs|
      ensures !Closing(l.s.pcs[q]) && c.opens[q] == 0
    {
      assert PcOk(l.s, q);
      SumNonneg(c.opens, q);
    }
    hide LockOk, CountOk, ValueOk, LastCall, Sum;
    assert l.s.pcs[p].CreateSet1? && l'.s == Step(l.s, p);
  }

  /** What is logged from the moment after step m to the state n. */
  ghost function Since(ls: seq<Logged>, m: nat, n: nat): seq<Entry>
    requires m + 1 < |ls| && n < |ls| && |ls[m + 1].log| <= |ls[n].log|
  {
    ls[n].log[|ls[m + 1].log|..]
  }

  /** The set that step m opened for business, in state n: the undo values and the opens are what the log says. */
  ghost predicate LogSaid(ls: seq<Logged>, m: nat, n: nat, id: nat) {
    && m + 1 < |ls| && n < |ls| && |ls[m + 1].log| <= |ls[n].log|
    && Living(ls[n], id) && Sized(ls[n].s)
    && forall q :: 0 <= q < |ls[n].s.pcs| ==>
         && ls[n].s.cur.value.adj0[q] == -Net(Since(ls, m, n), q)
         && ls[n].s.cur.value.opens[q] == Outstanding(ls[n], |ls[m + 1].log|, q)
  }

  lemma {:induction false} LogSays(ls: seq<Logged>, who: seq<nat>, viaOpen: bool, m: nat, n: nat, id: nat)
    requires RunLogged(ls, who, viaOpen) && NeverOverfull(States(ls), who) && Initialised(ls, m, id)
    requires m < n <= |who| && Current(ls[n].s, id)
    ensures LogSaid(ls, m, n, id)
    decreases n
  {
    hide Inv, NextLogged, Overfull, LastCall, Net, Held, KnowsCall;
    FirstValue(ls, who, viaOpen, m, id);
    if n == m + 1 {
      assert Since(ls, m, n) == [];
      FirstSaid(ls[n], id);
    } else {
      StaysCurrent(ls, who, viaOpen, m, n, id);
      LogSays(ls, who, viaOpen, m, n - 1, id);
      CallsKnown(ls, who, viaOpen, n - 1);
      assert NextLogged(ls[n - 1], ls[n], who[n - 1], viaOpen);
      WhoPlace(ls[n - 1], ls[n], who[n - 1], viaOpen);
      SaidNext(ls, who[n - 1], viaOpen, m, n, id);
    }
  }

  lemma FirstSaid(l: Logged, id: nat)
    requires Sized(l.s) && l.s.cur.Some? && forall q :: 0 <= q < |l.s.pcs| ==>
        l.s.cur.value.adj0[q] == 0 == l.s.cur.value.opens[q] && !Closing(l.s.pcs[q])
    ensures forall q :: 0 <= q < |l.s.pcs| ==>
      l.s.cur.value.adj0[q] == -Net([], q) && l.s.cur.value.opens[q] == Outstanding(l, |l.log|, q)
  {
  }

  lemma SaidNext(ls: seq<Logged>, p: nat, viaOpen: bool, m: nat, n: nat, id: nat)
    requires 0 < n < |ls| && LogSaid(ls, m, n - 1, id) && Current(ls[n].s, id)
    requires Inv(ls[n - 1].s) && NextLogged(ls[n - 1], ls[n], p, viaOpen)
    requires p < |ls[n - 1].s.pcs| && KnowsCall(ls[n - 1], p)
    ensures LogSaid(ls, m, n, id)
  {
    var l, l', k := ls[n - 1], ls[n], |ls[m + 1].log|;
    OneEntry(l, l', p, viaOpen);
    LivesOn(l, l', p, viaOpen, id);
    hide Inv, NextLogged, LastCall, Net, Held, KnowsCall;
    forall q | 0 <= q < |l'.s.pcs|
      ensures l'.s.cur.value.adj0[q] == -Net(l'.log[k..], q) && l'.s.cur.value.opens[q] == Outstanding(l', k, q)
    {
      UndoNext(l, l', p, viaOpen, id, k, q);
      CountNext(l, l', p, viaOpen, id, k, q);
    }
  }

  lemma LivesOn(l: Logged, l': Logged, p: nat, viaOpen: bool, id: nat)
    requires Inv(l.s) && NextLogged(l, l', p, viaOpen) && Living(l, id) && Current(l'.s, id)
    ensures Living(l', id)
  {
    hide Inv, NextLogged, Next;
    LoggedNext(l, l', p, viaOpen);
    NeverReset(l.s, l'.s, p, viaOpen);
  }

  lemma StaysCurrent(ls: seq<Logged>, who: seq<nat>, viaOpen: bool, m: nat, n: nat, id: nat)
    requires RunLogged(ls, who, viaOpen) && NeverOverfull(States(ls), who) && Initialised(ls, m, id)
    requires m + 1 < n <= |who| && Current(ls[n].s, id)
    ensures Current(ls[n - 1].s, id) && ls[n].s.cur.value.init == ls[m + 1].s.cur.value.init
  {
    hide NextLogged, Overfull, Inv, Next;
    LoggedRun(ls, who, viaOpen);
    NeverResetInRun(States(ls), who, viaOpen, m + 1, n - 1, id);
    NeverResetInRun(States(ls), who, viaOpen, m + 1, n, id);
    assert Next(States(ls)[n - 1], States(ls)[n], who[n - 1], viaOpen);
    GoneForGood(ls[n - 1].s, ls[n].s, who[n - 1], viaOpen, id);
  }

  /** Step k is a death, and [0] is too small to take back all that the process added: the undo is cut off at 0. */
  ghost predicate CutOff(ls: seq<Logged>, who: seq<nat>, m: nat, k: nat)
    requires m + 1 < |ls| == |who| + 1 && k < |who|
  {
    && ls[k + 1].log == ls[k].log + [Died(who[k])] && ls[k].s.cur.Some?
    && |ls[m + 1].log| <= |ls[k].log| && ls[k].s.cur.value.v0 < Net(Since(ls, m, k), who[k])
  }

  lemma {:induction false} ClampedOnlyIf(ls: seq<Logged>, who: seq<nat>, viaOpen: bool, m: nat, n: nat, id: nat)
    requires RunLogged(ls, who, viaOpen) && NeverOverfull(States(ls), who) && Initialised(ls, m, id)
    requires m < n <= |who| && Current(ls[n].s, id) && forall k :: m < k < n ==> !CutOff(ls, who, m, k)
    ensures !ls[n].s.cur.value.clamped
    decreases n
  {
    hide Inv, NextLogged, Overfull, LastCall, Net, Held, KnowsCall, CutOff;
    FirstValue(ls, who, viaOpen, m, id);
    if n > m + 1 {
      var j, p := n - 1, who[n - 1];
      StaysCurrent(ls, who, viaOpen, m, n, id);
      ClampedOnlyIf(ls, who, viaOpen, m, j, id);
      LogSays(ls, who, viaOpen, m, j, id);
      CallsKnown(ls, who, viaOpen, j);
      assert NextLogged(ls[j], ls[j + 1], p, viaOpen);
      WhoPlace(ls[j], ls[n], p, viaOpen);
      ValueMoves(ls[j], ls[n], p, viaOpen, id);
      assert !CutOff(ls, who, m, j);
      if ls[n].log == ls[j].log + [Died(p)] { NotCut(ls, who, m, j); }
    }
  }

  lemma NotCut(ls: seq<Logged>, who: seq<nat>, m: nat, k: nat)
    requires m + 1 < |ls| == |who| + 1 && k < |who| && |ls[m + 1].log| <= |ls[k].log| && ls[k].s.cur.Some?
    requires !CutOff(ls, who, m, k) && ls[k + 1].log == ls[k].log + [Died(who[k])]
    ensures ls[k].s.cur.value.v0 >= Net(Since(ls, m, k), who[k])
  {
  }

  /** The nets of all n processes. */
  function Nets(log: seq<Entry>, n: nat): (s: seq<int>)
    ensures |s| == n && forall p :: 0 <= p < n ==> s[p] == Net(log, p)
  {
    seq(n, p requires 0 <= p => Net(log, p))
  }

  lemma {:induction false} SumNegated(s: seq<int>, t: seq<int>)
    requires |s| == |t| && forall i :: 0 <= i < |s| ==> s[i] == -t[i]
    ensures Sum(s) == -Sum(t)
  {
    if s != [] { SumNegated(s[1..], t[1..]); }
  }

  /**
   As long as no undo was cut off, [0] is the argument with which the initialising sem_create was called
   plus all that the living processes have added by sem_wait, sem_signal and sem_op since; and an idle
   process that has the set open can add a value at once exactly when that leaves [0] at least 0.
   */
  lemma ValueLaw(ls: seq<Logged>, who: seq<nat>, viaOpen: bool, m: nat, n: nat, id: nat) returns (init: nat)
    requires RunLogged(ls, who, viaOpen) && NeverOverfull(States(ls), who) && Initialised(ls, m, id)
    requires m < n <= |who| && Current(ls[n].s, id) && forall k :: m < k < n ==> !CutOff(ls, who, m, k)
    ensures LastCall(ls[m].log, who[m]) == Create(init) && |ls[m + 1].log| <= |ls[n].log|
    ensures var s, value := ls[n].s, init + Sum(Nets(Since(ls, m, n), |ls[n].s.pcs|));
            && s.cur.value.v0 == value >= 0 && Sized(s)
            && forall p, v :: 0 <= p < |s.pcs| && s.pcs[p].Idle? && s.cur.value.opens[p] >= 1 && v != 0 ==>
                 (CanOp(s, p, v) <==> value + v >= 0)
  {
    hide Inv, NextLogged, Overfull, LastCall, Net, Held, KnowsCall, CutOff;
    FirstValue(ls, who, viaOpen, m, id);
    init := LastCall(ls[m].log, who[m]).init;
    LogSays(ls, who, viaOpen, m, n, id);
    ClampedOnlyIf(ls, who, viaOpen, m, n, id);
    CallsKnown(ls, who, viaOpen, n);
    if n > m + 1 { StaysCurrent(ls, who, viaOpen, m, n, id); }
    SumNegated(ls[n].s.cur.value.adj0, Nets(Since(ls, m, n), |ls[n].s.pcs|));
    ValueIs(ls[n].s);
  }

  lemma ValueIs(s: Sys)
    requires Inv(s) && s.cur.Some? && s.cur.value.inited && !s.cur.value.clamped
    ensures s.cur.value.v0 + Sum(s.cur.value.adj0) == s.cur.value.init && s.cur.value.v0 >= 0
  {
  }

  // ---------- mutual exclusion ----------

  /** With [0] at 1, one sem_wait keeps everybody else's out, until the matching sem_signal lets it in. */
  lemma Exclusion(s: Sys, p: nat, q: nat)
    requires CanOp(s, p, -1) && s.cur.value.v0 == 1
    ensures !CanOp(Op(s, p, -1), q, -1)
    ensures CanOp(Op(s, p, -1), p, 1) && Op(Op(s, p, -1), p, 1) == s
  {
    var t := Op(s, p, -1);
    assert t.pcs[p := Idle] == s.pcs;
    assert t.cur.value.adj0[p := t.cur.value.adj0[p] - 1] == s.cur.value.adj0;
  }

  function Negatives(s: seq<int>): nat {
    if s == [] then 0 else (if s[0] < 0 then 1 else 0) + Negatives(s[1..])
  }

  lemma {:induction false} SumBound(s: seq<int>)
    requires forall i :: 0 <= i < |s| ==> s[i] <= 0
    ensures Sum(s) + Negatives(s) <= 0
  {
    if s != [] { SumBound(s[1..]); }
  }

  /**
   sem_wait and sem_signal as a lock for `init` processes: if nobody has signalled more than it waited
   for, and no undo was cut off, at most `init` processes are between their wait and their signal.
   */
  lemma AtMost(ls: seq<Logged>, who: seq<nat>, viaOpen: bool, m: nat, n: nat, id: nat) returns (init: nat)
    requires RunLogged(ls, who, viaOpen) && NeverOverfull(States(ls), who) && Initialised(ls, m, id)
    requires m < n <= |who| && Current(ls[n].s, id) && forall k :: m < k < n ==> !CutOff(ls, who, m, k)
    requires |ls[m + 1].log| <= |ls[n].log|
    requires forall p :: 0 <= p < |ls[n].s.pcs| ==> Net(Since(ls, m, n), p) <= 0
    ensures LastCall(ls[m].log, who[m]) == Create(init) && Negatives(Nets(Since(ls, m, n), |ls[n].s.pcs|)) <= init
  {
    hide NextLogged, NeverOverfull, Net, CutOff, LastCall;
    init := ValueLaw(ls, who, viaOpen, m, n, id);
    SumBound(Nets(Since(ls, m, n), |ls[n].s.pcs|));
  }

  // ---------- the counter ----------

  /** What every process has open, by the log. */
  ghost function Opens(ls: seq<Logged>, m: nat, n: nat): (s: seq<int>)
    requires m + 1 < |ls| && n < |ls| && |ls[m + 1].log| <= |ls[n].log|
    ensures |s| == |ls[n].s.pcs|
    ensures forall p :: 0 <= p < |s| ==> s[p] == Outstanding(ls[n], |ls[m + 1].log|, p)
  {
    seq(|ls[n].s.pcs|, p requires 0 <= p < |ls[n].s.pcs| => Outstanding(ls[n], |ls[m + 1].log|, p))
  }

  /**
   [1] is BIGCOUNT less the calls of sem_create and sem_open that living processes have returned from
   and not closed again, and no process has closed more than it opened.
   */
  lemma CountLaw(ls: seq<Logged>, who: seq<nat>, viaOpen: bool, m: nat, n: nat, id: nat)
    requires RunLogged(ls, who, viaOpen) && NeverOverfull(States(ls), who) && Initialised(ls, m, id)
    requires m < n <= |who| && Current(ls[n].s, id)
    ensures |ls[m + 1].log| <= |ls[n].log|
    ensures ls[n].s.cur.value.v1 == BIGCOUNT - Sum(Opens(ls, m, n)) >= 0
    ensures forall p :: 0 <= p < |ls[n].s.pcs| ==> Opens(ls, m, n)[p] >= 0
  {
    hide Inv, NextLogged, Overfull, LastCall, Net, Held, KnowsCall;
    LogSays(ls, who, viaOpen, m, n, id);
    CallsKnown(ls, who, viaOpen, n);
    assert ls[n].s.cur.value.opens == Opens(ls, m, n);
    CountIs(ls[n].s);
  }

  lemma CountIs(s: Sys)
    requires Inv(s) && s.cur.Some? && s.cur.value.inited
    ensures s.cur.value.v1 == BIGCOUNT - Sum(s.cur.value.opens) >= 0
    ensures forall p :: 0 <= p < |s.cur.value.opens| ==> s.cur.value.opens[p] >= 0
  {
  }

  /** sem_create never fails, sem_open and sem_close only if the set is gone: a lost race is tried again. */
  lemma FailsIff(s: Sys, p: nat)
    requires Inv(s) && Enabled(s, p)
    ensures p < |Step(s, p).pcs|
    ensures Step(s, p).pcs[p].Dead? <==> (s.pcs[p].OpenDec? || s.pcs[p].CloseLock?) && !Current(s, s.pcs[p].id)
    ensures s.pcs[p].CreateLock? && !Current(s, s.pcs[p].id) ==>
              Step(s, p) == s.(pcs := s.pcs[p := CreateGetId(s.pcs[p].init)])
  {
    assert PcOk(s, p);
    if s.pcs[p].CloseGet? && s.cur.Some? { SumNonneg(s.cur.value.opens, p); }
    hide LockOk, ValueOk;
  }
}
