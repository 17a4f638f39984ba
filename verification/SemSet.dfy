/**
 The three-member System V semaphore set of semaph.c. Any number of processes run sem_create, sem_open,
 sem_op and sem_close; each semop and semctl is one step; a process may die at any point, and the kernel
 then applies its undo values.
 */
module SemSet {
  import opened Basics

  const BIGCOUNT: nat := 10000

  /**
   The set. Members: v0 the semaphore, v1 the process counter, v2 the lock. adj0, adj1, adj2 are the undo
   values, one for each process. `opens` counts the opens of each process that were not closed; `inited`
   says [1] has been set, `init` what [0] was set to, and `clamped` that an undo would have gone below 0.
   */
  datatype Set = Set(id: nat, v0: int, v1: int, v2: int, adj0: seq<int>, adj1: seq<int>, adj2: seq<int>,
                     opens: seq<int>, inited: bool, init: int, clamped: bool)

  /** The next system call of a process, and its local variables. */
  datatype Pc =
    | Idle | Dead
    | CreateGetId(init: nat) | CreateLock(id: nat, init: nat) | CreateGet(id: nat, init: nat)
    | CreateSet0(id: nat, init: nat) | CreateSet1(id: nat) | CreateEnd(id: nat)
    | OpenDec(id: nat)
    | CloseLock(id: nat) | CloseGet(id: nat) | CloseRm(id: nat) | CloseUnlock(id: nat)

  /** `cur` is the set that the key names; `next` has not been an id yet. */
  datatype Sys = Sys(cur: Option<Set>, next: nat, pcs: seq<Pc>)

  function Sum(s: seq<int>): int {
    if s == [] then 0 else s[0] + Sum(s[1..])
  }

  lemma {:induction false} SumUpdate(s: seq<int>, i: nat, x: int)
    requires i < |s|
    ensures Sum(s[i := x]) == Sum(s) - s[i] + x
  {
    if i > 0 {
      assert s[i := x][1..] == s[1..][i - 1 := x];
      SumUpdate(s[1..], i - 1, x);
    } else {
      assert s[i := x][1..] == s[1..];
    }
  }

  lemma {:induction false} SumNonneg(s: seq<int>, i: nat)
    requires i < |s| && forall j :: 0 <= j < |s| ==> s[j] >= 0
    ensures Sum(s) >= s[i] >= 0
  {
    if i > 0 { SumNonneg(s[1..], i - 1); } else if |s| > 1 { SumNonneg(s[1..], 0); }
  }

  lemma {:induction false} SumZero(s: seq<int>)
    requires forall j :: 0 <= j < |s| ==> s[j] == 0
    ensures Sum(s) == 0
  {
    if s != [] { SumZero(s[1..]); }
  }

  function Zeros(n: nat): (z: seq<int>)
    ensures |z| == n && forall i :: 0 <= i < n ==> z[i] == 0
  {
    seq(n, _ => 0)
  }

  // ---------- steps ----------

  /** The pcs at which the process has the lock. */
  predicate Locked(pc: Pc) {
    pc.CreateGet? || pc.CreateSet0? || pc.CreateSet1? || pc.CreateEnd? || pc.CloseGet? || pc.CloseRm? || pc.CloseUnlock?
  }

  predicate Current(s: Sys, id: nat) {
    s.cur.Some? && s.cur.value.id == id
  }

  predicate Sized(s: Sys) {
    s.cur.Some? ==>
      var n, c := |s.pcs|, s.cur.value;
      |c.adj0| == n && |c.adj1| == n && |c.adj2| == n && |c.opens| == n
  }

  /** The process is gone: the kernel adds its undo values, but never goes below 0. */
  function Death(s: Sys, p: nat): Sys
    requires p < |s.pcs| && Sized(s)
  {
    if s.cur == None then s.(pcs := s.pcs[p := Dead])
    else
      var c := s.cur.value;
      var x := c.v0 + c.adj0[p];
      var c' := c.(v0 := if x < 0 then 0 else x, v1 := if c.v1 + c.adj1[p] < 0 then 0 else c.v1 + c.adj1[p],
                   v2 := if c.v2 + c.adj2[p] < 0 then 0 else c.v2 + c.adj2[p],
                   adj0 := c.adj0[p := 0], adj1 := c.adj1[p := 0], adj2 := c.adj2[p := 0],
                   opens := c.opens[p := 0], clamped := c.clamped || x < 0);
      s.(cur := Some(c'), pcs := s.pcs[p := Dead])
  }

  /** semop and semctl block until they can go on; they fail at once when the set is gone. */
  predicate Enabled(s: Sys, p: nat) {
    p < |s.pcs| &&
    match s.pcs[p]
    case Idle => false
    case Dead => false
    case CreateLock(id, _) => Current(s, id) ==> s.cur.value.v2 == 0
    case CloseLock(id) => Current(s, id) ==> s.cur.value.v2 == 0
    case CreateEnd(id) => Current(s, id) ==> s.cur.value.v1 >= 1 && s.cur.value.v2 >= 1
    case OpenDec(id) => Current(s, id) ==> s.cur.value.v1 >= 1
    case CloseUnlock(id) => Current(s, id) ==> s.cur.value.v2 >= 1
    case _ => true
  }

  function Go(s: Sys, p: nat, c: Set, pc: Pc): Sys
    requires p < |s.pcs|
  {
    s.(cur := Some(c), pcs := s.pcs[p := pc])
  }

  /** The system call at p's point. err_sys and err_dump end the process. */
  function Step(s: Sys, p: nat): Sys
    requires Enabled(s, p) && Sized(s)
  {
    var pc := s.pcs[p];
    if pc.CreateGetId? then
      if s.cur.Some? then s.(pcs := s.pcs[p := CreateLock(s.cur.value.id, pc.init)])
      else
        var z := Zeros(|s.pcs|);
        Sys(Some(Set(s.next, 0, 0, 0, z, z, z, z, false, 0, false)), s.next + 1,
          s.pcs[p := CreateLock(s.next, pc.init)])
    else if !Current(s, pc.id) then
      // EINVAL: sem_create starts again, the others give up
      if pc.CreateLock? then s.(pcs := s.pcs[p := CreateGetId(pc.init)]) else Death(s, p)
    else
      var c := s.cur.value;
      match pc
      case CreateLock(id, init) => Go(s, p, c.(v2 := c.v2 + 1, adj2 := c.adj2[p := c.adj2[p] - 1]), CreateGet(id, init))
      case CreateGet(id, init) => Go(s, p, c, if c.v1 == 0 then CreateSet0(id, init) else CreateEnd(id))
      case CreateSet0(id, init) =>
        Go(s, p, c.(v0 := init, adj0 := Zeros(|s.pcs|), init := init, clamped := false), CreateSet1(id))
      case CreateSet1(id) => Go(s, p, c.(v1 := BIGCOUNT, adj1 := Zeros(|s.pcs|), inited := true), CreateEnd(id))
      case CreateEnd(id) =>
        Go(s, p, c.(v1 := c.v1 - 1, adj1 := c.adj1[p := c.adj1[p] + 1], v2 := c.v2 - 1,
                    adj2 := c.adj2[p := c.adj2[p] + 1], opens := c.opens[p := c.opens[p] + 1]), Idle)
      case OpenDec(id) =>
        Go(s, p, c.(v1 := c.v1 - 1, adj1 := c.adj1[p := c.adj1[p] + 1], opens := c.opens[p := c.opens[p] + 1]), Idle)
      case CloseLock(id) =>
        Go(s, p, c.(v2 := c.v2 + 1, adj2 := c.adj2[p := c.adj2[p] - 1], v1 := c.v1 + 1,
                    adj1 := c.adj1[p := c.adj1[p] - 1], opens := c.opens[p := c.opens[p] - 1]), CloseGet(id))
      case CloseGet(id) =>
        if c.v1 > BIGCOUNT then Death(s, p) else Go(s, p, c, if c.v1 == BIGCOUNT then CloseRm(id) else CloseUnlock(id))
      case CloseRm(id) => s.(cur := None, pcs := s.pcs[p := Idle])
      case CloseUnlock(id) => Go(s, p, c.(v2 := c.v2 - 1, adj2 := c.adj2[p := c.adj2[p] + 1]), Idle)
  }

  /** sem_wait, sem_signal and sem_op: one call, while the set is open. */
  predicate CanOp(s: Sys, p: nat, value: int) {
    p < |s.pcs| && s.pcs[p].Idle? && Sized(s) && s.cur.Some? && s.cur.value.opens[p] >= 1 && value != 0
      && s.cur.value.v0 + value >= 0
  }

  function Op(s: Sys, p: nat, value: int): Sys
    requires CanOp(s, p, value)
  {
    var c := s.cur.value;
    Go(s, p, c.(v0 := c.v0 + value, adj0 := c.adj0[p := c.adj0[p] - value]), Idle)
  }

  /** An idle process starts a call; it closes only what it has open. A new process takes a free place. */
  ghost predicate Begins(s: Sys, s': Sys, p: nat, viaOpen: bool) {
    && p < |s.pcs| && Sized(s)
    && ((s.pcs[p].Idle? && exists init :: s' == s.(pcs := s.pcs[p := CreateGetId(init)]))
        || (s.pcs[p].Idle? && viaOpen && s.cur.Some? && s' == s.(pcs := s.pcs[p := OpenDec(s.cur.value.id)]))
        || (s.pcs[p].Idle? && s.cur.Some? && s.cur.value.opens[p] >= 1
          && s' == s.(pcs := s.pcs[p := CloseLock(s.cur.value.id)]))
        || (s.pcs[p].Dead? && s' == s.(pcs := s.pcs[p := Idle]))
        || (exists value :: CanOp(s, p, value) && s' == Op(s, p, value)))
  }

  /** One step; `viaOpen` says whether sem_open may be called. */
  ghost predicate Next(s: Sys, s': Sys, p: nat, viaOpen: bool) {
    && p < |s.pcs| && Sized(s)
    && (Begins(s, s', p, viaOpen) || (Enabled(s, p) && s' == Step(s, p)) || (!s.pcs[p].Dead? && s' == Death(s, p)))
  }

  ghost predicate Init(s: Sys) {
    s.cur == None && forall p :: 0 <= p < |s.pcs| ==> s.pcs[p].Idle?
  }

  // ---------- the invariant ----------

  /** [2] is a lock: at most one process has it, and that process would undo it. */
  ghost predicate LockOk(c: Set, pcs: seq<Pc>)
    requires |c.adj2| == |pcs|
  {
    && (c.v2 == 0 || c.v2 == 1)
    && (forall p :: 0 <= p < |pcs| ==> c.adj2[p] == if Locked(pcs[p]) then -1 else 0)
    && (forall p, q :: 0 <= p < |pcs| && 0 <= q < |pcs| && Locked(pcs[p]) && Locked(pcs[q]) ==> p == q)
    && (c.v2 == 1 <==> exists p :: 0 <= p < |pcs| && Locked(pcs[p]))
  }

  /** [1] is BIGCOUNT less the outstanding opens, and each process would undo its own. */
  ghost predicate CountOk(c: Set)
    requires |c.adj1| == |c.opens|
  {
    && (forall p :: 0 <= p < |c.opens| ==> c.opens[p] >= 0 && c.adj1[p] == c.opens[p])
    && c.v1 >= 0
    && (if c.inited then c.v1 + Sum(c.opens) == BIGCOUNT else c.v1 == 0 && Sum(c.opens) == 0)
  }

  /** [0] and what the processes would undo of it add up to the initial value, unless an undo was cut off. */
  ghost predicate ValueOk(c: Set) {
    c.v0 >= 0 && (c.inited && !c.clamped ==> c.v0 + Sum(c.adj0) == c.init)
  }

  ghost predicate PcOk(s: Sys, p: nat)
    requires p < |s.pcs|
  {
    var pc := s.pcs[p];
    && (!pc.Idle? && !pc.Dead? && !pc.CreateGetId? ==> pc.id < s.next)
    && (Locked(pc) ==> Current(s, pc.id))
    && (pc.CreateSet0? ==> !s.cur.value.inited)
    && (pc.CreateSet1? ==> !s.cur.value.inited && !s.cur.value.clamped && s.cur.value.v0 == s.cur.value.init)
    && (pc.CreateSet1? ==> forall q :: 0 <= q < |s.cur.value.adj0| ==> s.cur.value.adj0[q] == 0)
    && (pc.CreateEnd? || pc.CloseGet? || pc.CloseRm? || pc.CloseUnlock? ==> s.cur.value.inited)
    && (pc.CloseLock? && Current(s, pc.id) ==> Sized(s) && s.cur.value.opens[p] >= 1)
  }

  ghost predicate Inv(s: Sys) {
    && Sized(s)
    && (s.cur.Some? ==>
          s.cur.value.id < s.next && LockOk(s.cur.value, s.pcs) && CountOk(s.cur.value) && ValueOk(s.cur.value))
    && (forall p :: 0 <= p < |s.pcs| ==> PcOk(s, p))
  }

  /** p is about to read the counter in sem_create while BIGCOUNT opens are outstanding. */
  ghost predicate Overfull(s: Sys, p: nat) {
    p < |s.pcs| && s.pcs[p].CreateGet? && s.cur.Some? && s.cur.value.inited && Sum(s.cur.value.opens) >= BIGCOUNT
  }

  // ---------- one step ----------

  lemma LockTaken(c: Set, pcs: seq<Pc>, p: nat, c': Set, pc: Pc)
    requires |c.adj2| == |pcs| && p < |pcs| && LockOk(c, pcs) && c.v2 == 0 && Locked(pc)
    requires c'.v2 == 1 && c'.adj2 == c.adj2[p := c.adj2[p] - 1]
    ensures LockOk(c', pcs[p := pc])
  {
    assert Locked(pcs[p := pc][p]);
    forall q | 0 <= q < |pcs|
      ensures !Locked(pcs[q])
    {
    }
  }

  lemma LockKept(c: Set, pcs: seq<Pc>, p: nat, c': Set, pc: Pc)
    requires |c.adj2| == |pcs| && p < |pcs| && LockOk(c, pcs) && Locked(pc) == Locked(pcs[p])
    requires c'.v2 == c.v2 && c'.adj2 == c.adj2
    ensures LockOk(c', pcs[p := pc])
  {
  }

  lemma LockFreed(c: Set, pcs: seq<Pc>, p: nat, c': Set, pc: Pc)
    requires |c.adj2| == |pcs| && p < |pcs| && LockOk(c, pcs) && Locked(pcs[p]) && !Locked(pc)
    requires c'.v2 == 0 && c'.adj2 == c.adj2[p := 0]
    ensures LockOk(c', pcs[p := pc]) && c.v2 == 1 && c.adj2[p] == -1
  {
  }

  /** The process that has the lock, if p asks for it. */
  lemma Holder(c: Set, pcs: seq<Pc>, p: nat)
    requires |c.adj2| == |pcs| && p < |pcs| && LockOk(c, pcs)
    ensures Locked(pcs[p]) ==> c.v2 == 1 && forall q :: 0 <= q < |pcs| && q != p ==> !Locked(pcs[q])
  {
  }

  lemma CountMoved(c: Set, p: nat, c': Set, k: int)
    requires |c.adj1| == |c.opens| && p < |c.opens| && CountOk(c) && c.inited && c.opens[p] + k >= 0 && c.v1 - k >= 0
    requires c'.v1 == c.v1 - k && c'.adj1 == c.adj1[p := c.adj1[p] + k] && c'.opens == c.opens[p := c.opens[p] + k]
    requires c'.inited
    ensures CountOk(c')
  {
    SumUpdate(c.opens, p, c.opens[p] + k);
  }

  /** A dying process gives back exactly what it had open. */
  lemma DeathCount(s: Sys, p: nat)
    requires p < |s.pcs| && Sized(s) && s.cur.Some? && CountOk(s.cur.value)
    ensures CountOk(Death(s, p).cur.value)
  {
    var c := s.cur.value;
    SumUpdate(c.opens, p, 0);
    if !c.inited { SumNonneg(c.opens, p); }
  }

  lemma DeathLock(s: Sys, p: nat)
    requires p < |s.pcs| && Sized(s) && s.cur.Some? && LockOk(s.cur.value, s.pcs)
    ensures LockOk(Death(s, p).cur.value, Death(s, p).pcs)
  {
    var c := s.cur.value;
    if Locked(s.pcs[p]) {
      Holder(c, s.pcs, p);
      LockFreed(c, s.pcs, p, Death(s, p).cur.value, Dead);
    } else {
      assert c.adj2[p := 0] == c.adj2;
      LockKept(c, s.pcs, p, Death(s, p).cur.value, Dead);
    }
  }

  lemma DeathInv(s: Sys, p: nat)
    requires Inv(s) && p < |s.pcs|
    ensures Inv(Death(s, p))
  {
    var s' := Death(s, p);
    if s.cur.Some? {
      DeathCount(s, p);
      DeathLock(s, p);
      SumUpdate(s.cur.value.adj0, p, 0);
    }
    hide LockOk, CountOk;
    forall q | 0 <= q < |s'.pcs|
      ensures PcOk(s', q)
    {
      assert PcOk(s, q);
    }
  }

  /** The steps that change the current set, except the one that removes it. */
  lemma StepSet(s: Sys, p: nat)
    requires Inv(s) && Enabled(s, p) && !s.pcs[p].CreateGetId? && Current(s, s.pcs[p].id) && !s.pcs[p].CloseRm?
    ensures var s' := Step(s, p); s'.cur.Some? && CountOk(s'.cur.value) && ValueOk(s'.cur.value)
  {
    var c, pc := s.cur.value, s.pcs[p];
    assert PcOk(s, p);
    hide LockOk;
    var c' := Step(s, p).cur.value;
    match pc {
      case CreateSet0(_, _) =>
        SumZero(Zeros(|s.pcs|));
      case CreateSet1(_) =>
        SumZero(c.adj0);
        CountStart(c, c');
      case CreateEnd(_) => CountMoved(c, p, c', 1);
      case OpenDec(_) =>
        CountMoved(c, p, c', 1);
      case CloseLock(_) =>
        if !c.inited { SumNonneg(c.opens, p); }
        CountMoved(c, p, c', -1);
      case CloseGet(_) =>
        if c.v1 > BIGCOUNT { SumNonneg(c.opens, p); }
      case _ =>
    }
  }

  lemma CountStart(c: Set, c': Set)
    requires |c.adj1| == |c.opens| && CountOk(c) && !c.inited
    requires c' == c.(v1 := BIGCOUNT, adj1 := Zeros(|c.opens|), inited := true)
    ensures CountOk(c')
  {
    forall p | 0 <= p < |c.opens|
      ensures c.opens[p] == 0
    {
      SumNonneg(c.opens, p);
    }
  }

  lemma StepLock(s: Sys, p: nat)
    requires Inv(s) && Enabled(s, p) && !s.pcs[p].CreateGetId? && Current(s, s.pcs[p].id) && !s.pcs[p].CloseRm?
    ensures var s' := Step(s, p); s'.cur.Some? && |s'.pcs| == |s'.cur.value.adj2| && LockOk(s'.cur.value, s'.pcs)
  {
    var c, pc, s' := s.cur.value, s.pcs[p], Step(s, p);
    Holder(c, s.pcs, p);
    hide CountOk, ValueOk, PcOk;
    if pc.CloseGet? && c.v1 > BIGCOUNT {
      DeathLock(s, p);
    } else if pc.CreateLock? || pc.CloseLock? {
      LockTaken(c, s.pcs, p, s'.cur.value, s'.pcs[p]);
    } else if pc.CreateEnd? || pc.CloseUnlock? {
      LockFreed(c, s.pcs, p, s'.cur.value, s'.pcs[p]);
    } else {
      LockKept(c, s.pcs, p, s'.cur.value, s'.pcs[p]);
    }
  }

  lemma StepOther(s: Sys, p: nat, q: nat)
    requires Inv(s) && Enabled(s, p) && !s.pcs[p].CreateGetId? && Current(s, s.pcs[p].id) && q < |s.pcs| && q != p
    requires !(s.pcs[p].CloseGet? && s.cur.value.v1 > BIGCOUNT)
    ensures PcOk(Step(s, p), q)
  {
    assert PcOk(s, p) && PcOk(s, q);
    Holder(s.cur.value, s.pcs, p);
    hide CountOk, ValueOk, LockOk;
  }

  lemma StepOwn(s: Sys, p: nat)
    requires Inv(s) && Enabled(s, p) && !s.pcs[p].CreateGetId? && Current(s, s.pcs[p].id) && !Overfull(s, p)
    requires !(s.pcs[p].CloseGet? && s.cur.value.v1 > BIGCOUNT)
    ensures PcOk(Step(s, p), p)
  {
    assert PcOk(s, p);
    hide LockOk;
    if s.pcs[p].CloseLock? { SumNonneg(s.cur.value.opens, p); }
  }

  lemma CreateInv(s: Sys, p: nat)
    requires Inv(s) && Enabled(s, p) && s.pcs[p].CreateGetId?
    ensures Inv(Step(s, p))
  {
    var s' := Step(s, p);
    SumZero(Zeros(|s.pcs|));
    forall q | 0 <= q < |s.pcs|
      ensures PcOk(s', q) && (s.cur == None ==> !Locked(s.pcs[q]))
    {
      assert PcOk(s, q);
    }
    if s.cur.Some? { LockKept(s.cur.value, s.pcs, p, s.cur.value, s'.pcs[p]); }
  }

  lemma RetryInv(s: Sys, p: nat)
    requires Inv(s) && Enabled(s, p) && s.pcs[p].CreateLock? && !Current(s, s.pcs[p].id)
    ensures Inv(Step(s, p))
  {
    var s' := Step(s, p);
    if s.cur.Some? { LockKept(s.cur.value, s.pcs, p, s.cur.value, s'.pcs[p]); }
    hide LockOk, CountOk, ValueOk;
    forall q | 0 <= q < |s.pcs|
      ensures PcOk(s', q)
    {
      assert PcOk(s, q);
    }
  }

  /** Every system call keeps the invariant, except reading the counter while BIGCOUNT opens are out. */
  lemma StepInv(s: Sys, p: nat)
    requires Inv(s) && Enabled(s, p) && !Overfull(s, p)
    ensures Inv(Step(s, p))
  {
    var pc := s.pcs[p];
    if pc.CreateGetId? {
      CreateInv(s, p);
    } else if !Current(s, pc.id) {
      if pc.CreateLock? { RetryInv(s, p); } else { DeathInv(s, p); }
    } else if pc.CloseGet? && s.cur.value.v1 > BIGCOUNT {
      DeathInv(s, p);
    } else {
      if !pc.CloseRm? {
        StepSet(s, p);
        StepLock(s, p);
      }
      StepOwn(s, p);
      forall q | 0 <= q < |s.pcs|
        ensures PcOk(Step(s, p), q)
      {
        if q != p { StepOther(s, p, q); }
      }
      StepShape(s, p);
      hide LockOk, CountOk, ValueOk, PcOk, Step, Enabled;
    }
  }

  lemma StepShape(s: Sys, p: nat)
    requires Inv(s) && Enabled(s, p) && !s.pcs[p].CreateGetId? && Current(s, s.pcs[p].id)
    requires !(s.pcs[p].CloseGet? && s.cur.value.v1 > BIGCOUNT)
    ensures var s' := Step(s, p);
            && Sized(s') && |s'.pcs| == |s.pcs| && s'.next == s.next
              && (s'.cur.Some? ==> s'.cur.value.id == s.cur.value.id)
            && (s'.cur == None <==> s.pcs[p].CloseRm?)
  {
  }

  lemma OpInv(s: Sys, p: nat, value: int)
    requires Inv(s) && CanOp(s, p, value)
    ensures Inv(Op(s, p, value))
  {
    var s', c := Op(s, p, value), s.cur.value;
    SumUpdate(c.adj0, p, c.adj0[p] - value);
    LockKept(c, s.pcs, p, s'.cur.value, Idle);
    if !c.inited { SumNonneg(c.opens, p); }
    hide LockOk;
    forall q | 0 <= q < |s.pcs|
      ensures PcOk(s', q)
    {
      assert PcOk(s, q);
    }
  }

  lemma MoveInv(s: Sys, p: nat, pc: Pc)
    requires Inv(s) && p < |s.pcs| && !Locked(s.pcs[p]) && !Locked(pc) && PcOk(s.(pcs := s.pcs[p := pc]), p)
    ensures Inv(s.(pcs := s.pcs[p := pc]))
  {
    if s.cur.Some? { LockKept(s.cur.value, s.pcs, p, s.cur.value, pc); }
    hide LockOk, CountOk, ValueOk;
    var s' := s.(pcs := s.pcs[p := pc]);
    forall q | 0 <= q < |s'.pcs|
      ensures PcOk(s', q)
    {
      assert PcOk(s, q);
    }
  }

  lemma BeginInv(s: Sys, s': Sys, p: nat, viaOpen: bool)
    requires Inv(s) && Begins(s, s', p, viaOpen)
    ensures Inv(s')
  {
    if value :| CanOp(s, p, value) && s' == Op(s, p, value) {
      OpInv(s, p, value);
    } else {
      MoveInv(s, p, s'.pcs[p]);
    }
  }

  // ---------- main results ----------

  ghost predicate Run(states: seq<Sys>, who: seq<nat>, viaOpen: bool) {
    && |states| == |who| + 1 && Init(states[0])
    && forall i :: 0 <= i < |who| ==> Next(states[i], states[i + 1], who[i], viaOpen)
  }

  /** No process reads the counter in sem_create while BIGCOUNT opens are outstanding. */
  ghost predicate NeverOverfull(states: seq<Sys>, who: seq<nat>)
    requires |states| == |who| + 1
  {
    forall i :: 0 <= i < |who| ==> !Overfull(states[i], who[i])
  }

  lemma NextInv(s: Sys, s': Sys, p: nat, viaOpen: bool)
    requires Inv(s) && Next(s, s', p, viaOpen) && !Overfull(s, p)
    ensures Inv(s')
  {
    hide Inv;
    if Begins(s, s', p, viaOpen) {
      BeginInv(s, s', p, viaOpen);
    } else if Enabled(s, p) && s' == Step(s, p) {
      StepInv(s, p);
    } else {
      DeathInv(s, p);
    }
  }

  /** Whatever the interleaving and whoever dies where, the counter is exact. */
  lemma {:induction false} RunInv(states: seq<Sys>, who: seq<nat>, viaOpen: bool, n: nat)
    requires Run(states, who, viaOpen) && NeverOverfull(states, who) && n <= |who|
    ensures Inv(states[n])
  {
    hide Inv, Next, Overfull;
    if n == 0 { InitInv(states[0]); } else {
      RunInv(states, who, viaOpen, n - 1);
      NextInv(states[n - 1], states[n], who[n - 1], viaOpen);
    }
  }

  lemma InitInv(s: Sys)
    requires Init(s)
    ensures Inv(s)
  {
  }

  /** While a set is initialised no process is at either SETVAL of it, and initialised it stays. */
  lemma NeverReset(s: Sys, s': Sys, p: nat, viaOpen: bool)
    requires Inv(s) && Next(s, s', p, viaOpen) && s.cur.Some? && s.cur.value.inited
    ensures forall q :: 0 <= q < |s.pcs| ==> !s.pcs[q].CreateSet0? && !s.pcs[q].CreateSet1?
    ensures Current(s', s.cur.value.id) ==> s'.cur.value.inited && s'.cur.value.init == s.cur.value.init
  {
    NotSetting(s);
    hide LockOk, CountOk, ValueOk, PcOk;
  }

  /** A set that is gone does not come back: ids are not used again. */
  lemma GoneForGood(s: Sys, s': Sys, p: nat, viaOpen: bool, id: nat)
    requires Next(s, s', p, viaOpen) && id < s.next
    ensures id < s'.next && (Current(s', id) ==> Current(s, id))
  {
  }

  /** Once [1] of a set has been set, [0] is never set again for as long as the set exists. */
  lemma {:induction false} NeverResetInRun(states: seq<Sys>, who: seq<nat>, viaOpen: bool, m: nat, n: nat, id: nat)
    requires Run(states, who, viaOpen) && NeverOverfull(states, who) && m <= n <= |who|
    requires Current(states[m], id) && states[m].cur.value.inited
    ensures id < states[n].next
    ensures Current(states[n], id) ==>
              && states[n].cur.value.inited && states[n].cur.value.init == states[m].cur.value.init
              && forall q :: 0 <= q < |states[n].pcs| ==> !states[n].pcs[q].CreateSet0? && !states[n].pcs[q].CreateSet1?
    decreases n
  {
    hide Next, Overfull;
    RunInv(states, who, viaOpen, n);
    if n > m {
      NeverResetInRun(states, who, viaOpen, m, n - 1, id);
      GoneForGood(states[n - 1], states[n], who[n - 1], viaOpen, id);
      RunInv(states, who, viaOpen, n - 1);
      hide Inv;
      if Current(states[n], id) { NeverReset(states[n - 1], states[n], who[n - 1], viaOpen); }
    }
    if Current(states[n], id) { NotSetting(states[n]); }
  }

  lemma NotSetting(s: Sys)
    requires Inv(s) && s.cur.Some? && s.cur.value.inited
    ensures forall q :: 0 <= q < |s.pcs| ==> !s.pcs[q].CreateSet0? && !s.pcs[q].CreateSet1?
  {
    forall q | 0 <= q < |s.pcs|
      ensures !s.pcs[q].CreateSet0? && !s.pcs[q].CreateSet1?
    {
      assert PcOk(s, q);
    }
  }

  /** sem_create goes on to initialise exactly when the set is new or BIGCOUNT opens are outstanding. */
  lemma InitialisesIff(s: Sys, p: nat)
    requires Inv(s) && p < |s.pcs| && s.pcs[p].CreateGet?
    ensures Enabled(s, p) && s.cur.Some?
    ensures Step(s, p).pcs[p].CreateSet0? <==> !s.cur.value.inited || Sum(s.cur.value.opens) == BIGCOUNT
  {
    assert PcOk(s, p);
    hide LockOk;
  }

  /** sem_close goes on to remove the set exactly when nothing is open any more, and never finds [1] too large. */
  lemma RemovesIff(s: Sys, p: nat)
    requires Inv(s) && p < |s.pcs| && s.pcs[p].CloseGet?
    ensures Enabled(s, p) && s.cur.Some?
    ensures Step(s, p).pcs[p] ==
              if (forall q :: 0 <= q < |s.pcs| ==> s.cur.value.opens[q] == 0) then CloseRm(s.pcs[p].id)
              else CloseUnlock(s.pcs[p].id)
  {
    assert PcOk(s, p);
    hide LockOk;
    var c := s.cur.value;
    if forall q :: 0 <= q < |s.pcs| ==> c.opens[q] == 0 {
      SumZero(c.opens);
    } else {
      var q :| 0 <= q < |s.pcs| && c.opens[q] != 0;
      SumNonneg(c.opens, q);
    }
  }

  /** Whoever has the lock can go on, unless the counter is used up. */
  lemma HolderRuns(s: Sys, p: nat)
    requires Inv(s) && p < |s.pcs| && Locked(s.pcs[p])
    ensures Enabled(s, p) || (s.pcs[p].CreateEnd? && Sum(s.cur.value.opens) == BIGCOUNT)
  {
    assert PcOk(s, p);
    Holder(s.cur.value, s.pcs, p);
  }

  // ---------- removal ----------

  /** Whoever is about to remove the set is right that nobody has it open. */
  ghost predicate Removable(s: Sys) {
    && Sized(s)
    && forall p :: 0 <= p < |s.pcs| && s.pcs[p].CloseRm? && s.cur.Some? ==> Sum(s.cur.value.opens) == 0
  }

  /** The decrement of sem_open takes effect while some process has seen that it may remove the set. */
  ghost predicate Clash(s: Sys, s': Sys, p: nat) {
    && p < |s.pcs| && s.pcs[p].OpenDec? && Current(s, s.pcs[p].id)
    && Sized(s) && Enabled(s, p) && s' == Step(s, p)
    && exists q :: 0 <= q < |s.pcs| && s.pcs[q].CloseRm?
  }

  /** Only what a lock holder does, or sem_open, makes more opens. */
  lemma OpensFall(s: Sys, s': Sys, p: nat)
    requires Inv(s) && Next(s, s', p, true) && !s.pcs[p].CreateEnd?
    requires s.pcs[p].OpenDec? && Current(s, s.pcs[p].id) && Enabled(s, p) ==> s' != Step(s, p)
    requires s.cur.Some? && s'.cur.Some? && Sum(s.cur.value.opens) == 0 && s.cur.value.id == s'.cur.value.id
    ensures Sum(s'.cur.value.opens) == 0
  {
    hide LockOk, ValueOk;
    SumNonneg(s.cur.value.opens, p);
    assert s.cur.value.opens[p] == 0;
    assert s.cur.value.opens[p := 0] == s.cur.value.opens;
    assert PcOk(s, p);
  }

  lemma RemovableAt(s: Sys, s': Sys, p: nat, q: nat)
    requires Inv(s) && Next(s, s', p, true) && !Clash(s, s', p) && Removable(s)
    requires q < |s'.pcs| && s'.pcs[q].CloseRm? && s'.cur.Some?
    ensures Sum(s'.cur.value.opens) == 0
  {
    assert PcOk(s, q) && PcOk(s, p);
    if s.pcs[q].CloseRm? {
      Holder(s.cur.value, s.pcs, q);
      hide Inv, LockOk, CountOk, ValueOk, PcOk;
      CurrentKept(s, s', p);
      OpensFall(s, s', p);
    } else {
      assert q == p && s.pcs[p].CloseGet?;
      RemovesIff(s, p);
      hide Inv, LockOk, CountOk, ValueOk, PcOk;
      SumZero(s.cur.value.opens);
    }
  }

  lemma CurrentKept(s: Sys, s': Sys, p: nat)
    requires Next(s, s', p, true) && s.cur.Some? && s'.cur.Some?
    ensures s'.cur.value.id == s.cur.value.id
  {
  }

  lemma RemovableNext(s: Sys, s': Sys, p: nat)
    requires Inv(s) && Inv(s') && Next(s, s', p, true) && !Clash(s, s', p) && Removable(s)
    ensures Removable(s')
  {
    hide Inv, LockOk, CountOk, ValueOk, PcOk, Sum, Clash, Next;
    InvSized(s');
    forall q | 0 <= q < |s'.pcs| && s'.pcs[q].CloseRm? && s'.cur.Some?
      ensures Sum(s'.cur.value.opens) == 0
    {
      RemovableAt(s, s', p, q);
    }
  }

  lemma InvSized(s: Sys)
    requires Inv(s)
    ensures Sized(s)
  {
  }
  lemma NextMore(s: Sys, s': Sys, p: nat, viaOpen: bool)
    requires Next(s, s', p, viaOpen)
    ensures Next(s, s', p, true)
  {
  }

  /** No step of the run is a clash. */
  ghost predicate NoClash(states: seq<Sys>, who: seq<nat>)
    requires |states| == |who| + 1
  {
    forall i :: 0 <= i < |who| ==> !Clash(states[i], states[i + 1], who[i])
  }

  /** As long as no sem_open overlaps a removal, a set is never removed while somebody has it open. */
  lemma {:induction false} RemovedOnlyClosed(states: seq<Sys>, who: seq<nat>, viaOpen: bool, n: nat)
    requires Run(states, who, viaOpen) && NeverOverfull(states, who) && NoClash(states, who) && n <= |who|
    ensures Removable(states[n])
    ensures n < |who| && states[n].cur.Some? && !Current(states[n + 1], states[n].cur.value.id) ==>
              forall p :: 0 <= p < |states[n].cur.value.opens| ==> states[n].cur.value.opens[p] == 0
  {
    hide Inv, Removable, Overfull, Clash, Next;
    RunInv(states, who, viaOpen, n);
    if n == 0 {
      InitRemovable(states[0]);
    } else {
      RemovedOnlyClosed(states, who, viaOpen, n - 1);
      RunInv(states, who, viaOpen, n - 1);
      NextMore(states[n - 1], states[n], who[n - 1], viaOpen);
      RemovableNext(states[n - 1], states[n], who[n - 1]);
    }
    if n < |who| && states[n].cur.Some? && !Current(states[n + 1], states[n].cur.value.id) {
      NextMore(states[n], states[n + 1], who[n], viaOpen);
      OnlyRmRemoves(states[n], states[n + 1], who[n]);
    }
  }

  lemma InitRemovable(s: Sys)
    requires Init(s)
    ensures Removable(s)
  {
  }

  lemma OnlyRmRemoves(s: Sys, s': Sys, p: nat)
    requires Inv(s) && Next(s, s', p, true) && Removable(s) && s.cur.Some? && !Current(s', s.cur.value.id)
    ensures forall q :: 0 <= q < |s.cur.value.opens| ==> s.cur.value.opens[q] == 0
  {
    assert s.pcs[p].CloseRm?;
    forall q | 0 <= q < |s.cur.value.opens|
      ensures s.cur.value.opens[q] == 0
    {
      SumNonneg(s.cur.value.opens, q);
    }
  }

  /** If they do overlap, the next step may remove the set that has just been opened. */
  lemma ClashRemoves(s: Sys, s': Sys, p: nat) returns (q: nat)
    requires Inv(s) && Removable(s) && Clash(s, s', p)
    ensures Sized(s') && s'.cur.Some? && s'.cur.value.opens[p] == 1
    ensures Enabled(s', q) && s'.pcs[q].CloseRm? && Next(s', Step(s', q), q, true) && Step(s', q).cur == None
  {
    q :| 0 <= q < |s.pcs| && s.pcs[q].CloseRm?;
    assert PcOk(s, q);
    SumNonneg(s.cur.value.opens, p);
  }

  /** Without sem_open nothing clashes. */
  lemma {:induction false} NoSemOpen(states: seq<Sys>, who: seq<nat>, n: nat)
    requires Run(states, who, false) && n <= |who|
    ensures forall p :: 0 <= p < |states[n].pcs| ==> !states[n].pcs[p].OpenDec?
  {
    if n > 0 {
      NoSemOpen(states, who, n - 1);
      assert Next(states[n - 1], states[n], who[n - 1], false);
    }
  }

  /** If everyone enters through sem_create, the set is never removed while somebody has it open. */
  lemma NeverRemovedOpen(states: seq<Sys>, who: seq<nat>, n: nat)
    requires Run(states, who, false) && NeverOverfull(states, who) && n <= |who|
    ensures Removable(states[n])
    ensures n < |who| && states[n].cur.Some? && !Current(states[n + 1], states[n].cur.value.id) ==>
              forall p :: 0 <= p < |states[n].cur.value.opens| ==> states[n].cur.value.opens[p] == 0
  {
    hide Next, Overfull, Removable;
    forall i | 0 <= i < |who|
      ensures !Clash(states[i], states[i + 1], who[i])
    {
      NoSemOpen(states, who, i);
    }
    RemovedOnlyClosed(states, who, false, n);
  }

  // ---------- where the promises end ----------

  ghost predicate Reachable(s: Sys, viaOpen: bool) {
    exists states, who :: Run(states, who, viaOpen) && states[|who|] == s
  }

  lemma ReachInit(s: Sys, viaOpen: bool)
    requires Init(s)
    ensures Reachable(s, viaOpen)
  {
    assert Run([s], [], viaOpen);
  }

  lemma ReachNext(s: Sys, s': Sys, p: nat, viaOpen: bool)
    requires Reachable(s, viaOpen) && Next(s, s', p, viaOpen)
    ensures Reachable(s', viaOpen)
  {
    var states, who :| Run(states, who, viaOpen) && states[|who|] == s;
    hide Next;
    assert Run(states + [s'], who + [p], viaOpen);
  }

  lemma ReachStep(s: Sys, p: nat, viaOpen: bool) returns (s': Sys)
    requires Reachable(s, viaOpen) && Sized(s) && Enabled(s, p)
    ensures s' == Step(s, p) && Reachable(s', viaOpen)
  {
    s' := Step(s, p);
    ReachNext(s, s', p, viaOpen);
  }

  /** n processes, of which process 0 has opened the new set k times and has set [0] to 1. */
  function Opened(n: nat, k: nat): Sys
    requires n > 0 && k <= BIGCOUNT
  {
    var z := Zeros(n);
    Sys(Some(Set(0, 1, BIGCOUNT - k, 0, z, z[0 := k], z, z[0 := k], true, 1, false)), 1, seq(n, _ => Idle))
  }

  function At0(s: Sys, pc: Pc): Sys
    requires |s.pcs| > 0
  {
    s.(pcs := s.pcs[0 := pc])
  }

  lemma OpenedFirst(n: nat)
    requires n > 0
    ensures Reachable(Opened(n, 1), false)
  {
    hide Reachable;
    var idle := Sys(None, 0, seq(n, _ => Idle));
    ReachInit(idle, false);
    ReachNext(idle, At0(idle, CreateGetId(1)), 0, false);
    var s := ReachStep(At0(idle, CreateGetId(1)), 0, false);
    s := ReachStep(s, 0, false);
    s := ReachStep(s, 0, false);
    s := ReachStep(s, 0, false);
    s := ReachStep(s, 0, false);
    s := ReachStep(s, 0, false);
    assert s.cur.value.adj2 == Zeros(n);
    assert s.cur.value.adj0 == Zeros(n);
    assert s == Opened(n, 1);
  }

  /** With sem_open, a set can be removed while it is open: the last closer has looked at the counter already. */
  lemma OpenRace() returns (s: Sys)
    ensures Reachable(s, true) && Sized(s) && s.cur.Some? && |s.pcs| == 2 && s.cur.value.opens[1] == 1
    ensures Enabled(s, 0) && s.pcs[0].CloseRm? && Step(s, 0).cur == None
  {
    hide Reachable;
    s := Opened(2, 1);
    OpenedFirst(2);
    ReachMore(s);
    var t := At0(s, CloseLock(0));
    ReachNext(s, t, 0, true);
    t := ReachStep(t, 0, true);
    t := ReachStep(t, 0, true);
    var u := t.(pcs := t.pcs[1 := OpenDec(0)]);
    ReachNext(t, u, 1, true);
    s := ReachStep(u, 1, true);
  }

  lemma ReachMore(s: Sys)
    requires Reachable(s, false)
    ensures Reachable(s, true)
  {
  }

  /** A process may come back for more without closing. */
  lemma OpenedAgain(k: nat)
    requires 1 <= k < BIGCOUNT && Reachable(Opened(1, k), false)
    ensures Reachable(Opened(1, k + 1), false)
  {
    hide Reachable;
    var s := Opened(1, k);
    ReachNext(s, At0(s, CreateGetId(1)), 0, false);
    s := ReachStep(At0(s, CreateGetId(1)), 0, false);
    s := ReachStep(s, 0, false);
    s := ReachStep(s, 0, false);
    s := ReachStep(s, 0, false);
    assert s.cur.value.adj2 == Zeros(1) && s.cur.value.adj1 == Zeros(1)[0 := k + 1] == s.cur.value.opens;
    assert s == Opened(1, k + 1);
  }

  lemma {:induction false} OpenedMany(k: nat)
    requires 1 <= k <= BIGCOUNT
    ensures Reachable(Opened(1, k), false)
  {
    hide Reachable;
    if k == 1 { OpenedFirst(1); } else {
      OpenedMany(k - 1);
      OpenedAgain(k - 1);
    }
  }

  /** With BIGCOUNT opens outstanding, one more sem_create sets [0] again, here to 7. */
  lemma SetTwice() returns (s: Sys)
    ensures Reachable(s, false) && Sized(s) && s.cur.Some? && s.cur.value.inited && s.cur.value.init == 1
    ensures |s.pcs| == 1
    ensures s.cur.value.opens == [BIGCOUNT] && Enabled(s, 0) && Step(s, 0).cur.Some? && Step(s, 0).cur.value.v0 == 7
  {
    hide Reachable;
    OpenedMany(BIGCOUNT);
    s := Opened(1, BIGCOUNT);
    ReachNext(s, At0(s, CreateGetId(7)), 0, false);
    s := ReachStep(At0(s, CreateGetId(7)), 0, false);
    s := ReachStep(s, 0, false);
    s := ReachStep(s, 0, false);
  }

  /** A creator that dies between its two SETVALs leaves [0] set, and the next one sets it again. */
  lemma SetAgain() returns (s: Sys)
    ensures Reachable(s, false) && Sized(s) && |s.pcs| == 2 && s.cur.Some? && !s.cur.value.inited && s.cur.value.v0 == 1
    ensures s.pcs[0].Dead? && Enabled(s, 1)
    ensures Step(s, 1).cur == Some(s.cur.value.(v0 := 7, init := 7, adj0 := Zeros(2)))
  {
    hide Reachable;
    var idle := Sys(None, 0, [Idle, Idle]);
    ReachInit(idle, false);
    s := At0(idle, CreateGetId(1));
    ReachNext(idle, s, 0, false);
    s := ReachStep(s, 0, false);
    s := ReachStep(s, 0, false);
    s := ReachStep(s, 0, false);
    s := ReachStep(s, 0, false);
    var dead := Death(s, 0);
    ReachNext(s, dead, 0, false);
    s := dead.(pcs := dead.pcs[1 := CreateGetId(7)]);
    ReachNext(dead, s, 1, false);
    s := ReachStep(s, 1, false);
    s := ReachStep(s, 1, false);
    s := ReachStep(s, 1, false);
  }
}
