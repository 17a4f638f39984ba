/**
 Whole calls in a run of module DbSteps: a call that returns has taken effect once, with the answer that
 the calls before it demand; db_nextrec passes over blank records only; and no record is ever lost.
 */
module DbStepsCalls {
  import opened Basics
  import opened DbText
  import opened DbIndex
  import opened DbBytes
  import opened DbFile
  import opened DbSteps
  import opened DbLaws
  import opened DbStepsInv
  import opened DbStepsMem
  import opened DbStepsSafe

  // ---------- one process in a run ----------

  function PcOf(b: seq<Sys>, k: nat, p: Pid): Pc {
    if k < |b| && p in b[k].procs then b[k].procs[p].pc else Idle
  }

  function LogOf(b: seq<Sys>, k: nat, p: Pid): seq<Event> {
    if k < |b| && p in b[k].procs then b[k].procs[p].log else []
  }

  /** Process p makes the step from k to k + 1, and it is a system call. */
  ghost predicate Calls(b: seq<Sys>, k: nat, p: Pid) {
    && k + 1 < |b| && |b[k].locks.bytes| == NLISTS && Enabled(b[k], p) && p in b[k].procs
    && Sane(b[k].mem, b[k].procs[p].pc) && b[k + 1] == Step(b[k], p)
  }

  /** A process inside a call makes a system call or stays where it is. */
  lemma Moves(b: seq<Sys>, k: nat, p: Pid)
    requires Run(b) && k + 1 < |b| && p in b[k].procs && !b[k].procs[p].pc.Idle? && !b[k].procs[p].pc.Scanning?
    ensures p in b[k + 1].procs
    ensures Calls(b, k, p) || b[k + 1].procs[p] == b[k].procs[p]
  {
    hide Run, Sane, Wellformed, CallEffect, Relock;
    var q := StepOf(b, k);
    if q == p { EnabledProc(b[k], p); }
  }

  lemma EnabledProc(s: Sys, p: Pid)
    requires |s.locks.bytes| == NLISTS && Enabled(s, p)
    ensures p in s.procs
  {
  }

  // ---------- fetch, delete and store ----------

  /** A call keeps its operation from one system call to the next, until it returns. */
  lemma OpStays(mem: Mem, p: Pid, pc: Pc)
    requires Sane(mem, pc) && HasOp(pc)
    ensures var pc' := CallEffect(mem, p, pc).pc; if pc.Unlock? then pc' == Idle else HasOp(pc') && pc'.op == pc.op
  {
    hide CallEffect, Sane;
    if !Quiet(pc) {
      WriteStays(mem, p, pc);
    } else if AtReuse(pc) || AtAppend(pc) {
      GrowStays(mem, p, pc);
    } else {
      WalkStays(mem, p, pc);
    }
  }

  lemma WriteStays(mem: Mem, p: Pid, pc: Pc)
    requires Sane(mem, pc) && HasOp(pc) && !Quiet(pc)
    ensures var pc' := CallEffect(mem, p, pc).pc; HasOp(pc') && pc'.op == pc.op
  {
    hide Hash, Blanked, Rewritten, Freed, Unhooked, TakenFree, FilledDat, FilledIdx, GrownDat, GrownIdx, Headed,
         Overwritten;
  }

  lemma GrowStays(mem: Mem, p: Pid, pc: Pc)
    requires Sane(mem, pc) && HasOp(pc) && Quiet(pc) && (AtReuse(pc) || AtAppend(pc))
    ensures var pc' := CallEffect(mem, p, pc).pc; HasOp(pc') && pc'.op == pc.op
  {
    hide Hash, Fits;
  }

  lemma WalkStays(mem: Mem, p: Pid, pc: Pc)
    requires Sane(mem, pc) && HasOp(pc) && Quiet(pc) && !AtReuse(pc) && !AtAppend(pc)
    ensures var pc' := CallEffect(mem, p, pc).pc; if pc.Unlock? then pc' == Idle else HasOp(pc') && pc'.op == pc.op
  {
    hide Hash;
  }

  /** From its start until it returns p is inside a call of op, and then its log has one event more. */
  ghost predicate Within(b: seq<Sys>, i: nat, k: nat, p: Pid, op: Op) {
    && HasOp(PcOf(b, k, p)) && PcOf(b, k, p).op == op && LogOf(b, k, p) == LogOf(b, i, p)
  }

  lemma WithinNext(b: seq<Sys>, i: nat, k: nat, p: Pid, op: Op)
    requires Run(b) && k + 1 < |b| && p in b[k].procs && Within(b, i, k, p, op)
    ensures p in b[k + 1].procs
    ensures if PcOf(b, k, p).Unlock? && PcOf(b, k + 1, p) != PcOf(b, k, p)
            then PcOf(b, k + 1, p) == Idle && LogOf(b, k + 1, p) == LogOf(b, i, p) + [Event(p, op, PcOf(b, k, p).res)]
            else Within(b, i, k + 1, p, op)
  {
    hide Run, Sane, CallEffect, Relock, Enabled;
    Moves(b, k, p);
    if Calls(b, k, p) {
      OpStays(b[k].mem, p, b[k].procs[p].pc);
    }
  }

  lemma {:induction false} WithinUntil(b: seq<Sys>, i: nat, j: nat, p: Pid, op: Op)
    requires Run(b) && i < j < |b| && p in b[i].procs && b[i + 1] == Begin(b[i], p, Lock(op))
    requires forall k :: i < k <= j ==> HasOp(PcOf(b, k, p))
    ensures p in b[j].procs && Within(b, i, j, p, op)
    decreases j
  {
    hide Run;
    if j > i + 1 {
      WithinUntil(b, i, j - 1, p, op);
      hide Within;
      WithinNext(b, i, j - 1, p, op);
    }
  }

  /**
   A call of op that begins at i and has returned by j has put one event into its process's log, the only one,
   and that event is lawful where it stands in the serial order, which is after all that had taken effect
   when the call began.
   */
  lemma CallReturns(b: seq<Sys>, i: nat, j: nat, p: Pid, op: Op) returns (res: Res, n: nat)
    requires Run(b) && i + 1 < j < |b| && p in b[i].procs && (b[i].procs[p].pc.Idle? || b[i].procs[p].pc.Scanning?)
    requires b[i + 1] == Begin(b[i], p, Lock(op))
    requires forall k :: i < k < j ==> HasOp(PcOf(b, k, p))
    requires !HasOp(PcOf(b, j, p))
    ensures PcOf(b, j, p) == Idle && LogOf(b, j, p) == LogOf(b, i, p) + [Event(p, op, res)]
    ensures |b[i].hist| <= n < |b[j].hist| && b[j].hist[n] == Event(p, op, res) && Lawful(b[j].hist, n)
  {
    hide Run, Inv, Serial, Replay, Proj, Begin, Lawful;
    WithinUntil(b, i, j - 1, p, op);
    WithinNext(b, i, j - 1, p, op);
    res := PcOf(b, j - 1, p).res;
    n := EventIn(b, i, j, p, Event(p, op, res));
    RunsAreSerial(b, j);
    SerialLawful(b[j].hist, n);
  }

  /** Where in the serial order the call is that a process has returned from since. */
  lemma EventIn(b: seq<Sys>, i: nat, j: nat, p: Pid, e: Event) returns (n: nat)
    requires Run(b) && i <= j < |b| && p in b[i].procs && p in b[j].procs
    requires (b[i].procs[p].pc.Idle? || b[i].procs[p].pc.Scanning?) && b[j].procs[p].pc.Idle?
    requires b[j].procs[p].log == b[i].procs[p].log + [e]
    ensures |b[i].hist| <= n < |b[j].hist| && b[j].hist[n] == e
  {
    hide Run, Inv, Serial, Replay, Proj;
    OrderRespectsTime(b, i, j);
    RunsAreSerial(b, j);
    var log, rest := b[i].procs[p].log, Proj(b[j].hist[|b[i].hist|..], p);
    assert rest == (log + rest)[|log|..] == (log + [e])[|log|..] == [e];
    var m := ProjIn(b[j].hist[|b[i].hist|..], p, e);
    n := |b[i].hist| + m;
  }

  lemma {:induction false} ProjIn(hist: seq<Event>, p: Pid, e: Event) returns (n: nat)
    requires e in Proj(hist, p)
    ensures n < |hist| && hist[n] == e
  {
    var last := |hist| - 1;
    if hist[last].pid == p && hist[last] == e {
      n := last;
    } else {
      n := ProjIn(hist[..last], p, e);
    }
  }

  // ---------- db_nextrec ----------

  /** A record that a call of db_nextrec has read: when, where, and what it was then. */
  datatype Look = Look(time: nat, off: nat, rec: Rec)

  /** Where the next record begins after these, which begin at pos. */
  function Upto(pos: nat, seen: seq<Look>): nat {
    if seen == [] then pos else seen[|seen| - 1].off + RecSize(seen[|seen| - 1].rec)
  }

  /** One after the other from pos on, without leaving one out. */
  ghost predicate InARow(pos: nat, seen: seq<Look>) {
    && (forall n :: 0 <= n < |seen| ==> seen[n].off == Upto(pos, seen[..n]))
    && (forall m, n :: 0 <= m < n < |seen| ==> seen[m].time < seen[n].time)
  }

  /** Between i and k process p read this record, which was in the file then. */
  ghost predicate WasRead(b: seq<Sys>, i: nat, k: nat, p: Pid, r: Look) {
    && i < r.time < k <= |b| && PcOf(b, r.time, p) == NextBody(r.off)
    && r.off in b[r.time].mem.recs && r.rec == b[r.time].mem.recs[r.off]
  }

  ghost predicate Reads(b: seq<Sys>, i: nat, k: nat, p: Pid, pos: nat, seen: seq<Look>) {
    InARow(pos, seen) && forall r :: r in seen ==> WasRead(b, i, k, p, r)
  }

  ghost predicate AllBlank(seen: seq<Look>) {
    forall n :: 0 <= n < |seen| ==> Blank(seen[n].rec.key)
  }

  /** The last record read is r, and the first with a key. */
  ghost predicate FirstKey(seen: seq<Look>, r: Look) {
    seen != [] && r == seen[|seen| - 1] && !Blank(r.rec.key) && AllBlank(seen[..|seen| - 1])
  }

  /** What the call knows by now; `t` is when it read the data, or found the end of the file. */
  ghost predicate Sofar(b: seq<Sys>, i: nat, k: nat, p: Pid, pos: nat, seen: seq<Look>, t: nat) {
    match PcOf(b, k, p)
    case NextLock(x) => x == pos && seen == []
    case NextHead(x) => x == Upto(pos, seen) && AllBlank(seen)
    case NextBody(x) => x == Upto(pos, seen) && AllBlank(seen)
    case NextDat(x, o, key, datoff) =>
      x == Upto(pos, seen) && exists r :: FirstKey(seen, r) && r.off == o && r.rec.key == key && r.rec.datoff == datoff
    case NextUnlock(x, pair) => x == Upto(pos, seen) && Answer(b, i, k, seen, x, pair, t)
    case _ => true
  }

  /**
   What db_nextrec returns: the first key it met that was not blank, with its data; or NULL because all it met
   were blank and the file ended there.
   */
  ghost predicate Answer(b: seq<Sys>, i: nat, k: nat, seen: seq<Look>, x: nat, pair: Option<(string, string)>, t: nat) {
    && i <= t < k <= |b|
    && match pair
       case None => AllBlank(seen) && x == b[t].mem.eof
       case Some(kd) =>
         exists r :: FirstKey(seen, r) && r.time < t && kd.0 == r.rec.key && kd.1 == CellAt(b[t].mem, r.rec.datoff)
  }

  lemma CallsPc(b: seq<Sys>, k: nat, p: Pid)
    requires Calls(b, k, p)
    ensures p in b[k + 1].procs && PcOf(b, k + 1, p) == CallEffect(b[k].mem, p, PcOf(b, k, p)).pc
  {
    hide CallEffect, Sane, Enabled, Relock;
  }

  lemma ReadsKeep(b: seq<Sys>, i: nat, k: nat, p: Pid, pos: nat, seen: seq<Look>)
    requires Reads(b, i, k, p, pos, seen) && k < |b|
    ensures Reads(b, i, k + 1, p, pos, seen)
  {
    hide RecSize, InARow, PcOf;
  }

  lemma InARowMore(pos: nat, seen: seq<Look>, r: Look)
    requires InARow(pos, seen) && r.off == Upto(pos, seen) && forall q :: q in seen ==> q.time < r.time
    ensures InARow(pos, seen + [r])
  {
    hide Upto;
    var seen' := seen + [r];
    forall n | 0 <= n < |seen'|
      ensures seen'[n].off == Upto(pos, seen'[..n])
    {
      assert seen'[..n] == if n < |seen| then seen[..n] else seen;
    }
  }

  lemma CallsBody(b: seq<Sys>, k: nat, p: Pid, x: nat)
    requires Calls(b, k, p) && PcOf(b, k, p) == NextBody(x) && x in b[k].mem.recs
    ensures p in b[k + 1].procs
    ensures var r := b[k].mem.recs[x];
            PcOf(b, k + 1, p) == if Blank(r.key) then NextHead(x + RecSize(r))
              else NextDat(x + RecSize(r), x, r.key, r.datoff)
  {
    CallsPc(b, k, p);
    hide Calls, Blank, RecSize, Sane, PcOf;
  }

  /** A record is read: it is blank and passed over, or it is the one to return. */
  lemma BodySofar(b: seq<Sys>, i: nat, k: nat, p: Pid, pos: nat, seen: seq<Look>, t: nat) returns (seen': seq<Look>)
    requires Reads(b, i, k, p, pos, seen) && i < k && Calls(b, k, p) && PcOf(b, k, p) == NextBody(Upto(pos, seen))
    requires Upto(pos, seen) in b[k].mem.recs && AllBlank(seen)
    ensures Reads(b, i, k + 1, p, pos, seen') && Sofar(b, i, k + 1, p, pos, seen', t)
  {
    assert k < |b| by { CallsPc(b, k, p); }
    var x := Upto(pos, seen);
    var r := Look(k, x, b[k].mem.recs[x]);
    seen' := seen + [r];
    ReadsKeep(b, i, k, p, pos, seen);
    BodyReads(b, i, k, p, pos, seen, r);
    CallsBody(b, k, p, x);
    hide Reads, Calls, PcOf, Blank, RecSize, Upto, AllBlank, Sofar;
    BodyFinds(b, i, k + 1, p, pos, seen, r, t);
  }

  lemma BodyFinds(b: seq<Sys>, i: nat, k: nat, p: Pid, pos: nat, seen: seq<Look>, r: Look, t: nat)
    requires AllBlank(seen)
    requires PcOf(b, k, p) == if Blank(r.rec.key) then NextHead(r.off + RecSize(r.rec))
                              else NextDat(r.off + RecSize(r.rec), r.off, r.rec.key, r.rec.datoff)
    ensures Sofar(b, i, k, p, pos, seen + [r], t)
  {
    hide PcOf, Blank, RecSize;
    var seen' := seen + [r];
    assert seen'[..|seen'| - 1] == seen && Upto(pos, seen') == r.off + RecSize(r.rec);
    hide Upto;
    if !Blank(r.rec.key) { assert FirstKey(seen', r); }
  }

  lemma BodyReads(b: seq<Sys>, i: nat, k: nat, p: Pid, pos: nat, seen: seq<Look>, r: Look)
    requires Reads(b, i, k, p, pos, seen) && WasRead(b, i, k + 1, p, r) && r.time == k && r.off == Upto(pos, seen)
    ensures Reads(b, i, k + 1, p, pos, seen + [r])
  {
    hide InARow, PcOf, Upto;
    InARowMore(pos, seen, r);
  }

  lemma LockSofar(b: seq<Sys>, i: nat, k: nat, p: Pid, pos: nat, seen: seq<Look>, t: nat)
    requires i <= k && Calls(b, k, p) && Sofar(b, i, k, p, pos, seen, t)
    requires (PcOf(b, k, p).NextLock? || PcOf(b, k, p).NextHead?)
    ensures Sofar(b, i, k + 1, p, pos, seen, k)
  {
    assert k < |b|;
    CallsPc(b, k, p);
    hide Calls, RecSize, PcOf, Blank, Sane, FirstKey;
  }

  lemma DatSofar(b: seq<Sys>, i: nat, k: nat, p: Pid, pos: nat, seen: seq<Look>, t: nat)
    requires i <= k && Reads(b, i, k, p, pos, seen) && Calls(b, k, p) && Sofar(b, i, k, p, pos, seen, t)
    requires PcOf(b, k, p).NextDat?
    ensures Sofar(b, i, k + 1, p, pos, seen, k)
  {
    assert k < |b|;
    var pc := PcOf(b, k, p);
    var r :| FirstKey(seen, r) && r.off == pc.o && r.rec.key == pc.key && r.rec.datoff == pc.datoff;
    assert WasRead(b, i, k, p, r);
    CallsPc(b, k, p);
    hide Calls, Reads, PcOf, Blank, Sane, FirstKey, CellAt;
  }

  lemma SofarKeep(b: seq<Sys>, i: nat, k: nat, p: Pid, pos: nat, seen: seq<Look>, t: nat)
    requires Sofar(b, i, k, p, pos, seen, t) && PcOf(b, k + 1, p) == PcOf(b, k, p) && k < |b|
    ensures Sofar(b, i, k + 1, p, pos, seen, t)
  {
    hide AllBlank, FirstKey, CellAt, PcOf, Upto;
  }

  predicate Scans(pc: Pc) {
    pc.NextLock? || pc.NextHead? || pc.NextBody? || pc.NextDat? || pc.NextUnlock?
  }

  /** One system call of the scan, or a step of another process. */
  lemma ScanNext(b: seq<Sys>, i: nat, k: nat, p: Pid, pos: nat, seen: seq<Look>, t: nat)
    returns (seen': seq<Look>, t': nat)
    requires Run(b) && i <= k && k + 1 < |b| && p in b[k].procs && Scans(PcOf(b, k, p)) && Scans(PcOf(b, k + 1, p))
    requires Reads(b, i, k, p, pos, seen) && Sofar(b, i, k, p, pos, seen, t) && (i == k ==> PcOf(b, k, p).NextLock?)
    ensures p in b[k + 1].procs
    ensures Reads(b, i, k + 1, p, pos, seen') && Sofar(b, i, k + 1, p, pos, seen', t')
  {
    hide Run, Blank, RecSize, Inv, Reads, Calls, AllBlank, Answer, FirstKey, Upto;
    RunInv(b, k);
    InvPoint(b[k], p);
    Moves(b, k, p);
    seen', t' := seen, t;
    ReadsKeep(b, i, k, p, pos, seen);
    if Calls(b, k, p) {
      var pc := PcOf(b, k, p);
      if pc.NextBody? {
        seen' := BodySofar(b, i, k, p, pos, seen, t);
      } else if pc.NextDat? {
        DatSofar(b, i, k, p, pos, seen, t);
        t' := k;
      } else if pc.NextUnlock? {
        CallsPc(b, k, p);
      } else {
        LockSofar(b, i, k, p, pos, seen, t);
        t' := k;
      }
    } else {
      SofarKeep(b, i, k, p, pos, seen, t);
    }
  }

  lemma {:induction false} ScanUntil(b: seq<Sys>, i: nat, j: nat, p: Pid, pos: nat) returns (seen: seq<Look>, t: nat)
    requires Run(b) && i <= j < |b| && p in b[i].procs && PcOf(b, i, p) == NextLock(pos)
    requires forall k :: i <= k <= j ==> Scans(PcOf(b, k, p))
    ensures p in b[j].procs && Reads(b, i, j, p, pos, seen) && Sofar(b, i, j, p, pos, seen, t)
    ensures i == j ==> PcOf(b, j, p).NextLock?
    decreases j
  {
    hide Run, Scans;
    if i == j {
      seen, t := [], 0;
    } else {
      seen, t := ScanUntil(b, i, j - 1, p, pos);
      hide Reads, Sofar;
      seen, t := ScanNext(b, i, j - 1, p, pos, seen, t);
    }
  }

  /** A scanning process that asks for the next record does so from where it stands. */
  lemma ScanBegins(b: seq<Sys>, i: nat, p: Pid)
    requires Run(b) && i + 1 < |b| && p in b[i].procs && PcOf(b, i, p).Scanning? && PcOf(b, i + 1, p).NextLock?
    ensures p in b[i + 1].procs && PcOf(b, i + 1, p) == NextLock(PcOf(b, i, p).pos)
  {
    hide Run, Sane, Wellformed, CallEffect, Relock;
    var q := StepOf(b, i);
  }

  /** The call returns with the answer it had when it gave up the lock, and stands behind what it read. */
  lemma ScanReturns(b: seq<Sys>, k: nat, p: Pid)
    requires Run(b) && k + 1 < |b| && p in b[k].procs && Scans(PcOf(b, k, p)) && PcOf(b, k + 1, p).Scanning?
    ensures PcOf(b, k, p).NextUnlock? && PcOf(b, k + 1, p) == Scanning(PcOf(b, k, p).pos)
  {
    hide Run, Calls, Blank, RecSize;
    Moves(b, k, p);
    if Calls(b, k, p) { CallsPc(b, k, p); SaneOf(b, k, p); }
  }

  lemma SaneOf(b: seq<Sys>, k: nat, p: Pid)
    requires Calls(b, k, p)
    ensures Sane(b[k].mem, PcOf(b, k, p))
  {
    hide Sane, Enabled, CallEffect;
  }

  /**
   db_nextrec, whatever the other processes do meanwhile: it reads record after record from its position on,
   passes over those that were blank when it read them, and returns the first that was not, with the data at
   that record's place when it read it; or NULL where the file ended. Its position is then behind what it read.
   */
  lemma NextRecCall(b: seq<Sys>, i: nat, j: nat, p: Pid) returns (seen: seq<Look>, t: nat)
    requires Run(b) && i + 2 < j < |b| && p in b[i].procs && PcOf(b, i, p).Scanning? && PcOf(b, i + 1, p).NextLock?
    requires forall k :: i < k < j ==> Scans(PcOf(b, k, p))
    requires PcOf(b, j, p).Scanning?
    ensures Reads(b, i + 1, j - 1, p, PcOf(b, i, p).pos, seen)
    ensures PcOf(b, j, p).pos == Upto(PcOf(b, i, p).pos, seen)
    ensures PcOf(b, j - 1, p).NextUnlock?
    ensures Answer(b, i + 1, j - 1, seen, PcOf(b, j, p).pos, PcOf(b, j - 1, p).pair, t)
  {
    hide Run, Reads, Answer, Scans;
    ScanBegins(b, i, p);
    seen, t := ScanUntil(b, i + 1, j - 1, p, PcOf(b, i, p).pos);
    ScanReturns(b, j - 1, p);
  }

  // ---------- no record is lost ----------

  /** The record that a process at this point has in its hands. */
  predicate Owns(pc: Pc, o: nat) {
    match pc
    case DelHead(_, _, x, _, _) => x == o
    case DelRec(_, _, x, _, _, _) => x == o
    case DelFree(_, _, x, _, _) => x == o
    case FreeUnlock(_, _, got) => got == Some(o)
    case FillDat(_, _, x) => x == o
    case FillIdx(_, _, x) => x == o
    case IdxUnlock(_, _, x) => x == o
    case SetHead(_, _, x) => x == o
    case _ => false
  }

  ghost predicate Held(mem: Mem, procs: map<Pid, Proc>) {
    forall o :: o in mem.owner ==> mem.owner[o] in procs && Owns(procs[mem.owner[o]].pc, o)
  }

  /** No process is inside fetch, delete or store. */
  ghost predicate NobodyInside(s: Sys) {
    forall p :: p in s.procs ==> !HasOp(s.procs[p].pc)
  }

  ghost predicate HeldBy(mem: Mem, p: Pid, pc: Pc) {
    forall o :: o in mem.owner && mem.owner[o] == p ==> Owns(pc, o)
  }

  /** What a step of p does to the records in hand. */
  ghost predicate HandsMove(mem: Mem, mem': Mem, p: Pid, pc': Pc) {
    forall o :: o in mem'.owner ==>
      if mem'.owner[o] == p then Owns(pc', o) else o in mem.owner && mem.owner[o] == mem'.owner[o]
  }

  lemma QuietHands(mem: Mem, p: Pid, pc: Pc)
    requires Sane(mem, pc) && Quiet(pc) && HeldBy(mem, p, pc)
    ensures HandsMove(mem, CallEffect(mem, p, pc).mem, p, CallEffect(mem, p, pc).pc)
  {
    QuietMem(mem, p, pc);
    hide CallEffect, Sane;
    forall o | o in mem.owner && mem.owner[o] == p
      ensures Owns(CallEffect(mem, p, pc).pc, o)
    {
      QuietOwns(mem, p, pc, o);
    }
  }

  lemma QuietOwns(mem: Mem, p: Pid, pc: Pc, o: nat)
    requires Sane(mem, pc) && Quiet(pc) && Owns(pc, o)
    ensures Owns(CallEffect(mem, p, pc).pc, o)
  {
    hide Sane;
  }

  lemma DeleteHands(mem: Mem, p: Pid, pc: Pc)
    requires Sane(mem, pc) && (pc.DelBlank? || pc.DelRec? || pc.DelFree? || pc.DelChain? || pc.FreeTake?)
    requires HeldBy(mem, p, pc)
    ensures HandsMove(mem, CallEffect(mem, p, pc).mem, p, CallEffect(mem, p, pc).pc)
  {
    hide Hash, RemoveAt, Spaces, HeadSlot;
  }

  lemma StoreHands(mem: Mem, p: Pid, pc: Pc)
    requires Sane(mem, pc) && HeldBy(mem, p, pc)
    requires pc.FillDat? || pc.FillIdx? || pc.DatWrite? || pc.IdxWrite? || pc.SetHead? || pc.Overwrite?
    ensures HandsMove(mem, CallEffect(mem, p, pc).mem, p, CallEffect(mem, p, pc).pc)
  {
    hide Hash, RecSize, HeadSlot;
  }

  lemma CallHands(mem: Mem, p: Pid, pc: Pc)
    requires Sane(mem, pc) && HeldBy(mem, p, pc)
    ensures HandsMove(mem, CallEffect(mem, p, pc).mem, p, CallEffect(mem, p, pc).pc)
  {
    hide CallEffect, Sane, HeldBy, HandsMove;
    if Quiet(pc) {
      QuietHands(mem, p, pc);
    } else if pc.DelBlank? || pc.DelRec? || pc.DelFree? || pc.DelChain? || pc.FreeTake? {
      DeleteHands(mem, p, pc);
    } else {
      StoreHands(mem, p, pc);
    }
  }

  lemma HeldNext(s: Sys, s': Sys, p: Pid)
    requires Held(s.mem, s.procs) && Next(s, s', p)
    ensures Held(s'.mem, s'.procs)
  {
    hide Sane, CallEffect, Relock, Wellformed, Owns;
    if Begins(s, s', p) {
      forall o | o in s.mem.owner
        ensures s.mem.owner[o] != p
      {
        if s.mem.owner[o] == p { IdleOwns(s.procs[p].pc, o); }
      }
    } else {
      EnabledProc(s, p);
      hide Enabled;
      CallHands(s.mem, p, s.procs[p].pc);
    }
  }

  lemma IdleOwns(pc: Pc, o: nat)
    requires pc.Idle? || pc.Scanning?
    ensures !Owns(pc, o)
  {
  }

  lemma {:induction false} RunHeld(b: seq<Sys>, i: nat)
    requires Run(b) && i < |b|
    ensures Held(b[i].mem, b[i].procs)
  {
    hide Next, Held;
    if i == 0 {
      assert b[0].mem.owner == map[];
      hide Init;
      NoneHeld(b[0].mem, b[0].procs);
    } else {
      RunHeld(b, i - 1);
      var p := StepOf(b, i - 1);
      HeldNext(b[i - 1], b[i], p);
    }
  }

  lemma NoneHeld(mem: Mem, procs: map<Pid, Proc>)
    requires mem.owner == map[]
    ensures Held(mem, procs)
  {
  }

  /**
   In every run every record is on a list or in the hands of a process inside a call. When no process is
   inside fetch, delete or store, every record is on a list, every list is linked from its head on, and the
   map's keys are those that have a record.
   */
  lemma NoneLost(b: seq<Sys>, i: nat)
    requires Run(b) && i < |b|
    ensures var mem := b[i].mem;
            && (forall o :: o in mem.recs && o !in mem.home ==>
                  exists p :: p in b[i].procs && Owns(b[i].procs[p].pc, o))
            && (NobodyInside(b[i]) ==>
                  && mem.recs.Keys == mem.home.Keys && mem.m.Keys == mem.loc.Keys && |mem.lists| == NLISTS
                  && forall k :: 0 <= k < NLISTS ==> Linked(mem.ptrs, HeadSlot(k), mem.lists[k]))
  {
    hide Run, Owns, LocksOk, HistOk, PointsOk;
    RunInv(b, i);
    RunHeld(b, i);
    var s := b[i];
    assert Owned(s.mem) by { MemOwned(s.mem); }
    assert forall o :: o in s.mem.owner ==> s.mem.owner[o] in s.procs && Owns(s.procs[s.mem.owner[o]].pc, o);
    if NobodyInside(s) {
      forall o | o in s.mem.owner
        ensures false
      {
        OwnsOp(s.procs[s.mem.owner[o]].pc, o);
      }
      NoMarks(s);
    }
  }

  lemma MemOwned(mem: Mem)
    requires MemOk(mem)
    ensures Owned(mem)
  {
    hide Owned;
  }

  lemma OwnsOp(pc: Pc, o: nat)
    requires Owns(pc, o)
    ensures HasOp(pc)
  {
  }

  lemma NoMarks(s: Sys)
    requires Inv(s) && NobodyInside(s)
    ensures s.mem.m.Keys == s.mem.loc.Keys && |s.mem.lists| == NLISTS
    ensures forall k :: 0 <= k < NLISTS ==> Linked(s.mem.ptrs, HeadSlot(k), s.mem.lists[k])
  {
    hide ListsOk, SlotsOk, Owned, Located, CellsOk, FreeOnes, Layout, HistOk, PointsOk, HeadSlot, Hash, LinkedBut,
         Linked;
    forall k | 0 <= k < NLISTS
      ensures k !in s.mem.hole
    {
      assert ByteOk(s.locks.bytes[k], k, s.procs);
    }
    forall k | 0 <= k < NLISTS
      ensures Linked(s.mem.ptrs, HeadSlot(k), s.mem.lists[k])
    {
      ChainedAt(s.mem, k);
    }
  }

  // ---------- db_nextrec undisturbed ----------

  lemma ScanMem(b: seq<Sys>, k: nat, p: Pid)
    requires Calls(b, k, p) && Scans(PcOf(b, k, p))
    ensures b[k + 1].mem == b[k].mem
  {
    QuietMem(b[k].mem, p, PcOf(b, k, p));
    hide CallEffect, Sane, Enabled, Relock, Quiet;
  }

  lemma {:induction false} AloneMem(b: seq<Sys>, i: nat, j: nat, p: Pid)
    requires i <= j < |b| && forall k :: i <= k < j ==> Calls(b, k, p) && Scans(PcOf(b, k, p))
    ensures forall k :: i <= k <= j ==> b[k].mem == b[i].mem
  {
    hide Calls, Scans, PcOf;
    if i < j {
      AloneMem(b, i, j - 1, p);
      ScanMem(b, j - 1, p);
    }
  }

  /** Every record between pos and the end of the reads is one of those read. */
  lemma {:induction false} Covered(recs: map<nat, Rec>, end: nat, pos: nat, seen: seq<Look>, q: nat) returns (n: nat)
    requires Layout(recs, end) && InARow(pos, seen)
    requires forall r :: r in seen ==> r.off in recs && r.rec == recs[r.off]
    requires q in recs && pos <= q < Upto(pos, seen)
    ensures n < |seen| && seen[n].off == q
  {
    var last := seen[|seen| - 1];
    assert last in seen;
    if q == last.off {
      n := |seen| - 1;
    } else {
      var front := seen[..|seen| - 1];
      assert forall m :: 0 <= m < |front| ==> front[..m] == seen[..m];
      n := Covered(recs, end, pos, front, q);
    }
  }

  /** The first record from pos on that is not blank is o. */
  ghost predicate FirstFrom(mem: Mem, pos: nat, o: nat) {
    && pos <= o && o in mem.recs && !Blank(mem.recs[o].key)
    && forall q :: q in mem.recs && pos <= q < o ==> Blank(mem.recs[q].key)
  }

  lemma LastFirst(mem: Mem, pos: nat, seen: seq<Look>, r: Look)
    requires Layout(mem.recs, mem.eof) && InARow(pos, seen) && FirstKey(seen, r)
    requires forall x :: x in seen ==> x.off in mem.recs && x.rec == mem.recs[x.off]
    ensures FirstFrom(mem, pos, r.off) && Upto(pos, seen) == r.off + RecSize(mem.recs[r.off])
  {
    var front := seen[..|seen| - 1];
    assert r in seen && r.off == Upto(pos, front);
    InARowFront(pos, seen);
    hide Blank, RecSize, Layout, InARow;
    UptoGrows(pos, front);
    forall q | q in mem.recs && pos <= q < r.off
      ensures Blank(mem.recs[q].key)
    {
      var n := Covered(mem.recs, mem.eof, pos, front, q);
      assert front[n] in seen;
    }
  }

  lemma InARowFront(pos: nat, seen: seq<Look>)
    requires InARow(pos, seen) && seen != []
    ensures InARow(pos, seen[..|seen| - 1])
  {
    hide Upto;
    var front := seen[..|seen| - 1];
    assert forall m :: 0 <= m < |front| ==> front[..m] == seen[..m];
  }

  lemma {:induction false} UptoGrows(pos: nat, seen: seq<Look>)
    requires InARow(pos, seen)
    ensures pos <= Upto(pos, seen)
  {
    if seen != [] {
      var front := seen[..|seen| - 1];
      assert forall m :: 0 <= m < |front| ==> front[..m] == seen[..m];
      UptoGrows(pos, front);
    }
  }

  lemma NoneFirst(mem: Mem, pos: nat, seen: seq<Look>, q: nat)
    requires Layout(mem.recs, mem.eof) && InARow(pos, seen) && AllBlank(seen) && Upto(pos, seen) == mem.eof
    requires forall x :: x in seen ==> x.off in mem.recs && x.rec == mem.recs[x.off]
    requires q in mem.recs && pos <= q
    ensures Blank(mem.recs[q].key)
  {
    assert q < mem.eof;
    hide Blank, RecSize, Layout;
    var n := Covered(mem.recs, mem.eof, pos, seen, q);
    assert seen[n] in seen;
  }

  /** A record with a key that is on a list is the map's record for its key. */
  lemma LivePair(mem: Mem, o: nat)
    requires MemOk(mem) && o in mem.recs && o in mem.home && !Blank(mem.recs[o].key)
    ensures var r := mem.recs[o]; r.key in mem.m && mem.m[r.key] == CellAt(mem, r.datoff)
  {
    hide ListsOk, SlotsOk, Chained, Owned, CellsOk, Seen, Layout, Hash, Blank;
  }

  lemma RunMem(b: seq<Sys>, i: nat)
    requires Run(b) && i < |b|
    ensures MemOk(b[i].mem) && Layout(b[i].mem.recs, b[i].mem.eof)
  {
    hide Run, ListsOk, SlotsOk, Chained, Owned, Located, Mapped, CellsOk, FreeOnes, Seen, Layout, LocksOk, Guarded,
         HistOk;
    RunInv(b, i);
  }

  /** All the reads were of the same files. */
  lemma SameReads(b: seq<Sys>, i: nat, j: nat, p: Pid, pos: nat, seen: seq<Look>, mem: Mem)
    requires j < |b| && Reads(b, i, j, p, pos, seen) && forall k :: i <= k <= j ==> b[k].mem == mem
    ensures InARow(pos, seen) && forall x :: x in seen ==> x.off in mem.recs && x.rec == mem.recs[x.off]
  {
    hide InARow, PcOf;
  }

  lemma SameAnswer(b: seq<Sys>, i: nat, j: nat, seen: seq<Look>, x: nat, pair: Option<(string, string)>, t: nat,
          mem: Mem)
    returns (r: Look)
    requires j < |b| && Answer(b, i, j, seen, x, pair, t) && forall k :: i <= k <= j ==> b[k].mem == mem
    ensures pair == None ==> AllBlank(seen) && x == mem.eof
    ensures pair.Some? ==> FirstKey(seen, r) && pair.value == (r.rec.key, CellAt(mem, r.rec.datoff))
  {
    hide AllBlank, FirstKey, CellAt;
    r := Look(0, 0, Rec("", 0, 0));
    if pair.Some? {
      r :| FirstKey(seen, r) && r.time < t && pair.value.0 == r.rec.key
        && pair.value.1 == CellAt(b[t].mem, r.rec.datoff);
    }
  }

  /** The first record from pos on that is not blank is o; it is returned, and pos' is behind it. */
  ghost predicate GivesFirst(mem: Mem, pos: nat, pos': nat, pair: Option<(string, string)>, o: nat) {
    match pair
    case None => pos' == mem.eof && forall q :: q in mem.recs && pos <= q ==> Blank(mem.recs[q].key)
    case Some(kd) =>
      && FirstFrom(mem, pos, o) && pos' == o + RecSize(mem.recs[o])
      && kd == (mem.recs[o].key, CellAt(mem, mem.recs[o].datoff))
      && (o in mem.home ==> kd.0 in mem.m && mem.m[kd.0] == kd.1)
  }

  lemma SeenGives(mem: Mem, pos: nat, seen: seq<Look>, pair: Option<(string, string)>, r: Look)
    requires MemOk(mem) && Layout(mem.recs, mem.eof)
    requires InARow(pos, seen) && forall x :: x in seen ==> x.off in mem.recs && x.rec == mem.recs[x.off]
    requires pair == None ==> AllBlank(seen) && Upto(pos, seen) == mem.eof
    requires pair.Some? ==> FirstKey(seen, r) && pair.value == (r.rec.key, CellAt(mem, r.rec.datoff))
    ensures GivesFirst(mem, pos, Upto(pos, seen), pair, r.off)
  {
    hide MemOk, Layout, InARow, AllBlank, FirstKey, FirstFrom, CellAt, Blank, RecSize, Upto;
    if pair == None {
      forall q | q in mem.recs && pos <= q
        ensures Blank(mem.recs[q].key)
      {
        NoneFirst(mem, pos, seen, q);
      }
    } else {
      LastFirst(mem, pos, seen, r);
      FirstRec(mem, pos, seen, r);
      if r.off in mem.home { LivePair(mem, r.off); }
    }
  }

  /**
   With no other process stepping in between, db_nextrec returns the first record from its position on that
   is not blank, or NULL if there is none, and moves past it. If nobody is inside fetch, delete or store, that
   is a pair of the map.
   */
  lemma NextRecAlone(b: seq<Sys>, i: nat, j: nat, p: Pid) returns (o: nat)
    requires Run(b) && i + 2 < j < |b| && p in b[i].procs && PcOf(b, i, p).Scanning? && PcOf(b, i + 1, p).NextLock?
    requires forall k :: i < k < j ==> Scans(PcOf(b, k, p)) && Calls(b, k, p)
    requires PcOf(b, j, p).Scanning?
    ensures PcOf(b, j - 1, p).NextUnlock?
    ensures GivesFirst(b[i + 1].mem, PcOf(b, i, p).pos, PcOf(b, j, p).pos, PcOf(b, j - 1, p).pair, o)
    ensures NobodyInside(b[i + 1]) && PcOf(b, j - 1, p).pair.Some? ==> o in b[i + 1].mem.home
  {
    hide Run, Inv, Calls, Scans, PcOf, NobodyInside, GivesFirst, Reads, Answer, MemOk, InARow, FirstKey, AllBlank,
         Layout,
         Upto;
    var seen, t := NextRecCall(b, i, j, p);
    var mem, pos, pos', pair := b[i + 1].mem, PcOf(b, i, p).pos, PcOf(b, j, p).pos, PcOf(b, j - 1, p).pair;
    AloneMem(b, i + 1, j - 1, p);
    RunMem(b, i + 1);
    SameReads(b, i + 1, j - 1, p, pos, seen, mem);
    var r := SameAnswer(b, i + 1, j - 1, seen, pos', pair, t, mem);
    SeenGives(mem, pos, seen, pair, r);
    o := r.off;
    if pair.Some? {
      FirstRec(mem, pos, seen, r);
      if NobodyInside(b[i + 1]) { AtHome(b, i + 1, o); }
    }
  }

  lemma AtHome(b: seq<Sys>, i: nat, o: nat)
    requires Run(b) && i < |b| && NobodyInside(b[i]) && o in b[i].mem.recs
    ensures o in b[i].mem.home
  {
    hide Run, NobodyInside, Linked, Owns;
    NoneLost(b, i);
  }

  lemma FirstRec(mem: Mem, pos: nat, seen: seq<Look>, r: Look)
    requires FirstKey(seen, r) && forall x :: x in seen ==> x.off in mem.recs && x.rec == mem.recs[x.off]
    ensures r.off in mem.recs && r.rec == mem.recs[r.off] && !Blank(r.rec.key)
  {
    hide Blank;
    assert r in seen;
  }
}
