/**
 The client threads and the printer thread of printd.c around the job queue: joblock, the condition
 variable jobwait, and the job in flight. The queue is the sequence that PrintQueue's list stands for.
 */
module PrintThreads {
  type JobId = int

  /** A client inside add_job. */
  datatype Client = Idle | Lock(job: JobId) | Link(job: JobId) | Unlock | Signal

  /** The printer thread; `Sleeping` is inside pthread_cond_wait, `Woken` waits there for joblock. */
  datatype Printer =
    | PLock | PTest | Sleeping | Woken | PTake | PUnlock(job: JobId)
    | Working(job: JobId) | BackLock(job: JobId) | BackLink(job: JobId) | BackUnlock

  datatype Holder = Nobody | ByClient(c: nat) | ByPrinter

  /** `added` lists the jobs in the order in which add_job linked them; `done` those finished or cancelled. */
  datatype Sys = Sys(queue: seq<JobId>, lock: Holder, clients: seq<Client>, printer: Printer, added: seq<JobId>,
    done: seq<JobId>)

  // ---------- steps ----------

  predicate ClientEnabled(s: Sys, c: nat) {
    c < |s.clients| && !s.clients[c].Idle? && (s.clients[c].Lock? ==> s.lock == Nobody)
  }

  function ClientStep(s: Sys, c: nat): Sys
    requires ClientEnabled(s, c)
  {
    match s.clients[c]
    case Lock(j) => s.(lock := ByClient(c), clients := s.clients[c := Link(j)])
    case Link(j) => s.(queue := s.queue + [j], added := s.added + [j], clients := s.clients[c := Unlock])
    case Unlock => s.(lock := Nobody, clients := s.clients[c := Signal])
    case Signal => s.(printer := if s.printer == Sleeping then Woken else s.printer, clients := s.clients[c := Idle])
  }

  /** A client starts a call of add_job. */
  predicate CanAdd(s: Sys, c: nat) {
    c < |s.clients| && s.clients[c].Idle?
  }

  function Add(s: Sys, c: nat, j: JobId): Sys
    requires CanAdd(s, c)
  {
    s.(clients := s.clients[c := Lock(j)])
  }

  predicate PrinterEnabled(s: Sys) {
    match s.printer
    case PLock => s.lock == Nobody
    case Woken => s.lock == Nobody
    case BackLock(_) => s.lock == Nobody
    case PTake => s.queue != []
    case _ => true
  }

  /** Sleeping may end without a signal. A job in hand may be printed, cancelled or deferred. */
  ghost predicate PrinterStep(s: Sys, s': Sys) {
    PrinterEnabled(s) &&
    match s.printer
    case PLock => s' == s.(lock := ByPrinter, printer := PTest)
    case PTest => s' == if s.queue == [] then s.(lock := Nobody, printer := Sleeping) else s.(printer := PTake)
    case Sleeping => s' == s.(printer := Woken)
    case Woken => s' == s.(lock := ByPrinter, printer := PTest)
    case PTake => s' == s.(queue := s.queue[1..], printer := PUnlock(s.queue[0]))
    case PUnlock(j) => s' == s.(lock := Nobody, printer := Working(j))
    case Working(j) => s' == s.(done := s.done + [j], printer := PLock) || s' == s.(printer := BackLock(j))
    case BackLock(j) => s' == s.(lock := ByPrinter, printer := BackLink(j))
    case BackLink(j) => s' == s.(queue := [j] + s.queue, printer := BackUnlock)
    case BackUnlock => s' == s.(lock := Nobody, printer := PLock)
  }

  ghost predicate Next(s: Sys, s': Sys) {
    || (exists c, j :: CanAdd(s, c) && s' == Add(s, c, j))
    || (exists c :: ClientEnabled(s, c) && s' == ClientStep(s, c))
    || PrinterStep(s, s')
  }

  ghost predicate Init(s: Sys) {
    && s.queue == [] && s.added == [] && s.done == [] && s.lock == Nobody && s.printer == PLock
    && forall c :: 0 <= c < |s.clients| ==> s.clients[c].Idle?
  }

  // ---------- the invariant ----------

  /** The job that the printer thread has in its hands. */
  function InFlight(p: Printer): seq<JobId> {
    if p.PUnlock? || p.Working? || p.BackLock? || p.BackLink? then [p.job] else []
  }

  predicate ClientHolds(c: Client) {
    c.Link? || c.Unlock?
  }

  predicate PrinterHolds(p: Printer) {
    p.PTest? || p.PTake? || p.PUnlock? || p.BackLink? || p.BackUnlock?
  }

  ghost predicate LockOk(s: Sys) {
    && (forall c :: 0 <= c < |s.clients| ==> (ClientHolds(s.clients[c]) <==> s.lock == ByClient(c)))
    && (PrinterHolds(s.printer) <==> s.lock == ByPrinter)
    && (s.lock.ByClient? ==> s.lock.c < |s.clients|)
  }

  predicate WillSignal(c: Client) {
    c.Unlock? || c.Signal?
  }

  /** The printer does not sleep on a non-empty queue unless a client is about to signal. */
  ghost predicate WakeOk(s: Sys) {
    s.printer == Sleeping && s.queue != [] ==> exists c :: 0 <= c < |s.clients| && WillSignal(s.clients[c])
  }

  /** Done, then in flight, then queued: that is the order of the add_job calls. */
  ghost predicate OrderOk(s: Sys) {
    s.added == s.done + InFlight(s.printer) + s.queue
  }

  ghost predicate Inv(s: Sys) {
    LockOk(s) && WakeOk(s) && OrderOk(s) && (s.printer == PTake ==> s.queue != [])
  }

  lemma ClientInv(s: Sys, c: nat)
    requires Inv(s) && ClientEnabled(s, c)
    ensures Inv(ClientStep(s, c))
  {
  }

  lemma AddInv(s: Sys, c: nat, j: JobId)
    requires Inv(s) && CanAdd(s, c)
    ensures Inv(Add(s, c, j))
  {
  }

  lemma PrinterInv(s: Sys, s': Sys)
    requires Inv(s) && PrinterStep(s, s')
    ensures Inv(s')
  {
  }

  lemma NextInv(s: Sys, s': Sys)
    requires Inv(s) && Next(s, s')
    ensures Inv(s')
  {
    hide Inv;
    if c, j :| CanAdd(s, c) && s' == Add(s, c, j) {
      AddInv(s, c, j);
    } else if c :| ClientEnabled(s, c) && s' == ClientStep(s, c) {
      ClientInv(s, c);
    } else {
      PrinterInv(s, s');
    }
  }

  // ---------- main results ----------

  ghost predicate Run(states: seq<Sys>) {
    states != [] && Init(states[0]) && forall i :: 0 <= i < |states| - 1 ==> Next(states[i], states[i + 1])
  }

  lemma InitInv(s: Sys)
    requires Init(s)
    ensures Inv(s)
  {
  }

  /** In every run, deferrals or not, the jobs stay in the order in which they were added. */
  lemma {:induction false} RunOrder(states: seq<Sys>, n: nat)
    requires Run(states) && n < |states|
    ensures Inv(states[n])
    ensures states[n].added == states[n].done + InFlight(states[n].printer) + states[n].queue
  {
    hide Next, LockOk, WakeOk;
    if n == 0 { InitInv(states[0]); } else {
      RunOrder(states, n - 1);
      NextInv(states[n - 1], states[n]);
    }
  }

  /**
   While jobs are queued somebody can step, and unless the printer sleeps on, it is the printer, the
   thread that has joblock, or a client that is about to wake the printer.
   */
  lemma NeverStuck(s: Sys)
    requires Inv(s) && s.queue != []
    ensures || (s.printer != Sleeping && PrinterEnabled(s))
            || (s.lock.ByClient? && ClientEnabled(s, s.lock.c))
            || (exists c: nat :: ClientEnabled(s, c) && WillSignal(s.clients[c]))
  {
  }
}
