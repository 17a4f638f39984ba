/** Whole calls of add_job around the printer thread: each puts its job in exactly once, and no job is lost. */
module PrintCalls {
  import opened PrintThreads

  datatype Actor = Caller(c: nat) | Daemon

  /** Every job that was accepted: finished or cancelled, then in flight, then queued. */
  function Whole(s: Sys): seq<JobId> {
    s.done + InFlight(s.printer) + s.queue
  }

  ghost predicate Asks(s: Sys, s': Sys, c: nat, j: JobId) {
    CanAdd(s, c) && s' == Add(s, c, j)
  }

  /** A step of the client c or of the printer thread. */
  ghost predicate NextBy(s: Sys, s': Sys, a: Actor) {
    match a
    case Caller(c) => (exists j :: Asks(s, s', c, j)) || (ClientEnabled(s, c) && s' == ClientStep(s, c))
    case Daemon => PrinterStep(s, s')
  }

  ghost predicate RunBy(states: seq<Sys>, who: seq<Actor>) {
    && |states| == |who| + 1 && Init(states[0])
    && forall i :: 0 <= i < |who| ==> NextBy(states[i], states[i + 1], who[i])
  }

  /** Every run is the run of some actors, so what holds of those holds of all. */
  lemma {:induction false} CanName(states: seq<Sys>) returns (who: seq<Actor>)
    requires Run(states)
    ensures RunBy(states, who)
    decreases |states|
  {
    hide Next, NextBy;
    var n := |states| - 1;
    if n == 0 {
      who := [];
    } else {
      var front := CanName(states[..n]);
      assert Next(states[n - 1], states[n]);
      var a := NameNext(states[n - 1], states[n]);
      who := front + [a];
      forall i | 0 <= i < |who|
        ensures NextBy(states[i], states[i + 1], who[i])
      {
        if i < n - 1 { assert NextBy(states[..n][i], states[..n][i + 1], front[i]); }
      }
    }
  }

  lemma NameNext(s: Sys, s': Sys) returns (a: Actor)
    requires Next(s, s')
    ensures NextBy(s, s', a)
  {
    hide PrinterStep, ClientStep, ClientEnabled, Add, CanAdd;
    if c: nat, j :| CanAdd(s, c) && s' == Add(s, c, j) {
      a := Caller(c);
      assert Asks(s, s', c, j);
    } else if c: nat :| ClientEnabled(s, c) && s' == ClientStep(s, c) {
      a := Caller(c);
    } else {
      a := Daemon;
    }
  }

  // ---------- one step ----------

  /** The jobs that a step accepts. */
  function Gained(s: Sys, s': Sys): (js: seq<JobId>)
    ensures Whole(s) <= Whole(s') ==> Whole(s') == Whole(s) + js
  {
    if Whole(s) <= Whole(s') then Whole(s')[|Whole(s)|..] else []
  }

  /** The printer thread neither loses nor reorders a job, whether it prints, cancels or defers. */
  lemma DaemonKeeps(s: Sys, s': Sys)
    requires NextBy(s, s', Daemon)
    ensures Whole(s') == Whole(s) && s'.clients == s.clients
  {
  }

  /** A client adds at most its own job, at the end. */
  lemma CallerAdds(s: Sys, s': Sys, c: nat)
    requires NextBy(s, s', Caller(c))
    ensures c < |s.clients| && |s'.clients| == |s.clients|
    ensures Whole(s') == Whole(s) + (if s.clients[c].Link? then [s.clients[c].job] else [])
    ensures forall d :: 0 <= d < |s.clients| && d != c ==> s'.clients[d] == s.clients[d]
    ensures match s.clients[c]
            case Idle => s'.clients[c].Lock? && Asks(s, s', c, s'.clients[c].job)
            case Lock(j) => s'.clients[c] == Link(j)
            case Link(_) => s'.clients[c] == Unlock
            case Unlock => s'.clients[c] == Signal
            case Signal => s'.clients[c] == Idle
  {
    if s.clients[c].Link? {
      var j := s.clients[c].job;
      assert s.done + InFlight(s.printer) + (s.queue + [j]) == Whole(s) + [j];
    }
  }

  // ---------- main results ----------

  /** Accepted jobs stay accepted and in their order: those of an earlier state come first in a later one. */
  lemma {:induction false} NoneLost(states: seq<Sys>, who: seq<Actor>, m: nat, n: nat)
    requires RunBy(states, who) && m <= n <= |who|
    ensures Whole(states[m]) <= Whole(states[n])
    decreases n
  {
    hide NextBy, Whole;
    if m < n {
      NoneLost(states, who, m, n - 1);
      assert NextBy(states[n - 1], states[n], who[n - 1]);
      Grows(states[n - 1], states[n], who[n - 1]);
    }
  }

  lemma Grows(s: Sys, s': Sys, a: Actor)
    requires NextBy(s, s', a)
    ensures Whole(s) <= Whole(s')
  {
    hide Whole;
    if a.Caller? { CallerAdds(s, s', a.c); } else { DaemonKeeps(s, s'); }
  }

  /** The jobs accepted by the steps of c from m to n. */
  ghost function Gains(states: seq<Sys>, who: seq<Actor>, c: nat, m: nat, n: nat): seq<JobId>
    requires m <= n <= |who| && |states| == |who| + 1
    decreases n
  {
    if m == n then []
    else
      Gains(states, who, c, m, n - 1) + if who[n - 1] == Caller(c) then Gained(states[n - 1], states[n]) else []
  }

  /** c is inside the call that it began with step m. */
  ghost predicate Inside(states: seq<Sys>, c: nat, m: nat, n: nat) {
    m < n < |states| && forall i :: m < i <= n ==> c < |states[i].clients| && !states[i].clients[c].Idle?
  }

  lemma {:induction false} SoFar(states: seq<Sys>, who: seq<Actor>, c: nat, j: JobId, m: nat, n: nat)
    requires RunBy(states, who) && m < n <= |who| && who[m] == Caller(c) && Asks(states[m], states[m + 1], c, j)
    requires Inside(states, c, m, n)
    ensures var k := states[n].clients[c];
            && (k.Lock? || k.Link? ==> k.job == j)
            && Gains(states, who, c, m, n) == if k.Lock? || k.Link? then [] else [j]
    decreases n
  {
    hide NextBy, Whole, Gained, CanAdd;
    var s, s', a := states[n - 1], states[n], who[n - 1];
    assert NextBy(s, s', a);
    if a.Caller? { CallerAdds(s, s', a.c); } else { DaemonKeeps(s, s'); }
    if n == m + 1 {
      assert Gains(states, who, c, m, m) == [];
      FirstGain(s, s', c, j);
    } else {
      SoFar(states, who, c, j, m, n - 1);
      if a == Caller(c) { OneGain(s, s', c); }
    }
  }

  lemma FirstGain(s: Sys, s': Sys, c: nat, j: JobId)
    requires Asks(s, s', c, j)
    ensures Gained(s, s') == [] && s'.clients[c] == Lock(j)
  {
  }

  lemma OneGain(s: Sys, s': Sys, c: nat)
    requires NextBy(s, s', Caller(c)) && c < |s.clients|
    ensures Gained(s, s') == if s.clients[c].Link? then [s.clients[c].job] else []
  {
    hide Whole, NextBy;
    CallerAdds(s, s', c);
  }

  /** A call of add_job that returns has put its job behind all jobs accepted before, exactly once. */
  lemma AddJobAdds(states: seq<Sys>, who: seq<Actor>, c: nat, j: JobId, m: nat, n: nat)
    requires RunBy(states, who) && m < n < |who| && who[m] == Caller(c) && Asks(states[m], states[m + 1], c, j)
    requires Inside(states, c, m, n) && c < |states[n + 1].clients| && states[n + 1].clients[c].Idle?
    ensures Gains(states, who, c, m, n + 1) == [j]
    ensures Whole(states[m]) <= Whole(states[n + 1]) && j in Whole(states[n + 1])[|Whole(states[m])|..]
  {
    hide NextBy, Whole, Gained;
    SoFar(states, who, c, j, m, n);
    assert NextBy(states[n], states[n + 1], who[n]);
    if who[n] == Caller(c) {
      CallerAdds(states[n], states[n + 1], c);
      OneGain(states[n], states[n + 1], c);
    } else if who[n].Caller? {
      CallerAdds(states[n], states[n + 1], who[n].c);
    } else {
      DaemonKeeps(states[n], states[n + 1]);
    }
    GainsKept(states, who, c, m, n + 1);
  }

  lemma {:induction false} GainsKept(states: seq<Sys>, who: seq<Actor>, c: nat, m: nat, n: nat)
    requires RunBy(states, who) && m <= n <= |who|
    ensures Whole(states[m]) <= Whole(states[n])
    ensures forall j :: j in Gains(states, who, c, m, n) ==> j in Whole(states[n])[|Whole(states[m])|..]
    decreases n
  {
    hide NextBy, Whole, Gained;
    if m < n {
      GainsKept(states, who, c, m, n - 1);
      assert NextBy(states[n - 1], states[n], who[n - 1]);
      Grows(states[n - 1], states[n], who[n - 1]);
      var k, w, js := |Whole(states[m])|, Whole(states[n - 1]), Gained(states[n - 1], states[n]);
      assert (w + js)[k..] == w[k..] + js;
    }
  }

  // ---------- no job comes from nowhere ----------

  /** The job of a call that has not got to the queue yet. */
  function Job(k: Client): multiset<JobId> {
    if k.Lock? || k.Link? then multiset{k.job} else multiset{}
  }

  function Waiting(clients: seq<Client>): multiset<JobId> {
    if clients == [] then multiset{} else Job(clients[0]) + Waiting(clients[1..])
  }

  lemma {:induction false} WaitingUpdate(clients: seq<Client>, c: nat, k: Client)
    requires c < |clients|
    ensures Waiting(clients[c := k]) + Job(clients[c]) == Waiting(clients) + Job(k)
  {
    hide Job;
    if c > 0 {
      var rest := clients[1..][c - 1 := k];
      assert clients[c := k] == [clients[0]] + rest;
      WaitingUpdate(clients[1..], c - 1, k);
      calc {
        Waiting(clients[c := k]) + Job(clients[c]);
        Job(clients[0]) + Waiting(rest) + Job(clients[c]);
        Job(clients[0]) + (Waiting(rest) + Job(clients[1..][c - 1]));
        Job(clients[0]) + (Waiting(clients[1..]) + Job(k));
        Waiting(clients) + Job(k);
      }
    } else {
      assert clients[c := k][1..] == clients[1..];
    }
  }

  /** The arguments of all calls of add_job so far. */
  ghost function Asked(states: seq<Sys>, who: seq<Actor>, n: nat): multiset<JobId>
    requires n <= |who| && |states| == |who| + 1
  {
    if n == 0 then multiset{}
    else Asked(states, who, n - 1) + JobAsked(states[n - 1], states[n], who[n - 1])
  }

  ghost function JobAsked(s: Sys, s': Sys, a: Actor): multiset<JobId> {
    if a.Caller? && exists j :: Asks(s, s', a.c, j) then var j :| Asks(s, s', a.c, j); multiset{j} else multiset{}
  }

  /** Every job that any call asked for is waiting, queued, in flight or done, as often as it was asked for. */
  lemma {:induction false} Conserved(states: seq<Sys>, who: seq<Actor>, n: nat)
    requires RunBy(states, who) && n <= |who|
    ensures Asked(states, who, n) == Waiting(states[n].clients) + multiset(Whole(states[n]))
  {
    hide NextBy, Whole, JobAsked, Waiting;
    if n == 0 {
      NothingYet(states[0]);
    } else {
      Conserved(states, who, n - 1);
      assert NextBy(states[n - 1], states[n], who[n - 1]);
      ConservedNext(states[n - 1], states[n], who[n - 1]);
    }
  }

  lemma NothingYet(s: Sys)
    requires Init(s)
    ensures Waiting(s.clients) + multiset(Whole(s)) == multiset{}
  {
    NoneWaiting(s.clients);
  }

  lemma {:induction false} NoneWaiting(clients: seq<Client>)
    requires forall c :: 0 <= c < |clients| ==> clients[c].Idle?
    ensures Waiting(clients) == multiset{}
  {
    if clients != [] { NoneWaiting(clients[1..]); }
  }

  lemma ConservedNext(s: Sys, s': Sys, a: Actor)
    requires NextBy(s, s', a)
    ensures Waiting(s'.clients) + multiset(Whole(s')) == Waiting(s.clients) + multiset(Whole(s)) + JobAsked(s, s', a)
  {
    hide NextBy, Whole, Waiting;
    if a.Caller? {
      CallerAdds(s, s', a.c);
      var k, k' := s.clients[a.c], s'.clients[a.c];
      WaitingUpdate(s.clients, a.c, k');
      assert s'.clients == s.clients[a.c := k'];
      JobOnce(s, s', a.c);
      hide JobAsked, Asks;
      Moved(k, k', Waiting(s.clients), Waiting(s'.clients), Whole(s), JobAsked(s, s', a));
    } else {
      DaemonKeeps(s, s');
    }
  }

  /** A client's job is asked for, waits, and goes over to the queue. */
  lemma Moved(k: Client, k': Client, w: multiset<JobId>, w': multiset<JobId>, whole: seq<JobId>, asked: multiset<JobId>)
    requires w' + Job(k) == w + Job(k') && asked == if k.Idle? then Job(k') else multiset{}
    requires match k
             case Idle => k'.Lock?
             case Lock(j) => k' == Link(j)
             case Link(_) => k' == Unlock
             case Unlock => k' == Signal
             case Signal => k' == Idle
    ensures var gained := if k.Link? then [k.job] else [];
            w' + multiset(whole + gained) == w + multiset(whole) + asked
  {
    if k.Link? { assert w' + multiset{k.job} == w; }
  }

  lemma JobOnce(s: Sys, s': Sys, c: nat)
    requires NextBy(s, s', Caller(c)) && c < |s.clients| && c < |s'.clients|
    ensures JobAsked(s, s', Caller(c)) == if s.clients[c].Idle? then Job(s'.clients[c]) else multiset{}
  {
    hide Whole;
    CallerAdds(s, s', c);
  }
}
