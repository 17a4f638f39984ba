/**
 What both programs keep true of the table, and the four ways in which a step changes it: a new count, a
 store nobody else can see, publishing an object, and unlinking one. `Rely` is what a thread may expect
 of the steps of the others.
 */
module FooMoves {
  import opened Basics
  import opened FooTable

  /**
   Until it is freed, an object is in the table, where its count is the number of references to it, or one
   thread has it for itself. `dying` is an object whose count has gone down to 0 before it is unlinked.
   */
  ghost predicate ObjOk(t: Table, o: Ref, dying: Option<Ref>)
    requires o in t.objs
  {
    var x := t.objs[o];
    if x.freed then x.holders == multiset{} && x.priv == None && o !in t.home
    else
      && (o in t.home <==> x.priv == None)
      && if x.priv.Some? then x.holders == multiset{x.priv.value}
         else x.count == |x.holders| - (if dying == Some(o) then 1 else 0) && |x.holders| >= 1
  }

  ghost predicate Ok(t: Table, dying: Option<Ref>) {
    TableOk(t) && forall o :: o in t.objs ==> ObjOk(t, o, dying)
  }

  /** u has a reference to an object in the table. */
  ghost predicate Live(t: Table, u: Tid, o: Ref) {
    o in t.home && o in t.objs && u in t.objs[o].holders
  }

  /** Nobody but u can reach the object. */
  ghost predicate Mine(t: Table, u: Tid, o: Ref) {
    o in t.objs && t.objs[o].priv == Some(u)
  }

  /** u has just allocated the object. */
  ghost predicate Fresh(t: Table, u: Tid, o: Ref) {
    Mine(t, u, o) && t.objs[o].count == 1
  }

  function ChainOf(t: Table, id: int): seq<Ref> {
    if Hash(id) < |t.chains| then t.chains[Hash(id)] else []
  }

  ghost predicate Differ(t: Table, id: int, i: nat) {
    i <= |ChainOf(t, id)| && forall j :: 0 <= j < i ==>
      ChainOf(t, id)[j] in t.objs && t.objs[ChainOf(t, id)[j]].id != id
  }

  /** The search for id has come to position i. */
  ghost predicate Walked(t: Table, id: int, fp: Option<Ref>, i: nat) {
    Differ(t, id, i) && fp == At(ChainOf(t, id), i)
  }

  ghost predicate Spotted(t: Table, id: int, o: Ref, i: nat) {
    Differ(t, id, i) && At(ChainOf(t, id), i) == Some(o) && o in t.home && o in t.objs && t.objs[o].id == id
  }

  /** The unlink loop has come to position i, and o is further on. */
  ghost predicate Behind(t: Table, o: Ref, tfp: Ref, i: nat)
    requires o in t.objs
  {
    var l := ChainOf(t, t.objs[o].id);
    i < |l| && l[i] == tfp && forall j :: 0 <= j <= i ==> l[j] != o
  }

  /** u may have hashlock (h), and the count of f may be guarded by a lock that u has. */
  ghost predicate Rely(t: Table, t': Table, u: Tid, h: bool, f: Option<Ref>) {
    && (forall o :: o in t.objs ==> o in t'.objs && t'.objs[o].id == t.objs[o].id)
    && (forall o :: o in t.objs && u in t.objs[o].holders ==> u in t'.objs[o].holders && (o in t.home ==> o in t'.home))
    && (forall o :: o in t.objs && t.objs[o].priv == Some(u) ==> t'.objs[o] == t.objs[o])
    && (h ==> t'.fh == t.fh && t'.chains == t.chains && t'.home == t.home)
    && (f.Some? && f.value in t.objs ==>
          t'.objs[f.value].count == t.objs[f.value].count && (f.value in t.home ==> f.value in t'.home))
  }

  lemma WalkedStable(t: Table, t': Table, u: Tid, f: Option<Ref>, id: int, fp: Option<Ref>, i: nat)
    requires Rely(t, t', u, true, f) && Walked(t, id, fp, i)
    ensures Walked(t', id, fp, i)
  {
    hide Hash;
  }

  lemma SpottedStable(t: Table, t': Table, u: Tid, f: Option<Ref>, id: int, o: Ref, i: nat)
    requires Rely(t, t', u, true, f) && Spotted(t, id, o, i)
    ensures Spotted(t', id, o, i)
  {
    hide Hash;
  }

  lemma BehindStable(t: Table, t': Table, u: Tid, f: Option<Ref>, o: Ref, tfp: Ref, i: nat)
    requires Rely(t, t', u, true, f) && o in t.objs && Behind(t, o, tfp, i)
    ensures Behind(t', o, tfp, i)
  {
    hide Hash;
  }

  // ---------- a new count ----------

  ghost predicate Recount(t: Table, o: Ref, x: Obj) {
    && o in t.objs && o in t.home
    && x.id == t.objs[o].id && x.next == t.objs[o].next && x.freed == t.objs[o].freed && x.priv == t.objs[o].priv
  }

  lemma RecountOk(t: Table, o: Ref, x: Obj, dying: Option<Ref>, dying': Option<Ref>)
    requires Ok(t, dying) && Recount(t, o, x)
    requires dying' == dying || (dying' == Some(o) && dying == None)
    requires x.count == |x.holders| - (if dying' == Some(o) then 1 else 0) && |x.holders| >= 1
    ensures Ok(t.(objs := t.objs[o := x]), dying')
  {
    ObjChange(t, o, x);
    hide TableOk;
    assert !t.objs[o].freed && ObjOk(t, o, dying);
  }

  lemma RecountRely(t: Table, o: Ref, x: Obj, dying: Option<Ref>, u: Tid, h: bool, f: Option<Ref>)
    requires Ok(t, dying) && Recount(t, o, x)
    requires u in t.objs[o].holders ==> u in x.holders
    requires f == Some(o) ==> x.count == t.objs[o].count
    ensures Rely(t, t.(objs := t.objs[o := x]), u, h, f)
  {
    assert ObjOk(t, o, dying);
  }

  lemma AbsDomain(t: Table)
    requires TableOk(t)
    ensures forall o :: o in t.home ==> o in t.objs
  {
  }

  lemma RecountAbs(t: Table, o: Ref, x: Obj)
    requires (forall o :: o in t.home ==> o in t.objs) && Recount(t, o, x)
    ensures AbsOf(t.(objs := t.objs[o := x])) == AbsOf(t).(refs := AbsOf(t).refs[o := |x.holders|])
  {
  }

  // ---------- a store nobody else sees ----------

  /** o is new or private to v and stays off the chains. */
  lemma PrivateOk(t: Table, v: Tid, o: Ref, x: Obj, dying: Option<Ref>)
    requires Ok(t, dying) && (o !in t.objs || Mine(t, v, o)) && dying != Some(o)
    requires if x.freed then x.holders == multiset{} && x.priv == None
             else x.priv == Some(v) && x.holders == multiset{v}
    ensures Ok(t.(objs := t.objs[o := x]), dying)
    ensures o !in t.home
  {
    OkDomain(t, dying);
    hide TableOk;
    if o in t.objs { assert ObjOk(t, o, dying); }
    PrivateChange(t, o, x);
    var t' := t.(objs := t.objs[o := x]);
    assert ObjOk(t', o, dying);
    hide ObjOk;
    forall p | p in t'.objs
      ensures ObjOk(t', p, dying)
    {
      if p != o { OtherObj(t, t', p, dying, dying); }
    }
  }

  lemma PrivateRely(t: Table, v: Tid, o: Ref, x: Obj, dying: Option<Ref>, u: Tid, h: bool, f: Option<Ref>)
    requires Ok(t, dying) && (o !in t.objs || Mine(t, v, o)) && u != v
    requires o in t.objs ==> x.id == t.objs[o].id && (f == Some(o) ==> x.count == t.objs[o].count)
    ensures Rely(t, t.(objs := t.objs[o := x]), u, h, f)
  {
    if o in t.objs { assert ObjOk(t, o, dying); }
  }

  lemma PrivateAbs(t: Table, o: Ref, x: Obj)
    requires (forall o :: o in t.home ==> o in t.objs) && o !in t.home
    ensures AbsOf(t.(objs := t.objs[o := x])) == AbsOf(t)
  {
  }

  // ---------- publishing ----------

  /** fh[h] = fp, after which o is shared. */
  function Published(t: Table, o: Ref): Table
    requires o in t.objs && Hash(t.objs[o].id) < |t.fh| && Hash(t.objs[o].id) < |t.chains|
  {
    Headed(t, o, Hash(t.objs[o].id)).(objs := t.objs[o := t.objs[o].(priv := None)])
  }

  ghost predicate CanPublish(t: Table, v: Tid, o: Ref, dying: Option<Ref>) {
    Ok(t, dying) && |t.fh| == NHASH && |t.chains| == NHASH && Mine(t, v, o)
      && t.objs[o].next == t.fh[Hash(t.objs[o].id)]
  }

  lemma PublishTable(t: Table, v: Tid, o: Ref, dying: Option<Ref>)
    requires CanPublish(t, v, o, dying) && o !in t.home && !t.objs[o].freed
    ensures TableOk(Published(t, o))
  {
    hide Hash, TableOk, ObjOk;
    var h := Hash(t.objs[o].id);
    InsertOk(t, o, h);
    ObjChange(Headed(t, o, h), o, t.objs[o].(priv := None));
  }

  lemma PublishedFrame(t: Table, o: Ref)
    requires o in t.objs && Hash(t.objs[o].id) < |t.fh| && Hash(t.objs[o].id) < |t.chains|
    ensures Published(t, o).objs == t.objs[o := t.objs[o].(priv := None)]
    ensures Published(t, o).home == t.home[o := Hash(t.objs[o].id)]
  {
  }

  /** Nothing is said about an object that a step does not concern. */
  lemma OtherObj(t: Table, t': Table, p: Ref, dying: Option<Ref>, dying': Option<Ref>)
    requires p in t.objs && ObjOk(t, p, dying) && p in t'.objs && t'.objs[p] == t.objs[p].(next := t'.objs[p].next)
    requires (p in t'.home <==> p in t.home) && (dying' == Some(p) <==> dying == Some(p))
    ensures ObjOk(t', p, dying')
  {
  }

  lemma SharedObj(t: Table, v: Tid, o: Ref, dying: Option<Ref>)
    requires o in t.objs && ObjOk(t, o, dying) && Mine(t, v, o) && t.objs[o].count == 1 && dying != Some(o)
    requires Hash(t.objs[o].id) < |t.fh| && Hash(t.objs[o].id) < |t.chains|
    ensures o !in t.home && !t.objs[o].freed
    ensures ObjOk(Published(t, o), o, dying) && Live(Published(t, o), v, o)
  {
    assert |multiset{v}| == 1;
    PublishedFrame(t, o);
    hide Hash, Published;
  }

  lemma PublishOk(t: Table, v: Tid, o: Ref, dying: Option<Ref>)
    requires CanPublish(t, v, o, dying) && t.objs[o].count == 1 && dying != Some(o)
    ensures Ok(Published(t, o), dying) && Live(Published(t, o), v, o)
  {
    hide Hash, TableOk, Published, ObjOk, Live;
    OkObjs(t, dying);
    SharedObj(t, v, o, dying);
    PublishedFrame(t, o);
    var t' := Published(t, o);
    forall p | p in t'.objs
      ensures ObjOk(t', p, dying)
    {
      if p != o { OtherObj(t, t', p, dying, dying); }
    }
    PublishTable(t, v, o, dying);
  }

  lemma PublishRely(t: Table, v: Tid, o: Ref, dying: Option<Ref>, u: Tid, f: Option<Ref>)
    requires CanPublish(t, v, o, dying) && u != v
    ensures Rely(t, Published(t, o), u, false, f)
  {
    hide TableOk, Hash;
  }

  lemma PublishAbs(t: Table, v: Tid, o: Ref)
    requires o in t.objs && o !in t.home && t.objs[o].holders == multiset{v} && |t.fh| == NHASH && |t.chains| == NHASH
    requires forall p :: p in t.home ==> p in t.objs
    ensures AbsStep(AbsOf(t), Insert(o, t.objs[o].id), AbsOf(Published(t, o)))
  {
  }

  // ---------- unlinking ----------

  /** The store that takes object i off chain h, after which it is private to v. */
  function Taken(t: Table, h: nat, i: nat, v: Tid): Table
    requires h < |t.chains| && h < |t.fh| && i < |t.chains[h]|
    requires i > 0 ==> t.chains[h][i - 1] in t.objs
    requires t.chains[h][i] in t.objs
  {
    var t', o := Unlinked(t, h, i), t.chains[h][i];
    t'.(objs := t'.objs[o := t'.objs[o].(priv := Some(v))])
  }

  ghost predicate CanTake(t: Table, h: nat, i: nat, v: Tid, dying: Option<Ref>) {
    Ok(t, dying) && |t.fh| == NHASH && |t.chains| == NHASH && h < NHASH && i < |t.chains[h]| && t.chains[h][i] in t.objs
    && (i > 0 ==> t.chains[h][i - 1] in t.objs && t.chains[h][i - 1] in t.home && t.chains[h][i - 1] != t.chains[h][i])
    && t.chains[h][i] in t.home && t.objs[t.chains[h][i]].holders == multiset{v}
      && (dying.Some? ==> dying == Some(t.chains[h][i]))
  }

  lemma TakeTable(t: Table, h: nat, i: nat, v: Tid, dying: Option<Ref>)
    requires CanTake(t, h, i, v, dying)
    ensures TableOk(Taken(t, h, i, v))
  {
    hide TableOk, Hash, RemoveAt, ObjOk;
    var t1, o := Unlinked(t, h, i), t.chains[h][i];
    UnlinkOk(t, h, i);
    PrivateChange(t1, o, t1.objs[o].(priv := Some(v)));
  }

  /** What unlinking leaves alone. */
  lemma TakenFrame(t: Table, h: nat, i: nat, v: Tid)
    requires h < |t.chains| && h < |t.fh| && i < |t.chains[h]| && t.chains[h][i] in t.objs
    requires i > 0 ==> t.chains[h][i - 1] in t.objs
    ensures var t', o := Taken(t, h, i, v), t.chains[h][i];
            && t'.home == t.home - {o} && t'.objs.Keys == t.objs.Keys
            && (forall p :: p in t.objs ==> t'.objs[p].id == t.objs[p].id
                                            && t'.objs[p].holders == t.objs[p].holders
                                            && t'.objs[p].count == t.objs[p].count)
            && (forall p :: p in t.objs && p != o ==> t'.objs[p] == t.objs[p].(next := t'.objs[p].next))
            && (forall p :: p in t.objs && p != o && !(i > 0 && p == t.chains[h][i - 1]) ==> t'.objs[p] == t.objs[p])
            && t'.objs[o].priv == Some(v) && t'.objs[o].freed == t.objs[o].freed
  {
    hide RemoveAt;
  }

  lemma TakenObj(t: Table, h: nat, i: nat, v: Tid, dying: Option<Ref>)
    requires CanTake(t, h, i, v, dying) && ObjOk(t, t.chains[h][i], dying)
    ensures ObjOk(Taken(t, h, i, v), t.chains[h][i], None)
  {
    TakenFrame(t, h, i, v);
    hide Taken, TableOk, Hash, Ok;
  }

  lemma TakeOk(t: Table, h: nat, i: nat, v: Tid, dying: Option<Ref>)
    requires CanTake(t, h, i, v, dying)
    ensures Ok(Taken(t, h, i, v), None) && Mine(Taken(t, h, i, v), v, t.chains[h][i])
    ensures Taken(t, h, i, v).objs[t.chains[h][i]].count == t.objs[t.chains[h][i]].count
  {
    hide TableOk, Taken, ObjOk;
    var t', o := Taken(t, h, i, v), t.chains[h][i];
    OkObjs(t, dying);
    TakenFrame(t, h, i, v);
    TakenObj(t, h, i, v, dying);
    forall p | p in t'.objs
      ensures ObjOk(t', p, None)
    {
      if p != o { OtherObj(t, t', p, dying, None); }
    }
    TakeTable(t, h, i, v, dying);
  }

  lemma TakeRely(t: Table, h: nat, i: nat, v: Tid, dying: Option<Ref>, u: Tid, f: Option<Ref>)
    requires CanTake(t, h, i, v, dying) && u != v && f != Some(t.chains[h][i])
    ensures Rely(t, Taken(t, h, i, v), u, false, f)
  {
    hide Taken, TableOk, Hash, RemoveAt;
    TakenFrame(t, h, i, v);
    assert ObjOk(t, t.chains[h][i], dying);
    if i > 0 { assert ObjOk(t, t.chains[h][i - 1], dying); }
    hide Ok, ObjOk;
  }

  lemma TakeWithout(t: Table, h: nat, i: nat)
    requires TableOk(t) && |t.chains| == NHASH && h < NHASH && i < |t.chains[h]| && t.chains[h][i] in t.objs
    ensures Without(t.chains[h], t.chains[h][i]) == RemoveAt(t.chains[h], i) && Hash(t.objs[t.chains[h][i]].id) == h
  {
    Member(t, h, i);
    assert NoDup(t.chains[h]);
    WithoutAt(t.chains[h], i);
  }

  lemma TakeAbs(t: Table, h: nat, i: nat, v: Tid, dying: Option<Ref>)
    requires CanTake(t, h, i, v, dying)
    ensures (forall p :: p in t.home ==> p in t.objs)
    ensures AbsStep(AbsOf(t), Drop(t.chains[h][i]), AbsOf(Taken(t, h, i, v)))
  {
    hide TableOk, Hash, RemoveAt, Without;
    AbsDomain(t);
    var t', o := Taken(t, h, i, v), t.chains[h][i];
    TakeWithout(t, h, i);
    assert AbsOf(t).refs[o] == |multiset{v}| == 1;
    assert AbsOf(t').ids == AbsOf(t).ids - {o};
    assert AbsOf(t').refs == AbsOf(t).refs - {o};
  }

  // ---------- locks ----------

  /** hashlock, and for each object whose lock is taken the thread that has it. */
  datatype Locks = Locks(hash: Option<Tid>, obj: map<Ref, Tid>)

  /** The locks once u has exactly those of them that h and f say. */
  function Relock(l: Locks, u: Tid, h: bool, f: Option<Ref>): Locks {
    var rest := map o | o in l.obj && l.obj[o] != u :: l.obj[o];
    Locks(if h then Some(u) else if l.hash == Some(u) then None else l.hash,
          if f.Some? then rest[f.value := u] else rest)
  }

  /** What the locks say and what the threads believe agree. */
  ghost predicate LocksOk(l: Locks, hs: map<Tid, bool>, fs: map<Tid, Option<Ref>>)
    requires hs.Keys == fs.Keys
  {
    && (forall u :: u in hs ==> (hs[u] <==> l.hash == Some(u)))
    && (l.hash.Some? ==> l.hash.value in hs)
    && (forall u, o :: u in fs ==> (fs[u] == Some(o) <==> o in l.obj && l.obj[o] == u))
    && (forall o :: o in l.obj ==> l.obj[o] in fs)
  }

  lemma RelockOk(l: Locks, hs: map<Tid, bool>, fs: map<Tid, Option<Ref>>, u: Tid, h: bool, f: Option<Ref>)
    requires hs.Keys == fs.Keys && u in hs && LocksOk(l, hs, fs)
    requires h && !hs[u] ==> l.hash == None
    requires f.Some? && fs[u] != f ==> f.value !in l.obj
    ensures LocksOk(Relock(l, u, h, f), hs[u := h], fs[u := f])
  {
  }

  // ---------- reading and writing ----------

  function ObjAt(t: Table, o: Ref): Obj {
    if o in t.objs then t.objs[o] else Obj(0, 0, None, multiset{}, None, true)
  }

  function HeadAt(t: Table, id: int): Option<Ref> {
    if Hash(id) < |t.fh| then t.fh[Hash(id)] else None
  }

  function Put(t: Table, o: Ref, x: Obj): Table {
    t.(objs := t.objs[o := x])
  }

  function Counted(x: Obj, u: Tid): Obj {
    x.(count := x.count + 1, holders := x.holders + multiset{u})
  }

  function Uncounted(x: Obj, u: Tid): Obj {
    x.(count := x.count - 1, holders := x.holders - multiset{u})
  }

  function PublishEffect(t: Table, o: Ref): Table {
    if o in t.objs && Hash(t.objs[o].id) < |t.fh| && Hash(t.objs[o].id) < |t.chains| then Published(t, o) else t
  }

  /** The store of the object's next pointer into the slot before it; the object is private from then on. */
  function UnlinkEffect(t: Table, u: Tid, o: Ref, i: nat): Table {
    var h := Hash(ObjAt(t, o).id);
    if h < |t.chains| && h < |t.fh| && i < |t.chains[h]| && t.chains[h][i] == o && o in t.objs
      && (i > 0 ==> t.chains[h][i - 1] in t.objs)
    then Taken(t, h, i, u) else t
  }

  // ---------- walking a chain ----------

  lemma NextOnChain(t: Table, id: int, i: nat)
    requires TableOk(t) && i < |ChainOf(t, id)|
    ensures ChainOf(t, id)[i] in t.home && ChainOf(t, id)[i] in t.objs && !t.objs[ChainOf(t, id)[i]].freed
    ensures t.objs[ChainOf(t, id)[i]].next == At(ChainOf(t, id), i + 1)
    ensures Hash(t.objs[ChainOf(t, id)[i]].id) == Hash(id)
  {
    Member(t, Hash(id), i);
    assert NextOk(t, Hash(id), i);
  }

  lemma WalkedOn(t: Table, id: int, fp: Option<Ref>, i: nat)
    requires TableOk(t) && Walked(t, id, fp, i) && fp.Some?
    ensures fp.value in t.objs && !t.objs[fp.value].freed
  {
    hide TableOk, Hash;
    NextOnChain(t, id, i);
  }

  lemma BehindOn(t: Table, o: Ref, tfp: Ref, i: nat)
    requires TableOk(t) && o in t.objs && Behind(t, o, tfp, i)
    ensures tfp in t.objs && !t.objs[tfp].freed
  {
    hide TableOk, Hash;
    NextOnChain(t, t.objs[o].id, i);
  }

  lemma HeadOfChain(t: Table, id: int)
    requires TableOk(t)
    ensures |t.chains| == NHASH && |t.fh| == NHASH && HeadAt(t, id) == At(ChainOf(t, id), 0)
  {
  }

  lemma OnChain(t: Table, o: Ref) returns (i: nat)
    requires TableOk(t) && o in t.home && o in t.objs
    ensures At(ChainOf(t, t.objs[o].id), i) == Some(o) && i < |ChainOf(t, t.objs[o].id)|
  {
    i := IndexOf(t, o);
    Member(t, t.home[o], i);
  }

  lemma MissStep(t: Table, id: int, i: nat)
    requires TableOk(t) && Walked(t, id, None, i)
    ensures (forall o :: o in t.home ==> o in t.objs) && AbsStep(AbsOf(t), Missed(id), AbsOf(t))
  {
  }

  lemma FoundFirst(t: Table, id: int, o: Ref, i: nat)
    requires TableOk(t) && Spotted(t, id, o, i) && forall o :: o in t.home ==> o in t.objs
    ensures |t.chains| == NHASH && FirstWith(t.chains[Hash(id)], AbsOf(t).ids, id, o)
  {
  }

  // ---------- what Ok gives ----------

  lemma OkDomain(t: Table, dying: Option<Ref>)
    requires Ok(t, dying)
    ensures TableOk(t) && forall o :: o in t.home ==> o in t.objs
  {
  }

  lemma OkObjs(t: Table, dying: Option<Ref>)
    requires Ok(t, dying)
    ensures forall o :: o in t.objs ==> ObjOk(t, o, dying)
  {
  }

  lemma Only(m: multiset<Tid>, v: Tid)
    requires |m| == 1 && v in m
    ensures m == multiset{v}
  {
    var r := m - multiset{v};
    assert |r| == 0;
    assert m == multiset{v} + r;
  }

  lemma Same(t: Table, w: Tid, h: bool, f: Option<Ref>)
    ensures Rely(t, t, w, h, f)
  {
  }

  // ---------- references handed on ----------

  ghost predicate Refines(t: Table, act: Act, t': Table) {
    && (forall o :: o in t.home ==> o in t.objs) && (forall o :: o in t'.home ==> o in t'.objs)
    && AbsStep(AbsOf(t), act, AbsOf(t'))
  }

  lemma RefinesSelf(t: Table)
    requires forall o :: o in t.home ==> o in t.objs
    ensures Refines(t, Tau, t)
  {
    hide AbsOf;
  }

  /** What the table stands for is an atomic table in order. */
  ghost predicate StandsFor(t: Table) {
    (forall o :: o in t.home ==> o in t.objs) && AbsOk(AbsOf(t))
  }

  lemma StandsForNext(t: Table, act: Act, t': Table)
    requires StandsFor(t) && Refines(t, act, t')
    ensures StandsFor(t')
  {
    hide AbsOk, AbsOf;
    AbsKept(AbsOf(t), act, AbsOf(t'));
  }

  lemma GivenRecount(t: Table, o: Ref, x: Obj)
    requires o in t.objs && o in t.home && x == t.objs[o].(holders := x.holders)
    ensures Recount(t, o, x)
  {
  }

  lemma GivenTable(t: Table, o: Ref, x: Obj, dying: Option<Ref>)
    requires Ok(t, dying) && o in t.objs && o in t.home && x == t.objs[o].(holders := x.holders)
    requires |x.holders| == |t.objs[o].holders| >= 1 && x.count == |x.holders| - (if dying == Some(o) then 1 else 0)
    ensures Ok(t.(objs := t.objs[o := x]), dying) && Recount(t, o, x) && Refines(t, Tau, t.(objs := t.objs[o := x]))
  {
    hide TableOk, Ok, Recount;
    var t' := t.(objs := t.objs[o := x]);
    GivenRecount(t, o, x);
    RecountOk(t, o, x, dying, dying);
    OkDomain(t, dying);
    OkDomain(t', dying);
    RecountAbs(t, o, x);
    assert AbsOf(t).refs[o := |x.holders|] == AbsOf(t).refs;
  }

  /** Unlinking makes no object private but the one unlinked. */
  lemma TakePriv(t: Table, u: Tid, o: Ref, i: nat, p: Ref)
    requires p in UnlinkEffect(t, u, o, i).objs
    ensures p in t.objs
    ensures UnlinkEffect(t, u, o, i).objs[p].priv == t.objs[p].priv
        || (p == o && UnlinkEffect(t, u, o, i).objs[p].priv == Some(u))
  {
    hide Hash, RemoveAt;
  }
}
