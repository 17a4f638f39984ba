/**
 The hash table of reference-counted objects in mutex2.c and mutex3.c: its memory, the chains that
 the pointers spell out, and the atomic table both programs implement.
 */
module FooTable {
  import opened Basics

  const NHASH: nat := 29

  type Tid = nat
  type Ref = nat

  /** HASH(id): the id as an unsigned long, modulo the number of chains. */
  function Hash(id: int): (h: nat)
    ensures h < NHASH
  {
    (id % 0x1_0000_0000_0000_0000) % NHASH
  }

  /**
   One object. `holders` lists the threads that hold a reference, once for each; `priv` names the thread
   that alone can reach the object because it is not in the table; `freed` says free has been called.
   These three are there for the proof. Objects are never identified with each other, even when the
   memory of a freed one is used again.
   */
  datatype Obj = Obj(id: int, count: int, next: Option<Ref>,
                     holders: multiset<Tid>, priv: Option<Tid>, freed: bool)

  /** The table in memory; `chains` and `home` say what the pointers amount to. */
  datatype Table = Table(objs: map<Ref, Obj>, fh: seq<Option<Ref>>, chains: seq<seq<Ref>>, home: map<Ref, nat>)

  // ---------- the atomic table ----------

  /** Which objects can be found, in which order, and how many references each has. */
  datatype Abs = Abs(chains: seq<seq<Ref>>, ids: map<Ref, int>, refs: map<Ref, int>)

  datatype Act = Tau | Insert(o: Ref, id: int) | Found(id: int, o: Ref) | Missed(id: int) | Hold(o: Ref) | Drop(o: Ref)

  /** The first object on the chain with this id. */
  ghost predicate FirstWith(chain: seq<Ref>, ids: map<Ref, int>, id: int, o: Ref) {
    exists i :: 0 <= i < |chain| && chain[i] == o && o in ids && ids[o] == id
             && forall j :: 0 <= j < i ==> chain[j] in ids && ids[chain[j]] != id
  }

  function Without(l: seq<Ref>, o: Ref): seq<Ref> {
    if l == [] then [] else if l[0] == o then l[1..] else [l[0]] + Without(l[1..], o)
  }

  /** One atomic operation on the table. */
  ghost predicate AbsStep(a: Abs, act: Act, a': Abs) {
    match act
    case Tau => a' == a
    case Insert(o, id) =>
      o !in a.ids && |a.chains| == NHASH
      && a' == Abs(a.chains[Hash(id) := [o] + a.chains[Hash(id)]], a.ids[o := id], a.refs[o := 1])
    case Found(id, o) =>
      |a.chains| == NHASH && FirstWith(a.chains[Hash(id)], a.ids, id, o) && o in a.refs && a.refs[o] >= 1
      && a' == a.(refs := a.refs[o := a.refs[o] + 1])
    case Missed(id) =>
      |a.chains| == NHASH && (forall o :: o in a.chains[Hash(id)] ==> o in a.ids && a.ids[o] != id) && a' == a
    case Hold(o) => o in a.refs && a.refs[o] >= 1 && a' == a.(refs := a.refs[o := a.refs[o] + 1])
    case Drop(o) =>
      o in a.refs && o in a.ids && |a.chains| == NHASH &&
      if a.refs[o] != 1 then a.refs[o] > 1 && a' == a.(refs := a.refs[o := a.refs[o] - 1])
      else o in a.chains[Hash(a.ids[o])]
           && a' == Abs(a.chains[Hash(a.ids[o]) := Without(a.chains[Hash(a.ids[o])], o)], a.ids - {o}, a.refs - {o})
  }

  /** Every object in the table is on the chain of its id, once, and has a reference; no other object is on a chain. */
  ghost predicate AbsOk(a: Abs) {
    && |a.chains| == NHASH && a.ids.Keys == a.refs.Keys
    && (forall o :: o in a.ids ==> a.refs[o] >= 1 && o in a.chains[Hash(a.ids[o])])
    && (forall h, o :: 0 <= h < NHASH && o in a.chains[h] ==> o in a.ids && Hash(a.ids[o]) == h)
    && (forall h :: 0 <= h < NHASH ==> NoDup(a.chains[h]))
  }

  /** An object is in the table, so that a search can find it, exactly from its insertion until its last release. */
  lemma FindableWhileHeld(a: Abs, act: Act, a': Abs, o: Ref)
    requires AbsOk(a) && AbsStep(a, act, a')
    ensures AbsOk(a')
    ensures o in a'.ids <==> (o in a.ids || (act.Insert? && act.o == o)) && !(act.Drop? && act.o == o && a.refs[o] == 1)
    ensures o in a.ids && o in a'.ids ==>
              a'.ids[o] == a.ids[o]
              && a'.refs[o] == a.refs[o] + (if (act.Hold? || act.Found?) && act.o == o then 1
                                            else if act.Drop? && act.o == o then -1 else 0)
  {
    assert a.ids.Keys == a.refs.Keys;
    AbsKept(a, act, a');
    hide AbsOk, Hash, Without;
  }

  lemma AbsKept(a: Abs, act: Act, a': Abs)
    requires AbsOk(a) && AbsStep(a, act, a')
    ensures AbsOk(a')
  {
    hide AbsOk, Hash, Without, FirstWith;
    if act.Insert? {
      InsertKept(a, act, a');
    } else if act.Drop? && a.refs[act.o] == 1 {
      DropKept(a, act, a');
    } else if !act.Tau? && !act.Missed? {
      RefsKept(a, act.o, a'.refs[act.o]);
    }
  }

  /** A search answers for the whole table: it finds an object with the id, and misses only if there is none. */
  lemma FindAnswers(a: Abs, act: Act, a': Abs)
    requires AbsOk(a) && AbsStep(a, act, a')
    ensures act.Found? ==> act.o in a.ids && a.ids[act.o] == act.id
    ensures act.Missed? ==> forall o :: o in a.ids ==> a.ids[o] != act.id
  {
    hide Hash, NoDup, Without;
  }

  lemma InsertKept(a: Abs, act: Act, a': Abs)
    requires AbsOk(a) && act.Insert? && AbsStep(a, act, a')
    ensures AbsOk(a')
  {
    hide Hash, NoDup;
    InsertChain(a.chains[Hash(act.id)], act.o);
  }

  lemma DropKept(a: Abs, act: Act, a': Abs)
    requires AbsOk(a) && act.Drop? && AbsStep(a, act, a') && a.refs[act.o] == 1
    ensures AbsOk(a')
  {
    hide Hash, NoDup, Without;
    DropChain(a.chains[Hash(a.ids[act.o])], act.o);
  }

  lemma RefsKept(a: Abs, o: Ref, n: int)
    requires AbsOk(a) && o in a.refs && n >= 1
    ensures AbsOk(a.(refs := a.refs[o := n]))
  {
    hide Hash, NoDup;
  }

  lemma InsertChain(l: seq<Ref>, o: Ref)
    requires NoDup(l) && o !in l
    ensures NoDup([o] + l) && forall p :: p in [o] + l <==> p == o || p in l
  {
  }

  lemma DropChain(l: seq<Ref>, o: Ref)
    requires NoDup(l) && o in l
    ensures NoDup(Without(l, o)) && forall p :: p in Without(l, o) <==> p in l && p != o
  {
    var i :| 0 <= i < |l| && l[i] == o;
    WithoutAt(l, i);
    hide Without;
    RemovedAt(l, i);
  }

  lemma RemovedAt(l: seq<Ref>, i: nat)
    requires NoDup(l) && i < |l|
    ensures NoDup(RemoveAt(l, i)) && forall p :: p in RemoveAt(l, i) <==> p in l && p != l[i]
  {
    var r := RemoveAt(l, i);
    hide RemoveAt;
    assert forall j :: 0 <= j < |r| ==> r[j] == l[if j < i then j else j + 1];
    assert forall j :: 0 <= j < |l| && j != i ==> l[j] == r[if j < i then j else j - 1];
  }

  /** The table a state stands for: what is on the chains, with one reference for each holder. */
  ghost function AbsOf(t: Table): Abs
    requires forall o :: o in t.home ==> o in t.objs
  {
    Abs(t.chains, map o | o in t.home :: t.objs[o].id, map o | o in t.home :: |t.objs[o].holders|)
  }

  // ---------- the chains ----------

  function At(l: seq<Ref>, i: nat): Option<Ref> {
    if i < |l| then Some(l[i]) else None
  }

  /** Every object on a chain is on the chain of its id, once, and alive. */
  ghost predicate ChainsOk(t: Table) {
    && |t.chains| == NHASH
    && (forall o :: o in t.home ==>
          o in t.objs && !t.objs[o].freed && t.home[o] == Hash(t.objs[o].id) && o in t.chains[t.home[o]])
    && (forall h, i :: 0 <= h < NHASH && 0 <= i < |t.chains[h]| ==>
          t.chains[h][i] in t.home && t.home[t.chains[h][i]] == h)
    && (forall h :: 0 <= h < NHASH ==> NoDup(t.chains[h]))
  }

  /** The pointers from fh on spell out the chains. */
  ghost predicate Linked(t: Table) {
    && |t.fh| == NHASH && |t.chains| == NHASH
    && (forall h :: 0 <= h < NHASH ==> t.fh[h] == At(t.chains[h], 0))
    && (forall h, i {:trigger NextOk(t, h, i)} :: 0 <= h < NHASH && 0 <= i < |t.chains[h]| ==> NextOk(t, h, i))
  }

  ghost predicate NextOk(t: Table, h: nat, i: nat)
    requires h < |t.chains| && i < |t.chains[h]|
  {
    t.chains[h][i] in t.objs && t.objs[t.chains[h][i]].next == At(t.chains[h], i + 1)
  }

  ghost predicate TableOk(t: Table) {
    ChainsOk(t) && Linked(t)
  }

  lemma Member(t: Table, h: nat, i: nat)
    requires ChainsOk(t) && h < NHASH && i < |t.chains[h]|
    ensures t.chains[h][i] in t.home && t.home[t.chains[h][i]] == h
    ensures t.chains[h][i] in t.objs && !t.objs[t.chains[h][i]].freed && Hash(t.objs[t.chains[h][i]].id) == h
  {
  }

  lemma IndexOf(t: Table, o: Ref) returns (i: nat)
    requires ChainsOk(t) && o in t.home
    ensures t.home[o] < NHASH && i < |t.chains[t.home[o]]| && t.chains[t.home[o]][i] == o
  {
    i :| 0 <= i < |t.chains[t.home[o]]| && t.chains[t.home[o]][i] == o;
  }

  /** Changing anything but id, next pointer and life of an object leaves the chains alone. */
  lemma ObjChange(t: Table, o: Ref, x: Obj)
    requires TableOk(t) && o in t.objs
    requires x.id == t.objs[o].id && x.next == t.objs[o].next && x.freed == t.objs[o].freed
    ensures TableOk(t.(objs := t.objs[o := x]))
  {
    var t' := t.(objs := t.objs[o := x]);
    forall h, i | 0 <= h < NHASH && 0 <= i < |t'.chains[h]|
      ensures NextOk(t', h, i)
    {
      assert NextOk(t, h, i);
    }
  }

  /** Nor does changing an object that is on no chain. */
  lemma PrivateChange(t: Table, o: Ref, x: Obj)
    requires TableOk(t) && o !in t.home
    ensures TableOk(t.(objs := t.objs[o := x]))
  {
    var t' := t.(objs := t.objs[o := x]);
    forall h, i | 0 <= h < NHASH && 0 <= i < |t'.chains[h]|
      ensures NextOk(t', h, i)
    {
      Member(t, h, i);
      assert NextOk(t, h, i);
    }
  }

  /** The table after fh[h] was pointed at o. */
  function Headed(t: Table, o: Ref, h: nat): Table
    requires h < |t.fh| && h < |t.chains|
  {
    t.(fh := t.fh[h := Some(o)], chains := t.chains[h := [o] + t.chains[h]], home := t.home[o := h])
  }

  lemma InsertHome(t: Table, o: Ref, h: nat)
    requires ChainsOk(t) && |t.fh| == NHASH && h < NHASH
    requires o in t.objs && o !in t.home && !t.objs[o].freed && Hash(t.objs[o].id) == h
    ensures ChainsOk(Headed(t, o, h))
  {
  }

  /** Storing into fh publishes the object at the front of its chain. */
  lemma InsertOk(t: Table, o: Ref, h: nat)
    requires TableOk(t) && |t.fh| == NHASH && h < NHASH && |t.chains| == NHASH
    requires o in t.objs && o !in t.home && !t.objs[o].freed && Hash(t.objs[o].id) == h && t.objs[o].next == t.fh[h]
    ensures TableOk(Headed(t, o, h))
  {
    hide Hash, ChainsOk;
    var t' := Headed(t, o, h);
    forall k, i | 0 <= k < NHASH && 0 <= i < |t'.chains[k]|
      ensures NextOk(t', k, i)
    {
      if k == h && i > 0 {
        assert t'.chains[k][i] == t.chains[k][i - 1] && NextOk(t, k, i - 1);
      } else if k != h {
        assert NextOk(t, k, i);
      }
    }
    InsertHome(t, o, h);
  }

  function RemoveAt(l: seq<Ref>, i: nat): (r: seq<Ref>)
    requires i < |l|
    ensures |r| == |l| - 1
    ensures forall j :: 0 <= j < i ==> r[j] == l[j]
    ensures forall j :: i <= j < |r| ==> r[j] == l[j + 1]
  {
    l[..i] + l[i + 1..]
  }

  lemma {:induction false} WithoutAt(l: seq<Ref>, i: nat)
    requires i < |l| && NoDup(l)
    ensures Without(l, l[i]) == RemoveAt(l, i)
  {
    if i > 0 {
      assert l[0] != l[i];
      WithoutAt(l[1..], i - 1);
      assert l[1..][i - 1] == l[i];
      assert RemoveAt(l, i) == [l[0]] + RemoveAt(l[1..], i - 1);
    }
  }

  /** The table after object i of chain h was unlinked by one pointer store. */
  function Unlinked(t: Table, h: nat, i: nat): Table
    requires h < |t.chains| && h < |t.fh| && i < |t.chains[h]|
    requires i > 0 ==> t.chains[h][i - 1] in t.objs
    requires t.chains[h][i] in t.objs
  {
    var o, next := t.chains[h][i], t.objs[t.chains[h][i]].next;
    t.(fh := if i == 0 then t.fh[h := next] else t.fh,
       objs := if i == 0 then t.objs else t.objs[t.chains[h][i - 1] := t.objs[t.chains[h][i - 1]].(next := next)],
       chains := t.chains[h := RemoveAt(t.chains[h], i)], home := t.home - {o})
  }

  lemma UnlinkHome(t: Table, h: nat, i: nat)
    requires ChainsOk(t) && Linked(t) && |t.fh| == NHASH && h < NHASH && i < |t.chains[h]| && t.chains[h][i] in t.objs
    requires i > 0 ==> t.chains[h][i - 1] in t.objs
    ensures ChainsOk(Unlinked(t, h, i))
  {
    hide Hash, Linked;
    var l, t', o := t.chains[h], Unlinked(t, h, i), t.chains[h][i];
    var r := RemoveAt(l, i);
    assert NoDup(l);
    forall x | x in t'.home
      ensures x in t'.chains[t'.home[x]]
    {
      if t.home[x] == h {
        var j :| 0 <= j < |l| && l[j] == x;
        assert if j < i then r[j] == x else r[j - 1] == x;
      }
    }
    forall k, j | 0 <= k < NHASH && 0 <= j < |t'.chains[k]|
      ensures t'.chains[k][j] in t'.home && t'.home[t'.chains[k][j]] == k
    {
      if k == h {
        assert r[j] == if j < i then l[j] else l[j + 1];
      } else {
        assert t.home[t.chains[k][j]] == k;
      }
    }
    RemovedAt(l, i);
  }

  lemma UnlinkLinked(t: Table, h: nat, i: nat)
    requires ChainsOk(t) && Linked(t) && |t.fh| == NHASH && h < NHASH && i < |t.chains[h]| && t.chains[h][i] in t.objs
    requires i > 0 ==> t.chains[h][i - 1] in t.objs
    ensures Linked(Unlinked(t, h, i))
  {
    hide Hash;
    var l, t' := t.chains[h], Unlinked(t, h, i);
    assert NoDup(l) && NextOk(t, h, i);
    hide NoDup;
    if i > 0 { Member(t, h, i - 1); }
    forall k, j | 0 <= k < NHASH && 0 <= j < |t'.chains[k]|
      ensures NextOk(t', k, j)
    {
      var j' := if k == h && j >= i then j + 1 else j;
      assert t'.chains[k][j] == t.chains[k][j'] && NextOk(t, k, j');
      Member(t, k, j');
      if k == h && i > 0 && j' != i - 1 {
        Apart(l, i - 1, j');
      }
    }
  }

  lemma Apart(l: seq<Ref>, i: nat, j: nat)
    requires NoDup(l) && i < |l| && j < |l| && i != j
    ensures l[i] != l[j]
  {
  }

  /** Unlinking keeps the table well-formed; the object is then on no chain. */
  lemma UnlinkOk(t: Table, h: nat, i: nat)
    requires TableOk(t) && h < NHASH && i < |t.chains[h]|
    ensures t.chains[h][i] in t.objs && (i > 0 ==> t.chains[h][i - 1] in t.objs)
    ensures TableOk(Unlinked(t, h, i))
  {
    assert |t.fh| == NHASH;
    hide ChainsOk, Linked;
    Member(t, h, i);
    if i > 0 { Member(t, h, i - 1); }
    UnlinkHome(t, h, i);
    UnlinkLinked(t, h, i);
  }
}
