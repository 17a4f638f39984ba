/**
 Whole calls of foo_alloc, foo_hold, foo_find and foo_rele: what each must have done to the atomic table by
 the time it returns, and to the references of the thread that called it.
 */
module FooCalls {
  import opened Basics
  import opened FooTable
  import opened FooMoves

  /** A call with its argument; foo_alloc with the object that malloc gave it. */
  datatype Call = Alloc(o: Ref, id: int) | Holding(o: Ref) | Finding(id: int) | Releasing(o: Ref)

  /** The one operation that the call has to be. */
  ghost predicate Performed(c: Call, acts: seq<Act>) {
    match c
    case Alloc(o, id) => acts == [Insert(o, id)]
    case Holding(o) => acts == [Hold(o)]
    case Finding(id) => acts == [Missed(id)] || exists o :: acts == [Found(id, o)]
    case Releasing(o) => acts == [Drop(o)]
  }

  /** How many references to x the caller has gained. */
  function Gain(c: Call, acts: seq<Act>, x: Ref): int {
    match c
    case Alloc(o, _) => if o == x then 1 else 0
    case Holding(o) => if o == x then 1 else 0
    case Finding(id) => if acts == [Found(id, x)] then 1 else 0
    case Releasing(o) => if o == x then -1 else 0
  }

  /** The references that u has to o. */
  function RefsOf(t: Table, u: Tid, o: Ref): nat {
    if o in t.objs then t.objs[o].holders[u] else 0
  }

  lemma RefsPut(t: Table, o: Ref, x: Obj, u: Tid, p: Ref)
    ensures RefsOf(Put(t, o, x), u, p) == if p == o then x.holders[u] else RefsOf(t, u, p)
  {
  }

  lemma RefsPublish(t: Table, o: Ref, u: Tid, p: Ref)
    ensures RefsOf(PublishEffect(t, o), u, p) == RefsOf(t, u, p)
  {
    hide Hash;
    if o in t.objs && Hash(t.objs[o].id) < |t.fh| && Hash(t.objs[o].id) < |t.chains| { PublishedFrame(t, o); }
  }

  lemma IdsPublish(t: Table, o: Ref)
    ensures forall p :: p in t.objs ==> p in PublishEffect(t, o).objs && PublishEffect(t, o).objs[p].id == t.objs[p].id
  {
    hide Hash;
    if o in t.objs && Hash(t.objs[o].id) < |t.fh| && Hash(t.objs[o].id) < |t.chains| { PublishedFrame(t, o); }
  }

  lemma RefsUnlink(t: Table, v: Tid, o: Ref, i: nat, u: Tid, p: Ref)
    ensures RefsOf(UnlinkEffect(t, v, o, i), u, p) == RefsOf(t, u, p)
  {
    hide Hash, Taken;
    var h := Hash(ObjAt(t, o).id);
    if h < |t.chains| && h < |t.fh| && i < |t.chains[h]| && t.chains[h][i] == o && o in t.objs
       && (i > 0 ==> t.chains[h][i - 1] in t.objs) {
      TakenFrame(t, h, i, v);
    }
  }

  /** An operation to be added to those performed, unless it is none. */
  function Also(acts: seq<Act>, act: Act): seq<Act> {
    if act == Tau then acts else acts + [act]
  }
}
