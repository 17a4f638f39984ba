/**
 Each of the calls of module DbSteps that writes to a file keeps the files well-formed, brings its
 process to a point that agrees with them, and leaves alone what the other processes rely on.
 */
module DbStepsMem {
  import opened Basics
  import opened DbText
  import opened DbIndex
  import opened DbBytes
  import opened DbFile
  import opened DbSteps
  import opened DbStepsInv

  /** Two processes that hold their locks at the same time: a writer shares no lock byte. */
  predicate Exclusive(pc: Pc, qc: Pc) {
    && (InChain(pc) && !pc.op.Fetch? && InChain(qc) ==> Chain(pc.op) != Chain(qc.op))
    && (FreeW(pc) ==> !FreeW(qc) && !FreeR(qc))
    && (HoldsDat(pc) ==> !HoldsDat(qc))
    && (HoldsIdx(pc) ==> !HoldsIdx(qc))
  }

  /**
   Going from mem to mem' touches the lists and holes in `ks`, the records and slots in `os`, the data
   in `cs` and the keys in `xs`, and nothing else that a process may rely on.
   */
  ghost predicate Touch(mem: Mem, mem': Mem, ks: set<nat>, os: set<nat>, cs: set<nat>, xs: set<string>) {
    && |mem.lists| == |mem'.lists| == NLISTS
    && (forall k :: 0 <= k < NLISTS && k !in ks ==> mem'.lists[k] == mem.lists[k] && Hole(mem', k) == Hole(mem, k))
    && mem.recs.Keys <= mem'.recs.Keys && mem.cells.Keys <= mem'.cells.Keys
    && (forall o :: o in mem.recs && o !in os ==>
          mem'.recs[o] == mem.recs[o] && (o in mem.ptrs ==> o in mem'.ptrs && mem'.ptrs[o] == mem.ptrs[o]))
    && (forall o :: o in mem.owner && o !in os ==> o in mem'.owner && mem'.owner[o] == mem.owner[o])
    && (forall c :: c in mem.cells && c !in cs ==> mem'.cells[c] == mem.cells[c])
    && (forall c :: c in mem.cellOwner && c !in cs ==> c in mem'.cellOwner && mem'.cellOwner[c] == mem.cellOwner[c])
    && (forall x :: x !in xs ==> (x in mem'.pend <==> x in mem.pend) && (x in mem'.loc <==> x in mem.loc))
    && (forall x :: x in mem.loc && x in mem'.loc && x !in xs ==> mem'.loc[x] == mem.loc[x])
  }

  lemma TouchChain(mem: Mem, mem': Mem, ks: set<nat>, os: set<nat>, cs: set<nat>, xs: set<string>, op: Op)
    requires Touch(mem, mem', ks, os, cs, xs)
    requires Chain(op) !in ks && op.key !in xs && forall o :: o in mem.lists[Chain(op)] ==> o !in os
    ensures KeepChain(mem, mem', op)
  {
    hide Hash;
  }

  lemma TouchMine(mem: Mem, mem': Mem, ks: set<nat>, os: set<nat>, cs: set<nat>, xs: set<string>, q: Pid)
    requires Touch(mem, mem', ks, os, cs, xs)
    requires forall o :: Mine(mem, q, o) ==> o !in os && mem.recs[o].datoff in mem.cells && mem.recs[o].datoff !in cs
    requires forall c :: c in mem.cellOwner && mem.cellOwner[c] == q ==> c !in cs && c in mem.cells
    ensures KeepMine(mem, mem', q)
  {
  }

  lemma TouchFree(mem: Mem, mem': Mem, ks: set<nat>, os: set<nat>, cs: set<nat>, xs: set<string>, qc: Pc)
    requires Touch(mem, mem', ks, os, cs, xs)
    requires FreeW(qc) || FreeR(qc) ==>
              && 0 !in ks && mem'.dying == mem.dying
              && forall o :: o in mem.lists[0] ==> o !in os
    requires FreeR(qc) ==> forall o :: o in os && o in mem.recs ==>
        mem'.recs[o] == mem.recs[o] || Blank(mem.recs[o].key)
    ensures KeepFree(mem, mem', qc)
  {
    hide Blank;
  }

  /** The ends of the files as a step leaves them that appends nothing. */
  ghost predicate SameEnds(mem: Mem, mem': Mem) {
    && mem.recs.Keys <= mem'.recs.Keys && mem'.eof == mem.eof && mem'.deof == mem.deof && mem'.stored == mem.stored
  }

  lemma EndsKept(mem: Mem, mem': Mem, qc: Pc)
    requires SameEnds(mem, mem')
    ensures KeepEnds(mem, mem', qc)
  {
  }

  /** A step that touches nothing q has a lock on or owns leaves alone what q relies on. */
  lemma TouchRely(mem: Mem, mem': Mem, ks: set<nat>, os: set<nat>, cs: set<nat>, xs: set<string>, q: Pid, qc: Pc)
    requires Touch(mem, mem', ks, os, cs, xs)
    requires InChain(qc) ==>
              && Chain(qc.op) !in ks && qc.op.key !in xs
              && forall o :: o in mem.lists[Chain(qc.op)] ==> o !in os
    requires FreeW(qc) || FreeR(qc) ==>
              && 0 !in ks && mem'.dying == mem.dying
              && forall o :: o in mem.lists[0] ==> o !in os
    requires FreeR(qc) ==> forall o :: o in os && o in mem.recs ==>
        mem'.recs[o] == mem.recs[o] || Blank(mem.recs[o].key)
    requires forall o :: Mine(mem, q, o) ==> o !in os && mem.recs[o].datoff in mem.cells && mem.recs[o].datoff !in cs
    requires forall c :: c in mem.cellOwner && mem.cellOwner[c] == q ==> c !in cs && c in mem.cells
    requires KeepEnds(mem, mem', qc)
    ensures Rely(mem, mem', q, qc)
  {
    hide Touch, KeepChain, KeepFree, KeepMine, KeepEnds, Blank;
    if InChain(qc) {
      TouchChain(mem, mem', ks, os, cs, xs, qc.op);
    }
    TouchFree(mem, mem', ks, os, cs, xs, qc);
    TouchMine(mem, mem', ks, os, cs, xs, q);
  }

  /** Taking an element off the list leaves a gap at exactly the slot before it. */
  lemma LinkedGap(ptrs: map<nat, nat>, head: nat, l: seq<nat>, i: nat)
    requires Linked(ptrs, head, l) && i < |l|
    ensures LinkedBut(ptrs, head, RemoveAt(l, i), SlotAt(head, l, i))
  {
    var m := RemoveAt(l, i);
    forall p | 0 <= p <= |m|
      ensures SlotAt(head, m, p) in ptrs
      ensures SlotAt(head, m, p) == SlotAt(head, l, i) || ptrs[SlotAt(head, m, p)] == ValAt(m, p)
    {
      assert SlotAt(head, m, p) == if p <= i then SlotAt(head, l, p) else SlotAt(head, l, p + 1);
    }
  }

  lemma ChainedAt(mem: Mem, k: nat)
    requires |mem.lists| == NLISTS && Chained(mem) && k < NLISTS
    ensures LinkedBut(mem.ptrs, HeadSlot(k), mem.lists[k], Hole(mem, k))
    ensures k !in mem.hole ==> Linked(mem.ptrs, HeadSlot(k), mem.lists[k])
    ensures 0 !in mem.hole
  {
  }

  /** A record is on no list but the one it calls home. */
  lemma Listed(mem: Mem, o: nat)
    requires |mem.lists| == NLISTS && ListsOk(mem.recs, mem.lists, mem.home)
    ensures forall k :: 0 <= k < NLISTS && o in mem.lists[k] ==> o in mem.home && mem.home[o] == k
    ensures forall k :: 0 <= k < NLISTS ==> HeadSlot(k) !in mem.recs && HeadSlot(k) !in mem.home
  {
  }

  /** No two records share their data, and no record uses data that is only just written. */
  lemma OwnCells(mem: Mem, o: nat)
    requires CellsOk(mem)
    ensures forall x :: x in mem.recs ==> mem.recs[x].datoff in mem.cells
    ensures forall x :: x in mem.recs && o in mem.recs && x != o ==> mem.recs[x].datoff != mem.recs[o].datoff
    ensures forall c :: c in mem.cellOwner ==> c in mem.cells && c < mem.deof
    ensures forall c :: c in mem.cells ==> c < mem.deof
    ensures forall c, x :: c in mem.cellOwner && x in mem.recs ==> mem.recs[x].datoff != c
  {
  }

  /** What a process owns is apart from the records that are not its own, and from their data. */
  lemma MineApart(mem: Mem, q: Pid, o: nat)
    requires CellsOk(mem) && o in mem.recs && (o in mem.owner ==> mem.owner[o] != q)
    ensures forall x :: Mine(mem, q, x) ==>
              x != o && mem.recs[x].datoff in mem.cells && mem.recs[x].datoff != mem.recs[o].datoff
    ensures forall c :: c in mem.cellOwner && mem.cellOwner[c] == q ==> c in mem.cells && c != mem.recs[o].datoff
  {
    hide CellsOk;
    OwnCells(mem, o);
  }

  // ---------- DelBlank ----------

  lemma BlankedChained(mem: Mem, p: Pid, op: Op, slot: nat, o: nat, next: nat, i: nat)
    requires |mem.lists| == NLISTS && Chained(mem) && Chain(op) !in mem.hole && AtElem(mem, Chain(op), slot, o, next, i)
    ensures Chained(Blanked(mem, p, op, slot, o, i))
  {
    hide LinkedBut, Hash;
    var k, mem' := Chain(op), Blanked(mem, p, op, slot, o, i);
    forall j | 0 <= j < NLISTS
      ensures LinkedBut(mem'.ptrs, HeadSlot(j), mem'.lists[j], Hole(mem', j))
    {
      ChainedAt(mem, j);
      if j == k {
        LinkedGap(mem.ptrs, HeadSlot(k), mem.lists[k], i);
      }
    }
  }

  /** The other keys' records keep their data. */
  lemma OthersApart(mem: Mem, key: string, o: nat)
    requires CellsOk(mem) && Located(mem.recs, mem.home, mem.loc)
    requires o in mem.home && mem.home[o] >= 1 && mem.recs[o].key == key
    ensures key in mem.loc && mem.loc[key] == o && o in mem.recs && mem.recs[o].datoff in mem.cells
    ensures forall x :: x in mem.loc && x != key ==>
        mem.loc[x] in mem.recs && mem.recs[mem.loc[x]].datoff != mem.recs[o].datoff
  {
    hide Hash, CellsOk;
    OwnCells(mem, o);
    forall x | x in mem.loc && x != key
      ensures mem.loc[x] in mem.recs && mem.loc[x] != o
    {
      assert mem.loc[x] in mem.home && mem.recs[mem.loc[x]].key == x;
    }
  }

  lemma BlankedMapped(mem: Mem, p: Pid, op: Op, slot: nat, o: nat, i: nat)
    requires |mem.lists| == NLISTS && i < |mem.lists[Chain(op)]|
    requires Mapped(mem) && CellsOk(mem) && Located(mem.recs, mem.home, mem.loc)
    requires o in mem.home && mem.home[o] >= 1 && mem.recs[o].key == op.key && op.key !in mem.pend && !op.Fetch?
    ensures Mapped(Blanked(mem, p, op, slot, o, i))
  {
    hide Hash, RemoveAt, Spaces, CellsOk, Located;
    OthersApart(mem, op.key, o);
  }

  lemma BlankedCells(mem: Mem, p: Pid, op: Op, slot: nat, o: nat, i: nat)
    requires |mem.lists| == NLISTS && i < |mem.lists[Chain(op)]|
    requires CellsOk(mem) && Seen(mem) && o in mem.recs && mem.dying == None
    ensures CellsOk(Blanked(mem, p, op, slot, o, i)) && Seen(Blanked(mem, p, op, slot, o, i))
  {
    hide Hash;
  }

  lemma BlankedOk(mem: Mem, p: Pid, op: Op, slot: nat, o: nat, next: nat, i: nat)
    requires MemOk(mem) && PointOk(mem, p, DelBlank(op, slot, o, next, i))
    ensures i < |mem.lists[Chain(op)]|
    ensures MemOk(Blanked(mem, p, op, slot, o, i))
    ensures PointOk(Blanked(mem, p, op, slot, o, i), p, DelHead(op, slot, o, next, i))
  {
    hide MemOk, Blanked, Wellformed, Hash, KeyFree, HeadSlot, SlotAt, ValAt;
    assert |mem.lists| == NLISTS && SlotsOk(mem) by { MemSlots(mem); }
    BlankedMem(mem, p, op, slot, o, next, i);
    BlankedPoint(mem, p, op, slot, o, next, i);
  }

  lemma MemSlots(mem: Mem)
    requires MemOk(mem)
    ensures |mem.lists| == NLISTS && SlotsOk(mem)
  {
    hide SlotsOk;
  }

  lemma BlankedPoint(mem: Mem, p: Pid, op: Op, slot: nat, o: nat, next: nat, i: nat)
    requires SlotsOk(mem) && PointOk(mem, p, DelBlank(op, slot, o, next, i))
    ensures PointOk(Blanked(mem, p, op, slot, o, i), p, DelHead(op, slot, o, next, i))
  {
    hide Wellformed, Hash, HeadSlot, Spaces;
  }

  lemma BlankedMem(mem: Mem, p: Pid, op: Op, slot: nat, o: nat, next: nat, i: nat)
    requires MemOk(mem) && AtElem(mem, Chain(op), slot, o, next, i) && mem.recs[o].key == op.key
    requires KeyFree(mem, op) && !op.Fetch? && mem.dying == None
    ensures MemOk(Blanked(mem, p, op, slot, o, i))
  {
    hide ListsOk, Chained, Located, Mapped, CellsOk, Seen, Layout, Hash;
    MemberIn(mem, Chain(op), i);
    DetachOk(mem.recs, mem.lists, mem.home, Chain(op), i);
    BlankedChained(mem, p, op, slot, o, next, i);
    DeleteLocated(mem.recs, mem.home, mem.loc, o);
    BlankedMapped(mem, p, op, slot, o, i);
    BlankedCells(mem, p, op, slot, o, i);
  }

  lemma BlankedTouch(mem: Mem, p: Pid, op: Op, slot: nat, o: nat, i: nat)
    requires |mem.lists| == NLISTS && i < |mem.lists[Chain(op)]| && o in mem.recs
    ensures var mem' := Blanked(mem, p, op, slot, o, i);
            Touch(mem, mem', {Chain(op)}, {o}, {mem.recs[o].datoff}, {op.key}) && SameEnds(mem, mem')
  {
    hide Hash, RemoveAt, Spaces;
  }

  lemma BlankedRely(mem: Mem, p: Pid, op: Op, slot: nat, o: nat, i: nat, q: Pid, qc: Pc)
    requires |mem.lists| == NLISTS && i < |mem.lists[Chain(op)]| && o == mem.lists[Chain(op)][i]
    requires ListsOk(mem.recs, mem.lists, mem.home) && Owned(mem) && CellsOk(mem)
    requires q != p && !FreeW(qc) && !FreeR(qc) && (InChain(qc) ==> Chain(qc.op) != Chain(op))
    ensures Rely(mem, Blanked(mem, p, op, slot, o, i), q, qc)
  {
    hide ListsOk, CellsOk, Hash, Rely, Blanked, Touch, KeepEnds, SameEnds;
    MemberIn(mem, Chain(op), i);
    Listed(mem, o);
    MineApart(mem, q, o);
    hide Mine, Owned;
    BlankedTouch(mem, p, op, slot, o, i);
    EndsKept(mem, Blanked(mem, p, op, slot, o, i), qc);
    TouchRely(mem, Blanked(mem, p, op, slot, o, i), {Chain(op)}, {o}, {mem.recs[o].datoff}, {op.key}, q, qc);
  }

  // ---------- DelRec ----------

  /** Slots that no list uses may change; every list stays linked. */
  lemma ChainedFrame(mem: Mem, ptrs': map<nat, nat>)
    requires forall x :: x in mem.ptrs && (x in mem.home || x < REC_START) ==> x in ptrs' && ptrs'[x] == mem.ptrs[x]
    requires |mem.lists| == NLISTS && Chained(mem) && ListsOk(mem.recs, mem.lists, mem.home)
    ensures Chained(mem.(ptrs := ptrs'))
  {
  }

  lemma SlotsIn(ptrs: map<nat, nat>, head: nat, l: seq<nat>, except: int)
    requires LinkedBut(ptrs, head, l, except)
    ensures head in ptrs && forall x :: x in l ==> x in ptrs
  {
    assert SlotAt(head, l, 0) == head;
    forall x | x in l
      ensures x in ptrs
    {
      var i :| 0 <= i < |l| && l[i] == x;
      assert SlotAt(head, l, i + 1) == x;
    }
  }

  /** Changing a record that is on no list, its data kept, leaves the map alone. */
  lemma RecordChange(mem: Mem, o: nat, r: Rec)
    requires Owned(mem) && Located(mem.recs, mem.home, mem.loc) && Mapped(mem) && CellsOk(mem) && FreeOnes(mem)
    requires o in mem.recs && o !in mem.home && r.datoff == mem.recs[o].datoff && r.datlen == mem.recs[o].datlen
    ensures Located(mem.recs[o := r], mem.home, mem.loc)
    ensures Mapped(mem.(recs := mem.recs[o := r])) && CellsOk(mem.(recs := mem.recs[o := r]))
    ensures FreeOnes(mem.(recs := mem.recs[o := r]))
  {
    hide Hash, Blank, CellsOk;
    RecordCells(mem, o, r);
  }

  lemma RecordCells(mem: Mem, o: nat, r: Rec)
    requires CellsOk(mem) && o in mem.recs && r.datoff == mem.recs[o].datoff && r.datlen == mem.recs[o].datlen
    ensures CellsOk(mem.(recs := mem.recs[o := r]))
  {
  }

  lemma RewrittenSeen(mem: Mem, o: nat, ptr: nat)
    requires o in mem.recs && Seen(mem) && (mem.dying == None || mem.dying == Some(o))
    ensures Seen(Rewritten(mem, o, ptr))
  {
    assert Blank(Rewritten(mem, o, ptr).recs[o].key);
  }

  /** A record on no list gets a new pointer and a record of the same size for the same data. */
  lemma RecWritten(mem: Mem, mem': Mem, o: nat, ptr: nat, r: Rec)
    requires MemOk(mem) && o in mem.recs && o !in mem.home && RecSize(r) == RecSize(mem.recs[o])
    requires r.datoff == mem.recs[o].datoff && r.datlen == mem.recs[o].datlen
    requires mem' == mem.(recs := mem.recs[o := r], ptrs := mem.ptrs[o := ptr], dying := mem'.dying) && Seen(mem')
    ensures MemOk(mem')
  {
    hide ListsOk, Chained, Located, Mapped, CellsOk, Layout, Hash, RecSize, FreeOnes, Seen;
    var recs', ptrs' := mem.recs[o := r], mem.ptrs[o := ptr];
    Listed(mem, o);
    RecStart(mem);
    ListsGrow(mem.recs, recs', mem.lists, mem.home);
    ChainedFrame(mem, ptrs');
    ChainedSame(mem.(ptrs := ptrs'), mem');
    RecordChange(mem, o, r);
    MapSame(mem.(recs := recs'), mem');
    LayoutWith(mem.recs, mem.eof, o, r);
  }

  lemma RewrittenOk(mem: Mem, p: Pid, op: Op, slot: nat, o: nat, next: nat, i: nat, ptr: nat)
    requires MemOk(mem) && PointOk(mem, p, DelRec(op, slot, o, next, i, ptr))
    ensures MemOk(Rewritten(mem, o, ptr)) && PointOk(Rewritten(mem, o, ptr), p, DelFree(op, slot, o, next, i))
  {
    hide ListsOk, Chained, Located, Mapped, CellsOk, Layout, Wellformed, Hash, RecSize, FreeOnes, SlotsOk, Seen;
    var r := Rec(Spaces(|mem.recs[o].key|), mem.recs[o].datoff, mem.recs[o].datlen);
    RewrittenSeen(mem, o, ptr);
    SameSize(mem.recs[o], r);
    RecWritten(mem, Rewritten(mem, o, ptr), o, ptr, r);
    hide MemOk, Owned;
  }

  lemma SameSize(r: Rec, r': Rec)
    requires |r.key| == |r'.key| && r.datoff == r'.datoff && r.datlen == r'.datlen
    ensures RecSize(r) == RecSize(r')
  {
  }

  lemma RecStart(mem: Mem)
    requires ListsOk(mem.recs, mem.lists, mem.home)
    ensures forall o :: o in mem.recs ==> o >= REC_START
    ensures forall o :: o in mem.home ==> o in mem.recs
  {
  }

  lemma ChainedSame(mem: Mem, mem': Mem)
    requires |mem.lists| == NLISTS && Chained(mem) && mem'.ptrs == mem.ptrs && mem'.lists == mem.lists
    requires mem'.hole == mem.hole
    ensures Chained(mem')
  {
  }

  lemma MapSame(mem: Mem, mem': Mem)
    requires mem'.recs == mem.recs && mem'.cells == mem.cells && mem'.loc == mem.loc && mem'.m == mem.m
    requires mem'.pend == mem.pend
    ensures Mapped(mem) ==> Mapped(mem')
    ensures CellsOk(mem) && mem'.deof == mem.deof && mem'.cellOwner == mem.cellOwner ==> CellsOk(mem')
    ensures FreeOnes(mem) && mem'.home == mem.home ==> FreeOnes(mem')
    ensures Seen(mem) && mem'.dying == mem.dying && mem'.stored == mem.stored ==> Seen(mem')
  {
    hide Blank;
  }

  lemma RewrittenTouch(mem: Mem, o: nat, ptr: nat)
    requires |mem.lists| == NLISTS && o in mem.recs
    ensures Touch(mem, Rewritten(mem, o, ptr), {}, {o}, {}, {}) && SameEnds(mem, Rewritten(mem, o, ptr))
  {
    hide Spaces;
  }

  lemma RewrittenRely(mem: Mem, p: Pid, o: nat, ptr: nat, q: Pid, qc: Pc)
    requires |mem.lists| == NLISTS && ListsOk(mem.recs, mem.lists, mem.home) && Owned(mem) && CellsOk(mem)
    requires Mine(mem, p, o) && q != p && !FreeW(qc) && !FreeR(qc)
    ensures Rely(mem, Rewritten(mem, o, ptr), q, qc)
  {
    hide ListsOk, CellsOk, Hash, Rely, Rewritten, Touch, KeepEnds, SameEnds;
    Listed(mem, o);
    MineApart(mem, q, o);
    hide Mine;
    RewrittenTouch(mem, o, ptr);
    EndsKept(mem, Rewritten(mem, o, ptr), qc);
    TouchRely(mem, Rewritten(mem, o, ptr), {}, {o}, {}, {}, q, qc);
  }

  // ---------- DelFree ----------

  /** Pushing a record onto a list that has no gap keeps every list linked. */
  lemma ChainedPush(mem: Mem, mem': Mem, k: nat, o: nat)
    requires |mem.lists| == NLISTS && Chained(mem) && ListsOk(mem.recs, mem.lists, mem.home) && k < NLISTS
    requires k !in mem.hole
    requires o in mem.recs && o !in mem.home && o in mem.ptrs && mem.ptrs[o] == ValAt(mem.lists[k], 0)
    requires mem'.ptrs == mem.ptrs[HeadSlot(k) := o] && mem'.lists == mem.lists[k := [o] + mem.lists[k]]
    requires mem'.hole == mem.hole
    ensures Chained(mem')
  {
    hide LinkedBut, ListsOk;
    forall j | 0 <= j < NLISTS
      ensures LinkedBut(mem'.ptrs, HeadSlot(j), mem'.lists[j], Hole(mem', j))
    {
      ChainedAt(mem, j);
      Listed(mem, o);
      SlotsIn(mem.ptrs, HeadSlot(j), mem.lists[j], Hole(mem, j));
      ListMember(mem.recs, mem.lists, mem.home, j, HeadSlot(j));
      ListMember(mem.recs, mem.lists, mem.home, j, HeadSlot(k));
      if j == k {
        LinkedPush(mem.ptrs, mem'.ptrs, HeadSlot(k), mem.lists[k], o);
      } else {
        LinkedFrame(mem.ptrs, mem'.ptrs, HeadSlot(j), mem.lists[j], Hole(mem, j));
      }
    }
  }

  lemma FreedOk(mem: Mem, p: Pid, op: Op, slot: nat, o: nat, next: nat, i: nat)
    requires MemOk(mem) && PointOk(mem, p, DelFree(op, slot, o, next, i))
    ensures MemOk(Freed(mem, o)) && PointOk(Freed(mem, o), p, DelChain(op, slot, next, i))
  {
    hide MemOk, Freed, Wellformed, Hash, Gap, Removed, Blank, ValAt;
    MemSlots(mem);
    FreedPoint(mem, p, op, slot, o, next, i);
    FreedMem(mem, p, o);
  }

  lemma FreedPoint(mem: Mem, p: Pid, op: Op, slot: nat, o: nat, next: nat, i: nat)
    requires |mem.lists| == NLISTS && PointOk(mem, p, DelFree(op, slot, o, next, i))
    ensures PointOk(Freed(mem, o), p, DelChain(op, slot, next, i))
  {
    hide Wellformed, Hash, HeadSlot, Blank;
  }

  lemma FreedMem(mem: Mem, p: Pid, o: nat)
    requires MemOk(mem) && Mine(mem, p, o) && mem.dying == None
    requires mem.ptrs[o] == ValAt(mem.lists[0], 0) && Blank(mem.recs[o].key)
    ensures MemOk(Freed(mem, o))
  {
    hide ListsOk, Chained, Located, Mapped, CellsOk, Layout, Seen, Blank, ValAt;
    ChainedAt(mem, 0);
    PushOk(mem.recs, mem.lists, mem.home, 0, o);
    ChainedPush(mem, Freed(mem, o), 0, o);
    LocatedFree(mem.recs, mem.home, mem.loc, o, mem.recs[o]);
    assert mem.recs[o := mem.recs[o]] == mem.recs;
    MapSame(mem, Freed(mem, o));
  }

  lemma FreedTouch(mem: Mem, o: nat)
    requires |mem.lists| == NLISTS && FREE_OFF !in mem.recs
    ensures Touch(mem, Freed(mem, o), {0}, {o}, {}, {}) && SameEnds(mem, Freed(mem, o))
  {
  }

  lemma FreedRely(mem: Mem, p: Pid, o: nat, q: Pid, qc: Pc)
    requires |mem.lists| == NLISTS && ListsOk(mem.recs, mem.lists, mem.home) && Owned(mem) && CellsOk(mem)
    requires Mine(mem, p, o) && q != p && !FreeW(qc) && !FreeR(qc)
    ensures Rely(mem, Freed(mem, o), q, qc)
  {
    hide ListsOk, CellsOk, Hash, Rely, Freed, Touch, KeepEnds, SameEnds;
    Listed(mem, o);
    MineApart(mem, q, o);
    hide Mine;
    RecStart(mem);
    FreedTouch(mem, o);
    EndsKept(mem, Freed(mem, o), qc);
    TouchRely(mem, Freed(mem, o), {0}, {o}, {}, {}, q, qc);
  }

  // ---------- DelChain ----------

  lemma UnhookedChained(mem: Mem, op: Op, slot: nat, next: nat, i: nat)
    requires |mem.lists| == NLISTS && Chained(mem) && ListsOk(mem.recs, mem.lists, mem.home)
    requires Gap(mem, op, slot, next, i)
    ensures Chained(Unhooked(mem, op, slot, next))
  {
  }

  lemma UnhookedOk(mem: Mem, p: Pid, op: Op, slot: nat, next: nat, i: nat)
    requires MemOk(mem) && PointOk(mem, p, DelChain(op, slot, next, i))
    ensures MemOk(Unhooked(mem, op, slot, next)) && PointOk(Unhooked(mem, op, slot, next), p, DelUnlock(op))
  {
    hide ListsOk, Chained, Located, Mapped, CellsOk, Layout, Wellformed, Hash, Seen, FreeOnes;
    UnhookedChained(mem, op, slot, next, i);
    MapSame(mem, Unhooked(mem, op, slot, next));
  }

  lemma UnhookedTouch(mem: Mem, op: Op, slot: nat, next: nat)
    requires |mem.lists| == NLISTS
    ensures var mem' := Unhooked(mem, op, slot, next);
            Touch(mem, mem', {Chain(op)}, {slot}, {}, {}) && SameEnds(mem, mem')
  {
    hide Hash;
  }

  lemma UnhookedRely(mem: Mem, op: Op, slot: nat, next: nat, i: nat, q: Pid, qc: Pc)
    requires |mem.lists| == NLISTS && ListsOk(mem.recs, mem.lists, mem.home) && Owned(mem) && CellsOk(mem)
    requires Gap(mem, op, slot, next, i) && !FreeW(qc) && !FreeR(qc) && (InChain(qc) ==> Chain(qc.op) != Chain(op))
    ensures Rely(mem, Unhooked(mem, op, slot, next), q, qc)
  {
    hide ListsOk, CellsOk, Hash, Rely, Unhooked, Touch, KeepEnds, SameEnds;
    if i > 0 { MemberIn(mem, Chain(op), i - 1); }
    Listed(mem, slot);
    Listed(mem, HeadSlot(Chain(op)));
    OwnCells(mem, slot);
    UnhookedTouch(mem, op, slot, next);
    EndsKept(mem, Unhooked(mem, op, slot, next), qc);
    TouchRely(mem, Unhooked(mem, op, slot, next), {Chain(op)}, {slot}, {}, {}, q, qc);
  }

  // ---------- FreeTake ----------

  lemma TakenChained(mem: Mem, p: Pid, slot: nat, o: nat, next: nat, i: nat)
    requires |mem.lists| == NLISTS && Chained(mem) && ListsOk(mem.recs, mem.lists, mem.home)
    requires AtElem(mem, 0, slot, o, next, i)
    ensures Chained(TakenFree(mem, p, slot, o, next, i))
  {
    hide LinkedBut, ListsOk;
    var mem' := TakenFree(mem, p, slot, o, next, i);
    if i > 0 { MemberIn(mem, 0, i - 1); }
    MemberIn(mem, 0, i);
    Distinct(mem.recs, mem.lists, mem.home, 0);
    forall j | 0 <= j < NLISTS
      ensures LinkedBut(mem'.ptrs, HeadSlot(j), mem'.lists[j], Hole(mem', j))
    {
      ChainedAt(mem, j);
      Listed(mem, slot);
      SlotsIn(mem.ptrs, HeadSlot(j), mem.lists[j], Hole(mem, j));
      ListMember(mem.recs, mem.lists, mem.home, j, HeadSlot(j));
      if j == 0 {
        LinkedRemove(mem.ptrs, mem'.ptrs, HeadSlot(0), mem.lists[0], i);
      } else {
        LinkedFrame(mem.ptrs, mem'.ptrs, HeadSlot(j), mem.lists[j], Hole(mem, j));
      }
    }
  }

  lemma TakenLocated(recs: map<nat, Rec>, home: map<nat, nat>, loc: map<string, nat>, o: nat)
    requires Located(recs, home, loc) && o in home && home[o] == 0
    ensures Located(recs, home - {o}, loc)
  {
    hide Hash;
  }

  lemma TakenOk(mem: Mem, p: Pid, op: Op, ptr: nat, slot: nat, o: nat, next: nat, i: nat)
    requires MemOk(mem) && PointOk(mem, p, FreeTake(op, ptr, slot, o, next, i))
    ensures i < |mem.lists[0]|
    ensures MemOk(TakenFree(mem, p, slot, o, next, i))
    ensures PointOk(TakenFree(mem, p, slot, o, next, i), p, FreeUnlock(op, ptr, Some(o)))
  {
    hide MemOk, TakenFree, Wellformed, Hash, InsertingAt, HeadSlot, SlotAt, ValAt;
    TakenMem(mem, p, slot, o, next, i);
    TakenBlank(mem, i);
    TakenPoint(mem, p, op, ptr, slot, o, next, i);
  }

  /** The records on the free list have blank keys and slots of their own. */
  lemma TakenBlank(mem: Mem, i: nat)
    requires MemOk(mem) && i < |mem.lists[0]|
    ensures mem.lists[0][i] in mem.recs && mem.lists[0][i] in mem.ptrs && Blank(mem.recs[mem.lists[0][i]].key)
  {
    hide ListsOk, Chained, Located, Mapped, CellsOk, Layout, Seen, Blank;
    MemberIn(mem, 0, i);
  }

  lemma TakenPoint(mem: Mem, p: Pid, op: Op, ptr: nat, slot: nat, o: nat, next: nat, i: nat)
    requires PointOk(mem, p, FreeTake(op, ptr, slot, o, next, i)) && o in mem.ptrs && Blank(mem.recs[o].key)
    ensures PointOk(TakenFree(mem, p, slot, o, next, i), p, FreeUnlock(op, ptr, Some(o)))
  {
    hide Wellformed, Hash, HeadSlot, Blank, SlotAt;
  }

  lemma TakenMem(mem: Mem, p: Pid, slot: nat, o: nat, next: nat, i: nat)
    requires MemOk(mem) && AtElem(mem, 0, slot, o, next, i)
    ensures MemOk(TakenFree(mem, p, slot, o, next, i))
  {
    hide ListsOk, Chained, Located, Mapped, CellsOk, Layout, Seen, Blank;
    MemberIn(mem, 0, i);
    DetachOk(mem.recs, mem.lists, mem.home, 0, i);
    TakenChained(mem, p, slot, o, next, i);
    TakenLocated(mem.recs, mem.home, mem.loc, o);
    MapSame(mem, TakenFree(mem, p, slot, o, next, i));
  }

  lemma TakenTouch(mem: Mem, p: Pid, slot: nat, o: nat, next: nat, i: nat)
    requires |mem.lists| == NLISTS && i < |mem.lists[0]|
    ensures var mem' := TakenFree(mem, p, slot, o, next, i);
            Touch(mem, mem', {0}, {o, slot}, {}, {}) && SameEnds(mem, mem') && mem'.recs == mem.recs
  {
    hide RemoveAt;
  }

  lemma TakenRely(mem: Mem, p: Pid, slot: nat, o: nat, next: nat, i: nat, q: Pid, qc: Pc)
    requires |mem.lists| == NLISTS && ListsOk(mem.recs, mem.lists, mem.home) && Owned(mem) && CellsOk(mem)
    requires AtElem(mem, 0, slot, o, next, i) && q != p && !FreeW(qc) && !FreeR(qc)
    ensures Rely(mem, TakenFree(mem, p, slot, o, next, i), q, qc)
  {
    hide ListsOk, CellsOk, Hash, Rely, TakenFree, Touch, KeepEnds, SameEnds;
    MemberIn(mem, 0, i);
    if i > 0 { MemberIn(mem, 0, i - 1); }
    Listed(mem, o);
    Listed(mem, slot);
    OwnCells(mem, o);
    TakenTouch(mem, p, slot, o, next, i);
    EndsKept(mem, TakenFree(mem, p, slot, o, next, i), qc);
    TouchRely(mem, TakenFree(mem, p, slot, o, next, i), {0}, {o, slot}, {}, {}, q, qc);
  }

  // ---------- FillDat and FillIdx ----------

  /** New data of the right length for a record whose pair the map does not hold. */
  lemma DataChange(mem: Mem, o: nat, data: string)
    requires Located(mem.recs, mem.home, mem.loc) && Mapped(mem) && CellsOk(mem) && Seen(mem)
    requires o in mem.recs && o !in mem.home && mem.recs[o].datlen == |data| + 1 && Blank(mem.recs[o].key)
    ensures var mem' := mem.(cells := mem.cells[mem.recs[o].datoff := data]);
        Mapped(mem') && CellsOk(mem') && Seen(mem')
  {
  }

  lemma FilledDatOk(mem: Mem, p: Pid, op: Op, ptr: nat, o: nat)
    requires MemOk(mem) && PointOk(mem, p, FillDat(op, ptr, o))
    ensures MemOk(FilledDat(mem, op, o)) && PointOk(FilledDat(mem, op, o), p, FillIdx(op, ptr, o))
  {
    hide ListsOk, Chained, Located, Mapped, CellsOk, Layout, Wellformed, Hash, Seen, Blank;
    DataChange(mem, o, op.data);
    ChainedSame(mem, FilledDat(mem, op, o));
  }

  lemma FilledDatTouch(mem: Mem, op: Op, o: nat)
    requires |mem.lists| == NLISTS && op.Store? && o in mem.recs
    ensures Touch(mem, FilledDat(mem, op, o), {}, {}, {mem.recs[o].datoff}, {})
    ensures SameEnds(mem, FilledDat(mem, op, o)) && FilledDat(mem, op, o).dying == mem.dying
  {
  }

  lemma FilledDatRely(mem: Mem, p: Pid, op: Op, o: nat, q: Pid, qc: Pc)
    requires |mem.lists| == NLISTS && CellsOk(mem) && op.Store? && Mine(mem, p, o) && q != p
    ensures Rely(mem, FilledDat(mem, op, o), q, qc)
  {
    hide CellsOk, Hash, Rely, Blank, FilledDat, Touch, KeepEnds, SameEnds;
    MineApart(mem, q, o);
    hide Mine;
    FilledDatTouch(mem, op, o);
    EndsKept(mem, FilledDat(mem, op, o), qc);
    TouchRely(mem, FilledDat(mem, op, o), {}, {}, {mem.recs[o].datoff}, {}, q, qc);
  }

  lemma FilledSeen(mem: Mem, op: Op, ptr: nat, o: nat)
    requires op.Store? && Seen(mem) && o in mem.recs && HasData(mem, mem.recs[o].datoff, op.data)
    requires (op.key, op.data) in mem.stored
    ensures Seen(FilledIdx(mem, op, ptr, o))
  {
    hide Blank;
  }

  lemma FilledIdxOk(mem: Mem, p: Pid, op: Op, ptr: nat, o: nat)
    requires MemOk(mem) && PointOk(mem, p, FillIdx(op, ptr, o))
    ensures MemOk(FilledIdx(mem, op, ptr, o)) && PointOk(FilledIdx(mem, op, ptr, o), p, SetHead(op, true, o))
  {
    hide ListsOk, Chained, Located, Mapped, CellsOk, Layout, Wellformed, Hash, RecSize, FreeOnes, Blank, SlotsOk, Seen;
    var r := Rec(op.key, mem.recs[o].datoff, |op.data| + 1);
    FilledSeen(mem, op, ptr, o);
    SameSize(mem.recs[o], r);
    RecWritten(mem, FilledIdx(mem, op, ptr, o), o, ptr, r);
    hide MemOk, Owned;
  }

  lemma FilledIdxTouch(mem: Mem, op: Op, ptr: nat, o: nat)
    requires |mem.lists| == NLISTS && op.Store?
    ensures Touch(mem, FilledIdx(mem, op, ptr, o), {}, {o}, {}, {})
    ensures SameEnds(mem, FilledIdx(mem, op, ptr, o)) && FilledIdx(mem, op, ptr, o).dying == mem.dying
  {
  }

  lemma FilledIdxRely(mem: Mem, p: Pid, op: Op, ptr: nat, o: nat, q: Pid, qc: Pc)
    requires |mem.lists| == NLISTS && ListsOk(mem.recs, mem.lists, mem.home) && Owned(mem) && CellsOk(mem)
    requires Spare(mem, p, op, o) && q != p
    ensures Rely(mem, FilledIdx(mem, op, ptr, o), q, qc)
  {
    hide ListsOk, CellsOk, Hash, Rely, Blank, FilledIdx, Touch, KeepEnds, SameEnds;
    Listed(mem, o);
    MineApart(mem, q, o);
    hide Mine;
    FilledIdxTouch(mem, op, ptr, o);
    EndsKept(mem, FilledIdx(mem, op, ptr, o), qc);
    TouchRely(mem, FilledIdx(mem, op, ptr, o), {}, {o}, {}, {}, q, qc);
  }

  // ---------- DatWrite and IdxWrite ----------

  lemma GrownDatOk(mem: Mem, p: Pid, op: Op, reuse: bool, ptr: nat, at: nat)
    requires MemOk(mem) && PointOk(mem, p, DatWrite(op, reuse, ptr, at))
    ensures MemOk(GrownDat(mem, p, op, at)) && PointOk(GrownDat(mem, p, op, at), p, DatUnlock(op, reuse, ptr, at))
  {
    hide ListsOk, Chained, Located, Layout, Wellformed, Hash, Blank, FreeOnes, Mapped, CellsOk, Seen;
    ChainedSame(mem, GrownDat(mem, p, op, at));
    GrownDatCells(mem, p, op, at);
  }

  lemma GrownDatCells(mem: Mem, p: Pid, op: Op, at: nat)
    requires op.Store? && Mapped(mem) && CellsOk(mem) && Seen(mem) && at == mem.deof
    ensures Mapped(GrownDat(mem, p, op, at)) && CellsOk(GrownDat(mem, p, op, at)) && Seen(GrownDat(mem, p, op, at))
    ensures FreeOnes(mem) ==> FreeOnes(GrownDat(mem, p, op, at))
  {
    hide Mapped, CellsOk, Seen, Blank;
    OwnCells(mem, 0);
    GrownDatMapped(mem, p, op, at);
    GrownDatLengths(mem, p, op, at);
    GrownDatSeen(mem, p, op, at);
  }

  lemma GrownDatMapped(mem: Mem, p: Pid, op: Op, at: nat)
    requires op.Store? && Mapped(mem) && at !in mem.cells
    ensures Mapped(GrownDat(mem, p, op, at))
  {
  }

  lemma GrownDatLengths(mem: Mem, p: Pid, op: Op, at: nat)
    requires op.Store? && CellsOk(mem) && at == mem.deof
    ensures CellsOk(GrownDat(mem, p, op, at))
  {
  }

  lemma GrownDatSeen(mem: Mem, p: Pid, op: Op, at: nat)
    requires op.Store? && Seen(mem) && at !in mem.cells
    requires forall o :: o in mem.recs ==> mem.recs[o].datoff in mem.cells
    ensures Seen(GrownDat(mem, p, op, at))
  {
    hide Blank;
  }

  lemma GrownDatRely(mem: Mem, p: Pid, op: Op, at: nat, q: Pid, qc: Pc)
    requires |mem.lists| == NLISTS && CellsOk(mem) && op.Store? && at == mem.deof && !HoldsDat(qc)
    ensures Rely(mem, GrownDat(mem, p, op, at), q, qc)
  {
    hide CellsOk, Hash, Rely, Blank;
    OwnCells(mem, 0);
    TouchRely(mem, GrownDat(mem, p, op, at), {}, {}, {at}, {}, q, qc);
  }

  lemma GrownCells(mem: Mem, p: Pid, op: Op, ptr: nat, at: nat, o: nat)
    requires CellsOk(mem) && Seen(mem) && o !in mem.recs && MyCell(mem, p, op, at) && (op.key, op.data) in mem.stored
    ensures CellsOk(GrownIdx(mem, p, op, ptr, at, o)) && Seen(GrownIdx(mem, p, op, ptr, at, o))
  {
    hide RecSize, Blank;
  }

  lemma GrownMapped(mem: Mem, p: Pid, op: Op, ptr: nat, at: nat, o: nat)
    requires op.Store? && Mapped(mem) && o !in mem.recs
    ensures Mapped(GrownIdx(mem, p, op, ptr, at, o))
  {
    hide RecSize;
  }

  lemma GrownFree(mem: Mem, p: Pid, op: Op, ptr: nat, at: nat, o: nat)
    requires op.Store? && FreeOnes(mem) && o !in mem.recs
    ensures FreeOnes(GrownIdx(mem, p, op, ptr, at, o))
  {
    hide RecSize, Blank;
  }

  lemma LocatedMore(recs: map<nat, Rec>, home: map<nat, nat>, loc: map<string, nat>, o: nat, r: Rec)
    requires Located(recs, home, loc) && o !in recs
    ensures Located(recs[o := r], home, loc)
  {
    hide Hash;
  }

  lemma GrownIdxOk(mem: Mem, p: Pid, op: Op, reuse: bool, ptr: nat, at: nat, o: nat)
    requires MemOk(mem) && PointOk(mem, p, IdxWrite(op, reuse, ptr, at, o))
    ensures MemOk(GrownIdx(mem, p, op, ptr, at, o))
    ensures PointOk(GrownIdx(mem, p, op, ptr, at, o), p, IdxUnlock(op, reuse, o))
  {
    hide MemOk, GrownIdx, Wellformed, Hash, InsertingAt, MyCell;
    GrownPoint(mem, p, op, reuse, ptr, at, o);
    GrownMem(mem, p, op, ptr, at, o);
  }

  lemma GrownMem(mem: Mem, p: Pid, op: Op, ptr: nat, at: nat, o: nat)
    requires MemOk(mem) && op.Store? && MyCell(mem, p, op, at) && o == mem.eof && (op.key, op.data) in mem.stored
    ensures MemOk(GrownIdx(mem, p, op, ptr, at, o))
  {
    hide ListsOk, Chained, Located, Mapped, CellsOk, Seen, FreeOnes, Layout, RecSize, MyCell;
    var r := Rec(op.key, at, |op.data| + 1);
    EofFresh(mem);
    RecStart(mem);
    ListsGrow(mem.recs, mem.recs[o := r], mem.lists, mem.home);
    ChainedFrame(mem, mem.ptrs[o := ptr]);
    ChainedSame(mem.(ptrs := mem.ptrs[o := ptr]), GrownIdx(mem, p, op, ptr, at, o));
    GrownCells(mem, p, op, ptr, at, o);
    GrownMapped(mem, p, op, ptr, at, o);
    GrownFree(mem, p, op, ptr, at, o);
    LocatedMore(mem.recs, mem.home, mem.loc, o, r);
    LayoutWith(mem.recs, mem.eof, o, r);
  }

  lemma GrownPoint(mem: Mem, p: Pid, op: Op, reuse: bool, ptr: nat, at: nat, o: nat)
    requires PointOk(mem, p, IdxWrite(op, reuse, ptr, at, o))
    ensures PointOk(GrownIdx(mem, p, op, ptr, at, o), p, IdxUnlock(op, reuse, o))
  {
    hide Wellformed, Hash, RecSize;
  }

  lemma EofFresh(mem: Mem)
    requires Layout(mem.recs, mem.eof)
    ensures mem.eof !in mem.recs
  {
  }

  lemma GrownIdxTouch(mem: Mem, p: Pid, op: Op, ptr: nat, at: nat, o: nat)
    requires |mem.lists| == NLISTS && op.Store? && o !in mem.recs
    ensures Touch(mem, GrownIdx(mem, p, op, ptr, at, o), {}, {o}, {at}, {})
    ensures GrownIdx(mem, p, op, ptr, at, o).dying == mem.dying
  {
    hide RecSize;
  }

  lemma GrownIdxEnds(mem: Mem, p: Pid, op: Op, ptr: nat, at: nat, o: nat, qc: Pc)
    requires op.Store? && o == mem.eof && !HoldsIdx(qc)
    ensures KeepEnds(mem, GrownIdx(mem, p, op, ptr, at, o), qc)
  {
    hide RecSize;
  }

  lemma GrownIdxRely(mem: Mem, p: Pid, op: Op, ptr: nat, at: nat, o: nat, q: Pid, qc: Pc)
    requires |mem.lists| == NLISTS && ListsOk(mem.recs, mem.lists, mem.home) && Owned(mem) && CellsOk(mem)
    requires Layout(mem.recs, mem.eof)
    requires MyCell(mem, p, op, at) && o == mem.eof && q != p && !HoldsIdx(qc)
    ensures Rely(mem, GrownIdx(mem, p, op, ptr, at, o), q, qc)
  {
    hide ListsOk, CellsOk, Hash, Rely, Blank, Layout, GrownIdx, Touch, KeepEnds;
    EofFresh(mem);
    RecStart(mem);
    Listed(mem, o);
    OwnCells(mem, o);
    GrownIdxTouch(mem, p, op, ptr, at, o);
    GrownIdxEnds(mem, p, op, ptr, at, o, qc);
    TouchRely(mem, GrownIdx(mem, p, op, ptr, at, o), {}, {o}, {at}, {}, q, qc);
  }

  // ---------- SetHead and Overwrite ----------

  lemma HeadedMapped(mem: Mem, p: Pid, op: Op, o: nat)
    requires |mem.lists| == NLISTS && Mapped(mem) && CellsOk(mem) && NewRec(mem, p, op, o) && op.key !in mem.loc
    ensures Mapped(Headed(mem, op, o))
  {
    hide Hash;
  }

  lemma HeadedOk(mem: Mem, p: Pid, op: Op, reuse: bool, o: nat)
    requires MemOk(mem) && PointOk(mem, p, SetHead(op, reuse, o))
    ensures MemOk(Headed(mem, op, o)) && PointOk(Headed(mem, op, o), p, Unlock(op, Code(0)))
  {
    hide MemOk, Headed, Wellformed, Hash, NewRec;
    assert |mem.lists| == NLISTS by { MemSlots(mem); }
    HeadedPoint(mem, p, op, o);
    HeadedMem(mem, p, op, o);
  }

  lemma HeadedMem(mem: Mem, p: Pid, op: Op, o: nat)
    requires MemOk(mem) && NewRec(mem, p, op, o) && op.key !in mem.loc && Chain(op) !in mem.hole
    ensures MemOk(Headed(mem, op, o))
  {
    hide ListsOk, Chained, Located, Mapped, CellsOk, Layout, Hash, Seen, Blank;
    PushOk(mem.recs, mem.lists, mem.home, Chain(op), o);
    ChainedPush(mem, Headed(mem, op, o), Chain(op), o);
    LocatedLive(mem.recs, mem.home, mem.loc, o, mem.recs[o]);
    assert mem.recs[o := mem.recs[o]] == mem.recs;
    HeadedMapped(mem, p, op, o);
    CellsSame(mem, Headed(mem, op, o));
  }

  lemma HeadedPoint(mem: Mem, p: Pid, op: Op, o: nat)
    requires op.Store? && |mem.lists| == NLISTS && Wellformed(op) && (op.key, op.data) in mem.stored
    requires Chain(op) !in mem.hole
    ensures PointOk(Headed(mem, op, o), p, Unlock(op, Code(0)))
  {
    hide Wellformed, Hash;
  }

  lemma CellsSame(mem: Mem, mem': Mem)
    requires mem'.recs == mem.recs && mem'.cells == mem.cells
    ensures CellsOk(mem) && mem'.deof == mem.deof && mem'.cellOwner == mem.cellOwner ==> CellsOk(mem')
    ensures Seen(mem) && mem'.dying == mem.dying && mem'.stored == mem.stored ==> Seen(mem')
  {
    hide Blank;
  }

  lemma HeadedTouch(mem: Mem, op: Op, o: nat)
    requires |mem.lists| == NLISTS && op.Store? && HeadSlot(Chain(op)) !in mem.recs
    ensures var mem' := Headed(mem, op, o);
            && Touch(mem, mem', {Chain(op)}, {o}, {}, {op.key}) && SameEnds(mem, mem')
            && mem'.recs == mem.recs && mem'.dying == mem.dying
  {
    hide Hash;
  }

  lemma HeadedRely(mem: Mem, p: Pid, op: Op, o: nat, q: Pid, qc: Pc)
    requires |mem.lists| == NLISTS && ListsOk(mem.recs, mem.lists, mem.home) && Owned(mem) && CellsOk(mem)
    requires op.Store? && Mine(mem, p, o) && q != p && (InChain(qc) ==> Chain(qc.op) != Chain(op))
    ensures Rely(mem, Headed(mem, op, o), q, qc)
  {
    hide ListsOk, CellsOk, Hash, Rely, Blank, Touch, Headed, KeepEnds, SameEnds, HeadSlot;
    Listed(mem, o);
    Listed(mem, HeadSlot(Chain(op)));
    MineApart(mem, q, o);
    hide Mine;
    HeadedTouch(mem, op, o);
    EndsKept(mem, Headed(mem, op, o), qc);
    TouchRely(mem, Headed(mem, op, o), {Chain(op)}, {o}, {}, {op.key}, q, qc);
  }

  lemma OverwrittenMap(mem: Mem, op: Op, datoff: nat)
    requires Mapped(mem) && CellsOk(mem) && Located(mem.recs, mem.home, mem.loc) && op.Store? && LiveAt(mem, op, datoff)
    ensures Mapped(Overwritten(mem, op, datoff))
  {
  }

  lemma OverwrittenCells(mem: Mem, op: Op, datoff: nat)
    requires CellsOk(mem) && op.Store? && LiveAt(mem, op, datoff) && mem.recs[mem.loc[op.key]].datlen == |op.data| + 1
    ensures CellsOk(Overwritten(mem, op, datoff))
  {
  }

  lemma OverwrittenSeen(mem: Mem, op: Op, datoff: nat)
    requires CellsOk(mem) && Seen(mem) && op.Store? && LiveAt(mem, op, datoff) && (op.key, op.data) in mem.stored
    requires mem.recs[mem.loc[op.key]].key == op.key
    ensures Seen(Overwritten(mem, op, datoff))
  {
  }

  lemma LiveKey(mem: Mem, op: Op)
    requires Located(mem.recs, mem.home, mem.loc) && op.key in mem.loc
    ensures mem.loc[op.key] in mem.recs && mem.recs[mem.loc[op.key]].key == op.key
  {
    hide Hash;
  }

  lemma OverwrittenOk(mem: Mem, p: Pid, op: Op, datoff: nat)
    requires MemOk(mem) && PointOk(mem, p, Overwrite(op, datoff))
    ensures MemOk(Overwritten(mem, op, datoff)) && PointOk(Overwritten(mem, op, datoff), p, Unlock(op, Code(0)))
  {
    hide ListsOk, Chained, Located, Mapped, CellsOk, Layout, Wellformed, Hash, Seen, Blank;
    OverwrittenMap(mem, op, datoff);
    OverwrittenCells(mem, op, datoff);
    LiveKey(mem, op);
    OverwrittenSeen(mem, op, datoff);
    ChainedSame(mem, Overwritten(mem, op, datoff));
    OverwrittenPoint(mem, p, op, datoff);
    hide PointOk;
  }

  lemma OverwrittenPoint(mem: Mem, p: Pid, op: Op, datoff: nat)
    requires PointOk(mem, p, Overwrite(op, datoff))
    ensures op.Store? && PointOk(Overwritten(mem, op, datoff), p, Unlock(op, Code(0)))
  {
    hide Wellformed, Hash;
  }

  lemma OverwrittenTouch(mem: Mem, op: Op, datoff: nat)
    requires |mem.lists| == NLISTS && op.Store?
    ensures var mem' := Overwritten(mem, op, datoff);
            Touch(mem, mem', {}, {}, {datoff}, {op.key}) && SameEnds(mem, mem') && mem'.dying == mem.dying
  {
  }

  /** What a process owns is not the data of a record on a chain. */
  lemma LiveApart(mem: Mem, op: Op, q: Pid)
    requires |mem.lists| == NLISTS && ListsOk(mem.recs, mem.lists, mem.home) && Owned(mem) && CellsOk(mem)
    requires Located(mem.recs, mem.home, mem.loc) && op.key in mem.loc
    ensures mem.loc[op.key] in mem.recs
    ensures var c := mem.recs[mem.loc[op.key]].datoff;
            && (forall o :: Mine(mem, q, o) ==> mem.recs[o].datoff in mem.cells && mem.recs[o].datoff != c)
            && (forall d :: d in mem.cellOwner && mem.cellOwner[d] == q ==> d in mem.cells && d != c)
  {
    hide ListsOk, CellsOk, Hash, Located;
    LiveOnChain(mem, op);
    Listed(mem, mem.loc[op.key]);
    MineApart(mem, q, mem.loc[op.key]);
  }

  lemma OverwrittenRely(mem: Mem, p: Pid, op: Op, datoff: nat, q: Pid, qc: Pc)
    requires |mem.lists| == NLISTS && ListsOk(mem.recs, mem.lists, mem.home) && Owned(mem) && CellsOk(mem)
    requires Located(mem.recs, mem.home, mem.loc)
    requires op.Store? && LiveAt(mem, op, datoff) && q != p && (InChain(qc) ==> Chain(qc.op) != Chain(op))
    ensures Rely(mem, Overwritten(mem, op, datoff), q, qc)
  {
    hide ListsOk, CellsOk, Owned, Hash, Rely, Located, Touch, Overwritten, KeepEnds, SameEnds, Mine, FreeW, FreeR,
         HoldsDat, HoldsIdx, Blank;
    LiveApart(mem, op, q);
    assert InChain(qc) ==> qc.op.key != op.key;
    OverwrittenTouch(mem, op, datoff);
    EndsKept(mem, Overwritten(mem, op, datoff), qc);
    TouchRely(mem, Overwritten(mem, op, datoff), {}, {}, {datoff}, {op.key}, q, qc);
  }
}
