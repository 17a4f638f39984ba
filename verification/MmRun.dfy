/** A whole program run on the allocator: the heap of mm.c goes through the same blocks as the block model. */
module MmRun {
  import opened Basics
  import opened MmBlocks
  import opened MmHeap

  /** What the program may ask for here: a request that the machine serves, or the release of a live block. */
  ghost predicate Allowed(bs: seq<Block>, brk: nat, q: Req)
    requires |bs| >= 1
  {
    match q
    case Alloc(n) => n < SIZE_T && (n == 0 || Served(bs, brk, n))
    case Release(addr) => IndexAt(bs, addr, 1).Some?
  }

  ghost predicate AllAllowed(bs: seq<Block>, brk: nat, qs: seq<Req>)
    requires Tiled(bs, brk) && NoFreePair(bs)
    decreases |qs|
  {
    qs == [] ||
    (Allowed(bs, brk, qs[0]) &&
     (ServeOk(bs, brk, qs[0]);
      AllAllowed(Serve(bs, brk, qs[0]).bs, Serve(bs, brk, qs[0]).brk, qs[1..])))
  }

  /** The pointers the requests get. */
  ghost function Answers(bs: seq<Block>, brk: nat, qs: seq<Req>): (ptrs: seq<Option<nat>>)
    requires Tiled(bs, brk) && NoFreePair(bs)
    ensures |ptrs| == |qs|
    decreases |qs|
  {
    if qs == [] then []
    else
      ServeOk(bs, brk, qs[0]);
      var o := Serve(bs, brk, qs[0]);
      [o.ptr] + Answers(o.bs, o.brk, qs[1..])
  }

  /** The blocks in use that these requests do not release. */
  ghost function Kept(bs: seq<Block>, qs: seq<Req>): set<Block> {
    set b | b in Live(bs) && Release(b.addr) !in qs
  }

  /** One request: mm_malloc or mm_free. */
  method Request(h: Heap, q: Req) returns (r: Option<nat>)
    requires h.Valid() && |h.bs| >= 1 && Allowed(h.bs, h.brk, q)
    modifies h, h.mem
    ensures h.Valid()
    ensures Outcome(h.bs, h.brk, r) == Serve(old(h.bs), old(h.brk), q)
    ensures PayloadsKept(old(h.mem[..]), h.mem[..], Kept(old(h.bs), [q]))
  {
    ghost var bs, brk, w := h.bs, h.brk, h.mem[..];
    hide Tiled, NoFreePair, TagsOk, At, Malloc, Freed, PayloadsKept, Live;
    match q {
      case Alloc(n) =>
        r := h.MmMalloc(n);
        KeptLess(w, h.mem[..], bs, q, Live(bs));
      case Release(addr) =>
        ghost var k := IndexAt(bs, addr, 1).value;
        h.MmFree(addr, k);
        ReleasedLive(bs, brk, k);
        KeptLess(w, h.mem[..], bs, q, Live(h.bs));
        r := None;
    }
  }

  lemma ReleasedLive(bs: seq<Block>, brk: nat, k: nat)
    requires Tiled(bs, brk) && 1 <= k < |bs| && bs[k].alloc
    ensures Live(Freed(bs, k)) == Live(bs) - {bs[k]}
  {
    FreedLive(bs, k, brk);
  }

  lemma KeptLess(w: seq<Word>, w': seq<Word>, bs: seq<Block>, q: Req, live: set<Block>)
    requires PayloadsKept(w, w', live) && Kept(bs, [q]) <= live
    ensures PayloadsKept(w, w', Kept(bs, [q]))
  {
  }

  lemma AllowedFirst(bs: seq<Block>, brk: nat, qs: seq<Req>)
    requires Tiled(bs, brk) && NoFreePair(bs) && qs != [] && AllAllowed(bs, brk, qs)
    ensures |bs| >= 1 && Allowed(bs, brk, qs[0])
    ensures var o := Serve(bs, brk, qs[0]);
            && Tiled(o.bs, o.brk) && NoFreePair(o.bs) && AllAllowed(o.bs, o.brk, qs[1..])
            && ServeAll(bs, brk, qs) == ServeAll(o.bs, o.brk, qs[1..])
            && Answers(bs, brk, qs) == [o.ptr] + Answers(o.bs, o.brk, qs[1..])
            && Kept(bs, qs) <= Kept(o.bs, qs[1..]) && Kept(bs, qs) <= Kept(bs, [qs[0]])
  {
    ServeOk(bs, brk, qs[0]);
    assert qs == [qs[0]] + qs[1..];
    hide Tiled, NoFreePair, Allowed, Serve;
  }

  lemma Compose(w: seq<Word>, w': seq<Word>, w'': seq<Word>, a: set<Block>, b: set<Block>, c: set<Block>)
    requires PayloadsKept(w, w', a) && PayloadsKept(w', w'', b) && c <= a && c <= b
    ensures PayloadsKept(w, w'', c)
  {
    PayloadsCompose(w, w', w'', a, b, c);
  }

  /**
   Any sequence of requests: the heap ends with the blocks of the block model, and no word of a block in
   use changes that the sequence does not release.
   */
  method RunAll(h: Heap, qs: seq<Req>) returns (ptrs: seq<Option<nat>>)
    requires h.Valid() && AllAllowed(h.bs, h.brk, qs)
    modifies h, h.mem
    ensures h.Valid() && ptrs == Answers(old(h.bs), old(h.brk), qs)
    ensures Outcome(h.bs, h.brk, None) == ServeAll(old(h.bs), old(h.brk), qs)
    ensures Kept(old(h.bs), qs) <= Live(h.bs)
    ensures PayloadsKept(old(h.mem[..]), h.mem[..], Kept(old(h.bs), qs))
  {
    ghost var bs0, brk0, w0 := h.bs, h.brk, h.mem[..];
    ghost var kept := Kept(bs0, qs);
    ptrs := [];
    WellTiled(h);
    KeptAll(w0, kept);
    hide Tiled, NoFreePair, TagsOk, At, PayloadsKept, Live, Allowed, AllAllowed, Serve, ServeAll, Kept, Answers,
         Answered, Heap.Valid;
    var n := 0;
    assert qs[0..] == qs;
    while n < |qs|
      decreases |qs| - n
      invariant 0 <= n == |ptrs| <= |qs| && h.Valid() && Tiled(h.bs, h.brk) && NoFreePair(h.bs)
      invariant AllAllowed(h.bs, h.brk, qs[n..])
      invariant ServeAll(bs0, brk0, qs) == ServeAll(h.bs, h.brk, qs[n..])
      invariant ptrs + Answers(h.bs, h.brk, qs[n..]) == Answers(bs0, brk0, qs)
      invariant kept <= Kept(h.bs, qs[n..]) && PayloadsKept(w0, h.mem[..], kept)
    {
      AllowedFirst(h.bs, h.brk, qs[n..]);
      ghost var bs, w := h.bs, h.mem[..];
      assert qs[n..][1..] == qs[n + 1..];
      var r := Request(h, qs[n]);
      WellTiled(h);
      Compose(w0, w, h.mem[..], kept, Kept(bs, [qs[n]]), kept);
      ptrs := Answered(ptrs, r, Answers(h.bs, h.brk, qs[n + 1..]));
      n := n + 1;
    }
    RunEnd(h.bs, h.brk, qs[n..]);
  }

  function Answered(ptrs: seq<Option<nat>>, r: Option<nat>, ghost rest: seq<Option<nat>>): (all: seq<Option<nat>>)
    ensures |all| == |ptrs| + 1 && all + rest == ptrs + ([r] + rest)
  {
    assert ptrs + [r] + rest == ptrs + ([r] + rest);
    ptrs + [r]
  }

  lemma WellTiled(h: Heap)
    requires h.Valid()
    ensures Tiled(h.bs, h.brk) && NoFreePair(h.bs)
  {
  }

  lemma KeptAll(w: seq<Word>, live: set<Block>)
    ensures PayloadsKept(w, w, live)
  {
  }

  lemma RunEnd(bs: seq<Block>, brk: nat, qs: seq<Req>)
    requires Tiled(bs, brk) && NoFreePair(bs) && qs == []
    ensures ServeAll(bs, brk, qs) == Outcome(bs, brk, None) && Answers(bs, brk, qs) == [] && Kept(bs, qs) == Live(bs)
  {
  }
}
