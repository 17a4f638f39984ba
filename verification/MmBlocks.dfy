/**
 The allocator of mm.c as it looks from outside: a run of blocks from the prologue to the break, and
 what allocating and freeing do to it.
 */
module MmBlocks {
  import opened Basics

  const WSIZE: nat := 4
  const DSIZE: nat := 8
  const CHUNKSIZE: nat := 4096
  const MAX_HEAP: nat := 1024 * 1024

  /** A block: the address of its payload, its size with both tags, and whether it is in use. */
  datatype Block = Block(addr: nat, size: nat, alloc: bool)

  function End(b: Block): nat {
    b.addr + b.size
  }

  const PROLOGUE := Block(8, 8, true)

  ghost predicate SizesOk(bs: seq<Block>) {
    forall i :: 1 <= i < |bs| ==> BlockOk(bs[i])
  }

  predicate BlockOk(b: Block) {
    b.size % DSIZE == 0 && b.size >= 2 * DSIZE && b.addr % DSIZE == 0
  }

  ghost predicate Adjoin(bs: seq<Block>) {
    forall i, j :: 0 <= i && j == i + 1 && j < |bs| ==> bs[j].addr == End(bs[i])
  }

  /** The blocks tile the heap from the prologue to the break. */
  ghost predicate Tiled(bs: seq<Block>, brk: nat) {
    && |bs| >= 1 && bs[0] == PROLOGUE
    && SizesOk(bs) && Adjoin(bs)
    && End(bs[|bs| - 1]) == brk && brk <= MAX_HEAP
  }

  /** No two neighbouring blocks are both free, those at k aside. */
  ghost predicate NoFreePairBut(bs: seq<Block>, k: int) {
    forall i, j :: 0 <= i && j == i + 1 && j < |bs| && i != k && j != k ==> bs[i].alloc || bs[j].alloc
  }

  ghost predicate NoFreePair(bs: seq<Block>) {
    NoFreePairBut(bs, -1)
  }

  // ---------- the operations on the run of blocks ----------

  /** The run with the blocks from lo up to hi replaced by `mid`. */
  function Splice(bs: seq<Block>, lo: nat, mid: seq<Block>, hi: nat): (r: seq<Block>)
    requires lo <= hi <= |bs|
    ensures |r| == lo + |mid| + |bs| - hi
    ensures forall i :: 0 <= i < lo ==> r[i] == bs[i]
    ensures forall i :: lo <= i < lo + |mid| ==> r[i] == mid[i - lo]
    ensures forall i :: lo + |mid| <= i < |r| ==> r[i] == bs[i - lo - |mid| + hi]
  {
    bs[..lo] + mid + bs[hi..]
  }

  /** The epilogue counts as in use. */
  predicate NextAlloc(bs: seq<Block>, k: nat)
    requires k < |bs|
  {
    k + 1 == |bs| || bs[k + 1].alloc
  }

  /** Where the merged block is. */
  function MergedAt(bs: seq<Block>, k: nat): nat
    requires 1 <= k < |bs|
  {
    if bs[k - 1].alloc then k else k - 1
  }

  function Merged(bs: seq<Block>, k: nat): Block
    requires 1 <= k < |bs|
  {
    Block(bs[MergedAt(bs, k)].addr,
          (if bs[k - 1].alloc then 0 else bs[k - 1].size) + bs[k].size
            + (if NextAlloc(bs, k) then 0 else bs[k + 1].size),
          false)
  }

  /** What coalesce makes of the free block k and its neighbours. */
  function Coalesced(bs: seq<Block>, k: nat): seq<Block>
    requires 1 <= k < |bs|
  {
    Splice(bs, MergedAt(bs, k), [Merged(bs, k)], if NextAlloc(bs, k) then k + 1 else k + 2)
  }

  /** What place makes of the free block k for a request of `size` bytes, tags included. */
  function Placed(bs: seq<Block>, k: nat, size: nat): seq<Block>
    requires k < |bs| && size <= bs[k].size
  {
    var b := bs[k];
    Splice(bs, k,
           if b.size - size >= 2 * DSIZE then [Block(b.addr, size, true), Block(b.addr + size, b.size - size, false)]
           else [Block(b.addr, b.size, true)], k + 1)
  }

  function Freed(bs: seq<Block>, k: nat): seq<Block>
    requires 1 <= k < |bs|
  {
    Coalesced(bs[k := bs[k].(alloc := false)], k)
  }

  predicate Fit(b: Block, size: nat) {
    !b.alloc && b.size >= size
  }

  /** The index of the first free block that is large enough. */
  function FirstFit(bs: seq<Block>, size: nat, from: nat): (r: Option<nat>)
    requires from <= |bs|
    ensures r.Some? ==> from <= r.value < |bs| && Fit(bs[r.value], size)
    ensures forall i :: from <= i < (if r.Some? then r.value else |bs|) ==> !Fit(bs[i], size)
    decreases |bs| - from
  {
    if from == |bs| then None else if Fit(bs[from], size) then Some(from) else FirstFit(bs, size, from + 1)
  }

  /** Bytes set aside for a request of n > 0 bytes: n and both tags, rounded up, at least 16. */
  function Rounded(n: nat): nat {
    if n <= DSIZE then 2 * DSIZE else DSIZE * ((n + DSIZE + DSIZE - 1) / DSIZE)
  }

  function Max(a: nat, b: nat): nat {
    if a > b then a else b
  }

  /** The blocks after the heap has grown by a free block of `size` bytes. */
  function Grown(bs: seq<Block>, brk: nat, size: nat): seq<Block>
    requires |bs| >= 1
  {
    Coalesced(bs + [Block(brk, size, false)], |bs|)
  }

  /** The outcome of a request: the payload's address, or None for NULL. */
  datatype Outcome = Outcome(bs: seq<Block>, brk: nat, ptr: Option<nat>)

  /** The whole of mm_malloc on the run of blocks. */
  function Malloc(bs: seq<Block>, brk: nat, n: nat): Outcome
    requires |bs| >= 1
  {
    var size := Rounded(n);
    var fit := FirstFit(bs, size, 0);
    if n == 0 then Outcome(bs, brk, None)
    else if fit.Some? then Outcome(Placed(bs, fit.value, size), brk, Some(bs[fit.value].addr))
    else
      var more := Max(size, CHUNKSIZE);
      if brk + more > MAX_HEAP then Outcome(bs, brk, None)
      else
        var bs' := Grown(bs, brk, more);
        var k := MergedAt(bs + [Block(brk, more, false)], |bs|);
        assert bs'[k].size >= more;
        Outcome(Placed(bs', k, size), brk + more, Some(bs'[k].addr))
  }

  // ---------- the layout is kept ----------

  /** Blocks further on lie further up, and below the break. */
  lemma {:induction false} Ordered(bs: seq<Block>, brk: nat, i: nat, j: nat)
    requires Tiled(bs, brk) && i <= j < |bs|
    ensures i < j ==> End(bs[i]) <= bs[j].addr
    ensures End(bs[j]) <= brk
    decreases |bs| - i
  {
    if i < j {
      assert bs[i + 1].addr == End(bs[i]);
      Ordered(bs, brk, i + 1, j);
    } else if j + 1 < |bs| {
      assert bs[j + 1].addr == End(bs[j]);
      Ordered(bs, brk, j + 1, j + 1);
    }
  }

  /** Replacing some blocks by others that cover the same stretch keeps the heap tiled. */
  lemma SpliceTiled(bs: seq<Block>, lo: nat, mid: seq<Block>, hi: nat, brk: nat)
    requires Tiled(bs, brk) && 1 <= lo < hi <= |bs| && |mid| >= 1
    requires mid[0].addr == bs[lo].addr && End(mid[|mid| - 1]) == End(bs[hi - 1]) && Adjoin(mid)
    requires forall i :: 0 <= i < |mid| ==> BlockOk(mid[i])
    ensures Tiled(Splice(bs, lo, mid, hi), brk)
  {
  }

  lemma Eights(a: int, b: int)
    requires a % DSIZE == 0 && b % DSIZE == 0
    ensures (a + b) % DSIZE == 0 && (a - b) % DSIZE == 0
  {
    var x, y := a / DSIZE, b / DSIZE;
    assert a + b == DSIZE * (x + y) && a - b == DSIZE * (x - y);
  }

  lemma MergedOk(bs: seq<Block>, k: nat, brk: nat)
    requires 1 <= k < |bs| && Tiled(bs, brk) && !bs[k].alloc
    ensures BlockOk(Merged(bs, k)) && End(bs[k]) <= End(Merged(bs, k)) && Merged(bs, k).addr <= bs[k].addr
    ensures 1 <= MergedAt(bs, k) && Merged(bs, k).addr == bs[MergedAt(bs, k)].addr
    ensures End(Merged(bs, k)) == if NextAlloc(bs, k) then End(bs[k]) else End(bs[k + 1])
  {
    assert bs[k].addr == End(bs[k - 1]);
    if k + 1 < |bs| {
      assert bs[k + 1].addr == End(bs[k]) && BlockOk(bs[k + 1]);
      Eights(bs[k].size, bs[k + 1].size);
    }
    assert BlockOk(bs[k]) && BlockOk(bs[MergedAt(bs, k)]);
    var up := bs[k].size + if NextAlloc(bs, k) then 0 else bs[k + 1].size;
    Eights(if bs[k - 1].alloc then 0 else bs[k - 1].size, up);
  }

  lemma CoalescedTiled(bs: seq<Block>, k: nat, brk: nat)
    requires 1 <= k < |bs| && Tiled(bs, brk) && !bs[k].alloc
    ensures Tiled(Coalesced(bs, k), brk)
    ensures 1 <= MergedAt(bs, k) < |Coalesced(bs, k)|
    ensures var m := Coalesced(bs, k)[MergedAt(bs, k)];
            !m.alloc && m.addr <= bs[k].addr && End(bs[k]) <= End(m)
  {
    hide BlockOk, Tiled;
    MergedOk(bs, k, brk);
    SpliceTiled(bs, MergedAt(bs, k), [Merged(bs, k)], if NextAlloc(bs, k) then k + 1 else k + 2, brk);
  }

  /** If only the block that was just freed can have free neighbours, none are left afterwards. */
  lemma CoalescedMaximal(bs: seq<Block>, k: nat)
    requires 1 <= k < |bs| && NoFreePairBut(bs, k) && !bs[k].alloc && bs[0].alloc
    ensures NoFreePair(Coalesced(bs, k))
  {
  }

  lemma PlacedTiled(bs: seq<Block>, k: nat, size: nat, brk: nat)
    requires 1 <= k < |bs| && Tiled(bs, brk) && 2 * DSIZE <= size <= bs[k].size && size % DSIZE == 0
    ensures Tiled(Placed(bs, k, size), brk)
  {
    var b := bs[k];
    assert BlockOk(b);
    var mid := if b.size - size >= 2 * DSIZE
               then [Block(b.addr, size, true), Block(b.addr + size, b.size - size, false)]
               else [Block(b.addr, b.size, true)];
    assert forall i :: 0 <= i < |mid| ==> BlockOk(mid[i]);
    hide BlockOk;
    SpliceTiled(bs, k, mid, k + 1, brk);
  }

  lemma PlacedMaximal(bs: seq<Block>, k: nat, size: nat)
    requires 1 <= k < |bs| && NoFreePair(bs) && size <= bs[k].size && !bs[k].alloc
    ensures NoFreePair(Placed(bs, k, size))
  {
    assert k + 1 < |bs| ==> bs[k + 1].alloc;
  }

  lemma GrownTiled(bs: seq<Block>, brk: nat, size: nat)
    requires Tiled(bs, brk) && NoFreePair(bs) && brk % DSIZE == 0
    requires size % DSIZE == 0 && size >= 2 * DSIZE && brk + size <= MAX_HEAP
    ensures Tiled(bs + [Block(brk, size, false)], brk + size)
    ensures Tiled(Grown(bs, brk, size), brk + size) && NoFreePair(Grown(bs, brk, size))
    ensures var k := MergedAt(bs + [Block(brk, size, false)], |bs|);
            1 <= k < |Grown(bs, brk, size)| && !Grown(bs, brk, size)[k].alloc && Grown(bs, brk, size)[k].size >= size
  {
  }

  lemma BreakAligned(bs: seq<Block>, brk: nat)
    requires Tiled(bs, brk)
    ensures brk % DSIZE == 0
  {
    assert End(bs[|bs| - 1]) == brk;
  }

  /** A block of s bytes is aligned, can carry two tags when free, and has room for n bytes and two tags. */
  predicate IsSize(n: nat, s: nat) {
    s % DSIZE == 0 && s >= 2 * DSIZE && s >= n + DSIZE
  }

  /** The smallest size that will do for n bytes. */
  ghost predicate Least(n: nat, s: nat) {
    IsSize(n, s) && forall x: nat :: IsSize(n, x) ==> s <= x
  }

  /** The rounded size is the least that will do. */
  lemma RoundedLeast(n: nat)
    ensures Least(n, Rounded(n)) && Rounded(n) < n + 3 * DSIZE
  {
  }

  lemma RoundedOk(n: nat)
    requires n > 0
    ensures Rounded(n) >= n + DSIZE && Rounded(n) % DSIZE == 0 && Rounded(n) >= 2 * DSIZE
    ensures Rounded(n) < n + 3 * DSIZE
  {
    RoundedLeast(n);
  }

  // ---------- what a caller sees ----------

  /** The blocks handed out and not yet given back. */
  function Live(bs: seq<Block>): set<Block> {
    set b | b in bs && b.alloc && b != PROLOGUE
  }

  /** Payload bytes of a block in use: everything between its two tags. */
  predicate InPayload(b: Block, a: nat) {
    b.addr <= a < End(b) - DSIZE
  }

  /** Two blocks in use never share a payload byte, nor does any of them reach past the break. */
  lemma LiveDisjoint(bs: seq<Block>, brk: nat, b: Block, c: Block, a: nat)
    requires Tiled(bs, brk) && b in Live(bs) && c in Live(bs) && InPayload(b, a) && InPayload(c, a)
    ensures b == c && a < brk && b.addr % DSIZE == 0
  {
    var i :| 0 <= i < |bs| && bs[i] == b;
    var j :| 0 <= j < |bs| && bs[j] == c;
    Ordered(bs, brk, i, i);
    if i < j {
      Ordered(bs, brk, i, j);
    } else if j < i {
      Ordered(bs, brk, j, i);
    }
  }

  lemma DistinctBlocks(bs: seq<Block>, brk: nat, i: nat, j: nat)
    requires Tiled(bs, brk) && i < |bs| && j < |bs| && bs[i].addr == bs[j].addr
    ensures i == j
  {
    if i < j {
      Ordered(bs, brk, i, j);
    } else if j < i {
      Ordered(bs, brk, j, i);
    }
  }

  /** Merging free blocks hands nothing out and takes nothing back. */
  lemma CoalescedLive(bs: seq<Block>, k: nat)
    requires 1 <= k < |bs| && !bs[k].alloc
    ensures Live(Coalesced(bs, k)) == Live(bs)
  {
  }

  lemma PlacedLive(bs: seq<Block>, k: nat, size: nat)
    requires 1 <= k < |bs| && size <= bs[k].size && !bs[k].alloc
    ensures var b := Placed(bs, k, size)[k];
            Live(Placed(bs, k, size)) == Live(bs) + (if b == PROLOGUE then {} else {b})
            && b.alloc && b.addr == bs[k].addr && b.size >= size
  {
  }

  /** Freeing block k takes that block back and no other. */
  lemma FreedLive(bs: seq<Block>, k: nat, brk: nat)
    requires 1 <= k < |bs| && Tiled(bs, brk) && bs[k].alloc
    ensures Live(Freed(bs, k)) == Live(bs) - {bs[k]}
  {
    var f := bs[k := bs[k].(alloc := false)];
    CoalescedLive(f, k);
    forall b | b in Live(bs) && b != bs[k]
      ensures b in f
    {
      var i :| 0 <= i < |bs| && bs[i] == b;
      assert f[i] == b;
    }
    forall b | b in Live(f)
      ensures b in bs && b != bs[k]
    {
      var i :| 0 <= i < |f| && f[i] == b;
      if b == bs[k] {
        DistinctBlocks(bs, brk, i, k);
      }
    }
  }

  // ---------- mm_malloc and mm_free ----------

  predicate Free(b: Block, s: nat) {
    !b.alloc && b.size >= s
  }

  /** b is what a free block, or the end of the heap, gives for a size of s: no more than it must. */
  ghost predicate Gives(bs: seq<Block>, brk: nat, s: nat, b: Block, brk': nat) {
    && b.alloc && b.addr % DSIZE == 0 && s <= b.size < s + 2 * DSIZE
    && if exists f :: f in bs && Free(f, s)
       then brk' == brk && (exists f :: f in bs && Free(f, s) && f.addr == b.addr)
            && forall f :: f in bs && Free(f, s) ==> b.addr <= f.addr
       else bs != [] && brk' == brk + Max(s, CHUNKSIZE)
            && b.addr == if bs[|bs| - 1].alloc then brk else bs[|bs| - 1].addr
  }

  /**
   A request for n bytes, with s the least size that will do. It changes nothing and yields NULL exactly for
   zero bytes and when no free block has s bytes and the heap cannot grow by s or CHUNKSIZE. Otherwise it hands
   out one new block, of s bytes or less than 16 more, at the lowest free place that has s bytes, or at the
   end of the heap grown by just that; and every other block in use stays where it was.
   */
  lemma MallocOk(bs: seq<Block>, brk: nat, n: nat, s: nat) returns (b: Block)
    requires Tiled(bs, brk) && NoFreePair(bs) && Least(n, s)
    ensures var o := Malloc(bs, brk, n);
            && Tiled(o.bs, o.brk) && NoFreePair(o.bs)
            && (o.ptr == None <==>
                  n == 0 || ((forall f :: f in bs ==> !Free(f, s)) && brk + Max(s, CHUNKSIZE) > MAX_HEAP))
            && (o.ptr == None ==> o.bs == bs && o.brk == brk)
            && (o.ptr.Some? ==>
                  && b.addr == o.ptr.value && Gives(bs, brk, s, b, o.brk)
                  && b !in Live(bs) && Live(o.bs) == Live(bs) + {b})
  {
    b := PROLOGUE;
    if n > 0 {
      RoundedLeast(n);
      assert Rounded(n) == s;
      hide Least, IsSize, Rounded, Tiled, NoFreePairBut, Live, Gives;
      var fit := FirstFit(bs, s, 0);
      FitFree(bs, s);
      if fit.Some? {
        b := PlacedOk(bs, fit.value, s, brk);
        FitGives(bs, brk, s, fit.value, b);
      } else if brk + Max(s, CHUNKSIZE) <= MAX_HEAP {
        b := GrownOk(bs, brk, s);
      }
    }
  }

  /** The same of an outcome, for whoever does not ask for the block. */
  ghost predicate MallocMeans(bs: seq<Block>, brk: nat, n: nat, s: nat, o: Outcome) {
    match o.ptr
    case None =>
      && o.bs == bs && o.brk == brk
      && (n == 0 || ((forall f :: f in bs ==> !Free(f, s)) && brk + Max(s, CHUNKSIZE) > MAX_HEAP))
    case Some(addr) =>
      n > 0 && exists b: Block ::
        b.addr == addr && Gives(bs, brk, s, b, o.brk) && b !in Live(bs) && Live(o.bs) == Live(bs) + {b}
  }

  lemma MallocMeant(bs: seq<Block>, brk: nat, n: nat)
    requires Tiled(bs, brk) && NoFreePair(bs)
    ensures |bs| >= 1 && forall s :: Least(n, s) ==> MallocMeans(bs, brk, n, s, Malloc(bs, brk, n))
  {
    assert |bs| >= 1;
    hide Least, Live, Tiled, NoFreePairBut, Gives, Malloc;
    forall s | Least(n, s)
      ensures MallocMeans(bs, brk, n, s, Malloc(bs, brk, n))
    {
      var b := MallocOk(bs, brk, n, s);
    }
  }

  lemma FitFree(bs: seq<Block>, s: nat)
    ensures FirstFit(bs, s, 0) == None <==> forall f :: f in bs ==> !Free(f, s)
  {
    var fit := FirstFit(bs, s, 0);
    if fit.Some? { assert bs[fit.value] in bs; }
  }

  lemma FitGives(bs: seq<Block>, brk: nat, s: nat, k: nat, b: Block)
    requires Tiled(bs, brk) && FirstFit(bs, s, 0) == Some(k) && b.alloc && b.addr == bs[k].addr && b.addr % DSIZE == 0
    requires s <= b.size < s + 2 * DSIZE
    ensures Gives(bs, brk, s, b, brk)
  {
    hide Tiled;
    forall f | f in bs && Free(f, s)
      ensures b.addr <= f.addr
    {
      var i :| 0 <= i < |bs| && bs[i] == f;
      Ordered(bs, brk, k, i);
    }
    assert bs[k] in bs;
  }

  lemma GrownOk(bs: seq<Block>, brk: nat, s: nat) returns (b: Block)
    requires Tiled(bs, brk) && NoFreePair(bs) && |bs| >= 1 && s >= 2 * DSIZE && s % DSIZE == 0
    requires FirstFit(bs, s, 0) == None && brk + Max(s, CHUNKSIZE) <= MAX_HEAP
    ensures var more := Max(s, CHUNKSIZE);
            var bs', k := Grown(bs, brk, more), MergedAt(bs + [Block(brk, more, false)], |bs|);
            && k < |bs'| && bs'[k].size >= more && b.addr == bs'[k].addr
            && Tiled(Placed(bs', k, s), brk + more) && NoFreePair(Placed(bs', k, s))
            && Gives(bs, brk, s, b, brk + more)
            && b !in Live(bs) && Live(Placed(bs', k, s)) == Live(bs) + {b}
  {
    var more := Max(s, CHUNKSIZE);
    BreakAligned(bs, brk);
    GrownTiled(bs, brk, more);
    CoalescedLive(bs + [Block(brk, more, false)], |bs|);
    assert Live(bs + [Block(brk, more, false)]) == Live(bs) by {
      assert forall x :: x in bs + [Block(brk, more, false)] <==> x in bs || x == Block(brk, more, false);
    }
    b := PlacedOk(Grown(bs, brk, more), MergedAt(bs + [Block(brk, more, false)], |bs|), s, brk + more);
    FitFree(bs, s);
  }

  lemma PlacedOk(bs: seq<Block>, k: nat, size: nat, brk: nat) returns (b: Block)
    requires Tiled(bs, brk) && NoFreePair(bs) && k < |bs| && Fit(bs[k], size) && size >= 2 * DSIZE && size % DSIZE == 0
    ensures Tiled(Placed(bs, k, size), brk) && NoFreePair(Placed(bs, k, size)) && 1 <= k
    ensures b.alloc && b.addr == bs[k].addr && b.addr % DSIZE == 0 && size <= b.size < size + 2 * DSIZE
    ensures b !in Live(bs) && Live(Placed(bs, k, size)) == Live(bs) + {b}
  {
    PlacedTiled(bs, k, size, brk);
    PlacedMaximal(bs, k, size);
    PlacedLive(bs, k, size);
    b := Placed(bs, k, size)[k];
    assert BlockOk(bs[k]);
    if b in Live(bs) {
      var i :| 0 <= i < |bs| && bs[i] == b;
      DistinctBlocks(bs, brk, i, k);
    }
  }

  /** Giving a block back takes it out of use, keeps the others, and leaves no two free neighbours. */
  lemma FreeOk(bs: seq<Block>, brk: nat, k: nat)
    requires Tiled(bs, brk) && NoFreePair(bs) && 1 <= k < |bs| && bs[k].alloc
    ensures Tiled(Freed(bs, k), brk) && NoFreePair(Freed(bs, k)) && Live(Freed(bs, k)) == Live(bs) - {bs[k]}
  {
    var f := bs[k := bs[k].(alloc := false)];
    assert Tiled(f, brk) by {
      assert BlockOk(bs[k]);
      assert f == Splice(bs, k, [f[k]], k + 1);
      SpliceTiled(bs, k, [f[k]], k + 1, brk);
    }
    assert NoFreePairBut(f, k);
    CoalescedTiled(f, k, brk);
    CoalescedMaximal(f, k);
    FreedLive(bs, k, brk);
  }

  /** A request that is met without growing the heap, freed again at once, leaves the blocks exactly as they were. */
  lemma FreeUndoesMalloc(bs: seq<Block>, brk: nat, n: nat, k: nat)
    requires Tiled(bs, brk) && NoFreePair(bs) && n > 0 && FirstFit(bs, Rounded(n), 0) == Some(k)
    ensures var o := Malloc(bs, brk, n);
            1 <= k < |o.bs| && o.bs[k].alloc && o.ptr == Some(o.bs[k].addr) && o.brk == brk && Freed(o.bs, k) == bs
  {
    assert Fit(bs[k], Rounded(n)) && bs[0].alloc;
    assert bs[k - 1].alloc;
    assert k + 1 < |bs| ==> bs[k + 1].alloc;
    hide Tiled, NoFreePair, FirstFit;
    PlacedFreed(bs, k, Rounded(n));
  }

  /** Freeing what place took gives back the block it took it from. */
  lemma PlacedFreed(bs: seq<Block>, k: nat, size: nat)
    requires 1 <= k < |bs| && Fit(bs[k], size) && size > 0 && bs[k - 1].alloc && NextAlloc(bs, k)
    ensures var r := Placed(bs, k, size);
            k < |r| && r[k].alloc && r[k].addr == bs[k].addr && Freed(r, k) == bs
  {
    if bs[k].size - size >= 2 * DSIZE {
      SplitFreed(bs, k, size);
    } else {
      WholeFreed(bs, k);
    }
  }

  lemma SplitFreed(bs: seq<Block>, k: nat, size: nat)
    requires 1 <= k < |bs| && !bs[k].alloc && bs[k - 1].alloc && NextAlloc(bs, k) && bs[k].size >= size
    ensures var b := bs[k];
            var r := Splice(bs, k, [Block(b.addr, size, true), Block(b.addr + size, b.size - size, false)], k + 1);
            k < |r| && r[k] == Block(b.addr, size, true) && Freed(r, k) == bs
  {
    var b := bs[k];
    var r := Splice(bs, k, [Block(b.addr, size, true), Block(b.addr + size, b.size - size, false)], k + 1);
    var f := r[k := r[k].(alloc := false)];
    assert f[k - 1] == bs[k - 1] && !f[k + 1].alloc && |f| == |bs| + 1;
    assert Merged(f, k) == b;
    assert f[..k] == bs[..k] && f[k + 2..] == bs[k + 1..];
  }

  lemma WholeFreed(bs: seq<Block>, k: nat)
    requires 1 <= k < |bs| && !bs[k].alloc && bs[k - 1].alloc && NextAlloc(bs, k)
    ensures var r := Splice(bs, k, [Block(bs[k].addr, bs[k].size, true)], k + 1);
            k < |r| && r[k] == Block(bs[k].addr, bs[k].size, true) && Freed(r, k) == bs
  {
    var r := Splice(bs, k, [Block(bs[k].addr, bs[k].size, true)], k + 1);
    assert r[k := r[k].(alloc := false)] == bs;
    assert Merged(bs, k) == bs[k];
  }

  // ---------- runs ----------

  datatype Req = Alloc(n: nat) | Release(addr: nat)

  function IndexAt(bs: seq<Block>, addr: nat, from: nat): (r: Option<nat>)
    requires from <= |bs|
    ensures r.Some? ==> from <= r.value < |bs| && bs[r.value].addr == addr && bs[r.value].alloc
    ensures r == None ==> forall i :: from <= i < |bs| ==> bs[i].addr != addr || !bs[i].alloc
    decreases |bs| - from
  {
    if from == |bs| then None
    else if bs[from].addr == addr && bs[from].alloc then Some(from)
    else IndexAt(bs, addr, from + 1)
  }

  /** One request of the program; releasing anything but a live pointer is not allowed and does nothing here. */
  function Serve(bs: seq<Block>, brk: nat, q: Req): Outcome
    requires |bs| >= 1
  {
    match q
    case Alloc(n) => Malloc(bs, brk, n)
    case Release(addr) =>
      var k := IndexAt(bs, addr, 1);
      Outcome(if k.Some? then Freed(bs, k.value) else bs, brk, None)
  }

  lemma ServeOk(bs: seq<Block>, brk: nat, q: Req)
    requires Tiled(bs, brk) && NoFreePair(bs)
    ensures var o := Serve(bs, brk, q); Tiled(o.bs, o.brk) && NoFreePair(o.bs) && o.brk >= brk
    ensures forall b :: b in Live(bs) && q != Release(b.addr) ==> b in Live(Serve(bs, brk, q).bs)
    ensures q.Release? ==> forall b :: b in Live(Serve(bs, brk, q).bs) <==> b in Live(bs) && b.addr != q.addr
  {
    match q
    case Alloc(n) =>
      RoundedLeast(n);
      var b := MallocOk(bs, brk, n, Rounded(n));
    case Release(addr) =>
      var k := IndexAt(bs, addr, 1);
      if k.Some? { FreeOk(bs, brk, k.value); }
      ReleasedAt(bs, brk, addr);
  }

  /** A pointer belongs to one block in use at most, the one that is looked up. */
  lemma ReleasedAt(bs: seq<Block>, brk: nat, addr: nat)
    requires Tiled(bs, brk)
    ensures var k := IndexAt(bs, addr, 1);
            if k.Some? then forall b :: b in Live(bs) && b.addr == addr <==> b == bs[k.value]
            else forall b :: b in Live(bs) ==> b.addr != addr
  {
    var k := IndexAt(bs, addr, 1);
    forall b | b in Live(bs) && b.addr == addr
      ensures k.Some? && b == bs[k.value]
    {
      var i :| 0 <= i < |bs| && bs[i] == b;
      assert i >= 1;
      if k.Some? { DistinctBlocks(bs, brk, i, k.value); }
    }
    if k.Some? {
      assert bs[k.value] in bs;
    }
  }

  /** The heap after a sequence of requests. */
  function ServeAll(bs: seq<Block>, brk: nat, qs: seq<Req>): Outcome
    requires Tiled(bs, brk) && NoFreePair(bs)
    decreases |qs|
  {
    if qs == [] then Outcome(bs, brk, None)
    else
      var o := Serve(bs, brk, qs[0]);
      ServeOk(bs, brk, qs[0]);
      ServeAll(o.bs, o.brk, qs[1..])
  }

  /**
   Whatever is requested and released, in any order: the blocks tile the heap, no two free ones are
   neighbours, and a block in use stays where it is, with its size, until it is released.
   */
  lemma {:induction false} RunOk(bs: seq<Block>, brk: nat, qs: seq<Req>, b: Block)
    requires Tiled(bs, brk) && NoFreePair(bs)
    ensures var o := ServeAll(bs, brk, qs);
            Tiled(o.bs, o.brk) && NoFreePair(o.bs)
            && (b in Live(bs) && Release(b.addr) !in qs ==> b in Live(o.bs))
    decreases |qs|
  {
    if qs != [] {
      ServeOk(bs, brk, qs[0]);
      RunOk(Serve(bs, brk, qs[0]).bs, Serve(bs, brk, qs[0]).brk, qs[1..], b);
    }
  }
}
