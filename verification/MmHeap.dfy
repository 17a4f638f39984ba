/**
 mm.c, mm.h and memlib.c on the words of the heap. Addresses are byte offsets from the heap's first
 byte, which is aligned to eight; every header and footer is one 32-bit word. All that the code knows
 about blocks it reads from those words; the ghost field `bs` says what they amount to.
 */
module MmHeap {
  import opened Basics
  import opened MmBlocks

  const WORDS: nat := MAX_HEAP / WSIZE

  /** An unsigned int. */
  type Word = w: int | 0 <= w < 0x1_0000_0000

  const SIZE_T: nat := 0x1_0000_0000_0000_0000

  /** A size_t passed where an int is expected. */
  function AsInt(x: nat): int {
    var y := x % 0x1_0000_0000;
    if y >= 0x8000_0000 then y - 0x1_0000_0000 else y
  }

  /** The block size mm_malloc computes, in size_t arithmetic. */
  function RequestSize(n: nat): nat {
    if n <= DSIZE then 2 * DSIZE else DSIZE * (((n + DSIZE + DSIZE - 1) % SIZE_T) / DSIZE)
  }

  predicate Refused(brk: nat, incr: int) {
    incr < 0 || brk + incr > MAX_HEAP
  }

  /**
   The requests whose size survives the trip through size_t and int: the rounded size does not wrap,
   and it fits an int, turns negative, or is too large for the rest of the heap even when cut off.
   */
  predicate Representable(n: nat, brk: nat) {
    n + DSIZE + DSIZE - 1 < SIZE_T && (Rounded(n) < 0x8000_0000 || Refused(brk, AsInt(Rounded(n))))
  }

  /** For exactly those requests the code looks for, and asks mem_sbrk for, what the request needs. */
  lemma RepresentableExactly(n: nat, brk: nat)
    requires 0 < n < SIZE_T
    ensures Representable(n, brk) <==>
              && RequestSize(n) == Rounded(n)
              && (Refused(brk, AsInt(Max(RequestSize(n), CHUNKSIZE)))
                    || AsInt(Max(RequestSize(n), CHUNKSIZE)) == Max(Rounded(n), CHUNKSIZE))
  {
  }

  lemma SmallRequests(n: nat, brk: nat)
    requires n <= 0x8000_0000 - 16
    ensures Representable(n, brk)
  {
  }

  /**
   The requests that mm_malloc meets or rightly refuses: the representable ones, and those whose size wraps
   when no block is free and the heap is full.
   */
  predicate Served(bs: seq<Block>, brk: nat, n: nat) {
    || Representable(n, brk)
    || (n + DSIZE + DSIZE - 1 >= SIZE_T && FirstFit(bs, RequestSize(n), 0) == None && Refused(brk, CHUNKSIZE))
  }

  lemma FitsLess(bs: seq<Block>, size: nat, size': nat)
    requires size <= size' && FirstFit(bs, size, 0) == None
    ensures FirstFit(bs, size', 0) == None
  {
    var k := FirstFit(bs, size', 0);
  }

  /** What the code computes for a request that it serves is what Malloc computes. */
  lemma ServedMeans(bs: seq<Block>, brk: nat, n: nat)
    requires 0 < n < SIZE_T && Served(bs, brk, n) && brk <= MAX_HEAP
    ensures var fit, more := FirstFit(bs, RequestSize(n), 0), Max(RequestSize(n), CHUNKSIZE);
            && fit == FirstFit(bs, Rounded(n), 0)
            && (fit.Some? || !Refused(brk, AsInt(more)) ==> RequestSize(n) == Rounded(n))
            && (fit == None ==>
                  && (Refused(brk, AsInt(more)) <==> brk + Max(Rounded(n), CHUNKSIZE) > MAX_HEAP)
                  && (!Refused(brk, AsInt(more)) ==> AsInt(more) == more))
  {
    RepresentableExactly(n, brk);
    if !Representable(n, brk) {
      Wraps(n);
      FitsLess(bs, RequestSize(n), Rounded(n));
    }
  }

  lemma Wraps(n: nat)
    requires n < SIZE_T <= n + DSIZE + DSIZE - 1
    ensures RequestSize(n) <= DSIZE && RequestSize(n) % DSIZE == 0 && Rounded(n) > 2 * MAX_HEAP
  {
    assert (n + DSIZE + DSIZE - 1) % SIZE_T == n + DSIZE + DSIZE - 1 - SIZE_T;
  }

  /** For every other request the block found, or else the growth of the heap, has fewer than n bytes. */
  lemma UnservedFails(bs: seq<Block>, brk: nat, n: nat)
    requires Tiled(bs, brk) && 0 < n < SIZE_T && !Served(bs, brk, n)
    ensures var fit, more := FirstFit(bs, RequestSize(n), 0), AsInt(Max(RequestSize(n), CHUNKSIZE));
            if fit.Some? then bs[fit.value].size < n else !Refused(brk, more) && more < n
  {
    var fit := FirstFit(bs, RequestSize(n), 0);
    if fit.Some? {
      Ordered(bs, brk, fit.value, fit.value);
    }
    if n + DSIZE + DSIZE - 1 >= SIZE_T { Wraps(n); } else { RoundedOk(n); }
  }

  /**
   Right after mm_init, a request for 2^32 bytes finds no block and makes the heap grow by 8 bytes, and one
   for 2^64 - 1 bytes gets the first block, of 4096.
   */
  lemma UnservedExamples()
    ensures var bs, brk, n := [PROLOGUE, Block(16, CHUNKSIZE, false)], 16 + CHUNKSIZE, 0x1_0000_0000;
            && !Served(bs, brk, n) && FirstFit(bs, RequestSize(n), 0) == None
            && AsInt(Max(RequestSize(n), CHUNKSIZE)) == 8 && !Refused(brk, 8)
    ensures var bs, brk, n := [PROLOGUE, Block(16, CHUNKSIZE, false)], 16 + CHUNKSIZE, SIZE_T - 1;
            !Served(bs, brk, n) && FirstFit(bs, RequestSize(n), 0) == Some(1)
  {
    assert RequestSize(SIZE_T - 1) == 8;
  }

  // ---------- tags ----------

  function Pack(size: nat, alloc: bool): nat {
    size + (if alloc then 1 else 0)
  }

  /** `GET(p) & ~0x7` and `GET(p) & 0x1` on a word. */
  function SizeBits(w: Word): nat {
    w - w % 8
  }

  function AllocBit(w: Word): nat {
    w % 2
  }

  /** The bit operations of mm.h are these sums and remainders, for sizes that are multiples of eight. */
  lemma BitTags(size: bv32, alloc: bv32, w: bv32)
    requires size % 8 == 0 && alloc <= 1
    ensures size | alloc == size + alloc && w & 0xFFFF_FFF8 == w - w % 8 && w & 1 == w % 2
  {
  }

  lemma Modulo(k: nat, x: int, r: nat)
    requires k in {2, 8} && r < k
    ensures (k * x + r) % k == r
  {
    var q, m := (k * x + r) / k, (k * x + r) % k;
    assert k * x + r == k * q + m;
    if k == 8 { assert 8 * (x - q) == m - r; } else { assert 2 * (x - q) == m - r; }
  }

  lemma PackBits(size: nat, alloc: bool)
    requires size % DSIZE == 0 && size <= MAX_HEAP
    ensures SizeBits(Pack(size, alloc)) == size && AllocBit(Pack(size, alloc)) == (if alloc then 1 else 0)
  {
    var x, r := size / DSIZE, if alloc then 1 else 0;
    assert size == 8 * x == 2 * (4 * x);
    Modulo(8, x, r);
    Modulo(2, 4 * x, r);
  }

  predicate WordAddr(p: int) {
    0 <= p < MAX_HEAP && p % WSIZE == 0
  }

  lemma BlockWords(addr: int, size: int)
    requires addr % DSIZE == 0 && size % DSIZE == 0 && addr >= DSIZE && size >= DSIZE && addr + size <= MAX_HEAP
    ensures WordAddr(addr - WSIZE) && WordAddr(addr + size - DSIZE) && WordAddr(addr + size - WSIZE)
  {
    var a, s := addr / DSIZE, size / DSIZE;
    assert addr == 8 * a && size == 8 * s;
    Word4(2 * a - 1);
    Word4(2 * a + 2 * s - 2);
    Word4(2 * a + 2 * s - 1);
  }

  lemma Word4(x: int)
    ensures (WSIZE * x) % WSIZE == 0
  {
  }

  /** The word at address p. */
  function At(w: seq<Word>, p: int): Word {
    if WordAddr(p) && p / WSIZE < |w| then w[p / WSIZE] else 0
  }

  /** Header and footer addresses of a block. */
  function Hdr(b: Block): int {
    b.addr - WSIZE
  }

  function Ftr(b: Block): int {
    End(b) - DSIZE
  }

  ghost predicate Tagged(w: seq<Word>, b: Block) {
    At(w, Hdr(b)) == Pack(b.size, b.alloc) && At(w, Ftr(b)) == Pack(b.size, b.alloc)
  }

  /** Every block carries its size and state in both its tags; the epilogue header ends the heap. */
  ghost predicate TagsOk(w: seq<Word>, bs: seq<Block>, brk: nat) {
    && At(w, brk - WSIZE) == Pack(0, true)
    && forall i :: 0 <= i < |bs| ==> Tagged(w, bs[i])
  }

  /** Nothing outside the stretch from the header at lo to the footer at hi changed. */
  ghost predicate SameBeyond(w: seq<Word>, w': seq<Word>, lo: int, hi: int) {
    |w'| == |w| && forall p {:trigger At(w', p)} :: p < lo || hi < p ==> At(w', p) == At(w, p)
  }

  /** The word at p became v, and no other word changed. */
  ghost predicate PutTo(w: seq<Word>, w': seq<Word>, p: int, v: Word) {
    |w'| == |w| && At(w', p) == v && forall q {:trigger At(w', q)} :: q != p ==> At(w', q) == At(w, q)
  }

  lemma PutRead(w: seq<Word>, w': seq<Word>, p: int, v: Word)
    requires PutTo(w, w', p, v)
    ensures At(w', p) == v
  {
  }

  lemma PutElsewhere(w: seq<Word>, w': seq<Word>, p: int, v: Word, q: int)
    requires PutTo(w, w', p, v) && q != p
    ensures At(w', q) == At(w, q)
  {
  }

  /** Header and footer written: the block has its tags, and nothing outside it changed. */
  lemma TwoTags(w: seq<Word>, w1: seq<Word>, w2: seq<Word>, b: Block)
    requires Pack(b.size, b.alloc) < 0x1_0000_0000 && b.size >= DSIZE
    requires PutTo(w, w1, Hdr(b), Pack(b.size, b.alloc)) && PutTo(w1, w2, Ftr(b), Pack(b.size, b.alloc))
    ensures Tagged(w2, b) && SameBeyond(w, w2, Hdr(b), Ftr(b))
  {
    hide At, Pack;
  }

  /** Tagging first the front and then the rest of a block. */
  lemma SplitTags(w: seq<Word>, w1: seq<Word>, w2: seq<Word>, b: Block, front: Block, rest: Block)
    requires SameBeyond(w, w1, Hdr(front), Ftr(front)) && Tagged(w1, front) && SameBeyond(w1, w2, Hdr(rest), Ftr(rest))
    requires front.addr == b.addr && rest.addr == End(front) && End(rest) == End(b) && front.size >= DSIZE
    requires rest.size >= DSIZE
    ensures Tagged(w2, front) && SameBeyond(w, w2, Hdr(b), Ftr(b))
  {
    hide At, Pack;
  }

  /** Blocks on either side of a replaced stretch keep their tags. */
  lemma TagsSplice(w: seq<Word>, w': seq<Word>, bs: seq<Block>, lo: nat, mid: seq<Block>, hi: nat, brk: nat)
    requires Tiled(bs, brk) && TagsOk(w, bs, brk) && 1 <= lo < hi <= |bs|
    requires SameBeyond(w, w', Hdr(bs[lo]), Ftr(bs[hi - 1]))
    requires forall i :: 0 <= i < |mid| ==> Tagged(w', mid[i])
    ensures TagsOk(w', Splice(bs, lo, mid, hi), brk)
  {
    hide At, Tiled, Pack;
    Ordered(bs, brk, hi - 1, hi - 1);
    var r := Splice(bs, lo, mid, hi);
    forall i | 0 <= i < |r|
      ensures Tagged(w', r[i])
    {
      if i < lo {
        assert Tagged(w, bs[i]);
        Ordered(bs, brk, i, lo);
        PositiveSize(bs, brk, i);
      } else if i >= lo + |mid| {
        var j := i - lo - |mid| + hi;
        assert Tagged(w, bs[j]);
        Ordered(bs, brk, hi - 1, j);
        PositiveSize(bs, brk, j);
      }
    }
  }

  lemma PositiveSize(bs: seq<Block>, brk: nat, i: nat)
    requires Tiled(bs, brk) && i < |bs|
    ensures bs[i].size >= DSIZE && bs[i].addr >= DSIZE && bs[i].addr % DSIZE == 0 && bs[i].size % DSIZE == 0
    ensures End(bs[i]) <= brk <= MAX_HEAP && brk % DSIZE == 0
    ensures i >= 1 ==> bs[i].size >= 2 * DSIZE && bs[i].addr == End(bs[i - 1])
    ensures i + 1 < |bs| ==> bs[i + 1].addr == End(bs[i])
    ensures i + 1 == |bs| ==> End(bs[i]) == brk
  {
    Ordered(bs, brk, 0, i);
    Ordered(bs, brk, i, i);
    BreakAligned(bs, brk);
    assert i >= 1 ==> BlockOk(bs[i]);
  }

  /** No payload word of a block that stays in use changed. */
  ghost predicate PayloadsKept(w: seq<Word>, w': seq<Word>, live: set<Block>) {
    |w'| == |w| && forall b, p: nat :: b in live && InPayload(b, p) ==> At(w', p) == At(w, p)
  }

  /** A change inside one block, tags included, keeps the payloads of all the others. */
  lemma PayloadsBeyond(w: seq<Word>, w': seq<Word>, bs: seq<Block>, brk: nat, i: nat)
    requires Tiled(bs, brk) && i < |bs| && SameBeyond(w, w', Hdr(bs[i]), Ftr(bs[i]))
    ensures PayloadsKept(w, w', Live(bs) - {bs[i]})
  {
    hide At, Tiled;
    forall b, p: nat | b in Live(bs) - {bs[i]} && InPayload(b, p)
      ensures At(w', p) == At(w, p)
    {
      var j :| 0 <= j < |bs| && bs[j] == b;
      PositiveSize(bs, brk, i);
      if j < i {
        Ordered(bs, brk, j, i);
      } else {
        Ordered(bs, brk, i, j);
      }
    }
  }

  lemma PayloadsCompose(w: seq<Word>, w': seq<Word>, w'': seq<Word>, live: set<Block>, live': set<Block>,
          live'': set<Block>)
    requires PayloadsKept(w, w', live) && PayloadsKept(w', w'', live') && live'' <= live && live'' <= live'
    ensures PayloadsKept(w, w'', live'')
  {
    hide At;
  }

  lemma GrowTags(w: seq<Word>, w2: seq<Word>, w3: seq<Word>, b: Block)
    requires SameBeyond(w, w2, Hdr(b), Ftr(b)) && Tagged(w2, b) && b.size >= DSIZE
    requires PutTo(w2, w3, End(b) - WSIZE, Pack(0, true))
    ensures Tagged(w3, b) && At(w3, End(b) - WSIZE) == Pack(0, true) && |w3| == |w|
    ensures forall p {:trigger At(w3, p)} :: p < b.addr - WSIZE ==> At(w3, p) == At(w, p)
  {
    hide At, Pack;
  }

  /** A new free block and a new epilogue behind the old break. */
  lemma TagsGrow(w: seq<Word>, w': seq<Word>, bs: seq<Block>, brk: nat, b: Block)
    requires Tiled(bs, brk) && TagsOk(w, bs, brk) && b.addr == brk && b.size >= DSIZE
    requires Tagged(w', b) && At(w', End(b) - WSIZE) == Pack(0, true)
    requires forall p {:trigger At(w', p)} :: p < brk - WSIZE ==> At(w', p) == At(w, p)
    ensures TagsOk(w', bs + [b], End(b))
  {
    hide At, Tiled, Pack;
    forall i | 0 <= i < |bs|
      ensures Tagged(w', bs[i])
    {
      assert Tagged(w, bs[i]);
      PositiveSize(bs, brk, i);
    }
  }

  lemma GrowPayloads(w: seq<Word>, w': seq<Word>, bs: seq<Block>, brk: nat)
    requires Tiled(bs, brk) && |w'| == |w|
    requires forall p {:trigger At(w', p)} :: p < brk - WSIZE ==> At(w', p) == At(w, p)
    ensures PayloadsKept(w, w', Live(bs))
  {
    hide At, Tiled;
    forall b, p: nat | b in Live(bs) && InPayload(b, p)
      ensures At(w', p) == At(w, p)
    {
      var j :| 0 <= j < |bs| && bs[j] == b;
      PositiveSize(bs, brk, j);
    }
  }

  /** The merged block is tagged, and nothing outside it changed. */
  ghost predicate MergeDone(w: seq<Word>, w': seq<Word>, bs: seq<Block>, k: nat)
    requires 1 <= k < |bs|
  {
    Tagged(w', Merged(bs, k)) && SameBeyond(w, w', Hdr(Merged(bs, k)), Ftr(Merged(bs, k)))
  }

  lemma SameAll(w: seq<Word>, lo: int, hi: int)
    ensures SameBeyond(w, w, lo, hi)
  {
  }

  /** Tagging the merged block is all that coalescing takes. */
  lemma CoalescedTags(w: seq<Word>, w': seq<Word>, bs: seq<Block>, k: nat, brk: nat)
    requires 1 <= k < |bs| && !bs[k].alloc && Tagged(w', Merged(bs, k))
    requires SameBeyond(w, w', Hdr(Merged(bs, k)), Ftr(Merged(bs, k)))
    requires Tiled(bs, brk) && TagsOk(w, bs, brk)
    ensures Tiled(Coalesced(bs, k), brk) && TagsOk(w', Coalesced(bs, k), brk)
    ensures MergedAt(bs, k) < |Coalesced(bs, k)| && Coalesced(bs, k)[MergedAt(bs, k)] == Merged(bs, k)
  {
    hide TagsOk, Tagged, SameBeyond, At, Splice;
    var m, hi: nat := Merged(bs, k), if NextAlloc(bs, k) then k + 1 else k + 2;
    CoalescedTiled(bs, k, brk);
    MergedEnds(bs, k, brk);
    hide Tiled;
    TagsSplice(w, w', bs, MergedAt(bs, k), [m], hi, brk);
  }

  lemma MergedEnds(bs: seq<Block>, k: nat, brk: nat)
    requires Tiled(bs, brk) && 1 <= k < |bs|
    ensures var hi := if NextAlloc(bs, k) then k + 1 else k + 2;
            1 <= MergedAt(bs, k) < hi <= |bs| && Hdr(Merged(bs, k)) == Hdr(bs[MergedAt(bs, k)])
              && Ftr(Merged(bs, k)) == Ftr(bs[hi - 1])
  {
  }

  /** Tagging the block in use, and the rest of it if that is split off, is all that placing takes. */
  lemma PlacedTags(w: seq<Word>, w': seq<Word>, bs: seq<Block>, k: nat, size: nat, brk: nat)
    requires 1 <= k < |bs| && Fit(bs[k], size) && size >= 2 * DSIZE && size % DSIZE == 0
    requires SameBeyond(w, w', Hdr(bs[k]), Ftr(bs[k])) && Tiled(bs, brk) && TagsOk(w, bs, brk)
    requires var b := bs[k];
             if b.size - size >= 2 * DSIZE
             then Tagged(w', Block(b.addr, size, true)) && Tagged(w', Block(b.addr + size, b.size - size, false))
             else Tagged(w', Block(b.addr, b.size, true))
    ensures Tiled(Placed(bs, k, size), brk) && TagsOk(w', Placed(bs, k, size), brk)
  {
    hide Tiled, TagsOk, Tagged, SameBeyond, At, Splice;
    var b := bs[k];
    PlacedTiled(bs, k, size, brk);
    TagsSplice(w, w', bs, k,
               if b.size - size >= 2 * DSIZE
               then [Block(b.addr, size, true), Block(b.addr + size, b.size - size, false)]
               else [Block(b.addr, b.size, true)], k + 1, brk);
  }

  /** A free block is no payload in use. */
  lemma PlacedPayloads(w: seq<Word>, w': seq<Word>, bs: seq<Block>, k: nat, brk: nat)
    requires k < |bs| && !bs[k].alloc && SameBeyond(w, w', Hdr(bs[k]), Ftr(bs[k])) && Tiled(bs, brk)
    ensures PayloadsKept(w, w', Live(bs))
  {
    hide Tiled, SameBeyond;
    PayloadsBeyond(w, w', bs, brk, k);
    assert Live(bs) - {bs[k]} == Live(bs);
  }

  class Heap {
    const mem: array<Word>
    var brk: nat
    var listp: nat

    ghost var bs: seq<Block>

    /** mem_init. */
    constructor ()
      ensures mem.Length == WORDS && brk == 0 && fresh(mem)
    {
      mem := new Word[WORDS](_ => 0);
      brk, listp := 0, 0;
      bs := [];
    }

    ghost predicate Shape()
      reads this, mem
    {
      mem.Length == WORDS && Tiled(bs, brk) && TagsOk(mem[..], bs, brk) && listp == PROLOGUE.addr
    }

    ghost predicate Valid()
      reads this, mem
    {
      Shape() && NoFreePair(bs)
    }

    method MemSbrk(incr: int) returns (r: Option<nat>)
      modifies `brk
      ensures r == if Refused(old(brk), incr) then None else Some(old(brk))
      ensures brk == if r == None then old(brk) else old(brk) + incr
    {
      var oldBrk := brk;
      if incr < 0 || incr + brk > MAX_HEAP {
        return None;
      }
      brk := brk + incr;
      r := Some(oldBrk);
    }

    // ---------- mm.h ----------

    function Get(p: int): (w: Word)
      requires WordAddr(p) && mem.Length == WORDS
      reads this, mem
      ensures w == At(mem[..], p)
    {
      mem[p / WSIZE]
    }

    method Put(p: int, val: nat)
      requires WordAddr(p) && mem.Length == WORDS && val < 0x1_0000_0000
      modifies mem
      ensures PutTo(old(mem[..]), mem[..], p, val)
    {
      mem[p / WSIZE] := val;
    }

    function GetSize(p: int): (size: nat)
      requires WordAddr(p) && mem.Length == WORDS
      reads this, mem
      ensures size == SizeBits(At(mem[..], p))
    {
      SizeBits(Get(p))
    }

    function GetAlloc(p: int): (bit: nat)
      requires WordAddr(p) && mem.Length == WORDS
      reads this, mem
      ensures bit == AllocBit(At(mem[..], p))
    {
      AllocBit(Get(p))
    }

    function Hdrp(bp: int): int {
      bp - WSIZE
    }

    function Ftrp(bp: int): int
      requires WordAddr(bp - WSIZE) && mem.Length == WORDS
      reads this, mem
    {
      bp + GetSize(Hdrp(bp)) - DSIZE
    }

    function NextBlkp(bp: int): int
      requires WordAddr(bp - WSIZE) && mem.Length == WORDS
      reads this, mem
    {
      bp + GetSize(Hdrp(bp))
    }

    function PrevBlkp(bp: int): int
      requires WordAddr(bp - DSIZE) && mem.Length == WORDS
      reads this, mem
    {
      bp - GetSize(bp - DSIZE)
    }

    /** Both tags of a block, as addresses that can be read and as the words found there. */
    lemma BlockAt(k: nat)
      requires Shape() && k < |bs|
      ensures WordAddr(Hdr(bs[k])) && WordAddr(Ftr(bs[k])) && Tagged(mem[..], bs[k])
      ensures var w, w' := At(mem[..], Hdr(bs[k])), At(mem[..], Ftr(bs[k]));
              w == w' && SizeBits(w) == bs[k].size && AllocBit(w) == (if bs[k].alloc then 1 else 0)
      ensures bs[k].size >= DSIZE && bs[k].addr >= DSIZE && End(bs[k]) <= brk <= MAX_HEAP
      ensures k >= 1 ==> bs[k].size >= 2 * DSIZE && bs[k].addr == End(bs[k - 1])
      ensures k + 1 < |bs| ==> bs[k + 1].addr == End(bs[k])
      ensures k + 1 == |bs| ==> End(bs[k]) == brk
    {
      assert Tagged(mem[..], bs[k]);
      PositiveSize(bs, brk, k);
      PackBits(bs[k].size, bs[k].alloc);
    }

    lemma MergedBits(k: nat)
      requires Shape() && 1 <= k < |bs| && !bs[k].alloc
      ensures var m := Merged(bs, k); m.size <= MAX_HEAP && SizeBits(Pack(m.size, false)) == m.size
    {
      hide TagsOk, SizeBits, AllocBit;
      CoalescedTiled(bs, k, brk);
      PositiveSize(Coalesced(bs, k), brk, MergedAt(bs, k));
      PackBits(Merged(bs, k).size, false);
    }

    lemma Epilogue()
      requires Shape()
      ensures |bs| >= 1 && WordAddr(brk - WSIZE) && SizeBits(At(mem[..], brk - WSIZE)) == 0
      ensures AllocBit(At(mem[..], brk - WSIZE)) == 1
    {
      PositiveSize(bs, brk, 0);
    }

    // ---------- mm.c ----------

    /** The free block before k takes k in; the second tag's address comes from k's own header. */
    method MergePrev(bp: int, ghost k: nat, size0: nat) returns (r: int)
      requires Shape() && 1 <= k < |bs| && bs[k].addr == bp && !bs[k].alloc && size0 == bs[k].size
      requires !bs[k - 1].alloc && NextAlloc(bs, k)
      modifies mem
      ensures MergeDone(old(mem[..]), mem[..], bs, k) && r == Merged(bs, k).addr
    {
      hide Tiled, TagsOk, At, SizeBits, AllocBit, Get, WordAddr, BlockOk;
      BlockAt(k - 1);
      BlockAt(k);
      MergedBits(k);
      var size := size0 + GetSize(Hdrp(PrevBlkp(bp)));
      Put(Hdrp(PrevBlkp(bp)), Pack(size, false));
      Put(Ftrp(bp), Pack(size, false));
      r := PrevBlkp(bp);
    }

    /** Block k takes the free block after it in; the second tag's address comes from the header just written. */
    method MergeNext(bp: int, ghost k: nat, size0: nat) returns (r: int)
      requires Shape() && 1 <= k < |bs| && bs[k].addr == bp && !bs[k].alloc && size0 == bs[k].size
      requires bs[k - 1].alloc && !NextAlloc(bs, k)
      modifies mem
      ensures MergeDone(old(mem[..]), mem[..], bs, k) && r == Merged(bs, k).addr
    {
      hide Tiled, TagsOk, At, SizeBits, AllocBit, Get, WordAddr, BlockOk;
      BlockAt(k);
      BlockAt(k + 1);
      MergedBits(k);
      var size := size0 + GetSize(Hdrp(NextBlkp(bp)));
      Put(Hdrp(bp), Pack(size, false));
      Put(Ftrp(bp), Pack(size, false));
      r := bp;
    }

    /** The free block before k takes both in; the result's address comes from the tag left inside. */
    method MergeBoth(bp: int, ghost k: nat, size0: nat) returns (r: int)
      requires Shape() && 1 <= k < |bs| && bs[k].addr == bp && !bs[k].alloc && size0 == bs[k].size
      requires !bs[k - 1].alloc && !NextAlloc(bs, k)
      modifies mem
      ensures MergeDone(old(mem[..]), mem[..], bs, k) && r == Merged(bs, k).addr
    {
      hide Tiled, TagsOk, At, SizeBits, AllocBit, Get, WordAddr, BlockOk, PutTo, Tagged, SameBeyond;
      BlockAt(k - 1);
      BlockAt(k);
      BlockAt(k + 1);
      MergedBits(k);
      var size := size0 + (GetSize(Hdrp(PrevBlkp(bp))) + GetSize(Hdrp(NextBlkp(bp))));
      ghost var w, lo, hi := mem[..], Hdr(bs[k - 1]), Ftr(bs[k + 1]);
      Put(Hdrp(PrevBlkp(bp)), Pack(size, false));
      ghost var w1 := mem[..];
      PutElsewhere(w, w1, lo, Pack(size, false), Hdr(bs[k]));
      PutElsewhere(w, w1, lo, Pack(size, false), Hdr(bs[k + 1]));
      PutElsewhere(w, w1, lo, Pack(size, false), Ftr(bs[k - 1]));
      Put(Ftrp(NextBlkp(bp)), Pack(size, false));
      PutElsewhere(w1, mem[..], hi, Pack(size, false), Ftr(bs[k - 1]));
      TwoTags(w, w1, mem[..], Merged(bs, k));
      r := PrevBlkp(bp);
    }

    /**
     Merges the free block k with its free neighbours. The addresses of the second tag and of the result
     are read from tags that the merge has left behind inside the block.
     */
    method Coalesce(bp: int, ghost k: nat) returns (r: int)
      requires Shape() && 1 <= k < |bs| && bs[k].addr == bp && !bs[k].alloc
      modifies mem, `bs
      ensures Shape() && bs == Coalesced(old(bs), k) && MergedAt(old(bs), k) < |bs|
      ensures r == bs[MergedAt(old(bs), k)].addr
      ensures SameBeyond(old(mem[..]), mem[..], Hdr(Merged(old(bs), k)), Ftr(Merged(old(bs), k)))
    {
      hide Tiled, TagsOk, Splice, Coalesced, At, SizeBits, AllocBit, Get, WordAddr, BlockOk, Tagged, SameBeyond;
      BlockAt(k - 1);
      BlockAt(k);
      if k + 1 < |bs| { BlockAt(k + 1); } else { Epilogue(); }
      label start:
      var prevAlloc := GetAlloc(Hdrp(PrevBlkp(bp)));
      var nextAlloc := GetAlloc(Hdrp(NextBlkp(bp)));
      var size := GetSize(Hdrp(bp));
      if prevAlloc != 0 && nextAlloc != 0 {
        SameAll(mem[..], Hdr(bs[k]), Ftr(bs[k]));
        r := bp;
      } else if prevAlloc == 0 && nextAlloc != 0 {
        r := MergePrev(bp, k, size);
      } else if prevAlloc != 0 && nextAlloc == 0 {
        r := MergeNext(bp, k, size);
      } else {
        r := MergeBoth(bp, k, size);
      }
      CoalescedTags(old@start(mem[..]), mem[..], bs, k, brk);
      bs := Coalesced(bs, k);
    }

    /** Grows the heap by a free block, or leaves everything alone. */
    method ExtendHeap(words: nat) returns (r: Option<nat>)
      requires Valid()
      requires var size := if words % 2 != 0 then (words + 1) * WSIZE else words * WSIZE;
               size >= 2 * DSIZE && (Refused(brk, AsInt(size)) || AsInt(size) == size)
      modifies mem, `bs, `brk
      ensures var size := if words % 2 != 0 then (words + 1) * WSIZE else words * WSIZE;
              && Valid() && PayloadsKept(old(mem[..]), mem[..], Live(old(bs)))
              && (Refused(old(brk), AsInt(size)) ==> r == None && bs == old(bs) && brk == old(brk))
              && (!Refused(old(brk), AsInt(size)) ==>
                    && bs == Grown(old(bs), old(brk), size) && brk == old(brk) + size
                    && MergedAt(old(bs) + [Block(old(brk), size, false)], |old(bs)|) < |bs|
                    && r == Some(bs[MergedAt(old(bs) + [Block(old(brk), size, false)], |old(bs)|)].addr))
    {
      hide Tiled, TagsOk, Splice, At, SizeBits, AllocBit, Get, AsInt, NoFreePairBut, WordAddr, BlockOk, PutTo,
           SameBeyond;
      var size := if words % 2 != 0 then (words + 1) * WSIZE else words * WSIZE;
      Epilogue();
      BlockAt(|bs| - 1);
      BreakAligned(bs, brk);
      var grown := MemSbrk(AsInt(size));
      if grown == None {
        return None;
      }
      var bp := grown.value;
      BlockWords(bp, size);
      ghost var b, bs0, brk0, w0 := Block(bp, size, false), bs, old(brk), mem[..];
      PackBits(size, false);
      Put(Hdrp(bp), Pack(size, false));
      ghost var v1 := mem[..];
      PutRead(w0, v1, Hdr(b), Pack(size, false));
      Put(Ftrp(bp), Pack(size, false));
      ghost var v2 := mem[..];
      TwoTags(w0, v1, v2, b);
      Put(Hdrp(NextBlkp(bp)), Pack(0, true));
      GrowTags(w0, v2, mem[..], b);
      TagsGrow(w0, mem[..], bs, brk0, b);
      GrownTiled(bs, brk0, size);
      bs := bs + [b];
      ghost var w1 := mem[..];
      GrowPayloads(w0, w1, bs0, brk0);
      var p := Coalesce(bp, |bs0|);
      ghost var k := MergedAt(bs0 + [b], |bs0|);
      CoalescedLive(bs0 + [b], |bs0|);
      PayloadsBeyond(w1, mem[..], bs, brk, k);
      PayloadsCompose(w0, w1, mem[..], Live(bs0), Live(bs) - {bs[k]}, Live(bs0));
      r := Some(p);
    }

    /** Sets up the prologue and the epilogue and grows the heap by a first free block. */
    method MmInit() returns (rc: int)
      requires mem.Length == WORDS && brk == 0
      modifies mem, `bs, `brk, `listp
      ensures rc == 0 && Valid()
      ensures bs == [PROLOGUE, Block(16, CHUNKSIZE, false)] && brk == 16 + CHUNKSIZE
    {
      hide At;
      var grown := MemSbrk(4 * WSIZE);
      if grown == None {
        return -1;
      }
      listp := grown.value;
      Put(listp, 0);
      Put(listp + 1 * WSIZE, Pack(DSIZE, true));
      Put(listp + 2 * WSIZE, Pack(DSIZE, true));
      Put(listp + 3 * WSIZE, Pack(0, true));
      listp := listp + 2 * WSIZE;
      bs := [PROLOGUE];
      var bp := ExtendHeap(CHUNKSIZE / WSIZE);
      if bp == None {
        return -1;
      }
      return 0;
    }

    /** The first fit: the lowest free block that is large enough, or NULL when there is none. */
    method FindFit(size: nat) returns (r: Option<nat>, ghost k: nat)
      requires Shape()
      ensures r == None <==> FirstFit(bs, size, 0) == None
      ensures r.Some? ==> FirstFit(bs, size, 0) == Some(k) && k < |bs| && r.value == bs[k].addr
    {
      hide Tiled, TagsOk, At, SizeBits, AllocBit, Get, WordAddr;
      var ptr := listp;
      k := 0;
      FirstBlock(bs, brk);
      Locate(0);
      while GetSize(Hdrp(ptr)) != 0
        invariant k <= |bs| && ptr == (if k < |bs| then bs[k].addr else brk)
        invariant WordAddr(Hdrp(ptr))
        invariant FirstFit(bs, size, 0) == FirstFit(bs, size, k)
        decreases |bs| - k
      {
        Locate(k);
        var rsize := GetSize(Hdrp(ptr));
        if GetAlloc(Hdrp(ptr)) == 0 && rsize >= size {
          return Some(ptr), k;
        }
        ptr := NextBlkp(ptr);
        k := k + 1;
        Locate(k);
      }
      Locate(k);
      r := None;
    }

    /** What the header at block k says, or the epilogue's when there are no more blocks. */
    lemma Locate(k: nat)
      requires Shape() && k <= |bs|
      ensures var ptr := if k < |bs| then bs[k].addr else brk;
              && WordAddr(ptr - WSIZE)
              && SizeBits(At(mem[..], ptr - WSIZE)) == (if k < |bs| then bs[k].size else 0)
              && AllocBit(At(mem[..], ptr - WSIZE)) == (if k < |bs| && !bs[k].alloc then 0 else 1)
      ensures k < |bs| ==> bs[k].size > 0 && End(bs[k]) == (if k + 1 < |bs| then bs[k + 1].addr else brk)
    {
      hide Tiled, TagsOk, At, SizeBits, AllocBit, Get;
      if k < |bs| {
        BlockAt(k);
      } else {
        Epilogue();
      }
    }

    /** Marks the free block k as used, and splits off what the request leaves over when that is a block. */
    method Place(bp: int, size: nat, ghost k: nat)
      requires Valid() && 1 <= k < |bs| && bs[k].addr == bp && Fit(bs[k], size) && size >= 2 * DSIZE
      requires size % DSIZE == 0
      modifies mem, `bs
      ensures Valid() && bs == Placed(old(bs), k, size)
      ensures PayloadsKept(old(mem[..]), mem[..], Live(old(bs)))
    {
      hide Tiled, TagsOk, Splice, Placed, At, SizeBits, AllocBit, Get, NoFreePairBut, WordAddr, BlockOk, Live, PutTo,
           SameBeyond;
      BlockAt(k);
      ghost var w0, b := mem[..], bs[k];
      PositiveSize(bs, brk, k);
      PackBits(size, true);
      var rsize := GetSize(Hdrp(bp));
      if rsize - size >= 2 * DSIZE {
        Eights(bp, size);
        Eights(rsize, size);
        PackBits(rsize - size, false);
        BlockWords(bp, size);
        BlockWords(bp + size, rsize - size);
        ghost var front, rest := Block(bp, size, true), Block(bp + size, rsize - size, false);
        Put(Hdrp(bp), Pack(size, true));
        ghost var w1 := mem[..];
        PutRead(w0, w1, Hdr(front), Pack(size, true));
        Put(Ftrp(bp), Pack(size, true));
        ghost var w2 := mem[..];
        TwoTags(w0, w1, w2, front);
        var next := NextBlkp(bp);
        Put(Hdrp(next), Pack(rsize - size, false));
        ghost var w3 := mem[..];
        PutRead(w2, w3, Hdr(rest), Pack(rsize - size, false));
        Put(Ftrp(next), Pack(rsize - size, false));
        TwoTags(w2, w3, mem[..], rest);
        SplitTags(w0, w2, mem[..], b, front, rest);
      } else {
        PackBits(rsize, true);
        Put(Hdrp(bp), Pack(rsize, true));
        ghost var w1 := mem[..];
        PutRead(w0, w1, Hdr(b), Pack(rsize, true));
        Put(Ftrp(bp), Pack(rsize, true));
        TwoTags(w0, w1, mem[..], Block(bp, rsize, true));
      }
      hide Tagged;
      PlacedTags(w0, mem[..], bs, k, size, brk);
      PlacedMaximal(bs, k, size);
      PlacedPayloads(w0, mem[..], bs, k, brk);
      bs := Placed(bs, k, size);
    }

    /** The second half of mm_malloc: no block fits, so the heap has to grow. */
    method MallocMore(rsize: nat, ghost n: nat) returns (r: Option<nat>)
      requires Valid() && 0 < n < SIZE_T && Served(bs, brk, n) && rsize == RequestSize(n) && rsize % DSIZE == 0
      requires FirstFit(bs, rsize, 0) == None
      modifies mem, `bs, `brk
      ensures Valid()
      ensures Outcome(bs, brk, r) == Malloc(old(bs), old(brk), n)
      ensures PayloadsKept(old(mem[..]), mem[..], Live(old(bs)))
    {
      hide Tiled, TagsOk, Splice, At, SizeBits, AllocBit, Get, NoFreePairBut, AsInt, Served, Placed, RequestSize,
           Rounded;
      RoundedOk(n);
      FirstBlock(bs, brk);
      PositiveSize(bs, brk, 0);
      ServedMeans(bs, brk, n);
      var extendsize := Max(rsize, CHUNKSIZE);
      ghost var ext, w0, live := bs + [Block(brk, extendsize, false)], mem[..], Live(bs);
      ghost var m := MergedAt(ext, |bs|);
      BreakAligned(bs, brk);
      if !Refused(brk, AsInt(extendsize)) {
        GrownTiled(bs, brk, extendsize);
        GrownLive(bs, brk, extendsize);
      }
      r := ExtendHeap(extendsize / WSIZE);
      if r == None {
        return;
      }
      ghost var w1 := mem[..];
      Place(r.value, rsize, m);
      PayloadsCompose(w0, w1, mem[..], live, live, live);
    }

    /**
     mm_malloc does to the run of blocks what Malloc says, for every request that the machine's
     arithmetic lets it serve, and changes no word of any payload in use.
     */
    method MmMalloc(n: nat) returns (r: Option<nat>)
      requires Valid() && n < SIZE_T && (n == 0 || Served(bs, brk, n))
      modifies mem, `bs, `brk
      ensures Valid()
      ensures Outcome(bs, brk, r) == Malloc(old(bs), old(brk), n)
      ensures forall s :: Least(n, s) ==> MallocMeans(old(bs), old(brk), n, s, Outcome(bs, brk, r))
      ensures PayloadsKept(old(mem[..]), mem[..], Live(old(bs)))
    {
      hide Tiled, TagsOk, Splice, At, SizeBits, AllocBit, Get, NoFreePairBut, AsInt, Served, Least, MallocMeans;
      MallocMeant(bs, brk, n);
      if n <= 0 {
        return None;
      }
      RoundedOk(n);
      FirstBlock(bs, brk);
      PositiveSize(bs, brk, 0);
      ServedMeans(bs, brk, n);
      var rsize := if n <= DSIZE then 2 * DSIZE else DSIZE * (((n + DSIZE + DSIZE - 1) % SIZE_T) / DSIZE);
      var fit, k := FindFit(rsize);
      if fit.Some? {
        FitIndex(bs, brk, k, rsize);
        Place(fit.value, rsize, k);
        return fit;
      }
      r := MallocMore(rsize, n);
    }

    /** Freeing block k: both tags rewritten, then merged with its neighbours. */
    method MmFree(bp: int, ghost k: nat)
      requires Valid() && 1 <= k < |bs| && bs[k].addr == bp && bs[k].alloc
      modifies mem, `bs
      ensures Valid() && bs == Freed(old(bs), k)
      ensures PayloadsKept(old(mem[..]), mem[..], Live(bs))
    {
      hide Tiled, TagsOk, Splice, At, SizeBits, AllocBit, Get, NoFreePairBut;
      BlockAt(k);
      PositiveSize(bs, brk, k);
      FreeOk(bs, brk, k);
      ghost var w0, bs0 := mem[..], bs;
      var size := GetSize(Hdrp(bp));
      PackBits(size, false);
      Put(Hdrp(bp), Pack(size, false));
      Put(Ftrp(bp), Pack(size, false));
      ghost var f := bs[k := bs[k].(alloc := false)];
      FreeTiled(bs, brk, k);
      TagsSplice(w0, mem[..], bs, k, [f[k]], k + 1, brk);
      PayloadsBeyond(w0, mem[..], bs, brk, k);
      bs := f;
      ghost var w1 := mem[..];
      var p := Coalesce(bp, k);
      ghost var j := MergedAt(f, k);
      CoalescedLive(f, k);
      PayloadsBeyond(w1, mem[..], bs, brk, j);
      PayloadsCompose(w0, w1, mem[..], Live(bs0) - {bs0[k]}, Live(bs) - {bs[j]}, Live(bs));
    }
  }

  lemma FirstBlock(bs: seq<Block>, brk: nat)
    requires Tiled(bs, brk)
    ensures |bs| >= 1 && bs[0] == PROLOGUE
  {
  }

  lemma FitIndex(bs: seq<Block>, brk: nat, k: nat, size: nat)
    requires Tiled(bs, brk) && k < |bs| && Fit(bs[k], size)
    ensures k >= 1
  {
  }

  lemma GrownLive(bs: seq<Block>, brk: nat, size: nat)
    requires |bs| >= 1
    ensures Live(Grown(bs, brk, size)) == Live(bs)
  {
    var ext := bs + [Block(brk, size, false)];
    CoalescedLive(ext, |bs|);
    assert forall x :: x in ext <==> x in bs || x == Block(brk, size, false);
  }

  lemma FreeTiled(bs: seq<Block>, brk: nat, k: nat)
    requires Tiled(bs, brk) && 1 <= k < |bs|
    ensures var f := bs[k := bs[k].(alloc := false)]; Tiled(f, brk) && f == Splice(bs, k, [f[k]], k + 1)
  {
  }
}
