/**
 The pipeline of rot13c2.c. The kernel finishes requests whenever and in whatever order it likes; the
 program still writes every block once, where it was read, and ends with the translated file.
 */
module Rot13Async {
  import opened Basics
  import opened Rot13

  datatype Op = Unused | ReadPending | WritePending

  /**
   One buffer and its request: where it reads or writes, how many bytes it writes, and what the kernel
   will report once the request is complete.
   */
  datatype Buf = Buf(op: Op, last: bool, offset: nat, nbytes: nat, data: seq<byte>, complete: bool, ret: nat)

  /**
   The program's variables and the output file. `written` lists the offsets of the writes that were
   carried out; `holder` says which buffer has the block at an offset.
   */
  datatype State = State(bufs: seq<Buf>, off: nat, numop: nat, out: seq<byte>, written: seq<nat>, holder: map<nat, nat>)

  function BlockLen(size: nat, o: nat): nat {
    if o >= size then 0 else if size - o < BSZ then size - o else BSZ
  }

  function Block(file: seq<byte>, o: nat): (b: seq<byte>)
    ensures |b| == BlockLen(|file|, o)
  {
    if o >= |file| then [] else file[o..o + BlockLen(|file|, o)]
  }

  /** The output file after a write; a gap before it reads as zeros. */
  function WriteAt(out: seq<byte>, o: nat, data: seq<byte>): (r: seq<byte>)
    ensures |r| == if |out| < o + |data| then o + |data| else |out|
    ensures forall p :: 0 <= p < |r| ==>
              r[p] == if o <= p < o + |data| then data[p - o] else if p < |out| then out[p] else 0
  {
    var padded := if |out| < o then out + seq(o - |out|, _ => 0) else out;
    padded[..o] + data + if |padded| > o + |data| then padded[o + |data|..] else []
  }

  // ---------- counting ----------

  function Count(bufs: seq<Buf>): nat {
    if bufs == [] then 0 else (if bufs[0].op == Unused then 0 else 1) + Count(bufs[1..])
  }

  /** How many more steps the requests under way take. */
  function Cost(bufs: seq<Buf>): nat {
    if bufs == [] then 0
    else (if bufs[0].op == Unused then 0 else if bufs[0].op == ReadPending then 2 else 1) + Cost(bufs[1..])
  }

  function CostOf(b: Buf): nat {
    if b.op == Unused then 0 else if b.op == ReadPending then 2 else 1
  }

  lemma {:induction false} CountUpdate(bufs: seq<Buf>, i: nat, b: Buf)
    requires i < |bufs|
    ensures Count(bufs[i := b]) ==
        Count(bufs) - (if bufs[i].op == Unused then 0 else 1) + (if b.op == Unused then 0 else 1)
    ensures Cost(bufs[i := b]) == Cost(bufs) - CostOf(bufs[i]) + CostOf(b)
  {
    if i == 0 {
      assert bufs[i := b][1..] == bufs[1..];
    } else {
      assert bufs[i := b][1..] == bufs[1..][i - 1 := b];
      CountUpdate(bufs[1..], i - 1, b);
    }
  }

  lemma {:induction false} CountZero(bufs: seq<Buf>)
    ensures Count(bufs) == 0 <==> forall i :: 0 <= i < |bufs| ==> bufs[i].op == Unused
  {
    if bufs != [] {
      CountZero(bufs[1..]);
      assert forall i :: 0 < i < |bufs| ==> bufs[i] == bufs[1..][i - 1];
    }
  }

  // ---------- the invariant ----------

  ghost predicate IsBlock(o: nat, off: nat) {
    o % BSZ == 0 && o < off
  }

  /** The blocks read so far are those written and those in a buffer. */
  ghost predicate BlocksOk(size: nat, s: State) {
    && s.off % BSZ == 0 && (s.off == 0 || s.off < size + BSZ)
    && NoDup(s.written)
    && (forall o {:trigger IsBlock(o, s.off)} :: IsBlock(o, s.off) ==> o in s.written || o in s.holder)
    && (forall o :: o in s.written || o in s.holder ==> IsBlock(o, s.off))
  }

  ghost predicate HolderOk(s: State) {
    && (forall o :: o in s.holder ==>
          s.holder[o] < |s.bufs| && s.bufs[s.holder[o]].op != Unused && s.bufs[s.holder[o]].offset == o)
    && (forall i :: 0 <= i < |s.bufs| && s.bufs[i].op != Unused ==>
          s.bufs[i].offset in s.holder && s.holder[s.bufs[i].offset] == i)
  }

  /** What a buffer with a request holds. */
  ghost predicate BufOk(input: seq<byte>, s: State, b: Buf) {
    && |b.data| == BSZ
    && (b.last ==> s.off >= |input|)
    && (b.op != Unused ==> b.last == (b.offset + BSZ >= |input|))
    && (b.op == ReadPending ==> b.offset !in s.written && b.nbytes == BSZ)
    && (b.op == ReadPending && b.complete ==>
          b.ret == BlockLen(|input|, b.offset) && b.data[..b.ret] == Block(input, b.offset))
    && (b.op == WritePending ==>
          && b.nbytes == BlockLen(|input|, b.offset) && b.data[..b.nbytes] == Translated(Block(input, b.offset))
          && (b.complete <==> b.offset in s.written)
          && (b.complete ==> b.ret == b.nbytes))
  }

  /** The block at o is in the output, translated. */
  ghost predicate Written(input: seq<byte>, out: seq<byte>, o: nat) {
    && o + BlockLen(|input|, o) <= |out| <= |input|
    && forall p :: o <= p < o + BlockLen(|input|, o) ==> out[p] == Translate(input[p])
  }

  ghost predicate OutOk(input: seq<byte>, s: State) {
    |s.out| <= |input| && forall o :: o in s.written ==> Written(input, s.out, o)
  }

  ghost predicate Inv(input: seq<byte>, s: State) {
    && |s.bufs| == NBUF && s.numop == Count(s.bufs)
    && BlocksOk(|input|, s) && HolderOk(s) && OutOk(input, s)
    && (forall i :: 0 <= i < |s.bufs| ==> BufOk(input, s, s.bufs[i]))
  }

  // ---------- the steps ----------

  /** aio_read into a free buffer. */
  function ReadIssued(size: nat, s: State, i: nat): State
    requires i < |s.bufs|
  {
    var b := s.bufs[i].(op := ReadPending, last := s.off + BSZ >= size || s.bufs[i].last, offset := s.off,
                        nbytes := BSZ, complete := false);
    s.(bufs := s.bufs[i := b], off := s.off + BSZ, numop := s.numop + 1, holder := s.holder[s.off := i])
  }

  /** The kernel carries out the request of buffer i. */
  function Completed(input: seq<byte>, s: State, i: nat): State
    requires i < |s.bufs|
  {
    var b := s.bufs[i];
    if b.op == Unused || b.complete || |b.data| != BSZ || b.nbytes > BSZ then s
    else if b.op == ReadPending then
      var n := BlockLen(|input|, b.offset);
      s.(bufs := s.bufs[i := b.(data := Block(input, b.offset) + b.data[n..], complete := true, ret := n)])
    else
      s.(bufs := s.bufs[i := b.(complete := true, ret := b.nbytes)],
         out := WriteAt(s.out, b.offset, b.data[..b.nbytes]), written := s.written + [b.offset])
  }

  /** A completed read is translated and its write issued. */
  function Turned(s: State, i: nat): State
    requires i < |s.bufs| && s.bufs[i].ret <= |s.bufs[i].data|
  {
    var b := s.bufs[i];
    s.(bufs := s.bufs[i := b.(op := WritePending, nbytes := b.ret,
                              data := Translated(b.data[..b.ret]) + b.data[b.ret..], complete := false)])
  }

  /** A completed write frees its buffer. */
  function Retired(s: State, i: nat): State
    requires i < |s.bufs| && s.numop > 0
  {
    s.(bufs := s.bufs[i := s.bufs[i].(op := Unused)], numop := s.numop - 1, holder := s.holder - {s.bufs[i].offset})
  }

  lemma NextBlock(o: nat, off: nat)
    requires off % BSZ == 0
    ensures IsBlock(o, off + BSZ) <==> IsBlock(o, off) || o == off
  {
  }

  /** Different blocks do not overlap. */
  lemma Apart(o: nat, p: nat, off: nat)
    requires IsBlock(o, off) && IsBlock(p, off) && o != p
    ensures o + BSZ <= p || p + BSZ <= o
  {
  }

  lemma ReadIssuedInv(input: seq<byte>, s: State, i: nat)
    requires Inv(input, s) && i < |s.bufs| && s.bufs[i].op == Unused && s.off < |input|
    ensures Inv(input, ReadIssued(|input|, s, i))
  {
    var t := ReadIssued(|input|, s, i);
    CountUpdate(s.bufs, i, t.bufs[i]);
    assert !IsBlock(s.off, s.off);
    forall o
      ensures IsBlock(o, t.off) <==> IsBlock(o, s.off) || o == s.off
    {
      NextBlock(o, s.off);
    }
    hide IsBlock, Written;
    assert s.off !in s.written && s.off !in s.holder;
    forall j | 0 <= j < |t.bufs|
      ensures BufOk(input, t, t.bufs[j])
    {
      assert BufOk(input, s, s.bufs[j]);
    }
  }

  lemma CompletedInv(input: seq<byte>, s: State, i: nat)
    requires Inv(input, s) && i < |s.bufs|
    ensures Inv(input, Completed(input, s, i))
  {
    var t := Completed(input, s, i);
    if t != s {
      CountUpdate(s.bufs, i, t.bufs[i]);
      assert BufOk(input, s, s.bufs[i]);
      if s.bufs[i].op == WritePending {
        WriteOut(input, s, i);
      }
      CompletedBufs(input, s, i);
      hide IsBlock, Written, BufOk, WriteAt, Block;
    }
  }

  lemma CompletedBufs(input: seq<byte>, s: State, i: nat)
    requires i < |s.bufs| && HolderOk(s) && forall j :: 0 <= j < |s.bufs| ==> BufOk(input, s, s.bufs[j])
    ensures forall j :: 0 <= j < |s.bufs| ==> BufOk(input, Completed(input, s, i), Completed(input, s, i).bufs[j])
  {
  }

  /** The block that a write puts at its own place. */
  lemma WriteHere(input: seq<byte>, out: seq<byte>, o: nat, t: seq<byte>)
    requires o < |input| && |out| <= |input| && t == Translated(Block(input, o))
    ensures |WriteAt(out, o, t)| <= |input| && Written(input, WriteAt(out, o, t), o)
  {
    var n := BlockLen(|input|, o);
    var out' := WriteAt(out, o, t);
    hide WriteAt, BlockLen;
    forall p | o <= p < o + n
      ensures out'[p] == Translate(input[p])
    {
      assert Block(input, o)[p - o] == input[p];
    }
  }

  /** A write leaves the other blocks of the output as they are. */
  lemma WriteElsewhere(input: seq<byte>, out: seq<byte>, q: nat, t: seq<byte>, o: nat)
    requires Written(input, out, o) && |WriteAt(out, q, t)| <= |input|
    requires |t| <= BSZ && (o + BSZ <= q || q + BSZ <= o)
    ensures Written(input, WriteAt(out, q, t), o)
  {
    var out' := WriteAt(out, q, t);
    hide WriteAt;
    forall p | o <= p < o + BlockLen(|input|, o)
      ensures out'[p] == Translate(input[p])
    {
      assert out'[p] == out[p];
    }
  }

  /** A block that has been asked for is being held by its buffer. */
  lemma Held(size: nat, s: State, i: nat)
    requires BlocksOk(size, s) && HolderOk(s) && i < |s.bufs| && s.bufs[i].op != Unused
    ensures IsBlock(s.bufs[i].offset, s.off) && IsBlock(s.bufs[i].offset, size)
  {
    InFile(s.bufs[i].offset, s.off, size);
  }

  lemma WriteOut(input: seq<byte>, s: State, i: nat)
    requires Inv(input, s) && i < |s.bufs| && s.bufs[i].op == WritePending && !s.bufs[i].complete
    ensures OutOk(input, Completed(input, s, i)) && s.bufs[i].offset !in s.written
  {
    var b := s.bufs[i];
    assert BufOk(input, s, b);
    Held(|input|, s, i);
    PendingOut(input, s, b);
  }

  lemma PendingOut(input: seq<byte>, s: State, b: Buf)
    requires OutOk(input, s) && BlocksOk(|input|, s)
    requires IsBlock(b.offset, s.off) && IsBlock(b.offset, |input|) && b.offset !in s.written
    requires b.nbytes <= |b.data| && b.data[..b.nbytes] == Translated(Block(input, b.offset))
    ensures OutOk(input, s.(out := WriteAt(s.out, b.offset, b.data[..b.nbytes]), written := s.written + [b.offset]))
  {
    var t := b.data[..b.nbytes];
    var s' := s.(out := WriteAt(s.out, b.offset, t), written := s.written + [b.offset]);
    assert |t| <= BSZ;
    hide WriteAt, Block, Written;
    WriteHere(input, s.out, b.offset, t);
    forall o | o in s'.written
      ensures Written(input, s'.out, o)
    {
      if o != b.offset {
        Apart(o, b.offset, s.off);
        WriteElsewhere(input, s.out, b.offset, t, o);
      }
    }
  }

  lemma TurnedBuf(input: seq<byte>, s: State, i: nat)
    requires i < |s.bufs| && s.bufs[i].op == ReadPending && s.bufs[i].complete && BufOk(input, s, s.bufs[i])
    ensures s.bufs[i].ret <= |s.bufs[i].data| && BufOk(input, Turned(s, i), Turned(s, i).bufs[i])
    ensures s.bufs[i].ret != BSZ ==> s.bufs[i].last
  {
  }

  lemma TurnedInv(input: seq<byte>, s: State, i: nat)
    requires Inv(input, s) && i < |s.bufs| && s.bufs[i].op == ReadPending && s.bufs[i].complete
    ensures s.bufs[i].ret <= |s.bufs[i].data| && Inv(input, Turned(s, i))
    ensures s.bufs[i].ret != BSZ ==> s.bufs[i].last
  {
    assert BufOk(input, s, s.bufs[i]);
    TurnedBuf(input, s, i);
    var t := Turned(s, i);
    CountUpdate(s.bufs, i, t.bufs[i]);
    hide IsBlock, Written, Translated, Block;
    forall j | 0 <= j < |t.bufs|
      ensures BufOk(input, t, t.bufs[j])
    {
      assert BufOk(input, s, s.bufs[j]);
    }
  }

  lemma RetiredInv(input: seq<byte>, s: State, i: nat)
    requires Inv(input, s) && i < |s.bufs| && s.bufs[i].op == WritePending && s.bufs[i].complete
    ensures s.numop > 0 && Inv(input, Retired(s, i)) && s.bufs[i].ret == s.bufs[i].nbytes
  {
    assert BufOk(input, s, s.bufs[i]);
    CountZero(s.bufs);
    var t := Retired(s, i);
    CountUpdate(s.bufs, i, t.bufs[i]);
    hide IsBlock, Written, BufOk;
    RetiredBufs(input, s, i);
  }

  lemma RetiredBufs(input: seq<byte>, s: State, i: nat)
    requires i < |s.bufs| && s.numop > 0 && forall j :: 0 <= j < |s.bufs| ==> BufOk(input, s, s.bufs[j])
    ensures forall j :: 0 <= j < |s.bufs| ==> BufOk(input, Retired(s, i), Retired(s, i).bufs[j])
  {
    hide Block, Translated, BlockLen;
  }

  /** Every place is in a block. */
  lemma BlockAround(p: nat, off: nat) returns (o: nat)
    requires p < off
    ensures IsBlock(o, off) && o <= p < o + BSZ
  {
    var q := p / BSZ;
    o := BSZ * q;
    assert o % BSZ == 0;
  }

  /** A block that was read begins inside the file. */
  lemma InFile(o: nat, off: nat, size: nat)
    requires IsBlock(o, off) && off % BSZ == 0 && off < size + BSZ
    ensures IsBlock(o, size)
  {
  }

  /** Once everything is read and no request is left, the output is the translated input. */
  lemma AllWritten(input: seq<byte>, s: State)
    requires Inv(input, s) && s.numop == 0 && s.off >= |input|
    ensures s.out == Translated(input)
    ensures NoDup(s.written) && forall o :: o in s.written <==> IsBlock(o, |input|)
  {
    CountZero(s.bufs);
    forall o
      ensures o in s.written <==> IsBlock(o, |input|)
    {
      assert IsBlock(o, s.off) ==> o in s.written;
      if IsBlock(o, s.off) { InFile(o, s.off, |input|); }
    }
    hide IsBlock;
    forall p | 0 <= p < |input|
      ensures p < |s.out| && s.out[p] == Translate(input[p])
    {
      var o := BlockAround(p, s.off);
      assert Written(input, s.out, o);
    }
    if |input| > 0 {
      var o := BlockAround(|input| - 1, s.off);
      assert Written(input, s.out, o);
    }
  }

  // ---------- progress ----------

  /** What is still to be done: bytes not asked for yet, then requests. */
  function Work(size: nat, s: State): nat {
    3 * (if s.off < size then size - s.off else 0) + Cost(s.bufs)
  }

  /** The program would not wait for buffer i. */
  predicate Actionable(size: nat, s: State, i: nat)
    requires i < |s.bufs|
  {
    if s.bufs[i].op == Unused then s.off < size else s.bufs[i].complete
  }

  predicate Active(size: nat, s: State) {
    exists i :: 0 <= i < |s.bufs| && Actionable(size, s, i)
  }

  /** Between s and t the kernel worked, and the program did not. */
  ghost predicate Later(size: nat, s: State, t: State) {
    && |t.bufs| == |s.bufs| && t.off == s.off && t.numop == s.numop && Cost(t.bufs) == Cost(s.bufs)
    && (forall j :: 0 <= j < |s.bufs| ==>
          t.bufs[j].op == s.bufs[j].op && (Actionable(size, s, j) ==> Actionable(size, t, j)))
  }

  lemma CompletedLater(input: seq<byte>, s: State, i: nat)
    requires Inv(input, s) && i < |s.bufs|
    ensures Later(|input|, s, Completed(input, s, i))
    ensures s.bufs[i].op != Unused ==> Completed(input, s, i).bufs[i].complete
  {
    assert BufOk(input, s, s.bufs[i]);
    var t := Completed(input, s, i);
    CountUpdate(s.bufs, i, t.bufs[i]);
    assert s.bufs[i := s.bufs[i]] == s.bufs;
  }

  lemma StepProgress(input: seq<byte>, s: State, i: nat)
    requires Inv(input, s) && i < |s.bufs|
    ensures s.bufs[i].op == Unused && s.off < |input| ==> Work(|input|, ReadIssued(|input|, s, i)) < Work(|input|, s)
    ensures s.bufs[i].op == ReadPending && s.bufs[i].ret <= |s.bufs[i].data| ==>
        Work(|input|, Turned(s, i)) < Work(|input|, s)
    ensures s.bufs[i].op == WritePending && s.numop > 0 ==> Work(|input|, Retired(s, i)) < Work(|input|, s)
  {
    var b := s.bufs[i];
    CountUpdate(s.bufs, i, ReadIssued(|input|, s, i).bufs[i]);
    if b.ret <= |b.data| { CountUpdate(s.bufs, i, Turned(s, i).bufs[i]); }
    if s.numop > 0 { CountUpdate(s.bufs, i, Retired(s, i).bufs[i]); }
  }

  // ---------- the program ----------

  class Pipeline {
    const input: seq<byte>
    const bufs: array<Buf>
    var off: nat
    var numop: nat
    var out: seq<byte>
    ghost var s: State

    ghost predicate Valid()
      reads this, bufs
    {
      && s.bufs == bufs[..] && s.off == off && s.numop == numop && s.out == out
      && bufs.Length == NBUF && numop == Count(s.bufs) && Inv(input, s)
    }

    constructor (file: seq<byte>)
      ensures Valid() && fresh(bufs) && input == file && off == 0 && numop == 0
    {
      var zeros := seq(BSZ, _ => 0);
      input := file;
      bufs := new Buf[NBUF](_ => Buf(Unused, false, 0, 0, zeros, false, 0));
      off, numop, out := 0, 0, [];
      new;
      s := State(bufs[..], 0, 0, [], [], map[]);
      CountZero(bufs[..]);
    }

    /** The kernel carries out the request of buffer i, if it has not yet. */
    method Finish(i: nat)
      requires Valid() && i < bufs.Length && bufs[i].op != Unused
      modifies this, bufs
      ensures Valid() && s == Completed(input, old(s), i)
    {
      CompletedInv(input, s, i);
      assert BufOk(input, s, s.bufs[i]);
      hide Inv, BufOk;
      if !bufs[i].complete {
        var b := bufs[i];
        if b.op == ReadPending {
          var n := BlockLen(|input|, b.offset);
          bufs[i] := b.(data := Block(input, b.offset) + b.data[n..], complete := true, ret := n);
        } else {
          bufs[i] := b.(complete := true, ret := b.nbytes);
          out := WriteAt(out, b.offset, b.data[..b.nbytes]);
        }
        s := Completed(input, s, i);
        assert s.bufs == bufs[..];
      }
    }

    /** Meanwhile the kernel carries out any requests, in any order. */
    method Kernel()
      requires Valid()
      modifies this, bufs
      ensures Valid() && Later(|input|, old(s), s)
    {
      hide Inv, Completed;
      var n: nat := *;
      while n > 0
        invariant Valid() && Later(|input|, old(s), s)
      {
        var i: nat := *;
        if 0 <= i < bufs.Length && bufs[i].op != Unused {
          CompletedLater(input, s, i);
          Finish(i);
        }
        n := n - 1;
      }
    }

    /** A free buffer takes the next block of the file. */
    method StartRead(i: nat)
      requires Valid() && i < bufs.Length && bufs[i].op == Unused && off < |input|
      modifies this, bufs
      ensures Valid() && Work(|input|, s) < Work(|input|, old(s))
    {
      ReadIssuedInv(input, s, i);
      StepProgress(input, s, i);
      hide Inv, Work;
      var b := bufs[i];
      bufs[i] := b.(op := ReadPending, last := off + BSZ >= |input| || b.last, offset := off,
                    nbytes := BSZ, complete := false);
      off := off + BSZ;
      numop := numop + 1;
      s := ReadIssued(|input|, s, i);
      assert s.bufs == bufs[..];
    }

    /** A completed read: translate the bytes and write them. */
    method TurnToWrite(i: nat)
      requires Valid() && i < bufs.Length && bufs[i].op == ReadPending && bufs[i].complete
      modifies this, bufs
      ensures Valid() && Work(|input|, s) < Work(|input|, old(s))
    {
      TurnedInv(input, s, i);
      StepProgress(input, s, i);
      hide Inv, Work;
      var b := bufs[i];
      if b.ret != BSZ && !b.last {
        // err_quit: short read
        assert false;
      }
      var data := TranslatePrefix(b.data, b.ret);
      bufs[i] := b.(op := WritePending, nbytes := b.ret, data := data, complete := false);
      s := Turned(s, i);
      assert s.bufs == bufs[..];
    }

    /** A completed write frees the buffer. */
    method Retire(i: nat)
      requires Valid() && i < bufs.Length && bufs[i].op == WritePending && bufs[i].complete
      modifies this, bufs
      ensures Valid() && Work(|input|, s) < Work(|input|, old(s))
    {
      RetiredInv(input, s, i);
      StepProgress(input, s, i);
      hide Inv, Work;
      var b := bufs[i];
      if b.ret != b.nbytes {
        // err_quit: short write
        assert false;
      }
      bufs[i] := b.(op := Unused);
      numop := numop - 1;
      s := Retired(s, i);
      assert s.bufs == bufs[..];
    }

    /** One turn of the inner loop. */
    method Visit(i: nat)
      requires Valid() && i < bufs.Length
      modifies this, bufs
      ensures Valid() && Work(|input|, s) <= Work(|input|, old(s))
      ensures Work(|input|, s) == Work(|input|, old(s)) ==> Later(|input|, old(s), s) && !Actionable(|input|, old(s), i)
    {
      Kernel();
      hide Inv;
      match bufs[i].op
      case Unused =>
        if off < |input| { StartRead(i); }
      case ReadPending =>
        if bufs[i].complete { TurnToWrite(i); }
      case WritePending =>
        if bufs[i].complete { Retire(i); }
    }

    static method TranslatePrefix(was: seq<byte>, n: nat) returns (data: seq<byte>)
      requires n <= |was|
      ensures data == Translated(was[..n]) + was[n..]
    {
      data := was;
      var j := 0;
      while j < n
        invariant 0 <= j <= n && |data| == |was|
        invariant forall k :: 0 <= k < |was| ==> data[k] == if k < j then Translate(was[k]) else was[k]
      {
        data := data[j := Translate(data[j])];
        j := j + 1;
      }
    }

    /** aio_suspend: at least one request has been carried out. */
    method Suspend()
      requires Valid() && numop > 0
      modifies this, bufs
      ensures Valid() && Later(|input|, old(s), s) && Active(|input|, s)
    {
      Kernel();
      CountZero(s.bufs);
      var i :| 0 <= i < bufs.Length && bufs[i].op != Unused;
      CompletedLater(input, s, i);
      Finish(i);
      assert Actionable(|input|, s, i);
    }

    /** The program: the output is the translated input, and each block was written exactly once. */
    method Run()
      requires Valid() && off == 0 && numop == 0
      modifies this, bufs
      ensures Valid() && out == Translated(input)
      ensures NoDup(s.written) && forall o :: o in s.written <==> IsBlock(o, |input|)
    {
      hide Inv;
      while true
        invariant Valid()
        decreases Work(|input|, s), if Active(|input|, s) then 0 else 1
      {
        ghost var s0 := s;
        var i := 0;
        while i < NBUF
          invariant 0 <= i <= NBUF && Valid() && Work(|input|, s) <= Work(|input|, s0)
          invariant Work(|input|, s) == Work(|input|, s0) ==>
                      Later(|input|, s0, s) && forall j :: 0 <= j < i ==> !Actionable(|input|, s0, j)
        {
          Visit(i);
          i := i + 1;
        }
        if numop == 0 {
          if off >= |input| { break; }
          CountZero(s.bufs);
          assert Actionable(|input|, s, 0);
        } else {
          Suspend();
        }
      }
      AllWritten(input, s);
    }
  }
}
