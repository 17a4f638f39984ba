/**
 rot13a.c and rot13c2.c: a file is copied with every byte translated, either block by block or through
 NBUF buffers whose reads and writes are under way at the same time and complete in any order.
 */
module Rot13 {
  const BSZ: nat := 4096
  const NBUF: nat := 8

  type byte = c: int | 0 <= c < 256

  // ---------- translate ----------

  predicate IsAlpha(c: byte) {
    65 <= c <= 90 || 97 <= c <= 122
  }

  function Translate(c: byte): byte {
    if !IsAlpha(c) then c
    else if c >= 110 then c - 13
    else if c >= 97 then c + 13
    else if c >= 78 then c - 13
    else c + 13
  }

  /** Each letter moves 13 places round its own alphabet; everything else stays. */
  lemma TranslateRotates(c: byte)
    ensures 65 <= c <= 90 ==> Translate(c) == 65 + (c - 65 + 13) % 26
    ensures 97 <= c <= 122 ==> Translate(c) == 97 + (c - 97 + 13) % 26
    ensures !IsAlpha(c) ==> Translate(c) == c
    ensures Translate(Translate(c)) == c
  {
  }

  function Translated(s: seq<byte>): (r: seq<byte>)
    ensures |r| == |s|
    ensures forall i :: 0 <= i < |s| ==> r[i] == Translate(s[i])
  {
    seq(|s|, i requires 0 <= i < |s| => Translate(s[i]))
  }

  /** Running the program on its own output restores the input. */
  lemma TranslatedTwice(s: seq<byte>)
    ensures Translated(Translated(s)) == s
  {
  }

  // ---------- rot13a ----------

  /** read: some bytes, unless the file is at its end. */
  method Read(file: seq<byte>, pos: nat, buf: array<byte>) returns (n: nat)
    requires pos <= |file| && buf.Length == BSZ
    modifies buf
    ensures n <= BSZ && pos + n <= |file| && (n == 0 <==> pos == |file|)
    ensures buf[..n] == file[pos..pos + n]
  {
    var k: int := *;
    var most := if |file| - pos < BSZ then |file| - pos else BSZ;
    n := if 1 <= k < most then k else most;
    forall j | 0 <= j < n { buf[j] := file[pos + j]; }
  }

  /** The synchronous loop. */
  method Copy(input: seq<byte>) returns (output: seq<byte>)
    ensures output == Translated(input)
  {
    var buf := new byte[BSZ](_ => 0);
    output := [];
    var n := Read(input, 0, buf);
    while n > 0
      invariant 0 <= n <= BSZ && |output| + n <= |input| && (n == 0 <==> |output| == |input|)
      invariant buf[..n] == input[|output|..|output| + n]
      invariant output == Translated(input[..|output|])
      decreases |input| - |output|
    {
      TranslateBuffer(buf, n);
      ghost var was := output;
      output := output + buf[..n];
      assert input[..|output|] == input[..|was|] + input[|was|..|output|];
      n := Read(input, |output|, buf);
    }
    assert input[..|output|] == input;
  }

  method TranslateBuffer(buf: array<byte>, n: nat)
    requires n <= buf.Length
    modifies buf
    ensures buf[..] == Translated(old(buf[..n])) + old(buf[n..])
  {
    var i := 0;
    while i < n
      invariant 0 <= i <= n
      invariant forall j :: 0 <= j < i ==> buf[j] == Translate(old(buf[j]))
      invariant forall j :: i <= j < buf.Length ==> buf[j] == old(buf[j])
    {
      buf[i] := Translate(buf[i]);
      i := i + 1;
    }
  }
}
