/**
 The ASCII text of db.c: decimal numbers printed into fixed-width fields, the `key:datoff:datlen\n`
 body of an index record, and the readers that undo them.
 */
module DbText {

  const PTR_SZ: nat := 7
  const IDXLEN_SZ: nat := 4
  const PTR_MAX: nat := 9999999
  const IDXLEN_MIN: nat := 6
  const IDXLEN_MAX: nat := 1024
  const DATLEN_MIN: nat := 2
  const DATLEN_MAX: nat := 1024
  const SEP: char := ':'
  const SPACE: char := ' '
  const NEWLINE: char := '\n'
  const NUL: char := 0 as char

  /** A C string: bytes, none of them zero. */
  predicate CString(s: string) {
    forall i :: 0 <= i < |s| ==> 1 <= s[i] as int < 256
  }

  // ---------- decimal digits ----------

  predicate IsDigit(c: char) {
    '0' <= c <= '9'
  }

  predicate AllDigits(s: string) {
    forall i :: 0 <= i < |s| ==> IsDigit(s[i])
  }

  function DigitChar(d: nat): char
    requires d < 10
  {
    ('0' as int + d) as char
  }

  function DigitValue(c: char): nat
    requires IsDigit(c)
  {
    c as int - '0' as int
  }

  /** What `%lld` prints for a non-negative number. */
  function Digits(n: nat): (s: string)
    ensures |s| >= 1 && AllDigits(s)
  {
    if n < 10 then [DigitChar(n)] else Digits(n / 10) + [DigitChar(n % 10)]
  }

  function Pow10(w: nat): nat {
    if w == 0 then 1 else 10 * Pow10(w - 1)
  }

  lemma {:induction false} DigitsWidth(n: nat, w: nat)
    requires 1 <= w && n < Pow10(w)
    ensures |Digits(n)| <= w
  {
    if n >= 10 {
      assert Pow10(w) == 10 * Pow10(w - 1) && Pow10(0) == 1;
      DigitsWidth(n / 10, w - 1);
    }
  }

  function Spaces(k: nat): (s: string)
    ensures |s| == k && forall i :: 0 <= i < k ==> s[i] == SPACE
  {
    seq(k, _ => SPACE)
  }

  /** What `%*lld` prints for a non-negative number: at least `w` characters, blanks on the left. */
  function Pad(n: nat, w: nat): string {
    var s := Digits(n);
    if |s| < w then Spaces(w - |s|) + s else s
  }

  // ---------- atol ----------

  predicate IsSpace(c: char) {
    c == ' ' || ('\t' <= c <= '\r')
  }

  function ParseDigits(s: string, acc: nat): nat {
    if s == [] || !IsDigit(s[0]) then acc else ParseDigits(s[1..], 10 * acc + DigitValue(s[0]))
  }

  function SkipSpaces(s: string): string {
    if s == [] || !IsSpace(s[0]) then s else SkipSpaces(s[1..])
  }

  /** The library's atol: blanks, an optional sign, then digits up to the first other character. */
  function Atol(s: string): int {
    var t := SkipSpaces(s);
    if t != [] && t[0] == '-' then 0 - ParseDigits(t[1..], 0)
    else if t != [] && t[0] == '+' then ParseDigits(t[1..], 0)
    else ParseDigits(t, 0)
  }

  lemma {:induction false} ParseDigitsAppend(a: string, b: string, acc: nat)
    requires AllDigits(a)
    ensures ParseDigits(a + b, acc) == ParseDigits(b, ParseDigits(a, acc))
  {
    if a == [] {
      assert a + b == b;
    } else {
      assert (a + b)[1..] == a[1..] + b;
      ParseDigitsAppend(a[1..], b, 10 * acc + DigitValue(a[0]));
    }
  }

  lemma {:induction false} ParsePrinted(n: nat)
    ensures ParseDigits(Digits(n), 0) == n
  {
    if n >= 10 {
      ParsePrinted(n / 10);
      ParseDigitsAppend(Digits(n / 10), [DigitChar(n % 10)], 0);
      assert ParseDigits([DigitChar(n % 10)], n / 10) == 10 * (n / 10) + n % 10;
    }
  }

  lemma {:induction false} SkipSpacesPadded(k: nat, s: string)
    requires s != [] && !IsSpace(s[0])
    ensures SkipSpaces(Spaces(k) + s) == s
  {
    if k == 0 {
      assert Spaces(0) + s == s;
    } else {
      assert (Spaces(k) + s)[1..] == Spaces(k - 1) + s;
      SkipSpacesPadded(k - 1, s);
    }
  }

  /** Reading back a printed number, whatever the field width, gives the number. */
  lemma AtolPad(n: nat, w: nat)
    ensures Atol(Pad(n, w)) == n
  {
    var s := Digits(n);
    ParsePrinted(n);
    assert IsDigit(s[0]);
    SkipSpacesPadded(if |s| < w then w - |s| else 0, s);
    assert Spaces(0) + s == s;
  }

  lemma AtolDigits(n: nat)
    ensures Atol(Digits(n)) == n
  {
    AtolPad(n, 0);
  }

  /** A value that fits the field fills it exactly, so a rewritten pointer never moves its neighbours. */
  lemma PadWidth(n: nat, w: nat)
    requires 1 <= w && n < Pow10(w)
    ensures |Pad(n, w)| == w
  {
    DigitsWidth(n, w);
  }

  lemma PtrWidth(n: nat)
    requires n <= PTR_MAX
    ensures |Pad(n, PTR_SZ)| == PTR_SZ
  {
    assert Pow10(7) == 10000000 by {
      assert Pow10(2) == 100;
      assert Pow10(4) == 10000;
      assert Pow10(6) == 1000000;
    }
    PadWidth(n, PTR_SZ);
  }

  lemma LenWidth(n: nat)
    requires n <= IDXLEN_MAX
    ensures |Pad(n, IDXLEN_SZ)| == IDXLEN_SZ
  {
    assert Pow10(4) == 10000 by { assert Pow10(2) == 100; }
    PadWidth(n, IDXLEN_SZ);
  }

  // ---------- index record body ----------

  /** `key:datoff:datlen\n`, as `_db_writeidx` prints it. */
  function Body(key: string, datoff: nat, datlen: nat): string {
    key + [SEP] + Digits(datoff) + [SEP] + Digits(datlen) + [NEWLINE]
  }

  /** The length of the body; it depends on the key only through the key's length. */
  function BodyLen(keylen: nat, datoff: nat, datlen: nat): nat {
    keylen + 3 + |Digits(datoff)| + |Digits(datlen)|
  }

  /** Index of the first `c`, or the length when there is none: strchr. */
  function StrChr(s: string, c: char): (i: nat)
    ensures i <= |s|
    ensures i < |s| ==> s[i] == c
    ensures forall j :: 0 <= j < i ==> s[j] != c
  {
    if s == [] || s[0] == c then 0 else 1 + StrChr(s[1..], c)
  }

  lemma {:induction false} StrChrAt(a: string, c: char, b: string)
    requires c !in a
    ensures StrChr(a + [c] + b, c) == |a|
  {
    var s := a + [c] + b;
    assert s[|a|] == c;
    assert forall j :: 0 <= j < |a| ==> s[j] == a[j] && s[j] != c;
  }

  datatype Parsed = Fields(key: string, datoff: nat, datlen: nat) | Malformed

  /** What `_db_readidx` makes of a record body; Malformed stands for its err_dump calls. */
  function ParseBody(body: string): Parsed {
    if body == [] || body[|body| - 1] != NEWLINE then Malformed else
    var b := body[..|body| - 1];
    var i := StrChr(b, SEP);
    if i == |b| then Malformed else
    var rest := b[i + 1..];
    var j := StrChr(rest, SEP);
    if j == |rest| then Malformed else
    var last := rest[j + 1..];
    if StrChr(last, SEP) < |last| then Malformed else
    var off, len := Atol(rest[..j]), Atol(last);
    if off < 0 || len <= 0 || len > DATLEN_MAX then Malformed else
    Fields(b[..i], off, len)
  }

  lemma DigitsHaveNoSep(n: nat)
    ensures SEP !in Digits(n)
  {
    assert forall i :: 0 <= i < |Digits(n)| ==> IsDigit(Digits(n)[i]);
  }

  /** Printing a record body and parsing it gives back the key, the offset and the length. */
  lemma BodyRoundTrip(key: string, datoff: nat, datlen: nat)
    requires SEP !in key && 1 <= datlen <= DATLEN_MAX
    ensures ParseBody(Body(key, datoff, datlen)) == Fields(key, datoff, datlen)
    ensures |Body(key, datoff, datlen)| == BodyLen(|key|, datoff, datlen)
  {
    var body := Body(key, datoff, datlen);
    var o, l := Digits(datoff), Digits(datlen);
    DigitsHaveNoSep(datoff);
    DigitsHaveNoSep(datlen);
    var b := body[..|body| - 1];
    var rest := o + [SEP] + l;
    assert b == key + [SEP] + rest;
    StrChrAt(key, SEP, rest);
    assert b[..|key|] == key;
    assert b[|key| + 1..] == rest;
    StrChrAt(o, SEP, l);
    assert rest[..|o|] == o;
    assert rest[|o| + 1..] == l;
    AtolDigits(datoff);
    AtolDigits(datlen);
  }

  /** Two different field triples never print alike. */
  lemma BodyInjective(k1: string, o1: nat, l1: nat, k2: string, o2: nat, l2: nat)
    requires SEP !in k1 && SEP !in k2 && 1 <= l1 <= DATLEN_MAX && 1 <= l2 <= DATLEN_MAX
    requires Body(k1, o1, l1) == Body(k2, o2, l2)
    ensures k1 == k2 && o1 == o2 && l1 == l2
  {
    BodyRoundTrip(k1, o1, l1);
    BodyRoundTrip(k2, o2, l2);
  }
}
