/** A whole program run on a freshly created database: every answer is the one a finite map would give. */
module DbRun {
  import opened DbText
  import opened DbIndex
  import opened DbBytes
  import opened DbFile
  import opened DbSteps
  import opened DbLaws

  /** The map after these calls, on an empty one. */
  function MapAfter(ops: seq<Op>): map<string, string> {
    if ops == [] then map[] else After(MapAfter(ops[..|ops| - 1]), ops[|ops| - 1])
  }

  predicate Callable(op: Op) {
    CString(op.key) && (op.Store? ==> SEP !in op.key && CString(op.data))
  }

  // ---------- how long the files can get ----------

  /** The longest index record, with its pointer and length. */
  const REC_MAX: nat := PTR_SZ + IDXLEN_SZ + IDXLEN_MAX

  function IdxBound(ops: seq<Op>): nat {
    if ops == [] then REC_START
    else IdxBound(ops[..|ops| - 1]) + if ops[|ops| - 1].Store? then REC_MAX else 0
  }

  function DatBound(ops: seq<Op>): nat {
    if ops == [] then 0
    else DatBound(ops[..|ops| - 1]) + if ops[|ops| - 1].Store? then |ops[|ops| - 1].data| + 1 else 0
  }

  lemma {:induction false} BoundsGrow(ops: seq<Op>, n: nat)
    requires n <= |ops|
    ensures IdxBound(ops[..n]) <= IdxBound(ops) && DatBound(ops[..n]) <= DatBound(ops)
    decreases |ops|
  {
    if n < |ops| {
      BoundsGrow(ops[..|ops| - 1], n);
      assert ops[..|ops| - 1][..n] == ops[..n];
    } else {
      assert ops[..n] == ops;
    }
  }

  lemma {:induction false} DigitsGrow(a: nat, b: nat)
    requires a <= b
    ensures |Digits(a)| <= |Digits(b)|
  {
    if a >= 10 { DigitsGrow(a / 10, b / 10); }
  }

  /**
   Something a caller can see beforehand: the data sizes are good, and even if every store appended a
   record of the largest size, pointers would not pass PTR_MAX nor record lengths IDXLEN_MAX.
   */
  predicate SurelyFit(ops: seq<Op>) {
    && IdxBound(ops) <= PTR_MAX
    && forall i :: 0 <= i < |ops| && ops[i].Store? ==>
         && DataSizeOk(ops[i].data)
         && IDXLEN_MIN <= BodyLen(|ops[i].key|, 0, |ops[i].data| + 1)
         && BodyLen(|ops[i].key|, DatBound(ops), |ops[i].data| + 1) <= IDXLEN_MAX
  }

  // ---------- the run ----------

  /** The data is of no size the library takes, or a record had to be added and did not fit. */
  predicate CannotStore(m: map<string, string>, op: Op, idxlen: nat, datlen: nat) {
    && op.Store? && op.flag in {DB_INSERT, DB_REPLACE, DB_STORE}
    && (!DataSizeOk(op.data)
        || (!HasRoom(idxlen, datlen, op.key, op.data)
            && if op.key in m then op.flag != DB_INSERT && |m[op.key]| != |op.data| else op.flag != DB_REPLACE))
  }

  /** When all calls surely fit, none of them ends the process. */
  lemma FitsInTurn(ops: seq<Op>, n: nat, m: map<string, string>, idxlen: nat, datlen: nat)
    requires SurelyFit(ops) && n < |ops|
    requires idxlen <= IdxBound(ops[..n]) && datlen <= DatBound(ops[..n])
    ensures !CannotStore(m, ops[n], idxlen, datlen)
  {
    BoundsGrow(ops, n);
    DigitsGrow(0, datlen);
    DigitsGrow(datlen, DatBound(ops));
  }

  /** One call. It behaves as the atomic map does, or it ends the process; only a store makes files longer. */
  method Call(db: Db, op: Op) returns (res: Res, died: bool)
    requires db.Valid() && Callable(op)
    modifies db
    ensures !died ==> db.Valid() && res == Result(old(db.g.m), op) && db.g.m == After(old(db.g.m), op)
    ensures !died ==> old(|db.idx|) <= |db.idx| <= old(|db.idx|) + if op.Store? then REC_MAX else 0
    ensures !died ==> old(|db.dat|) <= |db.dat| <= old(|db.dat|) + if op.Store? then |op.data| + 1 else 0
    ensures died ==> CannotStore(old(db.g.m), op, old(|db.idx|), old(|db.dat|))
  {
    hide Good, CString;
    died := false;
    match op {
      case Fetch(key) =>
        var r := db.Fetch(key);
        res := Data(r);
      case Delete(key) =>
        var rc := db.Delete(key);
        res := Code(rc);
      case Store(key, data, flag) =>
        var r := db.Store(key, data, flag);
        if r.Died? {
          return Code(-1), true;
        }
        res := Code(r.rc);
    }
  }

  /** The calls that were answered, with their answers. */
  function Answered(ops: seq<Op>, results: seq<Res>): (hist: seq<Event>)
    requires |results| <= |ops|
    ensures |hist| == |results| && forall i :: 0 <= i < |hist| ==> hist[i] == Event(0, ops[i], results[i])
  {
    seq(|results|, i requires 0 <= i < |results| => Event(0, ops[i], results[i]))
  }

  lemma {:induction false} ReplayAnswered(ops: seq<Op>, hist: seq<Event>, n: nat)
    requires n <= |hist| <= |ops| && forall i :: 0 <= i < |hist| ==> hist[i].op == ops[i]
    ensures Replay(hist[..n]) == MapAfter(ops[..n])
  {
    if n > 0 {
      ReplayAnswered(ops, hist, n - 1);
      assert hist[..n][..n - 1] == hist[..n - 1] && ops[..n][..n - 1] == ops[..n - 1];
    }
  }

  lemma AnsweredLawful(ops: seq<Op>, results: seq<Res>, n: nat)
    requires n < |results| <= |ops|
    requires forall i :: 0 <= i < |results| ==> results[i] == Result(MapAfter(ops[..i]), ops[i])
    ensures Lawful(Answered(ops, results), n)
  {
    hide Result, MapAfter, Replay, Lawful;
    var hist := Answered(ops, results);
    forall i | 0 <= i < |hist|
      ensures hist[i].res == Result(Replay(hist[..i]), hist[i].op)
    {
      ReplayAnswered(ops, hist, i);
    }
    SerialLawful(hist, n);
  }

  lemma AllLawful(ops: seq<Op>, results: seq<Res>)
    requires |results| <= |ops|
    requires forall i :: 0 <= i < |results| ==> results[i] == Result(MapAfter(ops[..i]), ops[i])
    ensures forall i :: 0 <= i < |results| ==> Lawful(Answered(ops, results), i)
  {
    hide Result, MapAfter, Lawful, Answered;
    forall i | 0 <= i < |results|
      ensures Lawful(Answered(ops, results), i)
    {
      AnsweredLawful(ops, results, i);
    }
  }

  /**
   `results` are those of the calls up to the one that ended the process, if one did. `idxlen` and
   `datlen` are the lengths of the files at that point or at the end.
   */
  method RunAll(ops: seq<Op>) returns (results: seq<Res>, idxlen: nat, datlen: nat)
    requires forall i :: 0 <= i < |ops| ==> Callable(ops[i])
    ensures |results| <= |ops|
    ensures forall i :: 0 <= i < |results| ==> results[i] == Result(MapAfter(ops[..i]), ops[i])
    ensures forall i :: 0 <= i < |results| ==> Lawful(Answered(ops, results), i)
    ensures REC_START <= idxlen <= IdxBound(ops[..|results|]) && datlen <= DatBound(ops[..|results|])
    ensures |results| < |ops| ==> CannotStore(MapAfter(ops[..|results|]), ops[|results|], idxlen, datlen)
    ensures SurelyFit(ops) ==> |results| == |ops|
  {
    var db := new Db();
    hide Good, Callable, CannotStore, Result, After, SurelyFit, Lawful, Answered;
    results := [];
    var n := 0;
    idxlen, datlen := |db.idx|, |db.dat|;
    while n < |ops|
      invariant 0 <= n == |results| <= |ops| && fresh(db) && db.Valid()
      invariant db.g.m == MapAfter(ops[..n])
      invariant REC_START <= idxlen == |db.idx| <= IdxBound(ops[..n]) && datlen == |db.dat| <= DatBound(ops[..n])
      invariant forall i :: 0 <= i < n ==> results[i] == Result(MapAfter(ops[..i]), ops[i])
    {
      assert ops[..n + 1][..n] == ops[..n];
      var res, died := Call(db, ops[n]);
      if died {
        if SurelyFit(ops) { FitsInTurn(ops, n, MapAfter(ops[..n]), idxlen, datlen); }
        AllLawful(ops, results);
        return;
      }
      idxlen, datlen := |db.idx|, |db.dat|;
      results := results + [res];
      n := n + 1;
    }
    AllLawful(ops, results);
  }
}
