/**
 What a serial history promises its callers, said without the map: each result is determined by the
 results before it, through the last store or deletion of the key that succeeded.
 */
module DbLaws {
  import opened Basics
  import opened DbFile
  import opened DbSteps

  /** The call at j succeeded in storing or deleting the key. */
  ghost predicate Changed(hist: seq<Event>, key: string, j: nat) {
    j < |hist| && !hist[j].op.Fetch? && hist[j].op.key == key && hist[j].res == Code(0)
  }

  ghost predicate LastChange(hist: seq<Event>, i: nat, key: string, j: nat) {
    j < i <= |hist| && Changed(hist, key, j) && forall k :: j < k < i ==> !Changed(hist, key, k)
  }

  /** The key has this data before call i: the last call that changed the key stored it. */
  ghost predicate Has(hist: seq<Event>, i: nat, key: string, data: string) {
    exists j: nat :: LastChange(hist, i, key, j) && hist[j].op.Store? && hist[j].op.data == data
  }

  ghost predicate Present(hist: seq<Event>, i: nat, key: string) {
    exists j: nat :: LastChange(hist, i, key, j) && hist[j].op.Store?
  }

  /** What callers may expect of call i. */
  ghost predicate Lawful(hist: seq<Event>, i: nat)
    requires i < |hist|
  {
    var key, res, there := hist[i].op.key, hist[i].res, Present(hist, i, hist[i].op.key);
    match hist[i].op
    case Fetch(_) =>
      res.Data? && if there then res.value.Some? && Has(hist, i, key, res.value.value) else res.value == None
    case Delete(_) => res == Code(if there then 0 else -1)
    case Store(_, data, flag) =>
      && (res == Code(0) || res == Code(1) || res == Code(-1))
      && (res == Code(1) <==> flag == DB_INSERT && there)
      && (res == Code(-1) <==> flag !in {DB_INSERT, DB_REPLACE, DB_STORE} || (flag == DB_REPLACE && !there))
  }

  /** What one call of the atomic map answers and does. */
  ghost predicate Means(m: map<string, string>, op: Op, res: Res, m': map<string, string>) {
    match op
    case Fetch(key) => m' == m && res == Data(if key in m then Some(m[key]) else None)
    case Delete(key) => key !in m' && SameBut(m, m', key) && res == Code(if key in m then 0 else -1)
    case Store(key, data, flag) => res.Code? && StoreMeans(m, key, data, flag, res.rc, m')
  }

  lemma ResultMeans(m: map<string, string>, op: Op)
    ensures Means(m, op, Result(m, op), After(m, op))
  {
  }

  /** The map and the history agree on what is there. */
  ghost predicate Agree(hist: seq<Event>, i: nat, m: map<string, string>, key: string) {
    && (key in m <==> Present(hist, i, key))
    && forall data :: Has(hist, i, key, data) <==> key in m && m[key] == data
  }

  /** A call that changes the key is the last to have done so; any other leaves the last one in place. */
  lemma LastNext(hist: seq<Event>, i: nat, key: string, j: nat)
    requires i < |hist|
    ensures LastChange(hist, i + 1, key, j) <==> if Changed(hist, key, i) then j == i else LastChange(hist, i, key, j)
  {
  }

  lemma AgreeStart(hist: seq<Event>, key: string)
    ensures Agree(hist, 0, map[], key)
  {
  }

  lemma HasNext(hist: seq<Event>, i: nat, key: string, data: string)
    requires i < |hist|
    ensures Has(hist, i + 1, key, data)
       <==> if Changed(hist, key, i) then hist[i].op.Store? && hist[i].op.data == data else Has(hist, i, key, data)
    ensures Present(hist, i + 1, key) <==> if Changed(hist, key, i) then hist[i].op.Store? else Present(hist, i, key)
  {
    forall j: nat
      ensures LastChange(hist, i + 1, key, j) <==> if Changed(hist, key, i) then j == i else LastChange(hist, i, key, j)
    {
      LastNext(hist, i, key, j);
    }
    if Changed(hist, key, i) {
      assert LastChange(hist, i + 1, key, i);
    }
    hide LastChange, Changed;
  }

  lemma AgreeNext(hist: seq<Event>, i: nat, m: map<string, string>, m': map<string, string>, key: string)
    requires i < |hist| && Agree(hist, i, m, key) && Means(m, hist[i].op, hist[i].res, m')
    ensures Agree(hist, i + 1, m', key)
  {
    hide Has, Present;
    var n := i + 1;
    forall data
      ensures Has(hist, n, key, data) <==> key in m' && m'[key] == data
    {
      HasNext(hist, i, key, data);
    }
    HasNext(hist, i, key, "");
  }

  lemma {:induction false} SerialAgree(hist: seq<Event>, i: nat, key: string)
    requires Serial(hist) && i <= |hist|
    ensures Agree(hist, i, Replay(hist[..i]), key)
  {
    if i == 0 {
      AgreeStart(hist, key);
    } else {
      SerialAgree(hist, i - 1, key);
      var m := Replay(hist[..i - 1]);
      assert hist[..i][..i - 1] == hist[..i - 1];
      ResultMeans(m, hist[i - 1].op);
      hide Agree, Means, Result, After;
      AgreeNext(hist, i - 1, m, Replay(hist[..i]), key);
    }
  }

  /** Every call of a serial history is answered as the calls before it demand. */
  lemma SerialLawful(hist: seq<Event>, i: nat)
    requires Serial(hist) && i < |hist|
    ensures Lawful(hist, i)
  {
    var m := Replay(hist[..i]);
    SerialAgree(hist, i, hist[i].op.key);
    ResultMeans(m, hist[i].op);
  }
}
