/**
 The loops of the SSI pre-commit, post-commit and abort as they run, on tables updated in place.
 Each is proved against the step it takes in `Ssi`.
 */
module SsiDb {
  import opened Stamps
  import opened Ssi
  import opened SsiExact
  import opened SsiRefusals

  // Every version listed in the read set or under a listed write exists.
  ghost predicate SetsExist(s: State, t: nat) {
    && t in s.txns
    && (forall v :: v in s.txns[t].rset ==> Has(s, v))
    && (forall o :: o in s.txns[t].wset ==> o in s.recs && |s.recs[o]| > 0)
    && NoDup(s.txns[t].wset)
  }

  // The invariant of `Ssi` gives a running transaction what its commit needs.
  lemma RunningSetsExist(s: State, t: nat)
    requires Inv(s) && t in s.txns && s.txns[t].state == Active
    ensures SetsExist(s, t)
  {
    assert TxnInv(s, t);
    forall v | v in s.txns[t].rset ensures Has(s, v) { assert SeenInv(s, t, v); }
  }

  class Db {
    var clock: nat
    var txns: map<nat, Txn>
    var recs: map<nat, seq<Ver>>
    const placed: bool
    const oneBlock: bool

    constructor (placed: bool, oneBlock: bool)
      ensures Init(Abs()) && this.placed == placed && this.oneBlock == oneBlock
    {
      clock, txns, recs := 0, map[], map[];
      this.placed, this.oneBlock := placed, oneBlock;
    }

    function Abs(): State
      reads this
    {
      State(clock, txns, recs, placed, oneBlock)
    }

    // The read check: find the smallest stamp of a committed overwriter, refuse a read of a
    // version overwritten by a pivot.  An XID names the reader itself or a transaction that has
    // not entered pre-commit, and is passed over.
    method CheckReads(t: nat) returns (ok: bool, ct3: nat)
      requires SetsExist(Abs(), t)
      ensures ok <==> ReadsPass(Abs(), txns[t].rset)
      ensures ok ==> ct3 == FoldCt3(Abs(), txns[t].rset, txns[t].ct3)
    {
      var rs := txns[t].rset;
      ct3 := txns[t].ct3;
      for i := 0 to |rs|
        invariant ReadsPass(Abs(), rs[..i]) && ct3 == FoldCt3(Abs(), rs[..i], txns[t].ct3)
      {
        var v := At(Abs(), rs[i]);
        assert rs[..i + 1][..i] == rs[..i] && rs[..i + 1][i] == rs[i];
        if v.sstamp.Lsn? {
          ct3 := Earliest(ct3, v.sstamp.n);
          if v.s2 != 0 {
            return false, ct3;
          }
        }
      }
      assert rs[..|rs|] == rs;
      ok := true;
    }

    // The write check of one overwritten version: its registered readers one by one, then its
    // access stamp.
    method CheckWrite(t: nat, o: nat, ct3: nat, cstamp: nat) returns (ok: bool)
      requires o in recs
      ensures ok <==> WritePasses(Abs(), t, o, ct3, cstamp)
    {
      if |recs[o]| <= 1 {
        return true;
      }
      var p := recs[o][|recs[o]| - 2];
      var bits := p.readers;
      while bits != {}
        invariant bits <= p.readers
        invariant forall r :: r in p.readers && r !in bits && r != t ==> ReaderPasses(Abs(), r, ct3, cstamp)
        decreases bits
      {
        var r :| r in bits;
        bits := bits - {r};
        if r != t && !ReaderPasses(Abs(), r, ct3, cstamp) {
          return false;
        }
      }
      ok := p.xstamp < ct3;
    }

    // Only a transaction with a committed overwriter of one of its reads can be the pivot.
    method CheckWrites(t: nat, ct3: nat, cstamp: nat) returns (ok: bool)
      requires SetsExist(Abs(), t)
      ensures ok <==> WritesPass(Abs(), t, txns[t].wset, ct3, cstamp)
    {
      if ct3 == 0 {
        return true;
      }
      var ws := txns[t].wset;
      for i := 0 to |ws|
        invariant forall o :: o in ws[..i] ==> WritePasses(Abs(), t, o, ct3, cstamp)
      {
        assert ws[i] in txns[t].wset;
        var good := CheckWrite(t, ws[i], ct3, cstamp);
        if !good {
          return false;
        }
        assert ws[..i + 1] == ws[..i] + [ws[i]];
      }
      ok := true;
    }

    // Stamp every new head and the version it overwrote with the address of the new version.
    method StampWrites(t: nat, n: nat, a: map<nat, nat>, ct3: nat)
      requires SetsExist(Abs(), t) && forall o :: o in txns[t].wset ==> o in a
      modifies this`recs
      ensures recs == StampAll(old(recs), txns[t].wset, n, a, ct3)
    {
      hide StampAll, StampRec;
      var ws := txns[t].wset;
      NoneStamped(recs, n, a, ct3);
      for i := 0 to |ws|
        invariant recs == StampAll(old(recs), ws[..i], n, a, ct3)
      {
        assert ws[i] in txns[t].wset;
        OneMoreWrite(old(recs), ws, i, n, a, ct3);
        var o := ws[i];
        var c := recs[o];
        var k := |c| - 1;
        if k > 0 {
          c := c[k - 1 := c[k - 1].(sstamp := Lsn(a[o]))];
          c := c[k - 1 := c[k - 1].(s2 := ct3)];
        }
        c := c[k := c[k].(xstamp := n)];
        c := c[k := c[k].(clsn := Lsn(a[o]))];
        InOneStep(recs[o], c, n, a[o], ct3);
        recs := recs[o := c];
      }
      assert ws[..|ws|] == ws;
    }

    // Publish the access stamp of every read, then leave its bitmap.
    method ReleaseReads(t: nat, n: nat)
      requires t in txns && forall v :: v in txns[t].rset ==> Has(Abs(), v)
      modifies this`recs
      ensures recs == ReleaseAll(old(recs), t, txns[t].rset, n)
    {
      var rs := txns[t].rset;
      NoneReleased(recs, t, n);
      for i := 0 to |rs|
        invariant recs == ReleaseAll(old(recs), t, rs[..i], n)
      {
        assert rs[i] in txns[t].rset;
        OneMoreRead(old(recs), t, rs, i, n);
        var o, k := rs[i].o, rs[i].i;
        var c := recs[o];
        c := c[k := c[k].(xstamp := Max(c[k].xstamp, n))];
        c := c[k := c[k].(readers := c[k].readers - {t})];
        assert c == recs[o][k := Release(recs[o][k], t, n)];
        recs := recs[o := c];
      }
      assert rs[..|rs|] == rs;
    }

    // Pre-commit with stamp `n`, and post-commit if it passes.
    method Commit(t: nat, n: nat, a: map<nat, nat>) returns (ok: bool)
      requires SetsExist(Abs(), t) && txns[t].state == Active && n > clock + 1 && Logged(Abs(), t, n, a)
      modifies this
      ensures ok ==> Ssi.Commit(old(Abs()), Abs(), t, n, a)
      ensures !ok ==> Abs() == old(Abs()).(clock := n)
      ensures ok <==> old(ReadsPass(Abs(), txns[t].rset)
                          && WritesPass(Abs(), t, txns[t].wset, FoldCt3(Abs(), txns[t].rset, txns[t].ct3), n))
      ensures old(Inv(Abs()) && Exact(Abs())) ==> (ok <==> !old(Refused(Abs(), t)))
    {
      ghost var s := Abs();
      if Inv(s) && Exact(s) { ChecksExactly(s, t, n); }
      hide Inv, Exact, Refused;
      var ct3;
      ok, ct3 := CheckReads(t);
      if ok {
        ok := CheckWrites(t, ct3, n);
      }
      clock := n;
      if ok {
        StampWrites(t, n, a, ct3);
        StampKeepsLengths(s.recs, txns[t].wset, n, a, ct3);
        txns := txns[t := txns[t].(end := n, state := Cmmtd, ct3 := ct3)];
        ReleaseReads(t, n);
      }
    }
  }

  lemma OneMoreWrite(m: map<nat, seq<Ver>>, ws: seq<nat>, i: nat, n: nat, a: map<nat, nat>, ct3: nat)
    requires NoDup(ws) && i < |ws| && ws[i] in a && ws[i] in m && |m[ws[i]]| > 0
    ensures ws[i] in StampAll(m, ws[..i], n, a, ct3) && StampAll(m, ws[..i], n, a, ct3)[ws[i]] == m[ws[i]]
    ensures StampAll(m, ws[..i + 1], n, a, ct3)
            == StampAll(m, ws[..i], n, a, ct3)[ws[i] := StampRec(m[ws[i]], n, a[ws[i]], ct3)]
  {
    assert ws[..i + 1] == ws[..i] + [ws[i]];
    assert ws[i] !in ws[..i];
  }

  lemma NoneStamped(m: map<nat, seq<Ver>>, n: nat, a: map<nat, nat>, ct3: nat)
    ensures StampAll(m, [], n, a, ct3) == m
  {
  }

  // The stores one by one come to `StampRec`.
  lemma InOneStep(c: seq<Ver>, c': seq<Ver>, n: nat, a: nat, ct3: nat)
    requires |c'| == |c| > 0
    requires var k := |c| - 1;
             && c'[k] == c[k].(xstamp := n, clsn := Lsn(a))
             && (forall i :: 0 <= i < k - 1 ==> c'[i] == c[i])
             && (k > 0 ==> c'[k - 1] == c[k - 1].(sstamp := Lsn(a), s2 := ct3))
    ensures c' == StampRec(c, n, a, ct3)
  {
  }

  lemma NoneReleased(m: map<nat, seq<Ver>>, t: nat, n: nat)
    ensures ReleaseAll(m, t, [], n) == m
  {
    forall o | o in m ensures ReleaseRec(m[o], t, o, [], n) == m[o] { }
  }

  lemma OneMoreRead(m: map<nat, seq<Ver>>, t: nat, rs: seq<Vid>, i: nat, n: nat)
    requires i < |rs| && rs[i].o in m && rs[i].i < |m[rs[i].o]|
    ensures var k, o := rs[i].i, rs[i].o; var a := ReleaseAll(m, t, rs[..i], n);
            && k < |a[o]|
            && ReleaseAll(m, t, rs[..i + 1], n)
               == a[o := a[o][k := Release(a[o][k], t, n)]]
  {
    var k, o := rs[i].i, rs[i].o;
    assert rs[..i + 1] == rs[..i] + [rs[i]];
    forall q | q in m && q != o ensures ReleaseRec(m[q], t, q, rs[..i + 1], n) == ReleaseRec(m[q], t, q, rs[..i], n) { }
    var b := ReleaseRec(m[o], t, o, rs[..i], n);
    assert Release(Release(m[o][k], t, n), t, n) == Release(m[o][k], t,
         n) by { assert m[o][k].readers - {t} - {t} == m[o][k].readers - {t}; }
    assert ReleaseRec(m[o], t, o, rs[..i + 1], n) == b[k := Release(b[k], t, n)];
  }

  lemma StampKeepsLengths(m: map<nat, seq<Ver>>, ws: seq<nat>, n: nat, a: map<nat, nat>, ct3: nat)
    ensures StampAll(m, ws, n, a, ct3).Keys == m.Keys
    ensures forall o :: o in m ==> |StampAll(m, ws, n, a, ct3)[o]| == |m[o]|
  {
  }
}
