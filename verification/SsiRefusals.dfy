/** When SSI refuses a read, an update or a commit, in terms of who read and wrote what and when. */
module SsiRefusals {
  import opened Stamps
  import opened Ssi
  import opened SsiInvariant
  import opened SsiExact

  // ----- who is in the way -----

  // A committed transaction overwrote something that `t` has seen, with stamp `q`, or `t` has met
  // an invisible version with that stamp.
  ghost predicate Outgoing(s: State, t: nat, q: nat) {
    && t in s.txns
    && (q in s.txns[t].met
        || exists v: Vid :: v in s.txns[t].seen && Has(s, Vid(v.o, v.i + 1)) && At(s, Vid(v.o, v.i + 1)).clsn == Lsn(q))
  }

  ghost predicate Least(s: State, t: nat, c: nat) {
    Outgoing(s, t, c) && forall q :: Outgoing(s, t, q) ==> c <= q
  }

  // A committed transaction with an overwriter of something it had seen that committed before it.
  ghost predicate Pivot(s: State, w: nat) {
    && Committed(s, w)
    && (s.txns[w].met != {} || exists v :: v in s.txns[w].seen && Settled(s, v) && SettledAt(s, v) < s.txns[w].end)
  }

  ghost predicate OverwrittenByPivot(s: State, v: Vid) {
    exists w :: Overwrote(s, w, v) && Pivot(s, w)
  }

  // `r` has read `v` and ended at or above `c`, or is still running and known to the writer.
  ghost predicate Reads(s: State, r: nat, v: Vid, c: nat) {
    && r in s.txns && v in s.txns[r].seen
    && ((s.txns[r].state == Cmmtd && s.txns[r].end >= c) || (s.placed && s.txns[r].state == Active))
  }

  // Somebody else created or read `v` too late for an overwriter that must come before `c`.
  ghost predicate InTheWay(s: State, t: nat, v: Vid, c: nat) {
    && Has(s, v)
    && ((Committed(s, At(s, v).writer) && s.txns[At(s, v).writer].end >= c) || exists r :: r != t && Reads(s, r, v, c))
  }

  // `t` would complete a dangerous structure.
  ghost predicate Refused(s: State, t: nat)
    requires t in s.txns
  {
    || (exists v :: v in s.txns[t].rset && OverwrittenByPivot(s, v))
    || (exists c, v :: Least(s, t, c) && Overwrote(s, t, v) && InTheWay(s, t, v, c))
  }

  // ----- `ct3` -----

  // What a stamp of an overwriter says about the version it overwrote.
  lemma OutgoingStamp(s: State, v: Vid, q: nat)
    requires Inv(s) && Has(s, Vid(v.o, v.i + 1)) && At(s, Vid(v.o, v.i + 1)).clsn == Lsn(q)
    ensures OverwrittenAt(s, v, q) && Settled(s, v) && q > 0
  {
    VerHolds(s, v.o, v.i);
    VerHolds(s, v.o, v.i + 1);
    hide Inv;
  }

  lemma SeenParts(s: State, t: nat, v: Vid)
    requires Inv(s) && t in s.txns && s.txns[t].state != Abrtd && v in s.txns[t].seen
    ensures SnapshotInv(s, t, v) && TrackedInv(s, t, v) && PivotInv(s, t, v)
  {
    TxnHolds(s, t);
    hide Inv;
    assert SeenInv(s, t, v);
  }

  lemma FinalBelow(s: State, t: nat, q: nat)
    requires Inv(s) && Exact(s) && t in s.txns && s.txns[t].state == Active && Outgoing(s, t, q)
    ensures 0 < Final(s, t) <= q
  {
    assert Ct3Exact(s, t);
    hide Inv, Exact, Final;
    FoldLow(s, t);
    var x := s.txns[t];
    if q !in x.met {
      var v: Vid :| v in x.seen && Has(s, Vid(v.o, v.i + 1)) && At(s, Vid(v.o, v.i + 1)).clsn == Lsn(q);
      OutgoingStamp(s, v, q);
      SeenParts(s, t, v);
    }
  }

  lemma FinalAttained(s: State, t: nat)
    requires Inv(s) && Exact(s) && t in s.txns && s.txns[t].state == Active && Final(s, t) != 0
    ensures Outgoing(s, t, Final(s, t))
  {
    assert Ct3Exact(s, t);
    var x := s.txns[t];
    var c := Final(s, t);
    TxnHolds(s, t);
    FoldIsAttained(s, x.rset, x.ct3);
    hide Inv, Exact, FoldCt3;
    if c !in x.met {
      var v :| v in x.seen && OverwrittenAt(s, v, c);
      StillSettled(s, v, c);
    }
  }

  /** The `ct3` that commit computes is the smallest stamp of an outgoing anti-dependency, 0 if there is none. */
  lemma FinalIsLeast(s: State, t: nat)
    requires Inv(s) && Exact(s) && t in s.txns && s.txns[t].state == Active
    ensures Final(s, t) == 0 <==> forall q :: !Outgoing(s, t, q)
    ensures Final(s, t) != 0 ==> Least(s, t, Final(s, t))
  {
    hide Inv, Exact, Final, Outgoing;
    forall q | Outgoing(s, t, q) ensures 0 < Final(s, t) <= q { FinalBelow(s, t, q); }
    if Final(s, t) != 0 { FinalAttained(s, t); }
  }

  lemma PivotExactly(s: State, w: nat)
    requires Inv(s) && Exact(s) && Committed(s, w)
    ensures s.txns[w].ct3 != 0 <==> Pivot(s, w)
  {
    assert Ct3Exact(s, w);
    hide Inv, Exact;
    if v :| v in s.txns[w].seen && Settled(s, v) && SettledAt(s, v) < s.txns[w].end { SeenParts(s, w, v); }
  }

  // `s2` marks exactly what a pivot overwrote.
  lemma MarkedExactly(s: State, v: Vid)
    requires Inv(s) && Exact(s) && Has(s, v)
    ensures At(s, v).s2 != 0 <==> OverwrittenByPivot(s, v)
  {
    VerHolds(s, v.o, v.i);
    if v.i + 1 < |s.recs[v.o]| {
      VerHolds(s, v.o, v.i + 1);
      var w := s.recs[v.o][v.i + 1].writer;
      hide Inv, Exact, Pivot;
      assert Overwrote(s, w, v);
      if Committed(s, w) { PivotExactly(s, w); } else { NoPivot(s, w); }
    }
  }

  lemma NoPivot(s: State, w: nat)
    requires !Committed(s, w)
    ensures !Pivot(s, w)
  {
  }

  // ----- the two checks of commit -----

  lemma ReadsPassExactly(s: State, t: nat)
    requires Inv(s) && Exact(s) && t in s.txns && s.txns[t].state == Active
    ensures ReadsPass(s, s.txns[t].rset) <==> forall v :: v in s.txns[t].rset ==> !OverwrittenByPivot(s, v)
  {
    hide Inv, Exact, OverwrittenByPivot;
    TxnHolds(s, t);
    forall v | v in s.txns[t].rset
      ensures Has(s, v) && (At(s, v).s2 != 0 ==> At(s, v).sstamp.Lsn?)
      ensures At(s, v).s2 != 0 <==> OverwrittenByPivot(s, v)
    {
      SeenExists(s, t, v);
      MarkedExactly(s, v);
      if At(s, v).s2 != 0 { MarkedIsStamped(s, v); }
    }
  }

  // What is known of the version under an uncommitted head.
  lemma UnderHead(s: State, t: nat, v: Vid)
    requires Inv(s) && t in s.txns && s.txns[t].state == Active && Overwrote(s, t, v)
    ensures v.o in s.txns[t].wset && v.i + 2 == |s.recs[v.o]| && Has(s, v) && At(s, v).sstamp == Xid(t)
    ensures At(s, v).clsn.Lsn? && VerInv(s, v.o, v.i)
  {
    VerHolds(s, v.o, v.i);
    VerHolds(s, v.o, v.i + 1);
    hide Inv;
  }

  // A listed reader of such a version runs; everybody who has seen it and runs or committed is known.
  lemma ReadersExactly(s: State, t: nat, v: Vid, r: nat, c: nat)
    requires Inv(s) && Exact(s) && t in s.txns && s.txns[t].state == Active && Overwrote(s, t, v) && r != t
    ensures Has(s, v) && (r in At(s, v).readers ==> Reads(s, r, v, c))
    ensures Reads(s, r, v, c) ==> r in At(s, v).readers || At(s, v).xstamp >= c
  {
    UnderHead(s, t, v);
    assert BitsExact(s);
    if r in At(s, v).readers { TxnHolds(s, r); }
    hide Inv, Exact;
    if Reads(s, r, v, c) { SeenParts(s, r, v); }
  }

  lemma WritePassesExactly(s: State, t: nat, v: Vid, c: nat, n: nat)
    requires Inv(s) && Exact(s) && t in s.txns && s.txns[t].state == Active && Overwrote(s, t, v)
    ensures v.o in s.recs && (WritePasses(s, t, v.o, c, n) <==> !InTheWay(s, t, v, c))
  {
    UnderHead(s, t, v);
    assert AccessExact(s, v);
    WriterCommitted(s, v);
    hide Inv, Exact, Reads;
    forall r | r != t
      ensures (r in At(s, v).readers ==> Reads(s, r, v, c) && !ReaderPasses(s, r, c, n))
              && (Reads(s, r, v, c) ==> r in At(s, v).readers || At(s, v).xstamp >= c)
    {
      ReadersExactly(s, t, v, r, c);
      if r in At(s, v).readers { ListedRuns(s, v, r); }
    }
    if q :| ReaderAt(s, q, v, At(s, v).xstamp) { ReaderReads(s, t, q, v, c); }
  }

  lemma ListedRuns(s: State, v: Vid, r: nat)
    requires Has(s, v) && VerInv(s, v.o, v.i) && r in At(s, v).readers
    ensures r in s.txns && s.txns[r].state == Active
  {
  }

  lemma ReaderReads(s: State, t: nat, q: nat, v: Vid, c: nat)
    requires t in s.txns && s.txns[t].state == Active && Has(s, v) && ReaderAt(s, q, v, At(s, v).xstamp)
    ensures q != t && (At(s, v).xstamp >= c ==> Reads(s, q, v, c))
  {
  }

  lemma WritesPassExactly(s: State, t: nat, n: nat)
    requires Inv(s) && Exact(s) && t in s.txns && s.txns[t].state == Active
    ensures WritesPass(s, t, s.txns[t].wset, Final(s, t), n)
            <==> forall c, v :: Least(s, t, c) && Overwrote(s, t, v) ==> !InTheWay(s, t, v, c)
  {
    FinalIsLeast(s, t);
    hide Inv, Exact, Final, Outgoing, InTheWay, WritePasses;
    var c := Final(s, t);
    if c != 0 {
      assert forall d :: Least(s, t, d) <==> d == c;
      AllPassExactly(s, t, c, n);
    }
  }

  lemma AllPassExactly(s: State, t: nat, c: nat, n: nat)
    requires Inv(s) && Exact(s) && t in s.txns && s.txns[t].state == Active
    ensures (forall o :: o in s.txns[t].wset ==> WritePasses(s, t, o, c, n))
            <==> forall v :: Overwrote(s, t, v) ==> !InTheWay(s, t, v, c)
  {
    hide Inv, Exact, InTheWay, WritePasses, Overwrote;
    forall v | Overwrote(s, t, v)
      ensures v.o in s.txns[t].wset && v.o in s.recs && (WritePasses(s, t, v.o, c, n) <==> !InTheWay(s, t, v, c))
    {
      UnderHead(s, t, v);
      WritePassesExactly(s, t, v, c, n);
    }
    forall o | o in s.txns[t].wset
      ensures o in s.recs && (WritePasses(s, t, o, c, n) || Overwrites(s, t, o))
    {
      Overwritten(s, t, o, c, n);
    }
    forall o | o in s.txns[t].wset && !WritePasses(s, t, o, c, n)
      ensures exists v :: Overwrote(s, t, v) && InTheWay(s, t, v, c)
    {
      var v := Vid(o, |s.recs[o]| - 2);
      assert Overwrote(s, t, v);
      assert v.o == o;
    }
  }

  // `t` has put its version over another one of `o`.
  ghost predicate Overwrites(s: State, t: nat, o: nat) {
    o in s.recs && |s.recs[o]| > 1 && Overwrote(s, t, Vid(o, |s.recs[o]| - 2))
  }

  lemma Overwritten(s: State, t: nat, o: nat, c: nat, n: nat)
    requires Inv(s) && t in s.txns && s.txns[t].state == Active && o in s.txns[t].wset
    ensures o in s.recs && |s.recs[o]| > 0
    ensures |s.recs[o]| > 1 ==> Overwrites(s, t, o)
    ensures |s.recs[o]| == 1 ==> WritePasses(s, t, o, c, n)
  {
    HeadsAreMine(s, t, o);
    hide Inv;
  }

  // ----- the theorems -----

  ghost predicate CanCommit(s: State, t: nat, n: nat, a: map<nat, nat>) { exists s' :: Commit(s, s', t, n, a) }

  ghost predicate CanRead(s: State, t: nat, v: Vid) { exists s' :: Read(s, s', t, v) }

  ghost predicate CanUpdate(s: State, t: nat, o: nat) { exists s' :: Update(s, s', t, o) }

  /**
   In every reachable state the commit of a running transaction succeeds exactly if it would not
   complete a dangerous structure: nothing it listed as read was overwritten by a committed pivot,
   and if something it has seen was overwritten by a committed transaction, then nobody who created
   or read what it overwrote ended at or above the smallest such stamp or is still running.
   */
  lemma CommitExactly(r: seq<State>, t: nat, n: nat, a: map<nat, nat>)
    requires Run(r)
    requires var s := r[|r| - 1]; t in s.txns && s.txns[t].state == Active && n > s.clock + 1 && Logged(s, t, n, a)
    ensures CanCommit(r[|r| - 1], t, n, a) <==> !Refused(r[|r| - 1], t)
  {
    var s := r[|r| - 1];
    RunExact(r);
    hide Run;
    ChecksExactly(s, t, n);
    hide Inv, Exact, Refused, ReadsPass, WritesPass, FoldCt3, StampAll, ReleaseAll;
    var x := s.txns[t];
    var c := Final(s, t);
    if !Refused(s, t) {
      var s' := s.(clock := n, txns := s.txns[t := x.(end := n, state := Cmmtd, ct3 := c)],
                   recs := ReleaseAll(StampAll(s.recs, x.wset, n, a, c), t, x.rset, n));
      assert Commit(s, s', t, n, a);
    }
  }

  // The two checks together.
  lemma ChecksExactly(s: State, t: nat, n: nat)
    requires Inv(s) && Exact(s) && t in s.txns && s.txns[t].state == Active
    ensures var x := s.txns[t];
            ReadsPass(s, x.rset) && WritesPass(s, t, x.wset, FoldCt3(s, x.rset, x.ct3), n) <==> !Refused(s, t)
  {
    hide Inv, Exact, ReadsPass, WritesPass, FoldCt3, OverwrittenByPivot, Least, InTheWay;
    ReadsPassExactly(s, t);
    WritesPassExactly(s, t, n);
  }

  /** A read of a version in the snapshot is refused exactly if a committed pivot has overwritten it. */
  lemma ReadExactly(r: seq<State>, t: nat, v: Vid)
    requires Run(r) && InSnapshot(r[|r| - 1], t, v) && r[|r| - 1].txns[t].state == Active
    ensures CanRead(r[|r| - 1], t, v) <==> !OverwrittenByPivot(r[|r| - 1], v)
  {
    var s := r[|r| - 1];
    RunExact(r);
    hide Run, Inv, Exact, OverwrittenByPivot;
    MarkedExactly(s, v);
    var x := s.txns[t];
    var sc := At(s, v).sstamp;
    var s' := if sc.Lsn? then s.(txns := s.txns[t := x.(ct3 := Earliest(x.ct3, sc.n), seen := x.seen + {v})])
    else
      SetVer(s, v, At(s, v).(readers := At(s, v).readers + Entry(s, t)))
      .(txns := s.txns[t := x.(rset := x.rset + [v], seen := x.seen + {v})]);
    assert At(s, v).s2 == 0 ==> Read(s, s', t, v);
  }

  // The stamp that a running transaction knows of is one of an outgoing anti-dependency.
  lemma KnownIsOutgoing(s: State, t: nat)
    requires Inv(s) && Exact(s) && t in s.txns && s.txns[t].state == Active && s.txns[t].ct3 != 0
    ensures Outgoing(s, t, s.txns[t].ct3)
  {
    assert Ct3Exact(s, t);
    hide Inv, Exact;
    var x := s.txns[t];
    if x.ct3 !in x.met {
      var v :| v in x.seen && OverwrittenAt(s, v, x.ct3);
      StillSettled(s, v, x.ct3);
    }
  }

  /**
   An update over a head committed within the snapshot is refused exactly if the transaction knows of
   an outgoing anti-dependency and somebody else is in the way of it.
   */
  lemma UpdateExactly(r: seq<State>, t: nat, o: nat)
    requires Run(r)
    requires var s := r[|r| - 1];
             && t in s.txns && s.txns[t].state == Active && o in s.recs && |s.recs[o]| > 0
             && s.recs[o][|s.recs[o]| - 1].clsn.Lsn? && s.recs[o][|s.recs[o]| - 1].clsn.n < s.txns[t].begin
    ensures var s := r[|r| - 1]; var x := s.txns[t];
            && (x.ct3 != 0 ==> Outgoing(s, t, x.ct3))
            && (CanUpdate(s, t, o)
                <==> !(x.ct3 != 0 && InTheWay(s, t, Vid(o, |s.recs[o]| - 1), x.ct3)))
  {
    var s := r[|r| - 1];
    RunExact(r);
    hide Run;
    if s.txns[t].ct3 != 0 { KnownIsOutgoing(s, t); }
    var v := Vid(o, |s.recs[o]| - 1);
    HeadPassesExactly(s, t, v);
    hide Inv, Exact, InTheWay, Outgoing;
    UpdateEnabled(s, t, o);
  }

  lemma UpdateEnabled(s: State, t: nat, o: nat)
    requires t in s.txns && s.txns[t].state == Active && o in s.recs && |s.recs[o]| > 0
    requires s.recs[o][|s.recs[o]| - 1].clsn.Lsn? && s.recs[o][|s.recs[o]| - 1].clsn.n < s.txns[t].begin
    ensures var p, x := s.recs[o][|s.recs[o]| - 1], s.txns[t];
            CanUpdate(s, t, o) <==> x.ct3 == 0 || (p.xstamp < x.ct3 && p.readers - {t} == {})
  {
    var c, x := s.recs[o], s.txns[t];
    var p := c[|c| - 1];
    if x.ct3 == 0 || (p.xstamp < x.ct3 && p.readers - {t} == {}) {
      var s' := s.(recs := s.recs[o := c[|c| - 1 := p.(sstamp := Xid(t))] + [Ver(t, Xid(t), Null, 0, 0, {})]],
                   txns := s.txns[t := x.(wset := x.wset + [o])]);
      assert Update(s, s', t, o);
    }
  }

  // The same for a committed head that nobody has overwritten.
  lemma HeadPassesExactly(s: State, t: nat, v: Vid)
    requires Inv(s) && Exact(s) && t in s.txns && s.txns[t].state == Active
    requires Has(s, v) && v.i + 1 == |s.recs[v.o]| && At(s, v).clsn.Lsn?
    ensures var c := s.txns[t].ct3;
            At(s, v).xstamp < c && At(s, v).readers - {t} == {} <==> !InTheWay(s, t, v, c)
  {
    VerHolds(s, v.o, v.i);
    assert AccessExact(s, v) && BitsExact(s);
    WriterCommitted(s, v);
    hide Inv, Exact, Reads;
    var c := s.txns[t].ct3;
    forall r | r != t
      ensures (r in At(s, v).readers ==> Reads(s, r, v, c))
              && (Reads(s, r, v, c) ==> r in At(s, v).readers || At(s, v).xstamp >= c)
    {
      HeadReaders(s, v, r, c);
    }
    if q :| ReaderAt(s, q, v, At(s, v).xstamp) { ReaderReads(s, t, q, v, c); }
    assert forall r :: r in At(s, v).readers - {t} <==> r in At(s, v).readers && r != t;
    if r :| r != t && Reads(s, r, v, c) { assert r in At(s, v).readers - {t} || At(s, v).xstamp >= c; }
  }

  lemma HeadReaders(s: State, v: Vid, r: nat, c: nat)
    requires Inv(s) && BitsExact(s) && Has(s, v) && v.i + 1 == |s.recs[v.o]| && VerInv(s, v.o, v.i)
    ensures r in At(s, v).readers ==> Reads(s, r, v, c)
    ensures Reads(s, r, v, c) ==> r in At(s, v).readers || At(s, v).xstamp >= c
  {
    if r in At(s, v).readers { TxnHolds(s, r); }
    hide Inv;
    if Reads(s, r, v, c) { SeenParts(s, r, v); }
  }
}
