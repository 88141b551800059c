/** What the serial safety net guarantees in every state of every run. */
module SsnTheorems {
  import opened Stamps
  import opened Engine
  import opened Serializability
  import opened Ssn
  import opened SsnInvariant
  import opened SsnSteps

  // ----- serializability -----

  lemma CommittedTxn(s: State, t: nat)
    requires Inv(s) && t in s.txns && s.txns[t].state == Cmmtd
    ensures var x := s.txns[t];
            && x.decided && 0 < x.cs && x.pstamp < x.sstamp <= x.cs
            && KnownInv(s, t) && SeenInv(s, t) && PrevInv(s, t) && !x.pc.Updating?
            && ReadsCovered(s, t, |x.rset|) && WritesCovered(s, t, |x.wset|)
  {
    hide TableInv, SlotInv, AccessInv, VerInv, OwnInv, Distinct, KnownInv, SeenInv, BitsInv, PrevInv, ReadsCovered,
         WritesCovered, PointInv;
    assert TxnSsn(s, t);
    OwnTxn(s, t);
  }

  // A committed writer listed the record.
  lemma WriteListed(s: State, a: nat, v: Vid)
    requires Inv(s) && a in s.txns && s.txns[a].state == Cmmtd && Wrote(s, a, v.o, v.i)
    ensures v.o in s.txns[a].wset
  {
    hide TableInv, SlotInv, AccessInv, OwnInv, Distinct, TxnSsn, SuccessorInv;
    OwnTxn(s, a);
    assert VerInv(s, v.o, v.i);
  }

  // `b` read what `a` wrote.
  lemma WriteReadEdge(s: State, a: nat, b: nat, v: Vid)
    requires Inv(s) && a in s.txns && b in s.txns && s.txns[a].state == Cmmtd && s.txns[b].state == Cmmtd
    requires v in s.txns[b].seen && Wrote(s, a, v.o, v.i)
    ensures s.txns[a].cs < s.txns[b].cs && Stamped(s, v) && At(s, v).clsn.n <= s.txns[b].pstamp
    ensures s.setup.stamping.Exact? ==> s.txns[a].cs <= s.txns[b].pstamp
  {
    hide Base, TableInv, SlotInv, AccessInv, TxnSsn, SeenInv, PrevInv, ReadsCovered, WritesCovered;
    CommittedTxn(s, b);
    CommittedVersion(s, a, v);
    assert Knows(s.txns[b], v);
  }

  // `b` overwrote what `a` wrote.
  lemma WriteWriteEdge(s: State, a: nat, b: nat, v: Vid)
    requires Inv(s) && a in s.txns && b in s.txns && s.txns[a].state == Cmmtd && s.txns[b].state == Cmmtd
    requires Wrote(s, a, v.o, v.i) && Overwrites(s, v, b)
    ensures s.txns[a].cs < s.txns[b].cs && s.txns[a].cs <= s.txns[b].pstamp
  {
    hide TableInv, SlotInv, AccessInv, OwnInv, Distinct, TxnSsn, KnownInv, SeenInv, ReadsCovered, WritesCovered,
         SuccessorInv;
    CommittedTxn(s, b);
    CommittedVersion(s, a, v);
    assert VerInv(s, v.o, v.i);
  }

  // `b` overwrote what `a` read: the two directions in commit order.
  lemma ReadWriteEdge(s: State, a: nat, b: nat, v: Vid)
    requires Inv(s) && a in s.txns && b in s.txns && a != b && s.txns[a].state == Cmmtd && s.txns[b].state == Cmmtd
    requires v in s.txns[a].seen && Overwrites(s, v, b)
    ensures s.setup.placed && s.txns[a].cs < s.txns[b].cs ==> s.txns[a].cs <= s.txns[b].pstamp
    ensures s.txns[b].cs < s.txns[a].cs ==> s.txns[a].sstamp <= s.txns[b].sstamp
    ensures s.txns[a].cs != s.txns[b].cs
  {
    hide TableInv, SlotInv, AccessInv, OwnInv, TxnSsn, KnownInv, PrevInv, VerInv, TxnInv;
    CommittedTxn(s, a);
    CommittedTxn(s, b);
    assert Accounted(s, a, v);
    if v in s.txns[a].rset {
      var k :| 0 <= k < |s.txns[a].rset| && s.txns[a].rset[k] == v;
      if s.txns[b].cs < s.txns[a].cs {
        assert ReadCovered(s, a, v) && Danger(s, a, v, b);
      } else if s.setup.placed && s.txns[a].cs < s.txns[b].cs {
        WriteListed(s, b, Vid(v.o, v.i + 1));
        var j :| 0 <= j < |s.txns[b].wset| && s.txns[b].wset[j] == v.o;
        assert WriteCovered(s, b, v.o) && Earlier(s, b, v, a);
      }
    } else {
      KnownPoint(s, a, v);
      LoadedStamp(s, a, v);
    }
  }

  ghost function Lows(s: State): map<nat, nat> { map t | t in s.txns :: s.txns[t].pstamp }

  ghost function Highs(s: State): map<nat, nat> { map t | t in s.txns :: s.txns[t].sstamp }

  lemma EdgeRespectsWindow(s: State, a: nat, b: nat)
    requires Inv(s) && Depends(s, a, b)
    ensures var x, y := s.txns[a], s.txns[b];
            && x.cs != y.cs
            && (s.setup.placed && s.setup.stamping.Exact? && x.cs < y.cs ==> x.cs <= y.pstamp)
            && (y.cs < x.cs ==> x.sstamp <= y.sstamp)
            && y.pstamp < y.sstamp <= y.cs
  {
    hide Inv, KnownInv, SeenInv, PrevInv, ReadsCovered, WritesCovered;
    CommittedTxn(s, b);
    if v :| v in s.txns[b].seen && Wrote(s, a, v.o, v.i) {
      WriteReadEdge(s, a, b, v);
    } else if v: Vid :| Wrote(s, a, v.o, v.i) && Overwrites(s, v, b) {
      WriteWriteEdge(s, a, b, v);
    } else {
      var v :| v in s.txns[a].seen && Overwrites(s, v, b);
      ReadWriteEdge(s, a, b, v);
    }
  }

  /**
   Serializability: if workers hold positions in the readers bitmaps and versions carry the commit
   stamps of their writers, the dependency graph of the committed transactions of any run has no
   cycle.
   */
  lemma Serializable(r: seq<State>)
    requires Run(r) && r[0].setup.placed && r[0].setup.stamping.Exact?
    ensures Acyclic(Deps(r[|r| - 1]))
  {
    var s := r[|r| - 1];
    RunInvariant(r);
    forall d | d in Deps(s)
      ensures && d.0 in CommitStamps(s) && d.1 in CommitStamps(s) && d.0 in Highs(s) && d.1 in Highs(s)
                && d.1 in Lows(s)
              && CommitStamps(s)[d.0] != CommitStamps(s)[d.1]
              && (CommitStamps(s)[d.0] < CommitStamps(s)[d.1] ==> CommitStamps(s)[d.0] <= Lows(s)[d.1])
              && (CommitStamps(s)[d.1] < CommitStamps(s)[d.0] ==> Highs(s)[d.0] <= Highs(s)[d.1])
              && Lows(s)[d.1] < Highs(s)[d.1] <= CommitStamps(s)[d.1]
    {
      hide Inv;
      EdgeRespectsWindow(s, d.0, d.1);
    }
    hide Inv, Run;
    ExclusionIsAcyclic(Deps(s), CommitStamps(s), Lows(s), Highs(s));
  }

  // ----- the reader/writer handshake -----

  // `t` is in the bitmap of `v` under the position that names it in the global table, or the access
  // stamp of `v` covers it.
  ghost predicate Noticed(s: State, t: nat, v: Vid)
    requires t in s.txns
  {
    && Has(s, v)
    && var x := s.txns[t];
       || 0 < x.cs <= At(s, v).xstamp
       || (x.slot in At(s, v).readers && x.slot in s.rlist && s.rlist[x.slot] == t)
  }

  // Every committed tracked reader can be noticed.
  ghost predicate Handshaken(s: State) {
    forall t, v :: t in s.txns && s.txns[t].state == Cmmtd && v in s.txns[t].rset ==> Noticed(s, t, v)
  }

  /** With positions every reachable state keeps the handshake. */
  lemma Handshakes(r: seq<State>)
    requires Run(r) && r[0].setup.placed
    ensures Handshaken(r[|r| - 1])
  {
    var s := r[|r| - 1];
    RunInvariant(r);
    hide Run;
    forall t, v | t in s.txns && s.txns[t].state == Cmmtd && v in s.txns[t].rset ensures Noticed(s, t, v) {
      hide Base, AccessInv, KnownInv, SeenInv, PrevInv, ReadsCovered, WritesCovered, PointInv, TableInv;
      assert TxnSsn(s, t);
      var k :| 0 <= k < |s.txns[t].rset| && s.txns[t].rset[k] == v;
    }
  }

  // `t` passed certification, overwrote `v`, and `u` had read it and committed with a smaller stamp.
  ghost predicate ReaderBefore(s: State, t: nat, u: nat, v: Vid) {
    && t in s.txns && s.txns[t].decided && Overwrites(s, v, t)
    && u in s.txns && u != t && s.txns[u].state == Cmmtd && v in s.txns[u].rset && s.txns[u].cs < s.txns[t].cs
  }

  // No certified writer has missed an earlier reader: its low watermark covers every one.
  ghost predicate NoneMissed(s: State) {
    forall t, u, v :: ReaderBefore(s, t, u, v) ==> s.txns[u].cs <= s.txns[t].pstamp < s.txns[t].sstamp
  }

  /** With positions no certified writer of any run has missed an earlier committed reader. */
  lemma NoReaderMissed(r: seq<State>)
    requires Run(r) && r[0].setup.placed
    ensures NoneMissed(r[|r| - 1])
  {
    var s := r[|r| - 1];
    RunInvariant(r);
    hide Run;
    forall t, u, v | ReaderBefore(s, t, u, v) ensures s.txns[u].cs <= s.txns[t].pstamp < s.txns[t].sstamp {
      ReaderCovered(s, t, u, v);
    }
  }

  lemma ReaderCovered(s: State, t: nat, u: nat, v: Vid)
    requires Inv(s) && s.setup.placed && ReaderBefore(s, t, u, v)
    ensures s.txns[u].cs <= s.txns[t].pstamp < s.txns[t].sstamp
  {
    assert TxnSsn(s, t);
    hide TableInv, SlotInv, AccessInv, KnownInv, SeenInv, BitsInv, PrevInv, ReadsCovered, PointInv, SuccessorInv;
    assert VerInv(s, v.o, v.i + 1);
    OwnTxn(s, t);
    OwnTxn(s, u);
    var j :| 0 <= j < |s.txns[t].wset| && s.txns[t].wset[j] == v.o;
    assert WriteCovered(s, t, v.o) && Earlier(s, t, v, u);
  }
}
