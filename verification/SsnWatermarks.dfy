/**
 The exclusion window is exact: before the last test of certification the low watermark is the
 greatest stamp of a predecessor and the high watermark the least stamp of a successor, so a
 transaction is refused exactly when a predecessor's stamp reaches a successor's.
 */
module SsnWatermarks {
  import opened Stamps
  import opened Engine
  import opened Ssn
  import opened SsnInvariant
  import opened SsnSteps
  import opened SsnRuns
  import opened SsnAnomaly
  import opened SsnAttained
  import opened SsnAttainedSteps

  // ----- the neighbours of a transaction -----

  // `v`, stamped `p`, was read by `t`.
  ghost predicate ReadAt(s: State, t: nat, v: Vid, p: nat)
    requires t in s.txns
  {
    v in s.txns[t].seen && Stamped(s, v) && p == At(s, v).clsn.n
  }

  // The stamp of the creator of something that `t` read or overwrote, or of another certified
  // transaction that read something that `t` overwrote.
  ghost predicate PredStamp(s: State, t: nat, p: nat)
    requires t in s.txns
  {
    (exists v :: ReadAt(s, t, v, p)) || (exists v :: Overwrites(s, v, t) && Access(s, v, t, p))
  }

  // Where versions carry the commit stamps of their writers, the stamp of a version is its creator's.
  lemma ReadAtCreator(s: State, t: nat, v: Vid, p: nat)
    requires Inv(s) && s.setup.stamping.Exact? && t in s.txns && ReadAt(s, t, v, p)
    ensures At(s, v).writer in s.txns && p == s.txns[At(s, v).writer].cs && s.txns[At(s, v).writer].decided
  {
    hide TableInv, SlotInv, AccessInv, TxnSsn, OwnInv, Distinct, TxnInv, SuccessorInv;
    assert VerInv(s, v.o, v.i);
  }

  // Another certified transaction overwrote what `t` read.
  ghost predicate OverwrittenBy(s: State, t: nat, v: Vid, w: nat)
    requires t in s.txns
  {
    v in s.txns[t].seen && w in s.txns && w != t && s.txns[w].decided && Overwrites(s, v, w)
  }

  // The commit stamp of `t`, the high watermark of another certified transaction that overwrote
  // something that `t` read, or the stamp of an invisible version that `t` met.
  ghost predicate SuccStamp(s: State, t: nat, q: nat)
    requires t in s.txns
  {
    || q == s.txns[t].cs
    || (exists v, w :: OverwrittenBy(s, t, v, w) && q == s.txns[w].sstamp)
    || (q in s.txns[t].met && IsStamp(s, q))
  }

  // A predecessor's stamp reaches a successor's.
  ghost predicate Excluded(s: State, t: nat)
    requires t in s.txns
  {
    exists p, q :: PredStamp(s, t, p) && SuccStamp(s, t, q) && p >= q
  }

  ghost predicate AtFinal(s: State, t: nat) {
    t in s.txns && s.txns[t].pc == Certify(Final)
  }

  ghost predicate CanPass(s: State, t: nat) {
    exists s' :: PassExclusion(s, s', t)
  }

  // ----- watermarks are attained -----

  // Past the initialisation of the high watermark, or certified.
  ghost predicate Weighed(x: Txn) {
    x.decided || (x.pc.Certify? && x.pc.c != InitS)
  }

  lemma LeftBy(s: State, t: nat, v: Vid, q: nat)
    requires Inv(s) && t in s.txns && v in s.txns[t].seen && Left(s, t, v, q)
    ensures SuccStamp(s, t, q)
  {
    hide Base, TableInv, SlotInv, AccessInv, TxnSsn;
    LoadedStamp(s, t, v);
    assert OverwrittenBy(s, t, v, s.recs[v.o][v.i + 1].writer);
  }

  lemma HighAttained(s: State, t: nat)
    requires Inv(s) && From(s) && t in s.txns && Weighed(s.txns[t])
    ensures SuccStamp(s, t, s.txns[t].sstamp)
  {
    hide Base, TableInv, SlotInv, AccessInv, KnownInv, SeenInv, BitsInv, PrevInv, ReadsCovered, WritesCovered,
         PointInv, AccessFrom, BitsFrom, LowInv, TrackInv, HandInv, CopyInv, IsStamp;
    assert TxnSsn(s, t) && TxnFrom(s, t);
    var x := s.txns[t];
    if v :| v in x.seen && Left(s, t, v, x.sstamp) { LeftBy(s, t, v, x.sstamp); }
  }

  lemma WeighedTxn(s: State, t: nat)
    requires Base(s) && t in s.txns && Weighed(s.txns[t])
    ensures s.txns[t].state != Abrtd && !s.txns[t].pc.Doomed? && !s.txns[t].pc.Reading?
  {
    hide VerInv, OwnInv, Distinct;
    OwnTxn(s, t);
  }

  lemma LowAttained(s: State, t: nat)
    requires Inv(s) && From(s) && t in s.txns && Weighed(s.txns[t])
    ensures s.txns[t].pstamp == 0 || PredStamp(s, t, s.txns[t].pstamp)
  {
    hide Base, TableInv, SlotInv, AccessInv, TxnSsn, AccessFrom, BitsFrom, HighInv, MetInv, HandInv, CopyInv, Access;
    WeighedTxn(s, t);
    assert TxnFrom(s, t);
    var x := s.txns[t];
    if v :| Takes(s, x, v, x.pstamp) {
      assert ReadAt(s, t, v, x.pstamp);
    } else if v :| Overwrote(s, t, v, x.pstamp) {
      assert Overwrites(s, v, t) && Access(s, v, t, x.pstamp);
    }
  }

  /**
   The watermarks of every certifying or certified transaction of every run are attained: each is the
   stamp of a neighbour in the dependency graph.
   */
  lemma WatermarksAttained(r: seq<State>, t: nat)
    requires Run(r) && t in r[|r| - 1].txns && Weighed(r[|r| - 1].txns[t])
    ensures var s := r[|r| - 1]; var x := s.txns[t];
            SuccStamp(s, t, x.sstamp) && (x.pstamp == 0 || PredStamp(s, t, x.pstamp))
  {
    RunFrom(r);
    HighAttained(r[|r| - 1], t);
    LowAttained(r[|r| - 1], t);
  }

  // ----- watermarks are extreme -----

  // What the invariant says of a transaction before the last test.
  lemma FinalTxn(s: State, t: nat)
    requires Inv(s) && AtFinal(s, t)
    ensures var x := s.txns[t];
            && 0 < x.sstamp <= x.cs && !x.decided && x.state == Committing && x.own == x.marked == Elems(x.wset)
            && KnownInv(s, t) && SeenInv(s, t) && PrevInv(s, t)
            && ReadsCovered(s, t, |x.rset|) && WritesCovered(s, t, |x.wset|)
  {
    hide TableInv, SlotInv, AccessInv, VerInv, OwnInv, Distinct, KnownInv, SeenInv, BitsInv, PrevInv, ReadsCovered,
         WritesCovered, PointInv;
    assert TxnSsn(s, t);
    OwnTxn(s, t);
  }

  lemma CertifiedTxn(s: State, u: nat)
    requires Inv(s) && u in s.txns && s.txns[u].decided
    ensures var x := s.txns[u];
            && 0 < x.cs && x.pstamp < x.sstamp <= x.cs && x.state != Abrtd && SeenInv(s, u)
            && ReadsCovered(s, u, |x.rset|) && WritesCovered(s, u, |x.wset|)
            && (forall o :: Touches(x, o) ==> o in x.wset)
  {
    hide TableInv, SlotInv, AccessInv, VerInv, OwnInv, Distinct, KnownInv, SeenInv, BitsInv, PrevInv, ReadsCovered,
         WritesCovered, PointInv;
    assert TxnSsn(s, u);
    OwnTxn(s, u);
  }

  lemma DistinctStamps(s: State, t: nat, u: nat)
    requires Base(s) && t in s.txns && u in s.txns && t != u && s.txns[t].cs > 0
    ensures s.txns[t].cs != s.txns[u].cs
  {
    hide TxnInv, VerInv, OwnInv;
  }

  lemma Covers(s: State, t: nat, v: Vid)
    requires t in s.txns && v in s.txns[t].rset && ReadsCovered(s, t, |s.txns[t].rset|)
    ensures ReadCovered(s, t, v)
  {
  }

  lemma CoversWrite(s: State, t: nat, o: nat)
    requires t in s.txns && o in s.txns[t].wset && WritesCovered(s, t, |s.txns[t].wset|)
    ensures WriteCovered(s, t, o)
  {
  }

  lemma WriterTouches(s: State, t: nat, v: Vid)
    requires Base(s) && t in s.txns && Overwrites(s, v, t)
    ensures Touches(s.txns[t], v.o) && Stamped(s, v)
  {
    hide OwnInv, Distinct, TxnInv, SuccessorInv;
    assert VerInv(s, v.o, v.i) && VerInv(s, v.o, v.i + 1);
  }

  // Nobody has been certified over a read of `t` with a lower high watermark.
  lemma SuccessorCovered(s: State, t: nat, v: Vid, w: nat)
    requires Inv(s) && s.setup.placed && AtFinal(s, t) && OverwrittenBy(s, t, v, w)
    ensures s.txns[t].sstamp <= s.txns[w].sstamp
  {
    hide Inv, Base, KnownInv, PrevInv, ReadsCovered, WritesCovered;
    FinalTxn(s, t);
    CertifiedTxn(s, w);
    InvBase(s);
    assert Accounted(s, t, v);
    if v in s.txns[t].rset {
      DistinctStamps(s, t, w);
      if s.txns[w].cs < s.txns[t].cs {
        Covers(s, t, v);
        assert Danger(s, t, v, w);
      } else {
        WriterTouches(s, w, v);
        CoversWrite(s, w, v.o);
        assert Earlier(s, w, v, t);
      }
    } else {
      KnownPoint(s, t, v);
      LoadedStamp(s, t, v);
    }
  }

  lemma InvBase(s: State)
    requires Inv(s)
    ensures Base(s) && s.setup.ssn && s.setup.clean
  {
  }

  lemma HighIsLeast(s: State, t: nat, q: nat)
    requires Inv(s) && From(s) && s.setup.placed && AtFinal(s, t) && SuccStamp(s, t, q)
    ensures s.txns[t].sstamp <= q
  {
    hide Inv, Base, KnownInv, SeenInv, PrevInv, ReadsCovered, WritesCovered, AccessFrom, BitsFrom, LowInv, HighInv,
         HandInv, CopyInv, TrackInv;
    FinalTxn(s, t);
    assert TxnFrom(s, t);
    if v, w :| OverwrittenBy(s, t, v, w) && q == s.txns[w].sstamp { SuccessorCovered(s, t, v, w); }
  }

  // A certified reader of what `t` overwrote drew its stamp before `t`, which is not yet certified.
  lemma ReaderFirst(s: State, t: nat, v: Vid, u: nat)
    requires Inv(s) && AtFinal(s, t) && Overwrites(s, v, t) && u != t && ReadBy(s, v, u)
    ensures v in s.txns[u].rset && 0 < s.txns[u].cs < s.txns[t].cs && s.txns[u].state != Abrtd
  {
    hide Inv, Base, KnownInv, PrevInv, ReadsCovered, WritesCovered;
    FinalTxn(s, t);
    CertifiedTxn(s, u);
    InvBase(s);
    DistinctStamps(s, t, u);
    assert Accounted(s, u, v);
    WriterTouches(s, t, v);
    if v !in s.txns[u].rset {
      LoadedStamp(s, t, v);
    } else {
      Covers(s, u, v);
      assert !Danger(s, u, v, t);
    }
  }

  lemma ReaderIsCovered(s: State, t: nat, v: Vid, u: nat)
    requires Inv(s) && s.setup.placed && AtFinal(s, t) && Overwrites(s, v, t) && u != t && ReadBy(s, v, u)
    ensures s.txns[u].cs <= s.txns[t].pstamp
  {
    hide Inv, Base, KnownInv, SeenInv, PrevInv, ReadsCovered, WritesCovered;
    FinalTxn(s, t);
    InvBase(s);
    ReaderFirst(s, t, v, u);
    WriterTouches(s, t, v);
    CoversWrite(s, t, v.o);
    assert Earlier(s, t, v, u);
  }

  lemma LowIsGreatest(s: State, t: nat, p: nat)
    requires Inv(s) && s.setup.placed && AtFinal(s, t) && PredStamp(s, t, p)
    ensures p <= s.txns[t].pstamp
  {
    hide Inv, Base, SeenInv, ReadsCovered, WritesCovered;
    FinalTxn(s, t);
    InvBase(s);
    if v :| ReadAt(s, t, v, p) {
      assert Knows(s.txns[t], v);
    } else {
      var v :| Overwrites(s, v, t) && Access(s, v, t, p);
      WriterTouches(s, t, v);
      if u :| u != t && ReadBy(s, v, u) && p == s.txns[u].cs { ReaderIsCovered(s, t, v, u); }
    }
  }

  // ----- the last test -----

  lemma PassIsTest(s: State, t: nat)
    requires AtFinal(s, t)
    ensures CanPass(s, t) <==> s.txns[t].pstamp < s.txns[t].sstamp
  {
    var s' := SetTxn(s, t, s.txns[t].(pc := Stamping(0, WriteS), decided := true));
    if s.txns[t].pstamp < s.txns[t].sstamp { assert PassExclusion(s, s', t); }
  }

  /** With or without positions, nobody is refused without a predecessor whose stamp reaches a successor's. */
  lemma RefusedForCause(r: seq<State>, t: nat)
    requires Run(r) && AtFinal(r[|r| - 1], t)
    ensures CanPass(r[|r| - 1], t) || Excluded(r[|r| - 1], t)
  {
    var s := r[|r| - 1];
    RunFrom(r);
    hide Run, Inv, From, PredStamp, SuccStamp;
    PassIsTest(s, t);
    FinalBound(s, t);
    HighAttained(s, t);
    LowAttained(s, t);
  }

  lemma FinalBound(s: State, t: nat)
    requires Inv(s) && AtFinal(s, t)
    ensures s.txns[t].sstamp > 0
  {
    hide Inv;
    FinalTxn(s, t);
  }

  /**
   With positions, the transaction passes the last test of certification exactly when no stamp of a
   predecessor reaches a stamp of a successor.
   */
  lemma PassesExactly(r: seq<State>, t: nat)
    requires Run(r) && r[0].setup.placed && AtFinal(r[|r| - 1], t)
    ensures CanPass(r[|r| - 1], t) <==> !Excluded(r[|r| - 1], t)
  {
    var s := r[|r| - 1];
    RefusedForCause(r, t);
    RunFrom(r);
    RunInvariant(r);
    hide Run, Inv, From, PredStamp, SuccStamp;
    PassIsTest(s, t);
    if p, q :| PredStamp(s, t, p) && SuccStamp(s, t, q) && p >= q {
      LowIsGreatest(s, t, p);
      HighIsLeast(s, t, q);
    }
  }

  // ----- without positions -----

  lemma UnawarePasses(p: Setup)
    ensures AtFinal(Unaware(p), 3) && CanPass(Unaware(p), 3) && Excluded(Unaware(p), 3)
  {
    var s := Unaware(p);
    PassIsTest(s, 3);
    assert ReadBy(s, Vid(1, 0), 2) && s.txns[2].cs == 6;
    assert Overwrites(s, Vid(1, 0), 3) && Access(s, Vid(1, 0), 3, 6);
    assert OverwrittenBy(s, 3, Vid(0, 0), 2) && s.txns[2].sstamp == 6;
    assert PredStamp(s, 3, 6) && SuccStamp(s, 3, 6);
  }

  ghost predicate Exact(s: State) {
    forall t :: AtFinal(s, t) ==> (CanPass(s, t) <==> !Excluded(s, t))
  }

  /** The last test is exact in every reachable state if and only if workers hold positions in the bitmaps. */
  lemma ExclusionExactly(p: Setup)
    requires p.ssn && p.clean
    ensures (forall s :: Reached(s, p) ==> Exact(s)) <==> p.placed
  {
    hide Run, CanPass, Excluded;
    if p.placed {
      forall s, t | Reached(s, p) && AtFinal(s, t) ensures CanPass(s, t) <==> !Excluded(s, t) {
        var r :| Ends(r, s, p);
        PassesExactly(r, t);
      }
    } else {
      var r := WriterScans(p);
      UnawarePasses(p);
      assert Reached(Unaware(p), p);
      assert !Exact(Unaware(p));
    }
  }
}
