/**
 When SSI refuses: the access stamps and `ct3` are stamps of transactions that really are in the
 way, so a read, an update or a commit is refused exactly when it could complete a dangerous
 structure.
 */
module SsiExact {
  import opened Stamps
  import opened Ssi
  import opened SsiInvariant

  // ----- stamps that are attained -----

  // `r` read `v` and committed at `q`.
  ghost predicate ReaderAt(s: State, r: nat, v: Vid, q: nat) {
    Committed(s, r) && v in s.txns[r].seen && s.txns[r].end == q
  }

  // The access stamp of a committed version is that of its writer or of a later reader.
  ghost predicate AccessExact(s: State, v: Vid)
    requires Has(s, v)
  {
    At(s, v).clsn.Lsn? && At(s, v).writer in s.txns ==>
      var q := At(s, v).xstamp; var e := s.txns[At(s, v).writer].end;
      q >= e && (q == e || exists r :: ReaderAt(s, r, v, q))
  }

  // `q` is the stamp of a committed overwriter of `v`.
  ghost predicate OverwrittenAt(s: State, v: Vid, q: nat) {
    Has(s, v) && At(s, v).sstamp == Lsn(q)
  }

  // `ct3` is the stamp of a committed overwriter of something seen, for a committed transaction one
  // that committed before it, or of an invisible version met.
  ghost predicate Ct3Exact(s: State, t: nat)
    requires t in s.txns
  {
    var x := s.txns[t];
    && (forall n :: n in x.met ==> 0 < x.ct3 <= n)
    && (x.ct3 != 0 ==>
          || x.ct3 in x.met
          || exists v :: v in x.seen && OverwrittenAt(s, v, x.ct3)
               && (x.state == Cmmtd ==> Settled(s, v) && SettledAt(s, v) < x.end))
  }

  // Without positions nobody is registered.
  ghost predicate BitsExact(s: State) {
    forall v :: Has(s, v) && !s.placed ==> At(s, v).readers == {}
  }

  ghost predicate Exact(s: State) {
    && BitsExact(s)
    && (forall v :: Has(s, v) ==> AccessExact(s, v))
    && (forall t :: t in s.txns && s.txns[t].state != Abrtd ==> Ct3Exact(s, t))
  }

  // ----- what a step leaves -----

  lemma OverwrittenStays(s: State, s': State, drop: int, v: Vid, q: nat)
    requires Inv(s) && Inv(s') && OverwrittenAt(s, v, q) && Keeps(s, s', drop, v) && Past(s, s')
    ensures OverwrittenAt(s', v, q)
    ensures Settled(s, v) && Settled(s', v) && SettledAt(s', v) == SettledAt(s, v)
  {
    VerHolds(s, v.o, v.i);
    VerHolds(s, v.o, v.i + 1);
    var w := At(s, Vid(v.o, v.i + 1)).writer;
    hide Inv;
    assert Overwrote(s, w, v);
    assert Overwrote(s', w, v);
    StillSettled(s', v, q);
  }

  ghost predicate KeepsAll(s: State, s': State, drop: int) {
    Past(s, s') && forall v :: Keeps(s, s', drop, v)
  }

  lemma OtherExact(s: State, s': State, drop: int, u: nat)
    requires Inv(s) && KeepsAll(s, s', drop) && Inv(s') && u in s.txns && u in s'.txns && Ct3Exact(s, u)
    requires s'.txns[u].met == s.txns[u].met && s'.txns[u].ct3 == s.txns[u].ct3 && s.txns[u].seen <= s'.txns[u].seen
    requires s'.txns[u].state == s.txns[u].state && s'.txns[u].end == s.txns[u].end
    ensures Ct3Exact(s', u)
  {
    hide Inv, Keeps;
    var x := s.txns[u];
    if x.ct3 != 0 && x.ct3 !in x.met {
      var v :| v in x.seen && OverwrittenAt(s, v, x.ct3)
               && (x.state == Cmmtd ==> Settled(s, v) && SettledAt(s, v) < x.end);
      OverwrittenStays(s, s', drop, v, x.ct3);
    }
  }

  lemma StillSettled(s: State, v: Vid, q: nat)
    requires Inv(s) && OverwrittenAt(s, v, q)
    ensures Settled(s, v) && At(s, Vid(v.o, v.i + 1)).clsn == Lsn(q)
  {
    VerHolds(s, v.o, v.i);
    VerHolds(s, v.o, v.i + 1);
    hide Inv;
  }

  lemma SameAccess(s: State, s': State, v: Vid)
    requires Inv(s) && Has(s, v) && Has(s', v) && AccessExact(s, v) && Past(s, s')
    requires At(s', v).clsn == At(s, v).clsn && At(s', v).writer == At(s, v).writer
    requires At(s', v).xstamp == At(s, v).xstamp
    ensures AccessExact(s', v)
  {
    if At(s, v).clsn.Lsn? {
      WriterCommitted(s, v);
      hide Inv;
      var q := At(s, v).xstamp;
      if r :| ReaderAt(s, r, v, q) { assert ReaderAt(s', r, v, q); }
    }
  }

  lemma WriterCommitted(s: State, v: Vid)
    requires Inv(s) && Has(s, v) && At(s, v).clsn.Lsn?
    ensures Committed(s, At(s, v).writer)
  {
    assert VerInv(s, v.o, v.i);
  }

  // Committed versions keep their access stamps; the others have none yet.
  ghost predicate AccessKept(s: State, s': State) {
    forall v :: Has(s', v) && At(s', v).clsn.Lsn? ==>
      && Has(s, v) && At(s', v).clsn == At(s, v).clsn && At(s', v).writer == At(s, v).writer
      && At(s', v).xstamp == At(s, v).xstamp
  }

  // A step of `t` that commits nothing.
  lemma ExactStep(s: State, s': State, t: nat, drop: int)
    requires Inv(s) && Exact(s) && Inv(s') && KeepsAll(s, s', drop) && AccessKept(s, s') && BitsExact(s')
    requires forall u :: u in s'.txns && u != t ==> u in s.txns && s'.txns[u] == s.txns[u]
    requires t in s'.txns && s'.txns[t].state != Abrtd ==> Ct3Exact(s', t)
    ensures Exact(s')
  {
    hide Inv, KeepsAll;
    forall u | u in s'.txns && s'.txns[u].state != Abrtd ensures Ct3Exact(s', u) {
      if u != t { OtherExact(s, s', drop, u); }
    }
    assert Past(s, s') by { PastOf(s, s', drop); }
    forall v | Has(s', v) ensures AccessExact(s', v) {
      if At(s', v).clsn.Lsn? { SameAccess(s, s', v); }
    }
  }

  lemma PastOf(s: State, s': State, drop: int)
    requires KeepsAll(s, s', drop)
    ensures Past(s, s')
  {
  }

  // ----- forward processing -----

  lemma SameBits(s: State, s': State)
    requires BitsExact(s) && s'.recs == s.recs && s'.placed == s.placed
    ensures BitsExact(s')
  {
    forall v | Has(s', v) && !s'.placed ensures At(s', v).readers == {} { assert Has(s, v); }
  }

  lemma BeginExact(s: State, s': State, t: nat)
    requires Inv(s) && Exact(s) && Inv(s') && Begin(s, s', t)
    ensures Exact(s')
  {
    hide Inv;
    forall v ensures Keeps(s, s', t, v) { SameKeeps(s, s', v, t); }
    SameBits(s, s');
    ExactStep(s, s', t, t);
  }

  lemma LoseExact(s: State, s': State, n: nat, t: nat)
    requires Inv(s) && Exact(s) && Inv(s') && LoseStamp(s, s', n)
    ensures Exact(s')
  {
    hide Inv;
    forall v ensures Keeps(s, s', -1, v) { SameKeeps(s, s', v, -1); }
    assert KeepsAll(s, s', -1);
    if t in s.txns && s.txns[t].state != Abrtd { OtherExact(s, s', -1, t); }
    SameBits(s, s');
    ExactStep(s, s', t, -1);
  }

  lemma MeetExact(s: State, s': State, t: nat, n: nat)
    requires Inv(s) && Exact(s) && Inv(s') && MeetInvisible(s, s', t, n)
    ensures Exact(s')
  {
    hide Inv;
    forall v ensures Keeps(s, s', -1, v) { SameKeeps(s, s', v, -1); }
    assert Ct3Exact(s, t);
    hide Keeps;
    MeetOwn(s, s', t, n);
    SameBits(s, s');
    ExactStep(s, s', t, -1);
  }

  lemma MeetOwn(s: State, s': State, t: nat, n: nat)
    requires MeetInvisible(s, s', t, n) && Ct3Exact(s, t)
    ensures Ct3Exact(s', t)
  {
    var x := s.txns[t];
    if x.ct3 != 0 && x.ct3 <= n && x.ct3 !in x.met {
      var v :| v in x.seen && OverwrittenAt(s, v, x.ct3);
      assert OverwrittenAt(s', v, x.ct3);
    }
  }

  lemma InsertExact(s: State, s': State, t: nat, o: nat)
    requires Inv(s) && Exact(s) && Inv(s') && Insert(s, s', t, o)
    ensures Exact(s')
  {
    assert TxnInv(s, t) && Ct3Exact(s, t);
    InsertShape(s, s', t, o);
    hide Inv;
    RunsPast(s, s', t);
    forall v ensures Keeps(s, s', -1, v) { SameKeeps(s, s', v, -1); }
    assert KeepsAll(s, s', -1);
    hide Keeps;
    OtherExact(s, s', -1, t);
    InsertAccess(s, s', t, o);
    ExactStep(s, s', t, -1);
  }

  lemma InsertAccess(s: State, s': State, t: nat, o: nat)
    requires Insert(s, s', t, o)
    ensures AccessKept(s, s')
    ensures BitsExact(s) ==> BitsExact(s')
  {
    forall v | BitsExact(s) && Has(s', v) && !s'.placed ensures At(s', v).readers == {} {
      assert Has(s, v) || At(s', v) == Ver(t, Xid(t), Null, 0, 0, {});
    }
  }

  lemma UpdateExactStep(s: State, s': State, t: nat, o: nat)
    requires Inv(s) && Exact(s) && Inv(s') && Update(s, s', t, o)
    ensures Exact(s')
  {
    assert TxnInv(s, t) && Ct3Exact(s, t);
    UpdateShape(s, s', t, o);
    hide Inv;
    RunsPast(s, s', t);
    forall v ensures Keeps(s, s', -1, v) { UpdateKeepsVer(s, s', t, o, v); }
    assert KeepsAll(s, s', -1);
    hide Keeps;
    OtherExact(s, s', -1, t);
    UpdateAccess(s, s', t, o);
    ExactStep(s, s', t, -1);
  }

  lemma UpdateAccess(s: State, s': State, t: nat, o: nat)
    requires Update(s, s', t, o)
    ensures AccessKept(s, s')
    ensures BitsExact(s) ==> BitsExact(s')
  {
    forall v | BitsExact(s) && Has(s', v) && !s'.placed ensures At(s', v).readers == {} {
      assert Has(s, v) || At(s', v) == Ver(t, Xid(t), Null, 0, 0, {});
    }
  }

  lemma ReadExactStep(s: State, s': State, t: nat, v: Vid)
    requires Inv(s) && Exact(s) && Inv(s') && Read(s, s', t, v)
    ensures Exact(s')
  {
    assert TxnInv(s, t) && Ct3Exact(s, t);
    ReadShape(s, s', t, v);
    hide Inv;
    RunsPast(s, s', t);
    forall w ensures Keeps(s, s', -1, w) { ReadKeepsVer(s, s', t, v, w); }
    assert KeepsAll(s, s', -1);
    hide Keeps;
    ReadOwnExact(s, s', t, v);
    ReadAccess(s, s', t, v);
    ExactStep(s, s', t, -1);
  }

  lemma ReadAccess(s: State, s': State, t: nat, v: Vid)
    requires Read(s, s', t, v)
    ensures AccessKept(s, s')
    ensures BitsExact(s) ==> BitsExact(s')
  {
    forall w | BitsExact(s) && Has(s', w) && !s'.placed ensures At(s', w).readers == {} { assert Has(s, w); }
  }

  lemma ReadOwnExact(s: State, s': State, t: nat, v: Vid)
    requires Inv(s) && Inv(s') && Read(s, s', t, v) && Ct3Exact(s, t) && KeepsAll(s, s', -1)
    ensures t in s'.txns && Ct3Exact(s', t)
  {
    hide KeepsAll;
    var x, x' := s.txns[t], s'.txns[t];
    if x'.ct3 != x.ct3 {
      assert OverwrittenAt(s', v, x'.ct3);
      LowerStamp(s, t, v);
    } else {
      hide Inv, Read;
      ReadSame(s, s', t, v);
      OtherExact(s, s', -1, t);
    }
  }

  lemma LowerStamp(s: State, t: nat, v: Vid)
    requires Inv(s) && Has(s, v) && At(s, v).sstamp.Lsn?
    ensures At(s, v).sstamp.n > 0
  {
    StampsArePositive(s, v);
  }

  lemma ReadSame(s: State, s': State, t: nat, v: Vid)
    requires Read(s, s', t, v)
    ensures t in s.txns && t in s'.txns
    ensures var x, x' := s.txns[t], s'.txns[t];
            x'.met == x.met && x.seen <= x'.seen && x'.state == x.state && x'.end == x.end
  {
  }

  // ----- commit and abort -----

  // The access stamps that commit leaves.
  lemma CommitAccess(s: State, s': State, t: nat, n: nat, m: map<nat, nat>, v: Vid)
    requires Commit(s, s', t, n, m) && Has(s, v)
    ensures Has(s', v) && At(s', v).writer == At(s, v).writer
    ensures At(s', v).xstamp == if NewHead(s, t, v) then n
                                else if v in s.txns[t].rset then Max(At(s, v).xstamp, n) else At(s, v).xstamp
  {
    hide FoldCt3, ReadsPass, WritesPass, StampRec, ReleaseRec;
    var x := s.txns[t];
    var c := if v.o in x.wset then StampRec(s.recs[v.o], n, m[v.o], Final(s, t)) else s.recs[v.o];
    assert s'.recs[v.o] == ReleaseRec(c, t, v.o, x.rset, n);
    StampsOne(s, t, n, m, v, c);
    Releases(c, t, v, x.rset, n);
  }

  lemma CommitAccessExact(s: State, s': State, t: nat, n: nat, m: map<nat, nat>, v: Vid)
    requires Inv(s) && Commit(s, s', t, n, m) && Has(s, v) && AccessExact(s, v)
    ensures Has(s', v) && AccessExact(s', v)
  {
    hide Inv, Commit, AccessExact, Finished;
    CommitAccess(s, s', t, n, m, v);
    CommitFinishes(s, s', t, n, m, v);
    CommitTxns(s, s', t, n, m);
    CommitPast(s, s', t, n, m);
    TxnHolds(s, t);
    if NewHead(s, t, v) {
      HeadsAreMine(s, t, v.o);
      NewAccess(s', t, v);
    } else if v in s.txns[t].rset {
      SeenStamped(s, t, v);
      WriterBelow(s, v);
      ReadAccessed(s, s', t, n, m, v);
    } else {
      OldStamp(s, s', t, n, m, v);
      SameAccess(s, s', v);
    }
  }

  lemma NewAccess(s: State, t: nat, v: Vid)
    requires Has(s, v) && At(s, v).writer == t && t in s.txns && At(s, v).xstamp == s.txns[t].end
    ensures AccessExact(s, v)
  {
  }

  lemma SeenStamped(s: State, t: nat, v: Vid)
    requires t in s.txns && TxnInv(s, t) && s.txns[t].state == Active && v in s.txns[t].rset
    ensures v in s.txns[t].seen && Has(s, v) && At(s, v).clsn.Lsn?
  {
    SeenExists(s, t, v);
  }

  lemma OldStamp(s: State, s': State, t: nat, n: nat, m: map<nat, nat>, v: Vid)
    requires Has(s, v) && Finished(s, s', t, n, m, v) && !NewHead(s, t, v)
    ensures At(s', v).clsn == At(s, v).clsn
  {
  }

  lemma ReadAccessed(s: State, s': State, t: nat, n: nat, m: map<nat, nat>, v: Vid)
    requires Has(s, v) && Has(s', v) && t in s.txns && v in s.txns[t].seen && At(s, v).clsn.Lsn?
    requires AccessExact(s, v) && Past(s, s') && n > s.clock
    requires s'.txns == s.txns[t := s.txns[t].(end := n, state := Cmmtd, ct3 := Final(s, t))]
    requires At(s', v).writer == At(s, v).writer && At(s', v).xstamp == Max(At(s, v).xstamp, n)
    requires Committed(s, At(s, v).writer) && s.txns[At(s, v).writer].end <= s.clock
    ensures AccessExact(s', v)
  {
    hide Final;
    var q := At(s, v).xstamp;
    if q > n {
      if r :| ReaderAt(s, r, v, q) { assert ReaderAt(s', r, v, q); }
    } else {
      assert ReaderAt(s', t, v, n);
    }
  }

  lemma WriterBelow(s: State, v: Vid)
    requires Inv(s) && Has(s, v) && At(s, v).clsn.Lsn?
    ensures Committed(s, At(s, v).writer) && s.txns[At(s, v).writer].end <= s.clock
  {
    assert VerInv(s, v.o, v.i);
  }

  lemma CommitPast(s: State, s': State, t: nat, n: nat, m: map<nat, nat>)
    requires Commit(s, s', t, n, m)
    ensures Past(s, s')
  {
    CommitTxns(s, s', t, n, m);
    hide Commit;
  }

  // The fold yields what it started from or the stamp of one of the overwriters.
  lemma {:induction false} FoldIsAttained(s: State, rs: seq<Vid>, ct3: nat)
    ensures var c := FoldCt3(s, rs, ct3); c == ct3 || exists v :: v in rs && OverwrittenAt(s, v, c)
  {
    if rs != [] {
      var k := |rs| - 1;
      assert rs == rs[..k] + [rs[k]];
      FoldIsAttained(s, rs[..k], ct3);
      var c := FoldCt3(s, rs, ct3);
      if c == FoldCt3(s, rs[..k], ct3) {
        if c != ct3 {
          var v :| v in rs[..k] && OverwrittenAt(s, v, c);
          assert v in rs;
        }
      } else {
        assert OverwrittenAt(s, rs[k], c);
      }
    }
  }

  lemma CommitOwnExact(s: State, s': State, t: nat, n: nat, m: map<nat, nat>)
    requires Inv(s) && Inv(s') && Commit(s, s', t, n, m) && Ct3Exact(s, t) && KeepsAll(s, s', t)
    ensures t in s'.txns && Ct3Exact(s', t)
  {
    hide Inv, Commit, FoldCt3, KeepsAll;
    CommitTxns(s, s', t, n, m);
    var x := s.txns[t];
    var c := Final(s, t);
    TxnHolds(s, t);
    FoldLow(s, t);
    FoldIsAttained(s, x.rset, x.ct3);
    if c != 0 && c !in x.met {
      var v :| v in x.seen && OverwrittenAt(s, v, c);
      CommitWitness(s, s', t, n, m, v, c);
    }
  }

  lemma FoldLow(s: State, t: nat)
    requires Inv(s) && t in s.txns
    ensures s.txns[t].ct3 > 0 ==> 0 < Final(s, t) <= s.txns[t].ct3
    ensures forall v :: v in s.txns[t].rset && Has(s, v) && At(s, v).sstamp.Lsn? ==>
              0 < Final(s, t) <= At(s, v).sstamp.n
  {
    hide Inv;
    forall w | w in s.txns[t].rset && Has(s, w) && At(s, w).sstamp.Lsn? ensures At(s, w).sstamp.n > 0 {
      StampsArePositive(s, w);
    }
    FoldIsLow(s, s.txns[t].rset, s.txns[t].ct3);
  }

  lemma CommitWitness(s: State, s': State, t: nat, n: nat, m: map<nat, nat>, v: Vid, c: nat)
    requires Inv(s) && Inv(s') && Commit(s, s', t, n, m) && OverwrittenAt(s, v, c) && KeepsAll(s, s', t)
    ensures OverwrittenAt(s', v, c) && Settled(s', v) && SettledAt(s', v) < n
  {
    CommitTxns(s, s', t, n, m);
    hide Inv, Commit;
    OverwrittenStays(s, s', t, v, c);
    SettledBelow(s, v);
  }

  lemma SettledBelow(s: State, v: Vid)
    requires Inv(s) && Settled(s, v)
    ensures SettledAt(s, v) <= s.clock
  {
    assert VerInv(s, v.o, v.i + 1);
  }

  lemma CommitExact(s: State, s': State, t: nat, n: nat, m: map<nat, nat>)
    requires Inv(s) && Exact(s) && Inv(s') && Commit(s, s', t, n, m)
    ensures Exact(s')
  {
    hide Inv, Commit, Keeps, Ct3Exact, AccessExact;
    CommitTxns(s, s', t, n, m);
    CommitPast(s, s', t, n, m);
    forall v ensures Keeps(s, s', t, v) { CommitKeepsVer(s, s', t, n, m, v); }
    assert KeepsAll(s, s', t);
    assert Ct3Exact(s, t);
    CommitOwnExact(s, s', t, n, m);
    forall u | u in s'.txns && s'.txns[u].state != Abrtd ensures Ct3Exact(s', u) {
      if u != t { OtherExact(s, s', t, u); }
    }
    forall v | Has(s', v) ensures AccessExact(s', v) {
      CommitFinishes(s, s', t, n, m, v);
      CommitAccessExact(s, s', t, n, m, v);
    }
    forall v | Has(s', v) && !s'.placed ensures At(s', v).readers == {} { CommitFinishes(s, s', t, n, m, v); }
  }

  lemma AbortExact(s: State, s': State, t: nat)
    requires Inv(s) && Exact(s) && Inv(s') && Abort(s, s', t)
    ensures Exact(s')
  {
    hide Inv, LeaveRec, UnlinkRec, Keeps;
    forall v ensures Keeps(s, s', t, v) { AbortKeepsVer(s, s', t, v); }
    assert KeepsAll(s, s', t);
    AbortAccess(s, s', t);
    ExactStep(s, s', t, t);
  }

  lemma AbortAccess(s: State, s': State, t: nat)
    requires Abort(s, s', t)
    ensures AccessKept(s, s')
    ensures BitsExact(s) ==> BitsExact(s')
  {
    forall v | Has(s', v) && BitsExact(s) && !s.placed ensures At(s', v).readers == {} { AbortLeaves(s, s', t, v); }
    forall v | Has(s', v) && At(s', v).clsn.Lsn?
      ensures && Has(s, v) && At(s', v).clsn == At(s, v).clsn && At(s', v).writer == At(s, v).writer
              && At(s', v).xstamp == At(s, v).xstamp
    {
      AbortLeaves(s, s', t, v);
    }
  }

  lemma StepExact(s: State, s': State, t: nat)
    requires Inv(s) && Exact(s) && Step(s, s', t)
    ensures Inv(s') && Exact(s')
  {
    StepKeeps(s, s', t);
    hide Inv, Exact, Begin, LoseStamp, MeetInvisible, Read, Insert, Update, Commit, Abort;
    if Begin(s, s', t) {
      BeginExact(s, s', t);
    } else if n :| LoseStamp(s, s', n) {
      LoseExact(s, s', n, t);
    } else if n :| MeetInvisible(s, s', t, n) {
      MeetExact(s, s', t, n);
    } else if v :| Read(s, s', t, v) {
      ReadExactStep(s, s', t, v);
    } else if o :| Insert(s, s', t, o) {
      InsertExact(s, s', t, o);
    } else if o :| Update(s, s', t, o) {
      UpdateExactStep(s, s', t, o);
    } else if n, m :| Commit(s, s', t, n, m) {
      CommitExact(s, s', t, n, m);
    } else {
      AbortExact(s, s', t);
    }
  }

  /** In every state of every run access stamps and `ct3` are attained. */
  lemma {:induction false} RunExact(r: seq<State>)
    requires Run(r)
    ensures Inv(r[|r| - 1]) && Exact(r[|r| - 1])
  {
    hide Step;
    if |r| == 1 {
      InitHolds(r[0]);
    } else {
      var k := |r| - 1;
      RunExact(r[..k]);
      assert Next(r[k - 1], r[k]);
      hide Inv, Exact;
      var t :| Step(r[k - 1], r[k], t);
      StepExact(r[k - 1], r[k], t);
    }
  }
}
