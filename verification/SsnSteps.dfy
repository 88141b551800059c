/** Every step of `Ssn` keeps the invariant, hence it holds in every state of every run. */
module SsnSteps {
  import opened Stamps
  import opened Engine
  import opened Ssn
  import opened SsnInvariant

  // ----- forward processing: nothing is checked yet -----

  ghost predicate Forward(x: Txn) {
    x.state == Active && x.cs == 0 && !x.decided && !x.pc.Certify? && !x.pc.Post?
  }

  // What remains to be shown for a transaction in forward processing.
  lemma ForwardTxn(s: State, t: nat)
    requires t in s.txns && Forward(s.txns[t]) && TxnInv(s.txns[t], s.clock)
    requires KnownInv(s, t) && SeenInv(s, t) && BitsInv(s, t) && PrevInv(s, t) && PointInv(s, t)
    requires s.txns[t].sstamp <= s.clock && s.setup.ssn && s.setup.clean
    ensures TxnSsn(s, t)
  {
  }

  lemma BeginOwn(s: State, s': State, t: nat, q: nat)
    requires BeginTxn(s, s', t, q) && Base(s) && s.setup.ssn && s.setup.clean
    ensures TxnSsn(s', t)
  {
    hide TxnInv, OwnInv, Distinct, CertInv, SuccessorInv;
    forall v ensures !Overwrites(s', v, t) {
      if v.o in s.recs && v.i + 1 < |s.recs[v.o]| { assert VerInv(s, v.o, v.i + 1); }
    }
  }

  // The actor's chains are as before, so everything but reader bits carries over.
  lemma ActorCarry(s: State, s': State, t: nat)
    requires Evolve(s, s', t) && Base(s) && Base(s') && t in s.txns && TxnSsn(s, t)
    requires var x, x' := s.txns[t], s'.txns[t];
             && x'.cs == x.cs && x'.rset == x.rset && x'.seen == x.seen && x.wset <= x'.wset && x.pstamp <= x'.pstamp
             && (x'.sstamp == x.sstamp || 0 < x'.sstamp <= x.sstamp)
             && x'.state == x.state
             && !(x.pc.Updating? && x.pc.p == TakeX) && (forall v :: Knows(x', v) ==> Knows(x, v))
    requires forall v :: Overwrites(s', v, t) <==> Overwrites(s, v, t)
    ensures KnownInv(s', t) && SeenInv(s', t) && PrevInv(s', t)
    ensures ReadsCovered(s', t, Checked(s.txns[t])) && WritesCovered(s', t, Scanned(s.txns[t]))
  {
    hide VerInv, OwnInv, Distinct, ReadsCovered, WritesCovered, SeenInv, PrevInv, KnownInv, PointInv, Keeps, Grows;
    var x := s.txns[t];
    OwnTxn(s, t);
    BaseIsSane(s);
    KnownCarry(s, s', t, t);
    SeenCarry(s, s', t, t);
    PrevCarry(s, s', t, t);
    ReadsCoveredCarry(s, s', t, t, Checked(x));
    WritesCoveredCarry(s, s', t, t, Scanned(x));
  }

  lemma InsertOwn(s: State, s': State, t: nat, o: nat)
    requires Insert(s, s', t, o) && Base(s) && Base(s') && Evolve(s, s', t) && TxnSsn(s, t)
    ensures TxnSsn(s', t)
  {
    hide VerInv, OwnInv, Distinct, Evolve, SeenInv, PrevInv, KnownInv, ReadsCovered, WritesCovered, BitsInv;
    OwnTxn(s, t);
    OwnTxn(s', t);
    ActorCarry(s, s', t);
    assert BitsKept(s, s', s.txns[t].slot);
    BitsCarry(s, s', t, t);
    ForwardTxn(s', t);
  }

  lemma InstallOwn(s: State, s': State, t: nat, o: nat)
    requires Install(s, s', t, o) && Base(s) && Base(s') && Evolve(s, s', t) && TxnSsn(s, t)
    ensures TxnSsn(s', t)
  {
    hide VerInv, OwnInv, Distinct, Evolve, SeenInv, KnownInv, ReadsCovered, WritesCovered, BitsInv;
    OwnTxn(s, t);
    OwnTxn(s', t);
    KnownCarry(s, s', t, t);
    SeenCarry(s, s', t, t);
    assert BitsKept(s, s', s.txns[t].slot);
    BitsCarry(s, s', t, t);
    forall v | Overwrites(s', v, t) && Stamped(s', v) && v.o != o
      ensures Born(s', v) <= s'.txns[t].pstamp
    {
      assert Overwrites(s, v, t) && Stamped(s, v);
    }
    ForwardTxn(s', t);
  }

  lemma EarlyUnlinkOwn(s: State, s': State, t: nat)
    requires EarlyUnlink(s, s', t) && Base(s) && Base(s') && Evolve(s, s', t) && TxnSsn(s, t)
    ensures TxnSsn(s', t)
  {
    hide VerInv, OwnInv, Distinct, Evolve, SeenInv, PrevInv, KnownInv, ReadsCovered, WritesCovered, BitsInv;
    OwnTxn(s, t);
    OwnTxn(s', t);
    SoleOwner(s, t, s.txns[t].pc.o);
    TakeBackKeepsReads(s, s', t);
    KnownCarry(s, s', t, t);
    SeenCarry(s, s', t, t);
    PrevCarry(s, s', t, t);
    BitsCarry(s, s', t, t);
    ForwardTxn(s', t);
  }

  lemma TakeBackKeepsReads(s: State, s': State, t: nat)
    requires TakeBack(s, s', t) && TxnInv(s.txns[t], s.clock)
    requires s.recs[s.txns[t].pc.o][|s.recs[s.txns[t].pc.o]| - 1].clsn == Xid(t)
    ensures forall v :: Overwrites(s', v, t) ==> Overwrites(s, v, t)
    ensures forall v :: Overwrites(s, v, t) && v.o in s.txns[t].wset ==> Overwrites(s', v, t)
    ensures BitsKept(s, s', s.txns[t].slot)
  {
  }

  lemma RewriteOwn(s: State, s': State, t: nat, o: nat)
    requires Rewrite(s, s', t, o) && Base(s) && Base(s') && Evolve(s, s', t) && TxnSsn(s, t)
    ensures TxnSsn(s', t)
  {
    hide VerInv, OwnInv, Distinct, Evolve, SeenInv, KnownInv, ReadsCovered, WritesCovered, BitsInv, PrevInv;
    OwnTxn(s, t);
    StoreOwn(s, s', t);
  }

  lemma MeetInvisibleOwn(s: State, s': State, t: nat, n: nat)
    requires MeetInvisible(s, s', t, n) && Base(s) && Base(s') && Evolve(s, s', t) && TxnSsn(s, t)
    ensures TxnSsn(s', t)
  {
    hide VerInv, OwnInv, Distinct, Evolve, SeenInv, KnownInv, ReadsCovered, WritesCovered, BitsInv, PrevInv;
    OwnTxn(s, t);
    StoreOwn(s, s', t);
  }

  lemma ReadPickOwn(s: State, s': State, t: nat, v: Vid)
    requires ReadPick(s, s', t, v) && Base(s) && Base(s') && Evolve(s, s', t) && TxnSsn(s, t)
    ensures TxnSsn(s', t)
  {
    hide VerInv, OwnInv, Distinct, Evolve, SeenInv, ReadsCovered, WritesCovered, BitsInv, PrevInv;
    OwnTxn(s, t);
    OwnTxn(s', t);
    forall w | Knows(s'.txns[t], w) ensures Stamped(s', w) && At(s', w).clsn.n <= s'.txns[t].pstamp {
      assert w == v || Knows(s.txns[t], w);
    }
    SeenCarry(s, s', t, t);
    assert BitsKept(s, s', s.txns[t].slot);
    BitsCarry(s, s', t, t);
    PrevCarry(s, s', t, t);
    ForwardTxn(s', t);
  }

  lemma ReadStampOwn(s: State, s': State, t: nat)
    requires ReadStamp(s, s', t) && Base(s) && Base(s') && Evolve(s, s', t) && TxnSsn(s, t)
    requires forall u :: u in s.txns ==> BoundInv(s.txns[u], s.clock)
    ensures TxnSsn(s', t)
  {
    hide VerInv, OwnInv, Distinct, Evolve, SeenInv, ReadsCovered, WritesCovered, BitsInv, PrevInv, KnownInv;
    var x, x' := s.txns[t], s'.txns[t];
    var v := x.pc.v;
    OwnTxn(s, t);
    OwnTxn(s', t);
    KnownPoint(s, t, v);
    ReadStampFinds(s, s', t);
    KnownCarry(s, s', t, t);
    SeenCarry(s, s', t, t);
    assert BitsKept(s, s', x.slot);
    BitsCarry(s, s', t, t);
    PrevCarry(s, s', t, t);
    ForwardTxn(s', t);
  }

  lemma KnownPoint(s: State, t: nat, v: Vid)
    requires t in s.txns && KnownInv(s, t) && Knows(s.txns[t], v)
    ensures Stamped(s, v)
  {
  }

  // What the stamp load of a read establishes.
  lemma ReadStampFinds(s: State, s': State, t: nat)
    requires ReadStamp(s, s', t) && Base(s) && Stamped(s, s.txns[t].pc.v) && s.txns[t].sstamp <= s.clock
               && s.txns[t].cs == 0
    requires s.setup.ssn && s.setup.clean
    requires forall u :: u in s.txns ==> BoundInv(s.txns[u], s.clock)
    ensures s'.txns[t].sstamp <= s'.clock
    ensures var x, x' := s.txns[t], s'.txns[t]; x.sstamp == 0 || 0 < x'.sstamp <= x.sstamp
    ensures s'.txns[t].pc == Idle ==> Accounted(s', t, s.txns[t].pc.v)
  {
    hide VerInv, OwnInv, Distinct, TxnInv;
    var v := s.txns[t].pc.v;
    LoadedStamp(s, t, v);
    if At(s, v).sstamp.Lsn? {
      var w := s.recs[v.o][v.i + 1].writer;
      assert BoundInv(s.txns[w], s.clock);
    } else if At(s, v).sstamp == Xid(t) {
      XidNamesOverwriter(s, v);
      ReadingMarks(s, t);
    }
  }

  lemma ReadingMarks(s: State, t: nat)
    requires Base(s) && t in s.txns && s.txns[t].pc.Reading?
    ensures s.txns[t].marked == Elems(s.txns[t].wset)
  {
    hide VerInv, OwnInv, Distinct;
    OwnTxn(s, t);
  }

  lemma XidNamesOverwriter(s: State, v: Vid)
    requires Base(s) && Has(s, v) && At(s, v).sstamp.Xid? && s.setup.clean
    ensures Overwrites(s, v, At(s, v).sstamp.t)
    ensures At(s, v).sstamp.t in s.txns && v.o in s.txns[At(s, v).sstamp.t].marked
  {
    assert VerInv(s, v.o, v.i);
  }

  lemma ReadPushOwn(s: State, s': State, t: nat)
    requires ReadPush(s, s', t) && Base(s) && Base(s') && Evolve(s, s', t) && TxnSsn(s, t)
    ensures TxnSsn(s', t)
  {
    hide VerInv, OwnInv, Distinct, Evolve, SeenInv, ReadsCovered, WritesCovered, PrevInv, KnownInv;
    OwnTxn(s, t);
    OwnTxn(s', t);
    KnownCarry(s, s', t, t);
    SeenCarry(s, s', t, t);
    PrevCarry(s, s', t, t);
    ForwardTxn(s', t);
  }

  lemma ReadRegisterOwn(s: State, s': State, t: nat)
    requires ReadRegister(s, s', t) && Base(s) && Base(s') && Evolve(s, s', t) && TxnSsn(s, t)
    requires forall w :: Overwrites(s', w, t) <==> Overwrites(s, w, t)
    ensures TxnSsn(s', t)
  {
    hide VerInv, OwnInv, Distinct, Evolve, SeenInv, ReadsCovered, WritesCovered, PrevInv, KnownInv;
    OwnTxn(s, t);
    OwnTxn(s', t);
    KnownCarry(s, s', t, t);
    SeenCarry(s, s', t, t);
    PrevCarry(s, s', t, t);
    RegisterBits(s, s', t);
    ForwardTxn(s', t);
  }

  lemma RegisterBits(s: State, s': State, t: nat)
    requires ReadRegister(s, s', t) && BitsInv(s, t) && PointInv(s, t) && s.txns[t].cs == 0 && s.txns[t].state == Active
    ensures BitsInv(s', t)
  {
    var x, x' := s.txns[t], s'.txns[t];
    forall k | s.setup.placed && 0 <= k < |x'.rset|
      ensures Has(s', x'.rset[k]) && x'.slot in At(s', x'.rset[k]).readers
    {
      assert k < |x.rset| - 1 ==> Has(s, x.rset[k]);
    }
  }

  lemma TakeXOwn(s: State, s': State, t: nat)
    requires UpdateTakeX(s, s', t) && Base(s) && Base(s') && Evolve(s, s', t) && TxnSsn(s, t) && AccessInv(s)
    ensures TxnSsn(s', t)
  {
    hide VerInv, OwnInv, Distinct, Evolve, SeenInv, ReadsCovered, WritesCovered, BitsInv, KnownInv;
    OwnTxn(s, t);
    OwnTxn(s', t);
    KnownCarry(s, s', t, t);
    SeenCarry(s, s', t, t);
    assert BitsKept(s, s', s.txns[t].slot);
    BitsCarry(s, s', t, t);
    OnlyHead(s, t, s.txns[t].pc.o);
    forall v | Overwrites(s', v, t) && Stamped(s', v) ensures Born(s', v) <= s'.txns[t].pstamp {
      assert Overwrites(s, v, t) && Stamped(s, v);
    }
    ForwardTxn(s', t);
  }

  // A store in a version's stamps that leaves its owner's reads and writes alone.
  lemma ForwardVersionOwn(s: State, s': State, t: nat)
    requires UpdateCopyX(s, s', t) || MarkSuccessor(s, s', t)
    requires Base(s) && Base(s') && Evolve(s, s', t) && TxnSsn(s, t)
    requires forall w :: Overwrites(s', w, t) <==> Overwrites(s, w, t)
    ensures TxnSsn(s', t)
  {
    hide VerInv, OwnInv, Distinct, Evolve, SeenInv, ReadsCovered, WritesCovered, BitsInv, KnownInv, PrevInv,
         Overwrites;
    OwnTxn(s, t);
    OwnTxn(s', t);
    ActorCarry(s, s', t);
    assert BitsKept(s, s', s.txns[t].slot);
    BitsCarry(s, s', t, t);
    ForwardTxn(s', t);
  }

  lemma DrawKnown(s: State, s': State, t: nat, n: nat)
    requires Draw(s, s', t, n) && Base(s) && KnownInv(s, t)
    ensures KnownInv(s', t)
  {
    hide OwnInv, Distinct, SuccessorInv;
    forall v | Knows(s'.txns[t], v)
      ensures Stamped(s', v) && At(s', v).clsn.n <= s'.txns[t].pstamp && Born(s', v) < n
    {
      assert Knows(s.txns[t], v);
      assert VerInv(s, v.o, v.i);
      assert TxnInv(s.txns[At(s, v).writer], s.clock);
    }
  }

  // A stamp in a version was left by a decided overwriter.
  lemma SettledByOther(s: State, t: nat, v: Vid)
    requires Base(s) && t in s.txns && !s.txns[t].decided && Has(s, v) && v.i + 1 < |s.recs[v.o]|
               && At(s, v).sstamp.Lsn?
    requires s.setup.clean
    ensures s.recs[v.o][v.i + 1].writer != t
  {
    hide TxnInv, OwnInv, Distinct;
    assert VerInv(s, v.o, v.i);
  }

  lemma DrawSeen(s: State, s': State, t: nat, n: nat)
    requires Draw(s, s', t, n) && Base(s) && SeenInv(s, t)
    requires s.setup.clean
    ensures SeenInv(s', t)
  {
    hide OwnInv, Distinct, SuccessorInv, VerInv;
    OwnTxn(s, t);
    forall v | v in s'.txns[t].seen ensures Accounted(s', t, v) {
      assert Accounted(s, t, v);
      if Settled(s, s.txns[t], v) {
        var w := s.recs[v.o][v.i + 1].writer;
        assert TxnInv(s.txns[w], s.clock);
        SettledByOther(s, t, v);
      } else {
        assert Overwrites(s, v, t) ==> Overwrites(s', v, t);
      }
    }
  }

  lemma DrawOwn(s: State, s': State, t: nat, n: nat)
    requires Draw(s, s', t, n) && Base(s) && Base(s') && Evolve(s, s', t) && TxnSsn(s, t)
    ensures TxnSsn(s', t)
  {
    hide Base, Evolve, SeenInv, KnownInv, PrevInv, Born;
    OwnTxn(s, t);
    PrevCarry(s, s', t, t);
    DrawKnown(s, s', t, n);
    DrawSeen(s, s', t, n);
  }

  // ----- the decided transaction -----

  // What a stamping step leaves of its transaction and of everybody's bits.
  lemma StampContext(s: State, s': State, t: nat)
    requires StampSuccessor(s, s', t) || StampX(s, s', t) || StampClsn(s, s', t)
    ensures t in s.txns && t in s'.txns && s'.setup == s.setup && s'.clock == s.clock
    ensures var x, x' := s.txns[t], s'.txns[t];
            && x.pc.Stamping? && x'.pc.Stamping? && x'.pc.j <= |x.wset|
            && x' == x.(pc := x'.pc, marked := x'.marked, own := x'.own)
    ensures BitsKept(s, s', s.txns[t].slot) && PointInv(s', t)
  {
  }

  lemma StampOwn(s: State, s': State, t: nat)
    requires StampSuccessor(s, s', t) || StampX(s, s', t) || StampClsn(s, s', t)
    requires Base(s) && Base(s') && Evolve(s, s', t) && TxnSsn(s, t)
    requires forall w :: Overwrites(s', w, t) <==> Overwrites(s, w, t)
    ensures TxnSsn(s', t)
  {
    hide Base, Evolve, SeenInv, ReadsCovered, WritesCovered, BitsInv, KnownInv, PrevInv, Overwrites, CertInv,
         StampSuccessor, StampX, StampClsn;
    StampContext(s, s', t);
    OwnTxn(s, t);
    OwnTxn(s', t);
    ActorCarry(s, s', t);
    BitsCarry(s, s', t, t);
  }

  lemma PostWaitOwn(s: State, s': State, t: nat)
    requires PostWait(s, s', t) && Base(s) && Base(s') && Evolve(s, s', t) && TxnSsn(s, t)
    ensures TxnSsn(s', t)
  {
    hide Base, Evolve, SeenInv, ReadsCovered, WritesCovered, BitsInv, KnownInv, PrevInv, CertInv, PointInv;
    OwnTxn(s, t);
    BaseIsSane(s);
    PostLoad(s, s', t);
    StoreOwn(s, s', t);
  }

  lemma PostLoad(s: State, s': State, t: nat)
    requires PostWait(s, s', t) && Base(s) && Sane(s) && PointInv(s, t) && BoundInv(s.txns[t], s.clock)
    requires s.setup.clean
    ensures StoreStep(s, s', t)
  {
    OwnTxn(s, t);
    var x := s.txns[t];
    if x.pc.i < |x.rset| {
      var v := x.rset[x.pc.i];
      if x.pc.q == PLoad && At(s, v).sstamp.Xid? { XidIsTxn(s, v); }
      if x.pc.q.PEnd? { assert SaneTxn(s.txns[x.pc.q.u], s.clock); }
      PostPoint(s, s', t);
    }
    hide Base, CertInv, Sane;
  }

  lemma PostPoint(s: State, s': State, t: nat)
    requires PostWait(s, s', t) && PointInv(s, t) && BoundInv(s.txns[t], s.clock) && s.txns[t].pc.i < |s.txns[t].rset|
    requires s.txns[t].cs > 0 && s.txns[t].decided
    requires s.txns[t].pc.q == PLoad && At(s, s.txns[t].rset[s.txns[t].pc.i]).sstamp.Xid? ==>
               At(s, s.txns[t].rset[s.txns[t].pc.i]).sstamp.t in s.txns
    requires s.txns[t].pc.q.PEnd? && s.txns[t].pc.q.u in s.txns ==> SaneTxn(s.txns[s.txns[t].pc.q.u], s.clock)
    ensures StoreStep(s, s', t)
  {
    hide CertInv, Elems, Checked, Scanned;
    PostWaitMoves(s, s', t);
    PostCounts(s, s', t);
  }

  lemma PostCounts(s: State, s': State, t: nat)
    requires t in s.txns && t in s'.txns && s.txns[t].decided
    requires s'.txns[t] == s.txns[t].(pc := s'.txns[t].pc)
    ensures Checked(s'.txns[t]) == Checked(s.txns[t]) && Scanned(s'.txns[t]) == Scanned(s.txns[t])
  {
  }

  lemma XidIsTxn(s: State, v: Vid)
    requires Base(s) && Has(s, v) && At(s, v).sstamp.Xid? && s.setup.clean
    ensures At(s, v).sstamp.t in s.txns
  {
    assert VerInv(s, v.o, v.i);
  }

  lemma PostSetXOwn(s: State, s': State, t: nat)
    requires PostSetX(s, s', t) && Base(s) && Base(s') && Evolve(s, s', t) && TxnSsn(s, t)
    requires forall w :: Overwrites(s', w, t) <==> Overwrites(s, w, t)
    ensures TxnSsn(s', t)
  {
    hide VerInv, OwnInv, Distinct, Evolve, SeenInv, ReadsCovered, WritesCovered, BitsInv, KnownInv, PrevInv,
         Overwrites, CertInv;
    OwnTxn(s, t);
    ActorCarry(s, s', t);
    assert BitsKept(s, s', s.txns[t].slot);
    BitsCarry(s, s', t, t);
  }

  lemma PostClearOwn(s: State, s': State, t: nat)
    requires PostClear(s, s', t) && Base(s) && Base(s') && Evolve(s, s', t) && TxnSsn(s, t)
    requires forall w :: Overwrites(s', w, t) <==> Overwrites(s, w, t)
    ensures TxnSsn(s', t)
  {
    hide VerInv, OwnInv, Distinct, Evolve, SeenInv, ReadsCovered, WritesCovered, BitsInv, KnownInv, PrevInv,
         Overwrites, CertInv;
    OwnTxn(s, t);
    ActorCarry(s, s', t);
    ClearBits(s, s', t);
  }

  // Leaving the bitmap is harmless once the access stamp covers the reader.
  lemma ClearBits(s: State, s': State, t: nat)
    requires PostClear(s, s', t) && BitsInv(s, t) && PointInv(s, t) && TxnInv(s.txns[t], s.clock)
    ensures BitsInv(s', t)
  {
    var x, x' := s.txns[t], s'.txns[t];
    forall k | s.setup.placed && 0 <= k < |x'.rset|
      ensures && Has(s', x'.rset[k])
              && ((k >= Open(x') && x'.slot in At(s', x'.rset[k]).readers) || 0 < x'.cs <= At(s', x'.rset[k]).xstamp)
    {
      assert Has(s, x.rset[k]);
    }
  }

  // ----- the aborting transaction -----

  lemma AbortOwn(s: State, s': State, t: nat)
    requires UndoRead(s, s', t) || ReadsUndone(s, s', t) || UndoSuccessor(s, s', t) || Unlink(s, s', t)
    requires Base(s) && Base(s') && Evolve(s, s', t) && TxnSsn(s, t)
    ensures TxnSsn(s', t)
  {
    hide Base, Evolve, KnownInv, PointInv;
    OwnTxn(s, t);
    AbortPoint(s, s', t);
    hide TxnInv;
    KnownCarry(s, s', t, t);
  }

  lemma AbortPoint(s: State, s': State, t: nat)
    requires UndoRead(s, s', t) || ReadsUndone(s, s', t) || UndoSuccessor(s, s', t) || Unlink(s, s', t)
    requires t in s.txns && TxnInv(s.txns[t], s.clock)
    ensures t in s'.txns && PointInv(s', t) && s'.clock == s.clock && s'.txns[t].pc != Updating(0, TakeX)
    ensures Aborts(s.txns[t], s'.txns[t])
  {
    hide UndoRead, ReadsUndone, CertInv, Elems;
    if UndoRead(s, s', t) || ReadsUndone(s, s', t) { AbortReadPoint(s, s', t); }
  }

  // An aborting transaction changes nothing that others have found out about it.
  ghost predicate Aborts(x: Txn, x': Txn) {
    && x'.state == x.state == Abrtd && x'.cs == x.cs && x'.rset == x.rset && x'.wset == x.wset && x'.seen == x.seen
    && x'.pstamp == x.pstamp && x'.sstamp == x.sstamp && x'.decided == x.decided == false
    && !x'.pc.Certify? && !x'.pc.Reading? && !x.pc.Reading?
  }

  lemma AbortReadPoint(s: State, s': State, t: nat)
    requires UndoRead(s, s', t) || ReadsUndone(s, s', t)
    requires t in s.txns && TxnInv(s.txns[t], s.clock)
    ensures t in s'.txns && PointInv(s', t) && s'.clock == s.clock && s'.txns[t].pc != Updating(0, TakeX)
    ensures Aborts(s.txns[t], s'.txns[t])
  {
    hide CertInv, Elems;
  }

  lemma UnlistOwn(s: State, s': State, t: nat)
    requires Unlist(s, s', t) && Base(s) && Base(s') && Evolve(s, s', t) && TxnSsn(s, t)
    ensures TxnSsn(s', t)
  {
    hide Base, Evolve, SeenInv, ReadsCovered, WritesCovered, BitsInv, KnownInv, PrevInv, CertInv;
    OwnTxn(s, t);
    StoreOwn(s, s', t);
  }

  // ----- engine obligations of the certifier's own steps -----

  lemma ForwardStores(s: State, s': State, t: nat)
    requires (exists v :: ReadPick(s, s', t, v)) || ReadStamp(s, s', t) || ReadPush(s, s', t) || UpdateTakeX(s, s', t)
             || (exists o :: Rewrite(s, s', t, o)) || (exists n :: MeetInvisible(s, s', t, n))
    requires TxnInv(s.txns[t], s.clock)
    ensures Stores(s, s', t)
  {
  }

  lemma ReadCheckStores(s: State, s': State, t: nat)
    requires InitHigh(s, s', t) || LoadSettled(s, s', t) || ReadsDone(s, s', t) || CheckSuccessor(s, s', t)
               || WritesDone(s, s', t)
    requires TxnInv(s.txns[t], s.clock)
    ensures Stores(s, s', t)
  {
    hide CheckSuccessor;
    if CheckSuccessor(s, s', t) { SuccessorStores(s, s', t); }
  }

  lemma SuccessorStores(s: State, s': State, t: nat)
    requires CheckSuccessor(s, s', t) && TxnInv(s.txns[t], s.clock)
    ensures Stores(s, s', t)
  {
    SuccessorContext(s, s', t);
    hide CheckSuccessor, Elems, NoDup;
  }

  // Only the program point and the high watermark of the checker change.
  lemma SuccessorContext(s: State, s': State, t: nat)
    requires CheckSuccessor(s, s', t)
    ensures t in s.txns && t in s'.txns && s.txns[t].pc.Certify? && s'.txns[t].pc.Certify?
    ensures s' == SetTxn(s, t, s.txns[t].(pc := s'.txns[t].pc, sstamp := s'.txns[t].sstamp))
  {
  }

  lemma WriteCheckStores(s: State, s': State, t: nat)
    requires ScanStep(s, s', t) && s'.rlist == s.rlist && TxnInv(s.txns[t], s.clock)
    ensures Stores(s, s', t)
  {
    hide PointInv, WriteCovered;
  }

  lemma EndStores(s: State, s': State, t: nat)
    requires PostWait(s, s', t) || ReadsUndone(s, s', t)
    requires TxnInv(s.txns[t], s.clock)
    ensures Stores(s, s', t)
  {
    if PostWait(s, s', t) {
      hide ReadsUndone;
      PostWaitStores(s, s', t);
    } else {
      assert s.txns[t].wset[0..] == s.txns[t].wset;
    }
  }

  lemma PostWaitStores(s: State, s': State, t: nat)
    requires PostWait(s, s', t) && TxnInv(s.txns[t], s.clock)
    ensures Stores(s, s', t)
  {
    PostWaitMoves(s, s', t);
    hide PostWait, Elems, NoDup;
  }

  // Waiting moves the program point within the loop or past its end.
  lemma PostWaitMoves(s: State, s': State, t: nat)
    requires PostWait(s, s', t)
    ensures t in s.txns && s.txns[t].pc.Post? && t in s'.txns && s' == SetTxn(s, t, s.txns[t].(pc := s'.txns[t].pc))
    ensures s'.txns[t].pc.Post? || s'.txns[t].pc == Done
  {
  }

  lemma UnlistKeepsBase(s: State, s': State, t: nat)
    requires Unlist(s, s', t) && Base(s)
    ensures Base(s') && Evolve(s, s', t)
  {
    OwnTxn(s, t);
    UnlistLocal(s, s', t);
    hide Local, VerInv, TxnInv, OwnInv;
    LocalKeepsBase(s, s', t);
    LocalEvolves(s, s', t);
  }

  lemma UnlistLocal(s: State, s': State, t: nat)
    requires Unlist(s, s', t) && TxnInv(s.txns[t], s.clock)
    ensures Local(s, s', t) && TxnInv(s'.txns[t], s'.clock)
  {
  }

  // The step was fine for the engine and moved no version.
  ghost predicate Settles(s: State, s': State, t: nat) {
    && Base(s') && Evolve(s, s', t)
    && (forall w :: Overwrites(s', w, t) <==> Overwrites(s, w, t))
    && (forall w :: Stamped(s', w) ==> Stamped(s, w))
  }

  lemma ReaderBitSettles(s: State, s': State, t: nat)
    requires ReadRegister(s, s', t) || PostSetX(s, s', t) || PostClear(s, s', t) || UndoRead(s, s', t)
    requires Base(s) && KnownInv(s, t)
    ensures Settles(s, s', t)
  {
    hide VerInv, OwnInv, Distinct;
    OwnTxn(s, t);
    ReaderBitShape(s, s', t);
    var x := s.txns[t];
    var v := if x.pc.Reading? then x.pc.v else x.rset[x.pc.i];
    hide VerInv, TxnInv, OwnInv, Distinct, SameFace, Grows, SameVer, ReadRegister, PostSetX, PostClear, UndoRead;
    VersionStoreKeeps(s, s', t, v, At(s', v), s'.txns[t]);
  }

  lemma ReaderBitShape(s: State, s': State, t: nat)
    requires ReadRegister(s, s', t) || PostSetX(s, s', t) || PostClear(s, s', t) || UndoRead(s, s', t)
    requires TxnInv(s.txns[t], s.clock) && KnownInv(s, t)
    ensures t in s.txns && t in s'.txns && (!s.txns[t].pc.Reading? ==>
              (s.txns[t].pc.Post? || s.txns[t].pc.UndoReads?) && s.txns[t].pc.i < |s.txns[t].rset|)
    ensures var x := s.txns[t]; var v := if x.pc.Reading? then x.pc.v else x.rset[x.pc.i];
            && Has(s, v) && Has(s', v) && s' == SetTxn(SetVer(s, v, At(s', v)), t, s'.txns[t])
            && SameVer(At(s, v), At(s', v), t, x.slot)
            && SameFace(x, s'.txns[t]) && Grows(x, s'.txns[t], s.clock) && TxnInv(s'.txns[t], s.clock)
  {
    var x := s.txns[t];
    assert Knows(x, if x.pc.Reading? then x.pc.v else x.rset[x.pc.i]);
  }

  lemma HeadStampSettles(s: State, s': State, t: nat)
    requires UpdateCopyX(s, s', t) || StampX(s, s', t)
    requires Base(s)
    ensures Settles(s, s', t)
  {
    hide Base, Evolve, SameFace, Grows, SameVer;
    OwnTxn(s, t);
    var x := s.txns[t];
    var o := if x.pc.Updating? then x.pc.o else x.wset[x.pc.j];
    if x.pc.Stamping? { DropEntry(x.wset, x.pc.j); }
    SoleOwner(s, t, o);
    HeadStampShape(s, s', t);
    var v := Vid(o, |s.recs[o]| - 1);
    VersionStoreKeeps(s, s', t, v, At(s', v), s'.txns[t]);
  }

  lemma HeadStampShape(s: State, s': State, t: nat)
    requires UpdateCopyX(s, s', t) || StampX(s, s', t)
    requires TxnInv(s.txns[t], s.clock)
    requires var x := s.txns[t]; var o := if x.pc.Updating? then x.pc.o else x.wset[x.pc.j];
             |s.recs[o]| > 0 && s.recs[o][|s.recs[o]| - 1].clsn == Xid(t)
    ensures t in s'.txns
    ensures var x := s.txns[t];
            var o := if x.pc.Updating? then x.pc.o else x.wset[x.pc.j];
            var v := Vid(o, |s.recs[o]| - 1);
            && Has(s', v) && s' == SetTxn(SetVer(s, v, At(s', v)), t, s'.txns[t])
            && SameVer(At(s, v), At(s', v), t, x.slot)
            && SameFace(x, s'.txns[t]) && Grows(x, s'.txns[t], s.clock) && TxnInv(s'.txns[t], s.clock)
  {
  }

  // The engine's own stores into versions move none either.
  lemma MarkSettles(s: State, s': State, t: nat)
    requires MarkSuccessor(s, s', t) || StampSuccessor(s, s', t) || UndoSuccessor(s, s', t)
    requires Base(s)
    ensures Settles(s, s', t)
  {
    MarkMoves(s, s', t);
    hide Evolve, Overwrites, Stamped;
    if MarkSuccessor(s, s', t) {
      MarkKeeps(s, s', t);
    } else if StampSuccessor(s, s', t) {
      StampSuccessorKeeps(s, s', t);
    } else {
      UndoSuccessorKeeps(s, s', t);
    }
  }

  lemma MarkMoves(s: State, s': State, t: nat)
    requires MarkSuccessor(s, s', t) || StampSuccessor(s, s', t) || UndoSuccessor(s, s', t)
    ensures forall w :: Overwrites(s', w, t) <==> Overwrites(s, w, t)
    ensures forall w :: Stamped(s', w) ==> Stamped(s, w)
  {
  }

  // No step sets a bit for anybody without a position.
  lemma BareBits(s: State, s': State)
    requires s'.rlist == s.rlist && s'.setup == s.setup && forall u :: u in s.txns ==> u in s'.txns
    requires !s.setup.placed ==> FewerBits(s, s')
    ensures TableInv(s) ==> TableInv(s')
  {
    if TableInv(s) && !s.setup.placed {
      forall v | Has(s', v) ensures At(s', v).readers == {} { assert Has(s, v) ==> At(s, v).readers == {}; }
    }
  }

  ghost predicate FewerBits(s: State, s': State) {
    forall v :: Has(s', v) ==> At(s', v).readers == {} || (Has(s, v) && At(s', v).readers <= At(s, v).readers)
  }

  lemma StampClsnMoves(s: State, s': State, t: nat)
    requires StampClsn(s, s', t)
    ensures forall w :: Overwrites(s', w, t) <==> Overwrites(s, w, t)
    ensures TableInv(s) ==> TableInv(s')
    ensures var o := s.txns[t].wset[s.txns[t].pc.j];
            forall w :: Stamped(s', w) ==> Stamped(s, w) || w == Vid(o, |s.recs[o]| - 1)
  {
    BareBits(s, s');
  }

  // ----- putting one step together -----

  lemma AccessCarry(s: State, s': State, a: nat)
    requires Evolve(s, s', a) && Base(s) && AccessInv(s) && forall w :: Stamped(s', w) ==> Stamped(s, w)
    ensures AccessInv(s')
  {
    hide Evolve, Base, Born;
    forall v | Stamped(s', v) ensures Born(s', v) <= At(s', v).xstamp {
      BornKept(s, s', a, v);
    }
  }

  ghost predicate Listed(x: Txn) {
    !x.pc.Unlisted? && !x.pc.Gone?
  }

  // Two transactions with a place in the global table have different places.
  lemma Assemble(s: State, s': State, t: nat)
    requires Inv(s) && Base(s') && Evolve(s, s', t) && TxnSsn(s', t) && TableInv(s') && SlotInv(s') && AccessInv(s')
    requires s'.recs == s.recs || (t in s.txns && Listed(s.txns[t]))
    ensures Inv(s') && Evolve(s, s', t)
  {
    hide Base, TableInv, AccessInv, Keeps, Wrote, HeadKept, KnownInv, SeenInv, BitsInv, PrevInv, BoundInv,
         ReadsCovered, WritesCovered, PointInv;
    forall u | u in s'.txns && u != t ensures TxnSsn(s', u) {
      assert TxnSsn(s, u);
      OthersKeep(s, s', t, u);
    }
  }

  lemma SlotCarry(s: State, s': State, t: nat)
    requires SlotInv(s) && t in s.txns && t in s'.txns && s'.txns == s.txns[t := s'.txns[t]] && s'.rlist == s.rlist
    requires s'.txns[t].slot == s.txns[t].slot && (Listed(s'.txns[t]) <==> Listed(s.txns[t])) && s'.setup == s.setup
    ensures SlotInv(s')
  {
  }

  lemma Parts(s: State, t: nat)
    requires Inv(s) && t in s.txns
    ensures Base(s) && TableInv(s) && SlotInv(s) && AccessInv(s) && TxnSsn(s, t) && KnownInv(s, t)
    ensures TxnInv(s.txns[t], s.clock)
    ensures forall u :: u in s.txns ==> BoundInv(s.txns[u], s.clock)
  {
    hide Base, TableInv, SlotInv, AccessInv, KnownInv, SeenInv, BitsInv, PrevInv, BoundInv, ReadsCovered,
         WritesCovered, PointInv, TxnInv;
    OwnTxn(s, t);
    forall u | u in s.txns ensures BoundInv(s.txns[u], s.clock) { assert TxnSsn(s, u); }
  }

  // Positions and bits are as before unless a step stores in them.
  lemma TableCarry(s: State, s': State)
    requires TableInv(s) && s'.recs == s.recs && s'.rlist == s.rlist && s'.setup == s.setup
    requires forall u :: u in s.txns ==> u in s'.txns
    ensures TableInv(s')
  {
    forall v | !s.setup.placed && Has(s', v) ensures At(s', v).readers == {} { assert Has(s, v); }
  }

  lemma FinishStore(s: State, s': State, t: nat)
    requires Inv(s) && Stores(s, s', t) && Base(s') && Evolve(s, s', t) && TxnSsn(s', t)
    requires Listed(s'.txns[t]) <==> Listed(s.txns[t])
    ensures Inv(s') && Evolve(s, s', t)
  {
    hide Base, Evolve, TxnSsn, SameFace, TxnInv, TableInv, SlotInv, AccessInv;
    TableCarry(s, s');
    SlotCarry(s, s', t);
    AccessCarry(s, s', t);
    Assemble(s, s', t);
  }

  lemma FinishVersion(s: State, s': State, t: nat)
    requires Inv(s) && t in s.txns && t in s'.txns && Settles(s, s', t) && TxnSsn(s', t) && TableInv(s')
    requires s'.txns == s.txns[t := s'.txns[t]] && s'.rlist == s.rlist && s'.txns[t].slot == s.txns[t].slot
               && s'.setup == s.setup
    requires Listed(s'.txns[t]) && Listed(s.txns[t])
    ensures Inv(s') && Evolve(s, s', t)
  {
    hide Base, Evolve, TxnSsn, TableInv, SlotInv, AccessInv;
    SlotCarry(s, s', t);
    AccessCarry(s, s', t);
    Assemble(s, s', t);
  }

  lemma ForwardKeeps(s: State, s': State, t: nat)
    requires (exists v :: ReadPick(s, s', t, v)) || ReadStamp(s, s', t) || ReadPush(s, s', t) || UpdateTakeX(s, s', t)
             || (exists o :: Rewrite(s, s', t, o)) || (exists n :: MeetInvisible(s, s', t, n))
    requires Inv(s)
    ensures Inv(s') && Evolve(s, s', t)
  {
    hide Base, Evolve, TxnSsn, SlotInv, AccessInv, BoundInv, TxnInv, Inv, KnownInv;
    Parts(s, t);
    ForwardStores(s, s', t);
    StoreKeepsBase(s, s', t, s'.txns[t]);
    if v :| ReadPick(s, s', t, v) {
      ReadPickOwn(s, s', t, v);
    } else if ReadStamp(s, s', t) {
      ReadStampOwn(s, s', t);
    } else if ReadPush(s, s', t) {
      ReadPushOwn(s, s', t);
    } else if UpdateTakeX(s, s', t) {
      TakeXOwn(s, s', t);
    } else if o :| Rewrite(s, s', t, o) {
      RewriteOwn(s, s', t, o);
    } else {
      var n :| MeetInvisible(s, s', t, n);
      MeetInvisibleOwn(s, s', t, n);
    }
    FinishStore(s, s', t);
  }

  lemma ReadCheckKeeps(s: State, s': State, t: nat)
    requires InitHigh(s, s', t) || LoadSettled(s, s', t) || ReadsDone(s, s', t) || CheckSuccessor(s, s', t)
               || WritesDone(s, s', t)
    requires Inv(s)
    ensures Inv(s') && Evolve(s, s', t)
  {
    ReadCheckActor(s, s', t);
    hide Base, Evolve, TxnSsn, SlotInv, AccessInv, BoundInv, TxnInv, Inv, KnownInv, InitHigh, LoadSettled, ReadsDone,
         CheckSuccessor, WritesDone;
    Parts(s, t);
    ReadCheckStores(s, s', t);
    StoreKeepsBase(s, s', t, s'.txns[t]);
    if InitHigh(s, s', t) {
      InitHighOwn(s, s', t);
    } else if LoadSettled(s, s', t) {
      LoadSettledOwn(s, s', t);
    } else if ReadsDone(s, s', t) {
      ReadsDoneOwn(s, s', t);
    } else if CheckSuccessor(s, s', t) {
      CheckSuccessorOwn(s, s', t);
    } else {
      WritesDoneOwn(s, s', t);
    }
    FinishStore(s, s', t);
  }

  lemma ReadCheckActor(s: State, s': State, t: nat)
    requires InitHigh(s, s', t) || LoadSettled(s, s', t) || ReadsDone(s, s', t) || CheckSuccessor(s, s', t)
               || WritesDone(s, s', t)
    ensures t in s.txns && t in s'.txns && (Listed(s'.txns[t]) <==> Listed(s.txns[t]))
  {
    hide CheckSuccessor;
    if CheckSuccessor(s, s', t) { SuccessorMoves(s, s', t); }
  }

  lemma WriteCheckKeeps(s: State, s': State, t: nat)
    requires WriteCheck(s, s', t) && Inv(s)
    ensures Inv(s') && Evolve(s, s', t)
  {
    WriteCheckShape(s, s', t);
    hide Base, Evolve, TxnSsn, SlotInv, AccessInv, BoundInv, TxnInv, Inv, WriteCheck, KnownInv, PointInv;
    Parts(s, t);
    WriteCheckStep(s, s', t);
    WriteCheckStores(s, s', t);
    StoreKeepsBase(s, s', t, s'.txns[t]);
    ScanOwn(s, s', t);
    FinishStore(s, s', t);
  }

  lemma WriteCheckShape(s: State, s': State, t: nat)
    requires WriteCheck(s, s', t)
    ensures t in s.txns && s.txns[t].pc.Certify? && s'.rlist == s.rlist && t in s'.txns && s'.txns[t].pc.Certify?
  {
    hide LoadContext, VerifyReader;
    if LoadContext(s, s', t) || VerifyReader(s, s', t) { ReaderShape(s, s', t); }
  }

  lemma ReaderShape(s: State, s': State, t: nat)
    requires LoadContext(s, s', t) || VerifyReader(s, s', t)
    ensures t in s.txns && s.txns[t].pc.Certify? && s'.rlist == s.rlist && t in s'.txns && s'.txns[t].pc.Certify?
  {
  }

  lemma EndKeeps(s: State, s': State, t: nat)
    requires PostWait(s, s', t) || ReadsUndone(s, s', t)
    requires Inv(s)
    ensures Inv(s') && Evolve(s, s', t)
  {
    hide Base, Evolve, TxnSsn, SlotInv, AccessInv, BoundInv, TxnInv, Inv, KnownInv;
    Parts(s, t);
    EndStores(s, s', t);
    StoreKeepsBase(s, s', t, s'.txns[t]);
    if PostWait(s, s', t) {
      PostWaitOwn(s, s', t);
    } else {
      AbortOwn(s, s', t);
    }
    FinishStore(s, s', t);
  }

  lemma SharedKeeps(s: State, s': State, t: nat)
    requires Shared(s, s', t) && Inv(s)
    ensures Inv(s') && Evolve(s, s', t)
  {
    SharedShape(s, s', t);
    hide Base, Evolve, TxnSsn, SlotInv, AccessInv, BoundInv, TxnInv, Inv, KnownInv, Probe, AddToWriteSet, EnterCommit,
         Publish, SetCommitted, StartAbort, EndAbort, Free, SameFace, Grows;
    Parts(s, t);
    if Probe(s, s', t) {
      ProbeStores(s, s', t);
      StoreKeepsBase(s, s', t, s'.txns[t]);
      ProbeOwn(s, s', t);
    } else {
      SharedStores(s, s', t);
      StoreKeepsBase(s, s', t, s'.txns[t]);
      SharedOwn(s, s', t);
    }
    FinishStore(s, s', t);
  }

  lemma SharedStores(s: State, s': State, t: nat)
    requires Shared(s, s', t) && !Probe(s, s', t) && TxnInv(s.txns[t], s.clock)
    ensures Stores(s, s', t)
  {
    hide TxnInv, Probe;
    if AddToWriteSet(s, s', t) || EnterCommit(s, s', t) || Publish(s, s', t) {
      CommitStepStores(s, s', t);
    } else {
      EndStepStores(s, s', t);
    }
  }

  lemma SharedShape(s: State, s': State, t: nat)
    requires Shared(s, s', t)
    ensures t in s.txns && t in s'.txns && (Listed(s'.txns[t]) <==> Listed(s.txns[t]))
  {
    hide Probe, SetCommitted, StartAbort, EndAbort, FreeUnlisted;
    if Probe(s, s', t) {
      ProbeShape(s, s', t);
    } else if SetCommitted(s, s', t) || StartAbort(s, s', t) || EndAbort(s, s', t) || FreeUnlisted(s, s', t) {
      EndShape(s, s', t);
    }
  }

  lemma EndShape(s: State, s': State, t: nat)
    requires SetCommitted(s, s', t) || StartAbort(s, s', t) || EndAbort(s, s', t) || FreeUnlisted(s, s', t)
    ensures t in s.txns && t in s'.txns && (Listed(s'.txns[t]) <==> Listed(s.txns[t]))
  {
  }

  ghost predicate VersionStep(s: State, s': State, t: nat) {
    || ReadRegister(s, s', t) || PostSetX(s, s', t) || PostClear(s, s', t) || UndoRead(s, s', t)
    || UpdateCopyX(s, s', t) || StampX(s, s', t)
    || MarkSuccessor(s, s', t) || StampSuccessor(s, s', t) || UndoSuccessor(s, s', t)
  }

  lemma VersionShape(s: State, s': State, t: nat)
    requires VersionStep(s, s', t)
    ensures t in s.txns && t in s'.txns && s'.txns == s.txns[t := s'.txns[t]] && s'.rlist == s.rlist
    ensures s'.setup == s.setup && (TableInv(s) ==> TableInv(s'))
    ensures s'.txns[t].slot == s.txns[t].slot && Listed(s'.txns[t]) && Listed(s.txns[t])
  {
    hide ReadRegister, PostSetX, PostClear, UndoRead, UpdateCopyX, StampX, MarkSuccessor, StampSuccessor,
         UndoSuccessor, TableInv;
    if ReadRegister(s, s', t) || PostSetX(s, s', t) || PostClear(s, s', t) || UndoRead(s, s', t) {
      BitShape(s, s', t);
    } else if UpdateCopyX(s, s', t) || StampX(s, s', t) {
      HeadShape(s, s', t);
    } else {
      MarkShape(s, s', t);
    }
    BareBits(s, s');
  }

  lemma BitShape(s: State, s': State, t: nat)
    requires ReadRegister(s, s', t) || PostSetX(s, s', t) || PostClear(s, s', t) || UndoRead(s, s', t)
    ensures t in s.txns && t in s'.txns && s'.txns == s.txns[t := s'.txns[t]] && s'.rlist == s.rlist
    ensures s'.setup == s.setup && (!s.setup.placed ==> FewerBits(s, s'))
    ensures s'.txns[t].slot == s.txns[t].slot && Listed(s'.txns[t]) && Listed(s.txns[t])
  {
  }

  lemma HeadShape(s: State, s': State, t: nat)
    requires UpdateCopyX(s, s', t) || StampX(s, s', t)
    ensures t in s.txns && t in s'.txns && s'.txns == s.txns[t := s'.txns[t]] && s'.rlist == s.rlist
    ensures s'.setup == s.setup && FewerBits(s, s')
    ensures s'.txns[t].slot == s.txns[t].slot && Listed(s'.txns[t]) && Listed(s.txns[t])
  {
  }

  lemma MarkShape(s: State, s': State, t: nat)
    requires MarkSuccessor(s, s', t) || StampSuccessor(s, s', t) || UndoSuccessor(s, s', t)
    ensures t in s.txns && t in s'.txns && s'.txns == s.txns[t := s'.txns[t]] && s'.rlist == s.rlist
    ensures s'.setup == s.setup && FewerBits(s, s')
    ensures s'.txns[t].slot == s.txns[t].slot && Listed(s'.txns[t]) && Listed(s.txns[t])
  {
  }

  lemma VersionKeeps(s: State, s': State, t: nat)
    requires VersionStep(s, s', t) && Inv(s)
    ensures Inv(s') && Evolve(s, s', t)
  {
    VersionShape(s, s', t);
    hide Base, Evolve, TxnSsn, TableInv, SlotInv, AccessInv, BoundInv, TxnInv, Inv, KnownInv, ReadRegister, PostSetX,
         PostClear, UndoRead, UpdateCopyX, StampX, MarkSuccessor, StampSuccessor, UndoSuccessor;
    Parts(s, t);
    if ReadRegister(s, s', t) || PostSetX(s, s', t) || PostClear(s, s', t) || UndoRead(s, s', t) {
      ReaderBitSettles(s, s', t);
    } else if UpdateCopyX(s, s', t) || StampX(s, s', t) {
      HeadStampSettles(s, s', t);
    } else {
      MarkSettles(s, s', t);
    }
    if ReadRegister(s, s', t) {
      ReadRegisterOwn(s, s', t);
    } else if PostSetX(s, s', t) {
      PostSetXOwn(s, s', t);
    } else if PostClear(s, s', t) {
      PostClearOwn(s, s', t);
    } else if UndoRead(s, s', t) || UndoSuccessor(s, s', t) {
      AbortOwn(s, s', t);
    } else if StampX(s, s', t) || StampSuccessor(s, s', t) {
      StampOwn(s, s', t);
    } else {
      ForwardVersionOwn(s, s', t);
    }
    FinishVersion(s, s', t);
  }

  lemma StampClsnKeepsInv(s: State, s': State, t: nat)
    requires StampClsn(s, s', t) && Inv(s)
    ensures Inv(s') && Evolve(s, s', t)
  {
    StampClsnMoves(s, s', t);
    hide Base, Evolve, TxnSsn, TableInv, SlotInv, Inv, KnownInv, TxnInv, BoundInv, AccessInv;
    Parts(s, t);
    StampClsnKeeps(s, s', t);
    StampOwn(s, s', t);
    StampClsnAccess(s, s', t);
    SlotCarry(s, s', t);
    Assemble(s, s', t);
  }

  lemma StampClsnAccess(s: State, s': State, t: nat)
    requires StampClsn(s, s', t) && Evolve(s, s', t) && Base(s) && AccessInv(s) && TxnSsn(s, t)
    ensures AccessInv(s')
  {
    hide Base, Evolve, KnownInv, SeenInv, BitsInv, PrevInv, ReadsCovered, WritesCovered, CertInv, Born;
    StampClsnMoves(s, s', t);
    StampClsnHead(s, s', t);
    var o := s.txns[t].wset[s.txns[t].pc.j];
    assert PointInv(s, t);
    forall v | Stamped(s', v) ensures Born(s', v) <= At(s', v).xstamp {
      if v != Vid(o, |s.recs[o]| - 1) {
        assert Stamped(s, v);
        BornKept(s, s', t, v);
      }
    }
  }

  // The stamped head is the writer's own.
  lemma StampClsnHead(s: State, s': State, t: nat)
    requires StampClsn(s, s', t) && Base(s)
    ensures var o := s.txns[t].wset[s.txns[t].pc.j]; var h := Vid(o, |s.recs[o]| - 1);
            && o in s.recs && |s.recs[o]| > 0 && Has(s', h) && At(s', h).xstamp == At(s, h).xstamp
            && Born(s', h) == s.txns[t].cs
  {
    hide VerInv, OwnInv, Distinct;
    OwnTxn(s, t);
    DropEntry(s.txns[t].wset, s.txns[t].pc.j);
    SoleOwner(s, t, s.txns[t].wset[s.txns[t].pc.j]);
  }

  // Steps that link or unlink a version.
  lemma LinkKeeps(s: State, s': State, t: nat, o: nat)
    requires Insert(s, s', t, o) || Install(s, s', t, o) || (Unlink(s, s', t) && o == 0)
               || (EarlyUnlink(s, s', t) && o == 0)
    requires Inv(s)
    ensures Inv(s') && Evolve(s, s', t)
  {
    LinkShape(s, s', t, o);
    hide Base, Evolve, TxnSsn, TableInv, SlotInv, AccessInv, BoundInv, TxnInv, Inv, KnownInv, Insert, Install, Unlink,
         TakeBack, Stamped;
    Parts(s, t);
    if Insert(s, s', t, o) {
      InsertKeeps(s, s', t, o);
      InsertOwn(s, s', t, o);
    } else if Install(s, s', t, o) {
      InstallKeeps(s, s', t, o);
      InstallOwn(s, s', t, o);
    } else if EarlyUnlink(s, s', t) {
      TakeBackKeeps(s, s', t);
      EarlyUnlinkOwn(s, s', t);
    } else {
      UnlinkKeeps(s, s', t);
      AbortOwn(s, s', t);
    }
    SlotCarry(s, s', t);
    AccessCarry(s, s', t);
    Assemble(s, s', t);
  }

  lemma LinkShape(s: State, s': State, t: nat, o: nat)
    requires Insert(s, s', t, o) || Install(s, s', t, o) || (Unlink(s, s', t) && o == 0)
               || (EarlyUnlink(s, s', t) && o == 0)
    ensures t in s.txns && t in s'.txns && s'.txns == s.txns[t := s'.txns[t]] && s'.rlist == s.rlist
    ensures s'.txns[t].slot == s.txns[t].slot && Listed(s'.txns[t]) && Listed(s.txns[t])
    ensures s'.setup == s.setup && (TableInv(s) ==> TableInv(s'))
    ensures forall w :: Stamped(s', w) ==> Stamped(s, w)
  {
    LinkBits(s, s', t, o);
    hide TableInv, FewerBits;
    BareBits(s, s');
  }

  lemma LinkBits(s: State, s': State, t: nat, o: nat)
    requires Insert(s, s', t, o) || Install(s, s', t, o) || Unlink(s, s', t) || EarlyUnlink(s, s', t)
    ensures FewerBits(s, s')
  {
  }

  lemma DrawKeepsInv(s: State, s': State, t: nat, n: nat)
    requires Draw(s, s', t, n) && Inv(s)
    ensures Inv(s') && Evolve(s, s', t)
  {
    hide Evolve, TxnSsn, TableInv, SlotInv, AccessInv, BoundInv, TxnInv, Inv, KnownInv, VerInv, OwnInv;
    Parts(s, t);
    DrawKeepsBase(s, s', t, n);
    DrawEvolves(s, s', t, n);
    DrawOwn(s, s', t, n);
    TableCarry(s, s');
    SlotCarry(s, s', t);
    AccessCarry(s, s', t);
    Assemble(s, s', t);
  }

  lemma PassExclusionKeeps(s: State, s': State, t: nat)
    requires PassExclusion(s, s', t) && Inv(s)
    ensures Inv(s') && Evolve(s, s', t)
  {
    hide Evolve, TxnSsn, TableInv, SlotInv, AccessInv, BoundInv, TxnInv, Inv, KnownInv, VerInv, OwnInv;
    Parts(s, t);
    DecideKeepsBase(s, s', t);
    DecideEvolves(s, s', t);
    PassExclusionOwn(s, s', t);
    TableCarry(s, s');
    SlotCarry(s, s', t);
    AccessCarry(s, s', t);
    Assemble(s, s', t);
  }

  lemma BeginKeeps(s: State, s': State, t: nat, q: nat)
    requires BeginTxn(s, s', t, q) && Inv(s)
    ensures Inv(s') && Evolve(s, s', t)
  {
    hide Evolve, TxnSsn, TableInv, SlotInv, AccessInv, BoundInv, TxnInv, VerInv, OwnInv;
    BeginKeepsBase(s, s', t, q, s.rlist[q := t]);
    BeginEvolves(s, s', t, q, s.rlist[q := t]);
    BeginOwn(s, s', t, q);
    BeginSlots(s, s', t, q);
    AccessCarry(s, s', t);
    Assemble(s, s', t);
  }

  lemma BeginSlots(s: State, s': State, t: nat, q: nat)
    requires BeginTxn(s, s', t, q) && TableInv(s) && SlotInv(s)
    ensures TableInv(s') && SlotInv(s')
  {
    forall v | !s.setup.placed && Has(s', v) ensures At(s', v).readers == {} { assert Has(s, v); }
  }

  lemma UnlistKeeps(s: State, s': State, t: nat)
    requires Unlist(s, s', t) && Inv(s)
    ensures Inv(s') && Evolve(s, s', t)
  {
    hide Base, Evolve, TxnSsn, TableInv, SlotInv, AccessInv, BoundInv, TxnInv, Inv, KnownInv;
    Parts(s, t);
    UnlistKeepsBase(s, s', t);
    UnlistOwn(s, s', t);
    UnlistSlots(s, s', t);
    AccessCarry(s, s', t);
    Assemble(s, s', t);
  }

  lemma UnlistSlots(s: State, s': State, t: nat)
    requires Unlist(s, s', t) && TableInv(s) && SlotInv(s)
    ensures TableInv(s') && SlotInv(s')
  {
    forall v | !s.setup.placed && Has(s', v) ensures At(s', v).readers == {} { assert Has(s, v); }
  }

  lemma StepKeeps(s: State, s': State, t: nat)
    requires Inv(s) && Step(s, s', t)
    ensures Inv(s') && Evolve(s, s', t)
  {
    hide Inv, Shared, AddToWriteSet, EnterCommit, Publish, SetCommitted, StartAbort, EndAbort, FreeUnlisted, Probe,
         BeginTxn, Insert, Install, EarlyUnlink, Rewrite, MeetInvisible, ReadPick, ReadStamp, ReadPush, ReadRegister,
         UpdateTakeX,
         UpdateCopyX, MarkSuccessor, Draw, InitHigh, LoadSettled, ReadsDone, CheckSuccessor, WritesDone, SkipInsert,
         LoadWord, TakeBit, LoadReader, LoadContext, VerifyReader, LoadAccess, PassExclusion, StampSuccessor, StampX,
         StampClsn, PostWait, PostSetX, PostClear, UndoRead, ReadsUndone, UndoSuccessor, Unlink, Unlist;
    if q :| BeginTxn(s, s', t, q) {
      BeginKeeps(s, s', t, q);
    } else if o :| Insert(s, s', t, o) {
      LinkKeeps(s, s', t, o);
    } else if o :| Install(s, s', t, o) {
      LinkKeeps(s, s', t, o);
    } else if n :| Draw(s, s', t, n) {
      DrawKeepsInv(s, s', t, n);
    } else if Unlink(s, s', t) || EarlyUnlink(s, s', t) {
      LinkKeeps(s, s', t, 0);
    } else if Shared(s, s', t) {
      SharedKeeps(s, s', t);
    } else if WriteCheck(s, s', t) {
      WriteCheckKeeps(s, s', t);
    } else if VersionStep(s, s', t) {
      VersionKeeps(s, s', t);
    } else if StampClsn(s, s', t) {
      StampClsnKeepsInv(s, s', t);
    } else if PassExclusion(s, s', t) {
      PassExclusionKeeps(s, s', t);
    } else if PostWait(s, s', t) || ReadsUndone(s, s', t) {
      EndKeeps(s, s', t);
    } else if Unlist(s, s', t) {
      UnlistKeeps(s, s', t);
    } else if InitHigh(s, s', t) || LoadSettled(s, s', t) || ReadsDone(s, s', t) || CheckSuccessor(s, s', t)
         || WritesDone(s, s', t) {
      ReadCheckKeeps(s, s', t);
    } else {
      ForwardKeeps(s, s', t);
    }
  }

  lemma InitHolds(s: State)
    requires Init(s) && s.setup.ssn && s.setup.clean
    ensures Inv(s)
  {
  }

  /** The invariant holds in every state of every run, and positions are never given or taken. */
  lemma {:induction false} RunInvariant(r: seq<State>)
    requires Run(r)
    ensures Inv(r[|r| - 1]) && r[|r| - 1].setup == r[0].setup
  {
    hide Inv, Evolve, Step;
    if |r| == 1 {
      InitHolds(r[0]);
    } else {
      var k := |r| - 1;
      RunInvariant(r[..k]);
      assert Next(r[k - 1], r[k]);
      var t :| Step(r[k - 1], r[k], t);
      StepKeeps(r[k - 1], r[k], t);
      EvolvedFlag(r[k - 1], r[k], t);
    }
  }
}
