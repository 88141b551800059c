/** The invariant of `Ssn` holds in every state of every run. */
module SsnInvariant {
  import opened Stamps
  import opened Engine
  import opened Ssn

  // ----- what survives a step by anyone -----

  lemma KnownCarry(s: State, s': State, a: nat, t: nat)
    requires Evolve(s, s', a) && Base(s) && t in s.txns && KnownInv(s, t)
    requires t in s'.txns
    requires var x, x' := s.txns[t], s'.txns[t];
             x'.cs == x.cs && x.pstamp <= x'.pstamp && forall v :: Knows(x', v) ==> Knows(x, v)
    ensures KnownInv(s', t)
  {
    hide Evolve, Base, Born;
    var x' := s'.txns[t];
    forall v | Knows(x', v)
      ensures Stamped(s', v) && At(s', v).clsn.n <= x'.pstamp && (x'.cs > 0 ==> Born(s', v) < x'.cs)
    {
      assert Stamped(s, v);
      BornKept(s, s', a, v);
    }
  }

  lemma SettledCarry(s: State, s': State, a: nat, x: Txn, x': Txn, v: Vid)
    requires Evolve(s, s', a) && Base(s) && Base(s') && Stamped(s, v) && Settled(s, x, v) && s.setup.clean
    requires x'.cs == x.cs && 0 < x'.sstamp <= x.sstamp
    ensures Settled(s', x', v)
  {
    hide Base, Evolve;
    SettledSteps(s, s', a, v);
    EvolvedFlag(s, s', a);
    EvolveActor(s, s', a);
    SettledWriter(s, s.recs[v.o][v.i + 1].writer, v);
    SettledWriter(s', a, v);
  }

  lemma EvolveActor(s: State, s': State, a: nat)
    requires Evolve(s, s', a)
    ensures a in s'.txns
  {
  }

  // The overwriter behind a settled stamp has drawn its own.
  lemma SettledWriter(s: State, a: nat, v: Vid)
    requires Base(s) && a in s.txns && Stamped(s, v) && At(s, v).sstamp.Lsn? && s.setup.clean
    ensures v.i + 1 < |s.recs[v.o]| && s.recs[v.o][v.i + 1].writer in s.txns
              && s.txns[s.recs[v.o][v.i + 1].writer].cs > 0
  {
    hide VerInv, OwnInv, Distinct;
    LoadedStamp(s, a, v);
    OwnTxn(s, s.recs[v.o][v.i + 1].writer);
  }

  // What a step leaves of a version and of the transaction that overwrote it.
  lemma SettledSteps(s: State, s': State, a: nat, v: Vid)
    requires Evolve(s, s', a) && Stamped(s, v) && At(s, v).sstamp.Lsn? && s.setup.clean
    requires v.i + 1 < |s.recs[v.o]| && s.recs[v.o][v.i + 1].writer in s.txns
    ensures Stamped(s', v) && At(s', v).sstamp == At(s, v).sstamp && a in s'.txns
    ensures var w := s.recs[v.o][v.i + 1].writer;
            && w in s'.txns && Grows(s.txns[w], s'.txns[w], s.clock)
            && (v.i + 1 < |s'.recs[v.o]| ==>
                  s'.recs[v.o][v.i + 1].writer == w || (s'.recs[v.o][v.i + 1].writer == a && s'.txns[a].cs == 0))
  {
    assert Keeps(s, s', a, v.o, v.i);
    hide Wrote, HeadKept;
  }

  lemma OverwritesCarry(s: State, s': State, a: nat, t: nat, v: Vid)
    requires Evolve(s, s', a) && a != t
    ensures Overwrites(s', v, t) <==> Overwrites(s, v, t)
  {
    assert Wrote(s', t, v.o, v.i + 1) <==> Wrote(s, t, v.o, v.i + 1);
  }

  lemma SeenCarry(s: State, s': State, a: nat, t: nat)
    requires Evolve(s, s', a) && Base(s) && Base(s') && t in s.txns && KnownInv(s, t) && SeenInv(s, t) && s.setup.clean
    requires var x, x' := s.txns[t], s'.txns[t];
             && x'.cs == x.cs && (x'.state == Abrtd || x.state != Abrtd)
             && (x.sstamp == 0 || 0 < x'.sstamp <= x.sstamp)
             && (forall v :: v in x'.seen && v !in x.seen ==> Accounted(s', t, v)) && x.wset <= x'.wset
    requires a == t && s'.txns[t].state != Abrtd ==>
               forall v :: Overwrites(s, v, t) && v.o in s.txns[t].wset ==> Overwrites(s', v, t)
    ensures SeenInv(s', t)
  {
    var x, x' := s.txns[t], s'.txns[t];
    if x'.state != Abrtd {
      forall v | v in x'.seen && v in x.seen ensures Accounted(s', t, v) {
        assert Knows(x, v) && Accounted(s, t, v);
        if v in x.rset {
          assert x.rset <= x'.rset;
        } else if Settled(s, x, v) {
          SettledCarry(s, s', a, x, x', v);
        } else if a != t {
          OverwritesCarry(s, s', a, t, v);
        }
      }
    }
  }

  // No version loses the bit of `slot`.
  ghost predicate BitsKept(s: State, s': State, slot: nat) {
    forall v :: Stamped(s, v) && slot in At(s, v).readers ==> Has(s', v) && slot in At(s', v).readers
  }

  lemma ForeignBitsKept(s: State, s': State, a: nat, slot: nat)
    requires Evolve(s, s', a) && (s'.recs == s.recs || s'.txns[a].slot != slot)
    ensures BitsKept(s, s', slot)
  {
    forall v | Stamped(s, v) && slot in At(s, v).readers ensures Has(s', v) && slot in At(s', v).readers {
      assert Keeps(s, s', a, v.o, v.i);
    }
  }

  lemma BitsCarry(s: State, s': State, a: nat, t: nat)
    requires Evolve(s, s', a) && t in s.txns && KnownInv(s, t) && BitsInv(s, t)
    requires var x, x' := s.txns[t], s'.txns[t];
             && x'.cs == x.cs && x'.rset == x.rset && (x'.state == Abrtd || (Open(x') == Open(x) && x.state != Abrtd))
             && (x.pc.Reading? && x.pc.r == Register ==> x'.pc == x.pc)
    requires Open(s.txns[t]) >= |s.txns[t].rset| || !s.setup.placed || BitsKept(s, s', s.txns[t].slot)
    ensures BitsInv(s', t)
  {
    var x, x' := s.txns[t], s'.txns[t];
    forall k | s.setup.placed && 0 <= k < |x'.rset| && x'.state != Abrtd
         && !(x'.pc.Reading? && x'.pc.r == Register && k == |x'.rset| - 1)
      ensures && Has(s', x'.rset[k])
              && ((k >= Open(x') && x'.slot in At(s', x'.rset[k]).readers) || 0 < x'.cs <= At(s', x'.rset[k]).xstamp)
    {
      var v := x.rset[k];
      assert Knows(x, v);
      assert Keeps(s, s', a, v.o, v.i);
    }
  }

  lemma PrevCarry(s: State, s': State, a: nat, t: nat)
    requires Evolve(s, s', a) && Base(s) && t in s.txns && PrevInv(s, t) && t in s'.txns
    requires var x, x' := s.txns[t], s'.txns[t];
             && (x'.state == Abrtd || x.state != Abrtd) && x.pstamp <= x'.pstamp
             && (forall o :: x.pc == Updating(o, TakeX) ==> x'.pc == x.pc)
    requires a == t ==> forall v :: Overwrites(s', v, t) ==> Overwrites(s, v, t)
    ensures PrevInv(s', t)
  {
    hide Base, Evolve, Born;
    var x, x' := s.txns[t], s'.txns[t];
    forall v | x'.state != Abrtd && Overwrites(s', v, t) && Stamped(s', v) && x'.pc != Updating(v.o, TakeX)
      ensures Born(s', v) <= x'.pstamp
    {
      if a != t { OverwritesCarry(s, s', a, t, v); }
      OverwrittenIsStamped(s, v, t);
      BornKept(s, s', a, v);
    }
  }

  lemma OverwrittenIsStamped(s: State, v: Vid, t: nat)
    requires Base(s) && Overwrites(s, v, t)
    ensures Stamped(s, v)
  {
    hide OwnInv, Distinct, TxnInv, SuccessorInv;
    assert VerInv(s, v.o, v.i);
  }

  lemma ReadsCoveredCarry(s: State, s': State, a: nat, t: nat, n: nat)
    requires Evolve(s, s', a) && t in s.txns && KnownInv(s, t) && ReadsCovered(s, t, n)
    requires n == 0 || (0 < s.txns[t].cs <= s.clock && s'.txns[t].sstamp <= s.txns[t].sstamp)
    ensures ReadsCovered(s', t, n)
  {
    var x, x' := s.txns[t], s'.txns[t];
    assert x.rset <= x'.rset;
    forall k | 0 <= k < n ensures ReadCovered(s', t, x'.rset[k]) {
      var v := x.rset[k];
      assert ReadCovered(s, t, v) && Knows(x, v);
      forall w | Danger(s', t, v, w) ensures s'.txns[w].decided && x'.sstamp <= s'.txns[w].sstamp {
        DangerBack(s, s', a, t, v, w);
        assert Grows(s.txns[w], s'.txns[w], s.clock);
      }
    }
  }

  lemma EarlierBack(s: State, s': State, a: nat, t: nat, v: Vid, r: nat)
    requires Evolve(s, s', a) && Sane(s) && t in s.txns && s.txns[t].cs > 0
    requires Earlier(s', t, v, r)
    ensures Earlier(s, t, v, r) && s'.txns[r].cs == s.txns[r].cs && s'.txns[r].slot == s.txns[r].slot
  {
    assert Grows(s.txns[t], s'.txns[t], s.clock);
    assert SaneTxn(s.txns[t], s.clock);
    assert Grows(s.txns[r], s'.txns[r], s.clock);
    assert SaneTxn(s.txns[r], s.clock);
  }

  lemma WritesCoveredCarry(s: State, s': State, a: nat, t: nat, n: nat)
    requires Evolve(s, s', a) && Sane(s) && t in s.txns && WritesCovered(s, t, n)
    requires n == 0 || s.txns[t].cs > 0
    requires s.txns[t].wset <= s'.txns[t].wset && s.txns[t].pstamp <= s'.txns[t].pstamp
    requires a == t ==> forall v :: Overwrites(s', v, t) ==> Overwrites(s, v, t)
    ensures WritesCovered(s', t, n)
  {
    var x, x' := s.txns[t], s'.txns[t];
    forall k | 0 <= k < n ensures WriteCovered(s', t, x'.wset[k]) {
      var o := x.wset[k];
      assert WriteCovered(s, t, o);
      forall v: Vid, r | v.o == o && Overwrites(s', v, t) && Earlier(s', t, v, r) ensures s'.txns[r].cs <= x'.pstamp {
        if a != t { OverwritesCarry(s, s', a, t, v); }
        EarlierBack(s, s', a, t, v, r);
      }
    }
  }

  lemma PendingBack(s: State, s': State, a: nat, t: nat, o: nat, r: nat)
    requires Evolve(s, s', a) && Sane(s) && RecInv(s, o) && a != t && t in s.txns && o in s.txns[t].own
               && s.txns[t].cs > 0
    requires Pending(s', t, o, r)
    ensures Pending(s, t, o, r) && s'.txns[r].cs == s.txns[r].cs && s'.txns[r].slot == s.txns[r].slot
  {
    assert HeadKept(s, s', o);
    var v := Vid(o, |s.recs[o]| - 2);
    EarlierBack(s, s', a, t, v, r);
    assert VerInv(s, v.o, v.i);
    assert Keeps(s, s', a, v.o, v.i);
  }

  lemma ScanCarry(s: State, s': State, a: nat, t: nat, j: nat, k: nat, cur: set<nat>, r0: int)
    requires Evolve(s, s', a) && Sane(s) && a != t && t in s.txns && s.txns[t].pc.Certify?
    requires forall o :: o in s.txns[t].own ==> RecInv(s, o)
    requires ScanInv(s, t, j, k, cur, r0)
    ensures ScanInv(s', t, j, k, cur, r0)
  {
    var o := s.txns[t].wset[j];
    assert SaneTxn(s.txns[t], s.clock);
    forall r | Pending(s', t, o, r) ensures s'.txns[r].slot / 64 >= k || s'.txns[r].slot in cur || r == r0 {
      PendingBack(s, s', a, t, o, r);
    }
  }

  lemma ProbedCarry(s: State, s': State, a: nat, t: nat, j: nat, r: nat, st: Status, e: nat)
    requires Evolve(s, s', a) && Sane(s) && a != t && t in s.txns && s.txns[t].pc.Certify?
    requires forall o :: o in s.txns[t].own ==> RecInv(s, o)
    requires j < |s.txns[t].wset| && Probed(s, t, j, r, st, e)
    ensures Probed(s', t, j, r, st, e)
  {
    var o := s.txns[t].wset[j];
    assert SaneTxn(s.txns[t], s.clock);
    assert Grows(s.txns[r], s'.txns[r], s.clock);
    if Pending(s', t, o, r) {
      PendingBack(s, s', a, t, o, r);
    }
  }

  lemma CertCarry(s: State, s': State, a: nat, t: nat, c: Cert)
    requires Evolve(s, s', a) && Sane(s) && a != t && t in s.txns && s.txns[t].pc == Certify(c)
    requires forall o :: o in s.txns[t].own ==> RecInv(s, o)
    requires KnownInv(s, t) && CertInv(s, t, c)
    ensures CertInv(s', t, c)
  {
    hide ScanInv, Pending, Probed, Only, Keeps, Grows, Wrote, HeadKept, VerInv;
    var x := s.txns[t];
    assert SaneTxn(x, s.clock);
    assert s'.txns[t] == x;
    if c.Spin? || c.SpinVerify? || c.TakeS? || c.TakeSVerify? {
      SuccessorCarry(s, s', a, t, c);
    } else if c.Scan? || c.XidOf? || c.ReadX? {
      PlainScanCarry(s, s', a, t, c);
    } else if c.ROwner? || c.RState? || c.REnd? || c.RVerify? || c.REnd2? || c.RState2? || c.RVerify2? || c.RSpin?
         || c.RSpinVerify? {
      ReaderCarry(s, s', a, t, c);
    } else {
      KnownReads(s, t);
      ProbeStable(s, s', a, t, c);
    }
  }

  lemma SuccessorCarry(s: State, s': State, a: nat, t: nat, c: Cert)
    requires Evolve(s, s', a) && Sane(s) && a != t && t in s.txns && s.txns[t].pc == Certify(c)
    requires c.Spin? || c.SpinVerify? || c.TakeS? || c.TakeSVerify?
    requires KnownInv(s, t) && CertInv(s, t, c)
    ensures CertInv(s', t, c)
  {
    var x := s.txns[t];
    assert SaneTxn(x, s.clock) && SaneTxn(s.txns[c.u], s.clock);
    assert Grows(s.txns[c.u], s'.txns[c.u], s.clock);
    assert Knows(x, x.rset[c.i]);
    OnlyStable(s, s', a, t, x.rset[c.i], c.u);
  }

  lemma PlainScanCarry(s: State, s': State, a: nat, t: nat, c: Cert)
    requires Evolve(s, s', a) && Sane(s) && a != t && t in s.txns && s.txns[t].pc == Certify(c)
    requires forall o :: o in s.txns[t].own ==> RecInv(s, o)
    requires c.Scan? || c.XidOf? || c.ReadX?
    requires CertInv(s, t, c)
    ensures CertInv(s', t, c)
  {
    hide Evolve, Sane, RecInv, Keeps, Only, Danger, Probed;
    var x := s.txns[t];
    SanePoint(s, t);
    OtherTxns(s, s', a, t, t);
    EvolvedFlag(s, s', a);
    if c.j < |x.wset| {
      var o := x.wset[c.j];
      KeptHead(s, s', a, t, o);
      forall r | Pending(s', t, o, r) ensures Pending(s, t, o, r) && s'.txns[r].slot == s.txns[r].slot {
        PendingBack(s, s', a, t, o, r);
      }
    }
  }

  lemma KeptHead(s: State, s': State, a: nat, t: nat, o: nat)
    requires Evolve(s, s', a) && a != t && t in s.txns && o in s.txns[t].own
    ensures HeadKept(s, s', o)
  {
  }

  lemma EvolvedFlag(s: State, s': State, a: nat)
    requires Evolve(s, s', a)
    ensures s'.setup == s.setup
  {
  }

  lemma OtherTxns(s: State, s': State, a: nat, t: nat, r: nat)
    requires Evolve(s, s', a) && t in s.txns && r in s.txns && a != t
    ensures t in s'.txns && s'.txns[t] == s.txns[t] && r in s'.txns && Grows(s.txns[r], s'.txns[r], s.clock)
  {
  }

  lemma ReaderCarry(s: State, s': State, a: nat, t: nat, c: Cert)
    requires Evolve(s, s', a) && Sane(s) && a != t && t in s.txns && s.txns[t].pc == Certify(c)
    requires forall o :: o in s.txns[t].own ==> RecInv(s, o)
    requires c.ROwner? || c.RState? || c.REnd? || c.RVerify? || c.REnd2? || c.RState2? || c.RVerify2? || c.RSpin?
               || c.RSpinVerify?
    requires CertInv(s, t, c)
    ensures CertInv(s', t, c)
  {
    hide Evolve, Sane, RecInv, ScanInv, Pending;
    OtherTxns(s, s', a, t, c.r);
    ScanCarry(s, s', a, t, c.j, c.k, c.cur, c.r);
    if c.REnd? { ProbedCarry(s, s', a, t, c.j, c.r, c.st, 0); }
    if c.RVerify? || c.RVerify2? || c.RSpinVerify? { ProbedCarry(s, s', a, t, c.j, c.r, c.st, c.e); }
    if c.RState2? { ProbedCarry(s, s', a, t, c.j, c.r, Committing, c.e); }
  }

  lemma PointCarry(s: State, s': State, a: nat, t: nat)
    requires Evolve(s, s', a) && Base(s) && Base(s') && a != t && t in s.txns && KnownInv(s, t) && PointInv(s, t)
    ensures PointInv(s', t)
  {
    var x := s.txns[t];
    assert s'.txns[t] == x;
    if x.pc.Certify? {
      BaseIsSane(s);
      CertCarry(s, s', a, t, x.pc.c);
    } else if x.pc.Stamping? && x.pc.k == WriteC && x.pc.j < |x.wset| {
      StampingCarry(s, s', a, t);
    } else if x.pc.Post? {
      PostCarry(s, s', a, t);
    } else if x.pc.Updating? {
      assert TxnInv(x, s.clock);
      assert HeadKept(s, s', x.pc.o);
    }
  }

  lemma PostCarry(s: State, s': State, a: nat, t: nat)
    requires Evolve(s, s', a) && Base(s) && a != t && t in s.txns && KnownInv(s, t) && PointInv(s, t)
    requires s.txns[t].pc.Post?
    ensures PointInv(s', t)
  {
    hide Base, Keeps, Wrote, HeadKept;
    var x := s.txns[t];
    OtherTxns(s, s', a, t, t);
    if x.pc.i < |x.rset| {
      var v := x.rset[x.pc.i];
      assert Knows(x, v);
      KeptAccess(s, s', a, v);
    }
    if x.pc.q.POwner? || x.pc.q.PEnd? || x.pc.q.PVerify? || x.pc.q.PSpin? || x.pc.q.PSpinVerify? {
      OtherTxns(s, s', a, t, x.pc.q.u);
    }
    hide Evolve, KnownInv;
  }

  lemma KeptAccess(s: State, s': State, a: nat, v: Vid)
    requires Evolve(s, s', a) && Stamped(s, v)
    ensures Has(s', v) && At(s', v).xstamp >= At(s, v).xstamp
  {
    assert Keeps(s, s', a, v.o, v.i);
  }

  lemma StampingCarry(s: State, s': State, a: nat, t: nat)
    requires Evolve(s, s', a) && a != t && t in s.txns && TxnInv(s.txns[t], s.clock) && PointInv(s, t)
    requires var x := s.txns[t]; x.pc.Stamping? && x.pc.k == WriteC && x.pc.j < |x.wset|
    ensures PointInv(s', t)
  {
    var x := s.txns[t];
    var o := x.wset[x.pc.j];
    DropEntry(x.wset, x.pc.j);
    assert HeadKept(s, s', o);
  }

  // Everybody but the actor keeps everything.
  lemma OthersKeep(s: State, s': State, a: nat, t: nat)
    requires Evolve(s, s', a) && Base(s) && Base(s') && a != t && t in s.txns && TxnSsn(s, t)
    requires || s'.recs == s.recs || Open(s.txns[t]) >= |s.txns[t].rset| || !s.setup.placed
             || s'.txns[a].slot != s.txns[t].slot
    ensures TxnSsn(s', t)
  {
    var x := s.txns[t];
    assert s'.txns[t] == x;
    assert TxnInv(x, s.clock);
    BaseIsSane(s);
    KnownCarry(s, s', a, t);
    SeenCarry(s, s', a, t);
    if s.setup.placed && Open(x) < |x.rset| { ForeignBitsKept(s, s', a, x.slot); }
    BitsCarry(s, s', a, t);
    PrevCarry(s, s', a, t);
    ReadsCoveredCarry(s, s', a, t, Checked(x));
    WritesCoveredCarry(s, s', a, t, Scanned(x));
    PointCarry(s, s', a, t);
  }

  // ----- a step that stores only in the actor's context -----

  // What such a step must respect for the stamps gathered so far to keep their meaning.
  ghost predicate Follows(x: Txn, x': Txn) {
    && x'.cs == x.cs && x'.rset == x.rset && x'.seen == x.seen && x.wset <= x'.wset && x.pstamp <= x'.pstamp
    && (x'.sstamp == x.sstamp || 0 < x'.sstamp <= x.sstamp)
    && (x'.state == Abrtd || x.state != Abrtd)
    && (x'.state == Abrtd || Open(x') == Open(x))
    && !(x.pc.Reading? && x.pc.r == Register) && !(x.pc.Updating? && x.pc.p == TakeX)
    && (x'.pc.Reading? ==> x'.pc == x.pc)
  }

  lemma OwnCarry(s: State, s': State, t: nat)
    requires Evolve(s, s', t) && Base(s) && Base(s') && t in s.txns && TxnSsn(s, t)
    requires s'.recs == s.recs && Follows(s.txns[t], s'.txns[t])
    ensures KnownInv(s', t) && SeenInv(s', t) && BitsInv(s', t) && PrevInv(s', t)
    ensures ReadsCovered(s', t, Checked(s.txns[t])) && WritesCovered(s', t, Scanned(s.txns[t]))
  {
    var x := s.txns[t];
    assert TxnInv(x, s.clock);
    BaseIsSane(s);
    KnownCarry(s, s', t, t);
    SeenCarry(s, s', t, t);
    ForeignBitsKept(s, s', t, x.slot);
    BitsCarry(s, s', t, t);
    PrevCarry(s, s', t, t);
    ReadsCoveredCarry(s, s', t, t, Checked(x));
    WritesCoveredCarry(s, s', t, t, Scanned(x));
  }

  // The common shape of such steps: what is left to show once the stamps are carried over.
  ghost predicate StoreStep(s: State, s': State, t: nat) {
    && t in s.txns && t in s'.txns && s'.recs == s.recs && Follows(s.txns[t], s'.txns[t])
    && BoundInv(s'.txns[t], s'.clock) && PointInv(s', t)
    && Checked(s'.txns[t]) <= Checked(s.txns[t]) && Scanned(s'.txns[t]) <= Scanned(s.txns[t])
  }

  lemma StoreOwn(s: State, s': State, t: nat)
    requires Evolve(s, s', t) && Base(s) && Base(s') && t in s.txns && TxnSsn(s, t) && StoreStep(s, s', t)
    ensures TxnSsn(s', t)
  {
    hide TxnInv, VerInv, OwnInv, Distinct, Keeps, Grows, KnownInv, SeenInv, BitsInv, PrevInv, ReadCovered,
         WriteCovered, PointInv;
    OwnCarry(s, s', t);
  }

  lemma SharedDetail(s: State, s': State, t: nat)
    requires Shared(s, s', t) && !Probe(s, s', t) && TxnInv(s.txns[t], s.clock) && BoundInv(s.txns[t], s.clock)
    ensures StoreStep(s, s', t)
  {
    hide ScanInv, Probed, Only, Danger, Pending, Elems, NoDup, SetCommitted, StartAbort, EndAbort, FreeUnlisted;
    if SetCommitted(s, s', t) || StartAbort(s, s', t) || EndAbort(s, s', t) || FreeUnlisted(s, s', t) {
      EndDetail(s, s', t);
    }
  }

  lemma EndDetail(s: State, s': State, t: nat)
    requires SetCommitted(s, s', t) || StartAbort(s, s', t) || EndAbort(s, s', t) || FreeUnlisted(s, s', t)
    requires TxnInv(s.txns[t], s.clock) && BoundInv(s.txns[t], s.clock)
    ensures StoreStep(s, s', t)
  {
    hide ScanInv, Probed, Only, Danger, Pending, Elems, NoDup;
  }

  lemma SharedOwn(s: State, s': State, t: nat)
    requires t in s.txns && Shared(s, s', t) && !Probe(s, s', t)
    requires Evolve(s, s', t) && Base(s) && Base(s') && TxnSsn(s, t)
    ensures t in s'.txns && TxnSsn(s', t)
  {
    hide TxnInv, VerInv, OwnInv, Distinct, Evolve, KnownInv, SeenInv, BitsInv, PrevInv, ReadsCovered, WritesCovered,
         PointInv;
    SharedDetail(s, s', t);
    StoreOwn(s, s', t);
  }

  lemma ProbeOwn(s: State, s': State, t: nat)
    requires Probe(s, s', t)
    requires Evolve(s, s', t) && Base(s) && Base(s') && TxnSsn(s, t)
    ensures TxnSsn(s', t)
  {
    hide Base, Evolve, SeenInv, BitsInv, PrevInv, KnownInv, ReadsCovered, WritesCovered, ProbeInv, Probe, PointInv;
    ProbeShape(s, s', t);
    KnownReads(s, t);
    ProbePoint(s, t);
    ProbeAdvances(s, s', t);
    ProbePoint(s', t);
    OwnCarry(s, s', t);
    if s'.txns[t].pc.c.i > s.txns[t].pc.c.i {
      SafeIsCovered(s', t, s.txns[t].pc.c.i);
    }
  }

  lemma KnownReads(s: State, t: nat)
    requires t in s.txns && KnownInv(s, t)
    ensures ReadsStamped(s, t)
  {
    forall k | 0 <= k < |s.txns[t].rset| ensures Stamped(s,
         s.txns[t].rset[k]) { assert Knows(s.txns[t], s.txns[t].rset[k]); }
  }

  lemma ProbePoint(s: State, t: nat)
    requires t in s.txns && s.txns[t].pc.Certify? && IsProbe(s.txns[t].pc.c)
    ensures PointInv(s, t) <==> ProbeInv(s, t, s.txns[t].pc.c)
    ensures Checked(s.txns[t]) == (if s.txns[t].decided then |s.txns[t].rset| else s.txns[t].pc.c.i)
  {
  }

  lemma SafeIsCovered(s: State, t: nat, i: nat)
    requires t in s.txns && i < |s.txns[t].rset| && Safe(s, t, s.txns[t].rset[i]) && ReadsCovered(s, t, i)
    ensures ReadsCovered(s, t, i + 1)
  {
    assert ReadCovered(s, t, s.txns[t].rset[i]);
  }

  lemma InitHighOwn(s: State, s': State, t: nat)
    requires InitHigh(s, s', t)
    requires Evolve(s, s', t) && Base(s) && Base(s') && TxnSsn(s, t)
    ensures TxnSsn(s', t)
  {
    hide Base, Evolve, KnownInv, SeenInv, BitsInv, PrevInv, ReadCovered, WriteCovered;
    var x := s.txns[t];
    OwnTxn(s, t);
    BaseIsSane(s);
    KnownCarry(s, s', t, t);
    SeenCarry(s, s', t, t);
    assert BitsKept(s, s', x.slot);
    BitsCarry(s, s', t, t);
    PrevCarry(s, s', t, t);
    WritesCoveredCarry(s, s', t, t, 0);
  }

  // ----- pre-commit check of reads -----

  // Checking one more read with a high watermark no larger than its overwriter's covers it.
  lemma CoverOneMore(s: State, s': State, t: nat, i: nat, u: nat)
    requires t in s.txns && t in s'.txns && s'.recs == s.recs && s'.txns == s.txns[t := s'.txns[t]]
    requires var x, x' := s.txns[t], s'.txns[t]; x'.cs == x.cs && x'.rset == x.rset && i < |x.rset|
    requires Only(s, t, s.txns[t].rset[i], u)
    requires Danger(s, t, s.txns[t].rset[i], u) ==> s.txns[u].decided && s'.txns[t].sstamp <= s.txns[u].sstamp
    requires ReadsCovered(s', t, i)
    ensures ReadsCovered(s', t, i + 1)
  {
    var v := s.txns[t].rset[i];
    forall w | Danger(s', t, v, w) ensures s'.txns[w].decided && s'.txns[t].sstamp <= s'.txns[w].sstamp {
      assert Danger(s, t, v, w);
    }
    assert ReadCovered(s', t, v);
  }

  lemma LoadSettledOwn(s: State, s': State, t: nat)
    requires LoadSettled(s, s', t)
    requires Evolve(s, s', t) && Base(s) && Base(s') && TxnSsn(s, t)
    requires forall u :: u in s.txns ==> BoundInv(s.txns[u], s.clock)
    ensures TxnSsn(s', t)
  {
    hide TxnInv, VerInv, OwnInv, Distinct, Evolve, SeenInv, BitsInv, PrevInv, KnownInv, ReadsCovered, WritesCovered,
         Only;
    var x := s.txns[t];
    var i := x.pc.c.i;
    var v := x.rset[i];
    KnownReads(s, t);
    BaseIsSane(s);
    LoadedStamp(s, t, v);
    var w := s.recs[v.o][v.i + 1].writer;
    assert BoundInv(s.txns[w], s.clock);
    OwnCarry(s, s', t);
    CoverOneMore(s, s', t, i, w);
  }

  lemma ReadsDoneOwn(s: State, s': State, t: nat)
    requires ReadsDone(s, s', t)
    requires Evolve(s, s', t) && Base(s) && Base(s') && TxnSsn(s, t)
    ensures TxnSsn(s', t)
  {
    hide TxnInv, VerInv, OwnInv, Distinct, Evolve, SeenInv, BitsInv, PrevInv, KnownInv, ReadsCovered, WritesCovered;
    BaseIsSane(s);
    assert SaneTxn(s.txns[t], s.clock);
    OwnCarry(s, s', t);
  }

  // What a step of `CheckSuccessor` does: it stays with this read, or leaves it covered.
  ghost predicate Succeeds(s: State, s': State, t: nat) {
    && t in s.txns && t in s'.txns && s.txns[t].pc.Certify? && s'.txns[t].pc.Certify?
    && s' == SetTxn(s, t, s.txns[t].(pc := s'.txns[t].pc, sstamp := s'.txns[t].sstamp))
    && 0 < s'.txns[t].sstamp <= s.txns[t].sstamp
    && var x, c, c' := s.txns[t], s.txns[t].pc.c, s'.txns[t].pc.c;
       && (c.Verify2? || c.Spin? || c.SpinVerify? || c.TakeS? || c.TakeSVerify?) && c.u in s.txns
       && (c'.Load? || c'.Spin? || c'.SpinVerify? || c'.TakeS? || c'.TakeSVerify?)
       && c.i < |x.rset| && Only(s, t, x.rset[c.i], c.u)
       && (c'.i == c.i
           || (&& c'.i == c.i + 1 && c'.Load?
               && (Danger(s, t, x.rset[c.i], c.u) ==> s.txns[c.u].decided && s'.txns[t].sstamp <= s.txns[c.u].sstamp)))
  }

  lemma SuccessorShape(s: State, s': State, t: nat)
    requires CheckSuccessor(s, s', t) && PointInv(s, t) && BoundInv(s.txns[t], s.clock)
    requires forall u :: u in s.txns ==> BoundInv(s.txns[u], s.clock) && SaneTxn(s.txns[u], s.clock)
    ensures Succeeds(s, s', t)
  {
    hide PointInv, BoundInv, SaneTxn, Succeeds, SetTxn;
    match s.txns[t].pc.c
    case TakeS(_, _) => TakeShape(s, s', t);
    case TakeSVerify(_, _, _) => TakeShape(s, s', t);
    case Verify2(_, _, _, _) => MeetShape(s, s', t);
    case _ => SpinShape(s, s', t);
  }

  lemma MeetShape(s: State, s': State, t: nat)
    requires CheckSuccessor(s, s', t) && PointInv(s, t) && BoundInv(s.txns[t], s.clock) && s.txns[t].pc.c.Verify2?
    ensures Succeeds(s, s', t)
  {
    hide Only, Danger, ScanInv, Pending, Probed;
  }

  lemma TakeShape(s: State, s': State, t: nat)
    requires CheckSuccessor(s, s', t) && PointInv(s, t) && BoundInv(s.txns[t], s.clock)
    requires s.txns[t].pc.c.TakeS? || s.txns[t].pc.c.TakeSVerify?
    requires forall u :: u in s.txns ==> BoundInv(s.txns[u], s.clock) && SaneTxn(s.txns[u], s.clock)
    ensures Succeeds(s, s', t)
  {
    hide Only, Danger, ScanInv, Pending, Probed;
    assert BoundInv(s.txns[s.txns[t].pc.c.u], s.clock);
  }

  lemma SpinShape(s: State, s': State, t: nat)
    requires CheckSuccessor(s, s', t) && PointInv(s, t) && BoundInv(s.txns[t], s.clock)
    requires s.txns[t].pc.c.Spin? || s.txns[t].pc.c.SpinVerify?
    ensures Succeeds(s, s', t)
  {
    hide ProbeInv, Only, Danger, ScanInv, Pending, Probed;
  }

  lemma SuccessorPoint(s: State, s': State, t: nat)
    requires CheckSuccessor(s, s', t) && PointInv(s, t) && s.txns[t].cs > 0
    requires forall u :: u in s.txns ==> SaneTxn(s.txns[u], s.clock)
    ensures t in s'.txns && PointInv(s', t)
  {
    hide ScanInv, Pending, Probed, Has, At;
    SuccessorMoves(s, s', t);
    var x := s.txns[t];
    var c := x.pc.c;
    var v := x.rset[c.i];
    DangerSame(s, s', t, v);
    assert Only(s', t, v, c.u) <==> Only(s, t, v, c.u);
    hide Danger, Only;
    assert SaneTxn(s.txns[c.u], s.clock);
  }

  lemma SuccessorMoves(s: State, s': State, t: nat)
    requires CheckSuccessor(s, s', t)
    ensures t in s.txns && t in s'.txns && s'.recs == s.recs && s'.txns == s.txns[t := s'.txns[t]]
    ensures s.txns[t].pc.Certify? && s'.txns[t].pc.Certify? && !s.txns[t].pc.c.Load? && s'.txns[t].cs == s.txns[t].cs
  {
  }

  lemma DangerSame(s: State, s': State, t: nat, v: Vid)
    requires t in s.txns && t in s'.txns && s'.recs == s.recs && s'.txns == s.txns[t := s'.txns[t]]
    requires s'.txns[t].cs == s.txns[t].cs
    ensures forall w :: Danger(s', t, v, w) <==> Danger(s, t, v, w)
  {
  }

  lemma CheckSuccessorOwn(s: State, s': State, t: nat)
    requires CheckSuccessor(s, s', t)
    requires Evolve(s, s', t) && Base(s) && Base(s') && TxnSsn(s, t)
    requires forall u :: u in s.txns ==> BoundInv(s.txns[u], s.clock)
    ensures TxnSsn(s', t)
  {
    hide TxnInv, VerInv, OwnInv, Distinct, Evolve, SeenInv, BitsInv, PrevInv, KnownInv, ReadsCovered, WritesCovered,
         Only, PointInv, CheckSuccessor, Danger;
    BaseIsSane(s);
    SuccessorShape(s, s', t);
    SuccessorPoint(s, s', t);
    OwnCarry(s, s', t);
    if s'.txns[t].pc.c.i > s.txns[t].pc.c.i {
      CoverOneMore(s, s', t, s.txns[t].pc.c.i, s.txns[t].pc.c.u);
    }
  }

  // ----- pre-commit check of writes -----

  // The handshake as the scanning writer uses it: a reader not covered by `xstamp` is in the bitmap
  // and in the global table.
  lemma PendingListed(s: State, t: nat, o: nat, r: nat)
    requires SlotInv(s) && t in s.txns && Pending(s, t, o, r)
    requires BitsInv(s, r) && TxnInv(s.txns[r], s.clock)
    ensures s.txns[r].slot in s.recs[o][|s.recs[o]| - 2].readers
    ensures s.txns[r].slot in s.rlist && s.rlist[s.txns[r].slot] == r && s.txns[r].slot / 64 < WORDS
    ensures !s.txns[r].freed && s.txns[r].state != Active && s.txns[r].state != Abrtd
  {
    var x := s.txns[r];
    var v := Vid(o, |s.recs[o]| - 2);
    var k :| 0 <= k < |x.rset| && x.rset[k] == v;
    assert Has(s, x.rset[k]);
  }

  // What the scan may rely on for every reader.
  ghost predicate Handshake(s: State, t: nat, o: nat) {
    && t in s.txns
    && forall r :: Pending(s, t, o, r) ==>
         && s.txns[r].slot in s.recs[o][|s.recs[o]| - 2].readers
         && s.txns[r].slot in s.rlist && s.rlist[s.txns[r].slot] == r && s.txns[r].slot / 64 < WORDS
         && !s.txns[r].freed && s.txns[r].state != Active && s.txns[r].state != Abrtd
  }

  lemma AllListed(s: State, t: nat, o: nat)
    requires Inv(s) && t in s.txns
    ensures Handshake(s, t, o)
  {
    hide VerInv, OwnInv, Distinct, KnownInv, SeenInv, PrevInv, BoundInv, ReadsCovered, WritesCovered, PointInv,
         BitsInv, TxnInv;
    forall r | Pending(s, t, o, r)
      ensures && s.txns[r].slot in s.recs[o][|s.recs[o]| - 2].readers
              && s.txns[r].slot in s.rlist && s.rlist[s.txns[r].slot] == r && s.txns[r].slot / 64 < WORDS
              && !s.txns[r].freed && s.txns[r].state != Active && s.txns[r].state != Abrtd
    {
      assert TxnSsn(s, r);
      PendingListed(s, t, o, r);
    }
  }

  lemma PendingSame(s: State, s': State, t: nat, o: nat)
    requires t in s.txns && t in s'.txns && s'.recs == s.recs && s'.txns == s.txns[t := s'.txns[t]]
    requires s'.txns[t].cs == s.txns[t].cs && s.txns[t].pstamp <= s'.txns[t].pstamp && s'.setup == s.setup
    ensures forall r :: Pending(s', t, o, r) ==> Pending(s, t, o, r) && r != t && s.txns[r].cs > s'.txns[t].pstamp
  {
  }

  // The scan only moves its program point and raises its low watermark.
  ghost predicate Scans(s: State, s': State, t: nat) {
    && t in s.txns && t in s'.txns && s'.recs == s.recs && s'.txns == s.txns[t := s'.txns[t]]
    && s'.txns[t].cs == s.txns[t].cs && s.txns[t].pstamp <= s'.txns[t].pstamp
    && s'.txns[t].wset == s.txns[t].wset && s'.txns[t].slot == s.txns[t].slot && s'.setup == s.setup
  }

  // Before any word is loaded every reader is still to be seen.
  lemma FirstWord(s: State, t: nat, j: nat)
    requires t in s.txns && j < |s.txns[t].wset|
    ensures ScanInv(s, t, j, 0, {}, -1)
  {
  }

  lemma NextWord(s: State, s': State, t: nat, j: nat, k: nat, cur: set<nat>)
    requires Scans(s, s', t) && ScanInv(s, t, j, k, {}, -1) && Handshake(s, t, s.txns[t].wset[j]) && k < WORDS
    requires s.txns[t].wset[j] in s.recs
    requires var c := s.recs[s.txns[t].wset[j]]; |c| > 1 && cur == WordOf(c[|c| - 2], k)
    requires TableInv(s)
    ensures ScanInv(s', t, j, k + 1, cur, -1)
  {
    var o := s.txns[t].wset[j];
    assert Has(s, Vid(o, |s.recs[o]| - 2));
    PendingSame(s, s', t, o);
    hide Pending;
    forall r | Pending(s', t, o, r) ensures s'.txns[r].slot / 64 >= k + 1 || s'.txns[r].slot in cur {
      assert s'.txns[r].slot == s.txns[r].slot && s.txns[r].slot / 64 >= k;
    }
  }

  lemma LastWord(s: State, s': State, t: nat, j: nat)
    requires Scans(s, s', t) && ScanInv(s, t, j, WORDS, {}, -1) && Handshake(s, t, s.txns[t].wset[j])
    ensures forall r :: !Pending(s', t, s.txns[t].wset[j], r)
  {
    PendingSame(s, s', t, s.txns[t].wset[j]);
    hide Pending;
  }

  lemma NextBit(s: State, s': State, t: nat, j: nat, k: nat, cur: set<nat>, q: nat)
    requires Scans(s, s', t) && ScanInv(s, t, j, k, cur, -1) && Handshake(s, t, s.txns[t].wset[j]) && q in cur
    requires s.setup.placed ==> s.txns[t].slot in s.rlist && s.rlist[s.txns[t].slot] == t
    ensures q == s.txns[t].slot ==> ScanInv(s', t, j, k, cur - {q}, -1)
    ensures q != s.txns[t].slot ==> CertInv(s', t, XidOf(j, k, cur - {q}, q))
  {
    PendingSame(s, s', t, s.txns[t].wset[j]);
    hide Pending;
  }

  // Program points of the write check.
  ghost predicate IsScan(c: Cert) {
    c.Scan? || c.XidOf? || c.ROwner? || c.RState? || c.REnd? || c.RVerify? || c.REnd2? || c.RState2? || c.RVerify2?
    || c.RSpin? || c.RSpinVerify? || c.ReadX?
  }

  // A step of the write check, with write `j` either still open or now covered.
  ghost predicate ScanStep(s: State, s': State, t: nat) {
    && Scans(s, s', t) && s'.txns[t] == s.txns[t].(pc := s'.txns[t].pc, pstamp := s'.txns[t].pstamp)
    && s'.clock == s.clock
    && s.txns[t].pc.Certify? && IsScan(s.txns[t].pc.c) && s'.txns[t].pc.Certify? && IsScan(s'.txns[t].pc.c)
    && PointInv(s', t)
    && (s'.txns[t].pc.c.j == s.txns[t].pc.c.j
        || (&& s'.txns[t].pc.c.j == s.txns[t].pc.c.j + 1 && s.txns[t].pc.c.j < |s.txns[t].wset|
            && WriteCovered(s', t, s.txns[t].wset[s.txns[t].pc.c.j])))
  }

  lemma ScanCounts(x: Txn)
    requires x.pc.Certify? && IsScan(x.pc.c) && !x.decided
    ensures Checked(x) == |x.rset| && Scanned(x) == x.pc.c.j
  {
  }

  lemma ScanOwn(s: State, s': State, t: nat)
    requires Evolve(s, s', t) && Base(s) && Base(s') && t in s.txns && TxnSsn(s, t) && ScanStep(s, s', t)
    ensures TxnSsn(s', t)
  {
    hide TxnInv, VerInv, OwnInv, Distinct, Evolve, KnownInv, SeenInv, BitsInv, PrevInv, ReadsCovered, WriteCovered,
         PointInv, Checked, Scanned;
    BaseIsSane(s);
    assert SaneTxn(s.txns[t], s.clock);
    ScanCounts(s.txns[t]);
    ScanCounts(s'.txns[t]);
    OwnCarry(s, s', t);
  }

  lemma WritesDoneOwn(s: State, s': State, t: nat)
    requires WritesDone(s, s', t)
    requires Evolve(s, s', t) && Base(s) && Base(s') && TxnSsn(s, t)
    ensures TxnSsn(s', t)
  {
    hide Base, Evolve, KnownInv, SeenInv, BitsInv, PrevInv, ReadsCovered, WritesCovered, ScanInv, Probed, Only, Danger,
         Pending;
    OwnTxn(s, t);
    hide TxnInv;
    OwnCarry(s, s', t);
  }

  lemma SkipInsertStep(s: State, s': State, t: nat)
    requires SkipInsert(s, s', t)
    ensures ScanStep(s, s', t)
  {
    hide ScanInv, Probed, ProbeInv, Only, Danger, Pending;
    var j := s.txns[t].pc.c.j;
    if j + 1 < |s.txns[t].wset| { FirstWord(s', t, j + 1); }
  }

  lemma LoadWordStep(s: State, s': State, t: nat)
    requires LoadWord(s, s', t) && TableInv(s) && PointInv(s, t) && Handshake(s, t, s.txns[t].wset[s.txns[t].pc.c.j])
    ensures ScanStep(s, s', t)
  {
    hide ScanInv, Probed, ProbeInv, Only, Danger, Pending, Handshake;
    var j, k := s.txns[t].pc.c.j, s.txns[t].pc.c.k;
    var c := s.recs[s.txns[t].wset[j]];
    ScanBound(s, t, j, k);
    if k < WORDS {
      NextWord(s, s', t, j, k, WordOf(c[|c| - 2], k));
    } else {
      LastWord(s, s', t, j);
    }
  }

  lemma ScanBound(s: State, t: nat, j: nat, k: nat)
    requires t in s.txns && ScanInv(s, t, j, k, {}, -1)
    ensures k <= WORDS
  {
  }

  lemma TakeBitStep(s: State, s': State, t: nat, q: nat)
    requires TakeBit(s, s', t, q) && PointInv(s, t) && Handshake(s, t, s.txns[t].wset[s.txns[t].pc.c.j]) && SlotInv(s)
    ensures ScanStep(s, s', t)
  {
    hide ScanInv, Probed, ProbeInv, Only, Danger, Handshake;
    var c := s.txns[t].pc.c;
    NextBit(s, s', t, c.j, c.k, c.cur, q);
  }

  lemma LoadReaderStep(s: State, s': State, t: nat)
    requires LoadReader(s, s', t) && PointInv(s, t) && SlotInv(s)
    requires Handshake(s, t, s.txns[t].wset[s.txns[t].pc.c.j])
    ensures ScanStep(s, s', t)
  {
    PendingSame(s, s', t, s.txns[t].wset[s.txns[t].pc.c.j]);
    hide Probed, ProbeInv, Only, Danger, Pending;
  }

  lemma LoadAccessStep(s: State, s': State, t: nat)
    requires LoadAccess(s, s', t) && PointInv(s, t)
    requires var o := s.txns[t].wset[s.txns[t].pc.c.j];
             forall v: Vid :: v.o == o && Overwrites(s, v, t) ==> v.i + 2 == |s.recs[o]|
    ensures ScanStep(s, s', t)
  {
    hide Probed, ProbeInv, Only, Danger, ScanInv;
    var x := s.txns[t];
    var j := x.pc.c.j;
    if j + 1 < |x.wset| { FirstWord(s', t, j + 1); }
    forall v: Vid, r | v.o == x.wset[j] && Overwrites(s', v, t) && Earlier(s', t, v, r)
      ensures s'.txns[r].cs <= s'.txns[t].pstamp
    {
      assert Overwrites(s, v, t) && Earlier(s, t, v, r);
      assert !Pending(s, t, x.wset[j], r);
    }
  }

  // Before it is decided a transaction's version in `o` is the head.
  lemma OnlyHead(s: State, t: nat, o: nat)
    requires Base(s) && t in s.txns && !s.txns[t].decided
    ensures forall v: Vid :: v.o == o && Overwrites(s, v, t) ==> v.i + 2 == |s.recs[o]|
  {
    forall v: Vid | v.o == o && Overwrites(s, v, t) ensures v.i + 2 == |s.recs[o]| {
      assert VerInv(s, o, v.i + 1);
    }
  }

  // The reader under inspection stays the only exception, and is none once it is not pending.
  lemma ScanMoves(s: State, s': State, t: nat, j: nat, k: nat, cur: set<nat>, r: nat)
    requires Scans(s, s', t) && ScanInv(s, t, j, k, cur, r)
    ensures ScanInv(s', t, j, k, cur, r)
    ensures !Pending(s', t, s.txns[t].wset[j], r) ==> ScanInv(s', t, j, k, cur, -1)
    ensures !Pending(s, t, s.txns[t].wset[j], r) ==> !Pending(s', t, s.txns[t].wset[j], r)
  {
    PendingSame(s, s', t, s.txns[t].wset[j]);
    hide Pending;
  }

  // The state and facts a reader check starts from.
  ghost predicate Inspecting(s: State, t: nat) {
    && t in s.txns && s.txns[t].pc.Certify? && IsScan(s.txns[t].pc.c) && s.txns[t].pc.c.j < |s.txns[t].wset|
    && PointInv(s, t) && Sane(s) && Handshake(s, t, s.txns[t].wset[s.txns[t].pc.c.j])
  }

  // One transition per line of the reader check; each keeps the facts of its target point.
  lemma LoadOwnerPoint(s: State, s': State, t: nat)
    requires LoadContext(s, s', t) && Inspecting(s, t) && (s.txns[t].pc.c.ROwner? || s.txns[t].pc.c.RState?)
    ensures t in s'.txns && PointInv(s', t)
  {
    hide ProbeInv, Only, Danger, ScanInv, Pending, Sane;
    var c := s.txns[t].pc.c;
    ScanMoves(s, s', t, c.j, c.k, c.cur, c.r);
  }

  lemma LoadEndPoint(s: State, s': State, t: nat)
    requires LoadContext(s, s', t) && Inspecting(s, t) && (s.txns[t].pc.c.REnd? || s.txns[t].pc.c.REnd2?)
    ensures t in s'.txns && PointInv(s', t)
  {
    hide ProbeInv, Only, Danger, ScanInv, Pending, Handshake;
    var c := s.txns[t].pc.c;
    ScanMoves(s, s', t, c.j, c.k, c.cur, c.r);
    assert SaneTxn(s.txns[c.r], s.clock);
  }

  lemma LoadStatePoint(s: State, s': State, t: nat)
    requires LoadContext(s, s', t) && Inspecting(s, t) && (s.txns[t].pc.c.RState2? || s.txns[t].pc.c.RSpin?)
    ensures t in s'.txns && PointInv(s', t)
  {
    hide ProbeInv, Only, Danger, ScanInv, Pending, Sane;
    var c := s.txns[t].pc.c;
    ScanMoves(s, s', t, c.j, c.k, c.cur, c.r);
  }

  lemma LoadContextStep(s: State, s': State, t: nat)
    requires LoadContext(s, s', t) && Inspecting(s, t)
    ensures ScanStep(s, s', t)
  {
    hide PointInv, Sane, Handshake;
    var c := s.txns[t].pc.c;
    if c.ROwner? || c.RState? {
      LoadOwnerPoint(s, s', t);
    } else if c.REnd? || c.REnd2? {
      LoadEndPoint(s, s', t);
    } else {
      LoadStatePoint(s, s', t);
    }
  }

  // A pending reader drew a smaller stamp, and waiting for it raises the low watermark to it.
  lemma PendingFacts(s: State, s': State, t: nat, j: nat, r: nat)
    requires Scans(s, s', t) && r in s.txns && r != t && j < |s.txns[t].wset|
    ensures Pending(s', t, s.txns[t].wset[j], r) ==>
              Pending(s, t, s.txns[t].wset[j], r) && 0 < s.txns[r].cs < s.txns[t].cs && s.txns[r].cs > s'.txns[t].pstamp
  {
  }

  lemma VerifyFirstPoint(s: State, s': State, t: nat)
    requires VerifyReader(s, s', t) && Inspecting(s, t) && Distinct(s) && s.txns[t].pc.c.RVerify?
    ensures t in s'.txns && PointInv(s', t)
  {
    hide ProbeInv, Only, Danger, ScanInv, Pending, Handshake;
    var c := s.txns[t].pc.c;
    ScanMoves(s, s', t, c.j, c.k, c.cur, c.r);
    PendingFacts(s, s', t, c.j, c.r);
    PendingAlive(s, t, c.j, c.r);
    assert SaneTxn(s.txns[c.r], s.clock) && SaneTxn(s.txns[t], s.clock);
  }

  lemma PendingAlive(s: State, t: nat, j: nat, r: nat)
    requires t in s.txns && j < |s.txns[t].wset| && Handshake(s, t, s.txns[t].wset[j])
    ensures Pending(s, t, s.txns[t].wset[j], r) ==> r in s.txns && !s.txns[r].freed
  {
  }

  lemma VerifyAgainPoint(s: State, s': State, t: nat)
    requires VerifyReader(s, s', t) && Inspecting(s, t) && Distinct(s) && s.txns[t].pc.c.RVerify2?
    ensures t in s'.txns && PointInv(s', t)
  {
    hide ProbeInv, Only, Danger, ScanInv, Pending, Handshake;
    var c := s.txns[t].pc.c;
    ScanMoves(s, s', t, c.j, c.k, c.cur, c.r);
    PendingFacts(s, s', t, c.j, c.r);
    PendingAlive(s, t, c.j, c.r);
    assert SaneTxn(s.txns[c.r], s.clock) && SaneTxn(s.txns[t], s.clock);
  }

  lemma VerifySpinPoint(s: State, s': State, t: nat)
    requires VerifyReader(s, s', t) && Inspecting(s, t) && s.txns[t].pc.c.RSpinVerify?
    ensures t in s'.txns && PointInv(s', t)
  {
    hide ProbeInv, Only, Danger, ScanInv, Pending, Handshake, Sane;
    var c := s.txns[t].pc.c;
    VerifyMoves(s, s', t);
    ScanMoves(s, s', t, c.j, c.k, c.cur, c.r);
    PendingFacts(s, s', t, c.j, c.r);
    PendingAlive(s, t, c.j, c.r);
    SpinTarget(s, s', t);
    hide VerifyReader, Inspecting, SetTxn;
  }

  // Where a spin on a reader may lead.
  lemma SpinTarget(s: State, s': State, t: nat)
    requires VerifyReader(s, s', t) && s.txns[t].pc.c.RSpinVerify?
    ensures var c, c' := s.txns[t].pc.c, s'.txns[t].pc.c;
            && t in s'.txns && s'.txns[t].pc.Certify? && c.r in s.txns
            && (|| (c' == Scan(c.j, c.k, c.cur)
                    && (s.txns[c.r].freed || c.st == Abrtd || (c.st == Cmmtd && s'.txns[t].pstamp >= c.e)))
                || (c' == RSpin(c.j, c.k, c.cur, c.r, c.e) && !s.txns[c.r].freed && c.st != Abrtd && c.st != Cmmtd))
  {
  }

  lemma VerifyReaderStep(s: State, s': State, t: nat)
    requires VerifyReader(s, s', t) && Inspecting(s, t) && Distinct(s)
    ensures ScanStep(s, s', t)
  {
    hide PointInv, Sane, Handshake, VerifyReader;
    VerifyMoves(s, s', t);
    var c := s.txns[t].pc.c;
    if c.RVerify? {
      VerifyFirstPoint(s, s', t);
    } else if c.RVerify2? {
      VerifyAgainPoint(s, s', t);
    } else {
      VerifySpinPoint(s, s', t);
    }
  }

  // Verifying a reader moves the program point within the check of one write, and may raise the low
  // watermark.
  lemma VerifyMoves(s: State, s': State, t: nat)
    requires VerifyReader(s, s', t)
    ensures t in s.txns && t in s'.txns && s' == SetTxn(s, t,
              s.txns[t].(pc := s'.txns[t].pc, pstamp := s'.txns[t].pstamp))
    ensures s.txns[t].pstamp <= s'.txns[t].pstamp && s.txns[t].pc.Certify? && s'.txns[t].pc.Certify?
    ensures var c, c' := s.txns[t].pc.c, s'.txns[t].pc.c;
            (c.RVerify? || c.RVerify2? || c.RSpinVerify?) && IsScan(c') && c'.j == c.j
  {
  }

  // All steps of the write check.
  ghost predicate WriteCheck(s: State, s': State, t: nat) {
    || SkipInsert(s, s', t) || LoadWord(s, s', t) || (exists q :: TakeBit(s, s', t, q)) || LoadReader(s, s', t)
    || LoadContext(s, s', t) || VerifyReader(s, s', t) || LoadAccess(s, s', t)
  }

  lemma WriteCheckStep(s: State, s': State, t: nat)
    requires WriteCheck(s, s', t) && Inv(s)
    ensures ScanStep(s, s', t)
  {
    hide VerInv, OwnInv, TxnInv, KnownInv, SeenInv, BitsInv, PrevInv, ReadsCovered, WritesCovered, PointInv, Distinct,
         SlotInv, ScanStep, Handshake, Sane, SkipInsert, LoadWord, TakeBit, LoadReader, LoadContext, VerifyReader,
         LoadAccess;
    WriteCheckPoint(s, s', t);
    assert TxnSsn(s, t);
    BaseIsSane(s);
    SanePoint(s, t);
    ScanIndex(s, t);
    if s.txns[t].pc.c.j < |s.txns[t].wset| {
      AllListed(s, t, s.txns[t].wset[s.txns[t].pc.c.j]);
    }
    if SkipInsert(s, s', t) {
      SkipInsertStep(s, s', t);
    } else if LoadWord(s, s', t) {
      LoadWordStep(s, s', t);
    } else if LoadReader(s, s', t) {
      LoadReaderStep(s, s', t);
    } else if LoadContext(s, s', t) {
      LoadContextStep(s, s', t);
    } else if VerifyReader(s, s', t) {
      VerifyReaderStep(s, s', t);
    } else if LoadAccess(s, s', t) {
      OnlyHead(s, t, s.txns[t].wset[s.txns[t].pc.c.j]);
      LoadAccessStep(s, s', t);
    } else {
      var q :| TakeBit(s, s', t, q);
      TakeBitStep(s, s', t, q);
    }
  }

  lemma SanePoint(s: State, t: nat)
    requires Sane(s) && t in s.txns
    ensures SaneTxn(s.txns[t], s.clock)
  {
  }

  lemma WriteCheckPoint(s: State, s': State, t: nat)
    requires WriteCheck(s, s', t)
    ensures t in s.txns && s.txns[t].pc.Certify? && IsScan(s.txns[t].pc.c)
    ensures s.txns[t].pc.c.Scan? ==> s.txns[t].pc.c.j < |s.txns[t].wset|
  {
  }

  lemma ScanIndex(s: State, t: nat)
    requires t in s.txns && s.txns[t].pc.Certify? && IsScan(s.txns[t].pc.c) && PointInv(s, t)
    requires s.txns[t].pc.c.Scan? ==> s.txns[t].pc.c.j < |s.txns[t].wset|
    ensures s.txns[t].pc.c.j < |s.txns[t].wset|
  {
  }

  lemma PassExclusionOwn(s: State, s': State, t: nat)
    requires PassExclusion(s, s', t)
    requires Evolve(s, s', t) && Base(s) && Base(s') && TxnSsn(s, t)
    ensures TxnSsn(s', t)
  {
    hide Base, Evolve, KnownInv, SeenInv, BitsInv, PrevInv, ReadsCovered, WritesCovered, Danger, Pending, ScanInv,
         Only, Probed;
    OwnTxn(s, t);
    StoreOwn(s, s', t);
  }

  lemma OwnTxn(s: State, t: nat)
    requires Base(s) && t in s.txns
    ensures TxnInv(s.txns[t], s.clock) && SaneTxn(s.txns[t], s.clock)
  {
    hide VerInv, OwnInv, Distinct;
    BaseIsSane(s);
  }
}
