/** Every step of `Ssi` keeps its invariant, hence it holds in every state of every run. */
module SsiInvariant {
  import opened Stamps
  import opened Ssi

  // ----- what a step leaves of a committed version -----

  // The version above `v` is as before, or its writer has committed after every earlier draw.
  ghost predicate SameOrNew(s: State, s': State, v: Vid) {
    Settled(s', v) ==> (Settled(s, v) && SettledAt(s', v) == SettledAt(s, v)) || SettledAt(s', v) > s.clock + 1
  }

  // Reader `drop` may leave; new overwriters commit above every snapshot.
  ghost predicate Keeps(s: State, s': State, drop: int, v: Vid) {
    Has(s, v) && At(s, v).clsn.Lsn? ==>
      && Has(s', v)
      && var a, b := At(s, v), At(s', v);
         && b.writer == a.writer && b.clsn == a.clsn && b.xstamp >= a.xstamp
         && (forall r :: r in a.readers && r != drop ==> r in b.readers)
         && (a.sstamp.Lsn? ==>
               && b.sstamp == a.sstamp && b.s2 == a.s2
               && (forall w :: Overwrote(s, w, v) ==> Overwrote(s', w, v)))
         && SameOrNew(s, s', v)
  }

  // A version that becomes marked by a pivot has no dangerous reader `u`.
  ghost predicate Harmless(s: State, s': State, u: nat, v: Vid)
    requires u in s'.txns
  {
    Has(s, v) && Has(s', v) && At(s', v).s2 != At(s, v).s2 && !Overwrote(s', u, v) ==>
      || (s'.txns[u].state == Cmmtd && s'.txns[u].end < At(s', v).s2)
      || (s'.txns[u].state == Active && v in s'.txns[u].rset)
  }

  // The reader's own context may only learn of earlier overwriters.
  ghost predicate SameReader(x: Txn, x': Txn, v: Vid) {
    && x'.begin == x.begin && x'.end == x.end && x'.state == x.state
    && (v in x'.rset <==> v in x.rset)
    && (x.ct3 > 0 ==> 0 < x'.ct3 <= x.ct3) && (x.state == Cmmtd ==> x'.ct3 == x.ct3)
  }

  lemma CarrySeen(s: State, s': State, u: nat, v: Vid, drop: int)
    requires u in s.txns && u in s'.txns && u != drop && SameReader(s.txns[u], s'.txns[u], v)
    requires s.txns[u].begin <= s.clock + 1 && (s.txns[u].state == Cmmtd ==> s.txns[u].end <= s.clock)
    requires SeenInv(s, u, v) && Keeps(s, s', drop, v) && Harmless(s, s', u, v)
    requires s'.placed == s.placed && s'.oneBlock == s.oneBlock
    requires At(s, v).s2 != 0 ==> At(s, v).sstamp.Lsn?
    ensures SeenInv(s', u, v)
  {
  }

  lemma MarkedIsStamped(s: State, v: Vid)
    requires Inv(s) && Has(s, v) && At(s, v).s2 != 0
    ensures At(s, v).sstamp.Lsn?
  {
    assert VerInv(s, v.o, v.i);
  }

  // Another transaction keeps its invariant.
  lemma OtherKeeps(s: State, s': State, t: nat, u: nat)
    requires Inv(s) && u in s.txns && u != t && u in s'.txns && s'.txns[u] == s.txns[u] && s.clock <= s'.clock
    requires s'.placed == s.placed && s'.oneBlock == s.oneBlock
    requires forall v :: v in s.txns[u].seen ==> Keeps(s, s', t, v)
    requires s.txns[u].state != Abrtd ==> forall v :: v in s.txns[u].seen ==> Harmless(s, s', u, v)
    requires forall o :: o in s.txns[u].wset && s.txns[u].state == Active ==>
               && o in s'.recs && |s'.recs[o]| > 0 && s'.recs[o][|s'.recs[o]| - 1].clsn == Xid(u)
    ensures TxnInv(s', u)
  {
    hide SeenInv, Keeps, Harmless;
    assert TxnInv(s, u);
    if s.txns[u].state != Abrtd {
      forall v | v in s.txns[u].seen ensures SeenInv(s', u, v) {
        SeenExists(s, u, v);
        if At(s, v).s2 != 0 { MarkedIsStamped(s, v); }
        CarrySeen(s, s', u, v, t);
      }
    }
  }

  lemma SeenExists(s: State, u: nat, v: Vid)
    requires u in s.txns && SeenInv(s, u, v)
    ensures Has(s, v) && At(s, v).clsn.Lsn?
  {
  }

  // ----- forward processing -----

  // `t` stays active, and only gains reads and writes.
  ghost predicate Runs(s: State, s': State, t: nat) {
    && t in s.txns && t in s'.txns && s'.txns == s.txns[t := s'.txns[t]] && s'.clock == s.clock
    && s'.placed == s.placed && s'.oneBlock == s.oneBlock
    && var x, x' := s.txns[t], s'.txns[t];
       && x.state == x'.state == Active && x'.begin == x.begin && x'.end == x.end
       && x.rset <= x'.rset && x.wset <= x'.wset
  }

  lemma VerFrame(s: State, s': State, t: nat, o: nat, i: nat)
    requires Runs(s, s', t) && o in s.recs && i < |s.recs[o]| && VerInv(s, o, i)
    requires i + 1 < |s.recs[o]| ==> VerInv(s, o, i + 1)
    requires o in s'.recs && s'.recs[o] == s.recs[o]
    ensures VerInv(s', o, i)
  {
    var v := s.recs[o][i];
    forall r | r in v.readers ensures r in s'.txns && s'.txns[r].state == Active && Vid(o, i) in s'.txns[r].rset {
    }
  }

  // Committed transactions do not change.
  ghost predicate Past(s: State, s': State) {
    forall w :: w in s.txns && s.txns[w].state == Cmmtd ==> w in s'.txns && s'.txns[w] == s.txns[w]
  }

  lemma SameKeeps(s: State, s': State, v: Vid, drop: int)
    requires Inv(s) && Past(s, s')
    requires v.o in s.recs ==> v.o in s'.recs && s'.recs[v.o] == s.recs[v.o]
    ensures Keeps(s, s', drop, v)
  {
    if Has(s, Vid(v.o, v.i + 1)) { assert VerInv(s, v.o, v.i + 1); }
  }

  lemma BeginKeeps(s: State, s': State, t: nat)
    requires Inv(s) && Begin(s, s', t)
    ensures Inv(s')
  {
    hide VerInv, TxnInv;
    forall o, i | o in s'.recs && 0 <= i < |s'.recs[o]| ensures VerInv(s', o, i) {
      assert VerInv(s, o, i);
      BeginVer(s, s', t, o, i);
    }
    forall u | u in s'.txns && u != t ensures TxnInv(s', u) { BeginOther(s, s', t, u); }
    BeginOwn(s, s', t);
  }

  lemma BeginVer(s: State, s': State, t: nat, o: nat, i: nat)
    requires Begin(s, s', t) && o in s.recs && i < |s.recs[o]| && VerInv(s, o, i)
    ensures VerInv(s', o, i)
  {
  }

  lemma BeginOwn(s: State, s': State, t: nat)
    requires Inv(s) && Begin(s, s', t)
    ensures TxnInv(s', t) && Apart(s')
  {
    hide VerInv, SeenInv;
    forall u | u in s.txns && s.txns[u].state == Cmmtd ensures s.txns[u].end <= s.clock { assert TxnInv(s, u); }
  }

  lemma BeginOther(s: State, s': State, t: nat, u: nat)
    requires Inv(s) && Begin(s, s', t) && u in s.txns
    ensures TxnInv(s', u)
  {
    assert TxnInv(s, u);
    hide Keeps, SeenInv, VerInv;
    forall v ensures Keeps(s, s', t, v) { SameKeeps(s, s', v, t); }
    OtherKeeps(s, s', t, u);
  }

  lemma LoseStampKeeps(s: State, s': State, n: nat)
    requires Inv(s) && LoseStamp(s, s', n)
    ensures Inv(s')
  {
    forall o, i | o in s'.recs && 0 <= i < |s'.recs[o]| ensures VerInv(s', o, i) { assert VerInv(s, o, i); }
    forall u | u in s'.txns ensures TxnInv(s', u) { LoseStampTxn(s, s', n, u); }
  }

  lemma LoseStampTxn(s: State, s': State, n: nat, u: nat)
    requires LoseStamp(s, s', n) && u in s.txns && TxnInv(s, u)
    ensures TxnInv(s', u)
  {
    forall v | v in s.txns[u].seen && SeenInv(s, u, v) ensures SeenInv(s', u, v) { }
  }

  ghost predicate ForeignHead(s: State, t: nat, o: nat)
    requires o in s.recs
  {
    var c := s.recs[o];
    |c| > 0 && c[|c| - 1].clsn.Xid? && c[|c| - 1].clsn.t != t
  }

  ghost predicate HeadKept(s: State, s': State, o: nat)
    requires o in s.recs
  {
    o in s'.recs && |s'.recs[o]| == |s.recs[o]| && (|s.recs[o]| > 0 ==>
        s'.recs[o][|s.recs[o]| - 1].clsn == s.recs[o][|s.recs[o]| - 1].clsn)
  }

  // Others during a step that keeps them all: nobody is newly marked by a pivot.
  lemma OthersRun(s: State, s': State, t: nat)
    requires Inv(s) && Runs(s, s', t)
    requires forall v :: Keeps(s, s', -1, v) && (Has(s, v) && Has(s', v) && At(s, v).clsn.Lsn? ==>
               At(s', v).s2 == At(s, v).s2)
    requires forall o :: o in s.recs && ForeignHead(s, t, o) ==> HeadKept(s, s', o)
    ensures forall u :: u in s'.txns && u != t ==> TxnInv(s', u)
  {
    forall u | u in s'.txns && u != t ensures TxnInv(s', u) {
      assert TxnInv(s, u);
      forall v | v in s.txns[u].seen ensures Keeps(s, s', t, v) { assert Keeps(s, s', -1, v); }
      if s.txns[u].state != Abrtd {
        forall v | v in s.txns[u].seen ensures Harmless(s, s', u, v) { SeenExists(s, u, v); }
      }
      forall o | o in s.txns[u].wset && s.txns[u].state == Active
        ensures o in s'.recs && |s'.recs[o]| > 0 && s'.recs[o][|s'.recs[o]| - 1].clsn == Xid(u)
      {
        assert ForeignHead(s, t, o) && HeadKept(s, s', o);
      }
      OtherKeeps(s, s', t, u);
    }
  }

  // The actor keeps what it knew about versions read earlier.
  lemma OwnSeen(s: State, s': State, t: nat, v: Vid)
    requires Inv(s) && Runs(s, s', t) && v in s.txns[t].seen && Keeps(s, s', -1, v)
    requires SameReader(s.txns[t], s'.txns[t], v) && (Has(s, v) && Has(s', v) ==> At(s', v).s2 == At(s, v).s2)
    ensures SeenInv(s', t, v)
  {
    assert TxnInv(s, t);
    SeenExists(s, t, v);
    if At(s, v).s2 != 0 { MarkedIsStamped(s, v); }
    CarrySeen(s, s', t, v, -1);
  }

  lemma MeetShape(s: State, s': State, t: nat, n: nat)
    requires MeetInvisible(s, s', t, n)
    ensures Runs(s, s', t) && s'.recs == s.recs
    ensures s'.txns[t] == s.txns[t].(ct3 := s'.txns[t].ct3, met := s'.txns[t].met)
    ensures s.txns[t].ct3 > 0 ==> 0 < s'.txns[t].ct3 <= s.txns[t].ct3
  {
  }

  lemma MeetKeeps(s: State, s': State, t: nat, n: nat)
    requires Inv(s) && MeetInvisible(s, s', t, n)
    ensures Inv(s')
  {
    MeetShape(s, s', t, n);
    hide MeetInvisible, Keeps, VerInv, TxnInv, Apart, HeadKept, ForeignHead;
    RunsPast(s, s', t);
    forall v ensures Keeps(s, s', -1, v) { SameKeeps(s, s', v, -1); }
    SameHeads(s, s');
    OthersRun(s, s', t);
    SameOwn(s, s', t);
    RunsApart(s, s', t);
    forall o, i | o in s'.recs && 0 <= i < |s'.recs[o]| ensures VerInv(s', o, i) {
      VerHolds(s, o, i);
      if i + 1 < |s.recs[o]| { VerHolds(s, o, i + 1); }
      VerFrame(s, s', t, o, i);
    }
  }

  lemma RunsPast(s: State, s': State, t: nat)
    requires Runs(s, s', t)
    ensures Past(s, s')
  {
  }

  lemma SameHeads(s: State, s': State)
    requires s'.recs == s.recs
    ensures forall o :: o in s.recs ==> HeadKept(s, s', o)
  {
  }

  // The actor, when nothing but its `ct3` and what it has met have changed.
  lemma SameOwn(s: State, s': State, t: nat)
    requires Inv(s) && Runs(s, s', t) && s'.recs == s.recs
    requires s'.txns[t] == s.txns[t].(ct3 := s'.txns[t].ct3, met := s'.txns[t].met)
    requires s.txns[t].ct3 > 0 ==> 0 < s'.txns[t].ct3 <= s.txns[t].ct3
    ensures TxnInv(s', t)
  {
    hide Inv, SeenInv, Keeps;
    TxnHolds(s, t);
    RunsPast(s, s', t);
    forall v | v in s'.txns[t].seen ensures SeenInv(s', t, v) {
      SameKeeps(s, s', v, -1);
      OwnSeen(s, s', t, v);
    }
  }

  lemma InsertShape(s: State, s': State, t: nat, o: nat)
    requires Insert(s, s', t, o) && TxnInv(s, t)
    ensures Runs(s, s', t) && s'.txns[t].rset == s.txns[t].rset && s'.txns[t].seen == s.txns[t].seen
              && s'.txns[t].ct3 == s.txns[t].ct3
    ensures forall p :: p in s.recs ==> p in s'.recs && s'.recs[p] == s.recs[p]
    ensures NoDup(s'.txns[t].wset)
    ensures forall p :: p in s'.txns[t].wset ==>
              p in s'.recs && |s'.recs[p]| > 0 && s'.recs[p][|s'.recs[p]| - 1].clsn == Xid(t)
  {
    hide SeenInv;
  }

  lemma InsertVer(s: State, s': State, t: nat, o: nat, p: nat, i: nat)
    requires Inv(s) && Insert(s, s', t, o) && Runs(s, s', t) && p in s'.recs && i < |s'.recs[p]|
    ensures VerInv(s', p, i)
  {
    if p != o {
      assert VerInv(s, p, i);
      VerFrame(s, s', t, p, i);
    }
  }

  lemma InsertKeeps(s: State, s': State, t: nat, o: nat)
    requires Inv(s) && Insert(s, s', t, o)
    ensures Inv(s')
  {
    hide Keeps, Insert, VerInv, TxnInv, Apart, HeadKept, ForeignHead;
    InsertActive(s, s', t, o);
    TxnHolds(s, t);
    InsertShape(s, s', t, o);
    RunsPast(s, s', t);
    forall v ensures Keeps(s, s', -1, v) && (Has(s, v) && Has(s', v) ==> At(s', v).s2 == At(s, v).s2) {
      SameKeeps(s, s', v, -1);
    }
    OldHeads(s, s');
    OthersRun(s, s', t);
    InsertOwn(s, s', t, o);
    RunsApart(s, s', t);
    forall p, i | p in s'.recs && 0 <= i < |s'.recs[p]| ensures VerInv(s', p, i) { InsertVer(s, s', t, o, p, i); }
  }

  lemma InsertActive(s: State, s': State, t: nat, o: nat)
    requires Insert(s, s', t, o)
    ensures t in s.txns
  {
  }

  lemma OldHeads(s: State, s': State)
    requires forall o :: o in s.recs ==> o in s'.recs && s'.recs[o] == s.recs[o]
    ensures forall o :: o in s.recs ==> HeadKept(s, s', o)
  {
  }

  lemma InsertOwn(s: State, s': State, t: nat, o: nat)
    requires Inv(s) && Insert(s, s', t, o)
    ensures t in s'.txns && TxnInv(s', t)
  {
    hide Inv, SeenInv, Keeps;
    TxnHolds(s, t);
    InsertShape(s, s', t, o);
    hide Insert;
    RunsPast(s, s', t);
    forall v | v in s'.txns[t].seen ensures SeenInv(s', t, v) {
      SameKeeps(s, s', v, -1);
      OwnSeen(s, s', t, v);
    }
  }

  // ----- update -----

  lemma UpdateVer(s: State, s': State, t: nat, o: nat, p: nat, i: nat)
    requires Inv(s) && Update(s, s', t, o) && p in s'.recs && i < |s'.recs[p]|
    ensures VerInv(s', p, i)
  {
    TxnHolds(s, t);
    UpdateShape(s, s', t, o);
    hide Inv, VerInv, TxnInv, HeadKept, ForeignHead;
    if p in s.recs && i < |s.recs[p]| {
      VerHolds(s, p, i);
      if i + 1 < |s.recs[p]| { VerHolds(s, p, i + 1); }
    }
    if p != o {
      VerFrame(s, s', t, p, i);
    } else if i < |s.recs[o]| {
      UpdatedVer(s, s', t, o, i);
    } else {
      NewVersion(s, s', t, o);
    }
  }

  lemma NewVersion(s: State, s': State, t: nat, o: nat)
    requires Update(s, s', t, o) && Runs(s, s', t)
    ensures VerInv(s', o, |s.recs[o]|)
  {
    assert o in s.txns[t].wset + [o];
  }

  // The versions of the updated record: the old head is marked, the others stay.
  lemma UpdatedVer(s: State, s': State, t: nat, o: nat, i: nat)
    requires Update(s, s', t, o) && Runs(s, s', t) && i < |s.recs[o]| && VerInv(s, o, i)
    requires i + 1 < |s.recs[o]| ==> VerInv(s, o, i + 1)
    ensures VerInv(s', o, i)
  {
    hide Tight;
    StillTight(s, s', t, s.recs[o][i], s'.recs[o][i]);
  }

  lemma StillTight(s: State, s': State, t: nat, v: Ver, v': Ver)
    requires Runs(s, s', t) && Tight(s, v) && v'.clsn == v.clsn && v'.writer == v.writer
    ensures Tight(s', v')
  {
  }

  lemma UpdateKeepsVer(s: State, s': State, t: nat, o: nat, v: Vid)
    requires Inv(s) && Update(s, s', t, o)
    ensures Keeps(s, s', -1, v)
    ensures Has(s, v) && Has(s', v) ==> At(s', v).s2 == At(s, v).s2
  {
    if v.o == o && v.i < |s.recs[o]| { assert VerInv(s, o, v.i); }
  }

  lemma UpdateShape(s: State, s': State, t: nat, o: nat)
    requires Update(s, s', t, o) && TxnInv(s, t)
    ensures Runs(s, s', t) && s'.txns[t].rset == s.txns[t].rset && s'.txns[t].seen == s.txns[t].seen
              && s'.txns[t].ct3 == s.txns[t].ct3
    ensures forall p :: p in s.recs && ForeignHead(s, t, p) ==> HeadKept(s, s', p)
    ensures NoDup(s'.txns[t].wset)
    ensures forall p :: p in s'.txns[t].wset ==>
              p in s'.recs && |s'.recs[p]| > 0 && s'.recs[p][|s'.recs[p]| - 1].clsn == Xid(t)
  {
    hide SeenInv;
  }

  lemma UpdateKeeps(s: State, s': State, t: nat, o: nat)
    requires Inv(s) && Update(s, s', t, o)
    ensures Inv(s')
  {
    hide Keeps, Update, VerInv, TxnInv, Apart, HeadKept, ForeignHead;
    UpdateActive(s, s', t, o);
    TxnHolds(s, t);
    UpdateShape(s, s', t, o);
    forall v ensures Keeps(s, s', -1, v) && (Has(s, v) && Has(s', v) ==> At(s', v).s2 == At(s, v).s2) {
      UpdateKeepsVer(s, s', t, o, v);
    }
    OthersRun(s, s', t);
    UpdateOwn(s, s', t, o);
    RunsApart(s, s', t);
    forall p, i | p in s'.recs && 0 <= i < |s'.recs[p]| ensures VerInv(s', p, i) { UpdateVer(s, s', t, o, p, i); }
  }

  lemma UpdateActive(s: State, s': State, t: nat, o: nat)
    requires Update(s, s', t, o)
    ensures t in s.txns
  {
  }

  lemma UpdateOwn(s: State, s': State, t: nat, o: nat)
    requires Inv(s) && Update(s, s', t, o)
    ensures t in s'.txns && TxnInv(s', t)
  {
    hide Inv, Keeps, SeenInv, HeadKept, ForeignHead;
    TxnHolds(s, t);
    UpdateShape(s, s', t, o);
    hide Update;
    forall v | v in s'.txns[t].seen ensures SeenInv(s', t, v) {
      UpdateKeepsVer(s, s', t, o, v);
      OwnSeen(s, s', t, v);
    }
  }

  // ----- read -----

  lemma ReadVer(s: State, s': State, t: nat, v: Vid, p: nat, i: nat)
    requires Inv(s) && Read(s, s', t, v) && p in s'.recs && i < |s'.recs[p]|
    ensures VerInv(s', p, i)
  {
    assert TxnInv(s, t);
    ReadShape(s, s', t, v);
    assert VerInv(s, p, i);
    if i + 1 < |s.recs[p]| { assert VerInv(s, p, i + 1); }
    hide Inv, VerInv, TxnInv;
    if s'.recs[p] == s.recs[p] {
      VerFrame(s, s', t, p, i);
    } else {
      RegisteredVer(s, s', t, v, i);
    }
  }

  lemma RegisteredVer(s: State, s': State, t: nat, v: Vid, i: nat)
    requires Read(s, s', t, v) && Runs(s, s', t) && s.txns[t].state == Active && Has(s, v) && v.o in s'.recs
               && s'.recs[v.o] != s.recs[v.o] && i < |s.recs[v.o]|
    requires VerInv(s, v.o, i) && (i + 1 < |s.recs[v.o]| ==> VerInv(s, v.o, i + 1))
    ensures VerInv(s', v.o, i)
  {
    hide InSnapshot, AboveInv, Tight;
    RegisteredAbove(s, s', t, v, i);
    var o := v.o;
    forall r | r in s'.recs[o][i].readers
      ensures r in s'.txns && s'.txns[r].state == Active
              && Vid(o, i) in s'.txns[r].rset {
    }
  }

  lemma RegisteredAbove(s: State, s': State, t: nat, v: Vid, i: nat)
    requires Read(s, s', t, v) && Runs(s, s', t) && v.o in s'.recs && s'.recs[v.o] != s.recs[v.o] && i < |s.recs[v.o]|
    requires AboveInv(s, v.o, i) && Tight(s, s.recs[v.o][i])
    requires i + 1 < |s.recs[v.o]| ==> VerInv(s, v.o, i + 1)
    ensures AboveInv(s', v.o, i) && Tight(s', s'.recs[v.o][i])
  {
  }

  lemma ReadKeepsVer(s: State, s': State, t: nat, v: Vid, w: Vid)
    requires Inv(s) && Read(s, s', t, v)
    ensures Keeps(s, s', -1, w)
    ensures Has(s, w) && Has(s', w) ==> At(s', w).s2 == At(s, w).s2
  {
    hide Inv;
  }

  lemma ReadOwn(s: State, s': State, t: nat, v: Vid, w: Vid)
    requires Inv(s) && Read(s, s', t, v) && Runs(s, s', t) && w in s'.txns[t].seen
    ensures SeenInv(s', t, w)
  {
    hide Inv, SeenInv, VerInv, Keeps;
    VerHolds(s, v.o, v.i);
    if v.i + 1 < |s.recs[v.o]| { VerHolds(s, v.o, v.i + 1); }
    TxnHolds(s, t);
    if w == v {
      if v in s.txns[t].rset { SeenTracked(s, t, v); }
      ReadNew(s, s', t, v);
    } else {
      if At(s, v).sstamp.Lsn? { SuccessorPositive(s, v); }
      ReadKeepsVer(s, s', t, v, w);
      OwnSeen(s, s', t, w);
    }
  }

  lemma SeenTracked(s: State, t: nat, v: Vid)
    requires t in s.txns && SeenInv(s, t, v)
    ensures TrackedInv(s, t, v)
  {
  }

  // What a read establishes about its version.
  lemma ReadNew(s: State, s': State, t: nat, v: Vid)
    requires Read(s, s', t, v) && Runs(s, s', t) && VerInv(s, v.o, v.i)
    requires v.i + 1 < |s.recs[v.o]| ==> VerInv(s, v.o, v.i + 1)
    requires v in s.txns[t].rset ==> TrackedInv(s, t, v)
    ensures SeenInv(s', t, v)
  {
    hide Tight;
    if At(s, v).sstamp.Lsn? { SuccessorPositive(s, v); }
  }

  lemma SuccessorPositive(s: State, v: Vid)
    requires Has(s, v) && At(s, v).sstamp.Lsn? && VerInv(s, v.o, v.i)
    requires v.i + 1 < |s.recs[v.o]| ==> VerInv(s, v.o, v.i + 1)
    ensures At(s, v).sstamp.n > 0
  {
  }

  lemma ReadShape(s: State, s': State, t: nat, v: Vid)
    requires Read(s, s', t, v) && TxnInv(s, t)
    ensures Runs(s, s', t) && s'.txns[t].wset == s.txns[t].wset
    ensures forall w :: w in s'.txns[t].rset ==> w in s'.txns[t].seen
    ensures s'.recs.Keys == s.recs.Keys && forall p :: p in s.recs ==> HeadKept(s, s', p)
  {
    hide SeenInv;
  }

  lemma ReadOthers(s: State, s': State, t: nat, v: Vid)
    requires Inv(s) && Read(s, s', t, v) && Runs(s, s', t)
    requires forall p :: p in s.recs ==> HeadKept(s, s', p)
    ensures forall u :: u in s'.txns && u != t ==> TxnInv(s', u)
  {
    forall w ensures Keeps(s, s', -1, w) && (Has(s, w) && Has(s', w) ==> At(s', w).s2 == At(s, w).s2) {
      ReadKeepsVer(s, s', t, v, w);
    }
    hide Inv, Read, Keeps, TxnInv, ForeignHead;
    OthersRun(s, s', t);
  }

  lemma ReadActor(s: State, s': State, t: nat, v: Vid)
    requires Inv(s) && Read(s, s', t, v) && TxnInv(s, t)
    ensures t in s'.txns && TxnInv(s', t)
  {
    hide Inv, Read, SeenInv, HeadKept;
    ReadShape(s, s', t, v);
    forall o | o in s.txns[t].wset
      ensures o in s'.recs && |s'.recs[o]| > 0 && s'.recs[o][|s'.recs[o]| - 1].clsn == Xid(t)
    {
      OwnHead(s, s', t, o);
    }
    forall w | w in s'.txns[t].seen ensures SeenInv(s', t, w) { ReadOwn(s, s', t, v, w); }
  }

  lemma OwnHead(s: State, s': State, t: nat, o: nat)
    requires o in s.recs && |s.recs[o]| > 0 && s.recs[o][|s.recs[o]| - 1].clsn == Xid(t) && HeadKept(s, s', o)
    ensures o in s'.recs && |s'.recs[o]| > 0 && s'.recs[o][|s'.recs[o]| - 1].clsn == Xid(t)
  {
  }

  lemma ReadKeeps(s: State, s': State, t: nat, v: Vid)
    requires Inv(s) && Read(s, s', t, v)
    ensures Inv(s')
  {
    TxnHolds(s, t);
    ReadShape(s, s', t, v);
    hide Read, VerInv, Apart, TxnInv, HeadKept;
    forall p, i | p in s'.recs && 0 <= i < |s'.recs[p]| ensures VerInv(s', p, i) { ReadVer(s, s', t, v, p, i); }
    ReadActor(s, s', t, v);
    ReadOthers(s, s', t, v);
    RunsApart(s, s', t);
  }

  // Active transactions have no commit stamp to keep apart.
  lemma RunsApart(s: State, s': State, t: nat)
    requires Runs(s, s', t) && Apart(s)
    ensures Apart(s')
  {
  }

  // ----- commit -----

  ghost function Final(s: State, t: nat): nat
    requires t in s.txns
  {
    FoldCt3(s, s.txns[t].rset, s.txns[t].ct3)
  }

  ghost predicate NewHead(s: State, t: nat, v: Vid) {
    t in s.txns && v.o in s.recs && v.o in s.txns[t].wset && v.i + 1 == |s.recs[v.o]|
  }

  ghost predicate Below(s: State, t: nat, v: Vid) {
    t in s.txns && v.o in s.recs && v.o in s.txns[t].wset && v.i + 2 == |s.recs[v.o]|
  }

  // What commit makes of one version.
  ghost predicate Finished(s: State, s': State, t: nat, n: nat, m: map<nat, nat>, v: Vid) {
    && Has(s, v) && Has(s', v) && t in s.txns
    && var a, b := At(s, v), At(s', v);
       && b.writer == a.writer && b.xstamp >= (if NewHead(s, t, v) then 0 else a.xstamp)
       && (v in s.txns[t].rset ==> b.xstamp >= n)
       && b.readers == (if v in s.txns[t].rset then a.readers - {t} else a.readers)
       && (NewHead(s, t, v) || Below(s, t, v) ==> v.o in m)
       && b.clsn == (if NewHead(s, t, v) then Lsn(m[v.o]) else a.clsn)
       && b.sstamp == (if Below(s, t, v) then Lsn(m[v.o]) else a.sstamp)
       && b.s2 == (if Below(s, t, v) then Final(s, t) else a.s2)
  }

  lemma CommitFinishes(s: State, s': State, t: nat, n: nat, m: map<nat, nat>, v: Vid)
    requires Commit(s, s', t, n, m)
    ensures s'.recs.Keys == s.recs.Keys && (v.o in s.recs ==> |s'.recs[v.o]| == |s.recs[v.o]|)
    ensures Has(s, v) ==> Finished(s, s', t, n, m, v)
  {
    hide FoldCt3, ReadsPass, WritesPass, StampRec, ReleaseRec;
    if v.o in s.recs {
      var x := s.txns[t];
      var c := if v.o in x.wset then StampRec(s.recs[v.o], n, m[v.o], Final(s, t)) else s.recs[v.o];
      assert s'.recs[v.o] == ReleaseRec(c, t, v.o, x.rset, n);
      StampsOne(s, t, n, m, v, c);
      Releases(c, t, v, x.rset, n);
    }
  }

  lemma Releases(c: seq<Ver>, t: nat, v: Vid, rs: seq<Vid>, n: nat)
    ensures |ReleaseRec(c, t, v.o, rs, n)| == |c|
    ensures v.i < |c| ==> ReleaseRec(c, t, v.o, rs, n)[v.i] == if v in rs then Release(c[v.i], t, n) else c[v.i]
  {
  }

  // What stamping makes of one version.
  lemma StampsOne(s: State, t: nat, n: nat, m: map<nat, nat>, v: Vid, c: seq<Ver>)
    requires t in s.txns && v.o in s.recs && (v.o in s.txns[t].wset ==> v.o in m)
    requires c == if v.o in s.txns[t].wset then StampRec(s.recs[v.o], n, m[v.o], Final(s, t)) else s.recs[v.o]
    ensures |c| == |s.recs[v.o]|
    ensures v.i < |c| ==>
              var a := s.recs[v.o][v.i];
              c[v.i] == (if NewHead(s, t, v) then a.(clsn := Lsn(m[v.o]), xstamp := n)
                         else if Below(s, t, v) then a.(sstamp := Lsn(m[v.o]), s2 := Final(s, t))
                         else a)
  {
    hide FoldCt3;
  }

  lemma HeadsAreMine(s: State, t: nat, o: nat)
    requires Inv(s) && t in s.txns && s.txns[t].state == Active && o in s.txns[t].wset
    ensures o in s.recs && |s.recs[o]| > 0 && s.recs[o][|s.recs[o]| - 1].clsn == Xid(t)
              && s.recs[o][|s.recs[o]| - 1].writer == t
  {
    assert TxnInv(s, t);
    assert VerInv(s, o, |s.recs[o]| - 1);
  }

  lemma CommitVer(s: State, s': State, t: nat, n: nat, m: map<nat, nat>, o: nat, i: nat)
    requires Inv(s) && Commit(s, s', t, n, m) && o in s'.recs && i < |s'.recs[o]|
    ensures VerInv(s', o, i)
  {
    CommitFinishes(s, s', t, n, m, Vid(o, i));
    CommitFinishes(s, s', t, n, m, Vid(o, i + 1));
    assert TxnInv(s, t);
    assert VerInv(s, o, i);
    if i + 1 < |s.recs[o]| { assert VerInv(s, o, i + 1); }
    if o in s.txns[t].wset { HeadsAreMine(s, t, o); }
    forall u | u in s.txns ensures s.txns[u].begin <= s.clock + 1 { TxnHolds(s, u); }
    CommitVerStep(s, s', t, n, m, o, i);
  }

  lemma CommitVerStep(s: State, s': State, t: nat, n: nat, m: map<nat, nat>, o: nat, i: nat)
    requires t in s.txns && s.txns[t].state == Active && s.txns[t].begin <= s.clock + 1 < n
    requires s'.clock == n && s'.txns == s.txns[t := s.txns[t].(end := n, state := Cmmtd, ct3 := Final(s, t))]
    requires o in s.recs && o in s'.recs && i < |s'.recs[o]| == |s.recs[o]|
    requires Finished(s, s', t, n, m, Vid(o, i)) && (i + 1 < |s.recs[o]| ==> Finished(s, s', t, n, m, Vid(o, i + 1)))
    requires VerInv(s, o, i) && (i + 1 < |s.recs[o]| ==> VerInv(s, o, i + 1))
    requires o in s.txns[t].wset ==> s.recs[o][|s.recs[o]| - 1].clsn == Xid(t)
    requires o in s.txns[t].wset ==> o in m && (if s.oneBlock then s.clock + 1 else s.txns[t].begin) < m[o] <= n
    requires s'.oneBlock == s.oneBlock && forall u :: u in s.txns ==> s.txns[u].begin <= s.clock + 1
    ensures VerInv(s', o, i)
  {
    hide Final;
    assert Tight(s, s.recs[o][i]);
  }

  lemma CommitKeepsVer(s: State, s': State, t: nat, n: nat, m: map<nat, nat>, v: Vid)
    requires Inv(s) && Commit(s, s', t, n, m)
    ensures Keeps(s, s', t, v)
  {
    hide Inv, Commit, Final, AboveInv, Tight;
    CommitTxns(s, s', t, n, m);
    CommitFinishes(s, s', t, n, m, v);
    CommitFinishes(s, s', t, n, m, Vid(v.o, v.i + 1));
    if Has(s, v) {
      MarkedByOverwriter(s, v);
      if v.i + 1 < |s.recs[v.o]| { VerHolds(s, v.o, v.i + 1); }
      if v.o in s.txns[t].wset { HeadsAreMine(s, t, v.o); }
    }
  }

  lemma MarkedByOverwriter(s: State, v: Vid)
    requires Inv(s) && Has(s, v)
    ensures At(s, v).sstamp.Lsn? ==> v.i + 1 < |s.recs[v.o]| && s.recs[v.o][v.i + 1].clsn.Lsn?
  {
    assert VerInv(s, v.o, v.i);
  }

  // A pivot commits only past readers that ended before its `ct3`.
  lemma CommitHarmless(s: State, s': State, t: nat, n: nat, m: map<nat, nat>, u: nat, v: Vid)
    requires Inv(s) && Commit(s, s', t, n, m) && u in s.txns && u != t
    requires s.txns[u].state != Abrtd && v in s.txns[u].seen
    ensures u in s'.txns && Harmless(s, s', u, v)
  {
    hide Inv, Commit, Final, SnapshotInv, PivotInv;
    TxnHolds(s, u);
    assert SeenInv(s, u, v);
    CommitTxns(s, s', t, n, m);
    CommitFinishes(s, s', t, n, m, v);
    if Below(s, t, v) {
      HeadsAreMine(s, t, v.o);
      VerHolds(s, v.o, v.i);
      CommitPasses(s, s', t, n, m, v.o);
    }
  }

  lemma TxnHolds(s: State, t: nat)
    requires Inv(s) && t in s.txns
    ensures TxnInv(s, t)
  {
  }

  lemma CommitPasses(s: State, s': State, t: nat, n: nat, m: map<nat, nat>, o: nat)
    requires Commit(s, s', t, n, m) && o in s.txns[t].wset
    ensures Final(s, t) != 0 ==> WritePasses(s, t, o, Final(s, t), n)
  {
  }

  lemma {:induction false} FoldIsLow(s: State, rs: seq<Vid>, ct3: nat)
    requires forall v :: v in rs && Has(s, v) && At(s, v).sstamp.Lsn? ==> At(s, v).sstamp.n > 0
    ensures ct3 > 0 ==> 0 < FoldCt3(s, rs, ct3) <= ct3
    ensures forall v :: v in rs && Has(s, v) && At(s, v).sstamp.Lsn? ==> 0 < FoldCt3(s, rs, ct3) <= At(s, v).sstamp.n
  {
    if rs != [] {
      var k := |rs| - 1;
      assert rs == rs[..k] + [rs[k]];
      FoldIsLow(s, rs[..k], ct3);
    }
  }

  lemma StampsArePositive(s: State, v: Vid)
    requires Inv(s) && Has(s, v) && At(s, v).sstamp.Lsn?
    ensures At(s, v).sstamp.n > 0
  {
    assert VerInv(s, v.o, v.i) && VerInv(s, v.o, v.i + 1);
  }

  lemma CommitSeen(s: State, s': State, t: nat, n: nat, m: map<nat, nat>, v: Vid)
    requires Inv(s) && Commit(s, s', t, n, m) && v in s.txns[t].seen
    ensures t in s'.txns && SeenInv(s', t, v)
  {
    hide Inv, Commit, SeenInv, VerInv, FoldCt3, Finished;
    CommitTxns(s, s', t, n, m);
    TxnHolds(s, t);
    var x := s.txns[t];
    SeenExists(s, t, v);
    CommitFinishes(s, s', t, n, m, v);
    CommitFinishes(s, s', t, n, m, Vid(v.o, v.i + 1));
    if v.o in x.wset { HeadsAreMine(s, t, v.o); }
    VerHolds(s, v.o, v.i);
    forall w | w in x.rset && Has(s, w) && At(s, w).sstamp.Lsn?
         ensures At(s, w).sstamp.n > 0 { StampsArePositive(s, w); }
    FoldIsLow(s, x.rset, x.ct3);
    if At(s, v).s2 != 0 { MarkedIsStamped(s, v); }
    CommitReads(s, s', t, n, m, v);
    CommitSeenStep(s, s', t, n, m, v);
  }

  // A committed transaction has met no version overwritten by a committed pivot.
  lemma CommitReads(s: State, s': State, t: nat, n: nat, m: map<nat, nat>, v: Vid)
    requires Commit(s, s', t, n, m)
    ensures v in s.txns[t].rset && Has(s, v) && At(s, v).sstamp.Lsn? ==> At(s, v).s2 == 0
  {
    hide FoldCt3, StampAll, ReleaseAll;
  }

  lemma CommitSeenStep(s: State, s': State, t: nat, n: nat, m: map<nat, nat>, v: Vid)
    requires t in s.txns && s.txns[t].state == Active && s.txns[t].begin <= s.clock + 1 < n
    requires s'.txns == s.txns[t := s.txns[t].(end := n, state := Cmmtd, ct3 := Final(s, t))]
    requires v.o in s.recs && v.o in s'.recs && |s'.recs[v.o]| == |s.recs[v.o]|
    requires Finished(s, s', t, n, m, v) && (Has(s, Vid(v.o, v.i + 1)) ==> Finished(s, s', t, n, m, Vid(v.o, v.i + 1)))
    requires SeenInv(s, t, v) && VerInv(s, v.o, v.i)
    requires v.o in s.txns[t].wset ==>
               s.recs[v.o][|s.recs[v.o]| - 1].clsn == Xid(t) && s.recs[v.o][|s.recs[v.o]| - 1].writer == t
    requires s.txns[t].ct3 > 0 ==> 0 < Final(s, t) <= s.txns[t].ct3
    requires v in s.txns[t].rset && At(s, v).sstamp.Lsn? ==> 0 < Final(s, t) <= At(s, v).sstamp.n && At(s, v).s2 == 0
    requires s'.placed == s.placed && s'.oneBlock == s.oneBlock && (At(s, v).s2 != 0 ==> At(s, v).sstamp.Lsn?)
    ensures SeenInv(s', t, v)
  {
    hide Final;
  }

  lemma CommitOther(s: State, s': State, t: nat, n: nat, m: map<nat, nat>, u: nat)
    requires Inv(s) && Commit(s, s', t, n, m) && u in s.txns && u != t
    ensures u in s'.txns && TxnInv(s', u)
  {
    assert TxnInv(s, u);
    forall v | v in s.txns[u].seen ensures Keeps(s, s', t, v) { CommitKeepsVer(s, s', t, n, m, v); }
    if s.txns[u].state != Abrtd {
      forall v | v in s.txns[u].seen ensures Harmless(s, s', u, v) { CommitHarmless(s, s', t, n, m, u, v); }
    }
    forall o | o in s.txns[u].wset && s.txns[u].state == Active
      ensures o in s'.recs && |s'.recs[o]| > 0 && s'.recs[o][|s'.recs[o]| - 1].clsn == Xid(u)
    {
      CommitFinishes(s, s', t, n, m, Vid(o, |s.recs[o]| - 1));
      if o in s.txns[t].wset { HeadsAreMine(s, t, o); }
    }
    hide Keeps, Harmless, Commit, SeenInv;
    CommitTxns(s, s', t, n, m);
    OtherKeeps(s, s', t, u);
  }

  lemma CommitTxns(s: State, s': State, t: nat, n: nat, m: map<nat, nat>)
    requires Commit(s, s', t, n, m)
    ensures t in s.txns && s.txns[t].state == Active
    ensures s'.txns == s.txns[t := s.txns[t].(end := n, state := Cmmtd, ct3 := Final(s, t))]
              && s'.clock == n > s.clock + 1
    ensures s'.placed == s.placed && s'.oneBlock == s.oneBlock
  {
  }

  lemma CommitKeeps(s: State, s': State, t: nat, n: nat, m: map<nat, nat>)
    requires Inv(s) && Commit(s, s', t, n, m)
    ensures Inv(s')
  {
    hide Commit, VerInv, TxnInv, Apart;
    CommitTxns(s, s', t, n, m);
    CommitOwn(s, s', t, n, m);
    forall o, i | o in s'.recs && 0 <= i < |s'.recs[o]| ensures VerInv(s', o, i) { CommitVer(s, s', t, n, m, o, i); }
    forall u | u in s'.txns && u != t ensures TxnInv(s', u) { CommitOther(s, s', t, n, m, u); }
  }

  lemma CommitOwn(s: State, s': State, t: nat, n: nat, m: map<nat, nat>)
    requires Inv(s) && Commit(s, s', t, n, m)
    ensures t in s'.txns && TxnInv(s', t) && Apart(s')
  {
    hide Commit, VerInv, SeenInv;
    CommitTxns(s, s', t, n, m);
    forall u | u in s.txns
      ensures s.txns[u].begin <= s.clock + 1 && (s.txns[u].state == Cmmtd ==> s.txns[u].end <= s.clock)
    {
      assert TxnInv(s, u);
    }
    forall v | v in s'.txns[t].seen ensures SeenInv(s', t, v) { CommitSeen(s, s', t, n, m, v); }
  }

  // ----- abort -----

  // What abort makes of one version that stays linked.
  ghost predicate Left(s: State, s': State, t: nat, v: Vid) {
    && Has(s, v) && Has(s', v) && t in s.txns
    && var a, b := At(s, v), At(s', v);
       && b.writer == a.writer && b.clsn == a.clsn && b.xstamp == a.xstamp && b.s2 == a.s2
       && b.readers == (if v in s.txns[t].rset then a.readers - {t} else a.readers)
       && b.sstamp == (if Below(s, t, v) then Null else a.sstamp)
  }

  lemma AbortLeaves(s: State, s': State, t: nat, v: Vid)
    requires Abort(s, s', t)
    ensures s'.recs.Keys == s.recs.Keys
    ensures v.o in s.recs ==> |s'.recs[v.o]| == |s.recs[v.o]| - (if v.o in s.txns[t].wset && |s.recs[v.o]| > 0
              then 1 else 0)
    ensures Has(s', v) ==> Left(s, s', t, v)
  {
  }

  lemma AbortVer(s: State, s': State, t: nat, o: nat, i: nat)
    requires Inv(s) && Abort(s, s', t) && o in s'.recs && i < |s'.recs[o]|
    ensures VerInv(s', o, i)
  {
    AbortLeaves(s, s', t, Vid(o, i));
    AbortLeaves(s, s', t, Vid(o, i + 1));
    assert TxnInv(s, t);
    assert VerInv(s, o, i);
    if i + 1 < |s.recs[o]| { assert VerInv(s, o, i + 1); }
    if o in s.txns[t].wset { HeadsAreMine(s, t, o); }
    AbortVerStep(s, s', t, o, i);
  }

  lemma AbortVerStep(s: State, s': State, t: nat, o: nat, i: nat)
    requires t in s.txns && s.txns[t].state == Active && s'.clock == s.clock && s'.oneBlock == s.oneBlock
               && s'.txns == s.txns[t := s.txns[t].(state := Abrtd)]
    requires o in s.recs && o in s'.recs && i < |s'.recs[o]| == |s.recs[o]| - (if o in s.txns[t].wset then 1 else 0)
    requires Left(s, s', t, Vid(o, i)) && (i + 1 < |s'.recs[o]| ==> Left(s, s', t, Vid(o, i + 1)))
    requires VerInv(s, o, i) && (i + 1 < |s.recs[o]| ==> VerInv(s, o, i + 1))
    requires o in s.txns[t].wset ==> s.recs[o][|s.recs[o]| - 1].clsn == Xid(t)
    ensures VerInv(s', o, i)
  {
    assert Tight(s, s.recs[o][i]);
  }

  lemma AbortKeepsVer(s: State, s': State, t: nat, v: Vid)
    requires Inv(s) && Abort(s, s', t)
    ensures Keeps(s, s', t, v)
    ensures Has(s, v) && Has(s', v) ==> At(s', v).s2 == At(s, v).s2
  {
    hide Inv, LeaveRec, UnlinkRec;
    AbortLeaves(s, s', t, v);
    AbortLeaves(s, s', t, Vid(v.o, v.i + 1));
    if Has(s, v) {
      VerHolds(s, v.o, v.i);
      if v.i + 1 < |s.recs[v.o]| { VerHolds(s, v.o, v.i + 1); }
      if v.o in s.txns[t].wset { HeadsAreMine(s, t, v.o); }
    }
  }

  lemma VerHolds(s: State, o: nat, i: nat)
    requires Inv(s) && o in s.recs && i < |s.recs[o]|
    ensures VerInv(s, o, i)
  {
  }

  lemma AbortOther(s: State, s': State, t: nat, u: nat)
    requires Inv(s) && Abort(s, s', t) && u in s.txns && u != t
    ensures u in s'.txns && TxnInv(s', u)
  {
    hide Inv, SeenInv, Keeps, LeaveRec, UnlinkRec;
    TxnHolds(s, u);
    forall v ensures Keeps(s, s', t, v) && (Has(s, v) && Has(s', v) ==> At(s', v).s2 == At(s, v).s2) {
      AbortKeepsVer(s, s', t, v);
    }
    forall o | o in s.txns[u].wset && s.txns[u].state == Active
      ensures o in s'.recs && |s'.recs[o]| > 0 && s'.recs[o][|s'.recs[o]| - 1].clsn == Xid(u)
    {
      AbortLeaves(s, s', t, Vid(o, |s.recs[o]| - 1));
      if o in s.txns[t].wset { HeadsAreMine(s, t, o); }
    }
    OtherKeeps(s, s', t, u);
  }

  lemma AbortKeeps(s: State, s': State, t: nat)
    requires Inv(s) && Abort(s, s', t)
    ensures Inv(s')
  {
    assert TxnInv(s, t);
    forall o, i | o in s'.recs && 0 <= i < |s'.recs[o]| ensures VerInv(s', o, i) { AbortVer(s, s', t, o, i); }
    forall u | u in s'.txns && u != t ensures TxnInv(s', u) { AbortOther(s, s', t, u); }
  }

  // ----- all steps -----

  lemma StepKeeps(s: State, s': State, t: nat)
    requires Inv(s) && Step(s, s', t)
    ensures Inv(s')
  {
    hide Inv, Begin, LoseStamp, MeetInvisible, Read, Insert, Update, Commit, Abort;
    if Begin(s, s', t) {
      BeginKeeps(s, s', t);
    } else if n :| LoseStamp(s, s', n) {
      LoseStampKeeps(s, s', n);
    } else if n :| MeetInvisible(s, s', t, n) {
      MeetKeeps(s, s', t, n);
    } else if v :| Read(s, s', t, v) {
      ReadKeeps(s, s', t, v);
    } else if o :| Insert(s, s', t, o) {
      InsertKeeps(s, s', t, o);
    } else if o :| Update(s, s', t, o) {
      UpdateKeeps(s, s', t, o);
    } else if n, m :| Commit(s, s', t, n, m) {
      CommitKeeps(s, s', t, n, m);
    } else {
      AbortKeeps(s, s', t);
    }
  }

  lemma InitHolds(s: State)
    requires Init(s)
    ensures Inv(s)
  {
  }

  lemma SameSetup(s: State, s': State, t: nat)
    requires Step(s, s', t)
    ensures s'.oneBlock == s.oneBlock && s'.placed == s.placed
  {
    hide FoldCt3, ReadsPass, WritesPass, Logged, StampAll, ReleaseAll;
  }

  /** The invariant holds in every state of every run. */
  lemma {:induction false} RunInvariant(r: seq<State>)
    requires Run(r)
    ensures Inv(r[|r| - 1]) && r[|r| - 1].oneBlock == r[0].oneBlock
  {
    hide Inv, Step;
    if |r| == 1 {
      InitHolds(r[0]);
    } else {
      var k := |r| - 1;
      RunInvariant(r[..k]);
      assert Next(r[k - 1], r[k]);
      var t :| Step(r[k - 1], r[k], t);
      StepKeeps(r[k - 1], r[k], t);
      SameSetup(r[k - 1], r[k], t);
    }
  }
}
