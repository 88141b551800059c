/** The wait of backward validation: for whom a transaction may wait, and why somebody always moves. */
module MvoccProgress {
  import opened Stamps
  import opened Engine
  import opened EngineProgress
  import opened Fairness
  import opened Serializability
  import opened Mvocc

  // `t` is in the loop on the `end` of `u`, which has not stored it.
  ghost predicate Waits(s: State, t: nat, u: nat) {
    t in s.txns && s.txns[t].pc.Certify? && ProbeWaits(s, s.txns[t].pc.c, u)
  }

  ghost predicate Waiting(s: State, t: nat) {
    exists u :: Waits(s, t, u)
  }

  ghost function WaitGraph(s: State): Graph {
    set t, u | t in s.txns && u in s.txns && Waits(s, t, u) :: (t, u)
  }

  /** A transaction waits only for one that is about to publish its stamp and waits for nobody. */
  lemma WaitsOnPublisher(s: State, t: nat, u: nat)
    requires Inv(s) && Waits(s, t, u)
    ensures u in s.txns && u != t && s.txns[u].state == Committing && Publishing(s.txns[u]) && !Waiting(s, u)
  {
    hide Base, ReadsInv, Validated, Checked, Only, Danger;
    assert TxnMvocc(s, t);
    UnpublishedPoint(s, u);
  }

  // Publishing transactions last.
  ghost function WaitRank(s: State): map<nat, nat> {
    map t | t in s.txns :: if Publishing(s.txns[t]) then 1 else 0
  }

  /** The waits of any reachable state form no cycle. */
  lemma WaitsAcyclic(r: seq<State>)
    requires Run(r)
    ensures Acyclic(WaitGraph(r[|r| - 1]))
  {
    var s := r[|r| - 1];
    RunInvariant(r);
    hide Inv, Run;
    forall d | d in WaitGraph(s)
      ensures d.0 in WaitRank(s) && d.1 in WaitRank(s) && WaitRank(s)[d.0] < WaitRank(s)[d.1]
    {
      WaitsOnPublisher(s, d.0, d.1);
    }
    ForwardIsAcyclic(WaitGraph(s), WaitRank(s));
  }

  // ----- progress -----

  ghost function CertRank(s: State, x: Txn, c: Cert): Rank {
    if c == InitS then Rank(10, 0, 0, 0, 0)
    else if IsProbe(c) then Rank(9, Left(|x.rset|, c.i), 0, 0, ReadPointRank(s, c))
    else Rank(7, 0, 0, 0, 0)
  }

  // How far `t` is from giving its context back.
  ghost function Distance(s: State, t: nat): Rank
    requires t in s.txns
  {
    var x := s.txns[t];
    match x.pc
    case Doomed => Rank(12, 0, 0, 0, 0)
    case Entered => Rank(12, 0, 0, 0, 0)
    case Drawn => Rank(11, 0, 0, 0, 0)
    case Certify(c) => CertRank(s, x, c)
    case Stamping(j, k) => Rank(6, Left(|x.wset|, j), 0, 0, if k == WriteS then 2 else if k == WriteX then 1 else 0)
    case Post(_, _) => Rank(5, 0, 0, 0, 0)
    case UndoReads(_) => Rank(4, 0, 0, 0, 0)
    case UndoWrites(j, cleared) => Rank(3, Left(|x.wset|, j), 0, 0, if cleared then 0 else 1)
    case Done => Rank(2, 0, 0, 0, 0)
    case Unlisted => Rank(1, 0, 0, 0, 0)
    case _ => Rank(0, 0, 0, 0, 0)
  }

  ghost predicate Ending(pc: Pc) {
    !pc.Idle? && !pc.Reading? && !pc.Updating? && !pc.Gone?
  }

  lemma CheckSound(s: State, t: nat)
    requires Inv(s) && s.setup.clean && t in s.txns && s.txns[t].pc.Certify?
    ensures ProbeSound(s, s.txns[t], s.txns[t].pc.c)
  {
    hide VerInv, TxnInv, OwnInv, Distinct, Validated, Only, Danger;
    assert TxnMvocc(s, t);
    var x := s.txns[t];
    match x.pc.c
    case Load(i) =>
      if i < |x.rset| {
        assert x.rset[i] in x.rset;
        if At(s, x.rset[i]).sstamp.Xid? { MarkIsLive(s, x.rset[i]); }
      }
    case End(_, u) => SaneTarget(s, u);
    case State2(_, u, _) => SaneTarget(s, u);
    case Verify2(_, u, _, _) => SaneTarget(s, u);
    case _ =>
  }

  lemma CloserIsLess(s: State, s': State, t: nat)
    requires ProbeCloser(s, s', t)
    ensures t in s.txns && t in s'.txns && Less(Distance(s', t), Distance(s, t))
  {
    hide ReadPointRank;
  }

  lemma CheckProgress(s: State, s': State, t: nat)
    requires Inv(s) && s.setup.clean && t in s.txns && s.txns[t].pc.Certify? && !Waiting(s, t)
    requires Probe(s, s', t) || StartCheck(s, s', t) || LoadStamped(s, s', t) || ReadsDone(s, s', t) || Decide(s, s', t)
    ensures t in s'.txns && Less(Distance(s', t), Distance(s, t))
  {
    hide Inv, Probe, StartCheck, LoadStamped, ReadsDone, Decide, ProbeSound, ReadPointRank, Distance, Less,
         ProbeCloser, ProbeWaits;
    if Probe(s, s', t) {
      CheckSound(s, t);
      forall u ensures !ProbeWaits(s, s.txns[t].pc.c, u) { assert !Waits(s, t, u); }
      ProbeMoves(s, s', t);
      CloserIsLess(s, s', t);
    } else {
      PlainProgress(s, s', t);
    }
  }

  lemma PlainProgress(s: State, s': State, t: nat)
    requires StartCheck(s, s', t) || LoadStamped(s, s', t) || ReadsDone(s, s', t) || Decide(s, s', t)
    ensures t in s.txns && t in s'.txns && Less(Distance(s', t), Distance(s, t))
  {
    hide ReadPointRank, LoadStamped, ReadsDone, Less, Distance;
    if LoadStamped(s, s', t) || ReadsDone(s, s', t) { ReadProgress(s, s', t); } else { EdgeProgress(s, s', t); }
  }

  lemma ReadProgress(s: State, s': State, t: nat)
    requires LoadStamped(s, s', t) || ReadsDone(s, s', t)
    ensures t in s.txns && t in s'.txns && Less(Distance(s', t), Distance(s, t))
  {
    hide ReadPointRank;
  }

  lemma EdgeProgress(s: State, s': State, t: nat)
    requires StartCheck(s, s', t) || Decide(s, s', t)
    ensures t in s.txns && t in s'.txns && Less(Distance(s', t), Distance(s, t))
  {
    hide ReadPointRank;
  }

  lemma EndProgress(s: State, s': State, t: nat)
    requires t in s.txns && Ending(s.txns[t].pc)
    requires SetCommitted(s, s', t) || StartAbort(s, s', t) || EndAbort(s, s', t) || Free(s, s', t) || Skip(s, s', t)
    ensures t in s'.txns && Less(Distance(s', t), Distance(s, t))
  {
    hide CertRank, Elems, StartAbort, Skip;
    if StartAbort(s, s', t) {
      GiveUpProgress(s, s', t);
    } else if Skip(s, s', t) {
      SkipProgress(s, s', t);
    }
  }

  lemma GiveUpProgress(s: State, s': State, t: nat)
    requires t in s.txns && Ending(s.txns[t].pc) && StartAbort(s, s', t)
    ensures t in s'.txns && Less(Distance(s', t), Distance(s, t))
  {
    hide ReadPointRank;
  }

  lemma SkipProgress(s: State, s': State, t: nat)
    requires t in s.txns && Ending(s.txns[t].pc) && Skip(s, s', t)
    ensures t in s'.txns && Less(Distance(s', t), Distance(s, t))
  {
    hide CertRank;
  }

  lemma StampProgress(s: State, s': State, t: nat)
    requires t in s.txns
    requires StampSuccessor(s, s', t) || StampClsn(s, s', t) || UndoSuccessor(s, s', t) || Unlink(s, s', t)
    ensures t in s'.txns && Less(Distance(s', t), Distance(s, t))
  {
    hide StampSuccessor, StampClsn, UndoSuccessor, Unlink, Distance, Less;
    if UndoSuccessor(s, s', t) || Unlink(s, s', t) {
      UndoProgress(s, s', t);
    } else {
      SealProgress(s, s', t);
    }
  }

  lemma SealProgress(s: State, s': State, t: nat)
    requires t in s.txns && (StampSuccessor(s, s', t) || StampClsn(s, s', t))
    ensures t in s'.txns && Less(Distance(s', t), Distance(s, t))
  {
    hide CertRank;
  }

  lemma UndoProgress(s: State, s': State, t: nat)
    requires t in s.txns && (UndoSuccessor(s, s', t) || Unlink(s, s', t))
    ensures t in s'.txns && Less(Distance(s', t), Distance(s, t))
  {
    hide CertRank;
  }

  // The steps of a transaction on its way to the end.
  ghost predicate LastSteps(s: State, s': State, t: nat) {
    || (exists n :: Draw(s, s', t, n)) || Publish(s, s', t)
    || Probe(s, s', t) || StartCheck(s, s', t) || LoadStamped(s, s', t) || ReadsDone(s, s', t) || Decide(s, s', t)
    || SetCommitted(s, s', t) || StartAbort(s, s', t) || EndAbort(s, s', t) || Free(s, s', t) || Skip(s, s', t)
    || StampSuccessor(s, s', t) || StampClsn(s, s', t) || UndoSuccessor(s, s', t) || Unlink(s, s', t)
  }

  lemma StepCases(s: State, s': State, t: nat)
    requires t in s.txns && Step(s, s', t) && Ending(s.txns[t].pc)
    ensures LastSteps(s, s', t)
  {
    hide Draw, Publish, Probe, StartCheck, LoadStamped, ReadsDone, Decide, SetCommitted, StartAbort, EndAbort, Free,
         Skip, StampSuccessor, StampClsn, UndoSuccessor, Unlink, SetTxn, SetVer;
  }

  /**
   A transaction that has entered commit or abort and waits for nobody comes strictly closer to
   giving its context back with every step it takes.
   */
  lemma Progress(s: State, s': State, t: nat)
    requires Inv(s) && s.setup.clean && t in s.txns && Step(s, s', t) && Ending(s.txns[t].pc) && !Waiting(s, t)
    ensures t in s'.txns && Less(Distance(s', t), Distance(s, t))
  {
    StepCases(s, s', t);
    hide Inv, Step, Waiting, Probe, StartCheck, LoadStamped, ReadsDone, Decide, SetCommitted, StartAbort, EndAbort,
         Free, Skip, StampSuccessor, StampClsn, UndoSuccessor, Unlink, Draw, Publish, Distance, Less;
    if Probe(s, s', t) || StartCheck(s, s', t) || LoadStamped(s, s', t) || ReadsDone(s, s', t) || Decide(s, s', t) {
      CheckingPoint(s, s', t);
      CheckProgress(s, s', t);
    } else if StampSuccessor(s, s', t) || StampClsn(s, s', t) || UndoSuccessor(s, s', t) || Unlink(s, s', t) {
      StampProgress(s, s', t);
    } else if SetCommitted(s, s', t) || StartAbort(s, s', t) || EndAbort(s, s', t) || Free(s, s', t) || Skip(s, s', t) {
      EndProgress(s, s', t);
    } else {
      DrawProgress(s, s', t);
    }
  }

  lemma DrawProgress(s: State, s': State, t: nat)
    requires t in s.txns && ((exists n :: Draw(s, s', t, n)) || Publish(s, s', t))
    ensures t in s'.txns && Less(Distance(s', t), Distance(s, t))
  {
    hide ReadPointRank;
  }

  lemma CheckingPoint(s: State, s': State, t: nat)
    requires Probe(s, s', t) || StartCheck(s, s', t) || LoadStamped(s, s', t) || ReadsDone(s, s', t) || Decide(s, s', t)
    ensures t in s.txns && s.txns[t].pc.Certify?
  {
  }

  // ----- no dead ends -----

  // The check has found an overwriter with a smaller stamp.
  ghost predicate BackEdge(s: State, x: Txn, c: Cert) {
    match c
    case Load(i) =>
      i < |x.rset| && Has(s, x.rset[i]) && At(s, x.rset[i]).sstamp.Lsn? && At(s, x.rset[i]).sstamp.n < x.cs
    case Verify2(_, u, e, st) => u in s.txns && !s.txns[u].freed && st != Abrtd && 0 < e <= x.cs
    case _ => false
  }

  ghost predicate CheckIsReady(s: State, x: Txn, c: Cert) {
    match c
    case Load(i) => i <= |x.rset| && (i < |x.rset| ==> Has(s, x.rset[i]))
    case Owner(_, _) => true
    case State1(_, u) => u in s.txns
    case Verify1(_, u, _) => u in s.txns
    case End(_, u) => u in s.txns
    case State2(_, u, _) => u in s.txns
    case Verify2(_, u, _, _) => u in s.txns
    case InitS => true
    case Final => true
    case _ => false
  }

  lemma CheckReady(s: State, t: nat)
    requires Inv(s) && t in s.txns && s.txns[t].pc.Certify?
    ensures CheckIsReady(s, s.txns[t], s.txns[t].pc.c)
  {
    hide Base, Validated, Only, Danger;
    assert TxnMvocc(s, t);
    var x := s.txns[t];
    if x.pc.c.Load? && x.pc.c.i < |x.rset| { assert x.rset[x.pc.c.i] in x.rset; }
  }

  // The check goes on, and gives up exactly at a back edge.
  lemma CheckMoves(s: State, t: nat) returns (s': State)
    requires t in s.txns && s.txns[t].pc.Certify? && CheckIsReady(s, s.txns[t], s.txns[t].pc.c)
    ensures Step(s, s', t) && t in s'.txns && (s'.txns[t].pc.UndoReads? <==> BackEdge(s, s.txns[t], s.txns[t].pc.c))
  {
    var x := s.txns[t];
    var c := x.pc.c;
    if BackEdge(s, x, c) {
      s' := SetTxn(s, t, x.(pc := UndoReads(0), state := Abrtd));
    } else if c == InitS {
      s' := SetTxn(s, t, x.(pc := Certify(Load(0))));
      assert StartCheck(s, s', t);
    } else if c == Final {
      s' := SetTxn(s, t, x.(pc := Stamping(0, WriteS), decided := true));
      assert Decide(s, s', t);
    } else if c.Load? && c.i == |x.rset| {
      s' := SetPc(s, t, Certify(Final));
      assert ReadsDone(s, s', t);
    } else if c.Load? && At(s, x.rset[c.i]).sstamp.Lsn? {
      s' := SetPc(s, t, Certify(Load(c.i + 1)));
      assert LoadStamped(s, s', t);
    } else {
      s' := SetPc(s, t, Certify(NextProbe(s, t, x, c)));
      assert Probe(s, s', t);
    }
  }

  ghost function NextProbe(s: State, t: nat, x: Txn, c: Cert): Cert
    requires CheckIsReady(s, x, c) && IsProbe(c) && !BackEdge(s, x, c)
    requires c.Load? ==> c.i < |x.rset| && !At(s, x.rset[c.i]).sstamp.Lsn?
  {
    match c
    case Load(i) => if At(s, x.rset[i]).sstamp.Null? then Load(i + 1) else Owner(i, At(s, x.rset[i]).sstamp.t)
    case Owner(i, u) =>
      if u !in s.txns || s.txns[u].freed then Load(i) else if u == t then Load(i + 1) else State1(i, u)
    case State1(i, u) => Verify1(i, u, s.txns[u].state)
    case Verify1(i, u, st) => if s.txns[u].freed then Load(i) else if st == Active then Load(i + 1) else End(i, u)
    case End(i, u) => State2(i, u, s.txns[u].end)
    case State2(i, u, e) => Verify2(i, u, e, s.txns[u].state)
    case Verify2(i, u, e, st) =>
      if s.txns[u].freed then Load(i) else if st == Abrtd then Load(i + 1) else if e == 0 then End(i, u)
           else Load(i + 1)
    case _ => c
  }

  // A committing transaction can take its next step.
  lemma Moves(s: State, t: nat) returns (s': State)
    requires Inv(s) && t in s.txns && s.txns[t].state == Committing
    ensures Step(s, s', t) && Ending(s.txns[t].pc)
  {
    CommittingPoints(s, t);
    var x := s.txns[t];
    if x.pc == Entered {
      s' := SetTxn(s.(clock := s.clock + 1), t, x.(pc := Drawn, cs := s.clock + 1, base := s.clock));
      assert Draw(s, s', t, s.clock + 1);
    } else if x.pc == Drawn {
      s' := SetTxn(s, t, x.(pc := Certify(InitS), end := x.cs));
      assert Publish(s, s', t);
    } else if x.pc.Certify? {
      CheckReady(s, t);
      s' := CheckMoves(s, t);
    } else {
      s' := StampMoves(s, t);
    }
  }

  lemma CommittingPoints(s: State, t: nat)
    requires Inv(s) && t in s.txns && s.txns[t].state == Committing
    ensures var x := s.txns[t]; x.pc == Entered || x.pc == Drawn || x.pc.Certify? || x.pc.Stamping?
    ensures s.txns[t].pc.Stamping? ==>
              && s.txns[t].base < s.txns[t].cs && !s.setup.ssn
              && s.txns[t].pc.j <= |s.txns[t].wset| && (s.txns[t].pc.k == WriteS || s.txns[t].pc.j < |s.txns[t].wset|)
              && (s.txns[t].pc.j < |s.txns[t].wset| ==>
                    s.txns[t].wset[s.txns[t].pc.j] in s.recs && |s.recs[s.txns[t].wset[s.txns[t].pc.j]]| > 0)
  {
    hide VerInv, Distinct, TxnMvocc;
    var x := s.txns[t];
    assert TxnInv(x, s.clock) && OwnInv(s, t);
    if x.pc.Stamping? && x.pc.j < |x.wset| { DropEntry(x.wset, x.pc.j); }
  }

  lemma StampMoves(s: State, t: nat) returns (s': State)
    requires t in s.txns && s.txns[t].pc.Stamping? && s.txns[t].base < s.txns[t].cs && !s.setup.ssn
    requires s.txns[t].pc.j <= |s.txns[t].wset| && (s.txns[t].pc.k == WriteS || s.txns[t].pc.j < |s.txns[t].wset|)
    requires s.txns[t].pc.j < |s.txns[t].wset| ==>
               s.txns[t].wset[s.txns[t].pc.j] in s.recs && |s.recs[s.txns[t].wset[s.txns[t].pc.j]]| > 0
    ensures Step(s, s', t)
  {
    var x := s.txns[t];
    var j := x.pc.j;
    if j == |x.wset| {
      s' := SetTxn(s, t, x.(pc := Post(0, PLoad), state := Cmmtd));
      assert SetCommitted(s, s', t);
    } else {
      var o := x.wset[j];
      var l := |s.recs[o]|;
      match x.pc.k
      case WriteS =>
        var x' := x.(pc := Stamping(j, WriteX), marked := x.marked - {o});
        s' := if l > 1 then SetTxn(SetVer(s, Vid(o, l - 2), At(s, Vid(o, l - 2)).(sstamp := Lsn(x.cs))), t, x')
              else SetTxn(s, t, x');
        assert StampSuccessorWith(s, s', t, x.cs);
      case WriteX =>
        s' := SetPc(s, t, Stamping(j, WriteC));
        assert Skip(s, s', t);
      case WriteC =>
        s' := SetTxn(SetVer(s, Vid(o, l - 1), At(s, Vid(o, l - 1)).(clsn := Lsn(x.cs))), t,
                     x.(pc := Stamping(j + 1, WriteS), own := x.own - {o}));
        assert StampClsnWith(s, s', t, x.cs);
    }
  }

  /**
   The wait cannot deadlock: whenever some transaction is committing, one of the committing
   transactions waits for nobody, can take a step, and every step it takes is progress.
   */
  lemma NoDeadlock(r: seq<State>, t: nat) returns (u: nat, s': State)
    requires Run(r) && t in r[|r| - 1].txns && r[|r| - 1].txns[t].state == Committing
    ensures var s := r[|r| - 1];
            && u in s.txns && s.txns[u].state == Committing && !Waiting(s, u)
            && Step(s, s', u)
            && (r[0].setup.clean ==> forall z :: Step(s, z, u) ==> u in z.txns && Less(Distance(z, u), Distance(s, u)))
  {
    var s := r[|r| - 1];
    RunInvariant(r);
    hide Inv, Run, Step, Waits, Distance, Less;
    if w :| Waits(s, t, w) {
      WaitsOnPublisher(s, t, w);
      u := w;
    } else {
      u := t;
    }
    s' := Moves(s, u);
    forall z | r[0].setup.clean && Step(s, z, u) ensures u in z.txns && Less(Distance(z, u), Distance(s, u)) {
      Progress(s, z, u);
    }
  }

  // ----- how often a transaction can be set back -----

  // A context that has not changed for others: neither freed nor published.
  lemma DistanceSame(s: State, s': State, a: nat, t: nat)
    requires Evolve(s, s', a) && a in s.txns && t in s.txns && a != t
    requires s'.txns[a].freed == s.txns[a].freed && (s'.txns[a].end > 0 <==> s.txns[a].end > 0)
    ensures t in s'.txns && Distance(s', t) == Distance(s, t)
  {
    hide Keeps, Wrote, HeadKept, Grows;
    assert s'.txns[t] == s.txns[t];
    forall u ensures Freed(s', u) == Freed(s, u) && Ended(s', u) == Ended(s, u) { }
  }

  // Lexicographic: fewer set-backs ahead, or as many and closer to the end.
  ghost predicate Nearer(s': State, s: State, t: nat)
    requires t in s.txns && t in s'.txns
  {
    Delay(s') < Delay(s) || (Delay(s') == Delay(s) && Less(Distance(s', t), Distance(s, t)))
  }

  ghost predicate NotFarther(s': State, s: State, t: nat)
    requires t in s.txns && t in s'.txns
  {
    Delay(s') < Delay(s) || (Delay(s') == Delay(s) && Distance(s', t) == Distance(s, t))
  }

  /** A step of anybody that is already running sets no other transaction back for nothing. */
  lemma NotSetBack(s: State, s': State, a: nat, t: nat)
    requires Inv(s) && Step(s, s', a) && a in s.txns && t in s.txns && a != t
    ensures t in s'.txns && NotFarther(s', s, t)
  {
    StepKeeps(s, s', a);
    hide Inv, Step, Distance, Delay;
    EvolveKeepsTxn(s, s', a, t);
    DelayFalls(s, s', a);
    if s'.txns[a].freed == s.txns[a].freed && (s'.txns[a].end > 0 <==> s.txns[a].end > 0) {
      DistanceSame(s, s', a, t);
    }
  }

  lemma StepNearer(s: State, s': State, t: nat)
    requires Inv(s) && s.setup.clean && t in s.txns && Step(s, s', t) && Ending(s.txns[t].pc) && !Waiting(s, t)
    ensures t in s'.txns && Nearer(s', s, t)
  {
    StepKeeps(s, s', t);
    Progress(s, s', t);
    hide Inv, Step, Distance, Less, Delay, Waiting;
    DelayFalls(s, s', t);
  }

  // ----- infinite runs -----

  // At moment `k` somebody who is running makes a step, or nothing happens.
  ghost predicate Goes(f: nat -> State, who: nat -> nat, k: nat) {
    f(k + 1) == f(k) || (who(k) in f(k).txns && Step(f(k), f(k + 1), who(k)))
  }

  ghost predicate Moved(f: nat -> State, who: nat -> nat, t: nat, k: nat) {
    t == who(k) && t in f(k).txns && Step(f(k), f(k + 1), t)
  }

  // `t` has entered commit or abort and has not given its context back.
  ghost predicate OnWay(s: State, t: nat) {
    t in s.txns && Ending(s.txns[t].pc)
  }

  ghost predicate Over(s: State, t: nat) {
    t in s.txns && s.txns[t].pc.Gone?
  }

  ghost function DistanceOf(s: State, t: nat): Rank {
    if t in s.txns then Distance(s, t) else Rank(0, 0, 0, 0, 0)
  }

  ghost function TraceOf(f: nat -> State, who: nat -> nat): Trace {
    Trace((t: nat, k: nat) => Moved(f, who, t, k), (k: nat) => Delay(f(k)), (t: nat, k: nat) => EndOf(f(k), t),
          (t: nat, k: nat) => DistanceOf(f(k), t), (t: nat, k: nat) => OnWay(f(k), t),
          (t: nat, k: nat) => Over(f(k), t))
  }

  // A step of somebody else, or none, is no set-back for nothing.
  lemma StaysCalm(f: nat -> State, who: nat -> nat, t: nat, k: nat)
    requires Inv(f(k)) && Goes(f, who, k) && t in f(k).txns && !Moved(f, who, t, k)
    ensures t in f(k + 1).txns && f(k + 1).txns[t] == f(k).txns[t] && Calm(TraceOf(f, who), t, k)
  {
    hide Inv, Step, Distance, Delay;
    if f(k + 1) != f(k) {
      NotSetBack(f(k), f(k + 1), who(k), t);
      StepEvolves(f(k), f(k + 1), who(k));
      OthersUnchanged(f(k), f(k + 1), who(k), t);
    }
  }

  // A step of `t` that is not a round of a wait brings it closer.
  lemma ComesCloser(f: nat -> State, who: nat -> nat, t: nat, k: nat)
    requires Inv(f(k)) && f(k).setup.clean && Moved(f, who, t, k) && OnWay(f(k), t) && !Waiting(f(k), t)
    ensures Closer(TraceOf(f, who), t, k)
  {
    hide Inv, Step, Distance, Delay, Less, Waiting;
    StepNearer(f(k), f(k + 1), t);
    StepEvolves(f(k), f(k + 1), t);
    EndKept(f(k), f(k + 1), t, t);
  }

  lemma StepEvolves(s: State, s': State, t: nat)
    requires Inv(s) && Step(s, s', t)
    ensures Inv(s') && Evolve(s, s', t)
  {
    StepKeeps(s, s', t);
  }

  // Whom `t` waits for comes before it in the order of published stamps.
  lemma WaitsInOrder(s: State, t: nat, u: nat)
    requires Inv(s) && Waits(s, t, u)
    ensures OnWay(s, u) && EndOf(s, u) < EndOf(s, t)
  {
    WaitsOnPublisher(s, t, u);
    hide VerInv, OwnInv, Distinct, TxnMvocc;
    assert TxnInv(s.txns[t], s.clock) && TxnInv(s.txns[u], s.clock);
  }

  // Commit and abort are not left but by giving the context back.
  lemma StaysOnWay(s: State, s': State, t: nat)
    requires Inv(s) && Step(s, s', t) && OnWay(s, t)
    ensures OnWay(s', t) || Over(s', t)
  {
    StepEvolves(s, s', t);
    if s.txns[t].state == Active {
      hide Inv, Evolve;
      DoomedPoint(s, t);
      DoomedStep(s, s', t);
    } else {
      hide Step;
      PastOperations(s, s', t);
    }
  }

  lemma PastOperations(s: State, s': State, t: nat)
    requires Inv(s') && Evolve(s, s', t) && t in s.txns && s.txns[t].state != Active
    ensures OnWay(s', t) || Over(s', t)
  {
    hide VerInv, OwnInv, Distinct, TxnMvocc, Keeps, HeadKept, Wrote;
    assert Grows(s.txns[t], s'.txns[t], s.clock) && TxnInv(s'.txns[t], s'.clock);
  }

  lemma DoomedPoint(s: State, t: nat)
    requires Inv(s) && OnWay(s, t) && s.txns[t].state == Active
    ensures s.txns[t].pc == Doomed
  {
    hide VerInv, OwnInv, Distinct, TxnMvocc;
    assert TxnInv(s.txns[t], s.clock);
  }

  lemma DoomedStep(s: State, s': State, t: nat)
    requires Step(s, s', t) && t in s.txns && s.txns[t].pc == Doomed
    ensures OnWay(s', t)
  {
    StepCases(s, s', t);
    hide Step, SetVer;
  }

  lemma KeepsLaws(f: nat -> State, who: nat -> nat, t: nat, k: nat)
    requires Inv(f(k)) && f(k).setup.clean && Goes(f, who, k)
    ensures Lawful(TraceOf(f, who), t, k)
  {
    hide Inv, Step, Distance, Delay, Closer, Calm, Waits;
    if OnWay(f(k), t) {
      if !Moved(f, who, t, k) {
        StaysCalm(f, who, t, k);
      } else {
        StaysOnWay(f(k), f(k + 1), t);
        if u :| Waits(f(k), t, u) {
          WaitsInOrder(f(k), t, u);
          assert TraceOf(f, who).ending(u, k) && TraceOf(f, who).order(u, k) < TraceOf(f, who).order(t, k);
        } else {
          ComesCloser(f, who, t, k);
        }
      }
    }
  }

  lemma {:induction false} InvAlong(r: seq<State>, f: nat -> State, who: nat -> nat, k: nat)
    requires Run(r) && f(0) == r[|r| - 1] && forall i :: Goes(f, who, i)
    ensures Inv(f(k)) && f(k).setup == r[0].setup
  {
    if k == 0 {
      RunInvariant(r);
    } else {
      InvAlong(r, f, who, k - 1);
      assert Goes(f, who, k - 1);
      hide Inv, Step, Run;
      if f(k) != f(k - 1) { StepEvolves(f(k - 1), f(k), who(k - 1)); }
    }
  }

  lemma GoesOn(f: nat -> State, who: nat -> nat, k: nat)
    requires Inv(f(k)) && Goes(f, who, k)
    ensures Continued(f(k), f(k + 1), who(k))
  {
    hide Inv, Step;
    if f(k + 1) != f(k) { StepEvolves(f(k), f(k + 1), who(k)); }
  }

  /**
   Fairness: if fresh versions are clean, in every infinite continuation of a run in which nobody
   begins any more and every transaction on its way to the end is scheduled again and again, every
   transaction that has entered commit or abort gives its context back.
   */
  lemma EveryCommitEnds(r: seq<State>, f: nat -> State, who: nat -> nat, t: nat, n: nat) returns (m: nat)
    requires Run(r) && r[0].setup.clean && f(0) == r[|r| - 1] && forall k :: Goes(f, who, k)
    requires forall u, k :: OnWay(f(k), u) ==> exists i :: i >= k && Moved(f, who, u, i)
    requires OnWay(f(n), t)
    ensures m >= n && Over(f(m), t)
  {
    hide Inv, Run, Goes, Continued, Lawful, Moved, Fair, Closed, Delay, Distance;
    forall k: nat ensures Inv(f(k)) && f(k).setup.clean && Continued(f(k), f(k + 1), who(k)) {
      InvAlong(r, f, who, k);
      GoesOn(f, who, k);
    }
    forall u, i ensures Lawful(TraceOf(f, who), u, i) && Fair(TraceOf(f, who), u, i) {
      KeepsLaws(f, who, u, i);
      IsFair(f, who, u, i);
    }
    forall u, i, j ensures Closed(TraceOf(f, who), u, i, j) { LeavesFewer(f, who, u, i, j); }
    m := EverybodyEnds(TraceOf(f, who), t, n);
  }

  lemma IsFair(f: nat -> State, who: nat -> nat, t: nat, k: nat)
    requires OnWay(f(k), t) ==> exists i :: i >= k && Moved(f, who, t, i)
    ensures Fair(TraceOf(f, who), t, k)
  {
    hide Moved;
    if OnWay(f(k), t) {
      var i :| i >= k && Moved(f, who, t, i);
      assert TraceOf(f, who).moves(t, i);
    }
  }

  lemma LeavesFewer(f: nat -> State, who: nat -> nat, t: nat, i: nat, j: nat)
    requires forall k: nat :: Inv(f(k)) && Continued(f(k), f(k + 1), who(k))
    ensures Closed(TraceOf(f, who), t, i, j)
  {
    hide Inv, Continued, Delay;
    if OnWay(f(i), t) && i <= j && Over(f(j), t) {
      LiveContext(f(i), t);
      LiveContext(f(j), t);
      FreedFewer(f, who, t, i, j);
    }
  }

  lemma LiveContext(s: State, t: nat)
    requires Inv(s) && t in s.txns
    ensures s.txns[t].freed <==> s.txns[t].pc.Gone?
  {
    hide VerInv, OwnInv, Distinct, TxnMvocc;
    assert TxnInv(s.txns[t], s.clock);
  }

  // At moment `k`, `t` moves only on its way to the end and while it waits for nobody.
  ghost predicate Moment(f: nat -> State, who: nat -> nat, t: nat, k: nat) {
    && Inv(f(k)) && f(k).setup.clean && t in f(k).txns && Goes(f, who, k)
    && (Moved(f, who, t, k) ==> OnWay(f(k), t) && !Waiting(f(k), t))
  }

  /**
   Without any fairness: unless new transactions keep coming, a transaction on its way to the end
   makes only finitely many steps other than waiting ones: it cannot be sent back over and over.
   */
  lemma FinitelyManySteps(f: nat -> State, who: nat -> nat, t: nat, n: nat) returns (m: nat)
    requires forall k :: k >= n ==> Moment(f, who, t, k)
    ensures m >= n && forall k :: k >= m ==> !Moved(f, who, t, k)
  {
    var z := TraceOf(f, who);
    hide Inv, Goes, Moved, Waiting, Closer, Calm;
    forall k | k >= n ensures if z.moves(t, k) then Closer(z, t, k) else Calm(z, t, k) {
      assert Moment(f, who, t, k);
      if Moved(f, who, t, k) { ComesCloser(f, who, t, k); } else { StaysCalm(f, who, t, k); }
    }
    m := FinitelyMany(z, t, n);
    forall k | k >= m ensures !Moved(f, who, t, k) { assert !z.moves(t, k); }
  }
}
