/**
 The waits of pre-commit and post-commit: who may wait for whom, why the waits cannot form a
 cycle, and why a transaction that waits for nobody comes closer to its end with every step.
 */
module SsnProgress {
  import opened Stamps
  import opened Engine
  import opened EngineProgress
  import opened Fairness
  import opened Serializability
  import opened Ssn
  import opened SsnInvariant
  import opened SsnSteps

  // ----- waiting -----

  // `t` is in a loop that it cannot leave unless `u` moves.
  ghost predicate Waits(s: State, t: nat, u: nat) {
    && t in s.txns
    && match s.txns[t].pc
       case Certify(c) =>
         (match c
          case End(_, w) => w == u && Unpublished(s, u)
          case State2(_, w, e) => w == u && e == 0 && Unpublished(s, u)
          case Verify2(_, w, e, st) => w == u && e == 0 && st != Abrtd && Unpublished(s, u)
          case Spin(_, w) => w == u && Undecided(s, u)
          case SpinVerify(_, w, st) => w == u && st != Cmmtd && st != Abrtd && Undecided(s, u)
          case REnd2(_, _, _, w) => w == u && Unpublished(s, u)
          case RState2(_, _, _, w, e) => w == u && e == 0 && Unpublished(s, u)
          case RVerify2(_, _, _, w, e, st) => w == u && e == 0 && st != Abrtd && Unpublished(s, u)
          case RSpin(_, _, _, w, _) => w == u && Undecided(s, u)
          case RSpinVerify(_, _, _, w, _, st) => w == u && st != Cmmtd && st != Abrtd && Undecided(s, u)
          case _ => false)
       case Post(i, q) =>
         i < |s.txns[t].rset| &&
         (match q
          case PSpin(w) => w == u && Undecided(s, u)
          case PSpinVerify(w, st) => w == u && st != Cmmtd && st != Abrtd && Undecided(s, u)
          case _ => false)
       case _ => false
  }

  ghost predicate Waiting(s: State, t: nat) {
    exists u :: Waits(s, t, u)
  }

  ghost function WaitGraph(s: State): Graph {
    set t, u | t in s.txns && u in s.txns && Waits(s, t, u) :: (t, u)
  }

  /**
   A transaction waits only for one with a strictly smaller commit stamp, or for one that is
   about to publish its stamp and itself waits for nobody.
   */
  lemma WaitsOnSmaller(s: State, t: nat, u: nat)
    requires Inv(s) && Waits(s, t, u)
    ensures u in s.txns && u != t && s.txns[u].state == Committing
    ensures || 0 < s.txns[u].cs < s.txns[t].cs
            || (Publishing(s.txns[u]) && !Waiting(s, u))
  {
    assert TxnSsn(s, t);
    hide VerInv, OwnInv, Distinct, SlotInv, AccessInv, KnownInv, SeenInv, BitsInv, PrevInv, BoundInv;
    hide ReadsCovered, WritesCovered, ScanInv, Only, Danger, TxnInv, Pending;
    if Unpublished(s, u) {
      UnpublishedPoint(s, u);
    }
  }

  // ----- no cycle -----

  // Publishing transactions last, then in falling order of commit stamps.
  ghost function WaitRank(s: State): map<nat, nat> {
    map t | t in s.txns :: if s.txns[t].cs > s.clock || Publishing(s.txns[t]) then s.clock + 1
        else s.clock - s.txns[t].cs
  }

  /** The waits of any reachable state form no cycle: nobody waits for itself through others. */
  lemma WaitsAcyclic(r: seq<State>)
    requires Run(r)
    ensures Acyclic(WaitGraph(r[|r| - 1]))
  {
    var s := r[|r| - 1];
    RunInvariant(r);
    forall d | d in WaitGraph(s)
      ensures d.0 in WaitRank(s) && d.1 in WaitRank(s) && WaitRank(s)[d.0] < WaitRank(s)[d.1]
    {
      WaitRankRises(s, d.0, d.1);
    }
    hide Inv, Run;
    ForwardIsAcyclic(WaitGraph(s), WaitRank(s));
  }

  lemma WaitRankRises(s: State, t: nat, u: nat)
    requires Inv(s) && t in s.txns && u in s.txns && Waits(s, t, u)
    ensures WaitRank(s)[t] < WaitRank(s)[u]
  {
    assert TxnInv(s.txns[t], s.clock) && TxnInv(s.txns[u], s.clock);
    WaitsOnSmaller(s, t, u);
    hide Inv;
  }

  // Following waits from `t` ends at a committing transaction that waits for nobody.
  lemma {:induction false} WaitChainEnds(s: State, t: nat) returns (u: nat)
    requires Inv(s) && t in s.txns && s.txns[t].state == Committing
    ensures u in s.txns && s.txns[u].state == Committing && !Waiting(s, u)
    decreases s.clock + 1 - WaitRank(s)[t]
  {
    hide Inv, Waits;
    if w :| Waits(s, t, w) {
      WaitsOnSmaller(s, t, w);
      WaitRankRises(s, t, w);
      u := WaitChainEnds(s, w);
    } else {
      u := t;
    }
  }

  // ----- progress -----

  // Distance within the check of one bit of a readers bitmap.
  ghost function BitPointRank(s: State, c: Cert): nat {
    match c
    case XidOf(_, _, _, _) => 16
    case ROwner(_, _, _, _) => 15
    case RState(_, _, _, _) => 14
    case REnd(_, _, _, _, _) => 13
    case RVerify(_, _, _, _, _, _) => 12
    case REnd2(_, _, _, _) => 9
    case RState2(_, _, _, u, e) => if e == 0 && Ended(s, u) then 11 else 6
    case RVerify2(_, _, _, _, e, st) => if e == 0 && st != Abrtd then 10 else 5
    case RSpin(_, _, _, _, _) => 3
    case RSpinVerify(_, _, _, _, _, st) => if st == Cmmtd || st == Abrtd then 2 else 4
    case Scan(_, _, _) => 1
    case _ => 0
  }

  ghost function CertRank(s: State, x: Txn, c: Cert): Rank {
    if c == InitS then Rank(10, 0, 0, 0, 0)
    else if c.ReadX? then Rank(8, Left(|x.wset|, c.j), 0, 0, 0)
    else if c == Final then Rank(7, 0, 0, 0, 0)
    else if IsScan(c) then Rank(8, Left(|x.wset|, c.j), Left(WORDS, c.k), |c.cur|, BitPointRank(s, c))
    else Rank(9, Left(|x.rset|, c.i), 0, 0, ReadPointRank(s, c))
  }

  ghost function PostRank(q: PostPoint): nat {
    match q
    case PLoad => 10
    case POwner(_) => 9
    case PEnd(_) => 8
    case PVerify(_, _) => 7
    case PSpinVerify(_, st) => if st == Cmmtd || st == Abrtd then 4 else 6
    case PSpin(_) => 5
    case PSetX => 3
    case PClear => 2
  }

  // How far `t` is from giving its context back, from the moment it enters commit or abort.
  ghost function Distance(s: State, t: nat): Rank
    requires t in s.txns
  {
    var x := s.txns[t];
    match x.pc
    case Doomed => Rank(12, 0, 0, 0, 0)
    case Entered => Rank(12, 0, 0, 0, 0)
    case Drawn => Rank(11, 0, 0, 0, 0)
    case Certify(c) => CertRank(s, x, c)
    case Stamping(j, k) => Rank(6, Left(|x.wset|, j), 0, 0, if k == WriteS then 2 else if k == WriteX then 1 else 0)
    case Post(i, q) => Rank(5, Left(|x.rset|, i), 0, 0, PostRank(q))
    case UndoReads(i) => Rank(4, Left(|x.rset|, i), 0, 0, 0)
    case UndoWrites(j, cleared) => Rank(3, Left(|x.wset|, j), 0, 0, if cleared then 0 else 1)
    case Done => Rank(2, 0, 0, 0, 0)
    case Unlisted => Rank(1, 0, 0, 0, 0)
    case _ => Rank(0, 0, 0, 0, 0)
  }

  // Between the operations and the end of a transaction.
  ghost predicate Ending(pc: Pc) {
    !pc.Idle? && !pc.Reading? && !pc.Updating? && !pc.Gone?
  }

  // The part of the invariant that progress rests on.
  ghost predicate Sound(s: State, t: nat)
    requires t in s.txns
  {
    var x := s.txns[t];
    match x.pc
    case Certify(c) =>
      (match c
       case Load(i) =>
         i < |x.rset| ==> Has(s, x.rset[i]) && (At(s, x.rset[i]).sstamp.Xid? ==> !Freed(s, At(s, x.rset[i]).sstamp.t))
       case Owner(i, u) => i < |x.rset| && u in s.txns
       case State1(i, _) => i < |x.rset|
       case Verify1(i, _, _) => i < |x.rset|
       case End(i, u) => i < |x.rset| && Coherent(s, u)
       case State2(i, u, _) => i < |x.rset| && Coherent(s, u)
       case Verify2(i, u, _, st) => i < |x.rset| && Coherent(s, u) && st != Active
       case Spin(i, u) => i < |x.rset| && Coherent(s, u)
       case SpinVerify(i, u, _) => i < |x.rset| && Coherent(s, u)
       case TakeS(i, _) => i < |x.rset|
       case TakeSVerify(i, _, _) => i < |x.rset|
       case REnd2(_, _, _, u) => Coherent(s, u)
       case RState2(_, _, _, u, _) => Coherent(s, u)
       case RVerify2(_, _, _, u, _, st) => Coherent(s, u) && st != Active
       case RSpin(_, _, _, u, _) => Coherent(s, u)
       case RSpinVerify(_, _, _, u, _, _) => Coherent(s, u)
       case _ => true)
    case Post(i, q) =>
      i < |x.rset| ==>
      (match q
       case PSpin(u) => Coherent(s, u)
       case PSpinVerify(u, _) => Coherent(s, u)
       case _ => true)
    case _ => true
  }

  lemma PointSound(s: State, t: nat)
    requires Inv(s) && t in s.txns
    ensures Sound(s, t)
  {
    assert TxnSsn(s, t);
    hide VerInv, OwnInv, Distinct, SlotInv, AccessInv, SeenInv, BitsInv, PrevInv, BoundInv, TxnInv;
    hide ReadsCovered, WritesCovered, Only, Danger, Pending;
    var x := s.txns[t];
    match x.pc
    case Certify(c) => CertSound(s, t, c);
    case Post(i, q) => if i < |x.rset| && (q.PSpin? || q.PSpinVerify?) { SaneTarget(s, q.u); }
    case _ =>
  }

  lemma CertSound(s: State, t: nat, c: Cert)
    requires Base(s) && t in s.txns && s.txns[t].pc == Certify(c) && CertInv(s, t, c) && KnownInv(s, t) && s.setup.clean
    ensures Sound(s, t)
  {
    hide VerInv, OwnInv, Distinct, TxnInv, Only, Danger, Pending, ScanInv;
    var x := s.txns[t];
    match c
    case Load(i) =>
      if i < |x.rset| {
        assert Knows(x, x.rset[i]);
        if At(s, x.rset[i]).sstamp.Xid? { MarkIsLive(s, x.rset[i]); }
      }
    case End(_, u) => SaneTarget(s, u);
    case State2(_, u, _) => SaneTarget(s, u);
    case Verify2(_, u, _, _) => SaneTarget(s, u);
    case Spin(_, u) => SaneTarget(s, u);
    case SpinVerify(_, u, _) => SaneTarget(s, u);
    case REnd2(_, _, _, u) => SaneTarget(s, u);
    case RState2(_, _, _, u, _) => SaneTarget(s, u);
    case RVerify2(_, _, _, u, _, _) => SaneTarget(s, u);
    case RSpin(_, _, _, u, _) => SaneTarget(s, u);
    case RSpinVerify(_, _, _, u, _, _) => SaneTarget(s, u);
    case _ =>
  }

  // Program points of the read check.
  ghost predicate IsRead(c: Cert) {
    c.Load? || c.Owner? || c.State1? || c.Verify1? || c.End? || c.State2? || c.Verify2?
    || c.Spin? || c.SpinVerify? || c.TakeS? || c.TakeSVerify?
  }

  // `t` moves within the read check: on to the next read, or closer within this one.
  ghost predicate ReadMove(s: State, s': State, t: nat) {
    && t in s.txns && t in s'.txns && s.txns[t].pc.Certify? && s'.txns[t].pc.Certify?
    && s'.txns[t].rset == s.txns[t].rset
    && var c, c' := s.txns[t].pc.c, s'.txns[t].pc.c;
       && IsRead(c) && IsRead(c')
       && ((c'.i == c.i + 1 && c.i < |s.txns[t].rset|) || (c'.i == c.i && ReadPointRank(s', c') < ReadPointRank(s, c)))
  }

  lemma ReadCloser(s: State, s': State, t: nat)
    requires ReadMove(s, s', t)
    ensures t in s.txns && t in s'.txns && Less(Distance(s', t), Distance(s, t))
  {
    hide ReadPointRank, BitPointRank;
  }

  // `t` moves within the check of one bit.
  ghost predicate BitMove(s: State, s': State, t: nat) {
    && t in s.txns && t in s'.txns && s.txns[t].pc.Certify? && s'.txns[t].pc.Certify?
    && s'.txns[t].wset == s.txns[t].wset
    && var c, c' := s.txns[t].pc.c, s'.txns[t].pc.c;
       && IsScan(c) && IsScan(c') && !c.ReadX? && !c'.ReadX?
       && c'.j == c.j && c'.k == c.k && c'.cur == c.cur && BitPointRank(s', c') < BitPointRank(s, c)
  }

  lemma BitCloser(s: State, s': State, t: nat)
    requires BitMove(s, s', t)
    ensures t in s.txns && t in s'.txns && Less(Distance(s', t), Distance(s, t))
  {
    hide ReadPointRank, BitPointRank;
  }

  lemma ProbeProgress(s: State, s': State, t: nat)
    requires t in s.txns && Sound(s, t) && Probe(s, s', t) && !Waiting(s, t)
    ensures ReadMove(s, s', t)
  {
    ProbeShape(s, s', t);
    ProbeIsSound(s, t);
    forall u ensures !ProbeWaits(s, s.txns[t].pc.c, u) { ProbeWaitIsWait(s, t, u); }
    hide Probe, Sound, ProbeSound, ProbeWaits, Waiting, ReadPointRank;
    ProbeMoves(s, s', t);
  }

  lemma ProbeIsSound(s: State, t: nat)
    requires t in s.txns && Sound(s, t) && s.txns[t].pc.Certify? && IsProbe(s.txns[t].pc.c)
    ensures ProbeSound(s, s.txns[t], s.txns[t].pc.c)
  {
  }

  lemma ProbeWaitIsWait(s: State, t: nat, u: nat)
    requires t in s.txns && s.txns[t].pc.Certify?
    ensures ProbeWaits(s, s.txns[t].pc.c, u) ==> Waiting(s, t)
  {
    if ProbeWaits(s, s.txns[t].pc.c, u) { assert Waits(s, t, u); }
  }

  lemma SuccessorProgress(s: State, s': State, t: nat)
    requires t in s.txns && Sound(s, t) && CheckSuccessor(s, s', t) && !Waiting(s, t)
    ensures ReadMove(s, s', t)
  {
    hide Has, At;
    match s.txns[t].pc.c
    case Spin(i, u) => assert !Waits(s, t, u);
    case SpinVerify(i, u, st) => assert !Waits(s, t, u);
    case _ =>
  }

  lemma LoadContextProgress(s: State, s': State, t: nat)
    requires t in s.txns && Sound(s, t) && LoadContext(s, s', t) && !Waiting(s, t)
    ensures BitMove(s, s', t)
  {
    match s.txns[t].pc.c
    case REnd2(_, _, _, u) => assert !Waits(s, t, u);
    case RState2(_, _, _, u, _) => assert !Waits(s, t, u);
    case RSpin(_, _, _, u, _) => assert !Waits(s, t, u);
    case _ =>
  }

  lemma VerifyReaderProgress(s: State, s': State, t: nat)
    requires t in s.txns && Sound(s, t) && VerifyReader(s, s', t) && !Waiting(s, t)
    ensures BitMove(s, s', t)
  {
    hide VerifyReader, Sound, Waiting, BitMove;
    VerifyMoves(s, s', t);
    var c := s.txns[t].pc.c;
    if c.RVerify? {
      FirstVerifyProgress(s, s', t);
    } else {
      LateVerifyProgress(s, s', t);
    }
  }

  lemma FirstVerifyProgress(s: State, s': State, t: nat)
    requires t in s.txns && VerifyReader(s, s', t) && s.txns[t].pc.c.RVerify?
    ensures BitMove(s, s', t)
  {
  }

  lemma LateVerifyProgress(s: State, s': State, t: nat)
    requires t in s.txns && Sound(s, t) && VerifyReader(s, s', t) && !Waiting(s, t)
    requires s.txns[t].pc.c.RVerify2? || s.txns[t].pc.c.RSpinVerify?
    ensures BitMove(s, s', t)
  {
    assert !Waits(s, t, s.txns[t].pc.c.r);
  }

  ghost predicate Scanning(s: State, s': State, t: nat) {
    WritesDone(s, s', t) || SkipInsert(s, s', t) || LoadWord(s, s', t) || LoadReader(s, s', t) || LoadAccess(s, s', t)
  }

  lemma ScanProgress(s: State, s': State, t: nat)
    requires t in s.txns && Scanning(s, s', t)
    ensures t in s'.txns && Less(Distance(s', t), Distance(s, t))
  {
    hide LoadWord, LoadReader, WritesDone, SkipInsert, LoadAccess, Distance, Less;
    if LoadReader(s, s', t) {
      LoadReaderProgress(s, s', t);
    } else if LoadWord(s, s', t) {
      LoadWordProgress(s, s', t);
    } else {
      EntryProgress(s, s', t);
    }
  }

  lemma EntryProgress(s: State, s': State, t: nat)
    requires WritesDone(s, s', t) || SkipInsert(s, s', t) || LoadAccess(s, s', t)
    ensures t in s.txns && t in s'.txns && Less(Distance(s', t), Distance(s, t))
  {
    hide ReadPointRank, BitPointRank;
  }

  lemma LoadWordProgress(s: State, s': State, t: nat)
    requires LoadWord(s, s', t)
    ensures t in s'.txns && Less(Distance(s', t), Distance(s, t))
  {
    hide ReadPointRank;
  }

  lemma LoadReaderProgress(s: State, s': State, t: nat)
    requires LoadReader(s, s', t)
    ensures t in s'.txns && Less(Distance(s', t), Distance(s, t))
  {
    assert BitMove(s, s', t);
    BitCloser(s, s', t);
  }

  lemma TakeBitProgress(s: State, s': State, t: nat, q: nat)
    requires t in s.txns && TakeBit(s, s', t, q)
    ensures t in s'.txns && Less(Distance(s', t), Distance(s, t))
  {
    hide ReadPointRank;
    var cur := s.txns[t].pc.c.cur;
    assert |cur - {q}| == |cur| - 1;
  }

  lemma PostProgress(s: State, s': State, t: nat)
    requires t in s.txns && Sound(s, t) && (PostWait(s, s', t) || PostSetX(s, s', t) || PostClear(s, s', t))
               && !Waiting(s, t)
    ensures t in s'.txns && Less(Distance(s', t), Distance(s, t))
  {
    hide PostWait, Sound, Waiting, CertRank;
    if PostWait(s, s', t) { PostWaitProgress(s, s', t); }
  }

  lemma PostWaitProgress(s: State, s': State, t: nat)
    requires t in s.txns && Sound(s, t) && PostWait(s, s', t) && !Waiting(s, t)
    ensures t in s'.txns && Less(Distance(s', t), Distance(s, t))
  {
    hide CertRank, CertInv;
    if s.txns[t].pc.i < |s.txns[t].rset| {
      match s.txns[t].pc.q
      case PSpin(u) => assert !Waits(s, t, u);
      case PSpinVerify(u, _) => assert !Waits(s, t, u);
      case _ =>
    }
  }

  // The remaining steps, none of which can wait: towards commit, and towards abort.
  ghost predicate Advancing(s: State, s': State, t: nat) {
    || (exists n :: Draw(s, s', t, n)) || Publish(s, s', t) || InitHigh(s, s', t) || LoadSettled(s, s', t)
    || ReadsDone(s, s', t) || PassExclusion(s, s', t) || SetCommitted(s, s', t)
    || StampSuccessor(s, s', t) || StampX(s, s', t) || StampClsn(s, s', t)
  }

  ghost predicate Aborting(s: State, s': State, t: nat) {
    || StartAbort(s, s', t) || UndoRead(s, s', t) || ReadsUndone(s, s', t)
    || UndoSuccessor(s, s', t) || Unlink(s, s', t) || EndAbort(s, s', t) || Unlist(s, s', t) || FreeUnlisted(s, s', t)
  }

  lemma CommitProgress(s: State, s': State, t: nat)
    requires t in s.txns && Advancing(s, s', t)
    ensures t in s'.txns && Less(Distance(s', t), Distance(s, t))
  {
    hide BitPointRank, ReadPointRank, StampSuccessor, StampX, StampClsn, LoadSettled, ReadsDone, PassExclusion,
         SetCommitted;
    if PassExclusion(s, s', t) || SetCommitted(s, s', t) {
      DecideProgress(s, s', t);
    } else if LoadSettled(s, s', t) || ReadsDone(s, s', t) {
      ReadEndProgress(s, s', t);
    } else if StampSuccessor(s, s', t) || StampX(s, s', t) || StampClsn(s, s', t) {
      StampProgress(s, s', t);
    }
  }

  lemma DecideProgress(s: State, s': State, t: nat)
    requires t in s.txns && (PassExclusion(s, s', t) || SetCommitted(s, s', t))
    ensures t in s'.txns && Less(Distance(s', t), Distance(s, t))
  {
    hide BitPointRank, ReadPointRank;
  }

  lemma ReadEndProgress(s: State, s': State, t: nat)
    requires t in s.txns && (LoadSettled(s, s', t) || ReadsDone(s, s', t))
    ensures t in s'.txns && Less(Distance(s', t), Distance(s, t))
  {
    if LoadSettled(s, s', t) {
      assert ReadMove(s, s', t);
      ReadCloser(s, s', t);
    }
    hide BitPointRank, ReadPointRank;
  }

  lemma StampProgress(s: State, s': State, t: nat)
    requires t in s.txns && (StampSuccessor(s, s', t) || StampX(s, s', t) || StampClsn(s, s', t))
    ensures t in s'.txns && Less(Distance(s', t), Distance(s, t))
  {
    hide CertRank;
  }

  lemma AbortProgress(s: State, s': State, t: nat)
    requires t in s.txns && Ending(s.txns[t].pc) && Aborting(s, s', t)
    ensures t in s'.txns && Less(Distance(s', t), Distance(s, t))
  {
    hide CertRank, StartAbort, UndoRead, UndoSuccessor, Unlink;
    if StartAbort(s, s', t) {
      StartAbortProgress(s, s', t);
    } else if UndoRead(s, s', t) || UndoSuccessor(s, s', t) || Unlink(s, s', t) {
      UndoProgress(s, s', t);
    }
  }

  lemma UndoProgress(s: State, s': State, t: nat)
    requires t in s.txns && (UndoRead(s, s', t) || UndoSuccessor(s, s', t) || Unlink(s, s', t))
    ensures t in s'.txns && Less(Distance(s', t), Distance(s, t))
  {
    hide CertRank;
  }

  lemma StartAbortProgress(s: State, s': State, t: nat)
    requires t in s.txns && Ending(s.txns[t].pc) && StartAbort(s, s', t)
    ensures t in s'.txns && Less(Distance(s', t), Distance(s, t))
  {
    hide BitPointRank, ReadPointRank;
  }

  ghost predicate Checking(s: State, s': State, t: nat) {
    || Probe(s, s', t) || CheckSuccessor(s, s', t) || LoadContext(s, s', t) || VerifyReader(s, s', t)
    || PostWait(s, s', t) || PostSetX(s, s', t) || PostClear(s, s', t)
  }

  lemma StepCases(s: State, s': State, t: nat)
    requires t in s.txns && Step(s, s', t) && Ending(s.txns[t].pc)
    ensures || Checking(s, s', t) || Scanning(s, s', t) || (exists q :: TakeBit(s, s', t, q))
            || Advancing(s, s', t) || Aborting(s, s', t)
  {
    hide Probe, CheckSuccessor, LoadContext, VerifyReader, PostWait, PostSetX, PostClear, SetTxn, SetVer;
    hide WritesDone, SkipInsert, LoadWord, TakeBit, LoadReader, LoadAccess;
    hide Draw, Publish, InitHigh, LoadSettled, ReadsDone, PassExclusion, SetCommitted, StartAbort, StampSuccessor,
         StampX;
    hide StampClsn, UndoRead, ReadsUndone, UndoSuccessor, Unlink, EndAbort, Unlist, FreeUnlisted;
  }

  lemma CheckProgress(s: State, s': State, t: nat)
    requires t in s.txns && Sound(s, t) && Checking(s, s', t) && !Waiting(s, t)
    ensures t in s'.txns && Less(Distance(s', t), Distance(s, t))
  {
    hide ReadMove, BitMove, Sound, Waiting, Distance, Less, Probe, CheckSuccessor, LoadContext, VerifyReader,
         PostWait, PostSetX, PostClear;
    if Probe(s, s', t) {
      ProbeProgress(s, s', t);
      ReadCloser(s, s', t);
    } else if CheckSuccessor(s, s', t) {
      SuccessorProgress(s, s', t);
      ReadCloser(s, s', t);
    } else if LoadContext(s, s', t) {
      LoadContextProgress(s, s', t);
      BitCloser(s, s', t);
    } else if VerifyReader(s, s', t) {
      VerifyReaderProgress(s, s', t);
      BitCloser(s, s', t);
    } else {
      PostProgress(s, s', t);
    }
  }

  /**
   A transaction that has entered commit or abort and waits for nobody comes strictly closer to
   giving its context back with every step it takes.
   */
  lemma Progress(s: State, s': State, t: nat)
    requires Inv(s) && t in s.txns && Step(s, s', t) && Ending(s.txns[t].pc) && !Waiting(s, t)
    ensures t in s'.txns && Less(Distance(s', t), Distance(s, t))
  {
    PointSound(s, t);
    StepCases(s, s', t);
    hide *;
    if Checking(s, s', t) {
      CheckProgress(s, s', t);
    } else if Scanning(s, s', t) {
      ScanProgress(s, s', t);
    } else if q :| TakeBit(s, s', t, q) {
      TakeBitProgress(s, s', t, q);
    } else if Advancing(s, s', t) {
      CommitProgress(s, s', t);
    } else {
      AbortProgress(s, s', t);
    }
  }

  // ----- no dead ends -----

  // The part of the invariant that keeps every program point from getting stuck.
  ghost predicate Ready(s: State, t: nat)
    requires t in s.txns
  {
    var x := s.txns[t];
    && (forall k :: 0 <= k < |x.rset| ==> Has(s, x.rset[k]))
    && (forall o :: o in x.own ==> o in s.recs && |s.recs[o]| > 0)
    && match x.pc
       case Certify(c) =>
         (match c
          case Load(i) => i <= |x.rset|
          case Owner(_, u) => u in s.txns
          case State1(_, u) => u in s.txns
          case Verify1(_, u, _) => u in s.txns
          case End(_, u) => u in s.txns
          case State2(_, u, _) => u in s.txns
          case Verify2(_, u, e, _) => u in s.txns && e != x.cs
          case Spin(_, u) => u in s.txns
          case SpinVerify(_, u, _) => u in s.txns
          case TakeS(_, u) => u in s.txns
          case TakeSVerify(_, u, _) => u in s.txns
          case ROwner(_, _, _, r) => r in s.txns
          case RState(_, _, _, r) => r in s.txns
          case REnd(_, _, _, r, _) => r in s.txns
          case RVerify(_, _, _, r, _, _) => r in s.txns
          case REnd2(_, _, _, r) => r in s.txns
          case RState2(_, _, _, r, _) => r in s.txns
          case RVerify2(_, _, _, r, _, _) => r in s.txns
          case RSpin(_, _, _, r, _) => r in s.txns
          case RSpinVerify(_, _, _, r, _, _) => r in s.txns
          case ReadX(j) => j < |x.wset| && x.wset[j] in s.recs && |s.recs[x.wset[j]]| > 1
          case _ => true)
       case Stamping(j, k) =>
         && s.setup.ssn && x.base < x.cs && j <= |x.wset| && (k == WriteS || j < |x.wset|)
         && forall i :: j <= i < |x.wset| ==> x.wset[i] in x.own
       case Post(i, q) =>
         && i <= |x.rset| && (i == |x.rset| ==> q == PLoad)
         && (match q
             case POwner(u) => u in s.txns
             case PEnd(u) => u in s.txns
             case PVerify(u, _) => u in s.txns
             case PSpin(u) => u in s.txns
             case PSpinVerify(u, _) => u in s.txns
             case _ => true)
       case UndoReads(i) => i <= |x.rset|
       case UndoWrites(j, cleared) =>
         j <= |x.wset| && (!cleared || j < |x.wset|) && forall i :: j <= i < |x.wset| ==> x.wset[i] in x.own
       case _ => true
  }

  lemma ReadCheckMoves(s: State, t: nat) returns (s': State)
    requires t in s.txns && Ready(s, t) && s.txns[t].pc.Certify? && IsRead(s.txns[t].pc.c)
    ensures Probe(s, s', t) || CheckSuccessor(s, s', t) || LoadSettled(s, s', t) || ReadsDone(s, s', t)
  {
    var x := s.txns[t];
    match x.pc.c
    case Load(i) =>
      if i == |x.rset| {
        s' := SetPc(s, t, Certify(Scan(0, 0, {})));
      } else {
        var sc := At(s, x.rset[i]).sstamp;
        if sc.Lsn? {
          s' := SetTxn(s, t, x.(pc := Certify(Load(i + 1)), sstamp := Min(x.sstamp, sc.n)));
        } else {
          s' := SetPc(s, t, Certify(if sc.Null? then Load(i + 1) else Owner(i, sc.t)));
        }
      }
    case Owner(i, u) =>
      s' := SetPc(s, t, Certify(if s.txns[u].freed then Load(i) else if u == t then Load(i + 1) else State1(i, u)));
    case State1(i, u) =>
      s' := SetPc(s, t, Certify(Verify1(i, u, s.txns[u].state)));
    case Verify1(i, u, st) =>
      s' := SetPc(s, t, Certify(if s.txns[u].freed then Load(i) else if st == Active then Load(i + 1) else End(i, u)));
    case End(i, u) =>
      s' := SetPc(s, t, Certify(State2(i, u, s.txns[u].end)));
    case State2(i, u, e) =>
      s' := SetPc(s, t, Certify(Verify2(i, u, e, s.txns[u].state)));
    case Verify2(i, u, e, st) =>
      s' := SetPc(s, t, Certify(if s.txns[u].freed then Load(i) else if st == Abrtd then Load(i + 1)
                                else if e == 0 then End(i, u) else if e > x.cs then Load(i + 1)
                                else if st == Committing then Spin(i, u) else TakeS(i, u)));
    case Spin(i, u) =>
      s' := SetPc(s, t, Certify(SpinVerify(i, u, s.txns[u].state)));
    case SpinVerify(i, u, st) =>
      s' := SetPc(s, t, Certify(if s.txns[u].freed then Load(i) else if st == Cmmtd then TakeS(i, u)
                                else if st == Abrtd then Load(i + 1) else Spin(i, u)));
    case TakeS(i, u) =>
      s' := SetPc(s, t, Certify(TakeSVerify(i, u, s.txns[u].sstamp)));
    case TakeSVerify(i, u, sv) =>
      s' := if s.txns[u].freed then SetPc(s, t, Certify(Load(i)))
            else SetTxn(s, t, x.(pc := Certify(Load(i + 1)), sstamp := Min(x.sstamp, sv)));
  }

  lemma ReaderCheckMoves(s: State, t: nat) returns (s': State)
    requires t in s.txns && Ready(s, t) && s.txns[t].pc.Certify? && IsScan(s.txns[t].pc.c)
    requires !s.txns[t].pc.c.Scan? && !s.txns[t].pc.c.ReadX?
    ensures LoadReader(s, s', t) || LoadContext(s, s', t) || VerifyReader(s, s', t)
  {
    var x := s.txns[t];
    match x.pc.c
    case XidOf(j, k, cur, q) =>
      s' := SetPc(s, t, Certify(if q in s.rlist then ROwner(j, k, cur, s.rlist[q]) else Scan(j, k, cur)));
    case ROwner(j, k, cur, r) =>
      s' := SetPc(s, t, Certify(if s.txns[r].freed then Scan(j, k, cur) else RState(j, k, cur, r)));
    case RState(j, k, cur, r) =>
      s' := SetPc(s, t, Certify(REnd(j, k, cur, r, s.txns[r].state)));
    case REnd(j, k, cur, r, st) =>
      s' := SetPc(s, t, Certify(RVerify(j, k, cur, r, st, s.txns[r].end)));
    case RVerify(j, k, cur, r, st, e) =>
      s' := SetPc(s, t, Certify(if s.txns[r].freed then Scan(j, k, cur)
                                else if st != Active && e == 0 then REnd2(j, k, cur, r)
                                else if st == Active || e > x.cs then Scan(j, k, cur)
                                else RSpin(j, k, cur, r, e)));
    case REnd2(j, k, cur, r) =>
      s' := SetPc(s, t, Certify(RState2(j, k, cur, r, s.txns[r].end)));
    case RState2(j, k, cur, r, e) =>
      s' := SetPc(s, t, Certify(RVerify2(j, k, cur, r, e, s.txns[r].state)));
    case RVerify2(j, k, cur, r, e, st) =>
      s' := SetPc(s, t, Certify(if s.txns[r].freed || st == Abrtd then Scan(j, k, cur)
                                else if e == 0 then REnd2(j, k, cur, r)
                                else if st == Active || e > x.cs then Scan(j, k, cur)
                                else RSpin(j, k, cur, r, e)));
    case RSpin(j, k, cur, r, e) =>
      s' := SetPc(s, t, Certify(RSpinVerify(j, k, cur, r, e, s.txns[r].state)));
    case RSpinVerify(j, k, cur, r, e, st) =>
      s' := if s.txns[r].freed || st == Abrtd then SetPc(s, t, Certify(Scan(j, k, cur)))
            else if st == Cmmtd then SetTxn(s, t, x.(pc := Certify(Scan(j, k, cur)), pstamp := Max(x.pstamp, e)))
            else SetPc(s, t, Certify(RSpin(j, k, cur, r, e)));
  }

  lemma ScanMovesOn(s: State, t: nat) returns (s': State)
    requires t in s.txns && Ready(s, t) && s.txns[t].pc.Certify? && (s.txns[t].pc.c.Scan? || s.txns[t].pc.c.ReadX?)
    requires s.txns[t].own == Elems(s.txns[t].wset)
    ensures || WritesDone(s, s', t) || SkipInsert(s, s', t) || LoadWord(s, s', t) || LoadAccess(s, s', t)
            || exists q :: TakeBit(s, s', t, q)
  {
    var x := s.txns[t];
    var j := x.pc.c.j;
    if j >= |x.wset| {
      s' := SetPc(s, t, Certify(Final));
    } else {
      assert x.wset[j] in Elems(x.wset);
      var c := s.recs[x.wset[j]];
      if x.pc.c.ReadX? {
        s' := SetTxn(s, t, x.(pc := Certify(Scan(j + 1, 0, {})), pstamp := Max(x.pstamp, c[|c| - 2].xstamp)));
      } else if |c| <= 1 {
        s' := SetPc(s, t, Certify(Scan(j + 1, 0, {})));
      } else {
        var k, cur := x.pc.c.k, x.pc.c.cur;
        if cur == {} {
          s' := SetPc(s, t, Certify(if k < WORDS then Scan(j, k + 1, WordOf(c[|c| - 2], k))
                                    else ReadX(j)));
        } else {
          var q :| q in cur;
          s' := SetPc(s, t, Certify(if q == x.slot then Scan(j, k, cur - {q}) else XidOf(j, k, cur - {q}, q)));
          assert TakeBit(s, s', t, q);
        }
      }
    }
  }

  lemma StampMoves(s: State, t: nat) returns (s': State)
    requires t in s.txns && Ready(s, t) && s.txns[t].pc.Stamping?
    ensures SetCommitted(s, s', t) || StampSuccessor(s, s', t) || StampX(s, s', t) || StampClsn(s, s', t)
  {
    var x := s.txns[t];
    var j := x.pc.j;
    if j == |x.wset| {
      s' := SetTxn(s, t, x.(pc := Post(0, PLoad), state := Cmmtd));
    } else {
      var o := x.wset[j];
      assert o in x.own;
      var l := |s.recs[o]|;
      var v := Vid(o, l - 1);
      match x.pc.k
      case WriteS =>
        var x' := x.(pc := Stamping(j, WriteX), marked := x.marked - {o});
        s' := if l > 1 then SetTxn(SetVer(s, Vid(o, l - 2), At(s, Vid(o, l - 2)).(sstamp := Lsn(x.sstamp))), t, x')
              else SetTxn(s, t, x');
        assert StampSuccessorWith(s, s', t, x.sstamp);
      case WriteX =>
        s' := SetTxn(SetVer(s, v, At(s, v).(xstamp := x.cs)), t, x.(pc := Stamping(j, WriteC)));
      case WriteC =>
        s' := SetTxn(SetVer(s, v, At(s, v).(clsn := Lsn(x.cs))), t,
                     x.(pc := Stamping(j + 1, WriteS), own := x.own - {o}));
        assert StampClsnWith(s, s', t, x.cs);
    }
  }

  lemma PostMoves(s: State, t: nat) returns (s': State)
    requires t in s.txns && Ready(s, t) && s.txns[t].pc.Post?
    ensures PostWait(s, s', t) || PostSetX(s, s', t) || PostClear(s, s', t)
  {
    var x := s.txns[t];
    var i := x.pc.i;
    if i == |x.rset| {
      s' := SetPc(s, t, Done);
    } else {
      var v := x.rset[i];
      match x.pc.q
      case PLoad =>
        var sc := At(s, v).sstamp;
        s' := SetPc(s, t, Post(i, if sc.Xid? && sc.t != t then POwner(sc.t) else PSetX));
      case POwner(u) =>
        s' := SetPc(s, t, Post(i, if s.txns[u].freed then PSetX else PEnd(u)));
      case PEnd(u) =>
        s' := SetPc(s, t, Post(i, PVerify(u, s.txns[u].end)));
      case PVerify(u, e) =>
        s' := SetPc(s, t, Post(i, if !s.txns[u].freed && 0 < e < x.cs then PSpin(u) else PSetX));
      case PSpin(u) =>
        s' := SetPc(s, t, Post(i, PSpinVerify(u, s.txns[u].state)));
      case PSpinVerify(u, st) =>
        s' := SetPc(s, t, Post(i, if s.txns[u].freed || st == Cmmtd || st == Abrtd then PSetX else PSpin(u)));
      case PSetX =>
        s' := SetTxn(SetVer(s, v, At(s, v).(xstamp := Max(At(s, v).xstamp, x.cs))), t, x.(pc := Post(i, PClear)));
      case PClear =>
        s' := SetTxn(SetVer(s, v, At(s, v).(readers := At(s, v).readers - Entry(s, x))), t,
            x.(pc := Post(i + 1, PLoad)));
    }
  }

  lemma UndoMoves(s: State, t: nat) returns (s': State)
    requires t in s.txns && Ready(s, t) && (s.txns[t].pc.UndoReads? || s.txns[t].pc.UndoWrites?)
    ensures || UndoRead(s, s', t) || ReadsUndone(s, s', t) || UndoSuccessor(s, s', t) || Unlink(s, s', t)
              || EndAbort(s, s', t)
  {
    var x := s.txns[t];
    if x.pc.UndoReads? {
      if x.pc.i == |x.rset| {
        s' := SetPc(s, t, UndoWrites(0, false));
      } else {
        var v := x.rset[x.pc.i];
        s' := SetTxn(SetVer(s, v, At(s, v).(readers := At(s, v).readers - Entry(s, x))), t,
            x.(pc := UndoReads(x.pc.i + 1)));
      }
    } else if x.pc.j == |x.wset| {
      s' := SetPc(s, t, Done);
    } else {
      var o := x.wset[x.pc.j];
      assert o in x.own;
      var c := s.recs[o];
      if x.pc.cleared {
        s' := SetTxn(s.(recs := s.recs[o := c[..|c| - 1]]), t,
                     x.(pc := UndoWrites(x.pc.j + 1, false), own := x.own - {o}));
      } else {
        var x' := x.(pc := UndoWrites(x.pc.j, true), marked := x.marked - {o});
        s' := if |c| > 1 then SetTxn(SetVer(s, Vid(o, |c| - 2), At(s, Vid(o, |c| - 2)).(sstamp := Null)), t, x')
              else SetTxn(s, t, x');
      }
    }
  }

  lemma CertMoves(s: State, t: nat) returns (s': State)
    requires t in s.txns && Ready(s, t) && s.txns[t].pc.Certify? && s.txns[t].own == Elems(s.txns[t].wset)
    ensures Step(s, s', t)
  {
    hide Ready, Probe, CheckSuccessor, LoadContext, VerifyReader, LoadWord, LoadAccess, TakeBit;
    var x := s.txns[t];
    var c := x.pc.c;
    if c == InitS {
      s' := SetTxn(s, t, x.(pc := Certify(Load(0)), sstamp := if x.sstamp == 0 then x.cs else x.sstamp));
      assert InitHigh(s, s', t);
    } else if c == Final {
      s' := if x.pstamp < x.sstamp then SetTxn(s, t, x.(pc := Stamping(0, WriteS), decided := true))
            else SetTxn(s, t, x.(pc := UndoReads(0), state := Abrtd));
      assert PassExclusion(s, s', t) || StartAbort(s, s', t);
    } else if IsRead(c) {
      s' := ReadCheckMoves(s, t);
    } else if c.Scan? || c.ReadX? {
      s' := ScanMovesOn(s, t);
    } else {
      s' := ReaderCheckMoves(s, t);
    }
  }

  lemma Moves(s: State, t: nat) returns (s': State)
    requires t in s.txns && Ready(s, t) && Ending(s.txns[t].pc)
    requires s.txns[t].pc.Certify? ==> s.txns[t].own == Elems(s.txns[t].wset)
    ensures Step(s, s', t)
  {
    hide Ready, Probe, CheckSuccessor, LoadContext, VerifyReader, LoadWord, LoadAccess, TakeBit, PostWait,
         StampSuccessor, UndoSuccessor;
    var x := s.txns[t];
    match x.pc
    case Doomed =>
      s' := SetTxn(s, t, x.(pc := UndoReads(0), state := Abrtd));
      assert StartAbort(s, s', t);
    case Entered =>
      s' := SetTxn(s.(clock := s.clock + 1), t, x.(pc := Drawn, cs := s.clock + 1, base := s.clock));
      assert Draw(s, s', t, s.clock + 1);
    case Drawn =>
      s' := SetTxn(s, t, x.(pc := Certify(InitS), end := x.cs));
      assert Publish(s, s', t);
    case Certify(_) => s' := CertMoves(s, t);
    case Stamping(_, _) => s' := StampMoves(s, t);
    case Post(_, _) => s' := PostMoves(s, t);
    case UndoReads(_) => s' := UndoMoves(s, t);
    case UndoWrites(_, _) => s' := UndoMoves(s, t);
    case Done =>
      s' := SetPc(s.(rlist := s.rlist - {x.slot}), t, Unlisted);
      assert Unlist(s, s', t);
    case Unlisted =>
      s' := SetTxn(s, t, x.(pc := Gone, freed := true));
      assert FreeUnlisted(s, s', t);
  }

  lemma OwnListed(x: Txn, clock: nat)
    requires TxnInv(x, clock)
    ensures x.pc.Certify? ==> x.own == Elems(x.wset)
    ensures x.pc.Stamping? ==>
              && x.pc.j <= |x.wset| && (x.pc.k == WriteS || x.pc.j < |x.wset|)
              && x.base < x.cs
              && forall i :: x.pc.j <= i < |x.wset| ==> x.wset[i] in x.own
    ensures x.pc.UndoWrites? ==>
              && x.pc.j <= |x.wset| && (!x.pc.cleared || x.pc.j < |x.wset|)
              && forall i :: x.pc.j <= i < |x.wset| ==> x.wset[i] in x.own
  {
    if x.pc.Stamping? || x.pc.UndoWrites? {
      forall i | x.pc.j <= i < |x.wset| ensures x.wset[i] in x.own {
        assert x.wset[i] == x.wset[x.pc.j..][i - x.pc.j];
      }
    }
  }

  lemma PointReady(s: State, t: nat)
    requires Inv(s) && t in s.txns
    ensures Ready(s, t)
  {
    hide Inv, Base, KnownInv, SeenInv, BitsInv, PrevInv, BoundInv, TxnInv, ReadsCovered, WritesCovered, CertInv;
    Holds(s, t);
    KnownReads(s, t);
    OwnListed(s.txns[t], s.clock);
    if s.txns[t].pc.Certify? {
      if s.txns[t].pc.c.Verify2? { VerifiesOther(s, t); }
      CertReady(s, t);
    }
  }

  lemma Holds(s: State, t: nat)
    requires Inv(s) && t in s.txns
    ensures Base(s) && TxnSsn(s, t) && TxnInv(s.txns[t], s.clock) && OwnInv(s, t)
  {
  }

  lemma VerifiesOther(s: State, t: nat)
    requires Base(s) && t in s.txns && s.txns[t].pc.Certify? && s.txns[t].pc.c.Verify2? && CertInv(s, t, s.txns[t].pc.c)
    ensures s.txns[t].pc.c.u in s.txns && s.txns[s.txns[t].pc.c.u].cs != s.txns[t].cs > 0
  {
    hide Base, Only, Danger;
    DistinctStamps(s, t, s.txns[t].pc.c.u);
  }

  lemma CertReady(s: State, t: nat)
    requires t in s.txns && s.txns[t].pc.Certify? && CertInv(s, t, s.txns[t].pc.c) && s.setup.clean
    requires forall k :: 0 <= k < |s.txns[t].rset| ==> Has(s, s.txns[t].rset[k])
    requires forall o :: o in s.txns[t].own ==> o in s.recs && |s.recs[o]| > 0
    requires s.txns[t].pc.c.Verify2? && s.txns[t].pc.c.u in s.txns ==> s.txns[s.txns[t].pc.c.u].cs != s.txns[t].cs > 0
    ensures Ready(s, t)
  {
    hide Only, Danger, Pending, ScanInv;
  }

  lemma DistinctStamps(s: State, t: nat, u: nat)
    requires Base(s) && t in s.txns && u in s.txns && u != t && s.txns[t].pc.Certify?
    ensures 0 < s.txns[t].cs != s.txns[u].cs
  {
    hide VerInv, OwnInv;
    assert TxnInv(s.txns[t], s.clock);
  }

  /**
   The spins cannot deadlock: whenever some transaction is committing, one of the committing
   transactions waits for nobody, can take its next step, and every step it takes brings it
   strictly closer to its end.
   */
  lemma NoDeadlock(r: seq<State>, t: nat) returns (u: nat, s': State)
    requires Run(r) && t in r[|r| - 1].txns && r[|r| - 1].txns[t].state == Committing
    ensures var s := r[|r| - 1];
            && u in s.txns && s.txns[u].state == Committing && !Waiting(s, u)
            && Step(s, s', u)
            && forall z :: Step(s, z, u) ==> u in z.txns && Less(Distance(z, u), Distance(s, u))
  {
    var s := r[|r| - 1];
    RunInvariant(r);
    u := WaitChainEnds(s, t);
    PointReady(s, u);
    CommittingPoint(s, u);
    s' := Moves(s, u);
    forall z | Step(s, z, u) ensures u in z.txns && Less(Distance(z, u), Distance(s, u)) {
      hide Inv, Step, Waiting, Distance, Less;
      Progress(s, z, u);
    }
  }

  lemma CommittingPoint(s: State, u: nat)
    requires Base(s) && u in s.txns && s.txns[u].state == Committing
    ensures Ending(s.txns[u].pc) && (s.txns[u].pc.Certify? ==> s.txns[u].own == Elems(s.txns[u].wset))
  {
    hide VerInv, OwnInv, Distinct;
    assert TxnInv(s.txns[u], s.clock);
  }

  // ----- how often a transaction can be set back -----

  // A context that has not changed for others: neither freed nor published.
  lemma DistanceSame(s: State, s': State, a: nat, t: nat)
    requires Evolve(s, s', a) && a in s.txns && t in s.txns && a != t
    requires s'.txns[a].freed == s.txns[a].freed && (s'.txns[a].end > 0 <==> s.txns[a].end > 0)
    ensures t in s'.txns && Distance(s', t) == Distance(s, t)
  {
    hide Keeps, Wrote, HeadKept, Grows;
    assert s'.txns[t] == s.txns[t];
    forall u ensures Freed(s', u) == Freed(s, u) && Ended(s', u) == Ended(s, u) { }
  }

  // Lexicographic: fewer set-backs ahead, or as many and closer to the end.
  ghost predicate Nearer(s': State, s: State, t: nat)
    requires t in s.txns && t in s'.txns
  {
    Delay(s') < Delay(s) || (Delay(s') == Delay(s) && Less(Distance(s', t), Distance(s, t)))
  }

  ghost predicate NotFarther(s': State, s: State, t: nat)
    requires t in s.txns && t in s'.txns
  {
    Delay(s') < Delay(s) || (Delay(s') == Delay(s) && Distance(s', t) == Distance(s, t))
  }

  /** A step of anybody that is already running sets no other transaction back for nothing. */
  lemma NotSetBack(s: State, s': State, a: nat, t: nat)
    requires Inv(s) && Step(s, s', a) && a in s.txns && t in s.txns && a != t
    ensures t in s'.txns && NotFarther(s', s, t)
  {
    StepKeeps(s, s', a);
    hide Inv, Step, Distance, Delay;
    EvolveKeepsTxn(s, s', a, t);
    DelayFalls(s, s', a);
    if s'.txns[a].freed == s.txns[a].freed && (s'.txns[a].end > 0 <==> s.txns[a].end > 0) {
      DistanceSame(s, s', a, t);
    }
  }

  lemma StepNearer(s: State, s': State, t: nat)
    requires Inv(s) && t in s.txns && Step(s, s', t) && Ending(s.txns[t].pc) && !Waiting(s, t)
    ensures t in s'.txns && Nearer(s', s, t)
  {
    StepKeeps(s, s', t);
    Progress(s, s', t);
    hide Inv, Step, Distance, Less, Delay, Waiting;
    DelayFalls(s, s', t);
  }

  // ----- infinite runs -----

  // At moment `k` somebody who is running makes a step, or nothing happens.
  ghost predicate Goes(f: nat -> State, who: nat -> nat, k: nat) {
    f(k + 1) == f(k) || (who(k) in f(k).txns && Step(f(k), f(k + 1), who(k)))
  }

  ghost predicate Moved(f: nat -> State, who: nat -> nat, t: nat, k: nat) {
    t == who(k) && t in f(k).txns && Step(f(k), f(k + 1), t)
  }

  // `t` has entered commit or abort and has not given its context back.
  ghost predicate OnWay(s: State, t: nat) {
    t in s.txns && Ending(s.txns[t].pc)
  }

  ghost predicate Over(s: State, t: nat) {
    t in s.txns && s.txns[t].pc.Gone?
  }

  ghost function DistanceOf(s: State, t: nat): Rank {
    if t in s.txns then Distance(s, t) else Rank(0, 0, 0, 0, 0)
  }

  ghost function TraceOf(f: nat -> State, who: nat -> nat): Trace {
    Trace((t: nat, k: nat) => Moved(f, who, t, k), (k: nat) => Delay(f(k)), (t: nat, k: nat) => EndOf(f(k), t),
          (t: nat, k: nat) => DistanceOf(f(k), t), (t: nat, k: nat) => OnWay(f(k), t),
          (t: nat, k: nat) => Over(f(k), t))
  }

  // A step of somebody else, or none, is no set-back for nothing.
  lemma StaysCalm(f: nat -> State, who: nat -> nat, t: nat, k: nat)
    requires Inv(f(k)) && Goes(f, who, k) && t in f(k).txns && !Moved(f, who, t, k)
    ensures t in f(k + 1).txns && f(k + 1).txns[t] == f(k).txns[t] && Calm(TraceOf(f, who), t, k)
  {
    hide Inv, Step, Distance, Delay;
    if f(k + 1) != f(k) {
      NotSetBack(f(k), f(k + 1), who(k), t);
      StepEvolves(f(k), f(k + 1), who(k));
      OthersUnchanged(f(k), f(k + 1), who(k), t);
    }
  }

  // A step of `t` that is not a round of a wait brings it closer.
  lemma ComesCloser(f: nat -> State, who: nat -> nat, t: nat, k: nat)
    requires Inv(f(k)) && Moved(f, who, t, k) && OnWay(f(k), t) && !Waiting(f(k), t)
    ensures Closer(TraceOf(f, who), t, k)
  {
    hide Inv, Step, Distance, Delay, Less, Waiting;
    StepNearer(f(k), f(k + 1), t);
    StepEvolves(f(k), f(k + 1), t);
    EndKept(f(k), f(k + 1), t, t);
  }

  lemma StepEvolves(s: State, s': State, t: nat)
    requires Inv(s) && Step(s, s', t)
    ensures Inv(s') && Evolve(s, s', t)
  {
    StepKeeps(s, s', t);
  }

  // Whom `t` waits for comes before it in the order of published stamps.
  lemma WaitsInOrder(s: State, t: nat, u: nat)
    requires Inv(s) && Waits(s, t, u)
    ensures OnWay(s, u) && EndOf(s, u) < EndOf(s, t)
  {
    WaitsOnSmaller(s, t, u);
    hide VerInv, OwnInv, Distinct, TxnSsn, TableInv, SlotInv, AccessInv;
    assert TxnInv(s.txns[t], s.clock) && TxnInv(s.txns[u], s.clock);
  }

  // Commit and abort are not left but by giving the context back.
  lemma StaysOnWay(s: State, s': State, t: nat)
    requires Inv(s) && Step(s, s', t) && OnWay(s, t)
    ensures OnWay(s', t) || Over(s', t)
  {
    StepEvolves(s, s', t);
    if s.txns[t].state == Active {
      hide Inv, Evolve;
      DoomedPoint(s, t);
      DoomedStep(s, s', t);
    } else {
      hide Step;
      PastOperations(s, s', t);
    }
  }

  lemma PastOperations(s: State, s': State, t: nat)
    requires Inv(s') && Evolve(s, s', t) && t in s.txns && s.txns[t].state != Active
    ensures OnWay(s', t) || Over(s', t)
  {
    hide VerInv, OwnInv, Distinct, TxnSsn, TableInv, SlotInv, AccessInv, Keeps, HeadKept, Wrote;
    assert Grows(s.txns[t], s'.txns[t], s.clock) && TxnInv(s'.txns[t], s'.clock);
  }

  lemma DoomedPoint(s: State, t: nat)
    requires Inv(s) && OnWay(s, t) && s.txns[t].state == Active
    ensures s.txns[t].pc == Doomed
  {
    hide VerInv, OwnInv, Distinct, TxnSsn, TableInv, SlotInv, AccessInv;
    assert TxnInv(s.txns[t], s.clock);
  }

  lemma DoomedStep(s: State, s': State, t: nat)
    requires Step(s, s', t) && t in s.txns && s.txns[t].pc == Doomed
    ensures OnWay(s', t)
  {
    StepCases(s, s', t);
    hide Step, SetVer;
  }

  lemma KeepsLaws(f: nat -> State, who: nat -> nat, t: nat, k: nat)
    requires Inv(f(k)) && Goes(f, who, k)
    ensures Lawful(TraceOf(f, who), t, k)
  {
    hide Inv, Step, Distance, Delay, Closer, Calm, Waits;
    if OnWay(f(k), t) {
      if !Moved(f, who, t, k) {
        StaysCalm(f, who, t, k);
      } else {
        StaysOnWay(f(k), f(k + 1), t);
        if u :| Waits(f(k), t, u) {
          WaitsInOrder(f(k), t, u);
          assert TraceOf(f, who).ending(u, k) && TraceOf(f, who).order(u, k) < TraceOf(f, who).order(t, k);
        } else {
          ComesCloser(f, who, t, k);
        }
      }
    }
  }

  lemma {:induction false} InvAlong(r: seq<State>, f: nat -> State, who: nat -> nat, k: nat)
    requires Run(r) && f(0) == r[|r| - 1] && forall i :: Goes(f, who, i)
    ensures Inv(f(k))
  {
    if k == 0 {
      RunInvariant(r);
    } else {
      InvAlong(r, f, who, k - 1);
      assert Goes(f, who, k - 1);
      hide Inv, Step, Run;
      if f(k) != f(k - 1) { StepEvolves(f(k - 1), f(k), who(k - 1)); }
    }
  }

  lemma GoesOn(f: nat -> State, who: nat -> nat, k: nat)
    requires Inv(f(k)) && Goes(f, who, k)
    ensures Continued(f(k), f(k + 1), who(k))
  {
    hide Inv, Step;
    if f(k + 1) != f(k) { StepEvolves(f(k), f(k + 1), who(k)); }
  }

  /**
   Fairness: in every infinite continuation of a run in which nobody begins any more and every
   transaction on its way to the end is scheduled again and again, every transaction that has
   entered commit or abort gives its context back.
   */
  lemma EveryCommitEnds(r: seq<State>, f: nat -> State, who: nat -> nat, t: nat, n: nat) returns (m: nat)
    requires Run(r) && f(0) == r[|r| - 1] && forall k :: Goes(f, who, k)
    requires forall u, k :: OnWay(f(k), u) ==> exists i :: i >= k && Moved(f, who, u, i)
    requires OnWay(f(n), t)
    ensures m >= n && Over(f(m), t)
  {
    hide Inv, Run, Goes, Continued, Lawful, Moved, Fair, Closed, Delay, Distance;
    forall k: nat ensures Inv(f(k)) && Continued(f(k), f(k + 1), who(k)) {
      InvAlong(r, f, who, k);
      GoesOn(f, who, k);
    }
    forall u, i ensures Lawful(TraceOf(f, who), u, i) && Fair(TraceOf(f, who), u, i) {
      KeepsLaws(f, who, u, i);
      IsFair(f, who, u, i);
    }
    forall u, i, j ensures Closed(TraceOf(f, who), u, i, j) { LeavesFewer(f, who, u, i, j); }
    m := EverybodyEnds(TraceOf(f, who), t, n);
  }

  lemma IsFair(f: nat -> State, who: nat -> nat, t: nat, k: nat)
    requires OnWay(f(k), t) ==> exists i :: i >= k && Moved(f, who, t, i)
    ensures Fair(TraceOf(f, who), t, k)
  {
    hide Moved;
    if OnWay(f(k), t) {
      var i :| i >= k && Moved(f, who, t, i);
      assert TraceOf(f, who).moves(t, i);
    }
  }

  lemma LeavesFewer(f: nat -> State, who: nat -> nat, t: nat, i: nat, j: nat)
    requires forall k: nat :: Inv(f(k)) && Continued(f(k), f(k + 1), who(k))
    ensures Closed(TraceOf(f, who), t, i, j)
  {
    hide Inv, Continued, Delay;
    if OnWay(f(i), t) && i <= j && Over(f(j), t) {
      LiveContext(f(i), t);
      LiveContext(f(j), t);
      FreedFewer(f, who, t, i, j);
    }
  }

  lemma LiveContext(s: State, t: nat)
    requires Inv(s) && t in s.txns
    ensures s.txns[t].freed <==> s.txns[t].pc.Gone?
  {
    hide VerInv, OwnInv, Distinct, TxnSsn, TableInv, SlotInv, AccessInv;
    assert TxnInv(s.txns[t], s.clock);
  }

  // At moment `k`, `t` moves only on its way to the end and while it waits for nobody.
  ghost predicate Moment(f: nat -> State, who: nat -> nat, t: nat, k: nat) {
    && Inv(f(k)) && t in f(k).txns && Goes(f, who, k)
    && (Moved(f, who, t, k) ==> OnWay(f(k), t) && !Waiting(f(k), t))
  }

  /**
   Without any fairness: unless new transactions keep coming, a transaction on its way to the end
   makes only finitely many steps other than waiting ones: it cannot be sent back over and over.
   */
  lemma FinitelyManySteps(f: nat -> State, who: nat -> nat, t: nat, n: nat) returns (m: nat)
    requires forall k :: k >= n ==> Moment(f, who, t, k)
    ensures m >= n && forall k :: k >= m ==> !Moved(f, who, t, k)
  {
    var z := TraceOf(f, who);
    hide Inv, Goes, Moved, Waiting, Closer, Calm;
    forall k | k >= n ensures if z.moves(t, k) then Closer(z, t, k) else Calm(z, t, k) {
      assert Moment(f, who, t, k);
      if Moved(f, who, t, k) { ComesCloser(f, who, t, k); } else { StaysCalm(f, who, t, k); }
    }
    m := FinitelyMany(z, t, n);
    forall k | k >= m ensures !Moved(f, who, t, k) { assert !z.moves(t, k); }
  }
}
