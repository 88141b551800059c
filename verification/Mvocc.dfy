/**
 Backward validation (MVOCC) at thread granularity, on top of `Engine`: a read is only listed,
 an overwritten version receives the stamp of the version above it, and pre-commit refuses any read
 whose overwriter drew a smaller stamp.  Watermarks, bitmaps, positions and access stamps are unused,
 and the `sstamp` of a new version may hold anything.
 */
module Mvocc {
  import opened Stamps
  import opened Engine
  import opened Serializability

  // ----- steps -----

  ghost predicate BeginTxn(s: State, s': State, t: nat) {
    Begin(s, s', t, 0, s.rlist)
  }

  // The version walk hands `mvocc_read` a stamped version.
  ghost predicate Read(s: State, s': State, t: nat, v: Vid) {
    && t in s.txns && s.txns[t].pc == Idle && Stamped(s, v)
    && var x := s.txns[t];
       s' == SetTxn(s, t, x.(rset := x.rset + [v], seen := x.seen + {v}))
  }

  // No access stamps to take, copy or write, and no bitmap to leave.
  ghost predicate Skip(s: State, s': State, t: nat) {
    && t in s.txns
    && match s.txns[t].pc
       case Updating(o, TakeX) => s' == SetPc(s, t, Updating(o, MarkS))
       case Stamping(j, WriteX) => j < |s.txns[t].wset| && s' == SetPc(s, t, Stamping(j, WriteC))
       case Post(_, _) => s' == SetPc(s, t, Done)
       case UndoReads(_) => s' == SetPc(s, t, UndoWrites(0, false))
       case _ => false
  }

  ghost predicate StartCheck(s: State, s': State, t: nat) {
    && t in s.txns && s.txns[t].pc == Certify(InitS)
    && s' == SetTxn(s, t, s.txns[t].(pc := Certify(Load(0))))
  }

  // The overwriter has stamped the version: a back edge exactly when its stamp is smaller.
  ghost predicate LoadStamped(s: State, s': State, t: nat) {
    && t in s.txns && s.txns[t].pc.Certify? && s.txns[t].pc.c.Load?
    && var x := s.txns[t]; var i := x.pc.c.i;
       && i < |x.rset| && Has(s, x.rset[i])
       && var sc := At(s, x.rset[i]).sstamp;
          && sc.Lsn? && sc.n >= x.cs
          && s' == SetPc(s, t, Certify(Load(i + 1)))
  }

  ghost predicate ReadsDone(s: State, s': State, t: nat) {
    && t in s.txns && s.txns[t].pc == Certify(Load(|s.txns[t].rset|))
    && s' == SetPc(s, t, Certify(Final))
  }

  ghost predicate Touching(s: State, s': State, t: nat) {
    || (exists o :: Insert(s, s', t, o)) || (exists o :: Install(s, s', t, o))
    || MarkSuccessor(s, s', t) || StampSuccessor(s, s', t) || StampClsn(s, s', t)
    || UndoSuccessor(s, s', t) || Unlink(s, s', t)
  }

  // Steps that store in the actor's context only and leave the read check alone.
  ghost predicate Quiet(s: State, s': State, t: nat) {
    || AddToWriteSet(s, s', t) || EnterCommit(s, s', t) || Publish(s, s', t) || SetCommitted(s, s', t)
    || StartAbort(s, s', t) || EndAbort(s, s', t) || Free(s, s', t) || Skip(s, s', t)
  }

  ghost predicate Step(s: State, s': State, t: nat) {
    || BeginTxn(s, s', t) || (exists v :: Read(s, s', t, v)) || (exists n :: Draw(s, s', t, n))
    || Touching(s, s', t) || Quiet(s, s', t)
    || StartCheck(s, s', t) || Probe(s, s', t) || LoadStamped(s, s', t) || ReadsDone(s, s', t) || Decide(s, s', t)
  }

  ghost predicate Next(s: State, s': State) {
    exists t :: Step(s, s', t)
  }

  ghost predicate Run(r: seq<State>) {
    |r| > 0 && Init(r[0]) && !r[0].setup.ssn && forall k :: 0 < k < |r| ==> Next(r[k - 1], r[k])
  }

  // ----- the invariant -----

  // Reads are listed, of stamped versions, created before the reader drew its stamp.
  ghost predicate ReadsInv(s: State, t: nat)
    requires t in s.txns
  {
    var x := s.txns[t];
    && (forall v :: v in x.seen ==> v in x.rset)
    && (forall v :: v in x.rset ==> Stamped(s, v) && (x.cs > 0 ==> Born(s, v) < x.cs))
  }

  ghost predicate Validated(s: State, t: nat, n: nat)
    requires t in s.txns
  {
    n <= |s.txns[t].rset| && forall k :: 0 <= k < n ==> Safe(s, t, s.txns[t].rset[k])
  }

  // How many reads have passed validation.
  ghost function Checked(x: Txn): nat {
    if x.decided || x.pc == Certify(Final) then |x.rset|
    else if x.pc.Certify? && IsProbe(x.pc.c) then x.pc.c.i
    else 0
  }

  ghost predicate PointInv(s: State, t: nat)
    requires t in s.txns
  {
    var x := s.txns[t];
    x.pc.Certify? ==> (x.pc.c == InitS || x.pc.c == Final || IsProbe(x.pc.c)) && ProbeInv(s, t, x.pc.c)
  }

  ghost predicate TxnMvocc(s: State, t: nat)
    requires t in s.txns
  {
    ReadsInv(s, t) && Validated(s, t, Checked(s.txns[t])) && PointInv(s, t)
  }

  ghost predicate Inv(s: State) {
    !s.setup.ssn && Base(s) && forall t :: t in s.txns ==> TxnMvocc(s, t)
  }

  // ----- what any step leaves alone -----

  lemma ReadsCarry(s: State, s': State, a: nat, t: nat)
    requires Evolve(s, s', a) && Base(s) && t in s.txns && ReadsInv(s, t) && t in s'.txns
    requires var x, x' := s.txns[t], s'.txns[t]; x'.rset == x.rset && x'.seen == x.seen && x'.cs == x.cs
    ensures ReadsInv(s', t)
  {
    hide Evolve, Base, Born;
    forall v | v in s'.txns[t].rset ensures Stamped(s', v) && Born(s', v) == Born(s, v) {
      assert Stamped(s, v);
      BornKept(s, s', a, v);
    }
  }

  lemma ValidatedCarry(s: State, s': State, a: nat, t: nat, n: nat)
    requires Evolve(s, s', a) && t in s.txns && ReadsInv(s, t) && Validated(s, t, n)
    requires s'.txns[t].rset == s.txns[t].rset && (n > 0 ==> 0 < s.txns[t].cs <= s.clock)
    ensures Validated(s', t, n)
  {
    forall k | 0 <= k < n ensures Safe(s', t, s'.txns[t].rset[k]) {
      OnlyStable(s, s', a, t, s.txns[t].rset[k], 0);
    }
  }

  lemma CheckedStamp(s: State, t: nat)
    requires Base(s) && t in s.txns && Checked(s.txns[t]) > 0
    ensures 0 < s.txns[t].cs <= s.clock
  {
    hide VerInv, OwnInv, Distinct;
    assert TxnInv(s.txns[t], s.clock);
  }

  lemma OthersKeep(s: State, s': State, a: nat, t: nat)
    requires Base(s) && Evolve(s, s', a) && t in s.txns && a != t && TxnMvocc(s, t)
    ensures TxnMvocc(s', t)
  {
    hide VerInv, OwnInv, Distinct, Keeps, Wrote, HeadKept, Safe, Only, Danger;
    var x := s.txns[t];
    assert TxnInv(x, s.clock);
    if Checked(x) > 0 { CheckedStamp(s, t); }
    ReadsCarry(s, s', a, t);
    ValidatedCarry(s, s', a, t, Checked(x));
    hide Evolve, TxnInv;
    if x.pc.Certify? {
      StampOf(s, t);
      ReadsAreStamped(s, t);
      SameTxn(s, s', a, t);
      ProbeStable(s, s', a, t, x.pc.c);
    } else {
      SameTxn(s, s', a, t);
    }
  }

  lemma SameTxn(s: State, s': State, a: nat, t: nat)
    requires Evolve(s, s', a) && t in s.txns && a != t
    ensures t in s'.txns && s'.txns[t] == s.txns[t]
  {
  }

  lemma StampOf(s: State, t: nat)
    requires Base(s) && t in s.txns && s.txns[t].pc.Certify?
    ensures 0 < s.txns[t].cs <= s.clock && !s.txns[t].decided
  {
    assert TxnInv(s.txns[t], s.clock);
  }

  lemma ReadsAreStamped(s: State, t: nat)
    requires t in s.txns && ReadsInv(s, t)
    ensures ReadsStamped(s, t)
  {
  }

  // ----- the actor -----

  ghost predicate Plain(x: Txn, x': Txn) {
    && x'.rset == x.rset && x'.seen == x.seen && x'.cs == x.cs && x'.decided == x.decided
    && (x'.pc.Certify? ==> x'.pc.c == InitS)
  }

  // A step that does not touch the read check.
  lemma PlainOwn(s: State, s': State, t: nat)
    requires Base(s) && Evolve(s, s', t) && t in s.txns && TxnMvocc(s, t) && TxnInv(s'.txns[t], s'.clock)
    requires Plain(s.txns[t], s'.txns[t])
    ensures TxnMvocc(s', t)
  {
    hide VerInv, OwnInv, Distinct, Keeps, Wrote, HeadKept, Safe, Only, Danger, TxnInv;
    var x, x' := s.txns[t], s'.txns[t];
    ReadsCarry(s, s', t, t);
    if x.decided {
      if Checked(x) > 0 { CheckedStamp(s, t); }
      ValidatedCarry(s, s', t, t, |x.rset|);
    }
  }

  lemma ReadOwn(s: State, s': State, t: nat, v: Vid)
    requires Base(s) && Read(s, s', t, v) && TxnMvocc(s, t)
    ensures TxnMvocc(s', t)
  {
    hide VerInv, OwnInv, Distinct, Safe, Only, Danger;
    assert TxnInv(s.txns[t], s.clock);
  }

  // Everything read so far was created before this draw.
  lemma DrawOwn(s: State, s': State, t: nat, n: nat)
    requires Base(s) && Draw(s, s', t, n) && TxnMvocc(s, t)
    ensures TxnMvocc(s', t)
  {
    hide Distinct, OwnInv, SuccessorInv;
    assert TxnInv(s.txns[t], s.clock);
    forall v | v in s'.txns[t].rset ensures Stamped(s', v) && Born(s', v) < n {
      assert VerInv(s, v.o, v.i);
      assert TxnInv(s.txns[At(s, v).writer], s.clock);
    }
  }

  lemma StartCheckOwn(s: State, s': State, t: nat)
    requires Base(s) && Evolve(s, s', t) && StartCheck(s, s', t) && TxnMvocc(s, t)
    ensures TxnMvocc(s', t)
  {
    hide VerInv, OwnInv, Distinct, Evolve, Safe, Only, Danger;
    assert TxnInv(s.txns[t], s.clock);
    ReadsCarry(s, s', t, t);
  }

  // One more read is validated, or none.
  lemma CheckOwn(s: State, s': State, t: nat)
    requires Base(s) && Evolve(s, s', t) && t in s.txns && TxnMvocc(s, t) && t in s'.txns
    requires s.txns[t].pc.Certify? && s'.txns[t].pc.Certify? && s'.txns[t] == s.txns[t].(pc := s'.txns[t].pc)
    requires IsProbe(s.txns[t].pc.c) && (IsProbe(s'.txns[t].pc.c) || s'.txns[t].pc.c == Final)
    requires ProbeInv(s', t, s'.txns[t].pc.c)
    requires var i := s.txns[t].pc.c.i;
             var n := Checked(s'.txns[t]);
             n == i || (n == i + 1 && i < |s.txns[t].rset| && Safe(s', t, s.txns[t].rset[i]))
    ensures TxnMvocc(s', t)
  {
    hide Base, Evolve, Safe, Only, Danger, ReadsInv;
    StampOf(s, t);
    ReadsCarry(s, s', t, t);
    ValidatedCarry(s, s', t, t, s.txns[t].pc.c.i);
  }

  lemma ProbeOwn(s: State, s': State, t: nat)
    requires Base(s) && Evolve(s, s', t) && Probe(s, s', t) && TxnMvocc(s, t)
    ensures TxnMvocc(s', t)
  {
    hide Base, Evolve, Probe, Safe, Only, Danger;
    ProbeShape(s, s', t);
    ReadsAreStamped(s, t);
    StampOf(s, t);
    ProbeAdvances(s, s', t);
    ProbeKeepsIndex(s, s', t);
    CheckOwn(s, s', t);
  }

  // A probe that does not finish read `i` stays at it.
  lemma ProbeKeepsIndex(s: State, s': State, t: nat)
    requires Probe(s, s', t)
    ensures t in s'.txns && s'.txns[t].pc.Certify? && IsProbe(s.txns[t].pc.c) && IsProbe(s'.txns[t].pc.c)
    ensures !s'.txns[t].pc.c.Load? ==> s'.txns[t].pc.c.i == s.txns[t].pc.c.i
  {
    hide Probe;
    ProbeShape(s, s', t);
  }

  // A decided overwriter left a stamp not above its commit stamp, so one not below ours is no danger.
  lemma LoadStampedOwn(s: State, s': State, t: nat)
    requires Inv(s) && Evolve(s, s', t) && LoadStamped(s, s', t)
    ensures TxnMvocc(s', t)
  {
    hide VerInv, OwnInv, Distinct, Evolve;
    var x := s.txns[t];
    var v := x.rset[x.pc.c.i];
    assert TxnMvocc(s, t);
    StampOf(s, t);
    LoadedStamp(s, t, v);
    forall w ensures !Danger(s, t, v, w) { }
    assert Safe(s, t, v);
    CheckOwn(s, s', t);
  }

  lemma ReadsDoneOwn(s: State, s': State, t: nat)
    requires Base(s) && Evolve(s, s', t) && ReadsDone(s, s', t) && TxnMvocc(s, t)
    ensures TxnMvocc(s', t)
  {
    hide Base, Evolve, Safe, Only, Danger;
    StampOf(s, t);
    CheckOwn(s, s', t);
  }

  lemma DecideOwn(s: State, s': State, t: nat)
    requires Base(s) && Evolve(s, s', t) && Decide(s, s', t) && TxnMvocc(s, t)
    ensures TxnMvocc(s', t)
  {
    hide Base, Evolve, Safe, Only, Danger;
    StampOf(s, t);
    ReadsCarry(s, s', t, t);
    ValidatedCarry(s, s', t, t, |s.txns[t].rset|);
  }

  // ----- engine obligations -----

  lemma QuietStores(s: State, s': State, t: nat)
    requires Quiet(s, s', t) && TxnInv(s.txns[t], s.clock)
    ensures Stores(s, s', t)
  {
    if Skip(s, s', t) {
      SkipStores(s, s', t);
    } else {
      hide TxnInv, Skip;
      if AddToWriteSet(s, s', t) || EnterCommit(s, s', t) || Publish(s, s', t) {
        CommitStepStores(s, s', t);
      } else {
        EndStepStores(s, s', t);
      }
    }
  }

  lemma SkipStores(s: State, s': State, t: nat)
    requires Skip(s, s', t) && TxnInv(s.txns[t], s.clock)
    ensures Stores(s, s', t)
  {
    assert s.txns[t].wset[0..] == s.txns[t].wset;
  }

  lemma QuietShape(s: State, s': State, t: nat)
    requires Quiet(s, s', t)
    ensures t in s.txns && t in s'.txns && Plain(s.txns[t], s'.txns[t])
  {
    hide Skip, SetCommitted, StartAbort, EndAbort, Free, AddToWriteSet, EnterCommit, Publish;
    if Skip(s, s', t) {
      SkipShape(s, s', t);
    } else if SetCommitted(s, s', t) || StartAbort(s, s', t) || EndAbort(s, s', t) || Free(s, s', t) {
      EndShape(s, s', t);
    } else {
      EnterShape(s, s', t);
    }
  }

  lemma EnterShape(s: State, s': State, t: nat)
    requires AddToWriteSet(s, s', t) || EnterCommit(s, s', t) || Publish(s, s', t)
    ensures t in s.txns && t in s'.txns && Plain(s.txns[t], s'.txns[t])
  {
  }

  lemma EndShape(s: State, s': State, t: nat)
    requires SetCommitted(s, s', t) || StartAbort(s, s', t) || EndAbort(s, s', t) || Free(s, s', t)
    ensures t in s.txns && t in s'.txns && Plain(s.txns[t], s'.txns[t])
  {
  }

  lemma SkipShape(s: State, s': State, t: nat)
    requires Skip(s, s', t)
    ensures t in s.txns && t in s'.txns && s'.txns[t] == s.txns[t].(pc := s'.txns[t].pc) && !s'.txns[t].pc.Certify?
  {
  }

  lemma TouchingShape(s: State, s': State, t: nat)
    requires Touching(s, s', t)
    ensures t in s.txns && t in s'.txns
    ensures Plain(s.txns[t], s'.txns[t])
  {
    hide Insert, Install, MarkSuccessor, StampSuccessor, StampClsn, UndoSuccessor, Unlink, Plain;
    if o :| Insert(s, s', t, o) || Install(s, s', t, o) {
      LinkShape(s, s', t, o);
    } else if StampSuccessor(s, s', t) || UndoSuccessor(s, s', t) {
      SuccessorShape(s, s', t);
    } else {
      HeadShape(s, s', t);
    }
  }

  lemma LinkShape(s: State, s': State, t: nat, o: nat)
    requires Insert(s, s', t, o) || Install(s, s', t, o)
    ensures t in s.txns && t in s'.txns && Plain(s.txns[t], s'.txns[t])
  {
  }

  lemma SuccessorShape(s: State, s': State, t: nat)
    requires StampSuccessor(s, s', t) || UndoSuccessor(s, s', t)
    ensures t in s.txns && t in s'.txns && Plain(s.txns[t], s'.txns[t])
  {
  }

  lemma HeadShape(s: State, s': State, t: nat)
    requires MarkSuccessor(s, s', t) || StampClsn(s, s', t) || Unlink(s, s', t)
    ensures t in s.txns && t in s'.txns && Plain(s.txns[t], s'.txns[t])
  {
  }

  lemma TouchingKeeps(s: State, s': State, t: nat)
    requires Touching(s, s', t) && Base(s)
    ensures Base(s') && Evolve(s, s', t)
  {
    hide Base, Evolve, Insert, Install, MarkSuccessor, StampSuccessor, StampClsn, UndoSuccessor, Unlink;
    if o :| Insert(s, s', t, o) {
      InsertKeeps(s, s', t, o);
    } else if o :| Install(s, s', t, o) {
      InstallKeeps(s, s', t, o);
    } else if MarkSuccessor(s, s', t) {
      MarkKeeps(s, s', t);
    } else if StampSuccessor(s, s', t) {
      StampSuccessorKeeps(s, s', t);
    } else if StampClsn(s, s', t) {
      StampClsnKeeps(s, s', t);
    } else if UndoSuccessor(s, s', t) {
      UndoSuccessorKeeps(s, s', t);
    } else {
      UnlinkKeeps(s, s', t);
    }
  }

  lemma CheckStores(s: State, s': State, t: nat)
    requires StartCheck(s, s', t) || LoadStamped(s, s', t) || ReadsDone(s, s', t) || (exists v :: Read(s, s', t, v))
    requires TxnInv(s.txns[t], s.clock)
    ensures Stores(s, s', t)
  {
  }

  // ----- assembling one step -----

  lemma Assemble(s: State, s': State, t: nat)
    requires Inv(s) && Base(s') && Evolve(s, s', t) && TxnMvocc(s', t)
    ensures Inv(s') && Evolve(s, s', t)
  {
    forall u | u in s'.txns && u != t ensures TxnMvocc(s', u) {
      hide Base, TxnMvocc, Keeps, Wrote, HeadKept;
      OthersKeep(s, s', t, u);
    }
  }

  lemma OwnInvariant(s: State, t: nat)
    requires Inv(s) && t in s.txns
    ensures Base(s) && TxnMvocc(s, t) && TxnInv(s.txns[t], s.clock)
  {
  }

  lemma PlainKeeps(s: State, s': State, t: nat)
    requires Inv(s) && (Quiet(s, s', t) || Touching(s, s', t))
    ensures Inv(s') && Evolve(s, s', t)
  {
    hide Inv, Base, Evolve, TxnMvocc, TxnInv, Quiet, Touching;
    if Quiet(s, s', t) {
      QuietShape(s, s', t);
      OwnInvariant(s, t);
      QuietStores(s, s', t);
      StoreKeepsBase(s, s', t, s'.txns[t]);
    } else {
      TouchingShape(s, s', t);
      OwnInvariant(s, t);
      TouchingKeeps(s, s', t);
      OneTxn(s', t);
    }
    PlainOwn(s, s', t);
    Assemble(s, s', t);
  }

  lemma OneTxn(s: State, t: nat)
    requires Base(s) && t in s.txns
    ensures TxnInv(s.txns[t], s.clock)
  {
  }

  lemma CheckKeeps(s: State, s': State, t: nat)
    requires Inv(s) && t in s.txns && (StartCheck(s, s', t) || Probe(s, s', t) || LoadStamped(s, s', t)
               || ReadsDone(s, s', t))
    ensures Inv(s') && Evolve(s, s', t)
  {
    hide Inv, Base, Evolve, TxnMvocc, TxnInv, StartCheck, Probe, LoadStamped, ReadsDone;
    OwnInvariant(s, t);
    if Probe(s, s', t) { ProbeStores(s, s', t); } else { CheckStores(s, s', t); }
    StoreKeepsBase(s, s', t, s'.txns[t]);
    if Probe(s, s', t) {
      ProbeOwn(s, s', t);
    } else if StartCheck(s, s', t) {
      StartCheckOwn(s, s', t);
    } else if LoadStamped(s, s', t) {
      LoadStampedOwn(s, s', t);
    } else {
      ReadsDoneOwn(s, s', t);
    }
    Assemble(s, s', t);
  }

  lemma ReadKeeps(s: State, s': State, t: nat, v: Vid)
    requires Inv(s) && Read(s, s', t, v)
    ensures Inv(s') && Evolve(s, s', t)
  {
    hide Inv, Base, Evolve, TxnMvocc, TxnInv;
    OwnInvariant(s, t);
    CheckStores(s, s', t);
    StoreKeepsBase(s, s', t, s'.txns[t]);
    ReadOwn(s, s', t, v);
    Assemble(s, s', t);
  }

  lemma DrawKeeps(s: State, s': State, t: nat, n: nat)
    requires Inv(s) && Draw(s, s', t, n)
    ensures Inv(s') && Evolve(s, s', t)
  {
    hide Inv, Evolve, TxnMvocc, TxnInv, VerInv, OwnInv;
    OwnInvariant(s, t);
    DrawKeepsBase(s, s', t, n);
    DrawEvolves(s, s', t, n);
    DrawOwn(s, s', t, n);
    Assemble(s, s', t);
  }

  lemma DecideKeeps(s: State, s': State, t: nat)
    requires Inv(s) && Decide(s, s', t)
    ensures Inv(s') && Evolve(s, s', t)
  {
    hide Inv, Evolve, TxnMvocc, TxnInv, VerInv, OwnInv;
    OwnInvariant(s, t);
    DecideKeepsBase(s, s', t);
    DecideEvolves(s, s', t);
    DecideOwn(s, s', t);
    Assemble(s, s', t);
  }

  lemma BeginKeeps(s: State, s': State, t: nat)
    requires Inv(s) && BeginTxn(s, s', t)
    ensures Inv(s') && Evolve(s, s', t)
  {
    hide Evolve, TxnInv, VerInv, OwnInv;
    BeginKeepsBase(s, s', t, 0, s.rlist);
    BeginEvolves(s, s', t, 0, s.rlist);
    assert TxnMvocc(s', t);
    hide Inv, TxnMvocc;
    Assemble(s, s', t);
  }

  lemma StepKeeps(s: State, s': State, t: nat)
    requires Inv(s) && Step(s, s', t)
    ensures Inv(s') && Evolve(s, s', t)
  {
    hide Inv, BeginTxn, Read, Draw, Touching, Quiet, StartCheck, Probe, LoadStamped, ReadsDone, Decide;
    if BeginTxn(s, s', t) {
      BeginKeeps(s, s', t);
    } else if v :| Read(s, s', t, v) {
      ReadKeeps(s, s', t, v);
    } else if n :| Draw(s, s', t, n) {
      DrawKeeps(s, s', t, n);
    } else if Quiet(s, s', t) || Touching(s, s', t) {
      PlainKeeps(s, s', t);
    } else if Decide(s, s', t) {
      DecideKeeps(s, s', t);
    } else {
      CheckActor(s, s', t);
      CheckKeeps(s, s', t);
    }
  }

  lemma CheckActor(s: State, s': State, t: nat)
    requires StartCheck(s, s', t) || Probe(s, s', t) || LoadStamped(s, s', t) || ReadsDone(s, s', t)
    ensures t in s.txns
  {
  }

  /** The invariant holds in every state of every run. */
  lemma {:induction false} RunInvariant(r: seq<State>)
    requires Run(r)
    ensures Inv(r[|r| - 1]) && r[|r| - 1].setup == r[0].setup
  {
    if |r| == 1 {
    } else {
      var k := |r| - 1;
      RunInvariant(r[..k]);
      assert Next(r[k - 1], r[k]);
      hide Inv;
      var t :| Step(r[k - 1], r[k], t);
      StepKeeps(r[k - 1], r[k], t);
    }
  }

  // ----- serializability -----

  lemma CommittedTxn(s: State, t: nat)
    requires Inv(s) && t in s.txns && s.txns[t].state == Cmmtd
    ensures s.txns[t].decided && 0 < s.txns[t].cs && ReadsInv(s, t) && Validated(s, t, |s.txns[t].rset|)
  {
    hide VerInv, OwnInv, Distinct;
    assert TxnMvocc(s, t) && TxnInv(s.txns[t], s.clock);
  }

  /** Every dependency of a committed transaction on another goes from smaller to larger stamp. */
  lemma EdgesGoForward(r: seq<State>, a: nat, b: nat)
    requires Run(r) && Depends(r[|r| - 1], a, b)
    ensures var s := r[|r| - 1]; 0 < s.txns[a].cs < s.txns[b].cs
  {
    var s := r[|r| - 1];
    RunInvariant(r);
    hide Run, Inv;
    CommittedTxn(s, a);
    CommittedTxn(s, b);
    if v :| v in s.txns[b].seen && Wrote(s, a, v.o, v.i) {
      hide Validated;
      ReadLater(s, a, b, v);
    } else if v: Vid :| Wrote(s, a, v.o, v.i) && Overwrites(s, v, b) {
      hide ReadsInv, Validated;
      OverwriteLater(s, a, b, v);
    } else {
      var v :| v in s.txns[a].seen && Overwrites(s, v, b);
      OverwrittenLater(s, a, b, v);
    }
  }

  lemma ReadLater(s: State, a: nat, b: nat, v: Vid)
    requires Inv(s) && a in s.txns && b in s.txns && s.txns[a].state == Cmmtd && 0 < s.txns[a].cs
    requires ReadsInv(s, b) && v in s.txns[b].seen && Wrote(s, a, v.o, v.i) && s.txns[b].cs > 0
    ensures s.txns[a].cs < s.txns[b].cs
  {
    hide OwnInv, Distinct, SuccessorInv, Validated, TxnMvocc;
    CommittedVersion(s, a, v);
  }

  lemma OverwriteLater(s: State, a: nat, b: nat, v: Vid)
    requires Inv(s) && a in s.txns && b in s.txns && s.txns[b].cs > 0
    requires Wrote(s, a, v.o, v.i) && Overwrites(s, v, b)
    ensures s.txns[a].cs < s.txns[b].cs
  {
    hide OwnInv, Distinct, SuccessorInv, ReadsInv, Validated, TxnMvocc, TxnInv;
    assert VerInv(s, v.o, v.i);
  }

  lemma OverwrittenLater(s: State, a: nat, b: nat, v: Vid)
    requires Inv(s) && a in s.txns && b in s.txns && a != b && s.txns[b].state == Cmmtd && 0 < s.txns[b].cs
    requires ReadsInv(s, a) && Validated(s, a, |s.txns[a].rset|) && v in s.txns[a].seen && Overwrites(s, v, b)
    ensures s.txns[a].cs < s.txns[b].cs
  {
    hide VerInv, OwnInv, TxnMvocc, TxnInv;
    var k :| 0 <= k < |s.txns[a].rset| && s.txns[a].rset[k] == v;
    assert !Danger(s, a, v, b);
  }

  /** Serializability: the dependency graph of the committed transactions of any run has no cycle. */
  lemma Serializable(r: seq<State>)
    requires Run(r)
    ensures Acyclic(Deps(r[|r| - 1]))
  {
    var s := r[|r| - 1];
    forall d | d in Deps(s)
      ensures d.0 in CommitStamps(s) && d.1 in CommitStamps(s)
              && CommitStamps(s)[d.0] < CommitStamps(s)[d.1] {
      EdgesGoForward(r, d.0, d.1);
    }
    ForwardIsAcyclic(Deps(s), CommitStamps(s));
  }
}
