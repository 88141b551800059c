/** Every step of a run keeps the watermarks explained. */
module SsnAttainedSteps {
  import opened Stamps
  import opened Engine
  import opened Ssn
  import opened SsnInvariant
  import opened SsnSteps
  import opened SsnAttained

  // ----- what an actor's own step may change -----

  // A point of certification at which nothing is in hand.
  ghost predicate Bare(c: Cert) {
    !OnRead(c) && !OnReader(c) && !c.XidOf? && (c.Scan? ==> c.cur == {})
  }

  // No watermark moves and no read is forgotten.
  ghost predicate Stays(x: Txn, x': Txn) {
    && x'.pstamp == x.pstamp && x'.sstamp == x.sstamp && x'.met == x.met && x'.rset == x.rset
    && x.seen <= x'.seen && (x.marked <= x'.marked || x'.decided)
    && (x.pc.Reading? ==> x.pc.v in x'.seen || (x'.pc.Reading? && x'.pc.v == x.pc.v))
    && (x.pc.Doomed? ==> x'.state == Abrtd) && (x'.pc.Certify? ==> Bare(x'.pc.c))
  }

  ghost predicate Gives(x: Txn, x': Txn) {
    && (x'.state == Abrtd || x'.pc.Doomed?) && x'.sstamp == x.sstamp && x'.met == x.met && x'.rset == x.rset
    && x'.seen == x.seen && !x.pc.Reading? && !x'.pc.Certify? && (x'.pc.Doomed? ==> x'.marked == x.marked)
  }

  // Reader bits are set until the entry is cleared.
  ghost predicate Clears(x: Txn, x': Txn) {
    Cleared(x') <= Cleared(x) || |x.rset| <= Cleared(x)
  }

  // The steps that take in a stamp, or take up or put down what a check has in hand.
  ghost predicate Learns(s: State, s': State, t: nat) {
    || (exists v :: ReadPick(s, s', t, v)) || ReadStamp(s, s', t) || ReadPush(s, s', t) || UpdateTakeX(s, s', t)
    || (exists o :: Rewrite(s, s', t, o)) || (exists n :: MeetInvisible(s, s', t, n))
    || Probe(s, s', t) || InitHigh(s, s', t) || LoadSettled(s, s', t) || CheckSuccessor(s, s', t)
    || WriteCheck(s, s', t)
  }

  ghost predicate Links(s: State, s': State, t: nat) {
    || (exists o :: Insert(s, s', t, o)) || (exists o :: Install(s, s', t, o)) || Unlink(s, s', t)
    || EarlyUnlink(s, s', t)
  }

  ghost predicate Moves(s: State, s': State, t: nat) {
    && t in s.txns && t in s'.txns
    && var x, x' := s.txns[t], s'.txns[t];
       && ((Stays(x, x') && (x.own <= x'.own || StampClsn(s, s', t))) || Gives(x, x')
           || (Learns(s, s', t) && x'.own == x.own && x'.marked == x.marked))
       && (Clears(x, x') || PostClear(s, s', t) || UndoRead(s, s', t))
       && (s'.recs == s.recs || Links(s, s', t) || VersionStep(s, s', t) || StampClsn(s, s', t))
  }

  // A position leaves the table only when its holder gives it up.
  ghost predicate TableKept(s: State, s': State, a: nat) {
    forall q :: q in s.rlist ==> || (q in s'.rlist && s'.rlist[q] == s.rlist[q])
                                 || (Unlist(s, s', a) && q == s.txns[a].slot)
                                 || (a !in s.txns && !s.setup.placed)
  }

  lemma LinkMoves(s: State, s': State, t: nat)
    requires Links(s, s', t) && t in s.txns && TxnInv(s.txns[t], s.clock)
    ensures t in s'.txns && s'.rlist == s.rlist && Clears(s.txns[t], s'.txns[t])
    ensures (Stays(s.txns[t], s'.txns[t]) && s.txns[t].own <= s'.txns[t].own) || Gives(s.txns[t], s'.txns[t])
  {
  }

  lemma BitMoves(s: State, s': State, t: nat)
    requires ReadRegister(s, s', t) || PostSetX(s, s', t) || PostClear(s, s', t) || UndoRead(s, s', t)
    requires t in s.txns && TxnInv(s.txns[t], s.clock)
    ensures t in s'.txns && s'.rlist == s.rlist && Stays(s.txns[t], s'.txns[t]) && s'.txns[t].own == s.txns[t].own
    ensures Clears(s.txns[t], s'.txns[t]) || PostClear(s, s', t) || UndoRead(s, s', t)
  {
  }

  lemma HeadMoves(s: State, s': State, t: nat)
    requires UpdateCopyX(s, s', t) || StampX(s, s', t) || MarkSuccessor(s, s', t)
    requires t in s.txns && TxnInv(s.txns[t], s.clock)
    ensures t in s'.txns && s'.rlist == s.rlist && Clears(s.txns[t], s'.txns[t])
    ensures Stays(s.txns[t], s'.txns[t]) && s'.txns[t].own == s.txns[t].own
  {
  }

  lemma StampMoves(s: State, s': State, t: nat)
    requires StampSuccessor(s, s', t) || StampClsn(s, s', t) || UndoSuccessor(s, s', t)
    requires t in s.txns && TxnInv(s.txns[t], s.clock)
    ensures t in s'.txns && s'.rlist == s.rlist && Clears(s.txns[t], s'.txns[t])
    ensures Gives(s.txns[t], s'.txns[t])
            || (Stays(s.txns[t], s'.txns[t]) && (s'.txns[t].own == s.txns[t].own || StampClsn(s, s', t)))
  {
  }

  // The actor's context alone changes.
  ghost predicate Alone(s: State, s': State, t: nat) {
    && t in s.txns && t in s'.txns && s'.rlist == s.rlist && s'.recs == s.recs
    && Stays(s.txns[t], s'.txns[t]) && s'.txns[t].own == s.txns[t].own && Clears(s.txns[t], s'.txns[t])
  }

  lemma CommitMoves(s: State, s': State, t: nat)
    requires AddToWriteSet(s, s', t) || EnterCommit(s, s', t) || Publish(s, s', t) || SetCommitted(s, s', t)
    ensures Alone(s, s', t)
  {
  }

  lemma CheckMoves(s: State, s': State, t: nat)
    requires (exists n :: Draw(s, s', t, n)) || PassExclusion(s, s', t) || ReadsDone(s, s', t) || WritesDone(s, s', t)
    ensures Alone(s, s', t)
  {
  }

  lemma EndMoves(s: State, s': State, t: nat)
    requires StartAbort(s, s', t) || EndAbort(s, s', t) || FreeUnlisted(s, s', t) || ReadsUndone(s, s', t)
    ensures Alone(s, s', t)
  {
  }

  lemma WaitMoves(s: State, s': State, t: nat)
    requires PostWait(s, s', t)
    ensures Alone(s, s', t)
  {
  }

  lemma UnlistMoves(s: State, s': State, t: nat)
    requires Unlist(s, s', t)
    ensures Moves(s, s', t) && TableMoves(s, s', t) && TableKept(s, s', t)
  {
  }

  // The actor's context alone changes, and not what it owns.
  ghost predicate Keeping(s: State, s': State, t: nat) {
    && t in s.txns && t in s'.txns && s'.rlist == s.rlist && s'.recs == s.recs
    && s'.txns[t].own == s.txns[t].own && s'.txns[t].marked == s.txns[t].marked && Clears(s.txns[t], s'.txns[t])
  }

  lemma ReadMoves(s: State, s': State, t: nat)
    requires (exists v :: ReadPick(s, s', t, v)) || ReadStamp(s, s', t) || ReadPush(s, s', t)
    ensures Keeping(s, s', t)
  {
  }

  lemma TakeMoves(s: State, s': State, t: nat)
    requires UpdateTakeX(s, s', t) || (exists o :: Rewrite(s, s', t, o)) || (exists n :: MeetInvisible(s, s', t, n))
             || InitHigh(s, s', t) || LoadSettled(s, s', t)
    ensures Keeping(s, s', t)
  {
  }

  lemma LearnMoves(s: State, s': State, t: nat)
    requires Learns(s, s', t)
    ensures Keeping(s, s', t)
  {
    hide Probe, CheckSuccessor, WriteCheck, ReadPick, ReadStamp, ReadPush, UpdateTakeX, Rewrite, MeetInvisible,
         InitHigh, LoadSettled;
    if Probe(s, s', t) {
      ProbeShape(s, s', t);
    } else if CheckSuccessor(s, s', t) {
      SuccessorContext(s, s', t);
    } else if WriteCheck(s, s', t) {
      ScanMovesOnly(s, s', t);
    } else if (exists v :: ReadPick(s, s', t, v)) || ReadStamp(s, s', t) || ReadPush(s, s', t) {
      ReadMoves(s, s', t);
    } else {
      TakeMoves(s, s', t);
    }
  }

  // The write check stores nothing but its program point and its low watermark.
  ghost predicate ScanOnly(s: State, s': State, t: nat) {
    && t in s.txns && t in s'.txns && s.txns[t].pc.Certify? && s'.txns[t].pc.Certify?
    && s' == SetTxn(s, t, s.txns[t].(pc := s'.txns[t].pc, pstamp := s'.txns[t].pstamp))
  }

  lemma ScanMovesOnly(s: State, s': State, t: nat)
    requires WriteCheck(s, s', t)
    ensures ScanOnly(s, s', t)
  {
    hide VerifyReader, LoadContext;
    if VerifyReader(s, s', t) {
      VerifyMoves(s, s', t);
    } else if LoadContext(s, s', t) {
      ContextMovesOnly(s, s', t);
    }
  }

  lemma ContextMovesOnly(s: State, s': State, t: nat)
    requires LoadContext(s, s', t)
    ensures ScanOnly(s, s', t)
  {
  }

  lemma StepMoves(s: State, s': State, t: nat)
    requires Step(s, s', t) && t in s.txns && TxnInv(s.txns[t], s.clock)
    ensures Moves(s, s', t) && TableMoves(s, s', t) && TableKept(s, s', t)
  {
    hide TxnInv, Shared, AddToWriteSet, EnterCommit, Publish, SetCommitted, StartAbort, EndAbort, FreeUnlisted, Probe,
         Insert, Install, EarlyUnlink, Rewrite, MeetInvisible, ReadPick, ReadStamp, ReadPush, ReadRegister,
         UpdateTakeX, UpdateCopyX, MarkSuccessor, Draw, InitHigh, LoadSettled, ReadsDone, CheckSuccessor, WritesDone,
         SkipInsert, LoadWord, TakeBit, LoadReader, LoadContext, VerifyReader, LoadAccess, PassExclusion,
         StampSuccessor, StampX, StampClsn, PostWait, PostSetX, PostClear, UndoRead, ReadsUndone, UndoSuccessor, Unlink,
         Unlist, Stays, Gives, Clears;
    if Learns(s, s', t) {
      LearnMoves(s, s', t);
    } else if Links(s, s', t) {
      LinkMoves(s, s', t);
    } else if ReadRegister(s, s', t) || PostSetX(s, s', t) || PostClear(s, s', t) || UndoRead(s, s', t) {
      BitMoves(s, s', t);
    } else if UpdateCopyX(s, s', t) || StampX(s, s', t) || MarkSuccessor(s, s', t) {
      HeadMoves(s, s', t);
    } else if StampSuccessor(s, s', t) || StampClsn(s, s', t) || UndoSuccessor(s, s', t) {
      StampMoves(s, s', t);
    } else if Unlist(s, s', t) {
      UnlistMoves(s, s', t);
    } else {
      RestMoves(s, s', t);
    }
  }

  ghost predicate RestStep(s: State, s': State, t: nat) {
    || (exists n :: Draw(s, s', t, n)) || PassExclusion(s, s', t) || ReadsDone(s, s', t) || WritesDone(s, s', t)
    || (Shared(s, s', t) && !Probe(s, s', t)) || PostWait(s, s', t) || ReadsUndone(s, s', t)
  }

  lemma RestMoves(s: State, s': State, t: nat)
    requires RestStep(s, s', t)
    ensures Alone(s, s', t)
  {
    hide AddToWriteSet, EnterCommit, Publish, SetCommitted, StartAbort, EndAbort, FreeUnlisted, Probe, Draw, ReadsDone,
         WritesDone, PassExclusion, PostWait, ReadsUndone, Alone;
    if StartAbort(s, s', t) || EndAbort(s, s', t) || FreeUnlisted(s, s', t) || ReadsUndone(s, s', t) {
      EndMoves(s, s', t);
    } else if PostWait(s, s', t) {
      WaitMoves(s, s', t);
    } else if AddToWriteSet(s, s', t) || EnterCommit(s, s', t) || Publish(s, s', t) || SetCommitted(s, s', t) {
      CommitMoves(s, s', t);
    } else {
      CheckMoves(s, s', t);
    }
  }

  lemma BeginMoves(s: State, s': State, t: nat)
    requires Step(s, s', t) && t !in s.txns
    ensures exists q :: BeginTxn(s, s', t, q)
  {
    hide BeginTxn, SetVer;
  }

  lemma MarksMove(s: State, s': State, t: nat)
    requires Moves(s, s', t) && Base(s) && Base(s')
    ensures forall o :: MarkKept(s.txns[t], s'.txns[t], o)
  {
    hide Learns, VersionStep, Links, PostClear, UndoRead, Base;
    MarksAreOwn(s, t);
    MarksAreOwn(s', t);
    if StampClsn(s, s', t) { StampClsnMarks(s, s', t); }
  }

  lemma StampClsnMarks(s: State, s': State, t: nat)
    requires StampClsn(s, s', t)
    ensures s'.txns[t].marked == s.txns[t].marked
  {
  }

  // ----- the actor's own facts, when it takes in no stamp -----

  lemma OverwritesKept(s: State, s': State, t: nat, v: Vid)
    requires Evolve(s, s', t) && Base(s) && Base(s') && Overwrites(s, v, t) && t in s.txns && t in s'.txns
    requires s.txns[t].own <= s'.txns[t].own
    ensures Overwrites(s', v, t)
  {
    hide Evolve, OwnInv, Distinct, TxnInv, SuccessorInv;
    OverwrittenIsStamped(s, v, t);
    var w := Vid(v.o, v.i + 1);
    assert VerInv(s, w.o, w.i);
    hide Base;
    if Stamped(s, w) {
      StampedStays(s, s', t, w);
    } else {
      MarksAreOwn(s', t);
      OwnerOverwrites(s, s', t, v);
    }
  }

  lemma StampedStays(s: State, s': State, a: nat, v: Vid)
    requires Evolve(s, s', a) && Stamped(s, v)
    ensures Stamped(s', v) && At(s', v).writer == At(s, v).writer
  {
    assert Keeps(s, s', a, v.o, v.i);
  }

  lemma OverwritesMoves(s: State, s': State, t: nat)
    requires Evolve(s, s', t) && Base(s) && Base(s') && t in s.txns && t in s'.txns
    requires s.txns[t].own <= s'.txns[t].own || StampClsn(s, s', t)
    ensures forall v :: Overwrites(s, v, t) ==> Overwrites(s', v, t)
  {
    if s.txns[t].own <= s'.txns[t].own {
      forall v | Overwrites(s, v, t) ensures Overwrites(s', v, t) { OverwritesKept(s, s', t, v); }
    } else {
      StampClsnMoves(s, s', t);
    }
  }

  lemma KnowsMoves(x: Txn, x': Txn)
    requires x.seen <= x'.seen && x.rset <= x'.rset
    requires x.pc.Reading? ==> x.pc.v in x'.seen || (x'.pc.Reading? && x'.pc.v == x.pc.v)
    ensures forall v :: Knows(x, v) ==> Knows(x', v)
  {
  }

  // All but the access stamps of one's own versions.
  ghost predicate OwnFrom(s: State, t: nat)
    requires t in s.txns
  {
    LowInv(s, t) && HighInv(s, t) && MetInv(s, t) && TrackInv(s.txns[t]) && HandInv(s, t)
  }

  lemma BareHand(s: State, t: nat)
    requires t in s.txns && (s.txns[t].pc.Certify? ==> Bare(s.txns[t].pc.c))
    ensures HandInv(s, t)
  {
  }

  lemma StaysFrom(s: State, s': State, t: nat)
    requires Evolve(s, s', t) && Base(s) && Base(s') && s.setup.clean && t in s.txns && t in s'.txns && OwnFrom(s, t)
    requires Stays(s.txns[t], s'.txns[t]) && (s.txns[t].own <= s'.txns[t].own || StampClsn(s, s', t))
    ensures OwnFrom(s', t)
  {
    hide LowFrom, HighFrom, MetInv, HandInv, Base, Bare, StampClsn, Keeps, Wrote, HeadKept;
    OverwritesMoves(s, s', t);
    assert Grows(s.txns[t], s'.txns[t], s.clock);
    hide Evolve;
    KnowsMoves(s.txns[t], s'.txns[t]);
    HighCarry(s, s', t, t, s.txns[t].sstamp);
    MetCarry(s, s', t, t);
    BareHand(s', t);
    hide Overwrites, Knows;
    if s'.txns[t].state != Abrtd && s'.txns[t].pc != Doomed { LowCarry(s, s', t, t, s.txns[t].pstamp); }
  }

  lemma GivesFrom(s: State, s': State, t: nat)
    requires Evolve(s, s', t) && Base(s) && Base(s') && s.setup.clean && t in s.txns && t in s'.txns && OwnFrom(s, t)
    requires Gives(s.txns[t], s'.txns[t])
    ensures OwnFrom(s', t)
  {
    hide LowFrom, HighFrom, MetInv, Base, Evolve;
    HighCarry(s, s', t, t, s.txns[t].sstamp);
    MetCarry(s, s', t, t);
  }

  // ----- steps that take in a stamp -----

  // The same records, the actor's context changed.
  ghost predicate Context(s: State, s': State, t: nat) {
    && Evolve(s, s', t) && Base(s) && Base(s') && s.setup.clean && t in s.txns && t in s'.txns
    && s'.recs == s.recs && s'.txns[t].own == s.txns[t].own && OwnFrom(s, t)
  }

  lemma LowRemains(s: State, s': State, t: nat, p: nat)
    requires Context(s, s', t) && LowFrom(s, t, p)
    requires var x, x' := s.txns[t], s'.txns[t];
             x.pc.Reading? ==> x.pc.v in x'.seen || (x'.pc.Reading? && x'.pc.v == x.pc.v)
    ensures LowFrom(s', t, p)
  {
    hide LowFrom, OwnFrom, Base, Keeps, Wrote, HeadKept;
    OverwritesMoves(s, s', t);
    assert Grows(s.txns[t], s'.txns[t], s.clock);
    hide Evolve;
    KnowsMoves(s.txns[t], s'.txns[t]);
    LowCarry(s, s', t, t, p);
  }

  // The access stamp of the version under one's own head.
  lemma TakesAccess(s: State, s': State, t: nat, o: nat, n: nat)
    requires Context(s, s', t) && o in s.txns[t].own && o in s.recs && |s.recs[o]| > 1 && !s.txns[t].decided
    requires Accessed(s, Vid(o, |s.recs[o]| - 2), n)
    ensures LowFrom(s', t, n)
  {
    hide OwnFrom, Base, Evolve, Access, Accessed;
    var v := Vid(o, |s.recs[o]| - 2);
    HeadIsOwn(s, t, o);
    AccessOthers(s, v, t, n);
    OverwroteCarry(s, s', t, t, v, n);
  }

  lemma HeadIsOwn(s: State, t: nat, o: nat)
    requires Base(s) && t in s.txns && o in s.txns[t].own
    ensures o in s.recs && |s.recs[o]| > 0 && s.recs[o][|s.recs[o]| - 1].writer == t
    ensures s.recs[o][|s.recs[o]| - 1].clsn == Xid(t)
  {
    hide Distinct, TxnInv, SuccessorInv;
    assert OwnInv(s, t);
    assert VerInv(s, o, |s.recs[o]| - 1);
  }

  lemma ReadPickFrom(s: State, s': State, t: nat, v: Vid)
    requires ReadPick(s, s', t, v) && Context(s, s', t)
    ensures OwnFrom(s', t)
  {
    hide LowFrom, HighFrom, MetInv, Base, Evolve;
    LowPoint(s, t);
    LowRemains(s, s', t, s.txns[t].pstamp);
    HighCarry(s, s', t, t, s.txns[t].sstamp);
    MetCarry(s, s', t, t);
    PicksFrom(s', t, v);
  }

  lemma PicksFrom(s: State, t: nat, v: Vid)
    requires t in s.txns && Knows(s.txns[t], v) && Stamped(s, v)
    ensures LowFrom(s, t, At(s, v).clsn.n)
  {
    assert Takes(s, s.txns[t], v, At(s, v).clsn.n);
  }

  // An active transaction between operations has an explained low watermark.
  lemma LowPoint(s: State, t: nat)
    requires Base(s) && t in s.txns && LowInv(s, t)
    requires var pc := s.txns[t].pc; pc.Idle? || pc.Reading? || pc.Updating? || pc.Certify?
    ensures LowFrom(s, t, s.txns[t].pstamp) && !s.txns[t].decided && s.txns[t].state != Abrtd
  {
    hide LowFrom, VerInv, OwnInv, Distinct;
    OwnTxn(s, t);
  }

  lemma ReadPushFrom(s: State, s': State, t: nat)
    requires ReadPush(s, s', t) && Context(s, s', t)
    ensures OwnFrom(s', t)
  {
    hide LowFrom, HighFrom, MetInv, Base, Evolve;
    LowPoint(s, t);
    LowRemains(s, s', t, s.txns[t].pstamp);
    HighCarry(s, s', t, t, s.txns[t].sstamp);
    MetCarry(s, s', t, t);
  }

  // A stamp found in a version was left by another transaction, which has been certified.
  lemma FoundStamp(s: State, t: nat, v: Vid)
    requires Base(s) && s.setup.clean && s.setup.ssn && t in s.txns && !s.txns[t].decided
    requires Stamped(s, v) && At(s, v).sstamp.Lsn?
    requires forall u :: u in s.txns ==> BoundInv(s.txns[u], s.clock)
    ensures Left(s, t, v, At(s, v).sstamp.n) && At(s, v).sstamp.n > 0
  {
    hide Base, BoundInv;
    LoadedStamp(s, t, v);
    var w := s.recs[v.o][v.i + 1].writer;
    LowBound(s, w);
  }

  lemma LowBound(s: State, w: nat)
    requires w in s.txns && s.txns[w].decided
    requires forall u :: u in s.txns ==> BoundInv(s.txns[u], s.clock)
    ensures s.txns[w].sstamp > 0
  {
    assert BoundInv(s.txns[w], s.clock);
  }

  lemma LeftSame(s: State, s': State, t: nat, v: Vid, q: nat)
    requires Left(s, t, v, q) && s'.recs == s.recs && t in s'.txns && v in s'.txns[t].seen
    ensures HighFrom(s', t, q)
  {
    assert Left(s', t, v, q);
  }

  lemma ReadStampFrom(s: State, s': State, t: nat)
    requires ReadStamp(s, s', t) && Context(s, s', t) && s.setup.ssn && KnownInv(s, t)
    requires forall u :: u in s.txns ==> BoundInv(s.txns[u], s.clock)
    ensures OwnFrom(s', t)
  {
    hide LowFrom, HighFrom, MetInv, Base, Evolve, Left, BoundInv;
    var v := s.txns[t].pc.v;
    assert Knows(s.txns[t], v);
    LowPoint(s, t);
    LowRemains(s, s', t, s.txns[t].pstamp);
    HighCarry(s, s', t, t, s.txns[t].sstamp);
    if At(s, v).sstamp.Lsn? {
      FoundStamp(s, t, v);
      LeftSame(s, s', t, v, At(s, v).sstamp.n);
    }
    MetCarry(s, s', t, t);
  }

  lemma TakeXFrom(s: State, s': State, t: nat)
    requires UpdateTakeX(s, s', t) && Context(s, s', t) && AccessFrom(s)
    ensures OwnFrom(s', t)
  {
    hide LowFrom, HighFrom, MetInv, Base, Evolve, Accessed;
    var o := s.txns[t].pc.o;
    LowPoint(s, t);
    LowRemains(s, s', t, s.txns[t].pstamp);
    HighCarry(s, s', t, t, s.txns[t].sstamp);
    MetCarry(s, s', t, t);
    BelowIsStamped(s, o);
    UpdatesOwn(s, t);
    TakesAccess(s, s', t, o, s.recs[o][|s.recs[o]| - 2].xstamp);
  }

  lemma UpdatesOwn(s: State, t: nat)
    requires Base(s) && t in s.txns
    ensures s.txns[t].pc.Updating? ==> s.txns[t].pc.o in s.txns[t].own
    ensures s.txns[t].pc.Idle? || s.txns[t].pc.Certify? ==> forall o :: o in s.txns[t].wset ==> o in s.txns[t].own
    ensures s.txns[t].pc.Idle? ==> s.txns[t].state == Active
  {
    hide VerInv, OwnInv, Distinct;
    OwnTxn(s, t);
  }

  lemma RewriteFrom(s: State, s': State, t: nat, o: nat)
    requires Rewrite(s, s', t, o) && Context(s, s', t) && CopyInv(s, t)
    ensures OwnFrom(s', t)
  {
    hide LowFrom, HighFrom, MetInv, Base, Evolve, Accessed;
    LowPoint(s, t);
    LowRemains(s, s', t, s.txns[t].pstamp);
    HighCarry(s, s', t, t, s.txns[t].sstamp);
    MetCarry(s, s', t, t);
    UpdatesOwn(s, t);
    var c := s.recs[o];
    assert CopyFrom(s, o);
    if c[|c| - 1].xstamp > 0 { TakesAccess(s, s', t, o, c[|c| - 1].xstamp); }
  }

  lemma MeetFrom(s: State, s': State, t: nat, n: nat)
    requires MeetInvisible(s, s', t, n) && Context(s, s', t)
    ensures OwnFrom(s', t)
  {
    hide LowFrom, HighFrom, Base, Evolve, IsStamp;
    LowPoint(s, t);
    LowRemains(s, s', t, s.txns[t].pstamp);
    HighCarry(s, s', t, t, s.txns[t].sstamp);
    IsStampCarry(s, s', t, n);
    if s.txns[t].sstamp > 0 { MetStamp(s', t, n); }
    ZeroStamp(s', t);
    forall m | m in s'.txns[t].met ensures IsStamp(s', m) && 0 < s'.txns[t].sstamp <= m {
      if m != n || s.txns[t].sstamp == 0 { IsStampCarry(s, s', t, m); }
    }
  }

  lemma MetStamp(s: State, t: nat, n: nat)
    requires t in s.txns && n in s.txns[t].met
    ensures HighFrom(s, t, n)
  {
  }

  lemma ZeroStamp(s: State, t: nat)
    requires t in s.txns
    ensures HighFrom(s, t, 0) && HighFrom(s, t, s.txns[t].cs)
  {
  }

  lemma InitHighFrom(s: State, s': State, t: nat)
    requires InitHigh(s, s', t) && Context(s, s', t)
    ensures OwnFrom(s', t)
  {
    hide LowFrom, HighFrom, MetInv, Base, Evolve;
    LowPoint(s, t);
    OwnTxn(s, t);
    LowRemains(s, s', t, s.txns[t].pstamp);
    HighCarry(s, s', t, t, s.txns[t].sstamp);
    ZeroStamp(s', t);
    MetCarry(s, s', t, t);
  }

  lemma LoadSettledFrom(s: State, s': State, t: nat)
    requires LoadSettled(s, s', t) && Context(s, s', t) && s.setup.ssn && KnownInv(s, t)
    requires forall u :: u in s.txns ==> BoundInv(s.txns[u], s.clock)
    ensures OwnFrom(s', t)
  {
    hide LowFrom, HighFrom, MetInv, Base, Evolve, Left, BoundInv;
    var v := s.txns[t].rset[s.txns[t].pc.c.i];
    assert Knows(s.txns[t], v);
    LowPoint(s, t);
    LowRemains(s, s', t, s.txns[t].pstamp);
    HighCarry(s, s', t, t, s.txns[t].sstamp);
    FoundStamp(s, t, v);
    LeftSame(s, s', t, v, At(s, v).sstamp.n);
    HighBound(s, t);
    MetCarry(s, s', t, t);
  }

  lemma HighBound(s: State, t: nat)
    requires t in s.txns && s.txns[t].pc.Certify? && s.txns[t].pc.c != InitS
    requires forall u :: u in s.txns ==> BoundInv(s.txns[u], s.clock)
    ensures s.txns[t].sstamp > 0
  {
    assert BoundInv(s.txns[t], s.clock);
  }

  // ----- the read check -----

  // The check of a read loses sight of the overwriter or keeps the same one.
  ghost predicate SameChase(c: Cert, c': Cert) {
    Bare(c') || (OnRead(c) && OnRead(c') && c'.i == c.i && c'.u == c.u)
  }

  lemma ProbeChases(s: State, s': State, t: nat)
    requires Probe(s, s', t)
    ensures t in s.txns && t in s'.txns && s.txns[t].pc.Certify? && s'.txns[t].pc.Certify?
    ensures var x, c, c' := s.txns[t], s.txns[t].pc.c, s'.txns[t].pc.c;
            || SameChase(c, c')
            || (c.Load? && c.i < |x.rset| && Has(s, x.rset[c.i]) && At(s, x.rset[c.i]).sstamp.Xid?
                && c' == Owner(c.i, At(s, x.rset[c.i]).sstamp.t))
  {
    ProbeShape(s, s', t);
  }

  lemma FoundOwner(s: State, v: Vid)
    requires Base(s) && s.setup.clean && Has(s, v) && At(s, v).sstamp.Xid?
    ensures Chases(s, v, At(s, v).sstamp.t)
  {
    hide Base;
    XidNamesOverwriter(s, v);
  }

  lemma ChasesSame(s: State, s': State, t: nat, v: Vid, u: nat)
    requires Chases(s, v, u) && t in s.txns && t in s'.txns && s' == SetTxn(s, t, s'.txns[t])
    requires s'.txns[t].state == s.txns[t].state
    ensures Chases(s', v, u)
  {
  }

  lemma BareIsUnsuspecting(s: State, t: nat, c: Cert)
    requires t in s.txns && (Bare(c) || OnRead(c))
    ensures SuspectInv(s, t, c) && (Bare(c) ==> ChaseInv(s, t, c))
  {
  }

  lemma ProbeFrom(s: State, s': State, t: nat)
    requires Probe(s, s', t) && Context(s, s', t)
    ensures OwnFrom(s', t)
  {
    hide LowFrom, HighFrom, MetInv, Base, Evolve, Chases, SuspectInv, Probe;
    ProbeShape(s, s', t);
    ProbeChases(s, s', t);
    LowPoint(s, t);
    LowRemains(s, s', t, s.txns[t].pstamp);
    HighCarry(s, s', t, t, s.txns[t].sstamp);
    MetCarry(s, s', t, t);
    var x, c, c' := s.txns[t], s.txns[t].pc.c, s'.txns[t].pc.c;
    BareIsUnsuspecting(s', t, c');
    if SameChase(c, c') {
      if OnRead(c') && c.i < |x.rset| { ChasesSame(s, s', t, x.rset[c.i], c.u); }
    } else {
      var v := x.rset[c.i];
      FoundOwner(s, v);
      ChasesSame(s, s', t, v, At(s, v).sstamp.t);
    }
  }

  lemma SuccessorChases(s: State, s': State, t: nat)
    requires CheckSuccessor(s, s', t)
    ensures t in s.txns && t in s'.txns && s.txns[t].pc.Certify? && s'.txns[t].pc.Certify?
    ensures SameChase(s.txns[t].pc.c, s'.txns[t].pc.c) && s.txns[t].pc.c != InitS
    ensures s'.txns[t].sstamp == s.txns[t].sstamp
            || (s.txns[t].pc.c.TakeSVerify? && s'.txns[t].sstamp == Min(s.txns[t].sstamp, s.txns[t].pc.c.sv))
  {
  }

  // The overwriter that the check waited for has left its high watermark in the version.
  lemma ChasedStamp(s: State, v: Vid, u: nat)
    requires Base(s) && s.setup.clean && s.setup.ssn && Stamped(s, v) && Chases(s, v, u) && s.txns[u].state == Cmmtd
    ensures At(s, v).sstamp == Lsn(s.txns[u].sstamp)
  {
    hide VerInv, OwnInv, Distinct;
    OwnTxn(s, u);
    hide Base;
    if At(s, v).sstamp == Xid(u) {
      XidNamesOverwriter(s, v);
    } else {
      LoadedStamp(s, u, v);
    }
  }

  lemma SuccessorFrom(s: State, s': State, t: nat)
    requires CheckSuccessor(s, s', t) && Context(s, s', t) && s.setup.ssn && KnownInv(s, t) && PointInv(s, t)
    requires forall u :: u in s.txns ==> BoundInv(s.txns[u], s.clock)
    ensures OwnFrom(s', t)
  {
    hide LowFrom, HighFrom, MetInv, Base, Evolve, Chases, SuspectInv, CheckSuccessor, BoundInv, Left, PointInv,
         KnownInv;
    SuccessorContext(s, s', t);
    SuccessorChases(s, s', t);
    LowPoint(s, t);
    LowRemains(s, s', t, s.txns[t].pstamp);
    HighCarry(s, s', t, t, s.txns[t].sstamp);
    HighBound(s, t);
    var x, c, c' := s.txns[t], s.txns[t].pc.c, s'.txns[t].pc.c;
    BareIsUnsuspecting(s', t, c');
    if OnRead(c') && c.i < |x.rset| { ChasesSame(s, s', t, x.rset[c.i], c.u); }
    if s'.txns[t].sstamp != x.sstamp {
      TakeSFrom(s, t);
      LeftSame(s, s', t, x.rset[c.i], c.sv);
    }
    MetCarry(s, s', t, t);
  }

  // What a waiting check takes over is in the version it read.
  lemma TakeSFrom(s: State, t: nat)
    requires Base(s) && s.setup.clean && s.setup.ssn && t in s.txns && KnownInv(s, t) && PointInv(s, t) && HandInv(s, t)
    requires s.txns[t].pc.Certify? && s.txns[t].pc.c.TakeSVerify? && TrackInv(s.txns[t])
    requires forall u :: u in s.txns ==> BoundInv(s.txns[u], s.clock)
    ensures var c := s.txns[t].pc.c;
            && c.i < |s.txns[t].rset| && s.txns[t].rset[c.i] in s.txns[t].seen
            && Left(s, t, s.txns[t].rset[c.i], c.sv) && c.sv > 0
  {
    hide Base, BoundInv, Left, Chases, SuspectInv, Only;
    var c := s.txns[t].pc.c;
    var v := s.txns[t].rset[c.i];
    assert Knows(s.txns[t], v);
    OwnTxn(s, t);
    ChasedStamp(s, v, c.u);
    FoundStamp(s, t, v);
  }

  // ----- the write check -----

  lemma SuspectSame(s: State, s': State, t: nat, o: nat, r: nat)
    requires ScanOnly(s, s', t) && Suspect(s, t, o, r)
    ensures Suspect(s', t, o, r)
  {
  }

  lemma SuspectsSame(s: State, s': State, t: nat, o: nat, cur: set<nat>, cur': set<nat>)
    requires ScanOnly(s, s', t) && Suspects(s, t, o, cur) && cur' <= cur
    ensures t in s'.txns && Suspects(s', t, o, cur')
  {
    hide Suspect, ScanOnly;
    ScanTable(s, s', t);
    forall q | q in cur' && q in s'.rlist ensures Suspect(s', t, o, s'.rlist[q]) {
      SuspectSame(s, s', t, o, s.rlist[q]);
    }
  }

  lemma ScanTable(s: State, s': State, t: nat)
    requires ScanOnly(s, s', t)
    ensures s'.rlist == s.rlist && t in s'.txns
  {
  }

  // Every bit of a bitmap was set by a reader.
  lemma WordFrom(s: State, t: nat, o: nat, k: nat)
    requires BitsFrom(s) && t in s.txns && o in s.recs && |s.recs[o]| > 1
    ensures Suspects(s, t, o, WordOf(s.recs[o][|s.recs[o]| - 2], k))
  {
    var v := Vid(o, |s.recs[o]| - 2);
    forall q | q in WordOf(s.recs[o][|s.recs[o]| - 2], k) && q in s.rlist ensures Suspect(s, t, o, s.rlist[q]) {
      assert Has(s, v) && q in At(s, v).readers;
      assert BitFrom(s, v, q);
    }
  }

  lemma LoadWordHand(s: State, s': State, t: nat)
    requires LoadWord(s, s', t) && BitsFrom(s)
    ensures ScanOnly(s, s', t) && SuspectInv(s', t, s'.txns[t].pc.c) && !OnRead(s'.txns[t].pc.c)
  {
    hide Suspects, BitsFrom;
    var c := s.txns[t].pc.c;
    var o := s.txns[t].wset[c.j];
    WordFrom(s, t, o, c.k);
    var w := WordOf(s.recs[o][|s.recs[o]| - 2], c.k);
    hide WordOf;
    SuspectsSame(s, s', t, o, w, w);
  }

  lemma TakeBitHand(s: State, s': State, t: nat, q: nat)
    requires TakeBit(s, s', t, q) && SuspectInv(s, t, s.txns[t].pc.c)
    ensures ScanOnly(s, s', t) && SuspectInv(s', t, s'.txns[t].pc.c) && !OnRead(s'.txns[t].pc.c)
  {
    hide Suspects;
    var c := s.txns[t].pc.c;
    var o := s.txns[t].wset[c.j];
    SuspectsSame(s, s', t, o, c.cur, c.cur - {q});
    SuspectsSame(s, s', t, o, c.cur, c.cur - {q} + {q});
  }

  lemma LoadReaderHand(s: State, s': State, t: nat)
    requires LoadReader(s, s', t) && SuspectInv(s, t, s.txns[t].pc.c)
    ensures ScanOnly(s, s', t) && SuspectInv(s', t, s'.txns[t].pc.c) && !OnRead(s'.txns[t].pc.c)
  {
    hide Suspect;
    var c := s.txns[t].pc.c;
    if c.j < |s.txns[t].wset| {
      var o := s.txns[t].wset[c.j];
      assert c.q in s.rlist ==> Suspect(s, t, o, s.rlist[c.q]);
      hide Suspects;
      SuspectsSame(s, s', t, o, c.cur + {c.q}, c.cur);
      if c.q in s.rlist { SuspectSame(s, s', t, o, s.rlist[c.q]); }
    }
  }

  // The point after a look at the reader's context: the same reader, or back to the loop.
  ghost predicate SameReader(s: State, c: Cert, c': Cert) {
    && OnReader(c) && (c'.Scan? || OnReader(c')) && c'.j == c.j && c'.cur == c.cur
    && (OnReader(c') ==> c'.r == c.r)
    && (c'.RSpinVerify? ==> c.r in s.txns && c'.st == s.txns[c.r].state)
  }

  lemma ContextReader(s: State, s': State, t: nat)
    requires LoadContext(s, s', t)
    ensures ScanOnly(s, s', t) && s'.txns[t].pstamp == s.txns[t].pstamp
    ensures SameReader(s, s.txns[t].pc.c, s'.txns[t].pc.c)
  {
  }

  lemma VerifiedReader(s: State, s': State, t: nat)
    requires VerifyReader(s, s', t)
    ensures ScanOnly(s, s', t)
    ensures SameReader(s, s.txns[t].pc.c, s'.txns[t].pc.c)
    ensures var c := s.txns[t].pc.c;
            || s'.txns[t].pstamp == s.txns[t].pstamp
            || (c.RSpinVerify? && c.st == Cmmtd && s'.txns[t].pstamp == Max(s.txns[t].pstamp, c.e))
  {
    VerifyMoves(s, s', t);
  }

  lemma ReaderHand(s: State, s': State, t: nat)
    requires ScanOnly(s, s', t) && SuspectInv(s, t, s.txns[t].pc.c)
    requires SameReader(s, s.txns[t].pc.c, s'.txns[t].pc.c)
    ensures SuspectInv(s', t, s'.txns[t].pc.c) && !OnRead(s'.txns[t].pc.c)
  {
    hide Suspect, Suspects;
    var c, x := s.txns[t].pc.c, s.txns[t];
    if c.j < |x.wset| {
      SuspectsSame(s, s', t, x.wset[c.j], c.cur, c.cur);
      SuspectSame(s, s', t, x.wset[c.j], c.r);
    }
  }

  lemma WaitPoint(s: State, t: nat)
    requires t in s.txns && PointInv(s, t) && s.txns[t].pc.Certify? && s.txns[t].pc.c.RSpinVerify?
    ensures var c := s.txns[t].pc.c;
            && c.j < |s.txns[t].wset| && c.r in s.txns && 0 < c.e == s.txns[c.r].cs < s.txns[t].cs
  {
    hide Pending;
  }

  // The reader that the check waited for has been certified and has read the version.
  lemma WaitedReader(s: State, t: nat)
    requires t in s.txns && PointInv(s, t) && HandInv(s, t) && s.txns[t].pc.Certify?
    requires s.txns[t].pc.c.RSpinVerify? && s.txns[t].pc.c.st == Cmmtd
    requires forall u :: u in s.txns ==> TrackInv(s.txns[u]) && TxnInv(s.txns[u], s.clock)
    ensures var c := s.txns[t].pc.c; var x := s.txns[t];
            && c.j < |x.wset| && x.wset[c.j] in s.recs && |s.recs[x.wset[c.j]]| > 1
            && Accessed(s, Vid(x.wset[c.j], |s.recs[x.wset[c.j]]| - 2), c.e)
  {
    WaitPoint(s, t);
    hide PointInv, Suspects, ChaseInv;
    var c := s.txns[t].pc.c;
    var o := s.txns[t].wset[c.j];
    assert Suspect(s, t, o, c.r);
    assert ReadBy(s, Vid(o, |s.recs[o]| - 2), c.r);
  }

  lemma Tracked(s: State)
    requires Inv(s) && From(s)
    ensures forall u :: u in s.txns ==> TrackInv(s.txns[u]) && TxnInv(s.txns[u], s.clock)
  {
    hide Base, TableInv, SlotInv, AccessInv, TxnSsn, AccessFrom, BitsFrom, LowInv, HighInv, MetInv, HandInv, CopyInv,
         TrackInv, TxnInv;
    forall u | u in s.txns ensures TrackInv(s.txns[u]) && TxnInv(s.txns[u], s.clock) {
      assert TxnFrom(s, u);
      OwnTxn(s, u);
    }
  }

  lemma ScanFrom(s: State, s': State, t: nat)
    requires ScanOnly(s, s', t) && Context(s, s', t) && LowFrom(s', t, s'.txns[t].pstamp)
    requires SuspectInv(s', t, s'.txns[t].pc.c) && !OnRead(s'.txns[t].pc.c)
    ensures OwnFrom(s', t)
  {
    hide LowFrom, HighFrom, MetInv, Base, Evolve, SuspectInv;
    HighCarry(s, s', t, t, s.txns[t].sstamp);
    MetCarry(s, s', t, t);
  }

  lemma VerifyReaderFrom(s: State, s': State, t: nat)
    requires VerifyReader(s, s', t) && Context(s, s', t) && Inv(s) && From(s)
    ensures OwnFrom(s', t)
  {
    hide LowFrom, Base, Evolve, SuspectInv, VerifyReader, Inv, From, Accessed, PointInv, TrackInv, TxnInv, KnownInv,
         CopyInv, BoundInv;
    VerifiedReader(s, s', t);
    ReaderHand(s, s', t);
    LowPoint(s, t);
    LowRemains(s, s', t, s.txns[t].pstamp);
    var c, x := s.txns[t].pc.c, s.txns[t];
    if s'.txns[t].pstamp != x.pstamp {
      Tracked(s);
      LearnParts(s, t);
      WaitedReader(s, t);
      UpdatesOwn(s, t);
      TakesAccess(s, s', t, x.wset[c.j], c.e);
    }
    ScanFrom(s, s', t);
  }

  lemma LoadAccessFrom(s: State, s': State, t: nat)
    requires LoadAccess(s, s', t) && Context(s, s', t) && AccessFrom(s)
    ensures OwnFrom(s', t)
  {
    hide LowFrom, Base, Evolve, Accessed;
    LowPoint(s, t);
    LowRemains(s, s', t, s.txns[t].pstamp);
    var o := s.txns[t].wset[s.txns[t].pc.c.j];
    BelowIsStamped(s, o);
    UpdatesOwn(s, t);
    TakesAccess(s, s', t, o, s.recs[o][|s.recs[o]| - 2].xstamp);
    BareIsUnsuspecting(s', t, s'.txns[t].pc.c);
    ScanFrom(s, s', t);
  }

  // The steps of the write check that leave the watermark alone.
  lemma ScanHand(s: State, s': State, t: nat)
    requires SkipInsert(s, s', t) || LoadWord(s, s', t) || (exists q :: TakeBit(s, s', t, q)) || LoadReader(s, s', t)
             || LoadContext(s, s', t)
    requires BitsFrom(s) && t in s.txns && HandInv(s, t)
    ensures ScanOnly(s, s', t) && s'.txns[t].pstamp == s.txns[t].pstamp
    ensures SuspectInv(s', t, s'.txns[t].pc.c) && !OnRead(s'.txns[t].pc.c)
  {
    hide SuspectInv, LoadContext, ChaseInv, BitsFrom;
    if LoadWord(s, s', t) {
      LoadWordHand(s, s', t);
    } else if LoadReader(s, s', t) {
      LoadReaderHand(s, s', t);
    } else if LoadContext(s, s', t) {
      ContextReader(s, s', t);
      ReaderHand(s, s', t);
    } else if q :| TakeBit(s, s', t, q) {
      TakeBitHand(s, s', t, q);
    } else {
      BareIsUnsuspecting(s', t, s'.txns[t].pc.c);
    }
  }

  lemma WriteCheckFrom(s: State, s': State, t: nat)
    requires WriteCheck(s, s', t) && Context(s, s', t) && Inv(s) && From(s)
    ensures OwnFrom(s', t)
  {
    hide LowFrom, Base, Evolve, SuspectInv, SkipInsert, LoadWord, TakeBit, LoadReader, LoadContext, VerifyReader,
         LoadAccess, Inv, HandInv, HighInv, MetInv;
    if VerifyReader(s, s', t) {
      VerifyReaderFrom(s, s', t);
    } else if LoadAccess(s, s', t) {
      LoadAccessFrom(s, s', t);
    } else {
      ScanHand(s, s', t);
      LowPoint(s, t);
      LowRemains(s, s', t, s.txns[t].pstamp);
      ScanFrom(s, s', t);
    }
  }

  lemma LearnsFrom(s: State, s': State, t: nat)
    requires Learns(s, s', t) && Context(s, s', t) && Inv(s) && From(s)
    ensures OwnFrom(s', t)
  {
    hide Context, OwnFrom, Inv, AccessFrom, BitsFrom, KnownInv, PointInv, BoundInv, Probe, CheckSuccessor, WriteCheck,
         ReadPick, ReadStamp, ReadPush, UpdateTakeX, Rewrite, MeetInvisible, InitHigh, LoadSettled, TxnSsn;
    LearnMoves(s, s', t);
    LearnParts(s, t);
    if v :| ReadPick(s, s', t, v) {
      ReadPickFrom(s, s', t, v);
    } else if ReadStamp(s, s', t) {
      ReadStampFrom(s, s', t);
    } else if ReadPush(s, s', t) {
      ReadPushFrom(s, s', t);
    } else if UpdateTakeX(s, s', t) {
      TakeXFrom(s, s', t);
    } else if o :| Rewrite(s, s', t, o) {
      RewriteFrom(s, s', t, o);
    } else if n :| MeetInvisible(s, s', t, n) {
      MeetFrom(s, s', t, n);
    } else if Probe(s, s', t) {
      ProbeFrom(s, s', t);
    } else if InitHigh(s, s', t) {
      InitHighFrom(s, s', t);
    } else if LoadSettled(s, s', t) {
      LoadSettledFrom(s, s', t);
    } else if CheckSuccessor(s, s', t) {
      SuccessorFrom(s, s', t);
    } else {
      WriteCheckFrom(s, s', t);
    }
  }

  lemma LearnParts(s: State, t: nat)
    requires Inv(s) && From(s) && t in s.txns
    ensures s.setup.ssn && KnownInv(s, t) && PointInv(s, t) && CopyInv(s, t)
    ensures forall u :: u in s.txns ==> BoundInv(s.txns[u], s.clock)
  {
    hide Base, TableInv, SlotInv, AccessInv, KnownInv, SeenInv, BitsInv, PrevInv, BoundInv, ReadsCovered,
         WritesCovered, PointInv, AccessFrom, BitsFrom, OwnFrom, CopyFrom, LowInv, HighInv, MetInv, HandInv;
    Parts(s, t);
    assert TxnSsn(s, t) && TxnFrom(s, t);
  }

  // ----- access stamps -----

  ghost predicate Starting(pc: Pc) { pc.Idle? || pc.Reading? || pc.Updating? || pc.Doomed? }

  // The steps that leave a transaction active.
  ghost predicate ForwardStep(s: State, s': State, t: nat) {
    || (exists o :: Insert(s, s', t, o)) || (exists o :: Install(s, s', t, o)) || EarlyUnlink(s, s', t)
    || ReadRegister(s, s', t) || UpdateCopyX(s, s', t) || MarkSuccessor(s, s', t) || AddToWriteSet(s, s', t)
    || (exists v :: ReadPick(s, s', t, v)) || ReadStamp(s, s', t) || ReadPush(s, s', t) || UpdateTakeX(s, s', t)
    || (exists o :: Rewrite(s, s', t, o)) || (exists n :: MeetInvisible(s, s', t, n))
  }

  lemma ForwardSteps(s: State, s': State, t: nat)
    requires Step(s, s', t) && t in s.txns && t in s'.txns && Starting(s.txns[t].pc) && s'.txns[t].state == Active
    ensures ForwardStep(s, s', t)
  {
    hide ReadStamp, ReadPush, ReadRegister, UpdateTakeX, UpdateCopyX, MarkSuccessor, AddToWriteSet, Insert, Install,
         Rewrite, ReadPick, EarlyUnlink, MeetInvisible, SetVer;
  }

  lemma OwnsHead(s: State, t: nat)
    requires Base(s) && t in s.txns
    ensures OwnInv(s, t)
  {
  }

  lemma ActivePoint(s: State, t: nat)
    requires Base(s) && t in s.txns && s.txns[t].state == Active
    ensures Starting(s.txns[t].pc)
  {
    hide VerInv, OwnInv, Distinct;
    assert TxnInv(s.txns[t], s.clock);
  }

  lemma GrowsActor(s: State, s': State, t: nat)
    requires Evolve(s, s', t) && t in s.txns && s'.txns[t].state == Active
    ensures s.txns[t].state == Active
  {
    assert Grows(s.txns[t], s'.txns[t], s.clock);
  }

  // `o` keeps its head, has a head without an access stamp, or has just copied one.
  ghost predicate HeadFrom(s: State, s': State, t: nat, o: nat) {
    || (t in s.txns && o in s.txns[t].own && HeadKept(s, s', o))
    || (o in s'.recs && |s'.recs[o]| > 0 && s'.recs[o][|s'.recs[o]| - 1].xstamp == 0)
    || (UpdateCopyX(s, s', t) && o == s.txns[t].pc.o)
  }

  lemma LinkHead(s: State, s': State, t: nat, a: nat, o: nat)
    requires Insert(s, s', t, a) || Install(s, s', t, a) || EarlyUnlink(s, s', t)
    requires OwnInv(s, t) && t in s'.txns && o in s'.txns[t].own
    ensures HeadFrom(s, s', t, o)
  {
  }

  lemma VersionHead(s: State, s': State, t: nat, o: nat)
    requires ReadRegister(s, s', t) || UpdateCopyX(s, s', t) || MarkSuccessor(s, s', t)
    requires OwnInv(s, t) && t in s'.txns && o in s'.txns[t].own
    requires s.txns[t].pc.Reading? ==> Stamped(s, s.txns[t].pc.v)
    ensures HeadFrom(s, s', t, o)
  {
  }

  lemma StoreHead(s: State, s': State, t: nat, o: nat)
    requires t in s.txns && t in s'.txns && s'.recs == s.recs && s'.txns[t].own == s.txns[t].own
    requires OwnInv(s, t) && o in s'.txns[t].own
    ensures HeadFrom(s, s', t, o)
  {
  }

  lemma ForwardHead(s: State, s': State, t: nat, o: nat)
    requires t in s.txns && ForwardStep(s, s', t) && OwnInv(s, t) && KnownInv(s, t)
    requires t in s'.txns && o in s'.txns[t].own
    ensures HeadFrom(s, s', t, o)
  {
    hide OwnInv, HeadFrom, ReadStamp, ReadPush, ReadRegister, UpdateTakeX, UpdateCopyX, MarkSuccessor, AddToWriteSet,
         Insert, Install, Rewrite, ReadPick, EarlyUnlink, MeetInvisible;
    assert s.txns[t].pc.Reading? ==> Knows(s.txns[t], s.txns[t].pc.v);
    if a :| Insert(s, s', t, a) || Install(s, s', t, a) {
      LinkHead(s, s', t, a, o);
    } else if EarlyUnlink(s, s', t) {
      LinkHead(s, s', t, 0, o);
    } else if ReadRegister(s, s', t) || UpdateCopyX(s, s', t) || MarkSuccessor(s, s', t) {
      VersionHead(s, s', t, o);
    } else {
      if AddToWriteSet(s, s', t) { CommitMoves(s, s', t); } else { LearnMoves(s, s', t); }
      StoreHead(s, s', t, o);
    }
  }

  lemma CopyXFrom(s: State, s': State, t: nat)
    requires UpdateCopyX(s, s', t) && Evolve(s, s', t) && Base(s) && AccessFrom(s)
    ensures CopyFrom(s', s.txns[t].pc.o)
  {
    hide Evolve, Base, Accessed;
    var o := s.txns[t].pc.o;
    BelowIsStamped(s, o);
    var v := Vid(o, |s.recs[o]| - 2);
    AccessedCarry(s, s', t, v, At(s, v).xstamp);
  }

  lemma CopyOwn(s: State, s': State, t: nat)
    requires Step(s, s', t) && Inv(s) && Evolve(s, s', t) && From(s) && t in s.txns && t in s'.txns
    ensures CopyInv(s', t)
  {
    hide Step, Inv, Base, Evolve, AccessFrom, BitsFrom, LowInv, HighInv, MetInv, HandInv, TrackInv, CopyFrom, KnownInv,
         TxnSsn, TxnInv, AccessInv, TableInv, SlotInv, ForwardStep, BoundInv, HeadFrom;
    if s'.txns[t].state == Active {
      Parts(s, t);
      GrowsActor(s, s', t);
      ActivePoint(s, t);
      ForwardSteps(s, s', t);
      OwnsHead(s, t);
      assert TxnFrom(s, t);
      forall o | o in s'.txns[t].own ensures CopyFrom(s', o) {
        ForwardHead(s, s', t, o);
        HeadCopies(s, s', t, o);
      }
    }
  }

  lemma HeadCopies(s: State, s': State, t: nat, o: nat)
    requires HeadFrom(s, s', t, o) && Evolve(s, s', t) && Base(s) && AccessFrom(s)
    requires t in s.txns && s.txns[t].state == Active && CopyInv(s, t)
    ensures CopyFrom(s', o)
  {
    hide Evolve, Base, AccessFrom, Accessed;
    if o in s.txns[t].own && HeadKept(s, s', o) {
      CopyCarry(s, s', t, o);
    } else if UpdateCopyX(s, s', t) && o == s.txns[t].pc.o {
      CopyXFrom(s, s', t);
    }
  }

  // No committed version gets a new access stamp.
  ghost predicate AccessKept(s: State, s': State) {
    forall v :: Stamped(s', v) ==> Stamped(s, v) && At(s', v).xstamp == At(s, v).xstamp
  }

  lemma LinkAccess(s: State, s': State, t: nat)
    requires Links(s, s', t)
    ensures AccessKept(s, s')
  {
  }

  lemma BitAccess(s: State, s': State, t: nat)
    requires ReadRegister(s, s', t) || PostClear(s, s', t) || UndoRead(s, s', t)
    ensures AccessKept(s, s')
  {
  }

  lemma MarkAccess(s: State, s': State, t: nat)
    requires MarkSuccessor(s, s', t) || StampSuccessor(s, s', t) || UndoSuccessor(s, s', t)
    ensures AccessKept(s, s')
  {
  }

  lemma HeadAccess(s: State, s': State, t: nat)
    requires (UpdateCopyX(s, s', t) || StampX(s, s', t)) && Base(s)
    ensures AccessKept(s, s')
  {
    hide Base;
    StampsOwn(s, t);
    HeadIsOwn(s, t, if s.txns[t].pc.Updating? then s.txns[t].pc.o else s.txns[t].wset[s.txns[t].pc.j]);
  }

  lemma StampsOwn(s: State, t: nat)
    requires Base(s) && t in s.txns
    ensures s.txns[t].pc.Updating? ==> s.txns[t].pc.o in s.txns[t].own
    ensures s.txns[t].pc.Stamping? && s.txns[t].pc.j < |s.txns[t].wset| ==>
              s.txns[t].wset[s.txns[t].pc.j] in s.txns[t].own
  {
    hide VerInv, OwnInv, Distinct;
    OwnTxn(s, t);
    var x := s.txns[t];
    if x.pc.Stamping? && x.pc.j < |x.wset| { assert x.wset[x.pc.j..][0] == x.wset[x.pc.j]; }
  }

  lemma AccessKeeps(s: State, s': State, a: nat)
    requires Evolve(s, s', a) && Base(s) && AccessFrom(s) && AccessKept(s, s')
    ensures AccessFrom(s')
  {
    hide Evolve, Base, Accessed;
    forall v | Stamped(s', v) ensures Accessed(s', v, At(s', v).xstamp) {
      AccessedCarry(s, s', a, v, At(s, v).xstamp);
    }
  }

  lemma PostSetXFrom(s: State, s': State, t: nat)
    requires PostSetX(s, s', t) && Evolve(s, s', t) && Base(s) && AccessFrom(s) && TrackInv(s.txns[t])
    ensures AccessFrom(s')
  {
    hide Evolve, Base, Born;
    var w := s.txns[t].rset[s.txns[t].pc.i];
    OwnTxn(s, t);
    assert ReadBy(s', w, t);
    forall v | Stamped(s', v) ensures Accessed(s', v, At(s', v).xstamp) {
      assert Stamped(s, v);
      AccessedCarry(s, s', t, v, At(s, v).xstamp);
    }
  }

  lemma StampClsnFrom(s: State, s': State, t: nat)
    requires StampClsn(s, s', t) && Evolve(s, s', t) && Base(s) && AccessFrom(s) && PointInv(s, t)
    ensures AccessFrom(s')
  {
    hide Evolve, Base, Born;
    StampClsnMoves(s, s', t);
    StampClsnHead(s, s', t);
    var o := s.txns[t].wset[s.txns[t].pc.j];
    forall v | Stamped(s', v) ensures Accessed(s', v, At(s', v).xstamp) {
      if v != Vid(o, |s.recs[o]| - 1) {
        AccessedCarry(s, s', t, v, At(s, v).xstamp);
        StampClsnSame(s, s', t, v);
      }
    }
  }

  lemma StampClsnSame(s: State, s': State, t: nat, v: Vid)
    requires StampClsn(s, s', t) && Stamped(s, v)
    ensures Has(s', v) && At(s', v).xstamp == At(s, v).xstamp
  {
  }

  lemma AccessStep(s: State, s': State, t: nat)
    requires Moves(s, s', t) && Evolve(s, s', t) && Inv(s) && From(s)
    ensures AccessFrom(s')
  {
    hide Evolve, Base, AccessFrom, BitsFrom, TxnSsn, AccessInv, TableInv, SlotInv, TrackInv, HandInv, CopyInv, Stays,
         Gives, Learns, Clears, Links, ReadRegister, PostSetX, PostClear, UndoRead, UpdateCopyX, StampX, MarkSuccessor,
         StampSuccessor, UndoSuccessor, StampClsn, LowInv, HighInv, MetInv, AccessKept, KnownInv, PointInv, BoundInv;
    LearnParts(s, t);
    assert TxnFrom(s, t);
    if PostSetX(s, s', t) {
      PostSetXFrom(s, s', t);
    } else if StampClsn(s, s', t) {
      StampClsnFrom(s, s', t);
    } else {
      OtherAccess(s, s', t);
      AccessKeeps(s, s', t);
    }
  }

  lemma OtherAccess(s: State, s': State, t: nat)
    requires s'.recs == s.recs || Links(s, s', t) || VersionStep(s, s', t)
    requires !PostSetX(s, s', t) && Base(s)
    ensures AccessKept(s, s')
  {
    hide Base, Links, ReadRegister, PostSetX, PostClear, UndoRead, UpdateCopyX, StampX, MarkSuccessor, StampSuccessor,
         UndoSuccessor;
    if Links(s, s', t) {
      LinkAccess(s, s', t);
    } else if ReadRegister(s, s', t) || PostClear(s, s', t) || UndoRead(s, s', t) {
      BitAccess(s, s', t);
    } else if UpdateCopyX(s, s', t) || StampX(s, s', t) {
      HeadAccess(s, s', t);
    } else if MarkSuccessor(s, s', t) || StampSuccessor(s, s', t) || UndoSuccessor(s, s', t) {
      MarkAccess(s, s', t);
    }
  }

  // ----- reader bits -----

  // The only bit that a step may set is the reader's own.
  ghost predicate BitsMove(s: State, s': State, t: nat) {
    forall v, q :: Has(s', v) && q in At(s', v).readers ==>
      || (Has(s, v) && q in At(s, v).readers)
      || (ReadRegister(s, s', t) && v == s.txns[t].pc.v && q == s.txns[t].slot && s.setup.placed)
  }

  lemma LinkBit(s: State, s': State, t: nat)
    requires Links(s, s', t)
    ensures BitsMove(s, s', t)
  {
    hide Insert, Install, Unlink, EarlyUnlink, ReadRegister;
    if o :| Insert(s, s', t, o) || Install(s, s', t, o) {
      LinkBits(s, s', t, o);
    } else {
      LinkBits(s, s', t, 0);
    }
  }

  lemma VersionBit(s: State, s': State, t: nat)
    requires VersionStep(s, s', t) || StampClsn(s, s', t)
    ensures BitsMove(s, s', t)
  {
    hide BitsMove, ReadRegister, PostSetX, PostClear, UndoRead, UpdateCopyX, StampX, MarkSuccessor, StampSuccessor,
         UndoSuccessor, StampClsn;
    if ReadRegister(s, s', t) || PostSetX(s, s', t) || PostClear(s, s', t) || UndoRead(s, s', t) {
      ReaderBit(s, s', t);
    } else {
      if UpdateCopyX(s, s', t) || StampX(s, s', t) {
        HeadShape(s, s', t);
      } else if StampClsn(s, s', t) {
        ClsnBit(s, s', t);
      } else {
        MarkShape(s, s', t);
      }
      FewerMove(s, s', t);
    }
  }

  lemma FewerMove(s: State, s': State, t: nat)
    requires FewerBits(s, s')
    ensures BitsMove(s, s', t)
  {
    hide ReadRegister;
  }

  lemma ClsnBit(s: State, s': State, t: nat)
    requires StampClsn(s, s', t)
    ensures FewerBits(s, s')
  {
  }

  lemma ReaderBit(s: State, s': State, t: nat)
    requires ReadRegister(s, s', t) || PostSetX(s, s', t) || PostClear(s, s', t) || UndoRead(s, s', t)
    ensures BitsMove(s, s', t)
  {
  }

  lemma StepBits(s: State, s': State, t: nat)
    requires Moves(s, s', t)
    ensures BitsMove(s, s', t)
  {
    hide Stays, Gives, Learns, Clears, VersionStep, Links, StampClsn, PostClear, UndoRead, ReadRegister;
    if Links(s, s', t) {
      LinkBit(s, s', t);
    } else if VersionStep(s, s', t) || StampClsn(s, s', t) {
      VersionBit(s, s', t);
    }
  }

  // The holder of a position still holds the read whose bit is set.
  lemma HolderKeeps(s: State, s': State, t: nat, v: Vid, q: nat)
    requires Moves(s, s', t) && Grows(s.txns[t], s'.txns[t], s.clock) && s.setup.placed && SlotInv(s)
    requires q in s.rlist && s.rlist[q] == t && Holds(s.txns[t], v) && Has(s', v) && q in At(s', v).readers
    ensures Holds(s'.txns[t], v)
  {
    hide Stays, Gives, Learns, VersionStep, Links, StampClsn;
    var x, x' := s.txns[t], s'.txns[t];
    var k :| Cleared(x) <= k < |x.rset| && x.rset[k] == v;
    assert x'.rset[k] == v;
    if PostClear(s, s', t) || UndoRead(s, s', t) {
      ClearedBit(s, s', t, v);
      assert k != Cleared(x);
    }
  }

  lemma ClearedBit(s: State, s': State, t: nat, v: Vid)
    requires (PostClear(s, s', t) || UndoRead(s, s', t)) && s.setup.placed
    ensures Cleared(s.txns[t]) < |s.txns[t].rset| && Cleared(s'.txns[t]) == Cleared(s.txns[t]) + 1
    ensures v == s.txns[t].rset[Cleared(s.txns[t])] && Has(s', v) ==> s.txns[t].slot !in At(s', v).readers
  {
  }

  lemma UnlistedNone(s: State, s': State, t: nat, v: Vid)
    requires Unlist(s, s', t) && SlotInv(s) && s.setup.placed
    ensures s.txns[t].slot in s.rlist && s.rlist[s.txns[t].slot] == t && !Holds(s.txns[t], v)
  {
  }

  lemma BitKeeps(s: State, s': State, t: nat, v: Vid, q: nat)
    requires Moves(s, s', t) && TableKept(s, s', t) && Evolve(s, s', t) && SlotInv(s) && s.setup.placed
    requires BitFrom(s, v, q) && Has(s', v) && q in At(s', v).readers
    ensures BitFrom(s', v, q)
  {
    hide Moves, Keeps, Wrote, HeadKept, Unlist, Holds, SlotInv, BitFrom;
    MovesActor(s, s', t);
    BitHolder(s, v, q);
    if Unlist(s, s', t) && q == s.txns[t].slot {
      UnlistedNone(s, s', t, v);
    } else {
      assert q in s'.rlist && s'.rlist[q] == s.rlist[q];
      if s.rlist[q] == t { HolderKeeps(s, s', t, v, q); }
      HolderBit(s', v, q);
    }
  }

  lemma MovesActor(s: State, s': State, t: nat)
    requires Moves(s, s', t)
    ensures t in s.txns && t in s'.txns
  {
  }

  lemma BitHolder(s: State, v: Vid, q: nat)
    requires BitFrom(s, v, q)
    ensures q in s.rlist && s.rlist[q] in s.txns && Holds(s.txns[s.rlist[q]], v)
  {
  }

  lemma HolderBit(s: State, v: Vid, q: nat)
    requires q in s.rlist && s.rlist[q] in s.txns && Holds(s.txns[s.rlist[q]], v)
    ensures BitFrom(s, v, q)
  {
  }

  lemma RegisteredBit(s: State, s': State, t: nat)
    requires ReadRegister(s, s', t) && SlotInv(s) && s.setup.placed && PointInv(s, t)
    ensures BitFrom(s', s.txns[t].pc.v, s.txns[t].slot)
  {
    var x, x' := s.txns[t], s'.txns[t];
    assert x'.rset[|x'.rset| - 1] == x.pc.v;
    assert Holds(x', x.pc.v);
  }

  lemma BitsStep(s: State, s': State, t: nat)
    requires Moves(s, s', t) && TableKept(s, s', t) && Evolve(s, s', t) && Inv(s) && TableInv(s') && BitsFrom(s)
    ensures BitsFrom(s')
  {
    hide Base, AccessInv, TxnSsn, Moves, TableKept, Evolve, BitFrom, ReadRegister, SlotInv, PointInv;
    MovesActor(s, s', t);
    EvolvedFlag(s, s', t);
    if s.setup.placed {
      StepBits(s, s', t);
      PointOf(s, t);
      forall v, q | Has(s', v) && q in At(s', v).readers ensures BitFrom(s', v, q) {
        if Has(s, v) && q in At(s, v).readers {
          BitKeeps(s, s', t, v, q);
        } else {
          RegisteredBit(s, s', t);
        }
      }
    }
  }

  lemma PointOf(s: State, t: nat)
    requires Inv(s) && t in s.txns
    ensures PointInv(s, t)
  {
    hide Base, AccessInv, TableInv, SlotInv, KnownInv, SeenInv, BitsInv, PrevInv, BoundInv, ReadsCovered,
         WritesCovered, PointInv;
    assert TxnSsn(s, t);
  }

  // ----- every step and every run -----

  lemma BeginFrom(s: State, s': State, t: nat, q: nat)
    requires BeginTxn(s, s', t, q) && From(s) && Inv(s) && Inv(s') && Evolve(s, s', t)
    ensures From(s')
  {
    hide Base, TxnSsn, AccessInv, SlotInv, Evolve, BitFrom, AccessFrom;
    assert TableMoves(s, s', t);
    assert AccessKept(s, s');
    AccessKeeps(s, s', t);
    forall v, p | Has(s', v) && p in At(s', v).readers ensures BitFrom(s', v, p) {
      BeginBit(s, s', t, q, v, p);
    }
    assert TxnFrom(s', t);
    hide TxnFrom;
    forall u | u in s'.txns && u != t ensures TxnFrom(s', u) {
      Parts(s, u);
      OthersFrom(s, s', t, u);
    }
  }

  lemma BeginBit(s: State, s': State, t: nat, q: nat, v: Vid, p: nat)
    requires BeginTxn(s, s', t, q) && BitsFrom(s) && TableInv(s) && Has(s', v) && p in At(s', v).readers
    ensures BitFrom(s', v, p)
  {
    assert Has(s, v) && At(s, v) == At(s', v);
    assert BitFrom(s, v, p);
  }

  lemma ActorFrom(s: State, s': State, t: nat)
    requires Moves(s, s', t) && Evolve(s, s', t) && Inv(s) && Base(s') && From(s)
    ensures OwnFrom(s', t)
  {
    hide Evolve, Base, AccessFrom, BitsFrom, TxnSsn, AccessInv, TableInv, SlotInv, LowInv, HighInv, MetInv, TrackInv,
         HandInv, CopyInv, Stays, Gives, Learns, Clears, VersionStep, Links, StampClsn, PostClear, UndoRead;
    assert TxnFrom(s, t);
    if Gives(s.txns[t], s'.txns[t]) {
      GivesFrom(s, s', t);
    } else if Learns(s, s', t) {
      LearnMoves(s, s', t);
      LearnsFrom(s, s', t);
    } else {
      StaysFrom(s, s', t);
    }
  }

  lemma StepFrom(s: State, s': State, t: nat)
    requires Step(s, s', t) && Inv(s) && From(s)
    ensures From(s')
  {
    StepKeeps(s, s', t);
    hide Step, Inv, Evolve, AccessFrom, BitsFrom, TxnFrom, BeginTxn;
    if t !in s.txns {
      BeginMoves(s, s', t);
      var q :| BeginTxn(s, s', t, q);
      BeginFrom(s, s', t, q);
    } else {
      ActorStep(s, s', t);
    }
  }

  lemma ActorStep(s: State, s': State, t: nat)
    requires Step(s, s', t) && Inv(s) && Inv(s') && Evolve(s, s', t) && From(s) && t in s.txns
    ensures From(s')
  {
    hide Step, Inv, Evolve, AccessFrom, BitsFrom, TxnFrom, Base, TxnInv, Moves, TableMoves, TableKept, KnownInv, TxnSsn,
         TableInv, SlotInv, AccessInv, BoundInv, LowInv, HighInv, MetInv, TrackInv, HandInv, CopyInv, OwnFrom, MarkKept;
    Parts(s, t);
    StepMoves(s, s', t);
    MovesActor(s, s', t);
    Parts(s', t);
    AccessStep(s, s', t);
    BitsStep(s, s', t);
    ActorFrom(s, s', t);
    CopyOwn(s, s', t);
    OwnIsFrom(s', t);
    MarksMove(s, s', t);
    CleanSetup(s);
    forall u | u in s'.txns && u != t ensures TxnFrom(s', u) {
      EvolveOther(s, s', t, u);
      Parts(s, u);
      OthersFrom(s, s', t, u);
    }
  }

  lemma CleanSetup(s: State)
    requires Inv(s)
    ensures s.setup.clean && s.setup.ssn
  {
  }

  lemma EvolveOther(s: State, s': State, a: nat, u: nat)
    requires Evolve(s, s', a) && u in s'.txns && u != a
    ensures u in s.txns
  {
  }

  lemma OwnIsFrom(s: State, t: nat)
    requires t in s.txns && OwnFrom(s, t) && CopyInv(s, t)
    ensures TxnFrom(s, t)
  {
  }

  lemma InitFrom(s: State)
    requires Init(s)
    ensures From(s)
  {
  }

  /** In every state of every run all watermarks, access stamps and reader bits are accounted for. */
  lemma {:induction false} RunFrom(r: seq<State>)
    requires Run(r)
    ensures From(r[|r| - 1]) && Inv(r[|r| - 1])
  {
    hide Inv, Step, From, Init;
    RunInvariant(r);
    if |r| == 1 {
      InitFrom(r[0]);
    } else {
      var k := |r| - 1;
      RunFrom(r[..k]);
      assert Next(r[k - 1], r[k]);
      var t :| Step(r[k - 1], r[k], t);
      StepFrom(r[k - 1], r[k], t);
    }
  }
}
