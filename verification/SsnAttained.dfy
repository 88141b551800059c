/**
 Where the watermarks of the serial safety net come from.  A low watermark is the stamp of a creator
 or of a committed reader of something read or overwritten, and a high watermark is the own commit
 stamp, the high watermark of a committed overwriter of something read, or the stamp of an invisible
 version.
 */
module SsnAttained {
  import opened Stamps
  import opened Engine
  import opened Ssn
  import opened SsnInvariant
  import opened SsnSteps

  // ----- provenance -----

  ghost predicate ReadBy(s: State, v: Vid, u: nat) {
    u in s.txns && s.txns[u].decided && v in s.txns[u].seen
  }

  // `n` is the commit stamp of the creator of `v` or of a certified transaction, other than `t`, that read it.
  ghost predicate Access(s: State, v: Vid, t: nat, n: nat) {
    Has(s, v) && (n == Born(s, v) || exists u :: u != t && ReadBy(s, v, u) && n == s.txns[u].cs)
  }

  // The same for anyone.
  ghost predicate Accessed(s: State, v: Vid, n: nat) {
    Has(s, v) && (n == Born(s, v) || exists u :: ReadBy(s, v, u) && n == s.txns[u].cs)
  }

  ghost predicate Overwrote(s: State, t: nat, v: Vid, p: nat) {
    Overwrites(s, v, t) && Access(s, v, t, p)
  }

  // `v`, whose stamp is `p`, has been read or is being read.
  ghost predicate Takes(s: State, x: Txn, v: Vid, p: nat) {
    Knows(x, v) && Stamped(s, v) && p == At(s, v).clsn.n
  }

  ghost predicate LowFrom(s: State, t: nat, p: nat)
    requires t in s.txns
  {
    p == 0 || (exists v :: Takes(s, s.txns[t], v, p)) || (exists v :: Overwrote(s, t, v, p))
  }

  ghost predicate LowInv(s: State, t: nat)
    requires t in s.txns
  {
    s.txns[t].state != Abrtd && s.txns[t].pc != Doomed ==> LowFrom(s, t, s.txns[t].pstamp)
  }

  // Another transaction overwrote `v` and left `q` in it.
  ghost predicate Left(s: State, t: nat, v: Vid, q: nat) {
    && Stamped(s, v) && At(s, v).sstamp == Lsn(q)
    && v.i + 1 < |s.recs[v.o]| && s.recs[v.o][v.i + 1].writer != t
  }

  ghost predicate HighFrom(s: State, t: nat, q: nat)
    requires t in s.txns
  {
    var x := s.txns[t];
    q == 0 || q == x.cs || q in x.met || exists v :: v in x.seen && Left(s, t, v, q)
  }

  ghost predicate HighInv(s: State, t: nat)
    requires t in s.txns
  {
    HighFrom(s, t, s.txns[t].sstamp)
  }

  ghost predicate MetInv(s: State, t: nat)
    requires t in s.txns
  {
    forall n :: n in s.txns[t].met ==> IsStamp(s, n) && 0 < s.txns[t].sstamp <= n
  }

  // A tracked read has been finished or is the one going on.
  ghost predicate TrackInv(x: Txn) {
    forall v :: v in x.rset ==> v in x.seen || (x.pc.Reading? && x.pc.v == v)
  }

  // ----- what the checks have in hand -----

  // `u` was found in `v`: it overwrote `v` unless it has aborted.
  ghost predicate Chases(s: State, v: Vid, u: nat) {
    && u in s.txns && Has(s, v)
    && (s.txns[u].state == Abrtd || At(s, v).sstamp == Xid(u) || (At(s, v).sstamp.Lsn? && Overwrites(s, v, u)))
  }

  // If `r` drew before `t` then it read the version under `t`'s head of `o`.
  ghost predicate Suspect(s: State, t: nat, o: nat, r: nat)
    requires t in s.txns
  {
    && r in s.txns
    && (0 < s.txns[r].cs < s.txns[t].cs ==>
          o in s.recs && |s.recs[o]| > 1 && Vid(o, |s.recs[o]| - 2) in s.txns[r].rset)
  }

  ghost predicate Suspects(s: State, t: nat, o: nat, cur: set<nat>)
    requires t in s.txns
  {
    forall q :: q in cur && q in s.rlist ==> Suspect(s, t, o, s.rlist[q])
  }

  ghost predicate OnRead(c: Cert) {
    || c.Owner? || c.State1? || c.Verify1? || c.End? || c.State2? || c.Verify2?
    || c.Spin? || c.SpinVerify? || c.TakeS? || c.TakeSVerify?
  }

  ghost predicate OnReader(c: Cert) {
    || c.ROwner? || c.RState? || c.REnd? || c.RVerify? || c.REnd2? || c.RState2? || c.RVerify2? || c.RSpin?
    || c.RSpinVerify?
  }

  ghost predicate ChaseInv(s: State, t: nat, c: Cert)
    requires t in s.txns
  {
    OnRead(c) && c.i < |s.txns[t].rset| ==> Chases(s, s.txns[t].rset[c.i], c.u)
  }

  ghost predicate SuspectInv(s: State, t: nat, c: Cert)
    requires t in s.txns
  {
    var x := s.txns[t];
    && (c.Scan? && c.j < |x.wset| ==> Suspects(s, t, x.wset[c.j], c.cur))
    && (c.XidOf? && c.j < |x.wset| ==> Suspects(s, t, x.wset[c.j], c.cur + {c.q}))
    && (OnReader(c) && c.j < |x.wset| ==> Suspects(s, t, x.wset[c.j], c.cur) && Suspect(s, t, x.wset[c.j], c.r))
    && (c.RSpinVerify? && c.st == Cmmtd ==> c.r in s.txns && s.txns[c.r].state == Cmmtd)
  }

  ghost predicate HandInv(s: State, t: nat)
    requires t in s.txns
  {
    s.txns[t].pc.Certify? ==> ChaseInv(s, t, s.txns[t].pc.c) && SuspectInv(s, t, s.txns[t].pc.c)
  }

  // ----- access stamps and reader bits -----

  ghost predicate AccessFrom(s: State) {
    forall v :: Stamped(s, v) ==> Accessed(s, v, At(s, v).xstamp)
  }

  // The access stamp of one's own new version was copied from the version below it.
  ghost predicate CopyFrom(s: State, o: nat) {
    o in s.recs && |s.recs[o]| > 0 ==>
      var c := s.recs[o];
      c[|c| - 1].xstamp == 0 || (|c| > 1 && Accessed(s, Vid(o, |c| - 2), c[|c| - 1].xstamp))
  }

  ghost predicate CopyInv(s: State, t: nat)
    requires t in s.txns
  {
    s.txns[t].state == Active ==> forall o :: o in s.txns[t].own ==> CopyFrom(s, o)
  }

  // Entries of the read set below this index have left the bitmaps.
  ghost function Cleared(x: Txn): nat {
    match x.pc
    case Post(i, _) => i
    case UndoReads(i) => i
    case UndoWrites(_, _) => |x.rset|
    case Done => |x.rset|
    case Unlisted => |x.rset|
    case Gone => |x.rset|
    case _ => 0
  }

  ghost predicate Holds(x: Txn, v: Vid) {
    exists k :: Cleared(x) <= k < |x.rset| && x.rset[k] == v
  }

  // A bit is set by the holder of its position, for a tracked read.
  ghost predicate BitFrom(s: State, v: Vid, q: nat) {
    q in s.rlist && s.rlist[q] in s.txns && Holds(s.txns[s.rlist[q]], v)
  }

  ghost predicate BitsFrom(s: State) {
    forall v, q :: Has(s, v) && q in At(s, v).readers ==> BitFrom(s, v, q)
  }

  ghost predicate TxnFrom(s: State, t: nat)
    requires t in s.txns
  {
    && LowInv(s, t) && HighInv(s, t) && MetInv(s, t) && TrackInv(s.txns[t]) && HandInv(s, t) && CopyInv(s, t)
  }

  ghost predicate From(s: State) {
    && AccessFrom(s) && BitsFrom(s)
    && forall t :: t in s.txns ==> TxnFrom(s, t)
  }

  // ----- what survives a step by anyone -----

  lemma ReadByCarry(s: State, s': State, a: nat, v: Vid, u: nat)
    requires Evolve(s, s', a) && Base(s) && ReadBy(s, v, u)
    ensures ReadBy(s', v, u) && s'.txns[u].cs == s.txns[u].cs
  {
    hide VerInv, OwnInv, Distinct, Keeps, Wrote, HeadKept;
    assert Grows(s.txns[u], s'.txns[u], s.clock);
    assert TxnInv(s.txns[u], s.clock);
  }

  lemma AccessedCarry(s: State, s': State, a: nat, v: Vid, n: nat)
    requires Evolve(s, s', a) && Base(s) && Stamped(s, v) && Accessed(s, v, n)
    ensures Accessed(s', v, n)
  {
    hide Evolve, Base, Born;
    BornKept(s, s', a, v);
    if u :| ReadBy(s, v, u) && n == s.txns[u].cs { ReadByCarry(s, s', a, v, u); }
  }

  lemma AccessCarries(s: State, s': State, a: nat, v: Vid, t: nat, n: nat)
    requires Evolve(s, s', a) && Base(s) && Stamped(s, v) && Access(s, v, t, n)
    ensures Access(s', v, t, n)
  {
    hide Evolve, Base, Born;
    BornKept(s, s', a, v);
    if u :| u != t && ReadBy(s, v, u) && n == s.txns[u].cs { ReadByCarry(s, s', a, v, u); }
  }

  // Whoever has not been certified is no certified reader.
  lemma AccessOthers(s: State, v: Vid, t: nat, n: nat)
    requires Accessed(s, v, n) && t in s.txns && !s.txns[t].decided
    ensures Access(s, v, t, n)
  {
  }

  lemma LeftCarry(s: State, s': State, a: nat, t: nat, v: Vid, q: nat)
    requires Evolve(s, s', a) && Base(s) && Base(s') && s.setup.clean && Left(s, t, v, q)
    ensures Left(s', t, v, q)
  {
    hide Base, Evolve;
    EvolveActor(s, s', a);
    EvolvedFlag(s, s', a);
    BornKept(s, s', a, v);
    KeptSuccessor(s, s', a, v);
    SettledWriter(s', a, v);
  }

  lemma KeptSuccessor(s: State, s': State, a: nat, v: Vid)
    requires Evolve(s, s', a) && Stamped(s, v) && At(s, v).sstamp.Lsn? && s.setup.clean
    ensures Stamped(s', v) && At(s', v).sstamp == At(s, v).sstamp
    ensures v.i + 1 < |s'.recs[v.o]| ==>
              || (v.i + 1 < |s.recs[v.o]| && s'.recs[v.o][v.i + 1].writer == s.recs[v.o][v.i + 1].writer)
              || (s'.recs[v.o][v.i + 1].writer == a && s'.txns[a].cs == 0)
  {
    assert Keeps(s, s', a, v.o, v.i);
    hide Wrote, HeadKept;
  }

  lemma IsStampCarry(s: State, s': State, a: nat, n: nat)
    requires Evolve(s, s', a) && Base(s) && IsStamp(s, n)
    ensures IsStamp(s', n)
  {
    hide Evolve, Base, Born;
    var v :| Stamped(s, v) && (n == At(s, v).clsn.n || n == Born(s, v));
    BornKept(s, s', a, v);
  }

  lemma HighCarry(s: State, s': State, a: nat, t: nat, q: nat)
    requires Evolve(s, s', a) && Base(s) && Base(s') && s.setup.clean && t in s.txns && HighFrom(s, t, q)
    ensures t in s'.txns && HighFrom(s', t, q)
  {
    hide Base, Left;
    assert Grows(s.txns[t], s'.txns[t], s.clock);
    hide Evolve;
    if v :| v in s.txns[t].seen && Left(s, t, v, q) { LeftCarry(s, s', a, t, v, q); }
  }

  lemma MetCarry(s: State, s': State, a: nat, t: nat)
    requires Evolve(s, s', a) && Base(s) && t in s.txns && t in s'.txns && MetInv(s, t)
    requires s'.txns[t].met == s.txns[t].met
    requires s.txns[t].sstamp == 0 || 0 < s'.txns[t].sstamp <= s.txns[t].sstamp
    ensures MetInv(s', t)
  {
    hide Base, Evolve, IsStamp;
    forall n | n in s'.txns[t].met ensures IsStamp(s', n) && 0 < s'.txns[t].sstamp <= n {
      IsStampCarry(s, s', a, n);
    }
  }

  lemma TakesCarry(s: State, s': State, a: nat, x: Txn, x': Txn, v: Vid, p: nat)
    requires Evolve(s, s', a) && Base(s) && Takes(s, x, v, p) && Knows(x', v)
    ensures Takes(s', x', v, p)
  {
    hide Evolve, Base;
    BornKept(s, s', a, v);
  }

  lemma OverwroteCarry(s: State, s': State, a: nat, t: nat, v: Vid, p: nat)
    requires Evolve(s, s', a) && Base(s) && Overwrote(s, t, v, p) && Overwrites(s', v, t)
    ensures Overwrote(s', t, v, p)
  {
    hide Evolve, Base, Access;
    OverwrittenIsStamped(s, v, t);
    AccessCarries(s, s', a, v, t, p);
  }

  // A watermark stays explained while nothing read or overwritten is forgotten.
  lemma LowCarry(s: State, s': State, a: nat, t: nat, p: nat)
    requires Evolve(s, s', a) && Base(s) && t in s.txns && t in s'.txns && LowFrom(s, t, p)
    requires forall v :: Knows(s.txns[t], v) ==> Knows(s'.txns[t], v)
    requires forall v :: Overwrites(s, v, t) ==> Overwrites(s', v, t)
    ensures LowFrom(s', t, p)
  {
    hide Evolve, Base, Knows, Overwrites, Access, Stamped;
    if v :| Takes(s, s.txns[t], v, p) {
      TakesCarry(s, s', a, s.txns[t], s'.txns[t], v, p);
    } else if v :| Overwrote(s, t, v, p) {
      OverwroteCarry(s, s', a, t, v, p);
    }
  }

  // ----- what the checks have in hand survives -----

  // A mark lasts until the transaction is certified or aborts.
  ghost predicate MarkKept(x: Txn, x': Txn, o: nat) {
    o in x.marked ==> x'.state == Abrtd || (o in x'.own && (o in x'.marked || x'.decided))
  }

  // The new table names only the fresh actor anew.
  ghost predicate TableMoves(s: State, s': State, a: nat) {
    forall q :: q in s'.rlist ==> (q in s.rlist && s'.rlist[q] == s.rlist[q]) || (s'.rlist[q] == a && a !in s.txns)
  }

  lemma MarksAreOwn(s: State, t: nat)
    requires Base(s) && t in s.txns
    ensures OwnInv(s, t) && s.txns[t].marked <= s.txns[t].own
  {
    hide VerInv, OwnInv, Distinct;
    OwnTxn(s, t);
  }

  // Owning the record means having overwritten the stamped version.
  lemma OwnerOverwrites(s: State, s': State, a: nat, v: Vid)
    requires Evolve(s, s', a) && Stamped(s, v) && Overwrites(s, v, a)
    requires a in s'.txns && OwnInv(s', a) && v.o in s'.txns[a].own
    ensures Overwrites(s', v, a)
  {
    assert Keeps(s, s', a, v.o, v.i);
  }

  lemma SuccessorHolds(s: State, v: Vid, u: nat)
    requires Base(s) && s.setup.clean && u in s.txns && Stamped(s, v) && Overwrites(s, v, u)
    ensures v.o in s.txns[u].marked ==> At(s, v).sstamp == Xid(u)
    ensures v.o !in s.txns[u].marked && s.txns[u].decided ==> At(s, v).sstamp.Lsn?
  {
    hide OwnInv, Distinct, TxnInv;
    assert VerInv(s, v.o, v.i);
  }

  lemma ChasesCarry(s: State, s': State, a: nat, v: Vid, u: nat)
    requires Evolve(s, s', a) && Base(s) && Base(s') && s.setup.clean && Stamped(s, v) && Chases(s, v, u)
    requires u in s'.txns && MarkKept(s.txns[u], s'.txns[u], v.o)
    ensures Chases(s', v, u)
  {
    hide Base, OwnInv, Born;
    assert Grows(s.txns[u], s'.txns[u], s.clock);
    hide Evolve;
    EvolveActor(s, s', a);
    EvolvedFlag(s, s', a);
    BornKept(s, s', a, v);
    if s.txns[u].state != Abrtd && s'.txns[u].state != Abrtd {
      if At(s, v).sstamp.Lsn? {
        KeptSuccessor(s, s', a, v);
        SettledWriter(s', a, v);
      } else {
        XidNamesOverwriter(s, v);
        MarksAreOwn(s', u);
        if a == u { OwnerOverwrites(s, s', a, v); } else { OverwritesCarry(s, s', a, u, v); }
        SuccessorHolds(s', v, u);
      }
    }
  }

  lemma ChaseCarry(s: State, s': State, a: nat, t: nat, c: Cert)
    requires Evolve(s, s', a) && Base(s) && Base(s') && s.setup.clean && t in s.txns && ChaseInv(s, t, c)
    requires t in s'.txns && s'.txns[t].rset == s.txns[t].rset && KnownInv(s, t)
    requires a in s.txns ==> forall o :: MarkKept(s.txns[a], s'.txns[a], o)
    ensures ChaseInv(s', t, c)
  {
    hide Base, Chases, MarkKept, Evolve, KnownInv, Stamped;
    var x := s.txns[t];
    if OnRead(c) && c.i < |x.rset| {
      KnownPoint(s, t, x.rset[c.i]);
      ChasedTxn(s, s', a, x.rset[c.i], c.u);
      ChasesCarry(s, s', a, x.rset[c.i], c.u);
    }
  }

  lemma ChasedTxn(s: State, s': State, a: nat, v: Vid, u: nat)
    requires Evolve(s, s', a) && Base(s) && Chases(s, v, u)
    requires a in s.txns ==> forall o :: MarkKept(s.txns[a], s'.txns[a], o)
    ensures u in s.txns && u in s'.txns && MarkKept(s.txns[u], s'.txns[u], v.o)
  {
    hide Keeps, Wrote, HeadKept;
    MarksAreOwn(s, u);
    if u != a && v.o in s.txns[u].marked { SameMarks(s, u, v.o); }
  }

  lemma SameMarks(s: State, u: nat, o: nat)
    requires Base(s) && u in s.txns && o in s.txns[u].marked
    ensures o in s.txns[u].own
  {
    MarksAreOwn(s, u);
  }

  lemma SuspectCarry(s: State, s': State, a: nat, t: nat, o: nat, r: nat)
    requires Evolve(s, s', a) && t in s.txns && t in s'.txns && Suspect(s, t, o, r)
    requires s'.txns[t].cs == s.txns[t].cs <= s.clock && HeadKept(s, s', o)
    ensures Suspect(s', t, o, r)
  {
    hide Keeps, Wrote;
    assert Grows(s.txns[r], s'.txns[r], s.clock);
  }

  lemma SuspectsCarry(s: State, s': State, a: nat, t: nat, o: nat, cur: set<nat>)
    requires Evolve(s, s', a) && TableMoves(s, s', a) && t in s.txns && t in s'.txns && Suspects(s, t, o, cur)
    requires s'.txns[t].cs == s.txns[t].cs <= s.clock && HeadKept(s, s', o)
    ensures Suspects(s', t, o, cur)
  {
    forall q | q in cur && q in s'.rlist ensures Suspect(s', t, o, s'.rlist[q]) {
      if q in s.rlist && s'.rlist[q] == s.rlist[q] { SuspectCarry(s, s', a, t, o, s.rlist[q]); }
    }
  }

  lemma CertifierHeads(s: State, s': State, a: nat, t: nat, j: nat)
    requires Evolve(s, s', a) && Base(s) && t in s.txns && t != a && s.txns[t].pc.Certify? && j < |s.txns[t].wset|
    ensures HeadKept(s, s', s.txns[t].wset[j])
  {
    hide VerInv, OwnInv, Distinct, Keeps, Wrote, HeadKept;
    OwnTxn(s, t);
  }

  lemma SuspectInvCarry(s: State, s': State, a: nat, t: nat)
    requires Evolve(s, s', a) && Base(s) && TableMoves(s, s', a) && t in s.txns && t != a
    requires s.txns[t].pc.Certify? && SuspectInv(s, t, s.txns[t].pc.c)
    ensures t in s'.txns && SuspectInv(s', t, s.txns[t].pc.c)
  {
    hide Base, TableMoves, Suspect, Suspects, HeadKept, Keeps, Wrote;
    var x, c := s.txns[t], s.txns[t].pc.c;
    assert s'.txns[t] == x;
    if (c.Scan? || c.XidOf? || OnReader(c)) && c.j < |x.wset| {
      CertifierHeads(s, s', a, t, c.j);
      ClockBounds(s, t);
      SuspectsCarry(s, s', a, t, x.wset[c.j], if c.XidOf? then c.cur + {c.q} else c.cur);
      if OnReader(c) { SuspectCarry(s, s', a, t, x.wset[c.j], c.r); }
    }
    if c.RSpinVerify? && c.st == Cmmtd { assert Grows(s.txns[c.r], s'.txns[c.r], s.clock); }
  }

  lemma ClockBounds(s: State, t: nat)
    requires Base(s) && t in s.txns
    ensures s.txns[t].cs <= s.clock
  {
    hide VerInv, OwnInv, Distinct;
    OwnTxn(s, t);
  }

  lemma CopyCarry(s: State, s': State, a: nat, o: nat)
    requires Evolve(s, s', a) && Base(s) && HeadKept(s, s', o) && CopyFrom(s, o)
    ensures CopyFrom(s', o)
  {
    hide Evolve, Accessed, Base;
    var c := s.recs[o];
    if c[|c| - 1].xstamp > 0 {
      BelowIsStamped(s, o);
      AccessedCarry(s, s', a, Vid(o, |c| - 2), c[|c| - 1].xstamp);
    }
  }

  lemma BelowIsStamped(s: State, o: nat)
    requires Base(s) && o in s.recs && |s.recs[o]| > 1
    ensures Stamped(s, Vid(o, |s.recs[o]| - 2))
  {
    OverwrittenIsStamped(s, Vid(o, |s.recs[o]| - 2), s.recs[o][|s.recs[o]| - 1].writer);
  }

  // Steps of others leave a transaction's watermarks explained.
  lemma OthersFrom(s: State, s': State, a: nat, t: nat)
    requires Evolve(s, s', a) && Base(s) && Base(s') && s.setup.clean && TableMoves(s, s', a)
    requires t in s.txns && t != a && TxnFrom(s, t) && KnownInv(s, t)
    requires a in s.txns ==> forall o :: MarkKept(s.txns[a], s'.txns[a], o)
    ensures t in s'.txns && TxnFrom(s', t)
  {
    hide Base, LowFrom, HighFrom, MetInv, TrackInv, ChaseInv, SuspectInv, CopyFrom, Keeps, Wrote, HeadKept,
         KnownInv, MarkKept, TableMoves;
    assert s'.txns[t] == s.txns[t];
    forall v | Overwrites(s, v, t) ensures Overwrites(s', v, t) { OverwritesCarry(s, s', a, t, v); }
    hide Overwrites, Knows;
    if s.txns[t].state != Abrtd && s.txns[t].pc != Doomed { LowCarry(s, s', a, t, s.txns[t].pstamp); }
    HighCarry(s, s', a, t, s.txns[t].sstamp);
    MetCarry(s, s', a, t);
    if s.txns[t].pc.Certify? {
      ChaseCarry(s, s', a, t, s.txns[t].pc.c);
      SuspectInvCarry(s, s', a, t);
    }
    forall o | s.txns[t].state == Active && o in s.txns[t].own ensures CopyFrom(s', o) {
      assert HeadKept(s, s', o);
      CopyCarry(s, s', a, o);
    }
  }
}
