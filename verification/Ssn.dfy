/**
 The serial safety net at thread granularity: `ssn_read`, the stamp handling of `Update`, the
 parallel pre-commit and the post-commit, one load or store a step, on top of `Engine`.
 A transaction's `pstamp` is its low watermark and its `sstamp` its high watermark.
 */
module Ssn {
  import opened Stamps
  import opened Engine

  // Words of a readers bitmap: 96 threads of 8 coroutines, 64 positions a word.
  const WORDS: nat := 12

  // ----- forward processing -----

  // Without assigned positions the place in the global table may be anybody's.
  ghost predicate BeginTxn(s: State, s': State, t: nat, q: nat) {
    q < 64 * WORDS && (s.setup.placed ==> q !in s.rlist) && Begin(s, s', t, q, s.rlist[q := t])
  }

  // The bits of a worker's entry: the one at its position, or none if no position was assigned.
  function Entry(s: State, x: Txn): set<nat> {
    if s.setup.placed then {x.slot} else {}
  }

  // The version walk hands `ssn_read` a stamped version; its creator becomes a predecessor.
  ghost predicate ReadPick(s: State, s': State, t: nat, v: Vid) {
    && t in s.txns && s.txns[t].pc == Idle && Stamped(s, v)
    && var x := s.txns[t];
       s' == SetTxn(s, t, x.(pc := Reading(v, LoadS), pstamp := Max(x.pstamp, At(s, v).clsn.n)))
  }

  // `n` is the stamp of a committed version, or the commit stamp of its creator.
  ghost predicate IsStamp(s: State, n: nat) {
    exists v :: Stamped(s, v) && (n == At(s, v).clsn.n || n == Born(s, v))
  }

  // A walk that passes over a version stamped after the snapshot lowers a high watermark already set.
  ghost predicate MeetInvisible(s: State, s': State, t: nat, n: nat) {
    && t in s.txns && s.txns[t].pc == Idle && n > 0 && IsStamp(s, n)
    && var x := s.txns[t];
       s' == SetTxn(s, t, x.(sstamp := Min(x.sstamp, n), met := if x.sstamp > 0 then x.met + {n} else x.met))
  }

  // A committed overwriter lowers the high watermark; otherwise the read must be tracked.
  ghost predicate ReadStamp(s: State, s': State, t: nat) {
    && t in s.txns && s.txns[t].pc.Reading? && s.txns[t].pc.r == LoadS && Has(s, s.txns[t].pc.v)
    && var x := s.txns[t]; var v := x.pc.v; var sc := At(s, v).sstamp;
       s' == SetTxn(s, t,
         if sc.Lsn? then
           x.(pc := Idle, seen := x.seen + {v}, sstamp := if x.sstamp > sc.n || x.sstamp == 0 then sc.n else x.sstamp)
         else if sc == Xid(t) then x.(pc := Idle, seen := x.seen + {v})
         else x.(pc := Reading(v, Push)))
  }

  ghost predicate ReadPush(s: State, s': State, t: nat) {
    && t in s.txns && s.txns[t].pc.Reading? && s.txns[t].pc.r == Push
    && var x := s.txns[t];
       s' == SetTxn(s, t, x.(pc := Reading(x.pc.v, Register), rset := x.rset + [x.pc.v]))
  }

  ghost predicate ReadRegister(s: State, s': State, t: nat) {
    && t in s.txns && s.txns[t].pc.Reading? && s.txns[t].pc.r == Register && Has(s, s.txns[t].pc.v)
    && var x := s.txns[t]; var v := x.pc.v;
       s' == SetTxn(SetVer(s, v, At(s, v).(readers := At(s, v).readers + Entry(s, x))), t,
                    x.(pc := Idle, seen := x.seen + {v}))
  }

  ghost predicate UpdateTakeX(s: State, s': State, t: nat) {
    && t in s.txns && s.txns[t].pc.Updating? && s.txns[t].pc.p == TakeX
    && var x := s.txns[t]; var o := x.pc.o;
       && o in s.recs && |s.recs[o]| > 1
       && s' == SetTxn(s, t, x.(pc := Updating(o, CopyX), pstamp := Max(x.pstamp, s.recs[o][|s.recs[o]| - 2].xstamp)))
  }

  // The early exclusion test of a first update: the version just installed is unlinked.
  ghost predicate EarlyUnlink(s: State, s': State, t: nat) {
    TakeBack(s, s', t) && 0 < s.txns[t].sstamp <= s.txns[t].pstamp
  }

  ghost predicate UpdateCopyX(s: State, s': State, t: nat) {
    && t in s.txns && s.txns[t].pc.Updating? && s.txns[t].pc.p == CopyX
    && var x := s.txns[t]; var o := x.pc.o;
       && o in s.recs && |s.recs[o]| > 1
       && var l := |s.recs[o]|;
          s' == SetTxn(SetVer(s, Vid(o, l - 1), s.recs[o][l - 1].(xstamp := s.recs[o][l - 2].xstamp)), t,
                       x.(pc := Updating(o, MarkS)))
  }

  // Updating one's own unstamped version replaces it under the same stamps.
  ghost predicate Rewrite(s: State, s': State, t: nat, o: nat) {
    && t in s.txns && s.txns[t].pc == Idle && o in s.txns[t].wset && o in s.recs && |s.recs[o]| > 0
    && var x := s.txns[t];
       s' == SetTxn(s, t, x.(pstamp := Max(x.pstamp, s.recs[o][|s.recs[o]| - 1].xstamp)))
  }

  // ----- pre-commit: reads -----

  ghost predicate InitHigh(s: State, s': State, t: nat) {
    && t in s.txns && s.txns[t].pc == Certify(InitS)
    && var x := s.txns[t];
       s' == SetTxn(s, t, x.(pc := Certify(Load(0)), sstamp := if x.sstamp == 0 then x.cs else x.sstamp))
  }

  // The overwriter of read `i` was decided: its high watermark is in the version.
  ghost predicate LoadSettled(s: State, s': State, t: nat) {
    && t in s.txns && s.txns[t].pc.Certify? && s.txns[t].pc.c.Load?
    && var x := s.txns[t]; var i := x.pc.c.i;
       && i < |x.rset| && Has(s, x.rset[i]) && At(s, x.rset[i]).sstamp.Lsn?
       && s' == SetTxn(s, t, x.(pc := Certify(Load(i + 1)), sstamp := Min(x.sstamp, At(s, x.rset[i]).sstamp.n)))
  }

  ghost predicate ReadsDone(s: State, s': State, t: nat) {
    && t in s.txns && s.txns[t].pc == Certify(Load(|s.txns[t].rset|))
    && s' == SetPc(s, t, Certify(Scan(0, 0, {})))
  }

  // The overwriter drew a smaller stamp: wait for its outcome, then take its high watermark.
  ghost predicate CheckSuccessor(s: State, s': State, t: nat) {
    && t in s.txns && s.txns[t].pc.Certify?
    && var x := s.txns[t];
       match x.pc.c
       case Verify2(i, u, e, st) =>
         && u in s.txns && !s.txns[u].freed && st != Abrtd && 0 < e < x.cs
         && s' == SetPc(s, t, Certify(if st == Committing then Spin(i, u) else TakeS(i, u)))
       case Spin(i, u) =>
         u in s.txns && s' == SetPc(s, t, Certify(SpinVerify(i, u, s.txns[u].state)))
       case SpinVerify(i, u, st) =>
         && u in s.txns
         && s' == SetPc(s, t, Certify(if s.txns[u].freed then Load(i)
                                      else if st == Cmmtd then TakeS(i, u)
                                      else if st == Abrtd then Load(i + 1)
                                      else Spin(i, u)))
       case TakeS(i, u) =>
         u in s.txns && s' == SetPc(s, t, Certify(TakeSVerify(i, u, s.txns[u].sstamp)))
       case TakeSVerify(i, u, sv) =>
         && u in s.txns
         && s' == (if s.txns[u].freed then SetPc(s, t, Certify(Load(i)))
                   else SetTxn(s, t, x.(pc := Certify(Load(i + 1)), sstamp := Min(x.sstamp, sv))))
       case _ => false
  }

  // ----- pre-commit: writes -----

  // The scan point of a write `j` that is still in the write set.
  ghost predicate AtScan(s: State, t: nat) {
    && t in s.txns && s.txns[t].pc.Certify? && s.txns[t].pc.c.Scan?
    && s.txns[t].pc.c.j < |s.txns[t].wset| && s.txns[t].wset[s.txns[t].pc.c.j] in s.recs
  }

  ghost predicate WritesDone(s: State, s': State, t: nat) {
    && t in s.txns && s.txns[t].pc.Certify? && s.txns[t].pc.c.Scan? && s.txns[t].pc.c.j >= |s.txns[t].wset|
    && s' == SetPc(s, t, Certify(Final))
  }

  // An insert overwrites nothing.
  ghost predicate SkipInsert(s: State, s': State, t: nat) {
    && AtScan(s, t)
    && var j := s.txns[t].pc.c.j;
       |s.recs[s.txns[t].wset[j]]| <= 1 && s' == SetPc(s, t, Certify(Scan(j + 1, 0, {})))
  }

  // The bits of word `k` of a readers bitmap.
  function WordOf(v: Ver, k: nat): set<nat> {
    set q | q in v.readers && q / 64 == k
  }

  // Load the next word of the readers bitmap of the overwritten version.
  ghost predicate LoadWord(s: State, s': State, t: nat) {
    && AtScan(s, t)
    && var j, k := s.txns[t].pc.c.j, s.txns[t].pc.c.k; var c := s.recs[s.txns[t].wset[j]];
       && |c| > 1 && s.txns[t].pc.c.cur == {}
       && s' == SetPc(s, t, Certify(if k < WORDS then Scan(j, k + 1, WordOf(c[|c| - 2], k))
                                    else ReadX(j)))
  }

  // Take one bit of the loaded word, skipping one's own.
  ghost predicate TakeBit(s: State, s': State, t: nat, q: nat) {
    && AtScan(s, t) && |s.recs[s.txns[t].wset[s.txns[t].pc.c.j]]| > 1
    && var j, k, cur := s.txns[t].pc.c.j, s.txns[t].pc.c.k, s.txns[t].pc.c.cur;
       && q in cur
       && s' == SetPc(s, t, Certify(if q == s.txns[t].slot then Scan(j, k, cur - {q}) else XidOf(j, k, cur - {q}, q)))
  }

  ghost predicate LoadReader(s: State, s': State, t: nat) {
    && t in s.txns && s.txns[t].pc.Certify? && s.txns[t].pc.c.XidOf?
    && var c := s.txns[t].pc.c;
       s' == SetPc(s, t, Certify(if c.q in s.rlist then ROwner(c.j, c.k, c.cur, s.rlist[c.q])
           else Scan(c.j, c.k, c.cur)))
  }

  // Load one field of the reader's context.
  ghost predicate LoadContext(s: State, s': State, t: nat) {
    && t in s.txns && s.txns[t].pc.Certify?
    && match s.txns[t].pc.c
       case ROwner(j, k, cur, r) =>
         && r in s.txns
         && s' == SetPc(s, t, Certify(if s.txns[r].freed then Scan(j, k, cur) else RState(j, k, cur, r)))
       case RState(j, k, cur, r) =>
         r in s.txns && s' == SetPc(s, t, Certify(REnd(j, k, cur, r, s.txns[r].state)))
       case REnd(j, k, cur, r, st) =>
         r in s.txns && s' == SetPc(s, t, Certify(RVerify(j, k, cur, r, st, s.txns[r].end)))
       case REnd2(j, k, cur, r) =>
         r in s.txns && s' == SetPc(s, t, Certify(RState2(j, k, cur, r, s.txns[r].end)))
       case RState2(j, k, cur, r, e) =>
         r in s.txns && s' == SetPc(s, t, Certify(RVerify2(j, k, cur, r, e, s.txns[r].state)))
       case RSpin(j, k, cur, r, e) =>
         r in s.txns && s' == SetPc(s, t, Certify(RSpinVerify(j, k, cur, r, e, s.txns[r].state)))
       case _ => false
  }

  // Check that the loaded fields belong to the reader; one with a smaller stamp is waited for.
  ghost predicate VerifyReader(s: State, s': State, t: nat) {
    && t in s.txns && s.txns[t].pc.Certify?
    && var x := s.txns[t];
       match x.pc.c
       case RVerify(j, k, cur, r, st, e) =>
         && r in s.txns
         && s' == SetPc(s, t, Certify(if s.txns[r].freed then Scan(j, k, cur)
                                      else if st != Active && e == 0 then REnd2(j, k, cur, r)
                                      else if st == Active || e > x.cs then Scan(j, k, cur)
                                      else RSpin(j, k, cur, r, e)))
       case RVerify2(j, k, cur, r, e, st) =>
         && r in s.txns
         && s' == SetPc(s, t, Certify(if s.txns[r].freed || st == Abrtd then Scan(j, k, cur)
                                      else if e == 0 then REnd2(j, k, cur, r)
                                      else if st == Active || e > x.cs then Scan(j, k, cur)
                                      else RSpin(j, k, cur, r, e)))
       case RSpinVerify(j, k, cur, r, e, st) =>
         && r in s.txns
         && s' == (if s.txns[r].freed || st == Abrtd then SetPc(s, t, Certify(Scan(j, k, cur)))
                   else if st == Cmmtd then
                     SetTxn(s, t, x.(pc := Certify(Scan(j, k, cur)), pstamp := Max(x.pstamp, e)))
                   else SetPc(s, t, Certify(RSpin(j, k, cur, r, e))))
       case _ => false
  }

  // Readers that left the bitmap are covered by the version's access stamp.
  ghost predicate LoadAccess(s: State, s': State, t: nat) {
    && t in s.txns && s.txns[t].pc.Certify? && s.txns[t].pc.c.ReadX?
    && var x := s.txns[t]; var j := x.pc.c.j;
       && j < |x.wset| && x.wset[j] in s.recs && |s.recs[x.wset[j]]| > 1
       && var c := s.recs[x.wset[j]];
          s' == SetTxn(s, t, x.(pc := Certify(Scan(j + 1, 0, {})), pstamp := Max(x.pstamp, c[|c| - 2].xstamp)))
  }

  // The final exclusion-window test.
  ghost predicate PassExclusion(s: State, s': State, t: nat) {
    Decide(s, s', t) && s.txns[t].pstamp < s.txns[t].sstamp
  }

  // ----- post-commit -----

  ghost predicate StampX(s: State, s': State, t: nat) {
    && t in s.txns && s.txns[t].pc.Stamping? && s.txns[t].pc.k == WriteX
    && var x := s.txns[t]; var j := x.pc.j;
       && j < |x.wset| && x.wset[j] in s.recs && |s.recs[x.wset[j]]| > 0
       && var v := Vid(x.wset[j], |s.recs[x.wset[j]]| - 1);
          s' == SetTxn(SetVer(s, v, At(s, v).(xstamp := x.cs)), t, x.(pc := Stamping(j, WriteC)))
  }

  // Post-commit of read `i`, first part: hold the bitmap position until an older overwriter is gone.
  ghost predicate PostWait(s: State, s': State, t: nat) {
    && t in s.txns && s.txns[t].pc.Post?
    && var x := s.txns[t]; var i := x.pc.i;
       if i >= |x.rset| then
         s' == SetPc(s, t, Done)
       else
         && Has(s, x.rset[i])
         && match x.pc.q
            case PLoad =>
              var sc := At(s, x.rset[i]).sstamp;
              s' == SetPc(s, t, Post(i, if sc.Xid? && sc.t != t then POwner(sc.t) else PSetX))
            case POwner(u) =>
              u in s.txns && s' == SetPc(s, t, Post(i, if s.txns[u].freed then PSetX else PEnd(u)))
            case PEnd(u) =>
              u in s.txns && s' == SetPc(s, t, Post(i, PVerify(u, s.txns[u].end)))
            case PVerify(u, e) =>
              u in s.txns && s' == SetPc(s, t, Post(i, if !s.txns[u].freed && 0 < e < x.cs then PSpin(u) else PSetX))
            case PSpin(u) =>
              u in s.txns && s' == SetPc(s, t, Post(i, PSpinVerify(u, s.txns[u].state)))
            case PSpinVerify(u, st) =>
              u in s.txns && s' == SetPc(s, t, Post(i, if s.txns[u].freed || st == Cmmtd || st == Abrtd then PSetX
                  else PSpin(u)))
            case _ => false
  }

  // Second part: raise the access stamp.
  ghost predicate PostSetX(s: State, s': State, t: nat) {
    && t in s.txns && s.txns[t].pc.Post? && s.txns[t].pc.q == PSetX
    && var x := s.txns[t]; var i := x.pc.i;
       && i < |x.rset| && Has(s, x.rset[i])
       && var v := x.rset[i];
          s' == SetTxn(SetVer(s, v, At(s, v).(xstamp := Max(At(s, v).xstamp, x.cs))), t, x.(pc := Post(i, PClear)))
  }

  // Third part: leave the bitmap.
  ghost predicate PostClear(s: State, s': State, t: nat) {
    && t in s.txns && s.txns[t].pc.Post? && s.txns[t].pc.q == PClear
    && var x := s.txns[t]; var i := x.pc.i;
       && i < |x.rset| && Has(s, x.rset[i])
       && var v := x.rset[i];
          s' == SetTxn(SetVer(s, v, At(s, v).(readers := At(s, v).readers - Entry(s, x))), t,
              x.(pc := Post(i + 1, PLoad)))
  }

  ghost predicate UndoRead(s: State, s': State, t: nat) {
    && t in s.txns && s.txns[t].pc.UndoReads?
    && var x := s.txns[t]; var i := x.pc.i;
       && i < |x.rset| && Has(s, x.rset[i])
       && var v := x.rset[i];
          s' == SetTxn(SetVer(s, v, At(s, v).(readers := At(s, v).readers - Entry(s, x))), t,
              x.(pc := UndoReads(i + 1)))
  }

  ghost predicate ReadsUndone(s: State, s': State, t: nat) {
    && t in s.txns && s.txns[t].pc == UndoReads(|s.txns[t].rset|)
    && s' == SetPc(s, t, UndoWrites(0, false))
  }

  ghost predicate Unlist(s: State, s': State, t: nat) {
    && t in s.txns && s.txns[t].pc == Done
    && s' == SetPc(s.(rlist := s.rlist - {s.txns[t].slot}), t, Unlisted)
  }

  ghost predicate FreeUnlisted(s: State, s': State, t: nat) {
    Free(s, s', t) && s.txns[t].pc == Unlisted
  }

  // ----- runs -----

  ghost predicate Shared(s: State, s': State, t: nat) {
    || AddToWriteSet(s, s', t) || EnterCommit(s, s', t) || Publish(s, s', t) || Probe(s, s', t)
    || SetCommitted(s, s', t) || StartAbort(s, s', t) || EndAbort(s, s', t) || FreeUnlisted(s, s', t)
  }

  ghost predicate Step(s: State, s': State, t: nat) {
    || (exists q :: BeginTxn(s, s', t, q))
    || (exists o :: Insert(s, s', t, o)) || (exists o :: Install(s, s', t, o)) || (exists o :: Rewrite(s, s', t, o))
    || (exists n :: MeetInvisible(s, s', t, n)) || (exists v :: ReadPick(s, s', t, v))
    || ReadStamp(s, s', t) || ReadPush(s, s', t) || ReadRegister(s, s', t)
    || UpdateTakeX(s, s', t) || EarlyUnlink(s, s', t) || UpdateCopyX(s, s', t) || MarkSuccessor(s, s', t)
    || (exists n :: Draw(s, s', t, n)) || Shared(s, s', t)
    || InitHigh(s, s', t) || LoadSettled(s, s', t) || ReadsDone(s, s', t) || CheckSuccessor(s, s', t)
    || WritesDone(s, s', t) || SkipInsert(s, s', t) || LoadWord(s, s', t) || (exists q :: TakeBit(s, s', t, q))
    || LoadReader(s, s', t) || LoadContext(s, s', t) || VerifyReader(s, s', t) || LoadAccess(s, s', t)
        || PassExclusion(s, s', t)
    || StampSuccessor(s, s', t) || StampX(s, s', t) || StampClsn(s, s', t)
    || PostWait(s, s', t) || PostSetX(s, s', t) || PostClear(s, s', t)
    || UndoRead(s, s', t) || ReadsUndone(s, s', t) || UndoSuccessor(s, s', t) || Unlink(s, s', t) || Unlist(s, s', t)
  }

  ghost predicate Next(s: State, s': State) {
    exists t :: Step(s, s', t)
  }

  ghost predicate Run(r: seq<State>) {
    |r| > 0 && Init(r[0]) && r[0].setup.ssn && r[0].setup.clean && forall k :: 0 < k < |r| ==> Next(r[k - 1], r[k])
  }

  // ----- the invariant -----

  // The global table names transactions, and nobody is in a bitmap without a position.
  ghost predicate TableInv(s: State) {
    && (forall q :: q in s.rlist ==> s.rlist[q] in s.txns)
    && (!s.setup.placed ==> forall v :: Has(s, v) ==> At(s, v).readers == {})
  }

  // Reader positions: a live transaction holds its position in the global table.
  ghost predicate SlotInv(s: State) {
    s.setup.placed ==>
    && (forall q :: q in s.rlist ==> s.rlist[q] in s.txns && s.txns[s.rlist[q]].slot == q)
    && (forall t :: t in s.txns ==>
          if s.txns[t].pc.Unlisted? || s.txns[t].pc.Gone? then
            s.txns[t].slot in s.rlist ==> s.rlist[s.txns[t].slot] != t
          else
            s.txns[t].slot < 64 * WORDS && s.txns[t].slot in s.rlist && s.rlist[s.txns[t].slot] == t)
  }

  // An access stamp is at least the commit stamp of the creator.
  ghost predicate AccessInv(s: State) {
    forall v :: Stamped(s, v) ==> Born(s, v) <= At(s, v).xstamp
  }

  ghost predicate Knows(x: Txn, v: Vid) {
    v in x.seen || v in x.rset || (x.pc.Reading? && x.pc.v == v)
  }

  // The stamps of everything read are covered by the low watermark, and the creators drew earlier.
  ghost predicate KnownInv(s: State, t: nat)
    requires t in s.txns
  {
    var x := s.txns[t];
    forall v :: Knows(x, v) ==> Stamped(s, v) && At(s, v).clsn.n <= x.pstamp && (x.cs > 0 ==> Born(s, v) < x.cs)
  }

  // The overwriter of `v` had been decided when `t` read it.
  ghost predicate Settled(s: State, x: Txn, v: Vid) {
    && Has(s, v) && At(s, v).sstamp.Lsn? && 0 < x.sstamp <= At(s, v).sstamp.n
    && v.i + 1 < |s.recs[v.o]|
    && var w := s.recs[v.o][v.i + 1].writer; w in s.txns && (x.cs > 0 ==> s.txns[w].cs < x.cs)
  }

  // A read is tracked, or its overwriter is accounted for, or is the reader itself.
  ghost predicate Accounted(s: State, t: nat, v: Vid)
    requires t in s.txns
  {
    v in s.txns[t].rset || Settled(s, s.txns[t], v) || (Overwrites(s, v, t) && v.o in s.txns[t].wset)
  }

  ghost predicate SeenInv(s: State, t: nat)
    requires t in s.txns
  {
    s.txns[t].state != Abrtd ==> forall v :: v in s.txns[t].seen ==> Accounted(s, t, v)
  }

  // Entries of the read set below this index have been published through `xstamp`.
  ghost function Open(x: Txn): nat {
    match x.pc
    case Post(i, _) => i
    case Done => |x.rset|
    case Unlisted => |x.rset|
    case Gone => |x.rset|
    case _ => 0
  }

  // The handshake: a tracked reader is in the bitmap, or its commit stamp is covered by `xstamp`.
  ghost predicate BitsInv(s: State, t: nat)
    requires t in s.txns
  {
    var x := s.txns[t];
    s.setup.placed && x.state != Abrtd ==>
      forall k :: 0 <= k < |x.rset| && !(x.pc.Reading? && x.pc.r == Register && k == |x.rset| - 1) ==>
        && Has(s, x.rset[k])
        && ((k >= Open(x) && x.slot in At(s, x.rset[k]).readers) || 0 < x.cs <= At(s, x.rset[k]).xstamp)
  }

  // The creator of everything overwritten is covered by the low watermark.
  ghost predicate PrevInv(s: State, t: nat)
    requires t in s.txns
  {
    var x := s.txns[t];
    x.state != Abrtd ==>
      forall v :: Overwrites(s, v, t) && Stamped(s, v) && x.pc != Updating(v.o, TakeX) ==> Born(s, v) <= x.pstamp
  }

  ghost predicate BoundInv(x: Txn, clock: nat) {
    && x.sstamp <= clock
    && (x.cs > 0 ==> x.sstamp <= x.cs)
    && (x.decided || (x.pc.Certify? && x.pc.c != InitS) ==> x.sstamp > 0)
    && (x.decided ==> x.pstamp < x.sstamp)
  }

  ghost predicate ReadCovered(s: State, t: nat, v: Vid)
    requires t in s.txns
  {
    forall w :: Danger(s, t, v, w) ==> s.txns[w].decided && s.txns[t].sstamp <= s.txns[w].sstamp
  }

  ghost predicate ReadsCovered(s: State, t: nat, n: nat)
    requires t in s.txns
  {
    n <= |s.txns[t].rset| && forall k :: 0 <= k < n ==> ReadCovered(s, t, s.txns[t].rset[k])
  }

  // How many reads have been checked.
  ghost function Checked(x: Txn): nat {
    if x.decided then |x.rset|
    else if !x.pc.Certify? || x.pc.c == InitS then 0
    else if x.pc.c.Load? || x.pc.c.Owner? || x.pc.c.State1? || x.pc.c.Verify1? || x.pc.c.End? || x.pc.c.State2?
            || x.pc.c.Verify2? || x.pc.c.Spin? || x.pc.c.SpinVerify? || x.pc.c.TakeS? || x.pc.c.TakeSVerify?
                then x.pc.c.i
    else |x.rset|
  }

  // `r` tracked a read of `v` with a position in the bitmap, drew a smaller stamp than `t`, and has
  // not aborted.
  ghost predicate Earlier(s: State, t: nat, v: Vid, r: nat) {
    && s.setup.placed && t in s.txns && r in s.txns && r != t
    && 0 < s.txns[r].cs < s.txns[t].cs && s.txns[r].state != Abrtd
    && v in s.txns[r].rset
  }

  ghost predicate WriteCovered(s: State, t: nat, o: nat)
    requires t in s.txns
  {
    forall v: Vid, r :: v.o == o && Overwrites(s, v, t) && Earlier(s, t, v, r) ==> s.txns[r].cs <= s.txns[t].pstamp
  }

  ghost predicate WritesCovered(s: State, t: nat, n: nat)
    requires t in s.txns
  {
    n <= |s.txns[t].wset| && forall k :: 0 <= k < n ==> WriteCovered(s, t, s.txns[t].wset[k])
  }

  // How many writes have been checked.
  ghost function Scanned(x: Txn): nat {
    if x.decided then |x.wset|
    else if !x.pc.Certify? then 0
    else
      match x.pc.c
      case Scan(j, _, _) => j
      case XidOf(j, _, _, _) => j
      case ROwner(j, _, _, _) => j
      case RState(j, _, _, _) => j
      case REnd(j, _, _, _, _) => j
      case RVerify(j, _, _, _, _, _) => j
      case REnd2(j, _, _, _) => j
      case RState2(j, _, _, _, _) => j
      case RVerify2(j, _, _, _, _, _) => j
      case RSpin(j, _, _, _, _) => j
      case RSpinVerify(j, _, _, _, _, _) => j
      case ReadX(j) => j
      case Final => |x.wset|
      case _ => 0
  }

  // `r` read the version under `t`'s new head of `o`, and neither stamp covers it yet.
  ghost predicate Pending(s: State, t: nat, o: nat, r: nat) {
    && o in s.recs && |s.recs[o]| > 1
    && Earlier(s, t, Vid(o, |s.recs[o]| - 2), r)
    && s.txns[r].cs > s.txns[t].pstamp
    && s.txns[r].cs > s.recs[o][|s.recs[o]| - 2].xstamp
  }

  // Every reader still pending sits in a word not loaded yet, in `cur`, or is `r0`; without
  // positions no reader is ever found.
  ghost predicate ScanInv(s: State, t: nat, j: nat, k: nat, cur: set<nat>, r0: int)
    requires t in s.txns
  {
    && j < |s.txns[t].wset| && k <= WORDS && (cur != {} || r0 >= 0 ==> s.setup.placed)
    && forall r :: Pending(s, t, s.txns[t].wset[j], r) ==>
         s.txns[r].slot / 64 >= k || s.txns[r].slot in cur || r == r0
  }

  // The reader being looked at: `st` and `e` are what was loaded from its context.
  ghost predicate Probed(s: State, t: nat, j: nat, r: nat, st: Status, e: nat)
    requires t in s.txns && j < |s.txns[t].wset|
  {
    && r in s.txns && r != t
    && (st == Active || st == Abrtd ==> !Pending(s, t, s.txns[t].wset[j], r))
    && (e > 0 ==> e == s.txns[r].end == s.txns[r].cs)
  }

  ghost predicate CertInv(s: State, t: nat, c: Cert)
    requires t in s.txns
  {
    var x := s.txns[t];
    match c
    case Spin(i, u) =>
      && i < |x.rset| && u in s.txns && Only(s, t, x.rset[i], u)
      && 0 < s.txns[u].end == s.txns[u].cs < x.cs
    case SpinVerify(i, u, st) =>
      && i < |x.rset| && u in s.txns && Only(s, t, x.rset[i], u)
      && 0 < s.txns[u].end == s.txns[u].cs < x.cs
      && (st == Abrtd ==> !Danger(s, t, x.rset[i], u)) && (st == Cmmtd ==> s.txns[u].state == Cmmtd)
    case TakeS(i, u) => i < |x.rset| && u in s.txns && Only(s, t, x.rset[i], u) && s.txns[u].state == Cmmtd
    case TakeSVerify(i, u, sv) =>
      && i < |x.rset| && u in s.txns && Only(s, t, x.rset[i], u) && s.txns[u].state == Cmmtd
      && sv == s.txns[u].sstamp
    case Scan(j, k, cur) => j <= |x.wset| && (j < |x.wset| ==> ScanInv(s, t, j, k, cur, -1))
    case XidOf(j, k, cur, q) =>
      && s.setup.placed && j < |x.wset| && k <= WORDS && q != x.slot
      && (forall r :: Pending(s, t, x.wset[j], r) ==>
            s.txns[r].slot / 64 >= k || s.txns[r].slot in cur || s.txns[r].slot == q)
    case ROwner(j, k, cur, r) => r in s.txns && r != t && ScanInv(s, t, j, k, cur, r)
    case RState(j, k, cur, r) => r in s.txns && r != t && ScanInv(s, t, j, k, cur, r)
    case REnd(j, k, cur, r, st) =>
      ScanInv(s, t, j, k, cur, r) && Probed(s, t, j, r, st, 0) && (st != Active ==> s.txns[r].state != Active)
    case RVerify(j, k, cur, r, st, e) =>
      ScanInv(s, t, j, k, cur, r) && Probed(s, t, j, r, st, e) && (st != Active ==> s.txns[r].state != Active)
    case REnd2(j, k, cur, r) => r in s.txns && r != t && ScanInv(s, t, j, k, cur, r) && s.txns[r].state != Active
    case RState2(j, k, cur, r, e) =>
      ScanInv(s, t, j, k, cur, r) && Probed(s, t, j, r, Committing, e) && s.txns[r].state != Active
    case RVerify2(j, k, cur, r, e, st) =>
      ScanInv(s, t, j, k, cur, r) && Probed(s, t, j, r, st, e) && s.txns[r].state != Active && st != Active
    case RSpin(j, k, cur, r, e) =>
      ScanInv(s, t, j, k, cur, r) && r in s.txns && r != t && 0 < e == s.txns[r].cs == s.txns[r].end < x.cs
    case RSpinVerify(j, k, cur, r, e, st) =>
      ScanInv(s, t, j, k, cur, r) && Probed(s, t, j, r, st, e) && 0 < e == s.txns[r].cs == s.txns[r].end < x.cs
    case ReadX(j) =>
      j < |x.wset| && x.wset[j] in s.recs && |s.recs[x.wset[j]]| > 1 && (forall r :: !Pending(s, t, x.wset[j], r))
    case _ => ProbeInv(s, t, c)
  }

  ghost predicate PointInv(s: State, t: nat)
    requires t in s.txns
  {
    var x := s.txns[t];
    match x.pc
    case Certify(c) => CertInv(s, t, c)
    case Reading(v, p) => p == Register ==> |x.rset| > 0 && x.rset[|x.rset| - 1] == v
    case Updating(o, _) => o in s.recs && |s.recs[o]| > 1
    case Stamping(j, k) =>
      k == WriteC && j < |x.wset| ==>
        x.wset[j] in s.recs && |s.recs[x.wset[j]]| > 0 && s.recs[x.wset[j]][|s.recs[x.wset[j]]| - 1].xstamp == x.cs
    case Post(i, q) =>
      && i <= |x.rset| && (q != PLoad ==> i < |x.rset|)
      && (match q
          case PLoad => true
          case POwner(u) => u in s.txns && u != t
          case PEnd(u) => u in s.txns && u != t
          case PVerify(u, e) => u in s.txns && u != t && (e > 0 ==> e == s.txns[u].cs == s.txns[u].end)
          case PSpin(u) => u in s.txns && u != t && 0 < s.txns[u].end == s.txns[u].cs < x.cs
          case PSpinVerify(u, st) => u in s.txns && u != t && 0 < s.txns[u].end == s.txns[u].cs < x.cs
          case PSetX => true
          case PClear => Has(s, x.rset[i]) && x.cs <= At(s, x.rset[i]).xstamp)
    case UndoReads(i) => i <= |x.rset|
    case _ => true
  }

  ghost predicate TxnSsn(s: State, t: nat)
    requires t in s.txns
  {
    && s.setup.ssn && s.setup.clean
    && KnownInv(s, t) && SeenInv(s, t) && BitsInv(s, t) && PrevInv(s, t) && BoundInv(s.txns[t], s.clock)
    && ReadsCovered(s, t, Checked(s.txns[t])) && WritesCovered(s, t, Scanned(s.txns[t]))
    && PointInv(s, t)
  }

  ghost predicate Inv(s: State) {
    && s.setup.ssn && s.setup.clean && Base(s) && TableInv(s) && SlotInv(s) && AccessInv(s)
    && forall t :: t in s.txns ==> TxnSsn(s, t)
  }
}
