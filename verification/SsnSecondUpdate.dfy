/**
 The second update of a record by the same transaction in a build with early exclusion tests.  The
 failing test unlinks the transaction's version although the write set lists the record, so the
 abort that follows unlinks the committed version below it.
 */
module SsnSecondUpdate {
  import opened Stamps
  import opened Engine
  import opened Ssn
  import opened SsnInvariant
  import opened SsnSteps
  import opened SsnRuns
  import opened SsnAnomaly
  import opened SsnAttained
  import opened SsnAttainedSteps

  ghost predicate Updates(s: State, t: nat, o: nat) {
    t in s.txns && s.txns[t].pc == Idle && o in s.txns[t].wset && o in s.recs && |s.recs[o]| > 0
  }

  function Head(s: State, o: nat): Ver
    requires o in s.recs && |s.recs[o]| > 0
  {
    s.recs[o][|s.recs[o]| - 1]
  }

  // The early test fails once the access stamp of one's own version is taken.
  ghost predicate Excluded(x: Txn, head: Ver) {
    0 < x.sstamp <= Max(x.pstamp, head.xstamp)
  }

  // The new version replaces one's own, whose access stamp it takes; if the test then fails, the
  // head is unlinked, which leaves the version that one's own had replaced.
  ghost predicate SecondUpdate(s: State, s': State, t: nat, o: nat) {
    && Updates(s, t, o)
    && var x := s.txns[t];
       var x' := x.(pstamp := Max(x.pstamp, Head(s, o).xstamp));
       if Excluded(x, Head(s, o)) then
         s' == SetTxn(s.(recs := s.recs[o := s.recs[o][..|s.recs[o]| - 1]]), t, x'.(pc := Doomed))
       else
         s' == SetTxn(s, t, x')
  }

  // The early tests made so far have passed.
  ghost predicate Admitted(x: Txn) { x.sstamp == 0 || x.pstamp < x.sstamp }

  // ----- a transaction's own insert has no access stamp -----

  ghost predicate Clean(s: State) {
    forall t, o :: t in s.txns && s.txns[t].state == Active && o in s.txns[t].own && o in s.recs && |s.recs[o]| == 1 ==>
      s.recs[o][0].xstamp == 0
  }

  lemma CleanAt(s: State, t: nat, o: nat)
    requires Clean(s) && t in s.txns && s.txns[t].state == Active && o in s.txns[t].own
    ensures o in s.recs && |s.recs[o]| == 1 ==> s.recs[o][0].xstamp == 0
  {
  }

  lemma RunClean(r: seq<State>)
    requires Run(r)
    ensures Clean(r[|r| - 1])
  {
    RunFrom(r);
    hide Run, Inv, AccessFrom, BitsFrom;
    var s := r[|r| - 1];
    forall t, o | t in s.txns && s.txns[t].state == Active && o in s.txns[t].own && o in s.recs && |s.recs[o]| == 1
      ensures s.recs[o][0].xstamp == 0
    {
      assert TxnFrom(s, t);
      assert CopyFrom(s, o);
    }
  }

  // ----- what may follow -----

  // The states of `p` lead from `s` to `q` by steps of anybody.
  ghost predicate Leads(p: seq<State>, s: State, q: State) {
    |p| > 0 && p[0] == s && p[|p| - 1] == q && forall k :: 0 < k < |p| ==> Next(p[k - 1], p[k])
  }

  // A committed version of `s` is no longer linked in `q`.
  ghost predicate Loses(s: State, q: State) {
    exists v :: Stamped(s, v) && !(Stamped(q, v) && At(q, v).clsn == At(s, v).clsn)
  }

  ghost predicate MayLose(s: State) {
    exists p, q :: Leads(p, s, q) && Loses(s, q)
  }

  lemma Extend(p: seq<State>, s: State, q: State, q': State, t: nat) returns (p': seq<State>)
    requires Leads(p, s, q) && Step(q, q', t)
    ensures Leads(p', s, q')
  {
    hide Step;
    p' := p + [q'];
    assert Next(q, q');
    forall k | 0 < k < |p'| ensures Next(p'[k - 1], p'[k]) {
      if k < |p| { assert Next(p[k - 1], p[k]); }
    }
  }

  // No run loses a committed version.
  lemma {:induction false} NothingLost(p: seq<State>, s: State, q: State)
    requires Inv(s) && Leads(p, s, q)
    ensures Inv(q) && !Loses(s, q)
  {
    if |p| > 1 {
      var k := |p| - 1;
      var m := p[k - 1];
      assert Leads(p[..k], s, m);
      NothingLost(p[..k], s, m);
      assert Next(m, q);
      hide Inv, Step, Evolve, Loses;
      var t :| Step(m, q, t);
      StepKeeps(m, q, t);
      LosesNone(s, m, q, t);
    }
  }

  lemma LosesNone(s: State, m: State, q: State, t: nat)
    requires Evolve(m, q, t) && !Loses(s, m)
    ensures !Loses(s, q)
  {
    forall v | Stamped(s, v) ensures Stamped(q, v) && At(q, v).clsn == At(s, v).clsn {
      assert Stamped(m, v) && At(m, v).clsn == At(s, v).clsn;
      assert Keeps(m, q, t, v.o, v.i);
    }
  }

  // ----- the abort of a transaction that left the record -----

  // `t` has come to entry `i` of its write set, up to entry `j` of which every record has a version.
  ghost predicate Undoing(s: State, t: nat, i: nat, j: nat) {
    && t in s.txns && s.txns[t].pc == UndoWrites(i, false) && NoDup(s.txns[t].wset) && i <= j < |s.txns[t].wset|
    && forall k :: i <= k <= j ==> s.txns[t].wset[k] in s.recs && |s.recs[s.txns[t].wset[k]]| > 0
  }

  // Abort clears the mark below the head of a listed record, then takes the head off.
  lemma ClearMark(s: State, t: nat, i: nat, j: nat) returns (s1: State)
    requires Undoing(s, t, i, j)
    ensures Step(s, s1, t) && t in s1.txns && s1.txns[t].pc == UndoWrites(i, true) && s1.txns[t].wset == s.txns[t].wset
    ensures forall a :: a in s.recs ==> a in s1.recs && |s1.recs[a]| == |s.recs[a]|
  {
    var x := s.txns[t];
    var o := x.wset[i];
    var l := |s.recs[o]|;
    var x1 := x.(pc := UndoWrites(i, true), marked := x.marked - {o});
    s1 := if l > 1 then SetTxn(SetVer(s, Vid(o, l - 2), At(s, Vid(o, l - 2)).(sstamp := Null)), t, x1)
        else SetTxn(s, t, x1);
    assert UndoSuccessor(s, s1, t);
    hide UndoSuccessor;
    TakenIsStep(s, s1, t);
  }

  lemma TakeOff(s: State, t: nat, i: nat) returns (s2: State)
    requires t in s.txns && s.txns[t].pc == UndoWrites(i, true) && i < |s.txns[t].wset|
    requires s.txns[t].wset[i] in s.recs && |s.recs[s.txns[t].wset[i]]| > 0
    ensures Step(s, s2, t) && t in s2.txns && s2.txns[t].pc == UndoWrites(i + 1, false)
              && s2.txns[t].wset == s.txns[t].wset
    ensures var o := s.txns[t].wset[i];
            && o in s2.recs && |s2.recs[o]| == |s.recs[o]| - 1
            && forall a :: a in s.recs && a != o ==> a in s2.recs && |s2.recs[a]| == |s.recs[a]|
  {
    var x := s.txns[t];
    var o := x.wset[i];
    var c := s.recs[o];
    s2 := SetTxn(s.(recs := s.recs[o := c[..|c| - 1]]), t, x.(pc := UndoWrites(i + 1, false), own := x.own - {o}));
    assert Unlink(s, s2, t);
    hide Unlink;
    TakenIsStep(s, s2, t);
  }

  lemma UndoEntry(s: State, t: nat, i: nat, j: nat) returns (s1: State, s2: State)
    requires Undoing(s, t, i, j)
    ensures Step(s, s1, t) && Step(s1, s2, t)
    ensures var o := s.txns[t].wset[i];
            && o in s2.recs && |s2.recs[o]| == |s.recs[o]| - 1
            && (forall a :: a in s.recs && a != o ==> a in s2.recs && |s2.recs[a]| == |s.recs[a]|)
    ensures i < j ==> Undoing(s2, t, i + 1, j) && s2.txns[t].wset == s.txns[t].wset
  {
    hide Step;
    s1 := ClearMark(s, t, i, j);
    s2 := TakeOff(s1, t, i);
  }

  lemma {:induction false} UndoUpTo(p: seq<State>, s0: State, s: State, t: nat, i: nat, j: nat)
    returns (p': seq<State>, q: State)
    requires Leads(p, s0, s) && Undoing(s, t, i, j)
    ensures Leads(p', s0, q)
    ensures var o := s.txns[t].wset[j]; o in q.recs && |q.recs[o]| == |s.recs[o]| - 1
    decreases j - i
  {
    hide Leads, Step;
    var s1, s2 := UndoEntry(s, t, i, j);
    p' := Extend(p, s0, s, s1, t);
    p' := Extend(p', s0, s1, s2, t);
    if i < j {
      p', q := UndoUpTo(p', s0, s2, t, i + 1, j);
    } else {
      q := s2;
    }
  }

  // Leaving the bitmaps moves no version.
  lemma {:induction false} UndoAllReads(p: seq<State>, s0: State, s: State, t: nat) returns (p': seq<State>, q: State)
    requires Leads(p, s0, s) && t in s.txns && s.txns[t].pc.UndoReads? && s.txns[t].pc.i <= |s.txns[t].rset|
    requires forall k :: 0 <= k < |s.txns[t].rset| ==> Has(s, s.txns[t].rset[k])
    ensures Leads(p', s0, q) && t in q.txns && q.txns[t].pc == UndoWrites(0, false) && q.txns[t].wset == s.txns[t].wset
    ensures forall o :: o in s.recs ==> o in q.recs && |q.recs[o]| == |s.recs[o]|
    decreases |s.txns[t].rset| - s.txns[t].pc.i
  {
    hide Leads, Step;
    var x := s.txns[t];
    var i := x.pc.i;
    if i == |x.rset| {
      q := SetPc(s, t, UndoWrites(0, false));
      assert ReadsUndone(s, q, t);
      TakenIsStep(s, q, t);
      p' := Extend(p, s0, s, q, t);
    } else {
      var v := x.rset[i];
      var s1 := SetTxn(SetVer(s, v, At(s, v).(readers := At(s, v).readers - Entry(s, x))), t,
          x.(pc := UndoReads(i + 1)));
      assert UndoRead(s, s1, t);
      TakenIsStep(s, s1, t);
      p' := Extend(p, s0, s, s1, t);
      p', q := UndoAllReads(p', s0, s1, t);
    }
  }

  // A doomed transaction that lists a record whose head is committed loses that version.
  lemma DoomedLoses(s: State, t: nat, o: nat)
    requires t in s.txns && s.txns[t].pc == Doomed && NoDup(s.txns[t].wset) && o in s.txns[t].wset
    requires forall k :: 0 <= k < |s.txns[t].rset| ==> Has(s, s.txns[t].rset[k])
    requires forall a :: a in s.txns[t].wset ==> a in s.recs && |s.recs[a]| > 0
    requires Head(s, o).clsn.Lsn?
    ensures MayLose(s)
  {
    var x := s.txns[t];
    var s1 := SetTxn(s, t, x.(pc := UndoReads(0), state := Abrtd));
    assert StartAbort(s, s1, t);
    assert Leads([s], s, s);
    hide Leads, Step;
    TakenIsStep(s, s1, t);
    var p := Extend([s], s, s, s1, t);
    var s2, s3;
    p, s2 := UndoAllReads(p, s, s1, t);
    var j :| 0 <= j < |x.wset| && x.wset[j] == o;
    p, s3 := UndoUpTo(p, s, s2, t, 0, j);
    var v := Vid(o, |s.recs[o]| - 1);
    assert Stamped(s, v) && !Stamped(s3, v);
    assert Loses(s, s3);
  }

  // ----- the exact condition -----

  // What the invariant says about the record of a second update.
  lemma UpdatedRecord(s: State, t: nat, o: nat)
    requires Inv(s) && Updates(s, t, o)
    ensures forall k :: 0 <= k < |s.txns[t].rset| ==> Stamped(s, s.txns[t].rset[k])
    ensures NoDup(s.txns[t].wset) && s.txns[t].state == Active && o in s.txns[t].own
    ensures forall a :: a in s.txns[t].wset ==> a in s.recs && |s.recs[a]| > 0 && Head(s, a).clsn == Xid(t)
    ensures |s.recs[o]| > 1 ==> s.recs[o][|s.recs[o]| - 2].clsn.Lsn?
  {
    hide AccessInv, TableInv, SlotInv, SeenInv, BitsInv, PrevInv, ReadsCovered, WritesCovered, PointInv, Distinct,
         SuccessorInv;
    assert TxnSsn(s, t);
    OwnTxn(s, t);
    OwnsHead(s, t);
    KnownReads(s, t);
    if |s.recs[o]| > 1 { assert VerInv(s, o, |s.recs[o]| - 2); }
  }

  lemma ExcludedLoses(s: State, s': State, t: nat, o: nat)
    requires Inv(s) && SecondUpdate(s, s', t, o) && Excluded(s.txns[t], Head(s, o)) && |s.recs[o]| > 1
    ensures MayLose(s')
  {
    hide Inv, MayLose;
    UpdatedRecord(s, t, o);
    var x := s'.txns[t];
    forall k | 0 <= k < |x.rset| ensures Has(s', x.rset[k]) {
      assert Stamped(s, x.rset[k]);
    }
    DoomedLoses(s', t, o);
  }

  lemma PassingIsStep(s: State, s': State, t: nat, o: nat)
    requires SecondUpdate(s, s', t, o) && !Excluded(s.txns[t], Head(s, o))
    ensures Step(s, s', t)
  {
    assert Rewrite(s, s', t, o);
    hide Rewrite;
  }

  /**
   A second update is followed by the loss of a committed version in some continuation of the run
   if and only if the access stamp of the transaction's own version has reached its high watermark.
   */
  lemma SecondUpdateExactly(r: seq<State>, s': State, t: nat, o: nat)
    requires Run(r) && SecondUpdate(r[|r| - 1], s', t, o) && Admitted(r[|r| - 1].txns[t])
    ensures MayLose(s') <==> 0 < r[|r| - 1].txns[t].sstamp <= Head(r[|r| - 1], o).xstamp
  {
    var s := r[|r| - 1];
    RunInvariant(r);
    RunClean(r);
    hide Run, Inv, MayLose;
    UpdatedRecord(s, t, o);
    CleanAt(s, t, o);
    if Excluded(s.txns[t], Head(s, o)) {
      ExcludedLoses(s, s', t, o);
    } else {
      PassingIsStep(s, s', t, o);
      hide SecondUpdate;
      StepKeeps(s, s', t);
      NeverLoses(s');
    }
  }

  lemma NeverLoses(s: State)
    requires Inv(s)
    ensures !MayLose(s)
  {
    hide Inv, Loses;
    if MayLose(s) {
      var p, q :| Leads(p, s, q) && Loses(s, q);
      NothingLost(p, s, q);
    }
  }

  // ----- a run that comes to it -----

  // The stage of `WriterInstalls` after the reader has raised the access stamp of what it read,
  // between the two loads of it by the writer, and the writer has finished its first update.
  function Raised(p: Setup): State {
    Stage(6, Reader(p).(pc := Post(0, PClear)),
          Txn(3, Active, 0, false, 4, 6, [], [1], Idle, 0, 0, false, {1}, {1}, {Vid(0, 0)}, {}),
          Overwritten(p), [ReadRow(p).(xstamp := 6, sstamp := Xid(3)), NewVer(3).(xstamp := 6)], p)
  }

  lemma ReaderRaises(p: Setup) returns (q: seq<State>)
    requires p.ssn && p.clean
    ensures Ends(q, Raised(p), p)
  {
    hide Ends, Taken;
    q := WriterInstalls(p);
    var c := [ReadRow(p), NewVer(3)];
    var s := Stage(6, Reader(p), Writer(), Overwritten(p), c, p);
    Focus(s, 2, 1);
    PostSteps(s, Reader(p), c, 6);
    var x := Reader(p).(pc := Post(0, PSetX));
    q := GoSet(q, s, 2, Reader(p), 1, c, 6, x, p);
    var c1 := [ReadRow(p).(xstamp := 6), NewVer(3)];
    q := GoVer(q, s, 2, x, 1, c, 6, 0, ReadRow(p).(xstamp := 6), x.(pc := Post(0, PClear)), p);
    assert c[0 := ReadRow(p).(xstamp := 6)] == c1;
    StageWith(6, Reader(p), Writer(), Overwritten(p), c, p, 6, x.(pc := Post(0, PClear)), c1);
    var s1 := Stage(6, x.(pc := Post(0, PClear)), Writer(), Overwritten(p), c1, p);
    Focus(s1, 3, 1);
    q := MarkPhase(q, s1, 3, Writer(), 1, ReadRow(p).(xstamp := 6), NewVer(3), 6, p);
    assert [] + [1] == [1] && {} + {1} == {1};
    StageWith(6, x.(pc := Post(0, PClear)), Writer(), Overwritten(p), c1, p, 6, Raised(p).txns[3], Raised(p).recs[1]);
  }

  lemma PostSteps(s: State, x: Txn, c: seq<Ver>, n: nat)
    requires x.pc == Post(0, PLoad) && x.rset == [Vid(1, 0)] && x.cs == 6 && |c| > 0 && c[0].sstamp.Null?
               && c[0].xstamp <= 6
    ensures var z := With(s, 2, x, 1, c, n); Taken(z, SetTxn(z, 2, x.(pc := Post(0, PSetX))), 2)
    ensures var y := x.(pc := Post(0, PSetX));
            Taken(With(s, 2, y, 1, c, n),
                  SetTxn(With(s, 2, y, 1, c[0 := c[0].(xstamp := 6)], n), 2, y.(pc := Post(0, PClear))), 2)
  {
    var z := With(s, 2, x, 1, c, n);
    assert PostWait(z, SetTxn(z, 2, x.(pc := Post(0, PSetX))), 2);
    var y := x.(pc := Post(0, PSetX));
    WithVer(s, 2, y, 1, c, n, 0, c[0].(xstamp := 6));
    assert PostSetX(With(s, 2, y, 1, c, n),
                    SetTxn(With(s, 2, y, 1, c[0 := c[0].(xstamp := 6)], n), 2, y.(pc := Post(0, PClear))), 2);
  }

  /** In every setup: a run, and a second update after which a committed version may be lost. */
  lemma SecondUpdateLoses(p: Setup) returns (r: seq<State>, s': State)
    requires p.ssn && p.clean
    ensures Run(r) && r[0].setup == p && SecondUpdate(r[|r| - 1], s', 3, 1) && Admitted(r[|r| - 1].txns[3])
              && MayLose(s')
  {
    r := ReaderRaises(p);
    var s := Raised(p);
    var c := s.recs[1];
    s' := SetTxn(s.(recs := s.recs[1 := c[..|c| - 1]]), 3, s.txns[3].(pc := Doomed, pstamp := 6));
    assert SecondUpdate(s, s', 3, 1);
    hide MayLose, Run;
    SecondUpdateExactly(r, s', 3, 1);
  }
}
