/** Building blocks for concrete runs of `Ssn`: stretches in which one transaction moves alone. */
module SsnRuns {
  import opened Stamps
  import opened Engine
  import opened Ssn

  // State `s` with context `x` of transaction `m`, chain `c` of record `o`, and clock `n`.
  function With(s: State, m: nat, x: Txn, o: nat, c: seq<Ver>, n: nat): State {
    s.(clock := n, txns := s.txns[m := x], recs := s.recs[o := c])
  }

  lemma WithSet(s: State, m: nat, x: Txn, o: nat, c: seq<Ver>, n: nat, x': Txn)
    ensures SetTxn(With(s, m, x, o, c, n), m, x') == With(s, m, x', o, c, n)
  {
    assert s.txns[m := x][m := x'] == s.txns[m := x'];
  }

  lemma WithVer(s: State, m: nat, x: Txn, o: nat, c: seq<Ver>, n: nat, i: nat, ver: Ver)
    requires i < |c|
    ensures Has(With(s, m, x, o, c, n), Vid(o, i))
    ensures SetVer(With(s, m, x, o, c, n), Vid(o, i), ver) == With(s, m, x, o, c[i := ver], n)
  {
    assert s.recs[o := c][o := c[i := ver]] == s.recs[o := c[i := ver]];
  }

  // Run `r` ends in state `z` and began with setup `p`.
  ghost predicate Ends(r: seq<State>, z: State, p: Setup) {
    Run(r) && r[|r| - 1] == z && r[0].setup == p
  }

  lemma Go(r: seq<State>, z: State, z': State, t: nat, p: Setup) returns (q: seq<State>)
    requires Ends(r, z, p) && Step(z, z', t)
    ensures Ends(q, z', p)
  {
    hide Step;
    q := r + [z'];
    assert Next(z, z');
    forall k | 0 < k < |q| ensures Next(q[k - 1], q[k]) {
      if k < |r| { assert Next(r[k - 1], r[k]); }
    }
  }

  // The kinds of steps the stretches below are made of.
  ghost predicate Taken(s: State, s': State, t: nat) {
    || ReadStamp(s, s', t) || ReadPush(s, s', t) || ReadRegister(s, s', t)
    || UpdateTakeX(s, s', t) || UpdateCopyX(s, s', t) || MarkSuccessor(s, s', t) || AddToWriteSet(s, s', t)
    || EnterCommit(s, s', t) || Publish(s, s', t) || Probe(s, s', t)
    || InitHigh(s, s', t) || LoadSettled(s, s', t) || ReadsDone(s, s', t) || WritesDone(s, s', t)
    || SkipInsert(s, s', t) || LoadWord(s, s', t)
    || LoadAccess(s, s', t) || PassExclusion(s, s', t)
    || StampSuccessor(s, s', t) || StampX(s, s', t) || StampClsn(s, s', t) || SetCommitted(s, s', t)
    || PostWait(s, s', t) || PostSetX(s, s', t)
    || StartAbort(s, s', t) || UndoRead(s, s', t) || ReadsUndone(s, s', t) || UndoSuccessor(s, s', t)
        || Unlink(s, s', t)
  }

  lemma TakenIsStep(s: State, s': State, t: nat)
    requires Taken(s, s', t)
    ensures Step(s, s', t)
  {
    hide ReadStamp, ReadPush, ReadRegister, UpdateTakeX, UpdateCopyX, MarkSuccessor, AddToWriteSet, EnterCommit,
         Publish, Probe, InitHigh, ReadsDone, WritesDone, SkipInsert, LoadWord, LoadAccess, PassExclusion,
         StampSuccessor, StampX, StampClsn, SetCommitted, PostWait, PostSetX, StartAbort, UndoRead, ReadsUndone,
         UndoSuccessor, Unlink, BeginTxn, Insert, Install, Rewrite, ReadPick, EarlyUnlink, Draw, EndAbort,
         FreeUnlisted, LoadSettled, CheckSuccessor, TakeBit, LoadReader, LoadContext, VerifyReader, PostClear, Unlist;
  }

  // One step that stores in `m`'s context only.
  lemma GoSet(r: seq<State>, s: State, m: nat, x: Txn, o: nat, c: seq<Ver>, n: nat, x': Txn, p: Setup)
    returns (q: seq<State>)
    requires Ends(r, With(s, m, x, o, c, n), p)
    requires Taken(With(s, m, x, o, c, n), SetTxn(With(s, m, x, o, c, n), m, x'), m)
    ensures Ends(q, With(s, m, x', o, c, n), p)
  {
    hide Ends, Step, Taken;
    WithSet(s, m, x, o, c, n, x');
    TakenIsStep(With(s, m, x, o, c, n), With(s, m, x', o, c, n), m);
    q := Go(r, With(s, m, x, o, c, n), With(s, m, x', o, c, n), m, p);
  }

  // One step that also stores in version `i` of record `o`.
  lemma GoVer(r: seq<State>, s: State, m: nat, x: Txn, o: nat, c: seq<Ver>, n: nat, i: nat, ver: Ver, x': Txn, p: Setup)
    returns (q: seq<State>)
    requires Ends(r, With(s, m, x, o, c, n), p) && i < |c|
    requires Taken(With(s, m, x, o, c, n), SetTxn(With(s, m, x, o, c[i := ver], n), m, x'), m)
    ensures Ends(q, With(s, m, x', o, c[i := ver], n), p)
  {
    hide Ends, Step, Taken;
    WithSet(s, m, x, o, c[i := ver], n, x');
    TakenIsStep(With(s, m, x, o, c, n), With(s, m, x', o, c[i := ver], n), m);
    q := Go(r, With(s, m, x, o, c, n), With(s, m, x', o, c[i := ver], n), m, p);
  }

  // ----- updating a record -----

  function NewVer(m: nat): Ver { Ver(m, Xid(m), Null, 0, {}) }

  // Install over the only version of `o`, and take its access stamp.
  lemma InstallPhase(r: seq<State>, s: State, m: nat, x: Txn, o: nat, v: Ver, n: nat, p: Setup) returns (q: seq<State>)
    requires Ends(r, With(s, m, x, o, [v], n), p) && x.pc == Idle && v.clsn.Lsn?
    ensures Ends(q, With(s, m, x.(pc := Updating(o, CopyX), own := x.own + {o}, pstamp := Max(x.pstamp, v.xstamp)),
                         o, [v, NewVer(m)], n), p)
  {
    hide Ends, Step, Taken, With;
    var z := With(s, m, x, o, [v], n);
    var x1 := x.(pc := Updating(o, TakeX), own := x.own + {o});
    var z1 := With(s, m, x1, o, [v, NewVer(m)], n);
    InstallStep(s, m, x, o, v, n);
    q := Go(r, z, z1, m, p);
    var x2 := x1.(pc := Updating(o, CopyX), pstamp := Max(x.pstamp, v.xstamp));
    TakeXStep(s, m, x1, o, [v, NewVer(m)], n);
    q := GoSet(q, s, m, x1, o, [v, NewVer(m)], n, x2, p);
  }

  lemma InstallStep(s: State, m: nat, x: Txn, o: nat, v: Ver, n: nat)
    requires x.pc == Idle && v.clsn.Lsn?
    ensures Step(With(s, m, x, o, [v], n),
                 With(s, m, x.(pc := Updating(o, TakeX), own := x.own + {o}), o, [v, NewVer(m)], n), m)
  {
    var z := With(s, m, x, o, [v], n);
    var z1 := With(s, m, x.(pc := Updating(o, TakeX), own := x.own + {o}), o, [v, NewVer(m)], n);
    assert [v] + [NewVer(m)] == [v, NewVer(m)];
    assert z1.recs == z.recs[o := [v, NewVer(m)]];
    assert z1.txns == z.txns[m := x.(pc := Updating(o, TakeX), own := x.own + {o})];
    assert InstallWith(z, z1, m, o, Null);
    assert Install(z, z1, m, o);
    hide Install;
  }

  lemma TakeXStep(s: State, m: nat, x: Txn, o: nat, c: seq<Ver>, n: nat)
    requires x.pc == Updating(o, TakeX) && |c| > 1
    ensures var z := With(s, m, x, o, c, n);
            Taken(z, SetTxn(z, m, x.(pc := Updating(o, CopyX), pstamp := Max(x.pstamp, c[|c| - 2].xstamp))), m)
  {
    var z := With(s, m, x, o, c, n);
    assert UpdateTakeX(z, SetTxn(z, m, x.(pc := Updating(o, CopyX), pstamp := Max(x.pstamp, c[|c| - 2].xstamp))), m);
  }

  // Copy the access stamp, mark the overwritten version, list the record.
  lemma MarkPhase(r: seq<State>, s: State, m: nat, x: Txn, o: nat, v: Ver, w: Ver, n: nat, p: Setup)
    returns (q: seq<State>)
    requires Ends(r, With(s, m, x, o, [v, w], n), p) && x.pc == Updating(o, CopyX)
    ensures Ends(q, With(s, m, x.(pc := Idle, wset := x.wset + [o], marked := x.marked + {o}),
                         o, [v.(sstamp := Xid(m)), w.(xstamp := v.xstamp)], n), p)
  {
    hide Ends, Step, Taken, With;
    var w1 := w.(xstamp := v.xstamp);
    var v1 := v.(sstamp := Xid(m));
    var x1 := x.(pc := Updating(o, MarkS));
    var x2 := x.(pc := Updating(o, AddW), marked := x.marked + {o});
    CopyStep(s, m, x, o, v, w, n);
    MarkStep(s, m, x1, o, v, w1, n);
    ListStep(s, m, x2, o, [v1, w1], n);
    q := GoVer(r, s, m, x, o, [v, w], n, 1, w1, x1, p);
    assert [v, w][1 := w1] == [v, w1] && [v, w1][0 := v1] == [v1, w1];
    q := GoVer(q, s, m, x1, o, [v, w1], n, 0, v1, x2, p);
    q := GoSet(q, s, m, x2, o, [v1, w1], n, x2.(pc := Idle, wset := x.wset + [o]), p);
  }

  lemma CopyStep(s: State, m: nat, x: Txn, o: nat, v: Ver, w: Ver, n: nat)
    requires x.pc == Updating(o, CopyX)
    ensures var c := [v, w];
            Taken(With(s, m, x, o, c, n),
                  SetTxn(With(s, m, x, o, c[1 := w.(xstamp := v.xstamp)], n), m, x.(pc := Updating(o, MarkS))), m)
  {
    var c := [v, w];
    WithVer(s, m, x, o, c, n, 1, w.(xstamp := v.xstamp));
    assert UpdateCopyX(With(s, m, x, o, c, n),
                       SetTxn(With(s, m, x, o, c[1 := w.(xstamp := v.xstamp)], n), m, x.(pc := Updating(o, MarkS))), m);
  }

  lemma MarkStep(s: State, m: nat, x: Txn, o: nat, v: Ver, w: Ver, n: nat)
    requires x.pc == Updating(o, MarkS)
    ensures var c := [v, w];
            Taken(With(s, m, x, o, c, n),
                  SetTxn(With(s, m, x, o, c[0 := v.(sstamp := Xid(m))], n), m,
                         x.(pc := Updating(o, AddW), marked := x.marked + {o})), m)
  {
    var c := [v, w];
    WithVer(s, m, x, o, c, n, 0, v.(sstamp := Xid(m)));
    assert MarkSuccessor(With(s, m, x, o, c, n),
                         SetTxn(With(s, m, x, o, c[0 := v.(sstamp := Xid(m))], n), m,
                                x.(pc := Updating(o, AddW), marked := x.marked + {o})), m);
  }

  lemma ListStep(s: State, m: nat, x: Txn, o: nat, c: seq<Ver>, n: nat)
    requires x.pc == Updating(o, AddW)
    ensures var z := With(s, m, x, o, c, n); Taken(z, SetTxn(z, m, x.(pc := Idle, wset := x.wset + [o])), m)
  {
    var z := With(s, m, x, o, c, n);
    assert AddToWriteSet(z, SetTxn(z, m, x.(pc := Idle, wset := x.wset + [o])), m);
  }

  // ----- commit -----

  // Enter commit, draw and publish the next stamp, start the read check.
  lemma EnterPhase(r: seq<State>, s: State, m: nat, x: Txn, o: nat, c: seq<Ver>, n: nat, p: Setup)
    returns (q: seq<State>)
    requires Ends(r, With(s, m, x, o, c, n), p) && x.pc == Idle
    ensures Ends(q, With(s, m, x.(pc := Certify(Load(0)), state := Committing, cs := n + 2, base := n, end := n + 2,
                                  sstamp := if x.sstamp == 0 then n + 2 else x.sstamp), o, c, n + 2), p)
  {
    hide Ends, Step, Taken, With;
    var x1 := x.(pc := Entered, state := Committing);
    var x2 := x1.(pc := Drawn, cs := n + 2, base := n);
    var x3 := x2.(pc := Certify(InitS), end := n + 2);
    var x4 := x3.(pc := Certify(Load(0)), sstamp := if x.sstamp == 0 then n + 2 else x.sstamp);
    EnterStep(s, m, x, o, c, n);
    DrawStep(s, m, x1, o, c, n);
    PublishStep(s, m, x2, o, c, n + 2);
    InitStep(s, m, x3, o, c, n + 2);
    q := GoSet(r, s, m, x, o, c, n, x1, p);
    q := Go(q, With(s, m, x1, o, c, n), With(s, m, x2, o, c, n + 2), m, p);
    q := GoSet(q, s, m, x2, o, c, n + 2, x3, p);
    q := GoSet(q, s, m, x3, o, c, n + 2, x4, p);
  }

  lemma EnterStep(s: State, m: nat, x: Txn, o: nat, c: seq<Ver>, n: nat)
    requires x.pc == Idle
    ensures var z := With(s, m, x, o, c, n); Taken(z, SetTxn(z, m, x.(pc := Entered, state := Committing)), m)
  {
    var z := With(s, m, x, o, c, n);
    assert EnterCommit(z, SetTxn(z, m, x.(pc := Entered, state := Committing)), m);
  }

  lemma DrawStep(s: State, m: nat, x: Txn, o: nat, c: seq<Ver>, n: nat)
    requires x.pc == Entered
    ensures Step(With(s, m, x, o, c, n), With(s, m, x.(pc := Drawn, cs := n + 2, base := n), o, c, n + 2), m)
  {
    var z, z1 := With(s, m, x, o, c, n), With(s, m, x.(pc := Drawn, cs := n + 2, base := n), o, c, n + 2);
    assert z1.txns == z.txns[m := x.(pc := Drawn, cs := n + 2, base := n)];
    assert Draw(z, z1, m, n + 2);
    hide Draw;
  }

  lemma PublishStep(s: State, m: nat, x: Txn, o: nat, c: seq<Ver>, n: nat)
    requires x.pc == Drawn
    ensures var z := With(s, m, x, o, c, n); Taken(z, SetTxn(z, m, x.(pc := Certify(InitS), end := x.cs)), m)
  {
    var z := With(s, m, x, o, c, n);
    assert Publish(z, SetTxn(z, m, x.(pc := Certify(InitS), end := x.cs)), m);
  }

  lemma InitStep(s: State, m: nat, x: Txn, o: nat, c: seq<Ver>, n: nat)
    requires x.pc == Certify(InitS)
    ensures var z := With(s, m, x, o, c, n);
            Taken(z, SetTxn(z, m, x.(pc := Certify(Load(0)), sstamp := if x.sstamp == 0 then x.cs else x.sstamp)), m)
  {
    var z := With(s, m, x, o, c, n);
    assert InitHigh(z, SetTxn(z, m, x.(pc := Certify(Load(0)), sstamp := if x.sstamp == 0 then x.cs else x.sstamp)), m);
  }

  // The words of an empty bitmap, from the one with index `k`.
  lemma {:induction false} WordsPhase(r: seq<State>, s: State, m: nat, x: Txn, o: nat, c: seq<Ver>, n: nat, k: nat,
      p: Setup)
    returns (q: seq<State>)
    requires Ends(r, With(s, m, x, o, c, n), p) && x.pc == Certify(Scan(0, k, {})) && k <= WORDS
    requires x.wset == [o] && |c| > 1 && c[|c| - 2].readers == {}
    ensures Ends(q, With(s, m, x.(pc := Certify(ReadX(0))), o, c, n), p)
    decreases WORDS - k
  {
    hide Ends, Step, Taken, With;
    WordStep(s, m, x, o, c, n, k);
    var x1 := x.(pc := Certify(if k < WORDS then Scan(0, k + 1, {}) else ReadX(0)));
    q := GoSet(r, s, m, x, o, c, n, x1, p);
    if k < WORDS {
      q := WordsPhase(q, s, m, x1, o, c, n, k + 1, p);
    }
  }

  lemma WordStep(s: State, m: nat, x: Txn, o: nat, c: seq<Ver>, n: nat, k: nat)
    requires x.pc == Certify(Scan(0, k, {})) && x.wset == [o] && |c| > 1 && c[|c| - 2].readers == {}
    ensures var z := With(s, m, x, o, c, n);
            Taken(z, SetTxn(z, m, x.(pc := Certify(if k < WORDS then Scan(0, k + 1, {}) else ReadX(0)))), m)
  {
    var z := With(s, m, x, o, c, n);
    assert WordOf(c[|c| - 2], k) == {};
    assert LoadWord(z, SetTxn(z, m, x.(pc := Certify(if k < WORDS then Scan(0, k + 1, {}) else ReadX(0)))), m);
  }

  // The checks of a write set of one record whose overwritten version shows no reader.
  lemma ScanPhase(r: seq<State>, s: State, m: nat, x: Txn, o: nat, c: seq<Ver>, n: nat, p: Setup)
    returns (q: seq<State>)
    requires Ends(r, With(s, m, x, o, c, n), p) && x.pc == Certify(Load(|x.rset|))
    requires x.wset == [o] && |c| > 1 && c[|c| - 2].readers == {}
    ensures Ends(q, With(s, m, x.(pc := Certify(Final), pstamp := Max(x.pstamp, c[|c| - 2].xstamp)), o, c, n), p)
  {
    hide Ends, Step, Taken, With;
    var x1 := x.(pc := Certify(Scan(0, 0, {})));
    var x2 := x.(pc := Certify(ReadX(0)));
    var x3 := x.(pc := Certify(Scan(1, 0, {})), pstamp := Max(x.pstamp, c[|c| - 2].xstamp));
    ReadsDoneStep(s, m, x, o, c, n);
    AccessStep(s, m, x2, o, c, n);
    WritesDoneStep(s, m, x3, o, c, n);
    q := GoSet(r, s, m, x, o, c, n, x1, p);
    q := WordsPhase(q, s, m, x1, o, c, n, 0, p);
    q := GoSet(q, s, m, x2, o, c, n, x3, p);
    q := GoSet(q, s, m, x3, o, c, n, x3.(pc := Certify(Final)), p);
  }

  // The same for an insert.
  lemma InsertPhase(r: seq<State>, s: State, m: nat, x: Txn, o: nat, c: seq<Ver>, n: nat, p: Setup)
    returns (q: seq<State>)
    requires Ends(r, With(s, m, x, o, c, n), p) && x.pc == Certify(Load(|x.rset|)) && x.wset == [o] && |c| == 1
    ensures Ends(q, With(s, m, x.(pc := Certify(Final)), o, c, n), p)
  {
    hide Ends, Step, Taken, With;
    var x1 := x.(pc := Certify(Scan(0, 0, {})));
    var x3 := x.(pc := Certify(Scan(1, 0, {})));
    ReadsDoneStep(s, m, x, o, c, n);
    SkipStep(s, m, x1, o, c, n);
    WritesDoneStep(s, m, x3, o, c, n);
    q := GoSet(r, s, m, x, o, c, n, x1, p);
    q := GoSet(q, s, m, x1, o, c, n, x3, p);
    q := GoSet(q, s, m, x3, o, c, n, x3.(pc := Certify(Final)), p);
  }

  lemma ReadsDoneStep(s: State, m: nat, x: Txn, o: nat, c: seq<Ver>, n: nat)
    requires x.pc == Certify(Load(|x.rset|))
    ensures var z := With(s, m, x, o, c, n); Taken(z, SetTxn(z, m, x.(pc := Certify(Scan(0, 0, {})))), m)
  {
    var z := With(s, m, x, o, c, n);
    assert ReadsDone(z, SetTxn(z, m, x.(pc := Certify(Scan(0, 0, {})))), m);
  }

  lemma SkipStep(s: State, m: nat, x: Txn, o: nat, c: seq<Ver>, n: nat)
    requires x.pc == Certify(Scan(0, 0, {})) && x.wset == [o] && |c| == 1
    ensures var z := With(s, m, x, o, c, n); Taken(z, SetTxn(z, m, x.(pc := Certify(Scan(1, 0, {})))), m)
  {
    var z := With(s, m, x, o, c, n);
    assert SkipInsert(z, SetTxn(z, m, x.(pc := Certify(Scan(1, 0, {})))), m);
  }

  lemma AccessStep(s: State, m: nat, x: Txn, o: nat, c: seq<Ver>, n: nat)
    requires x.pc == Certify(ReadX(0)) && x.wset == [o] && |c| > 1
    ensures var z := With(s, m, x, o, c, n);
            Taken(z, SetTxn(z, m, x.(pc := Certify(Scan(1, 0, {})), pstamp := Max(x.pstamp, c[|c| - 2].xstamp))), m)
  {
    var z := With(s, m, x, o, c, n);
    assert LoadAccess(z, SetTxn(z, m, x.(pc := Certify(Scan(1, 0, {})), pstamp := Max(x.pstamp, c[|c| - 2].xstamp))),
         m);
  }

  lemma WritesDoneStep(s: State, m: nat, x: Txn, o: nat, c: seq<Ver>, n: nat)
    requires x.pc == Certify(Scan(1, 0, {})) && x.wset == [o]
    ensures var z := With(s, m, x, o, c, n); Taken(z, SetTxn(z, m, x.(pc := Certify(Final))), m)
  {
    var z := With(s, m, x, o, c, n);
    assert WritesDone(z, SetTxn(z, m, x.(pc := Certify(Final))), m);
  }

  // The chain of the written record with the overwritten version stamped, and with the new one.
  function Marked(c: seq<Ver>, high: nat): seq<Ver> {
    if |c| > 1 then c[|c| - 2 := c[|c| - 2].(sstamp := Lsn(high))] else c
  }

  function Sealed(c: seq<Ver>, cs: nat, a: nat): seq<Ver>
    requires |c| > 0
  {
    c[|c| - 1 := c[|c| - 1].(xstamp := cs, clsn := Lsn(a))]
  }

  // Where a version lies in the block that begins at `b` and ends two above it.
  function Addr(p: Setup, b: nat): nat { if p.stamping.Exact? then b + 2 else b + 1 }

  // Pass the exclusion test and stamp the version overwritten.
  lemma PassPhase(r: seq<State>, s: State, m: nat, x: Txn, o: nat, c: seq<Ver>, n: nat, p: Setup)
    returns (q: seq<State>)
    requires Ends(r, With(s, m, x, o, c, n), p) && x.pc == Certify(Final) && x.pstamp < x.sstamp
    requires x.wset == [o] && x.marked == {o} && |c| > 0 && s.setup.ssn
    ensures Ends(q, With(s, m, x.(pc := Stamping(0, WriteX), decided := true, marked := {}), o, Marked(c, x.sstamp),
              n), p)
  {
    hide Ends, Step, Taken, With;
    var l := |c|;
    var x1 := x.(pc := Stamping(0, WriteS), decided := true);
    PassStep(s, m, x, o, c, n);
    SuccessorStep(s, m, x1, o, c, n);
    q := GoSet(r, s, m, x, o, c, n, x1, p);
    if l > 1 {
      q := GoVer(q, s, m, x1, o, c, n, l - 2, c[l - 2].(sstamp := Lsn(x.sstamp)),
          x1.(pc := Stamping(0, WriteX), marked := {}), p);
    } else {
      q := GoSet(q, s, m, x1, o, c, n, x1.(pc := Stamping(0, WriteX), marked := {}), p);
    }
  }

  // Stamp the one version written, set CMMTD.
  lemma StampPhase(r: seq<State>, s: State, m: nat, x: Txn, o: nat, c: seq<Ver>, n: nat, p: Setup)
    returns (q: seq<State>)
    requires Ends(r, With(s, m, x, o, c, n), p) && x.pc == Stamping(0, WriteX)
    requires x.wset == [o] && x.own == {o} && |c| > 0 && x.cs == x.base + 2
    ensures Ends(q, With(s, m, x.(pc := Post(0, PLoad), state := Cmmtd, own := {}), o,
                         Sealed(c, x.cs, Addr(s.setup, x.base)), n), p)
  {
    hide Ends, Step, Taken, With;
    var l := |c|;
    var a := Addr(s.setup, x.base);
    var x3 := x.(pc := Stamping(0, WriteC));
    var x4 := x3.(pc := Stamping(1, WriteS), own := {});
    var e := c[l - 1 := c[l - 1].(xstamp := x.cs)];
    StampXStep(s, m, x, o, c, n);
    ClsnStep(s, m, x3, o, e, n, a);
    CommittedStep(s, m, x4, o, Sealed(c, x.cs, a), n);
    q := GoVer(r, s, m, x, o, c, n, l - 1, c[l - 1].(xstamp := x.cs), x3, p);
    q := GoVer(q, s, m, x3, o, e, n, l - 1, e[l - 1].(clsn := Lsn(a)), x4, p);
    assert e[l - 1 := e[l - 1].(clsn := Lsn(a))] == Sealed(c, x.cs, a);
    q := GoSet(q, s, m, x4, o, Sealed(c, x.cs, a), n, x4.(pc := Post(0, PLoad), state := Cmmtd), p);
  }

  lemma PassStep(s: State, m: nat, x: Txn, o: nat, c: seq<Ver>, n: nat)
    requires x.pc == Certify(Final) && x.pstamp < x.sstamp
    ensures var z := With(s, m, x, o, c, n); Taken(z, SetTxn(z, m, x.(pc := Stamping(0, WriteS), decided := true)), m)
  {
    var z := With(s, m, x, o, c, n);
    assert PassExclusion(z, SetTxn(z, m, x.(pc := Stamping(0, WriteS), decided := true)), m);
  }

  lemma SuccessorStep(s: State, m: nat, x: Txn, o: nat, c: seq<Ver>, n: nat)
    requires x.pc == Stamping(0, WriteS) && x.wset == [o] && x.marked == {o} && |c| > 0 && s.setup.ssn
    ensures var x' := x.(pc := Stamping(0, WriteX), marked := {}); var l := |c|;
            && (l > 1 ==> Taken(With(s, m, x, o, c, n),
                                SetTxn(With(s, m, x, o, c[l - 2 := c[l - 2].(sstamp := Lsn(x.sstamp))], n), m, x'), m))
            && (l == 1 ==> Taken(With(s, m, x, o, c, n), SetTxn(With(s, m, x, o, c, n), m, x'), m))
  {
    var x' := x.(pc := Stamping(0, WriteX), marked := {});
    var l := |c|;
    assert x.marked - {o} == {};
    if l > 1 {
      WithVer(s, m, x, o, c, n, l - 2, c[l - 2].(sstamp := Lsn(x.sstamp)));
      assert StampSuccessorWith(With(s, m, x, o, c, n),
                            SetTxn(With(s, m, x, o, c[l - 2 := c[l - 2].(sstamp := Lsn(x.sstamp))], n), m, x'),
                            m, x.sstamp);
    } else {
      assert StampSuccessorWith(With(s, m, x, o, c, n), SetTxn(With(s, m, x, o, c, n), m, x'), m, x.sstamp);
    }
  }

  lemma StampXStep(s: State, m: nat, x: Txn, o: nat, c: seq<Ver>, n: nat)
    requires x.pc == Stamping(0, WriteX) && x.wset == [o] && |c| > 0
    ensures var l := |c| - 1;
            Taken(With(s, m, x, o, c, n),
                  SetTxn(With(s, m, x, o, c[l := c[l].(xstamp := x.cs)], n), m, x.(pc := Stamping(0, WriteC))), m)
  {
    var l := |c| - 1;
    WithVer(s, m, x, o, c, n, l, c[l].(xstamp := x.cs));
    assert StampX(With(s, m, x, o, c, n),
                  SetTxn(With(s, m, x, o, c[l := c[l].(xstamp := x.cs)], n), m, x.(pc := Stamping(0, WriteC))), m);
  }

  lemma ClsnStep(s: State, m: nat, x: Txn, o: nat, c: seq<Ver>, n: nat, a: nat)
    requires x.pc == Stamping(0, WriteC) && x.wset == [o] && x.own == {o} && |c| > 0 && Within(s.setup, x, a)
    ensures var l := |c| - 1;
            Taken(With(s, m, x, o, c, n),
                  SetTxn(With(s, m, x, o, c[l := c[l].(clsn := Lsn(a))], n), m,
                         x.(pc := Stamping(1, WriteS), own := {})), m)
  {
    var l := |c| - 1;
    assert x.own - {o} == {};
    WithVer(s, m, x, o, c, n, l, c[l].(clsn := Lsn(a)));
    assert StampClsnWith(With(s, m, x, o, c, n),
                     SetTxn(With(s, m, x, o, c[l := c[l].(clsn := Lsn(a))], n), m,
                            x.(pc := Stamping(1, WriteS), own := {})), m, a);
  }

  lemma CommittedStep(s: State, m: nat, x: Txn, o: nat, c: seq<Ver>, n: nat)
    requires x.pc == Stamping(1, WriteS) && x.wset == [o]
    ensures var z := With(s, m, x, o, c, n); Taken(z, SetTxn(z, m, x.(pc := Post(0, PLoad), state := Cmmtd)), m)
  {
    var z := With(s, m, x, o, c, n);
    assert SetCommitted(z, SetTxn(z, m, x.(pc := Post(0, PLoad), state := Cmmtd)), m);
  }

  // ----- beginning, inserting and reading -----

  lemma BeginPhase(r: seq<State>, s: State, m: nat, p: Setup) returns (q: seq<State>)
    requires Ends(r, s, p) && m !in s.txns && m !in s.rlist && m < 64 * WORDS
    ensures Ends(q, SetTxn(s.(rlist := s.rlist[m := m]), m, FreshTxn(m)), p)
  {
    var z := SetTxn(s.(rlist := s.rlist[m := m]), m, FreshTxn(m));
    BeginStep(s, m);
    hide Ends, Step;
    q := Go(r, s, z, m, p);
  }

  lemma BeginStep(s: State, m: nat)
    requires m !in s.txns && m !in s.rlist && m < 64 * WORDS
    ensures Step(s, SetTxn(s.(rlist := s.rlist[m := m]), m, FreshTxn(m)), m)
  {
    assert BeginTxn(s, SetTxn(s.(rlist := s.rlist[m := m]), m, FreshTxn(m)), m, m);
    hide BeginTxn;
  }

  lemma InsertStep(s: State, m: nat, o: nat)
    requires m in s.txns && s.txns[m] == FreshTxn(m) && o !in s.recs
    ensures Step(s, With(s, m, FreshTxn(m).(wset := [o], own := {o}, marked := {o}), o, [NewVer(m)], s.clock), m)
  {
    var x := FreshTxn(m);
    assert x.wset + [o] == [o] && x.own + {o} == {o} && x.marked + {o} == {o};
    assert InsertWith(s, With(s, m, x.(wset := [o], own := {o}, marked := {o}), o, [NewVer(m)], s.clock), m, o, Null);
    assert Insert(s, With(s, m, x.(wset := [o], own := {o}, marked := {o}), o, [NewVer(m)], s.clock), m, o);
    hide Insert;
  }

  // A transaction that inserted record `o` and committed with the block that begins at `b`.
  function Loader(m: nat, o: nat, b: nat): Txn {
    Txn(m, Cmmtd, b + 2, false, 0, b + 2, [], [o], Post(0, PLoad), b + 2, b, true, {}, {}, {}, {})
  }

  function Row(p: Setup, m: nat, b: nat): Ver { Ver(m, Lsn(Addr(p, b)), Null, b + 2, {}) }

  // Transaction `m` inserts record `o` and commits.
  lemma LoadPhase(r: seq<State>, s: State, m: nat, o: nat, p: Setup) returns (q: seq<State>)
    requires Ends(r, s, p) && m !in s.txns && m !in s.rlist && m < 64 * WORDS && o !in s.recs
    requires s.setup == p && p.ssn
    ensures Ends(q, With(s.(rlist := s.rlist[m := m]), m, Loader(m, o, s.clock), o, [Row(p, m, s.clock)],
                         s.clock + 2), p)
  {
    hide Ends, Step, Taken;
    var n := s.clock;
    var z := SetTxn(s.(rlist := s.rlist[m := m]), m, FreshTxn(m));
    q := BeginPhase(r, s, m, p);
    var x := FreshTxn(m).(wset := [o], own := {o}, marked := {o});
    InsertStep(z, m, o);
    q := Go(q, z, With(z, m, x, o, [NewVer(m)], n), m, p);
    q := EnterPhase(q, z, m, x, o, [NewVer(m)], n, p);
    var x1 := x.(pc := Certify(Load(0)), state := Committing, cs := n + 2, base := n, end := n + 2, sstamp := n + 2);
    q := InsertPhase(q, z, m, x1, o, [NewVer(m)], n + 2, p);
    q := PassPhase(q, z, m, x1.(pc := Certify(Final)), o, [NewVer(m)], n + 2, p);
    q := StampPhase(q, z, m, x1.(pc := Stamping(0, WriteX), decided := true, marked := {}), o, [NewVer(m)], n + 2, p);
    assert Sealed([NewVer(m)], n + 2, Addr(p, n)) == [Row(p, m, n)];
    assert z.txns[m := Loader(m, o, n)] == s.txns[m := Loader(m, o, n)];
  }

  lemma PickStep(s: State, m: nat, x: Txn, o: nat, c: seq<Ver>, i: nat, n: nat)
    requires x.pc == Idle && i < |c| && c[i].clsn.Lsn?
    ensures Step(With(s, m, x, o, c, n),
                 With(s, m, x.(pc := Reading(Vid(o, i), LoadS), pstamp := Max(x.pstamp, c[i].clsn.n)), o, c, n), m)
  {
    var z := With(s, m, x, o, c, n);
    var x1 := x.(pc := Reading(Vid(o, i), LoadS), pstamp := Max(x.pstamp, c[i].clsn.n));
    WithSet(s, m, x, o, c, n, x1);
    assert ReadPick(z, With(s, m, x1, o, c, n), m, Vid(o, i));
    hide ReadPick;
  }

  // Context and version after a read of version `i` that has to be tracked.
  function Tracking(x: Txn, o: nat, i: nat, v: Ver): Txn
    requires v.clsn.Lsn?
  {
    x.(pstamp := Max(x.pstamp, v.clsn.n), rset := x.rset + [Vid(o, i)], seen := x.seen + {Vid(o, i)})
  }

  // Read a version whose overwriter, if any, has left no stamp yet.
  lemma TrackPhase(r: seq<State>, s: State, m: nat, x: Txn, o: nat, c: seq<Ver>, i: nat, n: nat) returns (q: seq<State>)
    requires Ends(r, With(s, m, x, o, c, n), s.setup) && x.pc == Idle && i < |c|
    requires c[i].clsn.Lsn? && !c[i].sstamp.Lsn? && c[i].sstamp != Xid(m)
    ensures Ends(q, With(s, m, Tracking(x, o, i, c[i]), o, c[i := c[i].(readers := c[i].readers + Entry(s, x))], n),
                 s.setup)
  {
    hide Ends, Step, Taken, With;
    var w := Vid(o, i);
    var x1 := x.(pc := Reading(w, LoadS), pstamp := Max(x.pstamp, c[i].clsn.n));
    var x2 := x1.(pc := Reading(w, Push));
    var x3 := x2.(pc := Reading(w, Register), rset := x.rset + [w]);
    PickStep(s, m, x, o, c, i, n);
    q := Go(r, With(s, m, x, o, c, n), With(s, m, x1, o, c, n), m, s.setup);
    OpenStep(s, m, x1, o, c, i, n);
    q := GoSet(q, s, m, x1, o, c, n, x2, s.setup);
    PushStep(s, m, x2, o, c, i, n);
    q := GoSet(q, s, m, x2, o, c, n, x3, s.setup);
    RegisterStep(s, m, x3, o, c, i, n);
    q := GoVer(q, s, m, x3, o, c, n, i, c[i].(readers := c[i].readers + Entry(s, x)),
               x3.(pc := Idle, seen := x.seen + {w}), s.setup);
  }

  lemma OpenStep(s: State, m: nat, x: Txn, o: nat, c: seq<Ver>, i: nat, n: nat)
    requires x.pc == Reading(Vid(o, i), LoadS) && i < |c| && !c[i].sstamp.Lsn? && c[i].sstamp != Xid(m)
    ensures var z := With(s, m, x, o, c, n); Taken(z, SetTxn(z, m, x.(pc := Reading(Vid(o, i), Push))), m)
  {
    var z := With(s, m, x, o, c, n);
    assert ReadStamp(z, SetTxn(z, m, x.(pc := Reading(Vid(o, i), Push))), m);
  }

  lemma PushStep(s: State, m: nat, x: Txn, o: nat, c: seq<Ver>, i: nat, n: nat)
    requires x.pc == Reading(Vid(o, i), Push)
    ensures var z := With(s, m, x, o, c, n);
            Taken(z, SetTxn(z, m, x.(pc := Reading(Vid(o, i), Register), rset := x.rset + [Vid(o, i)])), m)
  {
    var z := With(s, m, x, o, c, n);
    assert ReadPush(z, SetTxn(z, m, x.(pc := Reading(Vid(o, i), Register), rset := x.rset + [Vid(o, i)])), m);
  }

  lemma RegisterStep(s: State, m: nat, x: Txn, o: nat, c: seq<Ver>, i: nat, n: nat)
    requires x.pc == Reading(Vid(o, i), Register) && i < |c|
    ensures Taken(With(s, m, x, o, c, n),
                  SetTxn(With(s, m, x, o, c[i := c[i].(readers := c[i].readers + Entry(s, x))], n), m,
                         x.(pc := Idle, seen := x.seen + {Vid(o, i)})), m)
  {
    WithVer(s, m, x, o, c, n, i, c[i].(readers := c[i].readers + Entry(s, x)));
    assert ReadRegister(With(s, m, x, o, c, n),
                        SetTxn(With(s, m, x, o, c[i := c[i].(readers := c[i].readers + Entry(s, x))], n), m,
                               x.(pc := Idle, seen := x.seen + {Vid(o, i)})), m);
  }

  // Read a version whose overwriter has committed.
  lemma SettledPhase(r: seq<State>, s: State, m: nat, x: Txn, o: nat, c: seq<Ver>, n: nat, p: Setup)
    returns (q: seq<State>)
    requires Ends(r, With(s, m, x, o, c, n), p) && x.pc == Idle && x.sstamp == 0
    requires |c| > 0 && c[0].clsn.Lsn? && c[0].sstamp.Lsn?
    ensures Ends(q, With(s, m, x.(pstamp := Max(x.pstamp, c[0].clsn.n), sstamp := c[0].sstamp.n,
              seen := x.seen + {Vid(o, 0)}),
                         o, c, n), p)
  {
    hide Ends, Step, Taken, With;
    var x1 := x.(pc := Reading(Vid(o, 0), LoadS), pstamp := Max(x.pstamp, c[0].clsn.n));
    PickStep(s, m, x, o, c, 0, n);
    q := Go(r, With(s, m, x, o, c, n), With(s, m, x1, o, c, n), m, p);
    SettledStep(s, m, x1, o, c, n);
    q := GoSet(q, s, m, x1, o, c, n, x1.(pc := Idle, seen := x.seen + {Vid(o, 0)}, sstamp := c[0].sstamp.n), p);
  }

  lemma SettledStep(s: State, m: nat, x: Txn, o: nat, c: seq<Ver>, n: nat)
    requires x.pc == Reading(Vid(o, 0), LoadS) && x.sstamp == 0 && |c| > 0 && c[0].sstamp.Lsn?
    ensures var z := With(s, m, x, o, c, n);
            Taken(z, SetTxn(z, m, x.(pc := Idle, seen := x.seen + {Vid(o, 0)}, sstamp := c[0].sstamp.n)), m)
  {
    var z := With(s, m, x, o, c, n);
    assert ReadStamp(z, SetTxn(z, m, x.(pc := Idle, seen := x.seen + {Vid(o, 0)}, sstamp := c[0].sstamp.n)), m);
  }

  // The check of the only read, which nobody has overwritten.
  lemma ProbePhase(r: seq<State>, s: State, m: nat, x: Txn, o: nat, c: seq<Ver>, n: nat, p: Setup)
    returns (q: seq<State>)
    requires Ends(r, With(s, m, x, o, c, n), p) && x.pc == Certify(Load(0)) && |x.rset| == 1 && x.rset[0].o != o
    requires Has(s, x.rset[0]) && At(s, x.rset[0]).sstamp.Null?
    ensures Ends(q, With(s, m, x.(pc := Certify(Load(1))), o, c, n), p)
  {
    ProbeStep(s, m, x, o, c, n);
    hide Ends, Step, Taken, With;
    q := GoSet(r, s, m, x, o, c, n, x.(pc := Certify(Load(1))), p);
  }

  lemma ProbeStep(s: State, m: nat, x: Txn, o: nat, c: seq<Ver>, n: nat)
    requires x.pc == Certify(Load(0)) && |x.rset| == 1 && x.rset[0].o != o
    requires Has(s, x.rset[0]) && At(s, x.rset[0]).sstamp.Null?
    ensures var z := With(s, m, x, o, c, n); Taken(z, SetTxn(z, m, x.(pc := Certify(Load(1)))), m)
  {
    var z := With(s, m, x, o, c, n);
    assert Probe(z, SetTxn(z, m, x.(pc := Certify(Load(1)))), m);
  }

  // The check of two reads in record `o`: the overwriter of the first has committed, the second has none.
  lemma TwoReadsPhase(r: seq<State>, s: State, m: nat, x: Txn, o: nat, c: seq<Ver>, n: nat, p: Setup)
    returns (q: seq<State>)
    requires Ends(r, With(s, m, x, o, c, n), p) && x.pc == Certify(Load(0)) && x.rset == [Vid(o, 0), Vid(o, 1)]
    requires |c| == 2 && c[0].sstamp.Lsn? && c[1].sstamp.Null?
    ensures Ends(q, With(s, m, x.(pc := Certify(Load(2)), sstamp := Min(x.sstamp, c[0].sstamp.n)), o, c, n), p)
  {
    hide Ends, Step, Taken, With;
    var x1 := x.(pc := Certify(Load(1)), sstamp := Min(x.sstamp, c[0].sstamp.n));
    TwoReadsSteps(s, m, x, o, c, n);
    q := GoSet(r, s, m, x, o, c, n, x1, p);
    q := GoSet(q, s, m, x1, o, c, n, x1.(pc := Certify(Load(2))), p);
  }

  lemma TwoReadsSteps(s: State, m: nat, x: Txn, o: nat, c: seq<Ver>, n: nat)
    requires x.pc == Certify(Load(0)) && x.rset == [Vid(o, 0), Vid(o, 1)]
    requires |c| == 2 && c[0].sstamp.Lsn? && c[1].sstamp.Null?
    ensures var x1 := x.(pc := Certify(Load(1)), sstamp := Min(x.sstamp, c[0].sstamp.n));
            && (var z := With(s, m, x, o, c, n); Taken(z, SetTxn(z, m, x1), m))
            && (var z := With(s, m, x1, o, c, n); Taken(z, SetTxn(z, m, x1.(pc := Certify(Load(2)))), m))
  {
    var x1 := x.(pc := Certify(Load(1)), sstamp := Min(x.sstamp, c[0].sstamp.n));
    var z, z1 := With(s, m, x, o, c, n), With(s, m, x1, o, c, n);
    assert LoadSettled(z, SetTxn(z, m, x1), m);
    assert Probe(z1, SetTxn(z1, m, x1.(pc := Certify(Load(2)))), m);
  }

  // A transaction that wrote nothing passes the exclusion test and commits.
  lemma ReadOnlyPhase(r: seq<State>, s: State, m: nat, x: Txn, o: nat, c: seq<Ver>, n: nat, p: Setup)
    returns (q: seq<State>)
    requires Ends(r, With(s, m, x, o, c, n), p) && x.pc == Certify(Load(|x.rset|)) && x.wset == []
    requires x.pstamp < x.sstamp
    ensures Ends(q, With(s, m, x.(pc := Post(0, PLoad), state := Cmmtd, decided := true), o, c, n), p)
  {
    hide Ends, Step, Taken, With;
    var x1 := x.(pc := Certify(Scan(0, 0, {})));
    var x2 := x.(pc := Certify(Final));
    var x3 := x.(pc := Stamping(0, WriteS), decided := true);
    ReadsDoneStep(s, m, x, o, c, n);
    NoWritesSteps(s, m, x1, x3, o, c, n);
    PassStep(s, m, x2, o, c, n);
    q := GoSet(r, s, m, x, o, c, n, x1, p);
    q := GoSet(q, s, m, x1, o, c, n, x2, p);
    q := GoSet(q, s, m, x2, o, c, n, x3, p);
    q := GoSet(q, s, m, x3, o, c, n, x3.(pc := Post(0, PLoad), state := Cmmtd), p);
  }

  lemma NoWritesSteps(s: State, m: nat, x: Txn, y: Txn, o: nat, c: seq<Ver>, n: nat)
    requires x.pc == Certify(Scan(0, 0, {})) && x.wset == [] && y.pc == Stamping(0, WriteS) && y.wset == []
    ensures var z := With(s, m, x, o, c, n); Taken(z, SetTxn(z, m, x.(pc := Certify(Final))), m)
    ensures var z := With(s, m, y, o, c, n); Taken(z, SetTxn(z, m, y.(pc := Post(0, PLoad), state := Cmmtd)), m)
  {
    var z, z1 := With(s, m, x, o, c, n), With(s, m, y, o, c, n);
    assert WritesDone(z, SetTxn(z, m, x.(pc := Certify(Final))), m);
    assert SetCommitted(z1, SetTxn(z1, m, y.(pc := Post(0, PLoad), state := Cmmtd)), m);
  }

  // Looking at transaction `m` and record `o` of a state.
  lemma Focus(z: State, m: nat, o: nat)
    requires m in z.txns && o in z.recs
    ensures With(z, m, z.txns[m], o, z.recs[o], z.clock) == z
  {
    assert z.txns[m := z.txns[m]] == z.txns && z.recs[o := z.recs[o]] == z.recs;
  }
}
