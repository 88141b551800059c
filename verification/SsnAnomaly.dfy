/**
 What the serial safety net guarantees when no worker holds a position in the readers bitmaps, as
 after `assign_reader_bitmap_entry`, which fills in copies of the entries, or when a version does
 not carry the commit stamp of its writer, as after `GenerateClsnPtr`: two runs in which two
 committed transactions precede each other.
 */
module SsnAnomaly {
  import opened Stamps
  import opened Engine
  import opened Serializability
  import opened Ssn
  import opened SsnTheorems
  import opened SsnRuns

  // Two loaders have committed records 0 and 1; transactions 2 and 3 are at work on them.
  function Stage(n: nat, b: Txn, u: Txn, x: seq<Ver>, y: seq<Ver>, p: Setup): State {
    State(n, map[0 := Loader(0, 0, 0), 1 := Loader(1, 1, 2), 2 := b, 3 := u], map[0 := x, 1 := y],
          map[0 := 0, 1 := 1, 2 := 2, 3 := 3], p)
  }

  lemma StageWith(n: nat, b: Txn, u: Txn, x: seq<Ver>, y: seq<Ver>, p: Setup, n': nat, z: Txn, c: seq<Ver>)
    ensures With(Stage(n, b, u, x, y, p), 2, z, 0, c, n') == Stage(n', z, u, c, y, p)
    ensures With(Stage(n, b, u, x, y, p), 2, z, 1, c, n') == Stage(n', z, u, x, c, p)
    ensures With(Stage(n, b, u, x, y, p), 3, z, 0, c, n') == Stage(n', b, z, c, y, p)
    ensures With(Stage(n, b, u, x, y, p), 3, z, 1, c, n') == Stage(n', b, z, x, c, p)
  {
    StageTxns(n, b, u, x, y, p, z);
    StageRecs(n, b, u, x, y, p, c);
  }

  lemma StageTxns(n: nat, b: Txn, u: Txn, x: seq<Ver>, y: seq<Ver>, p: Setup, z: Txn)
    ensures Stage(n, b, u, x, y, p).txns[2 := z] == Stage(n, z, u, x, y, p).txns
    ensures Stage(n, b, u, x, y, p).txns[3 := z] == Stage(n, b, z, x, y, p).txns
  {
    hide Loader;
  }

  lemma StageRecs(n: nat, b: Txn, u: Txn, x: seq<Ver>, y: seq<Ver>, p: Setup, c: seq<Ver>)
    ensures Stage(n, b, u, x, y, p).recs[0 := c] == Stage(n, b, u, c, y, p).recs
    ensures Stage(n, b, u, x, y, p).recs[1 := c] == Stage(n, b, u, x, c, p).recs
  {
    hide Loader;
  }

  lemma Loading(p: Setup) returns (q: seq<State>)
    requires p.ssn && p.clean
    ensures Ends(q, Stage(4, FreshTxn(2), FreshTxn(3), [Row(p, 0, 0)], [Row(p, 1, 2)], p), p)
  {
    var s0 := State(0, map[], map[], map[], p);
    q := [s0];
    assert Ends(q, s0, p);
    hide Ends;
    q := LoadPhase(q, s0, 0, 0, p);
    var s1 := With(s0.(rlist := s0.rlist[0 := 0]), 0, Loader(0, 0, 0), 0, [Row(p, 0, 0)], 2);
    q := LoadPhase(q, s1, 1, 1, p);
    var s2 := With(s1.(rlist := s1.rlist[1 := 1]), 1, Loader(1, 1, 2), 1, [Row(p, 1, 2)], 4);
    q := BeginPhase(q, s2, 2, p);
    var s3 := SetTxn(s2.(rlist := s2.rlist[2 := 2]), 2, FreshTxn(2));
    q := BeginPhase(q, s3, 3, p);
    Staged(p);
  }

  lemma Staged(p: Setup)
    ensures var s0 := State(0, map[], map[], map[], p);
            var s1 := With(s0.(rlist := s0.rlist[0 := 0]), 0, Loader(0, 0, 0), 0, [Row(p, 0, 0)], 2);
            var s2 := With(s1.(rlist := s1.rlist[1 := 1]), 1, Loader(1, 1, 2), 1, [Row(p, 1, 2)], 4);
            var s3 := SetTxn(s2.(rlist := s2.rlist[2 := 2]), 2, FreshTxn(2));
            SetTxn(s3.(rlist := s3.rlist[3 := 3]), 3, FreshTxn(3))
            == Stage(4, FreshTxn(2), FreshTxn(3), [Row(p, 0, 0)], [Row(p, 1, 2)], p)
  {
    var z := Stage(4, FreshTxn(2), FreshTxn(3), [Row(p, 0, 0)], [Row(p, 1, 2)], p);
    assert z.txns == map[][0 := Loader(0, 0, 0)][1 := Loader(1, 1, 2)][2 := FreshTxn(2)][3 := FreshTxn(3)];
    assert z.recs == map[][0 := [Row(p, 0, 0)]][1 := [Row(p, 1, 2)]];
    assert z.rlist == map[][0 := 0][1 := 1][2 := 2][3 := 3];
  }

  // Transaction 2 has read record 1, overwritten record 0, committed, and not yet left its mark on
  // what it read.
  function Reader(p: Setup): Txn {
    Txn(2, Cmmtd, 6, false, Addr(p, 2), 6, [Vid(1, 0)], [0], Post(0, PLoad), 6, 4, true, {}, {}, {Vid(1, 0)}, {})
  }

  // The same before it enters commit.
  function Reading(p: Setup): Txn {
    Txn(2, Active, 0, false, Addr(p, 2), 0, [Vid(1, 0)], [0], Idle, 0, 0, false, {0}, {0}, {Vid(1, 0)}, {})
  }

  // What is left of the two versions it dealt with.
  function Overwritten(p: Setup): seq<Ver> { [Row(p, 0, 0).(sstamp := Lsn(6)), Row(p, 2, 4)] }

  function Overwriting(p: Setup): seq<Ver> { [Row(p, 0, 0).(sstamp := Xid(2)), NewVer(2).(xstamp := 2)] }

  function ReadRow(p: Setup): Ver { Row(p, 1, 2).(readers := if p.placed then {2} else {}) }

  lemma ReaderWrites(p: Setup) returns (q: seq<State>)
    requires p.ssn && p.clean
    ensures Ends(q, Stage(4, Reading(p), FreshTxn(3), Overwriting(p), [ReadRow(p)], p), p)
  {
    hide Ends;
    q := Loading(p);
    var s := Stage(4, FreshTxn(2), FreshTxn(3), [Row(p, 0, 0)], [Row(p, 1, 2)], p);
    Focus(s, 2, 1);
    q := TrackPhase(q, s, 2, FreshTxn(2), 1, [Row(p, 1, 2)], 0, 4);
    var x := FreshTxn(2).(pstamp := Addr(p, 2), rset := [Vid(1, 0)], seen := {Vid(1, 0)});
    TrackedRow(p, s);
    StageWith(4, FreshTxn(2), FreshTxn(3), [Row(p, 0, 0)], [Row(p, 1, 2)], p, 4, x, [ReadRow(p)]);
    var s1 := Stage(4, x, FreshTxn(3), [Row(p, 0, 0)], [ReadRow(p)], p);
    Focus(s1, 2, 0);
    q := InstallPhase(q, s1, 2, x, 0, Row(p, 0, 0), 4, p);
    var x1 := x.(pc := Updating(0, CopyX), own := {} + {0});
    q := MarkPhase(q, s1, 2, x1, 0, Row(p, 0, 0), NewVer(2), 4, p);
    StageWith(4, x, FreshTxn(3), [Row(p, 0, 0)], [ReadRow(p)], p, 4, Reading(p), Overwriting(p));
    assert [] + [0] == [0] && {} + {0} == {0};
  }

  lemma TrackedRow(p: Setup, s: State)
    requires s.setup == p
    ensures Tracking(FreshTxn(2), 1, 0, Row(p, 1, 2))
            == FreshTxn(2).(pstamp := Addr(p, 2), rset := [Vid(1, 0)], seen := {Vid(1, 0)})
    ensures var c := [Row(p, 1, 2)]; c[0 := c[0].(readers := c[0].readers + Entry(s, FreshTxn(2)))] == [ReadRow(p)]
  {
    assert [] + [Vid(1, 0)] == [Vid(1, 0)] && {} + {Vid(1, 0)} == {Vid(1, 0)};
    assert {} + Entry(s, FreshTxn(2)) == ReadRow(p).readers;
  }

  lemma ReaderCommits(p: Setup) returns (q: seq<State>)
    requires p.ssn && p.clean
    ensures Ends(q, Stage(6, Reader(p), FreshTxn(3), Overwritten(p), [ReadRow(p)], p), p)
  {
    hide Ends;
    q := ReaderWrites(p);
    var x, c := Reading(p), Overwriting(p);
    var s := Stage(4, x, FreshTxn(3), c, [ReadRow(p)], p);
    Focus(s, 2, 0);
    q := EnterPhase(q, s, 2, x, 0, c, 4, p);
    var x1 := x.(pc := Certify(Load(0)), state := Committing, cs := 6, base := 4, end := 6, sstamp := 6);
    q := ProbePhase(q, s, 2, x1, 0, c, 6, p);
    q := ScanPhase(q, s, 2, x1.(pc := Certify(Load(1))), 0, c, 6, p);
    q := PassPhase(q, s, 2, x1.(pc := Certify(Final)), 0, c, 6, p);
    var x2 := x1.(pc := Stamping(0, WriteX), decided := true, marked := {});
    q := StampPhase(q, s, 2, x2, 0, Marked(c, 6), 6, p);
    assert Sealed(Marked(c, 6), 6, Addr(p, 4)) == Overwritten(p);
    StageWith(4, x, FreshTxn(3), c, [ReadRow(p)], p, 6, Reader(p), Overwritten(p));
  }

  // Transaction 3 has read what transaction 2 overwrote and put a version over what it read.
  function Writer(): Txn {
    Txn(3, Active, 0, false, 4, 6, [], [], Updating(1, CopyX), 0, 0, false, {1}, {}, {Vid(0, 0)}, {})
  }

  lemma WriterInstalls(p: Setup) returns (q: seq<State>)
    requires p.ssn && p.clean
    ensures Ends(q, Stage(6, Reader(p), Writer(), Overwritten(p), [ReadRow(p), NewVer(3)], p), p)
  {
    hide Ends;
    q := ReaderCommits(p);
    var s := Stage(6, Reader(p), FreshTxn(3), Overwritten(p), [ReadRow(p)], p);
    Focus(s, 3, 0);
    q := SettledPhase(q, s, 3, FreshTxn(3), 0, Overwritten(p), 6, p);
    assert {} + {Vid(0, 0)} == {Vid(0, 0)} && {} + {1} == {1};
    var x := FreshTxn(3).(pstamp := Addr(p, 0), sstamp := 6, seen := {Vid(0, 0)});
    StageWith(6, Reader(p), FreshTxn(3), Overwritten(p), [ReadRow(p)], p, 6, x, Overwritten(p));
    var s1 := Stage(6, Reader(p), x, Overwritten(p), [ReadRow(p)], p);
    Focus(s1, 3, 1);
    q := InstallPhase(q, s1, 3, x, 1, ReadRow(p), 6, p);
    StageWith(6, Reader(p), x, Overwritten(p), [ReadRow(p)], p, 6, Writer(), [ReadRow(p), NewVer(3)]);
  }

  // ----- without positions: the writer misses the reader -----

  // Transaction 3 after its commit, and the record it overwrote.
  function Missed(p: Setup): State {
    Stage(8, Reader(p), Txn(3, Cmmtd, 8, false, 4, 6, [], [1], Post(0, PLoad), 8, 6, true, {}, {}, {Vid(0, 0)}, {}),
          Overwritten(p), [Row(p, 1, 2).(sstamp := Lsn(6)), Row(p, 3, 6)], p)
  }

  // Transaction 3 before its last test: it has looked for readers of what it overwrote.
  function Final3(): Txn {
    Txn(3, Committing, 8, false, 4, 6, [], [1], Certify(Final), 8, 6, false, {1}, {1}, {Vid(0, 0)}, {})
  }

  function Unaware(p: Setup): State {
    Stage(8, Reader(p), Final3(), Overwritten(p), [Row(p, 1, 2).(sstamp := Xid(3)), NewVer(3).(xstamp := 4)], p)
  }

  lemma WriterScans(p: Setup) returns (q: seq<State>)
    requires p.ssn && p.clean && !p.placed
    ensures Ends(q, Unaware(p), p)
  {
    hide Ends;
    q := WriterInstalls(p);
    var y := ReadRow(p);
    var s := Stage(6, Reader(p), Writer(), Overwritten(p), [y, NewVer(3)], p);
    Focus(s, 3, 1);
    q := MarkPhase(q, s, 3, Writer(), 1, y, NewVer(3), 6, p);
    assert [] + [1] == [1] && {} + {1} == {1};
    var x := Writer().(pc := Idle, wset := [1], marked := {1});
    var c := [y.(sstamp := Xid(3)), NewVer(3).(xstamp := 4)];
    q := EnterPhase(q, s, 3, x, 1, c, 6, p);
    var x1 := x.(pc := Certify(Load(0)), state := Committing, cs := 8, base := 6, end := 8);
    q := ScanPhase(q, s, 3, x1, 1, c, 8, p);
    StageWith(6, Reader(p), Writer(), Overwritten(p), [y, NewVer(3)], p, 8, Final3(), c);
  }

  lemma WriterCommits(p: Setup) returns (q: seq<State>)
    requires p.ssn && p.clean && !p.placed
    ensures Ends(q, Missed(p), p)
  {
    hide Ends;
    q := WriterScans(p);
    var s := Unaware(p);
    var x, c := Final3(), [Row(p, 1, 2).(sstamp := Xid(3)), NewVer(3).(xstamp := 4)];
    Focus(s, 3, 1);
    q := PassPhase(q, s, 3, x, 1, c, 8, p);
    var x1 := x.(pc := Stamping(0, WriteX), decided := true, marked := {});
    q := StampPhase(q, s, 3, x1, 1, Marked(c, 6), 8, p);
    assert Sealed(Marked(c, 6), 8, Addr(p, 6)) == [Row(p, 1, 2).(sstamp := Lsn(6)), Row(p, 3, 6)];
    StageWith(8, Reader(p), x, Overwritten(p), c, p, 8, Missed(p).txns[3], Missed(p).recs[1]);
  }

  // Each of the two transactions overwrote what the other had read.
  lemma MissedIsCyclic(p: Setup)
    ensures Cycle([2, 3], Deps(Missed(p))) && !Acyclic(Deps(Missed(p)))
    ensures !Handshaken(Missed(p)) && !NoneMissed(Missed(p))
  {
    var s := Missed(p);
    assert Vid(1, 0) in s.txns[2].seen && Overwrites(s, Vid(1, 0), 3);
    assert Vid(0, 0) in s.txns[3].seen && Overwrites(s, Vid(0, 0), 2);
    assert Depends(s, 2, 3) && Depends(s, 3, 2);
    assert Cycle([2, 3], Deps(s));
    assert !Noticed(s, 2, Vid(1, 0));
    assert ReaderBefore(s, 3, 2, Vid(1, 0));
  }

  // ----- with versions stamped before the commit stamp: the reader sees both versions -----

  // A loader has committed record 0; transactions 1 and 2 are at work on it.
  function Pair(n: nat, b: Txn, u: Txn, x: seq<Ver>, p: Setup): State {
    State(n, map[0 := Loader(0, 0, 0), 1 := b, 2 := u], map[0 := x], map[0 := 0, 1 := 1, 2 := 2], p)
  }

  lemma PairWith(n: nat, b: Txn, u: Txn, x: seq<Ver>, p: Setup, n': nat, z: Txn, c: seq<Ver>)
    ensures With(Pair(n, b, u, x, p), 1, z, 0, c, n') == Pair(n', z, u, c, p)
    ensures With(Pair(n, b, u, x, p), 2, z, 0, c, n') == Pair(n', b, z, c, p)
  {
    var s := Pair(n, b, u, x, p);
    assert s.txns[1 := z] == Pair(n, z, u, x, p).txns && s.txns[2 := z] == Pair(n, b, z, x, p).txns;
    assert s.recs[0 := c] == Pair(n, b, u, c, p).recs;
  }

  // Transaction 1 alone with the record.
  function Alone(n: nat, b: Txn, x: seq<Ver>, p: Setup): State {
    State(n, map[0 := Loader(0, 0, 0), 1 := b], map[0 := x], map[0 := 0, 1 := 1], p)
  }

  lemma AloneWith(n: nat, b: Txn, x: seq<Ver>, p: Setup, n': nat, z: Txn, c: seq<Ver>)
    ensures With(Alone(n, b, x, p), 1, z, 0, c, n') == Alone(n', z, c, p)
    ensures SetTxn(Alone(n, b, x, p).(rlist := Alone(n, b, x, p).rlist[2 := 2]), 2, z) == Pair(n, b, z, x, p)
  {
    var s := Alone(n, b, x, p);
    assert s.txns[1 := z] == Alone(n, z, x, p).txns && s.recs[0 := c] == Alone(n, b, c, p).recs;
    assert s.txns[2 := z] == Pair(n, b, z, x, p).txns && s.rlist[2 := 2] == Pair(n, b, z, x, p).rlist;
  }

  // Transaction 1 with its checks done, about to take the exclusion test.
  function Checked(): Txn {
    Txn(1, Committing, 4, false, 2, 4, [], [0], Certify(Final), 4, 2, false, {0}, {0}, {}, {})
  }

  function Pending(p: Setup): seq<Ver> { [Row(p, 0, 0).(sstamp := Xid(1)), NewVer(1).(xstamp := 2)] }

  lemma WriterBegins(p: Setup) returns (q: seq<State>)
    requires p.ssn && p.clean
    ensures Ends(q, Alone(2, FreshTxn(1), [Row(p, 0, 0)], p), p)
  {
    var s0 := State(0, map[], map[], map[], p);
    q := [s0];
    assert Ends(q, s0, p);
    hide Ends;
    q := LoadPhase(q, s0, 0, 0, p);
    var s1 := With(s0.(rlist := s0.rlist[0 := 0]), 0, Loader(0, 0, 0), 0, [Row(p, 0, 0)], 2);
    q := BeginPhase(q, s1, 1, p);
    Begun(p);
  }

  lemma WriterChecks(p: Setup) returns (q: seq<State>)
    requires p.ssn && p.clean
    ensures Ends(q, Alone(4, Checked(), Pending(p), p), p)
  {
    hide Ends;
    q := WriterBegins(p);
    var s := Alone(2, FreshTxn(1), [Row(p, 0, 0)], p);
    Focus(s, 1, 0);
    q := InstallPhase(q, s, 1, FreshTxn(1), 0, Row(p, 0, 0), 2, p);
    assert [] + [0] == [0] && {} + {0} == {0};
    var x := FreshTxn(1).(pc := Updating(0, CopyX), own := {0}, pstamp := 2);
    q := MarkPhase(q, s, 1, x, 0, Row(p, 0, 0), NewVer(1), 2, p);
    var x1 := x.(pc := Idle, wset := [0], marked := {0});
    q := EnterPhase(q, s, 1, x1, 0, Pending(p), 2, p);
    var x2 := x1.(pc := Certify(Load(0)), state := Committing, cs := 4, base := 2, end := 4, sstamp := 4);
    q := ScanPhase(q, s, 1, x2, 0, Pending(p), 4, p);
    AloneWith(2, FreshTxn(1), [Row(p, 0, 0)], p, 4, Checked(), Pending(p));
  }

  lemma Begun(p: Setup)
    ensures var s0 := State(0, map[], map[], map[], p);
            var s1 := With(s0.(rlist := s0.rlist[0 := 0]), 0, Loader(0, 0, 0), 0, [Row(p, 0, 0)], 2);
            SetTxn(s1.(rlist := s1.rlist[1 := 1]), 1, FreshTxn(1)) == Alone(2, FreshTxn(1), [Row(p, 0, 0)], p)
  {
    var z := Alone(2, FreshTxn(1), [Row(p, 0, 0)], p);
    assert z.txns == map[][0 := Loader(0, 0, 0)][1 := FreshTxn(1)];
    assert z.recs == map[][0 := [Row(p, 0, 0)]] && z.rlist == map[][0 := 0][1 := 1];
  }

  // Transaction 1 after its commit.
  function Sealer(): Txn {
    Txn(1, Cmmtd, 4, false, 2, 4, [], [0], Post(0, PLoad), 4, 2, true, {}, {}, {}, {})
  }

  function Bit(p: Setup): set<nat> { if p.placed then {2} else {} }

  // The two versions once transaction 2 has read the first, and once it has read both.
  function Once(p: Setup): seq<Ver> {
    [Row(p, 0, 0).(sstamp := Lsn(4), readers := Bit(p)), Row(p, 1, 2)]
  }

  function Both(p: Setup): seq<Ver> {
    [Row(p, 0, 0).(sstamp := Lsn(4), readers := Bit(p)), Row(p, 1, 2).(readers := Bit(p))]
  }

  // Transaction 2, which began after transaction 1 had drawn its stamp, reads the version below.
  lemma ReaderSeesOld(p: Setup) returns (q: seq<State>)
    requires p.ssn && p.clean
    ensures Ends(q, Pair(4, Sealer(), Tracking(FreshTxn(2), 0, 0, Row(p, 0, 0)), Once(p), p), p)
  {
    hide Ends;
    q := WriterChecks(p);
    q := BeginPhase(q, Alone(4, Checked(), Pending(p), p), 2, p);
    AloneWith(4, Checked(), Pending(p), p, 4, FreshTxn(2), Pending(p));
    var s := Pair(4, Checked(), FreshTxn(2), Pending(p), p);
    Focus(s, 2, 0);
    q := TrackPhase(q, s, 2, FreshTxn(2), 0, Pending(p), 0, 4);
    var u := Tracking(FreshTxn(2), 0, 0, Row(p, 0, 0));
    var c := Pending(p)[0 := Pending(p)[0].(readers := Bit(p))];
    assert {} + Entry(s, FreshTxn(2)) == Bit(p);
    PairWith(4, Checked(), FreshTxn(2), Pending(p), p, 4, u, c);
    var s1 := Pair(4, Checked(), u, c, p);
    Focus(s1, 1, 0);
    q := PassPhase(q, s1, 1, Checked(), 0, c, 4, p);
    var x := Checked().(pc := Stamping(0, WriteX), decided := true, marked := {});
    q := StampPhase(q, s1, 1, x, 0, Marked(c, 4), 4, p);
    assert Sealed(Marked(c, 4), 4, Addr(p, 2)) == Once(p);
    PairWith(4, Checked(), u, c, p, 4, Sealer(), Once(p));
  }

  // Transaction 2 after its commit.
  function Twice(p: Setup): State {
    Pair(6, Sealer(), Txn(2, Cmmtd, 6, false, 3, 4, [Vid(0, 0), Vid(0, 1)], [], Post(0, PLoad), 6, 4, true, {}, {},
                          {Vid(0, 0), Vid(0, 1)}, {}), Both(p), p)
  }

  lemma ReaderSeesBoth(p: Setup) returns (q: seq<State>)
    requires p.ssn && p.clean && !p.stamping.Exact?
    ensures Ends(q, Twice(p), p)
  {
    hide Ends;
    q := ReaderSeesOld(p);
    var u := Tracking(FreshTxn(2), 0, 0, Row(p, 0, 0));
    var s := Pair(4, Sealer(), u, Once(p), p);
    Focus(s, 2, 0);
    q := TrackPhase(q, s, 2, u, 0, Once(p), 1, 4);
    assert {} + Entry(s, u) == Bit(p);
    assert Once(p)[1 := Once(p)[1].(readers := Bit(p))] == Both(p);
    assert [] + [Vid(0, 0)] + [Vid(0, 1)] == [Vid(0, 0), Vid(0, 1)];
    assert {} + {Vid(0, 0)} + {Vid(0, 1)} == {Vid(0, 0), Vid(0, 1)};
    var x := Tracking(u, 0, 1, Row(p, 1, 2));
    q := EnterPhase(q, s, 2, x, 0, Both(p), 4, p);
    var x1 := x.(pc := Certify(Load(0)), state := Committing, cs := 6, base := 4, end := 6, sstamp := 6);
    q := TwoReadsPhase(q, s, 2, x1, 0, Both(p), 6, p);
    var x2 := x1.(pc := Certify(Load(2)), sstamp := 4);
    q := ReadOnlyPhase(q, s, 2, x2, 0, Both(p), 6, p);
    PairWith(4, Sealer(), u, Once(p), p, 6, Twice(p).txns[2], Both(p));
  }

  // Transaction 2 comes before transaction 1, which overwrote what it read, and after it, whose
  // version it read.
  lemma TwiceIsCyclic(p: Setup)
    ensures Cycle([1, 2], Deps(Twice(p))) && !Acyclic(Deps(Twice(p)))
  {
    var s := Twice(p);
    assert Vid(0, 1) in s.txns[2].seen && Wrote(s, 1, 0, 1);
    assert Vid(0, 0) in s.txns[2].seen && Overwrites(s, Vid(0, 0), 1);
    assert Depends(s, 1, 2) && Depends(s, 2, 1);
    assert Cycle([1, 2], Deps(s));
  }

  // ----- what holds exactly when -----

  // All states of all runs with setup `p`.
  ghost predicate Reached(s: State, p: Setup) {
    exists r :: Ends(r, s, p)
  }

  /**
   SSN keeps every run serializable if and only if workers hold positions in the bitmaps and
   versions carry the commit stamps of their writers.
   */
  lemma SerializableExactly(p: Setup)
    requires p.ssn && p.clean
    ensures (forall s :: Reached(s, p) ==> Acyclic(Deps(s))) <==> p.placed && p.stamping.Exact?
  {
    hide Acyclic, Deps, Run;
    if !p.placed {
      var r := WriterCommits(p);
      MissedIsCyclic(p);
      assert Reached(Missed(p), p);
    } else if !p.stamping.Exact? {
      var r := ReaderSeesBoth(p);
      TwiceIsCyclic(p);
      assert Reached(Twice(p), p);
    } else {
      forall s | Reached(s, p) ensures Acyclic(Deps(s)) {
        var r :| Ends(r, s, p);
        Serializable(r);
      }
    }
  }

  /** The reader/writer handshake holds in every reachable state if and only if positions are held. */
  lemma HandshakesExactly(p: Setup)
    requires p.ssn && p.clean
    ensures (forall s :: Reached(s, p) ==> Handshaken(s)) <==> p.placed
  {
    hide Handshaken, Run;
    if p.placed {
      forall s | Reached(s, p) ensures Handshaken(s) {
        var r :| Ends(r, s, p);
        Handshakes(r);
      }
    } else {
      var r := WriterCommits(p);
      MissedIsCyclic(p);
      assert Reached(Missed(p), p);
    }
  }

  /** No certified writer ever misses an earlier reader if and only if positions are held. */
  lemma NoReaderMissedExactly(p: Setup)
    requires p.ssn && p.clean
    ensures (forall s :: Reached(s, p) ==> NoneMissed(s)) <==> p.placed
  {
    hide NoneMissed, Run;
    if p.placed {
      forall s | Reached(s, p) ensures NoneMissed(s) {
        var r :| Ends(r, s, p);
        NoReaderMissed(r);
      }
    } else {
      var r := WriterCommits(p);
      MissedIsCyclic(p);
      assert Reached(Missed(p), p);
    }
  }
}
