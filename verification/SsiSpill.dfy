/**
 What serializable snapshot isolation guarantees when a transaction's log spills: a version whose
 log record went out in a block spilled before the commit comes into snapshots taken in between.
 */
module SsiSpill {
  import opened Stamps
  import opened Serializability
  import opened Ssi
  import opened SsiInvariant
  import opened SsiTheorems

  ghost predicate Reaches(r: seq<State>, s: State, p: bool) {
    Run(r) && r[|r| - 1] == s && r[0].placed == p && !r[0].oneBlock
  }

  lemma Then(r: seq<State>, s: State, s': State, t: nat, p: bool) returns (q: seq<State>)
    requires Reaches(r, s, p) && Step(s, s', t)
    ensures Reaches(q, s', p)
  {
    hide Step;
    q := r + [s'];
    assert Next(s, s');
    forall k | 0 < k < |q| ensures Next(q[k - 1], q[k]) {
      if k < |r| { assert Next(r[k - 1], r[k]); }
    }
  }

  // ----- a run -----

  function Loader(): Txn { Txn(1, 2, Cmmtd, 0, [], [0], {}, {}) }

  // The loader has committed record 0.
  function Loaded(p: bool): State {
    State(2, map[0 := Loader()], map[0 := [Ver(0, Lsn(2), Null, 0, 2, {})]], p, false)
  }

  lemma Load(p: bool) returns (q: seq<State>)
    ensures Reaches(q, Loaded(p), p)
  {
    var s0 := State(0, map[], map[], p, false);
    var s1 := s0.(txns := map[0 := Txn(1, 0, Active, 0, [], [], {}, {})]);
    var s2 := State(0, map[0 := Txn(1, 0, Active, 0, [], [0], {}, {})], map[0 := [Ver(0, Xid(0), Null, 0, 0, {})]],
        p, false);
    hide Reaches, Step;
    LoadSteps(p, s0, s1, s2);
    CommitLoad(p, s2);
    q := Start(p);
    q := Then(q, s0, s1, 0, p);
    q := Then(q, s1, s2, 0, p);
    q := Then(q, s2, Loaded(p), 0, p);
  }

  lemma Start(p: bool) returns (q: seq<State>)
    ensures Reaches(q, State(0, map[], map[], p, false), p)
  {
    q := [State(0, map[], map[], p, false)];
    hide Step;
  }

  lemma LoadSteps(p: bool, s0: State, s1: State, s2: State)
    requires s0 == State(0, map[], map[], p, false)
    requires s1 == s0.(txns := map[0 := Txn(1, 0, Active, 0, [], [], {}, {})])
    requires s2 == State(0, map[0 := Txn(1, 0, Active, 0, [], [0], {}, {})], map[0 := [Ver(0, Xid(0), Null, 0, 0, {})]],
                         p, false)
    ensures Step(s0, s1, 0) && Step(s1, s2, 0)
  {
    assert Begin(s0, s1, 0);
    assert [] + [0] == [0];
    assert s2.txns == s1.txns[0 := s2.txns[0]];
    assert Insert(s1, s2, 0, 0);
  }

  lemma CommitLoad(p: bool, s: State)
    requires s == State(0, map[0 := Txn(1, 0, Active, 0, [], [0], {}, {})], map[0 := [Ver(0, Xid(0), Null, 0, 0, {})]],
                        p, false)
    ensures Step(s, Loaded(p), 0)
  {
    var c := StampRec(s.recs[0], 2, 2, 0);
    assert c == Loaded(p).recs[0];
    assert ReleaseRec(c, 0, 0, [], 2) == c;
    assert ReleaseAll(StampAll(s.recs, [0], 2, map[0 := 2], 0), 0, [], 2) == Loaded(p).recs;
    assert Commit(s, Loaded(p), 0, 2, map[0 := 2]);
  }

  // Transaction 1 has updated the record; transaction 2 began after the log of 1 had spilled.
  function Pair(n: nat, u: Txn, b: Txn, c: seq<Ver>, p: bool): State {
    State(n, map[0 := Loader(), 1 := u, 2 := b], map[0 := c], p, false)
  }

  function Updater(): Txn { Txn(3, 0, Active, 0, [], [0], {}, {}) }

  function Bit(p: bool): set<nat> { if p then {2} else {} }

  // The two versions before and after transaction 2 has read the lower one.
  function Open(readers: set<nat>): seq<Ver> {
    [Ver(0, Lsn(2), Xid(1), 0, 2, readers), Ver(1, Xid(1), Null, 0, 0, {})]
  }

  lemma Spill(p: bool) returns (q: seq<State>)
    ensures Reaches(q, Pair(5, Updater(), Txn(6, 0, Active, 0, [], [], {}, {}), Open({}), p), p)
  {
    q := Load(p);
    var s := Loaded(p);
    var s1 := s.(txns := map[0 := Loader(), 1 := Txn(3, 0, Active, 0, [], [], {}, {})]);
    assert s1.txns == s.txns[1 := s1.txns[1]];
    assert Begin(s, s1, 1);
    q := Then(q, s, s1, 1, p);
    var s2 := s1.(txns := map[0 := Loader(), 1 := Updater()], recs := map[0 := Open({})]);
    UpdateStep(s1, s2);
    q := Then(q, s1, s2, 1, p);
    var s3 := s2.(clock := 5);
    assert LoseStamp(s2, s3, 5);
    q := Then(q, s2, s3, 1, p);
    var s4 := Pair(5, Updater(), Txn(6, 0, Active, 0, [], [], {}, {}), Open({}), p);
    assert s4.txns == s3.txns[2 := s4.txns[2]];
    assert Begin(s3, s4, 2);
    q := Then(q, s3, s4, 2, p);
  }

  lemma UpdateStep(s: State, s': State)
    requires s.txns == map[0 := Loader(), 1 := Txn(3, 0, Active, 0, [], [], {}, {})]
    requires s.recs == map[0 := [Ver(0, Lsn(2), Null, 0, 2, {})]]
    requires s' == s.(txns := map[0 := Loader(), 1 := Updater()], recs := map[0 := Open({})])
    ensures Step(s, s', 1)
  {
    assert [] + [0] == [0];
    assert s'.txns == s.txns[1 := Updater()];
    var c := s.recs[0];
    assert c[0 := c[0].(sstamp := Xid(1))] + [Ver(1, Xid(1), Null, 0, 0, {})] == Open({});
    assert Update(s, s', 1, 0);
  }

  function Reader(rs: seq<Vid>, seen: set<Vid>): Txn { Txn(6, 0, Active, 0, rs, [], seen, {}) }

  // Transaction 1 has committed after transaction 2 had read the version it overwrote.
  function Moved(p: bool): State {
    Pair(8, Txn(3, 8, Cmmtd, 0, [], [0], {}, {}), Reader([Vid(0, 0)], {Vid(0, 0)}),
         [Ver(0, Lsn(2), Lsn(4), 0, 2, Bit(p)), Ver(1, Lsn(4), Null, 0, 8, {})], p)
  }

  lemma ReadOld(p: bool) returns (q: seq<State>)
    ensures Reaches(q, Moved(p), p)
  {
    q := Spill(p);
    var s := Pair(5, Updater(), Reader([], {}), Open({}), p);
    var s1 := Pair(5, Updater(), Reader([Vid(0, 0)], {Vid(0, 0)}), Open(Bit(p)), p);
    assert [] + [Vid(0, 0)] == [Vid(0, 0)] && {} + {Vid(0, 0)} == {Vid(0, 0)} && {} + Bit(p) == Bit(p);
    assert s1.txns == s.txns[2 := s1.txns[2]] && s1.recs[0] == s.recs[0][0 := s1.recs[0][0]];
    assert Read(s, s1, 2, Vid(0, 0));
    q := Then(q, s, s1, 2, p);
    CommitUpdate(p);
    q := Then(q, s1, Moved(p), 1, p);
  }

  lemma CommitUpdate(p: bool)
    ensures Step(Pair(5, Updater(), Reader([Vid(0, 0)], {Vid(0, 0)}), Open(Bit(p)), p), Moved(p), 1)
  {
    var s := Pair(5, Updater(), Reader([Vid(0, 0)], {Vid(0, 0)}), Open(Bit(p)), p);
    var c := StampRec(s.recs[0], 8, 4, 0);
    assert c == Moved(p).recs[0];
    assert ReleaseRec(c, 1, 0, [], 8) == c;
    assert ReleaseAll(StampAll(s.recs, [0], 8, map[0 := 4], 0), 1, [], 8) == Moved(p).recs;
    assert Moved(p).txns == s.txns[1 := Moved(p).txns[1]];
    assert Commit(s, Moved(p), 1, 8, map[0 := 4]);
  }

  // Transaction 2 has read the version of transaction 1 too, and committed.
  function Both(p: bool): State {
    Pair(10, Txn(3, 8, Cmmtd, 0, [], [0], {}, {}),
         Txn(6, 10, Cmmtd, 4, [Vid(0, 0), Vid(0, 1)], [], {Vid(0, 0), Vid(0, 1)}, {}),
         [Ver(0, Lsn(2), Lsn(4), 0, 10, {}), Ver(1, Lsn(4), Null, 0, 10, {})], p)
  }

  lemma ReadNew(p: bool) returns (q: seq<State>)
    ensures Reaches(q, Both(p), p)
  {
    q := ReadOld(p);
    var s := Moved(p);
    var s1 := s.(txns := s.txns[2 := Reader([Vid(0, 0), Vid(0, 1)], {Vid(0, 0), Vid(0, 1)})],
        recs := map[0 := s.recs[0][1 := s.recs[0][1].(readers := Bit(p))]]);
    assert [Vid(0, 0)] + [Vid(0, 1)] == [Vid(0, 0), Vid(0, 1)] && {} + Bit(p) == Bit(p);
    assert {Vid(0, 0)} + {Vid(0, 1)} == {Vid(0, 0), Vid(0, 1)};
    assert Read(s, s1, 2, Vid(0, 1));
    q := Then(q, s, s1, 2, p);
    var c := [Ver(0, Lsn(2), Lsn(4), 0, 2, Bit(p)), Ver(1, Lsn(4), Null, 0, 8, Bit(p))];
    assert s1.recs[0] == c;
    assert s1.recs == map[0 := c];
    assert s1.txns == map[0 := Loader(), 1 := s.txns[1], 2 := s1.txns[2]];
    CommitBoth(p, s1);
    q := Then(q, s1, Both(p), 2, p);
  }

  lemma CommitBoth(p: bool, s: State)
    requires s == Pair(8, Txn(3, 8, Cmmtd, 0, [], [0], {}, {}), Reader([Vid(0, 0), Vid(0, 1)], {Vid(0, 0), Vid(0, 1)}),
                       [Ver(0, Lsn(2), Lsn(4), 0, 2, Bit(p)), Ver(1, Lsn(4), Null, 0, 8, Bit(p))], p)
    ensures Step(s, Both(p), 2)
  {
    var rs := [Vid(0, 0), Vid(0, 1)];
    FoldBoth(s);
    var c := s.recs[0];
    assert Bit(p) - {2} == {};
    assert ReleaseRec(c, 2, 0, rs, 10) == Both(p).recs[0];
    assert ReleaseAll(StampAll(s.recs, [], 10, map[], 4), 2, rs, 10) == Both(p).recs;
    assert Both(p).txns == s.txns[2 := Both(p).txns[2]];
    assert Commit(s, Both(p), 2, 10, map[]);
  }

  lemma FoldBoth(s: State)
    requires 0 in s.recs && |s.recs[0]| == 2 && s.recs[0][0].sstamp == Lsn(4) && s.recs[0][1].sstamp == Null
    ensures FoldCt3(s, [Vid(0, 0), Vid(0, 1)], 0) == 4
  {
    assert [Vid(0, 0), Vid(0, 1)][..1] == [Vid(0, 0)];
    assert [Vid(0, 0)][..0] == [];
    assert FoldCt3(s, [Vid(0, 0)], 0) == 4;
  }

  // Transaction 2 comes before transaction 1, which overwrote what it read, and after it, whose
  // version it read.
  lemma BothIsCyclic(p: bool)
    ensures Cycle([1, 2], Deps(Both(p))) && !Acyclic(Deps(Both(p)))
    ensures Follows(Both(p), 1, 2) && Both(p).txns[1].end > Both(p).txns[2].begin
  {
    var s := Both(p);
    assert Vid(0, 1) in s.txns[2].seen && Wrote(s, 1, Vid(0, 1));
    assert Vid(0, 0) in s.txns[2].seen && Overwrote(s, 1, Vid(0, 0));
    assert Follows(s, 1, 2) && AntiDepends(s, 2, 1);
    assert Cycle([1, 2], Deps(s));
  }

  // ----- what holds exactly when -----

  /** SSI keeps every run serializable if and only if logs fit one block. */
  lemma SerializableExactly(p: bool, b: bool)
    ensures (forall r: seq<State> :: Run(r) && r[0].placed == p && r[0].oneBlock == b ==>
               Acyclic(Deps(r[|r| - 1]))) <==> b
  {
    hide Acyclic, Deps;
    if b {
      forall r: seq<State> | Run(r) && r[0].oneBlock ensures Acyclic(Deps(r[|r| - 1])) { Serializable(r); }
    } else {
      var r := ReadNew(p);
      BothIsCyclic(p);
    }
  }

  // Who reads or overwrites a version began after its writer had committed.
  ghost predicate FollowersLater(s: State) {
    forall a, b :: Follows(s, a, b) ==> s.txns[a].end < s.txns[b].begin
  }

  /** Snapshots hold exactly what was committed before them if and only if logs fit one block. */
  lemma FollowsLaterExactly(p: bool, b: bool)
    ensures (forall r: seq<State> :: Run(r) && r[0].placed == p && r[0].oneBlock == b ==>
               FollowersLater(r[|r| - 1])) <==> b
  {
    if b {
      forall r: seq<State> | Run(r) && r[0].oneBlock ensures FollowersLater(r[|r| - 1]) { FollowsAll(r); }
    } else {
      hide Follows;
      var r := ReadNew(p);
      BothIsCyclic(p);
      assert !FollowersLater(Both(p));
    }
  }

  lemma FollowsAll(r: seq<State>)
    requires Run(r) && r[0].oneBlock
    ensures FollowersLater(r[|r| - 1])
  {
    RunInvariant(r);
    var s := r[|r| - 1];
    hide Inv, Run;
    forall a, b | Follows(s, a, b) ensures s.txns[a].end < s.txns[b].begin { FollowsLater(s, a, b); }
  }
}
