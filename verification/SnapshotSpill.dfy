/**
 What snapshot isolation guarantees when a transaction's log spills: its versions carry the
 addresses of their log records, and a block spilled before the commit may lie below the snapshot
 of a transaction that has begun in between.
 */
module SnapshotSpill {
  import opened Stamps
  import opened Snapshot
  import opened SnapshotInvariant
  import opened SnapshotTheorems

  ghost predicate Ends(r: seq<State>, s: State) {
    Run(r) && r[|r| - 1] == s && !r[0].oneBlock
  }

  lemma Then(r: seq<State>, s: State, s': State, t: nat) returns (q: seq<State>)
    requires Ends(r, s) && Step(s, s', t)
    ensures Ends(q, s') && q == r + [s']
  {
    hide Step;
    q := r + [s'];
    assert Next(s, s');
    forall k | 0 < k < |q| ensures Next(q[k - 1], q[k]) {
      if k < |r| { assert Next(r[k - 1], r[k]); }
    }
  }

  // ----- a run -----

  // `t`, which has written record 0, has committed at `n` with its version at `a`.
  function Committed(s: State, t: nat, n: nat, a: nat): State
    requires t in s.txns && Entry(s, 0) in s.objs
  {
    s.(clock := n, objs := s.objs[Entry(s, 0) := s.objs[Entry(s, 0)].(clsn := Lsn(a))],
       txns := s.txns[t := s.txns[t].(end := n, state := Cmmtd, pc := Over)])
  }

  lemma CommitStep(s: State, t: nat, n: nat, a: nat)
    requires t in s.txns && s.txns[t].pc == Idle && s.txns[t].wset == [0] && n > s.clock + 1
    requires Entry(s, 0) in s.objs && s.objs[Entry(s, 0)].oid == 0 && !s.oneBlock && s.txns[t].begin < a <= n
    ensures Step(s, Committed(s, t, n, a), t)
  {
    var h := Entry(s, 0);
    forall p | p in s.objs ensures Written(s, t, p) <==> p == h { }
    assert Restamp(s, t, Lsns(map[0 := a])) == Committed(s, t, n, a).objs;
    assert Commit(s, Committed(s, t, n, a), t, n, map[0 := a]);
  }

  // A record with one committed version.
  function Loaded(): State {
    State(2, map[1 := Obj(0, 0, Lsn(2), 0, 0)], map[0 := 1],
          map[0 := Txn(1, 2, Cmmtd, false, [0], Over, [Ask(0, 0)])], false)
  }

  lemma Load() returns (q: seq<State>)
    ensures Ends(q, Loaded())
  {
    var s0 := State(0, map[], map[], map[], false);
    var s1 := s0.(txns := map[0 := Txn(1, 0, Active, false, [], Idle, [])]);
    assert [] + [Ask(0, 0)] == [Ask(0, 0)];
    var s2 := Link(s1, 0, 0, 1, 0, 0).(txns := map[0 := Txn(1, 0, Active, false, [0], Idle, [Ask(0, 0)])]);
    assert Begin(s0, s1, 0);
    assert [] + [0] == [0];
    assert Insert(s1, s2, 0, 0, 1, 0);
    CommitStep(s2, 0, 2, 2);
    assert Committed(s2, 0, 2, 2) == Loaded();
    q := [s0];
    q := Then(q, s0, s1, 0);
    q := Then(q, s1, s2, 0);
    q := Then(q, s2, Loaded(), 0);
  }

  // `t` has put `m` above the head of record 0 and listed the record.
  function Updated(s: State, t: nat, m: nat): State
    requires t in s.txns
  {
    Link(s, t, 0, m, Entry(s, 0), 0).(txns := s.txns[t := s.txns[t].(wset := [0], asked := [Ask(0, 0)])])
  }

  function Asking(s: State, t: nat): State
    requires t in s.txns
  {
    s.(txns := s.txns[t := s.txns[t].(pc := UpdStart(0, 0), asked := [Ask(0, 0)])])
  }

  lemma UpdatePhase(r: seq<State>, s: State, t: nat, m: nat) returns (q: seq<State>)
    requires Ends(r, s) && t in s.txns && s.txns[t].pc == Idle && Fresh(s, m)
    requires s.txns[t].wset == [] && s.txns[t].asked == []
    requires Entry(s, 0) != 0 && Entry(s, 0) in s.objs
    requires var c := s.objs[Entry(s, 0)].clsn; c.Lsn? && c.n < s.txns[t].begin
    ensures Ends(q, Updated(s, t, m)) && |q| == |r| + 4
  {
    var h := Entry(s, 0);
    var s1 := Asking(s, t);
    var s2 := SetPc(s1, t, UpdAt(0, 0, h));
    var s3 := SetPc(Link(s2, t, 0, m, h, 0), t, Installed(0, h));
    UpdateSteps(s, t, m);
    hide Ends, Step;
    q := Then(r, s, s1, t);
    q := Then(q, s1, s2, t);
    q := Then(q, s2, s3, t);
    q := Then(q, s3, Updated(s, t, m), t);
  }

  lemma UpdateSteps(s: State, t: nat, m: nat)
    requires t in s.txns && s.txns[t].pc == Idle && s.txns[t].wset == [] && s.txns[t].asked == [] && Fresh(s, m)
    requires Entry(s, 0) != 0 && Entry(s, 0) in s.objs
    requires var c := s.objs[Entry(s, 0)].clsn; c.Lsn? && c.n < s.txns[t].begin
    ensures var h := Entry(s, 0);
            var s1 := Asking(s, t);
            var s2 := SetPc(s1, t, UpdAt(0, 0, h));
            var s3 := SetPc(Link(s2, t, 0, m, h, 0), t, Installed(0, h));
            Step(s, s1, t) && Step(s1, s2, t) && Step(s2, s3, t) && Step(s3, Updated(s, t, m), t)
  {
    var h := Entry(s, 0);
    var s1 := Asking(s, t);
    var s2 := SetPc(s1, t, UpdAt(0, 0, h));
    var s3 := SetPc(Link(s2, t, 0, m, h, 0), t, Installed(0, h));
    assert [] + [Ask(0, 0)] == [Ask(0, 0)];
    assert StartUpdate(s, s1, t, 0, 0);
    assert ReadHead(s1, s2, t);
    assert Swap(s2, s3, t, m);
    assert [] + [0] == [0];
    assert ListWrite(s3, Updated(s, t, m), t);
  }

  // Transaction 1, which has updated the record, and transaction 2, which began after the log of
  // transaction 1 had spilled.
  function Pair(n: nat, objs: map<nat, Obj>, head: nat, u: Txn, b: Txn): State {
    State(n, objs, map[0 := head], map[0 := Txn(1, 2, Cmmtd, false, [0], Over, [Ask(0, 0)]), 1 := u, 2 := b], false)
  }

  function Running(): Txn { Txn(3, 0, Active, false, [0], Idle, [Ask(0, 0)]) }

  function Reading(pc: Pc): Txn { Txn(6, 0, Active, false, [], pc, []) }

  function Two(clsn: Stamp): map<nat, Obj> { map[1 := Obj(0, 0, Lsn(2), 0, 0), 2 := Obj(0, 1, clsn, 1, 0)] }

  function Spilled(): State { Pair(5, Two(Xid(1)), 2, Running(), Reading(Idle)) }

  lemma Spill() returns (q: seq<State>)
    ensures Ends(q, Spilled())
  {
    q := Load();
    var s := Loaded();
    var s1 := s.(txns := s.txns[1 := Txn(3, 0, Active, false, [], Idle, [])]);
    assert Begin(s, s1, 1);
    q := Then(q, s, s1, 1);
    q := UpdatePhase(q, s1, 1, 2);
    var s2 := Updated(s1, 1, 2);
    var s3 := s2.(clock := 5);
    assert Draw(s2, s3, 5);
    q := Then(q, s2, s3, 1);
    assert s3.objs == Two(Xid(1)) && s3.entries == map[0 := 2];
    assert s3.txns[2 := Reading(Idle)] == Spilled().txns;
    assert Begin(s3, Spilled(), 2);
    q := Then(q, s3, Spilled(), 2);
  }

  // Transaction 1 has committed; its version lies in the spilled block.
  function Moved(pc: Pc): State {
    Pair(8, Two(Lsn(4)), 2, Txn(3, 8, Cmmtd, false, [0], Over, [Ask(0, 0)]), Reading(pc))
  }

  lemma CommitSpilled(pc: Pc)
    ensures Step(Pair(5, Two(Xid(1)), 2, Running(), Reading(pc)), Moved(pc), 1)
  {
    hide Step, Committed, Moved;
    CommitStep(Pair(5, Two(Xid(1)), 2, Running(), Reading(pc)), 1, 8, 4);
    SpilledMoves(pc);
  }

  lemma SpilledMoves(pc: Pc)
    ensures Committed(Pair(5, Two(Xid(1)), 2, Running(), Reading(pc)), 1, 8, 4) == Moved(pc)
  {
    var s := Pair(5, Two(Xid(1)), 2, Running(), Reading(pc));
    assert s.objs[2 := s.objs[2].(clsn := Lsn(4))] == Two(Lsn(4));
    assert Committed(s, 1, 8, 4).txns == Moved(pc).txns;
  }

  // Transaction 2 begins a read, transaction 1 commits, the read goes on.
  lemma Walk() returns (q: seq<State>, j: nat)
    ensures Ends(q, Moved(WalkAt(0, 2))) && |q| == j + 4 && q[j] == Spilled()
    ensures q[j + 1] == Pair(5, Two(Xid(1)), 2, Running(), Reading(WalkStart(0)))
    ensures q[j + 2] == Pair(5, Two(Xid(1)), 2, Running(), Reading(WalkAt(0, 2)))
  {
    q := Spill();
    j := |q| - 1;
    var s := Spilled();
    var s1 := Pair(5, Two(Xid(1)), 2, Running(), Reading(WalkStart(0)));
    var s2 := Pair(5, Two(Xid(1)), 2, Running(), Reading(WalkAt(0, 2)));
    assert s1.txns == s.txns[2 := Reading(WalkStart(0))] && s2.txns == s1.txns[2 := Reading(WalkAt(0, 2))];
    assert StartRead(s, s1, 2, 0);
    assert ReadEntry(s1, s2, 2);
    q := Then(q, s, s1, 2);
    q := Then(q, s1, s2, 2);
    CommitSpilled(WalkAt(0, 2));
    q := Then(q, s2, Moved(WalkAt(0, 2)), 1);
  }

  lemma SeenBefore(pc: Pc)
    ensures Visible(Pair(5, Two(Xid(1)), 2, Running(), Reading(pc)), 2, 0) == 1
  {
    var m := Two(Xid(1));
    assert View(m, 2, 6, 1) == 1;
    assert View(m, 2, 6, 2) == View(m, 2, 6, 1);
  }

  lemma SeenAfter(pc: Pc)
    ensures Visible(Moved(pc), 2, 0) == 2
  {
  }

  // Transaction 2 puts its version over the one that came into its snapshot, and commits.
  function Overlap(): State {
    State(10, Two(Lsn(4))[3 := Obj(0, 2, Lsn(10), 2, 0)], map[0 := 3],
          Moved(Idle).txns[2 := Txn(6, 10, Cmmtd, false, [0], Over, [Ask(0, 0)])], false)
  }

  lemma Overwrite() returns (q: seq<State>)
    ensures Ends(q, Overlap())
  {
    hide Ends, Step;
    q := Spill();
    CommitSpilled(Idle);
    q := Then(q, Spilled(), Moved(Idle), 1);
    q := UpdatePhase(q, Moved(Idle), 2, 3);
    CommitOverlap();
    q := Then(q, Updated(Moved(Idle), 2, 3), Overlap(), 2);
  }

  lemma CommitOverlap()
    ensures Step(Updated(Moved(Idle), 2, 3), Overlap(), 2)
  {
    var s := Updated(Moved(Idle), 2, 3);
    hide Step;
    CommitStep(s, 2, 10, 10);
    assert Committed(s, 2, 10, 10).objs == Overlap().objs;
    assert Committed(s, 2, 10, 10).txns == Overlap().txns;
    assert s.entries == map[0 := 3];
  }

  // ----- what holds exactly when -----

  // The walk of `t` lasts from `j` to `k` and then returns `res`.
  ghost predicate Walked(r: seq<State>, j: nat, k: nat, t: nat, o: nat, res: nat) {
    Run(r) && j <= k < |r| && (forall i :: j <= i <= k ==> Walking(r[i], t, o)) && Returns(r[k], t, o, res)
  }

  // `t` runs from `j` to `k` without writing `o`.
  ghost predicate Watched(r: seq<State>, j: nat, k: nat, t: nat, o: nat) {
    && Run(r) && j <= k < |r|
    && forall i :: j <= i <= k ==> t in r[i].txns && r[i].txns[t].state == Active && !Owns(r[i].txns[t], o)
  }

  /** Suspended walks return what they would have returned at once if and only if logs fit one block. */
  lemma SuspendedWalkExactly(b: bool)
    ensures (forall r: seq<State>, j: nat, k: nat, t, o, res :: Walked(r, j, k, t, o, res) && r[0].oneBlock == b ==>
               t in r[j].txns && Visible(r[j], t, o) == res) <==> b
  {
    hide Visible;
    if b {
      forall r: seq<State>, j: nat, k: nat, t, o, res | Walked(r, j, k, t, o, res) && r[0].oneBlock
        ensures t in r[j].txns && Visible(r[j], t, o) == res
      {
        SuspendedWalk(r, j, k, t, o, res);
      }
    } else {
      var r, j := Walk();
      SeenBefore(WalkStart(0));
      WalkLasts(r, j);
    }
  }

  lemma WalkLasts(r: seq<State>, j: nat)
    requires Ends(r, Moved(WalkAt(0, 2))) && |r| == j + 4
    requires r[j + 1] == Pair(5, Two(Xid(1)), 2, Running(), Reading(WalkStart(0)))
    requires r[j + 2] == Pair(5, Two(Xid(1)), 2, Running(), Reading(WalkAt(0, 2)))
    ensures Walked(r, j + 1, j + 3, 2, 0, 2) && !r[0].oneBlock
  {
    hide Run;
    forall i | j + 1 <= i <= j + 3 ensures Walking(r[i], 2, 0) { }
  }

  /** Snapshots do not move if and only if logs fit one block. */
  lemma SnapshotStableExactly(b: bool)
    ensures (forall r: seq<State>, j: nat, k: nat, t, o :: Watched(r, j, k, t, o) && r[0].oneBlock == b ==>
               Visible(r[k], t, o) == Visible(r[j], t, o)) <==> b
  {
    if b {
      hide Visible;
      forall r: seq<State>, j: nat, k: nat, t, o | Watched(r, j, k, t, o) && r[0].oneBlock
        ensures Visible(r[k], t, o) == Visible(r[j], t, o)
      {
        SnapshotStable(r, j, k, t, o);
      }
    } else {
      var r, j := Walk();
      SeenBefore(Idle);
      SeenAfter(WalkAt(0, 2));
      assert Watched(r, j, j + 3, 2, 0);
    }
  }

  /** A transaction sees the newest version committed before its snapshot if and only if logs fit one block. */
  lemma SeesCommittedExactly(b: bool)
    ensures (forall r: seq<State>, k: nat, t, o :: Watched(r, k, k, t, o) && r[0].oneBlock == b ==>
               SeesNewest(r[k], t, o)) <==> b
  {
    if b {
      hide SeesNewest;
      forall r: seq<State>, k: nat, t, o | Watched(r, k, k, t, o) && r[0].oneBlock ensures SeesNewest(r[k], t, o) {
        SeesCommitted(r[..k + 1], t, o);
      }
    } else {
      var r, j := Walk();
      SeenAfter(WalkAt(0, 2));
      assert Watched(r, j + 3, j + 3, 2, 0);
      assert !SeesNewest(r[j + 3], 2, 0);
    }
  }

  // Of the writers of two committed versions of a record, one began after the other had committed.
  ghost predicate WritersApart(s: State) {
    forall p, q :: p in s.objs && q in s.objs && p != q && s.objs[p].oid == s.objs[q].oid
                   && s.objs[p].clsn.Lsn? && s.objs[q].clsn.Lsn? ==>
      var a, b := s.objs[p].writer, s.objs[q].writer;
      a in s.txns && b in s.txns && (s.txns[a].end < s.txns[b].begin || s.txns[b].end < s.txns[a].begin)
  }

  /** Committed writers of a record never overlap if and only if logs fit one block. */
  lemma FirstUpdaterWinsExactly(b: bool)
    ensures (forall r: seq<State> :: Run(r) && r[0].oneBlock == b ==> WritersApart(r[|r| - 1])) <==> b
  {
    if b {
      forall r: seq<State> | Run(r) && r[0].oneBlock ensures WritersApart(r[|r| - 1]) { NoOverlap(r); }
    } else {
      var r := Overwrite();
      var s := Overlap();
      assert s.objs[2].oid == s.objs[3].oid;
      assert !WritersApart(s);
    }
  }

  lemma NoOverlap(r: seq<State>)
    requires Run(r) && r[0].oneBlock
    ensures WritersApart(r[|r| - 1])
  {
    var s := r[|r| - 1];
    hide Run;
    forall p, q | p in s.objs && q in s.objs && p != q && s.objs[p].oid == s.objs[q].oid
                  && s.objs[p].clsn.Lsn? && s.objs[q].clsn.Lsn?
      ensures var a, b := s.objs[p].writer, s.objs[q].writer;
              a in s.txns && b in s.txns && (s.txns[a].end < s.txns[b].begin || s.txns[b].end < s.txns[a].begin)
    {
      if s.objs[q].clsn.n <= s.objs[p].clsn.n { FirstUpdaterWins(r, p, q); } else { FirstUpdaterWins(r, q, p); }
    }
  }
}
