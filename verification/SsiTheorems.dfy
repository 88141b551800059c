/** What serializable snapshot isolation guarantees over every run at coroutine granularity. */
module SsiTheorems {
  import opened Stamps
  import opened Serializability
  import opened Ssi
  import opened SsiInvariant

  // A committed writer's version carries an address between its snapshot and its commit stamp; if
  // logs fit one block, no snapshot lies between that address and the commit stamp.
  lemma CommittedVersion(s: State, t: nat, v: Vid)
    requires Inv(s) && Committed(s, t) && Wrote(s, t, v)
    ensures At(s, v).clsn.Lsn? && s.txns[t].begin < At(s, v).clsn.n <= s.txns[t].end
    ensures s.oneBlock ==>
              forall u :: u in s.txns && At(s, v).clsn.n <= s.txns[u].begin ==> s.txns[t].end < s.txns[u].begin
  {
    assert VerInv(s, v.o, v.i);
  }

  // If logs fit one block, reading or overwriting a version means having begun after its writer
  // committed.
  lemma FollowsLater(s: State, a: nat, b: nat)
    requires Inv(s) && s.oneBlock && Follows(s, a, b)
    ensures s.txns[a].end < s.txns[b].begin
  {
    assert TxnInv(s, b);
    if v :| v in s.txns[b].seen && Wrote(s, a, v) {
      assert SeenInv(s, b, v);
      CommittedVersion(s, a, v);
    } else {
      var v :| Wrote(s, a, v) && Overwrote(s, b, v);
      CommittedVersion(s, a, v);
      assert VerInv(s, v.o, v.i);
    }
  }

  // What was read had not been overwritten within the snapshot.
  lemma AntiOverlaps(s: State, a: nat, b: nat)
    requires Inv(s) && AntiDepends(s, a, b)
    ensures s.txns[a].begin < s.txns[b].end
  {
    var v :| v in s.txns[a].seen && Overwrote(s, b, v);
    assert TxnInv(s, a) && SeenInv(s, a, v);
    CommittedVersion(s, b, Vid(v.o, v.i + 1));
  }

  // The overwriter's stamps are in the version it overwrote.
  lemma OverwriterStamps(s: State, b: nat, v: Vid)
    requires Inv(s) && Committed(s, b) && Overwrote(s, b, v)
    ensures Has(s, v) && Settled(s, v) && SettledAt(s, v) == s.txns[b].end
    ensures At(s, v).sstamp.Lsn? && 0 < At(s, v).sstamp.n <= s.txns[b].end && At(s, v).s2 == s.txns[b].ct3
  {
    CommittedVersion(s, b, Vid(v.o, v.i + 1));
    assert VerInv(s, v.o, v.i);
  }

  // In a pair of consecutive anti-dependencies whose last transaction commits before the pivot,
  // the first transaction commits earliest of all.
  lemma PivotIsSafe(s: State, a: nat, b: nat, c: nat)
    requires Inv(s) && AntiDepends(s, a, b) && AntiDepends(s, b, c) && s.txns[c].end < s.txns[b].end
    ensures s.txns[a].end < s.txns[c].end
  {
    var v :| v in s.txns[a].seen && Overwrote(s, b, v);
    var w :| w in s.txns[b].seen && Overwrote(s, c, w);
    assert TxnInv(s, a) && TxnInv(s, b);
    assert SeenInv(s, a, v) && SeenInv(s, b, w);
    OverwriterStamps(s, b, v);
    OverwriterStamps(s, c, w);
  }

  /**
   No committed run contains T1 rw T2 rw T3 in which T3 committed first; T1 and T3 may be the
   same transaction.
   */
  lemma NoDangerousStructure(r: seq<State>, t1: nat, t2: nat, t3: nat)
    requires Run(r)
    ensures var s := r[|r| - 1];
            !(&& AntiDepends(s, t1, t2) && AntiDepends(s, t2, t3)
              && s.txns[t3].end < s.txns[t2].end && s.txns[t3].end <= s.txns[t1].end)
  {
    var s := r[|r| - 1];
    RunInvariant(r);
    if AntiDepends(s, t1, t2) && AntiDepends(s, t2, t3) && s.txns[t3].end < s.txns[t2].end {
      PivotIsSafe(s, t1, t2, t3);
    }
  }

  ghost function Begins(s: State): map<nat, nat> { map t | t in s.txns :: s.txns[t].begin }

  ghost function Ends(s: State): map<nat, nat> { map t | t in s.txns :: s.txns[t].end }

  ghost function AntiDeps(s: State): Graph {
    set a, b | a in s.txns && b in s.txns && AntiDepends(s, a, b) :: (a, b)
  }

  lemma EdgesFollowSnapshots(s: State, d: (nat, nat))
    requires Inv(s) && s.oneBlock && d in Deps(s)
    ensures d.0 in s.txns && d.1 in s.txns && s.txns[d.0].end != s.txns[d.1].end
    ensures if d in AntiDeps(s) then s.txns[d.0].begin < s.txns[d.1].end
            else s.txns[d.0].end < s.txns[d.1].begin < s.txns[d.1].end
  {
    assert TxnInv(s, d.1);
    if d in AntiDeps(s) { AntiOverlaps(s, d.0, d.1); } else { FollowsLater(s, d.0, d.1); }
  }

  /**
   Serializability: if logs fit one block, the dependency graph of the committed transactions of any
   run has no cycle.
   */
  lemma Serializable(r: seq<State>)
    requires Run(r) && r[0].oneBlock
    ensures Acyclic(Deps(r[|r| - 1]))
  {
    var s := r[|r| - 1];
    RunInvariant(r);
    forall d | d in Deps(s)
      ensures && d.0 in Begins(s) && d.1 in Begins(s) && d.0 in Ends(s) && d.1 in Ends(s)
                && Ends(s)[d.0] != Ends(s)[d.1]
              && (if d in AntiDeps(s) then Begins(s)[d.0] < Ends(s)[d.1]
                  else Ends(s)[d.0] < Begins(s)[d.1] < Ends(s)[d.1])
    {
      EdgesFollowSnapshots(s, d);
    }
    forall t1, t2, t3 ensures !Dangerous(AntiDeps(s), Ends(s), t1, t2, t3) { NoDangerousStructure(r, t1, t2, t3); }
    hide Inv, Run, Deps, AntiDeps;
    NoPivotIsAcyclic(Deps(s), AntiDeps(s), Begins(s), Ends(s));
  }

  // ----- the snapshot -----

  // Only its begin brings a transaction in.
  lemma NewBegins(s: State, s': State, a: nat, t: nat)
    requires Step(s, s', a) && t !in s.txns && t in s'.txns
    ensures Begin(s, s', t)
  {
    hide ReadsPass, WritesPass, FoldCt3;
  }

  /** The snapshot of a transaction that begins holds the last committed version of every record. */
  lemma BeginsUpToDate(r: seq<State>, t: nat, v: Vid)
    requires Run(r) && |r| > 1 && t !in r[|r| - 2].txns && t in r[|r| - 1].txns
    requires var s := r[|r| - 1];
             && Has(s, v) && At(s, v).clsn.Lsn?
             && forall j :: v.i < j < |s.recs[v.o]| ==> !s.recs[v.o][j].clsn.Lsn?
    ensures InSnapshot(r[|r| - 1], t, v)
  {
    var k := |r| - 1;
    var s := r[k];
    assert Next(r[k - 1], s);
    RunInvariant(r[..k]);
    hide Inv, Step;
    var a :| Step(r[k - 1], s, a);
    hide Run;
    NewBegins(r[k - 1], s, a, t);
    NewSnapshot(r[k - 1], s, t, v);
  }

  lemma NewSnapshot(s: State, s': State, t: nat, v: Vid)
    requires Inv(s) && Begin(s, s', t) && Has(s', v) && At(s', v).clsn.Lsn?
    requires forall j :: v.i < j < |s'.recs[v.o]| ==> !s'.recs[v.o][j].clsn.Lsn?
    ensures InSnapshot(s', t, v)
  {
    hide Inv;
    VerHolds(s, v.o, v.i);
    forall j | v.i < j < |s'.recs[v.o]| ensures s'.recs[v.o][j].clsn != Xid(t) { VerHolds(s, v.o, j); }
  }
}
