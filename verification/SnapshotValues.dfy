/**
 What is written is what is read: the versions of the snapshot-isolation engine hold the values
 of the last updates that were asked for, and an update goes through exactly when first updater
 wins says so.
 */
module SnapshotValues {
  import opened Stamps
  import opened Snapshot
  import opened SnapshotInvariant
  import opened SnapshotTheorems

  // ----- the invariant -----

  // `val` is what was last asked for record `o`.
  ghost predicate LastIs(asks: seq<Ask>, o: nat, val: int) {
    asks != [] &&
    var a := asks[|asks| - 1];
    if a.o == o then a.val == val else LastIs(asks[..|asks| - 1], o, val)
  }

  // An update that has not installed its version yet, or never will.
  predicate Open(pc: Pc) { pc.UpdStart? || pc.UpdAt? || pc.Doomed? }

  // What was asked for and done.
  function Performed(x: Txn): seq<Ask> {
    if Open(x.pc) && x.asked != [] then x.asked[..|x.asked| - 1] else x.asked
  }

  // A running update is the last one asked for; the head of a written record holds the last value.
  ghost predicate AskInv(s: State, t: nat)
    requires t in s.txns
  {
    var x := s.txns[t];
    && (Open(x.pc) ==> x.asked != [])
    && (x.pc.UpdStart? || x.pc.UpdAt? ==> x.asked[|x.asked| - 1] == Ask(x.pc.o, x.pc.val))
    && (x.state == Active ==> forall o :: Owns(x, o) && Entry(s, o) in s.objs ==>
          LastIs(Performed(x), o, s.objs[Entry(s, o)].val))
  }

  // A committed version holds the last value its writer asked for.
  ghost predicate ObjVal(s: State, p: nat)
    requires p in s.objs
  {
    var v := s.objs[p];
    v.clsn.Lsn? && v.writer in s.txns ==> LastIs(s.txns[v.writer].asked, v.oid, v.val)
  }

  ghost predicate Values(s: State) {
    (forall t :: t in s.txns ==> AskInv(s, t)) && (forall p :: p in s.objs ==> ObjVal(s, p))
  }

  // ----- steps that only move the actor -----

  lemma MovesValues(s: State, s': State, t: nat)
    requires Inv(s) && Values(s) && Moves(s, s', t)
    ensures Values(s')
  {
    assert TxnInv(s, t);
    MovesStill(s, s', t);
    assert AskInv(s, t);
    MovesAsk(s, s', t);
    hide Inv, Moves, TxnInv;
    forall u | u in s'.txns ensures AskInv(s', u) { if u != t { assert AskInv(s, u); } }
    forall p | p in s'.objs ensures ObjVal(s', p) {
      assert ObjVal(s, p);
      if s.objs[p].writer == t && s.objs[p].clsn.Lsn? { MovesCommitted(s, s', t, p); }
    }
  }

  lemma MovesAsk(s: State, s': State, t: nat)
    requires Moves(s, s', t) && Still(s, s', t) && AskInv(s, t)
    ensures AskInv(s', t)
  {
    hide StartUpdate, StartRead, ReadEntry, Hop, ReadHead, GiveUp, ListWrite, Free, AskInv;
    if o, val :| StartUpdate(s, s', t, o, val) {
      StartAsk(s, s', t, o, val);
    } else {
      ReadAsk(s, s', t);
    }
  }

  lemma StartAsk(s: State, s': State, t: nat, o: nat, val: int)
    requires StartUpdate(s, s', t, o, val) && Still(s, s', t) && AskInv(s, t)
    ensures AskInv(s', t)
  {
    hide LastIs;
    var x := s.txns[t];
    assert (x.asked + [Ask(o, val)])[..|x.asked|] == x.asked;
  }

  lemma ReadAsk(s: State, s': State, t: nat)
    requires (exists o :: StartRead(s, s', t, o)) || ReadEntry(s, s', t) || Hop(s, s', t) || ReadHead(s, s', t)
             || GiveUp(s, s', t) || ListWrite(s, s', t) || Free(s, s', t)
    requires Still(s, s', t) && AskInv(s, t)
    ensures AskInv(s', t)
  {
    hide LastIs, Test, PlanUpdate;
  }

  // A committed transaction asks for nothing more.
  lemma MovesCommitted(s: State, s': State, t: nat, p: nat)
    requires Inv(s) && Moves(s, s', t) && p in s.objs && s.objs[p].clsn.Lsn? && s.objs[p].writer == t
    ensures t in s'.txns && s'.txns[t].asked == s.txns[t].asked
  {
    assert ObjInv(s, p) && TxnInv(s, t);
    hide Test, PlanUpdate, View;
  }

  lemma QuietValues(s: State, s': State, t: nat)
    requires Inv(s) && Values(s) && (Begin(s, s', t) || exists n :: Draw(s, s', n))
    ensures Values(s')
  {
    forall u | u in s'.txns ensures AskInv(s', u) { if u in s.txns { assert AskInv(s, u); } }
    forall p | p in s'.objs ensures ObjVal(s', p) { assert ObjVal(s, p) && ObjInv(s, p); }
  }

  // ----- steps that change objects -----

  lemma OtherAsks(s: State, s': State, t: nat, u: nat)
    requires Changes(s, s', t) && u in s.txns && u != t && TxnInv(s, u) && AskInv(s, u)
    ensures AskInv(s', u)
  {
    var x := s.txns[u];
    assert s'.txns[u] == x;
    if x.state == Active {
      forall o | Owns(x, o) && Entry(s', o) in s'.objs ensures LastIs(Performed(x), o, s'.objs[Entry(s', o)].val) {
        assert Restamped(s, s', t, Entry(s, o));
      }
    }
  }

  lemma OldValue(s: State, s': State, t: nat, p: nat)
    requires Inv(s) && Changes(s, s', t) && p in s.objs && ObjVal(s, p) && s'.objs[p].clsn == s.objs[p].clsn
    ensures ObjVal(s', p)
  {
    assert Restamped(s, s', t, p);
    assert ObjInv(s, p);
  }

  // A new version of one's own is the last thing asked for.
  lemma LinkAsk(s: State, s': State, t: nat, o: nat, m: nat, val: int)
    requires Links(s, s', t, o, m) && TxnInv(s, t) && AskInv(s, t) && s'.objs[m].val == val
    requires !Open(s'.txns[t].pc) && s'.txns[t].asked == Performed(s.txns[t]) + [Ask(o, val)]
    ensures AskInv(s', t)
  {
    var x, x' := s.txns[t], s'.txns[t];
    forall q | Owns(x', q) && Entry(s', q) in s'.objs ensures LastIs(Performed(x'), q, s'.objs[Entry(s', q)].val) {
      assert x'.asked[..|x'.asked| - 1] == Performed(x);
      if q != o { assert Owns(x, q); }
    }
  }

  lemma LinksValues(s: State, s': State, t: nat, o: nat, m: nat)
    requires Inv(s) && Values(s) && Links(s, s', t, o, m) && AskInv(s', t)
    ensures Values(s')
  {
    LinksChange(s, s', t, o, m);
    forall u | u in s'.txns ensures AskInv(s', u) {
      if u != t {
        assert TxnInv(s, u) && AskInv(s, u);
        OtherAsks(s, s', t, u);
      }
    }
    forall p | p in s'.objs ensures ObjVal(s', p) {
      if p != m {
        assert ObjVal(s, p);
        OldValue(s, s', t, p);
      }
    }
  }

  lemma InstallValues(s: State, s': State, t: nat, m: nat)
    requires Inv(s) && Values(s)
    requires Replace(s, s', t, m) || (Swap(s, s', t, m) && Entry(s, s.txns[t].pc.o) == s.txns[t].pc.head)
    ensures Values(s')
  {
    InstallLinks(s, s', t, m);
    assert AskInv(s, t) && TxnInv(s, t);
    var x, o := s.txns[t], s.txns[t].pc.o;
    assert x.asked == x.asked[..|x.asked| - 1] + [x.asked[|x.asked| - 1]];
    hide Inv, Values, Links, AskInv, TxnInv;
    InstallAsk(s, s', t, m);
    LinkAsk(s, s', t, o, m, x.pc.val);
    LinksValues(s, s', t, o, m);
  }

  lemma InstallAsk(s: State, s': State, t: nat, m: nat)
    requires Replace(s, s', t, m) || (Swap(s, s', t, m) && Entry(s, s.txns[t].pc.o) == s.txns[t].pc.head)
    ensures t in s.txns && t in s'.txns && m in s'.objs && s.txns[t].pc.UpdAt? && s'.objs[m].val == s.txns[t].pc.val
    ensures !Open(s'.txns[t].pc) && s'.txns[t].asked == s.txns[t].asked
  {
  }

  lemma SwapValues(s: State, s': State, t: nat, m: nat)
    requires Inv(s) && Values(s) && Swap(s, s', t, m)
    ensures Values(s')
  {
    if Entry(s, s.txns[t].pc.o) == s.txns[t].pc.head {
      InstallValues(s, s', t, m);
    } else {
      assert AskInv(s, t) && TxnInv(s, t);
      hide Inv;
      forall u | u in s'.txns ensures AskInv(s', u) { if u != t { assert AskInv(s, u); } }
      forall p | p in s'.objs ensures ObjVal(s', p) { assert ObjVal(s, p); }
    }
  }

  lemma InsertValues(s: State, s': State, t: nat, o: nat, m: nat, val: int)
    requires Inv(s) && Values(s) && Insert(s, s', t, o, m, val)
    ensures Values(s')
  {
    InsertLinks(s, s', t, o, m, val);
    assert AskInv(s, t) && TxnInv(s, t);
    hide Inv, Values, Links, AskInv, TxnInv;
    LinkAsk(s, s', t, o, m, val);
    LinksValues(s, s', t, o, m);
  }

  lemma EndValues(s: State, s': State, t: nat)
    requires Inv(s) && Values(s) && (Abort(s, s', t) || exists n, a :: Commit(s, s', t, n, a))
    ensures Values(s')
  {
    EndChanges(s, s', t);
    assert AskInv(s, t) && TxnInv(s, t);
    EndOwnAsk(s, s', t);
    forall u | u in s'.txns ensures AskInv(s', u) {
      if u != t {
        assert TxnInv(s, u) && AskInv(s, u);
        OtherAsks(s, s', t, u);
      }
    }
    forall p | p in s'.objs ensures ObjVal(s', p) {
      assert p in s.objs && ObjVal(s, p);
      if s'.objs[p].clsn == s.objs[p].clsn {
        OldValue(s, s', t, p);
      } else {
        NewValue(s, s', t, p);
      }
    }
  }

  lemma EndOwnAsk(s: State, s': State, t: nat)
    requires (Abort(s, s', t) || exists n, a :: Commit(s, s', t, n, a)) && AskInv(s, t)
    ensures t in s'.txns && AskInv(s', t)
  {
    hide LastIs, Restamp;
  }

  // A version that commits holds the last value asked for.
  lemma NewValue(s: State, s': State, t: nat, p: nat)
    requires Inv(s) && (Abort(s, s', t) || exists n, a :: Commit(s, s', t, n, a))
    requires t in s.txns && AskInv(s, t) && p in s.objs && p in s'.objs && s'.objs[p].clsn != s.objs[p].clsn
    ensures ObjVal(s', p)
  {
    hide LastIs;
    assert TxnInv(s, t);
    assert Written(s, t, p);
    WrittenIsOwn(s, t, p);
    assert Owns(s.txns[t], s.objs[p].oid);
  }

  lemma StepValues(s: State, s': State, t: nat)
    requires Inv(s) && Values(s) && Step(s, s', t)
    ensures Values(s')
  {
    hide Inv, Values, Begin, Moves, Insert, Abort, Commit, Draw, Replace, Swap;
    if Begin(s, s', t) || exists n :: Draw(s, s', n) {
      QuietValues(s, s', t);
    } else if Moves(s, s', t) {
      MovesValues(s, s', t);
    } else if m :| Replace(s, s', t, m) {
      InstallValues(s, s', t, m);
    } else if m :| Swap(s, s', t, m) {
      SwapValues(s, s', t, m);
    } else if o, m, val :| Insert(s, s', t, o, m, val) {
      InsertValues(s, s', t, o, m, val);
    } else {
      EndValues(s, s', t);
    }
  }

  lemma InitValues(s: State)
    requires Init(s)
    ensures Values(s)
  {
  }

  lemma {:induction false} RunValues(r: seq<State>)
    requires Run(r)
    ensures Inv(r[|r| - 1]) && Values(r[|r| - 1])
  {
    RunInvariant(r);
    hide Inv, Step, Values;
    if |r| == 1 {
      InitValues(r[0]);
    } else {
      var k := |r| - 1;
      RunValues(r[..k]);
      assert Next(r[k - 1], r[k]);
      var t :| Step(r[k - 1], r[k], t);
      StepValues(r[k - 1], r[k], t);
    }
  }

  // ----- what is read -----

  /**
   What a running transaction sees of a record it has written holds the value of its last insert
   or update of that record; a pending update does not count yet.
   */
  lemma SeesOwnValue(r: seq<State>, t: nat, o: nat)
    requires Run(r) && t in r[|r| - 1].txns && r[|r| - 1].txns[t].state == Active && Owns(r[|r| - 1].txns[t], o)
    ensures var s := r[|r| - 1]; var x := s.txns[t]; var v := Visible(s, t, o);
            v != 0 && v in s.objs && LastIs(Performed(x), o, s.objs[v].val)
  {
    RunValues(r);
    VisibleIsNewest(r, t, o);
    assert AskInv(r[|r| - 1], t);
    hide Run, Inv, Values, Visible;
  }

  /** Every committed version holds the value of its writer's last insert or update of the record. */
  lemma CommittedValue(r: seq<State>, p: nat)
    requires Run(r) && p in r[|r| - 1].objs && r[|r| - 1].objs[p].clsn.Lsn?
    ensures var s := r[|r| - 1]; var v := s.objs[p];
            v.writer in s.txns && s.txns[v.writer].state == Cmmtd && LastIs(s.txns[v.writer].asked, v.oid, v.val)
  {
    RunValues(r);
    hide Run;
    assert ObjInv(r[|r| - 1], p) && ObjVal(r[|r| - 1], p);
  }

  /**
   A snapshot read: if logs fit one block, a walk for a record that the transaction has not written
   hands back the last value that the newest transaction committed before the snapshot asked for,
   whatever others do while it is suspended.
   */
  lemma ReadsLastValue(r: seq<State>, t: nat, o: nat, res: nat)
    requires Run(r) && r[0].oneBlock && Returns(r[|r| - 1], t, o, res) && res != 0
    requires r[|r| - 1].txns[t].state == Active && !Owns(r[|r| - 1].txns[t], o)
    ensures var s := r[|r| - 1];
            && res in s.objs && Earlier(s, res, s.txns[t].begin) && s.objs[res].oid == o
            && LastIs(s.txns[s.objs[res].writer].asked, o, s.objs[res].val)
            && forall q :: Earlier(s, q, s.txns[t].begin) && s.objs[q].oid == o && q != res ==>
                 s.txns[s.objs[q].writer].end < s.txns[s.objs[res].writer].end
  {
    var s := r[|r| - 1];
    RunInvariant(r);
    ReturnsVisible(s, t, o, res);
    SeesCommitted(r, t, o);
    hide Run, Inv, Visible, Returns;
    CommittedValue(r, res);
  }

  // ----- when an update goes through -----

  // The version that was loaded is still the newest, and is one's own or stamped below the snapshot.
  ghost predicate Writable(s: State, t: nat, o: nat, h: nat)
    requires t in s.txns
  {
    && Entry(s, o) == h && h in s.objs
    && (s.objs[h].clsn == Xid(t) || (s.objs[h].clsn.Lsn? && s.objs[h].clsn.n < s.txns[t].begin))
  }

  // The loaded version was taken off meanwhile, or its writer is no longer known.
  ghost predicate Stale(s: State, h: nat) {
    h in s.objs
    && (s.objs[h].clsn.Null?
        || (s.objs[h].clsn.Xid? && (s.objs[h].clsn.t !in s.txns || s.txns[s.objs[h].clsn.t].gone)))
  }

  /**
   An update that has loaded the head installs its version exactly if the record is writable, starts
   over exactly if what it loaded is stale, and dooms the transaction otherwise.
   */
  lemma UpdateExactly(r: seq<State>, s': State, t: nat)
    requires Run(r) && t in r[|r| - 1].txns && r[|r| - 1].txns[t].pc.UpdAt? && Step(r[|r| - 1], s', t)
    requires t in s'.txns && s'.txns[t] != r[|r| - 1].txns[t]
    ensures var s := r[|r| - 1]; var pc := s.txns[t].pc;
            && (s'.txns[t].pc.Installed? <==> Writable(s, t, pc.o, pc.head))
            && (s'.txns[t].pc.UpdStart? <==> Stale(s, pc.head))
            && (s'.txns[t].pc == Doomed <==> !Writable(s, t, pc.o, pc.head) && !Stale(s, pc.head))
  {
    var s := r[|r| - 1];
    var o := s.txns[t].pc.o;
    RunInvariant(r);
    hide Run;
    assert TxnInv(s, t);
    if o in s.entries { assert EntryInv(s, o); }
    UpdateCases(s, s', t);
    hide Step, Inv, TxnInv, EntryInv;
    UpdateOutcome(s, s', t);
  }

  lemma UpdateOutcome(s: State, s': State, t: nat)
    requires t in s.txns && s.txns[t].pc.UpdAt? && PointInv(s, t)
    requires (exists m :: Replace(s, s', t, m)) || (exists m :: Swap(s, s', t, m)) || GiveUp(s, s', t)
    requires s.txns[t].pc.o in s.entries ==> EntryInv(s, s.txns[t].pc.o)
    requires s.txns[t].pc.head != 0 && !s.txns[t].gone && t in s'.txns
    ensures var pc := s.txns[t].pc;
            && (s'.txns[t].pc.Installed? <==> Writable(s, t, pc.o, pc.head))
            && (s'.txns[t].pc.UpdStart? <==> Stale(s, pc.head))
            && (s'.txns[t].pc == Doomed <==> !Writable(s, t, pc.o, pc.head) && !Stale(s, pc.head))
  {
    hide Fresh, WalkInv;
  }

  lemma UpdateCases(s: State, s': State, t: nat)
    requires t in s.txns && s.txns[t].pc.UpdAt? && Step(s, s', t) && t in s'.txns && s'.txns[t] != s.txns[t]
    ensures (exists m :: Replace(s, s', t, m)) || (exists m :: Swap(s, s', t, m)) || GiveUp(s, s', t)
  {
    hide Replace, Swap, GiveUp, Restamp;
  }
}
