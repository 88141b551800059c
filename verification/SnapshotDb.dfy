/**
 The loops of the snapshot-isolation engine as they run: commit and abort go over the write set
 and update objects and OID entries in place, a plain read walks the chain without suspending.
 Each is proved against the step it takes in `Snapshot`.
 */
module SnapshotDb {
  import opened Stamps
  import opened Snapshot
  import opened SnapshotInvariant

  class Db {
    var clock: nat
    var objs: map<nat, Obj>
    var entries: map<nat, nat>
    var txns: map<nat, Txn>
    const oneBlock: bool

    constructor (oneBlock: bool)
      ensures Init(Abs()) && this.oneBlock == oneBlock
    {
      clock, objs, entries, txns := 0, map[], map[], map[];
      this.oneBlock := oneBlock;
    }

    function Abs(): State
      reads this
    {
      State(clock, objs, entries, txns, oneBlock)
    }

    // Draw `n`, stamp the head of every written record with its address in the log, then become
    // visible as committed.
    method SiCommit(t: nat, n: nat, a: map<nat, nat>)
      requires t in txns && WritesReady(Abs(), t) && txns[t].pc == Idle && n > clock + 1 && Logged(Abs(), t, n, a)
      modifies this
      ensures Commit(old(Abs()), Abs(), t, n, a)
    {
      hide StampHeads, UnlinkHeads;
      ghost var s := Abs();
      NoneDone(s, Lsns(a));
      clock := n;
      txns := txns[t := txns[t].(end := n)];
      var w := txns[t].wset;
      for i := 0 to |w|
        invariant clock == n && entries == s.entries && txns == s.txns[t := s.txns[t].(end := n)]
        invariant objs == StampHeads(s, w[..i], Lsns(a))
      {
        assert w[i] in s.txns[t].wset;
        StampOneMore(s, w, i, Lsns(a));
        var e := entries[w[i]];
        objs := objs[e := objs[e].(clsn := Lsn(a[w[i]]))];
      }
      txns := txns[t := txns[t].(state := Cmmtd, pc := Over)];
      AllDone(s, t, Lsns(a));
      assert txns == CommitAll(s, t, n, a).txns;
    }

    // Become visible as aborted, then unlink the head of every written record and mark it dead.
    method Abort(t: nat)
      requires t in txns && WritesReady(Abs(), t) && (txns[t].pc == Idle || txns[t].pc == Doomed)
      modifies this
      ensures Snapshot.Abort(old(Abs()), Abs(), t)
    {
      hide StampHeads, UnlinkHeads;
      ghost var s := Abs();
      NoneDone(s, Nulls(s.txns[t].wset));
      txns := txns[t := txns[t].(state := Abrtd, pc := Over)];
      var w := txns[t].wset;
      for i := 0 to |w|
        invariant clock == s.clock && txns == s.txns[t := s.txns[t].(state := Abrtd, pc := Over)]
        invariant objs == StampHeads(s, w[..i], Nulls(w)) && entries == UnlinkHeads(s, w[..i])
      {
        assert w[i] in s.txns[t].wset;
        StampOneMore(s, w, i, Nulls(w));
        UnlinkOneMore(s, w, i);
        var e := entries[w[i]];
        entries := entries[w[i] := objs[e].next];
        objs := objs[e := objs[e].(clsn := Null)];
      }
      AllDone(s, t, Nulls(w));
    }

    // Walk the chain of `o` without suspending: a dead version is never met.
    method GetVersion(t: nat, o: nat) returns (p: nat)
      requires Inv(Abs()) && t in txns
      ensures p == Visible(Abs(), t, o)
      ensures p != 0 ==> p in objs && Test(Abs(), t, objs[p].clsn) == Shown
    {
      ghost var s := Abs();
      p := if o in entries then entries[o] else 0;
      HeadAlive(s, t, o);
      while p != 0
        invariant p == 0 || (p in objs && Alive(s, t, p))
        invariant View(objs, t, txns[t].begin, p) == Visible(s, t, o)
        decreases p
      {
        assert ObjInv(s, p);
        var verdict := Test(Abs(), t, objs[p].clsn);
        RunningHasContext(s, t, p);
        assert verdict != Restart;
        if verdict == Shown {
          return;
        }
        p := objs[p].next;
      }
    }
  }

  // The objects after the heads of the records in `done` have been restamped.
  ghost function StampHeads(s: State, done: seq<nat>, c: map<nat, Stamp>): map<nat, Obj> {
    map p | p in s.objs ::
      if s.objs[p].oid in done && Entry(s, s.objs[p].oid) == p && s.objs[p].oid in c
      then s.objs[p].(clsn := c[s.objs[p].oid]) else s.objs[p]
  }

  // The entries after the heads of the records in `done` have been unlinked.
  ghost function UnlinkHeads(s: State, done: seq<nat>): map<nat, nat> {
    map o | o in s.entries :: if o in done then NextOf(s, s.entries[o]) else s.entries[o]
  }

  lemma NoneDone(s: State, c: map<nat, Stamp>)
    ensures StampHeads(s, [], c) == s.objs && UnlinkHeads(s, []) == s.entries
  {
  }

  lemma AllDone(s: State, t: nat, c: map<nat, Stamp>)
    requires t in s.txns
    ensures var w := s.txns[t].wset;
            StampHeads(s, w[..|w|], c) == Restamp(s, t, c) && UnlinkHeads(s, w[..|w|]) == AbortAll(s, t).entries
  {
    var w := s.txns[t].wset;
    assert w[..|w|] == w;
  }

  // Every record in the write set has a head, and is listed once.
  ghost predicate WritesReady(s: State, t: nat)
    requires t in s.txns
  {
    && NoDup(s.txns[t].wset)
    && forall o :: o in s.txns[t].wset ==> o in s.entries && s.entries[o] in s.objs && s.objs[s.entries[o]].oid == o
  }

  // The invariant of `Snapshot` gives commit and abort what they need.
  lemma RunningIsReady(s: State, t: nat)
    requires Inv(s) && t in s.txns && s.txns[t].state == Active
    ensures WritesReady(s, t)
  {
    assert TxnInv(s, t);
    forall o | o in s.txns[t].wset ensures o in s.entries && s.entries[o] in s.objs && s.objs[s.entries[o]].oid == o {
      assert Owns(s.txns[t], o);
      assert EntryInv(s, o);
    }
  }

  lemma StampOneMore(s: State, w: seq<nat>, i: nat, c: map<nat, Stamp>)
    requires i < |w| && w[i] in s.entries && s.entries[w[i]] in s.objs && s.objs[s.entries[w[i]]].oid == w[i]
    requires w[i] in c
    ensures var e := s.entries[w[i]]; var m := StampHeads(s, w[..i], c);
            e in m && m[e].next == s.objs[e].next && StampHeads(s, w[..i + 1], c) == m[e := m[e].(clsn := c[w[i]])]
  {
    var m, m' := StampHeads(s, w[..i], c), StampHeads(s, w[..i + 1], c);
    var e := s.entries[w[i]];
    assert w[..i + 1] == w[..i] + [w[i]];
    forall p | p in s.objs ensures m'[p] == m[e := m[e].(clsn := c[w[i]])][p] {
      assert s.objs[p].oid in w[..i + 1] <==> s.objs[p].oid in w[..i] || s.objs[p].oid == w[i];
    }
  }

  lemma UnlinkOneMore(s: State, w: seq<nat>, i: nat)
    requires NoDup(w) && i < |w| && w[i] in s.entries
    ensures w[i] in UnlinkHeads(s, w[..i]) && UnlinkHeads(s, w[..i])[w[i]] == s.entries[w[i]]
    ensures UnlinkHeads(s, w[..i + 1]) == UnlinkHeads(s, w[..i])[w[i] := NextOf(s, s.entries[w[i]])]
  {
    assert w[..i + 1] == w[..i] + [w[i]];
    assert w[i] !in w[..i];
  }

  // A version reached from a head is committed, one's own, or of a transaction still running.
  ghost predicate Alive(s: State, t: nat, p: nat) {
    && t in s.txns && p in s.objs
    && (s.objs[p].clsn.Lsn? || (s.objs[p].clsn.Xid? && s.objs[p].clsn.t in s.txns
        && s.txns[s.objs[p].clsn.t].state == Active))
  }

  lemma HeadAlive(s: State, t: nat, o: nat)
    requires Inv(s) && t in s.txns
    ensures Entry(s, o) != 0 ==> Alive(s, t, Entry(s, o))
  {
    if o in s.entries { assert EntryInv(s, o); }
  }

  lemma RunningHasContext(s: State, t: nat, p: nat)
    requires Inv(s) && Alive(s, t, p)
    ensures Test(s, t, s.objs[p].clsn) != Restart
    ensures Test(s, t, s.objs[p].clsn) == Shown <==> Sees(t, s.txns[t].begin, s.objs[p].clsn)
  {
    if s.objs[p].clsn.Xid? { assert TxnInv(s, s.objs[p].clsn.t); }
  }
}
