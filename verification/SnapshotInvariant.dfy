/** Every step of `Snapshot` keeps its invariant, hence it holds in every state of every run. */
module SnapshotInvariant {
  import opened Stamps
  import opened Snapshot

  // ----- frames for chains and views -----

  ghost predicate Closed(m: map<nat, Obj>) {
    forall p :: p in m ==> 0 < p && m[p].next < p && (m[p].next != 0 ==> m[p].next in m)
  }

  // Every object of `m` is still there with the same successor.
  ghost predicate SameLinks(m: map<nat, Obj>, m': map<nat, Obj>) {
    forall p :: p in m ==> p in m' && m'[p].next == m[p].next
  }

  lemma {:induction false} ChainSame(m: map<nat, Obj>, m': map<nat, Obj>, p: nat)
    requires Closed(m) && SameLinks(m, m') && (p == 0 || p in m)
    ensures Chain(m', p) == Chain(m, p)
  {
    if p != 0 { ChainSame(m, m', m[p].next); }
  }

  lemma {:induction false} ViewSame(m: map<nat, Obj>, m': map<nat, Obj>, t: nat, begin: nat, p: nat)
    requires Closed(m) && SameLinks(m, m') && (p == 0 || p in m)
    requires forall q :: q in m ==> (Sees(t, begin, m'[q].clsn) <==> Sees(t, begin, m[q].clsn))
    ensures View(m', t, begin, p) == View(m, t, begin, p)
  {
    if p != 0 { ViewSame(m, m', t, begin, m[p].next); }
  }

  lemma InvClosed(s: State)
    requires Inv(s)
    ensures Closed(s.objs)
  {
    forall p | p in s.objs ensures 0 < p && s.objs[p].next < p && (s.objs[p].next != 0 ==> s.objs[p].next in s.objs) {
      assert ObjInv(s, p);
    }
  }

  // What any step does to the objects seen by a transaction other than the actor.
  ghost predicate Unseen(s: State, s': State, t: nat)
    requires t in s.txns
  {
    && SameLinks(s.objs, s'.objs)
    && forall q :: q in s.objs ==> (Sees(t, s.txns[t].begin, s'.objs[q].clsn) <==>
        Sees(t, s.txns[t].begin, s.objs[q].clsn))
  }

  // ----- steps that only move the actor -----

  // Objects and entries are as before, and the actor still owns what it owned.
  ghost predicate Still(s: State, s': State, t: nat) {
    && t in s.txns && t in s'.txns && s'.objs == s.objs && s'.entries == s.entries && s'.clock == s.clock
    && s'.txns == s.txns[t := s'.txns[t]] && s'.oneBlock == s.oneBlock
    && var x, x' := s.txns[t], s'.txns[t];
       && x'.begin == x.begin && x'.end == x.end && x'.state == x.state
       && forall o :: Owns(x', o) <==> Owns(x, o)
  }

  lemma StillKeeps(s: State, s': State, t: nat)
    requires Inv(s) && Still(s, s', t) && TxnInv(s', t)
    ensures Inv(s')
  {
    forall p | p in s'.objs ensures ObjInv(s', p) && Kept(s', p) && Tight(s', p) {
      assert ObjInv(s, p) && Kept(s, p) && Tight(s, p);
    }
    forall o | o in s'.entries ensures EntryInv(s', o) { assert EntryInv(s, o); }
    forall u | u in s'.txns && u != t ensures TxnInv(s', u) { StillOther(s, s', t, u); }
  }

  lemma StillOther(s: State, s': State, t: nat, u: nat)
    requires Still(s, s', t) && u in s.txns && u != t && TxnInv(s, u)
    ensures TxnInv(s', u)
  {
    hide View;
    assert s'.txns[u] == s.txns[u];
  }

  lemma MovesStill(s: State, s': State, t: nat)
    requires Moves(s, s', t) && TxnInv(s, t)
    ensures Still(s, s', t)
  {
    if ListWrite(s, s', t) {
      ListStill(s, s', t);
    } else {
      hide View, WalkInv, ListWrite, Test, PlanUpdate;
    }
  }

  lemma ListStill(s: State, s': State, t: nat)
    requires ListWrite(s, s', t) && TxnInv(s, t)
    ensures Still(s, s', t)
  {
    hide View;
  }

  // What a hop finds out.
  lemma HopPoint(s: State, s': State, t: nat)
    requires Inv(s) && Hop(s, s', t)
    ensures t in s'.txns && PointInv(s', t)
  {
    var x := s.txns[t];
    var p := x.pc.p;
    assert TxnInv(s, t) && ObjInv(s, p);
    if Test(s, t, s.objs[p].clsn) == Hidden && s.objs[p].next != 0 {
      assert ObjInv(s, s.objs[p].next);
    }
  }

  lemma EntryPoint(s: State, s': State, t: nat)
    requires Inv(s) && (ReadEntry(s, s', t) || ReadHead(s, s', t))
    ensures t in s'.txns && PointInv(s', t)
  {
    var o := s.txns[t].pc.o;
    if Entry(s, o) != 0 {
      assert EntryInv(s, o);
    }
  }

  lemma MovesKeep(s: State, s': State, t: nat)
    requires Inv(s) && Moves(s, s', t)
    ensures Inv(s')
  {
    assert TxnInv(s, t);
    MovesStill(s, s', t);
    if Hop(s, s', t) {
      HopPoint(s, s', t);
    } else if ReadEntry(s, s', t) || ReadHead(s, s', t) {
      EntryPoint(s, s', t);
    }
    MovesOwn(s, s', t);
    StillKeeps(s, s', t);
  }

  lemma MovesOwn(s: State, s': State, t: nat)
    requires Moves(s, s', t) && Still(s, s', t) && TxnInv(s, t)
    requires Hop(s, s', t) || ReadEntry(s, s', t) || ReadHead(s, s', t) ==> PointInv(s', t)
    ensures TxnInv(s', t)
  {
    hide View, WalkInv;
  }

  // ----- steps that change objects: what others notice -----

  // Only the actor's uncommitted versions are restamped, past every snapshot if logs fit one block,
  // or dead, and only records without a foreign uncommitted head get another head.
  ghost predicate Changes(s: State, s': State, t: nat) {
    && t in s.txns && t in s'.txns && s'.txns == s.txns[t := s'.txns[t]]
    && s'.oneBlock == s.oneBlock
    && s.clock <= s'.clock && s'.txns[t].begin == s.txns[t].begin && s.txns[t].state == Active
    && (s'.txns[t].state == Cmmtd ==> s'.txns[t].end > s.clock + 1)
    && (forall q :: q in s.objs ==> q in s'.objs && Restamped(s, s', t, q))
    && (forall o :: Entry(s', o) == Entry(s, o) || Entry(s, o) !in s.objs || !Foreign(t, s.objs[Entry(s, o)].clsn))
  }

  ghost predicate Foreign(t: nat, clsn: Stamp) {
    clsn.Xid? && clsn.t != t
  }

  ghost predicate Restamped(s: State, s': State, t: nat, q: nat)
    requires q in s.objs && q in s'.objs && t in s'.txns
  {
    var v, v' := s.objs[q], s'.objs[q];
    && v' == v.(clsn := v'.clsn)
    && (v'.clsn == v.clsn
        || (v.clsn == Xid(t) && v'.clsn.Null?)
        || (v.clsn == Xid(t) && v'.clsn.Lsn? && s'.txns[t].state == Cmmtd && (s.oneBlock ==> v'.clsn.n > s.clock + 1)))
  }

  // The step is no commit, or one whose versions lie past every snapshot.
  ghost predicate Quiet(s: State, s': State, t: nat) {
    s.oneBlock || (t in s'.txns && s'.txns[t].state != Cmmtd)
  }

  lemma ChangesUnseen(s: State, s': State, t: nat, u: nat)
    requires Changes(s, s', t) && Quiet(s, s', t) && u in s.txns && u != t && s.txns[u].begin <= s.clock + 1
    ensures Unseen(s, s', u)
  {
    forall q | q in s.objs
      ensures q in s'.objs && s'.objs[q].next == s.objs[q].next
              && (Sees(u, s.txns[u].begin, s'.objs[q].clsn) <==> Sees(u, s.txns[u].begin, s.objs[q].clsn))
    {
      assert Restamped(s, s', t, q);
    }
  }

  // A bystander keeps its invariant if it sees the same from every head.
  lemma OtherKeeps(s: State, s': State, t: nat, u: nat)
    requires Changes(s, s', t) && Closed(s.objs) && u in s.txns && u != t && TxnInv(s, u)
    requires s.oneBlock ==> forall o :: Visible(s', u, o) == Visible(s, u, o)
    ensures TxnInv(s', u)
  {
    var x := s.txns[u];
    assert s'.txns[u] == x;
    forall o | Owns(x, o) && x.state == Active
      ensures Entry(s', o) != 0 && Entry(s', o) in s'.objs && s'.objs[Entry(s', o)].clsn == Xid(u)
    {
      assert Restamped(s, s', t, Entry(s, o));
    }
    hide Visible;
    match x.pc
    case WalkAt(o, p) =>
      if s.oneBlock {
        ChangesUnseen(s, s', t, u);
        ViewSame(s.objs, s'.objs, u, x.begin, p);
      }
      assert Restamped(s, s', t, p);
    case UpdAt(o, _, h) => assert Restamped(s, s', t, h);
    case Installed(o, prev) => PrevKept(s, s', t, u);
    case _ =>
  }

  // The version under one's own new head is not restamped by others.
  lemma PrevKept(s: State, s': State, t: nat, u: nat)
    requires Changes(s, s', t) && u in s.txns && u != t && TxnInv(s, u) && s.txns[u].pc.Installed?
    ensures s'.objs[s.txns[u].pc.prev].clsn == s.objs[s.txns[u].pc.prev].clsn
  {
    assert Restamped(s, s', t, s.txns[u].pc.prev);
  }

  // ----- linking a version -----

  // `t` puts a fresh object `m` at the head of `o`: above the head, or in place of its own.
  ghost predicate Links(s: State, s': State, t: nat, o: nat, m: nat) {
    && t in s.txns && t in s'.txns && Fresh(s, m) && s.txns[t].state == Active
    && m in s'.objs && s'.objs == s.objs[m := s'.objs[m]] && s'.entries == s.entries[o := m]
    && s'.clock == s.clock && s'.txns == s.txns[t := s'.txns[t]] && s'.oneBlock == s.oneBlock
    && (var v := s'.objs[m];
        && v.oid == o && v.writer == t && v.clsn == Xid(t)
        && (v.next == Entry(s, o) || (Entry(s, o) in s.objs && s.objs[Entry(s, o)].clsn == Xid(t)
            && v.next == s.objs[Entry(s, o)].next)))
    && (var x, x' := s.txns[t], s'.txns[t];
        x'.begin == x.begin && x'.state == Active && Owns(x', o) && forall q :: q != o ==>
            (Owns(x', q) <==> Owns(x, q)))
    && (Entry(s, o) in s.objs ==> !Foreign(t, s.objs[Entry(s, o)].clsn))
    && ObjInv(s', m)
  }

  lemma LinksChange(s: State, s': State, t: nat, o: nat, m: nat)
    requires Links(s, s', t, o, m)
    ensures Changes(s, s', t)
  {
  }

  lemma LinksVisible(s: State, s': State, t: nat, o: nat, m: nat, u: nat, q: nat)
    requires Inv(s) && Links(s, s', t, o, m) && u in s.txns && u != t
    ensures Visible(s', u, q) == Visible(s, u, q)
  {
    InvClosed(s);
    LinksChange(s, s', t, o, m);
    assert TxnInv(s, u);
    ChangesUnseen(s, s', t, u);
    EntryExists(s, q);
    ViewSame(s.objs, s'.objs, u, s.txns[u].begin, Entry(s, q));
    if q == o {
      var v := s'.objs[m];
      if v.next != 0 {
        ViewSame(s.objs, s'.objs, u, s.txns[u].begin, v.next);
      }
    }
  }

  lemma EntryExists(s: State, o: nat)
    requires Inv(s)
    ensures Entry(s, o) == 0 || Entry(s, o) in s.objs
  {
    if o in s.entries { assert EntryInv(s, o); }
  }

  lemma LinksKept(s: State, s': State, t: nat, o: nat, m: nat, p: nat)
    requires Inv(s) && Links(s, s', t, o, m) && p in s'.objs
    ensures ObjInv(s', p) && Kept(s', p) && Tight(s', p)
  {
    hide Inv, Closed, SameLinks;
    InvClosed(s);
    LinksSame(s, s', t, o, m);
    EntryExists(s, o);
    if p != m {
      ObjectHolds(s, p);
      var q := s.objs[p].oid;
      EntryExists(s, q);
      ChainSame(s.objs, s'.objs, Entry(s, q));
      if q == o {
        ChainSame(s.objs, s'.objs, s'.objs[m].next);
      }
    }
  }

  lemma ObjectHolds(s: State, p: nat)
    requires Inv(s) && p in s.objs
    ensures ObjInv(s, p) && Kept(s, p) && Tight(s, p)
  {
  }

  lemma LinksSame(s: State, s': State, t: nat, o: nat, m: nat)
    requires Links(s, s', t, o, m)
    ensures SameLinks(s.objs, s'.objs)
  {
  }

  lemma LinksKeep(s: State, s': State, t: nat, o: nat, m: nat)
    requires Inv(s) && Links(s, s', t, o, m) && TxnInv(s', t)
    ensures Inv(s')
  {
    InvClosed(s);
    LinksChange(s, s', t, o, m);
    forall p | p in s'.objs ensures ObjInv(s', p) && Kept(s', p) && Tight(s', p) { LinksKept(s, s', t, o, m, p); }
    forall q | q in s'.entries ensures EntryInv(s', q) { if q != o { assert EntryInv(s, q); } }
    forall u | u in s'.txns && u != t ensures TxnInv(s', u) {
      assert TxnInv(s, u);
      forall q ensures Visible(s', u, q) == Visible(s, u, q) { LinksVisible(s, s', t, o, m, u, q); }
      OtherKeeps(s, s', t, u);
    }
  }

  // An installed version replaces one's own head or goes above a committed head within the snapshot.
  lemma InstallLinks(s: State, s': State, t: nat, m: nat)
    requires Inv(s) && (Replace(s, s', t, m) || (Swap(s, s', t, m) && Entry(s, s.txns[t].pc.o) == s.txns[t].pc.head))
    ensures Links(s, s', t, s.txns[t].pc.o, m) && TxnInv(s', t)
  {
    hide Links, ObjInv, EntryInv, Kept, PointInv, Replace, Swap, Owns;
    InstallFacts(s, s', t, m);
    InstallOwns(s, s', t, m);
    if Replace(s, s', t, m) {
      ReplaceLinks(s, s', t, m);
    } else {
      SwapLinks(s, s', t, m);
    }
  }

  lemma InstallFacts(s: State, s': State, t: nat, m: nat)
    requires Inv(s) && (Replace(s, s', t, m) || Swap(s, s', t, m))
    ensures t in s.txns && TxnInv(s, t) && s.txns[t].pc.UpdAt? && s.txns[t].pc.head in s.objs
              && ObjInv(s, s.txns[t].pc.head)
    ensures var o := s.txns[t].pc.o; Entry(s, o) != 0 ==> o in s.entries && EntryInv(s, o)
  {
    hide ObjInv, EntryInv, Kept, PointInv;
  }

  lemma ReplaceLinks(s: State, s': State, t: nat, m: nat)
    requires Replace(s, s', t, m) && TxnInv(s, t) && ObjInv(s, s.txns[t].pc.head) && t in s'.txns
    requires var o := s.txns[t].pc.o; Entry(s, o) != 0 ==> o in s.entries && EntryInv(s, o)
    requires forall q :: Owns(s'.txns[t], q) <==> Owns(s.txns[t], q) || q == s.txns[t].pc.o
    ensures Links(s, s', t, s.txns[t].pc.o, m) && TxnInv(s', t)
  {
    assert ObjInv(s', m);
  }

  lemma SwapLinks(s: State, s': State, t: nat, m: nat)
    requires Swap(s, s', t, m) && Entry(s, s.txns[t].pc.o) == s.txns[t].pc.head
    requires TxnInv(s, t) && ObjInv(s, s.txns[t].pc.head) && t in s'.txns
    requires var o := s.txns[t].pc.o; Entry(s, o) != 0 ==> o in s.entries && EntryInv(s, o)
    requires forall q :: Owns(s'.txns[t], q) <==> Owns(s.txns[t], q) || q == s.txns[t].pc.o
    ensures Links(s, s', t, s.txns[t].pc.o, m) && TxnInv(s', t)
  {
    assert ObjInv(s', m);
  }

  lemma InstallOwns(s: State, s': State, t: nat, m: nat)
    requires Replace(s, s', t, m) || (Swap(s, s', t, m) && Entry(s, s.txns[t].pc.o) == s.txns[t].pc.head)
    requires TxnInv(s, t)
    ensures t in s'.txns
    ensures forall q :: Owns(s'.txns[t], q) <==> Owns(s.txns[t], q) || q == s.txns[t].pc.o
  {
  }

  lemma InsertLinks(s: State, s': State, t: nat, o: nat, m: nat, val: int)
    requires Inv(s) && Insert(s, s', t, o, m, val)
    ensures Links(s, s', t, o, m) && TxnInv(s', t)
  {
    assert TxnInv(s, t);
    assert o !in s.txns[t].wset by { if o in s.txns[t].wset { assert Owns(s.txns[t], o); } }
    assert ObjInv(s', m);
  }

  // ----- commit and abort -----

  lemma WrittenIsOwn(s: State, t: nat, p: nat)
    requires Inv(s) && Written(s, t, p) && s.txns[t].state == Active
    ensures s.objs[p].clsn == Xid(t) && s.objs[p].writer == t
  {
    assert TxnInv(s, t) && ObjInv(s, p);
    assert Owns(s.txns[t], s.objs[p].oid);
  }

  // The head of every written record is restamped and no other object.
  lemma EndChanges(s: State, s': State, t: nat)
    requires Inv(s) && (Abort(s, s', t) || exists n, a :: Commit(s, s', t, n, a))
    ensures Changes(s, s', t)
  {
    assert TxnInv(s, t);
    forall q | q in s.objs ensures q in s'.objs && Restamped(s, s', t, q) {
      if Written(s, t, q) { WrittenIsOwn(s, t, q); }
    }
    forall o ensures Entry(s', o) == Entry(s, o) || Entry(s, o) !in s.objs || !Foreign(t, s.objs[Entry(s, o)].clsn) {
      if o in s.txns[t].wset { assert Owns(s.txns[t], o); }
    }
  }

  lemma EndVisible(s: State, s': State, t: nat, u: nat, q: nat)
    requires Inv(s) && (Abort(s, s', t) || exists n, a :: Commit(s, s', t, n, a)) && Quiet(s, s', t)
    requires u in s.txns && u != t
    ensures Visible(s', u, q) == Visible(s, u, q)
  {
    hide Inv, Changes, Unseen, Closed;
    EndChanges(s, s', t);
    TxnHolds(s, u);
    TxnHolds(s, t);
    EntryExists(s, q);
    var b := s.txns[u].begin;
    UnseenView(s, s', t, u, Entry(s, q));
    if Abort(s, s', t) && q in s.txns[t].wset {
      assert Owns(s.txns[t], q);
      NextExists(s, Entry(s, q));
      UnseenView(s, s', t, u, s.objs[Entry(s, q)].next);
    }
  }

  lemma TxnHolds(s: State, t: nat)
    requires Inv(s) && t in s.txns
    ensures TxnInv(s, t)
  {
  }

  lemma NextExists(s: State, p: nat)
    requires Inv(s) && p in s.objs
    ensures s.objs[p].next < p && (s.objs[p].next == 0 || s.objs[p].next in s.objs)
  {
    assert ObjInv(s, p);
  }

  // What `u` sees from an object on is not changed by another transaction's step.
  lemma UnseenView(s: State, s': State, t: nat, u: nat, p: nat)
    requires Inv(s) && Changes(s, s', t) && Quiet(s, s', t) && u in s.txns && u != t && (p == 0 || p in s.objs)
    ensures View(s'.objs, u, s.txns[u].begin, p) == View(s.objs, u, s.txns[u].begin, p)
  {
    InvClosed(s);
    assert TxnInv(s, u);
    ChangesUnseen(s, s', t, u);
    ViewSame(s.objs, s'.objs, u, s.txns[u].begin, p);
  }

  // What commit makes of one object: a stamp for a written head, nothing for the others.
  lemma CommitStamps(s: State, s': State, t: nat, n: nat, a: map<nat, nat>, p: nat)
    requires Inv(s) && Commit(s, s', t, n, a) && p in s.objs
    ensures p in s'.objs && s'.objs[p] == s.objs[p].(clsn := s'.objs[p].clsn)
    ensures if Written(s, t, p) then
              && s.objs[p].clsn == Xid(t) && s.objs[p].writer == t && s'.objs[p].clsn.Lsn?
              && (if s.oneBlock then s.clock + 1 else s.txns[t].begin) < s'.objs[p].clsn.n <= n
            else s'.objs[p].clsn == s.objs[p].clsn
  {
    assert TxnInv(s, t);
    if Written(s, t, p) { WrittenIsOwn(s, t, p); }
  }

  lemma CommitHeader(s: State, s': State, t: nat, n: nat, a: map<nat, nat>)
    requires Commit(s, s', t, n, a) && Inv(s)
    ensures t in s.txns && s.txns[t].state == Active && s.txns[t].begin <= s.clock + 1 < n == s'.clock
    ensures s'.txns == s.txns[t := s.txns[t].(end := n, state := Cmmtd, pc := Over)] && s'.oneBlock == s.oneBlock
    ensures s'.entries == s.entries && s'.objs.Keys == s.objs.Keys
  {
    assert TxnInv(s, t);
  }

  lemma CommitObj(s: State, s': State, t: nat, n: nat, a: map<nat, nat>, p: nat)
    requires Inv(s) && Commit(s, s', t, n, a) && p in s'.objs
    ensures ObjInv(s', p) && Tight(s', p)
  {
    hide Inv, Commit, Written;
    CommitHeader(s, s', t, n, a);
    ObjectHolds(s, p);
    CommitStamps(s, s', t, n, a, p);
    var x := s.objs[p].next;
    if x != 0 { CommitStamps(s, s', t, n, a, x); }
    forall u | u in s.txns ensures s.txns[u].begin <= s.clock + 1 { TxnHolds(s, u); }
  }

  lemma CommitKept(s: State, s': State, t: nat, n: nat, a: map<nat, nat>, p: nat)
    requires Inv(s) && Commit(s, s', t, n, a) && p in s'.objs
    ensures Kept(s', p)
  {
    hide Inv, Commit, Written, Closed, SameLinks;
    CommitHeader(s, s', t, n, a);
    ObjectHolds(s, p);
    CommitStamps(s, s', t, n, a, p);
    InvClosed(s);
    EntryExists(s, s.objs[p].oid);
    CommitLinks(s, s', t, n, a);
    ChainSame(s.objs, s'.objs, Entry(s, s.objs[p].oid));
    if Written(s, t, p) { WrittenIsHead(s, t, p); }
  }

  lemma WrittenIsHead(s: State, t: nat, p: nat)
    requires Written(s, t, p) && 0 < p
    ensures p in Chain(s.objs, Entry(s, s.objs[p].oid))
  {
  }

  lemma CommitLinks(s: State, s': State, t: nat, n: nat, a: map<nat, nat>)
    requires Inv(s) && Commit(s, s', t, n, a)
    ensures SameLinks(s.objs, s'.objs)
  {
    hide Inv;
  }

  // What abort makes of one object: a written head dies, nothing happens to the others.
  lemma AbortStamps(s: State, s': State, t: nat, p: nat)
    requires Inv(s) && Abort(s, s', t) && p in s.objs
    ensures p in s'.objs && s'.objs[p] == s.objs[p].(clsn := s'.objs[p].clsn)
    ensures if Written(s, t, p) then s.objs[p].clsn == Xid(t) && s'.objs[p].clsn == Null
            else s'.objs[p].clsn == s.objs[p].clsn
  {
    assert TxnInv(s, t);
    if Written(s, t, p) { WrittenIsOwn(s, t, p); }
  }

  lemma AbortHeader(s: State, s': State, t: nat)
    requires Inv(s) && Abort(s, s', t)
    ensures t in s.txns && s.txns[t].state == Active && s'.clock == s.clock && s'.oneBlock == s.oneBlock
    ensures s'.txns == s.txns[t := s.txns[t].(state := Abrtd, pc := Over)] && s'.objs.Keys == s.objs.Keys
    ensures SameLinks(s.objs, s'.objs)
    ensures forall o :: Entry(s', o) == if o in s.txns[t].wset then NextOf(s, Entry(s, o)) else Entry(s, o)
  {
    assert TxnInv(s, t);
    forall o | o in s.txns[t].wset ensures o in s.entries { assert Owns(s.txns[t], o); }
  }

  lemma AbortObj(s: State, s': State, t: nat, p: nat)
    requires Inv(s) && Abort(s, s', t) && p in s'.objs
    ensures ObjInv(s', p) && Tight(s', p)
  {
    hide Inv, Abort, Written, SameLinks;
    AbortHeader(s, s', t);
    ObjectHolds(s, p);
    AbortStamps(s, s', t, p);
    var x := s.objs[p].next;
    if x != 0 { AbortStamps(s, s', t, x); }
  }

  lemma AbortKept(s: State, s': State, t: nat, p: nat)
    requires Inv(s) && Abort(s, s', t) && p in s'.objs
    ensures Kept(s', p)
  {
    hide Inv, Abort, Written, SameLinks, Closed;
    AbortHeader(s, s', t);
    ObjectHolds(s, p);
    AbortStamps(s, s', t, p);
    InvClosed(s);
    var o := s.objs[p].oid;
    EntryExists(s, o);
    ChainSame(s.objs, s'.objs, Entry(s, o));
    if o in s.txns[t].wset {
      TxnHolds(s, t);
      assert Owns(s.txns[t], o);
      NextExists(s, Entry(s, o));
      ChainSame(s.objs, s'.objs, s.objs[Entry(s, o)].next);
    }
  }

  lemma CommitEntry(s: State, s': State, t: nat, n: nat, a: map<nat, nat>, o: nat)
    requires Inv(s) && Commit(s, s', t, n, a) && o in s'.entries
    ensures EntryInv(s', o)
  {
    assert TxnInv(s, t) && EntryInv(s, o);
    var h := s.entries[o];
    if h != 0 && Written(s, t, h) { WrittenIsOwn(s, t, h); }
  }

  lemma AbortEntry(s: State, s': State, t: nat, o: nat)
    requires Inv(s) && Abort(s, s', t) && o in s'.entries
    ensures EntryInv(s', o)
  {
    assert TxnInv(s, t) && EntryInv(s, o);
    var h := s.entries[o];
    if o in s.txns[t].wset {
      assert Owns(s.txns[t], o);
      assert ObjInv(s, h);
      var x := s.objs[h].next;
      if x != 0 && Written(s, t, x) { WrittenIsOwn(s, t, x); }
    } else if h != 0 && Written(s, t, h) {
      WrittenIsOwn(s, t, h);
    }
  }

  lemma EndObjects(s: State, s': State, t: nat)
    requires Inv(s) && (Abort(s, s', t) || exists n, a :: Commit(s, s', t, n, a))
    ensures forall p :: p in s'.objs ==> ObjInv(s', p) && Kept(s', p) && Tight(s', p)
    ensures forall o :: o in s'.entries ==> EntryInv(s', o)
  {
    hide Inv, Abort, Commit;
    if n, a :| Commit(s, s', t, n, a) {
      forall p | p in s'.objs ensures ObjInv(s', p) && Kept(s', p) && Tight(s', p) {
        CommitObj(s, s', t, n, a, p);
        CommitKept(s, s', t, n, a, p);
      }
      forall o | o in s'.entries ensures EntryInv(s', o) { CommitEntry(s, s', t, n, a, o); }
    } else {
      forall p | p in s'.objs ensures ObjInv(s', p) && Kept(s', p) && Tight(s', p) {
        AbortObj(s, s', t, p);
        AbortKept(s, s', t, p);
      }
      forall o | o in s'.entries ensures EntryInv(s', o) { AbortEntry(s, s', t, o); }
    }
  }

  lemma EndOwn(s: State, s': State, t: nat)
    requires Inv(s) && (Abort(s, s', t) || exists n, a :: Commit(s, s', t, n, a))
    ensures t in s'.txns && TxnInv(s', t)
  {
    assert TxnInv(s, t);
  }

  lemma EndKeeps(s: State, s': State, t: nat)
    requires Inv(s) && (Abort(s, s', t) || exists n, a :: Commit(s, s', t, n, a))
    ensures Inv(s')
  {
    InvClosed(s);
    EndChanges(s, s', t);
    EndObjects(s, s', t);
    EndOwn(s, s', t);
    hide Abort, Commit, Visible, ObjInv, Kept, Tight, EntryInv;
    forall u | u in s'.txns && u != t ensures TxnInv(s', u) {
      assert TxnInv(s, u);
      forall q | s.oneBlock ensures Visible(s', u, q) == Visible(s, u, q) { EndVisible(s, s', t, u, q); }
      OtherKeeps(s, s', t, u);
    }
  }

  // ----- all steps -----

  lemma BeginKeeps(s: State, s': State, t: nat)
    requires Inv(s) && Begin(s, s', t)
    ensures Inv(s')
  {
    forall p | p in s'.objs ensures ObjInv(s', p) && Kept(s', p) && Tight(s', p) {
      assert ObjInv(s, p) && Kept(s, p) && Tight(s, p);
    }
    forall o | o in s'.entries ensures EntryInv(s', o) { assert EntryInv(s, o); }
    forall u | u in s'.txns && u != t ensures TxnInv(s', u) { BeginOther(s, s', t, u); }
  }

  lemma BeginOther(s: State, s': State, t: nat, u: nat)
    requires Inv(s) && Begin(s, s', t) && u in s.txns
    ensures TxnInv(s', u)
  {
    assert TxnInv(s, u);
    if s.txns[u].pc.WalkAt? {
      assert ObjInv(s, s.txns[u].pc.p);
    }
  }

  lemma DrawKeeps(s: State, s': State, n: nat)
    requires Inv(s) && Draw(s, s', n)
    ensures Inv(s')
  {
    forall p | p in s'.objs ensures ObjInv(s', p) && Kept(s', p) && Tight(s', p) {
      assert ObjInv(s, p) && Kept(s, p) && Tight(s, p);
    }
    forall o | o in s'.entries ensures EntryInv(s', o) { assert EntryInv(s, o); }
    forall u | u in s'.txns ensures TxnInv(s', u) { DrawTxn(s, s', n, u); }
  }

  lemma DrawTxn(s: State, s': State, n: nat, u: nat)
    requires Draw(s, s', n) && u in s.txns && TxnInv(s, u)
    ensures TxnInv(s', u)
  {
    hide View;
  }

  lemma StepKeeps(s: State, s': State, t: nat)
    requires Inv(s) && Step(s, s', t)
    ensures Inv(s')
  {
    hide Inv, Begin, Moves, Insert, Abort, Commit, Draw;
    if Begin(s, s', t) {
      BeginKeeps(s, s', t);
    } else if Moves(s, s', t) {
      MovesKeep(s, s', t);
    } else if m :| Replace(s, s', t, m) {
      InstallLinks(s, s', t, m);
      LinksKeep(s, s', t, s.txns[t].pc.o, m);
    } else if m :| Swap(s, s', t, m) {
      SwapKeeps(s, s', t, m);
    } else if o, m, val :| Insert(s, s', t, o, m, val) {
      InsertLinks(s, s', t, o, m, val);
      LinksKeep(s, s', t, o, m);
    } else if n :| Draw(s, s', n) {
      DrawKeeps(s, s', n);
    } else {
      EndKeeps(s, s', t);
    }
  }

  lemma SwapKeeps(s: State, s': State, t: nat, m: nat)
    requires Inv(s) && Swap(s, s', t, m)
    ensures Inv(s')
  {
    if Entry(s, s.txns[t].pc.o) == s.txns[t].pc.head {
      InstallLinks(s, s', t, m);
      LinksKeep(s, s', t, s.txns[t].pc.o, m);
    } else {
      assert TxnInv(s, t);
      StillKeeps(s, s', t);
    }
  }

  lemma InitHolds(s: State)
    requires Init(s)
    ensures Inv(s)
  {
  }

  lemma SameBlocks(s: State, s': State, t: nat)
    requires Step(s, s', t)
    ensures s'.oneBlock == s.oneBlock
  {
  }

  /** The invariant holds in every state of every run. */
  lemma {:induction false} RunInvariant(r: seq<State>)
    requires Run(r)
    ensures Inv(r[|r| - 1]) && r[|r| - 1].oneBlock == r[0].oneBlock
  {
    hide Inv, Step;
    if |r| == 1 {
      InitHolds(r[0]);
    } else {
      var k := |r| - 1;
      RunInvariant(r[..k]);
      assert Next(r[k - 1], r[k]);
      var t :| Step(r[k - 1], r[k], t);
      StepKeeps(r[k - 1], r[k], t);
      SameBlocks(r[k - 1], r[k], t);
    }
  }
}
