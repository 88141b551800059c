/** What snapshot isolation guarantees over every run at coroutine granularity. */
module SnapshotTheorems {
  import opened Stamps
  import opened Snapshot
  import opened SnapshotInvariant

  lemma PrefixInvariant(r: seq<State>, k: nat)
    requires Run(r) && k < |r|
    ensures Inv(r[k]) && r[k].oneBlock == r[0].oneBlock
  {
    RunInvariant(r[..k + 1]);
  }

  // ----- chains -----

  lemma {:induction false} BelowIsCommitted(s: State, p: nat, i: nat)
    requires Inv(s) && p in s.objs && i < |Chain(s.objs, p)|
    ensures Chain(s.objs, p)[i] in s.objs && s.objs[Chain(s.objs, p)[i]].oid == s.objs[p].oid
    ensures i > 0 ==>
              && s.objs[p].next in s.objs && s.objs[s.objs[p].next].clsn.Lsn?
              && s.objs[Chain(s.objs, p)[i]].clsn.Lsn?
              && s.objs[Chain(s.objs, p)[i]].clsn.n <= s.objs[s.objs[p].next].clsn.n < s.txns[s.objs[p].writer].begin
    decreases p
  {
    assert ObjInv(s, p);
    if i > 0 {
      var q := s.objs[p].next;
      assert ObjInv(s, q);
      BelowIsCommitted(s, q, i - 1);
    }
  }

  // Of two objects on a chain one lies below the other.
  lemma {:induction false} OnOneChain(s: State, h: nat, p: nat, q: nat)
    requires Inv(s) && (h == 0 || h in s.objs) && p in s.objs && q in s.objs && p != q
    requires p in Chain(s.objs, h) && q in Chain(s.objs, h)
    ensures (q in Chain(s.objs, s.objs[p].next) || p in Chain(s.objs, s.objs[q].next))
    decreases h
  {
    assert ObjInv(s, h);
    if p != h && q != h {
      OnOneChain(s, s.objs[h].next, p, q);
    }
  }

  lemma BelowIsOlder(s: State, p: nat, q: nat)
    requires Inv(s) && p in s.objs && q in Chain(s.objs, s.objs[p].next)
    ensures q in s.objs && s.objs[q].clsn.Lsn? && s.objs[q].clsn.n < s.txns[s.objs[p].writer].begin
  {
    assert ObjInv(s, p);
    hide Inv, Chain;
    var i := PlaceBelow(s.objs, p, q);
    BelowIsCommitted(s, p, i);
  }

  lemma PlaceBelow(m: map<nat, Obj>, p: nat, q: nat) returns (i: nat)
    requires p in m && 0 < p && m[p].next < p && q in Chain(m, m[p].next)
    ensures 0 < i < |Chain(m, p)| && Chain(m, p)[i] == q
  {
    var c := Chain(m, m[p].next);
    assert Chain(m, p) == [p] + c;
    hide Chain;
    var k :| 0 <= k < |c| && c[k] == q;
    i := k + 1;
  }

  /**
   First updater wins: of any two committed versions of a record, the writer of the later one
   began above the stamp of the earlier one.  If logs fit one block it began after the commit of
   the earlier writer, so committed writers of a record never overlap.
   */
  lemma FirstUpdaterWins(r: seq<State>, p: nat, q: nat)
    requires Run(r)
    requires var s := r[|r| - 1];
             && p in s.objs && q in s.objs && s.objs[p].oid == s.objs[q].oid
             && s.objs[p].clsn.Lsn? && s.objs[q].clsn.Lsn? && p != q && s.objs[q].clsn.n <= s.objs[p].clsn.n
    ensures var s := r[|r| - 1];
            && s.objs[p].writer in s.txns
            && s.objs[q].clsn.n < s.txns[s.objs[p].writer].begin < s.objs[p].clsn.n
            && s.objs[q].writer in s.txns
            && (r[0].oneBlock ==> s.txns[s.objs[q].writer].end < s.txns[s.objs[p].writer].begin)
  {
    var s := r[|r| - 1];
    RunInvariant(r);
    assert Kept(s, p) && Kept(s, q) && ObjInv(s, p) && ObjInv(s, q) && Tight(s, q);
    var o := s.objs[p].oid;
    EntryExists(s, o);
    OnOneChain(s, Entry(s, o), p, q);
    if q in Chain(s.objs, s.objs[p].next) {
      BelowIsOlder(s, p, q);
    } else {
      BelowIsOlder(s, q, p);
    }
  }

  /**
   The chain of every record: below the head everything is committed, with strictly falling
   stamps; an uncommitted head belongs to a running transaction that lists the record exactly
   once, or is just about to.
   */
  lemma ChainShape(r: seq<State>, o: nat)
    requires Run(r)
    ensures var s := r[|r| - 1]; var c := Chain(s.objs, Entry(s, o));
            && (forall i :: 0 <= i < |c| ==> c[i] in s.objs && s.objs[c[i]].oid == o)
            && (forall i :: 0 < i < |c| ==> s.objs[c[i]].clsn.Lsn?)
            && (forall i, j :: 0 <= i < j < |c| && s.objs[c[i]].clsn.Lsn? ==> s.objs[c[j]].clsn.n < s.objs[c[i]].clsn.n)
            && (|c| > 0 && !s.objs[c[0]].clsn.Lsn? ==>
                  && s.objs[c[0]].clsn.Xid?
                  && var u := s.objs[c[0]].clsn.t;
                     && u in s.txns && s.txns[u].state == Active && NoDup(s.txns[u].wset)
                     && (o in s.txns[u].wset || (s.txns[u].pc.Installed? && s.txns[u].pc.o == o)))
  {
    var s := r[|r| - 1];
    RunInvariant(r);
    EntryExists(s, o);
    var h := Entry(s, o);
    var c := Chain(s.objs, h);
    if h != 0 {
      assert EntryInv(s, o) && ObjInv(s, h);
      if s.objs[h].clsn.Xid? { assert TxnInv(s, s.objs[h].clsn.t); }
      forall i | 0 <= i < |c| ensures c[i] in s.objs && s.objs[c[i]].oid == o && (i > 0 ==> s.objs[c[i]].clsn.Lsn?) {
        BelowIsCommitted(s, h, i);
      }
      forall i, j | 0 <= i < j < |c| && s.objs[c[i]].clsn.Lsn? ensures s.objs[c[j]].clsn.n < s.objs[c[i]].clsn.n {
        ChainFalls(s, h, i, j);
      }
    }
  }

  lemma {:induction false} ChainFalls(s: State, h: nat, i: nat, j: nat)
    requires Inv(s) && h in s.objs && i < j < |Chain(s.objs, h)|
    ensures var c := Chain(s.objs, h);
            && c[i] in s.objs && c[j] in s.objs && s.objs[c[j]].clsn.Lsn?
            && (s.objs[c[i]].clsn.Lsn? ==> s.objs[c[j]].clsn.n < s.objs[c[i]].clsn.n)
    decreases h
  {
    hide Inv, Chain;
    ObjHolds(s, h);
    ChainStep(s, h);
    if i == 0 {
      BelowIsCommitted(s, h, j);
    } else {
      ChainFalls(s, s.objs[h].next, i - 1, j - 1);
    }
  }

  lemma ObjHolds(s: State, h: nat)
    requires Inv(s) && h in s.objs
    ensures ObjInv(s, h)
  {
  }

  lemma ChainStep(s: State, h: nat)
    requires h in s.objs && ObjInv(s, h) && |Chain(s.objs, h)| > 1
    ensures s.objs[h].next in s.objs && s.objs[h].next < h && Chain(s.objs, h) == [h] + Chain(s.objs, s.objs[h].next)
  {
  }

  // ----- abort -----

  /**
   Abort restores every chain: a touched record loses exactly its uncommitted head, every other
   chain is as before, and no version left on a chain has changed.
   */
  lemma AbortRestores(r: seq<State>, s': State, t: nat, o: nat)
    requires Run(r) && Abort(r[|r| - 1], s', t)
    ensures var s := r[|r| - 1];
            var c, c' := Chain(s.objs, Entry(s, o)), Chain(s'.objs, Entry(s', o));
            && (o in s.txns[t].wset ==> |c| > 0 && s.objs[c[0]].clsn == Xid(t) && c' == c[1..])
            && (o !in s.txns[t].wset ==> c' == c)
            && forall p :: p in c' ==> p in s.objs && p in s'.objs && s'.objs[p] == s.objs[p]
  {
    var s := r[|r| - 1];
    RunInvariant(r);
    InvClosed(s);
    EndChanges(s, s', t);
    EndKeeps(s, s', t);
    EntryExists(s, o);
    EntryExists(s', o);
    assert TxnInv(s, t);
    ChainSame(s.objs, s'.objs, Entry(s, o));
    if o in s.txns[t].wset {
      assert Owns(s.txns[t], o);
      ChainSame(s.objs, s'.objs, s.objs[Entry(s, o)].next);
    }
    ChainUntouched(s, s', t, o);
  }

  lemma ChainUntouched(s: State, s': State, t: nat, o: nat)
    requires Inv(s) && Inv(s') && Abort(s, s', t)
    ensures forall p :: p in Chain(s'.objs, Entry(s', o)) ==> p in s.objs && p in s'.objs && s'.objs[p] == s.objs[p]
  {
    EntryExists(s', o);
    var h := Entry(s', o);
    forall p | p in Chain(s'.objs, h) ensures p in s.objs && p in s'.objs && s'.objs[p] == s.objs[p] {
      var i :| 0 <= i < |Chain(s'.objs, h)| && Chain(s'.objs, h)[i] == p;
      BelowIsCommitted(s', h, i);
      assert TxnInv(s, t);
      if Written(s, t, p) { WrittenIsOwn(s, t, p); }
    }
  }

  // ----- reading -----

  // `t` is walking the chain of `o`, suspended.
  ghost predicate Walking(s: State, t: nat, o: nat) {
    t in s.txns && (s.txns[t].pc == WalkStart(o) || (s.txns[t].pc.WalkAt? && s.txns[t].pc.o == o))
  }

  // The next step of the walk ends it with object `res`, or with nothing if `res` is 0.
  ghost predicate Returns(s: State, t: nat, o: nat, res: nat) {
    && t in s.txns
    && ((s.txns[t].pc == WalkStart(o) && Entry(s, o) == 0 && res == 0)
        || (&& s.txns[t].pc.WalkAt? && s.txns[t].pc.o == o && s.txns[t].pc.p in s.objs
            && var p := s.txns[t].pc.p; var v := s.objs[p];
               || (Test(s, t, v.clsn) == Shown && res == p)
               || (Test(s, t, v.clsn) == Hidden && v.next == 0 && res == 0)))
  }

  // What the suspended walk returns is what an atomic walk would return now.
  lemma ReturnsVisible(s: State, t: nat, o: nat, res: nat)
    requires Inv(s) && s.oneBlock && Returns(s, t, o, res)
    ensures t in s.txns && res == Visible(s, t, o)
  {
    assert TxnInv(s, t);
    var x := s.txns[t];
    assert View(s.objs, t, x.begin, 0) == 0;
    if x.pc.WalkAt? {
      assert ObjInv(s, x.pc.p) && WalkInv(s, t, o, x.pc.p);
      assert View(s.objs, t, x.begin, x.pc.p) == res;
    }
  }

  ghost predicate Commits(s: State, s': State, a: nat) {
    exists n, m :: Commit(s, s', a, n, m)
  }

  // No step of another transaction, and no read of its own, changes what a transaction sees,
  // except a commit if logs may spill.
  lemma VisibleStable(s: State, s': State, a: nat, t: nat, o: nat)
    requires Inv(s) && Step(s, s', a) && t in s.txns && (a != t || Moves(s, s', a) || exists n :: Draw(s, s', n))
    requires s.oneBlock || !Commits(s, s', a)
    ensures t in s'.txns && Visible(s', t, o) == Visible(s, t, o)
  {
    if Begin(s, s', a) || Moves(s, s', a) || (exists n :: Draw(s, s', n)) {
      StillVisible(s, s', a, t, o);
    } else {
      hide Visible, Begin, Moves, Inv;
      if m :| Replace(s, s', a, m) {
        InstallLinks(s, s', a, m);
        LinksVisible(s, s', a, s.txns[a].pc.o, m, t, o);
      } else if m :| Swap(s, s', a, m) {
        SwapVisible(s, s', a, m, t, o);
      } else if q, m, val :| Insert(s, s', a, q, m, val) {
        InsertLinks(s, s', a, q, m, val);
        LinksVisible(s, s', a, q, m, t, o);
      } else {
        EndVisible(s, s', a, t, o);
      }
    }
  }

  lemma StillVisible(s: State, s': State, a: nat, t: nat, o: nat)
    requires (Begin(s, s', a) || Moves(s, s', a) || exists n :: Draw(s, s', n)) && t in s.txns
    ensures t in s'.txns && Visible(s', t, o) == Visible(s, t, o)
  {
    hide Moves, Visible;
    if Moves(s, s', a) { MovesVisible(s, s', a, t, o); } else { QuietVisible(s, s', a, t, o); }
  }

  lemma MovesVisible(s: State, s': State, a: nat, t: nat, o: nat)
    requires Moves(s, s', a) && t in s.txns
    ensures t in s'.txns && Visible(s', t, o) == Visible(s, t, o)
  {
  }

  lemma QuietVisible(s: State, s': State, a: nat, t: nat, o: nat)
    requires (Begin(s, s', a) || exists n :: Draw(s, s', n)) && t in s.txns
    ensures t in s'.txns && Visible(s', t, o) == Visible(s, t, o)
  {
  }

  lemma SwapVisible(s: State, s': State, a: nat, m: nat, t: nat, o: nat)
    requires Inv(s) && Swap(s, s', a, m) && t in s.txns && a != t
    ensures t in s'.txns && Visible(s', t, o) == Visible(s, t, o)
  {
    if Entry(s, s.txns[a].pc.o) == s.txns[a].pc.head {
      InstallLinks(s, s', a, m);
      LinksVisible(s, s', a, s.txns[a].pc.o, m, t, o);
    }
  }

  // A walker's own steps are reads.
  lemma WalkerMoves(s: State, s': State, t: nat, o: nat)
    requires Walking(s, t, o) && Step(s, s', t)
    ensures Moves(s, s', t) || exists n :: Draw(s, s', n)
  {
  }

  /**
   If logs fit one block, a version-chain walk that suspends at every hop, while any other
   transactions install, commit and abort, returns exactly what an atomic walk would have returned
   at any moment since it began.
   */
  lemma {:induction false} SuspendedWalk(r: seq<State>, j: nat, k: nat, t: nat, o: nat, res: nat)
    requires Run(r) && r[0].oneBlock && j <= k < |r|
    requires forall i :: j <= i <= k ==> Walking(r[i], t, o)
    requires Returns(r[k], t, o, res)
    ensures t in r[j].txns && Visible(r[j], t, o) == res
    decreases k - j
  {
    hide Inv, Visible, Returns, Step, Walking;
    if j == k {
      PrefixInvariant(r, k);
      ReturnsVisible(r[k], t, o, res);
    } else {
      SuspendedWalk(r, j + 1, k, t, o, res);
      PrefixInvariant(r, j);
      assert Next(r[j], r[j + 1]);
      var a :| Step(r[j], r[j + 1], a);
      WalkStep(r[j], r[j + 1], a, t, o);
    }
  }

  lemma WalkStep(s: State, s': State, a: nat, t: nat, o: nat)
    requires Inv(s) && s.oneBlock && Step(s, s', a) && Walking(s, t, o)
    ensures t in s.txns && t in s'.txns && Visible(s', t, o) == Visible(s, t, o)
  {
    hide Inv, Visible, Step;
    if a == t { WalkerMoves(s, s', t, o); }
    VisibleStable(s, s', a, t, o);
  }

  lemma OwnWriteElsewhere(s: State, s': State, t: nat, q: nat, m: nat, o: nat)
    requires Inv(s) && Links(s, s', t, q, m) && q != o
    ensures Visible(s', t, o) == Visible(s, t, o)
  {
    InvClosed(s);
    EntryExists(s, o);
    ViewSame(s.objs, s'.objs, t, s.txns[t].begin, Entry(s, o));
  }

  // A running transaction's step that leaves `o` alone does not change its view of `o`.
  lemma OwnStepStable(s: State, s': State, t: nat, o: nat)
    requires Inv(s) && Step(s, s', t) && t in s.txns && t in s'.txns
    requires s'.txns[t].state == Active && !Owns(s'.txns[t], o)
    ensures Visible(s', t, o) == Visible(s, t, o)
  {
    if Begin(s, s', t) || Moves(s, s', t) || (exists n :: Draw(s, s', n)) {
      StillVisible(s, s', t, t, o);
    } else {
      hide Visible, Begin, Moves, Inv;
      if m :| Replace(s, s', t, m) {
        InstallLinks(s, s', t, m);
        OwnWriteElsewhere(s, s', t, s.txns[t].pc.o, m, o);
      } else if q, m, val :| Insert(s, s', t, q, m, val) {
        InsertLinks(s, s', t, q, m, val);
        OwnWriteElsewhere(s, s', t, q, m, o);
      } else {
        var m :| Swap(s, s', t, m);
        OwnSwapStable(s, s', t, m, o);
      }
    }
  }

  lemma OwnSwapStable(s: State, s': State, t: nat, m: nat, o: nat)
    requires Inv(s) && Swap(s, s', t, m) && !Owns(s'.txns[t], o)
    ensures Visible(s', t, o) == Visible(s, t, o)
  {
    if Entry(s, s.txns[t].pc.o) == s.txns[t].pc.head {
      InstallLinks(s, s', t, m);
      OwnWriteElsewhere(s, s', t, s.txns[t].pc.o, m, o);
    }
  }

  /**
   If logs fit one block, snapshots do not move: as long as a transaction runs and has not written
   a record itself, it sees the same version of that record, from its begin on.
   */
  lemma {:induction false} SnapshotStable(r: seq<State>, j: nat, k: nat, t: nat, o: nat)
    requires Run(r) && r[0].oneBlock && j <= k < |r|
    requires forall i :: j <= i <= k ==> t in r[i].txns && r[i].txns[t].state == Active && !Owns(r[i].txns[t], o)
    ensures Visible(r[k], t, o) == Visible(r[j], t, o)
    decreases k - j
  {
    hide Inv, Visible, Step, Owns;
    if j < k {
      SnapshotStable(r, j + 1, k, t, o);
      PrefixInvariant(r, j);
      assert Next(r[j], r[j + 1]);
      var a :| Step(r[j], r[j + 1], a);
      if a == t { OwnStepStable(r[j], r[j + 1], t, o); } else { VisibleStable(r[j], r[j + 1], a, t, o); }
    }
  }

  // ----- what is seen -----

  // The first object of a chain that belongs to the snapshot.
  lemma {:induction false} ViewIsFirst(s: State, t: nat, begin: nat, p: nat)
    requires Inv(s) && (p == 0 || p in s.objs)
    ensures var v := View(s.objs, t, begin, p); var c := Chain(s.objs, p);
            && (v != 0 ==> v in c && v in s.objs && Sees(t, begin, s.objs[v].clsn))
            && (forall q :: q in c && q in s.objs && Sees(t, begin, s.objs[q].clsn) ==>
                  v != 0 && (q == v || q in Chain(s.objs, s.objs[v].next)))
  {
    if p != 0 {
      assert ObjInv(s, p);
      ViewIsFirst(s, t, begin, s.objs[p].next);
    }
  }

  // The version was committed before the snapshot.
  ghost predicate Earlier(s: State, q: nat, begin: nat) {
    q in s.objs && s.objs[q].clsn.Lsn? && s.objs[q].writer in s.txns && s.txns[s.objs[q].writer].end < begin
  }

  /**
   What a transaction sees of a record: its own write if it has one, else the committed version
   with the largest stamp not above its snapshot, else nothing; committed versions that are no
   longer on the chain do not exist.
   */
  lemma VisibleIsNewest(r: seq<State>, t: nat, o: nat)
    requires Run(r) && t in r[|r| - 1].txns && r[|r| - 1].txns[t].state == Active
    ensures var s := r[|r| - 1]; var x := s.txns[t]; var v := Visible(s, t, o);
            if Owns(x, o) then v != 0 && v == Entry(s, o) && v in s.objs && s.objs[v].clsn == Xid(t)
            else
              && (v != 0 ==> v in s.objs && s.objs[v].oid == o && s.objs[v].clsn.Lsn? && s.objs[v].clsn.n <= x.begin)
              && forall q :: q in s.objs && s.objs[q].oid == o && s.objs[q].clsn.Lsn? && s.objs[q].clsn.n <= x.begin ==>
                   v != 0 && s.objs[q].clsn.n <= s.objs[v].clsn.n
  {
    var s := r[|r| - 1];
    var x := s.txns[t];
    RunInvariant(r);
    assert TxnInv(s, t);
    EntryExists(s, o);
    var v := Visible(s, t, o);
    ViewIsFirst(s, t, x.begin, Entry(s, o));
    if !Owns(x, o) {
      if v != 0 { SeenIsCommitted(s, t, o, v); }
      forall q | q in s.objs && s.objs[q].oid == o && s.objs[q].clsn.Lsn? && s.objs[q].clsn.n <= x.begin
        ensures v != 0 && s.objs[q].clsn.n <= s.objs[v].clsn.n
      {
        assert Kept(s, q);
        if q != v {
          BelowIsOlder(s, v, q);
          assert ObjInv(s, v);
        }
      }
    }
  }

  // If logs fit one block, a stamp lies within a snapshot exactly if the commit came before it.
  lemma StampedEarlier(s: State, q: nat, t: nat)
    requires Inv(s) && s.oneBlock && q in s.objs && s.objs[q].clsn.Lsn? && t in s.txns
    ensures s.objs[q].clsn.n <= s.txns[t].begin <==> Earlier(s, q, s.txns[t].begin)
  {
    assert ObjInv(s, q) && Tight(s, q);
  }

  /**
   If logs fit one block, a transaction that has not written a record sees the newest version of it
   that was committed before its snapshot.
   */
  lemma SeesCommitted(r: seq<State>, t: nat, o: nat)
    requires Run(r) && r[0].oneBlock
    requires t in r[|r| - 1].txns && r[|r| - 1].txns[t].state == Active && !Owns(r[|r| - 1].txns[t], o)
    ensures SeesNewest(r[|r| - 1], t, o)
  {
    var s := r[|r| - 1];
    var b, v := s.txns[t].begin, Visible(s, t, o);
    VisibleIsNewest(r, t, o);
    RunInvariant(r);
    hide Run, Visible, Inv;
    if v != 0 { StampedEarlier(s, v, t); }
    forall q | Earlier(s, q, b) && s.objs[q].oid == o && q != v
      ensures v != 0 && s.txns[s.objs[q].writer].end < s.txns[s.objs[v].writer].end
    {
      StampedEarlier(s, q, t);
      FirstOfTwo(r, v, q);
    }
  }

  lemma FirstOfTwo(r: seq<State>, p: nat, q: nat)
    requires Run(r) && r[0].oneBlock
    requires var s := r[|r| - 1];
             && p in s.objs && q in s.objs && s.objs[p].oid == s.objs[q].oid
             && s.objs[p].clsn.Lsn? && s.objs[q].clsn.Lsn? && p != q && s.objs[q].clsn.n <= s.objs[p].clsn.n
    ensures var s := r[|r| - 1];
            && s.objs[p].writer in s.txns && s.objs[q].writer in s.txns
            && s.txns[s.objs[q].writer].end < s.txns[s.objs[p].writer].end
  {
    FirstUpdaterWins(r, p, q);
    RunInvariant(r);
    assert ObjInv(r[|r| - 1], p);
  }

  // What `t` sees of `o` was committed before its snapshot, and after every other such version.
  ghost predicate SeesNewest(s: State, t: nat, o: nat)
    requires t in s.txns
  {
    var b, v := s.txns[t].begin, Visible(s, t, o);
    && (v != 0 ==> Earlier(s, v, b) && s.objs[v].oid == o)
    && forall q :: Earlier(s, q, b) && s.objs[q].oid == o && q != v ==>
         v != 0 && s.txns[s.objs[q].writer].end < s.txns[s.objs[v].writer].end
  }

  lemma SeenIsCommitted(s: State, t: nat, o: nat, v: nat)
    requires Inv(s) && t in s.txns && s.txns[t].state == Active && !Owns(s.txns[t], o)
    requires v in Chain(s.objs, Entry(s, o)) && v in s.objs && Sees(t, s.txns[t].begin, s.objs[v].clsn)
    ensures s.objs[v].oid == o && s.objs[v].clsn.Lsn?
  {
    EntryExists(s, o);
    var h := Entry(s, o);
    assert EntryInv(s, o);
    var i :| 0 <= i < |Chain(s.objs, h)| && Chain(s.objs, h)[i] == v;
    BelowIsCommitted(s, h, i);
  }

  // Only its begin brings a transaction in.
  lemma NewBegins(s: State, s': State, a: nat, t: nat)
    requires Step(s, s', a) && t !in s.txns && t in s'.txns
    ensures Begin(s, s', t)
  {
    hide Restamp, Test, PlanUpdate;
  }

  /** What a transaction sees when it begins is the last committed version of every record. */
  lemma BeginsUpToDate(r: seq<State>, t: nat, o: nat)
    requires Run(r) && |r| > 1 && t !in r[|r| - 2].txns && t in r[|r| - 1].txns
    ensures var s := r[|r| - 1]; var v := Visible(s, t, o);
            && (v != 0 ==> v in s.objs && s.objs[v].oid == o && s.objs[v].clsn.Lsn?)
            && forall q :: q in s.objs && s.objs[q].oid == o && s.objs[q].clsn.Lsn? ==>
                 v != 0 && s.objs[q].clsn.n <= s.objs[v].clsn.n
  {
    var k := |r| - 1;
    var s := r[k];
    assert Next(r[k - 1], s);
    RunInvariant(r);
    hide Inv, Step;
    var a :| Step(r[k - 1], s, a);
    NewBegins(r[k - 1], s, a, t);
    VisibleIsNewest(r, t, o);
    hide Run, Visible;
    forall q | q in s.objs && s.objs[q].clsn.Lsn? ensures s.objs[q].clsn.n <= s.txns[t].begin {
      StampBelowClock(s, q);
    }
  }

  lemma StampBelowClock(s: State, q: nat)
    requires Inv(s) && q in s.objs && s.objs[q].clsn.Lsn?
    ensures s.objs[q].clsn.n <= s.clock
  {
    assert ObjInv(s, q);
  }
}
