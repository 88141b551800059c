/**
 Phantom protection: the index is a set of nodes, each with its keys and a version counter that
 every insert raises; a transaction remembers the version of each node it observed, follows its
 own inserts, and compares at commit.  Searching a node and recording it are two steps, and so
 are inserting into the tree and recording that, with any other transactions in between.
 */
module Phantom {
  // History: transaction `who` put `key` into the node and raised its version.
  datatype Change = Change(who: nat, key: nat, low: nat, high: nat)

  datatype Node = Node(ver: nat, keys: set<nat>, hist: seq<Change>)

  // History: what a transaction saw of a node when it first observed it.
  datatype Seen = Seen(ver: nat, keys: set<nat>)

  datatype Pending = Nothing | Looking(n: nat, v: Seen) | Inserting(n: nat, c: Change)

  datatype Txn = Txn(absent: map<nat, nat>, first: map<nat, Seen>, pend: Pending, live: bool)

  datatype State = State(nodes: map<nat, Node>, txns: map<nat, Txn>)

  // ----- the bookkeeping -----

  datatype Result = Fail | Done(absent: map<nat, nat>)

  // A node seen before must still have the version on record.
  function NodeRead(absent: map<nat, nat>, n: nat, version: nat): Result {
    if n !in absent then Done(absent[n := version]) else if absent[n] != version then Fail else Done(absent)
  }

  // An own insert into an observed node moves the version on record, if nobody came in between.
  function InsertDone(absent: map<nat, nat>, n: nat, oldVersion: nat, newVersion: nat): Result {
    if n !in absent then Done(absent) else if absent[n] != oldVersion then Fail else Done(absent[n := newVersion])
  }

  // The set as a transaction keeps it, updated in place.
  class AbsentSet {
    var absent: map<nat, nat>

    method DoNodeRead(n: nat, version: nat) returns (ok: bool)
      modifies this
      ensures ok <==> NodeRead(old(absent), n, version).Done?
      ensures absent == if ok then NodeRead(old(absent), n, version).absent else old(absent)
    {
      if n !in absent {
        absent := absent[n := version];
      } else if absent[n] != version {
        return false;
      }
      ok := true;
    }

    method InsertIfAbsent(n: nat, oldVersion: nat, newVersion: nat) returns (ok: bool)
      modifies this
      ensures ok <==> InsertDone(old(absent), n, oldVersion, newVersion).Done?
      ensures absent == if ok then InsertDone(old(absent), n, oldVersion, newVersion).absent else old(absent)
    {
      if absent != map[] {
        if n in absent {
          if absent[n] != oldVersion {
            return false;
          }
          absent := absent[n := newVersion];
        }
      }
      ok := true;
    }

    // Compare every node on record with its version now.
    method CheckPhantom(version: map<nat, nat>) returns (ok: bool)
      requires absent.Keys <= version.Keys
      ensures ok <==> forall n :: n in absent ==> version[n] == absent[n]
    {
      var rest := absent.Keys;
      while rest != {}
        invariant rest <= absent.Keys
        invariant forall n :: n in absent && n !in rest ==> version[n] == absent[n]
        decreases rest
      {
        var n :| n in rest;
        rest := rest - {n};
        if version[n] != absent[n] {
          return false;
        }
      }
      ok := true;
    }
  }

  // ----- steps -----

  ghost predicate Init(s: State) {
    s.txns == map[] && forall n :: n in s.nodes ==> s.nodes[n].hist == []
  }

  ghost predicate Begin(s: State, s': State, t: nat) {
    t !in s.txns && s' == s.(txns := s.txns[t := Txn(map[], map[], Nothing, true)])
  }

  // A search reads the node together with its version.
  ghost predicate Observe(s: State, s': State, t: nat, n: nat) {
    && t in s.txns && s.txns[t].live && s.txns[t].pend.Nothing? && n in s.nodes
    && s' == s.(txns := s.txns[t := s.txns[t].(pend := Looking(n, Seen(s.nodes[n].ver, s.nodes[n].keys)))])
  }

  ghost predicate RecordRead(s: State, s': State, t: nat) {
    && t in s.txns && s.txns[t].live && s.txns[t].pend.Looking?
    && var x := s.txns[t]; var n := x.pend.n; var r := NodeRead(x.absent, n, x.pend.v.ver);
       s' == s.(txns := s.txns[t :=
         if r.Fail? then x.(live := false, pend := Nothing)
         else Txn(r.absent, if n in x.first then x.first else x.first[n := x.pend.v], Nothing, true)])
  }

  ghost predicate TreeInsert(s: State, s': State, t: nat, n: nat, key: nat, high: nat) {
    && t in s.txns && s.txns[t].live && s.txns[t].pend.Nothing? && n in s.nodes && high > s.nodes[n].ver
    && var c := Change(t, key, s.nodes[n].ver, high);
       s' == State(s.nodes[n := Node(high, s.nodes[n].keys + {key}, s.nodes[n].hist + [c])],
                   s.txns[t := s.txns[t].(pend := Inserting(n, c))])
  }

  ghost predicate RecordInsert(s: State, s': State, t: nat) {
    && t in s.txns && s.txns[t].live && s.txns[t].pend.Inserting?
    && var x := s.txns[t]; var r := InsertDone(x.absent, x.pend.n, x.pend.c.low, x.pend.c.high);
       s' == s.(txns := s.txns[t :=
         if r.Fail? then x.(live := false, pend := Nothing) else x.(absent := r.absent, pend := Nothing)])
  }

  ghost predicate Step(s: State, s': State, t: nat) {
    || Begin(s, s', t) || (exists n :: Observe(s, s', t, n)) || RecordRead(s, s', t)
    || (exists n, key, high :: TreeInsert(s, s', t, n, key, high)) || RecordInsert(s, s', t)
  }

  ghost predicate Next(s: State, s': State) {
    exists t :: Step(s, s', t)
  }

  ghost predicate Run(r: seq<State>) {
    |r| > 0 && Init(r[0]) && forall k :: 0 < k < |r| ==> Next(r[k - 1], r[k])
  }

  // ----- the invariant -----

  // Versions rise along the history of a node without a gap, up to its version now.
  ghost predicate NodeInv(x: Node) {
    && (forall c :: c in x.hist ==> c.low < c.high <= x.ver)
    && (forall i, j :: 0 <= i < j < |x.hist| ==> x.hist[i].high <= x.hist[j].low)
    && (forall i :: 0 < i < |x.hist| ==> x.hist[i - 1].high == x.hist[i].low)
    && (x.hist != [] ==> x.hist[|x.hist| - 1].high == x.ver)
  }

  // Version `v` was the node's version at some time: every change lies before or after it.
  ghost predicate Boundary(x: Node, v: nat) {
    && v <= x.ver && (if x.hist == [] then v == x.ver else x.hist[0].low <= v)
    && forall c :: c in x.hist ==> c.high <= v || v <= c.low
  }

  // The keys that have come in since `v` was seen come from changes after it.
  ghost predicate GrownFrom(x: Node, v: Seen) {
    && Boundary(x, v.ver) && v.keys <= x.keys
    && forall k :: k in x.keys && k !in v.keys ==> exists c :: c in x.hist && c.key == k && v.ver <= c.low
  }

  // Every change that `t` made since it first observed the node is on record, but for one that it
  // has not recorded yet.
  ghost predicate OwnRecorded(x: Node, t: nat, v: Seen, on: nat, pend: Pending, n: nat) {
    forall c :: c in x.hist && c.who == t && v.ver <= c.low ==> c.high <= on || pend == Inserting(n, c)
  }

  // Between the first observation and the version on record only `t` itself changed the node.
  ghost predicate Followed(x: Node, t: nat, v: Seen, on: nat) {
    && GrownFrom(x, v) && Boundary(x, on) && v.ver <= on
    && forall c :: c in x.hist && v.ver <= c.low && c.high <= on ==> c.who == t
  }

  // A node on record.
  ghost predicate RecordInv(s: State, t: nat, n: nat)
    requires t in s.txns
  {
    var x := s.txns[t];
    n in x.absent && n in x.first ==>
      && n in s.nodes && Followed(s.nodes[n], t, x.first[n], x.absent[n])
      && (x.live ==> OwnRecorded(s.nodes[n], t, x.first[n], x.absent[n], x.pend, n))
  }

  // A node that was searched or changed and not yet recorded.
  ghost predicate PendInv(s: State, t: nat)
    requires t in s.txns
  {
    var x := s.txns[t];
    match x.pend
    case Nothing => true
    case Looking(n, v) =>
      && n in s.nodes && GrownFrom(s.nodes[n], v) && (n in x.absent ==> x.absent[n] <= v.ver)
      && forall c :: c in s.nodes[n].hist && c.who == t ==> c.high <= v.ver
    case Inserting(n, c) =>
      n in s.nodes && c in s.nodes[n].hist && c.who == t && (n in x.absent ==> x.absent[n] <= c.low)
  }

  ghost predicate TxnInv(s: State, t: nat)
    requires t in s.txns
  {
    && s.txns[t].first.Keys == s.txns[t].absent.Keys && (forall n :: RecordInv(s, t, n)) && PendInv(s, t)
  }

  ghost predicate Inv(s: State) {
    && (forall n :: n in s.nodes ==> NodeInv(s.nodes[n]))
    && (forall t :: t in s.txns ==> TxnInv(s, t))
  }

  // ----- every step keeps it -----

  // One more change at the end of a history.
  lemma Appended(x: Node, c: Change)
    requires NodeInv(x) && c.low == x.ver < c.high
    ensures NodeInv(Node(c.high, x.keys + {c.key}, x.hist + [c]))
  {
  }

  lemma StillGrown(x: Node, c: Change, v: Seen)
    requires GrownFrom(x, v) && c.low == x.ver < c.high
    ensures GrownFrom(Node(c.high, x.keys + {c.key}, x.hist + [c]), v)
  {
    var x' := Node(c.high, x.keys + {c.key}, x.hist + [c]);
    forall k | k in x'.keys && k !in v.keys ensures exists d :: d in x'.hist && d.key == k && v.ver <= d.low {
      if k in x.keys {
        var d :| d in x.hist && d.key == k && v.ver <= d.low;
        assert d in x'.hist;
      } else {
        assert c in x'.hist;
      }
    }
  }

  lemma StillFollowed(x: Node, c: Change, t: nat, v: Seen, on: nat)
    requires Followed(x, t, v, on) && c.low == x.ver < c.high
    ensures Followed(Node(c.high, x.keys + {c.key}, x.hist + [c]), t, v, on)
  {
    StillGrown(x, c, v);
  }

  lemma InsertKeepsRecord(s: State, s': State, t: nat, n: nat, key: nat, high: nat, u: nat, m: nat)
    requires TreeInsert(s, s', t, n, key, high) && u in s.txns && RecordInv(s, u, m)
    requires u == t ==> s.txns[t].pend.Nothing?
    ensures RecordInv(s', u, m)
  {
    var x := s.txns[u];
    var c := Change(t, key, s.nodes[n].ver, high);
    if m == n && m in x.absent && m in x.first {
      StillFollowed(s.nodes[n], c, u, x.first[n], x.absent[n]);
      hide Followed;
    }
  }

  lemma InsertKeepsPend(s: State, s': State, t: nat, n: nat, key: nat, high: nat, u: nat)
    requires TreeInsert(s, s', t, n, key, high) && u in s.txns && PendInv(s, u)
    requires forall m :: RecordInv(s, u, m)
    requires s.txns[u].first.Keys == s.txns[u].absent.Keys
    ensures PendInv(s', u)
  {
    var x := s.txns[u];
    var c := Change(t, key, s.nodes[n].ver, high);
    assert c in s'.nodes[n].hist;
    if u == t {
      assert RecordInv(s, t, n);
    } else if x.pend.Looking? && x.pend.n == n {
      StillGrown(s.nodes[n], c, x.pend.v);
      hide GrownFrom;
    }
  }

  lemma InsertKeepsTxn(s: State, s': State, t: nat, n: nat, key: nat, high: nat, u: nat)
    requires TreeInsert(s, s', t, n, key, high) && u in s.txns && TxnInv(s, u)
    ensures TxnInv(s', u)
  {
    hide RecordInv, PendInv;
    InsertKeepsPend(s, s', t, n, key, high, u);
    forall m ensures RecordInv(s', u, m) { InsertKeepsRecord(s, s', t, n, key, high, u, m); }
  }

  lemma RecordReadKeeps(s: State, s': State, t: nat)
    requires Inv(s) && RecordRead(s, s', t)
    ensures TxnInv(s', t)
  {
    var x := s.txns[t];
    assert TxnInv(s, t);
    hide PendInv, NodeInv;
    forall m ensures RecordInv(s', t, m) {
      assert RecordInv(s, t, m);
      ReadRecord(s, s', t, m);
    }
    hide RecordInv;
    NothingPending(s', t);
  }

  lemma NothingPending(s: State, t: nat)
    requires t in s.txns && s.txns[t].pend.Nothing?
    ensures PendInv(s, t)
  {
  }

  lemma ReadRecord(s: State, s': State, t: nat, m: nat)
    requires RecordRead(s, s', t) && RecordInv(s, t, m) && PendInv(s, t)
    requires s.txns[t].first.Keys == s.txns[t].absent.Keys && (m in s.nodes ==> NodeInv(s.nodes[m]))
    ensures RecordInv(s', t, m)
  {
    hide GrownFrom;
    var x := s.txns[t];
    if x.pend.n == m && m !in x.absent { FirstFollowed(s.nodes[m], t, x.pend.v); }
  }

  lemma FirstFollowed(x: Node, t: nat, v: Seen)
    requires GrownFrom(x, v) && forall c :: c in x.hist ==> c.low < c.high
    ensures Followed(x, t, v, v.ver)
  {
  }

  // One's own change moves the record from one boundary to the next.
  lemma MovesOn(x: Node, t: nat, v: Seen, c: Change)
    requires NodeInv(x) && c in x.hist && c.who == t && Followed(x, t, v, c.low)
    ensures Followed(x, t, v, c.high)
  {
    var i :| 0 <= i < |x.hist| && x.hist[i] == c;
    forall d | d in x.hist ensures d.high <= c.low || d == c || c.high <= d.low {
      var j :| 0 <= j < |x.hist| && x.hist[j] == d;
    }
  }

  lemma InsertRecord(s: State, s': State, t: nat, m: nat)
    requires RecordInsert(s, s', t) && RecordInv(s, t, m) && PendInv(s, t) && s.txns[t].pend.n in s.nodes
    requires NodeInv(s.nodes[s.txns[t].pend.n])
    ensures RecordInv(s', t, m)
  {
    var x := s.txns[t];
    var n, c := x.pend.n, x.pend.c;
    if m == n && n in x.absent && n in x.first && x.absent[n] == c.low { MovesOn(s.nodes[n], t, x.first[n], c); }
    hide Followed, NodeInv;
  }

  lemma RecordInsertKeeps(s: State, s': State, t: nat)
    requires Inv(s) && RecordInsert(s, s', t)
    ensures TxnInv(s', t)
  {
    assert TxnInv(s, t);
    assert PendInv(s, t);
    assert NodeInv(s.nodes[s.txns[t].pend.n]);
    hide Inv, NodeInv, RecordInv;
    forall m ensures RecordInv(s', t, m) { InsertRecord(s, s', t, m); }
  }

  lemma StepKeeps(s: State, s': State, t: nat)
    requires Inv(s) && Step(s, s', t)
    ensures Inv(s')
  {
    if n, key, high :| TreeInsert(s, s', t, n, key, high) {
      TreeInsertKeeps(s, s', t, n, key, high);
    } else {
      hide TxnInv, NodeInv;
      if RecordRead(s, s', t) {
        RecordReadKeeps(s, s', t);
      } else if RecordInsert(s, s', t) {
        RecordInsertKeeps(s, s', t);
      } else if n :| Observe(s, s', t, n) {
        ObserveKeeps(s, s', t, n);
      } else {
        BeginKeeps(s, s', t);
      }
      ContextKeeps(s, s', t);
    }
  }

  lemma TreeInsertKeeps(s: State, s': State, t: nat, n: nat, key: nat, high: nat)
    requires Inv(s) && TreeInsert(s, s', t, n, key, high)
    ensures Inv(s')
  {
    hide TxnInv;
    Appended(s.nodes[n], Change(t, key, s.nodes[n].ver, high));
    hide NodeInv;
    forall u | u in s'.txns ensures TxnInv(s', u) {
      assert TxnInv(s, u);
      InsertKeepsTxn(s, s', t, n, key, high, u);
    }
  }

  lemma BeginKeeps(s: State, s': State, t: nat)
    requires Begin(s, s', t)
    ensures TxnInv(s', t)
  {
  }

  // Nothing but the actor's context changed.
  lemma ContextKeeps(s: State, s': State, t: nat)
    requires Inv(s) && s'.nodes == s.nodes && t in s'.txns && s'.txns == s.txns[t := s'.txns[t]] && TxnInv(s', t)
    ensures Inv(s')
  {
    hide TxnInv, NodeInv;
    forall u | u in s'.txns && u != t ensures TxnInv(s', u) {
      assert TxnInv(s, u);
      BystanderKeeps(s, s', u);
    }
  }

  lemma BystanderKeeps(s: State, s': State, u: nat)
    requires u in s.txns && u in s'.txns && TxnInv(s, u) && s'.nodes == s.nodes && s'.txns[u] == s.txns[u]
    ensures TxnInv(s', u)
  {
    hide Followed, GrownFrom, OwnRecorded;
    forall m ensures RecordInv(s', u, m) { assert RecordInv(s, u, m); }
  }

  lemma ObserveKeeps(s: State, s': State, t: nat, n: nat)
    requires Inv(s) && Observe(s, s', t, n)
    ensures TxnInv(s', t)
  {
    assert TxnInv(s, t);
    assert NodeInv(s.nodes[n]);
    hide Inv;
    forall m ensures RecordInv(s', t, m) { assert RecordInv(s, t, m); }
    assert RecordInv(s, t, n);
    hide RecordInv, OwnRecorded;
    NowGrown(s.nodes[n]);
  }

  lemma NowGrown(x: Node)
    requires NodeInv(x)
    ensures GrownFrom(x, Seen(x.ver, x.keys))
  {
  }

  lemma {:induction false} RunInvariant(r: seq<State>)
    requires Run(r)
    ensures Inv(r[|r| - 1])
  {
    if |r| > 1 {
      hide Inv, Step;
      var k := |r| - 1;
      RunInvariant(r[..k]);
      assert Next(r[k - 1], r[k]);
      var t :| Step(r[k - 1], r[k], t);
      StepKeeps(r[k - 1], r[k], t);
    }
  }

  /**
   If a node on record still has the version on record, then since the transaction first observed
   it only that transaction changed it, and every key that has come in since is one of its own.
   */
  lemma NoPhantom(r: seq<State>, t: nat, n: nat)
    requires Run(r)
    requires var s := r[|r| - 1];
             && t in s.txns && s.txns[t].live && s.txns[t].pend.Nothing?
             && n in s.txns[t].absent && n in s.nodes && s.nodes[n].ver == s.txns[t].absent[n]
    ensures var s := r[|r| - 1]; var x := s.nodes[n];
            && n in s.txns[t].first && s.txns[t].first[n].keys <= x.keys
            && (forall c :: c in x.hist && s.txns[t].first[n].ver <= c.low ==> c.who == t)
            && (forall k :: k in x.keys && k !in s.txns[t].first[n].keys ==>
                  exists c :: c in x.hist && c.key == k && c.who == t)
  {
    var s := r[|r| - 1];
    RunInvariant(r);
    assert TxnInv(s, t) && NodeInv(s.nodes[n]);
    assert RecordInv(s, t, n);
    var x, v := s.nodes[n], s.txns[t].first[n];
    assert Followed(x, t, v, x.ver);
    forall k | k in x.keys && k !in v.keys ensures exists c :: c in x.hist && c.key == k && c.who == t {
      var c :| c in x.hist && c.key == k && v.ver <= c.low;
    }
  }

  // ----- when it fails -----

  // Another transaction changed the node after `v` was seen, and before version `b`.
  ghost predicate Disturbed(x: Node, t: nat, v: Seen, b: nat) {
    exists c :: c in x.hist && c.who != t && v.ver <= c.low && c.high <= b
  }

  // Between two versions that the node has had there is a change.
  lemma {:induction false} Between(x: Node, a: nat, b: nat, i: nat) returns (c: Change)
    requires NodeInv(x) && Boundary(x, a) && Boundary(x, b) && a < b && i < |x.hist| && x.hist[i].low <= a
    ensures c in x.hist && a <= c.low && c.high <= b
    decreases |x.hist| - i
  {
    assert x.hist[i] in x.hist;
    if x.hist[i].high <= a {
      c := Between(x, a, b, i + 1);
    } else {
      c := x.hist[i];
    }
  }

  // The version on record is the one before `b` exactly if nobody else came in.
  lemma DisturbedExactly(x: Node, t: nat, v: Seen, on: nat, pend: Pending, n: nat, b: nat)
    requires NodeInv(x) && Followed(x, t, v, on) && OwnRecorded(x, t, v, on, pend, n) && Boundary(x, b) && on <= b
    requires pend.Inserting? && pend.n == n ==> b <= pend.c.low
    ensures on != b <==> Disturbed(x, t, v, b)
  {
    if on != b {
      var c := Between(x, on, b, 0);
      assert c.low < c.high;
    }
  }

  // What the invariant says about a node on record.
  lemma OnRecord(r: seq<State>, t: nat, n: nat)
    requires Run(r)
    requires var s := r[|r| - 1]; t in s.txns && s.txns[t].live && n in s.txns[t].absent
    ensures var s := r[|r| - 1]; var x := s.txns[t];
            && n in s.nodes && n in x.first && NodeInv(s.nodes[n]) && Followed(s.nodes[n], t, x.first[n], x.absent[n])
            && OwnRecorded(s.nodes[n], t, x.first[n], x.absent[n], x.pend, n) && PendInv(s, t)
  {
    var s := r[|r| - 1];
    RunInvariant(r);
    hide Run;
    assert TxnInv(s, t);
    assert RecordInv(s, t, n);
    assert NodeInv(s.nodes[n]);
  }

  /**
   Observing a node again fails exactly if another transaction has changed it between the first
   observation and this one.
   */
  lemma ReadFailsExactly(r: seq<State>, t: nat)
    requires Run(r)
    requires var s := r[|r| - 1];
             && t in s.txns && s.txns[t].live && s.txns[t].pend.Looking?
             && s.txns[t].pend.n in s.nodes && s.txns[t].pend.n in s.txns[t].first
    ensures var s := r[|r| - 1]; var x := s.txns[t]; var n := x.pend.n;
            NodeRead(x.absent, n, x.pend.v.ver).Fail? <==> Disturbed(s.nodes[n], t, x.first[n], x.pend.v.ver)
  {
    var s := r[|r| - 1];
    var x := s.txns[t];
    var n := x.pend.n;
    RunInvariant(r);
    assert TxnInv(s, t);
    OnRecord(r, t, n);
    hide Run, Inv, Followed, OwnRecorded, NodeInv, Disturbed;
    DisturbedExactly(s.nodes[n], t, x.first[n], x.absent[n], x.pend, n, x.pend.v.ver);
  }

  /**
   Recording an own insert into an observed node fails exactly if another transaction has changed
   the node between the first observation and the insert.
   */
  lemma InsertFailsExactly(r: seq<State>, t: nat)
    requires Run(r)
    requires var s := r[|r| - 1];
             && t in s.txns && s.txns[t].live && s.txns[t].pend.Inserting?
             && s.txns[t].pend.n in s.nodes && s.txns[t].pend.n in s.txns[t].first
    ensures var s := r[|r| - 1]; var x := s.txns[t]; var n, c := x.pend.n, x.pend.c;
            InsertDone(x.absent, n, c.low, c.high).Fail? <==> Disturbed(s.nodes[n], t, x.first[n], c.low)
  {
    var s := r[|r| - 1];
    var x := s.txns[t];
    var n, c := x.pend.n, x.pend.c;
    RunInvariant(r);
    assert TxnInv(s, t);
    OnRecord(r, t, n);
    hide Run, Inv, Followed, OwnRecorded, Disturbed;
    LowIsBoundary(s.nodes[n], c);
    hide NodeInv;
    DisturbedExactly(s.nodes[n], t, x.first[n], x.absent[n], x.pend, n, c.low);
  }

  lemma LowIsBoundary(x: Node, c: Change)
    requires NodeInv(x) && c in x.hist
    ensures Boundary(x, c.low)
  {
    var i :| 0 <= i < |x.hist| && x.hist[i] == c;
    forall d | d in x.hist ensures d.high <= c.low || c.low <= d.low {
      var j :| 0 <= j < |x.hist| && x.hist[j] == d;
    }
    if i > 0 { assert x.hist[0].high <= x.hist[i].low && x.hist[0] in x.hist; }
  }

  /**
   The comparison at commit passes exactly if no other transaction has changed any node since it
   was first observed.
   */
  lemma CheckPassesExactly(r: seq<State>, t: nat)
    requires Run(r)
    requires var s := r[|r| - 1]; t in s.txns && s.txns[t].live && s.txns[t].pend.Nothing?
    ensures var s := r[|r| - 1]; var x := s.txns[t];
            && x.first.Keys == x.absent.Keys && x.absent.Keys <= s.nodes.Keys
            && ((forall n :: n in x.absent ==> s.nodes[n].ver == x.absent[n])
                <==> forall n :: n in x.first ==> !Disturbed(s.nodes[n], t, x.first[n], s.nodes[n].ver))
  {
    var s := r[|r| - 1];
    var x := s.txns[t];
    RunInvariant(r);
    assert TxnInv(s, t);
    hide Inv, Disturbed, RecordInv;
    forall n | n in x.absent
      ensures n in s.nodes && (s.nodes[n].ver != x.absent[n] <==> Disturbed(s.nodes[n], t, x.first[n], s.nodes[n].ver))
    {
      OnRecord(r, t, n);
      NowGrown(s.nodes[n]);
      DisturbedExactly(s.nodes[n], t, x.first[n], x.absent[n], x.pend, n, s.nodes[n].ver);
    }
  }
}
