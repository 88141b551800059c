/**
 Snapshot isolation at coroutine granularity: one worker interleaves any number of transactions
 and switches only where an operation suspends.  A read suspends before it loads the OID entry
 and before it inspects each version; an update suspends before it loads the head, before it
 inspects the head, and between installing the new version and listing it in the write set.
 Everything between two suspensions, and the whole of commit and abort, is one step.

 Objects are named by allocation order, 0 being the null pointer; they are never reused.
 */
module Snapshot {
  import opened Stamps

  // `oid` and `writer` are history: the record the object was made for, and its creator.
  datatype Obj = Obj(oid: nat, writer: nat, clsn: Stamp, next: nat, val: int)

  datatype Pc =
    | Idle
    | WalkStart(o: nat)
    | WalkAt(o: nat, p: nat)
    | UpdStart(o: nat, val: int)
    | UpdAt(o: nat, val: int, head: nat)
    | Installed(o: nat, prev: nat)
    | Doomed
    | Over

  // History: an insert or update that was asked for.
  datatype Ask = Ask(o: nat, val: int)

  // `asked` is history.
  datatype Txn = Txn(begin: nat, end: nat, state: Status, gone: bool, wset: seq<nat>, pc: Pc, asked: seq<Ask>)

  // `oneBlock` says whether every transaction's log fits one block; no step changes it.
  datatype State =
    State(clock: nat, objs: map<nat, Obj>, entries: map<nat, nat>, txns: map<nat, Txn>, oneBlock: bool)

  ghost predicate Init(s: State) {
    s == State(0, map[], map[], map[], s.oneBlock)
  }

  function Entry(s: State, o: nat): nat {
    if o in s.entries then s.entries[o] else 0
  }

  function SetPc(s: State, t: nat, pc: Pc): State
    requires t in s.txns
  {
    s.(txns := s.txns[t := s.txns[t].(pc := pc)])
  }

  ghost predicate Fresh(s: State, m: nat) {
    0 < m && forall p :: p in s.objs ==> p < m
  }

  // ----- the visibility test and the update test -----

  datatype Verdict = Restart | Shown | Hidden

  function Test(s: State, t: nat, clsn: Stamp): Verdict
    requires t in s.txns
  {
    match clsn
    case Null => Restart
    case Xid(u) =>
      if u == t then Shown
      else if u !in s.txns || s.txns[u].gone then Restart
      else if s.txns[u].state == Cmmtd && s.txns[u].end < s.txns[t].begin then Shown
      else Hidden
    case Lsn(n) => if n <= s.txns[t].begin then Shown else Hidden
  }

  datatype Plan = Again | Conflict | Overwrite | Install

  function PlanUpdate(s: State, t: nat, clsn: Stamp): Plan
    requires t in s.txns
  {
    match clsn
    case Null => Again
    case Xid(u) =>
      if u == t then Overwrite
      else if u !in s.txns || s.txns[u].gone then Again
      else if s.txns[u].state == Cmmtd then Install
      else Conflict
    case Lsn(n) => if n >= s.txns[t].begin then Conflict else Install
  }

  // ----- steps -----

  // The snapshot is one above the current log offset.
  ghost predicate Begin(s: State, s': State, t: nat) {
    t !in s.txns && s' == s.(txns := s.txns[t := Txn(s.clock + 1, 0, Active, false, [], Idle, [])])
  }

  ghost predicate StartRead(s: State, s': State, t: nat, o: nat) {
    t in s.txns && s.txns[t].pc == Idle && s' == SetPc(s, t, WalkStart(o))
  }

  ghost predicate ReadEntry(s: State, s': State, t: nat) {
    && t in s.txns && s.txns[t].pc.WalkStart?
    && var o := s.txns[t].pc.o; var p := Entry(s, o);
       s' == SetPc(s, t, if p == 0 then Idle else WalkAt(o, p))
  }

  // Inspect one version; 0 means that the walk has not returned an object in this step.
  ghost predicate Hop(s: State, s': State, t: nat) {
    && t in s.txns && s.txns[t].pc.WalkAt? && s.txns[t].pc.p in s.objs
    && var o, v := s.txns[t].pc.o, s.objs[s.txns[t].pc.p];
       s' == SetPc(s, t, match Test(s, t, v.clsn)
                         case Restart => WalkStart(o)
                         case Shown => Idle
                         case Hidden => if v.next == 0 then Idle else WalkAt(o, v.next))
  }

  ghost predicate StartUpdate(s: State, s': State, t: nat, o: nat, val: int) {
    && t in s.txns && s.txns[t].pc == Idle
    && s' == s.(txns := s.txns[t := s.txns[t].(pc := UpdStart(o, val), asked := s.txns[t].asked + [Ask(o, val)])])
  }

  ghost predicate ReadHead(s: State, s': State, t: nat) {
    && t in s.txns && s.txns[t].pc.UpdStart? && Entry(s, s.txns[t].pc.o) != 0
    && s' == SetPc(s, t, UpdAt(s.txns[t].pc.o, s.txns[t].pc.val, Entry(s, s.txns[t].pc.o)))
  }

  // Make `m` the head of record `o`, above `next`.
  function Link(s: State, t: nat, o: nat, m: nat, next: nat, val: int): State {
    s.(objs := s.objs[m := Obj(o, t, Xid(t), next, val)], entries := s.entries[o := m])
  }

  // The head was one's own: replace it by a plain store.
  ghost predicate Replace(s: State, s': State, t: nat, m: nat) {
    && t in s.txns && s.txns[t].pc.UpdAt? && s.txns[t].pc.head in s.objs && Fresh(s, m)
    && var pc := s.txns[t].pc;
       && PlanUpdate(s, t, s.objs[pc.head].clsn) == Overwrite
       && s' == SetPc(Link(s, t, pc.o, m, s.objs[pc.head].next, pc.val), t, Installed(pc.o, pc.head))
  }

  // The compare-and-swap succeeds exactly when the entry still holds the head that was loaded.
  ghost predicate Swap(s: State, s': State, t: nat, m: nat) {
    && t in s.txns && s.txns[t].pc.UpdAt? && s.txns[t].pc.head in s.objs && Fresh(s, m)
    && var pc := s.txns[t].pc;
       && PlanUpdate(s, t, s.objs[pc.head].clsn) == Install
       && s' == (if Entry(s, pc.o) == pc.head then
                   SetPc(Link(s, t, pc.o, m, pc.head, pc.val), t, Installed(pc.o, pc.head))
                 else SetPc(s, t, Doomed))
  }

  ghost predicate GiveUp(s: State, s': State, t: nat) {
    && t in s.txns && s.txns[t].pc.UpdAt? && s.txns[t].pc.head in s.objs
    && var pc := s.txns[t].pc; var plan := PlanUpdate(s, t, s.objs[pc.head].clsn);
       && (plan == Again || plan == Conflict)
       && s' == SetPc(s, t, if plan == Again then UpdStart(pc.o, pc.val) else Doomed)
  }

  // Only the first update of a record enters the write set.
  ghost predicate ListWrite(s: State, s': State, t: nat) {
    && t in s.txns && s.txns[t].pc.Installed? && s.txns[t].pc.prev in s.objs
    && var x := s.txns[t];
       s' == s.(txns := s.txns[t := x.(pc := Idle, wset := if s.objs[x.pc.prev].clsn == Xid(t) then x.wset
           else x.wset + [x.pc.o])])
  }

  ghost predicate Insert(s: State, s': State, t: nat, o: nat, m: nat, val: int) {
    && t in s.txns && s.txns[t].pc == Idle && o !in s.entries && Fresh(s, m)
    && s' == Link(s, t, o, m, 0, val)
             .(txns := s.txns[t := s.txns[t].(wset := s.txns[t].wset + [o], asked := s.txns[t].asked + [Ask(o, val)])])
  }

  // Whether `p` is the head of a record in the write set of `t`.
  ghost predicate Written(s: State, t: nat, p: nat) {
    t in s.txns && p in s.objs && s.objs[p].oid in s.txns[t].wset && Entry(s, s.objs[p].oid) == p
  }

  // Written heads get the stamps of their records in `c`.
  ghost function Restamp(s: State, t: nat, c: map<nat, Stamp>): map<nat, Obj> {
    map p | p in s.objs ::
      if Written(s, t, p) && s.objs[p].oid in c then s.objs[p].(clsn := c[s.objs[p].oid]) else s.objs[p]
  }

  function Lsns(a: map<nat, nat>): map<nat, Stamp> { map o | o in a :: Lsn(a[o]) }

  function Nulls(w: seq<nat>): map<nat, Stamp> { map o | o in w :: Null }

  // Where the log put the versions of `t`, whose last block ends at `n`.  The block drawn at
  // commit lies above every snapshot; blocks spilled before lie above the snapshot of `t`.
  ghost predicate Logged(s: State, t: nat, n: nat, a: map<nat, nat>)
    requires t in s.txns
  {
    forall o :: o in s.txns[t].wset ==> o in a && (if s.oneBlock then s.clock + 1 else s.txns[t].begin) < a[o] <= n
  }

  // Commit stamps every written head with its address.
  ghost function CommitAll(s: State, t: nat, n: nat, a: map<nat, nat>): State
    requires t in s.txns
  {
    s.(clock := n, objs := Restamp(s, t, Lsns(a)),
       txns := s.txns[t := s.txns[t].(end := n, state := Cmmtd, pc := Over)])
  }

  function NextOf(s: State, p: nat): nat {
    if p in s.objs then s.objs[p].next else 0
  }

  // Abort unlinks every written head and marks it dead.
  ghost function AbortAll(s: State, t: nat): State
    requires t in s.txns
  {
    s.(objs := Restamp(s, t, Nulls(s.txns[t].wset)),
       entries := map o | o in s.entries :: if o in s.txns[t].wset then NextOf(s, s.entries[o]) else s.entries[o],
       txns := s.txns[t := s.txns[t].(state := Abrtd, pc := Over)])
  }

  // `pre_commit` draws an offset above every earlier one and different from every snapshot.
  ghost predicate Commit(s: State, s': State, t: nat, n: nat, a: map<nat, nat>) {
    t in s.txns && s.txns[t].pc == Idle && n > s.clock + 1 && Logged(s, t, n, a) && s' == CommitAll(s, t, n, a)
  }

  // Log space goes to a spilled block, or to a commit that fails.
  ghost predicate Draw(s: State, s': State, n: nat) {
    n > s.clock && s' == s.(clock := n)
  }

  ghost predicate Abort(s: State, s': State, t: nat) {
    t in s.txns && (s.txns[t].pc == Idle || s.txns[t].pc == Doomed) && s' == AbortAll(s, t)
  }

  ghost predicate Free(s: State, s': State, t: nat) {
    && t in s.txns && s.txns[t].pc == Over
    && s' == s.(txns := s.txns[t := s.txns[t].(gone := true)])
  }

  // Steps that only move the actor along.
  ghost predicate Moves(s: State, s': State, t: nat) {
    || (exists o :: StartRead(s, s', t, o)) || ReadEntry(s, s', t) || Hop(s, s', t)
    || (exists o, val :: StartUpdate(s, s', t, o, val)) || ReadHead(s, s', t) || GiveUp(s, s', t)
    || ListWrite(s, s', t) || Free(s, s', t)
  }

  ghost predicate Step(s: State, s': State, t: nat) {
    || Begin(s, s', t) || Moves(s, s', t)
    || (exists m :: Replace(s, s', t, m)) || (exists m :: Swap(s, s', t, m))
    || (exists o, m, val :: Insert(s, s', t, o, m, val))
    || (exists n, a :: Commit(s, s', t, n, a)) || Abort(s, s', t) || (exists n :: Draw(s, s', n))
  }

  ghost predicate Next(s: State, s': State) {
    exists t :: Step(s, s', t)
  }

  ghost predicate Run(r: seq<State>) {
    |r| > 0 && Init(r[0]) && forall k :: 0 < k < |r| ==> Next(r[k - 1], r[k])
  }

  // ----- chains and views -----

  // The objects linked from `p`, newest first.
  ghost function Chain(m: map<nat, Obj>, p: nat): seq<nat> {
    if p == 0 || p !in m then [] else if m[p].next >= p then [p] else [p] + Chain(m, m[p].next)
  }

  // The version belongs to `t`'s snapshot.
  ghost predicate Sees(t: nat, begin: nat, clsn: Stamp) {
    clsn == Xid(t) || (clsn.Lsn? && clsn.n <= begin)
  }

  // What an atomic walk from `p` returns; 0 if nothing.
  ghost function View(m: map<nat, Obj>, t: nat, begin: nat, p: nat): nat {
    if p == 0 || p !in m then 0
    else if Sees(t, begin, m[p].clsn) then p
    else if m[p].next >= p then 0
    else View(m, t, begin, m[p].next)
  }

  ghost function Visible(s: State, t: nat, o: nat): nat
    requires t in s.txns
  {
    View(s.objs, t, s.txns[t].begin, Entry(s, o))
  }

  // ----- the invariant -----

  // A version sits above a committed version of the same record, older than its creator's snapshot.
  ghost predicate ObjInv(s: State, p: nat)
    requires p in s.objs
  {
    var v := s.objs[p];
    && 0 < p && v.next < p && v.writer in s.txns
    && (v.next != 0 ==>
          && v.next in s.objs && s.objs[v.next].oid == v.oid
          && s.objs[v.next].clsn.Lsn? && s.objs[v.next].clsn.n < s.txns[v.writer].begin)
    && (v.clsn.Xid? ==> v.clsn.t == v.writer)
    && (v.clsn.Lsn? ==>
          && s.txns[v.writer].state == Cmmtd
          && s.txns[v.writer].begin < v.clsn.n <= s.txns[v.writer].end <= s.clock)
  }

  ghost predicate Owns(x: Txn, o: nat) {
    o in x.wset || (x.pc.Installed? && x.pc.o == o)
  }

  // At most one uncommitted version, at the head, whose creator is still running and owns the record.
  ghost predicate EntryInv(s: State, o: nat)
    requires o in s.entries
  {
    var h := s.entries[o];
    h != 0 ==>
      && h in s.objs && s.objs[h].oid == o && !s.objs[h].clsn.Null?
      && (s.objs[h].clsn.Xid? ==>
            && s.objs[h].clsn.t in s.txns && s.txns[s.objs[h].clsn.t].state == Active
            && Owns(s.txns[s.objs[h].clsn.t], o))
  }

  // No committed version is ever lost.
  ghost predicate Kept(s: State, p: nat)
    requires p in s.objs
  {
    s.objs[p].clsn.Lsn? ==> p in Chain(s.objs, Entry(s, s.objs[p].oid))
  }

  // With one block, no snapshot lies between the stamp of a version and the commit of its writer.
  ghost predicate Tight(s: State, p: nat)
    requires p in s.objs
  {
    s.oneBlock && s.objs[p].clsn.Lsn? && s.objs[p].writer in s.txns ==>
      forall t :: t in s.txns ==>
        s.txns[t].begin < s.objs[p].clsn.n || s.txns[s.objs[p].writer].end < s.txns[t].begin
  }

  // A suspended walk is at a dead version, or sees from there what it would see from the head.
  ghost predicate WalkInv(s: State, t: nat, o: nat, p: nat)
    requires t in s.txns
  {
    && p in s.objs && s.objs[p].oid == o
    && (s.oneBlock && !s.objs[p].clsn.Null? ==> View(s.objs, t, s.txns[t].begin, p) == Visible(s, t, o))
    && (s.objs[p].clsn.Xid? && s.objs[p].clsn.t in s.txns && s.txns[s.objs[p].clsn.t].state == Cmmtd ==>
          s.txns[s.objs[p].clsn.t].end > s.txns[t].begin)
  }

  ghost predicate PointInv(s: State, t: nat)
    requires t in s.txns
  {
    var x := s.txns[t];
    match x.pc
    case WalkAt(o, p) => WalkInv(s, t, o, p)
    case UpdAt(o, _, h) => h in s.objs && s.objs[h].oid == o && (s.objs[h].clsn == Xid(t) ==> Entry(s, o) == h)
    case Installed(o, prev) =>
      && prev in s.objs && (s.objs[prev].clsn.Lsn? || s.objs[prev].clsn == Xid(t))
      && (o in x.wset <==> s.objs[prev].clsn == Xid(t))
    case _ => true
  }

  ghost predicate TxnInv(s: State, t: nat)
    requires t in s.txns
  {
    var x := s.txns[t];
    && x.begin <= s.clock + 1 && NoDup(x.wset)
    && (x.state == Active || x.state == Cmmtd || x.state == Abrtd)
    && (x.pc == Over <==> x.state != Active) && (x.gone ==> x.pc == Over)
    && (x.state == Active ==>
          forall o :: Owns(x, o) ==> Entry(s, o) != 0 && Entry(s, o) in s.objs && s.objs[Entry(s, o)].clsn == Xid(t))
    && PointInv(s, t)
  }

  ghost predicate Inv(s: State) {
    && (forall p :: p in s.objs ==> ObjInv(s, p))
    && (forall o :: o in s.entries ==> EntryInv(s, o))
    && (forall p :: p in s.objs ==> Kept(s, p) && Tight(s, p))
    && (forall t :: t in s.txns ==> TxnInv(s, t))
  }
}
