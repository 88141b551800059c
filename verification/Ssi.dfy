/**
 Serializable snapshot isolation at coroutine granularity: one worker interleaves any number of
 transactions; a read of one version, an update, a commit and an abort are each one step.
 A record is the sequence of its versions, oldest first; `Vid(o, i)` names a version.
 */
module Ssi {
  import opened Stamps
  import opened Serializability

  // `writer` is history.  A transaction is named in a readers bitmap by its XID.
  datatype Ver = Ver(writer: nat, clsn: Stamp, sstamp: Stamp, s2: nat, xstamp: nat, readers: set<nat>)

  // `seen` and `met` are history: every foreign version read, and the stamps of invisible versions
  // passed over.  A committed transaction's `ct3` is its final one.
  datatype Txn =
    Txn(begin: nat, end: nat, state: Status, ct3: nat, rset: seq<Vid>, wset: seq<nat>, seen: set<Vid>, met: set<nat>)

  // `placed` says whether workers hold positions in the readers bitmaps, `oneBlock` whether every
  // transaction's log fits one block; no step changes them.
  datatype State = State(clock: nat, txns: map<nat, Txn>, recs: map<nat, seq<Ver>>, placed: bool, oneBlock: bool)

  // What registering a reader sets: nothing without a position.
  function Entry(s: State, t: nat): set<nat> { if s.placed then {t} else {} }

  ghost predicate Init(s: State) {
    s == State(0, map[], map[], s.placed, s.oneBlock)
  }

  ghost predicate Has(s: State, v: Vid) {
    v.o in s.recs && v.i < |s.recs[v.o]|
  }

  function At(s: State, v: Vid): Ver
    requires Has(s, v)
  {
    s.recs[v.o][v.i]
  }

  function SetVer(s: State, v: Vid, ver: Ver): State
    requires Has(s, v)
  {
    s.(recs := s.recs[v.o := s.recs[v.o][v.i := ver]])
  }

  // ----- forward processing -----

  ghost predicate Begin(s: State, s': State, t: nat) {
    t !in s.txns && s' == s.(txns := s.txns[t := Txn(s.clock + 1, 0, Active, 0, [], [], {}, {})])
  }

  // Log space goes to a spilled block, or to a commit that fails.
  ghost predicate LoseStamp(s: State, s': State, n: nat) {
    n > s.clock && s' == s.(clock := n)
  }

  // `v` is what the version walk returns: committed within the snapshot, nothing newer is.
  ghost predicate InSnapshot(s: State, t: nat, v: Vid) {
    && t in s.txns && Has(s, v)
    && At(s, v).clsn.Lsn? && At(s, v).clsn.n <= s.txns[t].begin
    && forall j :: v.i < j < |s.recs[v.o]| ==>
         s.recs[v.o][j].clsn != Xid(t) && (s.recs[v.o][j].clsn.Lsn? ==> s.recs[v.o][j].clsn.n > s.txns[t].begin)
  }

  // The smaller of two stamps, 0 meaning none.
  function Earliest(a: nat, b: nat): nat { if a == 0 || a > b then b else a }

  // The read is refused if its overwriter is a pivot; a committed overwriter makes the reader one.
  ghost predicate Read(s: State, s': State, t: nat, v: Vid) {
    && InSnapshot(s, t, v) && s.txns[t].state == Active && At(s, v).s2 == 0
    && var x := s.txns[t]; var sc := At(s, v).sstamp;
       if sc.Lsn? then
         s' == s.(txns := s.txns[t := x.(ct3 := Earliest(x.ct3, sc.n), seen := x.seen + {v})])
       else
         s' == SetVer(s, v, At(s, v).(readers := At(s, v).readers + Entry(s, t)))
               .(txns := s.txns[t := x.(rset := x.rset + [v], seen := x.seen + {v})])
  }

  // A version is stamped `n`, after the snapshot.
  ghost predicate Invisible(s: State, t: nat, n: nat)
    requires t in s.txns
  {
    n > s.txns[t].begin && exists v :: Has(s, v) && At(s, v).clsn == Lsn(n)
  }

  // A walk that passes over it takes it for an overwriter.
  ghost predicate MeetInvisible(s: State, s': State, t: nat, n: nat) {
    && t in s.txns && s.txns[t].state == Active && Invisible(s, t, n)
    && s' == s.(txns := s.txns[t := s.txns[t].(ct3 := Earliest(s.txns[t].ct3, n), met := s.txns[t].met + {n})])
  }

  ghost predicate Insert(s: State, s': State, t: nat, o: nat) {
    && t in s.txns && s.txns[t].state == Active && o !in s.recs
    && s' == s.(recs := s.recs[o := [Ver(t, Xid(t), Null, 0, 0, {})]],
                txns := s.txns[t := s.txns[t].(wset := s.txns[t].wset + [o])])
  }

  // Update over a head committed within the snapshot, unless the updater is a pivot with a reader.
  ghost predicate Update(s: State, s': State, t: nat, o: nat) {
    && t in s.txns && s.txns[t].state == Active && o in s.recs && |s.recs[o]| > 0
    && var c := s.recs[o]; var p := c[|c| - 1]; var x := s.txns[t];
       && p.clsn.Lsn? && p.clsn.n < x.begin
       && (x.ct3 == 0 || (p.xstamp < x.ct3 && p.readers - {t} == {}))
       && s' == s.(recs := s.recs[o := c[|c| - 1 := p.(sstamp := Xid(t))] + [Ver(t, Xid(t), Null, 0, 0, {})]],
                   txns := s.txns[t := x.(wset := x.wset + [o])])
  }

  // ----- commit -----

  // The smallest stamp among `ct3` and the committed overwriters of reads.
  ghost function FoldCt3(s: State, rs: seq<Vid>, ct3: nat): nat {
    if rs == [] then ct3
    else
      var v := rs[|rs| - 1];
      var c := FoldCt3(s, rs[..|rs| - 1], ct3);
      if Has(s, v) && At(s, v).sstamp.Lsn? then Earliest(c, At(s, v).sstamp.n) else c
  }

  // No read was overwritten by a committed pivot.
  ghost predicate ReadsPass(s: State, rs: seq<Vid>) {
    forall v :: v in rs && Has(s, v) && At(s, v).sstamp.Lsn? ==> At(s, v).s2 == 0
  }

  // A registered reader stops a pivot unless it is known to end before `ct3` or to have aborted.
  predicate ReaderPasses(s: State, r: nat, ct3: nat, cstamp: nat) {
    r in s.txns &&
    match s.txns[r].state
    case Active => false
    case Committing => false
    case Abrtd => true
    case Cmmtd => s.txns[r].end < cstamp && s.txns[r].end < ct3
  }

  ghost predicate WritePasses(s: State, t: nat, o: nat, ct3: nat, cstamp: nat) {
    o in s.recs && |s.recs[o]| > 1 ==>
      var p := s.recs[o][|s.recs[o]| - 2];
      p.xstamp < ct3 && forall r :: r in p.readers && r != t ==> ReaderPasses(s, r, ct3, cstamp)
  }

  ghost predicate WritesPass(s: State, t: nat, ws: seq<nat>, ct3: nat, cstamp: nat) {
    ct3 != 0 ==> forall o :: o in ws ==> WritePasses(s, t, o, ct3, cstamp)
  }

  // Where the log put the versions of `t`, whose last block ends at `n`.  The block drawn at
  // commit lies above every snapshot; blocks spilled before lie above the snapshot of `t`.
  ghost predicate Logged(s: State, t: nat, n: nat, a: map<nat, nat>)
    requires t in s.txns
  {
    forall o :: o in s.txns[t].wset ==> o in a && (if s.oneBlock then s.clock + 1 else s.txns[t].begin) < a[o] <= n
  }

  // A record after its new head, at address `a`, and the version below it have been stamped.
  function StampRec(c: seq<Ver>, n: nat, a: nat, ct3: nat): seq<Ver> {
    if |c| == 0 then c
    else
      var c1 := c[|c| - 1 := c[|c| - 1].(clsn := Lsn(a), xstamp := n)];
      if |c| == 1 then c1 else c1[|c| - 2 := c[|c| - 2].(sstamp := Lsn(a), s2 := ct3)]
  }

  function Release(v: Ver, t: nat, n: nat): Ver {
    v.(xstamp := Max(v.xstamp, n), readers := v.readers - {t})
  }

  // A record after its reads have been published and the reader has left the bitmaps.
  ghost function ReleaseRec(c: seq<Ver>, t: nat, o: nat, rs: seq<Vid>, n: nat): (r: seq<Ver>)
    ensures |r| == |c|
  {
    seq(|c|, i requires 0 <= i < |c| =>
      if Vid(o, i) in rs then Release(c[i], t, n) else c[i])
  }

  ghost function StampAll(recs: map<nat, seq<Ver>>, ws: seq<nat>, n: nat, a: map<nat, nat>, ct3: nat)
    : map<nat, seq<Ver>>
  {
    map o | o in recs :: if o in ws && o in a then StampRec(recs[o], n, a[o], ct3) else recs[o]
  }

  ghost function ReleaseAll(recs: map<nat, seq<Ver>>, t: nat, rs: seq<Vid>, n: nat): map<nat, seq<Ver>> {
    map o | o in recs :: ReleaseRec(recs[o], t, o, rs, n)
  }

  ghost predicate Commit(s: State, s': State, t: nat, n: nat, a: map<nat, nat>) {
    && t in s.txns && s.txns[t].state == Active && n > s.clock + 1 && Logged(s, t, n, a)
    && var x := s.txns[t]; var ct3 := FoldCt3(s, x.rset, x.ct3);
       && ReadsPass(s, x.rset) && WritesPass(s, t, x.wset, ct3, n)
       && s' == s.(clock := n, txns := s.txns[t := x.(end := n, state := Cmmtd, ct3 := ct3)],
                   recs := ReleaseAll(StampAll(s.recs, x.wset, n, a, ct3), t, x.rset, n))
  }

  // ----- abort -----

  function UnlinkRec(c: seq<Ver>): seq<Ver> {
    if |c| == 0 then c
    else if |c| == 1 then []
    else c[|c| - 2 := c[|c| - 2].(sstamp := Null)][..|c| - 1]
  }

  ghost function LeaveRec(c: seq<Ver>, t: nat, o: nat, rs: seq<Vid>): (r: seq<Ver>)
    ensures |r| == |c|
  {
    seq(|c|, i requires 0 <= i < |c| => if Vid(o, i) in rs then c[i].(readers := c[i].readers - {t}) else c[i])
  }

  ghost predicate Abort(s: State, s': State, t: nat) {
    && t in s.txns && s.txns[t].state == Active
    && var x := s.txns[t];
       s' == s.(txns := s.txns[t := x.(state := Abrtd)],
                recs := map o | o in s.recs ::
                  var c := LeaveRec(s.recs[o], t, o, x.rset); if o in x.wset then UnlinkRec(c) else c)
  }

  // ----- runs -----

  ghost predicate Step(s: State, s': State, t: nat) {
    || Begin(s, s', t) || (exists n :: LoseStamp(s, s', n))
    || (exists v :: Read(s, s', t, v)) || (exists o :: Insert(s, s', t, o)) || (exists o :: Update(s, s', t, o))
    || (exists n :: MeetInvisible(s, s', t, n)) || (exists n, a :: Commit(s, s', t, n, a)) || Abort(s, s', t)
  }

  ghost predicate Next(s: State, s': State) {
    exists t :: Step(s, s', t)
  }

  ghost predicate Run(r: seq<State>) {
    |r| > 0 && Init(r[0]) && forall k :: 0 < k < |r| ==> Next(r[k - 1], r[k])
  }

  // ----- dependencies -----

  ghost predicate Committed(s: State, t: nat) {
    t in s.txns && s.txns[t].state == Cmmtd
  }

  ghost predicate Wrote(s: State, t: nat, v: Vid) {
    Has(s, v) && At(s, v).writer == t
  }

  // `b` created the version right above `v`.
  ghost predicate Overwrote(s: State, b: nat, v: Vid) {
    Wrote(s, b, Vid(v.o, v.i + 1))
  }

  // `b` overwrote what `a` read.
  ghost predicate AntiDepends(s: State, a: nat, b: nat) {
    Committed(s, a) && Committed(s, b) && a != b && exists v :: v in s.txns[a].seen && Overwrote(s, b, v)
  }

  // `b` read or overwrote what `a` wrote.
  ghost predicate Follows(s: State, a: nat, b: nat) {
    && Committed(s, a) && Committed(s, b) && a != b
    && ((exists v :: v in s.txns[b].seen && Wrote(s, a, v)) || (exists v :: Wrote(s, a, v) && Overwrote(s, b, v)))
  }

  ghost function Deps(s: State): Graph {
    set a, b | a in s.txns && b in s.txns && (AntiDepends(s, a, b) || Follows(s, a, b)) :: (a, b)
  }

  // ----- the invariant -----

  // What the stamps of a version say about the version above it.
  ghost predicate AboveInv(s: State, o: nat, i: nat)
    requires o in s.recs && i < |s.recs[o]|
  {
    var c := s.recs[o];
    if i + 1 == |c| then c[i].sstamp == Null && c[i].s2 == 0
    else
      var w := c[i + 1].writer;
      && c[i].clsn.Lsn? && w in s.txns && c[i].clsn.n < s.txns[w].begin
      && (if c[i + 1].clsn.Lsn? then c[i].sstamp == c[i + 1].clsn && c[i].s2 == s.txns[w].ct3
          else c[i].sstamp == Xid(w) && c[i].s2 == 0)
  }

  // With one block, no snapshot lies between the stamp of a version and the commit of its writer.
  ghost predicate Tight(s: State, v: Ver) {
    s.oneBlock && v.clsn.Lsn? && v.writer in s.txns ==>
      forall t :: t in s.txns ==> s.txns[t].begin < v.clsn.n || s.txns[v.writer].end < s.txns[t].begin
  }

  ghost predicate VerInv(s: State, o: nat, i: nat)
    requires o in s.recs && i < |s.recs[o]|
  {
    var c := s.recs[o];
    var v := c[i];
    && v.writer in s.txns && !v.clsn.Null?
    && (v.clsn.Lsn? ==>
          && s.txns[v.writer].state == Cmmtd
          && s.txns[v.writer].begin < v.clsn.n <= s.txns[v.writer].end <= s.clock)
    && (v.clsn.Xid? ==>
          v.clsn.t == v.writer && i + 1 == |c| && s.txns[v.writer].state == Active && o in s.txns[v.writer].wset)
    && (forall r :: r in v.readers ==> r in s.txns && s.txns[r].state == Active && Vid(o, i) in s.txns[r].rset)
    && AboveInv(s, o, i) && Tight(s, v)
  }

  // The writer of the version above `v` has committed.
  ghost predicate Settled(s: State, v: Vid) {
    Has(s, Vid(v.o, v.i + 1)) && At(s, Vid(v.o, v.i + 1)).clsn.Lsn? && At(s, Vid(v.o, v.i + 1)).writer in s.txns
  }

  ghost function SettledAt(s: State, v: Vid): nat
    requires Settled(s, v)
  {
    s.txns[At(s, Vid(v.o, v.i + 1)).writer].end
  }

  // The version above `v` was not committed before `t` began.
  ghost predicate SnapshotInv(s: State, t: nat, v: Vid)
    requires t in s.txns
  {
    && Has(s, v) && At(s, v).clsn.Lsn? && At(s, v).clsn.n <= s.txns[t].begin
    && (Settled(s, v) ==> SettledAt(s, v) > s.txns[t].begin)
  }

  // A running reader of `v` is registered there, or knows the stamp of its overwriter.
  ghost predicate TrackedInv(s: State, t: nat, v: Vid)
    requires t in s.txns
  {
    Has(s, v) &&
    var x := s.txns[t];
    if v in x.rset then (s.placed && x.state == Active ==> t in At(s, v).readers)
         && (x.state == Cmmtd ==> At(s, v).xstamp >= x.end)
    else At(s, v).sstamp.Lsn? && 0 < x.ct3 <= At(s, v).sstamp.n
  }

  // A committed transaction's `ct3` is at most the stamp of any overwriter that committed first.
  ghost predicate PivotInv(s: State, t: nat, v: Vid)
    requires t in s.txns
  {
    var x := s.txns[t];
    x.state == Cmmtd && Has(s, v) && Settled(s, v) && SettledAt(s, v) < x.end ==>
      At(s, v).sstamp.Lsn? && 0 < x.ct3 <= At(s, v).sstamp.n
  }

  // If `v` was overwritten by a pivot, its other readers committed before the pivot's `ct3`, or will
  // find out: they are running and have listed `v`.
  ghost predicate DangerInv(s: State, t: nat, v: Vid)
    requires t in s.txns
  {
    Has(s, v) && At(s, v).s2 != 0 && !Overwrote(s, t, v) ==>
      || (s.txns[t].state == Cmmtd && s.txns[t].end < At(s, v).s2)
      || (s.txns[t].state == Active && v in s.txns[t].rset)
  }

  ghost predicate SeenInv(s: State, t: nat, v: Vid)
    requires t in s.txns
  {
    SnapshotInv(s, t, v) && TrackedInv(s, t, v) && PivotInv(s, t, v) && DangerInv(s, t, v)
  }

  ghost predicate TxnInv(s: State, t: nat)
    requires t in s.txns
  {
    var x := s.txns[t];
    && x.begin <= s.clock + 1 && NoDup(x.wset)
    && (forall v :: v in x.rset ==> v in x.seen)
    && (x.state == Active || x.state == Cmmtd || x.state == Abrtd)
    && (x.state == Cmmtd ==> x.begin < x.end <= s.clock)
    && (x.state == Active ==>
          forall o :: o in x.wset ==> o in s.recs && |s.recs[o]| > 0 && s.recs[o][|s.recs[o]| - 1].clsn == Xid(t))
    && (x.state != Abrtd ==> forall v :: v in x.seen ==> SeenInv(s, t, v))
  }

  // No commit stamp equals a snapshot or another commit stamp.
  ghost predicate Apart(s: State) {
    forall t, u :: t in s.txns && u in s.txns && s.txns[u].state == Cmmtd ==>
      && s.txns[u].end != s.txns[t].begin
      && (t != u && s.txns[t].state == Cmmtd ==> s.txns[u].end != s.txns[t].end)
  }

  ghost predicate Inv(s: State) {
    && Apart(s)
    && (forall o, i :: o in s.recs && 0 <= i < |s.recs[o]| ==> VerInv(s, o, i))
    && (forall t :: t in s.txns ==> TxnInv(s, t))
  }
}
