/**
 The multi-version engine at thread granularity: any number of transactions and records,
 where each step is one load, one store or one compare-and-swap of one transaction.

 A record is the sequence of its linked versions, oldest first, so `Vid(o, i)` names a
 version by record and position, its `next` pointer is position `i - 1`, the OID entry
 points at the last position, and unlinking drops the last position.  The steps here are
 those that every certifier shares; `Ssn` and `Mvocc` add their own.
 */
module Engine {
  import opened Stamps
  import opened Serializability

  // `writer` is history: once stamped, `clsn` no longer names the creator.
  datatype Ver = Ver(writer: nat, clsn: Stamp, sstamp: Stamp, xstamp: nat, readers: set<nat>)

  datatype ReadPoint = LoadS | Push | Register

  datatype UpdPoint = TakeX | CopyX | MarkS | AddW

  datatype StampPoint = WriteS | WriteX | WriteC

  // Program points between drawing a commit stamp and the decision to commit.
  datatype Cert =
    | InitS
    // pre-commit check of read `i`, whose overwriter is `u`
    | Load(i: nat)
    | Owner(i: nat, u: nat)
    | State1(i: nat, u: nat)
    | Verify1(i: nat, u: nat, st: Status)
    | End(i: nat, u: nat)
    | State2(i: nat, u: nat, e: nat)
    | Verify2(i: nat, u: nat, e: nat, st: Status)
    | Spin(i: nat, u: nat)
    | SpinVerify(i: nat, u: nat, st: Status)
    | TakeS(i: nat, u: nat)
    | TakeSVerify(i: nat, u: nat, sv: nat)
    // pre-commit check of write `j`: `k` bitmap words loaded, bits `cur` still to process
    | Scan(j: nat, k: nat, cur: set<nat>)
    | XidOf(j: nat, k: nat, cur: set<nat>, q: nat)
    | ROwner(j: nat, k: nat, cur: set<nat>, r: nat)
    | RState(j: nat, k: nat, cur: set<nat>, r: nat)
    | REnd(j: nat, k: nat, cur: set<nat>, r: nat, st: Status)
    | RVerify(j: nat, k: nat, cur: set<nat>, r: nat, st: Status, e: nat)
    | REnd2(j: nat, k: nat, cur: set<nat>, r: nat)
    | RState2(j: nat, k: nat, cur: set<nat>, r: nat, e: nat)
    | RVerify2(j: nat, k: nat, cur: set<nat>, r: nat, e: nat, st: Status)
    | RSpin(j: nat, k: nat, cur: set<nat>, r: nat, e: nat)
    | RSpinVerify(j: nat, k: nat, cur: set<nat>, r: nat, e: nat, st: Status)
    | ReadX(j: nat)
    | Final

  // Program points of the post-commit loop over the read set.
  datatype PostPoint =
    | PLoad
    | POwner(u: nat)
    | PEnd(u: nat)
    | PVerify(u: nat, e: nat)
    | PSpin(u: nat)
    | PSpinVerify(u: nat, st: Status)
    | PSetX
    | PClear

  datatype Pc =
    | Idle
    | Reading(v: Vid, r: ReadPoint)
    | Updating(o: nat, p: UpdPoint)
    | Doomed                            // an operation failed, nothing but abort is left
    | Entered                           // COMMITTING stored, no commit stamp yet
    | Drawn                             // commit stamp drawn, `end` not yet stored
    | Certify(c: Cert)
    | Stamping(j: nat, k: StampPoint)
    | Post(i: nat, q: PostPoint)
    | UndoReads(i: nat)
    | UndoWrites(j: nat, cleared: bool)
    | Done
    | Unlisted
    | Gone

  // `cs` is the owner's local copy of the stamp it drew (0 before), the end of its commit block, which
  // begins at `base`; others see only `end`.
  // `decided`, `own`, `marked`, `seen` and `met` are history: whether the transaction passed
  // certification, the records whose head is its unstamped version, those of them whose overwritten
  // version carries its XID, every foreign version it has read, and the stamps of the invisible
  // versions it passed over once it had a high watermark.
  datatype Txn = Txn(slot: nat, state: Status, end: nat, freed: bool, pstamp: nat, sstamp: nat,
                     rset: seq<Vid>, wset: seq<nat>, pc: Pc,
                     cs: nat, base: nat, decided: bool, own: set<nat>, marked: set<nat>, seen: set<Vid>,
                     met: set<nat>)

  // Where the stamp of a version lies: at the commit stamp of its writer, in the log block that ends
  // there, or in any block the writer has filled.
  datatype Stamping = Exact | OneBlock | Spilling

  // What holds for a whole run: whether workers hold positions in the readers bitmaps, how versions
  // are stamped, whether an overwriter leaves its high watermark (SSN) or the stamp of its version
  // (MVOCC), and whether the `sstamp` of a new version is null.  No step changes it.
  datatype Setup = Setup(placed: bool, stamping: Stamping, ssn: bool, clean: bool)

  // `rlist` is the global table from bitmap position to the XID registered there.
  datatype State = State(clock: nat, txns: map<nat, Txn>, recs: map<nat, seq<Ver>>, rlist: map<nat, nat>, setup: Setup)

  ghost predicate Init(s: State) {
    s == State(0, map[], map[], map[], s.setup)
  }

  // The stamps that a version of `x` may receive.
  ghost predicate Within(u: Setup, x: Txn, a: nat) {
    match u.stamping
    case Exact => a == x.cs
    case OneBlock => x.base < a <= x.cs
    case Spilling => 0 < a <= x.cs
  }

  // The stamps that `x` may leave in a version it overwrote.
  ghost predicate Leaves(u: Setup, x: Txn, k: nat) {
    if u.ssn then k == x.sstamp else Within(u, x, k)
  }

  ghost predicate Blank(u: Setup, g: Stamp) {
    u.clean ==> g == Null
  }

  // ----- lookups -----

  ghost predicate Has(s: State, v: Vid) {
    v.o in s.recs && v.i < |s.recs[v.o]|
  }

  function At(s: State, v: Vid): Ver
    requires Has(s, v)
  {
    s.recs[v.o][v.i]
  }

  ghost predicate Stamped(s: State, v: Vid) {
    Has(s, v) && At(s, v).clsn.Lsn?
  }

  // Transaction `w` created the version linked directly above `v`.
  ghost predicate Overwrites(s: State, v: Vid, w: nat) {
    v.o in s.recs && v.i + 1 < |s.recs[v.o]| && s.recs[v.o][v.i + 1].writer == w
  }

  // Whether `o` already has a version of `x` in its chain or is about to be listed.
  ghost predicate Touches(x: Txn, o: nat) {
    o in x.wset || (x.pc.Updating? && x.pc.o == o)
  }

  function SetTxn(s: State, t: nat, x: Txn): State {
    s.(txns := s.txns[t := x])
  }

  function SetPc(s: State, t: nat, pc: Pc): State
    requires t in s.txns
  {
    SetTxn(s, t, s.txns[t].(pc := pc))
  }

  function SetVer(s: State, v: Vid, ver: Ver): State
    requires Has(s, v)
  {
    s.(recs := s.recs[v.o := s.recs[v.o][v.i := ver]])
  }

  // ----- steps shared by all certifiers -----

  function FreshTxn(q: nat): Txn {
    Txn(q, Active, 0, false, 0, 0, [], [], Idle, 0, 0, false, {}, {}, {}, {})
  }

  // Allocate a context; a certifier that tracks readers also fills position `q` of `rl`.
  ghost predicate Begin(s: State, s': State, t: nat, q: nat, rl: map<nat, nat>) {
    t !in s.txns && s' == SetTxn(s.(rlist := rl), t, FreshTxn(q))
  }

  ghost predicate Insert(s: State, s': State, t: nat, o: nat) {
    exists g :: InsertWith(s, s', t, o, g)
  }

  // `g` is what the `sstamp` of the new version holds.
  ghost predicate InsertWith(s: State, s': State, t: nat, o: nat, g: Stamp) {
    && t in s.txns && s.txns[t].pc == Idle && o !in s.recs && Blank(s.setup, g)
    && var x := s.txns[t];
       s' == s.(recs := s.recs[o := [Ver(t, Xid(t), g, 0, {})]],
                txns := s.txns[t := x.(wset := x.wset + [o], own := x.own + {o}, marked := x.marked + {o})])
  }

  // The compare-and-swap of an update over a stamped head.
  ghost predicate Install(s: State, s': State, t: nat, o: nat) {
    exists g :: InstallWith(s, s', t, o, g)
  }

  ghost predicate InstallWith(s: State, s': State, t: nat, o: nat, g: Stamp) {
    && t in s.txns && s.txns[t].pc == Idle && o in s.recs && Blank(s.setup, g)
    && var c := s.recs[o];
       && |c| > 0 && c[|c| - 1].clsn.Lsn?
       && s' == s.(recs := s.recs[o := c + [Ver(t, Xid(t), g, 0, {})]],
                   txns := s.txns[t := s.txns[t].(pc := Updating(o, TakeX), own := s.txns[t].own + {o})])
  }

  // Unlink a version that was just installed and is neither marked nor listed.
  ghost predicate TakeBack(s: State, s': State, t: nat) {
    && t in s.txns && s.txns[t].pc.Updating? && s.txns[t].pc.p == CopyX
    && var x := s.txns[t]; var o := x.pc.o;
       && o in s.recs && |s.recs[o]| > 1
       && s' == SetTxn(s.(recs := s.recs[o := s.recs[o][..|s.recs[o]| - 1]]), t, x.(pc := Doomed, own := x.own - {o}))
  }

  // Publish the updater's XID in the overwritten version.
  ghost predicate MarkSuccessor(s: State, s': State, t: nat) {
    && t in s.txns && s.txns[t].pc.Updating? && s.txns[t].pc.p == MarkS
    && var x := s.txns[t]; var o := x.pc.o;
       && o in s.recs && |s.recs[o]| > 1
       && var v := Vid(o, |s.recs[o]| - 2);
          s' == SetTxn(SetVer(s, v, At(s, v).(sstamp := Xid(t))), t,
                       x.(pc := Updating(o, AddW), marked := x.marked + {o}))
  }

  ghost predicate AddToWriteSet(s: State, s': State, t: nat) {
    && t in s.txns && s.txns[t].pc.Updating? && s.txns[t].pc.p == AddW
    && var x := s.txns[t];
       s' == SetTxn(s, t, x.(pc := Idle, wset := x.wset + [x.pc.o]))
  }

  ghost predicate EnterCommit(s: State, s': State, t: nat) {
    && t in s.txns && s.txns[t].pc == Idle
    && s' == SetTxn(s, t, s.txns[t].(pc := Entered, state := Committing))
  }

  // `pre_commit` hands out an offset above every earlier one.
  ghost predicate Draw(s: State, s': State, t: nat, n: nat) {
    && t in s.txns && s.txns[t].pc == Entered && n > s.clock
    && s' == SetTxn(s.(clock := n), t, s.txns[t].(pc := Drawn, cs := n, base := s.clock))
  }

  ghost predicate Publish(s: State, s': State, t: nat) {
    && t in s.txns && s.txns[t].pc == Drawn
    && s' == SetTxn(s, t, s.txns[t].(pc := Certify(InitS), end := s.txns[t].cs))
  }

  // One load or test of the check of read `i` that every certifier performs alike.
  ghost predicate Probe(s: State, s': State, t: nat) {
    && t in s.txns && s.txns[t].pc.Certify?
    && var x := s.txns[t];
       match x.pc.c
       case Load(i) =>
         && i < |x.rset| && Has(s, x.rset[i])
         && var sc := At(s, x.rset[i]).sstamp;
            && !sc.Lsn?
            && s' == SetPc(s, t, Certify(if sc.Null? then Load(i + 1) else Owner(i, sc.t)))
       case Owner(i, u) =>
         s' == SetPc(s, t, Certify(if u !in s.txns || s.txns[u].freed then Load(i)
                                   else if u == t then Load(i + 1)
                                   else State1(i, u)))
       case State1(i, u) =>
         u in s.txns && s' == SetPc(s, t, Certify(Verify1(i, u, s.txns[u].state)))
       case Verify1(i, u, st) =>
         && u in s.txns
         && s' == SetPc(s, t, Certify(if s.txns[u].freed then Load(i) else if st == Active then Load(i + 1)
             else End(i, u)))
       case End(i, u) =>
         u in s.txns && s' == SetPc(s, t, Certify(State2(i, u, s.txns[u].end)))
       case State2(i, u, e) =>
         u in s.txns && s' == SetPc(s, t, Certify(Verify2(i, u, e, s.txns[u].state)))
       case Verify2(i, u, e, st) =>
         && u in s.txns
         && (s.txns[u].freed || st == Abrtd || e == 0 || e > x.cs)
         && s' == SetPc(s, t, Certify(if s.txns[u].freed then Load(i)
                                      else if st == Abrtd then Load(i + 1)
                                      else if e == 0 then End(i, u)
                                      else Load(i + 1)))
       case _ => false
  }

  // Certification passed; `log->commit` makes the outcome final.
  ghost predicate Decide(s: State, s': State, t: nat) {
    && t in s.txns && s.txns[t].pc == Certify(Final)
    && s' == SetTxn(s, t, s.txns[t].(pc := Stamping(0, WriteS), decided := true))
  }

  ghost predicate StampSuccessor(s: State, s': State, t: nat) {
    exists k :: StampSuccessorWith(s, s', t, k)
  }

  ghost predicate StampSuccessorWith(s: State, s': State, t: nat, k: nat) {
    && t in s.txns && s.txns[t].pc.Stamping? && s.txns[t].pc.k == WriteS && Leaves(s.setup, s.txns[t], k)
    && var x := s.txns[t]; var j := x.pc.j;
       && j < |x.wset| && x.wset[j] in s.recs
       && var o := x.wset[j]; var l := |s.recs[o]|;
          var x' := x.(pc := Stamping(j, WriteX), marked := x.marked - {o});
          if l > 1 then
            s' == SetTxn(SetVer(s, Vid(o, l - 2), At(s, Vid(o, l - 2)).(sstamp := Lsn(k))), t, x')
          else
            s' == SetTxn(s, t, x')
  }

  ghost predicate StampClsn(s: State, s': State, t: nat) {
    exists a :: StampClsnWith(s, s', t, a)
  }

  ghost predicate StampClsnWith(s: State, s': State, t: nat, a: nat) {
    && t in s.txns && s.txns[t].pc.Stamping? && s.txns[t].pc.k == WriteC && Within(s.setup, s.txns[t], a)
    && var x := s.txns[t]; var j := x.pc.j;
       && j < |x.wset| && x.wset[j] in s.recs && |s.recs[x.wset[j]]| > 0
       && var o := x.wset[j]; var v := Vid(o, |s.recs[o]| - 1);
          s' == SetTxn(SetVer(s, v, At(s, v).(clsn := Lsn(a))), t,
                       x.(pc := Stamping(j + 1, WriteS), own := x.own - {o}))
  }

  ghost predicate SetCommitted(s: State, s': State, t: nat) {
    && t in s.txns && s.txns[t].pc == Stamping(|s.txns[t].wset|, WriteS)
    && s' == SetTxn(s, t, s.txns[t].(pc := Post(0, PLoad), state := Cmmtd))
  }

  // A transaction may give up between operations or anywhere in certification.
  ghost predicate StartAbort(s: State, s': State, t: nat) {
    && t in s.txns && (s.txns[t].pc == Idle || s.txns[t].pc == Doomed || s.txns[t].pc == Entered
        || s.txns[t].pc.Certify?)
    && s' == SetTxn(s, t, s.txns[t].(pc := UndoReads(0), state := Abrtd))
  }

  ghost predicate UndoSuccessor(s: State, s': State, t: nat) {
    && t in s.txns && s.txns[t].pc.UndoWrites? && !s.txns[t].pc.cleared
    && var x := s.txns[t]; var j := x.pc.j;
       && j < |x.wset| && x.wset[j] in s.recs
       && var o := x.wset[j]; var l := |s.recs[o]|;
          var x' := x.(pc := UndoWrites(j, true), marked := x.marked - {o});
          if l > 1 then
            s' == SetTxn(SetVer(s, Vid(o, l - 2), At(s, Vid(o, l - 2)).(sstamp := Null)), t, x')
          else
            s' == SetTxn(s, t, x')
  }

  ghost predicate Unlink(s: State, s': State, t: nat) {
    && t in s.txns && s.txns[t].pc.UndoWrites? && s.txns[t].pc.cleared
    && var x := s.txns[t]; var j := x.pc.j;
       && j < |x.wset| && x.wset[j] in s.recs && |s.recs[x.wset[j]]| > 0
       && var o := x.wset[j]; var c := s.recs[o];
          s' == SetTxn(s.(recs := s.recs[o := c[..|c| - 1]]), t,
                       x.(pc := UndoWrites(j + 1, false), own := x.own - {o}))
  }

  ghost predicate EndAbort(s: State, s': State, t: nat) {
    && t in s.txns && s.txns[t].pc == UndoWrites(|s.txns[t].wset|, false)
    && s' == SetPc(s, t, Done)
  }

  // Give the context back; from here on `verify_owner` fails.
  ghost predicate Free(s: State, s': State, t: nat) {
    && t in s.txns && (s.txns[t].pc == Done || s.txns[t].pc == Unlisted)
    && s' == SetTxn(s, t, s.txns[t].(pc := Gone, freed := true))
  }

  // ----- the engine invariant -----

  // What a transaction's program point says about its own fields.
  ghost predicate TxnInv(x: Txn, clock: nat) {
    && x.cs <= clock && (x.end == 0 || x.end == x.cs) && (x.cs > 0 ==> x.base < x.cs)
    && NoDup(x.wset)
    && x.freed == x.pc.Gone?
    && match x.pc
       case Idle => x.state == Active && x.cs == 0 && !x.decided && x.own == x.marked == Elems(x.wset)
       case Reading(_, _) => x.state == Active && x.cs == 0 && !x.decided && x.own == x.marked == Elems(x.wset)
       case Updating(o, p) =>
         && x.state == Active && x.cs == 0 && !x.decided && o !in x.wset
         && x.own == Elems(x.wset) + {o}
         && x.marked == (if p == AddW then x.own else Elems(x.wset))
       case Doomed => x.state == Active && x.cs == 0 && !x.decided && x.own == x.marked == Elems(x.wset)
       case Entered => x.state == Committing && x.cs == 0 && !x.decided && x.own == x.marked == Elems(x.wset)
       case Drawn =>
         x.state == Committing && x.cs > 0 && x.end == 0 && !x.decided && x.own == x.marked == Elems(x.wset)
       case Certify(_) =>
         x.state == Committing && x.end == x.cs > 0 && !x.decided && x.own == x.marked == Elems(x.wset)
       case Stamping(j, k) =>
         && x.state == Committing && x.end == x.cs > 0 && x.decided
         && j <= |x.wset| && (k == WriteS || j < |x.wset|)
         && x.own == Elems(x.wset[j..])
         && x.marked == (if k == WriteS then x.own else Elems(x.wset[j + 1..]))
       case Post(_, _) => x.state == Cmmtd && x.end == x.cs > 0 && x.decided && x.own == x.marked == {}
       case UndoReads(_) => x.state == Abrtd && !x.decided && x.own == x.marked == Elems(x.wset)
       case UndoWrites(j, cleared) =>
         && x.state == Abrtd && !x.decided && j <= |x.wset| && (!cleared || j < |x.wset|)
         && x.own == Elems(x.wset[j..])
         && x.marked == (if cleared then Elems(x.wset[j + 1..]) else x.own)
       case _ =>
         && (x.state == Cmmtd || x.state == Abrtd)
         && x.decided == (x.state == Cmmtd) && (x.decided ==> x.end == x.cs > 0)
         && x.own == x.marked == {}
  }

  // What the `sstamp` of version `i` of record `o` holds, given the version above it.
  ghost predicate SuccessorInv(s: State, o: nat, i: nat)
    requires o in s.recs && i < |s.recs[o]|
  {
    var g := s.recs[o][i].sstamp;
    if i + 1 == |s.recs[o]| || s.recs[o][i + 1].writer !in s.txns then Blank(s.setup, g)
    else
      var w := s.recs[o][i + 1].writer;
      var n := s.txns[w];
      if o in n.marked then g == Xid(w)
      else if n.decided then g.Lsn? && Leaves(s.setup, n, g.n)
      else Blank(s.setup, g)
  }

  ghost predicate VerInv(s: State, o: nat, i: nat)
    requires o in s.recs && i < |s.recs[o]|
  {
    var c := s.recs[o];
    var v := c[i];
    && v.writer in s.txns
    && Touches(s.txns[v.writer], o)
    && !v.clsn.Null?
    && (v.clsn.Lsn? ==>
          && s.txns[v.writer].decided && Within(s.setup, s.txns[v.writer], v.clsn.n)
          && o !in s.txns[v.writer].own)
    && (v.clsn.Xid? ==> v.clsn.t == v.writer && i + 1 == |c| && o in s.txns[v.writer].own)
    && (i + 1 < |c| ==>
          && c[i + 1].writer in s.txns
          && (s.txns[c[i + 1].writer].cs == 0 || (v.clsn.Lsn? && s.txns[v.writer].cs < s.txns[c[i + 1].writer].cs)))
    && SuccessorInv(s, o, i)
  }

  ghost predicate OwnInv(s: State, t: nat)
    requires t in s.txns
  {
    forall o :: o in s.txns[t].own ==>
      o in s.recs && |s.recs[o]| > 0 && s.recs[o][|s.recs[o]| - 1].clsn == Xid(t)
  }

  ghost predicate Distinct(s: State) {
    forall t, u :: t in s.txns && u in s.txns && t != u && s.txns[t].cs > 0 ==> s.txns[t].cs != s.txns[u].cs
  }

  ghost predicate Base(s: State) {
    && (forall t :: t in s.txns ==> TxnInv(s.txns[t], s.clock))
    && (forall t :: t in s.txns ==> OwnInv(s, t))
    && (forall o, i :: o in s.recs && 0 <= i < |s.recs[o]| ==> VerInv(s, o, i))
    && Distinct(s)
  }

  // The part of TxnInv that other transactions rely on.
  ghost predicate Sane(s: State) {
    forall t :: t in s.txns ==> SaneTxn(s.txns[t], s.clock)
  }

  ghost predicate SaneTxn(x: Txn, clock: nat) {
    && x.cs <= clock && (x.end == 0 || x.end == x.cs)
    && (x.cs > 0 ==> x.state != Active) && (x.decided ==> x.cs > 0 && x.state != Abrtd)
    && (x.pc.Certify? ==> x.cs > 0 && !x.decided && x.own == Elems(x.wset))
    && (x.state == Cmmtd ==> x.decided)
  }

  lemma BaseIsSane(s: State)
    requires Base(s)
    ensures Sane(s)
  {
    forall t | t in s.txns ensures SaneTxn(s.txns[t], s.clock) { assert TxnInv(s.txns[t], s.clock); }
  }

  // ----- what one step may change for everybody else -----

  // A transaction's life is monotone: `x'` is `x` after one more step by anyone.
  ghost predicate Grows(x: Txn, x': Txn, clock: nat) {
    && (x.cs > 0 ==> x'.cs == x.cs && x'.base == x.base) && (x'.cs != x.cs ==> x'.cs > clock)
    && (x.end > 0 ==> x'.end == x.end)
    && (x.decided ==> x'.decided && x'.sstamp == x.sstamp)
    && (x.state == Abrtd ==> x'.state == Abrtd) && (x.state == Cmmtd ==> x'.state == Cmmtd)
    && (x.state != Active ==> x'.state != Active && x'.rset == x.rset)
    && (x.freed ==> x'.freed)
    && x'.slot == x.slot
    && x.rset <= x'.rset && x.seen <= x'.seen && x.met <= x'.met
  }

  // A stamped version stays, keeps its identity, and only gains access stamps and foreign reader
  // bits; what is linked above it is as before unless the actor, still without a stamp, put it there.
  ghost predicate Keeps(s: State, s': State, a: nat, o: nat, i: nat)
    requires o in s.recs && i < |s.recs[o]|
  {
    && a in s'.txns && o in s'.recs && i < |s'.recs[o]|
    && var v, v' := s.recs[o][i], s'.recs[o][i];
       && v'.writer == v.writer && v'.clsn == v.clsn && v'.xstamp >= v.xstamp
       && (s.setup.clean && v.sstamp.Lsn? ==> v'.sstamp == v.sstamp)
       && (forall q :: q in v.readers && q != s'.txns[a].slot ==> q in v'.readers)
       && (i + 1 < |s'.recs[o]| ==>
             var w := s'.recs[o][i + 1].writer;
             || (i + 1 < |s.recs[o]| && s.recs[o][i + 1].writer == w)
             || (w == a && s'.txns[a].cs == 0))
  }

  ghost predicate Wrote(s: State, u: nat, o: nat, i: nat) {
    o in s.recs && i < |s.recs[o]| && s.recs[o][i].writer == u
  }

  ghost predicate HeadKept(s: State, s': State, o: nat) {
    && o in s.recs && o in s'.recs && |s'.recs[o]| == |s.recs[o]| > 0
    && s'.recs[o][|s.recs[o]| - 1] == s.recs[o][|s.recs[o]| - 1]
  }

  ghost predicate Evolve(s: State, s': State, a: nat) {
    && a in s'.txns
    && s.clock <= s'.clock && s'.setup == s.setup
    && (forall u :: u in s.txns ==>
          u in s'.txns && (u != a ==> s'.txns[u] == s.txns[u]) && Grows(s.txns[u], s'.txns[u], s.clock))
    && (forall u :: u in s'.txns && u != a ==> u in s.txns)
    && (a !in s.txns ==> s'.txns[a].cs == 0 && s'.txns[a].rset == [] && s'.txns[a].state == Active)
    && (forall u, o, i :: u != a ==> (Wrote(s', u, o, i) <==> Wrote(s, u, o, i)))
    && (forall u, o :: u != a && u in s.txns && o in s.txns[u].own ==> HeadKept(s, s', o))
    && (forall o, i :: o in s.recs && 0 <= i < |s.recs[o]| && s.recs[o][i].clsn.Lsn? ==> Keeps(s, s', a, o, i))
  }

  // ----- the dependency graph of committed transactions -----

  // `a` must come before `b`: `b` read or overwrote what `a` wrote, or `b` overwrote what `a` read.
  ghost predicate Depends(s: State, a: nat, b: nat) {
    && a in s.txns && b in s.txns && a != b && s.txns[a].state == Cmmtd && s.txns[b].state == Cmmtd
    && ((exists v :: v in s.txns[b].seen && Wrote(s, a, v.o, v.i))
        || (exists v: Vid :: Wrote(s, a, v.o, v.i) && Overwrites(s, v, b))
        || (exists v :: v in s.txns[a].seen && Overwrites(s, v, b)))
  }

  ghost function Deps(s: State): Graph {
    set a, b | a in s.txns && b in s.txns && Depends(s, a, b) :: (a, b)
  }

  // The commit stamp of the creator of a version.
  ghost function Born(s: State, v: Vid): nat
    requires Has(s, v)
  {
    if At(s, v).writer in s.txns then s.txns[At(s, v).writer].cs else 0
  }

  // A committed creator's version is stamped, at most with its commit stamp.
  lemma CommittedVersion(s: State, a: nat, v: Vid)
    requires Base(s) && a in s.txns && s.txns[a].state == Cmmtd && Wrote(s, a, v.o, v.i)
    ensures Stamped(s, v) && Born(s, v) == s.txns[a].cs && 0 < At(s, v).clsn.n <= s.txns[a].cs
    ensures s.setup.stamping.Exact? ==> At(s, v).clsn.n == s.txns[a].cs
    ensures s.setup.stamping.OneBlock? ==> s.txns[a].base < At(s, v).clsn.n
  {
    hide OwnInv, Distinct, SuccessorInv;
    assert TxnInv(s.txns[a], s.clock);
    assert VerInv(s, v.o, v.i);
  }

  ghost function CommitStamps(s: State): map<nat, nat> { map t | t in s.txns :: s.txns[t].cs }

  // A stamped version keeps its stamp and its creator.
  lemma BornKept(s: State, s': State, a: nat, v: Vid)
    requires Evolve(s, s', a) && Base(s) && Stamped(s, v)
    ensures Stamped(s', v) && At(s', v).clsn == At(s, v).clsn && Born(s', v) == Born(s, v)
    ensures At(s', v).xstamp >= At(s, v).xstamp && 0 < Born(s, v) <= s.clock
  {
    hide OwnInv, Distinct, SuccessorInv;
    assert VerInv(s, v.o, v.i);
    assert TxnInv(s.txns[At(s, v).writer], s.clock);
    assert Keeps(s, s', a, v.o, v.i);
    assert Grows(s.txns[At(s, v).writer], s'.txns[At(s, v).writer], s.clock);
  }

  // ----- local steps: no chain and no ownership changes -----

  // The actor keeps everything that records depend on.
  ghost predicate SameFace(x: Txn, x': Txn) {
    && x'.cs == x.cs && x'.base == x.base && x'.decided == x.decided && x'.own == x.own && x'.marked == x.marked
    && (x.decided ==> x'.sstamp == x.sstamp)
    && (forall o :: Touches(x, o) ==> Touches(x', o))
  }

  // Versions keep everything but access stamps and reader bits.
  ghost predicate SameChains(s: State, s': State, t: nat)
    requires t in s.txns
  {
    && s'.recs.Keys == s.recs.Keys
    && forall o :: o in s.recs ==>
         && |s'.recs[o]| == |s.recs[o]|
         && forall i :: 0 <= i < |s.recs[o]| ==> SameVer(s.recs[o][i], s'.recs[o][i], t, s.txns[t].slot)
  }

  ghost predicate SameVer(v: Ver, v': Ver, t: nat, slot: nat) {
    && v'.writer == v.writer && v'.clsn == v.clsn && v'.sstamp == v.sstamp
    && (v.clsn.Lsn? ==> v'.xstamp >= v.xstamp)
    && (v.clsn.Xid? && v.clsn.t != t ==> v' == v)
    && (forall q :: q in v.readers && q != slot ==> q in v'.readers)
  }

  ghost predicate Local(s: State, s': State, t: nat) {
    && t in s.txns && t in s'.txns && s'.clock == s.clock && s'.setup == s.setup
    && s'.txns == s.txns[t := s'.txns[t]]
    && SameFace(s.txns[t], s'.txns[t]) && Grows(s.txns[t], s'.txns[t], s.clock)
    && SameChains(s, s', t)
  }

  lemma LocalVer(s: State, s': State, t: nat, o: nat, i: nat)
    requires Local(s, s', t) && o in s.recs && i < |s.recs[o]|
    requires VerInv(s, o, i)
    ensures o in s'.recs && i < |s'.recs[o]| && VerInv(s', o, i)
  {
    assert SameVer(s.recs[o][i], s'.recs[o][i], t, s.txns[t].slot);
    if i + 1 < |s.recs[o]| {
      assert SameVer(s.recs[o][i + 1], s'.recs[o][i + 1], t, s.txns[t].slot);
    }
  }

  lemma LocalKeeps(s: State, s': State, t: nat, o: nat, i: nat)
    requires Local(s, s', t) && o in s.recs && i < |s.recs[o]| && s.recs[o][i].clsn.Lsn?
    ensures Keeps(s, s', t, o, i)
  {
    assert SameVer(s.recs[o][i], s'.recs[o][i], t, s.txns[t].slot);
    if i + 1 < |s.recs[o]| {
      assert SameVer(s.recs[o][i + 1], s'.recs[o][i + 1], t, s.txns[t].slot);
    }
  }

  lemma LocalEvolves(s: State, s': State, t: nat)
    requires Local(s, s', t) && forall u :: u in s.txns ==> OwnInv(s, u)
    ensures Evolve(s, s', t)
  {
    forall u, o | u != t && u in s.txns && o in s.txns[u].own ensures HeadKept(s, s', o) {
      assert OwnInv(s, u);
      assert SameVer(s.recs[o][|s.recs[o]| - 1], s'.recs[o][|s.recs[o]| - 1], t, s.txns[t].slot);
    }
    forall o, i | o in s.recs && 0 <= i < |s.recs[o]| && s.recs[o][i].clsn.Lsn?
      ensures Keeps(s, s', t, o, i)
    {
      LocalKeeps(s, s', t, o, i);
    }
  }

  lemma LocalOwn(s: State, s': State, t: nat, u: nat)
    requires Local(s, s', t) && u in s.txns && OwnInv(s, u)
    ensures OwnInv(s', u)
  {
    forall o | o in s'.txns[u].own
      ensures o in s'.recs && |s'.recs[o]| > 0 && s'.recs[o][|s'.recs[o]| - 1].clsn == Xid(u)
    {
      assert SameVer(s.recs[o][|s.recs[o]| - 1], s'.recs[o][|s.recs[o]| - 1], t, s.txns[t].slot);
    }
  }

  lemma LocalKeepsBase(s: State, s': State, t: nat)
    requires Base(s) && Local(s, s', t) && TxnInv(s'.txns[t], s'.clock)
    ensures Base(s')
  {
    forall u | u in s'.txns ensures OwnInv(s', u) { LocalOwn(s, s', t, u); }
    forall o, i | o in s'.recs && 0 <= i < |s'.recs[o]| ensures VerInv(s', o, i) {
      LocalVer(s, s', t, o, i);
    }
  }

  // A step that stores only in the actor's own context.
  lemma StoreKeepsBase(s: State, s': State, t: nat, x: Txn)
    requires Base(s) && t in s.txns && s' == SetTxn(s, t, x)
    requires SameFace(s.txns[t], x) && Grows(s.txns[t], x, s.clock) && TxnInv(x, s.clock)
    ensures Base(s') && Evolve(s, s', t)
  {
    assert s'.txns == s.txns[t := s'.txns[t]];
    LocalKeepsBase(s, s', t);
    LocalEvolves(s, s', t);
  }

  // ----- the remaining engine steps keep the invariant -----

  // `x'` looks like `x` to record `o`.
  ghost predicate FaceAt(x: Txn, x': Txn, o: nat) {
    && x'.cs == x.cs && x'.base == x.base && x'.decided == x.decided && (x.decided ==> x'.sstamp == x.sstamp)
    && (o in x'.own <==> o in x.own) && (o in x'.marked <==> o in x.marked)
    && (Touches(x, o) ==> Touches(x', o))
  }

  // A record none of whose writers changed its face keeps its invariant.
  lemma VerFrame(s: State, s': State, o: nat, i: nat)
    requires o in s.recs && i < |s.recs[o]| && o in s'.recs && s'.recs[o] == s.recs[o] && s'.setup == s.setup
    requires forall u :: u in s.txns ==> u in s'.txns && FaceAt(s.txns[u], s'.txns[u], o)
    requires VerInv(s, o, i)
    ensures VerInv(s', o, i)
  {
  }

  lemma OwnFrame(s: State, s': State, u: nat, o: nat)
    requires u in s.txns && OwnInv(s, u)
    requires u in s'.txns && s'.txns[u].own <= s.txns[u].own + {o}
    requires forall o' :: o' in s.recs && o' != o ==> o' in s'.recs && s'.recs[o'] == s.recs[o']
    requires o in s'.txns[u].own ==> o in s'.recs && |s'.recs[o]| > 0 && s'.recs[o][|s'.recs[o]| - 1].clsn == Xid(u)
    ensures OwnInv(s', u)
  {
  }

  lemma BeginKeepsBase(s: State, s': State, t: nat, q: nat, rl: map<nat, nat>)
    requires Base(s) && Begin(s, s', t, q, rl)
    ensures Base(s')
  {
    hide VerInv, OwnInv;
    forall o, i | o in s'.recs && 0 <= i < |s'.recs[o]| ensures VerInv(s', o, i) {
      assert VerInv(s, o, i);
      BeginVer(s, s', t, q, rl, o, i);
    }
    forall u | u in s'.txns ensures OwnInv(s', u) { BeginOwns(s, s', t, q, rl, u); }
  }

  lemma BeginOwns(s: State, s': State, t: nat, q: nat, rl: map<nat, nat>, u: nat)
    requires Begin(s, s', t, q, rl) && u in s'.txns && (u != t ==> OwnInv(s, u))
    ensures OwnInv(s', u)
  {
    if u != t { OwnFrame(s, s', u, 0); }
  }

  lemma BeginVer(s: State, s': State, t: nat, q: nat, rl: map<nat, nat>, o: nat, i: nat)
    requires Begin(s, s', t, q, rl) && o in s.recs && i < |s.recs[o]| && VerInv(s, o, i)
    ensures VerInv(s', o, i)
  {
    VerFrame(s, s', o, i);
  }

  lemma KeepsFrame(s: State, s': State, a: nat, o: nat, i: nat)
    requires a in s'.txns && o in s.recs && i < |s.recs[o]| && s.recs[o][i].clsn.Lsn?
    requires o in s'.recs && s'.recs[o] == s.recs[o]
    ensures Keeps(s, s', a, o, i)
  {
  }

  lemma BeginEvolves(s: State, s': State, t: nat, q: nat, rl: map<nat, nat>)
    requires Begin(s, s', t, q, rl) && forall u :: u in s.txns ==> OwnInv(s, u)
    ensures Evolve(s, s', t)
  {
    forall o, i | o in s.recs && 0 <= i < |s.recs[o]| && s.recs[o][i].clsn.Lsn?
      ensures Keeps(s, s', t, o, i)
    {
      KeepsFrame(s, s', t, o, i);
    }
  }

  lemma DrawVer(s: State, s': State, t: nat, n: nat, o: nat, i: nat)
    requires Draw(s, s', t, n) && o in s.recs && i < |s.recs[o]|
    requires VerInv(s, o, i) && !s.txns[t].decided
    requires i + 1 < |s.recs[o]| ==> VerInv(s, o, i + 1)
    requires s.recs[o][i].writer in s.txns ==> s.txns[s.recs[o][i].writer].cs <= s.clock
    ensures VerInv(s', o, i)
  {
  }

  lemma DrawTxns(s: State, s': State, t: nat, n: nat)
    requires Base(s) && Draw(s, s', t, n)
    ensures t in s.txns && !s.txns[t].decided
    ensures forall u :: u in s'.txns ==> u in s.txns && TxnInv(s'.txns[u], s'.clock) && s.txns[u].cs <= s.clock
  {
    hide VerInv, OwnInv, Distinct;
    forall u | u in s.txns ensures TxnInv(s'.txns[u], s'.clock) && s.txns[u].cs <= s.clock {
      assert TxnInv(s.txns[u], s.clock);
    }
  }

  lemma DrawShape(s: State, s': State, t: nat, n: nat)
    requires Draw(s, s', t, n)
    ensures s'.recs == s.recs && s'.txns.Keys == s.txns.Keys
    ensures forall u :: u in s.txns ==> s'.txns[u].own == s.txns[u].own
  {
  }

  lemma DrawDistinct(s: State, s': State, t: nat, n: nat)
    requires Distinct(s) && Draw(s, s', t, n) && forall u :: u in s.txns ==> s.txns[u].cs <= s.clock
    ensures Distinct(s')
  {
  }

  lemma DrawKeepsBase(s: State, s': State, t: nat, n: nat)
    requires Base(s) && Draw(s, s', t, n)
    ensures Base(s')
  {
    hide VerInv, OwnInv, TxnInv, Draw;
    DrawTxns(s, s', t, n);
    DrawShape(s, s', t, n);
    DrawDistinct(s, s', t, n);
    forall o, i | o in s'.recs && 0 <= i < |s'.recs[o]| ensures VerInv(s', o, i) {
      assert VerInv(s, o, i);
      if i + 1 < |s.recs[o]| { assert VerInv(s, o, i + 1); }
      DrawVer(s, s', t, n, o, i);
    }
    forall u | u in s'.txns ensures OwnInv(s', u) {
      assert OwnInv(s, u);
      OwnSame(s, s', u);
    }
  }

  lemma DrawEvolves(s: State, s': State, t: nat, n: nat)
    requires Draw(s, s', t, n) && TxnInv(s.txns[t], s.clock) && forall u :: u in s.txns ==> OwnInv(s, u)
    ensures Evolve(s, s', t)
  {
    forall o, i | o in s.recs && 0 <= i < |s.recs[o]| && s.recs[o][i].clsn.Lsn?
      ensures Keeps(s, s', t, o, i)
    {
      KeepsFrame(s, s', t, o, i);
    }
  }

  lemma DecideVer(s: State, s': State, t: nat, o: nat, i: nat)
    requires Decide(s, s', t) && o in s.recs && i < |s.recs[o]|
    requires VerInv(s, o, i) && TxnInv(s.txns[t], s.clock)
    requires i + 1 < |s.recs[o]| ==> VerInv(s, o, i + 1)
    ensures VerInv(s', o, i)
  {
  }

  lemma DecideTxn(s: State, s': State, t: nat)
    requires Decide(s, s', t) && TxnInv(s.txns[t], s.clock)
    ensures TxnInv(s'.txns[t], s'.clock)
  {
    assert s.txns[t].wset[0..] == s.txns[t].wset;
  }

  lemma OwnSame(s: State, s': State, u: nat)
    requires u in s.txns && OwnInv(s, u) && u in s'.txns && s'.txns[u].own == s.txns[u].own && s'.recs == s.recs
    ensures OwnInv(s', u)
  {
  }

  lemma DecideKeepsBase(s: State, s': State, t: nat)
    requires Base(s) && Decide(s, s', t)
    ensures Base(s')
  {
    assert TxnInv(s.txns[t], s.clock);
    DecideTxn(s, s', t);
    hide VerInv, OwnInv, TxnInv;
    forall o, i | o in s'.recs && 0 <= i < |s'.recs[o]| ensures VerInv(s', o, i) {
      assert VerInv(s, o, i);
      if i + 1 < |s.recs[o]| { assert VerInv(s, o, i + 1); }
      DecideVer(s, s', t, o, i);
    }
    forall u | u in s'.txns ensures OwnInv(s', u) {
      assert OwnInv(s, u);
      OwnSame(s, s', u);
    }
  }

  lemma DecideEvolves(s: State, s': State, t: nat)
    requires Decide(s, s', t) && TxnInv(s.txns[t], s.clock) && forall u :: u in s.txns ==> OwnInv(s, u)
    ensures Evolve(s, s', t)
  {
    forall o, i | o in s.recs && 0 <= i < |s.recs[o]| && s.recs[o][i].clsn.Lsn?
      ensures Keeps(s, s', t, o, i)
    {
      KeepsFrame(s, s', t, o, i);
    }
  }

  // ----- steps on one record `o` -----

  // Everything but record `o` and the actor is as before, and the actor changed only towards `o`.
  ghost predicate Touch(s: State, s': State, t: nat, o: nat) {
    && t in s.txns && t in s'.txns && s'.clock == s.clock && s'.setup == s.setup
    && s'.txns == s.txns[t := s'.txns[t]]
    && (forall o' :: o' != o ==> FaceAt(s.txns[t], s'.txns[t], o'))
    && (forall o' :: o' != o ==> (o' in s'.recs <==> o' in s.recs) && (o' in s.recs ==> s'.recs[o'] == s.recs[o']))
    && Grows(s.txns[t], s'.txns[t], s.clock)
  }

  ghost predicate RecInv(s: State, o: nat) {
    o in s.recs ==> forall i :: 0 <= i < |s.recs[o]| ==> VerInv(s, o, i)
  }

  lemma TouchKeepsBase(s: State, s': State, t: nat, o: nat)
    requires Base(s) && Touch(s, s', t, o)
    requires TxnInv(s'.txns[t], s.clock) && s'.txns[t].cs == s.txns[t].cs
    requires RecInv(s', o)
    requires forall u :: u in s'.txns && o in s'.txns[u].own ==>
               o in s'.recs && |s'.recs[o]| > 0 && s'.recs[o][|s'.recs[o]| - 1].clsn == Xid(u)
    ensures Base(s')
  {
    forall o', i | o' in s'.recs && 0 <= i < |s'.recs[o']| ensures VerInv(s', o', i) {
      if o' != o {
        TouchFrame(s, s', t, o, o', i);
      }
    }
    forall u | u in s'.txns ensures OwnInv(s', u) {
      forall o' | o' in s'.txns[u].own && o' !in s.txns[u].own ensures o' == o {
        assert o' != o ==> FaceAt(s.txns[t], s'.txns[t], o');
      }
      OwnFrame(s, s', u, o);
    }
  }

  lemma TouchFrame(s: State, s': State, t: nat, o: nat, o': nat, i: nat)
    requires Touch(s, s', t, o) && o' != o && o' in s.recs && i < |s.recs[o']|
    requires VerInv(s, o', i)
    ensures o' in s'.recs && i < |s'.recs[o']| && VerInv(s', o', i)
  {
    assert FaceAt(s.txns[t], s'.txns[t], o');
    VerFrame(s, s', o', i);
  }

  lemma TouchEvolves(s: State, s': State, t: nat, o: nat)
    requires Touch(s, s', t, o)
    requires forall u, i :: u != t ==> (Wrote(s', u, o, i) <==> Wrote(s, u, o, i))
    requires forall u :: u in s.txns && u != t ==> o !in s.txns[u].own && OwnInv(s, u)
    requires o in s.recs ==> forall i :: 0 <= i < |s.recs[o]| && s.recs[o][i].clsn.Lsn? ==> Keeps(s, s', t, o, i)
    ensures Evolve(s, s', t)
  {
    forall o', i | o' in s.recs && 0 <= i < |s.recs[o']| && s.recs[o'][i].clsn.Lsn?
      ensures Keeps(s, s', t, o', i)
    {
      if o' != o { KeepsFrame(s, s', t, o', i); }
    }
  }

  lemma InsertKeeps(s: State, s': State, t: nat, o: nat)
    requires Base(s) && Insert(s, s', t, o)
    ensures Base(s') && Evolve(s, s', t)
  {
    var x := s.txns[t];
    assert TxnInv(x, s.clock) && OwnInv(s, t);
    forall u | u in s.txns ensures o !in s.txns[u].own { assert OwnInv(s, u); }
    assert Elems(x.wset + [o]) == Elems(x.wset) + {o};
    assert Touch(s, s', t, o);
    TouchKeepsBase(s, s', t, o);
    TouchEvolves(s, s', t, o);
  }

  lemma InstallRec(s: State, s': State, t: nat, o: nat)
    requires Install(s, s', t, o) && RecInv(s, o) && TxnInv(s.txns[t], s.clock) && o !in s.txns[t].own
    ensures RecInv(s', o)
  {
    var c := s.recs[o];
    forall i | 0 <= i < |s'.recs[o]| ensures VerInv(s', o, i) {
      if i < |c| { assert VerInv(s, o, i); }
      if i + 1 < |c| { assert VerInv(s, o, i + 1); }
    }
  }

  lemma InstallKeeps(s: State, s': State, t: nat, o: nat)
    requires Base(s) && Install(s, s', t, o)
    ensures Base(s') && Evolve(s, s', t)
  {
    forall u | u in s.txns ensures o !in s.txns[u].own { assert OwnInv(s, u); }
    assert TxnInv(s.txns[t], s.clock);
    InstallTouch(s, s', t, o);
    InstallRec(s, s', t, o);
    hide VerInv, TxnInv, Keeps, Touch;
    TouchKeeps(s, s', t, o);
  }

  lemma InstallTouch(s: State, s': State, t: nat, o: nat)
    requires Install(s, s', t, o) && TxnInv(s.txns[t], s.clock) && o !in s.txns[t].own
    ensures Touch(s, s', t, o) && TxnInv(s'.txns[t], s.clock)
    ensures forall i :: 0 <= i < |s.recs[o]| && s.recs[o][i].clsn.Lsn? ==> Keeps(s, s', t, o, i)
    ensures forall u, i :: u != t ==> (Wrote(s', u, o, i) <==> Wrote(s, u, o, i))
  {
  }

  lemma TouchKeeps(s: State, s': State, t: nat, o: nat)
    requires Base(s) && Touch(s, s', t, o)
    requires TxnInv(s'.txns[t], s.clock) && s'.txns[t].cs == s.txns[t].cs
    requires RecInv(s', o)
    requires forall u :: u in s'.txns && u != t ==> o !in s'.txns[u].own
    requires o in s'.txns[t].own ==> o in s'.recs && |s'.recs[o]| > 0 && s'.recs[o][|s'.recs[o]| - 1].clsn == Xid(t)
    requires o in s.recs ==> forall i :: 0 <= i < |s.recs[o]| && s.recs[o][i].clsn.Lsn? ==> Keeps(s, s', t, o, i)
    requires forall u, i :: u != t ==> (Wrote(s', u, o, i) <==> Wrote(s, u, o, i))
    ensures Base(s') && Evolve(s, s', t)
  {
    TouchKeepsBase(s, s', t, o);
    TouchEvolves(s, s', t, o);
  }

  // Dropping the entry at `j` from the pending part of a duplicate-free write set.
  lemma DropEntry(w: seq<nat>, j: nat)
    requires NoDup(w) && j < |w|
    ensures Elems(w[j..]) == Elems(w[j + 1..]) + {w[j]} && w[j] !in Elems(w[j + 1..])
  {
    assert w[j..] == [w[j]] + w[j + 1..];
  }

  // Only the transaction whose unstamped version heads `o` owns it.
  lemma SoleOwner(s: State, t: nat, o: nat)
    requires Base(s) && t in s.txns && o in s.txns[t].own
    ensures o in s.recs && |s.recs[o]| > 0
    ensures s.recs[o][|s.recs[o]| - 1].clsn == Xid(t) && s.recs[o][|s.recs[o]| - 1].writer == t
    ensures forall u :: u in s.txns && u != t ==> o !in s.txns[u].own
  {
    assert OwnInv(s, t);
    var l := |s.recs[o]| - 1;
    assert VerInv(s, o, l);
    forall u | u in s.txns && u != t ensures o !in s.txns[u].own { assert OwnInv(s, u); }
  }

  lemma MarkRec(s: State, s': State, t: nat)
    requires MarkSuccessor(s, s', t) && RecInv(s, s.txns[t].pc.o) && TxnInv(s.txns[t], s.clock)
    requires var c := s.recs[s.txns[t].pc.o]; c[|c| - 1].writer == t
    ensures RecInv(s', s.txns[t].pc.o)
  {
    var o := s.txns[t].pc.o;
    forall i | 0 <= i < |s'.recs[o]| ensures VerInv(s', o, i) {
      assert VerInv(s, o, i);
      if i + 1 < |s.recs[o]| { assert VerInv(s, o, i + 1); }
    }
  }

  lemma MarkTouch(s: State, s': State, t: nat, o: nat)
    requires MarkSuccessor(s, s', t) && o == s.txns[t].pc.o && TxnInv(s.txns[t], s.clock) && RecInv(s, o)
    requires s.recs[o][|s.recs[o]| - 1].clsn == Xid(t)
    ensures Touch(s, s', t, o) && TxnInv(s'.txns[t], s.clock)
    ensures forall i :: 0 <= i < |s.recs[o]| && s.recs[o][i].clsn.Lsn? ==> Keeps(s, s', t, o, i)
    ensures forall u, i :: u != t ==> (Wrote(s', u, o, i) <==> Wrote(s, u, o, i))
  {
    assert VerInv(s, o, |s.recs[o]| - 1);
    assert VerInv(s, o, |s.recs[o]| - 2);
  }

  lemma MarkKeeps(s: State, s': State, t: nat)
    requires Base(s) && MarkSuccessor(s, s', t)
    ensures Base(s') && Evolve(s, s', t)
  {
    var o := s.txns[t].pc.o;
    assert TxnInv(s.txns[t], s.clock);
    SoleOwner(s, t, o);
    MarkRec(s, s', t);
    MarkTouch(s, s', t, o);
    TouchKeeps(s, s', t, o);
  }

  lemma StampSuccessorRec(s: State, s': State, t: nat, o: nat)
    requires StampSuccessor(s, s', t) && o == s.txns[t].wset[s.txns[t].pc.j]
    requires RecInv(s, o) && TxnInv(s.txns[t], s.clock)
    requires |s.recs[o]| > 0 && s.recs[o][|s.recs[o]| - 1].writer == t
    ensures RecInv(s', o)
  {
    DropEntry(s.txns[t].wset, s.txns[t].pc.j);
    forall i | 0 <= i < |s'.recs[o]| ensures VerInv(s', o, i) {
      assert VerInv(s, o, i);
      if i + 1 < |s.recs[o]| { assert VerInv(s, o, i + 1); }
    }
  }

  lemma StampSuccessorTouch(s: State, s': State, t: nat, o: nat)
    requires StampSuccessor(s, s', t) && o == s.txns[t].wset[s.txns[t].pc.j] && TxnInv(s.txns[t], s.clock)
    requires |s.recs[o]| > 0 && s.recs[o][|s.recs[o]| - 1].clsn == Xid(t) && RecInv(s, o)
    ensures Touch(s, s', t, o) && TxnInv(s'.txns[t], s.clock)
    ensures forall i :: 0 <= i < |s.recs[o]| && s.recs[o][i].clsn.Lsn? ==> Keeps(s, s', t, o, i)
    ensures forall u, i :: u != t ==> (Wrote(s', u, o, i) <==> Wrote(s, u, o, i))
  {
    DropEntry(s.txns[t].wset, s.txns[t].pc.j);
    assert VerInv(s, o, |s.recs[o]| - 1);
    if |s.recs[o]| > 1 { assert VerInv(s, o, |s.recs[o]| - 2); }
  }

  lemma StampSuccessorKeeps(s: State, s': State, t: nat)
    requires Base(s) && StampSuccessor(s, s', t)
    ensures Base(s') && Evolve(s, s', t)
  {
    var x := s.txns[t];
    var o := x.wset[x.pc.j];
    assert TxnInv(x, s.clock);
    DropEntry(x.wset, x.pc.j);
    SoleOwner(s, t, o);
    StampSuccessorRec(s, s', t, o);
    StampSuccessorTouch(s, s', t, o);
    TouchKeeps(s, s', t, o);
  }

  lemma StampClsnRec(s: State, s': State, t: nat, o: nat)
    requires StampClsn(s, s', t) && o == s.txns[t].wset[s.txns[t].pc.j]
    requires RecInv(s, o) && TxnInv(s.txns[t], s.clock)
    requires s.recs[o][|s.recs[o]| - 1].writer == t
    ensures RecInv(s', o)
  {
    DropEntry(s.txns[t].wset, s.txns[t].pc.j);
    forall i | 0 <= i < |s'.recs[o]| ensures VerInv(s', o, i) {
      assert VerInv(s, o, i);
      if i + 1 < |s.recs[o]| { assert VerInv(s, o, i + 1); }
    }
  }

  lemma StampClsnTouch(s: State, s': State, t: nat, o: nat)
    requires StampClsn(s, s', t) && o == s.txns[t].wset[s.txns[t].pc.j] && TxnInv(s.txns[t], s.clock)
    requires |s.recs[o]| > 0 && s.recs[o][|s.recs[o]| - 1].clsn == Xid(t) && RecInv(s, o)
    ensures Touch(s, s', t, o) && TxnInv(s'.txns[t], s.clock)
    ensures forall i :: 0 <= i < |s.recs[o]| && s.recs[o][i].clsn.Lsn? ==> Keeps(s, s', t, o, i)
    ensures forall u, i :: u != t ==> (Wrote(s', u, o, i) <==> Wrote(s, u, o, i))
  {
    DropEntry(s.txns[t].wset, s.txns[t].pc.j);
    assert VerInv(s, o, |s.recs[o]| - 1);
    if |s.recs[o]| > 1 { assert VerInv(s, o, |s.recs[o]| - 2); }
  }

  lemma StampClsnKeeps(s: State, s': State, t: nat)
    requires Base(s) && StampClsn(s, s', t)
    ensures Base(s') && Evolve(s, s', t)
  {
    var x := s.txns[t];
    var o := x.wset[x.pc.j];
    assert TxnInv(x, s.clock);
    DropEntry(x.wset, x.pc.j);
    SoleOwner(s, t, o);
    StampClsnRec(s, s', t, o);
    StampClsnTouch(s, s', t, o);
    TouchKeeps(s, s', t, o);
  }

  lemma UndoSuccessorRec(s: State, s': State, t: nat, o: nat)
    requires UndoSuccessor(s, s', t) && o == s.txns[t].wset[s.txns[t].pc.j]
    requires RecInv(s, o) && TxnInv(s.txns[t], s.clock)
    requires |s.recs[o]| > 0 && s.recs[o][|s.recs[o]| - 1].writer == t
    ensures RecInv(s', o)
  {
    DropEntry(s.txns[t].wset, s.txns[t].pc.j);
    forall i | 0 <= i < |s'.recs[o]| ensures VerInv(s', o, i) {
      assert VerInv(s, o, i);
      if i + 1 < |s.recs[o]| { assert VerInv(s, o, i + 1); }
    }
  }

  lemma UndoSuccessorTouch(s: State, s': State, t: nat, o: nat)
    requires UndoSuccessor(s, s', t) && o == s.txns[t].wset[s.txns[t].pc.j] && TxnInv(s.txns[t], s.clock)
    requires |s.recs[o]| > 0 && s.recs[o][|s.recs[o]| - 1].clsn == Xid(t) && RecInv(s, o)
    ensures Touch(s, s', t, o) && TxnInv(s'.txns[t], s.clock)
    ensures forall i :: 0 <= i < |s.recs[o]| && s.recs[o][i].clsn.Lsn? ==> Keeps(s, s', t, o, i)
    ensures forall u, i :: u != t ==> (Wrote(s', u, o, i) <==> Wrote(s, u, o, i))
  {
    DropEntry(s.txns[t].wset, s.txns[t].pc.j);
    assert VerInv(s, o, |s.recs[o]| - 1);
    if |s.recs[o]| > 1 { assert VerInv(s, o, |s.recs[o]| - 2); }
  }

  lemma UndoSuccessorKeeps(s: State, s': State, t: nat)
    requires Base(s) && UndoSuccessor(s, s', t)
    ensures Base(s') && Evolve(s, s', t)
  {
    var x := s.txns[t];
    var o := x.wset[x.pc.j];
    assert TxnInv(x, s.clock);
    DropEntry(x.wset, x.pc.j);
    SoleOwner(s, t, o);
    UndoSuccessorRec(s, s', t, o);
    UndoSuccessorTouch(s, s', t, o);
    hide VerInv, Keeps, Touch;
    TouchKeeps(s, s', t, o);
  }

  lemma UnlinkRec(s: State, s': State, t: nat, o: nat)
    requires Unlink(s, s', t) && o == s.txns[t].wset[s.txns[t].pc.j]
    requires RecInv(s, o) && TxnInv(s.txns[t], s.clock)
    requires s.recs[o][|s.recs[o]| - 1].writer == t && s.recs[o][|s.recs[o]| - 1].clsn == Xid(t)
    ensures RecInv(s', o)
  {
    DropEntry(s.txns[t].wset, s.txns[t].pc.j);
    forall i | 0 <= i < |s'.recs[o]| ensures VerInv(s', o, i) {
      assert VerInv(s, o, i);
      assert VerInv(s, o, i + 1);
    }
  }

  lemma UnlinkTouch(s: State, s': State, t: nat, o: nat)
    requires Unlink(s, s', t) && o == s.txns[t].wset[s.txns[t].pc.j] && TxnInv(s.txns[t], s.clock)
    requires |s.recs[o]| > 0 && s.recs[o][|s.recs[o]| - 1].clsn == Xid(t) && RecInv(s, o)
    ensures Touch(s, s', t, o) && TxnInv(s'.txns[t], s.clock)
    ensures forall i :: 0 <= i < |s.recs[o]| && s.recs[o][i].clsn.Lsn? ==> Keeps(s, s', t, o, i)
    ensures forall u, i :: u != t ==> (Wrote(s', u, o, i) <==> Wrote(s, u, o, i))
  {
    DropEntry(s.txns[t].wset, s.txns[t].pc.j);
    assert VerInv(s, o, |s.recs[o]| - 1);
    if |s.recs[o]| > 1 { assert VerInv(s, o, |s.recs[o]| - 2); }
  }

  lemma UnlinkKeeps(s: State, s': State, t: nat)
    requires Base(s) && Unlink(s, s', t)
    ensures Base(s') && Evolve(s, s', t)
  {
    var x := s.txns[t];
    var o := x.wset[x.pc.j];
    assert TxnInv(x, s.clock);
    DropEntry(x.wset, x.pc.j);
    SoleOwner(s, t, o);
    UnlinkRec(s, s', t, o);
    UnlinkTouch(s, s', t, o);
    TouchKeeps(s, s', t, o);
  }

  lemma TakeBackRec(s: State, s': State, t: nat, o: nat)
    requires TakeBack(s, s', t) && o == s.txns[t].pc.o && RecInv(s, o) && TxnInv(s.txns[t], s.clock)
    requires s.recs[o][|s.recs[o]| - 1].writer == t && s.recs[o][|s.recs[o]| - 1].clsn == Xid(t)
    ensures RecInv(s', o)
  {
    forall i | 0 <= i < |s'.recs[o]| ensures VerInv(s', o, i) {
      assert VerInv(s, o, i);
      assert VerInv(s, o, i + 1);
    }
  }

  lemma TakeBackTouch(s: State, s': State, t: nat, o: nat)
    requires TakeBack(s, s', t) && o == s.txns[t].pc.o && TxnInv(s.txns[t], s.clock) && RecInv(s, o)
    requires s.recs[o][|s.recs[o]| - 1].clsn == Xid(t)
    ensures Touch(s, s', t, o) && TxnInv(s'.txns[t], s.clock)
    ensures forall i :: 0 <= i < |s.recs[o]| && s.recs[o][i].clsn.Lsn? ==> Keeps(s, s', t, o, i)
    ensures forall u, i :: u != t ==> (Wrote(s', u, o, i) <==> Wrote(s, u, o, i))
  {
    assert VerInv(s, o, |s.recs[o]| - 1);
    assert VerInv(s, o, |s.recs[o]| - 2);
  }

  lemma TakeBackKeeps(s: State, s': State, t: nat)
    requires Base(s) && TakeBack(s, s', t)
    ensures Base(s') && Evolve(s, s', t)
  {
    var o := s.txns[t].pc.o;
    assert TxnInv(s.txns[t], s.clock);
    SoleOwner(s, t, o);
    TakeBackRec(s, s', t, o);
    TakeBackTouch(s, s', t, o);
    hide VerInv, Keeps, Touch;
    TouchKeeps(s, s', t, o);
  }

  // ----- steps that store only in the actor's context -----

  // The actor's new context satisfies its own invariant and looks the same to records.
  ghost predicate Stores(s: State, s': State, t: nat) {
    && t in s.txns && t in s'.txns && s' == SetTxn(s, t, s'.txns[t])
    && SameFace(s.txns[t], s'.txns[t]) && Grows(s.txns[t], s'.txns[t], s.clock) && TxnInv(s'.txns[t], s.clock)
  }

  lemma ProbeStores(s: State, s': State, t: nat)
    requires Probe(s, s', t) && TxnInv(s.txns[t], s.clock)
    ensures Stores(s, s', t)
  {
    hide Probe, Elems, NoDup;
    ProbeShape(s, s', t);
  }

  lemma CommitStepStores(s: State, s': State, t: nat)
    requires AddToWriteSet(s, s', t) || EnterCommit(s, s', t) || Publish(s, s', t)
    requires TxnInv(s.txns[t], s.clock)
    ensures Stores(s, s', t)
  {
    var x := s.txns[t];
    if x.pc.Updating? {
      assert Elems(x.wset + [x.pc.o]) == Elems(x.wset) + {x.pc.o};
    }
  }

  lemma EndStepStores(s: State, s': State, t: nat)
    requires SetCommitted(s, s', t) || StartAbort(s, s', t) || EndAbort(s, s', t) || Free(s, s', t)
    requires TxnInv(s.txns[t], s.clock)
    ensures Stores(s, s', t)
  {
  }

  // ----- what the check of one read finds out -----

  // `w` drew a smaller stamp than `t`, overwrote `v`, and has not aborted.
  ghost predicate Danger(s: State, t: nat, v: Vid, w: nat) {
    && t in s.txns && w in s.txns && w != t
    && Overwrites(s, v, w)
    && 0 < s.txns[w].cs < s.txns[t].cs
    && s.txns[w].state != Abrtd
  }

  // No step makes a new danger for a transaction that has drawn its stamp.
  lemma DangerBack(s: State, s': State, a: nat, t: nat, v: Vid, w: nat)
    requires Evolve(s, s', a) && Stamped(s, v) && t in s.txns && 0 < s.txns[t].cs <= s.clock
    requires Danger(s', t, v, w)
    ensures Danger(s, t, v, w)
  {
    assert Keeps(s, s', a, v.o, v.i);
    assert Grows(s.txns[t], s'.txns[t], s.clock);
  }

  ghost predicate Only(s: State, t: nat, v: Vid, u: nat) {
    forall w :: Danger(s, t, v, w) ==> w == u
  }

  ghost predicate Safe(s: State, t: nat, v: Vid) {
    forall w :: !Danger(s, t, v, w)
  }

  lemma OnlyStable(s: State, s': State, a: nat, t: nat, v: Vid, u: nat)
    requires Evolve(s, s', a) && Stamped(s, v) && t in s.txns && 0 < s.txns[t].cs <= s.clock
    ensures Only(s, t, v, u) ==> Only(s', t, v, u)
    ensures Safe(s, t, v) ==> Safe(s', t, v)
    ensures !Danger(s, t, v, u) ==> !Danger(s', t, v, u)
  {
    forall w | Danger(s', t, v, w) ensures Danger(s, t, v, w) { DangerBack(s, s', a, t, v, w); }
  }

  // What an overwriter's `sstamp` store says: see SuccessorInv.
  lemma LoadedStampAt(s: State, t: nat, v: Vid)
    requires t in s.txns && Stamped(s, v) && VerInv(s, v.o, v.i)
    requires v.i + 1 < |s.recs[v.o]| ==>
               var w := s.recs[v.o][v.i + 1].writer;
               VerInv(s, v.o, v.i + 1) && w in s.txns && TxnInv(s.txns[w], s.clock)
    ensures At(s, v).sstamp.Null? ==> Safe(s, t, v)
    ensures At(s, v).sstamp.Xid? ==>
              Only(s, t, v, At(s, v).sstamp.t) && (s.setup.clean ==> At(s, v).sstamp.t in s.txns)
    ensures At(s, v).sstamp.Lsn? ==>
              forall w :: Danger(s, t, v, w) ==> s.txns[w].decided && Leaves(s.setup, s.txns[w], At(s, v).sstamp.n)
    ensures s.setup.clean && At(s, v).sstamp.Lsn? ==>
              v.i + 1 < |s.recs[v.o]|
              && var w := s.recs[v.o][v.i + 1].writer;
                 && w in s.txns && Overwrites(s, v, w)
                 && s.txns[w].decided && Leaves(s.setup, s.txns[w], At(s, v).sstamp.n) && Only(s, t, v, w)
  {
    if v.i + 1 < |s.recs[v.o]| { UnmarkedMeansSafe(s, v.o, v.i); }
    hide TxnInv, Touches, Within, Leaves;
  }

  lemma LoadedStamp(s: State, t: nat, v: Vid)
    requires Base(s) && t in s.txns && Stamped(s, v)
    ensures At(s, v).sstamp.Null? ==> Safe(s, t, v)
    ensures At(s, v).sstamp.Xid? ==>
              Only(s, t, v, At(s, v).sstamp.t) && (s.setup.clean ==> At(s, v).sstamp.t in s.txns)
    ensures At(s, v).sstamp.Lsn? ==>
              forall w :: Danger(s, t, v, w) ==> s.txns[w].decided && Leaves(s.setup, s.txns[w], At(s, v).sstamp.n)
    ensures s.setup.clean && At(s, v).sstamp.Lsn? ==>
              v.i + 1 < |s.recs[v.o]|
              && var w := s.recs[v.o][v.i + 1].writer;
                 && w in s.txns && Overwrites(s, v, w)
                 && s.txns[w].decided && Leaves(s.setup, s.txns[w], At(s, v).sstamp.n) && Only(s, t, v, w)
  {
    hide Touches, OwnInv, Distinct, SuccessorInv, Within, Leaves, Overwrites;
    assert VerInv(s, v.o, v.i);
    if v.i + 1 < |s.recs[v.o]| {
      assert VerInv(s, v.o, v.i + 1);
      assert TxnInv(s.txns[s.recs[v.o][v.i + 1].writer], s.clock);
    }
    LoadedStampAt(s, t, v);
  }

  lemma UnmarkedMeansSafe(s: State, o: nat, i: nat)
    requires o in s.recs && i + 1 < |s.recs[o]| && VerInv(s, o, i) && VerInv(s, o, i + 1)
    requires var w := s.recs[o][i + 1].writer; w in s.txns && TxnInv(s.txns[w], s.clock)
    ensures var w := s.recs[o][i + 1].writer;
            o !in s.txns[w].marked && !s.txns[w].decided ==> s.txns[w].cs == 0 || s.txns[w].state == Abrtd
  {
  }

  // The facts gathered so far about the overwriter of read `i`.
  ghost predicate ProbeInv(s: State, t: nat, c: Cert)
    requires t in s.txns
  {
    var x := s.txns[t];
    match c
    case Load(i) => i <= |x.rset|
    case Owner(i, u) => i < |x.rset| && (s.setup.clean ==> u in s.txns) && Only(s, t, x.rset[i], u)
    case State1(i, u) => i < |x.rset| && u in s.txns && u != t && Only(s, t, x.rset[i], u)
    case Verify1(i, u, st) =>
      && i < |x.rset| && u in s.txns && u != t && Only(s, t, x.rset[i], u)
      && (st == Active ==> !Danger(s, t, x.rset[i], u))
      && (st != Active ==> s.txns[u].state != Active)
    case End(i, u) => i < |x.rset| && u in s.txns && u != t && Only(s, t, x.rset[i], u) && s.txns[u].state != Active
    case State2(i, u, e) =>
      && i < |x.rset| && u in s.txns && u != t && Only(s, t, x.rset[i], u) && s.txns[u].state != Active
      && (e > 0 ==> e == s.txns[u].end == s.txns[u].cs)
    case Verify2(i, u, e, st) =>
      && i < |x.rset| && u in s.txns && u != t && Only(s, t, x.rset[i], u) && s.txns[u].state != Active
      && (e > 0 ==> e == s.txns[u].end == s.txns[u].cs)
      && (st == Abrtd ==> !Danger(s, t, x.rset[i], u))
      && (st == Cmmtd ==> s.txns[u].state == Cmmtd)
      && st != Active
    case _ => true
  }

  ghost predicate ReadsStamped(s: State, t: nat)
    requires t in s.txns
  {
    forall k :: 0 <= k < |s.txns[t].rset| ==> Stamped(s, s.txns[t].rset[k])
  }

  // Steps of others leave the gathered facts true.
  lemma ProbeStable(s: State, s': State, a: nat, t: nat, c: Cert)
    requires Evolve(s, s', a) && t in s.txns && a != t && ReadsStamped(s, t)
    requires 0 < s.txns[t].cs <= s.clock && ProbeInv(s, t, c)
    ensures t in s'.txns && ProbeInv(s', t, c)
  {
    var x := s.txns[t];
    if c.Owner? { OnlyStable(s, s', a, t, x.rset[c.i], c.u); }
    if (c.State1? || c.Verify1? || c.End? || c.State2? || c.Verify2?) {
      assert Grows(s.txns[c.u], s'.txns[c.u], s.clock);
      OnlyStable(s, s', a, t, x.rset[c.i], c.u);
    }
  }

  // The checker's own loads keep the facts, and moving on from read `i` means it is safe.
  lemma ProbeAdvances(s: State, s': State, t: nat)
    requires Base(s) && Probe(s, s', t) && ReadsStamped(s, t) && ProbeInv(s, t, s.txns[t].pc.c)
    ensures t in s'.txns && s'.txns[t].pc.Certify? && ProbeInv(s', t, s'.txns[t].pc.c)
    ensures var c, c' := s.txns[t].pc.c, s'.txns[t].pc.c;
            c'.Load? ==> c'.i == c.i || (c'.i == c.i + 1 && c.i < |s.txns[t].rset| && Safe(s', t, s.txns[t].rset[c.i]))
  {
    var x := s.txns[t];
    var c := x.pc.c;
    assert TxnInv(x, s.clock);
    var v := x.rset[c.i];
    assert Stamped(s, v);
    ProbeSame(s, s', t, v);
    if c.Load? {
      LoadedStamp(s, t, v);
    } else if c.u in s.txns {
      assert TxnInv(s.txns[c.u], s.clock);
    }
  }

  ghost predicate IsProbe(c: Cert) {
    c.Load? || c.Owner? || c.State1? || c.Verify1? || c.End? || c.State2? || c.Verify2?
  }

  // A probe moves the program point only, within read `i` or to the next read.
  ghost predicate ProbeStep(s: State, s': State, t: nat) {
    && t in s.txns && t in s'.txns && s' == SetTxn(s, t, s.txns[t].(pc := s'.txns[t].pc))
    && s.txns[t].pc.Certify? && s'.txns[t].pc.Certify? && IsProbe(s.txns[t].pc.c) && IsProbe(s'.txns[t].pc.c)
    && var c, c' := s.txns[t].pc.c, s'.txns[t].pc.c; c'.i == c.i || (c'.Load? && c'.i == c.i + 1)
  }

  lemma ProbeShape(s: State, s': State, t: nat)
    requires Probe(s, s', t)
    ensures ProbeStep(s, s', t)
  {
    hide ProbeStep, SetTxn;
    match s.txns[t].pc.c
    case Load(_) => LoadShape(s, s', t);
    case Owner(_, _) => LoadShape(s, s', t);
    case State1(_, _) => LoadShape(s, s', t);
    case Verify1(_, _, _) => LoadShape(s, s', t);
    case _ => VerifyShape(s, s', t);
  }

  lemma LoadShape(s: State, s': State, t: nat)
    requires Probe(s, s', t)
    requires var c := s.txns[t].pc.c; c.Load? || c.Owner? || c.State1? || c.Verify1?
    ensures ProbeStep(s, s', t)
  {
  }

  lemma VerifyShape(s: State, s': State, t: nat)
    requires Probe(s, s', t)
    requires var c := s.txns[t].pc.c; !c.Load? && !c.Owner? && !c.State1? && !c.Verify1?
    ensures ProbeStep(s, s', t)
  {
  }

  lemma ProbeSame(s: State, s': State, t: nat, v: Vid)
    requires Probe(s, s', t)
    ensures t in s'.txns && s'.txns[t].pc.Certify? && s' == SetTxn(s, t, s.txns[t].(pc := s'.txns[t].pc))
    ensures forall w :: Danger(s', t, v, w) <==> Danger(s, t, v, w)
  {
    hide Probe;
    ProbeShape(s, s', t);
  }

  // A step that stores in one version's access stamp or reader bits and in the actor's context.
  lemma VersionStoreKeeps(s: State, s': State, t: nat, v: Vid, ver: Ver, x: Txn)
    requires Base(s) && t in s.txns && Has(s, v) && s' == SetTxn(SetVer(s, v, ver), t, x)
    requires SameVer(At(s, v), ver, t, s.txns[t].slot)
    requires SameFace(s.txns[t], x) && Grows(s.txns[t], x, s.clock) && TxnInv(x, s.clock)
    ensures Base(s') && Evolve(s, s', t)
    ensures forall u, w :: Overwrites(s', w, u) <==> Overwrites(s, w, u)
    ensures forall w :: Stamped(s', w) <==> Stamped(s, w)
  {
    assert s'.txns == s.txns[t := s'.txns[t]];
    VersionStoreChains(s, s', t, v, ver, x);
    hide VerInv, TxnInv, SameChains, SameFace;
    LocalKeepsBase(s, s', t);
    LocalEvolves(s, s', t);
  }

  lemma VersionStoreChains(s: State, s': State, t: nat, v: Vid, ver: Ver, x: Txn)
    requires t in s.txns && Has(s, v) && s' == SetTxn(SetVer(s, v, ver), t, x)
    requires SameVer(At(s, v), ver, t, s.txns[t].slot)
    ensures SameChains(s, s', t)
    ensures forall u, w :: Overwrites(s', w, u) <==> Overwrites(s, w, u)
    ensures forall w :: Stamped(s', w) <==> Stamped(s, w)
  {
    forall o | o in s.recs
      ensures |s'.recs[o]| == |s.recs[o]| && forall i :: 0 <= i < |s.recs[o]| ==>
                SameVer(s.recs[o][i], s'.recs[o][i], t, s.txns[t].slot)
    {
      assert o != v.o ==> s'.recs[o] == s.recs[o];
    }
  }
}
