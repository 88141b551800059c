/**
 What the wait and progress proofs of the certifiers share: which loops a transaction cannot leave
 unless another one moves, and how far it is from the end of a read check.
 */
module EngineProgress {
  import opened Stamps
  import opened Engine

  // ----- waiting -----

  // `u` has not decided yet, so a loop on its state goes round.
  ghost predicate Undecided(s: State, u: nat) {
    u in s.txns && !s.txns[u].freed && s.txns[u].state == Committing
  }

  // `u` is committing but has not stored its stamp, so a loop on its `end` goes round.
  ghost predicate Unpublished(s: State, u: nat) {
    Undecided(s, u) && s.txns[u].end == 0
  }

  // About to publish a stamp: only the draw and the store of `end` are left.
  ghost predicate Publishing(x: Txn) {
    x.pc == Entered || x.pc == Drawn
  }

  lemma UnpublishedPoint(s: State, u: nat)
    requires Base(s) && Unpublished(s, u)
    ensures Publishing(s.txns[u])
  {
    hide VerInv, OwnInv, Distinct;
    assert TxnInv(s.txns[u], s.clock);
  }

  // The loop of the read check on another transaction's `end`.
  ghost predicate ProbeWaits(s: State, c: Cert, u: nat) {
    match c
    case End(_, w) => w == u && Unpublished(s, u)
    case State2(_, w, e) => w == u && e == 0 && Unpublished(s, u)
    case Verify2(_, w, e, st) => w == u && e == 0 && st != Abrtd && Unpublished(s, u)
    case _ => false
  }

  // ----- progress -----

  datatype Rank = Rank(phase: nat, items: nat, words: nat, bits: nat, point: nat)

  ghost predicate Less(a: Rank, b: Rank) {
    || a.phase < b.phase
    || (a.phase == b.phase
        && (|| a.items < b.items
            || (a.items == b.items
                && (|| a.words < b.words
                    || (a.words == b.words
                        && (a.bits < b.bits || (a.bits == b.bits && a.point < b.point)))))))
  }

  function Left(n: nat, i: nat): nat { if i <= n then n - i else 0 }

  ghost predicate Freed(s: State, u: nat) { u in s.txns && s.txns[u].freed }

  ghost predicate Ended(s: State, u: nat) { u in s.txns && s.txns[u].end > 0 }

  // Distance within the check of one read; a freed overwriter sends the check back to the load.
  ghost function ReadPointRank(s: State, c: Cert): nat {
    match c
    case Owner(_, u) => if Freed(s, u) then 21 else 15
    case State1(_, u) => if Freed(s, u) then 23 else 14
    case Verify1(_, u, _) => if Freed(s, u) then 22 else 13
    case End(_, u) => if Freed(s, u) then 26 else 9
    case State2(_, u, e) => if Freed(s, u) then 25 else if e == 0 && Ended(s, u) then 11 else 6
    case Verify2(_, u, e, st) => if Freed(s, u) then 24 else if e == 0 && st != Abrtd then 10 else 5
    case Spin(_, u) => if Freed(s, u) then 26 else 3
    case SpinVerify(_, u, st) => if Freed(s, u) then 25 else if st == Cmmtd || st == Abrtd then 2 else 4
    case TakeS(_, u) => if Freed(s, u) then 26 else 1
    case TakeSVerify(_, u, _) => if Freed(s, u) then 25 else 0
    case _ => 20
  }

  // A context that others look at: once freed it is decided, once committed it has published.
  ghost predicate Coherent(s: State, u: nat) {
    && u in s.txns && s.txns[u].state != Active
    && (s.txns[u].freed ==> s.txns[u].state != Committing)
    && (s.txns[u].state == Cmmtd ==> s.txns[u].end > 0)
  }

  lemma ContextCoherent(s: State, u: nat)
    requires Base(s) && u in s.txns && s.txns[u].state != Active
    ensures Coherent(s, u)
  {
    hide VerInv, OwnInv, Distinct;
    assert TxnInv(s.txns[u], s.clock);
  }

  // An XID found in a version belongs to a context that has not been given back.
  lemma MarkIsLive(s: State, v: Vid)
    requires Base(s) && Has(s, v) && At(s, v).sstamp.Xid? && s.setup.clean
    ensures At(s, v).sstamp.t in s.txns && !Freed(s, At(s, v).sstamp.t)
  {
    hide OwnInv, Distinct;
    assert VerInv(s, v.o, v.i);
    assert TxnInv(s.txns[At(s, v).sstamp.t], s.clock);
  }

  // A transaction with a stamp is no longer active.
  lemma SaneTarget(s: State, u: nat)
    requires Base(s) && u in s.txns && (s.txns[u].cs > 0 || s.txns[u].state != Active)
    ensures Coherent(s, u)
  {
    BaseIsSane(s);
    ContextCoherent(s, u);
  }

  // What the read check rests on.
  ghost predicate ProbeSound(s: State, x: Txn, c: Cert) {
    match c
    case Load(i) =>
      i < |x.rset| ==> Has(s, x.rset[i]) && (At(s, x.rset[i]).sstamp.Xid? ==> !Freed(s, At(s, x.rset[i]).sstamp.t))
    case Owner(i, u) => i < |x.rset| && u in s.txns
    case State1(i, _) => i < |x.rset|
    case Verify1(i, _, _) => i < |x.rset|
    case End(i, u) => i < |x.rset| && Coherent(s, u)
    case State2(i, u, _) => i < |x.rset| && Coherent(s, u)
    case Verify2(i, u, _, st) => i < |x.rset| && Coherent(s, u) && st != Active
    case _ => true
  }

  // `t` has moved on to the next read, or closer within this one.
  ghost predicate ProbeCloser(s: State, s': State, t: nat) {
    && t in s.txns && t in s'.txns && s.txns[t].pc.Certify? && s'.txns[t].pc.Certify?
    && IsProbe(s.txns[t].pc.c) && IsProbe(s'.txns[t].pc.c) && s'.txns[t].rset == s.txns[t].rset
    && var c, c' := s.txns[t].pc.c, s'.txns[t].pc.c;
       (c'.i == c.i + 1 && c.i < |s.txns[t].rset|) || (c'.i == c.i && ReadPointRank(s', c') < ReadPointRank(s, c))
  }

  lemma ProbeMoves(s: State, s': State, t: nat)
    requires t in s.txns && s.txns[t].pc.Certify? && Probe(s, s', t) && ProbeSound(s, s.txns[t], s.txns[t].pc.c)
    requires forall u :: !ProbeWaits(s, s.txns[t].pc.c, u)
    ensures ProbeCloser(s, s', t)
  {
    ProbeShape(s, s', t);
    hide Probe, ProbeSound, ProbeWaits, ProbeCloser;
    var c := s.txns[t].pc.c;
    if c.End? || c.State2? || c.Verify2? {
      LateMoves(s, s', t);
    } else {
      EarlyMoves(s, s', t);
    }
  }

  lemma EarlyMoves(s: State, s': State, t: nat)
    requires t in s.txns && s.txns[t].pc.Certify? && Probe(s, s', t) && ProbeSound(s, s.txns[t], s.txns[t].pc.c)
    requires var c := s.txns[t].pc.c; c.Load? || c.Owner? || c.State1? || c.Verify1?
    ensures ProbeCloser(s, s', t)
  {
  }

  lemma LateMoves(s: State, s': State, t: nat)
    requires t in s.txns && s.txns[t].pc.Certify? && Probe(s, s', t) && ProbeSound(s, s.txns[t], s.txns[t].pc.c)
    requires var c := s.txns[t].pc.c; c.End? || c.State2? || c.Verify2?
    requires forall u :: !ProbeWaits(s, s.txns[t].pc.c, u)
    ensures ProbeCloser(s, s', t)
  {
    hide Has, At;
    assert !ProbeWaits(s, s.txns[t].pc.c, s.txns[t].pc.c.u);
  }

  // ----- how often a transaction can be set back -----

  // Contexts that may still be freed, and stamps that may still be published.
  ghost function Delay(s: State): nat {
    |Live(s)| + |Silent(s)|
  }

  ghost function Live(s: State): set<nat> { set u | u in s.txns && !s.txns[u].freed }

  ghost function Silent(s: State): set<nat> { set u | u in s.txns && s.txns[u].end == 0 }

  lemma DelayFalls(s: State, s': State, a: nat)
    requires Evolve(s, s', a) && a in s.txns
    ensures Delay(s') <= Delay(s)
    ensures s'.txns[a].freed != s.txns[a].freed || (s'.txns[a].end > 0 && s.txns[a].end == 0) ==> Delay(s') < Delay(s)
  {
    hide Keeps, Wrote, HeadKept;
    assert Grows(s.txns[a], s'.txns[a], s.clock);
    Smaller(Live(s'), Live(s), a);
    Smaller(Silent(s'), Silent(s), a);
  }

  lemma Smaller(f': set<nat>, f: set<nat>, a: nat)
    requires f' <= f && f <= f' + {a}
    ensures |f'| <= |f| && (a in f && a !in f' ==> |f'| < |f|)
  {
    if a in f && a !in f' {
      assert f == f' + {a};
    } else {
      assert f == f';
    }
  }

  lemma EvolveKeepsTxn(s: State, s': State, a: nat, t: nat)
    requires Evolve(s, s', a) && a in s.txns && t in s.txns
    ensures t in s'.txns && a in s'.txns && (s.txns[a].end > 0 ==> s'.txns[a].end > 0)
  {
    hide Keeps, Wrote, HeadKept;
    assert Grows(s.txns[a], s'.txns[a], s.clock);
  }

  // The published stamp of a transaction, 0 if none.
  ghost function EndOf(s: State, t: nat): nat { if t in s.txns then s.txns[t].end else 0 }

  lemma EndKept(s: State, s': State, a: nat, t: nat)
    requires Evolve(s, s', a) && a in s.txns && t in s.txns
    ensures Delay(s') == Delay(s) ==> EndOf(s', t) == EndOf(s, t)
  {
    DelayFalls(s, s', a);
    hide Keeps, Wrote, HeadKept, Delay;
    assert Grows(s.txns[t], s'.txns[t], s.clock);
  }

  lemma OthersUnchanged(s: State, s': State, a: nat, t: nat)
    requires Evolve(s, s', a) && t in s.txns && a != t
    ensures t in s'.txns && s'.txns[t] == s.txns[t]
  {
    hide Keeps, Wrote, HeadKept, Grows;
  }

  // Nobody begins: a step of somebody who is running, or none.
  ghost predicate Continued(s: State, s': State, a: nat) {
    s' == s || (a in s.txns && Evolve(s, s', a))
  }

  lemma {:induction false} SetsShrink(f: nat -> State, who: nat -> nat, i: nat, j: nat)
    requires i <= j && forall k: nat :: Continued(f(k), f(k + 1), who(k))
    ensures Live(f(j)) <= Live(f(i)) && Silent(f(j)) <= Silent(f(i))
    decreases j - i
  {
    hide Evolve;
    if i < j {
      SetsShrink(f, who, i, j - 1);
      assert Continued(f(j - 1), f(j), who(j - 1));
      if f(j) != f(j - 1) { ShrinkStep(f(j - 1), f(j), who(j - 1)); }
    }
  }

  lemma ShrinkStep(s: State, s': State, a: nat)
    requires Evolve(s, s', a) && a in s.txns
    ensures Live(s') <= Live(s) && Silent(s') <= Silent(s)
  {
    hide Keeps, Wrote, HeadKept;
    forall u | u in s'.txns ensures u in s.txns && Grows(s.txns[u], s'.txns[u], s.clock) { }
  }

  // Whoever gives its context back leaves fewer set-backs ahead.
  lemma FreedFewer(f: nat -> State, who: nat -> nat, u: nat, i: nat, j: nat)
    requires i <= j && forall k: nat :: Continued(f(k), f(k + 1), who(k))
    requires u in f(i).txns && u in f(j).txns && !f(i).txns[u].freed && f(j).txns[u].freed
    ensures Delay(f(j)) < Delay(f(i))
  {
    SetsShrink(f, who, i, j);
    Proper(Live(f(j)), Live(f(i)), u);
    Subset(Silent(f(j)), Silent(f(i)));
  }

  lemma {:induction false} Subset(a: set<nat>, b: set<nat>)
    requires a <= b
    ensures |a| <= |b|
  {
    if a != {} {
      var x :| x in a;
      Subset(a - {x}, b - {x});
    }
  }

  lemma Proper(a: set<nat>, b: set<nat>, u: nat)
    requires a <= b && u in b && u !in a
    ensures |a| < |b|
  {
    Subset(a, b - {u});
  }
}
