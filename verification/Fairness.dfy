/**
 Infinite runs in which everybody on the way to its end is scheduled again and again: if a wait is
 always for somebody earlier in a fixed order, and whoever does not wait comes closer to its end,
 then everybody ends.
 */
module Fairness {
  import opened EngineProgress

  // At each moment: who moves, how many set-backs are still ahead of everybody, and of each
  // transaction its place in the order of waiting, its distance, and whether it is ending or gone.
  datatype Trace = Trace(moves: (nat, nat) -> bool, delay: nat -> nat, order: (nat, nat) -> nat,
                         dist: (nat, nat) -> Rank, ending: (nat, nat) -> bool, gone: (nat, nat) -> bool)

  // While others move, `t` is not set back for nothing.
  ghost predicate Calm(r: Trace, t: nat, k: nat) {
    || r.delay(k + 1) < r.delay(k)
    || (r.delay(k + 1) == r.delay(k) && r.order(t, k + 1) == r.order(t, k) && r.dist(t, k + 1) == r.dist(t, k))
  }

  // `t` comes closer to its end.
  ghost predicate Closer(r: Trace, t: nat, k: nat) {
    || r.delay(k + 1) < r.delay(k)
    || (&& r.delay(k + 1) == r.delay(k) && r.order(t, k + 1) <= r.order(t, k)
        && Less(r.dist(t, k + 1), r.dist(t, k)))
  }

  // Somebody before `t` in the order is still on its way.
  ghost predicate HeldUp(r: Trace, t: nat, k: nat) {
    exists u :: r.ending(u, k) && r.order(u, k) < r.order(t, k)
  }

  ghost predicate Lawful(r: Trace, t: nat, k: nat) {
    r.ending(t, k) ==>
      && (r.ending(t, k + 1) || r.gone(t, k + 1))
      && (if r.moves(t, k) then HeldUp(r, t, k) || Closer(r, t, k) else r.ending(t, k + 1) && Calm(r, t, k))
  }

  // Nobody begins any more, so the set-backs ahead get fewer with everybody who is gone.
  ghost predicate Closed(r: Trace, t: nat, k: nat, m: nat) {
    r.ending(t, k) && k <= m && r.gone(t, m) ==> r.delay(m) < r.delay(k)
  }

  ghost predicate Fair(r: Trace, t: nat, k: nat) {
    r.ending(t, k) ==> exists m :: m >= k && r.moves(t, m)
  }

  // The next move of `t`, up to which it is not set back for nothing.
  lemma {:induction false} NextMove(r: Trace, t: nat, k: nat, m: nat) returns (j: nat)
    requires (forall i :: Lawful(r, t, i)) && r.ending(t, k) && k <= m && r.moves(t, m)
    ensures k <= j && r.moves(t, j) && r.ending(t, j)
    ensures || r.delay(j) < r.delay(k)
            || (r.delay(j) == r.delay(k) && r.order(t, j) == r.order(t, k) && r.dist(t, j) == r.dist(t, k))
    decreases m - k
  {
    if r.moves(t, k) {
      j := k;
    } else {
      assert Lawful(r, t, k);
      j := NextMove(r, t, k + 1, m);
    }
  }

  // `t` is gone by moment `m`, or still on its way.
  lemma {:induction false} StillEnding(r: Trace, t: nat, k: nat, m: nat) returns (j: nat)
    requires (forall i :: Lawful(r, t, i)) && r.ending(t, k) && k <= m
    ensures k <= j && (r.gone(t, j) || (j == m && r.ending(t, j)))
    decreases m - k
  {
    if k == m {
      j := m;
    } else {
      assert Lawful(r, t, k);
      if r.gone(t, k + 1) {
        j := k + 1;
      } else {
        j := StillEnding(r, t, k + 1, m);
      }
    }
  }

  /** Everybody on its way to the end gets there. */
  lemma {:induction false} EverybodyEnds(r: Trace, t: nat, k: nat) returns (m: nat)
    requires forall u, i :: Lawful(r, u, i) && Fair(r, u, i)
    requires forall u, i, j :: Closed(r, u, i, j)
    requires r.ending(t, k)
    ensures m >= k && r.gone(t, m)
    decreases r.delay(k), r.order(t, k), r.dist(t, k).phase, r.dist(t, k).items, r.dist(t, k).words,
              r.dist(t, k).bits, r.dist(t, k).point
  {
    assert Fair(r, t, k);
    var i :| i >= k && r.moves(t, i);
    var j := NextMove(r, t, k, i);
    assert Lawful(r, t, j);
    if r.delay(j) < r.delay(k) {
      m := EverybodyEnds(r, t, j);
    } else if u :| r.ending(u, j) && r.order(u, j) < r.order(t, j) {
      var n := EverybodyEnds(r, u, j);
      assert Closed(r, u, j, n);
      m := StillEnding(r, t, j, n);
      if !r.gone(t, m) {
        m := EverybodyEnds(r, t, n);
      }
    } else {
      assert !HeldUp(r, t, j);
      m := j + 1;
      if !r.gone(t, m) {
        m := EverybodyEnds(r, t, m);
      }
    }
  }

  // The first move of `t`, up to which it is not set back for nothing, whether it is ending or not.
  lemma {:induction false} FirstMove(r: Trace, t: nat, k: nat, m: nat) returns (j: nat)
    requires (forall i :: i >= k && !r.moves(t, i) ==> Calm(r, t, i)) && k <= m && r.moves(t, m)
    ensures k <= j && r.moves(t, j)
    ensures r.delay(j) < r.delay(k) || (r.delay(j) == r.delay(k) && r.dist(t, j) == r.dist(t, k))
    decreases m - k
  {
    if r.moves(t, k) {
      j := k;
    } else {
      j := FirstMove(r, t, k + 1, m);
    }
  }

  /** Who comes closer to its end with every move makes finitely many of them. */
  lemma {:induction false} FinitelyMany(r: Trace, t: nat, k: nat) returns (m: nat)
    requires forall i :: i >= k ==> if r.moves(t, i) then Closer(r, t, i) else Calm(r, t, i)
    ensures m >= k && forall i :: i >= m ==> !r.moves(t, i)
    decreases r.delay(k), r.dist(t, k).phase, r.dist(t, k).items, r.dist(t, k).words,
              r.dist(t, k).bits, r.dist(t, k).point
  {
    if i :| i >= k && r.moves(t, i) {
      var j := FirstMove(r, t, k, i);
      m := FinitelyMany(r, t, j + 1);
    } else {
      m := k;
    }
  }
}
