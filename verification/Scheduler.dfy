/**
 The round-robin scheduler over two-level coroutines.  A transaction is an outer coroutine that
 awaits inner coroutines one after another; awaiting suspends the outer one, and the inner one
 has by then run up to its first suspension.  A slot is resumed once a round: the inner coroutine
 if it is not finished, the outer one otherwise.
 */
module Scheduler {
  import opened Basics

  // `inner[k]` is how often the k-th awaited coroutine must be resumed before it is finished.
  datatype Program = Program(inner: seq<nat>, rc: int)

  // A stretch of a transaction between two suspensions: of the outer coroutine, or of its k-th callee.
  datatype Stretch = Outer(k: nat) | Inner(k: nat, j: nat)

  // `k` callees are finished with, `left` is what the current one still needs, `trace` is history.
  datatype Slot = Slot(p: Program, k: nat, left: nat, trace: seq<Stretch>)

  ghost predicate SlotInv(s: Slot) {
    s.k <= |s.p.inner| && (if s.k < |s.p.inner| then s.left <= s.p.inner[s.k] else s.left == 0)
  }

  // Creating the outer coroutine runs it up to its first suspension or to its end.
  function Start(p: Program): (s: Slot)
    ensures SlotInv(s)
  {
    Slot(p, 0, if |p.inner| > 0 then p.inner[0] else 0, [Outer(0)])
  }

  predicate Finished(s: Slot) { s.k >= |s.p.inner| }

  // One visit by the scheduler to a slot that is not finished.
  function Resume(s: Slot): (s': Slot)
    requires SlotInv(s) && !Finished(s)
    ensures SlotInv(s') && s'.p == s.p
  {
    if s.left > 0 then
      s.(left := s.left - 1, trace := s.trace + [Inner(s.k, s.p.inner[s.k] - s.left + 1)])
    else
      Slot(s.p, s.k + 1, if s.k + 1 < |s.p.inner| then s.p.inner[s.k + 1] else 0, s.trace + [Outer(s.k + 1)])
  }

  // ----- a transaction run alone -----

  // The stretches of callee `k`, up to the n-th.
  function Callee(k: nat, n: nat): seq<Stretch> {
    if n == 0 then [] else Callee(k, n - 1) + [Inner(k, n)]
  }

  // Everything up to and including the outer stretch after callee `k - 1`.
  function Prefix(p: Program, k: nat): seq<Stretch>
    requires k <= |p.inner|
  {
    if k == 0 then [Outer(0)] else Prefix(p, k - 1) + Callee(k - 1, p.inner[k - 1]) + [Outer(k)]
  }

  function Alone(p: Program): seq<Stretch> { Prefix(p, |p.inner|) }

  // Resumes needed before callee `k` is reached.
  function Before(p: Program, k: nat): nat
    requires k <= |p.inner|
  {
    if k == 0 then 0 else Before(p, k - 1) + p.inner[k - 1] + 1
  }

  function Resumes(p: Program): nat { Before(p, |p.inner|) }

  // How far a slot has come.
  function Visits(s: Slot): nat
    requires SlotInv(s)
  {
    Before(s.p, s.k) + (if Finished(s) then 0 else s.p.inner[s.k] - s.left)
  }

  // The trace is what the transaction would have done alone.
  ghost predicate InOrder(s: Slot)
    requires SlotInv(s)
  {
    s.trace == Prefix(s.p, s.k) + (if Finished(s) then [] else Callee(s.k, s.p.inner[s.k] - s.left))
  }

  lemma {:induction false} BeforeGrows(p: Program, k: nat)
    requires k < |p.inner|
    ensures Before(p, k) + p.inner[k] < Resumes(p)
    decreases |p.inner| - k
  {
    if k + 1 < |p.inner| { BeforeGrows(p, k + 1); }
  }

  lemma ResumeAdvances(s: Slot)
    requires SlotInv(s) && InOrder(s) && !Finished(s)
    ensures InOrder(Resume(s)) && Visits(Resume(s)) == Visits(s) + 1 && Visits(s) < Resumes(s.p)
  {
    BeforeGrows(s.p, s.k);
    if s.left > 0 { CalleeAdvances(s); } else { OuterAdvances(s); }
    hide *;
  }

  lemma CalleeAdvances(s: Slot)
    requires SlotInv(s) && InOrder(s) && !Finished(s) && s.left > 0
    ensures InOrder(Resume(s)) && Visits(Resume(s)) == Visits(s) + 1
  {
    var n := s.p.inner[s.k] - s.left;
    var pre, cal, last := Prefix(s.p, s.k), Callee(s.k, n), [Inner(s.k, n + 1)];
    assert Callee(s.k, n + 1) == cal + last;
    assert pre + (cal + last) == pre + cal + last;
    hide Prefix, Callee, Before;
  }

  lemma OuterAdvances(s: Slot)
    requires SlotInv(s) && InOrder(s) && !Finished(s) && s.left == 0
    ensures InOrder(Resume(s)) && Visits(Resume(s)) == Visits(s) + 1
  {
    var s' := Resume(s);
    assert Prefix(s.p, s.k + 1) == s'.trace;
    assert Before(s.p, s.k + 1) == Before(s.p, s.k) + s.p.inner[s.k] + 1;
    assert Callee(s'.k, 0) == [];
    assert s'.trace + [] == s'.trace;
    hide Prefix, Callee, Before;
  }

  // ----- the batch -----

  // Slot `i` after `r` rounds: visited `r` times, and given up in the round after its last resume.
  ghost predicate AfterRounds(p: Program, h: Option<Slot>, r: nat) {
    if r <= Resumes(p) then
      h.Some? && SlotInv(h.value) && h.value.p == p && InOrder(h.value) && Visits(h.value) == r
    else h.None?
  }

  lemma StartRounds(p: Program)
    ensures AfterRounds(p, Some(Start(p)), 0)
  {
    var s := Start(p);
    assert Prefix(p, 0) + [] == [Outer(0)];
  }

  lemma FinishedMeansAll(s: Slot)
    requires SlotInv(s) && InOrder(s)
    ensures Finished(s) <==> Visits(s) == Resumes(s.p)
    ensures Finished(s) ==> s.trace == Alone(s.p)
  {
    if !Finished(s) { BeforeGrows(s.p, s.k); }
  }

  function MaxResumes(ps: seq<Program>): nat {
    if ps == [] then 0
    else
      var m := MaxResumes(ps[..|ps| - 1]);
      if Resumes(ps[|ps| - 1]) > m then Resumes(ps[|ps| - 1]) else m
  }

  lemma {:induction false} MaxIsReached(ps: seq<Program>)
    ensures forall i :: 0 <= i < |ps| ==> Resumes(ps[i]) <= MaxResumes(ps)
    ensures ps != [] ==> exists i :: 0 <= i < |ps| && Resumes(ps[i]) == MaxResumes(ps)
  {
    if ps != [] {
      var k := |ps| - 1;
      MaxIsReached(ps[..k]);
      if k > 0 && Resumes(ps[k]) <= MaxResumes(ps[..k]) {
        var i :| 0 <= i < k && Resumes(ps[..k][i]) == MaxResumes(ps[..k]);
        assert Resumes(ps[i]) == MaxResumes(ps);
      } else {
        assert Resumes(ps[k]) == MaxResumes(ps);
      }
    }
  }

  ghost function Live(hs: seq<Option<Slot>>): set<nat> {
    set i | 0 <= i < |hs| && hs[i].Some?
  }

  lemma OneLess(hs: seq<Option<Slot>>, i: nat)
    requires i < |hs| && hs[i].Some?
    ensures |Live(hs)| > 0 && |Live(hs[i := None])| == |Live(hs)| - 1
  {
    assert i in Live(hs);
    assert Live(hs[i := None]) == Live(hs) - {i};
  }

  lemma SameLive(hs: seq<Option<Slot>>, i: nat, s: Slot)
    requires i < |hs| && hs[i].Some?
    ensures Live(hs[i := Some(s)]) == Live(hs)
  {
  }

  // What the scheduler's tables say about the slots already given up.
  ghost predicate Tallied(ps: seq<Program>, hs: seq<Option<Slot>>, rcs: seq<int>, traces: seq<seq<Stretch>>,
      order: seq<nat>, todo: nat) {
    && |hs| == |rcs| == |traces| == |ps| && todo == |Live(hs)| && |order| + todo == |ps|
    && (forall i :: 0 <= i < |ps| && hs[i].None? ==> rcs[i] == ps[i].rc && traces[i] == Alone(ps[i]))
    && (forall i :: i in order <==> 0 <= i < |ps| && hs[i].None?)
  }

  lemma GivenUp(ps: seq<Program>, hs: seq<Option<Slot>>, rcs: seq<int>, traces: seq<seq<Stretch>>, order: seq<nat>,
      todo: nat, i: nat, s: Slot)
    requires Tallied(ps, hs, rcs, traces, order, todo) && i < |ps| && hs[i] == Some(s) && s.p == ps[i]
               && s.trace == Alone(ps[i])
    ensures todo > 0 && i < |rcs| && i < |traces| && Tallied(ps, hs[i := None], rcs[i := s.p.rc],
              traces[i := s.trace], order + [i], todo - 1)
  {
    OneLess(hs, i);
  }

  lemma Visited(ps: seq<Program>, hs: seq<Option<Slot>>, rcs: seq<int>, traces: seq<seq<Stretch>>, order: seq<nat>,
      todo: nat, i: nat, s: Slot)
    requires Tallied(ps, hs, rcs, traces, order, todo) && i < |ps| && hs[i].Some?
    ensures Tallied(ps, hs[i := Some(s)], rcs, traces, order, todo)
  {
    SameLive(hs, i, s);
  }

  // One round over all slots.
  method Round(ps: seq<Program>, handles: array<Option<Slot>>, rcs0: seq<int>, traces0: seq<seq<Stretch>>,
      order0: seq<nat>, todo0: nat, ghost r: nat)
    returns (rcs: seq<int>, traces: seq<seq<Stretch>>, order: seq<nat>, todo: nat)
    requires handles.Length == |ps| && Tallied(ps, handles[..], rcs0, traces0, order0, todo0)
    requires forall i :: 0 <= i < |ps| ==> AfterRounds(ps[i], handles[i], r)
    modifies handles
    ensures Tallied(ps, handles[..], rcs, traces, order, todo)
    ensures forall i :: 0 <= i < |ps| ==> AfterRounds(ps[i], handles[i], r + 1)
  {
    hide Tallied;
    rcs, traces, order, todo := rcs0, traces0, order0, todo0;
    for i := 0 to |ps|
      invariant Tallied(ps, handles[..], rcs, traces, order, todo)
      invariant forall j :: 0 <= j < i ==> AfterRounds(ps[j], handles[j], r + 1)
      invariant forall j :: i <= j < |ps| ==> AfterRounds(ps[j], handles[j], r)
    {
      ghost var hs := handles[..];
      if handles[i].Some? {
        var s := handles[i].value;
        SlotRound(ps[i], s, r);
        hide AfterRounds;
        if Finished(s) {
          GivenUp(ps, hs, rcs, traces, order, todo, i, s);
          rcs := rcs[i := s.p.rc];
          traces := traces[i := s.trace];
          order := order + [i];
          handles[i] := None;
          assert handles[..] == hs[i := None];
          todo := todo - 1;
        } else {
          Visited(ps, hs, rcs, traces, order, todo, i, Resume(s));
          handles[i] := Some(Resume(s));
          assert handles[..] == hs[i := Some(Resume(s))];
        }
      } else {
        EmptyRound(ps[i], r);
        hide AfterRounds;
      }
    }
  }

  lemma SlotRound(p: Program, s: Slot, r: nat)
    requires AfterRounds(p, Some(s), r)
    ensures SlotInv(s) && s.p == p
    ensures Finished(s) ==> s.trace == Alone(p) && AfterRounds(p, None, r + 1)
    ensures !Finished(s) ==> AfterRounds(p, Some(Resume(s)), r + 1)
  {
    FinishedMeansAll(s);
    if !Finished(s) { ResumeAdvances(s); }
  }

  lemma EmptyRound(p: Program, r: nat)
    requires AfterRounds(p, None, r)
    ensures AfterRounds(p, None, r + 1)
  {
  }

  /**
   One batch: every transaction runs its own stretches in the order it would run them alone, is
   finished exactly once with its own return code, and the batch takes one round more than the
   longest transaction has resumes.
   */
  method RunBatch(ps: seq<Program>) returns (rcs: seq<int>, traces: seq<seq<Stretch>>, order: seq<nat>, rounds: nat)
    ensures |rcs| == |traces| == |ps|
    ensures forall i :: 0 <= i < |ps| ==> rcs[i] == ps[i].rc && traces[i] == Alone(ps[i])
    ensures |order| == |ps| && (forall i :: i in order <==> 0 <= i < |ps|)
    ensures rounds == if ps == [] then 0 else MaxResumes(ps) + 1
  {
    var n := |ps|;
    var handles := new Option<Slot>[n](i requires 0 <= i < n => Some(Start(ps[i])));
    rcs, traces, order, rounds := seq(n, i => 0), seq(n, i => []), [], 0;
    var todo: nat := n;
    AllLive(handles[..]);
    forall i | 0 <= i < n ensures AfterRounds(ps[i], handles[i], 0) { StartRounds(ps[i]); }
    while todo > 0
      invariant Tallied(ps, handles[..], rcs, traces, order, todo)
      invariant forall i :: 0 <= i < n ==> AfterRounds(ps[i], handles[i], rounds)
      invariant rounds <= if n == 0 then 0 else MaxResumes(ps) + 1
      decreases MaxResumes(ps) + 1 - rounds
    {
      StillRunning(ps, handles[..], rounds);
      hide Tallied, AfterRounds;
      rcs, traces, order, todo := Round(ps, handles, rcs, traces, order, todo, rounds);
      rounds := rounds + 1;
    }
    NoneLive(handles[..]);
    if n > 0 { AllGone(ps, handles[..], rounds); }
  }

  // A live slot has not been through all the rounds.
  lemma StillRunning(ps: seq<Program>, hs: seq<Option<Slot>>, r: nat)
    requires |hs| == |ps| && |Live(hs)| > 0 && forall i :: 0 <= i < |ps| ==> AfterRounds(ps[i], hs[i], r)
    ensures ps != [] && r <= MaxResumes(ps)
  {
    var i :| i in Live(hs);
    MaxIsReached(ps);
    assert AfterRounds(ps[i], hs[i], r);
  }

  lemma AllGone(ps: seq<Program>, hs: seq<Option<Slot>>, r: nat)
    requires |hs| == |ps| > 0 && (forall i :: 0 <= i < |ps| ==> AfterRounds(ps[i], hs[i], r) && hs[i].None?)
    ensures r > MaxResumes(ps)
  {
    MaxIsReached(ps);
    var i :| 0 <= i < |ps| && Resumes(ps[i]) == MaxResumes(ps);
    assert AfterRounds(ps[i], hs[i], r);
  }

  lemma {:induction false} AllLive(hs: seq<Option<Slot>>)
    requires forall i :: 0 <= i < |hs| ==> hs[i].Some?
    ensures |Live(hs)| == |hs|
  {
    if hs != [] {
      var k := |hs| - 1;
      AllLive(hs[..k]);
      assert Live(hs) == Live(hs[..k]) + {k};
    }
  }

  lemma NoneLive(hs: seq<Option<Slot>>)
    requires |Live(hs)| == 0
    ensures forall i :: 0 <= i < |hs| ==> hs[i].None?
  {
    forall i | 0 <= i < |hs| ensures hs[i].None? { assert i !in Live(hs); }
  }
}
