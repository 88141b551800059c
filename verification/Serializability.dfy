/** Cycles in a dependency graph over transactions, and what rules them out. */
module Serializability {
  type Graph = set<(nat, nat)>

  // A closed walk p[0] -> p[1] -> ... -> p[0] along edges of `e`.
  ghost predicate Cycle(p: seq<nat>, e: Graph) {
    |p| > 0 && forall i :: 0 <= i < |p| ==> (p[i], Succ(p, i)) in e
  }

  ghost function Succ(p: seq<nat>, i: nat): nat
    requires i < |p|
  {
    if i + 1 < |p| then p[i + 1] else p[0]
  }

  ghost predicate Acyclic(e: Graph) {
    forall p :: !Cycle(p, e)
  }

  lemma Edge(p: seq<nat>, e: Graph, i: nat)
    requires Cycle(p, e) && i < |p|
    ensures (p[i], Succ(p, i)) in e
  {
  }

  lemma Rotate(p: seq<nat>, e: Graph, m: nat)
    requires Cycle(p, e) && m < |p|
    ensures Cycle(p[m..] + p[..m], e)
  {
    var q := p[m..] + p[..m];
    forall i | 0 <= i < |q| ensures (q[i], Succ(q, i)) in e {
      var k := if i + m < |p| then i + m else i + m - |p|;
      assert (p[k], Succ(p, k)) in e;
    }
  }

  lemma {:induction false} Least(p: seq<nat>, c: map<nat, nat>) returns (m: nat)
    requires |p| > 0 && forall i :: 0 <= i < |p| ==> p[i] in c
    ensures m < |p| && forall i :: 0 <= i < |p| ==> c[p[m]] <= c[p[i]]
  {
    if |p| == 1 {
      m := 0;
    } else {
      var k := Least(p[1..], c);
      assert forall i :: 1 <= i < |p| ==> p[i] == p[1..][i - 1];
      m := if c[p[0]] <= c[p[k + 1]] then 0 else k + 1;
    }
  }

  // Some cycle starts at its smallest stamp, if there is a cycle at all.
  lemma LeastFirst(p: seq<nat>, e: Graph, c: map<nat, nat>) returns (q: seq<nat>)
    requires Cycle(p, e) && forall d :: d in e ==> d.0 in c
    ensures Cycle(q, e) && forall i :: 0 <= i < |q| ==> q[i] in c && c[q[0]] <= c[q[i]]
  {
    forall i | 0 <= i < |p| ensures p[i] in c { assert (p[i], Succ(p, i)) in e; }
    var m := Least(p, c);
    Rotate(p, e, m);
    q := p[m..] + p[..m];
  }

  /** If every edge goes to a larger stamp there is no cycle. */
  lemma ForwardIsAcyclic(e: Graph, c: map<nat, nat>)
    requires forall d :: d in e ==> d.0 in c && d.1 in c && c[d.0] < c[d.1]
    ensures Acyclic(e)
  {
    forall p ensures !Cycle(p, e) {
      if Cycle(p, e) {
        var q := LeastFirst(p, e, c);
        Edge(q, e, |q| - 1);
      }
    }
  }

  // Stamps, low watermarks and high watermarks that satisfy the exclusion-window rules.
  ghost predicate Exclusion(e: Graph, c: map<nat, nat>, lo: map<nat, nat>, hi: map<nat, nat>) {
    forall d :: d in e ==>
      && d.0 in c && d.1 in c && d.0 in hi && d.1 in hi && d.1 in lo
      && c[d.0] != c[d.1]
      && (c[d.0] < c[d.1] ==> c[d.0] <= lo[d.1])
      && (c[d.1] < c[d.0] ==> hi[d.0] <= hi[d.1])
      && lo[d.1] < hi[d.1] <= c[d.1]
  }

  /**
   The exclusion-window theorem: when edges from earlier committers are below the low watermark,
   high watermarks are inherited along edges to earlier committers, and every low watermark is
   below the high one, no cycle exists.
   */
  lemma ExclusionIsAcyclic(e: Graph, c: map<nat, nat>, lo: map<nat, nat>, hi: map<nat, nat>)
    requires Exclusion(e, c, lo, hi)
    ensures Acyclic(e)
  {
    forall p ensures !Cycle(p, e) {
      if Cycle(p, e) {
        var q := LeastFirst(p, e, c);
        var w := q + [q[0]];
        forall i | 0 <= i < |q| ensures (w[i], w[i + 1]) in e { assert (q[i], Succ(q, i)) in e; }
        assert (w[|q| - 1], w[|q|]) in e;
        WalkBack(w, e, c, lo, hi, c[q[0]]);
      }
    }
  }

  // Along any walk that ends under a bound `b` on high watermarks and never visits a stamp below
  // `b`, every edge is a back edge and passes the bound on.
  lemma {:induction false} WalkBack(w: seq<nat>, e: Graph, c: map<nat, nat>, lo: map<nat, nat>, hi: map<nat, nat>,
      b: nat)
    requires Exclusion(e, c, lo, hi) && |w| > 1
    requires forall i :: 0 <= i < |w| ==> w[i] in c && w[i] in hi
    requires forall i :: 0 <= i < |w| - 1 ==> (w[i], w[i + 1]) in e && b <= c[w[i]]
    requires hi[w[|w| - 1]] <= b
    ensures hi[w[0]] <= b && c[w[|w| - 1]] < c[w[0]]
  {
    assert (w[0], w[1]) in e;
    if |w| > 2 {
      assert (w[1], w[2]) in e;
      forall i | 0 <= i < |w[1..]| - 1 ensures (w[1..][i], w[1..][i + 1]) in e && b <= c[w[1..][i]] {
        assert (w[i + 1], w[i + 2]) in e;
      }
      WalkBack(w[1..], e, c, lo, hi, b);
    }
  }

  // Begin and commit stamps under snapshot isolation: an edge outside `anti` ends before its
  // target begins, and an edge of `anti` starts before its target ends.
  ghost predicate SnapshotEdges(e: Graph, anti: Graph, b: map<nat, nat>, c: map<nat, nat>) {
    forall d :: d in e ==>
      && d.0 in b && d.1 in b && d.0 in c && d.1 in c && c[d.0] != c[d.1]
      && (if d in anti then b[d.0] < c[d.1] else c[d.0] < b[d.1] < c[d.1])
  }

  // Two consecutive edges of `anti` whose last transaction committed before the middle one and
  // no later than the first one.
  ghost predicate Dangerous(anti: Graph, c: map<nat, nat>, t1: nat, t2: nat, t3: nat) {
    && (t1, t2) in anti && (t2, t3) in anti && t1 in c && t2 in c && t3 in c
    && c[t3] < c[t2] && c[t3] <= c[t1]
  }

  // Every cycle contains a dangerous structure.
  lemma CycleHasPivot(p: seq<nat>, e: Graph, anti: Graph, b: map<nat, nat>, c: map<nat, nat>)
    returns (t1: nat, t2: nat, t3: nat)
    requires Cycle(p, e) && SnapshotEdges(e, anti, b, c)
    ensures Dangerous(anti, c, t1, t2, t3)
  {
    var q := LeastFirst(p, e, c);
    var k := |q| - 1;
    Edge(q, e, k);
    t3, t2 := q[0], q[k];
    Edge(q, e, if k == 0 then 0 else k - 1);
    t1 := q[if k == 0 then 0 else k - 1];
  }

  /** Under snapshot isolation a graph without a dangerous structure has no cycle. */
  lemma NoPivotIsAcyclic(e: Graph, anti: Graph, b: map<nat, nat>, c: map<nat, nat>)
    requires SnapshotEdges(e, anti, b, c)
    requires forall t1, t2, t3 :: !Dangerous(anti, c, t1, t2, t3)
    ensures Acyclic(e)
  {
    forall p ensures !Cycle(p, e) {
      if Cycle(p, e) {
        var t1, t2, t3 := CycleHasPivot(p, e, anti, b, c);
      }
    }
  }
}
