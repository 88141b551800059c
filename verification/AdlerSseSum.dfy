/**
 The vectorised checksum as a whole: single bytes up to an aligned address, blocks of four-chunk
 steps with a reduction after each block, single chunks, and a tail of single bytes.
 */
module AdlerSseSum {
  import opened Basics
  import opened Adler
  import opened AdlerScalar
  import opened AdlerSse

  // Four-chunk steps between two reductions.
  const NSTEP: nat := 16

  // ----- the reduction after a block -----

  // phaddd: neighbouring lanes of two vectors added.
  function AddNeighbours(v: seq<int>, w: seq<int>): (u: seq<int>)
    requires |v| == |w| == 4
    ensures |u| == 4
  {
    [Wrap32(v[0] + v[1]), Wrap32(v[2] + v[3]), Wrap32(w[0] + w[1]), Wrap32(w[2] + w[3])]
  }

  lemma Congruent(x: int, y: int)
    ensures Wrap32(Wrap32(x) + Wrap32(y)) == Wrap32(x + y)
  {
  }

  // A sign-extended 32-bit value added in 64 bits and cut back to 32 bits.
  lemma SignExtended(x: nat, y: int)
    ensures (x + Wrap32(y) % TWO64) % TWO64 % TWO32 == (x + y) % TWO32
  {
    var e := Wrap32(y);
    var q := (y + TWO31) / TWO32;
    assert e == y - TWO32 * q;
    hide Wrap32;
    var f := e % TWO64;
    assert f == e - TWO64 * (e / TWO64);
    var g := (x + f) % TWO64;
    assert g == x + f - TWO64 * ((x + f) / TWO64);
    var p, r := e / TWO64, (x + f) / TWO64;
    assert g == x + y + TWO32 * (-q - TWO32 * p - TWO32 * r);
    SameMod32(g, x + y, -q - TWO32 * p - TWO32 * r);
    assert Same32(g, x + y);
  }

  // Fold the accumulators of a block of `k` bytes into the running sums.
  method ReduceSums(a0: nat, b0: nat, va: seq<int>, vb: seq<int>, k: nat) returns (a: nat, b: nat)
    requires |va| == |vb| == 4 && a0 < TWO32 && b0 < TWO32
    ensures a == (a0 + Total(va)) % TWO32 % BASE
    ensures b == (b0 + k * a0 + Total(vb)) % TWO32 % BASE
  {
    var v := AddNeighbours(va, vb);
    v := AddNeighbours(v, v);
    Congruent(va[0] + va[1], va[2] + va[3]);
    Congruent(vb[0] + vb[1], vb[2] + vb[3]);
    b := FoldIn(b0 + k * a0, v[1], Total(vb));
    a := FoldIn(a0, v[0], Total(va));
    a := a % TWO32 % BASE;
    b := b % TWO32 % BASE;
  }

  // Add a signed 32-bit value in 64-bit arithmetic.
  method FoldIn(x: nat, lane: int, ghost y: int) returns (z: nat)
    requires lane == Wrap32(y)
    ensures z % TWO32 == (x + y) % TWO32
  {
    SignExtended(x, y);
    z := (x + lane % TWO64) % TWO64;
  }

  // ----- the block bound -----

  // For every block of `n` four-chunk steps the weighted sum fits a signed 32-bit lane.
  ghost predicate BlockFits(n: nat) {
    forall x: seq<Byte> :: |x| == 64 * n ==> Weighted(x) < TWO31
  }

  lemma WeightedBound(x: seq<Byte>, n: nat)
    requires |x| <= n
    ensures 2 * Weighted(x) <= 255 * (n * (n + 1))
  {
    Bounds(x);
    ProductGrows(|x|, n);
  }

  /** 64 steps is the largest block whose sums cannot overflow a signed lane, whatever the data. */
  lemma MaxSafeSteps(n: nat)
    ensures BlockFits(n) <==> n <= 64
  {
    if n <= 64 {
      forall x: seq<Byte> | |x| == 64 * n ensures Weighted(x) < TWO31 { WeightedBound(x, 4096); }
    } else {
      var x := Full(64 * n);
      FullSums(x);
      ProductGrows(4160, 64 * n);
      assert Weighted(x) >= TWO31;
    }
  }

  // The weighted sum after a block, before any reduction.
  function Folded(x: seq<Byte>, a: nat, b: nat): nat { b + |x| * a + Weighted(x) }

  // For every block and every pair of reduced sums, what is cut to 32 bits and then reduced is right.
  ghost predicate BlockExact(n: nat) {
    forall x: seq<Byte>, a: nat, b: nat :: |x| == 64 * n && a < BASE && b < BASE ==> CutIsRight(x, a, b)
  }

  ghost predicate CutIsRight(x: seq<Byte>, a: nat, b: nat) {
    (a + Sum(x)) % TWO32 % BASE == (a + Sum(x)) % BASE && Folded(x, a, b) % TWO32 % BASE == Folded(x, a, b) % BASE
  }

  // A value that wraps once is off by 225 modulo BASE.
  lemma WrapsOnce(z: nat)
    requires TWO32 <= z < 2 * TWO32
    ensures z % TWO32 % BASE != z % BASE
  {
    var r := z - TWO32;
    assert z % TWO32 == r;
    assert TWO32 == BASE * 65551 + 225;
    var q, m := r / BASE, r % BASE;
    assert r == BASE * q + m;
    if m + 225 < BASE {
      assert z == BASE * (q + 65551) + (m + 225);
      assert z % BASE == m + 225;
    } else {
      assert z == BASE * (q + 65552) + (m + 225 - BASE);
      assert z % BASE == m + 225 - BASE;
    }
  }

  function Zeros(n: nat): (data: seq<Byte>)
    ensures |data| == n && forall i :: 0 <= i < n ==> data[i] == 0
  {
    seq(n, i => 0)
  }

  lemma {:induction false} ZeroSums(data: seq<Byte>)
    requires forall i :: 0 <= i < |data| ==> data[i] == 0
    ensures Sum(data) == 0 && Weighted(data) == 0
  {
    if data != [] { ZeroSums(data[..|data| - 1]); }
  }

  // A block of `n` steps, 87 or more, whose weighted sum wraps exactly once.
  lemma WrappingBlock(n: nat) returns (x: seq<Byte>, a: nat, b: nat)
    requires n > 86
    ensures |x| == 64 * n && a < BASE && b < BASE && TWO32 <= Folded(x, a, b) < 2 * TWO32
  {
    if n <= 90 {
      x, a, b := Full(64 * n), BASE - 1, BASE - 1;
      FullSums(x);
      ProductGrows(5568, 64 * n);
      ProductGrows(64 * n, 5760);
    } else {
      var y := Full(5824);
      x, a, b := Zeros(64 * n - 5824) + y, 0, 0;
      FullSums(y);
      ZeroSums(Zeros(64 * n - 5824));
      WeightedConcat(Zeros(64 * n - 5824), y);
    }
  }

  lemma FoldedIsSmall(x: seq<Byte>, a: nat, b: nat)
    requires |x| <= 5504 && a < BASE && b < BASE
    ensures a + Sum(x) < TWO32 && Folded(x, a, b) < TWO32
  {
    WeightedBound(x, 5504);
    SumBelowWeighted(x);
    ProductBound(|x|, a, BASE - 1);
    ProductBound(BASE - 1, |x|, 5504);
    hide Sum, Weighted;
    var m := |x| * a;
    assert m <= 5504 * (BASE - 1);
  }

  lemma CutLosesNothing(x: seq<Byte>, a: nat, b: nat)
    requires |x| <= 5504 && a < BASE && b < BASE
    ensures CutIsRight(x, a, b)
  {
    hide Folded, Sum, Weighted;
    FoldedIsSmall(x, a, b);
    UncutBelow(a + Sum(x));
    UncutBelow(Folded(x, a, b));
  }

  lemma UncutBelow(z: nat)
    requires z < TWO32
    ensures z % TWO32 == z
  {
  }

  /** The result of a block stays right, whatever the data, if and only if it has at most 86 steps. */
  lemma MaxExactSteps(n: nat)
    ensures BlockExact(n) <==> n <= 86
  {
    hide CutIsRight;
    if n <= 86 {
      forall x: seq<Byte>, a: nat, b: nat | |x| == 64 * n && a < BASE && b < BASE ensures CutIsRight(x, a, b) {
        CutLosesNothing(x, a, b);
      }
    } else {
      var x, a, b := WrappingBlock(n);
      CutIsWrong(x, a, b);
    }
  }

  lemma CutIsWrong(x: seq<Byte>, a: nat, b: nat)
    requires TWO32 <= Folded(x, a, b) < 2 * TWO32
    ensures !CutIsRight(x, a, b)
  {
    hide Folded;
    WrapsOnce(Folded(x, a, b));
  }

  // A block of any number of steps, and the reduction after it.
  method ReduceBlock(x: seq<Byte>, n: nat, a0: nat, b0: nat) returns (a: nat, b: nat)
    requires |x| == 64 * n && a0 < BASE && b0 < BASE
    ensures a == (a0 + Sum(x)) % TWO32 % BASE && b == Folded(x, a0, b0) % TWO32 % BASE
  {
    var va, vb, copied := Steps(x);
    a, b := ReduceSums(a0, b0, va, vb, |x|);
    SumSame(a0, a0, Total(va), Sum(x));
    SumSame(b0 + |x| * a0, b0 + |x| * a0, Total(vb), Weighted(x));
    hide Sum, Weighted, Total;
  }

  // ----- the running sums -----

  // `a` and `b` are the sums of `done`, up to multiples of BASE.
  ghost predicate Tracks(a: nat, b: nat, done: seq<Byte>, start: Sums) {
    Reduce(Sums(a, b)) == Reduce(Exact(done, start))
  }

  lemma TracksOn(a: nat, b: nat, done: seq<Byte>, start: Sums, x: seq<Byte>)
    requires Tracks(a, b, done, start)
    ensures Reduce(Sums(a + Sum(x), Folded(x, a, b))) == Reduce(Exact(done + x, start))
  {
    FoldedIsExact(x, a, b);
    hide *;
    TracksExact(a, b, done, start, x);
  }

  lemma FoldedIsExact(x: seq<Byte>, a: nat, b: nat)
    ensures Exact(x, Sums(a, b)) == Sums(a + Sum(x), Folded(x, a, b))
  {
  }

  lemma TracksExact(a: nat, b: nat, done: seq<Byte>, start: Sums, x: seq<Byte>)
    requires Tracks(a, b, done, start)
    ensures Reduce(Exact(x, Sums(a, b))) == Reduce(Exact(done + x, start))
  {
    hide Exact, Reduce;
    ExactConcat(done, x, start);
    ReducedStart(x, Sums(a, b));
    ReducedStart(x, Exact(done, start));
  }

  lemma CutAndReduce(s: Sums)
    requires s.a < TWO32 && s.b < TWO32
    ensures Reduce(Sums(s.a % TWO32 % BASE, s.b % TWO32 % BASE)) == Reduce(s)
  {
  }

  // One byte.
  lemma TracksByte(a: nat, b: nat, done: seq<Byte>, start: Sums, d: Byte)
    requires Tracks(a, b, done, start)
    ensures Tracks(a + d, b + (a + d), done + [d], start)
  {
    TracksOn(a, b, done, start, [d]);
    assert [d][..0] == [];
    assert Sum([d]) == d && Weighted([d]) == d;
    hide Exact;
  }

  // A block folded in with nothing lost.
  lemma TracksBlock(a: nat, b: nat, done: seq<Byte>, start: Sums, x: seq<Byte>)
    requires Tracks(a, b, done, start) && a + Sum(x) < TWO32 && Folded(x, a, b) < TWO32
    ensures Tracks((a + Sum(x)) % TWO32 % BASE, Folded(x, a, b) % TWO32 % BASE, done + x, start)
  {
    TracksOn(a, b, done, start, x);
    TracksCut(a + Sum(x), Folded(x, a, b), done + x, start);
    hide *;
  }

  lemma TracksCut(a: nat, b: nat, done: seq<Byte>, start: Sums)
    requires Reduce(Sums(a, b)) == Reduce(Exact(done, start)) && a < TWO32 && b < TWO32
    ensures Tracks(a % TWO32 % BASE, b % TWO32 % BASE, done, start)
  {
    CutAndReduce(Sums(a, b));
    hide Exact, Reduce;
  }

  // ----- the parts of the checksum -----

  // Sums that any number of bytes up to one chunk can have moved from a starting value.
  ghost predicate Small(a: nat, b: nat, n: nat) {
    a <= 65535 + 255 * n && b <= 65535 + 80000 * n
  }

  // Single bytes up to the next 16-byte boundary; `align` is the address of the buffer modulo 16.
  method AlignedPrefix(data: seq<Byte>, align: nat, start: Sums) returns (a: nat, b: nat, i: nat, copied: seq<Byte>)
    requires align < 16 && |data| >= 16 && start.a < TWO16 && start.b < TWO16
    ensures i < 16 && (align + i) % 16 == 0 && Small(a, b, i)
    ensures copied == data[..i] && Tracks(a, b, data[..i], start)
  {
    hide Tracks;
    a, b, i, copied := start.a, start.b, 0, [];
    TracksNothing(start);
    while (align + i) % 16 != 0
      invariant i <= (16 - align) % 16 && Small(a, b, i)
      invariant copied == data[..i] && Tracks(a, b, data[..i], start)
      decreases 16 - i
    {
      TracksByte(a, b, data[..i], start, data[i]);
      assert data[..i + 1] == data[..i] + [data[i]];
      copied := copied + [data[i]];
      a := a + data[i];
      b := b + a;
      i := i + 1;
    }
  }

  // Four-chunk steps over `x`.
  method Steps(x: seq<Byte>) returns (va: seq<int>, vb: seq<int>, copied: seq<Byte>)
    requires |x| % 64 == 0
    ensures HoldsMod(va, vb, x) && copied == x
    ensures |x| <= 4096 ==> Holds(va, vb, x)
  {
    hide Holds, HoldsMod;
    va, vb, copied := ZERO4, ZERO4, [];
    HoldsNothing();
    var j := 0;
    while j < |x|
      invariant j <= |x| && j % 64 == 0 && HoldsMod(va, vb, x[..j]) && copied == x[..j]
      invariant |x| <= 4096 ==> Holds(va, vb, x[..j])
    {
      if |x| <= 4096 { WeightedBound(x[..j] + x[j..j + 64], 4096); }
      var c;
      assert x[..j + 64] == x[..j] + x[j..j + 64];
      va, vb, c := Chunk4(va, vb, x[..j], x[j..j + 64]);
      copied := copied + c;
      j := j + 64;
    }
    assert x[..j] == x;
  }

  // One block of `nstep` four-chunk steps.
  method Block(x: seq<Byte>) returns (va: seq<int>, vb: seq<int>, copied: seq<Byte>)
    requires |x| == 64 * NSTEP
    ensures Holds(va, vb, x) && copied == x
  {
    va, vb, copied := Steps(x);
  }

  lemma HoldsNothing()
    ensures Holds(ZERO4, ZERO4, []) && HoldsMod(ZERO4, ZERO4, [])
  {
  }

  // Single chunks, fewer than a block of them.
  method Chunks(x: seq<Byte>) returns (va: seq<int>, vb: seq<int>, copied: seq<Byte>)
    requires |x| % 16 == 0 && |x| < 64 * NSTEP
    ensures Holds(va, vb, x) && copied == x
  {
    hide Holds;
    va, vb, copied := ZERO4, ZERO4, [];
    HoldsNothing();
    var j := 0;
    while j < |x|
      invariant j <= |x| && j % 16 == 0 && Holds(va, vb, x[..j]) && copied == x[..j]
    {
      WeightedBound(x[..j] + x[j..j + 16], 4096);
      HoldsIsMod(va, vb, x[..j]);
      var c;
      assert x[..j + 16] == x[..j] + x[j..j + 16];
      va, vb, c := Chunk1(va, vb, x[..j], x[j..j + 16]);
      copied := copied + c;
      j := j + 16;
    }
    assert x[..j] == x;
  }

  // A block of up to 1024 bytes leaves room in 32 bits.
  lemma BlockHasRoom(a: nat, b: nat, x: seq<Byte>)
    requires Small(a, b, 16) && |x| <= 64 * NSTEP
    ensures a + Sum(x) < TWO32 && Folded(x, a, b) < TWO32
  {
    WeightedBound(x, 1024);
    Bounds(x);
    ProductBound(|x|, a, 70000);
    hide Sum, Weighted;
  }

  // Fold a block into the running sums.
  method FoldBlock(a0: nat, b0: nat, va: seq<int>, vb: seq<int>, ghost done: seq<Byte>, ghost start: Sums,
      ghost x: seq<Byte>, k: nat)
    returns (a: nat, b: nat)
    requires Small(a0, b0, 16) && |x| == k <= 64 * NSTEP && Holds(va, vb, x) && Tracks(a0, b0, done, start)
    ensures a < BASE && b < BASE && Tracks(a, b, done + x, start)
  {
    BlockHasRoom(a0, b0, x);
    TracksBlock(a0, b0, done, start, x);
    hide Tracks, Sum, Weighted;
    a, b := ReduceSums(a0, b0, va, vb, k);
  }

  // The remaining single bytes, cut to 32 bits and reduced.
  method FinishSums(a0: nat, b0: nat, data: seq<Byte>, i: nat, ghost start: Sums) returns (r: nat, copied: seq<Byte>)
    requires i <= |data| < i + 16 && Small(a0, b0, 16) && Tracks(a0, b0, data[..i], start)
    ensures r == Pack(Reference(data, start)) && copied == data[i..]
  {
    hide Tracks;
    var a: nat, b: nat := a0, b0;
    copied := [];
    for j := i to |data|
      invariant Small(a, b, 16 + (j - i)) && Tracks(a, b, data[..j], start) && copied == data[i..j]
    {
      TracksByte(a, b, data[..j], start, data[j]);
      assert data[..j + 1] == data[..j] + [data[j]];
      copied := copied + [data[j]];
      a := a + data[j];
      b := b + a;
    }
    assert data[..|data|] == data && data[i..|data|] == data[i..];
    TracksReference(a, b, data, start);
    b := b % TWO32 % BASE;
    a := a % TWO32 % BASE;
    r := b * TWO16 + a;
  }

  lemma TracksReference(a: nat, b: nat, data: seq<Byte>, start: Sums)
    requires Tracks(a, b, data, start) && a < TWO32 && b < TWO32
    ensures Pack(Sums(a % TWO32 % BASE, b % TWO32 % BASE)) == Pack(Reference(data, start))
  {
    ReferenceIsExact(data, start);
    hide Exact, Reference;
  }

  /**
   The vectorised checksum equals the reference for every buffer, every alignment and every
   starting value, and hands every byte to the copying operation once and in order.
   */
  method Sse(data: seq<Byte>, align: nat, sofar: nat) returns (r: nat, copied: seq<Byte>)
    requires align < 16 && sofar < TWO32
    ensures r == Checksum(data, sofar) && copied == data
  {
    hide Holds, Tracks;
    ghost var start := Unpack(sofar);
    var a: nat, b: nat, i := sofar % TWO16, sofar / TWO16, 0;
    copied := [];
    TracksNothing(start);
    var c;
    if |data| >= 16 {
      a, b, i, copied := AlignedPrefix(data, align, Sums(a, b));
      var va, vb;
      while i + 64 * NSTEP <= |data|
        invariant i <= |data| && Small(a, b, 16) && Tracks(a, b, data[..i], start) && copied == data[..i]
      {
        ghost var x := data[i..i + 64 * NSTEP];
        assert data[..i + 64 * NSTEP] == data[..i] + x;
        va, vb, c := Block(data[i..i + 64 * NSTEP]);
        a, b := FoldBlock(a, b, va, vb, data[..i], start, x, 64 * NSTEP);
        copied := copied + c;
        i := i + 64 * NSTEP;
      }
      var nstep := (|data| - i) / 16;
      ghost var x := data[i..i + 16 * nstep];
      assert data[..i + 16 * nstep] == data[..i] + x;
      va, vb, c := Chunks(data[i..i + 16 * nstep]);
      copied := copied + c;
      a, b := FoldBlock(a, b, va, vb, data[..i], start, x, 16 * nstep);
      i := i + 16 * nstep;
    }
    r, c := FinishSums(a, b, data, i, start);
    copied := copied + c;
  }

  lemma TracksNothing(start: Sums)
    ensures Tracks(start.a, start.b, [], start)
  {
  }
}
