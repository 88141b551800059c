/** The scalar checksum, its copying variant and the merge, in 64-bit arithmetic. */
module AdlerScalar {
  import opened Basics
  import opened Adler

  // A sum kept in 64 bits and reduced once.
  function Reduce64(s: Sums): Sums { Sums(s.a % TWO64 % BASE, s.b % TWO64 % BASE) }

  lemma WrapAdd(x: nat, y: nat)
    ensures (x % TWO64 + y) % TWO64 == (x + y) % TWO64
    ensures (x % TWO64 + y % TWO64) % TWO64 == (x + y) % TWO64
  {
  }

  // One byte in 64-bit arithmetic.
  lemma SingleWraps(x: seq<Byte>, start: Sums, d: Byte)
    ensures var e, e' := Exact(x, start), Exact(x + [d], start);
            && (e.a % TWO64 + d) % TWO64 == e'.a % TWO64
            && (e.b % TWO64 + e'.a % TWO64) % TWO64 == e'.b % TWO64
  {
    ExactExtend(x, start, d);
    hide Exact;
    var e := Exact(x, start);
    WrapAdd(e.a, d);
    WrapAdd(e.b, e.a + d);
  }

  lemma NothingAdded(start: Sums)
    ensures Exact([], start) == start
  {
  }

  // The loop over the bytes from `i` on; `copied` is what the copying operation was handed.
  method Finish(a0: nat, b0: nat, data: seq<Byte>, i: nat) returns (r: nat, copied: seq<Byte>)
    requires i <= |data| && a0 < TWO64 && b0 < TWO64
    ensures r == Pack(Reduce64(Exact(data[i..], Sums(a0, b0))))
    ensures copied == data[i..]
  {
    hide Exact;
    var a, b := a0, b0;
    copied := [];
    ghost var start := Sums(a0, b0);
    NothingAdded(start);
    for j := i to |data|
      invariant copied == data[i..j]
      invariant a == Exact(data[i..j], start).a % TWO64 && b == Exact(data[i..j], start).b % TWO64
    {
      SingleWraps(data[i..j], start, data[j]);
      assert data[i..j + 1] == data[i..j] + [data[j]];
      copied := copied + [data[j]];
      a := (a + data[j]) % TWO64;
      b := (b + a) % TWO64;
    }
    assert data[i..|data|] == data[i..];
    r := (b % BASE) * TWO16 + a % BASE;
  }

  // What the scalar form returns.
  function VanillaResult(data: seq<Byte>, sofar: nat): nat {
    Pack(Reduce64(Exact(data, Unpack(sofar))))
  }

  method Vanilla(data: seq<Byte>, sofar: nat) returns (r: nat, copied: seq<Byte>)
    requires sofar < TWO32
    ensures r == VanillaResult(data, sofar) && copied == data
  {
    r, copied := Finish(sofar % TWO16, sofar / TWO16, data, 0);
    assert data[0..] == data;
  }

  // ----- how long the single final reduction is exact -----

  // 2^64 bounds the weighted sum of this many bytes, and of no more.
  const LIMIT: nat := 380368439

  lemma {:induction false} Bounds(data: seq<Byte>)
    ensures Sum(data) <= 255 * |data|
    ensures 2 * Weighted(data) <= 255 * (|data| * (|data| + 1))
  {
    if data != [] {
      var k := |data| - 1;
      Bounds(data[..k]);
      assert data[..k] + [data[k]] == data;
      assert |data| * (|data| + 1) == k * (k + 1) + 2 * |data|;
    }
  }

  // The worst data: all bytes 255.
  function Full(n: nat): (data: seq<Byte>)
    ensures |data| == n && forall i :: 0 <= i < n ==> data[i] == 255
  {
    seq(n, i => 255)
  }

  lemma {:induction false} FullSums(data: seq<Byte>)
    requires forall i :: 0 <= i < |data| ==> data[i] == 255
    ensures Sum(data) == 255 * |data| && 2 * Weighted(data) == 255 * (|data| * (|data| + 1))
  {
    if data != [] {
      var k := |data| - 1;
      FullSums(data[..k]);
      assert |data| * (|data| + 1) == k * (k + 1) + 2 * |data|;
    }
  }

  lemma ProductGrows(n: nat, m: nat)
    requires n <= m
    ensures n * (n + 1) <= m * (m + 1)
  {
  }

  lemma NoWrap(data: seq<Byte>, sofar: nat)
    requires |data| <= LIMIT && sofar < TWO32
    ensures Exact(data, Unpack(sofar)).a < TWO64 && Exact(data, Unpack(sofar)).b < TWO64
  {
    Bounds(data);
    ProductGrows(|data|, LIMIT);
    var s := Unpack(sofar);
    assert s.a < TWO16 && s.b < TWO16;
    assert |data| * s.a <= LIMIT * (TWO16 - 1);
  }

  lemma ShortIsExact(data: seq<Byte>, sofar: nat)
    requires |data| <= LIMIT && sofar < TWO32
    ensures VanillaResult(data, sofar) == Checksum(data, sofar)
  {
    NoWrap(data, sofar);
    ReferenceIsExact(data, Unpack(sofar));
    NotReduced(Exact(data, Unpack(sofar)));
    hide Exact, Reference, Unpack, Reduce64, Reduce;
  }

  lemma NotReduced(s: Sums)
    requires s.a < TWO64 && s.b < TWO64
    ensures Reduce64(s) == Reduce(s)
  {
  }

  // One byte more can wrap, and a wrapped sum reduces to something else.
  lemma OneMoreWraps()
    ensures VanillaResult(Full(LIMIT + 1), TWO32 - 1) != Checksum(Full(LIMIT + 1), TWO32 - 1)
  {
    var data := Full(LIMIT + 1);
    var e := Exact(data, Unpack(TWO32 - 1));
    FullSums(data);
    ReferenceIsExact(data, Unpack(TWO32 - 1));
    assert Unpack(TWO32 - 1) == Sums(65535, 65535);
    assert e.b == 65535 + (LIMIT + 1) * 65535 + Weighted(data);
    assert 2 * e.b == 2 * 65535 + 2 * (LIMIT + 1) * 65535 + 255 * ((LIMIT + 1) * (LIMIT + 2));
    assert e.b == 18446744119817041035;
  }

  /** The single final reduction is exact for every buffer of up to `n` bytes exactly when `n` is at most LIMIT. */
  lemma ScalarIsExactUpToLimit(n: nat)
    ensures (forall data: seq<Byte>, sofar: nat ::
               |data| <= n && sofar < TWO32 ==> VanillaResult(data, sofar) == Checksum(data, sofar))
            <==> n <= LIMIT
  {
    hide VanillaResult, Checksum;
    if n <= LIMIT {
      forall data: seq<Byte>, sofar: nat | |data| <= n && sofar < TWO32
        ensures VanillaResult(data, sofar) == Checksum(data, sofar)
      {
        ShortIsExact(data, sofar);
      }
    } else {
      OneMoreWraps();
      assert |Full(LIMIT + 1)| <= n;
    }
  }

  // ----- merging -----

  // The sum of three terms does not care where it is wrapped.
  lemma WrapThree(x: nat, y: nat, z: nat)
    ensures (x + (y % TWO64 + z) % TWO64) % TWO64 == (x + y + z) % TWO64
  {
    WrapAdd(y, z);
    WrapAdd(y + z, x);
  }

  method Merge(left: nat, right: nat, size: nat) returns (r: nat)
    requires left < TWO32 && right < TWO32 && size < TWO64
    ensures r == MergeResult(left, right, size)
  {
    MergeInSteps(left, right, size);
    hide Exact, Pack, Reduce64, MergeResult;
    var a := left % TWO16;
    var b := left / TWO16;
    var d1 := right % TWO16;
    var d2 := right / TWO16;
    a := a + (BASE - 1);
    b := (b + (size * a % TWO64 + d2) % TWO64) % TWO64;
    a := a + d1;
    NothingAdded(Sums(a, b));
    var copied;
    r, copied := Finish(a, b, [], 0);
  }

  lemma MergeInSteps(left: nat, right: nat, size: nat)
    ensures var l, d := Unpack(left), Unpack(right);
            var a := l.a + (BASE - 1);
            Pack(Reduce64(Sums(a + d.a, (l.b + (size * a % TWO64 + d.b) % TWO64) % TWO64)))
            == MergeResult(left, right, size)
  {
    var l, d := Unpack(left), Unpack(right);
    var a := l.a + (BASE - 1);
    hide Pack, Unpack;
    ReduceWrapped(a + d.a, l.b, size * a, d.b);
  }

  // Wrapping on the way does not matter to a sum that is reduced from 64 bits.
  lemma ReduceWrapped(a: nat, x: nat, y: nat, z: nat)
    ensures Reduce64(Sums(a, (x + (y % TWO64 + z) % TWO64) % TWO64)) == Reduce64(Sums(a, x + y + z))
  {
    WrapThree(x, y, z);
    WrapTwice(x + y + z);
  }

  lemma WrapTwice(x: nat)
    ensures x % TWO64 % TWO64 == x % TWO64
  {
  }

  // The merged sums before any reduction.
  function MergedSums(left: nat, right: nat, size: nat): Sums {
    var l, d := Unpack(left), Unpack(right);
    var a := l.a + (BASE - 1);
    Sums(a + d.a, l.b + size * a + d.b)
  }

  function MergeResult(left: nat, right: nat, size: nat): nat {
    Pack(Reduce64(MergedSums(left, right, size)))
  }

  // The right half counted an initial 1 for each of its bytes; adding BASE - 1 takes it back.
  lemma TakeBackOne(l: Sums, n: nat, sum: nat, weighted: nat)
    ensures (l.a + (BASE - 1) + (1 + sum) % BASE) % BASE == (l.a + sum) % BASE
    ensures (l.b + n * (l.a + (BASE - 1)) + (n + weighted) % BASE) % BASE == (l.b + n * l.a + weighted) % BASE
  {
    AddMod(1 + sum, l.a + (BASE - 1));
    AddMultiple(l.a + sum, 1);
    TakeBackWeights(l.a, l.b, n, weighted);
  }

  lemma TakeBackWeights(a: nat, b: nat, n: nat, weighted: nat)
    ensures (b + n * (a + (BASE - 1)) + (n + weighted) % BASE) % BASE == (b + n * a + weighted) % BASE
  {
    var p := n * a;
    assert n * (a + (BASE - 1)) == p + n * (BASE - 1);
    AddMod(n + weighted, b + p + n * (BASE - 1));
    AddMultiple(b + p + weighted, n);
  }

  // Up to multiples of BASE, the merged sums are the sums of the concatenation.
  lemma MergedSumsAreExact(x: seq<Byte>, y: seq<Byte>)
    ensures Reduce(MergedSums(Checksum(x, 1), Checksum(y, 1), |y|)) == Reduce(Exact(x + y, Sums(1, 0)))
  {
    var l, d := Reference(x, Sums(1, 0)), Reference(y, Sums(1, 0));
    assert Unpack(1) == Sums(1, 0);
    ReferenceIsExact(x, Sums(1, 0));
    ReferenceIsExact(y, Sums(1, 0));
    UnpackPack(l);
    UnpackPack(d);
    ExactConcat(x, y, Sums(1, 0));
    ReducedStart(y, Exact(x, Sums(1, 0)));
    MergedBy(l, y);
    hide Exact, Reference, Pack, Unpack;
  }

  lemma MergedBy(l: Sums, y: seq<Byte>)
    ensures var d := Reduce(Exact(y, Sums(1, 0)));
            Reduce(Sums(l.a + (BASE - 1) + d.a, l.b + |y| * (l.a + (BASE - 1)) + d.b)) == Reduce(Exact(y, l))
  {
    TakeBackOne(l, |y|, Sum(y), Weighted(y));
    hide Sum, Weighted;
  }

  /**
   Merging the checksums of two adjacent buffers gives the checksum of their concatenation,
   exactly when the number of times the 64-bit product wraps is a multiple of BASE; in
   particular whenever it does not wrap.
   */
  lemma MergeIsConcatenation(x: seq<Byte>, y: seq<Byte>)
    ensures var e := MergedSums(Checksum(x, 1), Checksum(y, 1), |y|);
            MergeResult(Checksum(x, 1), Checksum(y, 1), |y|) == Checksum(x + y, 1) <==> e.b / TWO64 % BASE == 0
  {
    var l, d := Checksum(x, 1), Checksum(y, 1);
    var e := MergedSums(l, d, |y|);
    assert Unpack(1) == Sums(1, 0);
    MergedSumsAreExact(x, y);
    ReferenceIsExact(x + y, Sums(1, 0));
    MergedSmall(l, d, |y|);
    PackedWraps(e);
    hide Exact, Reference, MergedSums, Unpack, Reduce64, Reduce, Pack;
  }

  lemma PackedWraps(e: Sums)
    requires e.a < TWO64
    ensures Pack(Reduce64(e)) == Pack(Reduce(e)) <==> e.b / TWO64 % BASE == 0
  {
    WrapsShow(e.b);
    PackInjective(Reduce64(e), Reduce(e));
  }

  lemma MergedSmall(left: nat, right: nat, size: nat)
    ensures MergedSums(left, right, size).a < TWO64
  {
  }

  lemma PackInjective(s: Sums, u: Sums)
    requires s.a < BASE && u.a < BASE
    ensures Pack(s) == Pack(u) <==> s == u
  {
  }

  // Dropping `q` multiples of 2^64 shows exactly when BASE does not divide `q`.
  lemma WrapsShow(e: nat)
    ensures e % TWO64 % BASE == e % BASE <==> e / TWO64 % BASE == 0
  {
    var q, r := e / TWO64, e % TWO64;
    assert e == TWO64 * q + r;
    assert TWO64 == BASE * (TWO64 / BASE) + 50625;
    assert e == BASE * (TWO64 / BASE * q) + (50625 * q + r);
    AddMultiple(50625 * q + r, TWO64 / BASE * q);
    CancelMod(50625 * q, r);
    Invertible(q);
  }

  lemma CancelMod(x: nat, r: nat)
    ensures (x + r) % BASE == r % BASE <==> x % BASE == 0
  {
    AddMod(x, r);
  }

  // 50625 has an inverse modulo BASE.
  lemma Invertible(q: nat)
    ensures 50625 * q % BASE == 0 <==> q % BASE == 0
  {
    // 50625 * 42864 == 33119 * BASE + 1
    var z := 50625 * q;
    var w := z / BASE;
    assert z == BASE * w + z % BASE;
    if z % BASE == 0 {
      assert q == BASE * (42864 * w - 33119 * q);
      MultipleIsZero(q, 42864 * w - 33119 * q);
    }
    if q % BASE == 0 {
      assert z == BASE * (50625 * (q / BASE));
      MultipleIsZero(z, 50625 * (q / BASE));
    }
  }

  lemma MultipleIsZero(x: nat, q: int)
    requires x == BASE * q
    ensures x % BASE == 0
  {
  }

  // No buffer below 64 TiB makes the product wrap.
  lemma MergeDoesNotWrap(x: seq<Byte>, y: seq<Byte>)
    requires |y| < 0x4000_0000_0000
    ensures MergeResult(Checksum(x, 1), Checksum(y, 1), |y|) == Checksum(x + y, 1)
  {
    MergeIsConcatenation(x, y);
    assert MergedSums(Checksum(x, 1), Checksum(y, 1), |y|) == MergedSums(Pack(Reference(x, Unpack(1))),
         Pack(Reference(y, Unpack(1))), |y|);
    ReferenceIsExact(x, Unpack(1));
    ReferenceIsExact(y, Unpack(1));
    var l, d := Reference(x, Unpack(1)), Reference(y, Unpack(1));
    UnpackPack(l);
    UnpackPack(d);
    hide Exact, Reference, MergeResult, Checksum;
    SmallProduct(|y|, l.a + (BASE - 1));
  }

  lemma SmallProduct(n: nat, a: nat)
    requires n < 0x4000_0000_0000 && a < 2 * BASE
    ensures n * a <= 0x4000_0000_0000 * (2 * BASE)
  {
  }
}
