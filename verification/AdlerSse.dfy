/**
 The vectorised checksum with its 16-bit and 32-bit lanes written out: saturating byte
 products, wrapping lane additions, signed and unsigned widening.  A vector is the sequence of
 its lanes, each lane holding the signed value of its bit pattern.
 */
module AdlerSse {
  import opened Basics
  import opened Adler

  const TWO15: int := 0x8000
  const TWO31: int := 0x8000_0000

  // ----- lanes -----

  function Saturate16(x: int): int { if x < -TWO15 then -TWO15 else if x >= TWO15 then TWO15 - 1 else x }

  function Wrap16(x: int): int { (x + TWO15) % TWO16 - TWO15 }

  function Wrap32(x: int): int { (x + TWO31) % TWO32 - TWO31 }

  // The unsigned value of a 16-bit pattern.
  function Unsigned16(x: int): int { x % TWO16 }

  // pmaddubsw: products of neighbouring unsigned and signed bytes, added with saturation.
  function MaddBytes(x: seq<Byte>, c: seq<int>): (v: seq<int>)
    requires |x| == |c| == 16
    ensures |v| == 8
  {
    seq(8, i requires 0 <= i < 8 => Saturate16(x[2 * i] * c[2 * i] + x[2 * i + 1] * c[2 * i + 1]))
  }

  function Add16(v: seq<int>, w: seq<int>): (u: seq<int>)
    requires |v| == |w| == 8
    ensures |u| == 8
  {
    seq(8, i requires 0 <= i < 8 => Wrap16(v[i] + w[i]))
  }

  // Arithmetic shift right by four.
  function Shift4(v: seq<int>): (u: seq<int>)
    requires |v| == 8
    ensures |u| == 8
  {
    seq(8, i requires 0 <= i < 8 => v[i] / 16)
  }

  // pmaddwd with ones: neighbouring signed 16-bit lanes added into 32-bit lanes.
  function AddPairs(v: seq<int>): (u: seq<int>)
    requires |v| == 8
    ensures |u| == 4
  {
    seq(4, i requires 0 <= i < 4 => Wrap32(v[2 * i] + v[2 * i + 1]))
  }

  // punpcklwd and punpckhwd with zeros: four 16-bit lanes widened as unsigned numbers.
  function Widen(v: seq<int>, from: nat): (u: seq<int>)
    requires |v| == 8 && from <= 4
    ensures |u| == 4
  {
    seq(4, i requires 0 <= i < 4 => Unsigned16(v[from + i]))
  }

  function Add32(v: seq<int>, w: seq<int>): (u: seq<int>)
    requires |v| == |w| == 4
    ensures |u| == 4
  {
    seq(4, i requires 0 <= i < 4 => Wrap32(v[i] + w[i]))
  }

  function Times(k: int, v: int): int { k * v }

  function Scale32(k: int, v: seq<int>): (u: seq<int>)
    requires |v| == 4
    ensures |u| == 4
  {
    seq(4, i requires 0 <= i < 4 => Wrap32(Times(k, v[i])))
  }

  const ZERO4: seq<int> := [0, 0, 0, 0]
  const C2: seq<int> := [16, 15, 14, 13, 12, 11, 10, 9, 8, 7, 6, 5, 4, 3, 2, 1]
  const ONES: seq<int> := [1, 1, 1, 1, 1, 1, 1, 1, 1, 1, 1, 1, 1, 1, 1, 1]
  const B16: seq<int> := [16, 16, 16, 16, 16, 16, 16, 16, 16, 16, 16, 16, 16, 16, 16, 16]

  function Total(v: seq<int>): int
    requires |v| == 4
  {
    v[0] + v[1] + v[2] + v[3]
  }

  ghost predicate Nonneg(v: seq<int>) {
    forall i :: 0 <= i < |v| ==> v[i] >= 0
  }

  // ----- sixteen bytes -----

  lemma SumTwo(x: seq<Byte>)
    requires |x| == 2
    ensures var y: seq<int> := x; Sum(x) == y[0] + y[1] && Weighted(x) == 2 * y[0] + y[1]
  {
    SumOne(x[..1]);
  }

  lemma SumOne(x: seq<Byte>)
    requires |x| == 1
    ensures Sum(x) == x[0] && Weighted(x) == x[0]
  {
    assert x[..0] == [];
    assert Sum(x[..0]) == 0 && Weighted(x[..0]) == 0;
  }

  lemma SumFour(x: seq<Byte>)
    requires |x| == 4
    ensures var y: seq<int> := x;
            Sum(x) == y[0] + y[1] + y[2] + y[3] && Weighted(x) == 4 * y[0] + 3 * y[1] + 2 * y[2] + y[3]
  {
    SumTwo(x[..2]);
    SumTwo(x[2..]);
    assert x == x[..2] + x[2..];
    SumConcat(x[..2], x[2..]);
    WeightedConcat(x[..2], x[2..]);
    hide Sum, Weighted;
  }

  lemma SumEight(x: seq<Byte>)
    requires |x| == 8
    ensures var y: seq<int> := x;
            && Sum(x) == y[0] + y[1] + y[2] + y[3] + y[4] + y[5] + y[6] + y[7]
            && Weighted(x) == 8 * y[0] + 7 * y[1] + 6 * y[2] + 5 * y[3] + 4 * y[4] + 3 * y[5] + 2 * y[6] + y[7]
  {
    hide Sum, Weighted;
    SumFour(x[..4]);
    SumFour(x[4..]);
    assert x == x[..4] + x[4..];
    SumConcat(x[..4], x[4..]);
    WeightedConcat(x[..4], x[4..]);
  }

  lemma SumSixteen(x: seq<Byte>)
    requires |x| == 16
    ensures var y: seq<int> := x;
            && Sum(x) == y[0] + y[1] + y[2] + y[3] + y[4] + y[5] + y[6] + y[7]
                         + y[8] + y[9] + y[10] + y[11] + y[12] + y[13] + y[14] + y[15]
            && Weighted(x) == 16 * y[0] + 15 * y[1] + 14 * y[2] + 13 * y[3] + 12 * y[4] + 11 * y[5]
                              + 10 * y[6] + 9 * y[7]
                              + 8 * y[8] + 7 * y[9] + 6 * y[10] + 5 * y[11] + 4 * y[12] + 3 * y[13] + 2 * y[14] + y[15]
  {
    hide Sum, Weighted;
    SumEight(x[..8]);
    SumEight(x[8..]);
    assert x == x[..8] + x[8..];
    SumConcat(x[..8], x[8..]);
    WeightedConcat(x[..8], x[8..]);
  }

  // ----- one lane -----

  lemma Fits16(x: int)
    requires -TWO15 <= x < TWO15
    ensures Wrap16(x) == x
  {
  }

  lemma Fits32(x: int)
    requires -TWO31 <= x < TWO31
    ensures Wrap32(x) == x
  {
  }

  // A lane that passes the sign bit is still right when read as unsigned.
  lemma UnsignedSurvives(x: int, y: int)
    requires 0 <= x < TWO15 && 0 <= y && x + y < TWO16
    ensures Unsigned16(Wrap16(x + y)) == x + y
  {
  }

  // The byte products of lane `i` in chunk `k`, with weights 16 and with the falling weights.
  function Flat(x: seq<Byte>, k: nat, i: nat): int
    requires |x| % 16 == 0 && k < |x| / 16 && i < 8
  {
    var c: int := 16;
    x[16 * k + 2 * i] * c + x[16 * k + 2 * i + 1] * c
  }

  function Falling(x: seq<Byte>, k: nat, i: nat): int
    requires |x| % 16 == 0 && k < |x| / 16 && i < 8
  {
    x[16 * k + 2 * i] * (16 - 2 * i) + x[16 * k + 2 * i + 1] * (15 - 2 * i)
  }

  lemma Constants()
    ensures forall j :: 0 <= j < 16 ==> C2[j] == 16 - j && B16[j] == 16 && ONES[j] == 1
  {
  }

  lemma ByteProduct(d: Byte, c: int)
    requires 0 <= c
    ensures 0 <= d * c <= 255 * c
  {
  }

  function Chunk(x: seq<Byte>, k: nat): (c: seq<Byte>)
    requires |x| % 16 == 0 && k < |x| / 16
    ensures |c| == 16
  {
    x[16 * k..16 * k + 16]
  }

  // No byte product saturates.
  lemma ProductsFit(x: seq<Byte>, k: nat, i: nat)
    requires |x| % 16 == 0 && k < |x| / 16 && i < 8
    ensures MaddBytes(Chunk(x, k), B16)[i] == Flat(x, k, i) && 0 <= Flat(x, k, i) <= 8160
    ensures MaddBytes(Chunk(x, k), C2)[i] == Falling(x, k, i) && 0 <= Falling(x, k, i) <= 7905
  {
    Constants();
    var p, q := x[16 * k + 2 * i], x[16 * k + 2 * i + 1];
    assert Chunk(x, k)[2 * i] == p && Chunk(x, k)[2 * i + 1] == q;
    ByteProduct(p, 16 - 2 * i);
    ByteProduct(q, 15 - 2 * i);
  }

  // ----- four chunks of sixteen bytes -----

  // What the 16-bit lanes hold after four chunks: nothing has wrapped but the sign of `s2y`.
  ghost predicate LanesExact(x: seq<Byte>, s1: seq<int>, s2x: seq<int>, s2y: seq<int>, i: nat)
    requires |x| == 64 && |s1| == |s2x| == |s2y| == 8 && i < 8
  {
    && s1[i] == Flat(x, 0, i) + Flat(x, 1, i) + Flat(x, 2, i) + Flat(x, 3, i)
    && s2x[i] == Falling(x, 0, i) + Falling(x, 1, i) + Falling(x, 2, i) + Falling(x, 3, i)
    && Unsigned16(s2y[i]) == 3 * Flat(x, 0, i) + 2 * Flat(x, 1, i) + Flat(x, 2, i)
    && 0 <= s1[i] <= 32640 && 0 <= s2x[i] <= 31620 && Unsigned16(s2y[i]) <= 48960
  }

  // A lane-wise addition that stays below the sign bit is exact.
  lemma AddFits(v: seq<int>, w: seq<int>, i: nat)
    requires |v| == |w| == 8 && i < 8 && 0 <= v[i] && 0 <= w[i] && v[i] + w[i] < TWO15
    ensures Add16(v, w)[i] == v[i] + w[i]
  {
    Fits16(v[i] + w[i]);
  }

  // The 16-bit part of the four-chunk body.
  method Chunk4Lanes(x: seq<Byte>) returns (s1: seq<int>, s2x: seq<int>, s2y: seq<int>, copied: seq<Byte>)
    requires |x| == 64
    ensures |s1| == |s2x| == |s2y| == 8 && forall i :: 0 <= i < 8 ==> LanesExact(x, s1, s2x, s2y, i)
    ensures copied == x
  {
    s2y := seq(8, i => 0);
    s1 := MaddBytes(Chunk(x, 0), B16);
    s2x := MaddBytes(Chunk(x, 0), C2);
    copied := Chunk(x, 0);

    s2y := Add16(s2y, s1);
    s1 := Add16(s1, MaddBytes(Chunk(x, 1), B16));
    s2x := Add16(s2x, MaddBytes(Chunk(x, 1), C2));
    copied := copied + Chunk(x, 1);

    s2y := Add16(s2y, s1);
    s1 := Add16(s1, MaddBytes(Chunk(x, 2), B16));
    s2x := Add16(s2x, MaddBytes(Chunk(x, 2), C2));
    copied := copied + Chunk(x, 2);

    s2y := Add16(s2y, s1);
    s1 := Add16(s1, MaddBytes(Chunk(x, 3), B16));
    s2x := Add16(s2x, MaddBytes(Chunk(x, 3), C2));
    copied := copied + Chunk(x, 3);
    FourChunks(x);

    hide Add16, MaddBytes, Chunk, LanesExact;
    forall i | 0 <= i < 8 ensures LanesExact(x, s1, s2x, s2y, i) {
      LaneOfFour(x, s1, s2x, s2y, i);
    }
  }

  lemma FourChunks(x: seq<Byte>)
    requires |x| == 64
    ensures Chunk(x, 0) + Chunk(x, 1) + Chunk(x, 2) + Chunk(x, 3) == x
  {
  }

  lemma LaneOfFour(x: seq<Byte>, s1: seq<int>, s2x: seq<int>, s2y: seq<int>, i: nat)
    requires |x| == 64 && |s1| == |s2x| == |s2y| == 8 && i < 8
    requires var m := (k: nat) requires k < 4 => MaddBytes(Chunk(x, k), B16);
             var w := (k: nat) requires k < 4 => MaddBytes(Chunk(x, k), C2);
             var a1 := Add16(m(0), m(1)); var a2 := Add16(a1, m(2));
             && s1 == Add16(a2, m(3)) && s2x == Add16(Add16(Add16(w(0), w(1)), w(2)), w(3))
             && s2y == Add16(Add16(Add16(seq(8, i => 0), m(0)), a1), a2)
    ensures LanesExact(x, s1, s2x, s2y, i)
  {
    hide Add16, MaddBytes, Chunk, Flat, Falling, Unsigned16;
    FlatLane(x, i);
    FallingLane(x, i);
  }

  // The sums kept in `s1` and, one step behind, in `s2y`.
  lemma FlatLane(x: seq<Byte>, i: nat)
    requires |x| == 64 && i < 8
    ensures var m := (k: nat) requires k < 4 => MaddBytes(Chunk(x, k), B16);
            var a1 := Add16(m(0), m(1)); var a2 := Add16(a1, m(2)); var a3 := Add16(a2, m(3));
            var y1 := Add16(seq(8, i => 0), m(0)); var y2 := Add16(y1, a1); var y3 := Add16(y2, a2);
            && a3[i] == Flat(x, 0, i) + Flat(x, 1, i) + Flat(x, 2, i) + Flat(x, 3, i) && 0 <= a3[i] <= 32640
            && Unsigned16(y3[i]) == 3 * Flat(x, 0, i) + 2 * Flat(x, 1, i) + Flat(x, 2, i) && Unsigned16(y3[i]) <= 48960
  {
    ProductsFit(x, 0, i);
    ProductsFit(x, 1, i);
    ProductsFit(x, 2, i);
    ProductsFit(x, 3, i);
    hide MaddBytes, Flat, Falling, Wrap16, Unsigned16, Add16;
    AddFour(MaddBytes(Chunk(x, 0), B16), MaddBytes(Chunk(x, 1), B16), MaddBytes(Chunk(x, 2), B16),
        MaddBytes(Chunk(x, 3), B16), i);
  }

  // The running sum of four vectors, and the sum of its first three values.
  lemma AddFour(m0: seq<int>, m1: seq<int>, m2: seq<int>, m3: seq<int>, i: nat)
    requires |m0| == |m1| == |m2| == |m3| == 8 && i < 8
    requires 0 <= m0[i] <= 8160 && 0 <= m1[i] <= 8160 && 0 <= m2[i] <= 8160 && 0 <= m3[i] <= 8160
    ensures var a1 := Add16(m0, m1); var a2 := Add16(a1, m2); var a3 := Add16(a2, m3);
            var y1 := Add16(seq(8, i => 0), m0); var y2 := Add16(y1, a1); var y3 := Add16(y2, a2);
            a3[i] == m0[i] + m1[i] + m2[i] + m3[i] && Unsigned16(y3[i]) == 3 * m0[i] + 2 * m1[i] + m2[i]
  {
    var a1 := Add16(m0, m1);
    AddFits(m0, m1, i);
    var a2 := Add16(a1, m2);
    AddFits(a1, m2, i);
    AddFits(a2, m3, i);
    var y1 := Add16(seq(8, i => 0), m0);
    AddFits(seq(8, i => 0), m0, i);
    var y2 := Add16(y1, a1);
    AddFits(y1, a1, i);
    UnsignedSurvives(y2[i], a2[i]);
    hide Wrap16, Unsigned16;
  }

  // The sums kept in `s2x`.
  lemma FallingLane(x: seq<Byte>, i: nat)
    requires |x| == 64 && i < 8
    ensures var w := (k: nat) requires k < 4 => MaddBytes(Chunk(x, k), C2);
            var a3 := Add16(Add16(Add16(w(0), w(1)), w(2)), w(3));
            a3[i] == Falling(x, 0, i) + Falling(x, 1, i) + Falling(x, 2, i) + Falling(x, 3, i) && 0 <= a3[i] <= 31620
  {
    var w := (k: nat) requires k < 4 => MaddBytes(Chunk(x, k), C2);
    ProductsFit(x, 0, i);
    ProductsFit(x, 1, i);
    ProductsFit(x, 2, i);
    ProductsFit(x, 3, i);
    hide MaddBytes, Flat, Falling, Wrap16;
    AddFits(w(0), w(1), i);
    AddFits(Add16(w(0), w(1)), w(2), i);
    AddFits(Add16(Add16(w(0), w(1)), w(2)), w(3), i);
  }

  // ----- lanes to sums -----

  function Total8(v: seq<int>): int
    requires |v| == 8
  {
    v[0] + v[1] + v[2] + v[3] + v[4] + v[5] + v[6] + v[7]
  }

  lemma FlatTotals(x: seq<Byte>, k: nat)
    requires |x| == 64 && k < 4
    ensures Flat(x, k, 0) + Flat(x, k, 1) + Flat(x, k, 2) + Flat(x, k, 3)
            + Flat(x, k, 4) + Flat(x, k, 5) + Flat(x, k, 6) + Flat(x, k, 7) == 16 * Sum(Chunk(x, k))
  {
    hide Sum, Weighted, Flat, Falling, Chunk;
    SumSixteen(Chunk(x, k));
    FlatAt(x, k, 0);
    FlatAt(x, k, 1);
    FlatAt(x, k, 2);
    FlatAt(x, k, 3);
    FlatAt(x, k, 4);
    FlatAt(x, k, 5);
    FlatAt(x, k, 6);
    FlatAt(x, k, 7);
  }

  lemma FlatAt(x: seq<Byte>, k: nat, i: nat)
    requires |x| == 64 && k < 4 && i < 8
    ensures var y: seq<int> := Chunk(x, k); Flat(x, k, i) == 16 * y[2 * i] + 16 * y[2 * i + 1]
  {
  }

  lemma FallingAt(x: seq<Byte>, k: nat, i: nat)
    requires |x| == 64 && k < 4 && i < 8
    ensures var y: seq<int> := Chunk(x, k); Falling(x, k, i) == y[2 * i] * (16 - 2 * i) + y[2 * i + 1] * (15 - 2 * i)
  {
  }

  lemma FallingTotals(x: seq<Byte>, k: nat)
    requires |x| == 64 && k < 4
    ensures Falling(x, k, 0) + Falling(x, k, 1) + Falling(x, k, 2) + Falling(x, k, 3)
            + Falling(x, k, 4) + Falling(x, k, 5) + Falling(x, k, 6) + Falling(x, k, 7) == Weighted(Chunk(x, k))
  {
    hide Sum, Weighted, Flat, Falling, Chunk;
    SumSixteen(Chunk(x, k));
    FallingAt(x, k, 0);
    FallingAt(x, k, 1);
    FallingAt(x, k, 2);
    FallingAt(x, k, 3);
    FallingAt(x, k, 4);
    FallingAt(x, k, 5);
    FallingAt(x, k, 6);
    FallingAt(x, k, 7);
  }

  // Sixty-four bytes from their four chunks.
  lemma SumSixtyFour(x: seq<Byte>)
    requires |x| == 64
    ensures Sum(x) == Sum(Chunk(x, 0)) + Sum(Chunk(x, 1)) + Sum(Chunk(x, 2)) + Sum(Chunk(x, 3))
    ensures Weighted(x) == Weighted(Chunk(x, 0)) + Weighted(Chunk(x, 1)) + Weighted(Chunk(x, 2)) + Weighted(Chunk(x, 3))
                           + 16 * (3 * Sum(Chunk(x, 0)) + 2 * Sum(Chunk(x, 1)) + Sum(Chunk(x, 2)))
  {
    hide Sum, Weighted;
    assert x == x[..16] + x[16..] && x[16..] == x[16..32] + x[32..] && x[32..] == x[32..48] + x[48..];
    SumConcat(x[32..48], x[48..]);
    WeightedConcat(x[32..48], x[48..]);
    SumConcat(x[16..32], x[32..]);
    WeightedConcat(x[16..32], x[32..]);
    SumConcat(x[..16], x[16..]);
    WeightedConcat(x[..16], x[16..]);
    assert x[..16] == x[0..16] && x[48..] == x[48..64];
  }

  lemma FlatTotal(s1: seq<int>)
    requires |s1| == 8 && forall i :: 0 <= i < 8 ==> 0 <= s1[i] <= 32640 && s1[i] % 16 == 0
    ensures var d1 := AddPairs(Shift4(s1)); Nonneg(d1) && 16 * Total(d1) == Total8(s1)
  {
    var v := Shift4(s1);
    forall i | 0 <= i < 8
      ensures 0 <= v[i] <= 2040
              && 16 * v[i] == s1[i] { assert 0 <= s1[i] <= 32640 && s1[i] % 16 == 0; }
    PairsFit(v);
  }

  lemma PairsFit(v: seq<int>)
    requires |v| == 8 && forall i :: 0 <= i < 8 ==> 0 <= v[i] < TWO15
    ensures Nonneg(AddPairs(v)) && Total(AddPairs(v)) == Total8(v)
    ensures forall i :: 0 <= i < 4 ==> AddPairs(v)[i] < TWO16
  {
    hide AddPairs;
    PairFits(v, 0);
    PairFits(v, 1);
    PairFits(v, 2);
    PairFits(v, 3);
  }

  lemma PairFits(v: seq<int>, i: nat)
    requires |v| == 8 && i < 4 && 0 <= v[2 * i] < TWO15 && 0 <= v[2 * i + 1] < TWO15
    ensures AddPairs(v)[i] == v[2 * i] + v[2 * i + 1]
  {
    Fits32(v[2 * i] + v[2 * i + 1]);
    hide Wrap32;
  }

  lemma Add32Fits(v: seq<int>, w: seq<int>, i: nat)
    requires |v| == |w| == 4 && i < 4 && 0 <= v[i] && 0 <= w[i] && v[i] + w[i] < TWO31
    ensures Add32(v, w)[i] == v[i] + w[i]
  {
    Fits32(v[i] + w[i]);
  }

  lemma WidenLane(v: seq<int>, from: nat, i: nat)
    requires |v| == 8 && from <= 4 && i < 4
    ensures Widen(v, from)[i] == Unsigned16(v[from + i]) && 0 <= Unsigned16(v[from + i]) < TWO16
  {
  }

  lemma WideTotal(s2x: seq<int>, s2y: seq<int>)
    requires |s2x| == |s2y| == 8 && forall i :: 0 <= i < 8 ==> 0 <= s2x[i] <= 31620
    ensures var d2 := Add32(Add32(AddPairs(s2x), Widen(s2y, 0)), Widen(s2y, 4));
            && Nonneg(d2)
            && Total(d2) == Total8(s2x)
                            + Unsigned16(s2y[0]) + Unsigned16(s2y[1]) + Unsigned16(s2y[2]) + Unsigned16(s2y[3])
                            + Unsigned16(s2y[4]) + Unsigned16(s2y[5]) + Unsigned16(s2y[6]) + Unsigned16(s2y[7])
  {
    PairsFit(s2x);
    hide AddPairs, Unsigned16, Widen, Add32;
    var p, l, h := AddPairs(s2x), Widen(s2y, 0), Widen(s2y, 4);
    var q := Add32(p, l);
    var r := Add32(q, h);
    forall i | 0 <= i < 4 ensures r[i] == p[i] + Unsigned16(s2y[i]) + Unsigned16(s2y[4 + i]) && r[i] >= 0 {
      WidenLane(s2y, 0, i);
      WidenLane(s2y, 4, i);
      Add32Fits(p, l, i);
      Add32Fits(q, h, i);
    }
  }

  lemma FlatIsMultiple(x: seq<Byte>, k: nat, i: nat)
    requires |x| == 64 && k < 4 && i < 8
    ensures Flat(x, k, i) % 16 == 0
  {
  }

  // The lanes of the four chunks add up to the sums of the bytes.
  lemma LaneTotals(x: seq<Byte>, s1: seq<int>, s2x: seq<int>, s2y: seq<int>)
    requires |x| == 64 && |s1| == |s2x| == |s2y| == 8 && forall i :: 0 <= i < 8 ==> LanesExact(x, s1, s2x, s2y, i)
    ensures Total8(s1) == 16 * Sum(x)
    ensures Total8(s2x) + Unsigned16(s2y[0]) + Unsigned16(s2y[1]) + Unsigned16(s2y[2]) + Unsigned16(s2y[3])
            + Unsigned16(s2y[4]) + Unsigned16(s2y[5]) + Unsigned16(s2y[6]) + Unsigned16(s2y[7]) == Weighted(x)
  {
    hide Sum, Weighted, Flat, Falling, Unsigned16, Chunk;
    FlatTotals(x, 0);
    FlatTotals(x, 1);
    FlatTotals(x, 2);
    FlatTotals(x, 3);
    FallingTotals(x, 0);
    FallingTotals(x, 1);
    FallingTotals(x, 2);
    FallingTotals(x, 3);
    SumSixtyFour(x);
    assert LanesExact(x, s1, s2x, s2y, 0) && LanesExact(x, s1, s2x, s2y, 1) && LanesExact(x, s1, s2x, s2y, 2)
         && LanesExact(x, s1, s2x, s2y, 3);
    assert LanesExact(x, s1, s2x, s2y, 4) && LanesExact(x, s1, s2x, s2y, 5) && LanesExact(x, s1, s2x, s2y, 6)
         && LanesExact(x, s1, s2x, s2y, 7);
  }

  lemma LaneBounds(x: seq<Byte>, s1: seq<int>, s2x: seq<int>, s2y: seq<int>, i: nat)
    requires |x| == 64 && |s1| == |s2x| == |s2y| == 8 && i < 8 && LanesExact(x, s1, s2x, s2y, i)
    ensures 0 <= s1[i] <= 32640 && s1[i] % 16 == 0 && 0 <= s2x[i] <= 31620
  {
    LaneSum(x, s1, s2x, s2y, i);
    hide LanesExact, Flat, Falling, Unsigned16;
    FlatIsMultiple(x, 0, i);
    FlatIsMultiple(x, 1, i);
    FlatIsMultiple(x, 2, i);
    FlatIsMultiple(x, 3, i);
    SumOfMultiples(Flat(x, 0, i), Flat(x, 1, i), Flat(x, 2, i), Flat(x, 3, i));
  }

  lemma LaneSum(x: seq<Byte>, s1: seq<int>, s2x: seq<int>, s2y: seq<int>, i: nat)
    requires |x| == 64 && |s1| == |s2x| == |s2y| == 8 && i < 8 && LanesExact(x, s1, s2x, s2y, i)
    ensures s1[i] == Flat(x, 0, i) + Flat(x, 1, i) + Flat(x, 2, i) + Flat(x, 3, i)
    ensures 0 <= s1[i] <= 32640 && 0 <= s2x[i] <= 31620
  {
    hide Flat, Falling, Unsigned16;
  }

  lemma SumOfMultiples(a: int, b: int, c: int, d: int)
    requires a % 16 == 0 && b % 16 == 0 && c % 16 == 0 && d % 16 == 0
    ensures (a + b + c + d) % 16 == 0
  {
  }

  // What the widened lanes add up to.
  lemma WidenedTotals(x: seq<Byte>, s1: seq<int>, s2x: seq<int>, s2y: seq<int>)
    requires |x| == 64 && |s1| == |s2x| == |s2y| == 8 && forall i :: 0 <= i < 8 ==> LanesExact(x, s1, s2x, s2y, i)
    ensures var d1 := AddPairs(Shift4(s1));
            var d2 := Add32(Add32(AddPairs(s2x), Widen(s2y, 0)), Widen(s2y, 4));
            Nonneg(d1) && Nonneg(d2) && Total(d1) == Sum(x) && Total(d2) == Weighted(x)
  {
    hide Sum, Weighted, AddPairs, Add32, Shift4, Widen, Unsigned16, LanesExact;
    forall i | 0 <= i < 8 ensures 0 <= s1[i] <= 32640 && s1[i] % 16 == 0 && 0 <= s2x[i] <= 31620 {
      LaneBounds(x, s1, s2x, s2y, i);
    }
    FlatTotal(s1);
    WideTotal(s2x, s2y);
    LaneTotals(x, s1, s2x, s2y);
  }

  // ----- the 32-bit accumulators -----

  // `va` and `vb` hold the plain and the weighted sum of `x`, spread over their lanes.
  ghost predicate Holds(va: seq<int>, vb: seq<int>, x: seq<Byte>) {
    |va| == |vb| == 4 && Nonneg(va) && Nonneg(vb) && Total(va) == Sum(x) && Total(vb) == Weighted(x)
  }

  // One lane of the accumulators: nothing wraps if the result fits.
  lemma AccumulateLane(va: seq<int>, vb: seq<int>, d1: seq<int>, d2: seq<int>, n: nat, i: nat)
    requires |va| == |vb| == |d1| == |d2| == 4 && i < 4
    requires 0 <= va[i] && 0 <= vb[i] && 0 <= d1[i] && 0 <= d2[i] && 0 <= Times(n, va[i])
    requires va[i] + d1[i] < TWO31 && vb[i] + Times(n, va[i]) + d2[i] < TWO31
    ensures Add32(va, d1)[i] == va[i] + d1[i]
    ensures Add32(vb, Add32(Scale32(n, va), d2))[i] == vb[i] + Times(n, va[i]) + d2[i]
  {
    hide Times;
    var m := Times(n, va[i]);
    Fits32(va[i] + d1[i]);
    Fits32(m);
    Fits32(m + d2[i]);
    Fits32(vb[i] + (m + d2[i]));
  }

  lemma Distribute(n: nat, v: seq<int>)
    requires |v| == 4 && Nonneg(v)
    ensures n * Total(v) == Times(n, v[0]) + Times(n, v[1]) + Times(n, v[2]) + Times(n, v[3])
    ensures Times(n, v[0]) >= 0 && Times(n, v[1]) >= 0 && Times(n, v[2]) >= 0 && Times(n, v[3]) >= 0
  {
    ProductBound(n, v[0], v[0]);
    ProductBound(n, v[1], v[1]);
    ProductBound(n, v[2], v[2]);
    ProductBound(n, v[3], v[3]);
  }

  // Adding the sums of `y` to accumulators that hold `x`.
  lemma Accumulate(va: seq<int>, vb: seq<int>, x: seq<Byte>, d1: seq<int>, d2: seq<int>, y: seq<Byte>)
    requires Holds(va, vb, x) && Holds(d1, d2, y) && Weighted(x + y) < TWO31
    ensures Holds(Add32(va, d1), Add32(vb, Add32(Scale32(|y|, va), d2)), x + y)
  {
    SumConcat(x, y);
    WeightedConcat(x, y);
    SumBelowWeighted(x + y);
    Distribute(|y|, va);
    AccumulateTotals(va, vb, d1, d2, |y|, |y| * Total(va));
    hide Sum, Weighted, Times, Add32, Scale32;
  }

  lemma AccumulateTotals(va: seq<int>, vb: seq<int>, d1: seq<int>, d2: seq<int>, n: nat, m: int)
    requires |va| == |vb| == |d1| == |d2| == 4 && Nonneg(va) && Nonneg(vb) && Nonneg(d1) && Nonneg(d2)
    requires m == Times(n, va[0]) + Times(n, va[1]) + Times(n, va[2]) + Times(n, va[3])
    requires Times(n, va[0]) >= 0 && Times(n, va[1]) >= 0 && Times(n, va[2]) >= 0 && Times(n, va[3]) >= 0
    requires Total(va) + Total(d1) < TWO31 && Total(vb) + m + Total(d2) < TWO31
    ensures var a, b := Add32(va, d1), Add32(vb, Add32(Scale32(n, va), d2));
            Nonneg(a) && Nonneg(b) && Total(a) == Total(va) + Total(d1) && Total(b) == Total(vb) + m + Total(d2)
  {
    hide Times, Add32, Scale32;
    AccumulateLane(va, vb, d1, d2, n, 0);
    AccumulateLane(va, vb, d1, d2, n, 1);
    AccumulateLane(va, vb, d1, d2, n, 2);
    AccumulateLane(va, vb, d1, d2, n, 3);
  }

  // ----- the accumulators modulo 2^32 -----

  ghost predicate Same32(x: int, y: int) { x % TWO32 == y % TWO32 }

  lemma SameMod32(z: int, w: int, q: int)
    requires z == w + TWO32 * q
    ensures Same32(z, w)
  {
    assert w == TWO32 * (w / TWO32) + w % TWO32;
    assert z == TWO32 * (w / TWO32 + q) + w % TWO32;
  }

  // Quotient of a congruence.
  lemma Difference(x: int, y: int) returns (q: int)
    requires Same32(x, y)
    ensures x == y + TWO32 * q
  {
    q := x / TWO32 - y / TWO32;
  }

  lemma WrapsBy(x: int) returns (q: int)
    ensures Wrap32(x) == x + TWO32 * q
  {
    q := -((x + TWO31) / TWO32);
  }

  lemma AddSame(v: seq<int>, w: seq<int>)
    requires |v| == |w| == 4
    ensures Same32(Total(Add32(v, w)), Total(v) + Total(w))
  {
    hide Wrap32, Same32;
    var q0 := WrapsBy(v[0] + w[0]);
    var q1 := WrapsBy(v[1] + w[1]);
    var q2 := WrapsBy(v[2] + w[2]);
    var q3 := WrapsBy(v[3] + w[3]);
    SameMod32(Total(Add32(v, w)), Total(v) + Total(w), q0 + q1 + q2 + q3);
  }

  lemma ScaleSame(n: nat, v: seq<int>)
    requires |v| == 4
    ensures Same32(Total(Scale32(n, v)), n * Total(v))
  {
    TimesTotal(n, v);
    hide Wrap32, Same32, Times;
    var q0 := WrapsBy(Times(n, v[0]));
    var q1 := WrapsBy(Times(n, v[1]));
    var q2 := WrapsBy(Times(n, v[2]));
    var q3 := WrapsBy(Times(n, v[3]));
    SameMod32(Total(Scale32(n, v)), n * Total(v), q0 + q1 + q2 + q3);
  }

  lemma TimesTotal(n: nat, v: seq<int>)
    requires |v| == 4
    ensures n * Total(v) == Times(n, v[0]) + Times(n, v[1]) + Times(n, v[2]) + Times(n, v[3])
  {
  }

  lemma SumSame(x: int, y: int, u: int, v: int)
    requires Same32(x, y) && Same32(u, v)
    ensures Same32(x + u, y + v)
  {
    var p := Difference(x, y);
    var q := Difference(u, v);
    hide Same32;
    SameMod32(x + u, y + v, p + q);
  }

  lemma SameTrans(x: int, y: int, z: int)
    requires Same32(x, y) && Same32(y, z)
    ensures Same32(x, z)
  {
  }

  lemma TimesSame(n: nat, x: int, y: int)
    requires Same32(x, y)
    ensures Same32(n * x, n * y)
  {
    var q := Difference(x, y);
    hide Same32;
    assert n * x == n * y + TWO32 * (n * q);
    SameMod32(n * x, n * y, n * q);
  }

  // `va` and `vb` hold the sums of `x` modulo 2^32, whether or not a lane has wrapped.
  ghost predicate HoldsMod(va: seq<int>, vb: seq<int>, x: seq<Byte>) {
    |va| == |vb| == 4 && Same32(Total(va), Sum(x)) && Same32(Total(vb), Weighted(x))
  }

  // The same as `Accumulate` without a bound.
  lemma AccumulateMod(va: seq<int>, vb: seq<int>, x: seq<Byte>, d1: seq<int>, d2: seq<int>, y: seq<Byte>)
    requires HoldsMod(va, vb, x) && HoldsMod(d1, d2, y)
    ensures HoldsMod(Add32(va, d1), Add32(vb, Add32(Scale32(|y|, va), d2)), x + y)
  {
    SumConcat(x, y);
    WeightedConcat(x, y);
    var n := |y|;
    var m := Scale32(n, va);
    var e := Add32(m, d2);
    AddSame(va, d1);
    ScaleSame(n, va);
    AddSame(m, d2);
    AddSame(vb, e);
    hide Add32, Scale32, Total, Sum, Weighted, Same32;
    SumSame(Total(va), Sum(x), Total(d1), Sum(y));
    SameTrans(Total(Add32(va, d1)), Total(va) + Total(d1), Sum(x) + Sum(y));
    TimesSame(n, Total(va), Sum(x));
    var q := n * Sum(x);
    SameTrans(Total(m), n * Total(va), q);
    SumSame(Total(m), q, Total(d2), Weighted(y));
    SameTrans(Total(e), Total(m) + Total(d2), q + Weighted(y));
    SumSame(Total(vb), Weighted(x), Total(e), q + Weighted(y));
    SameTrans(Total(Add32(vb, e)), Total(vb) + Total(e), Weighted(x) + q + Weighted(y));
  }

  lemma HoldsIsMod(va: seq<int>, vb: seq<int>, x: seq<Byte>)
    requires Holds(va, vb, x)
    ensures HoldsMod(va, vb, x)
  {
  }

  lemma ProductBound(n: nat, v: int, w: int)
    requires 0 <= v <= w
    ensures 0 <= n * v <= n * w
  {
  }

  lemma {:induction false} SumBelowWeighted(x: seq<Byte>)
    ensures Sum(x) <= Weighted(x)
  {
  }

  // Four chunks at once.
  method Chunk4(va: seq<int>, vb: seq<int>, ghost done: seq<Byte>, x: seq<Byte>)
    returns (va': seq<int>, vb': seq<int>, copied: seq<Byte>)
    requires |x| == 64 && HoldsMod(va, vb, done)
    ensures HoldsMod(va', vb', done + x) && copied == x
    ensures Holds(va, vb, done) && Weighted(done + x) < TWO31 ==> Holds(va', vb', done + x)
  {
    var s1, s2x, s2y;
    s1, s2x, s2y, copied := Chunk4Lanes(x);
    WidenedTotals(x, s1, s2x, s2y);
    s1 := Shift4(s1);
    var d1 := AddPairs(s1);
    var d2 := AddPairs(s2x);
    d2 := Add32(d2, Widen(s2y, 0));
    d2 := Add32(d2, Widen(s2y, 4));
    HoldsIsMod(d1, d2, x);
    AccumulateMod(va, vb, done, d1, d2, x);
    if Holds(va, vb, done) && Weighted(done + x) < TWO31 { Accumulate(va, vb, done, d1, d2, x); }
    vb' := Add32(vb, Add32(Scale32(64, va), d2));
    va' := Add32(va, d1);
  }

  // One chunk.
  method Chunk1(va: seq<int>, vb: seq<int>, ghost done: seq<Byte>, x: seq<Byte>)
    returns (va': seq<int>, vb': seq<int>, copied: seq<Byte>)
    requires |x| == 16 && HoldsMod(va, vb, done)
    ensures HoldsMod(va', vb', done + x) && copied == x
    ensures Holds(va, vb, done) && Weighted(done + x) < TWO31 ==> Holds(va', vb', done + x)
  {
    var s1 := MaddBytes(x, ONES);
    var s2 := MaddBytes(x, C2);
    copied := x;
    OneChunkTotals(x);
    var d1 := AddPairs(s1);
    var d2 := AddPairs(s2);
    HoldsIsMod(d1, d2, x);
    AccumulateMod(va, vb, done, d1, d2, x);
    if Holds(va, vb, done) && Weighted(done + x) < TWO31 { Accumulate(va, vb, done, d1, d2, x); }
    vb' := Add32(vb, Add32(Scale32(16, va), d2));
    va' := Add32(va, d1);
  }

  lemma OneChunkLane(x: seq<Byte>, i: nat)
    requires |x| == 16 && i < 8
    ensures var y: seq<int> := x;
            && MaddBytes(x, ONES)[i] == y[2 * i] + y[2 * i + 1] && 0 <= MaddBytes(x, ONES)[i] <= 510
            && MaddBytes(x, C2)[i] == y[2 * i] * (16 - 2 * i) + y[2 * i + 1] * (15 - 2 * i)
                && 0 <= MaddBytes(x, C2)[i] <= 7905
  {
    Constants();
    ByteProduct(x[2 * i], 16 - 2 * i);
    ByteProduct(x[2 * i + 1], 15 - 2 * i);
  }

  lemma OneChunkSums(x: seq<Byte>)
    requires |x| == 16
    ensures Total8(MaddBytes(x, ONES)) == Sum(x) && Total8(MaddBytes(x, C2)) == Weighted(x)
  {
    hide Sum, Weighted, MaddBytes;
    OneChunkLane(x, 0);
    OneChunkLane(x, 1);
    OneChunkLane(x, 2);
    OneChunkLane(x, 3);
    OneChunkLane(x, 4);
    OneChunkLane(x, 5);
    OneChunkLane(x, 6);
    OneChunkLane(x, 7);
    SumSixteen(x);
  }

  lemma OneChunkTotals(x: seq<Byte>)
    requires |x| == 16
    ensures Holds(AddPairs(MaddBytes(x, ONES)), AddPairs(MaddBytes(x, C2)), x)
  {
    hide Sum, Weighted, AddPairs, MaddBytes, Total8;
    var m, w := MaddBytes(x, ONES), MaddBytes(x, C2);
    forall i | 0 <= i < 8 ensures 0 <= m[i] < TWO15 && 0 <= w[i] < TWO15 { OneChunkLane(x, i); }
    PairsFit(m);
    PairsFit(w);
    OneChunkSums(x);
  }
}
