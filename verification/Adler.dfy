/**
 Adler-32: the byte-by-byte modular reference of section 8.2 of RFC 1950, exact weighted sums,
 and how checksums of adjacent buffers combine.
 */
module Adler {
  import opened Basics

  const BASE: nat := 65521
  const TWO16: nat := 0x1_0000
  const TWO32: nat := 0x1_0000_0000
  const TWO64: nat := 0x1_0000_0000_0000_0000

  // ----- the reference -----

  datatype Sums = Sums(a: nat, b: nat)

  // One byte of the reference: both sums are kept modulo BASE.
  function Step(s: Sums, d: Byte): Sums {
    var a := (s.a + d) % BASE;
    Sums(a, (s.b + a) % BASE)
  }

  function Reference(data: seq<Byte>, start: Sums): Sums {
    if data == [] then Sums(start.a % BASE, start.b % BASE)
    else Step(Reference(data[..|data| - 1], start), data[|data| - 1])
  }

  function Pack(s: Sums): nat { s.b * TWO16 + s.a }

  function Unpack(sum: nat): Sums { Sums(sum % TWO16, sum / TWO16) }

  // The checksum of `data` that continues from `sofar`.
  function Checksum(data: seq<Byte>, sofar: nat): nat {
    Pack(Reference(data, Unpack(sofar)))
  }

  // ----- exact sums -----

  function Sum(data: seq<Byte>): nat {
    if data == [] then 0 else Sum(data[..|data| - 1]) + data[|data| - 1]
  }

  // Every byte counted once for itself and once for each byte after it.
  function Weighted(data: seq<Byte>): nat {
    if data == [] then 0 else Weighted(data[..|data| - 1]) + Sum(data)
  }

  lemma {:induction false} SumConcat(x: seq<Byte>, y: seq<Byte>)
    ensures Sum(x + y) == Sum(x) + Sum(y)
  {
    if y == [] {
      assert x + y == x;
    } else {
      var k := |y| - 1;
      assert (x + y)[..|x + y| - 1] == x + y[..k];
      SumConcat(x, y[..k]);
    }
  }

  lemma {:induction false} WeightedConcat(x: seq<Byte>, y: seq<Byte>)
    ensures Weighted(x + y) == Weighted(x) + |y| * Sum(x) + Weighted(y)
  {
    if y == [] {
      assert x + y == x;
    } else {
      var k := |y| - 1;
      assert (x + y)[..|x + y| - 1] == x + y[..k];
      WeightedConcat(x, y[..k]);
      SumConcat(x, y);
      assert |y| * Sum(x) == k * Sum(x) + Sum(x);
    }
  }

  // The sums before any reduction.
  function Exact(data: seq<Byte>, start: Sums): Sums {
    Sums(start.a + Sum(data), start.b + |data| * start.a + Weighted(data))
  }

  function Reduce(s: Sums): Sums { Sums(s.a % BASE, s.b % BASE) }

  // Reducing early or late makes no difference.
  lemma AddMod(x: nat, y: nat)
    ensures (x % BASE + y) % BASE == (x + y) % BASE
    ensures (x % BASE + y % BASE) % BASE == (x + y) % BASE
  {
    assert x == BASE * (x / BASE) + x % BASE;
    assert y == BASE * (y / BASE) + y % BASE;
  }

  lemma ExactExtend(data: seq<Byte>, start: Sums, d: Byte)
    ensures var e := Exact(data, start);
            Exact(data + [d], start) == Sums(e.a + d, e.b + e.a + d)
  {
    assert (data + [d])[..|data|] == data;
    assert |data + [d]| * start.a == |data| * start.a + start.a;
  }

  /** The modular reference computes the exact sums, reduced once at the end. */
  lemma {:induction false} ReferenceIsExact(data: seq<Byte>, start: Sums)
    ensures Reference(data, start) == Reduce(Exact(data, start))
  {
    if data != [] {
      var k := |data| - 1;
      var e := Exact(data[..k], start);
      assert data == data[..k] + [data[k]];
      ReferenceIsExact(data[..k], start);
      ExactExtend(data[..k], start, data[k]);
      StepReduces(e, data[k]);
      hide Exact, Step, Reduce;
    }
  }

  lemma StepReduces(e: Sums, d: Byte)
    ensures Step(Reduce(e), d) == Reduce(Sums(e.a + d, e.b + e.a + d))
  {
    AddMod(e.a, d);
    AddMod(e.b, (e.a + d) % BASE);
    AddMod(e.b, e.a + d);
  }

  // ----- streaming -----

  lemma ExactConcat(x: seq<Byte>, y: seq<Byte>, start: Sums)
    ensures Exact(x + y, start) == Exact(y, Exact(x, start))
  {
    SumConcat(x, y);
    WeightedConcat(x, y);
    Spread(|x|, |y|, start.a, Sum(x));
    hide Sum, Weighted;
  }

  lemma Spread(n: nat, m: nat, a: nat, s: nat)
    ensures (n + m) * a == n * a + m * a && m * (a + s) == m * a + m * s
  {
  }

  // The reduced starting sums are as good as the unreduced ones.
  lemma ReducedStart(data: seq<Byte>, start: Sums)
    ensures Reduce(Exact(data, Reduce(start))) == Reduce(Exact(data, start))
  {
    var n := |data|;
    AddMod(start.a, Sum(data));
    MulMod(n, start.a);
    AddMod(n * (start.a % BASE), start.b % BASE + Weighted(data));
    AddMod(n * start.a, start.b % BASE + Weighted(data));
    AddMod(start.b, n * start.a + Weighted(data));
  }

  lemma MulMod(n: nat, x: nat)
    ensures (n * (x % BASE)) % BASE == (n * x) % BASE
  {
    assert x == BASE * (x / BASE) + x % BASE;
    assert n * x == BASE * (n * (x / BASE)) + n * (x % BASE);
    AddMultiple(n * (x % BASE), n * (x / BASE));
  }

  lemma AddMultiple(x: nat, q: nat)
    ensures (BASE * q + x) % BASE == x % BASE
  {
    var k := x / BASE;
    assert BASE * q + x == BASE * (q + k) + x % BASE;
  }

  lemma UnpackPack(s: Sums)
    requires s.a < BASE && s.b < BASE
    ensures Unpack(Pack(s)) == s
  {
  }

  /** Continuing from the checksum of `x` gives the checksum of the concatenation. */
  lemma Streaming(x: seq<Byte>, y: seq<Byte>, sofar: nat)
    ensures Checksum(y, Checksum(x, sofar)) == Checksum(x + y, sofar)
  {
    var start := Unpack(sofar);
    ReferenceIsExact(x, start);
    ReferenceIsExact(x + y, start);
    ReferenceIsExact(y, Reference(x, start));
    UnpackPack(Reference(x, start));
    ExactConcat(x, y, start);
    ReducedStart(y, Exact(x, start));
  }
}
