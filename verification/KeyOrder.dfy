/** Key order: byte-wise comparison of keys, and comparison eight bytes at a time as numbers. */
module KeyOrder {
  import opened Basics

  // Bytes compared as unsigned numbers from the left; a proper prefix is smaller.
  ghost predicate Lt(a: seq<Byte>, b: seq<Byte>) {
    if b == [] then false
    else if a == [] then true
    else if a[0] != b[0] then a[0] < b[0]
    else Lt(a[1..], b[1..])
  }

  // `operator<`: compare the common length, then the sizes.
  method Less(a: seq<Byte>, b: seq<Byte>) returns (r: bool)
    ensures r <==> Lt(a, b)
  {
    var n := if |a| < |b| then |a| else |b|;
    var i := 0;
    assert a[0..] == a && b[0..] == b;
    while i < n && a[i] == b[i]
      invariant i <= n && a[..i] == b[..i]
      invariant Lt(a, b) <==> Lt(a[i..], b[i..])
    {
      assert a[i..][1..] == a[i + 1..] && b[i..][1..] == b[i + 1..];
      i := i + 1;
    }
    r := if i < n then a[i] < b[i] else |a| < |b|;
  }

  lemma {:induction false} LtTotal(a: seq<Byte>, b: seq<Byte>)
    ensures a == b || Lt(a, b) || Lt(b, a)
    ensures !(Lt(a, b) && Lt(b, a)) && !Lt(a, a)
  {
    if a != [] {
      assert a == [a[0]] + a[1..];
      if b != [] {
        assert b == [b[0]] + b[1..];
        LtTotal(a[1..], b[1..]);
      } else {
        LtTotal(a[1..], a[1..]);
      }
    }
  }

  lemma {:induction false} LtTransitive(a: seq<Byte>, b: seq<Byte>, c: seq<Byte>)
    requires Lt(a, b) && Lt(b, c)
    ensures Lt(a, c)
  {
    if a != [] && a[0] == b[0] == c[0] { LtTransitive(a[1..], b[1..], c[1..]); }
  }

  // ----- slices -----

  const W: nat := 8

  // The big-endian number made of exactly the given bytes.
  function Number(x: seq<Byte>): nat {
    if x == [] then 0 else Number(x[..|x| - 1]) * 256 + x[|x| - 1]
  }

  // Eight bytes, filled up with zeros.
  function Padded(a: seq<Byte>): (x: seq<Byte>)
    ensures |x| == W
  {
    seq(W, i requires 0 <= i < W => if i < |a| then a[i] else 0)
  }

  // `slice`: the first eight bytes as a number, the first byte most significant.
  method Slice(a: seq<Byte>) returns (r: nat)
    ensures r == Number(Padded(a))
  {
    r := 0;
    var x := Padded(a);
    for i := 0 to W
      invariant r == Number(x[..i])
    {
      assert x[..i + 1][..i] == x[..i];
      r := r * 256 + (if i < |a| then a[i] else 0);
    }
    assert x[..W] == x;
  }

  function Power(n: nat): nat { if n == 0 then 1 else 256 * Power(n - 1) }

  // Byte `j` of a number, counted from the least significant.
  function ByteAt(n: nat, j: nat): nat { if j == 0 then n % 256 else ByteAt(n / 256, j - 1) }

  lemma {:induction false} NumberBytes(x: seq<Byte>, i: nat)
    requires i < |x|
    ensures ByteAt(Number(x), |x| - 1 - i) == x[i]
  {
    var k := |x| - 1;
    assert Number(x) == Number(x[..k]) * 256 + x[k];
    if i < k { NumberBytes(x[..k], i); }
  }

  lemma {:induction false} NumberFits(x: seq<Byte>)
    ensures Number(x) < Power(|x|)
  {
    if x != [] { NumberFits(x[..|x| - 1]); }
  }

  /**
   A slice is a 64-bit number whose bytes, the most significant first, are the first eight bytes
   of the key, and zeros where the key has ended.
   */
  lemma SliceBytes(a: seq<Byte>, i: nat)
    requires i < 8
    ensures Number(Padded(a)) < 0x1_0000_0000_0000_0000
    ensures ByteAt(Number(Padded(a)), 7 - i) == if i < |a| then a[i] else 0
  {
    NumberBytes(Padded(a), i);
    NumberFits(Padded(a));
    assert Power(8) == 0x1_0000_0000_0000_0000 by {
      assert Power(4) == 0x1_0000_0000;
    }
  }

  // The first byte counts for more than all the others together.
  lemma {:induction false} NumberFirst(x: seq<Byte>)
    requires x != []
    ensures Number(x) == x[0] * Power(|x| - 1) + Number(x[1..]) && Number(x[1..]) < Power(|x| - 1)
  {
    var k := |x| - 1;
    if k > 0 {
      NumberFirst(x[..k]);
      assert x[..k][1..] == x[1..][..k - 1];
      assert x[1..][k - 1] == x[k];
      assert Power(k) == 256 * Power(k - 1);
      ShiftOne(x[0], Power(k - 1), Number(x[1..][..k - 1]), x[k]);
    } else {
      assert x[..0] == [] && x[1..] == [];
    }
  }

  lemma ShiftOne(f: nat, p: nat, r: nat, d: Byte)
    requires r < p
    ensures (f * p + r) * 256 + d == f * (256 * p) + (r * 256 + d) && r * 256 + d < 256 * p
  {
  }

  // Numbers of equally many bytes are ordered like the bytes.
  lemma {:induction false} NumberOrder(x: seq<Byte>, y: seq<Byte>)
    requires |x| == |y|
    ensures (Number(x) < Number(y) <==> Lt(x, y)) && (Number(x) == Number(y) <==> x == y)
  {
    if x != [] {
      NumberFirst(x);
      NumberFirst(y);
      NumberOrder(x[1..], y[1..]);
      assert x == [x[0]] + x[1..] && y == [y[0]] + y[1..];
      var p := Power(|x| - 1);
      FirstDecides(x[0], y[0], p, Number(x[1..]), Number(y[1..]));
    }
  }

  lemma FirstDecides(a: Byte, b: Byte, p: nat, r: nat, s: nat)
    requires r < p && s < p
    ensures a < b ==> a * p + r < b * p + s
    ensures a > b ==> a * p + r > b * p + s
    ensures a == b ==> (a * p + r < b * p + s <==> r < s) && (a * p + r == b * p + s <==> r == s)
  {
    if a < b {
      assert b * p >= (a + 1) * p;
    } else if b < a {
      assert a * p >= (b + 1) * p;
    }
  }

  // Comparing slice by slice, a tie decided by length once one key has no more than a slice.
  ghost predicate SliceLt(a: seq<Byte>, b: seq<Byte>) {
    var x, y := Number(Padded(a)), Number(Padded(b));
    if x != y then x < y
    else if |a| <= W || |b| <= W then |a| < |b|
    else SliceLt(a[W..], b[W..])
  }

  // Equal starts do not matter.
  lemma {:induction false} SkipEqual(a: seq<Byte>, b: seq<Byte>, n: nat)
    requires n <= |a| && n <= |b| && a[..n] == b[..n]
    ensures Lt(a, b) <==> Lt(a[n..], b[n..])
  {
    if n > 0 {
      assert a[0] == a[..n][0] == b[..n][0] == b[0];
      assert a[1..][..n - 1] == a[..n][1..] && b[1..][..n - 1] == b[..n][1..];
      SkipEqual(a[1..], b[1..], n - 1);
      assert a[1..][n - 1..] == a[n..] && b[1..][n - 1..] == b[n..];
    } else {
      assert a[0..] == a && b[0..] == b;
    }
  }

  // The first difference decides, wherever it is.
  lemma FirstDifference(a: seq<Byte>, b: seq<Byte>, n: nat)
    requires n < |a| && n < |b| && a[..n] == b[..n] && a[n] != b[n]
    ensures Lt(a, b) <==> a[n] < b[n]
  {
    SkipEqual(a, b, n);
  }

  // The first position at which two keys differ.
  lemma {:induction false} Differ(x: seq<Byte>, y: seq<Byte>) returns (n: nat)
    requires |x| == |y| && x != y
    ensures n < |x| && x[..n] == y[..n] && x[n] != y[n]
  {
    if x[0] != y[0] {
      n := 0;
    } else {
      assert x == [x[0]] + x[1..] && y == [y[0]] + y[1..];
      var m := Differ(x[1..], y[1..]);
      n := m + 1;
      assert x[..n] == [x[0]] + x[1..][..m] && y[..n] == [y[0]] + y[1..][..m];
    }
  }

  // Different slices are ordered like the keys they start.
  lemma SliceDecides(a: seq<Byte>, b: seq<Byte>)
    requires Padded(a) != Padded(b)
    ensures Lt(Padded(a), Padded(b)) <==> Lt(a, b)
  {
    var x, y := Padded(a), Padded(b);
    var n := Differ(x, y);
    FirstDifference(x, y, n);
    if n < |a| && n < |b| {
      assert a[..n] == x[..n] && b[..n] == y[..n];
      FirstDifference(a, b, n);
    } else if n < |b| {
      // `a` has ended, so its slice holds 0 where `b` holds more
      assert a == x[..|a|] && b[..|a|] == y[..|a|] && x[..|a|] == x[..n][..|a|] && y[..|a|] == y[..n][..|a|];
      SkipEqual(a, b, |a|);
    } else {
      assert b == y[..|b|] && a[..|b|] == x[..|b|] && x[..|b|] == x[..n][..|b|] && y[..|b|] == y[..n][..|b|];
      SkipEqual(a, b, |b|);
    }
  }

  /** Comparing eight bytes at a time orders all keys exactly as comparing byte by byte. */
  lemma {:induction false} SliceOrder(a: seq<Byte>, b: seq<Byte>)
    ensures SliceLt(a, b) <==> Lt(a, b)
  {
    var x, y := Padded(a), Padded(b);
    NumberOrder(x, y);
    if x != y {
      SliceDecides(a, b);
    } else if |a| <= W || |b| <= W {
      var n := if |a| < |b| then |a| else |b|;
      assert a[..n] == x[..n] && b[..n] == y[..n];
      SkipEqual(a, b, n);
    } else {
      assert a[..W] == x && b[..W] == y;
      SkipEqual(a, b, W);
      SliceOrder(a[W..], b[W..]);
    }
  }
}
