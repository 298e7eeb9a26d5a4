/** FNV-1a, 64 bits (section 2 of draft-eastlake-fnv): each step is a bijection of the running hash, so two
    inputs that differ in one byte have different digests. */
module Digest {
  import opened Types

  const OFFSET_BASIS: nat := 14695981039346656037
  const PRIME: nat := 1099511628211
  const INVERSE: nat := 14886173955864302971               // PRIME * INVERSE == 1 modulo 2^64

  // --- exclusive or -----------------------------------------------------------------------------

  // The exclusive or of the low k bits of a and b.
  function Xor(k: nat, a: nat, b: nat): nat {
    if k == 0 then 0 else 2 * Xor(k - 1, a / 2, b / 2) + (a % 2 + b % 2) % 2
  }

  function Pow2(k: nat): nat {
    if k == 0 then 1 else 2 * Pow2(k - 1)
  }

  lemma {:induction false} XorBounded(k: nat, a: nat, b: nat)
    ensures Xor(k, a, b) < Pow2(k)
  {
    if k > 0 { XorBounded(k - 1, a / 2, b / 2); }
  }

  lemma {:induction false} XorSymmetric(k: nat, a: nat, b: nat)
    ensures Xor(k, a, b) == Xor(k, b, a)
  {
    if k > 0 { XorSymmetric(k - 1, a / 2, b / 2); }
  }

  /** With one operand fixed, exclusive or loses nothing of the other. */
  lemma {:induction false} XorInjective(k: nat, a: nat, c: nat, b: nat)
    requires a < Pow2(k) && c < Pow2(k) && Xor(k, a, b) == Xor(k, c, b)
    ensures a == c
  {
    if k > 0 {
      XorInjective(k - 1, a / 2, c / 2, b / 2);
    }
  }

  // --- one step of the hash ---------------------------------------------------------------------

  type Hash = h: nat | h < U64_LIMIT

  function Mixed(h: Hash, b: Byte): nat {
    h / 256 * 256 + Xor(8, h % 256, b)
  }

  function Step(h: Hash, b: Byte): Hash {
    Mixed(h, b) * PRIME % U64_LIMIT
  }

  function Fold(h: Hash, s: seq<Byte>): Hash {
    if s == [] then h else Step(Fold(h, s[..|s| - 1]), s[|s| - 1])
  }

  function Fnv1a64(s: seq<Byte>): Hash {
    Fold(OFFSET_BASIS, s)
  }

  method ComputeDigest(s: seq<Byte>) returns (h: Hash)
    ensures h == Fnv1a64(s)
  {
    h := OFFSET_BASIS;
    for i := 0 to |s|
      invariant h == Fold(OFFSET_BASIS, s[..i])
    {
      assert s[..i + 1][..i] == s[..i];
      h := Step(h, s[i]);
    }
    assert s[..|s|] == s;
  }

  // --- what the digest is -----------------------------------------------------------------------

  // Bit i of n, the lowest first.
  function Bit(n: nat, i: nat): nat {
    if i == 0 then n % 2 else Bit(n / 2, i - 1)
  }

  /** A bit of the exclusive or is set exactly where the operands differ. */
  lemma {:induction false} XorBits(k: nat, a: nat, b: nat, i: nat)
    requires i < k
    ensures Bit(Xor(k, a, b), i) == 1 <==> Bit(a, i) != Bit(b, i)
  {
    var x := Xor(k - 1, a / 2, b / 2);
    assert Xor(k, a, b) % 2 == (a % 2 + b % 2) % 2 && Xor(k, a, b) / 2 == x;
    if i > 0 { XorBits(k - 1, a / 2, b / 2, i - 1); }
  }

  lemma {:induction false} XorZero(k: nat, a: nat)
    requires a < Pow2(k)
    ensures Xor(k, a, 0) == a
  {
    if k > 0 { XorZero(k - 1, a / 2); }
  }

  lemma ZeroByte(h: Hash, b: Byte)
    requires b == 0
    ensures Step(h, b) == h * PRIME % U64_LIMIT
  {
    EightBits();
    XorZero(8, h % 256);
  }

  lemma AfterBasis(h: Hash)
    requires h == OFFSET_BASIS
    ensures h * PRIME % U64_LIMIT == 0xaf63bd4c8601b7df
  {}

  lemma OneZero(h: Hash, s: seq<Byte>)
    requires |s| == 1 && s[0] == 0
    ensures Fold(h, s) == h * PRIME % U64_LIMIT
  {
    assert s[..0] == [];
    ZeroByte(h, s[0]);
  }

  /** The digests of nothing and of one zero byte, as the FNV test suite lists them. */
  lemma KnownDigests(s: seq<Byte>)
    ensures s == [] ==> Fnv1a64(s) == 0xcbf29ce484222325
    ensures |s| == 1 && s[0] == 0 ==> Fnv1a64(s) == 0xaf63bd4c8601b7df
  {
    if |s| == 1 && s[0] == 0 {
      OneZero(OFFSET_BASIS, s);
      AfterBasis(OFFSET_BASIS);
    }
  }

  /** A further byte is mixed into the low byte of the digest before the multiplication: undoing the multiplication
      leaves the high bytes as they were and the low byte exclusively or-ed with the new one. */
  lemma DigestGrows(s: seq<Byte>, b: Byte)
    ensures Fnv1a64(s + [b]) == Step(Fnv1a64(s), b)
    ensures var undone := Fnv1a64(s + [b]) * INVERSE % U64_LIMIT;
      undone / 256 == Fnv1a64(s) / 256 && undone % 256 == Xor(8, Fnv1a64(s) % 256, b)
  {
    var h := Fnv1a64(s);
    assert (s + [b])[..|s|] == s;
    MixedFits(h, b);
    Undone(Mixed(h, b));
  }

  // --- each step is injective -------------------------------------------------------------------

  lemma EightBits()
    ensures Pow2(8) == 256
  {
    assert Pow2(4) == 16 && Pow2(8) == 2 * Pow2(7) && Pow2(7) == 2 * Pow2(6) && Pow2(6) == 2 * Pow2(5) && Pow2(5) == 2 * Pow2(4);
  }

  /** A quotient and a remainder are determined by the number they make. */
  lemma SplitUnique(q: nat, x: nat, p: nat, y: nat, m: nat)
    requires x < m && y < m && q * m + x == p * m + y
    ensures q == p && x == y
  {
    if q > p { Apart(q, x, p, y, m); }
    if p > q { Apart(p, y, q, x, m); }
  }

  lemma Apart(q: nat, x: nat, p: nat, y: nat, m: nat)
    requires q > p && y < m
    ensures q * m + x > p * m + y
  {
    var d: nat := q - p - 1;
    assert q * m == (p + 1 + d) * m == p * m + m + d * m;
    assert d * m >= 0;
  }

  lemma ByteBounded(q: nat, x: nat)
    requires q < U64_LIMIT / 256 && x < 256
    ensures q * 256 + x < U64_LIMIT
  {}

  lemma MixedFits(h: Hash, b: Byte)
    ensures Mixed(h, b) < U64_LIMIT && Xor(8, h % 256, b) < 256
  {
    EightBits();
    XorBounded(8, h % 256, b);
    ByteBounded(h / 256, Xor(8, h % 256, b));
  }

  lemma XorByteInjective(x: nat, b: nat, y: nat, c: nat)
    requires x < 256 && b < 256 && y < 256 && c < 256 && Xor(8, x, b) == Xor(8, y, c) && (x == y || b == c)
    ensures x == y && b == c
  {
    EightBits();
    if b == c {
      XorInjective(8, x, y, b);
    } else {
      XorSymmetric(8, x, b);
      XorSymmetric(8, x, c);
      XorInjective(8, b, c, x);
    }
  }

  lemma MixedInjective(h: Hash, b: Byte, g: Hash, c: Byte)
    requires Mixed(h, b) == Mixed(g, c) && (h == g || b == c)
    ensures h == g && b == c
  {
    MixedFits(h, b);
    MixedFits(g, c);
    SplitUnique(h / 256, Xor(8, h % 256, b), g / 256, Xor(8, g % 256, c), 256);
    XorByteInjective(h % 256, b, g % 256, c);
  }

  lemma ModMul(x: nat, y: nat, m: nat)
    requires m > 0
    ensures (x % m) * y % m == x * y % m
  {
    var q, r := x / m, x % m;
    assert x * y == (q * y) * m + r * y;
    ModAdd(r * y, q * y, m);
  }

  lemma {:induction false} ModAdd(a: nat, k: nat, m: nat)
    requires m > 0
    ensures (k * m + a) % m == a % m
  {
    var q, r := a / m, a % m;
    assert k * m + a == (k + q) * m + r;
    ModUnique(k * m + a, k + q, r, m);
  }

  lemma ModUnique(a: nat, q: nat, r: nat, m: nat)
    requires m > 0 && r < m && a == q * m + r
    ensures a % m == r
  {
    assert a == a / m * m + a % m;
    SplitUnique(a / m, a % m, q, r, m);
  }

  /** Multiplying by the prime is undone by multiplying by its inverse. */
  lemma TimesPrimeInjective(x: Hash, y: Hash)
    requires x * PRIME % U64_LIMIT == y * PRIME % U64_LIMIT
    ensures x == y
  {
    Undone(x);
    Undone(y);
  }

  lemma Undone(x: Hash)
    ensures (x * PRIME % U64_LIMIT) * INVERSE % U64_LIMIT == x
  {
    ModMul(x * PRIME, INVERSE, U64_LIMIT);
    var k := PRIME * INVERSE / U64_LIMIT;
    assert PRIME * INVERSE == k * U64_LIMIT + 1;
    assert x * PRIME * INVERSE == x * (PRIME * INVERSE) == (x * k) * U64_LIMIT + x;
    ModAdd(x, x * k, U64_LIMIT);
  }

  lemma StepInjective(h: Hash, b: Byte, g: Hash, c: Byte)
    requires Step(h, b) == Step(g, c) && (h == g || b == c)
    ensures h == g && b == c
  {
    MixedFits(h, b);
    MixedFits(g, c);
    TimesPrimeInjective(Mixed(h, b), Mixed(g, c));
    MixedInjective(h, b, g, c);
  }

  /** The same bytes keep two different hashes apart. */
  lemma {:induction false} FoldInjective(h: Hash, g: Hash, s: seq<Byte>)
    requires Fold(h, s) == Fold(g, s)
    ensures h == g
  {
    if s != [] {
      var front, b := s[..|s| - 1], s[|s| - 1];
      StepInjective(Fold(h, front), b, Fold(g, front), b);
      FoldInjective(h, g, front);
    }
  }

  lemma {:induction false} FoldSplits(h: Hash, s: seq<Byte>, t: seq<Byte>)
    ensures Fold(h, s + t) == Fold(Fold(h, s), t)
  {
    if t == [] {
      assert s + t == s;
    } else {
      FoldSplits(h, s, t[..|t| - 1]);
      assert (s + t)[..|s + t| - 1] == s + t[..|t| - 1];
    }
  }

  /** Altering one byte of the input always changes the digest. */
  lemma OneByteChangesDigest(s: seq<Byte>, i: nat, b: Byte)
    requires i < |s| && s[i] != b
    ensures Fnv1a64(s[i := b]) != Fnv1a64(s)
  {
    var head, tail := s[..i], s[i + 1..];
    var h := Fold(OFFSET_BASIS, head);
    assert s == head + [s[i]] + tail && s[i := b] == head + [b] + tail;
    FoldSplits(OFFSET_BASIS, head + [s[i]], tail);
    FoldSplits(OFFSET_BASIS, head + [b], tail);
    FoldSplits(OFFSET_BASIS, head, [s[i]]);
    FoldSplits(OFFSET_BASIS, head, [b]);
    assert [s[i]][..0] == [] && [b][..0] == [];
    assert Fold(h, [s[i]]) == Step(h, s[i]) && Fold(h, [b]) == Step(h, b);
    if Fnv1a64(s[i := b]) == Fnv1a64(s) {
      FoldInjective(Step(h, b), Step(h, s[i]), tail);
      StepInjective(h, b, h, s[i]);
    }
  }
}
