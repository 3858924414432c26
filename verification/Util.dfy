/** Machine integers and the rolling hash that assigns a list to a shard. */
module Util {

  const TWO31: int := 0x8000_0000
  const TWO32: int := 0x1_0000_0000
  const TWO63: int := 0x8000_0000_0000_0000
  const TWO64: int := 0x1_0000_0000_0000_0000

  datatype Option<+T> = None | Some(value: T)

  /** Conversion to `uint32_t`. */
  function ToU32(x: int): int { x % TWO32 }

  /** Conversion to `int32_t` (two's complement). */
  function Wrap32(x: int): int { (x + TWO31) % TWO32 - TWO31 }

  /** Conversion to `int64_t` (two's complement). */
  function Wrap64(x: int): int { (x + TWO63) % TWO64 - TWO63 }

  lemma Wrap32Id(x: int)
    requires -TWO31 <= x < TWO31
    ensures Wrap32(x) == x
  {
  }

  lemma Wrap64Id(x: int)
    requires -TWO63 <= x < TWO63
    ensures Wrap64(x) == x
  {
  }

  /** The conversions at the ends of their ranges. */
  lemma ConversionsAtTheEnds()
    ensures ToU32(-1) == 4294967295 && ToU32(4294967296) == 0
    ensures Wrap32(2147483647) == 2147483647 && Wrap32(2147483648) == -2147483648
    ensures Wrap64(9223372036854775807) == 9223372036854775807 && Wrap64(9223372036854775808) == -9223372036854775808
  {
  }

  /** Wrapping is additive: an intermediate wrap-around does not change the wrapped total. */
  lemma Wrap64Add(x: int, y: int)
    ensures Wrap64(Wrap64(x) + y) == Wrap64(x + y)
    ensures Wrap64(y + Wrap64(x)) == Wrap64(x + y)
    ensures Wrap64(y - Wrap64(x)) == Wrap64(y - x)
  {
    var q := (x + TWO63) / TWO64;
    assert Wrap64(x) == x - q * TWO64;
    ModUnique(x + y + TWO63, Wrap64(x) + y + TWO63, q, TWO64);
    ModUnique(y - x + TWO63, y - Wrap64(x) + TWO63, -q, TWO64);
  }

  /** The sum of two values less a third, wrapped at the end or on the way. */
  lemma Wrap64Sum(total: int, x: int, y: int, z: int)
    requires total == x + y - z
    ensures Wrap64(total) == Wrap64(Wrap64(x) + Wrap64(y) - Wrap64(z))
  {
    Wrap64Add(x, Wrap64(y) - Wrap64(z));
    Wrap64Add(y, x - Wrap64(z));
    Wrap64Add(z, x + y);
  }

  const MOD: int := 1_000_000_007
  const BASE: int := 31

  /** A byte of a `std::string`, read as the signed `char` it is on the target platform. */
  function SignedChar(c: char): int {
    var b := c as int % 256;
    if b < 128 then b else b - 256
  }

  predicate Ascii(s: string) { forall i | 0 <= i < |s| :: s[i] as int < 128 }

  /** One iteration: the product and sum are computed modulo 2^64, then reduced modulo MOD. */
  function HashStep(hash: nat, c: char): nat { (hash * BASE + SignedChar(c)) % TWO64 % MOD }

  function Hash(s: string): nat {
    if s == "" then 0 else HashStep(Hash(s[..|s| - 1]), s[|s| - 1])
  }

  function Pow31(n: nat): nat { if n == 0 then 1 else 31 * Pow31(n - 1) }

  /** The base-31 number whose most significant digit is the first character. */
  function Polynomial(s: string): int {
    if s == "" then 0 else SignedChar(s[0]) * Pow31(|s| - 1) + Polynomial(s[1..])
  }

  method GetHash(str: string) returns (hash: nat)
    ensures hash == Hash(str) && hash < 1000000007
    ensures hash == Polynomial(str) % 1000000007 <==> HashError(str) % 1000000007 == 0
  {
    hash := 0;
    for i := 0 to |str|
      invariant hash == Hash(str[..i]) && hash < MOD
    {
      assert str[..i + 1][..i] == str[..i];
      hash := HashStep(hash, str[i]);
    }
    assert str[..|str|] == str;
    HashIsPolynomialIff(str);
  }

  /** An iteration is the exact modular step precisely when the signed sum is not negative:
      a byte above 127 at a small hash wraps around 2^64, which is not a multiple of MOD. */
  lemma HashStepExact(hash: nat, c: char)
    requires hash < 1000000007
    ensures HashStep(hash, c) == (hash * 31 + SignedChar(c)) % 1000000007
       <==> hash * 31 + SignedChar(c) >= 0
  {
    var x := hash * BASE + SignedChar(c);
    if x >= 0 {
      assert x % TWO64 == x;
    } else {
      assert x % TWO64 == x + TWO64;
      ModAdd(x, TWO64, MOD);
      assert TWO64 % MOD == 582344008;
      var r := x % MOD;
      assert x % MOD == x + MOD;
    }
  }

  lemma ModAdd(x: int, y: int, m: int)
    requires m > 0
    ensures (x + y) % m == (x % m + y % m) % m
  {
    var q := x / m + y / m;
    ModUnique(x + y, x % m + y % m, q, m);
  }

  lemma ModUnique(a: int, b: int, q: int, m: int)
    requires m > 0 && a == q * m + b
    ensures a % m == b % m
  {
    var d := a / m - b / m - q;
    assert a % m - b % m == -d * m;
    MulAtLeast(d, m);
    MulAtLeast(-d, m);
  }

  lemma MulAtLeast(d: int, m: int)
    requires m > 0
    ensures d >= 1 ==> d * m >= m
  {
  }

  /** Horner's rule on residues: reducing the operands beforehand changes nothing. */
  lemma ModHorner(x: int, y: int, z: int, m: int, h: int, r: int)
    requires m > 0 && h == x % m && (r == z || r == z % m)
    ensures (h * y + r) % m == (x * y + z) % m
  {
    var k, j := x / m, z / m;
    assert x * y == k * y * m + h * y by {
      assert x == k * m + h;
      Factor(k, m, h, y);
    }
    ModUnique(x * y + z, h * y + z, k * y, m);
    assert z == j * m + z % m;
    ModUnique(h * y + z, h * y + z % m, j, m);
  }

  lemma Factor(k: int, m: int, r: int, y: int)
    ensures (k * m + r) * y == k * y * m + r * y
  {
  }

  lemma {:induction false} PolynomialConcat(a: string, b: string)
    ensures Polynomial(a + b) == Polynomial(a) * Pow31(|b|) + Polynomial(b)
  {
    if a == "" {
      assert a + b == b;
    } else {
      assert (a + b)[0] == a[0] && (a + b)[1..] == a[1..] + b;
      PolynomialConcat(a[1..], b);
      PowAdd(|a| - 1, |b|);
      Factor2(SignedChar(a[0]), Pow31(|a| - 1), Pow31(|b|), Polynomial(a[1..]), Polynomial(b));
    }
  }

  lemma Factor2(c: int, p: int, q: int, r: int, s: int)
    ensures c * (p * q) + (r * q + s) == (c * p + r) * q + s
  {
    assert c * (p * q) == c * p * q;
    assert (c * p + r) * q == c * p * q + r * q;
  }

  lemma {:induction false} PowAdd(m: nat, n: nat)
    ensures Pow31(m + n) == Pow31(m) * Pow31(n)
  {
    if m > 0 {
      PowAdd(m - 1, n);
      assert Pow31(m + n) == BASE * (Pow31(m - 1) * Pow31(n)) == BASE * Pow31(m - 1) * Pow31(n);
    }
  }

  lemma PolynomialAppend(s: string, c: char) returns (p: int, p': int)
    ensures p == Polynomial(s) && p' == Polynomial(s + [c]) && p' == p * BASE + SignedChar(c)
  {
    p, p' := Polynomial(s), Polynomial(s + [c]);
    PolynomialConcat(s, [c]);
    assert [c][1..] == "";
    assert Pow31(1) == BASE * Pow31(0);
  }

  lemma HashAppend(s: string, c: char) returns (h: nat, h': nat)
    ensures h == Hash(s) && h' == Hash(s + [c]) && h' == (h * BASE + SignedChar(c) + WrapError(h, c)) % MOD
  {
    h, h' := Hash(s), Hash(s + [c]);
    assert (s + [c])[..|s|] == s;
    HashInRange(s, c);
    StepError(h, c);
  }

  lemma StepError(hash: nat, c: char)
    requires hash < MOD
    ensures HashStep(hash, c) == (hash * BASE + SignedChar(c) + WrapError(hash, c)) % MOD
  {
    var x := hash * BASE + SignedChar(c);
    if x >= 0 {
      assert x % TWO64 == x;
    } else {
      assert x % TWO64 == x + TWO64;
      assert TWO64 % MOD == 582344008;
      ModUnique(x + TWO64, x + TWO64 % MOD, TWO64 / MOD, MOD);
    }
  }

  /** No iteration over s meets a negative signed sum. */
  ghost predicate NeverNegative(s: string) {
    forall i | 0 <= i < |s| :: Hash(s[..i]) * 31 + SignedChar(s[i]) >= 0
  }

  lemma AsciiNeverNegative(s: string)
    requires Ascii(s)
    ensures NeverNegative(s)
  {
  }

  /** What an iteration at a negative sum adds: the residue of 2^64, which is no multiple of MOD. */
  function WrapError(hash: nat, c: char): nat { if hash * 31 + SignedChar(c) < 0 then 582344008 else 0 }

  /** What all the wrapped iterations add up to. */
  function HashError(s: string): nat {
    if s == "" then 0
    else
      var t, c := s[..|s| - 1], s[|s| - 1];
      HashError(t) * 31 + WrapError(Hash(t), c)
  }

  /** On every string the loop computes the base-31 polynomial modulo MOD, off by the error. */
  lemma {:induction false} HashIsPolynomialPlusError(s: string)
    ensures Hash(s) == (Polynomial(s) + HashError(s)) % 1000000007
  {
    if s != "" {
      var t, c := s[..|s| - 1], s[|s| - 1];
      assert s == t + [c];
      HashIsPolynomialPlusError(t);
      HashStepError(t, c);
    }
  }

  lemma HashStepError(t: string, c: char)
    requires Hash(t) == (Polynomial(t) + HashError(t)) % MOD
    ensures Hash(t + [c]) == (Polynomial(t + [c]) + HashError(t + [c])) % MOD
  {
    var h, h' := HashAppend(t, c);
    var p, p' := PolynomialAppend(t, c);
    var e, e' := ErrorAppend(t, c);
    var z := SignedChar(c) + WrapError(h, c);
    ModHorner(p + e, BASE, z, MOD, h, z);
  }

  lemma ErrorAppend(t: string, c: char) returns (e: nat, e': nat)
    ensures e == HashError(t) && e' == HashError(t + [c]) && e' == e * BASE + WrapError(Hash(t), c)
  {
    e, e' := HashError(t), HashError(t + [c]);
    assert (t + [c])[..|t|] == t;
  }

  /** So the hash is the polynomial exactly when the error is a multiple of MOD. */
  lemma HashIsPolynomialIff(s: string)
    ensures Hash(s) == Polynomial(s) % 1000000007 <==> HashError(s) % 1000000007 == 0
  {
    var h, p, e := HashParts(s);
    SameResidueIff(p, e, MOD);
  }

  lemma HashParts(s: string) returns (h: nat, p: int, e: nat)
    ensures h == Hash(s) && p == Polynomial(s) && e == HashError(s) && h == (p + e) % MOD
  {
    h, p, e := Hash(s), Polynomial(s), HashError(s);
    HashIsPolynomialPlusError(s);
  }

  lemma SameResidueIff(p: int, e: int, m: int)
    requires m > 0
    ensures (p + e) % m == p % m <==> e % m == 0
  {
    ModAdd(p, e, m);
    var r, q := p % m, e % m;
    if r + q < m {
      SmallMod(r + q, m);
    } else {
      ModUnique(r + q, r + q - m, 1, m);
      SmallMod(r + q - m, m);
    }
  }

  lemma SmallMod(x: int, m: int)
    requires 0 <= x < m
    ensures x % m == x
  {
  }

  /** There is no error where no step is negative. */
  lemma {:induction false} NoError(s: string)
    requires NeverNegative(s)
    ensures HashError(s) == 0
  {
    if s != "" {
      var t := s[..|s| - 1];
      assert forall i | 0 <= i < |t| :: t[..i] == s[..i] && t[i] == s[i];
      NoError(t);
    }
  }

  lemma HashIsPolynomial(s: string)
    requires NeverNegative(s)
    ensures Hash(s) == Polynomial(s) % 1000000007
  {
    NoError(s);
    HashIsPolynomialPlusError(s);
  }

  /** Hashing a concatenation from the hashes of its parts. */
  lemma HashConcat(a: string, b: string) returns (ha: nat, hb: nat, h: nat, w: nat)
    requires NeverNegative(a + b) && NeverNegative(b)
    ensures ha == Hash(a) && hb == Hash(b) && h == Hash(a + b) && w == Pow31(|b|)
    ensures h == (ha * w + hb) % 1000000007
  {
    ha, hb, h := Hash(a), Hash(b), Hash(a + b);
    var pa, pb, p;
    pa, pb, p, w := Residues(a, b);
    ConcatResidue(pa, pb, p, w, MOD, ha, hb, h);
  }

  lemma Residues(a: string, b: string) returns (pa: int, pb: int, p: int, w: nat)
    requires NeverNegative(a + b) && NeverNegative(b)
    ensures Hash(a) == pa % MOD && Hash(b) == pb % MOD && Hash(a + b) == p % MOD
    ensures w == Pow31(|b|) && p == pa * w + pb
  {
    pa, pb, p, w := Polynomial(a), Polynomial(b), Polynomial(a + b), Pow31(|b|);
    assert forall i | 0 <= i < |a| :: (a + b)[..i] == a[..i] && (a + b)[i] == a[i];
    HashIsPolynomial(a);
    HashIsPolynomial(b);
    HashIsPolynomial(a + b);
    PolynomialConcat(a, b);
  }

  lemma ConcatResidue(pa: int, pb: int, p: int, w: int, m: int, ha: int, hb: int, h: int)
    requires m > 0 && p == pa * w + pb
    requires ha == pa % m && hb == pb % m && h == p % m
    ensures h == (ha * w + hb) % m
  {
    ModHorner(pa, w, pb, m, ha, hb);
  }

  /** The hash is a residue, and an iteration never overflows 64 bits; on ASCII bytes the sum is
      never negative either, so nothing wraps. */
  lemma HashInRange(s: string, c: char)
    ensures Hash(s) < 1000000007
    ensures -128 <= Hash(s) * 31 + SignedChar(c) < 0x8000_0000_0000_0000
    ensures c as int < 128 ==> Hash(s) * 31 + SignedChar(c) >= 0
  {
  }

  /** A string of two characters, and its shard among two. */
  lemma HashOfAB()
    ensures Hash("ab") == 97 * 31 + 98 == 3105 && ShardOf("ab", 2) == 1
  {
    assert "ab"[..1] == "a" && "a"[..0] == "";
    assert Hash("a") == 97;
  }

  /** The one-byte string 0xFF, a character of value -1: the unsigned loop wraps below zero. */
  lemma HashOfByte255()
    ensures var s := [255 as char];
      Hash(s) == 582344007 && Polynomial(s) % 1000000007 == 1000000006
  {
    var s := [255 as char];
    assert s[..0] == "" && s[1..] == "";
    assert Pow31(0) == 1;
    assert SignedChar(s[0]) == -1;
    assert (-1) % TWO64 == TWO64 - 1;
  }

  /** The shard of a list: the same expression at the client and at the node. */
  function ShardOf(listUid: string, numShards: nat): nat
    requires numShards > 0
  {
    Hash(listUid) % numShards
  }
}
