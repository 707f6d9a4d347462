/** Go's fixed-width integers, its decimal printing, and divisibility by powers of two. */
module Integers {

  const TWO64 := 0x1_0000_0000_0000_0000
  const TWO63 := 0x8000_0000_0000_0000
  const TWO32 := 0x1_0000_0000
  const TWO31 := 0x8000_0000

  /** The value of a conversion or an arithmetic result in Go's int64. */
  function Int64(x: int): (r: int)
    ensures -TWO63 <= r < TWO63
  {
    (x + TWO63) % TWO64 - TWO63
  }

  lemma Int64Meaning(x: int)
    ensures Same(Int64(x), x)
    ensures -TWO63 <= x < TWO63 <==> Int64(x) == x
  {
  }

  /** The value of Go's `int32(x)`. */
  function Int32(x: int): (r: int)
    ensures -TWO31 <= x < TWO31 <==> r == x
  {
    (x + TWO31) % TWO32 - TWO31
  }

  lemma Int32Meaning(x: int)
    ensures -TWO31 <= Int32(x) < TWO31
    ensures (Int32(x) - x) % TWO32 == 0
  {
  }

  /** Go's `%`: the remainder takes the sign of the dividend. */
  function TruncRem(x: int, m: int): (r: int)
    requires m > 0
    ensures -m < r < m
    ensures (x >= 0 ==> r >= 0) && (x <= 0 ==> r <= 0)
  {
    if x >= 0 then x % m else -((-x) % m)
  }

  /** What the remainder leaves is a multiple of the divisor. */
  lemma TruncRemMeaning(x: int, m: int)
    requires m > 0
    ensures (x - TruncRem(x, m)) % m == 0
  {
    if x >= 0 {
      DivisionLeaves(x, m);
    } else {
      DivisionLeaves(-x, m);
      var q := (-x) / m;
      assert x - TruncRem(x, m) == m * (-q);
      MulMod(m, -q);
    }
  }

  lemma DivisionLeaves(x: nat, m: int)
    requires m > 0
    ensures x - x % m == m * (x / m)
    ensures (x - x % m) % m == 0
  {
    MulMod(m, x / m);
  }

  lemma Int64OfWord(x: int)
    requires IsWord(x)
    ensures Int64(x) == if x < TWO63 then x else x - TWO64
  {
  }

  lemma MulMod(m: int, q: int)
    requires m > 0
    ensures (m * q) % m == 0
  {
    var r := (m * q) % m;
    var d := q - (m * q) / m;
    assert m * q == m * ((m * q) / m) + r;
    assert m * d == r;
    Multiples(m, d);
  }

  lemma Multiples(m: int, d: int)
    requires m > 0
    ensures d >= 1 ==> m * d >= m
    ensures d <= -1 ==> m * d <= -m
  {
  }

  /** Decimal printing, as Go's `%d`. */
  function DecimalNat(n: nat): (s: string)
    ensures s != "" && forall c :: c in s ==> '0' <= c <= '9'
  {
    if n < 10 then [('0' as int + n) as char]
    else DecimalNat(n / 10) + [('0' as int + n % 10) as char]
  }

  function Decimal(n: int): string {
    if n < 0 then "-" + DecimalNat(-n) else DecimalNat(n)
  }

  function Value(digits: string): int {
    if digits == "" then 0
    else 10 * Value(digits[..|digits| - 1]) + digits[|digits| - 1] as int - '0' as int
  }

  lemma {:induction false} DecimalValue(n: nat)
    ensures Value(DecimalNat(n)) == n
  {
    if n < 10 {
      assert DecimalNat(n)[..0] == "";
    } else {
      DecimalValue(n / 10);
      var s := DecimalNat(n);
      assert s[..|s| - 1] == DecimalNat(n / 10);
    }
  }

  /** Different numbers print differently. */
  lemma DecimalInjective(m: int, n: int)
    requires Decimal(m) == Decimal(n)
    ensures m == n
  {
    DecimalValue(if m < 0 then -m else m);
    DecimalValue(if n < 0 then -n else n);
    assert m < 0 ==> Decimal(m)[0] == '-' && Decimal(m)[1..] == DecimalNat(-m);
    assert n < 0 ==> Decimal(n)[0] == '-' && Decimal(n)[1..] == DecimalNat(-n);
    assert m >= 0 ==> Decimal(m)[0] in DecimalNat(m);
    assert n >= 0 ==> Decimal(n)[0] in DecimalNat(n);
  }

  function Pow2(k: nat): (p: int)
    ensures p >= 1
  {
    if k == 0 then 1 else 2 * Pow2(k - 1)
  }

  lemma Pow2Values()
    ensures Pow2(3) == 8
    ensures Pow2(64) == TWO64
  {
    assert Pow2(8) == 0x100 by { assert Pow2(4) == 0x10; }
    assert Pow2(16) == 0x1_0000 by { assert Pow2(12) == 0x1000; }
    assert Pow2(32) == TWO32 by {
      assert Pow2(20) == 0x10_0000;
      assert Pow2(24) == 0x100_0000;
      assert Pow2(28) == 0x1000_0000;
    }
    assert Pow2(48) == 0x1_0000_0000_0000 by {
      assert Pow2(36) == 0x10_0000_0000;
      assert Pow2(40) == 0x100_0000_0000;
      assert Pow2(44) == 0x1000_0000_0000;
    }
    assert Pow2(52) == 0x10_0000_0000_0000;
    assert Pow2(56) == 0x100_0000_0000_0000;
    assert Pow2(60) == 0x1000_0000_0000_0000;
  }

  /** 2^k divides x, one factor of two at a time. */
  predicate Div2(k: nat, x: int) {
    k == 0 || (x % 2 == 0 && Div2(k - 1, x / 2))
  }

  /** `Div2` is divisibility by 2^k. */
  lemma {:induction false} Div2IsMod(k: nat, x: int)
    ensures Div2(k, x) <==> x % Pow2(k) == 0
    decreases k
  {
    if k > 0 {
      Div2IsMod(k - 1, x / 2);
      var p := Pow2(k - 1);
      HalfMod(p, x);
    }
  }

  lemma HalfMod(p: int, x: int)
    requires p >= 1
    ensures x % (2 * p) == 0 <==> x % 2 == 0 && x / 2 % p == 0
  {
    if x % (2 * p) == 0 {
      HalfOfMultiple(p, x, x / (2 * p));
    }
    if x % 2 == 0 && x / 2 % p == 0 {
      DoubleOfMultiple(p, x / 2, x / 2 / p);
    }
  }

  lemma HalfOfMultiple(p: int, x: int, q: int)
    requires p >= 1 && x == 2 * p * q
    ensures x % 2 == 0 && x / 2 % p == 0
  {
    assert 2 * p * q == 2 * (p * q);
    assert x / 2 == p * q;
    MulMod(p, q);
  }

  lemma DoubleOfMultiple(p: int, h: int, q: int)
    requires p >= 1 && h == p * q
    ensures 2 * h % (2 * p) == 0
  {
    assert 2 * (p * q) == 2 * p * q;
    MulMod(2 * p, q);
  }

  lemma {:induction false} Div2Add(k: nat, x: int, y: int)
    requires Div2(k, x)
    ensures Div2(k, x + y) <==> Div2(k, y)
    ensures Div2(k, y - x) <==> Div2(k, y)
    decreases k
  {
    if k > 0 {
      Div2Add(k - 1, x / 2, y / 2);
      assert x % 2 == 0;
      assert y % 2 == 0 ==> (x + y) / 2 == x / 2 + y / 2 && (y - x) / 2 == y / 2 - x / 2;
    }
  }

  lemma {:induction false} Div2Weaken(j: nat, k: nat, x: int)
    requires j <= k && Div2(k, x)
    ensures Div2(j, x)
    decreases j
  {
    if j > 0 {
      Div2Weaken(j - 1, k - 1, x / 2);
    }
  }

  lemma OddTimes(u: int, v: int, x: int)
    requires u == 2 * v + 1
    ensures u * x == 2 * (v * x) + x
  {
  }

  lemma ParityOf(p: int, m: int, x: int)
    requires p == 2 * m + x
    ensures p % 2 == x % 2
  {
  }

  lemma OddProductParity(u: int, x: int)
    requires u % 2 == 1
    ensures (u * x) % 2 == x % 2
  {
    OddTimes(u, u / 2, x);
    ParityOf(u * x, u / 2 * x, x);
  }

  lemma TimesDouble(u: int, x: int, h: int)
    requires x == 2 * h
    ensures u * x == 2 * (u * h)
  {
  }

  lemma HalfOf(p: int, m: int)
    requires p == 2 * m
    ensures p / 2 == m
  {
  }

  lemma EvenProductHalf(u: int, x: int)
    requires x % 2 == 0
    ensures (u * x) / 2 == u * (x / 2)
  {
    TimesDouble(u, x, x / 2);
    HalfOf(u * x, u * (x / 2));
  }

  /** An odd factor adds nothing: this is why an odd multiplier loses no bits modulo 2^k. */
  lemma {:induction false} OddCancel(k: nat, u: int, x: int)
    requires u % 2 == 1
    ensures Div2(k, u * x) <==> Div2(k, x)
    decreases k
  {
    if k > 0 {
      OddProductParity(u, x);
      if x % 2 == 0 {
        EvenProductHalf(u, x);
        OddCancel(k - 1, u, x / 2);
      }
    }
  }

  lemma Div2Word(x: int)
    ensures Div2(64, x) <==> x % TWO64 == 0
  {
    Div2IsMod(64, x);
    Pow2Values();
  }

  // ---- Arithmetic modulo 2^64 ----

  /** A value of Go's uint64. */
  predicate IsWord(x: int) {
    0 <= x < TWO64
  }

  predicate Same(x: int, y: int) {
    (x - y) % TWO64 == 0
  }

  lemma SameAsReduced(x: int)
    ensures Same(x % TWO64, x)
  {
  }

  lemma SameRemainder(x: int, y: int)
    ensures Same(x, y) <==> x % TWO64 == y % TWO64
  {
  }

  lemma SameWord(x: int, y: int)
    requires IsWord(x) && IsWord(y)
    ensures Same(x, y) <==> x == y
  {
  }

  lemma SameTransitive(x: int, y: int, z: int)
    requires Same(x, y) && Same(y, z)
    ensures Same(x, z)
  {
  }

  lemma SameAffine(a: int, c: int, x: int, y: int)
    requires Same(x, y)
    ensures Same(a * x + c, a * y + c)
  {
    var q := (x - y) / TWO64;
    assert x - y == TWO64 * q;
    assert a * x - a * y == a * (x - y) == TWO64 * (a * q);
    MulMod(TWO64, a * q);
  }

  /** Multiplying by an odd number is injective modulo 2^64. */
  lemma OddInjective(u: int, x: int, y: int)
    requires u % 2 == 1
    requires Same(u * x, u * y)
    ensures Same(x, y)
  {
    assert u * x - u * y == u * (x - y);
    Div2Word(u * (x - y));
    OddCancel(64, u, x - y);
    Div2Word(x - y);
  }

  /** `u*x + c` on Go's uint64. */
  function Affine(u: int, c: int, x: int): (r: int)
    ensures IsWord(r)
  {
    (u * x + c) % TWO64
  }

  /** Multiplying by an odd number and adding a constant is injective on 64-bit words. */
  lemma OddMultiplier(u: int, c: int, x: int, y: int)
    requires u % 2 == 1 && IsWord(x) && IsWord(y)
    requires Affine(u, c, x) == Affine(u, c, y)
    ensures x == y
  {
    SameRemainder(u * x + c, u * y + c);
    SameShift(u * x, u * y, c);
    OddInjective(u, x, y);
    SameWord(x, y);
  }

  lemma SameShift(x: int, y: int, c: int)
    ensures Same(x + c, y + c) <==> Same(x, y)
  {
  }

  /** Values that agree modulo 2^64 agree in their low k bits. */
  lemma SameLowBits(k: nat, x: int, y: int)
    requires k <= 64 && Same(x, y)
    ensures Div2(k, x - y)
  {
    Div2Word(x - y);
    Div2Weaken(k, 64, x - y);
  }
}
