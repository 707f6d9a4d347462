/**
 The 64-bit linear congruential generator inside `deterministicVector`
 (internal/core/usecase/embedding.go), and its full period.
 */
module Lcg {
  import opened Integers

  const MULTIPLIER := 6364136223846793005
  const INCREMENT := 1442695040888963407

  /** One wrapping multiply-and-add. */
  function Next(x: int): (y: int)
    ensures IsWord(y)
  {
    Affine(MULTIPLIER, INCREMENT, x)
  }

  /** The state after n steps from x. */
  function Iterate(x: int, n: nat): int {
    if n == 0 then x else Next(Iterate(x, n - 1))
  }

  function Pow(a: int, n: nat): int {
    if n == 0 then 1 else a * Pow(a, n - 1)
  }

  /** 1 + a + ... + a^(n-1) */
  function Geometric(a: int, n: nat): int {
    if n == 0 then 0 else 1 + a * Geometric(a, n - 1)
  }

  lemma PowAlgebra(a: int, g: int)
    ensures a * ((a - 1) * g + 1) == (a - 1) * (1 + a * g) + 1
  {
    assert a * ((a - 1) * g) == (a - 1) * (a * g);
  }

  lemma {:induction false} GeometricPow(a: int, n: nat)
    ensures Pow(a, n) == (a - 1) * Geometric(a, n) + 1
  {
    if n > 0 {
      GeometricPow(a, n - 1);
      PowAlgebra(a, Geometric(a, n - 1));
    }
  }

  lemma OneModFourProduct(a: int, u: int, p: int, v: int)
    requires a == 4 * u + 1 && p == 4 * v + 1
    ensures a * p == 4 * (4 * (u * v) + u + v) + 1
  {
  }

  lemma OneModFour(p: int, w: int)
    requires p == 4 * w + 1
    ensures p % 4 == 1
  {
  }

  lemma {:induction false} PowOneModFour(a: int, n: nat)
    requires a % 4 == 1
    ensures Pow(a, n) % 4 == 1
  {
    if n > 0 {
      PowOneModFour(a, n - 1);
      var u, v := a / 4, Pow(a, n - 1) / 4;
      OneModFourProduct(a, u, Pow(a, n - 1), v);
      OneModFour(Pow(a, n), 4 * (u * v) + u + v);
    }
  }

  lemma SplitAlgebra(a: int, g: int, p: int, h: int)
    ensures 1 + a * (g + p * h) == 1 + a * g + (a * p) * h
  {
    assert a * (g + p * h) == a * g + a * (p * h);
    assert a * (p * h) == (a * p) * h;
  }

  lemma {:induction false} GeometricAdd(a: int, m: nat, n: nat)
    ensures Geometric(a, m + n) == Geometric(a, m) + Pow(a, m) * Geometric(a, n)
  {
    if m > 0 {
      var g, p, h := Geometric(a, m - 1), Pow(a, m - 1), Geometric(a, n);
      assert Geometric(a, m + n) == 1 + a * (g + p * h) by {
        GeometricAdd(a, m - 1, n);
        assert m - 1 + n == m + n - 1;
      }
      SplitAlgebra(a, g, p, h);
    }
  }

  lemma ParitySuccessor(w: int, g: int, n: int)
    requires w % 2 == g % 2 && g % 2 == (n - 1) % 2
    ensures (1 + w) % 2 == n % 2
  {
  }

  lemma {:induction false} GeometricParity(a: int, n: nat)
    requires a % 2 == 1
    ensures Geometric(a, n) % 2 == n % 2
  {
    if n > 0 {
      GeometricParity(a, n - 1);
      var g := Geometric(a, n - 1);
      OddProductParity(a, g);
      ParitySuccessor(a * g, g, n);
    }
  }

  lemma TwiceHalf(p: int, u: int, g: int)
    requires p == 2 * u - 1
    ensures g + p * g == 2 * (u * g)
  {
  }

  lemma OddHalf(p: int) returns (u: int)
    requires p % 4 == 1
    ensures u % 2 == 1 && p == 2 * u - 1
  {
    u := (p + 1) / 2;
  }

  /** Doubling the number of terms multiplies the sum by twice an odd number. */
  lemma GeometricDouble(a: int, m: nat) returns (u: int)
    requires a % 4 == 1
    ensures u % 2 == 1
    ensures Geometric(a, m + m) == 2 * (u * Geometric(a, m))
  {
    PowOneModFour(a, m);
    u := OddHalf(Pow(a, m));
    var g := Geometric(a, m);
    assert Geometric(a, m + m) == g + Pow(a, m) * g by {
      GeometricAdd(a, m, m);
    }
    TwiceHalf(Pow(a, m), u, g);
  }

  lemma HalfValuation(a: int, k: nat, m: nat)
    requires a % 4 == 1 && k > 0
    ensures Div2(k, Geometric(a, m + m)) <==> Div2(k - 1, Geometric(a, m))
  {
    var u := GeometricDouble(a, m);
    OddCancel(k - 1, u, Geometric(a, m));
    HalfOf(Geometric(a, m + m), u * Geometric(a, m));
  }

  /**
   The sum of n powers has exactly as many factors of two as n itself, when a is 1 modulo 4:
   an odd n gives an odd sum, and doubling n doubles the power of two in the sum.
   */
  lemma {:induction false} GeometricValuation(a: int, k: nat, n: nat)
    requires a % 4 == 1
    ensures Div2(k, Geometric(a, n)) <==> Div2(k, n)
    decreases k
  {
    if k > 0 {
      GeometricParity(a, n);
      if n % 2 == 0 {
        HalfValuation(a, k, n / 2);
        GeometricValuation(a, k - 1, n / 2);
        assert n / 2 + n / 2 == n;
      }
    }
  }

  /** a^n x + c (1 + a + ... + a^(n-1)), the state after n steps before reduction. */
  function ClosedForm(x: int, n: nat): int {
    Pow(MULTIPLIER, n) * x + INCREMENT * Geometric(MULTIPLIER, n)
  }

  /** One more term of the closed form. */
  lemma ClosedFormStep(a: int, c: int, p: int, g: int, x: int)
    ensures a * (p * x + c * g) + c == (a * p) * x + c * (1 + a * g)
  {
    assert a * (p * x) == (a * p) * x;
    assert a * (c * g) == c * (a * g);
  }

  lemma NextCongruent(x: int)
    ensures Same(Next(x), MULTIPLIER * x + INCREMENT)
  {
    SameAsReduced(MULTIPLIER * x + INCREMENT);
  }

  lemma ClosedFormNext(x: int, n: nat)
    ensures MULTIPLIER * ClosedForm(x, n) + INCREMENT == ClosedForm(x, n + 1)
  {
    ClosedFormStep(MULTIPLIER, INCREMENT, Pow(MULTIPLIER, n), Geometric(MULTIPLIER, n), x);
  }

  lemma {:induction false} IterateClosedForm(x: int, n: nat)
    ensures Same(Iterate(x, n), ClosedForm(x, n))
  {
    if n > 0 {
      IterateClosedForm(x, n - 1);
      ClosedFormNext(x, n - 1);
      CongruentStep(Iterate(x, n - 1), ClosedForm(x, n - 1));
    }
  }

  lemma CongruentStep(u: int, v: int)
    requires Same(u, v)
    ensures Same(Next(u), MULTIPLIER * v + INCREMENT)
  {
    SameAffine(MULTIPLIER, INCREMENT, u, v);
    NextCongruent(u);
    SameTransitive(Next(u), MULTIPLIER * u + INCREMENT, MULTIPLIER * v + INCREMENT);
  }

  lemma DistanceOdd(x: int)
    ensures ((MULTIPLIER - 1) * x + INCREMENT) % 2 == 1
  {
  }

  /** The distance travelled in n steps is an odd multiple of a sum of n powers. */
  lemma Distance(x: int, n: nat)
    ensures ClosedForm(x, n) - x == ((MULTIPLIER - 1) * x + INCREMENT) * Geometric(MULTIPLIER, n)
  {
    DistanceFor(MULTIPLIER, INCREMENT, x, n);
  }

  lemma DistanceFor(a: int, c: int, x: int, n: nat)
    ensures Pow(a, n) * x + c * Geometric(a, n) - x == ((a - 1) * x + c) * Geometric(a, n)
  {
    GeometricPow(a, n);
    DistanceAlgebra(a - 1, c, Geometric(a, n), x);
  }

  lemma DistanceAlgebra(b: int, c: int, g: int, x: int)
    ensures (b * g + 1) * x + c * g - x == (b * x + c) * g
  {
    assert (b * g) * x == (b * x) * g;
  }

  /**
   Full period, at every power of two: the low k bits of the state come back to where they
   started after exactly the multiples of 2^k steps.
   */
  lemma LowBitsPeriod(x: int, n: nat, k: nat)
    requires k <= 64
    ensures Div2(k, Iterate(x, n) - x) <==> Div2(k, n)
  {
    Distance(x, n);
    DistanceOdd(x);
    GeometricValuation(MULTIPLIER, k, n);
    OddCancel(k, (MULTIPLIER - 1) * x + INCREMENT, Geometric(MULTIPLIER, n));
    IterateClosedForm(x, n);
    SameLowBits(k, Iterate(x, n), ClosedForm(x, n));
    Div2Add(k, Iterate(x, n) - ClosedForm(x, n), ClosedForm(x, n) - x);
  }

  /** The state is back at its start exactly after the multiples of 2^64 steps. */
  lemma FullPeriod(x: int, n: nat)
    requires IsWord(x)
    ensures Iterate(x, n) == x <==> n % TWO64 == 0
  {
    IterateIsWord(x, n);
    LowBitsPeriod(x, n, 64);
    Div2Word(Iterate(x, n) - x);
    Div2Word(n);
    SameWord(Iterate(x, n), x);
  }

  lemma {:induction false} IterateIsWord(x: int, n: nat)
    requires IsWord(x)
    ensures IsWord(Iterate(x, n))
  {
  }

  lemma {:induction false} IterateAdd(x: int, m: nat, n: nat)
    ensures Iterate(Iterate(x, m), n) == Iterate(x, m + n)
  {
    if n > 0 {
      IterateAdd(x, m, n - 1);
    }
  }

  lemma SmallNotMultiple(n: nat)
    requires 0 < n < TWO64
    ensures n % TWO64 != 0
  {
  }

  /** No two of 2^64 consecutive states are equal. */
  lemma StatesDistinct(x: int, i: nat, j: nat)
    requires IsWord(x)
    requires i < j < i + TWO64
    ensures Iterate(x, i) != Iterate(x, j)
  {
    IterateIsWord(x, i);
    IterateAdd(x, i, j - i);
    FullPeriod(Iterate(x, i), j - i);
    SmallNotMultiple(j - i);
  }

  lemma MultiplierIsOdd()
    ensures MULTIPLIER % 2 == 1
  {
  }

  /** The step loses nothing: different states stay different. */
  lemma NextInjective(x: int, y: int)
    requires IsWord(x) && IsWord(y)
    requires Next(x) == Next(y)
    ensures x == y
  {
    MultiplierIsOdd();
    OddMultiplier(MULTIPLIER, INCREMENT, x, y);
  }

  lemma {:induction false} IterateInjective(x: int, y: int, n: nat)
    requires IsWord(x) && IsWord(y)
    requires Iterate(x, n) == Iterate(y, n)
    ensures x == y
  {
    if n > 0 {
      IterateIsWord(x, n - 1);
      IterateIsWord(y, n - 1);
      NextInjective(Iterate(x, n - 1), Iterate(y, n - 1));
      IterateInjective(x, y, n - 1);
    }
  }

  /** The states among the first n of the orbit of x. */
  ghost function Visited(x: int, n: nat): set<int> {
    if n == 0 then {} else Visited(x, n - 1) + {Iterate(x, n - 1)}
  }

  lemma {:induction false} VisitedAt(x: int, n: nat, y: int) returns (i: nat)
    requires y in Visited(x, n)
    ensures i < n && Iterate(x, i) == y
  {
    if y == Iterate(x, n - 1) {
      i := n - 1;
    } else {
      i := VisitedAt(x, n - 1, y);
    }
  }

  lemma {:induction false} VisitedCount(x: int, n: nat)
    requires IsWord(x) && n <= TWO64
    ensures |Visited(x, n)| == n
    ensures forall y :: y in Visited(x, n) ==> IsWord(y)
  {
    if n > 0 {
      VisitedCount(x, n - 1);
      IterateIsWord(x, n - 1);
      if Iterate(x, n - 1) in Visited(x, n - 1) {
        var i := VisitedAt(x, n - 1, Iterate(x, n - 1));
        StatesDistinct(x, i, n - 1);
      }
    }
  }

  lemma {:induction false} Below(s: set<int>, n: nat)
    requires forall y :: y in s ==> 0 <= y < n
    ensures |s| <= n
  {
    if n == 0 {
      forall y
        ensures y !in s
      {
      }
    } else {
      Below(s - {n - 1}, n - 1);
      assert |s| <= |s - {n - 1}| + 1;
    }
  }

  /** Every 64-bit state is reached from every seed within one period. */
  lemma EveryStateReached(x: int, y: int)
    requires IsWord(x) && IsWord(y)
    ensures exists n: nat :: n < TWO64 && Iterate(x, n) == y
  {
    var v := Visited(x, TWO64);
    VisitedCount(x, TWO64);
    if y in v {
      var i := VisitedAt(x, TWO64, y);
    } else {
      Below(v + {y}, TWO64);
    }
  }
}
