/**
 * What JavaScript's `Number` makes of a decimal numeral: the nearest double, of two equally near
 * ones the one with the even significand (roundTiesToEven, section 4.3.1 of IEEE Std 754-2019), or
 * infinity. Up to 2^53 that is the value itself.
 */
module Doubles {
  import opened Common

  /** 2^53: the significand of a double has 53 bits. */
  const EXACT := 0x20_0000_0000_0000

  /**
   * Rounds a number of 54 bits or more: bits are shifted out until 54 are left, of which the last
   * decides. `sticky` tells whether any bit shifted out was set.
   */
  function Round(n: nat, sticky: bool): (r: nat)
    ensures n >= EXACT ==> r >= EXACT
  {
    if n < 2 * EXACT then 2 * (n / 2 + if n % 2 == 1 && (sticky || n / 2 % 2 == 1) then 1 else 0)
    else 2 * Round(n / 2, sticky || n % 2 == 1)
  }

  function Nearest(n: nat): nat {
    if n < EXACT then n else Round(n, false)
  }

  function PowerOfTwo(e: nat): (p: nat)
    ensures p >= 1
  {
    if e == 0 then 1 else 2 * PowerOfTwo(e - 1)
  }

  /** The first power of two that is too large for a double. */
  const EXPONENTS: nat := 1024

  /** Everything that rounds to 2^1024 or more is infinity, which 2^1024 itself stands for. */
  function ToDouble(n: nat): nat {
    Min(Nearest(n), PowerOfTwo(EXPONENTS))
  }

  lemma RoundsLittle(n: nat, sticky: bool)
    requires n < 2 * EXACT
    ensures n - 1 <= Round(n, sticky) <= n + 1 && Round(n, sticky) <= 2 * EXACT
  {
  }

  /** A greater number, or one with more behind it, never rounds to less. */
  lemma {:induction false} RoundMonotone(n: nat, s: bool, m: nat, t: bool)
    requires EXACT <= n <= m && (n == m ==> s ==> t)
    ensures Round(n, s) <= Round(m, t)
  {
    if m < 2 * EXACT {
    } else if n < 2 * EXACT {
      RoundsLittle(n, s);
    } else {
      RoundMonotone(n / 2, s || n % 2 == 1, m / 2, t || m % 2 == 1);
    }
  }

  /** The distance between neighbouring doubles around `n`. */
  function Spacing(n: nat): (u: nat)
    ensures u % 2 == 0 && u >= 2
  {
    if n < 2 * EXACT then 2 else 2 * Spacing(n / 2)
  }

  /** The result is a double, and at most half the spacing away; less, if bits behind `n` are set. */
  lemma {:induction false} RoundIsNear(n: nat, sticky: bool)
    requires n >= EXACT
    ensures Round(n, sticky) % Spacing(n) == 0
    ensures var r, half := Round(n, sticky), Spacing(n) / 2;
      r - n <= half && n - r <= if sticky then half - 1 else half
  {
    if n < 2 * EXACT {
    } else {
      var rest := sticky || n % 2 == 1;
      RoundIsNear(n / 2, rest);
      EvenMultiple(Round(n / 2, rest), Spacing(n / 2));
    }
  }

  lemma EvenMultiple(r: nat, u: nat)
    requires u > 0 && r % u == 0
    ensures 2 * r % (2 * u) == 0
  {
    assert 2 * r == 2 * u * (r / u);
    QuotientIs(2 * r, 2 * u, r / u, 0);
  }

  /** Beyond 2^53 a numeral reads as a multiple of the spacing that no other multiple is nearer than. */
  lemma NearestIsNear(n: nat, other: nat)
    requires n >= EXACT && other % Spacing(n) == 0
    ensures Nearest(n) % Spacing(n) == 0
    ensures Max(n - Nearest(n), Nearest(n) - n) <= Max(n - other, other - n)
  {
    RoundIsNear(n, false);
    if other != Nearest(n) {
      Apart(Nearest(n), other, Spacing(n));
    }
  }

  lemma DoubledQuotient(r: nat, u: nat)
    requires u > 0 && r % u == 0
    ensures 2 * r / (2 * u) == r / u
  {
    assert 2 * r == 2 * u * (r / u);
    QuotientIs(2 * r, 2 * u, r / u, 0);
  }

  lemma RoundHalves(n: nat)
    requires n >= 2 * EXACT
    ensures Spacing(n) == 2 * Spacing(n / 2) && Round(n, false) == 2 * Round(n / 2, n % 2 == 1)
  {
  }

  lemma TieAtTheEnd(n: nat)
    requires EXACT <= n < 2 * EXACT
    ensures var r := Round(n, false); Spacing(n) == 2 && (n != r ==> r / 2 % 2 == 0)
  {
  }

  /** Halfway between two doubles the result is the one with the even significand. */
  lemma {:induction false} TiesToEven(n: nat)
    requires n >= EXACT && (2 * (n - Nearest(n)) == Spacing(n) || 2 * (Nearest(n) - n) == Spacing(n))
    ensures Nearest(n) / Spacing(n) % 2 == 0
  {
    hide Round, Spacing;
    if n < 2 * EXACT {
      TieAtTheEnd(n);
    } else {
      RoundHalves(n);
      assert n % 2 == 0;
      TiesToEven(n / 2);
      RoundIsNear(n / 2, false);
      DoubledQuotient(Round(n / 2, false), Spacing(n / 2));
    }
  }

  lemma Apart(a: nat, b: nat, u: nat)
    requires u > 0 && a % u == 0 && b % u == 0 && a != b
    ensures Max(a - b, b - a) >= u
  {
    var i, j := a / u, b / u;
    assert a == u * i && b == u * j;
    if i < j {
      ScaledUp(u, j - i);
      assert b - a == u * (j - i);
    } else if j < i {
      ScaledUp(u, i - j);
      assert a - b == u * (i - j);
    }
  }

  lemma {:induction false} PowerSplits(a: nat, b: nat)
    ensures PowerOfTwo(a + b) == PowerOfTwo(a) * PowerOfTwo(b)
  {
    if b == 0 {
    } else {
      PowerSplits(a, b - 1);
      assert PowerOfTwo(a + b) == 2 * PowerOfTwo(a + (b - 1));
    }
  }

  lemma {:induction false} PowerIsLarge(e: nat)
    requires e >= 53
    ensures PowerOfTwo(e) >= EXACT
  {
    if e == 53 {
      assert PowerOfTwo(8) == 0x100 && PowerOfTwo(5) == 0x20;
      PowerSplits(8, 8);
      PowerSplits(16, 16);
      PowerSplits(32, 16);
      PowerSplits(48, 5);
    } else {
      PowerIsLarge(e - 1);
    }
  }

  /** Reading a numeral keeps the order, though it may make two numerals equal. */
  lemma DoubleMonotone(n: nat, m: nat)
    requires n <= m
    ensures ToDouble(n) <= ToDouble(m)
  {
    if EXACT <= n {
      RoundMonotone(n, false, m, false);
    }
  }

  /** Up to 2^53 nothing is rounded, and nothing above comes down below it. */
  lemma DoubleIsExact(n: nat)
    ensures n <= EXACT ==> ToDouble(n) == n
    ensures n >= EXACT ==> ToDouble(n) >= EXACT
  {
    PowerIsLarge(EXPONENTS);
  }

  /** The first number that is not a double reads as its neighbour. */
  lemma FirstInexact()
    ensures ToDouble(EXACT + 1) == ToDouble(EXACT) == EXACT
  {
    PowerIsLarge(EXPONENTS);
  }
}
