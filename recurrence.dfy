/**
 * The closed-form fidelity recurrence of one BBPSSW purification round (Bennett et al.,
 * Phys. Rev. Lett. 76, 722 (1996)): a Werner state of fidelity F becomes one of fidelity
 *
 *   F' = (F^2 + (1/9)(1-F)^2) / (F^2 + (2/3)F(1-F) + (5/9)(1-F)^2).
 *
 * Over the reals the denominator is (8F^2 - 4F + 5)/9 = (8(F - 1/4)^2 + 9/2)/9, never 0,
 * and F' - F = -8(F - 1)(F - 1/2)(F - 1/4) / (9 * denominator), which places the fixed
 * points and says where a round improves the fidelity.
 */
module Recurrence {

  /** The numerator of F': the weight of the surviving singlet outcomes. */
  function Numerator(F: real): real
  {
    F * F + (1.0 / 9.0) * (1.0 - F) * (1.0 - F)
  }

  /** The denominator of F': the probability that a round keeps the pair. */
  function Denominator(F: real): real
  {
    F * F + (2.0 / 3.0) * F * (1.0 - F) + (5.0 / 9.0) * (1.0 - F) * (1.0 - F)
  }

  /** Both polynomials in expanded form. */
  lemma {:induction false} ExpandedForms(F: real)
    ensures 9.0 * Numerator(F) == 10.0 * F * F - 2.0 * F + 1.0
    ensures 9.0 * Denominator(F) == 8.0 * F * F - 4.0 * F + 5.0
  {
  }

  /** The denominator is positive for every real F, so F' is defined everywhere. */
  lemma {:induction false} DenominatorPositive(F: real)
    ensures Denominator(F) > 0.0
  {
    ExpandedForms(F);
    var g := F - 0.25;
    assert 8.0 * F * F - 4.0 * F + 5.0 == 8.0 * (g * g) + 4.5;
    assert g * g >= 0.0;
  }

  /** The numerator is positive for every real F. */
  lemma {:induction false} NumeratorPositive(F: real)
    ensures Numerator(F) > 0.0
  {
    ExpandedForms(F);
    var g := F - 0.1;
    assert 10.0 * F * F - 2.0 * F + 1.0 == 10.0 * (g * g) + 0.9;
    assert g * g >= 0.0;
  }

  /** F' as a function of F. */
  function FPrime(F: real): real
  {
    DenominatorPositive(F);
    Numerator(F) / Denominator(F)
  }

  /** Comparing a quotient with a positive denominator against x is comparing n against x * d. */
  lemma {:induction false} QuotientCompare(n: real, d: real, x: real)
    requires d > 0.0
    ensures n / d < x <==> n < x * d
    ensures n / d == x <==> n == x * d
    ensures n / d > x <==> n > x * d
  {
    var q := n / d;
    assert q * d == n;
    if q < x {
      assert q * d < x * d;
    } else if q > x {
      assert q * d > x * d;
    }
  }

  /** The numerator minus F times the denominator, factored over its three real roots. */
  lemma {:induction false} GainFactored(F: real)
    ensures 9.0 * (Numerator(F) - F * Denominator(F)) == -8.0 * ((F - 1.0) * (F - 0.5) * (F - 0.25))
  {
    ExpandedForms(F);
    assert 9.0 * (Numerator(F) - F * Denominator(F)) == -(8.0 * F * F * F - 14.0 * F * F + 7.0 * F - 1.0);
  }

  /** The sign of a product from the signs of its factors. */
  lemma {:induction false} ProductSign(x: real, y: real)
    ensures x > 0.0 && y > 0.0 ==> x * y > 0.0
    ensures x < 0.0 && y < 0.0 ==> x * y > 0.0
    ensures x < 0.0 && y > 0.0 ==> x * y < 0.0
    ensures x > 0.0 && y < 0.0 ==> x * y < 0.0
    ensures x == 0.0 || y == 0.0 ==> x * y == 0.0
  {
  }

  /** The sign of (F - 1)(F - 1/2)(F - 1/4): zero at the roots, positive above 1 and between 1/4 and 1/2. */
  lemma {:induction false} CubicSign(F: real)
    ensures (F - 1.0) * (F - 0.5) * (F - 0.25) == 0.0 <==> F == 0.25 || F == 0.5 || F == 1.0
    ensures (F - 1.0) * (F - 0.5) * (F - 0.25) > 0.0 <==> 0.25 < F < 0.5 || 1.0 < F
  {
    var a, b, c := F - 1.0, F - 0.5, F - 0.25;
    ProductSign(a, b);
    ProductSign(a * b, c);
    if F < 0.25 {
      assert a < 0.0 && b < 0.0 && c < 0.0 && a * b > 0.0;
    } else if F < 0.5 {
      if F != 0.25 {
        assert a < 0.0 && b < 0.0 && c > 0.0 && a * b > 0.0;
      }
    } else if F < 1.0 {
      if F != 0.5 {
        assert a < 0.0 && b > 0.0 && c > 0.0 && a * b < 0.0;
      }
    } else if F != 1.0 {
      assert a > 0.0 && b > 0.0 && c > 0.0 && a * b > 0.0;
    }
  }

  /** The fixed points of the recurrence are exactly 1/4, 1/2 and 1. */
  lemma {:induction false} FPrimeFixedPoints(F: real)
    ensures FPrime(F) == F <==> F == 0.25 || F == 0.5 || F == 1.0
  {
    DenominatorPositive(F);
    QuotientCompare(Numerator(F), Denominator(F), F);
    GainFactored(F);
    CubicSign(F);
  }

  /**
   * A round raises the fidelity exactly below 1/4 and strictly between 1/2 and 1, and lowers
   * it everywhere else off the fixed points; in particular a Werner state better than 1/2 but
   * not pure improves, and one between 1/4 and 1/2 degrades.
   */
  lemma {:induction false} FPrimeImproves(F: real)
    ensures FPrime(F) > F <==> F < 0.25 || 0.5 < F < 1.0
    ensures FPrime(F) < F <==> 0.25 < F < 0.5 || 1.0 < F
  {
    DenominatorPositive(F);
    QuotientCompare(Numerator(F), Denominator(F), F);
    GainFactored(F);
    CubicSign(F);
  }

  /** The sign of (F + 2)(F - 1): not positive exactly between its roots -2 and 1. */
  lemma {:induction false} QuadraticSign(F: real)
    ensures (F + 2.0) * (F - 1.0) <= 0.0 <==> -2.0 <= F <= 1.0
  {
    ProductSign(F + 2.0, F - 1.0);
    if F < -2.0 {
      assert F + 2.0 < 0.0 && F - 1.0 < 0.0;
    } else if F > 1.0 {
      assert F + 2.0 > 0.0 && F - 1.0 > 0.0;
    } else if F != -2.0 && F != 1.0 {
      assert F + 2.0 > 0.0 && F - 1.0 < 0.0;
    }
  }

  /** F' is always positive, and at most 1 exactly when -2 <= F <= 1; so [0, 1] maps into [0, 1]. */
  lemma {:induction false} FPrimeBounds(F: real)
    ensures FPrime(F) > 0.0
    ensures FPrime(F) <= 1.0 <==> -2.0 <= F <= 1.0
  {
    DenominatorPositive(F);
    NumeratorPositive(F);
    QuotientCompare(Numerator(F), Denominator(F), 0.0);
    QuotientCompare(Numerator(F), Denominator(F), 1.0);
    ExpandedForms(F);
    assert 9.0 * (Numerator(F) - Denominator(F)) == 2.0 * ((F + 2.0) * (F - 1.0));
    QuadraticSign(F);
  }

  /** A perfect singlet stays perfect; the fully mixed fidelity 1/4 and the threshold 1/2 are fixed. */
  lemma {:induction false} FPrimeValues()
    ensures FPrime(1.0) == 1.0 && FPrime(0.25) == 0.25 && FPrime(0.5) == 0.5
  {
    FPrimeFixedPoints(1.0);
    FPrimeFixedPoints(0.25);
    FPrimeFixedPoints(0.5);
  }
}
