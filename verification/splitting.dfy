/**
 * The Altarelli-Parisi LO kernels written with S_1(N) = psi(N + 1) + gamma_E,
 * where the digamma function psi is a parameter. On the natural numbers the
 * digamma recurrence makes this S_1 the finite harmonic sum, so the kernels
 * coincide with the leading-order anomalous dimensions.
 */
module SplittingFunctions {
  import opened Harmonics
  import LeadingOrder

  /** The digamma function and the Euler-Mascheroni constant. */
  datatype Digamma = Digamma(psi: real -> real, eulerGamma: real)

  /** One step of the digamma recurrence at the natural number k: psi(k + 2) = psi(k + 1) + 1/(k + 1). */
  predicate Step(d: Digamma, k: nat)
  {
    d.psi((k + 2) as real) == d.psi((k + 1) as real) + 1.0 / (k + 1) as real
  }

  /** psi(1) = -gamma_E and psi(x + 1) = psi(x) + 1/x at every positive integer. */
  ghost predicate Recurrence(d: Digamma)
  {
    d.psi(1.0) == -d.eulerGamma && forall k: nat :: Step(d, k)
  }

  /** `_S1(N)` = psi(N + 1) + gamma_E. */
  function S1Psi(d: Digamma, n: int): real
  {
    d.psi((n + 1) as real) + d.eulerGamma
  }

  /** On the natural numbers `_S1` is the harmonic sum 1 + 1/2 + ... + 1/n. */
  lemma {:induction false} S1PsiIsHarmonic(d: Digamma, n: nat)
    requires Recurrence(d)
    ensures S1Psi(d, n) == S1(n)
  {
    if n > 0 {
      S1PsiIsHarmonic(d, n - 1);
      assert Step(d, n - 1);
    }
  }

  function GammaNs0(d: Digamma, n: int, nf: int, ca: real, cf: real): real
  {
    var f := 2.0 * (S1Psi(d, n - 1) + S1Psi(d, n + 1)) - 3.0;
    cf * f
  }

  function GammaPs0(d: Digamma, n: int, nf: int, ca: real, cf: real): real
  {
    0.0
  }

  function GammaQg0(d: Digamma, n: int, nf: int, ca: real, cf: real): real
  {
    var f := S1Psi(d, n - 1) + 4.0 * S1Psi(d, n + 1) - 2.0 * S1Psi(d, n + 2) - 3.0 * S1Psi(d, n);
    2.0 * nf as real * f
  }

  function GammaGq0(d: Digamma, n: int, nf: int, ca: real, cf: real): real
  {
    var f := 2.0 * S1Psi(d, n - 2) - 4.0 * S1Psi(d, n - 1) - S1Psi(d, n + 1) + 3.0 * S1Psi(d, n);
    2.0 * cf * f
  }

  function GammaGg0(d: Digamma, n: int, nf: int, ca: real, cf: real): real
  {
    var f := S1Psi(d, n - 2) - 2.0 * S1Psi(d, n - 1) - 2.0 * S1Psi(d, n + 1) + S1Psi(d, n + 2) + 3.0 * S1Psi(d, n);
    ca * (4.0 * f - 11.0 / 3.0) + 2.0 / 3.0 * nf as real
  }

  /**
   * At the integer moments where the finite harmonic sums are defined the
   * splitting-function kernels are the leading-order anomalous dimensions.
   */
  lemma AgreesWithLeadingOrder(d: Digamma, n: nat, nf: int, ca: real, cf: real)
    requires Recurrence(d) && n >= 1
    ensures GammaNs0(d, n, nf, ca, cf) == LeadingOrder.GammaNs0(n, nf, ca, cf)
    ensures GammaPs0(d, n, nf, ca, cf) == LeadingOrder.GammaPs0(n, nf, ca, cf)
    ensures GammaQg0(d, n, nf, ca, cf) == LeadingOrder.GammaQg0(n, nf, ca, cf)
    ensures n >= 2 ==> GammaGq0(d, n, nf, ca, cf) == LeadingOrder.GammaGq0(n, nf, ca, cf)
    ensures n >= 2 ==> GammaGg0(d, n, nf, ca, cf) == LeadingOrder.GammaGg0(n, nf, ca, cf)
  {
    NsAgrees(d, n, nf, ca, cf);
    QgAgrees(d, n, nf, ca, cf);
    if n >= 2 {
      GqAgrees(d, n, nf, ca, cf);
      GgAgrees(d, n, nf, ca, cf);
    }
  }

  /** Equal values scale to equal values. */
  lemma Scaled(c: real, a: real, b: real)
    ensures a == b ==> c * a == c * b
  {
  }

  lemma {:induction false} NsAgrees(d: Digamma, n: nat, nf: int, ca: real, cf: real)
    requires Recurrence(d) && n >= 1
    ensures GammaNs0(d, n, nf, ca, cf) == LeadingOrder.GammaNs0(n, nf, ca, cf)
  {
    S1PsiIsHarmonic(d, n - 1);
    S1PsiIsHarmonic(d, n + 1);
  }

  lemma {:induction false} QgAgrees(d: Digamma, n: nat, nf: int, ca: real, cf: real)
    requires Recurrence(d) && n >= 1
    ensures GammaQg0(d, n, nf, ca, cf) == LeadingOrder.GammaQg0(n, nf, ca, cf)
  {
    S1PsiIsHarmonic(d, n - 1);
    S1PsiIsHarmonic(d, n);
    S1PsiIsHarmonic(d, n + 1);
    S1PsiIsHarmonic(d, n + 2);
    Scaled(2.0 * nf as real, S1Psi(d, n - 1) + 4.0 * S1Psi(d, n + 1) - 2.0 * S1Psi(d, n + 2) - 3.0 * S1Psi(d, n),
      S1(n - 1) + 4.0 * S1(n + 1) - 2.0 * S1(n + 2) - 3.0 * S1(n));
  }

  lemma {:induction false} GqAgrees(d: Digamma, n: nat, nf: int, ca: real, cf: real)
    requires Recurrence(d) && n >= 2
    ensures GammaGq0(d, n, nf, ca, cf) == LeadingOrder.GammaGq0(n, nf, ca, cf)
  {
    S1PsiIsHarmonic(d, n - 2);
    S1PsiIsHarmonic(d, n - 1);
    S1PsiIsHarmonic(d, n);
    S1PsiIsHarmonic(d, n + 1);
  }

  lemma {:induction false} GgAgrees(d: Digamma, n: nat, nf: int, ca: real, cf: real)
    requires Recurrence(d) && n >= 2
    ensures GammaGg0(d, n, nf, ca, cf) == LeadingOrder.GammaGg0(n, nf, ca, cf)
  {
    S1PsiIsHarmonic(d, n - 2);
    S1PsiIsHarmonic(d, n - 1);
    S1PsiIsHarmonic(d, n);
    S1PsiIsHarmonic(d, n + 1);
    S1PsiIsHarmonic(d, n + 2);
    Scaled(ca, 4.0 * (S1Psi(d, n - 2) - 2.0 * S1Psi(d, n - 1) - 2.0 * S1Psi(d, n + 1) + S1Psi(d, n + 2) + 3.0 * S1Psi(d, n)) - 11.0 / 3.0,
      4.0 * (S1(n - 2) - 2.0 * S1(n - 1) - 2.0 * S1(n + 1) + S1(n + 2) + 3.0 * S1(n)) - 11.0 / 3.0);
  }

  /** Quark number conservation, gamma_ns^(0)(1) = 0, holds for these forms too. */
  lemma QuarkNumberConservation(d: Digamma, nf: int, ca: real, cf: real)
    requires Recurrence(d)
    ensures GammaNs0(d, 1, nf, ca, cf) == 0.0
  {
    AgreesWithLeadingOrder(d, 1, nf, ca, cf);
    LeadingOrder.QuarkNumberConservation(nf, ca, cf);
  }

  /** Momentum conservation in the gluon column, gamma_qg^(0)(2) + gamma_gg^(0)(2) = 0. */
  lemma GluonMomentumConservation(d: Digamma, nf: int, ca: real, cf: real)
    requires Recurrence(d)
    ensures GammaQg0(d, 2, nf, ca, cf) + GammaGg0(d, 2, nf, ca, cf) == 0.0
  {
    AgreesWithLeadingOrder(d, 2, nf, ca, cf);
    LeadingOrder.GluonMomentumConservation(nf, ca, cf);
  }
}
