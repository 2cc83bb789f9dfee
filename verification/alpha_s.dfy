/**
 * The QCD beta function coefficients with explicit colour factors, and the
 * fixed-flavour LO coupling generator.
 */
module AlphaS {
  import opened Common
  import StrongCoupling

  /** beta_0 = 11/3 C_A - 4/3 T_f nf; C_F is accepted but not used. */
  function Beta0(nf: int, ca: real, cf: real, tf: real): real
  {
    11.0 / 3.0 * ca - 4.0 / 3.0 * tf * nf as real
  }

  /** beta_1 = 34/3 C_A^2 - 20/3 C_A T_f nf - 4 C_F T_f nf. */
  function Beta1(nf: int, ca: real, cf: real, tf: real): real
  {
    34.0 / 3.0 * ca * ca - 20.0 / 3.0 * ca * tf * nf as real - 4.0 * cf * tf * nf as real
  }

  /** beta_2, a polynomial of degree two in nf. */
  function Beta2(nf: int, ca: real, cf: real, tf: real): real
  {
    var n := nf as real;
    2857.0 / 54.0 * ca * ca * ca
    - 1415.0 / 27.0 * ca * ca * tf * n
    - 205.0 / 9.0 * cf * ca * tf * n
    + 2.0 * cf * cf * tf * n
    + 44.0 / 9.0 * cf * tf * tf * n * n
    + 158.0 / 27.0 * ca * tf * tf * n * n
  }

  /**
   * With the SU(3) colour factors these coefficients are those of the
   * strong coupling module, and beta_0 does not depend on C_F at all.
   */
  lemma AgreesWithStrongCoupling(nf: int, cf: real)
    ensures Beta0(nf, 3.0, cf, 0.5) == StrongCoupling.Beta0(nf)
    ensures Beta1(nf, 3.0, 4.0 / 3.0, 0.5) == StrongCoupling.Beta1(nf)
    ensures Beta2(nf, 3.0, 4.0 / 3.0, 0.5) == StrongCoupling.Beta2(nf)
  {
  }

  /** Reference values at nf = 5 with C_A = 3, C_F = 4/3, T_f = 1/2. */
  lemma ValuesAtFiveFlavours()
    ensures Beta0(5, 3.0, 4.0 / 3.0, 0.5) == 23.0 / 3.0
    ensures Beta1(5, 3.0, 4.0 / 3.0, 0.5) == 116.0 / 3.0
  {
  }

  /** beta_2 has constant second difference in nf, so it is of degree two. */
  lemma {:induction false} Beta2IsQuadratic(nf: int, ca: real, cf: real, tf: real)
    ensures Beta2(nf + 2, ca, cf, tf) - 2.0 * Beta2(nf + 1, ca, cf, tf) + Beta2(nf, ca, cf, tf)
         == 2.0 * (44.0 / 9.0 * cf + 158.0 / 27.0 * ca) * tf * tf
  {
    var n := nf as real;
    assert (n + 2.0) * (n + 2.0) - 2.0 * (n + 1.0) * (n + 1.0) + n * n == 2.0;
  }

  /** The LO denominator of the generated coupling, 4 pi + beta_0 alpha_s L. */
  function Denominator(env: Env, alphaSRef: real, scaleRef: real, nf: int, scaleTo: real): real
    requires scaleRef != 0.0
  {
    4.0 * env.pi + Beta0(nf, 3.0, 4.0 / 3.0, 0.5) * alphaSRef * env.log(scaleTo / scaleRef)
  }

  /**
   * The function built by `alpha_s_generator`, applied to `(order, scale_to)`:
   * the LO a_s = alpha_s_ref / (4 pi + beta_0 alpha_s_ref L) with the SU(3)
   * colour factors; any other order is not implemented.
   */
  function AlphaSGenerated(env: Env, alphaSRef: real, scaleRef: real, nf: int, order: int, scaleTo: real): (r: Result<real>)
    requires scaleRef != 0.0
    requires order == 0 ==> Denominator(env, alphaSRef, scaleRef, nf, scaleTo) != 0.0
    ensures order != 0 <==> r == Err(NotImplementedError)
    ensures r.Ok? ==> r.value * Denominator(env, alphaSRef, scaleRef, nf, scaleTo) == alphaSRef
  {
    if order == 0 then Ok(alphaSRef / Denominator(env, alphaSRef, scaleRef, nf, scaleTo))
    else Err(NotImplementedError)
  }

  /** At the reference scale the LO generator gives alpha_s_ref / (4 pi). */
  lemma AtReferenceScale(env: Env, alphaSRef: real, scaleRef: real, nf: int)
    requires ValidEnv(env) && scaleRef != 0.0
    ensures Denominator(env, alphaSRef, scaleRef, nf, scaleRef) == 4.0 * env.pi
    ensures AlphaSGenerated(env, alphaSRef, scaleRef, nf, 0, scaleRef) == Ok(alphaSRef / (4.0 * env.pi))
  {
    assert scaleRef / scaleRef == 1.0;
  }

  /**
   * The LO generator and the expanded solution of the strong coupling
   * module agree, once alpha_s is converted to a_s = alpha_s / (4 pi).
   */
  lemma AgreesWithExpandedLO(env: Env, alphaSRef: real, scaleRef: real, nf: int, scaleTo: real)
    requires ValidEnv(env) && scaleRef != 0.0 && alphaSRef != 0.0
    requires Denominator(env, alphaSRef, scaleRef, nf, scaleTo) != 0.0
    ensures 1.0 + StrongCoupling.Beta0(nf) * (alphaSRef / (4.0 * env.pi)) * env.log(scaleTo / scaleRef) != 0.0
    ensures AlphaSGenerated(env, alphaSRef, scaleRef, nf, 0, scaleTo)
         == Ok(StrongCoupling.ComputeExpanded(env, 0, alphaSRef / (4.0 * env.pi), nf, scaleRef, scaleTo))
  {
    AgreesWithStrongCoupling(nf, 4.0 / 3.0);
    var fourPi := 4.0 * env.pi;
    var asRef := alphaSRef / fourPi;
    var l := env.log(scaleTo / scaleRef);
    var b0 := StrongCoupling.Beta0(nf);
    var den := 1.0 + b0 * asRef * l;
    assert fourPi * asRef == alphaSRef;
    assert fourPi * den == fourPi + b0 * (fourPi * asRef) * l;
    assert fourPi * den == Denominator(env, alphaSRef, scaleRef, nf, scaleTo);
    ScaleQuotient(asRef, den, fourPi);
    assert StrongCoupling.ComputeExpanded(env, 0, asRef, nf, scaleRef, scaleTo) == asRef / den;
  }

  /** Scaling numerator and denominator by the same non-zero factor keeps a quotient. */
  lemma ScaleQuotient(x: real, y: real, k: real)
    requires k != 0.0 && k * y != 0.0
    ensures y != 0.0 && x / y == (k * x) / (k * y)
  {
  }
}
