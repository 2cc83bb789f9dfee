/**
 * The leading-order anomalous dimensions gamma^(0)(N) at integer Mellin
 * moments, written in the harmonic sum S_1, and the singlet matrix they form.
 */
module LeadingOrder {
  import opened Harmonics
  import opened LinAlg
  import AnomalousDimensions

  /**
   * gamma_ns^(0) = C_F (2 (S_1(N-1) + S_1(N+1)) - 3); nf and C_A are not
   * used. It is the textbook C_F (4 S_1(N) - 3 - 2/N + 2/(N+1)).
   */
  function GammaNs0(n: nat, nf: int, ca: real, cf: real): (r: real)
    requires n >= 1
    ensures r == cf * (4.0 * S1(n) - 3.0 - 2.0 / n as real + 2.0 / (n + 1) as real)
  {
    S1Around(n);
    cf * (2.0 * (S1(n - 1) + S1(n + 1)) - 3.0)
  }

  /** gamma_ps^(0) vanishes. */
  function GammaPs0(n: nat, nf: int, ca: real, cf: real): (r: real)
    ensures r == 0.0
  {
    0.0
  }

  /**
   * gamma_qg^(0) = 2 nf (S_1(N-1) + 4 S_1(N+1) - 2 S_1(N+2) - 3 S_1(N)), in
   * which the harmonic sums cancel: 2 nf (-1/N + 2/(N+1) - 2/(N+2)).
   */
  function GammaQg0(n: nat, nf: int, ca: real, cf: real): (r: real)
    requires n >= 1
    ensures r == 2.0 * nf as real * (-1.0 / n as real + 2.0 / (n + 1) as real - 2.0 / (n + 2) as real)
  {
    S1Around(n);
    2.0 * nf as real * (S1(n - 1) + 4.0 * S1(n + 1) - 2.0 * S1(n + 2) - 3.0 * S1(n))
  }

  /**
   * gamma_gq^(0) = 2 C_F (2 S_1(N-2) - 4 S_1(N-1) - S_1(N+1) + 3 S_1(N)),
   * again free of harmonic sums: 2 C_F (2/N - 2/(N-1) - 1/(N+1)).
   */
  function GammaGq0(n: nat, nf: int, ca: real, cf: real): (r: real)
    requires n >= 2
    ensures r == 2.0 * cf * (2.0 / n as real - 2.0 / (n - 1) as real - 1.0 / (n + 1) as real)
  {
    S1Around(n);
    2.0 * cf * (2.0 * S1(n - 2) - 4.0 * S1(n - 1) - S1(n + 1) + 3.0 * S1(n))
  }

  /**
   * gamma_gg^(0) = C_A (4 f - 11/3) + 2/3 nf with f the S_1 combination
   * below, which is S_1(N) + 1/N - 1/(N-1) - 1/(N+1) + 1/(N+2).
   */
  function GammaGg0(n: nat, nf: int, ca: real, cf: real): (r: real)
    requires n >= 2
    ensures r == ca * (4.0 * (S1(n) + 1.0 / n as real - 1.0 / (n - 1) as real - 1.0 / (n + 1) as real + 1.0 / (n + 2) as real) - 11.0 / 3.0)
               + 2.0 / 3.0 * nf as real
  {
    S1Around(n);
    var f := S1(n - 2) - 2.0 * S1(n - 1) - 2.0 * S1(n + 1) + S1(n + 2) + 3.0 * S1(n);
    assert f == S1(n) + 1.0 / n as real - 1.0 / (n - 1) as real - 1.0 / (n + 1) as real + 1.0 / (n + 2) as real;
    ca * (4.0 * f - 11.0 / 3.0) + 2.0 / 3.0 * nf as real
  }

  /** The singlet matrix [[gamma_qq, gamma_qg], [gamma_gq, gamma_gg]] with gamma_qq = ns + ps. */
  function GammaSinglet0(n: nat, nf: int, ca: real, cf: real): (g: M2)
    requires n >= 2
    ensures g.a == GammaNs0(n, nf, ca, cf) + GammaPs0(n, nf, ca, cf)
    ensures g.b == GammaQg0(n, nf, ca, cf) && g.c == GammaGq0(n, nf, ca, cf) && g.d == GammaGg0(n, nf, ca, cf)
  {
    M2(GammaNs0(n, nf, ca, cf) + GammaPs0(n, nf, ca, cf), GammaQg0(n, nf, ca, cf),
       GammaGq0(n, nf, ca, cf), GammaGg0(n, nf, ca, cf))
  }

  /** Quark number conservation: gamma_ns^(0)(1) = 0. */
  lemma QuarkNumberConservation(nf: int, ca: real, cf: real)
    ensures GammaNs0(1, nf, ca, cf) == 0.0
  {
    S1Values();
  }

  /** Momentum conservation in the quark column: gamma_ns^(0)(2) + gamma_gq^(0)(2) = 0. */
  lemma QuarkMomentumConservation(nf: int, ca: real, cf: real)
    ensures GammaNs0(2, nf, ca, cf) + GammaGq0(2, nf, ca, cf) == 0.0
  {
    S1Values();
  }

  /** Momentum conservation in the gluon column: gamma_qg^(0)(2) + gamma_gg^(0)(2) = 0 for every nf. */
  lemma GluonMomentumConservation(nf: int, ca: real, cf: real)
    ensures GammaQg0(2, nf, ca, cf) + GammaGg0(2, nf, ca, cf) == 0.0
  {
    S1Values();
  }

  /** gamma_qg^(0)(1) = -20/3 with five flavours. */
  lemma QgAtFirstMoment(ca: real, cf: real)
    ensures GammaQg0(1, 5, ca, cf) == -20.0 / 3.0
  {
  }

  /**
   * The eigensystem of gamma_S^(0): the two eigenvalues, which a numerical
   * eigen-solver supplies, and the projectors onto their eigenspaces.
   */
  datatype Eigensystem0 = Eigensystem0(lambdaP: real, lambdaM: real, eP: M2, eM: M2)

  /**
   * `get_Eigensystem_gamma_singlet_0` for given eigenvalues lp != lm:
   * e_p = (gamma - lm I)/(lp - lm) and e_m = -(gamma - lp I)/(lp - lm),
   * which always sum to the identity.
   */
  function EigensystemSinglet0(n: nat, nf: int, ca: real, cf: real, lp: real, lm: real): (r: Eigensystem0)
    requires n >= 2 && lp != lm
    ensures r.lambdaP == lp && r.lambdaM == lm
    ensures r.eP.Add(r.eM) == Id2
  {
    var g := GammaSinglet0(n, nf, ca, cf);
    var c := 1.0 / (lp - lm);
    AnomalousDimensions.ProjectorsSum(g, lp, lm, lp - lm);
    Eigensystem0(lp, lm, g.Sub(Id2.Scale(lm)).Scale(c), g.Sub(Id2.Scale(lp)).Scale(-c))
  }

  /**
   * When lp and lm really are the eigenvalues of gamma_S^(0) (their sum is
   * the trace and their product the determinant), the projectors are
   * orthogonal, e_p e_m = e_m e_p = 0, and idempotent, e_p e_p = e_p and
   * e_m e_m = e_m.
   */
  lemma {:induction false} Eigensystem0Projects(n: nat, nf: int, ca: real, cf: real, lp: real, lm: real)
    requires n >= 2 && lp != lm
    requires lp + lm == GammaSinglet0(n, nf, ca, cf).Trace() && lp * lm == GammaSinglet0(n, nf, ca, cf).Det()
    ensures var r := EigensystemSinglet0(n, nf, ca, cf, lp, lm);
            r.eP.Mul(r.eM) == Zero2 && r.eM.Mul(r.eP) == Zero2
            && r.eP.Mul(r.eP) == r.eP && r.eM.Mul(r.eM) == r.eM
  {
    var g := GammaSinglet0(n, nf, ca, cf);
    var r := EigensystemSinglet0(n, nf, ca, cf, lp, lm);
    var c := 1.0 / (lp - lm);
    var p := g.Sub(Id2.Scale(lm));
    var q := g.Sub(Id2.Scale(lp));
    AnomalousDimensions.CayleyHamilton(g, lp, lm);
    AnomalousDimensions.CayleyHamilton(g, lm, lp);
    MulScaled(p, q, c, -c);
    MulScaled(q, p, -c, c);
    assert r.eP.Mul(r.eM) == Zero2;
    assert r.eM.Mul(r.eP) == Zero2;
    MulDistributes(r.eP, r.eP, r.eM);
    MulIdentity(r.eP);
    MulDistributes(r.eM, r.eP, r.eM);
    MulIdentity(r.eM);
  }
}
