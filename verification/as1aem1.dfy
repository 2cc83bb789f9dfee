/**
 * The mixed O(a_s a_em) anomalous dimensions: the photon, quark and gluon
 * kernels and the proportionality relations between them. Harmonic sums are
 * inputs, as in the source where they arrive precomputed.
 */
module As1Aem1 {
  import opened Common
  import StrongCoupling

  const CA: real := StrongCoupling.CA
  const CF: real := StrongCoupling.CF
  const TR: real := StrongCoupling.TR

  /** The precomputed harmonic sums S_1(N), S_2(N), S_3(N). */
  datatype Sums = Sums(s1: real, s2: real, s3: real)

  /** The half-argument sums and the Mellin g_3 values the non-singlet kernels use. */
  datatype HalfSums = HalfSums(s1h: real, s2h: real, s3h: real, s1p1h: real, s2p1h: real, s3p1h: real, g3N: real, g3Np2: real)

  /** gamma_{ph q}: C_F times a polynomial in S_1, S_2 with rational coefficients in N. */
  function GammaPhq(n: real, nf: int, sx: Sums): real
    requires n != 0.0 && n != 1.0 && n != -1.0
  {
    var n2 := n * n;
    var n3 := n2 * n;
    var p := (1.0 + n) * (1.0 + n) * (1.0 + n);
    var tmpConst := 2.0 * (-4.0 - 12.0 * n - n2 + 28.0 * n3 + 43.0 * n2 * n2 + 30.0 * n3 * n2 + 12.0 * n3 * n3)
                    / ((-1.0 + n) * n3 * p);
    var tmpS1 := -4.0 * (10.0 + 27.0 * n + 25.0 * n2 + 13.0 * n3 + 5.0 * n2 * n2) / ((-1.0 + n) * n * p);
    var tmpS12 := 4.0 * (2.0 + n + n2) / ((-1.0 + n) * n * (1.0 + n));
    var tmpS2 := 4.0 * (2.0 + n + n2) / ((-1.0 + n) * n * (1.0 + n));
    CF * (tmpConst + tmpS1 * sx.s1 + tmpS12 * (sx.s1 * sx.s1) + tmpS2 * sx.s2)
  }

  /** gamma_{q ph}: C_A C_F times a polynomial in S_1, S_2 with rational coefficients in N. */
  function GammaQph(n: real, nf: int, sx: Sums): real
    requires n != 0.0 && n != -1.0 && n != -2.0
  {
    var n2 := n * n;
    var n3 := n2 * n;
    var p := (1.0 + n) * (1.0 + n) * (1.0 + n);
    var tmpConst := -2.0 * (4.0 + 8.0 * n + 25.0 * n2 + 51.0 * n3 + 36.0 * n2 * n2 + 15.0 * n3 * n2 + 5.0 * n3 * n3)
                    / (n3 * p * (2.0 + n));
    var tmpS1 := 8.0 / n2;
    var tmpS12 := -4.0 * (2.0 + n + n2) / (n * (1.0 + n) * (2.0 + n));
    var tmpS2 := 4.0 * (2.0 + n + n2) / (n * (1.0 + n) * (2.0 + n));
    CA * CF * (tmpConst + tmpS1 * sx.s1 + tmpS12 * (sx.s1 * sx.s1) + tmpS2 * sx.s2)
  }

  /** The denominator N^3 (1 + N)^3 (N^2 + N - 2) of gamma_{g ph}, whose zeros are its poles. */
  function GphDenominator(n: real): real
  {
    n * n * n * ((1.0 + n) * (1.0 + n) * (1.0 + n)) * (-2.0 + n + n * n)
  }

  /** gamma_{g ph}: C_F C_A times a rational function of N. */
  function GammaGph(n: real): real
    requires GphDenominator(n) != 0.0
  {
    CF * CA * (8.0 * (-4.0 + n * (-4.0 + n * (-5.0 + n * (-10.0 + n + 2.0 * (n * n) * (2.0 + n))))))
    / GphDenominator(n)
  }

  /** gamma_{ph g} = T_R / C_F / C_A gamma_{g ph}. */
  function GammaPhg(n: real): real
    requires GphDenominator(n) != 0.0
  {
    TR / CF / CA * GammaGph(n)
  }

  /** gamma_qg = T_R / C_F / C_A gamma_{q ph}. */
  function GammaQg(n: real, nf: int, sx: Sums): real
    requires n != 0.0 && n != -1.0 && n != -2.0
  {
    TR / CF / CA * GammaQph(n, nf, sx)
  }

  /** gamma_gq = gamma_{ph q}. */
  function GammaGq(n: real, nf: int, sx: Sums): real
    requires n != 0.0 && n != 1.0 && n != -1.0
  {
    GammaPhq(n, nf, sx)
  }

  /** gamma_{ph ph} = 4 C_F C_A. */
  function GammaPhph(): real
  {
    4.0 * CF * CA
  }

  /** gamma_gg = 4 T_R. */
  function GammaGg(): real
  {
    4.0 * TR
  }

  /** N^3 (1+N)^3, the common denominator of the rational parts of gamma_{ns,+-}. */
  function CubeProduct(n: real): real
  {
    n * n * n * ((1.0 + n) * (1.0 + n) * (1.0 + n))
  }

  /** A product of two non-zero reals is non-zero. */
  lemma MulNonZero(a: real, b: real)
    requires a != 0.0 && b != 0.0
    ensures a * b != 0.0
  {
  }

  /** Away from N = 0 and N = -1 none of the denominators of gamma_{ns,+-} vanishes. */
  lemma Denominators(n: real)
    requires n != 0.0 && n != -1.0
    ensures n * n != 0.0 && (1.0 + n) * (1.0 + n) != 0.0 && n + n * n != 0.0 && CubeProduct(n) != 0.0
  {
    var m := 1.0 + n;
    MulNonZero(n, n);
    MulNonZero(m, m);
    MulNonZero(n, m);
    assert n + n * n == n * m;
    var n3 := n * n * n;
    var m3 := m * m * m;
    MulNonZero(n * n, n);
    MulNonZero(m * m, m);
    MulNonZero(n3, m3);
  }

  /** The rational term of gamma_{ns,+}, where g = g_3(N) + g_3(N+2). */
  function NspRational(pi2: real, n: real, g: real): real
    requires n != 0.0 && n != -1.0
  {
    Denominators(n);
    var n3p3 := CubeProduct(n);
    (-8.0 + n * (-32.0 + n * (-8.0 - 3.0 * n * (3.0 + n) * (3.0 + n * n) - 8.0 * ((1.0 + n) * (1.0 + n)) * pi2))
     + 32.0 * n3p3 * g) / n3p3
  }

  /** The rational term of gamma_{ns,-}, where g = g_3(N) + g_3(N+2). */
  function NsmRational(pi2: real, n: real, g: real): real
    requires n != 0.0 && n != -1.0
  {
    Denominators(n);
    var n3p3 := CubeProduct(n);
    (72.0 + n * (96.0 - 3.0 * n * (8.0 + 3.0 * n * (3.0 + n) * (3.0 + n * n)) + 8.0 * n * ((1.0 + n) * (1.0 + n)) * pi2)
     - 96.0 * n3p3 * g) / (3.0 * n3p3)
  }

  /** The terms of gamma_{ns,+} other than the rational one, which alone holds the g_3 values. */
  function NspSums(env: Env, n: real, sx: Sums, s1h: real, s2h: real, s3h: real, s1p1h: real, s2p1h: real, s3p1h: real): real
    requires n != 0.0 && n != -1.0
  {
    Denominators(n);
    var pi2 := env.pi * env.pi;
    var nn := n + n * n;
    16.0 / 3.0 * pi2 * s1h
    - 16.0 / 3.0 * pi2 * s1p1h
    + 8.0 / nn * s2h
    - 4.0 * s3h
    + (24.0 + 16.0 / nn) * sx.s2
    - 32.0 * sx.s3
    - 8.0 / nn * s2p1h
    + sx.s1 * (16.0 * (9.0 / (n * n) - 9.0 / ((1.0 + n) * (1.0 + n)) + pi2) / 3.0
               - 16.0 * s2h - 32.0 * sx.s2 + 16.0 * s2p1h)
    + 4.0 * s3p1h
    - 16.0 * env.zeta3
  }

  /** gamma_{ns,+}, built from the ordinary and the half-argument sums, pi and zeta_3. */
  function GammaNsp(env: Env, n: real, nf: int, sx: Sums, h: HalfSums): real
    requires n != 0.0 && n != -1.0
  {
    CF * (NspSums(env, n, sx, h.s1h, h.s2h, h.s3h, h.s1p1h, h.s2p1h, h.s3p1h)
          + NspRational(env.pi * env.pi, n, h.g3N + h.g3Np2))
  }

  /** The terms of gamma_{ns,-} other than the rational one. */
  function NsmSums(env: Env, n: real, sx: Sums, s1h: real, s2h: real, s3h: real, s1p1h: real, s2p1h: real, s3p1h: real): real
    requires n != 0.0 && n != -1.0
  {
    Denominators(n);
    var pi2 := env.pi * env.pi;
    var nn := n + n * n;
    -16.0 / 3.0 * pi2 * s1h
    - 8.0 / nn * s2h
    + (24.0 + 16.0 / nn) * sx.s2
    + 8.0 / nn * s2p1h
    + sx.s1 * (16.0 * (-3.0 / (n * n) + 3.0 / ((1.0 + n) * (1.0 + n)) + pi2) / 3.0
               + 16.0 * s2h - 32.0 * sx.s2 - 16.0 * s2p1h)
    + 16.0 / 3.0 * pi2 * s1p1h
    + 4.0 * s3h
    - 32.0 * sx.s3
    - 4.0 * s3p1h
    - 16.0 * env.zeta3
  }

  /** gamma_{ns,-}, built from the same ingredients as gamma_{ns,+}. */
  function GammaNsm(env: Env, n: real, nf: int, sx: Sums, h: HalfSums): real
    requires n != 0.0 && n != -1.0
  {
    CF * (NsmSums(env, n, sx, h.s1h, h.s2h, h.s3h, h.s1p1h, h.s2p1h, h.s3p1h)
          + NsmRational(env.pi * env.pi, n, h.g3N + h.g3Np2))
  }

  /** gamma_{ns,V} = gamma_{ns,-}. */
  function GammaNsV(env: Env, n: real, nf: int, sx: Sums, h: HalfSums): real
    requires n != 0.0 && n != -1.0
  {
    GammaNsm(env, n, nf, sx, h)
  }

  /**
   * The gluon and photon kernels are proportional: both off-diagonal gluon
   * entries are T_R / (C_F C_A) times their photon counterparts, and the
   * diagonal constants are in the same ratio.
   */
  lemma GluonPhotonProportionality(n: real, nf: int, sx: Sums)
    requires n != 0.0 && n != -1.0 && n != -2.0 && n != 1.0 && GphDenominator(n) != 0.0
    ensures CF * CA * GammaQg(n, nf, sx) == TR * GammaQph(n, nf, sx)
    ensures CF * CA * GammaPhg(n) == TR * GammaGph(n)
    ensures CF * CA * GammaGg() == TR * GammaPhph()
    ensures GammaGq(n, nf, sx) == GammaPhq(n, nf, sx)
  {
  }

  /** The photon-quark and quark-photon kernels do not depend on the number of flavours. */
  lemma FlavourIndependent(n: real, nf: int, nf2: int, sx: Sums)
    requires n != 0.0 && n != -1.0 && n != -2.0 && n != 1.0
    ensures GammaPhq(n, nf, sx) == GammaPhq(n, nf2, sx)
    ensures GammaQph(n, nf, sx) == GammaQph(n, nf2, sx)
  {
  }

  /** The valence and minus non-singlet kernels coincide. */
  lemma ValenceIsMinus(env: Env, n: real, nf: int, sx: Sums, h: HalfSums)
    requires n != 0.0 && n != -1.0
    ensures GammaNsV(env, n, nf, sx, h) == GammaNsm(env, n, nf, sx, h)
  {
  }

  /** (x + c d g) / d = x / d + c g for d != 0. */
  lemma SplitQuotient(x: real, c: real, d: real, g: real)
    requires d != 0.0
    ensures (x + c * d * g) / d == x / d + c * g
  {
  }

  /** Scaling by c a sum whose one part moves by k d moves it by k c d. */
  lemma ScaledShift(c: real, s: real, a: real, b: real, k: real, d: real)
    requires a - b == k * d
    ensures c * (s + a) - c * (s + b) == k * c * d
  {
  }

  /** g enters the rational term of gamma_{ns,+} with weight 32. */
  lemma NspRationalWeight(pi2: real, n: real, g: real, g2: real)
    requires n != 0.0 && n != -1.0
    ensures NspRational(pi2, n, g2) - NspRational(pi2, n, g) == 32.0 * (g2 - g)
  {
    Denominators(n);
    var n3p3 := CubeProduct(n);
    var x := -8.0 + n * (-32.0 + n * (-8.0 - 3.0 * n * (3.0 + n) * (3.0 + n * n) - 8.0 * ((1.0 + n) * (1.0 + n)) * pi2));
    SplitQuotient(x, 32.0, n3p3, g);
    SplitQuotient(x, 32.0, n3p3, g2);
  }

  /** g enters the rational term of gamma_{ns,-} with weight -32. */
  lemma NsmRationalWeight(pi2: real, n: real, g: real, g2: real)
    requires n != 0.0 && n != -1.0
    ensures NsmRational(pi2, n, g2) - NsmRational(pi2, n, g) == -32.0 * (g2 - g)
  {
    Denominators(n);
    var n3p3 := CubeProduct(n);
    var x := 72.0 + n * (96.0 - 3.0 * n * (8.0 + 3.0 * n * (3.0 + n) * (3.0 + n * n)) + 8.0 * n * ((1.0 + n) * (1.0 + n)) * pi2);
    assert x - 96.0 * n3p3 * g == x + -32.0 * (3.0 * n3p3) * g;
    assert x - 96.0 * n3p3 * g2 == x + -32.0 * (3.0 * n3p3) * g2;
    SplitQuotient(x, -32.0, 3.0 * n3p3, g);
    SplitQuotient(x, -32.0, 3.0 * n3p3, g2);
  }

  lemma NspParts(env: Env, n: real, nf: int, sx: Sums, h: HalfSums)
    requires n != 0.0 && n != -1.0
    ensures GammaNsp(env, n, nf, sx, h)
         == CF * (NspSums(env, n, sx, h.s1h, h.s2h, h.s3h, h.s1p1h, h.s2p1h, h.s3p1h) + NspRational(env.pi * env.pi, n, h.g3N + h.g3Np2))
  {
    var sums := NspSums(env, n, sx, h.s1h, h.s2h, h.s3h, h.s1p1h, h.s2p1h, h.s3p1h);
    var rational := NspRational(env.pi * env.pi, n, h.g3N + h.g3Np2);
    assert GammaNsp(env, n, nf, sx, h) == CF * (sums + rational);
  }

  /** Only through the rational term do the g_3 values reach gamma_{ns,+}: with weight 32 C_F. */
  lemma NspG3Weight(env: Env, n: real, nf: int, sx: Sums, h: HalfSums, g3N: real, g3Np2: real)
    requires n != 0.0 && n != -1.0
    ensures GammaNsp(env, n, nf, sx, h.(g3N := g3N, g3Np2 := g3Np2)) - GammaNsp(env, n, nf, sx, h)
         == 32.0 * CF * (g3N + g3Np2 - h.g3N - h.g3Np2)
  {
    var h2 := h.(g3N := g3N, g3Np2 := g3Np2);
    var sums := NspSums(env, n, sx, h.s1h, h.s2h, h.s3h, h.s1p1h, h.s2p1h, h.s3p1h);
    var before := NspRational(env.pi * env.pi, n, h.g3N + h.g3Np2);
    var after := NspRational(env.pi * env.pi, n, g3N + g3Np2);
    NspParts(env, n, nf, sx, h2);
    NspParts(env, n, nf, sx, h);
    NspRationalWeight(env.pi * env.pi, n, h.g3N + h.g3Np2, g3N + g3Np2);
    ScaledShift(CF, sums, after, before, 32.0, g3N + g3Np2 - (h.g3N + h.g3Np2));
  }

  lemma NsmParts(env: Env, n: real, nf: int, sx: Sums, h: HalfSums)
    requires n != 0.0 && n != -1.0
    ensures GammaNsm(env, n, nf, sx, h)
         == CF * (NsmSums(env, n, sx, h.s1h, h.s2h, h.s3h, h.s1p1h, h.s2p1h, h.s3p1h) + NsmRational(env.pi * env.pi, n, h.g3N + h.g3Np2))
  {
    var sums := NsmSums(env, n, sx, h.s1h, h.s2h, h.s3h, h.s1p1h, h.s2p1h, h.s3p1h);
    var rational := NsmRational(env.pi * env.pi, n, h.g3N + h.g3Np2);
    assert GammaNsm(env, n, nf, sx, h) == CF * (sums + rational);
  }

  /** Likewise for gamma_{ns,-}, with weight -32 C_F. */
  lemma NsmG3Weight(env: Env, n: real, nf: int, sx: Sums, h: HalfSums, g3N: real, g3Np2: real)
    requires n != 0.0 && n != -1.0
    ensures GammaNsm(env, n, nf, sx, h.(g3N := g3N, g3Np2 := g3Np2)) - GammaNsm(env, n, nf, sx, h)
         == -32.0 * CF * (g3N + g3Np2 - h.g3N - h.g3Np2)
  {
    var h2 := h.(g3N := g3N, g3Np2 := g3Np2);
    var sums := NsmSums(env, n, sx, h.s1h, h.s2h, h.s3h, h.s1p1h, h.s2p1h, h.s3p1h);
    var before := NsmRational(env.pi * env.pi, n, h.g3N + h.g3Np2);
    var after := NsmRational(env.pi * env.pi, n, g3N + g3Np2);
    NsmParts(env, n, nf, sx, h2);
    NsmParts(env, n, nf, sx, h);
    NsmRationalWeight(env.pi * env.pi, n, h.g3N + h.g3Np2, g3N + g3Np2);
    ScaledShift(CF, sums, after, before, -32.0, g3N + g3Np2 - (h.g3N + h.g3Np2));
  }

  /** So gamma_{ns,+} + gamma_{ns,-} does not depend on the g_3 values. */
  lemma PlusMinusFreeOfG3(env: Env, n: real, nf: int, sx: Sums, h: HalfSums, g3N: real, g3Np2: real)
    requires n != 0.0 && n != -1.0
    ensures var h2 := h.(g3N := g3N, g3Np2 := g3Np2);
      GammaNsp(env, n, nf, sx, h2) + GammaNsm(env, n, nf, sx, h2) == GammaNsp(env, n, nf, sx, h) + GammaNsm(env, n, nf, sx, h)
  {
    NspG3Weight(env, n, nf, sx, h, g3N, g3Np2);
    NsmG3Weight(env, n, nf, sx, h, g3N, g3Np2);
  }

  /** The sums S_1(2) = 3/2 and S_2(2) = 5/4 at the second moment. */
  const SecondMoment: Sums := Sums(1.5, 1.25, 1.125)

  /**
   * Momentum conservation in the photon column at N = 2: the gluon and
   * photon entries cancel twice the quark entry.
   */
  lemma PhotonColumnMomentum(nf: int)
    ensures GammaGph(2.0) == 160.0 / 27.0
    ensures GammaQph(2.0, nf, SecondMoment) == -296.0 / 27.0
    ensures GammaGph(2.0) + GammaPhph() + 2.0 * GammaQph(2.0, nf, SecondMoment) == 0.0
  {
  }

  /** The same cancellation in the gluon column at N = 2. */
  lemma GluonColumnMomentum(nf: int)
    ensures GammaPhg(2.0) + GammaGg() + 2.0 * GammaQg(2.0, nf, SecondMoment) == 0.0
  {
    PhotonColumnMomentum(nf);
  }

  /** gamma_{ph q}(2) = 448/81, equal to gamma_gq(2). */
  lemma PhotonQuarkAtSecondMoment(nf: int)
    ensures GammaPhq(2.0, nf, SecondMoment) == 448.0 / 81.0
    ensures GammaGq(2.0, nf, SecondMoment) == 448.0 / 81.0
  {
  }
}
