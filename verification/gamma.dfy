/** The coefficients of the QCD quark-mass anomalous dimension gamma_m. */
module Gamma {
  import opened Common

  /** gamma_0 = 4, the same for every number of flavours. */
  function Gamma0(): real
  {
    4.0
  }

  /** gamma_1 = 202/3 - 20/9 nf. */
  function Gamma1(nf: int): real
  {
    202.0 / 3.0 - 20.0 / 9.0 * nf as real
  }

  /** gamma_2, of degree two in nf with a zeta_3 term. */
  function Gamma2(env: Env, nf: int): real
  {
    Cubic(1249.0, -(2216.0 / 27.0 + 160.0 / 3.0 * env.zeta3), -140.0 / 81.0, 0.0, nf as real)
  }

  /** The coefficients of gamma_3 in powers of nf, with zeta_3, zeta_4 and zeta_5 terms. */
  function Gamma3Coefficients(env: Env): (real, real, real, real)
  {
    (4603055.0 / 162.0 + 135680.0 * env.zeta3 / 28.0 - 8800.0 * env.zeta5,
     -91723.0 / 27.0 - 34192.0 * env.zeta3 / 9.0 + 880.0 * env.zeta4 + 18400.0 * env.zeta5 / 9.0,
     5242.0 / 243.0 + 800.0 * env.zeta3 / 9.0 - 160.0 * env.zeta4 / 3.0,
     332.0 / 243.0 + 64.0 * env.zeta3 / 27.0)
  }

  /** gamma_3, of degree three in nf. */
  function Gamma3(env: Env, nf: int): real
  {
    var c := Gamma3Coefficients(env);
    Cubic(c.0, c.1, c.2, c.3, nf as real)
  }

  /** A cubic polynomial a + b x + c x^2 + d x^3. */
  function Cubic(a: real, b: real, c: real, d: real, x: real): real
  {
    a + b * x + c * (x * x) + d * (x * x * x)
  }

  /** `gamma(order, nf)`: the coefficient of the given order, or a ValueError beyond N3LO. */
  function GammaOf(env: Env, order: int, nf: int): (r: Result<real>)
    ensures r.Ok? <==> 0 <= order <= 3
    ensures r.Err? ==> r.error == ValueError
    ensures r.Ok? ==> r.value == [Gamma0(), Gamma1(nf), Gamma2(env, nf), Gamma3(env, nf)][order]
  {
    if order == 0 then Ok(Gamma0())
    else if order == 1 then Ok(Gamma1(nf))
    else if order == 2 then Ok(Gamma2(env, nf))
    else if order == 3 then Ok(Gamma3(env, nf))
    else Err(ValueError)
  }

  /** A cubic at x + k, expanded in powers of k. */
  lemma ShiftCubic(a: real, b: real, c: real, d: real, x: real, k: real)
    ensures Cubic(a, b, c, d, x + k)
         == Cubic(a, b, c, d, x) + k * (b + 2.0 * (c * x) + 3.0 * (d * (x * x))) + (k * k) * (c + 3.0 * (d * x)) + (k * k * k) * d
  {
    assert (x + k) * (x + k) == x * x + 2.0 * (k * x) + k * k;
    assert (x + k) * (x + k) * (x + k) == x * x * x + 3.0 * (k * (x * x)) + 3.0 * ((k * k) * x) + k * k * k;
    assert c * ((x + k) * (x + k)) == c * (x * x) + 2.0 * (k * (c * x)) + (k * k) * c;
    assert d * ((x + k) * (x + k) * (x + k))
        == d * (x * x * x) + 3.0 * (k * (d * (x * x))) + 3.0 * ((k * k) * (d * x)) + (k * k * k) * d;
  }

  /** The third finite difference of a cubic is six times its leading coefficient. */
  lemma CubicThirdDifference(a: real, b: real, c: real, d: real, x: real)
    ensures Cubic(a, b, c, d, x + 3.0) - 3.0 * Cubic(a, b, c, d, x + 2.0)
          + 3.0 * Cubic(a, b, c, d, x + 1.0) - Cubic(a, b, c, d, x) == 6.0 * d
  {
    ShiftCubic(a, b, c, d, x, 1.0);
    ShiftCubic(a, b, c, d, x, 2.0);
    ShiftCubic(a, b, c, d, x, 3.0);
  }

  /** The second finite difference of a quadratic is twice its leading coefficient. */
  lemma QuadraticSecondDifference(a: real, b: real, c: real, x: real)
    ensures Cubic(a, b, c, 0.0, x + 2.0) - 2.0 * Cubic(a, b, c, 0.0, x + 1.0) + Cubic(a, b, c, 0.0, x) == 2.0 * c
  {
    ShiftCubic(a, b, c, 0.0, x, 1.0);
    ShiftCubic(a, b, c, 0.0, x, 2.0);
  }

  /** gamma_0 is the same constant 4 for every number of flavours. */
  lemma Gamma0IsConstant(env: Env, nf: int, other: int)
    ensures GammaOf(env, 0, nf) == GammaOf(env, 0, other) == Ok(4.0)
  {
  }

  /** gamma_1 decreases by 20/9 with each added flavour. */
  lemma Gamma1IsLinear(nf: int)
    ensures Gamma1(nf) - Gamma1(nf + 1) == 20.0 / 9.0
  {
  }

  /** gamma_2 has the constant second difference -280/81 in nf: it is of degree two. */
  lemma {:induction false} Gamma2IsQuadratic(env: Env, nf: int)
    ensures Gamma2(env, nf + 2) - 2.0 * Gamma2(env, nf + 1) + Gamma2(env, nf) == -280.0 / 81.0
  {
    var n := nf as real;
    assert (nf + 1) as real == n + 1.0 && (nf + 2) as real == n + 2.0;
    QuadraticSecondDifference(1249.0, -(2216.0 / 27.0 + 160.0 / 3.0 * env.zeta3), -140.0 / 81.0, n);
  }

  /**
   * gamma_3 has the constant third difference 6 (332/243 + 64/27 zeta_3) in
   * nf: it is of degree three.
   */
  lemma {:induction false} Gamma3IsCubic(env: Env, nf: int)
    ensures Gamma3(env, nf + 3) - 3.0 * Gamma3(env, nf + 2) + 3.0 * Gamma3(env, nf + 1) - Gamma3(env, nf)
         == 6.0 * (332.0 / 243.0 + 64.0 * env.zeta3 / 27.0)
  {
    var n := nf as real;
    var c := Gamma3Coefficients(env);
    assert (nf + 1) as real == n + 1.0 && (nf + 2) as real == n + 2.0 && (nf + 3) as real == n + 3.0;
    CubicThirdDifference(c.0, c.1, c.2, c.3, n);
  }
}
