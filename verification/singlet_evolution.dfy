/**
 * The singlet evolution kernels: the R and U vectors of the perturbative
 * solution, the truncated power series of U, the ordered product of the
 * evolution steps, the step kernels of the iterated, perturbative and
 * truncated solutions, and the choice of kernel by method.
 */
module SingletEvolution {
  import opened Common
  import opened LinAlg
  import StrongCoupling
  import AnomalousDimensions

  /** b_1 = beta_1 / beta_0. */
  function B1(nf: int): real
  {
    StrongCoupling.Beta0NonZero(nf);
    StrongCoupling.Beta1(nf) / StrongCoupling.Beta0(nf)
  }

  /** x^k. */
  function Pow(x: real, k: nat): real
  {
    if k == 0 then 1.0 else Pow(x, k - 1) * x
  }

  // ---------------------------------------------------------------- R vector

  /**
   * R_k: R_0 = gamma_0 / beta_0 and R_1 = gamma_1 / beta_0 - b_1 R_0; in
   * exact mode every further R_k is -b_1 R_(k-1), in expanded mode it is 0.
   */
  function REntry(g: seq<M2>, nf: int, exact: bool, k: nat): M2
    requires |g| >= 2
  {
    if k == 0 then OverBeta0(g[0], nf)
    else if k == 1 then OverBeta0(g[1], nf).Sub(REntry(g, nf, exact, 0).Scale(B1(nf)))
    else if exact then REntry(g, nf, exact, k - 1).Scale(-B1(nf))
    else Zero2
  }

  /** m / beta_0. */
  function OverBeta0(m: M2, nf: int): M2
  {
    StrongCoupling.Beta0NonZero(nf);
    m.Scale(1.0 / StrongCoupling.Beta0(nf))
  }

  /** The R vector R_0 .. R_maxOrder. */
  function RSpec(g: seq<M2>, nf: int, maxOrder: nat, exact: bool): (r: seq<M2>)
    requires |g| >= 2
    ensures |r| == maxOrder + 1
  {
    seq(maxOrder + 1, k requires 0 <= k => REntry(g, nf, exact, k))
  }

  /** `r_vec`: a zero array of maxOrder + 1 matrices, its first two entries set, the rest filled in exact mode. */
  method RVec(g: seq<M2>, nf: int, maxOrder: nat, exact: bool) returns (r: seq<M2>)
    requires |g| >= 2 && maxOrder >= 1
    ensures r == RSpec(g, nf, maxOrder, exact)
  {
    var a := new M2[maxOrder + 1](_ => Zero2);
    var b1 := B1(nf);
    a[0] := OverBeta0(g[0], nf);
    a[1] := OverBeta0(g[1], nf).Sub(a[0].Scale(b1));
    if exact {
      FillExact(a, g, nf);
    }
    assert forall j :: 0 <= j <= maxOrder ==> a[j] == REntry(g, nf, exact, j);
    r := a[..];
  }

  /** The exact-mode fill of `r_vec`: each entry past R_1 is -b_1 times the one before. */
  method FillExact(a: array<M2>, g: seq<M2>, nf: int)
    requires |g| >= 2 && a.Length >= 2
    requires a[0] == REntry(g, nf, true, 0) && a[1] == REntry(g, nf, true, 1)
    modifies a
    ensures forall j :: 0 <= j < a.Length ==> a[j] == REntry(g, nf, true, j)
  {
    var b1 := B1(nf);
    for kk := 2 to a.Length
      invariant forall j :: 0 <= j < kk ==> a[j] == REntry(g, nf, true, j)
    {
      var next := a[kk - 1].Scale(-b1);
      assert next == REntry(g, nf, true, kk);
      a[kk] := next;
    }
  }

  /**
   * In exact mode R_k = (-b_1)^(k-1) R_1 for k >= 1, a geometric series;
   * in expanded mode every R_k with k >= 2 vanishes.
   */
  lemma {:induction false} RClosedForm(g: seq<M2>, nf: int, k: nat)
    requires |g| >= 2 && k >= 1
    ensures REntry(g, nf, true, k) == REntry(g, nf, true, 1).Scale(Pow(-B1(nf), k - 1))
    ensures k >= 2 ==> REntry(g, nf, false, k) == Zero2
  {
    if k == 1 {
      assert Pow(-B1(nf), 0) == 1.0;
    } else {
      var b := -B1(nf);
      RClosedForm(g, nf, k - 1);
      ScaleScale(REntry(g, nf, true, 1), Pow(b, k - 2), b);
      assert Pow(b, k - 1) == Pow(b, k - 2) * b == b * Pow(b, k - 2);
    }
  }

  /** Exact and expanded R vectors share R_0 and R_1. */
  lemma RModesShareLeadingTerms(g: seq<M2>, nf: int, maxOrder: nat)
    requires |g| >= 2 && maxOrder >= 1
    ensures RSpec(g, nf, maxOrder, true)[..2] == RSpec(g, nf, maxOrder, false)[..2]
  {
    assert REntry(g, nf, true, 0) == REntry(g, nf, false, 0);
    assert REntry(g, nf, true, 1) == REntry(g, nf, false, 1);
  }

  // ---------------------------------------------------------------- U vector

  /** Neither denominator of the U recursion vanishes at order k. */
  predicate Gap(es: AnomalousDimensions.Eigensystem, k: int)
  {
    es.lambdaM - es.lambdaP + k as real != 0.0 && es.lambdaP - es.lambdaM + k as real != 0.0
  }

  /** R'_k restricted to its first j terms: the sum over jj < j of R_(k-jj) U_jj. */
  function RPrime(r: seq<M2>, u: seq<M2>, k: nat, j: nat): M2
    requires j <= |u| && j <= k < |r|
  {
    if j == 0 then Zero2 else RPrime(r, u, k, j - 1).Add(r[k - (j - 1)].Mul(u[j - 1]))
  }

  /**
   * U_k from R'_k: (e_m R' e_m + e_p R' e_p)/k + e_p R' e_m/(r_m - r_p + k)
   * + e_m R' e_p/(r_p - r_m + k).
   */
  function UStep(rp: M2, es: AnomalousDimensions.Eigensystem, k: nat): M2
    requires k >= 1 && Gap(es, k)
  {
    es.eM.Mul(rp).Mul(es.eM).Add(es.eP.Mul(rp).Mul(es.eP)).Scale(1.0 / k as real)
      .Add(es.eP.Mul(rp).Mul(es.eM).Scale(1.0 / (es.lambdaM - es.lambdaP + k as real)))
      .Add(es.eM.Mul(rp).Mul(es.eP).Scale(1.0 / (es.lambdaP - es.lambdaM + k as real)))
  }

  /** The U vector U_0 .. U_n: U_0 = I and each U_k from R' over the earlier ones. */
  function USpec(r: seq<M2>, es: AnomalousDimensions.Eigensystem, n: nat): (u: seq<M2>)
    requires n < |r| && forall k :: 1 <= k <= n ==> Gap(es, k)
    ensures |u| == n + 1
  {
    if n == 0 then [Id2]
    else
      var p := USpec(r, es, n - 1);
      p + [UStep(RPrime(r, p, n, n), es, n)]
  }

  /** The eigensystem of R_0 that `u_vec` decomposes along. */
  predicate UDefined(env: Env, r: seq<M2>, maxOrder: nat)
  {
    maxOrder < |r| && env.sqrt(AnomalousDimensions.Discriminant(r[0])) != 0.0
    && forall k :: 1 <= k <= maxOrder ==> Gap(AnomalousDimensions.ExpSinglet(env, r[0]), k)
  }

  /** `u_vec`: U_0 = I, then each U_k from the sum R'_k accumulated in an inner loop. */
  method UVec(env: Env, r: seq<M2>, maxOrder: nat) returns (u: seq<M2>)
    requires UDefined(env, r, maxOrder)
    ensures u == USpec(r, AnomalousDimensions.ExpSinglet(env, r[0]), maxOrder)
  {
    var a := new M2[maxOrder + 1](_ => Zero2);
    a[0] := Id2;
    var es := AnomalousDimensions.ExpSinglet(env, r[0]);
    assert a[..1] == USpec(r, es, 0);
    for kk := 1 to maxOrder + 1
      invariant a[..kk] == USpec(r, es, kk - 1)
    {
      var rp := Zero2;
      for jj := 0 to kk
        invariant a[..kk] == USpec(r, es, kk - 1)
        invariant rp == RPrime(r, a[..kk], kk, jj)
      {
        rp := rp.Add(r[kk - jj].Mul(a[jj]));
      }
      ghost var before := a[..kk];
      a[kk] := UStep(rp, es, kk);
      assert a[..kk + 1] == before + [UStep(RPrime(r, before, kk, kk), es, kk)];
    }
    u := a[..];
  }

  /** Each U vector extends the shorter ones: U_0 .. U_m do not depend on how far the vector goes. */
  lemma {:induction false} USpecPrefix(r: seq<M2>, es: AnomalousDimensions.Eigensystem, m: nat, n: nat)
    requires m <= n < |r| && forall k :: 1 <= k <= n ==> Gap(es, k)
    ensures USpec(r, es, n)[..m + 1] == USpec(r, es, m)
  {
    if m < n {
      USpecPrefix(r, es, m, n - 1);
      assert USpec(r, es, n)[..n] == USpec(r, es, n - 1);
      assert USpec(r, es, n)[..m + 1] == USpec(r, es, n)[..n][..m + 1];
    }
  }

  /** U starts with the identity, and U_1 is built from R_1 alone. */
  lemma UFirstTerms(r: seq<M2>, es: AnomalousDimensions.Eigensystem, n: nat)
    requires n < |r| && forall k :: 1 <= k <= n ==> Gap(es, k)
    ensures USpec(r, es, n)[0] == Id2
    ensures n >= 1 ==> USpec(r, es, n)[1] == UStep(r[1], es, 1)
  {
    USpecPrefix(r, es, 0, n);
    assert USpec(r, es, n)[0] == USpec(r, es, n)[..1][0];
    if n >= 1 {
      USpecPrefix(r, es, 1, n);
      assert USpec(r, es, n)[1] == USpec(r, es, 1)[1];
      MulIdentity(r[1]);
      assert RPrime(r, [Id2], 1, 1) == Zero2.Add(r[1].Mul(Id2));
    }
  }

  // ---------------------------------------------------------------- sum_u

  /** The partial sum of a^k U_k over k < n. */
  function SumPrefix(u: seq<M2>, a: real, n: nat): M2
    requires n <= |u|
  {
    if n == 0 then Zero2 else SumPrefix(u, a, n - 1).Add(u[n - 1].Scale(Pow(a, n - 1)))
  }

  /** `sum_u`: the sum of a^k U_k, accumulating the power of a alongside. */
  method SumU(u: seq<M2>, a: real) returns (res: M2)
    ensures res == SumPrefix(u, a, |u|)
  {
    var p := 1.0;
    res := Zero2;
    for i := 0 to |u|
      invariant res == SumPrefix(u, a, i) && p == Pow(a, i)
    {
      res := res.Add(u[i].Scale(p));
      p := p * a;
    }
  }

  /** At a = 0 only U_0 survives: sum_u(u, 0) = u[0]. */
  lemma {:induction false} SumUAtZero(u: seq<M2>, n: nat)
    requires 1 <= n <= |u|
    ensures SumPrefix(u, 0.0, n) == u[0]
  {
    if n == 1 {
      assert Pow(0.0, 0) == 1.0;
    } else {
      SumUAtZero(u, n - 1);
      PowZero(n - 1);
    }
  }

  /** The U operator at a = 0 is the identity: U(0) = I. */
  lemma UAtZeroIsIdentity(r: seq<M2>, es: AnomalousDimensions.Eigensystem, n: nat)
    requires n < |r| && forall k :: 1 <= k <= n ==> Gap(es, k)
    ensures SumPrefix(USpec(r, es, n), 0.0, n + 1) == Id2
  {
    UFirstTerms(r, es, n);
    SumUAtZero(USpec(r, es, n), n + 1);
  }

  /** 0^k = 0 for k >= 1. */
  lemma {:induction false} PowZero(k: nat)
    requires k >= 1
    ensures Pow(0.0, k) == 0.0
  {
  }

  // ---------------------------------------------------------------- step products

  /** The product of the evolution steps, the newest on the left: s_(n-1) ... s_1 s_0. */
  function Path(steps: seq<M2>): M2
  {
    if |steps| == 0 then Id2 else steps[|steps| - 1].Mul(Path(steps[..|steps| - 1]))
  }

  /** Evolving along s and then along t is the product Path(t) Path(s), t on the left. */
  lemma {:induction false} PathAppend(s: seq<M2>, t: seq<M2>)
    ensures Path(s + t) == Path(t).Mul(Path(s))
  {
    if |t| == 0 {
      assert s + t == s;
      IdentityMul(Path(s));
    } else {
      var t' := t[..|t| - 1];
      var x := t[|t| - 1];
      assert (s + t)[..|s + t| - 1] == s + t';
      PathAppend(s, t');
      MulAssoc(x, Path(t'), Path(s));
    }
  }

  /** Splitting the steps at any point splits the product: the later part acts after the earlier one. */
  lemma PathSplit(steps: seq<M2>, k: nat)
    requires k <= |steps|
    ensures Path(steps) == Path(steps[k..]).Mul(Path(steps[..k]))
  {
    assert steps == steps[..k] + steps[k..];
    PathAppend(steps[..k], steps[k..]);
  }

  /** Two steps compose as s_1 s_0: the later step acts last. */
  lemma PathOfTwo(s0: M2, s1: M2)
    ensures Path([s0, s1]) == s1.Mul(s0)
  {
    assert [s0, s1][..1] == [s0];
    assert [s0][..0] == [];
    MulIdentity(s0);
    assert Path([s0]) == s0.Mul(Id2) == s0;
  }

  // ---------------------------------------------------------------- step kernels

  /** `exp_singlet` is defined on m: its discriminant has a non-zero square root. */
  predicate ExpDefined(env: Env, m: M2)
  {
    env.sqrt(AnomalousDimensions.Discriminant(m)) != 0.0
  }

  /** The LO evolution integral j00 = ln(a1/a0) / beta_0. */
  function J00(env: Env, a1: real, a0: real, nf: int): real
    requires a0 != 0.0
  {
    StrongCoupling.Beta0NonZero(nf);
    env.log(a1 / a0) / StrongCoupling.Beta0(nf)
  }

  /** `lo_exact` is defined from a0 to a1. */
  predicate LoDefined(env: Env, g: seq<M2>, a1: real, a0: real, nf: int)
  {
    |g| >= 1 && a0 != 0.0 && ExpDefined(env, g[0].Scale(J00(env, a1, a0, nf)))
  }

  /** `lo_exact`: the exponential of gamma_0 j00. */
  function LoExact(env: Env, g: seq<M2>, a1: real, a0: real, nf: int): M2
    requires LoDefined(env, g, a1, a0, nf)
  {
    AnomalousDimensions.ExpSinglet(env, g[0].Scale(J00(env, a1, a0, nf))).exp
  }

  /** The denominator beta_0 a^2 + beta_1 a^3 of an iterated step at the midpoint a. */
  function IterDen(nf: int, ah: real, al: real): real
  {
    var h := (ah + al) / 2.0;
    StrongCoupling.Beta0(nf) * (h * h) + StrongCoupling.Beta1(nf) * (h * h * h)
  }

  /** The exponent of an iterated step: (gamma_0 a + gamma_1 a^2) / (beta_0 a^2 + beta_1 a^3) times the step in a. */
  function IterLn(g: seq<M2>, nf: int, ah: real, al: real): M2
    requires |g| >= 2 && IterDen(nf, ah, al) != 0.0
  {
    var h := (ah + al) / 2.0;
    g[0].Scale(h).Add(g[1].Scale(h * h)).Scale(1.0 / IterDen(nf, ah, al)).Scale(ah - al)
  }

  /** An iterated step from al to ah is defined. */
  predicate IterDefined(env: Env, g: seq<M2>, nf: int, ah: real, al: real)
  {
    |g| >= 2 && IterDen(nf, ah, al) != 0.0 && ExpDefined(env, IterLn(g, nf, ah, al))
  }

  /** Every iterated step along the coupling grid is defined. */
  predicate IterGrid(env: Env, g: seq<M2>, nf: int, aSteps: seq<real>)
  {
    |aSteps| >= 1 && forall i :: 0 <= i < |aSteps| - 1 ==> IterDefined(env, g, nf, aSteps[i + 1], aSteps[i])
  }

  /** The steps of `nlo_iterate` between consecutive points of the coupling grid. */
  function IterateSteps(env: Env, g: seq<M2>, nf: int, aSteps: seq<real>): (s: seq<M2>)
    requires IterGrid(env, g, nf, aSteps)
    ensures |s| == |aSteps| - 1
  {
    seq(|aSteps| - 1, i requires 0 <= i < |aSteps| - 1 => IterStep(env, g, nf, aSteps[i + 1], aSteps[i]))
  }

  /** One iterated step: the exponential of its exponent. */
  function IterStep(env: Env, g: seq<M2>, nf: int, ah: real, al: real): M2
    requires IterDefined(env, g, nf, ah, al)
  {
    AnomalousDimensions.ExpSinglet(env, IterLn(g, nf, ah, al)).exp
  }

  /** `nlo_iterate`: e starts at the identity and each step multiplies it from the left. */
  method NloIterate(env: Env, g: seq<M2>, nf: int, aSteps: seq<real>) returns (e: M2)
    requires IterGrid(env, g, nf, aSteps)
    ensures e == Path(IterateSteps(env, g, nf, aSteps))
  {
    ghost var steps := IterateSteps(env, g, nf, aSteps);
    e := Id2;
    var al := aSteps[0];
    for i := 1 to |aSteps|
      invariant al == aSteps[i - 1]
      invariant e == Path(steps[..i - 1])
    {
      var ah := aSteps[i];
      var ek := AnomalousDimensions.ExpSinglet(env, IterLn(g, nf, ah, al)).exp;
      assert steps[..i][..i - 1] == steps[..i - 1];
      e := ek.Mul(e);
      al := ah;
    }
    assert steps[..|aSteps| - 1] == steps;
  }

  /** A truncated step: e0 + a_h U_1 e0 - a_l e0 U_1, e0 the LO step. */
  function TruncatedStep(env: Env, g: seq<M2>, nf: int, u1: M2, ah: real, al: real): M2
    requires LoDefined(env, g, ah, al, nf)
  {
    var e0 := LoExact(env, g, ah, al, nf);
    e0.Add(u1.Scale(ah).Mul(e0)).Sub(e0.Scale(al).Mul(u1))
  }

  /** The steps of `nlo_truncated`. */
  function TruncatedSteps(env: Env, g: seq<M2>, nf: int, u1: M2, aSteps: seq<real>): (s: seq<M2>)
    requires |aSteps| >= 1 && forall i :: 0 <= i < |aSteps| - 1 ==> LoDefined(env, g, aSteps[i + 1], aSteps[i], nf)
    ensures |s| == |aSteps| - 1
  {
    seq(|aSteps| - 1, i requires 0 <= i < |aSteps| - 1 => TruncatedStep(env, g, nf, u1, aSteps[i + 1], aSteps[i]))
  }

  /** U_1 of the expanded R vector of order one, which the truncated solution uses. */
  function TruncatedU1(env: Env, g: seq<M2>, nf: int): M2
    requires |g| >= 2 && UDefined(env, RSpec(g, nf, 1, false), 1)
  {
    var r := RSpec(g, nf, 1, false);
    USpec(r, AnomalousDimensions.ExpSinglet(env, r[0]), 1)[1]
  }

  /** `nlo_truncated`: U_1 of the expanded R vector, then the ordered product of the truncated steps. */
  method NloTruncated(env: Env, g: seq<M2>, nf: int, aSteps: seq<real>) returns (e: M2)
    requires |g| >= 2 && UDefined(env, RSpec(g, nf, 1, false), 1)
    requires |aSteps| >= 1 && forall i :: 0 <= i < |aSteps| - 1 ==> LoDefined(env, g, aSteps[i + 1], aSteps[i], nf)
    ensures e == Path(TruncatedSteps(env, g, nf, TruncatedU1(env, g, nf), aSteps))
  {
    var r := RVec(g, nf, 1, false);
    var u := UVec(env, r, 1);
    var u1 := u[1];
    ghost var steps := TruncatedSteps(env, g, nf, u1, aSteps);
    e := Id2;
    var al := aSteps[0];
    for i := 1 to |aSteps|
      invariant al == aSteps[i - 1]
      invariant e == Path(steps[..i - 1])
    {
      var ah := aSteps[i];
      var e0 := LoExact(env, g, ah, al, nf);
      var ek := e0.Add(u1.Scale(ah).Mul(e0)).Sub(e0.Scale(al).Mul(u1));
      assert steps[..i][..i - 1] == steps[..i - 1];
      e := ek.Mul(e);
      al := ah;
    }
    assert steps[..|aSteps| - 1] == steps;
  }

  /** The inverse of a 2x2 matrix with non-zero determinant. */
  function Inverse(m: M2): (r: M2)
    requires m.Det() != 0.0
    ensures m.Mul(r) == Id2
  {
    var c := 1.0 / m.Det();
    var r := M2(m.d, -m.b, -m.c, m.a).Scale(c);
    assert m.a * (c * m.d) + m.b * (c * -m.c) == c * m.Det() == 1.0;
    assert m.c * (c * -m.b) + m.d * (c * m.a) == c * m.Det() == 1.0;
    r
  }

  /** A perturbative step from al to ah is defined: the LO step exists and U(al) is invertible. */
  predicate PerturbativeDefined(env: Env, g: seq<M2>, nf: int, u: seq<M2>, ah: real, al: real)
  {
    LoDefined(env, g, ah, al, nf) && SumPrefix(u, al, |u|).Det() != 0.0
  }

  /** A perturbative step: U(a_h) e0 U(a_l)^-1. */
  function PerturbativeStep(env: Env, g: seq<M2>, nf: int, u: seq<M2>, ah: real, al: real): M2
    requires PerturbativeDefined(env, g, nf, u, ah, al)
  {
    SumPrefix(u, ah, |u|).Mul(LoExact(env, g, ah, al, nf)).Mul(Inverse(SumPrefix(u, al, |u|)))
  }

  /** The steps of `nlo_perturbative` for a given U vector. */
  function PerturbativeSteps(env: Env, g: seq<M2>, nf: int, u: seq<M2>, aSteps: seq<real>): (s: seq<M2>)
    requires |aSteps| >= 1 && forall i :: 0 <= i < |aSteps| - 1 ==> PerturbativeDefined(env, g, nf, u, aSteps[i + 1], aSteps[i])
    ensures |s| == |aSteps| - 1
  {
    seq(|aSteps| - 1, i requires 0 <= i < |aSteps| - 1 => PerturbativeStep(env, g, nf, u, aSteps[i + 1], aSteps[i]))
  }

  /**
   * `nlo_perturbative` (and its exact and expanded forms): the R and U
   * vectors, then the ordered product of the perturbative steps.
   */
  method NloPerturbative(env: Env, g: seq<M2>, nf: int, aSteps: seq<real>, maxOrder: nat, exact: bool) returns (e: M2)
    requires |g| >= 2 && maxOrder >= 1 && UDefined(env, RSpec(g, nf, maxOrder, exact), maxOrder)
    requires var r := RSpec(g, nf, maxOrder, exact);
             var u := USpec(r, AnomalousDimensions.ExpSinglet(env, r[0]), maxOrder);
             |aSteps| >= 1 && forall i :: 0 <= i < |aSteps| - 1 ==> PerturbativeDefined(env, g, nf, u, aSteps[i + 1], aSteps[i])
    ensures var r := RSpec(g, nf, maxOrder, exact);
            e == Path(PerturbativeSteps(env, g, nf, USpec(r, AnomalousDimensions.ExpSinglet(env, r[0]), maxOrder), aSteps))
  {
    var r := RVec(g, nf, maxOrder, exact);
    var uk := UVec(env, r, maxOrder);
    ghost var steps := PerturbativeSteps(env, g, nf, uk, aSteps);
    e := Id2;
    var al := aSteps[0];
    for i := 1 to |aSteps|
      invariant al == aSteps[i - 1]
      invariant e == Path(steps[..i - 1])
    {
      var ah := aSteps[i];
      var e0 := LoExact(env, g, ah, al, nf);
      var uh := SumU(uk, ah);
      var ul := SumU(uk, al);
      var ek := uh.Mul(e0).Mul(Inverse(ul));
      assert steps[..i][..i - 1] == steps[..i - 1];
      e := ek.Mul(e);
      al := ah;
    }
    assert steps[..|aSteps| - 1] == steps;
  }

  /** `nlo_decompose`: the exponential of gamma_0 j01 + gamma_1 j11, for given evolution integrals. */
  function NloDecompose(env: Env, g: seq<M2>, j01: real, j11: real): M2
    requires |g| >= 2 && ExpDefined(env, g[0].Scale(j01).Add(g[1].Scale(j11)))
  {
    AnomalousDimensions.ExpSinglet(env, g[0].Scale(j01).Add(g[1].Scale(j11))).exp
  }

  // ---------------------------------------------------------------- dispatch

  /** The singlet kernels a dispatcher can hand out. */
  datatype Kernel = LoExactKernel | NloIterateKernel | NloDecomposeExactKernel | NloDecomposeExpandedKernel
                  | NloPerturbativeExactKernel | NloPerturbativeExpandedKernel | NloTruncatedKernel

  /** The eight evolution methods. */
  const Methods: seq<string> := ["iterate-exact", "iterate-expanded", "truncated", "ordered-truncated",
                                 "decompose-exact", "decompose-expanded", "perturbative-exact", "perturbative-expanded"]

  /** `dispatcher_lo`: the exact LO kernel, whatever the method. */
  function DispatcherLo(evolutionMethod: string): (k: Kernel)
    ensures k == LoExactKernel
  {
    LoExactKernel
  }

  /** `dispatcher_nlo`: the NLO kernel of a method, or a ValueError for an unknown one. */
  function DispatcherNlo(evolutionMethod: string): (r: Result<Kernel>)
    ensures r.Ok? <==> evolutionMethod in Methods
    ensures r.Err? ==> r.error == ValueError
    ensures r.Ok? && (evolutionMethod == "truncated" || evolutionMethod == "ordered-truncated") ==> r.value == NloTruncatedKernel
  {
    if evolutionMethod == "iterate-exact" || evolutionMethod == "iterate-expanded" then Ok(NloIterateKernel)
    else if evolutionMethod == "decompose-exact" then Ok(NloDecomposeExactKernel)
    else if evolutionMethod == "decompose-expanded" then Ok(NloDecomposeExpandedKernel)
    else if evolutionMethod == "perturbative-exact" then Ok(NloPerturbativeExactKernel)
    else if evolutionMethod == "perturbative-expanded" then Ok(NloPerturbativeExpandedKernel)
    else if evolutionMethod == "truncated" || evolutionMethod == "ordered-truncated" then Ok(NloTruncatedKernel)
    else Err(ValueError)
  }

  /** Both iterate methods share one kernel, and each other method has a kernel of its own. */
  lemma DispatcherNloChoices()
    ensures DispatcherNlo("iterate-exact") == DispatcherNlo("iterate-expanded") == Ok(NloIterateKernel)
    ensures DispatcherNlo("decompose-exact") != DispatcherNlo("decompose-expanded")
    ensures DispatcherNlo("perturbative-exact") != DispatcherNlo("perturbative-expanded")
  {
  }
}
