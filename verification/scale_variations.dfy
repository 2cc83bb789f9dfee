/**
 * Factorisation-scale variations of the anomalous-dimension tower: the
 * exponentiated scheme and scheme A, both rewriting the coefficient array in
 * place from the highest entry down, so that every update still reads the
 * original lower entries.
 */
module ScaleVariations {
  import opened LinAlg
  import StrongCoupling

  function Min(a: nat, b: nat): nat { if a <= b then a else b }

  /** The NLO shift beta_0 gamma_0 L. */
  function Shift1(g0: real, b0: real, l: real): real
  {
    b0 * g0 * l
  }

  /** The NNLO shift 2 beta_0 gamma_1 L + (beta_1 L - beta_0^2 L^2) gamma_0. */
  function Shift2(g0: real, g1: real, b0: real, b1: real, l: real): real
  {
    2.0 * b0 * g1 * l + (b1 * l - b0 * b0 * (l * l)) * g0
  }

  /**
   * The N3LO shift of the exponentiated scheme, 3 beta_0 L gamma_2
   * + (2 beta_1 L - 3 beta_0^2 L^2) gamma_1
   * + (beta_2 L - 5/2 beta_1 beta_0 L^2 + beta_0^3 L^3) gamma_0.
   */
  function Shift3(g0: real, g1: real, g2: real, b0: real, b1: real, b2: real, l: real): real
  {
    3.0 * b0 * l * g2 + (2.0 * b1 * l - 3.0 * (b0 * b0) * (l * l)) * g1
    + (b2 * l - 5.0 / 2.0 * b1 * b0 * (l * l) + b0 * b0 * b0 * (l * l * l)) * g0
  }

  /** The NLO shift on matrices. */
  function Shift1M2(g0: M2, b0: real, l: real): M2
  {
    g0.Scale(b0 * l)
  }

  /** The NNLO shift on matrices. */
  function Shift2M2(g0: M2, g1: M2, b0: real, b1: real, l: real): M2
  {
    g1.Scale(2.0 * b0 * l).Add(g0.Scale(b1 * l - b0 * b0 * (l * l)))
  }

  /**
   * Entry k of the exponentiated variation of the tower g, in terms of the
   * original entries, with b_i = beta_i(nf) and the logarithm l.
   */
  function ExpEntry(g: seq<real>, k: nat, order: nat, nf: int, l: real): real
    requires k < |g|
  {
    var b0 := StrongCoupling.Beta0(nf);
    var b1 := StrongCoupling.Beta1(nf);
    var b2 := StrongCoupling.Beta2(nf);
    if k == 1 && order >= 1 then g[1] - Shift1(g[0], b0, l)
    else if k == 2 && order >= 2 then g[2] - Shift2(g[0], g[1], b0, b1, l)
    else if k == 3 && order >= 3 then g[3] - Shift3(g[0], g[1], g[2], b0, b1, b2, l)
    else g[k]
  }

  /** The exponentiated variation of the whole tower. */
  function ExpVaried(g: seq<real>, order: nat, nf: int, l: real): (r: seq<real>)
    ensures |r| == |g|
  {
    seq(|g|, k requires 0 <= k < |g| => ExpEntry(g, k, order, nf, l))
  }

  /**
   * `gamma_variation` (exponentiated scheme) on a non-singlet tower: updates
   * gamma[3], then gamma[2], then gamma[1] in place and returns the same
   * array, whose new contents are the variation of its old contents.
   */
  method GammaVariation(g: array<real>, order: nat, nf: int, l: real) returns (r: array<real>)
    requires order >= 1 ==> g.Length > Min(order, 3)
    modifies g
    ensures r == g
    ensures g[..] == ExpVaried(old(g[..]), order, nf, l)
  {
    ghost var g0 := g[..];
    var b0 := StrongCoupling.Beta0(nf);
    var b1 := StrongCoupling.Beta1(nf);
    if order >= 3 {
      g[3] := g[3] - Shift3(g[0], g[1], g[2], b0, b1, StrongCoupling.Beta2(nf), l);
    }
    if order >= 2 {
      g[2] := g[2] - Shift2(g[0], g[1], b0, b1, l);
    }
    if order >= 1 {
      g[1] := g[1] - Shift1(g[0], b0, l);
    }
    assert forall k :: 0 <= k < g.Length ==> g[k] == ExpEntry(g0, k, order, nf, l);
    r := g;
  }

  /** Entry k of the scheme-A variation: the exponentiated one up to NNLO, nothing above. */
  function AEntry(g: seq<real>, k: nat, order: nat, nf: int, l: real): real
    requires k < |g|
  {
    var b0 := StrongCoupling.Beta0(nf);
    var b1 := StrongCoupling.Beta1(nf);
    if k == 1 && order >= 1 then g[1] - Shift1(g[0], b0, l)
    else if k == 2 && order >= 2 then g[2] - Shift2(g[0], g[1], b0, b1, l)
    else g[k]
  }

  /** The scheme-A variation of the whole tower. */
  function AVaried(g: seq<real>, order: nat, nf: int, l: real): (r: seq<real>)
    ensures |r| == |g|
  {
    seq(|g|, k requires 0 <= k < |g| => AEntry(g, k, order, nf, l))
  }

  /** `gamma_ns_fact` (scheme A): gamma[2], then gamma[1], rewritten in place. */
  method GammaNsFact(g: array<real>, order: nat, nf: int, l: real) returns (r: array<real>)
    requires order >= 1 ==> g.Length > Min(order, 2)
    modifies g
    ensures r == g
    ensures g[..] == AVaried(old(g[..]), order, nf, l)
  {
    ghost var g0 := g[..];
    var b0 := StrongCoupling.Beta0(nf);
    if order >= 2 {
      g[2] := g[2] - Shift2(g[0], g[1], b0, StrongCoupling.Beta1(nf), l);
    }
    if order >= 1 {
      g[1] := g[1] - Shift1(g[0], b0, l);
    }
    assert forall k :: 0 <= k < g.Length ==> g[k] == AEntry(g0, k, order, nf, l);
    r := g;
  }

  /** Entry k of the scheme-A variation of a singlet tower of 2x2 matrices. */
  function AEntryM2(g: seq<M2>, k: nat, order: nat, nf: int, l: real): M2
    requires k < |g|
  {
    var b0 := StrongCoupling.Beta0(nf);
    var b1 := StrongCoupling.Beta1(nf);
    if k == 1 && order >= 1 then g[1].Sub(Shift1M2(g[0], b0, l))
    else if k == 2 && order >= 2 then g[2].Sub(Shift2M2(g[0], g[1], b0, b1, l))
    else g[k]
  }

  /** The scheme-A variation of a singlet tower. */
  function AVariedM2(g: seq<M2>, order: nat, nf: int, l: real): (r: seq<M2>)
    ensures |r| == |g|
  {
    seq(|g|, k requires 0 <= k < |g| => AEntryM2(g, k, order, nf, l))
  }

  /** `gamma_singlet_fact` (scheme A): the same top-down update on a tower of matrices. */
  method GammaSingletFact(g: array<M2>, order: nat, nf: int, l: real) returns (r: array<M2>)
    requires order >= 1 ==> g.Length > Min(order, 2)
    modifies g
    ensures r == g
    ensures g[..] == AVariedM2(old(g[..]), order, nf, l)
  {
    ghost var g0 := g[..];
    var b0 := StrongCoupling.Beta0(nf);
    if order >= 2 {
      g[2] := g[2].Sub(Shift2M2(g[0], g[1], b0, StrongCoupling.Beta1(nf), l));
    }
    if order >= 1 {
      g[1] := g[1].Sub(Shift1M2(g[0], b0, l));
    }
    assert forall k :: 0 <= k < g.Length ==> g[k] == AEntryM2(g0, k, order, nf, l);
    r := g;
  }

  /**
   * Neither scheme touches gamma[0], scheme A touches nothing from gamma[3]
   * on and the exponentiated scheme nothing from gamma[4] on, and both
   * leave the tower as it was at order 0.
   */
  lemma VariationsKeepEntries(g: seq<real>, order: nat, nf: int, l: real)
    requires |g| >= 1
    ensures ExpVaried(g, order, nf, l)[0] == g[0] && AVaried(g, order, nf, l)[0] == g[0]
    ensures forall k :: 3 <= k < |g| ==> AVaried(g, order, nf, l)[k] == g[k]
    ensures forall k :: 4 <= k < |g| ==> ExpVaried(g, order, nf, l)[k] == g[k]
    ensures ExpVaried(g, 0, nf, l) == g && AVaried(g, 0, nf, l) == g
  {
    assert forall k :: 0 <= k < |g| ==> ExpVaried(g, 0, nf, l)[k] == g[k];
    assert forall k :: 0 <= k < |g| ==> AVaried(g, 0, nf, l)[k] == g[k];
  }

  /** At L = 0 (factorisation scale equal to the process scale) neither scheme changes anything. */
  lemma CentralScaleIsIdentity(g: seq<real>, order: nat, nf: int)
    ensures ExpVaried(g, order, nf, 0.0) == g && AVaried(g, order, nf, 0.0) == g
  {
    assert forall k :: 0 <= k < |g| ==> ExpVaried(g, order, nf, 0.0)[k] == g[k];
    assert forall k :: 0 <= k < |g| ==> AVaried(g, order, nf, 0.0)[k] == g[k];
  }

  /** Up to NNLO the two schemes give the same tower. */
  lemma SchemesAgreeUpToNnlo(g: seq<real>, order: nat, nf: int, l: real)
    requires order <= 2
    ensures ExpVaried(g, order, nf, l) == AVaried(g, order, nf, l)
  {
    assert forall k :: 0 <= k < |g| ==> ExpVaried(g, order, nf, l)[k] == AVaried(g, order, nf, l)[k];
  }

  /** The a-component of each matrix of a tower. */
  function ComponentA(g: seq<M2>): (r: seq<real>)
    ensures |r| == |g| && forall k :: 0 <= k < |g| ==> r[k] == g[k].a
  {
    seq(|g|, k requires 0 <= k < |g| => g[k].a)
  }

  /** A singlet-tower entry, componentwise: the scalar update on the a-components. */
  lemma {:induction false} SingletEntryIsComponentwise(g: seq<M2>, k: nat, order: nat, nf: int, l: real)
    requires k < |g|
    ensures AEntryM2(g, k, order, nf, l).a == AEntry(ComponentA(g), k, order, nf, l)
  {
    var b0 := StrongCoupling.Beta0(nf);
    var b1 := StrongCoupling.Beta1(nf);
    if k == 2 && order >= 2 {
      assert (2.0 * b0 * l) * g[1].a == 2.0 * b0 * g[1].a * l;
      assert Shift2M2(g[0], g[1], b0, b1, l).a == Shift2(g[0].a, g[1].a, b0, b1, l);
    } else if k == 1 && order >= 1 {
      assert (b0 * l) * g[0].a == b0 * g[0].a * l;
      assert Shift1M2(g[0], b0, l).a == Shift1(g[0].a, b0, l);
    }
  }

  /**
   * The singlet update acts on each matrix entry as the non-singlet update
   * acts on numbers, shown on the qq component; the other three components
   * are alike.
   */
  lemma SingletIsComponentwise(g: seq<M2>, order: nat, nf: int, l: real)
    ensures ComponentA(AVariedM2(g, order, nf, l)) == AVaried(ComponentA(g), order, nf, l)
  {
    forall k | 0 <= k < |g|
      ensures AVariedM2(g, order, nf, l)[k].a == AVaried(ComponentA(g), order, nf, l)[k]
    {
      SingletEntryIsComponentwise(g, k, order, nf, l);
    }
  }
}
