/**
 * The QCD beta function coefficients and the running strong coupling
 * a_s = alpha_s / (4 pi), evolved area by area along the threshold atlas.
 */
module StrongCoupling {
  import opened Common
  import opened Thresholds

  /** Colour factors of SU(3): C_A, C_F and T_R. */
  const CA: real := 3.0
  const CF: real := 4.0 / 3.0
  const TR: real := 0.5

  /** First coefficient of the QCD beta function, 11/3 C_A - 4/3 T_R nf. */
  function Beta0(nf: int): (r: real)
    ensures r == (33 - 2 * nf) as real / 3.0
  {
    11.0 / 3.0 * CA - 4.0 / 3.0 * TR * nf as real
  }

  /** Second coefficient, 34/3 C_A^2 - 20/3 C_A T_F - 4 C_F T_F with T_F = T_R nf. */
  function Beta1(nf: int): (r: real)
    ensures r == 102.0 - 38.0 / 3.0 * nf as real
  {
    var tf := TR * nf as real;
    34.0 / 3.0 * CA * CA - 20.0 / 3.0 * CA * tf - 4.0 * CF * tf
  }

  /** Third coefficient, a polynomial of degree two in T_F = T_R nf. */
  function Beta2(nf: int): (r: real)
    ensures r == 2857.0 / 2.0 - 5033.0 / 18.0 * nf as real + 325.0 / 54.0 * (nf as real * nf as real)
  {
    var tf := TR * nf as real;
    2857.0 / 54.0 * CA * CA * CA
    - 1415.0 / 27.0 * CA * CA * tf
    - 205.0 / 9.0 * CF * CA * tf
    + 2.0 * CF * CF * tf
    + 44.0 / 9.0 * CF * tf * tf
    + 158.0 / 27.0 * CA * tf * tf
  }

  /** beta_0 never vanishes for an integer number of flavours (it would need nf = 16.5). */
  lemma Beta0NonZero(nf: int)
    ensures Beta0(nf) != 0.0
  {
    assert 33 - 2 * nf != 0;
  }

  /** `beta(k, nf)`: beta_k for k = 0, 1, 2; any other order is a ValueError. */
  function Beta(k: int, nf: int): (r: Result<real>)
    ensures r.Ok? <==> 0 <= k <= 2
    ensures r.Err? ==> r.error == ValueError
    ensures r.Ok? ==> r.value == [Beta0(nf), Beta1(nf), Beta2(nf)][k]
  {
    if k == 0 then Ok(Beta0(nf))
    else if k == 1 then Ok(Beta1(nf))
    else if k == 2 then Ok(Beta2(nf))
    else Err(ValueError)
  }

  /** `b(k, nf) = beta(k, nf) / beta(0, nf)`, so b(0, nf) = 1. */
  function B(k: int, nf: int): (r: Result<real>)
    ensures r.Ok? <==> 0 <= k <= 2
    ensures k == 0 ==> r == Ok(1.0)
    ensures r.Ok? ==> r.value * Beta0(nf) == Beta(k, nf).value
  {
    match Beta(k, nf)
    case Ok(bk) =>
      Beta0NonZero(nf);
      Quotient(bk, Beta0(nf));
      Ok(bk / Beta0(nf))
    case Err(e) => Err(e)
  }

  /** Dividing by a non-zero d and multiplying back gives x; d / d is 1. */
  lemma Quotient(x: real, d: real)
    requires d != 0.0
    ensures (x / d) * d == x
    ensures x == d ==> x / d == 1.0
  {
  }

  /** Test values of the coefficients at nf = 5. */
  lemma BetaAtFiveFlavours()
    ensures Beta0(5) == 23.0 / 3.0
    ensures Beta1(5) == 116.0 / 3.0
  {
  }

  /**
   * `_compute_expanded`: the truncated analytic solution of the RGE at LO,
   * NLO (order >= 1) and NNLO (order == 2).
   */
  function ComputeExpanded(env: Env, order: int, asRef: real, nf: int, scaleFrom: real, scaleTo: real): (r: real)
    requires asRef != 0.0 && scaleFrom != 0.0
    requires 1.0 + Beta0(nf) * asRef * env.log(scaleTo / scaleFrom) != 0.0
    ensures order < 1 ==> r != 0.0 && 1.0 / r == 1.0 / asRef + Beta0(nf) * env.log(scaleTo / scaleFrom)
  {
    Beta0NonZero(nf);
    var beta0 := Beta0(nf);
    var den := 1.0 + Beta0(nf) * asRef * env.log(scaleTo / scaleFrom);
    var asLO := asRef / den;
    if order < 1 then asLO
    else
      var b1 := Beta1(nf) / beta0;
      var asNLO := asLO * (1.0 - b1 * asLO * env.log(den));
      if order != 2 then asNLO
      else
        var b2 := Beta2(nf) / beta0;
        asLO * (1.0 + asLO * (asLO - asRef) * (b2 - b1 * b1) + asNLO * b1 * env.log(asNLO / asRef))
  }

  /** At equal scales the expanded solution returns the starting coupling at every order. */
  lemma ExpandedAtSameScale(env: Env, order: int, asRef: real, nf: int, q2: real)
    requires ValidEnv(env) && asRef != 0.0 && q2 != 0.0
    ensures 1.0 + Beta0(nf) * asRef * env.log(q2 / q2) == 1.0
    ensures ComputeExpanded(env, order, asRef, nf, q2, q2) == asRef
  {
    assert q2 / q2 == 1.0;
    assert asRef / 1.0 == asRef;
    assert asRef / asRef == 1.0;
  }

  /**
   * The coefficients [1, b_1] (NLO) or [1, b_1, b_2] (NNLO) of the rescaled
   * RGE da/du = -a^2 (1 + b_1 a + b_2 a^2).
   */
  function RgeCoefficients(order: int, nf: int): (bs: seq<real>)
    requires order >= 1
    ensures |bs| == (if order >= 2 then 3 else 2)
    ensures forall k :: 0 <= k < |bs| ==> B(k, nf) == Ok(bs[k])
  {
    Beta0NonZero(nf);
    var beta0 := Beta0(nf);
    if order >= 2 then [1.0, Beta1(nf) / beta0, Beta2(nf) / beta0] else [1.0, Beta1(nf) / beta0]
  }

  /**
   * `_compute_exact`: at order 0 the expanded formula (which is exact there),
   * otherwise the numerical RGE solution at u = beta_0 log(scaleTo / scaleFrom).
   */
  function ComputeExact(env: Env, order: int, asRef: real, nf: int, scaleFrom: real, scaleTo: real): (r: real)
    requires 0 <= order && scaleFrom != 0.0
    requires order == 0 ==> asRef != 0.0 && 1.0 + Beta0(nf) * asRef * env.log(scaleTo / scaleFrom) != 0.0
    ensures order == 0 ==> r == ComputeExpanded(env, 0, asRef, nf, scaleFrom, scaleTo)
    ensures order >= 1 ==> r == env.rge(RgeCoefficients(order, nf), asRef, Beta0(nf) * env.log(scaleTo / scaleFrom))
  {
    if order == 0 then ComputeExpanded(env, order, asRef, nf, scaleFrom, scaleTo)
    else env.rge(RgeCoefficients(order, nf), asRef, Beta0(nf) * env.log(scaleTo / scaleFrom))
  }

  /** The exact solver also returns the starting coupling between equal scales, when the RGE solver is the identity at u = 0. */
  lemma ExactAtSameScale(env: Env, order: int, asRef: real, nf: int, q2: real)
    requires ValidEnv(env) && asRef != 0.0 && q2 != 0.0 && 0 <= order
    requires forall bs: seq<real>, a: real :: env.rge(bs, a, 0.0) == a
    ensures 1.0 + Beta0(nf) * asRef * env.log(q2 / q2) == 1.0
    ensures ComputeExact(env, order, asRef, nf, q2, q2) == asRef
  {
    assert q2 / q2 == 1.0;
    if order == 0 {
      ExpandedAtSameScale(env, order, asRef, nf, q2);
    }
  }

  /** The two ways of solving the RGE. */
  datatype Method = Expanded | Exact

  /** `_compute`: dispatch on the solving method. */
  function Compute(env: Env, solver: Method, order: int, asRef: real, nf: int, scaleFrom: real, scaleTo: real): (r: real)
    requires 0 <= order && asRef != 0.0 && scaleFrom != 0.0
    requires 1.0 + Beta0(nf) * asRef * env.log(scaleTo / scaleFrom) != 0.0
    ensures solver == Exact ==> r == ComputeExact(env, order, asRef, nf, scaleFrom, scaleTo)
    ensures solver == Expanded ==> r == ComputeExpanded(env, order, asRef, nf, scaleFrom, scaleTo)
  {
    if solver == Exact then ComputeExact(env, order, asRef, nf, scaleFrom, scaleTo)
    else ComputeExpanded(env, order, asRef, nf, scaleFrom, scaleTo)
  }

  /** At LO the two methods agree: the expanded formula is the exact solution there. */
  lemma MethodsAgreeAtLO(env: Env, asRef: real, nf: int, scaleFrom: real, scaleTo: real)
    requires 0.0 < asRef != 0.0 && scaleFrom != 0.0
    requires 1.0 + Beta0(nf) * asRef * env.log(scaleTo / scaleFrom) != 0.0
    ensures Compute(env, Exact, 0, asRef, nf, scaleFrom, scaleTo) == Compute(env, Expanded, 0, asRef, nf, scaleFrom, scaleTo)
  {
  }

  /** `from_dict`'s reading of ModEv (default EXA); unknown modes are a ValueError. */
  function MethodOfModEv(modEv: Option<string>): (r: Result<Method>)
    ensures r == Ok(Exact) <==> (modEv.None? || modEv.value == "EXA")
    ensures r == Ok(Expanded) <==> (modEv.Some? && modEv.value in {"TRN", "EXP", "perturbative-expanded"})
    ensures r.Err? ==> r.error == ValueError
  {
    var m := if modEv.None? then "EXA" else modEv.value;
    if m == "EXA" then Ok(Exact)
    else if m in {"TRN", "EXP", "perturbative-expanded"} then Ok(Expanded)
    else Err(ValueError)
  }

  /** `method` argument of the constructor, which accepts only two names. */
  function MethodOfName(name: string): (r: Option<Method>)
    ensures r == Some(Exact) <==> name == "exact"
    ensures r == Some(Expanded) <==> name == "expanded"
  {
    if name == "exact" then Some(Exact) else if name == "expanded" then Some(Expanded) else None
  }

  /**
   * First and second order coefficients of the threshold matching of a_s
   * (hep-ph/9706430), with L = log(scale_to / fact_scale); the signs flip
   * when the next area has fewer flavours.
   */
  function MatchingCoefficients(nextIsDown: bool, l: real): (c: (real, real))
    ensures c.0 == 0.0 <==> l == 0.0
    ensures l == 0.0 ==> c.1 == (if nextIsDown then -14.0 / 3.0 else 14.0 / 3.0)
  {
    if nextIsDown then (-4.0 / 3.0 * TR * l, 4.0 / 9.0 * l * l - 38.0 / 3.0 * l - 14.0 / 3.0)
    else (4.0 / 3.0 * TR * l, 4.0 / 9.0 * l * l + 38.0 / 3.0 * l + 14.0 / 3.0)
  }

  /** The threshold shift of a coupling at order 1 and 2; order 0 is unshifted. */
  function Shift(a: real, order: int, nextIsDown: bool, l: real): real
  {
    var c := MatchingCoefficients(nextIsDown, l);
    if order == 1 then a * (1.0 + c.0 * a)
    else if order == 2 then a * (1.0 + c.0 * a + c.1 * a * a)
    else a
  }

  /**
   * Crossing a threshold downwards uses the upward coefficients at -L,
   * except that the constant term of c2 changes sign: c1 is odd in L, and
   * the two c2 differ by 76/3 L + 28/3.
   */
  lemma MatchingDirections(l: real)
    ensures MatchingCoefficients(true, l).0 == MatchingCoefficients(false, -l).0 == -MatchingCoefficients(false, l).0
    ensures MatchingCoefficients(true, l).1 == MatchingCoefficients(false, -l).1 - 28.0 / 3.0
    ensures MatchingCoefficients(false, l).1 - MatchingCoefficients(true, l).1 == 76.0 / 3.0 * l + 28.0 / 3.0
  {
  }

  /**
   * The shifts are nested: order 1 adds c1 a^2 to the coupling, order 2 adds
   * c2 a^3 on top of that, and any other order leaves the coupling alone.
   */
  lemma ShiftOrders(a: real, order: int, nextIsDown: bool, l: real)
    ensures var c := MatchingCoefficients(nextIsDown, l);
      && Shift(a, 1, nextIsDown, l) == a + c.0 * a * a
      && Shift(a, 2, nextIsDown, l) == Shift(a, 1, nextIsDown, l) + c.1 * a * a * a
      && (order != 1 && order != 2 ==> Shift(a, order, nextIsDown, l) == a)
  {
  }

  /**
   * With the default factorisation scale L = 0: the order-1 shift is the
   * identity, while the order-2 shift keeps its constant term -+14/3 a^2.
   */
  lemma ShiftAtZeroLog(a: real, nextIsDown: bool)
    ensures Shift(a, 1, nextIsDown, 0.0) == a
    ensures Shift(a, 0, nextIsDown, 0.0) == a
    ensures Shift(a, 2, nextIsDown, 0.0) == a * (1.0 + (if nextIsDown then -14.0 / 3.0 else 14.0 / 3.0) * a * a)
  {
  }

  /**
   * The specification of the `a_s` loop: from step `k` on, with coupling
   * `a`, run each area from its reference point towards `scaleTo` (skipping
   * empty steps entirely) and shift at each threshold still to be crossed.
   */
  function Walk(path: seq<Area>, k: nat, a: real, scaleTo: real, l: real, order: int,
                compute: (real, int, real, real) -> real): real
    decreases |path| - k
  {
    if k >= |path| then a
    else
      var from := path[k].q2Ref;
      var to := path[k].Towards(scaleTo);
      if from == to then Walk(path, k + 1, a, scaleTo, l, order, compute)
      else
        var newAs := compute(a, path[k].nf, from, to);
        var shifted := if k < |path| - 1 then Shift(newAs, order, path[k + 1].nf < path[k].nf, l) else newAs;
        Walk(path, k + 1, shifted, scaleTo, l, order, compute)
  }

  /** A walk over areas whose steps are all empty returns the starting coupling. */
  lemma {:induction false} WalkOfEmptySteps(path: seq<Area>, k: nat, a: real, scaleTo: real, l: real, order: int,
                                            compute: (real, int, real, real) -> real)
    requires forall j :: k <= j < |path| ==> path[j].q2Ref == path[j].Towards(scaleTo)
    ensures Walk(path, k, a, scaleTo, l, order, compute) == a
    decreases |path| - k
  {
    if k < |path| {
      WalkOfEmptySteps(path, k + 1, a, scaleTo, l, order, compute);
    }
  }

  /**
   * Lowest flavour number of the atlas the coupling builds for itself, as
   * written: an FFNS atlas keeps the reference flavour number, every other
   * scheme is rebuilt from the walls alone and so starts again at 3.
   */
  function AtlasMinNfAsWritten(scheme: Scheme, nfRef: int, minNf: int): int
  {
    if scheme == FFNS then nfRef else 3
  }

  /**
   * As written, a FONLL-A atlas with the b threshold as its only wall and 4
   * light flavours (minNf = 4) gets a coupling atlas with 3 and 4 flavours:
   * above m_b^2 the coupling runs with nf = 4 where the atlas has nf = 5.
   */
  lemma AtlasAsWrittenLosesFlavour()
    ensures Layout([20.0], 10.0, 4)[1].nf == 5
    ensures Layout([20.0], 10.0, AtlasMinNfAsWritten(FonllA, 4, 4))[1].nf == 4
  {
  }

  /** The intended lowest flavour number: the one of the given atlas, whatever the scheme. */
  function AtlasMinNf(scheme: Scheme, nfRef: int, minNf: int): int
  {
    if scheme == FFNS then nfRef else minNf
  }

  /**
   * With the intended flavour number, the coupling's atlas gives every area
   * the flavour number of the corresponding area of the atlas it was built
   * from, whatever the two reference scales (in FFNS the reference flavour
   * number of a single area is its lowest one).
   */
  lemma AtlasKeepsFlavours(walls: seq<real>, q2Ref: real, scaleRef: real, scheme: Scheme, nfRef: int, minNf: int)
    requires scheme == FFNS ==> nfRef == minNf
    ensures forall i :: 0 <= i <= |walls| ==>
      Layout(walls, scaleRef, AtlasMinNf(scheme, nfRef, minNf))[i].nf == Layout(walls, q2Ref, minNf)[i].nf
  {
    LayoutShape(walls, scaleRef, AtlasMinNf(scheme, nfRef, minNf));
    LayoutShape(walls, q2Ref, minNf);
  }

  /** `StrongCoupling`: the reference coupling, its order and method, and its own atlas. */
  class Coupling {
    const asRef: real
    const order: int
    const solver: Method
    const holder: ThresholdsConfig

    constructor Init(asRef: real, order: int, solver: Method, holder: ThresholdsConfig)
      ensures this.asRef == asRef && this.order == order && this.solver == solver && this.holder == holder
    {
      this.asRef := asRef;
      this.order := order;
      this.solver := solver;
      this.holder := holder;
    }

    /** `q2_ref`: the reference scale is that of the coupling's own atlas. */
    function Q2Ref(): real
      reads holder
    {
      holder.q2Ref
    }

    /**
     * `StrongCoupling.__init__`: refuse a non-positive coupling or scale, an
     * order outside 0..2 and an unknown method, then rebuild the atlas at
     * `scale_ref` (FFNS with the reference flavour number, otherwise the same
     * walls with the default lowest flavour number 3, as written: see
     * `AtlasAsWrittenLosesFlavour`).
     */
    static method New(env: Env, alphaSRef: real, scaleRef: real, thresh: ThresholdsConfig, order: int, methodName: string)
      returns (r: Result<Coupling>)
      requires ValidEnv(env) && thresh.Valid()
      ensures alphaSRef <= 0.0 ==> r == Err(ValueError)
      ensures alphaSRef > 0.0 && scaleRef <= 0.0 ==> r == Err(ValueError)
      ensures alphaSRef > 0.0 && scaleRef > 0.0 && !(0 <= order <= 2) ==> r == Err(NotImplementedError)
      ensures alphaSRef > 0.0 && scaleRef > 0.0 && 0 <= order <= 2 && MethodOfName(methodName).None? ==> r == Err(ValueError)
      ensures r.Ok? <==> alphaSRef > 0.0 && scaleRef > 0.0 && 0 <= order <= 2 && MethodOfName(methodName).Some?
      ensures r.Ok? ==> fresh(r.value) && fresh(r.value.holder) && r.value.holder.Valid()
      ensures r.Ok? ==> r.value.asRef == alphaSRef / 4.0 / env.pi && r.value.order == order
      ensures r.Ok? ==> Some(r.value.solver) == MethodOfName(methodName)
      ensures r.Ok? ==> r.value.holder.q2Ref == scaleRef && r.value.holder.scheme == thresh.scheme
      ensures r.Ok? ==> r.value.holder.areaWalls == SortReals(thresh.areaWalls)
      ensures r.Ok? ==> r.value.holder.minNf == Some(AtlasMinNfAsWritten(thresh.scheme, thresh.NfRef(), thresh.minNf.value))
    {
      if alphaSRef <= 0.0 {
        return Err(ValueError);
      }
      if scaleRef <= 0.0 {
        return Err(ValueError);
      }
      if !(0 <= order <= 2) {
        return Err(NotImplementedError);
      }
      var m := MethodOfName(methodName);
      if m.None? {
        return Err(ValueError);
      }
      var asRef := alphaSRef / 4.0 / env.pi;
      var h: Result<ThresholdsConfig>;
      SchemeNameRoundTrip(thresh.scheme, thresh.scheme.Name());
      if thresh.scheme == FFNS {
        h := ThresholdsConfig.New(scaleRef, "FFNS", None, Some(thresh.NfRef()));
      } else {
        // only the walls are passed on, so the lowest flavour number falls back to 3
        h := ThresholdsConfig.New(scaleRef, thresh.scheme.Name(), Some(thresh.areaWalls), None);
      }
      var c := new Coupling.Init(asRef, order, m.value, h.value);
      r := Ok(c);
    }

    /**
     * `a_s(scale_to, fact_scale)` with `_compute` passed in as `compute`:
     * walk the area path, running each area from its reference point towards
     * the target and applying the threshold shift before every further area.
     */
    method AS(env: Env, scaleTo: real, factScale: Option<real>, compute: (real, int, real, real) -> real)
      returns (finalAs: real)
      requires holder.Valid() && scaleTo != 0.0 && factScale != Some(0.0)
      ensures finalAs == Walk(holder.GetPathFromQ2Ref(scaleTo), 0, asRef, scaleTo,
                              env.log(scaleTo / (if factScale.None? then scaleTo else factScale.value)), order, compute)
    {
      var areaPath := holder.GetPathFromQ2Ref(scaleTo);
      // as a default the factorisation scale is the renormalisation scale
      var fact := if factScale.None? then scaleTo else factScale.value;
      finalAs := RunPath(areaPath, asRef, scaleTo, env.log(scaleTo / fact), order, compute);
    }

    /** The loop of `a_s` over the areas of a path. */
    static method RunPath(areaPath: seq<Area>, as0: real, scaleTo: real, l: real, order: int,
                          compute: (real, int, real, real) -> real)
      returns (finalAs: real)
      ensures finalAs == Walk(areaPath, 0, as0, scaleTo, l, order, compute)
    {
      finalAs := as0;
      var k := 0;
      while k < |areaPath|
        invariant 0 <= k <= |areaPath|
        invariant Walk(areaPath, 0, as0, scaleTo, l, order, compute)
               == Walk(areaPath, k, finalAs, scaleTo, l, order, compute)
      {
        var area := areaPath[k];
        var q2From := area.q2Ref;
        var q2To := area.Towards(scaleTo);
        if q2From == q2To {
          k := k + 1;
          continue;
        }
        var newAs := compute(finalAs, area.nf, q2From, q2To);
        // matching conditions, if there is yet a step to go
        if k < |areaPath| - 1 {
          newAs := Shift(newAs, order, areaPath[k + 1].nf < area.nf, l);
        }
        finalAs := newAs;
        k := k + 1;
      }
    }

    /**
     * The coupling at its own reference scale is the reference coupling: the
     * path is the single reference area and its only step is empty.
     */
    lemma AtReferenceScale(env: Env, compute: (real, int, real, real) -> real, l: real)
      requires holder.Valid() && holder.q2Ref >= 0.0
      ensures Walk(holder.GetPathFromQ2Ref(holder.q2Ref), 0, asRef, holder.q2Ref, l, order, compute) == asRef
    {
      var path := holder.GetPathFromQ2Ref(holder.q2Ref);
      RefIndexIsDigitize(holder.areaWalls, holder.q2Ref, holder.minNf.value);
      assert holder.GetAreasIdx([holder.q2Ref])[0] == holder.areaRef;
      assert |path| == 1;
      var a := holder.areas[holder.areaRef];
      AreaAtIndexContains(holder.areaWalls, holder.q2Ref, holder.minNf.value, holder.q2Ref);
      assert a.hasQ20 && a.q2Ref == holder.q2Ref;
      WalkOfEmptySteps(path, 0, asRef, holder.q2Ref, l, order, compute);
    }
  }
}
