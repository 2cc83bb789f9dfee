# eko, the exactly stateable core, in Dafny

eko evolves parton distribution functions (PDFs) in Mellin space. For every
requested final scale Q2 it computes an *evolution kernel operator*: a rank-4
tensor over (output flavour, output x, input flavour, input x) that, contracted
with a PDF at the reference scale, gives the PDF at Q2. The numerical heart of
the program is floating-point physics: Mellin inversion, ODE solving for the
strong coupling, and polygamma-based harmonic sums. Around it sits a large body
of exact bookkeeping, and this project models that bookkeeping and proves it:

- **threshold atlas** (`Thresholds`): contiguous areas of fixed flavour number
  between the heavy-quark walls, and the path of areas from the reference scale
  to a target;
- **coupling bookkeeping** (`StrongCoupling`, `AlphaS`, `Gamma`, `Constants`):
  beta and gamma_m coefficients as polynomials in nf, the constructor checks,
  the area-by-area walk of `a_s` with its matching shifts, and the locked
  colour-constant object;
- **anomalous dimensions** (`Harmonics`, `LeadingOrder`, `SplittingFunctions`,
  `As1Aem1`, `AnomalousDimensions`, `MatchingNlo`, `MatchingAs3`): LO kernels
  in the harmonic sum S1 on the natural numbers, where quark-number and
  momentum conservation become lemmas, the O(as aem) kernel relations, the
  order and mode dispatch of the QCD and QED towers, the singlet projectors,
  and the layout of the matching matrices;
- **scale variations** (`ScaleVariations`): the in-place, top-down rewrites
  of the coefficient array, as methods on arrays;
- **kernels** (`SingletEvolution`, `KernelDispatch`): the R and U recurrences,
  the truncated U series, the step-product order, the method dispatchers and
  the kernel set-up;
- **operator algebra** (`Operator`, `EvolutionOperator`, `Flavors`,
  `Physical`, `MatchingCondition`, `BasisRotation`): sector labels and the
  `compute` fill loop, `target.input` member names with their products, sums
  and path joins, the anomalous-dimension and matching maps, the exact
  flavour-basis matching rotations and their inverses, and the basis rotation
  utilities;
- **operator grids** (`Grid`, `LegacyGrid`): memoised threshold operators and
  the order in which the segments are composed;
- **output** (`EkoStruct`, `OutputDict`, `Tensors`, `Manipulate`, `Apply`):
  the Q2 -> operator dictionary, grid and flavour reshapes as index
  contractions, `concat`, and the application of the operators to a PDF;
- **small helpers** (`GenOp`, `Compile`): the operator-card defaults merge
  and the source-specialising string rewrite.

Arithmetic is exact: Python floats are Dafny `real`s, and complex Mellin
moments are taken at integer moments or as reals where only ring identities
are used. Where the code calls a transcendental or numerical routine (log, exp,
pi, zeta values, the digamma function, the ODE solver, the Mellin integrator,
interpolation matrices, matrix inversion), the model takes the routine or its
result as a parameter and assumes only the identities it needs (such as
log 1 = 0). A Python exception is an `Err` value of the `Result` type in
`Common`, named after the exception class. Where the code mutates an object
(`Constants`, `EKO`, `OperatorGrid`, the `Operator` fill loop, the scale
variation arrays), the model is a class, or a method on an array, with its
frame; the rest is functions and lemmas.

Values the code uses but the modelled files do not define are taken as
constants. These are:

- the non-singlet sector identifiers (ns+ 10101, ns- 10201, valence 10200,
  and 10102, 10103, 10202, 10203 for the QED up/down modes);
- the squared charges eu2 = 4/9 and ed2 = 1/9;
- the intrinsic heavy-quark pids of the matching, `matching_hplus_pid = 90`
  and `matching_hminus_pid = 91`;
- `quark_names = ["d", "u", "s", "c", "b", "t"]`;
- the colour factors CA = 3, CF = 4/3, TR = 1/2 where a module reads them from
  `constants` although `constants.py` itself only defines the class;
- `br.flavor_basis_names`, read at `src/eko/evolution_operator/flavors.py:123`:
  the name of the quark q stands at position 8 + q's place in `quark_names`
  (the position of its pid in the flavour basis), as `Flavors.RotatePmToFlavor`
  writes it;
- `br.valence_unified_labels[0]`, read at
  `src/eko/evolution_operator/physical.py:115`: the valence sector
  (10200, 10200);
- `br.evol_basis_pids`, assigned at `src/eko/output/manipulate.py:161` and
  `:163`: a parameter of `Manipulate.Eko.ToEvol`, any 14 pids.

`to_evol` calls `eko.flavor_reshape(...)` at
`src/eko/output/manipulate.py:158`, a method that neither the `EKO` class of
`src/eko/output/struct.py` nor the output class defines. The model takes it to
be the module's own `flavor_reshape` (`Manipulate.Eko.FlavorReshape`).

Where the tests expect something the code does not do, the model follows the
code. One case is `tests/test_operator.py`, which expects a gamma[2] change
and an NS_v label that `src/eko/operator/operator.py` does not produce.

`src/ekomark/apply.py` repeats `apply_pdf` and `apply_pdf_flavor` of
`src/ekobox/apply.py` line for line, without `apply_pdf_allmembers`. Both are
covered by the one `Apply` module, and rows cite whichever file states the
property best.

## Model

| member | source | states |
|---|---|---|
| `Thresholds.Area.Towards` | src/eko/thresholds.py:47-68 | the result lies in the area, is the input itself when the input is inside, and is the point of the area closest to the input |
| `Thresholds.NewArea` | src/eko/thresholds.py:33-45 | bounds and nf are stored; has_q2_0 holds exactly when q2_0 lies in [q2_min, q2_max], and q2_ref is q2_0 clamped into the area |
| `Thresholds.AreaOrder` | src/eko/thresholds.py:70-92 | an area that is `<` (`>`) another has all its points below (above) every point of the other |
| `Thresholds.SortReals` | src/eko/thresholds.py:208 | `sorted`: the result is ordered and a permutation of the walls |
| `Thresholds.CountLeSplits` | src/eko/thresholds.py:264-268 | on sorted walls the digitize index separates the walls at or below q2 from those above it |
| `Thresholds.LayoutShape` | src/eko/thresholds.py:205-221 | the areas are contiguous (each q2_max is the next q2_min), start at 0, end at infinity and have nf = min_nf + i |
| `Thresholds.AreaAtIndexContains` | src/eko/thresholds.py:264-286 | the area at the digitize index of a non-negative q2 contains q2 |
| `Thresholds.RefIndexIsDigitize` | src/eko/thresholds.py:214-268 | the reference area kept by the setup loop (the last one holding q2_ref) is the one digitize assigns to q2_ref |
| `Thresholds.PathIndices` | src/eko/thresholds.py:240-246 | `range(ref, cur + rc, rc)` runs from ref to cur, stepping by exactly +1 or exactly -1 |
| `Thresholds.SchemeOf` | src/eko/thresholds.py:122-143 | FFNS is recognised by its name, the three VFN schemes by theirs, and every other name is unknown |
| `Thresholds.SchemeNameRoundTrip` | src/eko/thresholds.py:122-131 | reading a scheme back from its run-card name gives the scheme, and no other name does |
| `Thresholds.ThresholdsConfig.Init` | src/eko/thresholds.py:112-120 | the initial field values: empty areas and walls, reference area 0, no min_nf or max_nf |
| `Thresholds.ThresholdsConfig.New` | src/eko/thresholds.py:112-144 | FFNS fails with ValueError exactly when nf is missing or walls are given, else one area [0, inf) with min_nf = max_nf = nf; a VFN scheme fails exactly when walls are missing, else sorted walls and min_nf defaulting to 3; any other scheme raises NotImplementedError |
| `Thresholds.ThresholdsConfig.SetupVfns` | src/eko/thresholds.py:196-221 | the walls become the sorted list, min_nf defaults to 3, and the atlas is the contiguous layout with max_nf = min_nf + number of walls |
| `Thresholds.ThresholdsConfig.BuildAreas` | src/eko/thresholds.py:210-221 | the loop builds exactly the layout, keeps the last area holding q2_ref as the reference area, and ends with nf = min_nf + number of walls |
| `Thresholds.ThresholdsConfig.NfRef` | src/eko/thresholds.py:180-183 | nf_ref is min_nf plus the reference area index, and that area contains a non-negative q2_ref |
| `Thresholds.ThresholdsConfig.NfRange` | src/eko/thresholds.py:185-194 | max_nf - min_nf + 1 values, which are exactly the nf of the areas |
| `Thresholds.ThresholdsConfig.GetAreasIdx` | src/eko/thresholds.py:249-268 | one index per scale, each a valid area index and equal to the number of walls at or below that scale |
| `Thresholds.ThresholdsConfig.GetAreas` | src/eko/thresholds.py:270-286 | one area per scale, each an area of the atlas that contains its non-negative scale |
| `Thresholds.ThresholdsConfig.GetPathFromQ2Ref` | src/eko/thresholds.py:223-247 | the path starts at the reference area, ends at the target's area (which contains the target), and nf changes by exactly +1 at every step or by exactly -1 at every step |
| `StrongCoupling.Beta0` | src/eko/strong_coupling.py:22-39 | beta_0 = 11/3 C_A - 4/3 T_R nf is (33 - 2 nf)/3 with QCD's colour factors |
| `StrongCoupling.Beta1` | src/eko/strong_coupling.py:43-64 | beta_1 = 34/3 C_A^2 - 20/3 C_A T_F - 4 C_F T_F is 102 - 38/3 nf |
| `StrongCoupling.Beta2` | src/eko/strong_coupling.py:68-93 | beta_2 is 2857/2 - 5033/18 nf + 325/54 nf^2 |
| `StrongCoupling.Beta0NonZero` | src/eko/strong_coupling.py:21-39 | beta_0 = 11/3 C_A - 4/3 T_R nf equals (33 - 2 nf)/3 and never vanishes for integer nf, so `b` never divides by zero |
| `StrongCoupling.Beta` | src/eko/strong_coupling.py:97-122 | defined exactly for k in {0, 1, 2}, where it is beta_0, beta_1 or beta_2; any other k is a ValueError |
| `StrongCoupling.B` | src/eko/strong_coupling.py:126-142 | defined exactly for k in {0, 1, 2}; b(k) times beta_0 is beta(k), and b(0) = 1 |
| `StrongCoupling.BetaAtFiveFlavours` | src/eko/strong_coupling.py:38-64 | at nf = 5, beta_0 = 23/3 and beta_1 = 116/3 |
| `StrongCoupling.ComputeExpanded` | src/eko/strong_coupling.py:277-320 | at LO the expanded coupling solves the one-loop equation exactly: 1/a_s = 1/a_s(ref) + beta_0 ln(scale_to/scale_from) |
| `StrongCoupling.ExpandedAtSameScale` | src/eko/strong_coupling.py:277-320 | when scale_to equals scale_from the expanded solution returns as_ref at every order, since log 1 = 0 |
| `StrongCoupling.RgeCoefficients` | src/eko/strong_coupling.py:346-359 | the rescaled RGE coefficients are [b_0, b_1] at NLO and [b_0, b_1, b_2] at NNLO, each equal to `b(k, nf)` |
| `StrongCoupling.ComputeExact` | src/eko/strong_coupling.py:322-366 | order 0 falls back to the expanded formula; higher orders are the RGE solution at u = beta_0 log(scale_to/scale_from) with the b coefficients |
| `StrongCoupling.ExactAtSameScale` | src/eko/strong_coupling.py:322-366 | between equal scales the exact solver also returns as_ref (given an RGE solver that is the identity at u = 0) |
| `StrongCoupling.Compute` | src/eko/strong_coupling.py:368-395 | "exact" dispatches to the exact solver and anything else to the expanded one |
| `StrongCoupling.MethodsAgreeAtLO` | src/eko/strong_coupling.py:343-344 | at LO the exact and expanded methods give the same coupling |
| `StrongCoupling.MethodOfModEv` | src/eko/strong_coupling.py:261-270 | ModEv missing or EXA gives exact; TRN, EXP and perturbative-expanded give expanded; anything else is a ValueError |
| `StrongCoupling.MethodOfName` | src/eko/strong_coupling.py:212-214 | only "exact" and "expanded" name a method |
| `StrongCoupling.MatchingCoefficients` | src/eko/strong_coupling.py:428-435 | the first-order coefficient c1 vanishes exactly when L = 0, and there c2 is the constant +-14/3, negative when the next area has fewer flavours |
| `StrongCoupling.MatchingDirections` | src/eko/strong_coupling.py:428-435 | for every L the downward coefficients are the upward ones at -L except for the sign of the constant 14/3 in c2: c1 flips sign, and the upward c2 exceeds the downward one by 76/3 L + 28/3 |
| `StrongCoupling.ShiftOrders` | src/eko/strong_coupling.py:437-440 | the order-1 shift adds c1 a^2 to the coupling, the order-2 shift adds c2 a^3 on top of the order-1 shift, and every other order leaves the coupling unchanged |
| `StrongCoupling.ShiftAtZeroLog` | src/eko/strong_coupling.py:437-440 | at L = 0 the order-0 and order-1 shifts are the identity, while the order-2 shift keeps the term +-14/3 a^3 |
| `StrongCoupling.WalkOfEmptySteps` | src/eko/strong_coupling.py:417-421 | when every step of the path starts and ends at the same point, the walk returns the coupling it started with |
| `StrongCoupling.AtlasAsWrittenLosesFlavour` | src/eko/strong_coupling.py:222-225 | as written, a FONLL-A atlas with one wall and min_nf = 4 is rebuilt for the coupling with min_nf = 3, so above the wall the coupling runs with nf = 4 where the atlas has 5 |
| `StrongCoupling.AtlasKeepsFlavours` | src/eko/strong_coupling.py:218-225 | with the lowest flavour number passed on, every area of the coupling's atlas has the nf of the matching area of the given atlas |
| `StrongCoupling.Coupling.Init` | src/eko/strong_coupling.py:211-217 | the constructor stores as_ref, order, method and the threshold holder |
| `StrongCoupling.Coupling.New` | src/eko/strong_coupling.py:194-229 | fails exactly when alpha_s_ref <= 0 or scale_ref <= 0 (ValueError), order is not 0, 1 or 2 (NotImplementedError), or the method is unknown (ValueError); otherwise as_ref = alpha_s_ref/(4 pi) and the atlas is rebuilt at scale_ref: FFNS with nf_ref, any other scheme with the sorted walls and, as written, the default lowest flavour number 3 whatever min_nf the given atlas has (see Findings) |
| `StrongCoupling.Coupling.AS` | src/eko/strong_coupling.py:397-442 | `a_s` is the walk of the area path from q2_ref to scale_to, with L = log(scale_to/fact_scale) and fact_scale defaulting to scale_to |
| `StrongCoupling.Coupling.RunPath` | src/eko/strong_coupling.py:417-442 | the loop equals the walk: empty steps skipped, each area run from its q2_ref towards the target, the matching shift applied only when another area follows |
| `StrongCoupling.Coupling.AtReferenceScale` | src/eko/strong_coupling.py:412-442 | `a_s(q2_ref)` is as_ref: the path is the reference area alone and its only step is empty |
| `AlphaS.AgreesWithStrongCoupling` | src/eko/alpha_s.py:49-111 | with C_A = 3, C_F = 4/3, T_f = 1/2 the three coefficients equal those of the strong coupling module, and beta_0 is the same for every C_F |
| `AlphaS.ValuesAtFiveFlavours` | src/eko/alpha_s.py:49-78 | at nf = 5, beta_0 = 23/3 and beta_1 = 116/3 |
| `AlphaS.Beta2IsQuadratic` | src/eko/alpha_s.py:104-111 | beta_2 has a constant second difference in nf, 2 (44/9 C_F + 158/27 C_A) T_f^2, so it is of degree two |
| `AlphaS.AlphaSGenerated` | src/eko/alpha_s.py:145-166 | the generated function raises NotImplementedError exactly for order != 0; at order 0 its value times 4 pi + beta_0 alpha_s_ref L is alpha_s_ref |
| `AlphaS.AtReferenceScale` | src/eko/alpha_s.py:160-162 | at scale_to = scale_ref the LO generator returns alpha_s_ref/(4 pi) |
| `AlphaS.AgreesWithExpandedLO` | src/eko/alpha_s.py:160-162 | the LO generator equals the expanded LO coupling of the strong coupling module started from alpha_s_ref/(4 pi) |
| `Gamma.GammaOf` | src/eko/gamma.py:100-129 | defined exactly for order 0..3, where it is gamma_0..gamma_3; any other order is a ValueError |
| `Gamma.Gamma0IsConstant` | src/eko/gamma.py:24 | gamma_0 = 4 for every nf |
| `Gamma.Gamma1IsLinear` | src/eko/gamma.py:44 | gamma_1 = 202/3 - 20/9 nf falls by 20/9 with each flavour |
| `Gamma.Gamma2IsQuadratic` | src/eko/gamma.py:64 | gamma_2 has constant second difference -280/81 in nf: it is of degree two |
| `Gamma.Gamma3IsCubic` | src/eko/gamma.py:84-97 | gamma_3 has constant third difference 6 (332/243 + 64/27 zeta_3) in nf: it is of degree three |
| `Constants.Constants.constructor` | src/eko/constants.py:32-38 | the attributes are NC = 3, TF = 1/2, CA = 3, CF = (NC^2 - 1)/(2 NC), set in that order, and the object ends locked |
| `Constants.Constants.SetLock` | src/eko/constants.py:40-45 | the lock setter writes `_lock` straight into the instance dictionary and nothing else changes |
| `Constants.Constants.SetAttr` | src/eko/constants.py:47-50 | once locked every assignment raises AttributeError and changes nothing; unlocked, `lock` goes to the setter and any other name is stored |
| `Constants.Constants.Dict` | src/eko/constants.py:52-63 | the result holds exactly the attributes whose names do not start with "_", with their values |
| `Constants.FreshDict` | src/eko/constants.py:32-63 | a freshly built object's `dict()` is [NC = 3, TF = 1/2, CA = 3, CF = 4/3] |
| `Harmonics.S1Values` | src/eko/splitting_functions.py:27-40 | the harmonic sum S_1 at 0..4 is 0, 1, 3/2, 11/6, 25/12 |
| `Harmonics.S1Bounds` | src/eko/harmonics/w1.py:13-37 | S_1(N) = 1 + 1/2 + ... + 1/N is 0 at N = 0 and lies between 1 and N from N = 1 on |
| `Harmonics.S2Bounds` | src/eko/harmonics/__init__.py:63-64 | S_2(N) = 1 + 1/4 + ... + 1/N^2 is 0 at N = 0 and lies between 1 and 2 - 1/N from N = 1 on |
| `Harmonics.TermBelowDifference` | src/eko/harmonics/__init__.py:63-64 | each term 1/n^2 of S_2 is at most 1/(n-1) - 1/n, the step of the telescoping bound |
| `Harmonics.S1Around` | src/eko/anomalous_dimensions/lo.py:99-161 | S_1 at N-2, N-1, N+1 and N+2 in terms of S_1(N), the shifts the LO kernels combine |
| `LeadingOrder.GammaSinglet0` | src/eko/anomalous_dimensions/lo.py:167-206 | the singlet matrix is [[ns + ps, qg], [gq, gg]] |
| `LeadingOrder.GammaNs0` | src/eko/anomalous_dimensions/lo.py:14-41 | gamma_ns^(0) = C_F (2 (S_1(N-1) + S_1(N+1)) - 3) equals C_F (4 S_1(N) - 3 - 2/N + 2/(N+1)), independent of nf and C_A |
| `LeadingOrder.GammaPs0` | src/eko/anomalous_dimensions/lo.py:45-70 | the pure-singlet part vanishes at LO |
| `LeadingOrder.GammaQg0` | src/eko/anomalous_dimensions/lo.py:74-101 | gamma_qg^(0) = 2 nf (-1/N + 2/(N+1) - 2/(N+2)): the harmonic sums cancel |
| `LeadingOrder.GammaGq0` | src/eko/anomalous_dimensions/lo.py:105-132 | gamma_gq^(0) = 2 C_F (2/N - 2/(N-1) - 1/(N+1)) |
| `LeadingOrder.GammaGg0` | src/eko/anomalous_dimensions/lo.py:136-163 | gamma_gg^(0) = C_A (4 (S_1(N) + 1/N - 1/(N-1) - 1/(N+1) + 1/(N+2)) - 11/3) + 2/3 nf |
| `LeadingOrder.QuarkNumberConservation` | src/eko/anomalous_dimensions/lo.py:39-41 | gamma_ns^(0)(1) = 0 |
| `LeadingOrder.QuarkMomentumConservation` | src/eko/anomalous_dimensions/lo.py:39-132 | gamma_ns^(0)(2) + gamma_gq^(0)(2) = 0 |
| `LeadingOrder.GluonMomentumConservation` | src/eko/anomalous_dimensions/lo.py:99-163 | gamma_qg^(0)(2) + gamma_gg^(0)(2) = 0 for every nf |
| `LeadingOrder.QgAtFirstMoment` | src/eko/anomalous_dimensions/lo.py:99-101 | gamma_qg^(0)(1) = -20/3 at nf = 5 |
| `LeadingOrder.EigensystemSinglet0` | src/eko/anomalous_dimensions/lo.py:210-248 | the returned eigenvalues are the given ones and the projectors e_p, e_m always sum to the identity |
| `LeadingOrder.Eigensystem0Projects` | src/eko/anomalous_dimensions/lo.py:244-248 | when the eigenvalues are those of gamma_S^(0), the projectors are orthogonal and idempotent |
| `SplittingFunctions.S1PsiIsHarmonic` | src/eko/splitting_functions.py:27-40 | on the naturals `_S1(N)` = psi(N+1) + gamma_E is the harmonic sum 1 + 1/2 + ... + 1/N |
| `SplittingFunctions.AgreesWithLeadingOrder` | src/eko/splitting_functions.py:42-164 | at integer moments the five splitting-function kernels equal the LO anomalous dimensions |
| `SplittingFunctions.NsAgrees` | src/eko/splitting_functions.py:64-65 | gamma_ns_0 here equals the LO gamma_ns^(0) |
| `SplittingFunctions.QgAgrees` | src/eko/splitting_functions.py:113-114 | gamma_qg_0 = 2 nf (S_1(N-1) + 4 S_1(N+1) - 2 S_1(N+2) - 3 S_1(N)) equals the LO gamma_qg^(0) |
| `SplittingFunctions.GqAgrees` | src/eko/splitting_functions.py:138-139 | gamma_gq_0 = 2 C_F (2 S_1(N-2) - 4 S_1(N-1) - S_1(N+1) + 3 S_1(N)) equals the LO gamma_gq^(0) |
| `SplittingFunctions.GgAgrees` | src/eko/splitting_functions.py:163-164 | gamma_gg_0 = C_A (4 f - 11/3) + 2/3 nf equals the LO gamma_gg^(0) |
| `SplittingFunctions.QuarkNumberConservation` | src/eko/splitting_functions.py:64-65 | gamma_ns_0(1) = 0 |
| `SplittingFunctions.GluonMomentumConservation` | src/eko/splitting_functions.py:113-164 | gamma_qg_0(2) + gamma_gg_0(2) = 0 |
| `As1Aem1.GluonPhotonProportionality` | src/eko/anomalous_dimensions/as1aem1.py:134-245 | gamma_qg = T_R/(C_F C_A) gamma_qph, gamma_phg = T_R/(C_F C_A) gamma_gph, gamma_gg/gamma_phph is the same ratio, and gamma_gq = gamma_phq for every input |
| `As1Aem1.FlavourIndependent` | src/eko/anomalous_dimensions/as1aem1.py:18-103 | gamma_phq and gamma_qph do not depend on nf |
| `As1Aem1.ValenceIsMinus` | src/eko/anomalous_dimensions/as1aem1.py:383-405 | gamma_nsV equals gamma_nsm |
| `As1Aem1.PhotonColumnMomentum` | src/eko/anomalous_dimensions/as1aem1.py:58-225 | at N = 2, gamma_gph = 160/27, gamma_qph = -296/27, and gamma_gph + gamma_phph + 2 gamma_qph = 0 (gamma_phph = 4 C_F C_A) |
| `As1Aem1.GluonColumnMomentum` | src/eko/anomalous_dimensions/as1aem1.py:134-245 | at N = 2, gamma_phg + gamma_gg + 2 gamma_qg = 0 (gamma_gg = 4 T_R) |
| `As1Aem1.PhotonQuarkAtSecondMoment` | src/eko/anomalous_dimensions/as1aem1.py:18-205 | gamma_phq(2) = gamma_gq(2) = 448/81 |
| `As1Aem1.NspRationalWeight` | src/eko/anomalous_dimensions/as1aem1.py:296-306 | in the rational term of gamma_ns+ the factor N^3 (1+N)^3 cancels, so g_3(N) + g_3(N+2) enters it with weight 32 |
| `As1Aem1.NsmRationalWeight` | src/eko/anomalous_dimensions/as1aem1.py:362-372 | in the rational term of gamma_ns- g_3(N) + g_3(N+2) enters with weight -96/3 = -32 |
| `As1Aem1.NspG3Weight` | src/eko/anomalous_dimensions/as1aem1.py:249-312 | changing the g_3 values changes gamma_ns+ by exactly 32 C_F times the change of g_3(N) + g_3(N+2), whatever the other sums |
| `As1Aem1.NsmG3Weight` | src/eko/anomalous_dimensions/as1aem1.py:316-379 | changing the g_3 values changes gamma_ns- by exactly -32 C_F times the change of g_3(N) + g_3(N+2) |
| `As1Aem1.PlusMinusFreeOfG3` | src/eko/anomalous_dimensions/as1aem1.py:249-379 | gamma_ns+ + gamma_ns- does not depend on the g_3 values |
| `AnomalousDimensions.ExpSinglet` | src/eko/anomalous_dimensions/__init__.py:62-73 | lambda_p - lambda_m = det, lambda_p + lambda_m is the trace, e_p + e_m = I whenever det != 0, and exp = e_m exp(lambda_m) + e_p exp(lambda_p) |
| `AnomalousDimensions.ProjectorsSum` | src/eko/anomalous_dimensions/__init__.py:69-71 | (g - lambda_m I)/det - (g - lambda_p I)/det = I whenever lambda_p - lambda_m = det != 0 |
| `AnomalousDimensions.CayleyHamilton` | src/eko/anomalous_dimensions/__init__.py:65-71 | with lambda_p + lambda_m the trace and lambda_p lambda_m the determinant, (g - lambda_m I)(g - lambda_p I) = 0 |
| `AnomalousDimensions.EigenvalueProduct` | src/eko/anomalous_dimensions/__init__.py:62-66 | when det^2 is the discriminant, lambda_p lambda_m is the determinant of gamma_S |
| `AnomalousDimensions.ProjectorsAnnihilate` | src/eko/anomalous_dimensions/__init__.py:62-71 | with det a true square root, the projector factors of `exp_singlet` annihilate each other |
| `AnomalousDimensions.GammaNs` | src/eko/anomalous_dimensions/__init__.py:131-207 | the filled vector equals the non-singlet tower `NsTower` (or the same error) |
| `AnomalousDimensions.NsTowerShape` | src/eko/anomalous_dimensions/__init__.py:177-206 | the tower has order[0] entries with the LO kernel first; it fails exactly for order[0] <= 0 or, beyond LO, for a mode other than 10101, 10201, 10200; the valence NLO entry is the ns- one; entry 2 of the valence tower is nsv; entries past N3LO stay 0 |
| `AnomalousDimensions.GammaSinglet` | src/eko/anomalous_dimensions/__init__.py:211-261 | the filled array equals the singlet tower `SingletTower` |
| `AnomalousDimensions.SingletTowerShape` | src/eko/anomalous_dimensions/__init__.py:253-261 | order[0] matrices, entry k from the (k+1)-loop kernel; it fails only for order[0] <= 0 |
| `AnomalousDimensions.E2` | src/eko/anomalous_dimensions/__init__.py:339-358 | e_u^2 for the modes ns-u and ns+u, e_d^2 for ns-d and ns+d, NotImplementedError for every other mode |
| `AnomalousDimensions.GammaNsQed` | src/eko/anomalous_dimensions/__init__.py:265-336 | the filled table equals `QedNsTable`, including its NotImplementedError cases; this is the intended dispatch, which the code as written cannot run (see Left out) |
| `AnomalousDimensions.FillMixedAndNnlo` | src/eko/anomalous_dimensions/__init__.py:307-320 | the a_s a_em slot gets the squared charge times the ns+ or ns- kernel, the a_s^2 slot the ns+ or ns- kernel; an a_s^2 slot outside the four QED modes is a NotImplementedError and nothing else fails; this is the intended dispatch, which the code as written cannot run (see Left out) |
| `AnomalousDimensions.MixedEntry` | src/eko/anomalous_dimensions/__init__.py:307-311 | in a QED mode the a_s a_em entry is e2(mode) times the plus kernel for 10102/10103 and the minus kernel otherwise |
| `AnomalousDimensions.QedNsTableShape` | src/eko/anomalous_dimensions/__init__.py:302-335 | an (order[0]+1) x (order[1]+1) table whose [0,0] entry stays 0, with [1,0] the LO kernel and [0,1] e2(mode) times the QED LO kernel; it fails exactly when a QED or NLO entry is needed in a non-QED mode |
| `AnomalousDimensions.Put` | src/eko/anomalous_dimensions/__init__.py:302-335 | writing the kernel of the next slot advances the partially filled table by one stage |
| `AnomalousDimensions.FillPureQed` | src/eko/anomalous_dimensions/__init__.py:321-335 | the a_em^2 slot gets the charge-weighted kernel of its mode and the a_s^3 slot the ns+ or ns- kernel |
| `AnomalousDimensions.WrittenIsTable` | src/eko/anomalous_dimensions/__init__.py:302-336 | a table with every slot written is exactly `QedNsTable` |
| `AnomalousDimensions.QedMatrixTower` | src/eko/anomalous_dimensions/__init__.py:393-456 | the shared fill: (order[0]+1) x (order[1]+1) entries with the a_s^i a_em^j kernel in slot (i, j), zero elsewhere |
| `AnomalousDimensions.GammaSingletQed` | src/eko/anomalous_dimensions/__init__.py:362-406 | the table of 4x4 kernels, with [3,0] filled only when order[0] == 3; this is the intended dispatch, which the code as written cannot run (see Left out) |
| `AnomalousDimensions.GammaValenceQed` | src/eko/anomalous_dimensions/__init__.py:410-456 | the table of 2x2 valence kernels with the same layout; this is the intended dispatch, which the code as written cannot run (see Left out) |
| `AnomalousDimensions.QedMatrixEntryFacts` | src/eko/anomalous_dimensions/__init__.py:393-405 | slot [0,0] is always zero and slot [3,0] is filled only when order[0] is exactly 3 |
| `MatchingNlo.ASinglet1` | src/eko/matching_conditions/nlo.py:120-154 | a 3x3 matrix whose only non-zero column is column 0: A_gg at [0,0] and A_Hg at both [1,0] and [2,0] |
| `MatchingNlo.ASinglet1Intrinsic` | src/eko/matching_conditions/nlo.py:157-191 | equal to `A_singlet_1` except [0,2] = A_gH^(1) and [2,2] = A_HH^(1) |
| `MatchingNlo.ANs1Intrinsic` | src/eko/matching_conditions/nlo.py:194-220 | [[0, 0], [0, A_HH^(1)]] |
| `MatchingNlo.LightOmesVanishAtThreshold` | src/eko/matching_conditions/nlo.py:51-117 | A_Hg^(1) = 2 (2 + n + n^2)/(n (n+1)(n+2)) L and A_gg^(1) = -2/3 L are proportional to L, so both vanish at L = 0 |
| `MatchingNlo.SingletVanishesAtThreshold` | src/eko/matching_conditions/nlo.py:149-154 | at L = 0 the whole `A_singlet_1` matrix is zero |
| `MatchingNlo.HeavyQuarkNumber` | src/eko/matching_conditions/nlo.py:20-48 | A_HH^(1) = -2 C_F (ahh_l + ahh), with S_1, S_2 at n - 1, vanishes at n = 1 for every L |
| `MatchingNlo.HeavyColumnMomentum` | src/eko/matching_conditions/nlo.py:36-96 | at n = 2, A_gH^(1) = 2 C_F (17/9 + 4/3 L) = -A_HH^(1), so the heavy column conserves momentum |
| `MatchingNlo.GluonColumnMomentum` | src/eko/matching_conditions/nlo.py:51-117 | at n = 2, A_Hg^(1) = 2/3 L and A_gg^(1) + A_Hg^(1) = 0 |
| `MatchingNlo.IntrinsicHeavyColumnMomentum` | src/eko/matching_conditions/nlo.py:188-191 | the heavy column of `A_singlet_1_intrinsic` sums to zero at n = 2 |
| `MatchingAs3.Slice` | src/eko/matching_conditions/as3/__init__.py:77-80 | single sums are column 0 of the cache, minus sums its last column, and the weight-3 and weight-4 sums rows 2 and 3 from column 1 on |
| `MatchingAs3.ASinglet` | src/eko/matching_conditions/as3/__init__.py:40-99 | a 3x3 matrix with rows (gg, gq), (qg, qqPS + qqNS), (Hg, Hq), each element fed its slices, and a zero third column |
| `MatchingAs3.ANs` | src/eko/matching_conditions/as3/__init__.py:103-143 | a 2x2 matrix whose only non-zero entry is [0,0] = A_qqNS |
| `MatchingAs3.SingletContainsNonSinglet` | src/eko/matching_conditions/as3/__init__.py:94-143 | the light-quark diagonal of `A_singlet` is `A_ns`[0,0] plus A_qqPS |
| `MatchingAs3.SliceDependsOnSlicedEntries` | src/eko/matching_conditions/as3/__init__.py:77-80 | two caches that agree on column 0, the last column and rows 2 and 3 give the same slices |
| `ScaleVariations.GammaVariation` | src/eko/scale_variations/exponentiated.py:11-52 | rewrites the tower in place, highest entry first, so that its new contents are the exponentiated variation of its old contents: gamma[3] loses the N3LO shift, gamma[2] the NNLO shift and gamma[1] beta_0 gamma_0 L, each computed from the original lower entries |
| `ScaleVariations.GammaNsFact` | src/eko/scale_variations/a.py:13-42 | rewrites gamma[2] and then gamma[1] in place so that the new tower is the scheme-A variation of the old one |
| `ScaleVariations.GammaSingletFact` | src/eko/scale_variations/a.py:46-74 | the same top-down scheme-A update on a tower of 2x2 singlet matrices |
| `ScaleVariations.VariationsKeepEntries` | src/eko/scale_variations/exponentiated.py:35-51 | gamma[0] is never changed, scheme A leaves every entry from gamma[3] on and the exponentiated scheme every entry from gamma[4] on, and at order 0 both leave the tower as it was |
| `ScaleVariations.CentralScaleIsIdentity` | src/eko/scale_variations/a.py:35-41 | at L = 0 neither scheme changes the tower |
| `ScaleVariations.SchemesAgreeUpToNnlo` | src/eko/scale_variations/a.py:35-41 | up to order 2 the exponentiated scheme and scheme A give the same tower |
| `ScaleVariations.SingletIsComponentwise` | src/eko/scale_variations/a.py:67-73 | the singlet update acts on the qq component of each matrix exactly as the non-singlet update acts on numbers |
| `SingletEvolution.RSpec` | src/eko/kernels/singlet.py:162-196 | the R vector has max_order + 1 entries |
| `SingletEvolution.RVec` | src/eko/kernels/singlet.py:162-196 | R_0 = gamma_0 / beta_0, R_1 = gamma_1 / beta_0 - b_1 R_0, the later entries -b_1 times the one before in exact mode and zero in expanded mode |
| `SingletEvolution.FillExact` | src/eko/kernels/singlet.py:193-195 | the exact-mode loop leaves every entry equal to its place in the R vector |
| `SingletEvolution.RClosedForm` | src/eko/kernels/singlet.py:186-196 | in exact mode R_k = (-b_1)^(k-1) R_1 for every k >= 1; in expanded mode every R_k from k = 2 on is zero |
| `SingletEvolution.RModesShareLeadingTerms` | src/eko/kernels/singlet.py:200-248 | `nlo_r_exact` and `nlo_r_expanded` agree on R_0 and R_1 |
| `SingletEvolution.USpec` | src/eko/kernels/singlet.py:252-287 | the U vector has max_order + 1 entries |
| `SingletEvolution.UVec` | src/eko/kernels/singlet.py:252-287 | U_0 = I and each U_k is built by the eigen-projector formula from R'_k, the sum of R_(k-j) U_j over j < k |
| `SingletEvolution.USpecPrefix` | src/eko/kernels/singlet.py:276-286 | U_0 .. U_m do not depend on how far the vector is taken |
| `SingletEvolution.UFirstTerms` | src/eko/kernels/singlet.py:274-286 | U_0 is the identity and U_1 is built from R_1 alone |
| `SingletEvolution.SumU` | src/eko/kernels/singlet.py:291-319 | the result is the sum of a^k U_k over the whole vector |
| `SingletEvolution.SumUAtZero` | src/eko/kernels/singlet.py:311-315 | at a = 0 the sum is U_0 |
| `SingletEvolution.UAtZeroIsIdentity` | src/eko/kernels/singlet.py:252-319 | summing the U vector at a = 0 gives the identity |
| `SingletEvolution.PowZero` | src/eko/kernels/singlet.py:311-315 | the running power of a vanishes at a = 0 after the first term |
| `SingletEvolution.PathAppend` | src/eko/kernels/singlet.py:145-157 | evolving along s and then t gives the product of t's steps times s's steps, t on the left |
| `SingletEvolution.PathSplit` | src/eko/kernels/singlet.py:145-157 | cutting the step list anywhere splits the accumulated product, the later part acting last |
| `SingletEvolution.PathOfTwo` | src/eko/kernels/singlet.py:156 | two steps compose as s_1 s_0 |
| `SingletEvolution.IterateSteps` | src/eko/kernels/singlet.py:142-157 | one step per pair of consecutive grid points |
| `SingletEvolution.NloIterate` | src/eko/kernels/singlet.py:120-158 | the result is the ordered product of the steps exp((gamma_0 a + gamma_1 a^2) / (beta_0 a^2 + beta_1 a^3) delta_a) at the midpoints, each new step on the left |
| `SingletEvolution.TruncatedSteps` | src/eko/kernels/singlet.py:467-473 | one truncated step per pair of consecutive grid points |
| `SingletEvolution.NloTruncated` | src/eko/kernels/singlet.py:441-474 | the result is the ordered product of e0 + a_h U_1 e0 - a_l e0 U_1, with U_1 from the expanded R vector of order one |
| `SingletEvolution.Inverse` | src/eko/kernels/singlet.py:362 | the inverse of U(a_l) is a right inverse: U(a_l) times it is the identity |
| `SingletEvolution.PerturbativeSteps` | src/eko/kernels/singlet.py:355-364 | one perturbative step per pair of consecutive grid points |
| `SingletEvolution.NloPerturbative` | src/eko/kernels/singlet.py:323-437 | the result is the ordered product of U(a_h) e0 U(a_l)^-1, with R and U computed in the requested mode |
| `SingletEvolution.DispatcherLo` | src/eko/kernels/singlet.py:477-493 | at LO the exact kernel is used whatever the method |
| `SingletEvolution.DispatcherNlo` | src/eko/kernels/singlet.py:496-522 | a kernel exactly for the eight known methods, a ValueError otherwise, and both truncated methods share the truncated kernel |
| `SingletEvolution.DispatcherNloChoices` | src/eko/kernels/singlet.py:510-519 | both iterate methods share one kernel, while the exact and expanded decompose (and perturbative) methods get different kernels |
| `KernelDispatch.CheckMethod` | src/eko/kernels/__init__.py:206-218 | a method is accepted exactly when it is one of the eight known ones, unchanged; any other is a ValueError |
| `KernelDispatch.AcceptedMethodsHaveKernels` | src/eko/kernels/__init__.py:208-218 | the dispatcher accepts exactly the methods for which `dispatcher_nlo` has a singlet kernel |
| `KernelDispatch.ModEvToMethod` | src/eko/kernels/__init__.py:253-258 | EXA, EXP and TRN become iterate-exact, iterate-expanded and truncated; any other name passes through |
| `KernelDispatch.ConfigFromSetup` | src/eko/kernels/__init__.py:229-262 | a missing PTO is a KeyError; ModEv defaults to iterate-exact; both evolution settings default to 10; the result always carries an accepted method and the card's order |
| `KernelDispatch.FromSetupAccepts` | src/eko/kernels/__init__.py:229-262 | a card with PTO and ModEv is accepted exactly when ModEv is a short name or one of the eight methods |
| `KernelDispatch.Beta1NonZero` | src/eko/kernels/__init__.py:273-278 | beta_1 never vanishes for an integer nf, so the exact j11 can divide by it |
| `KernelDispatch.LoopVars` | src/eko/kernels/__init__.py:264-306 | after `init_loops` the variables hold nf, a1, a0, beta_0 and j00 = ln(a1/a0)/beta_0, and above LO also beta_1, b1, j11, j01 = j00 - b1 j11 and the coupling grid; at LO nothing else is added and nothing earlier is dropped |
| `KernelDispatch.NoEvolutionNoIntegral` | src/eko/kernels/__init__.py:268-283 | with a1 = a0 both j00 and j11 vanish for every method |
| `KernelDispatch.ExactJ11AtSameCoupling` | src/eko/kernels/__init__.py:277-280 | the exact j11 vanishes when both couplings agree |
| `KernelDispatch.ExactJ11OfVanishes` | src/eko/kernels/__init__.py:278-280 | ln(1)/beta_1 = 0 |
| `KernelDispatch.NloVarsEntries` | src/eko/kernels/__init__.py:270-286 | the NLO variables are beta_1, b1, j11, j01 and the grid, written over the earlier dictionary |
| `KernelDispatch.KernelDispatcher.constructor` | src/eko/kernels/__init__.py:204-226 | stores the checked configuration with an empty variable dictionary |
| `KernelDispatch.KernelDispatcher.InitLo` | src/eko/kernels/__init__.py:264-268 | adds beta_0 and j00 and changes nothing else |
| `KernelDispatch.KernelDispatcher.InitNlo` | src/eko/kernels/__init__.py:270-286 | adds beta_1, b1, the method's j11 (exact for iterate-exact and decompose-exact, expanded otherwise), j01 and the grid |
| `KernelDispatch.KernelDispatcher.InitLoops` | src/eko/kernels/__init__.py:288-306 | the new dictionary is `LoopVars` of the old one |
| `KernelDispatch.FromDict` | src/eko/kernels/__init__.py:229-262 | a dispatcher is built exactly when the card is accepted, with that configuration and no variables; otherwise the card's error |
| `KernelDispatch.IsSinglet` | src/eko/kernels/__init__.py:37-40 | true exactly when the mode starts with S; an empty mode is an IndexError |
| `KernelDispatch.PathParams` | src/eko/kernels/__init__.py:42-53 | (0.5, 0) outside the singlet sector; in it, o = 1 and r (1 - log x) = 6.4, with log x = 1 a ZeroDivisionError and an empty mode an IndexError |
| `KernelDispatch.SingletRadiusPositive` | src/eko/kernels/__init__.py:51-52 | the singlet Talbot radius is positive for every x < 1 |
| `KernelDispatch.ExtraArgsNs` | src/eko/kernels/__init__.py:63-69 | the number of iterations is passed exactly at order 1 with a truncated method |
| `KernelDispatch.ExtraArgsS` | src/eko/kernels/__init__.py:71-82 | the number of iterations is passed exactly at order 1 with a truncated or iterate method |
| `KernelDispatch.ExtraArgsNsWithinS` | src/eko/kernels/__init__.py:63-82 | whatever the non-singlet kernel receives, the singlet kernel receives too |
| `KernelDispatch.ComputeNsKernel` | src/eko/kernels/__init__.py:84-118 | the LO dispatcher at order 0 and the NLO one at order 1, with the configured method; at any other order no kernel is bound (UnboundLocalError) |
| `KernelDispatch.ComputeSingletKernel` | src/eko/kernels/__init__.py:120-153 | the exact LO kernel at order 0; above it always `nlo_iterate`, which succeeds only when the singlet extra arguments carry the number of iterations, a TypeError otherwise |
| `KernelDispatch.SingletKernelIgnoresMethod` | src/eko/kernels/__init__.py:147-153 | at NLO a decompose or perturbative method ends in a TypeError, and a truncated method gets the iterated kernel although `dispatcher_nlo` names the truncated one |
| `KernelDispatch.DispatchedSingletKernel` | src/eko/kernels/singlet.py:477-522 | the singlet kernel chosen through `dispatcher_lo` at order 0 and `dispatcher_nlo` at order 1 |
| `KernelDispatch.DispatchedKernelExists` | src/eko/kernels/__init__.py:204-218 | through the dispatchers every accepted configuration has a kernel at LO and NLO, and for the iterate methods it is the one `compute_singlet` calls |
| `KernelDispatch.SingletElement` | src/eko/kernels/__init__.py:181-184 | the element (k, l) has k = 0 exactly when the third letter of the mode is q and l = 0 exactly when the fourth is; a mode shorter than four letters is an IndexError |
| `KernelDispatch.SingletLabelsSelectEntries` | src/eko/kernels/__init__.py:181-184 | S_qq, S_qg, S_gq and S_gg select the four entries of the 2x2 kernel |
| `KernelDispatch.Integrand` | src/eko/kernels/__init__.py:155-189 | 0 when the basis function vanishes at n; otherwise pi times the result is the imaginary part of ker pj jac |
| `KernelDispatch.PrefactorTakesImaginaryPart` | src/eko/kernels/__init__.py:188-189 | the real part of (-i/pi) z is Im(z)/pi |
| `Operator.GammaNsFact` | src/eko/operator/operator.py:25-30 | above LO gamma[1] loses beta_0 gamma[0] L in place; the new tower is the scheme-A variation cut at NLO of the old one |
| `Operator.GammaSingletFact` | src/eko/operator/operator.py:33-42 | the same shift in place on a tower of 2x2 singlet matrices |
| `Operator.OnlyNloShifted` | src/eko/operator/operator.py:28-29 | only gamma[1] moves, by beta_0 gamma[0] L and only above LO; every other entry is kept at every order |
| `Operator.OnlyNloShiftedM2` | src/eko/operator/operator.py:40-41 | the singlet shift moves only gamma[1], by beta_0 L gamma[0] |
| `Operator.QuadKer` | src/eko/operator/operator.py:45-138 | an empty mode is an IndexError and a singlet mode at log x = 1 a ZeroDivisionError; 0 when the basis function vanishes; otherwise pi times the result is Im(ker pj jac), with ker the non-singlet kernel or the singlet element the mode's third and fourth letters select, and a singlet mode shorter than four letters an IndexError |
| `Operator.Labels` | src/eko/operator/operator.py:207-230 | NS_p unless the non-singlet sector is skipped, NS_m too above LO, the four singlet labels unless the singlet sector is skipped, never NS_v, every label a sector and none twice |
| `Operator.Table` | src/eko/operator/operator.py:240-278 | each table is grid_size x grid_size |
| `Operator.Computed` | src/eko/operator/operator.py:240-278 | the computed members are exactly the seven sectors |
| `Operator.CopyNs` | src/eko/operator/operator.py:292-301 | the copy keeps the set of members |
| `Operator.CopyNsMeaning` | src/eko/operator/operator.py:292-301 | at LO NS_m and NS_v carry NS_p's value and error, at NLO NS_v carries NS_m's, above NLO nothing changes; names and every other member are kept |
| `Operator.ComputedNonSinglets` | src/eko/operator/operator.py:216-301 | after `compute`, at LO NS_m and NS_v hold the NS_p integrals and at NLO NS_v holds the NS_m integrals; unskipped singlet members hold their own integrals |
| `Operator.NextRow` | src/eko/operator/operator.py:252-278 | finishing the basis functions of output point k is starting output point k + 1 |
| `Operator.NextCell` | src/eko/operator/operator.py:255-278 | finishing the labels at (k, l) is starting (k, l + 1) |
| `Operator.CellsComplete` | src/eko/operator/operator.py:238-278 | once the fill loops are over, the members are the earlier ones with the seven computed sectors laid over them |
| `Operator.SectorComplete` | src/eko/operator/operator.py:238-278 | after the fill loops every computed sector holds exactly its value table and its error table |
| `Operator.Operator.constructor` | src/eko/operator/operator.py:161-169 | a new operator holds no members |
| `Operator.Operator.Compute` | src/eko/operator/operator.py:232-290 | the members become the seven computed sectors laid over the old ones, then passed through `copy_ns_ops` |
| `Operator.Operator.FillMembers` | src/eko/operator/operator.py:238-278 | zero members for the seven sectors, then every integral of the labels written in its entry |
| `Operator.Operator.InitZeros` | src/eko/operator/operator.py:238-243 | the seven sectors become grid_size x grid_size zero members under their own names |
| `Operator.Operator.FillAll` | src/eko/operator/operator.py:252-278 | the loop over the output grid writes every entry |
| `Operator.Operator.FillRow` | src/eko/operator/operator.py:255-278 | the loop over the basis functions writes row k |
| `Operator.Operator.FillCell` | src/eko/operator/operator.py:257-278 | the loop over the labels writes entry (k, l) of every computed sector |
| `Operator.Operator.WriteLabel` | src/eko/operator/operator.py:259-278 | value and error of one label written into entry (k, l) of its member, nothing else changed |
| `Operator.Operator.CopyNsOps` | src/eko/operator/operator.py:292-301 | the members become `CopyNs` of the old ones |
| `EvolutionOperator.SplitNameMeaning` | src/eko/evolution_operator.py:43-53 | a name splits exactly when it has one dot and text on both sides, into the two stripped sides, each non-empty and dot-free; any other name is a ValueError |
| `EvolutionOperator.StripText` | src/eko/evolution_operator.py:49-52 | a side stripped of whitespace is non-empty exactly when it holds a non-space character |
| `EvolutionOperator.StripNoDot` | src/eko/evolution_operator.py:46-50 | stripping a side adds no dot |
| `EvolutionOperator.NameRoundTrip` | src/eko/evolution_operator.py:43-63 | the name `target.input` of two clean labels splits back into exactly that target and input |
| `Common.FindMeaning` | src/eko/evolution_operator.py:68-70 | `str.find` gives the first position where the needle occurs, and -1 exactly when it does not occur |
| `EvolutionOperator.IsPhysicalMeaning` | src/eko/evolution_operator.py:65-71 | a name is physical exactly when none of NS_p, NS_m, NS_v, S_qq, S_qg, S_gq, S_gg occurs in it |
| `EvolutionOperator.RawSectorsAreRaw` | src/eko/evolution_operator.py:65-71 | none of the seven raw sector names is physical |
| `EvolutionOperator.ProductName` | src/eko/evolution_operator.py:104-115 | a physical and a raw member do not multiply; two physical members multiply exactly when both names split and the left input is the right target, giving left.target.right.input; raw names concatenate with a dot |
| `EvolutionOperator.Product` | src/eko/evolution_operator.py:122-127 | the product value is the matrix product L R; each error entry is abs((L E_R)[i][j]) + abs((E_L R)[i][j]), so the error is never negative |
| `EvolutionOperator.ProductExact` | src/eko/evolution_operator.py:122-127 | two factors without error multiply into a product without error |
| `EvolutionOperator.ProductByIdentity` | src/eko/evolution_operator.py:122-127 | multiplying by the exact identity keeps the value, and the error becomes abs(E_L) |
| `EvolutionOperator.Mul` | src/eko/evolution_operator.py:96-127 | a number c gives c times the value, error |c E| and the same name; a member gives the matrix product under the product name, with error entries abs((L E_R)[i][j]) + abs((E_L R)[i][j]), refused as ValueError when the names do not chain or the grids differ; anything else is NotImplementedError |
| `EvolutionOperator.Add` | src/eko/evolution_operator.py:129-156 | only the number 0 may be added and leaves the member as it is; two members add exactly when both are physical with the same name, or both raw, on the same grid, and then values and errors add entrywise under the left name; anything else is NotImplementedError |
| `EvolutionOperator.Neg` | src/eko/evolution_operator.py:158-159 | every value entry is negated and the name kept |
| `EvolutionOperator.Sub` | src/eko/evolution_operator.py:164-165 | subtracting is adding the negation: only the number 0 may be subtracted and leaves the member as it is, anything else but a member is a TypeError, two members subtract exactly when they add and the value entries are the differences |
| `EvolutionOperator.SubSelf` | src/eko/evolution_operator.py:164-165 | a member minus itself succeeds, has value zero and keeps its name |
| `EvolutionOperator.MulByNumber` | src/eko/evolution_operator.py:98-127 | multiplying by a number always succeeds, scales each value entry by c and makes each error entry |c e| |
| `EvolutionOperator.ChainedNames` | src/eko/evolution_operator.py:108-113 | (t.b)(b.i) is named t.i, and a product whose inner labels differ is a ValueError |
| `EvolutionOperator.PathPrefix` | src/eko/evolution_operator.py:195-201 | after k steps of a path the running product exists exactly when k > 0, every name so far is in its step (a KeyError otherwise), and it is square of the first member's size |
| `EvolutionOperator.AddPath` | src/eko/evolution_operator.py:193-202 | the integer 0 plus a member is that member; a successful sum is always a member |
| `EvolutionOperator.JoinOf` | src/eko/evolution_operator.py:193-203 | given each path's product, the total after j paths is a member exactly when j > 0, square like the members it sums |
| `EvolutionOperator.JoinOfPrev` | src/eko/evolution_operator.py:193-203 | a successful join of j paths means the first j - 1 joined and path j's product exists and names something |
| `EvolutionOperator.Join` | src/eko/evolution_operator.py:177-203 | a successful `join` is the integer 0 exactly for an empty list of paths, and a square member otherwise |
| `EvolutionOperator.JoinOkPaths` | src/eko/evolution_operator.py:193-203 | a successful join of j paths means the product along each of them exists and names a member |
| `EvolutionOperator.JoinOkProducts` | src/eko/evolution_operator.py:177-203 | a successful `join` multiplied out every one of its paths into a member |
| `EvolutionOperator.PathErrSticky` | src/eko/evolution_operator.py:196-201 | once a path's product fails it stays failed with the same error |
| `EvolutionOperator.JoinErrSticky` | src/eko/evolution_operator.py:194-202 | once `join` fails it stays failed with the same error |
| `EvolutionOperator.PathFailsAt` | src/eko/evolution_operator.py:196-201 | a path whose step names a missing member fails with a KeyError, and one whose product fails there fails with that product's error |
| `EvolutionOperator.JoinFailsAt` | src/eko/evolution_operator.py:194-202 | a join that fails on one path, through its product or through the sum, ends with that error |
| `EvolutionOperator.ProductAlong` | src/eko/evolution_operator.py:195-201 | the inner loop returns the product of the members the path names, pairing steps and names as `zip` does |
| `EvolutionOperator.JoinPaths` | src/eko/evolution_operator.py:176-203 | the outer loop returns the sum over the paths of each path's product, or the first error |
| `EvolutionOperator.PathValue` | src/eko/evolution_operator.py:196-201 | the product of the values along a path is n x n |
| `EvolutionOperator.PathPrefixValue` | src/eko/evolution_operator.py:196-201 | the running product's value is the product of the named values in path order |
| `EvolutionOperator.JoinOfValue` | src/eko/evolution_operator.py:193-203 | when every product that names something has the given n x n value, a successful join has dimension n and as value the sum of those values |
| `EvolutionOperator.JoinValue` | src/eko/evolution_operator.py:176-203 | the value of a successful join is the sum over the paths of the products of the named values, in path order |
| `EvolutionOperator.AddValue` | src/eko/evolution_operator.py:154 | a successful sum of two members has the sum of their values |
| `EvolutionOperator.CollectPaths` | src/eko/evolution_operator.py:262-275 | the instructions collect exactly the pairs whose left input is the right target, under the key left.target.right.input and in loop order; they fail with a ValueError exactly when both sides are non-empty and some name on either side does not split |
| `EvolutionOperator.CollectSplit` | src/eko/evolution_operator.py:264-275 | the same loops over the already split names |
| `EvolutionOperator.CollectRow` | src/eko/evolution_operator.py:265-275 | the inner loop fails exactly when the other side is non-empty and member i or some other name does not split; otherwise it records member i against every member of the other side |
| `EvolutionOperator.Values` | src/eko/evolution_operator.py:264-265 | `op_members.values()` yields every member once, in key order, each square |
| `EvolutionOperator.MultipliableSplits` | src/eko/evolution_operator.py:262-275 | the names of multipliable factors all split, so collecting their paths never fails |
| `EvolutionOperator.JoinOfSame` | src/eko/evolution_operator.py:176-203 | products that all exist and share one name and one dimension sum into a member with that name and dimension |
| `EvolutionOperator.PairProduct` | src/eko/evolution_operator.py:96-127 | the path through two members stored under their own chaining physical names multiplies into the member named target.input |
| `EvolutionOperator.CollectedPair` | src/eko/evolution_operator.py:262-275 | every collected path is [left name, right name] of a chaining pair under its key |
| `EvolutionOperator.CollectedKeys` | src/eko/evolution_operator.py:262-275 | for members stored under their own names, every collected path is a pair of dictionary keys that chain into its key |
| `EvolutionOperator.KeyJoins` | src/eko/evolution_operator.py:262-282 | for multipliable factors the join of every collected key succeeds |
| `EvolutionOperator.JoinedStep` | src/eko/evolution_operator.py:278-281 | storing the join of the next key extends the joined keys by exactly that key |
| `EvolutionOperator.JoinKeys` | src/eko/evolution_operator.py:278-281 | every key gets the join of its paths and nothing else is stored; it succeeds whenever every join does |
| `EvolutionOperator.PhysMul` | src/eko/evolution_operator.py:246-283 | a non-physical factor is a ValueError, as is a malformed name when both sides are non-empty; on success every collected key holds the join of its paths over the two member dictionaries and the final scale is the left one; factors whose members sit under their own physical, splittable names and share one dimension always multiply |
| `EvolutionOperator.ApplyStep` | src/eko/evolution_operator.py:338-356 | one member keeps every running sum and error sum of grid length |
| `EvolutionOperator.ApplyPrefix` | src/eko/evolution_operator.py:336-356 | the running state after k members keeps every sum of grid length |
| `EvolutionOperator.ApplyErrSticky` | src/eko/evolution_operator.py:338-339 | once a member's name fails to split the whole application fails with that error |
| `EvolutionOperator.ApplyPdf` | src/eko/evolution_operator.py:303-359 | the result is the one pass over the members, blocked targets removed at the end |
| `EvolutionOperator.ApplyAll` | src/eko/evolution_operator.py:338-356 | the loop over the members returns the running state after all of them |
| `EvolutionOperator.TargetSum` | src/eko/evolution_operator.py:346-356 | a target's sum has grid length |
| `EvolutionOperator.UntargetedSumIsZero` | src/eko/evolution_operator.py:346-348 | a target no member has aimed at yet has sum zero |
| `EvolutionOperator.StepMeans` | src/eko/evolution_operator.py:338-356 | one member of `apply_pdf` keeps the meaning of the running state |
| `EvolutionOperator.PrefixMeans` | src/eko/evolution_operator.py:336-356 | after k members the running state blocks, sums and keeps errors as `apply_pdf` means |
| `EvolutionOperator.ApplyPdfMeaning` | src/eko/evolution_operator.py:303-359 | a target is evolved exactly when some member aims at it and every such member has its input, and then its value and error are the sums of those members' contributions; the errors keep every target whose first member had its input, even one a later member blocked |
| `Flavors.QuarkIndex` | src/eko/evolution_operator/flavors.py:123 | the position of a quark name in the quark list |
| `Flavors.PmToFlavor` | src/eko/evolution_operator/flavors.py:102-131 | a successful rotation has one weight per flavour-basis pid |
| `Flavors.PmPid` | src/eko/evolution_operator/flavors.py:123-124 | the pid of the quark a q+ or q- label names, between 1 and 6 |
| `Flavors.PmToFlavorMeaning` | src/eko/evolution_operator/flavors.py:102-131 | the rotation fails (IndexError or ValueError) exactly on a label that is neither g, ph nor a quark name followed by + or -; g and ph keep their evolution-basis rows; q+ and q- weigh the quark 1, the antiquark +1 or -1 and every other pid 0 |
| `Flavors.RotatePmToFlavor` | src/eko/evolution_operator/flavors.py:102-131 | writing into a zeroed array gives the rotation above |
| `Flavors.EvolIndex` | src/eko/evolution_operator/flavors.py:42 | `evol_basis.index` of a label in the basis |
| `Flavors.IntrinsicRaw` | src/eko/evolution_operator/flavors.py:41-52 | the raw weights have one entry per pid |
| `Flavors.Normalize` | src/eko/evolution_operator/flavors.py:54-56 | the normalised weights have one entry per pid; an all-zero weight vector is a ZeroDivisionError here, where numpy gives NaN entries and a warning |
| `Flavors.IntrinsicEvol` | src/eko/evolution_operator/flavors.py:14-57 | the weights have one entry per pid |
| `Flavors.IntrinsicLightOnly` | src/eko/evolution_operator/flavors.py:46-50 | an evolution-basis label always has weights; every pid with nf < |pid| <= 6 weighs 0, and dotted with a flavour vector they give the label's row dotted with the vector's light part |
| `Flavors.IntrinsicOtherLabels` | src/eko/evolution_operator/flavors.py:51-52 | a label outside the evolution basis takes the pm weights |
| `Flavors.NormalizeMeaning` | src/eko/evolution_operator/flavors.py:54-56 | normalising fails exactly when w.w vanishes; otherwise the normalised weights dotted with the raw weights give 1 |
| `Flavors.PidsFromIntrinsicEvol` | src/eko/evolution_operator/flavors.py:14-57 | the loop that zeroes the heavy pids gives `IntrinsicEvol` |
| `Flavors.DropHeavy` | src/eko/evolution_operator/flavors.py:47-50 | the copied row keeps every entry except those of pids with nf < abs(pid) <= 6, which become zero |
| `Flavors.DigitsRoundTrip` | src/eko/evolution_operator/flavors.py:81 | printing a natural number and parsing it back with `int` gives the number |
| `Flavors.RoundSqrt` | src/eko/evolution_operator/flavors.py:81 | the result s satisfies s - 1/2 < sqrt(m) < s + 1/2 |
| `Flavors.RoundSqrtUnique` | src/eko/evolution_operator/flavors.py:81 | only one integer is that close to a square root |
| `Flavors.RoundSqrtOfSquare` | src/eko/evolution_operator/flavors.py:81 | round(sqrt(k^2)) = k |
| `Flavors.UpdateNfInvertsLabel` | src/eko/evolution_operator/flavors.py:77-93 | in the QCD case the label T{k^2-1} asks for exactly k flavours, so T15 asks for 4 |
| `Flavors.GetRangeFails` | src/eko/evolution_operator/flavors.py:95-97 | `get_range` fails exactly when some input or target label cannot be read |
| `Flavors.GetRangeMeaning` | src/eko/evolution_operator/flavors.py:60-99 | nf_in is 3 or the largest count any input label asks for, nf_out the same over the target labels |
| `Flavors.GetRange` | src/eko/evolution_operator/flavors.py:60-99 | the loop updating the two maxima gives `get_range` |
| `Flavors.ErrorSticks` | src/eko/evolution_operator/flavors.py:95-97 | once a label fails the whole call fails with that error |
| `Flavors.IntStr` | src/eko/evolution_operator/flavors.py:157-159 | the printed integer is non-empty and has no dot, so keys built from it split at their own dot |
| `Flavors.DottedSplit` | src/eko/evolution_operator/flavors.py:152-211 | a key "a.b" splits back into a and b when a has no dot |
| `Flavors.SetBlock` | src/eko/evolution_operator/flavors.py:162-172 | one new-flavour block written entry by entry: tot.tot, tot.oth, qpm.tot, qpm.oth with (nf-1)/nf, 1/nf, 1/nf, -1/nf for the inverse, tot.tot, tot.qpm, oth.tot, oth.qpm with 1, 1, 1, -(nf-1) otherwise |
| `Flavors.LightEntries` | src/eko/evolution_operator/flavors.py:152-159 | g.g, ph.ph and the diagonal V and T entries of the active flavours 2 <= k < nf |
| `Flavors.HeavyEntries` | src/eko/evolution_operator/flavors.py:207-211 | both signs of each heavier quark nf < k <= 6 on the diagonal |
| `Flavors.RotateMatching` | src/eko/evolution_operator/flavors.py:134-212 | the dict filled step by step is the matching map: light entries, the singlet and valence new-flavour blocks, the heavier quarks; quark_names[nf-1] must exist (IndexError) and the inverse at nf = 0 is a ZeroDivisionError |
| `Flavors.RotateMatchingInverse` | src/eko/evolution_operator/flavors.py:215-216 | the inverse matching map |
| `Flavors.LightDiagKeys` | src/eko/evolution_operator/flavors.py:156-159 | the active V and T entries are diagonal and equal to one |
| `Flavors.LightDiagHas` | src/eko/evolution_operator/flavors.py:156-159 | the V and T entries of every 2 <= k < nf are there |
| `Flavors.HeavyDiagKeys` | src/eko/evolution_operator/flavors.py:208-211 | the heavier quarks' entries are diagonal and equal to one |
| `Flavors.HeavyDiagHas` | src/eko/evolution_operator/flavors.py:208-211 | both signs of every heavier quark are there |
| `Flavors.BlockKeys` | src/eko/evolution_operator/flavors.py:161-172 | every key of the new-flavour blocks is off the diagonal, or is S.S or V.V |
| `Flavors.MatchingDiagonal` | src/eko/evolution_operator/flavors.py:151-211 | for 1 <= nf <= 6, outside the new-flavour blocks the map is the identity: g, ph, the active V and T labels and both signs of every heavier quark map to themselves with weight one |
| `Flavors.MatchingDiagonalBosons` | src/eko/evolution_operator/flavors.py:152 | g.g and ph.ph are one in the finished matching map |
| `Flavors.MatchingDiagonalLight` | src/eko/evolution_operator/flavors.py:156-159 | every active V and T label below nf maps to itself with weight one |
| `Flavors.MatchingDiagonalHeavy` | src/eko/evolution_operator/flavors.py:208-211 | both signs of every quark heavier than nf map to themselves with weight one |
| `Flavors.BlockAlgebra` | src/eko/evolution_operator/flavors.py:163-172 | the forward block [[1, 1], [1, -(nf-1)]] and the inverse block [[(nf-1)/nf, 1/nf], [1/nf, -1/nf]] multiply to the identity in both orders |
| `Flavors.BlocksSurvive` | src/eko/evolution_operator/flavors.py:161-212 | the finished map holds every entry of both blocks unchanged |
| `Flavors.BlockValues` | src/eko/evolution_operator/flavors.py:161-172 | the block entries as they stand in the finished map |
| `Flavors.MatchingBlocksInverse` | src/eko/evolution_operator/flavors.py:134-216 | the new-flavour blocks of `rotate_matching` and `rotate_matching_inverse` are inverse to each other, for (S, T{nf^2-1}, q+) and (V, V{nf^2-1}, q-) |
| `Flavors.UnifiedTable` | src/eko/evolution_operator/flavors.py:275-302 | every table names distinct quarks only |
| `Flavors.PlaceWeights` | src/eko/evolution_operator/flavors.py:303-307 | the written weights have one entry per pid |
| `Flavors.QuarkPositions` | src/eko/evolution_operator/flavors.py:304-305 | `flavor_basis_pids.index` finds quark q at 7 + q and its antiquark at 7 - q |
| `Flavors.PlaceAt` | src/eko/evolution_operator/flavors.py:304-307 | one write sets the quark to w and the antiquark to w, or -w for a V label, and keeps every other entry |
| `Flavors.LookupAppend` | src/eko/evolution_operator/flavors.py:275-302 | adding a new quark to a table leaves the other quarks' weights alone |
| `Flavors.PlaceWeightsAt` | src/eko/evolution_operator/flavors.py:303-307 | quark q gets the table's weight and antiquark -q that weight, negated for a V label |
| `Flavors.PlaceWeightsBosons` | src/eko/evolution_operator/flavors.py:274 | the gluon and the photon get nothing |
| `Flavors.PlaceWeightsMeaning` | src/eko/evolution_operator/flavors.py:274-307 | every entry of a written table, and its quark and antiquark sums in terms of the table's sum |
| `Flavors.UnifiedRaw` | src/eko/evolution_operator/flavors.py:271-307 | the raw unified weights have one entry per pid |
| `Flavors.UnifiedEvol` | src/eko/evolution_operator/flavors.py:251-313 | the weights have one entry per pid |
| `Flavors.UnifiedTableShape` | src/eko/evolution_operator/flavors.py:275-302 | a table exists exactly for d3, d8, u3, u8, and for delta when 3 <= nf <= 6; otherwise a KeyError |
| `Flavors.LiteralTablesTraceless` | src/eko/evolution_operator/flavors.py:276-297 | the weights of each written-out combination add up to zero |
| `Flavors.TableTraceless` | src/eko/evolution_operator/flavors.py:275-302 | every table's weights add up to zero |
| `Flavors.UnifiedRawTable` | src/eko/evolution_operator/flavors.py:273-307 | a table label's raw weights are its table written, negated on the antiquarks for a V label |
| `Flavors.UnifiedWeights` | src/eko/evolution_operator/flavors.py:269-307 | a table label always has weights: quark q carries the table's weight, antiquark -q minus it for a V label and the same otherwise, g and ph nothing, and the quark and the antiquark weights each add up to zero |
| `Flavors.WriteTable` | src/eko/evolution_operator/flavors.py:303-307 | the loop writing the table entry by entry gives `PlaceWeights` |
| `Flavors.PidsFromIntrinsicUnifiedEvol` | src/eko/evolution_operator/flavors.py:251-313 | ph, g, S and V go through `pids_from_intrinsic_evol`; c, t, b labels through the pm rotation; any other through its table; normalised on request |
| `Physical.WireFails` | src/eko/evolution_operator/physical.py:51-62 | the dict assignments succeed exactly when every operator member they read is present; a missing one is a KeyError |
| `Physical.WireAppend` | src/eko/evolution_operator/physical.py:51-62 | assigning one batch of entries and then another is the same as assigning both in order, and a failure in the first batch is kept |
| `Physical.PrefixFails` | src/eko/evolution_operator/physical.py:51-62 | a KeyError in any prefix of the assignments is the KeyError of the whole map construction |
| `Physical.WireMeaning` | src/eko/evolution_operator/physical.py:51-62 | when no name is assigned two different members, the built dict has exactly the assigned names plus the old ones, each assigned name holds the member it read, and every other old name is untouched |
| `Physical.QcdActiveShape` | src/eko/evolution_operator/physical.py:59-62 | every active-flavour entry is a V entry read from the ns- member or a T entry read from the ns+ member |
| `Physical.QcdActiveHas` | src/eko/evolution_operator/physical.py:59-62 | for every flavour 2 <= f <= nf the entries V{f^2-1}.V{f^2-1} (from ns-) and T{f^2-1}.T{f^2-1} (from ns+) are assigned |
| `Physical.QcdConsistent` | src/eko/evolution_operator/physical.py:51-62 | the QCD wiring never assigns one name two different members |
| `Physical.QedNamesDistinct` | src/eko/evolution_operator/physical.py:77-107 | the 24 QED entry names are pairwise different |
| `Physical.QedConsistent` | src/eko/evolution_operator/physical.py:77-107 | the QED wiring never assigns one name twice, for any nf |
| `Physical.WiringConsistent` | src/eko/evolution_operator/physical.py:49-107 | in both the QCD and the QED branch no name is assigned two different members |
| `Physical.WiringFirstChars` | src/eko/evolution_operator/physical.py:49-107 | every wired name starts with S, g, V, T or p, so none collides with an intrinsic c, b or t key |
| `Physical.IntrinsicFails` | src/eko/evolution_operator/physical.py:117-123 | the intrinsic loop succeeds exactly when every flavour above nf indexes "cbt" (Python negative indices included); otherwise an IndexError |
| `Physical.IntrinsicKeyShape` | src/eko/evolution_operator/physical.py:120-123 | an intrinsic key `hq+.hq+` / `hq-.hq-` starts with c, b or t |
| `Physical.IntrinsicMeaning` | src/eko/evolution_operator/physical.py:117-123 | a successful loop gives each intrinsic flavour above nf both keys holding the identity, skips flavours up to nf, keeps every non-heavy key and adds nothing else |
| `Physical.IntrinsicSticks` | src/eko/evolution_operator/physical.py:117-123 | once a flavour's lookup fails the whole loop returns that failure |
| `Physical.WiredEntries` | src/eko/evolution_operator/physical.py:49-107 | a successful wiring holds every wired entry's member under its name |
| `Physical.WiredKeys` | src/eko/evolution_operator/physical.py:49-107 | a successful wiring holds only wired names, none starting with c, b or t |
| `Physical.IdSourceRead` | src/eko/evolution_operator/physical.py:108-116 | the member the intrinsic identity is shaped like (g.g for QCD, V.V for QED, and nsV for the first QCD pass) is always among those read, so building it cannot fail |
| `Physical.WiredMap` | src/eko/evolution_operator/physical.py:49-107 | a successful wiring holds each wired entry's member, only wired names, and the members the intrinsic identities need |
| `Physical.AdToEvolFails` | src/eko/evolution_operator/physical.py:28-125 | `ad_to_evol_map` succeeds exactly when every member it reads exists and every intrinsic flavour above nf names c, b or t; the error is a KeyError if a member is missing, else an IndexError |
| `Physical.AdToEvolEntries` | src/eko/evolution_operator/physical.py:28-125 | a successful map holds every wired member, gives each intrinsic flavour above nf both keys holding the identity shaped like g.g (QCD) or V.V (QED), and holds nothing else |
| `Physical.QcdEntries` | src/eko/evolution_operator/physical.py:50-62 | the QCD map holds S.S, S.g, g.g, g.S and V.V from their members, and V/T entries of every active flavour from ns-/ns+ |
| `Physical.QedEntries` | src/eko/evolution_operator/physical.py:76-107 | the QED map holds V.V and ph.ph, Td3/Vd3 from nf >= 3, Tu3/Vu3 from nf >= 4, Td8/Vd8 from nf >= 5, Tu8/Vu8 from nf >= 6, and no Td3/Vd3 below three flavours |
| `Physical.QedInactive` | src/eko/evolution_operator/physical.py:96-98 | below three flavours the QED map has no Td3.Td3 or Vd3.Vd3 entry |
| `Physical.Assign` | src/eko/evolution_operator/physical.py:51-62 | the assignments made one at a time give the map the wiring specification describes, or its KeyError |
| `Physical.IntrinsicPass` | src/eko/evolution_operator/physical.py:117-123 | the loop over the intrinsic flavours computes the intrinsic specification, or its IndexError |
| `Physical.QcdPrefixFails` | src/eko/evolution_operator/physical.py:59-62 | a KeyError at flavour f <= nf is the KeyError of the whole QCD wiring |
| `Physical.QcdWiring` | src/eko/evolution_operator/physical.py:50-62 | the constant QCD entries and the flavour loop give the QCD wiring specification |
| `Physical.QedPrefixFails` | src/eko/evolution_operator/physical.py:95-107 | a failure after k threshold entries is the failure of the whole QED wiring |
| `Physical.QedPair` | src/eko/evolution_operator/physical.py:96-107 | one `if nf >= n` block adds its T and V entries to the wiring so far |
| `Physical.QedWiring` | src/eko/evolution_operator/physical.py:76-107 | the constant QED entries and the threshold blocks give the QED wiring specification |
| `Physical.AdToEvolMap` | src/eko/evolution_operator/physical.py:28-125 | the imperative map construction equals the `ad_to_evol_map` specification, errors included |
| `Physical.ItemLabels` | src/eko/evolution_operator/physical.py:137 | the labels passed to `get_range` are the members' names, in order |
| `Physical.Weights` | src/eko/evolution_operator/physical.py:144-153 | a label's flavour weights, when they exist, are 14 numbers (one per flavour-basis pid) |
| `Physical.Contributions` | src/eko/evolution_operator/physical.py:143-153 | a successful pass gives one contribution per member, each with 14 input and output weights and nx x nx matrices |
| `Physical.BlockSum` | src/eko/evolution_operator/physical.py:141-168 | every block of the tensor is an nx x nx matrix |
| `Physical.BlockEntries` | src/eko/evolution_operator/physical.py:154-168 | entry (a, b) of block [o, :, i, :] is the sum over members of out_weight[o] * in_weight[i] * the member's entry, for the value and the error tensor alike |
| `Physical.PrefixSummands` | src/eko/evolution_operator/physical.py:143-168 | the summands of the first members do not change when a further member is added |
| `Physical.LastSummand` | src/eko/evolution_operator/physical.py:157-168 | the last member adds its own summand to each block entry |
| `Physical.WeightedEntry` | src/eko/evolution_operator/physical.py:162-168 | an entry of `out_weight * (op.value * in_weight)` is the product of both weights and the member's entry |
| `Physical.BlockSumSnoc` | src/eko/evolution_operator/physical.py:154-168 | one more member adds its weighted matrix to every block |
| `Physical.ContributionsSticks` | src/eko/evolution_operator/physical.py:143-153 | once a member's weights fail the whole pass fails with that error |
| `Physical.AddContribution` | src/eko/evolution_operator/physical.py:154-168 | the `+=` on every pair of pids turns the blocks summing the earlier members into blocks summing them and the new one |
| `Physical.AddRow` | src/eko/evolution_operator/physical.py:155-168 | the inner loop updates exactly the blocks of output pid o and leaves every other row alone |
| `Physical.ToFlavorBasisTensor` | src/eko/evolution_operator/physical.py:127-169 | `to_flavor_basis_tensor` fails exactly as `get_range` (always read as QCD, is_qed=False), the first member's shape or the weights fail, and otherwise returns fresh value and error tensors whose every block is the weighted sum of all members |
| `Physical.UnifiedLabelsUnread` | src/eko/evolution_operator/flavors.py:77-81 | read as QCD labels, the QED T-labels Td3, Tu3, Td8 and Tu8 are a ValueError, since int("d3") and the like fail |
| `Physical.QedInputFails` | src/eko/evolution_operator/physical.py:137 | a member whose input is a QED T-label makes `to_flavor_basis_tensor` fail in both the QCD and the QED branch, because `get_range` is called with its default is_qed=False |
| `MatchingCondition.MatchedConsistent` | src/eko/matching_conditions/__init__.py:81-93 | the matched entries of a heavy quark h write the three different names h+.h+, g.h+ and h-.h- |
| `MatchingCondition.MatchIntrinsicFails` | src/eko/matching_conditions/__init__.py:73-93 | the intrinsic loop gets through exactly when every flavour's `quark_names[fl - 1]` exists and the flavour nf + 1 finds its three OMEs; otherwise an IndexError or KeyError |
| `MatchingCondition.FlNamesShape` | src/eko/matching_conditions/__init__.py:75-93 | every name the intrinsic loop writes has the shape h+.h+, h-.h- or g.h+ |
| `MatchingCondition.FlNamesApart` | src/eko/matching_conditions/__init__.py:73-93 | two different intrinsic flavours above nf write disjoint sets of names |
| `MatchingCondition.FlHoldsFrame` | src/eko/matching_conditions/__init__.py:73-93 | what one flavour leaves in the map survives any later write that keeps its own names |
| `MatchingCondition.MatchIntrinsicKeys` | src/eko/matching_conditions/__init__.py:73-93 | the intrinsic loop adds exactly the names of the flavours above nf and keeps every other entry of the map |
| `MatchingCondition.MatchIntrinsicHolds` | src/eko/matching_conditions/__init__.py:73-93 | every flavour above nf + 1 ends with identity h+.h+ and h-.h- entries and the flavour nf + 1 with its OME entries, whatever the order of the intrinsic range |
| `MatchingCondition.FlStepMeaning` | src/eko/matching_conditions/__init__.py:74-93 | one round adds its flavour's names, leaves its entries and keeps every other name |
| `MatchingCondition.MatchIntrinsicSticks` | src/eko/matching_conditions/__init__.py:73-93 | once a round fails the rest of the loop keeps that failure |
| `MatchingCondition.OmeActiveShape` | src/eko/matching_conditions/__init__.py:55-58 | every active-flavour entry is a V or T name read from the V.V element |
| `MatchingCondition.OmeActiveHas` | src/eko/matching_conditions/__init__.py:55-58 | for every 2 <= f <= nf both V{f^2-1}.V{f^2-1} and T{f^2-1}.T{f^2-1} are the V.V element |
| `MatchingCondition.ConsistentConcat` | src/eko/matching_conditions/__init__.py:46-68 | two runs of assignments that never write the same name in both make one run without conflicting writes |
| `MatchingCondition.FixedActiveConsistent` | src/eko/matching_conditions/__init__.py:46-58 | the fixed and active entries never write one name with two members, and none looks like a heavy-quark or intrinsic name |
| `MatchingCondition.HeavyShape` | src/eko/matching_conditions/__init__.py:61-68 | the heavy entries h-.V, h+.S and h+.g are three different four-letter names not starting with g |
| `MatchingCondition.WiredShape` | src/eko/matching_conditions/__init__.py:46-68 | the entries made before the intrinsic loop never conflict and none has an intrinsic shape |
| `MatchingCondition.FixedActiveReads` | src/eko/matching_conditions/__init__.py:46-58 | the fixed and active entries succeed exactly when the five fixed OME members are present |
| `MatchingCondition.HeavyReads` | src/eko/matching_conditions/__init__.py:62-68 | the heavy entries succeed exactly when the three heavy-quark OME members are present |
| `MatchingCondition.WiredRun` | src/eko/matching_conditions/__init__.py:46-68 | the first two stages are one wiring, which succeeds exactly when the eight members it reads are present |
| `MatchingCondition.PairStep` | src/eko/matching_conditions/__init__.py:56-58 | one active flavour sets its V and T entries to the V.V element and changes nothing else |
| `MatchingCondition.SplitFails` | src/eko/matching_conditions/__init__.py:21-94 | `split_ad_to_evol_map` succeeds exactly when every member it reads exists and every quark index it looks up exists; errors are KeyError or IndexError, and a missing `quark_names[nf]` with the fixed members present is an IndexError |
| `MatchingCondition.SplitEntries` | src/eko/matching_conditions/__init__.py:46-68 | the map holds S.S, S.g, g.S, g.g and V.V from their members, the V/T entries of each active flavour equal to V.V, and h-.V, h+.S, h+.g of `quark_names[nf]` |
| `MatchingCondition.WiredKept` | src/eko/matching_conditions/__init__.py:70-93 | every entry made before the intrinsic loop survives it unchanged |
| `MatchingCondition.SplitKeys` | src/eko/matching_conditions/__init__.py:21-94 | the map holds exactly the wired names and the names of the intrinsic flavours above nf |
| `MatchingCondition.IntrinsicNamesBelow` | src/eko/matching_conditions/__init__.py:75-79 | intrinsic flavours at or below nf add no entry |
| `MatchingCondition.SplitIntrinsic` | src/eko/matching_conditions/__init__.py:70-93 | each intrinsic flavour above nf + 1 keeps evolving with the identity shaped like V.V, and the flavour nf + 1 gets its OME entries h+.h+, g.h+ and h-.h- |
| `MatchingCondition.MatchIntrinsicPass` | src/eko/matching_conditions/__init__.py:73-93 | the loop over the intrinsic range computes the intrinsic-loop specification, errors included |
| `MatchingCondition.SplitAdToEvolMap` | src/eko/matching_conditions/__init__.py:21-94 | the imperative construction equals the `split_ad_to_evol_map` specification, errors included |
| `Grid.OperatorGrid.constructor` | src/eko/evolution_operator/grid.py:74-82 | a grid for a known method keeps its configuration, scales, path and ratios and starts with empty caches |
| `Grid.OperatorGrid.New` | src/eko/evolution_operator/grid.py:49-82 | `OperatorGrid(...)` is built exactly when the method is one of the eight known ones, otherwise a ValueError; a new grid has empty caches |
| `Grid.OperatorGrid.FromDict` | src/eko/evolution_operator/grid.py:84-139 | `from_dict` builds the grid of the configuration read from the two cards, or the ValueError of an unknown method |
| `Grid.OperatorGrid.GetThresholdOperators` | src/eko/evolution_operator/grid.py:141-187 | returns one operator per segment but the last, each the cached operator of its key; every new cache entry is the operator of a segment with that key, the OMEs of every threshold passed are cached once with the segment's ratio, existing entries are kept, and a missing ratio is an IndexError |
| `Grid.OperatorGrid.WalkPath` | src/eko/evolution_operator/grid.py:164-187 | the loop over `path[:-1]` keeps both caches free of repeats and keyed by what they were computed for, and succeeds whenever every ratio index exists |
| `Grid.OperatorGrid.CacheOp` | src/eko/evolution_operator/grid.py:166-176 | one segment's operator is computed only when its key is not cached, and the cached operator is appended |
| `Grid.OperatorGrid.CacheOme` | src/eko/evolution_operator/grid.py:178-186 | one threshold's OMEs are computed only when not cached, with the ratio `thresholds_ratios[nf - 3]` going up or `[nf - 4]` going down; failure exactly when uncached and that index does not exist |
| `Grid.OperatorGrid.Generate` | src/eko/evolution_operator/grid.py:215-278 | the operator to q2 is the physical operator of the last segment followed by the rotation, matching and physical factors of each lower segment, highest first; an empty path is an IndexError, a non-empty path whose every segment has its rotation ratio always succeeds, and the caches only grow |
| `Grid.OperatorGrid.FoldLower` | src/eko/evolution_operator/grid.py:249-277 | the reversed loop appends, per lower segment, rotation/matching/physical going up or matching/inverse rotation/physical going down |
| `Grid.OperatorGrid.Compute` | src/eko/evolution_operator/grid.py:189-213 | `compute` returns one operator per requested scale (the stored grid, a single number or a list), each the composition `generate` specifies; it succeeds whenever every requested scale can be generated and fails when some requested scale has an empty path |
| `Grid.OperatorGrid.AddScale` | src/eko/evolution_operator/grid.py:211-212 | one scale of the loop: the caches only grow, a failure is an IndexError on a scale that cannot be generated, and on success the scale is added with its folded operator and every earlier result stays folded |
| `Grid.LogAppend` | src/eko/evolution_operator/grid.py:168-186 | caching a key not cached yet keeps every key computed once |
| `Grid.ListedGrows` | src/eko/evolution_operator/grid.py:168-176 | caching a new key keeps the operators already returned |
| `Grid.ListedAppend` | src/eko/evolution_operator/grid.py:176 | appending the cached operator of the next segment keeps the returned list in step with the cache |
| `Grid.OpsStep` | src/eko/evolution_operator/grid.py:165-176 | one segment grows the operator cache only by its own key, holding the operator of that segment |
| `Grid.OmesStep` | src/eko/evolution_operator/grid.py:178-186 | one segment grows the OME cache only by its threshold, computed with that segment's ratio |
| `Grid.ChainLayout` | src/eko/evolution_operator/grid.py:249-277 | the lower segments contribute three factors each, segment j's at position 3(n - 1 - j): the highest first |
| `Grid.ChainExtends` | src/eko/evolution_operator/grid.py:249-277 | the composition reads only cached entries, so it is unchanged when the caches grow |
| `Grid.FoldedExtends` | src/eko/evolution_operator/grid.py:211-212 | an operator composed earlier in `compute` is still what the grown caches compose |
| `Grid.FoldedLayout` | src/eko/evolution_operator/grid.py:234-277 | the final operator starts with the last segment's physical operator, holds three factors per lower segment highest first, and uses intrinsic flavours 4, 5, 6 when the last segment goes down |
| `Grid.FromDictMethods` | src/eko/evolution_operator/grid.py:114-121 | `from_dict` maps EXA, EXP, TRN to iterate-exact, iterate-expanded, truncated and keeps any other name, so the grid accepts exactly those three short names and the eight full names |
| `Grid.FromDictConfig` | src/eko/evolution_operator/grid.py:113-134 | the ratio is squared, the order is PTO, and charm (4) then bottom (5) are intrinsic exactly when IC or IB is 1 |
| `LegacyGrid.OperatorMaster.constructor` | src/eko/operator_grid.py:15-22 | a new master serves its nf with the coupling's `delta_t` and has no integrands yet |
| `LegacyGrid.OperatorMaster.Compile` | src/eko/operator_grid.py:24-26 | `_compile` sets the non-singlet and singlet integrands of the master's nf |
| `LegacyGrid.OperatorMaster.GetOp` | src/eko/operator_grid.py:28-39 | `get_op` compiles exactly when either integrand is unset, then hands out the uncomputed operator with `delta_t(q_from, q_to)`, the nf and the two scales |
| `LegacyGrid.MinOf` | src/eko/operator_grid.py:139 | `np.min` of a non-empty list is one of its elements and at most every element |
| `LegacyGrid.MaxOf` | src/eko/operator_grid.py:138 | `np.max` of a non-empty list is one of its elements and at least every element |
| `LegacyGrid.OperatorGrid.constructor` | src/eko/operator_grid.py:57-67 | one fresh, uncompiled master per nf of the holder's range, empty caches, qmax -1 and qmin infinity |
| `LegacyGrid.OperatorGrid.GenerateThresholdsOp` | src/eko/operator_grid.py:69-81 | the cache grows exactly by the keys of the walk's steps, each new entry the operator of its step; an area whose nf has no master is a KeyError, and the grid and limits are untouched |
| `LegacyGrid.OperatorGrid.SetQLimits` | src/eko/operator_grid.py:83-103 | a minimum at or below zero or above the maximum is a ValueError with nothing cached; otherwise the cache grows by the steps of the paths to both limits; the stored limits are not changed; positive ordered limits whose paths only cross areas with a master always succeed |
| `LegacyGrid.OperatorGrid.ComputeRawGrid` | src/eko/operator_grid.py:105-124 | zipping areas with scales, each scale gets the operator from its area's reference scale, all grid operators are then computed; a missing master is a KeyError |
| `LegacyGrid.OperatorGrid.ComputeQGrid` | src/eko/operator_grid.py:126-142 | a single scale becomes a list; an empty list or a non-positive minimum is a ValueError; otherwise the limits' paths are cached and the raw grid computed; a non-empty positive list whose limit paths and areas all have a master always succeeds |
| `LegacyGrid.StepsSnoc` | src/eko/operator_grid.py:73-81 | one more area adds the step from where the walk stands to its reference scale, or nothing when it is already there |
| `LegacyGrid.GrowStep` | src/eko/operator_grid.py:77-80 | caching one more step keeps the cache grown by exactly the steps so far |
| `LegacyGrid.StepsChain` | src/eko/operator_grid.py:72-81 | the walk's steps start at the reference scale, each starts where the previous ended, none stays in place, and the last ends at the last area's scale |
| `LegacyGrid.RawGridAt` | src/eko/operator_grid.py:118-121 | a scale holds the operator of its last occurrence in the zipped list |
| `LegacyGrid.RawGridKeys` | src/eko/operator_grid.py:118-121 | the raw grid holds the earlier scales plus exactly the requested ones, and keeps the other earlier entries |
| `LegacyGrid.ComputeAll` | src/eko/operator_grid.py:123-124 | `compute` marks every operator computed and changes nothing else about the grid |
| `Tensors.OnTargetGrid` | src/eko/output/manipulate.py:74-75 | `einsum("ij,ajbk->aibk")` of an ni x nj matrix turns an na x nj x nb x nk tensor into an na x ni x nb x nk one |
| `Tensors.OnInputGrid` | src/eko/output/manipulate.py:77-78 | `einsum("ajbk,kl->ajbl")` turns the input x size nk into nl |
| `Tensors.OnBothGrids` | src/eko/output/manipulate.py:80-81 | `einsum("ij,ajbk,kl->aibl")` rotates both x indices, giving shape na x ni x nb x nl |
| `Tensors.OnTargetFlavor` | src/eko/output/manipulate.py:125-126 | `einsum("ca,ajbk->cjbk")` turns the output flavour size na into nc |
| `Tensors.OnInputFlavor` | src/eko/output/manipulate.py:128-129 | `einsum("ajbk,bd->ajdk")` turns the input flavour size nb into nd |
| `Tensors.OnBothFlavors` | src/eko/output/manipulate.py:131-132 | `einsum("ca,ajbk,bd->cjdk")` rotates both flavour indices, giving shape nc x nj x nd x nk |
| `Tensors.TargetGridEntry` | src/eko/output/manipulate.py:74-75 | entry [a][i][b][k] of the output x rotation is the sum over j of r[i][j] t[a][j][b][k]; this unfolds the definition one level, and the identity and composition rows state what the rotation means |
| `Tensors.InputGridEntry` | src/eko/output/manipulate.py:77-78 | entry [a][j][b][l] of the input x rotation is the sum over k of t[a][j][b][k] s[k][l]; this unfolds the definition one level, and the identity and composition rows state what the rotation means |
| `Tensors.BothGridsEntry` | src/eko/output/manipulate.py:80-81 | entry [a][i][b][l] of the two-sided x rotation is the double sum over j and k; this unfolds the definition one level, and the identity and composition rows state what the rotation means |
| `Tensors.TargetFlavorEntry` | src/eko/output/manipulate.py:125-126 | entry [c][j][b][k] of the output flavour rotation is the sum over a of m[c][a] t[a][j][b][k]; this unfolds the definition one level, and the identity and composition rows state what the rotation means |
| `Tensors.InputFlavorEntry` | src/eko/output/manipulate.py:128-129 | entry [a][j][d][k] of the input flavour rotation is the sum over b of t[a][j][b][k] m[b][d]; this unfolds the definition one level, and the identity and composition rows state what the rotation means |
| `Tensors.BothFlavorsEntry` | src/eko/output/manipulate.py:131-132 | entry [c][j][d][k] of the two-sided flavour rotation is the double sum over a and b; this unfolds the definition one level, and the identity and composition rows state what the rotation means |
| `Tensors.TargetGridIdentity` | src/eko/output/manipulate.py:74-75 | rotating the output x index with the identity leaves the tensor unchanged |
| `Tensors.InputGridIdentity` | src/eko/output/manipulate.py:77-78 | rotating the input x index with the identity leaves the tensor unchanged |
| `Tensors.TargetFlavorIdentity` | src/eko/output/manipulate.py:125-126 | rotating the output flavour index with the identity leaves the tensor unchanged |
| `Tensors.InputFlavorIdentity` | src/eko/output/manipulate.py:128-129 | rotating the input flavour index with the identity leaves the tensor unchanged |
| `Tensors.BothGridsComposed` | src/eko/output/manipulate.py:73-81 | the two-sided x einsum equals the output rotation followed by the input rotation |
| `Tensors.BothFlavorsComposed` | src/eko/output/manipulate.py:124-132 | the two-sided flavour einsum equals the output rotation followed by the input rotation |
| `Manipulate.KeptGrid` | src/eko/output/manipulate.py:30-43 | a requested grid is kept unchanged or dropped, and one equal to the current grid is always dropped |
| `Manipulate.RotateX` | src/eko/output/manipulate.py:73-81 | rotating an na x nj x nb x nk tensor gives the new x sizes on exactly the rotated sides |
| `Manipulate.KeptBasis` | src/eko/output/manipulate.py:103-110 | a requested basis is kept unchanged or dropped, and the identity is always dropped |
| `Manipulate.ZeroPids` | src/eko/output/manipulate.py:136-139 | `[0] * len(pids)` has the same length and only zeros |
| `Manipulate.RotateF` | src/eko/output/manipulate.py:124-132 | a flavour rotation keeps the tensor's shape |
| `Manipulate.MapGrid` | src/eko/output/manipulate.py:70-83 | the loop over the final scales replaces every element by its image and keeps the scales |
| `Manipulate.Eko.constructor` | src/eko/output/manipulate.py:13-25 | the operator stores its grids, pids, interpolation settings and elements, each element shaped by pids and grids |
| `Manipulate.Eko.XgridReshape` | src/eko/output/manipulate.py:13-83 | no grid at all is a ValueError that changes nothing; close grids are dropped, kept grids replace the current ones, and every operator and error is interpolated onto them; nothing kept means nothing changes |
| `Manipulate.Eko.FlavorReshape` | src/eko/output/manipulate.py:86-139 | no basis, a basis not square in its pids, or a kept input basis that `np.linalg.inv` cannot invert (LinAlgError) is a ValueError that changes nothing; otherwise every operator and error is rotated by the kept output basis and the inverse input basis, and each rotated side's pids become zeros |
| `Manipulate.Eko.ToEvol` | src/eko/output/manipulate.py:142-163 | rotates the chosen sides to the evolution basis (the input side by the inverse of the flavour-to-evolution matrix) and labels them with the evolution pids; no side, a side without 14 pids, or an input side whose matrix the inverse refuses, is a ValueError |
| `Manipulate.RotateXComposed` | src/eko/output/manipulate.py:73-81 | interpolating onto both new grids at once equals the output interpolation followed by the input one |
| `Manipulate.RotateXIdentity` | src/eko/output/manipulate.py:30-43 | interpolating at the grid's own nodes leaves the tensor unchanged, which is why a close grid can be dropped |
| `Manipulate.RotateFComposed` | src/eko/output/manipulate.py:124-132 | rotating both flavour sides at once equals the output rotation followed by the input one |
| `Manipulate.RotateFIdentity` | src/eko/output/manipulate.py:103-110 | the identity basis leaves the tensor unchanged, which is why it can be dropped |
| `Manipulate.EvolutionNotIdentity` | src/eko/output/manipulate.py:156-158 | the flavour-to-evolution rotation is a 14 x 14 matrix that `flavor_reshape` never drops as close to the identity |
| `OutputDict.GetOp` | src/eko/output.py:176-200 | a scale not in the grid is a KeyError, as is a name missing its operator or error; otherwise one member per name, holding that name's operator and error, at the requested scale |
| `OutputDict.GetRaw` | src/eko/output.py:75-99 | serialising fails with a KeyError exactly when some scale cannot be rebuilt; otherwise it keeps the setup and reference scale and stores every scale's rebuilt operators |
| `OutputDict.Concat` | src/eko/output.py:202-241 | anything but an output, a different degree, interpolation kind or grid, or a reference scale missing from the other's grid is a ValueError; otherwise the result starts at the other's reference scale and holds at every scale this operator times the other's at the joining scale; matching setups whose operators all multiply always chain |
| `OutputDict.ProductGrid` | src/eko/output.py:235-239 | the new grid has this output's scales, at each the product with the other's operator at the joining scale, and it is always built when every product is defined |
| `OutputDict.GetOpWellKeyed` | src/eko/output.py:194-200 | well-formed raw operators always rebuild into a physical operator with consistently named members |
| `OutputDict.GetOpRoundTrip` | src/eko/output.py:176-200 | rebuilding a well-formed scale and serialising it with `get_raw_operators` gives back the stored operators and errors |
| `OutputDict.GetRawIdentity` | src/eko/output.py:75-99 | `get_raw` of a well-formed output is the output itself |
| `OutputDict.RawOf` | src/eko/evolution_operator.py:285-301 | `get_raw_operators` keeps the key order and stores an operator and an error under every member's name and no other |
| `OutputDict.RawOfWell` | src/eko/evolution_operator.py:285-301 | serialising a well-keyed physical operator gives a well-formed raw dictionary |
| `OutputDict.ProductScale` | src/eko/output.py:234-240 | one scale of `concat` is the serialised product of this output's operator with the other's at the joining scale, and fails only where the two cannot be multiplied |
| `EkoStruct.OperatorFromDict` | src/eko/output/struct.py:23-25 | `Operator.from_dict` succeeds exactly when there is no unknown keyword and alphas and operator are given; otherwise a TypeError; the error defaults to None |
| `EkoStruct.ConfigsFromDict` | src/eko/output/struct.py:58-66 | `Configs.from_dict` succeeds exactly when no keyword is unknown and every required field is present, else a TypeError; one integration core by default |
| `EkoStruct.DebugFromDict` | src/eko/output/struct.py:52-56 | `Debug.from_dict` fails with a TypeError exactly on an unknown keyword; both switches default to off |
| `EkoStruct.CloseScales` | src/eko/output/struct.py:172-173 | the mask `np.isclose(q2, q2s)` selects exactly the scales close to q2, without repeats |
| `EkoStruct.Dedup` | src/eko/output/struct.py:214 | the keys of `{q2: None for q2 in Q2grid}` are the listed scales, each once |
| `EkoStruct.Unloaded` | src/eko/output/struct.py:242-244 | closing keeps every key and drops every operator |
| `EkoStruct.EKO.constructor` | src/eko/output/struct.py:83-97 | the container stores its fields and its operator dictionary with the keys in insertion order |
| `EkoStruct.EKO.Q2Grid` | src/eko/output/struct.py:167-169 | `Q2grid` lists every final scale once and nothing else |
| `EkoStruct.EKO.GetItem` | src/eko/output/struct.py:125-127 | `__getitem__` fails with a KeyError exactly on a scale that is not stored |
| `EkoStruct.EKO.SetItem` | src/eko/output/struct.py:129-135 | a dict is converted first (its TypeError propagates); anything that is not then an operator is a ValueError storing nothing; an operator is stored, a new scale going last |
| `EkoStruct.EKO.Store` | src/eko/output/struct.py:135 | writing an entry keeps the key order, adding a new key last |
| `EkoStruct.EKO.DelItem` | src/eko/output/struct.py:137-162 | `__delitem__` only drops the operator from memory: the scale stays and the key order is unchanged |
| `EkoStruct.EKO.Approx` | src/eko/output/struct.py:171-179 | `approx` fails only with a ValueError |
| `EkoStruct.EKO.Iterate` | src/eko/output/struct.py:99-120 | iteration yields every scale with its entry in insertion order, and leaves every scale present but unloaded |
| `EkoStruct.EKO.Close` | src/eko/output/struct.py:242-244 | `close` unloads every operator and keeps every scale |
| `EkoStruct.EKO.FromDict` | src/eko/output/struct.py:181-218 | a missing xgrid, Q0, Q2grid or configs is a KeyError, bad configs or debug fields a TypeError; otherwise Q02 is Q0 squared, the pids default to the flavour basis, and every listed scale is present with no operator |
| `EkoStruct.UnloadedAll` | src/eko/output/struct.py:118-120 | once every listed scale has been deleted the dictionary is the unloaded one |
| `EkoStruct.OperatorRaw` | src/eko/output/struct.py:23-50 | `Operator.from_dict(op.raw)` gives back op |
| `EkoStruct.ApproxMeaning` | src/eko/output/struct.py:171-179 | `approx` is None exactly when no scale is close, a ValueError exactly when two different scales are, and otherwise the one close scale |
| `EkoStruct.DefaultRotations` | src/eko/output/struct.py:75-79 | the default rotations are the identity: target and input grid are both the interpolation grid, target and input pids both the given pids |
| `EkoStruct.EKO.Contains` | src/eko/output/struct.py:122-123 | `q2 in eko` holds exactly for the scales listed by `Q2grid` |
| `GenOp.GenOpCard` | src/ekobox/gen_op.py:1-77 | the card is the specification's; it is a ValueError exactly when the update is a dict with a key that is neither a default nor Q2grid or hash, and an update that is not a dict is ignored |
| `GenOp.CardHasKnownKeys` | src/ekobox/gen_op.py:68-77 | every card produced has exactly the default keys plus Q2grid and hash |
| `GenOp.CardOverrides` | src/ekobox/gen_op.py:68-77 | the update wins key by key; Q2grid and hash are the given ones unless the update overrides them; untouched defaults stay |
| `GenOp.CardIdempotent` | src/ekobox/gen_op.py:72-77 | feeding a generated card back as the update reproduces it |
| `GenOp.IncreasingJoin` | src/ekobox/gen_op.py:16-66 | two increasing runs, the first ending below the second's start, join into an increasing grid |
| `GenOp.XgridRowsIncreasing` | src/ekobox/gen_op.py:16-66 | each seven-point stretch of the default grid is increasing and ends below the next stretch |
| `GenOp.DefaultXgridIncreasing` | src/ekobox/gen_op.py:16-66 | the default grid has 49 increasing points from 1e-7 to 1 |
| `GenOp.DefaultInterpolation` | src/ekobox/gen_op.py:14-66 | the defaults hold the 49 strictly increasing points from 1e-7 to 1, polynomial degree 4 and logarithmic interpolation |
| `GenOp.IncreasingPairs` | src/ekobox/gen_op.py:16-66 | an increasing grid is ordered at every pair of positions |
| `Compile.Cut` | src/eko/compile.py:30-36 | nothing is cut unless both the start and the end marker of the order occur; the markers are found with `Common.Find`, whose meaning `Common.FindMeaning` states |
| `Compile.Repeat` | src/eko/compile.py:38 | `"n" * k` has k letters n, and none for a negative k |
| `Compile.Parse` | src/eko/compile.py:8-40 | the code is the source with the blocks of every order above max_order cut and `__nklo` replaced by the order's tag, and the name gets the same replacement; from order 3 up only the tag changes |
| `Compile.CutKeepsEndMarker` | src/eko/compile.py:30-36 | with the start marker before the end marker, the cut removes exactly the text from the start marker up to the end marker, keeping the end marker |
| `Compile.CutEndFirstDuplicates` | src/eko/compile.py:30-36 | with the end marker before the start marker, the slice `cnt[:s] + cnt[e:]` is s - e characters longer than the source: the text between them appears twice |
| `Compile.Tag` | src/eko/compile.py:38 | the tag is max_order letters n (none for a negative order) followed by "lo" |
| `Compile.ReplaceAbsent` | src/eko/compile.py:39-40 | a text without the placeholder is left unchanged |
| `Compile.Replace` | src/eko/compile.py:39-40 | each replaced occurrence changes the length by the difference of the two tags |
| `Compile.NoCutAboveThree` | src/eko/compile.py:29 | for max_order 3 or more the loop `range(max_order + 1, 4)` is empty, so nothing is cut |
| `Apply.Zip` | src/ekobox/apply.py:74-75 | `dict(zip(keys, rows))` has exactly the keys among the first min(len(keys), len(rows)) |
| `Apply.PidLabels` | src/ekobox/apply.py:74-75 | the target pids, in order, as dictionary keys |
| `Apply.EvolLabels` | src/ekobox/apply.py:87-88 | the 14 evolution basis names, in order, as dictionary keys |
| `Apply.FlavorToEvolution` | src/ekomark/apply.py:29-33 | the rotation `apply_pdf` passes is the 14 x 14 flavour-to-evolution matrix |
| `Apply.InputMatrix` | src/ekobox/apply.py:57-66 | the sampled PDF has one row per input pid and one column per input x |
| `Apply.InputRow` | src/ekobox/apply.py:61-66 | one pid's row has one value per input x |
| `Apply.InputPdfs` | src/ekobox/apply.py:57-66 | starting from zeros, row j is xfxQ2(pid, x, q2_ref) / x on the input grid when the PDF has the pid and stays zero otherwise |
| `Apply.Contract` | src/ekobox/apply.py:71-72 | `einsum("ajbk,bk")` of an na x nj x nb x nk operator gives an na x nj matrix |
| `Apply.Evolve` | src/ekobox/apply.py:69-76 | one result per final scale of the output |
| `Apply.EvolveAll` | src/ekobox/apply.py:69-76 | the loop over the final scales applies every operator and error to the sampled PDF |
| `Apply.RotatedSet` | src/ekobox/apply.py:79-88 | rotating one scale fails with a KeyError exactly when a flavour basis pid is missing |
| `Apply.Rotate` | src/ekobox/apply.py:79-88 | rotating all scales fails exactly when some scale misses a flavour basis pid, and otherwise keeps the scales |
| `Apply.RotatedMap` | src/ekobox/apply.py:79-88 | when every scale has the flavour basis pids, each scale becomes its evolution-basis rotation |
| `Apply.RotateAll` | src/ekobox/apply.py:79-88 | the loop over the scales computes the rotation specification, including its KeyError |
| `Apply.InterpolatedSet` | src/ekobox/apply.py:91-101 | interpolating keeps the labels of distributions and errors and gives each distribution one value per target point |
| `Apply.InterpolateSet` | src/ekobox/apply.py:95-101 | the label loop rewrites each distribution and error as rot times the old one |
| `Apply.Interpolate` | src/ekobox/apply.py:91-101 | interpolation keeps the final scales |
| `Apply.InterpolateAll` | src/ekobox/apply.py:94-101 | the scale loop computes the interpolation specification |
| `Apply.ApplyPdfFlavor` | src/ekobox/apply.py:35-103 | `apply_pdf_flavor` samples the PDF, applies every operator, rotates when a rotation is given and interpolates when a target grid is given, exactly as the specification composes them |
| `Apply.ApplyPdf` | src/ekobox/apply.py:7-32 | `apply_pdf` passes the flavour-to-evolution rotation exactly when the evolution basis is asked for |
| `Apply.ApplyPdfAllMembers` | src/ekobox/apply.py:106-133 | anything but a list is a TypeError; otherwise one result per member, in order, succeeding exactly when every member succeeds |
| `Apply.ContractRotatedAt` | src/ekobox/apply.py:71-88 | applying an operator rotated on its output flavour gives the rotation of the applied distributions, entry by entry |
| `Apply.OnTargetFlavorRotated` | src/eko/output/manipulate.py:125-126 | the output-flavour einsum is rotated at every output flavour and point |
| `Apply.ContractTargetFlavor` | src/ekobox/apply.py:71-88 | contract(m . ops) == m . contract(ops): rotating the operator then applying it equals applying it then rotating the result |
| `Apply.EvolvedShape` | src/ekobox/apply.py:71-76 | every distribution and error at a scale has one value per output x, under the same labels |
| `Apply.EvolveShape` | src/ekobox/apply.py:69-76 | every scale's distributions and errors have one value per output x, under the same labels |
| `Apply.EvolBasisShape` | src/ekomark/apply.py:80-89 | in the evolution basis every distribution and error still has nj points, under the same labels |
| `Apply.RotateShape` | src/ekobox/apply.py:79-88 | a successful rotation keeps nj points and paired labels at every scale |
| `Apply.RotateFails` | src/ekobox/apply.py:79-88 | one scale without a flavour basis pid makes the whole rotation a KeyError |
| `Apply.RotateSucceeds` | src/ekobox/apply.py:79-88 | the rotation of every scale, collected, is the successful rotation |
| `Apply.RotatedMapIs` | src/ekobox/apply.py:79-88 | the collected rotations are the rotated map |
| `Apply.ZipRows` | src/ekobox/apply.py:74-75 | every value of `dict(zip(...))` is one of the rows, with their length |
| `Apply.ZipAt` | src/ekobox/apply.py:74-75 | with distinct keys, every key is paired with the row at its position |
| `BasisRotation.FlavorBasisShape` | src/eko/basis_rotation.py:21-38 | both bases have 14 distinct entries, the quarks 1..6 last and the antiquarks -6..-1 after the photon |
| `BasisRotation.Rotate` | src/eko/basis_rotation.py:85-89 | a rotated vector has 14 entries, entry i being row i of the matrix times the vector |
| `BasisRotation.RotationsAreInverse` | src/eko/basis_rotation.py:40-61 | the flavour-to-evolution matrix and the evolution-to-flavour matrix are inverse: rotating one way and back gives the vector, in both orders |
| `BasisRotation.Missing` | src/eko/basis_rotation.py:112-133 | a label is recorded exactly when it is among the basis labels visited, not g, S or V, and not given |
| `BasisRotation.LinAlgZero` | src/eko/basis_rotation.py:125-126 | the photon's trivial distribution: n zeros |
| `BasisRotation.Inserted` | src/eko/basis_rotation.py:121-133 | after the insertions, a label is present exactly when it was given or inserted |
| `BasisRotation.EvolBasisLabels` | src/eko/basis_rotation.py:23-38 | the evolution basis starts ph, S, g, V, and every later label starts with V or T |
| `BasisRotation.FillTrivialFails` | src/eko/basis_rotation.py:117-120 | `fill_trivial_dists` raises a KeyError exactly when S or V is absent |
| `BasisRotation.FillTrivialKeys` | src/eko/basis_rotation.py:110-134 | given distributions are kept, g is never inserted, every other label is present afterwards, and the recorded labels are exactly the inserted ones |
| `BasisRotation.FillTrivialValues` | src/eko/basis_rotation.py:124-131 | the photon is inserted as zeros of the length of S, V-labels as V, T-labels as S |
| `BasisRotation.InsertedStep` | src/eko/basis_rotation.py:112-133 | one more loop turn inserts its label at its trivial value exactly when it is fillable and absent |
| `BasisRotation.FillTrivialDists` | src/eko/basis_rotation.py:94-134 | the loop over the evolution basis computes the `fill_trivial_dists` specification |
| `BasisRotation.TrivialCounts` | src/eko/basis_rotation.py:155-162 | every quark that lowers the last quark pid lowers the last valence pid too, and at most 7 - lo quarks count |
| `BasisRotation.LastPids` | src/eko/basis_rotation.py:153-162 | the last quark and valence pids are 6 minus the count of trivial T-labels (and of trivial T- or V-labels) for q = 6, 5, 4, so 3 <= last valence <= last quark <= 6 |
| `BasisRotation.PidIndex` | src/eko/basis_rotation.py:165 | every flavour pid has its position in the flavour basis |
| `BasisRotation.Origin` | src/eko/basis_rotation.py:174-176 | a pid receives its own rotation unless it is a copied antiquark, which receives its quark's |
| `BasisRotation.Column` | src/eko/basis_rotation.py:152 | the evolution vector at a grid point holds entry x of each basis label, in basis order |
| `BasisRotation.FlavorValue` | src/eko/basis_rotation.py:172-173 | flavour j at each point is row j of the inverse rotation times the evolution vector there |
| `BasisRotation.FillOnGrid` | src/eko/basis_rotation.py:151-152 | after filling, every label is present with n points, so the evolution list can be built |
| `BasisRotation.FillKeepsGluon` | src/eko/basis_rotation.py:112-115 | the filled distributions hold g exactly when the input does |
| `BasisRotation.RotateOutput` | src/eko/basis_rotation.py:136-177 | `rotate_output`, with its loops, computes the rotation specification, its KeyError included |
| `BasisRotation.RotateFilled` | src/eko/basis_rotation.py:152-177 | the rotation of the filled distributions is the kept rotations plus the copied antiquarks |
| `BasisRotation.RotateKept` | src/eko/basis_rotation.py:164-173 | exactly the pids not skipped are rotated back, each from its row of the inverse rotation |
| `BasisRotation.CopyStart` | src/eko/basis_rotation.py:175 | before the copy loop only the kept pids are present |
| `BasisRotation.CopyStep` | src/eko/basis_rotation.py:175-176 | each copy reads a quark that is present and extends the copied antiquarks by one |
| `BasisRotation.CopyDone` | src/eko/basis_rotation.py:175-177 | after the copy loop the result is the rotation specification |
| `BasisRotation.CopyAntiquarks` | src/eko/basis_rotation.py:175-176 | the antiquarks -last quark .. -last valence - 1 receive their quark's distribution |
| `BasisRotation.OutPidsShape` | src/eko/basis_rotation.py:164-176 | the result holds flavour pids only, always g and the light quarks and antiquarks, the photon exactly when it is not trivial, and each antiquark exactly when its quark |
| `BasisRotation.PhotonTrivial` | src/eko/basis_rotation.py:122-133 | the photon is recorded as trivial exactly when it was not given |
| `BasisRotation.RotateOutputFails` | src/eko/basis_rotation.py:151-152 | `rotate_output` fails exactly when S, V or g is missing, always with a KeyError |
| `BasisRotation.RotateOutputKeys` | src/eko/basis_rotation.py:151-177 | a successful `rotate_output` returns flavour pids only, always g and the light quarks and antiquarks, the photon exactly when given, every antiquark exactly when its quark |
| `BasisRotation.FlavorColumn` | src/eko/basis_rotation.py:86-88 | the flavour vector at a point holds entry x of each pid, in flavour basis order |
| `BasisRotation.EvolValue` | src/eko/basis_rotation.py:83-89 | evolution label k at each point is row k of the flavour-to-evolution matrix times the flavour vector there |
| `BasisRotation.EvolOf` | src/eko/basis_rotation.py:80-92 | the rotated input holds every evolution label, each the rotation of the flavour distributions, and nothing else |
| `BasisRotation.RotationShapes` | src/eko/basis_rotation.py:40-61 | both rotation matrices are 14 by 14 |
| `BasisRotation.EvolOnGrid` | src/eko/basis_rotation.py:80-92 | every label of the rotated input has n points |
| `BasisRotation.ColumnOfEvol` | src/eko/basis_rotation.py:83-89 | the evolution vector of the rotated input at a point is the rotated flavour vector |
| `BasisRotation.FlavorOfEvol` | src/eko/basis_rotation.py:172-173 | rotating the rotated input back gives each flavour's own distribution |
| `BasisRotation.NoneMissing` | src/eko/basis_rotation.py:121-123 | with every label given, none is recorded as missing |
| `BasisRotation.NothingTrivial` | src/eko/basis_rotation.py:110-134 | a complete evolution-basis input is returned unchanged with no trivial labels |
| `BasisRotation.RotateOutputRoundTrip` | src/eko/basis_rotation.py:136-177 | distributions for every flavour, rotated to the evolution basis, come back unchanged from `rotate_output` |
| `BasisRotation.CompleteInput` | src/eko/basis_rotation.py:151-162 | a complete evolution-basis input is rotated with nothing trivial and both last pids at 6 |
| `BasisRotation.NoTrivialCounts` | src/eko/basis_rotation.py:155-162 | with no trivial label, no quark lowers either last pid |
| `BasisRotation.RotatedComplete` | src/eko/basis_rotation.py:164-177 | with nothing trivial, every flavour pid is rotated back to its own distribution |

## Left out

- Floating point and complex arithmetic: every quantity is an exact `real`. Complex Mellin moments appear only at integer moments, or as reals where just ring identities are used. Rounding, overflow and NaN are not modelled.
- `np.isclose` and `np.allclose`:
  - the scale comparisons in `a_s`, the grids and the output become exact equality;
  - `approx`, `xgrid_reshape` and `flavor_reshape` keep numpy's formula as the `IsClose` predicate, with numpy's default tolerances.
- Special functions and numerical analysis are parameters of the functions that use them. They are not modelled themselves:
  - log, exp, sqrt, pi and the zeta values;
  - the digamma and polygamma harmonic sums of `src/eko/harmonics`;
  - the Talbot path and `quad` of `src/eko/mellin.py`;
  - `solve_ivp` in the exact coupling solution;
  - `np.linalg.eig` and the matrix exponential of `exp_singlet`;
  - `np.linalg.inv`: `rotate_evolution_to_flavor` is entered as its exact inverse and proved to be one. `flavor_reshape` takes it as a partial function, which gives no inverse where numpy raises LinAlgError;
  - the interpolation dispatcher and its `get_interpolation` matrices;
  - the geometric default grids.
- The operator matrix elements (`src/eko/matching_conditions/operator_matrix_element.py`) and the numerical `Operator` integrals are not part of this model. The grids identify an operator by the segment it is computed for, and a set of matrix elements by its threshold and ratio.
- The large fitted parametrisations are not part of this model, because their values are floating-point fits with no exact property to state:
  - the N3LO matching elements;
  - `as3/aqqNS.py`;
  - the as4 kernels;
  - `nnlo.py`;
  - `zm_ome.py`;
  - the f and g functions.
- `src/eko/matching_conditions/n3lo/__init__.py` is not modelled. It calls the N3LO elements without the `L` argument they require.
- The non-singlet kernels (`src/eko/kernels/non_singlet.py`), `src/eko/dglap.py` and the MSbar mass running (`src/eko/msbar_masses.py`) are not part of this model.
- The QED branch of `rotate_matching` is not modelled. It rebinds `a` to a number before calling it as a function, so it cannot run.
- I/O is not modelled:
  - the YAML and tar dump and load of `src/eko/output.py`;
  - `load` and `raw` of the output structure;
  - `Output.apply_pdf` (`src/eko/output.py:23-73`), which duplicates the `Apply` module;
  - LHAPDF writing in `src/ekobox/evol_pdf.py`;
  - the runner `src/eko/runner.py`, which is glue code.
- `generate_input_from_lhapdf` is not modelled as a dictionary of callables. The rotation it applies at each x is `BasisRotation.EvolOf`.
- `parse` in `src/eko/compile.py` is modelled as a text rewrite only. Reading the source with `inspect` and executing the result with `exec` are left out.
- Logging and warnings are left out. A grid or basis dropped with a warning is simply dropped.
- `Flavors.GetRange`: labels are read as plain decimal digits. Python's `int()` would also accept a sign, surrounding whitespace and underscores.
- `EkoStruct.EKO.Approx`: the method's own contract states only that it fails with a ValueError. Its meaning (the unique close scale, None, or the ambiguity error) is stated by `EkoStruct.ApproxMeaning`.
- `StrongCoupling.ComputeExact`: beyond LO the exact solution is the result of a parameter (the ODE solver), so it has no contract except at order 0 and at equal scales.
- `Grid.OperatorGrid.Generate` and `LegacyGrid.OperatorGrid.ComputeRawGrid`: operators are identified by what they are built from. The contracts state which factors are composed and in which order, not their numerical product.
- The anomalous-dimension towers are taken as given. In `src/eko/anomalous_dimensions/__init__.py:164` and `:237`, `gamma_ns` and `gamma_singlet` index `order[0]`, as for an (as, aem) order pair. The callers below still pass a plain integer order, and indexing an integer is a TypeError, so as written each of these calls fails before doing anything else. The model leaves the tower computation out and describes what the callers do with a tower:
  - `KernelDispatch.ComputeNsKernel`: models only the kernel selection of `src/eko/kernels/__init__.py:98-112`. The `ad.gamma_ns` call before it, with its TypeError, is not modelled.
  - `KernelDispatch.ComputeSingletKernel`: models only the kernel selection of `src/eko/kernels/__init__.py:134-147`. The `ad.gamma_singlet` call before it, with its TypeError, is not modelled.
  - `Operator.GammaNsFact`: the tower `ad.gamma_ns` returns at `src/eko/operator/operator.py:26` is the array argument. The model does not fail with the TypeError.
  - `Operator.GammaSingletFact`: the tower `ad.gamma_singlet` returns at `src/eko/operator/operator.py:34-38` is the array argument. The model does not fail with the TypeError.
  - `Operator.QuadKer`: it reaches the two factorised towers at `src/eko/operator/operator.py:115` and `:125`, so as written it shares their TypeError. The model takes their kernels as parameters.
- `Manipulate.Eko.FlavorReshape`: every basis must be square in its side's pids. numpy also broadcasts a 1 x n output basis, both in `np.allclose` against the identity and in the `einsum` at `src/eko/output/manipulate.py:125-132`. With such a basis the source rotates the output side down to one flavour, while the model gives a ValueError. The model cannot take that shape, because the source would then leave n zero pids beside a tensor with one output flavour, and the model keeps every element shaped by its pids.
- The QED anomalous dimensions are modelled as the dispatch the code evidently intends. As written, they cannot produce a table:
  - `As1Aem1.GammaPhph` and `As1Aem1.GammaGg`: at `src/eko/anomalous_dimensions/as1aem1.py:208-209` and `:228-229`, both take no argument, but they carry the eager numba signature `"c16(c16,u1)"`. Compiling them fails when `as1aem1` is imported, and `src/eko/anomalous_dimensions/__init__.py:25` imports it. The model reads the module as if it loaded, which is what lets any of its kernels be stated at all, and gives both functions their constant values.
  - `AnomalousDimensions.GammaNsQed`: `gamma_ns_qed` is compiled with numba, but calls `e2` (`src/eko/anomalous_dimensions/__init__.py:306`), which is a plain Python function (`:339`), so compilation fails. The model calls `E2` directly.
  - `AnomalousDimensions.FillMixedAndNnlo`: at `src/eko/anomalous_dimensions/__init__.py:309` and `:311`, the a_s a_em slot calls `as1aem1.gamma_nsp(n, sx)` and `gamma_nsm(n, sx)` with two arguments, while both take `(N, nf, sx)` (`src/eko/anomalous_dimensions/as1aem1.py:249`, `:316`). The model fills the slot with the kernel of the mode, as `AnomalousDimensions.MixedEntry` states.
  - `AnomalousDimensions.GammaSingletQed`: `src/eko/anomalous_dimensions/__init__.py:399` calls `as1aem1.gamma_singlet`, which `as1aem1.py` does not define. The model takes the a_s a_em singlet kernel as a parameter.
  - `AnomalousDimensions.GammaValenceQed`: `src/eko/anomalous_dimensions/__init__.py:448` calls `as1aem1.gamma_valence`, which `as1aem1.py` does not define. The model takes the a_s a_em valence kernel as a parameter.

## Findings

| source | as written | input that shows it | evidently intended | confidence | as-written member | corrected member |
|---|---|---|---|---|---|---|
| src/eko/strong_coupling.py:218-225 | outside FFNS the coupling's own atlas is rebuilt from the walls alone, so its lowest flavour number falls back to 3 whatever `min_nf` the given atlas has | a FONLL-A atlas with only the b wall and `min_nf = 4`: above m_b^2 the coupling runs with nf = 4 where the atlas has nf = 5 | the coupling's areas carry the flavour numbers of the atlas it was built from | not executed; high | `StrongCoupling.AtlasAsWrittenLosesFlavour` | `StrongCoupling.AtlasKeepsFlavours` |
| src/eko/kernels/__init__.py:147-153 | at NLO the singlet kernel is always `nlo_iterate`, whatever the evolution method | method "truncated" gets the iterated kernel; "decompose-exact" calls it with no iteration count and fails | the kernel `dispatcher_nlo` selects for the method | not executed; medium | `KernelDispatch.SingletKernelIgnoresMethod` | `KernelDispatch.DispatchedKernelExists` |
