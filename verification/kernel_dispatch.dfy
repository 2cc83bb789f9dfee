/**
 * The integration kernel set-up: the dispatcher that validates the
 * evolution method and prepares the evolution integrals, and the kernel
 * object that picks the Talbot path, the extra kernel arguments and the
 * singlet matrix element under the Mellin inversion integral.
 */
module KernelDispatch {
  import opened Common
  import StrongCoupling
  import SingletEvolution

  // ---------------------------------------------------------------- configuration

  /** The dispatcher configuration: the order, the method and the two evolution settings. */
  datatype Config = Config(order: int, evMethod: string, evOpMaxOrder: int, evOpIterations: int)

  /** The constructor's check: a method outside the eight known ones is a ValueError. */
  function CheckMethod(evMethod: string): (r: Result<string>)
    ensures r.Ok? <==> evMethod in SingletEvolution.Methods
    ensures r.Ok? ==> r.value == evMethod
    ensures r.Err? ==> r.error == ValueError
  {
    if evMethod in SingletEvolution.Methods then Ok(evMethod) else Err(ValueError)
  }

  /** The dispatcher accepts exactly the methods for which the singlet NLO kernel exists. */
  lemma AcceptedMethodsHaveKernels(evMethod: string)
    ensures CheckMethod(evMethod).Ok? <==> SingletEvolution.DispatcherNlo(evMethod).Ok?
  {
  }

  /** The theory card entries `from_dict` reads; absent entries are None. */
  datatype Setup = Setup(pto: Option<int>, modEv: Option<string>, evOpMaxOrder: Option<int>, evOpIterations: Option<int>)

  /** The short `ModEv` names EXA, EXP and TRN; any other name passes through unchanged. */
  function ModEvToMethod(modEv: string): (m: string)
    ensures modEv == "EXA" ==> m == "iterate-exact"
    ensures modEv == "EXP" ==> m == "iterate-expanded"
    ensures modEv == "TRN" ==> m == "truncated"
    ensures modEv !in ["EXA", "EXP", "TRN"] ==> m == modEv
  {
    if modEv == "EXA" then "iterate-exact"
    else if modEv == "EXP" then "iterate-expanded"
    else if modEv == "TRN" then "truncated"
    else modEv
  }

  /**
   * `from_dict`: PTO is required; ModEv defaults to iterate-exact and its
   * short names are expanded; both evolution settings default to 10; the
   * result is then checked as the constructor checks it.
   */
  function ConfigFromSetup(setup: Setup): (r: Result<Config>)
    ensures setup.pto.None? ==> r == Err(KeyError)
    ensures r.Ok? ==> r.value.evMethod in SingletEvolution.Methods && r.value.order == setup.pto.value
    ensures r.Ok? ==> r.value.evOpMaxOrder == (if setup.evOpMaxOrder.Some? then setup.evOpMaxOrder.value else 10)
    ensures r.Ok? ==> r.value.evOpIterations == (if setup.evOpIterations.Some? then setup.evOpIterations.value else 10)
    ensures setup.pto.Some? && setup.modEv.None? ==> r.Ok? && r.value.evMethod == "iterate-exact"
  {
    if setup.pto.None? then Err(KeyError)
    else
      var evMethod := ModEvToMethod(if setup.modEv.Some? then setup.modEv.value else "iterate-exact");
      match CheckMethod(evMethod)
      case Err(e) => Err(e)
      case Ok(m) =>
        Ok(Config(setup.pto.value, m,
                  if setup.evOpMaxOrder.Some? then setup.evOpMaxOrder.value else 10,
                  if setup.evOpIterations.Some? then setup.evOpIterations.value else 10))
  }

  /** A card with PTO is accepted exactly when its ModEv, once short names are expanded, is a known method. */
  lemma FromSetupAccepts(setup: Setup)
    requires setup.pto.Some? && setup.modEv.Some?
    ensures ConfigFromSetup(setup).Ok? <==> ModEvToMethod(setup.modEv.value) in SingletEvolution.Methods
    ensures ConfigFromSetup(setup).Ok? <==> setup.modEv.value in ["EXA", "EXP", "TRN"] || setup.modEv.value in SingletEvolution.Methods
  {
  }

  // ---------------------------------------------------------------- loop variables

  /** A dispatcher variable: a number, or the grid of coupling values. */
  datatype Var = Num(x: real) | Grid(points: seq<real>)

  /** beta_1 never vanishes for an integer number of flavours (it would need nf = 153/19). */
  lemma Beta1NonZero(nf: int)
    ensures StrongCoupling.Beta1(nf) != 0.0
  {
    assert 306 - 38 * nf != 0;
    assert StrongCoupling.Beta1(nf) == (306 - 38 * nf) as real / 3.0;
  }

  /** j00 = ln(a1/a0) / beta_0. */
  function J00(env: Env, nf: int, a1: real, a0: real): real
    requires a0 != 0.0
  {
    StrongCoupling.Beta0NonZero(nf);
    env.log(a1 / a0) / StrongCoupling.Beta0(nf)
  }

  /** j11: ln((1 + a1 b1)/(1 + a0 b1)) / beta_1 for the exact methods, (a1 - a0)/beta_0 for the others. */
  function J11(env: Env, evMethod: string, nf: int, a1: real, a0: real): real
    requires ExactIntegrals(evMethod) ==> Regular(a0, B1(nf))
  {
    if ExactIntegrals(evMethod) then
      Beta1NonZero(nf);
      ExactJ11Of(env, StrongCoupling.Beta1(nf), B1(nf), a1, a0)
    else
      StrongCoupling.Beta0NonZero(nf);
      ExpandedJ11Of(StrongCoupling.Beta0(nf), a1, a0)
  }

  /** 1 + a b1 does not vanish, so the exact j11 can divide by it. */
  predicate Regular(a: real, b1: real)
  {
    1.0 + a * b1 != 0.0
  }

  /** The exact j11 for given beta_1 and b1. */
  function ExactJ11Of(env: Env, beta1: real, b1: real, a1: real, a0: real): real
    requires beta1 != 0.0 && Regular(a0, b1)
  {
    (1.0 / beta1) * env.log((1.0 + a1 * b1) / (1.0 + a0 * b1))
  }

  /** The expanded j11 for a given beta_0. */
  function ExpandedJ11Of(beta0: real, a1: real, a0: real): real
    requires beta0 != 0.0
  {
    1.0 / beta0 * (a1 - a0)
  }

  /** The methods whose j11 is the exact integral. */
  predicate ExactIntegrals(evMethod: string)
  {
    evMethod == "iterate-exact" || evMethod == "decompose-exact"
  }

  /** b1 = beta_1 / beta_0. */
  function B1(nf: int): real
  {
    StrongCoupling.Beta0NonZero(nf);
    StrongCoupling.Beta1(nf) / StrongCoupling.Beta0(nf)
  }

  /** The set-up of one loop is computable: a0 is non-zero, and so is 1 + a0 b1 when the exact j11 is needed. */
  predicate LoopDefined(config: Config, nf: int, a0: real)
  {
    a0 != 0.0 && (config.order > 0 && ExactIntegrals(config.evMethod) ==> Regular(a0, B1(nf)))
  }

  /**
   * The variables after `init_loops(nf, a1, a0)`: nf, a1, a0, beta_0 and
   * j00 always; beta_1, b1, j11, j01 and the coupling grid only when the
   * order is above LO. `grid` stands for the geometric grid from a0 to a1.
   */
  function LoopVars(env: Env, config: Config, prior: map<string, Var>, nf: int, a1: real, a0: real, grid: seq<real>): (v: map<string, Var>)
    requires LoopDefined(config, nf, a0)
    ensures forall k :: k in prior ==> k in v
    ensures forall k :: k in ["nf", "a1", "a0", "beta_0", "j00"] ==> k in v
    ensures config.order > 0 ==> forall k :: k in ["beta_1", "b1", "j11", "j01", "as"] ==> k in v
    ensures v["nf"] == Num(nf as real) && v["a1"] == Num(a1) && v["a0"] == Num(a0)
    ensures v["beta_0"] == Num(StrongCoupling.Beta0(nf)) && v["j00"] == Num(J00(env, nf, a1, a0))
    ensures config.order > 0 ==> v["j01"] == Num(J00(env, nf, a1, a0) - B1(nf) * J11(env, config.evMethod, nf, a1, a0))
    ensures config.order > 0 ==> v["as"] == Grid(grid) && v["b1"] == Num(B1(nf))
    ensures config.order <= 0 ==> forall k :: k in v && k !in prior ==> k in ["nf", "a1", "a0", "beta_0", "j00"]
  {
    var lo := prior["nf" := Num(nf as real)]["a1" := Num(a1)]["a0" := Num(a0)]
                 ["beta_0" := Num(StrongCoupling.Beta0(nf))]["j00" := Num(J00(env, nf, a1, a0))];
    if config.order > 0 then
      var v := NloVars(env, config.evMethod, lo, nf, a1, a0, grid);
      assert v["j01"] == Num(J00(env, nf, a1, a0) - B1(nf) * J11(env, config.evMethod, nf, a1, a0));
      v
    else lo
  }

  /** The expanded j11 vanishes at a1 = a0, and then j01 = j00 for every method. */
  lemma NoEvolutionNoIntegral(env: Env, evMethod: string, nf: int, a: real)
    requires ValidEnv(env) && a != 0.0
    requires ExactIntegrals(evMethod) ==> Regular(a, B1(nf))
    ensures J00(env, nf, a, a) == 0.0 && J11(env, evMethod, nf, a, a) == 0.0
  {
    assert a / a == 1.0;
    if ExactIntegrals(evMethod) {
      ExactJ11AtSameCoupling(env, evMethod, nf, a);
    }
  }

  /** The exact j11 is ln(1)/beta_1 = 0 when both couplings agree. */
  lemma ExactJ11AtSameCoupling(env: Env, evMethod: string, nf: int, a: real)
    requires ValidEnv(env) && ExactIntegrals(evMethod) && Regular(a, B1(nf))
    ensures J11(env, evMethod, nf, a, a) == 0.0
  {
    Beta1NonZero(nf);
    ExactJ11OfVanishes(env, StrongCoupling.Beta1(nf), B1(nf), a);
  }

  /** ln(1) = 0 makes the exact j11 vanish between equal couplings. */
  lemma ExactJ11OfVanishes(env: Env, beta1: real, b1: real, a: real)
    requires ValidEnv(env) && beta1 != 0.0 && Regular(a, b1)
    ensures ExactJ11Of(env, beta1, b1, a, a) == 0.0
  {
    var d := 1.0 + a * b1;
    assert d / d == 1.0;
  }

  /** The variables `init_nlo` adds: beta_1, b1, the method's j11, j01 = j00 - b1 j11 and the coupling grid. */
  function NloVars(env: Env, evMethod: string, prior: map<string, Var>, nf: int, a1: real, a0: real, grid: seq<real>): map<string, Var>
    requires a0 != 0.0 && (ExactIntegrals(evMethod) ==> Regular(a0, B1(nf)))
  {
    var j11 := J11(env, evMethod, nf, a1, a0);
    prior["beta_1" := Num(StrongCoupling.Beta1(nf))]["b1" := Num(B1(nf))]["j11" := Num(j11)]
      ["j01" := Num(J00(env, nf, a1, a0) - B1(nf) * j11)]["as" := Grid(grid)]
  }

  /** `NloVars` written out for given values of j11, b1 and j01. */
  lemma NloVarsEntries(env: Env, evMethod: string, prior: map<string, Var>, nf: int, a1: real, a0: real, grid: seq<real>,
                       j11: real, b1: real, j01: real)
    requires a0 != 0.0 && (ExactIntegrals(evMethod) ==> Regular(a0, B1(nf)))
    requires j11 == J11(env, evMethod, nf, a1, a0) && b1 == B1(nf) && j01 == J00(env, nf, a1, a0) - b1 * j11
    ensures NloVars(env, evMethod, prior, nf, a1, a0, grid)
         == prior["beta_1" := Num(StrongCoupling.Beta1(nf))]["b1" := Num(b1)]["j11" := Num(j11)]["j01" := Num(j01)]["as" := Grid(grid)]
  {
    var v := NloVars(env, evMethod, prior, nf, a1, a0, grid);
    var w := prior["beta_1" := Num(StrongCoupling.Beta1(nf))]["b1" := Num(b1)]["j11" := Num(j11)]["j01" := Num(j01)]["as" := Grid(grid)];
    assert v.Keys == w.Keys;
    assert forall k :: k in v ==> v[k] == w[k];
  }

  /** The dispatcher: its configuration and the variable dictionary filled before the loops. */
  class KernelDispatcher {
    var config: Config
    var vars: map<string, Var>

    /** `KernelDispatcher(config)`, for a configuration whose method has passed the check. */
    constructor (c: Config)
      requires CheckMethod(c.evMethod).Ok?
      ensures config == c && vars == map[]
    {
      config := c;
      vars := map[];
    }

    /** `init_lo`: beta_0 and j00 from the stored nf, a1 and a0. */
    method InitLo(env: Env, nf: int, a1: real, a0: real)
      requires a0 != 0.0
      requires "nf" in vars && "a1" in vars && "a0" in vars
      requires vars["nf"] == Num(nf as real) && vars["a1"] == Num(a1) && vars["a0"] == Num(a0)
      modifies this
      ensures config == old(config)
      ensures vars == old(vars)["beta_0" := Num(StrongCoupling.Beta0(nf))]["j00" := Num(J00(env, nf, a1, a0))]
    {
      StrongCoupling.Beta0NonZero(nf);
      var beta0 := StrongCoupling.Beta0(nf);
      vars := vars["beta_0" := Num(beta0)];
      vars := vars["j00" := Num(env.log(a1 / a0) / beta0)];
    }

    /** `init_nlo`: beta_1, b1, the method's j11, j01 = j00 - b1 j11 and the coupling grid. */
    method InitNlo(env: Env, nf: int, a1: real, a0: real, grid: seq<real>)
      requires a0 != 0.0
      requires ExactIntegrals(config.evMethod) ==> Regular(a0, B1(nf))
      requires "beta_0" in vars && vars["beta_0"] == Num(StrongCoupling.Beta0(nf))
      requires "j00" in vars && vars["j00"] == Num(J00(env, nf, a1, a0))
      modifies this
      ensures config == old(config)
      ensures vars == NloVars(env, config.evMethod, old(vars), nf, a1, a0, grid)
    {
      StrongCoupling.Beta0NonZero(nf);
      Beta1NonZero(nf);
      ghost var v0 := vars;
      var beta0 := vars["beta_0"].x;
      var j00 := vars["j00"].x;
      var beta1 := StrongCoupling.Beta1(nf);
      vars := vars["beta_1" := Num(beta1)];
      var b1 := beta1 / beta0;
      assert b1 == B1(nf);
      vars := vars["b1" := Num(b1)];
      var j11;
      if ExactIntegrals(config.evMethod) {
        j11 := ExactJ11Of(env, beta1, b1, a1, a0);
      } else {
        j11 := ExpandedJ11Of(beta0, a1, a0);
      }
      vars := vars["j11" := Num(j11)];
      vars := vars["j01" := Num(j00 - b1 * j11)];
      vars := vars["as" := Grid(grid)];
      assert j11 == J11(env, config.evMethod, nf, a1, a0);
      assert j00 == J00(env, nf, a1, a0);
      NloVarsEntries(env, config.evMethod, v0, nf, a1, a0, grid, j11, b1, j00 - b1 * j11);
    }

    /** `init_loops`: store nf, a1 and a0, set up LO, and NLO only above LO. */
    method InitLoops(env: Env, nf: int, a1: real, a0: real, grid: seq<real>)
      requires LoopDefined(config, nf, a0)
      modifies this
      ensures config == old(config)
      ensures vars == LoopVars(env, config, old(vars), nf, a1, a0, grid)
    {
      vars := vars["nf" := Num(nf as real)];
      vars := vars["a1" := Num(a1)];
      vars := vars["a0" := Num(a0)];
      InitLo(env, nf, a1, a0);
      if config.order > 0 {
        InitNlo(env, nf, a1, a0, grid);
      }
    }
  }

  /** `from_dict` followed by the constructor: the configuration is checked before any dispatcher exists. */
  method FromDict(setup: Setup) returns (r: Result<KernelDispatcher>)
    ensures r.Ok? <==> ConfigFromSetup(setup).Ok?
    ensures r.Err? ==> r == Err(ConfigFromSetup(setup).error)
    ensures r.Ok? ==> fresh(r.value) && r.value.config == ConfigFromSetup(setup).value && r.value.vars == map[]
  {
    var c := ConfigFromSetup(setup);
    if c.Err? {
      return Err(c.error);
    }
    var d := new KernelDispatcher(c.value);
    r := Ok(d);
  }

  // ---------------------------------------------------------------- kernel object

  /** `is_singlet`: the mode starts with S; indexing the empty mode is an IndexError. */
  function IsSinglet(mode: string): (r: Result<bool>)
    ensures r.Err? <==> |mode| == 0
    ensures r.Err? ==> r.error == IndexError
    ensures r.Ok? ==> (r.value <==> mode[0] == 'S')
  {
    if |mode| == 0 then Err(IndexError) else Ok(mode[0] == 'S')
  }

  /**
   * `get_path_params`: the Talbot parameters (r, o), 0.4 * 16/(1 - log x)
   * and 1 in the singlet sector, 0.5 and 0 otherwise.
   */
  function PathParams(mode: string, logx: real): (r: Result<(real, real)>)
    ensures |mode| == 0 ==> r == Err(IndexError)
    ensures |mode| > 0 && mode[0] != 'S' ==> r == Ok((0.5, 0.0))
    ensures |mode| > 0 && mode[0] == 'S' && logx == 1.0 ==> r == Err(ZeroDivisionError)
    ensures r.Ok? && mode[0] == 'S' ==> r.value.0 * (1.0 - logx) == 6.4 && r.value.1 == 1.0
  {
    match IsSinglet(mode)
    case Err(e) => Err(e)
    case Ok(s) =>
      if s then (if logx == 1.0 then Err(ZeroDivisionError) else Ok((0.4 * 16.0 / (1.0 - logx), 1.0)))
      else Ok((0.5, 0.0))
  }

  /** The Talbot radius of the singlet path is positive at every x < 1, that is log x < 0. */
  lemma SingletRadiusPositive(mode: string, logx: real)
    requires |mode| > 0 && mode[0] == 'S' && logx < 0.0
    ensures PathParams(mode, logx).Ok? && PathParams(mode, logx).value.0 > 0.0
  {
  }

  /** `extra_args_ns`: the number of iterations, for the truncated methods at NLO only. */
  function ExtraArgsNs(config: Config): (args: seq<int>)
    ensures |args| <= 1
    ensures |args| == 1 <==> config.order == 1 && config.evMethod in ["truncated", "ordered-truncated"]
    ensures |args| == 1 ==> args[0] == config.evOpIterations
  {
    if config.order == 1 && config.evMethod in ["truncated", "ordered-truncated"] then [config.evOpIterations] else []
  }

  /** `extra_args_s`: the number of iterations, for the truncated and iterate methods at NLO only. */
  function ExtraArgsS(config: Config): (args: seq<int>)
    ensures |args| <= 1
    ensures |args| == 1 <==> config.order == 1
                             && config.evMethod in ["truncated", "ordered-truncated", "iterate-exact", "iterate-expanded"]
    ensures |args| == 1 ==> args[0] == config.evOpIterations
  {
    if config.order == 1 && config.evMethod in ["truncated", "ordered-truncated", "iterate-exact", "iterate-expanded"]
    then [config.evOpIterations] else []
  }

  /** Whatever the non-singlet kernel receives, the singlet kernel receives too. */
  lemma ExtraArgsNsWithinS(config: Config)
    ensures |ExtraArgsNs(config)| == 1 ==> ExtraArgsS(config) == ExtraArgsNs(config)
  {
  }

  /** The non-singlet kernel `compute_ns` calls: its LO or NLO dispatcher, by order. */
  datatype NsKernel = NsLo(evMethod: string) | NsNlo(evMethod: string)

  /**
   * `compute_ns`: order 0 takes the LO dispatcher and order 1 the NLO one;
   * at any other order no kernel is bound and the call fails.
   */
  function ComputeNsKernel(config: Config): (r: Result<NsKernel>)
    ensures r.Ok? <==> config.order == 0 || config.order == 1
    ensures r.Err? ==> r.error == UnboundLocalError
    ensures r.Ok? ==> r.value.evMethod == config.evMethod && (r.value.NsLo? <==> config.order == 0)
  {
    if config.order == 0 then Ok(NsLo(config.evMethod))
    else if config.order == 1 then Ok(NsNlo(config.evMethod))
    else Err(UnboundLocalError)
  }

  /**
   * `compute_singlet` as written: the exact LO kernel at order 0, and
   * `nlo_iterate` at every other order, called with the singlet extra
   * arguments, so that without the number of iterations the call is a
   * TypeError.
   */
  function ComputeSingletKernel(config: Config): (r: Result<SingletEvolution.Kernel>)
    ensures config.order == 0 ==> r == Ok(SingletEvolution.LoExactKernel)
    ensures config.order != 0 ==> (r.Ok? <==> |ExtraArgsS(config)| == 1)
    ensures r.Ok? && config.order != 0 ==> r.value == SingletEvolution.NloIterateKernel
    ensures r.Err? ==> r.error == TypeError
  {
    if config.order == 0 then Ok(SingletEvolution.LoExactKernel)
    else if |ExtraArgsS(config)| == 1 then Ok(SingletEvolution.NloIterateKernel)
    else Err(TypeError)
  }

  /**
   * As written, the singlet NLO kernel ignores the method: a decompose
   * method gets the iterated kernel at all, and a truncated one gets it
   * instead of its own.
   */
  lemma SingletKernelIgnoresMethod()
    ensures ComputeSingletKernel(Config(1, "decompose-exact", 10, 10)) == Err(TypeError)
    ensures ComputeSingletKernel(Config(1, "perturbative-exact", 10, 10)) == Err(TypeError)
    ensures ComputeSingletKernel(Config(1, "truncated", 10, 10)) == Ok(SingletEvolution.NloIterateKernel)
    ensures SingletEvolution.DispatcherNlo("truncated") == Ok(SingletEvolution.NloTruncatedKernel)
  {
  }

  /** The singlet kernel chosen through the dispatchers, as the NLO dispatcher intends. */
  function DispatchedSingletKernel(config: Config): (r: Result<SingletEvolution.Kernel>)
    ensures config.order == 0 ==> r == Ok(SingletEvolution.DispatcherLo(config.evMethod))
    ensures config.order == 1 ==> r == SingletEvolution.DispatcherNlo(config.evMethod)
  {
    if config.order == 0 then Ok(SingletEvolution.DispatcherLo(config.evMethod))
    else if config.order == 1 then SingletEvolution.DispatcherNlo(config.evMethod)
    else Err(NotImplementedError)
  }

  /** Through the dispatchers, every configuration that passed the method check has a kernel at LO and NLO. */
  lemma DispatchedKernelExists(config: Config)
    requires CheckMethod(config.evMethod).Ok? && 0 <= config.order <= 1
    ensures DispatchedSingletKernel(config).Ok?
    ensures config.order == 1 && config.evMethod in ["iterate-exact", "iterate-expanded"]
            ==> DispatchedSingletKernel(config) == ComputeSingletKernel(config)
  {
  }

  /** The singlet matrix element (k, l) a mode selects: q picks row or column 0, anything else 1. */
  function SingletElement(mode: string): (r: Result<(nat, nat)>)
    ensures r.Ok? <==> |mode| >= 4
    ensures r.Err? ==> r.error == IndexError
    ensures r.Ok? ==> r.value.0 <= 1 && r.value.1 <= 1
    ensures r.Ok? ==> (r.value.0 == 0 <==> mode[2] == 'q') && (r.value.1 == 0 <==> mode[3] == 'q')
  {
    if |mode| < 4 then Err(IndexError)
    else Ok((if mode[2] == 'q' then 0 else 1, if mode[3] == 'q' then 0 else 1))
  }

  /** The four singlet labels select the four entries of the 2x2 kernel matrix. */
  lemma SingletLabelsSelectEntries()
    ensures SingletElement("S_qq") == Ok((0, 0)) && SingletElement("S_qg") == Ok((0, 1))
    ensures SingletElement("S_gq") == Ok((1, 0)) && SingletElement("S_gg") == Ok((1, 1))
  {
  }

  /** A complex number. */
  datatype Complex = Complex(re: real, im: real)
  {
    function Mul(o: Complex): Complex { Complex(re * o.re - im * o.im, re * o.im + im * o.re) }
  }

  /**
   * The value under the integral: 0 when the basis function vanishes at n;
   * otherwise the real part of (-i/pi) ker pj jac, where `ker` is the kernel
   * (or the selected singlet element) at the Talbot point n.
   */
  function Integrand(env: Env, pj: Complex, ker: Complex, jac: Complex): (r: real)
    requires env.pi != 0.0
    ensures pj == Complex(0.0, 0.0) ==> r == 0.0
    ensures pj != Complex(0.0, 0.0) ==> r * env.pi == ker.Mul(pj).Mul(jac).im
  {
    if pj == Complex(0.0, 0.0) then 0.0
    else
      var prefactor := Complex(0.0, -1.0 / env.pi);
      var z := prefactor.Mul(ker).Mul(pj).Mul(jac);
      PrefactorTakesImaginaryPart(env.pi, ker, pj, jac);
      z.re
  }

  /** Re((-i/pi) ker pj jac) = Im(ker pj jac) / pi. */
  lemma PrefactorTakesImaginaryPart(pi: real, ker: Complex, pj: Complex, jac: Complex)
    requires pi != 0.0
    ensures Complex(0.0, -1.0 / pi).Mul(ker).Mul(pj).Mul(jac).re * pi == ker.Mul(pj).Mul(jac).im
  {
    var c := -1.0 / pi;
    var p := Complex(0.0, c);
    var w := ker.Mul(pj).Mul(jac);
    assert p.Mul(ker) == Complex(-c * ker.im, c * ker.re);
    assert p.Mul(ker).Mul(pj) == Complex(c * (-ker.im * pj.re - ker.re * pj.im), c * (ker.re * pj.re - ker.im * pj.im));
    var kp := ker.Mul(pj);
    assert p.Mul(ker).Mul(pj) == Complex(-c * kp.im, c * kp.re);
    assert p.Mul(ker).Mul(pj).Mul(jac).re == -c * (kp.im * jac.re + kp.re * jac.im);
    assert w.im == kp.re * jac.im + kp.im * jac.re;
    assert c * pi == -1.0;
  }
}
