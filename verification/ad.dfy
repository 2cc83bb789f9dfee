/**
 * The anomalous-dimension tower: the eigen-decomposition of a 2x2 singlet
 * matrix, the order and mode dispatch that assembles the QCD and QED towers
 * from the individual kernels, and the electric charges of the non-singlet
 * QED modes. The kernels themselves are parameters.
 */
module AnomalousDimensions {
  import opened Common
  import opened LinAlg
  import opened BasisRotation

  /** The result of `exp_singlet`: the exponential, both eigenvalues and both projectors. */
  datatype Eigensystem = Eigensystem(exp: M2, lambdaP: real, lambdaM: real, eP: M2, eM: M2)

  /** The discriminant (g_qq - g_gg)^2 + 4 g_qg g_gq whose square root separates the eigenvalues. */
  function Discriminant(g: M2): real
  {
    (g.a - g.d) * (g.a - g.d) + 4.0 * g.b * g.c
  }

  /**
   * `exp_singlet`: with det = sqrt(discriminant), lambda_pm = (tr g +- det)/2,
   * e_p = (g - lambda_m I)/det, e_m = -(g - lambda_p I)/det and
   * exp = e_m exp(lambda_m) + e_p exp(lambda_p).
   */
  function ExpSinglet(env: Env, g: M2): (r: Eigensystem)
    requires env.sqrt(Discriminant(g)) != 0.0
    ensures r.lambdaP - r.lambdaM == env.sqrt(Discriminant(g))
    ensures r.lambdaP + r.lambdaM == g.Trace()
    ensures r.eP.Add(r.eM) == Id2
    ensures r.exp == r.eM.Scale(env.exp(r.lambdaM)).Add(r.eP.Scale(env.exp(r.lambdaP)))
  {
    var det := env.sqrt(Discriminant(g));
    var lambdaP := 1.0 / 2.0 * (g.a + g.d + det);
    var lambdaM := 1.0 / 2.0 * (g.a + g.d - det);
    var c := 1.0 / det;
    var eP := g.Sub(Id2.Scale(lambdaM)).Scale(c);
    var eM := g.Sub(Id2.Scale(lambdaP)).Scale(-c);
    ProjectorsSum(g, lambdaP, lambdaM, det);
    Eigensystem(eM.Scale(env.exp(lambdaM)).Add(eP.Scale(env.exp(lambdaP))), lambdaP, lambdaM, eP, eM)
  }

  /** (g - lm I)/det - (g - lp I)/det = I whenever lp - lm = det. */
  lemma ProjectorsSum(g: M2, lp: real, lm: real, det: real)
    requires det != 0.0 && lp - lm == det
    ensures g.Sub(Id2.Scale(lm)).Scale(1.0 / det).Add(g.Sub(Id2.Scale(lp)).Scale(-(1.0 / det))) == Id2
  {
    var c := 1.0 / det;
    assert c * (g.a - lm) - c * (g.a - lp) == c * det == 1.0;
    assert c * (g.d - lm) - c * (g.d - lp) == c * det == 1.0;
  }

  /**
   * Cayley-Hamilton for a 2x2 matrix: when lp + lm is the trace and lp lm the
   * determinant, (g - lm I)(g - lp I) = 0.
   */
  lemma CayleyHamilton(g: M2, lp: real, lm: real)
    requires lp + lm == g.Trace() && lp * lm == g.Det()
    ensures g.Sub(Id2.Scale(lm)).Mul(g.Sub(Id2.Scale(lp))) == Zero2
  {
    var p := g.Sub(Id2.Scale(lm));
    var q := g.Sub(Id2.Scale(lp));
    assert p.a == g.a - lm && p.d == g.d - lm && p.b == g.b && p.c == g.c;
    assert q.a == g.a - lp && q.d == g.d - lp && q.b == g.b && q.c == g.c;
    assert lm == g.a + g.d - lp;
    assert (g.a - lm) * (g.a - lp) + g.b * g.c == g.a * g.a - g.a * (lm + lp) + lm * lp + g.b * g.c;
    assert (g.d - lm) * (g.d - lp) + g.b * g.c == g.d * g.d - g.d * (lm + lp) + lm * lp + g.b * g.c;
  }

  /** The eigenvalues of `exp_singlet` have the trace as sum and the determinant as product once det^2 is the discriminant. */
  lemma EigenvalueProduct(g: M2, det: real)
    requires det * det == Discriminant(g)
    ensures (1.0 / 2.0 * (g.a + g.d + det)) * (1.0 / 2.0 * (g.a + g.d - det)) == g.Det()
  {
    var t := g.a + g.d;
    assert (1.0 / 2.0 * (t + det)) * (1.0 / 2.0 * (t - det)) == (t * t - det * det) / 4.0;
    assert t * t - (g.a - g.d) * (g.a - g.d) == 4.0 * (g.a * g.d);
  }

  /**
   * When det really is a square root of the discriminant, the two factors of
   * the projectors annihilate each other, (g - lambda_m I)(g - lambda_p I) = 0,
   * so that e_p e_m = 0 and g acts on the range of e_p as lambda_p.
   */
  lemma ProjectorsAnnihilate(env: Env, g: M2)
    requires env.sqrt(Discriminant(g)) != 0.0
    requires env.sqrt(Discriminant(g)) * env.sqrt(Discriminant(g)) == Discriminant(g)
    ensures var r := ExpSinglet(env, g);
            g.Sub(Id2.Scale(r.lambdaM)).Mul(g.Sub(Id2.Scale(r.lambdaP))) == Zero2
  {
    var r := ExpSinglet(env, g);
    EigenvalueProduct(g, env.sqrt(Discriminant(g)));
    CayleyHamilton(g, r.lambdaP, r.lambdaM);
  }

  /**
   * The non-singlet kernels of each loop order, as functions of the Mellin
   * moment and nf: the LO kernel, then the plus, minus and valence kernels
   * of the higher orders.
   */
  datatype NsKernels = NsKernels(
    lo: real -> real,
    nloPlus: (real, int) -> real, nloMinus: (real, int) -> real,
    nnloPlus: (real, int) -> real, nnloMinus: (real, int) -> real, nnloValence: (real, int) -> real,
    n3loPlus: (real, int) -> real, n3loMinus: (real, int) -> real, n3loValence: (real, int) -> real)

  /** The sector modes `gamma_ns` accepts beyond LO. */
  predicate QcdNsMode(mode: int)
  {
    mode == NsPlus || mode == NsMinus || mode == NsValence
  }

  /** The entry of loop order i + 1 of the non-singlet tower, in the sector `mode`. */
  function NsEntry(k: NsKernels, i: nat, mode: int, n: real, nf: int): real
  {
    if i == 0 then k.lo(n)
    else if i == 1 then (if mode == NsPlus then k.nloPlus(n, nf) else k.nloMinus(n, nf))
    else if i == 2 then
      (if mode == NsPlus then k.nnloPlus(n, nf) else if mode == NsMinus then k.nnloMinus(n, nf) else k.nnloValence(n, nf))
    else if i == 3 then
      (if mode == NsPlus then k.n3loPlus(n, nf) else if mode == NsMinus then k.n3loMinus(n, nf) else k.n3loValence(n, nf))
    else 0.0
  }

  /**
   * What `gamma_ns` computes: a vector of length order[0] holding the tower
   * up to N3LO and zeros beyond, or the error it raises.
   */
  function NsTower(k: NsKernels, order0: int, mode: int, n: real, nf: int): Result<seq<real>>
  {
    if order0 < 0 then Err(ValueError)
    else if order0 == 0 then Err(IndexError)
    else if order0 >= 2 && !QcdNsMode(mode) then Err(NotImplementedError)
    else Ok(seq(order0, i requires 0 <= i => NsEntry(k, i, mode, n, nf)))
  }

  /**
   * `gamma_ns`: allocate order[0] zeros, put the LO kernel first and fill the
   * higher orders according to the sector.
   */
  method GammaNs(k: NsKernels, order0: int, mode: int, n: real, nf: int) returns (r: Result<seq<real>>)
    ensures r == NsTower(k, order0, mode, n, nf)
  {
    if order0 < 0 {
      return Err(ValueError);
    }
    if order0 == 0 {
      return Err(IndexError);
    }
    var g := new real[order0](_ => 0.0);
    g[0] := k.lo(n);
    if order0 >= 2 {
      if mode == NsPlus {
        g[1] := k.nloPlus(n, nf);
      } else if mode == NsMinus || mode == NsValence {
        g[1] := k.nloMinus(n, nf);
      } else {
        return Err(NotImplementedError);
      }
    }
    if order0 >= 3 {
      if mode == NsPlus {
        g[2] := k.nnloPlus(n, nf);
      } else if mode == NsMinus {
        g[2] := k.nnloMinus(n, nf);
      } else {
        g[2] := k.nnloValence(n, nf);
      }
    }
    if order0 >= 4 {
      if mode == NsPlus {
        g[3] := k.n3loPlus(n, nf);
      } else if mode == NsMinus {
        g[3] := k.n3loMinus(n, nf);
      } else {
        g[3] := k.n3loValence(n, nf);
      }
    }
    assert forall i :: 0 <= i < order0 ==> g[i] == NsEntry(k, i, mode, n, nf);
    assert g[..] == seq(order0, i requires 0 <= i => NsEntry(k, i, mode, n, nf));
    r := Ok(g[..]);
  }

  /**
   * The tower has order[0] entries whose first is the LO kernel. It fails
   * exactly for a non-positive order, and beyond LO for a sector other than
   * ns+, ns- and valence. The valence tower shares the NLO entry with ns-.
   */
  lemma NsTowerShape(k: NsKernels, order0: int, mode: int, n: real, nf: int)
    ensures NsTower(k, order0, mode, n, nf).Ok? <==> order0 >= 1 && (order0 == 1 || QcdNsMode(mode))
    ensures NsTower(k, order0, mode, n, nf).Ok? ==>
              |NsTower(k, order0, mode, n, nf).value| == order0 && NsTower(k, order0, mode, n, nf).value[0] == k.lo(n)
    ensures order0 >= 2 && NsTower(k, order0, NsValence, n, nf).Ok? ==>
              NsTower(k, order0, NsValence, n, nf).value[1] == NsTower(k, order0, NsMinus, n, nf).value[1]
    ensures order0 >= 3 && mode == NsValence ==> NsTower(k, order0, mode, n, nf).value[2] == k.nnloValence(n, nf)
    ensures order0 >= 5 && QcdNsMode(mode) ==> NsTower(k, order0, mode, n, nf).value[4] == 0.0
  {
  }

  /** The singlet kernels of each loop order. */
  datatype SingletKernels = SingletKernels(lo: (real, int) -> M2, nlo: (real, int) -> M2, nnlo: (real, int) -> M2, n3lo: (real, int) -> M2)

  /** The singlet matrix of loop order i + 1, zero beyond N3LO. */
  function SingletEntry(k: SingletKernels, i: nat, n: real, nf: int): M2
  {
    if i == 0 then k.lo(n, nf) else if i == 1 then k.nlo(n, nf) else if i == 2 then k.nnlo(n, nf)
    else if i == 3 then k.n3lo(n, nf) else Zero2
  }

  /** What `gamma_singlet` computes: order[0] matrices, the k-th from the (k+1)-loop kernel. */
  function SingletTower(k: SingletKernels, order0: int, n: real, nf: int): Result<seq<M2>>
  {
    if order0 < 0 then Err(ValueError)
    else if order0 == 0 then Err(IndexError)
    else Ok(seq(order0, i requires 0 <= i => SingletEntry(k, i, n, nf)))
  }

  /** `gamma_singlet`: allocate order[0] zero matrices and fill them loop by loop. */
  method GammaSinglet(k: SingletKernels, order0: int, n: real, nf: int) returns (r: Result<seq<M2>>)
    ensures r == SingletTower(k, order0, n, nf)
  {
    if order0 < 0 {
      return Err(ValueError);
    }
    if order0 == 0 {
      return Err(IndexError);
    }
    var g := new M2[order0](_ => Zero2);
    g[0] := k.lo(n, nf);
    if order0 >= 2 {
      g[1] := k.nlo(n, nf);
    }
    if order0 >= 3 {
      g[2] := k.nnlo(n, nf);
    }
    if order0 >= 4 {
      g[3] := k.n3lo(n, nf);
    }
    assert forall i :: 0 <= i < order0 ==> g[i] == SingletEntry(k, i, n, nf);
    assert g[..] == seq(order0, i requires 0 <= i => SingletEntry(k, i, n, nf));
    r := Ok(g[..]);
  }

  /** The singlet tower has order[0] entries; entry j < 4 is the (j+1)-loop matrix. */
  lemma SingletTowerShape(k: SingletKernels, order0: int, n: real, nf: int, j: int)
    ensures SingletTower(k, order0, n, nf).Ok? <==> order0 >= 1
    ensures order0 >= 1 ==> |SingletTower(k, order0, n, nf).value| == order0
    ensures 0 <= j < order0 && j < 4 ==>
              SingletTower(k, order0, n, nf).value[j] == [k.lo(n, nf), k.nlo(n, nf), k.nnlo(n, nf), k.n3lo(n, nf)][j]
  {
  }

  /** The squared charges e_u^2 = 4/9 and e_d^2 = 1/9. */
  const Eu2: real := 4.0 / 9.0
  const Ed2: real := 1.0 / 9.0

  /** `e2(mode)`: the squared charge of an up- or down-type QED non-singlet mode. */
  function E2(mode: int): (r: Result<real>)
    ensures r.Ok? <==> mode in {NsMinusU, NsPlusU, NsMinusD, NsPlusD}
    ensures (mode == NsMinusU || mode == NsPlusU) ==> r == Ok(Eu2)
    ensures (mode == NsMinusD || mode == NsPlusD) ==> r == Ok(Ed2)
    ensures r.Err? ==> r.error == NotImplementedError
  {
    if mode == NsMinusU || mode == NsPlusU then Ok(Eu2)
    else if mode == NsMinusD || mode == NsPlusD then Ok(Ed2)
    else Err(NotImplementedError)
  }

  /** The non-singlet kernels entering the QED tower. */
  datatype QedNsKernels = QedNsKernels(
    as1: real -> real, aem1: real -> real,
    as1aem1Plus: real -> real, as1aem1Minus: real -> real,
    as2Plus: (real, int) -> real, as2Minus: (real, int) -> real,
    aem2PlusU: (real, int) -> real, aem2PlusD: (real, int) -> real,
    aem2MinusU: (real, int) -> real, aem2MinusD: (real, int) -> real,
    as3Plus: (real, int) -> real, as3Minus: (real, int) -> real)

  predicate QedPlusMode(mode: int) { mode == NsPlusU || mode == NsPlusD }
  predicate QedMinusMode(mode: int) { mode == NsMinusU || mode == NsMinusD }

  /** The squared charge of a QED mode, e_u^2 for up-type and e_d^2 otherwise. */
  function Charge(mode: int): real
  {
    if mode == NsPlusU || mode == NsMinusU then Eu2 else Ed2
  }

  /** Entry (i, j), of order a_s^i a_em^j, of the QED non-singlet table in a valid QED mode. */
  function QedNsEntry(k: QedNsKernels, i: nat, j: nat, mode: int, n: real, nf: int): real
  {
    if i == 1 && j == 0 then k.as1(n)
    else if i == 0 && j == 1 then Charge(mode) * k.aem1(n)
    else if i == 1 && j == 1 then Charge(mode) * (if QedPlusMode(mode) then k.as1aem1Plus(n) else k.as1aem1Minus(n))
    else if i == 2 && j == 0 then (if QedPlusMode(mode) then k.as2Plus(n, nf) else k.as2Minus(n, nf))
    else if i == 0 && j == 2 then
      (if mode == NsPlusU then Eu2 * k.aem2PlusU(n, nf)
       else if mode == NsPlusD then Ed2 * k.aem2PlusD(n, nf)
       else if mode == NsMinusU then Eu2 * k.aem2MinusU(n, nf)
       else Ed2 * k.aem2MinusD(n, nf))
    else if i == 3 && j == 0 then (if QedPlusMode(mode) then k.as3Plus(n, nf) else k.as3Minus(n, nf))
    else 0.0
  }

  /**
   * What `gamma_ns_qed` computes: an (order[0] + 1) x (order[1] + 1) table,
   * or NotImplementedError when a QED or NLO entry is needed in a mode that
   * is not one of the four QED non-singlet modes. Without such entries only
   * the LO slot [1, 0] is filled and the mode does not matter.
   */
  function QedNsTable(k: QedNsKernels, order0: nat, order1: nat, mode: int, n: real, nf: int): Result<seq<seq<real>>>
  {
    if (order1 >= 1 || order0 >= 2) && !(QedPlusMode(mode) || QedMinusMode(mode)) then Err(NotImplementedError)
    else Ok(seq(order0 + 1, i requires 0 <= i => seq(order1 + 1, j requires 0 <= j => QedNsEntry(k, i, j, mode, n, nf))))
  }

  /** The order in which `gamma_ns_qed` writes the slots; slots it never writes come last. */
  function Slot(i: nat, j: nat): nat
  {
    if i == 1 && j == 0 then 1
    else if i == 0 && j == 1 then 2
    else if i == 1 && j == 1 then 3
    else if i == 2 && j == 0 then 4
    else if i == 0 && j == 2 then 5
    else if i == 3 && j == 0 then 6
    else 7
  }

  /** The table after the first `stage` slots were written: those hold their kernels, the rest zero. */
  ghost predicate Written(t: seq<seq<real>>, k: QedNsKernels, order0: nat, order1: nat, mode: int, n: real, nf: int, stage: nat)
  {
    |t| == order0 + 1 && (forall i :: 0 <= i <= order0 ==> |t[i]| == order1 + 1)
    && forall i, j :: 0 <= i <= order0 && 0 <= j <= order1 ==>
         t[i][j] == if Slot(i, j) <= stage then QedNsEntry(k, i, j, mode, n, nf) else 0.0
  }

  /** Writing the kernel of slot `stage` moves the table on by one stage. */
  lemma WriteSlot(t: seq<seq<real>>, k: QedNsKernels, order0: nat, order1: nat, mode: int, n: real, nf: int,
                  stage: nat, i: nat, j: nat, v: real)
    requires stage >= 1 && Written(t, k, order0, order1, mode, n, nf, stage - 1)
    requires i <= order0 && j <= order1 && Slot(i, j) == stage && v == QedNsEntry(k, i, j, mode, n, nf)
    ensures Written(SetEntry(t, i, j, v), k, order0, order1, mode, n, nf, stage)
  {
  }

  /** `t[i, j] = v` for the kernel of slot `stage`, which moves the table on by one stage. */
  method Put(t: seq<seq<real>>, k: QedNsKernels, order0: nat, order1: nat, mode: int, n: real, nf: int,
             stage: nat, i: nat, j: nat, v: real) returns (u: seq<seq<real>>)
    requires stage >= 1 && Written(t, k, order0, order1, mode, n, nf, stage - 1)
    requires i <= order0 && j <= order1 && Slot(i, j) == stage && v == QedNsEntry(k, i, j, mode, n, nf)
    ensures Written(u, k, order0, order1, mode, n, nf, stage)
  {
    WriteSlot(t, k, order0, order1, mode, n, nf, stage, i, j, v);
    u := SetEntry(t, i, j, v);
  }

  /** A stage whose slot lies outside the table, or holds zero, needs no write. */
  lemma SkipSlot(t: seq<seq<real>>, k: QedNsKernels, order0: nat, order1: nat, mode: int, n: real, nf: int, stage: nat)
    requires stage >= 1 && Written(t, k, order0, order1, mode, n, nf, stage - 1)
    requires forall i, j :: 0 <= i <= order0 && 0 <= j <= order1 && Slot(i, j) == stage ==> QedNsEntry(k, i, j, mode, n, nf) == 0.0
    ensures Written(t, k, order0, order1, mode, n, nf, stage)
  {
  }

  /** A table with every slot written is the one `QedNsTable` describes. */
  lemma WrittenIsTable(t: seq<seq<real>>, k: QedNsKernels, order0: nat, order1: nat, mode: int, n: real, nf: int)
    requires Written(t, k, order0, order1, mode, n, nf, 7)
    requires (order1 == 0 && order0 <= 1) || QedPlusMode(mode) || QedMinusMode(mode)
    ensures QedNsTable(k, order0, order1, mode, n, nf) == Ok(t)
  {
    var expected := seq(order0 + 1, i requires 0 <= i => seq(order1 + 1, j requires 0 <= j => QedNsEntry(k, i, j, mode, n, nf)));
    forall i | 0 <= i <= order0
      ensures t[i] == expected[i]
    {
      assert forall j :: 0 <= j <= order1 ==> t[i][j] == expected[i][j];
    }
    assert t == expected;
  }

  /** The a_em^2 and a_s^3 slots of `gamma_ns_qed`, reached only in a valid QED mode. */
  method FillPureQed(t: seq<seq<real>>, k: QedNsKernels, order0: nat, order1: nat, mode: int, n: real, nf: int)
    returns (u: seq<seq<real>>)
    requires Written(t, k, order0, order1, mode, n, nf, 4)
    requires (order1 >= 1 || order0 >= 2) ==> QedPlusMode(mode) || QedMinusMode(mode)
    ensures Written(u, k, order0, order1, mode, n, nf, 7)
  {
    u := t;
    if order1 >= 2 {
      var v;
      if mode == NsPlusU {
        v := Eu2 * k.aem2PlusU(n, nf);
      } else if mode == NsPlusD {
        v := Ed2 * k.aem2PlusD(n, nf);
      } else if mode == NsMinusU {
        v := Eu2 * k.aem2MinusU(n, nf);
      } else {
        v := Ed2 * k.aem2MinusD(n, nf);
      }
      u := Put(u, k, order0, order1, mode, n, nf, 5, 0, 2, v);
    } else {
      SkipSlot(u, k, order0, order1, mode, n, nf, 5);
    }
    if order0 >= 3 {
      var v;
      if mode == NsPlusU || mode == NsPlusD {
        v := k.as3Plus(n, nf);
      } else {
        v := k.as3Minus(n, nf);
      }
      u := Put(u, k, order0, order1, mode, n, nf, 6, 3, 0, v);
    } else {
      SkipSlot(u, k, order0, order1, mode, n, nf, 6);
    }
    SkipSlot(u, k, order0, order1, mode, n, nf, 7);
  }

  /** In a QED mode the a_s a_em entry is the mode's squared charge times its plus or minus kernel. */
  lemma MixedEntry(k: QedNsKernels, mode: int, n: real, nf: int)
    requires E2(mode).Ok?
    ensures QedNsEntry(k, 1, 1, mode, n, nf) ==
      E2(mode).value * (if mode == NsPlusU || mode == NsPlusD then k.as1aem1Plus(n) else k.as1aem1Minus(n))
  {
  }

  /** The a_s a_em and a_s^2 slots of `gamma_ns_qed`; the a_s^2 slot needs a QED mode. */
  method FillMixedAndNnlo(t: seq<seq<real>>, k: QedNsKernels, order0: nat, order1: nat, mode: int, n: real, nf: int)
    returns (r: Result<seq<seq<real>>>)
    requires Written(t, k, order0, order1, mode, n, nf, 2)
    requires order1 >= 1 ==> E2(mode).Ok?
    ensures r.Err? ==> r.error == NotImplementedError && order0 >= 2 && !(QedPlusMode(mode) || QedMinusMode(mode))
    ensures r.Ok? ==> Written(r.value, k, order0, order1, mode, n, nf, 4)
    ensures r.Ok? && order0 >= 2 ==> QedPlusMode(mode) || QedMinusMode(mode)
  {
    var u := t;
    if order0 >= 1 && order1 >= 1 {
      var v;
      if mode == NsPlusU || mode == NsPlusD {
        v := E2(mode).value * k.as1aem1Plus(n);
      } else {
        v := E2(mode).value * k.as1aem1Minus(n);
      }
      MixedEntry(k, mode, n, nf);
      u := Put(u, k, order0, order1, mode, n, nf, 3, 1, 1, v);
    } else {
      SkipSlot(u, k, order0, order1, mode, n, nf, 3);
    }
    if order0 >= 2 {
      var v;
      if mode == NsPlusU || mode == NsPlusD {
        v := k.as2Plus(n, nf);
      } else if mode == NsMinusU || mode == NsMinusD {
        v := k.as2Minus(n, nf);
      } else {
        return Err(NotImplementedError);
      }
      u := Put(u, k, order0, order1, mode, n, nf, 4, 2, 0, v);
    } else {
      SkipSlot(u, k, order0, order1, mode, n, nf, 4);
    }
    r := Ok(u);
  }

  /** `gamma_ns_qed`: a zero table filled slot by slot according to both orders and the mode. */
  method GammaNsQed(k: QedNsKernels, order0: nat, order1: nat, mode: int, n: real, nf: int) returns (r: Result<seq<seq<real>>>)
    ensures r == QedNsTable(k, order0, order1, mode, n, nf)
  {
    var t := Table(order0 + 1, order1 + 1, 0.0);
    assert Written(t, k, order0, order1, mode, n, nf, 0);
    if order0 >= 1 {
      t := Put(t, k, order0, order1, mode, n, nf, 1, 1, 0, k.as1(n));
    } else {
      SkipSlot(t, k, order0, order1, mode, n, nf, 1);
    }
    if order1 >= 1 {
      var e := E2(mode);
      if e.Err? {
        assert QedNsTable(k, order0, order1, mode, n, nf) == Err(e.error);
        return Err(e.error);
      }
      t := Put(t, k, order0, order1, mode, n, nf, 2, 0, 1, e.value * k.aem1(n));
    } else {
      SkipSlot(t, k, order0, order1, mode, n, nf, 2);
    }
    var filled := FillMixedAndNnlo(t, k, order0, order1, mode, n, nf);
    if filled.Err? {
      assert QedNsTable(k, order0, order1, mode, n, nf) == Err(NotImplementedError);
      return Err(NotImplementedError);
    }
    t := FillPureQed(filled.value, k, order0, order1, mode, n, nf);
    WrittenIsTable(t, k, order0, order1, mode, n, nf);
    r := Ok(t);
  }

  /**
   * The QED table has (order[0] + 1) x (order[1] + 1) entries, its [0, 0]
   * slot is never written and stays zero, and the pure-QCD column holds the
   * LO, plus/minus NLO and NNLO kernels.
   */
  lemma QedNsTableShape(k: QedNsKernels, order0: nat, order1: nat, mode: int, n: real, nf: int)
    ensures QedNsTable(k, order0, order1, mode, n, nf).Ok? <==> (order1 == 0 && order0 <= 1) || QedPlusMode(mode) || QedMinusMode(mode)
    ensures QedNsTable(k, order0, order1, mode, n, nf).Ok? ==>
              var t := QedNsTable(k, order0, order1, mode, n, nf).value;
              |t| == order0 + 1 && |t[0]| == order1 + 1 && t[0][0] == 0.0
              && (order0 >= 1 ==> t[1][0] == k.as1(n))
              && (order1 >= 1 ==> t[0][1] == E2(mode).value * k.aem1(n))
              && (order0 >= 4 ==> t[4][0] == 0.0)
  {
  }

  /**
   * The shared layout of `gamma_singlet_qed` and `gamma_valence_qed`: an
   * (order[0] + 1) x (order[1] + 1) table of matrices with the a_s^i a_em^j
   * kernel in slot (i, j) for the slots both functions fill, where the
   * a_s^3 slot is filled only when order[0] is exactly 3.
   */
  function QedMatrixEntry<T>(zero: T, as1: T, aem1: T, as1aem1: T, as2: T, aem2: T, as3: T, order0: nat, i: nat, j: nat): T
  {
    if i == 1 && j == 0 then as1
    else if i == 0 && j == 1 then aem1
    else if i == 1 && j == 1 then as1aem1
    else if i == 2 && j == 0 then as2
    else if i == 0 && j == 2 then aem2
    else if i == 3 && j == 0 && order0 == 3 then as3
    else zero
  }

  /** The tower fill shared by `gamma_singlet_qed` and `gamma_valence_qed`. */
  method QedMatrixTower<T>(zero: T, as1: T, aem1: T, as1aem1: T, as2: T, aem2: T, as3: T, order0: nat, order1: nat)
    returns (t: seq<seq<T>>)
    ensures |t| == order0 + 1 && forall i :: 0 <= i <= order0 ==> |t[i]| == order1 + 1
    ensures forall i, j :: 0 <= i <= order0 && 0 <= j <= order1 ==>
              t[i][j] == QedMatrixEntry(zero, as1, aem1, as1aem1, as2, aem2, as3, order0, i, j)
  {
    t := Table(order0 + 1, order1 + 1, zero);
    if order0 >= 1 {
      t := SetEntry(t, 1, 0, as1);
    }
    if order1 >= 1 {
      t := SetEntry(t, 0, 1, aem1);
    }
    if order0 >= 1 && order1 >= 1 {
      t := SetEntry(t, 1, 1, as1aem1);
    }
    if order0 >= 2 {
      t := SetEntry(t, 2, 0, as2);
    }
    if order1 >= 2 {
      t := SetEntry(t, 0, 2, aem2);
    }
    if order0 == 3 {
      t := SetEntry(t, 3, 0, as3);
    }
  }

  /** The QED singlet kernels of each order, as 4x4 matrices in (g, ph, S, V-like) space. */
  datatype QedSingletKernels = QedSingletKernels(
    as1: (real, int) -> Matrix, aem1: (real, int) -> Matrix, as1aem1: (real, int) -> Matrix,
    as2: (real, int) -> Matrix, aem2: (real, int) -> Matrix, as3: (real, int) -> Matrix)

  /** `gamma_singlet_qed`: the table of 4x4 kernels. */
  method GammaSingletQed(k: QedSingletKernels, order0: nat, order1: nat, n: real, nf: int) returns (t: seq<seq<Matrix>>)
    ensures |t| == order0 + 1 && forall i :: 0 <= i <= order0 ==> |t[i]| == order1 + 1
    ensures forall i, j :: 0 <= i <= order0 && 0 <= j <= order1 ==>
              t[i][j] == QedMatrixEntry(Zeros(4, 4), k.as1(n, nf), k.aem1(n, nf), k.as1aem1(n, nf), k.as2(n, nf), k.aem2(n, nf), k.as3(n, nf), order0, i, j)
  {
    t := QedMatrixTower(Zeros(4, 4), k.as1(n, nf), k.aem1(n, nf), k.as1aem1(n, nf), k.as2(n, nf), k.aem2(n, nf), k.as3(n, nf), order0, order1);
  }

  /** The QED valence kernels of each order, as 2x2 matrices. */
  datatype QedValenceKernels = QedValenceKernels(
    as1: real -> M2, aem1: (real, int) -> M2, as1aem1: (real, int) -> M2,
    as2: (real, int) -> M2, aem2: (real, int) -> M2, as3: (real, int) -> M2)

  /** `gamma_valence_qed`: the table of 2x2 kernels. */
  method GammaValenceQed(k: QedValenceKernels, order0: nat, order1: nat, n: real, nf: int) returns (t: seq<seq<M2>>)
    ensures |t| == order0 + 1 && forall i :: 0 <= i <= order0 ==> |t[i]| == order1 + 1
    ensures forall i, j :: 0 <= i <= order0 && 0 <= j <= order1 ==>
              t[i][j] == QedMatrixEntry(Zero2, k.as1(n), k.aem1(n, nf), k.as1aem1(n, nf), k.as2(n, nf), k.aem2(n, nf), k.as3(n, nf), order0, i, j)
  {
    t := QedMatrixTower(Zero2, k.as1(n), k.aem1(n, nf), k.as1aem1(n, nf), k.as2(n, nf), k.aem2(n, nf), k.as3(n, nf), order0, order1);
  }

  /**
   * In both matrix towers the [0, 0] slot stays zero, and the a_s^3 slot is
   * filled only when order[0] is exactly 3: at order[0] = 4 it stays zero.
   */
  lemma QedMatrixEntryFacts<T>(zero: T, as1: T, aem1: T, as1aem1: T, as2: T, aem2: T, as3: T, order0: nat)
    ensures QedMatrixEntry(zero, as1, aem1, as1aem1, as2, aem2, as3, order0, 0, 0) == zero
    ensures QedMatrixEntry(zero, as1, aem1, as1aem1, as2, aem2, as3, order0, 3, 0) == if order0 == 3 then as3 else zero
  {
  }
}
