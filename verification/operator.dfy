/**
 * The operator of one evolution segment: the factorisation-scale shift of
 * the anomalous dimensions, the integrand under the Mellin inversion, the
 * sector labels to compute, and the `Operator` object whose `compute`
 * fills one grid_size x grid_size member per sector, entry by entry, and
 * then copies the non-singlet members that coincide at low order.
 */
module Operator {
  import opened Common
  import opened LinAlg
  import ScaleVariations
  import StrongCoupling
  import KernelDispatch
  import EvolutionOperator

  type Member = EvolutionOperator.Member
  type Complex = KernelDispatch.Complex

  // ---------------------------------------------------------------- gamma_*_fact

  /**
   * `gamma_ns_fact`: at order above LO, gamma[1] loses beta_0 gamma[0] L,
   * in place; the tower is otherwise left alone. This is the scheme-A
   * variation cut at NLO.
   */
  method GammaNsFact(g: array<real>, order: nat, nf: int, l: real)
    requires order > 0 ==> g.Length >= 2
    modifies g
    ensures g[..] == ScaleVariations.AVaried(old(g[..]), ScaleVariations.Min(order, 1), nf, l)
  {
    ghost var g0 := g[..];
    if order > 0 {
      g[1] := g[1] - StrongCoupling.Beta0(nf) * g[0] * l;
    }
    assert forall k :: 0 <= k < g.Length ==> g[k] == ScaleVariations.AEntry(g0, k, ScaleVariations.Min(order, 1), nf, l);
  }

  /** `gamma_singlet_fact`: the same shift on a tower of 2x2 matrices. */
  method GammaSingletFact(g: array<M2>, order: nat, nf: int, l: real)
    requires order > 0 ==> g.Length >= 2
    modifies g
    ensures g[..] == ScaleVariations.AVariedM2(old(g[..]), ScaleVariations.Min(order, 1), nf, l)
  {
    ghost var g0 := g[..];
    if order > 0 {
      g[1] := g[1].Sub(ScaleVariations.Shift1M2(g[0], StrongCoupling.Beta0(nf), l));
    }
    assert forall k :: 0 <= k < g.Length ==> g[k] == ScaleVariations.AEntryM2(g0, k, ScaleVariations.Min(order, 1), nf, l);
  }

  /**
   * What the two methods leave behind: at order 0 the tower as it was;
   * above, gamma[1] - beta_0 gamma[0] L in place of gamma[1] and every
   * other entry as it was, whatever the order.
   */
  lemma OnlyNloShifted(g: seq<real>, order: nat, nf: int, l: real)
    requires |g| >= 2
    ensures ScaleVariations.AVaried(g, ScaleVariations.Min(order, 1), nf, l)[1]
            == (if order > 0 then g[1] - StrongCoupling.Beta0(nf) * g[0] * l else g[1])
    ensures forall k :: 0 <= k < |g| && k != 1 ==> ScaleVariations.AVaried(g, ScaleVariations.Min(order, 1), nf, l)[k] == g[k]
  {
  }

  /** The singlet shift, on the matrices: only gamma[1] moves, by beta_0 L gamma[0]. */
  lemma OnlyNloShiftedM2(g: seq<M2>, order: nat, nf: int, l: real)
    requires |g| >= 2
    ensures ScaleVariations.AVariedM2(g, ScaleVariations.Min(order, 1), nf, l)[1]
            == (if order > 0 then g[1].Sub(g[0].Scale(StrongCoupling.Beta0(nf) * l)) else g[1])
    ensures forall k :: 0 <= k < |g| && k != 1 ==> ScaleVariations.AVariedM2(g, ScaleVariations.Min(order, 1), nf, l)[k] == g[k]
  {
  }

  // ---------------------------------------------------------------- quad_ker

  /** The 2x2 singlet kernel at the Talbot point, entry (k, l) with q = 0 and g = 1. */
  datatype SingletKernel = SingletKernel(qq: Complex, qg: Complex, gq: Complex, gg: Complex)
  {
    function At(k: nat, l: nat): Complex
    {
      if k == 0 then (if l == 0 then qq else qg) else (if l == 0 then gq else gg)
    }
  }

  /** The complex zero. */
  const Zero: Complex := KernelDispatch.Complex(0.0, 0.0)

  /**
   * `quad_ker` for the sector label `mode` at the inversion point log x.
   * The Talbot point, the basis function `pj` and the Jacobian `jac` there,
   * and the evolved kernels `nsKer` and `sKer` are given.
   */
  function QuadKer(env: Env, mode: string, logx: real, pj: Complex, jac: Complex,
                   nsKer: Complex, sKer: SingletKernel): (r: Result<real>)
    requires env.pi != 0.0
    ensures |mode| == 0 ==> r == Err(IndexError)
    ensures |mode| > 0 && mode[0] == 'S' && logx == 1.0 ==> r == Err(ZeroDivisionError)
    ensures KernelDispatch.PathParams(mode, logx).Ok? && pj == Zero ==> r == Ok(0.0)
    ensures KernelDispatch.PathParams(mode, logx).Ok? && pj != Zero && mode[0] == 'S' && |mode| < 4
            ==> r == Err(IndexError)
    ensures r.Ok? && pj != Zero && mode[0] != 'S' ==> r.value * env.pi == nsKer.Mul(pj).Mul(jac).im
    ensures r.Ok? && pj != Zero && mode[0] == 'S' ==>
              |mode| >= 4
              && r.value * env.pi
                 == sKer.At(if mode[2] == 'q' then 0 else 1, if mode[3] == 'q' then 0 else 1).Mul(pj).Mul(jac).im
  {
    match KernelDispatch.PathParams(mode, logx)
    case Err(e) => Err(e)
    case Ok(_) =>
      if pj == Zero then Ok(0.0)
      else if mode[0] == 'S' then
        match KernelDispatch.SingletElement(mode)
        case Err(e) => Err(e)
        case Ok(kl) => Ok(KernelDispatch.Integrand(env, pj, sKer.At(kl.0, kl.1), jac))
      else Ok(KernelDispatch.Integrand(env, pj, nsKer, jac))
  }

  // ---------------------------------------------------------------- labels

  /** The four singlet labels, in the order `labels` emits them. */
  const SingletLabels: seq<string> := ["S_qq", "S_qg", "S_gq", "S_gg"]

  /**
   * `labels()`: NS_p, and NS_m above LO, unless the non-singlet sector is
   * skipped; then the four singlet labels unless the singlet sector is
   * skipped. NS_v is never integrated.
   */
  function Labels(order: nat, skipNs: bool, skipS: bool): (r: seq<string>)
    ensures ("NS_p" in r <==> !skipNs) && ("NS_m" in r <==> !skipNs && order > 0) && "NS_v" !in r
    ensures forall s :: s in SingletLabels ==> (s in r <==> !skipS)
    ensures forall i :: 0 <= i < |r| ==> r[i] in EvolutionOperator.RawSectors
    ensures forall i, j :: 0 <= i < j < |r| ==> r[i] != r[j]
  {
    var ns := if skipNs then [] else if order > 0 then ["NS_p", "NS_m"] else ["NS_p"];
    ns + (if skipS then [] else SingletLabels)
  }

  // ---------------------------------------------------------------- compute

  /** The integral of one sector label at output point k and basis function l: (value, error). */
  type Integrals = (nat, nat, string) -> (real, real)

  /** One sector's table: the integrals if the label is computed, zeros otherwise. */
  function Table(n: nat, s: string, labels: seq<string>, integ: Integrals, useError: bool): (m: Matrix)
    ensures IsMatrix(m, n, n)
  {
    seq(n, kk requires 0 <= kk < n =>
      seq(n, ll requires 0 <= ll < n =>
        if s in labels then (if useError then integ(kk, ll, s).1 else integ(kk, ll, s).0) else 0.0))
  }

  /** The seven members after the fill loops: every sector, each under its own name. */
  function Computed(n: nat, labels: seq<string>, integ: Integrals): (ms: map<string, Member>)
    ensures forall s :: s in ms <==> s in EvolutionOperator.RawSectors
  {
    map s | s in EvolutionOperator.RawSectors ::
      EvolutionOperator.Member(Table(n, s, labels, integ, false), Table(n, s, labels, integ, true), s)
  }

  /** The members with `m`'s value and error, under `target`'s name. */
  function CopyInto(ms: map<string, Member>, target: string, source: string): map<string, Member>
    requires target in ms && source in ms
  {
    ms[target := ms[target].(value := ms[source].value, error := ms[source].error)]
  }

  /**
   * `copy_ns_ops`: at LO NS_v and then NS_m take NS_p's value and error;
   * at NLO NS_v takes NS_m's; above, nothing changes. Names stay.
   */
  function CopyNs(ms: map<string, Member>, order: nat): (r: map<string, Member>)
    requires "NS_p" in ms && "NS_m" in ms && "NS_v" in ms
    ensures r.Keys == ms.Keys
  {
    if order == 0 then CopyInto(CopyInto(ms, "NS_v", "NS_p"), "NS_m", "NS_p")
    else if order == 1 then CopyInto(ms, "NS_v", "NS_m")
    else ms
  }

  /**
   * What `copy_ns_ops` achieves: at LO the minus and valence members carry
   * the plus member's value and error, at NLO the valence member carries the
   * minus member's, above NLO nothing changes; every name and every other
   * member is kept.
   */
  lemma CopyNsMeaning(ms: map<string, Member>, order: nat)
    requires "NS_p" in ms && "NS_m" in ms && "NS_v" in ms
    ensures var r := CopyNs(ms, order);
      && (forall s :: s in ms ==> r[s].name == ms[s].name)
      && (forall s :: s in ms && s != "NS_m" && s != "NS_v" ==> r[s] == ms[s])
      && (order == 0 ==> r["NS_m"].value == r["NS_v"].value == ms["NS_p"].value
                         && r["NS_m"].error == r["NS_v"].error == ms["NS_p"].error)
      && (order == 1 ==> r["NS_m"] == ms["NS_m"] && r["NS_v"].value == ms["NS_m"].value
                         && r["NS_v"].error == ms["NS_m"].error)
      && (order >= 2 ==> r == ms)
  {
  }

  /**
   * After `compute`, at LO all three non-singlet members hold the NS_p
   * integrals, since NS_m is not integrated there; at NLO NS_v holds the
   * NS_m integrals.
   */
  lemma ComputedNonSinglets(n: nat, order: nat, skipNs: bool, skipS: bool, integ: Integrals)
    ensures var r := CopyNs(Computed(n, Labels(order, skipNs, skipS), integ), order);
      && (order == 0 ==> r["NS_m"].value == r["NS_v"].value == Table(n, "NS_p", Labels(order, skipNs, skipS), integ, false))
      && (order == 1 ==> r["NS_v"].value == Table(n, "NS_m", Labels(order, skipNs, skipS), integ, false))
      && (!skipS ==> forall s :: s in SingletLabels ==> r[s].value == Table(n, s, SingletLabels, integ, false))
  {
    var labels := Labels(order, skipNs, skipS);
    if !skipS {
      forall s | s in SingletLabels
        ensures Table(n, s, labels, integ, false) == Table(n, s, SingletLabels, integ, false)
      {
      }
    }
  }

  /** Member `m` with entry (k, l) of its value set to v and of its error set to e. */
  function Put(m: Member, k: nat, l: nat, v: real, e: real): Member
    requires k < |m.value| && l < |m.value[k]| && k < |m.error| && l < |m.error[k]|
  {
    m.(value := m.value[k := m.value[k][l := v]], error := m.error[k := m.error[k][l := e]])
  }

  /** Every label names one of the seven sectors. */
  predicate SectorLabels(labels: seq<string>)
  {
    forall i :: 0 <= i < |labels| ==> labels[i] in EvolutionOperator.RawSectors
  }

  /** Sector s at output point kk and basis function ll has been written before position (k, l, j). */
  predicate Done(s: string, kk: nat, ll: nat, k: nat, l: nat, j: nat, labels: seq<string>)
    requires j <= |labels|
  {
    s in labels && (kk < k || (kk == k && ll < l) || (kk == k && ll == l && s in labels[..j]))
  }

  /** The entry at (kk, ll) of sector s at position (k, l, j) of the fill loops. */
  function Want(s: string, kk: nat, ll: nat, k: nat, l: nat, j: nat, labels: seq<string>, integ: Integrals): (real, real)
    requires j <= |labels|
  {
    if Done(s, kk, ll, k, l, j, labels) then integ(kk, ll, s) else (0.0, 0.0)
  }

  /**
   * The members at position (k, l, j) of the fill loops: every sector is an
   * n x n member under its own name holding the integrals written so far
   * and zeros elsewhere; every other key is as in `rest`.
   */
  ghost predicate Cells(ms: map<string, Member>, rest: map<string, Member>, n: nat, labels: seq<string>,
                        integ: Integrals, k: nat, l: nat, j: nat)
    requires j <= |labels|
  {
    && (forall s :: s in EvolutionOperator.RawSectors ==>
          s in ms && ms[s].name == s && IsMatrix(ms[s].value, n, n) && IsMatrix(ms[s].error, n, n))
    && (forall s :: s !in EvolutionOperator.RawSectors ==> (s in ms <==> s in rest))
    && (forall s :: s in ms && s !in EvolutionOperator.RawSectors ==> s in rest && ms[s] == rest[s])
    && (forall s, kk: nat, ll: nat :: s in EvolutionOperator.RawSectors && kk < n && ll < n ==>
          ms[s].value[kk][ll] == Want(s, kk, ll, k, l, j, labels, integ).0
          && ms[s].error[kk][ll] == Want(s, kk, ll, k, l, j, labels, integ).1)
  }

  /** The end of row k is the start of row k + 1. */
  lemma NextRow(ms: map<string, Member>, rest: map<string, Member>, n: nat, labels: seq<string>, integ: Integrals, k: nat)
    requires Cells(ms, rest, n, labels, integ, k, n, 0)
    ensures Cells(ms, rest, n, labels, integ, k + 1, 0, 0)
  {
    forall s, kk: nat, ll: nat | s in EvolutionOperator.RawSectors && kk < n && ll < n
      ensures Want(s, kk, ll, k, n, 0, labels, integ) == Want(s, kk, ll, k + 1, 0, 0, labels, integ)
    {
      assert Done(s, kk, ll, k, n, 0, labels) == Done(s, kk, ll, k + 1, 0, 0, labels);
    }
  }

  /** Past the last label at (k, l) is the start of (k, l + 1). */
  lemma NextCell(ms: map<string, Member>, rest: map<string, Member>, n: nat, labels: seq<string>, integ: Integrals, k: nat, l: nat)
    requires Cells(ms, rest, n, labels, integ, k, l, |labels|)
    ensures Cells(ms, rest, n, labels, integ, k, l + 1, 0)
  {
    assert labels[..|labels|] == labels;
    forall s, kk: nat, ll: nat | s in EvolutionOperator.RawSectors && kk < n && ll < n
      ensures Want(s, kk, ll, k, l, |labels|, labels, integ) == Want(s, kk, ll, k, l + 1, 0, labels, integ)
    {
      assert Done(s, kk, ll, k, l, |labels|, labels) == Done(s, kk, ll, k, l + 1, 0, labels);
    }
  }

  /** Once every position is past, the members are `rest` with the computed sectors laid over it. */
  lemma CellsComplete(ms: map<string, Member>, rest: map<string, Member>, n: nat, labels: seq<string>, integ: Integrals)
    requires Cells(ms, rest, n, labels, integ, n, 0, 0)
    ensures ms == rest + Computed(n, labels, integ)
  {
    var c := rest + Computed(n, labels, integ);
    forall s | s in ms
      ensures s in c && ms[s] == c[s]
    {
      if s in EvolutionOperator.RawSectors {
        SectorComplete(ms, rest, n, labels, integ, s);
      }
    }
    assert ms.Keys == c.Keys;
  }

  /** Once every position is past, a computed sector holds its value and error tables. */
  lemma SectorComplete(ms: map<string, Member>, rest: map<string, Member>, n: nat, labels: seq<string>, integ: Integrals,
                       s: string)
    requires Cells(ms, rest, n, labels, integ, n, 0, 0) && s in EvolutionOperator.RawSectors
    ensures ms[s].value == Table(n, s, labels, integ, false) && ms[s].error == Table(n, s, labels, integ, true)
  {
    var t := Table(n, s, labels, integ, false);
    var e := Table(n, s, labels, integ, true);
    forall kk | 0 <= kk < n
      ensures ms[s].value[kk] == t[kk] && ms[s].error[kk] == e[kk]
    {
      forall ll | 0 <= ll < n
        ensures ms[s].value[kk][ll] == t[kk][ll] && ms[s].error[kk][ll] == e[kk][ll]
      {
        assert Done(s, kk, ll, n, 0, 0, labels) <==> s in labels;
      }
    }
  }

  /** The evolution operator of one segment. */
  class Operator {
    const order: nat
    const skipNonSinglet: bool
    const skipSinglet: bool
    var opMembers: map<string, Member>

    /** A fresh operator holds no members until `compute` runs. */
    constructor(order: nat, skipNonSinglet: bool, skipSinglet: bool)
      ensures this.order == order && this.skipNonSinglet == skipNonSinglet && this.skipSinglet == skipSinglet
      ensures opMembers == map[]
    {
      this.order := order;
      this.skipNonSinglet := skipNonSinglet;
      this.skipSinglet := skipSinglet;
      opMembers := map[];
    }

    /** `labels()` for this operator's configuration. */
    function MyLabels(): (r: seq<string>)
    {
      Labels(order, skipNonSinglet, skipSinglet)
    }

    /**
     * `compute`: seven zero members of size n, every integral written into
     * its entry, then `copy_ns_ops`. `integ` stands for the Mellin inversion
     * of `quad_ker` at each output point, basis function and label.
     */
    method Compute(n: nat, integ: Integrals)
      modifies this
      ensures opMembers == CopyNs(old(opMembers) + Computed(n, MyLabels(), integ), order)
    {
      FillMembers(n, MyLabels(), integ);
      assert EvolutionOperator.RawSectors[0] == "NS_p" && EvolutionOperator.RawSectors[1] == "NS_m";
      assert EvolutionOperator.RawSectors[2] == "NS_v";
      CopyNsOps();
    }

    /** The seven sectors set to zero members, then every integral of `labels` written into its entry. */
    method FillMembers(n: nat, labels: seq<string>, integ: Integrals)
      requires SectorLabels(labels)
      modifies this
      ensures opMembers == old(opMembers) + Computed(n, labels, integ)
    {
      ghost var rest := opMembers;
      InitZeros(n, labels, integ);
      FillAll(n, labels, integ, rest);
      CellsComplete(opMembers, rest, n, labels, integ);
    }

    /** The seven sectors set to zero members of size n, each under its own name. */
    method InitZeros(n: nat, labels: seq<string>, integ: Integrals)
      modifies this
      ensures opMembers == old(opMembers) + Computed(n, [], integ)
      ensures Cells(opMembers, old(opMembers), n, labels, integ, 0, 0, 0)
    {
      ghost var rest := opMembers;
      opMembers := opMembers + Computed(n, [], integ);
      forall s, kk: nat, ll: nat | s in EvolutionOperator.RawSectors && kk < n && ll < n
        ensures opMembers[s].value[kk][ll] == Want(s, kk, ll, 0, 0, 0, labels, integ).0
        ensures opMembers[s].error[kk][ll] == Want(s, kk, ll, 0, 0, 0, labels, integ).1
      {
        assert !Done(s, kk, ll, 0, 0, 0, labels);
      }
    }

    /** The fill loop over the output points. */
    method FillAll(n: nat, labels: seq<string>, integ: Integrals, ghost rest: map<string, Member>)
      requires SectorLabels(labels) && Cells(opMembers, rest, n, labels, integ, 0, 0, 0)
      modifies this
      ensures Cells(opMembers, rest, n, labels, integ, n, 0, 0)
    {
      for k := 0 to n
        invariant Cells(opMembers, rest, n, labels, integ, k, 0, 0)
      {
        FillRow(n, labels, integ, k, rest);
      }
    }

    /** The fill loop over the basis functions at output point k. */
    method FillRow(n: nat, labels: seq<string>, integ: Integrals, k: nat, ghost rest: map<string, Member>)
      requires SectorLabels(labels) && k < n && Cells(opMembers, rest, n, labels, integ, k, 0, 0)
      modifies this
      ensures Cells(opMembers, rest, n, labels, integ, k + 1, 0, 0)
    {
      for l := 0 to n
        invariant Cells(opMembers, rest, n, labels, integ, k, l, 0)
      {
        FillCell(n, labels, integ, k, l, rest);
      }
      NextRow(opMembers, rest, n, labels, integ, k);
    }

    /** The loop over the labels at output point k and basis function l. */
    method FillCell(n: nat, labels: seq<string>, integ: Integrals, k: nat, l: nat, ghost rest: map<string, Member>)
      requires SectorLabels(labels) && k < n && l < n && Cells(opMembers, rest, n, labels, integ, k, l, 0)
      modifies this
      ensures Cells(opMembers, rest, n, labels, integ, k, l + 1, 0)
    {
      for j := 0 to |labels|
        invariant Cells(opMembers, rest, n, labels, integ, k, l, j)
      {
        WriteLabel(n, labels, integ, k, l, j, rest);
      }
      NextCell(opMembers, rest, n, labels, integ, k, l);
    }

    /** The integral of labels[j] written into entry (k, l) of its member. */
    method WriteLabel(n: nat, labels: seq<string>, integ: Integrals, k: nat, l: nat, j: nat, ghost rest: map<string, Member>)
      requires SectorLabels(labels) && k < n && l < n && j < |labels|
      requires Cells(opMembers, rest, n, labels, integ, k, l, j)
      modifies this
      ensures Cells(opMembers, rest, n, labels, integ, k, l, j + 1)
    {
      var s := labels[j];
      var ve := integ(k, l, s);
      opMembers := opMembers[s := Put(opMembers[s], k, l, ve.0, ve.1)];
      assert labels[..j + 1] == labels[..j] + [s];
      forall t, kk: nat, ll: nat | t in EvolutionOperator.RawSectors && kk < n && ll < n
        ensures opMembers[t].value[kk][ll] == Want(t, kk, ll, k, l, j + 1, labels, integ).0
        ensures opMembers[t].error[kk][ll] == Want(t, kk, ll, k, l, j + 1, labels, integ).1
      {
        if t == s && kk == k && ll == l {
          assert Done(t, kk, ll, k, l, j + 1, labels);
        } else if t != s || kk != k || ll != l {
          assert Done(t, kk, ll, k, l, j + 1, labels) == Done(t, kk, ll, k, l, j, labels);
        }
      }
    }

    /** `copy_ns_ops`, on the three non-singlet members `compute` created. */
    method CopyNsOps()
      requires "NS_p" in opMembers && "NS_m" in opMembers && "NS_v" in opMembers
      modifies this
      ensures opMembers == CopyNs(old(opMembers), order)
    {
      if order == 0 {
        opMembers := CopyInto(opMembers, "NS_v", "NS_p");
        opMembers := CopyInto(opMembers, "NS_m", "NS_p");
      } else if order == 1 {
        opMembers := CopyInto(opMembers, "NS_v", "NS_m");
      }
    }
  }
}
