/**
 * The older operator grid: one operator master per number of flavours,
 * which fetches its integrands from the kernel dispatcher only when first
 * asked for an operator; the grid checks the requested limits, caches the
 * operators between consecutive area reference scales on the way from the
 * reference scale, and keeps one raw operator per requested scale.
 *
 * The threshold holder of this version (`qref`, `nf_range`,
 * `get_path_from_q0`, `get_areas`) is not part of this model: its results
 * are the grid's constants. Operators are identified by what they are built
 * from; `delta_t` of the coupling generator is a given function.
 */
module LegacyGrid {
  import opened Common

  /** An area of the threshold holder: its reference scale and its number of flavours. */
  datatype Area = Area(qref: real, nf: int)

  /** What the kernel dispatcher hands out for nf flavours, singlet or non-singlet. */
  datatype Integrands = Integrands(nf: int, singlet: bool)

  /** An operator between two scales, before or after its `compute`. */
  datatype Op = Op(deltaT: real, nf: int, qFrom: real, qTo: real, ns: Integrands, s: Integrands, computed: bool)

  /** One threshold operator the grid needs: from, to and the number of flavours. */
  datatype Step = Step(qFrom: real, qTo: real, nf: int)
  {
    function Key(): (real, real) { (qFrom, qTo) }
  }

  /** The operator a master for nf built by `delta_t` hands out between two scales, not computed yet. */
  function OpFor(deltaT: (real, real) -> real, nf: int, qFrom: real, qTo: real): Op
  {
    Op(deltaT(qFrom, qTo), nf, qFrom, qTo, Integrands(nf, false), Integrands(nf, true), false)
  }

  class OperatorMaster {
    const nf: int
    const deltaT: (real, real) -> real
    var integrandsNs: Option<Integrands>
    var integrandsS: Option<Integrands>
    /** How often the integrands were fetched. */
    ghost var compilations: nat

    /** Whatever integrands are set are the ones for this master's nf. */
    ghost predicate Valid()
      reads this
    {
      && (integrandsNs.None? || integrandsNs.value == Integrands(nf, false))
      && (integrandsS.None? || integrandsS.value == Integrands(nf, true))
    }

    constructor (deltaT: (real, real) -> real, nf: int)
      ensures Valid() && this.nf == nf && this.deltaT == deltaT
      ensures integrandsNs == None && integrandsS == None && compilations == 0
    {
      this.nf := nf;
      this.deltaT := deltaT;
      integrandsNs := None;
      integrandsS := None;
      compilations := 0;
    }

    /** `_compile`: fetch the non-singlet and the singlet integrands for nf. */
    method Compile()
      modifies this
      ensures Valid()
      ensures integrandsNs == Some(Integrands(nf, false)) && integrandsS == Some(Integrands(nf, true))
      ensures compilations == old(compilations) + 1
    {
      integrandsNs := Some(Integrands(nf, false));
      integrandsS := Some(Integrands(nf, true));
      compilations := compilations + 1;
    }

    /**
     * `get_op`: compile first when either integrand is unset, then hand
     * out the operator between the two scales.
     */
    method GetOp(qFrom: real, qTo: real) returns (op: Op)
      requires Valid()
      modifies this
      ensures Valid()
      ensures integrandsNs == Some(Integrands(nf, false)) && integrandsS == Some(Integrands(nf, true))
      ensures compilations == old(compilations) + (if old(integrandsS).None? || old(integrandsNs).None? then 1 else 0)
      ensures op == OpFor(deltaT, nf, qFrom, qTo)
    {
      if integrandsS.None? || integrandsNs.None? {
        Compile();
      }
      op := Op(deltaT(qFrom, qTo), nf, qFrom, qTo, integrandsNs.value, integrandsS.value, false);
    }
  }

  // ---------------------------------------------------------------- the threshold walk

  /** The scale the walk stands at after the areas: the last area's reference scale. */
  function Cursor(q0: real, areas: seq<Area>): real
  {
    if |areas| == 0 then q0 else areas[|areas| - 1].qref
  }

  /**
   * `_generate_thresholds_op`: walking from q0 through the areas, an area
   * whose reference scale is where the walk stands adds nothing, any other
   * adds the step from there to it.
   */
  function Steps(q0: real, areas: seq<Area>): seq<Step>
    decreases |areas|
  {
    if |areas| == 0 then []
    else
      var prev := areas[..|areas| - 1];
      var a := areas[|areas| - 1];
      if a.qref == Cursor(q0, prev) then Steps(q0, prev)
      else Steps(q0, prev) + [Step(Cursor(q0, prev), a.qref, a.nf)]
  }

  /** The cache keys of the steps. */
  function StepKeys(steps: seq<Step>): set<(real, real)>
  {
    set j | 0 <= j < |steps| :: steps[j].Key()
  }

  /**
   * The threshold cache t grew from t0 by the keys of the steps, and every
   * new entry is the operator of a step with that key.
   */
  ghost predicate GrewBy(t0: map<(real, real), Op>, t: map<(real, real), Op>, steps: seq<Step>, deltaT: (real, real) -> real)
  {
    && Extends(t0, t)
    && t.Keys == t0.Keys + StepKeys(steps)
    && (forall k :: k in t && k !in t0 ==>
          exists j :: 0 <= j < |steps| && steps[j].Key() == k && t[k] == OpFor(deltaT, steps[j].nf, k.0, k.1))
  }

  /** The raw grid after the first n scales: each scale's operator from its area's reference scale. */
  function RawGrid(g0: map<real, Op>, areas: seq<Area>, qgrid: seq<real>, deltaT: (real, real) -> real, n: nat): map<real, Op>
    requires n <= |areas| && n <= |qgrid|
  {
    if n == 0 then g0
    else RawGrid(g0, areas, qgrid, deltaT, n - 1)[qgrid[n - 1] := OpFor(deltaT, areas[n - 1].nf, areas[n - 1].qref, qgrid[n - 1])]
  }

  /** Every operator of the grid after `compute`. */
  function ComputeAll(g: map<real, Op>): (r: map<real, Op>)
    ensures r.Keys == g.Keys
    ensures forall q :: q in g ==> r[q].computed && r[q].(computed := false) == g[q].(computed := false)
  {
    map q | q in g :: g[q].(computed := true)
  }

  /** The smallest of the scales (`np.min`). */
  function MinOf(s: seq<real>): (m: real)
    requires |s| > 0
    ensures exists i :: 0 <= i < |s| && s[i] == m
    ensures forall i :: 0 <= i < |s| ==> m <= s[i]
  {
    if |s| == 1 then s[0]
    else
      var rest := MinOf(s[1..]);
      assert forall i :: 1 <= i < |s| ==> s[i] == s[1..][i - 1];
      if s[0] <= rest then s[0] else rest
  }

  /** The largest of the scales (`np.max`). */
  function MaxOf(s: seq<real>): (m: real)
    requires |s| > 0
    ensures exists i :: 0 <= i < |s| && s[i] == m
    ensures forall i :: 0 <= i < |s| ==> s[i] <= m
  {
    if |s| == 1 then s[0]
    else
      var rest := MaxOf(s[1..]);
      assert forall i :: 1 <= i < |s| ==> s[i] == s[1..][i - 1];
      if s[0] >= rest then s[0] else rest
  }

  /** The argument of `compute_qgrid`: a single scale or a list. */
  datatype QArg = Scalar(q: real) | Many(qs: seq<real>)

  /** `compute_qgrid` wraps a single scale into a one-element list. */
  function QGridOf(arg: QArg): seq<real>
  {
    match arg
    case Scalar(q) => [q]
    case Many(qs) => qs
  }

  // ---------------------------------------------------------------- the grid

  class OperatorGrid {
    /** The threshold holder's reference scale. */
    const qref: real
    /** The threshold holder's `get_path_from_q0`. */
    const pathFromQ0: real -> seq<Area>
    /** The threshold holder's `get_areas`. */
    const areasOf: seq<real> -> seq<Area>
    /** The coupling generator's `delta_t`. */
    const deltaT: (real, real) -> real
    const opMasters: map<int, OperatorMaster>
    var thresholdOperators: map<(real, real), Op>
    var opGrid: map<real, Op>
    var qmax: real
    var qmin: ExtReal

    /** The operator masters. */
    function Masters(): set<OperatorMaster>
    {
      set nf | nf in opMasters :: opMasters[nf]
    }

    /** Every master serves its own nf with the grid's `delta_t`. */
    ghost predicate Valid()
      reads this, Masters()
    {
      forall nf :: nf in opMasters ==>
        opMasters[nf].nf == nf && opMasters[nf].deltaT == deltaT && opMasters[nf].Valid()
    }

    /** `OperatorGrid(...)`: one fresh, uncompiled master per nf of the holder's range. */
    constructor (qref: real, nfRange: seq<int>, pathFromQ0: real -> seq<Area>, areasOf: seq<real> -> seq<Area>,
                 deltaT: (real, real) -> real)
      ensures Valid()
      ensures this.qref == qref && this.pathFromQ0 == pathFromQ0 && this.areasOf == areasOf && this.deltaT == deltaT
      ensures opMasters.Keys == Elems(nfRange)
      ensures forall nf :: nf in opMasters ==>
        fresh(opMasters[nf]) && opMasters[nf].integrandsNs.None? && opMasters[nf].integrandsS.None?
      ensures thresholdOperators == map[] && opGrid == map[] && qmax == -1.0 && qmin == Inf
    {
      var ms: map<int, OperatorMaster> := map[];
      for k := 0 to |nfRange|
        invariant ms.Keys == Elems(nfRange[..k])
        invariant forall nf :: nf in ms ==>
          && fresh(ms[nf]) && ms[nf].nf == nf && ms[nf].deltaT == deltaT && ms[nf].Valid()
          && ms[nf].integrandsNs.None? && ms[nf].integrandsS.None?
      {
        var m := new OperatorMaster(deltaT, nfRange[k]);
        ElemsSnoc(nfRange[..k], nfRange[k]);
        assert nfRange[..k + 1] == nfRange[..k] + [nfRange[k]];
        ms := ms[nfRange[k] := m];
      }
      assert nfRange[..|nfRange|] == nfRange;
      this.qref := qref;
      this.pathFromQ0 := pathFromQ0;
      this.areasOf := areasOf;
      this.deltaT := deltaT;
      opMasters := ms;
      thresholdOperators := map[];
      opGrid := map[];
      qmax := -1.0;
      qmin := Inf;
    }

    /** Every area has a master for its number of flavours. */
    predicate Mastered(areas: seq<Area>)
    {
      forall j :: 0 <= j < |areas| ==> areas[j].nf in opMasters
    }

    /**
     * `_generate_thresholds_op`: cache the operator of every step of the
     * walk from the reference scale that is not cached yet; an area whose
     * number of flavours has no master is a KeyError.
     */
    method GenerateThresholdsOp(areas: seq<Area>) returns (r: Result<()>)
      requires Valid()
      modifies this, Masters()
      ensures Valid()
      ensures opGrid == old(opGrid) && qmax == old(qmax) && qmin == old(qmin)
      ensures Extends(old(thresholdOperators), thresholdOperators)
      ensures r.Err? ==> r.error == KeyError
      ensures (forall j :: 0 <= j < |areas| ==> areas[j].nf in opMasters) ==> r.Ok?
      ensures r.Ok? ==> GrewBy(old(thresholdOperators), thresholdOperators, Steps(qref, areas), deltaT)
    {
      var t := thresholdOperators;
      var qFrom := qref;
      for i := 0 to |areas|
        invariant Valid()
        invariant opGrid == old(opGrid) && qmax == old(qmax) && qmin == old(qmin)
        invariant thresholdOperators == old(thresholdOperators)
        invariant qFrom == Cursor(qref, areas[..i])
        invariant GrewBy(old(thresholdOperators), t, Steps(qref, areas[..i]), deltaT)
      {
        var area := areas[i];
        StepsSnoc(qref, areas, i);
        var qTo := area.qref;
        if qTo == qFrom {
          continue;
        }
        var key := (qFrom, qTo);
        if key !in t {
          if area.nf !in opMasters {
            thresholdOperators := t;
            return Err(KeyError);
          }
          var op := opMasters[area.nf].GetOp(qFrom, qTo);
          GrowStep(old(thresholdOperators), t, Steps(qref, areas[..i]), Step(qFrom, qTo, area.nf), deltaT);
          t := t[key := op];
        } else {
          GrowStep(old(thresholdOperators), t, Steps(qref, areas[..i]), Step(qFrom, qTo, area.nf), deltaT);
        }
        qFrom := qTo;
      }
      assert areas[..|areas|] == areas;
      thresholdOperators := t;
      r := Ok(());
    }

    /**
     * `set_q_limits`: a minimum at or below zero, or above the maximum, is
     * a ValueError; otherwise the threshold operators on the paths to both
     * limits are cached.
     */
    method SetQLimits(qmin: real, qmax: real) returns (r: Result<()>)
      requires Valid()
      modifies this, Masters()
      ensures Valid()
      ensures opGrid == old(opGrid) && this.qmax == old(this.qmax) && this.qmin == old(this.qmin)
      ensures Extends(old(thresholdOperators), thresholdOperators)
      ensures qmin <= 0.0 || qmin > qmax ==> r == Err(ValueError) && thresholdOperators == old(thresholdOperators)
      ensures r.Err? ==> r.error == ValueError || r.error == KeyError
      ensures 0.0 < qmin <= qmax && Mastered(pathFromQ0(qmin)) && Mastered(pathFromQ0(qmax)) ==> r.Ok?
      ensures r.Ok? ==>
        thresholdOperators.Keys ==
          old(thresholdOperators).Keys + StepKeys(Steps(qref, pathFromQ0(qmin))) + StepKeys(Steps(qref, pathFromQ0(qmax)))
    {
      if qmin <= 0.0 {
        return Err(ValueError);
      }
      if qmin > qmax {
        return Err(ValueError);
      }
      var fromQmin := pathFromQ0(qmin);
      var fromQmax := pathFromQ0(qmax);
      r := GenerateThresholdsOp(fromQmin);
      if r.Err? {
        return;
      }
      r := GenerateThresholdsOp(fromQmax);
    }

    /**
     * `_compute_raw_grid`: for each scale and its area, the operator from
     * the area's reference scale to the scale, by the master of the area's
     * nf (a missing master is a KeyError); then every operator of the grid
     * is computed.
     */
    method ComputeRawGrid(qgrid: seq<real>) returns (r: Result<()>)
      requires Valid()
      modifies this, Masters()
      ensures Valid()
      ensures thresholdOperators == old(thresholdOperators) && qmax == old(qmax) && qmin == old(qmin)
      ensures var areas := areasOf(qgrid);
        var n := if |areas| < |qgrid| then |areas| else |qgrid|;
        && (r.Ok? <==> forall k :: 0 <= k < n ==> areas[k].nf in opMasters)
        && (r.Err? ==> r.error == KeyError)
        && (r.Ok? ==> opGrid == ComputeAll(RawGrid(old(opGrid), areas, qgrid, deltaT, n)))
    {
      var areas := areasOf(qgrid);
      var n := if |areas| < |qgrid| then |areas| else |qgrid|;
      for k := 0 to n
        invariant Valid()
        invariant thresholdOperators == old(thresholdOperators) && qmax == old(qmax) && qmin == old(qmin)
        invariant forall j :: 0 <= j < k ==> areas[j].nf in opMasters
        invariant opGrid == RawGrid(old(opGrid), areas, qgrid, deltaT, k)
      {
        var area := areas[k];
        var q := qgrid[k];
        if area.nf !in opMasters {
          return Err(KeyError);
        }
        var op := opMasters[area.nf].GetOp(area.qref, q);
        opGrid := opGrid[q := op];
      }
      opGrid := ComputeAll(opGrid);
      r := Ok(());
    }

    /**
     * `compute_qgrid`: a single scale becomes a one-element list, the limits
     * are the list's smallest and largest scale (an empty list is a
     * ValueError), then the raw grid is computed.
     */
    method ComputeQGrid(arg: QArg) returns (r: Result<()>)
      requires Valid()
      modifies this, Masters()
      ensures Valid()
      ensures Extends(old(thresholdOperators), thresholdOperators)
      ensures |QGridOf(arg)| == 0 ==> r == Err(ValueError)
      ensures |QGridOf(arg)| > 0 && MinOf(QGridOf(arg)) <= 0.0 ==> r == Err(ValueError)
      ensures r.Err? ==> r.error == ValueError || r.error == KeyError
      ensures var qgrid := QGridOf(arg); var areas := areasOf(qgrid);
        && |qgrid| > 0 && MinOf(qgrid) > 0.0
        && Mastered(pathFromQ0(MinOf(qgrid))) && Mastered(pathFromQ0(MaxOf(qgrid)))
        && Mastered(areas[..if |areas| < |qgrid| then |areas| else |qgrid|])
        ==> r.Ok?
      ensures r.Ok? ==>
        var qgrid := QGridOf(arg);
        var areas := areasOf(qgrid);
        && |qgrid| > 0
        && thresholdOperators.Keys == old(thresholdOperators).Keys
             + StepKeys(Steps(qref, pathFromQ0(MinOf(qgrid)))) + StepKeys(Steps(qref, pathFromQ0(MaxOf(qgrid))))
        && opGrid == ComputeAll(RawGrid(old(opGrid), areas, qgrid, deltaT, if |areas| < |qgrid| then |areas| else |qgrid|))
    {
      var qgrid := QGridOf(arg);
      if |qgrid| == 0 {
        return Err(ValueError);
      }
      var qmax := MaxOf(qgrid);
      var qmin := MinOf(qgrid);
      r := SetQLimits(qmin, qmax);
      if r.Err? {
        return;
      }
      r := ComputeRawGrid(qgrid);
    }
  }

  // ---------------------------------------------------------------- lemmas

  /** One more area: the walk's steps grow by at most the step to that area. */
  lemma StepsSnoc(q0: real, areas: seq<Area>, i: nat)
    requires i < |areas|
    ensures Cursor(q0, areas[..i + 1]) == areas[i].qref
    ensures var from := Cursor(q0, areas[..i]);
      Steps(q0, areas[..i + 1]) ==
        if areas[i].qref == from then Steps(q0, areas[..i])
        else Steps(q0, areas[..i]) + [Step(from, areas[i].qref, areas[i].nf)]
  {
    assert areas[..i + 1][..i] == areas[..i];
  }

  /** Caching one more step keeps the cache grown by the steps so far. */
  lemma GrowStep(t0: map<(real, real), Op>, t: map<(real, real), Op>, steps: seq<Step>, s: Step, deltaT: (real, real) -> real)
    requires GrewBy(t0, t, steps, deltaT)
    ensures GrewBy(t0, if s.Key() in t then t else t[s.Key() := OpFor(deltaT, s.nf, s.qFrom, s.qTo)], steps + [s], deltaT)
  {
    var t2 := if s.Key() in t then t else t[s.Key() := OpFor(deltaT, s.nf, s.qFrom, s.qTo)];
    var l := steps + [s];
    forall k | k in StepKeys(l) ensures k in StepKeys(steps) + {s.Key()} {
      var j :| 0 <= j < |l| && l[j].Key() == k;
      if j < |steps| {
        assert steps[j] == l[j];
      }
    }
    forall k | k in StepKeys(steps) ensures k in StepKeys(l) {
      var j :| 0 <= j < |steps| && steps[j].Key() == k;
      assert l[j] == steps[j];
    }
    assert l[|steps|] == s;
    assert StepKeys(l) == StepKeys(steps) + {s.Key()};
    forall k | k in t2 && k !in t0
      ensures exists j :: 0 <= j < |l| && l[j].Key() == k && t2[k] == OpFor(deltaT, l[j].nf, k.0, k.1)
    {
      if k in t {
        var j :| 0 <= j < |steps| && steps[j].Key() == k && t[k] == OpFor(deltaT, steps[j].nf, k.0, k.1);
        assert l[j] == steps[j] && t2[k] == t[k];
      } else {
        assert l[|steps|].Key() == k && t2[k] == OpFor(deltaT, l[|steps|].nf, k.0, k.1);
      }
    }
  }

  /**
   * The walk's steps chain up: the first leaves q0, each starts where the
   * previous one ended, none stays in place, and the walk ends at the last
   * area's reference scale.
   */
  lemma {:induction false} StepsChain(q0: real, areas: seq<Area>)
    ensures var s := Steps(q0, areas);
      && |s| <= |areas|
      && (|s| == 0 ==> Cursor(q0, areas) == q0)
      && (|s| > 0 ==> s[0].qFrom == q0 && s[|s| - 1].qTo == Cursor(q0, areas))
      && (forall j :: 0 <= j < |s| ==> s[j].qFrom != s[j].qTo)
      && (forall j :: 0 < j < |s| ==> s[j].qFrom == s[j - 1].qTo)
    decreases |areas|
  {
    if |areas| > 0 {
      var prev := areas[..|areas| - 1];
      StepsChain(q0, prev);
      var s0 := Steps(q0, prev);
      var a := areas[|areas| - 1];
      if a.qref != Cursor(q0, prev) {
        var s := s0 + [Step(Cursor(q0, prev), a.qref, a.nf)];
        assert Steps(q0, areas) == s;
        forall j | 0 < j < |s| ensures s[j].qFrom == s[j - 1].qTo {
          if j < |s0| {
            assert s[j] == s0[j] && s[j - 1] == s0[j - 1];
          }
        }
      }
    }
  }

  /** A scale of the raw grid holds the operator of its last occurrence among the first n scales. */
  lemma {:induction false} RawGridAt(g0: map<real, Op>, areas: seq<Area>, qgrid: seq<real>, deltaT: (real, real) -> real,
                                     n: nat, k: nat)
    requires k < n <= |areas| && n <= |qgrid|
    requires forall j :: k < j < n ==> qgrid[j] != qgrid[k]
    ensures qgrid[k] in RawGrid(g0, areas, qgrid, deltaT, n)
    ensures RawGrid(g0, areas, qgrid, deltaT, n)[qgrid[k]] == OpFor(deltaT, areas[k].nf, areas[k].qref, qgrid[k])
    decreases n
  {
    if k < n - 1 {
      RawGridAt(g0, areas, qgrid, deltaT, n - 1, k);
    }
  }

  /** The raw grid holds the earlier scales and exactly the first n requested ones besides. */
  lemma {:induction false} RawGridKeys(g0: map<real, Op>, areas: seq<Area>, qgrid: seq<real>, deltaT: (real, real) -> real, n: nat)
    requires n <= |areas| && n <= |qgrid|
    ensures RawGrid(g0, areas, qgrid, deltaT, n).Keys == g0.Keys + Elems(qgrid[..n])
    ensures forall q :: q in g0 && q !in Elems(qgrid[..n]) ==> RawGrid(g0, areas, qgrid, deltaT, n)[q] == g0[q]
    decreases n
  {
    if n > 0 {
      RawGridKeys(g0, areas, qgrid, deltaT, n - 1);
      assert qgrid[..n] == qgrid[..n - 1] + [qgrid[n - 1]];
      ElemsSnoc(qgrid[..n - 1], qgrid[n - 1]);
    }
  }
}
