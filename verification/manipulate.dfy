/**
 * Reshaping an evolution operator in place: interpolating it onto new
 * output and/or input x grids, rotating it into new output and/or input
 * flavour bases, and rotating it into the evolution basis. Every operation
 * acts on the operators and on their errors alike, at every final scale.
 */
module Manipulate {
  import opened Common
  import opened LinAlg
  import opened Tensors
  import BasisRotation

  /** numpy's default relative tolerance of `allclose`. */
  const Rtol: real := 0.00001
  /** numpy's default absolute tolerance of `allclose`. */
  const Atol: real := 0.00000001

  /** numpy's `allclose(a, b)` on two grids of the same length. */
  predicate AllClose(a: seq<real>, b: seq<real>)
    requires |a| == |b|
  {
    forall i :: 0 <= i < |a| ==> IsClose(a[i], b[i], Rtol, Atol)
  }

  /** numpy's `allclose(m, e)` on two n x n matrices. */
  predicate AllCloseMatrix(m: Matrix, e: Matrix, n: nat)
    requires IsMatrix(m, n, n) && IsMatrix(e, n, n)
  {
    forall i, j :: 0 <= i < n && 0 <= j < n ==> IsClose(m[i][j], e[i][j], Rtol, Atol)
  }

  /** The operators and their errors at one final scale. */
  datatype Elem = Elem(operators: Tensor, errors: Tensor)

  /** Operators and errors both have the shape na x nj x nb x nk. */
  predicate Fits(e: Elem, na: nat, nj: nat, nb: nat, nk: nat)
  {
    IsTensor(e.operators, na, nj, nb, nk) && IsTensor(e.errors, na, nj, nb, nk)
  }

  /**
   * An interpolation: from a grid, the polynomial degree, whether it is
   * logarithmic, and some points, the values of the grid's basis functions
   * at the points (one row per point, one column per grid node).
   */
  type Interpolation = (seq<real>, int, bool, seq<real>) -> Matrix

  // ---------------------------------------------------------------- x grids

  /**
   * The grid still requested after comparing with the current one: a grid
   * of the same length as the current one and close to it is dropped.
   */
  function KeptGrid(g: Option<seq<real>>, current: seq<real>): (r: Option<seq<real>>)
    ensures r.Some? ==> r == g
    ensures g == Some(current) ==> r.None?
  {
    if g.Some? && |g.value| == |current| && AllClose(g.value, current) then None else g
  }

  /** The rotation on the output x index: the current output grid interpolated at the new points. */
  function TargetGridRotation(kept: Option<seq<real>>, current: seq<real>, interp: Interpolation, degree: int, isLog: bool): Option<Matrix>
  {
    if kept.Some? then Some(interp(current, degree, isLog, kept.value)) else None
  }

  /** The rotation on the input x index: the new input grid interpolated at the current points. */
  function InputGridRotation(kept: Option<seq<real>>, current: seq<real>, interp: Interpolation, degree: int, isLog: bool): Option<Matrix>
  {
    if kept.Some? then Some(interp(kept.value, degree, isLog, current)) else None
  }

  /**
   * One tensor on new x grids: the output rotation alone, the input
   * rotation alone, or both at once; na x nj x nb x nk becomes
   * na x ni x nb x nl on the rotated sides.
   */
  function RotateX(t: Tensor, tr: Option<Matrix>, ir: Option<Matrix>, na: nat, nj: nat, nb: nat, nk: nat, ni: nat, nl: nat): (u: Tensor)
    ensures IsTensor(t, na, nj, nb, nk) ==> IsTensor(u, na, if tr.Some? then ni else nj, nb, if ir.Some? then nl else nk)
  {
    if tr.Some? && ir.None? then OnTargetGrid(tr.value, t, na, nj, nb, nk, ni)
    else if ir.Some? && tr.None? then OnInputGrid(t, ir.value, na, nj, nb, nk, nl)
    else if tr.Some? && ir.Some? then OnBothGrids(tr.value, t, ir.value, na, nj, nb, nk, ni, nl)
    else t
  }

  /** Operators and errors on new x grids. */
  function ElemX(e: Elem, tr: Option<Matrix>, ir: Option<Matrix>, na: nat, nj: nat, nb: nat, nk: nat, ni: nat, nl: nat): Elem
  {
    Elem(RotateX(e.operators, tr, ir, na, nj, nb, nk, ni, nl), RotateX(e.errors, tr, ir, na, nj, nb, nk, ni, nl))
  }

  // ---------------------------------------------------------------- flavour bases

  /**
   * A basis, when given, is an n x n matrix. Other shapes make numpy's
   * comparison with the identity fail, except a 1 x n output basis, which
   * numpy broadcasts; the model refuses that one too.
   */
  predicate SquareOrNone(b: Option<Matrix>, n: nat)
  {
    b.Some? ==> IsMatrix(b.value, n, n)
  }

  /** The basis still requested: one close to the identity is dropped. */
  function KeptBasis(b: Option<Matrix>, n: nat): (r: Option<Matrix>)
    requires SquareOrNone(b, n)
    ensures r.Some? ==> r == b
    ensures b == Some(Identity(n)) ==> r.None?
  {
    if b.Some? && AllCloseMatrix(b.value, Identity(n), n) then None else b
  }

  /**
   * `np.linalg.inv` as a parameter: `inv(b)` is None where numpy raises
   * LinAlgError (a ValueError), as it does for a singular basis.
   */
  type Inverse = Matrix -> Option<Matrix>

  /** A kept input basis, when there is one, can be inverted. */
  predicate Invertible(b: Option<Matrix>, inv: Inverse)
  {
    b.Some? ==> inv(b.value).Some?
  }

  /** The inverse of a kept input basis, which rotates the input flavour index. */
  function Inverted(b: Option<Matrix>, inv: Inverse): (r: Option<Matrix>)
    requires Invertible(b, inv)
    ensures r.Some? <==> b.Some?
    ensures b.Some? ==> Some(r.value) == inv(b.value)
  {
    if b.Some? then inv(b.value) else None
  }

  /** n zero pids: the pids of a rotated side. */
  function ZeroPids(n: nat): (z: seq<int>)
    ensures |z| == n && forall i :: 0 <= i < n ==> z[i] == 0
  {
    seq(n, _ => 0)
  }

  /**
   * One tensor in new flavour bases: the output basis alone, the inverse
   * input basis alone, or both at once; the shape stays na x nj x nb x nk.
   */
  function RotateF(t: Tensor, tb: Option<Matrix>, ib: Option<Matrix>, na: nat, nj: nat, nb: nat, nk: nat): (u: Tensor)
    ensures IsTensor(t, na, nj, nb, nk) ==> IsTensor(u, na, nj, nb, nk)
  {
    if tb.Some? && ib.None? then OnTargetFlavor(tb.value, t, na, nj, nb, nk, na)
    else if ib.Some? && tb.None? then OnInputFlavor(t, ib.value, na, nj, nb, nk, nb)
    else if tb.Some? && ib.Some? then OnBothFlavors(tb.value, t, ib.value, na, nj, nb, nk, na, nb)
    else t
  }

  /** Operators and errors in new flavour bases. */
  function ElemF(e: Elem, tb: Option<Matrix>, ib: Option<Matrix>, na: nat, nj: nat, nb: nat, nk: nat): Elem
  {
    Elem(RotateF(e.operators, tb, ib, na, nj, nb, nk), RotateF(e.errors, tb, ib, na, nj, nb, nk))
  }

  // ---------------------------------------------------------------- the loop over scales

  /** Replaces every element of the grid by its image under f, one final scale at a time. */
  method MapGrid(g: map<real, Elem>, f: Elem -> Elem) returns (out: map<real, Elem>)
    ensures out.Keys == g.Keys
    ensures forall q :: q in g ==> out[q] == f(g[q])
  {
    out := g;
    var todo := g.Keys;
    while todo != {}
      invariant todo <= g.Keys && out.Keys == g.Keys
      invariant forall q :: q in g ==> out[q] == if q in todo then g[q] else f(g[q])
      decreases todo
    {
      Pick(todo);
      var q :| q in todo;
      out := out[q := f(out[q])];
      todo := todo - {q};
    }
  }

  // ---------------------------------------------------------------- the operator

  /** An evolution operator: its grids and pids on both sides, its interpolation, and its elements by final scale. */
  class Eko {
    var targetgrid: seq<real>
    var inputgrid: seq<real>
    var targetpids: seq<int>
    var inputpids: seq<int>
    const polynomialDegree: int
    const isLog: bool
    var grid: map<real, Elem>

    /** Every element has the shape given by the pids and grids. */
    ghost predicate Valid()
      reads this
    {
      forall q :: q in grid ==> Fits(grid[q], |targetpids|, |targetgrid|, |inputpids|, |inputgrid|)
    }

    constructor(targetgrid: seq<real>, inputgrid: seq<real>, targetpids: seq<int>, inputpids: seq<int>,
                polynomialDegree: int, isLog: bool, grid: map<real, Elem>)
      requires forall q :: q in grid ==> Fits(grid[q], |targetpids|, |targetgrid|, |inputpids|, |inputgrid|)
      ensures Valid()
      ensures this.targetgrid == targetgrid && this.inputgrid == inputgrid
      ensures this.targetpids == targetpids && this.inputpids == inputpids
      ensures this.polynomialDegree == polynomialDegree && this.isLog == isLog && this.grid == grid
    {
      this.targetgrid := targetgrid;
      this.inputgrid := inputgrid;
      this.targetpids := targetpids;
      this.inputpids := inputpids;
      this.polynomialDegree := polynomialDegree;
      this.isLog := isLog;
      this.grid := grid;
    }

    /**
     * `xgrid_reshape`: neither grid is a ValueError; a requested grid close
     * to the current one is dropped; the kept grids replace the current
     * ones, and every operator and error is interpolated onto them.
     */
    method XgridReshape(newTarget: Option<seq<real>>, newInput: Option<seq<real>>, interp: Interpolation) returns (r: Result<()>)
      requires Valid()
      modifies this
      ensures Valid()
      ensures r.Err? <==> newTarget.None? && newInput.None?
      ensures r.Err? ==> r.error == ValueError && unchanged(this)
      ensures targetpids == old(targetpids) && inputpids == old(inputpids)
      ensures var kt := KeptGrid(newTarget, old(targetgrid)); var ki := KeptGrid(newInput, old(inputgrid));
        && targetgrid == (if kt.Some? then kt.value else old(targetgrid))
        && inputgrid == (if ki.Some? then ki.value else old(inputgrid))
        && grid.Keys == old(grid).Keys
        && forall q :: q in grid ==> grid[q] == ElemX(old(grid)[q],
             TargetGridRotation(kt, old(targetgrid), interp, polynomialDegree, isLog),
             InputGridRotation(ki, old(inputgrid), interp, polynomialDegree, isLog),
             |targetpids|, |old(targetgrid)|, |inputpids|, |old(inputgrid)|, |targetgrid|, |inputgrid|)
      ensures KeptGrid(newTarget, old(targetgrid)).None? && KeptGrid(newInput, old(inputgrid)).None? ==> grid == old(grid)
    {
      if newTarget.None? && newInput.None? {
        return Err(ValueError);
      }
      r := Ok(());
      var kt := KeptGrid(newTarget, targetgrid);
      var ki := KeptGrid(newInput, inputgrid);
      if kt.None? && ki.None? {
        return;
      }
      var tr := TargetGridRotation(kt, targetgrid, interp, polynomialDegree, isLog);
      var ir := InputGridRotation(ki, inputgrid, interp, polynomialDegree, isLog);
      var na, nj, nb, nk := |targetpids|, |targetgrid|, |inputpids|, |inputgrid|;
      var ni := if kt.Some? then |kt.value| else nj;
      var nl := if ki.Some? then |ki.value| else nk;
      var g := grid;
      var out := MapGrid(g, e => ElemX(e, tr, ir, na, nj, nb, nk, ni, nl));
      if kt.Some? {
        targetgrid := kt.value;
      }
      if ki.Some? {
        inputgrid := ki.value;
      }
      grid := out;
    }

    /**
     * `flavor_reshape`: neither basis is a ValueError, and so is a basis
     * that is not square in its side's pids; a basis close to the identity
     * is dropped; a kept input basis numpy cannot invert is a ValueError
     * (LinAlgError); every operator and error is rotated by the kept output
     * basis and the inverse of the kept input basis, and each rotated
     * side's pids become zeros.
     */
    method FlavorReshape(newTarget: Option<Matrix>, newInput: Option<Matrix>, inv: Inverse) returns (r: Result<()>)
      requires Valid()
      modifies this
      ensures Valid()
      ensures r.Ok? <==>
        && (newTarget.Some? || newInput.Some?)
        && SquareOrNone(newTarget, |old(targetpids)|) && SquareOrNone(newInput, |old(inputpids)|)
        && Invertible(KeptBasis(newInput, |old(inputpids)|), inv)
      ensures r.Err? ==> r.error == ValueError && unchanged(this)
      ensures r.Ok? ==> FlavorReshaped(this, old(grid), old(targetpids), old(inputpids), old(targetgrid), old(inputgrid),
                                       KeptBasis(newTarget, |old(targetpids)|), Inverted(KeptBasis(newInput, |old(inputpids)|), inv))
    {
      if newTarget.None? && newInput.None? {
        return Err(ValueError);
      }
      if !SquareOrNone(newTarget, |targetpids|) || !SquareOrNone(newInput, |inputpids|) {
        return Err(ValueError);
      }
      r := Ok(());
      var kt := KeptBasis(newTarget, |targetpids|);
      var ki := KeptBasis(newInput, |inputpids|);
      if !Invertible(ki, inv) {
        return Err(ValueError);
      }
      if kt.None? && ki.None? {
        return;
      }
      var ib := Inverted(ki, inv);
      var na, nj, nb, nk := |targetpids|, |targetgrid|, |inputpids|, |inputgrid|;
      var g := grid;
      var out := MapGrid(g, e => ElemF(e, kt, ib, na, nj, nb, nk));
      grid := out;
      if ki.Some? {
        inputpids := ZeroPids(|inputpids|);
      }
      if kt.Some? {
        targetpids := ZeroPids(|targetpids|);
      }
    }

    /**
     * `to_evol`: rotates the input side (when `source`) and the output side
     * (when `target`) from the flavour basis to the evolution basis and
     * labels each rotated side with the evolution pids; neither side is a
     * ValueError, and so is a rotated side without 14 pids.
     */
    method ToEvol(source: bool, target: bool, inv: Inverse, evolPids: seq<int>) returns (r: Result<()>)
      requires Valid() && |evolPids| == 14
      modifies this
      ensures Valid()
      ensures r.Ok? <==>
        && (source || target) && (source ==> |old(inputpids)| == 14) && (target ==> |old(targetpids)| == 14)
        && (source ==> inv(BasisRotation.FlavorToEvolution).Some?)
      ensures r.Err? ==> r.error == ValueError && unchanged(this)
      ensures r.Ok? ==>
        && targetgrid == old(targetgrid) && inputgrid == old(inputgrid)
        && inputpids == (if source then evolPids else old(inputpids))
        && targetpids == (if target then evolPids else old(targetpids))
        && grid.Keys == old(grid).Keys
        && forall q :: q in grid ==> grid[q] == ElemF(old(grid)[q],
             if target then Some(BasisRotation.FlavorToEvolution) else None,
             if source then inv(BasisRotation.FlavorToEvolution) else None,
             |targetpids|, |targetgrid|, |inputpids|, |inputgrid|)
    {
      BasisRotation.RotationShapes();
      var ib := if source then Some(BasisRotation.FlavorToEvolution) else None;
      var tb := if target then Some(BasisRotation.FlavorToEvolution) else None;
      r := FlavorReshape(tb, ib, inv);
      if r.Err? {
        return;
      }
      EvolutionNotIdentity();
      if source {
        inputpids := evolPids;
      }
      if target {
        targetpids := evolPids;
      }
    }
  }

  /**
   * The state after a flavour reshape with output basis tb and inverse
   * input basis ib: grids unchanged, every element rotated, and the pids
   * of a rotated side zeroed.
   */
  ghost predicate FlavorReshaped(e: Eko, g: map<real, Elem>, tp: seq<int>, ip: seq<int>, tg: seq<real>, ig: seq<real>,
                                 tb: Option<Matrix>, ib: Option<Matrix>)
    reads e
  {
    && e.targetgrid == tg && e.inputgrid == ig
    && e.targetpids == (if tb.Some? then ZeroPids(|tp|) else tp)
    && e.inputpids == (if ib.Some? then ZeroPids(|ip|) else ip)
    && e.grid.Keys == g.Keys
    && forall q :: q in e.grid ==> e.grid[q] == ElemF(g[q], tb, ib, |tp|, |tg|, |ip|, |ig|)
  }

  // ---------------------------------------------------------------- lemmas

  /** Interpolating onto both new x grids at once is the output interpolation followed by the input one. */
  lemma RotateXComposed(t: Tensor, r: Matrix, s: Matrix, na: nat, nj: nat, nb: nat, nk: nat, ni: nat, nl: nat)
    requires IsTensor(t, na, nj, nb, nk)
    ensures RotateX(t, Some(r), Some(s), na, nj, nb, nk, ni, nl)
         == RotateX(RotateX(t, Some(r), None, na, nj, nb, nk, ni, nk), None, Some(s), na, ni, nb, nk, ni, nl)
  {
    BothGridsComposed(r, t, s, na, nj, nb, nk, ni, nl);
  }

  /** The interpolation of a grid at its own nodes (the identity) leaves a tensor as it is, on either side. */
  lemma RotateXIdentity(t: Tensor, na: nat, nj: nat, nb: nat, nk: nat)
    requires IsTensor(t, na, nj, nb, nk)
    ensures RotateX(t, Some(Identity(nj)), None, na, nj, nb, nk, nj, nk) == t
    ensures RotateX(t, None, Some(Identity(nk)), na, nj, nb, nk, nj, nk) == t
  {
    TargetGridIdentity(t, na, nj, nb, nk);
    InputGridIdentity(t, na, nj, nb, nk);
  }

  /** Rotating both flavour sides at once is the output rotation followed by the input one. */
  lemma RotateFComposed(t: Tensor, tb: Matrix, ib: Matrix, na: nat, nj: nat, nb: nat, nk: nat)
    requires IsTensor(t, na, nj, nb, nk)
    ensures RotateF(t, Some(tb), Some(ib), na, nj, nb, nk)
         == RotateF(RotateF(t, Some(tb), None, na, nj, nb, nk), None, Some(ib), na, nj, nb, nk)
  {
    BothFlavorsComposed(tb, t, ib, na, nj, nb, nk, na, nb);
  }

  /** The identity basis leaves a tensor as it is, on either flavour side. */
  lemma RotateFIdentity(t: Tensor, na: nat, nj: nat, nb: nat, nk: nat)
    requires IsTensor(t, na, nj, nb, nk)
    ensures RotateF(t, Some(Identity(na)), None, na, nj, nb, nk) == t
    ensures RotateF(t, None, Some(Identity(nb)), na, nj, nb, nk) == t
  {
    TargetFlavorIdentity(t, na, nj, nb, nk);
    InputFlavorIdentity(t, na, nj, nb, nk);
  }

  /** The flavour-to-evolution rotation is far from the identity, so `to_evol` never drops it. */
  lemma EvolutionNotIdentity()
    ensures IsMatrix(BasisRotation.FlavorToEvolution, 14, 14)
    ensures KeptBasis(Some(BasisRotation.FlavorToEvolution), 14) == Some(BasisRotation.FlavorToEvolution)
  {
    BasisRotation.RotationShapes();
    var e := Identity(14);
    assert BasisRotation.FlavorToEvolution[1][2] == 1.0 && e[1][2] == 0.0;
    assert !IsClose(BasisRotation.FlavorToEvolution[1][2], e[1][2], Rtol, Atol);
  }
}
