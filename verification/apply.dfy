/**
 * Applying an evolution operator to a parton distribution: the PDF is
 * sampled on the operator's input grid, every operator (and its error) is
 * contracted with it, the results are keyed by the output pids, optionally
 * rotated into the evolution basis, and optionally interpolated onto a
 * requested x grid.
 */
module Apply {
  import opened Common
  import opened LinAlg
  import opened Tensors
  import Manipulate
  import BasisRotation

  /** A PDF set member: which pids it provides, and x f(x, Q2) for a pid. */
  datatype Pdf = Pdf(hasFlavor: int -> bool, xfxQ2: (int, real, real) -> real)

  /** What `apply_pdf_allmembers` may be handed: a list of members or anything else. */
  datatype Members = AList(members: seq<Pdf>) | NotAList

  /** The part of an output dictionary the application reads. */
  datatype OutputData = OutputData(
    targetpids: seq<int>, targetgrid: seq<real>, inputpids: seq<int>, inputgrid: seq<real>,
    q2Ref: real, q2grid: map<real, Manipulate.Elem>)

  /** The key of an evolved distribution: a pid, or an evolution basis label after the rotation. */
  datatype Label = Pid(pid: int) | Evol(name: string)

  /** The evolved distributions and their errors at one final scale. */
  datatype Evolved = Evolved(pdfs: map<Label, seq<real>>, errors: map<Label, seq<real>>)

  /** Every element fits the pids and grids, and the input grid has no zero (the PDF is divided by x). */
  predicate WellShaped(o: OutputData)
  {
    && (forall q :: q in o.q2grid ==>
          Manipulate.Fits(o.q2grid[q], |o.targetpids|, |o.targetgrid|, |o.inputpids|, |o.inputgrid|))
    && (forall k :: 0 <= k < |o.inputgrid| ==> o.inputgrid[k] != 0.0)
  }

  // ---------------------------------------------------------------- dictionaries

  /**
   * `dict(zip(keys, rows))`: pairs up to the shorter of the two, a key met
   * again overwriting the earlier value.
   */
  function Zip<K>(keys: seq<K>, rows: seq<seq<real>>): (z: map<K, seq<real>>)
    ensures z.Keys == Elems(keys[..Min(|keys|, |rows|)])
    decreases |keys|
  {
    var n := Min(|keys|, |rows|);
    if n == 0 then map[]
    else
      var rest := Zip(keys[..n - 1], rows[..n - 1]);
      assert keys[..n - 1] == keys[..n][..n - 1];
      ElemsSnoc(keys[..n - 1], keys[n - 1]);
      assert keys[..n] == keys[..n - 1] + [keys[n - 1]];
      rest[keys[n - 1] := rows[n - 1]]
  }

  function Min(a: nat, b: nat): nat { if a < b then a else b }

  /** The pids as dictionary keys. */
  function PidLabels(pids: seq<int>): (l: seq<Label>)
    ensures |l| == |pids| && forall i :: 0 <= i < |pids| ==> l[i] == Pid(pids[i])
  {
    seq(|pids|, i requires 0 <= i < |pids| => Pid(pids[i]))
  }

  /** The evolution basis labels as dictionary keys. */
  function EvolLabels(): (l: seq<Label>)
    ensures |l| == 14 && forall i :: 0 <= i < 14 ==> l[i] == Evol(BasisRotation.EvolBasis[i])
  {
    BasisRotation.FlavorBasisShape();
    seq(14, i requires 0 <= i < 14 => Evol(BasisRotation.EvolBasis[i]))
  }

  /** The 14 x 14 rotation from the flavour basis to the evolution basis. */
  function FlavorToEvolution(): (m: Matrix)
    ensures IsMatrix(m, 14, 14) && m == BasisRotation.FlavorToEvolution
  {
    BasisRotation.RotationShapes();
    BasisRotation.FlavorToEvolution
  }

  // ---------------------------------------------------------------- the input PDF

  /** The PDF on the input grid: a row per input pid, x f(x)/x where the PDF has the pid, zero elsewhere. */
  function InputMatrix(o: OutputData, pdf: Pdf): (m: Matrix)
    requires forall k :: 0 <= k < |o.inputgrid| ==> o.inputgrid[k] != 0.0
    ensures IsMatrix(m, |o.inputpids|, |o.inputgrid|)
  {
    seq(|o.inputpids|, j requires 0 <= j < |o.inputpids| => InputRow(o, pdf, o.inputpids[j]))
  }

  /** The row of one pid. */
  function InputRow(o: OutputData, pdf: Pdf, pid: int): (row: seq<real>)
    requires forall k :: 0 <= k < |o.inputgrid| ==> o.inputgrid[k] != 0.0
    ensures |row| == |o.inputgrid|
  {
    if pdf.hasFlavor(pid) then
      seq(|o.inputgrid|, k requires 0 <= k < |o.inputgrid| => pdf.xfxQ2(pid, o.inputgrid[k], o.q2Ref) / o.inputgrid[k])
    else ZeroVec(|o.inputgrid|)
  }

  /**
   * Fills the input PDFs row by row, starting from zeros: a row is the
   * PDF divided by x on the input grid for a pid the PDF has, and stays
   * zero otherwise.
   */
  method InputPdfs(o: OutputData, pdf: Pdf) returns (pdfs: Matrix)
    requires forall k :: 0 <= k < |o.inputgrid| ==> o.inputgrid[k] != 0.0
    ensures pdfs == InputMatrix(o, pdf)
    ensures forall j, k :: 0 <= j < |o.inputpids| && 0 <= k < |o.inputgrid| ==>
      pdfs[j][k] == if pdf.hasFlavor(o.inputpids[j]) then pdf.xfxQ2(o.inputpids[j], o.inputgrid[k], o.q2Ref) / o.inputgrid[k] else 0.0
  {
    var n, m := |o.inputpids|, |o.inputgrid|;
    pdfs := seq(n, _ => ZeroVec(m));
    for j := 0 to n
      invariant |pdfs| == n
      invariant forall i :: 0 <= i < j ==> pdfs[i] == InputRow(o, pdf, o.inputpids[i])
      invariant forall i :: j <= i < n ==> pdfs[i] == ZeroVec(m)
    {
      if pdf.hasFlavor(o.inputpids[j]) {
        pdfs := pdfs[j := InputRow(o, pdf, o.inputpids[j])];
      }
    }
  }

  // ---------------------------------------------------------------- the contraction

  /** einsum("ajbk,bk"): out[a][j] is the sum over b and k of t[a][j][b][k] p[b][k]. */
  function Contract(t: Tensor, p: Matrix, na: nat, nj: nat, nb: nat, nk: nat): (m: Matrix)
    ensures IsMatrix(m, na, nj)
  {
    seq(na, a => seq(nj, j => ContractAt(t, p, nb, nk, a, j)))
  }

  /** One entry of `Contract`. */
  function ContractAt(t: Tensor, p: Matrix, nb: nat, nk: nat, a: int, j: int): real
  {
    Sum(nb, (b: nat) => ContractRow(t, p, nk, a, j, b))
  }

  /** The part of one entry of `Contract` that comes from input flavour b. */
  function ContractRow(t: Tensor, p: Matrix, nk: nat, a: int, j: int, b: int): real
  {
    Sum(nk, (k: nat) => Get(t, a, j, b, k) * Entry(p, b, k))
  }

  /** The distributions and errors at one scale, keyed by the output pids. */
  function EvolvedAt(e: Manipulate.Elem, p: Matrix, targetpids: seq<int>, nj: nat, nb: nat, nk: nat): Evolved
  {
    Evolved(Zip(PidLabels(targetpids), Contract(e.operators, p, |targetpids|, nj, nb, nk)),
            Zip(PidLabels(targetpids), Contract(e.errors, p, |targetpids|, nj, nb, nk)))
  }

  /** Every scale of the output with its operator applied to the input PDFs. */
  function Evolve(o: OutputData, p: Matrix): (g: map<real, Evolved>)
    ensures g.Keys == o.q2grid.Keys
  {
    map q | q in o.q2grid :: EvolvedAt(o.q2grid[q], p, o.targetpids, |o.targetgrid|, |o.inputpids|, |o.inputgrid|)
  }

  /** Applies the operator of every final scale to the input PDFs. */
  method EvolveAll(o: OutputData, p: Matrix) returns (out: map<real, Evolved>)
    ensures out == Evolve(o, p)
  {
    out := map[];
    var todo := o.q2grid.Keys;
    while todo != {}
      invariant todo <= o.q2grid.Keys && out.Keys == o.q2grid.Keys - todo
      invariant forall q :: q in out ==>
        out[q] == EvolvedAt(o.q2grid[q], p, o.targetpids, |o.targetgrid|, |o.inputpids|, |o.inputgrid|)
      decreases todo
    {
      Pick(todo);
      var q :| q in todo;
      out := out[q := EvolvedAt(o.q2grid[q], p, o.targetpids, |o.targetgrid|, |o.inputpids|, |o.inputgrid|)];
      todo := todo - {q};
    }
    assert forall q :: q in out ==> out[q] == Evolve(o, p)[q];
  }

  // ---------------------------------------------------------------- the evolution basis

  /** Every distribution and error at one scale has n points. */
  predicate RowsOf(ev: Evolved, n: nat)
  {
    (forall l :: l in ev.pdfs ==> |ev.pdfs[l]| == n) && (forall l :: l in ev.errors ==> |ev.errors[l]| == n)
  }

  /** Distributions and errors carry the same labels. */
  predicate Paired(ev: Evolved)
  {
    ev.pdfs.Keys == ev.errors.Keys
  }

  /** The flavour basis pids as dictionary keys. */
  function FlavorLabels(): set<Label>
  {
    set p | p in BasisRotation.FlavorBasisPids :: Pid(p)
  }

  /** The values of the flavour basis pids, stacked in the flavour basis order. */
  function Stack(d: map<Label, seq<real>>): seq<seq<real>>
    requires FlavorLabels() <= d.Keys
  {
    seq(14, i requires 0 <= i < 14 => d[Pid(BasisRotation.FlavorBasisPids[i])])
  }

  /** Every pid of the flavour basis has a distribution and an error. */
  predicate HasFlavorBasis(ev: Evolved)
  {
    FlavorLabels() <= ev.pdfs.Keys && FlavorLabels() <= ev.errors.Keys
  }

  /**
   * One scale in the evolution basis: a KeyError if a flavour basis pid is
   * missing, otherwise the rotation times the stacked values, keyed by the
   * evolution basis labels.
   */
  function RotatedSet(ev: Evolved, rot: Matrix, nj: nat): (r: Result<Evolved>)
    requires RowsOf(ev, nj) && IsMatrix(rot, |rot|, 14)
    ensures r.Err? <==> !HasFlavorBasis(ev)
    ensures r.Err? ==> r.error == KeyError
  {
    if !HasFlavorBasis(ev) then Err(KeyError) else Ok(EvolBasisSet(ev, rot, nj))
  }

  /** The rotation times the stacked flavour basis values, keyed by the evolution basis labels. */
  function EvolBasisSet(ev: Evolved, rot: Matrix, nj: nat): Evolved
    requires RowsOf(ev, nj) && IsMatrix(rot, |rot|, 14) && HasFlavorBasis(ev)
  {
    BasisRotation.FlavorBasisShape();
    var sp, se := Stack(ev.pdfs), Stack(ev.errors);
    assert IsMatrix(sp, 14, nj) && IsMatrix(se, 14, nj);
    Evolved(Zip(EvolLabels(), MatMul(rot, sp, |rot|, 14, nj)), Zip(EvolLabels(), MatMul(rot, se, |rot|, 14, nj)))
  }

  /** Every scale in the evolution basis, or the KeyError of a scale without a flavour basis pid. */
  function Rotate(g: map<real, Evolved>, rot: Matrix, nj: nat): (r: Result<map<real, Evolved>>)
    requires (forall q :: q in g ==> RowsOf(g[q], nj)) && IsMatrix(rot, |rot|, 14)
    ensures r.Err? <==> exists q :: q in g && !HasFlavorBasis(g[q])
    ensures r.Ok? ==> r.value.Keys == g.Keys
  {
    if exists q :: q in g && !HasFlavorBasis(g[q]) then Err(KeyError) else Ok(RotatedMap(g, rot, nj))
  }

  /** Every scale in the evolution basis, when every scale has the flavour basis pids. */
  function RotatedMap(g: map<real, Evolved>, rot: Matrix, nj: nat): (m: map<real, Evolved>)
    requires (forall q :: q in g ==> RowsOf(g[q], nj) && HasFlavorBasis(g[q])) && IsMatrix(rot, |rot|, 14)
    ensures m.Keys == g.Keys && forall q :: q in g ==> m[q] == EvolBasisSet(g[q], rot, nj)
  {
    map q | q in g :: EvolBasisSet(g[q], rot, nj)
  }

  /** Rotates every scale into the evolution basis; the first scale without a flavour basis pid is a KeyError. */
  method RotateAll(g: map<real, Evolved>, rot: Matrix, nj: nat) returns (r: Result<map<real, Evolved>>)
    requires (forall q :: q in g ==> RowsOf(g[q], nj)) && IsMatrix(rot, |rot|, 14)
    ensures r == Rotate(g, rot, nj)
  {
    var out := map[];
    var todo := g.Keys;
    while todo != {}
      invariant todo <= g.Keys && out.Keys == g.Keys - todo
      invariant forall q :: q in out ==> HasFlavorBasis(g[q]) && out[q] == EvolBasisSet(g[q], rot, nj)
      decreases todo
    {
      Pick(todo);
      var q :| q in todo;
      var s := RotatedSet(g[q], rot, nj);
      if s.Err? {
        RotateFails(g, rot, nj, q);
        return Err(KeyError);
      }
      out := out[q := s.value];
      todo := todo - {q};
    }
    RotateSucceeds(g, rot, nj, out);
    return Ok(out);
  }

  // ---------------------------------------------------------------- the target grid

  /** Every distribution and every error at one scale interpolated by rot. */
  function InterpolatedSet(ev: Evolved, rot: Matrix): (r: Evolved)
    ensures r.pdfs.Keys == ev.pdfs.Keys && r.errors.Keys == ev.errors.Keys
    ensures forall l :: l in r.pdfs ==> |r.pdfs[l]| == |rot|
  {
    Evolved(map l | l in ev.pdfs :: MatVec(rot, ev.pdfs[l]), map l | l in ev.errors :: MatVec(rot, ev.errors[l]))
  }

  /** Interpolates one scale label by label; the errors are rewritten under the distributions' labels. */
  method InterpolateSet(ev: Evolved, rot: Matrix) returns (res: Evolved)
    requires Paired(ev)
    ensures res == InterpolatedSet(ev, rot)
  {
    var pdfs, errors := ev.pdfs, ev.errors;
    var todo := ev.pdfs.Keys;
    while todo != {}
      invariant todo <= ev.pdfs.Keys && pdfs.Keys == ev.pdfs.Keys && errors.Keys == ev.errors.Keys
      invariant forall l :: l in ev.pdfs ==> pdfs[l] == if l in todo then ev.pdfs[l] else MatVec(rot, ev.pdfs[l])
      invariant forall l :: l in ev.errors ==> errors[l] == if l in todo then ev.errors[l] else MatVec(rot, ev.errors[l])
      decreases todo
    {
      var l :| l in todo;
      pdfs := pdfs[l := MatVec(rot, pdfs[l])];
      errors := errors[l := MatVec(rot, errors[l])];
      todo := todo - {l};
    }
    res := Evolved(pdfs, errors);
  }

  /** Every scale interpolated by rot. */
  function Interpolate(g: map<real, Evolved>, rot: Matrix): (r: map<real, Evolved>)
    ensures r.Keys == g.Keys
  {
    map q | q in g :: InterpolatedSet(g[q], rot)
  }

  /** Interpolates every scale. */
  method InterpolateAll(g: map<real, Evolved>, rot: Matrix) returns (out: map<real, Evolved>)
    requires forall q :: q in g ==> Paired(g[q])
    ensures out == Interpolate(g, rot)
  {
    out := g;
    var todo := g.Keys;
    while todo != {}
      invariant todo <= g.Keys && out.Keys == g.Keys
      invariant forall q :: q in g ==> out[q] == if q in todo then g[q] else InterpolatedSet(g[q], rot)
      decreases todo
    {
      Pick(todo);
      var q :| q in todo;
      var s := InterpolateSet(out[q], rot);
      out := out[q := s];
      todo := todo - {q};
    }
    assert forall q :: q in out ==> out[q] == Interpolate(g, rot)[q];
  }

  // ---------------------------------------------------------------- the application

  /** The result of `apply_pdf_flavor`, as a function of its inputs. */
  function ApplySpec(o: OutputData, pdf: Pdf, targetgrid: Option<seq<real>>, rotation: Option<Matrix>,
                     interp: seq<real> -> Matrix): (r: Result<map<real, Evolved>>)
    requires WellShaped(o) && (rotation.Some? ==> IsMatrix(rotation.value, |rotation.value|, 14))
  {
    var g := Evolve(o, InputMatrix(o, pdf));
    EvolveShape(o, InputMatrix(o, pdf));
    var rotated := if rotation.Some? then Rotate(g, rotation.value, |o.targetgrid|) else Ok(g);
    if rotated.Err? || targetgrid.None? then rotated
    else Ok(Interpolate(rotated.value, interp(targetgrid.value)))
  }

  /**
   * `apply_pdf_flavor`: samples the PDF, applies every operator, then
   * rotates into the evolution basis when a rotation is given and
   * interpolates onto the target grid when one is given.
   */
  method ApplyPdfFlavor(o: OutputData, pdf: Pdf, targetgrid: Option<seq<real>>, rotation: Option<Matrix>,
                        interp: seq<real> -> Matrix) returns (r: Result<map<real, Evolved>>)
    requires WellShaped(o) && (rotation.Some? ==> IsMatrix(rotation.value, |rotation.value|, 14))
    ensures r == ApplySpec(o, pdf, targetgrid, rotation, interp)
  {
    var p := InputPdfs(o, pdf);
    var g := EvolveAll(o, p);
    EvolveShape(o, p);
    if rotation.Some? {
      r := RotateAll(g, rotation.value, |o.targetgrid|);
      if r.Err? {
        return;
      }
      RotateShape(g, rotation.value, |o.targetgrid|);
      g := r.value;
    }
    if targetgrid.Some? {
      g := InterpolateAll(g, interp(targetgrid.value));
    }
    r := Ok(g);
  }

  /** `apply_pdf`: the flavour-to-evolution rotation is passed exactly when the evolution basis is asked for. */
  method ApplyPdf(o: OutputData, pdf: Pdf, targetgrid: Option<seq<real>>, rotateToEvolutionBasis: bool,
                  interp: seq<real> -> Matrix) returns (r: Result<map<real, Evolved>>)
    requires WellShaped(o)
    ensures r == ApplySpec(o, pdf, targetgrid, if rotateToEvolutionBasis then Some(FlavorToEvolution()) else None, interp)
  {
    if rotateToEvolutionBasis {
      r := ApplyPdfFlavor(o, pdf, targetgrid, Some(FlavorToEvolution()), interp);
    } else {
      r := ApplyPdfFlavor(o, pdf, targetgrid, None, interp);
    }
  }

  /**
   * `apply_pdf_allmembers`: anything but a list is a TypeError; otherwise
   * one result per member, in order, the first failing member's error
   * ending the run.
   */
  method ApplyPdfAllMembers(o: OutputData, members: Members, targetgrid: Option<seq<real>>, rotation: Option<Matrix>,
                            interp: seq<real> -> Matrix) returns (r: Result<seq<map<real, Evolved>>>)
    requires WellShaped(o) && (rotation.Some? ==> IsMatrix(rotation.value, |rotation.value|, 14))
    ensures members.NotAList? ==> r == Err(TypeError)
    ensures members.AList? ==> (r.Ok? <==> forall i :: 0 <= i < |members.members| ==> ApplySpec(o, members.members[i], targetgrid, rotation, interp).Ok?)
    ensures r.Ok? ==> (members.AList? && |r.value| == |members.members|
      && forall i :: 0 <= i < |r.value| ==> Ok(r.value[i]) == ApplySpec(o, members.members[i], targetgrid, rotation, interp))
  {
    if members.NotAList? {
      return Err(TypeError);
    }
    var out := [];
    for i := 0 to |members.members|
      invariant |out| == i
      invariant forall m :: 0 <= m < i ==> Ok(out[m]) == ApplySpec(o, members.members[m], targetgrid, rotation, interp)
    {
      var one := ApplyPdfFlavor(o, members.members[i], targetgrid, rotation, interp);
      if one.Err? {
        return Err(one.error);
      }
      out := out + [one.value];
    }
    r := Ok(out);
  }

  // ---------------------------------------------------------------- lemmas

  /** `u` holds, at output flavour c and output point j, the operator rotated by m. */
  ghost predicate RotatedAt(u: Tensor, m: Matrix, t: Tensor, na: nat, nb: nat, nk: nat, c: int, j: int)
  {
    forall b, k :: 0 <= b < nb && 0 <= k < nk ==> Get(u, c, j, b, k) == TargetFlavorAt(m, t, na, c, j, b, k)
  }

  /** One cell of the contraction with an operator rotated on its output flavour index. */
  lemma RotatedCell(u: Tensor, m: Matrix, t: Tensor, p: Matrix, na: nat, c: int, j: int, b: int, k: int)
    requires Get(u, c, j, b, k) == TargetFlavorAt(m, t, na, c, j, b, k)
    ensures Get(u, c, j, b, k) * Entry(p, b, k) == Sum(na, (a: nat) => Entry(m, c, a) * (Get(t, a, j, b, k) * Entry(p, b, k)))
  {
    SumScaleRight(na, a => Entry(m, c, a) * Get(t, a, j, b, k), Entry(p, b, k),
                  (a: nat) => Entry(m, c, a) * (Get(t, a, j, b, k) * Entry(p, b, k)));
  }

  /** Every cell of one row of the contraction with a rotated operator, as a weighted sum. */
  lemma RotatedCells(u: Tensor, m: Matrix, t: Tensor, p: Matrix, na: nat, nb: nat, nk: nat, c: int, j: int, b: nat,
                     w: nat -> real, f: (nat, nat) -> real, h: nat -> real)
    requires RotatedAt(u, m, t, na, nb, nk, c, j) && b < nb
    requires forall a :: 0 <= a < na ==> w(a) == Entry(m, c, a)
    requires forall a, k :: 0 <= a < na && 0 <= k < nk ==> f(a, k) == Get(t, a, j, b, k) * Entry(p, b, k)
    requires forall k :: 0 <= k < nk ==> h(k) == Get(u, c, j, b, k) * Entry(p, b, k)
    ensures forall k :: 0 <= k < nk ==> h(k) == Sum(na, (a: nat) => w(a) * f(a, k))
  {
    forall k: nat | k < nk ensures Get(u, c, j, b, k) * Entry(p, b, k) == Sum(na, (a: nat) => w(a) * f(a, k)) {
      RotatedCell(u, m, t, p, na, c, j, b, k);
      SumExt(na, (a: nat) => Entry(m, c, a) * (Get(t, a, j, b, k) * Entry(p, b, k)), (a: nat) => w(a) * f(a, k));
    }
  }

  /** Each input flavour's part of the original contraction, as a sum of f. */
  lemma RowsAsSums(t: Tensor, p: Matrix, na: nat, nk: nat, j: int, b: int, w: nat -> real, f: (nat, nat) -> real,
                   g: nat -> real)
    requires forall a, k :: 0 <= a < na && 0 <= k < nk ==> f(a, k) == Get(t, a, j, b, k) * Entry(p, b, k)
    requires forall a :: 0 <= a < na ==> g(a) == w(a) * ContractRow(t, p, nk, a, j, b)
    ensures forall a :: 0 <= a < na ==> g(a) == w(a) * Sum(nk, (k: nat) => f(a, k))
  {
    forall a: nat | a < na ensures ContractRow(t, p, nk, a, j, b) == Sum(nk, (k: nat) => f(a, k)) {
      SumExt(nk, (k: nat) => Get(t, a, j, b, k) * Entry(p, b, k), (k: nat) => f(a, k));
    }
  }

  /** The part from one input flavour, for a rotated operator, is the rotation of the parts. */
  lemma RotatedRow(u: Tensor, m: Matrix, t: Tensor, p: Matrix, na: nat, nb: nat, nk: nat, c: int, j: int, b: nat)
    requires RotatedAt(u, m, t, na, nb, nk, c, j) && b < nb
    ensures ContractRow(u, p, nk, c, j, b) == Sum(na, (a: nat) => Entry(m, c, a) * ContractRow(t, p, nk, a, j, b))
  {
    var w := (a: nat) => Entry(m, c, a);
    var f := (a: nat, k: nat) => Get(t, a, j, b, k) * Entry(p, b, k);
    var h := (k: nat) => Get(u, c, j, b, k) * Entry(p, b, k);
    var g := (a: nat) => Entry(m, c, a) * ContractRow(t, p, nk, a, j, b);
    RotatedRowSums(u, m, t, p, na, nb, nk, c, j, b, w, f, h, g);
  }

  /** `RotatedRow` over named weights, cells and rows: summing the cells both ways gives the same. */
  lemma RotatedRowSums(u: Tensor, m: Matrix, t: Tensor, p: Matrix, na: nat, nb: nat, nk: nat, c: int, j: int, b: nat,
                       w: nat -> real, f: (nat, nat) -> real, h: nat -> real, g: nat -> real)
    requires RotatedAt(u, m, t, na, nb, nk, c, j) && b < nb
    requires forall a :: 0 <= a < na ==> w(a) == Entry(m, c, a)
    requires forall a, k :: 0 <= a < na && 0 <= k < nk ==> f(a, k) == Get(t, a, j, b, k) * Entry(p, b, k)
    requires forall k :: 0 <= k < nk ==> h(k) == Get(u, c, j, b, k) * Entry(p, b, k)
    requires forall a :: 0 <= a < na ==> g(a) == w(a) * ContractRow(t, p, nk, a, j, b)
    ensures Sum(nk, h) == Sum(na, g)
  {
    RotatedCells(u, m, t, p, na, nb, nk, c, j, b, w, f, h);
    RowsAsSums(t, p, na, nk, j, b, w, f, g);
    WeightedSwap(nk, na, w, f, h, g);
  }

  /**
   * Applying an operator rotated on its output flavour index gives the
   * rotation of the applied distributions: sum_a m[c][a] pdf_final[a][j].
   */
  lemma ContractRotatedAt(u: Tensor, m: Matrix, t: Tensor, p: Matrix, na: nat, nb: nat, nk: nat, c: int, j: int)
    requires RotatedAt(u, m, t, na, nb, nk, c, j)
    ensures ContractAt(u, p, nb, nk, c, j) == Sum(na, (a: nat) => Entry(m, c, a) * ContractAt(t, p, nb, nk, a, j))
  {
    var w := (a: nat) => Entry(m, c, a);
    var f := (a: nat, b: nat) => ContractRow(t, p, nk, a, j, b);
    forall b: nat | b < nb ensures ContractRow(u, p, nk, c, j, b) == Sum(na, (a: nat) => w(a) * f(a, b)) {
      RotatedRow(u, m, t, p, na, nb, nk, c, j, b);
      SumExt(na, (a: nat) => Entry(m, c, a) * ContractRow(t, p, nk, a, j, b), (a: nat) => w(a) * f(a, b));
    }
    forall a: nat | a < na
      ensures Entry(m, c, a) * ContractAt(t, p, nb, nk, a, j) == w(a) * Sum(nb, (b: nat) => f(a, b))
    {
      SumExt(nb, (b: nat) => ContractRow(t, p, nk, a, j, b), (b: nat) => f(a, b));
    }
    WeightedSwap(nb, na, w, f, (b: nat) => ContractRow(u, p, nk, c, j, b),
                 (a: nat) => Entry(m, c, a) * ContractAt(t, p, nb, nk, a, j));
  }

  /** `OnTargetFlavor` is rotated at every output flavour and point. */
  lemma OnTargetFlavorRotated(m: Matrix, t: Tensor, na: nat, nj: nat, nb: nat, nk: nat, nc: nat, c: nat, j: nat)
    requires c < nc && j < nj
    ensures RotatedAt(OnTargetFlavor(m, t, na, nj, nb, nk, nc), m, t, na, nb, nk, c, j)
  {
    forall b: nat, k: nat | b < nb && k < nk
      ensures Get(OnTargetFlavor(m, t, na, nj, nb, nk, nc), c, j, b, k) == TargetFlavorAt(m, t, na, c, j, b, k)
    {
      TargetFlavorEntry(m, t, na, nj, nb, nk, nc, c, j, b, k);
    }
  }

  /** One entry of the rotated result, as the matrix product's entry. */
  lemma ContractRotatedEntry(u: Tensor, m: Matrix, t: Tensor, p: Matrix, na: nat, nj: nat, nb: nat, nk: nat, c: int, j: int)
    requires RotatedAt(u, m, t, na, nb, nk, c, j) && 0 <= j < nj
    ensures ContractAt(u, p, nb, nk, c, j) == Sum(na, k => Term(m, Contract(t, p, na, nj, nb, nk), c, j, k))
  {
    var x := Contract(t, p, na, nj, nb, nk);
    ContractRotatedAt(u, m, t, p, na, nb, nk, c, j);
    forall a | 0 <= a < na ensures Entry(m, c, a) * ContractAt(t, p, nb, nk, a, j) == Term(m, x, c, j, a) {
      assert x[a][j] == ContractAt(t, p, nb, nk, a, j);
    }
    SumExt(na, (a: nat) => Entry(m, c, a) * ContractAt(t, p, nb, nk, a, j), k => Term(m, x, c, j, k));
  }

  /**
   * Applying the operator rotated to another output basis equals rotating
   * the applied result: contract(m . ops) == m . contract(ops).
   */
  lemma ContractTargetFlavor(m: Matrix, t: Tensor, p: Matrix, na: nat, nj: nat, nb: nat, nk: nat, nc: nat)
    requires IsMatrix(m, nc, na)
    ensures Contract(OnTargetFlavor(m, t, na, nj, nb, nk, nc), p, nc, nj, nb, nk)
         == MatMul(m, Contract(t, p, na, nj, nb, nk), nc, na, nj)
  {
    var u := OnTargetFlavor(m, t, na, nj, nb, nk, nc);
    var lhs := Contract(u, p, nc, nj, nb, nk);
    var rhs := MatMul(m, Contract(t, p, na, nj, nb, nk), nc, na, nj);
    forall c | 0 <= c < nc ensures lhs[c] == rhs[c] {
      forall j | 0 <= j < nj ensures lhs[c][j] == rhs[c][j] {
        OnTargetFlavorRotated(m, t, na, nj, nb, nk, nc, c, j);
        ContractRotatedEntry(u, m, t, p, na, nj, nb, nk, c, j);
      }
    }
  }

  /** Every distribution and error at one scale has one point per output x, under the same labels. */
  lemma EvolvedShape(e: Manipulate.Elem, p: Matrix, targetpids: seq<int>, nj: nat, nb: nat, nk: nat)
    ensures var ev := EvolvedAt(e, p, targetpids, nj, nb, nk);
      RowsOf(ev, nj) && Paired(ev) && ev.pdfs.Keys == Elems(PidLabels(targetpids))
  {
    var labels := PidLabels(targetpids);
    ZipRows(labels, Contract(e.operators, p, |targetpids|, nj, nb, nk), nj);
    ZipRows(labels, Contract(e.errors, p, |targetpids|, nj, nb, nk), nj);
    assert labels[..|labels|] == labels;
  }

  /** `EvolvedShape` at every scale. */
  lemma EvolveShape(o: OutputData, p: Matrix)
    ensures forall q :: q in Evolve(o, p) ==> RowsOf(Evolve(o, p)[q], |o.targetgrid|) && Paired(Evolve(o, p)[q])
  {
    forall q | q in o.q2grid
      ensures RowsOf(Evolve(o, p)[q], |o.targetgrid|) && Paired(Evolve(o, p)[q])
    {
      EvolvedShape(o.q2grid[q], p, o.targetpids, |o.targetgrid|, |o.inputpids|, |o.inputgrid|);
    }
  }

  /** In the evolution basis every distribution and error still has nj points, under the same labels. */
  lemma EvolBasisShape(ev: Evolved, rot: Matrix, nj: nat)
    requires RowsOf(ev, nj) && IsMatrix(rot, |rot|, 14) && HasFlavorBasis(ev)
    ensures RowsOf(EvolBasisSet(ev, rot, nj), nj) && Paired(EvolBasisSet(ev, rot, nj))
  {
    BasisRotation.FlavorBasisShape();
    var sp, se := Stack(ev.pdfs), Stack(ev.errors);
    assert IsMatrix(sp, 14, nj) && IsMatrix(se, 14, nj);
    ZipRows(EvolLabels(), MatMul(rot, sp, |rot|, 14, nj), nj);
    ZipRows(EvolLabels(), MatMul(rot, se, |rot|, 14, nj), nj);
  }

  /** `EvolBasisShape` at every scale. */
  lemma RotateShape(g: map<real, Evolved>, rot: Matrix, nj: nat)
    requires (forall q :: q in g ==> RowsOf(g[q], nj)) && IsMatrix(rot, |rot|, 14)
    requires Rotate(g, rot, nj).Ok?
    ensures forall q :: q in g ==> Paired(Rotate(g, rot, nj).value[q])
  {
    forall q | q in g ensures Paired(Rotate(g, rot, nj).value[q]) {
      EvolBasisShape(g[q], rot, nj);
    }
  }

  /** One scale without a flavour basis pid makes the whole rotation a KeyError. */
  lemma RotateFails(g: map<real, Evolved>, rot: Matrix, nj: nat, q: real)
    requires (forall q :: q in g ==> RowsOf(g[q], nj)) && IsMatrix(rot, |rot|, 14)
    requires q in g && !HasFlavorBasis(g[q])
    ensures Rotate(g, rot, nj) == Err(KeyError)
  {
  }

  /** The rotation of every scale, collected, is the successful rotation. */
  lemma RotateSucceeds(g: map<real, Evolved>, rot: Matrix, nj: nat, out: map<real, Evolved>)
    requires (forall q :: q in g ==> RowsOf(g[q], nj)) && IsMatrix(rot, |rot|, 14)
    requires out.Keys == g.Keys
    requires forall q :: q in out ==> HasFlavorBasis(g[q]) && out[q] == EvolBasisSet(g[q], rot, nj)
    ensures Rotate(g, rot, nj) == Ok(out)
  {
    assert forall q :: q in g ==> HasFlavorBasis(g[q]);
    RotatedMapIs(g, rot, nj, out);
  }

  /** The collected rotations are `RotatedMap`. */
  lemma RotatedMapIs(g: map<real, Evolved>, rot: Matrix, nj: nat, out: map<real, Evolved>)
    requires (forall q :: q in g ==> RowsOf(g[q], nj) && HasFlavorBasis(g[q])) && IsMatrix(rot, |rot|, 14)
    requires out.Keys == g.Keys && forall q :: q in out ==> out[q] == EvolBasisSet(g[q], rot, nj)
    ensures RotatedMap(g, rot, nj) == out
  {
    var m := RotatedMap(g, rot, nj);
    assert m.Keys == out.Keys;
    forall k | k in m ensures m[k] == out[k] {
      assert m[k] == EvolBasisSet(g[k], rot, nj);
    }
    MapExt(m, out);
  }

  /** The values of `Zip` are among the rows. */
  lemma {:induction false} ZipRows<K>(keys: seq<K>, rows: seq<seq<real>>, n: nat)
    requires forall i :: 0 <= i < |rows| ==> |rows[i]| == n
    ensures forall k :: k in Zip(keys, rows) ==> |Zip(keys, rows)[k]| == n
    decreases |keys|
  {
    var m := Min(|keys|, |rows|);
    if m > 0 {
      ZipRows(keys[..m - 1], rows[..m - 1], n);
    }
  }

  /** With distinct keys, `Zip` pairs every key with the row at the same position. */
  lemma {:induction false} ZipAt<K>(keys: seq<K>, rows: seq<seq<real>>, i: nat)
    requires Distinct(keys) && i < |keys| && i < |rows|
    ensures keys[i] in Zip(keys, rows) && Zip(keys, rows)[keys[i]] == rows[i]
    decreases |keys|
  {
    var m := Min(|keys|, |rows|);
    if i < m - 1 {
      ZipAt(keys[..m - 1], rows[..m - 1], i);
      assert keys[i] != keys[m - 1];
    }
  }
}
