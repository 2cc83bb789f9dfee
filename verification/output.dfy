/**
 * The output dictionary of an evolution: the interpolation setup, the
 * reference scale and, for every final scale, the operators and their
 * errors by name. Operators are rebuilt from it as physical operators, two
 * outputs are chained by multiplying their operators, and it serialises
 * back to raw form.
 */
module OutputDict {
  import opened Common
  import opened LinAlg
  import opened EvolutionOperator

  /** The operators and errors stored for one scale; `names` is the key order of the operators. */
  datatype RawOps = RawOps(names: seq<string>, operators: map<string, Matrix>, errors: map<string, Matrix>)

  /** An output: the interpolation setup, the reference scale and the raw operators by final scale. */
  datatype Output = Output(
    xgrid: seq<real>, polynomialDegree: int, isLogInterpolation: bool, q2Ref: real, grid: map<real, RawOps>)

  /** What `concat` may be handed: an output or anything else. */
  datatype Operand = AnOutput(o: Output) | NotAnOutput

  /** The raw operators are a dictionary: every name once, with an operator, an error and square matrices. */
  ghost predicate RawWell(r: RawOps)
  {
    && (forall i, j :: 0 <= i < j < |r.names| ==> r.names[i] != r.names[j])
    && (forall k :: k in r.operators <==> k in r.names)
    && (forall k :: k in r.errors <==> k in r.names)
    && (forall k :: k in r.operators ==> Square(Member(r.operators[k], r.errors[k], k)))
  }

  /** Every scale of the output holds well-formed raw operators. */
  ghost predicate WellFormed(o: Output)
  {
    forall q :: q in o.grid ==> RawWell(o.grid[q])
  }

  /**
   * `get_op`: a scale that is not in the grid is a KeyError, and so is a
   * name without an operator or an error; otherwise one member per name,
   * with that name's operator and error.
   */
  function GetOp(o: Output, q2: real): (r: Result<PhysicalOperator>)
    ensures q2 !in o.grid ==> r == Err(KeyError)
    ensures r.Err? ==> r.error == KeyError
    ensures r.Ok? <==>
      q2 in o.grid && forall k :: k in o.grid[q2].names ==> k in o.grid[q2].operators && k in o.grid[q2].errors
    ensures r.Ok? ==> r.value.q2Final == q2 && r.value.keys == o.grid[q2].names
  {
    if q2 !in o.grid then Err(KeyError)
    else
      var ops := o.grid[q2];
      if exists k :: k in ops.names && (k !in ops.operators || k !in ops.errors) then Err(KeyError)
      else Ok(PhysicalOperator(ops.names, map k | k in ops.names :: Member(ops.operators[k], ops.errors[k], k), q2))
  }

  /** `get_raw_operators`: the operators and the errors of the members, by name. */
  function RawOf(p: PhysicalOperator): (r: RawOps)
    ensures r.names == p.keys && r.operators.Keys == r.errors.Keys == p.members.Keys
  {
    RawOps(p.keys, map k | k in p.members :: p.members[k].value, map k | k in p.members :: p.members[k].error)
  }

  /** `get_raw`: the setup and reference scale as they are, and every scale's operators rebuilt and serialised. */
  function GetRaw(o: Output): (r: Result<Output>)
    ensures r.Err? ==> r.error == KeyError
    ensures r.Ok? <==> forall q :: q in o.grid ==> GetOp(o, q).Ok?
    ensures r.Ok? ==>
      && r.value.xgrid == o.xgrid && r.value.polynomialDegree == o.polynomialDegree
      && r.value.isLogInterpolation == o.isLogInterpolation && r.value.q2Ref == o.q2Ref
      && r.value.grid.Keys == o.grid.Keys
  {
    if exists q :: q in o.grid && GetOp(o, q).Err? then Err(KeyError)
    else Ok(o.(grid := map q | q in o.grid :: RawOf(GetOp(o, q).value)))
  }

  /** The raw operators at one scale of a chained output: those of a product of x by y. */
  ghost predicate ProductAt(raw: RawOps, x: Result<PhysicalOperator>, y: Result<PhysicalOperator>)
  {
    && x.Ok? && y.Ok? && WellKeyed(x.value) && WellKeyed(y.value)
    && exists p :: raw == RawOf(p) && WellKeyed(p) && p.q2Final == x.value.q2Final && exists ins :: JoinedFrom(p, x.value, y.value, ins)
  }

  /** Two rebuilt operators that exist and whose product cannot fail. */
  ghost predicate Joinable(x: Result<PhysicalOperator>, y: Result<PhysicalOperator>)
  {
    x.Ok? && y.Ok? && Multipliable(x.value, y.value)
  }

  /**
   * An output chains into another when the other holds its reference scale
   * and the operator of every scale of the first can be multiplied by the
   * other's operator there.
   */
  ghost predicate ChainsInto(o: Output, that: Output)
  {
    o.q2Ref in that.grid && forall q :: q in o.grid ==> Joinable(GetOp(o, q), GetOp(that, o.q2Ref))
  }

  /**
   * `concat`: only another output with the same polynomial degree, the same
   * kind of interpolation and the same grid, whose scales include this
   * output's reference scale, can be chained (otherwise a ValueError); the
   * result starts at the other's reference scale and at every scale of this
   * output holds the product of this output's operator there with the
   * other's operator at the joining scale.
   */
  method Concat(out: Output, other: Operand) returns (r: Result<Output>)
    requires WellFormed(out) && (other.AnOutput? ==> WellFormed(other.o))
    ensures other.NotAnOutput? ==> r == Err(ValueError)
    ensures (other.AnOutput? &&
      (out.polynomialDegree != other.o.polynomialDegree || out.isLogInterpolation != other.o.isLogInterpolation
        || out.xgrid != other.o.xgrid || out.q2Ref !in other.o.grid)) ==> r == Err(ValueError)
    ensures r.Ok? ==>
      && other.AnOutput?
      && r.value.q2Ref == other.o.q2Ref && r.value.xgrid == out.xgrid
      && r.value.polynomialDegree == out.polynomialDegree && r.value.isLogInterpolation == out.isLogInterpolation
      && r.value.grid.Keys == out.grid.Keys
      && forall q :: q in out.grid ==> ProductAt(r.value.grid[q], GetOp(out, q), GetOp(other.o, out.q2Ref))
    ensures (other.AnOutput? && out.polynomialDegree == other.o.polynomialDegree
      && out.isLogInterpolation == other.o.isLogInterpolation && out.xgrid == other.o.xgrid
      && ChainsInto(out, other.o)) ==> r.Ok?
  {
    if other.NotAnOutput? {
      return Err(ValueError);
    }
    var that := other.o;
    if out.polynomialDegree != that.polynomialDegree || out.isLogInterpolation != that.isLogInterpolation {
      return Err(ValueError);
    }
    if out.xgrid != that.xgrid {
      return Err(ValueError);
    }
    var midScale := out.q2Ref;
    if midScale !in that.grid {
      return Err(ValueError);
    }
    var grid := ProductGrid(out, that);
    if grid.Err? {
      return Err(grid.error);
    }
    r := Ok(out.(q2Ref := that.q2Ref, grid := grid.value));
  }

  /**
   * The loop of `concat`: at every scale of this output, the product of its
   * operator there with the other's operator at this output's reference scale.
   */
  method ProductGrid(out: Output, that: Output) returns (r: Result<map<real, RawOps>>)
    requires WellFormed(out) && WellFormed(that) && out.q2Ref in that.grid
    ensures r.Ok? ==> r.value.Keys == out.grid.Keys
    ensures r.Ok? ==> forall q :: q in out.grid ==> ProductAt(r.value[q], GetOp(out, q), GetOp(that, out.q2Ref))
    ensures ChainsInto(out, that) ==> r.Ok?
  {
    var midScale := out.q2Ref;
    var grid := out.grid;
    var todo := out.grid.Keys;
    while todo != {}
      invariant todo <= out.grid.Keys
      invariant grid.Keys == out.grid.Keys
      invariant forall q :: q in out.grid && q !in todo ==> ProductAt(grid[q], GetOp(out, q), GetOp(that, midScale))
      decreases todo
    {
      Pick(todo);
      var q :| q in todo;
      var raw := ProductScale(out, q, that, midScale);
      if raw.Err? {
        return Err(raw.error);
      }
      grid := grid[q := raw.value];
      todo := todo - {q};
    }
    r := Ok(grid);
  }

  /**
   * One scale of `concat`: the operator of `out` at q times the operator of
   * `that` at the joining scale, serialised; it fails only where the two
   * cannot be multiplied.
   */
  method ProductScale(out: Output, q: real, that: Output, midScale: real) returns (raw: Result<RawOps>)
    requires WellFormed(out) && q in out.grid && midScale in that.grid && RawWell(that.grid[midScale])
    ensures raw.Ok? ==> ProductAt(raw.value, GetOp(out, q), GetOp(that, midScale))
    ensures Joinable(GetOp(out, q), GetOp(that, midScale)) ==> raw.Ok?
  {
    GetOpWellKeyed(that, midScale);
    GetOpWellKeyed(out, q);
    var prod := PhysMul(GetOp(out, q).value, Physical(GetOp(that, midScale).value));
    if prod.Err? {
      return Err(prod.error);
    }
    raw := Ok(RawOf(prod.value));
  }

  // ---------------------------------------------------------------- lemmas

  /** A well-formed scale rebuilds into a well-keyed physical operator. */
  lemma GetOpWellKeyed(o: Output, q2: real)
    requires q2 in o.grid && RawWell(o.grid[q2])
    ensures GetOp(o, q2).Ok? && WellKeyed(GetOp(o, q2).value)
  {
    var ops := o.grid[q2];
    assert forall k :: k in ops.names ==> k in ops.operators && k in ops.errors;
    var p := GetOp(o, q2).value;
    forall k | k in p.members ensures Square(p.members[k]) {
      assert k in ops.operators;
    }
  }

  /** Serialising a well-keyed operator gives well-formed raw operators. */
  lemma RawOfWell(p: PhysicalOperator)
    ensures WellKeyed(p) ==> RawWell(RawOf(p))
  {
  }

  /** Rebuilding a well-formed scale and serialising it again gives back the stored operators. */
  lemma GetOpRoundTrip(o: Output, q2: real)
    requires q2 in o.grid && RawWell(o.grid[q2])
    ensures GetOp(o, q2).Ok? && RawOf(GetOp(o, q2).value) == o.grid[q2]
  {
    var ops := o.grid[q2];
    assert forall k :: k in ops.names ==> k in ops.operators && k in ops.errors;
    var raw := RawOf(GetOp(o, q2).value);
    assert raw.operators == ops.operators;
    assert raw.errors == ops.errors;
  }

  /** Serialising a well-formed output gives back the output itself. */
  lemma GetRawIdentity(o: Output)
    requires WellFormed(o)
    ensures GetRaw(o) == Ok(o)
  {
    forall q | q in o.grid ensures GetOp(o, q).Ok? && RawOf(GetOp(o, q).value) == o.grid[q] {
      GetOpRoundTrip(o, q);
    }
    assert (map q | q in o.grid :: RawOf(GetOp(o, q).value)) == o.grid;
  }
}
