/**
 * The evolution kernel operator container: a dictionary from final scales
 * Q2 to operators (or None once an operator has been dropped from memory),
 * keeping its keys in insertion order, together with the interpolation
 * grid, the reference scale, the configuration, the rotations and the
 * debug switches it was created with.
 */
module EkoStruct {
  import opened Common
  import LinAlg
  import BasisRotation
  import opened Tensors

  /** An operator at one final scale: the strong coupling there, the operator and its optional error. */
  datatype Operator = Operator(alphas: real, operator: Tensor, error: Option<Tensor>)

  /**
   * The keyword arguments of `Operator.from_dict`: the values of the known
   * fields that are present and the names of any other keys.
   */
  datatype OperatorFields = OperatorFields(
    alphas: Option<real>, operator: Option<Tensor>, error: Option<Tensor>, unknown: set<string>)

  /** What may be assigned to a scale: an operator, a field dictionary or anything else. */
  datatype Value = AnOperator(op: Operator) | AFieldDict(fields: OperatorFields) | Other

  /** The configuration an operator was computed with. */
  datatype Configs = Configs(
    evOpMaxOrder: int, evOpIterations: int, polynomialDegree: int, isLogInterpolation: bool,
    backwardInversion: string, nIntegrationCores: int)

  /** The keyword arguments of `Configs.from_dict`. */
  datatype ConfigsFields = ConfigsFields(
    evOpMaxOrder: Option<int>, evOpIterations: Option<int>, polynomialDegree: Option<int>,
    isLogInterpolation: Option<bool>, backwardInversion: Option<string>, nIntegrationCores: Option<int>,
    unknown: set<string>)

  /** The debug switches. */
  datatype Debug = Debug(skipSinglet: bool, skipNonSinglet: bool)

  /** The keyword arguments of `Debug.from_dict`. */
  datatype DebugFields = DebugFields(skipSinglet: Option<bool>, skipNonSinglet: Option<bool>, unknown: set<string>)

  /** The grids and pids the operators are currently expressed on, each possibly unset. */
  datatype Rotations = Rotations(
    targetgrid: Option<seq<real>>, inputgrid: Option<seq<real>>,
    targetpids: Option<seq<int>>, inputpids: Option<seq<int>>)

  /** A runcard as handed to `EKO.from_dict`: each entry present or absent. */
  datatype Runcard = Runcard(
    xgrid: Option<seq<real>>, q0: Option<real>, q2grid: Option<seq<real>>, configs: Option<ConfigsFields>,
    pids: Option<seq<int>>, debug: Option<DebugFields>)

  // ------------------------------------------------------------ the records

  /**
   * `Operator.from_dict`: the record built from its keyword arguments; an
   * unknown keyword or a missing required field is a TypeError, and a
   * missing error defaults to None.
   */
  function OperatorFromDict(d: OperatorFields): (r: Result<Operator>)
    ensures r.Ok? <==> d.unknown == {} && d.alphas.Some? && d.operator.Some?
    ensures r.Err? ==> r.error == TypeError
  {
    if d.unknown != {} || d.alphas.None? || d.operator.None? then Err(TypeError)
    else Ok(Operator(d.alphas.value, d.operator.value, d.error))
  }

  /** `raw` of an operator: its three fields by name. */
  function OperatorRaw(op: Operator): (r: OperatorFields)
    ensures r.unknown == {} && OperatorFromDict(r) == Ok(op)
  {
    OperatorFields(Some(op.alphas), Some(op.operator), op.error, {})
  }

  /** `Configs.from_dict`: TypeError for an unknown keyword or a missing field; one integration core by default. */
  function ConfigsFromDict(d: ConfigsFields): (r: Result<Configs>)
    ensures r.Ok? <==>
      && d.unknown == {} && d.evOpMaxOrder.Some? && d.evOpIterations.Some? && d.polynomialDegree.Some?
      && d.isLogInterpolation.Some? && d.backwardInversion.Some?
    ensures r.Err? ==> r.error == TypeError
    ensures r.Ok? && d.nIntegrationCores.None? ==> r.value.nIntegrationCores == 1
  {
    if || d.unknown != {} || d.evOpMaxOrder.None? || d.evOpIterations.None? || d.polynomialDegree.None?
       || d.isLogInterpolation.None? || d.backwardInversion.None?
    then Err(TypeError)
    else
      Ok(Configs(d.evOpMaxOrder.value, d.evOpIterations.value, d.polynomialDegree.value,
        d.isLogInterpolation.value, d.backwardInversion.value,
        if d.nIntegrationCores.Some? then d.nIntegrationCores.value else 1))
  }

  /** `Debug.from_dict`: TypeError for an unknown keyword; both switches off by default. */
  function DebugFromDict(d: DebugFields): (r: Result<Debug>)
    ensures r.Ok? <==> d.unknown == {}
    ensures r.Err? ==> r.error == TypeError
    ensures r.Ok? ==>
      && (d.skipSinglet.None? ==> !r.value.skipSinglet)
      && (d.skipNonSinglet.None? ==> !r.value.skipNonSinglet)
  {
    if d.unknown != {} then Err(TypeError)
    else
      Ok(Debug(
        d.skipSinglet.Some? && d.skipSinglet.value,
        d.skipNonSinglet.Some? && d.skipNonSinglet.value))
  }

  /** `Rotations.default`: both grids the interpolation grid, both pid lists the given pids. */
  function DefaultRotations(xgrid: seq<real>, pids: seq<int>): (r: Rotations)
    ensures r.targetgrid == r.inputgrid == Some(xgrid)
    ensures r.targetpids == r.inputpids == Some(pids)
  {
    Rotations(Some(xgrid), Some(xgrid), Some(pids), Some(pids))
  }

  // ------------------------------------------------------- scale matching

  /** The scales of s close to q2, in their order in s. */
  function CloseScales(s: seq<real>, q2: real, rtol: real, atol: real): (c: seq<real>)
    ensures forall x :: x in c <==> x in s && LinAlg.IsClose(q2, x, rtol, atol)
    ensures Distinct(s) ==> Distinct(c)
    decreases |s|
  {
    if |s| == 0 then []
    else
      var rest := CloseScales(s[1..], q2, rtol, atol);
      if LinAlg.IsClose(q2, s[0], rtol, atol) then [s[0]] + rest else rest
  }

  /** The keys of a dictionary built from s, first occurrence first. */
  function Dedup(s: seq<real>): (d: seq<real>)
    ensures Distinct(d) && Elems(d) == Elems(s)
    decreases |s|
  {
    if |s| == 0 then []
    else
      var init := s[..|s| - 1];
      var x := s[|s| - 1];
      var d0 := Dedup(init);
      ElemsSnoc(init, x);
      assert s == init + [x];
      if x in d0 then d0
      else
        ElemsSnoc(d0, x);
        assert forall i :: 0 <= i < |d0| ==> d0[i] in Elems(d0);
        d0 + [x]
  }

  /** The dictionary m with every operator dropped and every key kept. */
  function Unloaded(m: map<real, Option<Operator>>): (u: map<real, Option<Operator>>)
    ensures u.Keys == m.Keys && forall q :: q in u ==> u[q] == None
  {
    map q | q in m :: None
  }

  // ------------------------------------------------------------ the EKO

  class EKO {
    const xgrid: seq<real>
    const q02: real
    const configs: Configs
    const rotations: Rotations
    const debug: Debug
    const pids: seq<int>
    /** The operators by final scale; None for an operator dropped from memory. */
    var operators: map<real, Option<Operator>>
    /** The keys of `operators` in insertion order. */
    var order: seq<real>

    /** The key order lists every key of the dictionary once. */
    ghost predicate Valid()
      reads this
    {
      Distinct(order) && Elems(order) == operators.Keys
    }

    /** The container with the given fields and operator dictionary. */
    constructor (xgrid: seq<real>, q02: real, operators: map<real, Option<Operator>>, order: seq<real>,
                 configs: Configs, rotations: Rotations, debug: Debug, pids: seq<int>)
      requires Distinct(order) && Elems(order) == operators.Keys
      ensures Valid()
      ensures this.xgrid == xgrid && this.q02 == q02 && this.configs == configs && this.rotations == rotations
      ensures this.debug == debug && this.pids == pids
      ensures this.operators == operators && this.order == order
    {
      this.xgrid := xgrid;
      this.q02 := q02;
      this.configs := configs;
      this.rotations := rotations;
      this.debug := debug;
      this.pids := pids;
      this.operators := operators;
      this.order := order;
    }

    /** `Q2grid`: the final scales, each once, in insertion order. */
    function Q2Grid(): (g: seq<real>)
      reads this
      requires Valid()
      ensures Distinct(g) && forall q :: q in g <==> q in operators
    {
      assert forall i :: 0 <= i < |order| ==> order[i] in Elems(order);
      order
    }

    /** `__contains__`: whether q2 is one of the final scales. */
    predicate Contains(q2: real)
      reads this
      ensures Valid() ==> (Contains(q2) <==> q2 in order)
    {
      q2 in operators
    }

    /** `__getitem__`: the entry at q2 (None when dropped); an unknown scale is a KeyError. */
    function GetItem(q2: real): (r: Result<Option<Operator>>)
      reads this
      ensures r.Err? <==> !Contains(q2)
      ensures r.Err? ==> r.error == KeyError
    {
      if q2 in operators then Ok(operators[q2]) else Err(KeyError)
    }

    /**
     * `__setitem__`: a field dictionary is first converted to an operator;
     * anything that is then not an operator is a ValueError and stores
     * nothing; otherwise the operator is stored at q2, a new scale going
     * last in the key order.
     */
    method SetItem(q2: real, v: Value) returns (r: Result<()>)
      requires Valid()
      modifies this
      ensures Valid()
      ensures v.Other? ==> r == Err(ValueError)
      ensures v.AFieldDict? && OperatorFromDict(v.fields).Err? ==> r == Err(TypeError)
      ensures r.Ok? <==> v.AnOperator? || (v.AFieldDict? && OperatorFromDict(v.fields).Ok?)
      ensures r.Err? ==> operators == old(operators) && order == old(order)
      ensures r.Ok? ==>
        && operators == old(operators)[q2 := Some(if v.AnOperator? then v.op else OperatorFromDict(v.fields).value)]
        && order == (if q2 in old(operators) then old(order) else old(order) + [q2])
    {
      var op: Operator;
      match v {
        case Other =>
          return Err(ValueError);
        case AFieldDict(fields) =>
          var conv := OperatorFromDict(fields);
          if conv.Err? {
            return Err(conv.error);
          }
          op := conv.value;
        case AnOperator(o) =>
          op := o;
      }
      Store(q2, Some(op));
      r := Ok(());
    }

    /** Writes an entry of the dictionary: a new key goes last in the key order. */
    method Store(q2: real, e: Option<Operator>)
      requires Valid()
      modifies this
      ensures Valid()
      ensures operators == old(operators)[q2 := e]
      ensures order == (if q2 in old(operators) then old(order) else old(order) + [q2])
    {
      if q2 !in operators {
        ElemsSnoc(order, q2);
        assert forall i :: 0 <= i < |order| ==> order[i] in Elems(order);
        order := order + [q2];
      }
      operators := operators[q2 := e];
    }

    /**
     * `__delitem__`: the operator at q2 is dropped from memory; the key
     * stays, so membership and the scale list do not change (an unknown
     * scale is added with no operator).
     */
    method DelItem(q2: real)
      requires Valid()
      modifies this
      ensures Valid()
      ensures operators == old(operators)[q2 := None]
      ensures q2 in old(operators) ==> order == old(order) && operators.Keys == old(operators).Keys
      ensures q2 !in old(operators) ==> order == old(order) + [q2]
    {
      Store(q2, None);
    }

    /**
     * `approx`: the unique final scale close to q2 (numpy's `isclose`), None
     * when there is none; several close scales are a ValueError.
     */
    function Approx(q2: real, rtol: real, atol: real): (r: Result<Option<real>>)
      reads this
      requires Valid()
      ensures r.Err? ==> r.error == ValueError
    {
      var close := CloseScales(Q2Grid(), q2, rtol, atol);
      if |close| == 1 then Ok(Some(close[0]))
      else if |close| == 0 then Ok(None)
      else Err(ValueError)
    }

    /**
     * `__iter__`: every final scale with its entry, in insertion order, each
     * entry dropped from memory right after it is handed out; the keys stay.
     */
    method Iterate() returns (items: seq<(real, Option<Operator>)>)
      requires Valid()
      modifies this
      ensures Valid()
      ensures order == old(order) && operators == Unloaded(old(operators))
      ensures |items| == |old(order)|
      ensures forall i :: 0 <= i < |items| ==> items[i] == (old(order)[i], old(operators)[old(order)[i]])
    {
      var grid := Q2Grid();
      items := [];
      for i := 0 to |grid|
        invariant Valid() && order == grid && operators.Keys == old(operators).Keys
        invariant |items| == i
        invariant forall j :: 0 <= j < i ==> items[j] == (grid[j], old(operators)[grid[j]])
        invariant forall j :: 0 <= j < i ==> operators[grid[j]] == None
        invariant forall j :: i <= j < |grid| ==> operators[grid[j]] == old(operators)[grid[j]]
      {
        var got := GetItem(grid[i]);
        items := items + [(grid[i], got.value)];
        DelItem(grid[i]);
        assert forall j :: i < j < |grid| ==> grid[j] != grid[i];
      }
      UnloadedAll(old(operators), operators, grid);
    }

    /** `close`: every operator dropped from memory; the keys stay. */
    method Close()
      requires Valid()
      modifies this
      ensures Valid()
      ensures order == old(order) && operators == Unloaded(old(operators))
    {
      var grid := Q2Grid();
      for i := 0 to |grid|
        invariant Valid() && order == grid && operators.Keys == old(operators).Keys
        invariant forall j :: 0 <= j < i ==> operators[grid[j]] == None
      {
        DelItem(grid[i]);
      }
      UnloadedAll(old(operators), operators, grid);
    }

    /**
     * `from_dict`: a container for the runcard's grid, with Q0 squared as the
     * reference scale, the given pids (the flavour basis by default), default
     * rotations on that grid and pids, and every listed final scale present
     * with no operator yet. A missing entry is a KeyError and malformed
     * configuration or debug fields a TypeError.
     */
    static method FromDict(card: Runcard) returns (r: Result<EKO>)
      ensures card.xgrid.None? || card.q0.None? || card.q2grid.None? || card.configs.None? ==> r == Err(KeyError)
      ensures r.Ok? <==>
        && card.xgrid.Some? && card.q0.Some? && card.q2grid.Some? && card.configs.Some?
        && ConfigsFromDict(card.configs.value).Ok?
        && (card.debug.Some? ==> DebugFromDict(card.debug.value).Ok?)
      ensures r.Err? ==> r.error == KeyError || r.error == TypeError
      ensures r.Ok? ==>
        var e := r.value;
        && fresh(e) && e.Valid()
        && e.xgrid == card.xgrid.value && e.q02 == card.q0.value * card.q0.value
        && e.pids == (if card.pids.Some? then card.pids.value else BasisRotation.FlavorBasisPids)
        && e.rotations == DefaultRotations(e.xgrid, e.pids)
        && e.configs == ConfigsFromDict(card.configs.value).value
        && e.debug == (if card.debug.Some? then DebugFromDict(card.debug.value).value else Debug(false, false))
        && e.order == Dedup(card.q2grid.value)
        && e.operators.Keys == Elems(card.q2grid.value)
        && forall q :: q in e.operators ==> e.operators[q] == None
    {
      if card.xgrid.None? {
        return Err(KeyError);
      }
      var xgrid := card.xgrid.value;
      var pids := if card.pids.Some? then card.pids.value else BasisRotation.FlavorBasisPids;
      if card.q0.None? || card.q2grid.None? {
        return Err(KeyError);
      }
      var q2s := card.q2grid.value;
      var ops: map<real, Option<Operator>> := map[];
      var order: seq<real> := [];
      for i := 0 to |q2s|
        invariant order == Dedup(q2s[..i]) && ops.Keys == Elems(order)
        invariant forall q :: q in ops ==> ops[q] == None
      {
        assert q2s[..i + 1][..i] == q2s[..i];
        if q2s[i] !in ops {
          ElemsSnoc(order, q2s[i]);
          order := order + [q2s[i]];
        }
        ops := ops[q2s[i] := None];
      }
      assert q2s[..|q2s|] == q2s;
      if card.configs.None? {
        return Err(KeyError);
      }
      var configs := ConfigsFromDict(card.configs.value);
      if configs.Err? {
        return Err(configs.error);
      }
      var debug := DebugFromDict(if card.debug.Some? then card.debug.value else DebugFields(None, None, {}));
      if debug.Err? {
        return Err(debug.error);
      }
      var e := new EKO(xgrid, card.q0.value * card.q0.value, ops, order, configs.value,
        DefaultRotations(xgrid, pids), debug.value, pids);
      r := Ok(e);
    }
  }

  // ---------------------------------------------------------------- lemmas

  /** A map with the keys of m whose listed entries are all None is m unloaded. */
  lemma UnloadedAll(m: map<real, Option<Operator>>, u: map<real, Option<Operator>>, keys: seq<real>)
    requires u.Keys == m.Keys && Elems(keys) == m.Keys
    requires forall j :: 0 <= j < |keys| ==> u[keys[j]] == None
    ensures u == Unloaded(m)
  {
    forall q | q in u ensures u[q] == None {
      var j :| 0 <= j < |keys| && keys[j] == q;
    }
  }


  /**
   * `approx` answers None exactly when no final scale is close to q2, a
   * ValueError exactly when two different ones are, and otherwise the one
   * close scale.
   */
  lemma ApproxMeaning(e: EKO, q2: real, rtol: real, atol: real)
    requires e.Valid()
    ensures e.Approx(q2, rtol, atol) == Ok(None) <==> forall x :: x in e.operators ==> !LinAlg.IsClose(q2, x, rtol, atol)
    ensures e.Approx(q2, rtol, atol).Err? <==>
      exists x, y :: x in e.operators && y in e.operators && x != y && LinAlg.IsClose(q2, x, rtol, atol) && LinAlg.IsClose(q2, y, rtol, atol)
    ensures e.Approx(q2, rtol, atol).Ok? && e.Approx(q2, rtol, atol).value.Some? ==>
      var k := e.Approx(q2, rtol, atol).value.value;
      && k in e.operators && LinAlg.IsClose(q2, k, rtol, atol)
      && forall y :: y in e.operators && LinAlg.IsClose(q2, y, rtol, atol) ==> y == k
  {
    var close := CloseScales(e.Q2Grid(), q2, rtol, atol);
    if |close| >= 2 {
      assert close[0] in close && close[1] in close && close[0] != close[1];
      assert close[0] in e.operators && LinAlg.IsClose(q2, close[0], rtol, atol);
    } else if |close| == 1 {
      assert close[0] in close;
      forall y | y in e.operators && LinAlg.IsClose(q2, y, rtol, atol) ensures y == close[0] {
        assert y in close;
      }
    } else {
      forall x | x in e.operators ensures !LinAlg.IsClose(q2, x, rtol, atol) {
        assert x !in close;
      }
    }
  }
}
