/**
 * The operator-card generator of ekobox: a dictionary of default runcard
 * settings, completed with the mandatory scale grid and hash, and then
 * overridden key by key by an optional user update whose keys must all be
 * known.
 */
module GenOp {
  import opened Common

  /** A runcard value: the defaults are strings, flags, integers and grids. */
  datatype Value = Text(text: string) | Flag(flag: bool) | Number(number: int) | Grid(points: seq<real>)

  /** The user update: a dictionary, or anything else (`None` included), which is ignored. */
  datatype Update = Dict(entries: map<string, Value>) | NotADict

  type Card = map<string, Value>

  /** The default interpolation grid, seven points per row: logarithmic up to 0.1, then linear up to 1. */
  const XgridRow0: seq<real> := [0.0000001, 0.00000016102620275609392, 0.0000002592943797404667, 0.00000041753189365604003, 0.0000006723357536499335, 0.0000010826367338740541, 0.0000017433288221999873]
  const XgridRow1: seq<real> := [0.0000028072162039411756, 0.000004520353656360241, 0.0000072789538439831465, 0.000011721022975334793, 0.000018873918221350995, 0.00003039195382313195, 0.00004893900918477499]
  const XgridRow2: seq<real> := [0.00007880462815669905, 0.0001268961003167922, 0.00020433597178569417, 0.00032903445623126676, 0.0005298316906283707, 0.0008531678524172806, 0.0013738237958832637]
  const XgridRow3: seq<real> := [0.00221221629107045, 0.003562247890262444, 0.005736152510448681, 0.009236708571873866, 0.014873521072935119, 0.02395026619987486, 0.03856620421163472]
  const XgridRow4: seq<real> := [0.06210169418915616, 0.1, 0.1473684210526316, 0.19473684210526315, 0.24210526315789474, 0.2894736842105263, 0.33684210526315794]
  const XgridRow5: seq<real> := [0.38421052631578945, 0.43157894736842106, 0.4789473684210527, 0.5263157894736842, 0.5736842105263158, 0.6210526315789474, 0.6684210526315789]
  const XgridRow6: seq<real> := [0.7157894736842105, 0.7631578947368421, 0.8105263157894737, 0.8578947368421053, 0.9052631578947369, 0.9526315789473684, 1.0]
  const DefaultXgrid: seq<real> :=
    XgridRow0 + XgridRow1 + XgridRow2 + XgridRow3 + XgridRow4 + XgridRow5 + XgridRow6

  /** The default settings, before the mandatory entries are added. */
  function Defaults(): Card
  {
    map[
      "backward_inversion" := Text("expanded"),
      "debug_skip_non_singlet" := Flag(false),
      "debug_skip_singlet" := Flag(false),
      "ev_op_iterations" := Number(1),
      "ev_op_max_order" := Number(10),
      "interpolation_is_log" := Flag(true),
      "interpolation_polynomial_degree" := Number(4),
      "interpolation_xgrid" := Grid(DefaultXgrid)]
  }

  /** The keys an update may carry: the defaults and the two mandatory entries. */
  function CardKeys(): set<string>
  {
    Defaults().Keys + {"Q2grid", "hash"}
  }

  /** The defaults with the mandatory scale grid and hash added. */
  function Base(q2grid: Value, hash: Value): Card
  {
    Defaults()["Q2grid" := q2grid]["hash" := hash]
  }

  /** The card `gen_op_card` returns, or its ValueError for an unknown update key. */
  function OpCard(q2grid: Value, hash: Value, update: Update): Result<Card>
  {
    if update.NotADict? then Ok(Base(q2grid, hash))
    else if update.entries.Keys <= CardKeys() then Ok(Base(q2grid, hash) + update.entries)
    else Err(ValueError)
  }

  /**
   * Builds the card: defaults, then the mandatory entries, then the keys of
   * a dictionary update are checked one by one before the update is merged.
   */
  method GenOpCard(q2grid: Value, hash: Value, update: Update) returns (r: Result<Card>)
    ensures r == OpCard(q2grid, hash, update)
    ensures r.Err? <==> update.Dict? && exists k :: k in update.entries && k !in CardKeys()
    ensures r.Err? ==> r.error == ValueError
  {
    var card := Defaults();
    card := card["Q2grid" := q2grid];
    card := card["hash" := hash];
    assert card.Keys == CardKeys();
    if update.Dict? {
      var todo := update.entries.Keys;
      while todo != {}
        invariant todo <= update.entries.Keys
        invariant forall k :: k in update.entries && k !in todo ==> k in card
        decreases todo
      {
        var k :| k in todo;
        if k !in card {
          return Err(ValueError);
        }
        todo := todo - {k};
      }
      card := card + update.entries;
    }
    r := Ok(card);
  }

  /** Every successful card has exactly the known keys, whatever the update. */
  lemma CardHasKnownKeys(q2grid: Value, hash: Value, update: Update)
    requires OpCard(q2grid, hash, update).Ok?
    ensures OpCard(q2grid, hash, update).value.Keys == CardKeys()
  {
    assert Base(q2grid, hash).Keys == CardKeys();
  }

  /**
   * The update wins key by key; the mandatory entries are the given ones
   * unless the update itself overrides them; untouched defaults stay.
   */
  lemma CardOverrides(q2grid: Value, hash: Value, update: Update, k: string)
    requires OpCard(q2grid, hash, update).Ok? && k in CardKeys()
    ensures var c := OpCard(q2grid, hash, update).value;
      && (update.Dict? && k in update.entries ==> c[k] == update.entries[k])
      && (!(update.Dict? && k in update.entries) ==>
            c[k] == (if k == "Q2grid" then q2grid else if k == "hash" then hash else Defaults()[k]))
  {
    CardHasKnownKeys(q2grid, hash, update);
  }

  /** Feeding a generated card back as the update reproduces it. */
  lemma CardIdempotent(q2grid: Value, hash: Value, update: Update)
    requires OpCard(q2grid, hash, update).Ok?
    ensures OpCard(q2grid, hash, Dict(OpCard(q2grid, hash, update).value)) == OpCard(q2grid, hash, update)
  {
    var c := OpCard(q2grid, hash, update).value;
    CardHasKnownKeys(q2grid, hash, update);
    assert Base(q2grid, hash) + c == c;
  }

  /** Each point is below the next one. */
  predicate Increasing(xs: seq<real>)
  {
    |xs| < 2 || (xs[0] < xs[1] && Increasing(xs[1..]))
  }

  /** Two increasing sequences, the first ending below the start of the second, join into one. */
  lemma {:induction false} IncreasingJoin(a: seq<real>, b: seq<real>)
    requires Increasing(a) && Increasing(b) && |a| > 0 && |b| > 0 && a[|a| - 1] < b[0]
    ensures Increasing(a + b)
    decreases |a|
  {
    if |a| > 1 {
      IncreasingJoin(a[1..], b);
      assert (a + b)[1..] == a[1..] + b;
    } else {
      assert (a + b)[1..] == b;
    }
  }

  /** Each row of the default grid is increasing, and each row ends below the start of the next. */
  lemma XgridRowsIncreasing()
    ensures |XgridRow0| == 7 && Increasing(XgridRow0)
    ensures |XgridRow1| == 7 && Increasing(XgridRow1)
    ensures |XgridRow2| == 7 && Increasing(XgridRow2)
    ensures |XgridRow3| == 7 && Increasing(XgridRow3)
    ensures |XgridRow4| == 7 && Increasing(XgridRow4)
    ensures |XgridRow5| == 7 && Increasing(XgridRow5)
    ensures |XgridRow6| == 7 && Increasing(XgridRow6)
    ensures XgridRow0[6] < XgridRow1[0]
    ensures XgridRow1[6] < XgridRow2[0]
    ensures XgridRow2[6] < XgridRow3[0]
    ensures XgridRow3[6] < XgridRow4[0]
    ensures XgridRow4[6] < XgridRow5[0]
    ensures XgridRow5[6] < XgridRow6[0]
  {
    assert Increasing(XgridRow0);
    assert Increasing(XgridRow1);
    assert Increasing(XgridRow2);
    assert Increasing(XgridRow3);
    assert Increasing(XgridRow4);
    assert Increasing(XgridRow5);
    assert Increasing(XgridRow6);
  }

  /** One more row joined to an increasing prefix of the default grid. */
  lemma JoinRow(acc: seq<real>, row: seq<real>)
    requires Increasing(acc) && |acc| > 0 && Increasing(row) && |row| == 7 && acc[|acc| - 1] < row[0]
    ensures Increasing(acc + row) && |acc + row| == |acc| + 7
    ensures (acc + row)[0] == acc[0] && (acc + row)[|acc| + 6] == row[6]
  {
    IncreasingJoin(acc, row);
  }

  /** The default grid is increasing: its rows are joined one after the other. */
  lemma DefaultXgridIncreasing()
    ensures |DefaultXgrid| == 49 && Increasing(DefaultXgrid)
    ensures DefaultXgrid[0] == 0.0000001 && DefaultXgrid[48] == 1.0
  {
    XgridRowsIncreasing();
    JoinRow(XgridRow0, XgridRow1);
    JoinRow(XgridRow0 + XgridRow1, XgridRow2);
    JoinRow(XgridRow0 + XgridRow1 + XgridRow2, XgridRow3);
    JoinRow(XgridRow0 + XgridRow1 + XgridRow2 + XgridRow3, XgridRow4);
    JoinRow(XgridRow0 + XgridRow1 + XgridRow2 + XgridRow3 + XgridRow4, XgridRow5);
    JoinRow(XgridRow0 + XgridRow1 + XgridRow2 + XgridRow3 + XgridRow4 + XgridRow5, XgridRow6);
  }

  /** The default grid has 49 strictly increasing points from 1e-7 to 1 and the default degree is 4. */
  lemma DefaultInterpolation()
    ensures Defaults()["interpolation_xgrid"] == Grid(DefaultXgrid)
    ensures |DefaultXgrid| == 49 && DefaultXgrid[0] == 0.0000001 && DefaultXgrid[48] == 1.0
    ensures forall i, j :: 0 <= i < j < 49 ==> DefaultXgrid[i] < DefaultXgrid[j]
    ensures Defaults()["interpolation_polynomial_degree"] == Number(4)
    ensures Defaults()["interpolation_is_log"] == Flag(true)
  {
    DefaultXgridIncreasing();
    forall i, j | 0 <= i < j < 49 ensures DefaultXgrid[i] < DefaultXgrid[j] {
      IncreasingPairs(DefaultXgrid, i, j);
    }
  }

  /** An increasing sequence is ordered at every pair of positions. */
  lemma {:induction false} IncreasingPairs(xs: seq<real>, i: nat, j: nat)
    requires Increasing(xs) && i < j < |xs|
    ensures xs[i] < xs[j]
    decreases j
  {
    if i == 0 {
      if j > 1 {
        IncreasingPairs(xs[1..], 0, j - 1);
      }
    } else {
      IncreasingPairs(xs[1..], i - 1, j - 1);
    }
  }
}
