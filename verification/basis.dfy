/**
 * The flavour and evolution bases, the sector identifiers of the
 * non-singlet evolution modes, and the helpers that insert trivial
 * evolution distributions and rotate a distribution set back to flavours.
 */
module BasisRotation {
  import opened Common

  /** The flavour basis: photon, the six antiquarks, the gluon and the six quarks. */
  const FlavorBasisPids: seq<int> := [22, -6, -5, -4, -3, -2, -1, 21, 1, 2, 3, 4, 5, 6]

  /** The QCD evolution basis labels, in storage order. */
  const EvolBasis: seq<string> := ["ph", "S", "g", "V", "V3", "V8", "V15", "V24", "V35", "T3", "T8", "T15", "T24", "T35"]

  /**
   * The sector identifiers of the non-singlet modes: ns+, ns-, the valence,
   * and the up- and down-type QED combinations. The names and values of this
   * table are not part of this model's sources; these are the values used
   * throughout the program.
   */
  const NsPlus: int := 10101
  const NsMinus: int := 10201
  const NsValence: int := 10200
  const NsPlusU: int := 10102
  const NsPlusD: int := 10103
  const NsMinusU: int := 10202
  const NsMinusD: int := 10203

  /** The flavour basis runs over the photon, the gluon and every (anti)quark once. */
  lemma FlavorBasisShape()
    ensures |FlavorBasisPids| == 14 && |EvolBasis| == 14
    ensures forall i, j :: 0 <= i < j < 14 ==> FlavorBasisPids[i] != FlavorBasisPids[j]
    ensures forall i, j :: 0 <= i < j < 14 ==> EvolBasis[i] != EvolBasis[j]
    ensures FlavorBasisPids[8..] == [1, 2, 3, 4, 5, 6] && FlavorBasisPids[1..7] == [-6, -5, -4, -3, -2, -1]
  {
  }

  // ---------------------------------------------------------------- rotations

  /** A square matrix of the basis size. */
  predicate Square14(m: seq<seq<real>>)
  {
    |m| == 14 && forall i :: 0 <= i < 14 ==> |m[i]| == 14
  }

  /** The rotation from the flavour basis to the evolution basis: row i gives evolution label i. */
  const FlavorToEvolution: seq<seq<real>> := [
      [1.0, 0.0, 0.0, 0.0, 0.0, 0.0, 0.0, 0.0, 0.0, 0.0, 0.0, 0.0, 0.0, 0.0],
      [0.0, 1.0, 1.0, 1.0, 1.0, 1.0, 1.0, 0.0, 1.0, 1.0, 1.0, 1.0, 1.0, 1.0],
      [0.0, 0.0, 0.0, 0.0, 0.0, 0.0, 0.0, 1.0, 0.0, 0.0, 0.0, 0.0, 0.0, 0.0],
      [0.0, -1.0, -1.0, -1.0, -1.0, -1.0, -1.0, 0.0, 1.0, 1.0, 1.0, 1.0, 1.0, 1.0],
      [0.0, 0.0, 0.0, 0.0, 0.0, -1.0, 1.0, 0.0, -1.0, 1.0, 0.0, 0.0, 0.0, 0.0],
      [0.0, 0.0, 0.0, 0.0, 2.0, -1.0, -1.0, 0.0, 1.0, 1.0, -2.0, 0.0, 0.0, 0.0],
      [0.0, 0.0, 0.0, 3.0, -1.0, -1.0, -1.0, 0.0, 1.0, 1.0, 1.0, -3.0, 0.0, 0.0],
      [0.0, 0.0, 4.0, -1.0, -1.0, -1.0, -1.0, 0.0, 1.0, 1.0, 1.0, 1.0, -4.0, 0.0],
      [0.0, 5.0, -1.0, -1.0, -1.0, -1.0, -1.0, 0.0, 1.0, 1.0, 1.0, 1.0, 1.0, -5.0],
      [0.0, 0.0, 0.0, 0.0, 0.0, 1.0, -1.0, 0.0, -1.0, 1.0, 0.0, 0.0, 0.0, 0.0],
      [0.0, 0.0, 0.0, 0.0, -2.0, 1.0, 1.0, 0.0, 1.0, 1.0, -2.0, 0.0, 0.0, 0.0],
      [0.0, 0.0, 0.0, -3.0, 1.0, 1.0, 1.0, 0.0, 1.0, 1.0, 1.0, -3.0, 0.0, 0.0],
      [0.0, 0.0, -4.0, 1.0, 1.0, 1.0, 1.0, 0.0, 1.0, 1.0, 1.0, 1.0, -4.0, 0.0],
      [0.0, -5.0, 1.0, 1.0, 1.0, 1.0, 1.0, 0.0, 1.0, 1.0, 1.0, 1.0, 1.0, -5.0]]

  /**
   * Its inverse, from the evolution basis back to the flavour basis: row j
   * gives flavour pid j. The program inverts the matrix numerically; these
   * are the exact entries.
   */
  const EvolutionToFlavor: seq<seq<real>> := [
      [1.0, 0.0, 0.0, 0.0, 0.0, 0.0, 0.0, 0.0, 0.0, 0.0, 0.0, 0.0, 0.0, 0.0],
      [0.0, 1.0 / 12.0, 0.0, -1.0 / 12.0, 0.0, 0.0, 0.0, 0.0, 1.0 / 12.0, 0.0, 0.0, 0.0, 0.0, -1.0 / 12.0],
      [0.0, 1.0 / 12.0, 0.0, -1.0 / 12.0, 0.0, 0.0, 0.0, 1.0 / 10.0, -1.0 / 60.0, 0.0, 0.0, 0.0, -1.0 / 10.0, 1.0 / 60.0],
      [0.0, 1.0 / 12.0, 0.0, -1.0 / 12.0, 0.0, 0.0, 1.0 / 8.0, -1.0 / 40.0, -1.0 / 60.0, 0.0, 0.0, -1.0 / 8.0, 1.0 / 40.0, 1.0 / 60.0],
      [0.0, 1.0 / 12.0, 0.0, -1.0 / 12.0, 0.0, 1.0 / 6.0, -1.0 / 24.0, -1.0 / 40.0, -1.0 / 60.0, 0.0, -1.0 / 6.0, 1.0 / 24.0, 1.0 / 40.0, 1.0 / 60.0],
      [0.0, 1.0 / 12.0, 0.0, -1.0 / 12.0, -1.0 / 4.0, -1.0 / 12.0, -1.0 / 24.0, -1.0 / 40.0, -1.0 / 60.0, 1.0 / 4.0, 1.0 / 12.0, 1.0 / 24.0, 1.0 / 40.0, 1.0 / 60.0],
      [0.0, 1.0 / 12.0, 0.0, -1.0 / 12.0, 1.0 / 4.0, -1.0 / 12.0, -1.0 / 24.0, -1.0 / 40.0, -1.0 / 60.0, -1.0 / 4.0, 1.0 / 12.0, 1.0 / 24.0, 1.0 / 40.0, 1.0 / 60.0],
      [0.0, 0.0, 1.0, 0.0, 0.0, 0.0, 0.0, 0.0, 0.0, 0.0, 0.0, 0.0, 0.0, 0.0],
      [0.0, 1.0 / 12.0, 0.0, 1.0 / 12.0, -1.0 / 4.0, 1.0 / 12.0, 1.0 / 24.0, 1.0 / 40.0, 1.0 / 60.0, -1.0 / 4.0, 1.0 / 12.0, 1.0 / 24.0, 1.0 / 40.0, 1.0 / 60.0],
      [0.0, 1.0 / 12.0, 0.0, 1.0 / 12.0, 1.0 / 4.0, 1.0 / 12.0, 1.0 / 24.0, 1.0 / 40.0, 1.0 / 60.0, 1.0 / 4.0, 1.0 / 12.0, 1.0 / 24.0, 1.0 / 40.0, 1.0 / 60.0],
      [0.0, 1.0 / 12.0, 0.0, 1.0 / 12.0, 0.0, -1.0 / 6.0, 1.0 / 24.0, 1.0 / 40.0, 1.0 / 60.0, 0.0, -1.0 / 6.0, 1.0 / 24.0, 1.0 / 40.0, 1.0 / 60.0],
      [0.0, 1.0 / 12.0, 0.0, 1.0 / 12.0, 0.0, 0.0, -1.0 / 8.0, 1.0 / 40.0, 1.0 / 60.0, 0.0, 0.0, -1.0 / 8.0, 1.0 / 40.0, 1.0 / 60.0],
      [0.0, 1.0 / 12.0, 0.0, 1.0 / 12.0, 0.0, 0.0, 0.0, -1.0 / 10.0, 1.0 / 60.0, 0.0, 0.0, 0.0, -1.0 / 10.0, 1.0 / 60.0],
      [0.0, 1.0 / 12.0, 0.0, 1.0 / 12.0, 0.0, 0.0, 0.0, 0.0, -1.0 / 12.0, 0.0, 0.0, 0.0, 0.0, -1.0 / 12.0]]

  /** The dot product of two vectors of the basis size. */
  function Dot14(a: seq<real>, b: seq<real>): real
    requires |a| == 14 && |b| == 14
  {
    a[0] * b[0] + a[1] * b[1] + a[2] * b[2] + a[3] * b[3] + a[4] * b[4] + a[5] * b[5] + a[6] * b[6]
    + a[7] * b[7] + a[8] * b[8] + a[9] * b[9] + a[10] * b[10] + a[11] * b[11] + a[12] * b[12] + a[13] * b[13]
  }

  /** A rotation applied to one vector of the basis size. */
  function Rotate(m: seq<seq<real>>, v: seq<real>): (r: seq<real>)
    requires Square14(m) && |v| == 14
    ensures |r| == 14 && forall i :: 0 <= i < 14 ==> r[i] == Dot14(m[i], v)
  {
    seq(14, i requires 0 <= i < 14 => Dot14(m[i], v))
  }

  // Entry by entry, the two round trips give back their input; one small
  // lemma per entry keeps each proof within the solver's reach.

  lemma BackEntry0(v: seq<real>)
    requires |v| == 14
    ensures Rotate(EvolutionToFlavor, Rotate(FlavorToEvolution, v))[0] == v[0]
  {
  }

  lemma ForthEntry0(v: seq<real>)
    requires |v| == 14
    ensures Rotate(FlavorToEvolution, Rotate(EvolutionToFlavor, v))[0] == v[0]
  {
  }

  lemma BackEntry1(v: seq<real>)
    requires |v| == 14
    ensures Rotate(EvolutionToFlavor, Rotate(FlavorToEvolution, v))[1] == v[1]
  {
  }

  lemma ForthEntry1(v: seq<real>)
    requires |v| == 14
    ensures Rotate(FlavorToEvolution, Rotate(EvolutionToFlavor, v))[1] == v[1]
  {
  }

  lemma BackEntry2(v: seq<real>)
    requires |v| == 14
    ensures Rotate(EvolutionToFlavor, Rotate(FlavorToEvolution, v))[2] == v[2]
  {
  }

  lemma ForthEntry2(v: seq<real>)
    requires |v| == 14
    ensures Rotate(FlavorToEvolution, Rotate(EvolutionToFlavor, v))[2] == v[2]
  {
  }

  lemma BackEntry3(v: seq<real>)
    requires |v| == 14
    ensures Rotate(EvolutionToFlavor, Rotate(FlavorToEvolution, v))[3] == v[3]
  {
  }

  lemma ForthEntry3(v: seq<real>)
    requires |v| == 14
    ensures Rotate(FlavorToEvolution, Rotate(EvolutionToFlavor, v))[3] == v[3]
  {
  }

  lemma BackEntry4(v: seq<real>)
    requires |v| == 14
    ensures Rotate(EvolutionToFlavor, Rotate(FlavorToEvolution, v))[4] == v[4]
  {
  }

  lemma ForthEntry4(v: seq<real>)
    requires |v| == 14
    ensures Rotate(FlavorToEvolution, Rotate(EvolutionToFlavor, v))[4] == v[4]
  {
  }

  lemma BackEntry5(v: seq<real>)
    requires |v| == 14
    ensures Rotate(EvolutionToFlavor, Rotate(FlavorToEvolution, v))[5] == v[5]
  {
  }

  lemma ForthEntry5(v: seq<real>)
    requires |v| == 14
    ensures Rotate(FlavorToEvolution, Rotate(EvolutionToFlavor, v))[5] == v[5]
  {
  }

  lemma BackEntry6(v: seq<real>)
    requires |v| == 14
    ensures Rotate(EvolutionToFlavor, Rotate(FlavorToEvolution, v))[6] == v[6]
  {
  }

  lemma ForthEntry6(v: seq<real>)
    requires |v| == 14
    ensures Rotate(FlavorToEvolution, Rotate(EvolutionToFlavor, v))[6] == v[6]
  {
  }

  lemma BackEntry7(v: seq<real>)
    requires |v| == 14
    ensures Rotate(EvolutionToFlavor, Rotate(FlavorToEvolution, v))[7] == v[7]
  {
  }

  lemma ForthEntry7(v: seq<real>)
    requires |v| == 14
    ensures Rotate(FlavorToEvolution, Rotate(EvolutionToFlavor, v))[7] == v[7]
  {
  }

  lemma BackEntry8(v: seq<real>)
    requires |v| == 14
    ensures Rotate(EvolutionToFlavor, Rotate(FlavorToEvolution, v))[8] == v[8]
  {
  }

  lemma ForthEntry8(v: seq<real>)
    requires |v| == 14
    ensures Rotate(FlavorToEvolution, Rotate(EvolutionToFlavor, v))[8] == v[8]
  {
  }

  lemma BackEntry9(v: seq<real>)
    requires |v| == 14
    ensures Rotate(EvolutionToFlavor, Rotate(FlavorToEvolution, v))[9] == v[9]
  {
  }

  lemma ForthEntry9(v: seq<real>)
    requires |v| == 14
    ensures Rotate(FlavorToEvolution, Rotate(EvolutionToFlavor, v))[9] == v[9]
  {
  }

  lemma BackEntry10(v: seq<real>)
    requires |v| == 14
    ensures Rotate(EvolutionToFlavor, Rotate(FlavorToEvolution, v))[10] == v[10]
  {
  }

  lemma ForthEntry10(v: seq<real>)
    requires |v| == 14
    ensures Rotate(FlavorToEvolution, Rotate(EvolutionToFlavor, v))[10] == v[10]
  {
  }

  lemma BackEntry11(v: seq<real>)
    requires |v| == 14
    ensures Rotate(EvolutionToFlavor, Rotate(FlavorToEvolution, v))[11] == v[11]
  {
  }

  lemma ForthEntry11(v: seq<real>)
    requires |v| == 14
    ensures Rotate(FlavorToEvolution, Rotate(EvolutionToFlavor, v))[11] == v[11]
  {
  }

  lemma BackEntry12(v: seq<real>)
    requires |v| == 14
    ensures Rotate(EvolutionToFlavor, Rotate(FlavorToEvolution, v))[12] == v[12]
  {
  }

  lemma ForthEntry12(v: seq<real>)
    requires |v| == 14
    ensures Rotate(FlavorToEvolution, Rotate(EvolutionToFlavor, v))[12] == v[12]
  {
  }

  lemma BackEntry13(v: seq<real>)
    requires |v| == 14
    ensures Rotate(EvolutionToFlavor, Rotate(FlavorToEvolution, v))[13] == v[13]
  {
  }

  lemma ForthEntry13(v: seq<real>)
    requires |v| == 14
    ensures Rotate(FlavorToEvolution, Rotate(EvolutionToFlavor, v))[13] == v[13]
  {
  }

  /** The two rotations undo each other, in both orders. */
  lemma RotationsAreInverse(v: seq<real>)
    requires |v| == 14
    ensures Rotate(EvolutionToFlavor, Rotate(FlavorToEvolution, v)) == v
    ensures Rotate(FlavorToEvolution, Rotate(EvolutionToFlavor, v)) == v
  {
    BackEntry0(v);
    ForthEntry0(v);
    BackEntry1(v);
    ForthEntry1(v);
    BackEntry2(v);
    ForthEntry2(v);
    BackEntry3(v);
    ForthEntry3(v);
    BackEntry4(v);
    ForthEntry4(v);
    BackEntry5(v);
    ForthEntry5(v);
    BackEntry6(v);
    ForthEntry6(v);
    BackEntry7(v);
    ForthEntry7(v);
    BackEntry8(v);
    ForthEntry8(v);
    BackEntry9(v);
    ForthEntry9(v);
    BackEntry10(v);
    ForthEntry10(v);
    BackEntry11(v);
    ForthEntry11(v);
    BackEntry12(v);
    ForthEntry12(v);
    BackEntry13(v);
    ForthEntry13(v);
  }

  // ---------------------------------------------------------------- fill_trivial_dists

  /** Distributions by evolution label, each a list of values on the grid. */
  type Dists = map<string, seq<real>>

  /** Labels `fill_trivial_dists` may insert: all but g, S and V. */
  predicate Fillable(e: string)
  {
    e != "g" && e != "S" && e != "V"
  }

  /** The evolution labels among the first k that are fillable and absent from `prior`, in basis order. */
  function Missing(prior: Dists, k: nat): (r: seq<string>)
    requires k <= |EvolBasis|
    ensures forall e :: e in r <==> e in EvolBasis[..k] && Fillable(e) && e !in prior
  {
    if k == 0 then []
    else
      var e := EvolBasis[k - 1];
      assert EvolBasis[..k] == EvolBasis[..k - 1] + [e];
      Missing(prior, k - 1) + (if Fillable(e) && e !in prior then [e] else [])
  }

  /** The trivial value of an inserted label: zeros for the photon, V for valence-like, S for the rest. */
  function TrivialValue(prior: Dists, e: string): seq<real>
    requires "S" in prior && "V" in prior
  {
    if e == "ph" then LinAlgZero(|prior["S"]|)
    else if |e| > 0 && e[0] == 'V' then prior["V"]
    else prior["S"]
  }

  /** A list of zeros. */
  function LinAlgZero(n: nat): (z: seq<real>)
    ensures |z| == n && forall i :: 0 <= i < n ==> z[i] == 0.0
  {
    seq(n, i => 0.0)
  }

  /** `prior` with every label of `labels` inserted at its trivial value. */
  function Inserted(prior: Dists, labels: seq<string>): (r: Dists)
    requires "S" in prior && "V" in prior
    ensures forall e :: e in r <==> e in prior || e in labels
  {
    prior + map e | e in labels :: TrivialValue(prior, e)
  }

  /**
   * `fill_trivial_dists`: without S or V a KeyError; otherwise the
   * distributions with every missing label but g inserted at its trivial
   * value, and the inserted labels in basis order.
   */
  function FillTrivial(prior: Dists): (r: Result<(Dists, seq<string>)>)
  {
    if "S" !in prior || "V" !in prior then Err(KeyError)
    else Ok((Inserted(prior, Missing(prior, 14)), Missing(prior, 14)))
  }

  /** The evolution basis starts ph, S, g, V; every later label is a V- or T-label. */
  lemma EvolBasisLabels()
    ensures EvolBasis[0] == "ph" && EvolBasis[1] == "S" && EvolBasis[2] == "g" && EvolBasis[3] == "V"
    ensures forall k :: 4 <= k < 14 ==> |EvolBasis[k]| > 1 && (EvolBasis[k][0] == 'V' || EvolBasis[k][0] == 'T')
    ensures forall i, j :: 0 <= i < j < 14 ==> EvolBasis[i] != EvolBasis[j]
  {
  }

  /** `fill_trivial_dists` raises a KeyError exactly when S or V is absent. */
  lemma FillTrivialFails(prior: Dists)
    ensures FillTrivial(prior).Err? <==> "S" !in prior || "V" !in prior
    ensures FillTrivial(prior).Err? ==> FillTrivial(prior).error == KeyError
  {
  }

  /**
   * Every existing entry is kept, g is never inserted, every other basis
   * label is present afterwards, and the recorded labels are exactly the
   * inserted ones.
   */
  lemma FillTrivialKeys(prior: Dists)
    requires FillTrivial(prior).Ok?
    ensures var (ev, trivial) := FillTrivial(prior).value;
      && (forall e :: e in prior ==> e in ev && ev[e] == prior[e])
      && ("g" in ev <==> "g" in prior)
      && (forall e :: e in EvolBasis && e != "g" ==> e in ev)
      && (forall e :: e in trivial <==> e in ev && e !in prior)
  {
    assert EvolBasis[..14] == EvolBasis;
    var (ev, trivial) := FillTrivial(prior).value;
    forall e | e in EvolBasis && e != "g"
      ensures e in ev
    {
      if e !in prior && Fillable(e) {
        assert e in trivial;
      }
    }
  }

  /** The photon is inserted as zeros of S's length, V-labels as V and T-labels as S. */
  lemma FillTrivialValues(prior: Dists)
    requires FillTrivial(prior).Ok?
    ensures var (ev, trivial) := FillTrivial(prior).value;
      forall e :: e in trivial ==>
        && |e| > 0
        && (e == "ph" ==> ev[e] == LinAlgZero(|prior["S"]|))
        && (e[0] == 'V' ==> ev[e] == prior["V"])
        && (e[0] == 'T' ==> ev[e] == prior["S"])
  {
    EvolBasisLabels();
    var (ev, trivial) := FillTrivial(prior).value;
    forall e | e in trivial
      ensures |e| > 0 && ev[e] == TrivialValue(prior, e)
    {
      assert e in EvolBasis[..14];
    }
  }

  /** One more basis label: inserted at its trivial value if it is fillable and absent. */
  lemma InsertedStep(prior: Dists, k: nat)
    requires "S" in prior && "V" in prior && k < 14
    ensures var e := EvolBasis[k];
      Inserted(prior, Missing(prior, k + 1))
      == if Fillable(e) && e !in prior then Inserted(prior, Missing(prior, k))[e := TrivialValue(prior, e)]
         else Inserted(prior, Missing(prior, k))
  {
  }

  /** What the loop of `fill_trivial_dists` keeps after the first k basis labels. */
  ghost predicate FillInv(prior: Dists, evols: Dists, trivial: seq<string>, k: nat)
  {
    && k <= |EvolBasis|
    && (k >= 2 ==> "S" in prior)
    && (k >= 4 ==> "V" in prior)
    && evols.Keys == prior.Keys + (set e | e in Missing(prior, k))
    && ("S" in prior && "V" in prior ==> evols == Inserted(prior, Missing(prior, k)))
    && (forall e :: e in prior ==> e in evols && evols[e] == prior[e])
    && trivial == Missing(prior, k)
  }

  /**
   * One basis label of `fill_trivial_dists`: a missing S or V, or a missing
   * S when the photon is filled, stops it (the caller raises KeyError);
   * otherwise a missing fillable label is inserted and recorded.
   */
  method FillStep(prior: Dists, evols: Dists, trivial: seq<string>, k: nat)
    returns (ok: bool, evols2: Dists, trivial2: seq<string>)
    requires k < |EvolBasis| && FillInv(prior, evols, trivial, k)
    ensures !ok ==> "S" !in prior || "V" !in prior
    ensures ok ==> FillInv(prior, evols2, trivial2, k + 1)
  {
    EvolBasisLabels();
    var e := EvolBasis[k];
    assert e !in Missing(prior, k);
    if "S" in prior && "V" in prior {
      InsertedStep(prior, k);
    }
    ok, evols2, trivial2 := true, evols, trivial;
    if e == "g" {
    } else if e == "S" || e == "V" {
      if e !in evols {
        ok := false;
      }
    } else if e !in evols {
      if e == "ph" {
        if "S" !in evols {
          ok := false;
          return;
        }
        evols2 := evols[e := LinAlgZero(|evols["S"]|)];
      } else if e[0] == 'V' {
        evols2 := evols[e := evols["V"]];
      } else if e[0] == 'T' {
        evols2 := evols[e := evols["S"]];
      }
      trivial2 := trivial + [e];
    }
  }

  /** `fill_trivial_dists`: the loop over the evolution basis, on a copy of the distributions. */
  method FillTrivialDists(prior: Dists) returns (r: Result<(Dists, seq<string>)>)
    ensures r == FillTrivial(prior)
  {
    var evols := prior;
    var trivial: seq<string> := [];
    FillInvStart(prior);
    var k := 0;
    while k < |EvolBasis|
      invariant FillInv(prior, evols, trivial, k)
    {
      var ok;
      ok, evols, trivial := FillStep(prior, evols, trivial, k);
      if !ok {
        return Err(KeyError);
      }
      k := k + 1;
    }
    FillInvEnd(prior, evols, trivial);
    r := Ok((evols, trivial));
  }

  /** Before the loop nothing is inserted. */
  lemma FillInvStart(prior: Dists)
    ensures FillInv(prior, prior, [], 0)
  {
    if "S" in prior && "V" in prior {
      assert Inserted(prior, Missing(prior, 0)) == prior;
    }
  }

  /** After the whole basis the loop has built `fill_trivial_dists`'s result. */
  lemma FillInvEnd(prior: Dists, evols: Dists, trivial: seq<string>)
    requires FillInv(prior, evols, trivial, |EvolBasis|)
    ensures FillTrivial(prior) == Ok((evols, trivial))
  {
  }

  // ---------------------------------------------------------------- rotate_output

  /** The T-label T{q^2 - 1} of the quark q. */
  function TLabel(q: nat): string
    requires q >= 1
  {
    "T" + NatToString(q * q - 1)
  }

  /** The V-label V{q^2 - 1} of the quark q. */
  function VLabel(q: nat): string
    requires q >= 1
  {
    "V" + NatToString(q * q - 1)
  }

  /** How many quarks q from lo to 6 have a trivial T-label. */
  function TrivialT(trivial: seq<string>, lo: nat): nat
    requires lo >= 1
    decreases 7 - lo
  {
    if lo > 6 then 0 else (if TLabel(lo) in trivial then 1 else 0) + TrivialT(trivial, lo + 1)
  }

  /** How many quarks q from lo to 6 have a trivial T-label or a trivial V-label. */
  function TrivialTV(trivial: seq<string>, lo: nat): nat
    requires lo >= 1
    decreases 7 - lo
  {
    if lo > 6 then 0
    else (if TLabel(lo) in trivial || VLabel(lo) in trivial then 1 else 0) + TrivialTV(trivial, lo + 1)
  }

  /** Every trivial T-label counts for the valence too, and at most 7 - lo quarks count. */
  lemma {:induction false} TrivialCounts(trivial: seq<string>, lo: nat)
    requires 1 <= lo <= 7
    ensures TrivialT(trivial, lo) <= TrivialTV(trivial, lo) <= 7 - lo
    decreases 7 - lo
  {
    if lo <= 6 {
      TrivialCounts(trivial, lo + 1);
    }
  }

  /**
   * The loop over q = 6, 5, 4 of `rotate_output`: a trivial T{q^2 - 1}
   * lowers both the last quark pid and the last valence pid, otherwise a
   * trivial V{q^2 - 1} lowers the last valence pid only.
   */
  method LastPids(trivial: seq<string>) returns (lastQuark: int, lastValence: int)
    ensures lastQuark == LastQuark(trivial) && lastValence == LastValence(trivial)
    ensures 3 <= lastValence <= lastQuark <= 6
  {
    lastQuark := 6;
    lastValence := 6;
    var q := 6;
    while q > 3
      invariant 3 <= q <= 6
      invariant lastQuark == 6 - TrivialT(trivial, q + 1) && lastValence == 6 - TrivialTV(trivial, q + 1)
    {
      if TLabel(q) in trivial {
        lastQuark := lastQuark - 1;
        lastValence := lastValence - 1;
      } else if VLabel(q) in trivial {
        lastValence := lastValence - 1;
      }
      q := q - 1;
    }
    TrivialCounts(trivial, 4);
  }

  /** Where pid sits in the flavour basis. */
  function PidIndex(pid: int): (j: nat)
    requires pid in FlavorBasisPids
    ensures j < 14 && FlavorBasisPids[j] == pid
  {
    if pid == 22 then 0 else if pid == 21 then 7 else pid + 7
  }

  /** Whether `rotate_output` rotates pid back: no quark above the last quark pid, no antiquark below minus the last valence pid, no trivial photon. */
  predicate Kept(pid: int, lastQuark: int, lastValence: int, trivial: seq<string>)
  {
    !(6 >= pid > lastQuark) && !(-6 <= pid < -lastValence) && !(pid == 22 && "ph" in trivial)
  }

  /** Whether pid is one of the antiquarks `rotate_output` copies from its quark. */
  predicate Copied(pid: int, lastQuark: int, lastValence: int)
  {
    -lastQuark <= pid < -lastValence
  }

  /** The pid whose rotated distribution pid receives: its quark when it is copied, itself otherwise. */
  function Origin(pid: int, lastQuark: int, lastValence: int): (o: int)
    requires pid in FlavorBasisPids && 3 <= lastValence <= lastQuark <= 6
    ensures o in FlavorBasisPids && (o == pid || (Copied(pid, lastQuark, lastValence) && o == -pid))
  {
    if Copied(pid, lastQuark, lastValence) then -pid else pid
  }

  /** Every basis label is present and every distribution has n points. */
  predicate OnGrid(ev: Dists, n: nat)
  {
    (forall e :: e in EvolBasis ==> e in ev) && forall e :: e in ev ==> |ev[e]| == n
  }

  /** The evolution vector at grid point x. */
  function Column(ev: Dists, n: nat, x: nat): (c: seq<real>)
    requires OnGrid(ev, n) && x < n
    ensures |c| == 14 && forall e :: 0 <= e < 14 ==> c[e] == ev[EvolBasis[e]][x]
  {
    seq(14, e requires 0 <= e < 14 => ev[EvolBasis[e]][x])
  }

  /** Flavour j rotated back from the evolution distributions, point by point. */
  function FlavorValue(ev: Dists, n: nat, j: nat): (v: seq<real>)
    requires OnGrid(ev, n) && j < 14
    ensures |v| == n && forall x :: 0 <= x < n ==> v[x] == Dot14(EvolutionToFlavor[j], Column(ev, n, x))
  {
    seq(n, x requires 0 <= x < n => Dot14(EvolutionToFlavor[j], Column(ev, n, x)))
  }

  /** The pids `rotate_output` returns. */
  function OutPids(trivial: seq<string>, lastQuark: int, lastValence: int): set<int>
  {
    set pid | pid in FlavorBasisPids && (Kept(pid, lastQuark, lastValence, trivial) || Copied(pid, lastQuark, lastValence))
  }

  /** The rotated distributions, from the filled distributions and the trivial labels. */
  function Rotated(ev: Dists, n: nat, trivial: seq<string>, lastQuark: int, lastValence: int): map<int, seq<real>>
    requires OnGrid(ev, n) && 3 <= lastValence <= lastQuark <= 6
  {
    map pid | pid in OutPids(trivial, lastQuark, lastValence) :: FlavorValue(ev, n, PidIndex(Origin(pid, lastQuark, lastValence)))
  }

  /** Every distribution has n points. */
  predicate AllOnGrid(prior: Dists, n: nat)
  {
    forall e :: e in prior ==> |prior[e]| == n
  }

  /** The filled distributions keep every distribution on the grid. */
  lemma FillOnGrid(prior: Dists, n: nat)
    requires AllOnGrid(prior, n) && FillTrivial(prior).Ok? && "g" in prior
    ensures OnGrid(FillTrivial(prior).value.0, n)
  {
    FillTrivialKeys(prior);
    FillTrivialValues(prior);
    var ev := FillTrivial(prior).value.0;
    forall e | e in ev
      ensures |ev[e]| == n
    {
      if e !in prior {
        assert ev[e] == TrivialValue(prior, e);
      }
    }
  }

  /**
   * `rotate_output`: fill the trivial distributions (a KeyError without S,
   * V or g), find the last quark and valence pids, rotate back every kept
   * pid and copy the antiquarks between them from their quarks.
   */
  function RotateOutputSpec(prior: Dists, n: nat): Result<map<int, seq<real>>>
    requires AllOnGrid(prior, n)
  {
    match FillTrivial(prior)
    case Err(e) => Err(e)
    case Ok((ev, trivial)) =>
      if "g" !in prior then Err(KeyError)
      else
        FillOnGrid(prior, n);
        Ok(RotatedAll(ev, n, trivial))
  }

  /** The rotated distributions, with the last quark and valence pids the trivial labels give. */
  function RotatedAll(ev: Dists, n: nat, trivial: seq<string>): map<int, seq<real>>
    requires OnGrid(ev, n)
  {
    LastPidsRange(trivial);
    Rotated(ev, n, trivial, LastQuark(trivial), LastValence(trivial))
  }

  /** The last quark pid of the output: 6 lowered once per trivial T-label from T15 up. */
  function LastQuark(trivial: seq<string>): int
  {
    6 - TrivialT(trivial, 4)
  }

  /** The last valence pid of the output: 6 lowered once per quark from 4 up with a trivial T- or V-label. */
  function LastValence(trivial: seq<string>): int
  {
    6 - TrivialTV(trivial, 4)
  }

  /** The last valence pid never passes the last quark pid, and both stay between 3 and 6. */
  lemma LastPidsRange(trivial: seq<string>)
    ensures 3 <= LastValence(trivial) <= LastQuark(trivial) <= 6
  {
    TrivialCounts(trivial, 4);
  }

  /** The filled distributions hold g exactly when the input does. */
  lemma FillKeepsGluon(prior: Dists)
    requires FillTrivial(prior).Ok?
    ensures "g" in FillTrivial(prior).value.0 <==> "g" in prior
  {
    FillTrivialKeys(prior);
  }

  /** `rotate_output`, with its loops. */
  method RotateOutput(prior: Dists, n: nat) returns (r: Result<map<int, seq<real>>>)
    requires AllOnGrid(prior, n)
    ensures r == RotateOutputSpec(prior, n)
  {
    var filled := FillTrivialDists(prior);
    if filled.Err? {
      return Err(filled.error);
    }
    var ev := filled.value.0;
    var trivial := filled.value.1;
    FillKeepsGluon(prior);
    if "g" !in ev {
      return Err(KeyError);
    }
    FillOnGrid(prior, n);
    var out := RotateFilled(ev, n, trivial);
    r := Ok(out);
  }

  /** The rotation of the filled distributions. */
  method RotateFilled(ev: Dists, n: nat, trivial: seq<string>) returns (out: map<int, seq<real>>)
    requires OnGrid(ev, n)
    ensures out == RotatedAll(ev, n, trivial)
  {
    var lastQuark, lastValence := LastPids(trivial);
    out := RotateKept(ev, n, trivial, lastQuark, lastValence);
    out := CopyAntiquarks(ev, n, trivial, lastQuark, lastValence, out);
  }

  /** out holds exactly the kept pids, each rotated back from the evolution distributions. */
  ghost predicate KeptRotated(out: map<int, seq<real>>, ev: Dists, n: nat, trivial: seq<string>, lastQuark: int, lastValence: int)
    requires OnGrid(ev, n)
  {
    && (forall pid :: pid in out <==> pid in FlavorBasisPids && Kept(pid, lastQuark, lastValence, trivial))
    && (forall pid :: pid in out ==> out[pid] == FlavorValue(ev, n, PidIndex(pid)))
  }

  /** out holds exactly the kept pids among the first j of the flavour basis, each rotated back. */
  ghost predicate KeptBelow(out: map<int, seq<real>>, ev: Dists, n: nat, trivial: seq<string>, lastQuark: int, lastValence: int, j: nat)
    requires OnGrid(ev, n) && j <= 14
  {
    && (forall pid :: pid in out <==> pid in FlavorBasisPids[..j] && Kept(pid, lastQuark, lastValence, trivial))
    && (forall pid :: pid in out ==> pid in FlavorBasisPids && out[pid] == FlavorValue(ev, n, PidIndex(pid)))
  }

  /** One pid of the flavour basis: rotated back when it is kept. */
  lemma KeptStep(out: map<int, seq<real>>, ev: Dists, n: nat, trivial: seq<string>, lastQuark: int, lastValence: int, j: nat)
    requires OnGrid(ev, n) && j < 14 && KeptBelow(out, ev, n, trivial, lastQuark, lastValence, j)
    ensures var pid := FlavorBasisPids[j];
      KeptBelow(if Kept(pid, lastQuark, lastValence, trivial) then out[pid := FlavorValue(ev, n, j)] else out,
                ev, n, trivial, lastQuark, lastValence, j + 1)
  {
    var pid := FlavorBasisPids[j];
    assert FlavorBasisPids[..j + 1] == FlavorBasisPids[..j] + [pid];
    assert PidIndex(pid) == j;
  }

  /** The loop over the flavour basis, rotating back every kept pid. */
  method RotateKept(ev: Dists, n: nat, trivial: seq<string>, lastQuark: int, lastValence: int) returns (out: map<int, seq<real>>)
    requires OnGrid(ev, n) && 3 <= lastValence <= lastQuark <= 6
    ensures KeptRotated(out, ev, n, trivial, lastQuark, lastValence)
  {
    out := map[];
    var j := 0;
    while j < 14
      invariant j <= 14 && KeptBelow(out, ev, n, trivial, lastQuark, lastValence, j)
    {
      KeptStep(out, ev, n, trivial, lastQuark, lastValence, j);
      var pid := FlavorBasisPids[j];
      if Kept(pid, lastQuark, lastValence, trivial) {
        out := out[pid := FlavorValue(ev, n, j)];
      }
      j := j + 1;
    }
    assert FlavorBasisPids[..14] == FlavorBasisPids;
  }

  /** out holds the kept pids and the copied antiquarks below q, each with the distribution of its origin. */
  ghost predicate CopiedBelow(out: map<int, seq<real>>, ev: Dists, n: nat, trivial: seq<string>, lastQuark: int, lastValence: int, q: int)
    requires OnGrid(ev, n) && 3 <= lastValence <= lastQuark <= 6
  {
    && (forall pid :: pid in out <==> pid in FlavorBasisPids && (Kept(pid, lastQuark, lastValence, trivial) || -lastQuark <= pid < q))
    && (forall pid :: pid in out ==> out[pid] == FlavorValue(ev, n, PidIndex(Origin(pid, lastQuark, lastValence))))
  }

  lemma CopyStart(out: map<int, seq<real>>, ev: Dists, n: nat, trivial: seq<string>, lastQuark: int, lastValence: int)
    requires OnGrid(ev, n) && 3 <= lastValence <= lastQuark <= 6
    requires KeptRotated(out, ev, n, trivial, lastQuark, lastValence)
    ensures CopiedBelow(out, ev, n, trivial, lastQuark, lastValence, -lastQuark)
  {
  }

  lemma CopyStep(out: map<int, seq<real>>, ev: Dists, n: nat, trivial: seq<string>, lastQuark: int, lastValence: int, q: int)
    requires OnGrid(ev, n) && 3 <= lastValence <= lastQuark <= 6 && -lastQuark <= q < -lastValence
    requires CopiedBelow(out, ev, n, trivial, lastQuark, lastValence, q)
    ensures -q in out
    ensures CopiedBelow(out[q := out[-q]], ev, n, trivial, lastQuark, lastValence, q + 1)
  {
    FlavorBasisShape();
    assert -q in FlavorBasisPids[8..];
    assert Kept(-q, lastQuark, lastValence, trivial);
    assert q in FlavorBasisPids[1..7];
  }

  lemma CopyDone(out: map<int, seq<real>>, ev: Dists, n: nat, trivial: seq<string>, lastQuark: int, lastValence: int)
    requires OnGrid(ev, n) && 3 <= lastValence <= lastQuark <= 6
    requires CopiedBelow(out, ev, n, trivial, lastQuark, lastValence, -lastValence)
    ensures out == Rotated(ev, n, trivial, lastQuark, lastValence)
  {
    var rot := Rotated(ev, n, trivial, lastQuark, lastValence);
    forall pid
      ensures pid in out <==> pid in rot
    {
      assert pid in rot <==> pid in OutPids(trivial, lastQuark, lastValence);
    }
    assert out == rot;
  }

  /** The loop copying the antiquarks from -lastQuark up to -lastValence from their quarks. */
  method CopyAntiquarks(ev: Dists, n: nat, trivial: seq<string>, lastQuark: int, lastValence: int,
                        kept: map<int, seq<real>>) returns (out: map<int, seq<real>>)
    requires OnGrid(ev, n) && 3 <= lastValence <= lastQuark <= 6
    requires KeptRotated(kept, ev, n, trivial, lastQuark, lastValence)
    ensures out == Rotated(ev, n, trivial, lastQuark, lastValence)
  {
    out := kept;
    var q := -lastQuark;
    CopyStart(out, ev, n, trivial, lastQuark, lastValence);
    while q < -lastValence
      invariant -lastQuark <= q <= -lastValence
      invariant CopiedBelow(out, ev, n, trivial, lastQuark, lastValence, q)
    {
      CopyStep(out, ev, n, trivial, lastQuark, lastValence, q);
      out := out[q := out[-q]];
      q := q + 1;
    }
    CopyDone(out, ev, n, trivial, lastQuark, lastValence);
  }


  /** The pids `rotate_output` returns, for given last quark and valence pids. */
  lemma OutPidsShape(trivial: seq<string>, lastQuark: int, lastValence: int)
    requires 3 <= lastValence <= lastQuark <= 6
    ensures forall pid :: pid in OutPids(trivial, lastQuark, lastValence) ==> pid in FlavorBasisPids
    ensures forall pid :: pid in [21, -3, -2, -1, 1, 2, 3] ==> pid in OutPids(trivial, lastQuark, lastValence)
    ensures 22 in OutPids(trivial, lastQuark, lastValence) <==> "ph" !in trivial
    ensures forall q :: 1 <= q <= 6 ==> (q in OutPids(trivial, lastQuark, lastValence) <==> -q in OutPids(trivial, lastQuark, lastValence))
  {
    FlavorBasisShape();
    forall q | 1 <= q <= 6
      ensures q in OutPids(trivial, lastQuark, lastValence) <==> -q in OutPids(trivial, lastQuark, lastValence)
    {
      assert q in FlavorBasisPids[8..];
      assert -q in FlavorBasisPids[1..7];
    }
    forall pid | pid in [21, -3, -2, -1, 1, 2, 3]
      ensures pid in OutPids(trivial, lastQuark, lastValence)
    {
      assert pid in FlavorBasisPids;
    }
  }

  /** The photon is recorded as trivial exactly when it was not given. */
  lemma PhotonTrivial(prior: Dists)
    requires FillTrivial(prior).Ok?
    ensures "ph" in FillTrivial(prior).value.1 <==> "ph" !in prior
  {
    EvolBasisLabels();
    assert "ph" in EvolBasis;
    FillTrivialKeys(prior);
  }

  /** `rotate_output` fails exactly when S, V or g is missing, with a KeyError. */
  lemma RotateOutputFails(prior: Dists, n: nat)
    requires AllOnGrid(prior, n)
    ensures RotateOutputSpec(prior, n).Err? <==> "S" !in prior || "V" !in prior || "g" !in prior
    ensures RotateOutputSpec(prior, n).Err? ==> RotateOutputSpec(prior, n).error == KeyError
  {
    FillTrivialFails(prior);
  }

  /**
   * A successful `rotate_output` returns flavour pids only, always the gluon
   * and the three light quarks and antiquarks, the photon exactly when it was
   * given, and every antiquark exactly when its quark.
   */
  lemma RotateOutputKeys(prior: Dists, n: nat)
    requires AllOnGrid(prior, n) && RotateOutputSpec(prior, n).Ok?
    ensures var out := RotateOutputSpec(prior, n).value;
      && (forall pid :: pid in out ==> pid in FlavorBasisPids)
      && (forall pid :: pid in [21, -3, -2, -1, 1, 2, 3] ==> pid in out)
      && (22 in out <==> "ph" in prior)
      && (forall q :: 1 <= q <= 6 ==> (q in out <==> -q in out))
  {
    FillOnGrid(prior, n);
    PhotonTrivial(prior);
    var (ev, trivial) := FillTrivial(prior).value;
    RotatedAllPids(ev, n, trivial);
    assert OutShape(RotateOutputSpec(prior, n).value.Keys, "ph" in prior);
  }

  /** `RotatedPids` for the last quark and valence pids the trivial labels give. */
  lemma RotatedAllPids(ev: Dists, n: nat, trivial: seq<string>)
    requires OnGrid(ev, n)
    ensures OutShape(RotatedAll(ev, n, trivial).Keys, "ph" !in trivial)
  {
    LastPidsRange(trivial);
    RotatedPids(ev, n, trivial, LastQuark(trivial), LastValence(trivial));
  }

  /**
   * The pids of a `rotate_output` result: flavour pids only, always the gluon
   * and the three light quarks and antiquarks, the photon exactly when
   * `photon` holds, and every antiquark exactly when its quark.
   */
  predicate OutShape(out: set<int>, photon: bool)
  {
    && (forall pid :: pid in out ==> pid in FlavorBasisPids)
    && (forall pid :: pid in [21, -3, -2, -1, 1, 2, 3] ==> pid in out)
    && (22 in out <==> photon)
    && (forall q :: 1 <= q <= 6 ==> (q in out <==> -q in out))
  }

  /** The pids of the rotated distributions, as `OutPidsShape` gives them. */
  lemma RotatedPids(ev: Dists, n: nat, trivial: seq<string>, lastQuark: int, lastValence: int)
    requires OnGrid(ev, n) && 3 <= lastValence <= lastQuark <= 6
    ensures OutShape(Rotated(ev, n, trivial, lastQuark, lastValence).Keys, "ph" !in trivial)
  {
    OutPidsShape(trivial, lastQuark, lastValence);
    var out := Rotated(ev, n, trivial, lastQuark, lastValence);
    assert out.Keys == OutPids(trivial, lastQuark, lastValence);
  }

  /** A complete set of flavour distributions on n points. */
  ghost predicate Complete(fl: map<int, seq<real>>, n: nat)
  {
    (forall pid :: pid in fl <==> pid in FlavorBasisPids) && forall pid :: pid in fl ==> |fl[pid]| == n
  }

  /** The flavour vector at grid point x. */
  function FlavorColumn(fl: map<int, seq<real>>, n: nat, x: nat): (c: seq<real>)
    requires Complete(fl, n) && x < n
    ensures |c| == 14 && forall j :: 0 <= j < 14 ==> c[j] == fl[FlavorBasisPids[j]][x]
  {
    seq(14, j requires 0 <= j < 14 => fl[FlavorBasisPids[j]][x])
  }

  /** Evolution label k of the flavour distributions, point by point. */
  function EvolValue(fl: map<int, seq<real>>, n: nat, k: nat): (v: seq<real>)
    requires Complete(fl, n) && k < 14
    ensures |v| == n && forall x :: 0 <= x < n ==> v[x] == Dot14(FlavorToEvolution[k], FlavorColumn(fl, n, x))
  {
    seq(n, x requires 0 <= x < n => Dot14(FlavorToEvolution[k], FlavorColumn(fl, n, x)))
  }

  /** The flavour distributions rotated to the evolution basis, every label present. */
  function EvolOf(fl: map<int, seq<real>>, n: nat): (ev: Dists)
    requires Complete(fl, n)
    ensures forall k :: 0 <= k < 14 ==> EvolBasis[k] in ev && ev[EvolBasis[k]] == EvolValue(fl, n, k)
    ensures forall e :: e in ev ==> e in EvolBasis
  {
    EvolBasisLabels();
    map k | 0 <= k < 14 :: EvolBasis[k] := EvolValue(fl, n, k)
  }

  /** Both rotations are 14 by 14. */
  lemma RotationShapes()
    ensures Square14(FlavorToEvolution) && Square14(EvolutionToFlavor)
  {
  }

  /** Every label of the rotated distributions has n points. */
  lemma EvolOnGrid(fl: map<int, seq<real>>, n: nat)
    requires Complete(fl, n)
    ensures OnGrid(EvolOf(fl, n), n)
  {
    var ev := EvolOf(fl, n);
    forall e | e in ev
      ensures |ev[e]| == n
    {
      var k :| 0 <= k < 14 && EvolBasis[k] == e;
    }
  }

  /** The evolution vector of the rotated distributions at a grid point is the rotated flavour vector. */
  lemma ColumnOfEvol(fl: map<int, seq<real>>, n: nat, x: nat)
    requires Complete(fl, n) && x < n
    ensures OnGrid(EvolOf(fl, n), n)
    ensures Column(EvolOf(fl, n), n, x) == Rotate(FlavorToEvolution, FlavorColumn(fl, n, x))
  {
    EvolOnGrid(fl, n);
    var ev := EvolOf(fl, n);
    var c := Column(ev, n, x);
    var r := Rotate(FlavorToEvolution, FlavorColumn(fl, n, x));
    forall e | 0 <= e < 14
      ensures c[e] == r[e]
    {
      assert ev[EvolBasis[e]] == EvolValue(fl, n, e);
    }
  }

  /** Rotating every point of the evolution distributions back gives the flavour distributions. */
  lemma FlavorOfEvol(fl: map<int, seq<real>>, n: nat, j: nat)
    requires Complete(fl, n) && j < 14
    ensures OnGrid(EvolOf(fl, n), n)
    ensures FlavorValue(EvolOf(fl, n), n, j) == fl[FlavorBasisPids[j]]
  {
    EvolOnGrid(fl, n);
    var ev := EvolOf(fl, n);
    forall x | 0 <= x < n
      ensures FlavorValue(ev, n, j)[x] == fl[FlavorBasisPids[j]][x]
    {
      var v := FlavorColumn(fl, n, x);
      ColumnOfEvol(fl, n, x);
      RotationShapes();
      RotationsAreInverse(v);
      var w := Rotate(FlavorToEvolution, v);
      var u := Rotate(EvolutionToFlavor, w);
      assert u[j] == v[j];
    }
  }

  /** With every label present, no label is missing. */
  lemma {:induction false} NoneMissing(ev: Dists, k: nat)
    requires k <= 14 && forall e :: e in EvolBasis ==> e in ev
    ensures Missing(ev, k) == []
  {
    if k > 0 {
      NoneMissing(ev, k - 1);
      assert EvolBasis[k - 1] in EvolBasis;
    }
  }

  /** A complete evolution-basis input has nothing to fill. */
  lemma NothingTrivial(ev: Dists)
    requires forall e :: e in EvolBasis ==> e in ev
    ensures FillTrivial(ev) == Ok((ev, []))
  {
    NoneMissing(ev, 14);
    assert Inserted(ev, []) == ev;
  }

  /**
   * The round trip: distributions given for every flavour, rotated to the
   * evolution basis, come back unchanged from `rotate_output`.
   */
  lemma RotateOutputRoundTrip(fl: map<int, seq<real>>, n: nat)
    requires Complete(fl, n)
    ensures AllOnGrid(EvolOf(fl, n), n)
    ensures RotateOutputSpec(EvolOf(fl, n), n) == Ok(fl)
  {
    EvolOnGrid(fl, n);
    CompleteInput(EvolOf(fl, n), n);
    RotatedComplete(fl, n);
  }

  /** A complete evolution-basis input is rotated with nothing trivial. */
  lemma CompleteInput(ev: Dists, n: nat)
    requires OnGrid(ev, n)
    ensures AllOnGrid(ev, n)
    ensures RotateOutputSpec(ev, n) == Ok(Rotated(ev, n, [], 6, 6))
  {
    EvolBasisLabels();
    NothingTrivial(ev);
    assert "g" in ev;
    NoTrivialCounts(4);
    assert LastQuark([]) == 6 && LastValence([]) == 6;
    assert RotatedAll(ev, n, []) == Rotated(ev, n, [], 6, 6);
  }

  /** With no trivial label, no quark is dropped. */
  lemma {:induction false} NoTrivialCounts(lo: nat)
    requires lo >= 1
    ensures TrivialT([], lo) == 0 && TrivialTV([], lo) == 0
    decreases 7 - lo
  {
    if lo <= 6 {
      NoTrivialCounts(lo + 1);
    }
  }

  /** With nothing trivial, every flavour is rotated back to its own distribution. */
  lemma RotatedComplete(fl: map<int, seq<real>>, n: nat)
    requires Complete(fl, n)
    ensures OnGrid(EvolOf(fl, n), n)
    ensures Rotated(EvolOf(fl, n), n, [], 6, 6) == fl
  {
    EvolOnGrid(fl, n);
    var out := Rotated(EvolOf(fl, n), n, [], 6, 6);
    forall pid | pid in fl
      ensures pid in out && out[pid] == fl[pid]
    {
      var j := PidIndex(pid);
      assert pid in OutPids([], 6, 6);
      FlavorOfEvol(fl, n, j);
    }
    assert out == fl;
  }
}
