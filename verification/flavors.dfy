/**
 * The flavour bookkeeping of the evolution operator: the weights with which
 * the flavour pids contribute to an evolution-basis or intrinsic label, the
 * number of light flavours an operator's labels ask for, and the rotation
 * between the matching basis and the evolution basis at a heavy-quark
 * threshold (the QCD case).
 */
module Flavors {
  import opened Common
  import opened LinAlg
  import opened BasisRotation

  // ---------------------------------------------------------------- rotate_pm_to_flavor

  /** Where the quark named c stands in `quark_names`, if it is one. */
  function QuarkIndex(c: char): (i: nat)
    requires [c] in QuarkNames
    ensures i < 6 && QuarkNames[i] == [c]
  {
    if [c] == QuarkNames[0] then 0
    else if [c] == QuarkNames[1] then 1
    else if [c] == QuarkNames[2] then 2
    else if [c] == QuarkNames[3] then 3
    else if [c] == QuarkNames[4] then 4
    else 5
  }

  /** Whether the label is a quark name followed by + or -, as far as `rotate_pm_to_flavor` looks. */
  predicate IsPmLabel(name: string)
  {
    |name| >= 2 && [name[0]] in QuarkNames && (name[1] == '+' || name[1] == '-')
  }

  /**
   * `rotate_pm_to_flavor`: g and ph keep their evolution-basis row; any
   * other label must start with a quark name and a sign (an IndexError when
   * it is too short for the test, a ValueError when it fails it), and gives
   * 1 at the quark and 1 or -1 at its antiquark.
   */
  function PmToFlavor(name: string): (r: Result<seq<real>>)
    ensures r.Ok? ==> |r.value| == 14
  {
    if name == "g" || name == "ph" then Ok(FlavorToEvolution[if name == "g" then 2 else 0])
    else if |name| == 0 then Err(IndexError)
    else if [name[0]] !in QuarkNames then Err(ValueError)
    else if |name| < 2 then Err(IndexError)
    else if name[1] != '+' && name[1] != '-' then Err(ValueError)
    else
      var i := QuarkIndex(name[0]);
      var sign := if name[1] == '+' then 1.0 else -1.0;
      Ok(seq(14, j => if j == 8 + i then 1.0 else if j == 6 - i then sign else 0.0))
  }

  /** The pid of the quark a pm-label names. */
  function PmPid(name: string): (pid: int)
    requires IsPmLabel(name)
    ensures 1 <= pid <= 6 && QuarkNames[pid - 1] == [name[0]]
  {
    QuarkIndex(name[0]) + 1
  }

  /**
   * `rotate_pm_to_flavor` fails exactly on a label that is neither g, ph
   * nor a pm-label; on a pm-label q+ or q- it weighs the quark's pid by 1,
   * the antiquark's pid by +1 or -1, and every other pid by 0.
   */
  lemma PmToFlavorMeaning(name: string)
    ensures PmToFlavor(name).Ok? <==> name == "g" || name == "ph" || IsPmLabel(name)
    ensures PmToFlavor(name).Err? ==> PmToFlavor(name).error in {IndexError, ValueError}
    ensures name == "g" ==> PmToFlavor(name) == Ok(FlavorToEvolution[2]) && EvolBasis[2] == name
    ensures name == "ph" ==> PmToFlavor(name) == Ok(FlavorToEvolution[0]) && EvolBasis[0] == name
    ensures IsPmLabel(name) ==>
      var w := PmToFlavor(name).value;
      var pid := PmPid(name);
      forall j :: 0 <= j < 14 ==>
        w[j] == (if FlavorBasisPids[j] == pid then 1.0
                 else if FlavorBasisPids[j] == -pid then (if name[1] == '+' then 1.0 else -1.0)
                 else 0.0)
  {
    FlavorBasisShape();
  }

  /** `rotate_pm_to_flavor`, writing into a zeroed array. */
  method RotatePmToFlavor(name: string) returns (r: Result<seq<real>>)
    ensures r == PmToFlavor(name)
  {
    if name == "g" || name == "ph" {
      return Ok(FlavorToEvolution[if name == "g" then 2 else 0]);
    }
    if |name| == 0 {
      return Err(IndexError);
    }
    if [name[0]] !in QuarkNames {
      return Err(ValueError);
    }
    if |name| < 2 {
      return Err(IndexError);
    }
    if name[1] != '+' && name[1] != '-' {
      return Err(ValueError);
    }
    var l := new real[14](_ => 0.0);
    var idx := 8 + QuarkIndex(name[0]);
    l[idx] := 1.0;
    if name[1] == '+' {
      l[14 - idx] := 1.0;
    } else {
      l[14 - idx] := -1.0;
    }
    assert l[..] == PmToFlavor(name).value;
    r := Ok(l[..]);
  }

  // ---------------------------------------------------------------- pids_from_intrinsic_evol

  function Abs(x: int): nat
  {
    if x < 0 then -x else x
  }

  /** A pid of a quark beyond the nf light ones. */
  predicate Heavy(pid: int, nf: int)
  {
    nf < Abs(pid) <= 6
  }

  /** `evol_basis.index(name)`. */
  function EvolIndex(name: string): (k: nat)
    requires name in EvolBasis
    ensures k < 14 && EvolBasis[k] == name
  {
    EvolIndexFrom(name, 0)
  }

  function EvolIndexFrom(name: string, k: nat): (i: nat)
    requires k <= 14 && name in EvolBasis[k..]
    ensures k <= i < 14 && EvolBasis[i] == name
    decreases 14 - k
  {
    if EvolBasis[k] == name then k else EvolIndexFrom(name, k + 1)
  }

  /** The weights before normalisation: the label's row with the heavy pids zeroed, or the pm weights. */
  function IntrinsicRaw(name: string, nf: int): (r: Result<seq<real>>)
    ensures r.Ok? ==> |r.value| == 14
  {
    if name in EvolBasis then
      var row := FlavorToEvolution[EvolIndex(name)];
      Ok(seq(14, j requires 0 <= j < 14 => if Heavy(FlavorBasisPids[j], nf) then 0.0 else row[j]))
    else PmToFlavor(name)
  }

  /** `weights / (weights @ weights)`; an all-zero vector has no norm. */
  function Normalize(w: seq<real>): (r: Result<seq<real>>)
    requires |w| == 14
    ensures r.Ok? ==> |r.value| == 14
  {
    var norm := Dot14(w, w);
    if norm == 0.0 then Err(ZeroDivisionError) else Ok(seq(14, j requires 0 <= j < 14 => w[j] / norm))
  }

  /** `pids_from_intrinsic_evol`. */
  function IntrinsicEvol(name: string, nf: int, normalize: bool): (r: Result<seq<real>>)
    ensures r.Ok? ==> |r.value| == 14
  {
    match IntrinsicRaw(name, nf)
    case Err(e) => Err(e)
    case Ok(w) => if normalize then Normalize(w) else Ok(w)
  }

  /** A vector of the basis size with the heavy flavours removed. */
  function LightPart(v: seq<real>, nf: int): (u: seq<real>)
    requires |v| == 14
    ensures |u| == 14
  {
    seq(14, j requires 0 <= j < 14 => if Heavy(FlavorBasisPids[j], nf) then 0.0 else v[j])
  }

  /**
   * The weights of an evolution-basis label build that label from the light
   * flavours alone: dotted with a flavour vector they give the label's row
   * dotted with the vector's light part, and every heavy pid weighs 0.
   */
  lemma IntrinsicLightOnly(name: string, nf: int, v: seq<real>)
    requires name in EvolBasis && |v| == 14
    ensures IntrinsicRaw(name, nf).Ok?
    ensures Dot14(IntrinsicRaw(name, nf).value, v) == Dot14(FlavorToEvolution[EvolIndex(name)], LightPart(v, nf))
    ensures forall j :: 0 <= j < 14 && Heavy(FlavorBasisPids[j], nf) ==> IntrinsicRaw(name, nf).value[j] == 0.0
  {
    var w := IntrinsicRaw(name, nf).value;
    var row := FlavorToEvolution[EvolIndex(name)];
    var u := LightPart(v, nf);
    MaskedTerms(w, v, row, u, seq(14, j requires 0 <= j < 14 => Heavy(FlavorBasisPids[j], nf)));
    DotToTerms(w, v, row, u, 14);
    DotToAll(w, v);
    DotToAll(row, u);
  }

  /** Masking one factor of each term or the other gives the same terms. */
  lemma MaskedTerms(w: seq<real>, v: seq<real>, row: seq<real>, u: seq<real>, masked: seq<bool>)
    requires |w| == 14 && |v| == 14 && |row| == 14 && |u| == 14 && |masked| == 14
    requires forall j :: 0 <= j < 14 ==> w[j] == (if masked[j] then 0.0 else row[j])
    requires forall j :: 0 <= j < 14 ==> u[j] == (if masked[j] then 0.0 else v[j])
    ensures forall j :: 0 <= j < 14 ==> w[j] * v[j] == row[j] * u[j]
  {
  }

  /** A label outside the evolution basis takes the pm weights. */
  lemma IntrinsicOtherLabels(name: string, nf: int)
    requires name !in EvolBasis
    ensures IntrinsicRaw(name, nf) == PmToFlavor(name)
  {
  }

  /** The dot product of the first k entries. */
  function DotTo(a: seq<real>, b: seq<real>, k: nat): real
    requires k <= |a| && k <= |b|
  {
    if k == 0 then 0.0 else DotTo(a, b, k - 1) + a[k - 1] * b[k - 1]
  }

  lemma DotToAll(a: seq<real>, b: seq<real>)
    requires |a| == 14 && |b| == 14
    ensures Dot14(a, b) == DotTo(a, b, 14)
  {
    assert DotTo(a, b, 1) == a[0] * b[0];
    assert DotTo(a, b, 2) == DotTo(a, b, 1) + a[1] * b[1];
    assert DotTo(a, b, 3) == DotTo(a, b, 2) + a[2] * b[2];
    assert DotTo(a, b, 4) == DotTo(a, b, 3) + a[3] * b[3];
    assert DotTo(a, b, 5) == DotTo(a, b, 4) + a[4] * b[4];
    assert DotTo(a, b, 6) == DotTo(a, b, 5) + a[5] * b[5];
    assert DotTo(a, b, 7) == DotTo(a, b, 6) + a[6] * b[6];
    assert DotTo(a, b, 8) == DotTo(a, b, 7) + a[7] * b[7];
    assert DotTo(a, b, 9) == DotTo(a, b, 8) + a[8] * b[8];
    assert DotTo(a, b, 10) == DotTo(a, b, 9) + a[9] * b[9];
    assert DotTo(a, b, 11) == DotTo(a, b, 10) + a[10] * b[10];
    assert DotTo(a, b, 12) == DotTo(a, b, 11) + a[11] * b[11];
    assert DotTo(a, b, 13) == DotTo(a, b, 12) + a[12] * b[12];
  }

  /** Dot products agree when their terms do. */
  lemma {:induction false} DotToTerms(a: seq<real>, b: seq<real>, c: seq<real>, d: seq<real>, k: nat)
    requires k <= |a| && k <= |b| && k <= |c| && k <= |d|
    requires forall j :: 0 <= j < k ==> a[j] * b[j] == c[j] * d[j]
    ensures DotTo(a, b, k) == DotTo(c, d, k)
  {
    if k > 0 {
      DotToTerms(a, b, c, d, k - 1);
    }
  }

  /** Scaling one side scales the dot product. */
  lemma {:induction false} DotToScaled(u: seq<real>, w: seq<real>, c: real, k: nat)
    requires |u| == 14 && |w| == 14 && k <= 14
    requires forall j :: 0 <= j < 14 ==> u[j] == c * w[j]
    ensures DotTo(u, w, k) == c * DotTo(w, w, k)
  {
    if k > 0 {
      DotToScaled(u, w, c, k - 1);
      assert u[k - 1] * w[k - 1] == c * (w[k - 1] * w[k - 1]);
    }
  }

  /**
   * Normalising fails exactly when the norm w.w vanishes; otherwise the
   * normalised weights dotted with the raw weights give 1.
   */
  lemma NormalizeMeaning(w: seq<real>)
    requires |w| == 14
    ensures Normalize(w).Err? <==> Dot14(w, w) == 0.0
    ensures Normalize(w).Ok? ==> Dot14(Normalize(w).value, w) == 1.0
  {
    var norm := Dot14(w, w);
    if norm != 0.0 {
      var u := Normalize(w).value;
      var inv := 1.0 / norm;
      assert forall j :: 0 <= j < 14 ==> u[j] == inv * w[j];
      DotToScaled(u, w, inv, 14);
      DotToAll(u, w);
      DotToAll(w, w);
      assert inv * norm == 1.0;
    }
  }

  /** The copy of a basis row with the entries of the pids heavier than nf set to zero, in a loop. */
  method DropHeavy(row: seq<real>, nf: int) returns (ws: seq<real>)
    requires |row| == 14
    ensures |ws| == 14 && forall i :: 0 <= i < 14 ==> ws[i] == if Heavy(FlavorBasisPids[i], nf) then 0.0 else row[i]
  {
    var w := new real[14](j requires 0 <= j < 14 => row[j]);
    for j := 0 to 14
      invariant forall i :: 0 <= i < 14 ==> w[i] == (if i < j && Heavy(FlavorBasisPids[i], nf) then 0.0 else row[i])
    {
      if nf < Abs(FlavorBasisPids[j]) <= 6 {
        w[j] := 0.0;
      }
    }
    ws := w[..];
  }

  /** `pids_from_intrinsic_evol`: copy the row and zero the heavy pids in a loop. */
  method PidsFromIntrinsicEvol(name: string, nf: int, normalize: bool) returns (r: Result<seq<real>>)
    ensures r == IntrinsicEvol(name, nf, normalize)
  {
    var weights: seq<real>;
    if name in EvolBasis {
      weights := DropHeavy(FlavorToEvolution[EvolIndex(name)], nf);
      assert weights == IntrinsicRaw(name, nf).value;
    } else {
      var pm := RotatePmToFlavor(name);
      if pm.Err? {
        return Err(pm.error);
      }
      weights := pm.value;
    }
    if normalize {
      var norm := Dot14(weights, weights);
      if norm == 0.0 {
        return Err(ZeroDivisionError);
      }
      weights := seq(14, j requires 0 <= j < 14 => weights[j] / norm);
    }
    r := Ok(weights);
  }

  // ---------------------------------------------------------------- get_range

  /** The label of an operator member: the input and the target evolution labels. */
  datatype MemberLabel = MemberLabel(input: string, target: string)

  /** The value of a non-empty string of decimal digits; anything else does not parse. */
  function DigitsValue(s: string): Option<nat>
    decreases |s|
  {
    if |s| == 0 || !('0' <= s[|s| - 1] <= '9') then None
    else if |s| == 1 then Some((s[0] as int) - ('0' as int))
    else match DigitsValue(s[..|s| - 1])
      case None => None
      case Some(v) => Some(10 * v + ((s[|s| - 1] as int) - ('0' as int)))
  }

  /** Printing a natural number and parsing it back gives the number. */
  lemma {:induction false} DigitsRoundTrip(n: nat)
    ensures DigitsValue(NatToString(n)) == Some(n)
    decreases n
  {
    var s := NatToString(n);
    if n >= 10 {
      DigitsRoundTrip(n / 10);
      assert s[..|s| - 1] == NatToString(n / 10);
    }
  }

  /** The nearest integer to the square root of m, searching upwards from r. */
  function RoundSqrtFrom(m: nat, r: nat): (s: nat)
    requires r * r - r < m
    ensures (2 * s - 1) * (2 * s - 1) < 4 * m < (2 * s + 1) * (2 * s + 1)
    decreases m - r
  {
    if m <= r * r + r then
      RoundSqrtAt(m, r);
      r
    else
      NextSquareStep(r);
      RoundSqrtFrom(m, r + 1)
  }

  /** r is the nearest integer to the square root of m when r * r - r < m <= r * r + r. */
  lemma RoundSqrtAt(m: nat, r: nat)
    requires r * r - r < m <= r * r + r
    ensures (2 * r - 1) * (2 * r - 1) < 4 * m < (2 * r + 1) * (2 * r + 1)
  {
    assert (2 * r - 1) * (2 * r - 1) == 4 * (r * r) - 4 * r + 1;
    assert (2 * r + 1) * (2 * r + 1) == 4 * (r * r) + 4 * r + 1;
  }

  /** The search's lower bound moves up by one step. */
  lemma NextSquareStep(r: nat)
    ensures (r + 1) * (r + 1) - (r + 1) == r * r + r
  {
  }

  /** `round(sqrt(m))`: the integer s with s - 1/2 < sqrt(m) < s + 1/2. */
  function RoundSqrt(m: nat): (s: nat)
    requires m >= 1
    ensures (2 * s - 1) * (2 * s - 1) < 4 * m < (2 * s + 1) * (2 * s + 1)
  {
    RoundSqrtFrom(m, 0)
  }

  /** Only one integer is that close to a square root. */
  lemma RoundSqrtUnique(m: nat, s: nat, t: nat)
    requires (2 * s - 1) * (2 * s - 1) < 4 * m < (2 * s + 1) * (2 * s + 1)
    requires (2 * t - 1) * (2 * t - 1) < 4 * m < (2 * t + 1) * (2 * t + 1)
    ensures s == t
  {
    if s < t {
      assert 2 * s + 1 <= 2 * t - 1;
      MonotoneSquare(2 * s + 1, 2 * t - 1);
    } else if t < s {
      assert 2 * t + 1 <= 2 * s - 1;
      MonotoneSquare(2 * t + 1, 2 * s - 1);
    }
  }

  lemma MonotoneSquare(a: int, b: int)
    requires 0 <= a <= b
    ensures a * a <= b * b
  {
    assert a * a <= a * b;
    assert a * b <= b * b;
  }

  /** The square root of a perfect square rounds to its root. */
  lemma RoundSqrtOfSquare(k: nat)
    requires k >= 1
    ensures RoundSqrt(k * k) == k
  {
    var s := RoundSqrt(k * k);
    assert (2 * k - 1) * (2 * k - 1) == 4 * (k * k) - 4 * k + 1;
    assert (2 * k + 1) * (2 * k + 1) == 4 * (k * k) + 4 * k + 1;
    RoundSqrtUnique(k * k, s, k);
  }

  /**
   * The `update` helper of `get_range`: the number of flavours a label
   * asks for. A T-label Tn asks for round(sqrt(n + 1)) (a ValueError when n
   * does not parse); in the QED case the T-labels d3, u3, d8 and u8 ask for
   * 3, 4, 5 and 6 and any other is a ValueError; every other label asks for
   * 3.
   */
  function UpdateNf(name: string, isQed: bool): (r: Result<int>)
  {
    if |name| == 0 then Err(IndexError)
    else if name[0] != 'T' then Ok(3)
    else if !isQed then
      match DigitsValue(name[1..])
      case None => Err(ValueError)
      case Some(n) => Ok(RoundSqrt(n + 1))
    else if name[1..] == "d3" then Ok(3)
    else if name[1..] == "u3" then Ok(4)
    else if name[1..] == "d8" then Ok(5)
    else if name[1..] == "u8" then Ok(6)
    else Err(ValueError)
  }

  /** In the QCD case the label T{k^2 - 1} asks for exactly k flavours; so T15 asks for 4. */
  lemma UpdateNfInvertsLabel(k: nat)
    requires k >= 1
    ensures UpdateNf(TLabel(k), false) == Ok(k)
    ensures UpdateNf("T15", false) == Ok(4)
  {
    var name := TLabel(k);
    assert name[1..] == NatToString(k * k - 1);
    DigitsRoundTrip(k * k - 1);
    RoundSqrtOfSquare(k);
    assert "T15" == TLabel(4) by {
      assert NatToString(15) == "15";
    }
    RoundSqrtOfSquare(4);
  }

  function Max(a: int, b: int): int
  {
    if a >= b then a else b
  }

  /** The fold of `get_range` over the first k members, starting from 3 and 3. */
  function RangeOver(ops: seq<MemberLabel>, isQed: bool, k: nat): Result<(int, int)>
    requires k <= |ops|
  {
    if k == 0 then Ok((3, 3))
    else
      match RangeOver(ops, isQed, k - 1)
      case Err(e) => Err(e)
      case Ok((nfIn, nfOut)) =>
        match UpdateNf(ops[k - 1].input, isQed)
        case Err(e) => Err(e)
        case Ok(a) =>
          match UpdateNf(ops[k - 1].target, isQed)
          case Err(e) => Err(e)
          case Ok(b) => Ok((Max(a, nfIn), Max(b, nfOut)))
  }

  /** `get_range`. */
  function GetRangeSpec(ops: seq<MemberLabel>, isQed: bool): Result<(int, int)>
  {
    RangeOver(ops, isQed, |ops|)
  }

  /** What member i's input (or target) label asks for, 0 when its update fails. */
  function Asked(ops: seq<MemberLabel>, isQed: bool, ofTarget: bool, i: nat): int
    requires i < |ops|
  {
    var r := UpdateNf(if ofTarget then ops[i].target else ops[i].input, isQed);
    if r.Ok? then r.value else 0
  }

  /** nf is 3 or the largest count the first k input (or target) labels ask for. */
  predicate IsRangeMax(nf: int, ops: seq<MemberLabel>, isQed: bool, ofTarget: bool, k: nat)
    requires k <= |ops|
  {
    && nf >= 3
    && (forall i :: 0 <= i < k ==> Asked(ops, isQed, ofTarget, i) <= nf)
    && (nf == 3 || exists i :: 0 <= i < k && Asked(ops, isQed, ofTarget, i) == nf)
  }

  /** `get_range` fails exactly when some label's update fails. */
  lemma {:induction false} GetRangeFails(ops: seq<MemberLabel>, isQed: bool, k: nat)
    requires k <= |ops|
    ensures RangeOver(ops, isQed, k).Ok? <==>
      forall i :: 0 <= i < k ==> UpdateNf(ops[i].input, isQed).Ok? && UpdateNf(ops[i].target, isQed).Ok?
  {
    if k > 0 {
      GetRangeFails(ops, isQed, k - 1);
    }
  }

  /**
   * A successful `get_range` gives for the input count 3 or the largest
   * count any input label asks for, and for the output count the same over
   * the target labels.
   */
  lemma {:induction false} GetRangeMeaning(ops: seq<MemberLabel>, isQed: bool, k: nat)
    requires k <= |ops| && RangeOver(ops, isQed, k).Ok?
    ensures IsRangeMax(RangeOver(ops, isQed, k).value.0, ops, isQed, false, k)
    ensures IsRangeMax(RangeOver(ops, isQed, k).value.1, ops, isQed, true, k)
  {
    if k > 0 {
      GetRangeMeaning(ops, isQed, k - 1);
      var (nfIn, nfOut) := RangeOver(ops, isQed, k - 1).value;
      var a := Asked(ops, isQed, false, k - 1);
      var b := Asked(ops, isQed, true, k - 1);
      assert RangeOver(ops, isQed, k).value == (Max(a, nfIn), Max(b, nfOut));
      RangeMaxStep(nfIn, ops, isQed, false, k);
      RangeMaxStep(nfOut, ops, isQed, true, k);
    }
  }

  /** Taking the larger of the maximum so far and what member k - 1 asks for extends the maximum by one member. */
  lemma RangeMaxStep(nf: int, ops: seq<MemberLabel>, isQed: bool, ofTarget: bool, k: nat)
    requires 0 < k <= |ops| && IsRangeMax(nf, ops, isQed, ofTarget, k - 1)
    ensures IsRangeMax(Max(Asked(ops, isQed, ofTarget, k - 1), nf), ops, isQed, ofTarget, k)
  {
    var a := Asked(ops, isQed, ofTarget, k - 1);
    if nf != 3 && a <= nf {
      var i :| 0 <= i < k - 1 && Asked(ops, isQed, ofTarget, i) == nf;
    }
  }

  /** `get_range`, updating the two maxima in a loop. */
  method GetRange(ops: seq<MemberLabel>, isQed: bool) returns (r: Result<(int, int)>)
    ensures r == GetRangeSpec(ops, isQed)
  {
    var nfIn, nfOut := 3, 3;
    var k := 0;
    while k < |ops|
      invariant k <= |ops|
      invariant RangeOver(ops, isQed, k) == Ok((nfIn, nfOut))
    {
      var a := UpdateNf(ops[k].input, isQed);
      if a.Err? {
        ErrorSticks(ops, isQed, k + 1);
        return Err(a.error);
      }
      nfIn := Max(a.value, nfIn);
      var b := UpdateNf(ops[k].target, isQed);
      if b.Err? {
        ErrorSticks(ops, isQed, k + 1);
        return Err(b.error);
      }
      nfOut := Max(b.value, nfOut);
      k := k + 1;
    }
    r := Ok((nfIn, nfOut));
  }

  /** Once the fold fails it stays failed with the same error. */
  lemma {:induction false} ErrorSticks(ops: seq<MemberLabel>, isQed: bool, k: nat)
    requires k <= |ops| && RangeOver(ops, isQed, k).Err?
    ensures RangeOver(ops, isQed, |ops|) == RangeOver(ops, isQed, k)
    decreases |ops| - k
  {
    if k < |ops| {
      ErrorSticks(ops, isQed, k + 1);
    }
  }

  // ---------------------------------------------------------------- rotate_matching

  /** Python's `str(i)` of an integer. */
  function IntStr(i: int): (s: string)
    ensures '.' !in s && |s| > 0
  {
    if i < 0 then "-" + NatToString(-i) else NatToString(i)
  }

  /** The dict key "a.b" of the entry from b to a. */
  function Dotted(a: string, b: string): string
  {
    a + "." + b
  }

  /** A diagonal entry's key "x.x". */
  function Diag(x: string): string
  {
    Dotted(x, x)
  }

  /** The part of a key before its first dot. */
  function Before(key: string): string
  {
    if '.' in key then key[..IndexOfChar(key, '.')] else key
  }

  /** The part of a key after its first dot. */
  function After(key: string): string
  {
    if '.' in key then key[IndexOfChar(key, '.') + 1..] else ""
  }

  /** A key splits back into its two labels when the first has no dot. */
  lemma DottedSplit(a: string, b: string)
    requires '.' !in a
    ensures Before(Dotted(a, b)) == a && After(Dotted(a, b)) == b
  {
    var key := Dotted(a, b);
    assert key[|a|] == '.';
    var i := IndexOfChar(key, '.');
    assert forall j :: 0 <= j < |a| ==> key[j] == a[j];
    assert i <= |a| by {
      assert key[..i + 1][i] == '.';
    }
    assert key[..|a|] == a;
    assert key[|a| + 1..] == b;
  }

  /** `DottedSplit` for every pair of labels. */
  lemma DottedParts()
    ensures forall a, b {:trigger Dotted(a, b)} :: '.' !in a ==> Before(Dotted(a, b)) == a && After(Dotted(a, b)) == b
  {
    forall a, b | '.' !in a
      ensures Before(Dotted(a, b)) == a && After(Dotted(a, b)) == b
    {
      DottedSplit(a, b);
    }
  }

  /** `quark_names[i]` with Python's negative indices. */
  function PyQuark(i: int): string
    requires -6 <= i < 6
  {
    QuarkNames[if i < 0 then i + 6 else i]
  }

  /** The valence-like label V{k^2 - 1}. */
  function VName(k: int): string
  {
    "V" + IntStr(k * k - 1)
  }

  /** The singlet-like label T{k^2 - 1}. */
  function TName(k: int): string
  {
    "T" + IntStr(k * k - 1)
  }

  /** The gluon and the photon entries. */
  const GluonPhoton: map<string, real> := map[Diag("g") := 1.0, Diag("ph") := 1.0]

  /** The diagonal V and T entries of the already active flavours 2 <= j < k. */
  function LightDiag(k: int): map<string, real>
    decreases k
  {
    if k <= 2 then map[] else LightDiag(k - 1)[Diag(VName(k - 1)) := 1.0][Diag(TName(k - 1)) := 1.0]
  }

  /** The entries of one new-flavour block: tot with its T or V partner oth and the new quark's qpm. */
  function BlockFor(tot: string, oth: string, qpm: string, nf: int, inverse: bool): map<string, real>
    requires !(inverse && nf == 0)
  {
    var f := nf as real;
    if inverse then
      map[Dotted(tot, tot) := (f - 1.0) / f, Dotted(tot, oth) := 1.0 / f,
          Dotted(qpm, tot) := 1.0 / f, Dotted(qpm, oth) := -1.0 / f]
    else
      map[Dotted(tot, tot) := 1.0, Dotted(tot, qpm) := 1.0,
          Dotted(oth, tot) := 1.0, Dotted(oth, qpm) := -(f - 1.0)]
  }

  /** The two new-flavour blocks, singlet then valence, for the quark q. */
  function Blocks(nf: int, inverse: bool, q: string): map<string, real>
    requires !(inverse && nf == 0)
  {
    BlockFor("S", TName(nf), q + "+", nf, inverse) + BlockFor("V", VName(nf), q + "-", nf, inverse)
  }

  /** The diagonal q+ and q- entries of the heavier quarks nf < j < k. */
  function HeavyDiag(nf: int, k: int): map<string, real>
    requires nf >= -5 && k <= 7
    decreases k - nf
  {
    if k <= nf + 1 then map[]
    else
      var q := PyQuark(k - 2);
      HeavyDiag(nf, k - 1)[Diag(q + "+") := 1.0][Diag(q + "-") := 1.0]
  }

  /**
   * `rotate_matching` in the QCD case: quark_names[nf - 1] must exist (an
   * IndexError otherwise), the inverse divides by nf (a ZeroDivisionError at
   * nf = 0), and the entries are the gluon and photon, the active V and T
   * labels, the two new-flavour blocks and the heavier quarks, in this order.
   */
  function Matching(nf: int, inverse: bool): Result<map<string, real>>
  {
    if nf > 6 || nf < -5 then Err(IndexError)
    else if inverse && nf == 0 then Err(ZeroDivisionError)
    else Ok(GluonPhoton + LightDiag(nf) + Blocks(nf, inverse, PyQuark(nf - 1)) + HeavyDiag(nf, 7))
  }

  /** One new-flavour block, written entry by entry. */
  method SetBlock(l: map<string, real>, tot: string, oth: string, qpm: string, nf: int, inverse: bool)
    returns (l': map<string, real>)
    requires !(inverse && nf == 0)
    ensures l' == l + BlockFor(tot, oth, qpm, nf, inverse)
  {
    var f := nf as real;
    if inverse {
      l' := l[Dotted(tot, tot) := (f - 1.0) / f];
      l' := l'[Dotted(tot, oth) := 1.0 / f];
      l' := l'[Dotted(qpm, tot) := 1.0 / f];
      l' := l'[Dotted(qpm, oth) := -1.0 / f];
    } else {
      l' := l[Dotted(tot, tot) := 1.0];
      l' := l'[Dotted(tot, qpm) := 1.0];
      l' := l'[Dotted(oth, tot) := 1.0];
      l' := l'[Dotted(oth, qpm) := -(f - 1.0)];
    }
  }

  /** Adding an entry after a union is adding it to the right operand. */
  lemma UnionUpdate(a: map<string, real>, b: map<string, real>, key: string, v: real)
    ensures a + b[key := v] == (a + b)[key := v]
  {
  }

  /** Map union is associative. */
  lemma UnionAssoc(a: map<string, real>, b: map<string, real>, c: map<string, real>)
    ensures (a + b) + c == a + (b + c)
  {
  }

  /** The gluon, photon and active V and T entries, as the first loop leaves them. */
  method LightEntries(nf: int) returns (l: map<string, real>)
    ensures l == GluonPhoton + LightDiag(nf)
  {
    l := GluonPhoton;
    var k := 2;
    while k < nf
      invariant 2 <= k && (k <= nf || k == 2)
      invariant l == GluonPhoton + LightDiag(k)
    {
      UnionUpdate(GluonPhoton, LightDiag(k), Diag(VName(k)), 1.0);
      UnionUpdate(GluonPhoton, LightDiag(k)[Diag(VName(k)) := 1.0], Diag(TName(k)), 1.0);
      l := l[Diag(VName(k)) := 1.0];
      l := l[Diag(TName(k)) := 1.0];
      k := k + 1;
    }
  }

  /** The heavier quarks' entries added by the last loop. */
  method HeavyEntries(l0: map<string, real>, nf: int) returns (l: map<string, real>)
    requires -5 <= nf <= 6
    ensures l == l0 + HeavyDiag(nf, 7)
  {
    l := l0;
    var j := nf + 1;
    while j < 7
      invariant nf + 1 <= j <= 7
      invariant l == l0 + HeavyDiag(nf, j)
    {
      var h := PyQuark(j - 1);
      UnionUpdate(l0, HeavyDiag(nf, j), Diag(h + "+"), 1.0);
      UnionUpdate(l0, HeavyDiag(nf, j)[Diag(h + "+") := 1.0], Diag(h + "-"), 1.0);
      l := l[Diag(h + "+") := 1.0];
      l := l[Diag(h + "-") := 1.0];
      j := j + 1;
    }
  }

  /** `rotate_matching` with `is_qed` false, filling the dict step by step. */
  method RotateMatching(nf: int, inverse: bool) returns (r: Result<map<string, real>>)
    ensures r == Matching(nf, inverse)
  {
    if nf > 6 || nf < -5 {
      return Err(IndexError);
    }
    var q := PyQuark(nf - 1);
    var l := LightEntries(nf);
    if inverse && nf == 0 {
      return Err(ZeroDivisionError);
    }
    var light := l;
    l := SetBlock(l, "S", TName(nf), q + "+", nf, inverse);
    l := SetBlock(l, "V", VName(nf), q + "-", nf, inverse);
    UnionAssoc(light, BlockFor("S", TName(nf), q + "+", nf, inverse), BlockFor("V", VName(nf), q + "-", nf, inverse));
    l := HeavyEntries(l, nf);
    r := Ok(l);
  }

  /** `rotate_matching_inverse`. */
  method RotateMatchingInverse(nf: int) returns (r: Result<map<string, real>>)
    ensures r == Matching(nf, true)
  {
    r := RotateMatching(nf, true);
  }

  /** A diagonal entry key whose label starts with V or T and is longer than one character. */
  predicate LongDiagKey(key: string)
  {
    Before(key) == After(key) && |Before(key)| >= 2 && Before(key)[0] in "VT"
  }

  /** A diagonal entry key whose label is a quark name followed by a sign. */
  predicate QuarkDiagKey(key: string)
  {
    Before(key) == After(key) && |Before(key)| == 2 && Before(key)[0] in "dusctb"
  }

  /** The active V and T entries are diagonal and equal to one. */
  lemma {:induction false} LightDiagKeys(k: int)
    ensures forall key :: key in LightDiag(k) ==> LightDiag(k)[key] == 1.0 && LongDiagKey(key)
    decreases k
  {
    if k > 2 {
      LightDiagKeys(k - 1);
      DottedParts();
      var v, t := VName(k - 1), TName(k - 1);
      assert v[0] == 'V' && '.' !in v;
      assert t[0] == 'T' && '.' !in t;
      assert Before(Diag(v)) == v && After(Diag(v)) == v;
      assert Before(Diag(t)) == t && After(Diag(t)) == t;
    }
  }

  /** The V and T entries of every 2 <= j < k are there. */
  lemma {:induction false} LightDiagHas(k: int, j: int)
    requires 2 <= j < k
    ensures Diag(VName(j)) in LightDiag(k) && Diag(TName(j)) in LightDiag(k)
    decreases k
  {
    if j < k - 1 {
      LightDiagHas(k - 1, j);
    }
  }

  /** Quark j's label with a sign, j counted from one. */
  function HeavyName(j: int, sign: string): string
    requires 1 <= j <= 6
  {
    QuarkNames[j - 1] + sign
  }

  /** The heavier quarks' entries are diagonal and equal to one. */
  lemma {:induction false} HeavyDiagKeys(nf: int, k: int)
    requires nf >= -5 && k <= 7
    ensures forall key :: key in HeavyDiag(nf, k) ==> HeavyDiag(nf, k)[key] == 1.0 && QuarkDiagKey(key)
    decreases k - nf
  {
    if k > nf + 1 {
      HeavyDiagKeys(nf, k - 1);
      var q := PyQuark(k - 2);
      SignedQuarkDiag(q, "+");
      SignedQuarkDiag(q, "-");
    }
  }

  /** A quark name with a sign, paired with itself, is a quark diagonal key. */
  lemma SignedQuarkDiag(q: string, sign: string)
    requires q in QuarkNames && (sign == "+" || sign == "-")
    ensures QuarkDiagKey(Diag(q + sign))
  {
    assert |q| == 1 && q[0] in "dusctb";
    var p := q + sign;
    assert '.' !in p;
    DottedSplit(p, p);
  }

  /** Both signs of every heavier quark nf < j < k are there. */
  lemma {:induction false} HeavyDiagHas(nf: int, k: int, j: int)
    requires nf >= -5 && k <= 7 && 1 <= j && nf < j < k
    ensures Diag(HeavyName(j, "+")) in HeavyDiag(nf, k) && Diag(HeavyName(j, "-")) in HeavyDiag(nf, k)
    decreases k - nf
  {
    if j < k - 1 {
      HeavyDiagHas(nf, k - 1, j);
    }
  }

  /** One block's keys are off the diagonal except tot.tot, when its three labels differ. */
  lemma BlockForKeys(tot: string, oth: string, qpm: string, nf: int, inverse: bool)
    requires !(inverse && nf == 0)
    requires '.' !in tot && '.' !in oth && '.' !in qpm && tot != oth && tot != qpm && oth != qpm
    ensures forall key :: key in BlockFor(tot, oth, qpm, nf, inverse) ==> Before(key) != After(key) || Before(key) == tot
  {
    DottedSplit(tot, tot);
    if inverse {
      DottedSplit(tot, oth);
      DottedSplit(qpm, tot);
      DottedSplit(qpm, oth);
    } else {
      DottedSplit(tot, qpm);
      DottedSplit(oth, tot);
      DottedSplit(oth, qpm);
    }
  }

  /** Every key of the new-flavour blocks is off the diagonal, or is S.S or V.V. */
  lemma BlockKeys(nf: int, inverse: bool, q: string)
    requires !(inverse && nf == 0) && q in QuarkNames
    ensures forall key :: key in Blocks(nf, inverse, q) ==> Before(key) != After(key) || Before(key) in {"S", "V"}
  {
    var tn, vn, p, m := TName(nf), VName(nf), q + "+", q + "-";
    assert tn[0] == 'T' && '.' !in tn && |tn| >= 2;
    assert vn[0] == 'V' && '.' !in vn && |vn| >= 2;
    assert |q| == 1 && q[0] in "dusctb" && '.' !in q;
    assert '.' !in p && '.' !in m && p[0] == q[0] && m[0] == q[0];
    BlockForKeys("S", tn, p, nf, inverse);
    BlockForKeys("V", vn, m, nf, inverse);
  }

  /** An entry of one that no block overrides and the heavy entries keep at one. */
  lemma UnitEntry(light: map<string, real>, blocks: map<string, real>, heavy: map<string, real>, key: string)
    requires key in light && light[key] == 1.0 && key !in blocks
    requires key in heavy ==> heavy[key] == 1.0
    ensures key in light + blocks + heavy && (light + blocks + heavy)[key] == 1.0
  {
  }

  /**
   * Outside the new-flavour blocks the matching matrix is the identity: the
   * gluon, the photon, the already active V and T labels and both signs of
   * every heavier quark map to themselves with weight one.
   */
  lemma MatchingDiagonal(nf: int, inverse: bool)
    requires 1 <= nf <= 6
    ensures Matching(nf, inverse).Ok?
    ensures var l := Matching(nf, inverse).value;
      Diag("g") in l && l[Diag("g")] == 1.0 && Diag("ph") in l && l[Diag("ph")] == 1.0
      && (forall k :: 2 <= k < nf ==>
            Diag(VName(k)) in l && l[Diag(VName(k))] == 1.0 && Diag(TName(k)) in l && l[Diag(TName(k))] == 1.0)
      && (forall j :: nf < j <= 6 ==>
            Diag(HeavyName(j, "+")) in l && l[Diag(HeavyName(j, "+"))] == 1.0
            && Diag(HeavyName(j, "-")) in l && l[Diag(HeavyName(j, "-"))] == 1.0)
  {
    MatchingDiagonalBosons(nf, inverse);
    MatchingDiagonalLight(nf, inverse);
    MatchingDiagonalHeavy(nf, inverse);
  }

  /** The gluon and the photon are kept by the matching. */
  lemma MatchingDiagonalBosons(nf: int, inverse: bool)
    requires 1 <= nf <= 6
    ensures Matching(nf, inverse).Ok?
    ensures var l := Matching(nf, inverse).value;
      Diag("g") in l && l[Diag("g")] == 1.0 && Diag("ph") in l && l[Diag("ph")] == 1.0
  {
    var q := PyQuark(nf - 1);
    var light, blocks, heavy := GluonPhoton + LightDiag(nf), Blocks(nf, inverse, q), HeavyDiag(nf, 7);
    assert Matching(nf, inverse).value == light + blocks + heavy;
    LightDiagKeys(nf);
    HeavyDiagKeys(nf, 7);
    BlockKeys(nf, inverse, q);
    DottedSplit("g", "g");
    DottedSplit("ph", "ph");
    UnitEntry(light, blocks, heavy, Diag("g"));
    UnitEntry(light, blocks, heavy, Diag("ph"));
  }

  /** The active V and T labels are kept by the matching. */
  lemma MatchingDiagonalLight(nf: int, inverse: bool)
    requires 1 <= nf <= 6
    ensures Matching(nf, inverse).Ok?
    ensures var l := Matching(nf, inverse).value;
      forall k :: 2 <= k < nf ==>
        Diag(VName(k)) in l && l[Diag(VName(k))] == 1.0 && Diag(TName(k)) in l && l[Diag(TName(k))] == 1.0
  {
    var q := PyQuark(nf - 1);
    var light, blocks, heavy := GluonPhoton + LightDiag(nf), Blocks(nf, inverse, q), HeavyDiag(nf, 7);
    assert Matching(nf, inverse).value == light + blocks + heavy;
    LightDiagKeys(nf);
    HeavyDiagKeys(nf, 7);
    BlockKeys(nf, inverse, q);
    forall k | 2 <= k < nf
      ensures Diag(VName(k)) in light + blocks + heavy && (light + blocks + heavy)[Diag(VName(k))] == 1.0
      ensures Diag(TName(k)) in light + blocks + heavy && (light + blocks + heavy)[Diag(TName(k))] == 1.0
    {
      LightDiagHas(nf, k);
      assert LongDiagKey(Diag(VName(k))) && LongDiagKey(Diag(TName(k)));
      UnitEntry(light, blocks, heavy, Diag(VName(k)));
      UnitEntry(light, blocks, heavy, Diag(TName(k)));
    }
  }

  /** Both signs of every heavier quark are kept by the matching. */
  lemma MatchingDiagonalHeavy(nf: int, inverse: bool)
    requires 1 <= nf <= 6
    ensures Matching(nf, inverse).Ok?
    ensures var l := Matching(nf, inverse).value;
      forall j :: nf < j <= 6 ==>
        Diag(HeavyName(j, "+")) in l && l[Diag(HeavyName(j, "+"))] == 1.0
        && Diag(HeavyName(j, "-")) in l && l[Diag(HeavyName(j, "-"))] == 1.0
  {
    var heavy := HeavyDiag(nf, 7);
    assert Matching(nf, inverse).value == GluonPhoton + LightDiag(nf) + Blocks(nf, inverse, PyQuark(nf - 1)) + heavy;
    HeavyDiagKeys(nf, 7);
    forall j | nf < j <= 6
      ensures Diag(HeavyName(j, "+")) in heavy && Diag(HeavyName(j, "-")) in heavy
    {
      HeavyDiagHas(nf, 7, j);
    }
  }

  /** The labels a block's keys are read from: every key starts with one of its three labels. */
  lemma BlockForBefore(tot: string, oth: string, qpm: string, nf: int, inverse: bool)
    requires !(inverse && nf == 0)
    requires '.' !in tot && '.' !in oth && '.' !in qpm
    ensures forall key :: key in BlockFor(tot, oth, qpm, nf, inverse) ==> Before(key) in {tot, oth, qpm}
  {
    DottedSplit(tot, tot);
    if inverse {
      DottedSplit(tot, oth);
      DottedSplit(qpm, tot);
      DottedSplit(qpm, oth);
    } else {
      DottedSplit(tot, qpm);
      DottedSplit(oth, tot);
      DottedSplit(oth, qpm);
    }
  }

  /** The entries of the forward block, rows tot and oth, columns tot and qpm. */
  function ForwardBlock(l: map<string, real>, tot: string, oth: string, qpm: string): M2
  {
    var at := (a: string, b: string) => if Dotted(a, b) in l then l[Dotted(a, b)] else 0.0;
    M2(at(tot, tot), at(tot, qpm), at(oth, tot), at(oth, qpm))
  }

  /** The entries of the inverse block, rows tot and qpm, columns tot and oth. */
  function InverseBlock(l: map<string, real>, tot: string, oth: string, qpm: string): M2
  {
    var at := (a: string, b: string) => if Dotted(a, b) in l then l[Dotted(a, b)] else 0.0;
    M2(at(tot, tot), at(tot, oth), at(qpm, tot), at(qpm, oth))
  }

  /** The forward and inverse new-flavour blocks multiply to the identity in both orders. */
  lemma BlockAlgebra(f: real)
    requires f != 0.0
    ensures M2(1.0, 1.0, 1.0, -(f - 1.0)).Mul(M2((f - 1.0) / f, 1.0 / f, 1.0 / f, -1.0 / f)) == Id2
    ensures M2((f - 1.0) / f, 1.0 / f, 1.0 / f, -1.0 / f).Mul(M2(1.0, 1.0, 1.0, -(f - 1.0))) == Id2
  {
    var r := 1.0 / f;
    assert f * r == 1.0;
    assert (f - 1.0) / f == 1.0 - r;
    assert -1.0 / f == -r;
    assert (1.0 - r) * 1.0 + r * 1.0 == 1.0;
    assert 1.0 * r + 1.0 * -r == 0.0;
    assert (1.0 - r) * 1.0 + r * -(f - 1.0) == 0.0;
    assert r * 1.0 + -r * -(f - 1.0) == 1.0;
  }

  /** The four entries of one block, read back from the block alone. */
  lemma BlockForValues(tot: string, oth: string, qpm: string, nf: int, inverse: bool)
    requires !(inverse && nf == 0)
    requires '.' !in tot && '.' !in oth && '.' !in qpm && tot != oth && tot != qpm && oth != qpm
    ensures var b, f := BlockFor(tot, oth, qpm, nf, inverse), nf as real;
      && (inverse ==> InverseBlock(b, tot, oth, qpm) == M2((f - 1.0) / f, 1.0 / f, 1.0 / f, -1.0 / f))
      && (!inverse ==> ForwardBlock(b, tot, oth, qpm) == M2(1.0, 1.0, 1.0, -(f - 1.0)))
  {
    DottedSplit(tot, tot);
    if inverse {
      DottedSplit(tot, oth);
      DottedSplit(qpm, tot);
      DottedSplit(qpm, oth);
    } else {
      DottedSplit(tot, qpm);
      DottedSplit(oth, tot);
      DottedSplit(oth, qpm);
    }
  }

  /** The finished matching map holds every entry of both blocks unchanged. */
  lemma BlocksSurvive(nf: int, inverse: bool)
    requires 1 <= nf <= 6
    ensures Matching(nf, inverse).Ok?
    ensures var l, q := Matching(nf, inverse).value, PyQuark(nf - 1);
      && (forall key :: key in BlockFor("S", TName(nf), q + "+", nf, inverse) ==>
            key in l && l[key] == BlockFor("S", TName(nf), q + "+", nf, inverse)[key])
      && (forall key :: key in BlockFor("V", VName(nf), q + "-", nf, inverse) ==>
            key in l && l[key] == BlockFor("V", VName(nf), q + "-", nf, inverse)[key])
  {
    var q := PyQuark(nf - 1);
    var tn, vn, p, m := TName(nf), VName(nf), q + "+", q + "-";
    assert tn[0] == 'T' && '.' !in tn && |tn| >= 2;
    assert vn[0] == 'V' && '.' !in vn && |vn| >= 2;
    assert |q| == 1 && q[0] in "dusctb" && '.' !in q;
    assert '.' !in p && '.' !in m && p[0] == q[0] && m[0] == q[0] && p[1] == '+' && m[1] == '-';
    var heavy := HeavyDiag(nf, 7);
    var first, second := BlockFor("S", tn, p, nf, inverse), BlockFor("V", vn, m, nf, inverse);
    HeavyDiagKeys(nf, 7);
    BlockKeys(nf, inverse, q);
    BlockForBefore("S", tn, p, nf, inverse);
    BlockForBefore("V", vn, m, nf, inverse);
    forall key | key in first
      ensures key !in second && key !in heavy
    {
      assert key in first + second;
    }
    forall key | key in second
      ensures key !in heavy
    {
      assert key in first + second;
    }
  }

  /** The blocks' entries as they stand in the finished matching map. */
  lemma BlockValues(nf: int, inverse: bool)
    requires 1 <= nf <= 6
    ensures Matching(nf, inverse).Ok?
    ensures var l, q, f := Matching(nf, inverse).value, PyQuark(nf - 1), nf as real;
      && (inverse ==> InverseBlock(l, "S", TName(nf), q + "+") == M2((f - 1.0) / f, 1.0 / f, 1.0 / f, -1.0 / f))
      && (inverse ==> InverseBlock(l, "V", VName(nf), q + "-") == M2((f - 1.0) / f, 1.0 / f, 1.0 / f, -1.0 / f))
      && (!inverse ==> ForwardBlock(l, "S", TName(nf), q + "+") == M2(1.0, 1.0, 1.0, -(f - 1.0)))
      && (!inverse ==> ForwardBlock(l, "V", VName(nf), q + "-") == M2(1.0, 1.0, 1.0, -(f - 1.0)))
  {
    var l, q := Matching(nf, inverse).value, PyQuark(nf - 1);
    var tn, vn, p, m := TName(nf), VName(nf), q + "+", q + "-";
    assert tn[0] == 'T' && '.' !in tn && |tn| >= 2;
    assert vn[0] == 'V' && '.' !in vn && |vn| >= 2;
    assert |q| == 1 && q[0] in "dusctb" && '.' !in q;
    assert '.' !in p && '.' !in m && p[0] == q[0] && m[0] == q[0] && p[1] == '+' && m[1] == '-';
    BlocksSurvive(nf, inverse);
    BlockForValues("S", tn, p, nf, inverse);
    BlockForValues("V", vn, m, nf, inverse);
  }

  /**
   * The new-flavour blocks of `rotate_matching` and of
   * `rotate_matching_inverse` are inverse to each other, in the singlet
   * sector (S, T{nf^2-1}, q+) and in the valence sector (V, V{nf^2-1}, q-).
   */
  lemma MatchingBlocksInverse(nf: int)
    requires 1 <= nf <= 6
    ensures Matching(nf, false).Ok? && Matching(nf, true).Ok?
    ensures var f, i, q := Matching(nf, false).value, Matching(nf, true).value, PyQuark(nf - 1);
      && ForwardBlock(f, "S", TName(nf), q + "+").Mul(InverseBlock(i, "S", TName(nf), q + "+")) == Id2
      && InverseBlock(i, "S", TName(nf), q + "+").Mul(ForwardBlock(f, "S", TName(nf), q + "+")) == Id2
      && ForwardBlock(f, "V", VName(nf), q + "-").Mul(InverseBlock(i, "V", VName(nf), q + "-")) == Id2
      && InverseBlock(i, "V", VName(nf), q + "-").Mul(ForwardBlock(f, "V", VName(nf), q + "-")) == Id2
  {
    BlockAlgebra(nf as real);
    BlockValues(nf, false);
    BlockValues(nf, true);
  }

  // ------------------------------------------------ pids_from_intrinsic_unified_evol

  /** A quark pid and its weight in a unified intrinsic combination. */
  datatype Weight = Weight(pid: int, w: real)

  /** The quark pids and weights behind a unified label's tail; "delta" also depends on nf. */
  function UnifiedTable(key: string, nf: int): (r: Result<seq<Weight>>)
    ensures r.Ok? ==> QuarkTable(r.value) && DistinctPids(r.value)
  {
    if key == "d3" then Ok([Weight(1, 1.0), Weight(3, -1.0)])
    else if key == "d8" then Ok([Weight(1, 1.0), Weight(3, 1.0), Weight(5, -2.0)])
    else if key == "u3" then Ok([Weight(2, 1.0), Weight(4, -1.0)])
    else if key == "u8" then Ok([Weight(2, 1.0), Weight(4, 1.0), Weight(6, -2.0)])
    else if key == "delta" then
      if nf == 3 then Ok([Weight(2, 2.0), Weight(1, -1.0), Weight(3, -1.0)])
      else if nf == 4 then Ok([Weight(2, 1.0), Weight(4, 1.0), Weight(1, -1.0), Weight(3, -1.0)])
      else if nf == 5 then Ok([Weight(2, 1.5), Weight(4, 1.5), Weight(1, -1.0), Weight(3, -1.0), Weight(5, -1.0)])
      else if nf == 6 then Ok([Weight(2, 1.0), Weight(4, 1.0), Weight(6, 1.0), Weight(1, -1.0), Weight(3, -1.0), Weight(5, -1.0)])
      else Err(KeyError)
    else Err(KeyError)
  }

  /** Every pid of a table is a quark. */
  predicate QuarkTable(t: seq<Weight>)
  {
    forall k :: 0 <= k < |t| ==> 1 <= t[k].pid <= 6
  }

  /** The zero vector of the basis size. */
  const Zero14: seq<real> := [0.0, 0.0, 0.0, 0.0, 0.0, 0.0, 0.0, 0.0, 0.0, 0.0, 0.0, 0.0, 0.0, 0.0]

  /** The weights vector after writing the table's entries in order, each quark and its antiquark. */
  function PlaceWeights(t: seq<Weight>, valence: bool): (v: seq<real>)
    requires QuarkTable(t)
    ensures |v| == 14
    decreases |t|
  {
    if t == [] then Zero14
    else
      Place(PlaceWeights(t[..|t| - 1], valence), t[|t| - 1], valence)
  }

  /**
   * Writing one entry: the quark gets the weight, its antiquark the weight
   * negated for a valence-like label; quark q sits at index 7 + q of the flavour basis and its
   * antiquark at 7 - q (`QuarkPositions`).
   */
  function Place(v: seq<real>, e: Weight, valence: bool): seq<real>
    requires |v| == 14 && 1 <= e.pid <= 6
  {
    v[7 + e.pid := e.w][7 - e.pid := Signed(valence, e.w)]
  }

  /** Where `flavor_basis_pids.index` finds a quark and its antiquark. */
  lemma QuarkPositions(q: int)
    requires 1 <= q <= 6
    ensures PidIndex(q) == 7 + q && PidIndex(-q) == 7 - q
    ensures FlavorBasisPids[7 + q] == q && FlavorBasisPids[7 - q] == -q
  {
  }

  /** The entries one write changes and the ones it keeps. */
  lemma PlaceAt(v: seq<real>, e: Weight, valence: bool, j: int)
    requires |v| == 14 && 1 <= e.pid <= 6 && 0 <= j < 14
    ensures Place(v, e, valence)[j] == if j == 7 + e.pid then e.w else if j == 7 - e.pid then Signed(valence, e.w) else v[j]
  {
  }

  /** No quark appears twice in a table. */
  predicate DistinctPids(t: seq<Weight>)
  {
    forall i, j :: 0 <= i < j < |t| ==> t[i].pid != t[j].pid
  }

  /** A table read as a dict: the weight of q, or zero when q is absent. */
  function Lookup(t: seq<Weight>, q: int): real
    decreases |t|
  {
    if |t| == 0 then 0.0
    else if t[0].pid == q then t[0].w
    else Lookup(t[1..], q)
  }

  /** Appending a new quark's entry leaves the other quarks' weights alone. */
  lemma {:induction false} LookupAppend(t: seq<Weight>, e: Weight, q: int)
    requires forall i :: 0 <= i < |t| ==> t[i].pid != e.pid
    ensures Lookup(t + [e], q) == if e.pid == q then e.w else Lookup(t, q)
    decreases |t|
  {
    if |t| > 0 {
      assert (t + [e])[1..] == t[1..] + [e];
      LookupAppend(t[1..], e, q);
    }
  }

  /** Quark q gets the table's weight for q and antiquark -q that weight, negated for a valence-like label. */
  lemma {:induction false} PlaceWeightsAt(t: seq<Weight>, valence: bool, q: int)
    requires QuarkTable(t) && DistinctPids(t) && 1 <= q <= 6
    ensures PlaceWeights(t, valence)[7 + q] == Lookup(t, q)
    ensures PlaceWeights(t, valence)[7 - q] == Signed(valence, Lookup(t, q))
    decreases |t|
  {
    if t != [] {
      var init, e := t[..|t| - 1], t[|t| - 1];
      InitOfTable(t);
      PlaceWeightsAt(init, valence, q);
      LookupAppend(init, e, q);
      PlaceLast(t, valence, q, Lookup(init, q));
    }
  }

  /** Writing the last entry of a table over what the earlier entries gave quark q and antiquark -q. */
  lemma PlaceLast(t: seq<Weight>, valence: bool, q: int, a: real)
    requires QuarkTable(t) && t != [] && 1 <= q <= 6
    requires PlaceWeights(t[..|t| - 1], valence)[7 + q] == a
    requires PlaceWeights(t[..|t| - 1], valence)[7 - q] == Signed(valence, a)
    ensures PlaceWeights(t, valence)[7 + q] == if t[|t| - 1].pid == q then t[|t| - 1].w else a
    ensures PlaceWeights(t, valence)[7 - q] == Signed(valence, if t[|t| - 1].pid == q then t[|t| - 1].w else a)
  {
    var prev := PlaceWeights(t[..|t| - 1], valence);
    PlaceAt(prev, t[|t| - 1], valence, 7 + q);
    PlaceAt(prev, t[|t| - 1], valence, 7 - q);
  }

  /** A table without its last entry is a table of distinct quarks that does not hold the last quark. */
  lemma InitOfTable(t: seq<Weight>)
    requires QuarkTable(t) && DistinctPids(t) && t != []
    ensures t == t[..|t| - 1] + [t[|t| - 1]]
    ensures QuarkTable(t[..|t| - 1]) && DistinctPids(t[..|t| - 1])
    ensures forall i :: 0 <= i < |t| - 1 ==> t[i].pid != t[|t| - 1].pid
  {
  }

  /** The gluon and the photon get nothing. */
  lemma {:induction false} PlaceWeightsBosons(t: seq<Weight>, valence: bool)
    requires QuarkTable(t)
    ensures PlaceWeights(t, valence)[0] == 0.0 && PlaceWeights(t, valence)[7] == 0.0
    decreases |t|
  {
    if t != [] {
      PlaceWeightsBosons(t[..|t| - 1], valence);
    }
  }

  /** Every entry of a written table, and the sums of its quark and antiquark entries. */
  lemma PlaceWeightsMeaning(t: seq<Weight>, valence: bool)
    requires QuarkTable(t) && DistinctPids(t)
    ensures var v := PlaceWeights(t, valence);
      && v[0] == 0.0 && v[7] == 0.0
      && (forall q {:trigger Lookup(t, q)} :: 1 <= q <= 6 ==> v[7 + q] == Lookup(t, q) && v[7 - q] == Signed(valence, Lookup(t, q)))
      && v[8] + v[9] + v[10] + v[11] + v[12] + v[13] == QuarkSum(t)
      && v[1] + v[2] + v[3] + v[4] + v[5] + v[6] == Signed(valence, QuarkSum(t))
  {
    PlaceWeightsBosons(t, valence);
    var v := PlaceWeights(t, valence);
    forall q {:trigger Lookup(t, q)} | 1 <= q <= 6
      ensures v[7 + q] == Lookup(t, q) && v[7 - q] == Signed(valence, Lookup(t, q))
    {
      PlaceWeightsAt(t, valence, q);
    }
    assert Lookup(t, 1) + Lookup(t, 2) + Lookup(t, 3) + Lookup(t, 4) + Lookup(t, 5) + Lookup(t, 6) == QuarkSum(t);
  }

  /** A weight, negated for a valence-like label. */
  function Signed(valence: bool, x: real): real
  {
    if valence then -x else x
  }

  /** The sum of a table's quark weights. */
  function QuarkSum(t: seq<Weight>): real
  {
    Lookup(t, 1) + Lookup(t, 2) + Lookup(t, 3) + Lookup(t, 4) + Lookup(t, 5) + Lookup(t, 6)
  }

  /** The raw weights of a label outside ph, g, S and V. */
  function UnifiedRaw(name: string, nf: int): (r: Result<seq<real>>)
    ensures r.Ok? ==> |r.value| == 14
  {
    if |name| == 0 then Err(IndexError)
    else if [name[0]] in QuarkNames[3..] then PmToFlavor(name)
    else
      match UnifiedTable(name[1..], nf)
      case Err(e) => Err(e)
      case Ok(t) => Ok(PlaceWeights(t, name[0] == 'V'))
  }

  /** `pids_from_intrinsic_unified_evol`. */
  function UnifiedEvol(name: string, nf: int, normalize: bool): (r: Result<seq<real>>)
    ensures r.Ok? ==> |r.value| == 14
  {
    if name in ["ph", "g", "S", "V"] then IntrinsicEvol(name, nf, normalize)
    else
      match UnifiedRaw(name, nf)
      case Err(e) => Err(e)
      case Ok(w) => if normalize then Normalize(w) else Ok(w)
  }

  /** The unified intrinsic tables name quarks only. */
  lemma UnifiedTableShape(key: string, nf: int)
    ensures UnifiedTable(key, nf).Err? ==> UnifiedTable(key, nf).error == KeyError
    ensures UnifiedTable(key, nf).Ok? <==> key in ["d3", "d8", "u3", "u8"] || (key == "delta" && 3 <= nf <= 6)
  {
  }

  /** The weights of each combination written out add up to zero. */
  lemma LiteralTablesTraceless()
    ensures QuarkSum([Weight(1, 1.0), Weight(3, -1.0)]) == 0.0
    ensures QuarkSum([Weight(1, 1.0), Weight(3, 1.0), Weight(5, -2.0)]) == 0.0
    ensures QuarkSum([Weight(2, 1.0), Weight(4, -1.0)]) == 0.0
    ensures QuarkSum([Weight(2, 1.0), Weight(4, 1.0), Weight(6, -2.0)]) == 0.0
    ensures QuarkSum([Weight(2, 2.0), Weight(1, -1.0), Weight(3, -1.0)]) == 0.0
    ensures QuarkSum([Weight(2, 1.0), Weight(4, 1.0), Weight(1, -1.0), Weight(3, -1.0)]) == 0.0
    ensures QuarkSum([Weight(2, 1.5), Weight(4, 1.5), Weight(1, -1.0), Weight(3, -1.0), Weight(5, -1.0)]) == 0.0
    ensures QuarkSum([Weight(2, 1.0), Weight(4, 1.0), Weight(6, 1.0), Weight(1, -1.0), Weight(3, -1.0), Weight(5, -1.0)]) == 0.0
  {
  }

  /** Each table's quark weights add up to zero. */
  lemma TableTraceless(key: string, nf: int)
    requires UnifiedTable(key, nf).Ok?
    ensures QuarkSum(UnifiedTable(key, nf).value) == 0.0
  {
    LiteralTablesTraceless();
  }

  /** A table label's raw weights are the table written, negated on the antiquarks for a V label. */
  lemma UnifiedRawTable(name: string, nf: int)
    requires |name| > 0 && [name[0]] !in QuarkNames[3..] && UnifiedTable(name[1..], nf).Ok?
    ensures UnifiedRaw(name, nf) == Ok(PlaceWeights(UnifiedTable(name[1..], nf).value, name[0] == 'V'))
  {
  }

  /**
   * A table label's weights: quark q carries the table's weight, antiquark -q
   * minus that weight for a label starting with V and the same weight for
   * any other label, the gluon and the photon nothing; and the quark weights
   * and the antiquark weights each add up to zero, so every combination is
   * orthogonal to the singlet.
   */
  lemma UnifiedWeights(name: string, nf: int)
    requires name !in ["ph", "g", "S", "V"] && |name| > 0 && [name[0]] !in QuarkNames[3..]
    requires UnifiedTable(name[1..], nf).Ok?
    ensures UnifiedRaw(name, nf).Ok?
    ensures var w, t, valence := UnifiedRaw(name, nf).value, UnifiedTable(name[1..], nf).value,
                                 name[0] == 'V';
      && w[0] == 0.0 && w[7] == 0.0
      && (forall q {:trigger Lookup(t, q)} :: 1 <= q <= 6 ==> w[7 + q] == Lookup(t, q) && w[7 - q] == Signed(valence, Lookup(t, q)))
      && w[8] + w[9] + w[10] + w[11] + w[12] + w[13] == 0.0
      && w[1] + w[2] + w[3] + w[4] + w[5] + w[6] == 0.0
  {
    var t := UnifiedTable(name[1..], nf).value;
    UnifiedRawTable(name, nf);
    PlaceWeightsMeaning(t, name[0] == 'V');
    TableTraceless(name[1..], nf);
  }

  /** The weights array with a table written into it entry by entry. */
  method WriteTable(t: seq<Weight>, valence: bool) returns (v: seq<real>)
    requires QuarkTable(t)
    ensures v == PlaceWeights(t, valence)
  {
    v := Zero14;
    var k := 0;
    while k < |t|
      invariant 0 <= k <= |t|
      invariant v == PlaceWeights(t[..k], valence)
    {
      assert t[..k + 1][..k] == t[..k];
      v := Place(v, t[k], valence);
      k := k + 1;
    }
    assert t[..k] == t;
  }

  /** `pids_from_intrinsic_unified_evol`, writing the table into an array entry by entry. */
  method PidsFromIntrinsicUnifiedEvol(name: string, nf: int, normalize: bool) returns (r: Result<seq<real>>)
    ensures r == UnifiedEvol(name, nf, normalize)
  {
    if name in ["ph", "g", "S", "V"] {
      r := PidsFromIntrinsicEvol(name, nf, normalize);
      return;
    }
    var weights: seq<real>;
    if |name| == 0 {
      return Err(IndexError);
    } else if [name[0]] in QuarkNames[3..] {
      var pm := RotatePmToFlavor(name);
      if pm.Err? {
        return Err(pm.error);
      }
      weights := pm.value;
    } else {
      var table := UnifiedTable(name[1..], nf);
      if table.Err? {
        return Err(table.error);
      }
      UnifiedTableShape(name[1..], nf);
      weights := WriteTable(table.value, name[0] == 'V');
    }
    if normalize {
      r := Normalize(weights);
    } else {
      r := Ok(weights);
    }
  }
}
