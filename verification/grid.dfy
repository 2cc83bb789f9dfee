/**
 * The operator grid, the driver of the evolution: it checks the evolution
 * method, caches the operators of the threshold segments and the operator
 * matrix elements of the thresholds, and composes the operator to every
 * requested scale from the highest segment down to the reference scale.
 *
 * The numerical operators are not computed here: an evolution operator is
 * identified by the segment it is computed for, the operator matrix
 * elements by the threshold and the ratio they are computed with, and the
 * final operator by the list of its factors in multiplication order.
 */
module Grid {
  import opened Common

  /** The evolution methods the grid accepts. */
  const Methods: seq<string> := [
    "iterate-exact", "iterate-expanded", "truncated", "ordered-truncated",
    "decompose-exact", "decompose-expanded", "perturbative-exact", "perturbative-expanded"]

  /** The configuration the grid keeps. */
  datatype Config = Config(
    order: int,
    evolutionMethod: string,
    backwardInversion: string,
    factToRen: real,
    evOpMaxOrder: int,
    evOpIterations: int,
    debugSkipSinglet: bool,
    debugSkipNonSinglet: bool,
    intrinsicRange: seq<int>,
    heavyMasses: seq<real>)

  /** The entries of the theory card the grid reads. */
  datatype TheoryCard = TheoryCard(
    pto: int, modEv: string, factToRenScaleRatio: real, ic: int, ib: int, mc: real, mb: real, mt: real)

  /** The entries of the operators card the grid reads. */
  datatype OperatorsCard = OperatorsCard(
    backwardInversion: string, evOpMaxOrder: int, evOpIterations: int,
    debugSkipSinglet: bool, debugSkipNonSinglet: bool, q2Grid: seq<real>)

  /** The short evolution-mode names EXA, EXP and TRN and their methods; any other name is kept. */
  function MethodOf(modEv: string): string
  {
    if modEv == "EXA" then "iterate-exact"
    else if modEv == "EXP" then "iterate-expanded"
    else if modEv == "TRN" then "truncated"
    else modEv
  }

  /** The intrinsic flavours: charm (4) when IC is 1, then bottom (5) when IB is 1. */
  function IntrinsicRangeOf(ic: int, ib: int): seq<int>
  {
    (if ic == 1 then [4] else []) + (if ib == 1 then [5] else [])
  }

  /** `from_dict`: the configuration built from the two cards. */
  function ConfigOf(t: TheoryCard, o: OperatorsCard): Config
  {
    Config(t.pto, MethodOf(t.modEv), o.backwardInversion, t.factToRenScaleRatio * t.factToRenScaleRatio,
      o.evOpMaxOrder, o.evOpIterations, o.debugSkipSinglet, o.debugSkipNonSinglet,
      IntrinsicRangeOf(t.ic, t.ib), [t.mc, t.mb, t.mt])
  }

  // ---------------------------------------------------------------- paths, operators and factors

  /** One segment of a threshold path: its scales, its number of flavours and its direction. */
  datatype Segment = Segment(q2From: real, q2To: real, nf: int, isBackward: bool)
  {
    /** The cache key of the segment's operator. */
    function Key(): (real, real) { (q2From, q2To) }
  }

  /** An evolution operator, identified by what it is computed from. */
  datatype EvolOp = EvolOp(nf: int, q2From: real, q2To: real)

  /** The operator matrix elements of a threshold, computed at q2 with the logarithm of kthr. */
  datatype Ome = Ome(q2: real, isBackward: bool, kthr: real)

  /**
   * A factor of the final operator: the physical operator of a segment, the
   * matching at a threshold, and the rotations into and out of the basis
   * the matching needs.
   */
  datatype Factor =
    | Phys(op: EvolOp, intrinsic: seq<int>)
    | Matching(ome: Ome, nf: int, intrinsic: seq<int>)
    | Rot(nf: int)
    | InvRot(nf: int)

  /** Python accepts the list index i on a list of length n. */
  predicate InRange(n: int, i: int)
  {
    -n <= i < n
  }

  /** `s[i]` with Python's negative indices. */
  function At<T>(s: seq<T>, i: int): T
    requires InRange(|s|, i)
  {
    s[if i < 0 then i + |s| else i]
  }

  /** The index of the threshold ratio of a segment: nf - 3 going up, nf - 4 going down. */
  function RatioIndex(seg: Segment): int
  {
    seg.nf - (if seg.isBackward then 4 else 3)
  }

  /** `path[:-1]`: how many segments are below the last one. */
  function Lower(n: nat): nat
  {
    if n == 0 then 0 else n - 1
  }

  /** The cache keys of the first i segments. */
  function KeysOf(segs: seq<Segment>, i: nat): set<(real, real)>
    requires i <= |segs|
  {
    set j | 0 <= j < i :: segs[j].Key()
  }

  /** The thresholds of the first i segments. */
  function TargetsOf(segs: seq<Segment>, i: nat): set<real>
    requires i <= |segs|
  {
    set j | 0 <= j < i :: segs[j].q2To
  }

  /** The intrinsic flavours used for a path: all of 4, 5, 6 when the last segment goes down. */
  function PathIntrinsic(segs: seq<Segment>, configured: seq<int>): seq<int>
    requires |segs| > 0
  {
    if segs[|segs| - 1].isBackward then [4, 5, 6] else configured
  }

  /**
   * The three factors a lower segment appends: going up, the rotation to
   * nf + 1, the matching with nf and the physical operator; going down, the
   * matching with nf - 1, the inverse rotation and the physical operator.
   */
  function Triple(isBackward: bool, op: EvolOp, ome: Ome, intrinsic: seq<int>): seq<Factor>
  {
    if isBackward then [Matching(ome, op.nf - 1, intrinsic), InvRot(op.nf), Phys(op, intrinsic)]
    else [Rot(op.nf + 1), Matching(ome, op.nf, intrinsic), Phys(op, intrinsic)]
  }

  /** All that the lower segments i, i + 1, ... need from the two caches. */
  predicate Cached(segs: seq<Segment>, t: map<(real, real), EvolOp>, mo: map<real, Ome>, i: nat)
  {
    forall j :: i <= j < Lower(|segs|) ==> segs[j].Key() in t && t[segs[j].Key()].q2To in mo
  }

  /** The factors the lower segments i .. Lower(|segs|) - 1 append, the highest first. */
  function Chain(segs: seq<Segment>, t: map<(real, real), EvolOp>, mo: map<real, Ome>, intrinsic: seq<int>, i: nat)
    : seq<Factor>
    requires Cached(segs, t, mo, i)
    decreases Lower(|segs|) - i
  {
    if i >= Lower(|segs|) then []
    else
      Chain(segs, t, mo, intrinsic, i + 1) + TripleAt(segs, t, mo, intrinsic, i)
  }

  /** The three factors of the lower segment j, read from the caches. */
  function TripleAt(segs: seq<Segment>, t: map<(real, real), EvolOp>, mo: map<real, Ome>, intrinsic: seq<int>, j: nat)
    : seq<Factor>
    requires j < |segs| && segs[j].Key() in t && t[segs[j].Key()].q2To in mo
  {
    var op := t[segs[j].Key()];
    Triple(segs[j].isBackward, op, mo[op.q2To], intrinsic)
  }

  /**
   * The final operator to a scale with the path `segs`, in multiplication
   * order: the physical operator of the last segment, then the factors of
   * the lower segments, the highest first.
   */
  function Folded(segs: seq<Segment>, t: map<(real, real), EvolOp>, mo: map<real, Ome>, configured: seq<int>): seq<Factor>
    requires |segs| > 0 && Cached(segs, t, mo, 0)
  {
    var last := segs[|segs| - 1];
    var intrinsic := PathIntrinsic(segs, configured);
    [Phys(EvolOp(last.nf, last.q2From, last.q2To), intrinsic)] + Chain(segs, t, mo, intrinsic, 0)
  }

  /** The argument of `compute`: nothing (the stored grid), a single scale, or a list of scales. */
  datatype Q2Arg = Stored | Scalar(q2: real) | Many(q2s: seq<real>)

  /** The scales `compute` runs over. */
  function Q2sOf(arg: Q2Arg, stored: seq<real>): seq<real>
  {
    match arg
    case Stored => stored
    case Scalar(q2) => [q2]
    case Many(q2s) => q2s
  }

  /** Every lower segment has a threshold ratio in a list of length n. */
  predicate AllRatios(segs: seq<Segment>, n: nat)
  {
    forall i :: 0 <= i < Lower(|segs|) ==> InRange(n, RatioIndex(segs[i]))
  }

  /**
   * The operator cache t grew from t0 by the keys of the first i segments,
   * and every new entry is the operator of a segment with that key.
   */
  ghost predicate OpsFrom(t0: map<(real, real), EvolOp>, t: map<(real, real), EvolOp>, segs: seq<Segment>, i: nat)
  {
    && i <= |segs|
    && Extends(t0, t)
    && t.Keys == t0.Keys + KeysOf(segs, i)
    && (forall k :: k in t && k !in t0 ==>
          exists j :: 0 <= j < i && segs[j].Key() == k && t[k] == EvolOp(segs[j].nf, k.0, k.1))
  }

  /**
   * The matching cache m grew from m0 by the thresholds of the first i
   * segments, and every new entry was computed with the ratio of a segment
   * ending at that threshold.
   */
  ghost predicate OmesFrom(m0: map<real, Ome>, m: map<real, Ome>, segs: seq<Segment>, i: nat, ratios: seq<real>)
  {
    && i <= |segs|
    && Extends(m0, m)
    && m.Keys == m0.Keys + TargetsOf(segs, i)
    && (forall q :: q in m && q !in m0 ==>
          exists j :: 0 <= j < i && segs[j].q2To == q && InRange(|ratios|, RatioIndex(segs[j])) &&
            m[q] == Ome(q, segs[j].isBackward, At(ratios, RatioIndex(segs[j]))))
  }

  /** A cache log: every key computed once, and exactly the keys of the cache. */
  ghost predicate CacheInv<K>(log: seq<K>, keys: set<K>)
  {
    Distinct(log) && Elems(log) == keys
  }

  /** Every cached operator was computed for the scales of its key. */
  predicate OpsKeyed(t: map<(real, real), EvolOp>)
  {
    forall k :: k in t ==> t[k].q2From == k.0 && t[k].q2To == k.1
  }

  /** Every cached set of operator matrix elements was computed at its threshold. */
  predicate OmesKeyed(m: map<real, Ome>)
  {
    forall q :: q in m ==> m[q].q2 == q
  }

  /** ops holds the cached operators of the first |ops| segments. */
  predicate Listed(ops: seq<EvolOp>, segs: seq<Segment>, t: map<(real, real), EvolOp>)
  {
    && |ops| <= |segs|
    && forall j :: 0 <= j < |ops| ==> segs[j].Key() in t && ops[j] == t[segs[j].Key()]
  }

  // ---------------------------------------------------------------- the grid

  class OperatorGrid {
    const config: Config
    const q2Grid: seq<real>
    /** `thresholds_config.path`: the segments from the reference scale to a scale. */
    const path: real -> seq<Segment>
    /** `thresholds_config.thresholds_ratios`. */
    const ratios: seq<real>
    /** The operators of the lower segments computed so far, by (q2_from, q2_to). */
    var thresholdOperators: map<(real, real), EvolOp>
    /** The operator matrix elements computed so far, by threshold. */
    var matchingOperators: map<real, Ome>
    /** Every segment operator computation, in order. */
    ghost var opLog: seq<(real, real)>
    /** Every operator-matrix-element computation, in order. */
    ghost var omeLog: seq<real>

    /**
     * The caches hold exactly what was computed, nothing was computed twice,
     * and every entry was computed for its own key.
     */
    ghost predicate Valid()
      reads this
    {
      && CacheInv(opLog, thresholdOperators.Keys) && OpsKeyed(thresholdOperators)
      && CacheInv(omeLog, matchingOperators.Keys) && OmesKeyed(matchingOperators)
    }

    /** The grid with empty caches, for a known method. */
    constructor Init(config: Config, q2Grid: seq<real>, path: real -> seq<Segment>, ratios: seq<real>)
      requires config.evolutionMethod in Methods
      ensures Valid()
      ensures this.config == config && this.q2Grid == q2Grid && this.path == path && this.ratios == ratios
      ensures thresholdOperators == map[] && matchingOperators == map[]
    {
      this.config := config;
      this.q2Grid := q2Grid;
      this.path := path;
      this.ratios := ratios;
      thresholdOperators := map[];
      matchingOperators := map[];
      opLog := [];
      omeLog := [];
    }

    /** `OperatorGrid(...)`: an unknown evolution method is a ValueError. */
    static method New(config: Config, q2Grid: seq<real>, path: real -> seq<Segment>, ratios: seq<real>)
      returns (r: Result<OperatorGrid>)
      ensures r.Ok? <==> config.evolutionMethod in Methods
      ensures r.Err? ==> r.error == ValueError
      ensures r.Ok? ==>
        && fresh(r.value) && r.value.Valid() && r.value.config == config && r.value.q2Grid == q2Grid
        && r.value.path == path && r.value.ratios == ratios
        && r.value.thresholdOperators == map[] && r.value.matchingOperators == map[]
    {
      if config.evolutionMethod !in Methods {
        return Err(ValueError);
      }
      var g := new OperatorGrid.Init(config, q2Grid, path, ratios);
      r := Ok(g);
    }

    /** `OperatorGrid.from_dict`. */
    static method FromDict(theory: TheoryCard, operators: OperatorsCard, path: real -> seq<Segment>, ratios: seq<real>)
      returns (r: Result<OperatorGrid>)
      ensures r.Ok? <==> ConfigOf(theory, operators).evolutionMethod in Methods
      ensures r.Err? ==> r.error == ValueError
      ensures r.Ok? ==>
        && fresh(r.value) && r.value.Valid() && r.value.config == ConfigOf(theory, operators)
        && r.value.q2Grid == operators.q2Grid && r.value.path == path && r.value.ratios == ratios
        && r.value.thresholdOperators == map[] && r.value.matchingOperators == map[]
    {
      r := New(ConfigOf(theory, operators), operators.q2Grid, path, ratios);
    }

    /**
     * `get_threshold_operators`: the operators of every segment but the
     * last, each computed only when its key is not cached yet, and the
     * operator matrix elements of every threshold passed, each computed only
     * once; a threshold ratio the list does not have is an IndexError.
     */
    method GetThresholdOperators(segs: seq<Segment>) returns (r: Result<seq<EvolOp>>)
      requires Valid()
      modifies this
      ensures Valid()
      ensures r.Err? ==> r.error == IndexError
      ensures Extends(old(thresholdOperators), thresholdOperators) && Extends(old(matchingOperators), matchingOperators)
      ensures AllRatios(segs, |ratios|) ==> r.Ok?
      ensures r.Ok? ==>
        && |r.value| == Lower(|segs|)
        && Cached(segs, thresholdOperators, matchingOperators, 0)
        && (forall i :: 0 <= i < |r.value| ==> r.value[i] == thresholdOperators[segs[i].Key()])
        && OpsFrom(old(thresholdOperators), thresholdOperators, segs, Lower(|segs|))
        && OmesFrom(old(matchingOperators), matchingOperators, segs, Lower(|segs|), ratios)
    {
      var ok, ops, t, m;
      ghost var tl, ml;
      ok, ops, t, m, tl, ml := WalkPath(thresholdOperators, matchingOperators, opLog, omeLog, segs, ratios);
      thresholdOperators, matchingOperators := t, m;
      opLog, omeLog := tl, ml;
      if !ok {
        return Err(IndexError);
      }
      r := Ok(ops);
    }

    /**
     * The loop of `get_threshold_operators` on the two caches t0 and m0:
     * false as soon as a threshold ratio is missing, with what was cached
     * until then.
     */
    static method WalkPath(t0: map<(real, real), EvolOp>, m0: map<real, Ome>, ghost tl0: seq<(real, real)>,
                           ghost ml0: seq<real>, segs: seq<Segment>, ratios: seq<real>)
      returns (ok: bool, ops: seq<EvolOp>, t: map<(real, real), EvolOp>, m: map<real, Ome>,
               ghost tl: seq<(real, real)>, ghost ml: seq<real>)
      requires CacheInv(tl0, t0.Keys) && OpsKeyed(t0) && CacheInv(ml0, m0.Keys) && OmesKeyed(m0)
      ensures CacheInv(tl, t.Keys) && OpsKeyed(t) && CacheInv(ml, m.Keys) && OmesKeyed(m)
      ensures Extends(t0, t) && Extends(m0, m)
      ensures AllRatios(segs, |ratios|) ==> ok
      ensures ok ==>
        && |ops| == Lower(|segs|)
        && Cached(segs, t, m, 0)
        && (forall i :: 0 <= i < |ops| ==> ops[i] == t[segs[i].Key()])
        && OpsFrom(t0, t, segs, Lower(|segs|))
        && OmesFrom(m0, m, segs, Lower(|segs|), ratios)
    {
      ops := [];
      var n := Lower(|segs|);
      t, m := t0, m0;
      tl, ml := tl0, ml0;
      for i := 0 to n
        invariant CacheInv(tl, t.Keys) && OpsKeyed(t) && CacheInv(ml, m.Keys) && OmesKeyed(m)
        invariant |ops| == i
        invariant OpsFrom(t0, t, segs, i)
        invariant OmesFrom(m0, m, segs, i, ratios)
        invariant Listed(ops, segs, t)
        invariant forall j :: 0 <= j < i ==> segs[j].q2To in m
      {
        t, tl, ops := CacheOp(t0, t, tl, segs, ops);
        var cached;
        cached, m, ml := CacheOme(m0, m, ml, segs, i, ratios);
        if !cached {
          return false, ops, t, m, tl, ml;
        }
      }
      ok := true;
    }

    /** One segment of `get_threshold_operators`: its operator, from the cache or computed and cached. */
    static method CacheOp(ghost t0: map<(real, real), EvolOp>, t: map<(real, real), EvolOp>, ghost tl: seq<(real, real)>,
                          segs: seq<Segment>, ops: seq<EvolOp>)
      returns (t2: map<(real, real), EvolOp>, ghost tl2: seq<(real, real)>, ops2: seq<EvolOp>)
      requires CacheInv(tl, t.Keys) && OpsKeyed(t) && OpsFrom(t0, t, segs, |ops|) && Listed(ops, segs, t)
      requires |ops| < |segs|
      ensures CacheInv(tl2, t2.Keys) && OpsKeyed(t2) && OpsFrom(t0, t2, segs, |ops| + 1) && Listed(ops2, segs, t2)
      ensures |ops2| == |ops| + 1
    {
      var seg := segs[|ops|];
      var key := seg.Key();
      OpsStep(t0, t, segs, |ops|);
      t2, tl2 := t, tl;
      if key !in t {
        LogAppend(tl, key);
        ListedGrows(ops, segs, t, key, EvolOp(seg.nf, seg.q2From, seg.q2To));
        t2 := t[key := EvolOp(seg.nf, seg.q2From, seg.q2To)];
        tl2 := tl + [key];
      }
      ListedAppend(ops, segs, t2);
      ops2 := ops + [t2[key]];
    }

    /**
     * One threshold of `get_threshold_operators`: its operator matrix
     * elements, from the cache or computed with the segment's ratio and
     * cached; false when that ratio is missing.
     */
    static method CacheOme(ghost m0: map<real, Ome>, m: map<real, Ome>, ghost ml: seq<real>, segs: seq<Segment>, i: nat,
                           ratios: seq<real>)
      returns (ok: bool, m2: map<real, Ome>, ghost ml2: seq<real>)
      requires CacheInv(ml, m.Keys) && OmesKeyed(m) && OmesFrom(m0, m, segs, i, ratios) && i < |segs|
      ensures CacheInv(ml2, m2.Keys) && OmesKeyed(m2) && Extends(m0, m2)
      ensures ok <==> segs[i].q2To in m || InRange(|ratios|, RatioIndex(segs[i]))
      ensures ok ==> OmesFrom(m0, m2, segs, i + 1, ratios)
    {
      var seg := segs[i];
      m2, ml2 := m, ml;
      if seg.q2To in m {
        OmesStep(m0, m, segs, i, ratios);
        return true, m2, ml2;
      }
      var idx := RatioIndex(seg);
      if !InRange(|ratios|, idx) {
        return false, m2, ml2;
      }
      OmesStep(m0, m, segs, i, ratios);
      LogAppend(ml, seg.q2To);
      m2 := m[seg.q2To := Ome(seg.q2To, seg.isBackward, At(ratios, idx))];
      ml2 := ml + [seg.q2To];
      ok := true;
    }

    /** A scale whose path has a segment and a threshold ratio for every lower segment. */
    predicate Generable(q2: real)
    {
      |path(q2)| > 0 && AllRatios(path(q2), |ratios|)
    }

    /**
     * `generate`: the operator to the scale q2, composed from the physical
     * operator of the last segment and, for every lower segment from the
     * highest down, its rotation, matching and physical operator; an empty
     * path is an IndexError.
     */
    method Generate(q2: real) returns (r: Result<seq<Factor>>)
      requires Valid()
      modifies this
      ensures Valid()
      ensures Extends(old(thresholdOperators), thresholdOperators) && Extends(old(matchingOperators), matchingOperators)
      ensures r.Err? ==> r.error == IndexError
      ensures |path(q2)| == 0 ==> r.Err?
      ensures Generable(q2) ==> r.Ok?
      ensures r.Ok? ==>
        && |path(q2)| > 0 && Cached(path(q2), thresholdOperators, matchingOperators, 0)
        && r.value == Folded(path(q2), thresholdOperators, matchingOperators, config.intrinsicRange)
    {
      var segs := path(q2);
      var got := GetThresholdOperators(segs);
      if got.Err? {
        return Err(got.error);
      }
      var thrOps := got.value;
      if |segs| == 0 {
        return Err(IndexError);
      }
      var last := segs[|segs| - 1];
      var intrinsic := config.intrinsicRange;
      if last.isBackward {
        intrinsic := [4, 5, 6];
      }
      var head := [Phys(EvolOp(last.nf, last.q2From, last.q2To), intrinsic)];
      var finalOp := FoldLower(segs, thrOps, thresholdOperators, matchingOperators, intrinsic, head);
      assert intrinsic == PathIntrinsic(segs, config.intrinsicRange);
      r := Ok(finalOp);
    }

    /**
     * The loop of `generate`: from the highest lower segment down, append
     * each segment's rotation, matching and physical operator.
     */
    static method FoldLower(segs: seq<Segment>, thrOps: seq<EvolOp>, thr: map<(real, real), EvolOp>, mat: map<real, Ome>,
                            intrinsic: seq<int>, head: seq<Factor>) returns (finalOp: seq<Factor>)
      requires |thrOps| == Lower(|segs|) && Cached(segs, thr, mat, 0)
      requires forall j :: 0 <= j < |thrOps| ==> thrOps[j] == thr[segs[j].Key()]
      ensures finalOp == head + Chain(segs, thr, mat, intrinsic, 0)
    {
      finalOp := head;
      var i := |thrOps|;
      while i > 0
        invariant 0 <= i <= |thrOps|
        invariant finalOp == head + Chain(segs, thr, mat, intrinsic, i)
      {
        i := i - 1;
        var op := thrOps[i];
        ghost var prev := finalOp;
        if segs[i].isBackward {
          var matching := Matching(mat[op.q2To], op.nf - 1, intrinsic);
          finalOp := finalOp + [matching, InvRot(op.nf), Phys(op, intrinsic)];
        } else {
          var matching := Matching(mat[op.q2To], op.nf, intrinsic);
          finalOp := finalOp + [Rot(op.nf + 1), matching, Phys(op, intrinsic)];
        }
        assert finalOp == prev + TripleAt(segs, thr, mat, intrinsic, i);
      }
    }

    /**
     * `compute`: the operator to every scale of the argument, by scale;
     * the first failure stops the run.
     */
    method Compute(arg: Q2Arg) returns (r: Result<map<real, seq<Factor>>>)
      requires Valid()
      modifies this
      ensures Valid()
      ensures Extends(old(thresholdOperators), thresholdOperators) && Extends(old(matchingOperators), matchingOperators)
      ensures r.Err? ==> r.error == IndexError
      ensures (forall k :: 0 <= k < |Q2sOf(arg, q2Grid)| ==> Generable(Q2sOf(arg, q2Grid)[k])) ==> r.Ok?
      ensures (exists k :: 0 <= k < |Q2sOf(arg, q2Grid)| && |path(Q2sOf(arg, q2Grid)[k])| == 0) ==> r.Err?
      ensures r.Ok? ==> r.value.Keys == Elems(Q2sOf(arg, q2Grid))
      ensures r.Ok? ==> AllFolded(r.value, path, thresholdOperators, matchingOperators, config.intrinsicRange)
    {
      var q2s := Q2sOf(arg, q2Grid);
      var res: map<real, seq<Factor>> := map[];
      for k := 0 to |q2s|
        invariant Valid()
        invariant Extends(old(thresholdOperators), thresholdOperators) && Extends(old(matchingOperators), matchingOperators)
        invariant res.Keys == Elems(q2s[..k])
        invariant AllFolded(res, path, thresholdOperators, matchingOperators, config.intrinsicRange)
      {
        var g := AddScale(res, q2s[k]);
        if g.Err? {
          return Err(g.error);
        }
        res := g.value;
        assert q2s[..k + 1] == q2s[..k] + [q2s[k]];
        ElemsSnoc(q2s[..k], q2s[k]);
      }
      assert q2s[..|q2s|] == q2s;
      forall j | 0 <= j < |q2s|
        ensures |path(q2s[j])| > 0
      {
        AllFoldedHas(res, path, thresholdOperators, matchingOperators, config.intrinsicRange, q2s[j]);
      }
      r := Ok(res);
    }

    /** One scale of `compute`: generate its operator and add it to the results so far. */
    method AddScale(res: map<real, seq<Factor>>, q2: real) returns (r: Result<map<real, seq<Factor>>>)
      requires Valid() && AllFolded(res, path, thresholdOperators, matchingOperators, config.intrinsicRange)
      modifies this
      ensures Valid()
      ensures Extends(old(thresholdOperators), thresholdOperators) && Extends(old(matchingOperators), matchingOperators)
      ensures r.Err? ==> r.error == IndexError && !Generable(q2)
      ensures |path(q2)| == 0 ==> r.Err?
      ensures r.Ok? ==> r.value.Keys == res.Keys + {q2} && |path(q2)| > 0
      ensures r.Ok? ==> AllFolded(r.value, path, thresholdOperators, matchingOperators, config.intrinsicRange)
    {
      ghost var t0, m0 := thresholdOperators, matchingOperators;
      var g := Generate(q2);
      if g.Err? {
        return Err(g.error);
      }
      AllFoldedExtends(res, path, t0, thresholdOperators, m0, matchingOperators, config.intrinsicRange);
      r := Ok(res[q2 := g.value]);
    }
  }

  /** Every scale of res holds the folded operator of its path, over cached operators. */
  ghost predicate AllFolded(res: map<real, seq<Factor>>, path: real -> seq<Segment>, t: map<(real, real), EvolOp>,
                            mo: map<real, Ome>, configured: seq<int>)
  {
    forall q :: q in res ==>
      |path(q)| > 0 && Cached(path(q), t, mo, 0) && res[q] == Folded(path(q), t, mo, configured)
  }

  /** Every scale of res has a path with at least one segment. */
  lemma AllFoldedHas(res: map<real, seq<Factor>>, path: real -> seq<Segment>, t: map<(real, real), EvolOp>,
                     mo: map<real, Ome>, configured: seq<int>, q: real)
    requires AllFolded(res, path, t, mo, configured) && q in res
    ensures |path(q)| > 0
  {
  }

  /** Caching more operators keeps every folded operator of res. */
  lemma AllFoldedExtends(res: map<real, seq<Factor>>, path: real -> seq<Segment>, t: map<(real, real), EvolOp>,
                         t2: map<(real, real), EvolOp>, mo: map<real, Ome>, mo2: map<real, Ome>, configured: seq<int>)
    requires AllFolded(res, path, t, mo, configured) && Extends(t, t2) && Extends(mo, mo2)
    ensures AllFolded(res, path, t2, mo2, configured)
  {
    forall q | q in res
      ensures Cached(path(q), t2, mo2, 0) && res[q] == Folded(path(q), t2, mo2, configured)
    {
      FoldedExtends(path(q), t, t2, mo, mo2, configured);
    }
  }

  // ---------------------------------------------------------------- lemmas

  /** Logging a key that is not logged yet keeps the log free of repeats. */
  lemma LogAppend<T>(log: seq<T>, x: T)
    requires Distinct(log) && x !in Elems(log)
    ensures Distinct(log + [x]) && Elems(log + [x]) == Elems(log) + {x}
  {
    ElemsSnoc(log, x);
    var l := log + [x];
    forall i, j | 0 <= i < j < |l| ensures l[i] != l[j] {
      if j < |log| {
        assert l[i] == log[i] && l[j] == log[j];
      } else {
        assert l[i] == log[i] && log[i] in Elems(log);
      }
    }
  }

  /** Caching a new key keeps the operators already listed. */
  lemma ListedGrows(ops: seq<EvolOp>, segs: seq<Segment>, t: map<(real, real), EvolOp>, key: (real, real), v: EvolOp)
    requires Listed(ops, segs, t) && key !in t
    ensures Listed(ops, segs, t[key := v])
  {
  }

  /** Listing the cached operator of the next segment. */
  lemma ListedAppend(ops: seq<EvolOp>, segs: seq<Segment>, t: map<(real, real), EvolOp>)
    requires Listed(ops, segs, t) && |ops| < |segs| && segs[|ops|].Key() in t
    ensures Listed(ops + [t[segs[|ops|].Key()]], segs, t)
  {
  }

  /** One step of `get_threshold_operators` on the operator cache. */
  lemma OpsStep(t0: map<(real, real), EvolOp>, t: map<(real, real), EvolOp>, segs: seq<Segment>, i: nat)
    requires OpsFrom(t0, t, segs, i) && i < |segs|
    ensures var key := segs[i].Key();
      OpsFrom(t0, if key in t then t else t[key := EvolOp(segs[i].nf, segs[i].q2From, segs[i].q2To)], segs, i + 1)
  {
    var key := segs[i].Key();
    var t2 := if key in t then t else t[key := EvolOp(segs[i].nf, segs[i].q2From, segs[i].q2To)];
    assert KeysOf(segs, i + 1) == KeysOf(segs, i) + {key};
    forall k | k in t2 && k !in t0
      ensures exists j :: 0 <= j < i + 1 && segs[j].Key() == k && t2[k] == EvolOp(segs[j].nf, k.0, k.1)
    {
      if k in t {
        var j :| 0 <= j < i && segs[j].Key() == k && t[k] == EvolOp(segs[j].nf, k.0, k.1);
        assert t2[k] == t[k];
      } else {
        assert segs[i].Key() == k && t2[k] == EvolOp(segs[i].nf, k.0, k.1);
      }
    }
  }

  /** One step of `get_threshold_operators` on the matching cache. */
  lemma OmesStep(m0: map<real, Ome>, m: map<real, Ome>, segs: seq<Segment>, i: nat, ratios: seq<real>)
    requires OmesFrom(m0, m, segs, i, ratios) && i < |segs|
    requires segs[i].q2To in m || InRange(|ratios|, RatioIndex(segs[i]))
    ensures var q := segs[i].q2To;
      OmesFrom(m0, if q in m then m else m[q := Ome(q, segs[i].isBackward, At(ratios, RatioIndex(segs[i])))],
        segs, i + 1, ratios)
  {
    var q := segs[i].q2To;
    var m2 := if q in m then m else m[q := Ome(q, segs[i].isBackward, At(ratios, RatioIndex(segs[i])))];
    assert TargetsOf(segs, i + 1) == TargetsOf(segs, i) + {q};
    forall p | p in m2 && p !in m0
      ensures exists j :: (0 <= j < i + 1 && segs[j].q2To == p && InRange(|ratios|, RatioIndex(segs[j])) &&
        m2[p] == Ome(p, segs[j].isBackward, At(ratios, RatioIndex(segs[j]))))
    {
      if p in m {
        var j :| 0 <= j < i && segs[j].q2To == p && InRange(|ratios|, RatioIndex(segs[j])) &&
          m[p] == Ome(p, segs[j].isBackward, At(ratios, RatioIndex(segs[j])));
        assert m2[p] == m[p];
      } else {
        assert segs[i].q2To == p && m2[p] == Ome(p, segs[i].isBackward, At(ratios, RatioIndex(segs[i])));
      }
    }
  }

  /**
   * The factors of the lower segments from i up: three per segment, and the
   * segment j's three at position 3 * (Lower(|segs|) - 1 - j) -- the highest
   * segment first, the one next to the reference scale last.
   */
  lemma {:induction false} ChainLayout(segs: seq<Segment>, t: map<(real, real), EvolOp>, mo: map<real, Ome>, intrinsic: seq<int>, i: nat)
    requires i <= Lower(|segs|) && Cached(segs, t, mo, i)
    ensures |Chain(segs, t, mo, intrinsic, i)| == 3 * (Lower(|segs|) - i)
    ensures forall j :: i <= j < Lower(|segs|) ==>
      Chain(segs, t, mo, intrinsic, i)[3 * (Lower(|segs|) - 1 - j)..3 * (Lower(|segs|) - j)] == TripleAt(segs, t, mo, intrinsic, j)
    decreases Lower(|segs|) - i
  {
    var n := Lower(|segs|);
    if i < n {
      ChainLayout(segs, t, mo, intrinsic, i + 1);
      var rest := Chain(segs, t, mo, intrinsic, i + 1);
      var c := Chain(segs, t, mo, intrinsic, i);
      assert c == rest + TripleAt(segs, t, mo, intrinsic, i);
      forall j | i <= j < n
        ensures c[3 * (n - 1 - j)..3 * (n - j)] == TripleAt(segs, t, mo, intrinsic, j)
      {
        if j > i {
          assert c[3 * (n - 1 - j)..3 * (n - j)] == rest[3 * (n - 1 - j)..3 * (n - j)];
        } else {
          assert 3 * (n - 1 - j) == |rest|;
        }
      }
    }
  }

  /**
   * The composition reads only cached entries, so it does not change when
   * the caches grow: an operator composed earlier is still the one the
   * grown caches compose.
   */
  lemma {:induction false} ChainExtends(segs: seq<Segment>, t: map<(real, real), EvolOp>, t2: map<(real, real), EvolOp>,
                                        mo: map<real, Ome>, mo2: map<real, Ome>, intrinsic: seq<int>, i: nat)
    requires Cached(segs, t, mo, i) && Extends(t, t2) && Extends(mo, mo2)
    ensures Cached(segs, t2, mo2, i)
    ensures Chain(segs, t2, mo2, intrinsic, i) == Chain(segs, t, mo, intrinsic, i)
    decreases Lower(|segs|) - i
  {
    if i < Lower(|segs|) {
      ChainExtends(segs, t, t2, mo, mo2, intrinsic, i + 1);
    }
  }

  /** `Folded` does not change when the caches grow. */
  lemma FoldedExtends(segs: seq<Segment>, t: map<(real, real), EvolOp>, t2: map<(real, real), EvolOp>,
                      mo: map<real, Ome>, mo2: map<real, Ome>, configured: seq<int>)
    requires |segs| > 0 && Cached(segs, t, mo, 0) && Extends(t, t2) && Extends(mo, mo2)
    ensures Cached(segs, t2, mo2, 0)
    ensures Folded(segs, t2, mo2, configured) == Folded(segs, t, mo, configured)
  {
    ChainExtends(segs, t, t2, mo, mo2, PathIntrinsic(segs, configured), 0);
  }

  /**
   * The final operator starts with the physical operator of the last
   * segment and holds three factors for every lower segment, the highest
   * first; a path whose last segment goes down uses the intrinsic flavours
   * 4, 5 and 6 throughout.
   */
  lemma FoldedLayout(segs: seq<Segment>, t: map<(real, real), EvolOp>, mo: map<real, Ome>, configured: seq<int>)
    requires |segs| > 0 && Cached(segs, t, mo, 0)
    ensures var f := Folded(segs, t, mo, configured);
      var last := segs[|segs| - 1];
      && |f| == 1 + 3 * (|segs| - 1)
      && f[0] == Phys(EvolOp(last.nf, last.q2From, last.q2To), PathIntrinsic(segs, configured))
      && (last.isBackward ==> PathIntrinsic(segs, configured) == [4, 5, 6])
      && (!last.isBackward ==> PathIntrinsic(segs, configured) == configured)
    ensures forall j :: 0 <= j < |segs| - 1 ==>
      Folded(segs, t, mo, configured)[1 + 3 * (|segs| - 2 - j)..1 + 3 * (|segs| - 1 - j)]
        == TripleAt(segs, t, mo, PathIntrinsic(segs, configured), j)
  {
    var intrinsic := PathIntrinsic(segs, configured);
    ChainLayout(segs, t, mo, intrinsic, 0);
    var f := Folded(segs, t, mo, configured);
    var c := Chain(segs, t, mo, intrinsic, 0);
    assert f == [f[0]] + c;
    forall j | 0 <= j < |segs| - 1
      ensures f[1 + 3 * (|segs| - 2 - j)..1 + 3 * (|segs| - 1 - j)] == TripleAt(segs, t, mo, intrinsic, j)
    {
      var p := 3 * (|segs| - 2 - j);
      assert f[p + 1..p + 4] == c[p..p + 3];
    }
  }

  /** `from_dict` accepts the short names EXA, EXP and TRN and every full method name, and nothing else. */
  lemma FromDictMethods(t: TheoryCard, o: OperatorsCard)
    ensures ConfigOf(t, o).evolutionMethod in Methods <==> t.modEv in ["EXA", "EXP", "TRN"] || t.modEv in Methods
    ensures t.modEv == "EXA" ==> ConfigOf(t, o).evolutionMethod == Methods[0]
    ensures t.modEv == "EXP" ==> ConfigOf(t, o).evolutionMethod == Methods[1]
    ensures t.modEv == "TRN" ==> ConfigOf(t, o).evolutionMethod == Methods[2]
    ensures t.modEv !in ["EXA", "EXP", "TRN"] ==> ConfigOf(t, o).evolutionMethod == t.modEv
  {
  }

  /** `from_dict`: the ratio squared, charm then bottom as intrinsic flavours, and the card's scales. */
  lemma FromDictConfig(t: TheoryCard, o: OperatorsCard)
    ensures var c := ConfigOf(t, o);
      && c.factToRen == t.factToRenScaleRatio * t.factToRenScaleRatio && c.order == t.pto
      && (4 in c.intrinsicRange <==> t.ic == 1) && (5 in c.intrinsicRange <==> t.ib == 1)
      && (forall k :: k in c.intrinsicRange ==> k == 4 || k == 5)
      && (t.ic == 1 && t.ib == 1 ==> c.intrinsicRange == [4, 5])
  {
  }
}
