/**
 * The threshold atlas: contiguous areas of fixed flavour number nf, separated
 * by the heavy-quark walls (squared threshold scales), and the path of areas
 * walked from the reference scale to a target scale.
 */
module Thresholds {
  import opened Common

  /** An area [q2Min, q2Max] with nf light flavours and its reference point. */
  datatype Area = Area(q2Min: real, q2Max: ExtReal, nf: int, q2Ref: real, hasQ20: bool)
  {
    /** `Area.__call__`: is `q2` inside the closed area? */
    predicate Contains(q2: real) { q2Min <= q2 && LeExt(q2, q2Max) }

    /** The area is not empty. */
    predicate WellFormed() { LeExt(q2Min, q2Max) }

    /**
     * `Area.q2_towards`: the point of the area closest to `q2`, i.e. `q2`
     * itself when inside, otherwise the wall on the side of `q2`.
     */
    function Towards(q2: real): (r: real)
      ensures WellFormed() ==> Contains(r)
      ensures Contains(q2) ==> r == q2
      ensures WellFormed() ==> forall p :: Contains(p) ==> Dist(q2, r) <= Dist(q2, p)
    {
      if GtExt(q2, q2Max) then q2Max.r else if q2 < q2Min then q2Min else q2
    }

    /** `Area.__gt__`: this area lies entirely at or above `t`. */
    predicate Gt(t: Area) { t.q2Max.Fin? && q2Min >= t.q2Max.r }

    /** `Area.__lt__`: this area lies entirely at or below `t`. */
    predicate Lt(t: Area) { q2Max.Fin? && q2Max.r <= t.q2Min }
  }

  function Dist(x: real, y: real): real { if x <= y then y - x else x - y }

  /**
   * `Area.__init__`: the reference point `q20` clamped into the area; the
   * flag records whether no clamping was needed.
   */
  function NewArea(q2Min: real, q2Max: ExtReal, q20: real, nf: int): (a: Area)
    ensures a.q2Min == q2Min && a.q2Max == q2Max && a.nf == nf
    ensures a.hasQ20 <==> a.Contains(q20)
    ensures a.hasQ20 ==> a.q2Ref == q20
    ensures a.q2Ref == a.Towards(q20)
  {
    if GtExt(q20, q2Max) then Area(q2Min, q2Max, nf, q2Max.r, false)
    else if q20 < q2Min then Area(q2Min, q2Max, nf, q2Min, false)
    else Area(q2Min, q2Max, nf, q20, true)
  }

  /** Ordering of areas agrees with the ordering of their points. */
  lemma AreaOrder(a: Area, t: Area, p: real, q: real)
    requires a.Contains(p) && t.Contains(q)
    ensures a.Lt(t) ==> p <= q
    ensures a.Gt(t) ==> p >= q
  {
  }

  predicate Sorted(s: seq<real>) { forall i, j :: 0 <= i < j < |s| ==> s[i] <= s[j] }

  function Insert(x: real, s: seq<real>): (r: seq<real>)
    requires Sorted(s)
    ensures Sorted(r) && multiset(r) == multiset(s) + multiset{x}
    ensures |r| == |s| + 1
  {
    if s == [] || x <= s[0] then [x] + s
    else
      var t := Insert(x, s[1..]);
      InsertBehindHead(x, s, t);
      [s[0]] + t
  }

  /** Putting the head back in front of x inserted into the tail keeps the order and the elements. */
  lemma InsertBehindHead(x: real, s: seq<real>, t: seq<real>)
    requires Sorted(s) && |s| > 0 && s[0] < x
    requires Sorted(t) && multiset(t) == multiset(s[1..]) + multiset{x}
    ensures Sorted([s[0]] + t) && multiset([s[0]] + t) == multiset(s) + multiset{x}
  {
    assert s == [s[0]] + s[1..];
    forall k | 0 <= k < |t|
      ensures s[0] <= t[k]
    {
      assert t[k] in multiset(t);
      if t[k] != x {
        assert t[k] in multiset(s[1..]);
        var i :| 0 <= i < |s[1..]| && s[1..][i] == t[k];
        assert s[i + 1] == t[k];
      }
    }
    var r := [s[0]] + t;
    forall i, j | 0 <= i < j < |r|
      ensures r[i] <= r[j]
    {
      if i > 0 {
        assert r[i] == t[i - 1] && r[j] == t[j - 1];
      } else {
        assert r[j] == t[j - 1];
      }
    }
  }

  /** Python's `sorted` on a list of reals. */
  function SortReals(s: seq<real>): (r: seq<real>)
    ensures Sorted(r) && multiset(r) == multiset(s) && |r| == |s|
  {
    if s == [] then []
    else
      assert s == [s[0]] + s[1..];
      Insert(s[0], SortReals(s[1..]))
  }

  /** Number of walls not above `q2`: numpy's `digitize` on increasing bins. */
  function CountLe(walls: seq<real>, q2: real): (n: nat)
    ensures n <= |walls|
  {
    if walls == [] then 0 else (if walls[0] <= q2 then 1 else 0) + CountLe(walls[1..], q2)
  }

  /** On sorted walls, `CountLe` splits the walls into those at or below and those above `q2`. */
  lemma {:induction false} CountLeSplits(walls: seq<real>, q2: real)
    requires Sorted(walls)
    ensures forall j :: 0 <= j < CountLe(walls, q2) ==> walls[j] <= q2
    ensures forall j :: CountLe(walls, q2) <= j < |walls| ==> walls[j] > q2
  {
    if walls != [] {
      CountLeSplits(walls[1..], q2);
      if walls[0] > q2 {
        assert forall j :: 0 <= j < |walls| ==> walls[j] >= walls[0];
      }
    }
  }

  /** Lower end of area `i`: 0 for the first area, otherwise the wall below. */
  function Lower(walls: seq<real>, i: nat): real
    requires i <= |walls|
  {
    if i == 0 then 0.0 else walls[i - 1]
  }

  /** Upper end of area `i`: the wall above, or infinity for the last area. */
  function Upper(walls: seq<real>, i: nat): ExtReal
    requires i <= |walls|
  {
    if i < |walls| then Fin(walls[i]) else Inf
  }

  /** The areas `_setup_vfns` builds from sorted walls, the first with `nf0` flavours. */
  function Layout(walls: seq<real>, q2Ref: real, nf0: int): (areas: seq<Area>)
    ensures |areas| == |walls| + 1
  {
    seq(|walls| + 1, i requires 0 <= i <= |walls| => NewArea(Lower(walls, i), Upper(walls, i), q2Ref, nf0 + i))
  }

  /** The last index whose area holds the reference point, or `dflt` if none does. */
  function LastRef(areas: seq<Area>, dflt: nat): (r: nat)
    ensures r == dflt || (r < |areas| && areas[r].hasQ20)
  {
    if areas == [] then dflt
    else if areas[|areas| - 1].hasQ20 then |areas| - 1
    else LastRef(areas[..|areas| - 1], dflt)
  }

  lemma LastRefAppend(areas: seq<Area>, a: Area, dflt: nat)
    ensures LastRef(areas + [a], dflt) == if a.hasQ20 then |areas| else LastRef(areas, dflt)
  {
    assert (areas + [a])[..|areas|] == areas;
  }

  lemma LayoutAt(walls: seq<real>, q2Ref: real, nf0: int, i: nat)
    requires i <= |walls|
    ensures Layout(walls, q2Ref, nf0)[i] == NewArea(Lower(walls, i), Upper(walls, i), q2Ref, nf0 + i)
  {
  }

  lemma {:induction false} LastRefIs(areas: seq<Area>, dflt: nat, c: nat)
    requires c < |areas| && areas[c].hasQ20
    requires forall i :: c < i < |areas| ==> !areas[i].hasQ20
    ensures LastRef(areas, dflt) == c
    decreases |areas|
  {
    if c < |areas| - 1 {
      LastRefIs(areas[..|areas| - 1], dflt, c);
    }
  }

  /** The layout is contiguous, climbs one flavour per area, and ends at infinity. */
  lemma LayoutShape(walls: seq<real>, q2Ref: real, nf0: int)
    ensures forall i :: 0 <= i < |walls| ==>
      Layout(walls, q2Ref, nf0)[i].q2Max == Fin(Layout(walls, q2Ref, nf0)[i + 1].q2Min)
    ensures Layout(walls, q2Ref, nf0)[0].q2Min == 0.0
    ensures Layout(walls, q2Ref, nf0)[|walls|].q2Max == Inf
    ensures forall i :: 0 <= i <= |walls| ==> Layout(walls, q2Ref, nf0)[i].nf == nf0 + i
  {
  }

  /**
   * On sorted walls the area at index `CountLe(walls, q2)` (the index
   * `get_areas_idx` returns) contains every non-negative `q2`.
   */
  lemma AreaAtIndexContains(walls: seq<real>, q2Ref: real, nf0: int, q2: real)
    requires Sorted(walls)
    ensures q2 >= 0.0 ==> Layout(walls, q2Ref, nf0)[CountLe(walls, q2)].Contains(q2)
  {
    CountLeSplits(walls, q2);
  }

  /**
   * The reference area found while building the layout is the area that
   * `get_areas_idx` assigns to the reference scale itself (the last of two
   * areas sharing a wall equal to the reference scale).
   */
  lemma RefIndexIsDigitize(walls: seq<real>, q2Ref: real, nf0: int)
    requires Sorted(walls)
    ensures q2Ref >= 0.0 ==> LastRef(Layout(walls, q2Ref, nf0), 0) == CountLe(walls, q2Ref)
  {
    if q2Ref < 0.0 { return; }
    var areas := Layout(walls, q2Ref, nf0);
    var c := CountLe(walls, q2Ref);
    CountLeSplits(walls, q2Ref);
    assert areas[c].Contains(q2Ref);
    forall i | c < i < |areas| ensures !areas[i].hasQ20 {
      assert areas[i].q2Min == walls[i - 1];
    }
    LastRefIs(areas, 0, c);
  }

  /** Indices `range(from, to + rc, rc)` with `rc` = -1 when going down, +1 otherwise. */
  function PathIndices(from: nat, to: nat): (r: seq<nat>)
    ensures |r| == (if to < from then from - to else to - from) + 1
    ensures r[0] == from && r[|r| - 1] == to
    ensures forall k :: 0 <= k < |r| - 1 ==> (if to < from then r[k + 1] + 1 == r[k] else r[k + 1] == r[k] + 1)
    ensures forall k :: 0 <= k < |r| ==> (if to < from then to <= r[k] <= from else from <= r[k] <= to)
  {
    if to < from then seq(from - to + 1, k requires 0 <= k <= from - to => from - k)
    else seq(to - from + 1, k requires 0 <= k <= to - from => from + k)
  }

  /** The areas at the given indices, in order. */
  function AreasAt(all: seq<Area>, ix: seq<nat>): (path: seq<Area>)
    requires forall k :: 0 <= k < |ix| ==> ix[k] < |all|
    ensures |path| == |ix| && forall k :: 0 <= k < |ix| ==> path[k] == all[ix[k]]
  {
    seq(|ix|, k requires 0 <= k < |ix| => all[ix[k]])
  }

  /**
   * Walking indices one step at a time, always down or always up, over
   * areas whose flavour number grows with the index, changes the flavour
   * number by the same single step each time.
   */
  lemma AreasAtSteps(all: seq<Area>, nf0: int, ix: seq<nat>, down: bool)
    requires forall i :: 0 <= i < |all| ==> all[i].nf == nf0 + i
    requires |ix| >= 1 && forall k :: 0 <= k < |ix| ==> ix[k] < |all|
    requires forall k :: 0 <= k < |ix| - 1 ==> (if down then ix[k + 1] + 1 == ix[k] else ix[k + 1] == ix[k] + 1)
    ensures forall k :: 0 <= k < |ix| - 1 ==>
      AreasAt(all, ix)[k + 1].nf == AreasAt(all, ix)[k].nf + (if down then -1 else 1)
  {
    var path := AreasAt(all, ix);
    forall k | 0 <= k < |ix| - 1
      ensures path[k + 1].nf == path[k].nf + (if down then -1 else 1)
    {
      assert path[k] == all[ix[k]] && path[k + 1] == all[ix[k + 1]];
    }
  }

  /** The flavour number schemes the atlas knows. */
  datatype Scheme = FFNS | ZmVfns | FonllA | FonllAPrime
  {
    /** The run-card string of the scheme. */
    function Name(): string
    {
      match this
      case FFNS => "FFNS"
      case ZmVfns => "ZM-VFNS"
      case FonllA => "FONLL-A"
      case FonllAPrime => "FONLL-A'"
    }
  }

  /** The scheme named by a run-card string, if it is one of the four known names. */
  function SchemeOf(name: string): (s: Option<Scheme>)
    ensures s == Some(FFNS) <==> name == "FFNS"
    ensures s.Some? && s.value != FFNS <==> name in {"ZM-VFNS", "FONLL-A", "FONLL-A'"}
  {
    if name == "FFNS" then Some(FFNS)
    else if name == "ZM-VFNS" then Some(ZmVfns)
    else if name == "FONLL-A" then Some(FonllA)
    else if name == "FONLL-A'" then Some(FonllAPrime)
    else None
  }

  /** Reading a scheme back from its name gives the scheme, and only its own name does. */
  lemma SchemeNameRoundTrip(s: Scheme, name: string)
    ensures SchemeOf(s.Name()) == Some(s)
    ensures SchemeOf(name) == Some(s) ==> s.Name() == name
  {
  }

  /** `ThresholdsConfig`: the scheme, the walls, the areas and the reference area. */
  class ThresholdsConfig {
    var q2Ref: real
    var scheme: Scheme
    var areas: seq<Area>
    var areaWalls: seq<real>
    var areaRef: nat
    var maxNf: Option<int>
    var minNf: Option<int>

    /**
     * A configured atlas: sorted walls, the contiguous layout over them
     * starting at `minNf`, and the last area holding the reference scale.
     */
    predicate Valid()
      reads this
    {
      minNf.Some? && maxNf.Some?
      && Sorted(areaWalls)
      && areas == Layout(areaWalls, q2Ref, minNf.value)
      && maxNf.value == minNf.value + |areaWalls|
      && areaRef == LastRef(areas, 0)
      && (scheme == FFNS ==> areaWalls == [])
    }

    /** The fields as `__init__` sets them before looking at the scheme. */
    constructor Init(q2Ref: real, scheme: Scheme)
      ensures this.q2Ref == q2Ref && this.scheme == scheme
      ensures areas == [] && areaWalls == [] && areaRef == 0
      ensures maxNf == None && minNf == None
    {
      this.q2Ref := q2Ref;
      this.scheme := scheme;
      areas := [];
      areaWalls := [];
      areaRef := 0;
      maxNf := None;
      minNf := None;
    }

    /**
     * `ThresholdsConfig.__init__` with its scheme checks: FFNS needs nf and
     * refuses walls, the VFN schemes need walls, any other scheme is not
     * implemented.
     */
    static method New(q2Ref: real, scheme: string, thresholdList: Option<seq<real>>, nf: Option<int>)
      returns (r: Result<ThresholdsConfig>)
      ensures scheme == "FFNS" ==>
        (r.Err? <==> (nf.None? || thresholdList.Some?))
      ensures SchemeOf(scheme).Some? && scheme != "FFNS" ==> (r.Err? <==> thresholdList.None?)
      ensures r.Err? && SchemeOf(scheme).Some? ==> r.error == ValueError
      ensures SchemeOf(scheme).None? ==> r == Err(NotImplementedError)
      ensures r.Ok? ==> fresh(r.value) && r.value.Valid()
      ensures r.Ok? ==> r.value.q2Ref == q2Ref && Some(r.value.scheme) == SchemeOf(scheme)
      ensures r.Ok? && scheme == "FFNS" ==>
        r.value.areas == [NewArea(0.0, Inf, q2Ref, nf.value)]
        && r.value.minNf == nf && r.value.maxNf == nf && r.value.areaWalls == []
      ensures r.Ok? && scheme != "FFNS" ==>
        r.value.areaWalls == SortReals(thresholdList.value)
        && r.value.minNf == Some(if nf.None? then 3 else nf.value)
    {
      var parsed := SchemeOf(scheme);
      if parsed.None? {
        return Err(NotImplementedError);
      }
      var t := new ThresholdsConfig.Init(q2Ref, parsed.value);
      if parsed.value == FFNS {
        if nf.None? {
          return Err(ValueError);
        }
        if thresholdList.Some? {
          return Err(ValueError);
        }
        t.areas := [NewArea(0.0, Inf, q2Ref, nf.value)];
        t.maxNf := nf;
        t.minNf := nf;
        assert t.areas == Layout([], q2Ref, nf.value);
        r := Ok(t);
      } else {
        if thresholdList.None? {
          return Err(ValueError);
        }
        t.SetupVfns(thresholdList.value, nf);
        r := Ok(t);
      }
    }

    /**
     * `_setup_vfns`: sort the walls and build one area per gap, the i-th
     * with nf = min_nf + i, remembering the last area holding the reference.
     */
    method SetupVfns(thresholdList: seq<real>, nf: Option<int>)
      requires areaRef == 0 && scheme != FFNS
      modifies this
      ensures q2Ref == old(q2Ref) && scheme == old(scheme)
      ensures areaWalls == SortReals(thresholdList)
      ensures minNf == Some(if nf.None? then 3 else nf.value)
      ensures Valid()
    {
      var nf0 := if nf.None? then 3 else nf.value;
      var walls := SortReals(thresholdList);
      var built, ref, lastNf := BuildAreas(walls, q2Ref, nf0);
      areaWalls := walls;
      minNf := Some(nf0);
      areas := built;
      areaRef := ref;
      maxNf := Some(lastNf);
    }

    /** The loop of `_setup_vfns` over the walls followed by infinity. */
    static method BuildAreas(walls: seq<real>, q2Ref: real, nf0: int)
      returns (areas: seq<Area>, areaRef: nat, nf: int)
      ensures areas == Layout(walls, q2Ref, nf0)
      ensures areaRef == LastRef(areas, 0)
      ensures nf == nf0 + |walls|
    {
      areas := [];
      areaRef := 0;
      var q2Min := 0.0;
      ghost var target := Layout(walls, q2Ref, nf0);
      var i := 0;
      nf := nf0;
      while i < |walls| + 1
        invariant 0 <= i <= |walls| + 1
        invariant areas == target[..i]
        invariant i <= |walls| ==> q2Min == Lower(walls, i)
        invariant areaRef == LastRef(areas, 0)
        invariant nf == nf0 + (if i == 0 then 0 else i - 1)
      {
        var q2Max := if i < |walls| then Fin(walls[i]) else Inf;
        nf := nf0 + i;
        var newArea := NewArea(q2Min, q2Max, q2Ref, nf);
        LayoutAt(walls, q2Ref, nf0, i);
        LastRefAppend(areas, newArea, 0);
        if newArea.hasQ20 {
          areaRef := i;
        }
        assert target[..i + 1] == target[..i] + [newArea];
        areas := areas + [newArea];
        q2Min := if i < |walls| then walls[i] else q2Min;
        i := i + 1;
      }
      assert areas == target;
    }

    /** `nf_ref`: flavour number of the reference area. */
    function NfRef(): (n: int)
      reads this
      requires Valid()
      ensures n == minNf.value + areaRef
      ensures q2Ref >= 0.0 ==> areas[areaRef].Contains(q2Ref)
    {
      RefIndexIsDigitize(areaWalls, q2Ref, minNf.value);
      AreaAtIndexContains(areaWalls, q2Ref, minNf.value, q2Ref);
      areas[areaRef].nf
    }

    /** `nf_range`: every flavour number from min_nf to max_nf inclusive. */
    function NfRange(): (r: seq<int>)
      reads this
      requires Valid()
      ensures |r| == maxNf.value - minNf.value + 1
      ensures forall k :: 0 <= k < |areas| ==> areas[k].nf in r
      ensures forall n :: n in r ==> exists k :: 0 <= k < |areas| && areas[k].nf == n
    {
      var lo := minNf.value;
      LayoutShape(areaWalls, q2Ref, lo);
      var r := seq(maxNf.value - lo + 1, k => lo + k);
      assert forall k :: 0 <= k < |areas| ==> areas[k].nf == r[k];
      assert forall n :: n in r ==> 0 <= n - lo < |areas| && areas[n - lo].nf == n;
      r
    }

    /**
     * `get_areas_idx`: for each scale, the number of walls at or below it,
     * so that all walls before the index are `<= q2` and all after are `> q2`.
     */
    function GetAreasIdx(q2s: seq<real>): (idx: seq<nat>)
      reads this
      requires Valid()
      ensures |idx| == |q2s|
      ensures forall i :: 0 <= i < |q2s| ==> idx[i] < |areas|
      ensures forall i, j :: 0 <= i < |q2s| && 0 <= j < |areaWalls| ==>
        (j < idx[i] <==> areaWalls[j] <= q2s[i])
    {
      var walls := areaWalls;
      var idx := seq(|q2s|, i requires 0 <= i < |q2s| => CountLe(walls, q2s[i]));
      forall i | 0 <= i < |q2s| ensures forall j :: 0 <= j < |walls| ==> (j < idx[i] <==> walls[j] <= q2s[i]) {
        CountLeSplits(walls, q2s[i]);
      }
      idx
    }

    /** `get_areas`: the area each non-negative scale falls into. */
    function GetAreas(q2s: seq<real>): (r: seq<Area>)
      reads this
      requires Valid()
      ensures |r| == |q2s|
      ensures forall i :: 0 <= i < |q2s| && q2s[i] >= 0.0 ==> r[i].Contains(q2s[i])
      ensures forall i :: 0 <= i < |q2s| ==> r[i] in areas
    {
      var idx := GetAreasIdx(q2s);
      forall i | 0 <= i < |q2s| ensures q2s[i] >= 0.0 ==> areas[idx[i]].Contains(q2s[i]) {
        AreaAtIndexContains(areaWalls, q2Ref, minNf.value, q2s[i]);
      }
      var all := areas;
      seq(|q2s|, i requires 0 <= i < |q2s| => all[idx[i]])
    }

    /**
     * `get_path_from_q2_ref`: the areas from the reference area to the area
     * of `q2`, one step at a time, so neighbouring areas differ by one flavour.
     */
    function GetPathFromQ2Ref(q2: real): (path: seq<Area>)
      reads this
      requires Valid()
      ensures |path| >= 1
      ensures path[0] == areas[areaRef]
      ensures path[|path| - 1] == areas[GetAreasIdx([q2])[0]]
      ensures q2 >= 0.0 ==> path[|path| - 1].Contains(q2)
      ensures forall k :: 0 <= k < |path| - 1 ==>
        path[k + 1].nf == path[k].nf + 1 || path[k + 1].nf == path[k].nf - 1
      ensures forall k :: 0 <= k < |path| - 1 ==> path[k + 1].nf - path[k].nf == path[1].nf - path[0].nf
    {
      var current := GetAreasIdx([q2])[0];
      var ix := PathIndices(areaRef, current);
      LayoutShape(areaWalls, q2Ref, minNf.value);
      AreaAtIndexContains(areaWalls, q2Ref, minNf.value, q2);
      AreasAtSteps(areas, minNf.value, ix, current < areaRef);
      AreasAt(areas, ix)
    }
  }
}
