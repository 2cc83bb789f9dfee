/**
 * The matching condition at a heavy-quark threshold: the map from the
 * operator-matrix-element (OME) members to the named entries of the
 * matching operator (`MatchingCondition.split_ad_to_evol_map`). The OME
 * members are keyed by label pairs such as (100, 21); the entries are keyed
 * by "target.input" names such as "c+.g".
 */
module MatchingCondition {
  import opened Common
  import opened Flavors
  import opened Physical

  /**
   * The labels of the components h+ and h- of the heavy quark in the OME
   * members. The table that defines them is not part of this model; these
   * are the values the program uses.
   */
  const MatchingHPlus: int := 90
  const MatchingHMinus: int := 91

  /** The entries present at every threshold. */
  const OmeFixed: seq<Entry> := [
    Entry("S.S", (100, 100)), Entry("S.g", (100, 21)), Entry("g.S", (21, 100)),
    Entry("g.g", (21, 21)), Entry("V.V", (200, 200))]

  /** The entries V{n}.V{n} and T{n}.T{n} (n = f * f - 1) of the flavours 2 <= f <= nf. */
  function OmeActive(nf: int): seq<Entry>
    decreases nf
  {
    if nf < 2 then [] else OmeActive(nf - 1) + OmePair(nf)
  }

  /** Both entries of the already active flavour f are the V.V element. */
  function OmePair(f: int): seq<Entry>
  {
    [Entry(Diag(VName(f)), (200, 200)), Entry(Diag(TName(f)), (200, 200))]
  }

  /** `quark_names[i]` has an answer (Python also accepts the indices -6 to -1). */
  predicate IsQuarkIndex(i: int)
  {
    -6 <= i < 6
  }

  /** The quark `quark_names[i]`, negative indices counting from the end. */
  function QuarkAt(i: int): string
    requires IsQuarkIndex(i)
  {
    QuarkNames[if i < 0 then i + 6 else i]
  }

  /** The entries h-.V, h+.S and h+.g of the heavy quark h that becomes active. */
  function HeavyEntries(hq: string): seq<Entry>
  {
    [Entry(hq + "-.V", (MatchingHMinus, 200)), Entry(hq + "+.S", (MatchingHPlus, 100)),
     Entry(hq + "+.g", (MatchingHPlus, 21))]
  }

  /** The entries h+.h+, g.h+ and h-.h- of the intrinsic quark h that is matched at this threshold. */
  function MatchedEntries(hq: string): seq<Entry>
  {
    [Entry(Diag(hq + "+"), (MatchingHPlus, MatchingHPlus)), Entry("g." + hq + "+", (21, MatchingHPlus)),
     Entry(Diag(hq + "-"), (MatchingHMinus, MatchingHMinus))]
  }

  /**
   * The loop over the intrinsic flavours: the name of every one is looked
   * up first; a flavour above nf + 1 keeps evolving with `id`, the flavour
   * nf + 1 is matched with its OME entries, and the others add nothing.
   */
  function MatchIntrinsic(ops: AdMembers, m0: map<string, OpMember>, fls: seq<int>, nf: int, id: OpMember)
    : Result<map<string, OpMember>>
    decreases |fls|
  {
    if |fls| == 0 then Ok(m0)
    else
      match MatchIntrinsic(ops, m0, fls[..|fls| - 1], nf, id)
      case Err(e) => Err(e)
      case Ok(m) => FlStep(ops, m, fls[|fls| - 1], nf, id)
  }

  /** One round of the intrinsic loop, for the flavour fl. */
  function FlStep(ops: AdMembers, m: map<string, OpMember>, fl: int, nf: int, id: OpMember): Result<map<string, OpMember>>
  {
    if !IsQuarkIndex(fl - 1) then Err(IndexError)
    else
      var q := QuarkAt(fl - 1);
      if fl > nf + 1 then Ok(m[Diag(q + "+") := id][Diag(q + "-") := id])
      else if fl == nf + 1 then Wire(ops, m, MatchedEntries(q))
      else Ok(m)
  }

  /** The entries before the intrinsic flavours, in the order they are made. */
  function Wired(nf: int): seq<Entry>
    requires IsQuarkIndex(nf)
  {
    OmeFixed + OmeActive(nf) + HeavyEntries(QuarkAt(nf))
  }

  /**
   * `split_ad_to_evol_map` up to `promote_names`: the fixed entries, the
   * active flavours, the heavy quark `quark_names[nf]`, then the intrinsic
   * flavours with the identity shaped like the V.V element.
   */
  function SplitAdToEvol(ops: AdMembers, nf: int, intrinsic: seq<int>): Result<map<string, OpMember>>
  {
    match Wire(ops, map[], OmeFixed + OmeActive(nf))
    case Err(e) => Err(e)
    case Ok(m) =>
      if !IsQuarkIndex(nf) then Err(IndexError)
      else
        match Wire(ops, m, HeavyEntries(QuarkAt(nf)))
        case Err(e) => Err(e)
        case Ok(m2) =>
          if |intrinsic| == 0 then Ok(m2)
          else
            WireFails(ops, map[], OmeFixed + OmeActive(nf));
            assert (OmeFixed + OmeActive(nf))[4].key == (200, 200);
            MatchIntrinsic(ops, m2, intrinsic, nf, IdLike(ops[(200, 200)]))
  }

  // ---------------------------------------------------------------- what the intrinsic loop writes

  /** The names the intrinsic flavour fl writes. */
  function FlNames(fl: int, nf: int): set<string>
  {
    if !IsQuarkIndex(fl - 1) || fl <= nf then {}
    else
      var q := QuarkAt(fl - 1);
      if fl > nf + 1 then {Diag(q + "+"), Diag(q + "-")}
      else {Diag(q + "+"), "g." + q + "+", Diag(q + "-")}
  }

  /** The names the intrinsic flavours fls write. */
  function IntrinsicNames(fls: seq<int>, nf: int): set<string>
    decreases |fls|
  {
    if |fls| == 0 then {} else IntrinsicNames(fls[..|fls| - 1], nf) + FlNames(fls[|fls| - 1], nf)
  }

  /** The shape of every name the intrinsic loop writes: "h+.h+", "h-.h-" or "g.h+". */
  predicate IntrinsicShape(k: string)
  {
    (|k| == 5 && (k[1] == '+' || k[1] == '-')) || (|k| == 4 && k[0] == 'g')
  }

  /** What the intrinsic flavour fl leaves in the map r. */
  predicate FlHolds(r: map<string, OpMember>, ops: AdMembers, id: OpMember, fl: int, nf: int)
  {
    fl > nf ==>
      && IsQuarkIndex(fl - 1)
      && var q := QuarkAt(fl - 1);
         if fl > nf + 1 then
           && Diag(q + "+") in r && r[Diag(q + "+")] == id
           && Diag(q + "-") in r && r[Diag(q + "-")] == id
         else
           && (MatchingHPlus, MatchingHPlus) in ops && (21, MatchingHPlus) in ops
           && (MatchingHMinus, MatchingHMinus) in ops
           && Diag(q + "+") in r && r[Diag(q + "+")] == ops[(MatchingHPlus, MatchingHPlus)]
           && "g." + q + "+" in r && r["g." + q + "+"] == ops[(21, MatchingHPlus)]
           && Diag(q + "-") in r && r[Diag(q + "-")] == ops[(MatchingHMinus, MatchingHMinus)]
  }

  /** What the intrinsic loop needs to get through: a name for every flavour, and the OMEs of the one at nf + 1. */
  predicate IntrinsicReadable(ops: AdMembers, fls: seq<int>, nf: int)
  {
    forall i :: 0 <= i < |fls| ==>
      && IsQuarkIndex(fls[i] - 1)
      && (fls[i] == nf + 1 ==>
            (MatchingHPlus, MatchingHPlus) in ops && (21, MatchingHPlus) in ops && (MatchingHMinus, MatchingHMinus) in ops)
  }

  // ---------------------------------------------------------------- intrinsic lemmas

  /** The matched entries write three different names. */
  lemma MatchedConsistent(q: string)
    requires q in QuarkNames
    ensures Consistent(MatchedEntries(q))
    ensures Names(MatchedEntries(q)) == {Diag(q + "+"), "g." + q + "+", Diag(q + "-")}
  {
    var w := MatchedEntries(q);
    assert Diag(q + "+")[1] == '+' && Diag(q + "-")[1] == '-';
    assert |Diag(q + "+")| == 5 && |"g." + q + "+"| == 4;
    assert w[0].name == Diag(q + "+") && w[1].name == "g." + q + "+" && w[2].name == Diag(q + "-");
  }

  /** The intrinsic loop gets through exactly when every flavour has a name and the matched flavour its OMEs. */
  lemma {:induction false} MatchIntrinsicFails(ops: AdMembers, m0: map<string, OpMember>, fls: seq<int>, nf: int, id: OpMember)
    ensures MatchIntrinsic(ops, m0, fls, nf, id).Ok? <==> IntrinsicReadable(ops, fls, nf)
    ensures MatchIntrinsic(ops, m0, fls, nf, id).Err? ==>
      MatchIntrinsic(ops, m0, fls, nf, id).error in {IndexError, KeyError}
    decreases |fls|
  {
    if |fls| > 0 {
      var p := fls[..|fls| - 1];
      MatchIntrinsicFails(ops, m0, p, nf, id);
      assert forall i :: 0 <= i < |p| ==> p[i] == fls[i];
      var fl := fls[|fls| - 1];
      match MatchIntrinsic(ops, m0, p, nf, id)
      case Err(e) =>
      case Ok(m) =>
        if IsQuarkIndex(fl - 1) && fl == nf + 1 {
          var q := QuarkAt(fl - 1);
          WireFails(ops, m, MatchedEntries(q));
          assert MatchedEntries(q)[0].key == (MatchingHPlus, MatchingHPlus);
          assert MatchedEntries(q)[1].key == (21, MatchingHPlus);
          assert MatchedEntries(q)[2].key == (MatchingHMinus, MatchingHMinus);
        }
    }
  }

  /** Every name the intrinsic loop writes has the intrinsic shape. */
  lemma FlNamesShape(fl: int, nf: int)
    ensures forall k :: k in FlNames(fl, nf) ==> IntrinsicShape(k)
  {
    if IsQuarkIndex(fl - 1) && fl > nf {
      var q := QuarkAt(fl - 1);
      assert |q| == 1;
      assert Diag(q + "+")[1] == '+' && |Diag(q + "+")| == 5;
      assert Diag(q + "-")[1] == '-' && |Diag(q + "-")| == 5;
      assert ("g." + q + "+")[0] == 'g';
    }
  }

  /** With nf >= 0 two different flavours above nf write different names. */
  lemma FlNamesApart(fl: int, fl2: int, nf: int)
    requires nf >= 0 && fl > nf && fl2 > nf && fl != fl2
    ensures FlNames(fl, nf) !! FlNames(fl2, nf)
  {
    if IsQuarkIndex(fl - 1) && IsQuarkIndex(fl2 - 1) {
      var q, q2 := QuarkAt(fl - 1), QuarkAt(fl2 - 1);
      assert q[0] != q2[0];
      forall k | k in FlNames(fl, nf) ensures k !in FlNames(fl2, nf) {
        if |k| == 5 {
          assert k[0] == q[0];
        } else {
          assert k[2] == q[0];
        }
      }
    }
  }

  /** FlHolds reads only the names of its flavour. */
  lemma FlHoldsFrame(r: map<string, OpMember>, r2: map<string, OpMember>, ops: AdMembers, id: OpMember, fl: int, nf: int)
    requires FlHolds(r, ops, id, fl, nf)
    requires forall k :: k in FlNames(fl, nf) && k in r ==> k in r2 && r2[k] == r[k]
    ensures FlHolds(r2, ops, id, fl, nf)
  {
  }

  /** The intrinsic loop writes exactly the names of the flavours above nf and keeps every other entry of `m0`. */
  lemma {:induction false} MatchIntrinsicKeys(ops: AdMembers, m0: map<string, OpMember>, fls: seq<int>, nf: int, id: OpMember)
    requires MatchIntrinsic(ops, m0, fls, nf, id).Ok?
    ensures MatchIntrinsic(ops, m0, fls, nf, id).value.Keys == m0.Keys + IntrinsicNames(fls, nf)
    ensures var r := MatchIntrinsic(ops, m0, fls, nf, id).value;
      forall k :: k in m0 && !IntrinsicShape(k) ==> r[k] == m0[k]
    decreases |fls|
  {
    if |fls| > 0 {
      var p := fls[..|fls| - 1];
      MatchIntrinsicKeys(ops, m0, p, nf, id);
      var m := MatchIntrinsic(ops, m0, p, nf, id).value;
      FlNamesShape(fls[|fls| - 1], nf);
      FlStepMeaning(ops, m, fls[|fls| - 1], nf, id);
    }
  }

  /**
   * With nf >= 0 every intrinsic flavour above nf + 1 ends up with the
   * identity entries and the flavour nf + 1 with its OME entries, whatever
   * the order of the flavours.
   */
  lemma {:induction false} MatchIntrinsicHolds(ops: AdMembers, m0: map<string, OpMember>, fls: seq<int>, nf: int, id: OpMember)
    requires nf >= 0 && MatchIntrinsic(ops, m0, fls, nf, id).Ok?
    ensures var r := MatchIntrinsic(ops, m0, fls, nf, id).value;
      forall i :: 0 <= i < |fls| ==> FlHolds(r, ops, id, fls[i], nf)
    decreases |fls|
  {
    if |fls| > 0 {
      var p := fls[..|fls| - 1];
      MatchIntrinsicHolds(ops, m0, p, nf, id);
      var m := MatchIntrinsic(ops, m0, p, nf, id).value;
      var r := MatchIntrinsic(ops, m0, fls, nf, id).value;
      var fl := fls[|fls| - 1];
      FlStepMeaning(ops, m, fl, nf, id);
      forall i | 0 <= i < |fls|
        ensures FlHolds(r, ops, id, fls[i], nf)
      {
        if i < |fls| - 1 && fls[i] != fl {
          assert p[i] == fls[i];
          if fls[i] > nf && fl > nf {
            FlNamesApart(fls[i], fl, nf);
          }
          FlHoldsFrame(m, r, ops, id, fls[i], nf);
        }
      }
    }
  }

  /** One round writes the names of its flavour, leaves its entries, and keeps every other name. */
  lemma FlStepMeaning(ops: AdMembers, m: map<string, OpMember>, fl: int, nf: int, id: OpMember)
    requires FlStep(ops, m, fl, nf, id).Ok?
    ensures FlStep(ops, m, fl, nf, id).value.Keys == m.Keys + FlNames(fl, nf)
    ensures FlHolds(FlStep(ops, m, fl, nf, id).value, ops, id, fl, nf)
    ensures var r := FlStep(ops, m, fl, nf, id).value;
      forall k :: k in m && k !in FlNames(fl, nf) ==> r[k] == m[k]
  {
    var q := QuarkAt(fl - 1);
    if fl == nf + 1 {
      MatchedConsistent(q);
      WireMeaning(ops, m, MatchedEntries(q));
      assert MatchedEntries(q)[0].name == Diag(q + "+") && MatchedEntries(q)[1].name == "g." + q + "+";
      assert MatchedEntries(q)[2].name == Diag(q + "-");
    }
  }

  /** Once the intrinsic loop fails, the rest of it keeps the failure. */
  lemma {:induction false} MatchIntrinsicSticks(ops: AdMembers, m0: map<string, OpMember>, fls: seq<int>, nf: int, id: OpMember, k: nat)
    requires k <= |fls| && MatchIntrinsic(ops, m0, fls[..k], nf, id).Err?
    ensures MatchIntrinsic(ops, m0, fls, nf, id) == MatchIntrinsic(ops, m0, fls[..k], nf, id)
    decreases |fls| - k
  {
    if k < |fls| {
      assert fls[..k + 1][..k] == fls[..k];
      MatchIntrinsicSticks(ops, m0, fls, nf, id, k + 1);
    } else {
      assert fls[..k] == fls;
    }
  }

  // ---------------------------------------------------------------- the wired entries

  /** An entry of an active flavour: a V or T name with a digit second, read from the V.V element. */
  predicate ActiveOme(e: Entry)
  {
    e.key == (200, 200) && |e.name| >= 5 && '0' <= e.name[1] <= '9'
  }

  /** Every entry of the active flavours has the active shape. */
  lemma {:induction false} OmeActiveShape(nf: int)
    ensures forall j :: 0 <= j < |OmeActive(nf)| ==> ActiveOme(OmeActive(nf)[j])
    decreases nf
  {
    if nf >= 2 {
      OmeActiveShape(nf - 1);
      var n := IntStr(nf * nf - 1);
      assert n == NatToString(nf * nf - 1);
      assert Diag(VName(nf)) == "V" + n + "." + "V" + n;
      assert Diag(TName(nf)) == "T" + n + "." + "T" + n;
      var p := OmeActive(nf - 1);
      assert forall j :: |p| <= j < |OmeActive(nf)| ==> OmeActive(nf)[j] == OmePair(nf)[j - |p|];
    }
  }

  /** The entries of the flavours 2 <= f <= nf. */
  lemma {:induction false} OmeActiveHas(nf: int, f: int)
    requires 2 <= f <= nf
    ensures Entry(Diag(VName(f)), (200, 200)) in OmeActive(nf)
    ensures Entry(Diag(TName(f)), (200, 200)) in OmeActive(nf)
    decreases nf
  {
    if f < nf {
      OmeActiveHas(nf - 1, f);
    }
  }

  /** Two consistent runs of assignments that write different names make a consistent run. */
  lemma ConsistentConcat(a: seq<Entry>, b: seq<Entry>)
    requires Consistent(a) && Consistent(b)
    requires forall i, j :: 0 <= i < |a| && 0 <= j < |b| ==> a[i].name != b[j].name
    ensures Consistent(a + b)
  {
    var w := a + b;
    forall i, j | 0 <= i < |w| && 0 <= j < |w| && w[i].name == w[j].name
      ensures w[i].key == w[j].key
    {
      if i < |a| && j < |a| {
        assert w[i] == a[i] && w[j] == a[j];
      } else if i >= |a| && j >= |a| {
        assert w[i] == b[i - |a|] && w[j] == b[j - |a|];
      }
    }
  }

  /** The fixed entries and the active flavours write different names, and consistently. */
  lemma FixedActiveConsistent(nf: int)
    ensures Consistent(OmeFixed + OmeActive(nf))
    ensures forall i :: 0 <= i < |OmeFixed + OmeActive(nf)| ==>
      |(OmeFixed + OmeActive(nf))[i].name| != 4 && !IntrinsicShape((OmeFixed + OmeActive(nf))[i].name)
  {
    var act := OmeActive(nf);
    OmeActiveShape(nf);
    assert forall i :: 0 <= i < |OmeFixed| ==> |OmeFixed[i].name| == 3;
    ConsistentConcat(OmeFixed, act);
    var w := OmeFixed + act;
    forall i | 0 <= i < |w|
      ensures |w[i].name| != 4 && !IntrinsicShape(w[i].name)
    {
      if i >= 5 {
        assert w[i] == act[i - 5];
      }
    }
  }

  /** The heavy entries write three different names of four letters, none starting with g. */
  lemma HeavyShape(hq: string)
    requires hq in QuarkNames
    ensures Consistent(HeavyEntries(hq))
    ensures forall i :: 0 <= i < 3 ==> |HeavyEntries(hq)[i].name| == 4 && HeavyEntries(hq)[i].name[0] != 'g'
  {
    var h := HeavyEntries(hq);
    assert h[0].name[3] == 'V' && h[1].name[3] == 'S' && h[2].name[3] == 'g';
  }

  /** No wired name is written twice with two different members, and none has the intrinsic shape. */
  lemma WiredShape(nf: int)
    requires IsQuarkIndex(nf)
    ensures Consistent(Wired(nf))
    ensures forall i :: 0 <= i < |Wired(nf)| ==> !IntrinsicShape(Wired(nf)[i].name)
  {
    var a := OmeFixed + OmeActive(nf);
    var h := HeavyEntries(QuarkAt(nf));
    FixedActiveConsistent(nf);
    HeavyShape(QuarkAt(nf));
    ConsistentConcat(a, h);
    var w := a + h;
    forall i | 0 <= i < |w|
      ensures !IntrinsicShape(w[i].name)
    {
      if i >= |a| {
        assert w[i] == h[i - |a|];
      }
    }
  }

  /** The five fixed members are there. */
  predicate FixedReadable(ops: AdMembers)
  {
    (100, 100) in ops && (100, 21) in ops && (21, 100) in ops && (21, 21) in ops && (200, 200) in ops
  }

  /** All that the wired entries read: the five fixed members and the three of the heavy quark. */
  predicate OmeReadable(ops: AdMembers)
  {
    FixedReadable(ops) && (MatchingHMinus, 200) in ops && (MatchingHPlus, 100) in ops && (MatchingHPlus, 21) in ops
  }

  /** The fixed entries and the active flavours read nothing but the five fixed members. */
  lemma FixedActiveReads(ops: AdMembers, nf: int)
    ensures Wire(ops, map[], OmeFixed + OmeActive(nf)).Ok? <==> FixedReadable(ops)
  {
    var w := OmeFixed + OmeActive(nf);
    WireFails(ops, map[], w);
    FixedActiveKeys(nf);
    if FixedReadable(ops) {
      forall i | 0 <= i < |w|
        ensures w[i].key in ops
      {
        if i < 5 {
          assert i == 0 || i == 1 || i == 2 || i == 3 || i == 4;
        }
      }
    }
  }

  /** The keys the fixed entries and the active flavours read, position by position. */
  lemma FixedActiveKeys(nf: int)
    ensures var w := OmeFixed + OmeActive(nf);
      && |w| >= 5
      && w[0].key == (100, 100) && w[1].key == (100, 21) && w[2].key == (21, 100)
      && w[3].key == (21, 21) && w[4].key == (200, 200)
      && forall i :: 5 <= i < |w| ==> w[i].key == (200, 200)
  {
    var act := OmeActive(nf);
    var w := OmeFixed + act;
    OmeActiveShape(nf);
    forall i | 5 <= i < |w|
      ensures w[i].key == (200, 200)
    {
      assert w[i] == act[i - 5];
    }
  }

  /** The heavy entries read the three members of the heavy quark. */
  lemma HeavyReads(ops: AdMembers, m: map<string, OpMember>, hq: string)
    ensures Wire(ops, m, HeavyEntries(hq)).Ok? <==>
      (MatchingHMinus, 200) in ops && (MatchingHPlus, 100) in ops && (MatchingHPlus, 21) in ops
  {
    WireFails(ops, m, HeavyEntries(hq));
    assert HeavyEntries(hq)[0].key == (MatchingHMinus, 200);
  }

  /** The first two stages are the wiring `Wired(nf)`; they read only what `OmeReadable` names. */
  lemma WiredRun(ops: AdMembers, nf: int)
    requires IsQuarkIndex(nf)
    ensures Wire(ops, map[], Wired(nf)) ==
      (match Wire(ops, map[], OmeFixed + OmeActive(nf))
       case Err(e) => Err(e)
       case Ok(m) => Wire(ops, m, HeavyEntries(QuarkAt(nf))))
    ensures Wire(ops, map[], Wired(nf)).Ok? <==> OmeReadable(ops)
  {
    WireAppend(ops, map[], OmeFixed + OmeActive(nf), HeavyEntries(QuarkAt(nf)));
    FixedActiveReads(ops, nf);
    match Wire(ops, map[], OmeFixed + OmeActive(nf))
    case Err(_) =>
    case Ok(m) => HeavyReads(ops, m, QuarkAt(nf));
  }

  /** The two entries of an active flavour, both the V.V element. */
  lemma PairStep(ops: AdMembers, m: map<string, OpMember>, f: int)
    requires (200, 200) in ops
    ensures Wire(ops, m, OmePair(f)) == Ok(m[Diag(VName(f)) := ops[(200, 200)]][Diag(TName(f)) := ops[(200, 200)]])
  {
    var p := OmePair(f);
    assert p[..1] == [p[0]] && [p[0]][..0] == [];
    assert Wire(ops, m, p[..1]) == Ok(m[p[0].name := ops[(200, 200)]]);
  }

  // ---------------------------------------------------------------- split_ad_to_evol_map

  /**
   * The map is built exactly when every member it reads is there and every
   * quark index it looks up exists; a missing member is a KeyError, and with
   * the fixed members there a heavy quark `quark_names[nf]` that does not
   * exist is an IndexError.
   */
  lemma SplitFails(ops: AdMembers, nf: int, intrinsic: seq<int>)
    ensures SplitAdToEvol(ops, nf, intrinsic).Ok? <==>
      OmeReadable(ops) && IsQuarkIndex(nf) && IntrinsicReadable(ops, intrinsic, nf)
    ensures SplitAdToEvol(ops, nf, intrinsic).Err? ==> SplitAdToEvol(ops, nf, intrinsic).error in {KeyError, IndexError}
    ensures FixedReadable(ops) && !IsQuarkIndex(nf) ==> SplitAdToEvol(ops, nf, intrinsic) == Err(IndexError)
  {
    var w := OmeFixed + OmeActive(nf);
    FixedActiveReads(ops, nf);
    if IsQuarkIndex(nf) {
      WiredRun(ops, nf);
      match Wire(ops, map[], w)
      case Err(_) =>
        WireFails(ops, map[], w);
      case Ok(m) =>
        HeavyReads(ops, m, QuarkAt(nf));
        WireFails(ops, m, HeavyEntries(QuarkAt(nf)));
        match Wire(ops, m, HeavyEntries(QuarkAt(nf)))
        case Err(_) =>
        case Ok(m2) =>
          if |intrinsic| > 0 {
            MatchIntrinsicFails(ops, m2, intrinsic, nf, IdLike(ops[(200, 200)]));
          }
    } else {
      WireFails(ops, map[], w);
    }
  }

  /**
   * The wired entries of the map: S.S, S.g, g.S, g.g and V.V from their
   * members, V{n}.V{n} and T{n}.T{n} of every flavour 2 <= f <= nf both the
   * V.V element, and h-.V, h+.S and h+.g of the heavy quark h = `quark_names[nf]`.
   */
  lemma SplitEntries(ops: AdMembers, nf: int, intrinsic: seq<int>)
    requires SplitAdToEvol(ops, nf, intrinsic).Ok?
    ensures var m := SplitAdToEvol(ops, nf, intrinsic).value;
      && OmeReadable(ops)
      && "S.S" in m && m["S.S"] == ops[(100, 100)] && "S.g" in m && m["S.g"] == ops[(100, 21)]
      && "g.S" in m && m["g.S"] == ops[(21, 100)] && "g.g" in m && m["g.g"] == ops[(21, 21)]
      && "V.V" in m && m["V.V"] == ops[(200, 200)]
    ensures var m := SplitAdToEvol(ops, nf, intrinsic).value;
      forall f :: 2 <= f <= nf ==>
        && Diag(VName(f)) in m && m[Diag(VName(f))] == ops[(200, 200)]
        && Diag(TName(f)) in m && m[Diag(TName(f))] == ops[(200, 200)]
    ensures var m := SplitAdToEvol(ops, nf, intrinsic).value;
      && IsQuarkIndex(nf) && OmeReadable(ops)
      && var hq := QuarkAt(nf);
         && hq + "-.V" in m && m[hq + "-.V"] == ops[(MatchingHMinus, 200)]
         && hq + "+.S" in m && m[hq + "+.S"] == ops[(MatchingHPlus, 100)]
         && hq + "+.g" in m && m[hq + "+.g"] == ops[(MatchingHPlus, 21)]
  {
    WiredKept(ops, nf, intrinsic);
    var w := Wired(nf);
    forall f | 2 <= f <= nf
      ensures Entry(Diag(VName(f)), (200, 200)) in w && Entry(Diag(TName(f)), (200, 200)) in w
    {
      OmeActiveHas(nf, f);
    }
    var na := |OmeActive(nf)|;
    assert w[0].name == "S.S" && w[1].name == "S.g" && w[2].name == "g.S" && w[3].name == "g.g" && w[4].name == "V.V";
    assert w[5 + na].name == QuarkAt(nf) + "-.V" && w[6 + na].name == QuarkAt(nf) + "+.S";
    assert w[7 + na].name == QuarkAt(nf) + "+.g";
  }

  /** Every wired entry survives the intrinsic loop. */
  lemma WiredKept(ops: AdMembers, nf: int, intrinsic: seq<int>)
    requires SplitAdToEvol(ops, nf, intrinsic).Ok?
    ensures IsQuarkIndex(nf) && OmeReadable(ops)
    ensures var w := Wired(nf); var m := SplitAdToEvol(ops, nf, intrinsic).value;
      forall i :: 0 <= i < |w| ==> w[i].key in ops && w[i].name in m && m[w[i].name] == ops[w[i].key]
  {
    SplitFails(ops, nf, intrinsic);
    WiredRun(ops, nf);
    WiredShape(nf);
    var w := Wired(nf);
    var m0 := Wire(ops, map[], w).value;
    WireMeaning(ops, map[], w);
    if |intrinsic| > 0 {
      MatchIntrinsicKeys(ops, m0, intrinsic, nf, IdLike(ops[(200, 200)]));
    }
  }

  /** The map holds exactly the wired names and the names of the intrinsic flavours above nf. */
  lemma SplitKeys(ops: AdMembers, nf: int, intrinsic: seq<int>)
    requires SplitAdToEvol(ops, nf, intrinsic).Ok?
    ensures IsQuarkIndex(nf)
    ensures SplitAdToEvol(ops, nf, intrinsic).value.Keys == Names(Wired(nf)) + IntrinsicNames(intrinsic, nf)
  {
    SplitFails(ops, nf, intrinsic);
    WiredRun(ops, nf);
    WiredShape(nf);
    var m0 := Wire(ops, map[], Wired(nf)).value;
    WireMeaning(ops, map[], Wired(nf));
    if |intrinsic| > 0 {
      MatchIntrinsicKeys(ops, m0, intrinsic, nf, IdLike(ops[(200, 200)]));
    }
  }

  /** Intrinsic flavours at or below nf write no names at all. */
  lemma {:induction false} IntrinsicNamesBelow(fls: seq<int>, nf: int)
    requires forall i :: 0 <= i < |fls| ==> fls[i] <= nf
    ensures IntrinsicNames(fls, nf) == {}
    decreases |fls|
  {
    if |fls| > 0 {
      IntrinsicNamesBelow(fls[..|fls| - 1], nf);
    }
  }

  /**
   * With nf >= 0, every intrinsic flavour above nf + 1 keeps evolving with
   * the identity (h+.h+ and h-.h-), and the flavour nf + 1 gets its OME
   * entries h+.h+, g.h+ and h-.h-.
   */
  lemma SplitIntrinsic(ops: AdMembers, nf: int, intrinsic: seq<int>)
    requires nf >= 0 && SplitAdToEvol(ops, nf, intrinsic).Ok?
    ensures (200, 200) in ops
    ensures forall i :: 0 <= i < |intrinsic| ==>
      FlHolds(SplitAdToEvol(ops, nf, intrinsic).value, ops, IdLike(ops[(200, 200)]), intrinsic[i], nf)
  {
    SplitFails(ops, nf, intrinsic);
    WiredRun(ops, nf);
    if |intrinsic| > 0 {
      var m0 := Wire(ops, map[], Wired(nf)).value;
      MatchIntrinsicHolds(ops, m0, intrinsic, nf, IdLike(ops[(200, 200)]));
    }
  }

  // ---------------------------------------------------------------- building the map

  /** The intrinsic loop, one flavour at a time. */
  method MatchIntrinsicPass(ops: AdMembers, m0: map<string, OpMember>, fls: seq<int>, nf: int, id: OpMember)
    returns (r: Result<map<string, OpMember>>)
    ensures r == MatchIntrinsic(ops, m0, fls, nf, id)
  {
    var m := m0;
    for k := 0 to |fls|
      invariant MatchIntrinsic(ops, m0, fls[..k], nf, id) == Ok(m)
    {
      assert fls[..k + 1][..k] == fls[..k];
      var fl := fls[k];
      if !IsQuarkIndex(fl - 1) {
        MatchIntrinsicSticks(ops, m0, fls, nf, id, k + 1);
        return Err(IndexError);
      }
      var ihq := QuarkAt(fl - 1);
      if fl > nf + 1 {
        m := m[Diag(ihq + "+") := id];
        m := m[Diag(ihq + "-") := id];
      } else if fl == nf + 1 {
        var step := Assign(ops, m, MatchedEntries(ihq));
        if step.Err? {
          MatchIntrinsicSticks(ops, m0, fls, nf, id, k + 1);
          return step;
        }
        m := step.value;
      }
    }
    assert fls[..|fls|] == fls;
    r := Ok(m);
  }

  /** The V and T entries of flavour f, both the V.V member, added to the wiring up to f - 1. */
  method OmeStep(ops: AdMembers, m: map<string, OpMember>, vv: OpMember, f: int) returns (m2: map<string, OpMember>)
    requires 2 <= f && Wire(ops, map[], OmeFixed + OmeActive(f - 1)) == Ok(m)
    requires (200, 200) in ops && vv == ops[(200, 200)]
    ensures Wire(ops, map[], OmeFixed + OmeActive(f)) == Ok(m2)
  {
    assert OmeFixed + OmeActive(f) == (OmeFixed + OmeActive(f - 1)) + OmePair(f);
    WireAppend(ops, map[], OmeFixed + OmeActive(f - 1), OmePair(f));
    PairStep(ops, m, f);
    m2 := m[Diag(VName(f)) := vv];
    m2 := m2[Diag(TName(f)) := vv];
  }

  /** `split_ad_to_evol_map`, filling the dict entry by entry. */
  method SplitAdToEvolMap(ops: AdMembers, nf: int, intrinsic: seq<int>) returns (r: Result<map<string, OpMember>>)
    ensures r == SplitAdToEvol(ops, nf, intrinsic)
  {
    r := Assign(ops, map[], OmeFixed);
    if r.Err? {
      WireAppend(ops, map[], OmeFixed, OmeActive(nf));
      return;
    }
    var m := r.value;
    assert OmeFixed[4].name == "V.V";
    WireFails(ops, map[], OmeFixed);
    WireMeaning(ops, map[], OmeFixed);
    var vv := m["V.V"];
    assert OmeFixed + OmeActive(1) == OmeFixed;
    var f := 2;
    while f <= nf
      invariant 2 <= f && (f <= nf + 1 || f == 2)
      invariant Wire(ops, map[], OmeFixed + OmeActive(f - 1)) == Ok(m)
      invariant (200, 200) in ops && vv == ops[(200, 200)]
    {
      m := OmeStep(ops, m, vv, f);
      f := f + 1;
    }
    assert OmeActive(f - 1) == OmeActive(nf);
    if !IsQuarkIndex(nf) {
      return Err(IndexError);
    }
    var hq := QuarkAt(nf);
    r := Assign(ops, m, HeavyEntries(hq));
    if r.Err? || |intrinsic| == 0 {
      return;
    }
    r := MatchIntrinsicPass(ops, r.value, intrinsic, nf, IdLike(ops[(200, 200)]));
  }
}
