/**
 * The physical operator of one fixed-flavour evolution: the map from the
 * anomalous-dimension members to the evolution-basis entries
 * (`ad_to_evol_map`), and the rank-4 tensor over flavour pids and momentum
 * fractions those entries add up to (`to_flavor_basis_tensor`).
 */
module Physical {
  import opened Common
  import opened LinAlg
  import opened BasisRotation
  import opened Flavors

  /** An operator member: its value and its error on the momentum-fraction grid. */
  datatype OpMember = OpMember(value: Matrix, error: Matrix)

  /** `OpMember.id_like`: the identity with zero error, on the member's grid. */
  function IdLike(m: OpMember): OpMember
  {
    OpMember(Identity(|m.value|), Zeros(|m.value|, |m.value|))
  }

  /** The members of one evolution, keyed by anomalous-dimension labels such as (100, 21). */
  type AdMembers = map<(int, int), OpMember>

  /** One assignment `m[name] = op_members[key]`. */
  datatype Entry = Entry(name: string, key: (int, int))

  // ---------------------------------------------------------------- the wiring

  /** The constant entries of the QCD map. */
  const QcdFixed: seq<Entry> := [
    Entry("S.S", (100, 100)), Entry("S.g", (100, 21)), Entry("g.g", (21, 21)),
    Entry("g.S", (21, 100)), Entry("V.V", (NsValence, 0))]

  /** The V and T entries of the active flavours 2 <= f <= nf, from ns- and ns+. */
  function QcdActive(nf: int): seq<Entry>
    decreases nf
  {
    if nf < 2 then [] else QcdActive(nf - 1) + QcdPair(nf)
  }

  /** The V entry of flavour f from ns- and its T entry from ns+. */
  function QcdPair(f: int): seq<Entry>
  {
    [Entry(Diag(VName(f)), (NsMinus, 0)), Entry(Diag(TName(f)), (NsPlus, 0))]
  }

  /** The constant entries of the QED map. */
  const QedFixed: seq<Entry> := [
    Entry("g.g", (21, 21)), Entry("g.ph", (21, 22)), Entry("g.S", (21, 100)), Entry("g.Sdelta", (21, 101)),
    Entry("ph.g", (22, 21)), Entry("ph.ph", (22, 22)), Entry("ph.S", (22, 100)), Entry("ph.Sdelta", (22, 101)),
    Entry("S.g", (100, 21)), Entry("S.ph", (100, 22)), Entry("S.S", (100, 100)), Entry("S.Sdelta", (100, 101)),
    Entry("V.V", (NsValence, NsValence)), Entry("V.Vdelta", (NsValence, 10204)),
    Entry("Vdelta.V", (10204, NsValence)), Entry("Vdelta.Vdelta", (10204, 10204))]

  /** The QED entries that become active at nf = 3, 4, 5 and 6, two at a time. */
  const QedLight: seq<Entry> := [
    Entry("Td3.Td3", (NsPlusD, 0)), Entry("Vd3.Vd3", (NsMinusD, 0)),
    Entry("Tu3.Tu3", (NsPlusU, 0)), Entry("Vu3.Vu3", (NsMinusU, 0)),
    Entry("Td8.Td8", (NsPlusD, 0)), Entry("Vd8.Vd8", (NsMinusD, 0)),
    Entry("Tu8.Tu8", (NsPlusU, 0)), Entry("Vu8.Vu8", (NsMinusU, 0))]

  /** How many of the QED entries are active with nf flavours. */
  function QedCount(nf: int): nat
  {
    if nf >= 6 then 8 else if nf >= 3 then 2 * (nf - 2) else 0
  }

  /** Every assignment of the map before the intrinsic flavours, in the order they are made. */
  function Wiring(nf: int, isQed: bool): seq<Entry>
  {
    if isQed then QedFixed + QedLight[..QedCount(nf)] else QcdFixed + QcdActive(nf)
  }

  /** The map `m0` after the assignments `w` in order; a missing member is a KeyError. */
  function Wire(ops: AdMembers, m0: map<string, OpMember>, w: seq<Entry>): Result<map<string, OpMember>>
    decreases |w|
  {
    if |w| == 0 then Ok(m0)
    else
      match Wire(ops, m0, w[..|w| - 1])
      case Err(e) => Err(e)
      case Ok(m) =>
        var e := w[|w| - 1];
        if e.key in ops then Ok(m[e.name := ops[e.key]]) else Err(KeyError)
  }

  // ---------------------------------------------------------------- intrinsic flavours

  /** `"cbt"[fl - 4]` has an answer (Python also accepts the indices -3 to -1). */
  predicate InCbt(fl: int)
  {
    -3 <= fl - 4 < 3
  }

  /** The heavy quark `"cbt"[fl - 4]`, negative indices counting from the end. */
  function Hq(fl: int): string
    requires InCbt(fl)
  {
    var i := fl - 4;
    ["cbt"[if i < 0 then i + 3 else i]]
  }

  /** The key "h+.h+" or "h-.h-" of the intrinsic quark fl. */
  function IntrinsicKey(fl: int, sign: string): string
    requires InCbt(fl)
  {
    Diag(Hq(fl) + sign)
  }

  /** The loop over the intrinsic flavours: each one above nf evolves with `id`. */
  function Intrinsic(m0: map<string, OpMember>, fls: seq<int>, nf: int, id: OpMember): Result<map<string, OpMember>>
    decreases |fls|
  {
    if |fls| == 0 then Ok(m0)
    else
      match Intrinsic(m0, fls[..|fls| - 1], nf, id)
      case Err(e) => Err(e)
      case Ok(m) =>
        var fl := fls[|fls| - 1];
        if fl <= nf then Ok(m)
        else if !InCbt(fl) then Err(IndexError)
        else Ok(m[IntrinsicKey(fl, "+") := id][IntrinsicKey(fl, "-") := id])
  }

  /**
   * `ad_to_evol_map`: the wired entries, then the intrinsic flavours. In the
   * QCD case the intrinsic loop runs twice, first with the identity shaped
   * like the valence member and then with the one shaped like the gluon
   * member; in the QED case once, with the identity shaped like V.V.
   */
  function AdToEvol(ops: AdMembers, nf: int, intrinsic: Option<seq<int>>, isQed: bool): Result<map<string, OpMember>>
  {
    var w := Wiring(nf, isQed);
    match Wire(ops, map[], w)
    case Err(e) => Err(e)
    case Ok(m) =>
      if intrinsic.None? then Ok(m)
      else
        WireFails(ops, map[], w);
        if isQed then
          assert w[12].key == (NsValence, NsValence);
          Intrinsic(m, intrinsic.value, nf, IdLike(ops[(NsValence, NsValence)]))
        else
          assert w[2].key == (21, 21) && w[4].key == (NsValence, 0);
          match Intrinsic(m, intrinsic.value, nf, IdLike(ops[(NsValence, 0)]))
          case Err(e) => Err(e)
          case Ok(m1) => Intrinsic(m1, intrinsic.value, nf, IdLike(ops[(21, 21)]))
  }

  // ---------------------------------------------------------------- wiring lemmas

  /** The assignments succeed exactly when every member they read is there; otherwise a KeyError. */
  lemma {:induction false} WireFails(ops: AdMembers, m0: map<string, OpMember>, w: seq<Entry>)
    ensures Wire(ops, m0, w).Ok? <==> forall i :: 0 <= i < |w| ==> w[i].key in ops
    ensures Wire(ops, m0, w).Err? ==> Wire(ops, m0, w).error == KeyError
    decreases |w|
  {
    if |w| > 0 {
      WireFails(ops, m0, w[..|w| - 1]);
    }
  }

  /** Running `a` then `b` is running `a + b`. */
  lemma {:induction false} WireAppend(ops: AdMembers, m0: map<string, OpMember>, a: seq<Entry>, b: seq<Entry>)
    ensures Wire(ops, m0, a + b) == (match Wire(ops, m0, a) case Err(e) => Err(e) case Ok(m) => Wire(ops, m, b))
    decreases |b|
  {
    if |b| == 0 {
      assert a + b == a;
    } else {
      assert (a + b)[..|a + b| - 1] == a + b[..|b| - 1];
      WireAppend(ops, m0, a, b[..|b| - 1]);
    }
  }

  /** A failing prefix makes the whole wiring fail with a KeyError. */
  lemma PrefixFails(ops: AdMembers, m0: map<string, OpMember>, w: seq<Entry>, k: nat)
    requires k <= |w| && Wire(ops, m0, w[..k]).Err?
    ensures Wire(ops, m0, w) == Err(KeyError)
  {
    WireFails(ops, m0, w[..k]);
    WireFails(ops, m0, w);
    var i :| 0 <= i < k && w[..k][i].key !in ops;
    assert w[i].key !in ops;
  }

  /** Two assignments to the same name read the same member. */
  predicate Consistent(w: seq<Entry>)
  {
    forall i, j :: 0 <= i < |w| && 0 <= j < |w| && w[i].name == w[j].name ==> w[i].key == w[j].key
  }

  /** The names the assignments write. */
  function Names(w: seq<Entry>): set<string>
  {
    set i | 0 <= i < |w| :: w[i].name
  }

  /**
   * Consistent assignments give exactly the names they write, each holding
   * the member its entry reads, and leave every other name of `m0` alone.
   */
  lemma WireMeaning(ops: AdMembers, m0: map<string, OpMember>, w: seq<Entry>)
    requires Consistent(w) && Wire(ops, m0, w).Ok?
    ensures Wire(ops, m0, w).value.Keys == m0.Keys + Names(w)
    ensures forall i :: 0 <= i < |w| ==> w[i].key in ops && Wire(ops, m0, w).value[w[i].name] == ops[w[i].key]
    ensures forall k :: k in m0 && k !in Names(w) ==> Wire(ops, m0, w).value[k] == m0[k]
  {
    WireKeys(ops, m0, w);
    WireValues(ops, m0, w);
    WireKeeps(ops, m0, w);
  }

  /** The names of w are those of its prefix and the name of its last entry. */
  lemma NamesSnoc(w: seq<Entry>)
    requires |w| > 0
    ensures Names(w) == Names(w[..|w| - 1]) + {w[|w| - 1].name}
  {
    var p := w[..|w| - 1];
    forall x | x in Names(w) ensures x in Names(p) + {w[|w| - 1].name} {
      var i :| 0 <= i < |w| && w[i].name == x;
      if i < |w| - 1 {
        assert p[i].name == x;
      }
    }
    forall x | x in Names(p) ensures x in Names(w) {
      var i :| 0 <= i < |p| && p[i].name == x;
      assert w[i].name == x;
    }
  }

  /** Successful assignments have the names of m0 and the names they write. */
  lemma {:induction false} WireKeys(ops: AdMembers, m0: map<string, OpMember>, w: seq<Entry>)
    requires Wire(ops, m0, w).Ok?
    ensures Wire(ops, m0, w).value.Keys == m0.Keys + Names(w)
    decreases |w|
  {
    if |w| > 0 {
      WireKeys(ops, m0, w[..|w| - 1]);
      NamesSnoc(w);
    } else {
      assert Names(w) == {};
    }
  }

  /** Consistent successful assignments hold, under every name written, the member its entries read. */
  lemma {:induction false} WireValues(ops: AdMembers, m0: map<string, OpMember>, w: seq<Entry>)
    requires Consistent(w) && Wire(ops, m0, w).Ok?
    ensures forall i :: 0 <= i < |w| ==> w[i].key in ops && w[i].name in Wire(ops, m0, w).value && Wire(ops, m0, w).value[w[i].name] == ops[w[i].key]
    decreases |w|
  {
    if |w| > 0 {
      var p := w[..|w| - 1];
      assert Consistent(p);
      WireValues(ops, m0, p);
      var last := w[|w| - 1];
      forall i | 0 <= i < |w|
        ensures w[i].key in ops && w[i].name in Wire(ops, m0, w).value && Wire(ops, m0, w).value[w[i].name] == ops[w[i].key]
      {
        if i < |w| - 1 && w[i].name != last.name {
          assert p[i] == w[i];
        }
      }
    }
  }

  /** Successful assignments leave every name they do not write as m0 has it. */
  lemma {:induction false} WireKeeps(ops: AdMembers, m0: map<string, OpMember>, w: seq<Entry>)
    requires Wire(ops, m0, w).Ok?
    ensures forall k :: k in m0 && k !in Names(w) ==> k in Wire(ops, m0, w).value && Wire(ops, m0, w).value[k] == m0[k]
    decreases |w|
  {
    if |w| > 0 {
      WireKeys(ops, m0, w[..|w| - 1]);
      WireKeeps(ops, m0, w[..|w| - 1]);
      NamesSnoc(w);
    }
  }

  /** The first letter of a V or T entry of the active QCD flavours, and the member it reads. */
  predicate ActiveShape(e: Entry)
  {
    |e.name| >= 2 && e.name[1] != '.' &&
    ((e.name[0] == 'V' && e.key == (NsMinus, 0)) || (e.name[0] == 'T' && e.key == (NsPlus, 0)))
  }

  /** Every entry of the active QCD flavours is a V entry read from ns- or a T entry read from ns+. */
  lemma {:induction false} QcdActiveShape(nf: int)
    ensures forall e :: e in QcdActive(nf) ==> ActiveShape(e)
    decreases nf
  {
    if nf >= 2 {
      QcdActiveShape(nf - 1);
      var n := IntStr(nf * nf - 1);
      assert Diag(VName(nf)) == "V" + n + "." + "V" + n;
      assert Diag(TName(nf)) == "T" + n + "." + "T" + n;
      assert n[0] != '.';
    }
  }

  /** The QCD entries of the active flavours 2 <= f <= nf. */
  lemma {:induction false} QcdActiveHas(nf: int, f: int)
    requires 2 <= f <= nf
    ensures Entry(Diag(VName(f)), (NsMinus, 0)) in QcdActive(nf)
    ensures Entry(Diag(TName(f)), (NsPlus, 0)) in QcdActive(nf)
    decreases nf
  {
    if f < nf {
      QcdActiveHas(nf - 1, f);
    }
  }

  /** No QCD name is written twice with two different members. */
  lemma QcdConsistent(nf: int)
    ensures Consistent(Wiring(nf, false))
  {
    var w := Wiring(nf, false);
    QcdActiveShape(nf);
    assert forall i :: 5 <= i < |w| ==> w[i] in QcdActive(nf);
    assert forall i :: 0 <= i < 5 ==> w[i].name[1] == '.';
    forall i, j | 0 <= i < |w| && 0 <= j < |w| && w[i].name == w[j].name
      ensures w[i].key == w[j].key
    {
      if i >= 5 && j >= 5 {
        assert ActiveShape(w[i]) && ActiveShape(w[j]);
      }
    }
  }

  /** The QED names are pairwise different. */
  lemma QedNamesDistinct()
    ensures forall i, j :: 0 <= i < j < 24 ==> (QedFixed + QedLight)[i].name != (QedFixed + QedLight)[j].name
  {
  }

  /** No QED name is written twice. */
  lemma QedConsistent(nf: int)
    ensures Consistent(Wiring(nf, true))
  {
    var all := QedFixed + QedLight;
    var w := Wiring(nf, true);
    QedNamesDistinct();
    assert |w| <= 24 && forall i :: 0 <= i < |w| ==> w[i] == all[i];
  }

  /** No name is written twice with two different members. */
  lemma WiringConsistent(nf: int, isQed: bool)
    ensures Consistent(Wiring(nf, isQed))
  {
    if isQed {
      QedConsistent(nf);
    } else {
      QcdConsistent(nf);
    }
  }

  /** The first letters of the wired names: S, g, V, T or p. */
  predicate WiredInitial(c: char)
  {
    c == 'S' || c == 'g' || c == 'V' || c == 'T' || c == 'p'
  }

  /** The first letters of the heavy quarks: c, b or t. */
  predicate HeavyInitial(c: char)
  {
    c == 'c' || c == 'b' || c == 't'
  }

  /** Every name written before the intrinsic flavours starts with S, g, V, T or p. */
  lemma WiringFirstChars(nf: int, isQed: bool)
    ensures forall i :: 0 <= i < |Wiring(nf, isQed)| ==>
      |Wiring(nf, isQed)[i].name| > 0 && WiredInitial(Wiring(nf, isQed)[i].name[0])
  {
    var w := Wiring(nf, isQed);
    if !isQed {
      QcdActiveShape(nf);
      assert forall i :: 5 <= i < |w| ==> w[i] in QcdActive(nf);
    } else {
      assert forall i :: 0 <= i < |w| ==> w[i] == (QedFixed + QedLight)[i];
    }
  }

  // ---------------------------------------------------------------- intrinsic lemmas

  /** The intrinsic loop fails exactly when a flavour above nf has no heavy-quark name, with an IndexError. */
  lemma {:induction false} IntrinsicFails(m0: map<string, OpMember>, fls: seq<int>, nf: int, id: OpMember)
    ensures Intrinsic(m0, fls, nf, id).Ok? <==> forall i :: 0 <= i < |fls| && fls[i] > nf ==> InCbt(fls[i])
    ensures Intrinsic(m0, fls, nf, id).Err? ==> Intrinsic(m0, fls, nf, id).error == IndexError
    decreases |fls|
  {
    if |fls| > 0 {
      IntrinsicFails(m0, fls[..|fls| - 1], nf, id);
    }
  }

  /** An intrinsic key starts with c, b or t. */
  lemma IntrinsicKeyShape(fl: int, sign: string)
    requires InCbt(fl)
    ensures |IntrinsicKey(fl, sign)| > 0 && HeavyInitial(IntrinsicKey(fl, sign)[0])
  {
  }

  /** The key is one of the two keys of an intrinsic flavour above nf among fls. */
  predicate IntrinsicOf(key: string, fls: seq<int>, nf: int)
  {
    exists i :: 0 <= i < |fls| && nf < fls[i] && InCbt(fls[i]) &&
      (key == IntrinsicKey(fls[i], "+") || key == IntrinsicKey(fls[i], "-"))
  }

  /**
   * A successful intrinsic loop gives every flavour above nf its two keys,
   * holding `id`; every key not starting with c, b or t keeps its value, and
   * no other key is added (flavours up to nf add nothing).
   */
  lemma IntrinsicMeaning(m0: map<string, OpMember>, fls: seq<int>, nf: int, id: OpMember)
    requires Intrinsic(m0, fls, nf, id).Ok?
    ensures forall i :: 0 <= i < |fls| && fls[i] > nf ==>
      InCbt(fls[i]) &&
      IntrinsicKey(fls[i], "+") in Intrinsic(m0, fls, nf, id).value &&
      IntrinsicKey(fls[i], "-") in Intrinsic(m0, fls, nf, id).value &&
      Intrinsic(m0, fls, nf, id).value[IntrinsicKey(fls[i], "+")] == id &&
      Intrinsic(m0, fls, nf, id).value[IntrinsicKey(fls[i], "-")] == id
    ensures forall k :: k in m0 && (|k| == 0 || !HeavyInitial(k[0])) ==>
      k in Intrinsic(m0, fls, nf, id).value && Intrinsic(m0, fls, nf, id).value[k] == m0[k]
    ensures forall k :: k in Intrinsic(m0, fls, nf, id).value ==> k in m0 || IntrinsicOf(k, fls, nf)
  {
    IntrinsicSets(m0, fls, nf, id);
    IntrinsicKeeps(m0, fls, nf, id);
    IntrinsicOnly(m0, fls, nf, id);
  }

  /** Every flavour above nf gets its two keys, holding `id`. */
  lemma {:induction false} IntrinsicSets(m0: map<string, OpMember>, fls: seq<int>, nf: int, id: OpMember)
    requires Intrinsic(m0, fls, nf, id).Ok?
    ensures forall i :: 0 <= i < |fls| && fls[i] > nf ==>
      InCbt(fls[i]) &&
      IntrinsicKey(fls[i], "+") in Intrinsic(m0, fls, nf, id).value &&
      IntrinsicKey(fls[i], "-") in Intrinsic(m0, fls, nf, id).value &&
      Intrinsic(m0, fls, nf, id).value[IntrinsicKey(fls[i], "+")] == id &&
      Intrinsic(m0, fls, nf, id).value[IntrinsicKey(fls[i], "-")] == id
    decreases |fls|
  {
    if |fls| > 0 {
      var p := fls[..|fls| - 1];
      IntrinsicSets(m0, p, nf, id);
      var r := Intrinsic(m0, fls, nf, id).value;
      forall i | 0 <= i < |fls| && fls[i] > nf
        ensures InCbt(fls[i]) && IntrinsicKey(fls[i], "+") in r && IntrinsicKey(fls[i], "-") in r
        ensures r[IntrinsicKey(fls[i], "+")] == id && r[IntrinsicKey(fls[i], "-")] == id
      {
        if i < |fls| - 1 {
          assert p[i] == fls[i];
        }
      }
    }
  }

  /** Every key of m0 not starting with c, b or t keeps its value. */
  lemma {:induction false} IntrinsicKeeps(m0: map<string, OpMember>, fls: seq<int>, nf: int, id: OpMember)
    requires Intrinsic(m0, fls, nf, id).Ok?
    ensures forall k :: k in m0 && (|k| == 0 || !HeavyInitial(k[0])) ==>
      k in Intrinsic(m0, fls, nf, id).value && Intrinsic(m0, fls, nf, id).value[k] == m0[k]
    decreases |fls|
  {
    if |fls| > 0 {
      IntrinsicKeeps(m0, fls[..|fls| - 1], nf, id);
      var fl := fls[|fls| - 1];
      if fl > nf {
        IntrinsicKeyShape(fl, "+");
        IntrinsicKeyShape(fl, "-");
      }
    }
  }

  /** No key is added but those of the flavours above nf. */
  lemma {:induction false} IntrinsicOnly(m0: map<string, OpMember>, fls: seq<int>, nf: int, id: OpMember)
    requires Intrinsic(m0, fls, nf, id).Ok?
    ensures forall k :: k in Intrinsic(m0, fls, nf, id).value ==> k in m0 || IntrinsicOf(k, fls, nf)
    decreases |fls|
  {
    if |fls| > 0 {
      var p := fls[..|fls| - 1];
      IntrinsicOnly(m0, p, nf, id);
      var m := Intrinsic(m0, p, nf, id).value;
      var fl := fls[|fls| - 1];
      var r := Intrinsic(m0, fls, nf, id).value;
      forall k | k in r
        ensures k in m0 || IntrinsicOf(k, fls, nf)
      {
        if k !in m0 {
          if k in m {
            var i :| 0 <= i < |p| && nf < p[i] && InCbt(p[i]) &&
              (k == IntrinsicKey(p[i], "+") || k == IntrinsicKey(p[i], "-"));
            assert fls[i] == p[i];
          } else {
            assert nf < fl && InCbt(fl) && (k == IntrinsicKey(fl, "+") || k == IntrinsicKey(fl, "-"));
            assert fls[|fls| - 1] == fl;
          }
        }
      }
    }
  }

  /** Once the intrinsic loop fails, the rest of the loop keeps the failure. */
  lemma {:induction false} IntrinsicSticks(m0: map<string, OpMember>, fls: seq<int>, nf: int, id: OpMember, k: nat)
    requires k <= |fls| && Intrinsic(m0, fls[..k], nf, id).Err?
    ensures Intrinsic(m0, fls, nf, id) == Intrinsic(m0, fls[..k], nf, id)
    decreases |fls| - k
  {
    if k < |fls| {
      assert fls[..k + 1][..k] == fls[..k];
      IntrinsicSticks(m0, fls, nf, id, k + 1);
    } else {
      assert fls[..k] == fls;
    }
  }

  // ---------------------------------------------------------------- what ad_to_evol_map gives

  /** Every member the wiring reads is there. */
  predicate AllRead(ops: AdMembers, nf: int, isQed: bool)
  {
    var w := Wiring(nf, isQed);
    forall i :: 0 <= i < |w| ==> w[i].key in ops
  }

  /** Every intrinsic flavour above nf names c, b or t. */
  predicate AllHeavy(fls: seq<int>, nf: int)
  {
    forall i :: 0 <= i < |fls| && fls[i] > nf ==> InCbt(fls[i])
  }

  /** The member whose shape the intrinsic identity takes: the gluon (QCD) or V.V (QED). */
  function IdSource(isQed: bool): (int, int)
  {
    if isQed then (NsValence, NsValence) else (21, 21)
  }

  /** The wired map holds every wired entry's member. */
  lemma WiredEntries(ops: AdMembers, nf: int, isQed: bool)
    requires Wire(ops, map[], Wiring(nf, isQed)).Ok?
    ensures var w := Wiring(nf, isQed); var m := Wire(ops, map[], w).value;
      forall i :: 0 <= i < |w| ==> w[i].key in ops && w[i].name in m && m[w[i].name] == ops[w[i].key]
  {
    WiringConsistent(nf, isQed);
    WireMeaning(ops, map[], Wiring(nf, isQed));
  }

  /** The wired map holds only the wired names, none starting with c, b or t. */
  lemma WiredKeys(ops: AdMembers, nf: int, isQed: bool)
    requires Wire(ops, map[], Wiring(nf, isQed)).Ok?
    ensures var w := Wiring(nf, isQed); var m := Wire(ops, map[], w).value;
      forall k :: k in m ==> k in Names(w) && |k| > 0 && !HeavyInitial(k[0])
  {
    var w := Wiring(nf, isQed);
    WiringConsistent(nf, isQed);
    WireMeaning(ops, map[], w);
    WiringFirstChars(nf, isQed);
  }

  /** The members the intrinsic identities are shaped like are among those read. */
  lemma IdSourceRead(ops: AdMembers, nf: int, isQed: bool)
    requires Wire(ops, map[], Wiring(nf, isQed)).Ok?
    ensures IdSource(isQed) in ops && (!isQed ==> (NsValence, 0) in ops)
  {
    var w := Wiring(nf, isQed);
    WireFails(ops, map[], w);
    if isQed {
      assert w[12].key == QedFixed[12].key == (NsValence, NsValence);
    } else {
      assert w[2].key == QcdFixed[2].key == (21, 21);
      assert w[4].key == QcdFixed[4].key == (NsValence, 0);
    }
  }

  /** The wired map holds every wired entry's member, and only the wired names. */
  lemma WiredMap(ops: AdMembers, nf: int, isQed: bool)
    requires Wire(ops, map[], Wiring(nf, isQed)).Ok?
    ensures var w := Wiring(nf, isQed); var m := Wire(ops, map[], w).value;
      forall i :: 0 <= i < |w| ==> w[i].key in ops && w[i].name in m && m[w[i].name] == ops[w[i].key]
    ensures var w := Wiring(nf, isQed); var m := Wire(ops, map[], w).value;
      forall k :: k in m ==> k in Names(w) && |k| > 0 && !HeavyInitial(k[0])
    ensures IdSource(isQed) in ops && (!isQed ==> (NsValence, 0) in ops)
  {
    WiredEntries(ops, nf, isQed);
    WiredKeys(ops, nf, isQed);
    IdSourceRead(ops, nf, isQed);
  }

  /**
   * `ad_to_evol_map` succeeds exactly when every member it reads is there
   * (a KeyError otherwise) and every intrinsic flavour above nf names c, b
   * or t (an IndexError otherwise).
   */
  lemma AdToEvolFails(ops: AdMembers, nf: int, intrinsic: Option<seq<int>>, isQed: bool)
    ensures AdToEvol(ops, nf, intrinsic, isQed).Ok? <==>
      AllRead(ops, nf, isQed) && (intrinsic.Some? ==> AllHeavy(intrinsic.value, nf))
    ensures AdToEvol(ops, nf, intrinsic, isQed).Err? ==>
      AdToEvol(ops, nf, intrinsic, isQed).error == if AllRead(ops, nf, isQed) then IndexError else KeyError
  {
    var w := Wiring(nf, isQed);
    WireFails(ops, map[], w);
    if Wire(ops, map[], w).Ok? && intrinsic.Some? {
      WiredMap(ops, nf, isQed);
      var m := Wire(ops, map[], w).value;
      var fls := intrinsic.value;
      if isQed {
        IntrinsicFails(m, fls, nf, IdLike(ops[(NsValence, NsValence)]));
      } else {
        var id1 := IdLike(ops[(NsValence, 0)]);
        IntrinsicFails(m, fls, nf, id1);
        if Intrinsic(m, fls, nf, id1).Ok? {
          IntrinsicFails(Intrinsic(m, fls, nf, id1).value, fls, nf, IdLike(ops[(21, 21)]));
        }
      }
    }
  }

  /**
   * A successful `ad_to_evol_map` holds each wired entry's member, gives
   * each intrinsic flavour above nf the identity shaped like the gluon
   * member (QCD) or the V.V member (QED), and holds nothing else: intrinsic
   * flavours up to nf add no entry.
   */
  lemma AdToEvolEntries(ops: AdMembers, nf: int, intrinsic: Option<seq<int>>, isQed: bool)
    requires AdToEvol(ops, nf, intrinsic, isQed).Ok?
    ensures var w := Wiring(nf, isQed); var m := AdToEvol(ops, nf, intrinsic, isQed).value;
      forall i :: 0 <= i < |w| ==> w[i].key in ops && w[i].name in m && m[w[i].name] == ops[w[i].key]
    ensures var m := AdToEvol(ops, nf, intrinsic, isQed).value;
      intrinsic.Some? ==> (IdSource(isQed) in ops &&
        forall i :: 0 <= i < |intrinsic.value| && intrinsic.value[i] > nf ==> (
          InCbt(intrinsic.value[i]) &&
          IntrinsicKey(intrinsic.value[i], "+") in m && m[IntrinsicKey(intrinsic.value[i], "+")] == IdLike(ops[IdSource(isQed)]) &&
          IntrinsicKey(intrinsic.value[i], "-") in m && m[IntrinsicKey(intrinsic.value[i], "-")] == IdLike(ops[IdSource(isQed)])))
    ensures var m := AdToEvol(ops, nf, intrinsic, isQed).value;
      forall k :: k in m ==> k in Names(Wiring(nf, isQed)) || (intrinsic.Some? && IntrinsicOf(k, intrinsic.value, nf))
  {
    var w := Wiring(nf, isQed);
    WiredMap(ops, nf, isQed);
    var m := Wire(ops, map[], w).value;
    if intrinsic.Some? {
      var fls := intrinsic.value;
      if isQed {
        IntrinsicMeaning(m, fls, nf, IdLike(ops[(NsValence, NsValence)]));
      } else {
        var id1 := IdLike(ops[(NsValence, 0)]);
        var m1 := Intrinsic(m, fls, nf, id1).value;
        IntrinsicMeaning(m, fls, nf, id1);
        IntrinsicMeaning(m1, fls, nf, IdLike(ops[(21, 21)]));
      }
    }
  }

  /**
   * The QCD map: S.S, S.g, g.g, g.S and V.V from their members, and the V
   * and T entries of every active flavour 2 <= f <= nf from ns- and ns+.
   */
  lemma QcdEntries(ops: AdMembers, nf: int, intrinsic: Option<seq<int>>)
    requires AdToEvol(ops, nf, intrinsic, false).Ok?
    ensures var m := AdToEvol(ops, nf, intrinsic, false).value;
      && (100, 100) in ops && "S.S" in m && m["S.S"] == ops[(100, 100)]
      && (100, 21) in ops && "S.g" in m && m["S.g"] == ops[(100, 21)]
      && (21, 21) in ops && "g.g" in m && m["g.g"] == ops[(21, 21)]
      && (21, 100) in ops && "g.S" in m && m["g.S"] == ops[(21, 100)]
      && (NsValence, 0) in ops && "V.V" in m && m["V.V"] == ops[(NsValence, 0)]
    ensures var m := AdToEvol(ops, nf, intrinsic, false).value;
      forall f :: 2 <= f <= nf ==>
        && (NsMinus, 0) in ops && Diag(VName(f)) in m && m[Diag(VName(f))] == ops[(NsMinus, 0)]
        && (NsPlus, 0) in ops && Diag(TName(f)) in m && m[Diag(TName(f))] == ops[(NsPlus, 0)]
  {
    AdToEvolEntries(ops, nf, intrinsic, false);
    var w := Wiring(nf, false);
    assert w[0] == Entry("S.S", (100, 100)) && w[1] == Entry("S.g", (100, 21)) && w[2] == Entry("g.g", (21, 21));
    assert w[3] == Entry("g.S", (21, 100)) && w[4] == Entry("V.V", (NsValence, 0));
    forall f | 2 <= f <= nf
      ensures Entry(Diag(VName(f)), (NsMinus, 0)) in w && Entry(Diag(TName(f)), (NsPlus, 0)) in w
    {
      QcdActiveHas(nf, f);
    }
  }

  /** The QED map: Td3/Vd3 from nf >= 3, Tu3/Vu3 from nf >= 4, Td8/Vd8 from nf >= 5 and Tu8/Vu8 from nf >= 6. */
  lemma QedEntries(ops: AdMembers, nf: int, intrinsic: Option<seq<int>>)
    requires AdToEvol(ops, nf, intrinsic, true).Ok?
    ensures var m := AdToEvol(ops, nf, intrinsic, true).value;
      && (NsValence, NsValence) in ops && "V.V" in m && m["V.V"] == ops[(NsValence, NsValence)]
      && (22, 22) in ops && "ph.ph" in m && m["ph.ph"] == ops[(22, 22)]
    ensures var m := AdToEvol(ops, nf, intrinsic, true).value;
      nf >= 3 ==> ((NsPlusD, 0) in ops && (NsMinusD, 0) in ops &&
        "Td3.Td3" in m && m["Td3.Td3"] == ops[(NsPlusD, 0)] && "Vd3.Vd3" in m && m["Vd3.Vd3"] == ops[(NsMinusD, 0)])
    ensures var m := AdToEvol(ops, nf, intrinsic, true).value;
      nf >= 4 ==> ((NsPlusU, 0) in ops && (NsMinusU, 0) in ops &&
        "Tu3.Tu3" in m && m["Tu3.Tu3"] == ops[(NsPlusU, 0)] && "Vu3.Vu3" in m && m["Vu3.Vu3"] == ops[(NsMinusU, 0)])
    ensures var m := AdToEvol(ops, nf, intrinsic, true).value;
      nf >= 5 ==> ((NsPlusD, 0) in ops && (NsMinusD, 0) in ops &&
        "Td8.Td8" in m && m["Td8.Td8"] == ops[(NsPlusD, 0)] && "Vd8.Vd8" in m && m["Vd8.Vd8"] == ops[(NsMinusD, 0)])
    ensures var m := AdToEvol(ops, nf, intrinsic, true).value;
      nf >= 6 ==> ((NsPlusU, 0) in ops && (NsMinusU, 0) in ops &&
        "Tu8.Tu8" in m && m["Tu8.Tu8"] == ops[(NsPlusU, 0)] && "Vu8.Vu8" in m && m["Vu8.Vu8"] == ops[(NsMinusU, 0)])
    ensures var m := AdToEvol(ops, nf, intrinsic, true).value;
      nf < 3 ==> "Td3.Td3" !in m && "Vd3.Vd3" !in m
  {
    var w := Wiring(nf, true);
    assert w[12] == QedFixed[12] && w[5] == QedFixed[5];
    QedWiredAt(ops, nf, intrinsic, 12);
    QedWiredAt(ops, nf, intrinsic, 5);
    if nf >= 3 {
      assert w[16] == QedLight[0] && w[17] == QedLight[1];
      QedWiredAt(ops, nf, intrinsic, 16);
      QedWiredAt(ops, nf, intrinsic, 17);
    }
    if nf >= 4 {
      assert w[18] == QedLight[2] && w[19] == QedLight[3];
      QedWiredAt(ops, nf, intrinsic, 18);
      QedWiredAt(ops, nf, intrinsic, 19);
    }
    if nf >= 5 {
      assert w[20] == QedLight[4] && w[21] == QedLight[5];
      QedWiredAt(ops, nf, intrinsic, 20);
      QedWiredAt(ops, nf, intrinsic, 21);
    }
    if nf >= 6 {
      assert w[22] == QedLight[6] && w[23] == QedLight[7];
      QedWiredAt(ops, nf, intrinsic, 22);
      QedWiredAt(ops, nf, intrinsic, 23);
    }
    if nf < 3 {
      QedInactive(ops, nf, intrinsic);
    }
  }

  /** The i-th QED wiring entry is in the map, holding the member it names. */
  lemma QedWiredAt(ops: AdMembers, nf: int, intrinsic: Option<seq<int>>, i: nat)
    requires AdToEvol(ops, nf, intrinsic, true).Ok? && i < |Wiring(nf, true)|
    ensures var w := Wiring(nf, true); var m := AdToEvol(ops, nf, intrinsic, true).value;
      w[i].key in ops && w[i].name in m && m[w[i].name] == ops[w[i].key]
  {
    AdToEvolEntries(ops, nf, intrinsic, true);
  }

  /** Below three flavours the QED map has no Td3 and Vd3 entries. */
  lemma QedInactive(ops: AdMembers, nf: int, intrinsic: Option<seq<int>>)
    requires nf < 3 && AdToEvol(ops, nf, intrinsic, true).Ok?
    ensures "Td3.Td3" !in AdToEvol(ops, nf, intrinsic, true).value
    ensures "Vd3.Vd3" !in AdToEvol(ops, nf, intrinsic, true).value
  {
    AdToEvolEntries(ops, nf, intrinsic, true);
    var w := Wiring(nf, true);
    assert w == QedFixed;
    assert "Td3.Td3" !in Names(w) && "Vd3.Vd3" !in Names(w);
    if intrinsic.Some? {
      assert !IntrinsicOf("Td3.Td3", intrinsic.value, nf);
      assert !IntrinsicOf("Vd3.Vd3", intrinsic.value, nf);
    }
  }


  // ---------------------------------------------------------------- building the map

  /** The assignments of `w`, one at a time. */
  method Assign(ops: AdMembers, m0: map<string, OpMember>, w: seq<Entry>) returns (r: Result<map<string, OpMember>>)
    ensures r == Wire(ops, m0, w)
  {
    var m := m0;
    for k := 0 to |w|
      invariant Wire(ops, m0, w[..k]) == Ok(m)
    {
      assert w[..k + 1][..k] == w[..k];
      if w[k].key !in ops {
        PrefixFails(ops, m0, w, k + 1);
        WireFails(ops, m0, w[..k + 1]);
        return Err(KeyError);
      }
      m := m[w[k].name := ops[w[k].key]];
    }
    assert w[..|w|] == w;
    r := Ok(m);
  }

  /** The intrinsic loop, one flavour at a time. */
  method IntrinsicPass(m0: map<string, OpMember>, fls: seq<int>, nf: int, id: OpMember) returns (r: Result<map<string, OpMember>>)
    ensures r == Intrinsic(m0, fls, nf, id)
  {
    var m := m0;
    for k := 0 to |fls|
      invariant Intrinsic(m0, fls[..k], nf, id) == Ok(m)
    {
      assert fls[..k + 1][..k] == fls[..k];
      var fl := fls[k];
      if fl <= nf {
        continue;
      }
      if !InCbt(fl) {
        IntrinsicSticks(m0, fls, nf, id, k + 1);
        return Err(IndexError);
      }
      var hq := Hq(fl);
      m := m[Diag(hq + "+") := id];
      m := m[Diag(hq + "-") := id];
    }
    assert fls[..|fls|] == fls;
    r := Ok(m);
  }

  /** A failing QCD prefix up to flavour f <= nf makes the whole QCD wiring fail with a KeyError. */
  lemma QcdPrefixFails(ops: AdMembers, nf: int, f: int)
    requires 2 <= f <= nf && Wire(ops, map[], QcdFixed + QcdActive(f)).Err?
    ensures Wire(ops, map[], QcdFixed + QcdActive(f)) == Err(KeyError)
    ensures Wire(ops, map[], Wiring(nf, false)) == Err(KeyError)
  {
    var p := QcdFixed + QcdActive(f);
    var w := Wiring(nf, false);
    WireFails(ops, map[], p);
    WireFails(ops, map[], w);
    var i :| 0 <= i < |p| && p[i].key !in ops;
    if i < 5 {
      assert w[i] == p[i];
    } else {
      QcdActiveShape(f);
      assert p[i] in QcdActive(f);
      QcdActiveHas(nf, f);
      assert QcdPair(f)[0] in w && QcdPair(f)[1] in w;
    }
  }

  /** The V and T entries of flavour f, added to the wiring up to f - 1. */
  method QcdStep(ops: AdMembers, m: map<string, OpMember>, f: int) returns (r: Result<map<string, OpMember>>)
    requires 2 <= f && Wire(ops, map[], QcdFixed + QcdActive(f - 1)) == Ok(m)
    ensures r == Wire(ops, map[], QcdFixed + QcdActive(f))
  {
    assert QcdFixed + QcdActive(f) == (QcdFixed + QcdActive(f - 1)) + QcdPair(f);
    WireAppend(ops, map[], QcdFixed + QcdActive(f - 1), QcdPair(f));
    r := Assign(ops, m, QcdPair(f));
  }

  /** The active QCD entries, flavour by flavour. */
  method QcdWiring(ops: AdMembers, nf: int) returns (r: Result<map<string, OpMember>>)
    ensures r == Wire(ops, map[], Wiring(nf, false))
  {
    var w := Wiring(nf, false);
    r := Assign(ops, map[], QcdFixed);
    if r.Err? {
      assert w[..5] == QcdFixed;
      WireFails(ops, map[], QcdFixed);
      PrefixFails(ops, map[], w, 5);
      return;
    }
    assert QcdFixed + QcdActive(1) == QcdFixed;
    var m := r.value;
    var f := 2;
    while f <= nf
      invariant 2 <= f && (f <= nf + 1 || f == 2)
      invariant Wire(ops, map[], QcdFixed + QcdActive(f - 1)) == Ok(m)
    {
      r := QcdStep(ops, m, f);
      if r.Err? {
        QcdPrefixFails(ops, nf, f);
        return;
      }
      m := r.value;
      f := f + 1;
    }
    assert QcdActive(f - 1) == QcdActive(nf);
    r := Ok(m);
  }

  /** A failing QED prefix makes the whole QED wiring fail with a KeyError. */
  lemma QedPrefixFails(ops: AdMembers, nf: int, k: nat)
    requires k <= QedCount(nf) && Wire(ops, map[], QedFixed + QedLight[..k]).Err?
    ensures Wire(ops, map[], Wiring(nf, true)) == Wire(ops, map[], QedFixed + QedLight[..k])
  {
    var w := Wiring(nf, true);
    assert w[..16 + k] == QedFixed + QedLight[..k];
    WireFails(ops, map[], QedFixed + QedLight[..k]);
    PrefixFails(ops, map[], w, 16 + k);
  }

  /** The QED entries of the flavour pair j (j = 0 for nf >= 3 up to j = 3 for nf >= 6). */
  method QedPair(ops: AdMembers, m: map<string, OpMember>, j: nat) returns (r: Result<map<string, OpMember>>)
    requires j < 4 && Wire(ops, map[], QedFixed + QedLight[..2 * j]) == Ok(m)
    ensures r == Wire(ops, map[], QedFixed + QedLight[..2 * j + 2])
  {
    var pair := QedLight[2 * j..2 * j + 2];
    assert QedFixed + QedLight[..2 * j + 2] == (QedFixed + QedLight[..2 * j]) + pair;
    WireAppend(ops, map[], QedFixed + QedLight[..2 * j], pair);
    r := Assign(ops, m, pair);
  }

  /** The QED wiring: the constant entries, then one pair per flavour threshold passed. */
  method QedWiring(ops: AdMembers, nf: int) returns (r: Result<map<string, OpMember>>)
    ensures r == Wire(ops, map[], Wiring(nf, true))
  {
    r := Assign(ops, map[], QedFixed);
    assert QedFixed + QedLight[..0] == QedFixed;
    ghost var k := 0;
    if r.Ok? && nf >= 3 {
      r := QedPair(ops, r.value, 0);
      k := 2;
    }
    if r.Ok? && nf >= 4 {
      r := QedPair(ops, r.value, 1);
      k := 4;
    }
    if r.Ok? && nf >= 5 {
      r := QedPair(ops, r.value, 2);
      k := 6;
    }
    if r.Ok? && nf >= 6 {
      r := QedPair(ops, r.value, 3);
      k := 8;
    }
    if r.Err? {
      QedPrefixFails(ops, nf, k);
    }
  }

  /** `ad_to_evol_map`, filling the dict entry by entry. */
  method AdToEvolMap(ops: AdMembers, nf: int, intrinsic: Option<seq<int>>, isQed: bool)
    returns (r: Result<map<string, OpMember>>)
    ensures r == AdToEvol(ops, nf, intrinsic, isQed)
  {
    var w := Wiring(nf, isQed);
    if isQed {
      r := QedWiring(ops, nf);
    } else {
      r := QcdWiring(ops, nf);
    }
    if r.Err? || intrinsic.None? {
      return;
    }
    WiredMap(ops, nf, isQed);
    if isQed {
      r := IntrinsicPass(r.value, intrinsic.value, nf, IdLike(ops[(NsValence, NsValence)]));
    } else {
      r := IntrinsicPass(r.value, intrinsic.value, nf, IdLike(ops[(NsValence, 0)]));
      if r.Err? {
        return;
      }
      r := IntrinsicPass(r.value, intrinsic.value, nf, IdLike(ops[(21, 21)]));
    }
  }

  // ---------------------------------------------------------------- to_flavor_basis_tensor

  /** A member of a physical operator: its target and input labels and its matrices. */
  datatype Item = Item(name: MemberLabel, op: OpMember)

  /** The labels of the members, in order. */
  function ItemLabels(items: seq<Item>): (ls: seq<MemberLabel>)
    ensures |ls| == |items| && forall k :: 0 <= k < |items| ==> ls[k] == items[k].name
  {
    seq(|items|, k requires 0 <= k < |items| => items[k].name)
  }

  /** The flavour weights of a label: `pids_from_intrinsic_evol`, or its unified form with QED. */
  function Weights(name: string, nf: int, normalize: bool, isQed: bool): (r: Result<seq<real>>)
    ensures r.Ok? ==> |r.value| == 14
  {
    if isQed then UnifiedEvol(name, nf, normalize) else IntrinsicEvol(name, nf, normalize)
  }

  /** What one member adds to the tensor: its output and input weights and its matrices. */
  datatype Contribution = Contribution(outW: seq<real>, inW: seq<real>, op: OpMember)

  /** Fourteen weights on each side and nx x nx matrices. */
  predicate Fits(c: Contribution, nx: nat)
  {
    |c.outW| == 14 && |c.inW| == 14 && IsMatrix(c.op.value, nx, nx) && IsMatrix(c.op.error, nx, nx)
  }

  predicate AllFit(cs: seq<Contribution>, nx: nat)
  {
    forall k :: 0 <= k < |cs| ==> Fits(cs[k], nx)
  }

  /**
   * The contributions of the members in order: the input label's weights
   * with nf_in flavours, the target's normalised weights with nf_out, and a
   * ValueError for a member whose matrices are not nx x nx; the first
   * failure stops the loop.
   */
  function Contributions(items: seq<Item>, nfIn: int, nfOut: int, isQed: bool, nx: nat): (r: Result<seq<Contribution>>)
    ensures r.Ok? ==> |r.value| == |items| && AllFit(r.value, nx)
    decreases |items|
  {
    if |items| == 0 then Ok([])
    else
      match Contributions(items[..|items| - 1], nfIn, nfOut, isQed, nx)
      case Err(e) => Err(e)
      case Ok(cs) =>
        match ContributionOf(items[|items| - 1], nfIn, nfOut, isQed, nx)
        case Err(e) => Err(e)
        case Ok(c) => Ok(cs + [c])
  }

  /** The contribution of one member, or the first error met in computing it. */
  function ContributionOf(it: Item, nfIn: int, nfOut: int, isQed: bool, nx: nat): (r: Result<Contribution>)
    ensures r.Ok? ==> Fits(r.value, nx) && r.value.op == it.op
  {
    match Weights(it.name.input, nfIn, false, isQed)
    case Err(e) => Err(e)
    case Ok(inW) =>
      match Weights(it.name.target, nfOut, true, isQed)
      case Err(e) => Err(e)
      case Ok(outW) =>
        if IsMatrix(it.op.value, nx, nx) && IsMatrix(it.op.error, nx, nx)
        then Ok(Contribution(outW, inW, it.op))
        else Err(ValueError)
  }

  /** The value (or error) matrix of a contribution. */
  function Part(c: Contribution, ofError: bool): Matrix
  {
    if ofError then c.op.error else c.op.value
  }

  /** The block of the tensor at output pid o and input pid i, after the contributions cs. */
  function BlockSum(cs: seq<Contribution>, o: nat, i: nat, nx: nat, ofError: bool): (b: Matrix)
    requires o < 14 && i < 14 && AllFit(cs, nx)
    ensures IsMatrix(b, nx, nx)
    decreases |cs|
  {
    if |cs| == 0 then Zeros(nx, nx)
    else
      MatAdd(BlockSum(cs[..|cs| - 1], o, i, nx, ofError), Weighted(cs[|cs| - 1], o, i, ofError))
  }

  /** `out_weight * (op.value * in_weight)` (or the same with the error) for the pids o and i. */
  function Weighted(c: Contribution, o: nat, i: nat, ofError: bool): Matrix
    requires o < |c.outW| && i < |c.inW|
  {
    MatScale(c.outW[o], MatScale(c.inW[i], Part(c, ofError)))
  }

  /**
   * `to_flavor_basis_tensor` up to the tensors: the flavour numbers from
   * `get_range`, the grid size from the first member (an IndexError when
   * there is none), then the contributions.
   */
  function TensorSpec(items: seq<Item>, isQed: bool): Result<(nat, seq<Contribution>)>
  {
    // get_range is called with its default is_qed=False, also for a QED operator
    match GetRangeSpec(ItemLabels(items), false)
    case Err(e) => Err(e)
    case Ok((nfIn, nfOut)) =>
      if |items| == 0 then Err(IndexError)
      else
        var nx := |items[0].op.value|;
        match Contributions(items, nfIn, nfOut, isQed, nx)
        case Err(e) => Err(e)
        case Ok(cs) => Ok((nx, cs))
  }

  /** The QED T-labels are not of the QCD form T{k^2-1}: reading them as QCD labels is a ValueError. */
  lemma UnifiedLabelsUnread()
    ensures forall name :: name in ["Td3", "Tu3", "Td8", "Tu8"] ==> UpdateNf(name, false) == Err(ValueError)
  {
    assert DigitsValue("d") == None && DigitsValue("u") == None;
  }

  /**
   * Since the flavour numbers are read as for QCD, a member whose input is a
   * QED T-label makes `to_flavor_basis_tensor` fail, whether or not the
   * weights are the unified ones.
   */
  lemma QedInputFails(items: seq<Item>, isQed: bool, k: nat)
    requires k < |items| && items[k].name.input in ["Td3", "Tu3", "Td8", "Tu8"]
    ensures TensorSpec(items, isQed).Err?
  {
    UnifiedLabelsUnread();
    GetRangeFails(ItemLabels(items), false, |items|);
  }

  /** One summand of an entry of a block: out_weight[o] * in_weight[i] * the member's entry. */
  function Summand(cs: seq<Contribution>, o: nat, i: nat, ofError: bool, a: nat, b: nat, k: nat): real
  {
    if k < |cs| && o < |cs[k].outW| && i < |cs[k].inW| && a < |Part(cs[k], ofError)| && b < |Part(cs[k], ofError)[a]|
    then Weighted(cs[k], o, i, ofError)[a][b]
    else 0.0
  }

  /**
   * Entry (a, b) of the block [o, :, i, :] is the sum over the members of
   * out_weight[o] * in_weight[i] * the member's entry (a, b); the error
   * tensor is accumulated in the same way from the members' errors.
   */
  lemma {:induction false} BlockEntries(cs: seq<Contribution>, o: nat, i: nat, nx: nat, ofError: bool, a: nat, b: nat)
    requires o < 14 && i < 14 && AllFit(cs, nx) && a < nx && b < nx
    ensures BlockSum(cs, o, i, nx, ofError)[a][b] == Sum(|cs|, (k: nat) => Summand(cs, o, i, ofError, a, b, k))
    decreases |cs|
  {
    if |cs| > 0 {
      var n := |cs| - 1;
      var p := cs[..n];
      BlockEntries(p, o, i, nx, ofError, a, b);
      PrefixSummands(cs, o, i, ofError, a, b);
      LastSummand(cs, o, i, nx, ofError, a, b);
    }
  }

  /** Dropping the last contribution leaves the other summands as they were. */
  lemma PrefixSummands(cs: seq<Contribution>, o: nat, i: nat, ofError: bool, a: nat, b: nat)
    requires |cs| > 0
    ensures Sum(|cs| - 1, (k: nat) => Summand(cs[..|cs| - 1], o, i, ofError, a, b, k))
         == Sum(|cs| - 1, (k: nat) => Summand(cs, o, i, ofError, a, b, k))
  {
    var n := |cs| - 1;
    var p := cs[..n];
    var f := (k: nat) => Summand(p, o, i, ofError, a, b, k);
    var g := (k: nat) => Summand(cs, o, i, ofError, a, b, k);
    forall k | 0 <= k < n
      ensures f(k) == g(k)
    {
      assert p[k] == cs[k];
    }
    SumExt(n, f, g);
  }

  /** The last contribution adds its summand to each entry of a block. */
  lemma LastSummand(cs: seq<Contribution>, o: nat, i: nat, nx: nat, ofError: bool, a: nat, b: nat)
    requires o < 14 && i < 14 && AllFit(cs, nx) && a < nx && b < nx && |cs| > 0
    ensures BlockSum(cs, o, i, nx, ofError)[a][b] ==
      BlockSum(cs[..|cs| - 1], o, i, nx, ofError)[a][b] + Summand(cs, o, i, ofError, a, b, |cs| - 1)
  {
    var n := |cs| - 1;
    var c := cs[n];
    assert Fits(c, nx);
    var part := Part(c, ofError);
    assert IsMatrix(part, nx, nx);
    var prev := BlockSum(cs[..n], o, i, nx, ofError);
    var w := Weighted(c, o, i, ofError);
    assert IsMatrix(w, nx, nx);
    assert BlockSum(cs, o, i, nx, ofError) == MatAdd(prev, w);
  }




  /** An entry of a weighted member: out_weight[o] * (in_weight[i] * the member's entry). */
  lemma WeightedEntry(c: Contribution, o: nat, i: nat, ofError: bool, a: nat, b: nat)
    requires o < |c.outW| && i < |c.inW| && a < |Part(c, ofError)| && b < |Part(c, ofError)[a]|
    ensures Weighted(c, o, i, ofError)[a][b] == c.outW[o] * (c.inW[i] * Part(c, ofError)[a][b])
  {
  }


  /** Adding one more contribution adds its weighted matrix to every block. */
  lemma BlockSumSnoc(cs: seq<Contribution>, c: Contribution, o: nat, i: nat, nx: nat, ofError: bool)
    requires o < 14 && i < 14 && AllFit(cs, nx) && Fits(c, nx)
    ensures AllFit(cs + [c], nx)
    ensures BlockSum(cs + [c], o, i, nx, ofError) == MatAdd(BlockSum(cs, o, i, nx, ofError), Weighted(c, o, i, ofError))
  {
    assert (cs + [c])[..|cs|] == cs;
  }

  /** Once a contribution fails, the rest of the loop keeps the failure. */
  lemma {:induction false} ContributionsSticks(items: seq<Item>, nfIn: int, nfOut: int, isQed: bool, nx: nat, k: nat)
    requires k <= |items| && Contributions(items[..k], nfIn, nfOut, isQed, nx).Err?
    ensures Contributions(items, nfIn, nfOut, isQed, nx) == Contributions(items[..k], nfIn, nfOut, isQed, nx)
    decreases |items| - k
  {
    if k < |items| {
      assert items[..k + 1][..k] == items[..k];
      ContributionsSticks(items, nfIn, nfOut, isQed, nx, k + 1);
    } else {
      assert items[..k] == items;
    }
  }

  /** The value and error tensors, each a 14 x 14 array of nx x nx blocks. */
  datatype Tensors = Tensors(value: array2<Matrix>, error: array2<Matrix>)

  /** Every block [o, :, i, :] of t is the sum of the contributions cs (of their values, or of their errors). */
  ghost predicate Accumulates(t: array2<Matrix>, cs: seq<Contribution>, nx: nat, ofError: bool)
    reads t
    requires AllFit(cs, nx)
  {
    && t.Length0 == 14 && t.Length1 == 14
    && forall o, i :: 0 <= o < 14 && 0 <= i < 14 ==> t[o, i] == BlockSum(cs, o, i, nx, ofError)
  }

  /** `tensor[o, :, i, :] += ...` for every pair of pids, on the value tensor or on the error tensor. */
  method AddContribution(t: array2<Matrix>, ghost cs: seq<Contribution>, c: Contribution, nx: nat, ofError: bool)
    requires AllFit(cs, nx) && Fits(c, nx) && t.Length0 == 14 && t.Length1 == 14
    requires forall o, i :: 0 <= o < 14 && 0 <= i < 14 ==> t[o, i] == BlockSum(cs, o, i, nx, ofError)
    modifies t
    ensures AllFit(cs + [c], nx)
    ensures forall o, i :: 0 <= o < 14 && 0 <= i < 14 ==> t[o, i] == BlockSum(cs + [c], o, i, nx, ofError)
  {
    BlockSumSnoc(cs, c, 0, 0, nx, ofError);
    for o := 0 to 14
      invariant forall a, b :: 0 <= a < o && 0 <= b < 14 ==> t[a, b] == BlockSum(cs + [c], a, b, nx, ofError)
      invariant forall a, b :: o <= a < 14 && 0 <= b < 14 ==> t[a, b] == BlockSum(cs, a, b, nx, ofError)
    {
      ghost var todo := seq(14, b requires 0 <= b < 14 => BlockSum(cs, o, b, nx, ofError));
      ghost var done := seq(14, b requires 0 <= b < 14 => BlockSum(cs + [c], o, b, nx, ofError));
      forall b | 0 <= b < 14
        ensures IsMatrix(todo[b], nx, nx) && done[b] == MatAdd(todo[b], Weighted(c, o, b, ofError))
      {
        BlockSumSnoc(cs, c, o, b, nx, ofError);
      }
      AddRow(t, c, o, nx, ofError, todo, done);
    }
  }

  /** The additions `tensor[o, :, i, :] += ...` for the output pid o and every input pid i. */
  method AddRow(t: array2<Matrix>, c: Contribution, o: nat, nx: nat, ofError: bool, ghost todo: seq<Matrix>, ghost done: seq<Matrix>)
    requires o < 14 && Fits(c, nx) && t.Length0 == 14 && t.Length1 == 14 && |todo| == 14 && |done| == 14
    requires forall b :: 0 <= b < 14 ==> IsMatrix(todo[b], nx, nx) && done[b] == MatAdd(todo[b], Weighted(c, o, b, ofError))
    requires forall b :: 0 <= b < 14 ==> t[o, b] == todo[b]
    modifies t
    ensures forall b :: 0 <= b < 14 ==> t[o, b] == done[b]
    ensures forall a, b :: 0 <= a < 14 && a != o && 0 <= b < 14 ==> t[a, b] == old(t[a, b])
  {
    for i := 0 to 14
      invariant forall b :: 0 <= b < i ==> t[o, b] == done[b]
      invariant forall b :: i <= b < 14 ==> t[o, b] == todo[b]
      invariant forall a, b :: 0 <= a < 14 && a != o && 0 <= b < 14 ==> t[a, b] == old(t[a, b])
    {
      t[o, i] := MatAdd(t[o, i], Weighted(c, o, i, ofError));
    }
  }

  /** One member added to the value tensor and to the error tensor. */
  method AddToBoth(value: array2<Matrix>, error: array2<Matrix>, ghost cs: seq<Contribution>, c: Contribution, nx: nat)
    requires value != error && AllFit(cs, nx) && Fits(c, nx)
    requires Accumulates(value, cs, nx, false) && Accumulates(error, cs, nx, true)
    modifies value, error
    ensures AllFit(cs + [c], nx)
    ensures Accumulates(value, cs + [c], nx, false) && Accumulates(error, cs + [c], nx, true)
  {
    AddContribution(value, cs, c, nx, false);
    AddContribution(error, cs, c, nx, true);
  }

  /** Fresh zeros of shape (14, nx, 14, nx): no contribution added yet. */
  method ZeroTensor(nx: nat) returns (t: array2<Matrix>)
    ensures fresh(t) && Accumulates(t, [], nx, false) && Accumulates(t, [], nx, true)
  {
    t := new Matrix[14, 14]((o, i) => Zeros(nx, nx));
  }

  /** The loop over the members: each one's contribution added to both tensors, stopping at the first failure. */
  method AddMembers(items: seq<Item>, nfIn: int, nfOut: int, isQed: bool, nx: nat, value: array2<Matrix>, error: array2<Matrix>)
    returns (failure: Option<Error>)
    requires value != error && Accumulates(value, [], nx, false) && Accumulates(error, [], nx, true)
    modifies value, error
    ensures failure.Some? <==> Contributions(items, nfIn, nfOut, isQed, nx).Err?
    ensures failure.Some? ==> failure.value == Contributions(items, nfIn, nfOut, isQed, nx).error
    ensures failure.None? ==>
      var cs := Contributions(items, nfIn, nfOut, isQed, nx).value;
      Accumulates(value, cs, nx, false) && Accumulates(error, cs, nx, true)
  {
    ghost var cs: seq<Contribution> := [];
    for k := 0 to |items|
      invariant value != error
      invariant Contributions(items[..k], nfIn, nfOut, isQed, nx) == Ok(cs)
      invariant AllFit(cs, nx) && Accumulates(value, cs, nx, false) && Accumulates(error, cs, nx, true)
    {
      assert items[..k + 1][..k] == items[..k];
      var it := items[k];
      var inW := Weights(it.name.input, nfIn, false, isQed);
      var outW := Weights(it.name.target, nfOut, true, isQed);
      var step := ContributionOf(it, nfIn, nfOut, isQed, nx);
      if inW.Err? || outW.Err? || !(IsMatrix(it.op.value, nx, nx) && IsMatrix(it.op.error, nx, nx)) {
        assert step.Err? && Contributions(items[..k + 1], nfIn, nfOut, isQed, nx) == Err(step.error);
        ContributionsSticks(items, nfIn, nfOut, isQed, nx, k + 1);
        return Some(step.error);
      }
      var c := Contribution(outW.value, inW.value, it.op);
      assert step == Ok(c);
      AddToBoth(value, error, cs, c, nx);
      cs := cs + [c];
    }
    assert items[..|items|] == items;
    failure := None;
  }

  /**
   * `to_flavor_basis_tensor`: fresh zero tensors of shape (14, nx, 14, nx),
   * then every member's weighted value and error added to every block.
   */
  method ToFlavorBasisTensor(items: seq<Item>, isQed: bool) returns (r: Result<Tensors>)
    ensures r.Err? <==> TensorSpec(items, isQed).Err?
    ensures r.Err? ==> r.error == TensorSpec(items, isQed).error
    ensures r.Ok? ==>
      var (nx, cs) := TensorSpec(items, isQed).value;
      && fresh(r.value.value) && fresh(r.value.error)
      && Accumulates(r.value.value, cs, nx, false) && Accumulates(r.value.error, cs, nx, true)
  {
    var range := GetRange(ItemLabels(items), false);
    if range.Err? {
      return Err(range.error);
    }
    var (nfIn, nfOut) := range.value;
    if |items| == 0 {
      return Err(IndexError);
    }
    var nx := |items[0].op.value|;
    var value := ZeroTensor(nx);
    var error := ZeroTensor(nx);
    var failure := AddMembers(items, nfIn, nfOut, isQed, nx, value, error);
    if failure.Some? {
      return Err(failure.value);
    }
    r := Ok(Tensors(value, error));
  }
}
