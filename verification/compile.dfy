/**
 * The source-specialising rewrite used to build one callable per
 * perturbative order: the text between the markers of every order above
 * the requested one is cut out, and the placeholder tag `__nklo` is
 * replaced with the tag of the requested order, both in the text and in the
 * function name.
 */
module Compile {
  import opened Common

  /** Python's `str(n)` on an integer. */
  function ShowInt(n: int): string
  {
    if n < 0 then "-" + NatToString(-n) else NatToString(n)
  }

  /** The marker opening the code needed from order `order` on. */
  function StartMarker(order: int): string
  {
    "# >> start/N" + ShowInt(order) + "LO"
  }

  /** The marker closing the code needed from order `order` on. */
  function EndMarker(order: int): string
  {
    "# << end/N" + ShowInt(order) + "LO"
  }

  /** The placeholder tag in the all-order source. */
  const Placeholder: string := "__nklo"

  /**
   * Cuts the text from the first start marker of `order` up to (not
   * including) the first end marker; nothing is cut unless both occur.
   */
  function Cut(code: string, order: int): (r: string)
    ensures (forall i: nat :: !OccursAt(code, StartMarker(order), i)) ==> r == code
    ensures (forall i: nat :: !OccursAt(code, EndMarker(order), i)) ==> r == code
  {
    FindMeaning(code, StartMarker(order));
    FindMeaning(code, EndMarker(order));
    var s := Find(code, StartMarker(order));
    if s < 0 then code
    else
      var e := Find(code, EndMarker(order));
      if e < 0 then code else code[..s] + code[e..]
  }

  /** The cuts for the orders `order` up to 3, in increasing order. */
  function CutFrom(code: string, order: int): string
    decreases 4 - order
  {
    if order > 3 then code else CutFrom(Cut(code, order), order + 1)
  }

  /** `"n" * k`, empty for k <= 0 as in Python. */
  function Repeat(c: char, k: int): (r: string)
    ensures |r| == if k < 0 then 0 else k
    ensures forall i :: 0 <= i < |r| ==> r[i] == c
    decreases k
  {
    if k <= 0 then "" else [c] + Repeat(c, k - 1)
  }

  /** The tag of order `maxOrder`: one "n" per order above the leading one, then "lo". */
  function Tag(maxOrder: int): (r: string)
    ensures |r| == (if maxOrder < 0 then 0 else maxOrder) + 2 && r[|r| - 2..] == "lo"
    ensures forall i :: 0 <= i < |r| - 2 ==> r[i] == 'n'
  {
    Repeat('n', maxOrder) + "lo"
  }

  /** Python's `s.replace(pat, with)`: every occurrence, scanned left to right, without overlaps. */
  function Replace(s: string, pat: string, with: string): (r: string)
    requires |pat| > 0
    ensures |r| == |s| + Count(s, pat) * (|with| - |pat|)
    decreases |s|
  {
    if |s| < |pat| then s
    else if s[..|pat|] == pat then
      MulStep(Count(s[|pat|..], pat), |with| - |pat|);
      with + Replace(s[|pat|..], pat, with)
    else [s[0]] + Replace(s[1..], pat, with)
  }

  /** The number of occurrences `Replace` rewrites. */
  function Count(s: string, pat: string): nat
    requires |pat| > 0
    decreases |s|
  {
    if |s| < |pat| then 0
    else if s[..|pat|] == pat then 1 + Count(s[|pat|..], pat)
    else Count(s[1..], pat)
  }

  /**
   * `parse`: cuts the higher-order code for every order from maxOrder + 1
   * up to 3, then replaces the placeholder in the text and in the name.
   */
  method Parse(source: string, name: string, maxOrder: int) returns (code: string, newName: string)
    ensures code == Replace(CutFrom(source, maxOrder + 1), Placeholder, "__" + Tag(maxOrder))
    ensures newName == Replace(name, Placeholder, "__" + Tag(maxOrder))
    ensures maxOrder >= 3 ==> code == Replace(source, Placeholder, "__" + Tag(maxOrder))
  {
    code := source;
    var order := maxOrder + 1;
    while order <= 3
      invariant order >= maxOrder + 1
      invariant CutFrom(code, order) == CutFrom(source, maxOrder + 1)
      decreases 3 - order
    {
      var s := Find(code, StartMarker(order));
      if s >= 0 {
        var e := Find(code, EndMarker(order));
        if e >= 0 {
          code := code[..s] + code[e..];
        }
      }
      order := order + 1;
    }
    var tag := Tag(maxOrder);
    newName := Replace(name, Placeholder, "__" + tag);
    code := Replace(code, Placeholder, "__" + tag);
  }

  /**
   * With both markers present and the start first, the cut removes exactly
   * the text before the end marker, which itself is kept at the cut point.
   */
  lemma CutKeepsEndMarker(code: string, order: int)
    requires var s, e := Find(code, StartMarker(order)), Find(code, EndMarker(order)); 0 <= s <= e
    ensures var s, e := Find(code, StartMarker(order)), Find(code, EndMarker(order));
      && Cut(code, order) == code[..s] + code[e..]
      && |Cut(code, order)| == |code| - (e - s)
      && OccursAt(Cut(code, order), EndMarker(order), s)
      && forall i: nat :: i < s ==> !OccursAt(code, StartMarker(order), i)
  {
    FindMeaning(code, StartMarker(order));
    FindMeaning(code, EndMarker(order));
    var s, e := Find(code, StartMarker(order)), Find(code, EndMarker(order));
    var r := code[..s] + code[e..];
    var m := EndMarker(order);
    assert r[s..s + |m|] == code[e..e + |m|];
  }

  /** An end marker before the start marker duplicates the text between them, as written. */
  lemma CutEndFirstDuplicates(code: string, order: int)
    requires var s, e := Find(code, StartMarker(order)), Find(code, EndMarker(order)); 0 <= e < s
    ensures var s, e := Find(code, StartMarker(order)), Find(code, EndMarker(order));
      |Cut(code, order)| == |code| + (s - e)
  {
  }

  /** A text without the placeholder is left as it is. */
  lemma {:induction false} ReplaceAbsent(s: string, pat: string, with: string)
    requires |pat| > 0 && forall i: nat :: !OccursAt(s, pat, i)
    ensures Replace(s, pat, with) == s
    decreases |s|
  {
    if |s| >= |pat| {
      assert !OccursAt(s, pat, 0);
      forall i: nat ensures !OccursAt(s[1..], pat, i) {
        assert !OccursAt(s, pat, i + 1);
        if i + |pat| <= |s[1..]| {
          assert s[1..][i..i + |pat|] == s[i + 1..i + 1 + |pat|];
        }
      }
      ReplaceAbsent(s[1..], pat, with);
    }
  }

  lemma MulStep(c: int, d: int)
    ensures (1 + c) * d == d + c * d
  {
  }

  /** Above order 3 nothing is cut: only the placeholder is replaced. */
  lemma NoCutAboveThree(source: string, maxOrder: int)
    requires maxOrder >= 3
    ensures CutFrom(source, maxOrder + 1) == source
  {
  }
}
