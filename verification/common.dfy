/**
 * Shared vocabulary of the eko model: optional values, the exceptions the
 * Python code raises, the extended reals used for the open upper end of the
 * last threshold area, and the few string helpers the naming code needs.
 */
module Common {

  datatype Option<T> = None | Some(value: T)

  /** The Python exception classes raised by the modelled code. */
  datatype Error = ValueError | KeyError | NotImplementedError | AttributeError | TypeError | IndexError
                | ZeroDivisionError | UnboundLocalError

  datatype Result<T> = Ok(value: T) | Err(error: Error)

  /** A real number or +infinity (numpy's `np.inf`). */
  datatype ExtReal = Fin(r: real) | Inf

  /** `x <= y` where `y` may be infinite. */
  predicate LeExt(x: real, y: ExtReal) { y.Inf? || x <= y.r }

  /** `x > y` where `y` may be infinite; never true against infinity. */
  predicate GtExt(x: real, y: ExtReal) { y.Fin? && x > y.r }

  /** `x >= y` on two extended reals. */
  predicate GeExtExt(x: ExtReal, y: ExtReal) { x.Inf? || (y.Fin? && x.r >= y.r) }

  /**
   * The transcendental ingredients of the evolution code, which this model
   * does not compute: they are passed in, and only the identities stated by
   * `ValidEnv` are assumed of them. `rge(b, a0, u)` is the numerical
   * solution at `u` of da/du = -a^2 (b[0] + b[1] a + ...) with a(0) = a0.
   */
  datatype Env = Env(
    pi: real,
    log: real -> real,
    exp: real -> real,
    sqrt: real -> real,
    zeta3: real,
    zeta4: real,
    zeta5: real,
    rge: (seq<real>, real, real) -> real)

  predicate ValidEnv(e: Env) { e.pi > 0.0 && e.log(1.0) == 0.0 }

  /** `quark_names` of the basis rotation module, indexed by pid - 1. */
  const QuarkNames: seq<string> := ["d", "u", "s", "c", "b", "t"]

  /** Decimal digits of a natural number, as Python's `str(n)` writes them. */
  function NatToString(n: nat): (s: string)
    ensures |s| > 0
    ensures forall i :: 0 <= i < |s| ==> '0' <= s[i] <= '9'
    decreases n
  {
    var d := [(('0' as int) + n % 10) as char];
    if n < 10 then d else NatToString(n / 10) + d
  }

  /** Whether `needle` occurs in `hay` starting at position `i`. */
  predicate OccursAt(hay: string, needle: string, i: nat)
  {
    i + |needle| <= |hay| && hay[i..i + |needle|] == needle
  }

  /** Python's `needle in hay` for strings. */
  predicate Contains(hay: string, needle: string)
  {
    exists i: nat | i <= |hay| :: OccursAt(hay, needle, i)
  }

  /**
   * Python's `hay.find(needle)`: the first position where `needle` occurs,
   * or -1; `FindMeaning` states this.
   */
  function Find(hay: string, needle: string): (r: int)
    ensures -1 <= r <= |hay|
  {
    FindFrom(hay, needle, 0)
  }

  function FindFrom(hay: string, needle: string, from: nat): (r: int)
    ensures r == -1 || from <= r <= |hay|
    decreases |hay| + 1 - from
  {
    if from + |needle| > |hay| then -1
    else if MatchFrom(hay, needle, from, 0) then from
    else FindFrom(hay, needle, from + 1)
  }

  /** The characters of `needle` from position k on appear in `hay` at `at` onwards. */
  predicate MatchFrom(hay: string, needle: string, at: nat, k: nat)
    requires at + |needle| <= |hay| && k <= |needle|
    decreases |needle| - k
  {
    k == |needle| || (hay[at + k] == needle[k] && MatchFrom(hay, needle, at, k + 1))
  }

  lemma {:induction false} MatchFromMeaning(hay: string, needle: string, at: nat, k: nat)
    requires at + |needle| <= |hay| && k <= |needle|
    ensures MatchFrom(hay, needle, at, k) <==> forall i :: k <= i < |needle| ==> hay[at + i] == needle[i]
    decreases |needle| - k
  {
    if k < |needle| {
      MatchFromMeaning(hay, needle, at, k + 1);
    }
  }

  /** Matching from the start is an occurrence. */
  lemma MatchOccurs(hay: string, needle: string, at: nat)
    requires at + |needle| <= |hay|
    ensures MatchFrom(hay, needle, at, 0) <==> OccursAt(hay, needle, at)
  {
    MatchFromMeaning(hay, needle, at, 0);
    if MatchFrom(hay, needle, at, 0) {
      assert hay[at..at + |needle|] == needle;
    } else {
      var i :| 0 <= i < |needle| && hay[at + i] != needle[i];
      assert hay[at..at + |needle|][i] != needle[i];
    }
  }

  /** The search from `from` finds the first occurrence at or after `from`, or reports -1 when there is none. */
  lemma {:induction false} FindFromMeaning(hay: string, needle: string, from: nat)
    ensures var r := FindFrom(hay, needle, from);
      && (r >= 0 ==> OccursAt(hay, needle, r))
      && (r >= 0 ==> forall j: nat :: from <= j < r ==> !OccursAt(hay, needle, j))
      && (r == -1 <==> forall j: nat :: from <= j ==> !OccursAt(hay, needle, j))
    decreases |hay| + 1 - from
  {
    if from + |needle| <= |hay| {
      MatchOccurs(hay, needle, from);
      if !MatchFrom(hay, needle, from, 0) {
        FindFromMeaning(hay, needle, from + 1);
      }
    }
  }

  /** `Find` gives the first occurrence, and -1 exactly when the needle does not occur. */
  lemma FindMeaning(hay: string, needle: string)
    ensures Find(hay, needle) >= 0 ==> OccursAt(hay, needle, Find(hay, needle))
    ensures Find(hay, needle) >= 0 ==> forall j: nat :: j < Find(hay, needle) ==> !OccursAt(hay, needle, j)
    ensures Find(hay, needle) == -1 <==> !Contains(hay, needle)
  {
    FindFromMeaning(hay, needle, 0);
  }

  /** Python's `str.isspace` restricted to ASCII whitespace. */
  predicate IsSpace(c: char)
  {
    c == ' ' || c == '\t' || c == '\n' || c == '\r' || c == 11 as char || c == 12 as char
  }

  /** Python's `str.strip()`: drop leading and trailing whitespace. */
  function Strip(s: string): (r: string)
    ensures |r| <= |s|
    ensures |r| > 0 ==> !IsSpace(r[0]) && !IsSpace(r[|r| - 1])
    ensures (forall i :: 0 <= i < |s| ==> !IsSpace(s[i])) ==> r == s
  {
    StripRightPrefix(StripLeft(s));
    StripRight(StripLeft(s))
  }

  function StripLeft(s: string): (r: string)
    ensures |r| <= |s|
    ensures |r| > 0 ==> !IsSpace(r[0])
    ensures (|s| > 0 && !IsSpace(s[0])) ==> r == s
  {
    if |s| > 0 && IsSpace(s[0]) then StripLeft(s[1..]) else s
  }

  function StripRight(s: string): (r: string)
    ensures |r| <= |s|
    ensures |r| > 0 ==> !IsSpace(r[|r| - 1])
    ensures (|s| > 0 && !IsSpace(s[|s| - 1])) ==> r == s
  {
    if |s| > 0 && IsSpace(s[|s| - 1]) then StripRight(s[..|s| - 1]) else s
  }

  /** Stripping on the left keeps a suffix of the string. */
  lemma {:induction false} StripLeftSuffix(s: string)
    ensures StripLeft(s) == s[|s| - |StripLeft(s)|..]
    decreases |s|
  {
    if |s| > 0 && IsSpace(s[0]) {
      StripLeftSuffix(s[1..]);
      var r := StripLeft(s[1..]);
      assert s[1..][|s| - 1 - |r|..] == s[|s| - |r|..];
    }
  }

  /** Stripping on the right keeps a prefix of the string. */
  lemma {:induction false} StripRightPrefix(s: string)
    ensures StripRight(s) == s[..|StripRight(s)|]
    decreases |s|
  {
    if |s| > 0 && IsSpace(s[|s| - 1]) {
      StripRightPrefix(s[..|s| - 1]);
      var r := StripRight(s[..|s| - 1]);
      assert s[..|s| - 1][..|r|] == s[..|r|];
    }
  }

  /** Python's `s.split(sep)` for a one-character separator. */
  function Split(s: string, sep: char): (parts: seq<string>)
    ensures |parts| >= 1
    ensures forall k :: 0 <= k < |parts| ==> sep !in parts[k]
    ensures (sep !in s) ==> parts == [s]
  {
    if sep !in s then [s]
    else
      var i := IndexOfChar(s, sep);
      [s[..i]] + Split(s[i + 1..], sep)
  }

  /** First index of `c` in `s`, which must contain it. */
  function IndexOfChar(s: string, c: char): (i: nat)
    requires c in s
    ensures i < |s| && s[i] == c && c !in s[..i]
  {
    if s[0] == c then 0 else 1 + IndexOfChar(s[1..], c)
  }

  /** Number of occurrences of `c` in `s`. */
  function CountChar(s: string, c: char): (n: nat)
    ensures n == 0 <==> c !in s
  {
    if s == [] then 0 else (if s[0] == c then 1 else 0) + CountChar(s[1..], c)
  }

  /** Splitting on a character gives one more part than it has occurrences. */
  lemma {:induction false} SplitCount(s: string, sep: char)
    ensures |Split(s, sep)| == CountChar(s, sep) + 1
    decreases |s|
  {
    if sep in s {
      var i := IndexOfChar(s, sep);
      var before, after := s[..i], s[i + 1..];
      assert Split(s, sep) == [before] + Split(after, sep);
      SplitCount(after, sep);
      assert s == before + ([sep] + after);
      CountAppend(before, [sep] + after, sep);
      CountAppend([sep], after, sep);
      assert CountChar([sep], sep) == 1;
    }
  }

  lemma {:induction false} CountAppend(a: string, b: string, c: char)
    ensures CountChar(a + b, c) == CountChar(a, c) + CountChar(b, c)
    decreases |a|
  {
    if a != [] {
      assert (a + b)[1..] == a[1..] + b;
      CountAppend(a[1..], b, c);
    } else {
      assert a + b == b;
    }
  }

  /** `Split` undone by joining the parts with the separator. */
  function Join(parts: seq<string>, sep: char): string
    requires |parts| >= 1
  {
    if |parts| == 1 then parts[0] else parts[0] + [sep] + Join(parts[1..], sep)
  }

  lemma {:induction false} SplitJoin(s: string, sep: char)
    ensures Join(Split(s, sep), sep) == s
    decreases |s|
  {
    if sep in s {
      var i := IndexOfChar(s, sep);
      SplitJoin(s[i + 1..], sep);
      assert s == s[..i] + [sep] + s[i + 1..];
    }
  }

  // ------------------------------------------------------ sequences and maps

  /** No element of s occurs twice. */
  predicate Distinct<T(==)>(s: seq<T>)
  {
    forall i, j :: 0 <= i < j < |s| ==> s[i] != s[j]
  }

  /** The elements of s. */
  function Elems<T>(s: seq<T>): set<T>
  {
    set i | 0 <= i < |s| :: s[i]
  }

  /** The map b keeps every entry of the map a. */
  predicate Extends<K, V(==)>(a: map<K, V>, b: map<K, V>)
  {
    forall k :: k in a ==> k in b && b[k] == a[k]
  }

  /** The elements of s with x appended. */
  lemma ElemsSnoc<T>(s: seq<T>, x: T)
    ensures Elems(s + [x]) == Elems(s) + {x}
  {
    var l := s + [x];
    forall y | y in Elems(l) ensures y in Elems(s) + {x} {
      var i :| 0 <= i < |l| && l[i] == y;
      if i < |s| {
        assert s[i] == y;
      }
    }
    forall y | y in Elems(s) ensures y in Elems(l) {
      var i :| 0 <= i < |s| && s[i] == y;
      assert l[i] == y;
    }
    assert l[|s|] == x;
  }

  /** Two maps with the same keys and the same value at every key are equal. */
  lemma MapExt<K, V>(a: map<K, V>, b: map<K, V>)
    requires a.Keys == b.Keys && forall k :: k in a ==> a[k] == b[k]
    ensures a == b
  {
  }

  /** A non-empty set of scales has an element. */
  lemma Pick(s: set<real>)
    requires s != {}
    ensures exists x :: x in s
  {
    if forall x :: x !in s {
      assert false;
    }
  }
}
