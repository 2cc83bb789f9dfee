/**
 * Operator members and physical operators: a member is a value matrix, an
 * error matrix and a name `target.input`; members multiply along paths and
 * sum over paths, and a physical operator is a dictionary of members that
 * multiplies with another one and acts on a set of distributions.
 */
module EvolutionOperator {
  import opened Common
  import opened LinAlg

  /** An operator member: value and error matrices on the interpolation grid, and its name. */
  datatype Member = Member(value: Matrix, error: Matrix, name: string)

  /** The dimension of a member, the size of its grid. */
  function Dim(m: Member): nat { |m.value| }

  /** Value and error are both square of the member's dimension. */
  predicate Square(m: Member)
  {
    IsMatrix(m.value, Dim(m), Dim(m)) && IsMatrix(m.error, Dim(m), Dim(m))
  }

  // ---------------------------------------------------------------- names

  /** Some character of `s` is not whitespace. */
  predicate HasText(s: string)
  {
    exists k :: 0 <= k < |s| && !IsSpace(s[k])
  }

  /** The part of a name before its first dot. */
  function Before(name: string): string
    requires '.' in name
  {
    name[..IndexOfChar(name, '.')]
  }

  /** The part of a name after its first dot. */
  function After(name: string): string
    requires '.' in name
  {
    name[IndexOfChar(name, '.') + 1..]
  }

  /** A flavour label as names use it: non-empty, no dot, no surrounding whitespace. */
  predicate Clean(s: string)
  {
    |s| > 0 && '.' !in s && !IsSpace(s[0]) && !IsSpace(s[|s| - 1])
  }

  /** The name `target.input`. */
  function NameOf(target: string, input: string): string
  {
    target + "." + input
  }

  /**
   * `_split_name`: the stripped target and input of a name with exactly one
   * dot whose two sides both hold text; any other name is a ValueError.
   */
  function SplitName(name: string): (r: Result<(string, string)>)
    ensures r.Err? ==> r.error == ValueError
  {
    var parts := Split(name, '.');
    if |parts| != 2 then Err(ValueError)
    else
      var target := Strip(parts[0]);
      var input := Strip(parts[1]);
      if |target| <= 0 || |input| <= 0 then Err(ValueError) else Ok((target, input))
  }

  /**
   * A name splits exactly when it has one dot and text on both sides of it,
   * into the two stripped sides, each non-empty and dot-free.
   */
  lemma SplitNameMeaning(name: string)
    ensures SplitName(name).Ok? <==> CountChar(name, '.') == 1 && HasText(Before(name)) && HasText(After(name))
    ensures SplitName(name).Ok? ==> SplitName(name).value == (Strip(Before(name)), Strip(After(name)))
    ensures SplitName(name).Ok? ==> Clean(SplitName(name).value.0) && Clean(SplitName(name).value.1)
  {
    SplitCount(name, '.');
    var parts := Split(name, '.');
    if |parts| == 2 {
      assert parts[0] == Before(name) && parts[1] == After(name);
      StripText(parts[0]);
      StripText(parts[1]);
      StripNoDot(parts[0]);
      StripNoDot(parts[1]);
    }
  }

  /** Stripping leaves something exactly when there is text. */
  lemma StripText(s: string)
    ensures |Strip(s)| > 0 <==> HasText(s)
  {
    StripLeftText(s);
    StripRightText(StripLeft(s));
    var l := StripLeft(s);
    StripLeftSuffix(s);
    if |l| > 0 {
      assert !IsSpace(l[0]);
    }
    if HasText(l) {
      var k :| 0 <= k < |l| && !IsSpace(l[k]);
      assert s[|s| - |l| + k] == l[k];
    }
  }

  lemma {:induction false} StripLeftText(s: string)
    ensures |StripLeft(s)| > 0 <==> HasText(s)
    decreases |s|
  {
    if |s| > 0 && IsSpace(s[0]) {
      StripLeftText(s[1..]);
      if HasText(s) {
        var k :| 0 <= k < |s| && !IsSpace(s[k]);
        assert s[1..][k - 1] == s[k];
      }
      if HasText(s[1..]) {
        var k :| 0 <= k < |s| - 1 && !IsSpace(s[1..][k]);
        assert s[k + 1] == s[1..][k];
      }
    } else if |s| > 0 {
      assert !IsSpace(s[0]);
    }
  }

  lemma {:induction false} StripRightText(s: string)
    ensures |StripRight(s)| > 0 <==> HasText(s)
    decreases |s|
  {
    if |s| > 0 && IsSpace(s[|s| - 1]) {
      var t := s[..|s| - 1];
      StripRightText(t);
      if HasText(s) {
        var k :| 0 <= k < |s| && !IsSpace(s[k]);
        assert k < |s| - 1 && t[k] == s[k];
      }
      if HasText(t) {
        var k :| 0 <= k < |t| && !IsSpace(t[k]);
        assert s[k] == t[k];
      }
    } else if |s| > 0 {
      assert !IsSpace(s[|s| - 1]);
    }
  }

  /** Stripping takes a piece of the string, so it adds no dot. */
  lemma StripNoDot(s: string)
    requires '.' !in s
    ensures '.' !in Strip(s)
  {
    var l := StripLeft(s);
    StripLeftSuffix(s);
    StripRightPrefix(l);
    assert forall k :: 0 <= k < |l| ==> l[k] == s[|s| - |l| + k];
    var r := StripRight(l);
    assert forall k :: 0 <= k < |r| ==> r[k] == l[k];
  }

  /** Naming and splitting are inverse: `target.input` splits back into target and input. */
  lemma NameRoundTrip(target: string, input: string)
    requires Clean(target) && Clean(input)
    ensures SplitName(NameOf(target, input)) == Ok((target, input))
  {
    var name := NameOf(target, input);
    assert name[|target|] == '.';
    assert Before(name) == target && After(name) == input;
    CountAppend(target, "." + input, '.');
    CountAppend(".", input, '.');
    assert target + "." + input == target + ("." + input);
    assert HasText(target) && HasText(input) by {
      assert !IsSpace(target[0]) && !IsSpace(input[0]);
    }
    StripLeftClean(target);
    StripLeftClean(input);
  }

  lemma StripLeftClean(s: string)
    requires Clean(s)
    ensures Strip(s) == s
  {
    assert StripLeft(s) == s;
  }

  /** The names of the seven raw (unrotated) sectors. */
  const RawSectors: seq<string> := ["NS_p", "NS_m", "NS_v", "S_qq", "S_qg", "S_gq", "S_gg"]

  /** No raw sector name from position k on occurs in the name. */
  function NoneFrom(name: string, k: nat): bool
    requires k <= |RawSectors|
    decreases |RawSectors| - k
  {
    if k == |RawSectors| then true
    else if Find(name, RawSectors[k]) >= 0 then false
    else NoneFrom(name, k + 1)
  }

  /** `NoneFrom` means what it says: none of the sectors from k on occurs. */
  lemma {:induction false} NoneFromMeaning(name: string, k: nat)
    requires k <= |RawSectors|
    ensures NoneFrom(name, k) <==> forall j :: k <= j < |RawSectors| ==> !Contains(name, RawSectors[j])
    decreases |RawSectors| - k
  {
    if k < |RawSectors| {
      FindMeaning(name, RawSectors[k]);
      NoneFromMeaning(name, k + 1);
    }
  }

  /**
   * `is_physical`: the name mentions none of the raw sectors; what that
   * means is stated by `IsPhysicalMeaning`.
   */
  function IsPhysical(name: string): bool
  {
    NoneFrom(name, 0)
  }

  /** A name is physical exactly when no raw sector name occurs in it. */
  lemma IsPhysicalMeaning(name: string)
    ensures IsPhysical(name) <==> forall j :: 0 <= j < |RawSectors| ==> !Contains(name, RawSectors[j])
  {
    NoneFromMeaning(name, 0);
  }

  /** A raw sector is never physical. */
  lemma RawSectorsAreRaw(j: nat)
    requires j < |RawSectors|
    ensures !IsPhysical(RawSectors[j])
  {
    IsPhysicalMeaning(RawSectors[j]);
    assert OccursAt(RawSectors[j], RawSectors[j], 0);
  }

  // ---------------------------------------------------------------- arithmetic

  /** The right operand of a product or a sum: a number, a member, or anything else. */
  datatype Operand = Number(c: real) | Op(m: Member) | Other

  /**
   * The name of the product of two members: both must live in the same
   * space; physical members must chain (left input equals right target) and
   * give `left.target.right.input`, raw members concatenate their names.
   */
  function ProductName(x: Member, y: Member): (r: Result<string>)
    ensures r.Err? ==> r.error == ValueError
    ensures IsPhysical(x.name) != IsPhysical(y.name) ==> r.Err?
    ensures !IsPhysical(x.name) && !IsPhysical(y.name) ==> r == Ok(x.name + "." + y.name)
    ensures IsPhysical(x.name) && IsPhysical(y.name) ==>
              (r.Ok? <==> SplitName(x.name).Ok? && SplitName(y.name).Ok? && SplitName(x.name).value.1 == SplitName(y.name).value.0)
    ensures IsPhysical(x.name) && r.Ok? ==> r.value == NameOf(SplitName(x.name).value.0, SplitName(y.name).value.1)
  {
    if IsPhysical(x.name) != IsPhysical(y.name) then Err(ValueError)
    else if IsPhysical(x.name) then
      var sx := SplitName(x.name);
      var sy := SplitName(y.name);
      if sx.Err? || sy.Err? then Err(ValueError)
      else if sx.value.1 != sy.value.0 then Err(ValueError)
      else Ok(sx.value.0 + "." + sy.value.1)
    else Ok(x.name + "." + y.name)
  }

  /** The product's value L R and propagated error |L E_R| + |E_L R|. */
  function Product(lval: Matrix, lerr: Matrix, rval: Matrix, rerr: Matrix, n: nat, name: string): (p: Member)
    requires IsMatrix(lval, n, n) && IsMatrix(lerr, n, n) && IsMatrix(rval, n, n) && IsMatrix(rerr, n, n)
    ensures Square(p) && Dim(p) == n && p.name == name
    ensures p.value == MatMul(lval, rval, n, n, n)
    ensures forall i, j :: 0 <= i < n && 0 <= j < n ==>
      p.error[i][j] == AbsR(MatMul(lval, rerr, n, n, n)[i][j]) + AbsR(MatMul(lerr, rval, n, n, n)[i][j])
    ensures NonNegative(p.error)
  {
    var v := MatMul(lval, rval, n, n, n);
    var e := MatAdd(MatAbs(MatMul(lval, rerr, n, n, n)), MatAbs(MatMul(lerr, rval, n, n, n)));
    Member(v, e, name)
  }

  /**
   * `__mul__`: a number c multiplies by c times the identity with no error;
   * a member multiplies as matrices under the product name; anything else
   * is not implemented. Mismatched grids are refused as numpy refuses them.
   */
  function Mul(x: Member, y: Operand): (r: Result<Member>)
    requires Square(x)
    requires y.Op? ==> Square(y.m)
    ensures y.Other? ==> r == Err(NotImplementedError)
    ensures y.Number? ==> r == Ok(Member(MatScale(y.c, x.value), MatAbs(MatScale(y.c, x.error)), x.name))
    ensures y.Op? ==> (r.Ok? <==> ProductName(x, y.m).Ok? && Dim(y.m) == Dim(x))
    ensures y.Op? && r.Ok? ==> r.value.name == ProductName(x, y.m).value
    ensures y.Op? && r.Ok? ==> r.value.value == MatMul(x.value, y.m.value, Dim(x), Dim(x), Dim(x))
    ensures r.Ok? ==> Square(r.value) && Dim(r.value) == Dim(x) && NonNegative(r.value.error)
    ensures y.Op? && r.Ok? ==> forall i, j :: 0 <= i < Dim(x) && 0 <= j < Dim(x) ==>
      r.value.error[i][j] == AbsR(MatMul(x.value, y.m.error, Dim(x), Dim(x), Dim(x))[i][j])
                           + AbsR(MatMul(x.error, y.m.value, Dim(x), Dim(x), Dim(x))[i][j])
    ensures r.Err? ==> r.error == ValueError || r.error == NotImplementedError
  {
    var n := Dim(x);
    match y
    case Number(c) =>
      var one := Identity(n);
      var rval := MatScale(c, one);
      var rerr := MatScale(0.0, one);
      MulScaledIdentity(x.value, n, c);
      MulScaledIdentity(x.value, n, 0.0);
      MulScaledIdentity(x.error, n, c);
      ZeroScaleIsZeros(x.value, n);
      AbsZerosAddZeros(MatScale(c, x.error), n);
      Ok(Product(x.value, x.error, rval, rerr, n, x.name))
    case Op(m) =>
      var name := ProductName(x, m);
      if name.Err? then Err(ValueError)
      else if Dim(m) != n then Err(ValueError)
      else Ok(Product(x.value, x.error, m.value, m.error, n, name.value))
    case Other => Err(NotImplementedError)
  }

  /** Exact factors (zero errors) multiply into an exact product. */
  lemma ProductExact(lval: Matrix, rval: Matrix, n: nat, name: string)
    requires IsMatrix(lval, n, n) && IsMatrix(rval, n, n)
    ensures Product(lval, Zeros(n, n), rval, Zeros(n, n), n, name).error == Zeros(n, n)
  {
    MulZeros(lval, n);
    ZerosMul(rval, n);
    var p := Product(lval, Zeros(n, n), rval, Zeros(n, n), n, name);
    assert forall i :: 0 <= i < n ==> p.error[i] == Zeros(n, n)[i];
  }

  /** Multiplying by the exact identity keeps the value, and the error becomes |E_L|. */
  lemma ProductByIdentity(lval: Matrix, lerr: Matrix, n: nat, name: string)
    requires IsMatrix(lval, n, n) && IsMatrix(lerr, n, n)
    ensures Product(lval, lerr, Identity(n), Zeros(n, n), n, name).value == lval
    ensures Product(lval, lerr, Identity(n), Zeros(n, n), n, name).error == MatAbs(lerr)
  {
    IdentityRight(lval, n);
    IdentityRight(lerr, n);
    MulZeros(lval, n);
    var p := Product(lval, lerr, Identity(n), Zeros(n, n), n, name);
    assert forall i :: 0 <= i < n ==> p.error[i] == MatAbs(lerr)[i];
  }

  lemma ZeroScaleIsZeros(x: Matrix, n: nat)
    requires IsMatrix(x, n, n)
    ensures MatScale(0.0, x) == Zeros(n, n)
  {
    assert forall i :: 0 <= i < n ==> MatScale(0.0, x)[i] == Zeros(n, n)[i];
  }

  lemma AbsZerosAddZeros(y: Matrix, n: nat)
    requires IsMatrix(y, n, n)
    ensures MatAdd(MatAbs(Zeros(n, n)), MatAbs(y)) == MatAbs(y)
  {
    assert forall i :: 0 <= i < n ==> MatAdd(MatAbs(Zeros(n, n)), MatAbs(y))[i] == MatAbs(y)[i];
  }

  /**
   * `__add__`: only the number 0 may be added, and leaves the member as it
   * is; members must live in the same space, physical ones must share their
   * name, and values and errors add; anything else is not implemented.
   */
  function Add(x: Member, y: Operand): (r: Result<Member>)
    requires Square(x)
    requires y.Op? ==> Square(y.m)
    ensures y.Other? ==> r == Err(NotImplementedError)
    ensures y.Number? ==> (r.Ok? <==> y.c == 0.0)
    ensures y.Number? && y.c == 0.0 ==> r == Ok(x)
    ensures y.Op? ==> (r.Ok? <==> IsPhysical(x.name) == IsPhysical(y.m.name)
                                  && (IsPhysical(x.name) ==> x.name == y.m.name) && Dim(y.m) == Dim(x))
    ensures r.Ok? ==> Square(r.value) && Dim(r.value) == Dim(x)
    ensures y.Op? && r.Ok? ==> r.value.name == x.name
    ensures y.Op? && r.Ok? ==> forall i, j :: 0 <= i < Dim(x) && 0 <= j < Dim(x) ==>
              r.value.value[i][j] == x.value[i][j] + y.m.value[i][j] && r.value.error[i][j] == x.error[i][j] + y.m.error[i][j]
    ensures r.Err? ==> r.error == ValueError || r.error == NotImplementedError
  {
    var n := Dim(x);
    match y
    case Number(c) =>
      if c != 0.0 then Err(ValueError)
      else
        AddZeros(x.value, n, n);
        AddZeros(x.error, n, n);
        Ok(Member(MatAdd(x.value, Zeros(n, n)), MatAdd(x.error, Zeros(n, n)), x.name))
    case Op(m) =>
      if IsPhysical(x.name) != IsPhysical(m.name) then Err(ValueError)
      else if IsPhysical(x.name) && m.name != x.name then Err(ValueError)
      else if Dim(m) != n then Err(ValueError)
      else Ok(Member(MatAdd(x.value, m.value), MatAdd(x.error, m.error), x.name))
    case Other => Err(NotImplementedError)
  }

  /** `__neg__`: the product with -1. */
  function Neg(x: Member): (r: Member)
    requires Square(x)
    ensures Square(r) && Dim(r) == Dim(x) && r.name == x.name
    ensures forall i, j :: 0 <= i < Dim(x) && 0 <= j < Dim(x) ==> r.value[i][j] == -x.value[i][j]
  {
    Mul(x, Number(-1.0)).value
  }

  /** `__sub__`: adding the negated operand; a negated unsupported operand is a TypeError. */
  function Sub(x: Member, y: Operand): (r: Result<Member>)
    requires Square(x)
    requires y.Op? ==> Square(y.m)
    ensures y.Other? ==> r == Err(TypeError)
    ensures y.Number? ==> (r.Ok? <==> y.c == 0.0)
    ensures y.Number? && y.c == 0.0 ==> r == Ok(x)
    ensures y.Op? ==> (r.Ok? <==> IsPhysical(x.name) == IsPhysical(y.m.name)
                                  && (IsPhysical(x.name) ==> x.name == y.m.name) && Dim(y.m) == Dim(x))
    ensures r.Ok? ==> Square(r.value) && Dim(r.value) == Dim(x)
    ensures y.Op? && r.Ok? ==> r.value.name == x.name && forall i, j :: 0 <= i < Dim(x) && 0 <= j < Dim(x) ==>
              r.value.value[i][j] == x.value[i][j] - y.m.value[i][j]
  {
    match y
    case Number(c) => Add(x, Number(-c))
    case Op(m) => Add(x, Op(Neg(m)))
    case Other => Err(TypeError)
  }

  /** A physical member minus itself has value zero and keeps its name. */
  lemma SubSelf(x: Member)
    requires Square(x)
    ensures Sub(x, Op(x)).Ok?
    ensures Sub(x, Op(x)).value.value == Zeros(Dim(x), Dim(x)) && Sub(x, Op(x)).value.name == x.name
  {
    var r := Sub(x, Op(x)).value;
    assert forall i :: 0 <= i < Dim(x) ==> r.value[i] == Zeros(Dim(x), Dim(x))[i];
  }

  /** Multiplication by a number scales the value, keeps the name, and gives the error |c E|. */
  lemma MulByNumber(x: Member, c: real)
    requires Square(x)
    ensures Mul(x, Number(c)).Ok?
    ensures forall i, j :: 0 <= i < Dim(x) && 0 <= j < Dim(x) ==>
              Mul(x, Number(c)).value.value[i][j] == c * x.value[i][j]
              && Mul(x, Number(c)).value.error[i][j] == AbsR(c * x.error[i][j])
  {
    ScaledMemberEntries(x, c, Mul(x, Number(c)));
  }

  /** The entries of the member c x with error |c E|. */
  lemma ScaledMemberEntries(x: Member, c: real, r: Result<Member>)
    requires Square(x)
    requires r == Ok(Member(MatScale(c, x.value), MatAbs(MatScale(c, x.error)), x.name))
    ensures forall i, j :: 0 <= i < Dim(x) && 0 <= j < Dim(x) ==>
              r.value.value[i][j] == c * x.value[i][j] && r.value.error[i][j] == AbsR(c * x.error[i][j])
  {
    var scaled := MatScale(c, x.error);
    forall i, j | 0 <= i < Dim(x) && 0 <= j < Dim(x)
      ensures r.value.error[i][j] == AbsR(c * x.error[i][j])
    {
      assert scaled[i][j] == c * x.error[i][j];
    }
  }

  /**
   * Physical members chain through their shared label: (t.b)(b.i) is named
   * t.i, while a product whose inner labels differ is refused.
   */
  lemma ChainedNames(x: Member, y: Member, t: string, b: string, b2: string, i: string)
    requires Clean(t) && Clean(b) && Clean(b2) && Clean(i)
    requires x.name == NameOf(t, b) && y.name == NameOf(b2, i)
    requires IsPhysical(x.name) && IsPhysical(y.name)
    ensures b == b2 ==> ProductName(x, y) == Ok(NameOf(t, i))
    ensures b != b2 ==> ProductName(x, y) == Err(ValueError)
  {
    NameRoundTrip(t, b);
    NameRoundTrip(b2, i);
  }

  // ---------------------------------------------------------------- join

  /** Every member of every step is square. */
  predicate AllSquare(steps: seq<map<string, Member>>)
  {
    forall i, k :: 0 <= i < |steps| && k in steps[i] ==> Square(steps[i][k])
  }

  /** Every member of every step has dimension n. */
  predicate AllDim(steps: seq<map<string, Member>>, n: nat)
  {
    forall i, k :: 0 <= i < |steps| && k in steps[i] ==> Square(steps[i][k]) && Dim(steps[i][k]) == n
  }

  /**
   * The running product along a path after its first k steps: nothing
   * before the first step, then each named member multiplied on the right;
   * a name missing from its step is a KeyError.
   */
  function PathPrefix(steps: seq<map<string, Member>>, path: seq<string>, k: nat): (r: Result<Option<Member>>)
    requires AllSquare(steps) && k <= |steps| && k <= |path|
    ensures r.Ok? ==> (r.value.Some? <==> k > 0)
    ensures r.Ok? ==> forall i :: 0 <= i < k ==> path[i] in steps[i]
    ensures r.Ok? && k > 0 ==> Square(r.value.value) && Dim(r.value.value) == Dim(steps[0][path[0]])
  {
    if k == 0 then Ok(None)
    else
      var prev := PathPrefix(steps, path, k - 1);
      if prev.Err? then prev
      else if path[k - 1] !in steps[k - 1] then Err(KeyError)
      else
        var m := steps[k - 1][path[k - 1]];
        if prev.value.None? then Ok(Some(m))
        else
          var p := Mul(prev.value.value, Op(m));
          if p.Err? then Err(p.error) else Ok(Some(p.value))
  }

  function MinLen(a: nat, b: nat): nat { if a <= b then a else b }

  /** The product of the members a path names, step by step as `zip` pairs them. */
  function PathProduct(steps: seq<map<string, Member>>, path: seq<string>): Result<Option<Member>>
    requires AllSquare(steps)
  {
    PathPrefix(steps, path, MinLen(|steps|, |path|))
  }

  /** The accumulator of `join`: the integer 0 it starts from, or a member. */
  datatype Acc = Zero | Total(m: Member)

  /**
   * `final_op += cur_op`: 0 + member is the member (through `__radd__`),
   * member + member is `__add__`; a path that named nothing leaves None,
   * which neither the integer nor a member accepts.
   */
  function AddPath(acc: Acc, cur: Option<Member>): (r: Result<Acc>)
    requires acc.Total? ==> Square(acc.m)
    requires cur.Some? ==> Square(cur.value)
    ensures r.Ok? ==> r.value.Total? && Square(r.value.m)
    ensures acc.Zero? && cur.Some? ==> r == Ok(Total(cur.value))
  {
    match (acc, cur)
    case (Zero, None) => Err(TypeError)
    case (Zero, Some(m)) => Ok(Total(Add(m, Number(0.0)).value))
    case (Total(t), None) => Err(NotImplementedError)
    case (Total(t), Some(m)) =>
      var s := Add(t, Op(m));
      if s.Err? then Err(s.error) else Ok(Total(s.value))
  }

  /** Every product that exists and names something is square. */
  predicate SquareProducts(prods: seq<Result<Option<Member>>>)
  {
    forall i :: 0 <= i < |prods| && prods[i].Ok? && prods[i].value.Some? ==> Square(prods[i].value.value)
  }

  /** The product along each path, in path order. */
  function Products(steps: seq<map<string, Member>>, paths: seq<seq<string>>): (prods: seq<Result<Option<Member>>>)
    requires AllSquare(steps)
    ensures |prods| == |paths| && SquareProducts(prods)
    ensures forall i :: 0 <= i < |paths| ==> prods[i] == PathProduct(steps, paths[i])
  {
    seq(|paths|, i requires 0 <= i < |paths| => PathProduct(steps, paths[i]))
  }

  /**
   * `join` after its first j paths, given the product along each path:
   * the first failing product or sum ends it with its error.
   */
  function JoinOf(prods: seq<Result<Option<Member>>>, j: nat): (r: Result<Acc>)
    requires SquareProducts(prods) && j <= |prods|
    ensures r.Ok? && r.value.Total? ==> Square(r.value.m)
    ensures r.Ok? ==> (r.value.Total? <==> j > 0)
  {
    if j == 0 then Ok(Zero)
    else
      var prev := JoinOf(prods, j - 1);
      if prev.Err? then prev
      else if prods[j - 1].Err? then Err(prods[j - 1].error)
      else AddPath(prev.value, prods[j - 1].value)
  }

  /** A successful join of j paths extends a successful join of the first j - 1 by a path whose product exists and names something. */
  lemma JoinOfPrev(prods: seq<Result<Option<Member>>>, j: nat)
    requires SquareProducts(prods) && 0 < j <= |prods|
    requires JoinOf(prods, j).Ok?
    ensures JoinOf(prods, j - 1).Ok? && prods[j - 1].Ok? && prods[j - 1].value.Some?
  {
  }

  /** `join`: the sum over all paths of the product along each path. */
  function Join(steps: seq<map<string, Member>>, paths: seq<seq<string>>): (r: Result<Acc>)
    requires AllSquare(steps)
    ensures r.Ok? ==> (r.value.Total? <==> |paths| > 0)
    ensures r.Ok? && r.value.Total? ==> Square(r.value.m)
  {
    JoinOf(Products(steps, paths), |paths|)
  }

  /** A successful join of j paths means the product along each of them exists and names a member. */
  lemma {:induction false} JoinOkPaths(prods: seq<Result<Option<Member>>>, j: nat)
    requires SquareProducts(prods) && j <= |prods|
    ensures JoinOf(prods, j).Ok? ==> forall i :: 0 <= i < j ==> prods[i].Ok? && prods[i].value.Some?
  {
    if j > 0 && JoinOf(prods, j).Ok? {
      JoinOfPrev(prods, j);
      JoinOkPaths(prods, j - 1);
    }
  }

  /** A successful `join` multiplied out every path into a member. */
  lemma JoinOkProducts(steps: seq<map<string, Member>>, paths: seq<seq<string>>)
    requires AllSquare(steps)
    ensures Join(steps, paths).Ok? ==> forall i :: 0 <= i < |paths| ==> PathProduct(steps, paths[i]).Ok? && PathProduct(steps, paths[i]).value.Some?
  {
    JoinOkPaths(Products(steps, paths), |paths|);
  }

  /** Once the running product fails it keeps that failure through the remaining steps. */
  lemma {:induction false} PathErrSticky(steps: seq<map<string, Member>>, path: seq<string>, k: nat, m: nat)
    requires AllSquare(steps) && k <= m <= |steps| && m <= |path|
    requires PathPrefix(steps, path, k).Err?
    ensures PathPrefix(steps, path, m) == PathPrefix(steps, path, k)
    decreases m - k
  {
    if k < m {
      PathErrSticky(steps, path, k + 1, m);
    }
  }

  /** Once `join` fails it keeps that failure through the remaining paths. */
  lemma {:induction false} JoinErrSticky(prods: seq<Result<Option<Member>>>, j: nat, m: nat)
    requires SquareProducts(prods) && j <= m <= |prods|
    requires JoinOf(prods, j).Err?
    ensures JoinOf(prods, m) == JoinOf(prods, j)
    decreases m - j
  {
    if j < m {
      JoinErrSticky(prods, j + 1, m);
    }
  }

  /** A path whose step i names a missing member, or whose product fails there, fails with that error. */
  lemma PathFailsAt(steps: seq<map<string, Member>>, path: seq<string>, i: nat, cur: Option<Member>)
    requires AllSquare(steps) && i < MinLen(|steps|, |path|) && PathPrefix(steps, path, i) == Ok(cur)
    requires path[i] !in steps[i] || (cur.Some? && Mul(cur.value, Op(steps[i][path[i]])).Err?)
    ensures path[i] !in steps[i] ==> PathProduct(steps, path) == Err(KeyError)
    ensures path[i] in steps[i] ==> PathProduct(steps, path) == Err(Mul(cur.value, Op(steps[i][path[i]])).error)
  {
    PathErrSticky(steps, path, i + 1, MinLen(|steps|, |path|));
  }

  /** A join that fails on path j, through its product or through the sum, fails with that error. */
  lemma JoinFailsAt(prods: seq<Result<Option<Member>>>, j: nat, acc: Acc)
    requires SquareProducts(prods) && j < |prods| && JoinOf(prods, j) == Ok(acc)
    requires prods[j].Err? || AddPath(acc, prods[j].value).Err?
    ensures prods[j].Err? ==> JoinOf(prods, |prods|) == Err(prods[j].error)
    ensures prods[j].Ok? ==> JoinOf(prods, |prods|) == AddPath(acc, prods[j].value)
  {
    JoinErrSticky(prods, j + 1, |prods|);
  }

  /** The inner loop of `join`: the product of the members one path names. */
  method ProductAlong(steps: seq<map<string, Member>>, path: seq<string>) returns (r: Result<Option<Member>>)
    requires AllSquare(steps)
    ensures r == PathProduct(steps, path)
  {
    var len := MinLen(|steps|, |path|);
    var cur: Option<Member> := None;
    var i := 0;
    while i < len
      invariant 0 <= i <= len
      invariant PathPrefix(steps, path, i) == Ok(cur)
    {
      if path[i] !in steps[i] {
        PathFailsAt(steps, path, i, cur);
        return Err(KeyError);
      }
      var newOp := steps[i][path[i]];
      if cur.None? {
        cur := Some(newOp);
      } else {
        var p := Mul(cur.value, Op(newOp));
        if p.Err? {
          PathFailsAt(steps, path, i, cur);
          return Err(p.error);
        }
        cur := Some(p.value);
      }
      i := i + 1;
    }
    r := Ok(cur);
  }

/** `OperatorMember.join`: the outer loop over the paths, adding each path's product. */
  method JoinPaths(steps: seq<map<string, Member>>, paths: seq<seq<string>>) returns (r: Result<Acc>)
    requires AllSquare(steps)
    ensures r == Join(steps, paths)
  {
    ghost var prods := Products(steps, paths);
    var acc := Zero;
    var j := 0;
    while j < |paths|
      invariant 0 <= j <= |paths|
      invariant JoinOf(prods, j) == Ok(acc)
    {
      var cur := ProductAlong(steps, paths[j]);
      assert cur == prods[j];
      if cur.Err? {
        JoinFailsAt(prods, j, acc);
        return Err(cur.error);
      }
      var s := AddPath(acc, cur.value);
      if s.Err? {
        JoinFailsAt(prods, j, acc);
        return Err(s.error);
      }
      acc := s.value;
      j := j + 1;
    }
    r := Ok(acc);
  }

  /** The product of the values along the first k steps of a path, starting from the identity. */
  function PathValue(steps: seq<map<string, Member>>, path: seq<string>, k: nat, n: nat): (v: Matrix)
    requires AllDim(steps, n) && k <= |steps| && k <= |path|
    requires forall i :: 0 <= i < k ==> path[i] in steps[i]
    ensures IsMatrix(v, n, n)
  {
    if k == 0 then Identity(n)
    else MatMul(PathValue(steps, path, k - 1, n), steps[k - 1][path[k - 1]].value, n, n, n)
  }

  /** The running product of `join` has as value the product of the named values, in path order. */
  lemma {:induction false} PathPrefixValue(steps: seq<map<string, Member>>, path: seq<string>, k: nat, n: nat)
    requires AllDim(steps, n) && k <= |steps| && k <= |path|
    requires PathPrefix(steps, path, k).Ok?
    ensures k > 0 ==> PathPrefix(steps, path, k).value.value.value == PathValue(steps, path, k, n)
  {
    if k > 0 {
      PathPrefixValue(steps, path, k - 1, n);
      var m := steps[k - 1][path[k - 1]];
      if k == 1 {
        IdentityLeft(m.value, n, n);
      }
    }
  }

/** The value of each path's product, zeros for a path whose product fails. */
  function PathValues(steps: seq<map<string, Member>>, paths: seq<seq<string>>, n: nat): (vals: seq<Matrix>)
    requires AllDim(steps, n)
    ensures |vals| == |paths| && forall i :: 0 <= i < |paths| ==> IsMatrix(vals[i], n, n)
  {
    seq(|paths|, i requires 0 <= i < |paths| =>
      var len := MinLen(|steps|, |paths[i]|);
      if PathPrefix(steps, paths[i], len).Ok? then PathValue(steps, paths[i], len, n) else Zeros(n, n))
  }

  /** The sum of the first j matrices. */
  function SumMatrices(vals: seq<Matrix>, j: nat, n: nat): (v: Matrix)
    requires j <= |vals| && forall i :: 0 <= i < |vals| ==> IsMatrix(vals[i], n, n)
    ensures IsMatrix(v, n, n)
  {
    if j == 0 then Zeros(n, n) else MatAdd(SumMatrices(vals, j - 1, n), vals[j - 1])
  }

  /**
   * When every product that names something has dimension n and the given
   * value, a successful join of j paths has dimension n and as value the
   * sum of the first j values.
   */
  lemma {:induction false} JoinOfValue(prods: seq<Result<Option<Member>>>, vals: seq<Matrix>, j: nat, n: nat)
    requires SquareProducts(prods) && 0 < j <= |prods| && |vals| == |prods|
    requires forall i :: 0 <= i < |vals| ==> IsMatrix(vals[i], n, n)
    requires forall i :: 0 <= i < |prods| && prods[i].Ok? && prods[i].value.Some? ==>
               Dim(prods[i].value.value) == n && prods[i].value.value.value == vals[i]
    requires JoinOf(prods, j).Ok?
    ensures Dim(JoinOf(prods, j).value.m) == n
    ensures JoinOf(prods, j).value.m.value == SumMatrices(vals, j, n)
  {
    JoinOfPrev(prods, j);
    var prev := JoinOf(prods, j - 1);
    var cm := prods[j - 1].value.value;
    if j == 1 {
      ZerosAddLeft(vals[0], n);
    } else {
      JoinOfValue(prods, vals, j - 1, n);
      AddValue(prev.value.m, cm, n);
    }
  }

  /**
   * `join` sums, over all paths, the product of the members named along
   * each path taken in path order: the value of a successful join is that
   * sum of products of values.
   */
  lemma JoinValue(steps: seq<map<string, Member>>, paths: seq<seq<string>>, n: nat)
    requires AllDim(steps, n) && |paths| > 0
    requires Join(steps, paths).Ok?
    ensures Join(steps, paths).value.m.value == SumMatrices(PathValues(steps, paths, n), |paths|, n)
  {
    var prods := Products(steps, paths);
    var vals := PathValues(steps, paths, n);
    forall i | 0 <= i < |prods| && prods[i].Ok? && prods[i].value.Some?
      ensures Dim(prods[i].value.value) == n && prods[i].value.value.value == vals[i]
    {
      PathPrefixValue(steps, paths[i], MinLen(|steps|, |paths[i]|), n);
    }
    JoinOfValue(prods, vals, |paths|, n);
  }

  /** A successful sum of two members of dimension n has the sum of their values. */
  lemma AddValue(t: Member, m: Member, n: nat)
    requires Square(t) && Square(m) && Dim(t) == n && Dim(m) == n
    requires Add(t, Op(m)).Ok?
    ensures Add(t, Op(m)).value.value == MatAdd(t.value, m.value)
  {
    var v := Add(t, Op(m)).value.value;
    assert forall i :: 0 <= i < n ==> v[i] == MatAdd(t.value, m.value)[i];
  }

  lemma ZerosAddLeft(x: Matrix, n: nat)
    requires IsMatrix(x, n, n)
    ensures MatAdd(Zeros(n, n), x) == x
  {
    assert forall i :: 0 <= i < n ==> MatAdd(Zeros(n, n), x)[i] == x[i];
  }

  // ---------------------------------------------------------------- physical operators

  /** A physical operator: its members by name, in insertion order, and the final scale. */
  datatype PhysicalOperator = PhysicalOperator(keys: seq<string>, members: map<string, Member>, q2Final: real)

  /** The key list lists each member once and every member is square. */
  ghost predicate WellKeyed(p: PhysicalOperator)
  {
    (forall i, j :: 0 <= i < j < |p.keys| ==> p.keys[i] != p.keys[j])
    && (forall k :: k in p.members <==> k in p.keys)
    && (forall k :: k in p.members ==> Square(p.members[k]))
  }

  /** The members, in insertion order, as `op_members.values()` yields them. */
  function Values(p: PhysicalOperator): (v: seq<Member>)
    requires WellKeyed(p)
    ensures |v| == |p.keys| && forall i :: 0 <= i < |v| ==> v[i] == p.members[p.keys[i]] && Square(v[i])
  {
    seq(|p.keys|, i requires 0 <= i < |p.keys| => p.members[p.keys[i]])
  }

  /** The right factor of a product of physical operators. */
  datatype Factor = Physical(p: PhysicalOperator) | NotPhysical

  /** The split names of a sequence of members. */
  function Parts(ms: seq<Member>): (r: seq<Result<(string, string)>>)
    ensures |r| == |ms| && forall a :: 0 <= a < |ms| ==> r[a] == SplitName(ms[a].name)
  {
    seq(|ms|, a requires 0 <= a < |ms| => SplitName(ms[a].name))
  }

  /** The names of a sequence of members. */
  function Names(ms: seq<Member>): (r: seq<string>)
    ensures |r| == |ms| && forall a :: 0 <= a < |ms| ==> r[a] == ms[a].name
  {
    seq(|ms|, a requires 0 <= a < |ms| => ms[a].name)
  }

  /** Both names split, and the left input is the right target. */
  predicate Chains(x: Result<(string, string)>, y: Result<(string, string)>)
  {
    x.Ok? && y.Ok? && x.value.1 == y.value.0
  }

  /** The key of a chaining pair: left target, right input. */
  function PairKey(x: Result<(string, string)>, y: Result<(string, string)>): string
    requires Chains(x, y)
  {
    NameOf(x.value.0, y.value.1)
  }

  /** The ordered instructions of a product: each new key with its list of paths. */
  datatype Instructions = Instructions(keys: seq<string>, paths: map<string, seq<seq<string>>>)

  /** Pair (a, b) comes before the loop position (i, j). */
  predicate Done(a: int, b: int, i: int, j: int) { a < i || (a == i && b < j) }

  /**
   * The instructions hold exactly the chaining pairs visited before (i, j),
   * each under its key; `mp`/`op` are the split names and `mn`/`on` the
   * names of the left and right members.
   */
  ghost predicate Collected(ins: Instructions, mp: seq<Result<(string, string)>>, mn: seq<string>,
                            op: seq<Result<(string, string)>>, on: seq<string>, i: int, j: int)
    requires |mp| == |mn| && |op| == |on|
  {
    (forall a, b :: 0 <= a < |ins.keys| && 0 <= b < |ins.keys| && a != b ==> ins.keys[a] != ins.keys[b])
    && (forall k :: k in ins.paths <==> k in ins.keys)
    && (forall k :: k in ins.paths ==> |ins.paths[k]| > 0)
    && (forall a, b :: 0 <= a < |mp| && 0 <= b < |op| && Done(a, b, i, j) && Chains(mp[a], op[b]) ==>
          PairKey(mp[a], op[b]) in ins.paths && [mn[a], on[b]] in ins.paths[PairKey(mp[a], op[b])])
    && (forall k, q :: k in ins.paths && q in ins.paths[k] ==>
          exists a, b :: 0 <= a < |mp| && 0 <= b < |op| && Done(a, b, i, j) && Chains(mp[a], op[b])
                         && k == PairKey(mp[a], op[b]) && q == [mn[a], on[b]])
  }

  /** Record one chaining pair under its key, creating the key when new. */
  function Record(ins: Instructions, key: string, path: seq<string>): Instructions
  {
    if key !in ins.paths then Instructions(ins.keys + [key], ins.paths[key := [path]])
    else Instructions(ins.keys, ins.paths[key := ins.paths[key] + [path]])
  }

  /** Every entry of a sequence of split names succeeded. */
  predicate AllOk(ps: seq<Result<(string, string)>>)
  {
    forall a :: 0 <= a < |ps| ==> ps[a].Ok?
  }

  /**
   * The instruction loops of `PhysicalOperator.__mul__`: every pair whose
   * left input is the right target adds the path [left, right] under the
   * key left.target.right.input. A malformed name fails as soon as a pair
   * reaches it, so the product fails exactly when both sides are non-empty
   * and some name on either side is malformed.
   */
  method CollectPaths(mine: seq<Member>, others: seq<Member>) returns (r: Result<Instructions>)
    ensures r.Ok? <==> |mine| == 0 || |others| == 0 || (AllOk(Parts(mine)) && AllOk(Parts(others)))
    ensures r.Err? ==> r.error == ValueError
    ensures r.Ok? ==> Collected(r.value, Parts(mine), Names(mine), Parts(others), Names(others), |mine|, 0)
  {
    r := CollectSplit(Parts(mine), Names(mine), Parts(others), Names(others));
  }

  /** The loops of `CollectPaths`, over the split names `mp`/`op` and the names `mn`/`on`. */
  method CollectSplit(mp: seq<Result<(string, string)>>, mn: seq<string>,
                      op: seq<Result<(string, string)>>, on: seq<string>) returns (r: Result<Instructions>)
    requires |mp| == |mn| && |op| == |on|
    ensures r.Ok? <==> |mp| == 0 || |op| == 0 || (AllOk(mp) && AllOk(op))
    ensures r.Err? ==> r.error == ValueError
    ensures r.Ok? ==> Collected(r.value, mp, mn, op, on, |mp|, 0)
  {
    var ins := Instructions([], map[]);
    var i := 0;
    while i < |mp|
      invariant 0 <= i <= |mp|
      invariant i > 0 && |op| > 0 ==> (forall a :: 0 <= a < i ==> mp[a].Ok?) && AllOk(op)
      invariant Collected(ins, mp, mn, op, on, i, 0)
    {
      var row := CollectRow(ins, mp, mn, op, on, i);
      if row.Err? {
        return Err(ValueError);
      }
      ins := row.value;
      i := i + 1;
    }
    r := Ok(ins);
  }

  /** The inner loop of `CollectPaths`: member i of this operator against every member of the other. */
  method CollectRow(ins0: Instructions, mp: seq<Result<(string, string)>>, mn: seq<string>,
                    op: seq<Result<(string, string)>>, on: seq<string>, i: nat) returns (r: Result<Instructions>)
    requires |mp| == |mn| && |op| == |on| && i < |mp|
    requires Collected(ins0, mp, mn, op, on, i, 0)
    ensures r.Err? <==> |op| > 0 && (mp[i].Err? || !AllOk(op))
    ensures r.Ok? ==> Collected(r.value, mp, mn, op, on, i + 1, 0)
  {
    var ins := ins0;
    for j := 0 to |op|
      invariant j > 0 ==> mp[i].Ok? && forall b :: 0 <= b < j ==> op[b].Ok?
      invariant Collected(ins, mp, mn, op, on, i, j)
    {
      if mp[i].Err? || op[j].Err? {
        return Err(ValueError);
      }
      if mp[i].value.1 == op[j].value.0 {
        RecordCollected(ins, mp, mn, op, on, i, j);
        ins := Record(ins, NameOf(mp[i].value.0, op[j].value.1), [mn[i], on[j]]);
      } else {
        StillCollected(ins, mp, mn, op, on, i, j);
      }
    }
    NextRow(ins, mp, mn, op, on, i);
    r := Ok(ins);
  }

  lemma StillCollected(ins: Instructions, mp: seq<Result<(string, string)>>, mn: seq<string>,
                       op: seq<Result<(string, string)>>, on: seq<string>, i: nat, j: nat)
    requires |mp| == |mn| && |op| == |on| && i < |mp| && j < |op| && !Chains(mp[i], op[j])
    requires Collected(ins, mp, mn, op, on, i, j)
    ensures Collected(ins, mp, mn, op, on, i, j + 1)
  {
    forall k, q | k in ins.paths && q in ins.paths[k]
      ensures exists a, b :: 0 <= a < |mp| && 0 <= b < |op| && Done(a, b, i, j + 1) && Chains(mp[a], op[b])
                             && k == PairKey(mp[a], op[b]) && q == [mn[a], on[b]]
    {
      var a, b :| 0 <= a < |mp| && 0 <= b < |op| && Done(a, b, i, j) && Chains(mp[a], op[b])
                  && k == PairKey(mp[a], op[b]) && q == [mn[a], on[b]];
      assert Done(a, b, i, j + 1);
    }
  }

  lemma NextRow(ins: Instructions, mp: seq<Result<(string, string)>>, mn: seq<string>,
                op: seq<Result<(string, string)>>, on: seq<string>, i: nat)
    requires |mp| == |mn| && |op| == |on| && i < |mp|
    requires Collected(ins, mp, mn, op, on, i, |op|)
    ensures Collected(ins, mp, mn, op, on, i + 1, 0)
  {
    forall k, q | k in ins.paths && q in ins.paths[k]
      ensures exists a, b :: 0 <= a < |mp| && 0 <= b < |op| && Done(a, b, i + 1, 0) && Chains(mp[a], op[b])
                             && k == PairKey(mp[a], op[b]) && q == [mn[a], on[b]]
    {
      var a, b :| 0 <= a < |mp| && 0 <= b < |op| && Done(a, b, i, |op|) && Chains(mp[a], op[b])
                  && k == PairKey(mp[a], op[b]) && q == [mn[a], on[b]];
      assert Done(a, b, i + 1, 0);
    }
  }

  /** What `Record` stores: the old paths, plus `path` under `key`. */
  lemma RecordPaths(ins: Instructions, key: string, path: seq<string>, k: string, q: seq<string>)
    ensures k in Record(ins, key, path).paths <==> k in ins.paths || k == key
    ensures k in Record(ins, key, path).paths ==>
      (q in Record(ins, key, path).paths[k] <==> (k in ins.paths && q in ins.paths[k]) || (k == key && q == path))
  {
  }

  /** Recording keeps the keys distinct, in step with the map, and every list non-empty. */
  lemma RecordKeys(ins: Instructions, key: string, path: seq<string>)
    requires forall a, b :: 0 <= a < |ins.keys| && 0 <= b < |ins.keys| && a != b ==> ins.keys[a] != ins.keys[b]
    requires forall k :: k in ins.paths <==> k in ins.keys
    requires forall k :: k in ins.paths ==> |ins.paths[k]| > 0
    ensures var r := Record(ins, key, path);
      && (forall a, b :: 0 <= a < |r.keys| && 0 <= b < |r.keys| && a != b ==> r.keys[a] != r.keys[b])
      && (forall k :: k in r.paths <==> k in r.keys)
      && (forall k :: k in r.paths ==> |r.paths[k]| > 0)
  {
  }

  /** Recording a chaining pair keeps the instructions exactly the visited chaining pairs. */
  lemma RecordCollected(ins: Instructions, mp: seq<Result<(string, string)>>, mn: seq<string>,
                        op: seq<Result<(string, string)>>, on: seq<string>, i: nat, j: nat)
    requires |mp| == |mn| && |op| == |on| && i < |mp| && j < |op| && Chains(mp[i], op[j])
    requires Collected(ins, mp, mn, op, on, i, j)
    ensures Collected(Record(ins, PairKey(mp[i], op[j]), [mn[i], on[j]]), mp, mn, op, on, i, j + 1)
  {
    var key := PairKey(mp[i], op[j]);
    var path := [mn[i], on[j]];
    var r := Record(ins, key, path);
    RecordKeys(ins, key, path);
    forall a, b | 0 <= a < |mp| && 0 <= b < |op| && Done(a, b, i, j + 1) && Chains(mp[a], op[b])
      ensures PairKey(mp[a], op[b]) in r.paths && [mn[a], on[b]] in r.paths[PairKey(mp[a], op[b])]
    {
      RecordPaths(ins, key, path, PairKey(mp[a], op[b]), [mn[a], on[b]]);
      if !(a == i && b == j) {
        assert Done(a, b, i, j);
      }
    }
    forall k, q | k in r.paths && q in r.paths[k]
      ensures exists a, b :: 0 <= a < |mp| && 0 <= b < |op| && Done(a, b, i, j + 1) && Chains(mp[a], op[b])
                             && k == PairKey(mp[a], op[b]) && q == [mn[a], on[b]]
    {
      RecordPaths(ins, key, path, k, q);
      if k in ins.paths && q in ins.paths[k] {
        var a, b :| 0 <= a < |mp| && 0 <= b < |op| && Done(a, b, i, j) && Chains(mp[a], op[b])
                    && k == PairKey(mp[a], op[b]) && q == [mn[a], on[b]];
        assert Done(a, b, i, j + 1);
      } else {
        assert Done(i, j, i, j + 1);
      }
    }
  }

  /** The result of a product: one member per collected key, the join of that key's paths. */
  ghost predicate JoinedFrom(res: PhysicalOperator, x: PhysicalOperator, y: PhysicalOperator, ins: Instructions)
    requires WellKeyed(x) && WellKeyed(y)
  {
    var mine := Values(x);
    var others := Values(y);
    Collected(ins, Parts(mine), Names(mine), Parts(others), Names(others), |mine|, 0)
    && res.keys == ins.keys
    && (forall k :: k in res.members <==> k in ins.paths)
    && (forall k :: k in ins.paths ==> Join([x.members, y.members], ins.paths[k]) == Ok(Total(res.members[k])))
  }

  /**
   * Factors whose product cannot fail: every member is stored under its
   * own name, which is physical and splits into target and input, and all
   * members of both factors share one dimension.
   */
  ghost predicate Multipliable(x: PhysicalOperator, y: PhysicalOperator)
  {
    && (forall k :: k in x.members ==> x.members[k].name == k && IsPhysical(k) && SplitName(k).Ok?)
    && (forall k :: k in y.members ==> y.members[k].name == k && IsPhysical(k) && SplitName(k).Ok?)
    && (forall k, l :: k in x.members && l in y.members ==> Dim(x.members[k]) == Dim(y.members[l]))
  }

  /** The names of multipliable factors all split. */
  lemma MultipliableSplits(x: PhysicalOperator, y: PhysicalOperator)
    requires WellKeyed(x) && WellKeyed(y)
    ensures Multipliable(x, y) ==> AllOk(Parts(Values(x))) && AllOk(Parts(Values(y)))
  {
    if Multipliable(x, y) {
      forall a | 0 <= a < |x.keys| ensures Parts(Values(x))[a].Ok? {
        assert x.keys[a] in x.members;
      }
      forall b | 0 <= b < |y.keys| ensures Parts(Values(y))[b].Ok? {
        assert y.keys[b] in y.members;
      }
    }
  }

  /**
   * Paths whose products all exist, carry one name and one dimension join
   * into a member with that name and dimension.
   */
  lemma {:induction false} JoinOfSame(prods: seq<Result<Option<Member>>>, j: nat, name: string, n: nat)
    requires SquareProducts(prods) && 0 < j <= |prods|
    requires forall i :: 0 <= i < j ==>
      prods[i].Ok? && prods[i].value.Some? && prods[i].value.value.name == name && Dim(prods[i].value.value) == n
    ensures JoinOf(prods, j).Ok? && JoinOf(prods, j).value.Total?
    ensures JoinOf(prods, j).value.m.name == name && Dim(JoinOf(prods, j).value.m) == n
  {
    if j > 1 {
      JoinOfSame(prods, j - 1, name, n);
    }
  }

  /**
   * The path [kx, ky] through two member dictionaries multiplies into a
   * member named target-of-kx.input-of-ky when both members are stored
   * under their own physical names, the input of kx is the target of ky and
   * the dimensions agree.
   */
  lemma PairProduct(xm: map<string, Member>, ym: map<string, Member>, kx: string, ky: string)
    requires AllSquare([xm, ym]) && kx in xm && ky in ym
    requires xm[kx].name == kx && ym[ky].name == ky && IsPhysical(kx) && IsPhysical(ky)
    requires Chains(SplitName(kx), SplitName(ky)) && Dim(xm[kx]) == Dim(ym[ky])
    ensures var p := PathProduct([xm, ym], [kx, ky]);
      && p.Ok? && p.value.Some?
      && p.value.value.name == PairKey(SplitName(kx), SplitName(ky)) && Dim(p.value.value) == Dim(xm[kx])
  {
    var steps := [xm, ym];
    var path := [kx, ky];
    assert PathPrefix(steps, path, 1) == Ok(Some(xm[kx]));
    assert ProductName(xm[kx], ym[ky]) == Ok(PairKey(SplitName(kx), SplitName(ky)));
  }

  /** Every collected path comes from a chaining pair visited before (i, j). */
  lemma CollectedPair(ins: Instructions, mp: seq<Result<(string, string)>>, mn: seq<string>,
                      op: seq<Result<(string, string)>>, on: seq<string>, i: int, j: int, k: string, q: seq<string>)
    returns (a: nat, b: nat)
    requires |mp| == |mn| && |op| == |on| && Collected(ins, mp, mn, op, on, i, j)
    requires k in ins.paths && q in ins.paths[k]
    ensures a < |mp| && b < |op| && Chains(mp[a], op[b]) && k == PairKey(mp[a], op[b]) && q == [mn[a], on[b]]
  {
    a, b :| 0 <= a < |mp| && 0 <= b < |op| && Done(a, b, i, j) && Chains(mp[a], op[b])
            && k == PairKey(mp[a], op[b]) && q == [mn[a], on[b]];
  }

  /** A path collected from factors whose members sit under their own names is [left key, right key] of a chaining pair. */
  lemma CollectedKeys(x: PhysicalOperator, y: PhysicalOperator, ins: Instructions, k: string, q: seq<string>)
    returns (kx: string, ky: string)
    requires WellKeyed(x) && WellKeyed(y)
    requires forall l :: l in x.members ==> x.members[l].name == l
    requires forall l :: l in y.members ==> y.members[l].name == l
    requires Collected(ins, Parts(Values(x)), Names(Values(x)), Parts(Values(y)), Names(Values(y)), |Values(x)|, 0)
    requires k in ins.paths && q in ins.paths[k]
    ensures kx in x.members && ky in y.members && q == [kx, ky]
    ensures Chains(SplitName(kx), SplitName(ky)) && k == PairKey(SplitName(kx), SplitName(ky))
  {
    var mp, mn, op, on := Parts(Values(x)), Names(Values(x)), Parts(Values(y)), Names(Values(y));
    var a, b := CollectedPair(ins, mp, mn, op, on, |Values(x)|, 0, k, q);
    kx, ky := x.keys[a], y.keys[b];
    assert kx in x.members && ky in y.members;
  }

  /** Every key collected from multipliable factors joins. */
  lemma KeyJoins(x: PhysicalOperator, y: PhysicalOperator, ins: Instructions, k: string)
    requires WellKeyed(x) && WellKeyed(y)
    requires Collected(ins, Parts(Values(x)), Names(Values(x)), Parts(Values(y)), Names(Values(y)), |Values(x)|, 0)
    requires k in ins.paths
    ensures AllSquare([x.members, y.members])
    ensures Multipliable(x, y) ==> Join([x.members, y.members], ins.paths[k]).Ok?
  {
    var steps := [x.members, y.members];
    assert AllSquare(steps);
    if Multipliable(x, y) {
      var ps := ins.paths[k];
      var prods := Products(steps, ps);
      assert ps[0] in ins.paths[k];
      var kx0, ky0 := CollectedKeys(x, y, ins, k, ps[0]);
      var n := Dim(y.members[ky0]);
      forall i | 0 <= i < |ps|
        ensures prods[i].Ok? && prods[i].value.Some? && prods[i].value.value.name == k && Dim(prods[i].value.value) == n
      {
        assert ps[i] in ins.paths[k];
        var kx, ky := CollectedKeys(x, y, ins, k, ps[i]);
        PairProduct(x.members, y.members, kx, ky);
      }
      JoinOfSame(prods, |ps|, k, n);
    }
  }

  /** The first t keys, and only they, hold the join of their paths. */
  ghost predicate JoinedUpTo(steps: seq<map<string, Member>>, keys: seq<string>, paths: map<string, seq<seq<string>>>,
                             ops: map<string, Member>, t: nat)
    requires AllSquare(steps) && t <= |keys|
  {
    && (forall k :: k in ops <==> k in keys[..t])
    && (forall k :: k in ops ==> k in paths && Join(steps, paths[k]) == Ok(Total(ops[k])) && Square(ops[k]))
  }

  /** Storing the join of the next key extends the joined keys by one. */
  lemma JoinedStep(steps: seq<map<string, Member>>, keys: seq<string>, paths: map<string, seq<seq<string>>>,
                   ops: map<string, Member>, t: nat, acc: Acc)
    requires AllSquare(steps) && t < |keys| && keys[t] in paths && |paths[keys[t]]| > 0
    requires JoinedUpTo(steps, keys, paths, ops, t) && Join(steps, paths[keys[t]]) == Ok(acc)
    ensures acc.Total? && JoinedUpTo(steps, keys, paths, ops[keys[t] := acc.m], t + 1)
  {
    assert keys[..t + 1] == keys[..t] + [keys[t]];
  }

  /**
   * The loop of `PhysicalOperator.__mul__` over the collected keys: each
   * key gets the join of its paths, and the first join that fails ends it.
   */
  method JoinKeys(steps: seq<map<string, Member>>, keys: seq<string>, paths: map<string, seq<seq<string>>>)
    returns (r: Result<map<string, Member>>)
    requires AllSquare(steps) && forall k :: k in keys ==> k in paths && |paths[k]| > 0
    ensures (forall k :: k in keys ==> Join(steps, paths[k]).Ok?) ==> r.Ok?
    ensures r.Ok? ==> forall k :: k in r.value <==> k in keys
    ensures r.Ok? ==> forall k :: k in r.value ==> Join(steps, paths[k]) == Ok(Total(r.value[k])) && Square(r.value[k])
  {
    var newOps: map<string, Member> := map[];
    var t := 0;
    while t < |keys|
      invariant 0 <= t <= |keys|
      invariant JoinedUpTo(steps, keys, paths, newOps, t)
    {
      var joined := JoinPaths(steps, paths[keys[t]]);
      if joined.Err? {
        return Err(joined.error);
      }
      JoinedStep(steps, keys, paths, newOps, t, joined.value);
      newOps := newOps[keys[t] := joined.value.m];
      t := t + 1;
    }
    assert keys[..t] == keys;
    r := Ok(newOps);
  }

  /**
   * `PhysicalOperator.__mul__`: only another physical operator can be a
   * factor; each collected key t.i gets the join of its paths over the two
   * member dictionaries, and the product keeps the left final scale.
   */
  method PhysMul(x: PhysicalOperator, y: Factor) returns (r: Result<PhysicalOperator>)
    requires WellKeyed(x) && (y.Physical? ==> WellKeyed(y.p))
    ensures y.NotPhysical? ==> r == Err(ValueError)
    ensures y.Physical? && |x.keys| > 0 && |y.p.keys| > 0 && !(AllOk(Parts(Values(x))) && AllOk(Parts(Values(y.p))))
            ==> r == Err(ValueError)
    ensures y.Physical? && Multipliable(x, y.p) ==> r.Ok?
    ensures r.Ok? ==> WellKeyed(r.value) && r.value.q2Final == x.q2Final
    ensures r.Ok? ==> exists ins :: JoinedFrom(r.value, x, y.p, ins)
  {
    if y.NotPhysical? {
      return Err(ValueError);
    }
    MultipliableSplits(x, y.p);
    var ins := CollectPaths(Values(x), Values(y.p));
    if ins.Err? {
      return Err(ins.error);
    }
    var steps := [x.members, y.p.members];
    forall k | k in ins.value.paths
      ensures AllSquare(steps) && (Multipliable(x, y.p) ==> Join(steps, ins.value.paths[k]).Ok?)
    {
      KeyJoins(x, y.p, ins.value, k);
    }
    var newOps := JoinKeys(steps, ins.value.keys, ins.value.paths);
    if newOps.Err? {
      return Err(newOps.error);
    }
    r := Ok(PhysicalOperator(ins.value.keys, newOps.value, x.q2Final));
    assert JoinedFrom(r.value, x, y.p, ins.value);
  }

  // ---------------------------------------------------------------- apply_pdf

  /** Every member has dimension n. */
  ghost predicate OnGrid(x: PhysicalOperator, n: nat)
  {
    WellKeyed(x) && forall k :: k in x.members ==> Dim(x.members[k]) == n
  }

  /** The running state of `apply_pdf`: per target its sum, or None once blocked; per target its error sum. */
  datatype ApplyState = ApplyState(outs: map<string, Option<seq<real>>>, errs: map<string, seq<real>>)

  /** Every running sum and error sum has length n, and every live sum has its error sum. */
  predicate StateOk(st: ApplyState, n: nat)
  {
    (forall t :: t in st.outs && st.outs[t].Some? ==> t in st.errs && |st.outs[t].value| == n)
    && (forall t :: t in st.errs ==> |st.errs[t]| == n)
  }

  /** `op.apply_pdf(v)`: value and error matrices applied to the distribution. */
  function ApplyMember(m: Member, v: seq<real>): (seq<real>, seq<real>)
  {
    (MatVec(m.value, v), MatVec(m.error, v))
  }

  /**
   * One member of `apply_pdf`, with split name `p`: a missing input blocks
   * its target; a new target starts from this member's contribution; a
   * blocked target stays blocked; otherwise the contribution is added.
   * A distribution of the wrong length is refused as numpy refuses it.
   */
  function ApplyStep(st: ApplyState, m: Member, p: Result<(string, string)>, pdfs: map<string, seq<real>>, n: nat): (r: Result<ApplyState>)
    requires Square(m) && Dim(m) == n && StateOk(st, n)
    ensures r.Ok? ==> StateOk(r.value, n)
  {
    if p.Err? then Err(ValueError)
    else
      var target := p.value.0;
      var input := p.value.1;
      if input !in pdfs then Ok(st.(outs := st.outs[target := None]))
      else if target in st.outs && st.outs[target].None? then Ok(st)
      else if |pdfs[input]| != n then Err(ValueError)
      else
        var (out, err) := ApplyMember(m, pdfs[input]);
        if target !in st.outs then Ok(ApplyState(st.outs[target := Some(out)], st.errs[target := err]))
        else Ok(ApplyState(st.outs[target := Some(VecAdd(st.outs[target].value, out))],
                           st.errs[target := VecAdd(st.errs[target], err)]))
  }

  /** All members have dimension n. */
  predicate AllOnGrid(vals: seq<Member>, n: nat)
  {
    forall i :: 0 <= i < |vals| ==> Square(vals[i]) && Dim(vals[i]) == n
  }

  /** `apply_pdf` after its first k members. */
  function ApplyPrefix(vals: seq<Member>, ps: seq<Result<(string, string)>>, pdfs: map<string, seq<real>>, n: nat, k: nat): (r: Result<ApplyState>)
    requires AllOnGrid(vals, n) && |ps| == |vals| && k <= |vals|
    ensures r.Ok? ==> StateOk(r.value, n)
  {
    if k == 0 then Ok(ApplyState(map[], map[]))
    else
      var prev := ApplyPrefix(vals, ps, pdfs, n, k - 1);
      if prev.Err? then prev else ApplyStep(prev.value, vals[k - 1], ps[k - 1], pdfs, n)
  }

  /** The finished `apply_pdf`: the targets that were never blocked, and all error sums. */
  function ApplySpec(vals: seq<Member>, pdfs: map<string, seq<real>>, n: nat): Result<(map<string, seq<real>>, map<string, seq<real>>)>
    requires AllOnGrid(vals, n)
  {
    ApplySplit(vals, Parts(vals), pdfs, n)
  }

  /** `ApplySpec` over the members' split names `ps`. */
  function ApplySplit(vals: seq<Member>, ps: seq<Result<(string, string)>>, pdfs: map<string, seq<real>>, n: nat): Result<(map<string, seq<real>>, map<string, seq<real>>)>
    requires AllOnGrid(vals, n) && |ps| == |vals|
  {
    var st := ApplyPrefix(vals, ps, pdfs, n, |vals|);
    if st.Err? then Err(st.error)
    else Ok((map t | t in st.value.outs && st.value.outs[t].Some? :: st.value.outs[t].value, st.value.errs))
  }

  lemma {:induction false} ApplyErrSticky(vals: seq<Member>, ps: seq<Result<(string, string)>>, pdfs: map<string, seq<real>>, n: nat, k: nat, m: nat)
    requires AllOnGrid(vals, n) && |ps| == |vals| && k <= m <= |vals|
    requires ApplyPrefix(vals, ps, pdfs, n, k).Err?
    ensures ApplyPrefix(vals, ps, pdfs, n, m) == ApplyPrefix(vals, ps, pdfs, n, k)
    decreases m - k
  {
    if k < m {
      ApplyErrSticky(vals, ps, pdfs, n, k + 1, m);
    }
  }

  /**
   * `PhysicalOperator.apply_pdf`: one pass over the members accumulating
   * per target, then the blocked targets removed.
   */
  method ApplyPdf(x: PhysicalOperator, pdfs: map<string, seq<real>>, n: nat) returns (r: Result<(map<string, seq<real>>, map<string, seq<real>>)>)
    requires OnGrid(x, n)
    ensures r == ApplySpec(Values(x), pdfs, n)
  {
    var vals := Values(x);
    var st := ApplyAll(vals, Parts(vals), pdfs, n);
    if st.Err? {
      return Err(st.error);
    }
    var fin := st.value;
    r := Ok((map t | t in fin.outs && fin.outs[t].Some? :: fin.outs[t].value, fin.errs));
  }

  /** The loop of `ApplyPdf`, over the members and their split names. */
  method ApplyAll(vals: seq<Member>, ps: seq<Result<(string, string)>>, pdfs: map<string, seq<real>>, n: nat) returns (r: Result<ApplyState>)
    requires AllOnGrid(vals, n) && |ps| == |vals|
    ensures r == ApplyPrefix(vals, ps, pdfs, n, |vals|)
  {
    var st := ApplyState(map[], map[]);
    var i := 0;
    while i < |vals|
      invariant 0 <= i <= |vals|
      invariant ApplyPrefix(vals, ps, pdfs, n, i) == Ok(st)
    {
      var next := ApplyStep(st, vals[i], ps[i], pdfs, n);
      if next.Err? {
        ApplyErrSticky(vals, ps, pdfs, n, i + 1, |vals|);
        return next;
      }
      st := next.value;
      i := i + 1;
    }
    r := Ok(st);
  }

  /** Some of the first k members targets t. */
  predicate Targets(ps: seq<Result<(string, string)>>, t: string, k: nat)
    requires k <= |ps|
  {
    exists i :: 0 <= i < k && ps[i].Ok? && ps[i].value.0 == t
  }

  /** Every one of the first k members that targets t has its input distribution. */
  predicate InputsPresent(ps: seq<Result<(string, string)>>, pdfs: map<string, seq<real>>, t: string, k: nat)
    requires k <= |ps|
  {
    forall i :: 0 <= i < k && ps[i].Ok? && ps[i].value.0 == t ==> ps[i].value.1 in pdfs
  }

  /** The first of the first k members that targets t has its input distribution. */
  predicate FirstPresent(ps: seq<Result<(string, string)>>, pdfs: map<string, seq<real>>, t: string, k: nat)
    requires k <= |ps|
  {
    exists i :: 0 <= i < k && ps[i].Ok? && ps[i].value.0 == t && ps[i].value.1 in pdfs
      && !Targets(ps, t, i)
  }

  /**
   * The sum, over the first k members that target t and whose input is
   * given, of their value (or, with `useError`, error) applied to that input.
   */
  function TargetSum(vals: seq<Member>, ps: seq<Result<(string, string)>>, pdfs: map<string, seq<real>>,
                     t: string, k: nat, n: nat, useError: bool): (r: seq<real>)
    requires AllOnGrid(vals, n) && |ps| == |vals| && k <= |vals|
    ensures |r| == n
  {
    if k == 0 then ZeroVec(n)
    else
      var prev := TargetSum(vals, ps, pdfs, t, k - 1, n, useError);
      var p := ps[k - 1];
      if p.Ok? && p.value.0 == t && p.value.1 in pdfs && |pdfs[p.value.1]| == n then
        var (out, err) := ApplyMember(vals[k - 1], pdfs[p.value.1]);
        VecAdd(prev, if useError then err else out)
      else prev
  }

  /** A target nobody has aimed at yet has sum zero. */
  lemma {:induction false} UntargetedSumIsZero(vals: seq<Member>, ps: seq<Result<(string, string)>>, pdfs: map<string, seq<real>>,
                                               t: string, k: nat, n: nat, useError: bool)
    requires AllOnGrid(vals, n) && |ps| == |vals| && k <= |vals|
    requires !Targets(ps, t, k)
    ensures TargetSum(vals, ps, pdfs, t, k, n, useError) == ZeroVec(n)
  {
    if k > 0 {
      assert !Targets(ps, t, k - 1);
      UntargetedSumIsZero(vals, ps, pdfs, t, k - 1, n, useError);
    }
  }

  /** What the running state of `apply_pdf` holds about target t after k members. */
  ghost predicate TargetMeans(st: ApplyState, vals: seq<Member>, ps: seq<Result<(string, string)>>,
                              pdfs: map<string, seq<real>>, n: nat, k: nat, t: string)
    requires AllOnGrid(vals, n) && |ps| == |vals| && k <= |vals|
  {
    && (t in st.outs <==> Targets(ps, t, k))
    && (t in st.errs <==> FirstPresent(ps, pdfs, t, k))
    && (t in st.outs ==> (st.outs[t].Some? <==> InputsPresent(ps, pdfs, t, k)))
    && (t in st.outs && st.outs[t].Some? ==>
          t in st.errs
          && st.outs[t].value == TargetSum(vals, ps, pdfs, t, k, n, false)
          && st.errs[t] == TargetSum(vals, ps, pdfs, t, k, n, true))
  }

  /** What the running state of `apply_pdf` holds after k members. */
  ghost predicate StateMeans(st: ApplyState, vals: seq<Member>, ps: seq<Result<(string, string)>>,
                             pdfs: map<string, seq<real>>, n: nat, k: nat)
    requires AllOnGrid(vals, n) && |ps| == |vals| && k <= |vals|
  {
    && (forall i :: 0 <= i < k ==> ps[i].Ok?)
    && (forall t :: TargetMeans(st, vals, ps, pdfs, n, k, t))
  }

  /** A member aimed elsewhere changes nothing about target t. */
  lemma OtherTarget(vals: seq<Member>, ps: seq<Result<(string, string)>>, pdfs: map<string, seq<real>>, n: nat, k: nat, t: string)
    requires AllOnGrid(vals, n) && |ps| == |vals| && 0 < k <= |vals|
    requires ps[k - 1].Ok? && ps[k - 1].value.0 != t
    ensures Targets(ps, t, k) == Targets(ps, t, k - 1)
    ensures InputsPresent(ps, pdfs, t, k) == InputsPresent(ps, pdfs, t, k - 1)
    ensures FirstPresent(ps, pdfs, t, k) == FirstPresent(ps, pdfs, t, k - 1)
    ensures TargetSum(vals, ps, pdfs, t, k, n, false) == TargetSum(vals, ps, pdfs, t, k - 1, n, false)
    ensures TargetSum(vals, ps, pdfs, t, k, n, true) == TargetSum(vals, ps, pdfs, t, k - 1, n, true)
  {
  }

  /** The first member aimed at its target starts that target. */
  lemma NewTarget(prev: ApplyState, st: ApplyState, vals: seq<Member>, ps: seq<Result<(string, string)>>,
                  pdfs: map<string, seq<real>>, n: nat, k: nat)
    requires AllOnGrid(vals, n) && |ps| == |vals| && 0 < k <= |vals|
    requires StateOk(prev, n) && ps[k - 1].Ok?
    requires TargetMeans(prev, vals, ps, pdfs, n, k - 1, ps[k - 1].value.0)
    requires ps[k - 1].value.0 !in prev.outs
    requires ApplyStep(prev, vals[k - 1], ps[k - 1], pdfs, n) == Ok(st)
    ensures TargetMeans(st, vals, ps, pdfs, n, k, ps[k - 1].value.0)
  {
    var tg := ps[k - 1].value.0;
    var inp := ps[k - 1].value.1;
    assert Targets(ps, tg, k);
    assert !Targets(ps, tg, k - 1);
    assert InputsPresent(ps, pdfs, tg, k) <==> inp in pdfs;
    if inp in pdfs {
      assert FirstPresent(ps, pdfs, tg, k);
      UntargetedSumIsZero(vals, ps, pdfs, tg, k - 1, n, false);
      UntargetedSumIsZero(vals, ps, pdfs, tg, k - 1, n, true);
      ZeroVecAdd(st.outs[tg].value);
      ZeroVecAdd(st.errs[tg]);
    } else {
      assert !FirstPresent(ps, pdfs, tg, k);
    }
  }

  /** A later member aimed at a target blocks it, leaves it blocked, or adds to it. */
  lemma SeenTarget(prev: ApplyState, st: ApplyState, vals: seq<Member>, ps: seq<Result<(string, string)>>,
                   pdfs: map<string, seq<real>>, n: nat, k: nat)
    requires AllOnGrid(vals, n) && |ps| == |vals| && 0 < k <= |vals|
    requires StateOk(prev, n) && ps[k - 1].Ok?
    requires TargetMeans(prev, vals, ps, pdfs, n, k - 1, ps[k - 1].value.0)
    requires ps[k - 1].value.0 in prev.outs
    requires ApplyStep(prev, vals[k - 1], ps[k - 1], pdfs, n) == Ok(st)
    ensures TargetMeans(st, vals, ps, pdfs, n, k, ps[k - 1].value.0)
  {
    var tg := ps[k - 1].value.0;
    var inp := ps[k - 1].value.1;
    assert Targets(ps, tg, k);
    assert Targets(ps, tg, k - 1);
    assert FirstPresent(ps, pdfs, tg, k) == FirstPresent(ps, pdfs, tg, k - 1);
    assert inp !in pdfs ==> !InputsPresent(ps, pdfs, tg, k);
    assert InputsPresent(ps, pdfs, tg, k) == (InputsPresent(ps, pdfs, tg, k - 1) && inp in pdfs);
  }

  /** One step of `apply_pdf` keeps the meaning of its state. */
  lemma StepMeans(prev: ApplyState, st: ApplyState, vals: seq<Member>, ps: seq<Result<(string, string)>>,
                  pdfs: map<string, seq<real>>, n: nat, k: nat)
    requires AllOnGrid(vals, n) && |ps| == |vals| && 0 < k <= |vals|
    requires StateOk(prev, n) && StateMeans(prev, vals, ps, pdfs, n, k - 1)
    requires ApplyStep(prev, vals[k - 1], ps[k - 1], pdfs, n) == Ok(st)
    ensures StateMeans(st, vals, ps, pdfs, n, k)
  {
    var tg := ps[k - 1].value.0;
    forall t
      ensures TargetMeans(st, vals, ps, pdfs, n, k, t)
    {
      assert TargetMeans(prev, vals, ps, pdfs, n, k - 1, t);
      if t != tg {
        OtherTarget(vals, ps, pdfs, n, k, t);
      } else if tg in prev.outs {
        SeenTarget(prev, st, vals, ps, pdfs, n, k);
      } else {
        NewTarget(prev, st, vals, ps, pdfs, n, k);
      }
    }
  }

  /** The running state of `apply_pdf` after k members means what `StateMeans` says. */
  lemma {:induction false} PrefixMeans(vals: seq<Member>, ps: seq<Result<(string, string)>>,
                                       pdfs: map<string, seq<real>>, n: nat, k: nat)
    requires AllOnGrid(vals, n) && |ps| == |vals| && k <= |vals|
    requires ApplyPrefix(vals, ps, pdfs, n, k).Ok?
    ensures StateMeans(ApplyPrefix(vals, ps, pdfs, n, k).value, vals, ps, pdfs, n, k)
  {
    if k > 0 {
      var prev := ApplyPrefix(vals, ps, pdfs, n, k - 1);
      PrefixMeans(vals, ps, pdfs, n, k - 1);
      StepMeans(prev.value, ApplyPrefix(vals, ps, pdfs, n, k).value, vals, ps, pdfs, n, k);
    }
  }

  /**
   * What `apply_pdf` returns: a target is evolved exactly when some member
   * aims at it and every member aiming at it has its input, and then its
   * value and error are the sums of those members' contributions. The
   * errors also keep every target whose first member had its input, even
   * one that a later member blocked.
   */
  lemma ApplyPdfMeaning(vals: seq<Member>, ps: seq<Result<(string, string)>>, pdfs: map<string, seq<real>>, n: nat,
                        outs: map<string, seq<real>>, errs: map<string, seq<real>>)
    requires AllOnGrid(vals, n) && |ps| == |vals|
    requires ApplySplit(vals, ps, pdfs, n) == Ok((outs, errs))
    ensures forall t :: t in outs <==> Targets(ps, t, |vals|) && InputsPresent(ps, pdfs, t, |vals|)
    ensures forall t :: t in outs ==>
              outs[t] == TargetSum(vals, ps, pdfs, t, |vals|, n, false)
              && t in errs && errs[t] == TargetSum(vals, ps, pdfs, t, |vals|, n, true)
    ensures forall t :: t in errs <==> FirstPresent(ps, pdfs, t, |vals|)
  {
    PrefixMeans(vals, ps, pdfs, n, |vals|);
    var st := ApplyPrefix(vals, ps, pdfs, n, |vals|).value;
    assert outs == map t | t in st.outs && st.outs[t].Some? :: st.outs[t].value;
    assert errs == st.errs;
    forall t
      ensures t in outs <==> Targets(ps, t, |vals|) && InputsPresent(ps, pdfs, t, |vals|)
      ensures t in outs ==> outs[t] == TargetSum(vals, ps, pdfs, t, |vals|, n, false)
                            && t in errs && errs[t] == TargetSum(vals, ps, pdfs, t, |vals|, n, true)
      ensures t in errs <==> FirstPresent(ps, pdfs, t, |vals|)
    {
      assert TargetMeans(st, vals, ps, pdfs, n, |vals|, t);
    }
  }
}
