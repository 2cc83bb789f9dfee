/**
 * Exact linear algebra over the reals: 2x2 matrices for the singlet sector
 * and rectangular matrices as sequences of rows.
 */
module LinAlg {

  /** A 2x2 matrix [[a, b], [c, d]]. */
  datatype M2 = M2(a: real, b: real, c: real, d: real)
  {
    function Add(o: M2): M2 { M2(a + o.a, b + o.b, c + o.c, d + o.d) }
    function Sub(o: M2): M2 { M2(a - o.a, b - o.b, c - o.c, d - o.d) }
    function Scale(k: real): M2 { M2(k * a, k * b, k * c, k * d) }
    function Mul(o: M2): M2
    {
      M2(a * o.a + b * o.c, a * o.b + b * o.d, c * o.a + d * o.c, c * o.b + d * o.d)
    }
    function Trace(): real { a + d }
    function Det(): real { a * d - b * c }
  }

  const Id2: M2 := M2(1.0, 0.0, 0.0, 1.0)
  const Zero2: M2 := M2(0.0, 0.0, 0.0, 0.0)

  /** Multiplication distributes over addition on the right factor. */
  lemma MulDistributes(x: M2, y: M2, z: M2)
    ensures x.Mul(y.Add(z)) == x.Mul(y).Add(x.Mul(z))
  {
  }

  /** The identity is a right unit. */
  lemma MulIdentity(x: M2)
    ensures x.Mul(Id2) == x
  {
  }

  /** Scalars pull out of a product: (s p)(t q) = (s t)(p q). */
  lemma MulScaled(p: M2, q: M2, s: real, t: real)
    ensures p.Scale(s).Mul(q.Scale(t)) == p.Mul(q).Scale(s * t)
  {
    ScaledA(p, q, s, t);
    ScaledB(p, q, s, t);
    ScaledC(p, q, s, t);
    ScaledD(p, q, s, t);
  }

  lemma ScaledA(p: M2, q: M2, s: real, t: real)
    ensures p.Scale(s).Mul(q.Scale(t)).a == p.Mul(q).Scale(s * t).a
  {
    var ps, qt, pq := p.Scale(s), q.Scale(t), p.Mul(q);
    ScaledTerm(p.a, q.a, p.b, q.c, s, t, ps.a, qt.a, ps.b, qt.c, pq.a);
  }

  lemma ScaledB(p: M2, q: M2, s: real, t: real)
    ensures p.Scale(s).Mul(q.Scale(t)).b == p.Mul(q).Scale(s * t).b
  {
    var ps, qt, pq := p.Scale(s), q.Scale(t), p.Mul(q);
    ScaledTerm(p.a, q.b, p.b, q.d, s, t, ps.a, qt.b, ps.b, qt.d, pq.b);
  }

  lemma ScaledC(p: M2, q: M2, s: real, t: real)
    ensures p.Scale(s).Mul(q.Scale(t)).c == p.Mul(q).Scale(s * t).c
  {
    var ps, qt, pq := p.Scale(s), q.Scale(t), p.Mul(q);
    ScaledTerm(p.c, q.a, p.d, q.c, s, t, ps.c, qt.a, ps.d, qt.c, pq.c);
  }

  lemma ScaledD(p: M2, q: M2, s: real, t: real)
    ensures p.Scale(s).Mul(q.Scale(t)).d == p.Mul(q).Scale(s * t).d
  {
    var ps, qt, pq := p.Scale(s), q.Scale(t), p.Mul(q);
    ScaledTerm(p.c, q.b, p.d, q.d, s, t, ps.c, qt.b, ps.d, qt.d, pq.d);
  }

  /**
   * One entry of a scaled product. The scaled factors and the unscaled entry
   * are passed as names of their own, so that callers reason linearly.
   */
  lemma ScaledTerm(u: real, v: real, w: real, x: real, s: real, t: real,
                   su: real, tv: real, sw: real, tx: real, e: real)
    requires su == s * u && tv == t * v && sw == s * w && tx == t * x
    requires e == u * v + w * x
    ensures su * tv + sw * tx == (s * t) * e
  {
  }

  /** Matrix multiplication is associative. */
  lemma MulAssoc(x: M2, y: M2, z: M2)
    ensures x.Mul(y).Mul(z) == x.Mul(y.Mul(z))
  {
    AssocA(x, y, z);
    AssocB(x, y, z);
    AssocC(x, y, z);
    AssocD(x, y, z);
  }

  lemma AssocA(x: M2, y: M2, z: M2)
    ensures x.Mul(y).Mul(z).a == x.Mul(y.Mul(z)).a
  {
    var xy, yz := x.Mul(y), y.Mul(z);
    AssocEntry(x.a, x.b, y.a, y.b, y.c, y.d, z.a, z.c, xy.a, xy.b, yz.a, yz.c);
  }

  lemma AssocB(x: M2, y: M2, z: M2)
    ensures x.Mul(y).Mul(z).b == x.Mul(y.Mul(z)).b
  {
    var xy, yz := x.Mul(y), y.Mul(z);
    AssocEntry(x.a, x.b, y.a, y.b, y.c, y.d, z.b, z.d, xy.a, xy.b, yz.b, yz.d);
  }

  lemma AssocC(x: M2, y: M2, z: M2)
    ensures x.Mul(y).Mul(z).c == x.Mul(y.Mul(z)).c
  {
    var xy, yz := x.Mul(y), y.Mul(z);
    AssocEntry(x.c, x.d, y.a, y.b, y.c, y.d, z.a, z.c, xy.c, xy.d, yz.a, yz.c);
  }

  lemma AssocD(x: M2, y: M2, z: M2)
    ensures x.Mul(y).Mul(z).d == x.Mul(y.Mul(z)).d
  {
    var xy, yz := x.Mul(y), y.Mul(z);
    AssocEntry(x.c, x.d, y.a, y.b, y.c, y.d, z.b, z.d, xy.c, xy.d, yz.b, yz.d);
  }

  /**
   * One entry of a triple product, bracketed either way; the inner products
   * are passed as names of their own, so that callers reason linearly.
   */
  lemma AssocEntry(p: real, q: real, ya: real, yb: real, yc: real, yd: real, u: real, v: real,
                   l1: real, l2: real, r1: real, r2: real)
    requires l1 == p * ya + q * yc && l2 == p * yb + q * yd
    requires r1 == ya * u + yb * v && r2 == yc * u + yd * v
    ensures l1 * u + l2 * v == p * r1 + q * r2
  {
  }

  /** The identity is a left unit. */
  lemma IdentityMul(x: M2)
    ensures Id2.Mul(x) == x
  {
  }

  /** Scaling twice is scaling by the product. */
  lemma ScaleScale(x: M2, s: real, t: real)
    ensures x.Scale(s).Scale(t) == x.Scale(t * s)
  {
    assert t * (s * x.a) == (t * s) * x.a;
    assert t * (s * x.b) == (t * s) * x.b;
    assert t * (s * x.c) == (t * s) * x.c;
    assert t * (s * x.d) == (t * s) * x.d;
  }

  /** A matrix as a sequence of rows. */
  type Matrix = seq<seq<real>>

  predicate IsMatrix(m: Matrix, rows: nat, cols: nat)
  {
    |m| == rows && forall i :: 0 <= i < rows ==> |m[i]| == cols
  }

  /** The rows x cols matrix of zeros. */
  function Zeros(rows: nat, cols: nat): (m: Matrix)
    ensures IsMatrix(m, rows, cols)
    ensures forall i, j :: 0 <= i < rows && 0 <= j < cols ==> m[i][j] == 0.0
  {
    seq(rows, i => seq(cols, j => 0.0))
  }

  /** The n x n identity. */
  function Identity(n: nat): (m: Matrix)
    ensures IsMatrix(m, n, n)
    ensures forall i, j :: 0 <= i < n && 0 <= j < n ==> m[i][j] == if i == j then 1.0 else 0.0
  {
    seq(n, i => seq(n, j => if i == j then 1.0 else 0.0))
  }

  /** Sum of `f(k)` over 0 <= k < n. */
  function Sum(n: nat, f: nat -> real): real
  {
    if n == 0 then 0.0 else Sum(n - 1, f) + f(n - 1)
  }

  /** Sums over the same range of two pointwise equal summands agree. */
  lemma {:induction false} SumExt(n: nat, f: nat -> real, g: nat -> real)
    requires forall k :: 0 <= k < n ==> f(k) == g(k)
    ensures Sum(n, f) == Sum(n, g)
  {
    if n > 0 {
      SumExt(n - 1, f, g);
    }
  }

  /** A sum whose summands all vanish except at `j` is the summand at `j`. */
  lemma {:induction false} SumSingle(n: nat, f: nat -> real, j: nat)
    requires j < n
    requires forall k :: 0 <= k < n && k != j ==> f(k) == 0.0
    ensures Sum(n, f) == f(j)
  {
    if n - 1 == j {
      SumZero(n - 1, f);
    } else {
      SumSingle(n - 1, f, j);
    }
  }

  /** A sum of zeros is zero. */
  lemma {:induction false} SumZero(n: nat, f: nat -> real)
    requires forall k :: 0 <= k < n ==> f(k) == 0.0
    ensures Sum(n, f) == 0.0
  {
    if n > 0 {
      SumZero(n - 1, f);
    }
  }

  /** The term x[i][k] y[k][j] of a matrix product, zero outside the shapes. */
  function Term(x: Matrix, y: Matrix, i: int, j: int, k: int): real
  {
    if 0 <= i < |x| && 0 <= k < |x[i]| && k < |y| && 0 <= j < |y[k]| then x[i][k] * y[k][j] else 0.0
  }

  /** The product of an r x n and an n x c matrix. */
  function MatMul(x: Matrix, y: Matrix, r: nat, n: nat, c: nat): (z: Matrix)
    requires IsMatrix(x, r, n) && IsMatrix(y, n, c)
    ensures IsMatrix(z, r, c)
    ensures forall i, j :: 0 <= i < r && 0 <= j < c ==> z[i][j] == Sum(n, k => Term(x, y, i, j, k))
  {
    seq(r, i => seq(c, j => Sum(n, k => Term(x, y, i, j, k))))
  }

  /** Multiplying by the identity on the left gives the matrix back. */
  lemma IdentityLeft(y: Matrix, n: nat, c: nat)
    requires IsMatrix(y, n, c)
    ensures MatMul(Identity(n), y, n, n, c) == y
  {
    var z := MatMul(Identity(n), y, n, n, c);
    forall i, j | 0 <= i < n && 0 <= j < c ensures z[i][j] == y[i][j] {
      var f := k => Term(Identity(n), y, i, j, k);
      SumSingle(n, f, i);
    }
    assert forall i :: 0 <= i < n ==> z[i] == y[i];
  }

  /** A rows x cols table with every entry `zero`. */
  function Table<T>(rows: nat, cols: nat, zero: T): (t: seq<seq<T>>)
    ensures |t| == rows && forall i :: 0 <= i < rows ==> |t[i]| == cols
    ensures forall i, j :: 0 <= i < rows && 0 <= j < cols ==> t[i][j] == zero
  {
    seq(rows, i => seq(cols, j => zero))
  }

  /** The table `t` with entry (i, j) replaced by `v`, as `t[i, j] = v` writes it. */
  function SetEntry<T>(t: seq<seq<T>>, i: nat, j: nat, v: T): (u: seq<seq<T>>)
    requires i < |t| && j < |t[i]|
    ensures |u| == |t| && forall a :: 0 <= a < |t| ==> |u[a]| == |t[a]|
    ensures forall a, b :: 0 <= a < |t| && 0 <= b < |t[a]| ==> u[a][b] == if a == i && b == j then v else t[a][b]
  {
    t[i := t[i][j := v]]
  }

  /** Entrywise sum of two matrices of the same shape. */
  function MatAdd(x: Matrix, y: Matrix): (z: Matrix)
    requires |x| == |y| && forall i :: 0 <= i < |x| ==> |x[i]| == |y[i]|
    ensures |z| == |x| && forall i :: 0 <= i < |x| ==> |z[i]| == |x[i]|
    ensures forall i, j :: 0 <= i < |x| && 0 <= j < |x[i]| ==> z[i][j] == x[i][j] + y[i][j]
  {
    seq(|x|, i requires 0 <= i < |x| => seq(|x[i]|, j requires 0 <= j < |x[i]| => x[i][j] + y[i][j]))
  }

  /** A matrix times a number. */
  function MatScale(c: real, x: Matrix): (z: Matrix)
    ensures |z| == |x| && forall i :: 0 <= i < |x| ==> |z[i]| == |x[i]|
    ensures forall i, j :: 0 <= i < |x| && 0 <= j < |x[i]| ==> z[i][j] == c * x[i][j]
  {
    seq(|x|, i requires 0 <= i < |x| => seq(|x[i]|, j requires 0 <= j < |x[i]| => c * x[i][j]))
  }

  function AbsR(v: real): real { if v < 0.0 then -v else v }

  /** numpy's `isclose(a, b)`: a lies within atol + rtol |b| of b. */
  predicate IsClose(a: real, b: real, rtol: real, atol: real)
  {
    AbsR(a - b) <= atol + rtol * AbsR(b)
  }

  /** Entrywise absolute value, numpy's `np.abs`. */
  function MatAbs(x: Matrix): (z: Matrix)
    ensures |z| == |x| && forall i :: 0 <= i < |x| ==> |z[i]| == |x[i]|
    ensures forall i, j :: 0 <= i < |x| && 0 <= j < |x[i]| ==> z[i][j] == AbsR(x[i][j]) && z[i][j] >= 0.0
  {
    seq(|x|, i requires 0 <= i < |x| => seq(|x[i]|, j requires 0 <= j < |x[i]| => AbsR(x[i][j])))
  }

  /** Every entry is non-negative. */
  predicate NonNegative(x: Matrix)
  {
    forall i, j :: 0 <= i < |x| && 0 <= j < |x[i]| ==> x[i][j] >= 0.0
  }

  /** Multiplying on the right by c times the identity scales by c. */
  lemma MulScaledIdentity(x: Matrix, n: nat, c: real)
    requires IsMatrix(x, n, n)
    ensures IsMatrix(MatScale(c, Identity(n)), n, n)
    ensures MatMul(x, MatScale(c, Identity(n)), n, n, n) == MatScale(c, x)
  {
    var ci := MatScale(c, Identity(n));
    var z := MatMul(x, ci, n, n, n);
    forall i, j | 0 <= i < n && 0 <= j < n ensures z[i][j] == c * x[i][j] {
      ScaledIdentityEntry(x, n, c, i, j);
    }
    assert forall i :: 0 <= i < n ==> z[i] == MatScale(c, x)[i];
  }

  /** One entry of x (c I): only the diagonal term of the sum survives. */
  lemma ScaledIdentityEntry(x: Matrix, n: nat, c: real, i: nat, j: nat)
    requires IsMatrix(x, n, n) && i < n && j < n
    ensures Sum(n, k => Term(x, MatScale(c, Identity(n)), i, j, k)) == c * x[i][j]
  {
    var ci := MatScale(c, Identity(n));
    assert IsMatrix(ci, n, n);
    var f := k => Term(x, ci, i, j, k);
    forall k | 0 <= k < n && k != j ensures f(k) == 0.0 {
      assert Identity(n)[k][j] == 0.0;
      TermZero(x, ci, i, j, k);
    }
    SumSingle(n, f, j);
    assert Identity(n)[j][j] == 1.0;
    assert ci[j][j] == c;
    assert f(j) == x[i][j] * c;
  }

  /** A zero entry of the right factor contributes nothing. */
  lemma TermZero(x: Matrix, y: Matrix, i: int, j: int, k: int)
    requires 0 <= k < |y| && 0 <= j < |y[k]| && y[k][j] == 0.0
    ensures Term(x, y, i, j, k) == 0.0
  {
  }

  /** Multiplying by the zero matrix gives zeros. */
  lemma MulZeros(x: Matrix, n: nat)
    requires IsMatrix(x, n, n)
    ensures MatMul(x, Zeros(n, n), n, n, n) == Zeros(n, n)
  {
    var z := MatMul(x, Zeros(n, n), n, n, n);
    forall i, j | 0 <= i < n && 0 <= j < n ensures z[i][j] == 0.0 {
      SumZero(n, k => Term(x, Zeros(n, n), i, j, k));
    }
    assert forall i :: 0 <= i < n ==> z[i] == Zeros(n, n)[i];
  }

  /** The zero matrix times anything gives zeros. */
  lemma ZerosMul(y: Matrix, n: nat)
    requires IsMatrix(y, n, n)
    ensures MatMul(Zeros(n, n), y, n, n, n) == Zeros(n, n)
  {
    var z := MatMul(Zeros(n, n), y, n, n, n);
    forall i, j | 0 <= i < n && 0 <= j < n ensures z[i][j] == 0.0 {
      SumZero(n, k => Term(Zeros(n, n), y, i, j, k));
    }
    assert forall i :: 0 <= i < n ==> z[i] == Zeros(n, n)[i];
  }

  /** Multiplying by the identity on the right gives the matrix back. */
  lemma IdentityRight(x: Matrix, n: nat)
    requires IsMatrix(x, n, n)
    ensures MatMul(x, Identity(n), n, n, n) == x
  {
    MulScaledIdentity(x, n, 1.0);
    assert MatScale(1.0, Identity(n)) == Identity(n) by {
      assert forall i :: 0 <= i < n ==> MatScale(1.0, Identity(n))[i] == Identity(n)[i];
    }
    assert forall i :: 0 <= i < n ==> MatScale(1.0, x)[i] == x[i];
  }

  /** Adding zeros changes nothing. */
  lemma AddZeros(x: Matrix, n: nat, m: nat)
    requires IsMatrix(x, n, m)
    ensures MatAdd(x, Zeros(n, m)) == x
  {
    assert forall i :: 0 <= i < n ==> MatAdd(x, Zeros(n, m))[i] == x[i];
  }

  /** The term x[i][k] v[k] of a matrix-vector product, zero outside the shapes. */
  function VecTerm(x: Matrix, v: seq<real>, i: int, k: int): real
  {
    if 0 <= i < |x| && 0 <= k < |x[i]| && k < |v| then x[i][k] * v[k] else 0.0
  }

  /** Matrix times vector, numpy's `np.dot`. */
  function MatVec(x: Matrix, v: seq<real>): (w: seq<real>)
    ensures |w| == |x|
    ensures forall i :: 0 <= i < |x| ==> w[i] == Sum(|v|, k => VecTerm(x, v, i, k))
  {
    seq(|x|, i => Sum(|v|, k => VecTerm(x, v, i, k)))
  }

  /** Entrywise sum of two vectors of the same length. */
  function VecAdd(v: seq<real>, w: seq<real>): (z: seq<real>)
    requires |v| == |w|
    ensures |z| == |v| && forall i :: 0 <= i < |v| ==> z[i] == v[i] + w[i]
  {
    seq(|v|, i requires 0 <= i < |v| => v[i] + w[i])
  }

  /** The zero vector of length n. */
  function ZeroVec(n: nat): (z: seq<real>)
    ensures |z| == n && forall i :: 0 <= i < n ==> z[i] == 0.0
  {
    seq(n, i => 0.0)
  }

  /** Adding to the zero vector changes nothing. */
  lemma ZeroVecAdd(v: seq<real>)
    ensures VecAdd(ZeroVec(|v|), v) == v
  {
    assert forall i :: 0 <= i < |v| ==> VecAdd(ZeroVec(|v|), v)[i] == v[i];
  }
}
