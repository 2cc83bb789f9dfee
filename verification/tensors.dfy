/**
 * Four-index operator tensors ops[a][j][b][k] -- output flavour a, output
 * x j, input flavour b, input x k -- and the index contractions with a
 * matrix on each of the four indices that the reshaping operations use
 * (numpy's `einsum`).
 */
module Tensors {
  import opened LinAlg

  type Tensor = seq<seq<seq<seq<real>>>>

  /** t has the shape na x nj x nb x nk. */
  predicate IsTensor(t: Tensor, na: nat, nj: nat, nb: nat, nk: nat)
  {
    |t| == na && forall a :: 0 <= a < na ==> IsCube(t[a], nj, nb, nk)
  }

  /** c has the shape nj x nb x nk. */
  predicate IsCube(c: seq<seq<seq<real>>>, nj: nat, nb: nat, nk: nat)
  {
    && |c| == nj
    && (forall j :: 0 <= j < nj ==> |c[j]| == nb)
    && (forall j, b :: 0 <= j < nj && 0 <= b < nb ==> |c[j][b]| == nk)
  }

  /** The entry t[a][j][b][k], zero outside the shape. */
  function Get(t: Tensor, a: int, j: int, b: int, k: int): real
  {
    if 0 <= a < |t| && 0 <= j < |t[a]| && 0 <= b < |t[a][j]| && 0 <= k < |t[a][j][b]| then t[a][j][b][k] else 0.0
  }

  /** The entry m[i][j], zero outside the shape. */
  function Entry(m: Matrix, i: int, j: int): real
  {
    if 0 <= i < |m| && 0 <= j < |m[i]| then m[i][j] else 0.0
  }

  /** The na x nj x nb x nk tensor with entries f. */
  function Build(na: nat, nj: nat, nb: nat, nk: nat, f: (int, int, int, int) -> real): (t: Tensor)
    ensures IsTensor(t, na, nj, nb, nk)
  {
    var t := seq(na, a => Cube(nj, nb, nk, (j, b, k) => f(a, j, b, k)));
    assert forall a :: 0 <= a < na ==> IsCube(t[a], nj, nb, nk);
    t
  }

  /** The nj x nb x nk block with entries f. */
  function Cube(nj: nat, nb: nat, nk: nat, f: (int, int, int) -> real): (c: seq<seq<seq<real>>>)
    ensures IsCube(c, nj, nb, nk)
  {
    seq(nj, j => Plane(nb, nk, (b, k) => f(j, b, k)))
  }

  /** The nb x nk matrix with entries f. */
  function Plane(nb: nat, nk: nat, f: (int, int) -> real): (p: Matrix)
    ensures IsMatrix(p, nb, nk)
  {
    seq(nb, b => seq(nk, k => f(b, k)))
  }

  /** The entry [a][j][b][k] of `Build` is f there. */
  lemma BuildAt(na: nat, nj: nat, nb: nat, nk: nat, f: (int, int, int, int) -> real, a: nat, j: nat, b: nat, k: nat)
    requires a < na && j < nj && b < nb && k < nk
    ensures Build(na, nj, nb, nk, f)[a][j][b][k] == f(a, j, b, k)
  {
  }

  /** einsum("ij,ajbk->aibk"): an ni x nj matrix on the output x index. */
  function OnTargetGrid(r: Matrix, t: Tensor, na: nat, nj: nat, nb: nat, nk: nat, ni: nat): (u: Tensor)
    ensures IsTensor(u, na, ni, nb, nk)
  {
    Build(na, ni, nb, nk, (a, i, b, k) => TargetGridAt(r, t, nj, a, i, b, k))
  }

  /** The entry [a][i][b][k] of `OnTargetGrid`. */
  function TargetGridAt(r: Matrix, t: Tensor, nj: nat, a: int, i: int, b: int, k: int): real
  {
    Sum(nj, j => Entry(r, i, j) * Get(t, a, j, b, k))
  }

  /** einsum("ajbk,kl->ajbl"): an nk x nl matrix on the input x index. */
  function OnInputGrid(t: Tensor, s: Matrix, na: nat, nj: nat, nb: nat, nk: nat, nl: nat): (u: Tensor)
    ensures IsTensor(u, na, nj, nb, nl)
  {
    Build(na, nj, nb, nl, (a, j, b, l) => InputGridAt(t, s, nk, a, j, b, l))
  }

  /** The entry [a][j][b][l] of `OnInputGrid`. */
  function InputGridAt(t: Tensor, s: Matrix, nk: nat, a: int, j: int, b: int, l: int): real
  {
    Sum(nk, k => Get(t, a, j, b, k) * Entry(s, k, l))
  }

  /** einsum("ij,ajbk,kl->aibl"): both x indices at once. */
  function OnBothGrids(r: Matrix, t: Tensor, s: Matrix, na: nat, nj: nat, nb: nat, nk: nat, ni: nat, nl: nat)
    : (u: Tensor)
    ensures IsTensor(u, na, ni, nb, nl)
  {
    Build(na, ni, nb, nl, (a, i, b, l) => BothGridsAt(r, t, s, nj, nk, a, i, b, l))
  }

  /** The entry [a][i][b][l] of `OnBothGrids`. */
  function BothGridsAt(r: Matrix, t: Tensor, s: Matrix, nj: nat, nk: nat, a: int, i: int, b: int, l: int): real
  {
    DoubleSum(nj, nk, (j: nat, k: nat) => Entry(r, i, j) * Get(t, a, j, b, k) * Entry(s, k, l))
  }

  /** einsum("ca,ajbk->cjbk"): an nc x na matrix on the output flavour index. */
  function OnTargetFlavor(m: Matrix, t: Tensor, na: nat, nj: nat, nb: nat, nk: nat, nc: nat): (u: Tensor)
    ensures IsTensor(u, nc, nj, nb, nk)
  {
    Build(nc, nj, nb, nk, (c, j, b, k) => TargetFlavorAt(m, t, na, c, j, b, k))
  }

  /** The entry [c][j][b][k] of `OnTargetFlavor`. */
  function TargetFlavorAt(m: Matrix, t: Tensor, na: nat, c: int, j: int, b: int, k: int): real
  {
    Sum(na, a => Entry(m, c, a) * Get(t, a, j, b, k))
  }

  /** einsum("ajbk,bd->ajdk"): an nb x nd matrix on the input flavour index. */
  function OnInputFlavor(t: Tensor, m: Matrix, na: nat, nj: nat, nb: nat, nk: nat, nd: nat): (u: Tensor)
    ensures IsTensor(u, na, nj, nd, nk)
  {
    Build(na, nj, nd, nk, (a, j, d, k) => InputFlavorAt(t, m, nb, a, j, d, k))
  }

  /** The entry [a][j][d][k] of `OnInputFlavor`. */
  function InputFlavorAt(t: Tensor, m: Matrix, nb: nat, a: int, j: int, d: int, k: int): real
  {
    Sum(nb, b => Get(t, a, j, b, k) * Entry(m, b, d))
  }

  /** einsum("ca,ajbk,bd->cjdk"): both flavour indices at once. */
  function OnBothFlavors(mt: Matrix, t: Tensor, mi: Matrix, na: nat, nj: nat, nb: nat, nk: nat, nc: nat, nd: nat)
    : (u: Tensor)
    ensures IsTensor(u, nc, nj, nd, nk)
  {
    Build(nc, nj, nd, nk, (c, j, d, k) => BothFlavorsAt(mt, t, mi, na, nb, c, j, d, k))
  }

  /** The entry [c][j][d][k] of `OnBothFlavors`. */
  function BothFlavorsAt(mt: Matrix, t: Tensor, mi: Matrix, na: nat, nb: nat, c: int, j: int, d: int, k: int): real
  {
    DoubleSum(na, nb, (a: nat, b: nat) => Entry(mt, c, a) * Get(t, a, j, b, k) * Entry(mi, b, d))
  }

  /** The sum of f(j, k) over j < n and k < m, the inner sum over k. */
  function DoubleSum(n: nat, m: nat, f: (nat, nat) -> real): real
  {
    Sum(n, (j: nat) => Sum(m, (k: nat) => f(j, k)))
  }

  // ---------------------------------------------------------------- lemmas

  /**
   * An entry of `OnTargetGrid`: unfolds the einsum one level, for callers
   * that reason entrywise. What the rotation means is stated by the
   * identity and composition lemmas below.
   */
  lemma TargetGridEntry(r: Matrix, t: Tensor, na: nat, nj: nat, nb: nat, nk: nat, ni: nat, a: nat, i: nat, b: nat, k: nat)
    requires a < na && i < ni && b < nb && k < nk
    ensures OnTargetGrid(r, t, na, nj, nb, nk, ni)[a][i][b][k] == TargetGridAt(r, t, nj, a, i, b, k)
  {
    BuildAt(na, ni, nb, nk, (a, i, b, k) => TargetGridAt(r, t, nj, a, i, b, k), a, i, b, k);
  }

  /**
   * An entry of `OnInputGrid`: unfolds the einsum one level, for callers
   * that reason entrywise. What the rotation means is stated by the
   * identity and composition lemmas below.
   */
  lemma InputGridEntry(t: Tensor, s: Matrix, na: nat, nj: nat, nb: nat, nk: nat, nl: nat, a: nat, j: nat, b: nat, l: nat)
    requires a < na && j < nj && b < nb && l < nl
    ensures OnInputGrid(t, s, na, nj, nb, nk, nl)[a][j][b][l] == InputGridAt(t, s, nk, a, j, b, l)
  {
    BuildAt(na, nj, nb, nl, (a, j, b, l) => InputGridAt(t, s, nk, a, j, b, l), a, j, b, l);
  }

  /**
   * An entry of `OnBothGrids`: unfolds the einsum one level, for callers
   * that reason entrywise. What the rotation means is stated by the
   * identity and composition lemmas below.
   */
  lemma BothGridsEntry(r: Matrix, t: Tensor, s: Matrix, na: nat, nj: nat, nb: nat, nk: nat, ni: nat, nl: nat,
                       a: nat, i: nat, b: nat, l: nat)
    requires a < na && i < ni && b < nb && l < nl
    ensures OnBothGrids(r, t, s, na, nj, nb, nk, ni, nl)[a][i][b][l] == BothGridsAt(r, t, s, nj, nk, a, i, b, l)
  {
    BuildAt(na, ni, nb, nl, (a, i, b, l) => BothGridsAt(r, t, s, nj, nk, a, i, b, l), a, i, b, l);
  }

  /**
   * An entry of `OnTargetFlavor`: unfolds the einsum one level, for callers
   * that reason entrywise. What the rotation means is stated by the
   * identity and composition lemmas below.
   */
  lemma TargetFlavorEntry(m: Matrix, t: Tensor, na: nat, nj: nat, nb: nat, nk: nat, nc: nat, c: nat, j: nat, b: nat, k: nat)
    requires c < nc && j < nj && b < nb && k < nk
    ensures OnTargetFlavor(m, t, na, nj, nb, nk, nc)[c][j][b][k] == TargetFlavorAt(m, t, na, c, j, b, k)
  {
    BuildAt(nc, nj, nb, nk, (c, j, b, k) => TargetFlavorAt(m, t, na, c, j, b, k), c, j, b, k);
  }

  /**
   * An entry of `OnInputFlavor`: unfolds the einsum one level, for callers
   * that reason entrywise. What the rotation means is stated by the
   * identity and composition lemmas below.
   */
  lemma InputFlavorEntry(t: Tensor, m: Matrix, na: nat, nj: nat, nb: nat, nk: nat, nd: nat, a: nat, j: nat, d: nat, k: nat)
    requires a < na && j < nj && d < nd && k < nk
    ensures OnInputFlavor(t, m, na, nj, nb, nk, nd)[a][j][d][k] == InputFlavorAt(t, m, nb, a, j, d, k)
  {
    BuildAt(na, nj, nd, nk, (a, j, d, k) => InputFlavorAt(t, m, nb, a, j, d, k), a, j, d, k);
  }

  /**
   * An entry of `OnBothFlavors`: unfolds the einsum one level, for callers
   * that reason entrywise. What the rotation means is stated by the
   * identity and composition lemmas below.
   */
  lemma BothFlavorsEntry(mt: Matrix, t: Tensor, mi: Matrix, na: nat, nj: nat, nb: nat, nk: nat, nc: nat, nd: nat,
                         c: nat, j: nat, d: nat, k: nat)
    requires c < nc && j < nj && d < nd && k < nk
    ensures OnBothFlavors(mt, t, mi, na, nj, nb, nk, nc, nd)[c][j][d][k] == BothFlavorsAt(mt, t, mi, na, nb, c, j, d, k)
  {
    BuildAt(nc, nj, nd, nk, (c, j, d, k) => BothFlavorsAt(mt, t, mi, na, nb, c, j, d, k), c, j, d, k);
  }

  /** Two tensors of one shape with the same entries are equal. */
  lemma TensorExt(t: Tensor, u: Tensor, na: nat, nj: nat, nb: nat, nk: nat)
    requires IsTensor(t, na, nj, nb, nk) && IsTensor(u, na, nj, nb, nk)
    requires forall a, j, b, k :: 0 <= a < na && 0 <= j < nj && 0 <= b < nb && 0 <= k < nk ==>
      t[a][j][b][k] == u[a][j][b][k]
    ensures t == u
  {
    forall a | 0 <= a < na ensures t[a] == u[a] {
      forall j | 0 <= j < nj ensures t[a][j] == u[a][j] {
        forall b | 0 <= b < nb ensures t[a][j][b] == u[a][j][b] {
        }
      }
    }
  }

  /** A constant factor comes out of a sum. */
  lemma {:induction false} SumScaleRight(n: nat, f: nat -> real, c: real, g: nat -> real)
    requires forall k :: 0 <= k < n ==> g(k) == f(k) * c
    ensures Sum(n, g) == Sum(n, f) * c
  {
    if n > 0 {
      SumScaleRight(n - 1, f, c, g);
    }
  }

  /** A constant factor on the left comes out of a sum. */
  lemma SumScaleLeft(n: nat, f: nat -> real, c: real, g: nat -> real)
    requires forall k :: 0 <= k < n ==> g(k) == c * f(k)
    ensures Sum(n, g) == c * Sum(n, f)
  {
    SumScaleRight(n, f, c, g);
  }

  /**
   * A sum over j of weighted sums over k is the weighted sum over k of the
   * sums over j: sum_j sum_k w(k) f(k, j) = sum_k w(k) sum_j f(k, j).
   */
  lemma WeightedSwap(n: nat, m: nat, w: nat -> real, f: (nat, nat) -> real, h: nat -> real, g: nat -> real)
    requires forall j :: 0 <= j < n ==> h(j) == Sum(m, (k: nat) => w(k) * f(k, j))
    requires forall k :: 0 <= k < m ==> g(k) == w(k) * Sum(n, (j: nat) => f(k, j))
    ensures Sum(n, h) == Sum(m, g)
  {
    var cell := (j: nat, k: nat) => w(k) * f(k, j);
    RowsAsCells(n, m, w, f, h, cell);
    SumSwap(n, m, cell);
    ColumnsAsWeights(n, m, w, f, g, cell);
  }

  /** The weighted row sums add up to the double sum of the weighted cells. */
  lemma RowsAsCells(n: nat, m: nat, w: nat -> real, f: (nat, nat) -> real, h: nat -> real, cell: (nat, nat) -> real)
    requires forall j :: 0 <= j < n ==> h(j) == Sum(m, (k: nat) => w(k) * f(k, j))
    requires forall j: nat, k: nat :: cell(j, k) == w(k) * f(k, j)
    ensures Sum(n, h) == DoubleSum(n, m, cell)
  {
    forall j: nat | j < n ensures h(j) == Sum(m, (k: nat) => cell(j, k)) {
      SumExt(m, (k: nat) => w(k) * f(k, j), (k: nat) => cell(j, k));
    }
    SumExt(n, h, (j: nat) => Sum(m, (k: nat) => cell(j, k)));
  }

  /** The column sums of the weighted cells are the weighted column sums. */
  lemma ColumnsAsWeights(n: nat, m: nat, w: nat -> real, f: (nat, nat) -> real, g: nat -> real, cell: (nat, nat) -> real)
    requires forall k :: 0 <= k < m ==> g(k) == w(k) * Sum(n, (j: nat) => f(k, j))
    requires forall j: nat, k: nat :: cell(j, k) == w(k) * f(k, j)
    ensures Sum(m, (k: nat) => Sum(n, (j: nat) => cell(j, k))) == Sum(m, g)
  {
    forall k: nat | k < m ensures Sum(n, (j: nat) => cell(j, k)) == g(k) {
      SumScaleLeft(n, (j: nat) => f(k, j), w(k), (j: nat) => cell(j, k));
    }
    SumExt(m, (k: nat) => Sum(n, (j: nat) => cell(j, k)), g);
  }

  /** Two sums over independent ranges can be exchanged. */
  lemma {:induction false} SumSwap(n: nat, m: nat, f: (nat, nat) -> real)
    ensures DoubleSum(n, m, f) == Sum(m, (k: nat) => Sum(n, (j: nat) => f(j, k)))
  {
    if n > 0 {
      var rows := (j: nat) => Sum(m, (k: nat) => f(j, k));
      SumSwap(n - 1, m, f);
      assert Sum(n, rows) == Sum(n - 1, rows) + rows(n - 1);
      SumSplitLast(n, m, f);
    } else {
      SumZero(m, (k: nat) => Sum(n, (j: nat) => f(j, k)));
    }
  }

  /** Splitting the last outer index off an exchanged double sum. */
  lemma {:induction false} SumSplitLast(n: nat, m: nat, f: (nat, nat) -> real)
    requires n > 0
    ensures Sum(m, (k: nat) => Sum(n, (j: nat) => f(j, k))) == Sum(m, (k: nat) => Sum(n - 1, (j: nat) => f(j, k))) + Sum(m, (k: nat) => f(n - 1, k))
  {
    SumAdd(m, (k: nat) => Sum(n - 1, (j: nat) => f(j, k)), (k: nat) => f(n - 1, k), (k: nat) => Sum(n, (j: nat) => f(j, k)));
  }

  /** The sum of pointwise sums is the sum of the two sums. */
  lemma {:induction false} SumAdd(m: nat, f: nat -> real, g: nat -> real, h: nat -> real)
    requires forall k :: 0 <= k < m ==> h(k) == f(k) + g(k)
    ensures Sum(m, h) == Sum(m, f) + Sum(m, g)
  {
    if m > 0 {
      SumAdd(m - 1, f, g, h);
    }
  }

  /** Rotating with the identity on the output x index changes nothing. */
  lemma TargetGridIdentity(t: Tensor, na: nat, nj: nat, nb: nat, nk: nat)
    requires IsTensor(t, na, nj, nb, nk)
    ensures OnTargetGrid(Identity(nj), t, na, nj, nb, nk, nj) == t
  {
    var u := OnTargetGrid(Identity(nj), t, na, nj, nb, nk, nj);
    forall a, i, b, k | 0 <= a < na && 0 <= i < nj && 0 <= b < nb && 0 <= k < nk
      ensures u[a][i][b][k] == t[a][i][b][k]
    {
      TargetGridEntry(Identity(nj), t, na, nj, nb, nk, nj, a, i, b, k);
      TargetGridIdentityAt(t, nj, a, i, b, k);
    }
    TensorExt(u, t, na, nj, nb, nk);
  }

  /** One entry of `TargetGridIdentity`. */
  lemma TargetGridIdentityAt(t: Tensor, nj: nat, a: int, i: nat, b: int, k: int)
    requires i < nj
    ensures TargetGridAt(Identity(nj), t, nj, a, i, b, k) == Get(t, a, i, b, k)
  {
    RowPicks(nj, i, j => Entry(Identity(nj), i, j) * Get(t, a, j, b, k), j => Get(t, a, j, b, k));
  }

  /** Rotating with the identity on the input x index changes nothing. */
  lemma InputGridIdentity(t: Tensor, na: nat, nj: nat, nb: nat, nk: nat)
    requires IsTensor(t, na, nj, nb, nk)
    ensures OnInputGrid(t, Identity(nk), na, nj, nb, nk, nk) == t
  {
    var u := OnInputGrid(t, Identity(nk), na, nj, nb, nk, nk);
    forall a, j, b, l | 0 <= a < na && 0 <= j < nj && 0 <= b < nb && 0 <= l < nk
      ensures u[a][j][b][l] == t[a][j][b][l]
    {
      InputGridEntry(t, Identity(nk), na, nj, nb, nk, nk, a, j, b, l);
      InputGridIdentityAt(t, nk, a, j, b, l);
    }
    TensorExt(u, t, na, nj, nb, nk);
  }

  /** Rotating with the identity on the output flavour index changes nothing. */
  lemma TargetFlavorIdentity(t: Tensor, na: nat, nj: nat, nb: nat, nk: nat)
    requires IsTensor(t, na, nj, nb, nk)
    ensures OnTargetFlavor(Identity(na), t, na, nj, nb, nk, na) == t
  {
    var u := OnTargetFlavor(Identity(na), t, na, nj, nb, nk, na);
    forall c, j, b, k | 0 <= c < na && 0 <= j < nj && 0 <= b < nb && 0 <= k < nk
      ensures u[c][j][b][k] == t[c][j][b][k]
    {
      TargetFlavorEntry(Identity(na), t, na, nj, nb, nk, na, c, j, b, k);
      TargetFlavorIdentityAt(t, na, c, j, b, k);
    }
    TensorExt(u, t, na, nj, nb, nk);
  }

  /** Rotating with the identity on the input flavour index changes nothing. */
  lemma InputFlavorIdentity(t: Tensor, na: nat, nj: nat, nb: nat, nk: nat)
    requires IsTensor(t, na, nj, nb, nk)
    ensures OnInputFlavor(t, Identity(nb), na, nj, nb, nk, nb) == t
  {
    var u := OnInputFlavor(t, Identity(nb), na, nj, nb, nk, nb);
    forall a, j, d, k | 0 <= a < na && 0 <= j < nj && 0 <= d < nb && 0 <= k < nk
      ensures u[a][j][d][k] == t[a][j][d][k]
    {
      InputFlavorEntry(t, Identity(nb), na, nj, nb, nk, nb, a, j, d, k);
      InputFlavorIdentityAt(t, nb, a, j, d, k);
    }
    TensorExt(u, t, na, nj, nb, nk);
  }

  /** One entry of `InputGridIdentity`. */
  lemma InputGridIdentityAt(t: Tensor, nk: nat, a: int, j: int, b: int, l: nat)
    requires l < nk
    ensures InputGridAt(t, Identity(nk), nk, a, j, b, l) == Get(t, a, j, b, l)
  {
    ColumnPicks(nk, l, k => Get(t, a, j, b, k) * Entry(Identity(nk), k, l), k => Get(t, a, j, b, k));
  }

  /** One entry of `TargetFlavorIdentity`. */
  lemma TargetFlavorIdentityAt(t: Tensor, na: nat, c: nat, j: int, b: int, k: int)
    requires c < na
    ensures TargetFlavorAt(Identity(na), t, na, c, j, b, k) == Get(t, c, j, b, k)
  {
    RowPicks(na, c, a => Entry(Identity(na), c, a) * Get(t, a, j, b, k), a => Get(t, a, j, b, k));
  }

  /** One entry of `InputFlavorIdentity`. */
  lemma InputFlavorIdentityAt(t: Tensor, nb: nat, a: int, j: int, d: nat, k: int)
    requires d < nb
    ensures InputFlavorAt(t, Identity(nb), nb, a, j, d, k) == Get(t, a, j, d, k)
  {
    ColumnPicks(nb, d, b => Get(t, a, j, b, k) * Entry(Identity(nb), b, d), b => Get(t, a, j, b, k));
  }

  /** Weighting a sum by a row of the identity picks out one summand. */
  lemma RowPicks(n: nat, i: nat, g: nat -> real, h: nat -> real)
    requires i < n
    requires forall j :: 0 <= j < n ==> g(j) == Entry(Identity(n), i, j) * h(j)
    ensures Sum(n, g) == h(i)
  {
    forall j | 0 <= j < n && j != i ensures g(j) == 0.0 {
      assert Entry(Identity(n), i, j) == 0.0;
    }
    assert Entry(Identity(n), i, i) == 1.0;
    SumSingle(n, g, i);
  }

  /** Weighting a sum by a column of the identity picks out one summand. */
  lemma ColumnPicks(n: nat, i: nat, g: nat -> real, h: nat -> real)
    requires i < n
    requires forall j :: 0 <= j < n ==> g(j) == h(j) * Entry(Identity(n), j, i)
    ensures Sum(n, g) == h(i)
  {
    forall j | 0 <= j < n && j != i ensures g(j) == 0.0 {
      assert Entry(Identity(n), j, i) == 0.0;
    }
    assert Entry(Identity(n), i, i) == 1.0;
    SumSingle(n, g, i);
  }

  /** The two-sided x reshape is the output rotation followed by the input rotation. */
  lemma BothGridsComposed(r: Matrix, t: Tensor, s: Matrix, na: nat, nj: nat, nb: nat, nk: nat, ni: nat, nl: nat)
    requires IsTensor(t, na, nj, nb, nk)
    ensures OnBothGrids(r, t, s, na, nj, nb, nk, ni, nl)
         == OnInputGrid(OnTargetGrid(r, t, na, nj, nb, nk, ni), s, na, ni, nb, nk, nl)
  {
    var both := OnBothGrids(r, t, s, na, nj, nb, nk, ni, nl);
    var mid := OnTargetGrid(r, t, na, nj, nb, nk, ni);
    var seqd := OnInputGrid(mid, s, na, ni, nb, nk, nl);
    forall a, i, b, l | 0 <= a < na && 0 <= i < ni && 0 <= b < nb && 0 <= l < nl
      ensures both[a][i][b][l] == seqd[a][i][b][l]
    {
      BothGridsEntry(r, t, s, na, nj, nb, nk, ni, nl, a, i, b, l);
      InputGridEntry(mid, s, na, ni, nb, nk, nl, a, i, b, l);
      forall k | 0 <= k < nk ensures Get(mid, a, i, b, k) == TargetGridAt(r, t, nj, a, i, b, k) {
        TargetGridEntry(r, t, na, nj, nb, nk, ni, a, i, b, k);
      }
      BothGridsAtComposed(r, t, s, mid, nj, nk, a, i, b, l);
    }
    TensorExt(both, seqd, na, ni, nb, nl);
  }

  /** One entry of `BothGridsComposed`, given the entries of the output rotation `mid` along k. */
  lemma BothGridsAtComposed(r: Matrix, t: Tensor, s: Matrix, mid: Tensor, nj: nat, nk: nat, a: int, i: int, b: int, l: int)
    requires forall k :: 0 <= k < nk ==> Get(mid, a, i, b, k) == TargetGridAt(r, t, nj, a, i, b, k)
    ensures BothGridsAt(r, t, s, nj, nk, a, i, b, l) == InputGridAt(mid, s, nk, a, i, b, l)
  {
    var cell := (j: nat, k: nat) => Entry(r, i, j) * Get(t, a, j, b, k) * Entry(s, k, l);
    var cols := (k: nat) => Sum(nj, (j: nat) => cell(j, k));
    assert BothGridsAt(r, t, s, nj, nk, a, i, b, l) == Sum(nk, cols) by {
      SumSwap(nj, nk, cell);
    }
    forall k: nat | k < nk ensures cols(k) == Get(mid, a, i, b, k) * Entry(s, k, l) {
      SumScaleRight(nj, j => Entry(r, i, j) * Get(t, a, j, b, k), Entry(s, k, l), (j: nat) => cell(j, k));
    }
    SumExt(nk, cols, k => Get(mid, a, i, b, k) * Entry(s, k, l));
  }

  /** The two-sided flavour reshape is the output rotation followed by the input rotation. */
  lemma BothFlavorsComposed(mt: Matrix, t: Tensor, mi: Matrix, na: nat, nj: nat, nb: nat, nk: nat, nc: nat, nd: nat)
    requires IsTensor(t, na, nj, nb, nk)
    ensures OnBothFlavors(mt, t, mi, na, nj, nb, nk, nc, nd)
         == OnInputFlavor(OnTargetFlavor(mt, t, na, nj, nb, nk, nc), mi, nc, nj, nb, nk, nd)
  {
    var both := OnBothFlavors(mt, t, mi, na, nj, nb, nk, nc, nd);
    var mid := OnTargetFlavor(mt, t, na, nj, nb, nk, nc);
    var seqd := OnInputFlavor(mid, mi, nc, nj, nb, nk, nd);
    forall c, j, d, k | 0 <= c < nc && 0 <= j < nj && 0 <= d < nd && 0 <= k < nk
      ensures both[c][j][d][k] == seqd[c][j][d][k]
    {
      BothFlavorsEntry(mt, t, mi, na, nj, nb, nk, nc, nd, c, j, d, k);
      InputFlavorEntry(mid, mi, nc, nj, nb, nk, nd, c, j, d, k);
      forall b | 0 <= b < nb ensures Get(mid, c, j, b, k) == TargetFlavorAt(mt, t, na, c, j, b, k) {
        TargetFlavorEntry(mt, t, na, nj, nb, nk, nc, c, j, b, k);
      }
      BothFlavorsAtComposed(mt, t, mi, mid, na, nb, c, j, d, k);
    }
    TensorExt(both, seqd, nc, nj, nd, nk);
  }

  /** One entry of `BothFlavorsComposed`, given the entries of the output rotation `mid` along b. */
  lemma BothFlavorsAtComposed(mt: Matrix, t: Tensor, mi: Matrix, mid: Tensor, na: nat, nb: nat, c: int, j: int, d: int, k: int)
    requires forall b :: 0 <= b < nb ==> Get(mid, c, j, b, k) == TargetFlavorAt(mt, t, na, c, j, b, k)
    ensures BothFlavorsAt(mt, t, mi, na, nb, c, j, d, k) == InputFlavorAt(mid, mi, nb, c, j, d, k)
  {
    var cell := (a: nat, b: nat) => Entry(mt, c, a) * Get(t, a, j, b, k) * Entry(mi, b, d);
    var cols := (b: nat) => Sum(na, (a: nat) => cell(a, b));
    assert BothFlavorsAt(mt, t, mi, na, nb, c, j, d, k) == Sum(nb, cols) by {
      SumSwap(na, nb, cell);
    }
    forall b: nat | b < nb ensures cols(b) == Get(mid, c, j, b, k) * Entry(mi, b, d) {
      SumScaleRight(na, a => Entry(mt, c, a) * Get(t, a, j, b, k), Entry(mi, b, d), (a: nat) => cell(a, b));
    }
    SumExt(nb, cols, b => Get(mid, c, j, b, k) * Entry(mi, b, d));
  }
}
