/**
 * The layout of the N3LO operator matrix elements of the matching
 * conditions: how the harmonic-sum cache is sliced for the individual
 * elements and where each element sits in the singlet and non-singlet
 * matrices. The elements themselves are parameters.
 */
module MatchingAs3 {
  import opened LinAlg

  /**
   * The cache of harmonic sums: five rows, by weight, of seven columns, the
   * single sums first and the alternating single sums last, the nested sums
   * of weight three and four in between.
   */
  predicate IsCache(c: Matrix)
  {
    IsMatrix(c, 5, 7)
  }

  /** The four slices of the cache the elements take: single sums, minus sums, weight three and weight four. */
  datatype Slices = Slices(sx: seq<real>, smx: seq<real>, s3x: seq<real>, s4x: seq<real>)

  /**
   * `sx_all[:, 0]`, `sx_all[:, -1]`, `sx_all[2, 1:]` and `sx_all[3, 1:]`:
   * the first and the last column, and rows two and three without their
   * first entry.
   */
  function Slice(c: Matrix): (s: Slices)
    requires IsCache(c)
    ensures |s.sx| == 5 && |s.smx| == 5 && |s.s3x| == 6 && |s.s4x| == 6
    ensures forall w :: 0 <= w < 5 ==> s.sx[w] == c[w][0] && s.smx[w] == c[w][6]
    ensures forall k :: 0 <= k < 6 ==> s.s3x[k] == c[2][k + 1] && s.s4x[k] == c[3][k + 1]
  {
    Slices(seq(5, w requires 0 <= w < 5 => c[w][0]), seq(5, w requires 0 <= w < 5 => c[w][6]), c[2][1..], c[3][1..])
  }

  /** The N3LO elements, each a function of the moment, its sums, nf and L. */
  datatype As3Elements = As3Elements(
    hq: (real, Slices, int, real) -> real,
    hg: (real, Slices, int, real) -> real,
    gq: (real, Slices, int, real) -> real,
    gg: (real, Matrix, int, real) -> real,
    qqPS: (real, seq<real>, int, real) -> real,
    qqNS: (real, Slices, int, real) -> real,
    qg: (real, Slices, int, real) -> real)

  /**
   * `A_singlet`: the 3x3 matrix in the (g, q, H) basis with rows
   * (gg, gq), (qg, qqPS + qqNS), (Hg, Hq) and a zero third column, since
   * no element starts from the heavy quark.
   */
  function ASinglet(e: As3Elements, n: real, c: Matrix, nf: int, l: real): (m: Matrix)
    requires IsCache(c)
    ensures IsMatrix(m, 3, 3)
    ensures forall i :: 0 <= i < 3 ==> m[i][2] == 0.0
    ensures var s := Slice(c);
            m[0][0] == e.gg(n, c, nf, l) && m[0][1] == e.gq(n, s, nf, l)
            && m[1][0] == e.qg(n, s, nf, l) && m[1][1] == e.qqPS(n, s.sx, nf, l) + e.qqNS(n, s, nf, l)
            && m[2][0] == e.hg(n, s, nf, l) && m[2][1] == e.hq(n, s, nf, l)
  {
    var s := Slice(c);
    [[e.gg(n, c, nf, l), e.gq(n, s, nf, l), 0.0],
     [e.qg(n, s, nf, l), e.qqPS(n, s.sx, nf, l) + e.qqNS(n, s, nf, l), 0.0],
     [e.hg(n, s, nf, l), e.hq(n, s, nf, l), 0.0]]
  }

  /** `A_ns`: the 2x2 matrix whose only non-zero entry is [0, 0] = qqNS. */
  function ANs(e: As3Elements, n: real, c: Matrix, nf: int, l: real): (m: Matrix)
    requires IsCache(c)
    ensures IsMatrix(m, 2, 2)
    ensures m[0][0] == e.qqNS(n, Slice(c), nf, l)
    ensures m[0][1] == 0.0 && m[1][0] == 0.0 && m[1][1] == 0.0
  {
    [[e.qqNS(n, Slice(c), nf, l), 0.0], [0.0, 0.0]]
  }

  /**
   * The light-quark diagonal of the singlet matrix is the non-singlet
   * element plus the pure-singlet one, with the same sums.
   */
  lemma SingletContainsNonSinglet(e: As3Elements, n: real, c: Matrix, nf: int, l: real)
    requires IsCache(c)
    ensures ASinglet(e, n, c, nf, l)[1][1] == ANs(e, n, c, nf, l)[0][0] + e.qqPS(n, Slice(c).sx, nf, l)
  {
  }

  /**
   * The elements see only the cache entries they are given: two caches
   * that agree on the first column, the last column and rows two and three
   * give the same slices.
   */
  lemma {:induction false} SliceDependsOnSlicedEntries(c: Matrix, d: Matrix)
    requires IsCache(c) && IsCache(d)
    requires forall w :: 0 <= w < 5 ==> c[w][0] == d[w][0] && c[w][6] == d[w][6]
    requires c[2] == d[2] && c[3] == d[3]
    ensures Slice(c) == Slice(d)
  {
    var s := Slice(c);
    var t := Slice(d);
    assert s.sx == t.sx;
    assert s.smx == t.smx;
  }
}
