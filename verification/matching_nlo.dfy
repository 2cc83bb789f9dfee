/**
 * The NLO operator matrix elements of the heavy-quark matching conditions at
 * integer Mellin moments, with L = ln(mu_F^2 / m_h^2), and the matrices they
 * fill.
 */
module MatchingNlo {
  import opened Harmonics
  import opened LinAlg
  import StrongCoupling

  /** The logarithmic part of A_HH^(1). */
  function AhhLog(n: nat, l: real): real
    requires n >= 1
  {
    var x := n as real;
    l * (2.0 + x - 3.0 * (x * x) + 4.0 * x * (1.0 + x) * S1(n - 1)) / (2.0 * x * (1.0 + x))
  }

  /** The constant part of A_HH^(1). */
  function AhhConst(n: nat): real
    requires n >= 1
  {
    var x := n as real;
    var s1m := S1(n - 1);
    (2.0 + 5.0 * x + x * x - 6.0 * (x * x * x) - 2.0 * (x * x * x * x)
     - 2.0 * x * (-1.0 - 2.0 * x + x * x * x) * s1m
     + 2.0 * ((x * (1.0 + x)) * (x * (1.0 + x))) * (s1m * s1m + S2(n - 1)))
    / ((x * (1.0 + x)) * (x * (1.0 + x)))
  }

  /** A_HH^(1) = -2 C_F (ahh_l + ahh), with S_1 and S_2 taken at N - 1. */
  function AHh1(n: nat, l: real): real
    requires n >= 1
  {
    -2.0 * StrongCoupling.CF * (AhhLog(n, l) + AhhConst(n))
  }

  /** A_Hg^(1) = 2 (2 + N + N^2) / (N (N + 1) (N + 2)) L. */
  function AHg1(n: nat, l: real): real
    requires n >= 1
  {
    var x := n as real;
    2.0 * (2.0 + x + x * x) * (1.0 / (x * (x + 1.0) * (2.0 + x))) * l
  }

  /** A_gH^(1) = 2 C_F (agh + N (N^2 - 1) (2 + N + N^2) L) / (N (N^2 - 1))^2. */
  function AGh1(n: nat, l: real): real
    requires n >= 2
  {
    var x := n as real;
    var agh := -4.0 + x * (2.0 + x * (15.0 + x * (3.0 + x - x * x)));
    var aghL := x * (x * x - 1.0) * (2.0 + x + x * x) * l;
    2.0 * StrongCoupling.CF * (1.0 / ((x * (x * x - 1.0)) * (x * (x * x - 1.0)))) * (agh + aghL)
  }

  /** A_gg,H^(1) = -2/3 L, the same at every moment. */
  function AGg1(n: nat, l: real): real
  {
    -2.0 / 3.0 * l
  }

  /**
   * `A_singlet_1`: the 3x3 singlet matrix in the (g, q, H) basis, whose only
   * non-zero column is the first: A_gg, then A_Hg for both quark rows.
   */
  function ASinglet1(n: nat, l: real): (m: Matrix)
    requires n >= 1
    ensures IsMatrix(m, 3, 3)
    ensures m[0][0] == AGg1(n, l) && m[1][0] == AHg1(n, l) && m[2][0] == AHg1(n, l)
    ensures forall i, j :: 0 <= i < 3 && 1 <= j < 3 ==> m[i][j] == 0.0
  {
    [[AGg1(n, l), 0.0, 0.0], [AHg1(n, l), 0.0, 0.0], [AHg1(n, l), 0.0, 0.0]]
  }

  /**
   * `A_singlet_1_intrinsic`: the singlet matrix with the intrinsic heavy
   * column, which differs from `A_singlet_1` only at [0, 2] = A_gH and
   * [2, 2] = A_HH.
   */
  function ASinglet1Intrinsic(n: nat, l: real): (m: Matrix)
    requires n >= 2
    ensures IsMatrix(m, 3, 3)
    ensures m[0][2] == AGh1(n, l) && m[2][2] == AHh1(n, l)
    ensures forall i, j :: 0 <= i < 3 && 0 <= j < 3 && !(i == 0 && j == 2) && !(i == 2 && j == 2)
              ==> m[i][j] == ASinglet1(n, l)[i][j]
  {
    SetEntry(SetEntry(ASinglet1(n, l), 0, 2, AGh1(n, l)), 2, 2, AHh1(n, l))
  }

  /** `A_ns_1_intrinsic`: [[0, 0], [0, A_HH]]. */
  function ANs1Intrinsic(n: nat, l: real): (m: Matrix)
    requires n >= 1
    ensures IsMatrix(m, 2, 2)
    ensures m[1][1] == AHh1(n, l) && m[0][0] == 0.0 && m[0][1] == 0.0 && m[1][0] == 0.0
  {
    [[0.0, 0.0], [0.0, AHh1(n, l)]]
  }

  /** A_Hg^(1) and A_gg,H^(1) are proportional to L, so they vanish at mu_F = m_h. */
  lemma LightOmesVanishAtThreshold(n: nat, l: real)
    requires n >= 1
    ensures AHg1(n, l) == l * AHg1(n, 1.0) && AHg1(n, 0.0) == 0.0
    ensures AGg1(n, l) == l * AGg1(n, 1.0) && AGg1(n, 0.0) == 0.0
  {
  }

  /** At mu_F = m_h the whole non-intrinsic singlet matrix is zero. */
  lemma SingletVanishesAtThreshold(n: nat)
    requires n >= 1
    ensures ASinglet1(n, 0.0) == Zeros(3, 3)
  {
    LightOmesVanishAtThreshold(n, 0.0);
    var z := Zeros(3, 3);
    assert z == [z[0], z[1], z[2]];
    assert z[0] == [0.0, 0.0, 0.0] && z[1] == [0.0, 0.0, 0.0] && z[2] == [0.0, 0.0, 0.0];
  }

  /** Heavy-quark number is conserved: A_HH^(1) vanishes at N = 1 for every L. */
  lemma HeavyQuarkNumber(l: real)
    ensures AHh1(1, l) == 0.0
  {
    assert S1(0) == 0.0 && S2(0) == 0.0;
  }

  /**
   * Momentum is conserved in the intrinsic column: at N = 2 the gluon and
   * heavy entries cancel, A_gH^(1)(2) + A_HH^(1)(2) = 0, both being
   * +-2 C_F (17/9 + 4/3 L).
   */
  lemma HeavyColumnMomentum(l: real)
    ensures AGh1(2, l) == 2.0 * StrongCoupling.CF * (17.0 / 9.0 + 4.0 / 3.0 * l)
    ensures AHh1(2, l) == -2.0 * StrongCoupling.CF * (17.0 / 9.0 + 4.0 / 3.0 * l)
    ensures AGh1(2, l) + AHh1(2, l) == 0.0
  {
    assert S1(1) == 1.0 && S2(1) == 1.0;
    assert AhhLog(2, l) == 4.0 / 3.0 * l;
    assert AhhConst(2) == 17.0 / 9.0;
  }

  /**
   * Momentum is conserved in the gluon column: at N = 2,
   * A_gg,H^(1) + A_Hg^(1) = 0.
   */
  lemma GluonColumnMomentum(l: real)
    ensures AHg1(2, l) == 2.0 / 3.0 * l
    ensures AGg1(2, l) + AHg1(2, l) == 0.0
  {
  }

  /** The intrinsic matrix conserves momentum in its heavy column at N = 2. */
  lemma IntrinsicHeavyColumnMomentum(l: real)
    ensures var m := ASinglet1Intrinsic(2, l); m[0][2] + m[1][2] + m[2][2] == 0.0
  {
    HeavyColumnMomentum(l);
  }
}
