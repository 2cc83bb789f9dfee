/** Harmonic sums on the natural numbers, the moments at which the kernels are exact. */
module Harmonics {

  /** S_1(n) = sum_{k=1}^{n} 1/k. */
  function S1(n: nat): real
  {
    if n == 0 then 0.0 else S1(n - 1) + 1.0 / n as real
  }

  /** S_2(n) = sum_{k=1}^{n} 1/k^2. */
  function S2(n: nat): real
  {
    if n == 0 then 0.0 else S2(n - 1) + 1.0 / (n as real * n as real)
  }

  /** S_1(n) lies between 1 and n from n = 1 on. */
  lemma {:induction false} S1Bounds(n: nat)
    ensures n >= 1 ==> 1.0 <= S1(n) <= n as real
  {
    if n >= 2 {
      S1Bounds(n - 1);
      assert 1.0 / n as real <= 1.0;
    }
  }

  /** S_2(n) is bounded by the telescoping sum: 1 <= S_2(n) <= 2 - 1/n from n = 1 on. */
  lemma {:induction false} S2Bounds(n: nat)
    ensures n >= 1 ==> 1.0 <= S2(n) <= 2.0 - 1.0 / n as real
  {
    if n >= 2 {
      S2Bounds(n - 1);
      TermBelowDifference(n);
      assert 1.0 / (n as real * n as real) > 0.0;
    }
  }

  /** From n = 2 on, 1/n^2 stays below 1/(n-1) - 1/n = 1/(n(n-1)). */
  lemma TermBelowDifference(n: nat)
    ensures n >= 2 ==> 1.0 / (n as real * n as real) <= 1.0 / (n - 1) as real - 1.0 / n as real
  {
    if n >= 2 {
      var m := n as real;
      assert (n - 1) as real == m - 1.0;
      assert 1.0 / (m - 1.0) - 1.0 / m == 1.0 / (m * (m - 1.0));
      assert 1.0 / (m * m) <= 1.0 / (m * (m - 1.0));
    }
  }

  /** The first few values of S_1. */
  lemma S1Values()
    ensures S1(0) == 0.0 && S1(1) == 1.0 && S1(2) == 3.0 / 2.0
    ensures S1(3) == 11.0 / 6.0 && S1(4) == 25.0 / 12.0
  {
  }

  /**
   * The values of S_1 around n that the LO kernels combine, in terms of
   * S_1(n) itself.
   */
  lemma S1Around(n: nat)
    requires n >= 1
    ensures n >= 2 ==> S1(n - 2) == S1(n) - 1.0 / n as real - 1.0 / (n - 1) as real
    ensures S1(n - 1) == S1(n) - 1.0 / n as real
    ensures S1(n + 1) == S1(n) + 1.0 / (n + 1) as real
    ensures S1(n + 2) == S1(n) + 1.0 / (n + 1) as real + 1.0 / (n + 2) as real
  {
  }
}
