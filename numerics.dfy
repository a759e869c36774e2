/**
 * Numeric vocabulary shared by the distribution tables, the neutron state
 * machine and the reactor: an option type, a planar vector, the library
 * functions the simulation calls (trigonometry, square root, exponentials,
 * the error function) as abstract parameters characterised by the laws the
 * model relies on, and the running sums behind every cumulative
 * distribution.
 */
module Numerics {

  datatype Option<T> = None | Some(value: T)

  /** A point or velocity in the unbounded reactor plane (cm, cm/s). */
  datatype Vec = Vec(x: real, y: real)

  /**
   * The transcendental functions of the numerical library. They are not
   * computable over the reals, so they are inputs; `Lawful` lists the facts
   * about them that the proofs use, each true of the real functions.
   */
  datatype Maths = Maths(
    cos: real -> real,
    sin: real -> real,
    sqrt: real -> real,
    exp: real -> real,
    sinh: real -> real,
    erf: real -> real)
  {
    ghost predicate Lawful()
    {
      (forall a :: cos(a) * cos(a) + sin(a) * sin(a) == 1.0) &&
      (forall x :: 0.0 <= x ==> 0.0 <= sqrt(x) && sqrt(x) * sqrt(x) == x) &&
      (forall x :: 0.0 < exp(x)) &&
      (forall x :: 0.0 <= x ==> 0.0 <= sinh(x)) &&
      (forall x :: 0.0 < x ==> 0.0 < sinh(x)) &&
      (forall x :: 0.0 <= x ==> 0.0 <= erf(x) < 1.0) &&
      (forall x :: 0.0 < x ==> 0.0 < erf(x))
    }
  }

  /** The square root of 1 is 1: the only non-negative number squaring to 1. */
  lemma SqrtOne(m: Maths)
    requires m.Lawful()
    ensures m.sqrt(1.0) == 1.0
  {
    var s := m.sqrt(1.0);
    assert 0.0 <= s && s * s == 1.0;
    if s < 1.0 {
      MulMonotone(s, s, 1.0);
      assert false;
    } else if s > 1.0 {
      MulMonotone(s, 1.0, s);
      assert false;
    }
  }

  lemma MulMonotone(a: real, b: real, c: real)
    requires 0.0 <= a && b <= c
    ensures a * b <= a * c
  {
  }

  /** The square root of a positive number is positive. */
  lemma SqrtPositive(m: Maths, x: real)
    requires m.Lawful() && 0.0 < x
    ensures 0.0 < m.sqrt(x)
  {
    var s := m.sqrt(x);
    assert 0.0 <= s && s * s == x;
  }

  /** Cosine and sine lie in [-1, 1], a consequence of cos² + sin² = 1. */
  lemma CosSinBounds(m: Maths, a: real)
    requires m.Lawful()
    ensures -1.0 <= m.cos(a) <= 1.0 && -1.0 <= m.sin(a) <= 1.0
  {
    var c, s := m.cos(a), m.sin(a);
    assert c * c + s * s == 1.0;
  }

  /** Left-to-right sum, as Python's built-in `sum`. */
  function Sum(xs: seq<real>): real
  {
    if |xs| == 0 then 0.0 else Sum(xs[..|xs| - 1]) + xs[|xs| - 1]
  }

  /** Running total, as `numpy.cumsum`: each entry is the previous one plus the next input. */
  function CumSum(xs: seq<real>): (c: seq<real>)
    ensures |c| == |xs|
  {
    if |xs| == 0 then []
    else
      var prev := CumSum(xs[..|xs| - 1]);
      prev + [(if |prev| == 0 then 0.0 else prev[|prev| - 1]) + xs[|xs| - 1]]
  }

  /** Every entry divided by `total`, as `[x / total for x in xs]`. */
  function Normalize(xs: seq<real>, total: real): seq<real>
    requires total != 0.0
  {
    seq(|xs|, i requires 0 <= i < |xs| => xs[i] / total)
  }

  ghost predicate NonNegative(xs: seq<real>)
  {
    forall i :: 0 <= i < |xs| ==> 0.0 <= xs[i]
  }

  ghost predicate Monotone(xs: seq<real>)
  {
    forall i, j :: 0 <= i <= j < |xs| ==> xs[i] <= xs[j]
  }

  /** The running total agrees with the independent prefix-sum definition. */
  lemma {:induction false} CumSumIsPrefixSum(xs: seq<real>)
    ensures forall i :: 0 <= i < |xs| ==> CumSum(xs)[i] == Sum(xs[..i + 1])
  {
    if |xs| > 0 {
      var init := xs[..|xs| - 1];
      CumSumIsPrefixSum(init);
      var prev := CumSum(init);
      forall i | 0 <= i < |xs|
        ensures CumSum(xs)[i] == Sum(xs[..i + 1])
      {
        if i < |xs| - 1 {
          assert init[..i + 1] == xs[..i + 1];
        } else {
          assert xs[..i + 1] == xs;
          if |prev| > 0 {
            assert init[..|init|] == init;
          }
        }
      }
    }
  }

  /** A sum of non-negative terms is non-negative. */
  lemma {:induction false} SumNonNegative(xs: seq<real>)
    requires NonNegative(xs)
    ensures 0.0 <= Sum(xs)
  {
    if |xs| > 0 {
      SumNonNegative(xs[..|xs| - 1]);
    }
  }

  /** A sum of non-negative terms with one positive term is positive. */
  lemma {:induction false} SumPositive(xs: seq<real>, k: nat)
    requires NonNegative(xs) && k < |xs| && 0.0 < xs[k]
    ensures 0.0 < Sum(xs)
  {
    var init := xs[..|xs| - 1];
    if k == |xs| - 1 {
      SumNonNegative(init);
    } else {
      SumPositive(init, k);
    }
  }

  /** Over non-negative terms, a longer prefix never has a smaller sum. */
  lemma {:induction false} PrefixSumMonotone(xs: seq<real>, i: nat, j: nat)
    requires NonNegative(xs) && i <= j <= |xs|
    ensures Sum(xs[..i]) <= Sum(xs[..j])
  {
    if i < j {
      PrefixSumMonotone(xs, i, j - 1);
      assert xs[..j][..j - 1] == xs[..j - 1];
    }
  }

  /** Normalising by `total` divides the sum by `total`. */
  lemma {:induction false} SumNormalize(xs: seq<real>, total: real)
    requires total != 0.0
    ensures Sum(Normalize(xs, total)) == Sum(xs) / total
  {
    if |xs| > 0 {
      var init := xs[..|xs| - 1];
      var n := Normalize(xs, total);
      SumNormalize(init, total);
      assert n[..|n| - 1] == Normalize(init, total);
      assert Sum(n) == Sum(Normalize(init, total)) + xs[|xs| - 1] / total;
      DivAdd(Sum(init), xs[|xs| - 1], total);
    }
  }

  lemma DivAdd(a: real, b: real, c: real)
    requires c != 0.0
    ensures a / c + b / c == (a + b) / c
  {
  }

  /** A prefix of the normalised list sums to the prefix's share of `total`. */
  lemma NormalizedPrefix(xs: seq<real>, total: real, k: nat)
    requires total != 0.0 && k <= |xs|
    ensures Sum(Normalize(xs, total)[..k]) == Sum(xs[..k]) / total
  {
    assert Normalize(xs, total)[..k] == Normalize(xs[..k], total);
    SumNormalize(xs[..k], total);
  }

  /** Entry `i` of the normalised running total is the share of `total` held by the first `i + 1` terms. */
  lemma CumSumNormalizedIsShare(xs: seq<real>, total: real)
    requires total != 0.0
    ensures var c := CumSum(Normalize(xs, total));
      |c| == |xs| && forall i :: 0 <= i < |c| ==> c[i] == Sum(xs[..i + 1]) / total
  {
    var c := CumSum(Normalize(xs, total));
    CumSumIsPrefixSum(Normalize(xs, total));
    forall i | 0 <= i < |c|
      ensures c[i] == Sum(xs[..i + 1]) / total
    {
      NormalizedPrefix(xs, total, i + 1);
    }
  }

  /** Dividing non-negative terms by a positive total keeps them non-negative. */
  lemma NormalizeNonNegative(xs: seq<real>, total: real)
    requires NonNegative(xs) && 0.0 < total
    ensures NonNegative(Normalize(xs, total))
  {
    var n := Normalize(xs, total);
    forall i | 0 <= i < |n| ensures 0.0 <= n[i] {
      assert n[i] == xs[i] / total;
    }
  }

  /** The running total of non-negative terms summing to 1 is non-decreasing, within [0, 1], and ends at 1. */
  lemma CumSumOfUnitMass(n: seq<real>)
    requires NonNegative(n) && 0 < |n| && Sum(n) == 1.0
    ensures var c := CumSum(n);
      Monotone(c) && (forall i :: 0 <= i < |c| ==> 0.0 <= c[i] <= 1.0) && c[|c| - 1] == 1.0
  {
    var c := CumSum(n);
    CumSumIsPrefixSum(n);
    assert n[..|n|] == n;
    forall i, j | 0 <= i <= j < |c|
      ensures c[i] <= c[j]
    {
      PrefixSumMonotone(n, i + 1, j + 1);
    }
    forall i | 0 <= i < |c|
      ensures 0.0 <= c[i] <= 1.0
    {
      PrefixSumMonotone(n, 0, i + 1);
      PrefixSumMonotone(n, i + 1, |n|);
      assert n[..0] == [];
    }
  }

  /**
   * Normalising non-negative densities with a positive sum and taking the
   * running total gives a cumulative distribution: one entry per density,
   * non-decreasing, within [0, 1] and ending at exactly 1.
   */
  lemma NormalizedCumSumIsCdf(xs: seq<real>)
    requires NonNegative(xs) && 0.0 < Sum(xs)
    ensures var c := CumSum(Normalize(xs, Sum(xs)));
      |c| == |xs| && Monotone(c) &&
      (forall i :: 0 <= i < |c| ==> 0.0 <= c[i] <= 1.0) &&
      c[|c| - 1] == 1.0
  {
    var total := Sum(xs);
    var n := Normalize(xs, total);
    assert |xs| > 0;
    NormalizeNonNegative(xs, total);
    SumNormalize(xs, total);
    assert Sum(n) == 1.0;
    CumSumOfUnitMass(n);
  }
}
