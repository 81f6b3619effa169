/**
 * Count series and the numpy operations the simulator applies to them:
 * `np.sum`, `np.cumsum`, the "non-predictive" cumulative sum
 * `cumsum([0] + s)[:-1]` and the time index `np.arange(len(s))`.
 * All counts are natural numbers, so every total is exact.
 */
module Series {

  /** Total of a series (`np.sum`). */
  function Sum(s: seq<nat>): nat
  {
    if |s| == 0 then 0 else s[0] + Sum(s[1..])
  }

  lemma {:induction false} SumConcat(a: seq<nat>, b: seq<nat>)
    ensures Sum(a + b) == Sum(a) + Sum(b)
  {
    if |a| == 0 {
      assert a + b == b;
    } else {
      assert (a + b)[1..] == a[1..] + b;
      SumConcat(a[1..], b);
    }
  }

  /** Adding one more day to a prefix adds that day's count to its total. */
  lemma {:induction false} SumPrefixStep(s: seq<nat>, i: nat)
    requires i < |s|
    ensures Sum(s[..i + 1]) == Sum(s[..i]) + s[i]
  {
    assert s[..i + 1] == s[..i] + [s[i]];
    SumConcat(s[..i], [s[i]]);
    assert [s[i]][1..] == [];
  }

  /** A longer prefix never has a smaller total. */
  lemma {:induction false} SumPrefixMonotone(s: seq<nat>, i: nat, j: nat)
    requires i <= j <= |s|
    ensures Sum(s[..i]) <= Sum(s[..j])
  {
    assert s[..j] == s[..i] + s[i..j];
    SumConcat(s[..i], s[i..j]);
  }

  /**
   * Running totals of `s`, each offset by `acc`: the accumulation numpy's
   * `cumsum` performs, left to right.
   */
  function RunningTotals(acc: nat, s: seq<nat>): (c: seq<nat>)
    ensures |c| == |s|
    decreases |s|
  {
    if |s| == 0 then [] else [acc + s[0]] + RunningTotals(acc + s[0], s[1..])
  }

  /** Inclusive cumulative sum (`np.cumsum`). */
  function Cumsum(s: seq<nat>): (c: seq<nat>)
    ensures |c| == |s|
  {
    RunningTotals(0, s)
  }

  lemma {:induction false} RunningTotalsArePrefixSums(acc: nat, s: seq<nat>)
    ensures forall i :: 0 <= i < |s| ==> RunningTotals(acc, s)[i] == acc + Sum(s[..i + 1])
    decreases |s|
  {
    if |s| > 0 {
      var c := RunningTotals(acc, s);
      RunningTotalsArePrefixSums(acc + s[0], s[1..]);
      forall i | 0 <= i < |s|
        ensures c[i] == acc + Sum(s[..i + 1])
      {
        if i > 0 {
          assert c[i] == RunningTotals(acc + s[0], s[1..])[i - 1];
          assert s[..i + 1][1..] == s[1..][..i];
          assert Sum(s[..i + 1]) == s[0] + Sum(s[1..][..i]);
        } else {
          assert Sum(s[..1]) == s[0] + Sum(s[..1][1..]);
          assert s[..1][1..] == [];
        }
      }
    }
  }

  /** The inclusive cumulative sum at day `i` is the total of days `0..i`; the last one is the series' total. */
  lemma {:induction false} CumsumPrefixSums(s: seq<nat>)
    ensures forall i :: 0 <= i < |s| ==> Cumsum(s)[i] == Sum(s[..i + 1])
    ensures |s| > 0 ==> Cumsum(s)[|s| - 1] == Sum(s)
  {
    RunningTotalsArePrefixSums(0, s);
    if |s| > 0 {
      assert s[..|s|] == s;
    }
  }

  /**
   * The inclusive cumulative sum at day `i` counts days `0..i`, so it is
   * non-decreasing and ends at the series' total.
   */
  lemma {:induction false} CumsumMeaning(s: seq<nat>)
    ensures forall i :: 0 <= i < |s| ==> Cumsum(s)[i] == Sum(s[..i + 1])
    ensures forall i, j :: 0 <= i <= j < |s| ==> Cumsum(s)[i] <= Cumsum(s)[j]
    ensures |s| > 0 ==> Cumsum(s)[|s| - 1] == Sum(s)
  {
    CumsumPrefixSums(s);
    forall i, j | 0 <= i <= j < |s|
      ensures Cumsum(s)[i] <= Cumsum(s)[j]
    {
      CumsumMonotoneAt(s, i, j);
    }
  }

  lemma {:induction false} CumsumMonotoneAt(s: seq<nat>, i: nat, j: nat)
    requires i <= j < |s|
    ensures Cumsum(s)[i] <= Cumsum(s)[j]
  {
    CumsumPrefixSums(s);
    SumPrefixMonotone(s, i + 1, j + 1);
  }

  /**
   * The "non-predictive" cumulative sum: prepend a zero, take the inclusive
   * cumulative sum and drop its last entry.
   */
  function NonPredictiveCumsum(s: seq<nat>): (c: seq<nat>)
    ensures |c| == |s|
  {
    Cumsum([0] + s)[..|s|]
  }

  /** Entry `i` of the non-predictive cumulative sum is the total of the days strictly before `i`. */
  lemma {:induction false} NonPredictiveCumsumCounts(s: seq<nat>)
    ensures forall i :: 0 <= i < |s| ==> NonPredictiveCumsum(s)[i] == Sum(s[..i])
  {
    var z := [0] + s;
    CumsumMeaning(z);
    forall i | 0 <= i < |s|
      ensures NonPredictiveCumsum(s)[i] == Sum(s[..i])
    {
      assert NonPredictiveCumsum(s)[i] == Cumsum(z)[i];
      assert z[..i + 1] == [0] + s[..i];
      assert ([0] + s[..i])[1..] == s[..i];
    }
  }

  /**
   * The non-predictive cumulative sum counts only earlier days: it starts
   * at 0, never decreases, and adding day `i` itself gives the inclusive
   * cumulative sum.
   */
  lemma {:induction false} NonPredictiveCumsumMeaning(s: seq<nat>)
    ensures forall i :: 0 <= i < |s| ==> NonPredictiveCumsum(s)[i] == Sum(s[..i])
    ensures |s| > 0 ==> NonPredictiveCumsum(s)[0] == 0
    ensures forall i, j :: 0 <= i <= j < |s| ==> NonPredictiveCumsum(s)[i] <= NonPredictiveCumsum(s)[j]
    ensures forall i :: 0 <= i < |s| ==> NonPredictiveCumsum(s)[i] + s[i] == Cumsum(s)[i]
  {
    var c := NonPredictiveCumsum(s);
    NonPredictiveCumsumCounts(s);
    CumsumMeaning(s);
    if |s| > 0 {
      assert c[0] == Sum(s[..0]);
      assert s[..0] == [];
    }
    forall i, j | 0 <= i <= j < |s|
      ensures c[i] <= c[j]
    {
      assert c[i] == Sum(s[..i]) && c[j] == Sum(s[..j]);
      SumPrefixMonotone(s, i, j);
    }
    forall i | 0 <= i < |s|
      ensures c[i] + s[i] == Cumsum(s)[i]
    {
      assert c[i] == Sum(s[..i]);
      SumPrefixStep(s, i);
    }
  }

  /** The time index `np.arange(n)`: day numbers 0, 1, ..., n - 1. */
  function TimeIndex(n: nat): (t: seq<nat>)
    ensures |t| == n
    ensures forall i :: 0 <= i < n ==> t[i] == i
  {
    if n == 0 then [] else TimeIndex(n - 1) + [n - 1]
  }
}
