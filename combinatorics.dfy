/**
 * itertools.combinations as both resistor puzzles use it: the k-element
 * combinations of the positions lo..hi-1, each listed in increasing order of
 * position, the combinations themselves in lexicographic order. Python
 * documents combinations(values, k) as picking the values at these positions.
 */
module Combinatorics {

  /** Strictly increasing positions. */
  predicate Increasing(c: seq<int>) {
    forall i, j :: 0 <= i < j < |c| ==> c[i] < c[j]
  }

  /** Every position lies in lo..hi-1. */
  predicate Within(c: seq<int>, lo: int, hi: int) {
    forall i :: 0 <= i < |c| ==> lo <= c[i] < hi
  }

  /** A k-element combination of the positions lo..hi-1. */
  predicate IsCombination(c: seq<int>, lo: int, hi: int, k: nat) {
    |c| == k && Increasing(c) && Within(c, lo, hi)
  }

  /** Lexicographic order on combinations of one size. */
  predicate LexLess(a: seq<int>, b: seq<int>) {
    |a| > 0 && |b| > 0 && (a[0] < b[0] || (a[0] == b[0] && LexLess(a[1..], b[1..])))
  }

  /** The order of load_combinations: smaller combinations first, then lexicographic. */
  predicate Before(a: seq<int>, b: seq<int>) {
    |a| < |b| || (|a| == |b| && LexLess(a, b))
  }

  /** Every list element with the position x put in front. */
  function Prepend(x: int, cs: seq<seq<int>>): (r: seq<seq<int>>)
    ensures |r| == |cs| && forall i :: 0 <= i < |cs| ==> r[i] == [x] + cs[i]
  {
    seq(|cs|, i requires 0 <= i < |cs| => [x] + cs[i])
  }

  /**
   * combinations(range(lo, hi), k): those that start with lo, then those
   * that do not.
   */
  function Choose(lo: int, hi: int, k: nat): seq<seq<int>>
    decreases hi - lo
  {
    if k == 0 then [[]]
    else if hi <= lo then []
    else Prepend(lo, Choose(lo + 1, hi, k - 1)) + Choose(lo + 1, hi, k)
  }

  /** The values at the positions of a combination, as combinations(values, k) yields them. */
  function Pick(values: seq<int>, c: seq<int>): (r: seq<int>)
    requires Within(c, 0, |values|)
    ensures |r| == |c| && forall i :: 0 <= i < |c| ==> r[i] == values[c[i]]
  {
    seq(|c|, i requires 0 <= i < |c| => values[c[i]])
  }

  /** The loop of load_combinations: the combinations of sizes 1 to m of n positions, one size after the other. */
  function BySize(n: nat, m: nat): seq<seq<int>> {
    if m == 0 then [] else BySize(n, m - 1) + Choose(0, n, m)
  }

  function Binom(n: nat, k: nat): nat {
    if k == 0 then 1 else if n == 0 then 0 else Binom(n - 1, k - 1) + Binom(n - 1, k)
  }

  function Pow2(n: nat): nat {
    if n == 0 then 1 else 2 * Pow2(n - 1)
  }

  /** The sum of Binom(n, k) over k = 0..m. */
  function RowSum(n: nat, m: nat): nat {
    if m == 0 then 1 else RowSum(n, m - 1) + Binom(n, m)
  }

  /** There are Binom(hi - lo, k) combinations of k of the positions lo..hi-1. */
  lemma {:induction false} ChooseCount(lo: int, hi: int, k: nat)
    ensures |Choose(lo, hi, k)| == Binom(if hi > lo then hi - lo else 0, k)
    decreases hi - lo
  {
    if k > 0 && hi > lo {
      ChooseCount(lo + 1, hi, k - 1);
      ChooseCount(lo + 1, hi, k);
    }
  }

  /** Every entry of Choose(lo, hi, k) is a k-element combination of lo..hi-1. */
  lemma {:induction false} ChooseSound(lo: int, hi: int, k: nat)
    ensures forall i :: 0 <= i < |Choose(lo, hi, k)| ==> IsCombination(Choose(lo, hi, k)[i], lo, hi, k)
    decreases hi - lo
  {
    if k > 0 && hi > lo {
      var a := Choose(lo + 1, hi, k - 1);
      var p, q := Prepend(lo, a), Choose(lo + 1, hi, k);
      ChooseSound(lo + 1, hi, k - 1);
      ChooseSound(lo + 1, hi, k);
      forall i | 0 <= i < |p + q|
        ensures IsCombination((p + q)[i], lo, hi, k)
      {
        if i < |p| {
          var c := p[i];
          assert c == [lo] + a[i];
          assert IsCombination(a[i], lo + 1, hi, k - 1);
          forall x, y | 0 <= x < y < |c|
            ensures c[x] < c[y]
          {
            if x > 0 {
              assert c[x] == a[i][x - 1] && c[y] == a[i][y - 1];
            }
          }
        } else {
          assert (p + q)[i] == q[i - |p|];
        }
      }
    }
  }

  /** Every k-element combination of lo..hi-1 is an entry of Choose(lo, hi, k). */
  lemma {:induction false} ChooseComplete(lo: int, hi: int, k: nat, c: seq<int>)
    requires IsCombination(c, lo, hi, k)
    ensures c in Choose(lo, hi, k)
    decreases hi - lo, 1
  {
    if k == 0 {
      assert c == [];
    } else if c[0] == lo {
      ChooseCompleteFirst(lo, hi, k, c);
    } else {
      ChooseCompleteLater(lo, hi, k, c);
    }
  }

  /** The case of ChooseComplete where the combination starts with lo. */
  lemma {:induction false} ChooseCompleteFirst(lo: int, hi: int, k: nat, c: seq<int>)
    requires IsCombination(c, lo, hi, k) && k > 0 && c[0] == lo
    ensures c in Choose(lo, hi, k)
    decreases hi - lo, 0
  {
    TailCombination(c, hi, k);
    ChooseComplete(lo + 1, hi, k - 1, c[1..]);
    InChooseFirst(lo, hi, k, c);
  }

  /** The case of ChooseComplete where the combination starts after lo. */
  lemma {:induction false} ChooseCompleteLater(lo: int, hi: int, k: nat, c: seq<int>)
    requires IsCombination(c, lo, hi, k) && k > 0 && c[0] != lo
    ensures c in Choose(lo, hi, k)
    decreases hi - lo, 0
  {
    RaiseLow(c, lo, hi, k);
    ChooseComplete(lo + 1, hi, k, c);
    InChooseLater(lo, hi, k, c);
  }

  /** A combination starting with lo and followed by a listed (k-1)-combination of the later positions is listed. */
  lemma {:induction false} InChooseFirst(lo: int, hi: int, k: nat, c: seq<int>)
    requires k > 0 && lo < hi && |c| > 0 && c[0] == lo && c[1..] in Choose(lo + 1, hi, k - 1)
    ensures c in Choose(lo, hi, k)
  {
    var a := Choose(lo + 1, hi, k - 1);
    assert Choose(lo, hi, k) == Prepend(lo, a) + Choose(lo + 1, hi, k);
    var t :| 0 <= t < |a| && a[t] == c[1..];
    assert c == [lo] + c[1..] == Prepend(lo, a)[t];
  }

  /** A listed k-combination of the later positions is listed. */
  lemma {:induction false} InChooseLater(lo: int, hi: int, k: nat, c: seq<int>)
    requires k > 0 && lo < hi && c in Choose(lo + 1, hi, k)
    ensures c in Choose(lo, hi, k)
  {
    assert Choose(lo, hi, k) == Prepend(lo, Choose(lo + 1, hi, k - 1)) + Choose(lo + 1, hi, k);
  }

  /** Without its first position, a combination is one of the positions after that one. */
  lemma {:induction false} TailCombination(c: seq<int>, hi: int, k: nat)
    requires k > 0 && Increasing(c) && |c| == k && Within(c, c[0], hi)
    ensures IsCombination(c[1..], c[0] + 1, hi, k - 1)
  {
    var rest := c[1..];
    forall x | 0 <= x < |rest|
      ensures c[0] + 1 <= rest[x] < hi
    {
      assert rest[x] == c[x + 1];
    }
    forall x, y | 0 <= x < y < |rest|
      ensures rest[x] < rest[y]
    {
      assert rest[x] == c[x + 1] && rest[y] == c[y + 1];
    }
  }

  /** A combination of lo..hi-1 that does not start with lo is one of lo+1..hi-1. */
  lemma {:induction false} RaiseLow(c: seq<int>, lo: int, hi: int, k: nat)
    requires IsCombination(c, lo, hi, k) && k > 0 && c[0] != lo
    ensures IsCombination(c, lo + 1, hi, k)
  {
    forall x | 0 <= x < |c|
      ensures lo + 1 <= c[x]
    {
      if x > 0 {
        assert c[0] < c[x];
      }
    }
  }

  /** Choose(lo, hi, k) lists its combinations in strictly increasing lexicographic order. */
  lemma {:induction false} ChooseOrdered(lo: int, hi: int, k: nat)
    ensures forall i, j :: 0 <= i < j < |Choose(lo, hi, k)| ==> LexLess(Choose(lo, hi, k)[i], Choose(lo, hi, k)[j])
    decreases hi - lo
  {
    if k > 0 && hi > lo {
      var a := Choose(lo + 1, hi, k - 1);
      var p, q := Prepend(lo, a), Choose(lo + 1, hi, k);
      ChooseOrdered(lo + 1, hi, k - 1);
      ChooseOrdered(lo + 1, hi, k);
      ChooseSound(lo + 1, hi, k);
      forall i, j | 0 <= i < j < |p + q|
        ensures LexLess((p + q)[i], (p + q)[j])
      {
        if j < |p| {
          assert LexLess(a[i], a[j]);
          assert p[i][1..] == a[i] && p[j][1..] == a[j];
        } else if i < |p| {
          var d := q[j - |p|];
          assert IsCombination(d, lo + 1, hi, k);
          assert p[i][0] == lo < d[0];
        } else {
          assert (p + q)[i] == q[i - |p|] && (p + q)[j] == q[j - |p|];
        }
      }
    }
  }

  /** No combination comes before itself. */
  lemma {:induction false} LexIrreflexive(a: seq<int>)
    ensures !LexLess(a, a)
  {
    if |a| > 0 {
      LexIrreflexive(a[1..]);
    }
  }

  /** An increasing sequence of positions in lo..hi-1 has at most hi - lo of them. */
  lemma {:induction false} IncreasingLength(c: seq<int>, lo: int, hi: int)
    requires Increasing(c) && Within(c, lo, hi)
    ensures |c| <= if hi > lo then hi - lo else 0
    decreases |c|
  {
    if |c| > 0 {
      var rest := c[1..];
      assert Within(rest, c[0] + 1, hi) by {
        forall x | 0 <= x < |rest|
          ensures c[0] + 1 <= rest[x] < hi
        {
          assert rest[x] == c[x + 1];
        }
      }
      IncreasingLength(rest, c[0] + 1, hi);
    }
  }

  /** The combinations of sizes 1..m of n positions: sound, ordered by size and then lexicographically. */
  lemma {:induction false} BySizeOrdered(n: nat, m: nat)
    ensures forall i :: 0 <= i < |BySize(n, m)| ==> 1 <= |BySize(n, m)[i]| <= m && IsCombination(BySize(n, m)[i], 0, n, |BySize(n, m)[i]|)
    ensures forall i, j :: 0 <= i < j < |BySize(n, m)| ==> Before(BySize(n, m)[i], BySize(n, m)[j])
  {
    if m > 0 {
      var l, c := BySize(n, m - 1), Choose(0, n, m);
      BySizeOrdered(n, m - 1);
      ChooseSound(0, n, m);
      ChooseOrdered(0, n, m);
      forall i | 0 <= i < |l + c|
        ensures 1 <= |(l + c)[i]| <= m && IsCombination((l + c)[i], 0, n, |(l + c)[i]|)
      {
        if i >= |l| {
          assert (l + c)[i] == c[i - |l|];
        }
      }
      forall i, j | 0 <= i < j < |l + c|
        ensures Before((l + c)[i], (l + c)[j])
      {
        if j < |l| {
        } else if i < |l| {
          assert |l[i]| < m == |c[j - |l|]|;
        } else {
          assert (l + c)[i] == c[i - |l|] && (l + c)[j] == c[j - |l|];
        }
      }
    }
  }

  /** No combination is listed twice. */
  lemma {:induction false} BySizeDistinct(n: nat, m: nat)
    ensures forall i, j :: 0 <= i < j < |BySize(n, m)| ==> BySize(n, m)[i] != BySize(n, m)[j]
  {
    BySizeOrdered(n, m);
    forall i, j | 0 <= i < j < |BySize(n, m)|
      ensures BySize(n, m)[i] != BySize(n, m)[j]
    {
      LexIrreflexive(BySize(n, m)[i]);
    }
  }

  /** Every non-empty combination of at most m of the n positions is listed. */
  lemma {:induction false} BySizeComplete(n: nat, m: nat, c: seq<int>)
    requires 1 <= |c| <= m && Increasing(c) && Within(c, 0, n)
    ensures c in BySize(n, m)
  {
    if |c| == m {
      ChooseComplete(0, n, m, c);
    } else {
      BySizeComplete(n, m - 1, c);
    }
  }

  /** There are RowSum(n, m) - 1 combinations of sizes 1..m. */
  lemma {:induction false} BySizeCount(n: nat, m: nat)
    ensures |BySize(n, m)| == RowSum(n, m) - 1
  {
    if m > 0 {
      BySizeCount(n, m - 1);
      ChooseCount(0, n, m);
    }
  }

  /** Pascal's rule summed over a row. */
  lemma {:induction false} RowSumPascal(n: nat, m: nat)
    requires n >= 1 && m >= 1
    ensures RowSum(n, m) == RowSum(n - 1, m) + RowSum(n - 1, m - 1)
  {
    assert Binom(n, m) == Binom(n - 1, m - 1) + Binom(n - 1, m);
    if m > 1 {
      RowSumPascal(n, m - 1);
      assert RowSum(n - 1, m - 1) == RowSum(n - 1, m - 2) + Binom(n - 1, m - 1);
    }
  }

  lemma {:induction false} BinomAbove(n: nat, k: nat)
    requires k > n
    ensures Binom(n, k) == 0
  {
    if n > 0 {
      BinomAbove(n - 1, k - 1);
      BinomAbove(n - 1, k);
    }
  }

  /** A whole row of binomial coefficients sums to 2^n. */
  lemma {:induction false} RowSumPow2(n: nat)
    ensures RowSum(n, n) == Pow2(n)
  {
    if n > 0 {
      RowSumPascal(n, n);
      BinomAbove(n - 1, n);
      RowSumPow2(n - 1);
    }
  }

  /** load_combinations lists the 2^n - 1 non-empty combinations of n positions. */
  lemma {:induction false} AllCombinationsCount(n: nat)
    ensures |BySize(n, n)| == Pow2(n) - 1
  {
    BySizeCount(n, n);
    RowSumPow2(n);
  }

  /** Nine resistors give 511 combinations. */
  lemma {:induction false} NineResistorCombinations(n: nat)
    requires n == 9
    ensures |BySize(n, n)| == 511
  {
    AllCombinationsCount(n);
    NineDoublings(n);
  }

  lemma {:induction false} NineDoublings(n: nat)
    requires n == 9
    ensures Pow2(n) == 512
  {
    assert Pow2(9) == 512;
  }

  /** The positions lo..hi-1 in increasing order. */
  function Range(lo: int, hi: int): (r: seq<int>)
    requires lo <= hi
    ensures |r| == hi - lo && forall i :: 0 <= i < hi - lo ==> r[i] == lo + i
  {
    seq(hi - lo, i => lo + i)
  }

  /** Choosing all of the positions lo..hi-1 gives the one combination holding all of them. */
  lemma {:induction false} ChooseAll(lo: int, hi: int)
    requires lo <= hi
    ensures Choose(lo, hi, hi - lo) == [Range(lo, hi)]
    decreases hi - lo
  {
    if lo < hi {
      ChooseAll(lo + 1, hi);
      ChooseCount(lo + 1, hi, hi - lo);
      BinomAbove(hi - lo - 1, hi - lo);
      assert [lo] + Range(lo + 1, hi) == Range(lo, hi);
    }
  }

  /** The last combination load_combinations lists is the one of all n positions. */
  lemma {:induction false} LastCombination(n: nat)
    requires n >= 1
    ensures |BySize(n, n)| >= 1 && BySize(n, n)[|BySize(n, n)| - 1] == Range(0, n)
  {
    ChooseAll(0, n);
  }

  /** The switch settings of a combination of n switches: switch i is on exactly when position i is in it. */
  function Switches(c: seq<int>, n: nat): (on: seq<bool>)
    ensures |on| == n && forall i :: 0 <= i < n ==> (on[i] <==> i in c)
  {
    seq(n, i => i in c)
  }
}
