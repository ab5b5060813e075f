/**
 * The series resistor puzzle: nine resistors with a switch each, in three
 * groups of three. The goal is the total of one combination of resistors;
 * the displays show each group's total and their sum for the switches as set.
 */
module ResistorSimple {
  import opened Wrappers
  import opened Combinatorics

  /** RESISTOR_VALUES in ohms; positions 0-2, 3-5 and 6-8 form the three groups. */
  const ResistorValues: seq<int> := [10, 30, 50, 100, 300, 500, 1000, 3000, 5000]

  const ResistorCount := |ResistorValues|

  /** Python's sum(). */
  function Sum(xs: seq<int>): int {
    if xs == [] then 0 else Sum(xs[..|xs| - 1]) + xs[|xs| - 1]
  }

  /** combinations(values, k): the values at the positions of each k-element combination. */
  function Combinations(values: seq<int>, k: nat): (r: seq<seq<int>>)
    ensures |r| == |Choose(0, |values|, k)|
    ensures forall j :: 0 <= j < |r| ==> IsCombination(Choose(0, |values|, k)[j], 0, |values|, k)
  {
    var cs := Choose(0, |values|, k);
    ChooseSound(0, |values|, k);
    seq(|cs|, j requires 0 <= j < |cs| => Pick(values, cs[j]))
  }

  /** The list load_combinations extends: combinations of sizes 1 to m. */
  function ValuesBySize(values: seq<int>, m: nat): (r: seq<seq<int>>)
    ensures |r| == |BySize(|values|, m)|
  {
    if m == 0 then [] else ValuesBySize(values, m - 1) + Combinations(values, m)
  }

  /** The sum of every combination, in list order. */
  function Totals(combinations: seq<seq<int>>): (r: seq<int>)
    ensures |r| == |combinations|
  {
    seq(|combinations|, i requires 0 <= i < |combinations| => Sum(combinations[i]))
  }

  /**
   * load_combinations: every non-empty combination of the resistors, the
   * smaller ones first, each entry the sum of its resistors.
   */
  method LoadCombinations() returns (equivalentImpedance: seq<int>)
    ensures equivalentImpedance == Totals(ValuesBySize(ResistorValues, ResistorCount))
  {
    var resistorCombinations: seq<seq<int>> := [];
    for i := 0 to ResistorCount
      invariant resistorCombinations == ValuesBySize(ResistorValues, i)
    {
      resistorCombinations := resistorCombinations + Combinations(ResistorValues, i + 1);
    }
    equivalentImpedance := seq(|resistorCombinations|, _ => 0);
    for i := 0 to |resistorCombinations|
      invariant |equivalentImpedance| == |resistorCombinations|
      invariant forall j :: 0 <= j < i ==> equivalentImpedance[j] == Sum(resistorCombinations[j])
    {
      equivalentImpedance := equivalentImpedance[i := Sum(resistorCombinations[i])];
    }
  }

  /** set_goal: an entry of the list, chosen at random; random.choice raises on an empty list. */
  method SetGoal<T>(combos: seq<T>) returns (goal: Option<T>)
    ensures goal.Some? <==> |combos| > 0
    ensures goal.Some? ==> goal.value in combos
  {
    if |combos| == 0 {
      return None;
    }
    var i :| 0 <= i < |combos|;
    goal := Some(combos[i]);
  }

  /** The total of the resistors at lo..hi-1 whose switch is on. */
  function SwitchedSum(on: seq<bool>, lo: int, hi: int): int
    requires |on| == ResistorCount && 0 <= lo <= hi <= ResistorCount
    decreases hi - lo
  {
    if lo == hi then 0 else SwitchedSum(on, lo, hi - 1) + (if on[hi - 1] then ResistorValues[hi - 1] else 0)
  }

  /** The total of group g (0, 1 or 2) for the switches as set. */
  function GroupSum(on: seq<bool>, g: int): int
    requires |on| == ResistorCount && 0 <= g < 3
  {
    SwitchedSum(on, 3 * g, 3 * g + 3)
  }

  /**
   * The group totals and their sum in main: each switched-on resistor adds
   * its value to its group, and the sum is the total of every switched-on
   * resistor.
   */
  method GroupSums(switchStates: seq<bool>) returns (resistance: seq<int>, actual: int)
    requires |switchStates| == ResistorCount
    ensures |resistance| == 3
    ensures forall g :: 0 <= g < 3 ==> resistance[g] == GroupSum(switchStates, g)
    ensures actual == SwitchedSum(switchStates, 0, ResistorCount)
  {
    resistance := [0, 0, 0];
    for i := 0 to 3
      invariant resistance == [SwitchedSum(switchStates, 0, i), 0, 0]
    {
      if switchStates[i] {
        resistance := resistance[0 := resistance[0] + ResistorValues[i]];
      }
    }
    for i := 3 to 6
      invariant resistance == [GroupSum(switchStates, 0), SwitchedSum(switchStates, 3, i), 0]
    {
      if switchStates[i] {
        resistance := resistance[1 := resistance[1] + ResistorValues[i]];
      }
    }
    for i := 6 to 9
      invariant resistance == [GroupSum(switchStates, 0), GroupSum(switchStates, 1), SwitchedSum(switchStates, 6, i)]
    {
      if switchStates[i] {
        resistance := resistance[2 := resistance[2] + ResistorValues[i]];
      }
    }
    actual := Sum(resistance);
    SumOfThree(resistance[0], resistance[1], resistance[2]);
    GroupsAddUp(switchStates);
  }

  lemma {:induction false} SumOfThree(a: int, b: int, c: int)
    ensures Sum([a, b, c]) == a + b + c
  {
    assert [a][..0] == [];
    assert Sum([a]) == a;
    assert [a, b][..1] == [a];
    assert Sum([a, b]) == a + b;
    assert [a, b, c][..2] == [a, b];
  }

  /** Sums over two adjacent ranges add up to the sum over both. */
  lemma {:induction false} SwitchedSumSplit(on: seq<bool>, lo: int, mid: int, hi: int)
    requires |on| == ResistorCount && 0 <= lo <= mid <= hi <= ResistorCount
    ensures SwitchedSum(on, lo, hi) == SwitchedSum(on, lo, mid) + SwitchedSum(on, mid, hi)
    decreases hi - mid
  {
    if mid < hi {
      SwitchedSumSplit(on, lo, mid, hi - 1);
    }
  }

  /** The three group totals add up to the total of all switched-on resistors. */
  lemma {:induction false} GroupsAddUp(on: seq<bool>)
    requires |on| == ResistorCount
    ensures GroupSum(on, 0) + GroupSum(on, 1) + GroupSum(on, 2) == SwitchedSum(on, 0, ResistorCount)
  {
    SwitchedSumSplit(on, 0, 3, 9);
    SwitchedSumSplit(on, 3, 6, 9);
  }

  /** With every switch off, every display reads 0. */
  lemma {:induction false} AllOffReadsZero(on: seq<bool>)
    requires |on| == ResistorCount && forall i :: 0 <= i < ResistorCount ==> !on[i]
    ensures SwitchedSum(on, 0, ResistorCount) == 0
    ensures GroupSum(on, 0) == 0 && GroupSum(on, 1) == 0 && GroupSum(on, 2) == 0
  {
    ZeroSum(on, 0, 9);
    ZeroSum(on, 0, 3);
    ZeroSum(on, 3, 6);
    ZeroSum(on, 6, 9);
  }

  lemma {:induction false} ZeroSum(on: seq<bool>, lo: int, hi: int)
    requires |on| == ResistorCount && 0 <= lo <= hi <= ResistorCount
    requires forall i :: lo <= i < hi ==> !on[i]
    ensures SwitchedSum(on, lo, hi) == 0
    decreases hi - lo
  {
    if lo < hi {
      ZeroSum(on, lo, hi - 1);
    }
  }

  /**
   * The sum of the resistors at the positions of a combination is the total
   * of the switched-on resistors when exactly those switches are on.
   */
  lemma {:induction false} CombinationSum(on: seq<bool>, c: seq<int>, hi: int)
    requires |on| == ResistorCount && 0 <= hi <= ResistorCount
    requires Increasing(c) && Within(c, 0, hi)
    requires forall i :: 0 <= i < hi ==> (on[i] <==> i in c)
    ensures SwitchedSum(on, 0, hi) == Sum(Pick(ResistorValues, c))
    decreases hi
  {
    if hi == 0 {
      IncreasingLength(c, 0, 0);
    } else if on[hi - 1] {
      var init := c[..|c| - 1];
      DropLast(c, hi);
      CombinationSum(on, init, hi - 1);
      PickLast(ResistorValues, c);
    } else {
      assert Within(c, 0, hi - 1) by {
        forall x | 0 <= x < |c|
          ensures c[x] < hi - 1
        {
          assert c[x] != hi - 1;
        }
      }
      CombinationSum(on, c, hi - 1);
    }
  }

  /**
   * An increasing combination of positions below hi that holds hi - 1 ends
   * with it, and the rest of it is a combination of the positions below hi - 1.
   */
  lemma {:induction false} DropLast(c: seq<int>, hi: int)
    requires Increasing(c) && Within(c, 0, hi) && hi - 1 in c
    ensures |c| >= 1 && c[|c| - 1] == hi - 1
    ensures var init := c[..|c| - 1];
            Increasing(init) && Within(init, 0, hi - 1) &&
            forall i :: 0 <= i < hi - 1 ==> (i in c <==> i in init)
  {
    var k := |c| - 1;
    var t :| 0 <= t < |c| && c[t] == hi - 1;
    assert c[k] == hi - 1;
    var init := c[..k];
    assert c == init + [c[k]];
    assert Within(init, 0, hi - 1) by {
      forall x | 0 <= x < |init|
        ensures init[x] < hi - 1
      {
        assert init[x] == c[x] < c[k];
      }
    }
  }

  /** Picking a non-empty combination is picking all but its last position, then the last. */
  lemma {:induction false} PickLast(values: seq<int>, c: seq<int>)
    requires Within(c, 0, |values|) && |c| >= 1
    ensures Within(c[..|c| - 1], 0, |values|)
    ensures Sum(Pick(values, c)) == Sum(Pick(values, c[..|c| - 1])) + values[c[|c| - 1]]
  {
    var p := Pick(values, c);
    assert p[..|p| - 1] == Pick(values, c[..|c| - 1]);
  }

  /** Entry i of the list built from sizes 1..m is the combination at position i of BySize. */
  lemma {:induction false} ValuesBySizePick(values: seq<int>, m: nat)
    ensures |ValuesBySize(values, m)| == |BySize(|values|, m)|
    ensures forall i :: 0 <= i < |BySize(|values|, m)| ==>
              Within(BySize(|values|, m)[i], 0, |values|) &&
              ValuesBySize(values, m)[i] == Pick(values, BySize(|values|, m)[i])
  {
    BySizeOrdered(|values|, m);
    if m > 0 {
      ValuesBySizePick(values, m - 1);
      var a, b := ValuesBySize(values, m - 1), Combinations(values, m);
      var c, d := BySize(|values|, m - 1), Choose(0, |values|, m);
      forall i | 0 <= i < |c + d|
        ensures (a + b)[i] == Pick(values, (c + d)[i])
      {
        if i >= |c| {
          assert (a + b)[i] == b[i - |c|] && (c + d)[i] == d[i - |c|];
        }
      }
    }
  }

  /**
   * Every goal can be reached: entry i of load_combinations is what the
   * displays add up to when exactly the switches of combination i are on.
   */
  lemma {:induction false} EveryGoalReachable(i: int)
    requires 0 <= i < |Totals(ValuesBySize(ResistorValues, ResistorCount))|
    ensures var on := Switches(BySize(ResistorCount, ResistorCount)[i], ResistorCount);
            GroupSum(on, 0) + GroupSum(on, 1) + GroupSum(on, 2) == Totals(ValuesBySize(ResistorValues, ResistorCount))[i]
  {
    ValuesBySizePick(ResistorValues, ResistorCount);
    BySizeOrdered(ResistorCount, ResistorCount);
    var c := BySize(ResistorCount, ResistorCount)[i];
    var on := Switches(c, ResistorCount);
    CombinationSum(on, c, ResistorCount);
    GroupsAddUp(on);
  }

  /** The combined resistance of the resistors at lo..hi-1 when all of them are on. */
  lemma {:induction false} SwitchedSumAtMost(on: seq<bool>, hi: int)
    requires |on| == ResistorCount && 0 <= hi <= ResistorCount
    ensures 0 <= SwitchedSum(on, 0, hi) <= SwitchedSum(seq(ResistorCount, _ => true), 0, hi)
  {
    if hi > 0 {
      SwitchedSumAtMost(on, hi - 1);
    }
  }

  /** A switched-on resistor counts toward the total. */
  lemma {:induction false} SwitchedSumAtLeast(on: seq<bool>, hi: int, j: int)
    requires |on| == ResistorCount && 0 <= j < hi <= ResistorCount && on[j]
    ensures SwitchedSum(on, 0, hi) >= ResistorValues[j]
  {
    SwitchedSumAtMost(on, hi - 1);
    if j < hi - 1 {
      SwitchedSumAtLeast(on, hi - 1, j);
    }
  }

  /** All nine resistors switched on add up to 9990. */
  lemma {:induction false} AllOnTotal()
    ensures SwitchedSum(seq(ResistorCount, _ => true), 0, ResistorCount) == 9990
  {
    var on := seq(ResistorCount, _ => true);
    assert SwitchedSum(on, 0, 1) == 10;
    assert SwitchedSum(on, 0, 2) == 40;
    assert SwitchedSum(on, 0, 3) == 90;
    assert SwitchedSum(on, 0, 4) == 190;
    assert SwitchedSum(on, 0, 5) == 490;
    assert SwitchedSum(on, 0, 6) == 990;
    assert SwitchedSum(on, 0, 7) == 1990;
    assert SwitchedSum(on, 0, 8) == 4990;
  }

  /** A non-empty combination of the resistors adds up to between 10 and 9990. */
  lemma {:induction false} CombinationInRange(c: seq<int>)
    requires IsCombination(c, 0, ResistorCount, |c|) && |c| >= 1
    ensures 10 <= Sum(Pick(ResistorValues, c)) <= 9990
  {
    var on := Switches(c, ResistorCount);
    CombinationSum(on, c, ResistorCount);
    SwitchedSumAtMost(on, ResistorCount);
    AllOnTotal();
    assert on[c[0]];
    SwitchedSumAtLeast(on, ResistorCount, c[0]);
  }

  /**
   * Every entry of load_combinations lies between the smallest resistor,
   * 10, and the sum of all nine, 9990.
   */
  lemma {:induction false} TotalsInRange(i: int)
    requires 0 <= i < |Totals(ValuesBySize(ResistorValues, ResistorCount))|
    ensures 10 <= Totals(ValuesBySize(ResistorValues, ResistorCount))[i] <= 9990
  {
    BySizeOrdered(ResistorCount, ResistorCount);
    ValuesBySizePick(ResistorValues, ResistorCount);
    CombinationInRange(BySize(ResistorCount, ResistorCount)[i]);
  }

  /** The last entry of load_combinations is the sum of all the resistors. */
  lemma {:induction false} LastTotalIsFullSum(values: seq<int>)
    requires |values| >= 1
    ensures var t := Totals(ValuesBySize(values, |values|));
            |t| >= 1 && t[|t| - 1] == Sum(Pick(values, Range(0, |values|)))
  {
    var n := |values|;
    var vs := ValuesBySize(values, n);
    LastCombination(n);
    var last := |BySize(n, n)| - 1;
    assert vs[last] == Pick(values, Range(0, n)) by {
      ValuesBySizePick(values, n);
    }
    assert Totals(vs)[last] == Sum(vs[last]);
  }

  /** For the resistors of the puzzle that is 9990. */
  lemma {:induction false} LastTotal(values: seq<int>)
    requires values == ResistorValues
    ensures var t := Totals(ValuesBySize(values, |values|));
            |t| >= 1 && t[|t| - 1] == 9990
  {
    LastTotalIsFullSum(values);
    FullSum();
  }

  /** The combination of all nine resistors adds up to 9990. */
  lemma {:induction false} FullSum()
    ensures Sum(Pick(ResistorValues, Range(0, ResistorCount))) == 9990
  {
    var all := Range(0, ResistorCount);
    var on := seq(ResistorCount, _ => true);
    assert forall i :: 0 <= i < ResistorCount ==> (on[i] <==> i in all) by {
      forall i | 0 <= i < ResistorCount
        ensures i in all
      {
        assert all[i] == i;
      }
    }
    CombinationSum(on, all, ResistorCount);
    AllOnTotal();
  }

  /** Nine resistors give 511 entries. */
  lemma {:induction false} TotalsCount(values: seq<int>)
    requires |values| == ResistorCount
    ensures |Totals(ValuesBySize(values, |values|))| == 511
  {
    ValuesBySizePick(values, |values|);
    NineResistorCombinations(|values|);
  }
}
