/**
 * The parallel resistor puzzle: nine resistors with a switch each, in three
 * groups of three. Within a group the switched-on resistors are in
 * parallel; the three groups are in series. A circuit is complete when every
 * group has a switch on. Resistances are exact reals here.
 */
module ResistorParallel {
  import opened Decimal
  import opened Combinatorics

  /** RESISTOR_VALUES in ohms; positions 0-2, 3-5 and 6-8 form the three groups. */
  const ResistorValues: seq<real> := [1000.0, 1100.0, 1300.0, 2000.0, 2100.0, 2300.0, 3000.0, 3300.0, 3500.0]

  const ResistorCount := |ResistorValues|

  /** What main shows on every display while the circuit is open. */
  const OpenLoopText := "0000"

  /** Every resistor is at least 1000 ohms. */
  lemma {:induction false} ResistorsPositive()
    ensures forall i :: 0 <= i < ResistorCount ==> ResistorValues[i] >= 1000.0
  {
  }

  /** 1/R of resistor j. */
  function Reciprocal(j: int): (r: real)
    requires 0 <= j < ResistorCount
    ensures r > 0.0
  {
    ResistorsPositive();
    1.0 / ResistorValues[j]
  }

  /** The sum of 1/R over the switched-on resistors at lo..hi-1. */
  function Conductance(on: seq<bool>, lo: int, hi: int): (r: real)
    requires |on| == ResistorCount && 0 <= lo <= hi <= ResistorCount
    decreases hi - lo
  {
    if lo == hi then 0.0
    else Conductance(on, lo, hi - 1) + (if on[hi - 1] then Reciprocal(hi - 1) else 0.0)
  }

  /** Group g (0, 1 or 2) has a switch on. */
  predicate GroupOn(on: seq<bool>, g: int)
    requires |on| == ResistorCount && 0 <= g < 3
  {
    on[3 * g] || on[3 * g + 1] || on[3 * g + 2]
  }

  /** The condition of main and of the filter of load_combinations: every group has a switch on. */
  predicate Complete(on: seq<bool>)
    requires |on| == ResistorCount
  {
    GroupOn(on, 0) && GroupOn(on, 1) && GroupOn(on, 2)
  }

  /** Sums of 1/R are never negative, and a switched-on resistor counts toward them. */
  lemma {:induction false} ConductanceBound(on: seq<bool>, lo: int, hi: int, j: int)
    requires |on| == ResistorCount && 0 <= lo <= hi <= ResistorCount
    ensures Conductance(on, lo, hi) >= 0.0
    ensures lo <= j < hi && on[j] ==> Conductance(on, lo, hi) >= Reciprocal(j)
    decreases hi - lo
  {
    ResistorsPositive();
    if lo < hi {
      ConductanceBound(on, lo, hi - 1, j);
    }
  }

  /** The parallel resistance of group g: the reciprocal of its sum of 1/R. */
  function GroupImpedance(on: seq<bool>, g: int): real
    requires |on| == ResistorCount && 0 <= g < 3 && GroupOn(on, g)
  {
    var j := if on[3 * g] then 3 * g else if on[3 * g + 1] then 3 * g + 1 else 3 * g + 2;
    ConductanceBound(on, 3 * g, 3 * g + 3, j);
    1.0 / Conductance(on, 3 * g, 3 * g + 3)
  }

  /** The resistance of the whole circuit: the three groups in series. */
  function EquivalentImpedance(on: seq<bool>): real
    requires |on| == ResistorCount && Complete(on)
  {
    GroupImpedance(on, 0) + GroupImpedance(on, 1) + GroupImpedance(on, 2)
  }

  /**
   * The parallel resistance of a group is positive and at most each of its
   * switched-on resistors.
   */
  lemma {:induction false} GroupImpedanceBound(on: seq<bool>, g: int, j: int)
    requires |on| == ResistorCount && 0 <= g < 3 && GroupOn(on, g)
    requires 3 * g <= j < 3 * g + 3 && on[j]
    ensures 0.0 < GroupImpedance(on, g) <= ResistorValues[j]
  {
    ConductanceBound(on, 3 * g, 3 * g + 3, j);
    ResistorsPositive();
    var x, r := Conductance(on, 3 * g, 3 * g + 3), ResistorValues[j];
    assert x * r >= 1.0 by {
      assert x >= Reciprocal(j) == 1.0 / r;
      assert x * r >= (1.0 / r) * r;
    }
    ReciprocalAtMost(x, r);
  }

  lemma {:induction false} ReciprocalAtMost(x: real, r: real)
    requires x > 0.0 && r > 0.0 && x * r >= 1.0
    ensures 0.0 < 1.0 / x <= r
  {
    assert (1.0 / x) * x == 1.0;
    assert 1.0 / x <= (1.0 / x) * (x * r);
  }

  /** The list load_combinations keeps: the index combinations that make a complete circuit, in order. */
  function KeepComplete(cs: seq<seq<int>>): seq<seq<int>> {
    if cs == [] then []
    else
      var last := cs[|cs| - 1];
      KeepComplete(cs[..|cs| - 1]) + (if Complete(Switches(last, ResistorCount)) then [last] else [])
  }

  /** A combination is kept exactly when it is listed and makes a complete circuit. */
  lemma {:induction false} KeepCompleteMembers(cs: seq<seq<int>>, c: seq<int>)
    ensures c in KeepComplete(cs) <==> c in cs && Complete(Switches(c, ResistorCount))
  {
    if cs != [] {
      var init := cs[..|cs| - 1];
      KeepCompleteMembers(init, c);
      assert cs == init + [cs[|cs| - 1]];
    }
  }

  /** The sums of 1/R of the three groups after the resistors 0..j-1 have been looked at. */
  function PartialConductances(on: seq<bool>, j: int): (r: seq<real>)
    requires |on| == ResistorCount && 0 <= j <= ResistorCount
    ensures |r| == 3
  {
    [Conductance(on, 0, Clamp(j, 0, 3)), Conductance(on, 3, Clamp(j, 3, 6)), Conductance(on, 6, Clamp(j, 6, 9))]
  }

  function Clamp(j: int, lo: int, hi: int): int {
    if j < lo then lo else if j > hi then hi else j
  }

  /**
   * load_combinations: for every complete circuit among the non-empty
   * combinations of the resistors (the smaller ones first), its resistance.
   */
  method LoadCombinations() returns (equivalentImpedance: seq<real>)
    ensures var kept := KeepComplete(BySize(ResistorCount, ResistorCount));
            |equivalentImpedance| == |kept| &&
            forall t :: 0 <= t < |kept| ==>
              Complete(Switches(kept[t], ResistorCount)) &&
              equivalentImpedance[t] == EquivalentImpedance(Switches(kept[t], ResistorCount))
  {
    var indexCombinations: seq<seq<int>> := [];
    for i := 0 to ResistorCount
      invariant indexCombinations == BySize(ResistorCount, i)
    {
      indexCombinations := indexCombinations + Choose(0, ResistorCount, i + 1);
    }
    equivalentImpedance := ImpedancesOf(indexCombinations);
  }

  /** The part of load_combinations after the combinations are listed. */
  method ImpedancesOf(indexCombinations: seq<seq<int>>) returns (equivalentImpedance: seq<real>)
    ensures var kept := KeepComplete(indexCombinations);
            |equivalentImpedance| == |kept| &&
            forall t :: 0 <= t < |kept| ==>
              Complete(Switches(kept[t], ResistorCount)) &&
              equivalentImpedance[t] == EquivalentImpedance(Switches(kept[t], ResistorCount))
  {
    var reciprocals := seq(ResistorCount, i requires 0 <= i < ResistorCount => Reciprocal(i));
    var reciprocalImpedance := ReciprocalImpedances(indexCombinations, reciprocals);
    var impedance, kept := CompleteCircuits(indexCombinations, reciprocalImpedance);
    equivalentImpedance := seq(|impedance|, _ => 0.0);
    for i := 0 to |impedance|
      invariant |equivalentImpedance| == |impedance|
      invariant forall t :: 0 <= t < i ==> equivalentImpedance[t] == EquivalentImpedance(Switches(kept[t], ResistorCount))
    {
      // sum() of the three group resistances
      equivalentImpedance := equivalentImpedance[i := impedance[i][0] + impedance[i][1] + impedance[i][2]];
    }
  }

  /**
   * The filter loop of load_combinations: the combinations with a switch on
   * in every group, and the resistances of their three groups.
   */
  method CompleteCircuits(indexCombinations: seq<seq<int>>, reciprocalImpedance: seq<seq<real>>)
    returns (impedance: seq<seq<real>>, kept: seq<seq<int>>)
    requires |reciprocalImpedance| == |indexCombinations|
    requires forall i :: 0 <= i < |indexCombinations| ==>
               reciprocalImpedance[i] == PartialConductances(Switches(indexCombinations[i], ResistorCount), ResistorCount)
    ensures kept == KeepComplete(indexCombinations)
    ensures |impedance| == |kept|
    ensures forall t :: 0 <= t < |kept| ==>
              Complete(Switches(kept[t], ResistorCount)) &&
              impedance[t] == GroupImpedances(Switches(kept[t], ResistorCount))
  {
    var n := |indexCombinations|;
    impedance, kept := [], [];
    for i := 0 to n
      invariant kept == KeepComplete(indexCombinations[..i])
      invariant |impedance| == |kept|
      invariant forall t :: 0 <= t < |kept| ==>
                  Complete(Switches(kept[t], ResistorCount)) &&
                  impedance[t] == GroupImpedances(Switches(kept[t], ResistorCount))
    {
      var c := indexCombinations[i];
      var on := Switches(c, ResistorCount);
      assert indexCombinations[..i + 1] == indexCombinations[..i] + [c];
      CompleteByIndexes(c);
      if (0 in c || 1 in c || 2 in c) && (3 in c || 4 in c || 5 in c) && (6 in c || 7 in c || 8 in c) {
        var rTemp := InvertGroups(on, reciprocalImpedance[i]);
        impedance := impedance + [rTemp];
        kept := kept + [c];
      }
    }
    assert indexCombinations[..n] == indexCombinations;
  }

  /** The test load_combinations applies to a combination is Complete of its switches. */
  lemma {:induction false} CompleteByIndexes(c: seq<int>)
    ensures Complete(Switches(c, ResistorCount)) <==>
              (0 in c || 1 in c || 2 in c) && (3 in c || 4 in c || 5 in c) && (6 in c || 7 in c || 8 in c)
  {
    var on := Switches(c, ResistorCount);
    assert on[0] == (0 in c) && on[1] == (1 in c) && on[2] == (2 in c);
    assert on[3] == (3 in c) && on[4] == (4 in c) && on[5] == (5 in c);
    assert on[6] == (6 in c) && on[7] == (7 in c) && on[8] == (8 in c);
  }

  /** The inner loop of the filter: the resistance of each group is the reciprocal of its sum of 1/R. */
  method InvertGroups(on: seq<bool>, reciprocal: seq<real>) returns (rTemp: seq<real>)
    requires |on| == ResistorCount && Complete(on)
    requires reciprocal == PartialConductances(on, ResistorCount)
    ensures rTemp == GroupImpedances(on)
  {
    rTemp := [0.0, 0.0, 0.0];
    for j := 0 to 3
      invariant |rTemp| == 3
      invariant forall g :: 0 <= g < j ==> rTemp[g] == GroupImpedance(on, g)
    {
      GroupConductance(on, j);
      rTemp := rTemp[j := 1.0 / reciprocal[j]];
    }
  }

  /** Entry g of the group sums is the sum of 1/R over group g, and the group's resistance is its reciprocal. */
  lemma {:induction false} GroupConductance(on: seq<bool>, g: int)
    requires |on| == ResistorCount && 0 <= g < 3
    ensures PartialConductances(on, ResistorCount)[g] == Conductance(on, 3 * g, 3 * g + 3)
    ensures GroupOn(on, g) ==>
              Conductance(on, 3 * g, 3 * g + 3) > 0.0 && GroupImpedance(on, g) == 1.0 / Conductance(on, 3 * g, 3 * g + 3)
  {
    if GroupOn(on, g) {
      ConductanceBound(on, 3 * g, 3 * g + 3, if on[3 * g] then 3 * g else if on[3 * g + 1] then 3 * g + 1 else 3 * g + 2);
    }
  }

  /** The resistances of the three groups of a complete circuit. */
  function GroupImpedances(on: seq<bool>): seq<real>
    requires |on| == ResistorCount && Complete(on)
  {
    [GroupImpedance(on, 0), GroupImpedance(on, 1), GroupImpedance(on, 2)]
  }

  /**
   * The loops of load_combinations that fill reciprocal_impedance: for each
   * combination and each resistor in it, 1/R is added to the entry of the
   * resistor's group.
   */
  method ReciprocalImpedances(indexCombinations: seq<seq<int>>, reciprocals: seq<real>) returns (reciprocalImpedance: seq<seq<real>>)
    requires |reciprocals| == ResistorCount
    requires forall j :: 0 <= j < ResistorCount ==> reciprocals[j] == Reciprocal(j)
    ensures |reciprocalImpedance| == |indexCombinations|
    ensures forall i :: 0 <= i < |indexCombinations| ==>
              reciprocalImpedance[i] == PartialConductances(Switches(indexCombinations[i], ResistorCount), ResistorCount)
  {
    var n := |indexCombinations|;
    reciprocalImpedance := seq(n, _ => [0.0, 0.0, 0.0]);
    for i := 0 to n
      invariant |reciprocalImpedance| == n
      invariant forall t :: 0 <= t < i ==>
                  reciprocalImpedance[t] == PartialConductances(Switches(indexCombinations[t], ResistorCount), ResistorCount)
      invariant forall t :: i <= t < n ==> reciprocalImpedance[t] == [0.0, 0.0, 0.0]
    {
      var row := CombinationConductances(indexCombinations[i], reciprocals, reciprocalImpedance[i]);
      reciprocalImpedance := reciprocalImpedance[i := row];
    }
  }

  /** The inner loop for one combination c: 1/R of each resistor in c is added to its group's entry. */
  method CombinationConductances(c: seq<int>, reciprocals: seq<real>, start: seq<real>) returns (row: seq<real>)
    requires |reciprocals| == ResistorCount
    requires forall j :: 0 <= j < ResistorCount ==> reciprocals[j] == Reciprocal(j)
    requires start == [0.0, 0.0, 0.0]
    ensures row == PartialConductances(Switches(c, ResistorCount), ResistorCount)
  {
    var on := Switches(c, ResistorCount);
    row := start;
    for j := 0 to ResistorCount
      invariant row == PartialConductances(on, j)
    {
      if j in c {
        // int(j / 3): the group of resistor j
        var g := j / 3;
        row := row[g := row[g] + reciprocals[j]];
      }
    }
  }

  /** A combination is kept exactly when it is a non-empty combination of the nine positions with every group switched on. */
  lemma {:induction false} KeptExactly(c: seq<int>)
    ensures c in KeepComplete(BySize(ResistorCount, ResistorCount)) <==>
              1 <= |c| && IsCombination(c, 0, ResistorCount, |c|) && Complete(Switches(c, ResistorCount))
  {
    KeepCompleteMembers(BySize(ResistorCount, ResistorCount), c);
    BySizeOrdered(ResistorCount, ResistorCount);
    if 1 <= |c| && IsCombination(c, 0, ResistorCount, |c|) {
      IncreasingLength(c, 0, ResistorCount);
      BySizeComplete(ResistorCount, ResistorCount, c);
    }
  }

  /** What the group displays show for a complete circuit: int() of each group's resistance. */
  function DisplayedGroups(on: seq<bool>): (r: seq<int>)
    requires |on| == ResistorCount && Complete(on)
    ensures |r| == 3
  {
    [Trunc(GroupImpedance(on, 0)), Trunc(GroupImpedance(on, 1)), Trunc(GroupImpedance(on, 2))]
  }

  /** What the actual display shows for a complete circuit: the sum of the group displays. */
  function DisplayedTotal(on: seq<bool>): int
    requires |on| == ResistorCount && Complete(on)
  {
    var r := DisplayedGroups(on);
    r[0] + r[1] + r[2]
  }

  /**
   * One pass of the loop of main: for a complete circuit, each group's
   * resistance cut to an integer and their sum, shown on the group displays
   * and the actual display (in that order in `shown`); otherwise "0000" on
   * all four.
   */
  method Evaluate(switchStates: seq<bool>) returns (resistance: seq<int>, shown: seq<string>)
    requires |switchStates| == ResistorCount
    ensures Complete(switchStates) ==>
              resistance == DisplayedGroups(switchStates) &&
              shown == [IntToString(resistance[0]), IntToString(resistance[1]), IntToString(resistance[2]),
                        IntToString(DisplayedTotal(switchStates))]
    ensures !Complete(switchStates) ==>
              resistance == [0, 0, 0] && shown == [OpenLoopText, OpenLoopText, OpenLoopText, OpenLoopText]
  {
    var on := switchStates;
    resistance := [0, 0, 0];
    if (on[0] || on[1] || on[2]) && (on[3] || on[4] || on[5]) && (on[6] || on[7] || on[8]) {
      assert Complete(on);
      resistance := TruncatedGroups(on, resistance);
      var actual := resistance[0] + resistance[1] + resistance[2];
      assert actual == DisplayedTotal(on);
      shown := [IntToString(resistance[0]), IntToString(resistance[1]), IntToString(resistance[2]), IntToString(actual)];
    } else {
      shown := [OpenLoopText, OpenLoopText, OpenLoopText, OpenLoopText];
    }
  }

  /** The loop of main over the three groups: int() of the reciprocal of each group's sum of 1/R. */
  method TruncatedGroups(on: seq<bool>, start: seq<int>) returns (resistance: seq<int>)
    requires |on| == ResistorCount && Complete(on) && |start| == 3
    ensures resistance == DisplayedGroups(on)
  {
    var conductance := GroupConductances(on);
    resistance := start;
    for i := 0 to 3
      invariant |resistance| == 3
      invariant forall g :: 0 <= g < i ==> resistance[g] == Trunc(GroupImpedance(on, g))
    {
      GroupConductance(on, i);
      resistance := resistance[i := Trunc(1.0 / conductance[i])];
    }
  }

  /** The three loops of main that add 1/R of each switched-on resistor to its group. */
  method GroupConductances(on: seq<bool>) returns (conductance: seq<real>)
    requires |on| == ResistorCount
    ensures conductance == PartialConductances(on, ResistorCount)
  {
    conductance := [0.0, 0.0, 0.0];
    for i := 0 to 3
      invariant conductance == [Conductance(on, 0, i), 0.0, 0.0]
    {
      if on[i] {
        conductance := conductance[0 := conductance[0] + Reciprocal(i)];
      }
    }
    for i := 3 to 6
      invariant conductance == [Conductance(on, 0, 3), Conductance(on, 3, i), 0.0]
    {
      if on[i] {
        conductance := conductance[1 := conductance[1] + Reciprocal(i)];
      }
    }
    for i := 6 to 9
      invariant conductance == [Conductance(on, 0, 3), Conductance(on, 3, 6), Conductance(on, 6, i)]
    {
      if on[i] {
        conductance := conductance[2 := conductance[2] + Reciprocal(i)];
      }
    }
  }

  /**
   * The goal main sets is int() of a circuit's exact resistance, while the
   * actual display adds up int() of each group: for the same switches the
   * goal is the displayed total or up to 2 more.
   */
  lemma {:induction false} GoalAgainstDisplay(on: seq<bool>)
    requires |on| == ResistorCount && Complete(on)
    ensures DisplayedTotal(on) <= Trunc(EquivalentImpedance(on)) <= DisplayedTotal(on) + 2
  {
    GroupImpedanceBound(on, 0, if on[0] then 0 else if on[1] then 1 else 2);
    GroupImpedanceBound(on, 1, if on[3] then 3 else if on[4] then 4 else 5);
    GroupImpedanceBound(on, 2, if on[6] then 6 else if on[7] then 7 else 8);
    var a, b, c := GroupImpedance(on, 0), GroupImpedance(on, 1), GroupImpedance(on, 2);
    var x := a + b + c;
    var n := Trunc(x);
    var m := Trunc(a) + Trunc(b) + Trunc(c);
    assert (m as real) <= x < (m as real) + 3.0;
    assert (n as real) <= x < (n as real) + 1.0;
  }

  /** The switches 0, 1, 3, 4 and 6: the groups are 11000/21, 42000/41 and 3000 ohms. */
  lemma {:induction false} ExampleGroups(on: seq<bool>)
    requires on == Switches([0, 1, 3, 4, 6], ResistorCount)
    ensures Complete(on)
    ensures GroupImpedance(on, 0) == 11000.0 / 21.0
    ensures GroupImpedance(on, 1) == 42000.0 / 41.0
    ensures GroupImpedance(on, 2) == 3000.0
  {
    assert on[0] && on[1] && !on[2] && on[3] && on[4] && !on[5] && on[6] && !on[7] && !on[8];
    assert Conductance(on, 0, 3) == 21.0 / 11000.0;
    assert Conductance(on, 3, 6) == 41.0 / 42000.0;
    assert Conductance(on, 6, 9) == 1.0 / 3000.0;
  }

  /**
   * With switches 0, 1, 3, 4 and 6 on, the goal load_combinations and main
   * derive is 4548 but the actual display shows 523 + 1024 + 3000 = 4547.
   */
  lemma {:induction false} GoalNotShown(on: seq<bool>)
    requires on == Switches([0, 1, 3, 4, 6], ResistorCount)
    ensures Complete(on) && Trunc(EquivalentImpedance(on)) == 4548 && DisplayedTotal(on) == 4547
  {
    ExampleGroups(on);
    var a, b := 11000.0 / 21.0, 42000.0 / 41.0;
    assert 523.0 <= a < 524.0;
    assert 1024.0 <= b < 1025.0;
    assert Trunc(a) == 523 && Trunc(b) == 1024 && Trunc(3000.0) == 3000;
    assert 4548.0 <= a + b + 3000.0 < 4549.0;
  }
}
