/**
 * The propellant readout of the console: a number of up to eight digits
 * shown across two 4-digit displays, the last four digits on the right one.
 */
module Console {
  import opened Wrappers
  import opened Decimal
  import opened DisplayDevice
  import opened SevenSegment

  /**
   * The bytes display(value) sends to the left and the right display, or
   * None where Python raises ValueError (a negative value of five to eight
   * characters, whose minus sign int() cannot read). A value of at most four
   * characters goes to the right display alone; a longer one is split before
   * its last four digits, the right part zero-filled; a value of more than
   * eight characters is not shown.
   */
  function DisplayWrites(value: int): Option<(seq<int>, seq<int>)> {
    var s := IntToString(value);
    if |s| <= 4 then Some(([], WriteIntBytes(value, " ")))
    else if |s| <= 8 then
      if !AllDigits(s) then None else Some(SplitWrites(s))
    else Some(([], []))
  }

  /**
   * The bytes for a string of five or more digits: the digits before the
   * last four, read as a number and blank-filled, to the left display; the
   * last four, read as a number and zero-filled, to the right one.
   */
  function SplitWrites(s: string): (seq<int>, seq<int>)
    requires AllDigits(s) && |s| >= 4
  {
    DigitSlices(s);
    (WriteIntBytes(ParseDigits(s[..|s| - 4]), " "), WriteIntBytes(ParseDigits(s[|s| - 4..]), "0"))
  }

  /** Both parts of a string of digits split before its last four are digits. */
  lemma {:induction false} DigitSlices(s: string)
    requires AllDigits(s) && |s| >= 4
    ensures AllDigits(s[..|s| - 4]) && AllDigits(s[|s| - 4..])
  {
    var head, tail := s[..|s| - 4], s[|s| - 4..];
    forall i | 0 <= i < |head| ensures IsDigit(head[i]) {
      assert head[i] == s[i];
    }
    forall i | 0 <= i < |tail| ensures IsDigit(tail[i]) {
      assert tail[i] == s[|s| - 4 + i];
    }
  }

  class PropellantDisplay {
    const leftDisplay: SevenSegmentDisplay
    const rightDisplay: SevenSegmentDisplay

    /** The two halves of the readout are two different displays. */
    predicate Valid() {
      leftDisplay != rightDisplay
    }

    constructor (leftAddress: int, rightAddress: int)
      ensures Valid() && fresh(leftDisplay) && fresh(rightDisplay)
      ensures leftDisplay.address == leftAddress && rightDisplay.address == rightAddress
      ensures leftDisplay.bus == [] && rightDisplay.bus == []
    {
      leftDisplay := new SevenSegmentDisplay(leftAddress);
      rightDisplay := new SevenSegmentDisplay(rightAddress);
    }

    /** display(value); `ok` is false where Python raises, and then nothing is written. */
    method Display(value: int) returns (ok: bool)
      requires Valid()
      modifies leftDisplay, rightDisplay
      ensures ok <==> DisplayWrites(value).Some?
      ensures !ok ==> leftDisplay.bus == old(leftDisplay.bus) && rightDisplay.bus == old(rightDisplay.bus)
      ensures ok ==> leftDisplay.bus == old(leftDisplay.bus) + DisplayWrites(value).value.0
      ensures ok ==> rightDisplay.bus == old(rightDisplay.bus) + DisplayWrites(value).value.1
    {
      var s := IntToString(value);
      if |s| <= 4 {
        rightDisplay.WriteInt(value, " ");
      } else if |s| <= 8 {
        if !AllDigits(s) {
          return false;
        }
        ShowSplit(s);
      }
      ok := true;
    }

    /** The split case of display: the leading digits on the left, the last four on the right. */
    method ShowSplit(s: string)
      requires Valid() && AllDigits(s) && |s| >= 4
      modifies leftDisplay, rightDisplay
      ensures leftDisplay.bus == old(leftDisplay.bus) + SplitWrites(s).0
      ensures rightDisplay.bus == old(rightDisplay.bus) + SplitWrites(s).1
    {
      DigitSlices(s);
      var rightValue := ParseDigits(s[|s| - 4..]);
      var leftValue := ParseDigits(s[..|s| - 4]);
      leftDisplay.WriteInt(leftValue, " ");
      rightDisplay.WriteInt(rightValue, "0");
    }
  }

  /**
   * display fails exactly for negative values of five to eight characters;
   * a value of five to eight digits goes out as its value div 10000 on the
   * left and its value mod 10000, zero-filled, on the right.
   */
  lemma {:induction false} DisplaySplit(value: int)
    ensures var n := |IntToString(value)|;
            DisplayWrites(value).None? <==> value < 0 && 4 < n <= 8
    ensures var n := |IntToString(value)|;
            value >= 0 && 4 < n <= 8 ==>
              DisplayWrites(value) == Some((WriteIntBytes(value / 10000, " "), WriteIntBytes(value % 10000, "0")))
  {
    var n := |IntToString(value)|;
    if value >= 0 && 4 < n <= 8 {
      SplitLastFour(value);
    }
  }

  /**
   * A value of five to eight digits, shown on two cleared displays: the two
   * displays together read str(value), right-aligned over the eight digits
   * with blanks on the left.
   */
  lemma {:induction false} DisplayShowsValue(value: int, left: Screen, right: Screen)
    requires Ready(left) && Ready(right)
    requires value >= 0 && 4 < |IntToString(value)| <= 8
    ensures |IntToString(value / 10000)| <= 4
    ensures var s := IntToString(value);
            var (l, r) := DisplayWrites(value).value;
            var leftText := Padded(IntToString(value / 10000), " ");
            var rightText := s[|s| - 4..];
            Shows(Run(left, l), leftText) && Shows(Run(right, r), rightText) &&
            leftText + rightText == Repeat(" ", 8 - |s|) + s
  {
    var s := IntToString(value);
    var l, r := WriteIntBytes(value / 10000, " "), WriteIntBytes(value % 10000, "0");
    assert DisplayWrites(value).value == (l, r) by { DisplaySplit(value); }
    HalvesOfText(value);
    assert Shows(Run(left, l), Padded(IntToString(value / 10000), " ")) by {
      WriteIntShows(left, value / 10000, " ");
    }
    assert Shows(Run(right, r), s[|s| - 4..]) by {
      WriteIntShows(right, value % 10000, "0");
    }
  }

  /**
   * The texts of the two halves of a five- to eight-digit value: the left
   * one is its leading digits, blank-filled, the right one its last four.
   */
  lemma {:induction false} HalvesOfText(value: int)
    requires value >= 0 && 4 < |IntToString(value)| <= 8
    ensures var s := IntToString(value);
            |IntToString(value / 10000)| <= 4 && |IntToString(value % 10000)| <= 4 &&
            Padded(IntToString(value % 10000), "0") == s[|s| - 4..] &&
            Padded(IntToString(value / 10000), " ") + s[|s| - 4..] == Repeat(" ", 8 - |s|) + s
  {
    DropLastFour(value);
    LastFourDigits(value);
    TextSplit(IntToString(value));
  }

  /** A value of at most four characters is shown right-aligned on the right display alone. */
  lemma {:induction false} DisplayShowsShortValue(value: int, right: Screen)
    requires Ready(right) && |IntToString(value)| <= 4
    ensures var (l, r) := DisplayWrites(value).value;
            l == [] && Shows(Run(right, r), Padded(IntToString(value), " "))
  {
    WriteIntShows(right, value, " ");
  }

  /** A value of more than eight characters leaves both displays as they were. */
  lemma {:induction false} LongValueNotShown(value: int)
    requires |IntToString(value)| > 8
    ensures DisplayWrites(value) == Some(([], []))
  {
  }
}
