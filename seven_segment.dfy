/**
 * The Python driver for one Sparkfun 7-segment display on an I2C bus, and
 * display_int, which spreads a number over two of them. The bus is modelled
 * as the log of bytes written to it; what those bytes make the display show
 * is worked out with the DisplayDevice model.
 */
module SevenSegment {
  import opened Wrappers
  import opened Decimal
  import opened DisplayDevice

  /** The segment control registers of the four digits, leftmost first. */
  const SegmentAddresses: seq<int> := [0x7B, 0x7C, 0x7D, 0x7E]

  /** The bitwise or of a list of masks, 0 for the empty list. */
  function OrAll(masks: seq<bv8>): (r: bv8)
    ensures forall i :: 0 <= i < |masks| ==> masks[i] | r == r
  {
    if masks == [] then 0 else OrAll(masks[..|masks| - 1]) | masks[|masks| - 1]
  }

  /** No bit is set in the combined mask that is not set in one of the masks. */
  lemma {:induction false} OrAllLeast(masks: seq<bv8>, m: bv8)
    requires forall i :: 0 <= i < |masks| ==> masks[i] | m == m
    ensures OrAll(masks) | m == m
  {
    if masks != [] {
      OrAllLeast(masks[..|masks| - 1], m);
    }
  }

  /**
   * The brightness byte set_brightness_level sends for a percentage: a
   * percentage outside 0..100 is replaced by 50, and the fraction of 255 is
   * truncated.
   */
  function BrightnessLevel(percent: real): (level: int)
    ensures 0 <= level <= 255
    ensures percent == 0.0 ==> level == 0
    ensures percent == 100.0 ==> level == 255
    ensures percent < 0.0 || percent > 100.0 ==> level == 127
  {
    var p := if percent < 0.0 || percent > 100.0 then 50.0 else percent;
    Trunc(p / 100.0 * 255.0)
  }

  /** A higher percentage never gives a dimmer display. */
  lemma {:induction false} BrightnessMonotone(p1: real, p2: real)
    requires 0.0 <= p1 <= p2 <= 100.0
    ensures BrightnessLevel(p1) <= BrightnessLevel(p2)
  {
    assert p1 / 100.0 * 255.0 <= p2 / 100.0 * 255.0;
  }

  /** The bytes of set_cursor_position: nothing for a position off the display. */
  function CursorBytes(position: int): seq<int> {
    if 0 <= position <= 3 then [CursorCommand, position] else []
  }

  /** The bytes of write_digit: a code that would read as a command is not sent. */
  function DigitBytes(digit: int): seq<int> {
    if SevenSegmentDisplay.ValidateDigit(digit) then [] else [digit]
  }

  /** The bytes of write_segments. */
  function SegmentBytes(position: int, segments: seq<bv8>): seq<int> {
    if 0 <= position <= 3 then [SegmentAddresses[position], OrAll(segments) as int] else []
  }

  /** The bytes of writing each character of `w` to the position of its index. */
  function PositionedBytes(w: string): seq<int> {
    if w == [] then []
    else PositionedBytes(w[..|w| - 1]) + CursorBytes(|w| - 1) + DigitBytes(w[|w| - 1] as int)
  }

  lemma {:induction false} PositionedStep(w: string, i: nat)
    requires i < |w|
    ensures PositionedBytes(w[..i + 1]) == PositionedBytes(w[..i]) + CursorBytes(i) + DigitBytes(w[i] as int)
  {
    assert w[..i + 1][..i] == w[..i];
  }

  /**
   * The bytes of write_int(val, fill): nothing when str(val) has more than
   * four characters or the fill is longer than one character.
   */
  function WriteIntBytes(val: int, fill: string): (bytes: seq<int>)
    ensures bytes == [] <==> |IntToString(val)| > DigitCount || |fill| > 1
  {
    var text := IntToString(val);
    if |text| > DigitCount || |fill| > 1 then []
    else
      var w := Padded(text, fill);
      assert w[..|w| - 1] + [w[|w| - 1]] == w;
      PositionedBytes(w)
  }

  class SevenSegmentDisplay {
    /** The display's I2C address. */
    const address: int
    const segmentAddresses: seq<int> := SegmentAddresses
    /** Every byte written to the display, oldest first. */
    var bus: seq<int>

    constructor (address: int)
      ensures this.address == address && bus == []
    {
      this.address := address;
      bus := [];
    }

    /** True when `cmd` is one of the display's command bytes and so cannot be shown. */
    static predicate ValidateDigit(cmd: int)
      ensures ValidateDigit(cmd) <==> IsCommand(cmd)
    {
      if cmd < 0x76 || cmd > 0x81 then false else true
    }

    method WriteByte(value: int)
      modifies this
      ensures bus == old(bus) + [value]
    {
      bus := bus + [value];
    }

    method RestoreFactoryDefaults()
      modifies this
      ensures bus == old(bus) + [FactoryResetCommand]
    {
      WriteByte(0x81);
    }

    method ClearDisplay()
      modifies this
      ensures bus == old(bus) + [ClearCommand]
    {
      WriteByte(0x76);
    }

    method SetBrightnessLevel(percent: real)
      modifies this
      ensures bus == old(bus) + [BrightnessCommand, BrightnessLevel(percent)]
    {
      var p := percent;
      if p < 0.0 || p > 100.0 {
        p := 50.0;
      }
      var level := Trunc(p / 100.0 * 255.0);
      WriteByte(0x7A);
      WriteByte(level);
    }

    method SetCursorPosition(position: int)
      modifies this
      ensures bus == old(bus) + CursorBytes(position)
    {
      if 0 <= position && position <= 3 {
        WriteByte(0x79);
        WriteByte(position);
      }
    }

    method SetNondigits(dots: seq<bv8>)
      modifies this
      ensures bus == old(bus) + [DotsCommand, OrAll(dots) as int]
    {
      var mask: bv8 := 0;
      for i := 0 to |dots|
        invariant mask == OrAll(dots[..i])
      {
        assert dots[..i + 1][..i] == dots[..i];
        mask := mask | dots[i];
      }
      assert dots[..|dots|] == dots;
      WriteByte(0x77);
      WriteByte(mask as int);
    }

    method WriteDigit(digit: int)
      modifies this
      ensures bus == old(bus) + DigitBytes(digit)
    {
      if !ValidateDigit(digit) {
        WriteByte(digit);
      }
    }

    method WriteDigitToPosition(position: int, digit: int)
      modifies this
      ensures bus == old(bus) + CursorBytes(position) + DigitBytes(digit)
    {
      SetCursorPosition(position);
      WriteDigit(digit);
    }

    method WriteSegments(position: int, segments: seq<bv8>)
      modifies this
      ensures bus == old(bus) + SegmentBytes(position, segments)
    {
      if 0 <= position && position <= 3 {
        var mask: bv8 := 0;
        for i := 0 to |segments|
          invariant mask == OrAll(segments[..i])
        {
          assert segments[..i + 1][..i] == segments[..i];
          mask := mask | segments[i];
        }
        assert segments[..|segments|] == segments;
        WriteByte(segmentAddresses[position]);
        WriteByte(mask as int);
      }
    }

    /** `fill` is the fill character already turned into text, as str() does in the driver. */
    method WriteInt(val: int, fill: string)
      modifies this
      ensures bus == old(bus) + WriteIntBytes(val, fill)
    {
      var text := IntToString(val);
      if |text| > 4 {
        return;
      }
      if |fill| > 1 {
        return;
      }
      var w := Repeat(fill, 4 - |text|) + text;
      assert w == Padded(text, fill);
      WriteCharacters(w);
      assert WriteIntBytes(val, fill) == PositionedBytes(w);
    }

    /** The loop of write_int: each character goes to the position of its index. */
    method WriteCharacters(w: string)
      modifies this
      ensures bus == old(bus) + PositionedBytes(w)
    {
      for i := 0 to |w|
        invariant bus == old(bus) + PositionedBytes(w[..i])
      {
        WriteDigitToPosition(i, w[i] as int);
        PositionedStep(w, i);
      }
      assert w[..|w|] == w;
    }
  }

  /**
   * Moving the cursor and writing a code: the digit at that position shows
   * the code unless it is a command byte, which write_digit holds back.
   */
  lemma {:induction false} PlaceDigit(s: Screen, position: int, digit: int)
    requires Ready(s) && 0 <= position < DigitCount
    ensures var t := Run(s, CursorBytes(position) + DigitBytes(digit));
            Ready(t) && t.brightness == s.brightness && t.dots == s.dots &&
            t.digits == if IsCommand(digit) then s.digits else s.digits[position := Char(digit)]
  {
    var c := CursorBytes(position);
    RunAppend(s, c, DigitBytes(digit));
    RunPair(s, CursorCommand, position);
    var u := Run(s, c);
    assert u == s.(cursor := position);
    if !IsCommand(digit) {
      assert Run(u, [digit]) == Receive(Run(u, []), digit);
    }
  }

  /** After writing each character of `w` at its index, the display shows them. */
  lemma {:induction false} PositionedShows(s: Screen, w: string)
    requires Ready(s) && |w| <= DigitCount
    ensures var t := Run(s, PositionedBytes(w));
            Ready(t) && t.brightness == s.brightness && t.dots == s.dots &&
            forall i :: 0 <= i < DigitCount ==>
              t.digits[i] == if i < |w| && !IsCommand(w[i] as int) then Char(w[i] as int) else s.digits[i]
  {
    if w != [] {
      var k := |w| - 1;
      var init := w[..k];
      PositionedShows(s, init);
      var a, b := PositionedBytes(init), CursorBytes(k) + DigitBytes(w[k] as int);
      var u := Run(s, a);
      var t := Run(u, b);
      assert Run(s, PositionedBytes(w)) == t by {
        assert PositionedBytes(w) == a + b;
        RunAppend(s, a, b);
      }
      PlaceDigit(u, k, w[k] as int);
      PlacedAfter(s.digits, u.digits, t.digits, w);
    }
  }

  /**
   * One step of PositionedShows on the digits alone: if `before` holds the
   * characters of all of `w` but its last, placing the last one at its index
   * gives `after`, holding all of `w`.
   */
  lemma {:induction false} PlacedAfter(start: seq<Glyph>, before: seq<Glyph>, after: seq<Glyph>, w: string)
    requires 1 <= |w| <= DigitCount && |start| == DigitCount && |before| == DigitCount
    requires forall i :: 0 <= i < DigitCount ==>
               before[i] == if i < |w| - 1 && !IsCommand(w[i] as int) then Char(w[i] as int) else start[i]
    requires after == if IsCommand(w[|w| - 1] as int) then before else before[|w| - 1 := Char(w[|w| - 1] as int)]
    ensures forall i :: 0 <= i < DigitCount ==>
              after[i] == if i < |w| && !IsCommand(w[i] as int) then Char(w[i] as int) else start[i]
  {
  }

  /**
   * write_int of a value of at most four characters, with a fill character
   * that is no command, shows the value right-aligned after the fill.
   */
  lemma {:induction false} WriteIntShows(s: Screen, val: int, fill: string)
    requires Ready(s) && |IntToString(val)| <= DigitCount
    requires |fill| == 1 && !IsCommand(fill[0] as int)
    ensures var t := Run(s, WriteIntBytes(val, fill));
            Ready(t) && t.brightness == s.brightness && t.dots == s.dots &&
            Shows(t, Padded(IntToString(val), fill))
  {
    var text := IntToString(val);
    var w := Padded(text, fill);
    IntTextShowable(val);
    PaddedShowable(text, fill);
    assert WriteIntBytes(val, fill) == PositionedBytes(w);
    PositionedShows(s, w);
  }

  /** set_nondigits lights exactly the combined dot mask and leaves the digits alone. */
  lemma {:induction false} NondigitsShow(s: Screen, dots: seq<bv8>)
    requires Ready(s)
    ensures var t := Run(s, [DotsCommand, OrAll(dots) as int]);
            Ready(t) && t.dots == OrAll(dots) as int && t.digits == s.digits
  {
    RunPair(s, DotsCommand, OrAll(dots) as int);
  }

  /** write_segments puts the combined segment pattern on the digit at `position`. */
  lemma {:induction false} SegmentsShow(s: Screen, position: int, segments: seq<bv8>)
    requires Ready(s)
    ensures var t := Run(s, SegmentBytes(position, segments));
            Ready(t) && t.brightness == s.brightness && t.dots == s.dots &&
            t.digits == if 0 <= position < DigitCount
                        then s.digits[position := Segments(OrAll(segments) as int)]
                        else s.digits
  {
    if 0 <= position < DigitCount {
      RunPair(s, SegmentAddresses[position], OrAll(segments) as int);
    }
  }

  /** Python's slice bound: a negative one counts from the end; both are clamped to the list. */
  function SliceBound(length: nat, k: int): (b: nat)
    ensures b <= length
    ensures 0 <= k <= length ==> b == k
    ensures -(length as int) <= k < 0 ==> b == length as int + k
  {
    if k >= 0 then (if k <= length then k else length)
    else if length + k >= 0 then length + k else 0
  }

  /**
   * The two numbers display_int hands to the left and right displays: the
   * digits before the last four and the last four, each read back as a
   * number; None where Python raises ValueError (a minus sign, or an empty
   * left part).
   */
  function DisplayIntParts(value: int): Option<(int, int)> {
    var s := IntToString(value);
    if !AllDigits(s) then None
    else
      var right := ParseUnsigned(s[SliceBound(|s|, -4)..]);
      var left := ParseUnsigned(s[..SliceBound(|s|, |s| - 4)]);
      if right.None? || left.None? then None else Some((left.value, right.value))
  }

  /**
   * display_int fails for negative values and for values of one, two or
   * four digits. A value of more than four digits is split into its value
   * div 10000 and mod 10000. A three-digit value is not rejected: Python's
   * slice with the negative bound -1 leaves its first two digits on the
   * left, so the left display gets value div 10 and the right the value.
   */
  lemma {:induction false} DisplayIntSplit(value: int)
    ensures var n := |IntToString(value)|;
            DisplayIntParts(value).Some? <==> value >= 0 && (n == 3 || n > 4)
    ensures value >= 0 && |IntToString(value)| > 4 ==> DisplayIntParts(value) == Some((value / 10000, value % 10000))
    ensures value >= 0 && |IntToString(value)| == 3 ==> DisplayIntParts(value) == Some((value / 10, value))
  {
    var s := IntToString(value);
    if value >= 0 {
      var n := |s|;
      if n > 4 {
        SplitLastFour(value);
      } else if n == 3 {
        assert s[SliceBound(n, -4)..] == s;
        assert s[..SliceBound(n, n - 4)] == s[..2];
        assert s[..2] == s[..n - 1];
        assert value == ParseDigits(s[..2]) * 10 + DigitValue(s[2]);
      }
    }
  }

  /**
   * display_int(value, left, right). On a ValueError nothing is written.
   * When left and right are the same display, it receives the left part's
   * bytes and then the right part's.
   */
  method DisplayInt(value: int, left: SevenSegmentDisplay, right: SevenSegmentDisplay) returns (ok: bool)
    modifies left, right
    ensures ok <==> DisplayIntParts(value).Some?
    ensures !ok ==> left.bus == old(left.bus) && right.bus == old(right.bus)
    ensures ok && left != right ==> left.bus == old(left.bus) + WriteIntBytes(DisplayIntParts(value).value.0, " ")
    ensures ok && left != right ==> right.bus == old(right.bus) + WriteIntBytes(DisplayIntParts(value).value.1, " ")
    ensures ok && left == right ==>
              left.bus == old(left.bus) + WriteIntBytes(DisplayIntParts(value).value.0, " ")
                                        + WriteIntBytes(DisplayIntParts(value).value.1, " ")
  {
    var digits := IntToString(value);
    if !AllDigits(digits) {
      return false;
    }
    var rightDigits := digits[SliceBound(|digits|, -4)..];
    var leftDigits := digits[..SliceBound(|digits|, |digits| - 4)];
    if rightDigits == [] || leftDigits == [] {
      return false;
    }
    var rightValue := ParseDigits(rightDigits);
    var leftValue := ParseDigits(leftDigits);
    PartsOfDigits(value);
    left.WriteInt(leftValue, " ");
    right.WriteInt(rightValue, " ");
    ok := true;
  }

  /** For a value written in digits alone, the parts are the two slices read as numbers. */
  lemma {:induction false} PartsOfDigits(value: int)
    ensures var s := IntToString(value);
            var rightDigits := s[SliceBound(|s|, -4)..];
            var leftDigits := s[..SliceBound(|s|, |s| - 4)];
            AllDigits(s) ==>
              DisplayIntParts(value) ==
                if rightDigits == [] || leftDigits == [] then None
                else Some((ParseDigits(leftDigits), ParseDigits(rightDigits)))
  {
    var s := IntToString(value);
    var rightDigits := s[SliceBound(|s|, -4)..];
    var leftDigits := s[..SliceBound(|s|, |s| - 4)];
    if AllDigits(s) {
      assert AllDigits(rightDigits) by {
        assert forall i :: 0 <= i < |rightDigits| ==> rightDigits[i] == s[SliceBound(|s|, -4) + i];
      }
      assert AllDigits(leftDigits) by {
        assert forall i :: 0 <= i < |leftDigits| ==> leftDigits[i] == s[i];
      }
    }
  }

  /**
   * As written, display_int blank-fills the right half too, so when the last
   * four digits of the value begin with a zero the right display shows
   * blanks where str(value) has zeros.
   */
  lemma {:induction false} DisplayIntDropsZeros(value: int, right: Screen)
    requires Ready(right)
    requires value >= 0 && |IntToString(value)| > 4 && value % 10000 < 1000
    ensures DisplayIntParts(value).Some? && |IntToString(value % 10000)| <= 3
    ensures var s := IntToString(value);
            var shown := Padded(IntToString(value % 10000), " ");
            Shows(Run(right, WriteIntBytes(DisplayIntParts(value).value.1, " ")), shown) &&
            shown[0] == ' ' && s[|s| - 4] == '0'
  {
    var s := IntToString(value);
    var m := value % 10000;
    DisplayIntSplit(value);
    LastFourDigits(value);
    LengthBound(m, 3);
    assert Pow10(3) == 1000;
    WriteIntShows(right, m, " ");
    var k := 4 - |IntToString(m)|;
    assert Padded(IntToString(m), " ")[0] == Repeat(" ", k)[0];
    assert s[|s| - 4..][0] == Repeat("0", k)[0];
  }

  /** 10000005 comes out as "1000" on the left and "   5" on the right. */
  lemma {:induction false} DisplayIntExample(value: int, right: Screen)
    requires Ready(right) && value == 10000005
    ensures DisplayIntParts(value) == Some((1000, 5))
    ensures Shows(Run(right, WriteIntBytes(5, " ")), "   5")
  {
    assert DisplayIntParts(value) == Some((1000, 5)) by {
      assert Pow10(4) == 10000;
      LengthBound(value, 4);
      DisplayIntSplit(value);
    }
    assert Padded(IntToString(5), " ") == "   5" by {
      BlankPaddedDigit(5);
    }
    WriteIntShows(right, 5, " ");
  }

  /** A single digit, blank-filled, is three blanks and the digit. */
  lemma {:induction false} BlankPaddedDigit(d: int)
    requires 0 <= d < 10
    ensures Padded(IntToString(d), " ") == "   " + [DigitChar(d)]
  {
    assert IntToString(d) == [DigitChar(d)];
    assert Repeat(" ", 3) == "   " by {
      assert Repeat(" ", 1) == [] + " ";
      assert Repeat(" ", 2) == " " + " ";
    }
  }
}
