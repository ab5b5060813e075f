/**
 * The Arduino library for the same displays. S7SDisplay drives one display
 * through the Wire (I2C) library; DoubleDisplay drives two of them as one
 * eight-digit readout. Wire is modelled as the log of completed
 * transmissions, each naming the address it went to and the bytes it
 * carried.
 */
module S7S {
  import opened Decimal
  import opened DisplayDevice
  import SevenSegment

  newtype byte = x: int | 0 <= x < 256

  /** The range of a C++ `long`, which is 32 bits on the Arduino boards. */
  const LongMin := -0x8000_0000
  const LongMax := 0x7FFF_FFFF

  /**
   * The largest `int` on a board whose `int` is 16 bits wide. S7SDisplay::WriteInt
   * takes an `int`, so a part above this would wrap on such a board.
   */
  const ShortIntMax := 0x7FFF

  /** One I2C transmission: the bytes sent to the device at `address`. */
  datatype Transmission = Transmission(address: int, bytes: seq<int>)

  /** The bytes that reached the device at `address`, in the order they were sent. */
  function BytesTo(ts: seq<Transmission>, address: int): seq<int> {
    if ts == [] then []
    else
      var last := ts[|ts| - 1];
      BytesTo(ts[..|ts| - 1], address) + (if last.address == address then last.bytes else [])
  }

  /** A device receives the bytes of two runs of transmissions one after the other. */
  lemma {:induction false} BytesToAppend(a: seq<Transmission>, b: seq<Transmission>, address: int)
    ensures BytesTo(a + b, address) == BytesTo(a, address) + BytesTo(b, address)
  {
    if b == [] {
      assert a + b == a;
    } else {
      var b' := b[..|b| - 1];
      assert (a + b)[..|a + b| - 1] == a + b';
      BytesToAppend(a, b', address);
    }
  }

  /** The Wire library: the transmissions completed so far and the one being assembled. */
  class Wire {
    var log: seq<Transmission>
    var target: int
    var buffer: seq<int>

    constructor ()
      ensures log == [] && buffer == []
    {
      log := [];
      target := 0;
      buffer := [];
    }

    method BeginTransmission(address: int)
      modifies this
      ensures log == old(log) && target == address && buffer == []
    {
      target := address;
      buffer := [];
    }

    method Write(value: byte)
      modifies this
      ensures log == old(log) && target == old(target) && buffer == old(buffer) + [value as int]
    {
      buffer := buffer + [value as int];
    }

    method EndTransmission()
      modifies this
      ensures log == old(log) + [Transmission(old(target), old(buffer))]
      ensures target == old(target) && buffer == []
    {
      log := log + [Transmission(target, buffer)];
      buffer := [];
    }
  }

  /**
   * The brightness byte of SetBrightness: the percentage is clamped to
   * 0..100 and the fraction of 255 truncated.
   */
  function BrightnessByte(percent: int): (level: int)
    ensures 0 <= level <= 255
    ensures percent <= 0 ==> level == 0
    ensures percent >= 100 ==> level == 255
  {
    var p := if percent < 0 then 0 else if percent > 100 then 100 else percent;
    Trunc(p as real / 100.0 * 255.0)
  }

  /**
   * Within 0..100 the Arduino and the Python driver send the same brightness;
   * outside it the Arduino library clamps where the Python driver falls back
   * to half brightness.
   */
  lemma {:induction false} BrightnessAgrees(percent: int)
    ensures 0 <= percent <= 100 ==> BrightnessByte(percent) == SevenSegment.BrightnessLevel(percent as real)
    ensures percent > 100 ==> BrightnessByte(percent) == 255 && SevenSegment.BrightnessLevel(percent as real) == 127
  {
  }

  /** A higher percentage never gives a dimmer display. */
  lemma {:induction false} BrightnessMonotone(p1: int, p2: int)
    requires p1 <= p2
    ensures BrightnessByte(p1) <= BrightnessByte(p2)
  {
    if 0 <= p1 && p2 <= 100 {
      SevenSegment.BrightnessMonotone(p1 as real, p2 as real);
    }
  }

  /** Arduino's String index operator: the character's byte, or 0 past the end. */
  function CharAt(w: string, i: nat): (b: int)
    ensures 0 <= b < 256
  {
    if i < |w| then (w[i] as int) % 256 else 0
  }

  /** The text S7SDisplay::WriteInt assembles: copies of the fill string, then String(value). */
  function FillText(value: int, fill: string): string {
    var s := IntToString(value);
    Repeat(fill, if |s| < DigitCount then DigitCount - |s| else 0) + s
  }

  /** The four bytes S7SDisplay::WriteInt sends: the first four characters of the assembled text. */
  function IntBytes(value: int, fill: string): (bytes: seq<int>)
    ensures |bytes| == DigitCount
  {
    var w := FillText(value, fill);
    [CharAt(w, 0), CharAt(w, 1), CharAt(w, 2), CharAt(w, 3)]
  }

  /** The transmission of SetCursorPosition; none for a position off the display. */
  function CursorTransmissions(address: int, position: int): seq<Transmission> {
    if 0 <= position <= 3 then [Transmission(address, [CursorCommand, position])] else []
  }

  /** The transmission of WriteDigit; none for a byte that would read as a command. */
  function DigitTransmissions(address: int, digit: byte): seq<Transmission> {
    if S7SDisplay.ValidateDigit(digit) then [] else [Transmission(address, [digit as int])]
  }

  class S7SDisplay {
    /** The display's I2C address, given by SetAddress. */
    var address: int
    const wire: Wire

    /** The address is left to SetAddress; the model starts it at 0. */
    constructor (wire: Wire)
      ensures this.wire == wire && address == 0
    {
      this.wire := wire;
      address := 0;
    }

    method SetAddress(address: byte)
      modifies this
      ensures this.address == address as int
    {
      this.address := address as int;
    }

    /** True when `command` is one of the display's command bytes and so cannot be shown. */
    static predicate ValidateDigit(command: byte)
      ensures ValidateDigit(command) <==> IsCommand(command as int)
    {
      if command < 0x76 || command > 0x81 then false else true
    }

    method WriteByte(value: byte)
      modifies wire
      ensures wire.log == old(wire.log) + [Transmission(address, [value as int])] && wire.buffer == []
    {
      wire.BeginTransmission(address);
      wire.Write(value);
      assert wire.buffer == [value as int];
      wire.EndTransmission();
    }

    method FactoryReset()
      modifies wire
      ensures wire.log == old(wire.log) + [Transmission(address, [FactoryResetCommand])] && wire.buffer == []
    {
      WriteByte(0x81);
    }

    method ClearDisplay()
      modifies wire
      ensures wire.log == old(wire.log) + [Transmission(address, [ClearCommand])] && wire.buffer == []
    {
      WriteByte(0x76);
    }

    method SetBrightness(percent: int)
      modifies wire
      ensures wire.log == old(wire.log) + [Transmission(address, [BrightnessCommand, BrightnessByte(percent)])]
      ensures wire.buffer == []
    {
      var p := percent;
      if p < 0 {
        p := 0;
      }
      if p > 100 {
        p := 100;
      }
      var level := Trunc(p as real / 100.0 * 255.0);
      wire.BeginTransmission(address);
      wire.Write(0x7A);
      wire.Write(level as byte);
      assert wire.buffer == [BrightnessCommand, level];
      wire.EndTransmission();
    }

    method SetCursorPosition(position: int)
      modifies wire
      ensures wire.log == old(wire.log) + CursorTransmissions(address, position)
      ensures 0 <= position <= 3 ==> wire.buffer == []
      ensures !(0 <= position <= 3) ==> wire.buffer == old(wire.buffer) && wire.target == old(wire.target)
    {
      if 0 <= position && position <= 3 {
        wire.BeginTransmission(address);
        wire.Write(0x79);
        wire.Write(position as byte);
        assert wire.buffer == [CursorCommand, position];
        wire.EndTransmission();
      }
    }

    method WriteDigit(digit: byte)
      modifies wire
      ensures wire.log == old(wire.log) + DigitTransmissions(address, digit)
    {
      if !ValidateDigit(digit) {
        WriteByte(digit);
      }
    }

    method WriteDigitToPosition(position: int, digit: byte)
      modifies wire
      ensures wire.log == old(wire.log) + CursorTransmissions(address, position) + DigitTransmissions(address, digit)
    {
      SetCursorPosition(position);
      ghost var positioned := wire.log;
      WriteDigit(digit);
      assert wire.log == positioned + DigitTransmissions(address, digit);
    }

    /** Sends the first four characters of the fill copies and String(value), from the cursor on. */
    method WriteInt(value: int, fill: string)
      modifies wire
      ensures wire.log == old(wire.log) + [Transmission(address, IntBytes(value, fill))] && wire.buffer == []
    {
      var text := IntToString(value);
      var digitsToFill := 4 - |text|;
      var fillText := "";
      var i := 0;
      while i < digitsToFill
        invariant 0 <= i && (digitsToFill >= 0 ==> i <= digitsToFill) && (digitsToFill < 0 ==> i == 0)
        invariant fillText == Repeat(fill, i)
      {
        fillText := fillText + fill;
        i := i + 1;
      }
      var writeText := fillText + text;
      assert writeText == FillText(value, fill);
      wire.BeginTransmission(address);
      for j := 0 to 4
        invariant wire.log == old(wire.log) && wire.target == address
        invariant wire.buffer == IntBytes(value, fill)[..j]
      {
        wire.Write(CharAt(writeText, j) as byte);
        assert IntBytes(value, fill)[..j + 1] == IntBytes(value, fill)[..j] + [CharAt(writeText, j)];
      }
      assert wire.buffer == IntBytes(value, fill);
      wire.EndTransmission();
    }
  }

  /**
   * Positioning the cursor and writing a digit reaches the display as the
   * same bytes the Python driver sends, so it shows the same.
   */
  lemma {:induction false} SameBytesAsPython(address: int, position: int, digit: byte)
    ensures BytesTo(CursorTransmissions(address, position) + DigitTransmissions(address, digit), address)
            == SevenSegment.CursorBytes(position) + SevenSegment.DigitBytes(digit as int)
  {
    var c, d := CursorTransmissions(address, position), DigitTransmissions(address, digit);
    BytesToAppend(c, d, address);
    if 0 <= position <= 3 {
      assert BytesTo(c, address) == BytesTo([], address) + [CursorCommand, position];
    }
    if !IsCommand(digit as int) {
      assert BytesTo(d, address) == BytesTo([], address) + [digit as int];
    }
  }

  /**
   * For a value of at most four characters and one fill character, the four
   * bytes of WriteInt are the value right-aligned after the fill.
   */
  lemma {:induction false} IntBytesPadded(value: int, fill: string)
    requires |IntToString(value)| <= DigitCount && |fill| == 1 && fill[0] as int < 256
    ensures var w := Padded(IntToString(value), fill);
            |w| == DigitCount && forall i :: 0 <= i < DigitCount ==> IntBytes(value, fill)[i] == w[i] as int
  {
    var text := IntToString(value);
    var w := Padded(text, fill);
    assert FillText(value, fill) == w;
    var k := DigitCount - |text|;
    assert forall i :: 0 <= i < DigitCount ==> w[i] as int < 256 by {
      IntToStringChars(value);
      forall i | 0 <= i < DigitCount
        ensures w[i] as int < 256
      {
        if i < k {
          assert w[i] == fill[0];
        } else {
          assert w[i] == text[i - k];
        }
      }
    }
    assert IntBytes(value, fill) == [CharAt(w, 0), CharAt(w, 1), CharAt(w, 2), CharAt(w, 3)];
    CharAtByte(w, 0);
    CharAtByte(w, 1);
    CharAtByte(w, 2);
    CharAtByte(w, 3);
  }

  /** A character that fits in a byte is read back by CharAt as its own code. */
  lemma {:induction false} CharAtByte(w: string, i: nat)
    requires i < |w| && w[i] as int < 256
    ensures CharAt(w, i) == w[i] as int
  {
  }

  /**
   * WriteInt places no cursor: from the leftmost digit, a value of at most
   * four characters with a showable fill character is shown right-aligned,
   * and the cursor comes back to the leftmost digit for the next write.
   */
  lemma {:induction false} WriteIntShows(s: Screen, value: int, fill: string)
    requires Ready(s) && s.cursor == 0
    requires |IntToString(value)| <= DigitCount && |fill| == 1 && fill[0] as int < 256 && !IsCommand(fill[0] as int)
    ensures var t := Run(s, IntBytes(value, fill));
            Ready(t) && t.cursor == 0 && Shows(t, Padded(IntToString(value), fill))
  {
    var text := IntToString(value);
    var w := Padded(text, fill);
    IntBytesPadded(value, fill);
    IntTextShowable(value);
    PaddedShowable(text, fill);
    WriteFromLeft(s, IntBytes(value, fill));
  }

  /** Arduino's String::toInt (the C library's atol): an optional sign, then the leading digits. */
  function ToInt(s: string): int {
    if |s| > 0 && s[0] == '-' then 0 - ParseDigits(LeadingDigits(s[1..]))
    else if |s| > 0 && s[0] == '+' then ParseDigits(LeadingDigits(s[1..]))
    else ParseDigits(LeadingDigits(s))
  }

  /** The longest prefix of `s` made of digits. */
  function LeadingDigits(s: string): (p: string)
    ensures AllDigits(p)
  {
    if s == [] || !IsDigit(s[0]) then [] else [s[0]] + LeadingDigits(s[1..])
  }

  /** The leading digits are a prefix of `s`, and all of `s` when `s` is all digits. */
  lemma {:induction false} LeadingDigitsPrefix(s: string)
    ensures LeadingDigits(s) <= s
    ensures AllDigits(s) ==> LeadingDigits(s) == s
  {
    if s != [] && IsDigit(s[0]) {
      LeadingDigitsPrefix(s[1..]);
      assert AllDigits(s) ==> AllDigits(s[1..]) by {
        assert forall i :: 0 <= i < |s[1..]| ==> s[1..][i] == s[i + 1];
      }
      assert s == [s[0]] + s[1..];
    }
  }

  /** toInt reads a string of digits as its value; a lone minus sign reads as 0. */
  lemma {:induction false} ToIntDigits(s: string)
    ensures AllDigits(s) ==> ToInt(s) == ParseDigits(s)
    ensures ToInt("-") == 0
  {
    if AllDigits(s) {
      LeadingDigitsPrefix(s);
      assert s != [] ==> IsDigit(s[0]);
    }
  }

  /**
   * The C++ condition `4 < n <= 8` is `(4 < n) <= 8`: the comparison 4 < n
   * gives 0 or 1, which is never above 8, so the condition always holds.
   */
  function ChainedComparison(n: int): (holds: bool)
    ensures holds
  {
    (if 4 < n then 1 else 0) <= 8
  }

  /**
   * The transmissions of DoubleDisplay::WriteInt as written: a value of at
   * most four characters clears the left display and goes to the right one;
   * any longer value is split before its last four characters, each part
   * read back with toInt, the right part zero-filled.
   */
  function WriteIntTransmissions(leftAddress: int, rightAddress: int, value: int): seq<Transmission> {
    var s := IntToString(value);
    if |s| <= DigitCount then ShortTransmissions(leftAddress, rightAddress, value)
    else if ChainedComparison(|s|) then HalvesTransmissions(leftAddress, rightAddress, s)
    else []
  }

  /** A short value: the left display cleared, the value blank-filled on the right one. */
  function ShortTransmissions(leftAddress: int, rightAddress: int, value: int): seq<Transmission> {
    [Transmission(leftAddress, [ClearCommand]), Transmission(rightAddress, IntBytes(value, " "))]
  }

  /**
   * A longer value's text split before its last four characters: the left
   * part read back and blank-filled on the left display, the right part
   * read back and zero-filled on the right one.
   */
  function HalvesTransmissions(leftAddress: int, rightAddress: int, s: string): seq<Transmission>
    requires |s| >= 4
  {
    [Transmission(leftAddress, IntBytes(ToInt(s[..|s| - 4]), " ")),
     Transmission(rightAddress, IntBytes(ToInt(s[|s| - 4..]), "0"))]
  }

  /**
   * DoubleDisplay::WriteInt as evidently intended, with the condition
   * 4 < n && n <= 8: a value of more than eight characters is not shown.
   */
  function IntendedTransmissions(leftAddress: int, rightAddress: int, value: int): seq<Transmission> {
    var s := IntToString(value);
    if |s| <= DigitCount then ShortTransmissions(leftAddress, rightAddress, value)
    else if |s| <= 2 * DigitCount then HalvesTransmissions(leftAddress, rightAddress, s)
    else []
  }

  class DoubleDisplay {
    const leftAddress: int
    const rightAddress: int
    const leftDisplay: S7SDisplay
    const rightDisplay: S7SDisplay
    const wire: Wire

    /** Two distinct displays on the one bus, at the recorded addresses. */
    predicate Valid()
      reads this, leftDisplay, rightDisplay
    {
      leftDisplay != rightDisplay && leftDisplay.wire == wire && rightDisplay.wire == wire &&
      leftDisplay.address == leftAddress && rightDisplay.address == rightAddress
    }

    constructor (wire: Wire, leftAddress: byte, rightAddress: byte)
      ensures Valid() && this.wire == wire
      ensures this.leftAddress == leftAddress as int && this.rightAddress == rightAddress as int
    {
      this.wire := wire;
      this.leftAddress := leftAddress as int;
      this.rightAddress := rightAddress as int;
      var left := new S7SDisplay(wire);
      var right := new S7SDisplay(wire);
      left.SetAddress(leftAddress);
      right.SetAddress(rightAddress);
      leftDisplay := left;
      rightDisplay := right;
    }

    method WriteInt(value: int)
      requires Valid()
      requires LongMin <= value <= LongMax
      modifies wire
      ensures Valid()
      ensures wire.log == old(wire.log) + WriteIntTransmissions(leftAddress, rightAddress, value)
    {
      var s := IntToString(value);
      if |s| <= 4 {
        WriteShort(value);
      } else if ChainedComparison(|s|) {
        WriteHalves(s);
      }
    }

    /** The left display cleared, then the value blank-filled on the right one. */
    method WriteShort(value: int)
      requires Valid()
      modifies wire
      ensures Valid()
      ensures wire.log == old(wire.log) + ShortTransmissions(leftAddress, rightAddress, value)
    {
      leftDisplay.ClearDisplay();
      rightDisplay.WriteInt(value, " ");
    }

    /** The text split before its last four characters, each part sent to its display. */
    method WriteHalves(s: string)
      requires Valid() && |s| >= 4
      modifies wire
      ensures Valid()
      ensures wire.log == old(wire.log) + HalvesTransmissions(leftAddress, rightAddress, s)
    {
      var left := s[..|s| - 4];
      var right := s[|s| - 4..];
      leftDisplay.WriteInt(ToInt(left), " ");
      rightDisplay.WriteInt(ToInt(right), "0");
    }

    method ClearDisplay()
      requires Valid()
      modifies wire
      ensures Valid()
      ensures wire.log == old(wire.log) + [Transmission(leftAddress, [ClearCommand]), Transmission(rightAddress, [ClearCommand])]
    {
      leftDisplay.WriteByte(0x76);
      rightDisplay.WriteByte(0x76);
    }
  }

  /** The bytes each display receives from a pair of transmissions, one to each. */
  lemma {:induction false} PairBytes(left: int, right: int, l: seq<int>, r: seq<int>)
    requires left != right
    ensures BytesTo([Transmission(left, l), Transmission(right, r)], left) == l
    ensures BytesTo([Transmission(left, l), Transmission(right, r)], right) == r
  {
    var t1, t2 := Transmission(left, l), Transmission(right, r);
    var ts := [t1, t2];
    assert ts[..1] == [t1];
    assert [t1][..0] == [];
    assert BytesTo([t1], left) == BytesTo([], left) + l == l;
    assert BytesTo([t1], right) == BytesTo([], right) + [] == [];
    assert BytesTo(ts, left) == BytesTo([t1], left) + [];
    assert BytesTo(ts, right) == BytesTo([t1], right) + r;
  }

  /** ClearDisplay blanks both displays and puts both cursors on the leftmost digit. */
  lemma {:induction false} ClearBlanksBoth(left: int, right: int, l: Screen, r: Screen)
    requires left != right && Ready(l) && Ready(r)
    ensures var ts := [Transmission(left, [ClearCommand]), Transmission(right, [ClearCommand])];
            var l', r' := Run(l, BytesTo(ts, left)), Run(r, BytesTo(ts, right));
            Ready(l') && Ready(r') && l'.cursor == 0 && r'.cursor == 0 &&
            (forall i :: 0 <= i < DigitCount ==> l'.digits[i] == Blank && r'.digits[i] == Blank)
  {
    PairBytes(left, right, [ClearCommand], [ClearCommand]);
    assert Run(l, [ClearCommand]) == Receive(l, ClearCommand);
    assert Run(r, [ClearCommand]) == Receive(r, ClearCommand);
  }

  /**
   * A value of at most four characters: the left display is blanked and the
   * right one shows the value right-aligned after blanks.
   */
  lemma {:induction false} ShortValueShows(left: int, right: int, l: Screen, r: Screen, value: int)
    requires left != right && Ready(l) && Ready(r) && r.cursor == 0
    requires |IntToString(value)| <= DigitCount
    ensures var ts := WriteIntTransmissions(left, right, value);
            var l', r' := Run(l, BytesTo(ts, left)), Run(r, BytesTo(ts, right));
            Ready(l') && (forall i :: 0 <= i < DigitCount ==> l'.digits[i] == Blank) &&
            Shows(r', Padded(IntToString(value), " "))
  {
    PairBytes(left, right, [ClearCommand], IntBytes(value, " "));
    assert Run(l, [ClearCommand]) == Receive(l, ClearCommand);
    WriteIntShows(r, value, " ");
  }

  /**
   * A value of five to eight digits is split into its value div 10000, whose
   * text is the digits before the last four, and its value mod 10000, whose
   * zero-filled text is the last four digits.
   */
  lemma {:induction false} LongValueSplit(left: int, right: int, value: int)
    requires value >= 0 && 4 < |IntToString(value)| <= 8
    ensures var s := IntToString(value);
            WriteIntTransmissions(left, right, value) ==
              [Transmission(left, IntBytes(value / 10000, " ")), Transmission(right, IntBytes(value % 10000, "0"))] &&
            IntToString(value / 10000) == s[..|s| - 4] &&
            |IntToString(value % 10000)| <= 4 &&
            Padded(IntToString(value % 10000), "0") == s[|s| - 4..] &&
            Padded(IntToString(value / 10000), " ") + s[|s| - 4..] == Repeat(" ", 8 - |s|) + s
  {
    var s := IntToString(value);
    var head, tail := s[..|s| - 4], s[|s| - 4..];
    assert ToInt(head) == value / 10000 && ToInt(tail) == value % 10000 by {
      SplitLastFour(value);
      assert AllDigits(head) && AllDigits(tail);
      ToIntDigits(head);
      ToIntDigits(tail);
    }
    assert WriteIntTransmissions(left, right, value) == HalvesTransmissions(left, right, s);
    DropLastFour(value);
    LastFourDigits(value);
    TextSplit(s);
  }

  /**
   * A value of five to eight digits, with both cursors on the leftmost
   * digit: the two displays together read str(value), right-aligned over
   * the eight digits with blanks on the left, and both cursors come back to
   * the leftmost digit.
   */
  lemma {:induction false} LongValueShows(left: int, right: int, l: Screen, r: Screen, value: int)
    requires left != right && Ready(l) && Ready(r) && l.cursor == 0 && r.cursor == 0
    requires value >= 0 && 4 < |IntToString(value)| <= 8
    ensures |IntToString(value / 10000)| <= DigitCount
    ensures var s := IntToString(value);
            var ts := WriteIntTransmissions(left, right, value);
            var l', r' := Run(l, BytesTo(ts, left)), Run(r, BytesTo(ts, right));
            var leftText := Padded(IntToString(value / 10000), " ");
            var rightText := s[|s| - 4..];
            l'.cursor == 0 && r'.cursor == 0 && Shows(l', leftText) && Shows(r', rightText) &&
            leftText + rightText == Repeat(" ", 8 - |s|) + s
  {
    var s := IntToString(value);
    var q, m := value / 10000, value % 10000;
    var ts := WriteIntTransmissions(left, right, value);
    var lb, rb := IntBytes(q, " "), IntBytes(m, "0");
    LongValueSplit(left, right, value);
    assert BytesTo(ts, left) == lb && BytesTo(ts, right) == rb by {
      PairBytes(left, right, lb, rb);
    }
    var leftText := Padded(IntToString(q), " ");
    assert Run(l, lb).cursor == 0 && Shows(Run(l, lb), leftText) by {
      WriteIntShows(l, q, " ");
    }
    assert Run(r, rb).cursor == 0 && Shows(Run(r, rb), s[|s| - 4..]) by {
      WriteIntShows(r, m, "0");
    }

  }

  /**
   * A negative value of five characters loses its minus sign: the left part
   * is the lone "-", which toInt reads as 0.
   */
  lemma {:induction false} MinusSignLost(left: int, right: int, value: int)
    requires -9999 <= value <= -1000
    ensures WriteIntTransmissions(left, right, value)[0] == Transmission(left, IntBytes(0, " "))
  {
    var s := IntToString(value);
    LengthBound(-value, 4);
    LengthBound(-value, 3);
    assert Pow10(4) == 10000 && Pow10(3) == 1000;
    assert s[..|s| - 4] == "-";
    ToIntDigits("");
  }

  /**
   * As written, a non-negative value of more than eight digits is still
   * split: its left part has more than four digits, and WriteInt sends only
   * the first four of them. The displays show the first four and the last
   * four digits and skip the ones between; 123456789 comes out as "1234"
   * and "6789". This holds wherever the left part reaches WriteInt unwrapped:
   * up to ShortIntMax it does so whether `int` is 16 or 32 bits wide.
   */
  lemma {:induction false} LongValueGarbled(left: int, right: int, l: Screen, r: Screen, value: int)
    requires left != right && Ready(l) && Ready(r) && l.cursor == 0 && r.cursor == 0
    requires value >= 0 && |IntToString(value)| > 8 && value / 10000 <= ShortIntMax
    ensures var s := IntToString(value);
            var ts := WriteIntTransmissions(left, right, value);
            WriteIntTransmissions(left, right, value) != [] &&
            Shows(Run(l, BytesTo(ts, left)), s[..4]) && Shows(Run(r, BytesTo(ts, right)), s[|s| - 4..])
  {
    var s := IntToString(value);
    var q, m := value / 10000, value % 10000;
    var lb, rb := IntBytes(q, " "), IntBytes(m, "0");
    var ts := WriteIntTransmissions(left, right, value);
    GarbledSplit(left, right, value);
    assert BytesTo(ts, left) == lb && BytesTo(ts, right) == rb by {
      PairBytes(left, right, lb, rb);
    }
    assert Shows(Run(l, lb), s[..4]) by {
      var first := s[..4];
      assert forall i :: 0 <= i < DigitCount ==> lb[i] == first[i] as int;
      assert forall i :: 0 <= i < |lb| ==> !IsCommand(lb[i]) by {
        IntTextShowable(value);
      }
      WriteFromLeft(l, lb);
    }
    assert Shows(Run(r, rb), s[|s| - 4..]) by {
      WriteIntShows(r, m, "0");
    }
  }

  /**
   * The parts a value of more than eight digits is split into, as written,
   * for a left part that fits a 16-bit `int`.
   */
  lemma {:induction false} GarbledSplit(left: int, right: int, value: int)
    requires value >= 0 && |IntToString(value)| > 8 && value / 10000 <= ShortIntMax
    ensures var s := IntToString(value);
            WriteIntTransmissions(left, right, value) ==
              [Transmission(left, IntBytes(value / 10000, " ")), Transmission(right, IntBytes(value % 10000, "0"))] &&
            (forall i :: 0 <= i < DigitCount ==> IntBytes(value / 10000, " ")[i] == s[i] as int) &&
            |IntToString(value % 10000)| <= 4 &&
            Padded(IntToString(value % 10000), "0") == s[|s| - 4..]
  {
    var s := IntToString(value);
    var head, tail := s[..|s| - 4], s[|s| - 4..];
    var q, m := value / 10000, value % 10000;
    assert ToInt(head) == q && ToInt(tail) == m by {
      SplitLastFour(value);
      assert AllDigits(head) && AllDigits(tail);
      ToIntDigits(head);
      ToIntDigits(tail);
    }
    DropLastFour(value);
    assert IntToString(q) == head;
    LeadingBytes(q, " ");
    assert forall i :: 0 <= i < DigitCount ==> head[i] == s[i];
    LastFourDigits(value);
  }

  /** A value of at least four digits fills the display with its first four digits. */
  lemma {:induction false} LeadingBytes(value: int, fill: string)
    requires value >= 0 && |IntToString(value)| >= DigitCount
    ensures var s := IntToString(value);
            forall i :: 0 <= i < DigitCount ==> IntBytes(value, fill)[i] == s[i] as int
  {
    var s := IntToString(value);
    assert FillText(value, fill) == s;
    assert IntBytes(value, fill) == [CharAt(s, 0), CharAt(s, 1), CharAt(s, 2), CharAt(s, 3)];
    assert IsDigit(s[0]) && IsDigit(s[1]) && IsDigit(s[2]) && IsDigit(s[3]);
    CharAtByte(s, 0);
    CharAtByte(s, 1);
    CharAtByte(s, 2);
    CharAtByte(s, 3);
  }

  /**
   * The intended condition shows nothing it cannot fit, and agrees with the
   * code as written on every value of at most eight characters.
   */
  lemma {:induction false} IntendedFits(left: int, right: int, value: int)
    ensures IntendedTransmissions(left, right, value) != [] <==> |IntToString(value)| <= 8
    ensures |IntToString(value)| <= 8 ==>
              IntendedTransmissions(left, right, value) == WriteIntTransmissions(left, right, value)
  {
  }
}
