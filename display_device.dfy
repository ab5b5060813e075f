/**
 * The Sparkfun serial 7-segment display as both drivers see it: a device
 * that reads a stream of bytes. A byte from 0x76 to 0x81 is a command;
 * every other byte is a character shown at the cursor, which then moves one
 * digit to the right. The effect of each command is the one the driver
 * sources describe next to the byte they send.
 */
module DisplayDevice {
  import opened Wrappers
  import opened Decimal

  /** Clear the display and put the cursor on the leftmost digit. */
  const ClearCommand := 0x76
  /** Set the decimal points, colon and apostrophe from the argument's bits. */
  const DotsCommand := 0x77
  /** Move the cursor to the digit given by the argument (0 = leftmost). */
  const CursorCommand := 0x79
  /** Set the brightness to the argument (0 to 255). */
  const BrightnessCommand := 0x7A
  /** Segment control of the leftmost digit; the next three digits follow. */
  const FirstSegmentCommand := 0x7B
  /** Restore the factory settings. */
  const FactoryResetCommand := 0x81

  /** The digits of one display. */
  const DigitCount := 4

  /** True exactly for the bytes the display takes as commands. */
  predicate IsCommand(b: int) {
    ClearCommand <= b <= FactoryResetCommand
  }

  /** Commands followed by one argument byte (the baud rate and bus address settings included). */
  predicate TakesArgument(b: int) {
    b == DotsCommand || CursorCommand <= b <= 0x80
  }

  /** What one digit shows: nothing, a character, or a raw segment pattern. */
  datatype Glyph = Blank | Char(code: int) | Segments(mask: int)

  datatype Screen = Screen(
    digits: seq<Glyph>,     // leftmost digit first
    cursor: int,            // where the next character goes
    brightness: int,
    dots: int,              // bit mask of the decimal points, colon and apostrophe
    pending: Option<int>)   // a command still waiting for its argument byte

  predicate WellFormed(s: Screen) {
    |s.digits| == DigitCount && 0 <= s.cursor < DigitCount
  }

  /** Between commands: well formed and not waiting for an argument. */
  predicate Ready(s: Screen) {
    WellFormed(s) && s.pending.None?
  }

  /** The effect of one byte arriving on the bus. */
  function Receive(s: Screen, b: int): (t: Screen)
    requires WellFormed(s)
    ensures WellFormed(t)
  {
    match s.pending
    case Some(cmd) =>
      var s := s.(pending := None);
      if cmd == DotsCommand then s.(dots := b)
      else if cmd == CursorCommand then
        (if 0 <= b < DigitCount then s.(cursor := b) else s)
      else if cmd == BrightnessCommand then s.(brightness := b)
      else if FirstSegmentCommand <= cmd < FirstSegmentCommand + DigitCount then
        s.(digits := s.digits[cmd - FirstSegmentCommand := Segments(b)])
      else s
    case None =>
      if b == ClearCommand then s.(digits := seq(DigitCount, _ => Blank), cursor := 0)
      else if TakesArgument(b) then s.(pending := Some(b))
      else if IsCommand(b) then s
      else s.(digits := s.digits[s.cursor := Char(b)], cursor := (s.cursor + 1) % DigitCount)
  }

  /** The effect of a stream of bytes, received first to last. */
  function Run(s: Screen, bytes: seq<int>): (t: Screen)
    requires WellFormed(s)
    ensures WellFormed(t)
  {
    if bytes == [] then s else Receive(Run(s, bytes[..|bytes| - 1]), bytes[|bytes| - 1])
  }

  /** Receiving two streams one after the other is receiving their concatenation. */
  lemma {:induction false} RunAppend(s: Screen, a: seq<int>, b: seq<int>)
    requires WellFormed(s)
    ensures Run(s, a + b) == Run(Run(s, a), b)
  {
    if b == [] {
      assert a + b == a;
    } else {
      var b' := b[..|b| - 1];
      assert (a + b)[..|a + b| - 1] == a + b';
      RunAppend(s, a, b');
    }
  }

  /** Two bytes are received one after the other. */
  lemma {:induction false} RunPair(s: Screen, a: int, b: int)
    requires WellFormed(s)
    ensures Run(s, [a, b]) == Receive(Receive(s, a), b)
  {
    assert [a, b][..1] == [a];
    assert Run(s, [a]) == Receive(s, a);
  }

  /** A display shows `text` when every digit shows the matching character. */
  predicate Shows(s: Screen, text: string)
    requires WellFormed(s)
  {
    |text| == DigitCount && forall i :: 0 <= i < DigitCount ==> s.digits[i] == Char(text[i] as int)
  }

  /** Text right-aligned over the four digits, after copies of the fill character. */
  function Padded(text: string, fill: string): string
    requires |text| <= DigitCount
  {
    Repeat(fill, DigitCount - |text|) + text
  }

  /**
   * Two displays side by side: a text of five to eight characters, split
   * before its last four, the first part padded with blanks on the left
   * display and the last four on the right one, reads as the whole text
   * right-aligned over the eight digits.
   */
  lemma {:induction false} TextSplit(s: string)
    requires DigitCount < |s| <= 2 * DigitCount
    ensures Padded(s[..|s| - 4], " ") + s[|s| - 4..] == Repeat(" ", 2 * DigitCount - |s|) + s
  {
    var head, tail := s[..|s| - 4], s[|s| - 4..];
    assert head + tail == s;
    assert Padded(head, " ") + tail == Repeat(" ", DigitCount - |head|) + (head + tail);
  }

  /** No character of `w` is a command byte, so every one of them can be shown. */
  predicate Showable(w: string) {
    forall i :: 0 <= i < |w| ==> !IsCommand(w[i] as int)
  }

  /** Padding showable text with a showable character keeps it showable. */
  lemma {:induction false} PaddedShowable(text: string, fill: string)
    requires |text| <= DigitCount && |fill| == 1
    requires Showable(text) && Showable(fill)
    ensures |Padded(text, fill)| == DigitCount && Showable(Padded(text, fill))
  {
    var k := DigitCount - |text|;
    var r := Repeat(fill, k);
    var w := r + text;
    forall i | 0 <= i < |w|
      ensures !IsCommand(w[i] as int)
    {
      if i < k {
        assert w[i] == r[i] == fill[0];
      } else {
        assert w[i] == text[i - k];
      }
    }
  }

  /** str() of an integer is showable: digits and the minus sign are no commands. */
  lemma {:induction false} IntTextShowable(val: int)
    ensures Showable(IntToString(val))
  {
    IntToStringChars(val);
  }

  /** The last four digits of str(value) are str(value mod 10000) with leading zeros. */
  lemma {:induction false} LastFourDigits(value: nat)
    requires |NatToString(value)| > 4
    ensures var s := NatToString(value);
            |NatToString(value % 10000)| <= 4 &&
            Padded(IntToString(value % 10000), "0") == s[|s| - 4..]
  {
    var s := NatToString(value);
    var tail := s[|s| - 4..];
    SplitLastFour(value);
    ZeroPaddedOfDigits(tail);
    assert Pow10(4) == 10000;
    ZeroPaddedIsPadded(value % 10000, 4);
  }

  /**
   * Sending bytes that are no commands with the cursor on the leftmost digit:
   * each lands on the digit of its index and the cursor moves on past them,
   * back to the leftmost digit after the fourth.
   */
  lemma {:induction false} WriteFromLeft(s: Screen, bytes: seq<int>)
    requires Ready(s) && s.cursor == 0 && |bytes| <= DigitCount
    requires forall i :: 0 <= i < |bytes| ==> !IsCommand(bytes[i])
    ensures var t := Run(s, bytes);
            Ready(t) && t.cursor == |bytes| % DigitCount && t.brightness == s.brightness && t.dots == s.dots &&
            forall i :: 0 <= i < DigitCount ==> t.digits[i] == if i < |bytes| then Char(bytes[i]) else s.digits[i]
  {
    if bytes != [] {
      var k := |bytes| - 1;
      var init := bytes[..k];
      WriteFromLeft(s, init);
      var u := Run(s, init);
      ReceiveCharacter(u, bytes[k]);
    }
  }

  /** A character that is no command is shown at the cursor, which moves one digit on. */
  lemma {:induction false} ReceiveCharacter(s: Screen, b: int)
    requires Ready(s) && !IsCommand(b)
    ensures Receive(s, b) == s.(digits := s.digits[s.cursor := Char(b)], cursor := (s.cursor + 1) % DigitCount)
  {
  }
}
