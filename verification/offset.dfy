/** The UTC-offset suffix appended to a local ISO 8601 date-time, for
    whole-hour offsets.

    The suffix is a sign ('+' for offsets at or east of UTC, '-' otherwise), a
    '0' when the offset has a single digit, the offset's decimal text and
    ":00".  The decimal text of a negative offset carries its own '-', so a
    negative offset is written with its sign twice: -5 gives "-0-5:00" and -10
    gives "--10:00".  `OffsetSuffix` keeps that behaviour; `IsoOffsetSuffix` is
    the form the ISO 8601 offset syntax `±hh:mm` asks for.
 */
module TimezoneOffset {
  import opened Wrappers

  predicate IsDigit(c: char)
  {
    '0' <= c <= '9'
  }

  function DigitChar(d: int): (c: char)
    requires 0 <= d < 10
    ensures IsDigit(c) && c as int - '0' as int == d
  {
    (d + '0' as int) as char
  }

  function DigitValue(c: char): int
    requires IsDigit(c)
  {
    c as int - '0' as int
  }

  /** The decimal text of a non-negative integer, as a number prints. */
  function NatToString(n: nat): string
    decreases n
  {
    if n < 10 then [DigitChar(n)] else NatToString(n / 10) + [DigitChar(n % 10)]
  }

  /** The value of a string of decimal digits. */
  function ParseDigits(s: string): nat
    requires forall i :: 0 <= i < |s| ==> IsDigit(s[i])
  {
    if s == [] then 0 else 10 * ParseDigits(s[..|s| - 1]) + DigitValue(s[|s| - 1])
  }

  /** Decimal text is digits only, has no leading zero, and reads back as the
      number it was written from. */
  lemma {:induction false} NatToStringRoundTrip(n: nat)
    ensures forall i :: 0 <= i < |NatToString(n)| ==> IsDigit(NatToString(n)[i])
    ensures |NatToString(n)| > 1 ==> NatToString(n)[0] != '0'
    ensures ParseDigits(NatToString(n)) == n
    decreases n
  {
    if n >= 10 {
      NatToStringRoundTrip(n / 10);
      var s := NatToString(n);
      assert s[..|s| - 1] == NatToString(n / 10);
      assert s[0] == NatToString(n / 10)[0];
    }
  }

  /** The decimal text of an integer: a '-' and then the digits of its
      magnitude when it is negative. */
  function NumberToString(i: int): string
  {
    if i < 0 then "-" + NatToString(-i) else NatToString(i)
  }

  function Abs(i: int): nat
  {
    if i < 0 then -i else i
  }

  /** The decimal text of a number below 100: one digit below ten, two digits
      from ten on; three or more digits from 100 on. */
  lemma NatToStringLength(n: nat)
    ensures n < 10 ==> NatToString(n) == [DigitChar(n)]
    ensures 10 <= n < 100 ==> NatToString(n) == [DigitChar(n / 10), DigitChar(n % 10)]
    ensures 100 <= n ==> |NatToString(n)| >= 3
  {
    if 10 <= n < 100 {
      assert NatToString(n) == NatToString(n / 10) + [DigitChar(n % 10)];
    } else if 100 <= n {
      NatToStringLength(n / 10);
    }
  }

  /** The suffix for a whole-hour offset, as the date formatter builds it.  It
      is an ISO 8601 offset exactly for the offsets from 0 to 99 hours, and then
      reads back as the same hours; every offset west of UTC, and every offset
      of three or more digits, gives something else. */
  function OffsetSuffix(offsetHours: int): (s: string)
    ensures IsIsoOffset(s) <==> 0 <= offsetHours < 100
    ensures 0 <= offsetHours < 100 ==> ParseIsoOffset(s) == Some(offsetHours)
  {
    NatToStringLength(Abs(offsetHours));
    (if offsetHours >= 0 then "+" else "-")
    + (if Abs(offsetHours) < 10 then "0" else "")
    + NumberToString(offsetHours)
    + ":00"
  }

  /** An offset in the ISO 8601 form `±hh:00`. */
  predicate IsIsoOffset(s: string)
  {
    |s| == 6 && (s[0] == '+' || s[0] == '-') && IsDigit(s[1]) && IsDigit(s[2])
    && s[3] == ':' && s[4] == '0' && s[5] == '0'
  }

  /** The signed whole hours of an ISO 8601 `±hh:00` offset, if it is one. */
  function ParseIsoOffset(s: string): Option<int>
  {
    if !IsIsoOffset(s) then None
    else
      var hours := 10 * DigitValue(s[1]) + DigitValue(s[2]);
      Some(if s[0] == '-' then -hours else hours)
  }

  /** For offsets at or east of UTC the suffix is `+0h:00` or `+hh:00`, a valid
      ISO 8601 offset that reads back as the same hours; offset 0 is "+00:00". */
  lemma NonNegativeOffsetSuffix(h: int)
    requires 0 <= h < 100
    ensures h < 10 ==> OffsetSuffix(h) == ['+', '0', DigitChar(h), ':', '0', '0']
    ensures 10 <= h ==> OffsetSuffix(h) == ['+', DigitChar(h / 10), DigitChar(h % 10), ':', '0', '0']
    ensures IsIsoOffset(OffsetSuffix(h))
    ensures ParseIsoOffset(OffsetSuffix(h)) == Some(h)
  {
    if h >= 10 {
      assert NatToString(h) == NatToString(h / 10) + [DigitChar(h % 10)];
    }
  }

  /** For offsets west of UTC the formatter writes the sign twice: "-0-h:00"
      for one digit and "--hh:00" for two, so the suffix is never an ISO 8601
      offset. */
  lemma NegativeOffsetSuffix(h: int)
    requires -100 < h < 0
    ensures -10 < h ==> OffsetSuffix(h) == ['-', '0', '-', DigitChar(-h), ':', '0', '0']
    ensures h <= -10 ==> OffsetSuffix(h) == ['-', '-', DigitChar(-h / 10), DigitChar(-h % 10), ':', '0', '0']
    ensures !IsIsoOffset(OffsetSuffix(h))
    ensures ParseIsoOffset(OffsetSuffix(h)) == None
  {
    if h <= -10 {
      assert NatToString(-h) == NatToString(-h / 10) + [DigitChar(-h % 10)];
    }
  }

  /** Two offsets from the formatter's own callers: five and ten hours west. */
  lemma DoubledSignExamples()
    ensures OffsetSuffix(-5) == "-0-5:00"
    ensures OffsetSuffix(-10) == "--10:00"
    ensures OffsetSuffix(0) == "+00:00"
    ensures OffsetSuffix(1) == "+01:00"
  {
    NegativeOffsetSuffix(-5);
    NegativeOffsetSuffix(-10);
    NonNegativeOffsetSuffix(0);
    NonNegativeOffsetSuffix(1);
  }

  /** The suffix the ISO 8601 offset syntax asks for: the sign once, then the
      magnitude in two digits. */
  function IsoOffsetSuffix(offsetHours: int): string
  {
    (if offsetHours >= 0 then "+" else "-")
    + (if Abs(offsetHours) < 10 then "0" else "")
    + NatToString(Abs(offsetHours))
    + ":00"
  }

  /** Every whole-hour offset of at most two digits is written as a valid ISO
      8601 offset that reads back as the same signed hours, and the result
      agrees with the formatter at or east of UTC. */
  lemma IsoOffsetSuffixRoundTrip(h: int)
    requires -100 < h < 100
    ensures IsIsoOffset(IsoOffsetSuffix(h))
    ensures ParseIsoOffset(IsoOffsetSuffix(h)) == Some(h)
    ensures h >= 0 ==> IsoOffsetSuffix(h) == OffsetSuffix(h)
  {
    var a := Abs(h);
    if a >= 10 {
      assert NatToString(a) == NatToString(a / 10) + [DigitChar(a % 10)];
    }
  }
}
