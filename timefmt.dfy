/** The two `time.Format` layouts the signer uses, "20060102" for the date
    and "20060102T150405Z" for the timestamp, applied to a UTC instant given
    by its calendar fields; and the parse that reads a timestamp back. */
module TimeFormat {
  import opened Wrappers
  import opened GoStrings

  /** A UTC instant as its calendar fields, as `time.Now().UTC()` yields it. */
  datatype Instant = Instant(year: nat, month: nat, day: nat, hour: nat, minute: nat, second: nat)
  {
    /** The ranges a calendar instant keeps. */
    predicate Valid()
    {
      1 <= month <= 12 && 1 <= day <= 31 && hour < 24 && minute < 60 && second < 60
    }
  }

  predicate IsDigit(c: Byte)
  {
    '0' <= c <= '9'
  }

  function Digit(n: nat): (c: Byte)
    requires n < 10
    ensures IsDigit(c)
  {
    ('0' as int + n) as char
  }

  function DigitValue(c: Byte): nat
    requires IsDigit(c)
  {
    c as int - '0' as int
  }

  /** The decimal digits of `n`, without leading zeros. */
  function Decimal(n: nat): (r: GoString)
    ensures 0 < |r|
    ensures forall i | 0 <= i < |r| :: IsDigit(r[i])
  {
    if n < 10 then [Digit(n)] else Decimal(n / 10) + [Digit(n % 10)]
  }

  function Zeros(k: nat): (r: GoString)
  {
    seq(k, _ => '0')
  }

  /** The time package's `appendInt(b, n, width)` for `n >= 0`: the decimal
      digits, padded on the left with zeros to `width`; a number with more
      digits keeps all of them. */
  function AppendInt(n: nat, width: nat): (r: GoString)
    ensures |r| >= width
    ensures forall i | 0 <= i < |r| :: IsDigit(r[i])
  {
    var d := Decimal(n);
    if |d| < width then Zeros(width - |d|) + d else d
  }

  /** `t.Format("20060102")`. */
  function FormatDate(t: Instant): GoString
  {
    AppendInt(t.year, 4) + AppendInt(t.month, 2) + AppendInt(t.day, 2)
  }

  /** `t.Format("20060102T150405Z")`. */
  function FormatTimestamp(t: Instant): GoString
  {
    AppendInt(t.year, 4) + AppendInt(t.month, 2) + AppendInt(t.day, 2) + "T"
      + AppendInt(t.hour, 2) + AppendInt(t.minute, 2) + AppendInt(t.second, 2) + "Z"
  }

  /** A formatted timestamp is digits apart from its 'T' and 'Z'. */
  lemma TimestampAlphabet(t: Instant)
    ensures forall i | 0 <= i < |FormatTimestamp(t)| ::
              IsDigit(FormatTimestamp(t)[i]) || FormatTimestamp(t)[i] in "TZ"
  {
    var date := AppendInt(t.year, 4) + AppendInt(t.month, 2) + AppendInt(t.day, 2);
    var time := AppendInt(t.hour, 2) + AppendInt(t.minute, 2) + AppendInt(t.second, 2);
    assert forall i | 0 <= i < |date| :: IsDigit(date[i]);
    assert forall i | 0 <= i < |time| :: IsDigit(time[i]);
    assert FormatTimestamp(t) == date + "T" + time + "Z";
  }

  /** The value of a string of digits, most significant first. */
  function DigitsValue(s: GoString): nat
    requires forall i | 0 <= i < |s| :: IsDigit(s[i])
  {
    if s == [] then 0 else DigitsValue(s[..|s| - 1]) * 10 + DigitValue(s[|s| - 1])
  }

  /** Reading a 16-byte `YYYYMMDDTHHMMSSZ` timestamp back into its fields;
      None for any other shape. */
  function ParseTimestamp(s: GoString): Option<Instant>
  {
    if |s| == 16 && s[8] == 'T' && s[15] == 'Z'
       && (forall i | 0 <= i < 8 :: IsDigit(s[i]))
       && (forall i | 9 <= i < 15 :: IsDigit(s[i]))
    then
      Some(Instant(DigitsValue(s[0..4]), DigitsValue(s[4..6]), DigitsValue(s[6..8]),
                   DigitsValue(s[9..11]), DigitsValue(s[11..13]), DigitsValue(s[13..15])))
    else None
  }

  lemma DigitsValueTwo(s: GoString)
    requires |s| == 2 && IsDigit(s[0]) && IsDigit(s[1])
    ensures DigitsValue(s) == DigitValue(s[0]) * 10 + DigitValue(s[1])
  {
    assert s[..1][..0] == [];
    assert s[..1][|s[..1]| - 1] == s[0];
    assert DigitsValue(s[..1]) == DigitValue(s[0]);
  }

  lemma DigitsValueFour(s: GoString)
    requires |s| == 4 && forall i | 0 <= i < 4 :: IsDigit(s[i])
    ensures DigitsValue(s) == ((DigitValue(s[0]) * 10 + DigitValue(s[1])) * 10 + DigitValue(s[2])) * 10 + DigitValue(s[3])
  {
    assert s[..3][..2] == s[..2];
    DigitsValueTwo(s[..2]);
  }

  /** A two-digit field is written as exactly two digits and reads back as
      the field. */
  lemma AppendInt2(n: nat)
    requires n < 100
    ensures AppendInt(n, 2) == [Digit(n / 10), Digit(n % 10)]
    ensures DigitsValue(AppendInt(n, 2)) == n
  {
    if n >= 10 {
      assert Decimal(n) == Decimal(n / 10) + [Digit(n % 10)];
    }
    DigitsValueTwo(AppendInt(n, 2));
  }

  /** The decimal digits of a number below 100 and at least 10. */
  lemma DecimalTwoDigits(n: nat)
    requires 10 <= n < 100
    ensures Decimal(n) == [Digit(n / 10), Digit(n % 10)]
  {
    assert Decimal(n / 10) == [Digit(n / 10)];
  }

  /** The decimal digits of a number below 1000 and at least 100. */
  lemma DecimalThreeDigits(n: nat)
    requires 100 <= n < 1000
    ensures Decimal(n) == [Digit(n / 100), Digit(n / 10 % 10), Digit(n % 10)]
  {
    DecimalTwoDigits(n / 10);
    assert n / 10 / 10 == n / 100;
  }

  /** The decimal digits of a number below 10000 and at least 1000. */
  lemma DecimalFourDigits(n: nat)
    requires 1000 <= n < 10000
    ensures Decimal(n) == [Digit(n / 1000), Digit(n / 100 % 10), Digit(n / 10 % 10), Digit(n % 10)]
  {
    DecimalThreeDigits(n / 10);
    assert n / 10 / 100 == n / 1000;
    assert n / 10 / 10 % 10 == n / 100 % 10;
  }

  lemma DecimalDigits4(n: nat)
    requires n < 10000
    ensures AppendInt(n, 4) == [Digit(n / 1000), Digit(n / 100 % 10), Digit(n / 10 % 10), Digit(n % 10)]
  {
    if n < 10 {
      assert Decimal(n) == [Digit(n)];
      assert Zeros(3) == ['0', '0', '0'];
    } else if n < 100 {
      DecimalTwoDigits(n);
      assert Zeros(2) == ['0', '0'];
    } else if n < 1000 {
      DecimalThreeDigits(n);
      assert Zeros(1) == ['0'];
    } else {
      DecimalFourDigits(n);
    }
  }

  lemma FourDigitArithmetic(n: nat)
    requires n < 10000
    ensures ((n / 1000 * 10 + n / 100 % 10) * 10 + n / 10 % 10) * 10 + n % 10 == n
  {
    assert n / 1000 * 10 + n / 100 % 10 == n / 100;
    assert n / 100 * 10 + n / 10 % 10 == n / 10;
    assert n / 10 * 10 + n % 10 == n;
  }

  /** A year below 10000 is written as exactly four digits and reads back as
      the year. */
  lemma AppendInt4(n: nat)
    requires n < 10000
    ensures AppendInt(n, 4) == [Digit(n / 1000), Digit(n / 100 % 10), Digit(n / 10 % 10), Digit(n % 10)]
    ensures DigitsValue(AppendInt(n, 4)) == n
  {
    DecimalDigits4(n);
    DigitsValueFour(AppendInt(n, 4));
    FourDigitArithmetic(n);
  }

  /** The date is the first part of the timestamp, for every instant: both
      come from the one instant and the same year, month and day fields. */
  lemma DateIsTimestampPrefix(t: Instant)
    ensures |FormatDate(t)| < |FormatTimestamp(t)|
    ensures FormatTimestamp(t)[..|FormatDate(t)|] == FormatDate(t)
  {
    var d := FormatDate(t);
    assert FormatTimestamp(t) == d + ("T" + AppendInt(t.hour, 2) + AppendInt(t.minute, 2) + AppendInt(t.second, 2) + "Z");
  }

  /** For a calendar instant before the year 10000 the timestamp is 16 bytes
      `YYYYMMDDTHHMMSSZ`, the date its first 8, and the timestamp reads back
      as the instant it came from. */
  lemma TimestampRoundTrip(t: Instant)
    requires t.Valid() && t.year < 10000
    ensures |FormatDate(t)| == 8 && |FormatTimestamp(t)| == 16
    ensures FormatTimestamp(t)[..8] == FormatDate(t)
    ensures ParseTimestamp(FormatTimestamp(t)) == Some(t)
  {
    AppendInt4(t.year);
    AppendInt2(t.month);
    AppendInt2(t.day);
    AppendInt2(t.hour);
    AppendInt2(t.minute);
    AppendInt2(t.second);
    DateIsTimestampPrefix(t);
    var s := FormatTimestamp(t);
    assert s[0..4] == AppendInt(t.year, 4);
    assert s[4..6] == AppendInt(t.month, 2);
    assert s[6..8] == AppendInt(t.day, 2);
    assert s[9..11] == AppendInt(t.hour, 2);
    assert s[11..13] == AppendInt(t.minute, 2);
    assert s[13..15] == AppendInt(t.second, 2);
  }
}
