/** The two renderings of `datetime.now()` the booth uses: the compact file stamp
    (`%Y%m%d_%H%M%S`) and `isoformat()`. The clock itself is a parameter. */
module Timestamps {
  import opened Common

  /** A naive local date and time, as Python's `datetime` holds it. */
  datatype DateTime = DateTime(year: nat, month: nat, day: nat,
                               hour: nat, minute: nat, second: nat, microsecond: nat)

  predicate WellFormed(t: DateTime)
  {
    1000 <= t.year <= 9999 && 1 <= t.month <= 12 && 1 <= t.day <= 31 &&
    t.hour < 24 && t.minute < 60 && t.second < 60 && t.microsecond < 1000000
  }

  /** Every character is a decimal digit. */
  predicate AllDigits(s: string)
  {
    forall i :: 0 <= i < |s| ==> '0' <= s[i] <= '9'
  }

  lemma DigitsJoin(a: string, b: string)
    requires AllDigits(a) && AllDigits(b)
    ensures AllDigits(a + b)
  {
    forall i | 0 <= i < |a + b|
      ensures '0' <= (a + b)[i] <= '9'
    {
      if i < |a| {
        assert (a + b)[i] == a[i];
      } else {
        assert (a + b)[i] == b[i - |a|];
      }
    }
  }

  /** `n` in decimal, left-padded with zeros to at least `width` characters. */
  function Pad(n: nat, width: nat): (s: string)
    ensures |s| == if |NatToString(n)| < width then width else |NatToString(n)|
    ensures AllDigits(s)
    decreases width
  {
    if |NatToString(n)| < width then "0" + Pad(n, width - 1) else NatToString(n)
  }

  lemma {:induction false} NatToStringBelow(n: nat, k: nat)
    requires n < Power10(k) && k >= 1
    ensures |NatToString(n)| <= k
    decreases k
  {
    if n >= 10 {
      NatToStringBelow(n / 10, k - 1);
    }
  }

  function Power10(k: nat): (p: nat)
    ensures p >= 1
  {
    if k == 0 then 1 else 10 * Power10(k - 1)
  }

  /** A value below 10^width pads to exactly `width` digits. */
  lemma PadExact(n: nat, width: nat)
    requires width >= 1 && n < Power10(width)
    ensures |Pad(n, width)| == width
  {
    NatToStringBelow(n, width);
  }

  /** A leading zero does not change the value of a digit string. */
  lemma {:induction false} LeadingZeroValue(s: string)
    ensures DigitsValue("0" + s) == DigitsValue(s)
    decreases |s|
  {
    var z := "0" + s;
    if s == [] {
      assert z[..|z| - 1] == [];
    } else {
      assert z[..|z| - 1] == "0" + s[..|s| - 1];
      LeadingZeroValue(s[..|s| - 1]);
    }
  }

  /** Padding keeps the value: reading a padded number back gives the number. */
  lemma {:induction false} PadValue(n: nat, width: nat)
    ensures DigitsValue(Pad(n, width)) == n
    decreases width
  {
    if |NatToString(n)| < width {
      PadValue(n, width - 1);
      LeadingZeroValue(Pad(n, width - 1));
    } else {
      NatToStringValue(n);
    }
  }

  /** The `%Y%m%d` half of the file stamp. */
  function StampDate(t: DateTime): string
  {
    Pad(t.year, 4) + Pad(t.month, 2) + Pad(t.day, 2)
  }

  /** The `%H%M%S` half of the file stamp. */
  function StampTime(t: DateTime): string
  {
    Pad(t.hour, 2) + Pad(t.minute, 2) + Pad(t.second, 2)
  }

  /** `strftime("%Y%m%d_%H%M%S")`. */
  function FileStamp(t: DateTime): (s: string)
  {
    StampDate(t) + "_" + StampTime(t)
  }

  /** The `YYYY-MM-DD` part of `isoformat()`. */
  function IsoDate(t: DateTime): string
  {
    Pad(t.year, 4) + "-" + Pad(t.month, 2) + "-" + Pad(t.day, 2)
  }

  /** The `HH:MM:SS` part of `isoformat()`. */
  function IsoTime(t: DateTime): string
  {
    Pad(t.hour, 2) + ":" + Pad(t.minute, 2) + ":" + Pad(t.second, 2)
  }

  /** `isoformat()`: the fraction is printed only when the microseconds are non-zero. */
  function IsoFormat(t: DateTime): (s: string)
  {
    IsoDate(t) + "T" + IsoTime(t) +
    (if t.microsecond != 0 then "." + Pad(t.microsecond, 6) else "")
  }

  /** Both halves of the file stamp of a well-formed time are all digits, 8 and 6 long. */
  lemma StampHalves(t: DateTime)
    requires WellFormed(t)
    ensures |StampDate(t)| == 8 && AllDigits(StampDate(t))
    ensures |StampTime(t)| == 6 && AllDigits(StampTime(t))
  {
    PadExact(t.year, 4);
    PadExact(t.month, 2);
    PadExact(t.day, 2);
    PadExact(t.hour, 2);
    PadExact(t.minute, 2);
    PadExact(t.second, 2);
    DigitsJoin(Pad(t.year, 4), Pad(t.month, 2));
    DigitsJoin(Pad(t.year, 4) + Pad(t.month, 2), Pad(t.day, 2));
    DigitsJoin(Pad(t.hour, 2), Pad(t.minute, 2));
    DigitsJoin(Pad(t.hour, 2) + Pad(t.minute, 2), Pad(t.second, 2));
  }

  /** The file stamp of a well-formed time is 15 characters: eight digits, `_`, six digits. */
  lemma FileStampShape(t: DateTime)
    requires WellFormed(t)
    ensures |FileStamp(t)| == 15
    ensures FileStamp(t)[8] == '_'
    ensures forall i :: 0 <= i < 15 && i != 8 ==> '0' <= FileStamp(t)[i] <= '9'
  {
    StampHalves(t);
    var date, time := StampDate(t), StampTime(t);
    var s := FileStamp(t);
    forall i | 0 <= i < 15 && i != 8
      ensures '0' <= s[i] <= '9'
    {
      if i < 8 {
        assert s[i] == date[i];
      } else {
        assert s[i] == time[i - 9];
      }
    }
  }

  /** Whatever the time, the file stamp holds only digits and underscores. */
  lemma FileStampChars(t: DateTime)
    ensures forall i :: 0 <= i < |FileStamp(t)| ==> FileStamp(t)[i] == '_' || '0' <= FileStamp(t)[i] <= '9'
    ensures |FileStamp(t)| > 0
  {
    DigitsJoin(Pad(t.year, 4), Pad(t.month, 2));
    DigitsJoin(Pad(t.year, 4) + Pad(t.month, 2), Pad(t.day, 2));
    DigitsJoin(Pad(t.hour, 2), Pad(t.minute, 2));
    DigitsJoin(Pad(t.hour, 2) + Pad(t.minute, 2), Pad(t.second, 2));
    var date, time := StampDate(t), StampTime(t);
    var s := FileStamp(t);
    forall i | 0 <= i < |s|
      ensures s[i] == '_' || '0' <= s[i] <= '9'
    {
      if i < |date| {
        assert s[i] == date[i];
      } else if i > |date| {
        assert s[i] == time[i - |date| - 1];
      }
    }
  }

  /** Two clock readings in the same second: equal in everything but the microseconds. */
  predicate SameSecond(a: DateTime, b: DateTime)
  {
    a.(microsecond := 0) == b.(microsecond := 0)
  }

  /** The digit groups of a well-formed time's file stamp read back as its fields. */
  lemma FileStampFields(t: DateTime)
    requires WellFormed(t)
    ensures var s := FileStamp(t);
            |s| == 15 &&
            DigitsValue(s[0..4]) == t.year && DigitsValue(s[4..6]) == t.month &&
            DigitsValue(s[6..8]) == t.day && DigitsValue(s[9..11]) == t.hour &&
            DigitsValue(s[11..13]) == t.minute && DigitsValue(s[13..15]) == t.second
  {
    StampHalves(t);
    PadExact(t.year, 4);
    PadExact(t.month, 2);
    PadExact(t.day, 2);
    PadExact(t.hour, 2);
    PadExact(t.minute, 2);
    PadExact(t.second, 2);
    var s := FileStamp(t);
    assert s[0..4] == Pad(t.year, 4);
    assert s[4..6] == Pad(t.month, 2);
    assert s[6..8] == Pad(t.day, 2);
    assert s[9..11] == Pad(t.hour, 2);
    assert s[11..13] == Pad(t.minute, 2);
    assert s[13..15] == Pad(t.second, 2);
    PadValue(t.year, 4);
    PadValue(t.month, 2);
    PadValue(t.day, 2);
    PadValue(t.hour, 2);
    PadValue(t.minute, 2);
    PadValue(t.second, 2);
  }

  /** Two well-formed readings have the same file stamp exactly when they fall in the same
      second. */
  lemma FileStampSameSecond(a: DateTime, b: DateTime)
    requires WellFormed(a) && WellFormed(b)
    ensures FileStamp(a) == FileStamp(b) <==> SameSecond(a, b)
  {
    if FileStamp(a) == FileStamp(b) {
      FileStampFields(a);
      FileStampFields(b);
    }
  }

  /** `YYYY-MM-DD` and `HH:MM:SS` of a well-formed time, separators in place. */
  lemma IsoParts(t: DateTime)
    requires WellFormed(t)
    ensures |IsoDate(t)| == 10 && IsoDate(t)[4] == '-' && IsoDate(t)[7] == '-'
    ensures |IsoTime(t)| == 8 && IsoTime(t)[2] == ':' && IsoTime(t)[5] == ':'
  {
    PadExact(t.year, 4);
    PadExact(t.month, 2);
    PadExact(t.day, 2);
    PadExact(t.hour, 2);
    PadExact(t.minute, 2);
    PadExact(t.second, 2);
  }

  /** Without microseconds `isoformat()` is 19 characters with its separators in place. */
  lemma IsoFormatShape(t: DateTime)
    requires WellFormed(t) && t.microsecond == 0
    ensures |IsoFormat(t)| == 19
    ensures IsoFormat(t)[4] == '-' && IsoFormat(t)[7] == '-' && IsoFormat(t)[10] == 'T'
    ensures IsoFormat(t)[13] == ':' && IsoFormat(t)[16] == ':'
  {
    IsoParts(t);
    var s := IsoFormat(t);
    assert s == IsoDate(t) + "T" + IsoTime(t);
    assert s[13] == IsoTime(t)[2] && s[16] == IsoTime(t)[5];
  }
}
