/**
  The timestamp a sensor sample carries: the clock fields of
  `utime.localtime()` rendered as "{:04d}-{:02d}-{:02d} {:02d}:{:02d}:{:02d}",
  and the parser that reads such a string back.
 */
module Timestamps {
  import opened Wrappers

  /** The first six fields of `utime.localtime()`. */
  datatype DateTime = DateTime(year: nat, month: nat, day: nat, hour: nat, minute: nat, second: nat)

  predicate IsDigit(c: char) {
    '0' <= c <= '9'
  }

  predicate AllDigits(s: string) {
    forall i :: 0 <= i < |s| ==> IsDigit(s[i])
  }

  function DigitChar(d: nat): (c: char)
    requires d < 10
    ensures IsDigit(c) && c as int - '0' as int == d
  {
    ('0' as int + d) as char
  }

  function Pow10(k: nat): (p: nat)
    ensures p >= 1
  {
    if k == 0 then 1 else 10 * Pow10(k - 1)
  }

  /** `str(n)` for a non-negative integer: its decimal digits, without leading zeros. */
  function Decimal(n: nat): (s: string)
    ensures 1 <= |s| && AllDigits(s)
    decreases n
  {
    if n < 10 then [DigitChar(n)] else Decimal(n / 10) + [DigitChar(n % 10)]
  }

  /** The number a string of decimal digits denotes. */
  function DigitsValue(s: string): nat
    requires AllDigits(s)
  {
    if s == [] then 0 else 10 * DigitsValue(s[..|s| - 1]) + (s[|s| - 1] as int - '0' as int)
  }

  function Zeros(k: nat): (s: string)
    ensures |s| == k && AllDigits(s)
  {
    if k == 0 then "" else "0" + Zeros(k - 1)
  }

  /** `"{:0Nd}".format(n)`: `str(n)` padded on the left with zeros to at least `width` characters. */
  function ZeroPad(n: nat, width: nat): (s: string)
    ensures AllDigits(s)
  {
    var digits := Decimal(n);
    if |digits| < width then Zeros(width - |digits|) + digits else digits
  }

  lemma {:induction false} DigitsValueAppend(a: string, b: string)
    requires AllDigits(a) && AllDigits(b)
    ensures AllDigits(a + b)
    ensures DigitsValue(a + b) == DigitsValue(a) * Pow10(|b|) + DigitsValue(b)
    decreases |b|
  {
    var ab := a + b;
    if b == [] {
      assert ab == a;
    } else {
      var b' := b[..|b| - 1];
      var c := b[|b| - 1] as int - '0' as int;
      assert ab[..|ab| - 1] == a + b';
      assert ab[|ab| - 1] == b[|b| - 1];
      DigitsValueAppend(a, b');
      var x, p, v := DigitsValue(a), Pow10(|b'|), DigitsValue(b');
      assert DigitsValue(ab) == 10 * (x * p + v) + c;
      assert DigitsValue(b) == 10 * v + c;
      assert Pow10(|b|) == 10 * p;
      ShiftDigit(x, p, v, c);
    }
  }

  lemma ShiftDigit(x: int, p: int, v: int, c: int)
    ensures 10 * (x * p + v) + c == x * (10 * p) + (10 * v + c)
  {
  }

  lemma {:induction false} DigitsValueZeros(k: nat)
    ensures DigitsValue(Zeros(k)) == 0
  {
    if k > 0 {
      DigitsValueZeros(k - 1);
      DigitsValueAppend("0", Zeros(k - 1));
    }
  }

  /** Reading `str(n)` back gives `n`. */
  lemma {:induction false} DecimalValue(n: nat)
    ensures DigitsValue(Decimal(n)) == n
    decreases n
  {
    if n >= 10 {
      DecimalValue(n / 10);
      var s := Decimal(n);
      assert s[..|s| - 1] == Decimal(n / 10);
    }
  }

  /** `str(n)` has at most `w` digits when `n < 10^w`. */
  lemma {:induction false} DecimalLength(n: nat, w: nat)
    requires 1 <= w && n < Pow10(w)
    ensures |Decimal(n)| <= w
    decreases n
  {
    if n >= 10 {
      assert w != 1;
      assert n / 10 < Pow10(w - 1);
      DecimalLength(n / 10, w - 1);
    }
  }

  /** Zero padding keeps the value. */
  lemma ZeroPadValue(n: nat, width: nat)
    ensures DigitsValue(ZeroPad(n, width)) == n
  {
    var digits := Decimal(n);
    DecimalValue(n);
    if |digits| < width {
      var zeros := Zeros(width - |digits|);
      DigitsValueAppend(zeros, digits);
      DigitsValueZeros(width - |digits|);
      assert DigitsValue(zeros + digits) == 0 * Pow10(|digits|) + n;
    }
  }

  /** Zero padding gives exactly `width` characters for a value below `10^width`. */
  lemma ZeroPadLength(n: nat, width: nat)
    requires 1 <= width && n < Pow10(width)
    ensures |ZeroPad(n, width)| == width
  {
    DecimalLength(n, width);
  }

  /** The timestamp string of a sample (main.py, `get_sensor_data`). */
  function Timestamp(t: DateTime): string {
    ZeroPad(t.year, 4) + "-" + ZeroPad(t.month, 2) + "-" + ZeroPad(t.day, 2) + " " +
    ZeroPad(t.hour, 2) + ":" + ZeroPad(t.minute, 2) + ":" + ZeroPad(t.second, 2)
  }

  predicate FieldsFit(t: DateTime) {
    t.year < 10000 && t.month < 100 && t.day < 100 && t.hour < 100 && t.minute < 100 && t.second < 100
  }

  /** Reads a "YYYY-MM-DD HH:MM:SS" string back into its six fields. */
  function ParseTimestamp(s: string): Option<DateTime> {
    if |s| == 19 && s[4] == '-' && s[7] == '-' && s[10] == ' ' && s[13] == ':' && s[16] == ':'
       && AllDigits(s[0..4]) && AllDigits(s[5..7]) && AllDigits(s[8..10])
       && AllDigits(s[11..13]) && AllDigits(s[14..16]) && AllDigits(s[17..19])
    then
      Some(DateTime(DigitsValue(s[0..4]), DigitsValue(s[5..7]), DigitsValue(s[8..10]),
                    DigitsValue(s[11..13]), DigitsValue(s[14..16]), DigitsValue(s[17..19])))
    else
      None
  }

  /** Where each field sits in a string laid out as "YYYY-MM-DD HH:MM:SS". */
  lemma Layout(y: string, mo: string, d: string, h: string, mi: string, se: string)
    requires |y| == 4 && |mo| == 2 && |d| == 2 && |h| == 2 && |mi| == 2 && |se| == 2
    ensures var s := y + "-" + mo + "-" + d + " " + h + ":" + mi + ":" + se;
      && |s| == 19 && s[4] == '-' && s[7] == '-' && s[10] == ' ' && s[13] == ':' && s[16] == ':'
      && s[0..4] == y && s[5..7] == mo && s[8..10] == d
      && s[11..13] == h && s[14..16] == mi && s[17..19] == se
  {
    var p1 := y + "-";
    var p2 := p1 + mo + "-";
    var p3 := p2 + d + " ";
    var p4 := p3 + h + ":";
    var p5 := p4 + mi + ":";
    var s := p5 + se;
    assert s[0..4] == y by { assert s[..|p1|] == p1; }
    assert s[5..7] == mo by { assert s[..|p2|] == p2; }
    assert s[8..10] == d by { assert s[..|p3|] == p3; }
    assert s[11..13] == h by { assert s[..|p4|] == p4; }
    assert s[14..16] == mi by { assert s[..|p5|] == p5; }
  }

  /** For clock fields that fit their widths the timestamp is 19 characters long. */
  lemma TimestampLength(t: DateTime)
    requires FieldsFit(t)
    ensures |Timestamp(t)| == 19
  {
    assert Pow10(2) == 100 && Pow10(4) == 10000;
    ZeroPadLength(t.year, 4);
    ZeroPadLength(t.month, 2);
    ZeroPadLength(t.day, 2);
    ZeroPadLength(t.hour, 2);
    ZeroPadLength(t.minute, 2);
    ZeroPadLength(t.second, 2);
  }

  /**
    For clock fields that fit their widths the zero-padded timestamp parses
    back to the same fields.
   */
  lemma TimestampRoundTrip(t: DateTime)
    requires FieldsFit(t)
    ensures ParseTimestamp(Timestamp(t)) == Some(t)
  {
    assert Pow10(2) == 100 && Pow10(4) == 10000;
    var y, mo, d := ZeroPad(t.year, 4), ZeroPad(t.month, 2), ZeroPad(t.day, 2);
    var h, mi, se := ZeroPad(t.hour, 2), ZeroPad(t.minute, 2), ZeroPad(t.second, 2);
    ZeroPadValue(t.year, 4);
    ZeroPadValue(t.month, 2);
    ZeroPadValue(t.day, 2);
    ZeroPadValue(t.hour, 2);
    ZeroPadValue(t.minute, 2);
    ZeroPadValue(t.second, 2);
    ZeroPadLength(t.year, 4);
    ZeroPadLength(t.month, 2);
    ZeroPadLength(t.day, 2);
    ZeroPadLength(t.hour, 2);
    ZeroPadLength(t.minute, 2);
    ZeroPadLength(t.second, 2);
    Layout(y, mo, d, h, mi, se);
  }
}
