/**
 * The timestamp text the dashboard writes into column A of the mood table:
 * Python's `datetime.strftime("%Y-%m-%d %H:%M:%S")`, and the strict reading of
 * that text back into a date-time (the one format `pandas.to_datetime` is
 * ever given by this program), together with the date-only part of it.
 */
module Timestamps {
  import opened Wrappers

  /** A calendar date, as Python's `datetime.date`. */
  datatype Date = Date(year: nat, month: nat, day: nat)

  /** A date-time to the second, as Python's `datetime.datetime` without microseconds. */
  datatype DateTime = DateTime(date: Date, hour: nat, minute: nat, second: nat)

  predicate IsLeapYear(y: nat) {
    y % 4 == 0 && (y % 100 != 0 || y % 400 == 0)
  }

  function DaysInMonth(y: nat, m: nat): (n: nat)
    requires 1 <= m <= 12
    ensures 28 <= n <= 31
  {
    if m == 2 then (if IsLeapYear(y) then 29 else 28)
    else if m == 4 || m == 6 || m == 9 || m == 11 then 30
    else 31
  }

  /** The dates Python can represent (years 1 to 9999). */
  predicate ValidDate(d: Date) {
    1 <= d.year <= 9999 && 1 <= d.month <= 12 && 1 <= d.day <= DaysInMonth(d.year, d.month)
  }

  predicate ValidDateTime(t: DateTime) {
    ValidDate(t.date) && t.hour < 24 && t.minute < 60 && t.second < 60
  }

  // ---------------------------------------------------------------------------
  // Decimal digits

  predicate IsDigit(c: char) {
    '0' <= c <= '9'
  }

  function DigitChar(d: nat): (c: char)
    requires d < 10
    ensures IsDigit(c)
  {
    (48 + d) as char
  }

  function DigitValue(c: char): (d: nat)
    requires IsDigit(c)
    ensures d < 10 && DigitChar(d) == c
  {
    (c as int - 48) as nat
  }

  function Pow10(w: nat): (p: nat)
    ensures p >= 1
  {
    if w == 0 then 1 else 10 * Pow10(w - 1)
  }

  /** The last `width` decimal digits of `n`, zero-padded on the left (strftime's `%m`, `%d`, ...). */
  function Digits(n: nat, width: nat): (s: string)
    ensures |s| == width
    ensures forall i :: 0 <= i < |s| ==> IsDigit(s[i])
  {
    if width == 0 then [] else Digits(n / 10, width - 1) + [DigitChar(n % 10)]
  }

  /** The value of a string of decimal digits; `None` when some character is not a digit. */
  function ParseDigits(s: string): (r: Option<nat>)
    ensures r.Some? <==> forall i :: 0 <= i < |s| ==> IsDigit(s[i])
  {
    if s == [] then Some(0)
    else if !IsDigit(s[|s| - 1]) then None
    else match ParseDigits(s[..|s| - 1])
      case None => None
      case Some(v) => Some(10 * v + DigitValue(s[|s| - 1]))
  }

  /** Reading back a zero-padded number gives the number, when it fits the width. */
  lemma {:induction false} ParseDigitsOfDigits(n: nat, width: nat)
    requires n < Pow10(width)
    ensures ParseDigits(Digits(n, width)) == Some(n)
  {
    if width > 0 {
      var s := Digits(n, width);
      assert s[..|s| - 1] == Digits(n / 10, width - 1);
      ParseDigitsOfDigits(n / 10, width - 1);
    }
  }

  /** A digit string is the zero-padded rendering of its own value, at its own width. */
  lemma {:induction false} DigitsOfParseDigits(s: string, v: nat)
    requires ParseDigits(s) == Some(v)
    ensures v < Pow10(|s|)
    ensures Digits(v, |s|) == s
  {
    if s != [] {
      var init, last := s[..|s| - 1], s[|s| - 1];
      var u :| ParseDigits(init) == Some(u) && v == 10 * u + DigitValue(last);
      DigitsOfParseDigits(init, u);
      assert v / 10 == u && v % 10 == DigitValue(last);
      assert s == init + [last];
    }
  }

  // ---------------------------------------------------------------------------
  // Formatting: "%Y-%m-%d" and "%Y-%m-%d %H:%M:%S"

  /** "YYYY-MM-DD", the text form of `datetime.date`. */
  function FormatDate(d: Date): (s: string)
    ensures |s| == 10 && s[4] == '-' && s[7] == '-'
  {
    Digits(d.year, 4) + "-" + Digits(d.month, 2) + "-" + Digits(d.day, 2)
  }

  /** `strftime("%Y-%m-%d %H:%M:%S")`: 19 characters whose first 10 are the date. */
  function FormatTimestamp(t: DateTime): (s: string)
    ensures |s| == 19 && s[10] == ' ' && s[13] == ':' && s[16] == ':'
    ensures s[..10] == FormatDate(t.date)
  {
    FormatDate(t.date) + " " + Digits(t.hour, 2) + ":" + Digits(t.minute, 2) + ":" + Digits(t.second, 2)
  }

  // ---------------------------------------------------------------------------
  // Parsing the fixed format

  /** Reads "YYYY-MM-DD"; `None` unless the text has that shape and names a real date. */
  function ParseDate(s: string): (r: Option<Date>)
    ensures r.Some? ==> ValidDate(r.value)
  {
    if |s| != 10 || s[4] != '-' || s[7] != '-' then None
    else match (ParseDigits(s[..4]), ParseDigits(s[5..7]), ParseDigits(s[8..]))
      case (Some(y), Some(m), Some(d)) =>
        if ValidDate(Date(y, m, d)) then Some(Date(y, m, d)) else None
      case _ => None
  }

  /** Reads "YYYY-MM-DD HH:MM:SS"; `None` unless the text has that shape and names a real instant. */
  function ParseTimestamp(s: string): (r: Option<DateTime>)
    ensures r.Some? ==> ValidDateTime(r.value)
  {
    if |s| != 19 || s[10] != ' ' || s[13] != ':' || s[16] != ':' then None
    else match (ParseDate(s[..10]), ParseDigits(s[11..13]), ParseDigits(s[14..16]), ParseDigits(s[17..]))
      case (Some(d), Some(h), Some(mi), Some(sec)) =>
        var t := DateTime(d, h, mi, sec);
        if ValidDateTime(t) then Some(t) else None
      case _ => None
  }

  lemma ParseFormatDate(d: Date)
    requires ValidDate(d)
    ensures ParseDate(FormatDate(d)) == Some(d)
  {
    var s := FormatDate(d);
    assert s[..4] == Digits(d.year, 4);
    assert s[5..7] == Digits(d.month, 2);
    assert s[8..] == Digits(d.day, 2);
    ParseDigitsOfDigits(d.year, 4);
    ParseDigitsOfDigits(d.month, 2);
    ParseDigitsOfDigits(d.day, 2);
  }

  /** Round trip: what the dashboard writes, the reader gets back unchanged. */
  lemma ParseFormatTimestamp(t: DateTime)
    requires ValidDateTime(t)
    ensures ParseTimestamp(FormatTimestamp(t)) == Some(t)
  {
    var s := FormatTimestamp(t);
    ParseFormatDate(t.date);
    assert s[11..13] == Digits(t.hour, 2);
    assert s[14..16] == Digits(t.minute, 2);
    assert s[17..] == Digits(t.second, 2);
    ParseDigitsOfDigits(t.hour, 2);
    ParseDigitsOfDigits(t.minute, 2);
    ParseDigitsOfDigits(t.second, 2);
  }

  lemma FormatParseDate(s: string, d: Date)
    requires ParseDate(s) == Some(d)
    ensures FormatDate(d) == s
  {
    DigitsOfParseDigits(s[..4], d.year);
    DigitsOfParseDigits(s[5..7], d.month);
    DigitsOfParseDigits(s[8..], d.day);
    assert s == s[..4] + "-" + s[5..7] + "-" + s[8..];
  }

  /** Round trip the other way: text the reader accepts is exactly the formatting of what it read. */
  lemma FormatParseTimestamp(s: string, t: DateTime)
    requires ParseTimestamp(s) == Some(t)
    ensures FormatTimestamp(t) == s
  {
    FormatParseDate(s[..10], t.date);
    DigitsOfParseDigits(s[11..13], t.hour);
    DigitsOfParseDigits(s[14..16], t.minute);
    DigitsOfParseDigits(s[17..], t.second);
    assert s == s[..10] + " " + s[11..13] + ":" + s[14..16] + ":" + s[17..];
  }
}
