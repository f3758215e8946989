/**
 * The timestamp rendering of the resource logger: a date and time printed
 * with the pattern "%Y-%m-%d %H:%M:%S,%f" (the run.log header and the JSON
 * "timestamp" field both use it). A parser is given beside it as its
 * inverse, so that the rendering is shown to lose no information.
 */
module Timestamp {
  import opened Wrappers

  /** A broken-down local date and time, as a Python datetime holds it. */
  datatype DateTime = DateTime(year: nat, month: nat, day: nat,
                               hour: nat, minute: nat, second: nat, microsecond: nat)
  {
    /** The ranges a datetime object accepts for each field. */
    predicate Valid() {
      && 1 <= year <= 9999
      && 1 <= month <= 12
      && 1 <= day <= DaysInMonth(year, month)
      && hour < 24 && minute < 60 && second < 60
      && microsecond < 1000000
    }
  }

  predicate IsLeapYear(year: nat) {
    year % 4 == 0 && (year % 100 != 0 || year % 400 == 0)
  }

  function DaysInMonth(year: nat, month: nat): nat {
    if month == 2 then (if IsLeapYear(year) then 29 else 28)
    else if month == 4 || month == 6 || month == 9 || month == 11 then 30
    else 31
  }

  function Pow10(w: nat): (p: nat)
    ensures p >= 1
  {
    if w == 0 then 1 else 10 * Pow10(w - 1)
  }

  predicate IsDigit(c: char) {
    '0' <= c <= '9'
  }

  predicate AllDigits(s: string) {
    forall i :: 0 <= i < |s| ==> IsDigit(s[i])
  }

  function DigitChar(n: nat): (c: char)
    requires n < 10
    ensures IsDigit(c) && c as int - '0' as int == n
  {
    ('0' as int + n) as char
  }

  /** The last `w` decimal digits of `n`, zero-padded on the left to width `w`. */
  function Digits(n: nat, w: nat): (s: string)
    ensures |s| == w && AllDigits(s)
  {
    if w == 0 then "" else Digits(n / 10, w - 1) + [DigitChar(n % 10)]
  }

  /** The number a string of decimal digits denotes. */
  function ValueOf(s: string): nat
    requires AllDigits(s)
  {
    if s == [] then 0 else 10 * ValueOf(s[..|s| - 1]) + (s[|s| - 1] as int - '0' as int)
  }

  /** Reading back a zero-padded number that fits its width gives the number. */
  lemma {:induction false} DigitsThenValue(n: nat, w: nat)
    requires n < Pow10(w)
    ensures ValueOf(Digits(n, w)) == n
  {
    if w > 0 {
      DigitsThenValue(n / 10, w - 1);
      var s := Digits(n, w);
      assert s[..|s| - 1] == Digits(n / 10, w - 1);
    }
  }

  /** Rendering the value of a digit string at its own width gives the string back. */
  lemma {:induction false} ValueThenDigits(s: string)
    requires AllDigits(s)
    ensures ValueOf(s) < Pow10(|s|)
    ensures Digits(ValueOf(s), |s|) == s
  {
    if s != [] {
      var init := s[..|s| - 1];
      ValueThenDigits(init);
      var d := s[|s| - 1] as int - '0' as int;
      var n := ValueOf(s);
      assert n == 10 * ValueOf(init) + d;
      assert n / 10 == ValueOf(init) && n % 10 == d;
      assert s == init + [s[|s| - 1]];
    }
  }

  /** `format(date)`: "%Y-%m-%d %H:%M:%S,%f", every field zero-padded. */
  function Format(d: DateTime): string
  {
    Digits(d.year, 4) + "-" + Digits(d.month, 2) + "-" + Digits(d.day, 2) + " "
    + Digits(d.hour, 2) + ":" + Digits(d.minute, 2) + ":" + Digits(d.second, 2)
    + "," + Digits(d.microsecond, 6)
  }

  /** Every formatted timestamp has the same 26-character layout, separators at fixed places. */
  lemma FormatShape(d: DateTime)
    ensures var s := Format(d);
      && |s| == 26
      && s[4] == '-' && s[7] == '-' && s[10] == ' '
      && s[13] == ':' && s[16] == ':' && s[19] == ','
  {
  }

  /** The digit field of width `w` starting at `lo`. */
  function Field(s: string, lo: nat, w: nat): nat
    requires lo + w <= |s| && AllDigits(s[lo..lo + w])
  {
    ValueOf(s[lo..lo + w])
  }

  predicate WellShaped(s: string) {
    && |s| == 26
    && s[4] == '-' && s[7] == '-' && s[10] == ' '
    && s[13] == ':' && s[16] == ':' && s[19] == ','
    && AllDigits(s[0..4]) && AllDigits(s[5..7]) && AllDigits(s[8..10])
    && AllDigits(s[11..13]) && AllDigits(s[14..16]) && AllDigits(s[17..19])
    && AllDigits(s[20..26])
  }

  /** Reads a rendered timestamp back; `None` for anything `Format` cannot produce. */
  function Parse(s: string): Option<DateTime> {
    if !WellShaped(s) then None
    else
      var d := DateTime(Field(s, 0, 4), Field(s, 5, 2), Field(s, 8, 2),
                        Field(s, 11, 2), Field(s, 14, 2), Field(s, 17, 2), Field(s, 20, 6));
      if d.Valid() then Some(d) else None
  }

  /** Every valid datetime survives rendering: parsing its rendering gives it back. */
  lemma FormatThenParse(d: DateTime)
    requires d.Valid()
    ensures Parse(Format(d)) == Some(d)
  {
    var s := Format(d);
    assert s[0..4] == Digits(d.year, 4);
    assert s[5..7] == Digits(d.month, 2);
    assert s[8..10] == Digits(d.day, 2);
    assert s[11..13] == Digits(d.hour, 2);
    assert s[14..16] == Digits(d.minute, 2);
    assert s[17..19] == Digits(d.second, 2);
    assert s[20..26] == Digits(d.microsecond, 6);
    DigitsThenValue(d.year, 4);
    DigitsThenValue(d.month, 2);
    DigitsThenValue(d.day, 2);
    DigitsThenValue(d.hour, 2);
    DigitsThenValue(d.minute, 2);
    DigitsThenValue(d.second, 2);
    DigitsThenValue(d.microsecond, 6);
  }

  /** Parsing accepts only canonical renderings: what it reads renders back to the input. */
  lemma ParseThenFormat(s: string)
    requires Parse(s).Some?
    ensures Parse(s).value.Valid() && Format(Parse(s).value) == s
  {
    var d := Parse(s).value;
    ValueThenDigits(s[0..4]);
    ValueThenDigits(s[5..7]);
    ValueThenDigits(s[8..10]);
    ValueThenDigits(s[11..13]);
    ValueThenDigits(s[14..16]);
    ValueThenDigits(s[17..19]);
    ValueThenDigits(s[20..26]);
    assert "-" == [s[4]] == [s[7]] && " " == [s[10]] && ":" == [s[13]] == [s[16]] && "," == [s[19]];
    Reassemble(s);
  }

  /** A 26-character string is its seven fields and six separators put back together. */
  lemma Reassemble(s: string)
    requires |s| == 26
    ensures s == s[0..4] + [s[4]] + s[5..7] + [s[7]] + s[8..10] + [s[10]]
                 + s[11..13] + [s[13]] + s[14..16] + [s[16]] + s[17..19] + [s[19]] + s[20..26]
  {
    assert s[0..5] == s[0..4] + [s[4]];
    assert s[0..7] == s[0..5] + s[5..7];
    assert s[0..8] == s[0..7] + [s[7]];
    assert s[0..10] == s[0..8] + s[8..10];
    assert s[0..11] == s[0..10] + [s[10]];
    assert s[0..13] == s[0..11] + s[11..13];
    assert s[0..14] == s[0..13] + [s[13]];
    assert s[0..16] == s[0..14] + s[14..16];
    assert s[0..17] == s[0..16] + [s[16]];
    assert s[0..19] == s[0..17] + s[17..19];
    assert s[0..20] == s[0..19] + [s[19]];
    assert s == s[0..20] + s[20..26];
  }

  /** Distinct valid datetimes never render to the same text. */
  lemma FormatInjective(d1: DateTime, d2: DateTime)
    requires d1.Valid() && d2.Valid() && Format(d1) == Format(d2)
    ensures d1 == d2
  {
    FormatThenParse(d1);
    FormatThenParse(d2);
  }
}
