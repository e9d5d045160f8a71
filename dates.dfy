/**
 * The expiry-date step of the chat: `datetime.strptime(s, "%d/%m/%Y").date()`
 * followed by `date.isoformat()`, on the proleptic Gregorian calendar.
 */
module Dates {
  import opened Wrappers
  import opened Text

  datatype Date = Date(year: int, month: int, day: int)

  predicate IsLeapYear(y: int) {
    y % 4 == 0 && (y % 100 != 0 || y % 400 == 0)
  }

  function DaysInMonth(y: int, m: int): (n: int)
    requires 1 <= m <= 12
    ensures 28 <= n <= 31
    ensures m == 2 ==> (n == 29 <==> IsLeapYear(y))
  {
    if m == 2 then (if IsLeapYear(y) then 29 else 28)
    else if m == 4 || m == 6 || m == 9 || m == 11 then 30
    else 31
  }

  /** A date Python's `date` accepts: years 1 to 9999 and a day that exists in its month. */
  predicate IsValidDate(d: Date) {
    1 <= d.year <= 9999 && 1 <= d.month <= 12 && 1 <= d.day <= DaysInMonth(d.year, d.month)
  }

  /** The `%d` directive: `3[01]`, `[12]` and a digit, `0[1-9]`, `[1-9]` or a space and `[1-9]`. */
  function DayField(t: string): (r: Option<int>)
    ensures r.Some? ==> 1 <= r.value <= 31
  {
    if |t| == 1 && '1' <= t[0] <= '9' then Some(DigitOf(t[0]))
    else if |t| == 2 && (t[0] == '0' || t[0] == ' ') && '1' <= t[1] <= '9' then Some(DigitOf(t[1]))
    else if |t| == 2 && (t[0] == '1' || t[0] == '2') && IsDigit(t[1]) then Some(10 * DigitOf(t[0]) + DigitOf(t[1]))
    else if |t| == 2 && t[0] == '3' && (t[1] == '0' || t[1] == '1') then Some(30 + DigitOf(t[1]))
    else None
  }

  /** The `%m` directive: `1[0-2]`, `0[1-9]` or `[1-9]`. */
  function MonthField(t: string): (r: Option<int>)
    ensures r.Some? ==> 1 <= r.value <= 12
  {
    if |t| == 1 && '1' <= t[0] <= '9' then Some(DigitOf(t[0]))
    else if |t| == 2 && t[0] == '0' && '1' <= t[1] <= '9' then Some(DigitOf(t[1]))
    else if |t| == 2 && t[0] == '1' && '0' <= t[1] <= '2' then Some(10 + DigitOf(t[1]))
    else None
  }

  /** The `%Y` directive: exactly four digits. */
  function YearField(t: string): (r: Option<int>)
    ensures r.Some? ==> 0 <= r.value <= 9999
  {
    if |t| == 4 && IsDigit(t[0]) && IsDigit(t[1]) && IsDigit(t[2]) && IsDigit(t[3]) then
      Some(1000 * DigitOf(t[0]) + 100 * DigitOf(t[1]) + 10 * DigitOf(t[2]) + DigitOf(t[3]))
    else None
  }

  /** Position of the first `c` in `s`, or `|s|` when there is none. */
  function IndexOf(s: string, c: char): (i: nat)
    ensures i <= |s| && (i < |s| ==> s[i] == c)
    ensures forall k :: 0 <= k < i ==> s[k] != c
  {
    if s == [] || s[0] == c then 0 else 1 + IndexOf(s[1..], c)
  }

  /**
   * `strptime(s, "%d/%m/%Y").date()`; None is the ValueError raised for text
   * that does not match the whole format or for a day that does not exist.
   * No field pattern contains '/', so the two separators are the first two.
   */
  function ParseDayMonthYear(s: string): (r: Option<Date>)
    ensures r.Some? ==> IsValidDate(r.value)
  {
    var i := IndexOf(s, '/');
    if i == |s| then None
    else
      var rest := s[i + 1..];
      var j := IndexOf(rest, '/');
      if j == |rest| then None
      else
        var dd, mm, yy := DayField(s[..i]), MonthField(rest[..j]), YearField(rest[j + 1..]);
        if dd.None? || mm.None? || yy.None? then None
        else if IsValidDate(Date(yy.value, mm.value, dd.value)) then Some(Date(yy.value, mm.value, dd.value))
        else None
  }

  function DigitChar(n: int): (c: char)
    requires 0 <= n <= 9
    ensures IsDigit(c) && DigitOf(c) == n
  {
    ('0' as int + n) as char
  }

  /** `%02d` */
  function Pad2(n: int): (r: string)
    requires 0 <= n <= 99
    ensures |r| == 2 && IsDigit(r[0]) && IsDigit(r[1])
    ensures 10 * DigitOf(r[0]) + DigitOf(r[1]) == n
  {
    [DigitChar(n / 10), DigitChar(n % 10)]
  }

  /** `%04d` */
  function Pad4(n: int): (r: string)
    requires 0 <= n <= 9999
    ensures |r| == 4 && YearField(r) == Some(n)
  {
    Pad2(n / 100) + Pad2(n % 100)
  }

  /** `date.isoformat()`: `YYYY-MM-DD`. */
  function IsoFormat(d: Date): (r: string)
    requires IsValidDate(d)
    ensures |r| == 10 && r[4] == '-' && r[7] == '-'
  {
    Pad4(d.year) + "-" + Pad2(d.month) + "-" + Pad2(d.day)
  }

  /** The text a user types for `d`: `DD/MM/AAAA` with zero padding. */
  function DayMonthYear(d: Date): (r: string)
    requires IsValidDate(d)
    ensures |r| == 10
  {
    Pad2(d.day) + "/" + Pad2(d.month) + "/" + Pad4(d.year)
  }

  /**
   * Zero-padded fields in range are read back as they were written; the result
   * is the date when it exists and the ValueError otherwise.
   */
  lemma ParseOfPaddedFields(y: int, m: int, d: int)
    requires 0 <= y <= 9999 && 1 <= m <= 12 && 1 <= d <= 31
    ensures var r := ParseDayMonthYear(Pad2(d) + "/" + Pad2(m) + "/" + Pad4(y));
            r == if IsValidDate(Date(y, m, d)) then Some(Date(y, m, d)) else None
  {
    var s := Pad2(d) + "/" + Pad2(m) + "/" + Pad4(y);
    var dd, mm := Pad2(d), Pad2(m);
    assert IndexOf(s, '/') == 2 by {
      assert s[2] == '/';
    }
    var rest := s[3..];
    assert rest == mm + "/" + Pad4(y);
    assert IndexOf(rest, '/') == 2 by {
      assert rest[2] == '/';
    }
    assert s[..2] == dd;
    assert rest[..2] == mm;
    assert rest[3..] == Pad4(y);
    assert DayField(dd) == Some(d);
    assert MonthField(mm) == Some(m);
  }

  /** Every real calendar date, typed as `DD/MM/AAAA`, is accepted and read back unchanged. */
  lemma ParseDayMonthYearOfFormatted(d: Date)
    requires IsValidDate(d)
    ensures ParseDayMonthYear(DayMonthYear(d)) == Some(d)
  {
    ParseOfPaddedFields(d.year, d.month, d.day);
  }

  /** Different valid dates have different ISO texts. */
  lemma IsoFormatInjective(d1: Date, d2: Date)
    requires IsValidDate(d1) && IsValidDate(d2)
    requires IsoFormat(d1) == IsoFormat(d2)
    ensures d1 == d2
  {
    var a, b := IsoFormat(d1), IsoFormat(d2);
    assert a[..4] == Pad4(d1.year) && b[..4] == Pad4(d2.year);
    assert a[5..7] == Pad2(d1.month) && b[5..7] == Pad2(d2.month);
    assert a[8..] == Pad2(d1.day) && b[8..] == Pad2(d2.day);
  }

  /** `29/02/AAAA` is accepted exactly in leap years; year 0000 is always refused. */
  lemma LeapDay(y: int)
    requires 0 <= y <= 9999
    ensures ParseDayMonthYear("29/02/" + Pad4(y)).Some? <==> (y != 0 && IsLeapYear(y))
  {
    assert "29/02/" + Pad4(y) == Pad2(29) + "/" + Pad2(2) + "/" + Pad4(y);
    ParseOfPaddedFields(y, 2, 29);
  }

  /** The fields may also be typed without their leading zero. */
  lemma UnpaddedFields()
    ensures ParseDayMonthYear("1/2/2024") == Some(Date(2024, 2, 1))
  {
    var s := "1/2/2024";
    assert IndexOf(s, '/') == 1 by { assert s[1] == '/'; }
    assert s[..1] == "1" && s[2..] == "2/2024";
    var rest := "2/2024";
    assert IndexOf(rest, '/') == 1 by { assert rest[1] == '/'; }
    assert rest[..1] == "2" && rest[2..] == "2024";
  }

  /** A 31st of April does not exist. */
  lemma NoThirtyFirstOfApril()
    ensures ParseDayMonthYear("31/04/2024") == None
  {
    assert "31/04/2024" == Pad2(31) + "/" + Pad2(4) + "/" + Pad4(2024);
    ParseOfPaddedFields(2024, 4, 31);
  }

  /** A date in ISO order is not in the expected format. */
  lemma IsoTextRefused()
    ensures ParseDayMonthYear("2024-02-01") == None
  {
    var s := "2024-02-01";
    assert forall k :: 0 <= k < |s| ==> s[k] != '/';
  }
}
