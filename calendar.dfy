/**
 * Calendar dates as Python's `datetime.date` sees them: the range and
 * day-of-month checks its constructor performs, and `str(date)`, the
 * ISO form `YYYY-MM-DD`.
 */
module Calendar {
  import opened Text

  datatype Date = Date(year: int, month: int, day: int)

  const MinYear := 1
  const MaxYear := 9999

  predicate IsLeapYear(y: int)
  {
    y % 4 == 0 && (y % 100 != 0 || y % 400 == 0)
  }

  function DaysInMonth(y: int, m: int): (n: int)
    requires 1 <= m <= 12
    ensures 28 <= n <= 31
    ensures n == 29 <==> m == 2 && IsLeapYear(y)
  {
    if m == 2 then (if IsLeapYear(y) then 29 else 28)
    else if m == 4 || m == 6 || m == 9 || m == 11 then 30
    else 31
  }

  /** The triples `datetime(year, month, day)` accepts without raising `ValueError`. */
  predicate ValidDate(d: Date)
  {
    MinYear <= d.year <= MaxYear &&
    1 <= d.month <= 12 &&
    1 <= d.day <= DaysInMonth(d.year, d.month)
  }

  /** `str(d)` for a `datetime.date`: `"%04d-%02d-%02d"`. */
  function IsoFormat(d: Date): (r: string)
    requires ValidDate(d)
    ensures |r| == 10 && r[4] == '-' && r[7] == '-'
    ensures forall i :: 0 <= i < 10 && i != 4 && i != 7 ==> IsDigit(r[i])
  {
    PadDecimal(d.year, 4) + "-" + PadDecimal(d.month, 2) + "-" + PadDecimal(d.day, 2)
  }

  /** Reads the three fields back out of an ISO date text. */
  function ParseIso(s: string): Date
    requires |s| >= 10
  {
    Date(DecodeDecimal(s[..4]), DecodeDecimal(s[5..7]), DecodeDecimal(s[8..10]))
  }

  lemma IsoRoundTrip(d: Date)
    requires ValidDate(d)
    ensures ParseIso(IsoFormat(d)) == d
  {
    var s := IsoFormat(d);
    assert s[..4] == PadDecimal(d.year, 4);
    assert s[5..7] == PadDecimal(d.month, 2);
    assert s[8..10] == PadDecimal(d.day, 2);
    DecodePadDecimal(d.year, 4);
    DecodePadDecimal(d.month, 2);
    DecodePadDecimal(d.day, 2);
  }

  /** Two valid dates print the same exactly when they are the same date. */
  lemma IsoFormatInjective(a: Date, b: Date)
    requires ValidDate(a) && ValidDate(b)
    ensures IsoFormat(a) == IsoFormat(b) <==> a == b
  {
    if IsoFormat(a) == IsoFormat(b) {
      IsoRoundTrip(a);
      IsoRoundTrip(b);
    }
  }
}
