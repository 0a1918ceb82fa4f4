/**
 * Calendar dates and the strftime renderings the scanners look for in folder
 * and file names (%Y%m%d, %Y-%m-%d, %Y.%m.%d, %m.%d, ...).
 */
module Dates {
  import opened Strings

  datatype Date = Date(year: int, month: int, day: int)

  predicate IsLeap(y: int)
  {
    (y % 4 == 0 && y % 100 != 0) || y % 400 == 0
  }

  function DaysInMonth(y: int, m: int): (r: int)
    requires 1 <= m <= 12
    ensures 28 <= r <= 31
  {
    if m == 2 then (if IsLeap(y) then 29 else 28)
    else if m == 4 || m == 6 || m == 9 || m == 11 then 30
    else 31
  }

  /**
   * A Gregorian date whose year has four digits, so that str(year) and %Y
   * agree; every date the reports meet lies in this range.
   */
  predicate Valid(d: Date)
  {
    1000 <= d.year <= 9999 && 1 <= d.month <= 12 && 1 <= d.day <= DaysInMonth(d.year, d.month)
  }

  /** The comparison of Python's date objects: year, then month, then day. */
  predicate Before(a: Date, b: Date)
  {
    a.year < b.year || (a.year == b.year && (a.month < b.month || (a.month == b.month && a.day < b.day)))
  }

  lemma BeforeIsStrictTotalOrder(a: Date, b: Date, c: Date)
    ensures !Before(a, a)
    ensures Before(a, b) && Before(b, c) ==> Before(a, c)
    ensures a == b || Before(a, b) || Before(b, a)
    ensures !(Before(a, b) && Before(b, a))
  {
  }

  // ------------------------------------------------------------- renderings

  /** %Y */
  function Year4(d: Date): (r: string)
    requires Valid(d)
    ensures |r| == 4 && AllDigits(r)
  {
    NatToStringWidth(d.year);
    NatToString(d.year)
  }

  /** %m */
  function Month2(d: Date): (r: string)
    requires Valid(d)
    ensures |r| == 2 && AllDigits(r)
  {
    Pad2(d.month)
  }

  /** %d */
  function Day2(d: Date): (r: string)
    requires Valid(d)
    ensures |r| == 2 && AllDigits(r)
  {
    Pad2(d.day)
  }

  /** %Y%m%d */
  function Compact(d: Date): (r: string)
    requires Valid(d)
    ensures |r| == 8 && AllDigits(r)
  {
    Year4(d) + Month2(d) + Day2(d)
  }

  /** %Y-%m-%d */
  function Dashed(d: Date): (r: string)
    requires Valid(d)
    ensures |r| == 10 && r[4] == '-' && r[7] == '-'
  {
    Year4(d) + "-" + Month2(d) + "-" + Day2(d)
  }

  /** %Y.%m.%d */
  function Dotted(d: Date): (r: string)
    requires Valid(d)
    ensures |r| == 10 && r[4] == '.' && r[7] == '.'
  {
    Year4(d) + "." + Month2(d) + "." + Day2(d)
  }

  /** %m.%d */
  function MonthDay(d: Date): (r: string)
    requires Valid(d)
    ensures |r| == 5 && r[2] == '.'
  {
    Month2(d) + "." + Day2(d)
  }

  /** %m-%d */
  function MonthDayDash(d: Date): (r: string)
    requires Valid(d)
    ensures |r| == 5 && r[2] == '-'
  {
    Month2(d) + "-" + Day2(d)
  }

  /** %d.%m */
  function DayMonth(d: Date): (r: string)
    requires Valid(d)
    ensures |r| == 5 && r[2] == '.'
  {
    Day2(d) + "." + Month2(d)
  }

  /** %Y.%m */
  function YearMonth(d: Date): (r: string)
    requires Valid(d)
    ensures |r| == 7 && r[4] == '.'
  {
    Year4(d) + "." + Month2(d)
  }

  /** str(int(%m)) + "." + str(int(%d)): month and day without padding. */
  function MonthDayShort(d: Date): (r: string)
    requires Valid(d)
    ensures 3 <= |r| <= 5
  {
    NatToStringWidth(d.month);
    NatToStringWidth(d.day);
    NatToString(d.month) + "." + NatToString(d.day)
  }

  /** Two distinct valid dates never share a %Y%m%d rendering. */
  lemma CompactInjective(a: Date, b: Date)
    requires Valid(a) && Valid(b) && Compact(a) == Compact(b)
    ensures a == b
  {
    var ca, cb := Compact(a), Compact(b);
    assert ca[..4] == Year4(a) && cb[..4] == Year4(b);
    assert ca[4..6] == Month2(a) && cb[4..6] == Month2(b);
    assert ca[6..] == Day2(a) && cb[6..] == Day2(b);
    Pad2Injective(a.month, b.month);
    Pad2Injective(a.day, b.day);
    ParseNatToString(a.year);
    ParseNatToString(b.year);
  }

  lemma Pad2Injective(x: nat, y: nat)
    requires x < 100 && y < 100 && Pad2(x) == Pad2(y)
    ensures x == y
  {
    assert Pad2(x)[0] == Pad2(y)[0] && Pad2(x)[1] == Pad2(y)[1];
    assert DigitValue(Pad2(x)[0]) == x / 10 && DigitValue(Pad2(x)[1]) == x % 10;
  }

  // ------------------------------------------------------ neighbouring days

  /** timedelta(days=1) backwards. */
  function Yesterday(d: Date): (r: Date)
    requires Valid(d) && d != Date(1000, 1, 1)
    ensures Valid(r) && Before(r, d)
  {
    if d.day > 1 then Date(d.year, d.month, d.day - 1)
    else if d.month > 1 then Date(d.year, d.month - 1, DaysInMonth(d.year, d.month - 1))
    else Date(d.year - 1, 12, 31)
  }

  /** timedelta(days=1) forwards. */
  function Tomorrow(d: Date): (r: Date)
    requires Valid(d) && d != Date(9999, 12, 31)
    ensures Valid(r) && Before(d, r)
  {
    if d.day < DaysInMonth(d.year, d.month) then Date(d.year, d.month, d.day + 1)
    else if d.month < 12 then Date(d.year, d.month + 1, 1)
    else Date(d.year + 1, 1, 1)
  }

  /** Stepping a day forward and back returns to the same date, and no date lies between. */
  lemma YesterdayTomorrow(d: Date)
    requires Valid(d) && d != Date(9999, 12, 31)
    ensures Tomorrow(d) != Date(1000, 1, 1) && Yesterday(Tomorrow(d)) == d
  {
  }

  lemma TomorrowYesterday(d: Date)
    requires Valid(d) && d != Date(1000, 1, 1)
    ensures Yesterday(d) != Date(9999, 12, 31) && Tomorrow(Yesterday(d)) == d
  {
  }

  lemma NothingBetweenYesterdayAndToday(d: Date, e: Date)
    requires Valid(d) && Valid(e) && d != Date(1000, 1, 1)
    ensures !(Before(Yesterday(d), e) && Before(e, d))
  {
  }
}
