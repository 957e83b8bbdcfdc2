/** Calendar arithmetic (qemu/cutils.c:99-111): a closed form against counting days one by one. */
module Calendar {

  /** A calendar day; months and days from 1. */
  datatype Date = Date(year: int, month: int, day: int)

  predicate Leap(year: int) { year % 4 == 0 && (year % 100 != 0 || year % 400 == 0) }

  function MonthLength(year: int, month: int): (n: int)
    ensures 28 <= n <= 31
  {
    if month == 2 then (if Leap(year) then 29 else 28)
    else if month == 4 || month == 6 || month == 9 || month == 11 then 30
    else 31
  }

  predicate Valid(d: Date) { 1 <= d.month <= 12 && 1 <= d.day <= MonthLength(d.year, d.month) }

  function Next(d: Date): Date {
    if d.day < MonthLength(d.year, d.month) then d.(day := d.day + 1)
    else if d.month < 12 then Date(d.year, d.month + 1, 1)
    else Date(d.year + 1, 1, 1)
  }

  function Previous(d: Date): Date {
    if d.day > 1 then d.(day := d.day - 1)
    else if d.month > 1 then Date(d.year, d.month - 1, MonthLength(d.year, d.month - 1))
    else Date(d.year - 1, 12, 31)
  }

  /** The year as mktimegm counts it: January and February belong to the year before. */
  function AdjustedYear(d: Date): int { if d.month < 3 then d.year - 1 else d.year }

  function AdjustedMonth(d: Date): int { if d.month < 3 then d.month + 12 else d.month }

  /** Days before month m of a year that starts in March. */
  function MonthStart(m: int): int { (153 * m - 457) / 5 }

  /** Days before the year y that starts in March. */
  function YearStart(y: int): int { 365 * y + y / 4 - y / 100 + y / 400 }

  /** The bracket of mktimegm, for a non-negative adjusted year, where C's division rounds down. */
  function DayNumber(d: Date): int
    requires Valid(d) && AdjustedYear(d) >= 0
  {
    d.day + MonthStart(AdjustedMonth(d)) + YearStart(AdjustedYear(d)) - 719469
  }

  const EPOCH: Date := Date(1970, 1, 1)

  /** A number that orders days. */
  function Key(d: Date): int { d.year * 372 + (d.month - 1) * 31 + (d.day - 1) }

  /** The number of days from the epoch, by stepping one day at a time. */
  function DayCount(d: Date): int
    requires Valid(d)
    decreases if Key(d) >= Key(EPOCH) then Key(d) - Key(EPOCH) else Key(EPOCH) - Key(d)
  {
    if Key(d) == Key(EPOCH) then 0
    else if Key(d) > Key(EPOCH) then DayCount(Previous(d)) + 1
    else DayCount(Next(d)) - 1
  }

  lemma NextAndPrevious(d: Date)
    requires Valid(d)
    ensures Valid(Next(d)) && Valid(Previous(d)) && Next(Previous(d)) == d && Previous(Next(d)) == d
    ensures Key(Previous(d)) < Key(d) < Key(Next(d))
  {}

  lemma MonthSteps(m: int)
    requires 3 <= m <= 14
    ensures MonthStart(3) == 0 && MonthStart(14) == 337
    ensures m < 14 ==> MonthStart(m + 1) - MonthStart(m) == if m == 4 || m == 6 || m == 9 || m == 11 then 30 else 31
  {}

  lemma Fourth(y: int)
    ensures (y + 1) / 4 - y / 4 == if (y + 1) % 4 == 0 then 1 else 0
  {}

  lemma Hundredth(y: int)
    ensures (y + 1) / 100 - y / 100 == if (y + 1) % 100 == 0 then 1 else 0
  {}

  lemma FourHundredth(y: int)
    ensures (y + 1) / 400 - y / 400 == if (y + 1) % 400 == 0 then 1 else 0
  {}

  lemma Multiples(y: int)
    ensures y % 400 == 0 ==> y % 100 == 0
    ensures y % 100 == 0 ==> y % 4 == 0
  {}

  lemma YearStep(y: int)
    ensures YearStart(y + 1) - YearStart(y) == 365 + if Leap(y + 1) then 1 else 0
  {
    Fourth(y);
    Hundredth(y);
    FourHundredth(y);
    Multiples(y + 1);
  }

  /** The closed form grows by one with every day, through all month ends and leap days. */
  lemma OneDayOn(d: Date)
    requires Valid(d) && AdjustedYear(d) >= 0
    ensures Valid(Next(d)) && AdjustedYear(Next(d)) >= 0 && DayNumber(Next(d)) == DayNumber(d) + 1
  {
    hide MonthStart, YearStart, Leap;
    MonthSteps(AdjustedMonth(d));
    YearStep(AdjustedYear(d));
  }

  /** The closed form counts days. */
  lemma {:induction false} DayNumberCounts(d: Date)
    requires Valid(d) && AdjustedYear(d) >= 0
    ensures DayNumber(d) == DayCount(d)
    decreases if Key(d) >= Key(EPOCH) then Key(d) - Key(EPOCH) else Key(EPOCH) - Key(d)
  {
    hide MonthStart, YearStart, Leap, MonthLength, Next, Previous, DayNumber;
    NextAndPrevious(d);
    NotPast(d);
    if Key(d) == Key(EPOCH) {
      SameKey(d, EPOCH);
      EpochIsZero();
    } else if Key(d) > Key(EPOCH) {
      AfterEpoch(Previous(d));
      DayNumberCounts(Previous(d));
      OneDayOn(Previous(d));
    } else {
      OneDayOn(d);
      DayNumberCounts(Next(d));
    }
  }

  lemma EpochIsZero()
    ensures Valid(EPOCH) && AdjustedYear(EPOCH) >= 0 && DayNumber(EPOCH) == 0
  {}

  lemma NotPast(d: Date)
    requires Valid(d)
    ensures Key(d) > Key(EPOCH) ==> Key(Previous(d)) >= Key(EPOCH)
    ensures Key(d) < Key(EPOCH) ==> Key(Next(d)) <= Key(EPOCH)
  {}

  lemma AfterEpoch(d: Date)
    requires Valid(d) && Key(d) >= Key(EPOCH)
    ensures AdjustedYear(d) >= 0
  {}

  lemma SameKey(d: Date, e: Date)
    requires Valid(d) && Valid(e) && Key(d) == Key(e)
    ensures d == e
  {}

  /** Later days have larger numbers. */
  lemma {:induction false} DayNumberIncreases(d: Date, e: Date)
    requires Valid(d) && Valid(e) && AdjustedYear(d) >= 0 && Key(d) < Key(e)
    ensures AdjustedYear(e) >= 0 && DayNumber(d) < DayNumber(e)
    decreases Key(e) - Key(d)
  {
    NextAndPrevious(d);
    NextAndPrevious(e);
    OneDayOn(d);
    if Key(Next(d)) < Key(e) {
      DayNumberIncreases(Next(d), e);
    } else {
      NothingBetween(d, e);
    }
  }

  lemma NothingBetween(d: Date, e: Date)
    requires Valid(d) && Valid(e) && Key(d) < Key(e) <= Key(Next(d))
    ensures e == Next(d)
  {
    hide Leap;
    assert e.year == d.year || e.year == d.year + 1;
  }

  lemma Bracket(d: Date)
    requires Valid(d) && AdjustedYear(d) >= 0
    ensures var (y, m) := (AdjustedYear(d), AdjustedMonth(d));
      DayNumber(d) == d.day + (153 * m - 457) / 5 + 365 * y + y / 4 - y / 100 + y / 400 - 719469
  {}

  /** struct tm, as far as mktimegm reads it. */
  datatype Tm = Tm(sec: int, min: int, hour: int, mday: int, mon: int, year: int)

  function DateOf(tm: Tm): Date { Date(tm.year + 1900, tm.mon + 1, tm.mday) }

  /** mktimegm. */
  method MkTimeGm(tm: Tm) returns (t: int)
    requires Valid(DateOf(tm)) && AdjustedYear(DateOf(tm)) >= 0
    ensures t == 86400 * DayCount(DateOf(tm)) + 3600 * tm.hour + 60 * tm.min + tm.sec
  {
    hide DayCount, DayNumber;
    DayNumberCounts(DateOf(tm));
    Bracket(DateOf(tm));
    var (y, m, d) := (tm.year + 1900, tm.mon + 1, tm.mday);
    if m < 3 {
      m := m + 12;
      y := y - 1;
    }
    var days := d + (153 * m - 457) / 5 + 365 * y + y / 4 - y / 100 + y / 400 - 719469;
    t := 86400 * days;
    t := t + 3600 * tm.hour + 60 * tm.min + tm.sec;
  }

  const FIRST_DAY: Date := Date(1901, 12, 14)
  const LAST_DAY: Date := Date(2038, 1, 19)

  lemma ProductFits(days: int)
    ensures -0x8000_0000 <= 86400 * days <= 0x7fff_ffff <==> -24855 <= days <= 24855
  {}

  lemma EndDays()
    ensures DayNumber(LAST_DAY) == 24855 && DayNumber(FIRST_DAY) == -24855
  {}

  /** The product in mktimegm is one of ints: with 32 bits it fits for these days and no others. */
  lemma FitsUntil2038(d: Date)
    requires Valid(d) && AdjustedYear(d) >= 0
    ensures -0x8000_0000 <= 86400 * DayNumber(d) <= 0x7fff_ffff <==> Key(FIRST_DAY) <= Key(d) <= Key(LAST_DAY)
  {
    hide DayNumber;
    EndDays();
    ProductFits(DayNumber(d));
    if Key(d) < Key(FIRST_DAY) {
      DayNumberIncreases(d, FIRST_DAY);
    } else if Key(d) > Key(LAST_DAY) {
      DayNumberIncreases(LAST_DAY, d);
    } else {
      if Key(d) == Key(FIRST_DAY) {
        SameKey(d, FIRST_DAY);
      } else {
        DayNumberIncreases(FIRST_DAY, d);
      }
      if Key(d) == Key(LAST_DAY) {
        SameKey(d, LAST_DAY);
      } else {
        DayNumberIncreases(d, LAST_DAY);
      }
    }
  }
}
