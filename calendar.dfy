/**
 * Proleptic Gregorian dates as Python's `datetime.date` computes with them:
 * day ordinals (`toordinal`, day 1 being Monday 0001-01-01) and the ISO
 * calendar (`isocalendar`), with the same integer arithmetic as CPython's
 * `_ymd2ord`, `_isoweek1monday` and `date.isocalendar`.
 */
module Calendar {

  datatype YearMonthDay = YearMonthDay(year: int, month: int, day: int)

  predicate IsLeap(y: int) {
    y % 4 == 0 && (y % 100 != 0 || y % 400 == 0)
  }

  function DaysInMonth(y: int, m: int): int
    requires 1 <= m <= 12
  {
    if m == 2 then (if IsLeap(y) then 29 else 28)
    else if m == 4 || m == 6 || m == 9 || m == 11 then 30
    else 31
  }

  function DaysInYear(y: int): int {
    if IsLeap(y) then 366 else 365
  }

  /** What `datetime.date` accepts: MINYEAR 1 to MAXYEAR 9999, an existing day of an existing month. */
  predicate IsValid(d: YearMonthDay) {
    1 <= d.year <= 9999 && 1 <= d.month <= 12 && 1 <= d.day <= DaysInMonth(d.year, d.month)
  }

  type Date = d: YearMonthDay | IsValid(d) witness YearMonthDay(1, 1, 1)

  /** Days in the years before `y` (Euclidean division by a positive constant is Python's floor division). */
  function DaysBeforeYear(y: int): int {
    var p := y - 1;
    p * 365 + p / 4 - p / 100 + p / 400
  }

  /** Days in the months of year `y` before month `m`. */
  function DaysBeforeMonth(y: int, m: int): int
    requires 1 <= m <= 12
  {
    [0, 0, 31, 59, 90, 120, 151, 181, 212, 243, 273, 304, 334][m] + (if m > 2 && IsLeap(y) then 1 else 0)
  }

  /** `_ymd2ord`: the day number, 0001-01-01 being day 1. */
  function Ordinal(y: int, m: int, d: int): int
    requires 1 <= m <= 12
  {
    DaysBeforeYear(y) + DaysBeforeMonth(y, m) + d
  }

  /** `_isoweek1monday`: the ordinal of the Monday that starts ISO week 1 of year `y`. */
  function IsoWeek1Monday(y: int): int {
    var firstDay := Ordinal(y, 1, 1);
    var firstWeekday := (firstDay + 6) % 7;   // 0 is Monday
    var week1Monday := firstDay - firstWeekday;
    if firstWeekday > 3 then week1Monday + 7 else week1Monday
  }

  datatype IsoDate = IsoDate(isoYear: int, week: int, weekday: int)

  /** `date.isocalendar()`: the ISO year, the ISO week number and the ISO weekday (1 is Monday). */
  function IsoCalendar(d: Date): (r: IsoDate)
    ensures 1 <= r.week <= 53 && 1 <= r.weekday <= 7
    ensures d.year - 1 <= r.isoYear <= d.year + 1
  {
    var today := Ordinal(d.year, d.month, d.day);
    var week1Monday := IsoWeek1Monday(d.year);
    var week, day := (today - week1Monday) / 7, (today - week1Monday) % 7;
    IsoYearsAround(d);
    if week < 0 then
      var prevMonday := IsoWeek1Monday(d.year - 1);
      IsoDate(d.year - 1, (today - prevMonday) / 7 + 1, (today - prevMonday) % 7 + 1)
    else if week >= 52 && today >= IsoWeek1Monday(d.year + 1) then
      IsoDate(d.year + 1, 1, day + 1)
    else
      IsoDate(d.year, week + 1, day + 1)
  }

  /** `date.isocalendar()[1]`. */
  function IsoWeek(d: Date): (w: int)
    ensures 1 <= w <= 53
  {
    IsoCalendar(d).week
  }

  /** Floor division by 4 steps up by one exactly at a multiple of 4. */
  lemma FloorStep4(p: int)
    ensures (p + 1) / 4 - p / 4 == if (p + 1) % 4 == 0 then 1 else 0
  {
    var q, r := p / 4, p % 4;
    assert p == 4 * q + r;
    if r == 3 {
      assert p + 1 == 4 * (q + 1);
    } else {
      assert p + 1 == 4 * q + (r + 1);
    }
  }

  /** Floor division by 100 steps up by one exactly at a multiple of 100. */
  lemma FloorStep100(p: int)
    ensures (p + 1) / 100 - p / 100 == if (p + 1) % 100 == 0 then 1 else 0
  {
    var q, r := p / 100, p % 100;
    assert p == 100 * q + r;
    if r == 99 {
      assert p + 1 == 100 * (q + 1);
    } else {
      assert p + 1 == 100 * q + (r + 1);
    }
  }

  /** Floor division by 400 steps up by one exactly at a multiple of 400. */
  lemma FloorStep400(p: int)
    ensures (p + 1) / 400 - p / 400 == if (p + 1) % 400 == 0 then 1 else 0
  {
    var q, r := p / 400, p % 400;
    assert p == 400 * q + r;
    if r == 399 {
      assert p + 1 == 400 * (q + 1);
    } else {
      assert p + 1 == 400 * q + (r + 1);
    }
  }

  /** A multiple of 400 is a multiple of 100, and a multiple of 100 one of 4. */
  lemma Multiples(y: int)
    ensures y % 400 == 0 ==> y % 100 == 0
    ensures y % 100 == 0 ==> y % 4 == 0
  {
    if y % 400 == 0 {
      var a := y / 400;
      assert y == 100 * (4 * a);
    }
    if y % 100 == 0 {
      var b := y / 100;
      assert y == 4 * (25 * b);
    }
  }

  lemma YearLength(y: int)
    ensures DaysBeforeYear(y + 1) - DaysBeforeYear(y) == DaysInYear(y)
  {
    var p := y - 1;
    FloorStep4(p);
    FloorStep100(p);
    FloorStep400(p);
    Multiples(y);
    assert DaysBeforeYear(y + 1) - DaysBeforeYear(y) == 365 + ((p + 1) / 4 - p / 4) - ((p + 1) / 100 - p / 100) + ((p + 1) / 400 - p / 400);
  }

  /** A date's ordinal lies between its New Year's Day and the next one. */
  lemma OrdinalInYear(d: Date)
    ensures Ordinal(d.year, 1, 1) <= Ordinal(d.year, d.month, d.day) < Ordinal(d.year + 1, 1, 1)
  {
    YearLength(d.year);
  }

  /** The rounding of `_isoweek1monday`, for any ordinal `f` of a New Year's Day. */
  lemma MondayRounding(f: int)
    ensures var fw := (f + 6) % 7;
            var w := if fw > 3 then f - fw + 7 else f - fw;
            (w + 6) % 7 == 0 && f - 3 <= w <= f + 3
  {
    var fw := (f + 6) % 7;
    var k := (f + 6) / 7;
    assert f + 6 == 7 * k + fw;
    var w := if fw > 3 then f - fw + 7 else f - fw;
    assert w + 6 == 7 * (if fw > 3 then k + 1 else k);
  }

  /** ISO week 1 starts on a Monday within three days of New Year's Day. */
  lemma IsoWeek1MondayNearNewYear(y: int)
    ensures (IsoWeek1Monday(y) + 6) % 7 == 0
    ensures Ordinal(y, 1, 1) - 3 <= IsoWeek1Monday(y) <= Ordinal(y, 1, 1) + 3
  {
    MondayRounding(Ordinal(y, 1, 1));
  }

  /** An ISO year has 52 or 53 weeks. */
  lemma YearsOfIsoWeeks(y: int)
    ensures IsoWeek1Monday(y + 1) - IsoWeek1Monday(y) == 364 || IsoWeek1Monday(y + 1) - IsoWeek1Monday(y) == 371
  {
    var a, b := IsoWeek1Monday(y), IsoWeek1Monday(y + 1);
    IsoWeek1MondayNearNewYear(y);
    IsoWeek1MondayNearNewYear(y + 1);
    YearLength(y);
    var ka, kb := (a + 6) / 7, (b + 6) / 7;
    assert a + 6 == 7 * ka && b + 6 == 7 * kb;
    assert 359 <= 7 * (kb - ka) <= 372;
  }

  /** A date falls on or after the start of the previous ISO year, and ISO years last at most 371 days. */
  lemma IsoYearsAround(d: Date)
    ensures IsoWeek1Monday(d.year - 1) <= Ordinal(d.year, d.month, d.day)
    ensures IsoWeek1Monday(d.year) - IsoWeek1Monday(d.year - 1) <= 371
    ensures IsoWeek1Monday(d.year + 1) - IsoWeek1Monday(d.year) <= 371
  {
    OrdinalInYear(d);
    IsoWeek1MondayNearNewYear(d.year);
    YearsOfIsoWeeks(d.year - 1);
    YearsOfIsoWeeks(d.year);
  }
}
