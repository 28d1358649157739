/** The calendar date of a day counted from 1970-01-01. */
module CivilDate {
  datatype Date = Date(year: int, month: int, day: int)

  // ------------------------------------------------------------ the Gregorian calendar

  predicate Leap(year: int) {
    year % 4 == 0 && (year % 100 != 0 || year % 400 == 0)
  }

  function MonthLength(year: int, month: int): int {
    if month == 2 then (if Leap(year) then 29 else 28)
    else if month == 4 || month == 6 || month == 9 || month == 11 then 30 else 31
  }

  predicate Valid(d: Date) {
    1 <= d.month <= 12 && 1 <= d.day <= MonthLength(d.year, d.month)
  }

  function Next(d: Date): Date {
    if d.day < MonthLength(d.year, d.month) then d.(day := d.day + 1)
    else if d.month < 12 then Date(d.year, d.month + 1, 1)
    else Date(d.year + 1, 1, 1)
  }

  /** Days of all years before this one, counted from the first of January of year 1. */
  function DaysBeforeYear(year: int): int {
    365 * (year - 1) + (year - 1) / 4 - (year - 1) / 100 + (year - 1) / 400
  }

  function DaysBeforeMonth(year: int, month: int): int
    requires 1 <= month <= 13
    decreases month
  {
    if month == 1 then 0 else DaysBeforeMonth(year, month - 1) + MonthLength(year, month - 1)
  }

  const EPOCH: int := 719162

  /** The day's number, counted from 1970-01-01. */
  function DayNumber(d: Date): int
    requires Valid(d)
  {
    DaysBeforeYear(d.year) + DaysBeforeMonth(d.year, d.month) + d.day - 1 - EPOCH
  }

  function YearLength(year: int): int {
    if Leap(year) then 366 else 365
  }

  lemma {:induction false} YearStep(year: int)
    ensures DaysBeforeYear(year + 1) == DaysBeforeYear(year) + YearLength(year)
  {
    Div4(year);
    Div100(year);
    Div400(year);
    Multiples(year);
  }

  lemma {:induction false} Div4(n: int)
    ensures n / 4 == (n - 1) / 4 + if n % 4 == 0 then 1 else 0
  {
  }

  lemma {:induction false} Div100(n: int)
    ensures n / 100 == (n - 1) / 100 + if n % 100 == 0 then 1 else 0
  {
  }

  lemma {:induction false} Div400(n: int)
    ensures n / 400 == (n - 1) / 400 + if n % 400 == 0 then 1 else 0
  {
  }

  lemma {:induction false} Multiples(n: int)
    ensures n % 400 == 0 ==> n % 100 == 0
    ensures n % 100 == 0 ==> n % 4 == 0
  {
  }

  lemma {:induction false} MonthTable(year: int)
    ensures var l := if Leap(year) then 1 else 0;
      DaysBeforeMonth(year, 1) == 0 && DaysBeforeMonth(year, 2) == 31 && DaysBeforeMonth(year, 3) == 59 + l &&
      DaysBeforeMonth(year, 4) == 90 + l && DaysBeforeMonth(year, 5) == 120 + l &&
      DaysBeforeMonth(year, 6) == 151 + l && DaysBeforeMonth(year, 7) == 181 + l &&
      DaysBeforeMonth(year, 8) == 212 + l && DaysBeforeMonth(year, 9) == 243 + l &&
      DaysBeforeMonth(year, 10) == 273 + l && DaysBeforeMonth(year, 11) == 304 + l &&
      DaysBeforeMonth(year, 12) == 334 + l && DaysBeforeMonth(year, 13) == 365 + l
  {
    hide Leap;
    assert DaysBeforeMonth(year, 3) == DaysBeforeMonth(year, 2) + MonthLength(year, 2);
    assert DaysBeforeMonth(year, 5) == DaysBeforeMonth(year, 4) + MonthLength(year, 4);
    assert DaysBeforeMonth(year, 7) == DaysBeforeMonth(year, 6) + MonthLength(year, 6);
    assert DaysBeforeMonth(year, 9) == DaysBeforeMonth(year, 8) + MonthLength(year, 8);
    assert DaysBeforeMonth(year, 11) == DaysBeforeMonth(year, 10) + MonthLength(year, 10);
  }

  /** The next date is the next day. */
  lemma {:induction false} NextIsNext(d: Date)
    requires Valid(d)
    ensures Valid(Next(d)) && DayNumber(Next(d)) == DayNumber(d) + 1
  {
    hide Leap, DaysBeforeYear, DaysBeforeMonth;
    assert DaysBeforeMonth(d.year, d.month + 1) == DaysBeforeMonth(d.year, d.month) + MonthLength(d.year, d.month) by {
      MonthTable(d.year);
    }
    MonthTable(d.year);
    MonthTable(d.year + 1);
    YearStep(d.year);
  }

  /** A date's day of the year lies within the year. */
  lemma {:induction false} WithinYear(d: Date)
    requires Valid(d)
    ensures 0 <= DaysBeforeMonth(d.year, d.month) + d.day - 1 < YearLength(d.year)
  {
    hide Leap, DaysBeforeMonth;
    MonthTable(d.year);
  }

  lemma {:induction false} YearsGrow(a: int, b: int)
    requires a < b
    ensures DaysBeforeYear(a) + YearLength(a) <= DaysBeforeYear(b)
    decreases b - a
  {
    hide Leap, DaysBeforeYear;
    YearStep(b - 1);
    if a < b - 1 { YearsGrow(a, b - 1); }
  }

  lemma {:induction false} SameYearSameDate(a: Date, b: Date)
    requires Valid(a) && Valid(b) && a.year == b.year
    requires DaysBeforeMonth(a.year, a.month) + a.day == DaysBeforeMonth(b.year, b.month) + b.day
    ensures a == b
  {
    hide Leap, DaysBeforeMonth;
    MonthTable(a.year);
    assert a.month == b.month;
  }

  /** No two dates have the same number. */
  lemma {:induction false} NumbersDiffer(a: Date, b: Date)
    requires Valid(a) && Valid(b) && DayNumber(a) == DayNumber(b)
    ensures a == b
  {
    hide Leap, DaysBeforeYear, DaysBeforeMonth, YearLength, MonthLength, Valid;
    WithinYear(a);
    WithinYear(b);
    if a.year < b.year { YearsGrow(a.year, b.year); }
    if b.year < a.year { YearsGrow(b.year, a.year); }
    SameYearSameDate(a, b);
  }

  // ------------------------------------------------------------ the runtime's computation

  /** Division that truncates toward zero, as on the runtime's signed integers. */
  function Quotient(a: int, b: int): int
    requires b > 0
  {
    if a >= 0 then a / b else -(-a / b)
  }

  function Era(z: int): int {
    Quotient(if z >= 0 then z else z - 146096, 146097)
  }

  function YearOfEra(doe: int): int {
    (doe - doe / 1460 + doe / 36524 - doe / 146096) / 365
  }

  function MarchDate(year: int, doy: int): Date {
    var mp := (5 * doy + 2) / 153;
    var day := doy - (153 * mp + 2) / 5 + 1;
    var month := mp + if mp < 10 then 3 else -9;
    Date(year + (if month <= 2 then 1 else 0), month, day)
  }

  /** The date `transcript_timestamp` prints for a day. */
  function Civil(days: int): Date {
    var z := days + 719468;
    var era := Era(z);
    var doe := z - era * 146097;
    var yoe := YearOfEra(doe);
    var doy := doe - (365 * yoe + yoe / 4 - yoe / 100);
    MarchDate(yoe + era * 400, doy)
  }

  /** The era is rounded down, for days before the epoch too. */
  lemma {:induction false} EraFloors(z: int)
    ensures Era(z) == z / 146097 && 0 <= z - Era(z) * 146097 < 146097
  {
    var q, r := z / 146097, z % 146097;
    if z < 0 {
      assert -(z - 146096) == 146097 * -q + (146096 - r);
      assert (146097 * -q + (146096 - r)) / 146097 == -q;
    }
  }

  /** A day of the era taken apart: century, four-year cycle, year and day. */
  predicate Splits(doe: int, c: int, q: int, y: int, t: int) {
    doe == 36524 * c + 1461 * q + 365 * y + t &&
    0 <= c <= 3 && 0 <= q <= 24 && 0 <= y <= 3 && 0 <= t <= 365 &&
    (t == 365 ==> y == 3 && (q < 24 || c == 3))
  }

  lemma {:induction false} Split(doe: int) returns (c: int, q: int, y: int, t: int)
    requires 0 <= doe < 146097
    ensures Splits(doe, c, q, y, t)
  {
    c := if doe == 146096 then 3 else doe / 36524;
    var r := doe - 36524 * c;
    q := r / 1461;
    var s := r - 1461 * q;
    y := if s == 1460 then 3 else s / 365;
    t := s - 365 * y;
  }

  /** The year-of-era formula undoes the decomposition. */
  lemma {:induction false} YearOfEraOk(doe: int, c: int, q: int, y: int, t: int)
    requires Splits(doe, c, q, y, t)
    ensures YearOfEra(doe) == 100 * c + 4 * q + y
  {
    var k := if 24 * c + q + 365 * y + t >= 1460 then 1 else 0;
    assert doe == 1460 * (25 * c + q + k) + (24 * c + q + 365 * y + t - 1460 * k);
    assert doe / 1460 == 25 * c + q + k;
    var last := if doe == 146096 then 1 else 0;
    assert doe / 36524 == c + last;
    assert doe / 146096 == last;
    assert 0 <= t - k < 365;
    assert doe - doe / 1460 + doe / 36524 - doe / 146096 == 365 * (100 * c + 4 * q + y) + (t - k);
  }

  /** The day of the March-based year is in range, and is 365 only when the year ends in a leap February. */
  lemma {:induction false} DayOfYear(doe: int)
    requires 0 <= doe < 146097
    ensures var yoe := YearOfEra(doe);
      var doy := doe - (365 * yoe + yoe / 4 - yoe / 100);
      0 <= yoe < 400 && 0 <= doy <= 365 && (doy == 365 ==> Leap(yoe + 1))
  {
    hide YearOfEra, Leap;
    var c, q, y, t := Split(doe);
    YearOfEraOk(doe, c, q, y, t);
    Quarters(c, q, y);
    if t == 365 { EndsLeap(c, q); }
  }

  lemma {:induction false} Quarters(c: int, q: int, y: int)
    requires 0 <= c <= 3 && 0 <= q <= 24 && 0 <= y <= 3
    ensures (100 * c + 4 * q + y) / 4 == 25 * c + q && (100 * c + 4 * q + y) / 100 == c
  {
  }

  /** The year after the last of a four-year cycle is a leap year, except at the end of the first three centuries. */
  lemma {:induction false} EndsLeap(c: int, q: int)
    requires 0 <= c <= 3 && 0 <= q <= 24 && (q < 24 || c == 3)
    ensures Leap(100 * c + 4 * q + 4)
  {
    var year := 100 * c + 4 * q + 4;
    By4(0, 25 * c + q + 1);
    By100(4 * q + 4, c);
  }

  lemma {:induction false} LeapShifts(year: int, era: int)
    ensures Leap(year + 400 * era) <==> Leap(year)
  {
    By4(year, 100 * era);
    By100(year, 4 * era);
    By400(year, era);
  }

  lemma {:induction false} By4(a: int, m: int)
    ensures (a + 4 * m) % 4 == a % 4
  {
  }

  lemma {:induction false} By100(a: int, m: int)
    ensures (a + 100 * m) % 100 == a % 100
  {
  }

  lemma {:induction false} By400(a: int, m: int)
    ensures (a + 400 * m) % 400 == a % 400
  {
  }

  /** The month formula yields a valid date whose day of the year is right. */
  lemma {:induction false} MarchDateOk(year: int, doy: int)
    requires 0 <= doy <= 365 && (doy == 365 ==> Leap(year + 1))
    ensures var d := MarchDate(year, doy);
      Valid(d) && DaysBeforeYear(d.year) + DaysBeforeMonth(d.year, d.month) + d.day - 1 ==
        DaysBeforeYear(year + 1) - 306 + doy
  {
    hide DaysBeforeYear, DaysBeforeMonth, Leap;
    var mp := (5 * doy + 2) / 153;
    assert 0 <= mp <= 11;
    YearStep(year);
    MonthTable(year);
    MonthTable(year + 1);
    MonthStart(mp, doy);
  }

  lemma {:induction false} MonthStart(mp: int, doy: int)
    requires 0 <= doy <= 365 && mp == (5 * doy + 2) / 153
    ensures 0 <= mp <= 11
    ensures var s := (153 * mp + 2) / 5;
      s == [0, 31, 61, 92, 122, 153, 184, 214, 245, 275, 306, 337][mp] &&
      s <= doy < [31, 61, 92, 122, 153, 184, 214, 245, 275, 306, 337, 366][mp]
  {
  }

  lemma {:induction false} YearStart(yoe: int, era: int)
    requires 0 <= yoe < 400
    ensures DaysBeforeYear(yoe + era * 400 + 1) == 146097 * era + 365 * yoe + yoe / 4 - yoe / 100
  {
    assert (yoe + era * 400) / 4 == yoe / 4 + 100 * era;
    assert (yoe + era * 400) / 100 == yoe / 100 + 4 * era;
    assert (yoe + era * 400) / 400 == era;
  }

  /** Every day, before and after the epoch, gets a valid date, and that date is the day's. */
  lemma {:induction false} CivilIsRight(days: int)
    ensures Valid(Civil(days)) && DayNumber(Civil(days)) == days
  {
    hide Era, YearOfEra, DaysBeforeYear, DaysBeforeMonth, MarchDate, Leap;
    var z := days + 719468;
    var era := Era(z);
    EraFloors(z);
    var doe := z - era * 146097;
    DayOfYear(doe);
    var yoe := YearOfEra(doe);
    var doy := doe - (365 * yoe + yoe / 4 - yoe / 100);
    LeapShifts(yoe + 1, era);
    assert yoe + 1 + 400 * era == yoe + era * 400 + 1;
    YearStart(yoe, era);
    MarchDateOk(yoe + era * 400, doy);
  }

  lemma {:induction false} FirstDay()
    ensures Civil(0) == Date(1970, 1, 1)
  {
    assert Era(719468) == 4;
    assert YearOfEra(135080) == 369;
    assert MarchDate(1969, 306) == Date(1970, 1, 1);
  }

  /** The first day is 1970-01-01, each day's date is followed by the next day's, and each date is some day's. */
  lemma {:induction false} CivilFollowsCalendar(days: int, d: Date)
    requires Valid(d)
    ensures Civil(0) == Date(1970, 1, 1)
    ensures Civil(days + 1) == Next(Civil(days))
    ensures Civil(DayNumber(d)) == d
  {
    FirstDay();
    hide DayNumber, Valid, Next, Civil;
    CivilIsRight(days);
    CivilIsRight(days + 1);
    NextIsNext(Civil(days));
    NumbersDiffer(Civil(days + 1), Next(Civil(days)));
    CivilIsRight(DayNumber(d));
    NumbersDiffer(Civil(DayNumber(d)), d);
  }
}
