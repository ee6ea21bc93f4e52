/**
  The proleptic Gregorian calendar by its own rules (leap years, month lengths,
  the day after), and the era arithmetic that computes a civil date from a day
  number, proved to be its inverse for every day.
*/
module Calendar {
  datatype Date = Date(year: int, month: int, day: int)

  predicate IsLeap(y: int) { y % 4 == 0 && (y % 100 != 0 || y % 400 == 0) }

  function DaysInMonth(y: int, m: int): int {
    if m == 2 then (if IsLeap(y) then 29 else 28)
    else if m == 4 || m == 6 || m == 9 || m == 11 then 30
    else 31
  }

  predicate Valid(d: Date) { 1 <= d.month <= 12 && 1 <= d.day <= DaysInMonth(d.year, d.month) }

  /** The calendar's successor. */
  function DayAfter(d: Date): Date {
    if d.day < DaysInMonth(d.year, d.month) then d.(day := d.day + 1)
    else if d.month < 12 then Date(d.year, d.month + 1, 1)
    else Date(d.year + 1, 1, 1)
  }

  predicate Before(a: Date, b: Date) {
    a.year < b.year || (a.year == b.year && (a.month < b.month || (a.month == b.month && a.day < b.day)))
  }

  /** Days from 0000-01-01 to the first of January of `y`. */
  function DaysBeforeYear(y: int): int { 365 * y + (y + 3) / 4 - (y + 99) / 100 + (y + 399) / 400 }

  function DaysBeforeMonth(y: int, m: int): int
    requires 1 <= m <= 13
    decreases m
  {
    if m == 1 then 0 else DaysBeforeMonth(y, m - 1) + DaysInMonth(y, m - 1)
  }

  /** The day number of a date; that of 1970-01-01 is 0. */
  function DayNumber(d: Date): int
    requires Valid(d)
  {
    DaysBeforeYear(d.year) + DaysBeforeMonth(d.year, d.month) + d.day - 1 - 719_528
  }

  // The source's computation, with its own intermediate values.

  function YearOfEra(doe: int): int { (doe - doe / 1460 + doe / 36_524 - doe / 146_096) / 365 }

  /** Days before year `yoe` of a 400-year era whose years begin in March. */
  function EraYearStart(yoe: int): int { 365 * yoe + yoe / 4 - yoe / 100 }

  function Civil(days: int): Date {
    var z := days + 719_468;
    var era := z / 146_097;
    var doe := z % 146_097;
    var yoe := YearOfEra(doe);
    var doy := doe - (365 * yoe + yoe / 4 - yoe / 100);
    var mp := (5 * doy + 2) / 153;
    var day := doy - (153 * mp + 2) / 5 + 1;
    var month := if mp < 10 then mp + 3 else mp - 9;
    Date(yoe + era * 400 + (if month <= 2 then 1 else 0), month, day)
  }

  // Years of an era

  /** The year of the era holds its day: it is the one whose span contains `doe`. */
  lemma YearHoldsDay(doe: int)
    requires 0 <= doe < 146_097
    ensures 0 <= YearOfEra(doe) < 400
    ensures EraYearStart(YearOfEra(doe)) <= doe
         < EraYearStart(YearOfEra(doe) + 1) + (if YearOfEra(doe) == 399 then 1 else 0)
  {
    var c := if doe == 146_096 then 3 else doe / 36_524;
    var r := doe - 36_524 * c;
    var q := if r == 36_524 then 24 else r / 1461;
    var t := r - 1461 * q;
    YearFormula(doe, c, q, t);
    YearSpan(c, q, t);
  }

  /** The century, the four-year cycle and the year in it that the formula finds. */
  lemma YearFormula(doe: int, c: int, q: int, t: int)
    requires 0 <= c <= 3 && 0 <= q <= 24 && 0 <= t <= 1460
    requires doe == 36_524 * c + 1461 * q + t && doe <= 146_096
    requires q == 24 && t == 1460 ==> c == 3
    ensures YearOfEra(doe) == 100 * c + 4 * q + (if t == 1460 then 3 else t / 365)
  {
    assert doe / 1460 == 25 * c + q + (24 * c + q + t) / 1460;
    assert doe / 36_524 == c + (if doe == 146_096 then 1 else 0);
    assert doe / 146_096 == if doe == 146_096 then 1 else 0;
    var cut := (24 * c + q + t) / 1460;
    assert cut == if t >= 1460 - 24 * c - q then 1 else 0;
    assert YearOfEra(doe) == (36_500 * c + 1460 * q + t - cut) / 365;
    assert (t - cut) / 365 == if t == 1460 then 3 else t / 365;
    assert (365 * (100 * c + 4 * q) + (t - cut)) / 365 == 100 * c + 4 * q + (t - cut) / 365;
  }

  lemma YearSpan(c: int, q: int, t: int)
    requires 0 <= c <= 3 && 0 <= q <= 24 && 0 <= t <= 1460
    requires q == 24 && t == 1460 ==> c == 3
    ensures var y, doe := 100 * c + 4 * q + (if t == 1460 then 3 else t / 365), 36_524 * c + 1461 * q + t;
      && 0 <= y < 400
      && EraYearStart(y) <= doe < EraYearStart(y + 1) + (if y == 399 then 1 else 0)
  {
    var k := if t == 1460 then 3 else t / 365;
    var y := 100 * c + 4 * q + k;
    assert 0 <= k <= 3;
    assert y / 100 == c && y / 4 == 25 * c + q;
    assert (y + 1) / 4 == 25 * c + q + (if k == 3 then 1 else 0);
    assert (y + 1) / 100 == c + (if q == 24 && k == 3 then 1 else 0);
  }

  // Months of a year that begins in March

  function MarchMonthStart(mp: int): int { (153 * mp + 2) / 5 }

  lemma MonthHoldsDay(doy: int)
    requires 0 <= doy <= 365
    ensures var mp := (5 * doy + 2) / 153;
      && 0 <= mp <= 11
      && MarchMonthStart(mp) <= doy
      && (mp < 11 ==> doy < MarchMonthStart(mp + 1))
  {
  }

  /** Month lengths, summed from January, against the March-based table. */
  lemma MonthTable(y: int, mp: int)
    requires 0 <= mp <= 11
    ensures mp < 10 ==> DaysBeforeMonth(y, mp + 3) == MarchMonthStart(mp) + 59 + (if IsLeap(y) then 1 else 0)
    ensures mp >= 10 ==> DaysBeforeMonth(y, mp - 9) == MarchMonthStart(mp) - 306
    ensures mp < 10 ==> MarchMonthStart(mp) + DaysInMonth(y, mp + 3) == MarchMonthStart(mp + 1)
    ensures mp == 10 ==> MarchMonthStart(mp) + DaysInMonth(y, 1) == MarchMonthStart(11)
  {
    assert DaysBeforeMonth(y, 1) == 0;
    assert DaysBeforeMonth(y, 2) == 31;
    assert DaysBeforeMonth(y, 3) == 59 + (if IsLeap(y) then 1 else 0);
    assert DaysBeforeMonth(y, 4) == DaysBeforeMonth(y, 3) + 31;
    assert DaysBeforeMonth(y, 5) == DaysBeforeMonth(y, 3) + 61;
    assert DaysBeforeMonth(y, 6) == DaysBeforeMonth(y, 3) + 92;
    assert DaysBeforeMonth(y, 7) == DaysBeforeMonth(y, 3) + 122;
    assert DaysBeforeMonth(y, 8) == DaysBeforeMonth(y, 3) + 153;
    assert DaysBeforeMonth(y, 9) == DaysBeforeMonth(y, 3) + 184;
    assert DaysBeforeMonth(y, 10) == DaysBeforeMonth(y, 3) + 214;
    assert DaysBeforeMonth(y, 11) == DaysBeforeMonth(y, 3) + 245;
    assert DaysBeforeMonth(y, 12) == DaysBeforeMonth(y, 3) + 275;
  }

  // Rounding up and whole cycles, one divisor at a time.

  lemma By4(y: int)
    ensures (y + 3) / 4 == y / 4 + (if y % 4 == 0 then 0 else 1) && (y + 4) / 4 == y / 4 + 1
  {
  }

  lemma By100(y: int)
    ensures (y + 99) / 100 == y / 100 + (if y % 100 == 0 then 0 else 1) && (y + 100) / 100 == y / 100 + 1
  {
  }

  lemma By400(y: int)
    ensures (y + 399) / 400 == y / 400 + (if y % 400 == 0 then 0 else 1) && (y + 400) / 400 == y / 400 + 1
  {
  }

  /** A fourth century is a century and a century is a fourth year. */
  lemma Multiples(y: int)
    ensures y % 100 == 0 ==> y % 4 == 0
    ensures y % 400 == 0 ==> y % 100 == 0
  {
    if y % 100 == 0 {
      assert y == 4 * (25 * (y / 100));
    }
    if y % 400 == 0 {
      assert y == 100 * (4 * (y / 400));
    }
  }

  /** The years counted from January and those counted from March agree on the first of March. */
  lemma MarchFirst(y: int)
    ensures DaysBeforeYear(y + 1) == 365 * y + 366 + y / 4 - y / 100 + y / 400
    ensures DaysBeforeYear(y + 1) == DaysBeforeYear(y) + 365 + (if IsLeap(y) then 1 else 0)
  {
    By4(y);
    By100(y);
    By400(y);
    Multiples(y);
    assert (y + 1) + 3 == y + 4 && (y + 1) + 99 == y + 100 && (y + 1) + 399 == y + 400;
  }

  lemma Cycle4(era: int, yoe: int)
    ensures (400 * era + yoe) / 4 == 100 * era + yoe / 4 && (400 * era + yoe) % 4 == yoe % 4
  {
  }

  lemma Cycle100(era: int, yoe: int)
    ensures (400 * era + yoe) / 100 == 4 * era + yoe / 100 && (400 * era + yoe) % 100 == yoe % 100
  {
  }

  lemma EraYears(era: int, yoe: int)
    requires 0 <= yoe < 400
    ensures var y := 400 * era + yoe;
      365 * y + y / 4 - y / 100 + y / 400 == 146_097 * era + EraYearStart(yoe)
  {
    Cycle4(era, yoe);
    Cycle100(era, yoe);
    assert (400 * era + yoe) / 400 == era;
  }

  lemma EraLeap(era: int, yoe: int)
    requires 0 <= yoe < 400
    ensures EraYearStart(yoe + 1) ==
      EraYearStart(yoe) + 365 + (if IsLeap(400 * era + yoe + 1) && yoe < 399 then 1 else 0)
    ensures yoe == 399 ==> IsLeap(400 * era + yoe + 1)
  {
    Cycle4(era, yoe + 1);
    Cycle100(era, yoe + 1);
    Cycle400(era, yoe + 1);
    NextMultiple(yoe);
  }

  lemma Cycle400(era: int, yoe: int)
    ensures (400 * era + yoe) % 400 == yoe % 400
  {
  }

  /** A quotient goes up at a multiple of its divisor. */
  lemma NextMultiple(y: int)
    ensures (y + 1) / 4 == y / 4 + (if (y + 1) % 4 == 0 then 1 else 0)
    ensures (y + 1) / 100 == y / 100 + (if (y + 1) % 100 == 0 then 1 else 0)
    ensures (y + 1) % 100 == 0 ==> (y + 1) % 4 == 0
  {
    Multiples(y + 1);
  }

  /** For every day, the computed date is a calendar date and its day number is that day. */
  lemma CivilIsTheDate(days: int)
    ensures Valid(Civil(days)) && DayNumber(Civil(days)) == days
  {
    hide DayNumber, Valid, IsLeap, YearOfEra;
    var z := days + 719_468;
    var era, doe := z / 146_097, z % 146_097;
    YearHoldsDay(doe);
    var yoe := YearOfEra(doe);
    EraLeap(era, yoe);
    DateInEra(era, yoe, doe - EraYearStart(yoe));
  }

  /** The date of day `doy` of the March year `yoe` of an era. */
  lemma DateInEra(era: int, yoe: int, doy: int)
    requires 0 <= yoe < 400 && 0 <= doy <= 365
    requires EraYearStart(yoe) + doy < EraYearStart(yoe + 1) + (if yoe == 399 then 1 else 0)
    ensures var mp := (5 * doy + 2) / 153;
      var month := if mp < 10 then mp + 3 else mp - 9;
      var d := Date(400 * era + yoe + (if month <= 2 then 1 else 0), month, doy - MarchMonthStart(mp) + 1);
      Valid(d) && DayNumber(d) + 719_468 == 146_097 * era + EraYearStart(yoe) + doy
  {
    var mp := (5 * doy + 2) / 153;
    var y := 400 * era + yoe;
    MonthHoldsDay(doy);
    MonthTable(if mp < 10 then y else y + 1, mp);
    MarchFirst(y);
    EraYears(era, yoe);
    if mp == 11 {
      FebruaryFits(era, yoe, doy);
    }
  }

  lemma FebruaryFits(era: int, yoe: int, doy: int)
    requires 0 <= yoe < 400 && EraYearStart(yoe) + doy < EraYearStart(yoe + 1) + (if yoe == 399 then 1 else 0)
    ensures doy - MarchMonthStart(11) + 1 <= DaysInMonth(400 * era + yoe + 1, 2)
  {
    EraLeap(era, yoe);
  }

  // Day numbers order dates, so the computed date is the only one.

  lemma {:induction false} MonthsAscend(y: int, m: int, n: int)
    requires 1 <= m < n <= 13
    ensures DaysBeforeMonth(y, m) + DaysInMonth(y, m) <= DaysBeforeMonth(y, n)
    decreases n - m
  {
    if m + 1 < n {
      MonthsAscend(y, m, n - 1);
    }
  }

  lemma WithinYear(d: Date)
    requires Valid(d)
    ensures DaysBeforeYear(d.year) <= DayNumber(d) + 719_528 < DaysBeforeYear(d.year + 1)
    ensures DaysBeforeMonth(d.year, d.month) >= 0
  {
    MonthsAscend(d.year, d.month, 13);
    if d.month > 1 {
      MonthsAscend(d.year, 1, d.month);
    }
    MarchFirst(d.year);
    MonthTable(d.year, 9);
  }

  lemma YearsAscend(a: int, b: int)
    requires a <= b
    ensures DaysBeforeYear(a) <= DaysBeforeYear(b)
  {
  }

  /** An earlier date has a smaller day number. */
  lemma DatesAscend(a: Date, b: Date)
    requires Valid(a) && Valid(b) && Before(a, b)
    ensures DayNumber(a) < DayNumber(b)
  {
    if a.year < b.year {
      WithinYear(a);
      WithinYear(b);
      YearsAscend(a.year + 1, b.year);
    } else if a.month < b.month {
      MonthsAscend(a.year, a.month, b.month);
    }
  }

  /** The computed date is the unique calendar date with that day number. */
  lemma CivilIsUnique(d: Date)
    requires Valid(d)
    ensures Civil(DayNumber(d)) == d
  {
    var c := Civil(DayNumber(d));
    CivilIsTheDate(DayNumber(d));
    if Before(c, d) {
      DatesAscend(c, d);
    } else if Before(d, c) {
      DatesAscend(d, c);
    }
  }

  lemma DayAfterIsNext(d: Date)
    requires Valid(d)
    ensures Valid(DayAfter(d)) && DayNumber(DayAfter(d)) == DayNumber(d) + 1
  {
    if d.day == DaysInMonth(d.year, d.month) && d.month == 12 {
      MarchFirst(d.year);
      MonthTable(d.year, 9);
    }
  }

  lemma Epoch()
    ensures Civil(0) == Date(1970, 1, 1)
  {
    assert 719_468 / 146_097 == 4 && 719_468 % 146_097 == 135_080;
    assert 135_080 / 1460 == 92 && 135_080 / 36_524 == 3 && 135_080 / 146_096 == 0;
    assert YearOfEra(135_080) == 369;
  }

  /** Day 0 is 1970-01-01 and each day's date is the calendar's successor of the day before: this fixes every date. */
  lemma CivilFollowsTheCalendar(days: int)
    ensures Civil(0) == Date(1970, 1, 1)
    ensures Civil(days + 1) == DayAfter(Civil(days))
  {
    hide Civil, DayNumber, Valid, DayAfter;
    Epoch();
    CivilIsTheDate(days);
    DayAfterIsNext(Civil(days));
    CivilIsUnique(DayAfter(Civil(days)));
  }
}
