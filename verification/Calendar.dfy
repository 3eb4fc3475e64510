/** `epoch_to_ymdhms` of `sonda-core/benches/scheduler_baseline.rs` against the plain
    Gregorian calendar: month lengths, leap years and "the day after". */
module Calendar {
  import opened Words

  // ---- The plain calendar ----

  datatype Date = Date(year: int, month: int, day: int)

  const EPOCH := Date(1970, 1, 1)

  predicate Leap(year: int)
  {
    year % 4 == 0 && (year % 100 != 0 || year % 400 == 0)
  }

  function YearLength(year: int): int
  {
    if Leap(year) then 366 else 365
  }

  function MonthLength(year: int, month: int): int
  {
    if month == 2 then (if Leap(year) then 29 else 28)
    else if month in {4, 6, 9, 11} then 30
    else 31
  }

  predicate Valid(d: Date)
  {
    1 <= d.month <= 12 && 1 <= d.day <= MonthLength(d.year, d.month)
  }

  function NextDay(d: Date): Date
  {
    if d.day < MonthLength(d.year, d.month) then Date(d.year, d.month, d.day + 1)
    else if d.month < 12 then Date(d.year, d.month + 1, 1)
    else Date(d.year + 1, 1, 1)
  }

  /** The date `n` days after 1970-01-01, one day at a time. */
  function NthDay(n: nat): Date
  {
    if n == 0 then EPOCH else NextDay(NthDay(n - 1))
  }

  function DaysBeforeYear(year: int): nat
    requires year >= 1970
    decreases year
  {
    if year == 1970 then 0 else DaysBeforeYear(year - 1) + YearLength(year - 1)
  }

  function DaysBeforeMonth(year: int, month: int): nat
    requires 1 <= month <= 12
    decreases month
  {
    if month == 1 then 0 else DaysBeforeMonth(year, month - 1) + MonthLength(year, month - 1)
  }

  /** Days from 1970-01-01 to `d`, by counting years, then months, then days. */
  function DayNumber(d: Date): nat
    requires Valid(d) && d.year >= 1970
  {
    DaysBeforeYear(d.year) + DaysBeforeMonth(d.year, d.month) + d.day - 1
  }

  /** `d` is a date of the calendar, and it is the day `n` days after 1970-01-01. */
  predicate IsDay(d: Date, n: int)
  {
    Valid(d) && d.year >= 1970 && DayNumber(d) == n
  }

  lemma MonthsFillTheYear(year: int)
    ensures DaysBeforeMonth(year, 12) + 31 == YearLength(year)
    ensures forall m: int | 1 <= m <= 12 ::
              DaysBeforeMonth(year, m) + MonthLength(year, m) <= YearLength(year)
  {
    MonthTable(year);
  }

  lemma MonthTable(year: int)
    ensures DaysBeforeMonth(year, 1) == 0
    ensures DaysBeforeMonth(year, 2) == 31
    ensures var l := YearLength(year) - 365;
            forall m: int | 3 <= m <= 12 ::
              DaysBeforeMonth(year, m) == 59 + l + (153 * (m - 3) + 2) / 5
  {
    assert DaysBeforeMonth(year, 3) == DaysBeforeMonth(year, 2) + MonthLength(year, 2);
    assert DaysBeforeMonth(year, 4) == DaysBeforeMonth(year, 3) + 31;
    assert DaysBeforeMonth(year, 5) == DaysBeforeMonth(year, 4) + 30;
    assert DaysBeforeMonth(year, 6) == DaysBeforeMonth(year, 5) + 31;
    assert DaysBeforeMonth(year, 7) == DaysBeforeMonth(year, 6) + 30;
    assert DaysBeforeMonth(year, 8) == DaysBeforeMonth(year, 7) + 31;
    assert DaysBeforeMonth(year, 9) == DaysBeforeMonth(year, 8) + 31;
    assert DaysBeforeMonth(year, 10) == DaysBeforeMonth(year, 9) + 30;
    assert DaysBeforeMonth(year, 11) == DaysBeforeMonth(year, 10) + 31;
    assert DaysBeforeMonth(year, 12) == DaysBeforeMonth(year, 11) + 30;
  }

  /** The day after has the next number. */
  lemma NextDayCounts(d: Date)
    requires Valid(d) && d.year >= 1970
    ensures Valid(NextDay(d))
    ensures DayNumber(NextDay(d)) == DayNumber(d) + 1
  {
    MonthsFillTheYear(d.year);
  }

  lemma {:induction false} YearsAreOrdered(y: int, z: int)
    requires 1970 <= y < z
    ensures DaysBeforeYear(y) + YearLength(y) <= DaysBeforeYear(z)
    decreases z
  {
    if y < z - 1 {
      YearsAreOrdered(y, z - 1);
    }
  }

  lemma MonthsAreOrdered(year: int, m: int, n: int)
    requires 1 <= m < n <= 12
    ensures DaysBeforeMonth(year, m) + MonthLength(year, m) <= DaysBeforeMonth(year, n)
    decreases n
  {
    if m < n - 1 {
      MonthsAreOrdered(year, m, n - 1);
    }
  }

  /** Two dates with one number are one date. */
  lemma DayNumberInjective(a: Date, b: Date)
    requires Valid(a) && Valid(b) && a.year >= 1970 && b.year >= 1970
    requires DayNumber(a) == DayNumber(b)
    ensures a == b
  {
    MonthsFillTheYear(a.year);
    MonthsFillTheYear(b.year);
    if a.year < b.year {
      YearsAreOrdered(a.year, b.year);
    } else if b.year < a.year {
      YearsAreOrdered(b.year, a.year);
    } else if a.month < b.month {
      MonthsAreOrdered(a.year, a.month, b.month);
    } else if b.month < a.month {
      MonthsAreOrdered(a.year, b.month, a.month);
    }
  }

  // ---- The code's computation ----

  /** Days from 0000-03-01 to March 1 of year `y`, in closed form. */
  function MarchDays(y: nat): nat
  {
    365 * y + y / 4 - y / 100 + y / 400
  }

  /** Year, month and day of a day count, as the code computes them. Every subtraction of
      the code's unsigned values is one on `nat` here. */
  function CivilFromDays(days: nat): Date
  {
    var z := days + 719_468;
    var era := z / 146_097;
    var doe: nat := z - era * 146_097;
    CivilOfEra(era, doe)
  }

  function CivilOfEra(era: nat, doe: nat): Date
    requires doe < 146_097
  {
    YearOfEra(doe);
    CivilOfYear(era, doe, YearOf(doe))
  }

  function CivilOfYear(era: nat, doe: nat, yoe: nat): Date
    requires yoe < 400 && MarchDays(yoe) <= doe
  {
    var before: nat := 365 * yoe + yoe / 4 - yoe / 100;
    var doy: nat := doe - before;
    MarchDate(yoe + era * 400, doy)
  }

  /** Day `doy` of the year that starts on March 1 of `y`. */
  function MarchDate(y: nat, doy: nat): Date
  {
    var mp := (5 * doy + 2) / 153;
    var back: nat := doy - (153 * mp + 2) / 5;
    var d := back + 1;
    var m: nat := if mp < 10 then mp + 3 else mp - 9;
    var year := if m <= 2 then y + 1 else y;
    Date(year, m, d)
  }

  function YearOf(doe: nat): nat
    requires doe < 146_097
  {
    var less: nat := doe - doe / 1460;
    var days: nat := less + doe / 36524 - doe / 146_096;
    days / 365
  }

  /** The year-of-era formula finds the March year that holds the day. */
  lemma YearOfEra(doe: nat)
    requires doe < 146_097
    ensures var y := YearOf(doe);
            y < 400 && MarchDays(y) <= doe && (y < 399 ==> doe < MarchDays(y + 1))
  {
    YearStarts(doe);
    if YearOf(doe) < 399 {
      YearEnds(doe);
    }
  }

  /** Days from the start of an era to March 1 of its year `y`. */
  function YearStart(y: int): int
  {
    365 * y + y / 4 - y / 100
  }

  lemma CenturyStart(c: int)
    ensures YearStart(100 * c) == 36524 * c
  {
  }

  lemma YearStartMonotonic(y: int, z: int)
    requires y <= z
    ensures YearStart(y) <= YearStart(z)
  {
    assert z / 100 - y / 100 <= z - y + 1;
  }

  lemma YearStarts(doe: nat)
    requires doe < 146_097
    ensures var y := YearOf(doe);
            y < 400 && YearStart(y) <= doe
  {
    var q1, q2, q3 := doe / 1460, doe / 36524, doe / 146_096;
    var y := YearOf(doe);
    YearOfBounds(doe);
    QuarterBound(y, doe);
    var c := q2 - q3;
    CenturyStart(c);
    if y < 100 * c {
      YearStartMonotonic(y, 100 * c);
    } else {
      CenturyBound(y, c);
    }
  }

  lemma YearOfBounds(doe: nat)
    requires doe < 146_097
    ensures 365 * YearOf(doe) <= doe - doe / 1460 + doe / 36524 - doe / 146_096 <= doe
    ensures YearOf(doe) < 400
  {
    assert doe / 36524 <= doe / 1460 <= 100 && doe / 36524 <= 4 && doe / 146_096 <= 1;
  }

  lemma QuarterBound(y: nat, doe: nat)
    requires 365 * y <= doe
    ensures y / 4 <= doe / 1460
  {
    assert 1460 * (y / 4) <= doe;
  }

  lemma CenturyBound(y: nat, c: int)
    requires y >= 100 * c
    ensures y / 100 >= c
  {
  }

  lemma YearEnds(doe: nat)
    requires doe < 146_097 && YearOf(doe) < 399
    ensures doe < YearStart(YearOf(doe) + 1)
  {
    var q1, q2, q3 := doe / 1460, doe / 36524, doe / 146_096;
    var n := YearOf(doe) + 1;
    assert q3 == 0 by {
      assert YearOf(146_096) == 399;
    }
    assert 365 * n > doe - q1 + q2;
    assert q1 <= 100;
    assert n / 4 >= q1;
    var c := q2 + 1;
    CenturyStart(c);
    if n >= 100 * c {
      YearStartMonotonic(100 * c, n);
    }
  }

  lemma DivShift(y: int, k: int, t: int)
    requires k > 0
    ensures (y + k * t) / k == y / k + t
  {
    assert k * (y / k + t) == k * (y / k) + k * t;
    DivUnique(y + k * t, k, y / k + t, y % k);
  }

  lemma DivStep(y: int, k: int)
    requires k > 0
    ensures (y + 1) / k - y / k == if (y + 1) % k == 0 then 1 else 0
  {
    var q, r := y / k, y % k;
    if r + 1 == k {
      DivUnique(y + 1, k, q + 1, 0);
    } else {
      DivUnique(y + 1, k, q, r + 1);
    }
  }

  /** A whole number of eras adds a whole number of March days. */
  lemma MarchDaysEra(y: nat, era: nat)
    ensures MarchDays(y + 400 * era) == MarchDays(y) + 146_097 * era
  {
    DivShift(y, 4, 100 * era);
    DivShift(y, 100, 4 * era);
    DivShift(y, 400, era);
  }

  lemma MarchYearLength(y: nat)
    ensures MarchDays(y + 1) - MarchDays(y) == YearLength(y + 1)
  {
    DivStep(y, 4);
    DivStep(y, 100);
    DivStep(y, 400);
    Divisors(y + 1);
  }

  lemma Divisors(y: int)
    ensures y % 100 == 0 ==> y % 4 == 0
    ensures y % 400 == 0 ==> y % 100 == 0
  {
    if y % 100 == 0 {
      DivUnique(y, 4, 25 * (y / 100), 0);
    }
    if y % 400 == 0 {
      DivUnique(y, 100, 4 * (y / 400), 0);
    }
  }

  /** January 1 in March days, on the epoch's scale. */
  lemma {:induction false} DaysBeforeYearClosed(year: int)
    requires year >= 1970
    ensures DaysBeforeYear(year) == MarchDays(year - 1) + 306 - 719_468
    decreases year
  {
    if year > 1970 {
      DaysBeforeYearClosed(year - 1);
      MarchYearLength(year - 2);
    }
  }

  /** What the code computes is a day inside a March year. */
  lemma CivilShape(era: nat, doe: nat, yoe: nat)
    requires doe < 146_097
    requires yoe < 400 && MarchDays(yoe) <= doe && (yoe < 399 ==> doe < MarchDays(yoe + 1))
    ensures 146_097 * era + doe == MarchDays(yoe + era * 400) + (doe - MarchDays(yoe))
    ensures doe - MarchDays(yoe) < YearLength(yoe + era * 400 + 1)
  {
    MarchDaysEra(yoe, era);
    YearLengthInEra(yoe, era);
    LastYearOfEra(doe, yoe);
  }

  lemma LastYearOfEra(doe: nat, yoe: nat)
    requires doe < 146_097 && yoe < 400 && (yoe < 399 ==> doe < MarchDays(yoe + 1))
    ensures doe < MarchDays(yoe + 1)
  {
    assert MarchDays(400) == 146_097;
  }

  lemma YearLengthInEra(yoe: nat, era: nat)
    ensures YearLength(yoe + era * 400 + 1) == MarchDays(yoe + 1) - MarchDays(yoe)
  {
    MarchDaysEra(yoe, era);
    MarchDaysEra(yoe + 1, era);
    MarchYearLength(yoe + era * 400);
    assert yoe + 1 + 400 * era == yoe + era * 400 + 1;
  }

  lemma MarchDateCounts(y: nat, doy: nat)
    requires y >= 1970 || (y == 1969 && doy >= 306)
    requires doy < YearLength(y + 1)
    ensures IsDay(MarchDate(y, doy), MarchDays(y) + doy - 719_468)
  {
    if (5 * doy + 2) / 153 < 10 {
      BeforeJanuary(y, doy);
    } else {
      FromJanuary(y, doy);
    }
  }

  lemma BeforeJanuary(y: nat, doy: nat)
    requires y >= 1970 && doy < YearLength(y + 1) && (5 * doy + 2) / 153 < 10
    ensures IsDay(MarchDate(y, doy), MarchDays(y) + doy - 719_468)
  {
    var d, mp := MarchDate(y, doy), (5 * doy + 2) / 153;
    DaysBeforeYearClosed(y);
    MonthTable(y);
    MarchYearLength(y - 1);
    MonthHoldsDay(y, doy);
    assert d.year == y && d.month == mp + 3 && d.day == doy - (153 * mp + 2) / 5 + 1;
    assert DaysBeforeMonth(y, mp + 3) == 59 + YearLength(y) - 365 + (153 * mp + 2) / 5;
  }

  lemma MonthHoldsDay(y: nat, doy: nat)
    requires (5 * doy + 2) / 153 < 10
    ensures Valid(MarchDate(y, doy))
  {
  }

  lemma FromJanuary(y: nat, doy: nat)
    requires y >= 1969 && doy < YearLength(y + 1) && (5 * doy + 2) / 153 >= 10
    ensures IsDay(MarchDate(y, doy), MarchDays(y) + doy - 719_468)
  {
    var d, mp := MarchDate(y, doy), (5 * doy + 2) / 153;
    DaysBeforeYearClosed(y + 1);
    MonthTable(y + 1);
    assert mp <= 11;
    assert d.year == y + 1 && d.month == mp - 9;
  }

  /** The computed date is a date of the calendar, and it is day number `days`. */
  lemma CivilIsDayNumber(days: nat)
    ensures IsDay(CivilFromDays(days), days)
  {
    var z := days + 719_468;
    var era := z / 146_097;
    var doe := z - era * 146_097;
    YearOfEra(doe);
    CivilOfYearCounts(era, doe, YearOf(doe), days);
  }

  lemma CivilOfYearCounts(era: nat, doe: nat, yoe: nat, days: nat)
    requires doe < 146_097 && 146_097 * era + doe == days + 719_468
    requires yoe < 400 && MarchDays(yoe) <= doe && (yoe < 399 ==> doe < MarchDays(yoe + 1))
    ensures IsDay(CivilOfYear(era, doe, yoe), days)
  {
    CivilOfYearIs(era, doe, yoe);
    MarchDateOfYear(era, doe, yoe, days);
  }

  lemma MarchDateOfYear(era: nat, doe: nat, yoe: nat, days: nat)
    requires doe < 146_097 && 146_097 * era + doe == days + 719_468
    requires yoe < 400 && MarchDays(yoe) <= doe && (yoe < 399 ==> doe < MarchDays(yoe + 1))
    ensures IsDay(MarchDate(yoe + era * 400, doe - MarchDays(yoe)), days)
  {
    CivilShape(era, doe, yoe);
    MarchDayCounts(yoe + era * 400, doe - MarchDays(yoe), days);
  }

  lemma CivilOfYearIs(era: nat, doe: nat, yoe: nat)
    requires yoe < 400 && MarchDays(yoe) <= doe
    ensures CivilOfYear(era, doe, yoe) == MarchDate(yoe + era * 400, doe - MarchDays(yoe))
  {
    NoEraEnds(yoe);
  }

  lemma NoEraEnds(yoe: nat)
    requires yoe < 400
    ensures MarchDays(yoe) == 365 * yoe + yoe / 4 - yoe / 100
  {
  }

  lemma MarchDayCounts(y: nat, doy: nat, days: nat)
    requires doy < YearLength(y + 1) && MarchDays(y) + doy - 719_468 == days
    ensures IsDay(MarchDate(y, doy), days)
  {
    NotBeforeEpoch(y, doy);
    MarchDateCounts(y, doy);
  }

  lemma NotBeforeEpoch(y: nat, doy: nat)
    requires doy < YearLength(y + 1)
    requires MarchDays(y) + doy >= 719_468
    ensures y >= 1970 || (y == 1969 && doy >= 306)
  {
    assert MarchDays(1969) == 719_162;
    MarchYearLength(y);
  }

  /** Day by day, the calendar counts up from the epoch. */
  lemma {:induction false} NthDayCounts(n: nat)
    ensures IsDay(NthDay(n), n)
  {
    if n > 0 {
      NthDayCounts(n - 1);
      NextDayCounts(NthDay(n - 1));
    }
  }

  /** The branch-light computation is the calendar, for every day count. */
  lemma CivilIsNthDay(days: nat)
    ensures CivilFromDays(days) == NthDay(days)
  {
    CivilIsDayNumber(days);
    NthDayCounts(days);
    DayNumberInjective(CivilFromDays(days), NthDay(days));
  }

  /** Every subtraction of unsigned values on the way, one by one. */
  lemma NoUnderflow(days: nat)
    ensures var z := days + 719_468;
            var era := z / 146_097;
            && 0 <= z - era * 146_097 < 146_097
            && var doe: nat := z - era * 146_097;
               && doe >= doe / 1460 && doe - doe / 1460 + doe / 36524 >= doe / 146_096
               && var yoe := YearOf(doe);
                  && 365 * yoe + yoe / 4 >= yoe / 100 && doe >= 365 * yoe + yoe / 4 - yoe / 100
                  && var doy := doe - (365 * yoe + yoe / 4 - yoe / 100);
                     var mp := (5 * doy + 2) / 153;
                     doy >= (153 * mp + 2) / 5 && mp <= 11
  {
    var z := days + 719_468;
    var era := z / 146_097;
    var doe: nat := z - era * 146_097;
    YearOfEra(doe);
    NoEraEnds(YearOf(doe));
    MonthIndex(doe - MarchDays(YearOf(doe)), YearOf(doe), doe);
  }

  lemma MonthIndex(doy: nat, yoe: nat, doe: nat)
    requires doe < 146_097 && yoe < 400 && doy == doe - MarchDays(yoe) && (yoe < 399 ==> doe < MarchDays(yoe + 1))
    ensures var mp := (5 * doy + 2) / 153;
            doy >= (153 * mp + 2) / 5 && mp <= 11
  {
    LastYearOfEra(doe, yoe);
    MarchYearLength(yoe);
    assert doy < 366;
  }

  // ---- Seconds, and the final cast to i32 ----

  datatype Stamp = Stamp(date: Date, hour: int, minute: int, second: int)

  const U64_END: nat := 0x1_0000_0000_0000_0000
  const I32_END: int := 0x8000_0000

  /** `as i32`: the low 32 bits, read as a signed number. */
  function AsI32(x: int): int
  {
    (x + I32_END) % 0x1_0000_0000 - I32_END
  }

  function EpochToYmdhms(secs: nat): Stamp
    requires secs < U64_END
  {
    var rem := secs % 86400;
    var d := CivilFromDays(secs / 86400);
    Stamp(d.(year := AsI32(d.year)), rem / 3600, (rem % 3600) / 60, rem % 60)
  }

  /** The first second of the first year that does not fit an `i32`. */
  const FIRST_WRAPPED_SECOND: nat := 86400 * (365 * 2147483647 + 536870911 - 21474836 + 5368709 + 306 - 719_468)

  /** The stamp names its second: its date is the calendar's date that many whole days after
      the epoch exactly when the count is below the first year that leaves `i32`, and its
      time of day always gives back the rest of the seconds. */
  lemma EpochIsTheCalendar(secs: nat)
    requires secs < U64_END
    ensures var s := EpochToYmdhms(secs);
            && (s.date == NthDay(secs / 86400) <==> secs < FIRST_WRAPPED_SECOND)
            && 0 <= s.hour < 24 && 0 <= s.minute < 60 && 0 <= s.second < 60
            && secs == 86400 * (secs / 86400) + 3600 * s.hour + 60 * s.minute + s.second
  {
    var days := secs / 86400;
    DateIsTheCalendar(days);
    TimeOfDay(secs % 86400);
    FirstWrappedDay(secs);
  }

  lemma FirstWrappedDay(secs: nat)
    ensures secs / 86400 < DaysBeforeYear(I32_END) <==> secs < FIRST_WRAPPED_SECOND
  {
    DaysBeforeYearClosed(I32_END);
    assert DaysBeforeYear(I32_END) * 86400 == FIRST_WRAPPED_SECOND;
  }

  lemma DateIsTheCalendar(days: nat)
    ensures var d := CivilFromDays(days);
            d.(year := AsI32(d.year)) == NthDay(days) <==> days < DaysBeforeYear(I32_END)
  {
    CivilIsNthDay(days);
    CivilIsDayNumber(days);
    var d := CivilFromDays(days);
    YearFits(d, I32_END);
    WrapsOutside(d.year);
  }

  lemma TimeOfDay(rem: nat)
    requires rem < 86400
    ensures rem / 3600 < 24
    ensures rem == 3600 * (rem / 3600) + 60 * ((rem % 3600) / 60) + rem % 60
  {
  }

  /** A date's year is below `limit` exactly when its number is below `limit`'s first day. */
  lemma YearFits(d: Date, limit: int)
    requires Valid(d) && d.year >= 1970 && limit >= 1970
    ensures d.year < limit <==> DayNumber(d) < DaysBeforeYear(limit)
  {
    MonthsFillTheYear(d.year);
    if d.year < limit {
      YearsAreOrdered(d.year, limit);
    } else if limit < d.year {
      YearsAreOrdered(limit, d.year);
    }
  }

  lemma WrapsOutside(year: int)
    requires year >= 1970
    ensures AsI32(year) == year <==> year < I32_END
  {
  }

  /** Adding a day's seconds moves to the calendar's next day at the same time of day. */
  lemma NextDayOfStamp(secs: nat)
    requires secs + 86400 < FIRST_WRAPPED_SECOND
    ensures var s, t := EpochToYmdhms(secs), EpochToYmdhms(secs + 86400);
            t == Stamp(NextDay(s.date), s.hour, s.minute, s.second)
  {
    EpochIsTheCalendar(secs);
    EpochIsTheCalendar(secs + 86400);
    assert (secs + 86400) / 86400 == secs / 86400 + 1;
  }

  /** Counting the days and seconds of a stamp gives back the second count. */
  lemma StampRoundTrip(secs: nat)
    requires secs < FIRST_WRAPPED_SECOND
    ensures var s := EpochToYmdhms(secs);
            && Valid(s.date) && s.date.year >= 1970
            && 86400 * DayNumber(s.date) + 3600 * s.hour + 60 * s.minute + s.second == secs
  {
    EpochIsTheCalendar(secs);
    CivilIsNthDay(secs / 86400);
    CivilIsDayNumber(secs / 86400);
  }
}
