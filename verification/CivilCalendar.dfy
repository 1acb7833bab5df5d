/**
 The closed-form civil calendar of the SCADA stand-in publisher: seconds since the Unix epoch to an
 RFC 3339 date-time. The reference is the Gregorian rule itself, stepped one day at a time.
 */
module CivilCalendar {

  datatype Date = Date(year: int, month: int, day: int)

  // ---------------------------------------------------------------- the Gregorian rule

  predicate IsLeap(year: int)
  {
    year % 4 == 0 && (year % 100 != 0 || year % 400 == 0)
  }

  function DaysInMonth(year: int, month: int): int
  {
    if month == 2 then (if IsLeap(year) then 29 else 28)
    else if month in {4, 6, 9, 11} then 30
    else 31
  }

  predicate ValidDate(d: Date)
  {
    1 <= d.month <= 12 && 1 <= d.day <= DaysInMonth(d.year, d.month)
  }

  function NextDay(d: Date): Date
  {
    if d.day < DaysInMonth(d.year, d.month) then d.(day := d.day + 1)
    else if d.month < 12 then Date(d.year, d.month + 1, 1)
    else Date(d.year + 1, 1, 1)
  }

  /** The date `n` days after 1970-01-01, one day at a time. */
  function DateAfter(n: nat): Date
  {
    if n == 0 then Date(1970, 1, 1) else NextDay(DateAfter(n - 1))
  }

  // ---------------------------------------------------------------- the closed form

  /** Year within a 400-year era that starts on 1 March, from the day within that era. */
  function YearOfEra(dayOfEra: int): int
  {
    (dayOfEra - dayOfEra / 1460 + dayOfEra / 36524 - dayOfEra / 146096) / 365
  }

  /** Days from the start of an era to 1 March of its year `y`. */
  function YearStart(y: int): int
  {
    365 * y + y / 4 - y / 100
  }

  /** Days from 1 March to the first of the month that is `m` months later. */
  function MonthStart(m: int): int
  {
    (153 * m + 2) / 5
  }

  function CivilInEra(era: int, dayOfEra: int): Date
  {
    var yearOfEra := YearOfEra(dayOfEra);
    var dayOfYear := dayOfEra - YearStart(yearOfEra);
    var monthPrime := (5 * dayOfYear + 2) / 153;
    var day := dayOfYear - MonthStart(monthPrime) + 1;
    var month := monthPrime + (if monthPrime < 10 then 3 else -9);
    Date(yearOfEra + era * 400 + (if month <= 2 then 1 else 0), month, day)
  }

  /** The date part of unix_seconds_rfc3339. */
  function CivilFromDays(days: nat): Date
  {
    var z := days + 719468;
    var era := z / 146097;
    CivilInEra(era, z - era * 146097)
  }

  // ---------------------------------------------------------------- inside one era

  /** A day of an era, but its last, is `c` centuries, `q` four-year cycles and `t` days into it, with `t` slightly
      negative just before a leap day; the year formula adds these up. */
  lemma YearFormula(dayOfEra: int, c: int, q: int, t: int)
    requires 0 <= dayOfEra < 146096
    requires c == dayOfEra / 36524 && q == dayOfEra / 1460 - 25 * c && t == dayOfEra - 36524 * c - 1461 * q
    ensures 0 <= c < 4 && 0 <= q <= 25 && -97 <= t < 1460
    ensures q == 25 ==> t <= -2
    ensures q == 0 ==> t >= 0
    ensures YearOfEra(dayOfEra) == 100 * c + 4 * q + t / 365
  {
    var r := dayOfEra - 36524 * c;
    assert 0 <= r < 36524;
    assert 1460 * (25 * c + q) <= dayOfEra < 1460 * (25 * c + q) + 1460;
    assert dayOfEra / 146096 == 0;
    assert YearOfEra(dayOfEra) == (36500 * c + 1460 * q + t) / 365;
    Div365(36500 * c + 1460 * q + t, 100 * c + 4 * q + t / 365, t % 365);
  }

  lemma Div365(x: int, q: int, r: int)
    requires x == 365 * q + r && 0 <= r < 365
    ensures x / 365 == q
  {
  }

  lemma Div4(x: int, q: int, r: int)
    requires x == 4 * q + r && 0 <= r < 4
    ensures x / 4 == q
  {
  }

  lemma Div100(x: int, q: int, r: int)
    requires x == 100 * q + r && 0 <= r < 100
    ensures x / 100 == q
  {
  }

  /** Where year 100c + 4q + s starts, and its length, for s of a four-year cycle. */
  lemma CycleYear(c: int, q: int, s: int)
    requires 0 <= c < 4 && 0 <= q < 25 && 0 <= s < 4
    ensures YearStart(100 * c + 4 * q + s) == 36524 * c + 1461 * q + 365 * s
  {
    Div4(100 * c + 4 * q + s, 25 * c + q, s);
    Div100(100 * c + 4 * q + s, c, 4 * q + s);
  }

  lemma CenturyEnd(c: int)
    requires 0 <= c < 4
    ensures YearStart(100 * c + 100) == 36524 * c + 36524
  {
    Div4(100 * c + 100, 25 * c + 25, 0);
    Div100(100 * c + 100, c + 1, 0);
  }

  lemma YearSpan(c: int, q: int, t: int)
    requires 0 <= c < 4 && 0 <= q <= 25 && -97 <= t < 1460 && (q == 25 ==> t <= -2) && (q == 0 ==> t >= 0)
    ensures var y := 100 * c + 4 * q + t / 365;
      0 <= y < 400 && YearStart(y) <= 36524 * c + 1461 * q + t < YearStart(y + 1)
  {
    var s := t / 365;
    assert -1 <= s <= 3 && 365 * s <= t < 365 * s + 365;
    if s == -1 {
      CycleYear(c, q - 1, 3);
      if q == 25 {
        CenturyEnd(c);
      } else {
        CycleYear(c, q, 0);
      }
    } else {
      CycleYear(c, q, s);
      if s < 3 {
        CycleYear(c, q, s + 1);
      } else if q < 24 {
        CycleYear(c, q + 1, 0);
      } else {
        CenturyEnd(c);
      }
    }
  }

  /** The year formula picks the year whose span contains the day; only the era's last day is a 366th. */
  lemma YearOfEraIsRight(dayOfEra: int)
    requires 0 <= dayOfEra < 146097
    ensures var y := YearOfEra(dayOfEra);
      0 <= y < 400 && YearStart(y) <= dayOfEra
      && (dayOfEra < YearStart(y + 1) || (y == 399 && dayOfEra == 146096))
  {
    if dayOfEra < 146096 {
      var c := dayOfEra / 36524;
      var q := dayOfEra / 1460 - 25 * c;
      var t := dayOfEra - 36524 * c - 1461 * q;
      YearFormula(dayOfEra, c, q, t);
      YearSpan(c, q, t);
    } else {
      assert YearOfEra(146096) == 399 && YearStart(399) == 145731;
    }
  }

  lemma MonthIsRight(dayOfYear: int)
    requires 0 <= dayOfYear < 366
    ensures var m := (5 * dayOfYear + 2) / 153;
      0 <= m <= 11 && MonthStart(m) <= dayOfYear && (dayOfYear < MonthStart(m + 1) || m == 11)
  {
  }

  // ---------------------------------------------------------------- the inverse

  /** Years counted from March: the year a date belongs to when January and February close the year. */
  function MarchYear(d: Date): int
  {
    if d.month <= 2 then d.year - 1 else d.year
  }

  function MonthsSinceMarch(month: int): int
  {
    if month <= 2 then month + 9 else month - 3
  }

  function DayOfEra(d: Date): int
  {
    YearStart(MarchYear(d) % 400) + MonthStart(MonthsSinceMarch(d.month)) + d.day - 1
  }

  /** Days from 1970-01-01 to a date. */
  function DaysFromCivil(d: Date): int
  {
    MarchYear(d) / 400 * 146097 + DayOfEra(d) - 719468
  }

  /** Lengths of the months, in March order, telescope to MonthStart. */
  lemma MonthLengths(d: Date)
    requires 1 <= d.month <= 12
    ensures d.month != 2 ==>
      MonthStart(MonthsSinceMarch(d.month) + 1) - MonthStart(MonthsSinceMarch(d.month)) == DaysInMonth(d.year, d.month)
    ensures MonthStart(11) == 337
  {
  }

  lemma YearStartSteps(y: int)
    requires 0 <= y < 400
    ensures YearStart(y + 1) - YearStart(y) == if (y + 1) % 4 == 0 && (y + 1) % 100 != 0 then 366 else 365
  {
    var c, r := y / 100, y % 100;
    var q, k := r / 4, r % 4;
    assert y == 100 * c + 4 * q + k;
  }

  lemma Mod4(x: int, q: int, r: int)
    requires x == 4 * q + r && 0 <= r < 4
    ensures x % 4 == r
  {
  }

  lemma Mod100(x: int, q: int, r: int)
    requires x == 100 * q + r && 0 <= r < 100
    ensures x % 100 == r
  {
  }

  lemma Mod400(x: int, q: int, r: int)
    requires x == 400 * q + r && 0 <= r < 400
    ensures x % 400 == r
  {
  }

  lemma LeapWithinEra(year: int)
    ensures var y := year % 400;
      IsLeap(year + 1) <==> y == 399 || ((y + 1) % 4 == 0 && (y + 1) % 100 != 0)
  {
    var e, z := year / 400, year % 400 + 1;
    Mod4(year + 1, 100 * e + z / 4, z % 4);
    Mod100(year + 1, 4 * e + z / 100, z % 100);
    if z == 400 {
      Mod400(year + 1, e + 1, 0);
    } else {
      Mod400(year + 1, e, z);
    }
  }

  /** A March year has 365 days, or 366 when the February that closes it is a leap one. */
  lemma YearLengths(year: int)
    ensures var y := year % 400;
      y < 399 ==> YearStart(y + 1) - YearStart(y) == if IsLeap(year + 1) then 366 else 365
    ensures year % 400 == 399 ==> IsLeap(year + 1)
  {
    LeapWithinEra(year);
    YearStartSteps(year % 400);
  }

  /** Where a valid date sits: inside its era, its March year, and its month. */
  lemma Position(d: Date)
    requires ValidDate(d)
    ensures var y, m := MarchYear(d) % 400, MonthsSinceMarch(d.month);
      var dayOfYear := MonthStart(m) + d.day - 1;
      && 0 <= m <= 11
      && MonthStart(m) <= dayOfYear <= 365
      && (m < 11 ==> dayOfYear < MonthStart(m + 1))
      && (dayOfYear == 365 ==> IsLeap(MarchYear(d) + 1))
      && YearStart(y) <= DayOfEra(d)
      && (if y < 399 then DayOfEra(d) < YearStart(y + 1) else DayOfEra(d) < 146097)
      && 0 <= DayOfEra(d) < 146097
  {
    MonthLengths(d);
    YearLengths(MarchYear(d));
    YearStartMonotone(MarchYear(d) % 400 + 1, 400);
  }

  lemma YearStartMonotone(y0: int, y1: int)
    requires 0 <= y0 <= y1
    ensures YearStart(y0) <= YearStart(y1)
  {
  }

  /** At most one year of the era has a given day in its span. */
  lemma YearUnique(y0: int, y1: int, dayOfEra: int)
    requires 0 <= y0 < 400 && 0 <= y1 < 400
    requires YearStart(y0) <= dayOfEra && (dayOfEra < YearStart(y0 + 1) || y0 == 399)
    requires YearStart(y1) <= dayOfEra && (dayOfEra < YearStart(y1 + 1) || y1 == 399)
    ensures y0 == y1
  {
    if y0 < y1 {
      YearStartMonotone(y0 + 1, y1);
    } else if y1 < y0 {
      YearStartMonotone(y1 + 1, y0);
    }
  }

  lemma MonthUnique(m0: int, m1: int, dayOfYear: int)
    requires 0 <= m0 <= 11 && 0 <= m1 <= 11
    requires MonthStart(m0) <= dayOfYear && (dayOfYear < MonthStart(m0 + 1) || m0 == 11)
    requires MonthStart(m1) <= dayOfYear && (dayOfYear < MonthStart(m1 + 1) || m1 == 11)
    ensures m0 == m1
  {
  }

  lemma EraOf(era: int, dayOfEra: int)
    requires 0 <= dayOfEra < 146097
    ensures (era * 146097 + dayOfEra) / 146097 == era
  {
  }

  lemma YearOf(d: Date)
    requires ValidDate(d)
    ensures YearOfEra(DayOfEra(d)) == MarchYear(d) % 400
  {
    Position(d);
    YearOfEraIsRight(DayOfEra(d));
    YearUnique(MarchYear(d) % 400, YearOfEra(DayOfEra(d)), DayOfEra(d));
  }

  lemma MonthOf(d: Date)
    requires ValidDate(d)
    ensures (5 * (DayOfEra(d) - YearStart(MarchYear(d) % 400)) + 2) / 153 == MonthsSinceMarch(d.month)
  {
    Position(d);
    var dayOfYear := DayOfEra(d) - YearStart(MarchYear(d) % 400);
    MonthIsRight(dayOfYear);
    MonthUnique(MonthsSinceMarch(d.month), (5 * dayOfYear + 2) / 153, dayOfYear);
  }

  /** The closed form undoes DaysFromCivil on every valid date from the epoch on. */
  lemma CivilOfDays(d: Date)
    requires ValidDate(d) && DaysFromCivil(d) >= 0
    ensures CivilFromDays(DaysFromCivil(d)) == d
  {
    Position(d);
    EraOf(MarchYear(d) / 400, DayOfEra(d));
    YearOf(d);
    MonthOf(d);
  }

  lemma InEra(era: int, dayOfEra: int)
    requires 0 <= dayOfEra < 146097
    ensures var d := CivilInEra(era, dayOfEra);
      ValidDate(d) && MarchYear(d) / 400 == era && DayOfEra(d) == dayOfEra
  {
    YearOfEraIsRight(dayOfEra);
    var y := YearOfEra(dayOfEra);
    var year := y + era * 400;
    assert year % 400 == y && year / 400 == era;
    YearLengths(year);
    var dayOfYear := dayOfEra - YearStart(y);
    assert 0 <= dayOfYear <= 365 && (dayOfYear == 365 ==> IsLeap(year + 1));
    MonthIsRight(dayOfYear);
    var d := CivilInEra(era, dayOfEra);
    assert MarchYear(d) == year;
    MonthLengths(d);
  }

  /** ... and DaysFromCivil undoes the closed form, whose result is always a valid date. */
  lemma DaysOfCivil(days: nat)
    ensures ValidDate(CivilFromDays(days))
    ensures DaysFromCivil(CivilFromDays(days)) == days
  {
    var era := (days + 719468) / 146097;
    InEra(era, days + 719468 - era * 146097);
  }

  /** The end of a month other than February stays in the March year. */
  lemma MonthEnds(d: Date)
    requires ValidDate(d) && d.day == DaysInMonth(d.year, d.month) && d.month != 2
    ensures MarchYear(NextDay(d)) == MarchYear(d) && DayOfEra(NextDay(d)) == DayOfEra(d) + 1
  {
    MonthLengths(d);
  }

  lemma NextMarchYear(year: int)
    ensures year % 400 < 399 ==> (year + 1) % 400 == year % 400 + 1 && (year + 1) / 400 == year / 400
    ensures year % 400 == 399 ==> (year + 1) % 400 == 0 && (year + 1) / 400 == year / 400 + 1
  {
  }

  /** The last of February is day 337 + its number - 1 of the March year it closes. */
  lemma FebruaryDays(d: Date)
    requires ValidDate(d) && d.day == DaysInMonth(d.year, d.month) && d.month == 2
    ensures MarchYear(d) == d.year - 1 && DayOfEra(d) == YearStart((d.year - 1) % 400) + 336 + d.day
    ensures d.day == if IsLeap(d.year) then 29 else 28
    ensures NextDay(d) == Date(d.year, 3, 1)
    ensures MarchYear(NextDay(d)) == d.year && DayOfEra(NextDay(d)) == YearStart(d.year % 400)
  {
  }

  lemma EraEdges()
    ensures YearStart(0) == 0 && YearStart(399) == 145731
  {
  }

  /** The end of February closes the March year, and every 400 years the era. */
  lemma FebruaryEnds(d: Date)
    requires ValidDate(d) && d.day == DaysInMonth(d.year, d.month) && d.month == 2
    ensures MarchYear(NextDay(d)) / 400 * 146097 + DayOfEra(NextDay(d)) == MarchYear(d) / 400 * 146097 + DayOfEra(d) + 1
  {
    FebruaryDays(d);
    FebruarySum(d.year - 1, d.day);
  }

  lemma FebruarySum(year: int, day: int)
    requires day == if IsLeap(year + 1) then 29 else 28
    ensures (year + 1) / 400 * 146097 + YearStart((year + 1) % 400)
            == year / 400 * 146097 + YearStart(year % 400) + 336 + day + 1
  {
    YearLengths(year);
    NextMarchYear(year);
    EraEdges();
    var e, y, e', y' := year / 400, year % 400, (year + 1) / 400, (year + 1) % 400;
    if y == 399 {
      assert e' == e + 1 && y' == 0;
    } else {
      assert e' == e && y' == y + 1;
    }
  }

  /** One calendar day is one day. */
  lemma NextDayIsOneDay(d: Date)
    requires ValidDate(d)
    ensures ValidDate(NextDay(d))
    ensures DaysFromCivil(NextDay(d)) == DaysFromCivil(d) + 1
  {
    if d.day < DaysInMonth(d.year, d.month) {
      assert MarchYear(NextDay(d)) == MarchYear(d);
    } else if d.month == 2 {
      FebruaryEnds(d);
    } else {
      MonthEnds(d);
    }
  }

  lemma {:induction false} DateAfterCounts(days: nat)
    ensures ValidDate(DateAfter(days)) && DaysFromCivil(DateAfter(days)) == days
  {
    if days > 0 {
      DateAfterCounts(days - 1);
      NextDayIsOneDay(DateAfter(days - 1));
    }
  }

  /** The closed form is the Gregorian calendar, stepped day by day from 1970-01-01, for every day count. */
  lemma CivilIsGregorian(days: nat)
    ensures CivilFromDays(days) == DateAfter(days)
  {
    DateAfterCounts(days);
    CivilOfDays(DateAfter(days));
  }
}
