/** The date arithmetic of xtask/src/main.rs against the Gregorian calendar counted day by day. */
module CivilDate {

  datatype Date = Date(year: int, month: int, day: int)

  // The calendar.

  predicate Leap(year: int) {
    year % 4 == 0 && (year % 100 != 0 || year % 400 == 0)
  }

  function DaysIn(year: int, month: int): int {
    if month == 2 then (if Leap(year) then 29 else 28)
    else if month == 4 || month == 6 || month == 9 || month == 11 then 30
    else 31
  }

  predicate Exists(d: Date) {
    1 <= d.month <= 12 && 1 <= d.day <= DaysIn(d.year, d.month)
  }

  function Tomorrow(d: Date): Date {
    if d.day < DaysIn(d.year, d.month) then Date(d.year, d.month, d.day + 1)
    else if d.month < 12 then Date(d.year, d.month + 1, 1)
    else Date(d.year + 1, 1, 1)
  }

  /** The date `days` days after 1 January 1970. */
  function Counted(days: nat): Date {
    if days == 0 then Date(1970, 1, 1) else Tomorrow(Counted(days - 1))
  }

  // The formula.

  /** Rust's division of integers, which truncates toward zero. */
  function Quotient(a: int, b: int): int
    requires b > 0
  {
    if a >= 0 then a / b else -((-a) / b)
  }

  function YearOfEra(dayOfEra: int): int {
    Quotient(dayOfEra - Quotient(dayOfEra, 1460) + Quotient(dayOfEra, 36524) - Quotient(dayOfEra, 146096), 365)
  }

  /** Days before year `y` of an era, with years starting on 1 March. */
  function YearStart(y: int): int {
    365 * y + Quotient(y, 4) - Quotient(y, 100)
  }

  function Month(dayOfYear: int): int {
    var prime := Quotient(5 * dayOfYear + 2, 153);
    prime + (if prime < 10 then 3 else -9)
  }

  function Day(dayOfYear: int): int {
    var prime := Quotient(5 * dayOfYear + 2, 153);
    dayOfYear - Quotient(153 * prime + 2, 5) + 1
  }

  function FromUnixDays(days: int): Date {
    var shifted := days + 719468;
    var era := Quotient(if shifted >= 0 then shifted else shifted - 146096, 146097);
    var dayOfEra := shifted - era * 146097;
    var yearOfEra := YearOfEra(dayOfEra);
    var year := yearOfEra + era * 400;
    var dayOfYear := dayOfEra - YearStart(yearOfEra);
    var month := Month(dayOfYear);
    Date(year + (if month <= 2 then 1 else 0), month, Day(dayOfYear))
  }

  // Years of an era.

  /** The first day of the year after `y`; the last year of an era has the extra leap day. */
  function NextYearStart(y: int): int {
    if y == 399 then 146097 else YearStart(y + 1)
  }

  lemma YearFromParts(c: int, q: int, r: int, d: int)
    requires 0 <= c < 4 && 0 <= q < 25 && 0 <= r < 4 && 0 <= d <= 365
    requires d == 365 ==> r == 3 && (q < 24 || c == 3)
    ensures YearOfEra(36524 * c + 1461 * q + 365 * r + d) == 100 * c + 4 * q + r
  {
    var doe := 36524 * c + 1461 * q + 365 * r + d;
    var e := if 24 * c + q + 365 * r + d >= 1460 then 1 else 0;
    var f := if c == 3 && q == 24 && r == 3 && d == 365 then 1 else 0;
    assert doe / 1460 == 25 * c + q + e;
    assert doe / 36524 == c + f;
    assert doe / 146096 == f;
    var y := 100 * c + 4 * q + r;
    assert doe - doe / 1460 + doe / 36524 - doe / 146096 == 365 * y + (d - e);
    assert 0 <= d - e < 365;
  }

  lemma PartsOfDay(doe: int) returns (c: int, q: int, r: int, d: int)
    requires 0 <= doe < 146097
    ensures 0 <= c < 4 && 0 <= q < 25 && 0 <= r < 4 && 0 <= d <= 365
    ensures d == 365 ==> r == 3 && (q < 24 || c == 3)
    ensures doe == 36524 * c + 1461 * q + 365 * r + d
  {
    c := if doe / 36524 < 4 then doe / 36524 else 3;
    var inCentury := doe - 36524 * c;
    q := if inCentury / 1461 < 25 then inCentury / 1461 else 24;
    var inFour := inCentury - 1461 * q;
    r := if inFour / 365 < 4 then inFour / 365 else 3;
    d := inFour - 365 * r;
  }

  lemma StartFromParts(c: int, q: int, r: int)
    requires 0 <= c < 4 && 0 <= q < 25 && 0 <= r < 4
    ensures YearStart(100 * c + 4 * q + r) == 36524 * c + 1461 * q + 365 * r
    ensures NextYearStart(100 * c + 4 * q + r)
         == 36524 * c + 1461 * q + 365 * r + (if r == 3 && (q < 24 || c == 3) then 366 else 365)
  {
    var y := 100 * c + 4 * q + r;
    assert y / 4 == 25 * c + q && y / 100 == c;
    if r < 3 {
      assert (y + 1) / 4 == 25 * c + q && (y + 1) / 100 == c;
    } else if q < 24 {
      assert (y + 1) / 4 == 25 * c + q + 1 && (y + 1) / 100 == c;
    } else {
      assert (y + 1) / 4 == 25 * c + 25 && (y + 1) / 100 == c + 1;
    }
  }

  /** The formula finds the year a day of the era falls in. */
  lemma YearContains(doe: int)
    requires 0 <= doe < 146097
    ensures var y := YearOfEra(doe); 0 <= y < 400 && YearStart(y) <= doe < NextYearStart(y)
  {
    var c, q, r, d := PartsOfDay(doe);
    YearFromParts(c, q, r, d);
    StartFromParts(c, q, r);
  }

  lemma YearUnique(doe: int, y: int)
    requires 0 <= y < 400 && YearStart(y) <= doe < NextYearStart(y)
    ensures 0 <= doe < 146097 && YearOfEra(doe) == y
  {
    var c, rest := y / 100, y % 100;
    var q, r := rest / 4, rest % 4;
    assert y == 100 * c + 4 * q + r;
    StartFromParts(c, q, r);
    YearFromParts(c, q, r, doe - YearStart(y));
  }

  /** A year from March on is long exactly when the February that ends it is. */
  lemma YearLength(era: int, y: int)
    requires 0 <= y < 400
    ensures NextYearStart(y) - YearStart(y) == if Leap(400 * era + y + 1) then 366 else 365
  {
    var c, rest := y / 100, y % 100;
    var q, r := rest / 4, rest % 4;
    assert y == 100 * c + 4 * q + r;
    StartFromParts(c, q, r);
    var z := 400 * era + y + 1;
    assert z == 4 * (100 * era + 25 * c + q) + r + 1;
    assert z % 4 == 0 <==> r == 3;
    if r == 3 {
      assert z == 100 * (4 * era + c) + 4 * (q + 1);
      assert z % 100 == 0 <==> q == 24;
      if q == 24 {
        assert z == 400 * era + 100 * (c + 1);
        assert z % 400 == 0 <==> c == 3;
      }
    }
  }

  // Days of a year.

  lemma DayInMonth(year: int, doy: int)
    requires 0 <= doy < (if Leap(year + 1) then 366 else 365)
    ensures var m := Month(doy);
            Exists(Date(year + (if m <= 2 then 1 else 0), m, Day(doy)))
    ensures doy == 0 ==> Month(doy) == 3 && Day(doy) == 1
  {
    var prime := (5 * doy + 2) / 153;
    assert 0 <= prime <= 11;
  }

  lemma NextDayOfYear(year: int, doy: int)
    requires 0 <= doy && doy + 1 < (if Leap(year + 1) then 366 else 365)
    ensures var m, n := Month(doy), Month(doy + 1);
      (Date(year + (if n <= 2 then 1 else 0), n, Day(doy + 1))
       == Tomorrow(Date(year + (if m <= 2 then 1 else 0), m, Day(doy))))
  {
    var prime, next := (5 * doy + 2) / 153, (5 * doy + 7) / 153;
    assert next == prime || next == prime + 1;
    assert 0 <= prime <= 11 && 0 <= next <= 11;
  }

  lemma LastDayOfYear(year: int, doy: int)
    requires doy + 1 == if Leap(year + 1) then 366 else 365
    ensures Month(doy) == 2 && Day(doy) == DaysIn(year + 1, 2)
  {
  }

  // Any day.

  function Era(days: int): int { (days + 719468) / 146097 }

  function DayOfEra(days: int): int { (days + 719468) % 146097 }

  function DateIn(era: int, doe: int): Date {
    var y := YearOfEra(doe);
    var doy := doe - YearStart(y);
    Date(400 * era + y + (if Month(doy) <= 2 then 1 else 0), Month(doy), Day(doy))
  }

  /** Truncating after the correction for days before the first era is rounding down. */
  lemma EraRoundsDown(shifted: int)
    ensures Quotient(if shifted >= 0 then shifted else shifted - 146096, 146097) == shifted / 146097
    ensures shifted - (shifted / 146097) * 146097 == shifted % 146097
  {
    var era := shifted / 146097;
    assert 146097 * era <= shifted < 146097 * era + 146097;
    if shifted < 0 {
      assert (146096 - shifted) / 146097 == -era;
    }
  }

  lemma FormulaByEra(days: int)
    ensures FromUnixDays(days) == DateIn(Era(days), DayOfEra(days))
  {
    hide Quotient, YearOfEra, YearStart, Month, Day;
    EraRoundsDown(days + 719468);
  }

  lemma NextDate(era: int, doe: int)
    requires 0 <= doe < 146097
    ensures Exists(DateIn(era, doe))
    ensures Tomorrow(DateIn(era, doe)) == if doe < 146096 then DateIn(era, doe + 1) else DateIn(era + 1, 0)
  {
    hide Quotient, YearOfEra, YearStart, NextYearStart, Month, Day, Leap, Exists, Tomorrow, DaysIn;
    StartsInOrder();
    YearContains(doe);
    var y := YearOfEra(doe);
    var doy := doe - YearStart(y);
    YearLength(era, y);
    TurnOfYear(400 * era + y);
    DayInMonth(400 * era + y, doy);
    if doe + 1 < NextYearStart(y) {
      YearUnique(doe + 1, y);
      NextDayOfYear(400 * era + y, doy);
    } else {
      LastDayOfYear(400 * era + y, doy);
      assert doe + 1 == NextYearStart(y);
      if y < 399 {
        YearLength(era, y + 1);
        YearUnique(doe + 1, y + 1);
        DayInMonth(400 * era + y + 1, 0);
      } else {
        YearUnique(0, 0);
        YearLength(era + 1, 0);
        DayInMonth(400 * era + 400, 0);
      }
    }
  }

  lemma StartsInOrder()
    ensures YearStart(0) == 0 && YearStart(1) == 365 && NextYearStart(399) == 146097
    ensures forall y :: y != 399 ==> NextYearStart(y) == YearStart(y + 1)
  {
  }

  /** 1 March follows the last day of February. */
  lemma TurnOfYear(year: int)
    ensures Tomorrow(Date(year + 1, 2, DaysIn(year + 1, 2))) == Date(year + 1, 3, 1)
  {
  }

  lemma EraOfNext(days: int)
    ensures 0 <= DayOfEra(days) < 146097
    ensures if DayOfEra(days) < 146096 then Era(days + 1) == Era(days) && DayOfEra(days + 1) == DayOfEra(days) + 1
            else Era(days + 1) == Era(days) + 1 && DayOfEra(days + 1) == 0
  {
  }

  /** The next day count gives the next date, for every day before and after 1970. */
  lemma NextDayIsTomorrow(days: int)
    ensures Exists(FromUnixDays(days))
    ensures FromUnixDays(days + 1) == Tomorrow(FromUnixDays(days))
  {
    hide FromUnixDays, DateIn, Exists, Tomorrow;
    EraOfNext(days);
    FormulaByEra(days);
    FormulaByEra(days + 1);
    NextDate(Era(days), DayOfEra(days));
  }

  /** The formula is the calendar. */
  lemma {:induction false} FormulaIsCalendar(days: nat)
    ensures FromUnixDays(days) == Counted(days)
  {
    hide FromUnixDays, Tomorrow;
    if days == 0 {
      FirstDay();
    } else {
      FormulaIsCalendar(days - 1);
      NextDayIsTomorrow(days - 1);
    }
  }

  lemma FirstDay()
    ensures FromUnixDays(0) == Date(1970, 1, 1)
  {
    YearFromParts(3, 17, 1, 306);
    StartFromParts(3, 17, 1);
    assert 719468 == 4 * 146097 + 135080 && 135080 == 36524 * 3 + 1461 * 17 + 365 * 1 + 306;
  }

  lemma FourCenturies(days: int)
    ensures FromUnixDays(days + 146097) == FromUnixDays(days).(year := FromUnixDays(days).year + 400)
  {
    hide FromUnixDays, YearOfEra, YearStart, Month, Day;
    assert Era(days + 146097) == Era(days) + 1 && DayOfEra(days + 146097) == DayOfEra(days);
    FormulaByEra(days);
    FormulaByEra(days + 146097);
  }

  // Times of day.

  datatype Time = Time(hour: int, minute: int, second: int)

  datatype Stamp = Stamp(date: Date, time: Time)

  /** Parts of an epoch as `zip_datetime` takes them apart. */
  function FromEpoch(epoch: nat): Stamp {
    var inDay := epoch % 86400;
    Stamp(FromUnixDays(epoch / 86400), Time(inDay / 3600, (inDay % 3600) / 60, inDay % 60))
  }

  /** Every epoch second has a date and a time of day, from which it can be recomputed;
      for a 32-bit epoch the year fits the 16 bits it is converted to. */
  lemma EpochParts(epoch: nat)
    ensures var stamp := FromEpoch(epoch); var t := stamp.time;
      && stamp.date == Counted(epoch / 86400) && Exists(stamp.date)
      && 0 <= t.hour < 24 && 0 <= t.minute < 60 && 0 <= t.second < 60
      && epoch == 86400 * (epoch / 86400) + 3600 * t.hour + 60 * t.minute + t.second
    ensures epoch < 0x1_0000_0000 ==> 1970 <= FromEpoch(epoch).date.year <= 2106
  {
    hide FromUnixDays, Counted, Exists;
    FormulaIsCalendar(epoch / 86400);
    NextDayIsTomorrow(epoch / 86400);
    if epoch < 0x1_0000_0000 {
      assert epoch / 86400 <= 49710;
      YearsOf32Bits(epoch / 86400);
    }
  }

  lemma YearsOf32Bits(days: nat)
    requires days <= 49710
    ensures 1970 <= FromUnixDays(days).year <= 2106
  {
    hide FromUnixDays, Counted;
    FirstDay();
    FormulaIsCalendar(0);
    FormulaIsCalendar(days);
    FormulaIsCalendar(49710);
    CountedYears(0, days);
    CountedYears(days, 49710);
    LastDay32();
  }

  lemma {:induction false} CountedYears(early: nat, late: nat)
    requires early <= late
    ensures Counted(early).year <= Counted(late).year
    decreases late
  {
    if early < late {
      CountedYears(early, late - 1);
    }
  }

  lemma LastDay32()
    ensures FromUnixDays(49710) == Date(2106, 2, 7)
  {
    YearFromParts(1, 1, 1, 343);
    StartFromParts(1, 1, 1);
  }
}
