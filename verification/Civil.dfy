/**
 Unix seconds to civil time (gateway/src/store/s3.rs), against the calendar counted day by day.
 */
module Civil {
  datatype Date = Date(year: int, month: int, day: int)

  datatype Time = Time(date: Date, hour: int, minute: int, second: int)

  /** The days-to-date arithmetic, on the day number since 1970-01-01. */
  function CivilDate(days: nat): Date {
    var z := days + 719_468;
    var era := z / 146_097;
    var doe := z % 146_097;
    var yoe := YearOfEra(doe);
    var y := yoe + era * 400;
    var doy := doe - (365 * yoe + yoe / 4 - yoe / 100);
    var mp := (5 * doy + 2) / 153;
    var d := doy - (153 * mp + 2) / 5 + 1;
    var m := if mp < 10 then mp + 3 else mp - 9;
    Date(if m <= 2 then y + 1 else y, m, d)
  }

  function YearOfEra(doe: nat): int {
    (doe - doe / 1460 + doe / 36_524 - doe / 146_096) / 365
  }

  function CivilTime(secs: nat): Time {
    TimeOn(CivilDate(secs / 86_400), secs % 86_400)
  }

  function TimeOn(date: Date, rem: nat): Time {
    Time(date, rem / 3600, (rem % 3600) / 60, rem % 60)
  }

  // ---- The calendar, one day after another ------------------------------------------------------

  predicate Leap(year: int) {
    year % 4 == 0 && (year % 100 != 0 || year % 400 == 0)
  }

  function MonthLength(year: int, month: int): int {
    if month == 2 then (if Leap(year) then 29 else 28)
    else if month == 4 || month == 6 || month == 9 || month == 11 then 30
    else 31
  }

  predicate Valid(date: Date) {
    1 <= date.month <= 12 && 1 <= date.day <= MonthLength(date.year, date.month)
  }

  function Tomorrow(date: Date): Date {
    if date.day < MonthLength(date.year, date.month) then date.(day := date.day + 1)
    else if date.month < 12 then Date(date.year, date.month + 1, 1)
    else Date(date.year + 1, 1, 1)
  }

  function Calendar(days: nat): Date {
    if days == 0 then Date(1970, 1, 1) else Tomorrow(Calendar(days - 1))
  }

  // ---- Counting days ----------------------------------------------------------------------------

  /** Years and months counted from March, so that the leap day comes last. */
  function MarchYear(date: Date): int {
    if date.month <= 2 then date.year - 1 else date.year
  }

  function MarchMonth(date: Date): int {
    if date.month <= 2 then date.month + 9 else date.month - 3
  }

  function MonthStart(mp: int): int {
    (153 * mp + 2) / 5
  }

  /** Days before March of year `y`, in the proleptic calendar. */
  function YearDays(y: int): int {
    365 * y + y / 4 - y / 100 + y / 400
  }

  function DayNumber(date: Date): int {
    YearDays(MarchYear(date)) + MonthStart(MarchMonth(date)) + date.day - 1 - 719_468
  }

  lemma MonthStarts()
    ensures MonthStart(0) == 0 && MonthStart(1) == 31 && MonthStart(2) == 61 && MonthStart(3) == 92
    ensures MonthStart(4) == 122 && MonthStart(5) == 153 && MonthStart(6) == 184 && MonthStart(7) == 214
    ensures MonthStart(8) == 245 && MonthStart(9) == 275 && MonthStart(10) == 306 && MonthStart(11) == 337
  {
  }

  /** One more March year has 366 days exactly when the February it ends in is a leap one. */
  lemma YearDaysStep(y: int)
    ensures YearDays(y + 1) == YearDays(y) + (if Leap(y + 1) then 366 else 365)
  {
    StepDiv(y, 4);
    StepDiv(y, 100);
    StepDiv(y, 400);
    assert (y + 1) % 400 == 0 ==> (y + 1) % 100 == 0;
    assert (y + 1) % 100 == 0 ==> (y + 1) % 4 == 0;
  }

  lemma StepDiv(y: int, n: int)
    requires n == 4 || n == 100 || n == 400
    ensures (y + 1) / n == y / n + (if (y + 1) % n == 0 then 1 else 0)
  {
  }

  /** The number of a day grows by one with every day of the calendar. */
  lemma TomorrowIsNext(date: Date)
    requires Valid(date)
    ensures Valid(Tomorrow(date)) && DayNumber(Tomorrow(date)) == DayNumber(date) + 1
  {
    MonthStarts();
    YearDaysStep(MarchYear(date));
  }

  // ---- The arithmetic finds the year --------------------------------------------------------------

  /** Days before the March year `y` of a 400-year era. */
  function EraStart(y: int): int {
    365 * y + y / 4 - y / 100
  }

  function EraEnd(y: int): int {
    if y == 399 then 146_097 else EraStart(y + 1)
  }

  lemma DivIs(x: int, d: int, q: int, r: int)
    requires d == 1460 || d == 36_524 || d == 146_096 || d == 365
    requires x == d * q + r && 0 <= r < d
    ensures x / d == q
  {
  }

  /** A day of the era's year `y = 100c + 4a + b`, `u` days in. */
  lemma YearFoundAt(c: int, a: int, b: int, u: int)
    requires 0 <= c <= 3 && 0 <= a <= 24 && 0 <= b <= 3 && 0 <= u <= 365
    requires u == 365 ==> b == 3 && (a < 24 || c == 3)
    ensures YearOfEra(36_524 * c + 1461 * a + 365 * b + u) == 100 * c + 4 * a + b
  {
    var doe := 36_524 * c + 1461 * a + 365 * b + u;
    var inner := 24 * c + a + 365 * b + u;
    var extra := if inner >= 1460 then 1 else 0;
    DivIs(doe, 1460, 25 * c + a + extra, inner - 1460 * extra);
    var last := c == 3 && a == 24 && b == 3 && u == 365;
    if last {
      assert doe == 146_096;
    } else {
      DivIs(doe, 36_524, c, 1461 * a + 365 * b + u);
      DivIs(doe, 146_096, 0, doe);
    }
    DivIs(365 * (100 * c + 4 * a + b) + u - extra, 365, 100 * c + 4 * a + b, u - extra);
  }

  lemma YearFound(doe: int, y: int)
    requires 0 <= y <= 399 && EraStart(y) <= doe < EraEnd(y)
    ensures YearOfEra(doe) == y
  {
    var c, k := y / 100, y % 100;
    var a, b := k / 4, k % 4;
    assert y == 100 * c + 4 * a + b;
    assert y / 4 == 25 * c + a;
    StepDiv(y, 4);
    StepDiv(y, 100);
    YearFoundAt(c, a, b, doe - EraStart(y));
  }

  lemma MonthFound(mp: int, d: int, doy: int)
    requires 0 <= mp <= 11 && doy == MonthStart(mp) + d - 1 && 1 <= d && doy <= 365
    requires mp < 11 ==> doy < MonthStart(mp + 1)
    ensures (5 * doy + 2) / 153 == mp
  {
    MonthStarts();
  }

  lemma DivShift(x: int, k: int, n: int)
    requires n == 4 || n == 100 || n == 400
    ensures (x + k * n) / n == x / n + k && (x + k * n) % n == x % n
  {
    var q, r := x / n, x % n;
    assert x == n * q + r && 0 <= r < n;
    if n == 4 {
      assert x + k * 4 == 4 * (q + k) + r;
    } else if n == 100 {
      assert x + k * 100 == 100 * (q + k) + r;
    } else {
      assert x + k * 400 == 400 * (q + k) + r;
    }
  }

  /** Eras of 400 years are all alike. */
  lemma EraDays(era: int, yoe: int)
    requires 0 <= yoe <= 399
    ensures YearDays(yoe + era * 400) == era * 146_097 + EraStart(yoe)
  {
    DivShift(yoe, era * 100, 4);
    DivShift(yoe, era * 4, 100);
    DivShift(yoe, era, 400);
    assert era * 100 * 4 == era * 400 && era * 4 * 100 == era * 400;
  }

  lemma EraLeap(era: int, year: int)
    ensures Leap(year + era * 400) <==> Leap(year)
  {
    DivShift(year, era * 100, 4);
    DivShift(year, era * 4, 100);
    DivShift(year, era, 400);
    assert era * 100 * 4 == era * 400 && era * 4 * 100 == era * 400;
  }

  lemma EraYearLength(yoe: int)
    requires 0 <= yoe <= 399
    ensures EraEnd(yoe) == EraStart(yoe) + (if Leap(yoe + 1) then 366 else 365)
  {
    YearDaysStep(yoe);
  }

  /** A valid date is recovered from its number. */
  lemma CivilDateInverts(date: Date, days: nat)
    requires Valid(date) && DayNumber(date) == days
    ensures CivilDate(days) == date
  {
    var y, mp := MarchYear(date), MarchMonth(date);
    var era, yoe := y / 400, y % 400;
    assert y == yoe + era * 400;
    EraDays(era, yoe);
    EraLeap(era, yoe + 1);
    EraYearLength(yoe);
    DayOfYear(date, mp, yoe, era);
    var doy := MonthStart(mp) + date.day - 1;
    var doe := EraStart(yoe) + doy;
    EraInside(yoe);
    YearFound(doe, yoe);
    MonthFound(mp, date.day, doy);
    DateIs(days, era, doe, yoe, doy, mp, date);
  }

  lemma DayOfYear(date: Date, mp: int, yoe: int, era: int)
    requires Valid(date) && mp == MarchMonth(date) && MarchYear(date) == yoe + era * 400
    requires Leap(yoe + 1 + era * 400) <==> Leap(yoe + 1)
    ensures 0 <= mp <= 11
    ensures var doy := MonthStart(mp) + date.day - 1;
            0 <= doy < (if Leap(yoe + 1) then 366 else 365) && (mp < 11 ==> doy < MonthStart(mp + 1))
  {
    MonthStarts();
  }

  lemma DateIs(days: nat, era: int, doe: int, yoe: int, doy: int, mp: int, date: Date)
    requires days + 719_468 == era * 146_097 + doe && 0 <= doe < 146_097
    requires YearOfEra(doe) == yoe && doy == doe - EraStart(yoe) && (5 * doy + 2) / 153 == mp && 0 <= mp <= 11
    requires MarchYear(date) == yoe + era * 400 && MarchMonth(date) == mp && date.day == doy - MonthStart(mp) + 1
    requires 1 <= date.month <= 12
    ensures CivilDate(days) == date
  {
    assert (days + 719_468) / 146_097 == era && (days + 719_468) % 146_097 == doe;
  }

  lemma EraInside(yoe: int)
    requires 0 <= yoe <= 399
    ensures 0 <= EraStart(yoe) && EraEnd(yoe) <= 146_097
  {
  }

  // ---- The theorems ---------------------------------------------------------------------------------

  lemma NextDate(date: Date, days: nat)
    requires Valid(date) && DayNumber(date) == days
    ensures CivilDate(days + 1) == Tomorrow(date)
    ensures Valid(Tomorrow(date)) && DayNumber(Tomorrow(date)) == days + 1
  {
    TomorrowIsNext(date);
    CivilDateInverts(Tomorrow(date), days + 1);
  }

  predicate DateOf(days: nat, date: Date) {
    Valid(date) && DayNumber(date) == days && CivilDate(days) == date
  }

  lemma FirstDate()
    ensures DateOf(0, Date(1970, 1, 1))
  {
    EpochDay();
    CivilDateInverts(Date(1970, 1, 1), 0);
  }

  lemma EpochDay()
    ensures DayNumber(Date(1970, 1, 1)) == 0
  {
    assert MarchYear(Date(1970, 1, 1)) == 1969 && MarchMonth(Date(1970, 1, 1)) == 10;
    MonthStarts();
  }

  lemma NextDateOf(days: nat, date: Date)
    requires DateOf(days, date)
    ensures DateOf(days + 1, Tomorrow(date))
  {
    NextDate(date, days);
  }

  lemma {:induction false} CalendarDateOf(days: nat)
    ensures DateOf(days, Calendar(days))
    decreases days
  {
    if days == 0 {
      FirstDate();
    } else {
      CalendarDateOf(days - 1);
      NextDateOf(days - 1, Calendar(days - 1));
    }
  }

  /** Day by day, the arithmetic is the calendar. */
  lemma {:induction false} CivilIsCalendar(days: nat)
    ensures CivilDate(days) == Calendar(days)
    ensures Valid(Calendar(days)) && DayNumber(Calendar(days)) == days
  {
    CalendarDateOf(days);
  }

  predicate Before(a: Time, b: Time) {
    var x, y := a.date, b.date;
    x.year < y.year || (x.year == y.year &&
      (x.month < y.month || (x.month == y.month &&
        (x.day < y.day || (x.day == y.day &&
          (a.hour < b.hour || (a.hour == b.hour &&
            (a.minute < b.minute || (a.minute == b.minute && a.second < b.second)))))))))
  }

  predicate DateBefore(x: Date, y: Date) {
    x.year < y.year || (x.year == y.year && (x.month < y.month || (x.month == y.month && x.day < y.day)))
  }

  lemma TomorrowIsLater(x: Date, y: Date)
    requires Valid(y)
    ensures x == y || DateBefore(x, y) ==> DateBefore(x, Tomorrow(y))
  {
  }

  lemma {:induction false} LaterDayLaterDate(a: nat, b: nat)
    requires a < b
    ensures DateBefore(Calendar(a), Calendar(b))
    decreases b
  {
    CivilIsCalendar(b - 1);
    if a < b - 1 {
      LaterDayLaterDate(a, b - 1);
    }
    TomorrowIsLater(Calendar(a), Calendar(b - 1));
  }

  lemma TimesInOrder(x: Date, r: nat, y: Date, s: nat)
    requires r < 86_400 && s < 86_400 && (DateBefore(x, y) || (x == y && r < s))
    ensures Before(TimeOn(x, r), TimeOn(y, s))
  {
    if !DateBefore(x, y) {
      LaterInTheDay(r, s);
    }
  }

  /** Every second count gives a valid date, the calendar's, and a valid time of day, from which the
      count is recovered. */
  lemma CivilTimeHolds(secs: nat)
    ensures var t := CivilTime(secs);
            && Valid(t.date) && t.date == Calendar(secs / 86_400)
            && 0 <= t.hour < 24 && 0 <= t.minute < 60 && 0 <= t.second < 60
            && secs == DayNumber(t.date) * 86_400 + t.hour * 3600 + t.minute * 60 + t.second
  {
    var days, rem := secs / 86_400, secs % 86_400;
    CivilIsCalendar(days);
    TimeOfDay(rem);
    assert CivilTime(secs) == TimeOn(Calendar(days), rem);
  }

  lemma CivilTimeIs(secs: nat)
    ensures CivilTime(secs) == TimeOn(Calendar(secs / 86_400), secs % 86_400)
  {
    CivilIsCalendar(secs / 86_400);
  }

  lemma CalendarTimesRise(a: nat, r: nat, b: nat, s: nat)
    requires r < 86_400 && s < 86_400 && (a < b || (a == b && r < s))
    ensures Before(TimeOn(Calendar(a), r), TimeOn(Calendar(b), s))
  {
    if a < b {
      LaterDayLaterDate(a, b);
    }
    TimesInOrder(Calendar(a), r, Calendar(b), s);
  }

  /** A later count gives a later time. */
  lemma CivilTimeRises(secs: nat, later: nat)
    requires secs < later
    ensures Before(CivilTime(secs), CivilTime(later))
  {
    CivilTimeIs(secs);
    CivilTimeIs(later);
    CalendarTimesRise(secs / 86_400, secs % 86_400, later / 86_400, later % 86_400);
  }

  lemma TimeOfDay(rem: nat)
    requires rem < 86_400
    ensures 0 <= rem / 3600 < 24 && 0 <= rem % 3600 / 60 < 60 && rem == rem / 3600 * 3600 + rem % 3600 / 60 * 60 + rem % 60
  {
  }

  lemma LaterInTheDay(r: nat, s: nat)
    requires r < s < 86_400
    ensures r / 3600 < s / 3600
         || (r / 3600 == s / 3600 && (r % 3600 / 60 < s % 3600 / 60
             || (r % 3600 / 60 == s % 3600 / 60 && r % 60 < s % 60)))
  {
  }

  /** Days before the first of January, counted year by year from 1970. */
  function DaysBeforeYear(year: int): int
    requires year >= 1970
    decreases year
  {
    if year == 1970 then 0 else DaysBeforeYear(year - 1) + (if Leap(year - 1) then 366 else 365)
  }

  function DaysBeforeMonth(year: int, month: int): int
    requires 1 <= month <= 12
    decreases month
  {
    if month == 1 then 0 else DaysBeforeMonth(year, month - 1) + MonthLength(year, month - 1)
  }

  lemma {:induction false} NewYear(year: int)
    requires year >= 1970
    ensures DayNumber(Date(year, 1, 1)) == DaysBeforeYear(year)
    decreases year
  {
    MonthStarts();
    if year > 1970 {
      NewYear(year - 1);
      YearDaysStep(year - 2);
    }
  }

  lemma {:induction false} FirstOfMonth(year: int, month: int)
    requires 1 <= month <= 12
    ensures DayNumber(Date(year, month, 1)) == DayNumber(Date(year, 1, 1)) + DaysBeforeMonth(year, month)
    decreases month
  {
    MonthStarts();
    if month > 1 {
      FirstOfMonth(year, month - 1);
      YearDaysStep(year - 1);
    }
  }

  /** The arithmetic inverts counting the days since 1970-01-01 year by year and month by month. */
  lemma CivilInvertsCounting(date: Date)
    requires Valid(date) && date.year >= 1970
    ensures Counted(date) >= 0 && CivilDate(Counted(date)) == date
  {
    CountsUp(date.year, date.month);
    CountsDays(date);
    CivilDateInverts(date, Counted(date));
  }

  /** The days from 1970-01-01 to a date. */
  function Counted(date: Date): int
    requires date.year >= 1970 && 1 <= date.month <= 12
  {
    DaysBeforeYear(date.year) + DaysBeforeMonth(date.year, date.month) + date.day - 1
  }

  lemma {:induction false} CountsDays(date: Date)
    requires Valid(date) && date.year >= 1970
    ensures DayNumber(date) == Counted(date)
  {
    NewYear(date.year);
    FirstOfMonth(date.year, date.month);
    DayInMonth(date);
  }

  lemma DayInMonth(date: Date)
    requires 1 <= date.month <= 12
    ensures DayNumber(date) == DayNumber(Date(date.year, date.month, 1)) + date.day - 1
  {
  }

  lemma {:induction false} CountsUp(year: int, month: int)
    requires year >= 1970 && 1 <= month <= 12
    ensures DaysBeforeYear(year) >= 0 && DaysBeforeMonth(year, month) >= 0
    decreases year, month
  {
    if month > 1 {
      CountsUp(year, month - 1);
    } else if year > 1970 {
      CountsUp(year - 1, 1);
    }
  }
}
