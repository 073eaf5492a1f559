/** Seconds since 1970 as a calendar date and a time of day. */
module Calendar {
  datatype Date = Date(year: nat, month: nat, day: nat)

  datatype Time = Time(hours: nat, minutes: nat, seconds: nat)

  const EPOCH := 1970
  const DAY := 86400

  // --- the calendar's rules ---

  predicate IsLeap(year: nat) { year % 4 == 0 && (year % 100 != 0 || year % 400 == 0) }

  function YearLength(year: nat): nat { if IsLeap(year) then 366 else 365 }

  function MonthLength(year: nat, month: nat): (n: nat)
    ensures 28 <= n <= 31
  {
    if month == 2 then (if IsLeap(year) then 29 else 28)
    else if month == 4 || month == 6 || month == 9 || month == 11 then 30
    else 31
  }

  predicate ValidDate(d: Date) {
    d.year >= EPOCH && 1 <= d.month <= 12 && 1 <= d.day <= MonthLength(d.year, d.month)
  }

  function DaysBeforeYear(year: nat): nat
    requires year >= EPOCH
  {
    if year == EPOCH then 0 else DaysBeforeYear(year - 1) + YearLength(year - 1)
  }

  function DaysBeforeMonth(year: nat, month: nat): nat
    requires month >= 1
  {
    if month == 1 then 0 else DaysBeforeMonth(year, month - 1) + MonthLength(year, month - 1)
  }

  /** The number of days since 1970-01-01. */
  function DayNumber(d: Date): nat
    requires ValidDate(d)
  {
    DaysBeforeYear(d.year) + DaysBeforeMonth(d.year, d.month) + d.day - 1
  }

  // --- from days to a date ---

  function YearFrom(year: nat, days: nat): (r: (nat, nat))
    requires year >= EPOCH
    ensures r.0 >= year && r.1 < YearLength(r.0)
    ensures DaysBeforeYear(r.0) + r.1 == DaysBeforeYear(year) + days
    decreases days
  {
    if days < YearLength(year) then (year, days) else YearFrom(year + 1, days - YearLength(year))
  }

  /** The days of a year before each month. */
  lemma MonthTable(year: nat)
    ensures var leap := if year % 4 == 0 && (year % 100 != 0 || year % 400 == 0) then 1 else 0;
            && DaysBeforeMonth(year, 1) == 0 && DaysBeforeMonth(year, 2) == 31
            && DaysBeforeMonth(year, 3) == 59 + leap && DaysBeforeMonth(year, 4) == 90 + leap
            && DaysBeforeMonth(year, 5) == 120 + leap && DaysBeforeMonth(year, 6) == 151 + leap
            && DaysBeforeMonth(year, 7) == 181 + leap && DaysBeforeMonth(year, 8) == 212 + leap
            && DaysBeforeMonth(year, 9) == 243 + leap && DaysBeforeMonth(year, 10) == 273 + leap
            && DaysBeforeMonth(year, 11) == 304 + leap && DaysBeforeMonth(year, 12) == 334 + leap
            && DaysBeforeMonth(year, 13) == 365 + leap
  {
    assert DaysBeforeMonth(year, 2) == 31 + DaysBeforeMonth(year, 1);
    assert DaysBeforeMonth(year, 3) == DaysBeforeMonth(year, 2) + MonthLength(year, 2);
    assert DaysBeforeMonth(year, 4) == DaysBeforeMonth(year, 3) + 31;
    assert DaysBeforeMonth(year, 5) == DaysBeforeMonth(year, 4) + 30;
    assert DaysBeforeMonth(year, 6) == DaysBeforeMonth(year, 5) + 31;
    assert DaysBeforeMonth(year, 7) == DaysBeforeMonth(year, 6) + 30;
    assert DaysBeforeMonth(year, 8) == DaysBeforeMonth(year, 7) + 31;
    assert DaysBeforeMonth(year, 9) == DaysBeforeMonth(year, 8) + 31;
    assert DaysBeforeMonth(year, 10) == DaysBeforeMonth(year, 9) + 30;
    assert DaysBeforeMonth(year, 11) == DaysBeforeMonth(year, 10) + 31;
    assert DaysBeforeMonth(year, 12) == DaysBeforeMonth(year, 11) + 30;
  }

  function MonthFrom(year: nat, month: nat, days: nat): (r: (nat, nat))
    requires 1 <= month <= 12 && DaysBeforeMonth(year, month) + days < DaysBeforeMonth(year, 13)
    ensures month <= r.0 <= 12 && r.1 < MonthLength(year, r.0)
    ensures DaysBeforeMonth(year, r.0) + r.1 == DaysBeforeMonth(year, month) + days
    decreases days
  {
    if days < MonthLength(year, month) then (month, days)
    else
      assert DaysBeforeMonth(year, month + 1) == DaysBeforeMonth(year, month) + MonthLength(year, month);
      MonthFrom(year, month + 1, days - MonthLength(year, month))
  }

  function DateOf(days: nat): (d: Date)
    ensures ValidDate(d) && DayNumber(d) == days
  {
    var (year, rest) := YearFrom(EPOCH, days);
    MonthTable(year);
    var (month, day) := MonthFrom(year, 1, rest);
    Date(year, month, day + 1)
  }

  // --- different dates, different days ---

  lemma {:induction false} YearsAscend(a: nat, b: nat)
    requires EPOCH <= a < b
    ensures DaysBeforeYear(a) + YearLength(a) <= DaysBeforeYear(b)
  {
    if a + 1 < b {
      YearsAscend(a, b - 1);
    }
  }

  lemma {:induction false} MonthsAscend(year: nat, a: nat, b: nat)
    requires 1 <= a < b
    ensures DaysBeforeMonth(year, a) + MonthLength(year, a) <= DaysBeforeMonth(year, b)
  {
    if a + 1 < b {
      MonthsAscend(year, a, b - 1);
    }
  }

  lemma DayInYear(d: Date)
    requires ValidDate(d)
    ensures DaysBeforeYear(d.year) <= DayNumber(d) < DaysBeforeYear(d.year) + YearLength(d.year)
  {
    MonthTable(d.year);
    MonthsAscend(d.year, d.month, 13);
  }

  /** A day has one date only. */
  lemma DateIsUnique(d: Date, e: Date)
    requires ValidDate(d) && ValidDate(e) && DayNumber(d) == DayNumber(e)
    ensures d == e
  {
    DayInYear(d);
    DayInYear(e);
    if d.year < e.year {
      YearsAscend(d.year, e.year);
    } else if e.year < d.year {
      YearsAscend(e.year, d.year);
    }
    if d.month < e.month {
      MonthsAscend(d.year, d.month, e.month);
    } else if e.month < d.month {
      MonthsAscend(d.year, e.month, d.month);
    }
  }

  /** The years' lengths add up to the Gregorian rule. */
  lemma {:induction false} DaysInClosedForm(year: nat)
    requires year >= 1970
    ensures DaysBeforeYear(year) == 365 * (year - 1970) + (year - 1) / 4 - (year - 1) / 100 + (year - 1) / 400 - 477
  {
    if year > EPOCH {
      DaysInClosedForm(year - 1);
      LeapStep(year - 1);
    }
  }

  lemma LeapStep(year: nat)
    requires year > 0
    ensures year / 4 - year / 100 + year / 400
      == (year - 1) / 4 - (year - 1) / 100 + (year - 1) / 400 + if IsLeap(year) then 1 else 0
  {
    Step4(year);
    Step100(year);
    Step400(year);
    Multiples(year);
  }

  lemma FourTimes(k: nat)
    ensures 4 * k % 4 == 0
  {
  }

  lemma HundredTimes(k: nat)
    ensures 100 * k % 100 == 0
  {
  }

  lemma Multiples(n: nat)
    ensures n % 100 == 0 ==> n % 4 == 0
    ensures n % 400 == 0 ==> n % 100 == 0
  {
    FourTimes(25 * (n / 100));
    HundredTimes(4 * (n / 400));
  }

  lemma Step4(n: nat)
    requires n > 0
    ensures n / 4 == (n - 1) / 4 + if n % 4 == 0 then 1 else 0
  {
  }

  lemma Step100(n: nat)
    requires n > 0
    ensures n / 100 == (n - 1) / 100 + if n % 100 == 0 then 1 else 0
  {
  }

  lemma Step400(n: nat)
    requires n > 0
    ensures n / 400 == (n - 1) / 400 + if n % 400 == 0 then 1 else 0
  {
  }

  // --- seconds ---

  function TimeOf(second: nat): Time
    requires second < DAY
  {
    Time(second / 3600, second / 60 % 60, second % 60)
  }

  predicate ValidTime(t: Time) { t.hours < 24 && t.minutes < 60 && t.seconds < 60 }

  function SecondNumber(t: Time): nat { t.hours * 3600 + t.minutes * 60 + t.seconds }

  datatype Moment = Moment(date: Date, time: Time)

  /** The code's decomposition: the whole days, and what is left of the day. */
  function MomentOf(now: nat): Moment {
    var days := now / DAY;
    Moment(DateOf(days), TimeOf(now - days * DAY))
  }

  predicate ValidMoment(m: Moment) { ValidDate(m.date) && ValidTime(m.time) }

  function Recombine(m: Moment): nat
    requires ValidMoment(m)
  {
    DayNumber(m.date) * DAY + SecondNumber(m.time)
  }

  lemma TimeOfSecondNumber(t: Time)
    requires ValidTime(t)
    ensures SecondNumber(t) < DAY && TimeOf(SecondNumber(t)) == t
  {
    var n := SecondNumber(t);
    assert n / 60 == t.hours * 60 + t.minutes;
    assert n / 3600 == t.hours;
  }

  /** Date and time recombine to the input, and every date and time comes from one input. */
  lemma MomentRoundTrip(now: nat)
    ensures ValidMoment(MomentOf(now)) && Recombine(MomentOf(now)) == now
  {
  }

  /** In numbers: the days of the Gregorian years and months before, and 86400 seconds a day. */
  lemma MomentInSeconds(now: nat)
    ensures var d, t := MomentOf(now).date, MomentOf(now).time;
            && d.year >= 1970 && 1 <= d.month <= 12 && d.day >= 1
            && t.hours < 24 && t.minutes < 60 && t.seconds < 60
            && now == 86_400 * (365 * (d.year - 1970) + (d.year - 1) / 4 - (d.year - 1) / 100 + (d.year - 1) / 400 - 477
                                + DaysBeforeMonth(d.year, d.month) + d.day - 1)
                      + 3600 * t.hours + 60 * t.minutes + t.seconds
            && DaysBeforeMonth(d.year, d.month) + d.day <= DaysBeforeMonth(d.year, d.month + 1)
  {
    MomentRoundTrip(now);
    DaysInClosedForm(MomentOf(now).date.year);
  }

  lemma RecombineRoundTrip(m: Moment)
    requires ValidMoment(m)
    ensures MomentOf(Recombine(m)) == m
  {
    TimeOfSecondNumber(m.time);
    DateIsUnique(DateOf(DayNumber(m.date)), m.date);
    assert Recombine(m) / 86400 == DayNumber(m.date);
  }

  const END := 253402300800  // 10000-01-01T00:00:00

  lemma FourDigitYears(now: nat)
    ensures MomentOf(now).date.year < 10000 <==> now < 253402300800
  {
    DaysInClosedForm(10000);
    assert DaysBeforeYear(10000) * DAY == END;
    var d := MomentOf(now).date;
    DayInYear(d);
    if d.year < 10000 {
      YearsAscend(d.year, 10000);
    } else if d.year > 10000 {
      YearsAscend(10000, d.year);
    }
  }
}
