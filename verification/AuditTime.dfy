/** Canonical audit timestamps: whatever is written sorts as text the way it lies in time.

    Instants are microseconds since the first of January of year 1, in UTC.  Python's own parsers are
    parameters; all that is asked of them is that they read back what `isoformat` writes. */
module AuditTime {
  import opened Options

  // ---------------------------------------------------------------- the calendar

  datatype Civil = Civil(year: nat, month: nat, day: nat)

  predicate Leap(year: nat) {
    year % 4 == 0 && (year % 100 != 0 || year % 400 == 0)
  }

  function DaysIn(year: nat, month: nat): nat {
    if month == 2 then if Leap(year) then 29 else 28
    else if month == 4 || month == 6 || month == 9 || month == 11 then 30
    else 31
  }

  predicate ValidDate(c: Civil) {
    1 <= c.year && 1 <= c.month <= 12 && 1 <= c.day <= DaysIn(c.year, c.month)
  }

  function DaysBeforeYear(year: nat): nat
    requires year >= 1
  {
    365 * (year - 1) + (year - 1) / 4 - (year - 1) / 100 + (year - 1) / 400
  }

  function DaysBeforeMonth(year: nat, month: nat): nat
    requires 1 <= month <= 12
  {
    if month == 1 then 0 else DaysBeforeMonth(year, month - 1) + DaysIn(year, month - 1)
  }

  /** Days since the first of January of year 1. */
  function Ordinal(c: Civil): nat
    requires ValidDate(c)
  {
    DaysBeforeYear(c.year) + DaysBeforeMonth(c.year, c.month) + (c.day - 1)
  }

  predicate EarlierDate(a: Civil, b: Civil) {
    a.year < b.year || (a.year == b.year && (a.month < b.month || (a.month == b.month && a.day < b.day)))
  }

  function NextDay(c: Civil): (d: Civil)
    requires ValidDate(c)
    ensures ValidDate(d)
  {
    if c.day < DaysIn(c.year, c.month) then c.(day := c.day + 1)
    else if c.month < 12 then Civil(c.year, c.month + 1, 1)
    else Civil(c.year + 1, 1, 1)
  }

  lemma MonthsFillTheYear(year: nat)
    ensures DaysBeforeMonth(year, 12) + DaysIn(year, 12) == if Leap(year) then 366 else 365
  {
    assert DaysBeforeMonth(year, 2) == 31;
    assert DaysBeforeMonth(year, 3) == 31 + DaysIn(year, 2);
    assert DaysBeforeMonth(year, 4) == 62 + DaysIn(year, 2);
    assert DaysBeforeMonth(year, 5) == 92 + DaysIn(year, 2);
    assert DaysBeforeMonth(year, 6) == 123 + DaysIn(year, 2);
    assert DaysBeforeMonth(year, 7) == 153 + DaysIn(year, 2);
    assert DaysBeforeMonth(year, 8) == 184 + DaysIn(year, 2);
    assert DaysBeforeMonth(year, 9) == 215 + DaysIn(year, 2);
    assert DaysBeforeMonth(year, 10) == 245 + DaysIn(year, 2);
    assert DaysBeforeMonth(year, 11) == 276 + DaysIn(year, 2);
  }

  /** Which calendar it is: the lengths of the months, and the leap years. */
  lemma TheCalendarIsGregorian(c: Civil)
    requires ValidDate(c)
    ensures
      var leap := c.year % 400 == 0 || (c.year % 4 == 0 && c.year % 100 != 0);
      var last := [31, if leap then 29 else 28, 31, 30, 31, 30, 31, 31, 30, 31, 30, 31][c.month - 1];
      && c.day <= last
      && Ordinal(NextDay(c)) == Ordinal(c) + 1
      && NextDay(c) == if c.day < last then Civil(c.year, c.month, c.day + 1)
                       else if c.month < 12 then Civil(c.year, c.month + 1, 1) else Civil(c.year + 1, 1, 1)
    ensures Ordinal(Civil(1, 1, 1)) == 0
  {
    Multiples(c.year);
    NextDayFollows(c);
  }

  lemma Fourth(n: nat)
    ensures (n + 1) / 4 == n / 4 + if (n + 1) % 4 == 0 then 1 else 0
  {
  }

  lemma Hundredth(n: nat)
    ensures (n + 1) / 100 == n / 100 + if (n + 1) % 100 == 0 then 1 else 0
  {
  }

  lemma FourHundredth(n: nat)
    ensures (n + 1) / 400 == n / 400 + if (n + 1) % 400 == 0 then 1 else 0
  {
  }

  lemma Multiples(year: nat)
    ensures year % 400 == 0 ==> year % 100 == 0
    ensures year % 100 == 0 ==> year % 4 == 0
  {
    assert year % 400 == 0 ==> year == 100 * (4 * (year / 400));
    assert year % 100 == 0 ==> year == 4 * (25 * (year / 100));
  }

  lemma YearsFollow(year: nat)
    requires year >= 1
    ensures DaysBeforeYear(year + 1) == DaysBeforeYear(year) + if Leap(year) then 366 else 365
  {
    Fourth(year - 1);
    Hundredth(year - 1);
    FourHundredth(year - 1);
    Multiples(year);
  }

  lemma NextDayFollows(c: Civil)
    requires ValidDate(c)
    ensures Ordinal(NextDay(c)) == Ordinal(c) + 1
  {
    if c.day == DaysIn(c.year, c.month) && c.month == 12 {
      MonthsFillTheYear(c.year);
      YearsFollow(c.year);
    }
  }

  /** The date of a day number, counted up day by day. */
  function CivilOf(n: nat): (c: Civil)
    ensures ValidDate(c)
  {
    if n == 0 then Civil(1, 1, 1) else NextDay(CivilOf(n - 1))
  }

  lemma {:induction false} OrdinalOfCivil(n: nat)
    ensures Ordinal(CivilOf(n)) == n
  {
    if n > 0 {
      OrdinalOfCivil(n - 1);
      NextDayFollows(CivilOf(n - 1));
    }
  }

  lemma {:induction false} LaterMonth(year: nat, a: nat, b: nat)
    requires 1 <= a < b <= 12
    ensures DaysBeforeMonth(year, a) + DaysIn(year, a) <= DaysBeforeMonth(year, b)
  {
    if a + 1 < b {
      LaterMonth(year, a, b - 1);
    }
  }

  lemma {:induction false} LaterYear(a: nat, b: nat)
    requires 1 <= a < b
    ensures DaysBeforeYear(a) + (if Leap(a) then 366 else 365) <= DaysBeforeYear(b)
    decreases b
  {
    YearsFollow(b - 1);
    if a + 1 < b {
      LaterYear(a, b - 1);
    }
  }

  lemma WithinTheYear(c: Civil)
    requires ValidDate(c)
    ensures DaysBeforeMonth(c.year, c.month) + c.day <= if Leap(c.year) then 366 else 365
  {
    MonthsFillTheYear(c.year);
    if c.month < 12 {
      LaterMonth(c.year, c.month, 12);
    }
  }

  lemma OrdinalMonotone(a: Civil, b: Civil)
    requires ValidDate(a) && ValidDate(b) && EarlierDate(a, b)
    ensures Ordinal(a) < Ordinal(b)
  {
    if a.year < b.year {
      WithinTheYear(a);
      LaterYear(a.year, b.year);
    } else if a.month < b.month {
      LaterMonth(a.year, a.month, b.month);
    }
  }

  lemma CivilOfOrdinal(c: Civil)
    requires ValidDate(c)
    ensures CivilOf(Ordinal(c)) == c
  {
    var d := CivilOf(Ordinal(c));
    OrdinalOfCivil(Ordinal(c));
    if EarlierDate(c, d) {
      OrdinalMonotone(c, d);
    } else if EarlierDate(d, c) {
      OrdinalMonotone(d, c);
    }
  }

  lemma CivilMonotone(m: nat, n: nat)
    requires m < n
    ensures EarlierDate(CivilOf(m), CivilOf(n))
  {
    OrdinalOfCivil(m);
    OrdinalOfCivil(n);
    if !EarlierDate(CivilOf(m), CivilOf(n)) && CivilOf(m) != CivilOf(n) {
      OrdinalMonotone(CivilOf(n), CivilOf(m));
    }
  }

  // ---------------------------------------------------------------- datetimes

  const SECOND := 1_000_000
  const MINUTE := 60 * SECOND
  const HOUR := 60 * MINUTE
  const DAY := 24 * HOUR
  const LAST_YEAR := 9999
  /** The number of days in the years that `datetime` can represent. */
  const DAYS := 3_652_059

  /** A `datetime`: a date, the microseconds into the day, and the offset, if it has one. */
  datatype DateTime = DateTime(date: Civil, clock: int, offset: Option<int>)

  predicate ValidDateTime(d: DateTime) {
    && ValidDate(d.date) && d.date.year <= LAST_YEAR
    && 0 <= d.clock < DAY
    && (d.offset.Some? ==> -DAY < d.offset.value < DAY)
  }

  /** A naive `datetime` is taken to be UTC. */
  function Instant(d: DateTime): int
    requires ValidDateTime(d)
  {
    Ordinal(d.date) * DAY + d.clock - if d.offset.Some? then d.offset.value else 0
  }

  predicate Representable(t: int) {
    0 <= t < DAYS * DAY
  }

  /** `astimezone(timezone.utc)`. */
  function AtUtc(t: int): DateTime
    requires Representable(t)
  {
    DateTime(CivilOf(t / DAY), t % DAY, Some(0))
  }

  lemma AtUtcIsValid(t: int)
    requires Representable(t)
    ensures ValidDateTime(AtUtc(t)) && Instant(AtUtc(t)) == t
  {
    SplitInstant(t);
    OrdinalOfCivil(t / DAY);
    YearsEnd(t / DAY);
  }

  lemma SplitInstant(t: int)
    requires 0 <= t
    ensures t == (t / DAY) * DAY + t % DAY
    ensures t < DAYS * DAY <==> t / DAY < DAYS
  {
  }

  /** The last representable day is in the last representable year. */
  lemma YearsEnd(n: nat)
    ensures n < DAYS <==> CivilOf(n).year <= LAST_YEAR
  {
    OrdinalOfCivil(n);
    var c := CivilOf(n);
    assert DaysBeforeYear(10000) == DAYS;
    if c.year > LAST_YEAR {
      LaterYearOrSame(10000, c.year);
    } else {
      WithinTheYear(c);
      YearsFollow(c.year);
      LaterYearOrSame(c.year + 1, 10000);
    }
  }

  lemma LaterYearOrSame(a: nat, b: nat)
    requires 1 <= a <= b
    ensures DaysBeforeYear(a) <= DaysBeforeYear(b)
  {
    if a < b {
      LaterYear(a, b);
    }
  }

  /** A `datetime` that is in UTC, by its offset or by default, keeps its fields. */
  lemma UtcKeepsFields(d: DateTime)
    requires ValidDateTime(d) && (d.offset.None? || d.offset.value == 0)
    ensures Representable(Instant(d)) && AtUtc(Instant(d)) == d.(offset := Some(0))
  {
    CivilOfOrdinal(d.date);
    YearsEnd(Ordinal(d.date));
    UtcFields(Ordinal(d.date), d.clock);
  }

  lemma UtcFields(day: nat, clock: int)
    requires day < DAYS && 0 <= clock < DAY
    ensures Representable(day * DAY + clock)
    ensures AtUtc(day * DAY + clock) == DateTime(CivilOf(day), clock, Some(0))
  {
    DayAndClock(day, clock);
  }

  lemma DayAndClock(day: nat, clock: int)
    requires 0 <= clock < DAY
    ensures (day * DAY + clock) / DAY == day && (day * DAY + clock) % DAY == clock
  {
  }
}
