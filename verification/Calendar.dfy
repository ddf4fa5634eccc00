/**
 The proleptic Gregorian calendar as day numbers, and the part of Go's time
 package that the billing cycles use.

 An instant is a number of nanoseconds since 1 January of year 1, 00:00 UTC (Go's
 zero time).  A zone is a fixed offset.  A month is numbered from month 0, which
 is January of year 0, so that "add n months" is addition on month numbers and
 normalising an out-of-range month needs no case split.
 */
module Calendar {

  type Instant = int

  const ZERO_TIME: Instant := 0
  const DAY: int := 86_400_000_000_000

  predicate IsLeap(year: int) {
    year % 4 == 0 && (year % 100 != 0 || year % 400 == 0)
  }

  /** The length of a month. */
  function DaysIn(m: int): (n: int)
    ensures 28 <= n <= 31
  {
    var k := m % 12;
    if k == 1 then (if IsLeap(m / 12) then 29 else 28)
    else if k == 3 || k == 5 || k == 8 || k == 10 then 30
    else 31
  }

  /** The day number of the first day of a month: day 0 is 1 January of year 1. */
  function MonthStart(m: int): int
    decreases if m < 12 then 12 - m else m - 12
  {
    if m == 12 then 0
    else if m > 12 then MonthStart(m - 1) + DaysIn(m - 1)
    else MonthStart(m + 1) - DaysIn(m)
  }

  lemma NextMonth(m: int)
    ensures MonthStart(m + 1) == MonthStart(m) + DaysIn(m)
  {
  }

  /** The layout agrees with the closed form of the Gregorian rule. */
  lemma {:induction false} YearStart(year: int)
    ensures MonthStart(12 * year) == 365 * (year - 1) + (year - 1) / 4 - (year - 1) / 100 + (year - 1) / 400
    decreases if year < 1 then 1 - year else year - 1
  {
    if year > 1 {
      YearStart(year - 1);
      YearLength(year - 1);
      LeapDays(year - 1);
    } else if year < 1 {
      YearStart(year + 1);
      YearLength(year);
      LeapDays(year);
    }
  }

  /** The Unix epoch lies 62135596800 seconds after year 1. */
  lemma UnixEpoch()
    ensures Civil(12 * 1970, 1, 0).ToLocal() == 62_135_596_800_000_000_000
  {
    YearStart(1970);
    hide MonthStart;
  }

  lemma YearLength(year: int)
    ensures MonthStart(12 * year + 12) == MonthStart(12 * year) + if IsLeap(year) then 366 else 365
  {
    MonthsOfYear(year, 12);
  }

  lemma {:induction false} MonthsOfYear(year: int, k: nat)
    requires k <= 12
    ensures MonthStart(12 * year + k) ==
            MonthStart(12 * year) + [0, 31, 59, 90, 120, 151, 181, 212, 243, 273, 304, 334, 365][k]
            + if IsLeap(year) && k >= 2 then 1 else 0
  {
    if k > 0 {
      MonthsOfYear(year, k - 1);
      NextMonth(12 * year + k - 1);
      assert (12 * year + k - 1) / 12 == year && (12 * year + k - 1) % 12 == k - 1;
    }
  }

  lemma LeapDays(year: int)
    ensures year / 4 - year / 100 + year / 400 ==
            (year - 1) / 4 - (year - 1) / 100 + (year - 1) / 400 + if IsLeap(year) then 1 else 0
  {
    Quotient(year, 4);
    Quotient(year, 100);
    Quotient(year, 400);
  }

  lemma Quotient(n: int, d: int)
    requires d in {4, 100, 400}
    ensures n / d == (n - 1) / d + if n % d == 0 then 1 else 0
  {
  }

  /** Months are laid out in order, at least 28 days apart. */
  lemma {:induction false} MonthsAscend(m: int, n: int)
    requires m <= n
    ensures MonthStart(m) + 28 * (n - m) <= MonthStart(n)
    decreases n - m
  {
    if m < n {
      MonthsAscend(m, n - 1);
      NextMonth(n - 1);
    }
  }

  /** The month a day falls in: walk from month `m` toward the day. */
  function MonthFrom(day: int, m: int): (r: int)
    ensures MonthStart(r) <= day < MonthStart(r + 1)
    decreases if day < MonthStart(m) then MonthStart(m) - day else if day >= MonthStart(m + 1) then day - MonthStart(m + 1) + 1 else 0
  {
    NextMonth(m - 1);
    NextMonth(m);
    NextMonth(m + 1);
    if day < MonthStart(m) then MonthFrom(day, m - 1)
    else if day >= MonthStart(m + 1) then MonthFrom(day, m + 1)
    else m
  }

  function MonthOfDay(day: int): (r: int)
    ensures MonthStart(r) <= day < MonthStart(r + 1)
  {
    MonthFrom(day, 0)
  }

  /** A day lies in one month only, so reading the calendar inverts laying it out. */
  lemma MonthOfDayUnique(day: int, m: int)
    requires MonthStart(m) <= day < MonthStart(m + 1)
    ensures MonthOfDay(day) == m
  {
    var r := MonthOfDay(day);
    if r < m {
      MonthsAscend(r + 1, m);
    } else if m < r {
      MonthsAscend(m + 1, r);
    }
  }

  /** A wall-clock reading: month number, day of the month from 1, time of day. */
  datatype Civil = Civil(month: int, day: int, clock: int) {
    predicate Valid() {
      1 <= day <= DaysIn(month) && 0 <= clock < DAY
    }

    function Year(): int { month / 12 }

    /** Go's time.Date: the day and the month may be out of range and carry over. */
    function ToLocal(): int {
      (MonthStart(month) + day - 1) * DAY + clock
    }
  }

  /** Go's Time.Date and Time.Clock for a local time. */
  function FromLocal(local: int): (c: Civil)
    ensures c.Valid()
    ensures c.ToLocal() == local
  {
    var day := local / DAY;
    var m := MonthOfDay(day);
    Civil(m, day - MonthStart(m) + 1, local % DAY)
  }

  /** The other way round: reading back a valid wall-clock time returns it. */
  lemma FromLocalInverse(c: Civil)
    requires c.Valid()
    ensures FromLocal(c.ToLocal()) == c
  {
    var day := MonthStart(c.month) + c.day - 1;
    assert c.ToLocal() / DAY == day && c.ToLocal() % DAY == c.clock;
    MonthOfDayUnique(day, c.month);
  }

  /** Go's Time.AddDate(years, months, 0) on local times: a day that the target
      month does not have carries into the following month. */
  function AddDate(local: int, years: int, months: int): int {
    var c := FromLocal(local);
    Civil(c.month + 12 * years + months, c.day, c.clock).ToLocal()
  }

  /** Adding months keeps the wall clock when the target month has the day. */
  lemma AddDateInRange(local: int, years: int, months: int)
    ensures var c := FromLocal(local);
            var m := c.month + 12 * years + months;
            c.day <= DaysIn(m) ==> FromLocal(AddDate(local, years, months)) == Civil(m, c.day, c.clock)
    ensures var c := FromLocal(local);
            var m := c.month + 12 * years + months;
            DaysIn(m) < c.day ==>
              FromLocal(AddDate(local, years, months)) == Civil(m + 1, c.day - DaysIn(m), c.clock)
  {
    var c := FromLocal(local);
    var m := c.month + 12 * years + months;
    if c.day <= DaysIn(m) {
      FromLocalInverse(Civil(m, c.day, c.clock));
    } else {
      var carried := Civil(m + 1, c.day - DaysIn(m), c.clock);
      assert carried.ToLocal() == AddDate(local, years, months);
      FromLocalInverse(carried);
    }
  }

  lemma AddNothing(local: int)
    ensures AddDate(local, 0, 0) == local
  {
  }

  /** Additions compose as long as the first one does not carry. */
  lemma AddDateTwice(local: int, y: int, m: int, y': int, m': int)
    requires FromLocal(local).day <= DaysIn(FromLocal(local).month + 12 * y + m)
    ensures AddDate(AddDate(local, y, m), y', m') == AddDate(local, y + y', m + m')
  {
    hide DaysIn, MonthStart, FromLocal;
    AddDateInRange(local, y, m);
  }
}
