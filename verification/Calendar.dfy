/** The proleptic Gregorian calendar behind Go's `time.Date`, `AddDate`, `Year`, `Month`, `Day` and `Weekday`,
    over unbounded years and with a fixed clock offset (no daylight saving).

    Days are numbered from 1 January of year 0.  Months are numbered through: month `m` of year `y` has index
    `12 * y + m - 1`, so out-of-range month arguments normalise by themselves, as `time.Date` does. */
module Calendar {

  datatype Civil = Civil(year: int, month: int, day: int)

  const NANOS_PER_MILLI := 1_000_000
  const NANOS_PER_MINUTE := 60_000_000_000
  const NANOS_PER_DAY := 86_400_000_000_000

  predicate IsLeap(y: int) {
    y % 4 == 0 && (y % 100 != 0 || y % 400 == 0)
  }

  /** The length of month `m` (1 to 12) of year `y`, by the calendar's own table. */
  function MonthLength(y: int, m: int): int
    requires 1 <= m <= 12
  {
    if m == 2 then (if IsLeap(y) then 29 else 28)
    else if m == 4 || m == 6 || m == 9 || m == 11 then 30
    else 31
  }

  function IndexLength(k: int): int {
    MonthLength(k / 12, k % 12 + 1)
  }

  /** The first day of the month with index `k`: the lengths of all months since January of year 0 summed. */
  function MonthStart(k: int): int
    decreases if k < 0 then -k else k
  {
    if k == 0 then 0
    else if k > 0 then MonthStart(k - 1) + IndexLength(k - 1)
    else MonthStart(k + 1) - IndexLength(k)
  }

  /** `time.Date` without its time of day: month and day may be any integers. */
  function Date(year: int, month: int, day: int): int {
    MonthStart(12 * year + month - 1) + day - 1
  }

  /** Consecutive months meet: each starts where the one before ends. */
  lemma MonthStep(k: int)
    ensures MonthStart(k + 1) == MonthStart(k) + IndexLength(k)
    ensures 28 <= IndexLength(k) <= 31
  {
  }

  /** The first day of year `y` in closed form: 365 days a year and one more for every earlier leap year. */
  function YearStart(y: int): int {
    365 * y + (y + 3) / 4 - (y + 99) / 100 + (y + 399) / 400
  }

  lemma YearStep(y: int)
    ensures YearStart(y + 1) == YearStart(y) + (if IsLeap(y) then 366 else 365)
  {
    assert (y + 4) / 4 == (y + 3) / 4 + (if y % 4 == 0 then 1 else 0);
    assert (y + 100) / 100 == (y + 99) / 100 + (if y % 100 == 0 then 1 else 0);
    assert (y + 400) / 400 == (y + 399) / 400 + (if y % 400 == 0 then 1 else 0);
  }

  lemma MonthStepIn(y: int, m: int)
    requires 1 <= m <= 12
    ensures MonthStart(12 * y + m) == MonthStart(12 * y + m - 1) + MonthLength(y, m)
  {
    assert (12 * y + m - 1) / 12 == y && (12 * y + m - 1) % 12 == m - 1;
    MonthStep(12 * y + m - 1);
  }

  lemma HalfYear(y: int, from: int)
    requires from == 0 || from == 6
    ensures MonthStart(12 * y + from + 6)
         == MonthStart(12 * y + from) + (if from == 6 then 184 else if IsLeap(y) then 182 else 181)
  {
    MonthStepIn(y, from + 1);
    MonthStepIn(y, from + 2);
    MonthStepIn(y, from + 3);
    MonthStepIn(y, from + 4);
    MonthStepIn(y, from + 5);
    MonthStepIn(y, from + 6);
  }

  lemma YearOfMonths(y: int)
    ensures MonthStart(12 * (y + 1)) == MonthStart(12 * y) + (if IsLeap(y) then 366 else 365)
  {
    HalfYear(y, 0);
    HalfYear(y, 6);
  }

  /** The summed table and the closed leap-year formula agree on every year, before year 0 too. */
  lemma {:induction false} YearStartClosedForm(y: int)
    ensures MonthStart(12 * y) == YearStart(y)
    decreases if y < 0 then -y else y
  {
    if y > 0 {
      YearStartClosedForm(y - 1);
      YearOfMonths(y - 1);
      YearStep(y - 1);
    } else if y < 0 {
      YearStartClosedForm(y + 1);
      YearOfMonths(y);
      YearStep(y);
    }
  }

  lemma {:induction false} MonthsIncrease(j: int, k: int)
    requires j <= k
    ensures MonthStart(j) + 28 * (k - j) <= MonthStart(k) <= MonthStart(j) + 31 * (k - j)
    decreases k - j
  {
    if j < k {
      MonthStep(k - 1);
      MonthsIncrease(j, k - 1);
    }
  }

  /** The index of the month that day `n` lies in, found by climbing from a month known to start no later. */
  function MonthFrom(n: int, k: int): (r: int)
    requires MonthStart(k) <= n
    ensures MonthStart(r) <= n < MonthStart(r + 1)
    decreases n - MonthStart(k)
  {
    MonthStep(k);
    if n < MonthStart(k + 1) then k else MonthFrom(n, k + 1)
  }

  function EarlyMonth(n: int): int {
    if n >= 0 then n / 31 else n / 28
  }

  lemma EarlyMonthStarts(n: int)
    ensures MonthStart(EarlyMonth(n)) <= n
  {
    var k := EarlyMonth(n);
    if k >= 0 {
      MonthsIncrease(0, k);
    } else {
      MonthsIncrease(k, 0);
    }
  }

  function MonthOf(n: int): (r: int)
    ensures MonthStart(r) <= n < MonthStart(r + 1)
  {
    EarlyMonthStarts(n);
    MonthFrom(n, EarlyMonth(n))
  }

  /** `Year()`, `Month()` and `Day()` of day `n`. */
  function CivilOf(n: int): Civil {
    var k := MonthOf(n);
    Civil(k / 12, k % 12 + 1, n - MonthStart(k) + 1)
  }

  lemma MonthUnique(n: int, k: int)
    requires MonthStart(k) <= n < MonthStart(k + 1)
    ensures MonthOf(n) == k
  {
    var r := MonthOf(n);
    if r < k {
      MonthsIncrease(r + 1, k);
    } else if k < r {
      MonthsIncrease(k + 1, r);
    }
  }

  /** Reading a day's date and rebuilding the day gives it back, and the date is a real one. */
  lemma DateOfCivil(n: int)
    ensures var c := CivilOf(n);
            && 1 <= c.month <= 12
            && 1 <= c.day <= MonthLength(c.year, c.month)
            && Date(c.year, c.month, c.day) == n
  {
    MonthStep(MonthOf(n));
  }

  /** Building a real date and reading it back gives the date. */
  lemma CivilOfDate(c: Civil)
    requires 1 <= c.month <= 12 && 1 <= c.day <= MonthLength(c.year, c.month)
    ensures CivilOf(Date(c.year, c.month, c.day)) == c
  {
    var k := 12 * c.year + c.month - 1;
    assert k / 12 == c.year && k % 12 == c.month - 1;
    MonthStep(k);
    MonthUnique(Date(c.year, c.month, c.day), k);
  }

  /** `daysInMonth`: the day of the month just before the first of the next one. */
  function DaysInMonth(year: int, month: int): int {
    CivilOf(Date(year, month + 1, 0)).day
  }

  /** The "day zero of the next month" idiom computes the month's length, December included. */
  lemma DaysInMonthIsLength(year: int, month: int)
    requires 1 <= month <= 12
    ensures DaysInMonth(year, month) == MonthLength(year, month)
  {
    var k := 12 * year + month - 1;
    assert k / 12 == year && k % 12 == month - 1;
    MonthStep(k);
    MonthUnique(Date(year, month + 1, 0), k);
  }

  /** `Weekday()`, Sunday being 0: 1 January of year 0 was a Saturday. */
  function Weekday(n: int): int {
    (n + 6) % 7
  }

  /** `dateAt` on a day number: the instant of a wall-clock time, in nanoseconds. */
  function InstantAt(day: int, hour: int, minute: int): int {
    day * NANOS_PER_DAY + (hour * 60 + minute) * NANOS_PER_MINUTE
  }

  function DayOf(t: int): int {
    t / NANOS_PER_DAY
  }
}
