/** Wall-clock time in Belgrade, in whole seconds since 0001-01-01 00:00 (Python's first datetime). */
module Calendar {

  const DAY: nat := 86400

  type Time = nat

  function DayOf(t: Time): nat {
    t / DAY
  }

  /** `_day_start`: midnight of the day of `t`. */
  function DayStart(t: Time): (s: Time)
    ensures s <= t < s + DAY
    ensures s == DayOf(t) * DAY && DayOf(s) == DayOf(t)
  {
    t - t % DAY
  }

  lemma DayStartOrders(t: Time, u: Time)
    ensures DayStart(t) <= u <==> DayOf(t) <= DayOf(u)
  {
  }

  predicate IsLeap(year: nat) {
    year % 4 == 0 && (year % 100 != 0 || year % 400 == 0)
  }

  function DaysIn(year: nat, month: nat): (n: nat)
    requires 1 <= month <= 12
    ensures 28 <= n <= 31
  {
    if month == 2 then (if IsLeap(year) then 29 else 28)
    else if month == 4 || month == 6 || month == 9 || month == 11 then 30
    else 31
  }

  /** Day number of the first day of month `m`, where month 0 is January of year 1. */
  function FirstDay(m: nat): nat {
    if m == 0 then 0 else FirstDay(m - 1) + DaysIn((m - 1) / 12 + 1, (m - 1) % 12 + 1)
  }

  lemma NextMonth(m: nat)
    ensures FirstDay(m + 1) == FirstDay(m) + DaysIn(m / 12 + 1, m % 12 + 1)
  {
  }

  /** Days of a common year before each of its months. */
  const DAYS_BEFORE: seq<nat> := [0, 31, 59, 90, 120, 151, 181, 212, 243, 273, 304, 334]

  /** Days of the years before `year`. */
  function DaysBeforeYear(year: nat): int
    requires year >= 1
  {
    var y := year - 1;
    y * 365 + y / 4 - y / 100 + y / 400
  }

  lemma MonthIn(y: nat, k: nat)
    requires k < 12
    ensures (12 * y + k) / 12 == y && (12 * y + k) % 12 == k
  {
  }

  lemma {:induction false} MonthsOfYear(y: nat, k: nat)
    requires k < 12
    ensures FirstDay(12 * y + k) == FirstDay(12 * y) + DAYS_BEFORE[k] + if k >= 2 && IsLeap(y + 1) then 1 else 0
  {
    hide FirstDay;
    if k > 0 {
      MonthsOfYear(y, k - 1);
      NextMonth(12 * y + (k - 1));
      MonthIn(y, k - 1);
      MonthLength(y + 1, k);
    }
  }

  lemma MonthLength(year: nat, k: nat)
    requires 1 <= k < 12
    ensures DaysIn(year, k) == DAYS_BEFORE[k] - DAYS_BEFORE[k - 1] + if k == 2 && IsLeap(year) then 1 else 0
  {
    hide IsLeap;
  }

  lemma Quarters(n: nat)
    ensures (n + 1) / 4 == n / 4 + if (n + 1) % 4 == 0 then 1 else 0
  {
  }

  lemma Centuries(n: nat)
    ensures (n + 1) / 100 == n / 100 + if (n + 1) % 100 == 0 then 1 else 0
    ensures (n + 1) % 100 == 0 ==> (n + 1) % 4 == 0
  {
  }

  lemma Cycles(n: nat)
    ensures (n + 1) / 400 == n / 400 + if (n + 1) % 400 == 0 then 1 else 0
    ensures (n + 1) % 400 == 0 ==> (n + 1) % 100 == 0
  {
  }

  lemma OneYearMore(year: nat)
    requires year >= 1
    ensures DaysBeforeYear(year + 1) == DaysBeforeYear(year) + 365 + if IsLeap(year) then 1 else 0
  {
    var n := year - 1;
    Quarters(n);
    Centuries(n);
    Cycles(n);
    var q, c, k, q', c', k' := n / 4, n / 100, n / 400, (n + 1) / 4, (n + 1) / 100, (n + 1) / 400;
    assert DaysBeforeYear(year + 1) == n * 365 + 365 + q' - c' + k';
    assert DaysBeforeYear(year) == n * 365 + q - c + k;
    hide DaysBeforeYear;
  }

  lemma NoDays()
    ensures FirstDay(0) == 0
  {
  }

  lemma {:induction false} YearsBefore(year: nat)
    requires year >= 1
    ensures FirstDay(12 * (year - 1)) == DaysBeforeYear(year)
  {
    hide FirstDay, IsLeap;
    if year > 1 {
      var y := year - 2;
      YearsBefore(year - 1);
      MonthsOfYear(y, 11);
      NextMonth(12 * y + 11);
      MonthIn(y, 11);
      OneYearMore(year - 1);
      assert 12 * (year - 1) == 12 * y + 11 + 1;
      hide DaysBeforeYear;
    } else {
      NoDays();
    }
  }

  /** The calendar is the Gregorian one: a month begins where the ordinal of its first day says. */
  lemma FirstDayIsGregorian(year: nat, month: nat)
    requires year >= 1 && 1 <= month <= 12
    ensures FirstDay(12 * (year - 1) + month - 1)
         == (year - 1) * 365 + (year - 1) / 4 - (year - 1) / 100 + (year - 1) / 400
            + [0, 31, 59, 90, 120, 151, 181, 212, 243, 273, 304, 334][month - 1]
            + if month > 2 && year % 4 == 0 && (year % 100 != 0 || year % 400 == 0) then 1 else 0
  {
    hide FirstDay;
    YearsBefore(year);
    MonthsOfYear(year - 1, month - 1);
    assert 12 * (year - 1) + month - 1 == 12 * (year - 1) + (month - 1);
  }

  function MonthFrom(day: nat, m: nat): (r: nat)
    requires FirstDay(m) <= day
    ensures FirstDay(r) <= day < FirstDay(r + 1)
    decreases day - FirstDay(m)
  {
    if day < FirstDay(m + 1) then m else MonthFrom(day, m + 1)
  }

  /** The month a day lies in. */
  function MonthOf(day: nat): (m: nat)
    ensures FirstDay(m) <= day < FirstDay(m + 1)
  {
    MonthFrom(day, 0)
  }

  /** `_month_start`: the day start with its day of the month set to 1. */
  function MonthStart(t: Time): Time {
    FirstDay(MonthOf(DayOf(t))) * DAY
  }

  lemma {:induction false} FirstDayIncreases(a: nat, b: nat)
    requires a <= b
    ensures FirstDay(a) + 28 * (b - a) <= FirstDay(b)
    decreases b
  {
    if a < b {
      FirstDayIncreases(a, b - 1);
    }
  }

  lemma MonthIsUnique(day: nat, m: nat)
    requires FirstDay(m) <= day < FirstDay(m + 1)
    ensures MonthOf(day) == m
  {
    var k := MonthOf(day);
    if k < m {
      FirstDayIncreases(k + 1, m);
    } else if m < k {
      FirstDayIncreases(m + 1, k);
    }
  }

  /** "At or after the start of the month of `t`" means "not in an earlier month". */
  lemma MonthStartOrders(t: Time, u: Time)
    ensures MonthStart(t) <= u <==> MonthOf(DayOf(t)) <= MonthOf(DayOf(u))
  {
    var m, k := MonthOf(DayOf(t)), MonthOf(DayOf(u));
    if m <= k {
      FirstDayIncreases(m, k);
    } else {
      FirstDayIncreases(k + 1, m);
    }
  }
}
