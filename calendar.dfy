/** Proleptic-Gregorian calendar on day ordinals.
    A day is numbered as Python's `date.toordinal()` numbers it (0001-01-01 is
    day 1), so that `datetime + timedelta(days=k)` is plain addition of k.
    Month, year and "first of the month" are read off `FromOrdinal`, which is
    proved to invert `ToOrdinal`. */
module Calendar {

  /** A calendar day, as its ordinal. Python's datetime cannot go below 0001-01-01. */
  type Day = n: int | 1 <= n witness 1

  datatype Date = Date(year: int, month: int, day: int)

  predicate IsLeapYear(y: int) {
    y % 4 == 0 && (y % 100 != 0 || y % 400 == 0)
  }

  function DaysInYear(y: int): int {
    if IsLeapYear(y) then 366 else 365
  }

  function DaysInMonth(y: int, m: int): int
    requires 1 <= m <= 12
  {
    if m == 2 then (if IsLeapYear(y) then 29 else 28)
    else if m == 4 || m == 6 || m == 9 || m == 11 then 30
    else 31
  }

  /** Days of year y that lie before month m; m == 13 stands for the whole year. */
  function DaysBeforeMonth(y: int, m: int): (r: nat)
    requires 1 <= m <= 13
  {
    if m == 1 then 0 else DaysBeforeMonth(y, m - 1) + DaysInMonth(y, m - 1)
  }

  /** Days of all the years before year y, counted from year 1. */
  function DaysBeforeYear(y: int): (r: nat)
    requires 1 <= y
  {
    if y == 1 then 0 else DaysBeforeYear(y - 1) + DaysInYear(y - 1)
  }

  /** The closed form Python's datetime module uses for DaysBeforeYear. */
  lemma {:induction false} DaysBeforeYearClosedForm(y: int)
    requires 1 <= y
    ensures DaysBeforeYear(y) == (y - 1) * 365 + (y - 1) / 4 - (y - 1) / 100 + (y - 1) / 400
  {
    if y > 1 {
      var q := y - 1;
      DaysBeforeYearClosedForm(q);
      DivStep(q, 4);
      DivStep(q, 100);
      DivStep(q, 400);
      LeapIndicator(q);
    }
  }

  lemma LeapIndicator(q: int)
    ensures DaysInYear(q) - 365
      == (if q % 4 == 0 then 1 else 0) - (if q % 100 == 0 then 1 else 0) + (if q % 400 == 0 then 1 else 0)
  {
    if q % 400 == 0 {
      var k := q / 400;
      assert q == 100 * (4 * k);
      assert q == 4 * (100 * k);
    } else if q % 100 == 0 {
      var k := q / 100;
      assert q == 4 * (25 * k);
    }
  }

  lemma DivStep(q: int, k: int)
    requires 1 <= q && (k == 4 || k == 100 || k == 400)
    ensures q / k == (q - 1) / k + (if q % k == 0 then 1 else 0)
  {
    if k == 4 {
      assert q / 4 == (q - 1) / 4 + (if q % 4 == 0 then 1 else 0);
    } else if k == 100 {
      assert q / 100 == (q - 1) / 100 + (if q % 100 == 0 then 1 else 0);
    } else {
      assert q / 400 == (q - 1) / 400 + (if q % 400 == 0 then 1 else 0);
    }
  }

  predicate IsValid(d: Date) {
    1 <= d.year && 1 <= d.month <= 12 && 1 <= d.day <= DaysInMonth(d.year, d.month)
  }

  function ToOrdinal(d: Date): Day
    requires IsValid(d)
  {
    DaysBeforeYear(d.year) + DaysBeforeMonth(d.year, d.month) + d.day
  }

  /** Lexicographic order of (year, month, day): `a` comes strictly before `b`. */
  predicate Precedes(a: Date, b: Date) {
    a.year < b.year
    || (a.year == b.year && (a.month < b.month || (a.month == b.month && a.day < b.day)))
  }

  lemma MonthStep(y: int, m: int)
    requires 1 <= m <= 12
    ensures DaysBeforeMonth(y, m + 1) == DaysBeforeMonth(y, m) + DaysInMonth(y, m)
    ensures DaysBeforeMonth(y, 13) == DaysInYear(y)
  {
    var feb := DaysInMonth(y, 2);
    assert DaysBeforeMonth(y, 2) == 31;
    assert DaysBeforeMonth(y, 3) == 31 + feb;
    assert DaysBeforeMonth(y, 4) == 62 + feb;
    assert DaysBeforeMonth(y, 5) == 92 + feb;
    assert DaysBeforeMonth(y, 6) == 123 + feb;
    assert DaysBeforeMonth(y, 7) == 153 + feb;
    assert DaysBeforeMonth(y, 8) == 184 + feb;
    assert DaysBeforeMonth(y, 9) == 215 + feb;
    assert DaysBeforeMonth(y, 10) == 245 + feb;
    assert DaysBeforeMonth(y, 11) == 276 + feb;
    assert DaysBeforeMonth(y, 12) == 306 + feb;
  }

  lemma {:induction false} MonthsBeforeMonotone(y: int, m: int, n: int)
    requires 1 <= m <= n <= 13
    ensures DaysBeforeMonth(y, m) <= DaysBeforeMonth(y, n)
    decreases n - m
  {
    if m < n {
      MonthsBeforeMonotone(y, m, n - 1);
    }
  }

  /** Every year before year z ends no later than year z begins. */
  lemma {:induction false} YearsBeforeMonotone(y: int, z: int)
    requires 1 <= y < z
    ensures DaysBeforeYear(y) + DaysInYear(y) <= DaysBeforeYear(z)
    decreases z - y
  {
    if y + 1 < z {
      YearsBeforeMonotone(y + 1, z);
    }
  }

  /** Ordinals grow strictly with the calendar order. */
  lemma ToOrdinalMonotone(a: Date, b: Date)
    requires IsValid(a) && IsValid(b) && Precedes(a, b)
    ensures ToOrdinal(a) < ToOrdinal(b)
  {
    MonthStep(a.year, a.month);
    if a.year < b.year {
      MonthsBeforeMonotone(a.year, a.month + 1, 13);
      YearsBeforeMonotone(a.year, b.year);
    } else if a.month < b.month {
      MonthsBeforeMonotone(a.year, a.month + 1, b.month);
    }
  }

  /** Two valid dates with the same ordinal are the same date. */
  lemma ToOrdinalInjective(a: Date, b: Date)
    requires IsValid(a) && IsValid(b) && ToOrdinal(a) == ToOrdinal(b)
    ensures a == b
  {
    if Precedes(a, b) {
      ToOrdinalMonotone(a, b);
    } else if Precedes(b, a) {
      ToOrdinalMonotone(b, a);
    }
  }

  /** The month of year y holding its k-th day, found by walking forward from month m. */
  function MonthFrom(y: int, m: int, k: int): (r: int)
    requires 1 <= m <= 12 && DaysBeforeMonth(y, m) < k <= DaysInYear(y)
    ensures m <= r <= 12
    ensures DaysBeforeMonth(y, r) < k <= DaysBeforeMonth(y, r) + DaysInMonth(y, r)
    decreases 12 - m
  {
    MonthStep(y, m);
    if k <= DaysBeforeMonth(y, m + 1) then m else MonthFrom(y, m + 1, k)
  }

  /** The date of day n; it is the one valid date whose ordinal is n. */
  function FromOrdinal(n: Day): (d: Date)
    ensures IsValid(d) && ToOrdinal(d) == n
  {
    DateFrom(1, n)
  }

  /** The date of day n, found by walking forward year by year from year y. */
  function DateFrom(y: int, n: int): (d: Date)
    requires 1 <= y && DaysBeforeYear(y) < n
    ensures IsValid(d) && ToOrdinal(d) == n
    decreases n - DaysBeforeYear(y)
  {
    if n <= DaysBeforeYear(y + 1) then
      var m := MonthFrom(y, 1, n - DaysBeforeYear(y));
      Date(y, m, n - DaysBeforeYear(y) - DaysBeforeMonth(y, m))
    else DateFrom(y + 1, n)
  }

  lemma FromToOrdinal(d: Date)
    requires IsValid(d)
    ensures FromOrdinal(ToOrdinal(d)) == d
  {
    ToOrdinalInjective(FromOrdinal(ToOrdinal(d)), d);
  }

  function YearOf(n: Day): int { FromOrdinal(n).year }

  function MonthOf(n: Day): int { FromOrdinal(n).month }

  predicate IsFirstOfMonth(n: Day) { FromOrdinal(n).day == 1 }

  /** Months counted from January of year 0, so that consecutive months differ by one. */
  function MonthIndex(n: Day): int { YearOf(n) * 12 + MonthOf(n) - 1 }

  /** The first day of the month after the month holding day n. */
  function NextMonthStart(n: Day): (r: Day)
    ensures n < r
  {
    var d := FromOrdinal(n);
    ToOrdinalMonotone(d, FirstOfNextMonth(d));
    ToOrdinal(FirstOfNextMonth(d))
  }

  /** The first day of a month on or after day n. */
  function FirstMonthStartFrom(n: Day): Day {
    if IsFirstOfMonth(n) then n else NextMonthStart(n)
  }

  /** The first day of the month after the month of d. */
  function FirstOfNextMonth(d: Date): Date {
    if d.month == 12 then Date(d.year + 1, 1, 1) else Date(d.year, d.month + 1, 1)
  }

  /** A date from d up to (not including) the first of the next month lies in d's month,
      and is a first of the month only if it is d itself. */
  lemma SameMonthBetween(d: Date, e: Date)
    requires IsValid(d) && IsValid(e)
    requires ToOrdinal(d) <= ToOrdinal(e) < ToOrdinal(FirstOfNextMonth(d))
    ensures e.year == d.year && e.month == d.month
    ensures e.day == 1 ==> e == d
  {
    var next := FirstOfNextMonth(d);
    if Precedes(e, d) {
      ToOrdinalMonotone(e, d);
    }
    if !Precedes(e, next) && e != next {
      ToOrdinalMonotone(next, e);
    }
    if e.day == 1 && e != d {
      ToOrdinalMonotone(d, e);
    }
  }

  /** The days from n up to the next month's start are exactly n's month. */
  lemma WithinMonth(n: Day, k: Day)
    requires n <= k < NextMonthStart(n)
    ensures YearOf(k) == YearOf(n) && MonthOf(k) == MonthOf(n)
    ensures IsFirstOfMonth(k) ==> k == n
  {
    SameMonthBetween(FromOrdinal(n), FromOrdinal(k));
  }

  /** NextMonthStart lands on a first of the month, in the next month, and skips no first. */
  lemma NextMonthStartSpec(n: Day)
    ensures IsFirstOfMonth(NextMonthStart(n))
    ensures MonthIndex(NextMonthStart(n)) == MonthIndex(n) + 1
    ensures forall k: Day :: n < k < NextMonthStart(n) ==> !IsFirstOfMonth(k)
  {
    FromToOrdinal(FirstOfNextMonth(FromOrdinal(n)));
    forall k: Day | n < k < NextMonthStart(n)
      ensures !IsFirstOfMonth(k)
    {
      WithinMonth(n, k);
    }
  }

  /** The first days of the months that lie in [lo, hi], in increasing order
      (pandas' `date_range(lo, hi, freq='MS')` on midnight timestamps). */
  function MonthStarts(lo: Day, hi: Day): seq<Day> {
    MonthStartsFrom(FirstMonthStartFrom(lo), hi)
  }

  function MonthStartsFrom(d: Day, hi: Day): seq<Day>
    decreases hi - d
  {
    if d > hi then [] else [d] + MonthStartsFrom(NextMonthStart(d), hi)
  }

  lemma {:induction false} MonthStartsFromRange(d: Day, hi: Day)
    ensures forall i :: 0 <= i < |MonthStartsFrom(d, hi)| ==> d <= MonthStartsFrom(d, hi)[i] <= hi
    decreases hi - d
  {
    if d <= hi {
      var next := NextMonthStart(d);
      MonthStartsFromRange(next, hi);
      var s, t := MonthStartsFrom(d, hi), MonthStartsFrom(next, hi);
      assert s == [d] + t;
      forall i | 0 <= i < |s|
        ensures d <= s[i] <= hi
      {
        if i > 0 {
          assert s[i] == t[i - 1];
        }
      }
    }
  }

  lemma {:induction false} MonthStartsFromFirsts(d: Day, hi: Day)
    requires IsFirstOfMonth(d)
    ensures forall i :: 0 <= i < |MonthStartsFrom(d, hi)| ==> IsFirstOfMonth(MonthStartsFrom(d, hi)[i])
    decreases hi - d
  {
    if d <= hi {
      var next := NextMonthStart(d);
      NextMonthStartSpec(d);
      MonthStartsFromFirsts(next, hi);
      var s, t := MonthStartsFrom(d, hi), MonthStartsFrom(next, hi);
      assert s == [d] + t;
      forall i | 0 <= i < |s|
        ensures IsFirstOfMonth(s[i])
      {
        if i > 0 {
          assert s[i] == t[i - 1];
        }
      }
    }
  }

  lemma {:induction false} MonthStartsFromIncreasing(d: Day, hi: Day)
    ensures forall i, j :: 0 <= i < j < |MonthStartsFrom(d, hi)| ==>
      MonthStartsFrom(d, hi)[i] < MonthStartsFrom(d, hi)[j]
    decreases hi - d
  {
    if d <= hi {
      var next := NextMonthStart(d);
      MonthStartsFromIncreasing(next, hi);
      MonthStartsFromRange(next, hi);
      var t := MonthStartsFrom(next, hi);
      assert MonthStartsFrom(d, hi) == [d] + t;
      PrependIncreasing(d, t);
    }
  }

  /** Putting a day before a strictly increasing list of later days keeps it increasing. */
  lemma PrependIncreasing(d: int, t: seq<int>)
    requires forall i, j :: 0 <= i < j < |t| ==> t[i] < t[j]
    requires forall i :: 0 <= i < |t| ==> d < t[i]
    ensures forall i, j :: 0 <= i < j < |[d] + t| ==> ([d] + t)[i] < ([d] + t)[j]
  {
    var s := [d] + t;
    forall i, j | 0 <= i < j < |s|
      ensures s[i] < s[j]
    {
      assert s[j] == t[j - 1];
      if i > 0 {
        assert s[i] == t[i - 1];
      }
    }
  }

  lemma {:induction false} MonthStartsFromComplete(d: Day, hi: Day)
    requires IsFirstOfMonth(d)
    ensures forall k: Day :: d <= k <= hi && IsFirstOfMonth(k) ==> k in MonthStartsFrom(d, hi)
    decreases hi - d
  {
    if d <= hi {
      var next := NextMonthStart(d);
      NextMonthStartSpec(d);
      MonthStartsFromComplete(next, hi);
      var s := MonthStartsFrom(d, hi);
      assert s == [d] + MonthStartsFrom(next, hi);
      forall k: Day | d <= k <= hi && IsFirstOfMonth(k)
        ensures k in s
      {
        if k != d {
          assert next <= k;
          assert k in MonthStartsFrom(next, hi);
        }
      }
    }
  }

  /** MonthStarts(lo, hi) is exactly the list of first-of-month days in [lo, hi], increasing. */
  lemma MonthStartsExact(lo: Day, hi: Day)
    ensures forall i :: 0 <= i < |MonthStarts(lo, hi)| ==>
      lo <= MonthStarts(lo, hi)[i] <= hi && IsFirstOfMonth(MonthStarts(lo, hi)[i])
    ensures forall i, j :: 0 <= i < j < |MonthStarts(lo, hi)| ==>
      MonthStarts(lo, hi)[i] < MonthStarts(lo, hi)[j]
    ensures forall k: Day :: lo <= k <= hi && IsFirstOfMonth(k) <==> k in MonthStarts(lo, hi)
  {
    var f := FirstMonthStartFrom(lo);
    var s := MonthStarts(lo, hi);
    assert s == MonthStartsFrom(f, hi);
    if !IsFirstOfMonth(lo) {
      NextMonthStartSpec(lo);
    }
    MonthStartsFromRange(f, hi);
    MonthStartsFromFirsts(f, hi);
    MonthStartsFromIncreasing(f, hi);
    MonthStartsFromComplete(f, hi);
    forall k: Day | lo <= k <= hi && IsFirstOfMonth(k)
      ensures k in s
    {
      assert f <= k;
    }
  }

  lemma {:induction false} MonthStartsFromCount(d: Day, hi: Day)
    requires IsFirstOfMonth(d)
    ensures |MonthStartsFrom(d, hi)| == if hi < d then 0 else MonthIndex(hi) - MonthIndex(d) + 1
    decreases hi - d
  {
    if d <= hi {
      var next := NextMonthStart(d);
      NextMonthStartSpec(d);
      MonthStartsFromCount(next, hi);
      if hi < next {
        WithinMonth(d, hi);
      }
    }
  }

  /** The number of month starts in [lo, hi]: the months after lo's month up to hi's month,
      and lo's own month only when lo is its first day. */
  lemma MonthStartsCount(lo: Day, hi: Day)
    requires lo <= hi
    ensures |MonthStarts(lo, hi)| == MonthIndex(hi) - MonthIndex(lo) + (if IsFirstOfMonth(lo) then 1 else 0)
  {
    var f := FirstMonthStartFrom(lo);
    if !IsFirstOfMonth(lo) {
      NextMonthStartSpec(lo);
      MonthStartsFromCount(f, hi);
      if hi < f {
        WithinMonth(lo, hi);
      }
    } else {
      MonthStartsFromCount(f, hi);
    }
  }
}
