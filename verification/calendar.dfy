/**
 * Calendar days as integer day numbers.  Day 0 is a Monday, so the weekday of day d is
 * d % 7 with Python's numbering (`date.weekday()`: 0 = Monday ... 6 = Sunday).  Only
 * Monday to Friday count as business days.
 */
module Calendar {

  function Weekday(d: int): (w: int)
    ensures 0 <= w < 7
  {
    d % 7
  }

  predicate IsBusinessDay(d: int) {
    Weekday(d) < 5
  }

  /** Number of business days in the half-open interval (a, b]. */
  function BusinessDaysBetween(a: int, b: int): nat
    decreases b - a
  {
    if b <= a then 0 else BusinessDaysBetween(a, b - 1) + (if IsBusinessDay(b) then 1 else 0)
  }

  /** The first business day strictly after d. */
  function NextBusinessDay(d: int): (r: int)
    ensures d < r <= d + 3 && IsBusinessDay(r)
    ensures forall x :: d < x < r ==> !IsBusinessDay(x)
  {
    if Weekday(d + 1) == 5 then d + 3 else if Weekday(d + 1) == 6 then d + 2 else d + 1
  }

  /** The day on which n business days after `start` have elapsed (`start` itself for n = 0). */
  function AddBusinessDays(start: int, n: nat): (e: int)
    ensures start <= e
    ensures n > 0 ==> start < e && IsBusinessDay(e)
  {
    if n == 0 then start else NextBusinessDay(AddBusinessDays(start, n - 1))
  }

  /** Python's `while days_added < duration` with the duration in tenths of a day. */
  function CeilTenths(t: int): (n: nat)
    ensures t <= 0 ==> n == 0
    ensures t > 0 ==> (n - 1) * 10 < t <= n * 10
  {
    if t <= 0 then 0 else (t + 9) / 10
  }

  lemma {:induction false} BusinessDaysSplit(a: int, b: int, c: int)
    requires a <= b <= c
    ensures BusinessDaysBetween(a, c) == BusinessDaysBetween(a, b) + BusinessDaysBetween(b, c)
    decreases c - b
  {
    if c > b {
      BusinessDaysSplit(a, b, c - 1);
    }
  }

  lemma {:induction false} NoBusinessDays(a: int, b: int)
    requires a <= b
    requires forall x :: a < x <= b ==> !IsBusinessDay(x)
    ensures BusinessDaysBetween(a, b) == 0
    decreases b - a
  {
    if b > a {
      NoBusinessDays(a, b - 1);
    }
  }

  lemma NextBusinessDayCounts(d: int)
    ensures BusinessDaysBetween(d, NextBusinessDay(d)) == 1
  {
    var r := NextBusinessDay(d);
    NoBusinessDays(d, r - 1);
  }

  /** Exactly n business days lie in (start, AddBusinessDays(start, n)]. */
  lemma {:induction false} AddBusinessDaysCount(start: int, n: nat)
    ensures BusinessDaysBetween(start, AddBusinessDays(start, n)) == n
  {
    if n > 0 {
      var e := AddBusinessDays(start, n - 1);
      AddBusinessDaysCount(start, n - 1);
      BusinessDaysSplit(start, e, NextBusinessDay(e));
      NextBusinessDayCounts(e);
    }
  }

  /** Before AddBusinessDays(start, n), fewer than n business days have elapsed: it is the first such day. */
  lemma {:induction false} AddBusinessDaysFirst(start: int, n: nat, d: int)
    requires start <= d < AddBusinessDays(start, n)
    ensures BusinessDaysBetween(start, d) < n
  {
    var e := AddBusinessDays(start, n - 1);
    if d < e {
      AddBusinessDaysFirst(start, n - 1, d);
    } else {
      AddBusinessDaysCount(start, n - 1);
      BusinessDaysSplit(start, e, d);
      NoBusinessDays(e, d);
    }
  }

  lemma {:induction false} AddBusinessDaysMonotone(start: int, m: nat, n: nat)
    requires m <= n
    ensures AddBusinessDays(start, m) <= AddBusinessDays(start, n)
    decreases n
  {
    if m < n {
      AddBusinessDaysMonotone(start, m, n - 1);
    }
  }

  /**
   * The end-date walk of both scheduling passes: step one calendar day at a time and
   * count the business days until the (tenths-of-a-day) duration is reached.
   */
  method WalkBusinessDays(start: int, tenths: int) returns (end: int)
    ensures end == AddBusinessDays(start, CeilTenths(tenths))
  {
    end := start;
    var added: nat := 0;
    while added * 10 < tenths
      invariant added <= CeilTenths(tenths)
      invariant AddBusinessDays(start, added) <= end < AddBusinessDays(start, added + 1)
      invariant end == AddBusinessDays(start, added) || added * 10 < tenths
      decreases CeilTenths(tenths) - added, AddBusinessDays(start, added + 1) - end
    {
      end := end + 1;
      if IsBusinessDay(end) {
        added := added + 1;
      }
    }
  }

  /** `while d.weekday() >= 5: d += 1`: the first business day on or after d. */
  method RollToBusinessDay(d: int) returns (r: int)
    ensures r == NextBusinessDay(d - 1)
  {
    r := d;
    while Weekday(r) >= 5
      invariant d <= r <= NextBusinessDay(d - 1)
      decreases NextBusinessDay(d - 1) - r
    {
      r := r + 1;
    }
  }

  /** A five-day task that starts on a Monday ends on the following Monday. */
  lemma FiveDaysFromMonday()
    ensures AddBusinessDays(0, CeilTenths(50)) == 7
  {
    assert CeilTenths(50) == 5;
    assert AddBusinessDays(0, 1) == 1;
    assert AddBusinessDays(0, 2) == 2;
    assert AddBusinessDays(0, 3) == 3;
    assert AddBusinessDays(0, 4) == 4;
  }

  /** A two-day task that starts on a Friday ends on the following Tuesday. */
  lemma TwoDaysFromFriday()
    ensures AddBusinessDays(4, CeilTenths(20)) == 8
  {
    assert CeilTenths(20) == 2;
    assert AddBusinessDays(4, 1) == 7;
  }

  /** The day after a Friday end, rolled to a business day, is the following Monday. */
  lemma AfterFridayIsMonday()
    ensures NextBusinessDay(4) == 7 && Weekday(7) == 0
  {
  }
}
