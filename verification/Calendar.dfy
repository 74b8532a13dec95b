/** Billing cycles on the civil calendar of Argentina (internal/service/branch_proration.go and
    TrialEnd of internal/repository/subscription.go). A date stands for its local midnight; the
    time zone database is not part of this model. */
module Calendar {
  import opened Common

  // ---------------------------------------------------------------------------
  // Civil dates
  // ---------------------------------------------------------------------------

  datatype Date = Date(year: int, month: int, day: int)

  predicate Leap(year: int) {
    year % 4 == 0 && (year % 100 != 0 || year % 400 == 0)
  }

  function DaysIn(year: int, month: int): (n: int)
    ensures 28 <= n <= 31
  {
    if month == 2 then (if Leap(year) then 29 else 28)
    else if month == 4 || month == 6 || month == 9 || month == 11 then 30
    else 31
  }

  predicate Valid(d: Date) {
    1 <= d.month <= 12 && 1 <= d.day <= DaysIn(d.year, d.month)
  }

  predicate Before(a: Date, b: Date) {
    a.year < b.year || (a.year == b.year && (a.month < b.month || (a.month == b.month && a.day < b.day)))
  }

  /** One day later: AddDate(0, 0, 1). */
  function NextDay(d: Date): (r: Date)
    requires Valid(d)
    ensures Valid(r)
  {
    if d.day < DaysIn(d.year, d.month) then d.(day := d.day + 1)
    else if d.month < 12 then Date(d.year, d.month + 1, 1)
    else Date(d.year + 1, 1, 1)
  }

  function DaysBeforeYear(year: int): int {
    365 * year + (year - 1) / 4 - (year - 1) / 100 + (year - 1) / 400
  }

  function DaysBeforeMonth(year: int, month: int): int
    requires 1 <= month <= 12
  {
    [0, 31, 59, 90, 120, 151, 181, 212, 243, 273, 304, 334][month - 1] + (if month > 2 && Leap(year) then 1 else 0)
  }

  /** Days on a single line, in closed form. */
  function DayNumber(d: Date): int
    requires Valid(d)
  {
    DaysBeforeYear(d.year) + DaysBeforeMonth(d.year, d.month) + d.day
  }

  lemma YearLength(year: int)
    ensures DaysBeforeYear(year + 1) == DaysBeforeYear(year) + (if Leap(year) then 366 else 365)
  {
    FloorStep(year, 4);
    FloorStep(year, 100);
    FloorStep(year, 400);
    Centuries(year);
    YearStep(year);
  }

  lemma YearStep(year: int)
    ensures DaysBeforeYear(year + 1) - DaysBeforeYear(year)
            == 365 + (year / 4 - (year - 1) / 4) - (year / 100 - (year - 1) / 100) + (year / 400 - (year - 1) / 400)
  {
    assert year + 1 - 1 == year;
  }

  lemma FloorStep(n: int, k: int)
    requires k == 4 || k == 100 || k == 400
    ensures n / k == (n - 1) / k + (if n % k == 0 then 1 else 0)
  {
  }

  lemma Centuries(year: int)
    ensures year % 400 == 0 ==> year % 100 == 0
    ensures year % 100 == 0 ==> year % 4 == 0
  {
    Multiples(year / 400);
    Multiples(year / 100);
  }

  lemma Multiples(k: int)
    ensures 400 * k % 100 == 0 && 100 * k % 4 == 0
  {
  }

  lemma MonthLength(year: int, month: int)
    requires 1 <= month <= 12
    ensures month < 12 ==> DaysBeforeMonth(year, month + 1) == DaysBeforeMonth(year, month) + DaysIn(year, month)
    ensures month == 12 ==> DaysBeforeMonth(year, 12) + DaysIn(year, 12) == (if Leap(year) then 366 else 365)
  {
  }

  /** The closed form counts days one by one. */
  lemma NextDayNumber(d: Date)
    requires Valid(d)
    ensures DayNumber(NextDay(d)) == DayNumber(d) + 1
  {
    hide DaysBeforeYear, DaysBeforeMonth, DaysIn, Leap;
    MonthLength(d.year, d.month);
    YearLength(d.year);
    JanuaryFirst(d.year + 1);
  }

  lemma JanuaryFirst(year: int)
    ensures DaysBeforeMonth(year, 1) == 0
  {
  }

  // ---------------------------------------------------------------------------
  // Months
  // ---------------------------------------------------------------------------

  function MonthIndex(d: Date): int {
    12 * d.year + d.month - 1
  }

  /** time.Date carries a month outside 1..12 over into the year. */
  function MonthAt(index: int): (d: Date)
    ensures 1 <= d.month <= 12 && d.day == 1 && MonthIndex(d) == index
  {
    Date(index / 12, index % 12 + 1, 1)
  }

  /** The anchor day in the month n months away, or that month's last day when it is shorter. */
  function AnchoredMonth(t: Date, n: int, anchor: int): Date {
    var first := MonthAt(MonthIndex(t) + n);
    var last := DaysIn(first.year, first.month);
    Date(first.year, first.month, if anchor > last then last else anchor)
  }

  function ShiftMonth(t: Date, n: int): Date {
    AnchoredMonth(t, n, t.day)
  }

  lemma SameMonth(a: Date, b: Date)
    requires 1 <= a.month <= 12 && 1 <= b.month <= 12 && MonthIndex(a) == MonthIndex(b)
    ensures a.year == b.year && a.month == b.month
  {
  }

  /** Shifting by n and then by m is shifting by n + m: cycles do not drift after short months. */
  lemma AnchoredMonthActs(t: Date, n: int, m: int, anchor: int)
    ensures AnchoredMonth(AnchoredMonth(t, n, anchor), m, anchor) == AnchoredMonth(t, n + m, anchor)
    ensures Valid(t) && t.day == anchor ==> AnchoredMonth(t, 0, anchor) == t
  {
    if 1 <= t.month <= 12 { SameMonth(MonthAt(MonthIndex(t)), t); }
  }

  /** Without a fixed anchor it is so exactly when the day survives the month in between. */
  lemma ShiftMonthDrifts(t: Date, n: int, m: int)
    requires Valid(t)
    ensures var between, target := MonthAt(MonthIndex(t) + n), MonthAt(MonthIndex(t) + n + m);
            ShiftMonth(ShiftMonth(t, n), m) == ShiftMonth(t, n + m)
            <==> t.day <= DaysIn(between.year, between.month)
                 || DaysIn(target.year, target.month) <= DaysIn(between.year, between.month)
  {
  }

  lemma AnchoredIsValid(t: Date, n: int, anchor: int)
    requires anchor >= 1
    ensures Valid(AnchoredMonth(t, n, anchor)) && MonthIndex(AnchoredMonth(t, n, anchor)) == MonthIndex(t) + n
  {
  }

  lemma NextMonthFirst(index: int)
    ensures var a, b := MonthAt(index), MonthAt(index + 1);
            DayNumber(b) == DayNumber(a) + DaysIn(a.year, a.month)
  {
    hide DaysBeforeYear, DaysBeforeMonth, DaysIn, Leap;
    var a, b := MonthAt(index), MonthAt(index + 1);
    MonthLength(a.year, a.month);
    YearLength(a.year);
    JanuaryFirst(a.year + 1);
    if a.month < 12 { SameMonth(b, Date(a.year, a.month + 1, 1)); } else { SameMonth(b, Date(a.year + 1, 1, 1)); }
  }

  lemma DayOfMonth(d: Date)
    requires Valid(d)
    ensures DayNumber(d) == DayNumber(MonthAt(MonthIndex(d))) + d.day - 1
  {
    SameMonth(d, MonthAt(MonthIndex(d)));
  }

  /** Every cycle has between 28 and 31 days. */
  lemma CycleLength(t: Date, n: int, anchor: int)
    requires 1 <= anchor
    ensures Valid(AnchoredMonth(t, n, anchor)) && Valid(AnchoredMonth(t, n + 1, anchor))
    ensures 28 <= DayNumber(AnchoredMonth(t, n + 1, anchor)) - DayNumber(AnchoredMonth(t, n, anchor)) <= 31
  {
    hide DayNumber, DaysIn, MonthIndex, MonthAt;
    AnchoredIsValid(t, n, anchor);
    AnchoredIsValid(t, n + 1, anchor);
    DayOfMonth(AnchoredMonth(t, n, anchor));
    DayOfMonth(AnchoredMonth(t, n + 1, anchor));
    NextMonthFirst(MonthIndex(t) + n);
  }

  /** Dates are ordered as their day numbers are. */
  lemma NumbersKeepOrder(a: Date, b: Date)
    requires Valid(a) && Valid(b)
    ensures Before(a, b) <==> DayNumber(a) < DayNumber(b)
    ensures a == b <==> DayNumber(a) == DayNumber(b)
  {
    if Before(a, b) { BeforeIsSmaller(a, b); }
    if Before(b, a) { BeforeIsSmaller(b, a); }
  }

  lemma BeforeIsSmaller(a: Date, b: Date)
    requires Valid(a) && Valid(b) && Before(a, b)
    ensures DayNumber(a) < DayNumber(b)
  {
    hide DayNumber, DaysIn;
    DayOfMonth(a);
    DayOfMonth(b);
    if MonthIndex(a) == MonthIndex(b) { SameMonth(a, b); } else { MonthsAhead(MonthIndex(a), MonthIndex(b)); SameMonth(a,
        MonthAt(MonthIndex(a))); }
  }

  lemma {:induction false} MonthsAhead(m: int, n: int)
    requires m < n
    ensures DayNumber(MonthAt(n)) >= DayNumber(MonthAt(m)) + DaysIn(MonthAt(m).year, MonthAt(m).month)
    decreases n - m
  {
    hide DayNumber, DaysIn, MonthAt;
    NextMonthFirst(n - 1);
    if m < n - 1 { MonthsAhead(m, n - 1); }
  }

  /** Cycles with the same anchor follow each other. */
  lemma {:induction false} CyclesFollow(t: Date, m: int, n: int, anchor: int)
    requires anchor >= 1 && m < n
    ensures Valid(AnchoredMonth(t, m, anchor)) && Valid(AnchoredMonth(t, n, anchor))
    ensures DayNumber(AnchoredMonth(t, m, anchor)) + 28 <= DayNumber(AnchoredMonth(t, n, anchor))
    decreases n - m
  {
    hide AnchoredMonth, DayNumber;
    CycleLength(t, n - 1, anchor);
    if m < n - 1 { CyclesFollow(t, m, n - 1, anchor); }
  }

  /** Every day lies in exactly one cycle of an anchor. */
  lemma CyclesPartitionTime(t: Date, anchor: int, n: int)
    requires Valid(t) && 1 <= anchor
    ensures var home := if t.day < AnchoredMonth(t, 0, anchor).day then -1 else 0;
            && Valid(AnchoredMonth(t, n, anchor)) && Valid(AnchoredMonth(t, n + 1, anchor))
            && (DayNumber(AnchoredMonth(t, n, anchor)) <= DayNumber(t) < DayNumber(AnchoredMonth(t, n + 1, anchor)) <==> n == home)
  {
    hide AnchoredMonth, DayNumber;
    CycleLength(t, n, anchor);
    AroundToday(t, anchor);
    var home := if t.day < AnchoredMonth(t, 0, anchor).day then -1 else 0;
    if n < home {
      if n + 1 < home { CyclesFollow(t, n + 1, home, anchor); }
    } else if n > home {
      if home + 1 < n { CyclesFollow(t, home + 1, n, anchor); }
    }
  }

  lemma AroundToday(t: Date, anchor: int)
    requires Valid(t) && 1 <= anchor
    ensures Valid(AnchoredMonth(t, -1, anchor)) && Valid(AnchoredMonth(t, 0, anchor)) && Valid(AnchoredMonth(t, 1, anchor))
    ensures DayNumber(AnchoredMonth(t, -1, anchor)) < DayNumber(t) < DayNumber(AnchoredMonth(t, 1, anchor))
    ensures DayNumber(AnchoredMonth(t, 0, anchor)) <= DayNumber(t) <==> t.day >= AnchoredMonth(t, 0, anchor).day
  {
    hide DayNumber, DaysIn, MonthAt;
    AnchoredIsValid(t, -1, anchor);
    AnchoredIsValid(t, 0, anchor);
    AnchoredIsValid(t, 1, anchor);
    DayOfMonth(t);
    DayOfMonth(AnchoredMonth(t, -1, anchor));
    DayOfMonth(AnchoredMonth(t, 0, anchor));
    DayOfMonth(AnchoredMonth(t, 1, anchor));
    NextMonthFirst(MonthIndex(t));
    NextMonthFirst(MonthIndex(t) - 1);
    SameMonth(t, MonthAt(MonthIndex(t)));
  }

  // ---------------------------------------------------------------------------
  // Proration
  // ---------------------------------------------------------------------------

  /** The loop that counts days; the closed form says what it counts. */
  method CountDays(from: Date, until: Date) returns (n: nat)
    requires Valid(from) && Valid(until)
    ensures n == if Before(from, until) then DayNumber(until) - DayNumber(from) else 0
  {
    hide DayNumber;
    n := 0;
    var a := from;
    NumbersKeepOrder(from, until);
    while Before(a, until)
      invariant Valid(a) && DayNumber(a) == DayNumber(from) + n
      invariant n == 0 || DayNumber(a) <= DayNumber(until)
      decreases DayNumber(until) - DayNumber(a)
    {
      NumbersKeepOrder(a, until);
      NextDayNumber(a);
      a := NextDay(a);
      n := n + 1;
    }
    NumbersKeepOrder(a, until);
  }

  const UNIT_LIMIT: int := MAX_INT64 / 62

  datatype Proration = QuoteChanged | Prorated(remaining: int, days: int, amount: int, start: Date, end: Date)

  function Distance(a: Date, b: Date): int
    requires Valid(a) && Valid(b)
  {
    DayNumber(b) - DayNumber(a)
  }

  /** End of the cycle the quote is for: on the renewal day the next cycle starts. */
  function CycleEnd(start: Date, next: Date, anchor: int): Date {
    if next == start then AnchoredMonth(next, 1, anchor) else next
  }

  function NearestShare(unit: int, remaining: int, days: int): int
    requires days >= 1
  {
    (unit * remaining + days / 2) / days
  }

  function Prorate(start: Date, next: Date, unit: int, onTrial: bool, anchor: int): Proration
    requires Valid(start) && Valid(next)
  {
    var end := CycleEnd(start, next, anchor);
    if anchor < 1 || anchor > 31 then QuoteChanged
    else
      AnchoredIsValid(next, 1, anchor);
      AnchoredIsValid(end, -1, anchor);
      if Before(end, start) || unit < 0 || unit > UNIT_LIMIT || end != AnchoredMonth(end, 0, anchor)
         || Before(start, AnchoredMonth(end, -1, anchor)) then QuoteChanged
      else
        CycleLength(end, -1, anchor);
        var days, remaining := Distance(AnchoredMonth(end, -1, anchor), end), Distance(start, end);
        Prorated(remaining, days, if onTrial then 0 else NearestShare(unit, remaining, days), start, end)
  }

  /** The quote's arithmetic, with its two counting loops and all its refusals. */
  method AnchoredCalendarProration(start: Date, next: Date, unit: int, onTrial: bool, anchor: int) returns (r: Proration)
    requires Valid(start) && Valid(next)
    ensures r == Prorate(start, next, unit, onTrial, anchor)
  {
    hide DayNumber, AnchoredMonth, DaysIn;
    var end := next;
    if anchor < 1 || anchor > 31 {
      return QuoteChanged;
    }
    AnchoredIsValid(next, 1, anchor);
    if end == start {
      end := AnchoredMonth(end, 1, anchor);
    }
    if Before(end, start) || unit < 0 || unit > UNIT_LIMIT {
      return QuoteChanged;
    }
    if end != AnchoredMonth(end, 0, anchor) {
      return QuoteChanged;
    }
    var cycleStart := AnchoredMonth(end, -1, anchor);
    AnchoredIsValid(end, -1, anchor);
    if Before(start, cycleStart) {
      return QuoteChanged;
    }
    CycleLength(end, -1, anchor);
    NumbersKeepOrder(cycleStart, end);
    NumbersKeepOrder(start, end);
    NumbersKeepOrder(end, start);
    NumbersKeepOrder(start, cycleStart);
    var days := CountDays(cycleStart, end);
    var remaining := CountDays(start, end);
    if days < 1 || remaining > days {
      return QuoteChanged;
    }
    var amount := 0;
    if !onTrial {
      amount := (unit * remaining + days / 2) / days;
    }
    return Prorated(remaining, days, amount, start, end);
  }

  /** Every accepted quote covers between one day and the whole cycle of 28 to 31 days. Outside the
      trial its amount is the exact share rounded to the nearest cent, between nothing and one unit, and
      no step of its computation leaves the 64-bit range; in the trial it is free. */
  lemma QuoteIsFair(start: Date, next: Date, unit: int, onTrial: bool, anchor: int)
    requires Valid(start) && Valid(next)
    ensures var r := Prorate(start, next, unit, onTrial, anchor);
            r.Prorated? ==>
              && 28 <= r.days <= 31 && 1 <= r.remaining <= r.days && r.start == start
              && (onTrial ==> r.amount == 0)
              && (!onTrial ==> && -r.days <= 2 * (r.amount * r.days - unit * r.remaining) <= r.days
                               && 0 <= r.amount <= unit && (r.remaining == r.days ==> r.amount == unit))
              && 0 <= unit * r.remaining && unit * r.remaining + r.days / 2 <= MAX_INT64
  {
    var r := Prorate(start, next, unit, onTrial, anchor);
    if r.Prorated? {
      RemainingDays(start, next, unit, onTrial, anchor);
      ShareIsNearest(unit, r.remaining, r.days);
    }
  }

  lemma RemainingDays(start: Date, next: Date, unit: int, onTrial: bool, anchor: int)
    requires Valid(start) && Valid(next) && Prorate(start, next, unit, onTrial, anchor).Prorated?
    ensures var r := Prorate(start, next, unit, onTrial, anchor);
            28 <= r.days <= 31 && 1 <= r.remaining <= r.days && 0 <= unit <= UNIT_LIMIT && r.start == start
  {
    hide DayNumber, AnchoredMonth, NearestShare;
    var end := CycleEnd(start, next, anchor);
    AnchoredIsValid(next, 1, anchor);
    AnchoredIsValid(end, -1, anchor);
    CycleLength(end, -1, anchor);
    NumbersKeepOrder(start, end);
    NumbersKeepOrder(end, start);
    NumbersKeepOrder(start, AnchoredMonth(end, -1, anchor));
    if next == start { CyclesFollow(next, 0, 1, anchor); NotToday(start, anchor); }
  }

  lemma NotToday(t: Date, anchor: int)
    requires Valid(t) && anchor >= 1
    ensures AnchoredMonth(t, 1, anchor) != t
  {
  }

  lemma ShareIsNearest(unit: int, remaining: int, days: int)
    requires 28 <= days <= 31 && 1 <= remaining <= days && 0 <= unit <= UNIT_LIMIT
    ensures var amount := NearestShare(unit, remaining, days);
            && -days <= 2 * (amount * days - unit * remaining) <= days
            && 0 <= amount <= unit && (remaining == days ==> amount == unit)
    ensures 0 <= unit * remaining && unit * remaining + days / 2 <= MAX_INT64
  {
    Products(unit, remaining, days);
    ExactShare(unit, days);
    ShareOf(unit, unit * remaining, unit * days, days);
  }

  lemma Products(unit: int, remaining: int, days: int)
    requires 1 <= remaining <= days <= 31 && 0 <= unit
    ensures 0 <= unit * remaining <= unit * days && unit * remaining <= 31 * unit
  {
    assert unit * (days - remaining) >= 0;
    assert unit * (31 - remaining) >= 0;
  }

  lemma ShareOf(unit: int, part: int, full: int, days: int)
    requires 28 <= days <= 31 && 0 <= part <= full && (full + days / 2) / days == unit
    ensures var amount := (part + days / 2) / days;
            0 <= amount <= unit && -days <= 2 * (amount * days - part) <= days && (part == full ==> amount == unit)
  {
    DivisionIsMonotone(0, part + days / 2, days);
    DivisionIsMonotone(part + days / 2, full + days / 2, days);
    NearestCent(part, days);
  }

  // With the number of days written out, division is linear.

  lemma ExactShare(unit: int, days: int)
    requires 28 <= days <= 31
    ensures (unit * days + days / 2) / days == unit
  {
    if days == 28 {} else if days == 29 {} else if days == 30 {} else {}
  }

  lemma NearestCent(x: int, days: int)
    requires 28 <= days <= 31
    ensures -days <= 2 * ((x + days / 2) / days * days - x) <= days
  {
    if days == 28 {} else if days == 29 {} else if days == 30 {} else {}
  }

  lemma DivisionIsMonotone(a: int, b: int, days: int)
    requires a <= b && 28 <= days <= 31
    ensures a / days <= b / days
  {
    if days == 28 {} else if days == 29 {} else if days == 30 {} else {}
  }

  /** Which requests are accepted at all. On the renewal day itself the stored date only has to be on or
      after the anchor day of its month. */
  lemma AcceptedWhen(start: Date, next: Date, unit: int, onTrial: bool, anchor: int)
    requires Valid(start) && Valid(next)
    ensures Prorate(start, next, unit, onTrial, anchor).Prorated?
            <==> && 1 <= anchor <= 31 && 0 <= unit <= UNIT_LIMIT
                 && if start == next then next.day >= AnchoredMonth(next, 0, anchor).day
                    else && next == AnchoredMonth(next, 0, anchor)
                         && Before(start, next) && !Before(start, AnchoredMonth(next, -1, anchor))
  {
    if 1 <= anchor <= 31 {
      AnchoredMonthActs(next, 1, 0, anchor);
      AnchoredMonthActs(next, 1, -1, anchor);
      if start == next { RenewalDay(next, anchor); } else { NotBothWays(start, next); }
    }
  }

  lemma NotBothWays(a: Date, b: Date)
    requires Valid(a) && Valid(b) && a != b
    ensures Before(a, b) <==> !Before(b, a)
  {
  }

  lemma RenewalDay(next: Date, anchor: int)
    requires Valid(next) && 1 <= anchor <= 31
    ensures !Before(AnchoredMonth(next, 1, anchor), next)
    ensures Before(next, AnchoredMonth(next, 0, anchor)) <==> next.day < AnchoredMonth(next, 0, anchor).day
  {
  }

  /** A later day of the same cycle never costs more. */
  lemma LaterCostsLess(start: Date, later: Date, next: Date, unit: int, onTrial: bool, anchor: int)
    requires Valid(start) && Valid(later) && Valid(next) && Before(start, later) && Before(later, next)
    requires Prorate(start, next, unit, onTrial, anchor).Prorated?
    ensures Prorate(later, next, unit, onTrial, anchor).Prorated?
    ensures Prorate(later, next, unit, onTrial, anchor).amount <= Prorate(start, next, unit, onTrial, anchor).amount
    ensures Prorate(later, next, unit, onTrial, anchor).remaining < Prorate(start, next, unit, onTrial, anchor).remaining
  {
    hide DayNumber, AnchoredMonth, NearestShare;
    AnchoredIsValid(next, -1, anchor);
    NumbersKeepOrder(start, later);
    var r, s := Prorate(start, next, unit, onTrial, anchor), Distance(later, next);
    CycleLength(next, -1, anchor);
    SharesAreOrdered(unit, s, r.remaining, r.days);
  }

  lemma ProductsAreOrdered(unit: int, fewer: int, more: int)
    requires 0 <= unit && fewer <= more
    ensures unit * fewer <= unit * more
  {
    assert unit * (more - fewer) >= 0;
  }

  lemma SharesAreOrdered(unit: int, fewer: int, more: int, days: int)
    requires 0 <= unit && fewer <= more && 28 <= days <= 31
    ensures NearestShare(unit, fewer, days) <= NearestShare(unit, more, days)
  {
    ProductsAreOrdered(unit, fewer, more);
    DivisionIsMonotone(unit * fewer + days / 2, unit * more + days / 2, days);
  }

  // ---------------------------------------------------------------------------
  // Trials
  // ---------------------------------------------------------------------------

  /** TrialEnd: the same day next month, or that month's last day, found as day zero of the month after. */
  function TrialEnd(start: Date): Date {
    var next := MonthAt(MonthIndex(start) + 1);
    var last := DayZero(MonthAt(MonthIndex(next) + 1)).day;
    Date(next.year, next.month, if start.day < last then start.day else last)
  }

  /** time.Date carries day zero over to the last day of the month before. */
  function DayZero(first: Date): Date {
    var before := MonthAt(MonthIndex(first) - 1);
    Date(before.year, before.month, DaysIn(before.year, before.month))
  }

  /** A trial lasts one billing cycle: the two calendar computations agree, and it has 28 to 31 days. */
  lemma TrialIsOneCycle(start: Date)
    requires Valid(start)
    ensures TrialEnd(start) == ShiftMonth(start, 1) && Valid(TrialEnd(start))
    ensures 28 <= Distance(start, TrialEnd(start)) <= 31
  {
    AnchoredMonthActs(start, 0, 1, start.day);
    CycleLength(start, 0, start.day);
  }
}
