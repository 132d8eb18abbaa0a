// Civil dates as the billing code uses them: every month step goes through
// Go's normalising date constructor, which keeps the day of the month and lets
// an overflowing day run into the following month.
//
// An Instant counts seconds from midnight on 1 January of year 0 (UTC). A month
// is numbered 12 * year + (month - 1), so month arithmetic is integer addition.
module Calendar {
  import opened Options

  type Instant = int

  datatype Cycle =
    | OneTime | Monthly | Quarterly | Semiannually | Annually | Biennially | Triennially

  // How many months one renewal adds; a one-time purchase has no cycle.
  function RenewalMonths(c: Cycle): nat {
    match c
    case OneTime => 0
    case Monthly => 1
    case Quarterly => 3
    case Semiannually => 6
    case Annually => 12
    case Biennially => 24
    case Triennially => 36
  }

  // The cycles a running service may be re-priced in; 0 means unsupported.
  function CycleMonths(c: Cycle): nat {
    if c == Biennially || c == Triennially then 0 else RenewalMonths(c)
  }

  // In figures: how many months each recurring cycle takes.
  predicate MonthsOf(c: Cycle, m: nat) {
    match c
    case OneTime => false
    case Monthly => m == 1
    case Quarterly => m == 3
    case Semiannually => m == 6
    case Annually => m == 12
    case Biennially => m == 24
    case Triennially => m == 36
  }

  predicate Leap(year: int) {
    year % 4 == 0 && (year % 100 != 0 || year % 400 == 0)
  }

  // ----- two independent readings of the calendar -----

  // The month table.
  function MonthLength(month: int): (n: nat)
    ensures 28 <= n <= 31
  {
    var m := month % 12;
    if m == 1 then (if Leap(month / 12) then 29 else 28)
    else if m == 3 || m == 5 || m == 8 || m == 10 then 30
    else 31
  }

  // The day number on which a month starts, by adding up month lengths.
  function MonthStart(month: int): int
    decreases if month < 0 then -month else month
  {
    if month == 0 then 0
    else if month > 0 then MonthStart(month - 1) + MonthLength(month - 1)
    else MonthStart(month + 1) - MonthLength(month)
  }

  // Days from the epoch to 1 January, by the Gregorian leap-year count.
  function YearStart(year: int): int {
    365 * year + (year + 3) / 4 - (year + 99) / 100 + (year + 399) / 400
  }

  // Days of the year before a month starts, by the table of cumulative days.
  function DaysBefore(m: int, leap: bool): int
    requires 0 <= m < 12
  {
    [0, 31, 59, 90, 120, 151, 181, 212, 243, 273, 304, 334][m] + (if leap && m > 1 then 1 else 0)
  }

  // The same day number in the closed form of the date constructor.
  function MonthStartClosed(month: int): int {
    YearStart(month / 12) + DaysBefore(month % 12, Leap(month / 12))
  }

  lemma YearStartStep(year: int)
    ensures YearStart(year + 1) == YearStart(year) + (if Leap(year) then 366 else 365)
  {
    LeapTerm4(year);
    LeapTerm100(year);
    LeapTerm400(year);
    Centuries(year);
  }

  lemma LeapTerm4(year: int)
    ensures (year + 1 + 3) / 4 == (year + 3) / 4 + (if year % 4 == 0 then 1 else 0)
  {
  }

  lemma LeapTerm100(year: int)
    ensures (year + 1 + 99) / 100 == (year + 99) / 100 + (if year % 100 == 0 then 1 else 0)
  {
  }

  lemma LeapTerm400(year: int)
    ensures (year + 1 + 399) / 400 == (year + 399) / 400 + (if year % 400 == 0 then 1 else 0)
  {
  }

  // Every fourth century year is a century year, and every century year a fourth one.
  lemma Centuries(year: int)
    ensures year % 400 == 0 ==> year % 100 == 0
    ensures year % 100 == 0 ==> year % 4 == 0
  {
    if year % 400 == 0 { Divides(year, 100, 4); }
    if year % 100 == 0 { Divides(year, 4, 25); }
  }

  lemma Divides(x: int, d: int, e: int)
    requires (d == 100 && e == 4) || (d == 4 && e == 25)
    requires x % (d * e) == 0
    ensures x % d == 0
  {
    var q := x / (d * e);
    assert x == d * (e * q);
  }

  lemma ClosedStep(month: int)
    ensures MonthStartClosed(month + 1) == MonthStartClosed(month) + MonthLength(month)
  {
    if month % 12 == 11 {
      assert (month + 1) / 12 == month / 12 + 1 && (month + 1) % 12 == 0;
      YearStartStep(month / 12);
    } else {
      assert (month + 1) / 12 == month / 12 && (month + 1) % 12 == month % 12 + 1;
    }
  }

  lemma ClosedEpoch()
    ensures MonthStartClosed(0) == 0
  {
  }

  // The closed form and the month table agree on every month of every year.
  lemma {:induction false} ClosedFormAgrees(month: int)
    ensures MonthStartClosed(month) == MonthStart(month)
    decreases if month < 0 then -month else month
  {
    hide MonthStartClosed, MonthLength;
    assert MonthStartClosed(0) == 0 by { ClosedEpoch(); }
    if month > 0 {
      ClosedFormAgrees(month - 1);
      ClosedStep(month - 1);
    } else if month < 0 {
      ClosedFormAgrees(month + 1);
      ClosedStep(month);
    }
  }

  lemma MonthStartStep(month: int)
    ensures MonthStart(month + 1) == MonthStart(month) + MonthLength(month)
  {
  }

  lemma {:induction false} MonthsSpan(month: int, k: nat)
    ensures 28 * k <= MonthStart(month + k) - MonthStart(month) <= 31 * k
    decreases k
  {
    if k > 0 {
      MonthsSpan(month, k - 1);
      MonthStartStep(month + k - 1);
    }
  }

  // ----- reading a day number as a date -----

  function FirstGuess(day: int): (month: int)
    ensures MonthStart(month) <= day
  {
    if day >= 0 then MonthsSpan(0, day / 31); day / 31
    else MonthsSpan(day / 28, -(day / 28)); day / 28
  }

  function MonthFrom(month: int, day: int): (m: int)
    requires MonthStart(month) <= day
    ensures MonthStart(m) <= day < MonthStart(m + 1)
    decreases day - MonthStart(month)
  {
    MonthStartStep(month);
    if day < MonthStart(month + 1) then month else MonthFrom(month + 1, day)
  }

  // The month a day falls in.
  function MonthOf(day: int): (m: int)
    ensures MonthStart(m) <= day < MonthStart(m + 1)
  {
    MonthFrom(FirstGuess(day), day)
  }

  lemma MonthOfUnique(day: int, month: int)
    requires MonthStart(month) <= day < MonthStart(month + 1)
    ensures MonthOf(day) == month
  {
    var m := MonthOf(day);
    if m < month { MonthsSpan(m + 1, month - m - 1); }
    if month < m { MonthsSpan(month + 1, m - month - 1); }
  }

  function MonthIn(t: Instant): int { MonthOf(t / 86400) }

  function DayOfMonth(t: Instant): (d: int)
    ensures 1 <= d <= MonthLength(MonthIn(t))
  {
    MonthStartStep(MonthIn(t));
    t / 86400 - MonthStart(MonthIn(t)) + 1
  }

  // ----- month steps -----

  // time.Date(year, month, day, ...): the day counts on from the first of the
  // month, however far past its end that lands.
  function DateNormalised(month: int, day: int, secondOfDay: int): Instant {
    (MonthStart(month) + day - 1) * 86400 + secondOfDay
  }

  // time.AddDate(0, k, 0).
  function AddMonths(t: Instant, k: int): Instant {
    DateNormalised(MonthIn(t) + k, DayOfMonth(t), t % 86400)
  }

  // time.AddDate(0, -k, 0).
  function MonthsBack(t: Instant, k: nat): Instant {
    AddMonths(t, -(k as int))
  }

  function AdvanceCycle(t: Instant, c: Cycle): Option<Instant> {
    if c == OneTime then None else Some(AddMonths(t, RenewalMonths(c)))
  }

  // A month step moves an instant by exactly the lengths of the months stepped over.
  lemma AddMonthsShift(t: Instant, k: int)
    ensures AddMonths(t, k) == t + (MonthStart(MonthIn(t) + k) - MonthStart(MonthIn(t))) * 86400
  {
  }

  lemma OneMonthBack(t: Instant)
    ensures AddMonths(t, -1) == t - MonthLength(MonthIn(t) - 1) * 86400
  {
    MonthStartStep(MonthIn(t) - 1);
  }

  lemma AddMonthsGrows(t: Instant, k: nat)
    ensures t + 28 * k * 86400 <= AddMonths(t, k) <= t + 31 * k * 86400
  {
    AddMonthsShift(t, k);
    MonthsSpan(MonthIn(t), k);
  }

  lemma AddMonthsShrinks(t: Instant, k: nat)
    ensures t - 31 * k * 86400 <= MonthsBack(t, k) <= t - 28 * k * 86400
  {
    AddMonthsShift(t, -(k as int));
    MonthsSpan(MonthIn(t) - k, k);
  }

  // A step lands in the month asked for when that month has the day, and in the
  // one after it otherwise.
  lemma LandsIn(t: Instant, k: int)
    ensures MonthIn(AddMonths(t, k)) == MonthIn(t) + k + (if DayOfMonth(t) <= MonthLength(MonthIn(t) + k) then 0 else 1)
  {
    var m, there := MonthIn(t), AddMonths(t, k);
    var landed := MonthStart(m + k) + DayOfMonth(t) - 1;
    assert there / 86400 == landed;
    MonthStartStep(m + k);
    MonthStartStep(m + k + 1);
    hide MonthStart, MonthLength, MonthOf, DayOfMonth, AddMonths;
    MonthOfUnique(landed, if DayOfMonth(t) <= MonthLength(m + k) then m + k else m + k + 1);
  }

  // Stepping k months and stepping back returns exactly when the day of the
  // month exists in the month reached, so always up to the 28th.
  lemma StepBackInverts(t: Instant, k: int)
    ensures AddMonths(AddMonths(t, k), -k) == t <==> DayOfMonth(t) <= MonthLength(MonthIn(t) + k)
  {
    var m, there := MonthIn(t), AddMonths(t, k);
    LandsIn(t, k);
    MonthStartStep(m + k);
    MonthStartStep(m);
    AddMonthsShift(t, k);
    AddMonthsShift(there, -k);
    hide MonthStart, MonthLength, MonthIn, DayOfMonth, AddMonths;
  }

  // Walking back one cycle inverts AdvanceCycle for any day up to the 28th.
  lemma WalkBackInvertsAdvance(t: Instant, c: Cycle)
    requires c != OneTime && DayOfMonth(t) <= 28
    ensures MonthsBack(AdvanceCycle(t, c).value, RenewalMonths(c)) == t
  {
    StepBackInverts(t, RenewalMonths(c));
  }

  // ----- the start of the prepaid window -----

  function WalkBack(expiry: Instant, months: nat, steps: nat): Instant {
    if steps == 0 then expiry else MonthsBack(WalkBack(expiry, months, steps - 1), months)
  }

  // start is reached from expiry by whole cycles and is the first one not after now.
  ghost predicate FirstStartAtOrBefore(start: Instant, now: Instant, expiry: Instant, months: nat, steps: nat) {
    && start == WalkBack(expiry, months, steps)
    && start <= now
    && forall k :: 0 <= k < steps ==> WalkBack(expiry, months, k) > now
  }

  // billingStart: None is the "cycle not supported" error. The loop's own guard
  // against a step that does not move back is never taken.
  method BillingStart(now: Instant, expiry: Instant, c: Cycle) returns (start: Option<Instant>, ghost steps: nat)
    ensures start.None? <==> CycleMonths(c) == 0
    ensures start.Some? ==> FirstStartAtOrBefore(start.value, now, expiry, CycleMonths(c), steps)
  {
    hide MonthsBack;
    var months := CycleMonths(c);
    steps := 0;
    if months == 0 {
      return None, 0;
    }
    var s := expiry;
    while s > now
      invariant s == WalkBack(expiry, months, steps)
      invariant forall k :: 0 <= k < steps ==> WalkBack(expiry, months, k) > now
      decreases s - now
    {
      AddMonthsShrinks(s, months);
      var prev := MonthsBack(s, months);
      if prev >= s {
        assert false;
      }
      s := prev;
      steps := steps + 1;
    }
    start := Some(s);
  }

  // The window start is unique, so the method above determines it.
  lemma StartUnique(a: Instant, b: Instant, now: Instant, expiry: Instant, months: nat, i: nat, j: nat)
    requires FirstStartAtOrBefore(a, now, expiry, months, i)
    requires FirstStartAtOrBefore(b, now, expiry, months, j)
    ensures a == b
  {
    assert i >= j && j >= i;
  }

  // While the service still runs, the window found covers the remaining time, so
  // the quote's clamp of remaining to total never applies; and it overshoots the
  // present by less than the one cycle stepped over last.
  lemma WindowCoversRemaining(start: Instant, now: Instant, expiry: Instant, months: nat, steps: nat)
    requires months > 0 && expiry > now
    requires FirstStartAtOrBefore(start, now, expiry, months, steps)
    ensures steps > 0 && start < expiry
    ensures expiry - now <= expiry - start
    ensures now - start < WalkBack(expiry, months, steps - 1) - start <= 31 * months * 86400
  {
    AddMonthsShrinks(WalkBack(expiry, months, steps - 1), months);
  }
}
