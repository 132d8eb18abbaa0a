// service_change.go (quote) and money.go: what a change of product costs for the
// time already paid for.
module Proration {
  import opened Options
  import opened Calendar

  const MAX_INT64: int := 0x7fff_ffff_ffff_ffff

  // mulDivCents: the quotient of unbounded integers, refused outside 64 bits.
  function MulDiv(amount: int, numerator: int, denominator: int): Option<int> {
    if amount < 0 || numerator < 0 || denominator <= 0 then None
    else if amount * numerator / denominator > MAX_INT64 then None
    else Some(amount * numerator / denominator)
  }

  datatype Quote = Quote(charge: nat, credit: nat, remaining: int, total: int, price: nat)

  // The exact proration of a price difference, rounded down.
  function Share(difference: nat, remaining: nat, cycle: int): int
    requires cycle > 0
  {
    difference * remaining / cycle
  }

  // What one change adds to what the customer pays: a charge, or a credit back.
  function NetCharge(from: int, to: int, remaining: nat, cycle: int): int
    requires cycle > 0
  {
    if to >= from then Share(to - from, remaining, cycle) else -Share(from - to, remaining, cycle)
  }

  // The length of the cycle that ends at the expiry.
  function CycleSeconds(expiry: Instant, c: Cycle): int {
    expiry - MonthsBack(expiry, CycleMonths(c))
  }

  predicate Quotable(active: bool, expires: Option<Instant>, c: Cycle, from: int, target: int, extra: int,
                           now: Instant) {
    && active && expires.Some? && expires.value > now && CycleMonths(c) > 0
    && 0 <= from && 0 <= target && 0 <= extra && target + extra <= MAX_INT64
  }

  // What the change will cost, and the price it leads to.
  datatype Terms = Terms(charge: nat, credit: nat, price: nat)

  function TermsFor(active: bool, expires: Option<Instant>, c: Cycle, from: int, target: int, extra: int, now: Instant)
    : Option<Terms>
  {
    if !Quotable(active, expires, c, from, target, extra, now) then None
    else
      CycleIsPositive(expires.value, c);
      var net := NetCharge(from, target + extra, expires.value - now, CycleSeconds(expires.value, c));
      if net > MAX_INT64 || net < -MAX_INT64 then None
      else Some(Terms(if net > 0 then net else 0, if net < 0 then -net else 0, target + extra))
  }

  lemma CycleIsPositive(expiry: Instant, c: Cycle)
    requires CycleMonths(c) > 0
    ensures CycleSeconds(expiry, c) > 0
  {
    AddMonthsShrinks(expiry, CycleMonths(c));
  }

  // quote, once the options have been validated: target is the product's price,
  // extra that of the options, from the price the service pays now. The charge
  // covers every remaining cycle, not just one, and neither the clamp of remaining
  // to total nor the refusal of an empty window ever applies.
  method MakeQuote(active: bool, expires: Option<Instant>, c: Cycle, from: int, target: int, extra: int, now: Instant)
    returns (q: Option<Quote>)
    ensures var t := TermsFor(active, expires, c, from, target, extra, now);
            (q.Some? <==> t.Some?)
            && (q.Some? ==> t.value == Terms(q.value.charge, q.value.credit, q.value.price))
    ensures forall m: nat :: MonthsOf(c, m) && m <= 12 && active && expires.Some? && now == MonthsBack(expires.value, m)
              && 0 <= from <= MAX_INT64 && 0 <= target && 0 <= extra && target + extra <= MAX_INT64
              ==> q.Some? && q.value.charge - q.value.credit == target + extra - from
    ensures q.Some? ==> Quotable(active, expires, c, from, target, extra, now)
    ensures Quotable(active, expires, c, from, target, extra, now) ==> CycleSeconds(expires.value, c) > 0
    ensures Quotable(active, expires, c, from, target, extra, now) ==>
      var net := NetCharge(from, target + extra, expires.value - now, CycleSeconds(expires.value, c));
      if -MAX_INT64 <= net <= MAX_INT64
      then && q.Some? && q.value.price == target + extra
           && (q.value.charge == 0 || q.value.credit == 0)
           && q.value.charge - q.value.credit == net
           && q.value.remaining == expires.value - now <= q.value.total
           && q.value.total - q.value.remaining < 31 * CycleMonths(c) * 86400
      else q.None?
  {
    hide MulDiv, NetCharge, TermsFor, CycleSeconds, MonthsBack;
    forall m: nat | MonthsOf(c, m) && m <= 12 && active && expires.Some? && now == MonthsBack(expires.value, m)
      && 0 <= from <= MAX_INT64 && 0 <= target && 0 <= extra && target + extra <= MAX_INT64
      ensures TermsFor(active, expires, c, from, target, extra, now).Some?
      ensures var t := TermsFor(active, expires, c, from, target, extra, now).value;
              t.charge - t.credit == target + extra - from
    {
      OneCycleCostsTheDifference(expires.value, c, m, from, target, extra);
    }
    if !active || expires.None? || expires.value <= now || target < 0 || from < 0 || extra < 0
      || target > MAX_INT64 - extra {
      NoTerms(active, expires, c, from, target, extra, now);
      return None;
    }
    var price := target + extra;
    var window := PaidWindow(expires.value, c, now);
    if window.None? {
      NoTerms(active, expires, c, from, target, extra, now);
      return None;
    }
    var w := window.value;
    var diff := price - from;
    var charge, credit := Some(0), Some(0);
    if diff >= 0 {
      charge := MulDiv(diff, w.remaining, w.cycle);
    } else {
      credit := MulDiv(-diff, w.remaining, w.cycle);
    }
    QuoteIsTerms(expires, c, from, target, extra, now, charge, credit);
    if charge.None? || credit.None? {
      return None;
    }
    q := Some(Quote(charge.value, credit.value, w.remaining, w.total, price));
  }

  datatype Window = Window(remaining: int, total: int, cycle: int)

  // The part of quote that measures what is paid for, in seconds.
  method PaidWindow(expiry: Instant, c: Cycle, now: Instant) returns (w: Option<Window>)
    requires expiry > now
    ensures w.Some? <==> CycleMonths(c) > 0
    ensures w.Some? ==> w.value.remaining == expiry - now <= w.value.total
                        && w.value.total - w.value.remaining < 31 * CycleMonths(c) * 86400
                        && w.value.cycle == CycleSeconds(expiry, c) > 0
  {
    hide MonthsBack;
    var start, steps := BillingStart(now, expiry, c);
    if start.None? {
      return None;
    }
    WindowCoversRemaining(start.value, now, expiry, CycleMonths(c), steps);
    AddMonthsShrinks(expiry, CycleMonths(c));
    var total, remaining := expiry - start.value, expiry - now;
    if remaining > total {
      remaining := total;
    }
    if total <= 0 {
      return None;
    }
    var cycle := total;
    var one := expiry - MonthsBack(expiry, CycleMonths(c));
    if one > 0 {
      cycle := one;
    }
    w := Some(Window(remaining, total, cycle));
  }

  lemma NoTerms(active: bool, expires: Option<Instant>, c: Cycle, from: int, target: int, extra: int, now: Instant)
    requires !Quotable(active, expires, c, from, target, extra, now)
    ensures TermsFor(active, expires, c, from, target, extra, now).None?
  {
  }

  // The two quotients make up the terms.
  lemma QuoteIsTerms(expires: Option<Instant>, c: Cycle, from: int, target: int, extra: int, now: Instant,
                     charge: Option<int>, credit: Option<int>)
    requires Quotable(true, expires, c, from, target, extra, now) && CycleSeconds(expires.value, c) > 0
    requires var diff := target + extra - from;
             var remaining, cycle := expires.value - now, CycleSeconds(expires.value, c);
             && charge == (if diff >= 0 then MulDiv(diff, remaining, cycle) else Some(0))
             && credit == (if diff >= 0 then Some(0) else MulDiv(-diff, remaining, cycle))
    ensures var net := NetCharge(from, target + extra, expires.value - now, CycleSeconds(expires.value, c));
            var t := TermsFor(true, expires, c, from, target, extra, now);
            && (-MAX_INT64 <= net <= MAX_INT64 <==> charge.Some? && credit.Some?)
            && (t.Some? <==> charge.Some? && credit.Some?)
            && (t.Some? ==> && charge.value >= 0 && credit.value >= 0 && (charge.value == 0 || credit.value == 0)
                            && charge.value - credit.value == net
                            && t.value == Terms(charge.value, credit.value, target + extra))
  {
    hide CycleSeconds;
    var diff := target + extra - from;
    ShareIsNonnegative(if diff >= 0 then diff else -diff, expires.value - now, CycleSeconds(expires.value, c));
  }

  lemma ShareIsNonnegative(difference: nat, remaining: nat, cycle: int)
    requires cycle > 0
    ensures Share(difference, remaining, cycle) >= 0
  {
    assert difference * remaining >= 0;
  }

  // ----- from which price -----

  // With a whole cycle or more to go, a change from a higher price costs less.
  lemma Steeper(from: int, higher: int, to: int, remaining: nat, cycle: int)
    requires 0 < cycle <= remaining && from < higher
    ensures NetCharge(from, to, remaining, cycle) > NetCharge(higher, to, remaining, cycle)
  {
    if to >= higher {
      ShareGrows(to - higher, to - from, remaining, cycle);
    } else if to >= from {
      ShareGrows(0, higher - to, remaining, cycle);
      if to > from { ShareGrows(0, to - from, remaining, cycle); }
    } else {
      ShareGrows(from - to, higher - to, remaining, cycle);
    }
  }

  lemma ShareGrows(a: nat, b: nat, remaining: nat, cycle: int)
    requires 0 < cycle <= remaining && a < b
    ensures Share(a, remaining, cycle) < Share(b, remaining, cycle)
    ensures Share(0, remaining, cycle) == 0
  {
    Floor(a * remaining, cycle);
    Floor(b * remaining, cycle);
    Floor(0 * remaining, cycle);
    Distribute(remaining, a, b - a);
    Scale(remaining, 1, b - a);
    FloorsApart(Share(a, remaining, cycle), Share(b, remaining, cycle), a * remaining, b * remaining, cycle);
  }

  lemma FloorsApart(p: int, q: int, x: int, y: int, cycle: int)
    requires cycle > 0 && cycle * p <= x && x + cycle <= y && y - (cycle - 1) <= cycle * q
    ensures p < q
  {
    if q <= p { Scale(cycle, q, p); }
  }

  lemma Scale(c: int, a: int, b: int)
    requires c > 0 && a <= b
    ensures c * a <= c * b
  {
  }

  // Whatever is left to go, two prices are told apart by what some change would
  // cost from them.
  lemma TargetsTellApart(from: nat, other: nat, remaining: nat, cycle: int)
    requires remaining > 0 && cycle > 0
    ensures (forall to: nat :: NetCharge(from, to, remaining, cycle) == NetCharge(other, to, remaining, cycle)) <==>
      from == other
  {
    if from < other { TellApart(from, other, remaining, cycle); }
    if other < from { TellApart(other, from, remaining, cycle); }
  }

  lemma TellApart(low: nat, high: nat, remaining: nat, cycle: int)
    requires remaining > 0 && cycle > 0 && low < high
    ensures exists to: nat :: NetCharge(low, to, remaining, cycle) != NetCharge(high, to, remaining, cycle)
  {
    if forall to: nat :: NetCharge(low, to, remaining, cycle) == NetCharge(high, to, remaining, cycle) {
      StepsAreFree(low, high, remaining, cycle, cycle);
      Floor(cycle * (high - low) * remaining, cycle);
      Times(cycle, high - low, remaining);
      assert false;
    }
  }

  // Then any number of such differences would be free.
  lemma {:induction false} StepsAreFree(low: nat, high: nat, remaining: nat, cycle: int, n: nat)
    requires cycle > 0 && low < high
    requires forall to: nat :: NetCharge(low, to, remaining, cycle) == NetCharge(high, to, remaining, cycle)
    ensures n * (high - low) >= 0 && Share(n * (high - low), remaining, cycle) == 0
  {
    if n > 0 {
      StepsAreFree(low, high, remaining, cycle, n - 1);
      Distribute(high - low, n - 1, 1);
      var to := high + (n - 1) * (high - low);
      assert NetCharge(low, to, remaining, cycle) == NetCharge(high, to, remaining, cycle);
      assert to - low == n * (high - low);
    }
  }

  lemma Times(a: int, b: int, c: int)
    requires a > 0 && b > 0 && c > 0
    ensures a * b * c >= a
  {
    assert b * c >= 1;
    assert a * b * c == a * (b * c);
  }

  // ----- in figures -----

  lemma WholeShare(difference: nat, cycle: nat)
    requires cycle > 0
    ensures Share(difference, cycle, cycle) == difference
  {
    Floor(difference * cycle, cycle);
    Exact(Share(difference, cycle, cycle), difference, cycle);
  }

  lemma Exact(q: int, d: int, c: int)
    requires c > 0 && c * q <= d * c && d * c - (c - 1) <= c * q
    ensures q == d
  {
    Distribute(c, q, 1);
    Distribute(c, d, 1);
    if q < d { Scale(c, q + 1, d); }
    if d < q { Scale(c, d + 1, q); }
  }

  lemma NetIsDifference(from: nat, to: nat, cycle: nat)
    requires cycle > 0
    ensures NetCharge(from, to, cycle, cycle) == to - from
  {
    hide Share;
    WholeShare(if to >= from then to - from else from - to, cycle);
  }

  // Half of the window costs half of the difference, rounded down.
  lemma HalfShare(difference: nat, half: nat)
    requires half > 0
    ensures Share(difference, half, 2 * half) == difference / 2
  {
    var q := difference / 2;
    Distribute(half, 2 * q, difference - 2 * q);
    assert half * (2 * q) == (2 * half) * q;
    assert difference * half == (2 * half) * q + half * (difference - 2 * q);
    assert 0 <= half * (difference - 2 * q) <= half by {
      Scale(half, difference - 2 * q, 1);
      Scale(half, 0, difference - 2 * q);
    }
    Within2(difference * half, 2 * half, q, half * (difference - 2 * q));
  }

  lemma Within2(x: int, d: int, q: int, r: int)
    requires d > 0 && x == d * q + r && 0 <= r < d
    ensures x / d == q
  {
    Floor(x, d);
    if x / d < q { Scale(d, x / d + 1, q); Distribute(d, x / d, 1); }
    if q < x / d { Scale(d, q + 1, x / d); Distribute(d, q, 1); }
  }

  lemma NetIsHalf(from: nat, to: nat, half: nat)
    requires half > 0
    ensures NetCharge(from, to, half, 2 * half) == if to >= from then (to - from) / 2 else -((from - to) / 2)
  {
    hide Share;
    HalfShare(if to >= from then to - from else from - to, half);
  }

  // A service can be changed for cycles of 1, 3, 6 and 12 months. Exactly one such
  // cycle before its expiry a change costs the difference of the prices.
  lemma OneCycleCostsTheDifference(expiry: Instant, c: Cycle, m: nat, from: nat, target: nat, extra: nat)
    requires MonthsOf(c, m) && m <= 12 && from <= MAX_INT64 && target + extra <= MAX_INT64
    ensures var up, down := target + extra - from, from - (target + extra);
            TermsFor(true, Some(expiry), c, from, target, extra, MonthsBack(expiry, m))
            == Some(Terms(if up > 0 then up else 0, if down > 0 then down else 0, target + extra))
  {
    hide MonthsBack;
    AddMonthsShrinks(expiry, m);
    NetIsDifference(from, target + extra, expiry - MonthsBack(expiry, m));
    hide NetCharge;
  }

  // With half of that window to go it costs half of it.
  lemma HalfACycleCostsHalf(expiry: Instant, c: Cycle, m: nat, from: nat, target: nat, extra: nat, now: Instant)
    requires MonthsOf(c, m) && m <= 12 && from <= MAX_INT64 && target + extra <= MAX_INT64
    requires 2 * (expiry - now) == expiry - MonthsBack(expiry, m)
    ensures var up, down := target + extra - from, from - (target + extra);
            TermsFor(true, Some(expiry), c, from, target, extra, now)
            == Some(Terms(if up > 0 then up / 2 else 0, if down > 0 then down / 2 else 0, target + extra))
  {
    hide MonthsBack;
    AddMonthsShrinks(expiry, m);
    NetIsHalf(from, target + extra, expiry - now);
    hide NetCharge;
  }

  // For no other cycle, and for no service that is not in use or has expired.
  lemma NothingElseIsQuoted(active: bool, expires: Option<Instant>, c: Cycle, from: int, target: int, extra: int,
                            now: Instant)
    requires !active || expires.None? || expires.value <= now || c == OneTime || c == Biennially || c == Triennially
    ensures TermsFor(active, expires, c, from, target, extra, now).None?
  {
  }

  // ----- chains of changes at one instant -----

  // The net of changing through these prices one after the other.
  function ChainNet(prices: seq<int>, remaining: nat, cycle: int): int
    requires cycle > 0
  {
    if |prices| < 2 then 0
    else ChainNet(prices[..|prices| - 1], remaining, cycle)
         + NetCharge(prices[|prices| - 2], prices[|prices| - 1], remaining, cycle)
  }

  function Raises(prices: seq<int>): (n: int)
    ensures n >= 0
  {
    if |prices| < 2 then 0
    else Raises(prices[..|prices| - 1]) + (if prices[|prices| - 2] < prices[|prices| - 1] then 1 else 0)
  }

  function Drops(prices: seq<int>): (n: int)
    ensures n >= 0
  {
    if |prices| < 2 then 0
    else Drops(prices[..|prices| - 1]) + (if prices[|prices| - 2] > prices[|prices| - 1] then 1 else 0)
  }

  // Rounding costs each raise less than a cent, each drop gives less than a cent.
  lemma NetChargeBounds(from: int, to: int, remaining: nat, cycle: int)
    requires cycle > 0
    ensures from < to ==>
      remaining * (to - from) - (cycle - 1) <= cycle * NetCharge(from, to, remaining, cycle) <= remaining * (to - from)
    ensures from > to ==>
      remaining * (to - from) <= cycle * NetCharge(from, to, remaining, cycle) <= remaining * (to - from) + (cycle - 1)
    ensures from == to ==> NetCharge(from, to, remaining, cycle) == 0
  {
    if from < to {
      Floor((to - from) * remaining, cycle);
    } else {
      var d := from - to;
      Floor(d * remaining, cycle);
      Negate(remaining, d);
      Negate(cycle, Share(d, remaining, cycle));
    }
  }

  lemma Negate(a: int, b: int)
    ensures a * -b == -(a * b)
  {
  }

  lemma Floor(x: int, y: int)
    requires y > 0
    ensures x - (y - 1) <= y * (x / y) <= x
    ensures x == 0 ==> x / y == 0
  {
    assert x == y * (x / y) + x % y;
  }

  // What a chain costs in all, times the cycle, stays close to what the change
  // from its first price to its last would: it loses less than one cent a raise
  // and gains less than one a drop.
  ghost predicate Within(moved: int, net: int, cycle: int, raises: int, drops: int) {
    moved - (cycle - 1) * raises <= cycle * net <= moved + (cycle - 1) * drops
  }

  lemma {:induction false} ChainBounds(prices: seq<int>, remaining: nat, cycle: int)
    requires cycle > 0 && |prices| > 0
    ensures Within(remaining * (prices[|prices| - 1] - prices[0]), ChainNet(prices, remaining, cycle), cycle,
                   Raises(prices), Drops(prices))
  {
    hide Within, NetCharge;
    if |prices| > 1 {
      var rest := prices[..|prices| - 1];
      var from, to := prices[|prices| - 2], prices[|prices| - 1];
      ChainBounds(rest, remaining, cycle);
      Extend(prices[0], from, to, ChainNet(rest, remaining, cycle), remaining, cycle, Raises(rest), Drops(rest));
    } else {
      Nothing(remaining, cycle);
    }
  }

  lemma Nothing(remaining: nat, cycle: int)
    ensures Within(remaining * 0, 0, cycle, 0, 0)
  {
  }

  lemma Extend(first: int, from: int, to: int, net: int, remaining: nat, cycle: int, raises: int, drops: int)
    requires cycle > 0 && Within(remaining * (from - first), net, cycle, raises, drops)
    ensures Within(remaining * (to - first), net + NetCharge(from, to, remaining, cycle), cycle,
                   raises + (if from < to then 1 else 0), drops + (if from > to then 1 else 0))
  {
    NetChargeBounds(from, to, remaining, cycle);
    hide NetCharge;
    Distribute(remaining, from - first, to - from);
    assert from - first + (to - from) == to - first;
    Distribute(cycle, net, NetCharge(from, to, remaining, cycle));
    Distribute(cycle - 1, raises, 1);
    Distribute(cycle - 1, drops, 1);
  }

  lemma Distribute(a: int, b: int, c: int)
    ensures a * (b + c) == a * b + a * c
  {
  }

  lemma {:induction false} MovesCounted(prices: seq<int>)
    requires |prices| > 0
    ensures Raises(prices) + Drops(prices) <= |prices| - 1
  {
    if |prices| > 1 { MovesCounted(prices[..|prices| - 1]); }
  }

  // Proration cannot be farmed: whatever prices a chain of changes passes through
  // at one instant, once it is back where it started the customer has gained less
  // than a cent for each raise and lost less than a cent for each drop.
  lemma ClosedChain(prices: seq<int>, remaining: nat, cycle: int)
    requires cycle > 0 && |prices| > 1 && prices[0] == prices[|prices| - 1]
    ensures var net, k := ChainNet(prices, remaining, cycle), |prices| - 1;
            && -k < net < k
            && (Raises(prices) == 0 ==> net >= 0) && (Raises(prices) > 0 ==> -Raises(prices) < net)
            && (Drops(prices) == 0 ==> net <= 0) && (Drops(prices) > 0 ==> net < Drops(prices))
  {
    ChainBounds(prices, remaining, cycle);
    MovesCounted(prices);
    hide ChainNet, Raises, Drops;
    Closed(ChainNet(prices, remaining, cycle), cycle, Raises(prices), Drops(prices));
  }

  lemma Closed(net: int, cycle: int, raises: int, drops: int)
    requires cycle > 0 && raises >= 0 && drops >= 0 && Within(0, net, cycle, raises, drops)
    ensures raises == 0 ==> net >= 0
    ensures raises > 0 ==> -raises < net
    ensures drops == 0 ==> net <= 0
    ensures drops > 0 ==> net < drops
  {
    Distribute(cycle, raises, net);
    Distribute(cycle, drops, -net);
    Negate(cycle, net);
    assert (cycle - 1) * raises == cycle * raises - raises;
    assert (cycle - 1) * drops == cycle * drops - drops;
    Sign(cycle, raises + net);
    Sign(cycle, drops - net);
  }

  lemma Sign(c: int, x: int)
    requires c > 0
    ensures x <= 0 ==> c * x <= 0
    ensures x < 0 ==> c * x < 0
    ensures x > 0 ==> c * x > 0
  {
  }

  // An upgrade undone at the same instant costs nothing at all, and so does a
  // downgrade undone.
  lemma ThereAndBack(from: int, to: int, remaining: nat, cycle: int)
    requires cycle > 0
    ensures ChainNet([from, to, from], remaining, cycle) == 0
  {
    var prices := [from, to, from];
    assert prices[..2] == [from, to] && prices[..2][..1] == [from];
    assert ChainNet(prices[..2][..1], remaining, cycle) == 0;
    assert ChainNet(prices[..2], remaining, cycle) == NetCharge(from, to, remaining, cycle);
    NetChargeBounds(from, from, remaining, cycle);
  }

  // The bound is met: two raises of half a cent each are free, one drop of both
  // gives the cent back.
  lemma BoundIsSharp()
    ensures ChainNet([0, 1, 2, 0], 1, 2) == -1
  {
    var prices := [0, 1, 2, 0];
    assert prices[..3] == [0, 1, 2] && prices[..3][..2] == [0, 1] && prices[..3][..2][..1] == [0];
    assert ChainNet(prices[..3][..2][..1], 1, 2) == 0;
    assert ChainNet(prices[..3][..2], 1, 2) == 0;
    assert ChainNet(prices[..3], 1, 2) == 0;
  }
}
