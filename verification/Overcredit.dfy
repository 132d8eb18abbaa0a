// A run that farms the proration. Two requests for the same cheaper product are
// quoted from the same price; the second is reserved after the first was applied,
// which the reservation does not notice, since product, status and expiry are as
// they were.
module Overcredit {
  import opened Options
  import opened Calendar
  import opened Tables
  import opened Machine
  import opened Witness
  import Entitlements
  import Proration
  import Changes
  import Pricing

  // The first change of a service, or the next: reserved, claimed and applied.
  function Asks(token: string, snapshot: Service, r: Changes.Request, c: Id): seq<Op> {
    [ProductChange(ReserveChange(0, 0, token, snapshot, r)), ProductChange(ClaimChange(c)),
     ProductChange(FinishChange(c, true))]
  }

  function Applied(x: Service, q: Changes.Offer): Service {
    x.(product := q.product, price := q.price, options := q.options)
  }

  function Row(token: string, x: Service, q: Changes.Offer): Change {
    Changes.NewChange(0, 0, token, q, x.price).(status := ChangeApplied)
  }

  // Nothing but the reservation's own conditions stands against the change.
  ghost predicate Changeable(d: Db, token: string, snapshot: Service) {
    && |d.services| == 1 && |d.bank.balances| == 1 && d.intents == [] && d.invoices == [BILL.(status := InvoicePaid)]
    && (forall c :: 0 <= c < |d.changes| ==> d.changes[c].token != token)
    && var x := d.services[0];
       && x.user == 0 && x.change.None? && x.status == ServiceActive && x.expires.Some?
       && snapshot.product == x.product && snapshot.status == x.status && snapshot.expires == x.expires
  }

  lemma Holds(d: Db, token: string, snapshot: Service, r: Changes.Request, q: Changes.Offer) returns (e: Db)
    requires Changeable(d, token, snapshot) && Changes.OfferFor(r) == Some(q) && d.bank.balances[0] >= q.charge
    ensures Step(d, ProductChange(ReserveChange(0, 0, token, snapshot, r))) == e
    ensures e.bank.balances == [d.bank.balances[0] - q.charge]
    ensures e == d.(bank := e.bank, changes := d.changes + [Changes.NewChange(0, 0, token, q, d.services[0].price)],
                    services := [d.services[0].(change := Some(|d.changes|))])
  {
    assert !Changes.Fenced(d, 0) && !Changes.TokenUsed(d, 0, token);
    hide Changes.Fenced, Changes.TokenUsed, Changes.OfferFor, Changes.NewChange;
    e := Changes.Hold(d, 0, 0, token, snapshot, q).value;
  }

  lemma Finishes(d: Db, c: Id, x: Change, s: Service)
    returns (e: Db, f: Db)
    requires |d.services| == 1 == |d.bank.balances| && |d.changes| == c + 1 && d.changes[c] == x && d.services == [s]
    requires x.service == 0 == x.user && x.status == ChangeReserved && s.change == Some(c) && d.bank.balances[0] >= 0
    ensures Step(d, ProductChange(ClaimChange(c))) == e && Step(e, ProductChange(FinishChange(c, true))) == f
    ensures f.bank.balances == [d.bank.balances[0] + x.credit]
    ensures f == d.(bank := f.bank, changes := d.changes[c := x.(status := ChangeApplied)],
                    services := [s.(change := None, product := x.product, price := x.price, options := x.options)])
  {
    e := Changes.Claim(d, c).value;
    f := Changes.Finish(e, c, true).value;
    assert e.changes[c := x.(status := ChangeApplied)] == d.changes[c := x.(status := ChangeApplied)];
  }

  lemma Changed(ops: seq<Op>, d: Db, token: string, snapshot: Service, r: Changes.Request, q: Changes.Offer)
    returns (e: Db)
    requires Leads(ops, d) && Changeable(d, token, snapshot) && Changes.OfferFor(r) == Some(q)
    requires d.bank.balances[0] >= q.charge
    ensures Leads(ops + Asks(token, snapshot, r, |d.changes|), e)
    ensures e.bank.balances == [d.bank.balances[0] - q.charge + q.credit]
    ensures e == d.(bank := e.bank, services := [Applied(d.services[0], q)],
                    changes := d.changes + [Row(token, d.services[0], q)])
  {
    hide Leads, Step, Changes.OfferFor;
    var c := |d.changes|;
    var a := Holds(d, token, snapshot, r, q);
    var b, f := Finishes(a, c, a.changes[c], a.services[0]);
    LeadsOn(ops, d, token, snapshot, r, c, a, b, f);
    assert a.changes[c := Row(token, d.services[0], q)] == d.changes + [Row(token, d.services[0], q)];
    e := f;
  }

  lemma LeadsOn(ops: seq<Op>, d: Db, token: string, snapshot: Service, r: Changes.Request, c: Id, a: Db, b: Db, e: Db)
    requires Leads(ops, d) && Step(d, ProductChange(ReserveChange(0, 0, token, snapshot, r))) == a
    requires Step(a, ProductChange(ClaimChange(c))) == b && Step(b, ProductChange(FinishChange(c, true))) == e
    ensures Leads(ops + Asks(token, snapshot, r, c), e)
  {
    hide Leads, Step;
    var all := Asks(token, snapshot, r, c);
    Further(ops, d, all[0], a);
    Further(ops + [all[0]], a, all[1], b);
    Further(ops + [all[0]] + [all[1]], b, all[2], e);
    assert ops + [all[0]] + [all[1]] + [all[2]] == ops + all;
  }

  function Asked(x: Service, target: int): Changes.Request { Changes.Request(x, 0, target, 0, map[], 0) }

  // One whole month is to go, so a change costs the difference.
  lemma WholeMonth(e: Instant)
    requires e == Calendar.AddMonths(0, 1)
    ensures e > 0 && Proration.CycleSeconds(e, Monthly) == e
  {
    hide Calendar.AddMonths, Calendar.MonthsBack, Calendar.DayOfMonth;
    EpochIsFirst();
    Calendar.WalkBackInvertsAdvance(0, Monthly);
    Calendar.AddMonthsGrows(0, 1);
  }

  lemma EpochIsFirst()
    ensures Calendar.DayOfMonth(0) <= 28
  {
  }

  lemma Offered(x: Service, target: nat)
    requires x.status == ServiceActive && x.cycle == Monthly && x.expires == Some(Calendar.AddMonths(0, 1))
    requires x.price <= 100 && target <= 100
    ensures Changes.OfferFor(Asked(x, target)) == Some(Changes.Offer(
              0, if target > x.price then target - x.price else 0, if x.price > target then x.price - target else 0,
              target, map[], x.price, Monthly, x.expires.value, 0))
  {
    hide Calendar.AddMonths, Proration.TermsFor;
    WholeTerms(x.expires.value, x.price, target);
  }

  lemma WholeTerms(e: Instant, from: nat, to: nat)
    requires e == Calendar.AddMonths(0, 1) && from <= 100 && to <= 100
    ensures Proration.TermsFor(true, Some(e), Monthly, from, to, 0, 0)
         == Some(Proration.Terms(if to > from then to - from else 0, if from > to then from - to else 0, to))
  {
    hide Calendar.AddMonths, Proration.CycleSeconds, Proration.Share;
    WholeMonth(e);
    Proration.NetIsDifference(from, to, e);
    hide Proration.NetCharge;
  }

  function Low(): Changes.Offer { Changes.Offer(0, 0, 90, 10, map[], 100, Monthly, Calendar.AddMonths(0, 1), 0) }

  function High(): Changes.Offer { Changes.Offer(0, 90, 0, 100, map[], 10, Monthly, Calendar.AddMonths(0, 1), 0) }

  function Cheap(): Service { Applied(Bought(false), Low()) }

  // What the three changes leave.
  function Rows(): seq<Change> {
    [Row("a", Bought(false), Low()), Row("b", Cheap(), Low()), Row("c", Cheap(), High())]
  }

  lemma QuotesLow()
    ensures Changes.OfferFor(Asked(Bought(false), 10)) == Some(Low())
  {
    hide Calendar.AddMonths, Changes.OfferFor;
    Offered(Bought(false), 10);
  }

  lemma QuotesHigh()
    ensures Changes.OfferFor(Asked(Cheap(), 100)) == Some(High())
  {
    hide Calendar.AddMonths, Changes.OfferFor;
    Offered(Cheap(), 100);
  }

  const PAID: seq<Op> := BUYS + [Sale(CreateOrder(0, [Item(false)], 0)), Sale(PayOrder(0, 0, 0, 0))]

  const FIRST: seq<Op> := PAID + Asks("a", Bought(false), Asked(Bought(false), 10), 0)

  const SECOND: seq<Op> := FIRST + Asks("b", Bought(false), Asked(Bought(false), 10), 1)

  const THIRD: seq<Op> := SECOND + Asks("c", Cheap(), Asked(Cheap(), 100), 2)

  lemma ChangesOnce(d: Db) returns (e: Db)
    requires d == E4(false) && Leads(PAID, d)
    ensures Leads(FIRST, e) && e.bank.balances == [90]
    ensures e == d.(bank := e.bank, services := [Cheap()], changes := Rows()[..1])
  {
    QuotesLow();
    hide Leads, Changes.OfferFor, Calendar.AddMonths;
    e := Changed(PAID, d, "a", Bought(false), Asked(Bought(false), 10), Low());
  }

  lemma ChangesAgain(d: Db) returns (e: Db)
    requires Leads(FIRST, d) && d == E4(false).(bank := d.bank, services := [Cheap()], changes := Rows()[..1])
    requires d.bank.balances == [90]
    ensures Leads(SECOND, e) && e.bank.balances == [180]
    ensures e == d.(bank := e.bank, services := [Cheap()], changes := Rows()[..2])
  {
    QuotesLow();
    hide Leads, Changes.OfferFor, Calendar.AddMonths;
    e := Changed(FIRST, d, "b", Bought(false), Asked(Bought(false), 10), Low());
    assert Applied(Cheap(), Low()) == Cheap();
  }

  lemma ChangesBack(d: Db) returns (e: Db)
    requires Leads(SECOND, d) && d == E4(false).(bank := d.bank, services := [Cheap()], changes := Rows()[..2])
    requires d.bank.balances == [180]
    ensures Leads(THIRD, e) && e.bank.balances == [90]
    ensures |e.services| == 1 && e.services[0].price == 100 && e.changes == Rows()
  {
    QuotesHigh();
    hide Leads, Changes.OfferFor, Calendar.AddMonths;
    e := Changed(SECOND, d, "c", Cheap(), Asked(Cheap(), 100), High());
  }

  // Both requests for the cheaper product were quoted when the service cost 100. The
  // second is applied to a service that costs 10 already, and credits 90 once more;
  // going back up costs 90 once.
  lemma CreditedTwice()
    ensures Entitlements.GuardedRun(EMPTY, THIRD)
    ensures var d := Run(EMPTY, THIRD);
            && d.bank.balances == [90] && |d.services| == 1 && d.services[0].price == 100
            && var xs := Pricing.AppliedOf(d.changes, 0);
               && |xs| == 3 && xs[0].basis.held == 100 == xs[2].price && Pricing.Costs(xs) == -90
               && Pricing.Fresh(xs[0]) && !Pricing.Fresh(xs[1]) && Pricing.Fresh(xs[2])
  {
    LeadsToPaid(false);
    hide Leads, Changes.OfferFor;
    var d := ChangesOnce(E4(false));
    var e := ChangesAgain(d);
    var f := ChangesBack(e);
    LeadsMeans(THIRD, f);
    hide Run, Entitlements.GuardedRun, E4;
    ThreeChanges(Rows());
  }

  lemma LeadsMeans(ops: seq<Op>, d: Db)
    requires Leads(ops, d)
    ensures Entitlements.GuardedRun(EMPTY, ops) && Run(EMPTY, ops) == d
  {
  }

  lemma ThreeChanges(xs: seq<Change>)
    requires |xs| == 3 && forall i :: 0 <= i < 3 ==> xs[i].service == 0 && xs[i].status == ChangeApplied
    ensures Pricing.AppliedOf(xs, 0) == xs
    ensures Pricing.Costs(xs) == Pricing.Cost(xs[0]) + Pricing.Cost(xs[1]) + Pricing.Cost(xs[2])
  {
    assert xs[..2][..1][..0] == [] && xs[..2][..1] == [xs[0]] && xs[..2] == [xs[0], xs[1]];
    assert Pricing.AppliedOf(xs[..2][..1][..0], 0) == [];
    assert Pricing.AppliedOf(xs[..2][..1], 0) == [xs[0]];
    assert Pricing.AppliedOf(xs[..2], 0) == [xs[0], xs[1]];
    assert Pricing.Costs(xs[..2][..1][..0]) == 0;
    assert Pricing.Costs(xs[..2][..1]) == Pricing.Cost(xs[0]);
    assert Pricing.Costs(xs[..2]) == Pricing.Cost(xs[0]) + Pricing.Cost(xs[1]);
  }
}
