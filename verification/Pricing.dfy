// What the product changes of a service have cost together, over any run. A change
// costs the prorated difference from the price its quote read, which the
// reservation does not compare with the price the service has by then.
module Pricing {
  import opened Options
  import opened Calendar
  import opened Sums
  import opened Tables
  import opened Targets
  import opened Machine
  import opened Integrity
  import opened Obligations
  import opened Proration
  import Wallet
  import Orders
  import Billing
  import Payments
  import Changes
  import Refunds
  import Affiliates
  import Reservations

  // What stayed with the site, or went to the customer.
  function Cost(x: Change): int { x.charge - x.credit }

  function Remaining(x: Change): int { x.basis.expires - x.basis.at }

  function CycleOf(x: Change): int { CycleSeconds(x.basis.expires, x.basis.cycle) }

  // The quote was computed from the price the service had when it was reserved.
  predicate Fresh(x: Change) { x.basis.from == x.basis.held }

  // A change costs what its quote says.
  ghost predicate Quoted(x: Change) {
    && Remaining(x) > 0 && CycleOf(x) > 0
    && Cost(x) == NetCharge(x.basis.from, x.price, Remaining(x), CycleOf(x))
    && (x.charge == 0 || x.credit == 0)
  }

  // The applied changes of a service, in the order in which they were made.
  function AppliedOf(changes: seq<Change>, s: Id): seq<Change> {
    if |changes| == 0 then []
    else
      var rest, x := AppliedOf(changes[..|changes| - 1], s), changes[|changes| - 1];
      if x.service == s && x.status == ChangeApplied then rest + [x] else rest
  }

  // Each change starts from the price that the one before it left.
  ghost predicate Linked(xs: seq<Change>) {
    forall i :: 0 < i < |xs| ==> xs[i].basis.held == xs[i - 1].price
  }

  ghost predicate PathTo(xs: seq<Change>, price: int) {
    Linked(xs) && (|xs| > 0 ==> xs[|xs| - 1].price == price)
  }

  // Only the last change of a service can be open, and the price has not moved
  // since it was reserved.
  ghost predicate OpenIsLast(changes: seq<Change>) {
    forall b, c :: 0 <= b < c < |changes| && changes[b].service == changes[c].service ==>
      !Changes.Open(changes[b].status)
  }

  ghost predicate OpenHolds(services: seq<Service>, changes: seq<Change>) {
    forall c :: 0 <= c < |changes| && Changes.Open(changes[c].status) ==>
      (changes[c].service < |services| && services[changes[c].service].price == changes[c].basis.held)
  }

  ghost predicate Paths(services: seq<Service>, changes: seq<Change>) {
    forall s :: 0 <= s < |services| ==> PathTo(AppliedOf(changes, s), services[s].price)
  }

  ghost predicate AllQuoted(changes: seq<Change>) {
    forall c :: 0 <= c < |changes| ==> Quoted(changes[c])
  }

  ghost predicate Priced(services: seq<Service>, changes: seq<Change>) {
    AllQuoted(changes) && OpenIsLast(changes) && OpenHolds(services, changes) && Paths(services, changes)
  }

  // ----- steps that are no change of product -----

  predicate SamePrice(x: Service, y: Service) { y.price == x.price && y.change == x.change }

  ghost predicate PricesStay(before: seq<Service>, after: seq<Service>) {
    |before| <= |after| && forall s :: 0 <= s < |before| ==> SamePrice(before[s], after[s])
  }

  lemma AllStay(services: seq<Service>)
    ensures PricesStay(services, services)
  {
  }

  lemma SettleOrderStay(d: Db, user: Id, o: Id, now: Instant, rate: nat)
    ensures var r := Orders.Settle(d, user, o, now, rate); r.Some? ==> PricesStay(d.services, r.value.services)
  {
  }

  lemma RenewStay(d: Db, user: Id, s: Id, now: Instant, debit: bool)
    ensures var r := Billing.Renew(d, user, s, now, debit); r.Some? ==> PricesStay(d.services, r.value.services)
  {
    hide AddMonths;
  }

  lemma SettleInvoiceStay(d: Db, user: Id, i: Id, now: Instant, rate: nat, price: Option<int>)
    ensures var r := Billing.SettleInvoice(d, user, i, now, rate, price);
            r.Some? ==> PricesStay(d.services, r.value.services)
  {
    hide Orders.Settle, AddMonths;
    var r := Billing.SettleInvoice(d, user, i, now, rate, price);
    if r.Some? && d.invoices[i].order.Some? { SettleOrderStay(d, user, d.invoices[i].order.value, now, rate); }
  }

  lemma SettleTargetStay(d: Db, user: Id, purpose: Purpose, target: Id, now: Instant, rate: nat, price: Option<int>)
    ensures var r := Payments.SettleTarget(d, user, purpose, target, now, rate, price);
            r.Some? ==> PricesStay(d.services, r.value.services)
  {
    hide Orders.Settle, Billing.SettleInvoice, Billing.Renew;
    match purpose
    case ForRecharge =>
    case ForOrder => SettleOrderStay(d, user, target, now, rate);
    case ForInvoice => SettleInvoiceStay(d, user, target, now, rate, price);
    case ForRenewal => RenewStay(d, user, target, now, false);
  }

  lemma SaleStay(d: Db, op: OrderOp)
    ensures var r := DoSale(d, op); r.Some? ==> PricesStay(d.services, r.value.services)
  {
    hide Orders.Settle, PricesStay, Busy;
    AllStay(d.services);
    match op
    case PayOrder(user, o, now, rate) =>
      if Orders.Pay(d, user, o, now, rate).Some? {
        SettleOrderStay(Wallet.Debit(d, user, d.orders[o].total, OrderDebit(o)).value, user, o, now, rate);
      }
    case _ =>
  }

  lemma BillStay(d: Db, op: BillingOp)
    ensures var r := DoBill(d, op); r.Some? ==> PricesStay(d.services, r.value.services)
  {
    hide Billing.Renew, Busy, AddMonths;
    match op
    case RenewNow(user, s, now) => RenewStay(d, user, s, now, true);
    case _ =>
  }

  lemma PaymentStay(d: Db, op: PaymentOp)
    ensures var r := DoPayment(d, op); r.Some? ==> PricesStay(d.services, r.value.services)
  {
    hide Payments.SettleTarget, Billing.SettleInvoice, PricesStay, Busy, Payable, KeyTaken;
    AllStay(d.services);
    var r := DoPayment(d, op);
    match op
    case SettleInvoice(user, i, now, rate, price) =>
      if r.Some? {
        SettleInvoiceStay(Wallet.Debit(d, user, d.invoices[i].total, InvoiceDebit(i)).value, user, i, now, rate, price);
      }
    case CreateIntent(user, purpose, target, total, wish, quoted, now, rate, price) =>
      if r.Some? {
        var balance := Payments.WalletPart(total, wish);
        var key := if purpose == ForRecharge then None else LoadTarget(d, user, purpose, target);
        var e := Wallet.Debit(d, user, balance, IntentDebit(purpose, target)).value;
        var x := Intent(user, purpose, target, total - balance, balance, IntentPending, key, 0);
        SettleTargetStay(e.(intents := e.intents + [x]), user, purpose, target, now, rate, price);
      }
    case Finalize(i, paid, now, rate, price) =>
      if r.Some? && d.intents[i].status == IntentPending {
        SettleTargetStay(d, d.intents[i].user, d.intents[i].purpose, d.intents[i].target, now, rate, price);
      }
    case _ =>
  }

  lemma RefundStay(d: Db, op: RefundOp)
    ensures var r := DoRefund(d, op); r.Some? ==> PricesStay(d.services, r.value.services)
  {
    hide Refunds.Complete, PricesStay;
    AllStay(d.services);
    if op.CompleteRefund? { CompleteStay(d, op.execution); }
  }

  lemma CompleteStay(d: Db, e: Id)
    ensures var r := Refunds.Complete(d, e); r.Some? ==> PricesStay(d.services, r.value.services)
  {
    hide Affiliates.ReverseBy;
  }

  lemma OthersStay(d: Db, op: Op)
    requires !op.ProductChange?
    ensures PricesStay(d.services, Step(d, op).services) && Step(d, op).changes == d.changes
  {
    hide PricesStay, DoSale, DoBill, DoPayment, DoRefund;
    AllStay(d.services);
    Reservations.OthersAside(d, op);
    match op
    case Account(_) =>
    case Sale(s) => SaleStay(d, s);
    case Bill(b) => BillStay(d, b);
    case Payment(p) => PaymentStay(d, p);
    case Repay(x) => RefundStay(d, x);
    case Share(_) =>
  }

  // ----- the steps of a change -----

  lemma {:induction false} NothingApplied(changes: seq<Change>, s: Id)
    requires forall c :: 0 <= c < |changes| ==> changes[c].service != s
    ensures AppliedOf(changes, s) == []
  {
    if |changes| > 0 { NothingApplied(changes[..|changes| - 1], s); }
  }

  // A change that is open, and the last of its service, moves.
  lemma {:induction false} AppliedMoves(changes: seq<Change>, c: Id, y: Change, s: Id)
    requires c < |changes| && changes[c].status != ChangeApplied && y.service == changes[c].service
    requires forall b :: c < b < |changes| ==> changes[b].service != changes[c].service
    ensures AppliedOf(changes[c := y], s)
         == AppliedOf(changes, s) + if y.service == s && y.status == ChangeApplied then [y] else []
  {
    var n := |changes| - 1;
    if c < n {
      assert changes[c := y][..n] == changes[..n][c := y];
      AppliedMoves(changes[..n], c, y, s);
    } else {
      assert changes[c := y][..n] == changes[..n];
    }
  }

  lemma OfferIsQuoted(r: Changes.Request, user: Id, s: Id, token: string, held: nat)
    requires Changes.OfferFor(r).Some?
    ensures Quoted(Changes.NewChange(user, s, token, Changes.OfferFor(r).value, held))
  {
    var x := r.quoted;
    CycleIsPositive(x.expires.value, x.cycle);
    hide CycleSeconds, NetCharge;
  }

  lemma HoldPriced(d: Db, user: Id, s: Id, token: string, snapshot: Service, q: Changes.Offer)
    requires Reserved(d.services, d.changes) && Priced(d.services, d.changes)
    requires Quoted(Changes.NewChange(user, s, token, q, if s < |d.services| then d.services[s].price else 0))
    ensures var r := Changes.Hold(d, user, s, token, snapshot, q); r.Some? ==> Priced(r.value.services, r.value.changes)
  {
    hide Changes.Fenced, Changes.TokenUsed, Quoted;
    var r := Changes.Hold(d, user, s, token, snapshot, q);
    if r.Some? {
      var n, e := |d.changes|, r.value;
      var x := Changes.NewChange(user, s, token, q, d.services[s].price);
      assert e.changes == d.changes + [x] && e.changes[..n] == d.changes;
      assert e.services == d.services[s := d.services[s].(change := Some(n))];
      forall b | 0 <= b < n && d.changes[b].service == s ensures !Changes.Open(d.changes[b].status) {
        assert ChangeHeld(d.services, d.changes, b);
      }
      AddedPriced(d.services, d.changes, s, x, e.services);
    }
  }

  lemma AddedPriced(services: seq<Service>, changes: seq<Change>, s: Id, x: Change, after: seq<Service>)
    requires Priced(services, changes) && s < |services| && x.service == s && x.status == ChangeReserved && Quoted(x)
    requires x.basis.held == services[s].price && |after| == |services|
    requires forall t :: 0 <= t < |services| ==> after[t].price == services[t].price
    requires forall b :: 0 <= b < |changes| && changes[b].service == s ==> !Changes.Open(changes[b].status)
    ensures Priced(after, changes + [x])
  {
    hide Quoted, PathTo;
    var all := changes + [x];
    assert all[..|changes|] == changes;
    forall t | 0 <= t < |after| ensures PathTo(AppliedOf(all, t), after[t].price) {
      assert AppliedOf(all, t) == AppliedOf(changes, t);
    }
  }

  lemma MovedPriced(services: seq<Service>, changes: seq<Change>, c: Id, status: ChangeStatus, after: seq<Service>)
    requires Priced(services, changes) && c < |changes| && Changes.Open(changes[c].status)
    requires |after| == |services| && changes[c].service < |services|
    requires forall t :: 0 <= t < |services| && t != changes[c].service ==> after[t].price == services[t].price
    requires var x := changes[c];
             after[x.service].price == if status == ChangeApplied then x.price else services[x.service].price
    ensures Priced(after, changes[c := changes[c].(status := status)])
  {
    hide Quoted, PathTo;
    var x, y := changes[c], changes[c].(status := status);
    var moved := changes[c := y];
    assert Quoted(y) by { SameQuote(x, y); }
    assert OpenIsLast(moved) by { hide AllQuoted, OpenHolds, Paths; }
    assert OpenHolds(after, moved) by { hide AllQuoted, Paths; }
    forall t | 0 <= t < |after| ensures PathTo(AppliedOf(moved, t), after[t].price) {
      hide AllQuoted;
      assert PathTo(AppliedOf(changes, t), services[t].price);
      AppliedMoves(changes, c, y, t);
      hide AppliedOf, OpenIsLast, Paths;
      var xs := AppliedOf(changes, t);
      if x.service == t {
        PathGrows(xs, services[t].price, y, after[t].price);
      } else {
        assert AppliedOf(moved, t) == xs + [] == xs;
      }
    }
  }

  // A change that is applied starts where the path has led so far.
  lemma PathGrows(xs: seq<Change>, price: int, y: Change, after: int)
    requires PathTo(xs, price) && y.basis.held == price
    requires after == if y.status == ChangeApplied then y.price else price
    ensures PathTo(xs + if y.status == ChangeApplied then [y] else [], after)
  {
    if y.status != ChangeApplied { assert xs + [] == xs; }
  }

  lemma SameQuote(x: Change, y: Change)
    requires Quoted(x) && y == x.(status := y.status)
    ensures Quoted(y)
  {
  }

  lemma RestatusPriced(d: Db, c: Id, status: ChangeStatus)
    requires Priced(d.services, d.changes) && c < |d.changes| && Changes.Open(d.changes[c].status)
      && Changes.Open(status)
    ensures Priced(d.services, Changes.Restatus(d, c, status).changes)
  {
    MovedPriced(d.services, d.changes, c, status, d.services);
  }

  lemma FinishPriced(d: Db, c: Id, applied: bool)
    requires Priced(d.services, d.changes)
    ensures var r := Changes.Finish(d, c, applied); r.Some? ==> Priced(r.value.services, r.value.changes)
  {
    hide Priced;
    var r := Changes.Finish(d, c, applied);
    if r.Some? {
      MovedPriced(d.services, d.changes, c, if applied then ChangeApplied else ChangeFailed, r.value.services);
    }
  }

  lemma ChangePriced(d: Db, op: ChangeOp)
    requires Reserved(d.services, d.changes) && Priced(d.services, d.changes)
    ensures var r := DoChange(d, op); r.Some? ==> Priced(r.value.services, r.value.changes)
  {
    hide Reserved, Priced, Quoted, Changes.Hold, Changes.Finish, Changes.OfferFor;
    match op
    case ReserveChange(user, s, token, snapshot, request) =>
      var q := Changes.OfferFor(request);
      if q.Some? {
        OfferIsQuoted(request, user, s, token, if s < |d.services| then d.services[s].price else 0);
        HoldPriced(d, user, s, token, snapshot, q.value);
      }
    case ClaimChange(c) => if Changes.Claim(d, c).Some? { RestatusPriced(d, c, ChangeApplying); }
    case DoubtChange(c) => if Changes.Doubt(d, c).Some? { RestatusPriced(d, c, ChangeUncertain); }
    case FinishChange(c, applied) => FinishPriced(d, c, applied);
  }

  lemma OthersPriced(d: Db, e: Db)
    requires Sound(d) && Priced(d.services, d.changes) && PricesStay(d.services, e.services) && e.changes == d.changes
    ensures Priced(e.services, e.changes)
  {
    assert forall c :: 0 <= c < |d.changes| ==> ChangeRow(d, d.changes[c]);
    hide Sound, Quoted, PathTo;
    forall s | 0 <= s < |e.services| ensures PathTo(AppliedOf(e.changes, s), e.services[s].price) {
      if s >= |d.services| {
        NothingApplied(e.changes, s);
        EmptyPath(e.services[s].price);
      }
    }
  }

  lemma EmptyPath(price: int)
    ensures PathTo([], price)
  {
  }

  lemma StepPriced(d: Db, op: Op)
    requires Sound(d) && Consistent(d) && Priced(d.services, d.changes)
    ensures Priced(Step(d, op).services, Step(d, op).changes)
  {
    assert Reserved(d.services, d.changes);
    hide Sound, ConsistentBut, Reserved, Priced, PricesStay, DoAccount, DoSale, DoBill, DoPayment, DoChange, DoRefund,
      DoShare;
    if op.ProductChange? {
      ChangePriced(d, op.change);
    } else {
      OthersStay(d, op);
      OthersPriced(d, Step(d, op));
    }
  }

  // ----- chains of applied changes -----

  function PricesThrough(xs: seq<Change>): seq<int>
    requires |xs| > 0
  {
    [xs[0].basis.held] + seq(|xs|, i requires 0 <= i < |xs| => xs[i].price)
  }

  function Costs(xs: seq<Change>): int { Sum(xs, (x: Change) => Cost(x)) }

  // How far the cost of a change is from that of changing from the price the
  // service had.
  function Slip(x: Change, remaining: nat, cycle: int): int
    requires cycle > 0
  {
    Cost(x) - NetCharge(x.basis.held, x.price, remaining, cycle)
  }

  function Slips(xs: seq<Change>, remaining: nat, cycle: int): int
    requires cycle > 0
  {
    if |xs| == 0 then 0 else Slips(xs[..|xs| - 1], remaining, cycle) + Slip(xs[|xs| - 1], remaining, cycle)
  }

  // Quoted at one instant, for one expiry and one cycle.
  ghost predicate AtOnce(xs: seq<Change>, remaining: nat, cycle: int) {
    forall i :: 0 <= i < |xs| ==> Quoted(xs[i]) && Remaining(xs[i]) == remaining && CycleOf(xs[i]) == cycle
  }

  // The changes cost what the chain of the service's own prices would, and the slips.
  lemma {:induction false} CostsAreChainAndSlips(xs: seq<Change>, remaining: nat, cycle: int)
    requires |xs| > 0 && cycle > 0 && Linked(xs)
    ensures Costs(xs) == ChainNet(PricesThrough(xs), remaining, cycle) + Slips(xs, remaining, cycle)
  {
    hide NetCharge;
    var n := |xs| - 1;
    var prices := PricesThrough(xs);
    assert prices[n + 1] == xs[n].price;
    if n > 0 {
      CostsAreChainAndSlips(xs[..n], remaining, cycle);
      assert prices[..n + 1] == PricesThrough(xs[..n]) && prices[n] == xs[n].basis.held;
    } else {
      assert prices[..1] == [xs[0].basis.held] && ChainNet(prices[..1], remaining, cycle) == 0;
      assert xs[..0] == [] && Costs(xs[..0]) == 0;
    }
  }

  lemma {:induction false} FreshDoesNotSlip(xs: seq<Change>, remaining: nat, cycle: int)
    requires cycle > 0 && AtOnce(xs, remaining, cycle) && forall i :: 0 <= i < |xs| ==> Fresh(xs[i])
    ensures Slips(xs, remaining, cycle) == 0
  {
    if |xs| > 0 { FreshDoesNotSlip(xs[..|xs| - 1], remaining, cycle); }
  }

  // With a whole cycle or more to go, another price costs something else.
  lemma SlipsUnlessFresh(x: Change, remaining: nat, cycle: int)
    requires 0 < cycle <= remaining && Quoted(x) && Remaining(x) == remaining && CycleOf(x) == cycle
    ensures Slip(x, remaining, cycle) == 0 <==> Fresh(x)
  {
    hide NetCharge;
    if x.basis.from < x.basis.held { Steeper(x.basis.from, x.basis.held, x.price, remaining, cycle); }
    if x.basis.held < x.basis.from { Steeper(x.basis.held, x.basis.from, x.price, remaining, cycle); }
  }

  lemma {:induction false} SlipsUpTo(xs: seq<Change>, remaining: nat, cycle: int)
    requires cycle > 0
    ensures (forall k :: 0 <= k <= |xs| ==> Slips(xs[..k], remaining, cycle) == 0)
       <==> (forall i :: 0 <= i < |xs| ==> Slip(xs[i], remaining, cycle) == 0)
  {
    hide Slip;
    if |xs| > 0 {
      var n := |xs| - 1;
      SlipsUpTo(xs[..n], remaining, cycle);
      assert xs[..n + 1] == xs;
      assert forall k :: 0 <= k <= n ==> xs[..n][..k] == xs[..k];
      if forall k :: 0 <= k <= |xs| ==> Slips(xs[..k], remaining, cycle) == 0 {
        assert forall k :: 0 <= k <= n ==> Slips(xs[..n][..k], remaining, cycle) == 0;
        assert Slips(xs[..n + 1], remaining, cycle) == 0 && Slips(xs[..n], remaining, cycle) == 0;
        forall i | 0 <= i < |xs| ensures Slip(xs[i], remaining, cycle) == 0 { assert i < n ==> xs[..n][i] == xs[i]; }
      }
      if forall i :: 0 <= i < |xs| ==> Slip(xs[i], remaining, cycle) == 0 {
        forall k | 0 <= k <= |xs| ensures Slips(xs[..k], remaining, cycle) == 0 {
          assert k <= n ==> Slips(xs[..n][..k], remaining, cycle) == 0;
        }
      }
    }
  }

  // While a whole cycle or more is to go, the changes cost at every point what the
  // chain of the service's prices would, exactly when each was quoted from the
  // price that the service had when it was reserved.
  lemma ChainIffFresh(xs: seq<Change>, remaining: nat, cycle: int)
    requires 0 < cycle <= remaining && Linked(xs) && AtOnce(xs, remaining, cycle)
    ensures (forall k :: 0 < k <= |xs| ==> Costs(xs[..k]) == ChainNet(PricesThrough(xs[..k]), remaining, cycle))
       <==> (forall i :: 0 <= i < |xs| ==> Fresh(xs[i]))
  {
    hide ChainNet, NetCharge, Slip, Costs, PricesThrough;
    forall k | 0 < k <= |xs|
      ensures Costs(xs[..k]) == ChainNet(PricesThrough(xs[..k]), remaining, cycle) + Slips(xs[..k], remaining, cycle)
    {
      CostsAreChainAndSlips(xs[..k], remaining, cycle);
    }
    SlipsUpTo(xs, remaining, cycle);
    assert xs[..0] == [] && Slips(xs[..0], remaining, cycle) == 0;
    hide Slips;
    forall i | 0 <= i < |xs| ensures Slip(xs[i], remaining, cycle) == 0 <==> Fresh(xs[i]) {
      SlipsUnlessFresh(xs[i], remaining, cycle);
    }
  }

  // And if they were, a chain that returns to its price cannot be farmed, however
  // little is left to go.
  lemma FreshClosedChain(xs: seq<Change>, remaining: nat, cycle: int)
    requires |xs| > 0 && cycle > 0 && Linked(xs) && AtOnce(xs, remaining, cycle)
    requires (forall i :: 0 <= i < |xs| ==> Fresh(xs[i])) && xs[|xs| - 1].price == xs[0].basis.held
    ensures -|xs| < Costs(xs) < |xs|
  {
    CostsAreChainAndSlips(xs, remaining, cycle);
    FreshDoesNotSlip(xs, remaining, cycle);
    hide ChainNet;
    ClosedChain(PricesThrough(xs), remaining, cycle);
  }

  // The reservation is where it is decided.
  lemma ReservesFresh(d: Db, user: Id, s: Id, token: string, snapshot: Service, request: Changes.Request)
    requires Changes.Reserve(d, user, s, token, snapshot, request).Some?
    ensures var e := Changes.Reserve(d, user, s, token, snapshot, request).value;
            && s < |d.services| && |e.changes| == |d.changes| + 1 && e.changes[|d.changes|].service == s
            && (Fresh(e.changes[|d.changes|]) <==> request.quoted.price == d.services[s].price)
  {
    hide Changes.Fenced, Changes.TokenUsed, Proration.TermsFor;
  }

  lemma {:induction false} AppliedAreRows(changes: seq<Change>, s: Id)
    ensures forall x :: x in AppliedOf(changes, s) ==> x in changes && x.service == s && x.status == ChangeApplied
  {
    if |changes| > 0 { AppliedAreRows(changes[..|changes| - 1], s); }
  }

  // Changes of a service that were applied one after the other, all quoted at one
  // instant.
  ghost predicate Chain(d: Db, s: Id, i: nat, j: nat, remaining: nat, cycle: int) {
    && s < |d.services| && i < j <= |AppliedOf(d.changes, s)| && cycle > 0
    && forall k :: i <= k < j ==>
      Remaining(AppliedOf(d.changes, s)[k]) == remaining && CycleOf(AppliedOf(d.changes, s)[k]) == cycle
  }

  lemma ChainIsLinked(d: Db, s: Id, i: nat, j: nat, remaining: nat, cycle: int)
    requires Priced(d.services, d.changes) && Chain(d, s, i, j, remaining, cycle)
    ensures var xs := AppliedOf(d.changes, s)[i..j]; Linked(xs) && AtOnce(xs, remaining, cycle)
  {
    AppliedAreRows(d.changes, s);
    var all := AppliedOf(d.changes, s);
    assert PathTo(all, d.services[s].price);
    hide Quoted, AppliedOf;
    forall k | i <= k < j ensures Quoted(all[k]) { assert all[k] in all; }
  }
}
