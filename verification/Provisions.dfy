// What is paid for is provided, once: a settled order has one service for each
// unit of each line, and a service has the traffic of its paid packs.
module Provisions {
  import opened Options
  import opened Calendar
  import opened Sums
  import opened Tables
  import opened Targets
  import opened Machine
  import opened Integrity
  import Obligations
  import Wallet
  import Orders
  import Billing
  import Payments
  import Changes
  import Refunds
  import Payouts
  import Transitions

  function Units(lines: seq<Line>): nat {
    if |lines| == 0 then 0 else Units(lines[..|lines| - 1]) + lines[|lines| - 1].quantity
  }

  function OfOrder(o: Id): Service -> int { (x: Service) => if x.order == o then 1 else 0 }

  function Owed(orders: seq<Order>, o: Id): int {
    if o < |orders| && !Obligations.Unsettled(orders[o].status) then Units(orders[o].lines) else 0
  }

  function TrafficOf(s: Id): Invoice -> int {
    (x: Invoice) =>
      if x.service == Some(s) && x.order.None? && x.traffic.Some? && x.status == InvoicePaid then x.traffic.value else 0
  }

  ghost predicate Delivered(orders: seq<Order>, services: seq<Service>) {
    forall o: Id :: Sum(services, OfOrder(o)) == Owed(orders, o)
  }

  ghost predicate Granted(invoices: seq<Invoice>, services: seq<Service>) {
    forall s :: 0 <= s < |services| ==> services[s].extraTraffic == Sum(invoices, TrafficOf(s))
  }

  ghost predicate Provided(d: Db) {
    Delivered(d.orders, d.services) && Granted(d.invoices, d.services)
  }

  // What is counted: a product at a price, for a cycle, with an expiry, in use at once
  // or waiting for its host.
  datatype Ware = Ware(product: Id, price: nat, cycle: Cycle, expires: Option<Instant>, waits: bool)

  // The services made for an order are what its lines say: of each ware as many as
  // the units of such lines, and worth what the lines add up to.
  function LineUnits(w: Ware, now: Instant): Line -> int {
    (x: Line) =>
      if x.product == w.product && x.price == w.price && x.cycle == w.cycle && x.upstream == w.waits
         && w.expires == AdvanceCycle(now, x.cycle)
      then x.quantity else 0
  }

  function Sold(w: Ware): Service -> int {
    (x: Service) =>
      if x.product == w.product && x.price == w.price && x.cycle == w.cycle && x.expires == w.expires
         && x.status == (if w.waits then ServicePending else ServiceActive)
      then 1 else 0
  }

  function Worth(): Service -> int { (x: Service) => x.price }

  lemma {:induction false} SumOfCopies(n: nat, x: Service, f: Service -> int)
    ensures Sum(seq(n, _ => x), f) == n * f(x)
  {
    if n > 0 {
      SumOfCopies(n - 1, x, f);
      assert seq(n, _ => x)[..n - 1] == seq(n - 1, _ => x);
      assert n * f(x) == (n - 1) * f(x) + f(x);
    }
  }

  // Whatever is added up over a line's services adds up over the lines.
  lemma {:induction false} SumOfServices(user: Id, o: Id, lines: seq<Line>, now: Instant, f: Service -> int,
                                         g: Line -> int)
    requires forall x: Line :: g(x) == x.quantity * f(Orders.NewService(user, o, x, now))
    ensures Sum(Orders.NewServices(user, o, lines, now), f) == Sum(lines, g)
  {
    hide Orders.NewService;
    if |lines| > 0 {
      var last := |lines| - 1;
      var x := lines[last];
      var more := seq(x.quantity, _ => Orders.NewService(user, o, x, now));
      SumOfServices(user, o, lines[..last], now, f, g);
      SumConcat(Orders.NewServices(user, o, lines[..last], now), more, f);
      SumOfCopies(x.quantity, Orders.NewService(user, o, x, now), f);
    }
  }

  lemma {:induction false} TotalIsSum(lines: seq<Line>)
    ensures Sum(lines, (x: Line) => x.quantity * x.price) == Orders.LinesTotal(lines)
  {
    if |lines| > 0 { TotalIsSum(lines[..|lines| - 1]); }
  }

  lemma {:induction false} UnitsIsSum(lines: seq<Line>)
    ensures Sum(lines, (x: Line) => x.quantity * 1) == Units(lines)
  {
    if |lines| > 0 { UnitsIsSum(lines[..|lines| - 1]); }
  }

  lemma ServicesMatchLines(user: Id, o: Id, lines: seq<Line>, now: Instant, w: Ware)
    ensures var rows := Orders.NewServices(user, o, lines, now);
            && Sum(rows, Sold(w)) == Sum(lines, LineUnits(w, now))
            && Sum(rows, Worth()) == Orders.LinesTotal(lines)
            && Sum(rows, OfOrder(o)) == Units(lines)
  {
    hide Orders.NewServices, Orders.LinesTotal, Units, Sum, AddMonths;
    SumOfServices(user, o, lines, now, Sold(w), LineUnits(w, now));
    SumOfServices(user, o, lines, now, Worth(), (x: Line) => x.quantity * x.price);
    SumOfServices(user, o, lines, now, OfOrder(o), (x: Line) => x.quantity * 1);
    TotalIsSum(lines);
    UnitsIsSum(lines);
  }

  // A new service lasts one cycle: it has no expiry if it was bought once and for all,
  // and otherwise expires the months of its cycle after it was paid for.
  ghost predicate LastsOneCycle(x: Service, now: Instant) {
    && (x.expires.None? <==> x.cycle == OneTime)
    && forall m: nat :: MonthsOf(x.cycle, m) ==>
         && now + 28 * m * 86400 <= x.expires.value <= now + 31 * m * 86400
         && (DayOfMonth(now) <= 28 ==> MonthsBack(x.expires.value, m) == now)
  }

  // And it starts with nothing under way.
  predicate StartsClean(x: Service, user: Id, o: Id) {
    && x.user == user && x.order == o && x.reason == NoReason && x.change.None?
    && !x.autoRenew && x.extraTraffic == 0 && !x.hosted
  }

  lemma NewServiceLasts(user: Id, o: Id, x: Line, now: Instant)
    ensures var r := Orders.NewService(user, o, x, now);
            LastsOneCycle(r, now) && StartsClean(r, user, o)
  {
    hide AddMonths, MonthsBack, DayOfMonth;
    forall m: nat | MonthsOf(x.cycle, m)
      ensures var t := AdvanceCycle(now, x.cycle);
              && t.Some? && now + 28 * m * 86400 <= t.value <= now + 31 * m * 86400
              && (DayOfMonth(now) <= 28 ==> MonthsBack(t.value, m) == now)
    {
      AddMonthsGrows(now, m);
      if DayOfMonth(now) <= 28 { WalkBackInvertsAdvance(now, x.cycle); }
    }
  }

  // What a settlement adds, in any state: services of the order, for its owner, that
  // last one cycle from now, of each ware as many as were ordered.
  lemma SettlementDelivers(d: Db, user: Id, o: Id, now: Instant, rate: nat, w: Ware)
    requires Orders.Settle(d, user, o, now, rate).Some?
    ensures var e := Orders.Settle(d, user, o, now, rate).value;
            && o < |d.orders| && d.orders[o].user == user && d.services <= e.services
            && var rows := e.services[|d.services|..];
               && Sum(rows, Sold(w)) == Sum(d.orders[o].lines, LineUnits(w, now))
               && Sum(rows, OfOrder(o)) == |rows| == Units(d.orders[o].lines)
               && forall k :: 0 <= k < |rows| ==> LastsOneCycle(rows[k], now) && StartsClean(rows[k], user, o)
  {
    var lines := d.orders[o].lines;
    var rows := Orders.NewServices(user, o, lines, now);
    var e := Orders.Settle(d, user, o, now, rate).value;
    assert e.services[|d.services|..] == rows;
    hide Orders.Settle, LastsOneCycle;
    ServicesMatchLines(user, o, lines, now, w);
    forall k | 0 <= k < |rows| ensures LastsOneCycle(rows[k], now) && StartsClean(rows[k], user, o) {
      assert rows[k] in rows;
      var x :| x in lines && rows[k] == Orders.NewService(user, o, x, now);
      NewServiceLasts(user, o, x, now);
    }
    CountAll(rows, o);
  }

  lemma {:induction false} CountAll(rows: seq<Service>, o: Id)
    requires forall k :: 0 <= k < |rows| ==> rows[k].order == o
    ensures Sum(rows, OfOrder(o)) == |rows|
  {
    if |rows| > 0 { CountAll(rows[..|rows| - 1], o); }
  }

  // ----- what keeps it -----

  ghost predicate OrdersKeep(before: seq<Order>, after: seq<Order>) {
    && |before| <= |after|
    && (forall o :: 0 <= o < |before| ==> after[o].lines == before[o].lines)
    && (forall o :: 0 <= o < |before| ==>
        (Obligations.Unsettled(after[o].status) <==> Obligations.Unsettled(before[o].status)))
    && (forall o :: |before| <= o < |after| ==> Obligations.Unsettled(after[o].status))
  }

  ghost predicate ServicesKeep(before: seq<Service>, after: seq<Service>) {
    |before| == |after|
    && (forall s :: 0 <= s < |before| ==>
        after[s].order == before[s].order && after[s].extraTraffic == before[s].extraTraffic)
  }

  // Paid traffic packs stay as they are.
  ghost predicate PacksKeep(before: seq<Invoice>, after: seq<Invoice>) {
    && |before| <= |after|
    && (forall i, s :: 0 <= i < |before| ==> TrafficOf(s)(after[i]) == TrafficOf(s)(before[i]))
    && (forall i, s :: |before| <= i < |after| ==> TrafficOf(s)(after[i]) == 0)
  }

  lemma PacksSum(before: seq<Invoice>, after: seq<Invoice>, s: Id)
    requires PacksKeep(before, after)
    ensures Sum(after, TrafficOf(s)) == Sum(before, TrafficOf(s))
  {
    var old_, new_ := after[..|before|], after[|before|..];
    assert old_ + new_ == after;
    SumConcat(old_, new_, TrafficOf(s));
    SumAgree(before, old_, TrafficOf(s));
    SumZero(new_, TrafficOf(s));
  }

  lemma KeepProvided(d: Db, e: Db)
    requires Provided(d) && OrdersKeep(d.orders, e.orders) && ServicesKeep(d.services, e.services)
      && PacksKeep(d.invoices, e.invoices)
    ensures Provided(e)
  {
    forall o: Id ensures Sum(e.services, OfOrder(o)) == Owed(e.orders, o) {
      SumAgree(d.services, e.services, OfOrder(o));
      assert Sum(d.services, OfOrder(o)) == Owed(d.orders, o);
    }
    forall s | 0 <= s < |e.services| ensures e.services[s].extraTraffic == Sum(e.invoices, TrafficOf(s)) {
      PacksSum(d.invoices, e.invoices, s);
    }
  }

  lemma SameProvided(d: Db, e: Db)
    requires Provided(d) && e.orders == d.orders && e.services == d.services && e.invoices == d.invoices
    ensures Provided(e)
  {
  }

  // ----- settling -----

  lemma MarkPaidDelivers(d: Db, o: Id, i: Id, now: Instant)
    requires Sound(d) && Delivered(d.orders, d.services) && o < |d.orders| && d.orders[o].status == OrderPending
      && i <= |d.invoices|
    ensures var e := Orders.MarkPaid(d, o, i, now); Delivered(e.orders, e.services)
  {
    var e := Orders.MarkPaid(d, o, i, now);
    var rows := Orders.NewServices(d.orders[o].user, o, d.orders[o].lines, now);
    forall p: Id ensures Sum(e.services, OfOrder(p)) == Owed(e.orders, p) {
      SumConcat(d.services, rows, OfOrder(p));
      assert Sum(d.services, OfOrder(p)) == Owed(d.orders, p);
      if p == o {
        ServicesMatchLines(d.orders[o].user, o, d.orders[o].lines, now, Ware(0, 0, OneTime, None, false));
      } else {
        forall k | 0 <= k < |rows| ensures OfOrder(p)(rows[k]) == 0 { assert rows[k] in rows; }
        SumZero(rows, OfOrder(p));
      }
    }
  }

  lemma MarkPaidGrants(d: Db, o: Id, i: Id, now: Instant)
    requires Sound(d) && Granted(d.invoices, d.services) && o < |d.orders| && i <= |d.invoices|
    requires i < |d.invoices| ==> d.invoices[i].order == Some(o)
    ensures var e := Orders.MarkPaid(d, o, i, now); Granted(e.invoices, e.services)
  {
    var e := Orders.MarkPaid(d, o, i, now);
    var rows := Orders.NewServices(d.orders[o].user, o, d.orders[o].lines, now);
    assert PacksKeep(d.invoices, e.invoices);
    forall s | 0 <= s < |e.services| ensures e.services[s].extraTraffic == Sum(e.invoices, TrafficOf(s)) {
      PacksSum(d.invoices, e.invoices, s);
      if s >= |d.services| {
        assert e.services[s] in rows;
        forall k | 0 <= k < |d.invoices| ensures TrafficOf(s)(d.invoices[k]) == 0 {
          assert InvoiceRow(d, d.invoices[k]);
        }
        SumZero(d.invoices, TrafficOf(s));
      }
    }
  }

  lemma SettleOrderProvides(d: Db, user: Id, o: Id, now: Instant, rate: nat)
    requires Sound(d) && Provided(d)
    ensures var r := Orders.Settle(d, user, o, now, rate); r.Some? ==> Provided(r.value)
  {
    hide Sound, Delivered, Granted, Orders.MarkPaid;
    var r := Orders.Settle(d, user, o, now, rate);
    if r.Some? {
      var i := Orders.InvoiceFor(d.invoices, o);
      MarkPaidDelivers(d, o, i, now);
      MarkPaidGrants(d, o, i, now);
      SameProvided(Orders.MarkPaid(d, o, i, now), r.value);
    }
  }

  lemma TrafficGrants(d: Db, user: Id, i: Id, price: Option<int>)
    requires Provided(d) && i < |d.invoices| && d.invoices[i].service.Some? && d.invoices[i].traffic.Some?
    requires d.invoices[i].order.None? && d.invoices[i].status == InvoiceUnpaid
    ensures var r := Billing.SettleTraffic(d, user, i, price); r.Some? ==> Provided(r.value)
  {
    var r := Billing.SettleTraffic(d, user, i, price);
    if r.Some? {
      var e := r.value;
      forall o: Id ensures Sum(e.services, OfOrder(o)) == Owed(e.orders, o) {
        SumAgree(d.services, e.services, OfOrder(o));
        assert Sum(d.services, OfOrder(o)) == Owed(d.orders, o);
      }
      forall s | 0 <= s < |e.services| ensures e.services[s].extraTraffic == Sum(e.invoices, TrafficOf(s)) {
        SumUpdate(d.invoices, i, e.invoices[i], TrafficOf(s));
      }
    }
  }

  lemma RenewProvides(d: Db, user: Id, s: Id, now: Instant, debit: bool)
    requires Provided(d)
    ensures var r := Billing.Renew(d, user, s, now, debit); r.Some? ==> Provided(r.value)
  {
    hide Provided, AddMonths;
    var r := Billing.Renew(d, user, s, now, debit);
    if r.Some? { KeepProvided(d, r.value); }
  }

  lemma SettleInvoiceProvides(d: Db, user: Id, i: Id, now: Instant, rate: nat, price: Option<int>)
    requires Sound(d) && Provided(d)
    ensures var r := Billing.SettleInvoice(d, user, i, now, rate, price); r.Some? ==> Provided(r.value)
  {
    hide Sound, Provided, Orders.Settle, Billing.SettleTraffic, AddMonths;
    var r := Billing.SettleInvoice(d, user, i, now, rate, price);
    if r.Some? {
      var x := d.invoices[i];
      if x.order.Some? { SettleOrderProvides(d, user, x.order.value, now, rate); }
      else if x.service.Some? && x.traffic.Some? { TrafficGrants(d, user, i, price); }
      else { KeepProvided(d, r.value); }
    }
  }

  lemma SettleTargetProvides(d: Db, user: Id, purpose: Purpose, target: Id, now: Instant, rate: nat, price: Option<int>)
    requires Sound(d) && Provided(d)
    ensures var r := Payments.SettleTarget(d, user, purpose, target, now, rate, price); r.Some? ==> Provided(r.value)
  {
    hide Sound, Provided, Orders.Settle, Billing.SettleInvoice, Billing.Renew;
    match purpose
    case ForRecharge =>
    case ForOrder => SettleOrderProvides(d, user, target, now, rate);
    case ForInvoice => SettleInvoiceProvides(d, user, target, now, rate, price);
    case ForRenewal => RenewProvides(d, user, target, now, false);
  }

  lemma OpenIntentProvides(d: Db, x: Intent, now: Instant, rate: nat, price: Option<int>)
    requires Sound(d) && IntentRow(d, x) && Provided(d)
    ensures var r := Payments.OpenIntent(d, x, now, rate, price); r.Some? ==> Provided(r.value)
  {
    hide Sound, IntentRow, Provided, Payments.SettleTarget;
    var r := Payments.OpenIntent(d, x, now, rate, price);
    if r.Some? {
      var e := d.(intents := d.intents + [x]);
      AddIntentSound(d, x);
      SameProvided(d, e);
      SettleTargetProvides(e, x.user, x.purpose, x.target, now, rate, price);
      if x.amount <= 0 {
        SameProvided(Payments.SettleTarget(e, x.user, x.purpose, x.target, now, rate, price).value, r.value);
      }
    }
  }

  lemma CreateIntentProvides(d: Db, user: Id, purpose: Purpose, target: Id, total: int, wish: int,
                             quoted: Option<Instant>, now: Instant, rate: nat, price: Option<int>)
    requires Sound(d) && Provided(d)
    ensures var r := Payments.CreateIntent(d, user, purpose, target, total, wish, quoted, now, rate, price);
            r.Some? ==> Provided(r.value)
  {
    hide Sound, Busy, Payable, LoadTarget, KeyTaken, Payments.OpenIntent, Provided;
    if Payments.CreateIntent(d, user, purpose, target, total, wish, quoted, now, rate, price).Some? {
      var balance := Payments.WalletPart(total, wish);
      var key := if purpose == ForRecharge then None else LoadTarget(d, user, purpose, target);
      var x := Intent(user, purpose, target, total - balance, balance, IntentPending, key, 0);
      if purpose != ForRecharge { PayableIsOwed(d, user, purpose, target, total, quoted, x); }
      var e := Wallet.Debit(d, user, balance, IntentDebit(purpose, target)).value;
      DebitSound(d, user, balance, IntentDebit(purpose, target));
      SameProvided(d, e);
      OpenIntentProvides(e, x, now, rate, price);
    }
  }

  lemma FinalizeProvides(d: Db, i: Id, paid: int, now: Instant, rate: nat, price: Option<int>)
    requires Sound(d) && Provided(d)
    ensures var r := Payments.Finalize(d, i, paid, now, rate, price); r.Some? ==> Provided(r.value)
  {
    hide Sound, Provided, Payments.SettleTarget;
    var r := Payments.Finalize(d, i, paid, now, rate, price);
    if r.Some? && d.intents[i].status == IntentPending {
      var x := d.intents[i];
      if x.purpose == ForRecharge {
        SameProvided(d, r.value);
      } else {
        SettleTargetProvides(d, x.user, x.purpose, x.target, now, rate, price);
        SameProvided(Payments.SettleTarget(d, x.user, x.purpose, x.target, now, rate, price).value, r.value);
      }
    }
  }

  lemma PayOrderProvides(d: Db, user: Id, o: Id, now: Instant, rate: nat)
    requires Sound(d) && Provided(d)
    ensures var r := Orders.Pay(d, user, o, now, rate); r.Some? ==> Provided(r.value)
  {
    hide Sound, Provided, Orders.Settle, Busy;
    if Orders.Pay(d, user, o, now, rate).Some? {
      var e := Wallet.Debit(d, user, d.orders[o].total, OrderDebit(o)).value;
      DebitSound(d, user, d.orders[o].total, OrderDebit(o));
      SameProvided(d, e);
      SettleOrderProvides(e, user, o, now, rate);
    }
  }

  lemma SettleFromWalletProvides(d: Db, user: Id, i: Id, now: Instant, rate: nat, price: Option<int>)
    requires Sound(d) && Provided(d)
    ensures var r := Payments.SettleFromWallet(d, user, i, now, rate, price); r.Some? ==> Provided(r.value)
  {
    hide Sound, Provided, Billing.SettleInvoice, Busy;
    if Payments.SettleFromWallet(d, user, i, now, rate, price).Some? {
      var e := Wallet.Debit(d, user, d.invoices[i].total, InvoiceDebit(i)).value;
      DebitSound(d, user, d.invoices[i].total, InvoiceDebit(i));
      SameProvided(d, e);
      SettleInvoiceProvides(e, user, i, now, rate, price);
    }
  }

  // ----- every step -----

  lemma SaleProvides(d: Db, op: OrderOp)
    requires Sound(d) && Provided(d)
    ensures var r := DoSale(d, op); r.Some? ==> Provided(r.value)
  {
    hide Sound, Provided, Orders.Pay;
    var r := DoSale(d, op);
    match op
    case CreateOrder(_, _, _) => if r.Some? { KeepProvided(d, r.value); }
    case PayOrder(user, o, now, rate) => PayOrderProvides(d, user, o, now, rate);
    case CancelOrder(_, _) => if r.Some? { KeepProvided(d, r.value); }
  }

  lemma BillProvides(d: Db, op: BillingOp)
    requires Provided(d)
    ensures var r := DoBill(d, op); r.Some? ==> Provided(r.value)
  {
    hide Provided, Busy, Billing.Renew, AddMonths;
    var r := DoBill(d, op);
    match op
    case RenewNow(user, s, now) => RenewProvides(d, user, s, now, true);
    case CreateRenewalInvoice(_, _) => if r.Some? { KeepProvided(d, r.value); }
    case CreateTrafficInvoice(_, _, _, _) => if r.Some? { KeepProvided(d, r.value); }
    case AutoRenew(_, _, _, _) => if r.Some? { KeepProvided(d, r.value); }
    case SetService(_, _, _, _, _) => if r.Some? { KeepProvided(d, r.value); }
  }

  lemma PaymentProvides(d: Db, op: PaymentOp)
    requires Sound(d) && Provided(d)
    ensures var r := DoPayment(d, op); r.Some? ==> Provided(r.value)
  {
    hide Sound, Provided, Payments.Finalize, Payments.CreateIntent, Payments.SettleFromWallet;
    var r := DoPayment(d, op);
    match op
    case SettleInvoice(user, i, now, rate, price) => SettleFromWalletProvides(d, user, i, now, rate, price);
    case CreateIntent(user, purpose, target, total, wish, quoted, now, rate, price) =>
      CreateIntentProvides(d, user, purpose, target, total, wish, quoted, now, rate, price);
    case CancelIntent(_, _) => if r.Some? { SameProvided(d, r.value); }
    case VoidIntent(_) => if r.Some? { SameProvided(d, r.value); }
    case Finalize(i, paid, now, rate, price) => FinalizeProvides(d, i, paid, now, rate, price);
    case LateReceipt(_, _) => if r.Some? { SameProvided(d, r.value); }
  }

  lemma ChangeProvides(d: Db, op: ChangeOp)
    requires Provided(d)
    ensures var r := DoChange(d, op); r.Some? ==> Provided(r.value)
  {
    hide Provided, Changes.Fenced, Changes.TokenUsed, Changes.OfferFor;
    var r := DoChange(d, op);
    if r.Some? { KeepProvided(d, r.value); }
  }

  lemma CompleteKeeps(d: Db, e: Id)
    requires Refunds.Complete(d, e).Some?
    ensures var f := Refunds.Complete(d, e).value;
            OrdersKeep(d.orders, f.orders) && ServicesKeep(d.services, f.services) && f.invoices == d.invoices
  {
    hide Refunds.Complete, ServicesKeep;
    CompleteKeepsServices(d, e);
    Payouts.CompleteTables(d, e);
    Transitions.CompleteElsewhere(d, e);
  }

  lemma CompleteKeepsServices(d: Db, e: Id)
    requires Refunds.Complete(d, e).Some?
    ensures ServicesKeep(d.services, Refunds.Complete(d, e).value.services)
  {
  }

  lemma RefundProvides(d: Db, op: RefundOp)
    requires Provided(d)
    ensures var r := DoRefund(d, op); r.Some? ==> Provided(r.value)
  {
    hide Provided, Refunds.Complete, Refunds.MayComplete;
    var r := DoRefund(d, op);
    if r.Some? {
      if op.CompleteRefund? {
        CompleteKeeps(d, op.execution);
        hide OrdersKeep, ServicesKeep;
        SamePacks(d.invoices);
        KeepProvided(d, r.value);
      } else {
        SameProvided(d, r.value);
      }
    }
  }

  lemma SamePacks(invoices: seq<Invoice>)
    ensures PacksKeep(invoices, invoices)
  {
  }

  lemma OtherProvides(d: Db, op: Op)
    requires Provided(d) && (op.Account? || op.Share?)
    ensures var r := Attempt(d, op); r.Some? ==> Provided(r.value)
  {
    hide Provided;
    var r := Attempt(d, op);
    if r.Some? { SameProvided(d, r.value); }
  }

  lemma StepProvides(d: Db, op: Op)
    requires Sound(d) && Provided(d)
    ensures Provided(Step(d, op))
  {
    hide Sound, Provided, DoAccount, DoSale, DoBill, DoPayment, DoChange, DoRefund, DoShare;
    match op
    case Account(_) => OtherProvides(d, op);
    case Sale(s) => SaleProvides(d, s);
    case Bill(b) => BillProvides(d, b);
    case Payment(p) => PaymentProvides(d, p);
    case ProductChange(c) => ChangeProvides(d, c);
    case Repay(x) => RefundProvides(d, x);
    case Share(_) => OtherProvides(d, op);
  }
}
