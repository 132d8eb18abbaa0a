// The history of renewals: each one starts where the last one ended, so no two
// of them read the same expiry, and each is worth its full length.
module Renewals {
  import opened Options
  import opened Calendar
  import opened Tables
  import opened Targets
  import opened Machine
  import opened Integrity
  import Wallet
  import Billing
  import Payments
  import Changes
  import Refunds

  const MONTH: int := 28 * 86400

  // Where the latest of these renewals of service s left its expiry.
  function LastNext(advances: seq<Advance>, s: Id): Option<Instant> {
    if |advances| == 0 then None
    else
      var x := advances[|advances| - 1];
      if x.service == s then Some(x.next) else LastNext(advances[..|advances| - 1], s)
  }

  // Renewal j starts from the expiry the previous one of its service left, and
  // adds at least 28 days a month to the later of that and the time it ran.
  ghost predicate Linked(advances: seq<Advance>, cycle: Cycle, j: nat)
    requires j < |advances|
  {
    var x := advances[j];
    && (LastNext(advances[..j], x.service).Some? ==> x.before == LastNext(advances[..j], x.service))
    && x.at + MONTH * RenewalMonths(cycle) <= x.next
    && (x.before.Some? ==> x.before.value + MONTH * RenewalMonths(cycle) <= x.next)
    && cycle != OneTime
  }

  ghost predicate Chained(services: seq<Service>, advances: seq<Advance>) {
    && (forall j :: 0 <= j < |advances| ==> advances[j].service < |services|
                                            && Linked(advances, services[advances[j].service].cycle, j))
    && (forall s :: 0 <= s < |services| ==> Current(services[s], advances, s))
  }

  // A service's expiry is where its latest renewal left it.
  ghost predicate Current(x: Service, advances: seq<Advance>, s: Id) {
    LastNext(advances, s).Some? ==> x.expires == LastNext(advances, s)
  }

  // An automatic renewal's key belongs to an expiry the service has left behind.
  ghost predicate Spent(services: seq<Service>, key: (Id, Instant)) {
    key.0 < |services| && services[key.0].expires.Some? && key.1 < services[key.0].expires.value
  }

  ghost predicate History(d: Db) {
    && Chained(d.services, d.advances)
    && forall key :: key in d.renewalKeys ==> Spent(d.services, key)
  }

  // ----- consequences -----

  lemma {:induction false} LastNextIsAfter(services: seq<Service>, advances: seq<Advance>, i: nat, n: nat)
    requires Chained(services, advances) && i < n <= |advances|
    ensures LastNext(advances[..n], advances[i].service).Some?
    ensures advances[i].next <= LastNext(advances[..n], advances[i].service).value
  {
    var rest := advances[..n];
    var x := rest[n - 1];
    assert rest[..n - 1] == advances[..n - 1];
    if i < n - 1 {
      LastNextIsAfter(services, advances, i, n - 1);
      assert Linked(advances, services[x.service].cycle, n - 1);
    }
  }

  // Of two renewals of a service the later one starts no earlier than the first
  // ended: no time is paid for twice, and no two read the same expiry.
  lemma RenewalsDoNotOverlap(d: Db, i: nat, j: nat)
    requires History(d) && i < j < |d.advances| && d.advances[i].service == d.advances[j].service
    ensures d.advances[j].before.Some? && d.advances[i].next <= d.advances[j].before.value
    ensures d.advances[i].before != d.advances[j].before
  {
    LastNextIsAfter(d.services, d.advances, i, j);
    assert Linked(d.advances, d.services[d.advances[j].service].cycle, j);
    assert Linked(d.advances, d.services[d.advances[i].service].cycle, i);
  }

  // The unique key of an automatic renewal never stops one that is due.
  lemma KeyIsFresh(d: Db, s: Id, listed: Instant)
    requires History(d) && s < |d.services| && d.services[s].expires == Some(listed)
    ensures (s, listed) !in d.renewalKeys
  {
    assert !Spent(d.services, (s, listed));
  }

  // ----- steps -----

  ghost predicate ExpiriesKeep(before: seq<Service>, after: seq<Service>) {
    && |before| <= |after|
    && (forall s :: 0 <= s < |before| ==> after[s].expires == before[s].expires && after[s].cycle == before[s].cycle)
  }

  lemma {:induction false} NoAdvancesYet(services: seq<Service>, advances: seq<Advance>, s: Id)
    requires forall j :: 0 <= j < |advances| ==> advances[j].service < |services|
    requires s >= |services|
    ensures LastNext(advances, s).None?
  {
    if |advances| > 0 { NoAdvancesYet(services, advances[..|advances| - 1], s); }
  }

  lemma KeepHistory(d: Db, e: Db)
    requires History(d) && ExpiriesKeep(d.services, e.services)
    requires e.advances == d.advances && e.renewalKeys == d.renewalKeys
    ensures History(e)
  {
    forall s | 0 <= s < |e.services| ensures Current(e.services[s], e.advances, s) {
      if s < |d.services| { assert Current(d.services[s], d.advances, s); }
      else { NoAdvancesYet(d.services, d.advances, s); }
    }
    forall key | key in e.renewalKeys ensures Spent(e.services, key) { assert Spent(d.services, key); }
  }

  // Applying a renewal adds one link; key is the one the transaction reserved, if any.
  lemma ApplyHistory(d: Db, s: Id, now: Instant)
    requires History(d) && s < |d.services| && d.services[s].cycle != OneTime
    ensures History(Billing.ApplyRenewal(d, s, now))
    ensures var x := Billing.ApplyRenewal(d, s, now).services[s];
            x.expires.Some? && (d.services[s].expires.Some? ==> d.services[s].expires.value < x.expires.value)
  {
    hide AddMonths, Chained, Spent;
    var e := Billing.ApplyRenewal(d, s, now);
    AddMonthsGrows(Billing.RenewalBase(d.services[s], now), RenewalMonths(d.services[s].cycle));
    ApplyChained(d, e, s);
    forall key | key in e.renewalKeys ensures Spent(e.services, key) {
      assert Spent(d.services, key);
      StaysSpent(d.services, s, e.services[s], key);
    }
  }

  // An expiry that has moved on only moves further.
  lemma StaysSpent(services: seq<Service>, s: Id, y: Service, key: (Id, Instant))
    requires Spent(services, key) && s < |services| && y.expires.Some?
    requires services[s].expires.Some? ==> services[s].expires.value < y.expires.value
    ensures Spent(services[s := y], key)
  {
  }

  lemma ApplyChained(d: Db, e: Db, s: Id)
    requires Chained(d.services, d.advances) && s < |d.services| == |e.services|
    requires e.services == d.services[s := e.services[s]] && e.services[s].cycle == d.services[s].cycle != OneTime
    requires |e.advances| == |d.advances| + 1 && e.advances[..|d.advances|] == d.advances
    requires var x := e.advances[|d.advances|];
             && x.service == s && x.before == d.services[s].expires && e.services[s].expires == Some(x.next)
             && x.at + MONTH * RenewalMonths(d.services[s].cycle) <= x.next
             && (x.before.Some? ==> x.before.value + MONTH * RenewalMonths(d.services[s].cycle) <= x.next)
    ensures Chained(e.services, e.advances)
  {
    var n := |d.advances|;
    forall j | 0 <= j < |e.advances|
      ensures e.advances[j].service < |e.services| && Linked(e.advances, e.services[e.advances[j].service].cycle, j)
    {
      if j < n {
        assert e.advances[j] == d.advances[j] && e.advances[..j] == d.advances[..j];
        assert Linked(d.advances, d.services[d.advances[j].service].cycle, j);
      } else {
        assert Current(d.services[s], d.advances, s);
      }
    }
    forall t | 0 <= t < |e.services| ensures Current(e.services[t], e.advances, t) {
      assert Current(d.services[t], d.advances, t);
    }
  }

  lemma RenewHistory(d: Db, user: Id, s: Id, now: Instant, debit: bool)
    requires History(d)
    ensures var r := Billing.Renew(d, user, s, now, debit); r.Some? ==> History(r.value)
  {
    hide History;
    var r := Billing.Renew(d, user, s, now, debit);
    if r.Some? {
      var e := if debit then Wallet.Debit(d, user, d.services[s].price, ServiceDebit(s)).value else d;
      KeepHistory(d, e);
      ApplyHistory(e, s, now);
      KeepHistory(Billing.ApplyRenewal(e, s, now), r.value);
    }
  }

  lemma AutoRenewHistory(d: Db, s: Id, listed: Instant, now: Instant, window: nat)
    requires History(d)
    ensures var r := Billing.AutoRenew(d, s, listed, now, window); r.Some? ==> History(r.value)
  {
    var r := Billing.AutoRenew(d, s, listed, now, window);
    if r.Some? {
      var x := d.services[s];
      var e := Wallet.Debit(d.(renewalKeys := d.renewalKeys + {(s, listed)}), x.user, x.price, ServiceDebit(s)).value;
      var f := e.(renewalKeys := d.renewalKeys);
      KeepHistory(d, f);
      ApplyHistory(f, s, now);
      var g := Billing.ApplyRenewal(f, s, now);
      assert r.value.services == g.services && r.value.advances == g.advances;
      assert r.value.renewalKeys == g.renewalKeys + {(s, listed)};
      KeyHistory(g, (s, listed), r.value);
    }
  }

  lemma KeyHistory(d: Db, key: (Id, Instant), e: Db)
    requires History(d) && Spent(d.services, key)
    requires e.services == d.services && e.advances == d.advances && e.renewalKeys == d.renewalKeys + {key}
    ensures History(e)
  {
  }

  lemma SettleInvoiceHistory(d: Db, user: Id, i: Id, now: Instant, rate: nat, price: Option<int>)
    requires History(d)
    ensures var r := Billing.SettleInvoice(d, user, i, now, rate, price); r.Some? ==> History(r.value)
  {
    hide History;
    var r := Billing.SettleInvoice(d, user, i, now, rate, price);
    if r.Some? {
      var x := d.invoices[i];
      if x.order.None? && x.service.Some? && x.traffic.None? {
        ApplyHistory(d, x.service.value, now);
        KeepHistory(Billing.ApplyRenewal(d, x.service.value, now), r.value);
      } else {
        KeepHistory(d, r.value);
      }
    }
  }

  lemma SettleTargetHistory(d: Db, user: Id, purpose: Purpose, target: Id, now: Instant, rate: nat, price: Option<int>)
    requires History(d)
    ensures var r := Payments.SettleTarget(d, user, purpose, target, now, rate, price); r.Some? ==> History(r.value)
  {
    hide History, Billing.SettleInvoice, Billing.Renew;
    var r := Payments.SettleTarget(d, user, purpose, target, now, rate, price);
    match purpose
    case ForRecharge =>
    case ForOrder => if r.Some? { KeepHistory(d, r.value); }
    case ForInvoice => SettleInvoiceHistory(d, user, target, now, rate, price);
    case ForRenewal => RenewHistory(d, user, target, now, false);
  }

  lemma SettleFromWalletHistory(d: Db, user: Id, i: Id, now: Instant, rate: nat, price: Option<int>)
    requires History(d)
    ensures var r := Payments.SettleFromWallet(d, user, i, now, rate, price); r.Some? ==> History(r.value)
  {
    hide History, Billing.SettleInvoice, Busy;
    if Payments.SettleFromWallet(d, user, i, now, rate, price).Some? {
      var e := Wallet.Debit(d, user, d.invoices[i].total, InvoiceDebit(i)).value;
      KeepHistory(d, e);
      SettleInvoiceHistory(e, user, i, now, rate, price);
    }
  }

  lemma PaymentHistory(d: Db, op: PaymentOp)
    requires History(d)
    ensures var r := DoPayment(d, op); r.Some? ==> History(r.value)
  {
    hide History, Payments.SettleTarget, Payments.SettleFromWallet, Payments.CreateIntent;
    var r := DoPayment(d, op);
    if r.Some? {
      match op
      case SettleInvoice(user, i, now, rate, price) => SettleFromWalletHistory(d, user, i, now, rate, price);
      case CreateIntent(user, purpose, target, total, wish, quoted, now, rate, price) =>
        CreateIntentHistory(d, user, purpose, target, total, wish, quoted, now, rate, price);
      case Finalize(i, paid, now, rate, price) =>
        if d.intents[i].status == IntentPending {
          var x := d.intents[i];
          if x.purpose == ForRecharge { KeepHistory(d, r.value); }
          else {
            SettleTargetHistory(d, x.user, x.purpose, x.target, now, rate, price);
            KeepHistory(Payments.SettleTarget(d, x.user, x.purpose, x.target, now, rate, price).value, r.value);
          }
        }
      case CancelIntent(_, _) => KeepHistory(d, r.value);
      case VoidIntent(_) => KeepHistory(d, r.value);
      case LateReceipt(_, _) => KeepHistory(d, r.value);
    }
  }

  lemma CreateIntentHistory(d: Db, user: Id, purpose: Purpose, target: Id, total: int, wish: int,
                            quoted: Option<Instant>, now: Instant, rate: nat, price: Option<int>)
    requires History(d)
    ensures var r := Payments.CreateIntent(d, user, purpose, target, total, wish, quoted, now, rate, price);
            r.Some? ==> History(r.value)
  {
    hide History, Payments.SettleTarget, Busy, KeyTaken, Payable, LoadTarget;
    var r := Payments.CreateIntent(d, user, purpose, target, total, wish, quoted, now, rate, price);
    if r.Some? {
      var balance := Payments.WalletPart(total, wish);
      var key := if purpose == ForRecharge then None else LoadTarget(d, user, purpose, target);
      var e := Wallet.Debit(d, user, balance, IntentDebit(purpose, target)).value;
      var f := e.(intents := e.intents
                  + [Intent(user, purpose, target, total - balance, balance, IntentPending, key, 0)]);
      KeepHistory(d, f);
      SettleTargetHistory(f, user, purpose, target, now, rate, price);
      if total - balance <= 0 {
        KeepHistory(Payments.SettleTarget(f, user, purpose, target, now, rate, price).value, r.value);
      }
    }
  }

  lemma SaleHistory(d: Db, op: OrderOp)
    requires History(d)
    ensures var r := DoSale(d, op); r.Some? ==> History(r.value)
  {
    hide History, Busy;
    var r := DoSale(d, op);
    if r.Some? { KeepHistory(d, r.value); }
  }

  lemma BillHistory(d: Db, op: BillingOp)
    requires History(d)
    ensures var r := DoBill(d, op); r.Some? ==> History(r.value)
  {
    hide History, Busy, Billing.Renew, Billing.AutoRenew;
    var r := DoBill(d, op);
    match op
    case RenewNow(user, s, now) => RenewHistory(d, user, s, now, true);
    case AutoRenew(s, listed, now, window) => AutoRenewHistory(d, s, listed, now, window);
    case CreateRenewalInvoice(_, _) => if r.Some? { KeepHistory(d, r.value); }
    case CreateTrafficInvoice(_, _, _, _) => if r.Some? { KeepHistory(d, r.value); }
    case SetService(_, _, _, _, _) => if r.Some? { KeepHistory(d, r.value); }
  }

  lemma OtherHistory(d: Db, op: Op)
    requires History(d) && (op.Account? || op.ProductChange? || op.Share?)
    ensures var r := Attempt(d, op); r.Some? ==> History(r.value)
  {
    hide History, DoAccount, DoChange, DoShare;
    match op
    case Account(a) => AccountHistory(d, a);
    case ProductChange(c) => ChangeHistory(d, c);
    case Share(s) => ShareHistory(d, s);
  }

  lemma AccountHistory(d: Db, op: AccountOp)
    requires History(d)
    ensures var r := DoAccount(d, op); r.Some? ==> History(r.value)
  {
    hide History;
    var r := DoAccount(d, op);
    if r.Some? { KeepHistory(d, r.value); }
  }

  lemma ChangeHistory(d: Db, op: ChangeOp)
    requires History(d)
    ensures var r := DoChange(d, op); r.Some? ==> History(r.value)
  {
    hide History, Changes.Fenced, Changes.TokenUsed, Changes.OfferFor;
    var r := DoChange(d, op);
    if r.Some? { KeepHistory(d, r.value); }
  }

  lemma ShareHistory(d: Db, op: AffiliateOp)
    requires History(d)
    ensures var r := DoShare(d, op); r.Some? ==> History(r.value)
  {
    hide History;
    var r := DoShare(d, op);
    if r.Some? { KeepHistory(d, r.value); }
  }

  lemma RefundHistory(d: Db, op: RefundOp)
    requires History(d)
    ensures var r := DoRefund(d, op); r.Some? ==> History(r.value)
  {
    hide History;
    var r := DoRefund(d, op);
    if r.Some? {
      RefundKeepsServices(d, op);
      KeepHistory(d, r.value);
    }
  }

  lemma RefundKeepsServices(d: Db, op: RefundOp)
    requires DoRefund(d, op).Some?
    ensures var e := DoRefund(d, op).value;
            ExpiriesKeep(d.services, e.services) && e.advances == d.advances && e.renewalKeys == d.renewalKeys
  {
    hide ExpiriesKeep;
    if op.CompleteRefund? {
      CompleteKeepsServices(d, op.execution);
    } else {
      hide Refunds.Complete;
      assert DoRefund(d, op).value.services == d.services;
      SameExpiries(d.services);
    }
  }

  lemma SameExpiries(services: seq<Service>)
    ensures ExpiriesKeep(services, services)
  {
  }

  lemma CompleteKeepsServices(d: Db, e: Id)
    requires Refunds.Complete(d, e).Some?
    ensures var f := Refunds.Complete(d, e).value;
            ExpiriesKeep(d.services, f.services) && f.advances == d.advances && f.renewalKeys == d.renewalKeys
  {
  }

  lemma StepHistory(d: Db, op: Op)
    requires History(d)
    ensures History(Step(d, op))
  {
    hide History, DoAccount, DoSale, DoBill, DoPayment, DoChange, DoRefund, DoShare;
    match op
    case Account(_) => OtherHistory(d, op);
    case Sale(s) => SaleHistory(d, s);
    case Bill(b) => BillHistory(d, b);
    case Payment(p) => PaymentHistory(d, p);
    case ProductChange(_) => OtherHistory(d, op);
    case Repay(x) => RefundHistory(d, x);
    case Share(_) => OtherHistory(d, op);
  }
}
