// What holds of each row from the moment it is written: its references resolve,
// owners agree, and amounts that must match do.
module Integrity {
  import opened Options
  import opened Calendar
  import opened Tables
  import opened Targets
  import opened Machine
  import opened References
  import Wallet
  import Orders
  import Billing
  import Payments
  import Changes
  import Refunds
  import Affiliates

  ghost predicate UserOk(d: Db, u: Id) {
    u < |d.bank.balances|
  }

  ghost predicate ReferrerRow(d: Db, x: Option<Id>) {
    x.Some? ==> x.value < |d.affiliates|
  }

  ghost predicate PluginRow(d: Db, x: PluginPayment) {
    UserOk(d, x.user)
  }

  ghost predicate OrderRow(d: Db, x: Order) {
    UserOk(d, x.user) && |x.lines| > 0
  }

  // An invoice for an order bears the order's total and owner; any other names
  // at most a service of the same owner.
  ghost predicate InvoiceRow(d: Db, x: Invoice) {
    && UserOk(d, x.user)
    && (x.order.Some? ==> (x.service.None? && x.order.value < |d.orders|
                           && d.orders[x.order.value].user == x.user && d.orders[x.order.value].total == x.total))
    && (x.service.Some? ==> x.service.value < |d.services| && d.services[x.service.value].user == x.user)
    && (x.traffic.Some? ==> x.service.Some?)
  }

  ghost predicate ServiceRow(d: Db, x: Service) {
    UserOk(d, x.user) && x.order < |d.orders| && (x.cycle != OneTime ==> x.expires.Some?)
  }

  // What an intent collects in all is what its target costs; a recharge has no
  // wallet part and nothing to settle.
  ghost predicate IntentRow(d: Db, x: Intent) {
    && UserOk(d, x.user)
    && x.amount + x.balance > 0
    && match x.purpose
       case ForRecharge => x.balance == 0
       case ForOrder => x.target < |d.orders| && d.orders[x.target].user == x.user
                        && d.orders[x.target].total == x.amount + x.balance
       case ForInvoice => x.target < |d.invoices| && d.invoices[x.target].user == x.user
                          && d.invoices[x.target].total == x.amount + x.balance
       case ForRenewal => x.target < |d.services| && d.services[x.target].user == x.user
  }

  ghost predicate ChangeRow(d: Db, x: Change) {
    UserOk(d, x.user) && x.service < |d.services| && d.services[x.service].user == x.user
  }

  // A refund request returns exactly what was paid, split as it was paid.
  ghost predicate RefundRow(d: Db, x: Refund) {
    && UserOk(d, x.user) && x.amount > 0 && x.amount == x.channel + x.balance
    && x.order < |d.orders| && d.orders[x.order].user == x.user && d.orders[x.order].total == x.amount
    && match x.payment
       case None => x.channel == 0
       case Some(p) => p < |d.intents| && d.intents[p].purpose == ForOrder && d.intents[p].target == x.order
                       && d.intents[p].amount == x.channel && d.intents[p].balance == x.balance
  }

  ghost predicate ExecutionRow(d: Db, x: Execution) {
    x.refund < |d.refunds|
  }

  ghost predicate AffiliateRow(d: Db, x: Affiliate) {
    UserOk(d, x.user)
  }

  ghost predicate CommissionRow(d: Db, x: Commission) {
    && x.affiliate < |d.affiliates| && x.order < |d.orders|
    && x.paid == d.orders[x.order].total > 0
  }

  ghost predicate WithdrawalRow(d: Db, x: Withdrawal) {
    && UserOk(d, x.user) && x.amount > 0
    && x.affiliate < |d.affiliates| && d.affiliates[x.affiliate].user == x.user
  }

  ghost predicate EntryRow(d: Db, x: Entry) {
    match x.ref
    case OrderDebit(o) => o < |d.orders| && x.amount <= 0
    case InvoiceDebit(i) => i < |d.invoices| && x.amount <= 0
    case ServiceDebit(s) => s < |d.services| && x.amount <= 0
    case _ => true
  }

  ghost predicate AdvanceRow(d: Db, x: Advance) {
    x.service < |d.services|
  }

  ghost predicate Sound(d: Db) {
    && |d.referrers| == |d.bank.balances|
    && (forall i :: 0 <= i < |d.referrers| ==> ReferrerRow(d, d.referrers[i]))
    && (forall i :: 0 <= i < |d.plugins| ==> PluginRow(d, d.plugins[i]))
    && (forall i :: 0 <= i < |d.orders| ==> OrderRow(d, d.orders[i]))
    && (forall i :: 0 <= i < |d.invoices| ==> InvoiceRow(d, d.invoices[i]))
    && (forall i :: 0 <= i < |d.services| ==> ServiceRow(d, d.services[i]))
    && (forall i :: 0 <= i < |d.intents| ==> IntentRow(d, d.intents[i]))
    && (forall i :: 0 <= i < |d.changes| ==> ChangeRow(d, d.changes[i]))
    && (forall i :: 0 <= i < |d.refunds| ==> RefundRow(d, d.refunds[i]))
    && (forall i :: 0 <= i < |d.executions| ==> ExecutionRow(d, d.executions[i]))
    && (forall i :: 0 <= i < |d.affiliates| ==> AffiliateRow(d, d.affiliates[i]))
    && (forall i :: 0 <= i < |d.commissions| ==> CommissionRow(d, d.commissions[i]))
    && (forall i :: 0 <= i < |d.withdrawals| ==> WithdrawalRow(d, d.withdrawals[i]))
    && (forall i :: 0 <= i < |d.bank.log| ==> EntryRow(d, d.bank.log[i]))
    && (forall i :: 0 <= i < |d.advances| ==> AdvanceRow(d, d.advances[i]))
  }

  // The same, asked only of the rows a step has added.
  ghost predicate NewRowsSound(d: Db, e: Db) {
    && |e.referrers| == |e.bank.balances|
    && (forall i :: |d.referrers| <= i < |e.referrers| ==> ReferrerRow(e, e.referrers[i]))
    && (forall i :: |d.plugins| <= i < |e.plugins| ==> PluginRow(e, e.plugins[i]))
    && (forall i :: |d.orders| <= i < |e.orders| ==> OrderRow(e, e.orders[i]))
    && (forall i :: |d.invoices| <= i < |e.invoices| ==> InvoiceRow(e, e.invoices[i]))
    && (forall i :: |d.services| <= i < |e.services| ==> ServiceRow(e, e.services[i]))
    && (forall i :: |d.intents| <= i < |e.intents| ==> IntentRow(e, e.intents[i]))
    && (forall i :: |d.changes| <= i < |e.changes| ==> ChangeRow(e, e.changes[i]))
    && (forall i :: |d.refunds| <= i < |e.refunds| ==> RefundRow(e, e.refunds[i]))
    && (forall i :: |d.executions| <= i < |e.executions| ==> ExecutionRow(e, e.executions[i]))
    && (forall i :: |d.affiliates| <= i < |e.affiliates| ==> AffiliateRow(e, e.affiliates[i]))
    && (forall i :: |d.commissions| <= i < |e.commissions| ==> CommissionRow(e, e.commissions[i]))
    && (forall i :: |d.withdrawals| <= i < |e.withdrawals| ==> WithdrawalRow(e, e.withdrawals[i]))
    && (forall i :: |d.bank.log| <= i < |e.bank.log| ==> EntryRow(e, e.bank.log[i]))
    && (forall i :: |d.advances| <= i < |e.advances| ==> AdvanceRow(e, e.advances[i]))
  }

  // Old rows stay sound because what they refer to never goes away.
  lemma OldRowsStaySound(d: Db, e: Db)
    requires Sound(d) && Grows(d, e) && NewRowsSound(d, e)
    ensures Sound(e)
  {
    forall i | 0 <= i < |e.invoices| ensures InvoiceRow(e, e.invoices[i]) {
      if i < |d.invoices| { assert InvoiceRow(d, d.invoices[i]) && SameInvoice(d.invoices[i], e.invoices[i]); }
    }
    forall i | 0 <= i < |e.refunds| ensures RefundRow(e, e.refunds[i]) {
      if i < |d.refunds| { assert RefundRow(d, d.refunds[i]) && SameRefund(d.refunds[i], e.refunds[i]); }
    }
    forall i | 0 <= i < |e.intents| ensures IntentRow(e, e.intents[i]) {
      if i < |d.intents| { assert IntentRow(d, d.intents[i]) && SameIntent(d.intents[i], e.intents[i]); }
    }
  }

  lemma PostSound(d: Db, user: Id, amount: int, ref: Ref)
    requires Sound(d) && EntryRow(d, Entry(user, amount, 0, ref))
    ensures var r := Wallet.PostUnlessZero(d, user, amount, ref); r.Some? ==> Sound(r.value)
  {
    var r := Wallet.PostUnlessZero(d, user, amount, ref);
    if r.Some? {
      PostGrows(d, user, amount, ref);
      OldRowsStaySound(d, r.value);
    }
  }

  lemma DebitSound(d: Db, user: Id, amount: nat, ref: Ref)
    requires Sound(d) && EntryRow(d, Entry(user, 0, 0, ref))
    ensures var r := Wallet.Debit(d, user, amount, ref); r.Some? ==> Sound(r.value)
  {
    hide Sound;
    PostSound(d, user, -(amount as int), ref);
  }

  lemma AccrueSound(d: Db, o: Id, rate: nat)
    requires Sound(d) && o < |d.orders|
    ensures Sound(Orders.Accrue(d, o, rate))
  {
    AccrueGrows(d, o, rate);
    OldRowsStaySound(d, Orders.Accrue(d, o, rate));
  }

  lemma MarkPaidSound(d: Db, o: Id, i: Id, now: Instant)
    requires Sound(d) && o < |d.orders| && i <= |d.invoices|
    ensures Sound(Orders.MarkPaid(d, o, i, now))
  {
    var e := Orders.MarkPaid(d, o, i, now);
    MarkPaidGrows(d, o, i, now);
    assert OrderRow(d, d.orders[o]);
    forall k | |d.services| <= k < |e.services| ensures ServiceRow(e, e.services[k]) {
      assert e.services[k] in Orders.NewServices(d.orders[o].user, o, d.orders[o].lines, now);
    }
    OldRowsStaySound(d, e);
  }

  lemma SettleOrderSound(d: Db, user: Id, o: Id, now: Instant, rate: nat)
    requires Sound(d)
    ensures var r := Orders.Settle(d, user, o, now, rate); r.Some? ==> Sound(r.value)
  {
    hide Sound;
    if Orders.Settle(d, user, o, now, rate).Some? {
      var i := Orders.InvoiceFor(d.invoices, o);
      MarkPaidSound(d, o, i, now);
      AccrueSound(Orders.MarkPaid(d, o, i, now), o, rate);
    }
  }

  lemma ApplySound(d: Db, s: Id, now: Instant)
    requires Sound(d) && s < |d.services|
    ensures Sound(Billing.ApplyRenewal(d, s, now))
  {
    ApplyGrows(d, s, now);
    OldRowsStaySound(d, Billing.ApplyRenewal(d, s, now));
  }

  lemma AddInvoiceSound(d: Db, x: Invoice)
    requires Sound(d) && InvoiceRow(d, x)
    ensures Sound(d.(invoices := d.invoices + [x]))
  {
    InvoiceGrows(d, x);
    OldRowsStaySound(d, d.(invoices := d.invoices + [x]));
  }

  lemma PayInvoiceSound(d: Db, i: Id)
    requires Sound(d) && i < |d.invoices|
    ensures Sound(Billing.PayInvoice(d, i))
  {
    assert Grows(d, Billing.PayInvoice(d, i));
    OldRowsStaySound(d, Billing.PayInvoice(d, i));
  }

  lemma RenewSound(d: Db, user: Id, s: Id, now: Instant, debit: bool)
    requires Sound(d)
    ensures var r := Billing.Renew(d, user, s, now, debit); r.Some? ==> Sound(r.value)
  {
    if Billing.Renew(d, user, s, now, debit).Some? {
      var price := d.services[s].price;
      assert UserOk(d, user) by { assert ServiceRow(d, d.services[s]); }
      hide Sound;
      DebitSound(d, user, price, ServiceDebit(s));
      var e := if debit then Wallet.Debit(d, user, price, ServiceDebit(s)).value else d;
      ApplySound(e, s, now);
      AddInvoiceSound(Billing.ApplyRenewal(e, s, now), Invoice(user, None, None, None, InvoicePaid, price));
    }
  }

  lemma AutoRenewSound(d: Db, s: Id, listed: Instant, now: Instant, window: nat)
    requires Sound(d)
    ensures var r := Billing.AutoRenew(d, s, listed, now, window); r.Some? ==> Sound(r.value)
  {
    if Billing.AutoRenew(d, s, listed, now, window).Some? {
      var x := d.services[s];
      assert UserOk(d, x.user) by { assert ServiceRow(d, x); }
      var c := d.(renewalKeys := d.renewalKeys + {(s, listed)});
      assert Sound(c) by { KeyGrows(d, c.renewalKeys); OldRowsStaySound(d, c); }
      hide Sound;
      DebitSound(c, x.user, x.price, ServiceDebit(s));
      var e := Wallet.Debit(c, x.user, x.price, ServiceDebit(s)).value;
      ApplySound(e, s, now);
      AddInvoiceSound(Billing.ApplyRenewal(e, s, now), Invoice(x.user, None, Some(s), None, InvoicePaid, x.price));
    }
  }

  lemma TrafficSound(d: Db, user: Id, i: Id, price: Option<int>)
    requires Sound(d) && i < |d.invoices| && d.invoices[i].service.Some? && d.invoices[i].traffic.Some?
    ensures var r := Billing.SettleTraffic(d, user, i, price); r.Some? ==> Sound(r.value)
  {
    var r := Billing.SettleTraffic(d, user, i, price);
    if r.Some? {
      assert Grows(d, r.value);
      OldRowsStaySound(d, r.value);
    }
  }

  lemma SettleInvoiceSound(d: Db, user: Id, i: Id, now: Instant, rate: nat, price: Option<int>)
    requires Sound(d)
    ensures var r := Billing.SettleInvoice(d, user, i, now, rate, price); r.Some? ==> Sound(r.value)
  {
    hide Sound;
    if Billing.SettleInvoice(d, user, i, now, rate, price).Some? {
      var x := d.invoices[i];
      if x.order.Some? {
        SettleOrderSound(d, user, x.order.value, now, rate);
      } else if x.service.Some? && x.traffic.Some? {
        TrafficSound(d, user, i, price);
      } else if x.service.Some? {
        ApplySound(d, x.service.value, now);
        PayInvoiceSound(Billing.ApplyRenewal(d, x.service.value, now), i);
      } else {
        PayInvoiceSound(d, i);
      }
    }
  }

  lemma SettleTargetSound(d: Db, user: Id, purpose: Purpose, target: Id, now: Instant, rate: nat, price: Option<int>)
    requires Sound(d)
    ensures var r := Payments.SettleTarget(d, user, purpose, target, now, rate, price); r.Some? ==> Sound(r.value)
  {
    hide Sound;
    match purpose
    case ForRecharge =>
    case ForOrder => SettleOrderSound(d, user, target, now, rate);
    case ForInvoice => SettleInvoiceSound(d, user, target, now, rate, price);
    case ForRenewal => RenewSound(d, user, target, now, false);
  }

  lemma CloseIntentSound(d: Db, i: Id, status: IntentStatus, received: int)
    requires Sound(d) && i < |d.intents|
    ensures Sound(Payments.CloseIntent(d, i, status, received))
  {
    CloseIntentGrows(d, i, status, received);
    OldRowsStaySound(d, Payments.CloseIntent(d, i, status, received));
  }

  lemma AddIntentSound(d: Db, x: Intent)
    requires Sound(d) && IntentRow(d, x)
    ensures Sound(d.(intents := d.intents + [x]))
  {
    var e := d.(intents := d.intents + [x]);
    assert Grows(d, e);
    OldRowsStaySound(d, e);
  }

  // The amount the reservation transaction agreed to is what the target costs.
  lemma PayableIsOwed(d: Db, user: Id, purpose: Purpose, target: Id, total: int, quoted: Option<Instant>, x: Intent)
    requires Sound(d) && LoadTarget(d, user, purpose, target).Some?
    requires Payable(d, purpose, target, quoted) == Some(total) && total > 0
    requires x.user == user && x.purpose == purpose && x.target == target && x.amount + x.balance == total
    ensures IntentRow(d, x)
  {
    match purpose
    case ForRecharge =>
    case ForOrder => assert OrderRow(d, d.orders[target]);
    case ForInvoice => assert InvoiceRow(d, d.invoices[target]);
    case ForRenewal => assert ServiceRow(d, d.services[target]);
  }

  lemma CreateIntentSound(d: Db, user: Id, purpose: Purpose, target: Id, total: int, wish: int,
                          quoted: Option<Instant>, now: Instant, rate: nat, price: Option<int>)
    requires Sound(d)
    ensures var r := Payments.CreateIntent(d, user, purpose, target, total, wish, quoted, now, rate, price);
            r.Some? ==> Sound(r.value)
  {
    hide Sound, Busy, Payable, LoadTarget;
    if Payments.CreateIntent(d, user, purpose, target, total, wish, quoted, now, rate, price).Some? {
      var balance := Payments.WalletPart(total, wish);
      var key := if purpose == ForRecharge then None else LoadTarget(d, user, purpose, target);
      var x := Intent(user, purpose, target, total - balance, balance, IntentPending, key, 0);
      if purpose != ForRecharge { PayableIsOwed(d, user, purpose, target, total, quoted, x); }
      DebitSound(d, user, balance, IntentDebit(purpose, target));
      var e := Wallet.Debit(d, user, balance, IntentDebit(purpose, target)).value;
      assert IntentRow(e, x);
      OpenIntentSound(e, x, now, rate, price);
    }
  }

  lemma OpenIntentSound(d: Db, x: Intent, now: Instant, rate: nat, price: Option<int>)
    requires Sound(d) && IntentRow(d, x)
    ensures var r := Payments.OpenIntent(d, x, now, rate, price); r.Some? ==> Sound(r.value)
  {
    hide Sound, IntentRow;
    var r := Payments.OpenIntent(d, x, now, rate, price);
    var e := d.(intents := d.intents + [x]);
    AddIntentSound(d, x);
    if r.Some? && x.amount <= 0 {
      SettleTargetSound(e, x.user, x.purpose, x.target, now, rate, price);
      var f := Payments.SettleTarget(e, x.user, x.purpose, x.target, now, rate, price).value;
      CloseIntentSound(f, |d.intents|, IntentPaid, 0);
    }
  }

  lemma FailIntentSound(d: Db, i: Id)
    requires Sound(d)
    ensures var r := Payments.FailIntent(d, i); r.Some? ==> Sound(r.value)
  {
    hide Sound;
    if Payments.FailIntent(d, i).Some? {
      CloseIntentSound(d, i, IntentFailed, d.intents[i].received);
      PostSound(Payments.CloseIntent(d, i, IntentFailed, d.intents[i].received), d.intents[i].user,
                d.intents[i].balance, IntentReturn(i));
    }
  }

  lemma FinalizeSound(d: Db, i: Id, paid: int, now: Instant, rate: nat, price: Option<int>)
    requires Sound(d)
    ensures var r := Payments.Finalize(d, i, paid, now, rate, price); r.Some? ==> Sound(r.value)
  {
    hide Sound;
    if Payments.Finalize(d, i, paid, now, rate, price).Some? && d.intents[i].status == IntentPending {
      var x := d.intents[i];
      PostSound(d, x.user, x.amount, IntentRecharge(i));
      SettleTargetSound(d, x.user, x.purpose, x.target, now, rate, price);
      var e := if x.purpose == ForRecharge then Wallet.Post(d, x.user, x.amount, IntentRecharge(i)).value
               else Payments.SettleTarget(d, x.user, x.purpose, x.target, now, rate, price).value;
      CloseIntentSound(e, i, IntentPaid, paid);
    }
  }

  lemma SettleFromWalletSound(d: Db, user: Id, i: Id, now: Instant, rate: nat, price: Option<int>)
    requires Sound(d)
    ensures var r := Payments.SettleFromWallet(d, user, i, now, rate, price); r.Some? ==> Sound(r.value)
  {
    hide Sound, Busy;
    if Payments.SettleFromWallet(d, user, i, now, rate, price).Some? {
      DebitSound(d, user, d.invoices[i].total, InvoiceDebit(i));
      SettleInvoiceSound(Wallet.Debit(d, user, d.invoices[i].total, InvoiceDebit(i)).value, user, i, now, rate, price);
    }
  }

  lemma PayOrderSound(d: Db, user: Id, o: Id, now: Instant, rate: nat)
    requires Sound(d)
    ensures var r := Orders.Pay(d, user, o, now, rate); r.Some? ==> Sound(r.value)
  {
    hide Sound, Busy;
    if Orders.Pay(d, user, o, now, rate).Some? {
      DebitSound(d, user, d.orders[o].total, OrderDebit(o));
      SettleOrderSound(Wallet.Debit(d, user, d.orders[o].total, OrderDebit(o)).value, user, o, now, rate);
    }
  }

  lemma AccountSound(d: Db, op: AccountOp)
    requires Sound(d)
    ensures var r := DoAccount(d, op); r.Some? ==> Sound(r.value)
  {
    hide Sound, Grows, NewRowsSound;
    var r := DoAccount(d, op);
    if r.Some? {
      match op
      case Register(_) => AccountGrows(d, op); AccountAddsSound(d, op); OldRowsStaySound(d, r.value);
      case Recharge(user, amount) => PostSound(d, user, amount, Recharged);
      case CreditExternal(_, _, _, _) => AccountGrows(d, op); AccountAddsSound(d, op); OldRowsStaySound(d, r.value);
      case AdjustByAdmin(user, amount) => PostSound(d, user, amount, AdminAdjust);
    }
  }

  lemma AccountAddsSound(d: Db, op: AccountOp)
    requires Sound(d) && (op.Register? || op.CreditExternal?) && DoAccount(d, op).Some?
    ensures NewRowsSound(d, DoAccount(d, op).value)
  {
    assert |d.referrers| == |d.bank.balances|;
    hide Sound;
  }

  lemma SaleSound(d: Db, op: OrderOp)
    requires Sound(d)
    ensures var r := DoSale(d, op); r.Some? ==> Sound(r.value)
  {
    var r := DoSale(d, op);
    if r.Some? {
      match op
      case CreateOrder(_, _, _) => SaleGrows(d, op); OldRowsStaySound(d, r.value);
      case PayOrder(user, o, now, rate) => PayOrderSound(d, user, o, now, rate);
      case CancelOrder(_, _) => SaleGrows(d, op); OldRowsStaySound(d, r.value);
    }
  }

  lemma BillSound(d: Db, op: BillingOp)
    requires Sound(d)
    ensures var r := DoBill(d, op); r.Some? ==> Sound(r.value)
  {
    var r := DoBill(d, op);
    if r.Some? {
      match op
      case RenewNow(user, s, now) => RenewSound(d, user, s, now, true);
      case CreateRenewalInvoice(_, s) =>
        assert ServiceRow(d, d.services[s]);
        AddInvoiceSound(d, r.value.invoices[|d.invoices|]);
      case CreateTrafficInvoice(_, s, _, _) =>
        assert ServiceRow(d, d.services[s]);
        AddInvoiceSound(d, r.value.invoices[|d.invoices|]);
      case AutoRenew(s, listed, now, window) => AutoRenewSound(d, s, listed, now, window);
      case SetService(_, _, _, _, _) => BillGrows(d, op); OldRowsStaySound(d, r.value);
    }
  }

  lemma PaymentSound(d: Db, op: PaymentOp)
    requires Sound(d)
    ensures var r := DoPayment(d, op); r.Some? ==> Sound(r.value)
  {
    hide Sound, Payments.Finalize, Payments.FailIntent, Payments.CreateIntent, Payments.SettleFromWallet;
    match op
    case SettleInvoice(user, i, now, rate, price) => SettleFromWalletSound(d, user, i, now, rate, price);
    case CreateIntent(user, purpose, target, total, wish, quoted, now, rate, price) =>
      CreateIntentSound(d, user, purpose, target, total, wish, quoted, now, rate, price);
    case CancelIntent(_, i) => FailIntentSound(d, i);
    case VoidIntent(i) => FailIntentSound(d, i);
    case Finalize(i, paid, now, rate, price) => FinalizeSound(d, i, paid, now, rate, price);
    case LateReceipt(i, paid) => if Payments.LateReceipt(d, i, paid).Some? { CloseIntentSound(d, i, IntentLate, paid); }
  }

  lemma ChangeSound(d: Db, op: ChangeOp)
    requires Sound(d)
    ensures var r := DoChange(d, op); r.Some? ==> Sound(r.value)
  {
    hide Sound, Grows;
    var r := DoChange(d, op);
    if r.Some? {
      ChangeGrows(d, op);
      ChangeAddsLittle(d, op);
      OldRowsStaySound(d, r.value);
    }
  }

  lemma ChangeAddsLittle(d: Db, op: ChangeOp)
    requires Sound(d) && DoChange(d, op).Some?
    ensures NewRowsSound(d, DoChange(d, op).value)
  {
    match op
    case ReserveChange(_, _, _, _, _) => HoldAddsOne(d, op);
    case ClaimChange(_) =>
    case DoubtChange(_) =>
    case FinishChange(c, applied) => FinishAddsNothing(d, c, applied);
  }

  lemma HoldAddsOne(d: Db, op: ChangeOp)
    requires Sound(d) && op.ReserveChange? && DoChange(d, op).Some?
    ensures NewRowsSound(d, DoChange(d, op).value)
  {
    hide Changes.Fenced, Changes.TokenUsed, Changes.OfferFor;
    assert |d.referrers| == |d.bank.balances| && ServiceRow(d, d.services[op.service]);
    hide Sound;
  }

  lemma FinishAddsNothing(d: Db, c: Id, applied: bool)
    requires Sound(d) && Changes.Finish(d, c, applied).Some?
    ensures NewRowsSound(d, Changes.Finish(d, c, applied).value)
  {
    assert |d.referrers| == |d.bank.balances|;
    hide Sound;
  }

  lemma RequestSound(d: Db, user: Id, o: Id, payment: Option<Id>)
    requires Sound(d)
    ensures var r := Refunds.Request(d, user, o, payment); r.Some? ==> Sound(r.value)
  {
    var r := Refunds.Request(d, user, o, payment);
    if r.Some? {
      RefundGrows(d, RequestRefund(user, o, payment));
      assert OrderRow(d, d.orders[o]);
      assert payment.Some? ==> IntentRow(d, d.intents[payment.value]);
      OldRowsStaySound(d, r.value);
    }
  }

  lemma RefundSound(d: Db, op: RefundOp)
    requires Sound(d)
    ensures var r := DoRefund(d, op); r.Some? ==> Sound(r.value)
  {
    hide Grows;
    var r := DoRefund(d, op);
    if r.Some? {
      RefundGrows(d, op);
      if op.RequestRefund? {
        RequestSound(d, op.user, op.order, op.payment);
      } else {
        hide Sound;
        RefundAddsLittle(d, op);
        OldRowsStaySound(d, r.value);
      }
    }
  }

  lemma RefundAddsLittle(d: Db, op: RefundOp)
    requires Sound(d) && !op.RequestRefund? && DoRefund(d, op).Some?
    ensures NewRowsSound(d, DoRefund(d, op).value)
  {
    if op.CompleteRefund? {
      hide Sound, NewRowsSound, Refunds.Complete;
      CompleteAddsNothing(d, op.execution);
    } else {
      OthersAddLittle(d, op);
    }
  }

  lemma OthersAddLittle(d: Db, op: RefundOp)
    requires Sound(d) && !op.RequestRefund? && !op.CompleteRefund? && DoRefund(d, op).Some?
    ensures NewRowsSound(d, DoRefund(d, op).value)
  {
    hide Refunds.Complete;
    assert |d.referrers| == |d.bank.balances|;
    hide Sound;
  }

  lemma CompleteAddsNothing(d: Db, x: Id)
    requires Sound(d) && Refunds.Complete(d, x).Some?
    ensures NewRowsSound(d, Refunds.Complete(d, x).value)
  {
    assert |d.referrers| == |d.bank.balances|;
    CompleteSizes(d, x);
    CompletePosts(d, x);
    hide Sound, Refunds.Complete;
  }

  lemma CompleteSizes(d: Db, x: Id)
    requires Refunds.Complete(d, x).Some?
    ensures var e := Refunds.Complete(d, x).value;
            && |e.orders| == |d.orders| && |e.invoices| == |d.invoices| && |e.services| == |d.services|
            && |e.intents| == |d.intents| && |e.changes| == |d.changes| && |e.refunds| == |d.refunds|
            && |e.executions| == |d.executions| && |e.affiliates| == |d.affiliates|
            && |e.commissions| == |d.commissions| && |e.withdrawals| == |d.withdrawals|
  {
    hide Affiliates.ReverseBy;
  }

  lemma CompletePosts(d: Db, x: Id)
    requires Refunds.Complete(d, x).Some?
    ensures var e := Refunds.Complete(d, x).value;
            && e.referrers == d.referrers && e.plugins == d.plugins && e.advances == d.advances
            && |e.bank.balances| == |d.bank.balances|
            && forall t :: |d.bank.log| <= t < |e.bank.log| ==> e.bank.log[t].ref.RefundCredit?
  {
    hide Affiliates.ReverseBy;
  }

  lemma ShareSound(d: Db, op: AffiliateOp)
    requires Sound(d)
    ensures var r := DoShare(d, op); r.Some? ==> Sound(r.value)
  {
    var r := DoShare(d, op);
    if r.Some? {
      ShareGrows(d, op);
      if op.Withdraw? { assert AffiliateRow(d, d.affiliates[Affiliates.AffiliateOf(d.affiliates, op.user)]); }
      OldRowsStaySound(d, r.value);
    }
  }

  lemma StepSound(d: Db, op: Op)
    requires Sound(d)
    ensures Sound(Step(d, op))
  {
    hide Sound, DoAccount, DoSale, DoBill, DoPayment, DoChange, DoRefund, DoShare;
    match op
    case Account(a) => AccountSound(d, a);
    case Sale(s) => SaleSound(d, s);
    case Bill(b) => BillSound(d, b);
    case Payment(p) => PaymentSound(d, p);
    case ProductChange(c) => ChangeSound(d, c);
    case Repay(r) => RefundSound(d, r);
    case Share(s) => ShareSound(d, s);
  }
}
