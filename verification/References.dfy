// What the rows of a database say about each other for good: references resolve,
// owners agree, and the amounts fixed when a row was written never move.
module References {
  import opened Options
  import opened Calendar
  import opened Tables
  import opened Targets
  import opened Machine
  import Wallet
  import Orders
  import Billing
  import Payments
  import Changes
  import Refunds
  import Affiliates

  // ----- rows only grow, and only their mutable columns change -----

  ghost predicate SameOrder(x: Order, y: Order) {
    x.user == y.user && x.total == y.total && x.lines == y.lines
  }

  ghost predicate SameInvoice(x: Invoice, y: Invoice) {
    x.user == y.user && x.order == y.order && x.service == y.service && x.traffic == y.traffic && x.total == y.total
  }

  ghost predicate SameService(x: Service, y: Service) {
    x.user == y.user && x.order == y.order && x.cycle == y.cycle && (x.expires.Some? ==> y.expires.Some?)
  }

  ghost predicate SameIntent(x: Intent, y: Intent) {
    x.user == y.user && x.purpose == y.purpose && x.target == y.target && x.amount == y.amount && x.balance == y.balance
  }

  ghost predicate SameChange(x: Change, y: Change) {
    x.(status := y.status) == y
  }

  ghost predicate SameRefund(x: Refund, y: Refund) {
    x.(status := y.status) == y
  }

  ghost predicate SameCommission(x: Commission, y: Commission) {
    x.(reversed := y.reversed) == y
  }

  ghost predicate SameWithdrawal(x: Withdrawal, y: Withdrawal) {
    x.(status := y.status) == y
  }

  ghost predicate Grows(d: Db, e: Db) {
    && |d.bank.balances| <= |e.bank.balances| && d.bank.log <= e.bank.log
    && d.referrers <= e.referrers && d.plugins <= e.plugins && d.advances <= e.advances
    && |d.orders| <= |e.orders| && (forall i :: 0 <= i < |d.orders| ==> SameOrder(d.orders[i], e.orders[i]))
    && |d.invoices| <= |e.invoices| && (forall i :: 0 <= i < |d.invoices| ==> SameInvoice(d.invoices[i], e.invoices[i]))
    && |d.services| <= |e.services| && (forall i :: 0 <= i < |d.services| ==> SameService(d.services[i], e.services[i]))
    && |d.intents| <= |e.intents| && (forall i :: 0 <= i < |d.intents| ==> SameIntent(d.intents[i], e.intents[i]))
    && |d.changes| <= |e.changes| && (forall i :: 0 <= i < |d.changes| ==> SameChange(d.changes[i], e.changes[i]))
    && |d.refunds| <= |e.refunds| && (forall i :: 0 <= i < |d.refunds| ==> SameRefund(d.refunds[i], e.refunds[i]))
    && |d.executions| <= |e.executions|
    && (forall i :: 0 <= i < |d.executions| ==> d.executions[i].refund == e.executions[i].refund)
    && |d.affiliates| <= |e.affiliates|
    && (forall i :: 0 <= i < |d.affiliates| ==> d.affiliates[i].user == e.affiliates[i].user)
    && |d.commissions| <= |e.commissions|
    && (forall i :: 0 <= i < |d.commissions| ==> SameCommission(d.commissions[i], e.commissions[i]))
    && |d.withdrawals| <= |e.withdrawals|
    && (forall i :: 0 <= i < |d.withdrawals| ==> SameWithdrawal(d.withdrawals[i], e.withdrawals[i]))
  }

  lemma GrowsThrough(a: Db, b: Db, c: Db)
    requires Grows(a, b) && Grows(b, c)
    ensures Grows(a, c)
  {
  }

  lemma GrowsSelf(db: Db)
    ensures Grows(db, db)
  {
  }

  lemma PostGrows(db: Db, user: Id, amount: int, ref: Ref)
    ensures var r := Wallet.PostUnlessZero(db, user, amount, ref); r.Some? ==> Grows(db, r.value)
  {
    var r := Wallet.PostUnlessZero(db, user, amount, ref);
    if r.Some? {
      assert r.value == db.(bank := r.value.bank);
      BankGrows(db, r.value.bank);
    }
  }

  lemma DebitGrows(db: Db, user: Id, amount: nat, ref: Ref)
    ensures var r := Wallet.Debit(db, user, amount, ref); r.Some? ==> Grows(db, r.value)
  {
    PostGrows(db, user, -(amount as int), ref);
  }

  lemma BankGrows(db: Db, bank: Bank)
    requires |db.bank.balances| <= |bank.balances| && db.bank.log <= bank.log
    ensures Grows(db, db.(bank := bank))
  {
  }

  lemma AccrueGrows(db: Db, o: Id, rate: nat)
    requires o < |db.orders|
    ensures Grows(db, Orders.Accrue(db, o, rate))
  {
  }

  lemma MarkPaidGrows(db: Db, o: Id, i: Id, now: Instant)
    requires o < |db.orders| && i <= |db.invoices|
    ensures Grows(db, Orders.MarkPaid(db, o, i, now))
  {
  }

  lemma SettleOrderGrows(db: Db, user: Id, o: Id, now: Instant, rate: nat)
    ensures var r := Orders.Settle(db, user, o, now, rate); r.Some? ==> Grows(db, r.value)
  {
    hide Grows, Busy;
    var r := Orders.Settle(db, user, o, now, rate);
    if r.Some? {
      var d := Orders.MarkPaid(db, o, Orders.InvoiceFor(db.invoices, o), now);
      MarkPaidGrows(db, o, Orders.InvoiceFor(db.invoices, o), now);
      AccrueGrows(d, o, rate);
      GrowsThrough(db, d, r.value);
    }
  }

  lemma ApplyGrows(db: Db, s: Id, now: Instant)
    requires s < |db.services|
    ensures Grows(db, Billing.ApplyRenewal(db, s, now))
  {
  }

  lemma RenewGrows(db: Db, user: Id, s: Id, now: Instant, debit: bool)
    ensures var r := Billing.Renew(db, user, s, now, debit); r.Some? ==> Grows(db, r.value)
  {
    var r := Billing.Renew(db, user, s, now, debit);
    if r.Some? {
      DebitGrows(db, user, db.services[s].price, ServiceDebit(s));
      var d := if debit then Wallet.Debit(db, user, db.services[s].price, ServiceDebit(s)).value else db;
      ApplyGrows(d, s, now);
      GrowsThrough(db, d, Billing.ApplyRenewal(d, s, now));
      GrowsThrough(db, Billing.ApplyRenewal(d, s, now), r.value);
    }
  }

  lemma SettleInvoiceGrows(db: Db, user: Id, i: Id, now: Instant, rate: nat, price: Option<int>)
    ensures var r := Billing.SettleInvoice(db, user, i, now, rate, price); r.Some? ==> Grows(db, r.value)
  {
    var r := Billing.SettleInvoice(db, user, i, now, rate, price);
    if r.Some? {
      var x := db.invoices[i];
      if x.order.Some? {
        SettleOrderGrows(db, user, x.order.value, now, rate);
      } else if x.service.Some? && x.traffic.None? {
        ApplyGrows(db, x.service.value, now);
        GrowsThrough(db, Billing.ApplyRenewal(db, x.service.value, now), r.value);
      }
    }
  }

  lemma SettleTargetGrows(db: Db, user: Id, purpose: Purpose, target: Id, now: Instant, rate: nat, price: Option<int>)
    ensures var r := Payments.SettleTarget(db, user, purpose, target, now, rate, price); r.Some? ==> Grows(db, r.value)
  {
    match purpose
    case ForRecharge =>
    case ForOrder => SettleOrderGrows(db, user, target, now, rate);
    case ForInvoice => SettleInvoiceGrows(db, user, target, now, rate, price);
    case ForRenewal => RenewGrows(db, user, target, now, false);
  }

  lemma SettleFromWalletGrows(db: Db, user: Id, i: Id, now: Instant, rate: nat, price: Option<int>)
    ensures var r := Payments.SettleFromWallet(db, user, i, now, rate, price); r.Some? ==> Grows(db, r.value)
  {
    hide Grows, Busy;
    var r := Payments.SettleFromWallet(db, user, i, now, rate, price);
    GrowsSelf(db);
    if r.Some? {
      var total := db.invoices[i].total;
      DebitGrows(db, user, total, InvoiceDebit(i));
      var d := Wallet.Debit(db, user, total, InvoiceDebit(i)).value;
      SettleInvoiceGrows(d, user, i, now, rate, price);
      GrowsThrough(db, d, r.value);
    }
  }

  lemma PayOrderGrows(db: Db, user: Id, o: Id, now: Instant, rate: nat)
    ensures var r := Orders.Pay(db, user, o, now, rate); r.Some? ==> Grows(db, r.value)
  {
    hide Grows, Busy;
    var r := Orders.Pay(db, user, o, now, rate);
    if r.Some? {
      DebitGrows(db, user, db.orders[o].total, OrderDebit(o));
      var d := Wallet.Debit(db, user, db.orders[o].total, OrderDebit(o)).value;
      SettleOrderGrows(d, user, o, now, rate);
      GrowsThrough(db, d, r.value);
    }
  }

  lemma CloseIntentGrows(db: Db, i: Id, status: IntentStatus, received: int)
    requires i < |db.intents|
    ensures Grows(db, Payments.CloseIntent(db, i, status, received))
  {
  }

  lemma CreateIntentGrows(db: Db, user: Id, purpose: Purpose, target: Id, total: int, wish: int,
                          quoted: Option<Instant>, now: Instant, rate: nat, price: Option<int>)
    ensures var r := Payments.CreateIntent(db, user, purpose, target, total, wish, quoted, now, rate, price);
            r.Some? ==> Grows(db, r.value)
  {
    hide Grows, Busy;
    var r := Payments.CreateIntent(db, user, purpose, target, total, wish, quoted, now, rate, price);
    if r.Some? {
      var balance := Payments.WalletPart(total, wish);
      DebitGrows(db, user, balance, IntentDebit(purpose, target));
      var d := Wallet.Debit(db, user, balance, IntentDebit(purpose, target)).value;
      var key := if purpose == ForRecharge then None else LoadTarget(db, user, purpose, target);
      OpenIntentGrows(d, Intent(user, purpose, target, total - balance, balance, IntentPending, key, 0), now, rate,
                      price);
      GrowsThrough(db, d, r.value);
    }
  }

  lemma OpenIntentGrows(db: Db, x: Intent, now: Instant, rate: nat, price: Option<int>)
    ensures var r := Payments.OpenIntent(db, x, now, rate, price); r.Some? ==> Grows(db, r.value)
  {
    var r := Payments.OpenIntent(db, x, now, rate, price);
    var d := db.(intents := db.intents + [x]);
    assert Grows(db, d);
    if r.Some? && x.amount <= 0 {
      SettleTargetGrows(d, x.user, x.purpose, x.target, now, rate, price);
      var e := Payments.SettleTarget(d, x.user, x.purpose, x.target, now, rate, price).value;
      CloseIntentGrows(e, |db.intents|, IntentPaid, 0);
      GrowsThrough(db, d, e);
      GrowsThrough(db, e, r.value);
    }
  }

  lemma FailIntentGrows(db: Db, i: Id)
    ensures var r := Payments.FailIntent(db, i); r.Some? ==> Grows(db, r.value)
  {
    hide Grows, Busy;
    var r := Payments.FailIntent(db, i);
    if r.Some? {
      var d := Payments.CloseIntent(db, i, IntentFailed, db.intents[i].received);
      CloseIntentGrows(db, i, IntentFailed, db.intents[i].received);
      PostGrows(d, db.intents[i].user, db.intents[i].balance, IntentReturn(i));
      GrowsThrough(db, d, r.value);
    }
  }

  lemma FinalizeGrows(db: Db, i: Id, paid: int, now: Instant, rate: nat, price: Option<int>)
    ensures var r := Payments.Finalize(db, i, paid, now, rate, price); r.Some? ==> Grows(db, r.value)
  {
    hide Grows, Busy;
    var r := Payments.Finalize(db, i, paid, now, rate, price);
    GrowsSelf(db);
    if r.Some? && db.intents[i].status == IntentPending {
      var x := db.intents[i];
      PostGrows(db, x.user, x.amount, IntentRecharge(i));
      SettleTargetGrows(db, x.user, x.purpose, x.target, now, rate, price);
      var d := if x.purpose == ForRecharge then Wallet.Post(db, x.user, x.amount, IntentRecharge(i)).value
               else Payments.SettleTarget(db, x.user, x.purpose, x.target, now, rate, price).value;
      CloseIntentGrows(d, i, IntentPaid, paid);
      GrowsThrough(db, d, r.value);
    }
  }

  lemma KeyGrows(db: Db, keys: set<(Id, Instant)>)
    ensures Grows(db, db.(renewalKeys := keys))
  {
  }

  lemma InvoiceGrows(db: Db, x: Invoice)
    ensures Grows(db, db.(invoices := db.invoices + [x]))
  {
  }

  lemma AutoRenewGrows(db: Db, s: Id, listed: Instant, now: Instant, window: nat)
    ensures var r := Billing.AutoRenew(db, s, listed, now, window); r.Some? ==> Grows(db, r.value)
  {
    hide Grows, Busy;
    var r := Billing.AutoRenew(db, s, listed, now, window);
    if r.Some? {
      var x := db.services[s];
      var c := db.(renewalKeys := db.renewalKeys + {(s, listed)});
      KeyGrows(db, c.renewalKeys);
      DebitGrows(c, x.user, x.price, ServiceDebit(s));
      var d := Wallet.Debit(c, x.user, x.price, ServiceDebit(s)).value;
      ApplyGrows(d, s, now);
      var e := Billing.ApplyRenewal(d, s, now);
      InvoiceGrows(e, r.value.invoices[|e.invoices|]);
      GrowsThrough(db, c, d);
      GrowsThrough(db, d, e);
      GrowsThrough(db, e, r.value);
    }
  }

  lemma HoldGrows(db: Db, user: Id, s: Id, token: string, snapshot: Service, q: Changes.Offer)
    ensures var r := Changes.Hold(db, user, s, token, snapshot, q);
            r.Some? ==> Grows(db, r.value)
  {
    var r := Changes.Hold(db, user, s, token, snapshot, q);
    if r.Some? {
      var c := |db.changes|;
      var d := db.(changes := db.changes
                   + [Changes.NewChange(user, s, token, q, db.services[s].price)],
                   services := db.services[s := db.services[s].(change := Some(c))]);
      assert Grows(db, d);
      DebitGrows(d, user, q.charge, ChangeDebit(c));
      GrowsThrough(db, d, r.value);
    }
  }

  lemma FinishGrows(db: Db, c: Id, applied: bool)
    ensures var r := Changes.Finish(db, c, applied); r.Some? ==> Grows(db, r.value)
  {
    hide Grows, Wallet.PostUnlessZero;
    var r := Changes.Finish(db, c, applied);
    if r.Some? {
      var x := db.changes[c];
      var s := db.services[x.service];
      var freed := if applied then s.(change := None, product := x.product, price := x.price, options := x.options)
        else s.(change := None);
      var closed := if applied then ChangeApplied else ChangeFailed;
      var d := Changes.Restatus(db, c, closed).(services := db.services[x.service := freed]);
      CloseGrows(db, c, closed, x.service, freed);
      PostGrows(d, x.user, if applied then x.credit else x.charge, ChangeReturn(c));
      GrowsThrough(db, d, r.value);
    }
  }

  lemma CloseGrows(db: Db, c: Id, status: ChangeStatus, s: Id, x: Service)
    requires c < |db.changes| && s < |db.services| && SameService(db.services[s], x)
    ensures Grows(db, Changes.Restatus(db, c, status).(services := db.services[s := x]))
  {
  }

  lemma ReverseGrows(db: Db, o: Id)
    ensures Grows(db, Affiliates.Reverse(db, o))
  {
  }

  lemma MoveGrows(db: Db, e: Id, progress: Progress)
    requires e < |db.executions|
    ensures Grows(db, Refunds.Move(db, e, progress))
  {
  }

  lemma RestatusGrows(db: Db, r: Id, status: RefundStatus)
    requires r < |db.refunds|
    ensures Grows(db, Refunds.Restatus(db, r, status))
  {
  }

  lemma RevokeGrows(db: Db, o: Id)
    requires o < |db.orders|
    ensures Grows(db, Refunds.CloseOrder(db, o))
  {
  }

  lemma CompleteGrows(db: Db, e: Id)
    ensures var r := Refunds.Complete(db, e); r.Some? ==> Grows(db, r.value)
  {
    hide Grows;
    var result := Refunds.Complete(db, e);
    if result.Some? {
      var r := db.executions[e].refund;
      var x := db.refunds[r];
      var a := Refunds.Move(db, e, Closed);
      MoveGrows(db, e, Closed);
      var b := Refunds.Restatus(a, r, RefundCompleted);
      RestatusGrows(a, r, RefundCompleted);
      GrowsThrough(db, a, b);
      PostGrows(b, x.user, x.balance, RefundCredit(r));
      var c := Wallet.PostUnlessZero(b, x.user, x.balance, RefundCredit(r)).value;
      GrowsThrough(db, b, c);
      var d := Refunds.CloseOrder(c, x.order);
      RevokeGrows(c, x.order);
      GrowsThrough(db, c, d);
      var f := Refunds.CloseIntent(d, x);
      ClosePaymentGrows(d, x);
      GrowsThrough(db, d, f);
      ReverseGrows(f, x.order);
      GrowsThrough(db, f, result.value);
    }
  }

  lemma ClosePaymentGrows(db: Db, x: Refund)
    ensures Grows(db, Refunds.CloseIntent(db, x))
  {
  }

  lemma ReviewWithdrawalGrows(db: Db, w: Id, approve: bool)
    ensures var r := Affiliates.Review(db, w, approve); r.Some? ==> Grows(db, r.value)
  {
    var r := Affiliates.Review(db, w, approve);
    if r.Some? {
      var d := r.value.(bank := db.bank);
      assert Grows(db, d);
      BankGrows(d, r.value.bank);
      GrowsThrough(db, d, r.value);
    }
  }

  lemma CreditGrows(db: Db, plugin: string, external: string, user: Id, amount: int)
    ensures var r := Wallet.CreditExternal(db, plugin, external, user, amount); r.Some? ==> Grows(db, r.value)
  {
    var r := Wallet.CreditExternal(db, plugin, external, user, amount);
    if r.Some? {
      BankGrows(db, r.value.bank);
      GrowsThrough(db, db.(bank := r.value.bank), r.value);
    }
  }

  lemma AccountGrows(db: Db, op: AccountOp)
    ensures var r := DoAccount(db, op); r.Some? ==> Grows(db, r.value)
  {
    match op
    case Register(referrer) =>
    case Recharge(user, amount) => PostGrows(db, user, amount, Recharged);
    case CreditExternal(plugin, external, user, amount) => CreditGrows(db, plugin, external, user, amount);
    case AdjustByAdmin(user, amount) => PostGrows(db, user, amount, AdminAdjust);
  }

  lemma SaleGrows(db: Db, op: OrderOp)
    ensures var r := DoSale(db, op); r.Some? ==> Grows(db, r.value)
  {
    match op
    case CreateOrder(_, _, _) =>
    case PayOrder(user, o, now, rate) => PayOrderGrows(db, user, o, now, rate);
    case CancelOrder(_, _) =>
  }

  lemma BillGrows(db: Db, op: BillingOp)
    ensures var r := DoBill(db, op); r.Some? ==> Grows(db, r.value)
  {
    hide Grows, Billing.Renew, Billing.AutoRenew, Busy;
    match op
    case RenewNow(user, s, now) => RenewGrows(db, user, s, now, true);
    case CreateRenewalInvoice(_, _) => if DoBill(db, op).Some? { InvoicesGrow(db, DoBill(db, op).value.invoices); }
    case CreateTrafficInvoice(_, _, _, _) =>
      if DoBill(db, op).Some? { InvoicesGrow(db, DoBill(db, op).value.invoices); }
    case AutoRenew(s, listed, now, window) => AutoRenewGrows(db, s, listed, now, window);
    case SetService(s, _, _, _, _) => if DoBill(db, op).Some? { ServiceGrows(db, s, DoBill(db, op).value.services[s]); }
  }

  lemma InvoicesGrow(db: Db, invoices: seq<Invoice>)
    requires db.invoices <= invoices
    ensures Grows(db, db.(invoices := invoices))
  {
  }

  lemma ServiceGrows(db: Db, s: Id, x: Service)
    requires s < |db.services| && SameService(db.services[s], x)
    ensures Grows(db, db.(services := db.services[s := x]))
  {
  }

  lemma PaymentGrows(db: Db, op: PaymentOp)
    ensures var r := DoPayment(db, op); r.Some? ==> Grows(db, r.value)
  {
    match op
    case SettleInvoice(user, i, now, rate, price) => SettleFromWalletGrows(db, user, i, now, rate, price);
    case CreateIntent(user, purpose, target, total, wish, quoted, now, rate, price) =>
      CreateIntentGrows(db, user, purpose, target, total, wish, quoted, now, rate, price);
    case CancelIntent(_, i) => FailIntentGrows(db, i);
    case VoidIntent(i) => FailIntentGrows(db, i);
    case Finalize(i, paid, now, rate, price) => FinalizeGrows(db, i, paid, now, rate, price);
    case LateReceipt(_, _) =>
  }

  lemma ChangeGrows(db: Db, op: ChangeOp)
    ensures var r := DoChange(db, op); r.Some? ==> Grows(db, r.value)
  {
    hide Changes.Hold, Changes.OfferFor;
    match op
    case ReserveChange(user, s, token, snapshot, request) =>
      var q := Changes.OfferFor(request);
      if q.Some? { HoldGrows(db, user, s, token, snapshot, q.value); }
    case ClaimChange(_) =>
    case DoubtChange(_) =>
    case FinishChange(c, applied) => FinishGrows(db, c, applied);
  }

  lemma RequestGrows(db: Db, op: RefundOp)
    requires op.RequestRefund? || op.ReviewRefund? || op.CancelRefund? || op.StartRefund? || op.FailRefund?
    ensures var r := DoRefund(db, op); r.Some? ==> Grows(db, r.value)
  {
    hide Refunds.Complete;
  }

  lemma ExecutionGrows(db: Db, op: RefundOp)
    requires op.ClaimPayment? || op.AskChannel? || op.ReleasePayment? || op.AbortRefund?
    ensures var r := DoRefund(db, op); r.Some? ==> Grows(db, r.value)
  {
    hide Grows;
    var r := DoRefund(db, op);
    if r.Some? {
      match op
      case ClaimPayment(e) => OneRunGrows(db, e, r.value);
      case AskChannel(e, _) => OneRunGrows(db, e, r.value);
      case ReleasePayment(e) => OneRunGrows(db, e, r.value);
      case AbortRefund(e) => OneRunGrows(db, e, r.value);
    }
  }

  // What an execution does before its end touches its own row, and a payment's
  // status.
  lemma OneRunGrows(db: Db, e: Id, d: Db)
    requires e < |db.executions| && d == db.(executions := d.executions, intents := d.intents)
    requires |d.executions| == |db.executions| && |d.intents| == |db.intents|
    requires forall i :: 0 <= i < |d.executions| ==> d.executions[i].refund == db.executions[i].refund
    requires forall i :: 0 <= i < |d.intents| ==> d.intents[i] == db.intents[i].(status := d.intents[i].status)
    ensures Grows(db, d)
  {
  }

  lemma RefundGrows(db: Db, op: RefundOp)
    ensures var r := DoRefund(db, op); r.Some? ==> Grows(db, r.value)
  {
    hide Grows;
    if op.CompleteRefund? {
      CompleteGrows(db, op.execution);
    } else if op.ClaimPayment? || op.AskChannel? || op.ReleasePayment? || op.AbortRefund? {
      ExecutionGrows(db, op);
    } else {
      RequestGrows(db, op);
    }
  }

  lemma ShareGrows(db: Db, op: AffiliateOp)
    ensures var r := DoShare(db, op); r.Some? ==> Grows(db, r.value)
  {
    match op
    case JoinAffiliates(_) =>
    case Withdraw(_, _, _) =>
    case ReviewWithdrawal(w, approve) => ReviewWithdrawalGrows(db, w, approve);
  }

  // No step ever removes a row or rewrites what identifies it.
  lemma StepGrows(db: Db, op: Op)
    ensures Grows(db, Step(db, op))
  {
    hide Grows, DoAccount, DoSale, DoBill, DoPayment, DoChange, DoRefund, DoShare;
    GrowsSelf(db);
    match op
    case Account(a) => AccountGrows(db, a);
    case Sale(s) => SaleGrows(db, s);
    case Bill(b) => BillGrows(db, b);
    case Payment(p) => PaymentGrows(db, p);
    case ProductChange(c) => ChangeGrows(db, c);
    case Repay(r) => RefundGrows(db, r);
    case Share(s) => ShareGrows(db, s);
  }
}
