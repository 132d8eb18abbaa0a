// Which status moves any step of the system can make. A status left behind for
// good is never seen again, and an open change freezes its service's expiry.
module Transitions {
  import opened Options
  import opened Calendar
  import opened Tables
  import opened Targets
  import opened Machine
  import Wallet
  import Orders
  import Billing
  import Payments
  import Changes
  import Refunds
  import Payouts
  import Renewals

  predicate OrderMoves(s: OrderStatus, t: OrderStatus) {
    s == t || (s == OrderPending && (t == OrderPaid || t == OrderCancelled)) || (s == OrderPaid && t == OrderRefunded)
  }

  predicate InvoiceMoves(s: InvoiceStatus, t: InvoiceStatus) { s == t || s == InvoiceUnpaid }

  predicate IntentMoves(s: IntentStatus, t: IntentStatus) {
    || s == t
    || (s == IntentPending && (t == IntentPaid || t == IntentFailed))
    || (s == IntentFailed && t == IntentLate)
    || (s == IntentPaid && t == IntentRefunding)
    || (s == IntentRefunding && (t == IntentPaid || t == IntentRefunded))
  }

  predicate ChangeMoves(s: ChangeStatus, t: ChangeStatus) {
    s == t || (Changes.Open(s) && t != ChangeReserved)
  }

  predicate RefundMoves(s: RefundStatus, t: RefundStatus) {
    match s
    case RefundPending => t != RefundFailed && t != RefundCompleted
    case RefundApproved => s == t || t == RefundProcessing
    case RefundFailed => s == t || t == RefundProcessing
    case RefundProcessing => s == t || t == RefundFailed || t == RefundCompleted
    case _ => s == t
  }

  predicate WithdrawalMoves(s: WithdrawalStatus, t: WithdrawalStatus) { s == t || s == WithdrawalPending }

  ghost predicate Sales(d: Db, e: Db) {
    && |d.orders| <= |e.orders|
      && (forall o :: 0 <= o < |d.orders| ==> OrderMoves(d.orders[o].status, e.orders[o].status))
    && |d.invoices| <= |e.invoices|
    && (forall i :: 0 <= i < |d.invoices| ==> InvoiceMoves(d.invoices[i].status, e.invoices[i].status))
  }

  // While a service has an open change its expiry cannot move.
  ghost predicate Frozen(d: Db, e: Db) {
    |d.services| <= |e.services|
    && (forall s :: 0 <= s < |d.services| && d.services[s].change.Some? ==>
        e.services[s].expires == d.services[s].expires)
  }

  ghost predicate Claims(d: Db, e: Db) {
    && |d.intents| <= |e.intents|
      && (forall i :: 0 <= i < |d.intents| ==> IntentMoves(d.intents[i].status, e.intents[i].status))
    && |d.changes| <= |e.changes|
      && (forall c :: 0 <= c < |d.changes| ==> ChangeMoves(d.changes[c].status, e.changes[c].status))
    && |d.refunds| <= |e.refunds|
      && (forall r :: 0 <= r < |d.refunds| ==> RefundMoves(d.refunds[r].status, e.refunds[r].status))
    && |d.withdrawals| <= |e.withdrawals|
    && (forall w :: 0 <= w < |d.withdrawals| ==> WithdrawalMoves(d.withdrawals[w].status, e.withdrawals[w].status))
  }

  ghost predicate Lawful(d: Db, e: Db) { Sales(d, e) && Frozen(d, e) && Claims(d, e) }

  lemma SameClaims(d: Db, e: Db)
    requires e.intents == d.intents && e.changes == d.changes && e.refunds == d.refunds
      && e.withdrawals == d.withdrawals
    ensures Claims(d, e)
  {
  }

  lemma SettleOrderSales(d: Db, user: Id, o: Id, now: Instant, rate: nat)
    ensures var r := Orders.Settle(d, user, o, now, rate); r.Some? ==> (Sales(d, r.value) && Frozen(d, r.value))
  {
  }

  lemma RenewSales(d: Db, user: Id, s: Id, now: Instant, debit: bool)
    ensures var r := Billing.Renew(d, user, s, now, debit); r.Some? ==> (Sales(d, r.value) && Frozen(d, r.value))
  {
  }

  lemma SettleInvoiceSales(d: Db, user: Id, i: Id, now: Instant, rate: nat, price: Option<int>)
    ensures var r := Billing.SettleInvoice(d, user, i, now, rate, price);
            r.Some? ==> (Sales(d, r.value) && Frozen(d, r.value))
  {
    hide Orders.Settle;
    var r := Billing.SettleInvoice(d, user, i, now, rate, price);
    if r.Some? && d.invoices[i].order.Some? { SettleOrderSales(d, user, d.invoices[i].order.value, now, rate); }
  }

  lemma SettleTargetSales(d: Db, user: Id, purpose: Purpose, target: Id, now: Instant, rate: nat, price: Option<int>)
    ensures var r := Payments.SettleTarget(d, user, purpose, target, now, rate, price);
            r.Some? ==> (Sales(d, r.value) && Frozen(d, r.value))
  {
    hide Orders.Settle, Billing.SettleInvoice, Billing.Renew;
    match purpose
    case ForRecharge =>
    case ForOrder => SettleOrderSales(d, user, target, now, rate);
    case ForInvoice => SettleInvoiceSales(d, user, target, now, rate, price);
    case ForRenewal => RenewSales(d, user, target, now, false);
  }

  lemma CreateIntentLawful(d: Db, user: Id, purpose: Purpose, target: Id, total: int, wish: int,
                           quoted: Option<Instant>, now: Instant, rate: nat, price: Option<int>)
    ensures var r := Payments.CreateIntent(d, user, purpose, target, total, wish, quoted, now, rate, price);
            r.Some? ==> Lawful(d, r.value)
  {
    hide Busy, Payable, LoadTarget, KeyTaken, Payments.SettleTarget;
    var r := Payments.CreateIntent(d, user, purpose, target, total, wish, quoted, now, rate, price);
    if r.Some? {
      var balance := Payments.WalletPart(total, wish);
      var key := if purpose == ForRecharge then None else LoadTarget(d, user, purpose, target);
      var e := Wallet.Debit(d, user, balance, IntentDebit(purpose, target)).value;
      var f := e.(intents := e.intents
                  + [Intent(user, purpose, target, total - balance, balance, IntentPending, key, 0)]);
      SettleTargetSales(f, user, purpose, target, now, rate, price);
    }
  }

  lemma FinalizeLawful(d: Db, i: Id, paid: int, now: Instant, rate: nat, price: Option<int>)
    ensures var r := Payments.Finalize(d, i, paid, now, rate, price); r.Some? ==> Lawful(d, r.value)
  {
    hide Payments.SettleTarget;
    var r := Payments.Finalize(d, i, paid, now, rate, price);
    if r.Some? && d.intents[i].status == IntentPending {
      SettleTargetSales(d, d.intents[i].user, d.intents[i].purpose, d.intents[i].target, now, rate, price);
    }
  }

  lemma SettleFromWalletLawful(d: Db, user: Id, i: Id, now: Instant, rate: nat, price: Option<int>)
    ensures var r := Payments.SettleFromWallet(d, user, i, now, rate, price); r.Some? ==> Lawful(d, r.value)
  {
    hide Busy, Billing.SettleInvoice;
    var r := Payments.SettleFromWallet(d, user, i, now, rate, price);
    if r.Some? {
      var e := Wallet.Debit(d, user, d.invoices[i].total, InvoiceDebit(i)).value;
      SettleInvoiceSales(e, user, i, now, rate, price);
      hide *;
      SameClaims(d, r.value);
      SalesThrough(d, e, r.value);
    }
  }

  lemma SalesThrough(d: Db, e: Db, f: Db)
    requires e.orders == d.orders && e.invoices == d.invoices && e.services == d.services
    requires Sales(e, f) && Frozen(e, f)
    ensures Sales(d, f) && Frozen(d, f)
  {
  }

  lemma PayOrderLawful(d: Db, user: Id, o: Id, now: Instant, rate: nat)
    ensures var r := Orders.Pay(d, user, o, now, rate); r.Some? ==> Lawful(d, r.value)
  {
    hide Busy, Orders.Settle;
    var r := Orders.Pay(d, user, o, now, rate);
    if r.Some? {
      SettleOrderSales(Wallet.Debit(d, user, d.orders[o].total, OrderDebit(o)).value, user, o, now, rate);
    }
  }

  lemma SaleLawful(d: Db, op: OrderOp)
    ensures var r := DoSale(d, op); r.Some? ==> Lawful(d, r.value)
  {
    hide Orders.Pay;
    match op
    case CreateOrder(_, _, _) =>
    case PayOrder(user, o, now, rate) => PayOrderLawful(d, user, o, now, rate);
    case CancelOrder(_, _) =>
  }

  lemma BillLawful(d: Db, op: BillingOp)
    ensures var r := DoBill(d, op); r.Some? ==> Lawful(d, r.value)
  {
    hide Busy, Billing.AutoRenew, Billing.Renew, Sales, Frozen, Claims;
    var r := DoBill(d, op);
    if r.Some? {
      match op
      case RenewNow(user, s, now) => RenewSales(d, user, s, now, true); RenewLeavesClaims(d, user, s, now);
      case CreateRenewalInvoice(_, _) => InvoiceAdded(d, r.value);
      case CreateTrafficInvoice(_, _, _, _) => InvoiceAdded(d, r.value);
      case AutoRenew(s, listed, now, window) => AutoRenewLawful(d, s, listed, now, window);
      case SetService(s, _, _, _, _) => ServiceSet(d, s, r.value);
    }
  }

  lemma RenewLeavesClaims(d: Db, user: Id, s: Id, now: Instant)
    ensures var r := Billing.Renew(d, user, s, now, true); r.Some? ==> Claims(d, r.value)
  {
    hide Claims;
    var r := Billing.Renew(d, user, s, now, true);
    if r.Some? { SameClaims(d, r.value); }
  }

  lemma AutoRenewLawful(d: Db, s: Id, listed: Instant, now: Instant, window: nat)
    ensures var r := Billing.AutoRenew(d, s, listed, now, window); r.Some? ==> Lawful(d, r.value)
  {
    hide Claims;
    var r := Billing.AutoRenew(d, s, listed, now, window);
    if r.Some? { SameClaims(d, r.value); }
  }

  lemma InvoiceAdded(d: Db, e: Db)
    requires d.invoices <= e.invoices && e == d.(invoices := e.invoices)
    ensures Lawful(d, e)
  {
  }

  lemma ServiceSet(d: Db, s: Id, e: Db)
    requires s < |d.services| == |e.services| && e == d.(services := d.services[s := e.services[s]])
    requires e.services[s].expires == d.services[s].expires
    ensures Lawful(d, e)
  {
  }

  lemma PaymentLawful(d: Db, op: PaymentOp)
    ensures var r := DoPayment(d, op); r.Some? ==> Lawful(d, r.value)
  {
    hide Lawful, Payments.Finalize, Payments.CreateIntent, Payments.SettleFromWallet, Payments.FailIntent;
    match op
    case SettleInvoice(user, i, now, rate, price) => SettleFromWalletLawful(d, user, i, now, rate, price);
    case CreateIntent(user, purpose, target, total, wish, quoted, now, rate, price) =>
      CreateIntentLawful(d, user, purpose, target, total, wish, quoted, now, rate, price);
    case CancelIntent(_, i) => FailIntentLawful(d, i);
    case VoidIntent(i) => FailIntentLawful(d, i);
    case Finalize(i, paid, now, rate, price) => FinalizeLawful(d, i, paid, now, rate, price);
    case LateReceipt(i, paid) =>
      var r := Payments.LateReceipt(d, i, paid);
      if r.Some? { OnePayment(d, r.value); }
  }

  lemma FailIntentLawful(d: Db, i: Id)
    ensures var r := Payments.FailIntent(d, i); r.Some? ==> Lawful(d, r.value)
  {
    hide Lawful;
    var r := Payments.FailIntent(d, i);
    if r.Some? { OnePayment(d, r.value); }
  }

  lemma AccountLawful(d: Db, op: AccountOp)
    ensures var r := DoAccount(d, op); r.Some? ==> Lawful(d, r.value)
  {
    hide Lawful;
    var r := DoAccount(d, op);
    if r.Some? { SameTables(d, r.value); }
  }

  // A step that leaves the tables with a status, and the expiries, alone.
  lemma SameTables(d: Db, e: Db)
    requires e.orders == d.orders && e.invoices == d.invoices && e.services == d.services
    requires e.intents == d.intents && e.changes == d.changes && e.refunds == d.refunds
      && e.withdrawals == d.withdrawals
    ensures Lawful(d, e)
  {
  }

  lemma ChangeLawful(d: Db, op: ChangeOp)
    ensures var r := DoChange(d, op); r.Some? ==> Lawful(d, r.value)
  {
    hide Changes.Fenced, Changes.TokenUsed, Changes.OfferFor, Lawful;
    var r := DoChange(d, op);
    if r.Some? {
      var e := r.value;
      match op
      case ReserveChange(_, s, _, _, _) => OneChange(d, s, |d.changes|, e);
      case ClaimChange(c) => OneChange(d, d.changes[c].service, c, e);
      case DoubtChange(c) => OnlyChange(d, c, e);
      case FinishChange(c, _) => OneChange(d, d.changes[c].service, c, e);
    }
  }

  // One change moves or is added, and its service keeps its expiry.
  lemma OneChange(d: Db, s: Id, c: Id, e: Db)
    requires e.orders == d.orders && e.invoices == d.invoices && e.intents == d.intents
    requires e.refunds == d.refunds && e.withdrawals == d.withdrawals
    requires s < |d.services| == |e.services| && e.services == d.services[s := e.services[s]]
    requires e.services[s].expires == d.services[s].expires
    requires c < |e.changes| && |d.changes| <= |e.changes|
    requires forall b :: 0 <= b < |d.changes| && b != c ==> e.changes[b] == d.changes[b]
    requires c < |d.changes| ==> ChangeMoves(d.changes[c].status, e.changes[c].status)
    ensures Lawful(d, e)
  {
  }

  lemma OnlyChange(d: Db, c: Id, e: Db)
    requires c < |d.changes| == |e.changes| && e == d.(changes := d.changes[c := e.changes[c]])
    requires ChangeMoves(d.changes[c].status, e.changes[c].status)
    ensures Lawful(d, e)
  {
  }

  lemma ShareLawful(d: Db, op: AffiliateOp)
    ensures var r := DoShare(d, op); r.Some? ==> Lawful(d, r.value)
  {
  }

  lemma RefundLawful(d: Db, op: RefundOp)
    ensures var r := DoRefund(d, op); r.Some? ==> Lawful(d, r.value)
  {
    hide Lawful, Refunds.Complete, Refunds.Request, Refunds.ClaimPayment, Refunds.AskChannel, Refunds.Release;
    var r := DoRefund(d, op);
    match op
    case RequestRefund(_, _, _) => RequestLawful(d, op);
    case ReviewRefund(_, _) => RequestLawful(d, op);
    case CancelRefund(_, _) => RequestLawful(d, op);
    case StartRefund(_) => RequestLawful(d, op);
    case ClaimPayment(_) => ExecutionLawful(d, op);
    case AskChannel(_, _) => ExecutionLawful(d, op);
    case ReleasePayment(_) => ExecutionLawful(d, op);
    case CompleteRefund(e) => CompleteLawful(d, e);
    case AbortRefund(_) => ExecutionLawful(d, op);
    case FailRefund(_) => ExecutionLawful(d, op);
  }

  lemma RequestLawful(d: Db, op: RefundOp)
    requires op.RequestRefund? || op.ReviewRefund? || op.CancelRefund? || op.StartRefund?
    ensures var r := DoRefund(d, op); r.Some? ==> Lawful(d, r.value)
  {
    hide Refunds.Complete;
  }

  // What an execution does before its closing transaction touches one request and
  // one payment at most.
  lemma ExecutionLawful(d: Db, op: RefundOp)
    requires op.ClaimPayment? || op.AskChannel? || op.ReleasePayment? || op.AbortRefund? || op.FailRefund?
    ensures var r := DoRefund(d, op); r.Some? ==> Lawful(d, r.value)
  {
    hide Lawful, Refunds.Complete;
    var r := DoRefund(d, op);
    if r.Some? {
      var e := r.value;
      match op
      case ClaimPayment(_) => OnePayment(d, e);
      case AskChannel(_, _) => SameTables(d, e);
      case ReleasePayment(_) => OnePayment(d, e);
      case AbortRefund(_) => SameTables(d, e);
      case FailRefund(_) => OneRequest(d, e);
    }
  }

  lemma OnePayment(d: Db, e: Db)
    requires e.orders == d.orders && e.invoices == d.invoices && e.services == d.services
    requires e.changes == d.changes && e.refunds == d.refunds && e.withdrawals == d.withdrawals
    requires |e.intents| == |d.intents| && forall i :: 0 <= i < |d.intents| ==>
      IntentMoves(d.intents[i].status, e.intents[i].status)
    ensures Lawful(d, e)
  {
  }

  lemma OneRequest(d: Db, e: Db)
    requires e.orders == d.orders && e.invoices == d.invoices && e.services == d.services
    requires e.changes == d.changes && e.intents == d.intents && e.withdrawals == d.withdrawals
    requires |e.refunds| == |d.refunds| && forall r :: 0 <= r < |d.refunds| ==>
      RefundMoves(d.refunds[r].status, e.refunds[r].status)
    ensures Lawful(d, e)
  {
  }

  lemma CompleteLawful(d: Db, e: Id)
    ensures var r := Refunds.Complete(d, e); r.Some? ==> Lawful(d, r.value)
  {
    hide Refunds.Complete;
    var r := Refunds.Complete(d, e);
    if r.Some? {
      Payouts.CompleteTables(d, e);
      Renewals.CompleteKeepsServices(d, e);
      CompleteElsewhere(d, e);
      assert Sales(d, r.value);
      assert Frozen(d, r.value);
      assert Claims(d, r.value);
    }
  }

  lemma CompleteElsewhere(d: Db, e: Id)
    requires Refunds.Complete(d, e).Some?
    ensures var f := Refunds.Complete(d, e).value;
            f.invoices == d.invoices && f.changes == d.changes && f.withdrawals == d.withdrawals
            && e < |d.executions| && d.executions[e].refund < |d.refunds|
            && d.refunds[d.executions[e].refund].status == RefundProcessing
  {
  }

  lemma StepLawful(d: Db, op: Op)
    ensures Lawful(d, Step(d, op))
  {
    hide Lawful, DoAccount, DoSale, DoBill, DoPayment, DoChange, DoRefund, DoShare;
    SelfLawful(d);
    match op
    case Account(a) => AccountLawful(d, a);
    case Sale(s) => SaleLawful(d, s);
    case Bill(b) => BillLawful(d, b);
    case Payment(p) => PaymentLawful(d, p);
    case ProductChange(c) => ChangeLawful(d, c);
    case Repay(x) => RefundLawful(d, x);
    case Share(s) => ShareLawful(d, s);
  }

  lemma SelfLawful(d: Db)
    ensures Lawful(d, d)
  {
  }
}
