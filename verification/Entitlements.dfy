// What a completed refund leaves of the services its order paid for: which of them
// are over for good, and which can still come back.
module Entitlements {
  import opened Options
  import opened Calendar
  import opened Tables
  import opened Targets
  import opened Machine
  import Wallet
  import Orders
  import Billing
  import Payments
  import Changes
  import Refunds

  // Revoked by a refund, or gone.
  predicate Ended(x: Service) {
    x.status == ServiceTerminated || (x.status == ServiceSuspended && x.reason == RefundRevoked)
  }

  // Ended, or held by the administration, which no guarded write undoes.
  predicate Shut(x: Service) {
    || x.status == ServiceTerminated
    || (x.status == ServiceSuspended && (x.reason == NoReason || x.reason == Enforcing || x.reason == RefundRevoked))
  }

  // The moves of a service's status that are guarded in the source: the claims of the
  // patrol and their release, its suspensions, the termination, and resuming; and
  // provisioning, when its write still finds the service pending or failed. Writes
  // that change neither status nor reason are always allowed.
  predicate HostMove(status: ServiceStatus, reason: Reason, next: ServiceStatus, why: Reason) {
    || (next == status && why == reason)
    || ((status == ServicePending || status == ServiceFailed) && (next == ServiceActive || next == ServiceFailed)
        && why == reason)
    || (status == ServiceActive && reason == NoReason && next == ServiceActive && why == Enforcing)
    || (reason == Enforcing && next == status && why == NoReason)
    || (reason == Terminating && next == status && why == Expired)
    || (status == ServiceActive && reason == Enforcing && next == ServiceSuspended && why == Expired)
    || (status == ServiceActive && reason == NoReason && next == ServiceSuspended && why == TrafficExceeded)
    || (status == ServiceSuspended && reason == Expired && next == ServiceSuspended && why == Terminating)
    || (status == ServiceSuspended && (reason == Expired || reason == Terminating) && next == ServiceTerminated
        && why == NoReason)
    || (status == ServiceSuspended && (reason == Expired || reason == TrafficExceeded) && next == ServiceActive
        && why == NoReason)
  }

  predicate Guarded(d: Db, op: Op) {
    op.Bill? && op.bill.SetService? && op.bill.service < |d.services| ==>
      var x := d.services[op.bill.service];
      HostMove(x.status, x.reason, op.bill.status, op.bill.reason)
  }

  ghost predicate GuardedRun(d: Db, ops: seq<Op>) {
    forall k :: 0 <= k < |ops| ==> Guarded(Run(d, ops[..k]), ops[k])
  }

  // Some guarded run brings the service back into use, or to where it can be
  // renewed.
  ghost predicate Returns(d: Db, s: Id) {
    exists ops :: GuardedRun(d, ops) && s < |Run(d, ops).services| && RenewableStatus(Run(d, ops).services[s])
  }

  // ----- what is shut stays shut -----

  predicate ShutKept(x: Service, y: Service) {
    y.order == x.order && (Ended(x) ==> Ended(y)) && (Shut(x) ==> Shut(y) && y.expires == x.expires)
  }

  ghost predicate Stays(before: seq<Service>, after: seq<Service>) {
    |before| <= |after| && forall s :: 0 <= s < |before| ==> ShutKept(before[s], after[s])
  }

  lemma SameStays(services: seq<Service>)
    ensures Stays(services, services)
  {
  }

  lemma SettleOrderStays(d: Db, user: Id, o: Id, now: Instant, rate: nat)
    ensures var r := Orders.Settle(d, user, o, now, rate); r.Some? ==> Stays(d.services, r.value.services)
  {
  }

  lemma RenewStays(d: Db, user: Id, s: Id, now: Instant, debit: bool)
    ensures var r := Billing.Renew(d, user, s, now, debit); r.Some? ==> Stays(d.services, r.value.services)
  {
    hide AddMonths;
  }

  lemma SettleInvoiceStays(d: Db, user: Id, i: Id, now: Instant, rate: nat, price: Option<int>)
    ensures var r := Billing.SettleInvoice(d, user, i, now, rate, price);
            r.Some? ==> Stays(d.services, r.value.services)
  {
    hide Orders.Settle, AddMonths;
    var r := Billing.SettleInvoice(d, user, i, now, rate, price);
    if r.Some? && d.invoices[i].order.Some? { SettleOrderStays(d, user, d.invoices[i].order.value, now, rate); }
  }

  lemma SettleTargetStays(d: Db, user: Id, purpose: Purpose, target: Id, now: Instant, rate: nat, price: Option<int>)
    ensures var r := Payments.SettleTarget(d, user, purpose, target, now, rate, price);
            r.Some? ==> Stays(d.services, r.value.services)
  {
    hide Orders.Settle, Billing.SettleInvoice, Billing.Renew;
    match purpose
    case ForRecharge =>
    case ForOrder => SettleOrderStays(d, user, target, now, rate);
    case ForInvoice => SettleInvoiceStays(d, user, target, now, rate, price);
    case ForRenewal => RenewStays(d, user, target, now, false);
  }

  lemma SaleStays(d: Db, op: OrderOp)
    ensures var r := DoSale(d, op); r.Some? ==> Stays(d.services, r.value.services)
  {
    hide Orders.Settle, Stays, Busy;
    SameStays(d.services);
    match op
    case PayOrder(user, o, now, rate) =>
      if Orders.Pay(d, user, o, now, rate).Some? {
        SettleOrderStays(Wallet.Debit(d, user, d.orders[o].total, OrderDebit(o)).value, user, o, now, rate);
      }
    case _ =>
  }

  lemma BillStays(d: Db, op: BillingOp)
    requires Guarded(d, Bill(op))
    ensures var r := DoBill(d, op); r.Some? ==> Stays(d.services, r.value.services)
  {
    hide Billing.Renew, Busy, AddMonths;
    match op
    case RenewNow(user, s, now) => RenewStays(d, user, s, now, true);
    case _ =>
  }

  lemma PaymentStays(d: Db, op: PaymentOp)
    ensures var r := DoPayment(d, op); r.Some? ==> Stays(d.services, r.value.services)
  {
    hide Payments.SettleTarget, Billing.SettleInvoice, Stays, Busy, Payable, KeyTaken;
    SameStays(d.services);
    var r := DoPayment(d, op);
    match op
    case SettleInvoice(user, i, now, rate, price) =>
      if r.Some? {
        SettleInvoiceStays(Wallet.Debit(d, user, d.invoices[i].total, InvoiceDebit(i)).value, user, i, now, rate,
                           price);
      }
    case CreateIntent(user, purpose, target, total, wish, quoted, now, rate, price) =>
      if r.Some? {
        var balance := Payments.WalletPart(total, wish);
        var key := if purpose == ForRecharge then None else LoadTarget(d, user, purpose, target);
        var e := Wallet.Debit(d, user, balance, IntentDebit(purpose, target)).value;
        var f := e.(intents := e.intents
                    + [Intent(user, purpose, target, total - balance, balance, IntentPending, key, 0)]);
        SettleTargetStays(f, user, purpose, target, now, rate, price);
      }
    case Finalize(i, paid, now, rate, price) =>
      if r.Some? && d.intents[i].status == IntentPending {
        SettleTargetStays(d, d.intents[i].user, d.intents[i].purpose, d.intents[i].target, now, rate, price);
      }
    case _ =>
  }

  lemma ChangeStays(d: Db, op: ChangeOp)
    ensures var r := DoChange(d, op); r.Some? ==> Stays(d.services, r.value.services)
  {
    hide Changes.Fenced, Changes.TokenUsed, Changes.OfferFor;
  }

  // The closing transaction ends what is in use, and touches nothing else.
  lemma CompleteRevokes(d: Db, e: Id)
    requires Refunds.Complete(d, e).Some?
    ensures e < |d.executions| && d.executions[e].refund < |d.refunds|
    ensures var after := Refunds.Complete(d, e).value.services;
            var o := d.refunds[d.executions[e].refund].order;
            |after| == |d.services| && forall s :: 0 <= s < |after| ==> after[s] == Refunds.Revoke(d.services[s], o)
  {
  }

  lemma RefundStays(d: Db, op: RefundOp)
    ensures var r := DoRefund(d, op); r.Some? ==> Stays(d.services, r.value.services)
  {
    hide Refunds.Complete, Stays;
    SameStays(d.services);
    if op.CompleteRefund? && DoRefund(d, op).Some? {
      CompleteRevokes(d, op.execution);
      RevokedStays(d.services, DoRefund(d, op).value.services, d.refunds[d.executions[op.execution].refund].order);
    }
  }

  lemma RevokedStays(before: seq<Service>, after: seq<Service>, o: Id)
    requires |after| == |before| && forall s :: 0 <= s < |after| ==> after[s] == Refunds.Revoke(before[s], o)
    ensures Stays(before, after)
  {
  }

  lemma StepStays(d: Db, op: Op)
    requires Guarded(d, op)
    ensures Stays(d.services, Step(d, op).services)
  {
    hide Stays, DoSale, DoBill, DoPayment, DoChange, DoRefund;
    SameStays(d.services);
    match op
    case Account(_) =>
    case Sale(s) => SaleStays(d, s);
    case Bill(b) => BillStays(d, b);
    case Payment(p) => PaymentStays(d, p);
    case ProductChange(c) => ChangeStays(d, c);
    case Repay(x) => RefundStays(d, x);
    case Share(_) =>
  }

  // What is ended stays ended and what is shut stays shut, with the expiry it has,
  // whatever guarded steps follow.
  lemma {:induction false} ShutForGood(d: Db, s: Id, ops: seq<Op>)
    requires s < |d.services| && GuardedRun(d, ops)
    ensures s < |Run(d, ops).services| && ShutKept(d.services[s], Run(d, ops).services[s])
  {
    hide Step, Guarded;
    if |ops| > 0 {
      var n := |ops| - 1;
      assert forall k :: 0 <= k < n ==> ops[..n][..k] == ops[..k];
      ShutForGood(d, s, ops[..n]);
      StepStays(Run(d, ops[..n]), ops[n]);
    }
  }

  lemma OneMove(d: Db, s: Id, status: ServiceStatus, reason: Reason)
    requires s < |d.services| && HostMove(d.services[s].status, d.services[s].reason, status, reason)
    requires RenewableIn(status, reason)
    ensures Returns(d, s)
  {
    var op := Bill(SetService(s, status, reason, d.services[s].autoRenew, d.services[s].hosted));
    assert Guarded(d, op) && s < |Step(d, op).services| && RenewableStatus(Step(d, op).services[s]);
    hide HostMove, Guarded, Step;
    OneStep(d, s, op);
  }

  lemma OneStep(d: Db, s: Id, op: Op)
    requires Guarded(d, op) && s < |Step(d, op).services| && RenewableStatus(Step(d, op).services[s])
    ensures Returns(d, s)
  {
    hide Guarded, Step, RenewableStatus;
    var ops := [op];
    assert ops[..0] == [] && Run(d, []) == d;
    assert Run(d, ops) == Step(d, op);
    assert GuardedRun(d, ops);
  }

  // A service can come back exactly when it is not shut.
  lemma ReturnsUnlessShut(d: Db, s: Id)
    requires s < |d.services|
    ensures Returns(d, s) <==> !Shut(d.services[s])
  {
    hide Run;
    var x := d.services[s];
    if Shut(x) && Returns(d, s) {
      var ops :| GuardedRun(d, ops) && s < |Run(d, ops).services| && RenewableStatus(Run(d, ops).services[s]);
      ShutForGood(d, s, ops);
      assert false;
    }
    hide Returns;
    if RenewableStatus(x) { OneMove(d, s, x.status, x.reason); }
    if x.status == ServicePending || x.status == ServiceFailed { OneMove(d, s, ServiceActive, x.reason); }
    if x.status == ServiceSuspended && x.reason == Terminating { OneMove(d, s, ServiceSuspended, Expired); }
  }

  // Two writes are unguarded and undo all of this: the one that marks a service
  // failed after its renewal was refused upstream, and the one that marks it active
  // when a provisioning ends that found it pending when it began.
  lemma UnguardedReopens(d: Db, s: Id, status: ServiceStatus, autoRenew: bool, hosted: bool)
    requires s < |d.services| && (status == ServiceFailed || status == ServiceActive)
    ensures Returns(Step(d, Bill(SetService(s, status, d.services[s].reason, autoRenew, hosted))), s)
  {
    var e := Step(d, Bill(SetService(s, status, d.services[s].reason, autoRenew, hosted)));
    OneMove(e, s, ServiceActive, e.services[s].reason);
  }

  // ----- what a refund ends -----

  predicate InUse(x: Service) { x.status == ServiceActive }

  // A completed refund is meant to end every entitlement its order funded. It does
  // so exactly when each service of the order was in use, or already over.
  lemma RefundEndsAll(d: Db, e: Id)
    requires Refunds.Complete(d, e).Some?
    ensures e < |d.executions| && d.executions[e].refund < |d.refunds|
    ensures var f := Refunds.Complete(d, e).value;
            var o := d.refunds[d.executions[e].refund].order;
            && |f.services| == |d.services|
            && ((forall s :: 0 <= s < |f.services| && f.services[s].order == o ==> Ended(f.services[s]))
                <==> (forall s :: 0 <= s < |d.services| && d.services[s].order == o ==>
                      InUse(d.services[s]) || Ended(d.services[s])))
            && ((forall s: Id :: s < |f.services| && f.services[s].order == o ==> !Returns(f, s))
                <==> (forall s :: 0 <= s < |d.services| && d.services[s].order == o ==>
                      InUse(d.services[s]) || Shut(d.services[s])))
  {
    CompleteRevokes(d, e);
    hide Refunds.Complete, Returns;
    var f := Refunds.Complete(d, e).value;
    forall s: Id | s < |f.services| ensures Returns(f, s) <==> !Shut(f.services[s]) { ReturnsUnlessShut(f, s); }
    assert forall s :: 0 <= s < |d.services| ==> f.services[s].order == d.services[s].order;
  }

  // Of one service of the order: it can be in use again after the refund exactly
  // when it was waiting for its host, or suspended for traffic or expiry.
  lemma RefundEndsWhatRuns(d: Db, e: Id, s: Id)
    requires Refunds.Complete(d, e).Some? && s < |d.services|
    requires e < |d.executions| && d.executions[e].refund < |d.refunds|
    requires d.services[s].order == d.refunds[d.executions[e].refund].order
    ensures var f, x := Refunds.Complete(d, e).value, d.services[s];
            && s < |f.services|
            && (Ended(f.services[s]) <==> InUse(x) || Ended(x))
            && (Returns(f, s) <==> || x.status == ServicePending || x.status == ServiceFailed
                                   || (x.status == ServiceSuspended
                                       && (x.reason == TrafficExceeded || x.reason == Expired
                                           || x.reason == Terminating)))
  {
    CompleteRevokes(d, e);
    hide Refunds.Complete, Returns;
    ReturnsUnlessShut(Refunds.Complete(d, e).value, s);
  }
}
