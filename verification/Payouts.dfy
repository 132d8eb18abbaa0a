// What concurrent refund executions can do to each other: a request has one run
// under way, a payment has one payout at most, an order is credited once.
module Payouts {
  import opened Options
  import opened Calendar
  import opened Tables
  import opened Targets
  import opened Machine
  import opened Integrity
  import Wallet
  import Orders
  import Billing
  import Payments
  import Changes
  import Refunds
  import Conservation

  predicate Active(x: Execution) { x.progress != Closed }

  // How far a run has come says what it knows of the channel.
  ghost predicate RunRow(refunds: seq<Refund>, x: Execution) {
    && x.refund < |refunds|
    && (Active(x) ==> refunds[x.refund].status == RefundProcessing)
    && (x.progress == RequestClaimed || x.progress == PaymentClaimed || x.progress == LostClaim ==> x.reply.None?)
    && (x.progress == Replied ==> x.reply.Some?)
    && (x.progress == Released ==> x.reply == Some(Rejected))
    && (x.progress == PaymentClaimed || x.reply.Some? ==> Refunds.NeedsChannel(refunds[x.refund]))
  }

  ghost predicate Underway(executions: seq<Execution>, r: Id) {
    exists e :: 0 <= e < |executions| && executions[e].refund == r && Active(executions[e])
  }

  // A request is processing exactly while one run of it is under way.
  ghost predicate Runs(refunds: seq<Refund>, executions: seq<Execution>) {
    && (forall e :: 0 <= e < |executions| ==> RunRow(refunds, executions[e]))
    && (forall e, f :: 0 <= e < f < |executions| && Active(executions[e]) && Active(executions[f])
          ==> executions[e].refund != executions[f].refund)
    && (forall r :: 0 <= r < |refunds| && refunds[r].status == RefundProcessing ==> Underway(executions, r))
  }

  // The run that answers for payment p: it holds the claim, or its request to the
  // channel succeeded or may have.
  predicate Holds(refunds: seq<Refund>, x: Execution, p: Id) {
    && x.refund < |refunds| && Refunds.NeedsChannel(refunds[x.refund]) && refunds[x.refund].payment == Some(p)
    && (x.progress == PaymentClaimed || x.progress == Replied || x.reply == Some(Accepted) || x.reply == Some(Unclear))
  }

  ghost predicate Held(refunds: seq<Refund>, executions: seq<Execution>, p: Id) {
    exists e :: 0 <= e < |executions| && Holds(refunds, executions[e], p)
  }

  predicate Claimed(s: IntentStatus) { s == IntentRefunding || s == IntentRefunded }

  ghost predicate ClaimedStatus(intents: seq<Intent>, p: Id) { p < |intents| && Claimed(intents[p].status) }

  ghost predicate PaidBack(refunds: seq<Refund>, executions: seq<Execution>, p: Id) {
    exists e :: 0 <= e < |executions| && Holds(refunds, executions[e], p) && executions[e].reply == Some(Accepted)
  }

  // A payment is refunding or refunded exactly while one run answers for it.
  ghost predicate Owned(refunds: seq<Refund>, executions: seq<Execution>, intents: seq<Intent>) {
    && (forall e, p :: 0 <= e < |executions| && Holds(refunds, executions[e], p) ==> ClaimedStatus(intents, p))
    && (forall e, f, p :: 0 <= e < f < |executions| && Holds(refunds, executions[e], p) ==>
        !Holds(refunds, executions[f], p))
    && (forall p :: 0 <= p < |intents| && Claimed(intents[p].status) ==> Held(refunds, executions, p))
    && (forall p :: 0 <= p < |intents| && intents[p].status == IntentRefunded ==> PaidBack(refunds, executions, p))
  }

  ghost predicate CompletedFor(refunds: seq<Refund>, o: Id) {
    exists r :: 0 <= r < |refunds| && refunds[r].order == o && refunds[r].status == RefundCompleted
  }

  // An order is refunded exactly when one request for it was completed.
  ghost predicate Returned(orders: seq<Order>, refunds: seq<Refund>) {
    && (forall r :: 0 <= r < |refunds| && refunds[r].status == RefundCompleted
          ==> refunds[r].order < |orders| && orders[refunds[r].order].status == OrderRefunded)
    && (forall r, q :: 0 <= r < q < |refunds| && refunds[r].status == refunds[q].status == RefundCompleted
          ==> refunds[r].order != refunds[q].order)
    && (forall o :: 0 <= o < |orders| && orders[o].status == OrderRefunded ==> CompletedFor(refunds, o))
  }

  // A request names only a payment that went through.
  ghost predicate Named(refunds: seq<Refund>, intents: seq<Intent>) {
    forall r :: 0 <= r < |refunds| && refunds[r].payment.Some? ==> CollectedAt(intents, refunds[r].payment.value)
  }

  ghost predicate CollectedAt(intents: seq<Intent>, p: Id) {
    p < |intents| && Conservation.Collected(intents[p].status)
  }

  ghost predicate Exclusive(d: Db) {
    && Named(d.refunds, d.intents)
    && Runs(d.refunds, d.executions)
    && Owned(d.refunds, d.executions, d.intents)
    && Returned(d.orders, d.refunds)
  }

  // ----- steps outside refunds -----

  // No payment enters or leaves the refund states, no order becomes or stops being refunded.
  ghost predicate Apart(d: Db, e: Db) {
    && e.refunds == d.refunds && e.executions == d.executions
    && |d.intents| <= |e.intents| && |d.orders| <= |e.orders|
    && (forall i :: 0 <= i < |d.intents| ==> (e.intents[i].status == d.intents[i].status
                                              || (!Claimed(e.intents[i].status) && !Claimed(d.intents[i].status))))
    && (forall i :: 0 <= i < |d.intents| && Conservation.Collected(d.intents[i].status) ==>
        Conservation.Collected(e.intents[i].status))
    && (forall i :: |d.intents| <= i < |e.intents| ==> !Claimed(e.intents[i].status))
    && (forall o :: 0 <= o < |d.orders| ==>
        (e.orders[o].status == OrderRefunded <==> d.orders[o].status == OrderRefunded))
    && (forall o :: |d.orders| <= o < |e.orders| ==> e.orders[o].status != OrderRefunded)
  }

  lemma ApartExclusive(d: Db, e: Db)
    requires Exclusive(d) && Apart(d, e)
    ensures Exclusive(e)
  {
    forall x, p | 0 <= x < |e.executions| && Holds(e.refunds, e.executions[x], p) ensures ClaimedStatus(e.intents, p) {
      assert ClaimedStatus(d.intents, p);
    }
  }

  lemma SettleOrderApart(d: Db, user: Id, o: Id, now: Instant, rate: nat)
    ensures var r := Orders.Settle(d, user, o, now, rate); r.Some? ==> Apart(d, r.value)
  {
  }

  lemma SettleInvoiceApart(d: Db, user: Id, i: Id, now: Instant, rate: nat, price: Option<int>)
    ensures var r := Billing.SettleInvoice(d, user, i, now, rate, price); r.Some? ==> Apart(d, r.value)
  {
    hide Orders.Settle;
    var r := Billing.SettleInvoice(d, user, i, now, rate, price);
    if r.Some? && d.invoices[i].order.Some? { SettleOrderApart(d, user, d.invoices[i].order.value, now, rate); }
  }

  lemma SettleTargetApart(d: Db, user: Id, purpose: Purpose, target: Id, now: Instant, rate: nat, price: Option<int>)
    ensures var r := Payments.SettleTarget(d, user, purpose, target, now, rate, price); r.Some? ==> Apart(d, r.value)
  {
    hide Orders.Settle, Billing.SettleInvoice;
    match purpose
    case ForRecharge =>
    case ForOrder => SettleOrderApart(d, user, target, now, rate);
    case ForInvoice => SettleInvoiceApart(d, user, target, now, rate, price);
    case ForRenewal =>
  }

  lemma DebitApart(d: Db, user: Id, amount: nat, ref: Ref)
    ensures var r := Wallet.Debit(d, user, amount, ref); r.Some? ==> Apart(d, r.value)
  {
  }

  lemma ApartThrough(a: Db, b: Db, c: Db)
    requires Apart(a, b) && Apart(b, c)
    ensures Apart(a, c)
  {
  }

  lemma CreateIntentApart(d: Db, user: Id, purpose: Purpose, target: Id, total: int, wish: int,
                          quoted: Option<Instant>, now: Instant, rate: nat, price: Option<int>)
    ensures var r := Payments.CreateIntent(d, user, purpose, target, total, wish, quoted, now, rate, price);
            r.Some? ==> Apart(d, r.value)
  {
    hide Busy, Payable, LoadTarget, KeyTaken, Payments.OpenIntent, Apart;
    var r := Payments.CreateIntent(d, user, purpose, target, total, wish, quoted, now, rate, price);
    if r.Some? {
      var balance := Payments.WalletPart(total, wish);
      var key := if purpose == ForRecharge then None else LoadTarget(d, user, purpose, target);
      DebitApart(d, user, balance, IntentDebit(purpose, target));
      var e := Wallet.Debit(d, user, balance, IntentDebit(purpose, target)).value;
      OpenIntentApart(e, Intent(user, purpose, target, total - balance, balance, IntentPending, key, 0), now, rate,
                      price);
      ApartThrough(d, e, r.value);
    }
  }

  lemma OpenIntentApart(d: Db, x: Intent, now: Instant, rate: nat, price: Option<int>)
    requires x.status == IntentPending
    ensures var r := Payments.OpenIntent(d, x, now, rate, price); r.Some? ==> Apart(d, r.value)
  {
    hide Payments.SettleTarget;
    var r := Payments.OpenIntent(d, x, now, rate, price);
    var e := d.(intents := d.intents + [x]);
    if r.Some? && x.amount <= 0 {
      SettleTargetApart(e, x.user, x.purpose, x.target, now, rate, price);
      var f := Payments.SettleTarget(e, x.user, x.purpose, x.target, now, rate, price).value;
      ApartThrough(d, e, f);
    }
  }

  lemma FinalizeApart(d: Db, i: Id, paid: int, now: Instant, rate: nat, price: Option<int>)
    ensures var r := Payments.Finalize(d, i, paid, now, rate, price); r.Some? ==> Apart(d, r.value)
  {
    hide Payments.SettleTarget;
    var r := Payments.Finalize(d, i, paid, now, rate, price);
    if r.Some? && d.intents[i].status == IntentPending {
      SettleTargetApart(d, d.intents[i].user, d.intents[i].purpose, d.intents[i].target, now, rate, price);
    }
  }

  lemma PayOrderApart(d: Db, user: Id, o: Id, now: Instant, rate: nat)
    ensures var r := Orders.Pay(d, user, o, now, rate); r.Some? ==> Apart(d, r.value)
  {
    hide Orders.Settle, Busy, Apart;
    var r := Orders.Pay(d, user, o, now, rate);
    if r.Some? {
      DebitApart(d, user, d.orders[o].total, OrderDebit(o));
      var e := Wallet.Debit(d, user, d.orders[o].total, OrderDebit(o)).value;
      SettleOrderApart(e, user, o, now, rate);
      ApartThrough(d, e, r.value);
    }
  }

  lemma SettleFromWalletApart(d: Db, user: Id, i: Id, now: Instant, rate: nat, price: Option<int>)
    ensures var r := Payments.SettleFromWallet(d, user, i, now, rate, price); r.Some? ==> Apart(d, r.value)
  {
    hide Billing.SettleInvoice, Busy, Apart;
    var r := Payments.SettleFromWallet(d, user, i, now, rate, price);
    if r.Some? {
      DebitApart(d, user, d.invoices[i].total, InvoiceDebit(i));
      var e := Wallet.Debit(d, user, d.invoices[i].total, InvoiceDebit(i)).value;
      SettleInvoiceApart(e, user, i, now, rate, price);
      ApartThrough(d, e, r.value);
    }
  }

  lemma PaymentApart(d: Db, op: PaymentOp)
    ensures var r := DoPayment(d, op); r.Some? ==> Apart(d, r.value)
  {
    hide Payments.Finalize, Payments.CreateIntent, Payments.SettleFromWallet;
    match op
    case SettleInvoice(user, i, now, rate, price) => SettleFromWalletApart(d, user, i, now, rate, price);
    case CreateIntent(user, purpose, target, total, wish, quoted, now, rate, price) =>
      CreateIntentApart(d, user, purpose, target, total, wish, quoted, now, rate, price);
    case CancelIntent(_, _) =>
    case VoidIntent(_) =>
    case Finalize(i, paid, now, rate, price) => FinalizeApart(d, i, paid, now, rate, price);
    case LateReceipt(_, _) =>
  }

  lemma SaleApart(d: Db, op: OrderOp)
    ensures var r := DoSale(d, op); r.Some? ==> Apart(d, r.value)
  {
    hide Orders.Pay;
    match op
    case CreateOrder(_, _, _) =>
    case PayOrder(user, o, now, rate) => PayOrderApart(d, user, o, now, rate);
    case CancelOrder(_, _) =>
  }

  lemma BillApart(d: Db, op: BillingOp)
    ensures var r := DoBill(d, op); r.Some? ==> Apart(d, r.value)
  {
    hide Busy;
  }

  lemma ChangeApart(d: Db, op: ChangeOp)
    ensures var r := DoChange(d, op); r.Some? ==> Apart(d, r.value)
  {
    hide Changes.Fenced, Changes.TokenUsed, Changes.OfferFor;
  }

  lemma AccountApart(d: Db, op: AccountOp)
    ensures var r := DoAccount(d, op); r.Some? ==> Apart(d, r.value)
  {
  }

  lemma ShareApart(d: Db, op: AffiliateOp)
    ensures var r := DoShare(d, op); r.Some? ==> Apart(d, r.value)
  {
  }

  // ----- refund steps, one predicate at a time -----

  // The same runs answer for the same payments.
  ghost predicate SameHolders(refunds: seq<Refund>, executions: seq<Execution>, after: seq<Refund>,
                              later: seq<Execution>) {
    && |executions| <= |later|
    && (forall e, p :: 0 <= e < |executions| ==> (Holds(after, later[e], p) <==> Holds(refunds, executions[e], p)))
    && (forall e :: 0 <= e < |executions| && executions[e].reply == Some(Accepted) ==> later[e].reply == Some(Accepted))
    && (forall e, p :: |executions| <= e < |later| ==> !Holds(after, later[e], p))
  }

  lemma SameHoldersOwned(refunds: seq<Refund>, executions: seq<Execution>, after: seq<Refund>, later: seq<Execution>,
                         intents: seq<Intent>)
    requires Owned(refunds, executions, intents) && SameHolders(refunds, executions, after, later)
    ensures Owned(after, later, intents)
  {
    forall p | 0 <= p < |intents| && Claimed(intents[p].status) ensures Held(after, later, p) {
      assert Held(refunds, executions, p);
      var e :| 0 <= e < |executions| && Holds(refunds, executions[e], p);
      assert Holds(after, later[e], p);
    }
    forall p | 0 <= p < |intents| && intents[p].status == IntentRefunded ensures PaidBack(after, later, p) {
      assert PaidBack(refunds, executions, p);
      var e :| 0 <= e < |executions| && Holds(refunds, executions[e], p) && executions[e].reply == Some(Accepted);
      assert Holds(after, later[e], p);
    }
  }

  lemma RestatusHolders(refunds: seq<Refund>, executions: seq<Execution>, r: Id, status: RefundStatus)
    requires r < |refunds|
    ensures SameHolders(refunds, executions, refunds[r := refunds[r].(status := status)], executions)
  {
  }

  // Requests that no run is working on may change among the idle statuses.
  lemma IdleRestatus(d: Db, r: Id, status: RefundStatus)
    requires Exclusive(d) && r < |d.refunds|
    requires d.refunds[r].status != RefundProcessing && d.refunds[r].status != RefundCompleted
    requires status != RefundProcessing && status != RefundCompleted
    ensures Exclusive(Refunds.Restatus(d, r, status))
  {
    var e := Refunds.Restatus(d, r, status);
    RestatusHolders(d.refunds, d.executions, r, status);
    IdleRuns(d.refunds, d.executions, e.refunds, r);
    SameReturned(d.orders, d.refunds, e.refunds);
    hide Owned, Runs, Returned, SameHolders;
    SameHoldersOwned(d.refunds, d.executions, e.refunds, e.executions, d.intents);
  }

  lemma IdleRuns(refunds: seq<Refund>, executions: seq<Execution>, after: seq<Refund>, r: Id)
    requires Runs(refunds, executions) && r < |refunds| == |after|
    requires after == refunds[r := refunds[r].(status := after[r].status)]
    requires refunds[r].status != RefundProcessing && after[r].status != RefundProcessing
    ensures Runs(after, executions)
  {
    forall e | 0 <= e < |executions| ensures RunRow(after, executions[e]) {
      assert RunRow(refunds, executions[e]);
    }
    forall q | 0 <= q < |after| && after[q].status == RefundProcessing ensures Underway(executions, q) {
      assert Underway(executions, q);
    }
  }

  // The same requests are completed.
  lemma SameReturned(orders: seq<Order>, refunds: seq<Refund>, after: seq<Refund>)
    requires Returned(orders, refunds) && |refunds| <= |after|
    requires forall r :: 0 <= r < |refunds| ==> after[r].order == refunds[r].order
    requires forall r :: 0 <= r < |refunds| ==>
      (after[r].status == RefundCompleted <==> refunds[r].status == RefundCompleted)
    requires forall r :: |refunds| <= r < |after| ==> after[r].status != RefundCompleted
    ensures Returned(orders, after)
  {
    forall o | 0 <= o < |orders| && orders[o].status == OrderRefunded ensures CompletedFor(after, o) {
      assert CompletedFor(refunds, o);
      var r :| 0 <= r < |refunds| && refunds[r].order == o && refunds[r].status == RefundCompleted;
      assert after[r].order == o;
    }
  }

  lemma RequestExclusive(d: Db, user: Id, o: Id, payment: Option<Id>)
    requires Exclusive(d)
    ensures var r := Refunds.Request(d, user, o, payment); r.Some? ==> Exclusive(r.value)
  {
    var r := Refunds.Request(d, user, o, payment);
    if r.Some? {
      var e := r.value;
      forall x | 0 <= x < |d.executions| ensures RunRow(e.refunds, d.executions[x]) {
        assert RunRow(d.refunds, d.executions[x]);
      }
      forall q | 0 <= q < |e.refunds| && e.refunds[q].status == RefundProcessing ensures Underway(e.executions, q) {
        assert Underway(d.executions, q);
      }
      assert SameHolders(d.refunds, d.executions, e.refunds, e.executions) by { assert Runs(d.refunds, d.executions); }
      SameReturned(d.orders, d.refunds, e.refunds);
      hide Owned, Runs, Returned, SameHolders;
      SameHoldersOwned(d.refunds, d.executions, e.refunds, e.executions, d.intents);
    }
  }

  lemma StartExclusive(d: Db, r: Id)
    requires Exclusive(d)
    ensures var s := Refunds.Start(d, r); s.Some? ==> Exclusive(s.value)
  {
    var s := Refunds.Start(d, r);
    if s.Some? {
      var e := s.value;
      StartRuns(d.refunds, d.executions, r);
      assert SameHolders(d.refunds, d.executions, e.refunds, e.executions);
      SameReturned(d.orders, d.refunds, e.refunds);
      hide Owned, Runs, Returned, SameHolders;
      SameHoldersOwned(d.refunds, d.executions, e.refunds, e.executions, d.intents);
    }
  }

  lemma StartRuns(refunds: seq<Refund>, executions: seq<Execution>, r: Id)
    requires Runs(refunds, executions) && r < |refunds| && refunds[r].status != RefundProcessing
    ensures Runs(refunds[r := refunds[r].(status := RefundProcessing)],
                 executions + [Execution(r, RequestClaimed, None)])
  {
    var after := refunds[r := refunds[r].(status := RefundProcessing)];
    var later := executions + [Execution(r, RequestClaimed, None)];
    forall e | 0 <= e < |later|
      ensures RunRow(after, later[e]) && (e < |executions| ==> Active(later[e]) ==> later[e].refund != r)
    {
      if e < |executions| { assert RunRow(refunds, executions[e]); }
    }
    forall q | 0 <= q < |after| && after[q].status == RefundProcessing ensures Underway(later, q) {
      if q == r {
        assert later[|executions|].refund == r;
      } else {
        assert Underway(executions, q);
        var e :| 0 <= e < |executions| && executions[e].refund == q && Active(executions[e]);
        assert later[e].refund == q;
      }
    }
  }

  // A run that goes on keeps its request processing.
  lemma MoveRuns(refunds: seq<Refund>, executions: seq<Execution>, e: Id, y: Execution)
    requires Runs(refunds, executions) && e < |executions| && Active(executions[e]) && Active(y)
    requires y.refund == executions[e].refund && RunRow(refunds, y)
    ensures Runs(refunds, executions[e := y])
  {
    var later := executions[e := y];
    forall x | 0 <= x < |later| ensures RunRow(refunds, later[x]) { assert RunRow(refunds, executions[x]); }
    forall q | 0 <= q < |refunds| && refunds[q].status == RefundProcessing ensures Underway(later, q) {
      assert Underway(executions, q);
      var x :| 0 <= x < |executions| && executions[x].refund == q && Active(executions[x]);
      assert later[x].refund == q && Active(later[x]);
    }
  }

  // A run that ends takes its request out of processing with it.
  lemma EndRuns(refunds: seq<Refund>, executions: seq<Execution>, e: Id, status: RefundStatus)
    requires Runs(refunds, executions) && e < |executions| && Active(executions[e]) && status != RefundProcessing
    ensures executions[e].refund < |refunds| && refunds[executions[e].refund].status == RefundProcessing
    ensures var r := executions[e].refund;
            Runs(refunds[r := refunds[r].(status := status)], executions[e := executions[e].(progress := Closed)])
  {
    assert RunRow(refunds, executions[e]);
    var r := executions[e].refund;
    var after := refunds[r := refunds[r].(status := status)];
    var later := executions[e := executions[e].(progress := Closed)];
    forall x | 0 <= x < |later| ensures RunRow(after, later[x]) { assert RunRow(refunds, executions[x]); }
    forall q | 0 <= q < |after| && after[q].status == RefundProcessing ensures Underway(later, q) {
      assert Underway(executions, q);
      var x :| 0 <= x < |executions| && executions[x].refund == q && Active(executions[x]);
      assert later[x].refund == q && Active(later[x]);
    }
  }

  lemma ClaimPaymentExclusive(d: Db, e: Id)
    requires Exclusive(d)
    ensures var s := Refunds.ClaimPayment(d, e); s.Some? ==> Exclusive(s.value)
  {
    var s := Refunds.ClaimPayment(d, e);
    if s.Some? {
      assert RunRow(d.refunds, d.executions[e]);
      var y := s.value.executions[e];
      MoveRuns(d.refunds, d.executions, e, y);
      var p := d.refunds[d.executions[e].refund].payment.value;
      if p < |d.intents| && d.intents[p].status == IntentPaid {
        ClaimOwned(d, e, p, s.value);
      } else {
        assert SameHolders(d.refunds, d.executions, d.refunds, s.value.executions);
        SameHoldersOwned(d.refunds, d.executions, d.refunds, s.value.executions, d.intents);
      }
    }
  }

  // Winning paid -> refunding means that nobody answered for the payment.
  lemma ClaimOwned(d: Db, e: Id, p: Id, f: Db)
    requires Owned(d.refunds, d.executions, d.intents) && e < |d.executions| && p < |d.intents|
    requires d.intents[p].status == IntentPaid && d.executions[e].refund < |d.refunds|
    requires d.executions[e].reply.None? && d.executions[e].progress == RequestClaimed
    requires Refunds.NeedsChannel(d.refunds[d.executions[e].refund])
    requires d.refunds[d.executions[e].refund].payment == Some(p)
    requires f.refunds == d.refunds && f.executions == d.executions[e := d.executions[e].(progress := PaymentClaimed)]
    requires f.intents == d.intents[p := d.intents[p].(status := IntentRefunding)]
    ensures Owned(f.refunds, f.executions, f.intents)
  {
    assert !ClaimedStatus(d.intents, p);
    assert forall x :: 0 <= x < |d.executions| ==> !Holds(d.refunds, d.executions[x], p);
    forall x, q | 0 <= x < |f.executions| && Holds(f.refunds, f.executions[x], q) ensures ClaimedStatus(f.intents, q) {
      if x != e { assert Holds(d.refunds, d.executions[x], q); assert ClaimedStatus(d.intents, q); }
    }
    forall q | 0 <= q < |f.intents| && Claimed(f.intents[q].status) ensures Held(f.refunds, f.executions, q) {
      if q == p {
        assert Holds(f.refunds, f.executions[e], p);
      } else {
        assert Held(d.refunds, d.executions, q);
        var x :| 0 <= x < |d.executions| && Holds(d.refunds, d.executions[x], q);
        assert Holds(f.refunds, f.executions[x], q);
      }
    }
    forall q | 0 <= q < |f.intents| && f.intents[q].status == IntentRefunded
      ensures PaidBack(f.refunds, f.executions, q)
    {
      assert PaidBack(d.refunds, d.executions, q);
      var x :| 0 <= x < |d.executions| && Holds(d.refunds, d.executions[x], q)
        && d.executions[x].reply == Some(Accepted);
      assert Holds(f.refunds, f.executions[x], q);
    }
  }

  lemma AskChannelExclusive(d: Db, e: Id, reply: Reply)
    requires Exclusive(d)
    ensures var s := Refunds.AskChannel(d, e, reply); s.Some? ==> Exclusive(s.value)
  {
    var s := Refunds.AskChannel(d, e, reply);
    if s.Some? {
      assert RunRow(d.refunds, d.executions[e]);
      MoveRuns(d.refunds, d.executions, e, s.value.executions[e]);
      assert SameHolders(d.refunds, d.executions, d.refunds, s.value.executions);
      SameHoldersOwned(d.refunds, d.executions, d.refunds, s.value.executions, d.intents);
    }
  }

  // The run that answers for a payment decides whether it was paid back.
  lemma OneHolder(d: Db, e: Id, p: Id)
    requires Owned(d.refunds, d.executions, d.intents) && e < |d.executions| && Holds(d.refunds, d.executions[e], p)
    ensures forall f :: 0 <= f < |d.executions| && Holds(d.refunds, d.executions[f], p) ==> f == e
    ensures PaidBack(d.refunds, d.executions, p) ==> d.executions[e].reply == Some(Accepted)
  {
  }

  // Under a payment claim the channel is always asked: nobody else can have
  // moved the payment, so the second look at the claim never refuses.
  lemma ClaimStaysValid(d: Db, e: Id)
    requires Exclusive(d) && Refunds.At(d, e, PaymentClaimed)
    ensures d.refunds[d.executions[e].refund].payment.Some?
    ensures var p := d.refunds[d.executions[e].refund].payment.value;
            p < |d.intents| && d.intents[p].status == IntentRefunding
  {
    var x := d.refunds[d.executions[e].refund];
    assert RunRow(d.refunds, d.executions[e]);
    var p := x.payment.value;
    OneHolder(d, e, p);
    assert ClaimedStatus(d.intents, p);
  }

  lemma ReleaseExclusive(d: Db, e: Id)
    requires Exclusive(d)
    ensures var s := Refunds.Release(d, e); s.Some? ==> Exclusive(s.value)
  {
    var s := Refunds.Release(d, e);
    if s.Some? {
      assert RunRow(d.refunds, d.executions[e]);
      MoveRuns(d.refunds, d.executions, e, s.value.executions[e]);
      ReleaseOwned(d, e, d.refunds[d.executions[e].refund].payment.value, s.value);
    }
  }

  lemma ReleaseOwned(d: Db, e: Id, p: Id, f: Db)
    requires Owned(d.refunds, d.executions, d.intents) && e < |d.executions|
    requires d.executions[e].reply == Some(Rejected) && Holds(d.refunds, d.executions[e], p)
    requires f.refunds == d.refunds && f.executions == d.executions[e := d.executions[e].(progress := Released)]
    requires f.intents == if p < |d.intents| && d.intents[p].status == IntentRefunding
                          then d.intents[p := d.intents[p].(status := IntentPaid)] else d.intents
    ensures Owned(f.refunds, f.executions, f.intents)
  {
    OneHolder(d, e, p);
    assert ClaimedStatus(d.intents, p);
    forall x, q | 0 <= x < |f.executions| && Holds(f.refunds, f.executions[x], q) ensures ClaimedStatus(f.intents, q) {
      assert x != e && Holds(d.refunds, d.executions[x], q);
      assert ClaimedStatus(d.intents, q);
      assert q != p;
    }
    forall q | 0 <= q < |f.intents| && Claimed(f.intents[q].status) ensures Held(f.refunds, f.executions, q) {
      assert Held(d.refunds, d.executions, q);
      var x :| 0 <= x < |d.executions| && Holds(d.refunds, d.executions[x], q);
      assert Holds(f.refunds, f.executions[x], q);
    }
    forall q | 0 <= q < |f.intents| && f.intents[q].status == IntentRefunded
      ensures PaidBack(f.refunds, f.executions, q)
    {
      assert PaidBack(d.refunds, d.executions, q);
      var x :| 0 <= x < |d.executions| && Holds(d.refunds, d.executions[x], q)
        && d.executions[x].reply == Some(Accepted);
      assert Holds(f.refunds, f.executions[x], q);
    }
  }

  lemma AbortExclusive(d: Db, e: Id)
    requires Exclusive(d)
    ensures var s := Refunds.Abort(d, e); s.Some? ==> Exclusive(s.value)
  {
    var s := Refunds.Abort(d, e);
    if s.Some? {
      assert RunRow(d.refunds, d.executions[e]);
      MoveRuns(d.refunds, d.executions, e, s.value.executions[e]);
      assert SameHolders(d.refunds, d.executions, d.refunds, s.value.executions);
      SameHoldersOwned(d.refunds, d.executions, d.refunds, s.value.executions, d.intents);
    }
  }

  lemma FailExclusive(d: Db, e: Id)
    requires Exclusive(d)
    ensures var s := Refunds.Fail(d, e); s.Some? ==> Exclusive(s.value)
  {
    var s := Refunds.Fail(d, e);
    if s.Some? {
      var f := s.value;
      assert RunRow(d.refunds, d.executions[e]);
      EndRuns(d.refunds, d.executions, e, RefundFailed);
      assert SameHolders(d.refunds, d.executions, f.refunds, f.executions);
      SameReturned(d.orders, d.refunds, f.refunds);
      hide Owned, Runs, Returned, SameHolders;
      SameHoldersOwned(d.refunds, d.executions, f.refunds, f.executions, d.intents);
    }
  }

  // The tables the closing transaction leaves, whatever else it writes.
  lemma CompleteTables(d: Db, e: Id)
    requires Refunds.Complete(d, e).Some?
    ensures var f := Refunds.Complete(d, e).value;
            var r := d.executions[e].refund;
            var x := d.refunds[r];
            && f.refunds == d.refunds[r := x.(status := RefundCompleted)]
            && f.executions == d.executions[e := d.executions[e].(progress := Closed)]
            && x.order < |d.orders| && d.orders[x.order].status == OrderPaid
            && f.orders == d.orders[x.order := d.orders[x.order].(status := OrderRefunded)]
            && f.intents
              == (if Refunds.NeedsChannel(x) && x.payment.value < |d.intents| && d.intents[x.payment.value].status
                  == IntentRefunding
                             then d.intents[x.payment.value := d.intents[x.payment.value].(status := IntentRefunded)]
                               else d.intents)
  {
  }

  lemma CompleteReturned(orders: seq<Order>, refunds: seq<Refund>, r: Id)
    requires Returned(orders, refunds) && r < |refunds|
    requires refunds[r].order < |orders| && orders[refunds[r].order].status == OrderPaid
    ensures var o := refunds[r].order;
            Returned(orders[o := orders[o].(status := OrderRefunded)],
                     refunds[r := refunds[r].(status := RefundCompleted)])
  {
    var o := refunds[r].order;
    var moved, after := orders[o := orders[o].(status := OrderRefunded)],
      refunds[r := refunds[r].(status := RefundCompleted)];
    forall p | 0 <= p < |moved| && moved[p].status == OrderRefunded ensures CompletedFor(after, p) {
      if p == o {
        assert after[r].order == o;
      } else {
        assert CompletedFor(refunds, p);
        var q :| 0 <= q < |refunds| && refunds[q].order == p && refunds[q].status == RefundCompleted;
        assert after[q].order == p;
      }
    }
  }

  lemma CompleteOwned(d: Db, e: Id, f: Db)
    requires Owned(d.refunds, d.executions, d.intents) && e < |d.executions| && d.executions[e].refund < |d.refunds|
    requires RunRow(d.refunds, d.executions[e]) && Refunds.MayComplete(d, e)
    requires f.refunds
      == d.refunds[d.executions[e].refund := d.refunds[d.executions[e].refund].(status := RefundCompleted)]
    requires f.executions == d.executions[e := d.executions[e].(progress := Closed)]
    requires var x := d.refunds[d.executions[e].refund];
             f.intents
               == (if Refunds.NeedsChannel(x) && x.payment.value < |d.intents| && d.intents[x.payment.value].status
                   == IntentRefunding
                           then d.intents[x.payment.value := d.intents[x.payment.value].(status := IntentRefunded)]
                             else d.intents)
    ensures Owned(f.refunds, f.executions, f.intents)
  {
    assert SameHolders(d.refunds, d.executions, f.refunds, f.executions);
    SameHoldersOwned(d.refunds, d.executions, f.refunds, f.executions, d.intents);
    if f.intents != d.intents {
      var p := d.refunds[d.executions[e].refund].payment.value;
      assert Holds(f.refunds, f.executions[e], p) && f.executions[e].reply == Some(Accepted);
      forall x, q | 0 <= x < |f.executions| && Holds(f.refunds, f.executions[x], q)
        ensures ClaimedStatus(f.intents, q)
      {
        assert ClaimedStatus(d.intents, q);
      }
      forall q | 0 <= q < |f.intents| && Claimed(f.intents[q].status) ensures Held(f.refunds, f.executions, q) {
        assert Claimed(d.intents[q].status);
      }
      forall q | 0 <= q < |f.intents| && f.intents[q].status == IntentRefunded
        ensures PaidBack(f.refunds, f.executions, q)
      {
        if q != p { assert d.intents[q].status == IntentRefunded; }
      }
    }
  }

  lemma CompleteExclusive(d: Db, e: Id)
    requires Exclusive(d)
    ensures var s := Refunds.Complete(d, e); s.Some? ==> Exclusive(s.value)
  {
    hide Refunds.Complete;
    var s := Refunds.Complete(d, e);
    if s.Some? {
      CompleteTables(d, e);
      CompleteMay(d, e);
      assert RunRow(d.refunds, d.executions[e]);
      hide Owned, Runs, Returned;
      EndRuns(d.refunds, d.executions, e, RefundCompleted);
      CompleteReturned(d.orders, d.refunds, d.executions[e].refund);
      CompleteOwned(d, e, s.value);
    }
  }

  lemma CompleteMay(d: Db, e: Id)
    requires Refunds.Complete(d, e).Some?
    ensures Refunds.MayComplete(d, e)
  {
  }

  lemma RefundExclusive(d: Db, op: RefundOp)
    requires Exclusive(d)
    ensures var r := DoRefund(d, op); r.Some? ==> Exclusive(r.value)
  {
    hide Exclusive, Refunds.Complete, Refunds.Request, Refunds.AskChannel, Refunds.ClaimPayment;
    match op
    case RequestRefund(user, o, payment) => RequestExclusive(d, user, o, payment);
    case ReviewRefund(r, approve) =>
      if Refunds.Review(d, r, approve).Some? { IdleRestatus(d, r, if approve then RefundApproved else RefundRejected); }
    case CancelRefund(user, r) => if Refunds.Cancel(d, user, r).Some? { IdleRestatus(d, r, RefundCanceled); }
    case StartRefund(r) => StartExclusive(d, r);
    case ClaimPayment(e) => ClaimPaymentExclusive(d, e);
    case AskChannel(e, reply) => AskChannelExclusive(d, e, reply);
    case ReleasePayment(e) => ReleaseExclusive(d, e);
    case CompleteRefund(e) => CompleteExclusive(d, e);
    case AbortRefund(e) => AbortExclusive(d, e);
    case FailRefund(e) => FailExclusive(d, e);
  }

  // Steps of anybody else leave the refunds alone.
  lemma OthersApart(d: Db, op: Op)
    requires !op.Repay?
    ensures Apart(d, Step(d, op))
  {
    hide Apart, DoAccount, DoSale, DoBill, DoPayment, DoChange, DoShare;
    SelfApart(d);
    match op
    case Account(a) => AccountApart(d, a);
    case Sale(s) => SaleApart(d, s);
    case Bill(b) => BillApart(d, b);
    case Payment(p) => PaymentApart(d, p);
    case ProductChange(c) => ChangeApart(d, c);
    case Share(s) => ShareApart(d, s);
  }

  lemma SelfApart(d: Db)
    ensures Apart(d, d)
  {
  }

  lemma StepExclusive(d: Db, op: Op)
    requires Exclusive(d)
    ensures Exclusive(Step(d, op))
  {
    hide Exclusive, Apart, DoRefund, Attempt;
    if op.Repay? {
      RefundStep(d, op.repay);
    } else {
      OthersApart(d, op);
      ApartExclusive(d, Step(d, op));
    }
  }

  lemma RefundStep(d: Db, op: RefundOp)
    requires Exclusive(d)
    ensures Exclusive(Step(d, Repay(op)))
  {
    hide Exclusive, DoRefund;
    RefundExclusive(d, op);
  }
}
