// Which way requests go: what each one is accepted for, what it leaves behind, and
// what a refusal rules out for good.
module Decisions {
  import opened Options
  import opened Calendar
  import opened Sums
  import opened Tables
  import opened Targets
  import opened Machine
  import Wallet
  import Orders
  import Billing
  import Payments
  import Changes
  import Proration
  import Refunds
  import Affiliates
  import Payouts
  import Entitlements
  import Transitions

  // ----- refund requests -----

  predicate TurnedDown(s: RefundStatus) { s == RefundRejected || s == RefundCanceled }

  // No execution is started for the request from one state to the other.
  ghost predicate NotRun(d: Db, e: Db, r: Id) {
    && |d.executions| <= |e.executions|
    && (forall x :: 0 <= x < |d.executions| ==> e.executions[x].refund == d.executions[x].refund)
    && forall x :: |d.executions| <= x < |e.executions| ==> e.executions[x].refund != r
  }

  lemma RefundStepTurnedDown(d: Db, op: RefundOp, r: Id)
    requires r < |d.refunds| && TurnedDown(d.refunds[r].status)
    ensures var s := DoRefund(d, op);
            s.Some? ==>
              r < |s.value.refunds| && s.value.refunds[r].status == d.refunds[r].status && NotRun(d, s.value, r)
  {
    hide Refunds.Complete;
    if op.CompleteRefund? && DoRefund(d, op).Some? {
      Payouts.CompleteTables(d, op.execution);
      Transitions.CompleteElsewhere(d, op.execution);
    }
  }

  lemma StepTurnedDown(d: Db, op: Op, r: Id)
    requires r < |d.refunds| && TurnedDown(d.refunds[r].status)
    ensures var e := Step(d, op);
            r < |e.refunds| && e.refunds[r].status == d.refunds[r].status && NotRun(d, e, r)
  {
    hide DoRefund;
    if op.Repay? {
      RefundStepTurnedDown(d, op.repay, r);
    } else {
      hide Step;
      Payouts.OthersApart(d, op);
    }
  }

  // Once turned down, a request is never run and never completed.
  lemma {:induction false} TurnedDownForGood(d: Db, r: Id, ops: seq<Op>)
    requires r < |d.refunds| && TurnedDown(d.refunds[r].status)
    ensures var e := Run(d, ops);
            r < |e.refunds| && e.refunds[r].status == d.refunds[r].status && NotRun(d, e, r)
  {
    hide Step;
    if |ops| > 0 {
      TurnedDownForGood(d, r, ops[..|ops| - 1]);
      StepTurnedDown(Run(d, ops[..|ops| - 1]), ops[|ops| - 1], r);
    }
  }

  // Rejected by the administration, a pending request returns nothing, whatever
  // follows: it is never run again and never completed.
  lemma RejectedReturnsNothing(d: Db, r: Id, ops: seq<Op>)
    requires r < |d.refunds| && d.refunds[r].status == RefundPending
    ensures var e := Step(d, Repay(ReviewRefund(r, false)));
            var f := Run(e, ops);
            e.executions == d.executions && NotRun(d, f, r) && r < |f.refunds| && f.refunds[r].status != RefundCompleted
  {
    TurnedDownForGood(Step(d, Repay(ReviewRefund(r, false))), r, ops);
  }

  // The same once its owner has cancelled it, which nobody else can.
  lemma CancelledReturnsNothing(d: Db, user: Id, r: Id, ops: seq<Op>)
    requires r < |d.refunds| && d.refunds[r].status == RefundPending
    ensures d.refunds[r].user != user ==> Step(d, Repay(CancelRefund(user, r))) == d
    ensures d.refunds[r].user == user ==>
              var e := Step(d, Repay(CancelRefund(user, r)));
              var f := Run(e, ops);
              e.executions == d.executions && NotRun(d, f, r) && r < |f.refunds|
                && f.refunds[r].status != RefundCompleted
  {
    if d.refunds[r].user == user { TurnedDownForGood(Step(d, Repay(CancelRefund(user, r))), r, ops); }
  }

  // Approved, it can be run at once.
  lemma ApprovedStarts(d: Db, r: Id)
    requires r < |d.refunds| && d.refunds[r].status == RefundPending
    ensures var e := Step(d, Repay(ReviewRefund(r, true)));
            var f := Step(e, Repay(StartRefund(r)));
            && r < |f.refunds| && f.refunds[r].status == RefundProcessing
            && f.executions == d.executions + [Execution(r, RequestClaimed, None)]
  {
  }

  // A decision is made once, on a pending request; and a request can be started
  // unless it was turned down, is being run, or is done.
  lemma DecidedOnce(d: Db, r: Id, approve: bool)
    requires r < |d.refunds|
    ensures d.refunds[r].status != RefundPending ==> Step(d, Repay(ReviewRefund(r, approve))) == d
    ensures var done := d.refunds[r].status == RefundProcessing || d.refunds[r].status == RefundCompleted;
            Step(d, Repay(StartRefund(r))) == d <==> TurnedDown(d.refunds[r].status) || done
  {
    var e := Step(d, Repay(StartRefund(r)));
    if d.refunds[r].status in {RefundPending, RefundApproved, RefundFailed} { assert |e.executions| != |d.executions|; }
  }

  // The channel is asked only while the payment is claimed; without the claim the
  // attempt counts as refused.
  lemma AskedUnderTheClaim(d: Db, e: Id, reply: Reply)
    requires Refunds.AskChannel(d, e, reply).Some?
    ensures e < |d.executions| && d.executions[e].progress == PaymentClaimed && d.executions[e].refund < |d.refunds|
    ensures var p, f := d.refunds[d.executions[e].refund].payment, Refunds.AskChannel(d, e, reply).value;
            && p.Some? && |f.executions| == |d.executions|
            && f.executions[e].reply == Some(
                 if p.value < |d.intents| && d.intents[p.value].status == IntentRefunding then reply else Rejected)
  {
  }

  // What a completed refund revokes is not renewed by itself either.
  lemma RevokedIsSwitchedOff(d: Db, e: Id, s: Id)
    requires Refunds.Complete(d, e).Some? && e < |d.executions| && d.executions[e].refund < |d.refunds|
    requires s < |d.services| && d.services[s].order == d.refunds[d.executions[e].refund].order
    requires d.services[s].status == ServiceActive
    ensures var f := Refunds.Complete(d, e).value;
            s < |f.services|
              && f.services[s]
                == d.services[s].(status := ServiceSuspended, reason := RefundRevoked, autoRenew := false)
  {
    Entitlements.CompleteRevokes(d, e);
    hide Refunds.Complete;
  }

  // ----- withdrawals -----

  // A user takes part once, and is referred by who is named when he registers.
  lemma JoinsOnce(d: Db, user: Id)
    requires user < |d.bank.balances|
    ensures var e := Affiliates.Join(d, user);
            && e.Some?
            && e.value.affiliates == if exists a :: 0 <= a < |d.affiliates| && d.affiliates[a].user == user
                                     then d.affiliates else d.affiliates + [Affiliate(user, 0, 0, 0)]
  {
  }

  lemma RegistersWithReferrer(d: Db, referrer: Option<Id>)
    ensures var e := Affiliates.Register(d, referrer);
            && (e.Some? <==> referrer.None? || referrer.value < |d.affiliates|)
            && (e.Some? ==> && e.value.referrers == d.referrers + [referrer]
                            && e.value.bank == Bank(d.bank.balances + [0], d.bank.log))
  {
  }

  // What is asked for lies between the minimum and a million, and is covered; it
  // goes from the balance to the reserve.
  lemma WithdrawalIsCovered(d: Db, user: Id, amount: int, minimum: nat)
    requires Affiliates.Withdraw(d, user, amount, minimum).Some?
    ensures 1 <= minimum <= amount <= 100_000_000
    ensures var e := Affiliates.Withdraw(d, user, amount, minimum).value;
            exists a: Id :: a < |d.affiliates| == |e.affiliates| && d.affiliates[a].user == user
              && 0 <= e.affiliates[a].balance == d.affiliates[a].balance - amount
              && e.affiliates[a].reserved == d.affiliates[a].reserved + amount
              && e.withdrawals == d.withdrawals + [Withdrawal(user, a, amount, WithdrawalPending)]
              && e.bank == d.bank
  {
    var a := Affiliates.AffiliateOf(d.affiliates, user);
    var e := Affiliates.Withdraw(d, user, amount, minimum).value;
    assert a < |e.affiliates| && d.affiliates[a].user == user;
  }

  // An approval pays its user, who owes nothing; a rejection gives the reserve back.
  lemma WithdrawalGoes(d: Db, w: Id, approve: bool)
    requires Affiliates.Review(d, w, approve).Some?
    ensures w < |d.withdrawals| && d.withdrawals[w].status == WithdrawalPending
    ensures var e, x := Affiliates.Review(d, w, approve).value, d.withdrawals[w];
            && w < |e.withdrawals| && x.affiliate < |d.affiliates| == |e.affiliates|
            && e.affiliates[x.affiliate].reserved == d.affiliates[x.affiliate].reserved - x.amount >= 0
            && (approve ==> && d.affiliates[x.affiliate].balance >= 0 && e.withdrawals[w].status == WithdrawalApproved
                            && x.user < |d.bank.balances| == |e.bank.balances|
                            && e.bank.balances[x.user] == d.bank.balances[x.user] + x.amount
                            && e.affiliates[x.affiliate].balance == d.affiliates[x.affiliate].balance)
            && (!approve ==> && e.withdrawals[w].status == WithdrawalRejected && e.bank == d.bank
                             && e.affiliates[x.affiliate].balance == d.affiliates[x.affiliate].balance + x.amount)
  {
  }

  // ----- commissions -----

  // A settled order earns its referrer the rate in basis points, rounded down, once:
  // exactly when there is a referrer other than the buyer, and a cent to earn.
  lemma CommissionIsRate(d: Db, o: Id, rate: nat)
    requires o < |d.orders| && (forall c :: 0 <= c < |d.commissions| ==> d.commissions[c].order != o)
    ensures var e, x := Orders.Accrue(d, o, rate), d.orders[o];
            var referred := x.user < |d.referrers| && d.referrers[x.user].Some?
              && d.referrers[x.user].value < |d.affiliates|
                            && d.affiliates[d.referrers[x.user].value].user != x.user;
            && (e != d <==> referred && x.total * rate >= 10000)
            && (e != d ==>
                var a := d.referrers[x.user].value;
                exists amount: nat :: && 10000 * amount <= x.total * rate < 10000 * (amount + 1)
                  && e.commissions == d.commissions + [Commission(a, o, x.total, amount, 0)]
                  && |e.affiliates| == |d.affiliates|
                  && e.affiliates[a] == d.affiliates[a].(balance := d.affiliates[a].balance + amount,
                                                         earned := d.affiliates[a].earned + amount))
  {
    var e, x := Orders.Accrue(d, o, rate), d.orders[o];
    assert Orders.CommissionFor(d.commissions, o) == |d.commissions|;
    Divided(x.total * rate);
    if x.total == 0 || rate == 0 { assert x.total * rate == 0; }
    if e != d {
      var amount: nat := x.total * rate / 10000;
      assert e.commissions == d.commissions + [Commission(d.referrers[x.user].value, o, x.total, amount, 0)];
    } else if x.total * rate >= 10000 {
      assert x.total * rate / 10000 > 0;
    }
  }

  lemma Divided(n: int)
    ensures 10000 * (n / 10000) <= n < 10000 * (n / 10000 + 1)
    ensures n / 10000 > 0 <==> n >= 10000
  {
  }

  // The reversal owed is the largest that stays in proportion to what was refunded,
  // of which no more counts than was paid.
  lemma ReversalIsShare(c: Commission, refunded: nat, t: nat)
    requires c.paid > 0
    ensures var counted := if refunded < c.paid then refunded else c.paid;
            var target := Affiliates.ReversalTarget(c, refunded);
            target >= 0 && c.paid * target <= c.amount * counted && (c.paid * t <= c.amount * counted ==> t <= target)
  {
    var counted := if refunded < c.paid then refunded else c.paid;
    var n, target := c.amount * counted, Affiliates.ReversalTarget(c, refunded);
    assert n >= 0;
    assert target == n / c.paid;
    Quotient(n, c.paid, t);
  }

  lemma Quotient(n: nat, d: nat, t: nat)
    requires d > 0
    ensures n / d >= 0 && d * (n / d) <= n && (d * t <= n ==> t <= n / d)
  {
    var q := n / d;
    assert n == d * q + n % d;
    if t > q {
      AtLeast(d, t - q);
      assert d * t == d * q + d * (t - q);
    }
  }

  lemma AtLeast(d: int, k: int)
    requires d > 0 && k > 0
    ensures d * k >= d
  {
  }

  // ----- orders -----

  // An order is its lines at their prices less the discount, with one unpaid
  // invoice for the same; it is refused without lines, beyond twenty of them, with an
  // empty one, or for a discount that exceeds them.
  lemma OrderIsItsLines(d: Db, user: Id, lines: seq<Line>, discount: nat)
    ensures var e := Orders.Create(d, user, lines, discount);
            var price := Sum(lines, (x: Line) => x.quantity * x.price);
            && (e.Some? <==> && user < |d.bank.balances| && 0 < |lines| <= 20 && discount <= price
                             && forall i :: 0 <= i < |lines| ==> lines[i].quantity > 0)
            && (e.Some? ==>
                var total := price - discount;
                total >= 0 && e.value == d.(
                  orders := d.orders + [Order(user, OrderPending, total, lines)],
                  invoices := d.invoices + [Invoice(user, Some(|d.orders|), None, None, InvoiceUnpaid, total)]))
  {
    LinesAddUp(lines);
    hide Orders.LinesTotal, Sum;
    if exists i :: 0 <= i < |lines| && !Orders.LineOk(lines[i]) {
      var i :| 0 <= i < |lines| && !Orders.LineOk(lines[i]);
      assert lines[i].quantity == 0;
    } else {
      forall i | 0 <= i < |lines| ensures lines[i].quantity > 0 { assert Orders.LineOk(lines[i]); }
    }
  }

  lemma {:induction false} LinesAddUp(lines: seq<Line>)
    ensures Orders.LinesTotal(lines) == Sum(lines, (x: Line) => x.quantity * x.price)
  {
    if |lines| > 0 { LinesAddUp(lines[..|lines| - 1]); }
  }

  // Its owner may cancel an order that is still pending, and then its unpaid invoices
  // go with it and no other.
  lemma CancelledByOwner(d: Db, user: Id, o: Id)
    ensures var e := Orders.Cancel(d, user, o);
            && (e.Some? <==> o < |d.orders| && d.orders[o].user == user && d.orders[o].status == OrderPending)
            && (e.Some? ==>
                && e.value.orders == d.orders[o := d.orders[o].(status := OrderCancelled)]
                && |e.value.invoices| == |d.invoices|
                && forall i :: 0 <= i < |d.invoices| ==>
                     e.value.invoices[i] == if d.invoices[i].order == Some(o) && d.invoices[i].status == InvoiceUnpaid
                                            then d.invoices[i].(status := InvoiceCancelled) else d.invoices[i])
  {
  }

  // ----- payments -----

  // A payment of the user's is under way for this, under whatever name.
  ghost predicate UnderWay(d: Db, user: Id, k: Key) {
    exists i :: 0 <= i < |d.intents| && d.intents[i].user == user && Live(d.intents[i].status)
             && KeyOf(d.invoices, d.intents[i].purpose, d.intents[i].target) == Some(k)
  }

  lemma NotUnderWay(d: Db, user: Id, k: Key)
    requires !Busy(d, user, k)
    ensures !UnderWay(d, user, k)
  {
    forall i | 0 <= i < |d.intents| && d.intents[i].user == user && Live(d.intents[i].status)
      ensures KeyOf(d.invoices, d.intents[i].purpose, d.intents[i].target) != Some(k)
    {
      assert !Blocks(d.invoices, d.intents[i], k);
    }
  }

  // The wallet pays for what nobody is paying for already: an order of the user's that
  // is pending, an invoice of his that is unpaid, or a renewal.
  lemma WalletPaysAlone(d: Db, user: Id, o: Id, i: Id, s: Id, now: Instant, rate: nat, price: Option<int>)
    ensures Orders.Pay(d, user, o, now, rate).Some? ==>
              && o < |d.orders| && d.orders[o].user == user && d.orders[o].status == OrderPending
              && !UnderWay(d, user, OrderKey(o))
    ensures Payments.SettleFromWallet(d, user, i, now, rate, price).Some? ==>
              && i < |d.invoices| && d.invoices[i].user == user && d.invoices[i].status == InvoiceUnpaid
              && !UnderWay(d, user, KeyOfInvoice(d.invoices[i], i))
    ensures Billing.RenewNow(d, user, s, now).Some? ==> !UnderWay(d, user, RenewalKey(s))
  {
    hide Busy, AddMonths, UnderWay, Billing.Renew, Billing.SettleInvoice, Orders.MarkPaid, Orders.Accrue;
    if !Busy(d, user, OrderKey(o)) { NotUnderWay(d, user, OrderKey(o)); }
    if i < |d.invoices| && !Busy(d, user, KeyOfInvoice(d.invoices[i], i)) {
      NotUnderWay(d, user, KeyOfInvoice(d.invoices[i], i));
    }
    if !Busy(d, user, RenewalKey(s)) { NotUnderWay(d, user, RenewalKey(s)); }
  }

  // The wallet contributes what was wished for, as far as it is needed, and nothing
  // to a recharge or a renewal; the channel is asked for the rest.
  lemma PaymentIsSplit(d: Db, user: Id, purpose: Purpose, target: Id, total: int, wish: int,
                       quoted: Option<Instant>, now: Instant, rate: nat, price: Option<int>)
    requires Payments.CreateIntent(d, user, purpose, target, total, wish, quoted, now, rate, price).Some?
    ensures total > 0 && wish >= 0
    ensures purpose == ForRecharge || purpose == ForRenewal ==> wish == 0
    ensures purpose == ForRecharge ==> total <= 100_000_000
    ensures var e := Payments.CreateIntent(d, user, purpose, target, total, wish, quoted, now, rate, price).value;
            && |e.intents| == |d.intents| + 1
            && var x := e.intents[|d.intents|];
               && x.user == user && x.purpose == purpose && x.target == target
               && x.amount + x.balance == total && x.balance <= wish && (x.balance == wish || x.amount == 0)
               && x.status == (if x.amount == 0 then IntentPaid else IntentPending)
  {
    hide Busy, Payable, KeyTaken, LoadTarget, Payments.SettleTarget;
  }

  // What a payment is opened for is still to be paid, at just this price.
  lemma PaymentIsForWhatIsDue(d: Db, user: Id, purpose: Purpose, target: Id, total: int, wish: int,
                              quoted: Option<Instant>, now: Instant, rate: nat, price: Option<int>)
    requires Payments.CreateIntent(d, user, purpose, target, total, wish, quoted, now, rate, price).Some?
    ensures purpose == ForOrder ==> && target < |d.orders| && d.orders[target].user == user
                                    && d.orders[target].status == OrderPending && d.orders[target].total == total
    ensures purpose == ForInvoice ==> && target < |d.invoices| && d.invoices[target].user == user
                                      && d.invoices[target].status == InvoiceUnpaid && d.invoices[target].total == total
    ensures purpose == ForRenewal ==> && target < |d.services| && d.services[target].user == user
                                      && d.services[target].status == ServiceActive && d.services[target].price == total
                                      && d.services[target].cycle != OneTime && d.services[target].change.None?
                                      && quoted.Some? && d.services[target].expires == quoted
  {
    hide Busy, KeyTaken, Payments.OpenIntent, Wallet.PostUnlessZero;
  }

  // An invoice for a renewal can be paid for while its service can be renewed, at the
  // service's price, and has the expiry that was quoted.
  lemma RenewalInvoiceIsDue(d: Db, user: Id, i: Id, total: int, wish: int,
                            quoted: Option<Instant>, now: Instant, rate: nat, price: Option<int>)
    requires i < |d.invoices| && d.invoices[i].order.None? && d.invoices[i].traffic.None? && d.invoices[i].service.Some?
    requires Payments.CreateIntent(d, user, ForInvoice, i, total, wish, quoted, now, rate, price).Some?
    ensures var s := d.invoices[i].service.value;
            && s < |d.services| && d.services[s].user == user && d.services[s].price == total
            && d.services[s].change.None? && quoted.Some? && d.services[s].expires == quoted
            && (d.services[s].status == ServiceActive
                || (d.services[s].status == ServiceSuspended
                    && (d.services[s].reason == TrafficExceeded || d.services[s].reason == Expired)))
  {
    hide Busy, KeyTaken, Payments.OpenIntent, Wallet.PostUnlessZero;
  }

  // A pending payment is given up by its owner or because it could not be opened; its
  // wallet part goes back, and nobody else's payment is touched.
  lemma GivenUp(d: Db, user: Id, i: Id)
    ensures Payments.CancelIntent(d, user, i).Some? ==>
              i < |d.intents| && d.intents[i].user == user
                && Payments.CancelIntent(d, user, i) == Payments.FailIntent(d, i)
    ensures Payments.FailIntent(d, i).Some? ==>
              && i < |d.intents| && d.intents[i].status == IntentPending
              && var x, e := d.intents[i], Payments.FailIntent(d, i).value;
                 && e.intents == d.intents[i := x.(status := IntentFailed, key := None)]
                 && (x.balance > 0 ==> && x.user < |d.bank.balances|
                                       && e.bank.balances
                                         == d.bank.balances[x.user := d.bank.balances[x.user] + x.balance])
  {
  }

  // ----- invoices for services -----

  predicate OpenInvoice(x: Invoice, s: Id, traffic: bool) {
    x.status == InvoiceUnpaid && x.order.None? && x.service == Some(s) && x.traffic.Some? == traffic
  }

  // A renewal is invoiced once at a time, to the owner of a service that can be
  // renewed, at its price.
  lemma RenewalIsInvoicedOnce(d: Db, user: Id, s: Id)
    ensures var e := Billing.RenewalInvoice(d, user, s);
            && (e.Some? <==> && s < |d.services| && d.services[s].user == user && d.services[s].cycle != OneTime
                             && d.services[s].change.None?
                             && (d.services[s].status == ServiceActive
                                 || (d.services[s].status == ServiceSuspended
                                     && (d.services[s].reason == TrafficExceeded || d.services[s].reason == Expired)))
                             && forall i :: 0 <= i < |d.invoices| ==> !OpenInvoice(d.invoices[i], s, false))
            && (e.Some? ==> e.value == d.(invoices :=
                  d.invoices + [Invoice(user, None, Some(s), None, InvoiceUnpaid, d.services[s].price)]))
  {
    if exists i :: 0 <= i < |d.invoices| && Billing.UnpaidRenewal(d.invoices[i], s) {
      var i :| 0 <= i < |d.invoices| && Billing.UnpaidRenewal(d.invoices[i], s);
      assert OpenInvoice(d.invoices[i], s, false);
    } else {
      forall i | 0 <= i < |d.invoices| ensures !OpenInvoice(d.invoices[i], s, false) {
        assert !Billing.UnpaidRenewal(d.invoices[i], s);
      }
    }
  }

  // A traffic pack of 1 to 10240 GB is sold, one invoice at a time, to the owner of a
  // service in use or stopped for its traffic, at what the price list asks.
  lemma TrafficIsInvoicedOnce(d: Db, user: Id, s: Id, gb: nat, price: Option<int>)
    ensures var e := Billing.TrafficInvoice(d, user, s, gb, price);
            && (e.Some? <==> && 1 <= gb <= 10240 && s < |d.services| && d.services[s].user == user
                             && (d.services[s].status == ServiceActive
                                 || (d.services[s].status == ServiceSuspended
                                     && d.services[s].reason == TrafficExceeded))
                             && price.Some? && price.value > 0
                             && forall i :: 0 <= i < |d.invoices| ==> !OpenInvoice(d.invoices[i], s, true))
            && (e.Some? ==> e.value == d.(invoices :=
                  d.invoices + [Invoice(user, None, Some(s), Some(gb), InvoiceUnpaid, price.value)]))
  {
    if exists i :: 0 <= i < |d.invoices| && Billing.UnpaidTraffic(d.invoices[i], s) {
      var i :| 0 <= i < |d.invoices| && Billing.UnpaidTraffic(d.invoices[i], s);
      assert OpenInvoice(d.invoices[i], s, true);
    } else {
      forall i | 0 <= i < |d.invoices| ensures !OpenInvoice(d.invoices[i], s, true) {
        assert !Billing.UnpaidTraffic(d.invoices[i], s);
      }
    }
  }

  // A pack that is paid for is credited at the price the list asks now, or not at all.
  lemma TrafficAtTodaysPrice(d: Db, user: Id, i: Id, price: Option<int>)
    requires i < |d.invoices| && d.invoices[i].service.Some? && d.invoices[i].traffic.Some?
    ensures Billing.SettleTraffic(d, user, i, price).Some? ==>
              var s := d.invoices[i].service.value;
              s < |d.services| && d.services[s].user == user && price == Some(d.invoices[i].total)
  {
  }

  // ----- wallet -----

  predicate SameCredit(x: PluginPayment, plugin: string, external: string) {
    x.plugin == plugin && x.external == external
  }

  // A credit from outside lies between a cent and a million, and one external id
  // counts once.
  lemma CreditCountsOnce(d: Db, plugin: string, external: string, user: Id, amount: int)
    requires Wallet.CreditExternal(d, plugin, external, user, amount).Some?
    ensures 0 < amount <= 100_000_000 && external != ""
    ensures var e := Wallet.CreditExternal(d, plugin, external, user, amount).value;
            var known := exists k :: 0 <= k < |d.plugins| && SameCredit(d.plugins[k], plugin, external);
            && (known ==> e == d)
            && (!known ==> && e.plugins == d.plugins + [PluginPayment(plugin, external, user, amount)]
                           && user < |d.bank.balances| == |e.bank.balances|
                           && e.bank.balances[user] == d.bank.balances[user] + amount)
  {
  }

  lemma RechargeIsBounded(d: Db, user: Id, amount: int)
    requires Wallet.Recharge(d, user, amount).Some?
    ensures 0 < amount <= 100_000_000 && user < |d.bank.balances|
    ensures Wallet.Recharge(d, user, amount).value.bank.balances
      == d.bank.balances[user := d.bank.balances[user] + amount]
  {
  }

  // ----- changes -----

  // A change is reserved for the owner of a service that is in use, as it was first
  // read in product and expiry, with nothing else under way for it: no other change,
  // no unpaid renewal, no payment for one, and no change under the same token.
  lemma ReservedInPeace(d: Db, user: Id, s: Id, token: string, snapshot: Service, request: Changes.Request)
    requires Changes.Reserve(d, user, s, token, snapshot, request).Some?
    ensures s < |d.services|
    ensures var x := d.services[s];
            && x.user == user && x.status == ServiceActive && x.change.None? && x.expires.Some?
            && x.product == snapshot.product && x.expires == snapshot.expires
    ensures forall i :: 0 <= i < |d.invoices| ==> !OpenInvoice(d.invoices[i], s, false)
    ensures forall i :: 0 <= i < |d.intents| && Live(d.intents[i].status) ==>
              d.intents[i].purpose != ForRenewal || d.intents[i].target != s
    ensures forall c :: 0 <= c < |d.changes| && d.changes[c].service == s ==> d.changes[c].token != token
  {
    hide Changes.OfferFor;
    forall i | 0 <= i < |d.invoices| ensures !OpenInvoice(d.invoices[i], s, false) {
      assert !Billing.UnpaidRenewal(d.invoices[i], s);
    }
  }

  // What is reserved is the quote: for the price of the product with its options, with
  // what was asked for.
  lemma ReservedAsQuoted(d: Db, user: Id, s: Id, token: string, snapshot: Service, request: Changes.Request)
    requires Changes.Reserve(d, user, s, token, snapshot, request).Some?
    ensures var e, r := Changes.Reserve(d, user, s, token, snapshot, request).value, request;
            && s < |d.services| && |e.changes| == |d.changes| + 1
            && var x := e.changes[|d.changes|];
               && x.user == user && x.service == s && x.token == token && x.status == ChangeReserved
               && x.product == r.product && x.price == r.target + r.extra && x.options == r.options
               && r.quoted.expires == Some(x.basis.expires) && x.basis.expires > r.now == x.basis.at
               && r.quoted.status == ServiceActive && x.basis.from == r.quoted.price
                 && x.basis.held == d.services[s].price
               && e.services[s] == d.services[s].(change := Some(|d.changes|))
               && (x.charge > 0 ==> && user < |d.bank.balances| == |e.bank.balances|
                                    && e.bank.balances[user] == d.bank.balances[user] - x.charge >= 0)
  {
    hide Changes.Fenced, Changes.TokenUsed, Proration.NetCharge, Proration.CycleSeconds;
  }

  // A closed change applied what it was for, or left the service as it was.
  lemma ChangeGoes(d: Db, c: Id, applied: bool)
    requires Changes.Finish(d, c, applied).Some?
    ensures c < |d.changes| && d.changes[c].service < |d.services|
    ensures var e, x := Changes.Finish(d, c, applied).value, d.changes[c];
            && |e.services| == |d.services| && |e.changes| == |d.changes|
            && var s, y := d.services[x.service], e.services[x.service];
               && (applied ==> && e.changes[c].status == ChangeApplied
                               && y == s.(change := None, product := x.product, price := x.price, options := x.options))
               && (!applied ==> e.changes[c].status == ChangeFailed && y == s.(change := None))
  {
  }

  // What is written to a service from elsewhere is what was given, and no price, expiry
  // or owner.
  lemma SetAsGiven(d: Db, s: Id, status: ServiceStatus, reason: Reason, autoRenew: bool, hosted: bool)
    requires s < |d.services|
    ensures var e := Step(d, Bill(SetService(s, status, reason, autoRenew, hosted)));
            e == d.(services := d.services[s :=
              d.services[s].(status := status, reason := reason, autoRenew := autoRenew, hosted := hosted)])
  {
  }

  // ----- renewals -----

  // A renewal moves the expiry by the months of its cycle from the later of now and
  // the old expiry; a service the patrol stopped stays stopped until its host is
  // back, if it has one, and any other is in use.
  lemma RenewalMovesExpiry(d: Db, s: Id, now: Instant, m: nat)
    requires s < |d.services| && MonthsOf(d.services[s].cycle, m)
    ensures var e, x := Billing.ApplyRenewal(d, s, now), d.services[s];
            var base := if x.expires.Some? && x.expires.value > now then x.expires.value else now;
            && |e.services| == |d.services| && e.services[s].expires.Some?
            && var next := e.services[s].expires.value;
               && base + 28 * m * 86400 <= next <= base + 31 * m * 86400
               && (DayOfMonth(base) <= 28 ==> MonthsBack(next, m) == base)
               && e.services[s]
                 == x.(expires := Some(next), status := e.services[s].status, reason := e.services[s].reason)
               && (if x.status == ServiceSuspended && (x.reason == TrafficExceeded || x.reason == Expired) && x.hosted
                   then e.services[s].status == ServiceSuspended && e.services[s].reason == x.reason
                   else e.services[s].status == ServiceActive && e.services[s].reason == NoReason)
  {
    hide AddMonths, MonthsBack, DayOfMonth;
    var x := d.services[s];
    var base := Billing.RenewalBase(x, now);
    AddMonthsGrows(base, m);
    if DayOfMonth(base) <= 28 { WalkBackInvertsAdvance(base, x.cycle); }
  }

  // Renewed is only what its owner may renew, and it is charged its price.
  lemma RenewedByOwner(d: Db, user: Id, s: Id, now: Instant)
    requires Billing.RenewNow(d, user, s, now).Some?
    ensures s < |d.services|
    ensures var x := d.services[s];
            && x.user == user && x.change.None? && x.cycle != OneTime
            && (x.status == ServiceActive
                || (x.status == ServiceSuspended && (x.reason == TrafficExceeded || x.reason == Expired)))
    ensures var e := Billing.RenewNow(d, user, s, now).value;
            d.services[s].price > 0 ==>
              && user < |d.bank.balances| == |e.bank.balances|
              && e.bank.balances[user] == d.bank.balances[user] - d.services[s].price >= 0
  {
    hide Busy, AddMonths;
  }

  // The scheduler renews what its owner left to it: switched on, due within the window,
  // with the expiry that was listed, which it has not renewed before, and with neither
  // an unpaid renewal nor a payment for one.
  lemma ScheduledWhenDue(d: Db, s: Id, listed: Instant, now: Instant, window: nat)
    requires Billing.AutoRenew(d, s, listed, now, window).Some?
    ensures s < |d.services|
    ensures var x := d.services[s];
            && x.autoRenew && x.expires == Some(listed) && listed <= now + window && (s, listed) !in d.renewalKeys
            && x.change.None? && x.cycle != OneTime
            && (x.status == ServiceActive
                || (x.status == ServiceSuspended && (x.reason == TrafficExceeded || x.reason == Expired)))
    ensures forall i :: 0 <= i < |d.invoices| ==> !OpenInvoice(d.invoices[i], s, false)
    ensures forall i :: 0 <= i < |d.intents| && Live(d.intents[i].status) ==>
              d.intents[i].purpose != ForRenewal || d.intents[i].target != s
    ensures var e, x := Billing.AutoRenew(d, s, listed, now, window).value, d.services[s];
            && e.renewalKeys == d.renewalKeys + {(s, listed)}
            && (x.price > 0 ==> && x.user < |d.bank.balances| == |e.bank.balances|
                                && e.bank.balances[x.user] == d.bank.balances[x.user] - x.price >= 0)
  {
    hide AddMonths;
    forall i | 0 <= i < |d.invoices| ensures !OpenInvoice(d.invoices[i], s, false) {
      assert !Billing.UnpaidRenewal(d.invoices[i], s);
    }
  }

  // A refund is asked for by the owner of an order that was paid, and gives back what
  // was paid for it: through the channel and into the wallet as it came, or all into
  // the wallet when no payment is named.
  lemma RefundIsOfPaid(d: Db, user: Id, o: Id, payment: Option<Id>)
    requires Refunds.Request(d, user, o, payment).Some?
    ensures o < |d.orders| && d.orders[o].user == user
    ensures d.orders[o].status == OrderPaid || d.orders[o].status == OrderRefunded
    ensures payment.Some? ==>
              && payment.value < |d.intents|
              && var x := d.intents[payment.value];
                 && x.user == user && x.purpose == ForOrder && x.target == o
                 && (x.status == IntentPaid || x.status == IntentRefunding || x.status == IntentRefunded)
    ensures var e := Refunds.Request(d, user, o, payment).value;
            && |e.refunds| == |d.refunds| + 1
            && var y := e.refunds[|d.refunds|];
               && y.user == user && y.order == o && y.payment == payment && y.status == RefundPending
               && y.amount == y.channel + y.balance > 0
               && (if payment.None? then y.channel == 0 && y.balance == d.orders[o].total
                   else y.channel == d.intents[payment.value].amount && y.balance == d.intents[payment.value].balance)
  {
  }
}
