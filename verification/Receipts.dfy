// What the channel reported is what the payment asked of it: no payment counts as
// collected for any other amount.
module Receipts {
  import opened Options
  import opened Calendar
  import opened Tables
  import opened Targets
  import opened Machine
  import Wallet
  import Orders
  import Billing
  import Payments
  import Changes
  import Refunds
  import Affiliates
  import Conservation

  predicate InFull(x: Intent) {
    Conservation.Collected(x.status) ==> x.received == x.amount
  }

  ghost predicate Received(intents: seq<Intent>) {
    forall i :: 0 <= i < |intents| ==> InFull(intents[i])
  }

  // ----- the steps that write a payment -----

  lemma OpenIntentInFull(d: Db, x: Intent, now: Instant, rate: nat, price: Option<int>)
    requires Received(d.intents) && x.status == IntentPending
    ensures var r := Payments.OpenIntent(d, x, now, rate, price); r.Some? ==> Received(r.value.intents)
  {
    hide Payments.SettleTarget;
  }

  lemma CreateIntentInFull(d: Db, user: Id, purpose: Purpose, target: Id, total: int, wish: int,
                           quoted: Option<Instant>, now: Instant, rate: nat, price: Option<int>)
    requires Received(d.intents)
    ensures var r := Payments.CreateIntent(d, user, purpose, target, total, wish, quoted, now, rate, price);
            r.Some? ==> Received(r.value.intents)
  {
    hide Busy, Payable, KeyTaken, LoadTarget, Payments.OpenIntent, Received;
    if Payments.CreateIntent(d, user, purpose, target, total, wish, quoted, now, rate, price).Some? {
      var balance := Payments.WalletPart(total, wish);
      var key := if purpose == ForRecharge then None else LoadTarget(d, user, purpose, target);
      var e := Wallet.Debit(d, user, balance, IntentDebit(purpose, target)).value;
      var x := Intent(user, purpose, target, total - balance, balance, IntentPending, key, 0);
      OpenIntentInFull(e, x, now, rate, price);
    }
  }

  lemma PaymentInFull(d: Db, op: PaymentOp)
    requires Received(d.intents)
    ensures var r := DoPayment(d, op); r.Some? ==> Received(r.value.intents)
  {
    hide Busy, LoadTarget, Payments.SettleTarget, Payments.CreateIntent, Billing.SettleInvoice;
    match op
    case CreateIntent(user, purpose, target, total, wish, quoted, now, rate, price) =>
      CreateIntentInFull(d, user, purpose, target, total, wish, quoted, now, rate, price);
    case _ =>
  }

  // The claim on a payment moves its status and nothing else.
  ghost predicate OnlyClaims(before: seq<Intent>, after: seq<Intent>) {
    |after| == |before|
    && forall i :: 0 <= i < |before| ==>
         (after[i] == before[i]
          || (Conservation.Collected(before[i].status) && after[i] == before[i].(status := after[i].status)))
  }

  lemma RefundClaims(d: Db, op: RefundOp)
    ensures var r := DoRefund(d, op); r.Some? ==> OnlyClaims(d.intents, r.value.intents)
  {
    hide Refunds.Complete;
    if op.CompleteRefund? { CompleteClaims(d, op.execution); }
  }

  lemma CompleteClaims(d: Db, e: Id)
    ensures var r := Refunds.Complete(d, e); r.Some? ==> OnlyClaims(d.intents, r.value.intents)
  {
    hide Affiliates.ReverseBy, Refunds.Revoke;
  }

  // ----- every step -----

  lemma OthersKeepIntents(d: Db, op: Op)
    requires !op.Payment? && !op.Repay?
    ensures Step(d, op).intents == d.intents
  {
    hide Orders.Settle, Busy, AddMonths, Billing.Renew, Changes.Fenced, Changes.TokenUsed, Changes.OfferFor;
    match op
    case Account(_) =>
    case Sale(_) =>
    case Bill(b) => BillKeepsIntents(d, b);
    case ProductChange(_) =>
    case Share(_) =>
  }

  lemma BillKeepsIntents(d: Db, op: BillingOp)
    ensures var r := DoBill(d, op); r.Some? ==> r.value.intents == d.intents
  {
    hide Busy, AddMonths;
  }

  lemma StepReceived(d: Db, op: Op)
    requires Received(d.intents)
    ensures Received(Step(d, op).intents)
  {
    hide DoPayment, DoRefund;
    if op.Payment? {
      PaymentInFull(d, op.payment);
    } else if op.Repay? {
      RefundClaims(d, op.repay);
    } else {
      hide Step;
      OthersKeepIntents(d, op);
    }
  }

  // ----- at the step -----

  // A pending payment is closed as paid only by a receipt of just what it asks of
  // the channel, and then keeps that amount; any other receipt changes nothing.
  lemma OnlyTheExactAmount(d: Db, i: Id, paid: int, now: Instant, rate: nat, price: Option<int>)
    requires i < |d.intents| && d.intents[i].status == IntentPending
    ensures var e := Step(d, Payment(Finalize(i, paid, now, rate, price)));
            && (paid != d.intents[i].amount ==> e == d)
            && (e != d ==> && i < |e.intents| && e.intents[i].status == IntentPaid
                           && e.intents[i].received == paid == d.intents[i].amount)
  {
    hide Payments.SettleTarget;
  }

  // The first receipt counts: a second one is confirmed if it says the same, and for a
  // payment that is no longer pending changes no amount and no status that stands for
  // money collected.
  lemma ReceiptsDoNotRepeat(d: Db, i: Id, paid: int, now: Instant, rate: nat, price: Option<int>)
    requires i < |d.intents| && d.intents[i].status != IntentPending
    ensures Step(d, Payment(Finalize(i, paid, now, rate, price))) == d
    ensures Payments.Finalize(d, i, paid, now, rate, price).Some?
            <==> d.intents[i].status == IntentPaid && (d.intents[i].received == 0 || d.intents[i].received == paid)
    ensures var e := Step(d, Payment(LateReceipt(i, paid)));
            e == d || (&& d.intents[i].status == IntentFailed && paid > 0
                       && e
                         == d.(intents := d.intents[i := d.intents[i].(status := IntentLate, key := None,
                                                                       received := paid)]))
  {
  }
}
