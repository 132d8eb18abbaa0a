// refund.go: refund requests and the execution that pays them out. Each atomic
// update of execute is a step of its own; between two of them any other step of
// the system may run.
module Refunds {
  import opened Options
  import opened Tables
  import Wallet
  import Affiliates

  // Create. What it read about the order and the payment may be out of date: they
  // had been paid when read, and may have moved on since. payment is None when
  // the lookup found no paid payment for the order.
  function Request(db: Db, user: Id, o: Id, payment: Option<Id>): Option<Db> {
    if o >= |db.orders| || db.orders[o].user != user
       || (db.orders[o].status != OrderPaid && db.orders[o].status != OrderRefunded)
    then None
    else if payment.None? then
      var total := db.orders[o].total;
      if total <= 0 then None
      else Some(db.(refunds := db.refunds + [Refund(user, o, None, total, 0, total, RefundPending)]))
    else
      var p := payment.value;
      if p >= |db.intents| || db.intents[p].user != user
         || db.intents[p].purpose != ForOrder || db.intents[p].target != o
         || (db.intents[p].status != IntentPaid && db.intents[p].status != IntentRefunding
             && db.intents[p].status != IntentRefunded)
         || db.intents[p].amount + db.intents[p].balance <= 0
      then None
      else
        var x := db.intents[p];
        Some(db.(refunds := db.refunds
                  + [Refund(user, o, payment, x.amount + x.balance, x.amount, x.balance, RefundPending)]))
  }

  function Restatus(db: Db, r: Id, status: RefundStatus): Db
    requires r < |db.refunds|
  {
    db.(refunds := db.refunds[r := db.refunds[r].(status := status)])
  }

  function Review(db: Db, r: Id, approve: bool): Option<Db> {
    if r >= |db.refunds| || db.refunds[r].status != RefundPending then None
    else Some(Restatus(db, r, if approve then RefundApproved else RefundRejected))
  }

  function Cancel(db: Db, user: Id, r: Id): Option<Db> {
    if r >= |db.refunds| || db.refunds[r].user != user || db.refunds[r].status != RefundPending then None
    else Some(Restatus(db, r, RefundCanceled))
  }

  // The request-level claim.
  function Start(db: Db, r: Id): Option<Db> {
    if r >= |db.refunds| then None
    else
      var s := db.refunds[r].status;
      if s != RefundPending && s != RefundApproved && s != RefundFailed then None
      else Some(Restatus(db, r, RefundProcessing).(
        executions := db.executions + [Execution(r, RequestClaimed, None)]))
  }

  predicate NeedsChannel(x: Refund) { x.payment.Some? && x.channel > 0 }

  predicate At(db: Db, e: Id, progress: Progress) {
    e < |db.executions| && db.executions[e].progress == progress && db.executions[e].refund < |db.refunds|
  }

  function Move(db: Db, e: Id, progress: Progress): Db
    requires e < |db.executions|
  {
    db.(executions := db.executions[e := db.executions[e].(progress := progress)])
  }

  function SetIntent(db: Db, p: Id, status: IntentStatus): Db
    requires p < |db.intents|
  {
    db.(intents := db.intents[p := db.intents[p].(status := status)])
  }

  // The payment-level claim: paid -> refunding, with one winner.
  function ClaimPayment(db: Db, e: Id): Option<Db> {
    if !At(db, e, RequestClaimed) || !NeedsChannel(db.refunds[db.executions[e].refund]) then None
    else
      var p := db.refunds[db.executions[e].refund].payment.value;
      if p < |db.intents| && db.intents[p].status == IntentPaid
      then Some(SetIntent(Move(db, e, PaymentClaimed), p, IntentRefunding))
      else Some(Move(db, e, LostClaim))
  }

  // refundChannel: the channel is asked only under the claim, and the claim is
  // read again first.
  function AskChannel(db: Db, e: Id, reply: Reply): Option<Db> {
    if !At(db, e, PaymentClaimed) then None
    else
      var x := db.refunds[db.executions[e].refund];
      if x.payment.None? then None
      else
        var held := x.payment.value < |db.intents| && db.intents[x.payment.value].status == IntentRefunding;
        Some(db.(executions := db.executions[e :=
          db.executions[e].(progress := Replied, reply := Some(if held then reply else Rejected))]))
  }

  // A definite refusal gives the payment claim back.
  function Release(db: Db, e: Id): Option<Db> {
    if !At(db, e, Replied) || db.executions[e].reply != Some(Rejected) then None
    else
      var x := db.refunds[db.executions[e].refund];
      if x.payment.None? then None
      else
        var p, d := x.payment.value, Move(db, e, Released);
        Some(if p < |d.intents| && d.intents[p].status == IntentRefunding then SetIntent(d, p, IntentPaid) else d)
  }

  predicate MayComplete(db: Db, e: Id) {
    || (At(db, e, Replied) && db.executions[e].reply == Some(Accepted))
    || (At(db, e, RequestClaimed) && !NeedsChannel(db.refunds[db.executions[e].refund]))
  }

  function Revoke(x: Service, o: Id): Service {
    if x.order == o && x.status == ServiceActive
    then x.(status := ServiceSuspended, reason := RefundRevoked, autoRenew := false)
    else x
  }

  // The order leaves the paid state for good and its running services end.
  function CloseOrder(db: Db, o: Id): Db
    requires o < |db.orders|
  {
    db.(orders := db.orders[o := db.orders[o].(status := OrderRefunded)],
        services := seq(|db.services|, i requires 0 <= i < |db.services| => Revoke(db.services[i], o)))
  }

  // The payment can never fund another payout.
  function CloseIntent(db: Db, x: Refund): Db {
    if NeedsChannel(x) && x.payment.value < |db.intents| && db.intents[x.payment.value].status == IntentRefunding
    then SetIntent(db, x.payment.value, IntentRefunded) else db
  }

  // The closing transaction: request, wallet, order, services, payment and
  // commission move together or not at all.
  function Complete(db: Db, e: Id): Option<Db> {
    if !MayComplete(db, e) then None
    else
      var r := db.executions[e].refund;
      var x := db.refunds[r];
      if x.status != RefundProcessing || x.order >= |db.orders| || db.orders[x.order].status != OrderPaid then None
      else
        match Wallet.PostUnlessZero(Restatus(Move(db, e, Closed), r, RefundCompleted), x.user, x.balance,
                                    RefundCredit(r))
        case None => None
        case Some(d) => Some(Affiliates.Reverse(CloseIntent(CloseOrder(d, x.order), x), x.order))
  }

  // The closing transaction was refused or lost: nothing of it remains.
  function Abort(db: Db, e: Id): Option<Db> {
    if !MayComplete(db, e) then None else Some(Move(db, e, Aborted))
  }

  // The last write of a failed execution makes the request retryable.
  function Fail(db: Db, e: Id): Option<Db> {
    if !At(db, e, LostClaim) && !At(db, e, Released) && !At(db, e, Aborted) then None
    else
      var r := db.executions[e].refund;
      var d := Move(db, e, Closed);
      Some(if db.refunds[r].status == RefundProcessing then Restatus(d, r, RefundFailed) else d)
  }
}
