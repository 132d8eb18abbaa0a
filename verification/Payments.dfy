// payment.go: the life of an external payment intent.
module Payments {
  import opened Options
  import opened Calendar
  import opened Tables
  import opened Targets
  import Wallet
  import Orders
  import Billing

  // settleTargetTx.
  function SettleTarget(db: Db, user: Id, purpose: Purpose, target: Id, now: Instant, rate: nat, price: Option<int>)
    : (r: Option<Db>)
    ensures r.Some? ==> OnlySalesDiffer(db, r.value)
  {
    match purpose
    case ForRecharge => None
    case ForOrder => Orders.Settle(db, user, target, now, rate)
    case ForInvoice => Billing.SettleInvoice(db, user, target, now, rate, price)
    case ForRenewal => Billing.Renew(db, user, target, now, false)
  }

  function Min(a: int, b: int): int { if a < b then a else b }

  // What the wallet contributes: the caller's wish, capped at the total.
  function WalletPart(total: int, wish: int): int { Min(wish, total) }

  // Create up to the end of its transaction. total and quoted are what the
  // preflight read earlier; the transaction checks both again.
  function CreateIntent(db: Db, user: Id, purpose: Purpose, target: Id, total: int, wish: int,
                        quoted: Option<Instant>, now: Instant, rate: nat, price: Option<int>): Option<Db>
  {
    if user >= |db.bank.balances| || wish < 0 || total <= 0
       || (purpose == ForRecharge && total > Wallet.MAX_CREDIT)
       || (wish > 0 && (purpose == ForRecharge || purpose == ForRenewal))
    then None
    else
      var balance := WalletPart(total, wish);
      var key := if purpose == ForRecharge then None else LoadTarget(db, user, purpose, target);
      if purpose != ForRecharge
         && (key.None? || Payable(db, purpose, target, quoted) != Some(total)
             || Busy(db, user, key.value) || KeyTaken(db, key.value))
      then None
      else
        match Wallet.Debit(db, user, balance, IntentDebit(purpose, target))
        case None => None
        case Some(d) =>
          OpenIntent(d, Intent(user, purpose, target, total - balance, balance, IntentPending, key, 0), now, rate,
                     price)
  }

  // A payment the wallet covers in full settles at once and is born paid.
  function OpenIntent(db: Db, x: Intent, now: Instant, rate: nat, price: Option<int>): Option<Db> {
    var d := db.(intents := db.intents + [x]);
    if x.amount > 0 then Some(d)
    else
      match SettleTarget(d, x.user, x.purpose, x.target, now, rate, price)
      case None => None
      case Some(e) => Some(CloseIntent(e, |db.intents|, IntentPaid, 0))
  }

  // Every status change away from pending releases the canonical key.
  function CloseIntent(db: Db, i: Id, status: IntentStatus, received: int): Db
    requires i < |db.intents|
  {
    db.(intents := db.intents[i := db.intents[i].(status := status, key := None, received := received)])
  }

  // Cancel and compensateCreateFailure: claim pending -> failed, then return the
  // wallet part.
  function FailIntent(db: Db, i: Id): Option<Db> {
    if i >= |db.intents| || db.intents[i].status != IntentPending then None
    else
      var x := db.intents[i];
      Wallet.PostUnlessZero(CloseIntent(db, i, IntentFailed, x.received), x.user, x.balance, IntentReturn(i))
  }

  function CancelIntent(db: Db, user: Id, i: Id): Option<Db> {
    if i >= |db.intents| || db.intents[i].user != user then None else FailIntent(db, i)
  }

  // finalize: a receipt of the exact amount settles the target and closes the
  // intent in one transaction; repeating it changes nothing.
  function Finalize(db: Db, i: Id, paid: int, now: Instant, rate: nat, price: Option<int>): Option<Db> {
    if i >= |db.intents| then None
    else
      var x := db.intents[i];
      if x.status == IntentPaid then
        (if x.received != 0 && x.received != paid then None else Some(db))
      else if x.status != IntentPending || paid != x.amount then None
      else
        match if x.purpose == ForRecharge
              then Wallet.Post(db, x.user, x.amount, IntentRecharge(i))
              else SettleTarget(db, x.user, x.purpose, x.target, now, rate, price)
        case None => None
        case Some(d) => Some(CloseIntent(d, i, IntentPaid, paid))
  }

  // The branch of FinalizeCallback for an intent that is no longer pending: only
  // failed becomes late, so the first receipt is the one kept.
  function LateReceipt(db: Db, i: Id, paid: int): Option<Db> {
    if i >= |db.intents| || paid <= 0 || db.intents[i].status != IntentFailed then None
    else Some(CloseIntent(db, i, IntentLate, paid))
  }

  // SettleInvoice: an unpaid invoice in full from the wallet.
  function SettleFromWallet(db: Db, user: Id, i: Id, now: Instant, rate: nat, price: Option<int>): Option<Db> {
    var key := LoadTarget(db, user, ForInvoice, i);
    if key.None? || Busy(db, user, key.value) || db.invoices[i].status != InvoiceUnpaid then None
    else
      var total := db.invoices[i].total;
      match Wallet.Debit(db, user, total, InvoiceDebit(i))
      case None => None
      case Some(d) => Billing.SettleInvoice(d, user, i, now, rate, price)
  }
}
