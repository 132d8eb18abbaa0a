// payment_target.go: the aliases under which one obligation can be paid, the
// canonical key they share, and the check that no payment is already under way.
module Targets {
  import opened Options
  import opened Calendar
  import opened Tables

  // The key an invoice's payments share with its other aliases.
  function KeyOfInvoice(x: Invoice, id: Id): Key {
    if x.order.Some? then OrderKey(x.order.value)
    else if x.service.Some? && x.traffic.None? then RenewalKey(x.service.value)
    else InvoiceKey(id)
  }

  function KeyOf(invoices: seq<Invoice>, purpose: Purpose, target: Id): Option<Key> {
    match purpose
    case ForRecharge => None
    case ForOrder => Some(OrderKey(target))
    case ForRenewal => Some(RenewalKey(target))
    case ForInvoice => if target < |invoices| then Some(KeyOfInvoice(invoices[target], target)) else None
  }

  // loadPaymentTarget: every row on the way to the root must exist and belong to
  // the user; None is the not-found error.
  function LoadTarget(db: Db, user: Id, purpose: Purpose, target: Id): Option<Key> {
    match purpose
    case ForRecharge => None
    case ForOrder =>
      if target < |db.orders| && db.orders[target].user == user then Some(OrderKey(target)) else None
    case ForRenewal =>
      if target < |db.services| && db.services[target].user == user then Some(RenewalKey(target)) else None
    case ForInvoice =>
      if target >= |db.invoices| || db.invoices[target].user != user then None
      else
        var x := db.invoices[target];
        if x.order.Some? then
          if x.order.value < |db.orders| && db.orders[x.order.value].user == user
          then Some(KeyOfInvoice(x, target)) else None
        else if x.service.Some? then
          if x.service.value < |db.services| && db.services[x.service.value].user == user
          then Some(KeyOfInvoice(x, target)) else None
        else Some(KeyOfInvoice(x, target))
  }

  predicate Live(s: IntentStatus) {
    s == IntentPending || s == IntentProcessing
  }

  // One row of the query in rejectPaymentIntentTx: the stored key, or the alias
  // named directly, or an invoice among those collected for the root.
  predicate Blocks(invoices: seq<Invoice>, x: Intent, k: Key) {
    || x.key == Some(k)
    || match k
       case OrderKey(o) =>
         || (x.purpose == ForOrder && x.target == o)
         || (x.purpose == ForInvoice && x.target < |invoices| && invoices[x.target].order == Some(o))
       case RenewalKey(s) =>
         || (x.purpose == ForRenewal && x.target == s)
         || (x.purpose == ForInvoice && x.target < |invoices| && invoices[x.target].service == Some(s)
             && invoices[x.target].traffic.None? && invoices[x.target].order.None?)
       case InvoiceKey(i) => x.purpose == ForInvoice && x.target == i
  }

  // rejectPaymentIntentTx.
  predicate Busy(db: Db, user: Id, k: Key) {
    exists i :: 0 <= i < |db.intents|
      && db.intents[i].user == user && Live(db.intents[i].status) && Blocks(db.invoices, db.intents[i], k)
  }

  // The unique index over stored keys.
  predicate KeyTaken(db: Db, k: Key) {
    exists i :: 0 <= i < |db.intents| && db.intents[i].key == Some(k)
  }

  // In use, or suspended for a reason that a payment cures.
  predicate RenewableIn(status: ServiceStatus, reason: Reason) {
    status == ServiceActive || (status == ServiceSuspended && (reason == TrafficExceeded || reason == Expired))
  }

  predicate RenewableStatus(x: Service) { RenewableIn(x.status, x.reason) }

  // payableAmount, for a target that LoadTarget found; quoted is the expiry the
  // caller's preflight read.
  function Payable(db: Db, purpose: Purpose, target: Id, quoted: Option<Instant>): Option<int> {
    match purpose
    case ForRecharge => None
    case ForOrder =>
      if target < |db.orders| && db.orders[target].status == OrderPending then Some(db.orders[target].total) else None
    case ForRenewal =>
      if target >= |db.services| then None
      else
        var x := db.services[target];
        if x.status != ServiceActive || x.cycle == OneTime || x.change.Some? || x.expires.None? || x.expires != quoted
        then None else Some(x.price)
    case ForInvoice =>
      if target >= |db.invoices| then None
      else
        var x := db.invoices[target];
        if x.status != InvoiceUnpaid then None
        else if x.order.Some? then
          if x.order.value < |db.orders| && db.orders[x.order.value].total == x.total
             && db.orders[x.order.value].status == OrderPending
          then Some(x.total) else None
        else if x.service.Some? && x.traffic.None? then
          if x.service.value >= |db.services| then None
          else
            var s := db.services[x.service.value];
            if RenewableStatus(s) && s.change.None? && s.price == x.total && s.expires.Some? && s.expires == quoted
            then Some(x.total) else None
        else Some(x.total)
  }
}
