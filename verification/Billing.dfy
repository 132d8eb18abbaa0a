// billing.go and renewal_scheduler.go: renewing a service, renewal and traffic
// invoices, and the automatic renewal of the patrol.
module Billing {
  import opened Options
  import opened Calendar
  import opened Tables
  import opened Targets
  import Wallet
  import Orders

  // loadRenewableService.
  predicate Renewable(db: Db, user: Id, s: Id) {
    s < |db.services| && db.services[s].user == user && RenewableStatus(db.services[s])
    && db.services[s].change.None? && db.services[s].cycle != OneTime
  }

  // Renewal counts from the later of now and the current expiry.
  function RenewalBase(x: Service, now: Instant): Instant {
    if x.expires.Some? && x.expires.value > now then x.expires.value else now
  }

  // applyRenewalTx: only the expiry and the suspension state move. A suspended
  // service with an upstream host stays suspended until the host is back.
  function ApplyRenewal(db: Db, s: Id, now: Instant): Db
    requires s < |db.services|
  {
    var x := db.services[s];
    var next := AddMonths(RenewalBase(x, now), RenewalMonths(x.cycle));
    var kept := x.status == ServiceSuspended && (x.reason == TrafficExceeded || x.reason == Expired) && x.hosted;
    db.(services := db.services[s := x.(
          expires := Some(next),
          status := if kept then ServiceSuspended else ServiceActive,
          reason := if kept then x.reason else NoReason)],
        advances := db.advances + [Advance(s, x.price, x.expires, now, next)])
  }

  // renewInTx: the receipt is an invoice that is born paid.
  function Renew(db: Db, user: Id, s: Id, now: Instant, debit: bool): Option<Db> {
    if !Renewable(db, user, s) then None
    else
      var price := db.services[s].price;
      match if debit then Wallet.Debit(db, user, price, ServiceDebit(s)) else Some(db)
      case None => None
      case Some(d) =>
        var e := ApplyRenewal(d, s, now);
        Some(e.(invoices := e.invoices + [Invoice(user, None, None, None, InvoicePaid, price)]))
  }

  // renew: the manual renewal from the wallet.
  function RenewNow(db: Db, user: Id, s: Id, now: Instant): Option<Db> {
    if LoadTarget(db, user, ForRenewal, s).None? || Busy(db, user, RenewalKey(s)) then None
    else Renew(db, user, s, now, true)
  }

  predicate UnpaidRenewal(x: Invoice, s: Id) {
    x.service == Some(s) && x.status == InvoiceUnpaid && x.order.None? && x.traffic.None?
  }

  predicate UnpaidTraffic(x: Invoice, s: Id) {
    x.service == Some(s) && x.status == InvoiceUnpaid && x.order.None? && x.traffic.Some?
  }

  function RenewalInvoice(db: Db, user: Id, s: Id): Option<Db> {
    if !Renewable(db, user, s)
       || (exists i :: 0 <= i < |db.invoices| && UnpaidRenewal(db.invoices[i], s))
    then None
    else Some(db.(invoices := db.invoices
                   + [Invoice(user, None, Some(s), None, InvoiceUnpaid, db.services[s].price)]))
  }

  const MAX_TRAFFIC: nat := 10240

  // price is what the current price list asks for the pack, None when it cannot
  // be sold in this size.
  function TrafficInvoice(db: Db, user: Id, s: Id, gb: nat, price: Option<int>): Option<Db> {
    if gb < 1 || gb > MAX_TRAFFIC || s >= |db.services| || db.services[s].user != user
       || !(db.services[s].status == ServiceActive
            || (db.services[s].status == ServiceSuspended && db.services[s].reason == TrafficExceeded))
       || price.None? || price.value <= 0
       || (exists i :: 0 <= i < |db.invoices| && UnpaidTraffic(db.invoices[i], s))
    then None
    else Some(db.(invoices := db.invoices
                   + [Invoice(user, None, Some(s), Some(gb), InvoiceUnpaid, price.value)]))
  }

  function PayInvoice(db: Db, i: Id): Db
    requires i < |db.invoices|
  {
    db.(invoices := db.invoices[i := db.invoices[i].(status := InvoicePaid)])
  }

  // settleTrafficInvoiceTx: refused when the price list has moved.
  function SettleTraffic(db: Db, user: Id, i: Id, price: Option<int>): Option<Db>
    requires i < |db.invoices| && db.invoices[i].service.Some? && db.invoices[i].traffic.Some?
  {
    var s := db.invoices[i].service.value;
    if s >= |db.services| || db.services[s].user != user || price != Some(db.invoices[i].total) then None
    else
      var x := db.services[s];
      Some(PayInvoice(db, i).(services :=
        db.services[s := x.(extraTraffic := x.extraTraffic + db.invoices[i].traffic.value)]))
  }

  // settleRenewalInvoiceTx.
  function SettleRenewal(db: Db, user: Id, i: Id, now: Instant): Option<Db>
    requires i < |db.invoices| && db.invoices[i].service.Some?
  {
    var s := db.invoices[i].service.value;
    if !Renewable(db, user, s) then None else Some(PayInvoice(ApplyRenewal(db, s, now), i))
  }

  // settleInvoiceTx: by kind of invoice; the money was taken by the caller.
  function SettleInvoice(db: Db, user: Id, i: Id, now: Instant, rate: nat, price: Option<int>): (r: Option<Db>)
    ensures r.Some? ==> OnlySalesDiffer(db, r.value)
  {
    if i >= |db.invoices| || db.invoices[i].user != user || db.invoices[i].status != InvoiceUnpaid then None
    else
      var x := db.invoices[i];
      if x.order.Some? then Orders.Settle(db, user, x.order.value, now, rate)
      else if x.service.Some? && x.traffic.Some? then SettleTraffic(db, user, i, price)
      else if x.service.Some? then SettleRenewal(db, user, i, now)
      else Some(PayInvoice(db, i))
  }

  // autoRenew for one candidate whose listed expiry was listed. None leaves the
  // database alone, be it a skipped candidate or a rolled-back transaction.
  function AutoRenew(db: Db, s: Id, listed: Instant, now: Instant, window: nat): Option<Db> {
    if s >= |db.services| || !Renewable(db, db.services[s].user, s) then None
    else
      var x := db.services[s];
      if !x.autoRenew || x.expires != Some(listed) || listed > now + window
         || (exists i :: 0 <= i < |db.invoices| && UnpaidRenewal(db.invoices[i], s))
         || (exists i :: 0 <= i < |db.intents|
               && db.intents[i].purpose == ForRenewal && db.intents[i].target == s && Live(db.intents[i].status))
         || (s, listed) in db.renewalKeys
      then None
      else
        match Wallet.Debit(db.(renewalKeys := db.renewalKeys + {(s, listed)}), x.user, x.price, ServiceDebit(s))
        case None => None
        case Some(d) =>
          var e := ApplyRenewal(d, s, now);
          Some(e.(invoices := e.invoices + [Invoice(x.user, None, Some(s), None, InvoicePaid, x.price)]))
  }

  // Everything else that writes a service's state without touching money: the
  // lifecycle patrol, provisioning, resuming, and the auto-renew switch.
  function SetService(db: Db, s: Id, status: ServiceStatus, reason: Reason, autoRenew: bool, hosted: bool): Option<Db> {
    if s >= |db.services| then None
    else Some(db.(services := db.services[s := db.services[s].(
      status := status, reason := reason, autoRenew := autoRenew, hosted := hosted)]))
  }
}
