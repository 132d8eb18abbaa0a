// service_change.go: the ledger of product changes. The upstream side of a
// change is modelled in module Resize.
module Changes {
  import opened Options
  import opened Calendar
  import opened Tables
  import opened Targets
  import Wallet
  import Billing
  import Proration

  predicate Open(s: ChangeStatus) {
    s == ChangeReserved || s == ChangeApplying || s == ChangeUncertain
  }

  // fenceChangeOnBilling.
  predicate Fenced(db: Db, s: Id) {
    || (exists i :: 0 <= i < |db.invoices| && Billing.UnpaidRenewal(db.invoices[i], s))
    || (exists i :: 0 <= i < |db.intents|
          && db.intents[i].purpose == ForRenewal && db.intents[i].target == s && Live(db.intents[i].status))
  }

  predicate TokenUsed(db: Db, s: Id, token: string) {
    exists i :: 0 <= i < |db.changes| && db.changes[i].service == s && db.changes[i].token == token
  }

  // What a customer asks for, with what its quote reads: the service row at that
  // time, the product's price and that of the options.
  datatype Request = Request(quoted: Service, product: Id, target: int, extra: int, options: OptionMap, now: Instant)

  // A quote, with what it was computed from.
  datatype Offer = Offer(
    product: Id, charge: nat, credit: nat, price: nat, options: OptionMap,
    from: nat, cycle: Cycle, expires: Instant, at: Instant)

  // Preview.
  function OfferFor(r: Request): Option<Offer> {
    var x := r.quoted;
    match Proration.TermsFor(x.status == ServiceActive, x.expires, x.cycle, x.price, r.target, r.extra, r.now)
    case None => None
    case Some(t) =>
      Some(Offer(r.product, t.charge, t.credit, t.price, r.options, x.price, x.cycle, x.expires.value, r.now))
  }

  function NewChange(user: Id, s: Id, token: string, q: Offer, held: nat): Change {
    Change(user, s, token, q.product, q.charge, q.credit, q.price, q.options,
           Basis(q.from, q.cycle, q.expires, q.at, held), ChangeReserved)
  }

  // Change, up to its reservation. snapshot is the row it read first; the row that
  // the quote is computed from is read again, later.
  function Reserve(db: Db, user: Id, s: Id, token: string, snapshot: Service, request: Request): Option<Db> {
    match OfferFor(request)
    case None => None
    case Some(q) => Hold(db, user, s, token, snapshot, q)
  }

  // The reservation transaction. It compares the service with the first row, and
  // its price with neither.
  function Hold(db: Db, user: Id, s: Id, token: string, snapshot: Service, q: Offer): Option<Db> {
    if s >= |db.services| || Fenced(db, s) || TokenUsed(db, s, token) then None
    else
      var x, c := db.services[s], |db.changes|;
      if x.user != user || x.change.Some? || x.product != snapshot.product || x.status != snapshot.status
         || snapshot.status != ServiceActive || snapshot.expires.None? || x.expires != snapshot.expires
      then None
      else
        Wallet.Debit(
          db.(changes := db.changes + [NewChange(user, s, token, q, x.price)],
              services := db.services[s := x.(change := Some(c))]),
          user, q.charge, ChangeDebit(c))
  }

  function Restatus(db: Db, c: Id, status: ChangeStatus): Db
    requires c < |db.changes|
  {
    db.(changes := db.changes[c := db.changes[c].(status := status)])
  }

  // The claim of Retry; an abandoned claim may be taken over once its lease ends.
  function Claim(db: Db, c: Id): Option<Db> {
    if c >= |db.changes| || !Open(db.changes[c].status)
       || db.changes[c].service >= |db.services| || db.services[db.changes[c].service].change != Some(c)
    then None
    else Some(Restatus(db, c, ChangeApplying))
  }

  function Doubt(db: Db, c: Id): Option<Db> {
    if c >= |db.changes| || db.changes[c].status != ChangeApplying then None
    else Some(Restatus(db, c, ChangeUncertain))
  }

  // finishChange: close the change and the service's reservation together, and
  // move the money that the outcome calls for.
  function Finish(db: Db, c: Id, applied: bool): Option<Db> {
    if c >= |db.changes| || db.changes[c].status != ChangeApplying then None
    else
      var x := db.changes[c];
      if x.service >= |db.services| || db.services[x.service].change != Some(c) then None
      else
        var s := db.services[x.service];
        var freed := if applied then s.(change := None, product := x.product, price := x.price, options := x.options)
          else s.(change := None);
        var closed := Restatus(db, c, if applied then ChangeApplied else ChangeFailed);
        Wallet.PostUnlessZero(closed.(services := db.services[x.service := freed]),
                              x.user, if applied then x.credit else x.charge, ChangeReturn(c))
  }
}
