// What the live payments, the unpaid invoices and the open changes allow each
// other: one payment at a time per obligation, nothing settled under a live
// payment, no price moved under an unpaid one.
module Obligations {
  import opened Options
  import opened Calendar
  import opened Tables
  import opened Targets
  import opened Machine
  import opened References
  import opened Integrity
  import Wallet
  import Orders
  import Billing
  import Payments
  import Changes
  import Refunds

  // ----- orders and their invoices -----

  ghost predicate HasInvoice(invoices: seq<Invoice>, o: Id) {
    exists i :: 0 <= i < |invoices| && invoices[i].order == Some(o)
  }

  predicate InStep(o: OrderStatus, i: InvoiceStatus) {
    match o
    case OrderPending => i == InvoiceUnpaid
    case OrderPaid => i == InvoicePaid
    case OrderRefunded => i == InvoicePaid
    case OrderCancelled => i == InvoiceCancelled
  }

  ghost predicate InvoiceInStep(orders: seq<Order>, x: Invoice) {
    x.order.Some? ==> (x.order.value < |orders| && InStep(orders[x.order.value].status, x.status))
  }

  // Every order has exactly one invoice, and their statuses move together.
  ghost predicate Invoiced(orders: seq<Order>, invoices: seq<Invoice>) {
    && (forall o :: 0 <= o < |orders| ==> HasInvoice(invoices, o))
    && (forall i, j :: 0 <= i < j < |invoices| && invoices[i].order.Some? ==> invoices[i].order != invoices[j].order)
    && (forall i :: 0 <= i < |invoices| ==> InvoiceInStep(orders, invoices[i]))
  }

  // ----- keys -----

  ghost predicate KeyRow(invoices: seq<Invoice>, x: Intent) {
    && x.status != IntentProcessing
    && (if x.status == IntentPending && x.purpose != ForRecharge
        then x.key.Some? && x.key == KeyOf(invoices, x.purpose, x.target)
        else x.key.None?)
  }

  // A live payment stores the canonical key of what it pays, and no two share one.
  ghost predicate Keyed(invoices: seq<Invoice>, intents: seq<Intent>) {
    && (forall j :: 0 <= j < |intents| ==> KeyRow(invoices, intents[j]))
    && (forall i, j :: 0 <= i < j < |intents| && intents[i].key.Some? ==> intents[i].key != intents[j].key)
  }

  // ----- live payments -----

  predicate Unsettled(s: OrderStatus) {
    s == OrderPending || s == OrderCancelled
  }

  // What a live payment is for is still there to be paid; an order may have been
  // cancelled meanwhile, an invoice outside an order may not.
  ghost predicate StillDue(orders: seq<Order>, invoices: seq<Invoice>, x: Intent) {
    match KeyOf(invoices, x.purpose, x.target)
    case None => true
    case Some(OrderKey(o)) => o < |orders| && Unsettled(orders[o].status)
    case Some(_) => x.purpose == ForInvoice ==> (x.target < |invoices| && invoices[x.target].status == InvoiceUnpaid)
  }

  // except is the payment being settled in the current transaction, if any.
  ghost predicate AllDue(orders: seq<Order>, invoices: seq<Invoice>, intents: seq<Intent>, except: int) {
    forall j :: 0 <= j < |intents| && j != except && Live(intents[j].status) ==> StillDue(orders, invoices, intents[j])
  }

  // ----- prices -----

  ghost predicate PriceHeld(services: seq<Service>, s: Id, total: int) {
    s < |services| && services[s].price == total && services[s].change.None?
  }

  ghost predicate InvoicePriceHeld(services: seq<Service>, x: Invoice) {
    (x.service.Some? && Billing.UnpaidRenewal(x, x.service.value)) ==> PriceHeld(services, x.service.value, x.total)
  }

  ghost predicate IntentPriceHeld(services: seq<Service>, x: Intent) {
    (Live(x.status) && x.purpose == ForRenewal) ==> PriceHeld(services, x.target, x.amount + x.balance)
  }

  // While a renewal invoice is unpaid or a renewal payment is live, the service
  // has no open change and its price is the one being collected.
  ghost predicate PricesHeld(invoices: seq<Invoice>, services: seq<Service>, intents: seq<Intent>) {
    && (forall i :: 0 <= i < |invoices| ==> InvoicePriceHeld(services, invoices[i]))
    && (forall j :: 0 <= j < |intents| ==> IntentPriceHeld(services, intents[j]))
  }

  // ----- changes -----

  // A service's change_pending_id names a change exactly while that change is open.
  ghost predicate Reserved(services: seq<Service>, changes: seq<Change>) {
    && (forall c :: 0 <= c < |changes| ==> ChangeHeld(services, changes, c))
    && (forall s :: 0 <= s < |services| ==> ReservationNamed(services, changes, s))
  }

  ghost predicate ChangeHeld(services: seq<Service>, changes: seq<Change>, c: Id)
    requires c < |changes|
  {
    Changes.Open(changes[c].status)
    <==> (changes[c].service < |services| && services[changes[c].service].change == Some(c))
  }

  ghost predicate ReservationNamed(services: seq<Service>, changes: seq<Change>, s: Id)
    requires s < |services|
  {
    services[s].change.Some? ==>
      (services[s].change.value < |changes| && changes[services[s].change.value].service == s)
  }

  // The state inside a transaction that is settling payment except.
  ghost predicate ConsistentBut(d: Db, except: int) {
    && Invoiced(d.orders, d.invoices)
    && Keyed(d.invoices, d.intents)
    && AllDue(d.orders, d.invoices, d.intents, except)
    && PricesHeld(d.invoices, d.services, d.intents)
    && Reserved(d.services, d.changes)
  }

  const NOBODY: int := -1

  ghost predicate Consistent(d: Db) {
    ConsistentBut(d, NOBODY)
  }

  // ----- consequences -----

  // The order's invoice is the one InvoiceFor finds, and it is in step.
  lemma TheInvoice(d: Db, o: Id, i: Id)
    requires Invoiced(d.orders, d.invoices) && o < |d.orders|
    requires i < |d.invoices| && d.invoices[i].order == Some(o)
    ensures Orders.InvoiceFor(d.invoices, o) == i && InStep(d.orders[o].status, d.invoices[i].status)
  {
    var k := Orders.InvoiceFor(d.invoices, o);
    assert k <= i;
    assert InvoiceInStep(d.orders, d.invoices[i]);
  }

  lemma OrderHasInvoice(d: Db, o: Id)
    requires Invoiced(d.orders, d.invoices) && o < |d.orders|
    ensures Orders.InvoiceFor(d.invoices, o) < |d.invoices|
    ensures InStep(d.orders[o].status, d.invoices[Orders.InvoiceFor(d.invoices, o)].status)
  {
    assert HasInvoice(d.invoices, o);
    var i :| 0 <= i < |d.invoices| && d.invoices[i].order == Some(o);
    TheInvoice(d, o, i);
  }

  // The owner behind a canonical key.
  ghost predicate OwnedBy(d: Db, k: Key, user: Id) {
    match k
    case OrderKey(o) => o < |d.orders| && d.orders[o].user == user
    case RenewalKey(s) => s < |d.services| && d.services[s].user == user
    case InvoiceKey(i) =>
      i < |d.invoices| && d.invoices[i].user == user && KeyOfInvoice(d.invoices[i], i) == InvoiceKey(i)
  }

  // A pending payment blocks a key exactly when the key is its own, so the alias
  // search of rejectPaymentIntentTx and the unique index agree.
  lemma BlocksExactly(d: Db, user: Id, j: Id, k: Key)
    requires Sound(d) && Keyed(d.invoices, d.intents) && OwnedBy(d, k, user)
    requires j < |d.intents| && Live(d.intents[j].status)
    ensures Blocks(d.invoices, d.intents[j], k) <==>
      KeyOf(d.invoices, d.intents[j].purpose, d.intents[j].target) == Some(k)
  {
    var x := d.intents[j];
    assert IntentRow(d, x) && KeyRow(d.invoices, x);
    if x.purpose == ForInvoice { assert InvoiceRow(d, d.invoices[x.target]); }
  }

  lemma LoadedKey(d: Db, user: Id, purpose: Purpose, target: Id)
    requires Sound(d) && LoadTarget(d, user, purpose, target).Some?
    ensures LoadTarget(d, user, purpose, target) == KeyOf(d.invoices, purpose, target)
    ensures OwnedBy(d, LoadTarget(d, user, purpose, target).value, user)
  {
    if purpose == ForInvoice { assert InvoiceRow(d, d.invoices[target]); }
  }

  // When the check passes for the owner of a key, nobody's live payment has it.
  lemma NotBusy(d: Db, user: Id, k: Key, j: Id)
    requires Sound(d) && Keyed(d.invoices, d.intents) && OwnedBy(d, k, user) && !Busy(d, user, k)
    requires j < |d.intents| && Live(d.intents[j].status)
    ensures KeyOf(d.invoices, d.intents[j].purpose, d.intents[j].target) != Some(k)
  {
    var x := d.intents[j];
    assert IntentRow(d, x);
    BlocksExactly(d, user, j, k);
    if x.purpose == ForInvoice { assert InvoiceRow(d, d.invoices[x.target]); }
  }

  // ... so the unique index never has to refuse what the check let through.
  lemma CheckImpliesKeyFree(d: Db, user: Id, k: Key)
    requires Sound(d) && Consistent(d) && OwnedBy(d, k, user) && !Busy(d, user, k)
    ensures !KeyTaken(d, k)
  {
    if KeyTaken(d, k) {
      var j :| 0 <= j < |d.intents| && d.intents[j].key == Some(k);
      assert KeyRow(d.invoices, d.intents[j]);
      NotBusy(d, user, k, j);
    }
  }

  // Once no other live payment holds the key, none stands in the way of settling it.
  ghost predicate KeyFree(d: Db, k: Key, except: int) {
    forall j :: 0 <= j < |d.intents| && j != except && Live(d.intents[j].status)
      ==> KeyOf(d.invoices, d.intents[j].purpose, d.intents[j].target) != Some(k)
  }

  // ----- one table at a time -----

  ghost predicate InvoicesKeep(before: seq<Invoice>, after: seq<Invoice>) {
    |before| <= |after| && (forall i :: 0 <= i < |before| ==> SameInvoice(before[i], after[i]))
  }

  // No invoice becomes unpaid, and no new one asks for a renewal.
  ghost predicate InvoicesSettle(before: seq<Invoice>, after: seq<Invoice>) {
    && InvoicesKeep(before, after)
    && (forall i :: 0 <= i < |before| ==> after[i].status == InvoiceUnpaid ==> before[i].status == InvoiceUnpaid)
    && (forall i :: |before| <= i < |after| ==> after[i].service.Some? ==>
        !Billing.UnpaidRenewal(after[i], after[i].service.value))
  }

  // Prices and reservations stay; a new service has none.
  ghost predicate ServicesKeep(before: seq<Service>, after: seq<Service>) {
    && |before| <= |after|
    && (forall s :: 0 <= s < |before| ==> after[s].price == before[s].price && after[s].change == before[s].change)
    && (forall s :: |before| <= s < |after| ==> after[s].change.None?)
  }

  lemma KeyedKept(invoices: seq<Invoice>, after: seq<Invoice>, intents: seq<Intent>)
    requires Keyed(invoices, intents) && InvoicesKeep(invoices, after)
    ensures Keyed(after, intents)
  {
    forall j | 0 <= j < |intents| ensures KeyRow(after, intents[j]) {
      assert KeyRow(invoices, intents[j]);
      var t := intents[j].target;
      if intents[j].purpose == ForInvoice && t < |invoices| { assert SameInvoice(invoices[t], after[t]); }
    }
  }

  lemma PricesKept(invoices: seq<Invoice>, after: seq<Invoice>, services: seq<Service>, later: seq<Service>,
                   intents: seq<Intent>)
    requires PricesHeld(invoices, services, intents)
    requires InvoicesSettle(invoices, after) && ServicesKeep(services, later)
    ensures PricesHeld(after, later, intents)
  {
    forall i | 0 <= i < |after| ensures InvoicePriceHeld(later, after[i]) {
      if i < |invoices| {
        assert SameInvoice(invoices[i], after[i]) && InvoicePriceHeld(services, invoices[i]);
      }
    }
    forall j | 0 <= j < |intents| ensures IntentPriceHeld(later, intents[j]) {
      assert IntentPriceHeld(services, intents[j]);
    }
  }

  lemma ReservedKept(services: seq<Service>, later: seq<Service>, changes: seq<Change>)
    requires Reserved(services, changes) && ServicesKeep(services, later)
    ensures Reserved(later, changes)
  {
    forall c | 0 <= c < |changes| ensures ChangeHeld(later, changes, c) {
      assert ChangeHeld(services, changes, c);
    }
    forall s | 0 <= s < |later| ensures ReservationNamed(later, changes, s) {
      if s < |services| { assert ReservationNamed(services, changes, s); }
    }
  }

  // What is due stays due while orders stay and invoices settle elsewhere.
  lemma DueKept(orders: seq<Order>, moved: seq<Order>, invoices: seq<Invoice>, after: seq<Invoice>, x: Intent)
    requires StillDue(orders, invoices, x) && KeyOf(invoices, x.purpose, x.target).Some?
      && InvoicesKeep(invoices, after)
    requires |orders| <= |moved|
    requires forall o :: (0 <= o < |orders| && KeyOf(invoices, x.purpose, x.target) == Some(OrderKey(o))
                          && Unsettled(orders[o].status))
                         ==> Unsettled(moved[o].status)
    requires (x.purpose == ForInvoice && x.target < |invoices| && invoices[x.target].status == InvoiceUnpaid
              && invoices[x.target].order.None?) ==> after[x.target].status == InvoiceUnpaid
    ensures StillDue(moved, after, x)
  {
    if x.purpose == ForInvoice && x.target < |invoices| { assert SameInvoice(invoices[x.target], after[x.target]); }
  }

  // ----- settling an order -----

  // The tables MarkPaid writes.
  lemma MarkPaidInvoiced(d: Db, o: Id, now: Instant)
    requires Sound(d) && Invoiced(d.orders, d.invoices) && o < |d.orders| && d.orders[o].status == OrderPending
    ensures var e := Orders.MarkPaid(d, o, Orders.InvoiceFor(d.invoices, o), now);
            Invoiced(e.orders, e.invoices) && InvoicesSettle(d.invoices, e.invoices) && |e.invoices| == |d.invoices|
  {
    OrderHasInvoice(d, o);
    var i := Orders.InvoiceFor(d.invoices, o);
    var e := Orders.MarkPaid(d, o, i, now);
    assert forall k :: 0 <= k < |d.invoices| && d.invoices[k].order == Some(o) ==> k == i;
    forall k | 0 <= k < |e.invoices| ensures InvoiceInStep(e.orders, e.invoices[k]) {
      assert InvoiceInStep(d.orders, d.invoices[k]);
    }
    forall p | 0 <= p < |e.orders| ensures HasInvoice(e.invoices, p) {
      assert HasInvoice(d.invoices, p);
      var k :| 0 <= k < |d.invoices| && d.invoices[k].order == Some(p);
      assert e.invoices[k].order == Some(p);
    }
  }

  lemma MarkPaidDue(d: Db, o: Id, now: Instant, except: int)
    requires Sound(d) && ConsistentBut(d, except) && KeyFree(d, OrderKey(o), except)
    requires o < |d.orders| && d.orders[o].status == OrderPending
    ensures var e := Orders.MarkPaid(d, o, Orders.InvoiceFor(d.invoices, o), now);
            AllDue(e.orders, e.invoices, e.intents, except)
  {
    OrderHasInvoice(d, o);
    var i := Orders.InvoiceFor(d.invoices, o);
    var e := Orders.MarkPaid(d, o, i, now);
    forall j | 0 <= j < |e.intents| && j != except && Live(e.intents[j].status)
      ensures StillDue(e.orders, e.invoices, e.intents[j])
    {
      var x := d.intents[j];
      assert KeyRow(d.invoices, x) && StillDue(d.orders, d.invoices, x);
      if x.purpose != ForRecharge { DueKept(d.orders, e.orders, d.invoices, e.invoices, x); }
    }
  }

  lemma NewServicesKeep(user: Id, o: Id, lines: seq<Line>, now: Instant, services: seq<Service>)
    ensures ServicesKeep(services, services + Orders.NewServices(user, o, lines, now))
  {
    var later := services + Orders.NewServices(user, o, lines, now);
    forall s | |services| <= s < |later| ensures later[s].change.None? {
      assert later[s] in Orders.NewServices(user, o, lines, now);
    }
  }

  lemma MarkPaidConsistent(d: Db, o: Id, now: Instant, except: int)
    requires Sound(d) && ConsistentBut(d, except) && KeyFree(d, OrderKey(o), except)
    requires o < |d.orders| && d.orders[o].status == OrderPending
    ensures ConsistentBut(Orders.MarkPaid(d, o, Orders.InvoiceFor(d.invoices, o), now), except)
  {
    hide Sound, Invoiced, Keyed, AllDue, PricesHeld, Reserved, KeyFree, ServicesKeep;
    var e := Orders.MarkPaid(d, o, Orders.InvoiceFor(d.invoices, o), now);
    MarkPaidInvoiced(d, o, now);
    MarkPaidDue(d, o, now, except);
    NewServicesKeep(d.orders[o].user, o, d.orders[o].lines, now, d.services);
    KeyedKept(d.invoices, e.invoices, d.intents);
    PricesKept(d.invoices, e.invoices, d.services, e.services, d.intents);
    ReservedKept(d.services, e.services, d.changes);
  }

  // Only these tables matter.
  lemma SameRows(d: Db, e: Db, except: int)
    requires ConsistentBut(d, except)
    requires e.orders == d.orders && e.invoices == d.invoices && e.services == d.services
    requires e.intents == d.intents && e.changes == d.changes
    ensures ConsistentBut(e, except)
  {
  }

  lemma SettleOrderConsistent(d: Db, user: Id, o: Id, now: Instant, rate: nat, except: int)
    requires Sound(d) && ConsistentBut(d, except) && KeyFree(d, OrderKey(o), except)
    ensures var r := Orders.Settle(d, user, o, now, rate); r.Some? ==> ConsistentBut(r.value, except)
  {
    hide Sound, ConsistentBut, KeyFree, Orders.MarkPaid;
    var r := Orders.Settle(d, user, o, now, rate);
    if r.Some? {
      MarkPaidConsistent(d, o, now, except);
      SameRows(Orders.MarkPaid(d, o, Orders.InvoiceFor(d.invoices, o), now), r.value, except);
    }
  }

  lemma DebitConsistent(d: Db, user: Id, amount: nat, ref: Ref, except: int)
    requires ConsistentBut(d, except)
    ensures var r := Wallet.Debit(d, user, amount, ref); r.Some? ==> ConsistentBut(r.value, except)
  {
  }

  lemma PayOrderConsistent(d: Db, user: Id, o: Id, now: Instant, rate: nat)
    requires Sound(d) && Consistent(d)
    ensures var r := Orders.Pay(d, user, o, now, rate); r.Some? ==> Consistent(r.value)
  {
    var r := Orders.Pay(d, user, o, now, rate);
    if r.Some? {
      LoadedKey(d, user, ForOrder, o);
      NotBusyFree(d, user, OrderKey(o));
      hide Sound, ConsistentBut, KeyFree, Busy;
      var e := Wallet.Debit(d, user, d.orders[o].total, OrderDebit(o)).value;
      DebitSound(d, user, d.orders[o].total, OrderDebit(o));
      DebitConsistent(d, user, d.orders[o].total, OrderDebit(o), NOBODY);
      SameKeyFree(d, e, OrderKey(o), NOBODY);
      SettleOrderConsistent(e, user, o, now, rate, NOBODY);
    }
  }

  lemma NotBusyFree(d: Db, user: Id, k: Key)
    requires Sound(d) && Keyed(d.invoices, d.intents) && OwnedBy(d, k, user) && !Busy(d, user, k)
    ensures KeyFree(d, k, NOBODY)
  {
    forall j | 0 <= j < |d.intents| && Live(d.intents[j].status)
      ensures KeyOf(d.invoices, d.intents[j].purpose, d.intents[j].target) != Some(k)
    {
      NotBusy(d, user, k, j);
    }
  }

  lemma SameKeyFree(d: Db, e: Db, k: Key, except: int)
    requires KeyFree(d, k, except) && e.invoices == d.invoices && e.intents == d.intents
    ensures KeyFree(e, k, except)
  {
  }

  // ----- renewing -----

  lemma ServicesConsistent(d: Db, services: seq<Service>, except: int)
    requires ConsistentBut(d, except) && ServicesKeep(d.services, services)
    ensures ConsistentBut(d.(services := services), except)
  {
    hide Invoiced, Keyed, AllDue, PricesHeld, Reserved, ServicesKeep;
    PricesKept(d.invoices, d.invoices, d.services, services, d.intents);
    ReservedKept(d.services, services, d.changes);
  }

  // An invoice that is no order's and asks for no renewal.
  lemma PlainInvoiceConsistent(d: Db, x: Invoice, except: int)
    requires Sound(d) && ConsistentBut(d, except) && x.order.None?
    requires x.service.Some? ==> !Billing.UnpaidRenewal(x, x.service.value)
    ensures ConsistentBut(d.(invoices := d.invoices + [x]), except)
  {
    var after := d.invoices + [x];
    AddInvoiceInvoiced(d.orders, d.invoices, x);
    KeyedKept(d.invoices, after, d.intents);
    AddInvoiceDue(d, x, except);
    hide Sound, Invoiced, Keyed, AllDue, PricesHeld, Reserved;
    PricesKept(d.invoices, after, d.services, d.services, d.intents);
  }

  lemma AddInvoiceInvoiced(orders: seq<Order>, invoices: seq<Invoice>, x: Invoice)
    requires Invoiced(orders, invoices) && x.order.None?
    ensures Invoiced(orders, invoices + [x])
  {
    var after := invoices + [x];
    forall o | 0 <= o < |orders| ensures HasInvoice(after, o) {
      assert HasInvoice(invoices, o);
      var k :| 0 <= k < |invoices| && invoices[k].order == Some(o);
      assert after[k].order == Some(o);
    }
    forall k | 0 <= k < |after| ensures InvoiceInStep(orders, after[k]) {
      if k < |invoices| { assert InvoiceInStep(orders, invoices[k]); }
    }
  }

  lemma AddInvoiceDue(d: Db, x: Invoice, except: int)
    requires AllDue(d.orders, d.invoices, d.intents, except) && Keyed(d.invoices, d.intents)
    ensures AllDue(d.orders, d.invoices + [x], d.intents, except)
  {
    forall j | 0 <= j < |d.intents| && j != except && Live(d.intents[j].status)
      ensures StillDue(d.orders, d.invoices + [x], d.intents[j])
    {
      assert StillDue(d.orders, d.invoices, d.intents[j]) && KeyRow(d.invoices, d.intents[j]);
      if d.intents[j].purpose != ForRecharge {
        DueKept(d.orders, d.orders, d.invoices, d.invoices + [x], d.intents[j]);
      }
    }
  }

  lemma ApplyConsistent(d: Db, s: Id, now: Instant, except: int)
    requires ConsistentBut(d, except) && s < |d.services|
    ensures ConsistentBut(Billing.ApplyRenewal(d, s, now), except)
  {
    var e := Billing.ApplyRenewal(d, s, now);
    assert ServicesKeep(d.services, e.services);
    hide ConsistentBut;
    ServicesConsistent(d, e.services, except);
    SameRows(d.(services := e.services), e, except);
  }

  lemma RenewConsistent(d: Db, user: Id, s: Id, now: Instant, debit: bool, except: int)
    requires Sound(d) && ConsistentBut(d, except)
    ensures var r := Billing.Renew(d, user, s, now, debit); r.Some? ==> ConsistentBut(r.value, except)
  {
    hide Sound, ConsistentBut;
    if Billing.Renew(d, user, s, now, debit).Some? {
      var price := d.services[s].price;
      DebitSound(d, user, price, ServiceDebit(s)) by { SoundService(d, s); }
      DebitConsistent(d, user, price, ServiceDebit(s), except);
      var e := if debit then Wallet.Debit(d, user, price, ServiceDebit(s)).value else d;
      ApplySound(e, s, now);
      ApplyConsistent(e, s, now, except);
      PlainInvoiceConsistent(Billing.ApplyRenewal(e, s, now), Invoice(user, None, None, None, InvoicePaid, price),
                             except);
    }
  }

  lemma SoundService(d: Db, s: Id)
    requires Sound(d) && s < |d.services|
    ensures ServiceRow(d, d.services[s])
  {
  }

  lemma AutoRenewConsistent(d: Db, s: Id, listed: Instant, now: Instant, window: nat)
    requires Sound(d) && Consistent(d)
    ensures var r := Billing.AutoRenew(d, s, listed, now, window); r.Some? ==> Consistent(r.value)
  {
    hide ConsistentBut;
    if Billing.AutoRenew(d, s, listed, now, window).Some? {
      var x := d.services[s];
      var c := d.(renewalKeys := d.renewalKeys + {(s, listed)});
      assert Sound(c) by { References.KeyGrows(d, c.renewalKeys); OldRowsStaySound(d, c); }
      hide Sound;
      SameRows(d, c, NOBODY);
      DebitSound(c, x.user, x.price, ServiceDebit(s));
      DebitConsistent(c, x.user, x.price, ServiceDebit(s), NOBODY);
      var e := Wallet.Debit(c, x.user, x.price, ServiceDebit(s)).value;
      ApplySound(e, s, now);
      ApplyConsistent(e, s, now, NOBODY);
      PlainInvoiceConsistent(Billing.ApplyRenewal(e, s, now),
                             Invoice(x.user, None, Some(s), None, InvoicePaid, x.price), NOBODY);
    }
  }

  // ----- settling an invoice that is no order's -----

  lemma PayInvoiceConsistent(d: Db, i: Id, except: int)
    requires Sound(d) && ConsistentBut(d, except) && i < |d.invoices| && d.invoices[i].order.None?
    requires KeyFree(d, KeyOfInvoice(d.invoices[i], i), except)
    ensures ConsistentBut(Billing.PayInvoice(d, i), except)
  {
    var e := Billing.PayInvoice(d, i);
    PayInvoiceInvoiced(d.orders, d.invoices, i);
    PayInvoiceDue(d, i, except);
    assert InvoicesSettle(d.invoices, e.invoices);
    hide Sound, Invoiced, Keyed, AllDue, PricesHeld, Reserved, InvoicesSettle, KeyFree;
    KeyedKept(d.invoices, e.invoices, d.intents) by { assert InvoicesKeep(d.invoices, e.invoices); }
    PricesKept(d.invoices, e.invoices, d.services, d.services, d.intents);
  }

  lemma PayInvoiceInvoiced(orders: seq<Order>, invoices: seq<Invoice>, i: Id)
    requires Invoiced(orders, invoices) && i < |invoices| && invoices[i].order.None?
    ensures Invoiced(orders, invoices[i := invoices[i].(status := InvoicePaid)])
  {
    var after := invoices[i := invoices[i].(status := InvoicePaid)];
    forall o | 0 <= o < |orders| ensures HasInvoice(after, o) {
      assert HasInvoice(invoices, o);
      var k :| 0 <= k < |invoices| && invoices[k].order == Some(o);
      assert after[k].order == Some(o);
    }
    forall k | 0 <= k < |after| ensures InvoiceInStep(orders, after[k]) {
      assert InvoiceInStep(orders, invoices[k]);
    }
  }

  lemma PayInvoiceDue(d: Db, i: Id, except: int)
    requires AllDue(d.orders, d.invoices, d.intents, except) && Keyed(d.invoices, d.intents)
    requires i < |d.invoices| && KeyFree(d, KeyOfInvoice(d.invoices[i], i), except)
    ensures AllDue(d.orders, Billing.PayInvoice(d, i).invoices, d.intents, except)
  {
    var e := Billing.PayInvoice(d, i);
    forall j | 0 <= j < |d.intents| && j != except && Live(d.intents[j].status)
      ensures StillDue(d.orders, e.invoices, d.intents[j])
    {
      assert StillDue(d.orders, d.invoices, d.intents[j]) && KeyRow(d.invoices, d.intents[j]);
      if d.intents[j].purpose != ForRecharge { DueKept(d.orders, d.orders, d.invoices, e.invoices, d.intents[j]); }
    }
  }

  lemma SettleTrafficConsistent(d: Db, user: Id, i: Id, price: Option<int>, except: int)
    requires Sound(d) && ConsistentBut(d, except) && i < |d.invoices| && d.invoices[i].order.None?
    requires d.invoices[i].service.Some? && d.invoices[i].traffic.Some?
    requires KeyFree(d, InvoiceKey(i), except)
    ensures var r := Billing.SettleTraffic(d, user, i, price); r.Some? ==> ConsistentBut(r.value, except)
  {
    hide Sound, ConsistentBut, KeyFree;
    var r := Billing.SettleTraffic(d, user, i, price);
    if r.Some? {
      PayInvoiceConsistent(d, i, except);
      ServicesConsistent(Billing.PayInvoice(d, i), r.value.services, except);
    }
  }

  lemma SettleRenewalConsistent(d: Db, user: Id, i: Id, now: Instant, except: int)
    requires Sound(d) && ConsistentBut(d, except) && i < |d.invoices| && d.invoices[i].order.None?
    requires d.invoices[i].service.Some? && d.invoices[i].traffic.None?
    requires KeyFree(d, RenewalKey(d.invoices[i].service.value), except)
    ensures var r := Billing.SettleRenewal(d, user, i, now); r.Some? ==> ConsistentBut(r.value, except)
  {
    hide Sound, ConsistentBut, KeyFree;
    var s := d.invoices[i].service.value;
    if Billing.SettleRenewal(d, user, i, now).Some? {
      var e := Billing.ApplyRenewal(d, s, now);
      ApplySound(d, s, now);
      ApplyConsistent(d, s, now, except);
      SameKeyFree(d, e, RenewalKey(s), except);
      PayInvoiceConsistent(e, i, except);
    }
  }

  // Settling needs only that no other live payment holds the invoice's key.
  lemma SettleInvoiceConsistent(d: Db, user: Id, i: Id, now: Instant, rate: nat, price: Option<int>, except: int)
    requires Sound(d) && ConsistentBut(d, except)
    requires i < |d.invoices| ==> KeyFree(d, KeyOfInvoice(d.invoices[i], i), except)
    ensures var r := Billing.SettleInvoice(d, user, i, now, rate, price); r.Some? ==> ConsistentBut(r.value, except)
  {
    hide Sound, ConsistentBut, KeyFree, Orders.Settle, Billing.SettleTraffic, Billing.SettleRenewal;
    if Billing.SettleInvoice(d, user, i, now, rate, price).Some? {
      var x := d.invoices[i];
      if x.order.Some? { SettleOrderConsistent(d, user, x.order.value, now, rate, except); }
      else if x.service.Some? && x.traffic.Some? { SettleTrafficConsistent(d, user, i, price, except); }
      else if x.service.Some? { SettleRenewalConsistent(d, user, i, now, except); }
      else { PayInvoiceConsistent(d, i, except); }
    }
  }

  lemma SettleFromWalletConsistent(d: Db, user: Id, i: Id, now: Instant, rate: nat, price: Option<int>)
    requires Sound(d) && Consistent(d)
    ensures var r := Payments.SettleFromWallet(d, user, i, now, rate, price); r.Some? ==> Consistent(r.value)
  {
    hide Busy, Billing.SettleInvoice;
    var r := Payments.SettleFromWallet(d, user, i, now, rate, price);
    if r.Some? {
      LoadedKey(d, user, ForInvoice, i);
      NotBusyFree(d, user, LoadTarget(d, user, ForInvoice, i).value);
      hide Sound, ConsistentBut, KeyFree;
      var k := KeyOfInvoice(d.invoices[i], i);
      var e := Wallet.Debit(d, user, d.invoices[i].total, InvoiceDebit(i)).value;
      DebitSound(d, user, d.invoices[i].total, InvoiceDebit(i));
      DebitConsistent(d, user, d.invoices[i].total, InvoiceDebit(i), NOBODY);
      SameKeyFree(d, e, k, NOBODY);
      SettleInvoiceConsistent(e, user, i, now, rate, price, NOBODY);
    }
  }

  // ----- payments -----

  lemma SettleTargetConsistent(d: Db, user: Id, purpose: Purpose, target: Id, now: Instant, rate: nat,
                               price: Option<int>, except: int)
    requires Sound(d) && ConsistentBut(d, except)
    requires KeyOf(d.invoices, purpose, target).Some? ==> KeyFree(d, KeyOf(d.invoices, purpose, target).value, except)
    ensures var r := Payments.SettleTarget(d, user, purpose, target, now, rate, price);
            r.Some? ==> ConsistentBut(r.value, except)
  {
    hide Sound, ConsistentBut, KeyFree, Orders.Settle, Billing.SettleInvoice, Billing.Renew;
    match purpose
    case ForRecharge =>
    case ForOrder => SettleOrderConsistent(d, user, target, now, rate, except);
    case ForInvoice => SettleInvoiceConsistent(d, user, target, now, rate, price, except);
    case ForRenewal => RenewConsistent(d, user, target, now, false, except);
  }

  // Among distinct keys, a pending payment's own key is free but for itself.
  lemma OwnKeyFree(d: Db, i: Id)
    requires Keyed(d.invoices, d.intents) && i < |d.intents| && d.intents[i].status == IntentPending
    requires d.intents[i].purpose != ForRecharge
    ensures d.intents[i].key.Some? && KeyOf(d.invoices, d.intents[i].purpose, d.intents[i].target) == d.intents[i].key
    ensures KeyFree(d, d.intents[i].key.value, i)
  {
    assert KeyRow(d.invoices, d.intents[i]);
    forall j | 0 <= j < |d.intents| && j != i && Live(d.intents[j].status)
      ensures KeyOf(d.invoices, d.intents[j].purpose, d.intents[j].target) != d.intents[i].key
    {
      assert KeyRow(d.invoices, d.intents[j]);
    }
  }

  // Closing the payment that a transaction was settling makes everything consistent.
  lemma CloseIntentConsistent(d: Db, i: Id, status: IntentStatus, received: int)
    requires ConsistentBut(d, i) && i < |d.intents| && !Live(status)
    ensures Consistent(Payments.CloseIntent(d, i, status, received))
  {
    var e := Payments.CloseIntent(d, i, status, received);
    forall j | 0 <= j < |e.intents| ensures KeyRow(e.invoices, e.intents[j]) {
      assert KeyRow(d.invoices, d.intents[j]);
    }
    forall j | 0 <= j < |e.intents| ensures IntentPriceHeld(e.services, e.intents[j]) {
      assert IntentPriceHeld(d.services, d.intents[j]);
    }
  }

  lemma Loosen(d: Db, i: int)
    requires Consistent(d)
    ensures ConsistentBut(d, i)
  {
  }

  lemma FailIntentConsistent(d: Db, i: Id)
    requires Consistent(d)
    ensures var r := Payments.FailIntent(d, i); r.Some? ==> Consistent(r.value)
  {
    hide ConsistentBut;
    var r := Payments.FailIntent(d, i);
    if r.Some? {
      Loosen(d, i);
      CloseIntentConsistent(d, i, IntentFailed, d.intents[i].received);
      SameRows(Payments.CloseIntent(d, i, IntentFailed, d.intents[i].received), r.value, NOBODY);
    }
  }

  lemma FinalizeConsistent(d: Db, i: Id, paid: int, now: Instant, rate: nat, price: Option<int>)
    requires Sound(d) && Consistent(d)
    ensures var r := Payments.Finalize(d, i, paid, now, rate, price); r.Some? ==> Consistent(r.value)
  {
    hide Payments.SettleTarget;
    var r := Payments.Finalize(d, i, paid, now, rate, price);
    if r.Some? && d.intents[i].status == IntentPending {
      var x := d.intents[i];
      if x.purpose != ForRecharge { OwnKeyFree(d, i); }
      Loosen(d, i);
      hide Sound, ConsistentBut, KeyFree;
      if x.purpose == ForRecharge {
        SameRows(d, Wallet.Post(d, x.user, x.amount, IntentRecharge(i)).value, i);
        CloseIntentConsistent(Wallet.Post(d, x.user, x.amount, IntentRecharge(i)).value, i, IntentPaid, paid);
      } else {
        SettleTargetConsistent(d, x.user, x.purpose, x.target, now, rate, price, i);
        CloseIntentConsistent(Payments.SettleTarget(d, x.user, x.purpose, x.target, now, rate, price).value, i,
                              IntentPaid, paid);
      }
    }
  }

  lemma AddIntentConsistent(d: Db, x: Intent)
    requires Consistent(d) && x.status == IntentPending
    requires x.purpose == ForRecharge ==> x.key.None?
    requires x.purpose != ForRecharge ==>
      (x.key.Some? && x.key == KeyOf(d.invoices, x.purpose, x.target) && !KeyTaken(d, x.key.value))
    requires StillDue(d.orders, d.invoices, x) && IntentPriceHeld(d.services, x)
    ensures Consistent(d.(intents := d.intents + [x]))
  {
    var e := d.(intents := d.intents + [x]);
    forall j | 0 <= j < |e.intents| ensures KeyRow(e.invoices, e.intents[j]) {
      if j < |d.intents| { assert KeyRow(d.invoices, d.intents[j]); }
    }
    forall j | 0 <= j < |e.intents| ensures IntentPriceHeld(e.services, e.intents[j]) {
      if j < |d.intents| { assert IntentPriceHeld(d.services, d.intents[j]); }
    }
  }

  // What the reservation transaction found payable is due, at the price held.
  lemma PayableIsDue(d: Db, user: Id, purpose: Purpose, target: Id, total: int, quoted: Option<Instant>, x: Intent)
    requires purpose != ForRecharge && LoadTarget(d, user, purpose, target).Some?
    requires Payable(d, purpose, target, quoted) == Some(total)
    requires x.purpose == purpose && x.target == target && x.amount + x.balance == total
    ensures StillDue(d.orders, d.invoices, x) && IntentPriceHeld(d.services, x)
  {
  }

  lemma CreateIntentConsistent(d: Db, user: Id, purpose: Purpose, target: Id, total: int, wish: int,
                               quoted: Option<Instant>, now: Instant, rate: nat, price: Option<int>)
    requires Sound(d) && Consistent(d)
    ensures var r := Payments.CreateIntent(d, user, purpose, target, total, wish, quoted, now, rate, price);
            r.Some? ==> Consistent(r.value)
  {
    hide Sound, Busy, Payable, LoadTarget, Payments.OpenIntent, ConsistentBut, KeyTaken, StillDue, IntentPriceHeld;
    if Payments.CreateIntent(d, user, purpose, target, total, wish, quoted, now, rate, price).Some? {
      var balance := Payments.WalletPart(total, wish);
      var key := if purpose == ForRecharge then None else LoadTarget(d, user, purpose, target);
      var x := Intent(user, purpose, target, total - balance, balance, IntentPending, key, 0);
      if purpose != ForRecharge {
        LoadedKey(d, user, purpose, target);
        PayableIsDue(d, user, purpose, target, total, quoted, x);
        PayableIsOwed(d, user, purpose, target, total, quoted, x);
      } else {
        RechargeIsDue(d, x);
      }
      var e := Wallet.Debit(d, user, balance, IntentDebit(purpose, target)).value;
      DebitSound(d, user, balance, IntentDebit(purpose, target));
      DebitConsistent(d, user, balance, IntentDebit(purpose, target), NOBODY);
      assert IntentRow(e, x);
      assert purpose != ForRecharge ==> !KeyTaken(e, key.value) by {
        if purpose != ForRecharge { SameKeyTaken(d, e, key.value); }
      }
      assert StillDue(e.orders, e.invoices, x) && IntentPriceHeld(e.services, x);
      OpenIntentConsistent(e, x, now, rate, price);
    }
  }

  lemma RechargeIsDue(d: Db, x: Intent)
    requires x.purpose == ForRecharge
    ensures StillDue(d.orders, d.invoices, x) && IntentPriceHeld(d.services, x)
  {
  }

  lemma SameKeyTaken(d: Db, e: Db, k: Key)
    requires e.intents == d.intents && !KeyTaken(d, k)
    ensures !KeyTaken(e, k)
  {
  }

  lemma OpenIntentConsistent(d: Db, x: Intent, now: Instant, rate: nat, price: Option<int>)
    requires Sound(d) && IntentRow(d, x) && Consistent(d) && x.status == IntentPending
    requires x.purpose == ForRecharge ==> x.key.None?
    requires x.purpose != ForRecharge ==>
      (x.key.Some? && x.key == KeyOf(d.invoices, x.purpose, x.target) && !KeyTaken(d, x.key.value))
    requires StillDue(d.orders, d.invoices, x) && IntentPriceHeld(d.services, x)
    ensures var r := Payments.OpenIntent(d, x, now, rate, price); r.Some? ==> Consistent(r.value)
  {
    hide Payments.SettleTarget, Sound, IntentRow;
    var r := Payments.OpenIntent(d, x, now, rate, price);
    var e := d.(intents := d.intents + [x]);
    var i := |d.intents|;
    AddIntentSound(d, x);
    AddIntentConsistent(d, x);
    if r.Some? && x.amount <= 0 {
      if x.purpose != ForRecharge { OwnKeyFree(e, i); }
      Loosen(e, i);
      hide ConsistentBut, KeyFree;
      SettleTargetConsistent(e, x.user, x.purpose, x.target, now, rate, price, i);
      CloseIntentConsistent(Payments.SettleTarget(e, x.user, x.purpose, x.target, now, rate, price).value, i,
                            IntentPaid, 0);
    }
  }

  // ----- orders -----

  lemma CreateOrderConsistent(d: Db, user: Id, lines: seq<Line>, discount: nat)
    requires Sound(d) && Consistent(d)
    ensures var r := Orders.Create(d, user, lines, discount); r.Some? ==> Consistent(r.value)
  {
    var r := Orders.Create(d, user, lines, discount);
    if r.Some? {
      var e := r.value;
      CreateOrderInvoiced(d, e);
      forall j | 0 <= j < |d.intents| && Live(d.intents[j].status)
        ensures StillDue(e.orders, e.invoices, d.intents[j])
      {
        assert StillDue(d.orders, d.invoices, d.intents[j]) && KeyRow(d.invoices, d.intents[j]);
        if d.intents[j].purpose != ForRecharge { DueKept(d.orders, e.orders, d.invoices, e.invoices, d.intents[j]); }
      }
      KeyedKept(d.invoices, e.invoices, d.intents);
      hide Invoiced, Keyed, PricesHeld, Reserved;
      PricesKept(d.invoices, e.invoices, d.services, e.services, d.intents);
    }
  }

  lemma CreateOrderInvoiced(d: Db, e: Db)
    requires Sound(d) && Invoiced(d.orders, d.invoices)
    requires |e.orders| == |d.orders| + 1 && |e.invoices| == |d.invoices| + 1
    requires d.orders <= e.orders && d.invoices <= e.invoices && e.orders[|d.orders|].status == OrderPending
    requires e.invoices[|d.invoices|].order == Some(|d.orders|) && e.invoices[|d.invoices|].status == InvoiceUnpaid
    ensures Invoiced(e.orders, e.invoices)
  {
    forall o | 0 <= o < |e.orders| ensures HasInvoice(e.invoices, o) {
      if o < |d.orders| {
        assert HasInvoice(d.invoices, o);
        var k :| 0 <= k < |d.invoices| && d.invoices[k].order == Some(o);
        assert e.invoices[k].order == Some(o);
      } else {
        assert e.invoices[|d.invoices|].order == Some(o);
      }
    }
    forall k | 0 <= k < |d.invoices|
      ensures InvoiceInStep(e.orders, e.invoices[k]) && e.invoices[k].order != Some(|d.orders|)
    {
      assert InvoiceInStep(d.orders, d.invoices[k]) && e.invoices[k] == d.invoices[k];
    }
  }

  lemma CancelOrderConsistent(d: Db, user: Id, o: Id)
    requires Consistent(d)
    ensures var r := Orders.Cancel(d, user, o); r.Some? ==> Consistent(r.value)
  {
    var r := Orders.Cancel(d, user, o);
    if r.Some? {
      var e := r.value;
      CancelInvoiced(d, o, e);
      forall j | 0 <= j < |d.intents| && Live(d.intents[j].status)
        ensures StillDue(e.orders, e.invoices, d.intents[j])
      {
        assert StillDue(d.orders, d.invoices, d.intents[j]) && KeyRow(d.invoices, d.intents[j]);
        if d.intents[j].purpose != ForRecharge { DueKept(d.orders, e.orders, d.invoices, e.invoices, d.intents[j]); }
      }
      KeyedKept(d.invoices, e.invoices, d.intents);
      hide Invoiced, Keyed, PricesHeld, Reserved;
      PricesKept(d.invoices, e.invoices, d.services, e.services, d.intents);
    }
  }

  lemma CancelInvoiced(d: Db, o: Id, e: Db)
    requires Invoiced(d.orders, d.invoices) && o < |d.orders| && d.orders[o].status == OrderPending
    requires e.orders == d.orders[o := d.orders[o].(status := OrderCancelled)]
    requires |e.invoices| == |d.invoices|
    requires forall i :: 0 <= i < |d.invoices| ==> e.invoices[i] == Orders.CancelInvoice(d.invoices[i], o)
    ensures Invoiced(e.orders, e.invoices)
  {
    forall k | 0 <= k < |e.invoices| ensures InvoiceInStep(e.orders, e.invoices[k]) {
      assert InvoiceInStep(d.orders, d.invoices[k]);
    }
    forall p | 0 <= p < |e.orders| ensures HasInvoice(e.invoices, p) {
      assert HasInvoice(d.invoices, p);
      var k :| 0 <= k < |d.invoices| && d.invoices[k].order == Some(p);
      assert e.invoices[k].order == Some(p);
    }
  }

  // ----- renewal and traffic invoices -----

  lemma RenewalInvoiceConsistent(d: Db, user: Id, s: Id)
    requires Sound(d) && Consistent(d)
    ensures var r := Billing.RenewalInvoice(d, user, s); r.Some? ==> Consistent(r.value)
  {
    var r := Billing.RenewalInvoice(d, user, s);
    if r.Some? {
      var x := r.value.invoices[|d.invoices|];
      AddInvoiceInvoiced(d.orders, d.invoices, x);
      KeyedKept(d.invoices, r.value.invoices, d.intents);
      AddInvoiceDue(d, x, NOBODY);
      forall i | 0 <= i < |r.value.invoices| ensures InvoicePriceHeld(d.services, r.value.invoices[i]) {
        if i < |d.invoices| { assert InvoicePriceHeld(d.services, d.invoices[i]); }
      }
    }
  }

  // ----- changes -----

  lemma HoldConsistent(d: Db, user: Id, s: Id, token: string, snapshot: Service, q: Changes.Offer)
    requires Consistent(d)
    ensures var r := Changes.Hold(d, user, s, token, snapshot, q);
            r.Some? ==> Consistent(r.value)
  {
    hide Changes.TokenUsed;
    var r := Changes.Hold(d, user, s, token, snapshot, q);
    if r.Some? {
      var e := r.value;
      assert e.services == d.services[s := d.services[s].(change := Some(|d.changes|))];
      ReservePrices(d, s, e.services);
      ReserveChanges(d, s, e.services, e.changes[|d.changes|]);
    }
  }

  lemma ReservePrices(d: Db, s: Id, services: seq<Service>)
    requires PricesHeld(d.invoices, d.services, d.intents) && s < |d.services| && !Changes.Fenced(d, s)
    requires Keyed(d.invoices, d.intents)
    requires |services| == |d.services| && services == d.services[s := services[s]]
    ensures PricesHeld(d.invoices, services, d.intents)
  {
    forall i | 0 <= i < |d.invoices| ensures InvoicePriceHeld(services, d.invoices[i]) {
      assert InvoicePriceHeld(d.services, d.invoices[i]);
    }
    forall j | 0 <= j < |d.intents| ensures IntentPriceHeld(services, d.intents[j]) {
      assert IntentPriceHeld(d.services, d.intents[j]);
    }
  }

  lemma ReserveChanges(d: Db, s: Id, services: seq<Service>, x: Change)
    requires Reserved(d.services, d.changes) && s < |d.services| && d.services[s].change.None?
    requires services == d.services[s := d.services[s].(change := Some(|d.changes|))]
    requires x.service == s && Changes.Open(x.status)
    ensures Reserved(services, d.changes + [x])
  {
    var changes := d.changes + [x];
    forall c | 0 <= c < |changes| ensures ChangeHeld(services, changes, c) {
      if c < |d.changes| { assert ChangeHeld(d.services, d.changes, c); }
    }
    forall t | 0 <= t < |services| ensures ReservationNamed(services, changes, t) {
      assert ReservationNamed(d.services, d.changes, t);
    }
  }

  lemma RestatusChangeConsistent(d: Db, c: Id, status: ChangeStatus)
    requires Consistent(d) && c < |d.changes| && Changes.Open(d.changes[c].status) && Changes.Open(status)
    ensures Consistent(Changes.Restatus(d, c, status))
  {
    var e := Changes.Restatus(d, c, status);
    forall k | 0 <= k < |e.changes| ensures ChangeHeld(e.services, e.changes, k) {
      assert ChangeHeld(d.services, d.changes, k);
    }
    forall s | 0 <= s < |e.services| ensures ReservationNamed(e.services, e.changes, s) {
      assert ReservationNamed(d.services, d.changes, s);
    }
  }

  lemma FinishConsistent(d: Db, c: Id, applied: bool)
    requires Consistent(d)
    ensures var r := Changes.Finish(d, c, applied); r.Some? ==> Consistent(r.value)
  {
    var r := Changes.Finish(d, c, applied);
    if r.Some? {
      var e, s := r.value, d.changes[c].service;
      assert e.services == d.services[s := e.services[s]] && e.services[s].change.None?;
      FinishPrices(d, s, c, e.services);
      FinishChanges(d, c, e.services, e.changes);
    }
  }

  // While the change was open nothing was being collected for the service.
  lemma FinishPrices(d: Db, s: Id, c: Id, services: seq<Service>)
    requires PricesHeld(d.invoices, d.services, d.intents) && s < |d.services| && d.services[s].change == Some(c)
    requires |services| == |d.services| && services == d.services[s := services[s]]
    ensures PricesHeld(d.invoices, services, d.intents)
  {
    forall i | 0 <= i < |d.invoices| ensures InvoicePriceHeld(services, d.invoices[i]) {
      assert InvoicePriceHeld(d.services, d.invoices[i]);
    }
    forall j | 0 <= j < |d.intents| ensures IntentPriceHeld(services, d.intents[j]) {
      assert IntentPriceHeld(d.services, d.intents[j]);
    }
  }

  lemma FinishChanges(d: Db, c: Id, services: seq<Service>, changes: seq<Change>)
    requires Reserved(d.services, d.changes) && c < |d.changes| && d.changes[c].service < |d.services|
    requires d.services[d.changes[c].service].change == Some(c)
    requires |services| == |d.services|
      && services == d.services[d.changes[c].service := services[d.changes[c].service]]
    requires services[d.changes[c].service].change.None?
    requires |changes| == |d.changes| && changes == d.changes[c := d.changes[c].(status := changes[c].status)]
    requires !Changes.Open(changes[c].status)
    ensures Reserved(services, changes)
  {
    forall k | 0 <= k < |changes| ensures ChangeHeld(services, changes, k) {
      assert ChangeHeld(d.services, d.changes, k);
    }
    forall s | 0 <= s < |services| ensures ReservationNamed(services, changes, s) {
      assert ReservationNamed(d.services, d.changes, s);
    }
  }

  // ----- refunds -----

  lemma SetIntentConsistent(d: Db, p: Id, status: IntentStatus)
    requires Consistent(d) && p < |d.intents| && !Live(d.intents[p].status) && !Live(status)
    ensures Consistent(Refunds.SetIntent(d, p, status))
  {
    var e := Refunds.SetIntent(d, p, status);
    forall j | 0 <= j < |e.intents| ensures KeyRow(e.invoices, e.intents[j]) {
      assert KeyRow(d.invoices, d.intents[j]);
    }
    forall j | 0 <= j < |e.intents| ensures IntentPriceHeld(e.services, e.intents[j]) {
      assert IntentPriceHeld(d.services, d.intents[j]);
    }
  }

  lemma CloseOrderConsistent(d: Db, o: Id)
    requires Consistent(d) && o < |d.orders| && d.orders[o].status == OrderPaid
    ensures Consistent(Refunds.CloseOrder(d, o))
  {
    var e := Refunds.CloseOrder(d, o);
    forall k | 0 <= k < |e.invoices| ensures InvoiceInStep(e.orders, e.invoices[k]) {
      assert InvoiceInStep(d.orders, d.invoices[k]);
    }
    forall j | 0 <= j < |e.intents| && Live(e.intents[j].status) ensures StillDue(e.orders, e.invoices, e.intents[j]) {
      assert StillDue(d.orders, d.invoices, d.intents[j]);
    }
    assert ServicesKeep(d.services, e.services);
    PricesKept(d.invoices, d.invoices, d.services, e.services, d.intents);
    ReservedKept(d.services, e.services, d.changes);
  }

  lemma CompleteConsistent(d: Db, e: Id)
    requires Consistent(d)
    ensures var r := Refunds.Complete(d, e); r.Some? ==> Consistent(r.value)
  {
    hide ConsistentBut;
    var result := Refunds.Complete(d, e);
    if result.Some? {
      var r := d.executions[e].refund;
      var x := d.refunds[r];
      var c := Wallet.PostUnlessZero(Refunds.Restatus(Refunds.Move(d, e, Closed), r, RefundCompleted), x.user,
                                     x.balance, RefundCredit(r)).value;
      SameRows(d, c, NOBODY);
      CloseOrderConsistent(c, x.order);
      var f := Refunds.CloseOrder(c, x.order);
      var g := Refunds.CloseIntent(f, x);
      if g != f { SetIntentConsistent(f, x.payment.value, IntentRefunded); }
      SameRows(g, result.value, NOBODY);
    }
  }

  // ----- every step -----

  lemma AccountConsistent(d: Db, op: AccountOp)
    requires Consistent(d)
    ensures var r := DoAccount(d, op); r.Some? ==> Consistent(r.value)
  {
    hide ConsistentBut;
    var r := DoAccount(d, op);
    if r.Some? { SameRows(d, r.value, NOBODY); }
  }

  lemma SaleConsistent(d: Db, op: OrderOp)
    requires Sound(d) && Consistent(d)
    ensures var r := DoSale(d, op); r.Some? ==> Consistent(r.value)
  {
    hide ConsistentBut, Sound, Orders.Create, Orders.Pay, Orders.Cancel;
    match op
    case CreateOrder(user, lines, discount) => CreateOrderConsistent(d, user, lines, discount);
    case PayOrder(user, o, now, rate) => PayOrderConsistent(d, user, o, now, rate);
    case CancelOrder(user, o) => CancelOrderConsistent(d, user, o);
  }

  lemma BillConsistent(d: Db, op: BillingOp)
    requires Sound(d) && Consistent(d)
    ensures var r := DoBill(d, op); r.Some? ==> Consistent(r.value)
  {
    hide ConsistentBut, Sound, Billing.AutoRenew, Billing.Renew, Billing.RenewalInvoice;
    var r := DoBill(d, op);
    if r.Some? {
      match op
      case RenewNow(user, s, now) => RenewConsistent(d, user, s, now, true, NOBODY);
      case CreateRenewalInvoice(user, s) => RenewalInvoiceConsistent(d, user, s);
      case CreateTrafficInvoice(_, _, _, _) => PlainInvoiceConsistent(d, r.value.invoices[|d.invoices|], NOBODY);
      case AutoRenew(s, listed, now, window) => AutoRenewConsistent(d, s, listed, now, window);
      case SetService(_, _, _, _, _) => ServicesConsistent(d, r.value.services, NOBODY);
    }
  }

  lemma PaymentConsistent(d: Db, op: PaymentOp)
    requires Sound(d) && Consistent(d)
    ensures var r := DoPayment(d, op); r.Some? ==> Consistent(r.value)
  {
    hide ConsistentBut, Sound, Payments.Finalize, Payments.FailIntent, Payments.CreateIntent, Payments.SettleFromWallet;
    match op
    case SettleInvoice(user, i, now, rate, price) => SettleFromWalletConsistent(d, user, i, now, rate, price);
    case CreateIntent(user, purpose, target, total, wish, quoted, now, rate, price) =>
      CreateIntentConsistent(d, user, purpose, target, total, wish, quoted, now, rate, price);
    case CancelIntent(_, i) => FailIntentConsistent(d, i);
    case VoidIntent(i) => FailIntentConsistent(d, i);
    case Finalize(i, paid, now, rate, price) => FinalizeConsistent(d, i, paid, now, rate, price);
    case LateReceipt(i, paid) =>
      if Payments.LateReceipt(d, i, paid).Some? {
        Loosen(d, i);
        CloseIntentConsistent(d, i, IntentLate, paid);
      }
  }

  lemma ChangeConsistent(d: Db, op: ChangeOp)
    requires Consistent(d)
    ensures var r := DoChange(d, op); r.Some? ==> Consistent(r.value)
  {
    hide ConsistentBut, Changes.Hold, Changes.OfferFor, Changes.Finish;
    match op
    case ReserveChange(user, s, token, snapshot, request) =>
      var q := Changes.OfferFor(request);
      if q.Some? { HoldConsistent(d, user, s, token, snapshot, q.value); }
    case ClaimChange(c) => if Changes.Claim(d, c).Some? { RestatusChangeConsistent(d, c, ChangeApplying); }
    case DoubtChange(c) => if Changes.Doubt(d, c).Some? { RestatusChangeConsistent(d, c, ChangeUncertain); }
    case FinishChange(c, applied) => FinishConsistent(d, c, applied);
  }

  lemma RefundConsistent(d: Db, op: RefundOp)
    requires Consistent(d)
    ensures var r := DoRefund(d, op); r.Some? ==> Consistent(r.value)
  {
    hide ConsistentBut, Refunds.Complete, Refunds.MayComplete;
    var r := DoRefund(d, op);
    if r.Some? {
      match op
      case CompleteRefund(e) => CompleteConsistent(d, e);
      case ClaimPayment(e) =>
        var m := Refunds.Move(d, e, PaymentClaimed);
        SameRows(d, m, NOBODY);
        SameRows(d, Refunds.Move(d, e, LostClaim), NOBODY);
        var p := d.refunds[d.executions[e].refund].payment.value;
        if p < |d.intents| && d.intents[p].status == IntentPaid { SetIntentConsistent(m, p, IntentRefunding); }
      case ReleasePayment(e) =>
        var m := Refunds.Move(d, e, Released);
        SameRows(d, m, NOBODY);
        var p := d.refunds[d.executions[e].refund].payment.value;
        if p < |d.intents| && d.intents[p].status == IntentRefunding { SetIntentConsistent(m, p, IntentPaid); }
      case RequestRefund(_, _, _) => SameRows(d, r.value, NOBODY);
      case ReviewRefund(_, _) => SameRows(d, r.value, NOBODY);
      case CancelRefund(_, _) => SameRows(d, r.value, NOBODY);
      case StartRefund(_) => SameRows(d, r.value, NOBODY);
      case AskChannel(_, _) => SameRows(d, r.value, NOBODY);
      case AbortRefund(_) => SameRows(d, r.value, NOBODY);
      case FailRefund(_) => SameRows(d, r.value, NOBODY);
    }
  }

  lemma ShareConsistent(d: Db, op: AffiliateOp)
    requires Consistent(d)
    ensures var r := DoShare(d, op); r.Some? ==> Consistent(r.value)
  {
    hide ConsistentBut;
    var r := DoShare(d, op);
    if r.Some? { SameRows(d, r.value, NOBODY); }
  }

  lemma StepConsistent(d: Db, op: Op)
    requires Sound(d) && Consistent(d)
    ensures Consistent(Step(d, op))
  {
    hide ConsistentBut, Sound, DoAccount, DoSale, DoBill, DoPayment, DoChange, DoRefund, DoShare;
    match op
    case Account(a) => AccountConsistent(d, a);
    case Sale(s) => SaleConsistent(d, s);
    case Bill(b) => BillConsistent(d, b);
    case Payment(p) => PaymentConsistent(d, p);
    case ProductChange(c) => ChangeConsistent(d, c);
    case Repay(r) => RefundConsistent(d, r);
    case Share(s) => ShareConsistent(d, s);
  }
}
