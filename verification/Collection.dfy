// Everything is collected exactly once: for each obligation and each price, the
// settlements that collected it are as many as the deliveries made for it. A
// settlement is a debit that stands on its own or a payment that went through; a
// delivery is an order paid, a traffic pack added, or an expiry moved on.
module Collection {
  import opened Options
  import opened Calendar
  import opened Sums
  import opened Tables
  import opened Targets
  import opened Machine
  import opened Integrity
  import opened Obligations
  import References
  import Wallet
  import Orders
  import Billing
  import Payments
  import Changes
  import Refunds
  import Conservation

  // The obligation a debit settles by itself.
  function SettledBy(invoices: seq<Invoice>, ref: Ref): Option<Key> {
    match ref
    case OrderDebit(o) => Some(OrderKey(o))
    case InvoiceDebit(i) => KeyOf(invoices, ForInvoice, i)
    case ServiceDebit(s) => Some(RenewalKey(s))
    case _ => None
  }

  function DebitsOf(invoices: seq<Invoice>, k: Key, p: nat): Entry -> int {
    (x: Entry) => if SettledBy(invoices, x.ref) == Some(k) && -x.amount == p then 1 else 0
  }

  function PaymentsOf(invoices: seq<Invoice>, k: Key, p: nat): Intent -> int {
    (x: Intent) =>
      if Conservation.Collected(x.status) && KeyOf(invoices, x.purpose, x.target) == Some(k)
        && x.amount + x.balance == p
      then 1 else 0
  }

  function AdvancesOf(s: Id, p: nat): Advance -> int {
    (x: Advance) => if x.service == s && x.price == p then 1 else 0
  }

  function Settlements(d: Db, k: Key, p: nat): int {
    Sum(d.bank.log, DebitsOf(d.invoices, k, p)) + Sum(d.intents, PaymentsOf(d.invoices, k, p))
  }

  function Deliveries(d: Db, k: Key, p: nat): int {
    match k
    case OrderKey(o) => if o < |d.orders| && !Unsettled(d.orders[o].status) && d.orders[o].total == p then 1 else 0
    case InvoiceKey(i) =>
      if i < |d.invoices| && d.invoices[i].traffic.Some? && d.invoices[i].order.None?
         && d.invoices[i].status == InvoicePaid && d.invoices[i].total == p
      then 1 else 0
    case RenewalKey(s) => Sum(d.advances, AdvancesOf(s, p))
  }

  // A receipt that names neither order nor service is born paid.
  ghost predicate Receipts(invoices: seq<Invoice>) {
    forall i :: 0 <= i < |invoices| ==> invoices[i].order.None? ==>
      invoices[i].service.None? ==> invoices[i].status == InvoicePaid
  }

  function Gap(d: Db, k: Key, p: nat): int {
    Settlements(d, k, p) - Deliveries(d, k, p)
  }

  // Settlements are n ahead of deliveries for k at price p and level elsewhere.
  // Nothing is collected, and so nothing need be settled, at price zero.
  ghost predicate Ahead(d: Db, k: Key, p: nat, n: int) {
    forall l: Key, q: nat :: q > 0 ==> Gap(d, l, q) == (if l == k && q == p then n else 0)
  }

  ghost predicate Accounted(d: Db) {
    Receipts(d.invoices) && forall l: Key, q: nat :: q > 0 ==> Gap(d, l, q) == 0
  }

  // ----- what moves the two sides -----

  ghost predicate Moves(d: Db, e: Db, k: Key, p: nat, n: int) {
    forall l: Key, q: nat :: q > 0 ==> Gap(e, l, q) == Gap(d, l, q) + (if l == k && q == p then n else 0)
  }

  lemma LevelIsAccounted(d: Db, k: Key, p: nat)
    requires Receipts(d.invoices)
    ensures Accounted(d) <==> Ahead(d, k, p, 0)
  {
  }

  lemma AheadMoves(d: Db, e: Db, k: Key, p: nat, m: int, n: int)
    requires Ahead(d, k, p, m) && Moves(d, e, k, p, n)
    ensures Ahead(e, k, p, m + n)
  {
  }

  // Entries and payments keep their obligations as invoices are added or paid.
  lemma SettlementsKept(d: Db, invoices: seq<Invoice>, k: Key, p: nat)
    requires Sound(d) && InvoicesKeep(d.invoices, invoices)
    ensures Settlements(d.(invoices := invoices), k, p) == Settlements(d, k, p)
  {
    forall t | 0 <= t < |d.bank.log|
      ensures DebitsOf(invoices, k, p)(d.bank.log[t]) == DebitsOf(d.invoices, k, p)(d.bank.log[t])
    {
      var x := d.bank.log[t];
      assert EntryRow(d, x);
      if x.ref.InvoiceDebit? { assert References.SameInvoice(d.invoices[x.ref.invoice], invoices[x.ref.invoice]); }
    }
    SumSame(d.bank.log, DebitsOf(d.invoices, k, p), DebitsOf(invoices, k, p));
    forall i | 0 <= i < |d.intents|
      ensures PaymentsOf(invoices, k, p)(d.intents[i]) == PaymentsOf(d.invoices, k, p)(d.intents[i])
    {
      var x := d.intents[i];
      assert IntentRow(d, x);
      if x.purpose == ForInvoice { assert References.SameInvoice(d.invoices[x.target], invoices[x.target]); }
    }
    SumSame(d.intents, PaymentsOf(d.invoices, k, p), PaymentsOf(invoices, k, p));
  }

  lemma InvoicesMove(d: Db, invoices: seq<Invoice>, k: Key)
    requires Sound(d) && InvoicesKeep(d.invoices, invoices)
    requires forall i :: 0 <= i < |invoices| && invoices[i].traffic.Some? && invoices[i].order.None? ==>
      (invoices[i].status == InvoicePaid <==> (i < |d.invoices| && d.invoices[i].status == InvoicePaid))
    ensures Moves(d, d.(invoices := invoices), k, 0, 0)
  {
    forall l: Key, q: nat { SettlementsKept(d, invoices, l, q); }
  }

  lemma EntryMoves(d: Db, x: Entry, k: Key, p: nat)
    requires SettledBy(d.invoices, x.ref) == Some(k) && -x.amount == p
    ensures Moves(d, d.(bank := d.bank.(log := d.bank.log + [x])), k, p, 1)
  {
    forall l: Key, q: nat { SumAppend(d.bank.log, x, DebitsOf(d.invoices, l, q)); }
  }

  lemma OtherEntry(d: Db, x: Entry)
    requires SettledBy(d.invoices, x.ref).None?
    ensures forall l: Key, q: nat :: Gap(d.(bank := d.bank.(log := d.bank.log + [x])), l, q) == Gap(d, l, q)
  {
    forall l: Key, q: nat { SumAppend(d.bank.log, x, DebitsOf(d.invoices, l, q)); }
  }

  // Postings that settle nothing leave everything level.
  lemma PostAccounted(d: Db, user: Id, amount: int, ref: Ref)
    requires Accounted(d) && SettledBy(d.invoices, ref).None?
    ensures var r := Wallet.PostUnlessZero(d, user, amount, ref); r.Some? ==> Accounted(r.value)
  {
    var r := Wallet.PostUnlessZero(d, user, amount, ref);
    if r.Some? && amount != 0 {
      var x := r.value.bank.log[|d.bank.log|];
      OtherEntry(d, x);
      SameGap(d.(bank := d.bank.(log := d.bank.log + [x])), r.value);
    }
  }

  // Gap reads these tables and nothing else.
  lemma SameGap(d: Db, e: Db)
    requires e.bank.log == d.bank.log && e.intents == d.intents && e.invoices == d.invoices
    requires e.orders == d.orders && e.advances == d.advances
    ensures forall l: Key, q: nat :: Gap(e, l, q) == Gap(d, l, q)
  {
  }

  lemma SameRowsAccounted(d: Db, e: Db)
    requires Accounted(d)
    requires e.bank.log == d.bank.log && e.intents == d.intents && e.invoices == d.invoices
    requires e.orders == d.orders && e.advances == d.advances
    ensures Accounted(e)
  {
    SameGap(d, e);
  }

  // A debit for an obligation puts its settlements one ahead.
  lemma DebitAhead(d: Db, user: Id, amount: nat, ref: Ref, k: Key)
    requires Accounted(d) && SettledBy(d.invoices, ref) == Some(k)
    ensures var r := Wallet.Debit(d, user, amount, ref); r.Some? ==> Ahead(r.value, k, amount, 1)
  {
    var r := Wallet.Debit(d, user, amount, ref);
    LevelIsAccounted(d, k, amount);
    if r.Some? && amount != 0 {
      hide Gap;
      var x := r.value.bank.log[|d.bank.log|];
      var e := d.(bank := d.bank.(log := d.bank.log + [x]));
      EntryMoves(d, x, k, amount);
      AheadMoves(d, e, k, amount, 0, 1);
      SameGap(e, r.value);
    }
  }

  lemma OrderMoves(d: Db, o: Id, y: Order)
    requires o < |d.orders| && Unsettled(d.orders[o].status) && !Unsettled(y.status) && y.total == d.orders[o].total
    ensures Moves(d, d.(orders := d.orders[o := y]), OrderKey(o), y.total, -1)
  {
  }

  lemma AdvanceMoves(d: Db, x: Advance)
    ensures Moves(d, d.(advances := d.advances + [x]), RenewalKey(x.service), x.price, -1)
  {
    forall s: Id, q: nat { SumAppend(d.advances, x, AdvancesOf(s, q)); }
  }

  lemma TrafficMoves(d: Db, i: Id)
    requires Sound(d) && i < |d.invoices| && d.invoices[i].traffic.Some? && d.invoices[i].order.None?
    requires d.invoices[i].status != InvoicePaid
    ensures Moves(d, Billing.PayInvoice(d, i), InvoiceKey(i), d.invoices[i].total, -1)
  {
    forall l: Key, q: nat { SettlementsKept(d, Billing.PayInvoice(d, i).invoices, l, q); }
  }

  lemma IntentMoves(d: Db, i: Id, y: Intent, k: Key)
    requires i < |d.intents| && !Conservation.Collected(d.intents[i].status) && Conservation.Collected(y.status)
    requires y.purpose == d.intents[i].purpose && y.target == d.intents[i].target
    requires KeyOf(d.invoices, y.purpose, y.target) == Some(k)
    ensures Moves(d, d.(intents := d.intents[i := y]), k, y.amount + y.balance, 1)
  {
    forall l: Key, q: nat { SumUpdate(d.intents, i, y, PaymentsOf(d.invoices, l, q)); }
  }

  // An intent that stays on the same side of being collected, or has no obligation.
  lemma IntentStays(d: Db, i: Id, y: Intent)
    requires i < |d.intents| && y.purpose == d.intents[i].purpose && y.target == d.intents[i].target
    requires y.amount == d.intents[i].amount && y.balance == d.intents[i].balance
    requires Conservation.Collected(d.intents[i].status) == Conservation.Collected(y.status) || y.purpose == ForRecharge
    requires Accounted(d)
    ensures Accounted(d.(intents := d.intents[i := y]))
  {
    var e := d.(intents := d.intents[i := y]);
    forall l: Key, q: nat | q > 0 ensures Gap(e, l, q) == 0 {
      SumUpdate(d.intents, i, y, PaymentsOf(d.invoices, l, q));
      assert Gap(d, l, q) == 0;
    }
  }

  lemma NewIntentStays(d: Db, x: Intent)
    requires Accounted(d) && !Conservation.Collected(x.status)
    ensures Accounted(d.(intents := d.intents + [x]))
  {
    var e := d.(intents := d.intents + [x]);
    forall l: Key, q: nat | q > 0 ensures Gap(e, l, q) == 0 {
      SumAppend(d.intents, x, PaymentsOf(d.invoices, l, q));
      assert Gap(d, l, q) == 0;
    }
  }

  // ----- settling -----

  // What an obligation costs under the alias it is paid through.
  function Due(d: Db, purpose: Purpose, target: Id): int {
    match purpose
    case ForRecharge => 0
    case ForOrder => if target < |d.orders| then d.orders[target].total else 0
    case ForInvoice => if target < |d.invoices| then d.invoices[target].total else 0
    case ForRenewal => if target < |d.services| then d.services[target].price else 0
  }

  // e delivers k once at price p and keeps receipts as they should be.
  ghost predicate Delivers(d: Db, e: Db, k: Key, p: nat) {
    Moves(d, e, k, p, -1) && (Receipts(d.invoices) ==> Receipts(e.invoices))
  }

  lemma MarkPaidDelivers(d: Db, o: Id, now: Instant)
    requires Sound(d) && Invoiced(d.orders, d.invoices) && o < |d.orders| && d.orders[o].status == OrderPending
    ensures Delivers(d, Orders.MarkPaid(d, o, Orders.InvoiceFor(d.invoices, o), now), OrderKey(o), d.orders[o].total)
  {
    OrderHasInvoice(d, o);
    MarkPaidInvoiced(d, o, now);
    var e := Orders.MarkPaid(d, o, Orders.InvoiceFor(d.invoices, o), now);
    InvoicesMove(d, e.invoices, OrderKey(o));
    var f := d.(invoices := e.invoices);
    OrderMoves(f, o, e.orders[o]);
    hide Gap;
    SameGap(f.(orders := e.orders), e);
  }

  lemma SettleOrderDelivers(d: Db, user: Id, o: Id, now: Instant, rate: nat)
    requires Sound(d) && Invoiced(d.orders, d.invoices)
    ensures var r := Orders.Settle(d, user, o, now, rate);
            r.Some? ==> Delivers(d, r.value, OrderKey(o), d.orders[o].total)
  {
    hide Sound, Invoiced, Gap, Orders.MarkPaid;
    var r := Orders.Settle(d, user, o, now, rate);
    if r.Some? {
      var e := Orders.MarkPaid(d, o, Orders.InvoiceFor(d.invoices, o), now);
      MarkPaidDelivers(d, o, now);
      SameGap(e, r.value);
    }
  }

  lemma ApplyDelivers(d: Db, s: Id, now: Instant)
    requires s < |d.services|
    ensures Delivers(d, Billing.ApplyRenewal(d, s, now), RenewalKey(s), d.services[s].price)
  {
    var e := Billing.ApplyRenewal(d, s, now);
    AdvanceMoves(d, e.advances[|d.advances|]);
    hide Gap;
    SameGap(d.(advances := e.advances), e);
  }

  // A paid receipt that is no order's and no traffic pack's delivers nothing.
  lemma ReceiptMoves(d: Db, x: Invoice, k: Key, p: nat)
    requires Sound(d) && x.order.None? && x.traffic.None? && x.status == InvoicePaid
    ensures Moves(d, d.(invoices := d.invoices + [x]), k, p, 0)
    ensures Receipts(d.invoices) ==> Receipts(d.invoices + [x])
  {
    InvoicesMove(d, d.invoices + [x], k);
  }

  lemma RenewDelivers(d: Db, user: Id, s: Id, now: Instant)
    requires Sound(d)
    ensures var r := Billing.Renew(d, user, s, now, false);
            r.Some? ==> Delivers(d, r.value, RenewalKey(s), d.services[s].price)
  {
    hide Sound, Gap;
    var r := Billing.Renew(d, user, s, now, false);
    if r.Some? {
      var e := Billing.ApplyRenewal(d, s, now);
      ApplyDelivers(d, s, now);
      ApplySound(d, s, now);
      ReceiptMoves(e, r.value.invoices[|e.invoices|], RenewalKey(s), d.services[s].price);
    }
  }

  lemma SettleTrafficDelivers(d: Db, user: Id, i: Id, price: Option<int>)
    requires Sound(d) && i < |d.invoices| && d.invoices[i].service.Some? && d.invoices[i].traffic.Some?
    requires d.invoices[i].order.None? && d.invoices[i].status == InvoiceUnpaid
    ensures var r := Billing.SettleTraffic(d, user, i, price);
            r.Some? ==> Delivers(d, r.value, InvoiceKey(i), d.invoices[i].total)
  {
    hide Sound, Gap;
    var r := Billing.SettleTraffic(d, user, i, price);
    if r.Some? {
      TrafficMoves(d, i);
      SameGap(Billing.PayInvoice(d, i), r.value);
    }
  }

  lemma SettleRenewalDelivers(d: Db, user: Id, i: Id, now: Instant)
    requires Sound(d) && i < |d.invoices| && d.invoices[i].service.Some? && d.invoices[i].traffic.None?
    requires d.invoices[i].order.None? && d.invoices[i].status == InvoiceUnpaid
      && InvoicePriceHeld(d.services, d.invoices[i])
    ensures var r := Billing.SettleRenewal(d, user, i, now);
            r.Some? ==> Delivers(d, r.value, RenewalKey(d.invoices[i].service.value), d.invoices[i].total)
  {
    hide Sound, Gap;
    var r := Billing.SettleRenewal(d, user, i, now);
    if r.Some? {
      var s := d.invoices[i].service.value;
      var e := Billing.ApplyRenewal(d, s, now);
      ApplyDelivers(d, s, now);
      ApplySound(d, s, now);
      InvoicesMove(e, r.value.invoices, RenewalKey(s));
    }
  }

  lemma SettleInvoiceDelivers(d: Db, user: Id, i: Id, now: Instant, rate: nat, price: Option<int>)
    requires Sound(d) && Invoiced(d.orders, d.invoices) && Receipts(d.invoices)
    requires PricesHeld(d.invoices, d.services, d.intents)
    ensures var r := Billing.SettleInvoice(d, user, i, now, rate, price);
            r.Some? ==> Delivers(d, r.value, KeyOfInvoice(d.invoices[i], i), d.invoices[i].total)
  {
    var r := Billing.SettleInvoice(d, user, i, now, rate, price);
    if r.Some? {
      var x := d.invoices[i];
      assert InvoiceRow(d, x) && InvoicePriceHeld(d.services, x);
      hide Sound, Invoiced, Delivers, Orders.Settle, Billing.SettleTraffic, Billing.SettleRenewal, InvoicePriceHeld;
      if x.order.Some? { SettleOrderDelivers(d, user, x.order.value, now, rate); }
      else if x.service.Some? && x.traffic.Some? { SettleTrafficDelivers(d, user, i, price); }
      else if x.service.Some? { SettleRenewalDelivers(d, user, i, now); }
    }
  }

  lemma SettleTargetDelivers(d: Db, user: Id, purpose: Purpose, target: Id, now: Instant, rate: nat, price: Option<int>)
    requires Sound(d) && Invoiced(d.orders, d.invoices) && Receipts(d.invoices)
    requires PricesHeld(d.invoices, d.services, d.intents)
    ensures var r := Payments.SettleTarget(d, user, purpose, target, now, rate, price);
            r.Some? ==> (KeyOf(d.invoices, purpose, target).Some? && Due(d, purpose, target) >= 0
                         && Delivers(d, r.value, KeyOf(d.invoices, purpose, target).value, Due(d, purpose, target)))
  {
    hide Sound, Invoiced, Delivers;
    match purpose
    case ForRecharge =>
    case ForOrder => SettleOrderDelivers(d, user, target, now, rate);
    case ForInvoice => SettleInvoiceDelivers(d, user, target, now, rate, price);
    case ForRenewal => RenewDelivers(d, user, target, now);
  }

  // One settlement ahead, one delivery: level again.
  lemma DeliveredIsAccounted(d: Db, e: Db, k: Key, p: nat)
    requires Ahead(d, k, p, 1) && Receipts(d.invoices) && Delivers(d, e, k, p)
    ensures Accounted(e)
  {
    hide Gap;
    AheadMoves(d, e, k, p, 1, -1);
  }

  // ----- the steps -----

  lemma DebitKeepsRows(d: Db, user: Id, amount: nat, ref: Ref)
    ensures var r := Wallet.Debit(d, user, amount, ref); r.Some? ==> r.value == d.(bank := r.value.bank)
  {
  }

  lemma PayOrderAccounted(d: Db, user: Id, o: Id, now: Instant, rate: nat)
    requires Sound(d) && Consistent(d) && Accounted(d)
    ensures var r := Orders.Pay(d, user, o, now, rate); r.Some? ==> Accounted(r.value)
  {
    hide Sound, Invoiced, Keyed, AllDue, PricesHeld, Reserved, Gap, Ahead, Delivers, Busy, Orders.Settle;
    var r := Orders.Pay(d, user, o, now, rate);
    if r.Some? {
      var total := d.orders[o].total;
      DebitSound(d, user, total, OrderDebit(o));
      DebitAhead(d, user, total, OrderDebit(o), OrderKey(o));
      DebitKeepsRows(d, user, total, OrderDebit(o));
      var e := Wallet.Debit(d, user, total, OrderDebit(o)).value;
      SettleOrderDelivers(e, user, o, now, rate);
      DeliveredIsAccounted(e, r.value, OrderKey(o), total);
    }
  }

  lemma SettleFromWalletAccounted(d: Db, user: Id, i: Id, now: Instant, rate: nat, price: Option<int>)
    requires Sound(d) && Consistent(d) && Accounted(d)
    ensures var r := Payments.SettleFromWallet(d, user, i, now, rate, price); r.Some? ==> Accounted(r.value)
  {
    hide Sound, Invoiced, Keyed, AllDue, PricesHeld, Reserved, Gap, Ahead, Delivers, Busy, Billing.SettleInvoice;
    var r := Payments.SettleFromWallet(d, user, i, now, rate, price);
    if r.Some? {
      var total, k := d.invoices[i].total, KeyOfInvoice(d.invoices[i], i);
      DebitSound(d, user, total, InvoiceDebit(i));
      DebitAhead(d, user, total, InvoiceDebit(i), k);
      DebitKeepsRows(d, user, total, InvoiceDebit(i));
      var e := Wallet.Debit(d, user, total, InvoiceDebit(i)).value;
      SettleInvoiceDelivers(e, user, i, now, rate, price);
      DeliveredIsAccounted(e, r.value, k, total);
    }
  }

  lemma RenewAccounted(d: Db, user: Id, s: Id, now: Instant)
    requires Sound(d) && Accounted(d)
    ensures var r := Billing.Renew(d, user, s, now, true); r.Some? ==> Accounted(r.value)
  {
    hide Sound, Gap, Ahead, Delivers;
    var r := Billing.Renew(d, user, s, now, true);
    if r.Some? {
      var price := d.services[s].price;
      DebitSound(d, user, price, ServiceDebit(s)) by { SoundService(d, s); }
      DebitAhead(d, user, price, ServiceDebit(s), RenewalKey(s));
      DebitKeepsRows(d, user, price, ServiceDebit(s));
      var e := Wallet.Debit(d, user, price, ServiceDebit(s)).value;
      ApplyDelivers(e, s, now);
      var f := Billing.ApplyRenewal(e, s, now);
      DeliveredIsAccounted(e, f, RenewalKey(s), price);
      ApplySound(e, s, now);
      ReceiptAccounted(f, r.value.invoices[|f.invoices|]);
    }
  }

  lemma ReceiptAccounted(d: Db, x: Invoice)
    requires Sound(d) && Accounted(d) && x.order.None? && x.traffic.None? && x.status == InvoicePaid
    ensures Accounted(d.(invoices := d.invoices + [x]))
  {
    hide Gap, Sound;
    ReceiptMoves(d, x, OrderKey(0), 0);
  }

  lemma AutoRenewAccounted(d: Db, s: Id, listed: Instant, now: Instant, window: nat)
    requires Sound(d) && Accounted(d)
    ensures var r := Billing.AutoRenew(d, s, listed, now, window); r.Some? ==> Accounted(r.value)
  {
    hide Gap, Ahead, Delivers, Accounted;
    var r := Billing.AutoRenew(d, s, listed, now, window);
    if r.Some? {
      var x := d.services[s];
      var c := d.(renewalKeys := d.renewalKeys + {(s, listed)});
      assert Sound(c) by { References.KeyGrows(d, c.renewalKeys); OldRowsStaySound(d, c); }
      hide Sound;
      SameRowsAccounted(d, c);
      DebitSound(c, x.user, x.price, ServiceDebit(s));
      DebitAhead(c, x.user, x.price, ServiceDebit(s), RenewalKey(s));
      DebitKeepsRows(c, x.user, x.price, ServiceDebit(s));
      var e := Wallet.Debit(c, x.user, x.price, ServiceDebit(s)).value;
      ApplyDelivers(e, s, now);
      var f := Billing.ApplyRenewal(e, s, now);
      AccountedReceipts(c);
      DeliveredIsAccounted(e, f, RenewalKey(s), x.price);
      ApplySound(e, s, now);
      ReceiptAccounted(f, r.value.invoices[|f.invoices|]);
    }
  }

  lemma AccountedReceipts(d: Db)
    requires Accounted(d)
    ensures Receipts(d.invoices)
  {
  }

  // A payment that goes through settles its target and counts as collected, both once.
  // A payment's key does not move when invoices do.
  lemma KeyOutlives(d: Db, e: Db, x: Intent)
    requires References.Grows(d, e) && KeyOf(d.invoices, x.purpose, x.target).Some?
    ensures InvoicesKeep(d.invoices, e.invoices)
      && KeyOf(e.invoices, x.purpose, x.target) == KeyOf(d.invoices, x.purpose, x.target)
  {
    assert forall i :: 0 <= i < |d.invoices| ==> References.SameInvoice(d.invoices[i], e.invoices[i]);
  }

  // A pending payment asks for what its obligation is worth.
  lemma PendingIsDue(d: Db, i: Id)
    requires Sound(d) && PricesHeld(d.invoices, d.services, d.intents)
    requires i < |d.intents| && d.intents[i].status == IntentPending && d.intents[i].purpose != ForRecharge
    ensures var x := d.intents[i];
            && KeyOf(d.invoices, x.purpose, x.target).Some?
            && Due(d, x.purpose, x.target) == x.amount + x.balance > 0
            && IntentPriceHeld(d.services, x) && IntentRow(d, x)
  {
    assert IntentRow(d, d.intents[i]) && IntentPriceHeld(d.services, d.intents[i]);
  }

  lemma CollectAccounted(d: Db, i: Id, received: int, now: Instant, rate: nat, price: Option<int>)
    requires Sound(d) && Invoiced(d.orders, d.invoices) && PricesHeld(d.invoices, d.services, d.intents) && Accounted(d)
    requires i < |d.intents| && d.intents[i].status == IntentPending && d.intents[i].purpose != ForRecharge
    ensures var x := d.intents[i];
            var r := Payments.SettleTarget(d, x.user, x.purpose, x.target, now, rate, price);
            r.Some? ==> Accounted(Payments.CloseIntent(r.value, i, IntentPaid, received))
  {
    var x := d.intents[i];
    var r := Payments.SettleTarget(d, x.user, x.purpose, x.target, now, rate, price);
    if r.Some? {
      hide References.Grows, Sound, Invoiced, PricesHeld, Gap, Payments.SettleTarget, IntentRow, Receipts, KeyOf, Due,
           Accounted, InvoicesKeep;
      PendingIsDue(d, i);
      var p := x.amount + x.balance;
      var k := KeyOf(d.invoices, x.purpose, x.target).value;
      References.SettleTargetGrows(d, x.user, x.purpose, x.target, now, rate, price);
      KeyOutlives(d, r.value, x);
      SettleTargetDelivers(d, x.user, x.purpose, x.target, now, rate, price);
      LevelIsAccounted(d, k, p);
      AheadMoves(d, r.value, k, p, 0, -1);
      var f := Payments.CloseIntent(r.value, i, IntentPaid, received);
      IntentMoves(r.value, i, f.intents[i], k);
      AheadMoves(r.value, f, k, p, -1, 1);
      LevelIsAccounted(f, k, p);
    }
  }

  lemma FinalizeAccounted(d: Db, i: Id, paid: int, now: Instant, rate: nat, price: Option<int>)
    requires Sound(d) && Consistent(d) && Accounted(d)
    ensures var r := Payments.Finalize(d, i, paid, now, rate, price); r.Some? ==> Accounted(r.value)
  {
    hide Sound, Invoiced, Keyed, AllDue, PricesHeld, Reserved, Accounted, Payments.SettleTarget;
    var r := Payments.Finalize(d, i, paid, now, rate, price);
    if r.Some? && d.intents[i].status == IntentPending {
      var x := d.intents[i];
      if x.purpose == ForRecharge {
        PostAccounted(d, x.user, x.amount, IntentRecharge(i));
        var e := Wallet.Post(d, x.user, x.amount, IntentRecharge(i)).value;
        IntentStays(e, i, r.value.intents[i]);
      } else {
        CollectAccounted(d, i, paid, now, rate, price);
      }
    }
  }

  lemma CreateIntentAccounted(d: Db, user: Id, purpose: Purpose, target: Id, total: int, wish: int,
                              quoted: Option<Instant>, now: Instant, rate: nat, price: Option<int>)
    requires Sound(d) && Consistent(d) && Accounted(d)
    ensures var r := Payments.CreateIntent(d, user, purpose, target, total, wish, quoted, now, rate, price);
            r.Some? ==> Accounted(r.value)
  {
    hide Sound, Busy, Payable, LoadTarget, Payments.OpenIntent, ConsistentBut, KeyTaken, StillDue, IntentPriceHeld,
      Accounted;
    var r := Payments.CreateIntent(d, user, purpose, target, total, wish, quoted, now, rate, price);
    if r.Some? {
      var balance := Payments.WalletPart(total, wish);
      var key := if purpose == ForRecharge then None else LoadTarget(d, user, purpose, target);
      var x := Intent(user, purpose, target, total - balance, balance, IntentPending, key, 0);
      if purpose != ForRecharge {
        LoadedKey(d, user, purpose, target);
        PayableIsDue(d, user, purpose, target, total, quoted, x);
        PayableIsOwed(d, user, purpose, target, total, quoted, x);
      } else {
        RechargeIsDue(d, x);
      }
      var e := Wallet.Debit(d, user, balance, IntentDebit(purpose, target)).value;
      DebitSound(d, user, balance, IntentDebit(purpose, target));
      DebitConsistent(d, user, balance, IntentDebit(purpose, target), NOBODY);
      PostAccounted(d, user, -balance, IntentDebit(purpose, target));
      assert IntentRow(e, x);
      assert purpose != ForRecharge ==> !KeyTaken(e, key.value) by {
        if purpose != ForRecharge { SameKeyTaken(d, e, key.value); }
      }
      assert StillDue(e.orders, e.invoices, x) && IntentPriceHeld(e.services, x);
      OpenIntentAccounted(e, x, now, rate, price);
    }
  }

  lemma OpenIntentAccounted(d: Db, x: Intent, now: Instant, rate: nat, price: Option<int>)
    requires Sound(d) && IntentRow(d, x) && Consistent(d) && Accounted(d) && x.status == IntentPending
    requires x.purpose == ForRecharge ==> x.key.None?
    requires x.purpose != ForRecharge ==>
      (x.key.Some? && x.key == KeyOf(d.invoices, x.purpose, x.target) && !KeyTaken(d, x.key.value))
    requires StillDue(d.orders, d.invoices, x) && IntentPriceHeld(d.services, x)
    ensures var r := Payments.OpenIntent(d, x, now, rate, price); r.Some? ==> Accounted(r.value)
  {
    hide Payments.SettleTarget, Sound, IntentRow, Accounted, Invoiced, Keyed, AllDue, PricesHeld, Reserved, KeyTaken,
      StillDue, IntentPriceHeld;
    var e := d.(intents := d.intents + [x]);
    AddIntentSound(d, x);
    AddIntentConsistent(d, x);
    NewIntentStays(d, x);
    if x.amount <= 0 && x.purpose != ForRecharge { CollectAccounted(e, |d.intents|, 0, now, rate, price); }
    assert x.purpose == ForRecharge ==>
      Payments.SettleTarget(e, x.user, x.purpose, x.target, now, rate, price).None? by {
      RechargeSettlesNothing(e, x.user, x.target, now, rate, price);
    }
  }

  lemma RechargeSettlesNothing(d: Db, user: Id, target: Id, now: Instant, rate: nat, price: Option<int>)
    ensures Payments.SettleTarget(d, user, ForRecharge, target, now, rate, price).None?
  {
  }

  lemma FailIntentAccounted(d: Db, i: Id)
    requires Accounted(d)
    ensures var r := Payments.FailIntent(d, i); r.Some? ==> Accounted(r.value)
  {
    hide Accounted;
    var r := Payments.FailIntent(d, i);
    if r.Some? {
      var e := Payments.CloseIntent(d, i, IntentFailed, d.intents[i].received);
      IntentStays(d, i, e.intents[i]);
      PostAccounted(e, d.intents[i].user, d.intents[i].balance, IntentReturn(i));
    }
  }

  // ----- orders and invoices -----

  lemma CreateOrderAccounted(d: Db, user: Id, lines: seq<Line>, discount: nat)
    requires Sound(d) && Accounted(d)
    ensures var r := Orders.Create(d, user, lines, discount); r.Some? ==> Accounted(r.value)
  {
    var r := Orders.Create(d, user, lines, discount);
    if r.Some? {
      var e := r.value;
      InvoicesMove(d, e.invoices, OrderKey(0));
      hide Settlements;
      forall l: Key, q: nat | q > 0 ensures Gap(e, l, q) == 0 {
        assert Gap(e, l, q) == Gap(d.(invoices := e.invoices), l, q) by {
          SameSettlements(d.(invoices := e.invoices), e, l, q);
        }
        assert Gap(d, l, q) == 0;
      }
    }
  }

  lemma SameSettlements(d: Db, e: Db, k: Key, p: nat)
    requires e.bank == d.bank && e.intents == d.intents && e.invoices == d.invoices
    ensures Settlements(d, k, p) == Settlements(e, k, p)
  {
  }

  lemma CancelOrderAccounted(d: Db, user: Id, o: Id)
    requires Sound(d) && Accounted(d)
    ensures var r := Orders.Cancel(d, user, o); r.Some? ==> Accounted(r.value)
  {
    var r := Orders.Cancel(d, user, o);
    if r.Some? {
      var e := r.value;
      InvoicesMove(d, e.invoices, OrderKey(0));
      hide Settlements;
      forall l: Key, q: nat | q > 0 ensures Gap(e, l, q) == 0 {
        assert Gap(e, l, q) == Gap(d.(invoices := e.invoices), l, q) by {
          SameSettlements(d.(invoices := e.invoices), e, l, q);
        }
        assert Gap(d, l, q) == 0;
      }
    }
  }

  // An unpaid invoice that names a service has delivered nothing yet.
  lemma UnpaidInvoiceAccounted(d: Db, x: Invoice)
    requires Sound(d) && Accounted(d) && x.service.Some? && x.status == InvoiceUnpaid
    ensures Accounted(d.(invoices := d.invoices + [x]))
  {
    hide Gap, Sound;
    InvoicesMove(d, d.invoices + [x], OrderKey(0));
  }

  lemma CloseOrderAccounted(d: Db, o: Id)
    requires Accounted(d) && o < |d.orders| && d.orders[o].status == OrderPaid
    ensures Accounted(Refunds.CloseOrder(d, o))
  {
    var e := Refunds.CloseOrder(d, o);
    hide Settlements;
    forall l: Key, q: nat | q > 0 ensures Gap(e, l, q) == 0 {
      SameSettlements(d, e, l, q);
      assert Gap(d, l, q) == 0;
    }
  }

  lemma CompleteAccounted(d: Db, e: Id)
    requires Accounted(d)
    ensures var r := Refunds.Complete(d, e); r.Some? ==> Accounted(r.value)
  {
    hide Accounted;
    var result := Refunds.Complete(d, e);
    if result.Some? {
      var r := d.executions[e].refund;
      var x := d.refunds[r];
      var b := Refunds.Restatus(Refunds.Move(d, e, Closed), r, RefundCompleted);
      SameRowsAccounted(d, b);
      PostAccounted(b, x.user, x.balance, RefundCredit(r));
      var c := Wallet.PostUnlessZero(b, x.user, x.balance, RefundCredit(r)).value;
      CloseOrderAccounted(c, x.order);
      var f := Refunds.CloseOrder(c, x.order);
      var g := Refunds.CloseIntent(f, x);
      if g != f { IntentStays(f, x.payment.value, g.intents[x.payment.value]); }
      SameRowsAccounted(g, result.value);
    }
  }

  // ----- every step -----

  lemma AccountAccounted(d: Db, op: AccountOp)
    requires Accounted(d)
    ensures var r := DoAccount(d, op); r.Some? ==> Accounted(r.value)
  {
    hide Accounted;
    var r := DoAccount(d, op);
    if r.Some? {
      match op
      case Register(_) => SameRowsAccounted(d, r.value);
      case Recharge(user, amount) => PostAccounted(d, user, amount, Recharged);
      case CreditExternal(plugin, external, user, amount) =>
        if r.value != d {
          PostAccounted(d, user, amount, PluginCredit(|d.plugins|));
          SameRowsAccounted(Wallet.Post(d, user, amount, PluginCredit(|d.plugins|)).value, r.value);
        }
      case AdjustByAdmin(user, amount) => PostAccounted(d, user, amount, AdminAdjust);
    }
  }

  lemma SaleAccounted(d: Db, op: OrderOp)
    requires Sound(d) && Consistent(d) && Accounted(d)
    ensures var r := DoSale(d, op); r.Some? ==> Accounted(r.value)
  {
    hide Sound, ConsistentBut, Accounted, Orders.Create, Orders.Pay, Orders.Cancel;
    match op
    case CreateOrder(user, lines, discount) => CreateOrderAccounted(d, user, lines, discount);
    case PayOrder(user, o, now, rate) => PayOrderAccounted(d, user, o, now, rate);
    case CancelOrder(user, o) => CancelOrderAccounted(d, user, o);
  }

  lemma BillAccounted(d: Db, op: BillingOp)
    requires Sound(d) && Accounted(d)
    ensures var r := DoBill(d, op); r.Some? ==> Accounted(r.value)
  {
    hide Sound, Accounted, Billing.AutoRenew, Billing.Renew;
    var r := DoBill(d, op);
    if r.Some? {
      match op
      case RenewNow(user, s, now) => RenewAccounted(d, user, s, now);
      case CreateRenewalInvoice(user, s) => UnpaidInvoiceAccounted(d, r.value.invoices[|d.invoices|]);
      case CreateTrafficInvoice(_, _, _, _) => UnpaidInvoiceAccounted(d, r.value.invoices[|d.invoices|]);
      case AutoRenew(s, listed, now, window) => AutoRenewAccounted(d, s, listed, now, window);
      case SetService(_, _, _, _, _) => SameRowsAccounted(d, r.value);
    }
  }

  lemma PaymentAccounted(d: Db, op: PaymentOp)
    requires Sound(d) && Consistent(d) && Accounted(d)
    ensures var r := DoPayment(d, op); r.Some? ==> Accounted(r.value)
  {
    hide Sound, ConsistentBut, Accounted, Payments.Finalize, Payments.FailIntent, Payments.CreateIntent,
      Payments.SettleFromWallet;
    match op
    case SettleInvoice(user, i, now, rate, price) => SettleFromWalletAccounted(d, user, i, now, rate, price);
    case CreateIntent(user, purpose, target, total, wish, quoted, now, rate, price) =>
      CreateIntentAccounted(d, user, purpose, target, total, wish, quoted, now, rate, price);
    case CancelIntent(_, i) => FailIntentAccounted(d, i);
    case VoidIntent(i) => FailIntentAccounted(d, i);
    case Finalize(i, paid, now, rate, price) => FinalizeAccounted(d, i, paid, now, rate, price);
    case LateReceipt(i, paid) =>
      var r := Payments.LateReceipt(d, i, paid);
      if r.Some? { IntentStays(d, i, r.value.intents[i]); }
  }

  lemma ChangeAccounted(d: Db, op: ChangeOp)
    requires Accounted(d)
    ensures var r := DoChange(d, op); r.Some? ==> Accounted(r.value)
  {
    hide Accounted, Changes.Fenced, Changes.TokenUsed, Changes.OfferFor;
    var r := DoChange(d, op);
    if r.Some? {
      match op
      case ReserveChange(user, s, _, _, request) =>
        var e := r.value.(bank := d.bank);
        SameRowsAccounted(d, e);
        PostAccounted(e, user, -(Changes.OfferFor(request).value.charge as int), ChangeDebit(|d.changes|));
      case ClaimChange(_) => SameRowsAccounted(d, r.value);
      case DoubtChange(_) => SameRowsAccounted(d, r.value);
      case FinishChange(c, applied) =>
        var e := r.value.(bank := d.bank);
        var x := d.changes[c];
        SameRowsAccounted(d, e);
        PostAccounted(e, x.user, if applied then x.credit else x.charge, ChangeReturn(c));
    }
  }

  lemma RefundAccounted(d: Db, op: RefundOp)
    requires Accounted(d)
    ensures var r := DoRefund(d, op); r.Some? ==> Accounted(r.value)
  {
    hide Accounted, Refunds.Complete, Refunds.MayComplete;
    var r := DoRefund(d, op);
    if r.Some? {
      match op
      case CompleteRefund(e) => CompleteAccounted(d, e);
      case ClaimPayment(e) =>
        var m := Refunds.Move(d, e, PaymentClaimed);
        SameRowsAccounted(d, m);
        SameRowsAccounted(d, Refunds.Move(d, e, LostClaim));
        var p := d.refunds[d.executions[e].refund].payment.value;
        if p < |d.intents| && d.intents[p].status == IntentPaid { IntentStays(m, p, r.value.intents[p]); }
      case ReleasePayment(e) =>
        var m := Refunds.Move(d, e, Released);
        SameRowsAccounted(d, m);
        var p := d.refunds[d.executions[e].refund].payment.value;
        if p < |d.intents| && d.intents[p].status == IntentRefunding { IntentStays(m, p, r.value.intents[p]); }
      case RequestRefund(_, _, _) => SameRowsAccounted(d, r.value);
      case ReviewRefund(_, _) => SameRowsAccounted(d, r.value);
      case CancelRefund(_, _) => SameRowsAccounted(d, r.value);
      case StartRefund(_) => SameRowsAccounted(d, r.value);
      case AskChannel(_, _) => SameRowsAccounted(d, r.value);
      case AbortRefund(_) => SameRowsAccounted(d, r.value);
      case FailRefund(_) => SameRowsAccounted(d, r.value);
    }
  }

  lemma ShareAccounted(d: Db, op: AffiliateOp)
    requires Accounted(d)
    ensures var r := DoShare(d, op); r.Some? ==> Accounted(r.value)
  {
    hide Accounted;
    var r := DoShare(d, op);
    if r.Some? {
      match op
      case JoinAffiliates(_) => SameRowsAccounted(d, r.value);
      case Withdraw(_, _, _) => SameRowsAccounted(d, r.value);
      case ReviewWithdrawal(w, approve) =>
        var e := r.value.(bank := d.bank);
        SameRowsAccounted(d, e);
        if approve { PostAccounted(e, d.withdrawals[w].user, d.withdrawals[w].amount, CommissionPayout(w)); }
    }
  }

  lemma StepAccounted(d: Db, op: Op)
    requires Sound(d) && Consistent(d) && Accounted(d)
    ensures Accounted(Step(d, op))
  {
    hide Sound, ConsistentBut, Accounted, DoAccount, DoSale, DoBill, DoPayment, DoChange, DoRefund, DoShare;
    match op
    case Account(a) => AccountAccounted(d, a);
    case Sale(s) => SaleAccounted(d, s);
    case Bill(b) => BillAccounted(d, b);
    case Payment(p) => PaymentAccounted(d, p);
    case ProductChange(c) => ChangeAccounted(d, c);
    case Repay(r) => RefundAccounted(d, r);
    case Share(s) => ShareAccounted(d, s);
  }
}
