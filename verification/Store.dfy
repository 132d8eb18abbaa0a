// The database as the services use it: tables that are written in place, and a
// transaction that puts back what it changed when it fails. Each method takes the
// writes of one service method in their order; its contract says that together
// they are the step the machine takes, or none.
module Store {
  import opened Options
  import opened Calendar
  import opened Sums
  import opened Tables
  import opened Targets
  import opened Machine
  import Theorems
  import Wallet
  import Orders
  import Billing
  import Payments
  import Changes
  import Proration
  import Refunds
  import Affiliates

  class Database {
    var balances: seq<int>
    var log: seq<Entry>
    var referrers: seq<Option<Id>>
    var plugins: seq<PluginPayment>
    var orders: seq<Order>
    var invoices: seq<Invoice>
    var services: seq<Service>
    var intents: seq<Intent>
    var changes: seq<Change>
    var refunds: seq<Refund>
    var executions: seq<Execution>
    var affiliates: seq<Affiliate>
    var commissions: seq<Commission>
    var withdrawals: seq<Withdrawal>
    var renewalKeys: set<(Id, Instant)>
    // History for the specification; nothing reads it.
    var advances: seq<Advance>

    constructor ()
      ensures View() == EMPTY
    {
      balances, log, referrers, plugins, orders, invoices, services, intents := [], [], [], [], [], [], [], [];
      changes, refunds, executions, affiliates, commissions, withdrawals, advances, renewalKeys :=
        [], [], [], [], [], [], [], {};
    }

    function View(): Db
      reads this
    {
      Db(Bank(balances, log), referrers, plugins, orders, invoices, services, intents, changes, refunds, executions,
         affiliates, commissions, withdrawals, advances, renewalKeys)
    }

    // ----- wallet.go -----

    // adjustBalance: the guarded increment, and the ledger row that reads it back.
    method AdjustBalance(user: Id, amount: int, ref: Ref) returns (ok: bool)
      modifies this`balances, this`log
      ensures var r := Wallet.Post(old(View()), user, amount, ref);
              (ok <==> r.Some?) && View() == if ok then r.value else old(View())
    {
      if amount == 0 {
        return false;
      }
      if user >= |balances| || (amount < 0 && balances[user] < -amount) {
        return false;
      }
      balances := balances[user := balances[user] + amount];
      log := log + [Entry(user, amount, balances[user], ref)];
      ok := true;
    }

    // Callers that have nothing to move skip the adjustment.
    method AdjustUnlessZero(user: Id, amount: int, ref: Ref) returns (ok: bool)
      modifies this`balances, this`log
      ensures var r := Wallet.PostUnlessZero(old(View()), user, amount, ref);
              (ok <==> r.Some?) && View() == if ok then r.value else old(View())
    {
      ok := true;
      if amount != 0 {
        ok := AdjustBalance(user, amount, ref);
      }
    }

    // CreditExternal: the unique index decides who is first, and a failure of the
    // adjustment takes the record back.
    method CreditExternal(plugin: string, external: string, user: Id, amount: int) returns (ok: bool)
      modifies this
      ensures var r := Wallet.CreditExternal(old(View()), plugin, external, user, amount);
              (ok <==> r.Some?) && View() == if ok then r.value else old(View())
    {
      if amount <= 0 || amount > Wallet.MAX_CREDIT || external == "" {
        return false;
      }
      if Wallet.FindPlugin(plugins, plugin, external) < |plugins| {
        return true;
      }
      var saved := plugins;
      plugins := plugins + [PluginPayment(plugin, external, user, amount)];
      ok := AdjustBalance(user, amount, PluginCredit(|saved|));
      if !ok {
        plugins := saved;
      }
    }

    // ----- order.go -----

    // buildOrderItems' running total.
    method TotalOf(lines: seq<Line>) returns (total: nat)
      ensures total == Orders.LinesTotal(lines)
    {
      total := 0;
      for i := 0 to |lines|
        invariant total == Orders.LinesTotal(lines[..i])
      {
        assert lines[..i + 1][..i] == lines[..i];
        total := total + lines[i].price * lines[i].quantity;
      }
      assert lines[..|lines|] == lines;
    }

    // create: the order, the discount taken off it, and its unpaid invoice.
    method CreateOrder(user: Id, lines: seq<Line>, discount: nat) returns (ok: bool)
      modifies this`orders, this`invoices
      ensures var r := Orders.Create(old(View()), user, lines, discount);
              (ok <==> r.Some?) && View() == if ok then r.value else old(View())
    {
      if user >= |balances| || |lines| == 0 || |lines| > Orders.MAX_LINES
         || (exists i :: 0 <= i < |lines| && !Orders.LineOk(lines[i]))
      {
        return false;
      }
      var total := TotalOf(lines);
      if discount > total {
        return false;
      }
      var o := |orders|;
      orders := orders + [Order(user, OrderPending, total, lines)];
      if discount > 0 {
        total := total - discount;
        orders := orders[o := orders[o].(total := total)];
      }
      invoices := invoices + [Invoice(user, Some(o), None, None, InvoiceUnpaid, total)];
      ok := true;
    }

    // The services of a settled order, one for each unit of each line.
    method CreateServices(user: Id, o: Id, lines: seq<Line>, now: Instant)
      modifies this`services
      ensures services == old(services) + Orders.NewServices(user, o, lines, now)
    {
      for i := 0 to |lines|
        invariant services == old(services) + Orders.NewServices(user, o, lines[..i], now)
      {
        var x := lines[i];
        assert lines[..i + 1][..i] == lines[..i];
        ghost var before := services;
        for k := 0 to x.quantity
          invariant services == before + seq(k, _ => Orders.NewService(user, o, x, now))
        {
          services := services + [Orders.NewService(user, o, x, now)];
        }
      }
      assert lines[..|lines|] == lines;
    }

    // accrueAffiliateTx, once the order is paid.
    method Accrue(o: Id, rate: nat)
      requires o < |orders|
      modifies this`affiliates, this`commissions
      ensures View() == Orders.Accrue(old(View()), o, rate)
    {
      var x := orders[o];
      if x.total <= 0 || rate == 0 {
        return;
      }
      if x.user >= |referrers| || referrers[x.user].None? {
        return;
      }
      var a := referrers[x.user].value;
      if a >= |affiliates| || affiliates[a].user == x.user {
        return;
      }
      var amount := x.total * rate / 10000;
      if amount == 0 || Orders.CommissionFor(commissions, o) < |commissions| {
        return;
      }
      commissions := commissions + [Commission(a, o, x.total, amount, 0)];
      var row := affiliates[a];
      affiliates := affiliates[a := row.(balance := row.balance + amount, earned := row.earned + amount)];
    }

    // payInTx without its debit. A failure leaves partial writes for the caller's
    // transaction to take back.
    method SettleOrder(user: Id, o: Id, now: Instant, rate: nat) returns (ok: bool)
      modifies this`orders, this`invoices, this`services, this`affiliates, this`commissions
      ensures var r := Orders.Settle(old(View()), user, o, now, rate);
              (ok <==> r.Some?) && (ok ==> View() == r.value)
    {
      hide Orders.Accrue, Orders.NewServices, Orders.InvoiceFor, Orders.NewService;
      if o >= |orders| || orders[o].user != user {
        return false;
      }
      var x := orders[o];
      if |x.lines| == 0 || x.status != OrderPending {
        return false;
      }
      orders := orders[o := x.(status := OrderPaid)];
      var i := Orders.InvoiceFor(invoices, o);
      if i == |invoices| {
        invoices := invoices + [Invoice(x.user, Some(o), None, None, InvoicePaid, x.total)];
      } else {
        if invoices[i].status != InvoiceUnpaid {
          return false;
        }
        invoices := invoices[i := invoices[i].(status := InvoicePaid)];
      }
      CreateServices(x.user, o, x.lines, now);
      assert View() == Orders.MarkPaid(old(View()), o, i, now);
      Accrue(o, rate);
      ok := true;
    }

    // ----- transactions -----

    // Putting a transaction's writes back.
    method Rollback(d: Db)
      modifies this
      ensures View() == d
    {
      RestoreSales(d);
      RestoreClaims(d);
      assert d == Db(d.bank, d.referrers, d.plugins, d.orders, d.invoices, d.services, d.intents, d.changes,
                     d.refunds, d.executions, d.affiliates, d.commissions, d.withdrawals, d.advances, d.renewalKeys);
    }

    method RestoreSales(d: Db)
      modifies this`orders, this`invoices, this`services, this`affiliates, this`commissions, this`advances,
        this`renewalKeys
      ensures orders == d.orders && invoices == d.invoices && services == d.services && affiliates == d.affiliates
      ensures commissions == d.commissions && advances == d.advances && renewalKeys == d.renewalKeys
    {
      orders, invoices, services := d.orders, d.invoices, d.services;
      affiliates, commissions, advances, renewalKeys := d.affiliates, d.commissions, d.advances, d.renewalKeys;
    }

    method RestoreClaims(d: Db)
      modifies this`balances, this`log, this`referrers, this`plugins, this`intents, this`changes, this`refunds,
               this`executions, this`withdrawals
      ensures Bank(balances, log) == d.bank && referrers == d.referrers && plugins == d.plugins && intents == d.intents
      ensures changes == d.changes && refunds == d.refunds && executions == d.executions && withdrawals == d.withdrawals
    {
      balances, log, referrers, plugins := d.bank.balances, d.bank.log, d.referrers, d.plugins;
      intents, changes, refunds, executions, withdrawals := d.intents, d.changes, d.refunds, d.executions,
        d.withdrawals;
    }

    // rejectPaymentIntentTx: the user's live payments are searched for an alias.
    method IsBusy(user: Id, k: Key) returns (busy: bool)
      ensures busy == Busy(View(), user, k)
    {
      hide Blocks;
      busy := false;
      for i := 0 to |intents|
        invariant !busy
        invariant forall j :: 0 <= j < i ==>
          !(intents[j].user == user && Live(intents[j].status) && Blocks(invoices, intents[j], k))
      {
        if intents[i].user == user && Live(intents[i].status) && Blocks(invoices, intents[i], k) {
          assert View().intents[i].user == user && Blocks(View().invoices, View().intents[i], k);
          return true;
        }
      }
    }

    // pay.
    method PayOrder(user: Id, o: Id, now: Instant, rate: nat) returns (ok: bool)
      modifies this
      ensures var r := Orders.Pay(old(View()), user, o, now, rate);
              (ok <==> r.Some?) && View() == if ok then r.value else old(View())
    {
      hide Orders.Settle, Busy;
      var before := View();
      if LoadTarget(before, user, ForOrder, o).None? {
        return false;
      }
      var busy := IsBusy(user, OrderKey(o));
      if busy {
        return false;
      }
      ok := AdjustUnlessZero(user, -(orders[o].total as int), OrderDebit(o));
      if ok {
        ok := SettleOrder(user, o, now, rate);
        if !ok {
          Rollback(before);
        }
      }
    }

    // Cancel: the order, and the invoices that wait for it.
    method CancelOrder(user: Id, o: Id) returns (ok: bool)
      modifies this`orders, this`invoices
      ensures var r := Orders.Cancel(old(View()), user, o);
              (ok <==> r.Some?) && View() == if ok then r.value else old(View())
    {
      if o >= |orders| || orders[o].user != user || orders[o].status != OrderPending {
        return false;
      }
      orders := orders[o := orders[o].(status := OrderCancelled)];
      for i := 0 to |invoices|
        invariant |invoices| == |old(invoices)| && orders == old(orders)[o := old(orders)[o].(status := OrderCancelled)]
        invariant forall k :: 0 <= k < i ==> invoices[k] == Orders.CancelInvoice(old(invoices)[k], o)
        invariant forall k :: i <= k < |invoices| ==> invoices[k] == old(invoices)[k]
      {
        if invoices[i].order == Some(o) && invoices[i].status == InvoiceUnpaid {
          invoices := invoices[i := invoices[i].(status := InvoiceCancelled)];
        }
      }
      assert invoices == Orders.Cancel(old(View()), user, o).value.invoices;
      ok := true;
    }

    // ----- billing.go -----

    // applyRenewalTx for the service as it was read: the update is conditional on
    // what was read, and on nothing having reserved a change since.
    method ApplyRenewal(s: Id, x: Service, now: Instant) returns (ok: bool)
      requires s < |services| && x.cycle != OneTime
      modifies this`services, this`advances
      ensures ok <==> old(services)[s].status == x.status && old(services)[s].reason == x.reason
                      && old(services)[s].change.None? && old(services)[s].expires == x.expires
      ensures !ok ==> View() == old(View())
      ensures ok && x == old(services)[s] ==> View() == Billing.ApplyRenewal(old(View()), s, now)
    {
      hide AddMonths;
      var base := now;
      if x.expires.Some? && x.expires.value > now {
        base := x.expires.value;
      }
      var next := AdvanceCycle(base, x.cycle).value;
      var keepSuspended := x.status == ServiceSuspended && (x.reason == TrafficExceeded || x.reason == Expired)
        && x.hosted;
      var row := services[s];
      if row.status != x.status || row.reason != x.reason || row.change.Some? || row.expires != x.expires {
        return false;
      }
      row := row.(expires := Some(next), status := ServiceActive, reason := NoReason);
      if keepSuspended {
        row := row.(status := ServiceSuspended, reason := x.reason);
      }
      services := services[s := row];
      advances := advances + [Advance(s, x.price, x.expires, now, next)];
      ok := true;
    }

    // renewInTx.
    method Renew(user: Id, s: Id, now: Instant, debit: bool) returns (ok: bool)
      modifies this
      ensures var r := Billing.Renew(old(View()), user, s, now, debit);
              (ok <==> r.Some?) && (ok ==> View() == r.value)
    {
      hide Billing.ApplyRenewal;
      if !Billing.Renewable(View(), user, s) {
        return false;
      }
      var x := services[s];
      if debit && x.price > 0 {
        ok := AdjustBalance(user, -(x.price as int), ServiceDebit(s));
        if !ok {
          return;
        }
      }
      ok := ApplyRenewal(s, x, now);
      if !ok {
        assert false;
      }
      invoices := invoices + [Invoice(user, None, None, None, InvoicePaid, x.price)];
    }

    // settleTrafficInvoiceTx: price is what the price list asks now.
    method SettleTraffic(user: Id, i: Id, price: Option<int>) returns (ok: bool)
      requires i < |invoices| && invoices[i].service.Some? && invoices[i].traffic.Some?
        && invoices[i].status == InvoiceUnpaid
      modifies this`invoices, this`services
      ensures var r := Billing.SettleTraffic(old(View()), user, i, price);
              (ok <==> r.Some?) && (ok ==> View() == r.value)
    {
      var x := invoices[i];
      var s := x.service.value;
      if s >= |services| || services[s].user != user || price != Some(x.total) {
        return false;
      }
      invoices := invoices[i := x.(status := InvoicePaid)];
      services := services[s := services[s].(extraTraffic := services[s].extraTraffic + x.traffic.value)];
      ok := true;
    }

    // settleRenewalInvoiceTx.
    method SettleRenewal(user: Id, i: Id, now: Instant) returns (ok: bool)
      requires i < |invoices| && invoices[i].service.Some?
      modifies this`invoices, this`services, this`advances
      ensures var r := Billing.SettleRenewal(old(View()), user, i, now);
              (ok <==> r.Some?) && (ok ==> View() == r.value)
    {
      hide Billing.ApplyRenewal;
      var s := invoices[i].service.value;
      if !Billing.Renewable(View(), user, s) {
        return false;
      }
      ok := ApplyRenewal(s, services[s], now);
      if !ok {
        assert false;
      }
      invoices := invoices[i := invoices[i].(status := InvoicePaid)];
    }

    // settleInvoiceTx.
    method SettleInvoice(user: Id, i: Id, now: Instant, rate: nat, price: Option<int>) returns (ok: bool)
      modifies this
      ensures var r := Billing.SettleInvoice(old(View()), user, i, now, rate, price);
              (ok <==> r.Some?) && (ok ==> View() == r.value)
    {
      hide Orders.Settle, Billing.SettleTraffic, Billing.SettleRenewal;
      if i >= |invoices| || invoices[i].user != user {
        return false;
      }
      if invoices[i].status != InvoiceUnpaid {
        return false;
      }
      var x := invoices[i];
      if x.order.Some? {
        ok := SettleOrder(user, x.order.value, now, rate);
      } else if x.service.Some? && x.traffic.Some? {
        ok := SettleTraffic(user, i, price);
      } else if x.service.Some? {
        ok := SettleRenewal(user, i, now);
      } else {
        invoices := invoices[i := x.(status := InvoicePaid)];
        ok := true;
      }
    }

    // ----- payment.go -----

    // settleTargetTx.
    method SettleTarget(user: Id, purpose: Purpose, target: Id, now: Instant, rate: nat, price: Option<int>)
      returns (ok: bool)
      modifies this
      ensures var r := Payments.SettleTarget(old(View()), user, purpose, target, now, rate, price);
              (ok <==> r.Some?) && (ok ==> View() == r.value)
    {
      hide Orders.Settle, Billing.SettleInvoice, Billing.Renew;
      match purpose
      case ForOrder => ok := SettleOrder(user, target, now, rate);
      case ForInvoice => ok := SettleInvoice(user, target, now, rate, price);
      case ForRenewal => ok := Renew(user, target, now, false);
      case ForRecharge => ok := false;
    }

    // SettleInvoice: an unpaid invoice from the wallet.
    method SettleFromWallet(user: Id, i: Id, now: Instant, rate: nat, price: Option<int>) returns (ok: bool)
      modifies this
      ensures var r := Payments.SettleFromWallet(old(View()), user, i, now, rate, price);
              (ok <==> r.Some?) && View() == if ok then r.value else old(View())
    {
      hide Billing.SettleInvoice, Busy;
      var before := View();
      var key := LoadTarget(before, user, ForInvoice, i);
      if key.None? {
        return false;
      }
      var busy := IsBusy(user, key.value);
      if busy || invoices[i].status != InvoiceUnpaid {
        return false;
      }
      ok := AdjustUnlessZero(user, -(invoices[i].total as int), InvoiceDebit(i));
      if ok {
        ok := SettleInvoice(user, i, now, rate, price);
        if !ok {
          Rollback(before);
        }
      }
    }

    // The unique index over the canonical keys of pending payments.
    method IsKeyTaken(k: Key) returns (taken: bool)
      ensures taken == KeyTaken(View(), k)
    {
      for i := 0 to |intents|
        invariant forall j :: 0 <= j < i ==> intents[j].key != Some(k)
      {
        if intents[i].key == Some(k) {
          assert View().intents[i].key == Some(k);
          return true;
        }
      }
      taken := false;
    }

    // Create's transaction: the checks of the preflight once more, the wallet part,
    // the intent, and its settlement when the wallet covers it all.
    method CreateIntent(user: Id, purpose: Purpose, target: Id, total: int, wish: int,
                        quoted: Option<Instant>, now: Instant, rate: nat, price: Option<int>) returns (ok: bool)
      modifies this
      ensures var r := Payments.CreateIntent(old(View()), user, purpose, target, total, wish, quoted, now, rate, price);
              (ok <==> r.Some?) && View() == if ok then r.value else old(View())
    {
      hide Admits, LoadTarget, Payments.OpenIntent, Payments.CreateIntent, Wallet.PostUnlessZero;
      CreateRefuses(View(), user, purpose, target, total, wish, quoted, now, rate, price);
      if user >= |balances| || wish < 0 || total <= 0
         || (purpose == ForRecharge && total > Wallet.MAX_CREDIT)
         || (wish > 0 && (purpose == ForRecharge || purpose == ForRenewal))
      {
        return false;
      }
      var before := View();
      var balance := if wish > total then total else wish;
      var admitted, key := Admit(user, purpose, target, total, quoted);
      CreateSteps(before, user, purpose, target, total, wish, quoted, now, rate, price);
      if !admitted {
        return false;
      }
      ok := AdjustUnlessZero(user, -balance, IntentDebit(purpose, target));
      if !ok {
        return;
      }
      ok := OpenIntent(Intent(user, purpose, target, total - balance, balance, IntentPending, key, 0), now, rate,
                       price);
      if !ok {
        Rollback(before);
      }
    }

    // Whether the target may be paid now, at this total, and under which key.
    method Admit(user: Id, purpose: Purpose, target: Id, total: int, quoted: Option<Instant>)
      returns (ok: bool, key: Option<Key>)
      ensures key == if purpose == ForRecharge then None else LoadTarget(View(), user, purpose, target)
      ensures ok <==> Admits(View(), user, purpose, target, total, quoted)
    {
      hide LoadTarget, Payable, Busy, KeyTaken;
      if purpose == ForRecharge {
        return true, None;
      }
      key := LoadTarget(View(), user, purpose, target);
      if key.None? || Payable(View(), purpose, target, quoted) != Some(total) {
        return false, key;
      }
      var busy := IsBusy(user, key.value);
      if busy {
        return false, key;
      }
      var taken := IsKeyTaken(key.value);
      ok := !taken;
    }

    // The intent itself; one that leaves nothing for the channel settles at once.
    method OpenIntent(x: Intent, now: Instant, rate: nat, price: Option<int>) returns (ok: bool)
      modifies this
      ensures var r := Payments.OpenIntent(old(View()), x, now, rate, price);
              (ok <==> r.Some?) && (ok ==> View() == r.value)
    {
      hide Payments.SettleTarget;
      var i := |intents|;
      intents := intents + [x];
      ok := true;
      if x.amount == 0 {
        ok := SettleTarget(x.user, x.purpose, x.target, now, rate, price);
        if ok {
          intents := intents[i := intents[i].(status := IntentPaid, key := None, received := 0)];
        }
      }
    }

    // Cancel and compensateCreateFailure: the claim comes first, so the wallet part
    // goes back once.
    method FailIntent(i: Id) returns (ok: bool)
      modifies this`intents, this`balances, this`log
      ensures var r := Payments.FailIntent(old(View()), i);
              (ok <==> r.Some?) && View() == if ok then r.value else old(View())
    {
      if i >= |intents| || intents[i].status != IntentPending {
        return false;
      }
      var saved := intents;
      var current := intents[i];
      intents := intents[i := current.(status := IntentFailed, key := None)];
      ok := AdjustUnlessZero(current.user, current.balance, IntentReturn(i));
      if !ok {
        intents := saved;
      }
    }

    // finalize: pending -> processing claims the intent, and what was settled under
    // the claim commits with processing -> paid.
    method Finalize(i: Id, paid: int, now: Instant, rate: nat, price: Option<int>) returns (ok: bool)
      modifies this
      ensures var r := Payments.Finalize(old(View()), i, paid, now, rate, price);
              (ok <==> r.Some?) && View() == if ok then r.value else old(View())
    {
      hide Payments.SettleTarget;
      if i >= |intents| {
        return false;
      }
      var current := intents[i];
      if current.status == IntentPaid {
        return current.received == 0 || current.received == paid;
      }
      if current.status != IntentPending || paid != current.amount {
        return false;
      }
      var before := View();
      intents := intents[i := current.(status := IntentProcessing)];
      if current.purpose == ForRecharge {
        ok := AdjustBalance(current.user, current.amount, IntentRecharge(i));
      } else {
        SettleIgnoresIntents(before, intents, current.user, current.purpose, current.target, now, rate, price);
        ok := SettleTarget(current.user, current.purpose, current.target, now, rate, price);
      }
      if !ok {
        Rollback(before);
        return;
      }
      intents := intents[i := intents[i].(status := IntentPaid, received := paid, key := None)];
    }

    // ----- service_change.go -----

    // fenceChangeOnBilling: an unpaid renewal invoice or a live renewal payment.
    method IsFenced(s: Id) returns (fenced: bool)
      ensures fenced == Changes.Fenced(View(), s)
    {
      for i := 0 to |invoices|
        invariant forall j :: 0 <= j < i ==> !Billing.UnpaidRenewal(invoices[j], s)
      {
        if Billing.UnpaidRenewal(invoices[i], s) {
          assert Billing.UnpaidRenewal(View().invoices[i], s);
          return true;
        }
      }
      for i := 0 to |intents|
        invariant forall j :: 0 <= j < i ==>
          !(intents[j].purpose == ForRenewal && intents[j].target == s && Live(intents[j].status))
      {
        if intents[i].purpose == ForRenewal && intents[i].target == s && Live(intents[i].status) {
          assert View().intents[i].purpose == ForRenewal && View().intents[i].target == s
            && Live(View().intents[i].status);
          return true;
        }
      }
      fenced := false;
    }

    // Change: the quote is computed from what was read, and reserved.
    method ReserveChange(user: Id, s: Id, token: string, snapshot: Service, request: Changes.Request) returns (ok: bool)
      modifies this`changes, this`services, this`balances, this`log
      ensures var r := Changes.Reserve(old(View()), user, s, token, snapshot, request);
              (ok <==> r.Some?) && View() == if ok then r.value else old(View())
    {
      hide Changes.Hold, Proration.TermsFor;
      var x := request.quoted;
      var quote := Proration.MakeQuote(x.status == ServiceActive, x.expires, x.cycle, x.price, request.target,
                                       request.extra,
                                       request.now);
      if quote.None? {
        return false;
      }
      var q := quote.value;
      ok := HoldChange(user, s, token, snapshot,
                       Changes.Offer(request.product, q.charge, q.credit, q.price, request.options,
                                     x.price, x.cycle, x.expires.value, request.now));
    }

    // Its reservation: the change, the service's claim, and the charge.
    method HoldChange(user: Id, s: Id, token: string, snapshot: Service, q: Changes.Offer) returns (ok: bool)
      modifies this`changes, this`services, this`balances, this`log
      ensures var r := Changes.Hold(old(View()), user, s, token, snapshot, q);
              (ok <==> r.Some?) && View() == if ok then r.value else old(View())
    {
      hide Changes.Fenced, Changes.TokenUsed;
      var fenced := IsFenced(s);
      if s >= |services| || fenced || Changes.TokenUsed(View(), s, token) {
        return false;
      }
      var savedChanges, savedServices := changes, services;
      var c := |changes|;
      changes := changes + [Changes.NewChange(user, s, token, q, services[s].price)];
      var x := services[s];
      if x.user != user || x.change.Some? || x.product != snapshot.product || x.status != snapshot.status
         || snapshot.status != ServiceActive || snapshot.expires.None? || x.expires != snapshot.expires
      {
        changes := savedChanges;
        return false;
      }
      services := services[s := x.(change := Some(c))];
      ok := AdjustUnlessZero(user, -(q.charge as int), ChangeDebit(c));
      if !ok {
        changes, services := savedChanges, savedServices;
      }
    }

    // finishChange.
    method FinishChange(c: Id, applied: bool) returns (ok: bool)
      modifies this`changes, this`services, this`balances, this`log
      ensures var r := Changes.Finish(old(View()), c, applied);
              (ok <==> r.Some?) && View() == if ok then r.value else old(View())
    {
      var savedChanges, savedServices := changes, services;
      if c >= |changes| || changes[c].status != ChangeApplying {
        return false;
      }
      var x := changes[c];
      changes := changes[c := x.(status := if applied then ChangeApplied else ChangeFailed)];
      if x.service >= |services| || services[x.service].change != Some(c) {
        changes := savedChanges;
        return false;
      }
      var row := services[x.service].(change := None);
      if applied {
        row := row.(product := x.product, price := x.price, options := x.options);
      }
      services := services[x.service := row];
      var credit := x.charge;
      if applied {
        credit := x.credit;
      }
      ok := AdjustUnlessZero(x.user, credit, ChangeReturn(c));
      if !ok {
        changes, services := savedChanges, savedServices;
      }
    }

    // ----- affiliate.go and affiliate_withdrawal.go -----

    // The sum a refund's reversal is reckoned on.
    method RefundedCents(o: Id) returns (sum: int)
      ensures sum == Sum(refunds, Affiliates.RefundedOn(o))
    {
      sum := 0;
      for i := 0 to |refunds|
        invariant sum == Sum(refunds[..i], Affiliates.RefundedOn(o))
      {
        assert refunds[..i + 1][..i] == refunds[..i];
        if refunds[i].order == o && refunds[i].status == RefundCompleted {
          sum := sum + refunds[i].amount;
        }
      }
      assert refunds[..|refunds|] == refunds;
    }

    // reverseAffiliateTx.
    method ReverseCommission(o: Id)
      modifies this`affiliates, this`commissions
      ensures View() == Affiliates.Reverse(old(View()), o)
    {
      var c := Orders.CommissionFor(commissions, o);
      if c == |commissions| {
        return;
      }
      var x := commissions[c];
      var refunded := RefundedCents(o);
      if refunded > x.paid {
        refunded := x.paid;
      }
      var target := if x.paid <= 0 then 0 else x.amount * refunded / x.paid;
      var delta := target - x.reversed;
      if delta <= 0 || x.affiliate >= |affiliates| {
        return;
      }
      commissions := commissions[c := x.(reversed := target)];
      var a := affiliates[x.affiliate];
      affiliates := affiliates[x.affiliate := a.(balance := a.balance - delta, earned := a.earned - delta)];
    }

    // Withdraw.
    method Withdraw(user: Id, amount: int, minimum: nat) returns (ok: bool)
      modifies this`affiliates, this`withdrawals
      ensures var r := Affiliates.Withdraw(old(View()), user, amount, minimum);
              (ok <==> r.Some?) && View() == if ok then r.value else old(View())
    {
      if minimum < 1 || amount < minimum || amount > Affiliates.MAX_WITHDRAWAL {
        return false;
      }
      var a := Affiliates.AffiliateOf(affiliates, user);
      if a == |affiliates| {
        return false;
      }
      if affiliates[a].balance < amount {
        return false;
      }
      affiliates := affiliates[a := affiliates[a].(balance := affiliates[a].balance - amount,
                                                   reserved := affiliates[a].reserved + amount)];
      withdrawals := withdrawals + [Withdrawal(user, a, amount, WithdrawalPending)];
      ok := true;
    }

    // Review: the withdrawal is claimed first, the account afterwards.
    method ReviewWithdrawal(w: Id, approve: bool) returns (ok: bool)
      modifies this`affiliates, this`withdrawals, this`balances, this`log
      ensures var r := Affiliates.Review(old(View()), w, approve);
              (ok <==> r.Some?) && View() == if ok then r.value else old(View())
    {
      if w >= |withdrawals| || withdrawals[w].status != WithdrawalPending {
        return false;
      }
      var savedWithdrawals, savedAffiliates := withdrawals, affiliates;
      var x := withdrawals[w];
      withdrawals := withdrawals[w := x.(status := if approve then WithdrawalApproved else WithdrawalRejected)];
      if x.affiliate >= |affiliates| || affiliates[x.affiliate].reserved < x.amount
         || (approve && affiliates[x.affiliate].balance < 0)
      {
        withdrawals := savedWithdrawals;
        return false;
      }
      var a := affiliates[x.affiliate];
      var row := a.(reserved := a.reserved - x.amount);
      if !approve {
        row := row.(balance := row.balance + x.amount);
      }
      affiliates := affiliates[x.affiliate := row];
      ok := true;
      if approve {
        ok := AdjustBalance(x.user, x.amount, CommissionPayout(w));
        if !ok {
          withdrawals, affiliates := savedWithdrawals, savedAffiliates;
        }
      }
    }

    // ----- refund.go -----

    // The payment-level claim of execute.
    method ClaimPayment(e: Id) returns (ok: bool)
      modifies this`executions, this`intents
      ensures var r := Refunds.ClaimPayment(old(View()), e);
              (ok <==> r.Some?) && View() == if ok then r.value else old(View())
    {
      if e >= |executions| || executions[e].progress != RequestClaimed || executions[e].refund >= |refunds|
         || !Refunds.NeedsChannel(refunds[executions[e].refund])
      {
        return false;
      }
      var p := refunds[executions[e].refund].payment.value;
      if p < |intents| && intents[p].status == IntentPaid {
        intents := intents[p := intents[p].(status := IntentRefunding)];
        executions := executions[e := executions[e].(progress := PaymentClaimed)];
      } else {
        executions := executions[e := executions[e].(progress := LostClaim)];
      }
      ok := true;
    }

    // A refund ends what its order bought: the running services are suspended.
    method RevokeServices(o: Id)
      modifies this`services
      ensures |services| == |old(services)|
      ensures forall k :: 0 <= k < |services| ==> services[k] == Refunds.Revoke(old(services)[k], o)
    {
      for i := 0 to |services|
        invariant |services| == |old(services)|
        invariant forall k :: 0 <= k < i ==> services[k] == Refunds.Revoke(old(services)[k], o)
        invariant forall k :: i <= k < |services| ==> services[k] == old(services)[k]
      {
        if services[i].order == o && services[i].status == ServiceActive {
          services := services[i := services[i].(status := ServiceSuspended, reason := RefundRevoked,
                                                 autoRenew := false)];
        }
      }
    }

    method CloseOrder(o: Id)
      requires o < |orders|
      modifies this`orders, this`services
      ensures View() == Refunds.CloseOrder(old(View()), o)
    {
      orders := orders[o := orders[o].(status := OrderRefunded)];
      RevokeServices(o);
      assert services == Refunds.CloseOrder(old(View()), o).services;
    }

    method ClosePayment(x: Refund)
      modifies this`intents
      ensures View() == Refunds.CloseIntent(old(View()), x)
    {
      if Refunds.NeedsChannel(x) && x.payment.value < |intents| && intents[x.payment.value].status == IntentRefunding {
        intents := intents[x.payment.value := intents[x.payment.value].(status := IntentRefunded)];
      }
    }

    // The closing transaction of execute.
    method CompleteRefund(e: Id) returns (ok: bool)
      modifies this
      ensures var r := Refunds.Complete(old(View()), e);
              (ok <==> r.Some?) && View() == if ok then r.value else old(View())
    {
      hide Affiliates.Reverse, Refunds.MayComplete, Refunds.CloseOrder, Refunds.CloseIntent, Refunds.Complete,
        Wallet.PostUnlessZero;
      var before := View();
      CompleteSteps(before, e);
      if !Refunds.MayComplete(before, e) {
        return false;
      }
      var r := executions[e].refund;
      var x := refunds[r];
      if x.status != RefundProcessing {
        return false;
      }
      executions := executions[e := executions[e].(progress := Closed)];
      refunds := refunds[r := x.(status := RefundCompleted)];
      assert View() == Refunds.Restatus(Refunds.Move(before, e, Closed), r, RefundCompleted);
      ok := AdjustUnlessZero(x.user, x.balance, RefundCredit(r));
      if !ok || x.order >= |orders| || orders[x.order].status != OrderPaid {
        ok := false;
        Rollback(before);
        return;
      }
      CloseOrder(x.order);
      ClosePayment(x);
      ReverseCommission(x.order);
    }

    // ----- renewal_scheduler.go -----

    // Whether a candidate is still due when its transaction looks at it.
    method IsDue(s: Id, listed: Instant, now: Instant, window: nat) returns (due: bool)
      ensures due <==> Due(View(), s, listed, now, window)
    {
      hide Changes.Fenced;
      if s >= |services| || !Billing.Renewable(View(), services[s].user, s) {
        return false;
      }
      var x := services[s];
      if !x.autoRenew || x.expires != Some(listed) || listed > now + window {
        return false;
      }
      var fenced := IsFenced(s);
      due := !fenced && (s, listed) !in renewalKeys;
    }

    // One candidate of autoRenew, in its transaction.
    method AutoRenewOne(s: Id, listed: Instant, now: Instant, window: nat) returns (ok: bool)
      modifies this
      ensures var r := Billing.AutoRenew(old(View()), s, listed, now, window);
              (ok <==> r.Some?) && View() == if ok then r.value else old(View())
    {
      hide Billing.ApplyRenewal, Due, Billing.AutoRenew, Wallet.Debit;
      var before := View();
      var due := IsDue(s, listed, now, window);
      DueRenews(before, s, listed, now, window);
      if !due {
        return false;
      }
      renewalKeys := renewalKeys + {(s, listed)};
      assert View() == before.(renewalKeys := before.renewalKeys + {(s, listed)});
      ok := DebitAndRenew(s, now);
      if !ok {
        Rollback(before);
      }
    }

    // The debit, the renewal and its paid invoice.
    method DebitAndRenew(s: Id, now: Instant) returns (ok: bool)
      requires s < |services| && services[s].cycle != OneTime && services[s].change.None?
      modifies this
      ensures var x := old(services)[s];
              match Wallet.Debit(old(View()), x.user, x.price, ServiceDebit(s))
              case None => !ok
              case Some(e) =>
                var f := Billing.ApplyRenewal(e, s, now);
                ok
                  && View() == f.(invoices := f.invoices + [Invoice(x.user, None, Some(s), None, InvoicePaid, x.price)])
    {
      hide Billing.ApplyRenewal;
      var x := services[s];
      ok := AdjustUnlessZero(x.user, -(x.price as int), ServiceDebit(s));
      if !ok {
        return;
      }
      ok := ApplyRenewal(s, x, now);
      if !ok {
        assert false;
      }
      invoices := invoices + [Invoice(x.user, None, Some(s), None, InvoicePaid, x.price)];
    }

    // autoRenew: candidates are listed once, and renewed one by one against the
    // expiry they were listed with; one that fails does not stop the others.
    method AutoRenewAll(now: Instant, window: nat)
      modifies this
      ensures View() == RenewEach(old(View()), Candidates(old(services)), now, window)
    {
      hide Billing.AutoRenew, Candidates;
      var listed := Candidates(services);
      for i := 0 to |listed|
        invariant View() == RenewEach(old(View()), listed[..i], now, window)
      {
        assert listed[..i + 1][..i] == listed[..i];
        if listed[i].1 <= now + window {
          var _ := AutoRenewOne(listed[i].0, listed[i].1, now, window);
        } else {
          NotYetDue(View(), listed[i].0, listed[i].1, now, window);
        }
      }
      assert listed[..|listed|] == listed;
    }

    // ----- the remaining steps, each a single guarded write -----

    method Register(referrer: Option<Id>) returns (ok: bool)
      modifies this`balances, this`referrers
      ensures var r := Affiliates.Register(old(View()), referrer);
              (ok <==> r.Some?) && View() == if ok then r.value else old(View())
    {
      if referrer.Some? && referrer.value >= |affiliates| {
        return false;
      }
      balances, referrers := balances + [0], referrers + [referrer];
      ok := true;
    }

    method Recharge(user: Id, amount: int) returns (ok: bool)
      modifies this`balances, this`log
      ensures var r := Wallet.Recharge(old(View()), user, amount);
              (ok <==> r.Some?) && View() == if ok then r.value else old(View())
    {
      if amount <= 0 || amount > Wallet.MAX_CREDIT {
        return false;
      }
      ok := AdjustBalance(user, amount, Recharged);
    }

    method RenewNow(user: Id, s: Id, now: Instant) returns (ok: bool)
      modifies this
      ensures var r := Billing.RenewNow(old(View()), user, s, now);
              (ok <==> r.Some?) && View() == if ok then r.value else old(View())
    {
      hide Busy, Billing.Renew;
      var before := View();
      if LoadTarget(before, user, ForRenewal, s).None? {
        return false;
      }
      var busy := IsBusy(user, RenewalKey(s));
      if busy {
        return false;
      }
      ok := Renew(user, s, now, true);
      if !ok {
        Rollback(before);
      }
    }

    method CreateRenewalInvoice(user: Id, s: Id) returns (ok: bool)
      modifies this`invoices
      ensures var r := Billing.RenewalInvoice(old(View()), user, s);
              (ok <==> r.Some?) && View() == if ok then r.value else old(View())
    {
      if !Billing.Renewable(View(), user, s) {
        return false;
      }
      for i := 0 to |invoices|
        invariant invoices == old(invoices) && forall j :: 0 <= j < i ==> !Billing.UnpaidRenewal(invoices[j], s)
      {
        if Billing.UnpaidRenewal(invoices[i], s) {
          assert Billing.UnpaidRenewal(View().invoices[i], s);
          return false;
        }
      }
      invoices := invoices + [Invoice(user, None, Some(s), None, InvoiceUnpaid, services[s].price)];
      ok := true;
    }

    method CreateTrafficInvoice(user: Id, s: Id, gb: nat, price: Option<int>) returns (ok: bool)
      modifies this`invoices
      ensures var r := Billing.TrafficInvoice(old(View()), user, s, gb, price);
              (ok <==> r.Some?) && View() == if ok then r.value else old(View())
    {
      if gb < 1 || gb > Billing.MAX_TRAFFIC || s >= |services| || services[s].user != user
         || !(services[s].status == ServiceActive
              || (services[s].status == ServiceSuspended && services[s].reason == TrafficExceeded))
         || price.None? || price.value <= 0
      {
        return false;
      }
      for i := 0 to |invoices|
        invariant invoices == old(invoices) && forall j :: 0 <= j < i ==> !Billing.UnpaidTraffic(invoices[j], s)
      {
        if Billing.UnpaidTraffic(invoices[i], s) {
          assert Billing.UnpaidTraffic(View().invoices[i], s);
          return false;
        }
      }
      invoices := invoices + [Invoice(user, None, Some(s), Some(gb), InvoiceUnpaid, price.value)];
      ok := true;
    }

    method SetService(s: Id, status: ServiceStatus, reason: Reason, autoRenew: bool, hosted: bool) returns (ok: bool)
      modifies this`services
      ensures var r := Billing.SetService(old(View()), s, status, reason, autoRenew, hosted);
              (ok <==> r.Some?) && View() == if ok then r.value else old(View())
    {
      if s >= |services| {
        return false;
      }
      services := services[s := services[s].(status := status, reason := reason, autoRenew := autoRenew,
                                             hosted := hosted)];
      ok := true;
    }

    method CancelIntent(user: Id, i: Id) returns (ok: bool)
      modifies this`intents, this`balances, this`log
      ensures var r := Payments.CancelIntent(old(View()), user, i);
              (ok <==> r.Some?) && View() == if ok then r.value else old(View())
    {
      if i >= |intents| || intents[i].user != user {
        return false;
      }
      ok := FailIntent(i);
    }

    // The first receipt for a payment that failed meanwhile is kept; a repeated
    // one changes nothing.
    method LateReceipt(i: Id, paid: int) returns (ok: bool)
      modifies this`intents
      ensures var r := Payments.LateReceipt(old(View()), i, paid);
              (ok <==> r.Some?) && View() == if ok then r.value else old(View())
    {
      if i >= |intents| || paid <= 0 || intents[i].status != IntentFailed {
        return false;
      }
      intents := intents[i := intents[i].(status := IntentLate, key := None, received := paid)];
      ok := true;
    }

    // Retry's claim, and its retreat when the outcome is in doubt.
    method ClaimChange(c: Id) returns (ok: bool)
      modifies this`changes
      ensures var r := Changes.Claim(old(View()), c);
              (ok <==> r.Some?) && View() == if ok then r.value else old(View())
    {
      if c >= |changes| || !Changes.Open(changes[c].status) || changes[c].service >= |services|
         || services[changes[c].service].change != Some(c)
      {
        return false;
      }
      changes := changes[c := changes[c].(status := ChangeApplying)];
      ok := true;
    }

    method DoubtChange(c: Id) returns (ok: bool)
      modifies this`changes
      ensures var r := Changes.Doubt(old(View()), c);
              (ok <==> r.Some?) && View() == if ok then r.value else old(View())
    {
      if c >= |changes| || changes[c].status != ChangeApplying {
        return false;
      }
      changes := changes[c := changes[c].(status := ChangeUncertain)];
      ok := true;
    }

    // RefundService.Create, after its reads.
    method RequestRefund(user: Id, o: Id, payment: Option<Id>) returns (ok: bool)
      modifies this`refunds
      ensures var r := Refunds.Request(old(View()), user, o, payment);
              (ok <==> r.Some?) && View() == if ok then r.value else old(View())
    {
      if o >= |orders| || orders[o].user != user
        || (orders[o].status != OrderPaid && orders[o].status != OrderRefunded) {
        return false;
      }
      var channel, balance := 0, orders[o].total;
      if payment.Some? {
        var p := payment.value;
        if p >= |intents| || intents[p].user != user || intents[p].purpose != ForOrder || intents[p].target != o
           || (intents[p].status != IntentPaid && intents[p].status != IntentRefunding
               && intents[p].status != IntentRefunded)
        {
          return false;
        }
        channel, balance := intents[p].amount, intents[p].balance;
      }
      if channel + balance <= 0 {
        return false;
      }
      refunds := refunds + [Refund(user, o, payment, channel + balance, channel, balance, RefundPending)];
      ok := true;
    }

    method ReviewRefund(r: Id, approve: bool) returns (ok: bool)
      modifies this`refunds
      ensures var f := Refunds.Review(old(View()), r, approve);
              (ok <==> f.Some?) && View() == if ok then f.value else old(View())
    {
      if r >= |refunds| || refunds[r].status != RefundPending {
        return false;
      }
      refunds := refunds[r := refunds[r].(status := if approve then RefundApproved else RefundRejected)];
      ok := true;
    }

    method CancelRefund(user: Id, r: Id) returns (ok: bool)
      modifies this`refunds
      ensures var f := Refunds.Cancel(old(View()), user, r);
              (ok <==> f.Some?) && View() == if ok then f.value else old(View())
    {
      if r >= |refunds| || refunds[r].user != user || refunds[r].status != RefundPending {
        return false;
      }
      refunds := refunds[r := refunds[r].(status := RefundCanceled)];
      ok := true;
    }

    // The request-level claim of execute.
    method StartRefund(r: Id) returns (ok: bool)
      modifies this`refunds, this`executions
      ensures var f := Refunds.Start(old(View()), r);
              (ok <==> f.Some?) && View() == if ok then f.value else old(View())
    {
      if r >= |refunds| {
        return false;
      }
      var status := refunds[r].status;
      if status != RefundPending && status != RefundApproved && status != RefundFailed {
        return false;
      }
      refunds := refunds[r := refunds[r].(status := RefundProcessing)];
      executions := executions + [Execution(r, RequestClaimed, None)];
      ok := true;
    }

    // refundChannel: the claim is read again, and the channel answers.
    method AskChannel(e: Id, reply: Reply) returns (ok: bool)
      modifies this`executions
      ensures var r := Refunds.AskChannel(old(View()), e, reply);
              (ok <==> r.Some?) && View() == if ok then r.value else old(View())
    {
      if e >= |executions| || executions[e].progress != PaymentClaimed || executions[e].refund >= |refunds|
         || refunds[executions[e].refund].payment.None?
      {
        return false;
      }
      var p := refunds[executions[e].refund].payment.value;
      var answer := reply;
      if p >= |intents| || intents[p].status != IntentRefunding {
        answer := Rejected;
      }
      executions := executions[e := executions[e].(progress := Replied, reply := Some(answer))];
      ok := true;
    }

    method ReleasePayment(e: Id) returns (ok: bool)
      modifies this`executions, this`intents
      ensures var r := Refunds.Release(old(View()), e);
              (ok <==> r.Some?) && View() == if ok then r.value else old(View())
    {
      if e >= |executions| || executions[e].progress != Replied || executions[e].refund >= |refunds|
         || executions[e].reply != Some(Rejected) || refunds[executions[e].refund].payment.None?
      {
        return false;
      }
      var p := refunds[executions[e].refund].payment.value;
      executions := executions[e := executions[e].(progress := Released)];
      if p < |intents| && intents[p].status == IntentRefunding {
        intents := intents[p := intents[p].(status := IntentPaid)];
      }
      ok := true;
    }

    // The closing transaction did not commit.
    method AbortRefund(e: Id) returns (ok: bool)
      modifies this`executions
      ensures var r := Refunds.Abort(old(View()), e);
              (ok <==> r.Some?) && View() == if ok then r.value else old(View())
    {
      if !Refunds.MayComplete(View(), e) {
        return false;
      }
      executions := executions[e := executions[e].(progress := Aborted)];
      ok := true;
    }

    // The last write of a failed execution.
    method FailRefund(e: Id) returns (ok: bool)
      modifies this`executions, this`refunds
      ensures var r := Refunds.Fail(old(View()), e);
              (ok <==> r.Some?) && View() == if ok then r.value else old(View())
    {
      if e >= |executions| || executions[e].refund >= |refunds| || (executions[e].progress != LostClaim
         && executions[e].progress != Released && executions[e].progress != Aborted)
      {
        return false;
      }
      var r := executions[e].refund;
      executions := executions[e := executions[e].(progress := Closed)];
      if refunds[r].status == RefundProcessing {
        refunds := refunds[r := refunds[r].(status := RefundFailed)];
      }
      ok := true;
    }

    method JoinAffiliates(user: Id) returns (ok: bool)
      modifies this`affiliates
      ensures var r := Affiliates.Join(old(View()), user);
              (ok <==> r.Some?) && View() == if ok then r.value else old(View())
    {
      if user >= |balances| {
        return false;
      }
      if Affiliates.AffiliateOf(affiliates, user) == |affiliates| {
        affiliates := affiliates + [Affiliate(user, 0, 0, 0)];
      }
      ok := true;
    }

    // ----- any run -----

    method ServeAccount(op: AccountOp)
      modifies this
      ensures View() == Step(old(View()), Account(op))
    {
      match op
      case Register(referrer) => var _ := Register(referrer);
      case Recharge(user, amount) => var _ := Recharge(user, amount);
      case CreditExternal(plugin, external, user, amount) => var _ := CreditExternal(plugin, external, user, amount);
      case AdjustByAdmin(user, amount) => var _ := AdjustBalance(user, amount, AdminAdjust);
    }

    method ServeSale(op: OrderOp)
      modifies this
      ensures View() == Step(old(View()), Sale(op))
    {
      hide Orders.Create, Orders.Pay, Orders.Cancel;
      match op
      case CreateOrder(user, lines, discount) => var _ := CreateOrder(user, lines, discount);
      case PayOrder(user, o, now, rate) => var _ := PayOrder(user, o, now, rate);
      case CancelOrder(user, o) => var _ := CancelOrder(user, o);
    }

    method ServeBill(op: BillingOp)
      modifies this
      ensures View() == Step(old(View()), Bill(op))
    {
      hide Billing.RenewNow, Billing.RenewalInvoice, Billing.TrafficInvoice, Billing.AutoRenew, Billing.SetService;
      match op
      case RenewNow(user, s, now) => var _ := RenewNow(user, s, now);
      case CreateRenewalInvoice(user, s) => var _ := CreateRenewalInvoice(user, s);
      case CreateTrafficInvoice(user, s, gb, price) => var _ := CreateTrafficInvoice(user, s, gb, price);
      case AutoRenew(s, listed, now, window) => var _ := AutoRenewOne(s, listed, now, window);
      case SetService(s, status, reason, autoRenew, hosted) =>
        var _ := SetService(s, status, reason, autoRenew, hosted);
    }

    method ServePayment(op: PaymentOp)
      modifies this
      ensures View() == Step(old(View()), Payment(op))
    {
      hide Payments.SettleFromWallet, Payments.CreateIntent, Payments.CancelIntent, Payments.FailIntent,
        Payments.Finalize, Payments.LateReceipt;
      match op
      case SettleInvoice(user, i, now, rate, price) => var _ := SettleFromWallet(user, i, now, rate, price);
      case CreateIntent(user, purpose, target, total, wish, quoted, now, rate, price) =>
        var _ := CreateIntent(user, purpose, target, total, wish, quoted, now, rate, price);
      case CancelIntent(user, i) => var _ := CancelIntent(user, i);
      case VoidIntent(i) => var _ := FailIntent(i);
      case Finalize(i, paid, now, rate, price) => var _ := Finalize(i, paid, now, rate, price);
      case LateReceipt(i, paid) => var _ := LateReceipt(i, paid);
    }

    method ServeChange(op: ChangeOp)
      modifies this
      ensures View() == Step(old(View()), ProductChange(op))
    {
      hide Changes.Reserve, Changes.Claim, Changes.Doubt, Changes.Finish;
      match op
      case ReserveChange(user, s, token, snapshot, request) =>
        var _ := ReserveChange(user, s, token, snapshot, request);
      case ClaimChange(c) => var _ := ClaimChange(c);
      case DoubtChange(c) => var _ := DoubtChange(c);
      case FinishChange(c, applied) => var _ := FinishChange(c, applied);
    }

    method ServeRefund(op: RefundOp)
      modifies this
      ensures View() == Step(old(View()), Repay(op))
    {
      hide Refunds.Request, Refunds.Review, Refunds.Cancel, Refunds.Start;
      match op
      case RequestRefund(user, o, payment) => var _ := RequestRefund(user, o, payment);
      case ReviewRefund(r, approve) => var _ := ReviewRefund(r, approve);
      case CancelRefund(user, r) => var _ := CancelRefund(user, r);
      case StartRefund(r) => var _ := StartRefund(r);
      case _ => ServeExecution(op);
    }

    // What an execution does after its request was claimed.
    method ServeExecution(op: RefundOp)
      requires !op.RequestRefund? && !op.ReviewRefund? && !op.CancelRefund? && !op.StartRefund?
      modifies this
      ensures View() == Step(old(View()), Repay(op))
    {
      hide Refunds.ClaimPayment, Refunds.AskChannel, Refunds.Release, Refunds.Complete, Refunds.Abort, Refunds.Fail;
      match op
      case ClaimPayment(e) => var _ := ClaimPayment(e);
      case AskChannel(e, reply) => var _ := AskChannel(e, reply);
      case ReleasePayment(e) => var _ := ReleasePayment(e);
      case CompleteRefund(e) => var _ := CompleteRefund(e);
      case AbortRefund(e) => var _ := AbortRefund(e);
      case FailRefund(e) => var _ := FailRefund(e);
    }

    method ServeShare(op: AffiliateOp)
      modifies this
      ensures View() == Step(old(View()), Share(op))
    {
      hide Affiliates.Join, Affiliates.Withdraw, Affiliates.Review;
      match op
      case JoinAffiliates(user) => var _ := JoinAffiliates(user);
      case Withdraw(user, amount, minimum) => var _ := Withdraw(user, amount, minimum);
      case ReviewWithdrawal(w, approve) => var _ := ReviewWithdrawal(w, approve);
    }

    method Serve(op: Op)
      modifies this
      ensures View() == Step(old(View()), op)
    {
      hide Step;
      match op
      case Account(a) => ServeAccount(a);
      case Sale(x) => ServeSale(x);
      case Bill(b) => ServeBill(b);
      case Payment(p) => ServePayment(p);
      case ProductChange(c) => ServeChange(c);
      case Repay(r) => ServeRefund(r);
      case Share(x) => ServeShare(x);
    }

    // Any sequence of steps, by any users: the tables written in place are those of
    // the machine's run, and everything that is proved of its runs holds of them.
    method ServeAll(ops: seq<Op>)
      requires Theorems.Inv(View())
      modifies this
      ensures View() == Run(old(View()), ops)
      ensures Theorems.Inv(View())
    {
      hide Step, Theorems.Inv;
      for i := 0 to |ops|
        invariant View() == Run(old(View()), ops[..i]) && Theorems.Inv(View())
      {
        assert ops[..i + 1][..i] == ops[..i];
        Theorems.StepInv(View(), ops[i]);
        Serve(ops[i]);
      }
      assert ops[..|ops|] == ops;
    }
  }

  // The services that renew themselves, with the expiry they have now.
  function Candidates(services: seq<Service>): seq<(Id, Instant)> {
    if |services| == 0 then []
    else
      var s := |services| - 1;
      var x := services[s];
      var rest := Candidates(services[..s]);
      if x.autoRenew && x.expires.Some? && (x.status == ServiceActive || x.status == ServiceSuspended)
      then rest + [(s, x.expires.value)] else rest
  }

  function RenewEach(d: Db, listed: seq<(Id, Instant)>, now: Instant, window: nat): Db {
    if |listed| == 0 then d
    else
      var e := RenewEach(d, listed[..|listed| - 1], now, window);
      var x := listed[|listed| - 1];
      match Billing.AutoRenew(e, x.0, x.1, now, window)
      case None => e
      case Some(f) => f
  }

  lemma NotYetDue(d: Db, s: Id, listed: Instant, now: Instant, window: nat)
    requires listed > now + window
    ensures Billing.AutoRenew(d, s, listed, now, window).None?
  {
  }

  predicate Due(d: Db, s: Id, listed: Instant, now: Instant, window: nat) {
    && s < |d.services| && Billing.Renewable(d, d.services[s].user, s)
    && d.services[s].autoRenew && d.services[s].expires == Some(listed) && listed <= now + window
    && !Changes.Fenced(d, s) && (s, listed) !in d.renewalKeys
  }

  // The fence of a change asks for exactly what an automatic renewal waits for.
  lemma DueRenews(d: Db, s: Id, listed: Instant, now: Instant, window: nat)
    ensures !Due(d, s, listed, now, window) ==> Billing.AutoRenew(d, s, listed, now, window).None?
    ensures Due(d, s, listed, now, window) ==>
      s < |d.services| && d.services[s].cycle != OneTime && d.services[s].change.None?
      && Billing.AutoRenew(d, s, listed, now, window)
         == (match Wallet.Debit(d.(renewalKeys := d.renewalKeys + {(s, listed)}), d.services[s].user,
                                d.services[s].price, ServiceDebit(s))
             case None => None
             case Some(e) =>
               var f := Billing.ApplyRenewal(e, s, now);
               Some(f.(invoices := f.invoices
                       + [Invoice(d.services[s].user, None, Some(s), None, InvoicePaid, d.services[s].price)])))
  {
    hide Billing.ApplyRenewal, Wallet.Debit;
  }

  predicate Admits(d: Db, user: Id, purpose: Purpose, target: Id, total: int, quoted: Option<Instant>) {
    purpose == ForRecharge
    || (LoadTarget(d, user, purpose, target).Some? && Payable(d, purpose, target, quoted) == Some(total)
        && !Busy(d, user, LoadTarget(d, user, purpose, target).value)
        && !KeyTaken(d, LoadTarget(d, user, purpose, target).value))
  }

  predicate Askable(d: Db, user: Id, purpose: Purpose, total: int, wish: int) {
    && user < |d.bank.balances| && wish >= 0 && total > 0
    && (purpose == ForRecharge ==> total <= Wallet.MAX_CREDIT)
    && (wish > 0 ==> purpose != ForRecharge && purpose != ForRenewal)
  }

  lemma CreateRefuses(d: Db, user: Id, purpose: Purpose, target: Id, total: int, wish: int,
                      quoted: Option<Instant>, now: Instant, rate: nat, price: Option<int>)
    ensures !Askable(d, user, purpose, total, wish)
      ==> Payments.CreateIntent(d, user, purpose, target, total, wish, quoted, now, rate, price).None?
  {
    hide LoadTarget, Payable, Busy, KeyTaken, Payments.OpenIntent, Wallet.PostUnlessZero;
  }

  // The transaction of Create, one part after the other.
  lemma CreateSteps(d: Db, user: Id, purpose: Purpose, target: Id, total: int, wish: int,
                    quoted: Option<Instant>, now: Instant, rate: nat, price: Option<int>)
    requires Askable(d, user, purpose, total, wish)
    ensures var balance := if wish > total then total else wish;
            var key := if purpose == ForRecharge then None else LoadTarget(d, user, purpose, target);
            Payments.CreateIntent(d, user, purpose, target, total, wish, quoted, now, rate, price)
            == if !Admits(d, user, purpose, target, total, quoted) then None
               else
                 match Wallet.PostUnlessZero(d, user, -balance, IntentDebit(purpose, target))
                 case None => None
                 case Some(e) =>
                   Payments.OpenIntent(
                     e, Intent(user, purpose, target, total - balance, balance, IntentPending, key, 0), now,
                     rate, price)
  {
    hide LoadTarget, Payable, Busy, KeyTaken, Payments.OpenIntent, Wallet.PostUnlessZero;
  }

  // The closing transaction, one write after the other.
  lemma CompleteSteps(d: Db, e: Id)
    ensures Refunds.MayComplete(d, e) ==> e < |d.executions| && d.executions[e].refund < |d.refunds|
    ensures !Refunds.MayComplete(d, e) ==> Refunds.Complete(d, e).None?
    ensures Refunds.MayComplete(d, e) ==>
      var r := d.executions[e].refund;
      var x := d.refunds[r];
      Refunds.Complete(d, e) ==
        if x.status != RefundProcessing || x.order >= |d.orders| || d.orders[x.order].status != OrderPaid then None
        else
          match Wallet.PostUnlessZero(Refunds.Restatus(Refunds.Move(d, e, Closed), r, RefundCompleted), x.user,
                                      x.balance, RefundCredit(r))
          case None => None
          case Some(f) =>
            if x.order < |f.orders|
            then Some(Affiliates.Reverse(Refunds.CloseIntent(Refunds.CloseOrder(f, x.order), x), x.order)) else None
  {
    hide Affiliates.Reverse, Refunds.CloseOrder, Refunds.CloseIntent;
  }

  // Settling a target neither reads nor writes the payments.
  lemma SettleIgnoresIntents(d: Db, intents: seq<Intent>, user: Id, purpose: Purpose, target: Id, now: Instant,
                             rate: nat, price: Option<int>)
    ensures Payments.SettleTarget(d.(intents := intents), user, purpose, target, now, rate, price)
         == match Payments.SettleTarget(d, user, purpose, target, now, rate, price)
            case None => None
            case Some(e) => Some(e.(intents := intents))
  {
    match purpose
    case ForRecharge =>
    case ForOrder => OrderIgnoresIntents(d, intents, user, target, now, rate);
    case ForRenewal => RenewalIgnoresIntents(d, intents, user, target, now);
    case ForInvoice => InvoiceIgnoresIntents(d, intents, user, target, now, rate, price);
  }

  lemma OrderIgnoresIntents(d: Db, intents: seq<Intent>, user: Id, o: Id, now: Instant, rate: nat)
    ensures Orders.Settle(d.(intents := intents), user, o, now, rate)
         == match Orders.Settle(d, user, o, now, rate)
            case None => None
            case Some(e) => Some(e.(intents := intents))
  {
    hide Orders.NewServices, Orders.NewService;
  }

  lemma RenewalIgnoresIntents(d: Db, intents: seq<Intent>, user: Id, s: Id, now: Instant)
    ensures Billing.Renew(d.(intents := intents), user, s, now, false)
         == match Billing.Renew(d, user, s, now, false)
            case None => None
            case Some(e) => Some(e.(intents := intents))
  {
    hide AddMonths;
  }

  lemma InvoiceIgnoresIntents(d: Db, intents: seq<Intent>, user: Id, i: Id, now: Instant, rate: nat, price: Option<int>)
    ensures Billing.SettleInvoice(d.(intents := intents), user, i, now, rate, price)
         == match Billing.SettleInvoice(d, user, i, now, rate, price)
            case None => None
            case Some(e) => Some(e.(intents := intents))
  {
    hide AddMonths, Orders.Settle;
    if i < |d.invoices| && d.invoices[i].order.Some? {
      OrderIgnoresIntents(d, intents, user, d.invoices[i].order.value, now, rate);
    }
  }
}
