// Conservation of money: every balance is a function of the statuses of the rows
// around it, whatever the order in which the steps of the system ran.
module Conservation {
  import opened Options
  import opened Calendar
  import opened Sums
  import opened Tables
  import opened Targets
  import opened Machine
  import opened Integrity
  import Wallet
  import Orders
  import Billing
  import Payments
  import Changes
  import Refunds
  import Affiliates

  predicate Collected(s: IntentStatus) {
    s == IntentPaid || s == IntentRefunding || s == IntentRefunded
  }

  // What an intent has moved through its owner's wallet so far: a recharge adds
  // what the channel collected; any other holds its wallet part unless it failed.
  function IntentNet(x: Intent): int {
    if x.purpose == ForRecharge then (if Collected(x.status) then x.amount else 0)
    else if x.status == IntentFailed || x.status == IntentLate then 0
    else -(x.balance as int)
  }

  // An open change holds its charge; an applied one keeps it and gives the
  // credit; a failed one has given everything back.
  function ChangeNet(x: Change): int {
    match x.status
    case ChangeApplied => x.credit - x.charge
    case ChangeFailed => 0
    case _ => -(x.charge as int)
  }

  function RefundNet(x: Refund): int { if x.status == RefundCompleted then x.balance else 0 }

  function WithdrawalNet(x: Withdrawal): int { if x.status == WithdrawalApproved then x.amount else 0 }

  // Ledger entries that stand on their own, with no row to account for them.
  predicate Direct(ref: Ref) {
    ref.Recharged? || ref.AdminAdjust? || ref.OrderDebit? || ref.InvoiceDebit? || ref.ServiceDebit?
  }

  function IntentFor(u: Id): Intent -> int { (x: Intent) => if x.user == u then IntentNet(x) else 0 }
  function ChangeFor(u: Id): Change -> int { (x: Change) => if x.user == u then ChangeNet(x) else 0 }
  function RefundFor(u: Id): Refund -> int { (x: Refund) => if x.user == u then RefundNet(x) else 0 }
  function WithdrawalFor(u: Id): Withdrawal -> int { (x: Withdrawal) => if x.user == u then WithdrawalNet(x) else 0 }
  function PluginFor(u: Id): PluginPayment -> int { (x: PluginPayment) => if x.user == u then x.amount else 0 }
  function DirectFor(u: Id): Entry -> int { (x: Entry) => if x.user == u && Direct(x.ref) then x.amount else 0 }

  // The balance the rows call for.
  function Net(d: Db, u: Id): int {
    Sum(d.bank.log, DirectFor(u)) + Sum(d.plugins, PluginFor(u)) + Sum(d.intents, IntentFor(u))
    + Sum(d.changes, ChangeFor(u)) + Sum(d.refunds, RefundFor(u)) + Sum(d.withdrawals, WithdrawalFor(u))
  }

  ghost predicate Balanced(d: Db) {
    && Wallet.Ledger(d.bank)
    && forall u :: 0 <= u < |d.bank.balances| ==> d.bank.balances[u] == Net(d, u)
  }

  // From d to e the rows call for amount more in one user's balance, and for the
  // same in everybody else's.
  ghost predicate NetMoves(d: Db, e: Db, user: Id, amount: int) {
    forall u: Id :: Net(e, u) == Net(d, u) + (if u == user then amount else 0)
  }

  // ----- one row at a time -----

  lemma EntryMoves(d: Db, x: Entry)
    ensures NetMoves(d, d.(bank := d.bank.(log := d.bank.log + [x])), x.user, if Direct(x.ref) then x.amount else 0)
  {
    forall u: Id { SumAppend(d.bank.log, x, DirectFor(u)); }
  }

  lemma PluginMoves(d: Db, x: PluginPayment)
    ensures NetMoves(d, d.(plugins := d.plugins + [x]), x.user, x.amount)
  {
    forall u: Id { SumAppend(d.plugins, x, PluginFor(u)); }
  }

  lemma NewIntentMoves(d: Db, x: Intent)
    ensures NetMoves(d, d.(intents := d.intents + [x]), x.user, IntentNet(x))
  {
    forall u: Id { SumAppend(d.intents, x, IntentFor(u)); }
  }

  lemma IntentMoves(d: Db, i: Id, y: Intent)
    requires i < |d.intents| && d.intents[i].user == y.user
    ensures NetMoves(d, d.(intents := d.intents[i := y]), y.user, IntentNet(y) - IntentNet(d.intents[i]))
  {
    forall u: Id { SumUpdate(d.intents, i, y, IntentFor(u)); }
  }

  lemma NewChangeMoves(d: Db, x: Change)
    ensures NetMoves(d, d.(changes := d.changes + [x]), x.user, ChangeNet(x))
  {
    forall u: Id { SumAppend(d.changes, x, ChangeFor(u)); }
  }

  lemma ChangeMoves(d: Db, c: Id, y: Change)
    requires c < |d.changes| && d.changes[c].user == y.user
    ensures NetMoves(d, d.(changes := d.changes[c := y]), y.user, ChangeNet(y) - ChangeNet(d.changes[c]))
  {
    forall u: Id { SumUpdate(d.changes, c, y, ChangeFor(u)); }
  }

  lemma NewRefundMoves(d: Db, x: Refund)
    ensures NetMoves(d, d.(refunds := d.refunds + [x]), x.user, RefundNet(x))
  {
    forall u: Id { SumAppend(d.refunds, x, RefundFor(u)); }
  }

  lemma RefundMoves(d: Db, r: Id, y: Refund)
    requires r < |d.refunds| && d.refunds[r].user == y.user
    ensures NetMoves(d, d.(refunds := d.refunds[r := y]), y.user, RefundNet(y) - RefundNet(d.refunds[r]))
  {
    forall u: Id { SumUpdate(d.refunds, r, y, RefundFor(u)); }
  }

  lemma NewWithdrawalMoves(d: Db, x: Withdrawal)
    ensures NetMoves(d, d.(withdrawals := d.withdrawals + [x]), x.user, WithdrawalNet(x))
  {
    forall u: Id { SumAppend(d.withdrawals, x, WithdrawalFor(u)); }
  }

  lemma WithdrawalMoves(d: Db, w: Id, y: Withdrawal)
    requires w < |d.withdrawals| && d.withdrawals[w].user == y.user
    ensures NetMoves(d, d.(withdrawals := d.withdrawals[w := y]), y.user,
                     WithdrawalNet(y) - WithdrawalNet(d.withdrawals[w]))
  {
    forall u: Id { SumUpdate(d.withdrawals, w, y, WithdrawalFor(u)); }
  }

  // Net reads only these tables.
  ghost predicate SameMoney(d: Db, e: Db) {
    e.bank == d.bank && e.plugins == d.plugins && e.intents == d.intents
    && e.changes == d.changes && e.refunds == d.refunds && e.withdrawals == d.withdrawals
  }

  // ----- posting -----

  // A posting moves the balance; Owing(d, user, amount) says the rows call for
  // amount more than the balance holds.
  ghost predicate Owing(d: Db, user: Id, amount: int) {
    && Wallet.Ledger(d.bank)
    && forall u :: 0 <= u < |d.bank.balances| ==> d.bank.balances[u] + (if u == user then amount else 0) == Net(d, u)
  }

  lemma PostSettles(d: Db, user: Id, amount: int, ref: Ref, owing: int)
    requires Owing(d, user, owing) && Wallet.PostUnlessZero(d, user, amount, ref).Some?
    ensures Owing(Wallet.PostUnlessZero(d, user, amount, ref).value, user, owing - (if Direct(ref) then 0 else amount))
  {
    if amount != 0 {
      var e := Wallet.PostUnlessZero(d, user, amount, ref).value;
      Wallet.AdjustKeepsLedger(d.bank, user, amount, ref);
      EntryMoves(d, e.bank.log[|d.bank.log|]);
      forall u | 0 <= u < |e.bank.balances|
        ensures Net(e, u) == Net(d.(bank := d.bank.(log := e.bank.log)), u)
      {
      }
    }
  }

  lemma RowsCallFor(d: Db, e: Db, user: Id, owing: int, amount: int)
    requires Owing(d, user, owing) && e.bank == d.bank && NetMoves(d, e, user, amount)
    ensures Owing(e, user, owing + amount)
  {
  }

  lemma SameMoneyOwing(d: Db, e: Db, user: Id, owing: int)
    requires Owing(d, user, owing) && SameMoney(d, e)
    ensures Owing(e, user, owing)
  {
  }

  lemma BalancedIsOwingNothing(d: Db, user: Id)
    ensures Balanced(d) <==> Owing(d, user, 0)
  {
  }

  // ----- the steps -----

  lemma DebitBalanced(d: Db, user: Id, amount: nat, ref: Ref)
    requires Balanced(d) && Direct(ref) && Wallet.Debit(d, user, amount, ref).Some?
    ensures Balanced(Wallet.Debit(d, user, amount, ref).value)
  {
    BalancedIsOwingNothing(d, user);
    PostSettles(d, user, -(amount as int), ref, 0);
    BalancedIsOwingNothing(Wallet.Debit(d, user, amount, ref).value, user);
  }

  lemma SalesBalanced(d: Db, e: Db)
    requires Balanced(d) && SameMoney(d, e)
    ensures Balanced(e)
  {
  }

  lemma SettleOrderBalanced(d: Db, user: Id, o: Id, now: Instant, rate: nat)
    requires Balanced(d)
    ensures var r := Orders.Settle(d, user, o, now, rate); r.Some? ==> Balanced(r.value)
  {
    hide Balanced;
    var r := Orders.Settle(d, user, o, now, rate);
    if r.Some? { SalesBalanced(d, r.value); }
  }

  lemma RenewBalanced(d: Db, user: Id, s: Id, now: Instant)
    requires Balanced(d)
    ensures var r := Billing.Renew(d, user, s, now, true); r.Some? ==> Balanced(r.value)
  {
    hide Balanced;
    var r := Billing.Renew(d, user, s, now, true);
    if r.Some? {
      DebitBalanced(d, user, d.services[s].price, ServiceDebit(s));
      SalesBalanced(Wallet.Debit(d, user, d.services[s].price, ServiceDebit(s)).value, r.value);
    }
  }

  lemma AutoRenewBalanced(d: Db, s: Id, listed: Instant, now: Instant, window: nat)
    requires Balanced(d)
    ensures var r := Billing.AutoRenew(d, s, listed, now, window); r.Some? ==> Balanced(r.value)
  {
    hide Balanced;
    var r := Billing.AutoRenew(d, s, listed, now, window);
    if r.Some? {
      var x := d.services[s];
      var c := d.(renewalKeys := d.renewalKeys + {(s, listed)});
      SalesBalanced(d, c);
      DebitBalanced(c, x.user, x.price, ServiceDebit(s));
      SalesBalanced(Wallet.Debit(c, x.user, x.price, ServiceDebit(s)).value, r.value);
    }
  }

  // A new intent calls for its wallet part, which was posted just before.
  lemma CreateIntentBalanced(d: Db, user: Id, purpose: Purpose, target: Id, total: int, wish: int,
                             quoted: Option<Instant>, now: Instant, rate: nat, price: Option<int>)
    requires Balanced(d)
    ensures var r := Payments.CreateIntent(d, user, purpose, target, total, wish, quoted, now, rate, price);
            r.Some? ==> Balanced(r.value)
  {
    hide Balanced, Owing, Busy, Payable, LoadTarget, Payments.SettleTarget;
    var r := Payments.CreateIntent(d, user, purpose, target, total, wish, quoted, now, rate, price);
    if r.Some? {
      var balance := Payments.WalletPart(total, wish);
      var key := if purpose == ForRecharge then None else LoadTarget(d, user, purpose, target);
      var x := Intent(user, purpose, target, total - balance, balance, IntentPending, key, 0);
      BalancedIsOwingNothing(d, user);
      PostSettles(d, user, -balance, IntentDebit(purpose, target), 0);
      var e := Wallet.Debit(d, user, balance, IntentDebit(purpose, target)).value;
      assert Owing(e, user, balance);
      NewIntentMoves(e, x);
      var f := e.(intents := e.intents + [x]);
      RowsCallFor(e, f, user, balance, IntentNet(x));
      BalancedIsOwingNothing(f, user);
      if x.amount == 0 {
        var g := Payments.SettleTarget(f, user, purpose, target, now, rate, price).value;
        SalesBalanced(f, g);
        CloseIntentBalanced(g, |e.intents|, IntentPaid, 0);
      }
    }
  }

  // Closing a pending intent as paid keeps its wallet part where it was.
  lemma CloseIntentBalanced(d: Db, i: Id, status: IntentStatus, received: int)
    requires Balanced(d) && i < |d.intents|
    requires IntentNet(d.intents[i].(status := status)) == IntentNet(d.intents[i])
    ensures Balanced(Payments.CloseIntent(d, i, status, received))
  {
    var y := d.intents[i].(status := status, key := None, received := received);
    var e := Payments.CloseIntent(d, i, status, received);
    IntentMoves(d, i, y);
    BalancedIsOwingNothing(d, y.user);
    RowsCallFor(d, e, y.user, 0, 0);
    BalancedIsOwingNothing(e, y.user);
  }

  lemma FailIntentBalanced(d: Db, i: Id)
    requires Balanced(d) && Sound(d)
    ensures var r := Payments.FailIntent(d, i); r.Some? ==> Balanced(r.value)
  {
    if Payments.FailIntent(d, i).Some? {
      var x := d.intents[i];
      assert IntentRow(d, x);
      hide Balanced, Owing, Sound;
      var y := x.(status := IntentFailed, key := None);
      var e := Payments.CloseIntent(d, i, IntentFailed, x.received);
      IntentMoves(d, i, y);
      BalancedIsOwingNothing(d, x.user);
      RowsCallFor(d, e, x.user, 0, x.balance);
      PostSettles(e, x.user, x.balance, IntentReturn(i), x.balance);
      BalancedIsOwingNothing(Payments.FailIntent(d, i).value, x.user);
    }
  }

  // A receipt for a recharge goes to the wallet.
  lemma RechargeBalanced(d: Db, i: Id, paid: int)
    requires Balanced(d) && i < |d.intents| && d.intents[i].status == IntentPending
      && d.intents[i].purpose == ForRecharge
    ensures var x := d.intents[i];
            var e := Wallet.Post(d, x.user, x.amount, IntentRecharge(i));
            e.Some? ==> i < |e.value.intents| && Balanced(Payments.CloseIntent(e.value, i, IntentPaid, paid))
  {
    hide Balanced, Owing;
    var x := d.intents[i];
    var e := Wallet.Post(d, x.user, x.amount, IntentRecharge(i));
    if e.Some? {
      var f := Payments.CloseIntent(e.value, i, IntentPaid, paid);
      BalancedIsOwingNothing(d, x.user);
      PostSettles(d, x.user, x.amount, IntentRecharge(i), 0);
      IntentMoves(e.value, i, x.(status := IntentPaid, key := None, received := paid));
      RowsCallFor(e.value, f, x.user, -(x.amount as int), x.amount);
      BalancedIsOwingNothing(f, x.user);
    }
  }

  lemma FinalizeBalanced(d: Db, i: Id, paid: int, now: Instant, rate: nat, price: Option<int>)
    requires Balanced(d) && Sound(d)
    ensures var r := Payments.Finalize(d, i, paid, now, rate, price); r.Some? ==> Balanced(r.value)
  {
    hide Balanced, Owing, Sound, Payments.SettleTarget, Wallet.Post;
    var r := Payments.Finalize(d, i, paid, now, rate, price);
    if r.Some? && d.intents[i].status == IntentPending {
      var x := d.intents[i];
      if x.purpose == ForRecharge {
        RechargeBalanced(d, i, paid);
      } else {
        var e := Payments.SettleTarget(d, x.user, x.purpose, x.target, now, rate, price).value;
        SalesBalanced(d, e);
        CloseIntentBalanced(e, i, IntentPaid, paid);
      }
    }
  }

  lemma SettleFromWalletBalanced(d: Db, user: Id, i: Id, now: Instant, rate: nat, price: Option<int>)
    requires Balanced(d)
    ensures var r := Payments.SettleFromWallet(d, user, i, now, rate, price); r.Some? ==> Balanced(r.value)
  {
    hide Balanced, Busy, Billing.SettleInvoice;
    var r := Payments.SettleFromWallet(d, user, i, now, rate, price);
    if r.Some? {
      DebitBalanced(d, user, d.invoices[i].total, InvoiceDebit(i));
      SalesBalanced(Wallet.Debit(d, user, d.invoices[i].total, InvoiceDebit(i)).value, r.value);
    }
  }

  lemma RegisterBalanced(d: Db, referrer: Option<Id>)
    requires Balanced(d) && Sound(d) && Affiliates.Register(d, referrer).Some?
    ensures Balanced(Affiliates.Register(d, referrer).value)
  {
    var e := Affiliates.Register(d, referrer).value;
    var u := |d.bank.balances|;
    Wallet.NewUserKeepsLedger(d.bank);
    forall t | 0 <= t < |d.bank.log| ensures DirectFor(u)(d.bank.log[t]) == 0 { assert Wallet.EntryOk(d.bank, t); }
    SumZero(d.bank.log, DirectFor(u));
    forall i | 0 <= i < |d.plugins| ensures PluginFor(u)(d.plugins[i]) == 0 { assert PluginRow(d, d.plugins[i]); }
    SumZero(d.plugins, PluginFor(u));
    SumZero(d.intents, IntentFor(u));
    SumZero(d.changes, ChangeFor(u));
    SumZero(d.refunds, RefundFor(u));
    SumZero(d.withdrawals, WithdrawalFor(u));
    forall v | 0 <= v < |e.bank.balances| ensures e.bank.balances[v] == Net(e, v) {
      assert Net(e, v) == Net(d, v);
    }
  }

  lemma AccountBalanced(d: Db, op: AccountOp)
    requires Balanced(d) && Sound(d)
    ensures var r := DoAccount(d, op); r.Some? ==> Balanced(r.value)
  {
    hide Balanced, Sound, Wallet.Post, Wallet.CreditExternal;
    var r := DoAccount(d, op);
    if r.Some? {
      match op
      case Register(referrer) => RegisterBalanced(d, referrer);
      case Recharge(user, amount) => GiftBalanced(d, user, amount, Recharged);
      case CreditExternal(plugin, external, user, amount) => CreditBalanced(d, plugin, external, user, amount);
      case AdjustByAdmin(user, amount) => GiftBalanced(d, user, amount, AdminAdjust);
    }
  }

  // What the ledger itself accounts for.
  lemma GiftBalanced(d: Db, user: Id, amount: int, ref: Ref)
    requires Balanced(d) && (ref == Recharged || ref == AdminAdjust)
    ensures var r := Wallet.Post(d, user, amount, ref); r.Some? ==> Balanced(r.value)
  {
    hide Balanced, Owing;
    var r := Wallet.Post(d, user, amount, ref);
    if r.Some? {
      BalancedIsOwingNothing(d, user);
      PostSettles(d, user, amount, ref, 0);
      BalancedIsOwingNothing(r.value, user);
    }
  }

  lemma CreditBalanced(d: Db, plugin: string, external: string, user: Id, amount: int)
    requires Balanced(d)
    ensures var r := Wallet.CreditExternal(d, plugin, external, user, amount); r.Some? ==> Balanced(r.value)
  {
    hide Balanced, Owing;
    var r := Wallet.CreditExternal(d, plugin, external, user, amount);
    if r.Some? && Wallet.FindPlugin(d.plugins, plugin, external) == |d.plugins| {
      var x := PluginPayment(plugin, external, user, amount);
      var e := d.(plugins := d.plugins + [x]);
      BalancedIsOwingNothing(d, user);
      PluginMoves(d, x);
      RowsCallFor(d, e, user, 0, amount);
      PostSettles(e, user, amount, PluginCredit(|d.plugins|), amount);
      BalancedIsOwingNothing(r.value, user);
    }
  }

  lemma SaleBalanced(d: Db, op: OrderOp)
    requires Balanced(d)
    ensures var r := DoSale(d, op); r.Some? ==> Balanced(r.value)
  {
    hide Balanced, Busy, Orders.Settle;
    var r := DoSale(d, op);
    if r.Some? {
      match op
      case CreateOrder(_, _, _) => SalesBalanced(d, r.value);
      case PayOrder(user, o, now, rate) =>
        DebitBalanced(d, user, d.orders[o].total, OrderDebit(o));
        SettleOrderBalanced(Wallet.Debit(d, user, d.orders[o].total, OrderDebit(o)).value, user, o, now, rate);
      case CancelOrder(_, _) => SalesBalanced(d, r.value);
    }
  }

  lemma BillBalanced(d: Db, op: BillingOp)
    requires Balanced(d)
    ensures var r := DoBill(d, op); r.Some? ==> Balanced(r.value)
  {
    hide Balanced, Busy;
    var r := DoBill(d, op);
    if r.Some? {
      match op
      case RenewNow(user, s, now) => RenewBalanced(d, user, s, now);
      case CreateRenewalInvoice(_, _) => SalesBalanced(d, r.value);
      case CreateTrafficInvoice(_, _, _, _) => SalesBalanced(d, r.value);
      case AutoRenew(s, listed, now, window) => AutoRenewBalanced(d, s, listed, now, window);
      case SetService(_, _, _, _, _) => SalesBalanced(d, r.value);
    }
  }

  lemma PaymentBalanced(d: Db, op: PaymentOp)
    requires Balanced(d) && Sound(d)
    ensures var r := DoPayment(d, op); r.Some? ==> Balanced(r.value)
  {
    hide Balanced, Sound, Payments.Finalize, Payments.FailIntent, Payments.CreateIntent, Payments.SettleFromWallet;
    match op
    case SettleInvoice(user, i, now, rate, price) => SettleFromWalletBalanced(d, user, i, now, rate, price);
    case CreateIntent(user, purpose, target, total, wish, quoted, now, rate, price) =>
      CreateIntentBalanced(d, user, purpose, target, total, wish, quoted, now, rate, price);
    case CancelIntent(_, i) => FailIntentBalanced(d, i);
    case VoidIntent(i) => FailIntentBalanced(d, i);
    case Finalize(i, paid, now, rate, price) => FinalizeBalanced(d, i, paid, now, rate, price);
    case LateReceipt(i, paid) =>
      if Payments.LateReceipt(d, i, paid).Some? { CloseIntentBalanced(d, i, IntentLate, paid); }
  }

  lemma HoldBalanced(d: Db, user: Id, s: Id, token: string, snapshot: Service, q: Changes.Offer)
    requires Balanced(d)
    ensures var r := Changes.Hold(d, user, s, token, snapshot, q);
            r.Some? ==> Balanced(r.value)
  {
    hide Balanced, Owing, Changes.Fenced, Changes.TokenUsed;
    var r := Changes.Hold(d, user, s, token, snapshot, q);
    if r.Some? {
      var c, x := |d.changes|, Changes.NewChange(user, s, token, q, d.services[s].price);
      var e := d.(changes := d.changes + [x]);
      var f := e.(services := d.services[s := d.services[s].(change := Some(c))]);
      BalancedIsOwingNothing(d, user);
      NewChangeMoves(d, x);
      RowsCallFor(d, e, user, 0, -(q.charge as int));
      SameMoneyOwing(e, f, user, -(q.charge as int));
      PostSettles(f, user, -(q.charge as int), ChangeDebit(c), -(q.charge as int));
      BalancedIsOwingNothing(r.value, user);
    }
  }

  // Closing a change calls for its credit when applied, for its charge when not.
  lemma FinishBalanced(d: Db, c: Id, applied: bool)
    requires Balanced(d)
    ensures var r := Changes.Finish(d, c, applied); r.Some? ==> Balanced(r.value)
  {
    hide Balanced, Owing;
    var r := Changes.Finish(d, c, applied);
    if r.Some? {
      var x := d.changes[c];
      var owed := if applied then x.credit else x.charge;
      var e := Changes.Restatus(d, c, if applied then ChangeApplied else ChangeFailed);
      var f := e.(services := r.value.services);
      BalancedIsOwingNothing(d, x.user);
      ChangeMoves(d, c, e.changes[c]);
      RowsCallFor(d, e, x.user, 0, owed);
      SameMoneyOwing(e, f, x.user, owed);
      PostSettles(f, x.user, owed, ChangeReturn(c), owed);
      BalancedIsOwingNothing(r.value, x.user);
    }
  }

  lemma RestatusChangeBalanced(d: Db, c: Id, status: ChangeStatus)
    requires Balanced(d) && c < |d.changes| && Changes.Open(d.changes[c].status) && Changes.Open(status)
    ensures Balanced(Changes.Restatus(d, c, status))
  {
    var e := Changes.Restatus(d, c, status);
    ChangeMoves(d, c, e.changes[c]);
    BalancedIsOwingNothing(d, e.changes[c].user);
    RowsCallFor(d, e, e.changes[c].user, 0, 0);
    BalancedIsOwingNothing(e, e.changes[c].user);
  }

  lemma ChangeBalanced(d: Db, op: ChangeOp)
    requires Balanced(d)
    ensures var r := DoChange(d, op); r.Some? ==> Balanced(r.value)
  {
    hide Balanced, Changes.Hold, Changes.OfferFor, Changes.Finish;
    var r := DoChange(d, op);
    if r.Some? {
      match op
      case ReserveChange(user, s, token, snapshot, request) =>
      var q := Changes.OfferFor(request);
      if q.Some? { HoldBalanced(d, user, s, token, snapshot, q.value); }
      case ClaimChange(c) => RestatusChangeBalanced(d, c, ChangeApplying);
      case DoubtChange(c) => RestatusChangeBalanced(d, c, ChangeUncertain);
      case FinishChange(c, applied) => FinishBalanced(d, c, applied);
    }
  }

  lemma RestatusRefundBalanced(d: Db, r: Id, status: RefundStatus)
    requires Balanced(d) && r < |d.refunds| && d.refunds[r].status != RefundCompleted && status != RefundCompleted
    ensures Balanced(Refunds.Restatus(d, r, status))
  {
    var e := Refunds.Restatus(d, r, status);
    RefundMoves(d, r, e.refunds[r]);
    BalancedIsOwingNothing(d, e.refunds[r].user);
    RowsCallFor(d, e, e.refunds[r].user, 0, 0);
    BalancedIsOwingNothing(e, e.refunds[r].user);
  }

  lemma SetIntentBalanced(d: Db, p: Id, status: IntentStatus)
    requires Balanced(d) && p < |d.intents| && Collected(d.intents[p].status) && Collected(status)
    ensures Balanced(Refunds.SetIntent(d, p, status))
  {
    var e := Refunds.SetIntent(d, p, status);
    IntentMoves(d, p, e.intents[p]);
    BalancedIsOwingNothing(d, e.intents[p].user);
    RowsCallFor(d, e, e.intents[p].user, 0, 0);
    BalancedIsOwingNothing(e, e.intents[p].user);
  }

  lemma CompleteBalanced(d: Db, e: Id)
    requires Balanced(d)
    ensures var r := Refunds.Complete(d, e); r.Some? ==> Balanced(r.value)
  {
    hide Balanced, Owing;
    var result := Refunds.Complete(d, e);
    if result.Some? {
      var r := d.executions[e].refund;
      var x := d.refunds[r];
      var a := Refunds.Move(d, e, Closed);
      SalesBalanced(d, a);
      BalancedIsOwingNothing(a, x.user);
      var b := Refunds.Restatus(a, r, RefundCompleted);
      RefundMoves(a, r, b.refunds[r]);
      RowsCallFor(a, b, x.user, 0, x.balance);
      PostSettles(b, x.user, x.balance, RefundCredit(r), x.balance);
      var c := Wallet.PostUnlessZero(b, x.user, x.balance, RefundCredit(r)).value;
      BalancedIsOwingNothing(c, x.user);
      var f := Refunds.CloseOrder(c, x.order);
      SalesBalanced(c, f);
      var g := Refunds.CloseIntent(f, x);
      if g != f { SetIntentBalanced(f, x.payment.value, IntentRefunded); }
      SalesBalanced(g, result.value);
    }
  }

  lemma RefundBalanced(d: Db, op: RefundOp)
    requires Balanced(d)
    ensures var r := DoRefund(d, op); r.Some? ==> Balanced(r.value)
  {
    hide Balanced, Refunds.Complete, Refunds.MayComplete;
    var r := DoRefund(d, op);
    if r.Some? {
      match op
      case RequestRefund(user, _, _) =>
        NewRefundMoves(d, r.value.refunds[|d.refunds|]);
        BalancedIsOwingNothing(d, user);
        RowsCallFor(d, r.value, user, 0, 0);
        BalancedIsOwingNothing(r.value, user);
      case ReviewRefund(f, approve) => RestatusRefundBalanced(d, f, if approve then RefundApproved else RefundRejected);
      case CancelRefund(_, f) => RestatusRefundBalanced(d, f, RefundCanceled);
      case StartRefund(f) =>
        RestatusRefundBalanced(d, f, RefundProcessing);
        SalesBalanced(Refunds.Restatus(d, f, RefundProcessing), r.value);
      case ClaimPayment(e) =>
        var m := Refunds.Move(d, e, PaymentClaimed);
        SalesBalanced(d, m);
        SalesBalanced(d, Refunds.Move(d, e, LostClaim));
        var p := d.refunds[d.executions[e].refund].payment.value;
        if p < |d.intents| && d.intents[p].status == IntentPaid { SetIntentBalanced(m, p, IntentRefunding); }
      case AskChannel(_, _) => SalesBalanced(d, r.value);
      case ReleasePayment(e) =>
        var m := Refunds.Move(d, e, Released);
        SalesBalanced(d, m);
        var p := d.refunds[d.executions[e].refund].payment.value;
        if p < |d.intents| && d.intents[p].status == IntentRefunding { SetIntentBalanced(m, p, IntentPaid); }
      case CompleteRefund(e) => CompleteBalanced(d, e);
      case AbortRefund(_) => SalesBalanced(d, r.value);
      case FailRefund(e) =>
        var m, f := Refunds.Move(d, e, Closed), d.executions[e].refund;
        SalesBalanced(d, m);
        if d.refunds[f].status == RefundProcessing { RestatusRefundBalanced(m, f, RefundFailed); }
    }
  }

  lemma ShareBalanced(d: Db, op: AffiliateOp)
    requires Balanced(d)
    ensures var r := DoShare(d, op); r.Some? ==> Balanced(r.value)
  {
    hide Balanced, Owing;
    var r := DoShare(d, op);
    if r.Some? {
      match op
      case JoinAffiliates(_) => SalesBalanced(d, r.value);
      case Withdraw(user, _, _) =>
        var x := r.value.withdrawals[|d.withdrawals|];
        var e := d.(withdrawals := d.withdrawals + [x]);
        NewWithdrawalMoves(d, x);
        BalancedIsOwingNothing(d, user);
        RowsCallFor(d, e, user, 0, 0);
        BalancedIsOwingNothing(e, user);
        SalesBalanced(e, r.value);
      case ReviewWithdrawal(w, approve) =>
        var x := d.withdrawals[w];
        var y := x.(status := if approve then WithdrawalApproved else WithdrawalRejected);
        var e := d.(withdrawals := d.withdrawals[w := y]);
        var f := e.(affiliates := r.value.affiliates);
        var owed := if approve then x.amount else 0;
        WithdrawalMoves(d, w, y);
        BalancedIsOwingNothing(d, x.user);
        RowsCallFor(d, e, x.user, 0, owed);
        SameMoneyOwing(e, f, x.user, owed);
        if approve { PostSettles(f, x.user, owed, CommissionPayout(w), owed); }
        BalancedIsOwingNothing(r.value, x.user);
    }
  }

  lemma StepBalanced(d: Db, op: Op)
    requires Balanced(d) && Sound(d)
    ensures Balanced(Step(d, op))
  {
    hide Balanced, Sound, DoAccount, DoSale, DoBill, DoPayment, DoChange, DoRefund, DoShare;
    match op
    case Account(a) => AccountBalanced(d, a);
    case Sale(s) => SaleBalanced(d, s);
    case Bill(b) => BillBalanced(d, b);
    case Payment(p) => PaymentBalanced(d, p);
    case ProductChange(c) => ChangeBalanced(d, c);
    case Repay(r) => RefundBalanced(d, r);
    case Share(s) => ShareBalanced(d, s);
  }
}
