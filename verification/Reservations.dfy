// What each change of product has cost so far: its charge while it is open, the
// charge less its credit once it was applied, and nothing once it failed.
module Reservations {
  import opened Options
  import opened Calendar
  import opened Sums
  import opened Tables
  import opened Targets
  import opened Machine
  import Wallet
  import Orders
  import Billing
  import Payments
  import Changes
  import Refunds
  import Affiliates

  function OfChange(c: Id): Entry -> int {
    (e: Entry) => if e.ref == ChangeDebit(c) || e.ref == ChangeReturn(c) then e.amount else 0
  }

  function Standing(x: Change): int {
    match x.status
    case ChangeApplied => x.credit - x.charge
    case ChangeFailed => 0
    case _ => -(x.charge as int)
  }

  function StandingAt(changes: seq<Change>, c: Id): int {
    if c < |changes| then Standing(changes[c]) else 0
  }

  ghost predicate Charged(bank: Bank, changes: seq<Change>) {
    forall c: Id :: Sum(bank.log, OfChange(c)) == StandingAt(changes, c)
  }

  // ----- ledger rows of anything else -----

  predicate ForChange(x: Entry) { x.ref.ChangeDebit? || x.ref.ChangeReturn? }

  ghost predicate Elsewhere(b: Bank, c: Bank) {
    b.log <= c.log && forall t :: |b.log| <= t < |c.log| ==> !ForChange(c.log[t])
  }

  // A step that writes no ledger row for a change, and leaves the changes alone.
  ghost predicate Aside(d: Db, e: Db) {
    Elsewhere(d.bank, e.bank) && e.changes == d.changes
  }

  lemma SameAside(d: Db, e: Db)
    requires e.bank == d.bank && e.changes == d.changes
    ensures Aside(d, e)
  {
  }

  lemma PostAside(d: Db, user: Id, amount: int, ref: Ref)
    requires !ref.ChangeDebit? && !ref.ChangeReturn?
    ensures var r := Wallet.PostUnlessZero(d, user, amount, ref); r.Some? ==> Aside(d, r.value)
    ensures var r := Wallet.Post(d, user, amount, ref); r.Some? ==> Aside(d, r.value)
  {
  }

  lemma AsideThrough(d: Db, e: Db, f: Db)
    requires Aside(d, e) && f.bank == e.bank && f.changes == e.changes
    ensures Aside(d, f)
  {
  }

  lemma AsideCharged(d: Db, e: Db)
    requires Charged(d.bank, d.changes) && Aside(d, e)
    ensures Charged(e.bank, e.changes)
  {
    forall c: Id ensures Sum(e.bank.log, OfChange(c)) == StandingAt(e.changes, c) {
      var more := e.bank.log[|d.bank.log|..];
      assert e.bank.log == d.bank.log + more;
      SumConcat(d.bank.log, more, OfChange(c));
      SumZero(more, OfChange(c));
    }
  }

  lemma AccountAside(d: Db, op: AccountOp)
    ensures var r := DoAccount(d, op); r.Some? ==> Aside(d, r.value)
  {
  }

  lemma SaleAside(d: Db, op: OrderOp)
    ensures var r := DoSale(d, op); r.Some? ==> Aside(d, r.value)
  {
    hide Orders.Settle, Busy, Wallet.PostUnlessZero;
    var r := DoSale(d, op);
    match op
    case PayOrder(user, o, now, rate) =>
      if r.Some? {
        PostAside(d, user, -(d.orders[o].total as int), OrderDebit(o));
        AsideThrough(d, Wallet.Debit(d, user, d.orders[o].total, OrderDebit(o)).value, r.value);
      }
    case _ =>
  }

  lemma BillAside(d: Db, op: BillingOp)
    ensures var r := DoBill(d, op); r.Some? ==> Aside(d, r.value)
  {
    hide Busy, AddMonths, Wallet.PostUnlessZero, Aside;
    var r := DoBill(d, op);
    if r.Some? {
      match op
      case RenewNow(user, s, now) =>
        PostAside(d, user, -(d.services[s].price as int), ServiceDebit(s));
        AsideThrough(d, Wallet.Debit(d, user, d.services[s].price, ServiceDebit(s)).value, r.value);
      case AutoRenew(s, listed, now, window) =>
        var x, e := d.services[s], d.(renewalKeys := d.renewalKeys + {(s, listed)});
        PostAside(e, x.user, -(x.price as int), ServiceDebit(s));
        AsideThrough(e, Wallet.Debit(e, x.user, x.price, ServiceDebit(s)).value, r.value);
        SameStart(d, e, r.value);
      case _ => SameAside(d, r.value);
    }
  }

  lemma SameStart(d: Db, e: Db, f: Db)
    requires e.bank == d.bank && e.changes == d.changes && Aside(e, f)
    ensures Aside(d, f)
  {
  }

  lemma PaymentAside(d: Db, op: PaymentOp)
    ensures var r := DoPayment(d, op); r.Some? ==> Aside(d, r.value)
  {
    hide Payments.SettleTarget, Billing.SettleInvoice, Busy, Payable, KeyTaken, Wallet.PostUnlessZero, Wallet.Post,
      Aside;
    var r := DoPayment(d, op);
    if r.Some? {
      match op
      case SettleInvoice(user, i, now, rate, price) =>
        PostAside(d, user, -(d.invoices[i].total as int), InvoiceDebit(i));
        AsideThrough(d, Wallet.Debit(d, user, d.invoices[i].total, InvoiceDebit(i)).value, r.value);
      case CreateIntent(user, purpose, target, total, wish, quoted, now, rate, price) =>
        var balance := Payments.WalletPart(total, wish);
        PostAside(d, user, -balance, IntentDebit(purpose, target));
        AsideThrough(d, Wallet.Debit(d, user, balance, IntentDebit(purpose, target)).value, r.value);
      case CancelIntent(_, i) => FailAside(d, i);
      case VoidIntent(i) => FailAside(d, i);
      case Finalize(i, paid, now, rate, price) => FinalizeAside(d, i, paid, now, rate, price);
      case LateReceipt(i, paid) => SameAside(d, r.value);
    }
  }

  lemma FailAside(d: Db, i: Id)
    ensures var r := Payments.FailIntent(d, i); r.Some? ==> Aside(d, r.value)
  {
    hide Wallet.PostUnlessZero, Aside;
    if Payments.FailIntent(d, i).Some? {
      var x := d.intents[i];
      var e := Payments.CloseIntent(d, i, IntentFailed, x.received);
      PostAside(e, x.user, x.balance, IntentReturn(i));
      SameStart(d, e, Payments.FailIntent(d, i).value);
    }
  }

  lemma FinalizeAside(d: Db, i: Id, paid: int, now: Instant, rate: nat, price: Option<int>)
    ensures var r := Payments.Finalize(d, i, paid, now, rate, price); r.Some? ==> Aside(d, r.value)
  {
    hide Payments.SettleTarget, Wallet.Post, Aside;
    var r := Payments.Finalize(d, i, paid, now, rate, price);
    if r.Some? {
      var x := d.intents[i];
      if x.status == IntentPending && x.purpose == ForRecharge {
        PostAside(d, x.user, x.amount, IntentRecharge(i));
        AsideThrough(d, Wallet.Post(d, x.user, x.amount, IntentRecharge(i)).value, r.value);
      } else {
        SameAside(d, r.value);
      }
    }
  }

  lemma RefundAside(d: Db, op: RefundOp)
    ensures var r := DoRefund(d, op); r.Some? ==> Aside(d, r.value)
  {
    hide Refunds.Complete, Aside;
    var r := DoRefund(d, op);
    if r.Some? {
      if op.CompleteRefund? { CompleteAside(d, op.execution); } else { SameAside(d, r.value); }
    }
  }

  lemma CompleteAside(d: Db, e: Id)
    requires Refunds.Complete(d, e).Some?
    ensures Aside(d, Refunds.Complete(d, e).value)
  {
    assert Refunds.MayComplete(d, e);
    hide Wallet.PostUnlessZero, Affiliates.ReverseBy, Aside;
    var r := d.executions[e].refund;
    var x := d.refunds[r];
    var start := Refunds.Restatus(Refunds.Move(d, e, Closed), r, RefundCompleted);
    PostAside(start, x.user, x.balance, RefundCredit(r));
    AsideThrough(start, Wallet.PostUnlessZero(start, x.user, x.balance, RefundCredit(r)).value,
                 Refunds.Complete(d, e).value);
    SameStart(d, start, Refunds.Complete(d, e).value);
  }

  lemma ShareAside(d: Db, op: AffiliateOp)
    ensures var r := DoShare(d, op); r.Some? ==> Aside(d, r.value)
  {
  }

  // No step of anybody else touches a change or writes a ledger row for one.
  lemma OthersAside(d: Db, op: Op)
    requires !op.ProductChange?
    ensures Aside(d, Step(d, op))
  {
    hide Aside, DoAccount, DoSale, DoBill, DoPayment, DoRefund, DoShare;
    SameAside(d, d);
    match op
    case Account(a) => AccountAside(d, a);
    case Sale(s) => SaleAside(d, s);
    case Bill(b) => BillAside(d, b);
    case Payment(p) => PaymentAside(d, p);
    case Repay(x) => RefundAside(d, x);
    case Share(s) => ShareAside(d, s);
  }

  // ----- the steps of changes -----

  // One ledger row for change c moves what stands for it, and for no other.
  lemma OneEntry(before: Bank, after: Bank, c: Id, e: Entry)
    requires after.log == before.log + [e] && (e.ref == ChangeDebit(c) || e.ref == ChangeReturn(c))
    ensures forall b: Id :: Sum(after.log, OfChange(b)) == Sum(before.log, OfChange(b)) + if b == c then e.amount else 0
  {
    forall b: Id ensures Sum(after.log, OfChange(b)) == Sum(before.log, OfChange(b)) + if b == c then e.amount else 0 {
      SumAppend(before.log, e, OfChange(b));
    }
  }

  lemma PostForChange(d: Db, user: Id, amount: int, ref: Ref, c: Id)
    requires ref == ChangeDebit(c) || ref == ChangeReturn(c)
    ensures var r := Wallet.PostUnlessZero(d, user, amount, ref);
            r.Some? ==> r.value.changes == d.changes
                        && forall b: Id :: Sum(r.value.bank.log, OfChange(b))
                                        == Sum(d.bank.log, OfChange(b)) + if b == c then amount else 0
  {
    var r := Wallet.PostUnlessZero(d, user, amount, ref);
    if r.Some? && amount != 0 {
      OneEntry(d.bank, r.value.bank, c, Entry(user, amount, d.bank.balances[user] + amount, ref));
    }
  }

  lemma HoldCharged(d: Db, user: Id, s: Id, token: string, snapshot: Service, q: Changes.Offer)
    requires Charged(d.bank, d.changes)
    ensures var r := Changes.Hold(d, user, s, token, snapshot, q);
            r.Some? ==> Charged(r.value.bank, r.value.changes)
  {
    hide Changes.Fenced, Changes.TokenUsed, Wallet.PostUnlessZero, Sum;
    var r := Changes.Hold(d, user, s, token, snapshot, q);
    if r.Some? {
      var c := |d.changes|;
      var e := d.(changes := d.changes
                  + [Changes.NewChange(user, s, token, q, d.services[s].price)],
                  services := d.services[s := d.services[s].(change := Some(c))]);
      PostForChange(e, user, -(q.charge as int), ChangeDebit(c), c);
      forall b: Id ensures Sum(r.value.bank.log, OfChange(b)) == StandingAt(r.value.changes, b) {
        assert Sum(d.bank.log, OfChange(b)) == StandingAt(d.changes, b);
      }
    }
  }

  lemma FinishCharged(d: Db, c: Id, applied: bool)
    requires Charged(d.bank, d.changes)
    ensures var r := Changes.Finish(d, c, applied); r.Some? ==> Charged(r.value.bank, r.value.changes)
  {
    hide Wallet.PostUnlessZero, Sum;
    var r := Changes.Finish(d, c, applied);
    if r.Some? {
      var x := d.changes[c];
      var status := if applied then ChangeApplied else ChangeFailed;
      var e := Changes.Restatus(d, c, status).(services := r.value.services);
      assert r == Wallet.PostUnlessZero(e, x.user, if applied then x.credit else x.charge, ChangeReturn(c)) by {
        PostKeepsServices(d, c, applied);
      }
      PostForChange(e, x.user, if applied then x.credit else x.charge, ChangeReturn(c), c);
      forall b: Id ensures Sum(r.value.bank.log, OfChange(b)) == StandingAt(r.value.changes, b) {
        assert Sum(d.bank.log, OfChange(b)) == StandingAt(d.changes, b);
      }
    }
  }

  lemma PostKeepsServices(d: Db, c: Id, applied: bool)
    requires Changes.Finish(d, c, applied).Some?
    ensures var x, f := d.changes[c], Changes.Finish(d, c, applied);
            var e := Changes.Restatus(d, c, if applied then ChangeApplied
                                      else ChangeFailed).(services := f.value.services);
            f == Wallet.PostUnlessZero(e, x.user, if applied then x.credit else x.charge, ChangeReturn(c))
  {
  }

  lemma RestatusCharged(d: Db, c: Id, status: ChangeStatus)
    requires Charged(d.bank, d.changes) && c < |d.changes| && Changes.Open(d.changes[c].status) && Changes.Open(status)
    ensures Charged(d.bank, Changes.Restatus(d, c, status).changes)
  {
    hide Sum;
    var e := Changes.Restatus(d, c, status);
    forall b: Id ensures Sum(d.bank.log, OfChange(b)) == StandingAt(e.changes, b) {
      assert Sum(d.bank.log, OfChange(b)) == StandingAt(d.changes, b);
    }
  }

  lemma ChangeCharged(d: Db, op: ChangeOp)
    requires Charged(d.bank, d.changes)
    ensures var r := DoChange(d, op); r.Some? ==> Charged(r.value.bank, r.value.changes)
  {
    hide Charged, Changes.Hold, Changes.OfferFor, Changes.Finish;
    if DoChange(d, op).Some? {
      match op
      case ReserveChange(user, s, token, snapshot, request) =>
      var q := Changes.OfferFor(request);
      if q.Some? { HoldCharged(d, user, s, token, snapshot, q.value); }
      case ClaimChange(c) => RestatusCharged(d, c, ChangeApplying);
      case DoubtChange(c) => RestatusCharged(d, c, ChangeUncertain);
      case FinishChange(c, applied) => FinishCharged(d, c, applied);
    }
  }

  lemma StepCharged(d: Db, op: Op)
    requires Charged(d.bank, d.changes)
    ensures Charged(Step(d, op).bank, Step(d, op).changes)
  {
    hide Charged, Aside, DoChange, DoAccount, DoSale, DoBill, DoPayment, DoRefund, DoShare;
    if op.ProductChange? {
      ChangeCharged(d, op.change);
    } else {
      OthersAside(d, op);
      AsideCharged(d, Step(d, op));
    }
  }
}
