// The affiliate programme's books: what an account holds, has reserved and has
// been paid adds up to its commissions less reversals, through every refund.
module Earnings {
  import opened Options
  import opened Calendar
  import opened Sums
  import opened Tables
  import opened Targets
  import opened Machine
  import opened Integrity
  import opened Affiliates
  import Wallet
  import Orders
  import Billing
  import Payments
  import Changes
  import Refunds
  import Payouts
  import References

  function NetOf(a: Id): Commission -> int {
    (c: Commission) => if c.affiliate == a then c.amount - c.reversed else 0
  }

  function PendingOf(a: Id): Withdrawal -> int {
    (w: Withdrawal) => if w.affiliate == a && w.status == WithdrawalPending then w.amount else 0
  }

  function ApprovedOf(a: Id): Withdrawal -> int {
    (w: Withdrawal) => if w.affiliate == a && w.status == WithdrawalApproved then w.amount else 0
  }

  // earned is commissions less reversals, reserved is what withdrawals are pending,
  // and the balance is what remains after those and the approved payouts.
  ghost predicate AccountOk(affiliates: seq<Affiliate>, commissions: seq<Commission>, withdrawals: seq<Withdrawal>,
                            a: Id)
    requires a < |affiliates|
  {
    && affiliates[a].earned == Sum(commissions, NetOf(a))
    && affiliates[a].reserved == Sum(withdrawals, PendingOf(a))
    && affiliates[a].balance + affiliates[a].reserved + Sum(withdrawals, ApprovedOf(a)) == affiliates[a].earned
  }

  ghost predicate Books(affiliates: seq<Affiliate>, commissions: seq<Commission>, withdrawals: seq<Withdrawal>) {
    forall a :: 0 <= a < |affiliates| ==> AccountOk(affiliates, commissions, withdrawals, a)
  }

  ghost predicate OnePerOrder(commissions: seq<Commission>) {
    forall i, j :: 0 <= i < j < |commissions| ==> commissions[i].order != commissions[j].order
  }

  // A commission is reversed in proportion to all that was refunded of its order.
  ghost predicate ReversedRight(refunds: seq<Refund>, c: Commission) {
    c.reversed == ReversalTarget(c, Sum(refunds, RefundedOn(c.order)))
  }

  ghost predicate Reversals(refunds: seq<Refund>, commissions: seq<Commission>) {
    forall i :: 0 <= i < |commissions| ==> ReversedRight(refunds, commissions[i])
  }

  ghost predicate Shares(d: Db) {
    && Books(d.affiliates, d.commissions, d.withdrawals)
    && OnePerOrder(d.commissions)
    && Reversals(d.refunds, d.commissions)
  }

  // ----- the proportion -----

  lemma TargetBounds(c: Commission, refunded: int)
    requires c.paid > 0 && refunded >= 0
    ensures 0 <= ReversalTarget(c, refunded) <= c.amount
    ensures refunded == 0 ==> ReversalTarget(c, refunded) == 0
    ensures refunded >= c.paid ==> ReversalTarget(c, refunded) == c.amount
  {
    var m := Min(refunded, c.paid);
    MulBounds(c.amount, m, c.paid);
  }

  lemma MulBounds(a: nat, m: nat, p: nat)
    requires m <= p && p > 0
    ensures 0 <= a * m / p <= a
    ensures m == p ==> a * m / p == a
    ensures m == 0 ==> a * m / p == 0
  {
    MulMono(a, m, p);
    MulMono(a, 0, m);
    DivMono(a * m, a * p, p);
    DivMono(0, a * m, p);
    DivExact(a, p);
  }

  lemma DivExact(a: nat, p: nat)
    requires p > 0
    ensures a * p / p == a
  {
    var q := a * p / p;
    assert a * p == q * p + a * p % p;
    if q < a { MulMono(p, q + 1, a); } else if q > a { MulMono(p, a + 1, q); }
  }

  lemma DivMono(x: int, y: int, p: nat)
    requires x <= y && p > 0
    ensures x / p <= y / p
  {
    var a, b := x / p, y / p;
    assert x == p * a + x % p && y == p * b + y % p;
    if b + 1 <= a { MulMono(p, b + 1, a); }
  }

  lemma TargetGrows(c: Commission, before: int, after: int)
    requires c.paid > 0 && 0 <= before <= after
    ensures ReversalTarget(c, before) <= ReversalTarget(c, after)
  {
    var m, n := Min(before, c.paid), Min(after, c.paid);
    assert c.amount * m <= c.amount * n by { MulMono(c.amount, m, n); }
    DivMono(c.amount * m, c.amount * n, c.paid);
  }

  lemma MulMono(a: nat, m: int, n: int)
    requires m <= n
    ensures a * m <= a * n
  {
  }

  // Refunds that come in parts.
  function Total(parts: seq<nat>): nat {
    if |parts| == 0 then 0 else Total(parts[..|parts| - 1]) + parts[|parts| - 1]
  }

  function ReverseAll(c: Commission, parts: seq<nat>): Commission {
    if |parts| == 0 then c else ReverseBy(ReverseAll(c, parts[..|parts| - 1]), Total(parts))
  }

  // However a refund is split, the parts reverse exactly what the whole would:
  // cents lost to rounding in one part are made up by the next.
  lemma {:induction false} PartsReverseTheWhole(c: Commission, parts: seq<nat>)
    requires c.paid > 0 && c.reversed == 0
    ensures ReverseAll(c, parts) == c.(reversed := ReversalTarget(c, Total(parts)))
    ensures Total(parts) >= c.paid ==> ReverseAll(c, parts).reversed == c.amount
  {
    TargetBounds(c, Total(parts));
    if |parts| == 0 {
      TargetBounds(c, 0);
    } else {
      var rest := parts[..|parts| - 1];
      PartsReverseTheWhole(c, rest);
      TargetBounds(c, Total(rest));
      TargetGrows(c, Total(rest), Total(parts));
    }
  }

  // ----- the books, one row at a time -----

  lemma AddCommissionBooks(affiliates: seq<Affiliate>, commissions: seq<Commission>, withdrawals: seq<Withdrawal>,
                           c: Commission)
    requires Books(affiliates, commissions, withdrawals) && c.affiliate < |affiliates| && c.reversed == 0
    ensures var x := affiliates[c.affiliate];
            Books(affiliates[c.affiliate := x.(balance := x.balance + c.amount, earned := x.earned + c.amount)],
                  commissions + [c], withdrawals)
  {
    var x := affiliates[c.affiliate];
    var after := affiliates[c.affiliate := x.(balance := x.balance + c.amount, earned := x.earned + c.amount)];
    forall a | 0 <= a < |after| ensures AccountOk(after, commissions + [c], withdrawals, a) {
      assert AccountOk(affiliates, commissions, withdrawals, a);
      SumAppend(commissions, c, NetOf(a));
    }
  }

  lemma ReverseBooks(affiliates: seq<Affiliate>, commissions: seq<Commission>, withdrawals: seq<Withdrawal>, i: Id,
                     target: nat)
    requires Books(affiliates, commissions, withdrawals) && i < |commissions| && commissions[i].affiliate < |affiliates|
    ensures var c := commissions[i];
            var x := affiliates[c.affiliate];
            var delta := target - c.reversed;
            Books(affiliates[c.affiliate := x.(balance := x.balance - delta, earned := x.earned - delta)],
                  commissions[i := c.(reversed := target)], withdrawals)
  {
    var c := commissions[i];
    var x := affiliates[c.affiliate];
    var delta := target - c.reversed;
    var after := affiliates[c.affiliate := x.(balance := x.balance - delta, earned := x.earned - delta)];
    var reversed := commissions[i := c.(reversed := target)];
    forall a | 0 <= a < |after| ensures AccountOk(after, reversed, withdrawals, a) {
      assert AccountOk(affiliates, commissions, withdrawals, a);
      SumUpdate(commissions, i, c.(reversed := target), NetOf(a));
    }
  }

  lemma JoinBooks(d: Db, user: Id)
    requires Sound(d) && Books(d.affiliates, d.commissions, d.withdrawals)
    ensures Books(d.affiliates + [Affiliate(user, 0, 0, 0)], d.commissions, d.withdrawals)
  {
    var after, n := d.affiliates + [Affiliate(user, 0, 0, 0)], |d.affiliates|;
    forall a | 0 <= a < |after| ensures AccountOk(after, d.commissions, d.withdrawals, a) {
      if a < n {
        assert AccountOk(d.affiliates, d.commissions, d.withdrawals, a);
      } else {
        forall i | 0 <= i < |d.commissions| ensures NetOf(n)(d.commissions[i]) == 0 {
          assert CommissionRow(d, d.commissions[i]);
        }
        forall i | 0 <= i < |d.withdrawals|
          ensures PendingOf(n)(d.withdrawals[i]) == 0 && ApprovedOf(n)(d.withdrawals[i]) == 0
        {
          assert WithdrawalRow(d, d.withdrawals[i]);
        }
        SumZero(d.commissions, NetOf(n));
        SumZero(d.withdrawals, PendingOf(n));
        SumZero(d.withdrawals, ApprovedOf(n));
      }
    }
  }

  lemma WithdrawBooks(d: Db, user: Id, amount: int, minimum: nat)
    requires Shares(d)
    ensures var r := Affiliates.Withdraw(d, user, amount, minimum); r.Some? ==> Shares(r.value)
  {
    var r := Affiliates.Withdraw(d, user, amount, minimum);
    if r.Some? {
      var e := r.value;
      forall a | 0 <= a < |e.affiliates| ensures AccountOk(e.affiliates, e.commissions, e.withdrawals, a) {
        assert AccountOk(d.affiliates, d.commissions, d.withdrawals, a);
        SumAppend(d.withdrawals, e.withdrawals[|d.withdrawals|], PendingOf(a));
        SumAppend(d.withdrawals, e.withdrawals[|d.withdrawals|], ApprovedOf(a));
      }
    }
  }

  lemma ReviewBooks(d: Db, w: Id, approve: bool)
    requires Shares(d)
    ensures var r := Affiliates.Review(d, w, approve); r.Some? ==> Shares(r.value)
  {
    var r := Affiliates.Review(d, w, approve);
    if r.Some? {
      var e := r.value;
      assert e.withdrawals == d.withdrawals[w := e.withdrawals[w]];
      forall a | 0 <= a < |e.affiliates| ensures AccountOk(e.affiliates, e.commissions, e.withdrawals, a) {
        assert AccountOk(d.affiliates, d.commissions, d.withdrawals, a);
        SumUpdate(d.withdrawals, w, e.withdrawals[w], PendingOf(a));
        SumUpdate(d.withdrawals, w, e.withdrawals[w], ApprovedOf(a));
      }
    }
  }

  // An approval leaves the account with no debt, so what it has been paid in all
  // stays within what it has earned.
  lemma PayoutsWithinEarnings(d: Db, w: Id)
    requires Shares(d) && Affiliates.Review(d, w, true).Some?
    ensures var e := Affiliates.Review(d, w, true).value;
            var a := d.withdrawals[w].affiliate;
            a < |e.affiliates| && Sum(e.withdrawals, ApprovedOf(a)) <= e.affiliates[a].earned == d.affiliates[a].earned
  {
    var e, a := Affiliates.Review(d, w, true).value, d.withdrawals[w].affiliate;
    ReviewBooks(d, w, true);
    assert AccountOk(e.affiliates, e.commissions, e.withdrawals, a);
    SumNonnegative(e.withdrawals, PendingOf(a));
  }

  // ----- accruing -----

  lemma NothingRefunded(d: Db, o: Id)
    requires Payouts.Returned(d.orders, d.refunds) && o < |d.orders| && d.orders[o].status != OrderRefunded
    ensures Sum(d.refunds, RefundedOn(o)) == 0
  {
    SumZero(d.refunds, RefundedOn(o));
  }

  lemma AccrueShares(d: Db, o: Id, rate: nat)
    requires Sound(d) && Shares(d) && o < |d.orders| && Sum(d.refunds, RefundedOn(o)) == 0
    ensures Shares(Orders.Accrue(d, o, rate))
  {
    var e := Orders.Accrue(d, o, rate);
    if e != d {
      var c := e.commissions[|d.commissions|];
      AddCommissionBooks(d.affiliates, d.commissions, d.withdrawals, c);
      TargetBounds(c, 0);
      forall i | 0 <= i < |e.commissions| ensures ReversedRight(e.refunds, e.commissions[i]) {
        if i < |d.commissions| { assert ReversedRight(d.refunds, d.commissions[i]); }
      }
    }
  }

  // Only these tables matter.
  lemma SameShares(d: Db, e: Db)
    requires Shares(d) && e.affiliates == d.affiliates && e.commissions == d.commissions
    requires e.withdrawals == d.withdrawals && e.refunds == d.refunds
    ensures Shares(e)
  {
  }

  lemma SettleOrderShares(d: Db, user: Id, o: Id, now: Instant, rate: nat)
    requires Sound(d) && Payouts.Returned(d.orders, d.refunds) && Shares(d)
    ensures var r := Orders.Settle(d, user, o, now, rate); r.Some? ==> Shares(r.value)
  {
    if Orders.Settle(d, user, o, now, rate).Some? {
      NothingRefunded(d, o);
      hide Sound, Shares;
      var i := Orders.InvoiceFor(d.invoices, o);
      MarkPaidSound(d, o, i, now);
      SameShares(d, Orders.MarkPaid(d, o, i, now));
      AccrueShares(Orders.MarkPaid(d, o, i, now), o, rate);
    }
  }

  lemma SettleInvoiceShares(d: Db, user: Id, i: Id, now: Instant, rate: nat, price: Option<int>)
    requires Sound(d) && Payouts.Returned(d.orders, d.refunds) && Shares(d)
    ensures var r := Billing.SettleInvoice(d, user, i, now, rate, price); r.Some? ==> Shares(r.value)
  {
    hide Sound, Shares, Payouts.Returned, Orders.Settle;
    var r := Billing.SettleInvoice(d, user, i, now, rate, price);
    if r.Some? {
      if d.invoices[i].order.Some? { SettleOrderShares(d, user, d.invoices[i].order.value, now, rate); }
      else { SameShares(d, r.value); }
    }
  }

  lemma SettleTargetShares(d: Db, user: Id, purpose: Purpose, target: Id, now: Instant, rate: nat, price: Option<int>)
    requires Sound(d) && Payouts.Returned(d.orders, d.refunds) && Shares(d)
    ensures var r := Payments.SettleTarget(d, user, purpose, target, now, rate, price); r.Some? ==> Shares(r.value)
  {
    hide Sound, Shares, Payouts.Returned, Orders.Settle, Billing.SettleInvoice;
    var r := Payments.SettleTarget(d, user, purpose, target, now, rate, price);
    match purpose
    case ForRecharge =>
    case ForOrder => SettleOrderShares(d, user, target, now, rate);
    case ForInvoice => SettleInvoiceShares(d, user, target, now, rate, price);
    case ForRenewal => if r.Some? { SameShares(d, r.value); }
  }

  lemma PayOrderShares(d: Db, user: Id, o: Id, now: Instant, rate: nat)
    requires Sound(d) && Payouts.Returned(d.orders, d.refunds) && Shares(d)
    ensures var r := Orders.Pay(d, user, o, now, rate); r.Some? ==> Shares(r.value)
  {
    hide Sound, Shares, Payouts.Returned, Orders.Settle, Busy;
    if Orders.Pay(d, user, o, now, rate).Some? {
      var e := Wallet.Debit(d, user, d.orders[o].total, OrderDebit(o)).value;
      DebitSound(d, user, d.orders[o].total, OrderDebit(o));
      SameShares(d, e);
      SettleOrderShares(e, user, o, now, rate);
    }
  }

  lemma SettleFromWalletShares(d: Db, user: Id, i: Id, now: Instant, rate: nat, price: Option<int>)
    requires Sound(d) && Payouts.Returned(d.orders, d.refunds) && Shares(d)
    ensures var r := Payments.SettleFromWallet(d, user, i, now, rate, price); r.Some? ==> Shares(r.value)
  {
    hide Sound, Shares, Payouts.Returned, Billing.SettleInvoice, Busy;
    if Payments.SettleFromWallet(d, user, i, now, rate, price).Some? {
      var e := Wallet.Debit(d, user, d.invoices[i].total, InvoiceDebit(i)).value;
      DebitSound(d, user, d.invoices[i].total, InvoiceDebit(i));
      SameShares(d, e);
      SettleInvoiceShares(e, user, i, now, rate, price);
    }
  }

  lemma OpenIntentShares(d: Db, x: Intent, now: Instant, rate: nat, price: Option<int>)
    requires Sound(d) && IntentRow(d, x) && Payouts.Returned(d.orders, d.refunds) && Shares(d)
    ensures var r := Payments.OpenIntent(d, x, now, rate, price); r.Some? ==> Shares(r.value)
  {
    hide Sound, IntentRow, Shares, Payouts.Returned, Payments.SettleTarget;
    var r := Payments.OpenIntent(d, x, now, rate, price);
    if r.Some? {
      var e := d.(intents := d.intents + [x]);
      AddIntentSound(d, x);
      SameShares(d, e);
      SettleTargetShares(e, x.user, x.purpose, x.target, now, rate, price);
      if x.amount <= 0 {
        SameShares(Payments.SettleTarget(e, x.user, x.purpose, x.target, now, rate, price).value, r.value);
      }
    }
  }

  lemma CreateIntentShares(d: Db, user: Id, purpose: Purpose, target: Id, total: int, wish: int,
                           quoted: Option<Instant>, now: Instant, rate: nat, price: Option<int>)
    requires Sound(d) && Payouts.Returned(d.orders, d.refunds) && Shares(d)
    ensures var r := Payments.CreateIntent(d, user, purpose, target, total, wish, quoted, now, rate, price);
            r.Some? ==> Shares(r.value)
  {
    hide Sound, Busy, Payable, LoadTarget, KeyTaken, Payments.OpenIntent, Shares, Payouts.Returned;
    if Payments.CreateIntent(d, user, purpose, target, total, wish, quoted, now, rate, price).Some? {
      var balance := Payments.WalletPart(total, wish);
      var key := if purpose == ForRecharge then None else LoadTarget(d, user, purpose, target);
      var x := Intent(user, purpose, target, total - balance, balance, IntentPending, key, 0);
      if purpose != ForRecharge { PayableIsOwed(d, user, purpose, target, total, quoted, x); }
      var e := Wallet.Debit(d, user, balance, IntentDebit(purpose, target)).value;
      DebitSound(d, user, balance, IntentDebit(purpose, target));
      SameShares(d, e);
      OpenIntentShares(e, x, now, rate, price);
    }
  }

  lemma FinalizeShares(d: Db, i: Id, paid: int, now: Instant, rate: nat, price: Option<int>)
    requires Sound(d) && Payouts.Returned(d.orders, d.refunds) && Shares(d)
    ensures var r := Payments.Finalize(d, i, paid, now, rate, price); r.Some? ==> Shares(r.value)
  {
    hide Sound, Shares, Payouts.Returned, Payments.SettleTarget;
    var r := Payments.Finalize(d, i, paid, now, rate, price);
    if r.Some? && d.intents[i].status == IntentPending {
      var x := d.intents[i];
      if x.purpose == ForRecharge {
        SameShares(d, r.value);
      } else {
        SettleTargetShares(d, x.user, x.purpose, x.target, now, rate, price);
        SameShares(Payments.SettleTarget(d, x.user, x.purpose, x.target, now, rate, price).value, r.value);
      }
    }
  }

  // ----- refunding -----

  // Requests that are not completed do not count as refunded.
  lemma RefundsShares(d: Db, e: Db)
    requires Shares(d) && e.affiliates == d.affiliates && e.commissions == d.commissions
      && e.withdrawals == d.withdrawals
    requires forall o: Id :: Sum(e.refunds, RefundedOn(o)) == Sum(d.refunds, RefundedOn(o))
    ensures Shares(e)
  {
    forall i | 0 <= i < |e.commissions| ensures ReversedRight(e.refunds, e.commissions[i]) {
      assert ReversedRight(d.refunds, d.commissions[i]);
    }
  }

  lemma RestatusShares(d: Db, e: Db, r: Id)
    requires Shares(d) && e.affiliates == d.affiliates && e.commissions == d.commissions
      && e.withdrawals == d.withdrawals
    requires r < |d.refunds| == |e.refunds| && e.refunds == d.refunds[r := d.refunds[r].(status := e.refunds[r].status)]
    requires d.refunds[r].status != RefundCompleted && e.refunds[r].status != RefundCompleted
    ensures Shares(e)
  {
    hide Shares;
    forall o: Id { SumUpdate(d.refunds, r, e.refunds[r], RefundedOn(o)); }
    RefundsShares(d, e);
  }

  lemma RequestShares(d: Db, user: Id, o: Id, payment: Option<Id>)
    requires Shares(d)
    ensures var r := Refunds.Request(d, user, o, payment); r.Some? ==> Shares(r.value)
  {
    hide Shares;
    var r := Refunds.Request(d, user, o, payment);
    if r.Some? {
      forall p: Id { SumAppend(d.refunds, r.value.refunds[|d.refunds|], RefundedOn(p)); }
      RefundsShares(d, r.value);
    }
  }

  // Reverse brings the commission of the order up to its target and no other.
  lemma ReverseShares(d: Db, o: Id)
    requires Sound(d) && Books(d.affiliates, d.commissions, d.withdrawals) && OnePerOrder(d.commissions)
    requires forall i :: 0 <= i < |d.commissions| && d.commissions[i].order != o ==>
      ReversedRight(d.refunds, d.commissions[i])
    requires forall i :: (0 <= i < |d.commissions| && d.commissions[i].order == o)
                         ==> d.commissions[i].reversed <= ReversalTarget(d.commissions[i],
                                                                         Sum(d.refunds, RefundedOn(o)))
    ensures Shares(Affiliates.Reverse(d, o))
  {
    var c := Orders.CommissionFor(d.commissions, o);
    if c < |d.commissions| {
      var x := d.commissions[c];
      assert CommissionRow(d, x);
      var target := ReversalTarget(x, Sum(d.refunds, RefundedOn(o)));
      if target > x.reversed { ReverseBooks(d.affiliates, d.commissions, d.withdrawals, c, target); }
      var e := Affiliates.Reverse(d, o);
      forall i | 0 <= i < |e.commissions| ensures ReversedRight(e.refunds, e.commissions[i]) {
        if i != c { assert d.commissions[i].order != o; }
      }
    }
  }

  // What the closing transaction leaves before the commission is reversed.
  // Before the reversal, a commission is right unless its order is the one refunded.
  lemma StillRight(d: Db, r: Id, x: Refund, g: Db, i: Id)
    requires Sound(d) && Shares(d) && r < |d.refunds| && x == d.refunds[r] && x.status == RefundProcessing
    requires g.refunds == d.refunds[r := x.(status := RefundCompleted)] && g.commissions == d.commissions
      && i < |d.commissions|
    ensures var c := d.commissions[i];
            && (c.order != x.order ==> ReversedRight(g.refunds, c))
            && (c.order == x.order ==> c.reversed <= ReversalTarget(c, Sum(g.refunds, RefundedOn(x.order))))
  {
    var c := d.commissions[i];
    assert ReversedRight(d.refunds, c) && CommissionRow(d, c);
    SumUpdate(d.refunds, r, g.refunds[r], RefundedOn(c.order));
    SumNonnegative(d.refunds, RefundedOn(c.order));
    TargetGrows(c, Sum(d.refunds, RefundedOn(c.order)), Sum(g.refunds, RefundedOn(c.order)));
  }

  lemma CompleteShares(d: Db, e: Id)
    requires Sound(d) && Shares(d)
    ensures var r := Refunds.Complete(d, e); r.Some? ==> Shares(r.value)
  {
    var result := Refunds.Complete(d, e);
    if result.Some? {
      var r := d.executions[e].refund;
      var x := d.refunds[r];
      assert RefundRow(d, x);
      var g := CompletedBeforeReversal(d, e);
      forall i | 0 <= i < |g.commissions|
        ensures g.commissions[i].order != x.order ==> ReversedRight(g.refunds, g.commissions[i])
        ensures g.commissions[i].order == x.order ==>
          g.commissions[i].reversed <= ReversalTarget(g.commissions[i], Sum(g.refunds, RefundedOn(x.order)))
      {
        StillRight(d, r, x, g, i);
      }
      hide Sound;
      ReverseShares(g, x.order);
    }
  }

  lemma CompletedBeforeReversal(d: Db, e: Id) returns (g: Db)
    requires Sound(d) && Refunds.Complete(d, e).Some?
    ensures Refunds.Complete(d, e).value == Affiliates.Reverse(g, d.refunds[d.executions[e].refund].order)
    ensures Sound(g)
    ensures g.affiliates == d.affiliates && g.commissions == d.commissions && g.withdrawals == d.withdrawals
    ensures var r := d.executions[e].refund;
            g.refunds == d.refunds[r := d.refunds[r].(status := RefundCompleted)]
              && d.refunds[r].status == RefundProcessing
  {
    hide Sound;
    var r := d.executions[e].refund;
    var x := d.refunds[r];
    var a := Refunds.Move(d, e, Closed);
    AddsNothing(d, a) by { References.MoveGrows(d, e, Closed); }
    var b := Refunds.Restatus(a, r, RefundCompleted);
    AddsNothing(a, b) by { References.RestatusGrows(a, r, RefundCompleted); }
    PostSound(b, x.user, x.balance, RefundCredit(r));
    var c := Wallet.PostUnlessZero(b, x.user, x.balance, RefundCredit(r)).value;
    var f := Refunds.CloseOrder(c, x.order);
    AddsNothing(c, f) by { References.RevokeGrows(c, x.order); }
    g := Refunds.CloseIntent(f, x);
    AddsNothing(f, g) by { References.ClosePaymentGrows(f, x); }
  }

  lemma AddsNothing(d: Db, e: Db)
    requires Sound(d) && References.Grows(d, e)
    requires e.bank == d.bank && e.referrers == d.referrers && e.plugins == d.plugins && |e.orders| == |d.orders|
    requires |e.invoices| == |d.invoices| && |e.services| == |d.services| && |e.intents| == |d.intents|
    requires |e.changes| == |d.changes| && |e.refunds| == |d.refunds| && |e.executions| == |d.executions|
    requires |e.affiliates| == |d.affiliates| && |e.commissions| == |d.commissions|
      && |e.withdrawals| == |d.withdrawals|
    requires |e.advances| == |d.advances|
    ensures Sound(e)
  {
    OldRowsStaySound(d, e);
  }

  lemma RefundShares(d: Db, op: RefundOp)
    requires Sound(d) && Shares(d)
    ensures var r := DoRefund(d, op); r.Some? ==> Shares(r.value)
  {
    hide Shares, Sound, Refunds.Complete, Refunds.Request, Refunds.MayComplete;
    var r := DoRefund(d, op);
    if r.Some? {
      match op
      case RequestRefund(user, o, payment) => RequestShares(d, user, o, payment);
      case ReviewRefund(x, _) => RestatusShares(d, r.value, x);
      case CancelRefund(_, x) => RestatusShares(d, r.value, x);
      case StartRefund(x) => RestatusShares(d, r.value, x);
      case ClaimPayment(_) => SameShares(d, r.value);
      case AskChannel(_, _) => SameShares(d, r.value);
      case ReleasePayment(_) => SameShares(d, r.value);
      case CompleteRefund(e) => CompleteShares(d, e);
      case AbortRefund(_) => SameShares(d, r.value);
      case FailRefund(e) =>
        if d.refunds[d.executions[e].refund].status == RefundProcessing {
          RestatusShares(d, r.value, d.executions[e].refund);
        }
        else { SameShares(d, r.value); }
    }
  }

  // ----- every step -----

  lemma ShareShares(d: Db, op: AffiliateOp)
    requires Sound(d) && Shares(d)
    ensures var r := DoShare(d, op); r.Some? ==> Shares(r.value)
  {
    hide Sound;
    match op
    case JoinAffiliates(user) => JoinBooks(d, user);
    case Withdraw(user, amount, minimum) => WithdrawBooks(d, user, amount, minimum);
    case ReviewWithdrawal(w, approve) => ReviewBooks(d, w, approve);
  }

  lemma PaymentShares(d: Db, op: PaymentOp)
    requires Sound(d) && Payouts.Returned(d.orders, d.refunds) && Shares(d)
    ensures var r := DoPayment(d, op); r.Some? ==> Shares(r.value)
  {
    hide Sound, Payouts.Returned, Shares, Payments.Finalize, Payments.CreateIntent, Payments.SettleFromWallet;
    var r := DoPayment(d, op);
    match op
    case SettleInvoice(user, i, now, rate, price) => SettleFromWalletShares(d, user, i, now, rate, price);
    case CreateIntent(user, purpose, target, total, wish, quoted, now, rate, price) =>
      CreateIntentShares(d, user, purpose, target, total, wish, quoted, now, rate, price);
    case CancelIntent(_, _) => if r.Some? { SameShares(d, r.value); }
    case VoidIntent(_) => if r.Some? { SameShares(d, r.value); }
    case Finalize(i, paid, now, rate, price) => FinalizeShares(d, i, paid, now, rate, price);
    case LateReceipt(_, _) => if r.Some? { SameShares(d, r.value); }
  }

  lemma SaleShares(d: Db, op: OrderOp)
    requires Sound(d) && Payouts.Returned(d.orders, d.refunds) && Shares(d)
    ensures var r := DoSale(d, op); r.Some? ==> Shares(r.value)
  {
    hide Sound, Payouts.Returned, Shares, Orders.Pay;
    var r := DoSale(d, op);
    match op
    case CreateOrder(_, _, _) => if r.Some? { SameShares(d, r.value); }
    case PayOrder(user, o, now, rate) => PayOrderShares(d, user, o, now, rate);
    case CancelOrder(_, _) => if r.Some? { SameShares(d, r.value); }
  }

  lemma OtherShares(d: Db, op: Op)
    requires Shares(d) && (op.Account? || op.Bill? || op.ProductChange?)
    ensures var r := Attempt(d, op); r.Some? ==> Shares(r.value)
  {
    hide Shares, DoAccount, DoBill, DoChange;
    match op
    case Account(a) => AccountShares(d, a);
    case Bill(b) => BillShares(d, b);
    case ProductChange(c) => ChangeShares(d, c);
  }

  lemma AccountShares(d: Db, op: AccountOp)
    requires Shares(d)
    ensures var r := DoAccount(d, op); r.Some? ==> Shares(r.value)
  {
    hide Shares;
    var r := DoAccount(d, op);
    if r.Some? { SameShares(d, r.value); }
  }

  lemma BillShares(d: Db, op: BillingOp)
    requires Shares(d)
    ensures var r := DoBill(d, op); r.Some? ==> Shares(r.value)
  {
    hide Shares, Busy;
    var r := DoBill(d, op);
    if r.Some? { SameShares(d, r.value); }
  }

  lemma ChangeShares(d: Db, op: ChangeOp)
    requires Shares(d)
    ensures var r := DoChange(d, op); r.Some? ==> Shares(r.value)
  {
    hide Shares, Changes.Fenced, Changes.TokenUsed, Changes.OfferFor;
    var r := DoChange(d, op);
    if r.Some? { SameShares(d, r.value); }
  }

  lemma StepShares(d: Db, op: Op)
    requires Sound(d) && Payouts.Returned(d.orders, d.refunds) && Shares(d)
    ensures Shares(Step(d, op))
  {
    hide Sound, Payouts.Returned, Shares, DoAccount, DoSale, DoBill, DoPayment, DoChange, DoRefund, DoShare;
    match op
    case Account(_) => OtherShares(d, op);
    case Sale(s) => SaleShares(d, s);
    case Bill(_) => OtherShares(d, op);
    case Payment(p) => PaymentShares(d, p);
    case ProductChange(_) => OtherShares(d, op);
    case Repay(x) => RefundShares(d, x);
    case Share(s) => ShareShares(d, s);
  }
}
