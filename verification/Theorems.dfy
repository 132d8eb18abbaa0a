// What holds after any run of the system, and what that means for an order, a
// renewal, a refund and a commission.
module Theorems {
  import opened Options
  import opened Calendar
  import opened Sums
  import opened Tables
  import opened Targets
  import opened Machine
  import opened Integrity
  import opened Obligations
  import Collection
  import Conservation
  import Earnings
  import Payouts
  import Pricing
  import Proration
  import Provisions
  import Renewals
  import Receipts
  import References
  import Reservations
  import Transitions
  import Wallet
  import Changes
  import Refunds
  import Affiliates

  ghost predicate Inv(d: Db) {
    && Sound(d)
    && Conservation.Balanced(d)
    && Consistent(d)
    && Collection.Accounted(d)
    && Payouts.Exclusive(d)
    && Earnings.Shares(d)
    && Renewals.History(d)
    && Provisions.Provided(d)
    && Reservations.Charged(d.bank, d.changes)
    && Pricing.Priced(d.services, d.changes)
    && Receipts.Received(d.intents)
  }

  lemma EmptyInv()
    ensures Inv(EMPTY)
  {
    hide Sound, Conservation.Balanced, Consistent, Payouts.Exclusive, Earnings.Shares, Renewals.History,
      Provisions.Provided, Reservations.Charged, Pricing.Priced, Receipts.Received, Collection.Gap;
    EmptyRows();
    EmptyBooks();
    EmptyClaims();
    forall k: Key, p: nat ensures Collection.Gap(EMPTY, k, p) == 0 { EmptyGap(k, p); }
  }

  lemma EmptyRows()
    ensures Sound(EMPTY) && Consistent(EMPTY)
  {
  }

  lemma EmptyBooks()
    ensures Conservation.Balanced(EMPTY) && Earnings.Shares(EMPTY) && Reservations.Charged(EMPTY.bank, EMPTY.changes)
  {
  }

  lemma EmptyClaims()
    ensures Payouts.Exclusive(EMPTY) && Renewals.History(EMPTY) && Provisions.Provided(EMPTY)
      && Pricing.Priced(EMPTY.services, EMPTY.changes) && Receipts.Received(EMPTY.intents)
  {
  }

  lemma EmptyGap(k: Key, p: nat)
    ensures Collection.Gap(EMPTY, k, p) == 0
  {
  }

  lemma StepInv(d: Db, op: Op)
    requires Inv(d)
    ensures Inv(Step(d, op))
  {
    assert Payouts.Returned(d.orders, d.refunds);
    hide Sound, Conservation.Balanced, Consistent, Collection.Accounted, Payouts.Exclusive, Earnings.Shares,
      Renewals.History, Provisions.Provided, Reservations.Charged, Pricing.Priced, Receipts.Received, Step;
    StepSound(d, op);
    Conservation.StepBalanced(d, op);
    StepConsistent(d, op);
    Collection.StepAccounted(d, op);
    Payouts.StepExclusive(d, op);
    Earnings.StepShares(d, op);
    Renewals.StepHistory(d, op);
    Provisions.StepProvides(d, op);
    Reservations.StepCharged(d, op);
    Pricing.StepPriced(d, op);
    Receipts.StepReceived(d, op);
  }

  // Every state that any interleaving of any users' steps can reach.
  lemma {:induction false} RunInv(ops: seq<Op>)
    ensures Inv(Run(EMPTY, ops))
  {
    hide Inv, Step;
    if |ops| == 0 {
      EmptyInv();
    } else {
      RunInv(ops[..|ops| - 1]);
      StepInv(Run(EMPTY, ops[..|ops| - 1]), ops[|ops| - 1]);
    }
  }

  // ----- money -----

  // A balance is never negative, is the sum of its owner's ledger, and is what
  // the rows around it call for; every ledger row carries the running balance.
  lemma BalancesAreAccountedFor(d: Db, u: Id)
    requires Inv(d) && u < |d.bank.balances|
    ensures 0 <= d.bank.balances[u] == Sum(d.bank.log, Wallet.AmountOf(u)) == Conservation.Net(d, u)
    ensures forall t :: 0 <= t < |d.bank.log| && d.bank.log[t].user == u
              ==> d.bank.log[t].after == Sum(d.bank.log[..t + 1], Wallet.AmountOf(u))
  {
    hide Conservation.Net;
    forall t | 0 <= t < |d.bank.log| && d.bank.log[t].user == u
      ensures d.bank.log[t].after == Sum(d.bank.log[..t + 1], Wallet.AmountOf(u))
    {
      assert Wallet.EntryOk(d.bank, t);
    }
  }

  // ----- one payment per obligation -----

  // However it is named (the order, its invoice, the service, a renewal invoice),
  // an obligation has at most one payment under way.
  lemma OnePaymentPerObligation(d: Db, i: Id, j: Id)
    requires Inv(d) && i < j < |d.intents| && Live(d.intents[i].status) && Live(d.intents[j].status)
    requires KeyOf(d.invoices, d.intents[i].purpose, d.intents[i].target).Some?
    ensures KeyOf(d.invoices, d.intents[i].purpose, d.intents[i].target)
         != KeyOf(d.invoices, d.intents[j].purpose, d.intents[j].target)
  {
    assert KeyRow(d.invoices, d.intents[i]) && KeyRow(d.invoices, d.intents[j]);
  }

  // A payment under way for an order means that the order is not settled.
  lemma LivePaymentMeansUnsettled(d: Db, i: Id, o: Id)
    requires Inv(d) && i < |d.intents| && Live(d.intents[i].status)
    requires KeyOf(d.invoices, d.intents[i].purpose, d.intents[i].target) == Some(OrderKey(o))
    ensures o < |d.orders| && Unsettled(d.orders[o].status)
  {
    assert StillDue(d.orders, d.invoices, d.intents[i]);
  }

  // The check made before a payment is opened is exact: it refuses just when some
  // payment under way has the same canonical key, so the unique index never does.
  lemma CheckIsExact(d: Db, user: Id, purpose: Purpose, target: Id)
    requires Inv(d) && LoadTarget(d, user, purpose, target).Some?
    ensures var k := LoadTarget(d, user, purpose, target).value;
            && (Busy(d, user, k) <==> exists i :: 0 <= i < |d.intents| && Live(d.intents[i].status)
                                        && KeyOf(d.invoices, d.intents[i].purpose, d.intents[i].target) == Some(k))
            && (!Busy(d, user, k) ==> !KeyTaken(d, k))
  {
    LoadedKey(d, user, purpose, target);
    var k := LoadTarget(d, user, purpose, target).value;
    hide Busy, Inv, OwnedBy, LoadTarget;
    assert Sound(d) && Consistent(d) by { InvParts(d); }
    if Busy(d, user, k) {
      var i := BusyBecause(d, user, k);
      BlocksExactly(d, user, i, k);
      assert Live(d.intents[i].status) && KeyOf(d.invoices, d.intents[i].purpose, d.intents[i].target) == Some(k);
    } else {
      CheckImpliesKeyFree(d, user, k);
      forall i | 0 <= i < |d.intents| && Live(d.intents[i].status)
        ensures KeyOf(d.invoices, d.intents[i].purpose, d.intents[i].target) != Some(k)
      {
        NotBusy(d, user, k, i);
      }
    }
  }

  lemma InvParts(d: Db)
    requires Inv(d)
    ensures Sound(d) && Consistent(d) && Keyed(d.invoices, d.intents)
  {
  }

  lemma BusyBecause(d: Db, user: Id, k: Key) returns (i: Id)
    requires Busy(d, user, k)
    ensures i < |d.intents| && Live(d.intents[i].status) && Blocks(d.invoices, d.intents[i], k)
  {
    i :| 0 <= i < |d.intents| && d.intents[i].user == user && Live(d.intents[i].status)
      && Blocks(d.invoices, d.intents[i], k);
  }

  // ----- collected exactly once -----

  predicate DebitFor(d: Db, t: int, k: Key) {
    0 <= t < |d.bank.log| && Collection.SettledBy(d.invoices, d.bank.log[t].ref) == Some(k)
  }

  predicate PaymentFor(d: Db, i: int, k: Key) {
    0 <= i < |d.intents| && Conservation.Collected(d.intents[i].status)
    && KeyOf(d.invoices, d.intents[i].purpose, d.intents[i].target) == Some(k)
  }

  lemma DebitCounts(d: Db, t: Id, k: Key) returns (p: nat)
    requires Inv(d) && DebitFor(d, t, k)
    ensures p == -d.bank.log[t].amount > 0
    ensures 1 <= Sum(d.bank.log, Collection.DebitsOf(d.invoices, k, p))
  {
    assert EntryRow(d, d.bank.log[t]) && Wallet.EntryOk(d.bank, t);
    p := -d.bank.log[t].amount;
    SumAtLeastOne(d.bank.log, t, Collection.DebitsOf(d.invoices, k, p));
  }

  lemma PaymentCounts(d: Db, i: Id, k: Key) returns (p: nat)
    requires Inv(d) && PaymentFor(d, i, k)
    ensures p == d.intents[i].amount + d.intents[i].balance > 0
    ensures 1 <= Sum(d.intents, Collection.PaymentsOf(d.invoices, k, p))
  {
    assert IntentRow(d, d.intents[i]);
    p := d.intents[i].amount + d.intents[i].balance;
    SumAtLeastOne(d.intents, i, Collection.PaymentsOf(d.invoices, k, p));
  }

  lemma CountsAreNonnegative(d: Db, k: Key, p: nat)
    ensures 0 <= Sum(d.bank.log, Collection.DebitsOf(d.invoices, k, p))
    ensures 0 <= Sum(d.intents, Collection.PaymentsOf(d.invoices, k, p))
  {
    SumNonnegative(d.bank.log, Collection.DebitsOf(d.invoices, k, p));
    SumNonnegative(d.intents, Collection.PaymentsOf(d.invoices, k, p));
  }

  // At each price an order is settled as often as it is delivered at that price.
  lemma OneSettlement(d: Db, o: Id, p: nat)
    requires Inv(d) && o < |d.orders| && p > 0
    ensures var k := OrderKey(o);
            Sum(d.bank.log, Collection.DebitsOf(d.invoices, k, p))
              + Sum(d.intents, Collection.PaymentsOf(d.invoices, k, p))
            == if !Unsettled(d.orders[o].status) && d.orders[o].total == p then 1 else 0
  {
    AccountedAt(d, OrderKey(o), p);
    hide Inv, Sum;
  }

  lemma OneDebit(d: Db, t: Id, v: Id, o: Id, p: nat)
    requires DebitFor(d, t, OrderKey(o)) && DebitFor(d, v, OrderKey(o))
    requires p == -d.bank.log[t].amount == -d.bank.log[v].amount
    requires Sum(d.bank.log, Collection.DebitsOf(d.invoices, OrderKey(o), p)) <= 1
    ensures t == v
  {
    hide Sum, KeyOf;
    if v < t { SumAtLeastTwo(d.bank.log, v, t, Collection.DebitsOf(d.invoices, OrderKey(o), p)); }
    if t < v { SumAtLeastTwo(d.bank.log, t, v, Collection.DebitsOf(d.invoices, OrderKey(o), p)); }
  }

  lemma OnePayment(d: Db, i: Id, j: Id, o: Id, p: nat)
    requires PaymentFor(d, i, OrderKey(o)) && PaymentFor(d, j, OrderKey(o))
    requires p == d.intents[i].amount + d.intents[i].balance == d.intents[j].amount + d.intents[j].balance
    requires Sum(d.intents, Collection.PaymentsOf(d.invoices, OrderKey(o), p)) <= 1
    ensures i == j
  {
    hide Sum, KeyOf;
    if j < i { SumAtLeastTwo(d.intents, j, i, Collection.PaymentsOf(d.invoices, OrderKey(o), p)); }
    if i < j { SumAtLeastTwo(d.intents, i, j, Collection.PaymentsOf(d.invoices, OrderKey(o), p)); }
  }

  lemma DebitPaysTotal(d: Db, t: Id, o: Id)
    requires Inv(d) && o < |d.orders| && DebitFor(d, t, OrderKey(o))
    ensures !Unsettled(d.orders[o].status) && -d.bank.log[t].amount == d.orders[o].total
    ensures forall i :: !PaymentFor(d, i, OrderKey(o))
    ensures forall v :: DebitFor(d, v, OrderKey(o)) ==> v == t
  {
    hide Inv, Sum, DebitFor, PaymentFor, Collection.DebitsOf, Collection.PaymentsOf;
    var k := OrderKey(o);
    var p := DebitCounts(d, t, k);
    CountsAreNonnegative(d, k, p);
    OneSettlement(d, o, p);
    forall i ensures !PaymentFor(d, i, k) {
      if PaymentFor(d, i, k) {
        PaymentInRange(d, i, k);
        var q := PaymentCounts(d, i, k);
        CountsAreNonnegative(d, k, q);
        OneSettlement(d, o, q);
      }
    }
    forall v | DebitFor(d, v, k) ensures v == t {
      DebitInRange(d, v, k);
      var q := DebitCounts(d, v, k);
      CountsAreNonnegative(d, k, q);
      OneSettlement(d, o, q);
      OneDebit(d, t, v, o, p);
    }
  }

  lemma DebitInRange(d: Db, t: int, k: Key)
    requires DebitFor(d, t, k)
    ensures 0 <= t < |d.bank.log|
  {
  }

  lemma PaymentInRange(d: Db, i: int, k: Key)
    requires PaymentFor(d, i, k)
    ensures 0 <= i < |d.intents|
  {
  }

  lemma PaymentPaysTotal(d: Db, i: Id, o: Id)
    requires Inv(d) && o < |d.orders| && PaymentFor(d, i, OrderKey(o))
    ensures !Unsettled(d.orders[o].status) && d.intents[i].amount + d.intents[i].balance == d.orders[o].total
    ensures forall t :: !DebitFor(d, t, OrderKey(o))
    ensures forall j :: PaymentFor(d, j, OrderKey(o)) ==> j == i
  {
    hide Inv, Sum, DebitFor, PaymentFor, Collection.DebitsOf, Collection.PaymentsOf;
    var k := OrderKey(o);
    var p := PaymentCounts(d, i, k);
    CountsAreNonnegative(d, k, p);
    OneSettlement(d, o, p);
    forall t ensures !DebitFor(d, t, k) {
      if DebitFor(d, t, k) {
        DebitInRange(d, t, k);
        DebitPaysTotal(d, t, o);
      }
    }
    forall j | PaymentFor(d, j, k) ensures j == i {
      PaymentInRange(d, j, k);
      var q := PaymentCounts(d, j, k);
      CountsAreNonnegative(d, k, q);
      OneSettlement(d, o, q);
      OnePayment(d, i, j, o, p);
    }
  }

  // A settled order was settled once and for its whole total, by one debit or by
  // one payment whose channel and wallet parts add up to it; an order that is not
  // settled was charged nothing.
  lemma OrderCollectedOnce(d: Db, o: Id)
    requires Inv(d) && o < |d.orders|
    ensures Unsettled(d.orders[o].status) ==> forall t :: !DebitFor(d, t, OrderKey(o)) && !PaymentFor(d, t, OrderKey(o))
    ensures !Unsettled(d.orders[o].status) && d.orders[o].total > 0 ==>
              (exists t :: DebitFor(d, t, OrderKey(o))) || (exists i :: PaymentFor(d, i, OrderKey(o)))
    ensures forall t :: DebitFor(d, t, OrderKey(o)) ==> -d.bank.log[t].amount == d.orders[o].total
    ensures forall i :: PaymentFor(d, i, OrderKey(o)) ==>
      d.intents[i].amount + d.intents[i].balance == d.orders[o].total
    ensures forall t, i :: DebitFor(d, t, OrderKey(o)) ==> !PaymentFor(d, i, OrderKey(o))
    ensures forall t, v :: DebitFor(d, t, OrderKey(o)) && DebitFor(d, v, OrderKey(o)) ==> t == v
    ensures forall i, j :: PaymentFor(d, i, OrderKey(o)) && PaymentFor(d, j, OrderKey(o)) ==> i == j
  {
    var k, p := OrderKey(o), d.orders[o].total;
    hide Inv;
    forall t | DebitFor(d, t, k)
      ensures !Unsettled(d.orders[o].status) && -d.bank.log[t].amount == p
      ensures (forall i :: !PaymentFor(d, i, k)) && (forall v :: DebitFor(d, v, k) ==> v == t)
    {
      DebitPaysTotal(d, t, o);
    }
    forall i | PaymentFor(d, i, k)
      ensures !Unsettled(d.orders[o].status) && d.intents[i].amount + d.intents[i].balance == p
      ensures (forall t :: !DebitFor(d, t, k)) && (forall j :: PaymentFor(d, j, k) ==> j == i)
    {
      PaymentPaysTotal(d, i, o);
    }
    if !Unsettled(d.orders[o].status) && p > 0 && (forall t :: !DebitFor(d, t, k))
      && (forall i :: !PaymentFor(d, i, k)) {
      assert Collection.Gap(d, k, p) == 0 by { AccountedAt(d, k, p); }
      forall t | 0 <= t < |d.bank.log| ensures Collection.DebitsOf(d.invoices, k, p)(d.bank.log[t]) == 0 {
        assert !DebitFor(d, t, k);
      }
      forall i | 0 <= i < |d.intents| ensures Collection.PaymentsOf(d.invoices, k, p)(d.intents[i]) == 0 {
        assert !PaymentFor(d, i, k);
      }
      SumZero(d.bank.log, Collection.DebitsOf(d.invoices, k, p));
      SumZero(d.intents, Collection.PaymentsOf(d.invoices, k, p));
      assert false;
    }
  }

  lemma AccountedAt(d: Db, k: Key, p: nat)
    requires Inv(d) && p > 0
    ensures Collection.Gap(d, k, p) == 0
  {
  }

  // What an order paid for exists once: a service for each unit of each line from
  // its settlement on, and none before. A service's extra traffic is what its paid
  // packs add up to.
  lemma ProvidedAsPaid(d: Db, o: Id, s: Id)
    requires Inv(d)
    ensures o < |d.orders| ==>
              Sum(d.services, Provisions.OfOrder(o)) == if Unsettled(d.orders[o].status) then 0
                else Provisions.Units(d.orders[o].lines)
    ensures s < |d.services| ==> d.services[s].extraTraffic == Sum(d.invoices, Provisions.TrafficOf(s))
  {
    assert Sum(d.services, Provisions.OfOrder(o)) == Provisions.Owed(d.orders, o);
  }

  // ----- changes -----

  // A service's reservation names a change exactly while that change is open, so
  // it has at most one; and while it is open nothing renews the service.
  lemma OneOpenChange(d: Db, b: Id, c: Id)
    requires Inv(d) && b < |d.changes| && c < |d.changes| && d.changes[b].service == d.changes[c].service
    requires Changes.Open(d.changes[b].status) && Changes.Open(d.changes[c].status)
    ensures b == c && d.changes[c].service < |d.services| && d.services[d.changes[c].service].change == Some(c)
  {
    assert ChangeHeld(d.services, d.changes, b) && ChangeHeld(d.services, d.changes, c);
  }

  // Each change has cost its charge while open, its charge less its credit when
  // applied, and nothing when failed.
  lemma ChargeStands(d: Db, c: Id)
    requires Inv(d) && c < |d.changes|
    ensures Sum(d.bank.log, Reservations.OfChange(c)) == Reservations.Standing(d.changes[c])
  {
    assert Sum(d.bank.log, Reservations.OfChange(c)) == Reservations.StandingAt(d.changes, c);
  }

  // Changes of a service that were applied one after the other, quoted at one
  // instant, cost at every point what the chain of its prices would, exactly when
  // each was quoted from the price the service had when it was reserved.
  lemma ChainOfChangesIffFresh(d: Db, s: Id, i: nat, j: nat, remaining: nat, cycle: int)
    requires Inv(d) && Pricing.Chain(d, s, i, j, remaining, cycle) && cycle <= remaining
    ensures var xs := Pricing.AppliedOf(d.changes, s)[i..j];
            (forall k :: 0 < k <= |xs| ==>
              Pricing.Costs(xs[..k]) == Proration.ChainNet(Pricing.PricesThrough(xs[..k]), remaining, cycle))
            <==> (forall k :: 0 <= k < |xs| ==> Pricing.Fresh(xs[k]))
  {
    assert Pricing.Priced(d.services, d.changes);
    hide Inv;
    Pricing.ChainIsLinked(d, s, i, j, remaining, cycle);
    Pricing.ChainIffFresh(Pricing.AppliedOf(d.changes, s)[i..j], remaining, cycle);
  }

  // Such a chain that ends at the price it started from nets to less than a cent a
  // change, in either direction, if each was quoted from the current price.
  lemma FreshChangesCannotBeFarmed(d: Db, s: Id, i: nat, j: nat, remaining: nat, cycle: int)
    requires Inv(d) && Pricing.Chain(d, s, i, j, remaining, cycle)
    requires var xs := Pricing.AppliedOf(d.changes, s)[i..j];
             (forall k :: 0 <= k < |xs| ==> Pricing.Fresh(xs[k])) && xs[|xs| - 1].price == xs[0].basis.held
    ensures i - j < Pricing.Costs(Pricing.AppliedOf(d.changes, s)[i..j]) < j - i
  {
    assert Pricing.Priced(d.services, d.changes);
    hide Inv;
    Pricing.ChainIsLinked(d, s, i, j, remaining, cycle);
    Pricing.FreshClosedChain(Pricing.AppliedOf(d.changes, s)[i..j], remaining, cycle);
  }

  lemma OpenChangeStopsRenewals(d: Db, c: Id, op: Op)
    requires Inv(d) && c < |d.changes| && Changes.Open(d.changes[c].status)
    ensures d.changes[c].service < |d.services| <= |Step(d, op).services|
    ensures Step(d, op).services[d.changes[c].service].expires == d.services[d.changes[c].service].expires
  {
    assert ChangeHeld(d.services, d.changes, c);
    hide Inv, Step;
    Transitions.StepLawful(d, op);
  }

  // A closed change stays as it is: it was applied or undone once and for all.
  lemma {:induction false} ClosedChangeStays(d: Db, c: Id, ops: seq<Op>)
    requires c < |d.changes| && !Changes.Open(d.changes[c].status)
    ensures c < |Run(d, ops).changes| && Run(d, ops).changes[c].status == d.changes[c].status
  {
    hide Step;
    if |ops| > 0 {
      ClosedChangeStays(d, c, ops[..|ops| - 1]);
      Transitions.StepLawful(Run(d, ops[..|ops| - 1]), ops[|ops| - 1]);
    }
  }

  // A refunded or cancelled order never comes back.
  lemma {:induction false} FinishedOrderStays(d: Db, o: Id, ops: seq<Op>)
    requires o < |d.orders| && (d.orders[o].status == OrderRefunded || d.orders[o].status == OrderCancelled)
    ensures o < |Run(d, ops).orders| && Run(d, ops).orders[o].status == d.orders[o].status
  {
    hide Step;
    if |ops| > 0 {
      FinishedOrderStays(d, o, ops[..|ops| - 1]);
      Transitions.StepLawful(Run(d, ops[..|ops| - 1]), ops[|ops| - 1]);
    }
  }

  // A payment that came too late or was paid back never funds anything again.
  lemma {:induction false} FinishedPaymentStays(d: Db, i: Id, ops: seq<Op>)
    requires i < |d.intents| && (d.intents[i].status == IntentLate || d.intents[i].status == IntentRefunded)
    ensures i < |Run(d, ops).intents| && Run(d, ops).intents[i].status == d.intents[i].status
  {
    hide Step;
    if |ops| > 0 {
      FinishedPaymentStays(d, i, ops[..|ops| - 1]);
      Transitions.StepLawful(Run(d, ops[..|ops| - 1]), ops[|ops| - 1]);
    }
  }

  // ----- refunds -----

  // Of all runs of all requests, at most one asks the channel for a payment and
  // is not refused.
  lemma OnePayoutPerPayment(d: Db, e: Id, f: Id)
    requires Inv(d) && e < |d.executions| && f < |d.executions|
    requires MayHavePaid(d.executions[e]) && MayHavePaid(d.executions[f])
    requires d.executions[e].refund < |d.refunds| && d.executions[f].refund < |d.refunds|
    requires d.refunds[d.executions[e].refund].payment == d.refunds[d.executions[f].refund].payment
    ensures e == f
  {
    assert Payouts.RunRow(d.refunds, d.executions[e]) && Payouts.RunRow(d.refunds, d.executions[f]);
    var p := d.refunds[d.executions[e].refund].payment.value;
    assert Payouts.Holds(d.refunds, d.executions[e], p) && Payouts.Holds(d.refunds, d.executions[f], p);
  }

  // An order is credited by one completed request at most.
  lemma OneCreditPerOrder(d: Db, r: Id, q: Id)
    requires Inv(d) && r < |d.refunds| && q < |d.refunds| && d.refunds[r].order == d.refunds[q].order
    requires d.refunds[r].status == RefundCompleted && d.refunds[q].status == RefundCompleted
    ensures r == q && d.orders[d.refunds[r].order].status == OrderRefunded
  {
  }

  // The channel paid out, or nobody knows that it did not.
  predicate MayHavePaid(x: Execution) { x.reply == Some(Accepted) || x.reply == Some(Unclear) }

  function PayoutOf(refunds: seq<Refund>, o: Id): Execution -> int {
    (x: Execution) =>
      if x.refund < |refunds| && refunds[x.refund].order == o && MayHavePaid(x) then refunds[x.refund].channel else 0
  }

  function CreditOf(o: Id): Refund -> int {
    (x: Refund) => if x.order == o && x.status == RefundCompleted then x.balance else 0
  }

  // All that went back for an order, or may have: through the channel and into the
  // wallet.
  function ReturnedFor(d: Db, o: Id): int {
    Sum(d.executions, PayoutOf(d.refunds, o)) + Sum(d.refunds, CreditOf(o))
  }

  predicate PaidOut(d: Db, e: int, o: Id) {
    0 <= e < |d.executions| && d.executions[e].refund < |d.refunds| && d.refunds[d.executions[e].refund].order == o
    && MayHavePaid(d.executions[e])
  }

  predicate Credited(d: Db, r: int, o: Id) {
    0 <= r < |d.refunds| && d.refunds[r].order == o && d.refunds[r].status == RefundCompleted
  }

  // A request that named no payment was completed for an order whose channel
  // payment was paid back as well, or may have been.
  ghost predicate WalletOnTop(d: Db, o: Id) {
    (exists e :: PaidOut(d, e, o)) && (exists r :: Credited(d, r, o) && d.refunds[r].payment.None?)
  }

  // Requests for an order that name a payment name the same one.
  lemma SamePayment(d: Db, r: Id, q: Id)
    requires Inv(d) && r < |d.refunds| && q < |d.refunds| && d.refunds[r].order == d.refunds[q].order
    requires d.refunds[r].payment.Some? && d.refunds[q].payment.Some?
    ensures d.refunds[r].payment == d.refunds[q].payment
    ensures d.refunds[r].channel == d.refunds[q].channel && d.refunds[r].balance == d.refunds[q].balance
  {
    var o := d.refunds[r].order;
    assert RefundRow(d, d.refunds[r]) && RefundRow(d, d.refunds[q]);
    var i, j := d.refunds[r].payment.value, d.refunds[q].payment.value;
    assert Payouts.CollectedAt(d.intents, i) && Payouts.CollectedAt(d.intents, j);
    assert PaymentFor(d, i, OrderKey(o)) && PaymentFor(d, j, OrderKey(o));
    PaymentPaysTotal(d, i, o);
  }

  lemma PaidOutIsChannel(d: Db, e: Id, o: Id)
    requires Inv(d) && PaidOut(d, e, o)
    ensures Sum(d.executions, PayoutOf(d.refunds, o)) == d.refunds[d.executions[e].refund].channel > 0
    ensures d.refunds[d.executions[e].refund].payment.Some?
  {
    assert Payouts.RunRow(d.refunds, d.executions[e]);
    forall f | 0 <= f < |d.executions| && f != e ensures PayoutOf(d.refunds, o)(d.executions[f]) == 0 {
      if PaidOut(d, f, o) {
        assert Payouts.RunRow(d.refunds, d.executions[f]);
        SamePayment(d, d.executions[e].refund, d.executions[f].refund);
        OnePayoutPerPayment(d, e, f);
        assert false;
      }
    }
    SumOnly(d.executions, e, PayoutOf(d.refunds, o));
  }

  lemma CreditedIsBalance(d: Db, r: Id, o: Id)
    requires Inv(d) && Credited(d, r, o)
    ensures Sum(d.refunds, CreditOf(o)) == d.refunds[r].balance
    ensures forall q :: Credited(d, q, o) ==> q == r
  {
    forall q | Credited(d, q, o) ensures q == r { OneCreditPerOrder(d, r, q); }
    forall q | 0 <= q < |d.refunds| && q != r ensures CreditOf(o)(d.refunds[q]) == 0 {
      assert !Credited(d, q, o);
    }
    SumOnly(d.refunds, r, CreditOf(o));
  }

  // More goes back than was paid exactly when a request for the wallet alone is
  // completed and the channel paid out too, in whichever order; otherwise at most
  // the order's total.
  lemma ReturnedAtMostPaid(d: Db, o: Id)
    requires Inv(d) && o < |d.orders|
    ensures ReturnedFor(d, o) > d.orders[o].total <==> WalletOnTop(d, o)
  {
    var total := d.orders[o].total;
    hide Inv, Sum;
    if e :| PaidOut(d, e, o) {
      PaidOutIsChannel(d, e, o);
      var x := d.refunds[d.executions[e].refund];
      RefundIsTotal(d, d.executions[e].refund);
      if r :| Credited(d, r, o) {
        CreditedIsBalance(d, r, o);
        RefundIsTotal(d, r);
        if d.refunds[r].payment.Some? { SamePayment(d, d.executions[e].refund, r); }
      } else {
        NothingCredited(d, o);
      }
    } else {
      NothingPaidOut(d, o);
      if r :| Credited(d, r, o) {
        CreditedIsBalance(d, r, o);
        RefundIsTotal(d, r);
      } else {
        NothingCredited(d, o);
      }
    }
  }

  lemma RefundIsTotal(d: Db, r: Id)
    requires Inv(d) && r < |d.refunds|
    ensures d.refunds[r].order < |d.orders|
    ensures d.refunds[r].channel + d.refunds[r].balance == d.orders[d.refunds[r].order].total
    ensures d.refunds[r].payment.None? ==> d.refunds[r].channel == 0
  {
    assert RefundRow(d, d.refunds[r]);
  }

  lemma NothingCredited(d: Db, o: Id)
    requires forall r :: !Credited(d, r, o)
    ensures Sum(d.refunds, CreditOf(o)) == 0
  {
    forall r | 0 <= r < |d.refunds| ensures CreditOf(o)(d.refunds[r]) == 0 { assert !Credited(d, r, o); }
    SumZero(d.refunds, CreditOf(o));
  }

  lemma NothingPaidOut(d: Db, o: Id)
    requires forall e :: !PaidOut(d, e, o)
    ensures Sum(d.executions, PayoutOf(d.refunds, o)) == 0
  {
    forall e | 0 <= e < |d.executions| ensures PayoutOf(d.refunds, o)(d.executions[e]) == 0 {
      assert !PaidOut(d, e, o);
    }
    SumZero(d.executions, PayoutOf(d.refunds, o));
  }

  // Seen before it happens: completing a request returns too much exactly when the
  // request names no payment although a run for the order was paid out or is in
  // doubt.
  lemma CompletingReturnsTooMuch(d: Db, e: Id)
    requires Inv(d) && Refunds.Complete(d, e).Some?
    requires e < |d.executions| && d.executions[e].refund < |d.refunds|
    ensures var r := d.executions[e].refund;
            var o := d.refunds[r].order;
            var after := Refunds.Complete(d, e).value;
            o < |d.orders| == |after.orders| && after.orders[o].total == d.orders[o].total
            && (ReturnedFor(after, o) > d.orders[o].total <==>
                d.refunds[r].payment.None? && exists f :: PaidOut(d, f, o))
  {
    var r := d.executions[e].refund;
    var o := d.refunds[r].order;
    var after := Refunds.Complete(d, e).value;
    hide Inv, Step, Refunds.Complete, ReturnedFor, PaidOut, Credited, WalletOnTop;
    CompletingAsStep(d, e);
    StepInv(d, Repay(CompleteRefund(e)));
    CompletingShows(d, e, o);
    ReturnedAtMostPaid(after, o);
    CreditedIsBalance(after, r, o);
    OnTopOfOneCredit(after, r, o);
  }

  // The other step that can: asking the channel, under the claim, returns too much
  // exactly when a request of the order that names no payment was completed before.
  lemma AskingReturnsTooMuch(d: Db, e: Id, reply: Reply)
    requires Inv(d) && Refunds.AskChannel(d, e, reply).Some? && reply != Rejected
    requires e < |d.executions| && d.executions[e].refund < |d.refunds|
    ensures var o := d.refunds[d.executions[e].refund].order;
            var after := Refunds.AskChannel(d, e, reply).value;
            o < |d.orders| && after.orders == d.orders
            && (ReturnedFor(after, o) > d.orders[o].total <==>
                exists r :: Credited(d, r, o) && d.refunds[r].payment.None?)
  {
    var o := d.refunds[d.executions[e].refund].order;
    var after := Refunds.AskChannel(d, e, reply).value;
    AskingAsStep(d, e, reply);
    AskingPays(d, e, reply);
    RefundIsTotal(d, d.executions[e].refund);
    hide Inv, Step, Refunds.AskChannel, ReturnedFor, PaidOut;
    StepInv(d, Repay(AskChannel(e, reply)));
    ReturnedAtMostPaid(after, o);
    assert PaidOut(after, e, o);
    forall r ensures Credited(after, r, o) <==> Credited(d, r, o) { }
  }

  lemma AskingAsStep(d: Db, e: Id, reply: Reply)
    requires Refunds.AskChannel(d, e, reply).Some?
    ensures Step(d, Repay(AskChannel(e, reply))) == Refunds.AskChannel(d, e, reply).value
  {
  }

  // The claim is held, so the reply is the channel's.
  lemma AskingPays(d: Db, e: Id, reply: Reply)
    requires Inv(d) && Refunds.AskChannel(d, e, reply).Some? && reply != Rejected
    ensures var after := Refunds.AskChannel(d, e, reply).value;
            && e < |d.executions| && d.executions[e].refund < |d.refunds|
            && PaidOut(after, e, d.refunds[d.executions[e].refund].order)
            && after.refunds == d.refunds && after.orders == d.orders
  {
    assert Refunds.At(d, e, PaymentClaimed) && Payouts.Exclusive(d);
    Payouts.ClaimStaysValid(d, e);
    hide Inv;
  }

  // No step but these two ever takes what is returned above what was paid.
  predicate MayReturn(op: Op) {
    op.Repay? && (op.repay.CompleteRefund? || (op.repay.AskChannel? && op.repay.reply != Rejected))
  }

  lemma NothingElseReturnsTooMuch(d: Db, op: Op, o: Id)
    requires Inv(d) && o < |d.orders| && !MayReturn(op)
    ensures o < |Step(d, op).orders| && Step(d, op).orders[o].total == d.orders[o].total
    ensures ReturnedFor(Step(d, op), o) > d.orders[o].total ==> ReturnedFor(d, o) > d.orders[o].total
  {
    var e := Step(d, op);
    References.StepGrows(d, op);
    assert |d.orders| <= |e.orders| && References.SameOrder(d.orders[o], e.orders[o]);
    NothingMorePaid(d, op, o);
    hide Inv, Step, ReturnedFor, PaidOut, Credited;
    StepInv(d, op);
    ReturnedAtMostPaid(d, o);
    ReturnedAtMostPaid(e, o);
  }

  lemma NothingMorePaid(d: Db, op: Op, o: Id)
    requires Sound(d) && !MayReturn(op)
    ensures forall f :: PaidOut(Step(d, op), f, o) ==> PaidOut(d, f, o)
    ensures forall r :: Credited(Step(d, op), r, o) ==> Credited(d, r, o) && Step(d, op).refunds[r] == d.refunds[r]
  {
    forall f | 0 <= f < |d.executions| ensures d.executions[f].refund < |d.refunds| {
      assert ExecutionRow(d, d.executions[f]);
    }
    hide Sound;
    if op.Repay? {
      RequestsPayNothing(d, op.repay, o);
    } else {
      Payouts.OthersApart(d, op);
      hide Step;
    }
  }

  lemma RequestsPayNothing(d: Db, op: RefundOp, o: Id)
    requires !op.CompleteRefund? && (op.AskChannel? ==> op.reply == Rejected)
    requires forall f :: 0 <= f < |d.executions| ==> d.executions[f].refund < |d.refunds|
    ensures var r := DoRefund(d, op);
            r.Some? ==> && (forall f :: PaidOut(r.value, f, o) ==> PaidOut(d, f, o))
                        && (forall x :: Credited(r.value, x, o) ==>
                            Credited(d, x, o) && r.value.refunds[x] == d.refunds[x])
  {
    hide PaidOut, Credited;
    var r := DoRefund(d, op);
    if r.Some? {
      RepliesStay(d, op);
      CompletionsStay(d, op);
      NoneNew(d, r.value, o);
    }
  }

  // Neither is a reply taken for a payout, nor a request completed.
  ghost predicate NoNewReply(d: Db, e: Db) {
    && |d.executions| <= |e.executions| && |d.refunds| <= |e.refunds|
    && (forall f :: 0 <= f < |e.executions| && MayHavePaid(e.executions[f]) ==>
        f < |d.executions| && MayHavePaid(d.executions[f]) && e.executions[f].refund == d.executions[f].refund)
    && (forall x :: 0 <= x < |d.refunds| ==> e.refunds[x].order == d.refunds[x].order)
  }

  ghost predicate NoNewCompletion(d: Db, e: Db) {
    forall x :: 0 <= x < |e.refunds| && e.refunds[x].status == RefundCompleted ==>
      x < |d.refunds| && e.refunds[x] == d.refunds[x]
  }

  lemma RepliesStay(d: Db, op: RefundOp)
    requires !op.CompleteRefund? && (op.AskChannel? ==> op.reply == Rejected)
    ensures var r := DoRefund(d, op); r.Some? ==> NoNewReply(d, r.value)
  {
    hide Refunds.Complete;
  }

  lemma CompletionsStay(d: Db, op: RefundOp)
    requires !op.CompleteRefund?
    ensures var r := DoRefund(d, op); r.Some? ==> NoNewCompletion(d, r.value)
  {
    hide Refunds.Complete;
  }

  lemma NoneNew(d: Db, e: Db, o: Id)
    requires NoNewReply(d, e) && NoNewCompletion(d, e)
    requires forall f :: 0 <= f < |d.executions| ==> d.executions[f].refund < |d.refunds|
    ensures forall f :: PaidOut(e, f, o) ==> PaidOut(d, f, o)
    ensures forall x :: Credited(e, x, o) ==> Credited(d, x, o) && e.refunds[x] == d.refunds[x]
  {
  }

  lemma OnTopOfOneCredit(d: Db, r: Id, o: Id)
    requires Credited(d, r, o) && forall q :: Credited(d, q, o) ==> q == r
    ensures WalletOnTop(d, o) <==> d.refunds[r].payment.None? && exists f :: PaidOut(d, f, o)
  {
    hide PaidOut;
  }

  lemma CompletingAsStep(d: Db, e: Id)
    requires Refunds.Complete(d, e).Some?
    ensures Step(d, Repay(CompleteRefund(e))) == Refunds.Complete(d, e).value
  {
    hide Refunds.Complete;
  }

  // The closing transaction changes no reply, and completes one request.
  lemma CompletingShows(d: Db, e: Id, o: Id)
    requires Refunds.Complete(d, e).Some?
    requires e < |d.executions| && d.executions[e].refund < |d.refunds| && d.refunds[d.executions[e].refund].order == o
    ensures var after, r := Refunds.Complete(d, e).value, d.executions[e].refund;
            && o < |d.orders| == |after.orders| && after.orders[o].total == d.orders[o].total
            && (forall f :: PaidOut(after, f, o) <==> PaidOut(d, f, o))
            && |after.refunds| == |d.refunds| && Credited(after, r, o)
              && after.refunds[r].payment == d.refunds[r].payment
  {
    Payouts.CompleteTables(d, e);
    hide Refunds.Complete;
  }

  // What the channel reported for a payment that counts, with its wallet part, is what
  // was paid for costs.
  lemma ReceivedInFull(d: Db, i: Id)
    requires Inv(d) && i < |d.intents| && Conservation.Collected(d.intents[i].status)
    ensures var x := d.intents[i];
            && x.received == x.amount
            && (x.purpose == ForOrder ==>
                x.target < |d.orders| && x.received + x.balance == d.orders[x.target].total)
            && (x.purpose == ForInvoice ==>
                x.target < |d.invoices| && x.received + x.balance == d.invoices[x.target].total)
  {
    assert IntentRow(d, d.intents[i]) && Receipts.InFull(d.intents[i]);
  }

  // ----- renewals -----

  // Renewals are paid for one by one: of each service, at each price, as many
  // renewals took effect as were collected, by debit, by payment or by invoice.
  lemma RenewalsCollectedOnce(d: Db, s: Id, p: nat)
    requires Inv(d) && p > 0
    ensures Sum(d.advances, Collection.AdvancesOf(s, p))
         == Sum(d.bank.log, Collection.DebitsOf(d.invoices, RenewalKey(s), p))
            + Sum(d.intents, Collection.PaymentsOf(d.invoices, RenewalKey(s), p))
  {
    AccountedAt(d, RenewalKey(s), p);
  }

  // ----- commissions -----

  // A commission is reversed in full once its order is refunded, and not before.
  lemma CommissionFollowsOrder(d: Db, c: Id)
    requires Inv(d) && c < |d.commissions|
    ensures d.commissions[c].order < |d.orders|
    ensures d.commissions[c].reversed ==
            if d.orders[d.commissions[c].order].status == OrderRefunded then d.commissions[c].amount else 0
  {
    var x := d.commissions[c];
    assert CommissionRow(d, x) && Earnings.ReversedRight(d.refunds, x);
    Earnings.TargetBounds(x, 0);
    Earnings.TargetBounds(x, x.paid);
    if d.orders[x.order].status == OrderRefunded {
      assert Payouts.CompletedFor(d.refunds, x.order);
      var r :| 0 <= r < |d.refunds| && d.refunds[r].order == x.order && d.refunds[r].status == RefundCompleted;
      assert RefundRow(d, d.refunds[r]);
      CreditedIsBalance(d, r, x.order);
      forall q | 0 <= q < |d.refunds| && q != r ensures Affiliates.RefundedOn(x.order)(d.refunds[q]) == 0 {
        assert !Credited(d, q, x.order);
      }
      SumOnly(d.refunds, r, Affiliates.RefundedOn(x.order));
    } else {
      Earnings.NothingRefunded(d, x.order);
    }
  }
}
