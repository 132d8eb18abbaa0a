// Runs that show where an expected property fails.
//
// The first returns an order's price twice. The channel pays a refund out, but
// the closing transaction that should record it is lost; the request ends as
// failed and the payment stays claimed. A second request for the same order then
// finds no paid payment, takes the order for one paid from the wallet, and is
// completed in full.
//
// The second does so the other way round: the channel is asked after the wallet was
// credited.
//
// In the other two a refund is completed and the service it paid for is in use
// again afterwards: one was suspended for its expiry when the refund came, and the
// other was still waiting for its host.
module Witness {
  import opened Options
  import opened Calendar
  import opened Tables
  import opened Targets
  import opened Machine
  import opened Theorems
  import Wallet
  import Orders
  import Refunds
  import Entitlements

  const LINE: Line := Line(0, 100, 1, OneTime, false)
  const SOLD: Order := Order(0, OrderPending, 100, [LINE])
  const BILL: Invoice := Invoice(0, Some(0), None, None, InvoiceUnpaid, 100)
  const PAYMENT: Intent := Intent(0, ForOrder, 0, 100, 0, IntentPending, Some(OrderKey(0)), 0)
  const BY_CHANNEL: Refund := Refund(0, 0, Some(0), 100, 100, 0, RefundPending)
  const BY_WALLET: Refund := Refund(0, 0, None, 100, 0, 100, RefundPending)

  const D1: Db := EMPTY.(bank := Bank([0], []), referrers := [None])
  const D2: Db := D1.(orders := [SOLD], invoices := [BILL])
  const D3: Db := D2.(intents := [PAYMENT])
  const D4: Db := D3.(orders := [SOLD.(status := OrderPaid)],
                      invoices := [BILL.(status := InvoicePaid)],
                      services := [Orders.NewService(0, 0, LINE, 0)],
                      intents := [PAYMENT.(status := IntentPaid, key := None, received := 100)])
  const D5: Db := D4.(refunds := [BY_CHANNEL])
  const D6: Db := D5.(refunds := [BY_CHANNEL.(status := RefundProcessing)],
                      executions := [Execution(0, RequestClaimed, None)])
  const D7: Db := D6.(executions := [Execution(0, PaymentClaimed, None)],
                      intents := [D4.intents[0].(status := IntentRefunding)])
  const D8: Db := D7.(executions := [Execution(0, Replied, Some(Accepted))])
  const D9: Db := D8.(executions := [Execution(0, Aborted, Some(Accepted))])
  const D10: Db := D9.(refunds := [BY_CHANNEL.(status := RefundFailed)],
                       executions := [Execution(0, Closed, Some(Accepted))])
  const D11: Db := D10.(refunds := [BY_CHANNEL.(status := RefundFailed), BY_WALLET])
  const D12: Db := D11.(refunds := [BY_CHANNEL.(status := RefundFailed), BY_WALLET.(status := RefundProcessing)],
                        executions := [Execution(0, Closed, Some(Accepted)), Execution(1, RequestClaimed, None)])

  lemma Sells()
    ensures Step(EMPTY, Account(Register(None))) == D1
    ensures Step(D1, Sale(CreateOrder(0, [LINE], 0))) == D2
  {
    assert [LINE][..0] == [];
    assert Orders.LinesTotal([LINE]) == 100;
  }

  lemma Opens()
    ensures Step(D2, Payment(CreateIntent(0, ForOrder, 0, 100, 0, None, 0, 0, None))) == D3
  {
  }

  lemma Pays()
    ensures Step(D3, Payment(Finalize(0, 100, 0, 0, None))) == D4
  {
    var x := D3.invoices;
    assert x[..0] == [] && Orders.InvoiceFor(x, 0) == 0;
    assert [LINE][..0] == [];
    assert Orders.NewServices(0, 0, [LINE], 0) == [Orders.NewService(0, 0, LINE, 0)];
    assert Orders.Settle(D3, 0, 0, 0, 0) == Some(Orders.MarkPaid(D3, 0, 0, 0));
  }

  lemma Claims()
    ensures Step(D4, Repay(RequestRefund(0, 0, Some(0)))) == D5
    ensures Step(D5, Repay(StartRefund(0))) == D6
  {
  }

  lemma PaysOut()
    ensures Step(D6, Repay(ClaimPayment(0))) == D7
    ensures Step(D7, Repay(AskChannel(0, Accepted))) == D8
  {
  }

  lemma LosesTheRecord()
    ensures Step(D8, Repay(AbortRefund(0))) == D9
    ensures Step(D9, Repay(FailRefund(0))) == D10
  {
  }

  lemma AsksAgain()
    ensures Step(D10, Repay(RequestRefund(0, 0, None))) == D11
    ensures Step(D11, Repay(StartRefund(1))) == D12
  {
  }

  lemma ReturnsAgain()
    ensures WalletOnTop(Step(D12, Repay(CompleteRefund(1))), 0)
    ensures |Step(D12, Repay(CompleteRefund(1))).orders| == 1
  {
    var d := Refunds.Complete(D12, 1);
    assert d.Some?;
    assert PaidOut(d.value, 0, 0) && Credited(d.value, 1, 0) && d.value.refunds[1].payment.None?;
  }

  // The run, one operation after the other.
  const TWICE: seq<Op> :=
    [Account(Register(None)), Sale(CreateOrder(0, [LINE], 0)),
     Payment(CreateIntent(0, ForOrder, 0, 100, 0, None, 0, 0, None)), Payment(Finalize(0, 100, 0, 0, None)),
     Repay(RequestRefund(0, 0, Some(0))), Repay(StartRefund(0)), Repay(ClaimPayment(0)), Repay(AskChannel(0, Accepted)),
     Repay(AbortRefund(0)), Repay(FailRefund(0)), Repay(RequestRefund(0, 0, None)), Repay(StartRefund(1)),
     Repay(CompleteRefund(1))]

  lemma Goes(ops: seq<Op>, n: nat)
    requires n < |ops|
    ensures Run(EMPTY, ops[..n + 1]) == Step(Run(EMPTY, ops[..n]), ops[n])
  {
    assert ops[..n + 1][..n] == ops[..n];
  }

  // The property that all that goes back is at most what was paid does fail, in
  // the way that Theorems.ReturnedAtMostPaid says it can.
  lemma ReturnedTwice()
    ensures WalletOnTop(Run(EMPTY, TWICE), 0) && |Run(EMPTY, TWICE).orders| == 1
    ensures ReturnedFor(Run(EMPTY, TWICE), 0) > Run(EMPTY, TWICE).orders[0].total
  {
    hide Step, WalletOnTop, ReturnedFor;
    Sells(); Opens(); Pays(); Claims(); PaysOut(); LosesTheRecord(); AsksAgain(); ReturnsAgain();
    Goes(TWICE, 0); Goes(TWICE, 1); Goes(TWICE, 2); Goes(TWICE, 3); Goes(TWICE, 4); Goes(TWICE, 5); Goes(TWICE, 6);
    Goes(TWICE, 7); Goes(TWICE, 8); Goes(TWICE, 9); Goes(TWICE, 10); Goes(TWICE, 11); Goes(TWICE, 12);
    assert TWICE[..0] == [] && TWICE[..13] == TWICE;
    RunInv(TWICE);
    ReturnedAtMostPaid(Run(EMPTY, TWICE), 0);
  }

  // A guarded run that leads to d.
  ghost predicate Leads(ops: seq<Op>, d: Db) {
    Entitlements.GuardedRun(EMPTY, ops) && Run(EMPTY, ops) == d
  }

  lemma Further(ops: seq<Op>, d: Db, op: Op, e: Db)
    requires Leads(ops, d) && Entitlements.Guarded(d, op) && Step(d, op) == e
    ensures Leads(ops + [op], e)
  {
    hide Step, Entitlements.Guarded;
    var all := ops + [op];
    assert all[..|ops|] == ops;
    forall k | 0 <= k < |all| ensures Entitlements.Guarded(Run(EMPTY, all[..k]), all[k]) {
      if k < |ops| { assert all[..k] == ops[..k]; }
    }
  }

  lemma LeadsNowhere()
    ensures Leads([], EMPTY)
  {
  }

  // ----- the channel asked last -----

  const G1: Db := D7.(refunds := [BY_CHANNEL.(status := RefundProcessing), BY_WALLET])
  const G2: Db := G1.(executions := [Execution(0, Replied, Some(Rejected))])
  const G3: Db := G2.(executions := [Execution(0, Released, Some(Rejected))], intents := D4.intents)
  const G4: Db := G3.(executions := [Execution(0, Closed, Some(Rejected))],
                      refunds := [BY_CHANNEL.(status := RefundFailed), BY_WALLET])
  const G5: Db := G4.(executions := [Execution(0, Closed, Some(Rejected)), Execution(1, RequestClaimed, None)],
                      refunds := [BY_CHANNEL.(status := RefundFailed), BY_WALLET.(status := RefundProcessing)])
  const G6: Db := G5.(executions := [Execution(0, Closed, Some(Rejected)), Execution(1, Closed, None)],
                      refunds := [BY_CHANNEL.(status := RefundFailed), BY_WALLET.(status := RefundCompleted)],
                      orders := [SOLD.(status := OrderRefunded)],
                      services := [Refunds.Revoke(D4.services[0], 0)],
                      bank := Bank([100], [Entry(0, 100, 100, RefundCredit(1))]))
  const G7: Db := G6.(executions := G6.executions + [Execution(0, RequestClaimed, None)],
                      refunds := [BY_CHANNEL.(status := RefundProcessing), BY_WALLET.(status := RefundCompleted)])
  const G8: Db := G7.(executions := G6.executions + [Execution(0, PaymentClaimed, None)], intents := D7.intents)
  const G9: Db := G8.(executions := G6.executions + [Execution(0, Replied, Some(Accepted))])

  lemma AsksInBetween()
    ensures Step(D7, Repay(RequestRefund(0, 0, None))) == G1
    ensures Step(G1, Repay(AskChannel(0, Rejected))) == G2
  {
  }

  lemma GivesBack()
    ensures Step(G2, Repay(ReleasePayment(0))) == G3
  {
  }

  lemma FailsOnce()
    ensures Step(G3, Repay(FailRefund(0))) == G4
  {
  }

  lemma StartsOther()
    ensures Step(G4, Repay(StartRefund(1))) == G5
  {
  }

  lemma CreditsWallet()
    ensures Step(G5, Repay(CompleteRefund(1))) == G6
  {
    hide Refunds.Revoke;
    assert Refunds.MayComplete(G5, 1);
    var start := Refunds.Restatus(Refunds.Move(G5, 1, Closed), 1, RefundCompleted);
    var paid := Wallet.PostUnlessZero(start, 0, 100, RefundCredit(1));
    assert paid.Some? && paid.value.bank == G6.bank;
    hide Wallet.PostUnlessZero;
  }

  lemma TriesAgain()
    ensures Step(G6, Repay(StartRefund(0))) == G7
  {
  }

  lemma ClaimsAgain()
    ensures Step(G7, Repay(ClaimPayment(2))) == G8
  {
  }

  lemma AsksLast()
    ensures Step(G8, Repay(AskChannel(2, Accepted))) == G9
  {
  }

  lemma OnTopAfterwards()
    ensures WalletOnTop(G9, 0) && |G9.orders| == 1
  {
    assert PaidOut(G9, 2, 0) && Credited(G9, 1, 0) && G9.refunds[1].payment.None?;
  }

  lemma LeadsToClaim()
    ensures Leads(TWICE[..7], D7)
  {
    Sells(); Opens(); Pays(); Claims(); PaysOut();
    hide Step, Leads;
    LeadsNowhere();
    assert TWICE[..0] == [];
    Onward(TWICE, 0, EMPTY, D1); Onward(TWICE, 1, D1, D2); Onward(TWICE, 2, D2, D3); Onward(TWICE, 3, D3, D4);
    Onward(TWICE, 4, D4, D5); Onward(TWICE, 5, D5, D6); Onward(TWICE, 6, D6, D7);
  }

  // One more of the operations.
  lemma Onward(ops: seq<Op>, n: nat, d: Db, e: Db)
    requires n < |ops| && Leads(ops[..n], d) && Step(d, ops[n]) == e && !ops[n].Bill?
    ensures Leads(ops[..n + 1], e)
  {
    hide Leads, Step;
    assert ops[..n + 1] == ops[..n] + [ops[n]];
    OneFurther(ops[..n], d, ops[n], e);
  }

  const REVERSED: seq<Op> :=
    [Repay(RequestRefund(0, 0, None)), Repay(AskChannel(0, Rejected)), Repay(ReleasePayment(0)), Repay(FailRefund(0)),
     Repay(StartRefund(1)), Repay(CompleteRefund(1)), Repay(StartRefund(0)), Repay(ClaimPayment(2)),
     Repay(AskChannel(2, Accepted))]

  // The same the other way round: the wallet is credited while the channel has
  // refused, and the channel pays when it is asked again.
  lemma ReturnedTwiceReversed() returns (ops: seq<Op>)
    ensures ops == TWICE[..7] + REVERSED
    ensures WalletOnTop(Run(EMPTY, ops), 0) && |Run(EMPTY, ops).orders| == 1
    ensures ReturnedFor(Run(EMPTY, ops), 0) > Run(EMPTY, ops).orders[0].total
  {
    ops := TWICE[..7] + REVERSED;
    OnTopAfterwards();
    LeadsToClaim();
    LeadsReversed(ops);
    assert Run(EMPTY, ops) == G9 by { hide Step; }
    hide Step, WalletOnTop, ReturnedFor, Run;
    RunInv(ops);
    ReturnedAtMostPaid(G9, 0);
  }

  lemma LeadsReversed(ops: seq<Op>)
    requires Leads(TWICE[..7], D7) && ops == TWICE[..7] + REVERSED
    ensures Leads(ops, G9)
  {
    assert ops[..7] == TWICE[..7] && ops[..16] == ops;
    forall n | 7 <= n < 16 ensures ops[n] == REVERSED[n - 7] { }
    hide Leads;
    LeadsToRefusal(ops);
    LeadsToCredit(ops);
    LeadsToPayout(ops);
  }

  lemma LeadsToRefusal(ops: seq<Op>)
    requires |ops| == 16 && Leads(ops[..7], D7) && forall n :: 7 <= n < 16 ==> ops[n] == REVERSED[n - 7]
    ensures Leads(ops[..11], G4)
  {
    AsksInBetween();
    GivesBack();
    FailsOnce();
    hide Step, Leads;
    Onward(ops, 7, D7, G1);
    Onward(ops, 8, G1, G2);
    Onward(ops, 9, G2, G3);
    Onward(ops, 10, G3, G4);
  }

  lemma LeadsToCredit(ops: seq<Op>)
    requires |ops| == 16 && Leads(ops[..11], G4) && forall n :: 7 <= n < 16 ==> ops[n] == REVERSED[n - 7]
    ensures Leads(ops[..13], G6)
  {
    StartsOther();
    CreditsWallet();
    hide Step, Leads;
    Onward(ops, 11, G4, G5);
    Onward(ops, 12, G5, G6);
  }

  lemma LeadsToPayout(ops: seq<Op>)
    requires |ops| == 16 && Leads(ops[..13], G6) && forall n :: 7 <= n < 16 ==> ops[n] == REVERSED[n - 7]
    ensures Leads(ops[..16], G9)
  {
    TriesAgain();
    ClaimsAgain();
    AsksLast();
    hide Step, Leads;
    Onward(ops, 13, G6, G7);
    Onward(ops, 14, G7, G8);
    Onward(ops, 15, G8, G9);
  }

  // ----- refunded, and in use again -----

  const BY_BALANCE: Refund := Refund(0, 0, None, 100, 0, 100, RefundPending)

  // A service of a monthly product, with a host upstream or without, bought from
  // the wallet.
  function Item(upstream: bool): Line { Line(0, 100, 1, Monthly, upstream) }

  function Bought(upstream: bool): Service { Orders.NewService(0, 0, Item(upstream), 0) }

  const E1: Db := EMPTY.(bank := Bank([0], []), referrers := [None])
  const E2: Db := E1.(bank := Bank([100], [Entry(0, 100, 100, AdminAdjust)]))

  function E3(upstream: bool): Db {
    E2.(orders := [Order(0, OrderPending, 100, [Item(upstream)])], invoices := [BILL])
  }

  function E4(upstream: bool): Db {
    E3(upstream).(orders := [Order(0, OrderPaid, 100, [Item(upstream)])],
                  invoices := [BILL.(status := InvoicePaid)],
                  services := [Bought(upstream)],
                  bank := Bank([0], E2.bank.log + [Entry(0, -100, 0, OrderDebit(0))]))
  }

  // Whatever the service became in the meantime, the refund runs to its end.
  function E5(upstream: bool, x: Service): Db { E4(upstream).(services := [x]) }

  function E6(upstream: bool, x: Service): Db { E5(upstream, x).(refunds := [BY_BALANCE]) }

  function E7(upstream: bool, x: Service): Db {
    E5(upstream, x).(refunds := [BY_BALANCE.(status := RefundProcessing)],
                     executions := [Execution(0, RequestClaimed, None)])
  }

  function E8(upstream: bool, x: Service): Db {
    E5(upstream, x).(refunds := [BY_BALANCE.(status := RefundCompleted)], executions := [Execution(0, Closed, None)],
                     orders := [Order(0, OrderRefunded, 100, [Item(upstream)])],
                     services := [Refunds.Revoke(x, 0)],
                     bank := Bank([100], E4(upstream).bank.log + [Entry(0, 100, 100, RefundCredit(0))]))
  }

  lemma Buys(upstream: bool)
    ensures Step(EMPTY, Account(Register(None))) == E1
    ensures Step(E1, Account(AdjustByAdmin(0, 100))) == E2
    ensures Step(E2, Sale(CreateOrder(0, [Item(upstream)], 0))) == E3(upstream)
  {
    assert [Item(upstream)][..0] == [];
    assert Orders.LinesTotal([Item(upstream)]) == 100;
  }

  function Debited(upstream: bool): Db { E3(upstream).(bank := E4(upstream).bank) }

  lemma Settles(upstream: bool)
    ensures Orders.Settle(Debited(upstream), 0, 0, 0, 0) == Some(E4(upstream))
  {
    var d := Debited(upstream);
    hide Orders.NewService;
    assert d.invoices[..0] == [] && Orders.InvoiceFor(d.invoices, 0) == 0;
    assert [Item(upstream)][..0] == [];
    assert Orders.NewServices(0, 0, [Item(upstream)], 0) == [Bought(upstream)];
    hide Orders.InvoiceFor, Orders.NewServices;
    assert Orders.MarkPaid(d, 0, 0, 0) == E4(upstream);
  }

  lemma PaysFromWallet(upstream: bool)
    ensures Step(E3(upstream), Sale(PayOrder(0, 0, 0, 0))) == E4(upstream)
  {
    Settles(upstream);
    hide Orders.Settle;
    var e := Wallet.Debit(E3(upstream), 0, 100, OrderDebit(0));
    assert e.Some? && e.value.bank == E4(upstream).bank;
    assert e.value == Debited(upstream);
  }

  lemma RefundsFromWallet(upstream: bool, x: Service)
    ensures Step(E5(upstream, x), Repay(RequestRefund(0, 0, None))) == E6(upstream, x)
    ensures Step(E6(upstream, x), Repay(StartRefund(0))) == E7(upstream, x)
  {
    hide Orders.NewService;
  }

  lemma CompletesFromWallet(upstream: bool, x: Service)
    ensures Step(E7(upstream, x), Repay(CompleteRefund(0))) == E8(upstream, x)
  {
    hide Orders.NewService, Refunds.Revoke;
    var d := E7(upstream, x);
    assert Refunds.MayComplete(d, 0);
    var start := Refunds.Restatus(Refunds.Move(d, 0, Closed), 0, RefundCompleted);
    var paid := Wallet.PostUnlessZero(start, 0, 100, RefundCredit(0));
    assert paid.Some? && paid.value.bank == E8(upstream, x).bank;
    hide Wallet.PostUnlessZero;
  }

  const BUYS: seq<Op> := [Account(Register(None)), Account(AdjustByAdmin(0, 100))]

  const REFUNDS: seq<Op> := [Repay(RequestRefund(0, 0, None)), Repay(StartRefund(0)), Repay(CompleteRefund(0))]

  lemma LeadsToPaid(upstream: bool)
    ensures Leads(BUYS + [Sale(CreateOrder(0, [Item(upstream)], 0)), Sale(PayOrder(0, 0, 0, 0))], E4(upstream))
  {
    var create, pay := Sale(CreateOrder(0, [Item(upstream)], 0)), Sale(PayOrder(0, 0, 0, 0));
    hide Leads, Step, E3, E4;
    LeadsToFunds();
    Buys(upstream);
    PaysFromWallet(upstream);
    OneFurther(BUYS, E2, create, E3(upstream));
    OneFurther(BUYS + [create], E3(upstream), pay, E4(upstream));
    assert BUYS + [create] + [pay] == BUYS + [create, pay];
  }

  lemma LeadsToFunds()
    ensures Leads(BUYS, E2)
  {
    hide Leads, Step, E3;
    LeadsNowhere();
    Buys(false);
    assert [] + [BUYS[0]] == [BUYS[0]] && [BUYS[0]] + [BUYS[1]] == BUYS;
    OneFurther([], EMPTY, BUYS[0], E1);
    OneFurther([BUYS[0]], E1, BUYS[1], E2);
  }

  lemma OneFurther(ops: seq<Op>, d: Db, op: Op, e: Db)
    requires Leads(ops, d) && Step(d, op) == e && !op.Bill?
    ensures Leads(ops + [op], e)
  {
    hide Leads, Step;
    Further(ops, d, op, e);
  }

  lemma LeadsToRefunded(ops: seq<Op>, upstream: bool, x: Service)
    requires Leads(ops, E5(upstream, x))
    ensures Leads(ops + REFUNDS, E8(upstream, x))
  {
    RefundsFromWallet(upstream, x);
    CompletesFromWallet(upstream, x);
    hide Leads, Step, E5, E6, E7, E8;
    Further(ops, E5(upstream, x), REFUNDS[0], E6(upstream, x));
    Further(ops + [REFUNDS[0]], E6(upstream, x), REFUNDS[1], E7(upstream, x));
    Further(ops + [REFUNDS[0]] + [REFUNDS[1]], E7(upstream, x), REFUNDS[2], E8(upstream, x));
    assert ops + [REFUNDS[0]] + [REFUNDS[1]] + [REFUNDS[2]] == ops + REFUNDS;
  }

  lemma Suspends(claimed: Service, stopped: Service)
    requires claimed == Bought(false).(reason := Enforcing)
    requires stopped == Bought(false).(status := ServiceSuspended, reason := Expired)
    ensures Step(E4(false), Bill(SetService(0, ServiceActive, Enforcing, false, false))) == E5(false, claimed)
    ensures Entitlements.Guarded(E4(false), Bill(SetService(0, ServiceActive, Enforcing, false, false)))
    ensures Step(E5(false, claimed), Bill(SetService(0, ServiceSuspended, Expired, false, false))) == E5(false, stopped)
    ensures Entitlements.Guarded(E5(false, claimed), Bill(SetService(0, ServiceSuspended, Expired, false, false)))
  {
  }

  lemma RenewsAfterwards(stopped: Service)
    requires stopped == Bought(false).(status := ServiceSuspended, reason := Expired)
    ensures UsedThoughRefunded(Step(E8(false, stopped), Bill(RenewNow(0, 0, 0))))
  {
    hide Calendar.AddMonths;
  }

  // The only order was refunded, and its only service is in use.
  predicate UsedThoughRefunded(d: Db) {
    && |d.orders| == 1 == |d.services| && d.orders[0].status == OrderRefunded
    && d.services[0].order == 0 && d.services[0].status == ServiceActive
  }

  // Bought, suspended by the patrol when it expired, refunded, and renewed with the
  // money that came back.
  lemma RenewedAfterRefund() returns (ops: seq<Op>)
    ensures Entitlements.GuardedRun(EMPTY, ops) && UsedThoughRefunded(Run(EMPTY, ops))
    ensures |ops| == 10 && ops[8] == Repay(CompleteRefund(0)) && ops[9] == Bill(RenewNow(0, 0, 0))
  {
    var claimed := Bought(false).(reason := Enforcing);
    var stopped := Bought(false).(status := ServiceSuspended, reason := Expired);
    var claim, stop := Bill(SetService(0, ServiceActive, Enforcing, false, false)),
      Bill(SetService(0, ServiceSuspended, Expired, false, false));
    var renew := Bill(RenewNow(0, 0, 0));
    var end := Step(E8(false, stopped), renew);
    LeadsToPaid(false);
    Suspends(claimed, stopped);
    RenewsAfterwards(stopped);
    ops := BUYS + [Sale(CreateOrder(0, [Item(false)], 0)), Sale(PayOrder(0, 0, 0, 0))];
    LeadsThere(ops, claim, stop, renew, claimed, stopped, end);
    ops := ops + [claim] + [stop] + REFUNDS + [renew];
  }

  lemma LeadsThere(ops: seq<Op>, claim: Op, stop: Op, renew: Op, claimed: Service, stopped: Service, end: Db)
    requires Leads(ops, E4(false)) && renew == Bill(RenewNow(0, 0, 0))
    requires Step(E4(false), claim) == E5(false, claimed) && Entitlements.Guarded(E4(false), claim)
    requires Step(E5(false, claimed), stop) == E5(false, stopped) && Entitlements.Guarded(E5(false, claimed), stop)
    requires Step(E8(false, stopped), renew) == end
    ensures Leads(ops + [claim] + [stop] + REFUNDS + [renew], end)
  {
    hide Leads, Step, E4, E5, E8;
    Further(ops, E4(false), claim, E5(false, claimed));
    Further(ops + [claim], E5(false, claimed), stop, E5(false, stopped));
    LeadsToRefunded(ops + [claim] + [stop], false, stopped);
    Further(ops + [claim] + [stop] + REFUNDS, E8(false, stopped), renew, end);
  }

  // Bought, refunded while it was waiting for its host, and provisioned: the host
  // runs and the money is back.
  lemma ProvisionedAfterRefund() returns (ops: seq<Op>)
    ensures Entitlements.GuardedRun(EMPTY, ops) && UsedThoughRefunded(Run(EMPTY, ops))
    ensures Run(EMPTY, ops).services[0].hosted && Run(EMPTY, ops).bank.balances == [100]
    ensures |ops| == 8 && ops[6] == Repay(CompleteRefund(0))
  {
    var x := Bought(true);
    var provide := Bill(SetService(0, ServiceActive, NoReason, false, true));
    LeadsToPaid(true);
    Provisions(x);
    ops := BUYS + [Sale(CreateOrder(0, [Item(true)], 0)), Sale(PayOrder(0, 0, 0, 0))];
    LeadsToRefunded(ops, true, x);
    Further(ops + REFUNDS, E8(true, x), provide,
            E8(true, x).(services := [x.(status := ServiceActive, hosted := true)]));
    ops := ops + REFUNDS + [provide];
  }

  lemma Provisions(x: Service)
    requires x == Bought(true)
    ensures E5(true, x) == E4(true) && x.order == 0
    ensures Entitlements.Guarded(E8(true, x), Bill(SetService(0, ServiceActive, NoReason, false, true)))
    ensures Step(E8(true, x), Bill(SetService(0, ServiceActive, NoReason, false, true)))
         == E8(true, x).(services := [x.(status := ServiceActive, hosted := true)])
  {
    SetsActive(E8(true, x), x);
    hide Step;
  }

  lemma SetsActive(d: Db, x: Service)
    requires x.status == ServicePending && x.reason == NoReason && !x.autoRenew && d.services == [x]
    ensures Step(d, Bill(SetService(0, ServiceActive, NoReason, false, true)))
         == d.(services := [x.(status := ServiceActive, hosted := true)])
  {
  }
}
