// order.go: placing, settling and cancelling an order; affiliate.go: the
// commission accrued with a settlement.
module Orders {
  import opened Options
  import opened Calendar
  import opened Tables
  import opened Targets
  import Wallet

  const MAX_LINES: nat := 20

  function LinesTotal(lines: seq<Line>): nat {
    if |lines| == 0 then 0
    else LinesTotal(lines[..|lines| - 1]) + lines[|lines| - 1].price * lines[|lines| - 1].quantity
  }

  predicate LineOk(x: Line) {
    x.quantity > 0
  }

  // create: the order and its unpaid invoice are written together; discount is
  // what the coupon took off.
  function Create(db: Db, user: Id, lines: seq<Line>, discount: nat): Option<Db> {
    if user >= |db.bank.balances| || |lines| == 0 || |lines| > MAX_LINES
       || (exists i :: 0 <= i < |lines| && !LineOk(lines[i]))
       || discount > LinesTotal(lines)
    then None
    else
      var total := LinesTotal(lines) - discount;
      Some(db.(
        orders := db.orders + [Order(user, OrderPending, total, lines)],
        invoices := db.invoices + [Invoice(user, Some(|db.orders|), None, None, InvoiceUnpaid, total)]))
  }

  // The first invoice written for an order; |invoices| when there is none.
  function InvoiceFor(invoices: seq<Invoice>, o: Id): (i: nat)
    ensures i <= |invoices|
    ensures i < |invoices| ==> invoices[i].order == Some(o)
    ensures forall k :: 0 <= k < i ==> invoices[k].order != Some(o)
  {
    if |invoices| == 0 then 0
    else
      var last := |invoices| - 1;
      var i := InvoiceFor(invoices[..last], o);
      assert forall k :: 0 <= k < i ==> invoices[k] == invoices[..last][k];
      if i < last || invoices[last].order == Some(o) then i else |invoices|
  }

  function NewService(user: Id, o: Id, x: Line, now: Instant): Service {
    Service(user, o, x.product, x.price, x.cycle,
            if x.upstream then ServicePending else ServiceActive, NoReason,
            AdvanceCycle(now, x.cycle), None, false, 0, false, map[])
  }

  // One independent service for each unit of each line.
  function NewServices(user: Id, o: Id, lines: seq<Line>, now: Instant): (rows: seq<Service>)
    ensures forall r :: r in rows ==> exists x :: x in lines && r == NewService(user, o, x, now)
  {
    if |lines| == 0 then []
    else
      var x := lines[|lines| - 1];
      NewServices(user, o, lines[..|lines| - 1], now) + seq(x.quantity, _ => NewService(user, o, x, now))
  }

  function CommissionFor(rows: seq<Commission>, o: Id): (i: nat)
    ensures i <= |rows|
    ensures i < |rows| ==> rows[i].order == o
    ensures i == |rows| ==> forall k :: 0 <= k < |rows| ==> rows[k].order != o
  {
    if |rows| == 0 then 0
    else
      var last := |rows| - 1;
      var i := CommissionFor(rows[..last], o);
      if i < last then i else if rows[last].order == o then last else |rows|
  }

  // accrueAffiliateTx; rate is in basis points, 0 when the programme is off.
  function Accrue(db: Db, o: Id, rate: nat): Db
    requires o < |db.orders|
  {
    var x := db.orders[o];
    if x.total == 0 || rate == 0 || x.user >= |db.referrers| || db.referrers[x.user].None? then db
    else
      var a := db.referrers[x.user].value;
      var amount := x.total * rate / 10000;
      if a >= |db.affiliates| || db.affiliates[a].user == x.user || amount == 0
         || CommissionFor(db.commissions, o) < |db.commissions|
      then db
      else
        var row := db.affiliates[a];
        db.(commissions := db.commissions + [Commission(a, o, x.total, amount, 0)],
            affiliates := db.affiliates[a := row.(balance := row.balance + amount, earned := row.earned + amount)])
  }

  // The statuses payInTx moves: order and invoice to paid, services appended.
  function MarkPaid(db: Db, o: Id, i: Id, now: Instant): Db
    requires o < |db.orders| && i <= |db.invoices|
  {
    var x := db.orders[o];
    db.(orders := db.orders[o := x.(status := OrderPaid)],
        invoices := if i < |db.invoices| then db.invoices[i := db.invoices[i].(status := InvoicePaid)]
                    else db.invoices + [Invoice(x.user, Some(o), None, None, InvoicePaid, x.total)],
        services := db.services + NewServices(x.user, o, x.lines, now))
  }

  // payInTx without a debit.
  function Settle(db: Db, user: Id, o: Id, now: Instant, rate: nat): (r: Option<Db>)
    ensures r.Some? ==> OnlySalesDiffer(db, r.value)
  {
    if o >= |db.orders| || db.orders[o].user != user || |db.orders[o].lines| == 0
       || db.orders[o].status != OrderPending
    then None
    else
      var i := InvoiceFor(db.invoices, o);
      if i < |db.invoices| && db.invoices[i].status != InvoiceUnpaid then None
      else Some(Accrue(MarkPaid(db, o, i, now), o, rate))
  }

  // pay with a debit: refused while a payment for the order or its invoice runs.
  function Pay(db: Db, user: Id, o: Id, now: Instant, rate: nat): Option<Db> {
    if LoadTarget(db, user, ForOrder, o).None? || Busy(db, user, OrderKey(o)) then None
    else
      match Wallet.Debit(db, user, db.orders[o].total, OrderDebit(o))
      case None => None
      case Some(d) => Settle(d, user, o, now, rate)
  }

  function CancelInvoice(x: Invoice, o: Id): Invoice {
    if x.order == Some(o) && x.status == InvoiceUnpaid then x.(status := InvoiceCancelled) else x
  }

  function Cancel(db: Db, user: Id, o: Id): Option<Db> {
    if o >= |db.orders| || db.orders[o].user != user || db.orders[o].status != OrderPending then None
    else Some(db.(
      orders := db.orders[o := db.orders[o].(status := OrderCancelled)],
      invoices := seq(|db.invoices|, i requires 0 <= i < |db.invoices| => CancelInvoice(db.invoices[i], o))))
  }
}
