// The rows the money paths read and write, and the database that holds them.
// A row's index is its primary key; money is in cents. Amounts a handler
// validates as nonnegative before they are stored are naturals. A missing reference
// (NULL, or 0 in the source's legacy style) is None.
module Tables {
  import opened Options
  import opened Calendar

  type Id = nat

  datatype Purpose = ForRecharge | ForOrder | ForInvoice | ForRenewal

  // What a ledger row was written for: transaction type, reference type and note
  // together select exactly one of these.
  datatype Ref =
    | Recharged
    | PluginCredit(payment: Id)
    | AdminAdjust
    | OrderDebit(order: Id)
    | InvoiceDebit(invoice: Id)
    | ServiceDebit(service: Id)
    | IntentDebit(purpose: Purpose, target: Id)
    | IntentReturn(intent: Id)
    | IntentRecharge(intent: Id)
    | ChangeDebit(change: Id)
    | ChangeReturn(change: Id)
    | RefundCredit(refund: Id)
    | CommissionPayout(withdrawal: Id)

  datatype Entry = Entry(user: Id, amount: int, after: int, ref: Ref)

  datatype Bank = Bank(balances: seq<int>, log: seq<Entry>)

  datatype PluginPayment = PluginPayment(plugin: string, external: string, user: Id, amount: nat)

  datatype OrderStatus = OrderPending | OrderPaid | OrderCancelled | OrderRefunded

  datatype Line = Line(product: Id, price: nat, quantity: nat, cycle: Cycle, upstream: bool)

  datatype Order = Order(user: Id, status: OrderStatus, total: nat, lines: seq<Line>)

  datatype InvoiceStatus = InvoiceUnpaid | InvoicePaid | InvoiceCancelled

  // traffic is the quota parsed from the invoice's lines when all of them are
  // traffic-pack lines; such an invoice names a service and no order.
  datatype Invoice = Invoice(
    user: Id, order: Option<Id>, service: Option<Id>, traffic: Option<nat>,
    status: InvoiceStatus, total: nat)

  // Names and values of a product's options.
  type OptionMap = map<string, string>

  datatype ServiceStatus =
    | ServicePending | ServiceActive | ServiceSuspended | ServiceTerminated | ServiceFailed

  // suspend_reason, with the two transient claim markers of the patrol.
  datatype Reason = NoReason | TrafficExceeded | Expired | RefundRevoked | Enforcing | Terminating

  datatype Service = Service(
    user: Id, order: Id, product: Id, price: nat, cycle: Cycle,
    status: ServiceStatus, reason: Reason, expires: Option<Instant>,
    change: Option<Id>, autoRenew: bool, extraTraffic: nat, hosted: bool, options: OptionMap)

  datatype IntentStatus =
    | IntentPending | IntentProcessing | IntentPaid | IntentFailed | IntentLate
    | IntentRefunding | IntentRefunded

  // The canonical target of a payment: what several aliases collapse to.
  datatype Key = OrderKey(order: Id) | RenewalKey(service: Id) | InvoiceKey(invoice: Id)

  // amount is what the channel collects, balance what the wallet contributed.
  datatype Intent = Intent(
    user: Id, purpose: Purpose, target: Id, amount: nat, balance: nat,
    status: IntentStatus, key: Option<Key>, received: int)

  datatype ChangeStatus =
    | ChangeReserved | ChangeApplying | ChangeUncertain | ChangeApplied | ChangeFailed

  // History of a quote: from which price, cycle and expiry it was computed, when, and
  // the price the service had when the change was reserved. No step reads it.
  datatype Basis = Basis(from: nat, cycle: Cycle, expires: Instant, at: Instant, held: nat)

  datatype Change = Change(
    user: Id, service: Id, token: string, product: Id,
    charge: nat, credit: nat, price: nat, options: OptionMap, basis: Basis, status: ChangeStatus)

  datatype RefundStatus =
    | RefundPending | RefundApproved | RefundProcessing | RefundRejected
    | RefundFailed | RefundCanceled | RefundCompleted

  datatype Refund = Refund(
    user: Id, order: Id, payment: Option<Id>,
    amount: nat, channel: nat, balance: nat, status: RefundStatus)

  // One run of a refund's execution, with how far it has come and what the
  // payment channel answered, if it was asked.
  datatype Reply = Accepted | Rejected | Unclear

  datatype Progress =
    | RequestClaimed | PaymentClaimed | LostClaim | Replied | Released | Aborted | Closed

  datatype Execution = Execution(refund: Id, progress: Progress, reply: Option<Reply>)

  datatype Affiliate = Affiliate(user: Id, balance: int, reserved: int, earned: int)

  datatype Commission = Commission(affiliate: Id, order: Id, paid: nat, amount: nat, reversed: nat)

  datatype WithdrawalStatus = WithdrawalPending | WithdrawalApproved | WithdrawalRejected

  datatype Withdrawal = Withdrawal(user: Id, affiliate: Id, amount: nat, status: WithdrawalStatus)

  // History of committed renewals: whose expiry moved, from where, to where, when,
  // and at which price. It records steps of the source and is never read by them.
  datatype Advance = Advance(service: Id, price: nat, before: Option<Instant>, at: Instant, next: Instant)

  datatype Db = Db(
    bank: Bank,
    referrers: seq<Option<Id>>,
    plugins: seq<PluginPayment>,
    orders: seq<Order>,
    invoices: seq<Invoice>,
    services: seq<Service>,
    intents: seq<Intent>,
    changes: seq<Change>,
    refunds: seq<Refund>,
    executions: seq<Execution>,
    affiliates: seq<Affiliate>,
    commissions: seq<Commission>,
    withdrawals: seq<Withdrawal>,
    advances: seq<Advance>,
    renewalKeys: set<(Id, Instant)>)

  // Settling touches what was sold and nothing of the money or the claims.
  predicate OnlySalesDiffer(d: Db, e: Db) {
    e == d.(orders := e.orders, invoices := e.invoices, services := e.services,
            affiliates := e.affiliates, commissions := e.commissions, advances := e.advances)
  }

  const EMPTY: Db := Db(Bank([], []), [], [], [], [], [], [], [], [], [], [], [], [], [], {})
}
