// Every atomic step of the money paths, and the runs they form. A step that is
// refused or rolled back leaves the database as it was, so a run is any sequence
// of attempts, by any users, in any order.
module Machine {
  import opened Options
  import opened Calendar
  import opened Tables
  import Wallet
  import Orders
  import Billing
  import Payments
  import Changes
  import Refunds
  import Affiliates

  datatype AccountOp =
    | Register(referrer: Option<Id>)
    | Recharge(user: Id, amount: int)
    | CreditExternal(plugin: string, external: string, user: Id, amount: int)
    | AdjustByAdmin(user: Id, amount: int)

  datatype OrderOp =
    | CreateOrder(user: Id, lines: seq<Line>, discount: nat)
    | PayOrder(user: Id, order: Id, now: Instant, rate: nat)
    | CancelOrder(user: Id, order: Id)

  datatype BillingOp =
    | RenewNow(user: Id, service: Id, now: Instant)
    | CreateRenewalInvoice(user: Id, service: Id)
    | CreateTrafficInvoice(user: Id, service: Id, gb: nat, price: Option<int>)
    | AutoRenew(service: Id, listed: Instant, now: Instant, window: nat)
    | SetService(service: Id, status: ServiceStatus, reason: Reason, autoRenew: bool, hosted: bool)

  datatype PaymentOp =
    | SettleInvoice(user: Id, invoice: Id, now: Instant, rate: nat, price: Option<int>)
    | CreateIntent(user: Id, purpose: Purpose, target: Id, total: int, wish: int,
                   quoted: Option<Instant>, now: Instant, rate: nat, price: Option<int>)
    | CancelIntent(user: Id, intent: Id)
    | VoidIntent(intent: Id)
    | Finalize(intent: Id, paid: int, now: Instant, rate: nat, price: Option<int>)
    | LateReceipt(intent: Id, paid: int)

  datatype ChangeOp =
    | ReserveChange(user: Id, service: Id, token: string, snapshot: Service, request: Changes.Request)
    | ClaimChange(change: Id)
    | DoubtChange(change: Id)
    | FinishChange(change: Id, applied: bool)

  datatype RefundOp =
    | RequestRefund(user: Id, order: Id, payment: Option<Id>)
    | ReviewRefund(refund: Id, approve: bool)
    | CancelRefund(user: Id, refund: Id)
    | StartRefund(refund: Id)
    | ClaimPayment(execution: Id)
    | AskChannel(execution: Id, reply: Reply)
    | ReleasePayment(execution: Id)
    | CompleteRefund(execution: Id)
    | AbortRefund(execution: Id)
    | FailRefund(execution: Id)

  datatype AffiliateOp =
    | JoinAffiliates(user: Id)
    | Withdraw(user: Id, amount: int, minimum: nat)
    | ReviewWithdrawal(withdrawal: Id, approve: bool)

  datatype Op =
    | Account(account: AccountOp)
    | Sale(sale: OrderOp)
    | Bill(bill: BillingOp)
    | Payment(payment: PaymentOp)
    | ProductChange(change: ChangeOp)
    | Repay(repay: RefundOp)
    | Share(share: AffiliateOp)

  function DoAccount(db: Db, op: AccountOp): Option<Db> {
    match op
    case Register(referrer) => Affiliates.Register(db, referrer)
    case Recharge(user, amount) => Wallet.Recharge(db, user, amount)
    case CreditExternal(plugin, external, user, amount) => Wallet.CreditExternal(db, plugin, external, user, amount)
    case AdjustByAdmin(user, amount) => Wallet.Post(db, user, amount, AdminAdjust)
  }

  function DoSale(db: Db, op: OrderOp): Option<Db> {
    match op
    case CreateOrder(user, lines, discount) => Orders.Create(db, user, lines, discount)
    case PayOrder(user, order, now, rate) => Orders.Pay(db, user, order, now, rate)
    case CancelOrder(user, order) => Orders.Cancel(db, user, order)
  }

  function DoBill(db: Db, op: BillingOp): Option<Db> {
    match op
    case RenewNow(user, service, now) => Billing.RenewNow(db, user, service, now)
    case CreateRenewalInvoice(user, service) => Billing.RenewalInvoice(db, user, service)
    case CreateTrafficInvoice(user, service, gb, price) => Billing.TrafficInvoice(db, user, service, gb, price)
    case AutoRenew(service, listed, now, window) => Billing.AutoRenew(db, service, listed, now, window)
    case SetService(service, status, reason, autoRenew, hosted) =>
      Billing.SetService(db, service, status, reason, autoRenew, hosted)
  }

  function DoPayment(db: Db, op: PaymentOp): Option<Db> {
    match op
    case SettleInvoice(user, invoice, now, rate, price) =>
      Payments.SettleFromWallet(db, user, invoice, now, rate, price)
    case CreateIntent(user, purpose, target, total, wish, quoted, now, rate, price) =>
      Payments.CreateIntent(db, user, purpose, target, total, wish, quoted, now, rate, price)
    case CancelIntent(user, intent) => Payments.CancelIntent(db, user, intent)
    case VoidIntent(intent) => Payments.FailIntent(db, intent)
    case Finalize(intent, paid, now, rate, price) => Payments.Finalize(db, intent, paid, now, rate, price)
    case LateReceipt(intent, paid) => Payments.LateReceipt(db, intent, paid)
  }

  function DoChange(db: Db, op: ChangeOp): Option<Db> {
    match op
    case ReserveChange(user, service, token, snapshot, request) =>
      Changes.Reserve(db, user, service, token, snapshot, request)
    case ClaimChange(change) => Changes.Claim(db, change)
    case DoubtChange(change) => Changes.Doubt(db, change)
    case FinishChange(change, applied) => Changes.Finish(db, change, applied)
  }

  function DoRefund(db: Db, op: RefundOp): Option<Db> {
    match op
    case RequestRefund(user, order, payment) => Refunds.Request(db, user, order, payment)
    case ReviewRefund(refund, approve) => Refunds.Review(db, refund, approve)
    case CancelRefund(user, refund) => Refunds.Cancel(db, user, refund)
    case StartRefund(refund) => Refunds.Start(db, refund)
    case ClaimPayment(execution) => Refunds.ClaimPayment(db, execution)
    case AskChannel(execution, reply) => Refunds.AskChannel(db, execution, reply)
    case ReleasePayment(execution) => Refunds.Release(db, execution)
    case CompleteRefund(execution) => Refunds.Complete(db, execution)
    case AbortRefund(execution) => Refunds.Abort(db, execution)
    case FailRefund(execution) => Refunds.Fail(db, execution)
  }

  function DoShare(db: Db, op: AffiliateOp): Option<Db> {
    match op
    case JoinAffiliates(user) => Affiliates.Join(db, user)
    case Withdraw(user, amount, minimum) => Affiliates.Withdraw(db, user, amount, minimum)
    case ReviewWithdrawal(withdrawal, approve) => Affiliates.Review(db, withdrawal, approve)
  }

  // What an attempt does when it succeeds.
  function Attempt(db: Db, op: Op): Option<Db> {
    match op
    case Account(a) => DoAccount(db, a)
    case Sale(s) => DoSale(db, s)
    case Bill(b) => DoBill(db, b)
    case Payment(p) => DoPayment(db, p)
    case ProductChange(c) => DoChange(db, c)
    case Repay(r) => DoRefund(db, r)
    case Share(s) => DoShare(db, s)
  }

  function Step(db: Db, op: Op): Db {
    match Attempt(db, op)
    case None => db
    case Some(d) => d
  }

  function Run(db: Db, ops: seq<Op>): Db {
    if |ops| == 0 then db else Step(Run(db, ops[..|ops| - 1]), ops[|ops| - 1])
  }
}
