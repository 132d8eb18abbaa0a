# Verification of the money paths of levis

levis sells hosted services: customers keep a wallet, place orders, pay through
external channels, renew, change products and ask for refunds, while a patrol
suspends and terminates what has expired. This project models those paths and
proves what holds of every run of them, whatever users do and in whatever order
their steps interleave.

Each database transaction, and each lone conditional update whose affected rows are
checked, is one atomic step. A remote call is an outcome: it succeeded, it failed,
or nobody knows. A step that is refused or rolled back changes nothing.

How the modules fit together:

- `Tables` holds the rows; `Wallet`, `Targets`, `Orders`, `Billing`, `Payments`,
  `Changes`, `Refunds` and `Affiliates` say what each transaction does to them, one
  module for each service file; `Machine` is the set of all steps, and their runs.
- `Store` is the same database written in place. Its class takes the writes of each
  transaction in the order of the source, with rollback, and every method is proved
  to be the machine's step. `Store.Database.ServeAll` carries every theorem over.
- `References`, `Integrity`, `Conservation`, `Obligations`, `Collection`, `Payouts`,
  `Earnings`, `Renewals`, `Provisions`, `Reservations`, `Pricing`, `Receipts` and
  `Transitions` each prove one invariant of all steps; `Theorems` puts them together and
  draws the consequences; `Decisions` says which way each request goes;
  `Entitlements` says what a refund ends for good; `Witness` and `Overcredit` hold
  runs that show where an expected property fails.
- `Lifecycle` (the patrol) is a step machine of its own, with crashes and lost replies.
  `Resize` carries out a product change upstream, on the same database, while anybody
  takes any other step.
- `Calendar` and `Proration` are the arithmetic of periods and prices; `Coupons`,
  `Categories`, `Catalog`, `LoginLimit`, `Revocation`, `Subject` and `Traffic` are
  separate cores.

Check everything with `dafny verify dfyconfig.toml`.

## What turned out not to hold

- Money returned for an order can exceed what was paid for it. If the channel pays a
  refund out and the closing transaction is lost, the request ends as failed and the
  payment stays claimed; a second request finds no paid payment, takes the order for
  one paid from the wallet, and is completed in full. `Theorems.ReturnedAtMostPaid`
  gives the exact condition, with payouts in doubt counted as paid, and
  `Witness.ReturnedTwice` a run. It can also happen the other way round: the second
  request is made while the first holds the payment, the channel refuses the first, the
  second is completed, and the first is tried again (`Witness.ReturnedTwiceReversed`).
  Just two steps can do it, and for each there is a test to be made before it
  (`Theorems.CompletingReturnsTooMuch`, `Theorems.AskingReturnsTooMuch`,
  `Theorems.NothingElseReturnsTooMuch`). The search for open requests that `Create` makes
  outside a transaction (internal/service/refund.go:217-231) is not in the model; it
  does not see a request that has failed by then, but it sees one whose payout is in
  doubt.
- Proration can be farmed. The reservation of a change compares product, status and
  expiry with what was read before, but not the price the quote was computed from
  (internal/service/service_change.go:393), so two requests quoted from one price are
  both credited in full (`Overcredit.CreditedTwice`). A chain of applied changes costs
  what its prices call for exactly when each was quoted from the price the service had
  when it was reserved (`Theorems.ChainOfChangesIffFresh`), and then returns to its
  price within a cent a change (`Theorems.FreshChangesCannotBeFarmed`).
- A completed refund is documented to end every entitlement the order funded
  (internal/service/refund.go:562-567), but only running services are revoked. It ends
  them all exactly when each was running, or over already
  (`Entitlements.RefundEndsAll`). One that the patrol had suspended can be renewed
  afterwards (`Witness.RenewedAfterRefund`), and one that was waiting for its host can
  be provisioned, so that the customer has both host and money
  (`Witness.ProvisionedAfterRefund`). What is revoked stays so under every guarded
  write (`Entitlements.ShutForGood`), but not under the two unguarded ones, of
  `reconcileUpstreamRenewal`, which marks a service failed, and of `provisionOne`, which
  marks one active that was pending when it was read (`Entitlements.UnguardedReopens`).
- The categories need not stay a forest. What is checked before a write
  (internal/service/admin.go:392, 427, 454-466) is not checked again with it, so two
  moves can put two categories below each other (`Categories.MovesIntoEachOther`), and
  a deletion can leave a new child without its parent (`Categories.LosesItsParent`).
  In any interleaving the table is a forest all the time exactly when each write meets
  its condition on the table as it then is (`Categories.CategoryTable.Run`). The
  storefront shows just the categories whose parents lead to a root, so those on or
  below a cycle or a missing parent vanish with their products
  (`Catalog.EveryCategoryOnce`, `Catalog.EveryProductOnce`).
- A host can be purged and its service renewed afterwards, when the outcome of a
  TERMINATE that took effect was lost, and only then: `Lifecycle.Patrolled.Run`,
  `Lifecycle.RenewsWhatIsGone`.
- The depth limit on categories is documented as a limit on nesting
  (internal/service/admin.go:480-485), but a move checks only the new parent, so
  chains of any length can be built (`Categories.DeepChain`), and from more than
  eleven levels deep a discount at the top is not found (`Categories.LadderNearest`).
- The first line of a long subject breaks the limit of section 2 of RFC 2047 for lines
  that hold an encoded word: it exceeds 76 characters exactly when the subject has more
  than 39 bytes; later lines never do (`Subject.EncodeSubject`, `Subject.LinesAreShort`).
- The login sweep runs without the lock its helper asks for
  (internal/loginlimit/loginlimit.go:190-205); the model takes it as one step.
- The patrol takes back claim markers on the ground that a visible marker belongs to
  a dead round (internal/service/lifecycle.go:122-129). That needs a single patrol,
  which the model assumes.

## Model

| member | source | states |
|---|---|---|
| Theorems.RunInv | internal/service/payment.go:226-277 | every state that any interleaving of the money steps reaches satisfies all invariants below together |
| Store.Database.ServeAll | internal/service/payment.go:695-760 | the tables written in place, with rollback, follow the machine's run step by step, so all invariants hold of them |
| Theorems.BalancesAreAccountedFor | internal/service/wallet.go:29-71 | in every reachable state a balance is never negative, is the sum of its ledger, and is a function of the statuses of intents, changes, refunds and withdrawals; each ledger row carries the running balance |
| Conservation.StepBalanced | internal/service/service_change.go:519-557 | conservation is kept by every step of every kind |
| Wallet.AdjustKeepsLedger | internal/service/wallet.go:29-71 | an adjustment keeps balances nonnegative and equal to their ledgers, with every running balance a prefix sum |
| Store.Database.AdjustBalance | internal/service/wallet.go:29-71 | the guarded increment and its ledger row, or nothing |
| Store.Database.CreditExternal | internal/service/wallet.go:102-152 | a channel's credit is posted once per external id; a repeat succeeds and moves nothing |
| Decisions.CreditCountsOnce | internal/service/wallet.go:102-152 | a credit lies between one cent and a million, and one external id moves money once |
| Decisions.RechargeIsBounded | internal/service/wallet.go:74-90 | a recharge lies between one cent and a million |
| Theorems.OnePaymentPerObligation | internal/service/payment_target.go:42-156 | no two live payments have the same canonical target, through order, invoice and renewal aliases |
| Theorems.CheckIsExact | internal/service/payment_target.go:110-156 | the alias search refuses exactly when a live payment has the same canonical key, so the unique index never refuses what it lets through |
| Theorems.LivePaymentMeansUnsettled | internal/service/payment.go:226-277 | a live payment rooted at an order means the order is pending or cancelled |
| Obligations.StepConsistent | internal/service/payment_target.go:158-207 | every step keeps orders and invoices in step, one live payment per key, prices fixed while they are being collected, and reservations tied to open changes |
| Theorems.OrderCollectedOnce | internal/service/order.go:526-567 | a settled order with a positive total was paid for by exactly one debit or one payment, whose wallet and channel parts add up to the total; an unsettled one was charged nothing. Free orders have nothing to count |
| Theorems.RenewalsCollectedOnce | internal/service/billing.go:219-315 | of each service at each positive price as many renewals took effect as were collected; free renewals are not counted |
| Theorems.ProvidedAsPaid | internal/service/order.go:620-661 | in every reachable state a settled order has exactly one service for each unit of its lines and an unsettled order none; the extra traffic of a service is what its paid packs add up to |
| Provisions.StepProvides | internal/service/billing.go:942-1003 | every step of every kind keeps services equal to what was paid for, and traffic equal to paid packs |
| Provisions.ServicesMatchLines | internal/service/order.go:620-661 | the services made at settlement are, of each product at each price and cycle, with each expiry, in use or waiting for a host, as many as the lines ask for, and their prices add up to the lines' total |
| Provisions.SettlementDelivers | internal/service/order.go:526-661 | a settlement adds services of the buyer's, one for each unit, each without expiry iff its line is one-time, and otherwise expiring 28 to 31 days a month after payment for the 1, 3, 6, 12, 24 or 36 months of its cycle, from where walking back leads to the payment up to day 28 |
| Collection.StepAccounted | internal/service/payment.go:319-333 | every step keeps settlements and deliveries equal for every obligation and positive price |
| Obligations.CreateIntentConsistent | internal/service/payment.go:226-277 | opening a payment keeps one live payment per canonical target and its price held |
| Obligations.FinalizeConsistent | internal/service/payment.go:695-760 | a receipt closes its payment and leaves no other live payment on what it settled |
| Store.Database.CreateIntent | internal/service/payment.go:226-277 | the creation transaction, with settlement at once when the wallet covers all, or nothing |
| Decisions.PaymentIsSplit | internal/service/payment.go:88-262 | the wallet gives what was wished for as far as it is needed, nothing to a recharge or renewal, and the channel is asked for the rest |
| Decisions.PaymentIsForWhatIsDue | internal/service/payment_target.go:158-207 | a payment is opened only for a pending order, an unpaid invoice or an active service, of the user's, at its price and with the expiry that was quoted |
| Decisions.RenewalInvoiceIsDue | internal/service/payment_target.go:158-207 | a renewal invoice can be paid for while its service is renewable, at the service's price, with the expiry that was quoted |
| Store.Database.Finalize | internal/service/payment.go:695-749 | claiming as processing, settling and closing as paid is one step of the machine, or nothing |
| Theorems.ReceivedInFull | internal/service/payment.go:695-749 | in every reachable state a payment that counts as collected received just what it asked of the channel, which with its wallet part is the total of what it pays for |
| Receipts.OnlyTheExactAmount | internal/service/payment.go:703-716 | a pending payment is closed as paid only by a receipt of exactly its amount; any other receipt leaves the database as it was |
| Receipts.ReceiptsDoNotRepeat | internal/service/payment.go:657-684 | a later receipt is confirmed iff it repeats the first, and changes at most a failed payment, to late |
| Store.SettleIgnoresIntents | internal/service/payment.go:319-333 | settling a target neither reads nor writes payments, so the claim made before it changes nothing |
| Store.Database.FailIntent | internal/service/payment.go:547-571 | a void or cancelled payment returns its wallet part once, after the claim |
| Decisions.GivenUp | internal/service/payment.go:495-571 | only its owner cancels a payment, only a pending one is given up, and its wallet part goes back to him |
| Store.Database.CancelIntent | internal/service/payment.go:495-538 | only the owner's pending payment is cancelled |
| Theorems.FinishedPaymentStays | internal/service/payment.go:657-684 | a payment that came late or was paid back keeps that status in any run, so it never funds anything again |
| Store.Database.SettleFromWallet | internal/service/payment.go:438-471 | an unpaid invoice is settled in full from the wallet unless a payment for it is live |
| Store.Database.SettleInvoice | internal/service/payment.go:397-434 | by kind of invoice: order, traffic pack, renewal, or none of them |
| Store.Database.IsBusy | internal/service/payment_target.go:110-156 | the search over the user's live payments finds an alias iff there is one |
| Store.Database.CreateOrder | internal/service/order.go:391-480 | order and unpaid invoice at the discounted total, or nothing |
| Decisions.OrderIsItsLines | internal/service/order.go:391-480 | an order is accepted iff it has 1 to 20 lines, none empty, and a discount within them; it and its invoice cost the lines less the discount |
| Store.Database.CreateServices | internal/service/order.go:620-661 | one service for each unit of each line, in order, each lasting its line's cycle as `Provisions.SettlementDelivers` says |
| Store.Database.SettleOrder | internal/service/order.go:526-719 | order, invoice, services and commission move together |
| Store.Database.PayOrder | internal/service/order.go:503-521 | debit and settlement together, refused while a payment runs |
| Decisions.WalletPaysAlone | internal/service/order.go:503-521 | an order, an invoice or a renewal is paid from the wallet only for its user, while due, and while no payment of his for it is under way under any name |
| Store.Database.CancelOrder | internal/service/order.go:885-906 | the order and exactly its unpaid invoices are cancelled |
| Decisions.CancelledByOwner | internal/service/order.go:885-906 | an order is cancelled iff it is its user's and pending, and with it exactly its unpaid invoices |
| Theorems.FinishedOrderStays | internal/service/order.go:885-906 | a refunded or cancelled order never changes status again in any run |
| Transitions.StepLawful | internal/service/refund.go:403-448 | the status moves any step can make for orders, invoices, payments, changes, refunds and withdrawals, and that an open change freezes its service's expiry |
| References.StepGrows | internal/service/wallet.go:29-71 | every step only appends to the ledger, and removes no row and rewrites nothing that identifies one |
| Store.Database.ApplyRenewal | internal/service/billing.go:219-263 | the conditional update moves the expiry iff the row is as it was read and no change is open |
| Decisions.RenewalMovesExpiry | internal/service/billing.go:212-263 | a renewal moves the expiry 28 to 31 days a month for its cycle's months from the later of now and the old expiry, to where walking back leads there up to day 28; a service the patrol stopped stays stopped iff it has a host |
| Store.Database.Renew | internal/service/billing.go:266-315 | debit, advance and receipt together |
| Decisions.RenewedByOwner | internal/service/billing.go:185-207 | only the owner renews, only what is in use or stopped for traffic or expiry, recurring and without open change, for its price |
| Store.Database.SettleRenewal | internal/service/billing.go:377-410 | a renewal invoice advances its service and is paid |
| Store.Database.SettleTraffic | internal/service/billing.go:942-1005 | a traffic invoice adds its quota, refused when the price has moved |
| Decisions.TrafficIsInvoicedOnce | internal/service/billing.go:871-925 | a pack of 1 to 10240 GB is invoiced iff the service is its user's, in use or stopped for traffic, the pack has a price, and none is unpaid |
| Decisions.TrafficAtTodaysPrice | internal/service/billing.go:964-985 | a pack is credited only at the price the list asks now |
| Store.Database.CreateRenewalInvoice | internal/service/billing.go:321-372 | at most one unpaid renewal invoice per service, at its price |
| Decisions.RenewalIsInvoicedOnce | internal/service/billing.go:321-372 | a renewal is invoiced iff the service is its user's and renewable, and none is unpaid |
| Renewals.RenewalsDoNotOverlap | internal/service/billing.go:219-263 | a later renewal of a service starts no earlier than the one before ended, and never from the same expiry |
| Renewals.StepHistory | internal/service/billing.go:219-315 | every step keeps renewals linked end to start, each at least 28 days a month past the later of now and the old expiry |
| Renewals.KeyIsFresh | internal/service/renewal_scheduler.go:63-71 | the key of an automatic renewal never stops one that is due |
| Store.Database.AutoRenewOne | internal/service/renewal_scheduler.go:38-95 | key, debit, advance and invoice together, or nothing |
| Decisions.ScheduledWhenDue | internal/service/renewal_scheduler.go:38-95 | the scheduler renews only what is switched on, due in the window at the expiry it listed, not renewed from it before, and with no other renewal under way, for its price |
| Store.Database.AutoRenewAll | internal/service/renewal_scheduler.go:14-107 | each listed candidate is renewed against its listed expiry; a failure does not stop the rest |
| Theorems.OneOpenChange | internal/service/service_change.go:384-405 | a service has at most one open change, the one its reservation names |
| Theorems.OpenChangeStopsRenewals | internal/service/billing.go:185-247 | while a change is open no step moves the expiry of its service |
| Theorems.ClosedChangeStays | internal/service/service_change.go:519-557 | an applied or failed change never changes status again in any run |
| Store.Database.ReserveChange | internal/service/service_change.go:384-405 | the quote of what was read is held: change, claim and charge together, or nothing |
| Decisions.ReservedInPeace | internal/service/service_change.go:384-405 | a change is reserved only for the owner of a service in use, as first read, with no other change, unpaid renewal, renewal payment or repeated token |
| Decisions.ReservedAsQuoted | internal/service/service_change.go:196-275 | it leads to the price of product and options, with what was asked for, and its charge is taken |
| Store.Database.FinishChange | internal/service/service_change.go:519-557 | product, price and options switch together and the credit is given, or the whole charge is returned |
| Decisions.ChangeGoes | internal/service/service_change.go:519-557 | applied, the service becomes what the change was for; failed, it stays as it was |
| Theorems.ChargeStands | internal/service/service_change.go:519-557 | the ledger rows of a change add up to its charge while it is open, the charge less the credit once applied, and nothing once failed |
| Reservations.StepCharged | internal/service/service_change.go:384-405 | every step of every kind keeps each change's ledger rows in step with its status |
| Store.Database.IsFenced | internal/service/service_change.go:86-106 | fenced iff a renewal invoice is unpaid or a renewal payment is live |
| Theorems.OnePayoutPerPayment | internal/service/refund.go:478-652 | over all requests and executions of a payment at most one channel payout succeeded or is in doubt |
| Theorems.OneCreditPerOrder | internal/service/refund.go:539-592 | at most one completed request per order, and the order is then refunded |
| Decisions.RefundIsOfPaid | internal/service/refund.go:125-285 | a refund is asked for by the owner of an order that was paid, and is split as the payment was, or all goes to the wallet |
| Decisions.RejectedReturnsNothing | internal/service/refund.go:403-448 | once rejected, a request is never run again and never completed, in any run |
| Decisions.CancelledReturnsNothing | internal/service/refund.go:346-361 | once its owner cancelled it, neither; nobody else can |
| Decisions.ApprovedStarts | internal/service/refund.go:403-448 | once approved, a request can be run at once |
| Decisions.DecidedOnce | internal/service/refund.go:478-490 | only a pending request is reviewed, and one can be started unless turned down, being run or done |
| Decisions.AskedUnderTheClaim | internal/service/refund.go:604-618 | without the claim on the payment the channel counts as refusing |
| Decisions.RevokedIsSwitchedOff | internal/service/refund.go:568-580 | what a refund revokes is not renewed by itself either |
| Payouts.StepExclusive | internal/service/refund.go:478-601 | every step keeps one run per processing request, one owner per claimed payment, and refunded orders with exactly one completed request |
| Payouts.ClaimStaysValid | internal/service/refund.go:604-618 | under a payment claim the second look at it never refuses |
| Theorems.ReturnedAtMostPaid | internal/service/refund.go:200-255 | more is returned for an order than its total, payouts in doubt included, iff a request naming no payment was completed and there was a channel payout that happened or may have, in either order |
| Theorems.CompletingReturnsTooMuch | internal/service/refund.go:538-592 | completing a request leaves too much returned iff it names no payment and some run for its order was accepted or is in doubt |
| Theorems.AskingReturnsTooMuch | internal/service/refund.go:604-652 | asking the channel, unless it refuses, leaves too much returned iff a completed request of the order names no payment |
| Theorems.NothingElseReturnsTooMuch | internal/service/refund.go:478-601 | no other step takes what is returned for an order above its total |
| Witness.ReturnedTwiceReversed | internal/service/refund.go:205-231 | a run in which the channel pays after the wallet was credited |
| Witness.ReturnedTwice | internal/service/refund.go:539-601 | a run in which an order's total is returned twice |
| Entitlements.RefundEndsAll | internal/service/refund.go:562-581 | after a refund every service of its order is revoked or gone iff each was running, revoked or gone before; and none can come back in any guarded run iff each was running or shut before |
| Entitlements.RefundEndsWhatRuns | internal/service/order.go:750-843 | a service can come back after its refund iff it was pending or failed, or suspended for traffic or expiry or in the middle of its termination |
| Entitlements.ReturnsUnlessShut | internal/service/lifecycle.go:465-515 | some guarded run brings a service back iff it is neither terminated nor revoked nor held by the administration |
| Entitlements.ShutForGood | internal/service/billing.go:185-200 | what is revoked or gone stays so, with the expiry it had, in every guarded run |
| Entitlements.UnguardedReopens | internal/service/order.go:812-822 | after the unguarded write of a failed renewal, or of a provisioning that began earlier, any service can come back |
| Decisions.SetAsGiven | internal/service/lifecycle.go:305-335 | what the patrol, provisioning and the administration write to a service is its status, reason and switches, and nothing else of it |
| Witness.RenewedAfterRefund | internal/service/refund.go:568-580 | a run in which a suspended service is renewed after its refund |
| Witness.ProvisionedAfterRefund | internal/service/order.go:808-822 | a run in which a pending service is provisioned after its refund |
| Store.Database.CompleteRefund | internal/service/refund.go:539-592 | request, wallet, order, services, payment and commission move together, or nothing |
| Payouts.ClaimPaymentExclusive | internal/service/refund.go:491-514 | claiming a payment keeps one owner for each payment that is being refunded; the losers own nothing |
| Payouts.AskChannelExclusive | internal/service/refund.go:604-652 | asking the channel keeps every payout with the one owner of its payment |
| Payouts.ReleaseExclusive | internal/service/refund.go:529-537 | after a definite refusal the claim can be given back without a second owner |
| Theorems.CommissionFollowsOrder | internal/service/affiliate.go:141-184 | a commission is reversed in full when its order is refunded and not at all before |
| Earnings.StepShares | internal/service/affiliate_withdrawal.go:21-108 | every step keeps balance + reserved + payouts = earned = commissions less reversals, reserved = pending withdrawals, one commission per order, reversals proportional |
| Earnings.PartsReverseTheWhole | internal/service/affiliate.go:141-184 | refunds in any number of parts reverse exactly floor(amount * min(sum, paid) / paid), and all of it on a full refund |
| Decisions.ReversalIsShare | internal/service/affiliate.go:158-166 | the reversal owed is the largest in proportion to what was refunded, of which no more counts than was paid |
| Earnings.PayoutsWithinEarnings | internal/service/affiliate_withdrawal.go:55-108 | an approval never takes total payouts above net earnings |
| Store.Database.Accrue | internal/service/affiliate.go:97-137 | one commission per order, none for oneself |
| Decisions.CommissionIsRate | internal/service/affiliate.go:97-137 | a first settlement earns a commission iff it has a referrer other than the buyer and comes to a cent: the rate in basis points of the total, rounded down |
| Decisions.JoinsOnce | internal/service/affiliate.go:72-92 | a user takes part once |
| Decisions.RegistersWithReferrer | internal/service/affiliate.go:187-214 | a user is referred by whom he named at registration |
| Store.Database.ReverseCommission | internal/service/affiliate.go:141-184 | commission and account move by the missing part of the target |
| Earnings.WithdrawBooks | internal/service/affiliate_withdrawal.go:21-51 | a withdrawal keeps the account equations |
| Decisions.WithdrawalIsCovered | internal/service/affiliate_withdrawal.go:21-51 | a withdrawal lies between the minimum and a million and leaves no debt; it moves from the balance to the reserve |
| Store.Database.ReviewWithdrawal | internal/service/affiliate_withdrawal.go:55-108 | an approval pays the wallet, refused while the account is in debt; a rejection gives the reservation back |
| Decisions.WithdrawalGoes | internal/service/affiliate_withdrawal.go:55-108 | an approval pays a user who owes nothing, a rejection gives the reserve back |
| Calendar.ClosedFormAgrees | internal/model/model.go:57-73 | adding up month lengths gives the day numbers of the closed Gregorian form |
| Calendar.OneMonthBack | internal/service/service_change.go:165-179 | one month back subtracts exactly the length of the previous month |
| Calendar.AddMonthsGrows | internal/model/model.go:57-73 | a step forward is 28 to 31 days a month |
| Calendar.StepBackInverts | internal/service/service_change.go:165-179 | stepping back undoes a step of months iff the day of the month exists in the month reached |
| Calendar.WalkBackInvertsAdvance | internal/model/model.go:57-73 | up to day 28, walking a cycle back inverts the advance |
| Calendar.BillingStart | internal/service/service_change.go:165-179 | the loop ends at the first whole-cycle step back from the expiry that is not after now |
| Calendar.StartUnique | internal/service/service_change.go:165-179 | the loop's answer is the only such start |
| Calendar.WindowCoversRemaining | internal/service/service_change.go:240-250 | the window covers the remaining time, so the clamp never applies, and overshoots the present by less than one cycle |
| Proration.MakeQuote | internal/service/service_change.go:196-275 | charge or credit is the floor of difference * remaining / cycle over all remaining cycles, and is what the machine reserves; refused exactly for an inactive, expired, unsupported or overflowing one |
| Proration.OneCycleCostsTheDifference | internal/service/service_change.go:251-271 | exactly 1, 3, 6 or 12 months before the expiry, as the cycle is, a quote is the new price less the old; `MakeQuote` says the same of itself |
| Proration.HalfACycleCostsHalf | internal/service/service_change.go:251-271 | with half of that window to go it is half of it, rounded down |
| Proration.NothingElseIsQuoted | internal/service/service_change.go:145-179 | nothing is quoted for one-time, two- and three-year cycles, nor for what is not in use or has expired |
| Pricing.StepPriced | internal/service/service_change.go:384-405 | every step of every kind keeps each change at the cost of a quote from the price it read, each applied change of a service starting from the price the one before left, and the price still while a change is open |
| Theorems.ChainOfChangesIffFresh | internal/service/service_change.go:393 | in every reachable state, with a whole cycle or more to go, consecutive applied changes quoted at one instant cost at every point what the chain of the service's prices does iff each was quoted from the price the service had when it was reserved |
| Theorems.FreshChangesCannotBeFarmed | internal/service/service_change.go:234-271 | in every reachable state such changes, each quoted from the current price, that return to their first price net to less than a cent a change, however little is to go |
| Pricing.ReservesFresh | internal/service/service_change.go:393 | a reserved change is quoted from the current price iff the price the quote read is the one the service has then, which no guard asks |
| Proration.TargetsTellApart | internal/service/service_change.go:251-260 | two prices make some change cost something else, however little is to go |
| Overcredit.CreditedTwice | internal/service/service_change.go:272-299 | a run of three applied changes that returns to its price and leaves the customer ninety of a hundred |
| Proration.ClosedChain | internal/service/service_change.go:251-271 | quotes that each start from the price the one before led to, and return to the first price, net less than a cent for each raise on one side and each drop on the other |
| Proration.ThereAndBack | internal/service/service_change.go:251-271 | a quote to another price and one back from it net to zero |
| Proration.BoundIsSharp | internal/service/money.go:6-16 | the bound of closed chains is attained |
| Lifecycle.Patrolled.Run | internal/service/lifecycle.go:200-299 | over any run every TERMINATE was for a service suspended over 72 hours, expired and without open change; the debits that stand are those of renewals that took effect or are under way; a purged host is renewable only if an outcome was lost |
| Lifecycle.Patrolled.CommitRenewal | internal/service/billing.go:219-263 | no renewal commits while the termination claim is held, whenever it read the row, and its debit is then rolled back; one committing during a suspension leaves the service active with the later expiry |
| Lifecycle.Patrolled.ClaimExpired | internal/service/lifecycle.go:343-359 | only the exact listed expiry is claimed, so no renewal has committed since the listing |
| Lifecycle.Patrolled.MarkSuspended | internal/service/lifecycle.go:305-335 | writes iff the claim stands on the listed expiry; otherwise the row stays as it is |
| Lifecycle.Patrolled.ClaimTerminate | internal/service/lifecycle.go:377-393 | claims iff the row is exactly as listed, still expired, and without open change |
| Lifecycle.Patrolled.SendTerminate | internal/service/lifecycle.go:281-287 | a purge leaves its service renewable iff it took effect and its reply was an error; any error releases the claim |
| Lifecycle.Patrolled.Recheck | internal/service/lifecycle.go:402-408 | with one patrol the check after the purge never fails |
| Lifecycle.Patrolled.MarkTerminated | internal/service/lifecycle.go:422-435 | a confirmed purge is always recorded |
| Lifecycle.Patrolled.BeginRound | internal/service/lifecycle.go:130-141 | no claim marker outlives the start of a round, and nothing else is changed |
| Lifecycle.Patrolled.CommitResume | internal/service/lifecycle.go:465-515 | a resume never overwrites a held termination claim |
| Lifecycle.RenewsWhatIsGone | internal/service/lifecycle.go:281-287 | a run in which a purged host is renewed and paid for, after a lost reply |
| Resize.Task.Run | internal/service/service_change.go:411-505 | over any run of attempts, lost replies, crashes and other steps, closing as applied found upstream with the desired resources and kept the charge less the credit, closing as failed found the previous ones and kept nothing; once seen, the desired ones stay until the change is closed, and nothing more is sent |
| Resize.Task.Send | internal/service/service_change.go:455-492 | RESIZE is sent only to a host with its previous resources |
| Resize.Task.Finish | internal/service/service_change.go:519-557 | closed as applied only after the desired resources were seen, as failed only after nothing was done, with the ledger's own closing step |
| Coupons.EligibleSubtotal | internal/service/coupon.go:290-309 | the loops add up exactly the items a coupon applies to |
| Coupons.EligibleIsPart | internal/service/coupon.go:290-309 | the eligible subtotal is at most the cart's |
| Coupons.EligibleExactly | internal/service/coupon.go:290-309 | a coupon without products applies to every item, one with products to just the items of these |
| Coupons.DiscountIsRight | internal/service/coupon.go:313-334 | a percentage takes off the most that stays within it, within its cap and within the subtotal; a fixed amount the lesser of it and the subtotal |
| Coupons.WorthExactly | internal/service/coupon.go:338-374 | a code is worth something iff its coupon is switched on, in its time, not used up by all or by the user, open to him, and for enough of the cart; and then what the coupon takes off |
| Coupons.NormalIsClean | internal/service/coupon.go:378-383 | a code is compared without blanks around it and without small letters |
| Coupons.NormalTrims | internal/service/coupon.go:378-383 | blanks before a code make no difference |
| Coupons.CartAddsUp | internal/service/coupon.go:290-309 | a cart is worth its items, each its price as often as it is taken |
| Coupons.CouponDesk.Preview | internal/service/coupon.go:378-408 | for a non-blank code the preview is what applying it in the same state gives, and what the coupon may take off |
| Coupons.CouponDesk.Apply | internal/service/coupon.go:413-465 | succeeds exactly when the preview does, with the same discount, which is what the coupon may take off; the count goes up by one with one redemption, within a limit that stays |
| Coupons.CouponDesk.Place | internal/service/order.go:391-480 | lines = total + discount, the discount is what the coupon may take off, and an order whose code cannot be used is not placed |
| Coupons.CouponDesk.Cancel | internal/service/order.go:885-906 | a cancelled order holds no redemption and its use is given back |
| Coupons.CouponDesk.Release | internal/service/coupon.go:469-484 | the count falls by exactly one, so the floor at zero is never used |
| Coupons.CouponDesk.Update | internal/service/coupon.go:202-235 | a limit lowered below its uses is the only way a coupon exceeds it |
| Categories.CategoryTable.Run | internal/service/admin.go:387-478 | in any interleaving of the statements of any calls the table is a forest all the time iff each write meets its condition on the table as it then is |
| Categories.WriteKeepsForest | internal/service/admin.go:387-478 | a write on a forest leaves a forest iff, for an insert, the parent exists; for a move, it exists outside the subtree; for a delete, there is no child |
| Categories.MovesIntoEachOther | internal/service/admin.go:414-449 | a run of two moves that leaves two categories below each other |
| Categories.LosesItsParent | internal/service/admin.go:452-478 | a run of a creation and a deletion that leaves a category without its parent |
| Categories.CategoryTable.Validate | internal/service/admin.go:486-519 | read without interruption, the walk accepts exactly an existing parent at most ten levels deep that is not below the category, in any table |
| Categories.CategoryTable.CreateCategory | internal/service/admin.go:387-411 | a call that nothing interrupts is accepted exactly under that check and keeps a forest |
| Categories.CategoryTable.UpdateCategory | internal/service/admin.go:414-449 | the same of a move with all that is below the category |
| Categories.CategoryTable.DeleteCategory | internal/service/admin.go:452-478 | the same of a deletion: refused while a child or product remains |
| Categories.MoveKeepsForest | internal/service/admin.go:486-519 | moving a category keeps the relation acyclic iff its new parent exists outside its subtree |
| Categories.CycleHasNoRoot | internal/service/admin.go:499-519 | what lies on a cycle reaches no root |
| Categories.DiscountFor | internal/service/agent_program.go:231-260 | of any table: the discount of the nearest configured category upwards iff it is within ten links |
| Categories.TableOfTier | internal/service/agent_program.go:238-241 | the discounts looked up are just the tier's, the last one for a category |
| Categories.ShallowIsExact | internal/service/agent_program.go:231-260 | up to eleven levels the limit loses no discount |
| Categories.LadderNearest | internal/service/agent_program.go:231-260 | at the foot of a ladder of n categories the topmost discount is exactly n - 1 links away |
| Categories.DeepChain | internal/service/admin.go:480-519 | moves accepted by the check build a chain of any length |
| Catalog.BuildTree | internal/service/catalog.go:26-67 | of any table: assembly by pointers gives the trees that the rows describe |
| Catalog.Attach | internal/service/catalog.go:52-58 | children are complete before they are copied into their parent |
| Catalog.OneStorefront | internal/service/catalog.go:59-66 | the rows describe one storefront only |
| Catalog.EveryCategoryOnce | internal/service/catalog.go:26-67 | the tree shows each category whose parents lead to a root exactly once and nothing else; of a forest, every category |
| Catalog.EveryProductOnce | internal/service/catalog.go:26-67 | an active product is shown as often as it is listed iff its category's parents lead to a root, any other not at all |
| Catalog.UnderKeepsOrder | internal/service/catalog.go:26-67 | siblings are shown in the order of the listing |
| Catalog.ActiveKeepsOrder | internal/service/catalog.go:31-40 | so are the products of a category |
| LoginLimit.Tracker.Check | internal/loginlimit/loginlimit.go:90-106 | answers as the unbounded histories would |
| LoginLimit.Tracker.RecordFailure | internal/loginlimit/loginlimit.go:114-121 | appends to the histories, except for a new account when the table is full of records that still matter |
| LoginLimit.Tracker.RecordAccountFailure | internal/loginlimit/loginlimit.go:131-160 | the record follows the account's history |
| LoginLimit.Tracker.RecordSourceFailure | internal/loginlimit/loginlimit.go:162-187 | the bounded window follows the source's full history |
| LoginLimit.Tracker.RecordSuccess | internal/loginlimit/loginlimit.go:125-129 | forgets the account's history and not the source's |
| LoginLimit.Tracker.Sweep | internal/loginlimit/loginlimit.go:205-216 | sweeping leaves the histories, and so every later answer, as they are |
| LoginLimit.ShiftIsExact | internal/loginlimit/loginlimit.go:151-155 | the wrapping 64-bit shift gives exactly min(15 min * 2^(f-5), 24 h) for every f >= 5 |
| LoginLimit.LocksInSeconds | internal/loginlimit/loginlimit.go:151-158 | the fifth failure in a row locks for 900 seconds, each further one twice as long, and from the twelfth on for 86400 |
| LoginLimit.FailureInARow | internal/loginlimit/loginlimit.go:131-160 | a row breaks after 3600 quiet seconds, and fewer than five failures lock nothing |
| LoginLimit.FailureOfSource | internal/loginlimit/loginlimit.go:162-187 | a source is locked for 900 seconds by a failure iff it is at least the fiftieth within 3600 |
| LoginLimit.AccountsApart | internal/loginlimit/loginlimit.go:222-224 | failures are counted together iff entrance and account are the same, the account but for case and blanks around it |
| LoginLimit.WindowStep | internal/loginlimit/loginlimit.go:168-182 | filtering, extending and cutting the kept window equals doing so on the whole history, and fifty are kept iff fifty lie within the hour |
| LoginLimit.LocksNeverShorten | internal/loginlimit/loginlimit.go:156-158 | a further failure never shortens a lock |
| Revocation.Cluster.IsRevoked | internal/auth/revocation_persist.go:100-126 | on any replica refused iff the greatest expiry ever committed is after now |
| Revocation.Cluster.LookInTable | internal/auth/revocation_persist.go:113-126 | whatever ran since the call began, a refusal names an expiry that was committed and lies after its beginning, and a pass is right at that moment |
| Revocation.Cluster.Commit | internal/auth/revocation_persist.go:71-88 | the table never shortens a revocation |
| Revocation.Cluster.DeleteExpired | internal/auth/revocation_persist.go:130-137 | cleanup removes only what is past |
| Revocation.Cluster.Restart | internal/auth/revocation_persist.go:34-46 | an empty cache is as good as a full one |
| Revocation.Cluster.Run | internal/auth/revocation_persist.go:48-145 | any interleaving of calls of any replicas keeps table and caches right |
| Subject.EncodeSubject | internal/mailer/mailer.go:334-365 | for any bytes the loop ends, each word has at most 75 characters and a reader gets the subject back; of valid UTF-8, words hold whole characters and the header's lines keep to 76 characters iff the subject has at most 39 bytes |
| Subject.LinesAreShort | internal/mailer/mailer.go:316 | every header line but the first has at most 76 characters; the first has iff its word holds at most 39 bytes |
| Subject.Chunk | internal/mailer/mailer.go:350-360 | a chunk ends where a character starts, so the one-byte fallback is unreachable for valid UTF-8 |
| Subject.SubjectReads | internal/mailer/mailer.go:334-365 | reading folded encoded words and joining them gives back what was encoded |
| Subject.Base64RoundTrip | internal/mailer/mailer.go:361 | decoding inverts encoding |
| Subject.CutAtRune | internal/mailer/mailer.go:354-357 | cutting valid UTF-8 where a character starts leaves both sides valid |
| Subject.EncodeBody | internal/mailer/mailer.go:322-329 | body lines of at most 76 characters, all but the last full, decode to the body |
| Traffic.QuotaRoundTrip | internal/service/billing.go:776-793 | the quota read from a traffic line is the quota written into it, in the range that can be sold |
| Traffic.NeverOvercounts | internal/service/lifecycle.go:622-631 | metered traffic never exceeds the actual, and is exact iff every restart of the counter was seen |

## Left out

- Handlers, plugins, mail transport, file storage and every other foreign call; a remote call is an outcome.
- SQL isolation: a transaction body is one step, and reads outside it are earlier states.
- Integer overflow of 64 bits, except in the proration quotient and the login lock; amounts a handler validates as nonnegative are naturals.
- Legacy rows: payments without a canonical key and refund requests without an order.
- The upstream writes that are not conditional (`provisionOne`, `reconcileUpstreamRenewal`) and administrative overrides: `SetService` lets them set status, reason and switches, but not an expiry, and no row is deleted.
- Orders: stock, agreements, agent tiers and option prices are inputs of the lines; a service whose plugin cannot be resolved is created pending rather than failed.
- CreateTrafficInvoice: the search for an unpaid pack, the invoice and its line are one step, although the source makes them one after the other, without a transaction.
- The refund policy, which decides whether a request needs a review at all.
- The uniqueness row of a commission reversal, which is one per refund by construction.
- Which products a service may change to, and the validation of options: a quote takes their prices, and the service row it read, as given.
- The expiry of an abandoned change's lease: an open change can be claimed at any time in `Changes`, and `Resize` has one attempt at a time.
- Coupons are a model of their own: an order there takes its discount as `Orders.Create` does, but the two tables are not joined.
- The calendar counts seconds in UTC; other zones and leap seconds are not modelled.
- Subject and body are modelled as bytes; headers other than the subject are not.
- Names and codes are compared after trimming and changing the case of ASCII letters only.
- Revocation.Cluster.LookInTable: when steps of other calls run in between, a pass is right at its moment, but a refusal is only tied to an expiry committed by then and later than the call's beginning; one that had passed before it was committed makes the refusal right at no moment.
- LoginLimit.Tracker.RecordFailure: time and lock are taken together, although the source reads the clock before it waits for the lock (internal/loginlimit/loginlimit.go:91, 115); failures recorded out of order by that wait are not modelled.
- Categories.DiscountFor: the reads of one walk see one table, although each is a statement of its own.
- Slugs, names and sorting of categories; the check that a product's category exists.
