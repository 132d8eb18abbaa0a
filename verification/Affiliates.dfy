// affiliate.go and affiliate_withdrawal.go: commissions, their reversal when an
// order is refunded, and the withdrawal of what is left.
module Affiliates {
  import opened Options
  import opened Sums
  import opened Tables
  import Wallet
  import Orders

  function AffiliateOf(rows: seq<Affiliate>, user: Id): (i: nat)
    ensures i <= |rows|
    ensures i < |rows| ==> rows[i].user == user
    ensures i == |rows| ==> forall k :: 0 <= k < |rows| ==> rows[k].user != user
  {
    if |rows| == 0 then 0
    else
      var last := |rows| - 1;
      var i := AffiliateOf(rows[..last], user);
      if i < last then i else if rows[last].user == user then last else |rows|
  }

  // Join; a second call meets the unique index and changes nothing.
  function Join(db: Db, user: Id): Option<Db> {
    if user >= |db.bank.balances| then None
    else if AffiliateOf(db.affiliates, user) < |db.affiliates| then Some(db)
    else Some(db.(affiliates := db.affiliates + [Affiliate(user, 0, 0, 0)]))
  }

  // Registration with an optional referral.
  function Register(db: Db, referrer: Option<Id>): Option<Db> {
    if referrer.Some? && referrer.value >= |db.affiliates| then None
    else Some(db.(bank := db.bank.(balances := db.bank.balances + [0]), referrers := db.referrers + [referrer]))
  }

  function RefundedOn(o: Id): Refund -> int {
    (r: Refund) => if r.order == o && r.status == RefundCompleted then r.amount else 0
  }

  function Min(a: int, b: int): int { if a < b then a else b }

  // The reversal owed once refunded cents of an order have gone back.
  function ReversalTarget(c: Commission, refunded: int): int {
    if c.paid <= 0 then 0 else c.amount * Min(refunded, c.paid) / c.paid
  }

  // Each refund reverses up to the target for all refunds so far, never back.
  function ReverseBy(c: Commission, refunded: int): Commission {
    var target := ReversalTarget(c, refunded);
    if target <= c.reversed then c else c.(reversed := target)
  }

  // reverseAffiliateTx, after the refund's status was set to completed.
  function Reverse(db: Db, o: Id): Db {
    var c := Orders.CommissionFor(db.commissions, o);
    if c == |db.commissions| then db
    else
      var x := db.commissions[c];
      var y := ReverseBy(x, Sum(db.refunds, RefundedOn(o)));
      var delta := y.reversed - x.reversed;
      if delta == 0 || x.affiliate >= |db.affiliates| then db
      else
        var a := db.affiliates[x.affiliate];
        db.(commissions := db.commissions[c := y],
            affiliates := db.affiliates[x.affiliate := a.(balance := a.balance - delta, earned := a.earned - delta)])
  }

  const MAX_WITHDRAWAL: int := 100_000_000

  function Withdraw(db: Db, user: Id, amount: int, minimum: nat): Option<Db> {
    var a := AffiliateOf(db.affiliates, user);
    if minimum < 1 || amount < minimum || amount > MAX_WITHDRAWAL || a == |db.affiliates|
       || db.affiliates[a].balance < amount
    then None
    else
      var x := db.affiliates[a];
      Some(db.(
        affiliates := db.affiliates[a := x.(balance := x.balance - amount, reserved := x.reserved + amount)],
        withdrawals := db.withdrawals + [Withdrawal(user, a, amount, WithdrawalPending)]))
  }

  // Review: an approval is refused while refunds have left the account in debt.
  function Review(db: Db, w: Id, approve: bool): Option<Db> {
    if w >= |db.withdrawals| || db.withdrawals[w].status != WithdrawalPending then None
    else
      var x := db.withdrawals[w];
      if x.affiliate >= |db.affiliates| then None
      else
        var a := db.affiliates[x.affiliate];
        if a.reserved < x.amount || (approve && a.balance < 0) then None
        else
          var status := if approve then WithdrawalApproved else WithdrawalRejected;
          var d := db.(
            withdrawals := db.withdrawals[w := x.(status := status)],
            affiliates := db.affiliates[x.affiliate :=
              a.(reserved := a.reserved - x.amount, balance := if approve then a.balance else a.balance + x.amount)]);
          if approve then Wallet.Post(d, x.user, x.amount, CommissionPayout(w)) else Some(d)
  }
}
