// wallet.go: the one function through which a balance changes.
module Wallet {
  import opened Options
  import opened Sums
  import opened Tables

  const MAX_CREDIT: int := 100_000_000

  // adjustBalance: None is the error that rolls the caller's transaction back.
  function Adjust(b: Bank, user: Id, amount: int, ref: Ref): Option<Bank> {
    if amount == 0 || user >= |b.balances| || (amount < 0 && b.balances[user] < -amount) then None
    else
      var after := b.balances[user] + amount;
      Some(Bank(b.balances[user := after], b.log + [Entry(user, amount, after, ref)]))
  }

  function Post(db: Db, user: Id, amount: int, ref: Ref): Option<Db> {
    match Adjust(db.bank, user, amount, ref)
    case None => None
    case Some(bank) => Some(db.(bank := bank))
  }

  // Several callers skip the adjustment when there is nothing to move.
  function PostUnlessZero(db: Db, user: Id, amount: int, ref: Ref): Option<Db> {
    if amount == 0 then Some(db) else Post(db, user, amount, ref)
  }

  function Debit(db: Db, user: Id, amount: nat, ref: Ref): Option<Db> {
    PostUnlessZero(db, user, -(amount as int), ref)
  }

  function Recharge(db: Db, user: Id, amount: int): Option<Db> {
    if amount <= 0 || amount > MAX_CREDIT then None else Post(db, user, amount, Recharged)
  }

  function FindPlugin(rows: seq<PluginPayment>, plugin: string, external: string): (i: nat)
    ensures i <= |rows|
    ensures i < |rows| ==> rows[i].plugin == plugin && rows[i].external == external
    ensures i == |rows| ==> forall k :: 0 <= k < |rows| ==> rows[k].plugin != plugin || rows[k].external != external
  {
    if |rows| == 0 then 0
    else
      var last := |rows| - 1;
      var i := FindPlugin(rows[..last], plugin, external);
      if i < last then i
      else if rows[last].plugin == plugin && rows[last].external == external then last
      else |rows|
  }

  // CreditExternal: a repeated (plugin, external) pair meets the unique index and
  // answers with the first record, moving no money.
  function CreditExternal(db: Db, plugin: string, external: string, user: Id, amount: int): Option<Db> {
    if amount <= 0 || amount > MAX_CREDIT || external == "" then None
    else if FindPlugin(db.plugins, plugin, external) < |db.plugins| then Some(db)
    else
      Post(db.(plugins := db.plugins + [PluginPayment(plugin, external, user, amount)]),
           user, amount, PluginCredit(|db.plugins|))
  }

  // ----- what the ledger keeps -----

  function AmountOf(user: Id): Entry -> int {
    (e: Entry) => if e.user == user then e.amount else 0
  }

  // Balances are never negative, each is the sum of its owner's entries, and
  // every entry carries the running balance of its owner.
  ghost predicate Ledger(b: Bank) {
    && (forall u :: 0 <= u < |b.balances| ==> 0 <= b.balances[u] == Sum(b.log, AmountOf(u)))
    && (forall t :: 0 <= t < |b.log| ==> EntryOk(b, t))
  }

  ghost predicate EntryOk(b: Bank, t: nat)
    requires t < |b.log|
  {
    var e := b.log[t];
    e.user < |b.balances| && e.amount != 0 && 0 <= e.after == Sum(b.log[..t + 1], AmountOf(e.user))
  }

  lemma AdjustKeepsLedger(b: Bank, user: Id, amount: int, ref: Ref)
    requires Ledger(b) && Adjust(b, user, amount, ref).Some?
    ensures Ledger(Adjust(b, user, amount, ref).value)
  {
    var c := Adjust(b, user, amount, ref).value;
    var e := c.log[|b.log|];
    forall u | 0 <= u < |c.balances|
      ensures 0 <= c.balances[u] == Sum(c.log, AmountOf(u))
    {
      SumAppend(b.log, e, AmountOf(u));
    }
    forall t | 0 <= t < |c.log|
      ensures EntryOk(c, t)
    {
      if t < |b.log| {
        assert EntryOk(b, t);
        assert c.log[..t + 1] == b.log[..t + 1];
      } else {
        assert c.log[..t + 1] == c.log;
      }
    }
  }

  // A user who was never credited starts at zero with no entries.
  lemma NewUserKeepsLedger(b: Bank)
    requires Ledger(b)
    ensures Ledger(b.(balances := b.balances + [0]))
  {
    var c := b.(balances := b.balances + [0]);
    forall u | 0 <= u < |c.balances|
      ensures 0 <= c.balances[u] == Sum(c.log, AmountOf(u))
    {
      if u == |b.balances| {
        forall t | 0 <= t < |b.log| ensures AmountOf(u)(b.log[t]) == 0 { assert EntryOk(b, t); }
        SumZero(b.log, AmountOf(u));
      }
    }
    forall t | 0 <= t < |c.log| ensures EntryOk(c, t) { assert EntryOk(b, t); }
  }
}
