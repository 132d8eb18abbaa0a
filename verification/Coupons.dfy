// coupon.go: which coupons an order may use, what they take off, and the count of
// their uses as orders are placed and cancelled.
module Coupons {
  import opened Options

  type Id = nat

  datatype Kind = Percent | Fixed | OtherKind

  datatype Coupon = Coupon(
    code: string, kind: Kind, percentOff: int, amount: int, maxDiscount: int, minOrder: int,
    active: bool, starts: Option<int>, expires: Option<int>,
    maxUses: int, maxUsesPerUser: int, newUserOnly: bool, used: int, products: seq<Id>)

  datatype Item = Item(product: Id, price: nat, quantity: nat)

  datatype Redemption = Redemption(coupon: Id, user: Id, discount: nat)

  datatype Status = Pending | Paid | Cancelled | Refunded

  datatype Order = Order(user: Id, status: Status, items: seq<Item>, total: int, discount: nat)

  // ----- what a coupon takes off -----

  function LinesTotal(items: seq<Item>): nat {
    if |items| == 0 then 0
    else LinesTotal(items[..|items| - 1]) + items[|items| - 1].price * items[|items| - 1].quantity
  }

  predicate Takes(c: Coupon, x: Item) { c.products == [] || x.product in c.products }

  // The part of a cart that a coupon applies to.
  function Eligible(c: Coupon, items: seq<Item>): seq<Item> {
    if |items| == 0 then []
    else
      var rest, x := Eligible(c, items[..|items| - 1]), items[|items| - 1];
      if Takes(c, x) then rest + [x] else rest
  }

  // couponEligibleSubtotal: one loop for all items, one that looks each up in a set.
  method EligibleSubtotal(c: Coupon, items: seq<Item>) returns (sum: int)
    ensures sum == LinesTotal(Eligible(c, items))
  {
    sum := 0;
    var i := 0;
    if |c.products| == 0 {
      while i < |items|
        invariant 0 <= i <= |items|
        invariant sum == LinesTotal(Eligible(c, items[..i]))
      {
        EligibleStep(c, items, i);
        sum := sum + items[i].price * items[i].quantity;
        i := i + 1;
      }
    } else {
      var ids := set p | p in c.products;
      while i < |items|
        invariant 0 <= i <= |items|
        invariant sum == LinesTotal(Eligible(c, items[..i]))
      {
        EligibleStep(c, items, i);
        if items[i].product in ids {
          sum := sum + items[i].price * items[i].quantity;
        }
        i := i + 1;
      }
    }
    assert items[..i] == items;
  }

  lemma EligibleStep(c: Coupon, items: seq<Item>, i: nat)
    requires i < |items|
    ensures LinesTotal(Eligible(c, items[..i + 1]))
         == LinesTotal(Eligible(c, items[..i])) + (if Takes(c, items[i]) then items[i].price * items[i].quantity else 0)
  {
    assert items[..i + 1][..i] == items[..i];
    var rest := Eligible(c, items[..i]);
    assert (rest + [items[i]])[..|rest|] == rest;
  }

  // Integer division that truncates toward zero.
  function Quotient(a: int, b: int): int
    requires b > 0
  {
    if a >= 0 then a / b else -(-a / b)
  }

  // couponDiscountCents. The coupon need not be one that validation would accept.
  function Discount(c: Coupon, subtotal: int): (discount: int)
    ensures 0 <= discount && (subtotal >= 0 ==> discount <= subtotal)
  {
    if subtotal <= 0 then 0
    else
      var raw :=
        match c.kind
        case Percent =>
          var share := Quotient(subtotal * c.percentOff, 100);
          if c.maxDiscount > 0 && share > c.maxDiscount then c.maxDiscount else share
        case Fixed => c.amount
        case OtherKind => 0;
      if raw > subtotal then subtotal else if raw < 0 then 0 else raw
  }

  lemma {:induction false} EligibleIsPart(c: Coupon, items: seq<Item>)
    ensures LinesTotal(Eligible(c, items)) <= LinesTotal(items)
  {
    if |items| > 0 {
      var n := |items| - 1;
      EligibleIsPart(c, items[..n]);
      EligibleStep(c, items, n);
      assert items[..n + 1] == items;
      Product(items[n].price, items[n].quantity);
    }
  }

  lemma Product(a: nat, b: nat)
    ensures a * b >= 0
  {
  }

  // A cart is worth its items, each its price as often as it is taken.
  lemma {:induction false} CartAddsUp(items: seq<Item>, more: seq<Item>, x: Item)
    ensures LinesTotal([]) == 0 && LinesTotal([x]) == x.quantity * x.price
    ensures LinesTotal(items + more) == LinesTotal(items) + LinesTotal(more)
  {
    assert [x][..0] == [];
    if |more| == 0 {
      assert items + more == items;
    } else {
      var n := |more| - 1;
      CartAddsUp(items, more[..n], x);
      assert (items + more)[..|items| + n] == items + more[..n];
    }
  }

  // A coupon without products applies to every item, and one with products to just
  // the items of these.
  lemma {:induction false} EligibleExactly(c: Coupon, items: seq<Item>, x: Item)
    ensures multiset(Eligible(c, items))[x]
         == if |c.products| == 0 || (exists k :: 0 <= k < |c.products| && c.products[k] == x.product)
            then multiset(items)[x] else 0
  {
    if |items| > 0 {
      var n := |items| - 1;
      EligibleExactly(c, items[..n], x);
      assert items == items[..n] + [items[n]];
    }
  }

  // What a coupon may take off a subtotal: of a percentage the most that stays within
  // it and within the cap, if there is one; of a fixed amount the lesser of it and the
  // subtotal; and nothing for a percentage or an amount below zero.
  ghost predicate TakesOff(c: Coupon, subtotal: nat, d: int) {
    match c.kind
    case Percent =>
      if c.percentOff < 0 then d == 0
      else && WithinPercent(c, subtotal, d)
           && forall e: nat :: WithinPercent(c, subtotal, e) ==> e <= d
    case Fixed => d == (if c.amount < 0 then 0 else if c.amount < subtotal then c.amount else subtotal)
    case OtherKind => d == 0
  }

  predicate WithinPercent(c: Coupon, subtotal: nat, d: int) {
    0 <= d <= subtotal && 100 * d <= subtotal * c.percentOff && (c.maxDiscount > 0 ==> d <= c.maxDiscount)
  }

  lemma DiscountIsRight(c: Coupon, subtotal: nat)
    ensures TakesOff(c, subtotal, Discount(c, subtotal))
  {
    if c.kind == Percent && subtotal > 0 {
      var n, d := subtotal * c.percentOff, Discount(c, subtotal);
      if c.percentOff >= 0 {
        Product(subtotal, c.percentOff);
        assert n / 100 >= 0 && 100 * (n / 100) <= n < 100 * (n / 100 + 1);
      } else {
        Product(subtotal, -c.percentOff);
        assert n == -(subtotal * -c.percentOff) <= 0;
      }
    } else if c.kind == Percent && c.percentOff >= 0 {
      assert subtotal * c.percentOff == 0;
    }
  }

  // ----- who may use one -----

  function Upper(ch: char): char {
    if 'a' <= ch <= 'z' then (ch as int - 32) as char else ch
  }

  predicate Blank(ch: char) { ch == ' ' || ch == '\t' || ch == '\n' || ch == '\r' }

  // Codes are stored and compared trimmed and in upper case.
  function Normal(code: string): string {
    if |code| == 0 then ""
    else if Blank(code[0]) then Normal(code[1..])
    else if Blank(code[|code| - 1]) then Normal(code[..|code| - 1])
    else seq(|code|, i requires 0 <= i < |code| => Upper(code[i]))
  }

  // What is left has no blanks around it and no small letters.
  lemma {:induction false} NormalIsClean(code: string)
    ensures |Normal(code)| > 0 ==> !Blank(Normal(code)[0]) && !Blank(Normal(code)[|Normal(code)| - 1])
    ensures forall i :: 0 <= i < |Normal(code)| ==> !('a' <= Normal(code)[i] <= 'z')
    decreases |code|
  {
    if |code| > 0 {
      if Blank(code[0]) {
        NormalIsClean(code[1..]);
      } else if Blank(code[|code| - 1]) {
        NormalIsClean(code[..|code| - 1]);
      } else {
        NormalKeepsClean(code);
        hide Normal;
        UpperIsBlankless(code[0]);
        UpperIsBlankless(code[|code| - 1]);
      }
    }
  }

  lemma UpperIsBlankless(ch: char)
    ensures Blank(Upper(ch)) <==> Blank(ch)
    ensures !('a' <= Upper(ch) <= 'z')
  {
  }

  // Blanks around a code make no difference.
  lemma NormalTrims(code: string, b: char)
    requires Blank(b)
    ensures Normal([b] + code) == Normal(code)
  {
    assert ([b] + code)[1..] == code;
  }

  // A code that is clean already stays as it is, but for its small letters.
  lemma NormalKeepsClean(code: string)
    requires |code| > 0 && !Blank(code[0]) && !Blank(code[|code| - 1])
    ensures |Normal(code)| == |code|
    ensures forall i :: 0 <= i < |code| ==>
              Normal(code)[i] == if 'a' <= code[i] <= 'z' then (code[i] as int - 32) as char else code[i]
  {
  }

  function Redeemed(redemptions: map<Id, Redemption>, c: Id): set<Id> {
    set o | o in redemptions && redemptions[o].coupon == c
  }

  function RedeemedBy(redemptions: map<Id, Redemption>, c: Id, user: Id): set<Id> {
    set o | o in redemptions && redemptions[o].coupon == c && redemptions[o].user == user
  }

  predicate HasPaid(orders: seq<Order>, user: Id) {
    exists o :: 0 <= o < |orders| && orders[o].user == user && orders[o].status == Paid
  }

  function Find(coupons: seq<Option<Coupon>>, code: string): (i: nat)
    ensures i <= |coupons|
    ensures i < |coupons| ==> coupons[i].Some? && coupons[i].value.code == code
    ensures i == |coupons| ==> forall k :: 0 <= k < |coupons| && coupons[k].Some? ==> coupons[k].value.code != code
  {
    if |coupons| == 0 then 0
    else
      var last := |coupons| - 1;
      var i := Find(coupons[..last], code);
      if i < last then i
      else if coupons[last].Some? && coupons[last].value.code == code then last
      else |coupons|
  }

  // ----- the books -----

  // used_count is the number of live redemptions.
  ghost predicate Counted(coupons: seq<Option<Coupon>>, redemptions: map<Id, Redemption>) {
    forall c :: 0 <= c < |coupons| ==> CountOk(coupons[c], redemptions, c)
  }

  ghost predicate CountOk(x: Option<Coupon>, redemptions: map<Id, Redemption>, c: Id) {
    x.Some? ==> x.value.used == |Redeemed(redemptions, c)|
  }

  // Only an order that stands holds a redemption, its own.
  ghost predicate Held(coupons: seq<Option<Coupon>>, redemptions: map<Id, Redemption>, orders: seq<Order>) {
    forall o :: o in redemptions ==> HeldBy(redemptions[o], |coupons|, orders, o)
  }

  ghost predicate HeldBy(r: Redemption, coupons: nat, orders: seq<Order>, o: Id) {
    && o < |orders| && orders[o].status != Cancelled && r.coupon < coupons
    && r.user == orders[o].user && r.discount == orders[o].discount
  }

  // What an order costs is its lines less what was taken off them.
  predicate Priced(x: Order) { x.total == LinesTotal(x.items) - x.discount >= 0 }

  ghost predicate AllPriced(orders: seq<Order>) {
    forall o :: 0 <= o < |orders| ==> Priced(orders[o])
  }

  // No coupon has been used more often than it may be.
  ghost predicate Limited(coupons: seq<Option<Coupon>>) {
    forall c :: 0 <= c < |coupons| ==> LimitOk(coupons[c])
  }

  predicate LimitOk(x: Option<Coupon>) {
    x.Some? && x.value.maxUses > 0 ==> x.value.used <= x.value.maxUses
  }

  // checkCouponUsable.
  predicate Usable(x: Coupon, c: Id, redemptions: map<Id, Redemption>, orders: seq<Order>, user: Id, now: int) {
    && x.active
    && (x.starts.Some? ==> now >= x.starts.value)
    && (x.expires.Some? ==> now <= x.expires.value)
    && (x.maxUses > 0 ==> x.used < x.maxUses)
    && (x.maxUsesPerUser > 0 ==> |RedeemedBy(redemptions, c, user)| < x.maxUsesPerUser)
    && (x.newUserOnly ==> !HasPaid(orders, user))
  }

  // What a code is worth to a user with this cart: None is every error.
  function Worth(coupons: seq<Option<Coupon>>, redemptions: map<Id, Redemption>, orders: seq<Order>,
                 user: Id, code: string, items: seq<Item>, now: int): Option<nat>
  {
    var c := Find(coupons, Normal(code));
    if c == |coupons| || !Usable(coupons[c].value, c, redemptions, orders, user, now) then None
    else
      var x := coupons[c].value;
      var subtotal := LinesTotal(Eligible(x, items));
      if subtotal <= 0 || (x.minOrder > 0 && subtotal < x.minOrder) then None
      else Some(Discount(x, subtotal))
  }

  // A code is worth something exactly when there is such a coupon, switched on, in its
  // time, not used up by all or by this user, open to this user, and for enough of the
  // cart; and then it is worth what the coupon takes off that part.
  lemma WorthExactly(coupons: seq<Option<Coupon>>, redemptions: map<Id, Redemption>, orders: seq<Order>,
                     user: Id, code: string, items: seq<Item>, now: int)
    ensures var c, w := Find(coupons, Normal(code)), Worth(coupons, redemptions, orders, user, code, items, now);
            && (c == |coupons| ==> w.None?)
            && (c < |coupons| ==>
                var x := coupons[c].value;
                var part := LinesTotal(Eligible(x, items));
                && x.code == Normal(code)
                && (w.None? <==> || !x.active
                                 || (x.starts.Some? && now < x.starts.value)
                                 || (x.expires.Some? && x.expires.value < now)
                                 || (0 < x.maxUses <= x.used)
                                 || (0 < x.maxUsesPerUser <= |set o | o in redemptions && redemptions[o].coupon == c
                                                                     && redemptions[o].user == user|)
                                 || (x.newUserOnly && exists o :: 0 <= o < |orders| && PaidBy(orders[o], user))
                                 || part == 0
                                 || part < x.minOrder)
                && (w.Some? ==> TakesOff(x, part, w.value)))
  {
    var c := Find(coupons, Normal(code));
    if c < |coupons| {
      var x := coupons[c].value;
      assert RedeemedBy(redemptions, c, user)
          == set o | o in redemptions && redemptions[o].coupon == c && redemptions[o].user == user;
      assert HasPaid(orders, user) <==> exists o :: 0 <= o < |orders| && PaidBy(orders[o], user);
      DiscountIsRight(x, LinesTotal(Eligible(x, items)));
      hide TakesOff, Discount, Eligible, LinesTotal;
    }
  }

  predicate PaidBy(x: Order, user: Id) { x.user == user && x.status == Paid }

  function AddUseTo(x: Coupon, n: int): Coupon { x.(used := x.used + n) }

  // The tables behind the shop's coupons: a coupon's row is None once deleted, and a
  // redemption is keyed by its order, of which it is unique.
  class CouponDesk {
    var coupons: seq<Option<Coupon>>
    var redemptions: map<Id, Redemption>
    var orders: seq<Order>

    ghost predicate Valid()
      reads this
    {
      Counted(coupons, redemptions) && Held(coupons, redemptions, orders) && AllPriced(orders)
    }

    constructor ()
      ensures Valid() && Limited(coupons) && coupons == [] && redemptions == map[] && orders == []
    {
      coupons, redemptions, orders := [], map[], [];
    }

    // Preview: what the cart page shows, without using the coupon.
    method Preview(user: Id, code: string, items: seq<Item>, now: int) returns (r: Option<nat>)
      ensures Normal(code) == "" ==> r.None?
      ensures Normal(code) != "" ==> r == Worth(coupons, redemptions, orders, user, code, items, now)
      ensures r.Some? ==>
        var c := Find(coupons, Normal(code));
        c < |coupons| && TakesOff(coupons[c].value, LinesTotal(Eligible(coupons[c].value, items)), r.value)
    {
      hide TakesOff;
      WorthExactly(coupons, redemptions, orders, user, code, items, now);
      if Normal(code) == "" {
        return None;
      }
      var c := Find(coupons, Normal(code));
      if c == |coupons| || !Usable(coupons[c].value, c, redemptions, orders, user, now) {
        return None;
      }
      var x := coupons[c].value;
      var subtotal := EligibleSubtotal(x, items);
      if subtotal <= 0 || (x.minOrder > 0 && subtotal < x.minOrder) {
        return None;
      }
      r := Some(Discount(x, subtotal));
    }

    // applyCoupon, in the transaction that places order o. The guarded increment
    // cannot fail after the check before it, so applying succeeds exactly when a
    // preview in the same state would, and takes off the same amount.
    method Apply(user: Id, code: string, items: seq<Item>, o: Id, now: int) returns (r: Option<nat>)
      requires Counted(coupons, redemptions) && o !in redemptions
      modifies this`coupons, this`redemptions
      ensures Counted(coupons, redemptions) && (old(Limited(coupons)) ==> Limited(coupons))
      ensures Normal(code) == "" ==> r == Some(0)
      ensures Normal(code) != "" ==> r == Worth(old(coupons), old(redemptions), orders, user, code, items, now)
      ensures r.None? || Normal(code) == "" ==> coupons == old(coupons) && redemptions == old(redemptions)
      ensures r.Some? && Normal(code) != "" ==>
        var c := Find(old(coupons), Normal(code));
        && c < |old(coupons)| && r.value <= LinesTotal(Eligible(old(coupons)[c].value, items)) <= LinesTotal(items)
        && TakesOff(old(coupons)[c].value, LinesTotal(Eligible(old(coupons)[c].value, items)), r.value)
        && redemptions == old(redemptions)[o := Redemption(c, user, r.value)]
        && coupons == old(coupons)[c := Some(AddUseTo(old(coupons)[c].value, 1))]
    {
      hide TakesOff;
      if Normal(code) == "" {
        return Some(0);
      }
      var c := Find(coupons, Normal(code));
      if c == |coupons| || !Usable(coupons[c].value, c, redemptions, orders, user, now) {
        return None;
      }
      var x := coupons[c].value;
      var subtotal := EligibleSubtotal(x, items);
      if subtotal <= 0 || (x.minOrder > 0 && subtotal < x.minOrder) {
        return None;
      }
      var discount := Discount(x, subtotal);
      EligibleIsPart(x, items);
      DiscountIsRight(x, subtotal);
      if x.maxUses > 0 {
        var claimed := x.used < x.maxUses;
        if !claimed {
          assert false;
        }
      }
      UseCounted(coupons, redemptions, o, Redemption(c, user, discount));
      coupons := coupons[c := Some(AddUseTo(x, 1))];
      redemptions := redemptions[o := Redemption(c, user, discount)];
      r := Some(discount);
    }

    // create, for the order it writes and the coupon it uses: an order whose code
    // cannot be used is not placed at all.
    method Place(user: Id, items: seq<Item>, code: string, now: int) returns (placed: bool)
      requires Valid()
      modifies this
      ensures Valid() && (old(Limited(coupons)) ==> Limited(coupons))
      ensures !placed ==> coupons == old(coupons) && redemptions == old(redemptions) && orders == old(orders)
      ensures placed <==>
        Normal(code) == "" || Worth(old(coupons), old(redemptions), old(orders), user, code, items, now).Some?
      ensures placed ==>
        var discount := if Normal(code) == "" then 0
                        else Worth(old(coupons), old(redemptions), old(orders), user, code, items, now).value;
        orders == old(orders) + [Order(user, Pending, items, LinesTotal(items) - discount, discount)]
      ensures placed && Normal(code) != "" ==>
        var c := Find(old(coupons), Normal(code));
        && c < |old(coupons)| && |orders| > 0
        && TakesOff(old(coupons)[c].value, LinesTotal(Eligible(old(coupons)[c].value, items)),
                    orders[|orders| - 1].discount)
      ensures placed && Normal(code) != "" ==> redemptions.Keys == old(redemptions.Keys) + {|old(orders)|}
      ensures Normal(code) == "" ==> redemptions == old(redemptions)
    {
      hide TakesOff, Worth, Eligible, Normal, LinesTotal;
      var o := |orders|;
      assert o !in redemptions;
      orders := orders + [Order(user, Pending, items, LinesTotal(items), 0)];
      WorthIgnoresPending(coupons, redemptions, old(orders), orders[o], user, code, items, now);
      var applied := Apply(user, code, items, o, now);
      if applied.None? {
        orders := orders[..o];
        assert orders == old(orders);
        return false;
      }
      if applied.value > 0 {
        orders := orders[o := orders[o].(total := LinesTotal(items) - applied.value, discount := applied.value)];
      }
      placed := true;
    }

    // Cancel, for the order and its coupon: the use is given back with the redemption.
    method Cancel(user: Id, o: Id) returns (cancelled: bool)
      requires Valid()
      modifies this
      ensures Valid() && (old(Limited(coupons)) ==> Limited(coupons))
      ensures cancelled <==> o < |old(orders)| && old(orders)[o].user == user && old(orders)[o].status == Pending
      ensures !cancelled ==> coupons == old(coupons) && redemptions == old(redemptions) && orders == old(orders)
      ensures cancelled ==> orders == old(orders)[o := old(orders)[o].(status := Cancelled)]
      ensures cancelled ==> redemptions == old(redemptions) - {o}
      ensures cancelled ==> coupons == GivenBack(old(coupons), old(redemptions), o)
    {
      if o >= |orders| || orders[o].user != user || orders[o].status != Pending {
        return false;
      }
      orders := orders[o := orders[o].(status := Cancelled)];
      Release(o);
      cancelled := true;
    }

    // releaseCoupon. The floor at zero is never needed: a coupon that still exists
    // counts the redemption that is being given back.
    method Release(o: Id)
      requires Counted(coupons, redemptions)
      modifies this`coupons, this`redemptions
      ensures Counted(coupons, redemptions) && (old(Limited(coupons)) ==> Limited(coupons))
      ensures redemptions == old(redemptions) - {o}
      ensures coupons == GivenBack(old(coupons), old(redemptions), o)
    {
      if o !in redemptions {
        assert redemptions - {o} == redemptions;
        return;
      }
      var c := redemptions[o].coupon;
      UseReturned(coupons, redemptions, o);
      if c < |coupons| && coupons[c].Some? {
        var x := coupons[c].value;
        coupons := coupons[c := Some(x.(used := if x.used > 0 then x.used - 1 else 0))];
      }
      redemptions := redemptions - {o};
    }

    // Paying or refunding an order leaves its redemption in place.
    method Settle(o: Id, status: Status)
      requires Valid() && o < |orders| && orders[o].status != Cancelled && status != Cancelled
      modifies this`orders
      ensures Valid() && orders == old(orders)[o := old(orders)[o].(status := status)]
    {
      orders := orders[o := orders[o].(status := status)];
    }

    // Create: a new code, not used yet.
    method Issue(x: Coupon) returns (issued: bool)
      requires Valid()
      modifies this`coupons
      ensures Valid() && (old(Limited(coupons)) ==> Limited(coupons))
      ensures issued <==> forall k :: 0 <= k < |old(coupons)| && old(coupons)[k].Some? ==>
        old(coupons)[k].value.code != x.code
      ensures coupons == if issued then old(coupons) + [Some(x.(used := 0))] else old(coupons)
    {
      if Find(coupons, x.code) < |coupons| {
        return false;
      }
      assert Redeemed(redemptions, |coupons|) == {};
      coupons := coupons + [Some(x.(used := 0))];
      issued := true;
    }

    // Update: everything but the code and the count. Lowering maxUses below what
    // is already used is allowed, so Limited holds again only if y obeys it.
    method Update(c: Id, y: Coupon) returns (updated: bool)
      requires Valid()
      modifies this`coupons
      ensures Valid()
      ensures updated <==> c < |old(coupons)| && old(coupons)[c].Some?
      ensures coupons == if updated
        then old(coupons)[c := Some(y.(code := old(coupons)[c].value.code, used := old(coupons)[c].value.used))]
        else old(coupons)
      ensures old(Limited(coupons)) ==> (Limited(coupons) <==> !updated || LimitOk(coupons[c]))
    {
      if c >= |coupons| || coupons[c].None? {
        return false;
      }
      var x := coupons[c].value;
      coupons := coupons[c := Some(y.(code := x.code, used := x.used))];
      assert forall k :: 0 <= k < |coupons| && k != c ==> coupons[k] == old(coupons)[k];
      updated := true;
    }

    // Delete: the redemptions stay behind, naming a coupon that is gone.
    method Delete(c: Id) returns (deleted: bool)
      requires Valid()
      modifies this`coupons
      ensures Valid() && (old(Limited(coupons)) ==> Limited(coupons))
      ensures deleted <==> c < |old(coupons)| && old(coupons)[c].Some?
      ensures coupons == if deleted then old(coupons)[c := None] else old(coupons)
    {
      if c >= |coupons| || coupons[c].None? {
        return false;
      }
      coupons := coupons[c := None];
      deleted := true;
    }
  }

  // The coupons once order o's use is given back.
  function GivenBack(coupons: seq<Option<Coupon>>, redemptions: map<Id, Redemption>, o: Id): seq<Option<Coupon>> {
    if o !in redemptions || redemptions[o].coupon >= |coupons| || coupons[redemptions[o].coupon].None? then coupons
    else coupons[redemptions[o].coupon := Some(AddUseTo(coupons[redemptions[o].coupon].value, -1))]
  }

  lemma UseCounted(coupons: seq<Option<Coupon>>, redemptions: map<Id, Redemption>, o: Id, r: Redemption)
    requires Counted(coupons, redemptions) && o !in redemptions && r.coupon < |coupons| && coupons[r.coupon].Some?
    ensures Counted(coupons[r.coupon := Some(AddUseTo(coupons[r.coupon].value, 1))], redemptions[o := r])
  {
    var after := coupons[r.coupon := Some(AddUseTo(coupons[r.coupon].value, 1))];
    forall c | 0 <= c < |after| ensures CountOk(after[c], redemptions[o := r], c) {
      assert CountOk(coupons[c], redemptions, c);
      AddUse(redemptions, o, r, c);
    }
  }

  lemma UseReturned(coupons: seq<Option<Coupon>>, redemptions: map<Id, Redemption>, o: Id)
    requires Counted(coupons, redemptions) && o in redemptions
    ensures Counted(GivenBack(coupons, redemptions, o), redemptions - {o})
    ensures var c := redemptions[o].coupon; c < |coupons| && coupons[c].Some? ==> coupons[c].value.used > 0
  {
    var after := GivenBack(coupons, redemptions, o);
    assert o in Redeemed(redemptions, redemptions[o].coupon);
    forall c | 0 <= c < |after| ensures CountOk(after[c], redemptions - {o}, c) {
      assert CountOk(coupons[c], redemptions, c);
      RemoveUse(redemptions, o, c);
    }
    if redemptions[o].coupon < |coupons| {
      assert CountOk(coupons[redemptions[o].coupon], redemptions, redemptions[o].coupon);
    }
  }

  lemma AddUse(redemptions: map<Id, Redemption>, o: Id, r: Redemption, c: Id)
    requires o !in redemptions
    ensures |Redeemed(redemptions[o := r], c)| == |Redeemed(redemptions, c)| + (if r.coupon == c then 1 else 0)
  {
    var after := redemptions[o := r];
    if r.coupon == c {
      assert Redeemed(after, c) == Redeemed(redemptions, c) + {o};
    } else {
      assert Redeemed(after, c) == Redeemed(redemptions, c);
    }
  }

  lemma RemoveUse(redemptions: map<Id, Redemption>, o: Id, c: Id)
    requires o in redemptions
    ensures |Redeemed(redemptions - {o}, c)|
      == |Redeemed(redemptions, c)| - (if redemptions[o].coupon == c then 1 else 0)
  {
    if redemptions[o].coupon == c {
      assert Redeemed(redemptions - {o}, c) == Redeemed(redemptions, c) - {o};
    } else {
      assert Redeemed(redemptions - {o}, c) == Redeemed(redemptions, c);
    }
  }

  // The order being placed does not make its user a returning one.
  lemma WorthIgnoresPending(coupons: seq<Option<Coupon>>, redemptions: map<Id, Redemption>, orders: seq<Order>,
                            x: Order, user: Id, code: string, items: seq<Item>, now: int)
    requires x.status == Pending
    ensures Worth(coupons, redemptions, orders + [x], user, code, items, now)
         == Worth(coupons, redemptions, orders, user, code, items, now)
  {
    PendingIsNotPaid(orders, x, user);
  }

  lemma PendingIsNotPaid(orders: seq<Order>, x: Order, user: Id)
    requires x.status == Pending
    ensures HasPaid(orders + [x], user) <==> HasPaid(orders, user)
  {
    if o :| 0 <= o < |orders| && orders[o].user == user && orders[o].status == Paid {
      assert (orders + [x])[o].user == user && (orders + [x])[o].status == Paid;
    }
  }
}
