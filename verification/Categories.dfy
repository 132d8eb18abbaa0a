// admin.go and agent_program.go: product categories, each with at most one parent,
// the statements that read and write them, and the walk that looks up a discount.
// No transaction holds a call's check and its write together, so the statements of
// several calls may interleave, and the table need not stay a forest.
module Categories {
  import opened Options

  type Id = nat

  // A category's parent, by its id; ids start at 1.
  type Parents = map<Id, Option<Id>>

  const MAX_DEPTH: nat := 10

  // ----- any table of parents -----

  // The category k links up from x. Neither needs to exist.
  function Up(cats: Parents, x: Id, k: nat): Option<Id>
    decreases k
  {
    if k == 0 then Some(x)
    else if x !in cats || cats[x].None? then None
    else Up(cats, cats[x].value, k - 1)
  }

  // x exists and a root is exactly k links up from it.
  predicate RootAt(cats: Parents, x: Id, k: nat)
    decreases k
  {
    x in cats && if k == 0 then cats[x].None? else cats[x].Some? && RootAt(cats, cats[x].value, k - 1)
  }

  ghost predicate Grounded(cats: Parents, x: Id) {
    exists k: nat :: RootAt(cats, x, k)
  }

  // x is top or lies somewhere below it.
  ghost predicate InSubtree(cats: Parents, x: Id, top: Id) {
    exists k: nat :: Up(cats, x, k) == Some(top)
  }

  // Every chain of parents ends in a root: no cycle, and no parent is missing.
  ghost predicate IsForest(cats: Parents) {
    forall x :: x in cats ==> Grounded(cats, x)
  }

  lemma {:induction false} UpTwice(cats: Parents, x: Id, k: nat, y: Id, l: nat)
    requires Up(cats, x, k) == Some(y)
    ensures Up(cats, x, k + l) == Up(cats, y, l)
    decreases k
  {
    if k > 0 { UpTwice(cats, cats[x].value, k - 1, y, l); }
  }

  lemma {:induction false} RootAbove(cats: Parents, x: Id, k: nat, y: Id, n: nat)
    requires Up(cats, x, k) == Some(y) && RootAt(cats, y, n)
    ensures RootAt(cats, x, k + n)
    decreases k
  {
    if k > 0 { RootAbove(cats, cats[x].value, k - 1, y, n); }
  }

  lemma {:induction false} OneDepth(cats: Parents, x: Id, k: nat, n: nat)
    requires RootAt(cats, x, k) && RootAt(cats, x, n)
    ensures k == n
    decreases k
  {
    if k > 0 && n > 0 { OneDepth(cats, cats[x].value, k - 1, n - 1); }
  }

  // The chain above a grounded category is as long as its depth, and all on it are
  // grounded.
  lemma {:induction false} ChainAbove(cats: Parents, x: Id, n: nat, k: nat)
    requires RootAt(cats, x, n)
    ensures Up(cats, x, k).Some? <==> k <= n
    ensures k <= n ==> Up(cats, x, k).value in cats && RootAt(cats, Up(cats, x, k).value, n - k)
    decreases k
  {
    if k > 0 && n > 0 { ChainAbove(cats, cats[x].value, n - 1, k - 1); }
  }

  // What lies on a cycle reaches no root.
  lemma CycleHasNoRoot(cats: Parents, x: Id, k: nat)
    requires k > 0 && Up(cats, x, k) == Some(x)
    ensures !Grounded(cats, x)
  {
    forall n: nat | RootAt(cats, x, n) ensures false {
      RootAbove(cats, x, k, x, n);
      OneDepth(cats, x, n, k + n);
    }
  }

  // ----- what a write does to a forest -----

  datatype Write =
    | Inserted(id: Id, parent: Option<Id>)
    | Moved(id: Id, parent: Option<Id>)
    | Removed(id: Id)

  predicate Possible(cats: Parents, w: Write) {
    if w.Inserted? then w.id !in cats else w.id in cats
  }

  function Apply(cats: Parents, w: Write): Parents {
    if w.Removed? then cats - {w.id} else cats[w.id := w.parent]
  }

  // What must hold of the table at the moment of the write.
  ghost predicate Keeps(cats: Parents, w: Write) {
    match w
    case Inserted(_, parent) => parent.None? || parent.value in cats
    case Moved(id, parent) => parent.None? || (parent.value in cats && !InSubtree(cats, parent.value, id))
    case Removed(id) => forall x :: x in cats ==> cats[x] != Some(id)
  }

  // A chain that does not pass the written category is the same as before.
  lemma {:induction false} SameChain(cats: Parents, after: Parents, id: Id, x: Id, n: nat)
    requires RootAt(cats, x, n) && !InSubtree(cats, x, id)
    requires forall y :: y in cats && y != id ==> y in after && after[y] == cats[y]
    ensures RootAt(after, x, n)
    decreases n
  {
    assert Up(cats, x, 0) == Some(x);
    if n > 0 {
      forall k: nat ensures Up(cats, cats[x].value, k) != Some(id) { assert Up(cats, x, k + 1) != Some(id); }
      SameChain(cats, after, id, cats[x].value, n - 1);
    }
  }

  // A chain that reaches the written category still reaches it.
  lemma {:induction false} StillReaches(cats: Parents, after: Parents, id: Id, x: Id, k: nat) returns (i: nat)
    requires Up(cats, x, k) == Some(id)
    requires forall y :: y in cats && y != id ==> y in after && after[y] == cats[y]
    ensures Up(after, x, i) == Some(id)
    decreases k
  {
    if x == id { i := 0; } else { i := StillReaches(cats, after, id, cats[x].value, k - 1); i := i + 1; }
  }

  lemma InsertKeepsForest(cats: Parents, id: Id, parent: Option<Id>)
    requires IsForest(cats) && id !in cats
    ensures IsForest(cats[id := parent]) <==> Keeps(cats, Inserted(id, parent))
  {
    var after := cats[id := parent];
    forall x | x in cats ensures Grounded(after, x) {
      var n: nat :| RootAt(cats, x, n);
      forall k: nat | Up(cats, x, k) == Some(id) ensures false { ChainAbove(cats, x, n, k); }
      SameChain(cats, after, id, x, n);
    }
    if Keeps(cats, Inserted(id, parent)) {
      if parent.None? { assert RootAt(after, id, 0); } else {
        assert Grounded(after, parent.value);
        var n: nat :| RootAt(after, parent.value, n);
        assert RootAt(after, id, n + 1);
      }
      assert Grounded(after, id);
    } else if parent == Some(id) {
      assert Up(after, id, 1) == Some(id) by { assert Up(after, id, 0) == Some(id); }
      CycleHasNoRoot(after, id, 1);
    } else {
      Dangles(after, id);
    }
  }

  lemma Dangles(cats: Parents, x: Id)
    requires x in cats && cats[x].Some? && cats[x].value !in cats
    ensures !Grounded(cats, x)
  {
    forall n: nat ensures !RootAt(cats, x, n) { assert n > 0 ==> !RootAt(cats, cats[x].value, n - 1); }
  }

  lemma MoveKeepsForest(cats: Parents, id: Id, parent: Option<Id>)
    requires IsForest(cats) && id in cats
    ensures IsForest(cats[id := parent]) <==> Keeps(cats, Moved(id, parent))
  {
    var after := cats[id := parent];
    if Keeps(cats, Moved(id, parent)) {
      var d := MovedDepth(cats, id, parent);
      forall x | x in after ensures Grounded(after, x) {
        var n: nat :| RootAt(cats, x, n);
        if k: nat :| Up(cats, x, k) == Some(id) {
          var i := StillReaches(cats, after, id, x, k);
          RootAbove(after, x, i, id, d);
        } else {
          SameChain(cats, after, id, x, n);
        }
      }
    } else if parent.value !in cats {
      Dangles(after, id);
    } else {
      var k: nat :| Up(cats, parent.value, k) == Some(id);
      var i := StillReaches(cats, after, id, parent.value, k);
      CycleHasNoRoot(after, id, i + 1);
    }
  }

  // Where the moved category ends up.
  lemma MovedDepth(cats: Parents, id: Id, parent: Option<Id>) returns (d: nat)
    requires IsForest(cats) && id in cats && Keeps(cats, Moved(id, parent))
    ensures RootAt(cats[id := parent], id, d)
  {
    if parent.None? {
      d := 0;
    } else {
      assert Grounded(cats, parent.value);
      var n: nat :| RootAt(cats, parent.value, n);
      SameChain(cats, cats[id := parent], id, parent.value, n);
      d := n + 1;
    }
  }

  lemma RemoveKeepsForest(cats: Parents, id: Id)
    requires IsForest(cats) && id in cats
    ensures IsForest(cats - {id}) <==> Keeps(cats, Removed(id))
  {
    var after := cats - {id};
    if Keeps(cats, Removed(id)) {
      forall x | x in after ensures Grounded(after, x) {
        var n: nat :| RootAt(cats, x, n);
        forall k: nat | Up(cats, x, k) == Some(id) ensures false { NobodyBelow(cats, id, x, k); }
        SameChain(cats, after, id, x, n);
      }
    } else {
      var x :| x in cats && cats[x] == Some(id);
      if x == id {
        assert Up(cats, id, 1) == Some(id) by { assert Up(cats, id, 0) == Some(id); }
        CycleHasNoRoot(cats, id, 1);
        assert false;
      }
      Dangles(after, x);
    }
  }

  lemma {:induction false} NobodyBelow(cats: Parents, id: Id, x: Id, k: nat)
    requires (forall y :: y in cats ==> cats[y] != Some(id)) && Up(cats, x, k) == Some(id)
    ensures x == id
    decreases k
  {
    if k > 0 { NobodyBelow(cats, id, cats[x].value, k - 1); }
  }

  // A write made on a forest leaves a forest exactly when its condition holds of
  // the table it is made on, whatever the table was when it was checked.
  lemma WriteKeepsForest(cats: Parents, w: Write)
    requires IsForest(cats) && Possible(cats, w)
    ensures IsForest(Apply(cats, w)) <==> Keeps(cats, w)
  {
    hide IsForest, Keeps;
    match w
    case Inserted(id, parent) => InsertKeepsForest(cats, id, parent);
    case Moved(id, parent) => MoveKeepsForest(cats, id, parent);
    case Removed(id) => RemoveKeepsForest(cats, id);
  }

  function After(ws: seq<Write>): Parents {
    if |ws| == 0 then map[] else Apply(After(ws[..|ws| - 1]), ws[|ws| - 1])
  }

  ghost predicate AllPossible(ws: seq<Write>) {
    forall k :: 0 <= k < |ws| ==> Possible(After(ws[..k]), ws[k])
  }

  ghost predicate AlwaysForest(ws: seq<Write>) {
    forall k :: 0 <= k <= |ws| ==> IsForest(After(ws[..k]))
  }

  ghost predicate AllKeep(ws: seq<Write>) {
    forall k :: 0 <= k < |ws| ==> Keeps(After(ws[..k]), ws[k])
  }

  // Through any sequence of writes the table is a forest all the time exactly when
  // each write meets its condition.
  lemma {:induction false} ForestThroughout(ws: seq<Write>)
    requires AllPossible(ws)
    ensures AlwaysForest(ws) <==> AllKeep(ws)
  {
    hide IsForest, Keeps, Possible, Apply, AlwaysForest, AllKeep;
    if |ws| == 0 {
      EmptyForest(ws);
    } else {
      var n := |ws| - 1;
      LastWrite(ws);
      ForestThroughout(ws[..n]);
      if AlwaysForest(ws[..n]) {
        assert IsForest(After(ws[..n])) by { LastForest(ws[..n]); }
        WriteKeepsForest(After(ws[..n]), ws[n]);
      }
    }
  }

  lemma LastForest(ws: seq<Write>)
    requires AlwaysForest(ws)
    ensures IsForest(After(ws))
  {
    assert ws[..|ws|] == ws;
  }

  lemma LastWrite(ws: seq<Write>)
    requires |ws| > 0
    ensures var n := |ws| - 1;
            && (AllPossible(ws) ==> AllPossible(ws[..n]) && Possible(After(ws[..n]), ws[n]))
            && (AlwaysForest(ws) <==> AlwaysForest(ws[..n]) && IsForest(Apply(After(ws[..n]), ws[n])))
            && (AllKeep(ws) <==> AllKeep(ws[..n]) && Keeps(After(ws[..n]), ws[n]))
  {
    var n := |ws| - 1;
    assert forall k :: 0 <= k <= n ==> ws[..n][..k] == ws[..k];
    assert After(ws) == Apply(After(ws[..n]), ws[n]);
    hide IsForest, Keeps, Possible, Apply, After;
    ForestsButLast(ws);
    KeptButLast(ws);
    hide AlwaysForest, AllKeep;
  }

  lemma KeptButLast(ws: seq<Write>)
    requires |ws| > 0
    ensures AllKeep(ws) <==> AllKeep(ws[..|ws| - 1]) && Keeps(After(ws[..|ws| - 1]), ws[|ws| - 1])
  {
    hide Keeps, After;
    var n := |ws| - 1;
    assert forall k :: 0 <= k <= n ==> ws[..n][..k] == ws[..k];
  }

  lemma ForestsButLast(ws: seq<Write>)
    requires |ws| > 0
    ensures AlwaysForest(ws) <==> AlwaysForest(ws[..|ws| - 1]) && IsForest(After(ws))
  {
    hide IsForest, After;
    var n := |ws| - 1;
    assert forall k :: 0 <= k <= n ==> ws[..n][..k] == ws[..k];
    assert ws[..|ws|] == ws;
  }

  lemma EmptyForest(ws: seq<Write>)
    requires |ws| == 0
    ensures AlwaysForest(ws) && AllKeep(ws)
  {
  }

  // ----- the check -----

  // validateParent between two reads.
  datatype Walk = Walk(self: Id, parent: Id, cursor: Id, depth: nat)

  // Where a call of the administration stands. self is 0 for a new category.
  datatype Call =
    | Walking(walk: Walk)
    | Cleared(self: Id, parent: Option<Id>)
    | Childless(id: Id)
    | Deletable(id: Id)
    | Over

  // One read of the walk, on the table as it is then.
  function Look(cats: Parents, w: Walk): Call {
    if w.cursor !in cats then Over
    else if w.depth + 1 > MAX_DEPTH then Over
    else if w.self != 0 && w.cursor == w.self then Over
    else if cats[w.cursor].None? then Cleared(w.self, Some(w.parent))
    else Walking(w.(cursor := cats[w.cursor].value, depth := w.depth + 1))
  }

  // What validateParent accepts of one table: the parent stands at most MAX_DEPTH
  // levels deep and is not below the category itself.
  ghost predicate Acceptable(cats: Parents, parent: Option<Id>, self: Id) {
    parent.None?
      || ((exists k: nat :: k < 10 && RootAt(cats, parent.value, k)) && !InSubtree(cats, parent.value, self))
  }

  lemma AcceptableMoveKeeps(cats: Parents, parent: Option<Id>, self: Id)
    requires Acceptable(cats, parent, self)
    ensures Keeps(cats, Moved(self, parent)) && Keeps(cats, Inserted(self, parent))
  {
  }

  lemma {:induction false} NothingBelowZero(cats: Parents, x: Id, n: nat)
    requires 0 !in cats && RootAt(cats, x, n)
    ensures !InSubtree(cats, x, 0)
  {
    forall k: nat | Up(cats, x, k) == Some(0) ensures false { ChainAbove(cats, x, n, k); }
  }

  datatype Step =
    | StartsSave(self: Id, parent: Option<Id>)
    | Looks(call: nat)
    | Saves(call: nat)
    | StartsDelete(id: Id)
    | CountsProducts(call: nat)
    | Deletes(call: nat)
    | PutsProduct(product: Id, category: Id)

  // The categories, and the calls under way. writes is the history of what was
  // written; the code knows nothing of it.
  class CategoryTable {
    var cats: Parents
    var products: map<Id, Id>
    var next: Id
    var calls: seq<Call>
    ghost var writes: seq<Write>

    ghost predicate Valid()
      reads this
    {
      && next > 0 && 0 !in cats && (forall x :: x in cats ==> x < next)
      && cats == After(writes) && AllPossible(writes)
    }

    constructor ()
      ensures Valid() && cats == map[] && products == map[] && next == 1 && calls == [] && writes == []
    {
      cats, products, next, calls, writes := map[], map[], 1, [], [];
    }

    lemma Recorded(was: seq<Write>, w: Write)
      requires AllPossible(was) && Possible(After(was), w)
      ensures AllPossible(was + [w]) && After(was + [w]) == Apply(After(was), w)
    {
      var all := was + [w];
      assert all[..|was|] == was;
      forall k | 0 <= k < |all| ensures Possible(After(all[..k]), all[k]) {
        if k < |was| { assert all[..k] == was[..k]; }
      }
    }

    // ----- one statement each -----

    // UpdateCategory reads the category first, CreateCategory does not; then the
    // cases that validateParent decides without a read.
    method StartSave(self: Id, parent: Option<Id>)
      requires Valid()
      modifies this`calls
      ensures Valid()
      ensures calls == old(calls) + [
        if self != 0 && self !in cats then Over
        else if parent.None? then Cleared(self, None)
        else if parent.value == 0 || parent.value == self then Over
        else Walking(Walk(self, parent.value, parent.value, 0))]
    {
      if self != 0 && self !in cats {
        calls := calls + [Over];
        return;
      }
      if parent.None? {
        calls := calls + [Cleared(self, None)];
        return;
      }
      if parent.value == 0 || (self != 0 && parent.value == self) {
        calls := calls + [Over];
        return;
      }
      calls := calls + [Walking(Walk(self, parent.value, parent.value, 0))];
    }

    method LookOnce(i: nat)
      requires Valid()
      modifies this`calls
      ensures Valid()
      ensures calls == if i < |old(calls)| && old(calls)[i].Walking?
        then old(calls)[i := Look(cats, old(calls)[i].walk)] else old(calls)
    {
      if i < |calls| && calls[i].Walking? {
        calls := calls[i := Look(cats, calls[i].walk)];
      }
    }

    // The insert or the update. Nothing of what was checked is checked again; an
    // update of a category that is gone matches no row.
    method Save(i: nat)
      requires Valid()
      modifies this`cats, this`next, this`calls, this`writes
      ensures Valid()
      ensures (i < |old(calls)| && old(calls)[i].Cleared?
               && (old(calls)[i].self == 0 || old(calls)[i].self in old(cats))) ==>
        var x := old(calls)[i];
        var w := if x.self == 0 then Inserted(old(next), x.parent) else Moved(x.self, x.parent);
        writes == old(writes) + [w] && cats == Apply(old(cats), w)
        && (IsForest(old(cats)) ==> (IsForest(cats) <==> Keeps(old(cats), w)))
        && next == (if x.self == 0 then old(next) + 1 else old(next))
      ensures !(i < |old(calls)| && old(calls)[i].Cleared?
                && (old(calls)[i].self == 0 || old(calls)[i].self in old(cats))) ==>
        writes == old(writes) && cats == old(cats) && next == old(next)
      ensures calls == if i < |old(calls)| && old(calls)[i].Cleared? then old(calls)[i := Over] else old(calls)
    {
      hide IsForest, Keeps, AllPossible, After;
      if i >= |calls| || !calls[i].Cleared? {
        return;
      }
      var x := calls[i];
      calls := calls[i := Over];
      if x.self != 0 && x.self !in cats {
        return;
      }
      ghost var w := if x.self == 0 then Inserted(next, x.parent) else Moved(x.self, x.parent);
      Recorded(writes, w);
      if IsForest(cats) { WriteKeepsForest(cats, w); }
      writes := writes + [w];
      if x.self == 0 {
        cats := cats[next := x.parent];
        next := next + 1;
      } else {
        cats := cats[x.self := x.parent];
      }
    }

    // DeleteCategory counts what hangs on the category, in two queries.
    method StartDelete(id: Id)
      requires Valid()
      modifies this`calls
      ensures Valid()
      ensures calls == old(calls) + [if exists x :: x in cats && cats[x] == Some(id) then Over else Childless(id)]
    {
      if exists x :: x in cats && cats[x] == Some(id) {
        calls := calls + [Over];
      } else {
        calls := calls + [Childless(id)];
      }
    }

    method CountProducts(i: nat)
      requires Valid()
      modifies this`calls
      ensures Valid()
      ensures calls == if i < |old(calls)| && old(calls)[i].Childless?
                then old(calls)[i := if old(calls)[i].id in products.Values then Over else Deletable(old(calls)[i].id)]
                  else old(calls)
    {
      if i < |calls| && calls[i].Childless? {
        calls := calls[i := if calls[i].id in products.Values then Over else Deletable(calls[i].id)];
      }
    }

    method Delete(i: nat) returns (ok: bool)
      requires Valid()
      modifies this`cats, this`calls, this`writes
      ensures Valid()
      ensures ok <==> i < |old(calls)| && old(calls)[i].Deletable? && old(calls)[i].id in old(cats)
      ensures ok ==>
        var w := Removed(old(calls)[i].id);
        writes == old(writes) + [w] && cats == Apply(old(cats), w)
        && (IsForest(old(cats)) ==> (IsForest(cats) <==> Keeps(old(cats), w)))
      ensures !ok ==> writes == old(writes) && cats == old(cats)
      ensures calls == if i < |old(calls)| && old(calls)[i].Deletable? then old(calls)[i := Over] else old(calls)
    {
      hide IsForest, Keeps, AllPossible, After;
      if i >= |calls| || !calls[i].Deletable? {
        return false;
      }
      var id := calls[i].id;
      calls := calls[i := Over];
      if id !in cats {
        return false;
      }
      Recorded(writes, Removed(id));
      if IsForest(cats) { WriteKeepsForest(cats, Removed(id)); }
      writes := writes + [Removed(id)];
      cats := cats - {id};
      ok := true;
    }

    method PutProduct(product: Id, category: Id)
      requires Valid()
      modifies this`products
      ensures Valid() && products == old(products)[product := category]
    {
      products := products[product := category];
    }

    // ----- any interleaving -----

    // In any interleaving of any calls the table is a forest all the time exactly
    // when each write met its condition as the table then was.
    method Run(steps: seq<Step>)
      requires Valid()
      modifies this
      ensures Valid() && old(writes) <= writes
      ensures AlwaysForest(writes) <==> AllKeep(writes)
    {
      hide IsForest, Keeps, AlwaysForest, AllKeep, AllPossible, After, Look;
      for n := 0 to |steps|
        invariant Valid() && old(writes) <= writes
      {
        match steps[n]
        case StartsSave(self, parent) => StartSave(self, parent);
        case Looks(i) => LookOnce(i);
        case Saves(i) => Save(i);
        case StartsDelete(id) => StartDelete(id);
        case CountsProducts(i) => CountProducts(i);
        case Deletes(i) => var _ := Delete(i);
        case PutsProduct(product, category) => PutProduct(product, category);
      }
      ForestThroughout(writes);
    }

    // ----- a call that nothing interrupts -----

    // validateParent, in one go: it accepts exactly what is acceptable.
    method Validate(i: nat)
      requires Valid() && i < |calls| && calls[i].Walking? && calls[i].walk.depth == 0
      requires calls[i].walk.cursor == calls[i].walk.parent && calls[i].walk.parent != calls[i].walk.self
      modifies this`calls
      ensures Valid()
      ensures var w := old(calls)[i].walk;
              calls
                == old(calls)[i := if Acceptable(cats, Some(w.parent), w.self) then Cleared(w.self, Some(w.parent))
                              else Over]
    {
      ghost var w := calls[i].walk;
      ghost var was := calls;
      while calls[i].Walking?
        invariant |calls| == |was| && calls == was[i := calls[i]]
        invariant calls[i].Walking? ==>
          calls[i].walk == w.(cursor := calls[i].walk.cursor, depth := calls[i].walk.depth)
        invariant calls[i].Walking? ==> Passed(cats, calls[i].walk)
        invariant !calls[i].Walking? ==>
          calls[i] == if Acceptable(cats, Some(w.parent), w.self) then Cleared(w.self, Some(w.parent)) else Over
        decreases if calls[i].Walking? then MAX_DEPTH + 1 - calls[i].walk.depth else 0
      {
        LookDecides(cats, calls[i].walk);
        LookOnce(i);
      }
    }

    method CreateCategory(parent: Option<Id>) returns (created: Option<Id>)
      requires Valid()
      modifies this`cats, this`next, this`calls, this`writes
      ensures Valid() && |calls| == |old(calls)| + 1
      ensures created.Some? <==> Acceptable(old(cats), parent, 0)
      ensures created.Some? ==>
        created.value == old(next) && cats == old(cats)[created.value := parent] && next == old(next) + 1
      ensures created.None? ==> cats == old(cats) && next == old(next)
      ensures IsForest(old(cats)) ==> IsForest(cats)
    {
      hide After, AllPossible;
      var i := |calls|;
      StartSave(0, parent);
      if calls[i].Walking? {
        Validate(i);
      }
      hide IsForest, InSubtree;
      if Acceptable(cats, parent, 0) { AcceptableMoveKeeps(cats, parent, 0); }
      created := if calls[i].Cleared? then Some(next) else None;
      Save(i);
    }

    // UpdateCategory, as far as it moves a category with all that is below it.
    method UpdateCategory(id: Id, parent: Option<Id>) returns (ok: bool)
      requires Valid() && id != 0
      modifies this`cats, this`next, this`calls, this`writes
      ensures Valid() && |calls| == |old(calls)| + 1 && next == old(next)
      ensures ok <==> id in old(cats) && Acceptable(old(cats), parent, id)
      ensures cats == if ok then old(cats)[id := parent] else old(cats)
      ensures IsForest(old(cats)) ==> IsForest(cats)
    {
      hide After, AllPossible;
      var i := |calls|;
      StartSave(id, parent);
      if calls[i].Walking? {
        Validate(i);
      } else if parent == Some(id) {
        assert Up(cats, id, 0) == Some(id);
      }
      hide IsForest, InSubtree;
      if Acceptable(cats, parent, id) { AcceptableMoveKeeps(cats, parent, id); }
      ok := calls[i].Cleared?;
      Save(i);
    }

    // DeleteCategory: refused while anything still hangs on the category.
    method DeleteCategory(id: Id) returns (ok: bool)
      requires Valid()
      modifies this`cats, this`calls, this`writes
      ensures Valid() && |calls| == |old(calls)| + 1
      ensures ok <==>
        id in old(cats) && (forall x :: x in old(cats) ==> old(cats)[x] != Some(id)) && id !in products.Values
      ensures cats == if ok then old(cats) - {id} else old(cats)
      ensures IsForest(old(cats)) ==> IsForest(cats)
    {
      hide IsForest, After, AllPossible;
      var i := |calls|;
      StartDelete(id);
      CountProducts(i);
      ok := Delete(i);
    }
  }

  // What a walk has seen of the table it walks on.
  ghost predicate Passed(cats: Parents, w: Walk) {
    && w.depth <= MAX_DEPTH
    && Up(cats, w.parent, w.depth) == Some(w.cursor)
    && (w.self != 0 ==> forall k: nat :: k < w.depth ==> Up(cats, w.parent, k) != Some(w.self))
  }

  lemma LookDecides(cats: Parents, w: Walk)
    requires Passed(cats, w) && 0 !in cats
    ensures var r := Look(cats, w);
            && (r.Walking? ==> Passed(cats, r.walk) && r.walk == w.(cursor := r.walk.cursor, depth := w.depth + 1))
            && (!r.Walking? ==>
                r == if Acceptable(cats, Some(w.parent), w.self) then Cleared(w.self, Some(w.parent)) else Over)
  {
    var r := Look(cats, w);
    assert Up(cats, w.cursor, 0) == Some(w.cursor);
    UpTwice(cats, w.parent, w.depth, w.cursor, 1);
    if r.Cleared? {
      assert RootAt(cats, w.cursor, 0);
      RootAbove(cats, w.parent, w.depth, w.cursor, 0);
      if w.self == 0 {
        NothingBelowZero(cats, w.parent, w.depth);
      } else {
        forall k: nat | Up(cats, w.parent, k) == Some(w.self) ensures false { ChainAbove(cats, w.parent, w.depth, k); }
      }
    } else if r == Over && Acceptable(cats, Some(w.parent), w.self) {
      var n: nat :| n < MAX_DEPTH && RootAt(cats, w.parent, n);
      ChainAbove(cats, w.parent, n, w.depth);
      assert false;
    }
  }

  // ----- where the check is not enough -----

  // Two categories, each moved below the other by calls that both checked first.
  method MovesIntoEachOther() returns (t: CategoryTable)
    ensures fresh(t) && t.Valid() && t.cats == map[1 := Some(2), 2 := Some(1)]
    ensures !Grounded(t.cats, 1) && !Grounded(t.cats, 2)
  {
    hide IsForest, InSubtree, Keeps, After, AllPossible, Grounded;
    t := new CategoryTable();
    var a := t.CreateCategory(None);
    var b := t.CreateCategory(None);
    t.StartSave(1, Some(2));
    t.StartSave(2, Some(1));
    assert t.cats == map[1 := None, 2 := None];
    t.LookOnce(2);
    t.LookOnce(3);
    t.Save(2);
    assert t.cats == map[1 := Some(2), 2 := None];
    t.Save(3);
    InEachOther();
  }

  lemma InEachOther()
    ensures !Grounded(map[1 := Some(2), 2 := Some(1)], 1) && !Grounded(map[1 := Some(2), 2 := Some(1)], 2)
  {
    var cats: Parents := map[1 := Some(2), 2 := Some(1)];
    assert Up(cats, 1, 0) == Some(1) && Up(cats, 2, 0) == Some(2);
    assert Up(cats, 1, 1) == Some(2) && Up(cats, 2, 1) == Some(1);
    CycleHasNoRoot(cats, 1, 2);
    CycleHasNoRoot(cats, 2, 2);
  }

  // A category created below one whose deletion had already counted its children.
  method LosesItsParent() returns (t: CategoryTable)
    ensures fresh(t) && t.Valid() && t.cats == map[2 := Some(1)] && !Grounded(t.cats, 2)
  {
    hide IsForest, InSubtree, Keeps, After, AllPossible, Grounded;
    t := new CategoryTable();
    var a := t.CreateCategory(None);
    t.StartDelete(1);
    t.CountProducts(1);
    t.StartSave(0, Some(1));
    t.LookOnce(2);
    t.Save(2);
    var ok := t.Delete(1);
    Dangles(t.cats, 2);
  }

  // ----- the discount lookup -----

  datatype TierDiscount = TierDiscount(tier: Id, category: Id, permille: int)

  // The tier's discounts by category; of several for one category the last counts.
  function ByCategory(discounts: seq<TierDiscount>, tier: Id): map<Id, int> {
    if |discounts| == 0 then map[]
    else
      var rest, x := ByCategory(discounts[..|discounts| - 1], tier), discounts[|discounts| - 1];
      if x.tier == tier then rest[x.category := x.permille] else rest
  }

  // The table holds just what the tier's rows say.
  lemma {:induction false} TableOfTier(discounts: seq<TierDiscount>, tier: Id, category: Id)
    ensures var table := ByCategory(discounts, tier);
            && (category in table <==>
                exists i :: 0 <= i < |discounts| && discounts[i].tier == tier && discounts[i].category == category)
            && (category in table ==>
                exists i :: 0 <= i < |discounts| && discounts[i] == TierDiscount(tier, category, table[category])
                  && forall k :: i < k < |discounts| ==> discounts[k].tier != tier || discounts[k].category != category)
  {
    if |discounts| > 0 {
      var n := |discounts| - 1;
      var rest, x := discounts[..n], discounts[n];
      TableOfTier(rest, tier, category);
      if x.tier == tier && x.category == category {
        assert discounts[n] == TierDiscount(tier, category, ByCategory(discounts, tier)[category]);
      } else if category in ByCategory(rest, tier) {
        var i :| 0 <= i < n && rest[i] == TierDiscount(tier, category, ByCategory(rest, tier)[category])
          && forall k :: i < k < n ==> rest[k].tier != tier || rest[k].category != category;
        assert discounts[i] == rest[i];
      }
    }
  }

  predicate Configured(cats: Parents, table: map<Id, int>, x: Id, k: nat) {
    Up(cats, x, k).Some? && Up(cats, x, k).value in table
  }

  // The nearest configured category from x upwards is k links away.
  ghost predicate NearestAt(cats: Parents, table: map<Id, int>, x: Id, k: nat) {
    Configured(cats, table, x, k) && forall j: nat :: j < k ==> !Configured(cats, table, x, j)
  }

  // DiscountFor, whatever the table: the nearest configured category decides, if it
  // is within MAX_DEPTH links; one further up is not found.
  method DiscountFor(cats: Parents, discounts: seq<TierDiscount>, tier: Id,
                     category: Id) returns (permille: Option<int>)
    ensures tier == 0 || category == 0 ==> permille.None?
    ensures tier != 0 && category != 0 ==>
      var table := ByCategory(discounts, tier);
      && (permille.Some? <==> exists k: nat :: k <= 10 && NearestAt(cats, table, category, k))
      && (forall k: nat :: k <= 10 && NearestAt(cats, table, category, k) ==>
          permille == Some(table[Up(cats, category, k).value]))
  {
    if tier == 0 || category == 0 {
      return None;
    }
    var table: map<Id, int> := map[];
    var i := 0;
    while i < |discounts|
      invariant 0 <= i <= |discounts| && table == ByCategory(discounts[..i], tier)
    {
      assert discounts[..i + 1][..i] == discounts[..i];
      if discounts[i].tier == tier {
        table := table[discounts[i].category := discounts[i].permille];
      }
      i := i + 1;
    }
    assert discounts[..i] == discounts;
    if |table| == 0 {
      assert forall x :: x !in table;
      return None;
    }
    var cursor, depth := category, 0;
    while true
      invariant 0 <= depth <= MAX_DEPTH && Up(cats, category, depth) == Some(cursor)
      invariant forall j: nat :: j < depth ==> !Configured(cats, table, category, j)
      decreases MAX_DEPTH - depth
    {
      if cursor in table {
        assert NearestAt(cats, table, category, depth);
        return Some(table[cursor]);
      }
      StepUp(cats, category, depth, cursor);
      if cursor !in cats || cats[cursor].None? {
        return None;
      }
      cursor := cats[cursor].value;
      depth := depth + 1;
      if depth > MAX_DEPTH {
        return None;
      }
    }
  }

  lemma StepUp(cats: Parents, x: Id, k: nat, y: Id)
    requires Up(cats, x, k) == Some(y)
    ensures y in cats && cats[y].Some? ==> Up(cats, x, k + 1) == cats[y]
    ensures y !in cats || cats[y].None? ==> forall l: nat :: l > k ==> Up(cats, x, l).None?
  {
    UpTwice(cats, x, k, y, 1);
    if y in cats && cats[y].Some? {
      assert Up(cats, cats[y].value, 0) == cats[y];
    } else {
      forall l: nat | l > k ensures Up(cats, x, l).None? { UpTwice(cats, x, k, y, l - k); }
    }
  }

  // A category no more than MAX_DEPTH + 1 levels deep never loses a discount to
  // the limit.
  lemma ShallowIsExact(cats: Parents, table: map<Id, int>, x: Id, n: nat, k: nat)
    requires RootAt(cats, x, n) && n <= 10 && NearestAt(cats, table, x, k)
    ensures k <= 10
  {
    ChainAbove(cats, x, n, k);
  }

  // Categories 1 to n, each but the last below the next.
  ghost predicate Ladder(cats: Parents, n: nat) {
    forall x: Id :: Rung(cats, n, x)
  }

  predicate Rung(cats: Parents, n: nat, x: Id) {
    && (x in cats <==> 1 <= x <= n)
    && (x in cats ==> cats[x] == if x < n then Some(x + 1) else None)
  }

  lemma {:induction false} LadderDepth(cats: Parents, n: nat, x: Id)
    requires Ladder(cats, n) && 1 <= x <= n
    ensures RootAt(cats, x, n - x)
    decreases n - x
  {
    assert Rung(cats, n, x);
    if x < n { LadderDepth(cats, n, x + 1); }
  }

  lemma {:induction false} LadderUp(cats: Parents, n: nat, x: Id, k: nat)
    requires Ladder(cats, n) && 1 <= x <= n
    ensures Up(cats, x, k) == if x + k <= n then Some(x + k) else None
    decreases k
  {
    assert Rung(cats, n, x);
    if k > 0 && x < n { LadderUp(cats, n, x + 1, k - 1); }
  }

  // The discount of the topmost category is n - 1 links away from the lowest, so
  // from a ladder of more than MAX_DEPTH + 1 steps it is not found.
  lemma LadderNearest(cats: Parents, n: nat, permille: int, x: Id, k: nat)
    requires Ladder(cats, n) && 1 <= x <= n
    ensures NearestAt(cats, map[n := permille], x, k) <==> k == n - x
  {
    forall j: nat ensures Configured(cats, map[n := permille], x, j) <==> j == n - x { LadderUp(cats, n, x, j); }
  }

  lemma LadderGrows(before: Parents, k: nat, after: Parents)
    requires k > 0 && Ladder(before, k) && after == before[k + 1 := None][k := Some(k + 1)]
    ensures Ladder(after, k + 1)
  {
    var n := k + 1;
    forall x: Id ensures Rung(after, n, x) { assert Rung(before, k, x); }
  }

  // The depth check looks only at the new parent, not at what hangs below the
  // category being moved: building from the bottom up, category by category, makes
  // a chain of any length, however small the limit.
  method DeepChain(n: nat) returns (t: CategoryTable)
    requires n > 0
    ensures fresh(t) && t.Valid() && IsForest(t.cats) && Ladder(t.cats, n)
    ensures RootAt(t.cats, 1, n - 1)
  {
    hide Ladder;
    t := new CategoryTable();
    var top := t.CreateCategory(None);
    var k := 1;
    assert Ladder(t.cats, 1) by { OneRung(t.cats); }
    while k < n
      invariant 1 <= k <= n && fresh(t)
      invariant t.Valid() && t.next == k + 1 && Ladder(t.cats, k) && IsForest(t.cats)
    {
      ghost var before := t.cats;
      top := t.CreateCategory(None);
      LadderHas(before, k);
      NewTop(t.cats, k + 1, k);
      var moved := t.UpdateCategory(k, top);
      LadderGrows(before, k, t.cats);
      k := k + 1;
    }
    LadderDepth(t.cats, n, 1);
  }

  lemma NewTop(cats: Parents, top: Id, x: Id)
    requires top in cats && cats[top].None? && x != top
    ensures Acceptable(cats, Some(top), x)
  {
    assert RootAt(cats, top, 0);
    forall k: nat | Up(cats, top, k) == Some(x) ensures false { ChainAbove(cats, top, 0, k); }
  }

  lemma OneRung(cats: Parents)
    requires cats == map[1 := None]
    ensures Ladder(cats, 1)
  {
  }

  lemma LadderHas(cats: Parents, n: nat)
    requires n > 0 && Ladder(cats, n)
    ensures 1 in cats && n in cats && n + 1 !in cats
  {
    assert Rung(cats, n, 1) && Rung(cats, n, n) && Rung(cats, n, n + 1);
  }
}
