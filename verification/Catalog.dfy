// catalog.go (Tree): the storefront's tree of categories and active products,
// assembled in memory from two flat listings. The categories need not form a
// forest: the tree shows those whose chain of parents reaches a root.
module Catalog {
  import opened Options
  import opened Categories

  datatype Product = Product(id: Id, category: Id, active: bool)

  // A category as the storefront receives it.
  datatype Tree = Tree(id: Id, products: seq<Product>, children: seq<Tree>)

  // ----- the tree that the rows describe -----

  function ActiveIn(products: seq<Product>, c: Id): seq<Product> {
    if |products| == 0 then []
    else
      var rest, p := ActiveIn(products[..|products| - 1], c), products[|products| - 1];
      if p.active && p.category == c then rest + [p] else rest
  }

  // The rows under a parent, in listing order; None stands for the roots.
  function Under(rows: seq<Id>, cats: Parents, parent: Option<Id>): seq<Id> {
    if |rows| == 0 then []
    else
      var rest, r := Under(rows[..|rows| - 1], cats, parent), rows[|rows| - 1];
      if r in cats && cats[r] == parent then rest + [r] else rest
  }

  lemma {:induction false} UnderAreChildren(rows: seq<Id>, cats: Parents, parent: Option<Id>)
    ensures forall r :: r in Under(rows, cats, parent) ==> r in rows && r in cats && cats[r] == parent
  {
    if |rows| > 0 { UnderAreChildren(rows[..|rows| - 1], cats, parent); }
  }

  lemma {:induction false} UnderIsComplete(rows: seq<Id>, cats: Parents, parent: Option<Id>, r: Id)
    requires r in rows && r in cats && cats[r] == parent
    ensures r in Under(rows, cats, parent)
  {
    var last := |rows| - 1;
    if r in rows[..last] { UnderIsComplete(rows[..last], cats, parent, r); }
  }

  // Children and products are shown in the order in which they are listed.
  lemma {:induction false} UnderKeepsOrder(rows: seq<Id>, cats: Parents, parent: Option<Id>, i: nat,
                                           j: nat) returns (a: nat, b: nat)
    requires i < j < |Under(rows, cats, parent)|
    ensures a < b < |rows| && rows[a] == Under(rows, cats, parent)[i] && rows[b] == Under(rows, cats, parent)[j]
  {
    var n := |rows| - 1;
    var rest := Under(rows[..n], cats, parent);
    if j < |rest| {
      a, b := UnderKeepsOrder(rows[..n], cats, parent, i, j);
    } else {
      UnderAreChildren(rows[..n], cats, parent);
      assert rest[i] in rest;
      a :| 0 <= a < n && rows[..n][a] == rest[i];
      b := n;
    }
  }

  lemma {:induction false} ActiveKeepsOrder(products: seq<Product>, c: Id, i: nat, j: nat) returns (a: nat, b: nat)
    requires i < j < |ActiveIn(products, c)|
    ensures a < b < |products| && products[a] == ActiveIn(products, c)[i] && products[b] == ActiveIn(products, c)[j]
  {
    var n := |products| - 1;
    var rest := ActiveIn(products[..n], c);
    if j < |rest| {
      a, b := ActiveKeepsOrder(products[..n], c, i, j);
    } else {
      ActiveAreListed(products[..n], c);
      assert rest[i] in rest;
      a :| 0 <= a < n && products[..n][a] == rest[i];
      b := n;
    }
  }

  lemma {:induction false} ActiveAreListed(products: seq<Product>, c: Id)
    ensures forall p :: p in ActiveIn(products, c) ==> p in products
  {
    if |products| > 0 { ActiveAreListed(products[..|products| - 1], c); }
  }

  predicate Distinct(ids: seq<Id>) {
    forall i, j :: 0 <= i < j < |ids| ==> ids[i] != ids[j]
  }

  lemma {:induction false} UnderDistinct(rows: seq<Id>, cats: Parents, parent: Option<Id>)
    requires Distinct(rows)
    ensures Distinct(Under(rows, cats, parent))
  {
    if |rows| > 0 {
      UnderDistinct(rows[..|rows| - 1], cats, parent);
      UnderAreChildren(rows[..|rows| - 1], cats, parent);
    }
  }

  // The listing holds every category once.
  ghost predicate Lists(rows: seq<Id>, cats: Parents) {
    Distinct(rows) && forall x :: x in rows <==> x in cats
  }

  function Ids(trees: seq<Tree>): seq<Id> {
    seq(|trees|, i requires 0 <= i < |trees| => trees[i].id)
  }

  // A tree as it should be: each category with its active products and its
  // children, all in listing order.
  predicate Describes(t: Tree, rows: seq<Id>, cats: Parents, products: seq<Product>) {
    && t.products == ActiveIn(products, t.id)
    && Ids(t.children) == Under(rows, cats, Some(t.id))
    && forall i :: 0 <= i < |t.children| ==> Describes(t.children[i], rows, cats, products)
  }

  // The trees of all children of one parent; None stands for the whole storefront.
  predicate DescribeAll(trees: seq<Tree>, rows: seq<Id>, cats: Parents, products: seq<Product>, parent: Option<Id>) {
    && Ids(trees) == Under(rows, cats, parent)
    && forall i :: 0 <= i < |trees| ==> Describes(trees[i], rows, cats, products)
  }

  // Nothing is left open.
  lemma {:induction false} OneTree(t: Tree, u: Tree, rows: seq<Id>, cats: Parents, products: seq<Product>)
    requires Describes(t, rows, cats, products) && Describes(u, rows, cats, products) && t.id == u.id
    ensures t == u
  {
    SameLength(t.children, u.children);
    forall i | 0 <= i < |t.children| ensures t.children[i] == u.children[i] {
      assert Ids(t.children)[i] == Ids(u.children)[i];
      OneTree(t.children[i], u.children[i], rows, cats, products);
    }
    assert t.children == u.children;
  }

  lemma SameLength(trees: seq<Tree>, others: seq<Tree>)
    requires Ids(trees) == Ids(others)
    ensures |trees| == |others|
  {
    assert |Ids(trees)| == |Ids(others)|;
  }

  lemma OneStorefront(trees: seq<Tree>, others: seq<Tree>, rows: seq<Id>, cats: Parents, products: seq<Product>,
                      parent: Option<Id>)
    requires DescribeAll(trees, rows, cats, products, parent) && DescribeAll(others, rows, cats, products, parent)
    ensures trees == others
  {
    SameLength(trees, others);
    forall i | 0 <= i < |trees| ensures trees[i] == others[i] {
      assert Ids(trees)[i] == Ids(others)[i];
      OneTree(trees[i], others[i], rows, cats, products);
    }
  }

  // ----- depths -----

  // Every category that reaches a root does so in fewer links than this.
  ghost predicate Bounded(cats: Parents, bound: nat) {
    forall x, k: nat :: RootAt(cats, x, k) ==> k < bound
  }

  lemma DepthsAreBounded(cats: Parents) returns (bound: nat)
    ensures Bounded(cats, bound)
  {
    bound := BoundOf(cats, cats.Keys);
  }

  lemma BoundOf(cats: Parents, some: set<Id>) returns (bound: nat)
    ensures forall x, k: nat :: x in some && RootAt(cats, x, k) ==> k < bound
  {
    if some == {} {
      bound := 0;
    } else {
      var x :| x in some;
      bound := BoundOf(cats, some - {x});
      if n: nat :| RootAt(cats, x, n) {
        forall k: nat | RootAt(cats, x, k) ensures k == n { OneDepth(cats, x, k, n); }
        bound := if bound > n then bound else n + 1;
      }
    }
  }

  lemma KidDepth(cats: Parents, c: Id, kid: Id, d: nat)
    requires RootAt(cats, c, d) && kid in cats && cats[kid] == Some(c)
    ensures RootAt(cats, kid, d + 1)
  {
  }

  // Two categories at one depth are apart: nothing lies below both.
  lemma LevelApart(cats: Parents, x: Id, a: Id, b: Id, d: nat)
    requires RootAt(cats, a, d) && RootAt(cats, b, d) && InSubtree(cats, x, a) && InSubtree(cats, x, b)
    ensures a == b
  {
    var k: nat :| Up(cats, x, k) == Some(a);
    var l: nat :| Up(cats, x, l) == Some(b);
    RootAbove(cats, x, k, a, d);
    RootAbove(cats, x, l, b, d);
    OneDepth(cats, x, k + d, l + d);
  }

  // What is below a child is below its parent, but is not the parent.
  lemma BelowChild(cats: Parents, x: Id, c: Id, kid: Id, d: nat)
    requires RootAt(cats, c, d) && kid in cats && cats[kid] == Some(c) && InSubtree(cats, x, kid)
    ensures InSubtree(cats, x, c) && x != c
  {
    var k: nat :| Up(cats, x, k) == Some(kid);
    StepUp(cats, x, k, kid);
    assert Up(cats, x, k + 1) == Some(c);
    KidDepth(cats, c, kid, d);
    RootAbove(cats, x, k, kid, d + 1);
    if x == c { OneDepth(cats, c, d, k + d + 1); }
  }

  // Below c but not c itself means below one of its children.
  lemma ChildToward(cats: Parents, x: Id, c: Id) returns (r: Id)
    requires x in cats && c in cats && x != c && InSubtree(cats, x, c)
    ensures r in cats && cats[r] == Some(c) && InSubtree(cats, x, r)
  {
    var k: nat :| Up(cats, x, k) == Some(c);
    r := BelowLast(cats, x, k, c);
    assert Up(cats, x, k - 1) == Some(r);
  }

  lemma {:induction false} BelowLast(cats: Parents, x: Id, k: nat, c: Id) returns (r: Id)
    requires k > 0 && Up(cats, x, k) == Some(c)
    ensures Up(cats, x, k - 1) == Some(r) && r in cats && cats[r] == Some(c)
    decreases k
  {
    if k == 1 { r := x; assert Up(cats, cats[x].value, 0) == Some(c); } else {
      r := BelowLast(cats, cats[x].value, k - 1, c);
    }
  }

  // ----- assembly by pointers -----

  // The row a pointer refers to: its children are filled in place.
  class CategoryNode {
    const id: Id
    const products: seq<Product>
    var children: seq<Tree>

    constructor (id: Id, products: seq<Product>)
      ensures this.id == id && this.products == products && children == []
    {
      this.id, this.products, this.children := id, products, [];
    }

    // The copy that is stored in the parent.
    function Copy(): Tree
      reads this
    {
      Tree(id, products, children)
    }
  }

  // Each category's node.
  ghost predicate NodesFor(nodes: map<Id, CategoryNode>, cats: Parents, products: seq<Product>) {
    forall x :: x in cats ==> x in nodes && nodes[x].id == x && nodes[x].products == ActiveIn(products, x)
  }

  ghost function Below(nodes: map<Id, CategoryNode>, cats: Parents, c: Id): set<CategoryNode> {
    set x | x in cats && x in nodes && InSubtree(cats, x, c) :: nodes[x]
  }

  // The pointers kept for a parent lead to its children, in listing order.
  ghost predicate IndexOk(index: map<Id, seq<CategoryNode>>, nodes: map<Id, CategoryNode>, rows: seq<Id>, cats: Parents,
                          c: Id) {
    var ids := Under(rows, cats, Some(c));
    && |Lookup(index, c)| == |ids|
    && forall i :: 0 <= i < |ids| ==> ids[i] in nodes && Lookup(index, c)[i] == nodes[ids[i]]
  }

  lemma BelowAreNodes(nodes: map<Id, CategoryNode>, cats: Parents, c: Id)
    ensures Below(nodes, cats, c) <= nodes.Values
  {
  }

  // Nothing in the subtree has been given children yet.
  ghost predicate Blank(nodes: map<Id, CategoryNode>, cats: Parents, c: Id)
    reads Below(nodes, cats, c)
  {
    forall n :: n in Below(nodes, cats, c) ==> n.children == []
  }

  // A child's subtree is part of its parent's, without the parent itself.
  lemma KidBelow(nodes: map<Id, CategoryNode>, cats: Parents, products: seq<Product>, c: Id, kid: Id, d: nat)
    requires NodesFor(nodes, cats, products) && RootAt(cats, c, d) && kid in cats && cats[kid] == Some(c)
    ensures Below(nodes, cats, kid) <= Below(nodes, cats, c)
    ensures nodes[c] !in Below(nodes, cats, kid)
    ensures Blank(nodes, cats, c) ==> Blank(nodes, cats, kid)
  {
    forall x | x in cats && InSubtree(cats, x, kid) ensures InSubtree(cats, x, c) && x != c {
      BelowChild(cats, x, c, kid, d);
    }
  }

  lemma NodeBelow(nodes: map<Id, CategoryNode>, cats: Parents, products: seq<Product>, c: Id)
    requires NodesFor(nodes, cats, products) && c in cats
    ensures nodes[c] in Below(nodes, cats, c)
    ensures Blank(nodes, cats, c) ==> nodes[c].children == []
  {
    assert Up(cats, c, 0) == Some(c);
  }

  lemma LevelBelow(nodes: map<Id, CategoryNode>, cats: Parents, products: seq<Product>, a: Id, b: Id, d: nat)
    requires NodesFor(nodes, cats, products) && RootAt(cats, a, d) && RootAt(cats, b, d) && a != b
    ensures Below(nodes, cats, a) !! Below(nodes, cats, b)
  {
    forall x | x in cats && InSubtree(cats, x, a) ensures !InSubtree(cats, x, b) {
      if InSubtree(cats, x, b) { LevelApart(cats, x, a, b, d); }
    }
  }

  // What must be so before the nodes ids[i..], which lie at one depth, are attached.
  ghost predicate Ready(nodes: map<Id, CategoryNode>, cats: Parents, ids: seq<Id>, i: nat, d: nat)
    reads set k, n | 0 <= k < |ids| && n in Below(nodes, cats, ids[k]) :: n
  {
    && Distinct(ids) && i <= |ids|
    && (forall k :: 0 <= k < |ids| ==> RootAt(cats, ids[k], d))
    && (forall k :: i <= k < |ids| ==> Blank(nodes, cats, ids[k]))
  }

  lemma KidsReady(nodes: map<Id, CategoryNode>, rows: seq<Id>, products: seq<Product>, cats: Parents, c: Id, d: nat)
    requires NodesFor(nodes, cats, products) && Lists(rows, cats) && RootAt(cats, c, d) && Blank(nodes, cats, c)
    ensures Ready(nodes, cats, Under(rows, cats, Some(c)), 0, d + 1)
    ensures forall k :: k in Under(rows, cats, Some(c)) ==>
              k in nodes && Below(nodes, cats, k) <= Below(nodes, cats, c) && nodes[c] !in Below(nodes, cats, k)
  {
    var ids := Under(rows, cats, Some(c));
    UnderAreChildren(rows, cats, Some(c));
    UnderDistinct(rows, cats, Some(c));
    hide Under, Below, Blank;
    forall k | k in ids
      ensures k in nodes && RootAt(cats, k, d + 1) && Blank(nodes, cats, k)
      ensures Below(nodes, cats, k) <= Below(nodes, cats, c) && nodes[c] !in Below(nodes, cats, k)
    {
      KidDepth(cats, c, k, d);
      KidBelow(nodes, cats, products, c, k, d);
    }
  }

  // attach: the children are completed before they are copied into the node.
  method Attach(index: map<Id, seq<CategoryNode>>, node: CategoryNode,
                ghost nodes: map<Id, CategoryNode>, ghost rows: seq<Id>, ghost products: seq<Product>,
                ghost cats: Parents, ghost d: nat, ghost bound: nat)
    requires Bounded(cats, bound) && NodesFor(nodes, cats, products) && Lists(rows, cats)
    requires RootAt(cats, node.id, d) && nodes[node.id] == node
    requires forall c :: c in cats ==> IndexOk(index, nodes, rows, cats, c)
    requires Blank(nodes, cats, node.id)
    modifies Below(nodes, cats, node.id)
    ensures Describes(node.Copy(), rows, cats, products)
    decreases bound - d, 1
  {
    hide Below, Blank, Under, InSubtree, Describes, DescribeAll, Ready, Bounded, ActiveIn, Lists;
    var c := node.id;
    assert IndexOk(index, nodes, rows, cats, c);
    ghost var ids := Under(rows, cats, Some(c));
    var kids := Lookup(index, c);
    NodeBelow(nodes, cats, products, c);
    KidsReady(nodes, rows, products, cats, c, d);
    var i := 0;
    assert node.children == [];
    DescribesNone(rows, cats, products, ids);
    while i < |kids|
      invariant 0 <= i <= |kids| == |ids|
      invariant DescribesSome(node.children, rows, cats, products, ids, i)
      invariant Ready(nodes, cats, ids, i, d + 1)
    {
      assert ids[i] in ids;
      AttachKid(index, node, kids[i], ids, i, nodes, rows, products, cats, d, bound);
      i := i + 1;
    }
    DescribesNode(node.Copy(), rows, cats, products);
  }

  // The first i of the trees that are due.
  ghost predicate DescribesSome(trees: seq<Tree>, rows: seq<Id>, cats: Parents, products: seq<Product>, ids: seq<Id>,
                                i: nat) {
    && i == |trees| <= |ids|
    && (forall k :: 0 <= k < |trees| ==> trees[k].id == ids[k] && Describes(trees[k], rows, cats, products))
  }

  lemma DescribesNone(rows: seq<Id>, cats: Parents, products: seq<Product>, ids: seq<Id>)
    ensures DescribesSome([], rows, cats, products, ids, 0)
  {
  }

  lemma DescribesNode(t: Tree, rows: seq<Id>, cats: Parents, products: seq<Product>)
    requires t.products == ActiveIn(products, t.id)
    requires DescribesSome(t.children, rows, cats, products, Under(rows, cats, Some(t.id)),
                           |Under(rows, cats, Some(t.id))|)
    ensures Describes(t, rows, cats, products)
  {
    assert Ids(t.children) == Under(rows, cats, Some(t.id));
  }

  // One turn of attach's loop.
  method AttachKid(index: map<Id, seq<CategoryNode>>, node: CategoryNode, kid: CategoryNode, ghost ids: seq<Id>,
                   ghost i: nat,
                   ghost nodes: map<Id, CategoryNode>, ghost rows: seq<Id>, ghost products: seq<Product>,
                   ghost cats: Parents, ghost d: nat, ghost bound: nat)
    requires Bounded(cats, bound) && NodesFor(nodes, cats, products) && Lists(rows, cats)
    requires RootAt(cats, node.id, d)
    requires forall c :: c in cats ==> IndexOk(index, nodes, rows, cats, c)
    requires Ready(nodes, cats, ids, i, d + 1) && i < |ids| && ids[i] in nodes && kid == nodes[ids[i]]
    requires forall k :: k in ids ==> node !in Below(nodes, cats, k)
    requires DescribesSome(node.children, rows, cats, products, ids, i)
    modifies node, Below(nodes, cats, ids[i])
    ensures Ready(nodes, cats, ids, i + 1, d + 1)
    ensures DescribesSome(node.children, rows, cats, products, ids, i + 1)
    decreases bound - d, 0
  {
    hide Below, Under, InSubtree, IndexOk, Describes, Lists;
    assert RootAt(cats, ids[i], d + 1) && Blank(nodes, cats, ids[i]);
    assert kid.id == ids[i];
    assert ids[i] in ids;
    assert d < bound;
    // Nothing below the later children is written.
    forall j, n | i < j < |ids| && n in Below(nodes, cats, ids[j])
      ensures n in nodes.Values && n.children == [] && n !in Below(nodes, cats, ids[i]) && n != node
    {
      BelowAreNodes(nodes, cats, ids[j]);
      LevelBelow(nodes, cats, products, ids[i], ids[j], d + 1);
      assert Blank(nodes, cats, ids[j]) && ids[j] in ids;
    }
    Attach(index, kid, nodes, rows, products, cats, d + 1, bound);
    node.children := node.children + [kid.Copy()];
    forall j | i < j < |ids| ensures Blank(nodes, cats, ids[j]) {
      forall n | n in Below(nodes, cats, ids[j]) ensures n.children == [] { assert n != node; }
    }
  }

  // ----- the listing itself -----

  function Lookup<T>(m: map<Id, seq<T>>, c: Id): seq<T> {
    if c in m then m[c] else []
  }

  method GroupProducts(products: seq<Product>) returns (byCategory: map<Id, seq<Product>>)
    ensures forall c: Id :: Lookup(byCategory, c) == ActiveIn(products, c)
  {
    byCategory := map[];
    var i := 0;
    while i < |products|
      invariant 0 <= i <= |products|
      invariant forall c: Id :: Lookup(byCategory, c) == ActiveIn(products[..i], c)
    {
      assert products[..i + 1][..i] == products[..i];
      var p := products[i];
      if p.active {
        byCategory := byCategory[p.category := Lookup(byCategory, p.category) + [p]];
      }
      i := i + 1;
    }
    assert products[..i] == products;
  }

  ghost predicate Made(nodes: map<Id, CategoryNode>, rows: seq<Id>, products: seq<Product>)
    reads nodes.Values
  {
    forall x :: x in rows ==>
      x in nodes && nodes[x].id == x && nodes[x].products == ActiveIn(products, x) && nodes[x].children == []
  }

  lemma NothingIndexed(cats: Parents, c: Id)
    ensures IndexOk(map[], map[], [], cats, c)
  {
  }

  lemma IndexStep(index: map<Id, seq<CategoryNode>>, nodes: map<Id, CategoryNode>, rows: seq<Id>, cats: Parents, i: nat,
                  node: CategoryNode)
    requires Lists(rows, cats) && i < |rows|
    requires forall c :: c in cats ==> IndexOk(index, nodes, rows[..i], cats, c)
    ensures var id := rows[i];
            id in cats &&
            var after := if cats[id].Some? then index[cats[id].value := Lookup(index, cats[id].value) + [node]]
              else index;
            forall c :: c in cats ==> IndexOk(after, nodes[id := node], rows[..i + 1], cats, c)
  {
    var id := rows[i];
    var after := if cats[id].Some? then index[cats[id].value := Lookup(index, cats[id].value) + [node]] else index;
    hide Lookup, IndexOk;
    forall c | c in cats ensures IndexOk(after, nodes[id := node], rows[..i + 1], cats, c) {
      OldRowsIndexed(index, nodes, rows, cats, i, node, c);
      assert rows[..i + 1][..i] == rows[..i];
      hide Lists;
      if cats[id] == Some(c) {
        NewRowIndexed(index, nodes[id := node], rows, cats, i, node, c);
      } else {
        OthersIndexed(index, after, nodes[id := node], rows, cats, i, c);
      }
    }
  }

  // A further node leaves what is indexed as it is.
  lemma OldRowsIndexed(index: map<Id, seq<CategoryNode>>, nodes: map<Id, CategoryNode>, rows: seq<Id>, cats: Parents,
                       i: nat, node: CategoryNode, c: Id)
    requires Distinct(rows) && i < |rows| && IndexOk(index, nodes, rows[..i], cats, c)
    ensures IndexOk(index, nodes[rows[i] := node], rows[..i], cats, c)
  {
    hide Lookup, Under;
    UnderAreChildren(rows[..i], cats, Some(c));
    var ids := Under(rows[..i], cats, Some(c));
    forall k | 0 <= k < |ids| ensures ids[k] != rows[i] { assert ids[k] in ids && ids[k] in rows[..i]; }
  }

  lemma NewRowIndexed(index: map<Id, seq<CategoryNode>>, nodes: map<Id, CategoryNode>, rows: seq<Id>, cats: Parents,
                      i: nat, node: CategoryNode, c: Id)
    requires i < |rows| && rows[i] in cats && cats[rows[i]] == Some(c) && rows[i] in nodes && nodes[rows[i]] == node
    requires IndexOk(index, nodes, rows[..i], cats, c) && rows[..i + 1][..i] == rows[..i]
    ensures IndexOk(index[c := Lookup(index, c) + [node]], nodes, rows[..i + 1], cats, c)
  {
    assert Under(rows[..i + 1], cats, Some(c)) == Under(rows[..i], cats, Some(c)) + [rows[i]];
    hide Under;
  }

  lemma OthersIndexed(index: map<Id, seq<CategoryNode>>, after: map<Id, seq<CategoryNode>>, nodes: map<Id,
                      CategoryNode>,
                      rows: seq<Id>, cats: Parents, i: nat, c: Id)
    requires i < |rows| && rows[i] in cats && cats[rows[i]] != Some(c) && rows[..i + 1][..i] == rows[..i]
    requires IndexOk(index, nodes, rows[..i], cats, c)
    requires cats[rows[i]].Some? ==> cats[rows[i]].value in after
    requires after == if cats[rows[i]].Some? then index[cats[rows[i]].value := after[cats[rows[i]].value]] else index
    ensures IndexOk(after, nodes, rows[..i + 1], cats, c)
  {
    assert Under(rows[..i + 1], cats, Some(c)) == Under(rows[..i], cats, Some(c));
    hide Under;
    assert Lookup(after, c) == Lookup(index, c);
  }

  method MakeNodes(rows: seq<Id>, cats: Parents, products: seq<Product>)
    returns (nodes: map<Id, CategoryNode>, index: map<Id, seq<CategoryNode>>)
    requires Lists(rows, cats)
    ensures nodes.Keys == cats.Keys && fresh(nodes.Values)
    ensures Made(nodes, rows, products)
    ensures forall c :: c in cats ==> IndexOk(index, nodes, rows, cats, c)
  {
    hide IndexOk, Under, ActiveIn;
    var byCategory := GroupProducts(products);
    nodes, index := map[], map[];
    var i := 0;
    forall c | c in cats ensures IndexOk(index, nodes, rows[..0], cats, c) { NothingIndexed(cats, c); }
    assert rows[..0] == [];
    while i < |rows|
      invariant 0 <= i <= |rows|
      invariant forall x :: x in nodes <==> x in rows[..i]
      invariant forall x :: x in nodes ==> fresh(nodes[x])
      invariant Made(nodes, rows[..i], products)
      invariant forall c :: c in cats ==> IndexOk(index, nodes, rows[..i], cats, c)
    {
      var id := rows[i];
      assert rows[..i + 1] == rows[..i] + [id];
      var node := new CategoryNode(id, Lookup(byCategory, id));
      IndexStep(index, nodes, rows, cats, i, node);
      nodes := nodes[id := node];
      if cats[id].Some? {
        index := index[cats[id].value := Lookup(index, cats[id].value) + [node]];
      }
      i := i + 1;
    }
    assert rows[..i] == rows;
  }

  lemma RootsReady(nodes: map<Id, CategoryNode>, rows: seq<Id>, cats: Parents, products: seq<Product>)
    requires Lists(rows, cats) && nodes.Keys == cats.Keys && Made(nodes, rows, products)
    ensures NodesFor(nodes, cats, products)
    ensures Ready(nodes, cats, Under(rows, cats, None), 0, 0)
    ensures forall k :: k in Under(rows, cats, None) ==> k in nodes && Below(nodes, cats, k) <= nodes.Values
  {
    UnderAreChildren(rows, cats, None);
    UnderDistinct(rows, cats, None);
  }

  lemma NextRoot(rows: seq<Id>, cats: Parents, i: nat)
    requires Lists(rows, cats) && i < |rows|
    ensures rows[i] in cats
    ensures var done, ids := Under(rows[..i], cats, None), Under(rows, cats, None);
            cats[rows[i]].None? ==> |done| < |ids| && ids[|done|] == rows[i]
    ensures Under(rows[..i + 1], cats, None) == Under(rows[..i], cats, None)
      + (if cats[rows[i]].None? then [rows[i]] else [])
  {
    assert rows[..i + 1][..i] == rows[..i];
    UnderPrefix(rows, cats, None, i + 1);
  }

  lemma {:induction false} UnderPrefix(rows: seq<Id>, cats: Parents, parent: Option<Id>, i: nat)
    requires i <= |rows|
    ensures Under(rows[..i], cats, parent) <= Under(rows, cats, parent)
  {
    if i < |rows| {
      var last := |rows| - 1;
      assert rows[..last][..i] == rows[..i];
      UnderPrefix(rows[..last], cats, parent, i);
    } else {
      assert rows[..i] == rows;
    }
  }

  method AttachRoot(index: map<Id, seq<CategoryNode>>, nodes: map<Id, CategoryNode>, id: Id, ghost ids: seq<Id>,
                    ghost i: nat,
                    ghost rows: seq<Id>, ghost products: seq<Product>, ghost cats: Parents, ghost bound: nat)
    returns (copy: Tree)
    requires Lists(rows, cats) && Bounded(cats, bound) && NodesFor(nodes, cats, products)
    requires forall c :: c in cats ==> IndexOk(index, nodes, rows, cats, c)
    requires Ready(nodes, cats, ids, i, 0) && i < |ids| && ids[i] == id && id in nodes
    requires forall k :: k in ids ==> Below(nodes, cats, k) <= nodes.Values
    modifies nodes.Values
    ensures copy.id == id && Describes(copy, rows, cats, products)
    ensures Ready(nodes, cats, ids, i + 1, 0)
  {
    hide Below, Under, InSubtree, IndexOk, Describes, Lists, Bounded;
    assert RootAt(cats, id, 0) && Blank(nodes, cats, id);
    assert id in ids;
    Attach(index, nodes[id], nodes, rows, products, cats, 0, bound);
    copy := nodes[id].Copy();
    // Nothing below the later roots was written.
    forall j, n | i < j < |ids| && n in Below(nodes, cats, ids[j]) ensures n.children == [] {
      LevelBelow(nodes, cats, products, id, ids[j], 0);
      assert n !in Below(nodes, cats, id);
    }
  }

  // Tree, of any table of categories.
  method BuildTree(rows: seq<Id>, cats: Parents, products: seq<Product>) returns (roots: seq<Tree>)
    requires Lists(rows, cats)
    ensures DescribeAll(roots, rows, cats, products, None)
  {
    hide Under, Below, InSubtree, Blank, IndexOk, Made, NodesFor, Describes, Ready, Bounded, Lists;
    ghost var bound := DepthsAreBounded(cats);
    var nodes, index := MakeNodes(rows, cats, products);
    RootsReady(nodes, rows, cats, products);
    ghost var ids := Under(rows, cats, None);
    roots := [];
    var i := 0;
    assert Under(rows[..0], cats, None) == [] by { NothingUnder(rows, cats); }
    while i < |rows|
      invariant 0 <= i <= |rows|
      invariant DescribesSome(roots, rows, cats, products, ids, |Under(rows[..i], cats, None)|)
      invariant Ready(nodes, cats, ids, |Under(rows[..i], cats, None)|, 0)
    {
      NextRoot(rows, cats, i);
      if cats[rows[i]].None? {
        assert rows[i] in ids;
        var copy := AttachRoot(index, nodes, rows[i], ids, |Under(rows[..i], cats, None)|, rows, products, cats, bound);
        roots := roots + [copy];
      }
      i := i + 1;
    }
    assert rows[..i] == rows;
    assert Ids(roots) == ids;
  }

  lemma NothingUnder(rows: seq<Id>, cats: Parents)
    ensures Under(rows[..0], cats, None) == []
  {
  }

  // ----- what the tree holds -----

  function Occurrences(t: Tree, x: Id): nat {
    (if t.id == x then 1 else 0) + OccurrencesIn(t.children, x)
  }

  function OccurrencesIn(trees: seq<Tree>, x: Id): nat {
    if |trees| == 0 then 0
    else OccurrencesIn(trees[..|trees| - 1], x) + Occurrences(trees[|trees| - 1], x)
  }

  ghost predicate Holds(cats: Parents, x: Id, c: Id) {
    x in cats && InSubtree(cats, x, c)
  }

  lemma {:induction false} SubtreeOnce(t: Tree, rows: seq<Id>, cats: Parents, products: seq<Product>, d: nat, x: Id)
    requires Lists(rows, cats) && Describes(t, rows, cats, products) && RootAt(cats, t.id, d)
    ensures Occurrences(t, x) == if Holds(cats, x, t.id) then 1 else 0
  {
    var ids := Under(rows, cats, Some(t.id));
    assert |Ids(t.children)| == |t.children|;
    KidsHold(rows, cats, t.id, d, x);
    hide Lists, Holds, Under;
    forall i | 0 <= i < |t.children| ensures RootAt(cats, t.children[i].id, d + 1) {
      assert t.children[i].id == Ids(t.children)[i];
      assert ids[i] in ids;
    }
    SiblingsOnce(t.children, rows, cats, products, d + 1, x);
    hide Describes, Occurrences, OccurrencesIn;
    forall r | r in ids && Holds(cats, x, r)
      ensures exists i :: 0 <= i < |t.children| && Holds(cats, x, t.children[i].id)
    {
      var i :| 0 <= i < |ids| && ids[i] == r;
      assert t.children[i].id == Ids(t.children)[i];
    }
    forall i | 0 <= i < |t.children| && Holds(cats, x, t.children[i].id) ensures t.children[i].id in ids {
      assert t.children[i].id == Ids(t.children)[i];
    }
  }

  lemma KidsHold(rows: seq<Id>, cats: Parents, c: Id, d: nat, x: Id)
    requires Lists(rows, cats) && RootAt(cats, c, d)
    ensures var ids := Under(rows, cats, Some(c));
            && Distinct(ids)
            && (forall r :: r in ids ==> RootAt(cats, r, d + 1))
            && ((exists r :: r in ids && Holds(cats, x, r)) <==> Holds(cats, x, c) && x != c)
            && (x == c ==> Holds(cats, x, c))
  {
    var ids := Under(rows, cats, Some(c));
    UnderAreChildren(rows, cats, Some(c));
    UnderDistinct(rows, cats, Some(c));
    forall r | r in ids ensures RootAt(cats, r, d + 1) { KidDepth(cats, c, r, d); }
    assert Up(cats, c, 0) == Some(c);
    if x != c && Holds(cats, x, c) {
      var r := ChildToward(cats, x, c);
      UnderIsComplete(rows, cats, Some(c), r);
    }
    forall r | r in ids && Holds(cats, x, r) ensures Holds(cats, x, c) && x != c { BelowChild(cats, x, c, r, d); }
  }

  lemma {:induction false} SiblingsOnce(trees: seq<Tree>, rows: seq<Id>, cats: Parents, products: seq<Product>, d: nat,
                                        x: Id)
    requires Lists(rows, cats) && Distinct(Ids(trees))
    requires forall i :: 0 <= i < |trees| ==> Describes(trees[i], rows, cats, products) && RootAt(cats, trees[i].id, d)
    ensures OccurrencesIn(trees, x) == if exists i :: 0 <= i < |trees| && Holds(cats, x, trees[i].id) then 1 else 0
  {
    hide Describes, Occurrences, InSubtree, Lists, RootAt;
    if |trees| > 0 {
      var last := |trees| - 1;
      var rest := trees[..last];
      assert forall i :: 0 <= i < last ==> Ids(rest)[i] == Ids(trees)[i];
      SiblingsOnce(rest, rows, cats, products, d, x);
      SubtreeOnce(trees[last], rows, cats, products, d, x);
      if i :| 0 <= i < last && Holds(cats, x, rest[i].id) {
        assert Holds(cats, x, trees[i].id);
        assert trees[i].id != trees[last].id by { assert Ids(trees)[i] != Ids(trees)[last]; }
        if Holds(cats, x, trees[last].id) {
          LevelApart(cats, x, trees[i].id, trees[last].id, d);
          assert false;
        }
      } else {
        assert forall i :: 0 <= i < last ==> !Holds(cats, x, trees[i].id) by {
          forall i | 0 <= i < last ensures !Holds(cats, x, trees[i].id) { assert rest[i] == trees[i]; }
        }
      }
    }
  }

  // The tree shows each category whose parents lead to a root exactly once, and
  // nothing else; of a forest that is every category.
  lemma EveryCategoryOnce(roots: seq<Tree>, rows: seq<Id>, cats: Parents, products: seq<Product>, x: Id)
    requires Lists(rows, cats) && DescribeAll(roots, rows, cats, products, None)
    ensures OccurrencesIn(roots, x) == if Grounded(cats, x) then 1 else 0
    ensures IsForest(cats) ==> OccurrencesIn(roots, x) == if x in cats then 1 else 0
  {
    var ids := Under(rows, cats, None);
    UnderAreChildren(rows, cats, None);
    UnderDistinct(rows, cats, None);
    hide Under, OccurrencesIn, Describes;
    assert forall i :: 0 <= i < |roots| ==> roots[i].id == Ids(roots)[i] && ids[i] in ids;
    forall i | 0 <= i < |roots| ensures RootAt(cats, roots[i].id, 0) { assert roots[i].id in ids; }
    SiblingsOnce(roots, rows, cats, products, 0, x);
    if n: nat :| RootAt(cats, x, n) {
      ChainAbove(cats, x, n, n);
      var r := Up(cats, x, n).value;
      UnderIsComplete(rows, cats, None, r);
      var i :| 0 <= i < |ids| && ids[i] == r;
      assert Holds(cats, x, roots[i].id);
    } else {
      forall i | 0 <= i < |roots| ensures !Holds(cats, x, roots[i].id) {
        if Holds(cats, x, roots[i].id) {
          var k: nat :| Up(cats, x, k) == Some(roots[i].id);
          RootAbove(cats, x, k, roots[i].id, 0);
        }
      }
    }
  }

  // ----- products -----

  function Shown(t: Tree, p: Product): nat {
    multiset(t.products)[p] + ShownIn(t.children, p)
  }

  function ShownIn(trees: seq<Tree>, p: Product): nat {
    if |trees| == 0 then 0
    else ShownIn(trees[..|trees| - 1], p) + Shown(trees[|trees| - 1], p)
  }

  lemma {:induction false} ActiveOnce(products: seq<Product>, c: Id, p: Product)
    ensures multiset(ActiveIn(products, c))[p] == if p.active && p.category == c then multiset(products)[p] else 0
  {
    if |products| > 0 {
      var n := |products| - 1;
      ActiveOnce(products[..n], c, p);
      assert products == products[..n] + [products[n]];
    }
  }

  // A product appears as often as its category does.
  lemma {:induction false} ShownWithCategory(t: Tree, rows: seq<Id>, cats: Parents, products: seq<Product>, p: Product)
    requires Describes(t, rows, cats, products)
    ensures Shown(t, p) == if p.active then multiset(products)[p] * Occurrences(t, p.category) else 0
  {
    hide ActiveIn, Under, ShownIn, OccurrencesIn;
    ActiveOnce(products, t.id, p);
    AllShownWithCategory(t.children, rows, cats, products, p);
    Times(multiset(products)[p], if t.id == p.category then 1 else 0, OccurrencesIn(t.children, p.category));
  }

  lemma Times(a: nat, b: nat, c: nat)
    ensures a * (b + c) == a * b + a * c
  {
  }

  lemma {:induction false} AllShownWithCategory(trees: seq<Tree>, rows: seq<Id>, cats: Parents, products: seq<Product>,
                                                p: Product)
    requires forall i :: 0 <= i < |trees| ==> Describes(trees[i], rows, cats, products)
    ensures ShownIn(trees, p) == if p.active then multiset(products)[p] * OccurrencesIn(trees, p.category) else 0
  {
    hide Shown, Occurrences, Describes;
    if |trees| > 0 {
      var last := |trees| - 1;
      AllShownWithCategory(trees[..last], rows, cats, products, p);
      ShownWithCategory(trees[last], rows, cats, products, p);
      Times(multiset(products)[p], OccurrencesIn(trees[..last], p.category), Occurrences(trees[last], p.category));
    }
  }

  // An active product is on show exactly as often as it is listed, which is once,
  // if its category's parents lead to a root; any other product is not.
  lemma EveryProductOnce(roots: seq<Tree>, rows: seq<Id>, cats: Parents, products: seq<Product>, p: Product)
    requires Lists(rows, cats) && DescribeAll(roots, rows, cats, products, None)
    ensures ShownIn(roots, p) == if p.active && Grounded(cats, p.category) then multiset(products)[p] else 0
    ensures IsForest(cats) ==> ShownIn(roots, p) == if p.active && p.category in cats then multiset(products)[p] else 0
  {
    EveryCategoryOnce(roots, rows, cats, products, p.category);
    AllShownWithCategory(roots, rows, cats, products, p);
    hide Describes, OccurrencesIn, ShownIn, Lists, Under;
  }
}
