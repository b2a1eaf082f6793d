/**
 Which constants of a running component survive saving and loading. The instances of an action are numbered through
 all the actions that enclose it: arrays are sized by the total domain size, instance n belongs to instance n / d of
 the parent, d being the action's own domain size (src/generators/unreal_generator.cpp:767-791, 810-811, 928-957).
 The generated save code numbers them from the enclosing object only (src/generators/configio_generator.cpp:192-206,
 361-375).
 */
module ConfigInstances {
  import opened Prelude
  import opened Arithmetic
  import opened ConfigTree
  import opened ConfigIO
  import opened ConfigComponent

  /** The number of the instance that encloses the nearest object, given that of the node's own parent. */
  function Near(t: ConstTree, base: nat, outer: nat): nat {
    if t.obj.Some? then outer else base
  }

  /**
   The constant belongs to this instance of an action or to one below it, and that instance and all those in between
   are active; `from` is the number of the instance that encloses the constant's object.
   */
  ghost predicate LiveAt(t: ConstTree, base: nat, outer: nat, i: nat, p: Program, c: Cell, from: nat)
    decreases t
  {
    && i < t.domain && Cell(t.id, Below(outer, t.domain, i)) in p.active
    && var flat := Below(outer, t.domain, i);
       || (OwnConstant(t, flat, c) && from == Near(t, base, outer))
       || exists k, j: nat :: 0 <= k < |t.children| && LiveAt(t.children[k], Near(t, base, outer), flat, j, p, c, from)
  }

  /** A constant of an active instance of the component, the instances that enclose it being active too. */
  ghost predicate Live(root: Action, p: Program, c: Cell) {
    exists i: nat, from: nat :: LiveAt(Build(root), 0, 0, i, p, c, from)
  }

  /** Loading what was saved brings the constant's value back, whatever it was in the meantime. */
  ghost predicate Survives(trees: seq<Tree>, p: Program, c: Cell) {
    forall onto: Store :: ValueAt(LoadAll(trees, SaveAll(trees, p), Loaded(onto, 0)), c) == Some(p.Read(c))
  }

  /** What the generator hands to the save and load code can be told apart. */
  ghost predicate Generated(root: Action, objects: seq<nat>, trees: seq<Tree>) {
    TreesOf(root, objects, trees) && OneEach(Order(Build(root))) && Tellable(trees)
  }

  lemma SurvivesIffVisited(root: Action, objects: seq<nat>, trees: seq<Tree>, p: Program, c: Cell)
    requires Generated(root, objects, trees)
    ensures Survives(trees, p, c) <==> Visited(Order(Build(root)), p, c)
  {
    hide Build, Order, LoadAll, SaveAll, Visited, OneEach, TreesOf, Tellable;
    forall onto: Store
      ensures ValueAt(LoadAll(trees, SaveAll(trees, p), Loaded(onto, 0)), c) ==
              if Visited(Order(Build(root)), p, c) then Some(p.Read(c)) else if c in onto then Some(onto[c]) else None
    {
      ComponentRoundTrip(root, objects, trees, p, onto, c);
    }
    var none: Store := map[];
    assert Survives(trees, p, c) ==> ValueAt(LoadAll(trees, SaveAll(trees, p), Loaded(none, 0)), c) == Some(p.Read(c));
  }

  /** Every instance index fits in four digits. */
  predicate FourDigits(t: ConstTree)
    decreases t
  {
    t.domain <= 10000 && forall k :: 0 <= k < |t.children| ==> FourDigits(t.children[k])
  }

  // ---- What is numbered from instance 0 is saved ----

  lemma {:induction false} NodesOf(ts: seq<ConstTree>, k: nat, u: ConstTree)
    requires k < |ts| && u in Order(ts[k])
    ensures u in OrderAll(ts)
  {
    hide Order;
    if k > 0 {
      assert ts[1..][k - 1] == ts[k];
      NodesOf(ts[1..], k - 1, u);
    }
  }

  ghost predicate VisitedNode(nodes: seq<ConstTree>, u: ConstTree, p: Program, c: Cell) {
    u in nodes && u.obj.Some? && OwnSavedFirst(u, 0, p, c)
  }

  lemma VisitedIs(nodes: seq<ConstTree>, p: Program, c: Cell)
    ensures Visited(nodes, p, c) <==> exists u :: VisitedNode(nodes, u, p, c)
  {
    hide OwnSavedFirst;
    if k :| 0 <= k < |nodes| && nodes[k].obj.Some? && OwnSavedFirst(nodes[k], 0, p, c) {
      assert VisitedNode(nodes, nodes[k], p, c);
    }
  }

  lemma {:induction false} LiveIsVisited(t: ConstTree, base: nat, outer: nat, i: nat, p: Program, c: Cell)
    requires LiveAt(t, base, outer, i, p, c, 0) && FourDigits(t)
    ensures (Near(t, base, outer) == 0 && OwnSavedAt(t, outer, i, p, c))
            || exists u :: VisitedNode(OrderAll(t.children), u, p, c)
    decreases t
  {
    hide OwnSavedFirst, OrderAll;
    var near, flat := Near(t, base, outer), Below(outer, t.domain, i);
    if !(OwnConstant(t, flat, c) && near == 0) {
      var k, j: nat :| 0 <= k < |t.children| && LiveAt(t.children[k], near, flat, j, p, c, 0);
      var u := t.children[k];
      LiveIsVisited(u, near, flat, j, p, c);
      if w :| VisitedNode(OrderAll(u.children), w, p, c) {
        OrderIs(u);
        NodesOf(t.children, k, w);
        assert VisitedNode(OrderAll(t.children), w, p, c);
      } else if u.obj.Some? {
        FirstOf(u, j, p, c);
        OrderIs(u);
        NodesOf(t.children, k, u);
        assert VisitedNode(OrderAll(t.children), u, p, c);
      } else {
        OwnSavedIs(t.children, flat, p, c);
      }
    }
  }

  lemma FirstOf(t: ConstTree, i: nat, p: Program, c: Cell)
    requires OwnSavedAt(t, 0, i, p, c)
    ensures OwnSavedFirst(t, 0, p, c)
  {
  }

  // ---- A constant has one instance number and one place ----

  /** The constant belongs to this instance of an action or to one below it outside other objects. */
  ghost predicate OwnAt(t: ConstTree, outer: nat, i: nat, c: Cell)
    decreases t
  {
    && i < t.domain
    && var flat := Below(outer, t.domain, i);
       || OwnConstant(t, flat, c)
       || exists k, j: nat :: 0 <= k < |t.children| && t.children[k].obj.None? && OwnAt(t.children[k], flat, j, c)
  }

  lemma {:induction false} SavedIsOwn(t: ConstTree, outer: nat, i: nat, p: Program, c: Cell)
    requires OwnSavedAt(t, outer, i, p, c)
    ensures OwnAt(t, outer, i, c)
    decreases t
  {
    var flat := Below(outer, t.domain, i);
    if !OwnConstant(t, flat, c) {
      OwnSavedIs(t.children, flat, p, c);
      var k, j: nat :| 0 <= k < |t.children| && t.children[k].obj.None? && OwnSavedAt(t.children[k], flat, j, p, c);
      SavedIsOwn(t.children[k], flat, j, p, c);
    }
  }

  /** An object node has the constant in an instance below this enclosing one. */
  ghost predicate OwnerNode(nodes: seq<ConstTree>, u: ConstTree, from: nat, c: Cell) {
    u in nodes && u.obj.Some? && exists i: nat :: OwnAt(u, from, i, c)
  }

  /** The object node that a live constant belongs to, and its enclosing instance. */
  lemma {:induction false} LiveIsOwn(t: ConstTree, base: nat, outer: nat, i: nat, p: Program, c: Cell, from: nat)
    requires LiveAt(t, base, outer, i, p, c, from)
    ensures (Near(t, base, outer) == from && OwnAt(t, outer, i, c))
            || exists u :: OwnerNode(OrderAll(t.children), u, from, c)
    decreases t
  {
    hide OrderAll, OwnerNode;
    var near, flat := Near(t, base, outer), Below(outer, t.domain, i);
    if !(OwnConstant(t, flat, c) && near == from) {
      var k, j: nat :| 0 <= k < |t.children| && LiveAt(t.children[k], near, flat, j, p, c, from);
      var u := t.children[k];
      LiveIsOwn(u, near, flat, j, p, c, from);
      if w :| OwnerNode(OrderAll(u.children), w, from, c) {
        OwnerAbove(t, k, w, from, c);
      } else if u.obj.Some? {
        OwnerHere(t, k, from, j, c);
      }
    }
  }

  lemma OwnerAbove(t: ConstTree, k: nat, w: ConstTree, from: nat, c: Cell)
    requires k < |t.children| && OwnerNode(OrderAll(t.children[k].children), w, from, c)
    ensures OwnerNode(OrderAll(t.children), w, from, c)
  {
    hide OwnAt, OrderAll;
    OrderIs(t.children[k]);
    NodesOf(t.children, k, w);
  }

  lemma OwnerHere(t: ConstTree, k: nat, from: nat, j: nat, c: Cell)
    requires k < |t.children| && t.children[k].obj.Some? && OwnAt(t.children[k], from, j, c)
    ensures OwnerNode(OrderAll(t.children), t.children[k], from, c)
  {
    hide OwnAt, OrderAll;
    OrderIs(t.children[k]);
    NodesOf(t.children, k, t.children[k]);
  }

  /** Different constants have different identities. */
  ghost predicate DifferentIds(t: ConstTree) {
    forall c, d :: c in Consts(t) && d in Consts(t) && c.id == d.id ==> c == d
  }

  lemma {:induction false} OwnAtOwns(t: ConstTree, outer: nat, i: nat, c: Cell) returns (d: Const)
    requires OwnAt(t, outer, i, c)
    ensures Own(t, d) && d.id == c.typeId
    decreases t
  {
    var flat := Below(outer, t.domain, i);
    if OwnConstant(t, flat, c) {
      var k :| 0 <= k < |t.constants| && t.constants[k].id == c.typeId;
      d := t.constants[k];
    } else {
      var k, j: nat :| 0 <= k < |t.children| && t.children[k].obj.None? && OwnAt(t.children[k], flat, j, c);
      d := OwnAtOwns(t.children[k], flat, j, c);
    }
  }

  lemma {:induction false} ChildConsts(ts: seq<ConstTree>, k: nat)
    requires k < |ts|
    ensures Consts(ts[k]) <= AllConsts(ts) && (AllSeparate(ts) ==> Separate(ts[k]))
  {
    hide Consts, Separate;
    if k > 0 {
      assert ts[1..][k - 1] == ts[k];
      ChildConsts(ts[1..], k - 1);
    }
  }

  /** Children that have a constant in common are the same. */
  lemma {:induction false} OneChild(ts: seq<ConstTree>, j: nat, k: nat, d: Const)
    requires AllSeparate(ts) && j < |ts| && k < |ts| && d in Consts(ts[j]) && d in Consts(ts[k])
    ensures j == k
    decreases |ts|
  {
    hide Consts, Separate;
    if j > 0 && k > 0 {
      assert ts[1..][j - 1] == ts[j] && ts[1..][k - 1] == ts[k];
      OneChild(ts[1..], j - 1, k - 1, d);
    } else if j > 0 {
      assert ts[1..][j - 1] == ts[j];
      ChildConsts(ts[1..], j - 1);
    } else if k > 0 {
      assert ts[1..][k - 1] == ts[k];
      ChildConsts(ts[1..], k - 1);
    }
  }

  /** The instance number of a constant determines all indices on the way. */
  lemma {:induction false} SameIndices(t: ConstTree, outer: nat, i: nat, other: nat, j: nat, c: Cell)
    requires Separate(t) && DifferentIds(t) && OwnAt(t, outer, i, c) && OwnAt(t, other, j, c)
    ensures outer == other && i == j
    decreases t
  {
    var a, b := Below(outer, t.domain, i), Below(other, t.domain, j);
    assert a == b by {
      if OwnConstant(t, a, c) || OwnConstant(t, b, c) {
        var d := OwnHere(t, if OwnConstant(t, a, c) then a else b, c);
        NotBelow(t, a, d, c);
        NotBelow(t, b, d, c);
        OwnInstance(t, a, c);
        OwnInstance(t, b, c);
      } else {
        var k, x: nat :| 0 <= k < |t.children| && t.children[k].obj.None? && OwnAt(t.children[k], a, x, c);
        var m, y: nat :| 0 <= m < |t.children| && t.children[m].obj.None? && OwnAt(t.children[m], b, y, c);
        SameChild(t, k, a, x, m, b, y, c);
        SameIndices(t.children[k], a, x, b, y, c);
      }
    }
    QuotientUnique(t.domain, outer, i, other, j);
  }

  lemma OwnHere(t: ConstTree, flat: nat, c: Cell) returns (d: Const)
    requires OwnConstant(t, flat, c)
    ensures d in t.constants && d.id == c.typeId && d in Consts(t)
  {
    var k :| 0 <= k < |t.constants| && t.constants[k].id == c.typeId;
    d := t.constants[k];
  }

  /** A constant of the node itself is not found below it. */
  lemma NotBelow(t: ConstTree, flat: nat, d: Const, c: Cell)
    requires Separate(t) && DifferentIds(t) && d in t.constants && d.id == c.typeId
    ensures forall k, j: nat :: 0 <= k < |t.children| ==> !OwnAt(t.children[k], flat, j, c)
  {
    hide OwnAt;
    forall k, j: nat | 0 <= k < |t.children| ensures !OwnAt(t.children[k], flat, j, c) {
      ChildConsts(t.children, k);
      assert Consts(t.children[k]) <= Consts(t);
      if OwnAt(t.children[k], flat, j, c) {
        var e := OwnAtOwns(t.children[k], flat, j, c);
        OwnIsConst(t.children[k], e);
      }
    }
  }

  lemma SameChild(t: ConstTree, k: nat, a: nat, x: nat, m: nat, b: nat, y: nat, c: Cell)
    requires Separate(t) && DifferentIds(t) && k < |t.children| && m < |t.children|
    requires OwnAt(t.children[k], a, x, c) && OwnAt(t.children[m], b, y, c)
    ensures k == m && Separate(t.children[k]) && DifferentIds(t.children[k])
  {
    hide OwnAt;
    var d := OwnAtOwns(t.children[k], a, x, c);
    var e := OwnAtOwns(t.children[m], b, y, c);
    OwnIsConst(t.children[k], d);
    OwnIsConst(t.children[m], e);
    ChildConsts(t.children, k);
    ChildConsts(t.children, m);
    assert Consts(t.children[k]) <= Consts(t) && Consts(t.children[m]) <= Consts(t);
    OneChild(t.children, k, m, d);
  }

  // ---- Which live constants survive ----

  /** What the concrete tree of a project is like: constants occur once, under identities of their own. */
  ghost predicate Plain(root: Action) {
    root.obj.Some? && Separate(Build(root)) && DifferentIds(Build(root)) && FourDigits(Build(root))
  }

  lemma {:induction false} NodeSeparate(t: ConstTree, u: ConstTree)
    requires u in Order(t) && Separate(t)
    ensures Separate(u) && Consts(u) <= Consts(t)
    decreases t
  {
    if u in OrderAll(t.children) {
      NodesSeparate(t.children, u);
    }
  }

  lemma {:induction false} NodesSeparate(ts: seq<ConstTree>, u: ConstTree)
    requires u in OrderAll(ts) && AllSeparate(ts)
    ensures Separate(u) && Consts(u) <= AllConsts(ts)
    decreases ts
  {
    if u in Order(ts[0]) {
      NodeSeparate(ts[0], u);
    } else {
      NodesSeparate(ts[1..], u);
    }
  }

  /** Two object nodes that have the constant are the same, and so are the enclosing instances. */
  lemma OneOwner(t: ConstTree, u: ConstTree, from: nat, w: ConstTree, other: nat, c: Cell)
    requires Separate(t) && DifferentIds(t) && OwnerNode(Order(t), u, from, c) && OwnerNode(Order(t), w, other, c)
    ensures from == other
  {
    hide OwnAt, Order, Consts, Separate, Own;
    var i: nat :| OwnAt(u, from, i, c);
    var j: nat :| OwnAt(w, other, j, c);
    var d := OwnAtOwns(u, from, i, c);
    var e := OwnAtOwns(w, other, j, c);
    NodeConsts(t, u, d);
    NodeConsts(t, w, e);
    assert d == e;
    SeparateOwners(t);
    var x :| 0 <= x < |Order(t)| && Order(t)[x] == u;
    var y :| 0 <= y < |Order(t)| && Order(t)[y] == w;
    assert x == y;
    NodeSeparate(t, u);
    SameIndices(u, from, i, other, j, c);
  }

  lemma LiveOwner(root: Action, p: Program, c: Cell, i: nat, from: nat) returns (u: ConstTree)
    requires root.obj.Some? && LiveAt(Build(root), 0, 0, i, p, c, from)
    ensures OwnerNode(Order(Build(root)), u, from, c)
  {
    hide Build, LiveAt, OwnAt, Order, OrderAll;
    BuildRoot(root);
    var t := Build(root);
    LiveIsOwn(t, 0, 0, i, p, c, from);
    OrderIs(t);
    if w :| OwnerNode(OrderAll(t.children), w, from, c) {
      u := w;
    } else {
      u := t;
    }
  }

  /** A constant of an active instance survives exactly when the instance that encloses its object has number 0. */
  lemma LiveSurvivesIff(root: Action, objects: seq<nat>, trees: seq<Tree>, p: Program, c: Cell, i: nat, from: nat)
    requires Generated(root, objects, trees) && Plain(root) && LiveAt(Build(root), 0, 0, i, p, c, from)
    ensures Survives(trees, p, c) <==> from == 0
  {
    hide Build, LiveAt, OwnAt, Order, OrderAll, Visited, Survives, Generated, OwnSavedFirst, Separate, FourDigits,
      DifferentIds;
    var t := Build(root);
    SurvivesIffVisited(root, objects, trees, p, c);
    VisitedIs(Order(t), p, c);
    if from == 0 {
      FromFirst(root, p, c, i);
    }
    if w :| VisitedNode(Order(t), w, p, c) {
      var u := LiveOwner(root, p, c, i, from);
      FirstIsOwn(w, p, c);
      OneOwner(t, u, from, w, 0, c);
    }
  }

  lemma FirstIsOwn(t: ConstTree, p: Program, c: Cell)
    requires OwnSavedFirst(t, 0, p, c)
    ensures exists i: nat :: OwnAt(t, 0, i, c)
  {
    hide OwnSavedAt, OwnAt;
    var i: nat :| OwnSavedAt(t, 0, i, p, c);
    SavedIsOwn(t, 0, i, p, c);
  }

  lemma FromFirst(root: Action, p: Program, c: Cell, i: nat)
    requires root.obj.Some? && FourDigits(Build(root)) && LiveAt(Build(root), 0, 0, i, p, c, 0)
    ensures exists w :: VisitedNode(Order(Build(root)), w, p, c)
  {
    hide Build, LiveAt, OwnSavedAt, Order, OrderAll, OwnSavedFirst, FourDigits;
    var t := Build(root);
    BuildRoot(root);
    LiveIsVisited(t, 0, 0, i, p, c);
    OrderIs(t);
    if w :| VisitedNode(OrderAll(t.children), w, p, c) {
      assert VisitedNode(Order(t), w, p, c);
    } else {
      FirstOf(t, i, p, c);
      assert t in Order(t) by { assert Order(t)[|OrderAll(t.children)|] == t; }
      assert VisitedNode(Order(t), t, p, c);
    }
  }

  // ---- When all of them do ----

  /** The node owns a constant that has an instance. */
  ghost predicate Populated(t: ConstTree) {
    t.domain > 0 &&
    (t.constants != [] || exists k :: 0 <= k < |t.children| && t.children[k].obj.None? && Populated(t.children[k]))
  }

  /**
   Every object node that owns such a constant has at most one enclosing instance, `total` being the product of the
   domain sizes of all that encloses the tree.
   */
  ghost predicate OneEnclosing(t: ConstTree, total: nat)
    decreases t
  {
    && (t.obj.Some? && Populated(t) ==> total <= 1)
    && forall k :: 0 <= k < |t.children| ==> OneEnclosing(t.children[k], total * t.domain)
  }

  lemma {:induction false} LiveFromFirst(t: ConstTree, base: nat, outer: nat, i: nat, p: Program, c: Cell, from: nat,
                                         total: nat)
    requires LiveAt(t, base, outer, i, p, c, from) && OneEnclosing(t, total) && outer < total
    requires t.obj.None? && Populated(t) ==> base == 0
    ensures from == 0
    decreases t
  {
    var near, flat := Near(t, base, outer), Below(outer, t.domain, i);
    if OwnConstant(t, flat, c) && from == near {
    } else {
      var k, j: nat :| 0 <= k < |t.children| && LiveAt(t.children[k], near, flat, j, p, c, from);
      MulGrows(total, outer, t.domain);
      LiveFromFirst(t.children[k], near, flat, j, p, c, from, total * t.domain);
    }
  }

  // ---- Otherwise one is lost when everything is active ----

  /** All instances of all actions of a tree that has so many enclosing instances. */
  function Everything(t: ConstTree, total: nat): set<Cell>
    decreases t
  {
    (set n | 0 <= n < total * t.domain :: Cell(t.id, n)) + EverythingIn(t.children, total * t.domain)
  }

  function EverythingIn(ts: seq<ConstTree>, total: nat): set<Cell>
    decreases ts
  {
    if ts == [] then {} else Everything(ts[0], total) + EverythingIn(ts[1..], total)
  }

  lemma {:induction false} ChildEverything(ts: seq<ConstTree>, k: nat, total: nat)
    requires k < |ts|
    ensures Everything(ts[k], total) <= EverythingIn(ts, total)
  {
    hide Everything;
    if k > 0 {
      assert ts[1..][k - 1] == ts[k];
      ChildEverything(ts[1..], k - 1, total);
    }
  }

  /** The last instance of a tree, when there is one. */
  lemma LastIndex(t: ConstTree, total: nat, p: Program)
    requires total > 0 && t.domain > 0 && Everything(t, total) <= p.active
    ensures total * t.domain > 0 && Below(total - 1, t.domain, t.domain - 1) == total * t.domain - 1
    ensures Cell(t.id, total * t.domain - 1) in p.active
  {
    MulGrows(total, total - 1, t.domain);
    assert (total - 1) * t.domain + t.domain == total * t.domain;
    assert Cell(t.id, total * t.domain - 1) in Everything(t, total);
  }

  lemma BelowEverything(t: ConstTree, k: nat, total: nat, p: Program)
    requires k < |t.children| && Everything(t, total) <= p.active
    ensures Everything(t.children[k], total * t.domain) <= p.active
  {
    ChildEverything(t.children, k, total * t.domain);
  }

  /** The last instance of a constant that the node owns. */
  lemma {:induction false} LastOwned(t: ConstTree, base: nat, total: nat, p: Program) returns (c: Cell)
    requires total > 0 && Populated(t) && Everything(t, total) <= p.active
    ensures LiveAt(t, base, total - 1, t.domain - 1, p, c, Near(t, base, total - 1))
    decreases t
  {
    hide Everything;
    LastIndex(t, total, p);
    var flat := total * t.domain - 1;
    if t.constants != [] {
      c := Cell(t.constants[0].id, flat);
      assert OwnConstant(t, flat, c);
    } else {
      var k :| 0 <= k < |t.children| && t.children[k].obj.None? && Populated(t.children[k]);
      BelowEverything(t, k, total, p);
      c := LastOwned(t.children[k], Near(t, base, total - 1), total * t.domain, p);
    }
  }

  lemma {:induction false} NothingEncloses(t: ConstTree)
    ensures OneEnclosing(t, 0)
    decreases t
  {
    forall k | 0 <= k < |t.children| ensures OneEnclosing(t.children[k], 0 * t.domain) {
      NothingEncloses(t.children[k]);
      assert 0 * t.domain == 0;
    }
  }

  lemma {:induction false} LastIsLost(t: ConstTree, base: nat, total: nat, p: Program)
    returns (c: Cell, i: nat, from: nat)
    requires total > 0 && !OneEnclosing(t, total) && Everything(t, total) <= p.active
    ensures LiveAt(t, base, total - 1, i, p, c, from) && from > 0
    decreases t
  {
    hide Everything;
    if t.obj.Some? && Populated(t) && total > 1 {
      c := LastOwned(t, base, total, p);
      i, from := t.domain - 1, total - 1;
    } else {
      var k :| 0 <= k < |t.children| && !OneEnclosing(t.children[k], total * t.domain);
      assert t.domain > 0 by {
        NothingEncloses(t.children[k]);
        assert t.domain == 0 ==> total * t.domain == 0;
      }
      LastIndex(t, total, p);
      BelowEverything(t, k, total, p);
      var j;
      c, j, from := LastIsLost(t.children[k], Near(t, base, total - 1), total * t.domain, p);
      i := t.domain - 1;
    }
  }

  /**
   Saving and loading brings back every constant of every active instance, whatever is active, exactly when every
   object node that owns constants has at most one enclosing instance.
   */
  lemma AllSurviveIff(root: Action, objects: seq<nat>, trees: seq<Tree>)
    requires Generated(root, objects, trees) && Plain(root)
    ensures (forall p, c :: Live(root, p, c) ==> Survives(trees, p, c)) <==> OneEnclosing(Build(root), 1)
  {
    hide Build, LiveAt, Survives, Generated, Plain, OneEnclosing, Everything;
    var t := Build(root);
    if OneEnclosing(t, 1) {
      forall p, c | Live(root, p, c) ensures Survives(trees, p, c) {
        var i: nat, from: nat :| LiveAt(t, 0, 0, i, p, c, from);
        LiveFromFirst(t, 0, 0, i, p, c, from, 1);
        LiveSurvivesIff(root, objects, trees, p, c, i, from);
      }
    } else {
      var p := Program(Everything(t, 1), map[]);
      var c, i, from := LastIsLost(t, 0, 1, p);
      LiveSurvivesIff(root, objects, trees, p, c, i, from);
      assert Live(root, p, c);
    }
  }

  // ---- The smallest component that loses one ----

  const INNER := Action(Some(1), 11, "obj", 1, [Constant(Const(20, "c"))])
  const MIDDLE := Action(None, 10, "mid", 2, [Nested(INNER)])
  const ROOT := Action(Some(0), 9, "root", 1, [Nested(MIDDLE)])
  const ALL := Program({Cell(9, 0), Cell(10, 0), Cell(10, 1), Cell(11, 0), Cell(11, 1)}, map[])

  const LEAF := ConstTree(Some(1), 11, "obj", 1, [Const(20, "c")], [])
  const TWO := ConstTree(None, 10, "mid", 2, [], [LEAF])
  const TOP := ConstTree(Some(0), 9, "root", 1, [], [TWO])

  lemma {:induction false} BuildOne(a: Action, b: Action, t: ConstTree)
    requires a.elements == [Nested(b)] && Build(b) == t
    ensures Build(a) == ConstTree(a.obj, a.id, a.name, a.domain, [], [t])
  {
    hide Build;
    assert a.elements[1..] == [] && [t] + [] == [t];
    assert ConstantsOf(a.elements) == [] + ConstantsOf([]) == [];
    assert BuildAll(a.elements) == BuildElement(a.elements[0]) + BuildAll([]);
    BuildIs(a);
  }

  lemma BuildIs(a: Action)
    ensures Build(a) == ConstTree(a.obj, a.id, a.name, a.domain, ConstantsOf(a.elements), BuildAll(a.elements))
  {
  }

  lemma {:induction false} OrderOne(t: ConstTree, u: ConstTree)
    requires t.children == [u]
    ensures Order(t) == Order(u) + if t.obj.Some? then [t] else []
  {
    hide Order;
    OrderIs(t);
    assert OrderAll([u]) == Order(u) + OrderAll([]) by { assert [u][1..] == []; }
    assert Order(u) + [] == Order(u);
  }

  lemma TopIsBuilt()
    ensures Build(ROOT) == TOP && Order(TOP) == [LEAF, TOP]
  {
    hide Build, Order;
    Leaf(INNER, LEAF, Const(20, "c"));
    BuildOne(MIDDLE, INNER, LEAF);
    BuildOne(ROOT, MIDDLE, TWO);
    OrderOne(TWO, LEAF);
    OrderOne(TOP, TWO);
    assert [LEAF] + [] == [LEAF] && [LEAF] + [TOP] == [LEAF, TOP];
  }

  /** What the generator makes of it: one object tree, that of the inner object. */
  lemma OneTree()
    ensures Generated(ROOT, [1], [LEAF])
  {
    hide Build, Order;
    TopIsBuilt();
    LeafOwns(LEAF, Const(20, "c"), Const(20, "c"));
    assert Fruitful(LEAF);
    TopOwnsNothing();
    forall o ensures o in ObjectTreesOf(ROOT) <==> o == 1 {
      TreeOfObject(ROOT, o);
      ChosenOfTwo(o);
    }
    TreeOfObject(ROOT, 1);
    ChosenOfTwo(1);
    assert Cut(LEAF) == LEAF && Prune(LEAF) == LEAF;
    assert TreesOf(ROOT, [1], [LEAF]) by {
      hide ObjectTreesOf, Cut, Prune;
      assert [1][0] == 1;
    }
    assert OneEach([LEAF, TOP]);
    assert Named([], [LEAF]) by { assert Named(LEAF.constants, LEAF.children); }
    assert Tellable([LEAF]);
  }

  lemma ChosenOfTwo(o: nat)
    requires Fruitful(LEAF) && !Fruitful(TOP)
    ensures Chosen([LEAF, TOP], o) == if o == 1 then Some(LEAF) else None
  {
    hide Fruitful;
    var none: seq<ConstTree> := [];
    assert [LEAF, TOP][1..] == [TOP] && [TOP][1..] == none;
    assert Chosen(none, o) == None;
    assert Chosen([TOP], o) == Chosen(none, o);
    assert Chosen([LEAF, TOP], o) == if o == 1 then Some(LEAF) else Chosen([TOP], o);
  }

  lemma TopOwnsNothing()
    ensures !Fruitful(TOP)
  {
    assert TWO.children[0] == LEAF && TOP.children[0] == TWO;
    forall d ensures !Own(TOP, d) {
      assert !Own(TWO, d);
    }
  }

  /**
   An object with one instance below an action with two: the constant of its second instance is live when all are
   active, the save loops never come to it, and no load brings it back.
   */
  lemma SecondInstanceIsLost(p: Program)
    ensures Generated(ROOT, [1], [LEAF])
    ensures Live(ROOT, ALL, Cell(20, 1)) && !Survives([LEAF], p, Cell(20, 1))
  {
    hide Build, Order, Survives, Generated, Visited, LiveAt;
    var c := Cell(20, 1);
    TopIsBuilt();
    OneTree();
    assert LiveAt(LEAF, 0, 1, 0, ALL, c, 1) by { LeafLives(); }
    assert LiveAt(TWO, 0, 0, 1, ALL, c, 1) by { ParentLives(TWO, 0, 0, 1, 0, c, 1); }
    assert LiveAt(TOP, 0, 0, 0, ALL, c, 1) by { ParentLives(TOP, 0, 0, 0, 1, c, 1); }
    SurvivesIffVisited(ROOT, [1], [LEAF], p, c);
    NotVisited(p);
  }

  lemma LeafLives()
    ensures LiveAt(LEAF, 0, 1, 0, ALL, Cell(20, 1), 1)
  {
    assert LEAF.constants[0].id == 20;
  }

  lemma ParentLives(t: ConstTree, base: nat, outer: nat, i: nat, j: nat, c: Cell, from: nat)
    requires i < t.domain && Cell(t.id, Below(outer, t.domain, i)) in ALL.active && |t.children| == 1
    requires LiveAt(t.children[0], Near(t, base, outer), Below(outer, t.domain, i), j, ALL, c, from)
    ensures LiveAt(t, base, outer, i, ALL, c, from)
  {
  }

  lemma NotVisited(p: Program)
    ensures !Visited([LEAF, TOP], p, Cell(20, 1))
  {
    var nodes, c := [LEAF, TOP], Cell(20, 1);
    forall k, i: nat | 0 <= k < |nodes| ensures !OwnSavedAt(nodes[k], 0, i, p, c) {
      assert TWO.children[0] == LEAF && TOP.children[0] == TWO;
      if k == 0 {
        assert !OwnSavedIn(LEAF.children, Below(0, LEAF.domain, i), p, c);
      } else {
        NothingAtTheTop(i, p, c);
      }
    }
  }

  lemma NothingAtTheTop(i: nat, p: Program, c: Cell)
    ensures !OwnSavedAt(TOP, 0, i, p, c)
  {
    forall outer: nat, j: nat ensures !OwnSavedAt(TWO, outer, j, p, c) {
      assert !OwnSavedIn(TWO.children, Below(outer, TWO.domain, j), p, c);
    }
    assert !OwnSavedIn(TOP.children, Below(0, TOP.domain, i), p, c);
  }
}
