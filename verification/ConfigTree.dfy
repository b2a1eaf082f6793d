/**
 How the constants of a component are divided into object trees: buildTree, pruneTree and
 gatherObjectTrees (src/generators/configio_generator.cpp:105-190). A constant, an action and an object are
 named by the identity of the dimension, of the concrete action and of the interface object.
 */
module ConfigTree {
  import opened Prelude

  datatype Const = Const(id: nat, name: string)

  /** The concrete tree the generator starts from; `obj` is the action's context when that is an Object. */
  datatype Action = Action(obj: Option<nat>, id: nat, name: string, domain: nat, elements: seq<Element>)

  datatype Element = Constant(value: Const) | OtherDimension | Nested(action: Action)

  datatype ConstTree =
    ConstTree(obj: Option<nat>, id: nat, name: string, domain: nat, constants: seq<Const>, children: seq<ConstTree>)

  type ObjectTrees = map<nat, ConstTree>

  // ---- buildTree ----

  function ConstantsOf(es: seq<Element>): seq<Const> {
    if es == [] then [] else (if es[0].Constant? then [es[0].value] else []) + ConstantsOf(es[1..])
  }

  function Build(a: Action): ConstTree {
    ConstTree(a.obj, a.id, a.name, a.domain, ConstantsOf(a.elements), BuildAll(a.elements))
  }

  function BuildAll(es: seq<Element>): seq<ConstTree> {
    if es == [] then [] else BuildElement(es[0]) + BuildAll(es[1..])
  }

  function BuildElement(e: Element): seq<ConstTree> {
    if e.Nested? then [Build(e.action)] else []
  }

  lemma BuildFirst(es: seq<Element>, i: nat)
    requires i < |es|
    ensures ConstantsOf(es[i..]) == (if es[i].Constant? then [es[i].value] else []) + ConstantsOf(es[i + 1..])
    ensures BuildAll(es[i..]) == BuildElement(es[i]) + BuildAll(es[i + 1..])
  {
    assert es[i..][0] == es[i] && es[i..][1..] == es[i + 1..];
  }

  lemma Associate<T>(a: seq<T>, b: seq<T>, c: seq<T>)
    ensures a + (b + c) == (a + b) + c
  {
  }

  method BuildTree(a: Action) returns (t: ConstTree)
    ensures t == Build(a)
    decreases a
  {
    t := ConstTree(a.obj, a.id, a.name, a.domain, [], []);
    var i := 0;
    assert a.elements[0..] == a.elements;
    while i < |a.elements|
      invariant 0 <= i <= |a.elements| && t == ConstTree(a.obj, a.id, a.name, a.domain, t.constants, t.children)
      invariant t.constants + ConstantsOf(a.elements[i..]) == ConstantsOf(a.elements)
      invariant t.children + BuildAll(a.elements[i..]) == BuildAll(a.elements)
    {
      hide ConstantsOf, BuildAll, Build;
      BuildFirst(a.elements, i);
      var e := a.elements[i];
      Associate(t.constants, if e.Constant? then [e.value] else [], ConstantsOf(a.elements[i + 1..]));
      Associate(t.children, BuildElement(e), BuildAll(a.elements[i + 1..]));
      assert t.constants + [] == t.constants && t.children + [] == t.children;
      match e {
        case Constant(c) => t := t.(constants := t.constants + [c]);
        case Nested(action) =>
          var nested := BuildTree(action);
          t := t.(children := t.children + [nested]);
        case OtherDimension =>
      }
      i := i + 1;
    }
  }

  // ---- pruneTree ----

  function PruneAll(ts: seq<ConstTree>): seq<ConstTree> {
    if ts == [] then [] else (if Barren(ts[0]) then [] else [Prune(ts[0])]) + PruneAll(ts[1..])
  }

  function Prune(t: ConstTree): ConstTree {
    t.(children := PruneAll(t.children))
  }

  /** The result of pruneTree: nothing is left. */
  predicate Barren(t: ConstTree) {
    PruneAll(t.children) == [] && t.constants == []
  }

  lemma PruneFirst(ts: seq<ConstTree>, d: nat)
    requires d < |ts|
    ensures PruneAll(ts[d..]) == (if Barren(ts[d]) then [] else [Prune(ts[d])]) + PruneAll(ts[d + 1..])
  {
    assert ts[d..][0] == ts[d] && ts[d..][1..] == ts[d + 1..];
  }

  method PruneTree(t: ConstTree) returns (gone: bool, r: ConstTree)
    ensures gone == Barren(t) && r == Prune(t)
    decreases t, 1
  {
    var children, childHasConstants := PruneChildren(t);
    r := t.(children := children);
    gone := !childHasConstants && t.constants == [];
  }

  /** The loop of pruneTree: children without constants are erased, the others pruned in place. */
  method PruneChildren(t: ConstTree) returns (children: seq<ConstTree>, childHasConstants: bool)
    ensures children == PruneAll(t.children) && (childHasConstants <==> children != [])
    decreases t, 0
  {
    hide PruneAll, Barren, Prune;
    children, childHasConstants := t.children, false;
    var i := 0;
    assert t.children[0..] == t.children && [] + PruneAll(t.children) == PruneAll(t.children);
    ghost var done := 0;
    while i < |children|
      invariant 0 <= i <= |children| && 0 <= done <= |t.children|
      invariant children[i..] == t.children[done..] && (childHasConstants <==> i > 0)
      invariant children[..i] + PruneAll(t.children[done..]) == PruneAll(t.children)
      decreases |t.children| - done
    {
      assert children[i] == children[i..][0] == t.children[done];
      assert children[i..][1..] == children[i + 1..] && t.children[done..][1..] == t.children[done + 1..];
      PruneFirst(t.children, done);
      var empty, child := PruneTree(children[i]);
      if empty {
        children := children[..i] + children[i + 1..];
      } else {
        children := children[i := child];
        childHasConstants := true;
        i := i + 1;
      }
      done := done + 1;
    }
    assert t.children[done..] == [] && children[..i] == children;
    assert PruneAll([]) == [] by { PruneNone(); }
  }

  lemma PruneNone()
    ensures PruneAll([]) == []
  {
  }

  // ---- gatherObjectTrees ----

  /** The map and what is left of the children after visiting them in order. */
  function GatherAll(m: ObjectTrees, ts: seq<ConstTree>): (ObjectTrees, seq<ConstTree>)
    decreases ts
  {
    if ts == [] then (m, [])
    else
      var (m1, t) := Gather(m, ts[0]);
      var (m2, rest) := GatherAll(m1, ts[1..]);
      (m2, if t.obj.Some? then rest else [t] + rest)
  }

  function Gather(m: ObjectTrees, t: ConstTree): (ObjectTrees, ConstTree)
    decreases t
  {
    var (m1, children) := GatherAll(m, t.children);
    var r := t.(children := children);
    if t.obj.None? then (m1, r)
    else (if Barren(r) || t.obj.value in m1 then m1 else m1[t.obj.value := Prune(r)], Prune(r))
  }

  lemma GatherNone(m: ObjectTrees)
    ensures GatherAll(m, []) == (m, [])
  {
  }

  lemma GatherIs(m: ObjectTrees, t: ConstTree)
    ensures var (m1, children) := GatherAll(m, t.children);
            var r := t.(children := children);
            Gather(m, t) == if t.obj.None? then (m1, r)
                            else (if Barren(r) || t.obj.value in m1 then m1 else m1[t.obj.value := Prune(r)], Prune(r))
  {
  }

  lemma GatherFirst(m: ObjectTrees, ts: seq<ConstTree>)
    requires ts != []
    ensures var (m1, t) := Gather(m, ts[0]);
            && GatherAll(m, ts).0 == GatherAll(m1, ts[1..]).0
            && GatherAll(m, ts).1 == (if ts[0].obj.Some? then [] else [t]) + GatherAll(m1, ts[1..]).1
  {
  }

  method GatherObjectTrees(m: ObjectTrees, t: ConstTree) returns (gone: bool, n: ObjectTrees, r: ConstTree)
    ensures (n, r) == Gather(m, t) && gone == t.obj.Some?
    decreases t
  {
    hide Gather, GatherAll, Barren, Prune;
    n, r := m, t;
    var i := 0;
    assert t.children[0..] == t.children;
    ghost var done := 0;
    while i < |r.children|
      invariant 0 <= i <= |r.children| && 0 <= done <= |t.children|
      invariant r == t.(children := r.children) && r.children[i..] == t.children[done..]
      invariant GatherAll(n, t.children[done..]).0 == GatherAll(m, t.children).0
      invariant r.children[..i] + GatherAll(n, t.children[done..]).1 == GatherAll(m, t.children).1
      decreases |t.children| - done
    {
      assert r.children[i] == r.children[i..][0] == t.children[done];
      assert t.children[done..][1..] == t.children[done + 1..] && r.children[i..][1..] == r.children[i + 1..];
      GatherFirst(n, t.children[done..]);
      var isObject, m1, child := GatherObjectTrees(n, r.children[i]);
      n := m1;
      if isObject {
        r := r.(children := r.children[..i] + r.children[i + 1..]);
      } else {
        r := r.(children := r.children[i := child]);
        i := i + 1;
      }
      done := done + 1;
    }
    assert t.children[done..] == [] && r.children[..i] == r.children;
    GatherNone(n);
    assert r.children[..i] + [] == r.children;
    assert r == t.(children := GatherAll(m, t.children).1);
    GatherIs(m, t);
    gone := t.obj.Some?;
    if gone {
      var empty;
      empty, r := PruneTree(r);
      if !empty && t.obj.value !in n {
        n := n[t.obj.value := r];
      }
    }
  }

  // ---- What the trees must hold ----

  /** The constant occurs in the action and o is its nearest enclosing object; `near` encloses the action. */
  ghost predicate Placed(a: Action, near: nat, c: Const, o: nat)
    decreases a
  {
    var n := if a.obj.Some? then a.obj.value else near;
    exists i :: 0 <= i < |a.elements| && PlacedAt(a.elements[i], n, c, o)
  }

  ghost predicate PlacedAt(e: Element, near: nat, c: Const, o: nat)
    decreases e
  {
    match e
    case Constant(value) => value == c && near == o
    case OtherDimension => false
    case Nested(action) => Placed(action, near, c, o)
  }

  ghost predicate InTree(t: ConstTree, c: Const) {
    c in t.constants || exists i :: 0 <= i < |t.children| && InTree(t.children[i], c)
  }

  /** Every node has a constant at or below it. */
  ghost predicate Fertile(t: ConstTree) {
    (exists c :: InTree(t, c)) && forall i :: 0 <= i < |t.children| ==> Fertile(t.children[i])
  }

  /** The constant is reached without entering another object. */
  ghost predicate Own(t: ConstTree, c: Const) {
    c in t.constants || exists i :: 0 <= i < |t.children| && t.children[i].obj.None? && Own(t.children[i], c)
  }

  /** Some object node of the tree with this object owns the constant. */
  ghost predicate Owned(t: ConstTree, o: nat, c: Const) {
    (t.obj == Some(o) && Own(t, c)) || exists i :: 0 <= i < |t.children| && Owned(t.children[i], o, c)
  }

  // ---- Pruning loses nothing ----

  ghost predicate InAny(ts: seq<ConstTree>, c: Const) {
    exists i :: 0 <= i < |ts| && InTree(ts[i], c)
  }

  lemma InAnySplits(t: ConstTree, ts: seq<ConstTree>, c: Const)
    ensures InAny([t] + ts, c) <==> InTree(t, c) || InAny(ts, c)
  {
    if InTree(t, c) { assert ([t] + ts)[0] == t; }
    if i :| 0 <= i < |ts| && InTree(ts[i], c) { assert ([t] + ts)[i + 1] == ts[i]; }
  }

  lemma {:induction false} PruneKeeps(t: ConstTree, c: Const)
    ensures InTree(Prune(t), c) <==> InTree(t, c)
    ensures Barren(t) ==> !InTree(t, c)
    decreases t
  {
    PruneAllKeeps(t.children, c);
    assert InTree(t, c) <==> c in t.constants || InAny(t.children, c);
    assert InTree(Prune(t), c) <==> c in t.constants || InAny(PruneAll(t.children), c);
  }

  lemma {:induction false} PruneAllKeeps(ts: seq<ConstTree>, c: Const)
    ensures InAny(PruneAll(ts), c) <==> InAny(ts, c)
    decreases ts
  {
    if ts != [] {
      PruneKeeps(ts[0], c);
      PruneAllKeeps(ts[1..], c);
      assert ts == [ts[0]] + ts[1..] && [] + PruneAll(ts[1..]) == PruneAll(ts[1..]);
      InAnySplits(ts[0], ts[1..], c);
      InAnySplits(Prune(ts[0]), PruneAll(ts[1..]), c);
    }
  }

  lemma {:induction false} PruneFertile(t: ConstTree)
    ensures forall i :: 0 <= i < |Prune(t).children| ==> Fertile(Prune(t).children[i])
    ensures !Barren(t) ==> Fertile(Prune(t))
    decreases t, 0
  {
    PruneAllFertile(t.children);
    var r := Prune(t);
    if r.constants != [] {
      assert InTree(r, r.constants[0]);
    } else if r.children != [] {
      assert Fertile(r.children[0]);
      var c :| InTree(r.children[0], c);
      assert InTree(r, c);
    }
  }

  lemma {:induction false} PruneAllFertile(ts: seq<ConstTree>)
    ensures forall i :: 0 <= i < |PruneAll(ts)| ==> Fertile(PruneAll(ts)[i])
    decreases ts
  {
    if ts != [] {
      PruneFertile(ts[0]);
      PruneAllFertile(ts[1..]);
    }
  }

  // ---- Gathering puts every constant in its nearest object's tree ----

  /** The constant is in the tree gathered for the object. */
  ghost predicate Has(m: ObjectTrees, o: nat, c: Const) {
    o in m && InTree(m[o], c)
  }

  ghost predicate OwnIn(ts: seq<ConstTree>, c: Const) {
    exists i :: 0 <= i < |ts| && ts[i].obj.None? && Own(ts[i], c)
  }

  ghost predicate OwnedIn(ts: seq<ConstTree>, o: nat, c: Const) {
    exists i :: 0 <= i < |ts| && Owned(ts[i], o, c)
  }

  lemma SplitIn(t: ConstTree, ts: seq<ConstTree>, o: nat, c: Const)
    ensures OwnIn([t] + ts, c) <==> (t.obj.None? && Own(t, c)) || OwnIn(ts, c)
    ensures OwnedIn([t] + ts, o, c) <==> Owned(t, o, c) || OwnedIn(ts, o, c)
  {
    var s := [t] + ts;
    assert forall i :: 0 <= i < |ts| ==> s[i + 1] == ts[i];
    assert s[0] == t;
  }

  /** The object nodes in the order in which they are gathered, innermost first. */
  function Order(t: ConstTree): seq<ConstTree> {
    OrderAll(t.children) + (if t.obj.Some? then [t] else [])
  }

  function OrderAll(ts: seq<ConstTree>): seq<ConstTree> {
    if ts == [] then [] else Order(ts[0]) + OrderAll(ts[1..])
  }

  ghost predicate Fruitful(t: ConstTree) {
    exists c :: Own(t, c)
  }

  /** The first node of the object that owns a constant. */
  ghost function Chosen(nodes: seq<ConstTree>, o: nat): Option<ConstTree> {
    if nodes == [] then None
    else if nodes[0].obj == Some(o) && Fruitful(nodes[0]) then Some(nodes[0])
    else Chosen(nodes[1..], o)
  }

  lemma {:induction false} ChosenAppend(a: seq<ConstTree>, b: seq<ConstTree>, o: nat)
    ensures Chosen(a + b, o) == if Chosen(a, o).Some? then Chosen(a, o) else Chosen(b, o)
  {
    hide Fruitful;
    if a == [] {
      assert a + b == b;
    } else {
      assert (a + b)[0] == a[0] && (a + b)[1..] == a[1..] + b;
      ChosenAppend(a[1..], b, o);
    }
  }

  lemma {:induction false} ChosenIs(nodes: seq<ConstTree>, o: nat) returns (k: nat)
    ensures Chosen(nodes, o).Some? ==> k < |nodes| && Chosen(nodes, o) == Some(nodes[k])
    ensures k < |nodes| ==> nodes[k].obj == Some(o) && Fruitful(nodes[k])
    ensures forall i :: 0 <= i < |nodes| && nodes[i].obj == Some(o) && Fruitful(nodes[i]) ==> k <= i
  {
    hide Fruitful;
    if nodes == [] || (nodes[0].obj == Some(o) && Fruitful(nodes[0])) {
      k := 0;
    } else {
      var m := ChosenIs(nodes[1..], o);
      k := m + 1;
      forall i | 0 <= i < |nodes| && nodes[i].obj == Some(o) && Fruitful(nodes[i]) ensures k <= i {
        assert nodes[i] == nodes[1..][i - 1];
      }
    }
  }

  /** The tree without the objects nested in it. */
  function Cut(t: ConstTree): ConstTree {
    t.(children := CutAll(t.children))
  }

  function CutAll(ts: seq<ConstTree>): seq<ConstTree> {
    if ts == [] then [] else (if ts[0].obj.Some? then [] else [Cut(ts[0])]) + CutAll(ts[1..])
  }

  /** What is left has the constants reached without entering another object. */
  lemma {:induction false} CutOwn(t: ConstTree, c: Const)
    ensures InTree(Cut(t), c) <==> Own(t, c)
    decreases t
  {
    CutAllOwn(t.children, c);
    assert InTree(Cut(t), c) <==> c in t.constants || InAny(CutAll(t.children), c);
    assert Own(t, c) <==> c in t.constants || OwnIn(t.children, c);
  }

  lemma {:induction false} CutAllOwn(ts: seq<ConstTree>, c: Const)
    ensures InAny(CutAll(ts), c) <==> OwnIn(ts, c)
    decreases ts
  {
    if ts != [] {
      CutOwn(ts[0], c);
      CutAllOwn(ts[1..], c);
      assert ts == [ts[0]] + ts[1..] && [] + CutAll(ts[1..]) == CutAll(ts[1..]);
      SplitIn(ts[0], ts[1..], 0, c);
      InAnySplits(Cut(ts[0]), CutAll(ts[1..]), c);
    }
  }

  /** Gathering leaves a tree cut, and that of an object pruned. */
  lemma {:induction false} GatherCuts(m: ObjectTrees, t: ConstTree)
    ensures Gather(m, t).1 == if t.obj.None? then Cut(t) else Prune(Cut(t))
    ensures t.(children := GatherAll(m, t.children).1) == Cut(t)
    decreases t
  {
    hide Prune, Barren;
    GatherAllCuts(m, t.children);
  }

  lemma {:induction false} GatherAllCuts(m: ObjectTrees, ts: seq<ConstTree>)
    ensures GatherAll(m, ts).1 == CutAll(ts)
    decreases ts
  {
    hide Gather;
    if ts != [] {
      GatherCuts(m, ts[0]);
      GatherAllCuts(Gather(m, ts[0]).0, ts[1..]);
      assert [] + CutAll(ts[1..]) == CutAll(ts[1..]);
    }
  }

  /** The map after gathering some object nodes: what was there stays, and each object gets its first fruitful node. */
  ghost predicate Gathered(m: ObjectTrees, n: ObjectTrees, nodes: seq<ConstTree>) {
    forall o ::
      if o in m then o in n && n[o] == m[o]
      else
        && (o in n <==> Chosen(nodes, o).Some?)
        && (o in n ==> n[o] == Prune(Cut(Chosen(nodes, o).value)))
  }

  lemma GatheredTwice(m: ObjectTrees, mid: ObjectTrees, n: ObjectTrees, a: seq<ConstTree>, b: seq<ConstTree>)
    requires Gathered(m, mid, a) && Gathered(mid, n, b)
    ensures Gathered(m, n, a + b)
  {
    hide Prune, Cut, Chosen;
    forall o { ChosenAppend(a, b, o); }
  }

  lemma {:induction false} GatherChooses(m: ObjectTrees, t: ConstTree)
    ensures Gathered(m, Gather(m, t).0, Order(t))
    decreases t
  {
    hide Order, Gathered;
    GatherAllChooses(m, t.children);
    GatherIs(m, t);
    var (m1, children) := GatherAll(m, t.children);
    OrderIs(t);
    if t.obj.Some? {
      NodeGathered(m, m1, t, children);
      GatheredTwice(m, m1, Gather(m, t).0, OrderAll(t.children), [t]);
    } else {
      assert OrderAll(t.children) + [] == OrderAll(t.children);
    }
  }

  lemma OrderIs(t: ConstTree)
    ensures Order(t) == OrderAll(t.children) + (if t.obj.Some? then [t] else [])
  {
  }

  /** The last step of gathering an object node. */
  lemma NodeGathered(m: ObjectTrees, m1: ObjectTrees, t: ConstTree, children: seq<ConstTree>)
    requires t.obj.Some? && GatherAll(m, t.children) == (m1, children)
    ensures Gathered(m1, Gather(m, t).0, [t])
  {
    hide Prune, Barren, GatherAll, Cut;
    GatherCuts(m, t);
    var r := Cut(t);
    GatherIs(m, t);
    FruitfulIff(t);
    forall o: nat ensures Chosen([t], o) == if t.obj == Some(o) && Fruitful(t) then Some(t) else None {
      assert [t][1..] == [];
    }
  }

  lemma FruitfulIff(t: ConstTree)
    ensures Barren(Cut(t)) <==> !Fruitful(t)
    ensures Fruitful(t) ==> Fertile(Prune(Cut(t)))
  {
    var r := Cut(t);
    forall c ensures InTree(r, c) <==> Own(t, c) {
      CutOwn(t, c);
    }
    forall c ensures (InTree(Prune(r), c) <==> InTree(r, c)) && (Barren(r) ==> !InTree(r, c)) {
      PruneKeeps(r, c);
    }
    PruneFertile(r);
    if !Barren(r) {
      var c :| InTree(Prune(r), c);
      assert Own(t, c);
    }
  }

  lemma {:induction false} GatherAllChooses(m: ObjectTrees, ts: seq<ConstTree>)
    ensures Gathered(m, GatherAll(m, ts).0, OrderAll(ts))
    decreases ts
  {
    hide Gathered;
    if ts == [] {
      NothingGathered(m);
    } else {
      var m1 := Gather(m, ts[0]).0;
      GatherChooses(m, ts[0]);
      GatherAllChooses(m1, ts[1..]);
      GatheredTwice(m, m1, GatherAll(m1, ts[1..]).0, Order(ts[0]), OrderAll(ts[1..]));
    }
  }

  lemma NothingGathered(m: ObjectTrees)
    ensures Gathered(m, m, [])
  {
  }

  // ---- The owners of a constant ----

  ghost predicate OwnerIn(nodes: seq<ConstTree>, o: nat, c: Const) {
    exists i :: 0 <= i < |nodes| && nodes[i].obj == Some(o) && Own(nodes[i], c)
  }

  lemma OwnerSplits(a: seq<ConstTree>, b: seq<ConstTree>, o: nat, c: Const)
    ensures OwnerIn(a + b, o, c) <==> OwnerIn(a, o, c) || OwnerIn(b, o, c)
  {
    hide Own;
    if i :| 0 <= i < |a| && a[i].obj == Some(o) && Own(a[i], c) { assert (a + b)[i] == a[i]; }
    if i :| 0 <= i < |b| && b[i].obj == Some(o) && Own(b[i], c) { assert (a + b)[|a| + i] == b[i]; }
  }

  lemma {:induction false} OwnedInOrder(t: ConstTree, o: nat, c: Const)
    ensures Owned(t, o, c) <==> OwnerIn(Order(t), o, c)
    decreases t
  {
    OwnedInOrderAll(t.children, o, c);
    var last := if t.obj.Some? then [t] else [];
    OwnerSplits(OrderAll(t.children), last, o, c);
    assert OwnerIn(last, o, c) <==> t.obj == Some(o) && Own(t, c) by {
      if t.obj == Some(o) && Own(t, c) { assert last[0] == t; }
    }
    assert Owned(t, o, c) <==> (t.obj == Some(o) && Own(t, c)) || OwnedIn(t.children, o, c);
  }

  lemma {:induction false} OwnedInOrderAll(ts: seq<ConstTree>, o: nat, c: Const)
    ensures OwnedIn(ts, o, c) <==> OwnerIn(OrderAll(ts), o, c)
    decreases ts
  {
    if ts != [] {
      OwnedInOrder(ts[0], o, c);
      OwnedInOrderAll(ts[1..], o, c);
      OwnerSplits(Order(ts[0]), OrderAll(ts[1..]), o, c);
      assert ts == [ts[0]] + ts[1..];
      SplitIn(ts[0], ts[1..], o, c);
    }
  }

  // ---- Building keeps the nearest object ----

  lemma {:induction false} BuildPlaces(a: Action, near: nat, c: Const, o: nat)
    ensures Placed(a, near, c, o) <==> Owned(Build(a), o, c) || (a.obj.None? && near == o && Own(Build(a), c))
    decreases a
  {
    var n := if a.obj.Some? then a.obj.value else near;
    var t := Build(a);
    BuildAllPlaces(a.elements, n, c, o);
    assert Own(t, c) <==> c in t.constants || OwnIn(t.children, c);
    assert Owned(t, o, c) <==> (t.obj == Some(o) && Own(t, c)) || OwnedIn(t.children, o, c);
  }

  ghost predicate PlacedIn(es: seq<Element>, near: nat, c: Const, o: nat) {
    exists i :: 0 <= i < |es| && PlacedAt(es[i], near, c, o)
  }

  lemma {:induction false} BuildAllPlaces(es: seq<Element>, near: nat, c: Const, o: nat)
    ensures PlacedIn(es, near, c, o) <==>
            OwnedIn(BuildAll(es), o, c) || (near == o && (c in ConstantsOf(es) || OwnIn(BuildAll(es), c)))
    decreases es
  {
    if es != [] {
      var e, rest := es[0], es[1..];
      BuildAllPlaces(rest, near, c, o);
      PlacedSplits(e, rest, near, c, o);
      assert es == [e] + rest;
      ElementPlaces(e, near, c, o);
      assert ConstantsOf(es) == (if e.Constant? then [e.value] else []) + ConstantsOf(rest);
      assert c in ConstantsOf(es) <==> (e.Constant? && c == e.value) || c in ConstantsOf(rest);
      if e.Nested? {
        assert BuildAll(es) == [Build(e.action)] + BuildAll(rest);
        SplitIn(Build(e.action), BuildAll(rest), o, c);
      } else {
        assert BuildAll(es) == [] + BuildAll(rest) == BuildAll(rest);
      }
    }
  }

  lemma {:induction false} ElementPlaces(e: Element, near: nat, c: Const, o: nat)
    ensures e.Nested? ==>
              var t := Build(e.action);
              (PlacedAt(e, near, c, o) <==> Owned(t, o, c) || (t.obj.None? && near == o && Own(t, c)))
    decreases e
  {
    if e.Nested? {
      BuildPlaces(e.action, near, c, o);
    }
  }

  lemma PlacedSplits(e: Element, es: seq<Element>, near: nat, c: Const, o: nat)
    ensures PlacedIn([e] + es, near, c, o) <==> PlacedAt(e, near, c, o) || PlacedIn(es, near, c, o)
  {
    var s := [e] + es;
    assert s[0] == e && forall i :: 0 <= i < |es| ==> s[i + 1] == es[i];
  }

  // ---- The partition ----

  /** What generateConfigIO gathers for the component's root action. */
  function ObjectTreesOf(root: Action): ObjectTrees {
    Gather(map[], Build(root)).0
  }

  /** Each object gets the first of its nodes that owns a constant, without the objects nested in it and pruned. */
  lemma TreeOfObject(root: Action, o: nat)
    ensures var first := Chosen(Order(Build(root)), o);
            && (o in ObjectTreesOf(root) <==> first.Some?)
            && (first.Some? ==> ObjectTreesOf(root)[o] == Prune(Cut(first.value)))
  {
    hide Gather, Build, Order, Chosen, Prune, Cut;
    GatherChooses(map[], Build(root));
  }

  /**
   The tree of an object holds the constants owned by the first of its nodes, in the order of gathering, that owns
   any; and no tree has a node without a constant at or below it.
   */
  lemma TreeIsFirstFruitful(root: Action, o: nat, c: Const)
    ensures var first := Chosen(Order(Build(root)), o);
            Has(ObjectTreesOf(root), o, c) <==> first.Some? && Own(first.value, c)
    ensures o in ObjectTreesOf(root) ==> Fertile(ObjectTreesOf(root)[o])
  {
    hide ObjectTreesOf, Build, Order, Chosen, Fertile, Own, InTree, Prune, Cut;
    TreeOfObject(root, o);
    var nodes := Order(Build(root));
    var k := ChosenIs(nodes, o);
    if Chosen(nodes, o).Some? {
      CutOwn(nodes[k], c);
      PruneKeeps(Cut(nodes[k]), c);
      FruitfulIff(nodes[k]);
    }
  }

  /** At most one node of each object owns constants. */
  ghost predicate OneEach(nodes: seq<ConstTree>) {
    forall i, j :: 0 <= i < j < |nodes| && nodes[i].obj.Some? && nodes[i].obj == nodes[j].obj ==>
      !(Fruitful(nodes[i]) && Fruitful(nodes[j]))
  }

  /** A constant is in the tree of its nearest enclosing object and in no other. */
  ghost predicate Divided(root: Action, near: nat) {
    forall o, c :: Has(ObjectTreesOf(root), o, c) <==> Placed(root, near, c, o)
  }

  /** Only nearest enclosing objects get a constant. */
  lemma HasIsPlaced(root: Action, o: nat, c: Const, near: nat)
    requires root.obj.Some?
    ensures Has(ObjectTreesOf(root), o, c) ==> Placed(root, near, c, o)
    ensures Placed(root, near, c, o) <==> OwnerIn(Order(Build(root)), o, c)
  {
    hide ObjectTreesOf, Has, Order, Build, Own, Placed, Owned;
    TreeIsFirstFruitful(root, o, c);
    var nodes := Order(Build(root));
    BuildPlaces(root, near, c, o);
    OwnedInOrder(Build(root), o, c);
    BuildRoot(root);
    var k := ChosenIs(nodes, o);
    if Has(ObjectTreesOf(root), o, c) {
      assert nodes[k].obj == Some(o) && Own(nodes[k], c);
    }
  }

  lemma BuildRoot(root: Action)
    ensures Build(root).obj == root.obj
  {
  }

  /** When every object has at most one node that owns constants, the constants are partitioned. */
  lemma ConstantsArePartitioned(root: Action, near: nat)
    requires root.obj.Some? && OneEach(Order(Build(root)))
    ensures Divided(root, near)
  {
    hide ObjectTreesOf, Has, Order, Build, Own, Placed;
    forall o: nat, c ensures Has(ObjectTreesOf(root), o, c) <==> Placed(root, near, c, o) {
      HasIsPlaced(root, o, c, near);
      TreeIsFirstFruitful(root, o, c);
      if OwnerIn(Order(Build(root)), o, c) { OnlyOwner(Order(Build(root)), o, c); }
    }
  }

  lemma OnlyOwner(nodes: seq<ConstTree>, o: nat, c: Const)
    requires OneEach(nodes) && OwnerIn(nodes, o, c)
    ensures Chosen(nodes, o).Some? && Own(Chosen(nodes, o).value, c)
  {
    hide Own;
    var i :| 0 <= i < |nodes| && nodes[i].obj == Some(o) && Own(nodes[i], c);
    assert Fruitful(nodes[i]);
    var k := ChosenIs(nodes, o);
    FruitfulChosen(nodes, o, i);
    assert k == i;
  }

  lemma {:induction false} FruitfulChosen(nodes: seq<ConstTree>, o: nat, i: nat)
    requires i < |nodes| && nodes[i].obj == Some(o) && Fruitful(nodes[i])
    ensures Chosen(nodes, o).Some?
  {
    hide Fruitful;
    if !(nodes[0].obj == Some(o) && Fruitful(nodes[0])) {
      FruitfulChosen(nodes[1..], o, i - 1);
    }
  }

  // ---- Constants that occur once ----

  function Consts(t: ConstTree): set<Const> {
    (set c | c in t.constants) + AllConsts(t.children)
  }

  function AllConsts(ts: seq<ConstTree>): set<Const> {
    if ts == [] then {} else Consts(ts[0]) + AllConsts(ts[1..])
  }

  /** Every constant occurs in one place only. */
  predicate Separate(t: ConstTree) {
    (forall c :: c in t.constants ==> c !in AllConsts(t.children)) && AllSeparate(t.children)
  }

  predicate AllSeparate(ts: seq<ConstTree>) {
    ts == [] || (Separate(ts[0]) && Consts(ts[0]) !! AllConsts(ts[1..]) && AllSeparate(ts[1..]))
  }

  lemma {:induction false} OwnIsConst(t: ConstTree, c: Const)
    ensures Own(t, c) ==> c in Consts(t)
    decreases t
  {
    if Own(t, c) && c !in t.constants {
      OwnInIsConst(t.children, c);
    }
  }

  lemma {:induction false} OwnInIsConst(ts: seq<ConstTree>, c: Const)
    requires OwnIn(ts, c)
    ensures c in AllConsts(ts)
    decreases ts
  {
    var i :| 0 <= i < |ts| && ts[i].obj.None? && Own(ts[i], c);
    if i == 0 {
      OwnIsConst(ts[0], c);
    } else {
      assert ts[1..][i - 1] == ts[i];
      OwnInIsConst(ts[1..], c);
    }
  }

  lemma {:induction false} NodeConsts(t: ConstTree, u: ConstTree, c: Const)
    requires u in Order(t) && Own(u, c)
    ensures c in Consts(t)
    decreases t
  {
    if u in OrderAll(t.children) {
      NodesConsts(t.children, u, c);
    } else {
      OwnIsConst(t, c);
    }
  }

  lemma {:induction false} NodesConsts(ts: seq<ConstTree>, u: ConstTree, c: Const)
    requires u in OrderAll(ts) && Own(u, c)
    ensures c in AllConsts(ts)
    decreases ts
  {
    if u in Order(ts[0]) {
      NodeConsts(ts[0], u, c);
    } else {
      NodesConsts(ts[1..], u, c);
    }
  }

  /** No node below owns a constant reached without entering an object. */
  lemma {:induction false} OwnIsNotBelow(t: ConstTree, u: ConstTree, c: Const)
    requires Separate(t) && Own(t, c) && u in OrderAll(t.children)
    ensures !Own(u, c)
    decreases t
  {
    if Own(u, c) {
      NodesConsts(t.children, u, c);
      assert c !in t.constants;
      OwnInIsNotBelow(t.children, u, c);
    }
  }

  lemma {:induction false} OwnInIsNotBelow(ts: seq<ConstTree>, u: ConstTree, c: Const)
    requires AllSeparate(ts) && OwnIn(ts, c) && u in OrderAll(ts)
    ensures !Own(u, c)
    decreases ts
  {
    if Own(u, c) {
      var i :| 0 <= i < |ts| && ts[i].obj.None? && Own(ts[i], c);
      if i == 0 {
        OwnIsConst(ts[0], c);
        if u in OrderAll(ts[1..]) {
          NodesConsts(ts[1..], u, c);
        } else {
          OwnIsNotBelow(ts[0], u, c);
        }
      } else {
        assert ts[1..][i - 1] == ts[i];
        OwnInIsConst(ts[1..], c);
        if u in Order(ts[0]) {
          NodeConsts(ts[0], u, c);
        } else {
          OwnInIsNotBelow(ts[1..], u, c);
        }
      }
    }
  }

  ghost predicate OwnersDiffer(nodes: seq<ConstTree>) {
    forall i, j, c :: 0 <= i < j < |nodes| && Own(nodes[i], c) ==> !Own(nodes[j], c)
  }

  lemma {:induction false} SeparateOwners(t: ConstTree)
    requires Separate(t)
    ensures OwnersDiffer(Order(t))
    decreases t
  {
    hide Own;
    SeparateOwnersAll(t.children);
    var nodes := Order(t);
    forall i, j, c | 0 <= i < j < |nodes| && Own(nodes[i], c) ensures !Own(nodes[j], c) {
      if j == |OrderAll(t.children)| && Own(t, c) {
        OwnIsNotBelow(t, nodes[i], c);
      }
    }
  }

  lemma {:induction false} SeparateOwnersAll(ts: seq<ConstTree>)
    requires AllSeparate(ts)
    ensures OwnersDiffer(OrderAll(ts))
    decreases ts
  {
    hide Own;
    if ts != [] {
      SeparateOwners(ts[0]);
      SeparateOwnersAll(ts[1..]);
      var fore, late := Order(ts[0]), OrderAll(ts[1..]);
      var nodes := OrderAll(ts);
      forall i, j, c | 0 <= i < j < |nodes| && Own(nodes[i], c) ensures !Own(nodes[j], c) {
        if i < |fore| <= j && Own(nodes[j], c) {
          NodeConsts(ts[0], nodes[i], c);
          NodesConsts(ts[1..], nodes[j], c);
        }
        assert i >= |fore| ==> nodes[i] == late[i - |fore|] && nodes[j] == late[j - |fore|];
      }
    }
  }

  /** Of constants that occur once none is lost exactly when every object has at most one node that owns any. */
  lemma NothingIsLostIff(root: Action, near: nat)
    requires root.obj.Some? && Separate(Build(root))
    ensures Divided(root, near) <==> OneEach(Order(Build(root)))
  {
    hide ObjectTreesOf, Has, Order, Build, Own, Placed, Separate;
    var nodes := Order(Build(root));
    if OneEach(nodes) {
      ConstantsArePartitioned(root, near);
    } else {
      var i, j :| 0 <= i < j < |nodes| && nodes[i].obj.Some? && nodes[i].obj == nodes[j].obj && Fruitful(nodes[i])
        && Fruitful(nodes[j]);
      var o, c := LostConstant(root, i, j);
      HasIsPlaced(root, o, c, near);
    }
  }

  /** The constants of any but the first fruitful node of an object are in no tree. */
  lemma LostConstant(root: Action, i: nat, j: nat) returns (o: nat, c: Const)
    requires root.obj.Some? && Separate(Build(root)) && i < j < |Order(Build(root))|
    requires var nodes := Order(Build(root));
             nodes[i].obj.Some? && nodes[i].obj == nodes[j].obj && Fruitful(nodes[i]) && Fruitful(nodes[j])
    ensures OwnerIn(Order(Build(root)), o, c) && !Has(ObjectTreesOf(root), o, c)
  {
    hide ObjectTreesOf, Has, Order, Build, Own, Separate;
    var nodes := Order(Build(root));
    o := nodes[i].obj.value;
    var k := ChosenIs(nodes, o);
    c :| Own(nodes[j], c);
    SeparateOwners(Build(root));
    assert !Own(nodes[k], c);
    TreeIsFirstFruitful(root, o, c);
  }

  /** The smallest such tree: two actions with one object context and a constant each. */
  lemma SharedObjectLosesConstants(root: nat, shared: nat, first: Const, second: Const, near: nat)
    requires root != shared && first != second
    ensures var a := Action(Some(root), 0, "", 1, [Nested(Action(Some(shared), 1, "", 1, [Constant(first)])),
                                                   Nested(Action(Some(shared), 2, "", 1, [Constant(second)]))]);
            Placed(a, near, second, shared) && !Has(ObjectTreesOf(a), shared, second) && !Divided(a, near)
  {
    hide Has, ObjectTreesOf, Order, Build, Chosen, Own, Placed;
    var a1, a2 := Action(Some(shared), 1, "", 1, [Constant(first)]), Action(Some(shared), 2, "", 1, [Constant(second)]);
    var t1, t2 := ConstTree(Some(shared), 1, "", 1, [first], []), ConstTree(Some(shared), 2, "", 1, [second], []);
    var a := Action(Some(root), 0, "", 1, [Nested(a1), Nested(a2)]);
    IsPlaced(a, a2, second, near);
    TwoLeaves(a, a1, a2, t1, t2, first, second);
    LeafOwns(t1, first, first);
    LeafOwns(t1, first, second);
    FirstChosen(t1, Order(Build(a)), shared);
    TreeIsFirstFruitful(a, shared, second);
    assert !Own(t1, second);
  }

  lemma IsPlaced(a: Action, last: Action, c: Const, near: nat)
    requires a.obj.Some? && |a.elements| == 2 && a.elements[1] == Nested(last)
    requires last.obj.Some? && last.elements == [Constant(c)]
    ensures Placed(a, near, c, last.obj.value)
  {
    assert PlacedAt(last.elements[0], last.obj.value, c, last.obj.value);
    assert PlacedAt(a.elements[1], a.obj.value, c, last.obj.value);
  }

  lemma {:induction false} LeafOwns(t: ConstTree, c: Const, d: Const)
    requires t.constants == [c] && t.children == []
    ensures Own(t, d) <==> d == c
  {
  }

  lemma {:induction false} FirstChosen(t: ConstTree, nodes: seq<ConstTree>, o: nat)
    requires nodes != [] && nodes[0] == t && t.obj == Some(o) && Fruitful(t)
    ensures Chosen(nodes, o) == Some(t)
  {
  }

  lemma {:induction false} TwoLeaves(a: Action, a1: Action, a2: Action, t1: ConstTree, t2: ConstTree, c1: Const,
                                     c2: Const)
    requires a.obj.Some? && a.elements == [Nested(a1), Nested(a2)] && a1.obj.Some? && a2.obj.Some?
    requires a1.elements == [Constant(c1)] && t1 == ConstTree(a1.obj, a1.id, a1.name, a1.domain, [c1], [])
    requires a2.elements == [Constant(c2)] && t2 == ConstTree(a2.obj, a2.id, a2.name, a2.domain, [c2], [])
    ensures Order(Build(a)) == [t1, t2, Build(a)]
  {
    var es := a.elements;
    Leaf(a1, t1, c1);
    Leaf(a2, t2, c2);
    assert es[1..] == [Nested(a2)] && es[1..][1..] == [];
    assert BuildAll(es[1..]) == [t2] + BuildAll([]) == [t2];
    assert BuildAll(es) == [t1] + BuildAll(es[1..]) == [t1, t2];
    assert [t1, t2][1..] == [t2] && [t2][1..] == [];
    assert OrderAll([t2]) == [t2] + [] && OrderAll([t1, t2]) == [t1] + [t2];
    assert Order(Build(a)) == [t1, t2] + [Build(a)];
  }

  lemma {:induction false} Leaf(a: Action, t: ConstTree, c: Const)
    requires a.obj.Some? && a.elements == [Constant(c)] && t == ConstTree(a.obj, a.id, a.name, a.domain, [c], [])
    ensures Build(a) == t && Order(t) == [t]
  {
    assert a.elements[1..] == [] && [c] + [] == [c];
    assert ConstantsOf(a.elements) == [c] && BuildAll(a.elements) == [];
    assert [] + [t] == [t];
  }
}
