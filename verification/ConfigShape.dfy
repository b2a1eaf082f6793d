/**
 The shape and the order of what buildTree, pruneTree and gatherObjectTrees leave behind
 (src/generators/configio_generator.cpp:105-190): the constants and the nested actions stay in the order in which the
 program lists them, and an object's tree comes from its first node, innermost and leftmost first.
 */
module ConfigShape {
  import opened Prelude
  import opened ConfigTree

  // ---- What is built ----

  predicate Rising(at: seq<nat>) {
    forall x, y :: 0 <= x < y < |at| ==> at[x] < at[y]
  }

  /** The indices of the constants among the elements. */
  ghost predicate ConstantsAt(es: seq<Element>, at: seq<nat>) {
    Rising(at) && forall i: nat :: i in at <==> i < |es| && es[i].Constant?
  }

  ghost predicate NestedAt(es: seq<Element>, at: seq<nat>) {
    Rising(at) && forall i: nat :: i in at <==> i < |es| && es[i].Nested?
  }

  /** The tree lists the action's constants and nested actions, each in order, and leaves the other dimensions out. */
  ghost predicate Mirrors(a: Action, t: ConstTree)
    decreases a
  {
    && t.obj == a.obj && t.id == a.id && t.name == a.name && t.domain == a.domain
    && (exists at: seq<nat> :: ConstantsAt(a.elements, at) && Lists(a.elements, at, t.constants))
    && (exists at: seq<nat> :: NestedAt(a.elements, at) && MirrorsAll(a.elements, at, t.children))
  }

  ghost predicate Lists(es: seq<Element>, at: seq<nat>, cs: seq<Const>) {
    |cs| == |at| && forall x :: 0 <= x < |at| ==> at[x] < |es| && es[at[x]] == Constant(cs[x])
  }

  ghost predicate MirrorsAll(es: seq<Element>, at: seq<nat>, ts: seq<ConstTree>)
    decreases es
  {
    && |ts| == |at|
    && forall x :: 0 <= x < |at| ==> at[x] < |es| && es[at[x]].Nested? && MirrorsElement(es[at[x]], ts[x])
  }

  ghost predicate MirrorsElement(e: Element, t: ConstTree)
    decreases e
  {
    e.Nested? && Mirrors(e.action, t)
  }

  /** The indices one place further on, after index 0 if it is wanted. */
  function Shifted(at: seq<nat>, zero: bool): seq<nat> {
    var moved := seq(|at|, x requires 0 <= x < |at| => at[x] + 1);
    if zero then [0] + moved else moved
  }

  lemma ShiftedIs(at: seq<nat>, zero: bool)
    requires Rising(at)
    ensures Rising(Shifted(at, zero))
    ensures forall i: nat :: i in Shifted(at, zero) <==> if i == 0 then zero else i - 1 in at
  {
    var r := Shifted(at, zero);
    var moved: seq<nat> := seq(|at|, x requires 0 <= x < |at| => at[x] + 1);
    forall i: nat ensures i in moved <==> i > 0 && i - 1 in at {
      if i > 0 && i - 1 in at {
        var x :| 0 <= x < |at| && at[x] == i - 1;
        assert moved[x] == i;
      }
    }
    if zero {
      assert r == [0] + moved;
    } else {
      assert r == moved;
    }
  }

  lemma ShiftedAt(at: seq<nat>, zero: bool)
    ensures var first := if zero then 1 else 0;
            && |Shifted(at, zero)| == |at| + first && (zero ==> Shifted(at, zero)[0] == 0)
            && forall y :: first <= y < |at| + first ==> Shifted(at, zero)[y] == at[y - first] + 1
  {
  }

  lemma {:induction false} ConstantsListed(es: seq<Element>) returns (at: seq<nat>)
    ensures ConstantsAt(es, at) && Lists(es, at, ConstantsOf(es))
  {
    hide ConstantsAt, Lists;
    at := [];
    if es == [] {
      NothingListed();
    } else {
      var rest := ConstantsListed(es[1..]);
      at := Shifted(rest, es[0].Constant?);
      ConstantFirst(es, rest);
    }
  }

  lemma NothingListed()
    ensures ConstantsAt([], []) && Lists([], [], []) && NestedAt([], []) && MirrorsAll([], [], [])
  {
  }

  lemma ConstantFirst(es: seq<Element>, rest: seq<nat>)
    requires es != [] && ConstantsAt(es[1..], rest) && Lists(es[1..], rest, ConstantsOf(es[1..]))
    ensures ConstantsAt(es, Shifted(rest, es[0].Constant?))
    ensures Lists(es, Shifted(rest, es[0].Constant?), ConstantsOf(es))
  {
    hide Lists, ConstantsOf, Rising, Shifted;
    ShiftedIs(rest, es[0].Constant?);
    ConstantListed(es, rest, ConstantsOf(es[1..]));
    assert ConstantsOf(es) == (if es[0].Constant? then [es[0].value] else []) + ConstantsOf(es[1..]) by {
      BuildFirst(es, 0);
      assert es[0..] == es;
    }
  }

  lemma ConstantListed(es: seq<Element>, rest: seq<nat>, cs: seq<Const>)
    requires es != [] && Lists(es[1..], rest, cs)
    ensures Lists(es, Shifted(rest, es[0].Constant?), (if es[0].Constant? then [es[0].value] else []) + cs)
  {
    hide Shifted;
    ShiftedAt(rest, es[0].Constant?);
  }

  lemma {:induction false} BuildMirrors(a: Action)
    ensures Mirrors(a, Build(a))
    decreases a
  {
    hide ConstantsAt, NestedAt, Lists, MirrorsAll;
    var constants := ConstantsListed(a.elements);
    var nested := ElementsMirrored(a.elements);
  }

  lemma {:induction false} ElementsMirrored(es: seq<Element>) returns (at: seq<nat>)
    ensures NestedAt(es, at) && MirrorsAll(es, at, BuildAll(es))
    decreases es
  {
    hide Mirrors, NestedAt, MirrorsAll;
    at := [];
    if es == [] {
      NothingListed();
    } else {
      var rest := ElementsMirrored(es[1..]);
      ElementMirrored(es[0]);
      at := Shifted(rest, es[0].Nested?);
      NestedFirst(es, rest, BuildElement(es[0]), BuildAll(es[1..]));
    }
  }

  lemma NestedFirst(es: seq<Element>, rest: seq<nat>, first: seq<ConstTree>, ts: seq<ConstTree>)
    requires es != [] && NestedAt(es[1..], rest) && MirrorsAll(es[1..], rest, ts)
    requires if es[0].Nested? then |first| == 1 && MirrorsElement(es[0], first[0]) else first == []
    ensures NestedAt(es, Shifted(rest, es[0].Nested?))
    ensures MirrorsAll(es, Shifted(rest, es[0].Nested?), first + ts)
  {
    hide Rising, Shifted, MirrorsElement;
    ShiftedIs(rest, es[0].Nested?);
    ShiftedAt(rest, es[0].Nested?);
    assert NestedAt(es, Shifted(rest, es[0].Nested?)) by { hide MirrorsAll; }
    assert MirrorsAll(es, Shifted(rest, es[0].Nested?), first + ts) by { hide NestedAt; }
  }

  lemma {:induction false} ElementMirrored(e: Element)
    ensures e.Nested? ==> BuildElement(e) == [Build(e.action)] && MirrorsElement(e, Build(e.action))
    ensures !e.Nested? ==> BuildElement(e) == []
    decreases e
  {
    hide Mirrors, Build;
    if e.Nested? {
      BuildMirrors(e.action);
    }
  }

  // ---- What is left of an object ----

  /** A child stays when it is no object and a constant can be reached in it without entering one. */
  ghost predicate Stays(t: ConstTree) {
    t.obj.None? && exists c :: Own(t, c)
  }

  ghost predicate StayAt(ts: seq<ConstTree>, at: seq<nat>) {
    Rising(at) && forall i: nat :: i in at <==> i < |ts| && Stays(ts[i])
  }

  /** The node as it was, with the children that stay in their order, each trimmed likewise. */
  ghost predicate Trimmed(t: ConstTree, r: ConstTree)
    decreases t
  {
    && r.obj == t.obj && r.id == t.id && r.name == t.name && r.domain == t.domain && r.constants == t.constants
    && exists at: seq<nat> :: StayAt(t.children, at) && TrimmedAll(t.children, at, r.children)
  }

  ghost predicate TrimmedAll(ts: seq<ConstTree>, at: seq<nat>, rs: seq<ConstTree>)
    decreases ts
  {
    |rs| == |at| && forall x :: 0 <= x < |at| ==> at[x] < |ts| && Trimmed(ts[at[x]], rs[x])
  }

  lemma {:induction false} TrimIs(t: ConstTree)
    ensures Trimmed(t, Prune(Cut(t)))
    decreases t
  {
    hide StayAt, TrimmedAll;
    var at := ChildrenTrimmed(t.children);
  }

  lemma {:induction false} ChildrenTrimmed(ts: seq<ConstTree>) returns (at: seq<nat>)
    ensures StayAt(ts, at) && TrimmedAll(ts, at, PruneAll(CutAll(ts)))
    decreases ts
  {
    hide Trimmed, Prune, Cut, Barren, Stays, StayAt, TrimmedAll;
    at := [];
    if ts == [] {
      NothingStays();
    } else {
      var rest := ChildrenTrimmed(ts[1..]);
      FirstChild(ts);
      TrimIs(ts[0]);
      at := Shifted(rest, Stays(ts[0]));
      TrimmedFirst(ts, rest, if Stays(ts[0]) then [Prune(Cut(ts[0]))] else [], PruneAll(CutAll(ts[1..])));
    }
  }

  lemma NothingStays()
    ensures StayAt([], []) && TrimmedAll([], [], PruneAll(CutAll([])))
  {
  }

  lemma TrimmedFirst(ts: seq<ConstTree>, rest: seq<nat>, first: seq<ConstTree>, rs: seq<ConstTree>)
    requires ts != [] && StayAt(ts[1..], rest) && TrimmedAll(ts[1..], rest, rs)
    requires if Stays(ts[0]) then |first| == 1 && Trimmed(ts[0], first[0]) else first == []
    ensures StayAt(ts, Shifted(rest, Stays(ts[0]))) && TrimmedAll(ts, Shifted(rest, Stays(ts[0])), first + rs)
  {
    hide Rising, Shifted, Trimmed, Stays;
    ShiftedIs(rest, Stays(ts[0]));
    ShiftedAt(rest, Stays(ts[0]));
    assert StayAt(ts, Shifted(rest, Stays(ts[0]))) by { hide TrimmedAll; }
    assert TrimmedAll(ts, Shifted(rest, Stays(ts[0])), first + rs) by { hide StayAt; }
  }

  lemma FirstChild(ts: seq<ConstTree>)
    requires ts != []
    ensures PruneAll(CutAll(ts)) == (if Stays(ts[0]) then [Prune(Cut(ts[0]))] else []) + PruneAll(CutAll(ts[1..]))
  {
    hide Prune, Cut, Barren;
    FruitfulIff(ts[0]);
    if ts[0].obj.Some? {
      assert CutAll(ts) == CutAll(ts[1..]);
    } else {
      assert CutAll(ts)[0] == Cut(ts[0]) && CutAll(ts)[1..] == CutAll(ts[1..]);
    }
  }

  // ---- Which node an object's tree comes from ----

  /** The node reached by these child indices. */
  function NodeAt(t: ConstTree, path: seq<nat>): Option<ConstTree> {
    if path == [] then Some(t)
    else if path[0] < |t.children| then NodeAt(t.children[path[0]], path[1..])
    else None
  }

  /** A node of the object that owns a constant. */
  ghost predicate OwnsAt(t: ConstTree, path: seq<nat>, o: nat) {
    var u := NodeAt(t, path);
    u.Some? && u.value.obj == Some(o) && exists c :: Own(u.value, c)
  }

  /** Inside before outside, left before right. */
  predicate Before(p: seq<nat>, q: seq<nat>)
    decreases |p|
  {
    if q == [] then p != []
    else p != [] && (p[0] < q[0] || (p[0] == q[0] && Before(p[1..], q[1..])))
  }

  lemma BeforeIs(p: seq<nat>, q: seq<nat>)
    requires p != []
    ensures Before(p, q) <==> q == [] || p[0] < q[0] || (p[0] == q[0] && Before(p[1..], q[1..]))
  {
  }

  lemma OwnsFirst(t: ConstTree, path: seq<nat>, o: nat)
    requires path != []
    ensures OwnsAt(t, path, o) <==> path[0] < |t.children| && OwnsAt(t.children[path[0]], path[1..], o)
  {
  }

  lemma {:induction false} ChosenAt(t: ConstTree, o: nat) returns (path: seq<nat>)
    ensures Chosen(Order(t), o).None? ==> forall q: seq<nat> :: !OwnsAt(t, q, o)
    ensures Chosen(Order(t), o).Some? ==> OwnsAt(t, path, o) && NodeAt(t, path) == Chosen(Order(t), o)
    ensures Chosen(Order(t), o).Some? ==> forall q: seq<nat> :: OwnsAt(t, q, o) ==> q == path || Before(path, q)
    decreases t
  {
    hide Order, OwnsAt, Own, Chosen, Before;
    var k, rest := ChosenIn(t.children, o);
    OrderIs(t);
    ChosenAppend(OrderAll(t.children), if t.obj.Some? then [t] else [], o);
    ChosenRoot(t, o);
    forall q: seq<nat> | q != []
      ensures OwnsAt(t, q, o) <==> q[0] < |t.children| && OwnsAt(t.children[q[0]], q[1..], o)
    {
      OwnsFirst(t, q, o);
    }
    path := if Chosen(OrderAll(t.children), o).Some? then [k] + rest else [];
    assert path != [] ==> path[1..] == rest;
    forall q: seq<nat> | OwnsAt(t, q, o) && q != []
      ensures Chosen(OrderAll(t.children), o).Some? && (q == path || Before(path, q))
    {
      var tail: seq<nat> := q[1..];
      assert OwnsAt(t.children[q[0]], tail, o);
      assert path[0] == k && path[1..] == rest && q == [q[0]] + tail;
      BeforeIs(path, q);
    }
    if path != [] { BeforeIs(path, []); }
  }

  lemma ChosenRoot(t: ConstTree, o: nat)
    ensures Chosen(if t.obj.Some? then [t] else [], o) == if OwnsAt(t, [], o) then Some(t) else None
  {
    assert [t][1..] == [];
  }

  lemma {:induction false} ChosenIn(ts: seq<ConstTree>, o: nat) returns (k: nat, path: seq<nat>)
    ensures Chosen(OrderAll(ts), o).None? ==>
              forall j, q: seq<nat> {:trigger OwnsAt(ts[j], q, o)} :: 0 <= j < |ts| ==> !OwnsAt(ts[j], q, o)
    ensures Chosen(OrderAll(ts), o).Some? ==>
              && k < |ts| && OwnsAt(ts[k], path, o) && NodeAt(ts[k], path) == Chosen(OrderAll(ts), o)
              && forall j, q: seq<nat> {:trigger OwnsAt(ts[j], q, o)} :: 0 <= j < |ts| && OwnsAt(ts[j], q, o) ==>
                k < j || (j == k && (q == path || Before(path, q)))
    decreases ts
  {
    hide Order, OwnsAt, Before;
    k, path := 0, [];
    if ts == [] {
    } else {
      ChosenAppend(Order(ts[0]), OrderAll(ts[1..]), o);
      path := ChosenAt(ts[0], o);
      if Chosen(Order(ts[0]), o).None? {
        var l, rest := ChosenIn(ts[1..], o);
        k, path := l + 1, rest;
        assert forall j :: 0 < j < |ts| ==> ts[j] == ts[1..][j - 1];
      }
    }
  }

  /**
   An object has a tree when some node of it owns a constant; the tree is the first of these nodes, trimmed: one inside
   another comes before it, and of two others the one further left.
   */
  lemma TreeComesFrom(root: Action, o: nat) returns (path: seq<nat>)
    ensures o in ObjectTreesOf(root) <==> exists q: seq<nat> :: OwnsAt(Build(root), q, o)
    ensures o in ObjectTreesOf(root) ==>
              && OwnsAt(Build(root), path, o) && Trimmed(NodeAt(Build(root), path).value, ObjectTreesOf(root)[o])
              && forall q: seq<nat> :: OwnsAt(Build(root), q, o) ==> q == path || Before(path, q)
  {
    hide ObjectTreesOf, Build, Order, Chosen, OwnsAt, Trimmed, Prune, Cut, Before;
    TreeOfObject(root, o);
    path := ChosenAt(Build(root), o);
    if Chosen(Order(Build(root)), o).Some? {
      TrimIs(Chosen(Order(Build(root)), o).value);
      PathOwns(Build(root), path, o);
    }
  }

  lemma PathOwns(t: ConstTree, path: seq<nat>, o: nat)
    requires OwnsAt(t, path, o)
    ensures NodeAt(t, path).Some?
  {
  }
}
