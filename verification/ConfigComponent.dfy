/**
 Saving and loading the whole component: config_io_save and config_io_load go over all object trees, one file for
 each (src/generators/configio_generator.cpp:538-547, 614-634).
 */
module ConfigComponent {
  import opened Prelude
  import opened ConfigTree
  import opened ConfigIO

  type Files = map<string, seq<Node>>

  function SaveAll(trees: seq<Tree>, p: Program): Files {
    if trees == [] then map[]
    else
      var n := |trees| - 1;
      SaveAll(trees[..n], p)[trees[n].name := Save(trees[n], p)]
  }

  /** A file that is missing is logged. */
  function LoadOne(t: Tree, files: Files, l: Loaded): Loaded {
    if t.name in files then LoadNodes([], [t], files[t.name], 0, l) else l.(errors := l.errors + 1)
  }

  function LoadAll(trees: seq<Tree>, files: Files, l: Loaded): Loaded {
    if trees == [] then l
    else
      var n := |trees| - 1;
      LoadOne(trees[n], files, LoadAll(trees[..n], files, l))
  }

  /** Every object has a file of its own, and the load code can tell its nodes apart. */
  predicate Tellable(trees: seq<Tree>) {
    && (forall k :: 0 <= k < |trees| ==> Named([], [trees[k]]))
    && (forall j, k :: 0 <= j < k < |trees| ==> trees[j].name != trees[k].name)
  }

  lemma {:induction false} FileOf(trees: seq<Tree>, p: Program, k: nat)
    requires k < |trees| && Tellable(trees)
    ensures trees[k].name in SaveAll(trees, p) && SaveAll(trees, p)[trees[k].name] == Save(trees[k], p)
  {
    var n := |trees| - 1;
    if k < n {
      FileOf(trees[..n], p, k);
    }
  }

  /** There is a file for each object and no other. */
  lemma {:induction false} FilesAre(trees: seq<Tree>, p: Program, name: string)
    ensures name in SaveAll(trees, p) <==> exists k :: 0 <= k < |trees| && trees[k].name == name
  {
    if trees != [] {
      var n := |trees| - 1;
      FilesAre(trees[..n], p, name);
      assert forall k :: 0 <= k < n ==> trees[..n][k] == trees[k];
    }
  }

  /** An object without a file is logged and left as it is. */
  lemma {:induction false} MissingFiles(trees: seq<Tree>, files: Files, l: Loaded)
    requires forall k :: 0 <= k < |trees| ==> trees[k].name !in files
    ensures LoadAll(trees, files, l) == l.(errors := l.errors + |trees|)
  {
    if trees != [] {
      MissingFiles(trees[..|trees| - 1], files, l);
    }
  }

  ghost predicate SavedSome(trees: seq<Tree>, p: Program, c: Cell) {
    exists k :: 0 <= k < |trees| && Saved([trees[k]], 0, p, c)
  }

  ghost predicate TooLongSome(trees: seq<Tree>, p: Program) {
    exists k :: 0 <= k < |trees| && TooLong([trees[k]], 0, p)
  }

  /** Loading one file on top of what has been loaded before. */
  lemma OneReturns(t: Tree, p: Program, files: Files, l: Loaded, c: Cell)
    requires Named([], [t]) && t.name in files && files[t.name] == Save(t, p)
    ensures Restores(l, LoadOne(t, files, l), p, c, Saved([t], 0, p, c), TooLong([t], 0, p))
  {
    assert [t][0..] == [t] && [t][1..] == [];
    assert SaveChildren([t], 0, p) == Save(t, p) + [] == Save(t, p);
    AllOfThem([t], 0, p, c);
    ChildrenReturn([], [t], 0, 0, p, l, c);
  }

  lemma {:induction false} AllReturn(trees: seq<Tree>, m: nat, p: Program, l: Loaded, c: Cell)
    requires Tellable(trees) && m <= |trees|
    ensures Restores(l, LoadAll(trees[..m], SaveAll(trees, p), l), p, c, SavedSome(trees[..m], p, c),
            TooLongSome(trees[..m], p))
  {
    hide Saved, TooLong, LoadOne, SaveAll, Named;
    if m > 0 {
      var files := SaveAll(trees, p);
      AllReturn(trees, m - 1, p, l, c);
      FileOf(trees, p, m - 1);
      var mid := LoadAll(trees[..m - 1], files, l);
      OneReturns(trees[m - 1], p, files, mid, c);
      assert trees[..m][..m - 1] == trees[..m - 1];
      OneMore(trees, m, p, c);
    }
  }

  lemma OneMore(trees: seq<Tree>, m: nat, p: Program, c: Cell)
    requires 0 < m <= |trees|
    ensures SavedSome(trees[..m], p, c) <==> SavedSome(trees[..m - 1], p, c) || Saved([trees[m - 1]], 0, p, c)
    ensures TooLongSome(trees[..m], p) <==> TooLongSome(trees[..m - 1], p) || TooLong([trees[m - 1]], 0, p)
  {
    hide Saved, TooLong;
    assert trees[..m][m - 1] == trees[m - 1];
    assert forall k :: 0 <= k < m - 1 ==> trees[..m - 1][k] == trees[..m][k];
  }

  /** Loading all files that were saved restores what was saved of any object and changes nothing else. */
  lemma FilesRoundTrip(trees: seq<Tree>, p: Program, onto: Store, c: Cell)
    requires Tellable(trees)
    ensures var r := LoadAll(trees, SaveAll(trees, p), Loaded(onto, 0));
            && ValueAt(r, c) == (if SavedSome(trees, p, c) then Some(p.Read(c)) else if c in onto then Some(onto[c])
              else None)
            && (r.errors == 0 <==> !TooLongSome(trees, p))
  {
    assert trees[..|trees|] == trees;
    AllReturn(trees, |trees|, p, Loaded(onto, 0), c);
  }

  // ---- In terms of the component's own tree of actions ----

  /** The constant belongs to this instance of an action, or to an active instance below it outside other objects. */
  ghost predicate OwnSavedAt(t: ConstTree, outer: nat, i: nat, p: Program, c: Cell)
    decreases t
  {
    && Kept(t, outer, i, p)
    && var flat := Below(outer, t.domain, i);
       OwnConstant(t, flat, c) || OwnSavedIn(t.children, flat, p, c)
  }

  ghost predicate OwnSavedIn(ts: seq<ConstTree>, outer: nat, p: Program, c: Cell)
    decreases ts
  {
    exists k, i: nat :: 0 <= k < |ts| && ts[k].obj.None? && OwnSavedAt(ts[k], outer, i, p, c)
  }

  ghost predicate OwnSavedSome(ts: seq<ConstTree>, outer: nat, p: Program, c: Cell) {
    exists k, i: nat :: 0 <= k < |ts| && ts[k].obj.None? && OwnSavedAt(ts[k], outer, i, p, c)
  }

  lemma OwnSavedIs(ts: seq<ConstTree>, outer: nat, p: Program, c: Cell)
    ensures OwnSavedIn(ts, outer, p, c) <==> OwnSavedSome(ts, outer, p, c)
  {
  }

  ghost predicate SavedFirst(t: ConstTree, outer: nat, p: Program, c: Cell) {
    exists i: nat :: SavedAt(t, outer, i, p, c)
  }

  ghost predicate OwnSavedFirst(t: ConstTree, outer: nat, p: Program, c: Cell) {
    exists i: nat :: OwnSavedAt(t, outer, i, p, c)
  }

  lemma SavedSplits(t: ConstTree, ts: seq<ConstTree>, outer: nat, p: Program, c: Cell)
    ensures Saved([t] + ts, outer, p, c) <==> SavedFirst(t, outer, p, c) || Saved(ts, outer, p, c)
  {
    hide SavedAt;
    var s := [t] + ts;
    AllOfThem(s, outer, p, c);
    AllOfThem(ts, outer, p, c);
    assert s[0] == t && forall k :: 0 <= k < |ts| ==> s[k + 1] == ts[k];
  }

  lemma OwnSavedSplits(t: ConstTree, ts: seq<ConstTree>, outer: nat, p: Program, c: Cell)
    ensures OwnSavedIn([t] + ts, outer, p, c) <==>
            (t.obj.None? && OwnSavedFirst(t, outer, p, c)) || OwnSavedIn(ts, outer, p, c)
  {
    hide OwnSavedAt;
    var s := [t] + ts;
    OwnSavedIs(s, outer, p, c);
    OwnSavedIs(ts, outer, p, c);
    assert s[0] == t && forall k :: 0 <= k < |ts| ==> s[k + 1] == ts[k];
  }

  lemma {:induction false} CutSaves(t: ConstTree, outer: nat, i: nat, p: Program, c: Cell)
    ensures SavedAt(Cut(t), outer, i, p, c) <==> OwnSavedAt(t, outer, i, p, c)
    decreases t, 0
  {
    CutAllSaves(t.children, Below(outer, t.domain, i), p, c);
    assert OwnConstant(Cut(t), Below(outer, t.domain, i), c) == OwnConstant(t, Below(outer, t.domain, i), c);
  }

  lemma {:induction false} CutFirst(t: ConstTree, outer: nat, p: Program, c: Cell)
    ensures SavedFirst(Cut(t), outer, p, c) <==> OwnSavedFirst(t, outer, p, c)
    decreases t, 1
  {
    hide SavedAt, OwnSavedAt, Cut;
    forall i: nat ensures SavedAt(Cut(t), outer, i, p, c) <==> OwnSavedAt(t, outer, i, p, c) {
      CutSaves(t, outer, i, p, c);
    }
  }

  lemma {:induction false} CutAllSaves(ts: seq<ConstTree>, outer: nat, p: Program, c: Cell)
    ensures Saved(CutAll(ts), outer, p, c) <==> OwnSavedIn(ts, outer, p, c)
    decreases ts
  {
    if ts != [] {
      hide SavedAt, OwnSavedAt, Cut, Saved, OwnSavedIn;
      CutAllSaves(ts[1..], outer, p, c);
      assert ts == [ts[0]] + ts[1..] && [] + CutAll(ts[1..]) == CutAll(ts[1..]);
      OwnSavedSplits(ts[0], ts[1..], outer, p, c);
      SavedSplits(Cut(ts[0]), CutAll(ts[1..]), outer, p, c);
      CutFirst(ts[0], outer, p, c);
    } else {
      assert !Saved([], outer, p, c);
    }
  }

  /** Pruning takes away nothing that would be saved. */
  lemma {:induction false} PruneSaves(t: ConstTree, outer: nat, i: nat, p: Program, c: Cell)
    ensures SavedAt(Prune(t), outer, i, p, c) <==> SavedAt(t, outer, i, p, c)
    ensures Barren(t) ==> !SavedAt(t, outer, i, p, c)
    decreases t, 0
  {
    PruneAllSaves(t.children, Below(outer, t.domain, i), p, c);
    assert OwnConstant(Prune(t), Below(outer, t.domain, i), c) == OwnConstant(t, Below(outer, t.domain, i), c);
  }

  lemma {:induction false} PruneFirst(t: ConstTree, outer: nat, p: Program, c: Cell)
    ensures SavedFirst(Prune(t), outer, p, c) <==> SavedFirst(t, outer, p, c)
    ensures Barren(t) ==> !SavedFirst(t, outer, p, c)
    decreases t, 1
  {
    hide SavedAt, Prune, Barren;
    forall i: nat
      ensures SavedAt(Prune(t), outer, i, p, c) <==> SavedAt(t, outer, i, p, c)
      ensures Barren(t) ==> !SavedAt(t, outer, i, p, c)
    {
      PruneSaves(t, outer, i, p, c);
    }
  }

  lemma {:induction false} PruneAllSaves(ts: seq<ConstTree>, outer: nat, p: Program, c: Cell)
    ensures Saved(PruneAll(ts), outer, p, c) <==> Saved(ts, outer, p, c)
    decreases ts
  {
    if ts != [] {
      hide SavedAt, Prune, Barren, Saved;
      PruneAllSaves(ts[1..], outer, p, c);
      assert ts == [ts[0]] + ts[1..] && [] + PruneAll(ts[1..]) == PruneAll(ts[1..]);
      SavedSplits(ts[0], ts[1..], outer, p, c);
      SavedSplits(Prune(ts[0]), PruneAll(ts[1..]), outer, p, c);
      PruneFirst(ts[0], outer, p, c);
    }
  }

  /** The trees are those of the component's objects, each once. */
  ghost predicate TreesOf(root: Action, objects: seq<nat>, trees: seq<Tree>) {
    && |trees| == |objects| && (forall o :: o in objects <==> o in ObjectTreesOf(root))
    && forall k :: 0 <= k < |objects| ==>
      objects[k] in ObjectTreesOf(root) && trees[k] == ObjectTreesOf(root)[objects[k]]
  }

  /**
   The save loops come to the constant: its instance, with the indices counted from its object as if that were the
   only instance of everything around it, and all those between the two are active.
   */
  ghost predicate Visited(nodes: seq<ConstTree>, p: Program, c: Cell) {
    exists k :: 0 <= k < |nodes| && nodes[k].obj.Some? && OwnSavedFirst(nodes[k], 0, p, c)
  }

  lemma NodeSaves(t: ConstTree, p: Program, c: Cell)
    ensures Saved([Prune(Cut(t))], 0, p, c) <==> OwnSavedFirst(t, 0, p, c)
  {
    hide SavedFirst, OwnSavedFirst, Prune, Cut;
    var r := Prune(Cut(t));
    assert [r] + [] == [r];
    SavedSplits(r, [], 0, p, c);
    PruneFirst(Cut(t), 0, p, c);
    CutFirst(t, 0, p, c);
  }

  lemma {:induction false} OwnSavedIsFruitful(t: ConstTree, outer: nat, i: nat, p: Program, c: Cell)
    requires OwnSavedAt(t, outer, i, p, c)
    ensures Fruitful(t)
    decreases t
  {
    var flat := Below(outer, t.domain, i);
    if OwnConstant(t, flat, c) {
      var k :| 0 <= k < |t.constants| && t.constants[k].id == c.typeId;
      assert Own(t, t.constants[k]);
    } else {
      OwnSavedIs(t.children, flat, p, c);
      var k, j: nat :| 0 <= k < |t.children| && t.children[k].obj.None? && OwnSavedAt(t.children[k], flat, j, p, c);
      OwnSavedIsFruitful(t.children[k], flat, j, p, c);
      var own :| Own(t.children[k], own);
      assert Own(t, own);
    }
  }

  lemma TreesAreVisited(root: Action, objects: seq<nat>, trees: seq<Tree>, p: Program, c: Cell)
    requires TreesOf(root, objects, trees) && OneEach(Order(Build(root)))
    ensures SavedSome(trees, p, c) <==> Visited(Order(Build(root)), p, c)
  {
    hide ObjectTreesOf, Build, Order, Prune, Cut, Saved, OwnSavedFirst, Own, OneEach;
    var nodes := Order(Build(root));
    if k :| 0 <= k < |trees| && Saved([trees[k]], 0, p, c) {
      TreeOfObject(root, objects[k]);
      var j := ChosenIs(nodes, objects[k]);
      NodeSaves(nodes[j], p, c);
    }
    if j :| 0 <= j < |nodes| && nodes[j].obj.Some? && OwnSavedFirst(nodes[j], 0, p, c) {
      var o := nodes[j].obj.value;
      FirstIsFruitful(nodes[j], p, c);
      TheOneChosen(nodes, o, j);
      TreeOfObject(root, o);
      NodeSaves(nodes[j], p, c);
      var k :| 0 <= k < |objects| && objects[k] == o;
      assert trees[k] == Prune(Cut(nodes[j]));
    }
  }

  lemma FirstIsFruitful(t: ConstTree, p: Program, c: Cell)
    requires OwnSavedFirst(t, 0, p, c)
    ensures Fruitful(t)
  {
    hide OwnSavedAt, Fruitful;
    var i: nat :| OwnSavedAt(t, 0, i, p, c);
    OwnSavedIsFruitful(t, 0, i, p, c);
  }

  lemma TheOneChosen(nodes: seq<ConstTree>, o: nat, j: nat)
    requires OneEach(nodes) && j < |nodes| && nodes[j].obj == Some(o) && Fruitful(nodes[j])
    ensures Chosen(nodes, o) == Some(nodes[j])
  {
    hide Fruitful;
    FruitfulChosen(nodes, o, j);
    var k := ChosenIs(nodes, o);
    assert k == j;
  }

  /**
   When every object has at most one node that owns constants, saving and loading all the objects restores exactly
   the constants that the save loops come to and changes nothing else. ConfigInstances says which of a component's
   constants these are.
   */
  lemma ComponentRoundTrip(root: Action, objects: seq<nat>, trees: seq<Tree>, p: Program, onto: Store, c: Cell)
    requires TreesOf(root, objects, trees) && OneEach(Order(Build(root))) && Tellable(trees)
    ensures ValueAt(LoadAll(trees, SaveAll(trees, p), Loaded(onto, 0)), c) ==
            if Visited(Order(Build(root)), p, c) then Some(p.Read(c)) else if c in onto then Some(onto[c]) else None
  {
    hide Build, Order, LoadAll, SaveAll, SavedSome, Visited, OneEach, TreesOf, Tellable;
    FilesRoundTrip(trees, p, onto, c);
    TreesAreVisited(root, objects, trees, p, c);
  }
}
