/**
 The caching client inside the lock protocol: what the reads of a simulation return, in terms of the stores
 the fetched values came from. Everything here is about the client alone, whatever the server answers.
 */
module LockSessions {
  import opened Prelude
  import opened LockServer
  import opened LockProtocol
  import opened LockInvariant
  import opened Access

  /** A cell is fetched at most once in a cycle. */
  predicate NoRepeats(got: seq<Seen>) {
    forall i, j :: 0 <= i < j < |got| ==> got[i].cell != got[j].cell
  }

  /**
   The values the session's reads returned are those of direct access: before the upgrade on any store that
   explains what was fetched before it, after the upgrade on any store that explains what was fetched since,
   under the copies made before.
   */
  ghost predicate Direct(x: Session, got: seq<Seen>, first: Store, second: Store)
    requires x.mark <= |x.ops| && x.fetched <= |got|
  {
    x.values == DirectReads(first, x.ops[..x.mark]) + DirectReads(second + AsStore(got[..x.fetched]), x.ops[x.mark..])
  }

  ghost predicate Explained(x: Session, got: seq<Seen>)
    requires x.mark <= |x.ops| && x.fetched <= |got|
  {
    forall first: Store, second: Store ::
      Fresh(got[..x.fetched], Some(first)) && Fresh(got[x.fetched..], Some(second)) ==> Direct(x, got, first, second)
  }

  ghost predicate Record(x: Session, got: seq<Seen>, own: Store, cells: set<Cell>) {
    && x.mark <= |x.ops| && x.fetched <= |got|
    && OnlyGets(x.ops[..x.mark]) && Writes(x.ops) == own
    && (forall i :: 0 <= i < |x.ops| ==> x.ops[i].cell in cells)
    && (forall i :: 0 <= i < |got| ==> got[i].cell in cells)
    && NoRepeats(got)
    && Explained(x, got)
  }

  /** A host's copies are what it fetched under what it wrote, and its session is explained. */
  ghost predicate Remembers(h: Host, cells: set<Cell>) {
    && Record(h.session, h.got, h.own, cells)
    && h.copies == AsStore(h.got) + h.own
    && (h.phase.AwaitValue? ==> h.phase.cell in cells && h.phase.cell !in h.copies)
    && (h.phase.AwaitLock? ==> h.session == Session([], [], 0, 0) && h.got == [])
    && ((h.phase.Holding? || h.phase.AwaitValue?) && !h.phase.write ==>
          h.session.mark == 0 && h.session.fetched == 0 && OnlyGets(h.session.ops))
    && (h.phase.AwaitUpgrade? ==> OnlyGets(h.session.ops))
  }

  // ---- Fetched values ----

  lemma {:induction false} AsStoreKeys(got: seq<Seen>, c: Cell)
    ensures c in AsStore(got) <==> exists i :: 0 <= i < |got| && got[i].cell == c
  {
    if got != [] {
      var n := |got| - 1;
      AsStoreKeys(got[..n], c);
      if i :| 0 <= i < |got| && got[i].cell == c && i < n { assert got[..n][i].cell == c; }
    }
  }

  /** A store that explains the values received agrees with them. */
  lemma {:induction false} FreshStore(got: seq<Seen>, store: Store, c: Cell)
    requires Fresh(got, Some(store)) && c in AsStore(got)
    ensures c in store && AsStore(got)[c] == store[c]
  {
    var n := |got| - 1;
    assert Fresh(got[..n], Some(store));
    if c != got[n].cell {
      FreshStore(got[..n], store, c);
    }
  }

  /** A copy is what direct access sees at this point. */
  lemma CopyIsDirect(h: Host, cells: set<Cell>, c: Cell, first: Store, second: Store)
    requires Remembers(h, cells) && c in h.copies
    requires Fresh(h.got[..h.session.fetched], Some(first)) && Fresh(h.got[h.session.fetched..], Some(second))
    ensures var x := h.session;
            h.copies[c] == ReadAt(second + AsStore(h.got[..x.fetched]) + Writes(x.ops[x.mark..]), c)
  {
    hide Explained, Writes, AsStore, Fresh, DirectReads;
    var x, f := h.session, h.session.fetched;
    SessionWrites(x);
    if c !in h.own {
      var fore, late := h.got[..f], h.got[f..];
      assert h.got == fore + late;
      AsStoreSplit(fore, late);
      if c in AsStore(late) {
        FreshStore(late, second, c);
        AsStoreKeys(fore, c);
        AsStoreKeys(late, c);
        var j :| 0 <= j < |late| && late[j].cell == c;
        assert h.got[f + j] == late[j];
        assert forall i :: 0 <= i < |fore| ==> fore[i] == h.got[i];
        assert c !in AsStore(fore);
      }
    }
  }

  lemma SessionWrites(x: Session)
    requires x.mark <= |x.ops| && OnlyGets(x.ops[..x.mark])
    ensures Writes(x.ops[x.mark..]) == Writes(x.ops)
  {
    assert x.ops == x.ops[..x.mark] + x.ops[x.mark..];
    DirectSplit(map[], x.ops[..x.mark], x.ops[x.mark..]);
    GetsWriteNothing(x.ops[..x.mark]);
  }

  // ---- Client steps ----

  lemma BeginRemembers(h: Host, act: Action, schema: Schema)
    requires act.BeginLock? && HostStep(h, act, schema).Some?
    ensures Remembers(HostStep(h, act, schema).value, schema.cells)
  {
  }

  /** One more value changes nothing about the reads made so far. */
  lemma ValueExplained(x: Session, got: seq<Seen>, more: Seen)
    requires x.mark <= |x.ops| && x.fetched <= |got| && Explained(x, got)
    ensures Explained(x, got + [more])
  {
    var f, n := x.fetched, got + [more];
    assert n[..f] == got[..f] && n[f..] == got[f..] + [more];
    forall first: Store, second: Store | Fresh(n[..f], Some(first)) && Fresh(n[f..], Some(second))
      ensures Direct(x, n, first, second)
    {
      assert forall i :: 0 <= i < |got[f..]| ==> n[f..][i] == got[f..][i];
      assert Direct(x, got, first, second);
    }
  }

  lemma ValueRemembers(h: Host, act: Action, schema: Schema)
    requires act.ReceiveValue? && HostStep(h, act, schema).Some? && Remembers(h, schema.cells)
    ensures Remembers(HostStep(h, act, schema).value, schema.cells)
  {
    hide Explained;
    var n := HostStep(h, act, schema).value;
    if n.phase.Holding? {
      var x := Seen(h.phase.cell, h.down[0].value);
      AsStoreAppend(h.got, x);
      ValueExplained(h.session, h.got, x);
      forall i | 0 <= i < |h.got| ensures h.got[i].cell != x.cell {
        AsStoreKeys(h.got, x.cell);
      }
      assert h.phase.cell !in h.own;
    }
  }

  lemma UpgradeRemembers(h: Host, act: Action, schema: Schema)
    requires act.Upgrade? && HostStep(h, act, schema).Some? && Remembers(h, schema.cells)
    ensures Remembers(HostStep(h, act, schema).value, schema.cells)
  {
    var n := HostStep(h, act, schema).value;
    var x := h.session;
    assert n.session.ops[..|x.ops|] == x.ops && n.session.ops[|x.ops|..] == [];
    assert n.got[..|h.got|] == h.got;
    assert x.ops[..0] == [] && x.ops[0..] == x.ops && h.got[..0] == [] && h.got[0..] == h.got;
    forall first: Store | Fresh(h.got, Some(first)) ensures x.values == DirectReads(first, x.ops) {
      assert Direct(x, h.got, first, first);
      assert first + AsStore([]) == first;
    }
  }

  lemma GetRemembers(h: Host, act: Action, schema: Schema)
    requires act.Use? && act.op.Get? && HostStep(h, act, schema).Some? && Remembers(h, schema.cells)
    ensures Remembers(HostStep(h, act, schema).value, schema.cells)
  {
    hide Fresh, DirectReads, AsStore, NoRepeats, Schema.Accepts;
    var n := HostStep(h, act, schema).value;
    var x, m := h.session, h.session.mark;
    var late := x.ops[m..];
    assert n.session.ops[..m] == x.ops[..m] && n.session.ops[m..] == late + [act.op];
    OpsAppend(map[], x.ops, act.op);
    AsStoreKeys(h.got, act.op.cell);
    forall first: Store, second: Store
      | Fresh(h.got[..x.fetched], Some(first)) && Fresh(h.got[x.fetched..], Some(second))
      ensures Direct(n.session, n.got, first, second)
    {
      assert Direct(x, h.got, first, second);
      OpsAppend(second + AsStore(h.got[..x.fetched]), late, act.op);
      CopyIsDirect(h, schema.cells, act.op.cell, first, second);
    }
    OwnCells(x.ops, schema.cells);
  }

  lemma {:induction false} OwnCells(ops: seq<Op>, cells: set<Cell>)
    requires forall i :: 0 <= i < |ops| ==> ops[i].cell in cells
    ensures Writes(ops).Keys <= cells
  {
    if ops != [] {
      OwnCells(ops[..|ops| - 1], cells);
    }
  }

  lemma PutRemembers(h: Host, act: Action, schema: Schema)
    requires act.Use? && act.op.Put? && HostStep(h, act, schema).Some? && Remembers(h, schema.cells)
    ensures Remembers(HostStep(h, act, schema).value, schema.cells)
  {
    hide Fresh, DirectReads, NoRepeats;
    var n := HostStep(h, act, schema).value;
    var x, m := h.session, h.session.mark;
    assert n.session.ops[..m] == x.ops[..m] && n.session.ops[m..] == x.ops[m..] + [act.op];
    OpsAppend(map[], x.ops, act.op);
    forall first: Store, second: Store
      | Fresh(h.got[..x.fetched], Some(first)) && Fresh(h.got[x.fetched..], Some(second))
      ensures Direct(n.session, n.got, first, second)
    {
      assert Direct(x, h.got, first, second);
      OpsAppend(second + AsStore(h.got[..x.fetched]), x.ops[m..], act.op);
    }
  }

  lemma ClientRemembers(h: Host, act: Action, schema: Schema)
    requires IsClient(act) && HostStep(h, act, schema).Some? && Remembers(h, schema.cells)
    ensures Remembers(HostStep(h, act, schema).value, schema.cells)
  {
    hide Explained;
    match act
    case BeginLock(_, _, _) => BeginRemembers(h, act, schema);
    case ReceiveValue(_) => ValueRemembers(h, act, schema);
    case Upgrade(_) => UpgradeRemembers(h, act, schema);
    case Use(_, Get(_)) => GetRemembers(h, act, schema);
    case Use(_, Put(_, _)) => PutRemembers(h, act, schema);
    case _ =>
  }
}
