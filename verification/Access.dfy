/**
 What a simulation does to the data members of another component in one cycle, and what doing it directly on
 that component's store would return.
 */
module Access {
  import opened Prelude

  datatype Op = Get(cell: Cell) | Put(cell: Cell, value: Value)

  /** A value a host was given for a cell. */
  datatype Seen = Seen(cell: Cell, value: Value)

  /** The writes of a sequence of accesses, the last to a cell winning. */
  function Writes(ops: seq<Op>): Store {
    if ops == [] then map[]
    else
      var last := ops[|ops| - 1];
      if last.Put? then Writes(ops[..|ops| - 1])[last.cell := last.value] else Writes(ops[..|ops| - 1])
  }

  function ReadAt(store: Store, c: Cell): Value {
    if c in store then store[c] else Value.Plain(0)
  }

  /** Direct access: each read sees the store with the writes made before it. */
  function DirectReads(store: Store, ops: seq<Op>): seq<Value> {
    if ops == [] then []
    else
      var before, last := ops[..|ops| - 1], ops[|ops| - 1];
      DirectReads(store, before) + (if last.Get? then [ReadAt(store + Writes(before), last.cell)] else [])
  }

  /** The values received, as a store; the last for a cell wins. */
  function AsStore(got: seq<Seen>): Store {
    if got == [] then map[] else AsStore(got[..|got| - 1])[got[|got| - 1].cell := got[|got| - 1].value]
  }

  lemma OpsAppend(store: Store, ops: seq<Op>, op: Op)
    ensures DirectReads(store, ops + [op]) ==
            DirectReads(store, ops) + (if op.Get? then [ReadAt(store + Writes(ops), op.cell)] else [])
    ensures Writes(ops + [op]) == if op.Put? then Writes(ops)[op.cell := op.value] else Writes(ops)
  {
    assert (ops + [op])[..|ops + [op]| - 1] == ops;
  }

  /** What is written is the last value put into each cell. */
  lemma {:induction false} WritesAre(ops: seq<Op>, c: Cell)
    ensures c in Writes(ops) <==> exists i :: 0 <= i < |ops| && ops[i].Put? && ops[i].cell == c
    ensures c in Writes(ops) ==> exists i :: 0 <= i < |ops| && ops[i] == Put(c, Writes(ops)[c])
                                             && forall j :: i < j < |ops| && ops[j].Put? ==> ops[j].cell != c
  {
    if ops != [] {
      var n := |ops| - 1;
      WritesAre(ops[..n], c);
      assert forall i :: 0 <= i < n ==> ops[..n][i] == ops[i];
      if c in Writes(ops[..n]) && !(ops[n].Put? && ops[n].cell == c) {
        var i :| 0 <= i < n && ops[..n][i] == Put(c, Writes(ops[..n])[c])
          && forall j :: i < j < n && ops[..n][j].Put? ==> ops[..n][j].cell != c;
        assert ops[i] == Put(c, Writes(ops)[c]);
      }
    }
  }

  /** A read returns the value last put into the cell, or what the store has; one value for each read, in order. */
  lemma ReadIs(store: Store, ops: seq<Op>, c: Cell, i: int)
    requires -1 <= i < |ops| && (i >= 0 ==> ops[i].Put? && ops[i].cell == c)
    requires forall j :: i < j < |ops| && ops[j].Put? ==> ops[j].cell != c
    ensures DirectReads(store, ops + [Get(c)]) ==
            DirectReads(store, ops)
              + [if i >= 0 then ops[i].value else if c in store then store[c] else Value.Plain(0)]
    ensures forall v :: DirectReads(store, ops + [Put(c, v)]) == DirectReads(store, ops)
    ensures DirectReads(store, []) == []
  {
    OpsAppend(store, ops, Get(c));
    WritesAre(ops, c);
    if c in Writes(ops) {
      var k :| 0 <= k < |ops| && ops[k] == Put(c, Writes(ops)[c])
        && forall j :: k < j < |ops| && ops[j].Put? ==> ops[j].cell != c;
      assert k == i;
    }
    forall v ensures DirectReads(store, ops + [Put(c, v)]) == DirectReads(store, ops) {
      OpsAppend(store, ops, Put(c, v));
    }
  }

  lemma AsStoreAppend(got: seq<Seen>, x: Seen)
    ensures AsStore(got + [x]) == AsStore(got)[x.cell := x.value]
  {
    assert (got + [x])[..|got + [x]| - 1] == got;
  }

  lemma {:induction false} AsStoreSplit(got: seq<Seen>, more: seq<Seen>)
    ensures AsStore(got + more) == AsStore(got) + AsStore(more)
  {
    if more == [] {
      assert got + more == got;
    } else {
      var n := |more| - 1;
      assert got + more == (got + more[..n]) + [more[n]];
      AsStoreAppend(got + more[..n], more[n]);
      AsStoreSplit(got, more[..n]);
    }
  }

  lemma StoreSplit(a: Store, b: Store, c: Store)
    ensures a + (b + c) == (a + b) + c
  {
  }

  /** What a stretch of accesses returns after an earlier stretch, on the store the earlier one leaves. */
  lemma {:induction false} DirectSplit(store: Store, ops: seq<Op>, more: seq<Op>)
    ensures DirectReads(store, ops + more) == DirectReads(store, ops) + DirectReads(store + Writes(ops), more)
    ensures Writes(ops + more) == Writes(ops) + Writes(more)
  {
    if more == [] {
      assert ops + more == ops;
    } else {
      hide DirectReads, Writes, ReadAt;
      var n := |more| - 1;
      var fore, last := more[..n], more[n];
      assert ops + more == (ops + fore) + [last] && more == fore + [last];
      OpsAppend(store, ops + fore, last);
      OpsAppend(store + Writes(ops), fore, last);
      DirectSplit(store, ops, fore);
      StoreSplit(store, Writes(ops), Writes(fore));
      var lastRead := if last.Get? then [ReadAt(store + Writes(ops + fore), last.cell)] else [];
      assert DirectReads(store, ops) + DirectReads(store + Writes(ops), fore) + lastRead ==
             DirectReads(store, ops) + (DirectReads(store + Writes(ops), fore) + lastRead);
    }
  }

  /** Every cell received is read by some access. */
  predicate ReadBack(got: seq<Seen>, ops: seq<Op>) {
    forall i :: 0 <= i < |got| ==> Get(got[i].cell) in ops
  }

  predicate OnlyGets(ops: seq<Op>) {
    forall i :: 0 <= i < |ops| ==> ops[i].Get?
  }

  lemma {:induction false} GetsWriteNothing(ops: seq<Op>)
    requires OnlyGets(ops)
    ensures Writes(ops) == map[]
  {
    if ops != [] {
      GetsWriteNothing(ops[..|ops| - 1]);
    }
  }
}
