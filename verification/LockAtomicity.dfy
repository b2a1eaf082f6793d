/**
 Atomicity of the transactions of every run. What the reads of a cycle return is what direct access to one
 store returns, namely the store at the cycle's place in the serial order; only a cycle whose upgrade had to
 wait may have read from an earlier one, and it is still atomic exactly when nothing it read there was changed.
 */
module LockAtomicity {
  import opened Prelude
  import opened LockProtocol
  import opened LockInvariant
  import opened LockSessions
  import opened LockHistory
  import opened LockEarly
  import opened LockRuns
  import opened Access

  function Contents(program: Option<Store>): Store {
    if program.Some? then program.value else map[]
  }

  /** The cells a stretch of transactions leaves written, with the values it leaves. */
  function Overlaid(log: seq<Txn>): Store
    requires HostsOnly(log)
  {
    if log == [] then map[] else Overlaid(log[..|log| - 1]) + log[|log| - 1].writes
  }

  /** Some cell received early was left with another value by the stretch. */
  predicate Undone(early: seq<Seen>, log: seq<Txn>)
    requires HostsOnly(log)
  {
    exists i :: 0 <= i < |early| && early[i].cell in Overlaid(log) && Overlaid(log)[early[i].cell] != early[i].value
  }

  // ---- The store between two points of the log ----

  lemma {:induction false} ReplayHosts(initial: Option<Store>, log: seq<Txn>, more: seq<Txn>)
    requires HostsOnly(more)
    ensures Replay(initial, log + more) == Apply(Replay(initial, log), Overlaid(more))
  {
    if more == [] {
      assert log + more == log;
      var p := Replay(initial, log);
      assert p.Some? ==> p.value + map[] == p.value;
    } else {
      var n := |more| - 1;
      ReplayHosts(initial, log, more[..n]);
      assert (log + more)[..|log + more| - 1] == log + more[..n];
      var p, early := Replay(initial, log), Overlaid(more[..n]);
      assert Overlaid(more) == early + more[n].writes;
      if p.Some? {
        assert (p.value + early) + more[n].writes == p.value + (early + more[n].writes);
      }
    }
  }

  /** Values that were right are right after more transactions exactly when none was undone. */
  lemma FreshAfter(early: seq<Seen>, program: Option<Store>, more: seq<Txn>)
    requires HostsOnly(more) && Fresh(early, program)
    ensures Fresh(early, Apply(program, Overlaid(more))) <==> !Undone(early, more)
  {
  }

  // ---- What the reads return ----

  lemma {:induction false} GetsRead(store: Store, ops: seq<Op>, i: nat)
    requires OnlyGets(ops) && i < |ops|
    ensures |DirectReads(store, ops)| == |ops| && DirectReads(store, ops)[i] == ReadAt(store, ops[i].cell)
  {
    var n := |ops| - 1;
    GetsWriteNothing(ops[..n]);
    assert store + map[] == store;
    if n > 0 {
      GetsRead(store, ops[..n], if i < n then i else 0);
    }
  }

  /** Values a store explains change nothing when laid over it. */
  lemma NothingNew(store: Store, got: seq<Seen>)
    requires Fresh(got, Some(store))
    ensures store + AsStore(got) == store
  {
    hide AsStore;
    forall c | c in AsStore(got) ensures c in store && AsStore(got)[c] == store[c] {
      FreshStore(got, store, c);
    }
  }

  /** Whatever store explains everything a session was given, its reads are direct access to it. */
  lemma OneStore(x: Session, got: seq<Seen>, own: Store, cells: set<Cell>, store: Store)
    requires Record(x, got, own, cells) && Fresh(got, Some(store))
    ensures x.values == DirectReads(store, x.ops)
  {
    hide Fresh, DirectReads, Writes, AsStore, NoRepeats, OnlyGets;
    FreshParts(got, x.fetched, Some(store));
    ExplainedOn(x, got, store, store);
    NothingNew(store, got[..x.fetched]);
    assert x.ops == x.ops[..x.mark] + x.ops[x.mark..];
    DirectSplit(store, x.ops[..x.mark], x.ops[x.mark..]);
    GetsWriteNothing(x.ops[..x.mark]);
    assert store + map[] == store;
  }

  lemma FreshContents(seen: seq<Seen>, program: Option<Store>)
    requires Fresh(seen, program)
    ensures Fresh(seen, Some(Contents(program)))
  {
  }

  lemma {:induction false} InitialIsKept(init: State, acts: seq<Action>)
    requires Init(init) && Run(init, acts).Next?
    ensures Run(init, acts).state.hist.initial == init.program
  {
    if acts != [] {
      var m := Run(init, acts[..|acts| - 1]).state;
      InitialIsKept(init, acts[..|acts| - 1]);
      StepKeepsInitial(m, acts[|acts| - 1]);
    }
  }

  lemma StepKeepsInitial(s: State, act: Action)
    requires Step(s, act).Next?
    ensures Step(s, act).state.hist.initial == s.hist.initial
  {
    hide LockServer.OnLock, LockServer.OnUnlock, LockServer.OnStart, LockServer.OnAccess, HostStep, Push,
      LockServer.ViewOf, LockRecorded;
  }

  /** What the invariants say of one transaction of a reachable log. */
  lemma Logged(init: State, acts: seq<Action>, s: State, i: nat)
    requires Reaches(init, acts, s) && i < |s.hist.log| && s.hist.log[i].HostTxn?
    ensures var t, log := s.hist.log[i], s.hist.log[..i];
            && Record(t.session, t.observed, t.writes, s.schema.cells)
            && t.early <= |t.observed| && Fresh(t.observed[t.early..], Replay(init.program, log))
            && (t.early > 0 ==>
                  && t.early == t.session.fetched
                  && EarlyRead(init.program, log, t.observed[..t.early], t.point))
  {
    hide Init, Run, Replay, Fresh, Record, EarlyRead;
    ReachableIsGood(init, acts, s);
    InitialIsKept(init, acts);
    var t, log := s.hist.log[i], s.hist.log[..i];
    assert TxnOk(t, s.schema.cells) && TxnEarly(init.program, log, t);
    assert Consistent(t, Replay(init.program, log));
  }

  /**
   A cycle whose upgrade did not have to wait is atomic: what its reads returned is what direct access to the
   store at its place in the serial order returns, and what it left there are the writes it made.
   */
  lemma TransactionIsAtomic(init: State, acts: seq<Action>, s: State, i: nat)
    requires Reaches(init, acts, s) && i < |s.hist.log| && s.hist.log[i].HostTxn? && s.hist.log[i].early == 0
    ensures var t, before := s.hist.log[i], Replay(init.program, s.hist.log[..i]);
            && Fresh(t.observed, before)
            && t.writes == Writes(t.session.ops)
            && t.session.values == DirectReads(Contents(before), t.session.ops)
  {
    hide Init, Run, Replay, Explained, DirectReads, Writes;
    Logged(init, acts, s, i);
    var t, before := s.hist.log[i], Replay(init.program, s.hist.log[..i]);
    assert t.observed[0..] == t.observed;
    FreshContents(t.observed, before);
    OneStore(t.session, t.observed, t.writes, s.schema.cells, Contents(before));
  }

  /**
   A cycle whose upgrade had to wait read from two stores: before the upgrade from the store when it was put
   off, afterwards from the store at its place in the serial order, under the copies made before.
   */
  lemma WaitedTransactionReads(init: State, acts: seq<Action>, s: State, i: nat)
    requires Reaches(init, acts, s) && i < |s.hist.log| && s.hist.log[i].HostTxn? && s.hist.log[i].early > 0
    ensures var t, x := s.hist.log[i], s.hist.log[i].session;
            && x.mark <= |x.ops| && OnlyGets(x.ops[..x.mark]) && t.early <= |t.observed| && t.point <= i
            && t.writes == Writes(x.ops)
            && x.values ==
                 DirectReads(Contents(Replay(init.program, s.hist.log[..t.point])), x.ops[..x.mark]) +
                 DirectReads(Contents(Replay(init.program, s.hist.log[..i])) + AsStore(t.observed[..t.early]),
                   x.ops[x.mark..])
  {
    hide Init, Run, Replay, Explained, DirectReads, Writes;
    Logged(init, acts, s, i);
    var t, x, log := s.hist.log[i], s.hist.log[i].session, s.hist.log[..i];
    assert log[..t.point] == s.hist.log[..t.point];
    var first, second := Replay(init.program, log[..t.point]), Replay(init.program, log);
    FreshContents(t.observed[..t.early], first);
    FreshContents(t.observed[t.early..], second);
    ExplainedOn(x, t.observed, Contents(first), Contents(second));
  }

  lemma ExplainedOn(x: Session, got: seq<Seen>, first: Store, second: Store)
    requires x.mark <= |x.ops| && x.fetched <= |got| && Explained(x, got)
    requires Fresh(got[..x.fetched], Some(first)) && Fresh(got[x.fetched..], Some(second))
    ensures x.values == DirectReads(first, x.ops[..x.mark]) + DirectReads(second + AsStore(got[..x.fetched]),
            x.ops[x.mark..])
  {
    hide DirectReads;
    assert Direct(x, got, first, second);
  }

  /**
   Such a cycle is atomic, in what it was given and in what its reads returned, exactly when no transaction
   between the two places left a cell that it had read with another value.
   */
  lemma WaitedTransactionIsAtomicIff(init: State, acts: seq<Action>, s: State, i: nat)
    requires Reaches(init, acts, s) && i < |s.hist.log| && s.hist.log[i].HostTxn? && s.hist.log[i].early > 0
    ensures var t, x, before := s.hist.log[i], s.hist.log[i].session, Replay(init.program, s.hist.log[..i]);
            && t.point <= i && HostsOnly(s.hist.log[t.point..i]) && t.early <= |t.observed| && x.mark <= |x.ops|
            && var early := t.observed[..t.early];
               && (Fresh(t.observed, before) <==> !Undone(early, s.hist.log[t.point..i]))
               && (!Undone(early, s.hist.log[t.point..i]) ==> x.values == DirectReads(Contents(before), x.ops))
               && (ReadBack(early, x.ops[..x.mark]) && x.values == DirectReads(Contents(before), x.ops) ==>
                     !Undone(early, s.hist.log[t.point..i]))
  {
    hide Init, Run, Replay, Explained, DirectReads, Writes, Undone, ReadBack;
    Logged(init, acts, s, i);
    var t, x, log := s.hist.log[i], s.hist.log[i].session, s.hist.log[..i];
    var early, before, late := t.observed[..t.early], Replay(init.program, log), log[t.point..];
    assert late == s.hist.log[t.point..i];
    var first := Replay(init.program, log[..t.point]);
    assert log == log[..t.point] + late;
    ReplayHosts(init.program, log[..t.point], late);
    FreshAfter(early, first, late);
    FreshParts(t.observed, t.early, before);
    if Fresh(t.observed, before) {
      FreshContents(t.observed, before);
      OneStore(x, t.observed, t.writes, s.schema.cells, Contents(before));
    } else if ReadBack(early, x.ops[..x.mark]) && x.values == DirectReads(Contents(before), x.ops) {
      WaitedTransactionReads(init, acts, s, i);
      assert log[..t.point] == s.hist.log[..t.point];
      SamePrefix(x, Contents(first), Contents(before), Contents(before) + AsStore(early));
      SameReads(x.ops[..x.mark], early, first, late);
    }
  }

  lemma FreshParts(seen: seq<Seen>, n: nat, program: Option<Store>)
    requires n <= |seen|
    ensures Fresh(seen, program) <==> Fresh(seen[..n], program) && Fresh(seen[n..], program)
  {
    hide Current;
    var fore, late := seen[..n], seen[n..];
    if Fresh(seen, program) {
      forall i | 0 <= i < |late| ensures Current(late[i], program) {
        assert late[i] == seen[n + i];
      }
      forall i | 0 <= i < n ensures Current(fore[i], program) {
        assert fore[i] == seen[i];
      }
    } else {
      var i :| 0 <= i < |seen| && !Current(seen[i], program);
      assert seen[i] == if i < n then fore[i] else late[i - n];
    }
  }

  /** Reads that all came from one store and in part from another are the same on both. */
  lemma SamePrefix(x: Session, first: Store, store: Store, second: Store)
    requires x.mark <= |x.ops| && OnlyGets(x.ops[..x.mark]) && x.values == DirectReads(store, x.ops)
    requires x.values == DirectReads(first, x.ops[..x.mark]) + DirectReads(second, x.ops[x.mark..])
    ensures DirectReads(first, x.ops[..x.mark]) == DirectReads(store, x.ops[..x.mark])
  {
    var fore, late := x.ops[..x.mark], x.ops[x.mark..];
    assert x.ops == fore + late;
    DirectSplit(store, fore, late);
    var a, b := DirectReads(first, fore), DirectReads(store, fore);
    if fore != [] {
      GetsRead(first, fore, 0);
      GetsRead(store, fore, 0);
    }
    assert |a| == |b| && a == x.values[..|a|] && b == x.values[..|b|];
  }

  /** Reads that return the same before and after a stretch of the log read nothing it changed. */
  lemma SameReads(ops: seq<Op>, early: seq<Seen>, program: Option<Store>, more: seq<Txn>)
    requires OnlyGets(ops) && ReadBack(early, ops) && HostsOnly(more) && Fresh(early, program)
    requires DirectReads(Contents(program), ops) == DirectReads(Contents(Apply(program, Overlaid(more))), ops)
    ensures Fresh(early, Apply(program, Overlaid(more)))
  {
    var now := Apply(program, Overlaid(more));
    forall i | 0 <= i < |early|
      ensures early[i].cell in Contents(now) && Contents(now)[early[i].cell] == early[i].value
    {
      var k :| 0 <= k < |ops| && ops[k] == Get(early[i].cell);
      GetsRead(Contents(program), ops, k);
      GetsRead(Contents(now), ops, k);
    }
  }
}
