/**
 Which accesses make a client ask for a lock that the server throws at (api/egcomponent/traits.hpp:287-318,
 src/component/activities.cpp:300-374).
 */
module ClientDiscipline {
  import opened Prelude
  import opened LockTable
  import opened LockServer
  import opened ClientCache
  import Access
  import LockTheorems

  /** The lock server of a component at some moment, and whether its round is in progress. */
  datatype Serving = Serving(server: Server, started: bool)

  /** The server knows the host by the locks it has been granted in this cycle. */
  ghost predicate Sees(at: Serving, host: nat, locks: Locks, r: nat, cycle: nat) {
    && WellFormed(at.server, at.started)
    && var v := ViewOf(at.server, host);
       if Held(locks, r) then at.started && v == Granted((r, true) in locks, cycle) else v.Out? && v.seen != Some(cycle)
  }

  /** The lock bit is not set, so readlock or writelock sends a request, and the server throws at it. */
  predicate ThrownAt(ops: seq<Access.Op>, i: nat, servers: seq<Serving>, me: Addr, cycle: nat, l: Layout)
    requires i < |ops| == |servers|
  {
    l.LockOf(ops[i]) !in LocksOf(ops[..i], l) && OnLock(servers[i].server, me, cycle, ops[i].Put?).Thrown?
  }

  /** Every access meets a server that knows what was granted before; what follows a throw does not matter. */
  ghost predicate Served(ops: seq<Access.Op>, servers: seq<Serving>, me: Addr, cycle: nat, l: Layout) {
    && |servers| == |ops|
    && forall i :: 0 <= i < |ops| && (forall j :: 0 <= j < i ==> !ThrownAt(ops, j, servers, me, cycle, l)) ==>
         Sees(servers[i], me.host, LocksOf(ops[..i], l), l.Root(ops[i].cell), cycle)
  }

  /** The first read of a component that is already write locked. */
  predicate Breaks(locks: Locks, op: Access.Op, l: Layout) {
    op.Get? && (l.Root(op.cell), true) in locks && (l.Root(op.cell), false) !in locks
  }

  lemma RequestThrownIff(at: Serving, me: Addr, locks: Locks, op: Access.Op, cycle: nat, l: Layout)
    requires Sees(at, me.host, locks, l.Root(op.cell), cycle)
    ensures l.LockOf(op) !in locks && OnLock(at.server, me, cycle, op.Put?).Thrown? <==> Breaks(locks, op, l)
  {
    hide OnLock, WellFormed, ViewOf;
    if Held(locks, l.Root(op.cell)) {
      LockTheorems.HolderRequestAcceptedIff(at.server, me, cycle, op.Put?);
    } else {
      LockTheorems.FreshRequestAcceptedIff(at.server, at.started, me, cycle, op.Put?);
    }
  }

  lemma {:induction false} DisciplinedIff(locks: Locks, ops: seq<Access.Op>, l: Layout)
    ensures Disciplined(locks, ops, l) <==>
            forall i :: 0 <= i < |ops| ==> !Breaks(locks + LocksOf(ops[..i], l), ops[i], l)
    decreases |ops|
  {
    if ops != [] {
      var rest := ops[1..];
      var more := locks + {l.LockOf(ops[0])};
      DisciplinedIff(more, rest, l);
      assert locks + LocksOf(ops[..0], l) == locks;
      forall i | 0 <= i < |rest| ensures locks + LocksOf(ops[..i + 1], l) == more + LocksOf(rest[..i], l) {
        assert ops[..i + 1] == [ops[0]] + rest[..i];
      }
      if i :| 0 <= i < |ops| && Breaks(locks + LocksOf(ops[..i], l), ops[i], l) && i > 0 {
        assert rest[i - 1] == ops[i];
      }
      if i :| 0 <= i < |rest| && Breaks(more + LocksOf(rest[..i], l), rest[i], l) {
        assert rest[i] == ops[i + 1] && Breaks(locks + LocksOf(ops[..i + 1], l), ops[i + 1], l);
      }
    }
  }

  /** Up to the first break nothing is thrown at. */
  lemma {:induction false} NothingThrown(ops: seq<Access.Op>, i: nat, servers: seq<Serving>, me: Addr, cycle: nat,
                                         l: Layout)
    requires Served(ops, servers, me, cycle, l) && i <= |ops|
    requires forall j :: 0 <= j < i ==> !Breaks(LocksOf(ops[..j], l), ops[j], l)
    ensures forall j :: 0 <= j < i ==> !ThrownAt(ops, j, servers, me, cycle, l)
  {
    hide Sees, ThrownAt, Breaks, LocksOf;
    if i > 0 {
      NothingThrown(ops, i - 1, servers, me, cycle, l);
      ThrownIffBreaks(ops, i - 1, servers, me, cycle, l);
    }
  }

  lemma ThrownIffBreaks(ops: seq<Access.Op>, i: nat, servers: seq<Serving>, me: Addr, cycle: nat, l: Layout)
    requires Served(ops, servers, me, cycle, l) && i < |ops|
    requires forall j :: 0 <= j < i ==> !ThrownAt(ops, j, servers, me, cycle, l)
    ensures ThrownAt(ops, i, servers, me, cycle, l) <==> Breaks(LocksOf(ops[..i], l), ops[i], l)
  {
    hide Sees, Breaks, LocksOf, OnLock;
    RequestThrownIff(servers[i], me, LocksOf(ops[..i], l), ops[i], cycle, l);
  }

  /** A server throws at some lock request of a cycle exactly when the cycle is not disciplined. */
  lemma SomeRequestThrownIff(ops: seq<Access.Op>, servers: seq<Serving>, me: Addr, cycle: nat, l: Layout)
    requires Served(ops, servers, me, cycle, l)
    ensures (exists i :: 0 <= i < |ops| && ThrownAt(ops, i, servers, me, cycle, l)) <==> !Disciplined({}, ops, l)
  {
    hide Sees, Breaks, LocksOf, ThrownAt, Served;
    DisciplinedIff({}, ops, l);
    forall i | 0 <= i < |ops| ensures {} + LocksOf(ops[..i], l) == LocksOf(ops[..i], l) {
    }
    if Disciplined({}, ops, l) {
      NothingThrown(ops, |ops|, servers, me, cycle, l);
    } else {
      var i := FirstBreak(ops, l);
      NothingThrown(ops, i, servers, me, cycle, l);
      ThrownIffBreaks(ops, i, servers, me, cycle, l);
    }
  }

  lemma {:induction false} FirstBreak(ops: seq<Access.Op>, l: Layout) returns (i: nat)
    requires exists j :: 0 <= j < |ops| && Breaks(LocksOf(ops[..j], l), ops[j], l)
    ensures i < |ops| && Breaks(LocksOf(ops[..i], l), ops[i], l)
    ensures forall j :: 0 <= j < i ==> !Breaks(LocksOf(ops[..j], l), ops[j], l)
  {
    hide Breaks, LocksOf;
    i := 0;
    while !Breaks(LocksOf(ops[..i], l), ops[i], l)
      invariant i < |ops|
      invariant forall j :: 0 <= j < i ==> !Breaks(LocksOf(ops[..j], l), ops[j], l)
      decreases |ops| - i
    {
      i := i + 1;
    }
  }

  /** The shortest such cycle: one write, then a first read of the same component, even of the cell just written. */
  lemma WriteThenReadIsThrown(l: Layout, c: Cell, v: Value, d: Cell, me: Addr, cycle: nat)
    returns (servers: seq<Serving>)
    requires l.Root(c) == l.Root(d)
    ensures var ops := [Access.Put(c, v), Access.Get(d)];
            !Disciplined({}, ops, l) && Served(ops, servers, me, cycle, l) && ThrownAt(ops, 1, servers, me, cycle, l)
  {
    var ops := [Access.Put(c, v), Access.Get(d)];
    var t := [Entry(me.coordinator, me.host, cycle, Writing)];
    servers := [Serving(Server(None, None), false), Serving(Server(Some(t), None), true)];
    assert ops[..0] == [] && ops[..1] == [Access.Put(c, v)] && ops[1..] == [Access.Get(d)];
    FindIs(t, me.host, 0);
    assert Find(t, me.host) == 0;
    assert Lookup(t, me.host) == Some(t[0]);
  }
}
