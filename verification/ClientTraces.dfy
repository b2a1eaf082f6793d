/**
 From the caching client to the log of the server. A client is driven to each component by the script that
 ClientCache keeps for it; in every run of a component in which the client plays that script, the log holds the
 client's cycles with what direct access returns, and the requests meet a server that knows what it granted.
 */
module ClientTraces {
  import opened Prelude
  import opened LockProtocol
  import opened LockInvariant
  import opened LockScripts
  import opened LockTraces
  import opened LockEarly
  import opened LockRuns
  import opened LockAtomicity
  import opened ClientCache
  import opened ClientDiscipline
  import opened LockServer
  import Access

  /** A run of the component in which the client has done so far what its script says. */
  ghost predicate Plays(l: Layout, r: nat, script: seq<Turn>, init: State, acts: seq<Action>, s: State, me: Addr) {
    && Reaches(init, acts, s) && me in init.hosts && init.hosts[me] == FRESH && init.schema == l.SchemaOf(r)
    && Everywhere(init, acts, me) && Script(init, acts, me) == script
  }

  /**
   Every transaction that a client has in the log of a component is a cycle it sent there. If the cycle's upgrade did
   not have to wait, its reads returned what direct access at its place in the serial order returns; if it had to,
   they did exactly when no transaction in between left a cell it had read with another value.
   */
  lemma ClientCyclesAreAtomic(l: Layout, hosts: map<nat, Host>, scripts: map<nat, seq<Turn>>, r: nat, init: State,
                              acts: seq<Action>, s: State, me: Addr, i: nat)
    requires AllPlayed(l, hosts, scripts) && AllHeed(hosts) && r in hosts
    requires Plays(l, r, scripts[r], init, acts, s, me)
    requires i < |s.hist.log| && s.hist.log[i].HostTxn? && s.hist.log[i].host == me
    ensures var t, before := s.hist.log[i], Replay(init.program, s.hist.log[..i]);
            && (exists k :: 0 <= k < |hosts[r].up| && SentFrom(hosts[r].up[k], t, before))
            && t.writes == Access.Writes(t.session.ops)
            && (t.early > 0 ==>
                  && t.point <= i && t.early <= |t.observed| && HostsOnly(s.hist.log[t.point..i])
                  && (t.session.values == Access.DirectReads(Contents(before), t.session.ops) <==>
                      !Undone(t.observed[..t.early], s.hist.log[t.point..i])))
  {
    hide Init, Run, Replay, Script, Play, Carried, Contents, Heeds, Undone, HostsOnly, Everywhere;
    ScriptedCyclesAreAtomic(init, acts, s, me, scripts[r], i);
    var t, before := s.hist.log[i], Replay(init.program, s.hist.log[..i]);
    var k :| 0 <= k < |hosts[r].up| && SentFrom(hosts[r].up[k], t, before);
    if t.early > 0 {
      WaitedTransactionIsAtomicIff(init, acts, s, i);
      Quoted(hosts[r], k, t);
      Logged(init, acts, s, i);
      WaitedTransactionReads(init, acts, s, i);
    } else {
      TransactionIsAtomic(init, acts, s, i);
    }
  }

  /** What a transaction was given early was read before its upgrade. */
  lemma Quoted(h: Host, k: nat, t: Txn)
    requires Heeds(h, {}) && k < |h.up| && Carried(h.up[k], t)
    ensures t.HostTxn? && ReadEarly(t.observed, t.session)
  {
    assert Quotes(h.up[k]);
  }

  // ---- The servers that a client meets ----

  /** A run of a component up to the moment when it handles the client's next lock request, if there is one. */
  datatype Meeting = Meeting(init: State, acts: seq<Action>, state: State) {
    function At(): Serving {
      Serving(state.server, Started(state))
    }
  }

  /** Everything the client has sent there before has been handled, and it holds what it was granted in this cycle. */
  ghost predicate Settled(m: Meeting, me: Addr, locks: Locks, r: nat, cycle: nat) {
    && Reaches(m.init, m.acts, m.state) && me in m.state.hosts && Pipeline(m.state, me) == []
    && var h := m.state.hosts[me];
       h.phase == PhaseOf(locks, r) && (Held(locks, r) <==> h.cycle == cycle)
  }

  /** In every run of the protocol the server then knows the client by exactly that. */
  lemma SettledIsSeen(m: Meeting, me: Addr, locks: Locks, r: nat, cycle: nat)
    requires Settled(m, me, locks, r, cycle)
    ensures Sees(m.At(), me.host, locks, r, cycle)
  {
    hide Init, Run, WellFormed, ViewOf, Replay, Serial, Within;
    CoreOf(m);
    assert HostGood(m.state, me);
    if Held(locks, r) {
      HolderStarted(m.state, me);
    }
  }

  lemma CoreOf(m: Meeting)
    requires Reaches(m.init, m.acts, m.state)
    ensures Core(m.state)
  {
    hide Init, Run, Core;
    ReachableIsGood(m.init, m.acts, m.state);
  }

  function Servers(meetings: seq<Meeting>): (servers: seq<Serving>)
    ensures |servers| == |meetings| && forall i :: 0 <= i < |meetings| ==> servers[i] == meetings[i].At()
  {
    seq(|meetings|, i requires 0 <= i < |meetings| => meetings[i].At())
  }

  /** Until a request is thrown at, every access is made like that. */
  ghost predicate AllSettled(ops: seq<Access.Op>, meetings: seq<Meeting>, me: Addr, cycle: nat, l: Layout) {
    && |meetings| == |ops|
    && forall i :: 0 <= i < |ops| && (forall j :: 0 <= j < i ==> !ThrownAt(ops, j, Servers(meetings), me, cycle, l)) ==>
         Settled(meetings[i], me, LocksOf(ops[..i], l), l.Root(ops[i].cell), cycle)
  }

  /**
   A client that makes its accesses in the protocol meets servers that know what they granted, so some lock request of
   its cycle is thrown at exactly when the cycle is not disciplined.
   */
  lemma ProtocolThrowsIff(ops: seq<Access.Op>, meetings: seq<Meeting>, me: Addr, cycle: nat, l: Layout)
    requires AllSettled(ops, meetings, me, cycle, l)
    ensures var servers := Servers(meetings);
            && Served(ops, servers, me, cycle, l)
            && ((exists i :: 0 <= i < |ops| && ThrownAt(ops, i, servers, me, cycle, l)) <==> !Disciplined({}, ops, l))
  {
    hide Settled, Sees, ThrownAt, LocksOf;
    var servers := Servers(meetings);
    forall i | 0 <= i < |ops| && (forall j :: 0 <= j < i ==> !ThrownAt(ops, j, servers, me, cycle, l))
      ensures Sees(servers[i], me.host, LocksOf(ops[..i], l), l.Root(ops[i].cell), cycle)
    {
      SettledIsSeen(meetings[i], me, LocksOf(ops[..i], l), l.Root(ops[i].cell), cycle);
    }
    SomeRequestThrownIff(ops, servers, me, cycle, l);
  }
}
