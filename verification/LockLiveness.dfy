/**
 When a round ends. From every state in which the main thread waits, the round can be brought to its release
 unless a host waits for a value that no program can give it; then it never ends.
 */
module LockLiveness {
  import opened Prelude
  import opened LockTable
  import opened LockServer
  import opened LockProtocol
  import opened LockInvariant
  import opened LockHistory
  import opened LockRuns
  import opened WriteStream
  import Access

  /** Steps that begin nothing new: messages move, replies are taken, holders commit and release. */
  predicate Drains(act: Action) {
    act.Process? || act.Deliver? || act.ReceiveGrant? || act.ReceiveValue? || act.CommitWrites? || act.ReleaseLock?
  }

  // ---- What is left to do ----

  function Duty(phase: Phase): nat {
    match phase
    case Idle => 0
    case Committed => 4
    case _ => 8
  }

  function Potential(h: Host): int {
    3 * |h.up| + |h.down| + 2 * (h.asked - h.sent) + Duty(h.phase)
  }

  ghost function Sum(hosts: map<Addr, Host>): int
    decreases |hosts|
  {
    if hosts == map[] then 0
    else
      var a :| a in hosts;
      assert |hosts - {a}| < |hosts| by { Smaller(hosts, a); }
      Potential(hosts[a]) + Sum(hosts - {a})
  }

  lemma Smaller(hosts: map<Addr, Host>, a: Addr)
    requires a in hosts
    ensures |hosts - {a}| == |hosts| - 1
  {
    assert (hosts - {a}).Keys == hosts.Keys - {a};
    assert |hosts.Keys| == |hosts| && |(hosts - {a}).Keys| == |hosts - {a}|;
  }

  lemma {:induction false} SumRemove(hosts: map<Addr, Host>, a: Addr)
    requires a in hosts
    ensures Sum(hosts) == Potential(hosts[a]) + Sum(hosts - {a})
    decreases |hosts|
  {
    hide Potential;
    var b :| b in hosts && Sum(hosts) == Potential(hosts[b]) + Sum(hosts - {b});
    if b != a {
      Smaller(hosts, a);
      Smaller(hosts, b);
      SumRemove(hosts - {b}, a);
      SumRemove(hosts - {a}, b);
      assert hosts - {b} - {a} == hosts - {a} - {b};
    }
  }

  lemma SumUpdate(hosts: map<Addr, Host>, a: Addr, h: Host)
    requires a in hosts
    ensures Sum(hosts[a := h]) == Sum(hosts) - Potential(hosts[a]) + Potential(h)
  {
    hide Potential;
    SumRemove(hosts, a);
    SumRemove(hosts[a := h], a);
    assert hosts[a := h] - {a} == hosts - {a};
  }

  lemma {:induction false} SumPush(hosts: map<Addr, Host>, grants: seq<Addr>, r: Response)
    requires NoDuplicates(grants) && forall a :: a in grants ==> a in hosts
    ensures Sum(Push(hosts, grants, r)) == Sum(hosts) - |grants|
  {
    if grants != [] {
      var g := grants[0];
      var n := hosts[g].(down := hosts[g].down + [r], sent := hosts[g].sent + 1);
      SumUpdate(hosts, g, n);
      SumPush(hosts[g := n], grants[1..], r);
    }
  }

  lemma {:induction false} SumNatural(hosts: map<Addr, Host>)
    requires forall a :: a in hosts ==> Potential(hosts[a]) >= 0
    ensures Sum(hosts) >= 0
    decreases |hosts|
  {
    hide Potential;
    if hosts != map[] {
      var a :| a in hosts;
      Smaller(hosts, a);
      SumRemove(hosts, a);
      SumNatural(hosts - {a});
    }
  }

  ghost function Left(s: State): int {
    Sum(s.hosts) + 2 * |s.queue|
  }

  lemma LeftNatural(s: State)
    requires Core(s)
    ensures Left(s) >= 0
  {
    hide WellFormed, Within, Serialised, ViewOf, Coupled;
    forall a | a in s.hosts ensures Potential(s.hosts[a]) >= 0 {
      assert HostGood(s, a);
    }
    SumNatural(s.hosts);
  }

  // ---- Every draining step leaves less to do ----

  lemma ClientFalls(s: State, act: Action)
    requires IsClient(act) && Drains(act) && ClientStep(s, act).Next?
    ensures Left(ClientStep(s, act).state) < Left(s)
  {
    SumUpdate(s.hosts, act.a, HostStep(s.hosts[act.a], act, s.schema).value);
  }

  lemma DeliverFalls(s: State, a: Addr)
    requires DeliverStep(s, a).Next?
    ensures Left(DeliverStep(s, a).state) < Left(s)
  {
    SumUpdate(s.hosts, a, s.hosts[a].(up := s.hosts[a].up[1..]));
  }

  lemma SettleFalls(s: State, r: Handled)
    requires r.Done? && NoDuplicates(r.grants) && forall a :: a in r.grants ==> a in s.hosts
    ensures Left(Settle(s, r)) == Left(s) - |r.grants|
  {
    SumPush(s.hosts, r.grants, Grant(Now(s)));
  }

  lemma SamePotential(s: State, a: Addr, h: Host)
    requires a in s.hosts && Potential(h) == Potential(s.hosts[a])
    ensures Left(WithHost(s, a, h)) == Left(s)
  {
    hide Potential;
    SumUpdate(s.hosts, a, h);
  }

  lemma ProcessFalls(s: State)
    requires Core(s) && ProcessStep(s).Next?
    ensures Left(ProcessStep(s).state) < Left(s)
  {
    hide Core, ProcessStep;
    assert s.queue != [] by { ProcessHasEvent(s); }
    match s.queue[0]
    case StartToken => StartFalls(s);
    case Msg(a, LockReq(w, c)) => LockFalls(s, a, w, c);
    case Msg(a, UnlockReq(_, _, _, _)) => UnlockFalls(s, a, s.queue[0].req);
    case Msg(a, req) => AccessFalls(s, a, req);
  }

  lemma StartFalls(s: State)
    requires Core(s) && s.queue != [] && s.queue[0].StartToken? && ProcessStep(s).Next?
    ensures Left(ProcessStep(s).state) < Left(s)
  {
    hide OnStart, Settle, Sum, WellFormed, HostsGood, Serialised, Within;
    QueueTail(s);
    assert WellFormed(s.server, false) && s.server.current.Some?;
    StartGrants(s.server);
    var r := OnStart(s.server);
    forall a | a in r.grants ensures a in s.hosts {
      assert GrantedRightly(s.server, r.server, a, r.grants);
      EntryIsHost(s, a);
    }
    SettleFalls(s.(queue := s.queue[1..]), r);
  }

  lemma EntryIsHost(s: State, a: Addr)
    requires Topology(s) && s.server.current.Some?
    requires Lookup(s.server.current.value, a.host).Some? && Lookup(s.server.current.value, a.host).value.Address() == a
    ensures a in s.hosts
  {
  }

  lemma LockFalls(s: State, a: Addr, write: bool, cycle: nat)
    requires Core(s) && s.queue != [] && s.queue[0] == Msg(a, LockReq(write, cycle)) && ProcessStep(s).Next?
    ensures Left(ProcessStep(s).state) < Left(s)
  {
    hide Core, OnLock, Settle, Sum, ViewOf, LockRecorded;
    LockFacts(s, a, write, cycle);
    var r := OnLock(s.server, a, cycle, write);
    var h := LockRecorded(s.hosts[a], ViewOf(s.server, a.host), a in r.grants, |s.hist.log|);
    assert Potential(h) == Potential(s.hosts[a]) by {
      LockedPotential(s.hosts[a], ViewOf(s.server, a.host), a in r.grants, |s.hist.log|);
    }
    var s1 := s.(queue := s.queue[1..]);
    SamePotential(s1, a, h);
    SettleFalls(WithHost(s1, a, h), r);
  }

  lemma LockedPotential(h: Host, v: View, granted: bool, point: nat)
    ensures Potential(LockRecorded(h, v, granted, point)) == Potential(h)
  {
  }

  lemma UnlockFalls(s: State, a: Addr, req: Request)
    requires Core(s) && s.queue != [] && s.queue[0] == Msg(a, req) && req.UnlockReq? && ProcessStep(s).Next?
    ensures Left(ProcessStep(s).state) < Left(s)
  {
    hide OnUnlock, Settle, Sum, ViewOf, WellFormed, HostsGood, Serialised, Within;
    UnlockFacts(s, a, req);
    var r := OnUnlock(s.server, a, req.cycle);
    UnlockedGrants(s.server, a, req.cycle, r);
    forall b | b in r.grants ensures b in s.hosts {
      if b.host != a.host {
        assert GrantedRightly(s.server, r.server, b, r.grants);
        EntryIsHost(s, b);
      }
    }
    var s1 := s.(queue := s.queue[1..]);
    SamePotential(s1, a, Finish(s.hosts[a], req.cycle));
    SettleFalls(WithHost(s1, a, Finish(s.hosts[a], req.cycle)), r);
    HistoryIsFree(Settle(WithHost(s1, a, Finish(s.hosts[a], req.cycle)), r), ProcessStep(s).state);
  }

  lemma HistoryIsFree(s: State, n: State)
    requires n.hosts == s.hosts && n.queue == s.queue
    ensures Left(n) == Left(s)
  {
  }

  lemma AccessFalls(s: State, a: Addr, req: Request)
    requires Core(s) && s.queue != [] && s.queue[0] == Msg(a, req) && (req.ReadReq? || req.WriteReq?)
             && ProcessStep(s).Next?
    ensures Left(ProcessStep(s).state) < Left(s)
  {
    hide Core, OnAccess, Decoded, Sum;
    AccessFacts(s, a, req);
    SumUpdate(s.hosts, a, ProcessStep(s).state.hosts[a]);
  }

  lemma DrainFalls(s: State, act: Action)
    requires Core(s) && Drains(act) && Step(s, act).Next?
    ensures Left(Step(s, act).state) < Left(s)
  {
    hide Core, ProcessStep, Left;
    match act
    case Process => ProcessFalls(s);
    case Deliver(a) => DeliverFalls(s, a);
    case _ => ClientFalls(s, act);
  }

  // ---- Some draining step is always possible ----

  /** A host that waits for a value no program will give it, or has been refused one. */
  predicate Blocked(h: Host) {
    h.phase.Stuck? || h.phase.AwaitValue?
  }

  predicate NobodyBlocked(s: State) {
    s.program.Some? || forall a :: a in s.hosts ==> !Blocked(s.hosts[a])
  }

  lemma {:induction false} OrderOf(cells: set<Cell>) returns (order: seq<Cell>)
    ensures CellSet(order) == cells
  {
    if cells == {} {
      order := [];
    } else {
      var c :| c in cells;
      var rest := OrderOf(cells - {c});
      order := rest + [c];
      SetAppend(rest, c);
    }
  }

  lemma CommitPossible(h: Host, schema: Schema) returns (order: seq<Cell>)
    requires schema.Ok() && forall c :: c in h.own ==> schema.Accepts(c, h.own[c])
    ensures CellSet(order) == h.own.Keys && Sendable(order, h.own, schema.kinds)
  {
    order := OrderOf(h.own.Keys);
    forall i | 0 <= i < |order| ensures SendableCell(order[i], h.own, schema.kinds) {
      assert order[i] in CellSet(order);
      RoomyArrives(schema.kinds, order[i].typeId, h.own[order[i]]);
    }
  }

  lemma HolderExists(s: State) returns (a: Addr)
    requires Core(s) && Started(s)
    ensures a in s.hosts && ViewOf(s.server, a.host).Granted?
  {
    hide HostGood, Serialised, Exclusive, FutureOk, Tokens;
    var t := s.server.current.value;
    var h :| Is(Lookup(t, h), Reading) || Is(Lookup(t, h), Writing);
    a := Lookup(t, h).value.Address();
    assert a.host == h;
  }

  lemma HolderCanMove(s: State, a: Addr) returns (act: Action)
    requires s.queue == [] && s.schema.Ok() && a in s.hosts && HostGood(s, a) && ViewOf(s.server, a.host).Granted?
    requires s.program.Some? || !Blocked(s.hosts[a])
    ensures Drains(act) && Step(s, act).Next?
  {
    hide ViewOf, Carries;
    var h := s.hosts[a];
    assert Pipeline(s, a) == h.up;
    if h.up != [] {
      act := Deliver(a);
    } else {
      match h.phase
      case AwaitLock(_) => act := ReceiveGrant(a);
      case AwaitUpgrade => act := ReceiveGrant(a);
      case AwaitValue(_, _) => act := ReceiveValue(a);
      case Holding(true) =>
        var order := CommitPossible(h, s.schema);
        act := CommitWrites(a, order);
      case Holding(false) => act := ReleaseLock(a);
      case _ => act := ReleaseLock(a);
    }
  }

  lemma CanDrain(s: State) returns (act: Action)
    requires Core(s) && s.main == Waiting && !s.released && NobodyBlocked(s)
    ensures Drains(act) && Step(s, act).Next?
  {
    hide Serial, Replay, HostOk;
    if s.queue != [] {
      act := Process;
      StepKeeps(s, act);
      assert ProcessStep(s) != Disabled;
    } else {
      var a := HolderExists(s);
      assert HostGood(s, a);
      act := HolderCanMove(s, a);
    }
  }

  // ---- A round that is not blocked ends ----

  lemma DrainKeepsWaiting(s: State, act: Action)
    requires Core(s) && s.main == Waiting && Drains(act) && Step(s, act).Next?
    ensures var n := Step(s, act).state; n.main == Waiting && (NobodyBlocked(s) ==> NobodyBlocked(n))
  {
    hide Core, OnLock, OnUnlock, OnStart, OnAccess, ViewOf, LockRecorded, DecodeWrites;
    var n := Step(s, act).state;
    if act.Process? {
      PhasesStay(s);
    } else if act.Deliver? {
    } else {
      assert n.hosts == s.hosts[act.a := n.hosts[act.a]];
    }
  }

  ghost predicate PhasesKept(s: State, n: State) {
    && n.main == s.main && n.program.Some? == s.program.Some? && n.hosts.Keys == s.hosts.Keys
    && forall a :: a in s.hosts ==> n.hosts[a].phase == s.hosts[a].phase
  }

  /** The server changes nobody's phase, and a loaded program stays loaded. */
  lemma PhasesStay(s: State)
    requires Core(s) && ProcessStep(s).Next?
    ensures PhasesKept(s, ProcessStep(s).state)
  {
    hide Core, ProcessStep, PhasesKept;
    assert s.queue != [] by { ProcessHasEvent(s); }
    match s.queue[0]
    case StartToken => StartPhases(s);
    case Msg(a, LockReq(write, cycle)) => LockPhases(s, a, write, cycle);
    case Msg(a, UnlockReq(_, _, _, _)) => UnlockPhases(s, a, s.queue[0].req);
    case Msg(a, req) => AccessPhases(s, a, req);
  }

  lemma StartPhases(s: State)
    requires Core(s) && s.queue != [] && s.queue[0].StartToken? && ProcessStep(s).Next?
    ensures PhasesKept(s, ProcessStep(s).state)
  {
    hide Core, OnStart, Settle;
    assert WellFormed(s.server, false) && s.server.current.Some? by { StartServer(s); }
    StartGrants(s.server);
    SettledPhases(s, s.(queue := s.queue[1..]), OnStart(s.server));
  }

  lemma SettledPhases(s: State, m: State, r: Handled)
    requires PhasesKept(s, m) && r.Done? && NoDuplicates(r.grants)
    ensures PhasesKept(s, Settle(m, r))
  {
    SettleSame(m, r);
  }

  lemma LockPhases(s: State, a: Addr, write: bool, cycle: nat)
    requires Core(s) && s.queue != [] && s.queue[0] == Msg(a, LockReq(write, cycle)) && ProcessStep(s).Next?
    ensures PhasesKept(s, ProcessStep(s).state)
  {
    hide Core, OnLock, Settle, ViewOf, LockRecorded;
    LockFacts(s, a, write, cycle);
    var r := OnLock(s.server, a, cycle, write);
    LockedSame(s.hosts[a], ViewOf(s.server, a.host), a in r.grants, |s.hist.log|);
    var h := LockRecorded(s.hosts[a], ViewOf(s.server, a.host), a in r.grants, |s.hist.log|);
    SettledPhases(s, WithHost(s.(queue := s.queue[1..]), a, h), r);
  }

  lemma UnlockPhases(s: State, a: Addr, req: Request)
    requires Core(s) && s.queue != [] && s.queue[0] == Msg(a, req) && req.UnlockReq? && ProcessStep(s).Next?
    ensures PhasesKept(s, ProcessStep(s).state)
  {
    hide Core, OnUnlock, Settle, ViewOf, Unlocked;
    UnlockFacts(s, a, req);
    var r := OnUnlock(s.server, a, req.cycle);
    UnlockedGrants(s.server, a, req.cycle, r);
    SettledPhases(s, WithHost(s.(queue := s.queue[1..]), a, Finish(s.hosts[a], req.cycle)), r);
  }

  lemma AccessPhases(s: State, a: Addr, req: Request)
    requires Core(s) && s.queue != [] && s.queue[0] == Msg(a, req) && (req.ReadReq? || req.WriteReq?)
             && ProcessStep(s).Next?
    ensures PhasesKept(s, ProcessStep(s).state)
  {
    hide Core, OnAccess, DecodeWrites;
    AccessFacts(s, a, req);
  }

  lemma StartServer(s: State)
    requires Core(s) && s.queue != [] && s.queue[0].StartToken?
    ensures WellFormed(s.server, false) && s.server.current.Some?
  {
    QueueTail(s);
  }

  /** Running from the front. */
  lemma {:induction false} RunFront(s: State, act: Action, m: State, acts: seq<Action>)
    requires Step(s, act) == Next(m)
    ensures Run(s, [act] + acts) == Run(m, acts)
  {
    hide Step;
    var all := [act] + acts;
    if acts == [] {
      assert all[..|all| - 1] == [] && all[|all| - 1] == act;
    } else {
      assert all[..|all| - 1] == [act] + acts[..|acts| - 1];
      RunFront(s, act, m, acts[..|acts| - 1]);
    }
  }

  predicate AllDrain(acts: seq<Action>) {
    forall i :: 0 <= i < |acts| ==> Drains(acts[i])
  }

  lemma {:induction false} Drained(s: State) returns (acts: seq<Action>, n: State)
    requires Core(s) && s.main == Waiting && NobodyBlocked(s)
    ensures Run(s, acts) == Next(n) && n.released && AllDrain(acts)
    decreases Left(s)
  {
    hide Core, NobodyBlocked, Drains, Step;
    if s.released {
      acts, n := [], s;
    } else {
      var act := CanDrain(s);
      StepKeeps(s, act);
      var m := Step(s, act).state;
      DrainKeepsWaiting(s, act);
      DrainFalls(s, act);
      LeftNatural(s);
      LeftNatural(m);
      var rest;
      rest, n := Drained(m);
      RunFront(s, act, m, rest);
      acts := [act] + rest;
    }
  }

  /** From every reachable state in which the main thread waits with a program loaded, messages, replies,
      commits and releases alone lead to the release of the round. */
  lemma RoundCanEnd(init: State, acts: seq<Action>, s: State) returns (more: seq<Action>, n: State)
    requires Reaches(init, acts, s) && s.main == Waiting && s.program.Some?
    ensures Run(s, more) == Next(n) && n.released && AllDrain(more)
  {
    hide Core, Run;
    ReachableIsGood(init, acts, s);
    more, n := Drained(s);
  }

  /** Every draining step leaves less to do, so there are only so many of them. */
  lemma {:induction false} DrainsFall(s: State, acts: seq<Action>)
    requires Core(s) && s.main == Waiting && NobodyBlocked(s) && AllDrain(acts) && Run(s, acts).Next?
    ensures var n := Run(s, acts).state;
            Core(n) && n.main == Waiting && NobodyBlocked(n) && Left(n) + |acts| <= Left(s)
  {
    hide Core, NobodyBlocked, Drains, Step, Left;
    if acts != [] {
      var before, act := acts[..|acts| - 1], acts[|acts| - 1];
      DrainsFall(s, before);
      var m := Run(s, before).state;
      StepKeeps(m, act);
      DrainKeepsWaiting(m, act);
      DrainFalls(m, act);
    }
  }

  /**
   In whatever order the messages, replies, commits and releases of a round come, there are at most as many of them as
   there is left to do, and as long as the round is not released another one is possible: every maximal sequence of
   them ends in the release.
   */
  lemma EveryDrainEnds(init: State, acts: seq<Action>, s: State, more: seq<Action>, n: State)
    requires Reaches(init, acts, s) && s.main == Waiting && NobodyBlocked(s)
    requires AllDrain(more) && Run(s, more) == Next(n)
    ensures |more| <= Left(s)
    ensures n.released || exists act :: Drains(act) && Step(n, act).Next?
  {
    hide Core, Run, Step, NobodyBlocked, Left, Drains;
    ReachableIsGood(init, acts, s);
    DrainsFall(s, more);
    LeftNatural(n);
    if !n.released {
      var act := CanDrain(n);
    }
  }

  // ---- A blocked round never ends ----

  lemma NothingFresh(seen: seq<Access.Seen>)
    ensures Fresh(seen, None) ==> seen == []
  {
    if seen != [] {
      var first := seen[0];
    }
  }

  /** Without a program a host that asked for a value is only ever refused. */
  lemma RefusedOnly(s: State, a: Addr)
    requires Core(s) && a in s.hosts && s.program.None? && s.hosts[a].phase.AwaitValue?
    ensures s.hosts[a].down == [] || s.hosts[a].down == [Refused]
  {
    hide ViewOf, WellFormed, Within, Serial, Replay;
    assert HostGood(s, a);
    var h := s.hosts[a];
    NothingFresh(h.seen);
  }

  ghost predicate BlockedRound(s: State, a: Addr) {
    a in s.hosts && Blocked(s.hosts[a]) && s.program.None? && s.main == Waiting && !s.released
  }

  lemma BlockedWaits(s: State, a: Addr)
    requires Core(s) && a in s.hosts && Blocked(s.hosts[a])
    ensures s.main == Waiting && !s.released
  {
    hide ViewOf, WellFormed, Within, Serial, Replay;
    assert HostGood(s, a);
    HolderStarted(s, a);
  }

  lemma BlockedStays(s: State, act: Action, a: Addr)
    requires Core(s) && BlockedRound(s, a) && Step(s, act).Next?
    ensures BlockedRound(Step(s, act).state, a)
    ensures s.hosts[a].phase.Stuck? ==> Step(s, act).state.hosts[a].phase == s.hosts[a].phase
  {
    hide Core, ProcessStep;
    var n := Step(s, act).state;
    StepKeeps(s, act);
    if act.Process? {
      assert s.queue != [] by { ProcessHasEvent(s); }
      PhasesStay(s);
    } else if IsClient(act) && act.a == a && s.hosts[a].phase.AwaitValue? {
      RefusedOnly(s, a);
    }
    BlockedWaits(n, a);
  }

  lemma {:induction false} BlockedForEver(s: State, acts: seq<Action>, a: Addr)
    requires Core(s) && BlockedRound(s, a) && Run(s, acts).Next?
    ensures Core(Run(s, acts).state) && BlockedRound(Run(s, acts).state, a)
    ensures s.hosts[a].phase.Stuck? ==> Run(s, acts).state.hosts[a].phase == s.hosts[a].phase
  {
    hide Core, Step, BlockedRound;
    if acts != [] {
      BlockedForEver(s, acts[..|acts| - 1], a);
      var m := Run(s, acts[..|acts| - 1]).state;
      StepKeeps(m, acts[|acts| - 1]);
      BlockedStays(m, acts[|acts| - 1], a);
    }
  }

  /** Once a host has been refused a value, in every continuation it keeps waiting, and so does the main thread. */
  lemma StuckForEver(init: State, acts: seq<Action>, s: State, a: Addr, more: seq<Action>, n: State)
    requires Reaches(init, acts, s) && a in s.hosts && s.hosts[a].phase.Stuck? && Run(s, more) == Next(n)
    ensures a in n.hosts && n.hosts[a].phase.Stuck? && n.main == Waiting && !n.released
  {
    hide Core, Run;
    ReachableIsGood(init, acts, s);
    BlockedWaits(s, a);
    StuckUnloaded(s, a);
    BlockedForEver(s, more, a);
  }

  lemma StuckUnloaded(s: State, a: Addr)
    requires Core(s) && a in s.hosts && s.hosts[a].phase.Stuck?
    ensures s.program.None?
  {
    hide ViewOf, WellFormed, Within, Serial, Replay;
    assert HostGood(s, a);
  }

  /** A round in progress can still be released exactly when a program is loaded or no host waits for a value
      or has been refused one. */
  lemma ReleasableIff(init: State, acts: seq<Action>, s: State)
    requires Reaches(init, acts, s) && s.main == Waiting && !s.released
    ensures (exists more, n :: Run(s, more) == Next(n) && n.released) <==> NobodyBlocked(s)
  {
    hide Core, Run;
    ReachableIsGood(init, acts, s);
    if NobodyBlocked(s) {
      var more, n := Drained(s);
    } else {
      var a :| a in s.hosts && Blocked(s.hosts[a]);
      forall more, n | Run(s, more) == Next(n) ensures !n.released {
        BlockedForEver(s, more, a);
      }
    }
  }
}
