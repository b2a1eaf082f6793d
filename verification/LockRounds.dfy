/**
 How a round advances: the work left in it strictly falls with every change of the current lock, and
 every grant of a round carries the same component cycle.
 */
module LockRounds {
  import opened Prelude
  import opened LockTable
  import opened LockServer
  import opened LockProtocol
  import opened LockInvariant

  // ---- Work ----

  /** With distinct addresses the table has at most one entry for each host there is. */
  lemma {:induction false} TableFits(t: Table, all: set<Addr>)
    requires DistinctHosts(t) && forall i :: 0 <= i < |t| ==> t[i].Address() in all
    ensures |t| <= |all|
  {
    if t != [] {
      var a := t[0].Address();
      forall i | 0 <= i < |t[1..]| ensures t[1..][i].Address() in all - {a} {
        assert t[1..][i] == t[i + 1];
      }
      TableFits(t[1..], all - {a});
    }
  }

  lemma WithinEntries(t: Table, all: set<Addr>)
    requires DistinctHosts(t) && Within(t, all)
    ensures forall i :: 0 <= i < |t| ==> t[i].Address() in all
    ensures |t| <= |all|
  {
    forall i | 0 <= i < |t| ensures t[i].Address() in all {
      EntryLooks(t, i);
    }
    TableFits(t, all);
  }

  /** Joining the table, or moving an entry to a lower-ranked state, is work done. */
  lemma PutWork(t: Table, a: Addr, cycle: nat, state: LockState, n: nat)
    requires Lookup(t, a.host).Some? ==> Rank(state) < Rank(Lookup(t, a.host).value.state)
    ensures Work(Put(t, a, cycle, state), n) < Work(t, n)
  {
    var i := Find(t, a.host);
    if i < |t| {
      RankSumUpdate(t, i, t[i].(cycle := cycle, state := state));
    } else {
      RankSumAppend(t, Entry(a.coordinator, a.host, cycle, state));
    }
  }

  lemma GrantNextWork(sv: Server, t: Table, none: Fault, n: nat)
    requires GrantNext(sv, t, none).Done?
    ensures Work(GrantNext(sv, t, none).server.current.value, n) < Work(t, n)
  {
    if Has(t, Read) {
      RankSumReaders(t);
    } else {
      var k := FirstWriter(t);
      RankSumUpdate(t, k, t[k].(state := Writing));
    }
  }

  lemma OnLockWork(sv: Server, started: bool, a: Addr, cycle: nat, write: bool, n: nat)
    requires WellFormed(sv, started) && OnLock(sv, a, cycle, write).Done?
    ensures var r := OnLock(sv, a, cycle, write).server;
            && r.current.Some?
            && (r.current == sv.current || Work(r.current.value, n) < Work(CurrentTable(sv), n))
  {
    var t := CurrentTable(sv);
    if Lookup(t, a.host).None? {
      forall state { PutWork(t, a, cycle, state, n); }
    } else if write {
      PutTwice(t, a, cycle, Write, Writing);
      if Lookup(t, a.host).value.state == Read || Lookup(t, a.host).value.state == Reading {
        PutWork(t, a, cycle, Write, n);
        PutWork(t, a, cycle, Writing, n);
      }
    }
  }

  lemma OnUnlockWork(sv: Server, a: Addr, cycle: nat, n: nat)
    requires OnUnlock(sv, a, cycle).Done? && !OnUnlock(sv, a, cycle).released
    requires ViewOf(sv, a.host).Granted?
    ensures Work(OnUnlock(sv, a, cycle).server.current.value, n) < Work(sv.current.value, n)
  {
    var t := sv.current.value;
    var u := Put(t, a, cycle, Finished);
    PutWork(t, a, cycle, Finished, n);
    if !Has(u, Reading) {
      GrantNextWork(sv, u, UnlockNoWriter, n);
    }
  }

  /** Changes of the current lock so far, plus the work left, never exceed five per host. */
  ghost predicate Bounded(s: State) {
    s.hist.changes + Work(CurrentTable(s.server), |s.hosts|) <= 5 * |s.hosts|
  }

  lemma FreshTable(t: Table, n: nat)
    ensures Work(t, n) <= 5 * n
  {
    RankSumBound(t);
  }

  lemma StepBounded(s: State, act: Action)
    requires Core(s) && Bounded(s) && Step(s, act).Next?
    ensures Bounded(Step(s, act).state)
  {
    hide HostOk, Serial, Replay, WellFormed, ViewOf, OnLock, OnUnlock, OnStart, OnAccess, HostStep, Work;
    var n := Step(s, act).state;
    if act.Process? {
      ProcessBounded(s);
    } else {
      assert n.hosts.Keys == s.hosts.Keys;
      assert |n.hosts| == |n.hosts.Keys| == |s.hosts|;
    }
  }

  lemma SettleHosts(s: State, r: Handled)
    requires r.Done? && NoDuplicates(r.grants)
    ensures |Settle(s, r).hosts| == |s.hosts|
  {
    PushIs(s.hosts, r.grants, Grant(Now(s)));
    assert |Settle(s, r).hosts.Keys| == |s.hosts.Keys|;
  }

  lemma HostUpdate(hosts: map<Addr, Host>, a: Addr, h: Host)
    requires a in hosts
    ensures |hosts[a := h]| == |hosts|
  {
    assert hosts[a := h].Keys == hosts.Keys;
    assert |hosts[a := h].Keys| == |hosts.Keys|;
  }

  lemma ProcessBounded(s: State)
    requires Core(s) && Bounded(s) && ProcessStep(s).Next?
    ensures Bounded(ProcessStep(s).state)
  {
    hide HostOk, Serial, Replay, OnLock, OnUnlock, OnStart, OnAccess, Work, WellFormed, ViewOf, Pending, Push, Within;
    QueueTail(s);
    var k := |s.hosts|;
    match s.queue[0]
    case StartToken =>
      StartGrants(s.server);
      StartWork(s.server, k);
      SettleHosts(s.(queue := s.queue[1..]), OnStart(s.server));
    case Msg(a, LockReq(write, cycle)) =>
      var r := OnLock(s.server, a, cycle, write);
      LockFacts(s, a, write, cycle);
      OnLockWork(s.server, Started(s), a, cycle, write, k);
      var h := LockRecorded(s.hosts[a], ViewOf(s.server, a.host), a in r.grants, |s.hist.log|);
      HostUpdate(s.hosts, a, h);
      SettleHosts(WithHost(s.(queue := s.queue[1..]), a, h), r);
    case Msg(a, UnlockReq(cycle, _, _, _)) =>
      var r := OnUnlock(s.server, a, cycle);
      UnlockFacts(s, a, s.queue[0].req);
      var h := Finish(s.hosts[a], cycle);
      HostUpdate(s.hosts, a, h);
      SettleHosts(WithHost(s.(queue := s.queue[1..]), a, h), r);
      if r.released {
        FreshTable(CurrentTable(r.server), k);
      } else {
        OnUnlockWork(s.server, a, cycle, k);
      }
    case Msg(a, req) =>
      AccessFacts(s, a, req);
      HostUpdate(s.hosts, a, ProcessStep(s).state.hosts[a]);
  }

  lemma StartWork(sv: Server, n: nat)
    requires OnStart(sv).Done?
    ensures Work(OnStart(sv).server.current.value, n) < Work(sv.current.value, n)
  {
    GrantNextWork(sv, sv.current.value, StartNoWriter, n);
  }

  // ---- Cycles ----

  /** The simulation has not run since the last release. */
  predicate SameEpoch(s: State) {
    s.main == Running || (s.main == Waiting && s.released)
  }

  predicate RoundsAgree(grants: seq<GrantRecord>) {
    forall i, j :: 0 <= i < |grants| && 0 <= j < |grants| && grants[i].round == grants[j].round ==>
      grants[i].cycle == grants[j].cycle
  }

  predicate RoundsIncrease(grants: seq<GrantRecord>) {
    forall i, j :: 0 <= i < |grants| && 0 <= j < |grants| && grants[i].round < grants[j].round ==>
      grants[i].cycle < grants[j].cycle
  }

  predicate GrantPlaced(s: State, g: GrantRecord) {
    && g.round <= s.hist.round
    && (g.round == s.hist.round ==> Started(s) && g.cycle == Now(s))
    && (g.round < s.hist.round && s.hist.steady ==> if SameEpoch(s) then g.cycle <= Now(s) else g.cycle < Now(s))
  }

  predicate Epochs(s: State) {
    && (s.hist.steady ==> s.program.Some?)
    && (forall i :: 0 <= i < |s.hist.grants| ==> GrantPlaced(s, s.hist.grants[i]))
    && RoundsAgree(s.hist.grants)
    && (s.hist.steady ==> RoundsIncrease(s.hist.grants))
  }

  lemma StepEpochs(s: State, act: Action)
    requires Core(s) && Epochs(s) && Step(s, act).Next?
    ensures Epochs(Step(s, act).state)
  {
    hide HostOk, Serial, Replay, WellFormed, ViewOf, OnLock, OnUnlock, OnStart, OnAccess, HostStep, Pending;
    var n := Step(s, act).state;
    if act.Process? {
      ProcessEpochs(s);
    } else {
      TokensAppend(s.queue, StartToken);
      if act.Deliver? { TokensAppend(s.queue, Msg(act.a, s.hosts[act.a].up[0])); }
      assert n.hist.grants == s.hist.grants;
      assert Started(n) == Started(s);
      forall i | 0 <= i < |n.hist.grants| ensures GrantPlaced(n, n.hist.grants[i]) {
        assert GrantPlaced(s, s.hist.grants[i]);
      }
    }
  }

  lemma ProcessEpochs(s: State)
    requires Core(s) && Epochs(s) && ProcessStep(s).Next?
    ensures Epochs(ProcessStep(s).state)
  {
    assert s.queue != [];
    hide Core, Epochs, ProcessStep;
    match s.queue[0]
    case StartToken => StartEpochs(s);
    case Msg(a, LockReq(write, cycle)) => LockEpochs(s, a, write, cycle);
    case Msg(a, UnlockReq(_, _, _, _)) => UnlockEpochs(s, a, s.queue[0].req);
    case Msg(a, req) => AccessEpochs(s, a, req);
  }

  lemma StartEpochs(s: State)
    requires Core(s) && Epochs(s) && s.queue != [] && s.queue[0].StartToken? && ProcessStep(s).Next?
    ensures Epochs(ProcessStep(s).state)
  {
    hide Epochs, OnStart, Push, WellFormed, GrantedRightly, HostsGood, Serialised, Topology, Changes;
    QueueTail(s);
    UnstartedServer(s);
    StartGrants(s.server);
    GrantsRecorded(s, ProcessStep(s).state, OnStart(s.server).grants);
  }

  lemma UnstartedServer(s: State)
    requires Core(s) && s.queue != [] && s.queue[0].StartToken?
    ensures WellFormed(s.server, false) && s.server.current.Some? && s.main == Waiting && !s.released
    ensures Tokens(s.queue[1..]) == 0
  {
    hide WellFormed;
    QueueTail(s);
  }

  lemma LockEpochs(s: State, a: Addr, write: bool, cycle: nat)
    requires Core(s) && Epochs(s) && s.queue != [] && s.queue[0] == Msg(a, LockReq(write, cycle))
             && ProcessStep(s).Next?
    ensures Epochs(ProcessStep(s).state)
  {
    hide Core, Epochs, OnLock, Push, ViewOf, LockRecorded, Changes, WellFormed;
    QueueTail(s);
    LockFacts(s, a, write, cycle);
    var r := OnLock(s.server, a, cycle, write);
    assert !r.released && (r.grants != [] ==> Started(s));
    GrantsRecorded(s, ProcessStep(s).state, r.grants);
  }

  lemma UnlockEpochs(s: State, a: Addr, req: Request)
    requires Core(s) && Epochs(s) && s.queue != [] && s.queue[0] == Msg(a, req) && req.UnlockReq?
             && ProcessStep(s).Next?
    ensures Epochs(ProcessStep(s).state)
  {
    hide Core, OnUnlock, Push, ViewOf, Changes, WellFormed, GrantedRightly, SameOwner;
    QueueTail(s);
    UnlockFacts(s, a, req);
    var n := ProcessStep(s).state;
    var r := OnUnlock(s.server, a, req.cycle);
    if r.released {
      assert n.hist.grants == s.hist.grants;
      forall i | 0 <= i < |n.hist.grants| ensures GrantPlaced(n, n.hist.grants[i]) {
        assert GrantPlaced(s, s.hist.grants[i]);
      }
    } else {
      GrantsRecorded(s, n, r.grants);
    }
  }

  lemma AccessEpochs(s: State, a: Addr, req: Request)
    requires Core(s) && Epochs(s) && s.queue != [] && s.queue[0] == Msg(a, req) && (req.ReadReq? || req.WriteReq?)
    requires ProcessStep(s).Next?
    ensures Epochs(ProcessStep(s).state)
  {
    hide Core, Epochs, OnAccess, Apply;
    QueueTail(s);
    var n := ProcessStep(s).state;
    assert n.hist.grants == s.hist.grants + Records([], s.server, 0, 0);
    ApplyKeepsLoaded(s.program);
    GrantsRecorded(s, n, []);
  }

  lemma ApplyKeepsLoaded(program: Option<Store>)
    ensures forall w :: Apply(program, w).Some? == program.Some?
  {
  }

  lemma GrantsRecorded(s: State, n: State, grants: seq<Addr>)
    requires Epochs(s)
    requires n.hist.grants == s.hist.grants + Records(grants, n.server, s.hist.round, Now(s))
    requires n.hist.round == s.hist.round && n.hist.steady == s.hist.steady && Now(n) == Now(s)
    requires n.program.Some? == s.program.Some?
    requires (Started(s) ==> Started(n)) && (grants != [] ==> Started(n)) && SameEpoch(n) == SameEpoch(s)
    ensures Epochs(n)
  {
    forall i | 0 <= i < |n.hist.grants| ensures GrantPlaced(n, n.hist.grants[i]) {
      if i < |s.hist.grants| {
        assert GrantPlaced(s, s.hist.grants[i]);
      }
    }
    forall i | 0 <= i < |s.hist.grants| ensures GrantPlaced(s, n.hist.grants[i]) {
      assert GrantPlaced(s, s.hist.grants[i]);
    }
  }
}
