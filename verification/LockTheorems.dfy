/**
 What the simulation-lock protocol guarantees over every run from an initial state: every
 interleaving of clients, channels, message queue and main thread.
 */
module LockTheorems {
  import opened Prelude
  import opened LockTable
  import opened LockServer
  import opened LockProtocol
  import opened LockInvariant
  import opened LockRounds
  import opened LockHistory
  import opened LockEarly
  import opened LockFinished
  import opened LockGrants
  import opened LockRuns
  import opened LockAtomicity

  /** No throw or failed check in the lock handlers is ever reached. */
  lemma NoHandlerThrows(init: State, acts: seq<Action>)
    requires Init(init)
    ensures Run(init, acts) != Crash
  {
    RunGood(init, acts);
  }

  /** Many readers or one writer, by position in the entry vector; a reader never waits behind readers. */
  lemma ReadersWriterExclusion(init: State, acts: seq<Action>, s: State)
    requires Reaches(init, acts, s) && s.server.current.Some?
    ensures var t := s.server.current.value;
            && (forall i, j :: 0 <= i < j < |t| ==> !(t[i].state == Writing && t[j].state == Writing))
            && !(Has(t, Writing) && Has(t, Reading))
            && !(Has(t, Reading) && Has(t, Read))
            && (forall i, j :: 0 <= i < j < |t| ==> t[i].host != t[j].host)
  {
    hide HostGood, Serialised, Epochs, Bounded, Run, Init, Within, FutureOk;
    ReachableIsGood(init, acts, s);
    var t := s.server.current.value;
    HasLooks(t, Writing);
    HasLooks(t, Reading);
    HasLooks(t, Read);
    forall i, j | 0 <= i < j < |t| ensures !(t[i].state == Writing && t[j].state == Writing) {
      EntryLooks(t, i);
      EntryLooks(t, j);
      assert t[i].host != t[j].host;
    }
  }

  /**
   No host holds the lock while the main thread runs jobs or the simulation. While it waits for the
   round, either the one start token is still queued and nobody holds, or it is gone and somebody does;
   so its wake-up cannot have been lost.
   */
  lemma SimulationIsIsolated(init: State, acts: seq<Action>, s: State)
    requires Reaches(init, acts, s)
    ensures s.main != Waiting || s.released ==>
              forall a :: a in s.hosts ==> !ViewOf(s.server, a.host).Granted?
    ensures s.main != Waiting || s.released ==> Tokens(s.queue) == 0
    ensures s.main == Waiting && !s.released ==>
              && s.server.current.Some?
              && (Tokens(s.queue) == 1 <==> !HasHolder(s.server.current.value))
              && (Tokens(s.queue) == 0 <==> HasHolder(s.server.current.value))
  {
    hide HostGood, Serialised, Epochs, Bounded, Run, Init, Within, FutureOk;
    ReachableIsGood(init, acts, s);
  }

  /** Requests are put off to a future lock only while a started round is in progress, and only by hosts that
      have finished in it. */
  lemma FutureNeedsStartedRound(init: State, acts: seq<Action>, s: State, h: nat)
    requires Reaches(init, acts, s) && s.server.future.Some?
    ensures s.server.current.Some? && Started(s)
    ensures Lookup(s.server.future.value, h).Some? ==> Is(Lookup(s.server.current.value, h), Finished)
  {
    hide HostsGood, Serialised, Topology, Epochs, Bounded, Run, Init, Started;
    ReachableIsGood(init, acts, s);
    if !Started(s) {
      UnstartedHasNoFuture(s.server);
    }
  }

  /** A host's phase is mirrored by its entries, and while it is idle and drained it has no lock. */
  lemma PhaseMatchesLock(init: State, acts: seq<Action>, s: State, a: Addr)
    requires Reaches(init, acts, s) && a in s.hosts
    ensures var h, v := s.hosts[a], ViewOf(s.server, a.host);
            && (h.phase.Holding? ==> v == Granted(h.phase.write, h.cycle))
            && (h.phase.AwaitValue? ==> v == Granted(h.phase.write, h.cycle))
            && (h.phase == Committed ==> v == Granted(true, h.cycle))
            && (h.phase == Idle && Pipeline(s, a) == [] ==> v.Out?)
            && (Pipeline(s, a) == [] && v.Queued? ==>
                  (h.phase == AwaitLock(v.write) || h.phase == AwaitUpgrade) && v.cycle == h.cycle)
  {
    hide Core, Epochs, Bounded, Run, Init, ViewOf, Pipeline;
    ReachableIsGood(init, acts, s);
    assert HostGood(s, a) by { GoodHost(s, a); }
  }

  lemma GoodHost(s: State, a: Addr)
    requires Core(s) && a in s.hosts
    ensures HostGood(s, a)
  {
  }

  /**
   Every lock request is answered by exactly one grant, sent to the address that asked: grants never
   outrun requests, and a client that is not waiting has received one for each request.
   */
  lemma LocksAreConserved(init: State, acts: seq<Action>, s: State, a: Addr)
    requires Reaches(init, acts, s) && a in s.hosts
    ensures var h := s.hosts[a];
            && h.received <= h.sent <= h.asked <= h.received + 1
            && (h.asked == h.received + 1 <==> Awaiting(h))
            && (h.sent == h.received + 1 <==> Awaiting(h) && h.down != [])
            && (Awaiting(h) && h.down != [] ==> IsGrant(h.down))
  {
    hide Core, Epochs, Bounded, Run, Init, ViewOf, Pipeline, Ending;
    ReachableIsGood(init, acts, s);
    assert HostGood(s, a) by { GoodHost(s, a); }
  }

  /**
   Transactions are serializable: the store is what applying the host cycles and the component's own
   steps one after another leaves, and every transaction saw, from its last waited upgrade on, the
   values that order gives it.
   */
  lemma TransactionsAreSerial(init: State, acts: seq<Action>, s: State)
    requires Reaches(init, acts, s)
    ensures s.program == Replay(init.program, s.hist.log)
    ensures Serial(init.program, s.hist.log)
  {
    hide HandShake, Topology, HostsGood, Epochs, Bounded, Init;
    ReachableIsGood(init, acts, s);
    InitialIsKept(init, acts);
  }

  /**
   The log lists every cycle of a host once, in order: those whose unlock has been handled, and last the one whose
   write has been applied and whose unlock is still to come.
   */
  lemma EachCycleIsLoggedOnce(init: State, acts: seq<Action>, s: State, a: Addr)
    requires Reaches(init, acts, s) && a in s.hosts
    ensures Cycles(s.hist.log, a) == s.hosts[a].finished + InProgress(s.hosts[a], ViewOf(s.server, a.host))
  {
    hide Core, Epochs, Bounded, Recorded, Early, Granting, Run, Init, ViewOf;
    ReachableIsGood(init, acts, s);
    assert CyclesOk(s, a);
  }

  /** Handling an unlock finishes one cycle of its host, the one it was granted for. */
  lemma UnlockFinishesOneCycle(init: State, acts: seq<Action>, s: State, a: Addr, req: Request)
    requires Reaches(init, acts, s)
    requires s.queue != [] && s.queue[0] == Msg(a, req) && req.UnlockReq? && Step(s, Process).Next?
    ensures a in s.hosts && ViewOf(s.server, a.host).Granted?
    ensures a in Step(s, Process).state.hosts
    ensures Step(s, Process).state.hosts[a].finished == s.hosts[a].finished + [ViewOf(s.server, a.host).cycle]
  {
    hide Core, Epochs, Bounded, Recorded, Early, Finishes, Granting, Run, Init, OnUnlock, Push, Records, Changes,
      ViewOf;
    ReachableIsGood(init, acts, s);
    UnlockFacts(s, a, req);
    var r := OnUnlock(s.server, a, req.cycle);
    UnlockedGrants(s.server, a, req.cycle, r);
    SettleSame(WithHost(s.(queue := s.queue[1..]), a, Finish(s.hosts[a], req.cycle)), r);
  }

  /** Between a read grant and the unlock or upgrade that ends it, nothing changes the store. */
  lemma ReadersSeeASnapshot(init: State, acts: seq<Action>, s: State, a: Addr, act: Action)
    requires Reaches(init, acts, s) && a in s.hosts
    requires ViewOf(s.server, a.host).Granted? && !ViewOf(s.server, a.host).write
    requires Step(s, act).Next?
    ensures Step(s, act).state.program == s.program
    ensures Now(Step(s, act).state) == Now(s)
  {
    hide Core, Reaches, OnLock, OnUnlock, OnStart, OnAccess, HostStep, Push, ViewOf, LockRecorded, Decoded, Started;
    assert Core(s) by { ReachableIsGood(init, acts, s); }
    HolderStarted(s, a);
    StartedWaits(s);
    if act.Process? && s.queue[0].Msg? && s.queue[0].req.WriteReq? {
      NoWriteUnderReader(s, a);
      assert false;
    }
  }

  lemma StartedWaits(s: State)
    requires Started(s)
    ensures s.main == Waiting && !s.released
  {
  }

  lemma NoWriteUnderReader(s: State, a: Addr)
    requires Core(s) && a in s.hosts
    requires ViewOf(s.server, a.host).Granted? && !ViewOf(s.server, a.host).write
    ensures s.queue == [] || s.queue[0].StartToken? || !s.queue[0].req.WriteReq?
  {
    hide Serial, Replay, Coupled, Conserved, Within;
    if s.queue != [] && s.queue[0].Msg? && s.queue[0].req.WriteReq? {
      var b, req := s.queue[0].from, s.queue[0].req;
      WriterHolds(s, b, req);
      if b != a { WriterIsAlone(s, b, a); }
      assert false;
    }
  }

  lemma WriterHolds(s: State, b: Addr, req: Request)
    requires Core(s) && s.queue != [] && s.queue[0] == Msg(b, req) && req.WriteReq?
    ensures b in s.hosts && ViewOf(s.server, b.host).Granted? && ViewOf(s.server, b.host).write
  {
    hide HostOk, WellFormed, ViewOf, Within, Serial, Replay;
    QueueTail(s);
    assert HostGood(s, b);
    var p := Pending(s.queue[1..], b) + s.hosts[b].up;
    assert Pipeline(s, b) == [req] + p;
    HeadIsWrite(s.hosts[b], p, ViewOf(s.server, b.host), req, s.program, s.schema);
  }

  /** All grants of a round carry one component cycle; with a steady program, later rounds carry larger ones. */
  lemma RoundsHaveOneCycle(init: State, acts: seq<Action>, s: State, i: nat, j: nat)
    requires Reaches(init, acts, s) && i < |s.hist.grants| && j < |s.hist.grants|
    ensures s.hist.grants[i].round == s.hist.grants[j].round ==> s.hist.grants[i].cycle == s.hist.grants[j].cycle
    ensures s.hist.steady && s.hist.grants[i].round < s.hist.grants[j].round ==>
              s.hist.grants[i].cycle < s.hist.grants[j].cycle
  {
    hide Core, Bounded, Init, Run;
    ReachableIsGood(init, acts, s);
  }

  /** The current lock changes at most five times per host before it is released. */
  lemma RoundsAreBounded(init: State, acts: seq<Action>, s: State)
    requires Reaches(init, acts, s)
    ensures s.hist.changes <= 5 * |s.hosts|
  {
    hide Epochs, Init, Run, HostGood, Serialised, WellFormed, Work, ViewOf;
    ReachableIsGood(init, acts, s);
    WorkIsLeft(s);
  }

  lemma WorkIsLeft(s: State)
    requires Core(s)
    ensures Work(CurrentTable(s.server), |s.hosts|) >= 0
  {
    hide HostGood, Serialised, HasHolder, Exclusive, AllWaiting, FutureOk;
    if s.server.current.Some? {
      WithinEntries(s.server.current.value, s.hosts.Keys);
      assert |s.hosts.Keys| == |s.hosts|;
    }
  }

  /** A round is released only when every host in it has finished, all but the last one before. */
  lemma ReleaseOnlyWhenFinished(init: State, acts: seq<Action>, s: State, act: Action)
    requires Reaches(init, acts, s)
    requires Step(s, act).Next? && Step(s, act).state.hist.round == s.hist.round + 1
    ensures act.Process? && s.queue != [] && s.queue[0].Msg? && s.queue[0].req.UnlockReq?
    ensures forall h :: h != s.queue[0].from.host && Lookup(s.server.current.value, h).Some? ==>
              Is(Lookup(s.server.current.value, h), Finished)
    ensures ViewOf(s.server, s.queue[0].from.host).Granted?
    ensures Step(s, act).state.server == Server(s.server.future, None)
  {
    hide OnStart, OnAccess, HostStep, Push, LockRecorded, HostsGood, Serialised, Reaches, Decoded;
    assert Core(s) by { ReachableIsGood(init, acts, s); }
    ReleaseIsUnlock(s, act);
    var Msg(a, req) := s.queue[0];
    UnlockFacts(s, a, req);
    UnlockTable(s.server, a, req.cycle);
  }

  lemma ReleaseIsUnlock(s: State, act: Action)
    requires Core(s) && Step(s, act).Next? && Step(s, act).state.hist.round == s.hist.round + 1
    ensures act.Process? && s.queue != [] && s.queue[0].Msg? && s.queue[0].req.UnlockReq?
    ensures OnUnlock(s.server, s.queue[0].from, s.queue[0].req.cycle).released
  {
    hide OnUnlock, OnLock, OnStart, OnAccess, HostStep, Push, ViewOf, LockRecorded, HostOk, Serial, Replay, Pending,
      Within, WellFormed, GrantedRightly;
    if act.Process? {
      match s.queue[0]
      case StartToken => StartGrants(s.server);
      case Msg(a, LockReq(write, cycle)) => LockFacts(s, a, write, cycle);
      case _ =>
    }
  }

  // ---- Who is granted in a round ----

  /** Whoever has finished, and whoever is in a round that is released, has been granted in that round. */
  lemma EveryMemberIsGranted(init: State, acts: seq<Action>, s: State, a: Addr)
    requires Reaches(init, acts, s) && a in s.hosts && s.server.current.Some?
    requires Lookup(s.server.current.value, a.host).Some?
    ensures var e, g, r := Lookup(s.server.current.value, a.host), s.hist.grants, s.hist.round;
            && (Is(e, Finished) ==> Got(g, a, r, false) || Got(g, a, r, true))
            && (Is(e, Reading) <==> Got(g, a, r, false) && !Got(g, a, r, true) && !Is(e, Write) && !Is(e, Finished))
            && (Is(e, Writing) ==> Got(g, a, r, true))
  {
    hide Core, Epochs, Bounded, Recorded, Early, Finishes, Run, Init, Lookup, Got;
    ReachableIsGood(init, acts, s);
    assert HostGrants(s, a);
  }

  lemma ReleaseGrantsEverybody(init: State, acts: seq<Action>, s: State, act: Action, a: Addr)
    requires Reaches(init, acts, s) && a in s.hosts
    requires Step(s, act).Next? && Step(s, act).state.hist.round == s.hist.round + 1
    requires s.server.current.Some? && Lookup(s.server.current.value, a.host).Some?
    ensures Got(s.hist.grants, a, s.hist.round, false) || Got(s.hist.grants, a, s.hist.round, true)
  {
    hide Reaches, Step, Lookup, Got;
    ReleaseOnlyWhenFinished(init, acts, s, act);
    EveryMemberIsGranted(init, acts, s, a);
  }

  /** All grants of a round go to different hosts, except that a reader may be granted its upgrade. */
  lemma GrantsAreDistinct(init: State, acts: seq<Action>, s: State, i: nat, j: nat)
    requires Reaches(init, acts, s) && i < j < |s.hist.grants|
    requires s.hist.grants[i].to == s.hist.grants[j].to && s.hist.grants[i].round == s.hist.grants[j].round
    ensures !s.hist.grants[i].write && s.hist.grants[j].write
  {
    hide Core, Epochs, Bounded, Recorded, Early, Finishes, Run, Init;
    ReachableIsGood(init, acts, s);
  }

  /** So in any round a host that waits is passed by at most two grants to each other host. */
  lemma PassedBoundedly(init: State, acts: seq<Action>, s: State, a: Addr, round: nat)
    requires Reaches(init, acts, s) && a in s.hosts
    ensures |RoundGrants(s.hist.grants, round, s.hosts.Keys - {a})| <= 2 * (|s.hosts| - 1)
  {
    hide Core, Epochs, Bounded, Recorded, Early, Finishes, Run, Init;
    ReachableIsGood(init, acts, s);
    AtMostTwoEach(s.hist.grants, round, s.hosts.Keys - {a});
    assert |s.hosts.Keys| == |s.hosts|;
  }

  // ---- The exact conditions under which a lock request is accepted ----

  /** A host without a lock is accepted exactly when its cycle number is not the one it finished in this round. */
  lemma FreshRequestAcceptedIff(sv: Server, started: bool, a: Addr, cycle: nat, write: bool)
    requires WellFormed(sv, started) && ViewOf(sv, a.host).Out?
    ensures OnLock(sv, a, cycle, write).Done? <==> ViewOf(sv, a.host).seen != Some(cycle)
  {
    if ViewOf(sv, a.host).seen != Some(cycle) {
      LockJoins(sv, started, a, cycle, write);
    }
  }

  /** A holder asking again in the same cycle is accepted exactly when it is a reader asking to write. */
  lemma HolderRequestAcceptedIff(sv: Server, a: Addr, cycle: nat, write: bool)
    requires WellFormed(sv, true) && ViewOf(sv, a.host).Granted? && ViewOf(sv, a.host).cycle == cycle
    ensures OnLock(sv, a, cycle, write).Done? <==> write && !ViewOf(sv, a.host).write
  {
  }

  /** Entries are matched on the host number alone: another coordinator's host of the same number is
      taken for this one, and the grant for its request goes to this one. */
  lemma SharedHostNumberMisroutes(c: nat, d: nat, host: nat, cycle: nat)
    requires c != d
    ensures var sv := Server(Some([Entry(c, host, cycle, Reading)]), None);
            OnLock(sv, Addr(d, host), cycle, true).Done?
              && OnLock(sv, Addr(d, host), cycle, true).grants == [Addr(c, host)]
  {
    var t := [Entry(c, host, cycle, Reading)];
    var u := LockTable.Put(t, Addr(d, host), cycle, Write);
    assert Find(t, host) == 0;
    assert u == [Entry(c, host, cycle, Write)];
  }
}
