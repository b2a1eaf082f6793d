/**
 The turns of the component's main thread (Component::runCycle, src/component/component.cpp:117-165): when it waits for
 a round and when it may run the simulation, and what a round owes to the requests that are there when it begins.
 */
module LockMain {
  import opened Prelude
  import opened LockTable
  import opened LockServer
  import opened LockProtocol
  import opened LockInvariant
  import opened LockHistory
  import opened LockGrants
  import opened LockRuns
  import opened LockOrder
  import LockScripts
  import LockTheorems

  /**
   The only step out of the jobs, for any state whatever: with a current lock the start token is posted, the released
   flag is cleared and the main thread waits; without one it goes on to the simulation and nothing else changes.
   */
  lemma JobsEndIn(s: State, act: Action, n: State)
    requires s.main == Jobs && Step(s, act) == Next(n) && n.main != Jobs
    ensures s.server.current.Some? ==> n == s.(main := Waiting, released := false, queue := s.queue + [StartToken])
    ensures s.server.current.None? ==> n == s.(main := Running)
  {
    hide OnStart, OnLock, OnUnlock, OnAccess, HostStep, Decoded, LockRecorded, ViewOf, Push, Records, Changes;
  }

  /** And that step is possible, one or the other. */
  lemma JobsCanEnd(s: State)
    requires s.main == Jobs
    ensures Step(s, EnterWait).Next? <==> s.server.current.Some?
    ensures Step(s, SkipWait).Next? <==> s.server.current.None?
  {
  }

  /** A job that loads a program puts it, with its clock, in place of the old one; one that loads a config its store. */
  lemma JobsDo(s: State, act: Action, n: State)
    requires (act.RunLoad? || act.RunConfig?) && Step(s, act) == Next(n)
    ensures s.main == Jobs && n.main == Jobs
    ensures n.server == s.server && n.queue == s.queue && n.hosts == s.hosts && n.released == s.released
    ensures act.RunLoad? ==> n.program == act.newProgram && n.clock == act.newClock
    ensures act.RunConfig? ==> s.program.Some? && n.program == Some(act.store) && n.clock == s.clock
  {
    hide ProcessStep, HostStep;
  }

  /**
   The wait ends only by a release, and the simulation runs once before the jobs are looked at again; with a program it
   moves the component's cycle on by one and leaves a new store.
   */
  lemma WaitEndsIn(s: State, act: Action, n: State)
    requires s.main != Jobs && Step(s, act) == Next(n) && n.main != s.main
    ensures s.main == Waiting ==> s.released && n == s.(main := Running)
    ensures s.main == Running ==>
              && act.Simulate? && n.main == Jobs && n.server == s.server && n.queue == s.queue && n.hosts == s.hosts
              && n.released == s.released
              && (if s.program.None? then n.program == None && n.clock == s.clock
                  else n.program == Some(act.store) && n.clock == s.clock + 1)
  {
    hide OnStart, OnLock, OnUnlock, OnAccess, HostStep, Decoded, LockRecorded, ViewOf, Push, Records, Changes;
  }

  /** Nothing but the main thread's own step posts a start token or clears the released flag. */
  lemma TokensComeFrom(s: State, act: Action, n: State)
    requires Step(s, act) == Next(n) && !act.EnterWait?
    ensures Tokens(n.queue) <= Tokens(s.queue) && (s.released ==> n.released)
  {
    hide OnStart, OnLock, OnUnlock, OnAccess, HostStep, Decoded, LockRecorded, ViewOf, Push, Records, Changes;
    match act
    case Deliver(a) => if a in s.hosts && s.hosts[a].up != [] { TokensAppend(s.queue, Msg(a, s.hosts[a].up[0])); }
    case Process => QueueTail(s);
    case _ =>
  }

  // ---- A request that is there when the jobs end ----

  predicate HasEntry(s: State, a: Addr) {
    s.server.current.Some? && exists i :: 0 <= i < |s.server.current.value| && s.server.current.value[i].host == a.host
  }

  /** The host's entry is still in the round, which is not over, or it has been granted in that round. */
  predicate Owing(s: State, a: Addr, round: nat) {
    || Got(s.hist.grants, a, round, false) || Got(s.hist.grants, a, round, true)
    || (s.hist.round == round && HasEntry(s, a) && (s.main == Jobs || (s.main == Waiting && !s.released)))
  }

  lemma EntryStays(s: State, act: Action, n: State, a: Addr)
    requires Core(s) && HasEntry(s, a) && Step(s, act) == Next(n) && n.hist.round == s.hist.round
    ensures HasEntry(n, a)
  {
    hide Core, Step;
    StepOnward(s, act, n);
    var t, u := s.server.current.value, n.server.current.value;
    var i :| 0 <= i < |t| && t[i].host == a.host;
    assert u[i].host == a.host;
  }

  lemma EntryLooked(s: State, a: Addr)
    requires HasEntry(s, a)
    ensures Lookup(s.server.current.value, a.host).Some?
  {
  }

  lemma GrantsGrow(s: State, act: Action)
    requires Step(s, act).Next?
    ensures s.hist.grants <= Step(s, act).state.hist.grants
    ensures Step(s, act).state.hist.round <= s.hist.round + 1
  {
    hide ProcessStep, HostStep;
    if act.Process? {
      HandlersGrow(s);
    }
  }

  lemma HandlersGrow(s: State)
    requires ProcessStep(s).Next?
    ensures s.hist.grants <= ProcessStep(s).state.hist.grants
    ensures ProcessStep(s).state.hist.round <= s.hist.round + 1
  {
    hide OnStart, OnLock, OnUnlock, OnAccess, Settle, Decoded, LockRecorded, ViewOf;
    SettleGrows();
  }

  lemma SettleGrows()
    ensures forall s: State, r: Handled :: r.Done? ==>
              s.hist.grants <= Settle(s, r).hist.grants && Settle(s, r).hist.round <= s.hist.round + 1
  {
    hide Push, Changes, Records;
  }

  lemma GotStays(g: seq<GrantRecord>, more: seq<GrantRecord>, a: Addr, round: nat, write: bool)
    requires g <= more && Got(g, a, round, write)
    ensures Got(more, a, round, write)
  {
  }

  /** The released flag is set exactly when a round ends. */
  lemma ReleaseIsRound(s: State, act: Action)
    requires Step(s, act).Next?
    ensures Step(s, act).state.released && !s.released ==> Step(s, act).state.hist.round == s.hist.round + 1
  {
    hide OnStart, OnLock, OnUnlock, OnAccess, HostStep, Decoded, LockRecorded, ViewOf, Push, Records, Changes;
  }

  lemma StaysOwing(init: State, acts: seq<Action>, s: State, act: Action, n: State, a: Addr, round: nat)
    requires Reaches(init, acts, s) && a in s.hosts && Owing(s, a, round) && Step(s, act) == Next(n)
    ensures Owing(n, a, round)
  {
    hide Core, Step, Reaches, HasEntry, Got;
    CoreReached(init, acts, s);
    GrantsGrow(s, act);
    if Got(s.hist.grants, a, round, false) {
      GotStays(s.hist.grants, n.hist.grants, a, round, false);
    } else if Got(s.hist.grants, a, round, true) {
      GotStays(s.hist.grants, n.hist.grants, a, round, true);
    } else if n.hist.round == s.hist.round + 1 {
      EntryLooked(s, a);
      assert s.server.current.Some? by { Current(s, a); }
      LockTheorems.ReleaseGrantsEverybody(init, acts, s, act, a);
      assert false;
    } else {
      RoundsGrow(s, act);
      EntryStays(s, act, n, a);
      ReleaseIsRound(s, act);
      MainStays(s, act, n, a);
    }
  }

  lemma Current(s: State, a: Addr)
    requires HasEntry(s, a)
    ensures s.server.current.Some?
  {
  }

  lemma MainStays(s: State, act: Action, n: State, a: Addr)
    requires Step(s, act) == Next(n) && HasEntry(s, a) && (s.main == Jobs || (s.main == Waiting && !s.released))
    requires n.released ==> s.released || n.hist.round == s.hist.round + 1
    requires n.hist.round == s.hist.round
    ensures n.main == Jobs || (n.main == Waiting && !n.released)
  {
    hide Step, HasEntry;
    Current(s, a);
    if s.main == Jobs {
      if n.main != Jobs { JobsEndIn(s, act, n); }
    } else if n.main != s.main {
      WaitEndsIn(s, act, n);
      assert false;
    }
  }

  lemma {:induction false} OwingInRun(init: State, acts: seq<Action>, s: State, more: seq<Action>, a: Addr, round: nat)
    requires Reaches(init, acts, s) && a in s.hosts && Owing(s, a, round) && Run(s, more).Next?
    ensures a in Run(s, more).state.hosts && Owing(Run(s, more).state, a, round)
    ensures Reaches(init, acts + more, Run(s, more).state)
  {
    hide Step, Owing, Init;
    if more == [] {
      assert acts + more == acts;
    } else {
      var before, act := more[..|more| - 1], more[|more| - 1];
      OwingInRun(init, acts, s, before, a, round);
      var m, n := Run(s, before).state, Run(s, more).state;
      assert (acts + more)[..|acts + more| - 1] == acts + before;
      StaysOwing(init, acts + before, m, act, n, a, round);
      HostStays(m, act, a);
    }
  }

  lemma HostStays(s: State, act: Action, a: Addr)
    requires a in s.hosts && Step(s, act).Next?
    ensures a in Step(s, act).state.hosts
  {
    hide ProcessStep, HostStep;
    if act.Process? {
      LockScripts.ProcessExtends(s);
    }
  }

  /**
   In every run: a host with an entry in the current lock while the jobs run, or while the main thread waits for the
   round, is granted in that round before the simulation runs again.
   */
  lemma ServedBeforeSimulation(init: State, acts: seq<Action>, s: State, a: Addr, more: seq<Action>, n: State)
    requires Reaches(init, acts, s) && a in s.hosts && s.main != Running && !(s.main == Waiting && s.released)
    requires s.server.current.Some?
    requires exists i :: 0 <= i < |s.server.current.value| && s.server.current.value[i].host == a.host
    requires Run(s, more) == Next(n) && n.main == Running
    ensures exists i :: 0 <= i < |n.hist.grants| && n.hist.grants[i].to == a && n.hist.grants[i].round == s.hist.round
  {
    hide Reaches, Run;
    OwingInRun(init, acts, s, more, a, s.hist.round);
  }
}
