/** The log lists the cycles of every host once each, in the order the server finished them. */
module LockFinished {
  import opened Prelude
  import opened LockTable
  import opened LockServer
  import opened LockProtocol
  import opened LockInvariant
  import opened LockHistory
  import opened LockEarly

  /** The cycle numbers of a host's transactions in the log. */
  function Cycles(log: seq<Txn>, a: Addr): seq<nat> {
    if log == [] then []
    else
      var t := log[|log| - 1];
      Cycles(log[..|log| - 1], a) + (if t.HostTxn? && t.host == a then [t.cycle] else [])
  }

  lemma CyclesAppend(log: seq<Txn>, t: Txn, a: Addr)
    ensures Cycles(log + [t], a) == Cycles(log, a) + (if t.HostTxn? && t.host == a then [t.cycle] else [])
  {
    assert (log + [t])[..|log + [t]| - 1] == log;
  }

  /** A writer's cycle is logged when its write is applied, before its unlock is handled. */
  function InProgress(h: Host, v: View): seq<nat> {
    if h.logged && v.Granted? then [v.cycle] else []
  }

  ghost predicate CyclesOk(s: State, a: Addr)
    requires a in s.hosts
  {
    Cycles(s.hist.log, a) == s.hosts[a].finished + InProgress(s.hosts[a], ViewOf(s.server, a.host))
  }

  ghost predicate Finishes(s: State) {
    forall a :: a in s.hosts ==> CyclesOk(s, a)
  }

  /** Only a host that holds the write lock has a logged cycle to finish. */
  lemma LoggedHolds(s: State, a: Addr)
    requires Core(s) && a in s.hosts && s.hosts[a].logged
    ensures ViewOf(s.server, a.host).Granted? && ViewOf(s.server, a.host).write
  {
    hide ViewOf, WellFormed, Within, Serialised;
    assert HostGood(s, a);
  }

  lemma QuietFinishes(s: State, n: State)
    requires Finishes(s) && n.hosts.Keys == s.hosts.Keys && n.server == s.server
    requires forall b :: b in s.hosts ==>
             n.hosts[b].logged == s.hosts[b].logged && n.hosts[b].finished == s.hosts[b].finished
    requires n.hist.log == s.hist.log || exists t: Txn :: t.MainTxn? && n.hist.log == s.hist.log + [t]
    ensures Finishes(n)
  {
    hide ViewOf;
    forall b | b in n.hosts ensures CyclesOk(n, b) {
      assert CyclesOk(s, b);
      if t: Txn :| t.MainTxn? && n.hist.log == s.hist.log + [t] {
        CyclesAppend(s.hist.log, t, b);
      }
    }
  }

  lemma OutsideFinishes(s: State, act: Action)
    requires !act.Process? && Finishes(s) && Step(s, act).Next?
    ensures Finishes(Step(s, act).state)
  {
    hide Finishes, ViewOf, ProcessStep, HostStep;
    if IsClient(act) {
      ClientLogs(s.hosts[act.a], act, s.schema);
    }
    QuietFinishes(s, Step(s, act).state);
  }

  /** A client keeps no history of what the server has finished. */
  lemma ClientLogs(h: Host, act: Action, schema: Schema)
    requires IsClient(act) && HostStep(h, act, schema).Some?
    ensures var n := HostStep(h, act, schema).value; n.logged == h.logged && n.finished == h.finished
  {
    hide WriteStream.EncodeWrites, WriteStream.Sendable, WriteStream.CellSet;
  }

  lemma StartFinishes(s: State)
    requires Core(s) && Finishes(s) && s.queue != [] && s.queue[0].StartToken? && ProcessStep(s).Next?
    ensures Finishes(ProcessStep(s).state)
  {
    hide Core, OnStart, Push, Records, Changes, ViewOf;
    assert WellFormed(s.server, false) && s.server.current.Some? by { StartHead(s); }
    StartGrants(s.server);
    SettleSame(s.(queue := s.queue[1..]), OnStart(s.server));
    var n := ProcessStep(s).state;
    forall b | b in n.hosts ensures CyclesOk(n, b) {
      assert CyclesOk(s, b);
      if s.hosts[b].logged {
        LoggedHolds(s, b);
        HolderStarted(s, b);
        StartHead(s);
        assert false;
      }
    }
  }

  lemma StartHead(s: State)
    requires Core(s) && s.queue != [] && s.queue[0].StartToken?
    ensures WellFormed(s.server, false) && s.server.current.Some? && !Started(s)
  {
    QueueTail(s);
  }

  lemma LockFinishes(s: State, a: Addr, write: bool, cycle: nat)
    requires Core(s) && Finishes(s) && s.queue != [] && s.queue[0] == Msg(a, LockReq(write, cycle))
             && ProcessStep(s).Next?
    ensures Finishes(ProcessStep(s).state)
  {
    hide Core, OnLock, Push, Records, Changes, ViewOf, LockRecorded, Settle, SameClient, Started, Cycles;
    LockFacts(s, a, write, cycle);
    LockHead(s, a, write, cycle);
    var r := OnLock(s.server, a, cycle, write);
    var s1 := s.(queue := s.queue[1..]);
    var h := LockRecorded(s.hosts[a], ViewOf(s.server, a.host), a in r.grants, |s.hist.log|);
    var n := ProcessStep(s).state;
    SettleSame(WithHost(s1, a, h), r);
    SettleKeeps(WithHost(s1, a, h), r);
    LockedKeeps(s.hosts[a], ViewOf(s.server, a.host), a in r.grants, |s.hist.log|);
    LockStarted(s, a, write, cycle);
    forall b | b in n.hosts ensures CyclesOk(n, b) {
      assert CyclesOk(s, b);
      if b != a { DifferentHosts(s, a, b); }
    }
  }

  lemma LockedKeeps(h: Host, v: View, granted: bool, point: nat)
    ensures var n := LockRecorded(h, v, granted, point); n.logged == h.logged && n.finished == h.finished
  {
  }

  lemma UnlockFinished(s: State, a: Addr, req: Request)
    requires Core(s) && Finishes(s) && s.queue != [] && s.queue[0] == Msg(a, req) && req.UnlockReq?
             && ProcessStep(s).Next?
    ensures Finishes(ProcessStep(s).state)
  {
    hide Core, OnUnlock, ProcessStep, ViewOf, Cycles, Unlocked, Started;
    UnlockFacts(s, a, req);
    UnlockedState(s, a, req);
    var n := ProcessStep(s).state;
    var t := HostTxn(a, req.cycle, req.observed, 0, 0, map[], req.session);
    assert s.hist.log + [] == s.hist.log;
    forall b | b in n.hosts ensures CyclesOk(n, b) {
      assert CyclesOk(s, b);
      CyclesAppend(s.hist.log, t, b);
      if b != a && s.hosts[b].logged {
        LoggedHolds(s, b);
        SameGrant(s, a, b, req.cycle, OnUnlock(s.server, a, req.cycle));
      }
    }
  }

  /** What an unlock leaves of the history. */
  lemma UnlockedState(s: State, a: Addr, req: Request)
    requires Core(s) && s.queue != [] && s.queue[0] == Msg(a, req) && req.UnlockReq? && ProcessStep(s).Next?
    requires a in s.hosts && Unlocked(s.server, a, req.cycle, OnUnlock(s.server, a, req.cycle))
    ensures var n, v := ProcessStep(s).state, ViewOf(s.server, a.host);
            && n.server == OnUnlock(s.server, a, req.cycle).server && n.hosts.Keys == s.hosts.Keys
            && !n.hosts[a].logged && n.hosts[a].finished == s.hosts[a].finished + [req.cycle]
            && (forall b :: b in s.hosts && b != a ==>
                  n.hosts[b].logged == s.hosts[b].logged && n.hosts[b].finished == s.hosts[b].finished)
            && n.hist.log == s.hist.log + (if v.Granted? && !v.write then
                                             [HostTxn(a, req.cycle, req.observed, 0, 0, map[], req.session)] else [])
  {
    hide Core, OnUnlock, Push, Records, Changes, ViewOf, SameClient, Unlocked;
    var r := OnUnlock(s.server, a, req.cycle);
    UnlockedGrants(s.server, a, req.cycle, r);
    SettleSame(WithHost(s.(queue := s.queue[1..]), a, Finish(s.hosts[a], req.cycle)), r);
  }

  /** Another holder's view survives an unlock. */
  lemma SameGrant(s: State, a: Addr, b: Addr, cycle: nat, r: Handled)
    requires Core(s) && a in s.hosts && b in s.hosts && a != b && ViewOf(s.server, b.host).Granted?
    requires Unlocked(s.server, a, cycle, r)
    ensures ViewOf(r.server, b.host) == ViewOf(s.server, b.host)
  {
    hide ViewOf, WellFormed, HostsGood, Serialised, Within;
    UnlockViews(s, a, cycle, r);
  }

  lemma AccessFinishes(s: State, a: Addr, req: Request)
    requires Core(s) && Finishes(s) && s.queue != [] && s.queue[0] == Msg(a, req) && (req.ReadReq? || req.WriteReq?)
    requires ProcessStep(s).Next?
    ensures Finishes(ProcessStep(s).state)
  {
    hide Core, OnAccess, ViewOf, Decoded, Fresh, Cycles;
    AccessFacts(s, a, req);
    var n := ProcessStep(s).state;
    if req.WriteReq? {
      WriteHead(s, a, req);
      var t := HostTxn(a, req.cycle, req.observed, |s.hosts[a].early|, s.hosts[a].point, req.own, req.session);
      forall b | b in n.hosts ensures CyclesOk(n, b) {
        assert CyclesOk(s, b);
        CyclesAppend(s.hist.log, t, b);
      }
    } else {
      QuietFinishes(s, n);
    }
  }

  lemma StepFinishes(s: State, act: Action)
    requires Core(s) && Finishes(s) && Step(s, act).Next?
    ensures Finishes(Step(s, act).state)
  {
    hide Core, Finishes, ProcessStep;
    if act.Process? {
      assert s.queue != [] by { ProcessHasEvent(s); }
      match s.queue[0] {
        case StartToken => StartFinishes(s);
        case Msg(a, LockReq(w, c)) => LockFinishes(s, a, w, c);
        case Msg(a, UnlockReq(_, _, _, _)) => UnlockFinished(s, a, s.queue[0].req);
        case Msg(a, req) => AccessFinishes(s, a, req);
      }
    } else {
      OutsideFinishes(s, act);
    }
  }
}
