/** What a transaction was given before an upgrade that had to wait, and what the log holds since then. */
module LockEarly {
  import opened Prelude
  import opened LockTable
  import opened LockServer
  import opened LockEntries
  import opened LockProtocol
  import opened LockInvariant
  import opened LockHistory
  import opened Access

  predicate HostsOnly(log: seq<Txn>) {
    forall i :: 0 <= i < |log| ==> log[i].HostTxn?
  }

  /** The values were right when the log had the given length, and since then no host but this has been let in
      by the main thread. */
  predicate EarlyRead(initial: Option<Store>, log: seq<Txn>, early: seq<Seen>, point: nat) {
    point <= |log| && HostsOnly(log[point..]) && Fresh(early, Replay(initial, log[..point]))
  }

  predicate Upgrading(sv: Server, host: nat) {
    sv.current.Some? && (Is(Lookup(sv.current.value, host), Write) || Is(Lookup(sv.current.value, host), Writing))
  }

  predicate EarlyOk(s: State, a: Addr)
    requires a in s.hosts
  {
    var h := s.hosts[a];
    h.early != [] ==>
      && Started(s) && Upgrading(s.server, a.host)
      && EarlyRead(s.hist.initial, s.hist.log, h.early, h.point)
  }

  predicate TxnEarly(initial: Option<Store>, before: seq<Txn>, t: Txn) {
    t.HostTxn? && t.early > 0 ==>
      t.early <= |t.observed| && EarlyRead(initial, before, t.observed[..t.early], t.point)
  }

  predicate EarlyLogged(initial: Option<Store>, log: seq<Txn>) {
    forall i :: 0 <= i < |log| ==> TxnEarly(initial, log[..i], log[i])
  }

  ghost predicate Early(s: State) {
    EarlyLogged(s.hist.initial, s.hist.log) && forall a :: a in s.hosts ==> EarlyOk(s, a)
  }

  // ---- Growing logs ----

  lemma EarlyGrows(initial: Option<Store>, log: seq<Txn>, t: Txn, early: seq<Seen>, point: nat)
    requires EarlyRead(initial, log, early, point) && t.HostTxn?
    ensures EarlyRead(initial, log + [t], early, point)
  {
    assert (log + [t])[..point] == log[..point];
    assert (log + [t])[point..] == log[point..] + [t];
  }

  lemma LoggedGrows(initial: Option<Store>, log: seq<Txn>, t: Txn)
    requires EarlyLogged(initial, log) && TxnEarly(initial, log, t)
    ensures EarlyLogged(initial, log + [t])
  {
    var l := log + [t];
    forall i | 0 <= i < |l| ensures TxnEarly(initial, l[..i], l[i]) {
      assert i < |log| ==> l[..i] == log[..i];
      assert i == |log| ==> l[..i] == log;
    }
  }

  // ---- Steps ----

  /** Nobody waits with early values while no round is in progress. */
  lemma NothingEarly(s: State)
    requires Early(s) && !Started(s)
    ensures forall a :: a in s.hosts ==> s.hosts[a].early == []
  {
    forall a | a in s.hosts ensures s.hosts[a].early == [] {
      assert EarlyOk(s, a);
    }
  }

  lemma ClientEarly(s: State, act: Action)
    requires IsClient(act) && Early(s) && ClientStep(s, act).Next?
    ensures Early(ClientStep(s, act).state)
  {
    hide EarlyRead, Upgrading;
    var n := ClientStep(s, act).state;
    forall b | b in n.hosts ensures EarlyOk(n, b) {
      assert EarlyOk(s, b);
    }
  }

  lemma DeliverEarly(s: State, a: Addr)
    requires Early(s) && DeliverStep(s, a).Next?
    ensures Early(DeliverStep(s, a).state)
  {
    hide EarlyRead, Upgrading;
    var n := DeliverStep(s, a).state;
    TokensAppend(s.queue, Msg(a, s.hosts[a].up[0]));
    forall b | b in n.hosts ensures EarlyOk(n, b) {
      assert EarlyOk(s, b);
    }
  }

  lemma MainEarly(s: State, act: Action)
    requires act.RunLoad? || act.RunConfig? || act.EnterWait? || act.SkipWait? || act.Wake? || act.Simulate?
    requires Early(s) && MainStep(s, act).Next?
    ensures Early(MainStep(s, act).state)
  {
    hide EarlyRead, Upgrading;
    var n := MainStep(s, act).state;
    NothingEarly(s);
    if n.hist.log != s.hist.log {
      LoggedGrows(s.hist.initial, s.hist.log, n.hist.log[|s.hist.log|]);
    }
    forall b | b in n.hosts ensures EarlyOk(n, b) {
    }
  }

  lemma StartEarly(s: State)
    requires Core(s) && Early(s) && s.queue != [] && s.queue[0].StartToken? && ProcessStep(s).Next?
    ensures Early(ProcessStep(s).state)
  {
    hide EarlyRead, Upgrading, OnStart, Push, Records, Changes, WellFormed, Serialised, HostsGood, Topology,
      EarlyLogged;
    QueueTail(s);
    NothingEarly(s);
    assert WellFormed(s.server, false) && s.server.current.Some?;
    StartGrants(s.server);
    SettleSame(s.(queue := s.queue[1..]), OnStart(s.server));
    var n := ProcessStep(s).state;
    forall b | b in n.hosts ensures EarlyOk(n, b) {
    }
  }

  /** A lock request of a host that reads: it has no early values yet. */
  lemma LockHead(s: State, a: Addr, write: bool, cycle: nat)
    requires Core(s) && s.queue != [] && s.queue[0] == Msg(a, LockReq(write, cycle)) && a in s.hosts
    ensures var h, v := s.hosts[a], ViewOf(s.server, a.host);
            && !h.logged && Fresh(h.seen, s.program)
            && (v.Out? || (v == Granted(false, cycle) && h.early == [] && Started(s)))
    ensures s.program == Replay(s.hist.initial, s.hist.log)
  {
    hide ViewOf, WellFormed, Within, Serial, Replay;
    QueueTail(s);
    assert HostGood(s, a);
    var h, v := s.hosts[a], ViewOf(s.server, a.host);
    var p := Pending(s.queue[1..], a) + h.up;
    assert Pipeline(s, a) == [LockReq(write, cycle)] + p;
    HeadIsLock(h, p, v, write, cycle, s.program, s.schema);
    assert [LockReq(write, cycle)] + p == [LockReq(write, cycle)];
    if v.Granted? { HolderStarted(s, a); }
  }

  lemma LockEarlys(s: State, a: Addr, write: bool, cycle: nat)
    requires Core(s) && Early(s) && s.queue != [] && s.queue[0] == Msg(a, LockReq(write, cycle)) && ProcessStep(s).Next?
    ensures Early(ProcessStep(s).state)
  {
    hide Core, EarlyRead, OnLock, Push, Records, Changes, ViewOf, EarlyLogged, Settle, Upgrading, LockRecorded;
    LockFacts(s, a, write, cycle);
    LockHead(s, a, write, cycle);
    var r := OnLock(s.server, a, cycle, write);
    var s1 := s.(queue := s.queue[1..]);
    var h := LockRecorded(s.hosts[a], ViewOf(s.server, a.host), a in r.grants, |s.hist.log|);
    var n := ProcessStep(s).state;
    SettleSame(WithHost(s1, a, h), r);
    SettleKeeps(WithHost(s1, a, h), r);
    LockStarted(s, a, write, cycle);
    forall b | b in n.hosts ensures EarlyOk(n, b) {
      assert EarlyOk(s, b);
      if b == a {
        LockerEarly(s, n, a, write, cycle);
      } else {
        OtherUpgrading(s, a, write, cycle, b);
      }
    }
  }

  lemma LockStarted(s: State, a: Addr, write: bool, cycle: nat)
    requires Core(s) && s.queue != [] && s.queue[0] == Msg(a, LockReq(write, cycle)) && ProcessStep(s).Next?
    requires a in s.hosts && Locked(s.server, Started(s), a, cycle, write, OnLock(s.server, a, cycle, write))
    ensures Started(ProcessStep(s).state) == Started(s)
    ensures ProcessStep(s).state.server == OnLock(s.server, a, cycle, write).server
  {
    hide OnLock, Push, Records, Changes, ViewOf, WellFormed, Topology, HostsGood, Serialised;
    QueueTail(s);
  }

  lemma OtherUpgrading(s: State, a: Addr, write: bool, cycle: nat, b: Addr)
    requires Core(s) && a in s.hosts && b in s.hosts && b != a && OnLock(s.server, a, cycle, write).Done?
    ensures Upgrading(s.server, b.host) ==> Upgrading(OnLock(s.server, a, cycle, write).server, b.host)
  {
    hide OnLock, WellFormed, HostsGood, Serialised, Within;
    AskedEntries(s.server, Started(s), a, cycle, write);
    assert a.host != b.host;
  }

  /** A reader whose upgrade is put off keeps what it has read as early values. */
  lemma LockerEarly(s: State, n: State, a: Addr, write: bool, cycle: nat)
    requires Core(s) && a in s.hosts && OnLock(s.server, a, cycle, write).Done? && a in n.hosts
    requires var h, v := s.hosts[a], ViewOf(s.server, a.host);
             && Fresh(h.seen, s.program) && s.program == Replay(s.hist.initial, s.hist.log)
             && (v.Out? || (v == Granted(false, cycle) && h.early == [] && Started(s)))
    requires var r := OnLock(s.server, a, cycle, write);
             var h := LockRecorded(s.hosts[a], ViewOf(s.server, a.host), a in r.grants, |s.hist.log|);
             && n.hosts[a].early == h.early && n.hosts[a].point == h.point
             && n.server == r.server && n.hist.log == s.hist.log && n.hist.initial == s.hist.initial
    requires Started(n) == Started(s)
    requires Locked(s.server, Started(s), a, cycle, write, OnLock(s.server, a, cycle, write))
    ensures EarlyOk(n, a)
  {
    hide OnLock, WellFormed, HostsGood, Serial, Replay, Within;
    var r := OnLock(s.server, a, cycle, write);
    AskedEntries(s.server, Started(s), a, cycle, write);
    assert s.hist.log[..|s.hist.log|] == s.hist.log && s.hist.log[|s.hist.log|..] == [];
    if ViewOf(s.server, a.host).Granted? && a !in r.grants {
      assert r.grants == [];
    }
  }

  lemma AccessEarly(s: State, a: Addr, req: Request)
    requires Core(s) && Early(s) && s.queue != [] && s.queue[0] == Msg(a, req) && (req.ReadReq? || req.WriteReq?)
    requires ProcessStep(s).Next?
    ensures Early(ProcessStep(s).state)
  {
    hide Core, OnAccess, ViewOf, Decoded, EarlyRead, Upgrading, EarlyLogged;
    AccessFacts(s, a, req);
    QueueTail(s);
    var n := ProcessStep(s).state;
    var h := s.hosts[a];
    assert Started(n) == Started(s) by { AccessStarted(s, a, req); }
    if req.WriteReq? {
      var t := HostTxn(a, req.cycle, req.observed, |h.early|, h.point, req.own, req.session);
      WriteHead(s, a, req);
      assert EarlyOk(s, a);
      assert (h.early + h.seen)[..|h.early|] == h.early;
      LoggedGrows(s.hist.initial, s.hist.log, t);
      forall b | b in n.hosts ensures EarlyOk(n, b) {
        assert EarlyOk(s, b);
        if b != a && s.hosts[b].early != [] {
          EarlyGrows(s.hist.initial, s.hist.log, t, s.hosts[b].early, s.hosts[b].point);
        }
      }
    } else {
      forall b | b in n.hosts ensures EarlyOk(n, b) {
        assert EarlyOk(s, b);
      }
    }
  }

  lemma AccessStarted(s: State, a: Addr, req: Request)
    requires s.queue != [] && s.queue[0] == Msg(a, req) && (req.ReadReq? || req.WriteReq?) && ProcessStep(s).Next?
    ensures Started(ProcessStep(s).state) == Started(s)
  {
    hide OnAccess, Decoded;
    QueueTail(s);
  }

  lemma UnlockEarly(s: State, a: Addr, req: Request)
    requires Core(s) && Early(s) && s.queue != [] && s.queue[0] == Msg(a, req) && req.UnlockReq? && ProcessStep(s).Next?
    ensures Early(ProcessStep(s).state)
  {
    hide Core, OnUnlock, Push, Records, Changes, ViewOf, EarlyRead, Upgrading, EarlyLogged, Unlocked;
    UnlockFacts(s, a, req);
    UnlockedGrants(s.server, a, req.cycle, OnUnlock(s.server, a, req.cycle));
    QueueTail(s);
    var r := OnUnlock(s.server, a, req.cycle);
    var h := Finish(s.hosts[a], req.cycle);
    SettleSame(WithHost(s.(queue := s.queue[1..]), a, h), r);
    var n := ProcessStep(s).state;
    var t := HostTxn(a, req.cycle, req.observed, 0, 0, map[], req.session);
    assert n.hist.log == s.hist.log || n.hist.log == s.hist.log + [t];
    LoggedGrows(s.hist.initial, s.hist.log, t);
    forall b | b in n.hosts ensures EarlyOk(n, b) {
      assert EarlyOk(s, b);
      if b != a && s.hosts[b].early != [] {
        EarlyGrows(s.hist.initial, s.hist.log, t, s.hosts[b].early, s.hosts[b].point);
        OtherStillUpgrading(s, a, req.cycle, b);
        assert !r.released && Started(n);
      }
    }
  }

  lemma OtherStillUpgrading(s: State, a: Addr, cycle: nat, b: Addr)
    requires Core(s) && a in s.hosts && b in s.hosts && b != a && Upgrading(s.server, b.host)
    requires Started(s) && ViewOf(s.server, a.host).Granted? && OnUnlock(s.server, a, cycle).Done?
    ensures !OnUnlock(s.server, a, cycle).released && Upgrading(OnUnlock(s.server, a, cycle).server, b.host)
  {
    hide OnUnlock, WellFormed, HostsGood, Serialised, Within, ViewOf;
    assert a.host != b.host;
    var r := OnUnlock(s.server, a, cycle);
    if r.released {
      ReleasedEntries(s.server, a, cycle);
    } else {
      UnlockedEntries(s.server, a, cycle);
      assert HandedOn(Lookup(s.server.current.value, b.host), Lookup(r.server.current.value, b.host), r.grants);
    }
  }

  lemma StepEarly(s: State, act: Action)
    requires Core(s) && Early(s) && Step(s, act).Next?
    ensures Early(Step(s, act).state)
  {
    hide Core, Early, ProcessStep;
    if IsClient(act) {
      ClientEarly(s, act);
    } else {
      match act
      case Deliver(a) => DeliverEarly(s, a);
      case Process =>
        assert s.queue != [] by { ProcessHasEvent(s); }
        match s.queue[0] {
          case StartToken => StartEarly(s);
          case Msg(a, LockReq(w, c)) => LockEarlys(s, a, w, c);
          case Msg(a, UnlockReq(_, _, _, _)) => UnlockEarly(s, a, s.queue[0].req);
          case Msg(a, req) => AccessEarly(s, a, req);
        }
      case _ => MainEarly(s, act);
    }
  }
}
