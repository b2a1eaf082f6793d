/**
 Lock responses as messages: what a handler posts, what the channels carry, and which cycle a host is given
 (issueLockResponse, src/component/activities.cpp:553-568; getCurrentCycle, src/component/component.cpp:132-135).
 */
module LockMessages {
  import opened Prelude
  import opened LockTable
  import opened LockServer
  import opened LockProtocol
  import opened LockInvariant
  import opened LockHistory
  import opened LockRounds
  import opened LockGrants
  import opened LockRuns
  import opened LockOrder
  import C = Component

  /** The responses posted to one address, in order. */
  function PostedTo(out: seq<C.Sent>, a: Addr): seq<Response> {
    if out == [] then []
    else (if out[0].to == a then [out[0].response] else []) + PostedTo(out[1..], a)
  }

  lemma {:induction false} PushPosts(hosts: map<Addr, Host>, grants: seq<Addr>, cycle: nat)
    ensures var n := Push(hosts, grants, Grant(cycle));
            && n.Keys == hosts.Keys
            && forall a :: a in hosts ==> n[a].down == hosts[a].down + PostedTo(C.GrantsTo(grants, cycle), a)
  {
    if grants != [] {
      var g := grants[0];
      var h := if g in hosts
        then hosts[g := hosts[g].(down := hosts[g].down + [Grant(cycle)], sent := hosts[g].sent + 1)] else hosts;
      PushPosts(h, grants[1..], cycle);
      assert C.GrantsTo(grants, cycle)[1..] == C.GrantsTo(grants[1..], cycle);
    }
  }

  /**
   What a handler posts is what the channels carry afterwards: to each host its responses, in order, each with the
   component's clock, or 0 while no program is loaded.
   */
  lemma OutboxIsDelivered(s: State, r: Handled, a: Addr)
    requires r.Done? && a in s.hosts
    ensures Settle(s, r).hosts.Keys == s.hosts.Keys
    ensures Settle(s, r).hosts[a].down ==
            s.hosts[a].down + PostedTo(C.GrantsTo(r.grants, if s.program.Some? then s.clock else 0), a)
  {
    PushPosts(s.hosts, r.grants, if s.program.Some? then s.clock else 0);
  }

  /** The same for the class: after a handler the component is as the step leaves it, and its new posts arrive. */
  twostate lemma HandlerIsStep(m: C.EGRequestManager, s: State, r: Handled)
    requires r.Done? && old(m.component.Shows(s)) && m.Handles(r)
    ensures m.component.Shows(Settle(s, r))
    ensures old(m.component.outbox) <= m.component.outbox
    ensures forall a :: a in s.hosts ==>
              a in Settle(s, r).hosts &&
              Settle(s, r).hosts[a].down ==
              s.hosts[a].down + PostedTo(m.component.outbox[|old(m.component.outbox)|..], a)
  {
    var now := if s.program.Some? then s.clock else 0;
    assert m.component.outbox[|old(m.component.outbox)|..] == C.GrantsTo(r.grants, now);
    forall a | a in s.hosts
      ensures a in Settle(s, r).hosts &&
              Settle(s, r).hosts[a].down == s.hosts[a].down + PostedTo(C.GrantsTo(r.grants, now), a)
    {
      OutboxIsDelivered(s, r, a);
    }
  }

  // ---- Grants in flight ----

  /** The last grant to this address was of this round and cycle. */
  ghost predicate LastTo(grants: seq<GrantRecord>, a: Addr, round: nat, cycle: nat) {
    exists k :: 0 <= k < |grants| && grants[k].to == a && grants[k].round == round && grants[k].cycle == cycle
                && forall j :: k < j < |grants| ==> grants[j].to != a
  }

  ghost predicate Carried(s: State) {
    forall a, i :: a in s.hosts && 0 <= i < |s.hosts[a].down| && s.hosts[a].down[i].Grant? ==>
      LastTo(s.hist.grants, a, s.hist.round, s.hosts[a].down[i].cycle)
  }

  /** A grant in flight is alone in its channel, and its host has the lock. */
  lemma GrantIsAlone(s: State, a: Addr, i: nat)
    requires Core(s) && a in s.hosts && i < |s.hosts[a].down| && s.hosts[a].down[i].Grant?
    ensures |s.hosts[a].down| == 1 && ViewOf(s.server, a.host).Granted? && Started(s)
  {
    hide ViewOf, Serialised, Ending, Midway, Conserved, Started;
    assert HostGood(s, a);
    HolderStarted(s, a);
  }

  lemma QuietCarries(s: State, n: State)
    requires Carried(s) && n.hist.grants == s.hist.grants && n.hist.round == s.hist.round
    requires forall a :: a in n.hosts ==>
               a in s.hosts && forall i :: 0 <= i < |n.hosts[a].down| && n.hosts[a].down[i].Grant? ==>
                 n.hosts[a].down[i] in s.hosts[a].down
    ensures Carried(n)
  {
    hide LastTo;
  }

  lemma OutsideCarries(s: State, act: Action, n: State)
    requires Carried(s) && !act.Process? && Step(s, act) == Next(n)
    ensures Carried(n)
  {
    hide Carried;
    QuietCarries(s, n);
  }

  lemma {:induction false} LastAddress(sent: seq<Addr>, a: Addr) returns (k: nat)
    requires a in sent
    ensures k < |sent| && sent[k] == a && forall j :: k < j < |sent| ==> sent[j] != a
  {
    k := |sent| - 1;
    if sent[k] != a {
      k := LastAddress(sent[..k], a);
    }
  }

  lemma {:induction false} PostedGrants(sent: seq<Addr>, cycle: nat, a: Addr)
    ensures forall i :: 0 <= i < |PostedTo(C.GrantsTo(sent, cycle), a)| ==>
              PostedTo(C.GrantsTo(sent, cycle), a)[i] == Grant(cycle)
    ensures PostedTo(C.GrantsTo(sent, cycle), a) == [] <==> a !in sent
  {
    if sent != [] {
      PostedGrants(sent[1..], cycle, a);
      assert C.GrantsTo(sent, cycle)[1..] == C.GrantsTo(sent[1..], cycle);
    }
  }

  lemma RecordsLast(grants: seq<GrantRecord>, sent: seq<Addr>, sv: Server, round: nat, now: nat, a: Addr, cycle: nat)
    requires if a in sent then cycle == now else LastTo(grants, a, round, cycle)
    ensures LastTo(grants + Records(sent, sv, round, now), a, round, cycle)
  {
    hide IsWriting;
    var r := Records(sent, sv, round, now);
    var k: nat;
    if a in sent {
      var x := LastAddress(sent, a);
      k := |grants| + x;
    } else {
      k :| k < |grants| && grants[k].to == a && grants[k].round == round && grants[k].cycle == cycle
        && forall j :: k < j < |grants| ==> grants[j].to != a;
    }
    var all := grants + r;
    assert all[k].to == a && all[k].cycle == cycle;
    forall j | k < j < |all| ensures all[j].to != a {
      assert j >= |grants| ==> all[j].to == sent[j - |grants|];
    }
  }

  // ---- What a handler does to the channels ----

  /** The step's effects on grants and channels are those of a handler that did `r`. */
  ghost predicate Settles(s: State, m: State, r: Handled, n: State) {
    && r.Done? && n.hosts == Settle(m, r).hosts
    && n.hist.grants == Settle(m, r).hist.grants && n.hist.round == Settle(m, r).hist.round
    && m.hist == s.hist && m.program == s.program && m.clock == s.clock && m.hosts.Keys == s.hosts.Keys
    && (forall a :: a in s.hosts ==> m.hosts[a].down == s.hosts[a].down)
    && NoDuplicates(r.grants) && (forall a :: a in r.grants ==> a in s.hosts)
    && (r.released ==> n.released)
  }

  lemma SameDown(h: Host, v: View, granted: bool, point: nat)
    ensures LockRecorded(h, v, granted, point).down == h.down
  {
  }

  lemma StartSettles(s: State, n: State) returns (m: State, r: Handled)
    requires Core(s) && s.queue != [] && s.queue[0].StartToken? && ProcessStep(s) == Next(n)
    ensures Settles(s, m, r, n)
  {
    hide OnStart, Push, Records, Changes, WellFormed, Serialised, HostsGood;
    m, r := s.(queue := s.queue[1..]), OnStart(s.server);
    UnstartedServer(s);
    StartGrants(s.server);
    forall a | a in r.grants ensures a in s.hosts {
      assert GrantedRightly(s.server, r.server, a, r.grants);
    }
  }

  lemma LockSettled(s: State, n: State, a: Addr, write: bool, cycle: nat) returns (m: State, r: Handled)
    requires Core(s) && s.queue != [] && s.queue[0] == Msg(a, LockReq(write, cycle)) && ProcessStep(s) == Next(n)
    ensures Settles(s, m, r, n)
  {
    hide Core, OnLock, Push, Records, Changes, ViewOf, LockRecorded, Locked, LockGrants.Moves;
    LockFacts(s, a, write, cycle);
    r := OnLock(s.server, a, cycle, write);
    LockMoves(s, a, write, cycle);
    SameDown(s.hosts[a], ViewOf(s.server, a.host), a in r.grants, |s.hist.log|);
    m := WithHost(s.(queue := s.queue[1..]), a,
      LockRecorded(s.hosts[a], ViewOf(s.server, a.host), a in r.grants, |s.hist.log|));
  }

  lemma ReleaseSends(sv: Server, a: Addr, cycle: nat)
    requires OnUnlock(sv, a, cycle).Done? && OnUnlock(sv, a, cycle).released
    ensures OnUnlock(sv, a, cycle).grants == []
  {
  }

  lemma UnlockSettled(s: State, n: State, a: Addr, req: Request) returns (m: State, r: Handled)
    requires Core(s) && s.queue != [] && s.queue[0] == Msg(a, req) && req.UnlockReq? && ProcessStep(s) == Next(n)
    ensures Settles(s, m, r, n)
  {
    hide Core, OnUnlock, Push, Records, Changes, ViewOf, Unlocked, LockGrants.Moves;
    UnlockFacts(s, a, req);
    r := OnUnlock(s.server, a, req.cycle);
    UnlockedGrants(s.server, a, req.cycle, r);
    if r.released { ReleaseSends(s.server, a, req.cycle); } else { UnlockMoves(s, a, req.cycle); }
    m := WithHost(s.(queue := s.queue[1..]), a, Finish(s.hosts[a], req.cycle));
  }

  /** A handler's grants are the last ones of their hosts, with the component's cycle. */
  lemma SettleCarries(s: State, m: State, r: Handled, n: State)
    requires Carried(s) && Core(n) && Settles(s, m, r, n)
    ensures Carried(n)
  {
    hide Core, LastTo, Records, Changes;
    var now := if m.program.Some? then m.clock else 0;
    forall a, i: nat | a in n.hosts && i < |n.hosts[a].down| && n.hosts[a].down[i].Grant?
      ensures LastTo(n.hist.grants, a, n.hist.round, n.hosts[a].down[i].cycle)
    {
      PushPosts(m.hosts, r.grants, now);
      GrantIsAlone(n, a, i);
      PostedGrants(r.grants, now, a);
      var d := PostedTo(C.GrantsTo(r.grants, now), a);
      assert n.hosts[a].down == s.hosts[a].down + d;
      RecordsLast(s.hist.grants, r.grants, r.server, s.hist.round, now, a, n.hosts[a].down[i].cycle);
    }
  }

  lemma AccessCarries(s: State, n: State, a: Addr, req: Request)
    requires Core(s) && Carried(s) && s.queue != [] && s.queue[0] == Msg(a, req) && (req.ReadReq? || req.WriteReq?)
    requires ProcessStep(s) == Next(n)
    ensures Carried(n)
  {
    hide Core, Carried, OnAccess, Decoded;
    AccessFacts(s, a, req);
    QuietCarries(s, n);
  }

  lemma ProcessCarries(s: State, n: State)
    requires Core(s) && Core(n) && Carried(s) && Step(s, Process) == Next(n)
    ensures Carried(n)
  {
    hide Core, Carried, ProcessStep, Settles;
    assert s.queue != [] by { ProcessHasEvent(s); }
    match s.queue[0]
    case StartToken =>
      var m, r := StartSettles(s, n);
      SettleCarries(s, m, r, n);
    case Msg(a, LockReq(write, cycle)) =>
      var m, r := LockSettled(s, n, a, write, cycle);
      SettleCarries(s, m, r, n);
    case Msg(a, UnlockReq(_, _, _, _)) =>
      var m, r := UnlockSettled(s, n, a, s.queue[0].req);
      SettleCarries(s, m, r, n);
    case Msg(a, req) => AccessCarries(s, n, a, req);
  }

  lemma StepCarries(s: State, act: Action)
    requires Core(s) && Carried(s) && Step(s, act).Next?
    ensures Carried(Step(s, act).state)
  {
    hide Core, Carried, Step;
    StepKeeps(s, act);
    if act.Process? {
      ProcessCarries(s, Step(s, act).state);
    } else {
      OutsideCarries(s, act, Step(s, act).state);
    }
  }

  lemma {:induction false} RunCarries(init: State, acts: seq<Action>)
    requires Init(init) && Run(init, acts).Next?
    ensures Carried(Run(init, acts).state)
  {
    hide Core, Step;
    if acts != [] {
      var before := acts[..|acts| - 1];
      RunCarries(init, before);
      CoreReached(init, before, Run(init, before).state);
      StepCarries(Run(init, before).state, acts[|acts| - 1]);
    }
  }

  /**
   In every reachable state: a grant on its way to a host is the last one that was sent to it, was sent in the present
   round, and carries the cycle that the component is in.
   */
  lemma GrantsInFlight(init: State, acts: seq<Action>, s: State, a: Addr, i: nat)
    requires Reaches(init, acts, s) && a in s.hosts && i < |s.hosts[a].down| && s.hosts[a].down[i].Grant?
    ensures s.hosts[a].down[i].cycle == if s.program.Some? then s.clock else 0
    ensures exists k :: 0 <= k < |s.hist.grants| && s.hist.grants[k].to == a && s.hist.grants[k].round == s.hist.round
                        && s.hist.grants[k].cycle == s.hosts[a].down[i].cycle
                        && forall j :: k < j < |s.hist.grants| ==> s.hist.grants[j].to != a
  {
    hide Core, Run, Init, Started;
    RunCarries(init, acts);
    ReachableIsGood(init, acts, s);
    var k :| 0 <= k < |s.hist.grants| && s.hist.grants[k].to == a && s.hist.grants[k].round == s.hist.round
      && s.hist.grants[k].cycle == s.hosts[a].down[i].cycle
      && forall j :: k < j < |s.hist.grants| ==> s.hist.grants[j].to != a;
    assert GrantPlaced(s, s.hist.grants[k]);
  }

  /** The records that a handler adds, and the messages that go with them. */
  lemma SettledIsSent(s: State, m: State, r: Handled, n: State, k: nat)
    requires Settles(s, m, r, n) && |s.hist.grants| <= k < |n.hist.grants|
    ensures var g := n.hist.grants[k];
            && g.to in s.hosts && g.to in n.hosts && g.round == s.hist.round
            && g.cycle == (if s.program.Some? then s.clock else 0)
            && n.hosts[g.to].down == s.hosts[g.to].down + [Grant(g.cycle)]
  {
    hide IsWriting, Changes, Push;
    PushIs(m.hosts, r.grants, Grant(if s.program.Some? then s.clock else 0));
    assert n.hist.grants[k].to == r.grants[k - |s.hist.grants|];
  }

  /** Each grant is recorded as it is sent: to a host of the present round, with the cycle the component is in. */
  lemma GrantIsSent(init: State, acts: seq<Action>, s: State, n: State, k: nat)
    requires Reaches(init, acts, s) && Step(s, Process) == Next(n) && |s.hist.grants| <= k < |n.hist.grants|
    ensures var g := n.hist.grants[k];
            && g.to in s.hosts && g.to in n.hosts && g.round == s.hist.round
            && g.cycle == (if s.program.Some? then s.clock else 0)
            && n.hosts[g.to].down == s.hosts[g.to].down + [Grant(g.cycle)]
  {
    hide Core, ProcessStep, Reaches, Settles;
    CoreReached(init, acts, s);
    assert s.queue != [] by { ProcessHasEvent(s); }
    match s.queue[0]
    case StartToken =>
      var m, r := StartSettles(s, n);
      SettledIsSent(s, m, r, n, k);
    case Msg(a, LockReq(write, cycle)) =>
      var m, r := LockSettled(s, n, a, write, cycle);
      SettledIsSent(s, m, r, n, k);
    case Msg(a, UnlockReq(_, _, _, _)) =>
      var m, r := UnlockSettled(s, n, a, s.queue[0].req);
      SettledIsSent(s, m, r, n, k);
    case Msg(a, req) =>
      AccessSendsNone(s, n);
      assert false;
  }
}
