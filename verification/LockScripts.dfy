/**
 A client seen from its own side: its steps and the responses that arrive, and nothing of the server. In every
 run of the protocol a host is where playing its own script takes it.
 */
module LockScripts {
  import opened Prelude
  import opened LockProtocol
  import LockServer

  datatype Turn = Act(act: Action) | Arrive(response: Response)

  function PlayTurn(h: Host, turn: Turn, schema: Schema): Option<Host> {
    match turn
    case Act(act) => if IsClient(act) then HostStep(h, act, schema) else None
    case Arrive(response) => Some(h.(down := h.down + [response]))
  }

  /** Where a script takes a host, unless one of its steps is not possible. */
  function Play(h: Host, script: seq<Turn>, schema: Schema): Option<Host> {
    if script == [] then Some(h)
    else
      match Play(h, script[..|script| - 1], schema)
      case None => None
      case Some(m) => PlayTurn(m, script[|script| - 1], schema)
  }

  lemma PlayMore(h: Host, script: seq<Turn>, turn: Turn, schema: Schema)
    requires Play(h, script, schema).Some?
    ensures Play(h, script + [turn], schema) == PlayTurn(Play(h, script, schema).value, turn, schema)
  {
    assert (script + [turn])[..|script + [turn]| - 1] == script;
  }

  /** Everything of a host that its own steps look at. */
  predicate SameSide(h: Host, n: Host) {
    && n.phase == h.phase && n.cycle == h.cycle && n.prev == h.prev && n.got == h.got && n.copies == h.copies
    && n.own == h.own && n.down == h.down && n.session == h.session && n.asked == h.asked && n.received == h.received
  }

  /** What arrived at a host between two states. */
  function Arrivals(was: seq<Response>, now: seq<Response>): seq<Turn> {
    if |now| <= |was| then [] else Arrivals(was, now[..|now| - 1]) + [Arrive(now[|now| - 1])]
  }

  /** A host's part in one step. */
  function Part(s: State, act: Action, n: State, a: Addr): seq<Turn>
    requires a in s.hosts && a in n.hosts
  {
    if IsClient(act) && act.a == a then [Act(act)] else Arrivals(s.hosts[a].down, n.hosts[a].down)
  }

  predicate Everywhere(s: State, acts: seq<Action>, a: Addr) {
    Run(s, acts).Next? && a in Run(s, acts).state.hosts && (acts != [] ==> Everywhere(s, acts[..|acts| - 1], a))
  }

  /** A host's part in a run. */
  function Script(s: State, acts: seq<Action>, a: Addr): seq<Turn>
    requires Everywhere(s, acts, a)
  {
    if acts == [] then []
    else
      var before := acts[..|acts| - 1];
      Script(s, before, a) + Part(Run(s, before).state, acts[|acts| - 1], Run(s, acts).state, a)
  }

  // ---- Other steps only add responses ----

  /** A step of others leaves a host's side alone, but for responses that arrive. */
  predicate Extends(h: Host, n: Host) {
    h.down <= n.down && SameSide(h, n.(down := h.down))
  }

  /** And the server leaves its requests alone. */
  predicate Receives(h: Host, n: Host) {
    Extends(h, n) && n.up == h.up
  }

  lemma {:induction false} PushExtends(hosts: map<Addr, Host>, grants: seq<Addr>, r: Response, a: Addr)
    requires a in hosts
    ensures a in Push(hosts, grants, r) && Receives(hosts[a], Push(hosts, grants, r)[a])
  {
    if grants != [] {
      var g := grants[0];
      var m := if g in hosts then hosts[g := hosts[g].(down := hosts[g].down + [r], sent := hosts[g].sent + 1)]
        else hosts;
      PushExtends(m, grants[1..], r, a);
      ReceiveTwice(hosts[a], m[a], Push(m, grants[1..], r)[a]);
    }
  }

  lemma ReceiveTwice(h: Host, m: Host, n: Host)
    requires Receives(h, m) && Receives(m, n)
    ensures Receives(h, n)
  {
  }

  lemma {:induction false} NobodyElse(hosts: map<Addr, Host>, grants: seq<Addr>, r: Response)
    ensures Push(hosts, grants, r).Keys == hosts.Keys
  {
    if grants != [] {
      var g := grants[0];
      var m := if g in hosts then hosts[g := hosts[g].(down := hosts[g].down + [r], sent := hosts[g].sent + 1)]
        else hosts;
      NobodyElse(m, grants[1..], r);
    }
  }

  lemma SettleExtends(s: State, m: State, r: LockServer.Handled)
    requires r.Done? && m.hosts.Keys == s.hosts.Keys && forall a :: a in s.hosts ==> Receives(s.hosts[a], m.hosts[a])
    ensures Settle(m, r).hosts.Keys == s.hosts.Keys
    ensures forall a :: a in s.hosts ==> Receives(s.hosts[a], Settle(m, r).hosts[a])
  {
    hide Records, Changes, Push, Receives;
    forall a | a in s.hosts
      ensures a in Settle(m, r).hosts && Receives(s.hosts[a], Settle(m, r).hosts[a])
    {
      PushExtends(m.hosts, r.grants, Grant(Now(m)), a);
      ReceiveTwice(s.hosts[a], m.hosts[a], Settle(m, r).hosts[a]);
    }
    NobodyElse(m.hosts, r.grants, Grant(Now(m)));
  }

  ghost predicate AllReceive(s: State, n: State) {
    n.hosts.Keys == s.hosts.Keys && forall a :: a in s.hosts ==> Receives(s.hosts[a], n.hosts[a])
  }

  lemma ProcessExtends(s: State)
    requires ProcessStep(s).Next?
    ensures AllReceive(s, ProcessStep(s).state)
  {
    hide ProcessStep, AllReceive;
    assert s.queue != [] by { HasEvent(s); }
    match s.queue[0]
    case StartToken => StartExtends(s);
    case Msg(_, LockReq(_, _)) => LockExtends(s);
    case Msg(_, UnlockReq(_, _, _, _)) => UnlockExtends(s);
    case _ => AccessExtends(s);
  }

  lemma HasEvent(s: State)
    requires ProcessStep(s).Next?
    ensures s.queue != []
  {
  }

  lemma StartExtends(s: State)
    requires ProcessStep(s).Next? && s.queue != [] && s.queue[0].StartToken?
    ensures AllReceive(s, ProcessStep(s).state)
  {
    hide LockServer.OnStart, Settle;
    SettleExtends(s, s.(queue := s.queue[1..]), LockServer.OnStart(s.server));
  }

  lemma LockExtends(s: State)
    requires ProcessStep(s).Next? && s.queue != [] && s.queue[0].Msg? && s.queue[0].req.LockReq?
    ensures AllReceive(s, ProcessStep(s).state)
  {
    hide LockServer.OnLock, LockServer.ViewOf, LockRecorded, Settle;
    var Msg(a, LockReq(write, cycle)) := s.queue[0];
    var r := LockServer.OnLock(s.server, a, cycle, write);
    var h := LockRecorded(s.hosts[a], LockServer.ViewOf(s.server, a.host), a in r.grants, |s.hist.log|);
    RecordedExtends(s.hosts[a], LockServer.ViewOf(s.server, a.host), a in r.grants, |s.hist.log|);
    SettleExtends(s, WithHost(s.(queue := s.queue[1..]), a, h), r);
  }

  lemma UnlockExtends(s: State)
    requires ProcessStep(s).Next? && s.queue != [] && s.queue[0].Msg? && s.queue[0].req.UnlockReq?
    ensures AllReceive(s, ProcessStep(s).state)
  {
    hide LockServer.OnUnlock, LockServer.ViewOf, Settle;
    var Msg(a, req) := s.queue[0];
    var m := WithHost(s.(queue := s.queue[1..]), a, Finish(s.hosts[a], req.cycle));
    SettleExtends(s, m, LockServer.OnUnlock(s.server, a, req.cycle));
  }

  lemma AccessExtends(s: State)
    requires ProcessStep(s).Next? && s.queue != [] && s.queue[0].Msg?
    requires s.queue[0].req.ReadReq? || s.queue[0].req.WriteReq?
    ensures AllReceive(s, ProcessStep(s).state)
  {
    hide LockServer.OnAccess, Decoded;
  }

  lemma RecordedExtends(h: Host, v: LockServer.View, granted: bool, point: nat)
    ensures Receives(h, LockRecorded(h, v, granted, point))
  {
  }

  lemma OthersExtend(s: State, act: Action, a: Addr)
    requires a in s.hosts && Step(s, act).Next? && !(IsClient(act) && act.a == a)
    ensures a in Step(s, act).state.hosts && Extends(s.hosts[a], Step(s, act).state.hosts[a])
  {
    hide ProcessStep, HostStep;
    if act.Process? {
      ProcessExtends(s);
    }
  }

  // ---- Playing the script ----

  lemma PlayJoin(h: Host, script: seq<Turn>, more: seq<Turn>, schema: Schema)
    requires Play(h, script, schema).Some?
    ensures Play(h, script + more, schema) == Play(Play(h, script, schema).value, more, schema)
  {
    if more == [] {
      assert script + more == script;
    } else {
      var n := |more| - 1;
      PlayJoin(h, script, more[..n], schema);
      assert (script + more)[..|script + more| - 1] == script + more[..n];
    }
  }

  lemma {:induction false} ArrivalsPlay(h: Host, now: seq<Response>, schema: Schema)
    requires h.down <= now
    ensures Play(h, Arrivals(h.down, now), schema) == Some(h.(down := now))
    decreases |now|
  {
    if |now| > |h.down| {
      hide Play, PlayTurn;
      var n := |now| - 1;
      assert h.down <= now[..n];
      ArrivalsPlay(h, now[..n], schema);
      PlayMore(h, Arrivals(h.down, now[..n]), Arrive(now[n]), schema);
      ArriveTurn(h.(down := now[..n]), now[n], schema);
      assert now[..n] + [now[n]] == now;
    } else {
      assert now == h.down;
    }
  }

  lemma ArriveTurn(h: Host, response: Response, schema: Schema)
    ensures PlayTurn(h, Arrive(response), schema) == Some(h.(down := h.down + [response]))
  {
  }

  /** Hosts that look the same from their own side take the same steps. */
  lemma SameSteps(h: Host, n: Host, act: Action, schema: Schema)
    requires IsClient(act) && SameSide(h, n)
    ensures HostStep(h, act, schema).Some? <==> HostStep(n, act, schema).Some?
    ensures HostStep(h, act, schema).Some? ==> SameSide(HostStep(h, act, schema).value, HostStep(n, act, schema).value)
  {
    hide WriteStream.EncodeWrites, WriteStream.Sendable, WriteStream.CellSet, Schema.Accepts;
  }

  lemma {:induction false} HostsStay(s: State, acts: seq<Action>, a: Addr)
    requires a in s.hosts && Run(s, acts).Next?
    ensures Everywhere(s, acts, a)
  {
    hide Step;
    if acts != [] {
      var before := acts[..|acts| - 1];
      HostsStay(s, before, a);
      var m, act := Run(s, before).state, acts[|acts| - 1];
      if IsClient(act) && act.a == a {
        OwnStep(m, act);
      } else {
        OthersExtend(m, act, a);
      }
    }
  }

  lemma OwnStep(s: State, act: Action)
    requires IsClient(act) && act.a in s.hosts && Step(s, act).Next?
    ensures Step(s, act).state.hosts.Keys == s.hosts.Keys
    ensures HostStep(s.hosts[act.a], act, s.schema) == Some(Step(s, act).state.hosts[act.a])
    ensures Step(s, act).state.schema == s.schema
  {
  }

  lemma SchemaStays(s: State, act: Action)
    requires Step(s, act).Next?
    ensures Step(s, act).state.schema == s.schema
  {
    hide LockServer.OnLock, LockServer.OnUnlock, LockServer.OnStart, LockServer.OnAccess, LockServer.ViewOf,
      HostStep, Push;
  }

  /** In every run a host is, from its own side, where playing its script takes it. */
  lemma {:induction false} HostPlaysItsScript(s: State, acts: seq<Action>, a: Addr)
    requires a in s.hosts && Run(s, acts).Next?
    ensures Everywhere(s, acts, a) && Run(s, acts).state.schema == s.schema
    ensures var h := Play(s.hosts[a], Script(s, acts, a), s.schema);
            h.Some? && SameSide(h.value, Run(s, acts).state.hosts[a])
  {
    hide Step, PlayTurn, SameSide, HostStep, Extends;
    HostsStay(s, acts, a);
    if acts == [] {
      assert SameSide(s.hosts[a], s.hosts[a]) by { SameSelf(s.hosts[a]); }
    } else {
      var before := acts[..|acts| - 1];
      HostPlaysItsScript(s, before, a);
      var m, act := Run(s, before).state, acts[|acts| - 1];
      SchemaStays(m, act);
      PartPlays(s.hosts[a], Script(s, before, a), m, act, a);
    }
  }

  lemma SameSelf(h: Host)
    ensures SameSide(h, h)
  {
  }

  lemma PartPlays(start: Host, script: seq<Turn>, m: State, act: Action, a: Addr)
    requires a in m.hosts && Step(m, act).Next? && a in Step(m, act).state.hosts
    requires Play(start, script, m.schema).Some? && SameSide(Play(start, script, m.schema).value, m.hosts[a])
    ensures var n := Step(m, act).state;
            var h := Play(start, script + Part(m, act, n, a), m.schema);
            h.Some? && SameSide(h.value, n.hosts[a])
  {
    hide Step, HostStep, Play;
    var n := Step(m, act).state;
    var h := Play(start, script, m.schema).value;
    if IsClient(act) && act.a == a {
      OwnStep(m, act);
      SameSteps(h, m.hosts[a], act, m.schema);
      PlayMore(start, script, Act(act), m.schema);
    } else {
      OthersExtend(m, act, a);
      PlayJoin(start, script, Arrivals(h.down, n.hosts[a].down), m.schema);
      ArrivalsPlay(h, n.hosts[a].down, m.schema);
    }
  }
}
