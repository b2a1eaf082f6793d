/**
 From a client's script to the log: every transaction a host has in the log of a run was sent by its own script,
 with the session the script made. So what LockAtomicity says of a logged session holds of the client's cycle.
 */
module LockTraces {
  import opened Prelude
  import opened LockProtocol
  import opened LockInvariant
  import opened LockScripts
  import opened LockRuns
  import opened LockAtomicity
  import LockServer
  import Access

  /** The request that put the transaction in the log. */
  predicate Carried(r: Request, t: Txn) {
    t.HostTxn? &&
    match r
    case WriteReq(cycle, _, own, observed, session) =>
      cycle == t.cycle && own == t.writes && observed == t.observed && session == t.session
    case UnlockReq(cycle, _, observed, session) =>
      cycle == t.cycle && t.writes == map[] && observed == t.observed && session == t.session
    case _ => false
  }

  predicate WasSent(up: seq<Request>, t: Txn) {
    exists k :: 0 <= k < |up| && Carried(up[k], t)
  }

  /** Of all a host has sent the last part is still on its way, and its transactions in the log come from the rest. */
  predicate Traced(up: seq<Request>, n: State, a: Addr)
    requires a in n.hosts
  {
    && |Pipeline(n, a)| <= |up| && up[|up| - |Pipeline(n, a)|..] == Pipeline(n, a)
    && forall i :: 0 <= i < |n.hist.log| && n.hist.log[i].HostTxn? && n.hist.log[i].host == a ==>
         WasSent(up, n.hist.log[i])
  }

  /** Two hosts that look the same from their own side send the same. */
  lemma SameSends(h: Host, n: Host, act: Action, schema: Schema) returns (sent: seq<Request>)
    requires IsClient(act) && SameSide(h, n) && HostStep(h, act, schema).Some? && HostStep(n, act, schema).Some?
    ensures HostStep(h, act, schema).value.up == h.up + sent && HostStep(n, act, schema).value.up == n.up + sent
  {
    hide WriteStream.EncodeWrites, WriteStream.Sendable, WriteStream.CellSet, Schema.Accepts;
    sent := HostStep(h, act, schema).value.up[|h.up|..];
  }

  lemma MoreSent(up: seq<Request>, sent: seq<Request>, t: Txn)
    requires WasSent(up, t)
    ensures WasSent(up + sent, t)
  {
    hide Carried;
    var k :| 0 <= k < |up| && Carried(up[k], t);
    assert (up + sent)[k] == up[k];
  }

  /** A step of the host itself. */
  lemma OwnTraced(up: seq<Request>, m: State, act: Action, sent: seq<Request>)
    requires IsClient(act) && act.a in m.hosts && Step(m, act).Next? && Traced(up, m, act.a)
    requires HostStep(m.hosts[act.a], act, m.schema).Some?
    requires HostStep(m.hosts[act.a], act, m.schema).value.up == m.hosts[act.a].up + sent
    ensures act.a in Step(m, act).state.hosts && Traced(up + sent, Step(m, act).state, act.a)
  {
    hide HostStep, WasSent, Pending;
    var n, a := Step(m, act).state, act.a;
    assert Pipeline(n, a) == Pipeline(m, a) + sent;
    assert n.hist.log == m.hist.log;
    forall i | 0 <= i < |n.hist.log| && n.hist.log[i].HostTxn? && n.hist.log[i].host == a
      ensures WasSent(up + sent, n.hist.log[i])
    {
      MoreSent(up, sent, n.hist.log[i]);
    }
  }

  /** A step that leaves the host's requests where they are and logs none of its transactions. */
  lemma QuietTraced(up: seq<Request>, m: State, n: State, a: Addr)
    requires a in m.hosts && a in n.hosts && Traced(up, m, a) && Pipeline(n, a) == Pipeline(m, a)
    requires n.hist.log == m.hist.log
             || exists t: Txn :: n.hist.log == m.hist.log + [t] && !(t.HostTxn? && t.host == a)
    ensures Traced(up, n, a)
  {
    hide WasSent, Pending;
  }

  /** Handling a request of the host takes it off the way, and what it logs was carried by it. */
  lemma HandledTraced(up: seq<Request>, m: State, n: State, a: Addr, req: Request)
    requires a in m.hosts && a in n.hosts && Traced(up, m, a) && Pipeline(m, a) == [req] + Pipeline(n, a)
    requires n.hist.log == m.hist.log || exists t: Txn :: n.hist.log == m.hist.log + [t] && Carried(req, t)
    ensures Traced(up, n, a)
  {
    hide Carried, Pending;
    var k := |up| - |Pipeline(m, a)|;
    assert up[k..][0] == req && up[k..][1..] == up[k + 1..];
    assert up[k] == req;
    forall i | 0 <= i < |n.hist.log| && n.hist.log[i].HostTxn? && n.hist.log[i].host == a
      ensures WasSent(up, n.hist.log[i])
    {
      if i == |m.hist.log| {
        assert Carried(up[k], n.hist.log[i]);
      }
    }
  }

  /** What a handler does to the requests on the way, and to the log. */
  lemma ProcessTraced(up: seq<Request>, m: State, a: Addr)
    requires ProcessStep(m).Next? && a in m.hosts && Traced(up, m, a)
    ensures a in ProcessStep(m).state.hosts && Traced(up, ProcessStep(m).state, a)
  {
    hide ProcessStep, Traced, Carried;
    var n := ProcessStep(m).state;
    assert m.queue != [] && n.queue == m.queue[1..] by { ProcessQueue(m); }
    ProcessUps(m, a);
    ProcessLogs(m);
    QueueTail(m);
    if m.queue[0].Msg? && m.queue[0].from == a {
      HandledTraced(up, m, n, a, m.queue[0].req);
    } else {
      assert [] + Pending(n.queue, a) == Pending(n.queue, a);
      QuietTraced(up, m, n, a);
    }
  }

  lemma ProcessQueue(m: State)
    requires ProcessStep(m).Next?
    ensures m.queue != [] && ProcessStep(m).state.queue == m.queue[1..]
  {
    hide LockServer.OnLock, LockServer.OnUnlock, LockServer.OnStart, LockServer.OnAccess, LockServer.ViewOf,
      LockRecorded, Decoded, Push, Records, Changes;
  }

  lemma ProcessUps(m: State, a: Addr)
    requires ProcessStep(m).Next? && a in m.hosts
    ensures a in ProcessStep(m).state.hosts && ProcessStep(m).state.hosts[a].up == m.hosts[a].up
  {
    ProcessExtends(m);
    hide ProcessStep;
  }

  /** The head of the queue carries what its handling logs. */
  lemma ProcessLogs(m: State)
    requires ProcessStep(m).Next?
    ensures m.queue != []
    ensures var n := ProcessStep(m).state;
            || n.hist.log == m.hist.log
            || exists t: Txn :: n.hist.log == m.hist.log + [t] && m.queue[0].Msg?
                               && t.HostTxn? && t.host == m.queue[0].from && Carried(m.queue[0].req, t)
  {
    hide LockServer.OnLock, LockServer.OnUnlock, LockServer.OnStart, LockServer.OnAccess, LockServer.ViewOf,
      LockRecorded, Decoded, Push, Records, Changes;
  }

  /** Steps of the main thread, and steps of and for other hosts. */
  lemma OthersTraced(up: seq<Request>, m: State, act: Action, a: Addr)
    requires a in m.hosts && Step(m, act).Next? && !(IsClient(act) && act.a == a) && Traced(up, m, a)
    ensures a in Step(m, act).state.hosts && Traced(up, Step(m, act).state, a)
  {
    hide ProcessStep, HostStep, Traced;
    var n := Step(m, act).state;
    match act
    case Process => ProcessTraced(up, m, a);
    case Deliver(b) =>
      PendingAppend(m.queue, Msg(b, m.hosts[b].up[0]), a);
      DeliverPipeline(m, b, a);
      QuietTraced(up, m, n, a);
    case _ =>
      PendingAppend(m.queue, StartToken, a);
      assert n.hosts[a] == m.hosts[a];
      assert Pending(m.queue, a) + [] == Pending(m.queue, a);
      QuietTraced(up, m, n, a);
  }

  lemma DeliverPipeline(m: State, b: Addr, a: Addr)
    requires a in m.hosts && DeliverStep(m, b).Next?
    ensures a in DeliverStep(m, b).state.hosts && Pipeline(DeliverStep(m, b).state, a) == Pipeline(m, a)
  {
    PendingAppend(m.queue, Msg(b, m.hosts[b].up[0]), a);
    if a == b {
      assert m.hosts[a].up == [m.hosts[a].up[0]] + m.hosts[a].up[1..];
    } else {
      assert Pending(m.queue, a) + [] == Pending(m.queue, a);
    }
  }

  /** One step of a run: the script goes on, and every transaction logged so far was sent by it. */
  lemma StepTraced(start: Host, script: seq<Turn>, m: State, act: Action, a: Addr)
    requires a in m.hosts && Step(m, act).Next? && a in Step(m, act).state.hosts
    requires Play(start, script, m.schema).Some? && SameSide(Play(start, script, m.schema).value, m.hosts[a])
    requires Traced(Play(start, script, m.schema).value.up, m, a)
    ensures var n := Step(m, act).state;
            var h := Play(start, script + Part(m, act, n, a), m.schema);
            h.Some? && Traced(h.value.up, n, a)
  {
    hide Step, HostStep, Play, Traced;
    var n := Step(m, act).state;
    var h := Play(start, script, m.schema).value;
    if IsClient(act) && act.a == a {
      OwnStep(m, act);
      SameSteps(h, m.hosts[a], act, m.schema);
      PlayMore(start, script, Act(act), m.schema);
      var sent := SameSends(h, m.hosts[a], act, m.schema);
      OwnTraced(h.up, m, act, sent);
    } else {
      OthersExtend(m, act, a);
      OthersTraced(h.up, m, act, a);
      PlayJoin(start, script, Arrivals(h.down, n.hosts[a].down), m.schema);
      ArrivalsPlay(h, n.hosts[a].down, m.schema);
    }
  }

  /** In every run all transactions a host has in the log were sent by its own script. */
  lemma {:induction false} LoggedWasSent(s: State, acts: seq<Action>, a: Addr)
    requires Init(s) && a in s.hosts && Run(s, acts).Next?
    ensures Everywhere(s, acts, a) && Run(s, acts).state.schema == s.schema
    ensures var h := Play(s.hosts[a], Script(s, acts, a), s.schema);
            h.Some? && SameSide(h.value, Run(s, acts).state.hosts[a]) && Traced(h.value.up, Run(s, acts).state, a)
  {
    hide Step, PlayTurn, SameSide, HostStep, Extends, Traced;
    HostPlaysItsScript(s, acts, a);
    if acts == [] {
      NothingTraced(s, a);
    } else {
      var before := acts[..|acts| - 1];
      LoggedWasSent(s, before, a);
      HostPlaysItsScript(s, before, a);
      StepTraced(s.hosts[a], Script(s, before, a), Run(s, before).state, acts[|acts| - 1], a);
    }
  }

  lemma NothingTraced(s: State, a: Addr)
    requires Init(s) && a in s.hosts
    ensures Traced(s.hosts[a].up, s, a)
  {
    assert Pipeline(s, a) == [];
  }

  /** The request carried the transaction, and without an early part its reads came from the given store. */
  predicate SentFrom(r: Request, t: Txn, before: Option<Store>) {
    && Carried(r, t)
    && (t.HostTxn? && t.early == 0 ==> r.session.values == Access.DirectReads(Contents(before), r.session.ops))
  }

  /**
   A client that runs its script in some run of the protocol: each of its transactions in the log is one of the
   cycles it sent, and if its upgrade did not have to wait, the values that the cycle's reads returned are those of
   direct access to the store at its place in the serial order.
   */
  lemma ScriptedCyclesAreAtomic(init: State, acts: seq<Action>, s: State, a: Addr, script: seq<Turn>, i: nat)
    requires Reaches(init, acts, s) && a in init.hosts && Everywhere(init, acts, a) && Script(init, acts, a) == script
    requires i < |s.hist.log| && s.hist.log[i].HostTxn? && s.hist.log[i].host == a
    ensures var h, t := Play(init.hosts[a], script, init.schema), s.hist.log[i];
            var before := Replay(init.program, s.hist.log[..i]);
            h.Some? && exists k :: 0 <= k < |h.value.up| && SentFrom(h.value.up[k], t, before)
  {
    hide Init, Run, Replay, Script, Play, SameSide, Carried, Contents;
    LoggedWasSent(init, acts, a);
    var up, t := Play(init.hosts[a], script, init.schema).value.up, s.hist.log[i];
    assert WasSent(up, t);
    var k :| 0 <= k < |up| && Carried(up[k], t);
    CarriedSession(up[k], t);
    assert t.HostTxn?;
    if t.early == 0 {
      TransactionIsAtomic(init, acts, s, i);
    }
  }

  lemma CarriedSession(r: Request, t: Txn)
    requires Carried(r, t)
    ensures (r.WriteReq? || r.UnlockReq?) && r.session == t.session
  {
  }
}
