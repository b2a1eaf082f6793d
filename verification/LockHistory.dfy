/**
 What the history of a run records: for every transaction in the log the session behind it, and what it was given.
 */
module LockHistory {
  import opened Prelude
  import opened LockTable
  import opened LockServer
  import opened LockProtocol
  import opened LockInvariant
  import opened LockSessions
  import Access

  // ---- Sessions ----

  ghost predicate ReqOk(r: Request, cells: set<Cell>) {
    r.WriteReq? || r.UnlockReq? ==> Record(r.session, r.observed, r.own, cells)
  }

  ghost predicate TxnOk(t: Txn, cells: set<Cell>) {
    match t
    case MainTxn(p) => p.Some? ==> p.value.Keys == cells
    case HostTxn(_, _, observed, early, _, writes, session) =>
      && Record(session, observed, writes, cells) && writes.Keys <= cells
      && (early == 0 || early == session.fetched)
  }

  ghost predicate HostRecorded(s: State, a: Addr)
    requires a in s.hosts
  {
    && Remembers(s.hosts[a], s.schema.cells)
    && forall i :: 0 <= i < |Pipeline(s, a)| ==> ReqOk(Pipeline(s, a)[i], s.schema.cells)
  }

  ghost predicate Recorded(s: State) {
    && (s.hist.initial.Some? ==> s.hist.initial.value.Keys == s.schema.cells)
    && (forall i :: 0 <= i < |s.hist.log| ==> TxnOk(s.hist.log[i], s.schema.cells))
    && (forall a :: a in s.hosts ==> HostRecorded(s, a))
  }

  /** The part of a host that only its own steps change. */
  predicate SameClient(h: Host, n: Host) {
    n.phase == h.phase && n.got == h.got && n.copies == h.copies && n.own == h.own && n.session == h.session
      && n.up == h.up
  }

  lemma SameRemembers(h: Host, n: Host, cells: set<Cell>)
    requires Remembers(h, cells) && SameClient(h, n)
    ensures Remembers(n, cells)
  {
  }

  lemma ClientRecorded(s: State, act: Action)
    requires IsClient(act) && Recorded(s) && ClientStep(s, act).Next?
    ensures Recorded(ClientStep(s, act).state)
  {
    hide Remembers, Record;
    var a := act.a;
    var h := s.hosts[a];
    var n := ClientStep(s, act).state;
    assert HostRecorded(s, a);
    ClientRemembers(h, act, s.schema);
    SentIsRecorded(h, act, s.schema);
    forall b | b in n.hosts ensures HostRecorded(n, b) {
      if b != a {
        assert HostRecorded(s, b);
        assert Pipeline(n, b) == Pipeline(s, b);
      } else {
        var m := n.hosts[a];
        if m.up == h.up {
          assert Pipeline(n, a) == Pipeline(s, a);
        } else {
          assert m.up == h.up + [m.up[|h.up|]];
          assert Pipeline(n, a) == Pipeline(s, a) + [m.up[|h.up|]];
        }
      }
    }
  }

  /** What a client sends it sends from a session it remembers. */
  lemma SentIsRecorded(h: Host, act: Action, schema: Schema)
    requires IsClient(act) && Remembers(h, schema.cells) && HostStep(h, act, schema).Some?
    ensures var n := HostStep(h, act, schema).value;
            n.up == h.up || (|n.up| == |h.up| + 1 && n.up[..|h.up|] == h.up && ReqOk(n.up[|h.up|], schema.cells))
  {
  }

  lemma DeliverRecorded(s: State, a: Addr)
    requires Recorded(s) && DeliverStep(s, a).Next?
    ensures Recorded(DeliverStep(s, a).state)
  {
    hide Remembers, ReqOk;
    var n := DeliverStep(s, a).state;
    var h := s.hosts[a];
    forall b | b in n.hosts ensures HostRecorded(n, b) {
      PendingAppend(s.queue, Msg(a, h.up[0]), b);
      assert HostRecorded(s, b);
      assert Pipeline(n, b) == Pipeline(s, b);
      if b == a {
        assert Remembers(n.hosts[a], s.schema.cells) by { DeliveredRemembers(h, s.schema.cells); }
      }
    }
  }

  lemma DeliveredRemembers(h: Host, cells: set<Cell>)
    requires Remembers(h, cells) && h.up != []
    ensures Remembers(h.(up := h.up[1..]), cells)
  {
  }

  lemma MainRecorded(s: State, act: Action)
    requires act.RunLoad? || act.RunConfig? || act.EnterWait? || act.SkipWait? || act.Wake? || act.Simulate?
    requires Recorded(s) && MainStep(s, act).Next?
    ensures Recorded(MainStep(s, act).state)
  {
    hide Remembers, Record, ReqOk;
    var n := MainStep(s, act).state;
    forall b | b in n.hosts ensures HostRecorded(n, b) {
      assert HostRecorded(s, b);
      PendingAppend(s.queue, StartToken, b);
      assert Pipeline(n, b) == Pipeline(s, b);
    }
  }

  lemma SameUp(h: Host, n: Host)
    requires SameClient(h, n)
    ensures n.up == h.up
  {
  }

  /** A server step leaves every client as it is, takes one request and logs at most one transaction. */
  lemma ServerRecorded(s: State, n: State)
    requires Recorded(s) && s.queue != [] && n.queue == s.queue[1..]
    requires n.schema == s.schema && n.hosts.Keys == s.hosts.Keys && n.hist.initial == s.hist.initial
    requires forall b :: b in s.hosts ==> SameClient(s.hosts[b], n.hosts[b])
    requires n.hist.log == s.hist.log || (exists t :: TxnOk(t, s.schema.cells) && n.hist.log == s.hist.log + [t])
    ensures Recorded(n)
  {
    hide Remembers, ReqOk, TxnOk, Pending, Tokens, SameClient;
    QueueTail(s);
    forall b | b in n.hosts ensures HostRecorded(n, b) {
      assert HostRecorded(s, b);
      SameRemembers(s.hosts[b], n.hosts[b], s.schema.cells);
      SameUp(s.hosts[b], n.hosts[b]);
      var first := if s.queue[0].Msg? && s.queue[0].from == b then [s.queue[0].req] else [];
      assert Pipeline(s, b) == first + Pipeline(n, b);
      assert forall i :: 0 <= i < |Pipeline(n, b)| ==> Pipeline(n, b)[i] == Pipeline(s, b)[|first| + i];
    }
  }

  /** Sending grants changes no client. */
  lemma SettleSame(s: State, r: Handled)
    requires r.Done? && NoDuplicates(r.grants)
    ensures Settle(s, r).hosts.Keys == s.hosts.Keys
    ensures forall b :: b in s.hosts ==> SameClient(s.hosts[b], Settle(s, r).hosts[b])
    ensures forall b :: b in s.hosts ==>
              Settle(s, r).hosts[b] == if b in r.grants
                then s.hosts[b].(down := s.hosts[b].down + [Grant(Now(s))], sent := s.hosts[b].sent + 1)
                                       else s.hosts[b]
  {
    PushIs(s.hosts, r.grants, Grant(Now(s)));
  }

  lemma ProcessRecorded(s: State)
    requires Core(s) && Recorded(s) && ProcessStep(s).Next?
    ensures Recorded(ProcessStep(s).state)
  {
    hide Core, Recorded, ProcessStep;
    assert s.queue != [] by { ProcessHasEvent(s); }
    match s.queue[0]
    case StartToken => StartRecorded(s);
    case Msg(a, LockReq(w, c)) => LockRecords(s, a, w, c);
    case Msg(a, UnlockReq(_, _, _, _)) => UnlockRecorded(s, a, s.queue[0].req);
    case Msg(a, req) => AccessRecorded(s, a, req);
  }

  lemma ProcessHasEvent(s: State)
    requires ProcessStep(s).Next?
    ensures s.queue != []
  {
  }

  lemma StartRecorded(s: State)
    requires Core(s) && Recorded(s) && s.queue != [] && s.queue[0].StartToken? && ProcessStep(s).Next?
    ensures Recorded(ProcessStep(s).state)
  {
    hide OnStart, Push, Recorded, Records, Changes, WellFormed, Serialised, HostsGood, Topology;
    QueueTail(s);
    assert WellFormed(s.server, false) && s.server.current.Some?;
    StartGrants(s.server);
    SettleSame(s.(queue := s.queue[1..]), OnStart(s.server));
    ServerRecorded(s, ProcessStep(s).state);
  }

  lemma LockedSame(h: Host, v: View, granted: bool, point: nat)
    ensures SameClient(h, LockRecorded(h, v, granted, point))
  {
  }

  lemma SettleKeeps(s: State, r: Handled)
    requires r.Done?
    ensures var n := Settle(s, r);
            n.queue == s.queue && n.schema == s.schema && n.hist.log == s.hist.log && n.hist.initial == s.hist.initial
  {
  }

  lemma LockRecords(s: State, a: Addr, write: bool, cycle: nat)
    requires Core(s) && Recorded(s) && s.queue != [] && s.queue[0] == Msg(a, LockReq(write, cycle))
             && ProcessStep(s).Next?
    ensures Recorded(ProcessStep(s).state)
  {
    hide Core, OnLock, Push, Recorded, Records, Changes, ViewOf, LockRecorded, Settle;
    LockFacts(s, a, write, cycle);
    var r := OnLock(s.server, a, cycle, write);
    var h := LockRecorded(s.hosts[a], ViewOf(s.server, a.host), a in r.grants, |s.hist.log|);
    LockedSame(s.hosts[a], ViewOf(s.server, a.host), a in r.grants, |s.hist.log|);
    SettleKeeps(WithHost(s.(queue := s.queue[1..]), a, h), r);
    SettleSame(WithHost(s.(queue := s.queue[1..]), a, h), r);
    ServerRecorded(s, ProcessStep(s).state);
  }

  lemma UnlockRecorded(s: State, a: Addr, req: Request)
    requires Core(s) && Recorded(s) && s.queue != [] && s.queue[0] == Msg(a, req) && req.UnlockReq?
             && ProcessStep(s).Next?
    ensures Recorded(ProcessStep(s).state)
  {
    hide Core, OnUnlock, Push, Recorded, Records, Changes, ViewOf, Record, Unlocked;
    UnlockFacts(s, a, req);
    UnlockedGrants(s.server, a, req.cycle, OnUnlock(s.server, a, req.cycle));
    HeadRecorded(s, a, req);
    UnlockHead(s, a, req);
    var r := OnUnlock(s.server, a, req.cycle);
    var h := Finish(s.hosts[a], req.cycle);
    SettleSame(WithHost(s.(queue := s.queue[1..]), a, h), r);
    var t := HostTxn(a, req.cycle, req.observed, 0, 0, map[], req.session);
    assert ViewOf(s.server, a.host).Granted? && !ViewOf(s.server, a.host).write ==> TxnOk(t, s.schema.cells);
    ServerRecorded(s, ProcessStep(s).state);
  }

  lemma UnlockedGrants(sv: Server, a: Addr, cycle: nat, r: Handled)
    requires Unlocked(sv, a, cycle, r)
    ensures r.Done? && NoDuplicates(r.grants) && a !in r.grants
  {
  }

  /** The record of the request at the head of the queue. */
  lemma HeadRecorded(s: State, a: Addr, req: Request)
    requires Recorded(s) && s.queue != [] && s.queue[0] == Msg(a, req) && a in s.hosts
    ensures ReqOk(req, s.schema.cells)
  {
    hide ReqOk, TxnOk;
    QueueTail(s);
    assert HostRecorded(s, a);
    assert Pipeline(s, a)[0] == req;
  }

  lemma UnlockHead(s: State, a: Addr, req: Request)
    requires Core(s) && s.queue != [] && s.queue[0] == Msg(a, req) && req.UnlockReq? && a in s.hosts
    ensures ViewOf(s.server, a.host).Granted? && !ViewOf(s.server, a.host).write ==>
              s.hosts[a].early == [] && req.own == map[] && req.observed == s.hosts[a].seen
  {
    hide HostOk, ViewOf, WellFormed, Within, Serialised;
    QueueTail(s);
    assert HostGood(s, a);
    var p := Pending(s.queue[1..], a) + s.hosts[a].up;
    assert Pipeline(s, a) == [req] + p;
    HeadIsUnlock(s.hosts[a], p, ViewOf(s.server, a.host), req, Out(None), s.program, s.schema);
  }

  lemma WriteHead(s: State, a: Addr, req: Request)
    requires Core(s) && s.queue != [] && s.queue[0] == Msg(a, req) && req.WriteReq? && a in s.hosts
    ensures var h := s.hosts[a];
            && req.own.Keys <= s.schema.cells && req.observed == h.early + h.seen
            && (h.early == [] || |h.early| == req.session.fetched) && !h.logged
            && Fresh(h.seen, s.program)
    ensures ViewOf(s.server, a.host) == Granted(true, req.cycle)
  {
    hide HostOk, ViewOf, WellFormed, Within, Serialised;
    QueueTail(s);
    assert HostGood(s, a);
    var p := Pending(s.queue[1..], a) + s.hosts[a].up;
    assert Pipeline(s, a) == [req] + p;
    HeadIsWrite(s.hosts[a], p, ViewOf(s.server, a.host), req, s.program, s.schema);
  }

  lemma AccessRecorded(s: State, a: Addr, req: Request)
    requires Core(s) && Recorded(s) && s.queue != [] && s.queue[0] == Msg(a, req) && (req.ReadReq? || req.WriteReq?)
    requires ProcessStep(s).Next?
    ensures Recorded(ProcessStep(s).state)
  {
    hide Core, OnAccess, Recorded, Record, ViewOf, Decoded;
    AccessFacts(s, a, req);
    if req.WriteReq? {
      HeadRecorded(s, a, req);
      WriteHead(s, a, req);
      var h := s.hosts[a];
      assert TxnOk(HostTxn(a, req.cycle, req.observed, |h.early|, h.point, req.own, req.session), s.schema.cells);
    }
    ServerRecorded(s, ProcessStep(s).state);
  }

  lemma DifferentHosts(s: State, a: Addr, b: Addr)
    requires Core(s) && a in s.hosts && b in s.hosts && a != b
    ensures a.host != b.host
  {
  }

  lemma StepRecorded(s: State, act: Action)
    requires Core(s) && Recorded(s) && Step(s, act).Next?
    ensures Recorded(Step(s, act).state)
  {
    hide Core, Recorded;
    if IsClient(act) {
      ClientRecorded(s, act);
    } else {
      match act
      case Deliver(a) => DeliverRecorded(s, a);
      case Process => ProcessRecorded(s);
      case _ => MainRecorded(s, act);
    }
  }
}
