/**
 The inductive invariant of the simulation-lock protocol. It ties together each client's phase, the
 messages it has in flight, its entries in the current and the future lock, the start token and the
 main thread's phase.
 */
module LockInvariant {
  import opened Prelude
  import opened LockTable
  import opened LockServer
  import opened LockProtocol
  import opened WriteStream
  import opened Access

  // ---- Messages in flight ----

  /** The requests of a host that wait in the message queue. */
  function Pending(q: seq<Event>, a: Addr): seq<Request> {
    if q == [] then []
    else (if q[0].Msg? && q[0].from == a then [q[0].req] else []) + Pending(q[1..], a)
  }

  function Tokens(q: seq<Event>): nat {
    if q == [] then 0 else (if q[0].StartToken? then 1 else 0) + Tokens(q[1..])
  }

  /** Everything a host has sent and the server has not handled, oldest first. */
  function Pipeline(s: State, a: Addr): seq<Request>
    requires a in s.hosts
  {
    Pending(s.queue, a) + s.hosts[a].up
  }

  lemma {:induction false} PendingAppend(q: seq<Event>, e: Event, a: Addr)
    ensures Pending(q + [e], a) == Pending(q, a) + (if e.Msg? && e.from == a then [e.req] else [])
  {
    if q == [] {
      assert q + [e] == [e];
    } else {
      assert (q + [e])[1..] == q[1..] + [e];
      PendingAppend(q[1..], e, a);
    }
  }

  lemma {:induction false} TokensAppend(q: seq<Event>, e: Event)
    ensures Tokens(q + [e]) == Tokens(q) + (if e.StartToken? then 1 else 0)
  {
    if q == [] {
      assert q + [e] == [e];
    } else {
      assert (q + [e])[1..] == q[1..] + [e];
      TokensAppend(q[1..], e);
    }
  }

  lemma {:induction false} PushIs(hosts: map<Addr, Host>, grants: seq<Addr>, r: Response)
    requires NoDuplicates(grants)
    ensures var n := Push(hosts, grants, r);
            && n.Keys == hosts.Keys
            && forall b :: b in hosts ==>
                 n[b] == if b in grants then hosts[b].(down := hosts[b].down + [r], sent := hosts[b].sent + 1)
                   else hosts[b]
  {
    if grants != [] {
      var g := grants[0];
      var m := if g in hosts then hosts[g := hosts[g].(down := hosts[g].down + [r], sent := hosts[g].sent + 1)]
        else hosts;
      PushIs(m, grants[1..], r);
      assert g !in grants[1..];
      assert forall b :: b in grants <==> b == g || b in grants[1..];
    }
  }

  // ---- One host ----

  /** The tail of a transaction: nothing left, the unlock, or the write and the unlock. */
  ghost predicate Ending(h: Host, p: seq<Request>, v: View, cycle: nat, schema: Schema) {
    match |p|
    case 0 => v.Out? && (v.seen.Some? ==> v.seen.value == cycle) && !h.logged
    case 1 => EndingUnlock(h, p[0], v, cycle) && h.logged == v.write
    case 2 => EndingWrite(h, p[0], v, cycle, schema) && p[1].UnlockReq? && p[1].cycle == cycle && !h.logged
    case _ => false
  }

  predicate EndingUnlock(h: Host, r: Request, v: View, cycle: nat) {
    && r.UnlockReq? && r.cycle == cycle && v.Granted? && v.cycle == cycle
    && (!v.write ==> h.early == [] && r.observed == h.seen && r.own == map[])
  }

  ghost predicate EndingWrite(h: Host, r: Request, v: View, cycle: nat, schema: Schema) {
    && r.WriteReq? && r.cycle == cycle && v == Granted(true, cycle)
    && r.own.Keys <= schema.cells && Carries(r.stream, r.own, schema.kinds)
    && r.observed == h.early + h.seen && (h.early == [] || |h.early| == r.session.fetched)
  }

  predicate IsGrant(d: seq<Response>) {
    |d| == 1 && d[0].Grant?
  }

  predicate Awaiting(h: Host) {
    h.phase.AwaitLock? || h.phase.AwaitUpgrade?
  }

  /** Every lock request is matched by one grant, once it has been handled and received. */
  predicate Conserved(h: Host) {
    && h.asked == h.received + (if Awaiting(h) then 1 else 0)
    && h.asked == h.sent + (if Awaiting(h) && h.down == [] then 1 else 0)
  }

  /** In the middle of a transaction: nothing logged, nothing written under a read lock, and what was given
      early was all fetched before the upgrade. */
  predicate Midway(h: Host, write: bool) {
    && !h.logged && (!write ==> h.own == map[]) && h.session.fetched <= |h.got|
    && (h.early == [] || |h.early| == h.session.fetched)
  }

  /** The client phase, the messages in flight and the server's view of the host agree. */
  ghost predicate Coupled(h: Host, p: seq<Request>, v: View, schema: Schema) {
    match h.phase
    case Idle => h.down == [] && Ending(h, p, v, h.cycle, schema)
    case AwaitLock(w) =>
      && h.cycle != h.prev && h.got == [] && h.session.fetched == 0 && h.own == map[]
      && (if p == [] then
            && h.early == [] && h.seen == [] && !h.logged
            && ((h.down == [] && v == Queued(w, h.cycle)) || (IsGrant(h.down) && v == Granted(w, h.cycle)))
          else
            && h.down == [] && p[|p| - 1] == LockReq(w, h.cycle)
            && Ending(h, p[..|p| - 1], v, h.prev, schema))
    case Holding(w) => Midway(h, w) && p == [] && h.down == [] && v == Granted(w, h.cycle) && h.got == h.early + h.seen
    case AwaitValue(w, cell) =>
      && Midway(h, w) && v == Granted(w, h.cycle) && cell in schema.cells
      && (|| (p == [ReadReq(cell, h.cycle)] && h.down == [] && h.got == h.early + h.seen)
          || (p == [] && h.down == [Refused])
          || (p == [] && |h.down| == 1 && h.down[0].Answer? && h.down[0].cell == cell
              && h.got + [Seen(cell, h.down[0].value)] == h.early + h.seen))
    case Stuck(w) => Midway(h, w) && p == [] && h.down == [] && v == Granted(w, h.cycle)
    case AwaitUpgrade =>
      && Midway(h, false) && h.got == h.early + h.seen && h.session.fetched == |h.got|
      && (|| (p == [LockReq(true, h.cycle)] && h.down == [] && v == Granted(false, h.cycle))
          || (p == [] && h.down == [] && v == Queued(true, h.cycle))
          || (p == [] && IsGrant(h.down) && v == Granted(true, h.cycle)))
    case Committed =>
      && h.down == [] && v == Granted(true, h.cycle) && (h.logged <==> p == [])
      && (p == [] || (|p| == 1 && EndingWrite(h, p[0], v, h.cycle, schema)))
  }

  ghost predicate HostOk(h: Host, p: seq<Request>, v: View, program: Option<Store>, schema: Schema) {
    && Coupled(h, p, v, schema)
    && Conserved(h)
    && Fresh(h.seen, program)
    && (h.seen != [] ==> v.Granted?)
    && (v.Granted? && !v.write ==> h.early == [])
    && (h.phase.Stuck? || Refused in h.down ==> program.None?)
    && (forall c :: c in h.own ==> schema.Accepts(c, h.own[c]))
  }

  // ---- The whole state ----

  /** The round has been started and not yet released. */
  predicate Started(s: State) {
    s.main == Waiting && !s.released && Tokens(s.queue) == 0
  }

  ghost predicate Topology(s: State) {
    && UniqueHosts(s.hosts)
    && (forall i :: 0 <= i < |s.queue| && s.queue[i].Msg? ==> s.queue[i].from in s.hosts)
    && AllWithin(s.server, s.hosts.Keys)
  }

  /** A start token is in the queue only while the main thread waits for an unstarted round. */
  ghost predicate HandShake(s: State) {
    && Tokens(s.queue) <= 1
    && (Tokens(s.queue) == 1 ==> s.main == Waiting && !s.released && s.server.current.Some?)
    && WellFormed(s.server, Started(s))
  }

  ghost predicate HostGood(s: State, a: Addr)
    requires a in s.hosts
  {
    HostOk(s.hosts[a], Pipeline(s, a), ViewOf(s.server, a.host), s.program, s.schema)
  }

  ghost predicate HostsGood(s: State) {
    forall a :: a in s.hosts ==> HostGood(s, a)
  }

  predicate Serialised(s: State) {
    && s.schema.Ok() && (s.program.Some? ==> s.program.value.Keys == s.schema.cells)
    && s.program == Replay(s.hist.initial, s.hist.log)
    && Serial(s.hist.initial, s.hist.log)
  }

  ghost predicate Core(s: State) {
    Topology(s) && HandShake(s) && HostsGood(s) && Serialised(s)
  }

  /** A host whose own state, messages and view did not change is as good as before. */
  lemma Frame(s: State, n: State, a: Addr)
    requires a in s.hosts && a in n.hosts && HostGood(s, a)
    requires n.hosts[a] == s.hosts[a] && Pending(n.queue, a) == Pending(s.queue, a)
    requires ViewOf(n.server, a.host) == ViewOf(s.server, a.host)
    requires n.schema == s.schema && (n.program == s.program || !ViewOf(s.server, a.host).Granted?)
    ensures HostGood(n, a)
  {
    var p := Pipeline(s, a);
    assert Pipeline(n, a) == p;
    if n.program != s.program {
      AnyProgram(s.hosts[a], p, ViewOf(s.server, a.host), s.program, n.program, s.schema);
    }
  }

  /** A host that holds nothing does not care which program is loaded. */
  lemma AnyProgram(h: Host, p: seq<Request>, v: View, program: Option<Store>, other: Option<Store>, schema: Schema)
    requires HostOk(h, p, v, program, schema) && !v.Granted?
    ensures HostOk(h, p, v, other, schema)
  {
  }

  // ---- Client steps ----

  lemma BeginKeeps(h: Host, p: seq<Request>, v: View, act: Action, program: Option<Store>, schema: Schema)
    requires act.BeginLock? && HostOk(h, p, v, program, schema) && HostStep(h, act, schema).Some?
    ensures HostOk(HostStep(h, act, schema).value, p + [LockReq(act.write, act.cycle)], v, program, schema)
  {
    var q := p + [LockReq(act.write, act.cycle)];
    assert q[..|q| - 1] == p;
  }

  lemma GrantKeeps(h: Host, p: seq<Request>, v: View, act: Action, program: Option<Store>, schema: Schema)
    requires act.ReceiveGrant?
    requires HostOk(h, p, v, program, schema) && HostStep(h, act, schema).Some?
    ensures HostOk(HostStep(h, act, schema).value, p, v, program, schema)
  {
  }

  lemma ValueKeeps(h: Host, p: seq<Request>, v: View, act: Action, program: Option<Store>, schema: Schema)
    requires act.ReceiveValue?
    requires HostOk(h, p, v, program, schema) && HostStep(h, act, schema).Some?
    ensures HostOk(HostStep(h, act, schema).value, p, v, program, schema)
  {
  }

  lemma UseKeeps(h: Host, p: seq<Request>, v: View, act: Action, program: Option<Store>, schema: Schema)
    requires act.Use?
    requires HostOk(h, p, v, program, schema) && HostStep(h, act, schema).Some?
    ensures HostOk(HostStep(h, act, schema).value, p, v, program, schema)
  {
  }

  lemma AskKeeps(h: Host, p: seq<Request>, v: View, act: Action, program: Option<Store>, schema: Schema)
    requires schema.Ok() && (act.AskRead? || act.Upgrade? || act.CommitWrites?)
    requires HostOk(h, p, v, program, schema) && HostStep(h, act, schema).Some?
    ensures var n := HostStep(h, act, schema).value;
            n.up != [] && p == [] && HostOk(n, [n.up[|n.up| - 1]], v, program, schema)
  {
    if act.CommitWrites? {
      forall onto ensures DecodeWrites(EncodeWrites(act.order, h.own, schema.kinds), schema.kinds, onto) ==
        Some(onto + h.own) {
        RoomyStream(act.order, h.own, schema.kinds, onto);
      }
    }
  }

  lemma ReleaseKeeps(h: Host, p: seq<Request>, v: View, act: Action, program: Option<Store>, schema: Schema)
    requires act.ReleaseLock? && HostOk(h, p, v, program, schema) && HostStep(h, act, schema).Some?
    ensures HostOk(HostStep(h, act, schema).value, p + [UnlockReq(h.cycle, h.own, h.got, h.session)], v, program,
            schema)
  {
  }

  lemma ClientKeepsHost(h: Host, p: seq<Request>, act: Action, v: View, program: Option<Store>, schema: Schema)
    requires schema.Ok() && IsClient(act) && HostOk(h, p + h.up, v, program, schema) && HostStep(h, act, schema).Some?
    ensures var n := HostStep(h, act, schema).value; HostOk(n, p + n.up, v, program, schema)
  {
    hide HostOk;
    var n := HostStep(h, act, schema).value;
    if act.ReceiveGrant? {
      GrantKeeps(h, p + h.up, v, act, program, schema);
    } else if act.ReceiveValue? {
      ValueKeeps(h, p + h.up, v, act, program, schema);
    } else if act.Use? {
      UseKeeps(h, p + h.up, v, act, program, schema);
    } else {
      var r := n.up[|n.up| - 1];
      assert p + n.up == (p + h.up) + [r];
      if act.BeginLock? {
        BeginKeeps(h, p + h.up, v, act, program, schema);
      } else if act.ReleaseLock? {
        ReleaseKeeps(h, p + h.up, v, act, program, schema);
      } else {
        AskKeeps(h, p + h.up, v, act, program, schema);
        assert p + n.up == [r];
      }
    }
  }

  lemma ClientKeeps(s: State, act: Action)
    requires IsClient(act) && Core(s) && ClientStep(s, act).Next?
    ensures Core(ClientStep(s, act).state)
  {
    var a := act.a;
    var h := HostStep(s.hosts[a], act, s.schema).value;
    assert HostGood(s, a);
    ClientKeepsHost(s.hosts[a], Pending(s.queue, a), act, ViewOf(s.server, a.host), s.program, s.schema);
    OneHostKeeps(s, a, h);
  }

  lemma OneHostKeeps(s: State, a: Addr, h: Host)
    requires Core(s) && a in s.hosts
    requires HostOk(h, Pending(s.queue, a) + h.up, ViewOf(s.server, a.host), s.program, s.schema)
    ensures Core(WithHost(s, a, h))
  {
    var n := WithHost(s, a, h);
    assert n.hosts.Keys == s.hosts.Keys;
    assert HandShake(n) by { assert Started(n) == Started(s); }
    forall b | b in n.hosts ensures HostGood(n, b) {
      if b != a {
        assert HostGood(s, b);
        Frame(s, n, b);
      }
    }
  }

  lemma DeliverKeeps(s: State, a: Addr)
    requires Core(s) && DeliverStep(s, a).Next?
    ensures Core(DeliverStep(s, a).state)
  {
    hide HostOk, ViewOf, Serial, Replay, WellFormed, Within;
    var n := DeliverStep(s, a).state;
    var e := Msg(a, s.hosts[a].up[0]);
    TokensAppend(s.queue, e);
    assert n.hosts.Keys == s.hosts.Keys;
    forall b | b in n.hosts ensures HostGood(n, b) {
      PendingAppend(s.queue, e, b);
      assert HostGood(s, b);
      if b != a {
        Frame(s, n, b);
      } else {
        ChannelFrame(s, n, a);
      }
    }
  }

  /** Moving a message from the channel to the queue changes nothing but its place. */
  lemma ChannelFrame(s: State, n: State, a: Addr)
    requires a in s.hosts && a in n.hosts && HostGood(s, a) && s.hosts[a].up != []
    requires n.hosts[a] == s.hosts[a].(up := s.hosts[a].up[1..])
    requires Pending(n.queue, a) == Pending(s.queue, a) + [s.hosts[a].up[0]]
    requires n.server == s.server && n.schema == s.schema && n.program == s.program
    ensures HostGood(n, a)
  {
    var p := Pipeline(s, a);
    assert Pipeline(n, a) == p;
    SameHost(s.hosts[a], n.hosts[a], p, ViewOf(s.server, a.host), s.program, s.schema);
  }

  lemma SameHost(h: Host, n: Host, p: seq<Request>, v: View, program: Option<Store>, schema: Schema)
    requires HostOk(h, p, v, program, schema) && n == h.(up := n.up)
    ensures HostOk(n, p, v, program, schema)
  {
  }

  // ---- Main-thread steps ----

  lemma NobodyHoldsUnstarted(s: State, a: Addr)
    requires Core(s) && !Started(s) && a in s.hosts
    ensures !ViewOf(s.server, a.host).Granted?
    ensures s.hosts[a].seen == []
  {
    assert HostGood(s, a);
  }

  lemma {:induction false} ReplayAppend(initial: Option<Store>, log: seq<Txn>, t: Txn)
    requires Serial(initial, log) && Consistent(t, Replay(initial, log))
    ensures Replay(initial, log + [t]) == ApplyTxn(Replay(initial, log), t)
    ensures Serial(initial, log + [t])
  {
    var l := log + [t];
    assert l[..|log|] == log;
    forall i | 0 <= i < |l| ensures Consistent(l[i], Replay(initial, l[..i])) {
      assert i < |log| ==> l[..i] == log[..i];
    }
  }

  lemma MainKeeps(s: State, act: Action)
    requires act.RunLoad? || act.RunConfig? || act.EnterWait? || act.SkipWait? || act.Wake? || act.Simulate?
    requires Core(s) && MainStep(s, act).Next?
    ensures Core(MainStep(s, act).state)
  {
    hide HostOk, ViewOf, Serial, Replay;
    var n := MainStep(s, act).state;
    TokensAppend(s.queue, StartToken);
    assert HandShake(n);
    if n.hist.log != s.hist.log {
      ReplayAppend(s.hist.initial, s.hist.log, MainTxn(n.program));
    }
    assert Serialised(n);
    MainHosts(s, n);
  }

  lemma MainHosts(s: State, n: State)
    requires Core(s) && n.hosts == s.hosts && n.schema == s.schema && n.server == s.server
    requires n.queue == s.queue || n.queue == s.queue + [StartToken]
    requires n.program == s.program || !Started(s)
    ensures HostsGood(n)
  {
    hide HostOk, ViewOf, Serial, Replay;
    forall b | b in n.hosts ensures HostGood(n, b) {
      assert HostGood(s, b);
      PendingAppend(s.queue, StartToken, b);
      if n.program != s.program {
        NobodyHoldsUnstarted(s, b);
      }
      Frame(s, n, b);
    }
  }

  // ---- Server steps: one host ----

  lemma HeadIsLock(h: Host, p: seq<Request>, v: View, w: bool, c: nat, program: Option<Store>, schema: Schema)
    requires HostOk(h, [LockReq(w, c)] + p, v, program, schema)
    ensures p == [] && c == h.cycle && h.down == []
    ensures || (h.phase == AwaitLock(w) && v.Out? && v.seen != Some(c))
            || (h.phase == AwaitUpgrade && w && v == Granted(false, c))
  {
    var q := [LockReq(w, c)] + p;
    assert q[0] == LockReq(w, c);
  }

  lemma HeadIsUnlock(h: Host, p: seq<Request>, v: View, r: Request, w: View, program: Option<Store>, schema: Schema)
    requires r.UnlockReq? && w.Out? && (w.seen.Some? ==> w.seen.value == r.cycle)
    requires HostOk(h, [r] + p, v, program, schema)
    ensures v.Granted? && v.cycle == r.cycle && h.logged == v.write
    ensures (!v.write ==> h.early == [] && r.observed == h.seen && r.own == map[]) && Fresh(h.seen, program)
    ensures HostOk(Finish(h, r.cycle), p, w, program, schema)
  {
    var q := [r] + p;
    assert q[0] == r;
    assert q[1..] == p;
    if p != [] {
      assert q[..|q| - 1] == [r] + p[..|p| - 1];
    }
  }

  lemma HeadIsRead(h: Host, p: seq<Request>, v: View, cell: Cell, c: nat, program: Option<Store>, schema: Schema)
    requires HostOk(h, [ReadReq(cell, c)] + p, v, program, schema)
    requires program.Some? ==> program.value.Keys == schema.cells
    ensures v.Granted? && cell in schema.cells
    ensures program.None? ==> HostOk(h.(down := h.down + [Refused]), p, v, program, schema)
    ensures program.Some? ==>
              var x := program.value[cell];
              HostOk(h.(down := h.down + [Answer(cell, x)], seen := h.seen + [Seen(cell, x)]), p, v, program, schema)
  {
    var q := [ReadReq(cell, c)] + p;
    assert q[0] == ReadReq(cell, c);
    assert p == [] && h.down == [];
    if program.Some? {
      var x := Seen(cell, program.value[cell]);
      assert h.early + (h.seen + [x]) == (h.early + h.seen) + [x];
    }
  }

  lemma HeadIsWrite(h: Host, p: seq<Request>, v: View, r: Request, program: Option<Store>, schema: Schema)
    requires r.WriteReq? && HostOk(h, [r] + p, v, program, schema)
    ensures v == Granted(true, r.cycle) && r.own.Keys <= schema.cells && r.observed == h.early + h.seen && !h.logged
    ensures Carries(r.stream, r.own, schema.kinds) && (h.early == [] || |h.early| == r.session.fetched)
    ensures Fresh(h.seen, program)
    ensures forall q :: HostOk(h.(early := [], seen := [], logged := true), p, v, q, schema)
  {
    var q := [r] + p;
    assert q[0] == r && q[1..] == p;
    if p != [] {
      assert q[..|q| - 1] == [r] + p[..|p| - 1];
    }
  }

  /** The grant a host waits for arrives. */
  lemma GrantArrives(h: Host, p: seq<Request>, v: View, c: nat, program: Option<Store>, schema: Schema)
    requires HostOk(h, p, v, program, schema) && v.Queued?
    ensures HostOk(h.(down := h.down + [Grant(c)], sent := h.sent + 1), p, Granted(v.write, v.cycle), program, schema)
  {
  }

  lemma OutForgets(h: Host, p: seq<Request>, v: View, program: Option<Store>, schema: Schema)
    requires HostOk(h, p, v, program, schema) && v.Out?
    ensures HostOk(h, p, Out(None), program, schema)
  {
  }

  lemma LockQueued(h: Host, v: View, w: bool, c: nat, point: nat, program: Option<Store>, schema: Schema)
    requires HostOk(h, [LockReq(w, c)], v, program, schema)
    ensures HostOk(LockRecorded(h, v, false, point), [], Queued(w, c), program, schema)
  {
    HeadIsLock(h, [], v, w, c, program, schema);
    assert [LockReq(w, c)] + [] == [LockReq(w, c)];
    assert h.early + h.seen + [] == h.early + h.seen;
  }

  lemma LockGranted(h: Host, v: View, w: bool, c: nat, point: nat, now: nat, program: Option<Store>, schema: Schema)
    requires HostOk(h, [LockReq(w, c)], v, program, schema)
    ensures var n := LockRecorded(h, v, true, point);
            HostOk(n.(down := n.down + [Grant(now)], sent := n.sent + 1), [], Granted(w, c), program, schema)
  {
    HeadIsLock(h, [], v, w, c, program, schema);
    assert [LockReq(w, c)] + [] == [LockReq(w, c)];
  }

  // ---- Server steps: the other hosts ----

  lemma AddressOf(s: State, t: Table, a: Addr)
    requires UniqueHosts(s.hosts) && Within(t, s.hosts.Keys) && a in s.hosts && Lookup(t, a.host).Some?
    ensures Lookup(t, a.host).value.Address() == a
  {
    assert Lookup(t, a.host).value.host == a.host;
  }

  lemma Bystander(s: State, n: State, b: Addr, grants: seq<Addr>, c: nat)
    requires b in s.hosts && b in n.hosts && HostGood(s, b)
    requires n.schema == s.schema && n.program == s.program && Pending(n.queue, b) == Pending(s.queue, b)
    requires n.hosts[b] == if b in grants then
                             s.hosts[b].(down := s.hosts[b].down + [Grant(c)], sent := s.hosts[b].sent + 1)
                           else s.hosts[b]
    requires var v, w := ViewOf(s.server, b.host), ViewOf(n.server, b.host);
             if b in grants then Promoted(v, w) else Undisturbed(v, w)
    ensures HostGood(n, b)
  {
    var v := ViewOf(s.server, b.host);
    var p := Pipeline(s, b);
    assert Pipeline(n, b) == p;
    if b in grants {
      GrantArrives(s.hosts[b], p, v, c, s.program, s.schema);
    } else if ViewOf(n.server, b.host) != v {
      OutForgets(s.hosts[b], p, v, s.program, s.schema);
    }
  }

  lemma RightView(s: State, now: Server, b: Addr, grants: seq<Addr>)
    requires Topology(s) && b in s.hosts && s.server.current.Some? && now.current.Some?
    requires GrantedRightly(s.server, now, b, grants)
    ensures var v, w := ViewOf(s.server, b.host), ViewOf(now, b.host);
            if b in grants then Promoted(v, w) else w == v
  {
    if Lookup(s.server.current.value, b.host).Some? {
      AddressOf(s, s.server.current.value, b);
    }
  }

  // ---- What the handlers do in a reachable state ----

  lemma LockFacts(s: State, a: Addr, write: bool, cycle: nat)
    requires Core(s) && s.queue != [] && s.queue[0] == Msg(a, LockReq(write, cycle))
    ensures a in s.hosts && Locked(s.server, Started(s), a, cycle, write, OnLock(s.server, a, cycle, write))
    ensures NoDuplicates(OnLock(s.server, a, cycle, write).grants)
    ensures Pending(s.queue[1..], a) + s.hosts[a].up == [] && Pipeline(s, a) == [LockReq(write, cycle)]
  {
    hide HostOk, OnLock, Locked, Within;
    QueueTail(s);
    assert HostGood(s, a);
    var p := Pending(s.queue[1..], a) + s.hosts[a].up;
    var v := ViewOf(s.server, a.host);
    assert Pipeline(s, a) == [LockReq(write, cycle)] + p;
    HeadIsLock(s.hosts[a], p, v, write, cycle, s.program, s.schema);
    if v.Out? {
      LockJoins(s.server, Started(s), a, cycle, write);
    } else {
      HolderStarted(s, a);
      AddressOf(s, s.server.current.value, a);
      LockUpgrades(s.server, a, cycle);
    }
    LockedGrants(s.server, Started(s), a, cycle, write, OnLock(s.server, a, cycle, write));
  }

  lemma LockedGrants(sv: Server, started: bool, a: Addr, cycle: nat, write: bool, r: Handled)
    requires Locked(sv, started, a, cycle, write, r)
    ensures NoDuplicates(r.grants)
  {
  }

  lemma UnlockFacts(s: State, a: Addr, req: Request)
    requires Core(s) && s.queue != [] && s.queue[0] == Msg(a, req) && req.UnlockReq?
    ensures a in s.hosts && Started(s) && ViewOf(s.server, a.host).Granted?
    ensures Unlocked(s.server, a, req.cycle, OnUnlock(s.server, a, req.cycle))
    ensures s.hosts[a].logged == ViewOf(s.server, a.host).write && ViewOf(s.server, a.host).cycle == req.cycle
  {
    hide HostOk, ViewOf, Unlocked, Within;
    QueueTail(s);
    assert HostGood(s, a);
    var p := Pending(s.queue[1..], a) + s.hosts[a].up;
    assert Pipeline(s, a) == [req] + p;
    HeadIsUnlock(s.hosts[a], p, ViewOf(s.server, a.host), req, Out(None), s.program, s.schema);
    HolderStarted(s, a);
    UnlockFinishes(s.server, a, req.cycle);
  }

  lemma AccessFacts(s: State, a: Addr, req: Request)
    requires Core(s) && s.queue != [] && s.queue[0] == Msg(a, req) && (req.ReadReq? || req.WriteReq?)
    ensures a in s.hosts && ViewOf(s.server, a.host).Granted? && Started(s)
    ensures OnAccess(s.server, a, req.WriteReq?) == Done(s.server, [], false)
  {
    hide HostOk, WellFormed, ViewOf, OnAccess, Within;
    QueueTail(s);
    assert HostGood(s, a);
    var p := Pending(s.queue[1..], a) + s.hosts[a].up;
    var v := ViewOf(s.server, a.host);
    assert Pipeline(s, a) == [req] + p;
    if req.ReadReq? {
      HeadIsRead(s.hosts[a], p, v, req.cell, req.cycle, s.program, s.schema);
    } else {
      HeadIsWrite(s.hosts[a], p, v, req, s.program, s.schema);
    }
    HolderStarted(s, a);
    HolderMayAccess(s.server, a, req.WriteReq?);
  }

  // ---- Server steps: the state ----

  lemma QueueTail(s: State)
    requires s.queue != []
    ensures Tokens(s.queue) == Tokens(s.queue[1..]) + (if s.queue[0].StartToken? then 1 else 0)
    ensures forall b :: Pending(s.queue, b) ==
              (if s.queue[0].Msg? && s.queue[0].from == b then [s.queue[0].req] else []) + Pending(s.queue[1..], b)
  {
  }

  lemma StartKeeps(s: State)
    requires Core(s) && s.queue != [] && s.queue[0].StartToken?
    ensures ProcessStep(s).Next? && Core(ProcessStep(s).state)
  {
    hide HostOk, ViewOf, OnStart, Within, WellFormed, Replay, Serial;
    QueueTail(s);
    assert WellFormed(s.server, false) && s.server.current.Some?;
    StartGrants(s.server);
    var r := OnStart(s.server);
    PushIs(s.hosts, r.grants, Grant(Now(s)));
    GrantsWithin(s.server, r.server, r.grants, s.hosts.Keys);
    StartHosts(s, r);
  }

  lemma StartHosts(s: State, r: Handled)
    requires HostsGood(s) && s.queue != [] && s.queue[0].StartToken?
    requires r.Done? && NoDuplicates(r.grants) && s.server.current.Some? && r.server.current.Some?
    requires Topology(s)
    requires forall a :: GrantedRightly(s.server, r.server, a, r.grants)
    ensures HostsGood(Settle(s.(queue := s.queue[1..]), r))
  {
    hide HostOk, ViewOf, Within, GrantedRightly;
    QueueTail(s);
    PushIs(s.hosts, r.grants, Grant(Now(s)));
    var n := Settle(s.(queue := s.queue[1..]), r);
    forall b | b in n.hosts ensures HostGood(n, b) {
      assert HostGood(s, b);
      assert [] + Pending(s.queue[1..], b) == Pending(s.queue[1..], b);
      assert GrantedRightly(s.server, r.server, b, r.grants);
      RightView(s, r.server, b, r.grants);
      Bystander(s, n, b, r.grants, Now(s));
    }
  }

  lemma LockKeeps(s: State, a: Addr, write: bool, cycle: nat)
    requires Core(s) && s.queue != [] && s.queue[0] == Msg(a, LockReq(write, cycle))
    ensures ProcessStep(s).Next? && Core(ProcessStep(s).state)
  {
    hide HostOk, ViewOf, OnLock, Within, HandShake, HostsGood;
    LockFacts(s, a, write, cycle);
    assert WellFormed(s.server, Started(s)) by { CoreParts(s); }
    OnLockWithin(s.server, Started(s), a, cycle, write, s.hosts.Keys);
    LockSettles(s, a, write, cycle);
  }

  lemma CoreParts(s: State)
    requires Core(s)
    ensures WellFormed(s.server, Started(s))
  {
  }

  /** A handled lock or unlock request leaves every host accounted for. */
  lemma MessageSettles(s: State, a: Addr, h: Host, r: Handled)
    requires Topology(s) && HostsGood(s) && r.Done? && NoDuplicates(r.grants)
    requires s.queue != [] && s.queue[0].Msg? && s.queue[0].from == a
    requires AllWithin(r.server, s.hosts.Keys)
    requires var n := if a in r.grants then h.(down := h.down + [Grant(Now(s))], sent := h.sent + 1) else h;
             HostOk(n, Pending(s.queue[1..], a) + n.up, ViewOf(r.server, a.host), s.program, s.schema)
    requires forall b :: b in s.hosts && b != a ==>
               var v, w := ViewOf(s.server, b.host), ViewOf(r.server, b.host);
               if b in r.grants then Promoted(v, w) else Undisturbed(v, w)
    ensures var n := Settle(WithHost(s.(queue := s.queue[1..]), a, h), r);
            Topology(n) && HostsGood(n)
  {
    hide HostOk, ViewOf, Topology, Records, Changes, Pending, Push, Promoted, Undisturbed;
    MessageTopology(s, a, h, r);
    var n := Settle(WithHost(s.(queue := s.queue[1..]), a, h), r);
    PushIs(s.hosts[a := h], r.grants, Grant(Now(s)));
    assert a in s.hosts;
    assert s.hosts[a := h].Keys == s.hosts.Keys;
    assert HostGood(n, a);
    OthersKeep(s, n, a, r.grants, Now(s));
  }

  lemma MessageTopology(s: State, a: Addr, h: Host, r: Handled)
    requires Topology(s) && r.Done? && NoDuplicates(r.grants) && AllWithin(r.server, s.hosts.Keys)
    requires s.queue != [] && s.queue[0].Msg? && s.queue[0].from == a
    ensures a in s.hosts && UniqueHosts(s.hosts)
    ensures Topology(Settle(WithHost(s.(queue := s.queue[1..]), a, h), r))
  {
    hide Records, Changes, Push, Within;
    PushIs(s.hosts[a := h], r.grants, Grant(Now(s)));
    assert s.hosts[a := h].Keys == s.hosts.Keys;
  }

  lemma LockSettles(s: State, a: Addr, write: bool, cycle: nat)
    requires Core(s) && s.queue != [] && s.queue[0] == Msg(a, LockReq(write, cycle))
    requires Pipeline(s, a) == [LockReq(write, cycle)]
    requires Pending(s.queue[1..], a) + s.hosts[a].up == []
    requires Locked(s.server, Started(s), a, cycle, write, OnLock(s.server, a, cycle, write))
    requires AllWithin(OnLock(s.server, a, cycle, write).server, s.hosts.Keys)
    ensures ProcessStep(s).Next? && Core(ProcessStep(s).state)
  {
    hide HostOk, WellFormed, ViewOf, OnLock, Replay, Serial, Within;
    QueueTail(s);
    var r := OnLock(s.server, a, cycle, write);
    var v := ViewOf(s.server, a.host);
    var h := LockRecorded(s.hosts[a], v, a in r.grants, |s.hist.log|);
    var n := ProcessStep(s).state;
    assert HostGood(s, a);
    if r.grants == [] {
      LockQueued(s.hosts[a], v, write, cycle, |s.hist.log|, s.program, s.schema);
    } else {
      LockGranted(s.hosts[a], v, write, cycle, |s.hist.log|, Now(s), s.program, s.schema);
    }
    assert forall b :: b in s.hosts && b != a ==> b.host != a.host;
    MessageSettles(s, a, h, r);
    assert n == Settle(WithHost(s.(queue := s.queue[1..]), a, h), r);
    assert Started(n) == Started(s);
  }

  /** One message handled: its sender is accounted for, the others follow the server's views. */
  lemma OthersKeep(s: State, n: State, a: Addr, grants: seq<Addr>, c: nat)
    requires UniqueHosts(s.hosts) && HostsGood(s) && a in s.hosts && n.hosts.Keys == s.hosts.Keys
    requires s.queue != [] && s.queue[0].Msg? && s.queue[0].from == a && n.queue == s.queue[1..]
    requires n.schema == s.schema && n.program == s.program
    requires forall b :: b in s.hosts && b != a ==>
               && n.hosts[b] == (if b in grants then
                                   s.hosts[b].(down := s.hosts[b].down + [Grant(c)], sent := s.hosts[b].sent + 1)
                                 else s.hosts[b])
               && var v, w := ViewOf(s.server, b.host), ViewOf(n.server, b.host);
                  if b in grants then Promoted(v, w) else Undisturbed(v, w)
    requires HostGood(n, a)
    ensures HostsGood(n)
  {
    QueueTail(s);
    forall b | b in n.hosts ensures HostGood(n, b) {
      if b != a {
        assert HostGood(s, b);
        assert [] + Pending(n.queue, b) == Pending(n.queue, b);
        Bystander(s, n, b, grants, c);
      }
    }
  }

  lemma UnlockKeeps(s: State, a: Addr, req: Request)
    requires Core(s) && s.queue != [] && s.queue[0] == Msg(a, req) && req.UnlockReq?
    ensures ProcessStep(s).Next? && Core(ProcessStep(s).state)
  {
    hide HostOk, ViewOf, Unlocked, Within;
    QueueTail(s);
    assert HostGood(s, a);
    var h := s.hosts[a];
    var v := ViewOf(s.server, a.host);
    var p := Pending(s.queue[1..], a) + h.up;
    assert Pipeline(s, a) == [req] + p;
    HeadIsUnlock(h, p, v, req, Out(None), s.program, s.schema);
    HolderStarted(s, a);
    UnlockFinishes(s.server, a, req.cycle);
    UnlockSettles(s, a, req);
    UnlockSerialised(s, a, req);
  }

  lemma UnlockSerialised(s: State, a: Addr, req: Request)
    requires req.UnlockReq? && Serialised(s) && a in s.hosts
             && HandleUnlock(s, a, req.cycle, req.observed, req.session).Next?
    requires var v, h := ViewOf(s.server, a.host), s.hosts[a];
             v.Granted? && !v.write ==> h.early == [] && req.observed == h.seen && Fresh(h.seen, s.program)
    ensures Serialised(HandleUnlock(s, a, req.cycle, req.observed, req.session).state)
  {
    assert s.program.Some? ==> s.program.value + map[] == s.program.value;
    var t := HostTxn(a, req.cycle, req.observed, 0, 0, map[], req.session);
    if Consistent(t, s.program) {
      ReplayAppend(s.hist.initial, s.hist.log, t);
    }
  }

  lemma HolderStarted(s: State, a: Addr)
    requires Core(s) && a in s.hosts && ViewOf(s.server, a.host).Granted?
    ensures Started(s)
  {
    if !Started(s) { NobodyHoldsUnstarted(s, a); }
  }

  lemma UnlockWithin(s: State, a: Addr, r: Handled)
    requires Topology(s) && a in s.hosts && s.server.current.Some? && r.Done?
    requires r.released ==> r.server == Server(s.server.future, None)
    requires !r.released ==>
      && r.server.current.Some? && r.server.future == s.server.future
      && (Lookup(r.server.current.value, a.host).Some? ==> Lookup(r.server.current.value, a.host).value.Address() == a)
      && forall b: Addr :: b.host != a.host ==> GrantedRightly(s.server, r.server, b, r.grants)
    ensures AllWithin(r.server, s.hosts.Keys)
  {
    if !r.released {
      var t, u := s.server.current.value, r.server.current.value;
      forall h | Lookup(u, h).Some? ensures Lookup(u, h).value.Address() in s.hosts {
        if h != a.host {
          assert GrantedRightly(s.server, r.server, Addr(0, h), r.grants);
          assert Lookup(u, h).value.host == h && Lookup(t, h).value.host == h;
        }
      }
    }
  }

  lemma UnlockSettles(s: State, a: Addr, req: Request)
    requires Core(s) && Started(s) && s.queue != [] && s.queue[0] == Msg(a, req) && req.UnlockReq?
    requires Pipeline(s, a) == [req] + (Pending(s.queue[1..], a) + s.hosts[a].up)
    requires Unlocked(s.server, a, req.cycle, OnUnlock(s.server, a, req.cycle))
    ensures ProcessStep(s).Next?
    ensures var n := ProcessStep(s).state; Topology(n) && HandShake(n) && HostsGood(n)
  {
    hide HostOk, WellFormed, ViewOf, OnUnlock, Replay, Serial, Within;
    QueueTail(s);
    var r := OnUnlock(s.server, a, req.cycle);
    var h := Finish(s.hosts[a], req.cycle);
    var n := ProcessStep(s).state;
    assert HostGood(s, a);
    HeadIsUnlock(s.hosts[a], Pending(s.queue[1..], a) + s.hosts[a].up, ViewOf(s.server, a.host), req,
                 ViewOf(r.server, a.host), s.program, s.schema);
    if !r.released { AddressOf(s, s.server.current.value, a); }
    UnlockWithin(s, a, r);
    UnlockViews(s, a, req.cycle, r);
    MessageSettles(s, a, h, r);
    var m := Settle(WithHost(s.(queue := s.queue[1..]), a, h), r);
    assert n == m.(hist := n.hist);
    assert Started(n) == !r.released;
    assert Topology(n) && HandShake(n);
    forall b | b in n.hosts ensures HostGood(n, b) {
      assert HostGood(m, b);
      Frame(m, n, b);
    }
  }

  lemma UnlockViews(s: State, a: Addr, cycle: nat, r: Handled)
    requires Topology(s) && a in s.hosts && Unlocked(s.server, a, cycle, r)
    ensures a !in r.grants
    ensures forall b :: b in s.hosts && b != a ==>
              var v, w := ViewOf(s.server, b.host), ViewOf(r.server, b.host);
              if b in r.grants then Promoted(v, w) else Undisturbed(v, w)
  {
    forall b | b in s.hosts && b != a
      ensures var v, w := ViewOf(s.server, b.host), ViewOf(r.server, b.host);
              if b in r.grants then Promoted(v, w) else Undisturbed(v, w)
    {
      assert b.host != a.host;
      if !r.released {
        assert GrantedRightly(s.server, r.server, b, r.grants);
        RightView(s, r.server, b, r.grants);
      }
    }
  }

  lemma AccessKeeps(s: State, a: Addr, req: Request)
    requires Core(s) && s.queue != [] && s.queue[0] == Msg(a, req) && (req.ReadReq? || req.WriteReq?)
    ensures ProcessStep(s).Next? && Core(ProcessStep(s).state)
  {
    hide HostOk, WellFormed, ViewOf, OnAccess, Replay, Serial, Within, Pending, Carries;
    QueueTail(s);
    assert HostGood(s, a);
    var h := s.hosts[a];
    var v := ViewOf(s.server, a.host);
    var p := Pending(s.queue[1..], a) + h.up;
    assert Pipeline(s, a) == [req] + p;
    var s1 := s.(queue := s.queue[1..]);
    if req.ReadReq? {
      HeadIsRead(h, p, v, req.cell, req.cycle, s.program, s.schema);
      HolderMayAccess(s.server, a, false);
      var h' := if s.program.None? then h.(down := h.down + [Refused])
                else h.(down := h.down + [Answer(req.cell, s.program.value[req.cell])],
                        seen := h.seen + [Seen(req.cell, s.program.value[req.cell])]);
      assert ProcessStep(s) == Next(WithHost(s1, a, h'));
      PoppedKeeps(s, s1, a, h');
    } else {
      HeadIsWrite(h, p, v, req, s.program, s.schema);
      HolderMayAccess(s.server, a, true);
      WriteSettles(s, a, req);
    }
  }

  lemma PoppedKeeps(s: State, n: State, a: Addr, h: Host)
    requires Core(s) && s.queue != [] && s.queue[0].Msg? && s.queue[0].from == a && a in s.hosts
    requires n == s.(queue := s.queue[1..])
    requires HostOk(h, Pending(n.queue, a) + h.up, ViewOf(s.server, a.host), s.program, s.schema)
    ensures Core(WithHost(n, a, h))
  {
    hide HostOk, WellFormed, Serial, Replay, ViewOf, Within;
    QueueTail(s);
    var m := WithHost(n, a, h);
    assert m.hosts.Keys == s.hosts.Keys;
    assert Started(m) == Started(s);
    forall b | b in m.hosts ensures HostGood(m, b) {
      if b != a {
        assert HostGood(s, b);
        assert [] + Pending(n.queue, b) == Pending(n.queue, b);
        Frame(s, m, b);
      }
    }
  }

  /** While one host holds the write lock no other host holds anything it has read. */
  lemma WriterIsAlone(s: State, a: Addr, b: Addr)
    requires Core(s) && a in s.hosts && b in s.hosts && a != b
    requires ViewOf(s.server, a.host).Granted? && ViewOf(s.server, a.host).write
    ensures !ViewOf(s.server, b.host).Granted? && s.hosts[b].seen == []
  {
    hide Serial, Replay, Coupled, Conserved, Within, Pending;
    HolderStarted(s, a);
    assert HostGood(s, b);
    assert a.host != b.host;
  }

  lemma WriteSettles(s: State, a: Addr, req: Request)
    requires Core(s) && s.queue != [] && s.queue[0] == Msg(a, req) && req.WriteReq?
    requires OnAccess(s.server, a, true) == Done(s.server, [], false)
    requires var h, v := s.hosts[a], ViewOf(s.server, a.host);
             && v.Granted? && v.write && req.own.Keys <= s.schema.cells && req.observed == h.early + h.seen
             && Fresh(h.seen, s.program) && Carries(req.stream, req.own, s.schema.kinds)
             && forall q :: HostOk(h.(early := [], seen := [], logged := true), Pending(s.queue[1..], a) + h.up, v,
               q, s.schema)
    ensures ProcessStep(s).Next? && Core(ProcessStep(s).state)
  {
    hide HostOk, WellFormed, ViewOf, OnAccess, Replay, Serial, Within;
    QueueTail(s);
    var h := s.hosts[a];
    var n := ProcessStep(s).state;
    assert n.hosts.Keys == s.hosts.Keys;
    assert Started(n) == Started(s);
    assert Decoded(s.program, req.stream, s.schema.kinds) == Some(Apply(s.program, req.own));
    var t := HostTxn(a, req.cycle, req.observed, |h.early|, h.point, req.own, req.session);
    assert req.observed[|h.early|..] == h.seen;
    ReplayAppend(s.hist.initial, s.hist.log, t);
    assert Serialised(n);
    assert HostGood(n, a);
    WriteOthers(s, n, a);
  }

  lemma WriteOthers(s: State, n: State, a: Addr)
    requires Core(s) && a in s.hosts && ViewOf(s.server, a.host).Granted? && ViewOf(s.server, a.host).write
    requires s.queue != [] && s.queue[0].Msg? && s.queue[0].from == a && n.queue == s.queue[1..]
    requires n.schema == s.schema && n.server == s.server && n.hosts.Keys == s.hosts.Keys
    requires forall b :: b in s.hosts && b != a ==> n.hosts[b] == s.hosts[b]
    ensures forall b :: b in n.hosts && b != a ==> HostGood(n, b)
  {
    hide HostOk, WellFormed, ViewOf, Within, Serialised;
    QueueTail(s);
    forall b | b in n.hosts && b != a ensures HostGood(n, b) {
      assert HostGood(s, b);
      WriterIsAlone(s, a, b);
      assert [] + Pending(n.queue, b) == Pending(n.queue, b);
      Frame(s, n, b);
    }
  }

  // ---- Runs ----

  /** No action ever reaches a throw, and every enabled one keeps the invariant. */
  lemma StepKeeps(s: State, act: Action)
    requires Core(s)
    ensures Step(s, act) != Crash
    ensures Step(s, act).Next? ==> Core(Step(s, act).state)
  {
    if IsClient(act) {
      if ClientStep(s, act).Next? { ClientKeeps(s, act); }
    } else if act.Deliver? {
      if DeliverStep(s, act.a).Next? { DeliverKeeps(s, act.a); }
    } else if act.Process? {
      if s.queue != [] {
        match s.queue[0]
        case StartToken => StartKeeps(s);
        case Msg(a, req) =>
          match req
          case LockReq(w, c) => LockKeeps(s, a, w, c);
          case UnlockReq(_, _, _, _) => UnlockKeeps(s, a, req);
          case _ => AccessKeeps(s, a, req);
      }
    } else {
      if MainStep(s, act).Next? { MainKeeps(s, act); }
    }
  }

  lemma InitCore(s: State)
    requires Init(s)
    ensures Core(s)
  {
    forall a | a in s.hosts ensures HostGood(s, a) {
      assert Pipeline(s, a) == [];
    }
  }

  lemma {:induction false} RunKeeps(s: State, acts: seq<Action>)
    requires Init(s)
    ensures Run(s, acts) != Crash
    ensures Run(s, acts).Next? ==> Core(Run(s, acts).state)
  {
    if acts == [] {
      InitCore(s);
    } else {
      RunKeeps(s, acts[..|acts| - 1]);
      var m := Run(s, acts[..|acts| - 1]);
      if m.Next? { StepKeeps(m.state, acts[|acts| - 1]); }
    }
  }
}
