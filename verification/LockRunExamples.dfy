/**
 Two runs. In one a host reads from a component without a program and is refused. In the other two hosts hold
 the read lock and one has read a cell; it waits to write it, the other is let in first and writes it, and the
 first then commits on top of a value it never saw.
 */
module LockRunExamples {
  import opened Prelude
  import opened LockTable
  import opened LockServer
  import opened LockProtocol
  import LockInvariant
  import opened WriteStream
  import opened Access

  const A := Addr(1, 1)
  const B := Addr(1, 2)
  const X := Cell(0, 0)
  const SCHEMA := Schema({X}, map[0 := PlainKind])

  /** What matters of a state of the two-host system. */
  datatype Snap = Snap(t: Option<Table>, main: Main, queue: seq<Event>, x: Option<Value>, a: Host, b: Host,
    log: seq<Txn>) {
    function Of(who: Addr): Host {
      if who == A then a else b
    }

    function With(who: Addr, h: Host): Snap {
      if who == A then this.(a := h) else this.(b := h)
    }

    function Server(): Server {
      LockServer.Server(t, None)
    }
  }

  ghost predicate At(s: State, n: Snap) {
    && s.schema == SCHEMA && s.hosts.Keys == {A, B} && s.hosts[A] == n.a && s.hosts[B] == n.b
    && s.server == n.Server() && s.main == n.main && !s.released && s.queue == n.queue
    && s.program == (if n.x.Some? then Some(map[X := n.x.value]) else None) && s.clock == 0 && s.hist.log == n.log
  }

  function Given(h: Host): Host {
    h.(down := h.down + [Grant(0)], sent := h.sent + 1)
  }

  function Settled(n: Snap, r: Handled): Snap
    requires r.Done?
  {
    n.(t := r.server.current,
       a := if A in r.grants then Given(n.a) else n.a,
       b := if B in r.grants then Given(n.b) else n.b)
  }

  predicate Simple(r: Handled) {
    r.Done? && !r.released && r.server.future.None? && NoDuplicates(r.grants)
  }

  predicate IsHost(who: Addr) {
    who == A || who == B
  }

  function AfterProcess(n: Snap): Option<Snap>
    requires n.queue != []
  {
    var m := n.(queue := n.queue[1..]);
    match n.queue[0]
    case StartToken =>
      var r := OnStart(n.Server());
      if Simple(r) then Some(Settled(m, r)) else None
    case Msg(who, req) =>
      if !IsHost(who) then None
      else
        match req
        case LockReq(write, cycle) =>
          var r := OnLock(n.Server(), who, cycle, write);
          if Simple(r) then
            Some(Settled(m.With(who, LockRecorded(m.Of(who), ViewOf(n.Server(), who.host), who in r.grants,
              |n.log|)), r))
          else None
        case UnlockReq(cycle, _, _, _) =>
          var r := OnUnlock(n.Server(), who, cycle);
          var v := ViewOf(n.Server(), who.host);
          if Simple(r) && v.Granted? && v.write then
            Some(Settled(m.With(who, Finish(m.Of(who), cycle)), r))
          else None
        case ReadReq(cell, _) =>
          var h := m.Of(who);
          if cell == X && OnAccess(n.Server(), who, false) == Done(n.Server(), [], false) then
            if n.x.None? then Some(m.With(who, h.(down := h.down + [Refused])))
            else Some(m.With(who, h.(down := h.down + [Answer(X, n.x.value)], seen := h.seen + [Seen(X, n.x.value)])))
          else None
        case WriteReq(cycle, stream, own, observed, session) =>
          var h := m.Of(who);
          if n.x.Some? && own.Keys == {X} && DecodeWrites(stream, SCHEMA.kinds, map[X := n.x.value]) == Some(own)
             && OnAccess(n.Server(), who, true) == Done(n.Server(), [], false) then
            Some(m.With(who, h.(early := [], seen := [], logged := true)).(
              x := Some(own[X]), log := n.log + [HostTxn(who, cycle, observed, |h.early|, h.point, own, session)]))
          else None
  }

  function After(n: Snap, act: Action): Option<Snap> {
    if IsClient(act) then
      if IsHost(act.a) && HostStep(n.Of(act.a), act, SCHEMA).Some? then
        Some(n.With(act.a, HostStep(n.Of(act.a), act, SCHEMA).value))
      else None
    else
      match act
      case Process => if n.queue == [] then None else AfterProcess(n)
      case Deliver(who) =>
        if IsHost(who) && n.Of(who).up != [] then
          Some(n.With(who, n.Of(who).(up := n.Of(who).up[1..])).(queue := n.queue + [Msg(who, n.Of(who).up[0])]))
        else None
      case EnterWait =>
        if n.main == Jobs && n.t.Some? then Some(n.(main := Waiting, queue := n.queue + [StartToken])) else None
      case _ => None
  }

  lemma AfterIs(s: State, n: Snap, act: Action)
    requires At(s, n) && After(n, act).Some?
    ensures Step(s, act).Next? && At(Step(s, act).state, After(n, act).value)
  {
    hide AfterProcess, HostStep;
    if act.Process? {
      ProcessIs(s, n);
    }
  }

  lemma ProcessIs(s: State, n: Snap)
    requires At(s, n) && n.queue != [] && AfterProcess(n).Some?
    ensures ProcessStep(s).Next? && At(ProcessStep(s).state, AfterProcess(n).value)
  {
    hide OnLock, OnUnlock, OnStart, OnAccess, ViewOf, LockRecorded, DecodeWrites, Settle, Settled;
    var s1 := s.(queue := s.queue[1..]);
    match s.queue[0]
    case StartToken =>
      SettleIs(s1, n.(queue := n.queue[1..]), OnStart(n.Server()));
    case Msg(who, LockReq(write, cycle)) =>
      var r := OnLock(n.Server(), who, cycle, write);
      var h := LockRecorded(n.Of(who), ViewOf(n.Server(), who.host), who in r.grants, |n.log|);
      SettleIs(WithHost(s1, who, h), n.(queue := n.queue[1..]).With(who, h), r);
    case Msg(who, UnlockReq(cycle, _, _, _)) =>
      var h := Finish(n.Of(who), cycle);
      SettleIs(WithHost(s1, who, h), n.(queue := n.queue[1..]).With(who, h), OnUnlock(n.Server(), who, cycle));
    case Msg(who, WriteReq(_, _, own, _, _)) =>
      assert own == map[X := own[X]];
    case _ =>
  }

  lemma SettleIs(s: State, n: Snap, r: Handled)
    requires At(s, n) && Simple(r)
    ensures At(Settle(s, r), Settled(n, r))
  {
    LockInvariant.PushIs(s.hosts, r.grants, Grant(0));
  }

  // ---- The run ----

  const IDLE := Host(Idle, 0, 0, [], map[], map[], [], [], Session([], [], 0, 0), [], [], 0, false, [], 0, 0, 0)

  /** Two idle hosts and a component whose cell holds the value, if it has a program. */
  function Start(x: Option<Value>): State {
    var program := if x.Some? then Some(map[X := x.value]) else None;
    State(SCHEMA, Server(None, None), false, Jobs, [], program, 0, map[A := IDLE, B := IDLE],
          History(program, [], [], 0, 0, program.Some?))
  }

  ghost predicate Reaches(x: Option<Value>, acts: seq<Action>, s: State) {
    Run(Start(x), acts) == Next(s)
  }

  lemma Go(x: Option<Value>, acts: seq<Action>, s: State, n: Snap, act: Action)
    returns (more: seq<Action>, t: State, m: Snap)
    requires Reaches(x, acts, s) && At(s, n) && After(n, act).Some?
    ensures Reaches(x, more, t) && At(t, m) && After(n, act) == Some(m)
  {
    AfterIs(s, n, act);
    more, t, m := acts + [act], Step(s, act).state, After(n, act).value;
    assert more[..|more| - 1] == acts;
  }

  function E(host: nat, state: LockState): Entry {
    Entry(1, host, 1, state)
  }

  const ZERO := Value.Plain(0)
  const ONE := map[X := Value.Plain(1)]
  const TWO := map[X := Value.Plain(2)]

  /** A host that waits for its first read lock, and one that has been granted it. */
  const ASKED := IDLE.(phase := AwaitLock(false), cycle := 1, asked := 1)
  const HOLDS := ASKED.(phase := Holding(false), sent := 1, received := 1)

  lemma StartIs(x: Option<Value>)
    ensures Init(Start(x)) && Reaches(x, [], Start(x)) && At(Start(x), Snap(None, Jobs, [], x, IDLE, IDLE, []))
  {
  }

  /** The first host asks to read. */
  lemma OneAsks(x: Option<Value>) returns (acts: seq<Action>, s: State, n: Snap)
    ensures Reaches(x, acts, s) && At(s, n)
    ensures n == Snap(Some([E(1, Read)]), Jobs, [], x, ASKED, IDLE, [])
  {
    hide Reaches, Run, At, OnLock;
    StartIs(x);
    acts, s, n := [], Start(x), Snap(None, Jobs, [], x, IDLE, IDLE, []);
    acts, s, n := Go(x, acts, s, n, BeginLock(A, false, 1));
    acts, s, n := Go(x, acts, s, n, Deliver(A));
    assert n.queue == [Msg(A, LockReq(false, 1))] && n.a == ASKED;
    ReadLocks();
    acts, s, n := Go(x, acts, s, n, Process);
  }

  /** Both hosts ask to read. */
  lemma BothAsk(x: Option<Value>) returns (acts: seq<Action>, s: State, n: Snap)
    ensures Reaches(x, acts, s) && At(s, n)
    ensures n == Snap(Some([E(1, Read), E(2, Read)]), Jobs, [], x, ASKED, ASKED, [])
  {
    hide Reaches, Run, At, OnLock;
    acts, s, n := OneAsks(x);
    acts, s, n := Go(x, acts, s, n, BeginLock(B, false, 1));
    acts, s, n := Go(x, acts, s, n, Deliver(B));
    assert n.queue == [Msg(B, LockReq(false, 1))] && n.b == ASKED;
    ReadLocks();
    acts, s, n := Go(x, acts, s, n, Process);
  }

  lemma ReadLocks()
    ensures OnLock(Server(None, None), A, 1, false) == Done(Server(Some([E(1, Read)]), None), [], false)
    ensures OnLock(Server(Some([E(1, Read)]), None), B, 1, false) ==
            Done(Server(Some([E(1, Read), E(2, Read)]), None), [], false)
    ensures ViewOf(Server(None, None), 1).Out? && ViewOf(Server(Some([E(1, Read)]), None), 2).Out?
  {
    var t: Table := [];
    FindIs(t, 1, 0);
    assert t + [E(1, Read)] == [E(1, Read)] && LockTable.Put(t, A, 1, Read) == [E(1, Read)];
    var u := [E(1, Read)];
    FindIs(u, 2, 1);
    assert u + [E(2, Read)] == [E(1, Read), E(2, Read)] && LockTable.Put(u, B, 1, Read) == [E(1, Read), E(2, Read)];
    assert !Has(t, Reading) && !Has(u, Reading);
  }

  /** The round is started and both are granted the read lock. */
  lemma BothHold(x: Option<Value>) returns (acts: seq<Action>, s: State, n: Snap)
    ensures Reaches(x, acts, s) && At(s, n)
    ensures n == Snap(Some([E(1, Reading), E(2, Reading)]), Waiting, [], x, HOLDS, HOLDS, [])
  {
    hide Reaches, Run, At, OnStart;
    acts, s, n := BothAsk(x);
    acts, s, n := Go(x, acts, s, n, EnterWait);
    assert n.queue == [StartToken];
    Starts();
    acts, s, n := Go(x, acts, s, n, Process);
    assert n.a == n.b == ASKED.(down := [Grant(0)], sent := 1);
    acts, s, n := Go(x, acts, s, n, ReceiveGrant(A));
    acts, s, n := Go(x, acts, s, n, ReceiveGrant(B));
  }

  lemma Starts()
    ensures OnStart(Server(Some([E(1, Read), E(2, Read)]), None)) ==
            Done(Server(Some([E(1, Reading), E(2, Reading)]), None), [A, B], false)
  {
    var t := [E(1, Read), E(2, Read)];
    assert t[0].state == Read;
    assert StartReaders(t) == [E(1, Reading), E(2, Reading)];
    assert t[1..] == [E(2, Read)] && t[1..][1..] == [];
    assert Addresses(t[1..], Read) == [B] + [];
    assert Addresses(t, Read) == [A] + [B] == [A, B];
  }

  /** The first host asks for the cell and its request is handled. */
  lemma FirstAsks(x: Option<Value>) returns (acts: seq<Action>, s: State, n: Snap)
    ensures Reaches(x, acts, s) && At(s, n)
    ensures n.t == Some([E(1, Reading), E(2, Reading)]) && n.main == Waiting && n.queue == [] && n.x == x && n.log == []
    ensures n.b == HOLDS
    ensures n.a == HOLDS.(phase := AwaitValue(false, X)).(
                     down := [if x.None? then Refused else Answer(X, x.value)],
                     seen := if x.None? then [] else [Seen(X, x.value)])
  {
    hide Reaches, Run, At, OnLock, OnUnlock, OnStart, ViewOf, LockRecorded;
    acts, s, n := BothHold(x);
    acts, s, n := Go(x, acts, s, n, AskRead(A, X));
    acts, s, n := Go(x, acts, s, n, Deliver(A));
    assert n.queue == [Msg(A, ReadReq(X, 1))];
    FindIs(n.t.value, 1, 0);
    acts, s, n := Go(x, acts, s, n, Process);
  }

  // ---- A read that is refused ----

  /** There is a run from an initial state without a program in which a host is refused a value while it holds
      the lock; what follows from it is LockLiveness.StuckForEver. */
  lemma HostGetsStuck() returns (acts: seq<Action>, s: State)
    ensures Init(Start(None)) && Run(Start(None), acts) == Next(s)
    ensures A in s.hosts && s.hosts[A].phase.Stuck? && s.main == Waiting && !s.released
  {
    hide Run, OnLock, OnAccess;
    StartIs(None);
    var n;
    acts, s, n := FirstAsks(None);
    acts, s, n := Go(None, acts, s, n, ReceiveValue(A));
  }

  // ---- An upgrade that waits ----

  const READ := [Seen(X, ZERO)]

  /** A host whose upgrade waits, its read behind it. */
  const WAITS := HOLDS.(phase := AwaitUpgrade, got := READ, copies := map[X := ZERO], early := READ, asked := 2,
                        session := Session([Get(X)], [ZERO], 1, 1))

  /** The first host reads the cell and asks to write it; it has to wait for the other reader. */
  lemma FirstWaits() returns (acts: seq<Action>, s: State, n: Snap)
    ensures Reaches(Some(ZERO), acts, s) && At(s, n)
    ensures n == Snap(Some([E(1, Write), E(2, Reading)]), Waiting, [], Some(ZERO), WAITS, HOLDS, [])
  {
    hide Reaches, Run, At, OnLock;
    var x := Some(ZERO);
    acts, s, n := FirstAsks(x);
    acts, s, n := Go(x, acts, s, n, ReceiveValue(A));
    acts, s, n := Go(x, acts, s, n, Use(A, Get(X)));
    assert n.a == HOLDS.(got := READ, seen := READ, copies := map[X := ZERO],
      session := Session([Get(X)], [ZERO], 0, 0));
    acts, s, n := Go(x, acts, s, n, Upgrade(A));
    acts, s, n := Go(x, acts, s, n, Deliver(A));
    assert n.queue == [Msg(A, LockReq(true, 1))];
    FirstUpgrade();
    acts, s, n := Go(x, acts, s, n, Process);
    assert [] + READ == READ;
  }

  lemma FirstUpgrade()
    ensures var sv := Server(Some([E(1, Reading), E(2, Reading)]), None);
            && OnLock(sv, A, 1, true) == Done(Server(Some([E(1, Write), E(2, Reading)]), None), [], false)
            && ViewOf(sv, 1) == Granted(false, 1)
  {
    var t := [E(1, Reading), E(2, Reading)];
    FindIs(t, 1, 0);
    var u := [E(1, Write), E(2, Reading)];
    assert LockTable.Put(t, A, 1, Write) == u;
    assert u[1].state == Reading;
  }

  const UPGRADED := HOLDS.(phase := Holding(true), asked := 2, sent := 2, received := 2)

  /** The second host's upgrade is granted at once: it is the only reader left. */
  lemma SecondHolds() returns (acts: seq<Action>, s: State, n: Snap)
    ensures Reaches(Some(ZERO), acts, s) && At(s, n)
    ensures n == Snap(Some([E(1, Write), E(2, Writing)]), Waiting, [], Some(ZERO), WAITS, UPGRADED, [])
  {
    hide Reaches, Run, At, OnLock;
    var x := Some(ZERO);
    acts, s, n := FirstWaits();
    acts, s, n := Go(x, acts, s, n, Upgrade(B));
    acts, s, n := Go(x, acts, s, n, Deliver(B));
    assert n.queue == [Msg(B, LockReq(true, 1))];
    SecondUpgrade();
    acts, s, n := Go(x, acts, s, n, Process);
    acts, s, n := Go(x, acts, s, n, ReceiveGrant(B));
  }

  lemma SecondUpgrade()
    ensures var sv := Server(Some([E(1, Write), E(2, Reading)]), None);
            && OnLock(sv, B, 1, true) == Done(Server(Some([E(1, Write), E(2, Writing)]), None), [B], false)
            && ViewOf(sv, 2) == Granted(false, 1)
  {
    var t := [E(1, Write), E(2, Reading)];
    FindIs(t, 2, 1);
    var u := [E(1, Write), E(2, Write)];
    assert LockTable.Put(t, B, 1, Write) == u;
    assert !Has(u, Reading);
    FindIs(u, 2, 1);
    assert LockTable.Put(u, B, 1, Writing) == [E(1, Write), E(2, Writing)];
  }

  lemma CellWrite(own: Store, onto: Value)
    requires own == ONE || own == TWO
    ensures Sendable([X], own, SCHEMA.kinds) && CellSet([X]) == own.Keys
    ensures DecodeWrites(EncodeWrites([X], own, SCHEMA.kinds), SCHEMA.kinds, map[X := onto]) == Some(own)
  {
    RoomyStream([X], own, SCHEMA.kinds, map[X := onto]);
    assert map[X := onto] + own == own;
  }

  function WriteOf(own: Store, observed: seq<Seen>, session: Session): Request
    requires Sendable([X], own, SCHEMA.kinds)
  {
    WriteReq(1, EncodeWrites([X], own, SCHEMA.kinds), own, observed, session)
  }

  const PUTS := Session([Access.Put(X, Value.Plain(1))], [], 0, 0)

  lemma SecondSends() returns (acts: seq<Action>, s: State, n: Snap)
    ensures Reaches(Some(ZERO), acts, s) && At(s, n) && Sendable([X], ONE, SCHEMA.kinds)
    ensures n == Snap(Some([E(1, Write), E(2, Writing)]), Waiting,
                      [Msg(B, WriteOf(ONE, [], PUTS)), Msg(B, UnlockReq(1, ONE, [], PUTS))], Some(ZERO), WAITS,
                      UPGRADED.(phase := Idle, copies := ONE, own := ONE, session := PUTS), [])
  {
    hide Reaches, Run, At, AfterProcess, EncodeWrites, Sendable, DecodeWrites, CellSet;
    var x := Some(ZERO);
    acts, s, n := SecondHolds();
    acts, s, n := Go(x, acts, s, n, Use(B, Access.Put(X, Value.Plain(1))));
    CellWrite(ONE, ZERO);
    assert n.b == UPGRADED.(copies := ONE, own := ONE, session := PUTS);
    acts, s, n := Go(x, acts, s, n, CommitWrites(B, [X]));
    acts, s, n := Go(x, acts, s, n, ReleaseLock(B));
    acts, s, n := Go(x, acts, s, n, Deliver(B));
    assert n.queue == [Msg(B, WriteOf(ONE, [], PUTS))];
    acts, s, n := Go(x, acts, s, n, Deliver(B));
    assert n.queue == [Msg(B, WriteOf(ONE, [], PUTS)), Msg(B, UnlockReq(1, ONE, [], PUTS))];
  }

  const FIRST := HostTxn(B, 1, [], 0, 0, ONE, PUTS)

  /** The second host writes and unlocks, which lets the first one in. */
  lemma SecondCommits() returns (acts: seq<Action>, s: State, n: Snap)
    ensures Reaches(Some(ZERO), acts, s) && At(s, n)
    ensures n == Snap(Some([E(1, Writing), E(2, Finished)]), Waiting, [], Some(Value.Plain(1)),
                      WAITS.(sent := 2, down := [Grant(0)]), n.b, [FIRST])
  {
    hide Reaches, Run, At, OnUnlock, EncodeWrites, Sendable, DecodeWrites;
    var x := Some(ZERO);
    acts, s, n := SecondSends();
    FindIs(n.t.value, 2, 1);
    CellWrite(ONE, ZERO);
    acts, s, n := Go(x, acts, s, n, Process);
    assert n.queue == [Msg(B, UnlockReq(1, ONE, [], PUTS))];
    SecondUnlock();
    acts, s, n := Go(x, acts, s, n, Process);
  }

  lemma SecondUnlock()
    ensures var sv := Server(Some([E(1, Write), E(2, Writing)]), None);
            && OnUnlock(sv, B, 1) == Done(Server(Some([E(1, Writing), E(2, Finished)]), None), [A], false)
            && ViewOf(sv, 2) == Granted(true, 1)
  {
    var t := [E(1, Write), E(2, Writing)];
    FindIs(t, 2, 1);
    var u := [E(1, Write), E(2, Finished)];
    assert LockTable.Put(t, B, 1, Finished) == u;
    assert u[0].state != Finished && !Has(u, Reading) && !Has(u, Read);
    assert FirstWriter(u) == 0;
    assert u[0 := u[0].(state := Writing)] == [E(1, Writing), E(2, Finished)];
  }

  const BOTH := Session([Get(X), Access.Put(X, Value.Plain(2))], [ZERO], 1, 1)

  /** The first host is granted, writes the cell and sends its write. */
  lemma FirstSends() returns (acts: seq<Action>, s: State, n: Snap)
    ensures Reaches(Some(ZERO), acts, s) && At(s, n) && Sendable([X], TWO, SCHEMA.kinds)
    ensures n.queue == [Msg(A, WriteOf(TWO, READ, BOTH))] && n.t == Some([E(1, Writing), E(2, Finished)])
    ensures n.log == [FIRST] && n.a.early == READ && n.a.point == 0 && n.x == Some(Value.Plain(1))
  {
    hide Reaches, Run, At, AfterProcess, EncodeWrites, Sendable, DecodeWrites, CellSet;
    var x := Some(ZERO);
    acts, s, n := SecondCommits();
    acts, s, n := Go(x, acts, s, n, ReceiveGrant(A));
    acts, s, n := Go(x, acts, s, n, Use(A, Access.Put(X, Value.Plain(2))));
    CellWrite(TWO, ZERO);
    assert n.a.session == BOTH && n.a.own == TWO;
    acts, s, n := Go(x, acts, s, n, CommitWrites(A, [X]));
    acts, s, n := Go(x, acts, s, n, Deliver(A));
  }

  const SECOND := HostTxn(A, 1, READ, 1, 0, TWO, BOTH)

  /** It commits although the value it read is gone. */
  lemma FirstCommits() returns (acts: seq<Action>, s: State, n: Snap)
    ensures Reaches(Some(ZERO), acts, s) && At(s, n)
    ensures n.log == [FIRST, SECOND]
  {
    hide Reaches, Run, At, EncodeWrites, Sendable, DecodeWrites;
    acts, s, n := FirstSends();
    FindIs(n.t.value, 1, 0);
    CellWrite(TWO, Value.Plain(1));
    acts, s, n := Go(Some(ZERO), acts, s, n, Process);
  }

  /** So a transaction whose upgrade had to wait need not be atomic: what its reads returned is not what direct
      access returns at its place in the serial order. */
  lemma WaitedUpgradeCommitsOnAStaleRead() returns (acts: seq<Action>, s: State)
    ensures Init(Start(Some(ZERO))) && Run(Start(Some(ZERO)), acts) == Next(s)
    ensures |s.hist.log| == 2 && s.hist.log[1] == SECOND
    ensures Replay(Start(Some(ZERO)).program, s.hist.log[..1]) == Some(ONE)
    ensures SECOND.session.values != DirectReads(ONE, SECOND.session.ops)
  {
    hide Run;
    var n;
    acts, s, n := FirstCommits();
    StartIs(Some(ZERO));
    var first := s.hist.log[..1];
    assert first == [FIRST] && first[..0] == [];
    assert map[X := ZERO] + ONE == ONE;
    var ops := BOTH.ops;
    assert ops[..1] == [Get(X)] && ops[..1][..0] == [];
    assert DirectReads(ONE, ops[..1]) == [] + [ReadAt(ONE + map[], X)];
    assert DirectReads(ONE, ops) == DirectReads(ONE, ops[..1]) + [];
    assert DirectReads(ONE, ops)[0] == Value.Plain(1);
  }
}
