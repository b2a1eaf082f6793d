/**
 The simulation-lock protocol as a step system: one lock server, any finite set of client hosts,
 FIFO channels both ways, the server's FIFO message queue and its main thread.

 Sources: src/component/activities.cpp (server), src/component/component.cpp (main thread),
 src/component/program.cpp and api/egcomponent/traits.hpp (clients and their copies),
 src/core/queue.cpp (message queue).
 */
module LockProtocol {
  import opened Prelude
  import opened LockTable
  import opened LockServer
  import opened WriteStream
  import opened Access

  /** The cells of the component and the types that both ends know. */
  datatype Schema = Schema(cells: set<Cell>, kinds: Kinds) {
    predicate Ok() {
      Roomy(kinds) && forall c :: c in cells ==> c.typeId in kinds
    }

    /** Something a simulation may write. */
    predicate Accepts(c: Cell, v: Value) {
      c in cells && c.typeId in kinds && Shaped(v, kinds[c.typeId])
    }
  }

  /**
   What the simulation of a host has done in a cycle and what it was given, kept as history: its accesses,
   the values its reads returned, and how many accesses and fetches came before its upgrade.
   */
  datatype Session = Session(ops: seq<Op>, values: seq<Value>, mark: nat, fetched: nat)

  /**
   Requests. `own`, `observed` and `session` are history: the writes the stream was made from, the values
   the sender has been given in this cycle, its session. They never influence what the server does.
   */
  datatype Request =
    | LockReq(write: bool, cycle: nat)
    | ReadReq(cell: Cell, cycle: nat)
    | WriteReq(cycle: nat, stream: seq<Token>, own: Store, observed: seq<Seen>, session: Session)
    | UnlockReq(cycle: nat, own: Store, observed: seq<Seen>, session: Session)

  datatype Response = Grant(cycle: nat) | Answer(cell: Cell, value: Value) | Refused

  datatype Event = StartToken | Msg(from: Addr, req: Request)

  /** A client blocks in every request except a write and an unlock (Program::readlock, read, writelock). */
  datatype Phase =
    | Idle
    | AwaitLock(write: bool)
    | Holding(write: bool)
    | AwaitValue(write: bool, cell: Cell)
    | AwaitUpgrade
    | Committed
    | Stuck(write: bool)

  datatype Host = Host(
    phase: Phase,
    cycle: nat,            // cycle number of the current, or when idle the last, transaction
    prev: nat,             // cycle number of the one before
    got: seq<Seen>,        // values received in this transaction
    copies: Store,         // local copies with their read bit set
    own: Store,            // the writes of this transaction
    up: seq<Request>,      // channel to the server
    down: seq<Response>,   // channel from the server
    // history
    session: Session,
    early: seq<Seen>,      // values the server gave before an upgrade that had to wait
    seen: seq<Seen>,       // values the server gave since
    point: nat,            // length of the log when that upgrade was put off
    logged: bool,          // the write of the transaction in progress has been applied
    finished: seq<nat>,    // cycle numbers of the unlocks handled
    asked: nat,            // lock requests sent
    sent: nat,             // grants issued by the server
    received: nat          // grants received
  )

  datatype Main = Jobs | Waiting | Running

  /** One entry of the serial history: a host's cycle, or something the main thread did. */
  datatype Txn =
    | HostTxn(host: Addr, cycle: nat, observed: seq<Seen>, early: nat, point: nat, writes: Store, session: Session)
    | MainTxn(program: Option<Store>)

  datatype GrantRecord = GrantRecord(to: Addr, round: nat, cycle: nat, write: bool)

  datatype History = History(
    initial: Option<Store>,
    log: seq<Txn>,
    grants: seq<GrantRecord>,
    round: nat,            // rounds released so far
    changes: nat,          // steps that changed the current lock in this round
    steady: bool           // a program has been loaded throughout and never replaced
  )

  datatype State = State(
    schema: Schema,
    server: Server,
    released: bool,        // m_bCurrentLockReleased
    main: Main,
    queue: seq<Event>,
    program: Option<Store>,
    clock: nat,
    hosts: map<Addr, Host>,
    hist: History
  )

  datatype Action =
    | BeginLock(a: Addr, write: bool, cycle: nat)
    | ReceiveGrant(a: Addr)
    | AskRead(a: Addr, cell: Cell)
    | ReceiveValue(a: Addr)
    | Upgrade(a: Addr)
    | Use(a: Addr, op: Op)
    | CommitWrites(a: Addr, order: seq<Cell>)
    | ReleaseLock(a: Addr)
    | Deliver(a: Addr)
    | Process
    | RunLoad(newProgram: Option<Store>, newClock: nat)
    | RunConfig(store: Store)
    | EnterWait
    | SkipWait
    | Wake
    | Simulate(store: Store)

  datatype Outcome = Next(state: State) | Disabled | Crash

  // ---- Client steps ----

  function WithHost(s: State, a: Addr, h: Host): State {
    s.(hosts := s.hosts[a := h])
  }

  function Send(h: Host, r: Request): Host {
    h.(up := h.up + [r])
  }

  /** A step of one client, which sees only its own state and channels. */
  function HostStep(h: Host, act: Action, schema: Schema): Option<Host>
    requires IsClient(act)
  {
    match act
    case BeginLock(_, write, cycle) =>
      // readlock or writelock as the first lock of a cycle
      if h.phase == Idle && cycle != h.cycle then
        Some(Send(h, LockReq(write, cycle)).(
          phase := AwaitLock(write), cycle := cycle, prev := h.cycle, asked := h.asked + 1,
          got := [], copies := map[], own := map[], session := Session([], [], 0, 0)))
      else None
    case ReceiveGrant(_) =>
      if (h.phase.AwaitLock? || h.phase.AwaitUpgrade?) && h.down != [] && h.down[0].Grant? then
        Some(h.(phase := Holding(h.phase.AwaitUpgrade? || h.phase.write), down := h.down[1..],
          received := h.received + 1))
      else None
    case AskRead(_, cell) =>
      // a cell without its read bit is fetched
      if h.phase.Holding? && cell in schema.cells && cell !in h.copies then
        Some(Send(h, ReadReq(cell, h.cycle)).(phase := AwaitValue(h.phase.write, cell)))
      else None
    case ReceiveValue(_) =>
      if h.phase.AwaitValue? && h.down != [] && h.down[0].Answer? then
        Some(h.(phase := Holding(h.phase.write), down := h.down[1..],
                got := h.got + [Seen(h.phase.cell, h.down[0].value)],
                copies := h.copies[h.phase.cell := h.down[0].value]))
      else if h.phase.AwaitValue? && h.down != [] && h.down[0].Refused? then
        // an error reply is logged and the client goes on waiting for a response
        Some(h.(phase := Stuck(h.phase.write), down := h.down[1..]))
      else None
    case Upgrade(_) =>
      // writelock after readlock in the same cycle
      if h.phase == Holding(false) then
        Some(Send(h, LockReq(true, h.cycle)).(
          phase := AwaitUpgrade, asked := h.asked + 1,
          session := h.session.(mark := |h.session.ops|, fetched := |h.got|)))
      else None
    case Use(_, op) =>
      // the simulation reads a copy, or writes one and has it recorded in the write set
      if h.phase.Holding? && op.Get? && op.cell in h.copies then
        Some(h.(session := h.session.(ops := h.session.ops + [op], values := h.session.values + [h.copies[op.cell]])))
      else if h.phase == Holding(true) && op.Put? && schema.Accepts(op.cell, op.value) then
        Some(h.(copies := h.copies[op.cell := op.value], own := h.own[op.cell := op.value],
                session := h.session.(ops := h.session.ops + [op])))
      else None
    case CommitWrites(_, order) =>
      // completeSimulationLocks, the write set in some order
      if h.phase == Holding(true) && CellSet(order) == h.own.Keys && Sendable(order, h.own, schema.kinds) then
        var stream := EncodeWrites(order, h.own, schema.kinds);
        Some(Send(h, WriteReq(h.cycle, stream, h.own, h.got, h.session)).(phase := Committed))
      else None
    case ReleaseLock(_) =>
      // releaseLocks
      if h.phase == Holding(false) || h.phase == Committed then
        Some(Send(h, UnlockReq(h.cycle, h.own, h.got, h.session)).(phase := Idle))
      else None
  }

  predicate IsClient(act: Action) {
    act.BeginLock? || act.ReceiveGrant? || act.AskRead? || act.ReceiveValue? || act.Upgrade?
    || act.Use? || act.CommitWrites? || act.ReleaseLock?
  }

  function ClientStep(s: State, act: Action): Outcome
    requires IsClient(act)
  {
    if act.a !in s.hosts then Disabled
    else
      match HostStep(s.hosts[act.a], act, s.schema)
      case None => Disabled
      case Some(h) => Next(WithHost(s, act.a, h))
  }

  function DeliverStep(s: State, a: Addr): Outcome {
    if a in s.hosts && s.hosts[a].up != [] then
      var h := s.hosts[a];
      Next(WithHost(s, a, h.(up := h.up[1..])).(queue := s.queue + [Msg(a, h.up[0])]))
    else Disabled
  }

  // ---- Server steps ----

  /** Send a response to every address; an address nobody has is dropped. */
  function Push(hosts: map<Addr, Host>, grants: seq<Addr>, r: Response): map<Addr, Host> {
    if grants == [] then hosts
    else
      var g := grants[0];
      Push(if g in hosts then hosts[g := hosts[g].(down := hosts[g].down + [r], sent := hosts[g].sent + 1)] else hosts,
           grants[1..], r)
  }

  predicate IsWriting(sv: Server, host: nat) {
    var v := ViewOf(sv, host);
    v.Granted? && v.write
  }

  /** The grants a handler sent, each with the mode the server now holds for its host. */
  function Records(grants: seq<Addr>, sv: Server, round: nat, cycle: nat): seq<GrantRecord> {
    seq(|grants|, i requires 0 <= i < |grants| => GrantRecord(grants[i], round, cycle, IsWriting(sv, grants[i].host)))
  }

  /** Component::getCurrentCycle: the program's clock, or 0 without a program. */
  function Now(s: State): nat {
    if s.program.Some? then s.clock else 0
  }

  function Changes(s: State, r: Handled): nat
    requires r.Done?
  {
    if r.released then 0
    else if r.server.current == s.server.current then s.hist.changes
    else s.hist.changes + 1
  }

  /** The effects of a lock handler: new locks, grants sent, the released flag. */
  function Settle(s: State, r: Handled): State
    requires r.Done?
  {
    s.(server := r.server,
       hosts := Push(s.hosts, r.grants, Grant(Now(s))),
       released := s.released || r.released,
       hist := s.hist.(grants := s.hist.grants + Records(r.grants, r.server, s.hist.round, Now(s)),
                       round := if r.released then s.hist.round + 1 else s.hist.round,
                       changes := Changes(s, r)))
  }

  /** History of a host whose lock request has been handled. */
  function LockRecorded(h: Host, v: View, granted: bool, point: nat): Host {
    if v.Out? then h.(early := [], seen := [])
    else if granted then h
    else h.(early := h.early + h.seen, seen := [], point := point)
  }

  function HandleLock(s: State, a: Addr, write: bool, cycle: nat): Outcome
    requires a in s.hosts
  {
    var r := OnLock(s.server, a, cycle, write);
    if r.Thrown? then Crash
    else
      var h := LockRecorded(s.hosts[a], ViewOf(s.server, a.host), a in r.grants, |s.hist.log|);
      Next(Settle(WithHost(s, a, h), r))
  }

  function Finish(h: Host, cycle: nat): Host {
    h.(early := [], seen := [], logged := false, finished := h.finished + [cycle])
  }

  function HandleUnlock(s: State, a: Addr, cycle: nat, observed: seq<Seen>, session: Session): Outcome
    requires a in s.hosts
  {
    var r := OnUnlock(s.server, a, cycle);
    if r.Thrown? then Crash
    else
      var v := ViewOf(s.server, a.host);
      var h := s.hosts[a];
      var s1 := Settle(WithHost(s, a, Finish(h, cycle)), r);
      // a reader's transaction takes effect here, a writer's did when its write was applied
      if v.Granted? && !v.write then
        Next(s1.(hist := s1.hist.(log := s1.hist.log + [HostTxn(a, cycle, observed, 0, 0, map[], session)])))
      else Next(s1)
  }

  function HandleRead(s: State, a: Addr, cell: Cell): Outcome
    requires a in s.hosts
  {
    var r := OnAccess(s.server, a, false);
    if r.Thrown? then Crash
    else
      var h := s.hosts[a];
      var s1 := s.(server := r.server);
      if s.program.None? then Next(WithHost(s1, a, h.(down := h.down + [Refused])))
      else if cell !in s.program.value then Crash
      else
        var x := s.program.value[cell];
        Next(WithHost(s1, a, h.(down := h.down + [Answer(cell, x)], seen := h.seen + [Seen(cell, x)])))
  }

  /** The generated decodeWriteRequest on the loaded program; None is its throw. */
  function Decoded(program: Option<Store>, stream: seq<Token>, kinds: Kinds): Option<Option<Store>> {
    if program.None? then Some(None)
    else
      match DecodeWrites(stream, kinds, program.value)
      case None => None
      case Some(now) => Some(Some(now))
  }

  function HandleWrite(s: State, a: Addr, req: Request): Outcome
    requires a in s.hosts && req.WriteReq?
  {
    var r := OnAccess(s.server, a, true);
    var d := Decoded(s.program, req.stream, s.schema.kinds);
    if r.Thrown? || d.None? then Crash
    else
      var h := s.hosts[a];
      var t := HostTxn(a, req.cycle, req.observed, |h.early|, h.point, req.own, req.session);
      var s1 := s.(server := r.server, program := d.value, hist := s.hist.(log := s.hist.log + [t]));
      Next(WithHost(s1, a, h.(early := [], seen := [], logged := true)))
  }

  function ProcessStep(s: State): Outcome {
    if s.queue == [] then Disabled
    else
      var s1 := s.(queue := s.queue[1..]);
      match s.queue[0]
      case StartToken =>
        var r := OnStart(s.server);
        if r.Thrown? then Crash else Next(Settle(s1, r))
      case Msg(a, req) =>
        if a !in s.hosts then Crash
        else
          match req
          case LockReq(write, cycle) => HandleLock(s1, a, write, cycle)
          case UnlockReq(cycle, _, observed, session) => HandleUnlock(s1, a, cycle, observed, session)
          case ReadReq(cell, cycle) => HandleRead(s1, a, cell)
          case WriteReq(_, _, _, _, _) => HandleWrite(s1, a, req)
  }

  // ---- Main-thread steps: runAllJobs, the hand-shake of runCycle, the simulation ----

  function MainStep(s: State, act: Action): Outcome
    requires act.RunLoad? || act.RunConfig? || act.EnterWait? || act.SkipWait? || act.Wake? || act.Simulate?
  {
    match act
    case RunLoad(program, clock) =>
      if s.main == Jobs && (program.Some? ==> program.value.Keys == s.schema.cells) then
        Next(s.(program := program, clock := clock,
                hist := s.hist.(log := s.hist.log + [MainTxn(program)], steady := false)))
      else Disabled
    case RunConfig(store) =>
      if s.main == Jobs && s.program.Some? && store.Keys == s.schema.cells then
        Next(s.(program := Some(store), hist := s.hist.(log := s.hist.log + [MainTxn(Some(store))])))
      else Disabled
    case EnterWait =>
      if s.main == Jobs && s.server.current.Some? then
        Next(s.(main := Waiting, released := false, queue := s.queue + [StartToken]))
      else Disabled
    case SkipWait =>
      if s.main == Jobs && s.server.current.None? then Next(s.(main := Running)) else Disabled
    case Wake =>
      if s.main == Waiting && s.released then Next(s.(main := Running)) else Disabled
    case Simulate(store) =>
      if s.main != Running then Disabled
      else if s.program.None? then Next(s.(main := Jobs))
      else if store.Keys == s.schema.cells then
        Next(s.(main := Jobs, program := Some(store), clock := s.clock + 1,
                hist := s.hist.(log := s.hist.log + [MainTxn(Some(store))])))
      else Disabled
  }

  function Step(s: State, act: Action): Outcome {
    match act
    case Deliver(a) => DeliverStep(s, a)
    case Process => ProcessStep(s)
    case RunLoad(_, _) => MainStep(s, act)
    case RunConfig(_) => MainStep(s, act)
    case EnterWait => MainStep(s, act)
    case SkipWait => MainStep(s, act)
    case Wake => MainStep(s, act)
    case Simulate(_) => MainStep(s, act)
    case _ => ClientStep(s, act)
  }

  // ---- Runs ----

  predicate UniqueHosts(hosts: map<Addr, Host>) {
    forall a, b :: a in hosts && b in hosts && a.host == b.host ==> a == b
  }

  /** Nothing asked, nothing held, nothing in flight. Host numbers are distinct across coordinators. */
  predicate Init(s: State) {
    && s.server == Server(None, None) && s.main == Jobs && s.queue == []
    && s.schema.Ok() && (s.program.Some? ==> s.program.value.Keys == s.schema.cells)
    && UniqueHosts(s.hosts)
    && (forall a :: a in s.hosts ==>
          var h := s.hosts[a];
          h == Host(Idle, h.cycle, h.prev, [], map[], map[], [], [], Session([], [], 0, 0), [], [], 0, false, [], 0,
            0, 0))
    && s.hist == History(s.program, [], [], 0, 0, s.program.Some?)
  }

  /** The state after a sequence of actions, unless one was disabled or reached a throw. */
  function Run(s: State, acts: seq<Action>): Outcome {
    if acts == [] then Next(s)
    else
      match Run(s, acts[..|acts| - 1])
      case Next(m) => Step(m, acts[|acts| - 1])
      case Disabled => Disabled
      case Crash => Crash
  }

  // ---- The serial history ----

  function Apply(program: Option<Store>, writes: Store): Option<Store> {
    if program.Some? then Some(program.value + writes) else None
  }

  function ApplyTxn(program: Option<Store>, t: Txn): Option<Store> {
    match t
    case HostTxn(_, _, _, _, _, writes, _) => Apply(program, writes)
    case MainTxn(p) => p
  }

  /** The store after applying transactions one after another. */
  function Replay(initial: Option<Store>, log: seq<Txn>): Option<Store> {
    if log == [] then initial
    else ApplyTxn(Replay(initial, log[..|log| - 1]), log[|log| - 1])
  }

  /** The program's store holds this value. */
  predicate Current(x: Seen, program: Option<Store>) {
    program.Some? && x.cell in program.value && program.value[x.cell] == x.value
  }

  predicate Fresh(seen: seq<Seen>, program: Option<Store>) {
    forall i :: 0 <= i < |seen| ==> Current(seen[i], program)
  }

  /** What the transaction saw since its last waited upgrade is what the serial order gives it. */
  predicate Consistent(t: Txn, before: Option<Store>) {
    t.HostTxn? ==> t.early <= |t.observed| && Fresh(t.observed[t.early..], before)
  }

  predicate Serial(initial: Option<Store>, log: seq<Txn>) {
    forall i :: 0 <= i < |log| ==> Consistent(log[i], Replay(initial, log[..i]))
  }
}
