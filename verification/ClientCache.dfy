/**
 The client side of a transaction: the cached readlock and writelock of api/egcomponent/traits.hpp:269-320,
 the generated completeSimulationLocks (src/generators/generator.cpp:897-924) and the lock bookkeeping of
 Program (src/component/program.cpp:177-194, 228, 333, 383-387). For every component it uses, a client is a
 host of LockProtocol: whatever it does is a script of steps of that host, and they are all possible.
 */
module ClientCache {
  import opened Prelude
  import opened ReadLayout
  import opened WriteStream
  import opened Access
  import opened LockProtocol
  import opened LockScripts
  import opened LockSessions

  type Locks = set<(nat, bool)>

  /** What the generator knows: the remote cells, their read-bit bases, owners and types. */
  datatype Layout = Layout(
    cells: set<Cell>, bases: map<nat, nat>, buffers: seq<Buffer>, total: nat, owner: map<nat, nat>, kinds: Kinds)
  {
    ghost predicate Ok() {
      && Tiles(bases, buffers, total) && Roomy(kinds)
      && forall c :: c in cells ==> InLayout(bases, buffers, c) && c.typeId in owner && c.typeId in kinds
    }

    function Bit(c: Cell): nat
      requires c.typeId in bases
    {
      bases[c.typeId] + c.instance
    }

    /** The remote root a cell belongs to. */
    function Root(c: Cell): nat {
      if c.typeId in owner then owner[c.typeId] else 0
    }

    function SchemaOf(r: nat): Schema {
      Schema((set c | c in cells && Root(c) == r), kinds)
    }

    predicate Allows(op: Op) {
      op.cell in cells && (op.Put? ==> SchemaOf(Root(op.cell)).Accepts(op.cell, op.value))
    }

    function LockOf(op: Op): (nat, bool) {
      (Root(op.cell), op.Put?)
    }
  }

  predicate Held(locks: Locks, r: nat) {
    (r, false) in locks || (r, true) in locks
  }

  function PhaseOf(locks: Locks, r: nat): Phase {
    if (r, true) in locks then Holding(true) else if (r, false) in locks then Holding(false) else Idle
  }

  /** A component is never read for the first time in a cycle after it has been write locked. */
  predicate Disciplined(locks: Locks, ops: seq<Op>, l: Layout)
    decreases |ops|
  {
    if ops == [] then true
    else
      var r := l.Root(ops[0].cell);
      (ops[0].Get? && (r, true) in locks ==> (r, false) in locks)
        && Disciplined(locks + {l.LockOf(ops[0])}, ops[1..], l)
  }

  // ---- One component's part of the accesses ----

  function OpsOn(ops: seq<Op>, l: Layout, r: nat): seq<Op> {
    if ops == [] then []
    else
      var last := ops[|ops| - 1];
      OpsOn(ops[..|ops| - 1], l, r) + (if l.Root(last.cell) == r then [last] else [])
  }

  /** What the reads of one component returned; a write returns nothing. */
  function ValuesOn(ops: seq<Op>, results: seq<Option<Value>>, l: Layout, r: nat): seq<Value>
    requires |results| == |ops|
  {
    if ops == [] then []
    else
      var n := |ops| - 1;
      ValuesOn(ops[..n], results[..n], l, r)
        + (if l.Root(ops[n].cell) == r && results[n].Some? then [results[n].value] else [])
  }

  function LocksOf(ops: seq<Op>, l: Layout): Locks {
    set op | op in ops :: l.LockOf(op)
  }

  lemma PartsAppend(ops: seq<Op>, results: seq<Option<Value>>, op: Op, result: Option<Value>, l: Layout, r: nat)
    requires |results| == |ops|
    ensures OpsOn(ops + [op], l, r) == OpsOn(ops, l, r) + (if l.Root(op.cell) == r then [op] else [])
    ensures ValuesOn(ops + [op], results + [result], l, r) ==
            ValuesOn(ops, results, l, r) + (if l.Root(op.cell) == r && result.Some? then [result.value] else [])
    ensures LocksOf(ops + [op], l) == LocksOf(ops, l) + {l.LockOf(op)}
  {
    assert (ops + [op])[..|ops + [op]| - 1] == ops;
    assert (results + [result])[..|ops + [op]| - 1] == results;
  }

  predicate HasPut(ops: seq<Op>) {
    exists i :: 0 <= i < |ops| && ops[i].Put?
  }

  lemma HasPutAppend(ops: seq<Op>, op: Op)
    ensures HasPut(ops + [op]) <==> HasPut(ops) || op.Put?
  {
    var all := ops + [op];
    if i :| 0 <= i < |ops| && ops[i].Put? { assert all[i] == ops[i]; }
    assert all[|ops|] == op;
  }

  lemma {:induction false} OpsOnSome(ops: seq<Op>, l: Layout, r: nat)
    ensures Held(LocksOf(ops, l), r) <==> OpsOn(ops, l, r) != []
    ensures (r, true) in LocksOf(ops, l) <==> HasPut(OpsOn(ops, l, r))
  {
    if ops != [] {
      hide LocksOf, OpsOn, HasPut;
      var n := |ops| - 1;
      OpsOnSome(ops[..n], l, r);
      assert ops == ops[..n] + [ops[n]];
      PartsAppend(ops[..n], seq(n, _ => None), ops[n], None, l, r);
      var fore := OpsOn(ops[..n], l, r);
      assert fore + [] == fore;
      HasPutAppend(fore, ops[n]);
    }
  }

  // ---- The copies of a client and the host it is to one component ----

  /** The bits and copies of a client. */
  datatype Copies = Copies(locks: Locks, bits: set<nat>, fields: Store)

  /** A read bit means a copy that is the host's. */
  predicate CellLinked(l: Layout, k: Copies, held: bool, h: Host, c: Cell)
    requires c.typeId in l.bases
  {
    && (l.Bit(c) in k.bits <==> held && c in h.copies)
    && (l.Bit(c) in k.bits ==> c in k.fields && k.fields[c] == h.copies[c])
  }

  ghost predicate CellsLinked(l: Layout, k: Copies, h: Host, r: nat)
    requires l.Ok()
  {
    forall c :: c in l.cells && l.Root(c) == r ==> CellLinked(l, k, Held(k.locks, r), h, c)
  }

  /** Own writes are copies, under a write lock, with values the component takes. */
  predicate OwnLinked(l: Layout, locks: Locks, written: set<Cell>, h: Host, r: nat) {
    && written == (if (r, true) in locks then h.own.Keys else {})
    && (Held(locks, r) && (r, true) !in locks ==> h.own == map[])
    && (Held(locks, r) ==> forall c :: c in h.own ==>
          l.SchemaOf(r).Accepts(c, h.own[c]) && c in h.copies && h.copies[c] == h.own[c])
  }

  ghost predicate Linked(l: Layout, k: Copies, written: set<Cell>, cycle: nat, h: Host, r: nat)
    requires l.Ok()
  {
    && h.phase == PhaseOf(k.locks, r) && h.down == []
    && (if Held(k.locks, r) then h.cycle == cycle else h.cycle < cycle)
    && CellsLinked(l, k, h, r)
    && OwnLinked(l, k.locks, written, h, r)
  }

  /** The same call in the same cycle. */
  predicate SameCall(a: Request, b: Request) {
    a.cycle == b.cycle &&
    match a
    case LockReq(write, _) => b == a
    case ReadReq(cell, _) => b == a
    case WriteReq(_, _, _, _, _) => b.WriteReq?
    case UnlockReq(_, _, _, _) => b.UnlockReq?
  }

  /** In no cycle is a lock or a value asked for twice, or anything written or unlocked twice. */
  predicate Thrifty(up: seq<Request>) {
    forall i, j :: 0 <= i < j < |up| ==> !SameCall(up[i], up[j])
  }

  /** What has been sent in this cycle has left its lock bit or its copy. */
  predicate Accounted(req: Request, locks: Locks, cycle: nat, h: Host, r: nat) {
    && req.cycle <= cycle
    && (req.cycle == cycle ==>
          || (req.LockReq? && (r, req.write) in locks)
          || (req.ReadReq? && Held(locks, r) && req.cell in h.copies))
  }

  predicate Sparing(locks: Locks, cycle: nat, h: Host, r: nat) {
    Thrifty(h.up) && forall i :: 0 <= i < |h.up| ==> Accounted(h.up[i], locks, cycle, h, r)
  }

  ghost predicate Kept(l: Layout, k: Copies, written: set<Cell>, cycle: nat, h: Host, r: nat)
    requires l.Ok()
  {
    Linked(l, k, written, cycle, h, r) && Sparing(k.locks, cycle, h, r)
  }

  // ---- What a completed call does to the host ----

  function LockTurns(me: Addr, h: Host, write: bool, cycle: nat, now: nat): seq<Turn> {
    [Act(if h.phase == Idle then BeginLock(me, write, cycle) else Upgrade(me)), Arrive(Grant(now)),
      Act(ReceiveGrant(me))]
  }

  function LockedHost(h: Host, write: bool, cycle: nat): Host {
    var n := h.(phase := Holding(write), asked := h.asked + 1, received := h.received + 1,
      up := h.up + [LockReq(write, cycle)]);
    if h.phase == Idle then
      n.(cycle := cycle, prev := h.cycle, got := [], copies := map[], own := map[], session := Session([], [], 0, 0))
    else n.(session := h.session.(mark := |h.session.ops|, fetched := |h.got|))
  }

  lemma PlayThree(h: Host, a: Turn, b: Turn, c: Turn, schema: Schema)
    requires PlayTurn(h, a, schema).Some? && PlayTurn(PlayTurn(h, a, schema).value, b, schema).Some?
    ensures Play(h, [a, b, c], schema) == PlayTurn(PlayTurn(PlayTurn(h, a, schema).value, b, schema).value, c, schema)
  {
    hide PlayTurn;
    PlayMore(h, [], a, schema);
    assert [] + [a] == [a] && [a] + [b] == [a, b] && [a, b] + [c] == [a, b, c];
    PlayMore(h, [a], b, schema);
    PlayMore(h, [a, b], c, schema);
  }

  lemma PlayOne(h: Host, a: Turn, schema: Schema)
    ensures Play(h, [a], schema) == PlayTurn(h, a, schema)
  {
    hide PlayTurn;
    PlayMore(h, [], a, schema);
    assert [] + [a] == [a];
  }

  lemma LockPlays(me: Addr, h: Host, write: bool, cycle: nat, now: nat, schema: Schema)
    requires h.down == []
    requires (h.phase == Idle && cycle != h.cycle) || (h.phase == Holding(false) && write && h.cycle == cycle)
    ensures Play(h, LockTurns(me, h, write, cycle, now), schema) == Some(LockedHost(h, write, cycle))
  {
    var turns := LockTurns(me, h, write, cycle, now);
    assert (h.down + [Grant(now)])[1..] == h.down;
    PlayThree(h, turns[0], turns[1], turns[2], schema);
  }

  lemma LockKeeps(l: Layout, k: Copies, written: set<Cell>, cycle: nat, h: Host, r: nat, write: bool)
    requires l.Ok() && Kept(l, k, written, cycle, h, r)
    requires (r, write) !in k.locks && (!write ==> (r, true) !in k.locks)
    ensures Kept(l, k.(locks := k.locks + {(r, write)}), written, cycle, LockedHost(h, write, cycle), r)
    ensures h.down == []
    ensures (h.phase == Idle && cycle != h.cycle) || (h.phase == Holding(false) && write && h.cycle == cycle)
  {
  }

  function FetchTurns(me: Addr, c: Cell, v: Value): seq<Turn> {
    [Act(AskRead(me, c)), Arrive(Answer(c, v)), Act(ReceiveValue(me))]
  }

  function FetchedHost(h: Host, c: Cell, v: Value): (n: Host)
    ensures n.session == h.session
  {
    h.(up := h.up + [ReadReq(c, h.cycle)], got := h.got + [Seen(c, v)], copies := h.copies[c := v])
  }

  lemma FetchPlays(me: Addr, h: Host, c: Cell, v: Value, schema: Schema)
    requires h.phase.Holding? && h.down == [] && c in schema.cells && c !in h.copies
    ensures Play(h, FetchTurns(me, c, v), schema) == Some(FetchedHost(h, c, v))
  {
    var turns := FetchTurns(me, c, v);
    assert (h.down + [Answer(c, v)])[1..] == h.down;
    PlayThree(h, turns[0], turns[1], turns[2], schema);
  }

  lemma FetchKeeps(l: Layout, k: Copies, written: set<Cell>, cycle: nat, h: Host, c: Cell, v: Value)
    requires l.Ok() && c in l.cells && Kept(l, k, written, cycle, h, l.Root(c))
    requires Held(k.locks, l.Root(c)) && l.Bit(c) !in k.bits
    ensures Kept(l, k.(bits := k.bits + {l.Bit(c)}, fields := k.fields[c := v]), written, cycle,
            FetchedHost(h, c, v), l.Root(c))
    ensures c !in h.copies
  {
    assert CellLinked(l, k, true, h, c);
    var k1, n := k.(bits := k.bits + {l.Bit(c)}, fields := k.fields[c := v]), FetchedHost(h, c, v);
    forall d | d in l.cells && l.Root(d) == l.Root(c) ensures CellLinked(l, k1, true, n, d) {
      assert CellLinked(l, k, true, h, d);
      BitsAreDistinct(l.bases, l.buffers, l.total, c, d);
    }
  }

  function UsedHost(h: Host, op: Op): Host
    requires op.Get? ==> op.cell in h.copies
  {
    if op.Get? then
      h.(session := h.session.(ops := h.session.ops + [op], values := h.session.values + [h.copies[op.cell]]))
    else
      h.(copies := h.copies[op.cell := op.value], own := h.own[op.cell := op.value],
         session := h.session.(ops := h.session.ops + [op]))
  }

  lemma PutKeeps(l: Layout, k: Copies, written: set<Cell>, cycle: nat, h: Host, c: Cell, v: Value)
    requires l.Ok() && c in l.cells && l.SchemaOf(l.Root(c)).Accepts(c, v) && Kept(l, k, written, cycle, h, l.Root(c))
    requires (l.Root(c), true) in k.locks
    ensures Kept(l, k.(bits := k.bits + {l.Bit(c)}, fields := k.fields[c := v]), written + {c}, cycle,
                 UsedHost(h, Op.Put(c, v)), l.Root(c))
  {
    var k1, n := k.(bits := k.bits + {l.Bit(c)}, fields := k.fields[c := v]), UsedHost(h, Op.Put(c, v));
    forall d | d in l.cells && l.Root(d) == l.Root(c) ensures CellLinked(l, k1, true, n, d) {
      assert CellLinked(l, k, true, h, d);
      BitsAreDistinct(l.bases, l.buffers, l.total, c, d);
    }
  }

  /** Other components are not touched by a lock on one, or by one of its cells. */
  lemma OthersKeep(l: Layout, k: Copies, written: set<Cell>, cycle: nat, h: Host, q: nat, r: nat, write: bool)
    requires l.Ok() && Kept(l, k, written, cycle, h, q) && q != r
    ensures Kept(l, k.(locks := k.locks + {(r, write)}), written, cycle, h, q)
  {
    var n := k.(locks := k.locks + {(r, write)});
    assert Held(n.locks, q) == Held(k.locks, q);
    forall d | d in l.cells && l.Root(d) == q ensures CellLinked(l, n, Held(n.locks, q), h, d) {
      assert CellLinked(l, k, Held(k.locks, q), h, d);
    }
  }

  lemma OthersKeepCells(l: Layout, k: Copies, written: set<Cell>, cycle: nat, h: Host, q: nat, c: Cell, v: Value)
    requires l.Ok() && Kept(l, k, written, cycle, h, q) && c in l.cells && q != l.Root(c)
    ensures Kept(l, k.(bits := k.bits + {l.Bit(c)}, fields := k.fields[c := v]), written, cycle, h, q)
  {
    var n := k.(bits := k.bits + {l.Bit(c)}, fields := k.fields[c := v]);
    forall d | d in l.cells && l.Root(d) == q ensures CellLinked(l, n, Held(n.locks, q), h, d) {
      assert CellLinked(l, k, Held(k.locks, q), h, d);
      BitsAreDistinct(l.bases, l.buffers, l.total, c, d);
    }
  }

  // ---- The end of a cycle ----

  /** The host after its writes have been sent, if it holds the write lock. */
  ghost predicate Sent(h: Host, n: Host, kinds: Kinds) {
    if h.phase == Holding(true) then
      && |n.up| == |h.up| + 1 && n == h.(phase := Committed, up := h.up + [n.up[|h.up|]])
      && var w := n.up[|h.up|];
         w.WriteReq? && w == WriteReq(h.cycle, w.stream, h.own, h.got, h.session) && Carries(w.stream, h.own, kinds)
    else n == h
  }

  function ReleasedHost(h: Host): Host {
    h.(phase := Idle, up := h.up + [UnlockReq(h.cycle, h.own, h.got, h.session)])
  }

  /** What is sent at the end of a cycle is sent for the first time; then the cycle number moves on. */
  lemma ClosedKeeps(l: Layout, k: Copies, written: set<Cell>, cycle: nat, h: Host, m: Host, r: nat, fields: Store)
    requires l.Ok() && Kept(l, k, written, cycle, h, r) && Sent(h, m, l.kinds) && Held(k.locks, r)
    ensures Kept(l, Copies({}, {}, fields), {}, cycle + 1, ReleasedHost(m), r)
  {
    SentThrifty(k.locks, cycle, h, m, l.kinds, r);
    var n := ReleasedHost(m);
    assert forall i :: 0 <= i < |m.up| ==> n.up[i] == m.up[i];
  }

  lemma SentThrifty(locks: Locks, cycle: nat, h: Host, m: Host, kinds: Kinds, r: nat)
    requires Sparing(locks, cycle, h, r) && Sent(h, m, kinds) && h.cycle == cycle
    ensures Thrifty(m.up) && forall i :: 0 <= i < |m.up| ==>
            m.up[i].cycle <= cycle && (m.up[i].cycle == cycle ==> !m.up[i].UnlockReq?)
  {
    assert forall i :: 0 <= i < |h.up| ==> m.up[i] == h.up[i];
  }

  /** A component that was left alone. */
  lemma IdleKeeps(l: Layout, k: Copies, written: set<Cell>, cycle: nat, h: Host, r: nat, fields: Store)
    requires l.Ok() && Kept(l, k, written, cycle, h, r) && !Held(k.locks, r)
    ensures Kept(l, Copies({}, {}, fields), {}, cycle + 1, h, r)
  {
  }

  lemma CarriesOwn(l: Layout, h: Host, r: nat, order: seq<Cell>)
    requires Roomy(l.kinds) && Sendable(order, h.own, l.kinds) && CellSet(order) == h.own.Keys
    ensures Carries(EncodeWrites(order, h.own, l.kinds), h.own, l.kinds)
  {
    forall onto ensures DecodeWrites(EncodeWrites(order, h.own, l.kinds), l.kinds, onto) == Some(onto + h.own) {
      RoomyStream(order, h.own, l.kinds, onto);
    }
  }

  /** Encoding from the copies is encoding the own writes. */
  lemma {:induction false} SameStream(order: seq<Cell>, fields: Store, own: Store, kinds: Kinds)
    requires Sendable(order, fields, kinds)
    requires forall c :: c in order ==> c in own && own[c] == fields[c]
    ensures Sendable(order, own, kinds) && EncodeWrites(order, own, kinds) == EncodeWrites(order, fields, kinds)
  {
    if order != [] {
      SameStream(order[1..], fields, own, kinds);
    }
  }

  const FRESH := Host(Idle, 0, 0, [], map[], map[], [], [], Session([], [], 0, 0), [], [], 0, false, [], 0, 0, 0)

  lemma {:induction false} PlayRemembers(h: Host, script: seq<Turn>, schema: Schema)
    requires Remembers(h, schema.cells) && Play(h, script, schema).Some?
    ensures Remembers(Play(h, script, schema).value, schema.cells)
  {
    hide Remembers, HostStep;
    if script != [] {
      var n := |script| - 1;
      PlayRemembers(h, script[..n], schema);
      var m := Play(h, script[..n], schema).value;
      if script[n].Act? {
        ClientRemembers(m, script[n].act, schema);
      } else {
        ArriveRemembers(m, script[n].response, schema.cells);
      }
    }
  }

  lemma ArriveRemembers(h: Host, response: Response, cells: set<Cell>)
    requires Remembers(h, cells)
    ensures Remembers(h.(down := h.down + [response]), cells)
  {
  }

  lemma FreshRemembers(cells: set<Cell>)
    ensures Remembers(FRESH, cells)
  {
    assert AsStore([]) == map[];
  }

  /** The writes of a write-locked component can be encoded from the copies. */
  lemma WritesShaped(l: Layout, k: Copies, written: set<Cell>, cycle: nat, h: Host, r: nat)
    requires l.Ok() && Kept(l, k, written, cycle, h, r) && (r, true) in k.locks
    ensures h.phase == Holding(true) && h.cycle == cycle && written == h.own.Keys
    ensures AllShaped(written, k.fields, l.kinds) && AllSendable(written, k.fields, l.kinds)
    ensures forall c :: c in written ==> k.fields[c] == h.own[c]
  {
    forall c | c in written
      ensures c in k.fields && k.fields[c] == h.own[c] && c.typeId in l.kinds && Shaped(k.fields[c], l.kinds[c.typeId])
    {
      assert CellLinked(l, k, true, h, c);
    }
    forall c | c in written ensures SendableCell(c, k.fields, l.kinds) {
      RoomyArrives(l.kinds, c.typeId, k.fields[c]);
    }
  }

  lemma CommitPlays(l: Layout, me: Addr, h: Host, fields: Store, order: seq<Cell>, stream: seq<Token>, r: nat)
    requires Roomy(l.kinds) && h.phase == Holding(true) && CellSet(order) == h.own.Keys
    requires Sendable(order, fields, l.kinds) && stream == EncodeWrites(order, fields, l.kinds)
    requires forall c :: c in h.own ==> c in fields && fields[c] == h.own[c]
    ensures var n := h.(phase := Committed, up := h.up + [WriteReq(h.cycle, stream, h.own, h.got, h.session)]);
            Play(h, [Act(CommitWrites(me, order))], l.SchemaOf(r)) == Some(n) && Sent(h, n, l.kinds)
  {
    forall c | c in order ensures c in h.own && h.own[c] == fields[c] {
      assert c in CellSet(order);
    }
    SameStream(order, fields, h.own, l.kinds);
    CarriesOwn(l, h, r, order);
    PlayOne(h, Act(CommitWrites(me, order)), l.SchemaOf(r));
  }

  // ---- All components together ----

  function WrittenTo(writeSets: map<nat, set<Cell>>, r: nat): set<Cell> {
    if r in writeSets then writeSets[r] else {}
  }

  ghost predicate AllKept(l: Layout, k: Copies, writeSets: map<nat, set<Cell>>, cycle: nat, hosts: map<nat, Host>) {
    l.Ok() && forall r :: r in hosts ==> Kept(l, k, WrittenTo(writeSets, r), cycle, hosts[r], r)
  }

  /** Everything done towards a component is a script of steps that its host can take. */
  predicate AllPlayed(l: Layout, hosts: map<nat, Host>, scripts: map<nat, seq<Turn>>) {
    && scripts.Keys == hosts.Keys
    && forall r :: r in hosts ==> Play(FRESH, scripts[r], l.SchemaOf(r)) == Some(hosts[r])
  }

  ghost predicate Rooted(l: Layout, locks: Locks, componentLocks: set<nat>, roots: set<nat>) {
    && l.Ok() && (forall c :: c in l.cells ==> l.Root(c) in roots)
    && (forall r, w :: (r, w) in locks ==> r in roots)
    && (forall r :: r in componentLocks <==> Held(locks, r))
  }

  lemma PlayedMore(l: Layout, hosts: map<nat, Host>, scripts: map<nat, seq<Turn>>, r: nat, turns: seq<Turn>, n: Host)
    requires AllPlayed(l, hosts, scripts) && r in hosts && Play(hosts[r], turns, l.SchemaOf(r)) == Some(n)
    ensures AllPlayed(l, hosts[r := n], scripts[r := scripts[r] + turns])
  {
    hide Play;
    PlayJoin(FRESH, scripts[r], turns, l.SchemaOf(r));
  }

  lemma AllLocked(l: Layout, k: Copies, writeSets: map<nat, set<Cell>>, cycle: nat, hosts: map<nat, Host>,
                  scripts: map<nat, seq<Turn>>, me: Addr, r: nat, write: bool, now: nat)
    requires AllKept(l, k, writeSets, cycle, hosts) && AllPlayed(l, hosts, scripts) && r in hosts
    requires (r, write) !in k.locks && (!write ==> (r, true) !in k.locks)
    ensures AllKept(l, k.(locks := k.locks + {(r, write)}), writeSets, cycle,
            hosts[r := LockedHost(hosts[r], write, cycle)])
    ensures AllPlayed(l, hosts[r := LockedHost(hosts[r], write, cycle)],
                      scripts[r := scripts[r] + LockTurns(me, hosts[r], write, cycle, now)])
  {
    hide Kept, LockedHost, LockTurns, Play, PhaseOf, AllPlayed, Tiles;
    var h := hosts[r];
    LockKeeps(l, k, WrittenTo(writeSets, r), cycle, h, r, write);
    LockPlays(me, h, write, cycle, now, l.SchemaOf(r));
    PlayedMore(l, hosts, scripts, r, LockTurns(me, h, write, cycle, now), LockedHost(h, write, cycle));
    forall q | q in hosts && q != r
      ensures Kept(l, k.(locks := k.locks + {(r, write)}), WrittenTo(writeSets, q), cycle, hosts[q], q)
    {
      OthersKeep(l, k, WrittenTo(writeSets, q), cycle, hosts[q], q, r, write);
    }
  }

  lemma AllFetched(l: Layout, k: Copies, writeSets: map<nat, set<Cell>>, cycle: nat, hosts: map<nat, Host>,
                   scripts: map<nat, seq<Turn>>, me: Addr, c: Cell, v: Value)
    requires AllKept(l, k, writeSets, cycle, hosts) && AllPlayed(l, hosts, scripts) && c in l.cells
             && l.Root(c) in hosts
    requires Held(k.locks, l.Root(c)) && l.Bit(c) !in k.bits
    ensures var r := l.Root(c);
            && AllKept(l, k.(bits := k.bits + {l.Bit(c)}, fields := k.fields[c := v]), writeSets, cycle,
                       hosts[r := FetchedHost(hosts[r], c, v)])
            && AllPlayed(l, hosts[r := FetchedHost(hosts[r], c, v)], scripts[r := scripts[r] + FetchTurns(me, c, v)])
  {
    hide Kept, FetchedHost, FetchTurns, Play, AllPlayed, Tiles;
    var r := l.Root(c);
    FetchKeeps(l, k, WrittenTo(writeSets, r), cycle, hosts[r], c, v);
    HolderIs(l, k, WrittenTo(writeSets, r), cycle, hosts[r], r);
    FetchPlays(me, hosts[r], c, v, l.SchemaOf(r));
    PlayedMore(l, hosts, scripts, r, FetchTurns(me, c, v), FetchedHost(hosts[r], c, v));
    forall q | q in hosts && q != r
      ensures Kept(l, k.(bits := k.bits + {l.Bit(c)}, fields := k.fields[c := v]), WrittenTo(writeSets, q), cycle,
              hosts[q], q)
    {
      OthersKeepCells(l, k, WrittenTo(writeSets, q), cycle, hosts[q], q, c, v);
    }
  }

  lemma HolderIs(l: Layout, k: Copies, written: set<Cell>, cycle: nat, h: Host, r: nat)
    requires l.Ok() && Kept(l, k, written, cycle, h, r) && Held(k.locks, r)
    ensures h.phase == Holding((r, true) in k.locks) && h.down == []
  {
  }

  /** A read of a cell whose bit is set returns the host's copy. */
  lemma AllRead(l: Layout, k: Copies, writeSets: map<nat, set<Cell>>, cycle: nat, hosts: map<nat, Host>,
                scripts: map<nat, seq<Turn>>, me: Addr, c: Cell)
    requires AllKept(l, k, writeSets, cycle, hosts) && AllPlayed(l, hosts, scripts) && c in l.cells
             && l.Root(c) in hosts
    requires Held(k.locks, l.Root(c)) && l.Bit(c) in k.bits
    ensures var r, op := l.Root(c), Op.Get(c);
            && c in hosts[r].copies && c in k.fields && k.fields[c] == hosts[r].copies[c]
            && AllKept(l, k, writeSets, cycle, hosts[r := UsedHost(hosts[r], op)])
            && AllPlayed(l, hosts[r := UsedHost(hosts[r], op)], scripts[r := scripts[r] + [Act(Use(me, op))]])
  {
    hide Kept, Play, AllPlayed, Tiles;
    var r, op := l.Root(c), Op.Get(c);
    ReadKeeps(l, k, WrittenTo(writeSets, r), cycle, hosts[r], c);
    HolderIs(l, k, WrittenTo(writeSets, r), cycle, hosts[r], r);
    PlayOne(hosts[r], Act(Use(me, op)), l.SchemaOf(r));
    PlayedMore(l, hosts, scripts, r, [Act(Use(me, op))], UsedHost(hosts[r], op));
  }

  lemma ReadKeeps(l: Layout, k: Copies, written: set<Cell>, cycle: nat, h: Host, c: Cell)
    requires l.Ok() && c in l.cells && Kept(l, k, written, cycle, h, l.Root(c))
    requires Held(k.locks, l.Root(c)) && l.Bit(c) in k.bits
    ensures c in h.copies && c in k.fields && k.fields[c] == h.copies[c]
    ensures Kept(l, k, written, cycle, UsedHost(h, Op.Get(c)), l.Root(c))
  {
    assert CellLinked(l, k, true, h, c);
    var n := UsedHost(h, Op.Get(c));
    forall d | d in l.cells && l.Root(d) == l.Root(c) ensures CellLinked(l, k, true, n, d) {
      assert CellLinked(l, k, true, h, d);
    }
  }

  lemma AllWritten(l: Layout, k: Copies, writeSets: map<nat, set<Cell>>, cycle: nat, hosts: map<nat, Host>,
                   scripts: map<nat, seq<Turn>>, me: Addr, c: Cell, v: Value)
    requires AllKept(l, k, writeSets, cycle, hosts) && AllPlayed(l, hosts, scripts) && c in l.cells
             && l.Root(c) in hosts
    requires (l.Root(c), true) in k.locks && l.SchemaOf(l.Root(c)).Accepts(c, v)
    ensures var r, op := l.Root(c), Op.Put(c, v);
            && AllKept(l, k.(bits := k.bits + {l.Bit(c)}, fields := k.fields[c := v]),
                       writeSets[r := WrittenTo(writeSets, r) + {c}], cycle, hosts[r := UsedHost(hosts[r], op)])
            && AllPlayed(l, hosts[r := UsedHost(hosts[r], op)], scripts[r := scripts[r] + [Act(Use(me, op))]])
  {
    hide Kept, Play, AllPlayed, Tiles;
    var r, op := l.Root(c), Op.Put(c, v);
    PutKeeps(l, k, WrittenTo(writeSets, r), cycle, hosts[r], c, v);
    HolderIs(l, k, WrittenTo(writeSets, r), cycle, hosts[r], r);
    PlayOne(hosts[r], Act(Use(me, op)), l.SchemaOf(r));
    PlayedMore(l, hosts, scripts, r, [Act(Use(me, op))], UsedHost(hosts[r], op));
    forall q | q in hosts && q != r
      ensures Kept(l, k.(bits := k.bits + {l.Bit(c)}, fields := k.fields[c := v]), WrittenTo(writeSets, q), cycle,
              hosts[q], q)
    {
      OthersKeepCells(l, k, WrittenTo(writeSets, q), cycle, hosts[q], q, c, v);
    }
  }

  /** A component that is not held has no bits set, one that is held has its lock. */
  lemma BitNeedsLock(l: Layout, k: Copies, writeSets: map<nat, set<Cell>>, cycle: nat, hosts: map<nat, Host>, c: Cell)
    requires AllKept(l, k, writeSets, cycle, hosts) && c in l.cells && l.Root(c) in hosts && !Held(k.locks, l.Root(c))
    ensures l.Bit(c) !in k.bits
  {
    assert CellLinked(l, k, false, hosts[l.Root(c)], c);
  }

  lemma PhaseIs(l: Layout, k: Copies, writeSets: map<nat, set<Cell>>, cycle: nat, hosts: map<nat, Host>, r: nat)
    requires AllKept(l, k, writeSets, cycle, hosts) && r in hosts
    ensures hosts[r].phase == PhaseOf(k.locks, r)
  {
    assert Kept(l, k, WrittenTo(writeSets, r), cycle, hosts[r], r);
  }

  /** What the simulation has done with a component in this cycle. */
  function Begun(locks: Locks, hosts: map<nat, Host>, r: nat): Session
    requires r in hosts
  {
    if Held(locks, r) then hosts[r].session else Session([], [], 0, 0)
  }

  /** Taking a lock adds no access. */
  lemma BegunLocked(l: Layout, k: Copies, writeSets: map<nat, set<Cell>>, cycle: nat, hosts: map<nat, Host>, r: nat,
                    write: bool)
    requires AllKept(l, k, writeSets, cycle, hosts) && r in hosts
    ensures var x := Begun(k.locks + {(r, write)}, hosts[r := LockedHost(hosts[r], write, cycle)], r);
            x.ops == Begun(k.locks, hosts, r).ops && x.values == Begun(k.locks, hosts, r).values
  {
    PhaseIs(l, k, writeSets, cycle, hosts, r);
  }

  /** More accesses to one component, and nothing to any other. */
  ghost predicate Grown(locks: Locks, hosts: map<nat, Host>, nowLocks: Locks, nowHosts: map<nat, Host>, r: nat,
                        ops: seq<Op>, values: seq<Value>)
    requires r in hosts && r in nowHosts
  {
    && Begun(nowLocks, nowHosts, r).ops == Begun(locks, hosts, r).ops + ops
    && Begun(nowLocks, nowHosts, r).values == Begun(locks, hosts, r).values + values
    && nowHosts.Keys == hosts.Keys && forall q :: q in hosts && q != r ==> nowHosts[q] == hosts[q]
  }

  lemma WriterHolds(locks: Locks, r: nat)
    ensures (r, true) in locks ==> Held(locks, r)
  {
  }

  lemma GrownUse(locks: Locks, hosts: map<nat, Host>, k: Copies, mid: map<nat, Host>, r: nat, op: Op)
    requires r in hosts && r in mid && Held(k.locks, r) && (op.Get? ==> op.cell in mid[r].copies)
    requires Grown(locks, hosts, k.locks, mid, r, [], [])
    ensures Grown(locks, hosts, k.locks, mid[r := UsedHost(mid[r], op)], r, [op],
                  if op.Get? then [mid[r].copies[op.cell]] else [])
  {
  }

  /** Since the given moment each component has been through its part of the accesses. */
  ghost predicate Followed(locks: Locks, hosts: map<nat, Host>, nowLocks: Locks, nowHosts: map<nat, Host>,
                           ops: seq<Op>, results: seq<Option<Value>>, l: Layout)
  {
    && |results| == |ops| && nowHosts.Keys == hosts.Keys
    && forall r :: r in hosts ==>
         && Begun(nowLocks, nowHosts, r).ops == Begun(locks, hosts, r).ops + OpsOn(ops, l, r)
         && Begun(nowLocks, nowHosts, r).values == Begun(locks, hosts, r).values + ValuesOn(ops, results, l, r)
         && (!Held(nowLocks, r) ==> nowHosts[r] == hosts[r])
  }

  lemma FollowedNothing(locks: Locks, hosts: map<nat, Host>, l: Layout)
    ensures Followed(locks, hosts, locks, hosts, [], [], l) && LocksOf([], l) == {}
  {
  }

  lemma FollowedMore(locks: Locks, hosts: map<nat, Host>, midLocks: Locks, mid: map<nat, Host>, now: map<nat, Host>,
                     ops: seq<Op>, results: seq<Option<Value>>, l: Layout, op: Op, result: Option<Value>)
    requires Followed(locks, hosts, midLocks, mid, ops, results, l) && l.Root(op.cell) in mid && l.Root(op.cell) in now
    requires Grown(midLocks, mid, midLocks + {l.LockOf(op)}, now, l.Root(op.cell), [op],
                   if result.Some? then [result.value] else [])
    ensures Followed(locks, hosts, midLocks + {l.LockOf(op)}, now, ops + [op], results + [result], l)
    ensures LocksOf(ops + [op], l) == LocksOf(ops, l) + {l.LockOf(op)}
  {
    hide OpsOn, ValuesOn, LocksOf, Begun, Held;
    var locked := midLocks + {l.LockOf(op)};
    forall r | r in hosts
      ensures Begun(locked, now, r).ops == Begun(locks, hosts, r).ops + OpsOn(ops + [op], l, r)
      ensures Begun(locked, now, r).values ==
              Begun(locks, hosts, r).values + ValuesOn(ops + [op], results + [result], l, r)
      ensures !Held(locked, r) ==> now[r] == hosts[r]
    {
      PartsAppend(ops, results, op, result, l, r);
      LockedHeld(midLocks, l.Root(op.cell), op.Put?, r);
      if r != l.Root(op.cell) { SameBegun(midLocks, locked, mid, now, r); }
    }
    PartsAppend(ops, results, op, result, l, 0);
  }

  lemma LockedHeld(locks: Locks, root: nat, write: bool, r: nat)
    ensures Held(locks + {(root, write)}, r) == (Held(locks, r) || r == root)
  {
  }

  lemma SameBegun(locks: Locks, locked: Locks, mid: map<nat, Host>, now: map<nat, Host>, r: nat)
    requires r in mid && r in now && now[r] == mid[r] && Held(locked, r) == Held(locks, r)
    ensures Begun(locked, now, r) == Begun(locks, mid, r)
  {
  }

  lemma DisciplineStep(ops: seq<Op>, i: nat, l: Layout, locks: Locks)
    requires i < |ops| && Disciplined(locks, ops[i..], l)
    ensures ops[i].Get? && (l.Root(ops[i].cell), true) in locks ==> (l.Root(ops[i].cell), false) in locks
    ensures Disciplined(locks + {l.LockOf(ops[i])}, ops[i + 1..], l)
    ensures ops[..i + 1] == ops[..i] + [ops[i]]
  {
    assert ops[i..][0] == ops[i] && ops[i..][1..] == ops[i + 1..];
  }

  // ---- What is fetched is read ----

  /** What was fetched before an upgrade was read before it. */
  predicate ReadEarly(got: seq<Seen>, x: Session) {
    x.mark <= |x.ops| && x.fetched <= |got| && ReadBack(got[..x.fetched], x.ops[..x.mark])
  }

  predicate Quotes(req: Request) {
    req.WriteReq? || req.UnlockReq? ==> ReadEarly(req.observed, req.session)
  }

  /** Everything fetched in this cycle has been read, the given cells excepted, and so had everything that was sent. */
  predicate Heeds(h: Host, but: set<Cell>) {
    && (forall i :: 0 <= i < |h.got| ==> h.got[i].cell in but || Op.Get(h.got[i].cell) in h.session.ops)
    && ReadEarly(h.got, h.session)
    && forall i :: 0 <= i < |h.up| ==> Quotes(h.up[i])
  }

  ghost predicate AllHeed(hosts: map<nat, Host>) {
    forall r :: r in hosts ==> Heeds(hosts[r], {})
  }

  /** All but one cell that has just been fetched. */
  ghost predicate AllHeedBut(hosts: map<nat, Host>, r: nat, c: Cell) {
    forall q :: q in hosts ==> Heeds(hosts[q], if q == r then {c} else {})
  }

  lemma HeedLocked(h: Host, write: bool, cycle: nat)
    requires Heeds(h, {})
    ensures Heeds(LockedHost(h, write, cycle), {})
  {
    var n := LockedHost(h, write, cycle);
    assert n.session.ops[..n.session.mark] == n.session.ops || n.got == [];
    assert forall i :: 0 <= i < |h.up| ==> n.up[i] == h.up[i];
  }

  lemma HeedFetched(h: Host, c: Cell, v: Value)
    requires Heeds(h, {})
    ensures Heeds(FetchedHost(h, c, v), {c})
  {
    var n := FetchedHost(h, c, v);
    assert n.got[..h.session.fetched] == h.got[..h.session.fetched];
    assert forall i :: 0 <= i < |h.up| ==> n.up[i] == h.up[i];
  }

  lemma HeedUsed(h: Host, op: Op)
    requires op.Get? ==> op.cell in h.copies && Heeds(h, {op.cell})
    requires op.Put? ==> Heeds(h, {})
    ensures Heeds(UsedHost(h, op), {})
  {
    var n, x := UsedHost(h, op), h.session;
    assert n.session.ops[..x.mark] == x.ops[..x.mark] && n.session.ops[|x.ops|] == op;
    assert forall o :: o in x.ops ==> o in n.session.ops;
  }

  lemma HeedSent(h: Host, n: Host, kinds: Kinds)
    requires Heeds(h, {}) && Sent(h, n, kinds)
    ensures Heeds(n, {})
  {
    assert forall i :: 0 <= i < |h.up| ==> n.up[i] == h.up[i];
  }

  lemma HeedReleased(h: Host)
    requires Heeds(h, {})
    ensures Heeds(ReleasedHost(h), {})
  {
    assert forall i :: 0 <= i < |h.up| ==> ReleasedHost(h).up[i] == h.up[i];
  }

  lemma HeedLess(h: Host, c: Cell)
    requires Heeds(h, {})
    ensures Heeds(h, {c})
  {
  }

  lemma AllHeedLocked(hosts: map<nat, Host>, r: nat, write: bool, cycle: nat)
    requires r in hosts
    ensures AllHeed(hosts) ==> AllHeed(hosts[r := LockedHost(hosts[r], write, cycle)])
  {
    hide Heeds, LockedHost;
    if AllHeed(hosts) { HeedLocked(hosts[r], write, cycle); }
  }

  lemma AllHeedFetched(hosts: map<nat, Host>, r: nat, c: Cell, v: Value)
    requires r in hosts
    ensures AllHeed(hosts) ==> AllHeedBut(hosts[r := FetchedHost(hosts[r], c, v)], r, c)
  {
    hide Heeds, FetchedHost;
    if AllHeed(hosts) { HeedFetched(hosts[r], c, v); }
  }

  lemma AllHeedLess(hosts: map<nat, Host>, r: nat, c: Cell)
    ensures AllHeed(hosts) ==> AllHeedBut(hosts, r, c)
  {
    hide Heeds;
    if r in hosts && AllHeed(hosts) { HeedLess(hosts[r], c); }
  }

  lemma AllHeedUsed(hosts: map<nat, Host>, r: nat, op: Op)
    requires r in hosts && (op.Get? ==> op.cell in hosts[r].copies)
    ensures (if op.Get? then AllHeedBut(hosts, r, op.cell) else AllHeed(hosts)) ==>
            AllHeed(hosts[r := UsedHost(hosts[r], op)])
  {
    hide Heeds, UsedHost;
    if if op.Get? then AllHeedBut(hosts, r, op.cell) else AllHeed(hosts) { HeedUsed(hosts[r], op); }
  }

  lemma AllHeedClosed(hosts: map<nat, Host>, sent: map<nat, Host>, now: map<nat, Host>, locked: set<nat>, kinds: Kinds)
    requires sent.Keys == now.Keys == hosts.Keys && forall r :: r in hosts ==> Sent(hosts[r], sent[r], kinds)
    requires forall r :: r in hosts ==> now[r] == if r in locked then ReleasedHost(sent[r]) else sent[r]
    ensures AllHeed(hosts) ==> AllHeed(now)
  {
    hide Heeds, ReleasedHost, Sent;
    if AllHeed(hosts) {
      forall r | r in now ensures Heeds(now[r], {}) {
        HeedSent(hosts[r], sent[r], kinds);
        HeedReleased(sent[r]);
      }
    }
  }

  // ---- The client ----

  ghost predicate SentExcept(was: map<nat, Host>, hosts: map<nat, Host>, left: set<nat>, kinds: Kinds) {
    && hosts.Keys == was.Keys
    && forall r :: r in was ==> if r in left then hosts[r] == was[r] else Sent(was[r], hosts[r], kinds)
  }

  lemma SentNext(was: map<nat, Host>, hosts: map<nat, Host>, now: map<nat, Host>, left: set<nat>, r: nat, kinds: Kinds)
    requires SentExcept(was, hosts, left, kinds) && r in left && r in was && now.Keys == hosts.Keys
    requires Sent(was[r], now[r], kinds) && forall q :: q in hosts && q != r ==> now[q] == hosts[q]
    ensures SentExcept(was, now, left - {r}, kinds)
  {
    hide Sent;
  }

  predicate ReleasedExcept(was: map<nat, Host>, hosts: map<nat, Host>, locked: set<nat>, left: set<nat>) {
    && hosts.Keys == was.Keys
    && forall r :: r in was ==> hosts[r] == if r in locked && r !in left then ReleasedHost(was[r]) else was[r]
  }

  lemma ReleasedNext(was: map<nat, Host>, hosts: map<nat, Host>, locked: set<nat>, left: set<nat>, r: nat)
    requires ReleasedExcept(was, hosts, locked, left) && left <= locked && r in left && r in was
    ensures hosts[r] == was[r]
    ensures ReleasedExcept(was, hosts[r := ReleasedHost(hosts[r])], locked, left - {r})
  {
    hide ReleasedHost;
  }

  lemma NothingSentYet(hosts: map<nat, Host>, kinds: Kinds)
    ensures SentExcept(hosts, hosts, hosts.Keys, kinds)
  {
  }

  lemma StillLeft(was: map<nat, Host>, hosts: map<nat, Host>, left: set<nat>, r: nat, kinds: Kinds)
    requires SentExcept(was, hosts, left, kinds) && r in left && r in was
    ensures hosts[r] == was[r]
  {
  }

  lemma AllSent(was: map<nat, Host>, hosts: map<nat, Host>, kinds: Kinds)
    requires SentExcept(was, hosts, {}, kinds)
    ensures hosts.Keys == was.Keys && forall r :: r in was ==> Sent(was[r], hosts[r], kinds)
  {
  }

  lemma NothingReleased(hosts: map<nat, Host>, locked: set<nat>)
    ensures ReleasedExcept(hosts, hosts, locked, locked)
  {
  }

  lemma AllReleased(was: map<nat, Host>, hosts: map<nat, Host>, locked: set<nat>)
    requires ReleasedExcept(was, hosts, locked, {})
    ensures hosts.Keys == was.Keys && forall r :: r in was ==>
            hosts[r] == if r in locked then ReleasedHost(was[r]) else was[r]
  {
  }

  lemma ReleasePlays(l: Layout, me: Addr, hosts: map<nat, Host>, scripts: map<nat, seq<Turn>>, r: nat)
    requires AllPlayed(l, hosts, scripts) && r in hosts
             && (hosts[r].phase == Holding(false) || hosts[r].phase == Committed)
    ensures AllPlayed(l, hosts[r := ReleasedHost(hosts[r])], scripts[r := scripts[r] + [Act(ReleaseLock(me))]])
  {
    hide AllPlayed;
    PlayOne(hosts[r], Act(ReleaseLock(me)), l.SchemaOf(r));
    PlayedMore(l, hosts, scripts, r, [Act(ReleaseLock(me))], ReleasedHost(hosts[r]));
  }

  lemma OneKept(l: Layout, k: Copies, writeSets: map<nat, set<Cell>>, cycle: nat, hosts: map<nat, Host>, r: nat)
    requires AllKept(l, k, writeSets, cycle, hosts) && r in hosts
    ensures Kept(l, k, WrittenTo(writeSets, r), cycle, hosts[r], r)
  {
  }

  lemma NothingSent(l: Layout, k: Copies, writeSets: map<nat, set<Cell>>, cycle: nat, hosts: map<nat, Host>, r: nat)
    requires AllKept(l, k, writeSets, cycle, hosts) && r in hosts && (r, true) !in k.locks
    ensures Sent(hosts[r], hosts[r], l.kinds)
  {
    PhaseIs(l, k, writeSets, cycle, hosts, r);
  }

  lemma SentPhases(l: Layout, k: Copies, writeSets: map<nat, set<Cell>>, cycle: nat, hosts: map<nat, Host>,
                   sent: map<nat, Host>)
    requires AllKept(l, k, writeSets, cycle, hosts) && sent.Keys == hosts.Keys
    requires forall r :: r in hosts ==> Sent(hosts[r], sent[r], l.kinds)
    ensures forall r :: r in hosts && Held(k.locks, r) ==> sent[r].phase == Holding(false) || sent[r].phase == Committed
  {
    forall r | r in hosts && Held(k.locks, r)
      ensures sent[r].phase == Holding(false) || sent[r].phase == Committed
    {
      PhaseIs(l, k, writeSets, cycle, hosts, r);
    }
  }

  /** After the unlocks every component is as at the start of a cycle. */
  lemma AllClosed(l: Layout, k: Copies, writeSets: map<nat, set<Cell>>, cycle: nat, hosts: map<nat, Host>,
                  sent: map<nat, Host>, now: map<nat, Host>, locked: set<nat>, fields: Store)
    requires AllKept(l, k, writeSets, cycle, hosts) && sent.Keys == now.Keys == hosts.Keys
    requires forall r :: r in locked <==> Held(k.locks, r)
    requires forall r :: r in hosts ==> Sent(hosts[r], sent[r], l.kinds)
    requires forall r :: r in hosts ==> now[r] == if r in locked then ReleasedHost(sent[r]) else sent[r]
    ensures AllKept(l, Copies({}, {}, fields), map[], cycle + 1, now)
  {
    hide Kept, Tiles, ReleasedHost;
    forall r | r in now ensures Kept(l, Copies({}, {}, fields), {}, cycle + 1, now[r], r) {
      OneKept(l, k, writeSets, cycle, hosts, r);
      if Held(k.locks, r) {
        ClosedKeeps(l, k, WrittenTo(writeSets, r), cycle, hosts[r], sent[r], r, fields);
      } else {
        PhaseIs(l, k, writeSets, cycle, hosts, r);
        IdleKeeps(l, k, WrittenTo(writeSets, r), cycle, hosts[r], r, fields);
      }
    }
  }

  /** What a whole cycle has been for the host of one component. */
  ghost predicate Cycled(h: Host, n: Host, ops: seq<Op>, values: seq<Value>, cycle: nat, kinds: Kinds) {
    if ops == [] then n == h
    else
      && n.cycle == cycle && n.session.ops == ops && n.session.values == values && n.own == Writes(ops)
      && NoRepeats(n.got) && Thrifty(n.up) && |n.up| > 0
        && n.up[|n.up| - 1] == UnlockReq(cycle, n.own, n.got, n.session)
      && if HasPut(ops) then
           |n.up| > 1 &&
           var w := n.up[|n.up| - 2];
           w.WriteReq? && w == WriteReq(cycle, w.stream, n.own, n.got, n.session)
             && Carries(w.stream, Writes(ops), kinds)
         else forall i :: 0 <= i < |n.up| && n.up[i].cycle == cycle ==> !n.up[i].WriteReq?
  }

  /** What the accesses leave of one component's host before its writes are sent. */
  ghost predicate Ready(h: Host, m: Host, held: bool, ops: seq<Op>, values: seq<Value>) {
    if held then m.session.ops == ops && m.session.values == values && m.own == Writes(ops) && NoRepeats(m.got)
    else m == h && ops == [] && values == []
  }

  ghost predicate AllReady(hosts: map<nat, Host>, mid: map<nat, Host>, locks: Locks, l: Layout, ops: seq<Op>,
                           results: seq<Option<Value>>) {
    && |results| == |ops| && mid.Keys == hosts.Keys
    && forall r :: r in hosts ==>
         Ready(hosts[r], mid[r], Held(locks, r), OpsOn(ops, l, r), ValuesOn(ops, results, l, r))
  }

  lemma AccessReady(l: Layout, hosts: map<nat, Host>, mid: map<nat, Host>, scripts: map<nat, seq<Turn>>,
                    ops: seq<Op>, results: seq<Option<Value>>, locks: Locks)
    requires locks == LocksOf(ops, l) && Followed({}, hosts, locks, mid, ops, results, l) && AllPlayed(l, mid, scripts)
    ensures AllReady(hosts, mid, locks, l, ops, results)
  {
    hide LocksOf, Play, OpsOn, ValuesOn, Remembers;
    forall r | r in hosts
      ensures Ready(hosts[r], mid[r], Held(locks, r), OpsOn(ops, l, r), ValuesOn(ops, results, l, r))
    {
      OpsOnSome(ops, l, r);
      NoValues(ops, results, l, r);
      FreshRemembers(l.SchemaOf(r).cells);
      PlayRemembers(FRESH, scripts[r], l.SchemaOf(r));
      Remembered(mid[r], l.SchemaOf(r).cells);
      assert [] + OpsOn(ops, l, r) == OpsOn(ops, l, r);
      assert [] + ValuesOn(ops, results, l, r) == ValuesOn(ops, results, l, r);
      assert Begun({}, hosts, r) == Session([], [], 0, 0);
    }
  }

  lemma Remembered(h: Host, cells: set<Cell>)
    requires Remembers(h, cells)
    ensures h.own == Writes(h.session.ops) && NoRepeats(h.got)
  {
    hide Explained;
  }

  lemma {:induction false} NoValues(ops: seq<Op>, results: seq<Option<Value>>, l: Layout, r: nat)
    requires |results| == |ops|
    ensures OpsOn(ops, l, r) == [] ==> ValuesOn(ops, results, l, r) == []
  {
    if ops != [] {
      NoValues(ops[..|ops| - 1], results[..|ops| - 1], l, r);
    }
  }

  lemma IsCycled(l: Layout, k: Copies, written: set<Cell>, cycle: nat, h: Host, m: Host, sent: Host, n: Host, r: nat,
                 ops: seq<Op>, results: seq<Option<Value>>, fields: Store)
    requires l.Ok() && Kept(l, k, written, cycle, m, r) && k.locks == LocksOf(ops, l) && |results| == |ops|
    requires Ready(h, m, Held(k.locks, r), OpsOn(ops, l, r), ValuesOn(ops, results, l, r))
    requires Sent(m, sent, l.kinds) && n == if Held(k.locks, r) then ReleasedHost(sent) else sent
    requires Kept(l, Copies({}, {}, fields), {}, cycle + 1, n, r)
    ensures Cycled(h, n, OpsOn(ops, l, r), ValuesOn(ops, results, l, r), cycle, l.kinds)
  {
    hide LocksOf, OpsOn, ValuesOn, Writes, Carries, Tiles, OwnLinked, CellsLinked;
    OpsOnSome(ops, l, r);
  }

  lemma AllCycled(l: Layout, k: Copies, sets: map<nat, set<Cell>>, cycle: nat, hosts: map<nat, Host>,
                  mid: map<nat, Host>, sent: map<nat, Host>, now: map<nat, Host>, ops: seq<Op>,
                  results: seq<Option<Value>>, fields: Store)
    requires AllKept(l, k, sets, cycle, mid) && k.locks == LocksOf(ops, l)
             && AllReady(hosts, mid, k.locks, l, ops, results)
    requires hosts.Keys == sent.Keys == now.Keys && forall r :: r in mid ==> Sent(mid[r], sent[r], l.kinds)
    requires forall r :: r in mid ==> now[r] == if Held(k.locks, r) then ReleasedHost(sent[r]) else sent[r]
    requires AllKept(l, Copies({}, {}, fields), map[], cycle + 1, now)
    ensures forall r :: r in hosts ==>
              Cycled(hosts[r], now[r], OpsOn(ops, l, r), ValuesOn(ops, results, l, r), cycle, l.kinds)
  {
    hide LocksOf, OpsOn, ValuesOn, Kept, Sent, Ready, ReleasedHost, Cycled, Tiles;
    forall r | r in hosts
      ensures Cycled(hosts[r], now[r], OpsOn(ops, l, r), ValuesOn(ops, results, l, r), cycle, l.kinds)
    {
      IsCycled(l, k, WrittenTo(sets, r), cycle, hosts[r], mid[r], sent[r], now[r], r, ops, results, fields);
    }
  }

  /** What a component sends back during an access: the cycle in a grant, the value of a fetched cell. */
  datatype Reply = Reply(now: nat, value: Value)

  class Client {
    const me: Addr
    const l: Layout
    const roots: set<nat>              // the other components' roots

    var cycle: nat                     // clock::cycle
    var hostLocks: Locks               // g_hostLocks, one bit for each root and mode
    var hostCycles: map<nat, nat>      // g_hostCycles
    var bits: set<nat>                 // g_reads
    var fields: Store                  // local copies of remote buffers
    var writeSets: map<nat, set<Cell>>
    var componentLocks: set<nat>       // Program::m_componentLocks, all taken in this cycle

    ghost var hosts: map<nat, Host>    // the host this client is to each component
    ghost var scripts: map<nat, seq<Turn>>

    ghost function Cache(): Copies
      reads this`hostLocks, this`bits, this`fields
    {
      Copies(hostLocks, bits, fields)
    }

    ghost predicate Valid()
      reads this
    {
      && Rooted(l, hostLocks, componentLocks, roots) && hosts.Keys == scripts.Keys == roots
      && AllKept(l, Cache(), writeSets, cycle, hosts) && AllPlayed(l, hosts, scripts)
    }

    constructor (me: Addr, l: Layout, roots: set<nat>)
      requires l.Ok() && forall c :: c in l.cells ==> l.Root(c) in roots
      ensures Valid() && AllHeed(hosts) && hostLocks == {} && hosts == map r | r in roots :: FRESH
      ensures this.me == me && this.l == l && this.roots == roots
    {
      this.me, this.l, this.roots := me, l, roots;
      cycle, hostLocks, hostCycles, bits, fields, writeSets, componentLocks := 1, {}, map[], {}, map[], map[], {};
      hosts := map r | r in roots :: FRESH;
      scripts := map r | r in roots :: [];
    }

    /** Component::readlock or writelock, with Program's bookkeeping; the response carries the component's cycle. */
    method TakeLock(r: nat, write: bool, now: nat)
      requires Valid() && r in roots
      requires (r, write) !in hostLocks && (!write ==> (r, true) !in hostLocks)
      modifies this`hostLocks, this`hostCycles, this`componentLocks, this`hosts, this`scripts
      ensures Valid()
      ensures hostLocks == old(hostLocks) + {(r, write)} && hostCycles == old(hostCycles)[r := now]
      ensures hosts == old(hosts)[r := LockedHost(old(hosts[r]), write, cycle)]
    {
      hide AllKept, AllPlayed, LockTurns, LockedHost, Tiles;
      AllLocked(l, Cache(), writeSets, cycle, hosts, scripts, me, r, write, now);
      hostCycles := hostCycles[r := now];
      componentLocks := componentLocks + {r};
      hostLocks := hostLocks + {(r, write)};
      scripts := scripts[r := scripts[r] + LockTurns(me, hosts[r], write, cycle, now)];
      hosts := hosts[r := LockedHost(hosts[r], write, cycle)];
    }

    /** Component::read and the decode of its reply into the local copy. */
    method Fetch(c: Cell, v: Value)
      requires Valid() && c in l.cells && l.Bit(c) !in bits && Held(hostLocks, l.Root(c))
      modifies this`fields, this`bits, this`hosts, this`scripts
      ensures Valid() && bits == old(bits) + {l.Bit(c)} && fields == old(fields)[c := v]
      ensures hosts == old(hosts)[l.Root(c) := FetchedHost(old(hosts[l.Root(c)]), c, v)]
    {
      hide AllKept, AllPlayed, Tiles;
      ghost var r := l.Root(c);
      AllFetched(l, Cache(), writeSets, cycle, hosts, scripts, me, c, v);
      scripts := scripts[r := scripts[r] + FetchTurns(me, c, v)];
      hosts := hosts[r := FetchedHost(hosts[r], c, v)];
      fields := fields[c := v];
      bits := bits + {l.Bit(c)};
    }

    /** eg::readlock: the cell is locked and copied, and nothing has been read yet. */
    method ReadLock(c: Cell, reply: Reply)
      requires Valid() && c in l.cells
      requires (l.Root(c), true) in hostLocks ==> (l.Root(c), false) in hostLocks
      modifies this
      ensures Valid() && cycle == old(cycle) && writeSets == old(writeSets)
      ensures hostLocks == old(hostLocks) + {(l.Root(c), false)} && l.Bit(c) in bits
      ensures Grown(old(hostLocks), old(hosts), hostLocks, hosts, l.Root(c), [], [])
      ensures AllHeed(old(hosts)) ==> AllHeedBut(hosts, l.Root(c), c)
    {
      hide AllKept, AllPlayed, LockedHost, FetchedHost, Tiles, AllHeed, AllHeedBut;
      var r := l.Root(c);
      if (r, false) !in hostLocks {
        BitNeedsLock(l, Cache(), writeSets, cycle, hosts, c);
        BegunLocked(l, Cache(), writeSets, cycle, hosts, r, false);
        AllHeedLocked(hosts, r, false, cycle);
        TakeLock(r, false, reply.now);
        AllHeedFetched(hosts, r, c, reply.value);
        Fetch(c, reply.value);
      } else if l.Bit(c) !in bits {
        AllHeedFetched(hosts, r, c, reply.value);
        Fetch(c, reply.value);
      } else {
        AllHeedLess(hosts, r, c);
      }
    }

    /** A read of a remote cell. */
    method Get(c: Cell, reply: Reply) returns (value: Value)
      requires Valid() && c in l.cells
      requires (l.Root(c), true) in hostLocks ==> (l.Root(c), false) in hostLocks
      modifies this
      ensures Valid() && cycle == old(cycle)
      ensures hostLocks == old(hostLocks) + {(l.Root(c), false)}
      ensures Grown(old(hostLocks), old(hosts), hostLocks, hosts, l.Root(c), [Op.Get(c)], [value])
      ensures AllHeed(old(hosts)) ==> AllHeed(hosts)
    {
      hide AllKept, AllPlayed, Tiles, UsedHost, Begun, Grown, AllHeed, AllHeedBut;
      var r := l.Root(c);
      ReadLock(c, reply);
      AllRead(l, Cache(), writeSets, cycle, hosts, scripts, me, c);
      GrownUse(old(hostLocks), old(hosts), Cache(), hosts, r, Op.Get(c));
      AllHeedUsed(hosts, r, Op.Get(c));
      value := fields[c];
      scripts := scripts[r := scripts[r] + [Act(Use(me, Op.Get(c)))]];
      hosts := hosts[r := UsedHost(hosts[r], Op.Get(c))];
    }

    /** The first half of eg::writelock: the component is write locked. */
    method EnsureWriteLock(r: nat, now: nat)
      requires Valid() && r in roots
      modifies this
      ensures Valid() && cycle == old(cycle) && writeSets == old(writeSets) && fields == old(fields)
              && bits == old(bits)
      ensures hostLocks == old(hostLocks) + {(r, true)}
      ensures Grown(old(hostLocks), old(hosts), hostLocks, hosts, r, [], [])
      ensures AllHeed(old(hosts)) ==> AllHeed(hosts)
    {
      hide AllKept, AllPlayed, LockedHost, Tiles, AllHeed;
      if (r, true) !in hostLocks {
        BegunLocked(l, Cache(), writeSets, cycle, hosts, r, true);
        AllHeedLocked(hosts, r, true, cycle);
        TakeLock(r, true, now);
      }
    }

    /** eg::writelock and the assignment through the reference it returns. */
    method Put(c: Cell, v: Value, reply: Reply)
      requires Valid() && c in l.cells && l.SchemaOf(l.Root(c)).Accepts(c, v)
      modifies this
      ensures Valid() && cycle == old(cycle)
      ensures hostLocks == old(hostLocks) + {(l.Root(c), true)}
      ensures Grown(old(hostLocks), old(hosts), hostLocks, hosts, l.Root(c), [Op.Put(c, v)], [])
      ensures AllHeed(old(hosts)) ==> AllHeed(hosts)
    {
      hide AllKept, AllPlayed, Tiles, UsedHost, Begun, Grown, WrittenTo, Layout.SchemaOf, Held, AllHeed;
      var r := l.Root(c);
      EnsureWriteLock(r, reply.now);
      WriterHolds(hostLocks, r);
      AllWritten(l, Cache(), writeSets, cycle, hosts, scripts, me, c, v);
      GrownUse(old(hostLocks), old(hosts), Cache(), hosts, r, Op.Put(c, v));
      AllHeedUsed(hosts, r, Op.Put(c, v));
      bits := bits + {l.Bit(c)};
      writeSets := writeSets[r := WrittenTo(writeSets, r) + {c}];
      fields := fields[c := v];
      scripts := scripts[r := scripts[r] + [Act(Use(me, Op.Put(c, v)))]];
      hosts := hosts[r := UsedHost(hosts[r], Op.Put(c, v))];
    }

    /** The simulation's accesses of one cycle. */
    method Access(ops: seq<Op>, replies: seq<Reply>) returns (results: seq<Option<Value>>)
      requires Valid() && |replies| == |ops| && (forall i :: 0 <= i < |ops| ==> l.Allows(ops[i]))
      requires Disciplined(hostLocks, ops, l)
      modifies this
      ensures Valid() && cycle == old(cycle)
      ensures hostLocks == old(hostLocks) + LocksOf(ops, l)
      ensures |results| == |ops| && Followed(old(hostLocks), old(hosts), hostLocks, hosts, ops, results, l)
      ensures AllHeed(old(hosts)) ==> AllHeed(hosts)
    {
      hide AllKept, AllPlayed, Tiles, Followed, Grown, LocksOf, Disciplined, AllHeed;
      results := [];
      var i := 0;
      FollowedNothing(hostLocks, hosts, l);
      assert ops[..0] == [] && ops[0..] == ops;
      while i < |ops|
        invariant 0 <= i <= |ops|
        invariant Valid() && cycle == old(cycle)
        invariant Disciplined(hostLocks, ops[i..], l)
        invariant hostLocks == old(hostLocks) + LocksOf(ops[..i], l)
        invariant |results| == i && Followed(old(hostLocks), old(hosts), hostLocks, hosts, ops[..i], results, l)
        invariant AllHeed(old(hosts)) ==> AllHeed(hosts)
      {
        DisciplineStep(ops, i, l, hostLocks);
        ghost var midLocks, mid := hostLocks, hosts;
        var result := Do(ops[i], replies[i]);
        FollowedMore(old(hostLocks), old(hosts), midLocks, mid, hosts, ops[..i], results, l, ops[i], result);
        results := results + [result];
        i := i + 1;
      }
      assert ops[..i] == ops;
    }

    method Do(op: Op, reply: Reply) returns (result: Option<Value>)
      requires Valid() && l.Allows(op)
      requires op.Get? && (l.Root(op.cell), true) in hostLocks ==> (l.Root(op.cell), false) in hostLocks
      modifies this
      ensures Valid() && cycle == old(cycle) && hostLocks == old(hostLocks) + {l.LockOf(op)}
      ensures Grown(old(hostLocks), old(hosts), hostLocks, hosts, l.Root(op.cell), [op],
                    if result.Some? then [result.value] else [])
      ensures AllHeed(old(hosts)) ==> AllHeed(hosts)
    {
      hide AllKept, AllPlayed, Tiles, Grown, AllHeed;
      match op
      case Get(c) =>
        var v := Get(c, reply);
        result := Some(v);
      case Put(c, v) =>
        Put(c, v, reply);
        result := None;
    }

    /** The write to one component. */
    method SendWrites(r: nat)
      requires l.Ok() && AllPlayed(l, hosts, scripts) && r in hosts && (r, true) in hostLocks
      requires Kept(l, Cache(), WrittenTo(writeSets, r), cycle, hosts[r], r)
      modifies this`hosts, this`scripts
      ensures AllPlayed(l, hosts, scripts) && hosts.Keys == old(hosts.Keys) && scripts.Keys == old(scripts.Keys)
      ensures Sent(old(hosts[r]), hosts[r], l.kinds)
      ensures forall q :: q in hosts && q != r ==> hosts[q] == old(hosts[q])
    {
      hide Kept, Play, Tiles, Sent;
      ghost var h := hosts[r];
      WritesShaped(l, Cache(), WrittenTo(writeSets, r), cycle, h, r);
      var stream, order := EncodeWriteSet(WrittenTo(writeSets, r), fields, l.kinds);
      CommitPlays(l, me, h, fields, order, stream.value, r);
      ghost var n := h.(phase := Committed, up := h.up + [WriteReq(h.cycle, stream.value, h.own, h.got, h.session)]);
      PlayedMore(l, hosts, scripts, r, [Act(CommitWrites(me, order))], n);
      scripts := scripts[r := scripts[r] + [Act(CommitWrites(me, order))]];
      hosts := hosts[r := n];
    }

    /** completeSimulationLocks: one write to each component that is write locked, then a clean slate. */
    method CompleteSimulationLocks()
      requires Valid()
      modifies this
      ensures hostLocks == {} && bits == {} && writeSets == map[]
      ensures componentLocks == old(componentLocks) && cycle == old(cycle) && fields == old(fields)
      ensures hosts.Keys == scripts.Keys == roots && AllPlayed(l, hosts, scripts)
      ensures forall r :: r in roots ==> Sent(old(hosts[r]), hosts[r], l.kinds)
    {
      hide AllKept, AllPlayed, Tiles, Sent, SentExcept, Layout.Root, Layout.SchemaOf, PhaseOf;
      ghost var k, was, sets := Cache(), hosts, writeSets;
      var left := roots;
      NothingSentYet(hosts, l.kinds);
      while left != {}
        invariant left <= roots && hosts.Keys == scripts.Keys == roots && AllPlayed(l, hosts, scripts)
        invariant hostLocks == old(hostLocks) && bits == old(bits) && fields == old(fields)
                  && writeSets == old(writeSets)
        invariant componentLocks == old(componentLocks) && cycle == old(cycle)
        invariant SentExcept(was, hosts, left, l.kinds)
        decreases left
      {
        var r :| r in left;
        OneKept(l, k, sets, cycle, was, r);
        ghost var mid := hosts;
        StillLeft(was, hosts, left, r, l.kinds);
        if (r, true) in hostLocks {
          SendWrites(r);
        } else {
          NothingSent(l, k, sets, cycle, was, r);
        }
        SentNext(was, mid, hosts, left, r, l.kinds);
        left := left - {r};
      }
      AllSent(was, hosts, l.kinds);
      hostLocks, bits, writeSets := {}, {}, map[];
    }

    /** releaseLocks: exactly one unlock to each component any lock was taken on. */
    method ReleaseLocks()
      requires hosts.Keys == scripts.Keys == roots && AllPlayed(l, hosts, scripts) && componentLocks <= roots
      requires forall r :: r in componentLocks ==> hosts[r].phase == Holding(false) || hosts[r].phase == Committed
      modifies this`componentLocks, this`hosts, this`scripts
      ensures componentLocks == {} && hosts.Keys == scripts.Keys == roots && AllPlayed(l, hosts, scripts)
      ensures forall r :: r in roots ==>
                hosts[r] == if r in old(componentLocks) then ReleasedHost(old(hosts[r])) else old(hosts[r])
    {
      hide AllPlayed, ReleasedHost, ReleasedExcept, HostStep;
      ghost var was := hosts;
      var left := componentLocks;
      NothingReleased(hosts, componentLocks);
      while left != {}
        invariant left <= componentLocks == old(componentLocks)
        invariant hosts.Keys == scripts.Keys == roots && AllPlayed(l, hosts, scripts)
        invariant ReleasedExcept(was, hosts, componentLocks, left)
        decreases left
      {
        var r :| r in left;
        ghost var turn := Act(ReleaseLock(me));
        ReleasedNext(was, hosts, componentLocks, left, r);
        ReleasePlays(l, me, hosts, scripts, r);
        scripts := scripts[r := scripts[r] + [turn]];
        hosts := hosts[r := ReleasedHost(hosts[r])];
        left := left - {r};
      }
      AllReleased(was, hosts, componentLocks);
      componentLocks := {};
    }

    /** The end of Program::run: the writes, then the unlocks. */
    method EndCycle() returns (ghost sent: map<nat, Host>)
      requires Valid()
      modifies this
      ensures Valid() && hostLocks == {} && bits == {} && writeSets == map[] && cycle == old(cycle) + 1
      ensures sent.Keys == roots && forall r :: r in roots ==> Sent(old(hosts[r]), sent[r], l.kinds)
      ensures forall r :: r in roots ==> hosts[r] == if Held(old(hostLocks), r) then ReleasedHost(sent[r]) else sent[r]
      ensures AllHeed(old(hosts)) ==> AllHeed(hosts)
    {
      hide AllKept, AllPlayed, Tiles, Sent, ReleasedHost, Layout.Ok, AllHeed;
      ghost var k, mid, sets, locked := Cache(), hosts, writeSets, componentLocks;
      CompleteSimulationLocks();
      sent := hosts;
      SentPhases(l, k, sets, cycle, mid, sent);
      ReleaseLocks();
      AllClosed(l, k, sets, cycle, mid, sent, hosts, locked, fields);
      AllHeedClosed(mid, sent, hosts, locked, l.kinds);
      cycle := cycle + 1;
    }

    /**
     One whole cycle. Each component the simulation used has been driven through the steps of a LockProtocol
     host, none of them refused: its session is exactly the accesses made to it and the values they returned,
     what it is sent decodes to the writes made to it, and it is unlocked once. All others are left alone.
     */
    method Cycle(ops: seq<Op>, replies: seq<Reply>) returns (results: seq<Option<Value>>)
      requires Valid() && hostLocks == {}
      requires |replies| == |ops| && (forall i :: 0 <= i < |ops| ==> l.Allows(ops[i]))
      requires Disciplined({}, ops, l)
      modifies this
      ensures Valid() && hostLocks == {} && cycle == old(cycle) + 1
      ensures |results| == |ops|
      ensures forall r :: r in roots ==>
                Cycled(old(hosts[r]), hosts[r], OpsOn(ops, l, r), ValuesOn(ops, results, l, r), old(cycle), l.kinds)
      ensures AllHeed(old(hosts)) ==> AllHeed(hosts)
    {
      hide AllKept, AllPlayed, Tiles, Sent, ReleasedHost, Followed, LocksOf, Cycled, OpsOn, ValuesOn, AllReady,
        Rooted, Disciplined, AllHeed;
      results := Access(ops, replies);
      ghost var k, mid, sets := Cache(), hosts, writeSets;
      AccessReady(l, old(hosts), hosts, scripts, ops, results, hostLocks);
      ghost var sent := EndCycle();
      AllCycled(l, k, sets, old(cycle), old(hosts), mid, sent, hosts, ops, results, fields);
    }
  }
}
