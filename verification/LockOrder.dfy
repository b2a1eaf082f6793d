/**
 Who is granted when, by the positions of the entries in the vector: what each handler does to the entries, whom a
 start or an unlock hands the lock to, and in which order the writers of a round are granted
 (src/component/activities.cpp:180-551).
 */
module LockOrder {
  import opened Prelude
  import opened LockTable
  import opened LockServer
  import opened LockProtocol
  import opened LockInvariant
  import opened LockHistory
  import opened LockRuns

  // ---- The vector ----

  /** The indices of the entries in a state, in order. */
  ghost predicate Picks(t: Table, state: LockState, at: seq<nat>) {
    && (forall x :: 0 <= x < |at| ==> at[x] < |t| && t[at[x]].state == state)
    && (forall x, y :: 0 <= x < y < |at| ==> at[x] < at[y])
    && (forall i: nat :: i < |t| && t[i].state == state ==> i in at)
  }

  ghost predicate AddressesAt(t: Table, at: seq<nat>, sent: seq<Addr>) {
    |sent| == |at| &&
    forall x :: 0 <= x < |at| ==> at[x] < |t| && sent[x] == Addr(t[at[x]].coordinator, t[at[x]].host)
  }

  /** One response for each of these entries, in vector order. */
  ghost predicate Answered(t: Table, state: LockState, sent: seq<Addr>) {
    exists at: seq<nat> :: Picks(t, state, at) && AddressesAt(t, at, sent)
  }

  lemma {:induction false} AddressesAnswer(t: Table, state: LockState)
    ensures Answered(t, state, Addresses(t, state))
  {
    hide Picks, AddressesAt;
    if t == [] {
      NothingPicked(t, state);
    } else {
      AddressesAnswer(t[1..], state);
      var rest: seq<nat> :| Picks(t[1..], state, rest) && AddressesAt(t[1..], rest, Addresses(t[1..], state));
      var moved: seq<nat> := seq(|rest|, x requires 0 <= x < |rest| => rest[x] + 1);
      var at: seq<nat> := (if t[0].state == state then [0] else []) + moved;
      MovedPicks(t, state, rest, moved, at);
      MovedAddresses(t, state, rest, moved, at, Addresses(t[1..], state));
    }
  }

  lemma NothingPicked(t: Table, state: LockState)
    requires t == []
    ensures Picks(t, state, []) && AddressesAt(t, [], [])
  {
  }

  lemma MovedAddresses(t: Table, state: LockState, rest: seq<nat>, moved: seq<nat>, at: seq<nat>, sent: seq<Addr>)
    requires t != [] && AddressesAt(t[1..], rest, sent)
    requires |moved| == |rest| && forall x :: 0 <= x < |rest| ==> moved[x] == rest[x] + 1
    requires at == (if t[0].state == state then [0] else []) + moved
    ensures AddressesAt(t, at, (if t[0].state == state then [t[0].Address()] else []) + sent)
  {
    assert forall x :: 0 <= x < |moved| ==> t[moved[x]] == t[1..][rest[x]];
  }

  lemma MovedPicks(t: Table, state: LockState, rest: seq<nat>, moved: seq<nat>, at: seq<nat>)
    requires t != [] && Picks(t[1..], state, rest)
    requires |moved| == |rest| && forall x :: 0 <= x < |rest| ==> moved[x] == rest[x] + 1
    requires at == (if t[0].state == state then [0] else []) + moved
    ensures Picks(t, state, at)
  {
    forall i: nat | i < |t| && t[i].state == state ensures i in at {
      if i > 0 {
        assert t[1..][i - 1].state == state;
        var x :| 0 <= x < |rest| && rest[x] == i - 1;
        assert moved[x] == i;
      }
    }
  }

  // ---- Handing the lock on ----

  /**
   Whoever waits to read is let in, every one of them and no writer; if nobody does, the first one that waits to
   write is, and nobody else.
   */
  ghost predicate HandedTo(t: Table, u: Table, sent: seq<Addr>) {
    if exists i :: 0 <= i < |t| && t[i].state == Read then
      && |u| == |t|
      && (forall i :: 0 <= i < |t| ==> u[i] == if t[i].state == Read then t[i].(state := Reading) else t[i])
      && Answered(t, Read, sent)
    else
      exists k :: 0 <= k < |t| && t[k].state == Write && (forall j :: 0 <= j < k ==> t[j].state != Write)
                  && u == t[k := t[k].(state := Writing)] && sent == [Addr(t[k].coordinator, t[k].host)]
  }

  predicate Waits(t: Table) {
    exists i :: 0 <= i < |t| && (t[i].state == Read || t[i].state == Write)
  }

  lemma GrantNextIs(sv: Server, t: Table, none: Fault)
    ensures var r := GrantNext(sv, t, none);
            if Waits(t) then
              r.Done? && r.server.current.Some? && r.server.future == sv.future && !r.released
              && HandedTo(t, r.server.current.value, r.grants)
            else r == Thrown(none)
  {
    AddressesAnswer(t, Read);
    if Has(t, Read) {
      var i :| 0 <= i < |t| && t[i].state == Read;
      assert Waits(t);
    } else {
      var k := FirstWriter(t);
      assert k < |t| ==> Waits(t);
      assert k == |t| ==> !Waits(t);
    }
  }

  /** The start of a round, for any locks whatever. */
  lemma StartIs(sv: Server)
    ensures sv.current.None? ==> OnStart(sv) == Thrown(StartNoCurrent)
    ensures sv.current.Some? ==>
              var t, r := sv.current.value, OnStart(sv);
              if exists i :: 0 <= i < |t| && (t[i].state == Read || t[i].state == Write) then
                r.Done? && r.server.current.Some? && r.server.future == sv.future && !r.released
                && HandedTo(t, r.server.current.value, r.grants)
              else r == Thrown(StartNoWriter)
  {
    if sv.current.Some? {
      hide GrantNext, HandedTo;
      GrantNextIs(sv, sv.current.value, StartNoWriter);
    }
  }

  /** The vector with a host's first entry finished. */
  ghost predicate FinishedAt(t: Table, u: Table, i: nat, host: nat, cycle: nat) {
    && i < |t| && t[i].host == host && (forall j :: 0 <= j < i ==> t[j].host != host)
    && u == t[i := t[i].(cycle := cycle, state := Finished)]
  }

  /**
   An unlock, for any locks whatever: it finishes the first entry of its host; then the round is released if all have
   finished, nothing more happens if somebody still reads, and otherwise the lock is handed on among the others.
   */
  lemma UnlockIs(sv: Server, a: Addr, cycle: nat) returns (i: nat, u: Table)
    ensures sv.current.None? ==> OnUnlock(sv, a, cycle) == Thrown(UnlockNoCurrent)
    ensures sv.current.Some? ==>
              var t, r := sv.current.value, OnUnlock(sv, a, cycle);
              if forall j :: 0 <= j < |t| ==> t[j].host != a.host then r == Thrown(UnlockNoEntry)
              else
                && FinishedAt(t, u, i, a.host, cycle)
                && if forall j :: 0 <= j < |u| ==> u[j].state == Finished then
                     r == Done(Server(sv.future, None), [], true)
                   else if exists j :: 0 <= j < |u| && u[j].state == Reading then
                     r == Done(Server(Some(u), sv.future), [], false)
                   else if exists j :: 0 <= j < |u| && (u[j].state == Read || u[j].state == Write) then
                     r.Done? && r.server.current.Some? && r.server.future == sv.future && !r.released
                     && HandedTo(u, r.server.current.value, r.grants)
                   else r == Thrown(UnlockNoWriter)
  {
    i, u := 0, [];
    if sv.current.Some? {
      hide GrantNext, HandedTo;
      var t := sv.current.value;
      i := Find(t, a.host);
      if i < |t| {
        u := Put(t, a, cycle, Finished);
        GrantNextIs(sv, u, UnlockNoWriter);
      }
    }
  }

  // ---- Which requests are accepted, for any locks whatever ----

  /** The first entry of a host, if it has one. */
  ghost predicate FirstOf(t: Table, host: nat, e: Option<Entry>) {
    match e
    case None => forall i :: 0 <= i < |t| ==> t[i].host != host
    case Some(x) =>
      exists i :: 0 <= i < |t| && t[i] == x && x.host == host && forall j :: 0 <= j < i ==> t[j].host != host
  }

  lemma LookupIsFirst(t: Table, host: nat, e: Option<Entry>)
    requires FirstOf(t, host, e)
    ensures Lookup(t, host) == e
  {
    if e.Some? {
      var i :| 0 <= i < |t| && t[i] == e.value && e.value.host == host && forall j :: 0 <= j < i ==> t[j].host != host;
      FindIs(t, host, i);
    }
  }

  /** The table that a request meets: the current lock, else the future one, which then becomes current. */
  ghost predicate Meets(sv: Server, t: Table, f: Table) {
    match sv.current
    case Some(c) => t == c && f == (if sv.future.Some? then sv.future.value else [])
    case None => f == [] && t == (if sv.future.Some? then sv.future.value else [])
  }

  /**
   A request is accepted exactly when its host has no entry, or when its entry is of another cycle and none waits for
   the next round, or when it asks to write with the read lock asked for, in this round or the next, or held in this.
   */
  lemma RequestAcceptedIff(sv: Server, a: Addr, cycle: nat, write: bool, t: Table, f: Table, e: Option<Entry>,
                           next: Option<Entry>)
    requires Meets(sv, t, f) && FirstOf(t, a.host, e) && FirstOf(f, a.host, next)
    ensures OnLock(sv, a, cycle, write).Done? <==>
            || e.None?
            || (e.value.cycle != cycle && next.None?)
            || (e.value.cycle != cycle && write && next.value.cycle == cycle && next.value.state == Read)
            || (e.value.cycle == cycle && write && (e.value.state == Read || e.value.state == Reading))
    ensures OnLock(sv, a, cycle, write).Thrown? ==>
              OnLock(sv, a, cycle, write).fault ==
              if e.value.cycle == cycle then if write then WriteLockTwice else ReadLockTwice
              else if write then FutureWriteTwice else FutureReadTwice
  {
    LookupIsFirst(t, a.host, e);
    LookupIsFirst(f, a.host, next);
  }

  predicate SomeReading(t: Table) {
    exists i :: 0 <= i < |t| && t[i].state == Reading
  }

  predicate OtherReading(t: Table, host: nat) {
    exists i :: 0 <= i < |t| && t[i].state == Reading && t[i].host != host
  }

  /** What an accepted request does to the entries, and whether it is granted at once. */
  lemma RequestDoes(sv: Server, a: Addr, cycle: nat, write: bool, t: Table, f: Table, e: Option<Entry>)
    requires Meets(sv, t, f) && FirstOf(t, a.host, e) && DistinctHosts(t) && OnLock(sv, a, cycle, write).Done?
    ensures var r := OnLock(sv, a, cycle, write);
            var join := if write then Write else if SomeReading(t) then Reading else Read;
            var future := if sv.current.None? then None else sv.future;
            && !r.released && r.server.current.Some?
            && (e.None? ==>
                  && EntrySet(t, r.server.current.value, a, cycle, join) && r.server.future == future
                  && r.grants == if join == Reading then [a] else [])
            && (e.Some? && e.value.cycle == cycle ==>
                  var wait := e.value.state == Read || OtherReading(t, a.host);
                  && EntrySet(t, r.server.current.value, a, cycle, if wait then Write else Writing)
                  && r.server.future == future
                  && r.grants == if wait then [] else [Addr(e.value.coordinator, a.host)])
            && (e.Some? && e.value.cycle != cycle ==>
                  && r.server.current.value == t && r.server.future.Some? && r.grants == []
                  && EntrySet(f, r.server.future.value, a, cycle, if write then Write else Read))
  {
    LookupIsFirst(t, a.host, e);
    hide Put;
    forall state ensures EntrySet(t, Put(t, a, cycle, state), a, cycle, state) {
      PutSets(t, a, cycle, state);
    }
    forall state ensures EntrySet(f, Put(f, a, cycle, state), a, cycle, state) {
      PutSets(f, a, cycle, state);
    }
    if e.Some? {
      PutTwice(t, a, cycle, Write, Writing);
      StillOthers(t, a, cycle, Find(t, a.host));
    }
    hide EntrySet;
  }

  /** After the reader's own entry waits, somebody still reads exactly when another one did. */
  lemma StillOthers(t: Table, a: Addr, cycle: nat, k: nat)
    requires DistinctHosts(t) && k < |t| && k == Find(t, a.host)
    ensures Has(Put(t, a, cycle, Write), Reading) <==> OtherReading(t, a.host)
  {
    var u := Put(t, a, cycle, Write);
    if i :| 0 <= i < |t| && t[i].state == Reading && t[i].host != a.host {
      assert u[i].state == Reading;
    }
    if i :| 0 <= i < |u| && u[i].state == Reading {
      assert t[i].state == Reading && t[i].host != a.host;
    }
  }

  /** A read or write of data is let through exactly for a holder, and a write only for the writer. */
  lemma AccessAllowedIff(sv: Server, a: Addr, write: bool, t: Table, f: Table, e: Option<Entry>)
    requires Meets(sv, t, f) && FirstOf(t, a.host, e)
    ensures OnAccess(sv, a, write).Done? <==>
            e.Some? && (e.value.state == Writing || (!write && e.value.state == Reading))
    ensures OnAccess(sv, a, write).Done? ==>
              OnAccess(sv, a, write) ==
              Done(Server(Some(t), if sv.current.None? then None else sv.future), [], false)
    ensures OnAccess(sv, a, write).Thrown? ==>
              OnAccess(sv, a, write).fault ==
              if e.None? then if write then WriteNoEntry else ReadNoEntry
              else if write then WriteNotHeld else ReadNotHeld
  {
    LookupIsFirst(t, a.host, e);
  }

  // ---- The order of grants in every run ----

  /**
   A grant as the handler left the entries: after a read grant nobody waits to read; a write grant was given while
   nobody waited to read, and either to a reader that upgrades or to the first of those that waited to write.
   */
  ghost predicate InOrder(t: Table, u: Table, g: GrantRecord) {
    && (forall i :: 0 <= i < |u| ==> u[i].state != Read)
    && (g.write ==>
          exists k :: 0 <= k < |u| && Addr(u[k].coordinator, u[k].host) == g.to && u[k].state == Writing && k < |t|
            && (t[k].state == Reading || (t[k].state == Write && forall j :: 0 <= j < k ==> u[j].state != Write)))
  }

  predicate WriterFor(u: Table, host: nat) {
    exists i :: 0 <= i < |u| && u[i].host == host && u[i].state == Writing
  }

  lemma HandOverInOrder(t: Table, mid: Table, u: Table, sent: seq<Addr>, g: GrantRecord)
    requires |mid| == |t| && forall i :: 0 <= i < |t| ==> mid[i] == t[i] || mid[i].state == Finished
    requires HandedTo(mid, u, sent) && g.to in sent
    requires g.write == WriterFor(u, g.to.host)
    requires forall i :: 0 <= i < |mid| ==> mid[i].state != Writing
    ensures InOrder(t, u, g)
  {
    hide Answered;
    if exists i :: 0 <= i < |mid| && mid[i].state == Read {
      assert !g.write;
    } else {
      var k :| 0 <= k < |mid| && mid[k].state == Write && (forall j :: 0 <= j < k ==> mid[j].state != Write)
        && u == mid[k := mid[k].(state := Writing)] && sent == [Addr(mid[k].coordinator, mid[k].host)];
      assert u[k].state == Writing && Addr(u[k].coordinator, u[k].host) == g.to;
      assert mid[k] == t[k];
    }
  }

  lemma ByIndex(t: Table)
    requires DistinctHosts(t)
    ensures forall i :: 0 <= i < |t| ==> Lookup(t, t[i].host) == Some(t[i])
    ensures forall host :: Lookup(t, host).Some? ==> exists i :: 0 <= i < |t| && t[i] == Lookup(t, host).value
                                                                   && t[i].host == host
  {
    forall i | 0 <= i < |t| ensures Lookup(t, t[i].host) == Some(t[i]) {
      EntryLooks(t, i);
    }
    forall host | Lookup(t, host).Some?
      ensures exists i :: 0 <= i < |t| && t[i] == Lookup(t, host).value && t[i].host == host
    {
      assert t[Find(t, host)].host == host;
    }
  }

  lemma WritingAt(sv: Server, host: nat)
    requires sv.current.Some? && DistinctHosts(sv.current.value)
    ensures var t := sv.current.value;
            IsWriting(sv, host) == WriterFor(t, host)
  {
    hide Lookup, DistinctHosts;
    ByIndex(sv.current.value);
  }

  /** The records that a handler adds. */
  lemma NewRecord(m: State, r: Handled, i: nat)
    requires r.Done? && r.server.current.Some? && DistinctHosts(r.server.current.value)
    requires |m.hist.grants| <= i < |Settle(m, r).hist.grants|
    ensures var u, g := r.server.current.value, Settle(m, r).hist.grants[i];
            g.to in r.grants && g.write == WriterFor(u, g.to.host)
  {
    hide IsWriting;
    var x := i - |m.hist.grants|;
    WritingAt(r.server, r.grants[x].host);
  }

  lemma StartInOrder(s: State, n: State, i: nat)
    requires Core(s) && Core(n) && s.queue != [] && s.queue[0].StartToken? && Step(s, Process) == Next(n)
    requires |s.hist.grants| <= i < |n.hist.grants|
    ensures s.server.current.Some? && n.server.current.Some?
    ensures InOrder(s.server.current.value, n.server.current.value, n.hist.grants[i])
  {
    hide OnStart, HandedTo, Answered, HostsGood, Serialised, InOrder;
    QueueTail(s);
    assert WellFormed(s.server, false) && s.server.current.Some?;
    StartIs(s.server);
    StartGrants(s.server);
    var t, r := s.server.current.value, OnStart(s.server);
    ByIndex(t);
    NewRecord(s.(queue := s.queue[1..]), r, i);
    HandOverInOrder(t, t, r.server.current.value, r.grants, n.hist.grants[i]);
  }

  lemma UnlockInOrder(s: State, n: State, i: nat, a: Addr, req: Request)
    requires Core(s) && Core(n) && s.queue != [] && s.queue[0] == Msg(a, req) && req.UnlockReq?
    requires Step(s, Process) == Next(n) && |s.hist.grants| <= i < |n.hist.grants|
    ensures s.server.current.Some? && n.server.current.Some?
    ensures InOrder(s.server.current.value, n.server.current.value, n.hist.grants[i])
  {
    hide OnUnlock, HandedTo, Answered, HostsGood, Serialised, InOrder, ViewOf, FutureOk, GrantedRightly, Push, Changes;
    UnlockFacts(s, a, req);
    var r := OnUnlock(s.server, a, req.cycle);
    var t := s.server.current.value;
    var k, u := UnlockIs(s.server, a, req.cycle);
    UnlockedMid(s.server, a, req.cycle, k, u);
    var m := WithHost(s.(queue := s.queue[1..]), a, Finish(s.hosts[a], req.cycle));
    assert n.hist.grants == Settle(m, r).hist.grants;
    NewRecord(m, r, i);
    HandOverInOrder(t, u, r.server.current.value, r.grants, n.hist.grants[i]);
  }

  /** Once the holder has finished and nobody else reads, nobody holds the lock. */
  lemma UnlockedMid(sv: Server, a: Addr, cycle: nat, i: nat, u: Table)
    requires WellFormed(sv, true) && ViewOf(sv, a.host).Granted? && sv.current.Some?
    requires FinishedAt(sv.current.value, u, i, a.host, cycle)
    requires forall j :: 0 <= j < |u| ==> u[j].state != Reading
    ensures forall j :: 0 <= j < |u| ==> u[j].state != Writing
  {
    hide ViewOf, FutureOk, Exclusive;
    UnlockTable(sv, a, cycle);
    FindIs(sv.current.value, a.host, i);
    assert u == Put(sv.current.value, a, cycle, Finished);
    ByIndex(u);
    HasLooks(u, Reading);
  }

  lemma LockInOrder(s: State, n: State, i: nat, a: Addr, write: bool, cycle: nat)
    requires Core(s) && Core(n) && s.queue != [] && s.queue[0] == Msg(a, LockReq(write, cycle))
    requires Step(s, Process) == Next(n) && |s.hist.grants| <= i < |n.hist.grants|
    ensures s.server.current.Some? && n.server.current.Some?
    ensures InOrder(s.server.current.value, n.server.current.value, n.hist.grants[i])
  {
    hide OnLock, HostsGood, Serialised, InOrder, FutureOk, LockRecorded;
    LockFacts(s, a, write, cycle);
    var sv, r := s.server, OnLock(s.server, a, cycle, write);
    var h := LockRecorded(s.hosts[a], ViewOf(sv, a.host), a in r.grants, |s.hist.log|);
    var m := WithHost(s.(queue := s.queue[1..]), a, h);
    assert n == Settle(m, r);
    NewRecord(m, r, i);
    assert sv.current.Some? by { HeldCurrent(sv, Started(s)); }
    LockGrantInOrder(sv, a, cycle, write, n.hist.grants[i]);
  }

  lemma HeldCurrent(sv: Server, started: bool)
    requires WellFormed(sv, started) && started
    ensures sv.current.Some?
  {
  }

  /** A lock request that is granted at once. */
  lemma LockGrantInOrder(sv: Server, a: Addr, cycle: nat, write: bool, g: GrantRecord)
    requires WellFormed(sv, true) && sv.current.Some? && OnLock(sv, a, cycle, write).Done?
    requires var r := OnLock(sv, a, cycle, write);
             var u := r.server.current;
             && r.grants == [a] && g.to == a && u.Some?
             && g.write == WriterFor(u.value, a.host)
    ensures InOrder(sv.current.value, OnLock(sv, a, cycle, write).server.current.value, g)
  {
    hide OnLock, FutureOk, ViewOf, InOrder, EntrySet, Exclusive, HasHolder;
    var t, f := sv.current.value, if sv.future.Some? then sv.future.value else [];
    var e := Lookup(t, a.host);
    var u := OnLock(sv, a, cycle, write).server.current.value;
    LookedFirst(t, a.host);
    RequestDoes(sv, a, cycle, write, t, f, e);
    if e.None? {
      JoinInOrder(t, u, a, cycle, g);
    } else {
      RequestStates(sv, a, cycle, write, t, f, e);
      UpgradeInOrder(t, u, a, cycle, e.value, g);
    }
  }

  lemma NobodyWaitsToRead(t: Table)
    requires DistinctHosts(t) && Exclusive(t) && SomeReading(t)
    ensures forall i :: 0 <= i < |t| ==> t[i].state != Read
  {
    hide DistinctHosts;
    ByIndex(t);
    var j :| 0 <= j < |t| && t[j].state == Reading;
    assert Is(Lookup(t, t[j].host), Reading);
    forall i | 0 <= i < |t| ensures t[i].state != Read {
      assert Is(Lookup(t, t[i].host), Read) <==> t[i].state == Read;
    }
  }

  lemma JoinInOrder(t: Table, u: Table, a: Addr, cycle: nat, g: GrantRecord)
    requires DistinctHosts(t) && Exclusive(t) && SomeReading(t) && EntrySet(t, u, a, cycle, Reading)
    requires FirstOf(t, a.host, None) && g.to == a && g.write == WriterFor(u, a.host)
    ensures InOrder(t, u, g)
  {
    hide Exclusive;
    NobodyWaitsToRead(t);
  }

  lemma UpgradeInOrder(t: Table, u: Table, a: Addr, cycle: nat, e: Entry, g: GrantRecord)
    requires DistinctHosts(t) && Exclusive(t) && EntrySet(t, u, a, cycle, Writing) && FirstOf(t, a.host, Some(e))
    requires e.state == Reading && g.to == a && Addr(e.coordinator, e.host) == a
    ensures InOrder(t, u, g)
  {
    hide Exclusive;
    assert SomeReading(t);
    NobodyWaitsToRead(t);
    var k :| 0 <= k < |t| && t[k].host == a.host && (forall j :: 0 <= j < k ==> t[j].host != a.host)
      && u == t[k := Entry(t[k].coordinator, a.host, cycle, Writing)];
    assert t[k] == e && u[k].state == Writing;
  }

  lemma LookedFirst(t: Table, host: nat)
    ensures FirstOf(t, host, Lookup(t, host))
  {
  }

  lemma RequestStates(sv: Server, a: Addr, cycle: nat, write: bool, t: Table, f: Table, e: Option<Entry>)
    requires Meets(sv, t, f) && FirstOf(t, a.host, e) && e.Some? && OnLock(sv, a, cycle, write).Done?
    requires OnLock(sv, a, cycle, write).grants != []
    ensures e.value.state == Reading
  {
    LookupIsFirst(t, a.host, e);
  }

  /** In every run every grant is given in that order. */
  lemma GrantsInOrder(init: State, acts: seq<Action>, s: State, n: State, i: nat)
    requires Reaches(init, acts, s) && Step(s, Process) == Next(n) && |s.hist.grants| <= i < |n.hist.grants|
    ensures s.server.current.Some? && n.server.current.Some?
    ensures InOrder(s.server.current.value, n.server.current.value, n.hist.grants[i])
  {
    hide Core, Step, InOrder, Reaches;
    assert Core(s) by { CoreReached(init, acts, s); }
    StepKeeps(s, Process);
    assert s.queue != [] by { HasEvent(s, n); }
    match s.queue[0]
    case StartToken => StartInOrder(s, n, i);
    case Msg(a, LockReq(write, cycle)) => LockInOrder(s, n, i, a, write, cycle);
    case Msg(a, UnlockReq(_, _, _, _)) => UnlockInOrder(s, n, i, a, s.queue[0].req);
    case Msg(a, req) =>
      AccessSendsNone(s, n);
      assert false;
  }

  lemma CoreReached(init: State, acts: seq<Action>, s: State)
    requires Reaches(init, acts, s)
    ensures Core(s)
  {
    hide Core, Init, Run;
    ReachableIsGood(init, acts, s);
  }

  lemma HasEvent(s: State, n: State)
    requires Step(s, Process) == Next(n)
    ensures s.queue != []
  {
  }

  lemma AccessSendsNone(s: State, n: State)
    requires s.queue != [] && s.queue[0].Msg? && (s.queue[0].req.ReadReq? || s.queue[0].req.WriteReq?)
    requires Step(s, Process) == Next(n)
    ensures n.hist.grants == s.hist.grants
  {
    hide OnAccess, Decoded;
  }

  // ---- Over a whole round ----

  /** How an entry may move during a round. */
  predicate Moves(from: LockState, to: LockState) {
    || to == from
    || (from == Read && (to == Reading || to == Write))
    || (from == Reading && (to == Write || to == Writing || to == Finished))
    || (from == Write && to == Writing)
    || (from == Writing && to == Finished)
  }

  /** Entries stay where they are and move on; a writer that waited is let in only ahead of none that waits longer. */
  ghost predicate Onward(t: Table, u: Table) {
    && |t| <= |u|
    && (forall i :: 0 <= i < |t| ==>
          u[i].coordinator == t[i].coordinator && u[i].host == t[i].host && Moves(t[i].state, u[i].state))
    && (forall i, j :: 0 <= i < j < |t| && t[j].state == Write && u[j].state == Writing ==> u[i].state != Write)
  }

  lemma HandedOnward(t: Table, u: Table, sent: seq<Addr>)
    requires HandedTo(t, u, sent)
    ensures Onward(t, u)
  {
    hide Answered;
    if exists i :: 0 <= i < |t| && t[i].state == Read {
    } else {
      var k :| 0 <= k < |t| && t[k].state == Write && (forall j :: 0 <= j < k ==> t[j].state != Write)
        && u == t[k := t[k].(state := Writing)] && sent == [Addr(t[k].coordinator, t[k].host)];
    }
  }

  lemma SetOnward(t: Table, u: Table, a: Addr, cycle: nat, state: LockState, e: Option<Entry>)
    requires EntrySet(t, u, a, cycle, state) && FirstOf(t, a.host, e)
    requires e.Some? ==> Moves(e.value.state, state) && e.value.state != Write
    ensures Onward(t, u)
  {
    if e.Some? {
      var k :| 0 <= k < |t| && t[k].host == a.host && (forall j :: 0 <= j < k ==> t[j].host != a.host)
        && u == t[k := Entry(t[k].coordinator, a.host, cycle, state)];
      assert t[k] == e.value;
    }
  }

  lemma FinishedOnward(t: Table, mid: Table, u: Table, i: nat, host: nat, cycle: nat)
    requires FinishedAt(t, mid, i, host, cycle) && (t[i].state == Reading || t[i].state == Writing) && Onward(mid, u)
    ensures Onward(t, u)
  {
    forall x, y | 0 <= x < y < |t| && t[y].state == Write && u[y].state == Writing ensures u[x].state != Write {
      assert mid[y] == t[y];
    }
  }

  lemma SameOnward(t: Table)
    ensures Onward(t, t)
  {
  }

  lemma LockOnward(sv: Server, started: bool, a: Addr, cycle: nat, write: bool)
    requires WellFormed(sv, started) && sv.current.Some? && OnLock(sv, a, cycle, write).Done?
    ensures var r := OnLock(sv, a, cycle, write);
            r.server.current.Some? && Onward(sv.current.value, r.server.current.value)
  {
    hide OnLock, Lookup, EntrySet, Onward;
    var t, f := sv.current.value, if sv.future.Some? then sv.future.value else [];
    var e := Lookup(t, a.host);
    LookedFirst(t, a.host);
    LookedFirst(f, a.host);
    RequestDoes(sv, a, cycle, write, t, f, e);
    RequestAcceptedIff(sv, a, cycle, write, t, f, e, Lookup(f, a.host));
    var u := OnLock(sv, a, cycle, write).server.current.value;
    if e.None? {
      SetOnward(t, u, a, cycle, if write then Write else if SomeReading(t) then Reading else Read, e);
    } else if e.value.cycle == cycle {
      SetOnward(t, u, a, cycle, if e.value.state == Read || OtherReading(t, a.host) then Write else Writing, e);
    } else {
      SameOnward(t);
    }
  }

  lemma UnlockOnward(sv: Server, a: Addr, cycle: nat)
    requires WellFormed(sv, true) && ViewOf(sv, a.host).Granted? && OnUnlock(sv, a, cycle).Done?
    requires !OnUnlock(sv, a, cycle).released
    ensures var r := OnUnlock(sv, a, cycle);
            sv.current.Some? && r.server.current.Some? && Onward(sv.current.value, r.server.current.value)
  {
    hide OnUnlock, WellFormed, HandedTo, Onward;
    var i, u := UnlockIs(sv, a, cycle);
    var t := sv.current.value;
    FindIs(t, a.host, i);
    var now := OnUnlock(sv, a, cycle).server.current.value;
    if exists j :: 0 <= j < |u| && u[j].state == Reading {
      SameOnward(u);
    } else {
      HandedOnward(u, now, OnUnlock(sv, a, cycle).grants);
    }
    FinishedOnward(t, u, now, i, a.host, cycle);
  }

  /** A step that does not release the round moves its entries on. */
  lemma StepOnward(s: State, act: Action, n: State)
    requires Core(s) && s.server.current.Some? && Step(s, act) == Next(n) && n.hist.round == s.hist.round
    ensures n.server.current.Some? && Onward(s.server.current.value, n.server.current.value)
  {
    hide Core, ProcessStep, HostStep, Onward;
    if act.Process? {
      ProcessOnward(s, n);
    } else {
      SameOnward(s.server.current.value);
    }
  }

  lemma ProcessOnward(s: State, n: State)
    requires Core(s) && s.server.current.Some? && ProcessStep(s) == Next(n) && n.hist.round == s.hist.round
    ensures n.server.current.Some? && Onward(s.server.current.value, n.server.current.value)
  {
    hide HostsGood, Serialised, Topology, OnStart, OnLock, OnUnlock, OnAccess, Onward, Decoded, LockRecorded, ViewOf,
      WellFormed, Push, Records, Changes;
    var sv := s.server;
    match s.queue[0]
    case StartToken =>
      StartIs(sv);
      HandedOnward(sv.current.value, n.server.current.value, OnStart(sv).grants);
    case Msg(a, LockReq(write, cycle)) =>
      LockFacts(s, a, write, cycle);
      LockOnward(sv, Started(s), a, cycle, write);
    case Msg(a, UnlockReq(cycle, _, _, _)) =>
      UnlockFacts(s, a, s.queue[0].req);
      UnlockOnward(sv, a, cycle);
    case Msg(a, req) =>
      AccessFacts(s, a, req);
      SameOnward(sv.current.value);
  }

  lemma RoundsGrow(s: State, act: Action)
    requires Step(s, act).Next?
    ensures Step(s, act).state.hist.round >= s.hist.round
  {
    hide OnStart, OnLock, OnUnlock, OnAccess, HostStep, Decoded, LockRecorded, ViewOf, Push, Records, Changes;
  }

  /** Both wait to write, or the earlier one has had the lock. */
  predicate Earlier(u: Table, i: nat, j: nat) {
    i < j < |u| &&
    ((u[i].state == Write && u[j].state == Write) || u[i].state == Writing || u[i].state == Finished)
  }

  lemma EarlierStays(t: Table, u: Table, i: nat, j: nat)
    requires Earlier(t, i, j) && Onward(t, u)
    ensures Earlier(u, i, j)
  {
  }

  lemma {:induction false} EarlierInRound(s: State, acts: seq<Action>, i: nat, j: nat)
    requires Core(s) && s.server.current.Some? && Earlier(s.server.current.value, i, j)
    requires Run(s, acts).Next? && Run(s, acts).state.hist.round <= s.hist.round
    ensures var n := Run(s, acts).state;
            Core(n) && n.hist.round == s.hist.round && n.server.current.Some? && Earlier(n.server.current.value, i, j)
  {
    hide Core, Step, Earlier, Onward;
    if acts != [] {
      var before, act := acts[..|acts| - 1], acts[|acts| - 1];
      var m := Run(s, before).state;
      RoundsGrow(m, act);
      EarlierInRound(s, before, i, j);
      StepKeeps(m, act);
      StepOnward(m, act, Run(s, acts).state);
      EarlierStays(m.server.current.value, Run(s, acts).state.server.current.value, i, j);
    }
  }

  /**
   In every run: of two that wait to write in one round the one with the earlier entry is granted first, as long as
   the round lasts; entries never change their places.
   */
  lemma WritersInOrder(init: State, acts: seq<Action>, s: State, i: nat, j: nat, more: seq<Action>, n: State)
    requires Reaches(init, acts, s) && s.server.current.Some? && i < j < |s.server.current.value|
    requires s.server.current.value[i].state == Write && s.server.current.value[j].state == Write
    requires Run(s, more) == Next(n) && n.hist.round == s.hist.round
    ensures n.server.current.Some? && j < |n.server.current.value|
    ensures n.server.current.value[j].state != Write ==>
              n.server.current.value[i].state == Writing || n.server.current.value[i].state == Finished
  {
    hide Core, Run, Reaches;
    CoreReached(init, acts, s);
    EarlierInRound(s, more, i, j);
  }
}
