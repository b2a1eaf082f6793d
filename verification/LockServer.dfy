/**
 The lock handlers of EGRequestManagerActivity as functions on the current and the future lock
 (src/component/activities.cpp:169-551, src/component/component.cpp:77-115).
 */
module LockServer {
  import opened Prelude
  import opened LockTable

  datatype Server = Server(current: Option<Table>, future: Option<Table>)

  /** One constructor for each way a handler throws. */
  datatype Fault =
    | ReadNotHeld | ReadNoEntry | WriteNotHeld | WriteNoEntry
    | ReadLockTwice | FutureReadTwice | WriteLockTwice | FutureWriteTwice
    | UnlockNoCurrent | UnlockNoEntry | UnlockNoWriter
    | StartNoCurrent | StartNoWriter
    | UnknownType            // the default case of the generated encode and decode

  /** What a handler leaves behind: the locks, the grants it sent in order, and whether the round was released. */
  datatype Handled =
    | Done(server: Server, grants: seq<Addr>, released: bool)
    | Thrown(fault: Fault)

  function WithCurrent(sv: Server): (r: Server)
    ensures r.current.Some?
  {
    if sv.current.Some? then sv
    else if sv.future.Some? then Server(sv.future, None)
    else Server(Some([]), None)
  }

  function WithFuture(sv: Server): (r: Server)
    ensures r.future.Some? && r.current == sv.current
  {
    if sv.future.Some? then sv else sv.(future := Some([]))
  }

  function JoinFuture(sv: Server, a: Addr, cycle: nat, state: LockState): Handled {
    Done(sv.(future := Some(Put(WithFuture(sv).future.value, a, cycle, state))), [], false)
  }

  function OnReadLock(sv: Server, a: Addr, cycle: nat): Handled {
    var s := WithCurrent(sv);
    var t := s.current.value;
    var i := Find(t, a.host);
    if i < |t| then
      if t[i].cycle == cycle then Thrown(ReadLockTwice)
      else
        var f := WithFuture(s).future.value;
        if Find(f, a.host) < |f| then Thrown(FutureReadTwice)
        else JoinFuture(s, a, cycle, Read)
    else if Has(t, Reading) then Done(s.(current := Some(Put(t, a, cycle, Reading))), [a], false)
    else Done(s.(current := Some(Put(t, a, cycle, Read))), [], false)
  }

  function OnWriteLock(sv: Server, a: Addr, cycle: nat): Handled {
    var s := WithCurrent(sv);
    var t := s.current.value;
    var i := Find(t, a.host);
    if i < |t| then
      if t[i].cycle == cycle then
        if t[i].state == Read then Done(s.(current := Some(Put(t, a, cycle, Write))), [], false)
        else if t[i].state == Reading then
          var u := Put(t, a, cycle, Write);
          if Has(u, Reading) then Done(s.(current := Some(u)), [], false)
          else Done(s.(current := Some(Put(u, a, cycle, Writing))), [t[i].Address()], false)
        else Thrown(WriteLockTwice)
      else
        var f := WithFuture(s).future.value;
        var k := Find(f, a.host);
        if k < |f| && !(f[k].cycle == cycle && f[k].state == Read) then Thrown(FutureWriteTwice)
        else JoinFuture(s, a, cycle, Write)
    else Done(s.(current := Some(Put(t, a, cycle, Write))), [], false)
  }

  function OnLock(sv: Server, a: Addr, cycle: nat, write: bool): Handled {
    if write then OnWriteLock(sv, a, cycle) else OnReadLock(sv, a, cycle)
  }

  /** All waiting readers, or else the first waiting writer, become holders. */
  function GrantNext(sv: Server, t: Table, none: Fault): Handled {
    if Has(t, Read) then Done(sv.(current := Some(StartReaders(t))), Addresses(t, Read), false)
    else
      var k := FirstWriter(t);
      if k < |t| then Done(sv.(current := Some(t[k := t[k].(state := Writing)])), [t[k].Address()], false)
      else Thrown(none)
  }

  function OnUnlock(sv: Server, a: Addr, cycle: nat): Handled {
    if sv.current.None? then Thrown(UnlockNoCurrent)
    else
      var t := sv.current.value;
      if Find(t, a.host) == |t| then Thrown(UnlockNoEntry)
      else
        var u := Put(t, a, cycle, Finished);
        if AllFinished(u) then Done(Server(sv.future, None), [], true)
        else if Has(u, Reading) then Done(sv.(current := Some(u)), [], false)
        else GrantNext(sv, u, UnlockNoWriter)
  }

  function OnStart(sv: Server): Handled {
    if sv.current.None? then Thrown(StartNoCurrent)
    else GrantNext(sv, sv.current.value, StartNoWriter)
  }

  /** The state check that guards a read (write == false) or a write of the host's data. */
  function OnAccess(sv: Server, a: Addr, write: bool): Handled {
    var s := WithCurrent(sv);
    var t := s.current.value;
    var i := Find(t, a.host);
    if i == |t| then Thrown(if write then WriteNoEntry else ReadNoEntry)
    else if t[i].state == Writing || (!write && t[i].state == Reading) then Done(s, [], false)
    else Thrown(if write then WriteNotHeld else ReadNotHeld)
  }

  // ---- The server as one host sees it ----

  datatype View =
    | Out(seen: Option<nat>)               // no lock; `seen` is the cycle it finished in this round
    | Queued(write: bool, cycle: nat)      // in the current or the future lock, not granted
    | Granted(write: bool, cycle: nat)

  function FutureView(sv: Server, seen: nat, host: nat): View {
    if sv.future.None? then Out(Some(seen))
    else
      match Lookup(sv.future.value, host)
      case None => Out(Some(seen))
      case Some(e) => Queued(e.state == Write, e.cycle)
  }

  function ViewOf(sv: Server, host: nat): View {
    if sv.current.None? then Out(None)
    else
      match Lookup(sv.current.value, host)
      case None => Out(None)
      case Some(e) =>
        match e.state
        case Read => Queued(false, e.cycle)
        case Write => Queued(true, e.cycle)
        case Reading => Granted(false, e.cycle)
        case Writing => Granted(true, e.cycle)
        case Finished => FutureView(sv, e.cycle, host)
  }

  /** Every entry belongs to one of the addresses. */
  ghost predicate Within(t: Table, all: set<Addr>) {
    forall h :: Lookup(t, h).Some? ==> Lookup(t, h).value.Address() in all
  }

  ghost predicate AllWithin(sv: Server, all: set<Addr>) {
    && (sv.current.Some? ==> Within(sv.current.value, all))
    && (sv.future.Some? ==> Within(sv.future.value, all))
  }

  /** A lock for the next round: requests only, all from hosts that are done with this one. */
  ghost predicate FutureOk(f: Table, t: Table) {
    && DistinctHosts(f) && Inhabited(f) && AllWaiting(f)
    && forall h {:trigger Lookup(f, h)} :: Lookup(f, h).Some? ==> Is(Lookup(t, h), Finished)
  }

  /** The invariant of the two locks, before and after the round is started. */
  ghost predicate WellFormed(sv: Server, started: bool) {
    && (sv.current.None? ==> sv.future.None? && !started)
    && (sv.current.Some? ==>
          var t := sv.current.value;
          && DistinctHosts(t) && Inhabited(t)
          && (if started then HasHolder(t) && Exclusive(t) else AllWaiting(t)))
    && (sv.future.Some? ==> FutureOk(sv.future.value, sv.current.value))
  }

  /** A host whose view a handler did not change, or that is out of a released round. */
  predicate Undisturbed(v: View, w: View) {
    w == v || (v.Out? && w == Out(None))
  }

  /** The handler turned the host's request into a grant. */
  predicate Promoted(v: View, w: View) {
    v.Queued? && w == Granted(v.write, v.cycle)
  }

  // ---- Handler by handler ----

  lemma UnstartedHasNoFuture(sv: Server)
    requires WellFormed(sv, false)
    ensures sv.future.None?
  {
  }

  /** Views depend on the tables only through their lookups. */
  lemma SameViews(sv: Server, now: Server, host: nat)
    requires sv.current.Some? && now.current.Some? && now.future == sv.future
    requires forall h :: h != host ==> Lookup(now.current.value, h) == Lookup(sv.current.value, h)
    ensures forall h :: h != host ==> ViewOf(now, h) == ViewOf(sv, h)
  {
  }

  predicate Reads(t: Table, write: bool) {
    !write && Has(t, Reading)
  }

  function CurrentTable(sv: Server): Table {
    if sv.current.Some? then sv.current.value else []
  }

  function JoinState(t: Table, write: bool): LockState {
    if write then Write else if Reads(t, write) then Reading else Read
  }

  lemma JoinsTable(sv: Server, started: bool, a: Addr, cycle: nat, write: bool)
    requires WellFormed(sv, started)
    requires Lookup(CurrentTable(sv), a.host).None?
    ensures var t := CurrentTable(sv);
            && OnLock(sv, a, cycle, write) ==
               Done(Server(Some(Put(t, a, cycle, JoinState(t, write))), sv.future),
                    if Reads(t, write) then [a] else [], false)
            && (Reads(t, write) ==> started)
  {
    HasLooks(CurrentTable(sv), Reading);
    UnstartedOrSome(sv, started);
  }

  lemma UnstartedOrSome(sv: Server, started: bool)
    requires WellFormed(sv, started)
    ensures sv.current.None? ==> sv.future.None? && !started
  {
  }

  lemma JoinKeepsTable(t: Table, started: bool, a: Addr, cycle: nat, write: bool)
    requires DistinctHosts(t) && Lookup(t, a.host).None?
    requires if started then HasHolder(t) && Exclusive(t) else AllWaiting(t)
    ensures var u := Put(t, a, cycle, JoinState(t, write));
            && DistinctHosts(u) && Inhabited(u)
            && (if started then HasHolder(u) && Exclusive(u) else AllWaiting(u))
  {
    var state := JoinState(t, write);
    var u := Put(t, a, cycle, state);
    PutLooks(t, a, cycle, state);
    HasLooks(t, Reading);
    assert Lookup(u, a.host).Some?;
    if started {
      var h :| Is(Lookup(t, h), Reading) || Is(Lookup(t, h), Writing);
      assert Lookup(u, h) == Lookup(t, h);
      JoinExclusive(t, u, a.host, state);
    }
  }

  lemma JoinExclusive(t: Table, u: Table, host: nat, state: LockState)
    requires Exclusive(t) && Lookup(t, host).None? && Is(Lookup(u, host), state)
    requires forall h :: h != host ==> Lookup(u, h) == Lookup(t, h)
    requires state == Write
             || (state == Reading && exists h {:trigger Lookup(t, h)} :: Is(Lookup(t, h), Reading))
             || (state == Read && !exists h {:trigger Lookup(t, h)} :: Is(Lookup(t, h), Reading))
    ensures Exclusive(u)
  {
  }

  lemma EmptyIsWaiting()
    ensures DistinctHosts([]) && AllWaiting([]) && forall h :: Lookup([], h).None?
  {
  }

  /** A host without an entry joins the current round; a reader is let in at once when others read. */
  lemma JoinsCurrent(sv: Server, started: bool, a: Addr, cycle: nat, write: bool)
    requires WellFormed(sv, started)
    requires Lookup(CurrentTable(sv), a.host).None?
    ensures OnLock(sv, a, cycle, write).Done?
    ensures var r := OnLock(sv, a, cycle, write);
            var atOnce := Reads(CurrentTable(sv), write);
            && r.grants == (if atOnce then [a] else []) && !r.released && r.server.current.Some?
            && (atOnce ==> started)
            && WellFormed(r.server, started)
            && ViewOf(r.server, a.host) == (if atOnce then Granted(false, cycle) else Queued(write, cycle))
            && forall h :: h != a.host ==> ViewOf(r.server, h) == ViewOf(sv, h)
  {
    hide OnLock, Lookup, DistinctHosts, Put, HasHolder, Exclusive, Has;
    var t := CurrentTable(sv);
    var u := Put(t, a, cycle, JoinState(t, write));
    EmptyIsWaiting();
    JoinsTable(sv, started, a, cycle, write);
    JoinKeepsTable(t, started, a, cycle, write);
    PutLooks(t, a, cycle, JoinState(t, write));
    SameViews(Server(Some(t), sv.future), Server(Some(u), sv.future), a.host);
    assert sv.future.Some? ==> FutureOk(sv.future.value, u);
  }

  /** A host that finished this round at another cycle waits in the future lock. */
  lemma JoinsFuture(sv: Server, a: Addr, cycle: nat, write: bool)
    requires WellFormed(sv, true)
    requires ViewOf(sv, a.host).Out? && ViewOf(sv, a.host).seen.Some? && ViewOf(sv, a.host).seen.value != cycle
    ensures OnLock(sv, a, cycle, write).Done?
    ensures var r := OnLock(sv, a, cycle, write);
            var f := if sv.future.Some? then sv.future.value else [];
            && r == Done(Server(sv.current, Some(Put(f, a, cycle, if write then Write else Read))), [], false)
            && WellFormed(r.server, true)
            && ViewOf(r.server, a.host) == Queued(write, cycle)
            && forall h :: h != a.host ==> ViewOf(r.server, h) == ViewOf(sv, h)
  {
    hide WellFormed, Put;
    assert sv.current.Some?;
    FutureJoined(sv, a, cycle, write);
  }

  lemma FutureJoined(sv: Server, a: Addr, cycle: nat, write: bool)
    requires WellFormed(sv, true)
    requires ViewOf(sv, a.host).Out? && ViewOf(sv, a.host).seen.Some?
    ensures var f := if sv.future.Some? then sv.future.value else [];
            var r := Server(sv.current, Some(Put(f, a, cycle, if write then Write else Read)));
            && WellFormed(r, true)
            && ViewOf(r, a.host) == Queued(write, cycle)
            && forall h :: h != a.host ==> ViewOf(r, h) == ViewOf(sv, h)
  {
    hide Exclusive, HasHolder, Put, Lookup, DistinctHosts;
    var f := if sv.future.Some? then sv.future.value else [];
    var state := if write then Write else Read;
    EmptyIsWaiting();
    PutLooks(f, a, cycle, state);
    assert Lookup(Put(f, a, cycle, state), a.host).Some?;
  }

  lemma SeenIsStarted(sv: Server, started: bool, host: nat)
    requires WellFormed(sv, started) && ViewOf(sv, host).Out? && ViewOf(sv, host).seen.Some?
    ensures started
  {
  }

  /** A lock request of a host that holds nothing joins the current round, or waits for the next. */
  lemma LockJoins(sv: Server, started: bool, a: Addr, cycle: nat, write: bool)
    requires WellFormed(sv, started)
    requires ViewOf(sv, a.host).Out? && ViewOf(sv, a.host).seen != Some(cycle)
    ensures Locked(sv, started, a, cycle, write, OnLock(sv, a, cycle, write))
  {
    if ViewOf(sv, a.host).seen.None? {
      JoinsCurrent(sv, started, a, cycle, write);
    } else {
      SeenIsStarted(sv, started, a.host);
      JoinsFuture(sv, a, cycle, write);
    }
  }

  ghost predicate OnlyReader(t: Table, host: nat) {
    forall h {:trigger Lookup(t, h)} :: Is(Lookup(t, h), Reading) ==> h == host
  }

  lemma UpgradeKeepsTable(t: Table, a: Addr, cycle: nat)
    requires DistinctHosts(t) && Exclusive(t) && Is(Lookup(t, a.host), Reading)
    ensures var u := Put(t, a, cycle, if OnlyReader(t, a.host) then Writing else Write);
            DistinctHosts(u) && HasHolder(u) && Exclusive(u)
    ensures Has(Put(t, a, cycle, Write), Reading) <==> !OnlyReader(t, a.host)
  {
    hide Lookup, DistinctHosts, Put, Has;
    PutLooks(t, a, cycle, Write);
    PutLooks(t, a, cycle, Writing);
    HasLooks(Put(t, a, cycle, Write), Reading);
    if !OnlyReader(t, a.host) {
      var h :| Is(Lookup(t, h), Reading) && h != a.host;
      assert Is(Lookup(Put(t, a, cycle, Write), h), Reading);
    } else {
      assert Is(Lookup(Put(t, a, cycle, Writing), a.host), Writing);
    }
  }

  lemma PutTwice(t: Table, a: Addr, cycle: nat, first: LockState, second: LockState)
    requires Lookup(t, a.host).Some?
    ensures Put(Put(t, a, cycle, first), a, cycle, second) == Put(t, a, cycle, second)
  {
    FindIs(Put(t, a, cycle, first), a.host, Find(t, a.host));
  }

  /** A reader asking for the write lock gets it at once iff it was the only reader; else it waits. */
  lemma LockUpgrades(sv: Server, a: Addr, cycle: nat)
    requires WellFormed(sv, true)
    requires ViewOf(sv, a.host) == Granted(false, cycle)
    requires Lookup(sv.current.value, a.host).value.coordinator == a.coordinator
    ensures Locked(sv, true, a, cycle, true, OnLock(sv, a, cycle, true))
    ensures OnLock(sv, a, cycle, true).grants == if OnlyReader(sv.current.value, a.host) then [a] else []
  {
    var t := sv.current.value;
    var alone := OnlyReader(t, a.host);
    var u := Put(t, a, cycle, if alone then Writing else Write);
    UpgradeKeepsTable(t, a, cycle);
    PutTwice(t, a, cycle, Write, Writing);
    PutLooks(t, a, cycle, if alone then Writing else Write);
    SameViews(sv, sv.(current := Some(u)), a.host);
    assert sv.future.Some? ==> FutureOk(sv.future.value, u);
    assert Lookup(u, a.host).Some?;
  }

  /** Handing the lock on: everybody waiting to read, or else the first waiting writer. */
  lemma GrantNextGrants(sv: Server, t: Table, none: Fault)
    requires DistinctHosts(t) && (sv.future.Some? ==> FutureOk(sv.future.value, t))
    requires forall h {:trigger Lookup(t, h)} :: !Is(Lookup(t, h), Reading) && !Is(Lookup(t, h), Writing)
    requires exists h :: Lookup(t, h).Some? && !Is(Lookup(t, h), Finished)
    ensures GrantNext(sv, t, none).Done?
    ensures var r := GrantNext(sv, t, none);
            var was := sv.(current := Some(t));
            && r.server.current.Some? && r.server.future == sv.future && !r.released
            && WellFormed(r.server, true)
            && NoDuplicates(r.grants)
            && forall a :: GrantedRightly(was, r.server, a, r.grants)
  {
    HasLooks(t, Read);
    HasLooks(t, Write);
    if Has(t, Read) {
      ReadersGranted(sv, t, none);
    } else {
      WriterGranted(sv, t, none);
    }
  }

  /** Between two states of the server, exactly the listed addresses got what they waited for. */
  predicate GrantedRightly(was: Server, now: Server, a: Addr, grants: seq<Addr>)
    requires was.current.Some? && now.current.Some?
  {
    var e, g := Lookup(was.current.value, a.host), Lookup(now.current.value, a.host);
    && (a in grants ==> e.Some? && e.value.Address() == a)
    && (e.Some? ==> g.Some? && g.value.coordinator == e.value.coordinator)
    && (e.None? ==> g.None?)
    && (e.Some? && e.value.Address() == a ==>
          var v, w := ViewOf(was, a.host), ViewOf(now, a.host);
          if a in grants then Promoted(v, w) else w == v)
  }

  lemma ReadersExclusive(t: Table)
    requires DistinctHosts(t) && Has(t, Read)
    requires forall h {:trigger Lookup(t, h)} :: !Is(Lookup(t, h), Reading) && !Is(Lookup(t, h), Writing)
    ensures var u := StartReaders(t); HasHolder(u) && Exclusive(u) && Inhabited(u)
  {
    var u := StartReaders(t);
    HasLooks(t, Read);
    StartReadersLooks(t);
    var h :| Is(Lookup(t, h), Read);
    assert Is(Lookup(u, h), Reading);
  }

  lemma LookupHost(t: Table, host: nat)
    ensures Lookup(t, host).Some? ==> Lookup(t, host).value.host == host
  {
  }

  lemma ReadersGranted(sv: Server, t: Table, none: Fault)
    requires DistinctHosts(t) && (sv.future.Some? ==> FutureOk(sv.future.value, t))
    requires forall h {:trigger Lookup(t, h)} :: !Is(Lookup(t, h), Reading) && !Is(Lookup(t, h), Writing)
    requires Has(t, Read)
    ensures var r := GrantNext(sv, t, none);
            && WellFormed(r.server, true)
            && NoDuplicates(r.grants)
            && forall a :: GrantedRightly(sv.(current := Some(t)), r.server, a, r.grants)
  {
    hide Lookup, DistinctHosts, StartReaders, Addresses, NoDuplicates, HasHolder, Exclusive;
    var u := StartReaders(t);
    var grants := Addresses(t, Read);
    ReadersExclusive(t);
    StartReadersLooks(t);
    AddressesDistinct(t, Read);
    assert sv.future.Some? ==> FutureOk(sv.future.value, u);
    forall a ensures GrantedRightly(sv.(current := Some(t)), sv.(current := Some(u)), a, grants) {
      AddressesLook(t, Read, a);
      LookupHost(t, a.host);
    }
  }

  lemma WriterGranted(sv: Server, t: Table, none: Fault)
    requires DistinctHosts(t) && (sv.future.Some? ==> FutureOk(sv.future.value, t))
    requires forall h {:trigger Lookup(t, h)} :: !Is(Lookup(t, h), Reading) && !Is(Lookup(t, h), Writing)
    requires !Has(t, Read) && Has(t, Write)
    ensures var r := GrantNext(sv, t, none);
            && r.Done? && WellFormed(r.server, true)
            && NoDuplicates(r.grants)
            && forall a :: GrantedRightly(sv.(current := Some(t)), r.server, a, r.grants)
  {
    hide Lookup, DistinctHosts;
    var k := FirstWriter(t);
    var u := t[k := t[k].(state := Writing)];
    EntryLooks(t, k);
    UpdateLooks(t, k, Writing);
    assert Is(Lookup(u, t[k].host), Writing);
    assert Exclusive(u);
    forall h { LookupHost(t, h); }
  }

  /** The start token grants the first batch of an unstarted round. */
  lemma StartGrants(sv: Server)
    requires WellFormed(sv, false) && sv.current.Some?
    ensures OnStart(sv).Done?
    ensures var r := OnStart(sv);
            && r.server.current.Some? && r.server.future == sv.future && !r.released
            && WellFormed(r.server, true)
            && NoDuplicates(r.grants)
            && forall a :: GrantedRightly(sv, r.server, a, r.grants)
  {
    UnstartedHasNoFuture(sv);
    assert sv.(current := sv.current) == sv;
    GrantNextGrants(sv, sv.current.value, StartNoWriter);
  }

  /** The effect of a holder's unlock on every host. */
  ghost predicate Unlocked(sv: Server, a: Addr, cycle: nat, r: Handled) {
    && r.Done? && sv.current.Some?
    && WellFormed(r.server, !r.released)
    && (r.released ==>
          && r.grants == [] && r.server == Server(sv.future, None)
          && ViewOf(r.server, a.host) == Out(None)
          && forall h :: h != a.host ==> Undisturbed(ViewOf(sv, h), ViewOf(r.server, h)))
    && (!r.released ==>
          && r.server.current.Some? && r.server.future == sv.future
          && ViewOf(r.server, a.host) == Out(Some(cycle))
          && SameOwner(sv, r.server, a.host)
          && NoDuplicates(r.grants)
          && forall b: Addr :: if b.host == a.host then b !in r.grants else GrantedRightly(sv, r.server, b, r.grants))
  }

  /** The effect of a lock request: the host is queued or granted, nobody else notices. */
  ghost predicate Locked(sv: Server, started: bool, a: Addr, cycle: nat, write: bool, r: Handled) {
    && r.Done? && !r.released && r.server.current.Some?
    && WellFormed(r.server, started)
    && (|| (r.grants == [] && ViewOf(r.server, a.host) == Queued(write, cycle))
        || (r.grants == [a] && started && ViewOf(r.server, a.host) == Granted(write, cycle)))
    && forall h :: h != a.host ==> ViewOf(r.server, h) == ViewOf(sv, h)
  }

  /**
   A holder's unlock leaves another holder, starts all waiting readers, starts the first waiting
   writer, or releases the round to the future lock.
   */
  lemma UnlockFinishes(sv: Server, a: Addr, cycle: nat)
    requires WellFormed(sv, true)
    requires ViewOf(sv, a.host).Granted? && ViewOf(sv, a.host).cycle == cycle
    ensures OnUnlock(sv, a, cycle).Done?
    ensures Unlocked(sv, a, cycle, OnUnlock(sv, a, cycle))
  {
    hide OnUnlock;
    var t := sv.current.value;
    var u := Put(t, a, cycle, Finished);
    if !AllFinished(u) && !Has(u, Reading) {
      UnlockGrants(sv, a, cycle);
    } else {
      UnlockQuietly(sv, a, cycle);
    }
  }

  /** The last holder of a round, or one reader among several, unlocks: nobody is granted. */
  lemma UnlockQuietly(sv: Server, a: Addr, cycle: nat)
    requires WellFormed(sv, true)
    requires ViewOf(sv, a.host).Granted? && ViewOf(sv, a.host).cycle == cycle
    requires AllFinished(Put(sv.current.value, a, cycle, Finished))
             || Has(Put(sv.current.value, a, cycle, Finished), Reading)
    ensures Unlocked(sv, a, cycle, OnUnlock(sv, a, cycle))
  {
    var u := Put(sv.current.value, a, cycle, Finished);
    UnlockTable(sv, a, cycle);
    if AllFinished(u) {
      ReleaseViews(sv, u, a.host);
    } else {
      SameViews(sv, sv.(current := Some(u)), a.host);
      forall b: Addr | b.host != a.host ensures GrantedRightly(sv, sv.(current := Some(u)), b, []) {
      }
    }
  }

  lemma UnlockGrants(sv: Server, a: Addr, cycle: nat)
    requires WellFormed(sv, true)
    requires ViewOf(sv, a.host).Granted? && ViewOf(sv, a.host).cycle == cycle
    requires var u := Put(sv.current.value, a, cycle, Finished); !AllFinished(u) && !Has(u, Reading)
    ensures Unlocked(sv, a, cycle, OnUnlock(sv, a, cycle))
  {
    hide WellFormed;
    assert sv.current.Some?;
    var u := Put(sv.current.value, a, cycle, Finished);
    var mid := sv.(current := Some(u));
    UnlockTable(sv, a, cycle);
    GrantNextGrants(sv, u, UnlockNoWriter);
    UnlockHandsOn(sv, mid, a, OnUnlock(sv, a, cycle));
  }

  predicate SameOwner(sv: Server, now: Server, host: nat)
    requires sv.current.Some? && now.current.Some?
  {
    var e, g := Lookup(sv.current.value, host), Lookup(now.current.value, host);
    e.Some? && g.Some? && g.value.coordinator == e.value.coordinator
  }

  lemma UnlockTable(sv: Server, a: Addr, cycle: nat)
    requires WellFormed(sv, true) && ViewOf(sv, a.host).Granted?
    ensures var t := sv.current.value;
            var u := Put(t, a, cycle, Finished);
            && DistinctHosts(u) && Inhabited(u)
            && Is(Lookup(u, a.host), Finished) && Lookup(u, a.host).value.cycle == cycle
            && SameOwner(sv, sv.(current := Some(u)), a.host)
            && (forall h :: h != a.host ==> Lookup(u, h) == Lookup(t, h))
            && (sv.future.Some? ==> FutureOk(sv.future.value, u) && Lookup(sv.future.value, a.host).None?)
            && (AllFinished(u) <==> forall h :: Lookup(u, h).Some? ==> Is(Lookup(u, h), Finished))
            && (Has(u, Reading) ==> Exclusive(u) && HasHolder(u))
            && (!Has(u, Reading) ==>
                  forall h {:trigger Lookup(u, h)} :: !Is(Lookup(u, h), Reading) && !Is(Lookup(u, h), Writing))
  {
    var t := sv.current.value;
    var u := Put(t, a, cycle, Finished);
    PutLooks(t, a, cycle, Finished);
    HasLooks(u, Reading);
    AllFinishedLooks(u);
    assert Lookup(u, a.host).Some?;
    if Has(u, Reading) {
      StillReading(t, u, a.host);
    } else {
      NobodyHolds(t, u, a.host);
    }
  }

  lemma ReleaseViews(sv: Server, u: Table, host: nat)
    requires WellFormed(sv, true)
    requires forall h :: h != host ==> Lookup(u, h) == Lookup(sv.current.value, h)
    requires forall h :: Lookup(u, h).Some? ==> Is(Lookup(u, h), Finished)
    requires sv.future.Some? ==> FutureOk(sv.future.value, u) && Lookup(sv.future.value, host).None?
    ensures var next := Server(sv.future, None);
            && WellFormed(next, false)
            && ViewOf(next, host) == Out(None)
            && forall h :: h != host ==> Undisturbed(ViewOf(sv, h), ViewOf(next, h))
  {
    var next := Server(sv.future, None);
    forall h | h != host ensures Undisturbed(ViewOf(sv, h), ViewOf(next, h)) {
      assert Lookup(u, h) == Lookup(sv.current.value, h);
    }
  }

  lemma StillReading(t: Table, u: Table, host: nat)
    requires Exclusive(t) && Is(Lookup(u, host), Finished)
    requires forall h :: h != host ==> Lookup(u, h) == Lookup(t, h)
    requires exists h {:trigger Lookup(u, h)} :: Is(Lookup(u, h), Reading)
    ensures Exclusive(u) && HasHolder(u)
  {
  }

  lemma NobodyHolds(t: Table, u: Table, host: nat)
    requires Exclusive(t) && Is(Lookup(u, host), Finished)
             && (Is(Lookup(t, host), Reading) || Is(Lookup(t, host), Writing))
    requires forall h :: h != host ==> Lookup(u, h) == Lookup(t, h)
    requires forall h {:trigger Lookup(u, h)} :: !Is(Lookup(u, h), Reading)
    ensures forall h {:trigger Lookup(u, h)} :: !Is(Lookup(u, h), Reading) && !Is(Lookup(u, h), Writing)
  {
    assert forall h :: Is(Lookup(u, h), Writing) ==> h != host && Is(Lookup(t, h), Writing);
  }

  lemma UnlockHandsOn(sv: Server, mid: Server, a: Addr, r: Handled)
    requires r.Done? && sv.current.Some? && mid.current.Some? && r.server.current.Some?
    requires mid.future == sv.future
    requires forall h :: h != a.host ==> Lookup(mid.current.value, h) == Lookup(sv.current.value, h)
    requires ViewOf(mid, a.host).Out? && Is(Lookup(mid.current.value, a.host), Finished)
    requires forall b :: GrantedRightly(mid, r.server, b, r.grants)
    ensures forall b: Addr :: if b.host == a.host then b !in r.grants else GrantedRightly(sv, r.server, b, r.grants)
    ensures ViewOf(r.server, a.host) == ViewOf(mid, a.host) && SameOwner(mid, r.server, a.host)
  {
    var e := Lookup(mid.current.value, a.host).value;
    assert GrantedRightly(mid, r.server, Addr(e.coordinator, a.host), r.grants);
    forall b: Addr ensures if b.host == a.host then b !in r.grants else GrantedRightly(sv, r.server, b, r.grants) {
      assert GrantedRightly(mid, r.server, b, r.grants);
    }
  }

  /** A holder may read; a holder of the write lock may write. */
  lemma HolderMayAccess(sv: Server, a: Addr, write: bool)
    requires ViewOf(sv, a.host).Granted? && (write ==> ViewOf(sv, a.host).write)
    ensures OnAccess(sv, a, write) == Done(sv, [], false)
  {
  }

  // ---- Whose entries there are ----

  lemma PutWithin(t: Table, a: Addr, cycle: nat, state: LockState, all: set<Addr>)
    requires DistinctHosts(t) && Within(t, all) && a in all
    ensures Within(Put(t, a, cycle, state), all)
  {
    PutLooks(t, a, cycle, state);
    var i := Find(t, a.host);
    assert Lookup(t, a.host).Some? ==> Lookup(t, a.host).value.host == a.host;
  }

  /** A lock request adds at most an entry of the address that asked. */
  lemma OnLockWithin(sv: Server, started: bool, a: Addr, cycle: nat, write: bool, all: set<Addr>)
    requires WellFormed(sv, started) && AllWithin(sv, all) && a in all && OnLock(sv, a, cycle, write).Done?
    ensures AllWithin(OnLock(sv, a, cycle, write).server, all)
  {
    var t := CurrentTable(sv);
    var f := if sv.current.Some? && sv.future.Some? then sv.future.value else [];
    forall state { PutWithin(t, a, cycle, state, all); }
    forall state { PutWithin(f, a, cycle, state, all); }
    if Lookup(t, a.host).Some? {
      PutTwice(t, a, cycle, Write, Writing);
    }
  }

  lemma GrantsWithin(was: Server, now: Server, grants: seq<Addr>, all: set<Addr>)
    requires was.current.Some? && now.current.Some? && now.future == was.future
    requires AllWithin(was, all)
    requires forall a :: GrantedRightly(was, now, a, grants)
    ensures AllWithin(now, all)
  {
    var t, u := was.current.value, now.current.value;
    forall h | Lookup(u, h).Some? ensures Lookup(u, h).value.Address() in all {
      assert GrantedRightly(was, now, Addr(0, h), grants);
      assert Lookup(u, h).value.host == h && Lookup(t, h).value.host == h;
    }
  }
}
