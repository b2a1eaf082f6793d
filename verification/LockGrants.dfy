/**
 Who is granted in a round: nobody twice except a reader that upgrades, everybody who gets past waiting, and
 so a bounded number in all.
 */
module LockGrants {
  import opened Prelude
  import opened LockTable
  import opened LockServer
  import opened LockEntries
  import opened LockProtocol
  import opened LockInvariant
  import opened LockHistory
  import opened LockEarly

  predicate Got(grants: seq<GrantRecord>, a: Addr, round: nat, write: bool) {
    exists i :: 0 <= i < |grants| && grants[i].to == a && grants[i].round == round && grants[i].write == write
  }

  /** Two grants of a round to one host are its read grant and then its upgrade. */
  predicate GrantsOnce(grants: seq<GrantRecord>) {
    forall i, j :: 0 <= i < j < |grants| && grants[i].to == grants[j].to && grants[i].round == grants[j].round ==>
      !grants[i].write && grants[j].write
  }

  /** What an entry says about the grants its host has had in this round. */
  predicate EntryGrants(e: Option<Entry>, read: bool, write: bool) {
    if e.None? then !read && !write
    else
      match e.value.state
      case Read => !read && !write
      case Reading => read && !write
      case Write => !write
      case Writing => write
      case Finished => read || write
  }

  function CurrentEntry(s: State, a: Addr): Option<Entry> {
    Lookup(CurrentTable(s.server), a.host)
  }

  predicate HostGrants(s: State, a: Addr) {
    EntryGrants(CurrentEntry(s, a), Got(s.hist.grants, a, s.hist.round, false),
      Got(s.hist.grants, a, s.hist.round, true))
  }

  predicate Granting(s: State) {
    && GrantsOnce(s.hist.grants)
    && (forall i :: 0 <= i < |s.hist.grants| ==> s.hist.grants[i].round <= s.hist.round)
    && forall a :: a in s.hosts ==> HostGrants(s, a)
  }

  /** How a handler may move the entry of a host, given whether it grants to it. */
  predicate Moves(e: Option<Entry>, n: Option<Entry>, granted: bool) {
    if granted then
      || (Is(n, Reading) && (e.None? || Is(e, Read)))
      || (Is(n, Writing) && (Is(e, Write) || Is(e, Reading)))
    else
      || n == e
      || (e.None? && (Is(n, Read) || Is(n, Write)))
      || ((Is(e, Read) || Is(e, Reading)) && Is(n, Write))
      || ((Is(e, Reading) || Is(e, Writing)) && Is(n, Finished))
  }

  lemma GotGrows(grants: seq<GrantRecord>, sent: seq<Addr>, sv: Server, round: nat, now: nat, a: Addr, write: bool)
    ensures Got(grants + Records(sent, sv, round, now), a, round, write) <==>
            Got(grants, a, round, write) || (a in sent && IsWriting(sv, a.host) == write)
  {
    hide IsWriting;
    var r := Records(sent, sv, round, now);
    if i :| 0 <= i < |grants| && grants[i].to == a && grants[i].round == round && grants[i].write == write {
      assert (grants + r)[i] == grants[i];
    }
    if i :| 0 <= i < |sent| && sent[i] == a && IsWriting(sv, a.host) == write {
      assert (grants + r)[|grants| + i] == r[i];
    }
    var all := grants + r;
    if i :| 0 <= i < |all| && all[i].to == a && all[i].round == round && all[i].write == write {
      if i >= |grants| { assert sent[i - |grants|] == a; }
    }
  }

  /** The mode a grant is recorded with is the state of the entry. */
  lemma WritingIs(sv: Server, host: nat)
    requires sv.current.Some?
    ensures Is(Lookup(sv.current.value, host), Writing) ==> IsWriting(sv, host)
    ensures Is(Lookup(sv.current.value, host), Reading) ==> !IsWriting(sv, host)
  {
  }

  lemma GrantsGrow(s: State, n: State, sent: seq<Addr>)
    requires Granting(s) && NoDuplicates(sent) && n.server.current.Some? && n.hosts.Keys == s.hosts.Keys
    requires n.hist.grants == s.hist.grants + Records(sent, n.server, s.hist.round, Now(s))
             && n.hist.round == s.hist.round
    requires forall a :: a in sent ==> a in s.hosts
    requires forall a :: a in s.hosts ==> Moves(CurrentEntry(s, a), CurrentEntry(n, a), a in sent)
    ensures Granting(n)
  {
    hide IsWriting, CurrentEntry;
    var g, r := s.hist.grants, s.hist.round;
    forall a | a in n.hosts ensures HostGrants(n, a) {
      assert HostGrants(s, a);
      GotGrows(g, sent, n.server, r, Now(s), a, false);
      GotGrows(g, sent, n.server, r, Now(s), a, true);
      EntryMode(n, a);
    }
    forall i, j | 0 <= i < j < |n.hist.grants| && n.hist.grants[i].to == n.hist.grants[j].to
      && n.hist.grants[i].round == n.hist.grants[j].round
      ensures !n.hist.grants[i].write && n.hist.grants[j].write
    {
      if j >= |g| {
        var a := sent[j - |g|];
        assert HostGrants(s, a) && Moves(CurrentEntry(s, a), CurrentEntry(n, a), true);
        EntryMode(n, a);
        assert i < |g|;
        assert Got(g, a, r, g[i].write);
      }
    }
  }

  lemma EntryMode(n: State, a: Addr)
    requires n.server.current.Some?
    ensures Is(CurrentEntry(n, a), Writing) ==> IsWriting(n.server, a.host)
    ensures Is(CurrentEntry(n, a), Reading) ==> !IsWriting(n.server, a.host)
  {
    WritingIs(n.server, a.host);
  }

  // ---- Steps ----

  lemma QuietGranting(s: State, n: State)
    requires Granting(s) && n.hosts.Keys == s.hosts.Keys && n.server == s.server
    requires n.hist.grants == s.hist.grants && n.hist.round == s.hist.round
    ensures Granting(n)
  {
    hide Got;
    forall a | a in n.hosts ensures HostGrants(n, a) {
      assert HostGrants(s, a);
    }
  }

  lemma OutsideGranting(s: State, act: Action)
    requires !act.Process? && Granting(s) && Step(s, act).Next?
    ensures Granting(Step(s, act).state)
  {
    hide Granting;
    QuietGranting(s, Step(s, act).state);
  }

  /** With handed-on entries, exactly the granted hosts move. */
  lemma HandedMoves(e: Option<Entry>, n: Option<Entry>, b: Addr, grants: seq<Addr>)
    requires HandedOn(e, n, grants) && (e.Some? ==> e.value.Address() == b) && (b in grants ==> e.Some?)
    ensures Moves(e, n, b in grants)
  {
  }

  lemma StartGranting(s: State)
    requires Core(s) && Granting(s) && s.queue != [] && s.queue[0].StartToken? && ProcessStep(s).Next?
    ensures Granting(ProcessStep(s).state)
  {
    hide Granting, OnStart, Push, Changes, WellFormed, Serialised, HostsGood, Records, Moves, HandedOn;
    QueueTail(s);
    assert WellFormed(s.server, false) && s.server.current.Some?;
    StartGrants(s.server);
    StartEntries(s.server);
    var r := OnStart(s.server);
    SettleSame(s.(queue := s.queue[1..]), r);
    var n := ProcessStep(s).state;
    forall b ensures b in r.grants ==> b in s.hosts && Lookup(s.server.current.value, b.host).Some? {
      assert GrantedRightly(s.server, r.server, b, r.grants);
    }
    forall b | b in s.hosts ensures Moves(CurrentEntry(s, b), CurrentEntry(n, b), b in r.grants) {
      if CurrentEntry(s, b).Some? { AddressOf(s, s.server.current.value, b); }
      HandedMoves(CurrentEntry(s, b), CurrentEntry(n, b), b, r.grants);
    }
    GrantsGrow(s, n, r.grants);
  }

  lemma StartEntries(sv: Server)
    requires WellFormed(sv, false) && sv.current.Some? && OnStart(sv).Done?
    ensures OnStart(sv).server.current.Some?
    ensures forall h :: HandedOn(Lookup(sv.current.value, h), Lookup(OnStart(sv).server.current.value, h),
            OnStart(sv).grants)
  {
    GrantedEntries(sv, sv.current.value, StartNoWriter);
  }

  lemma LockGranting(s: State, a: Addr, write: bool, cycle: nat)
    requires Core(s) && Granting(s) && s.queue != [] && s.queue[0] == Msg(a, LockReq(write, cycle))
             && ProcessStep(s).Next?
    ensures Granting(ProcessStep(s).state)
  {
    hide Core, Granting, OnLock, Push, Changes, Records, Moves, ViewOf, LockRecorded, Locked;
    LockFacts(s, a, write, cycle);
    LockGrantRecords(s, a, write, cycle);
    var r := OnLock(s.server, a, cycle, write);
    var n := ProcessStep(s).state;
    LockMoves(s, a, write, cycle);
    GrantsGrow(s, n, r.grants);
  }

  lemma LockGrantRecords(s: State, a: Addr, write: bool, cycle: nat)
    requires Core(s) && s.queue != [] && s.queue[0] == Msg(a, LockReq(write, cycle)) && ProcessStep(s).Next?
    requires a in s.hosts && Locked(s.server, Started(s), a, cycle, write, OnLock(s.server, a, cycle, write))
    ensures var n, r := ProcessStep(s).state, OnLock(s.server, a, cycle, write);
            && n.server == r.server && n.hosts.Keys == s.hosts.Keys && n.server.current.Some?
            && n.hist.grants == s.hist.grants + Records(r.grants, n.server, s.hist.round, Now(s))
            && n.hist.round == s.hist.round && NoDuplicates(r.grants)
  {
    hide Core, OnLock, Push, Changes, Records, ViewOf, LockRecorded, WellFormed;
    var r := OnLock(s.server, a, cycle, write);
    LockedGrants(s.server, Started(s), a, cycle, write, r);
    SettleSame(WithHost(s.(queue := s.queue[1..]), a,
      LockRecorded(s.hosts[a], ViewOf(s.server, a.host), a in r.grants, |s.hist.log|)), r);
  }

  lemma LockMoves(s: State, a: Addr, write: bool, cycle: nat)
    requires Core(s) && a in s.hosts && OnLock(s.server, a, cycle, write).Done?
    ensures var r := OnLock(s.server, a, cycle, write);
            && r.server.current.Some? && (forall b :: b in r.grants ==> b in s.hosts)
            && forall b :: b in s.hosts ==>
                 Moves(CurrentEntry(s, b), Lookup(r.server.current.value, b.host), b in r.grants)
  {
    hide OnLock, WellFormed, HostsGood, Serialised, Within;
    AskedEntries(s.server, Started(s), a, cycle, write);
    var e := CurrentEntry(s, a);
    if e.Some? {
      EntryOf(s, a);
    }
    forall b | b in s.hosts && b != a ensures b.host != a.host {
    }
  }

  lemma EntryOf(s: State, a: Addr)
    requires Core(s) && a in s.hosts && CurrentEntry(s, a).Some?
    ensures s.server.current.Some? && CurrentEntry(s, a).value.Address() == a
  {
    AddressOf(s, s.server.current.value, a);
  }

  lemma UnlockGranting(s: State, a: Addr, req: Request)
    requires Core(s) && Granting(s) && s.queue != [] && s.queue[0] == Msg(a, req) && req.UnlockReq?
             && ProcessStep(s).Next?
    ensures Granting(ProcessStep(s).state)
  {
    hide Core, Granting, OnUnlock, Push, Changes, Records, Moves, ViewOf, Unlocked, SameClient;
    UnlockFacts(s, a, req);
    var r := OnUnlock(s.server, a, req.cycle);
    UnlockedGrants(s.server, a, req.cycle, r);
    SettleSame(WithHost(s.(queue := s.queue[1..]), a, Finish(s.hosts[a], req.cycle)), r);
    var n := ProcessStep(s).state;
    if r.released {
      ReleaseGranting(s, n, a, req.cycle);
    } else {
      UnlockMoves(s, a, req.cycle);
      GrantsGrow(s, n, r.grants);
    }
  }

  lemma UnlockMoves(s: State, a: Addr, cycle: nat)
    requires Core(s) && Started(s) && a in s.hosts && ViewOf(s.server, a.host).Granted?
    requires Unlocked(s.server, a, cycle, OnUnlock(s.server, a, cycle)) && !OnUnlock(s.server, a, cycle).released
    ensures var r := OnUnlock(s.server, a, cycle);
            && r.server.current.Some? && (forall b :: b in r.grants ==> b in s.hosts)
            && forall b :: b in s.hosts ==>
                 Moves(CurrentEntry(s, b), Lookup(r.server.current.value, b.host), b in r.grants)
  {
    hide OnUnlock, WellFormed, HostsGood, Serialised, Moves, HandedOn;
    var r := OnUnlock(s.server, a, cycle);
    UnlockedEntries(s.server, a, cycle);
    forall b ensures b in r.grants ==> b in s.hosts && b != a && Lookup(s.server.current.value, b.host).Some? {
      if b.host != a.host { assert GrantedRightly(s.server, r.server, b, r.grants); }
    }
    forall b | b in s.hosts ensures Moves(CurrentEntry(s, b), Lookup(r.server.current.value, b.host), b in r.grants) {
      if b == a {
        FinishMoves(s, a, Lookup(r.server.current.value, a.host));
      } else {
        DifferentHosts(s, a, b);
        if CurrentEntry(s, b).Some? { EntryOf(s, b); }
        HandedMoves(CurrentEntry(s, b), Lookup(r.server.current.value, b.host), b, r.grants);
      }
    }
  }

  lemma FinishMoves(s: State, a: Addr, n: Option<Entry>)
    requires s.server.current.Some? && ViewOf(s.server, a.host).Granted? && Is(n, Finished)
    ensures Moves(CurrentEntry(s, a), n, false)
  {
  }

  /** The next round starts with nobody granted. */
  lemma ReleaseGranting(s: State, n: State, a: Addr, cycle: nat)
    requires Core(s) && Granting(s) && n.hosts.Keys == s.hosts.Keys
    requires Unlocked(s.server, a, cycle, OnUnlock(s.server, a, cycle)) && OnUnlock(s.server, a, cycle).released
    requires n.server == OnUnlock(s.server, a, cycle).server
    requires n.hist.grants == s.hist.grants + Records(OnUnlock(s.server, a, cycle).grants, n.server, s.hist.round,
             Now(s))
    requires n.hist.round == s.hist.round + 1
    ensures Granting(n)
  {
    hide OnUnlock, HostsGood, Serialised, Topology;
    assert n.hist.grants == s.hist.grants;
    EmptyIsWaiting();
    forall b | b in n.hosts ensures HostGrants(n, b) {
      var e := CurrentEntry(n, b);
      assert e.Some? ==> Is(e, Read) || Is(e, Write);
    }
  }

  lemma StepGranting(s: State, act: Action)
    requires Core(s) && Granting(s) && Step(s, act).Next?
    ensures Granting(Step(s, act).state)
  {
    hide Core, Granting, ProcessStep;
    if act.Process? {
      assert s.queue != [] by { ProcessHasEvent(s); }
      match s.queue[0] {
        case StartToken => StartGranting(s);
        case Msg(a, LockReq(w, c)) => LockGranting(s, a, w, c);
        case Msg(a, UnlockReq(_, _, _, _)) => UnlockGranting(s, a, s.queue[0].req);
        case Msg(a, req) => AccessGranting(s, a, req);
      }
    } else {
      OutsideGranting(s, act);
    }
  }

  lemma AccessGranting(s: State, a: Addr, req: Request)
    requires Core(s) && Granting(s) && s.queue != [] && s.queue[0] == Msg(a, req) && (req.ReadReq? || req.WriteReq?)
    requires ProcessStep(s).Next?
    ensures Granting(ProcessStep(s).state)
  {
    hide Core, Granting, OnAccess, Decoded;
    AccessFacts(s, a, req);
    QuietGranting(s, ProcessStep(s).state);
  }

  // ---- How many ----

  /** The grants of one round to the given addresses. */
  ghost function RoundGrants(grants: seq<GrantRecord>, round: nat, to: set<Addr>): set<nat> {
    set i | 0 <= i < |grants| && grants[i].round == round && grants[i].to in to
  }

  lemma AtMostTwo(grants: seq<GrantRecord>, round: nat, a: Addr)
    requires GrantsOnce(grants)
    ensures |RoundGrants(grants, round, {a})| <= 2
  {
    var g := RoundGrants(grants, round, {a});
    var shared := set i | i in g && !grants[i].write;
    var exclusive := set i | i in g && grants[i].write;
    assert g == shared + exclusive;
    Single(shared);
    Single(exclusive);
  }

  lemma Single(s: set<nat>)
    requires forall i, j :: i in s && j in s ==> i == j
    ensures |s| <= 1
  {
    if i :| i in s {
      assert s == {i};
    }
  }

  lemma {:induction false} AtMostTwoEach(grants: seq<GrantRecord>, round: nat, to: set<Addr>)
    requires GrantsOnce(grants)
    ensures |RoundGrants(grants, round, to)| <= 2 * |to|
  {
    if to == {} {
      assert RoundGrants(grants, round, to) == {};
    } else {
      var a :| a in to;
      AtMostTwo(grants, round, a);
      AtMostTwoEach(grants, round, to - {a});
      assert RoundGrants(grants, round, to) == RoundGrants(grants, round, {a}) + RoundGrants(grants, round, to - {a});
    }
  }
}
