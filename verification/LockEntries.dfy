/** What each lock handler does to the entry of every host. */
module LockEntries {
  import opened Prelude
  import opened LockTable
  import opened LockServer

  /** The entry of the host that asks for a lock, before and after. */
  predicate Asked(e: Option<Entry>, n: Option<Entry>, a: Addr, grants: seq<Addr>) {
    || (n == e && grants == [])
    || (e.None? && n.Some? && n.value.Address() == a
        && ((n.value.state == Read && grants == []) || (n.value.state == Write && grants == [])
            || (n.value.state == Reading && grants == [a])))
    || (e.Some? && n.Some? && n.value.Address() == e.value.Address()
      && (e.value.state == Read || e.value.state == Reading)
        && ((n.value.state == Write && grants == [])
            || (e.value.state == Reading && n.value.state == Writing && grants == [e.value.Address()])))
  }

  /** The entry of any other host when the lock is handed on: it moves if and only if its address is granted. */
  predicate HandedOn(e: Option<Entry>, n: Option<Entry>, grants: seq<Addr>) {
    if e.Some? && e.value.Address() in grants then
      || (e.value.state == Read && n == Some(e.value.(state := Reading)))
      || (e.value.state == Write && n == Some(e.value.(state := Writing)))
    else n == e
  }

  lemma AskedEntries(sv: Server, started: bool, a: Addr, cycle: nat, write: bool)
    requires WellFormed(sv, started) && OnLock(sv, a, cycle, write).Done?
    ensures var r := OnLock(sv, a, cycle, write);
            && r.server.current.Some?
            && Asked(Lookup(CurrentTable(sv), a.host), Lookup(r.server.current.value, a.host), a, r.grants)
            && forall h :: h != a.host ==> Lookup(r.server.current.value, h) == Lookup(CurrentTable(sv), h)
  {
    hide Lookup, DistinctHosts, Put, Exclusive, HasHolder, AllWaiting;
    var t := CurrentTable(sv);
    EmptyIsWaiting();
    UnstartedOrSome(sv, started);
    FindLooks(t, a.host);
    forall state { PutLooks(t, a, cycle, state); }
    forall h { LookupHost(t, h); }
    if Lookup(t, a.host).None? {
      JoinsTable(sv, started, a, cycle, write);
    } else {
      PutTwice(t, a, cycle, Write, Writing);
    }
  }

  lemma FindLooks(t: Table, host: nat)
    ensures Find(t, host) < |t| <==> Lookup(t, host).Some?
    ensures Find(t, host) < |t| ==> Lookup(t, host) == Some(t[Find(t, host)])
  {
  }

  lemma GrantedEntries(sv: Server, t: Table, none: Fault)
    requires DistinctHosts(t) && GrantNext(sv, t, none).Done?
    ensures var r := GrantNext(sv, t, none);
            && r.server.current.Some?
            && forall h :: HandedOn(Lookup(t, h), Lookup(r.server.current.value, h), r.grants)
  {
    hide Lookup, DistinctHosts, StartReaders, Addresses;
    var r := GrantNext(sv, t, none);
    if Has(t, Read) {
      StartReadersLooks(t);
      forall h ensures HandedOn(Lookup(t, h), Lookup(StartReaders(t), h), Addresses(t, Read)) {
        LookupHost(t, h);
        if Lookup(t, h).Some? {
          AddressesLook(t, Read, Lookup(t, h).value.Address());
        }
      }
    } else {
      var k := FirstWriter(t);
      EntryLooks(t, k);
      UpdateLooks(t, k, Writing);
      forall h { LookupHost(t, h); }
    }
  }

  lemma UnlockedEntries(sv: Server, a: Addr, cycle: nat)
    requires WellFormed(sv, true) && ViewOf(sv, a.host).Granted?
    requires OnUnlock(sv, a, cycle).Done? && !OnUnlock(sv, a, cycle).released
    ensures var r := OnUnlock(sv, a, cycle);
            && r.server.current.Some?
            && Is(Lookup(r.server.current.value, a.host), Finished)
            && Lookup(r.server.current.value, a.host).value.Address() ==
              Lookup(sv.current.value, a.host).value.Address()
            && forall h :: h != a.host ==> HandedOn(Lookup(sv.current.value, h), Lookup(r.server.current.value, h),
              r.grants)
  {
    hide Lookup, DistinctHosts, Put, Exclusive, HasHolder;
    var t := sv.current.value;
    var u := Put(t, a, cycle, Finished);
    UnlockTable(sv, a, cycle);
    forall h { LookupHost(t, h); }
    forall h { LookupHost(u, h); }
    if !Has(u, Reading) {
      GrantedEntries(sv, u, UnlockNoWriter);
      assert HandedOn(Lookup(u, a.host), Lookup(OnUnlock(sv, a, cycle).server.current.value, a.host),
        OnUnlock(sv, a, cycle).grants);
    }
  }

  /** A round is released when everybody in it has finished. */
  lemma ReleasedEntries(sv: Server, a: Addr, cycle: nat)
    requires WellFormed(sv, true) && ViewOf(sv, a.host).Granted?
    requires OnUnlock(sv, a, cycle).Done? && OnUnlock(sv, a, cycle).released
    ensures forall h :: h != a.host && Lookup(sv.current.value, h).Some? ==> Is(Lookup(sv.current.value, h), Finished)
    ensures OnUnlock(sv, a, cycle).server == Server(sv.future, None) && OnUnlock(sv, a, cycle).grants == []
  {
    UnlockTable(sv, a, cycle);
  }
}
