/**
 The vector of host entries of a SimulationLock, as a value
 (api/megastructure/component.hpp:30-166).
 */
module LockTable {
  import opened Prelude

  datatype LockState = Read | Reading | Write | Writing | Finished

  datatype Entry = Entry(coordinator: nat, host: nat, cycle: nat, state: LockState) {
    function Address(): Addr {
      Addr(coordinator, host)
    }
  }

  type Table = seq<Entry>

  function FindFrom(t: Table, host: nat, from: nat): (i: nat)
    requires from <= |t|
    ensures from <= i <= |t|
    ensures i < |t| ==> t[i].host == host
    ensures forall j :: from <= j < i ==> t[j].host != host
    decreases |t| - from
  {
    if from == |t| || t[from].host == host then from else FindFrom(t, host, from + 1)
  }

  /** The index of the first entry of a host, or |t| when it has none. */
  function Find(t: Table, host: nat): (i: nat)
    ensures i <= |t|
    ensures i < |t| ==> t[i].host == host
    ensures forall j :: 0 <= j < i ==> t[j].host != host
  {
    FindFrom(t, host, 0)
  }

  /** setHostCycleState: overwrite the host's cycle and state, keeping its coordinator, or append. */
  function Put(t: Table, a: Addr, cycle: nat, state: LockState): Table {
    var i := Find(t, a.host);
    if i < |t| then t[i := t[i].(cycle := cycle, state := state)]
    else t + [Entry(a.coordinator, a.host, cycle, state)]
  }

  /** A host's first entry is changed in place, keeping its coordinator, or one is appended at the end. */
  ghost predicate EntrySet(t: Table, u: Table, a: Addr, cycle: nat, state: LockState) {
    || (exists i :: 0 <= i < |t| && t[i].host == a.host && (forall j :: 0 <= j < i ==> t[j].host != a.host)
                    && u == t[i := Entry(t[i].coordinator, a.host, cycle, state)])
    || ((forall i :: 0 <= i < |t| ==> t[i].host != a.host) && u == t + [Entry(a.coordinator, a.host, cycle, state)])
  }

  lemma PutSets(t: Table, a: Addr, cycle: nat, state: LockState)
    ensures EntrySet(t, Put(t, a, cycle, state), a, cycle, state)
  {
    var k := Find(t, a.host);
    if k < |t| {
      assert t[k].host == a.host && forall j :: 0 <= j < k ==> t[j].host != a.host;
    }
  }

  predicate Has(t: Table, state: LockState) {
    exists i :: 0 <= i < |t| && t[i].state == state
  }

  predicate AllFinished(t: Table) {
    forall i :: 0 <= i < |t| ==> t[i].state == Finished
  }

  /** Every waiting reader becomes a holder. */
  function StartReaders(t: Table): (r: Table)
    ensures |r| == |t|
    ensures forall i :: 0 <= i < |t| ==>
      r[i] == if t[i].state == Read then t[i].(state := Reading) else t[i]
  {
    seq(|t|, i requires 0 <= i < |t| => if t[i].state == Read then t[i].(state := Reading) else t[i])
  }

  /** The addresses of the entries in a state, in vector order. */
  function Addresses(t: Table, state: LockState): seq<Addr> {
    if t == [] then []
    else (if t[0].state == state then [t[0].Address()] else []) + Addresses(t[1..], state)
  }

  /** The index of the first waiting writer, or |t|. */
  function FirstWriter(t: Table): (i: nat)
    ensures i <= |t|
    ensures i < |t| ==> t[i].state == Write
    ensures forall j :: 0 <= j < i ==> t[j].state != Write
  {
    if t == [] || t[0].state == Write then 0 else 1 + FirstWriter(t[1..])
  }

  predicate DistinctHosts(t: Table) {
    forall i, j :: 0 <= i < j < |t| ==> t[i].host != t[j].host
  }

  // ---- The table as one host sees it ----

  function Lookup(t: Table, host: nat): Option<Entry> {
    var i := Find(t, host);
    if i < |t| then Some(t[i]) else None
  }

  predicate Is(e: Option<Entry>, state: LockState) {
    e.Some? && e.value.state == state
  }

  ghost predicate Inhabited(t: Table) {
    exists h :: Lookup(t, h).Some?
  }

  /** Nobody holds the lock and nobody is done: the round has not been started. */
  ghost predicate AllWaiting(t: Table) {
    forall h {:trigger Lookup(t, h)} :: Lookup(t, h).Some? ==> Is(Lookup(t, h), Read) || Is(Lookup(t, h), Write)
  }

  ghost predicate HasHolder(t: Table) {
    exists h {:trigger Lookup(t, h)} :: Is(Lookup(t, h), Reading) || Is(Lookup(t, h), Writing)
  }

  /** Many readers or one writer, and a reader never waits behind readers. */
  ghost predicate Exclusive(t: Table) {
    && (forall g, h {:trigger Lookup(t, g), Lookup(t, h)} ::
          Is(Lookup(t, g), Writing) && Is(Lookup(t, h), Writing) ==> g == h)
    && (forall g, h {:trigger Lookup(t, g), Lookup(t, h)} :: Is(Lookup(t, g), Writing) ==> !Is(Lookup(t, h), Reading))
    && (forall g, h {:trigger Lookup(t, g), Lookup(t, h)} :: Is(Lookup(t, g), Reading) ==> !Is(Lookup(t, h), Read))
  }

  lemma FindIs(t: Table, host: nat, i: nat)
    requires i <= |t| && (i < |t| ==> t[i].host == host)
    requires forall j :: 0 <= j < i ==> t[j].host != host
    ensures Find(t, host) == i
  {
    var k := Find(t, host);
    assert k >= i;
  }

  lemma PutLooks(t: Table, a: Addr, cycle: nat, state: LockState)
    requires DistinctHosts(t)
    ensures DistinctHosts(Put(t, a, cycle, state))
    ensures forall h :: h != a.host ==> Lookup(Put(t, a, cycle, state), h) == Lookup(t, h)
    ensures Lookup(Put(t, a, cycle, state), a.host) ==
            Some(Entry(if Lookup(t, a.host).Some? then Lookup(t, a.host).value.coordinator else a.coordinator,
                       a.host, cycle, state))
  {
    var r := Put(t, a, cycle, state);
    forall h ensures Find(r, h) == if Find(t, h) < |t| then Find(t, h) else if h == a.host then |t| else |r| {
      FindIs(r, h, if Find(t, h) < |t| then Find(t, h) else if h == a.host then |t| else |r|);
    }
  }

  lemma EntryLooks(t: Table, i: nat)
    requires i < |t| && DistinctHosts(t)
    ensures Lookup(t, t[i].host) == Some(t[i])
  {
    FindIs(t, t[i].host, i);
  }

  lemma HasLooks(t: Table, state: LockState)
    requires DistinctHosts(t)
    ensures Has(t, state) <==> exists h {:trigger Lookup(t, h)} :: Is(Lookup(t, h), state)
  {
    if i :| 0 <= i < |t| && t[i].state == state {
      EntryLooks(t, i);
      assert Is(Lookup(t, t[i].host), state);
    }
    if h :| Is(Lookup(t, h), state) {
      assert t[Find(t, h)].state == state;
    }
  }

  lemma AllFinishedLooks(t: Table)
    requires DistinctHosts(t)
    ensures AllFinished(t) <==> forall h :: Lookup(t, h).Some? ==> Is(Lookup(t, h), Finished)
  {
    forall i | 0 <= i < |t| ensures Lookup(t, t[i].host) == Some(t[i]) {
      EntryLooks(t, i);
    }
  }

  lemma StartReadersLooks(t: Table)
    requires DistinctHosts(t)
    ensures DistinctHosts(StartReaders(t))
    ensures forall h :: Lookup(StartReaders(t), h) ==
                        if Is(Lookup(t, h), Read) then Some(Lookup(t, h).value.(state := Reading)) else Lookup(t, h)
  {
    forall h ensures Find(StartReaders(t), h) == Find(t, h) {
      FindIs(StartReaders(t), h, Find(t, h));
    }
  }

  lemma UpdateLooks(t: Table, k: nat, state: LockState)
    requires DistinctHosts(t) && k < |t|
    ensures var r := t[k := t[k].(state := state)];
            && DistinctHosts(r)
            && forall h :: Lookup(r, h) == if h == t[k].host then Some(t[k].(state := state)) else Lookup(t, h)
  {
    var r := t[k := t[k].(state := state)];
    EntryLooks(t, k);
    forall h ensures Find(r, h) == Find(t, h) {
      FindIs(r, h, Find(t, h));
    }
  }

  /** With distinct hosts, an address is listed iff its host's entry has the state and the coordinator. */
  lemma AddressesLook(t: Table, state: LockState, a: Addr)
    requires DistinctHosts(t)
    ensures a in Addresses(t, state) <==>
            Is(Lookup(t, a.host), state) && Lookup(t, a.host).value.coordinator == a.coordinator
  {
    AddressesAre(t, state, a);
    if i :| 0 <= i < |t| && t[i].state == state && t[i].Address() == a {
      EntryLooks(t, i);
    }
    if Is(Lookup(t, a.host), state) && Lookup(t, a.host).value.coordinator == a.coordinator {
      assert t[Find(t, a.host)].Address() == a;
    }
  }

  lemma {:induction false} AddressesAre(t: Table, state: LockState, a: Addr)
    ensures a in Addresses(t, state) <==>
            exists i :: 0 <= i < |t| && t[i].state == state && t[i].Address() == a
  {
    if t != [] {
      AddressesAre(t[1..], state, a);
      if a in Addresses(t[1..], state) {
        var i :| 0 <= i < |t[1..]| && t[1..][i].state == state && t[1..][i].Address() == a;
        assert t[i + 1].state == state;
      }
      if i :| 0 <= i < |t| && t[i].state == state && t[i].Address() == a && i > 0 {
        assert t[1..][i - 1] == t[i];
      }
    }
  }

  predicate NoDuplicates(s: seq<Addr>) {
    forall i, j :: 0 <= i < j < |s| ==> s[i] != s[j]
  }

  lemma {:induction false} AddressesDistinct(t: Table, state: LockState)
    requires DistinctHosts(t)
    ensures NoDuplicates(Addresses(t, state))
  {
    if t != [] {
      AddressesDistinct(t[1..], state);
      AddressesAre(t[1..], state, t[0].Address());
    }
  }

  // ---- How far a round has come ----

  /** Rank of an entry: 5 stands for a host that has not joined, so every step lowers it. */
  function Rank(state: LockState): nat {
    match state
    case Read => 4
    case Reading => 3
    case Write => 2
    case Writing => 1
    case Finished => 0
  }

  function RankSum(t: Table): nat {
    if t == [] then 0 else Rank(t[0].state) + RankSum(t[1..])
  }

  /** Work left in a round that at most n hosts can join. */
  function Work(t: Table, n: nat): int {
    5 * (n - |t|) + RankSum(t)
  }

  lemma {:induction false} RankSumAppend(t: Table, e: Entry)
    ensures RankSum(t + [e]) == RankSum(t) + Rank(e.state)
  {
    if t != [] {
      assert (t + [e])[1..] == t[1..] + [e];
      RankSumAppend(t[1..], e);
    }
  }

  lemma {:induction false} RankSumUpdate(t: Table, i: nat, e: Entry)
    requires i < |t|
    ensures RankSum(t[i := e]) == RankSum(t) - Rank(t[i].state) + Rank(e.state)
  {
    if i > 0 {
      assert t[i := e][1..] == t[1..][i - 1 := e];
      RankSumUpdate(t[1..], i - 1, e);
    }
  }

  lemma {:induction false} RankSumReaders(t: Table)
    ensures RankSum(StartReaders(t)) <= RankSum(t)
    ensures Has(t, Read) ==> RankSum(StartReaders(t)) < RankSum(t)
  {
    if t != [] {
      assert StartReaders(t)[1..] == StartReaders(t[1..]);
      RankSumReaders(t[1..]);
      if Has(t, Read) && t[0].state != Read {
        var i :| 0 <= i < |t| && t[i].state == Read;
        assert t[1..][i - 1].state == Read;
      }
    }
  }

  lemma {:induction false} RankSumBound(t: Table)
    ensures RankSum(t) <= 4 * |t|
  {
    if t != [] {
      RankSumBound(t[1..]);
    }
  }
}
