/**
 What the address tables leave out, and the messages that are not requests for a host's types: which types have an
 entry at all, the types of the coordinators themselves, replies with other stamps, and misrouted requests
 (src/core/networkAddressTable.cpp:13-132, src/slave/activitiesEG.cpp:21-200, src/master/activities.cpp:296-359).
 */
module RoutingRest {
  import opened Prelude
  import opened Routing

  // ---- Which types have an entry ----

  /** The type is in the subtree of one of the actions; a dimension among them is passed over. */
  ghost predicate InSome(es: seq<Element>, t: nat) {
    exists i :: 0 <= i < |es| && es[i].Action? && t in Types(es[i])
  }

  /** For the tables of a slave and of a host: not the coordinator's own dimensions either. */
  ghost predicate EnteredAt(e: Element, coordinator: string, t: nat) {
    && e.Action?
    && if e.name == coordinator then t == e.index || InSome(e.children, t) else t in Types(e)
  }

  ghost predicate Entered(es: seq<Element>, coordinator: string, t: nat) {
    exists i :: 0 <= i < |es| && EnteredAt(es[i], coordinator, t)
  }

  lemma InSomeSplits(es: seq<Element>, t: nat)
    requires es != []
    ensures InSome(es, t) <==> (es[0].Action? && t in Types(es[0])) || InSome(es[1..], t)
  {
    assert forall i :: 0 < i < |es| ==> es[i] == es[1..][i - 1];
  }

  lemma EnteredSplits(es: seq<Element>, coordinator: string, t: nat)
    requires es != []
    ensures Entered(es, coordinator, t) <==> EnteredAt(es[0], coordinator, t) || Entered(es[1..], coordinator, t)
  {
    hide EnteredAt;
    assert forall i :: 0 < i < |es| ==> es[i] == es[1..][i - 1];
  }

  lemma {:induction false} MappedKeys(es: seq<Element>, clients: Clients, m: Entries, t: nat)
    ensures t in MappedEntries(es, clients, m) <==> t in m || InSome(es, t)
    decreases es
  {
    hide InSome;
    if es == [] {
      NoneIn(t);
    } else {
      InSomeSplits(es, t);
      var n := if es[0].Action? then InsertAll(m, Types(es[0]), ClientOf(clients, es[0].name)) else m;
      MappedKeys(es[1..], clients, n, t);
    }
  }

  lemma NoneIn(t: nat)
    ensures !InSome([], t)
  {
  }

  lemma {:induction false} HostKeys(es: seq<Element>, host: string, m: Entries, t: nat)
    ensures t in HostEntries(es, host, m) <==> t in m || InSome(es, t)
    decreases es
  {
    hide InSome;
    if es == [] {
      NoneIn(t);
    } else {
      InSomeSplits(es, t);
      var n := if es[0].Action? then InsertAll(m, Types(es[0]), if es[0].name == host then SELF_ID else MASTER_ID)
        else m;
      HostKeys(es[1..], host, n, t);
    }
  }

  /** A slave's table has entries for these types and no others. */
  lemma {:induction false} SlaveKeys(es: seq<Element>, clients: Clients, coordinator: string, m: Entries, t: nat)
    ensures t in SlaveEntries(es, clients, coordinator, m) <==> t in m || Entered(es, coordinator, t)
    decreases es
  {
    if es != [] {
      EnteredSplits(es, coordinator, t);
      hide Entered, InSome;
      var n := match es[0]
        case Dimension(_) => m
        case Action(index, name, children) =>
          if name == coordinator then MappedEntries(children, clients, InsertAll(m, {index}, SELF_ID))
          else InsertAll(m, Types(es[0]), MASTER_ID);
      if es[0].Action? { MappedKeys(es[0].children, clients, InsertAll(m, {es[0].index}, SELF_ID), t); }
      SlaveKeys(es[1..], clients, coordinator, n, t);
    }
  }

  /** And a host's table has entries for the same types. */
  lemma {:induction false} ComponentKeys(es: seq<Element>, coordinator: string, host: string, m: Entries, t: nat)
    ensures t in ComponentEntries(es, coordinator, host, m) <==> t in m || Entered(es, coordinator, t)
    decreases es
  {
    if es != [] {
      EnteredSplits(es, coordinator, t);
      hide Entered, InSome;
      var n := match es[0]
        case Dimension(_) => m
        case Action(index, name, children) =>
          if name == coordinator then HostEntries(children, host, InsertAll(m, {index}, MASTER_ID))
          else InsertAll(m, Types(es[0]), MASTER_ID);
      if es[0].Action? { HostKeys(es[0].children, host, InsertAll(m, {es[0].index}, MASTER_ID), t); }
      ComponentKeys(es[1..], coordinator, host, n, t);
    }
  }

  /** A host's table sends its coordinator's own index, and everything of the other coordinators, to the master id. */
  lemma {:induction false} OthersGoToMaster(es: seq<Element>, coordinator: string, host: string, m: Entries, i: nat,
                                            t: nat)
    requires AllDistinct(es) && i < |es| && es[i].Action? && t in Types(es[i]) && t !in m
    requires es[i].name == coordinator ==> t == es[i].index
    ensures var r := ComponentEntries(es, coordinator, host, m); t in r && r[t] == MASTER_ID
    decreases es
  {
    var e := es[0];
    var n := match e
      case Dimension(_) => m
      case Action(index, name, children) =>
        if name == coordinator then HostEntries(children, host, InsertAll(m, {index}, MASTER_ID))
        else InsertAll(m, Types(e), MASTER_ID);
    if e.Action? {
      HostEntriesSay(e.children, host, InsertAll(m, {e.index}, MASTER_ID), t);
    }
    if i == 0 {
      HostKeeps(es[1..], coordinator, host, n, t);
    } else {
      AllTypesAre(es[1..], t);
      assert es[i] == es[1..][i - 1];
      OthersGoToMaster(es[1..], coordinator, host, n, i - 1, t);
    }
  }

  // ---- Other requests ----

  /** The type is this coordinator's own index, or that of one of its dimensions. */
  ghost predicate OfCoordinator(w: World, d: string, t: nat, own: bool) {
    exists i :: 0 <= i < |w.root| && w.root[i].Action? && w.root[i].name == d
                && if own then t == w.root[i].index
                   else exists j :: 0 <= j < |w.root[i].children| && w.root[i].children[j] == Dimension(t)
  }

  lemma {:induction false} InOneElement(es: seq<Element>, i: nat, j: nat, t: nat)
    requires AllDistinct(es) && i < |es| && j < |es| && t in Types(es[i]) && t in Types(es[j])
    ensures i == j
  {
    if i > 0 && j > 0 {
      assert es[i] == es[1..][i - 1] && es[j] == es[1..][j - 1];
      InOneElement(es[1..], i - 1, j - 1, t);
    } else if i != j {
      var k := if i > 0 then i else j;
      assert es[k] == es[1..][k - 1];
      AllTypesAre(es[1..], t);
    }
  }

  /** What the tables hold for a type of a coordinator itself. */
  lemma CoordinatorTables(w: World, d: string, t: nat, own: bool, c: string)
    requires w.Ok() && OfCoordinator(w, d, t, own) && c in w.hosts
    ensures Ask(w.MasterTable(), t) == ClientOf(w.slaves, d)
    ensures Ask(w.SlaveTable(c), t) == if c != d then MASTER_ID else if own then SELF_ID else UNMAPPED
  {
    hide MappedEntries, SlaveEntries;
    var i :| 0 <= i < |w.root| && w.root[i].Action? && w.root[i].name == d
             && if own then t == w.root[i].index
                else exists j :: 0 <= j < |w.root[i].children| && w.root[i].children[j] == Dimension(t);
    var e := w.root[i];
    ChildDistinct(w.root, i);
    AllTypesAre(e.children, t);
    if !own {
      var j :| 0 <= j < |e.children| && e.children[j] == Dimension(t);
      assert t in Types(e.children[j]);
    }
    var megas := map k | k in w.hosts[c] :: w.hosts[c][k].mega;
    MappedSays(w.root, w.slaves, map[], t);
    SlaveSays(w.root, megas, c, map[], i, t);
    if c == d && !own {
      SlaveKeys(w.root, megas, c, map[], t);
      NotEntered(w, i, t);
    }
  }

  /** A coordinator's dimension is in none of its hosts, nor anywhere else. */
  lemma NotEntered(w: World, i: nat, t: nat)
    requires AllDistinct(w.root) && i < |w.root| && w.root[i].Action?
    requires exists j :: 0 <= j < |w.root[i].children| && w.root[i].children[j] == Dimension(t)
    ensures !Entered(w.root, w.root[i].name, t)
  {
    var e := w.root[i];
    ChildDistinct(w.root, i);
    AllTypesAre(e.children, t);
    var j :| 0 <= j < |e.children| && e.children[j] == Dimension(t);
    assert t in Types(e.children[j]) && t in Types(e);
    if k :| 0 <= k < |w.root| && EnteredAt(w.root[k], e.name, t) {
      EnteredIsIn(w.root[k], e.name, t);
      InOneElement(w.root, i, k, t);
      if l :| 0 <= l < |e.children| && e.children[l].Action? && t in Types(e.children[l]) {
        InOneElement(e.children, j, l, t);
      }
    }
  }

  lemma EnteredIsIn(e: Element, coordinator: string, t: nat)
    requires EnteredAt(e, coordinator, t)
    ensures t in Types(e)
  {
    if InSome(e.children, t) { AllTypesAre(e.children, t); }
  }

  /**
   A request for a type that no host owns. A coordinator's own index is refused by its slave, which throws; one of its
   dimensions, and a type that is nowhere, comes back as an error.
   */
  lemma OtherRequests(w: World, c: string, h: string, d: string, t: nat, own: bool)
    requires w.Ok() && Mapped(w, c, h) && d in w.slaves && OfCoordinator(w, d, t, own)
    ensures var eg := w.hosts[c][h].eg;
            FromHost(w, c, eg, Request(t, 0, 0)) ==
            if own then Fails
            else if c == d then AtEg(c, eg, Error(t, 0, 0))
            else AtEg(c, eg, Error(t, w.slaves[c], eg))
  {
    hide MappedEntries, SlaveEntries, OfCoordinator;
    var eg := w.hosts[c][h].eg;
    CoordinatorTables(w, d, t, own, c);
    if c != d {
      CoordinatorTables(w, d, t, own, d);
      SlaveOf(w, c, Request(t, 0, eg));
      ErrorReturns(w, d, c, eg, t);
    }
  }

  lemma UnknownType(w: World, c: string, h: string, t: nat)
    requires w.Ok() && Mapped(w, c, h) && t !in AllTypes(w.root)
    ensures FromHost(w, c, w.hosts[c][h].eg, Request(t, 0, 0)) == AtEg(c, w.hosts[c][h].eg, Error(t, 0, 0))
  {
    hide SlaveEntries;
    var megas := map k | k in w.hosts[c] :: w.hosts[c][k].mega;
    SlaveKeys(w.root, megas, c, map[], t);
    if i :| 0 <= i < |w.root| && EnteredAt(w.root[i], c, t) {
      EnteredIsIn(w.root[i], c, t);
      AllTypesAre(w.root, t);
    }
  }

  /** A request that the master or a slave should not have got is thrown at. */
  lemma MisroutedFails(w: World, c: string, k: string, t: nat, coordinator: nat, host: nat)
    requires w.Ok() && c in w.slaves && w.Owner(c, k, t)
    ensures FromSlave(w, c, Request(t, coordinator, host)) == Fails
    ensures forall d :: d in w.slaves && d != c ==> FromMaster(w, d, Request(t, coordinator, host)) == Fails
  {
    hide MappedEntries, SlaveEntries;
    TablesAgree(w, c, k, t, c);
    forall d | d in w.slaves && d != c ensures FromMaster(w, d, Request(t, coordinator, host)) == Fails {
      TablesAgree(w, c, k, t, d);
    }
  }

  // ---- Other replies ----

  /**
   A reply or an error goes where its stamps say, whatever they are: to the named slave's host, or to one of the same
   slave when no coordinator is named; with no host, or an unknown coordinator, it is thrown at.
   */
  lemma RepliesGo(w: World, c: string, client: nat, m: Msg)
    requires w.Ok() && c in w.slaves && !m.Request?
    ensures m.coordinator == 0 ==> FromHost(w, c, client, m) == if m.host == 0 then Fails else AtEg(c, m.host, m)
    ensures forall d :: d in w.slaves && m.coordinator == w.slaves[d] ==>
              FromHost(w, c, client, m) == if m.host == 0 then Fails else AtEg(d, m.host, m)
    ensures m.coordinator != 0 && (forall d :: d in w.slaves ==> m.coordinator != w.slaves[d]) ==>
              FromHost(w, c, client, m) == Fails
  {
    hide MappedEntries, SlaveEntries;
    if m.coordinator != 0 { SlaveOf(w, c, m); }
  }
}
