/**
 Request routing: the network address tables of the master, a slave and a host
 (src/core/networkAddressTable.cpp:13-220) and the activities that consult them
 (src/master/activities.cpp:281-359, src/slave/activitiesEG.cpp:9-221).
 */
module Routing {
  import opened Prelude

  /** A concrete tree node; an action is named by its context. */
  datatype Element =
    | Action(index: nat, name: string, children: seq<Element>)
    | Dimension(index: nat)

  const UNMAPPED: nat := 0
  const MASTER_ID: nat := 0xFFFF_FFFF
  const SELF_ID: nat := 0xFFFF_FFFE

  /** A socket identity the transport hands out. */
  predicate IsSocket(id: nat) {
    UNMAPPED < id < SELF_ID
  }

  type Clients = map<string, nat>
  type Entries = map<nat, nat>

  function ClientOf(clients: Clients, name: string): nat {
    if name in clients then clients[name] else UNMAPPED
  }

  // ---- Trees ----

  /** The indices of an element and everything below it. */
  function Types(e: Element): set<nat> {
    match e
    case Dimension(index) => {index}
    case Action(index, _, children) => {index} + AllTypes(children)
  }

  function AllTypes(es: seq<Element>): set<nat> {
    if es == [] then {} else Types(es[0]) + AllTypes(es[1..])
  }

  /** No index occurs twice. */
  predicate Distinct(e: Element) {
    match e
    case Dimension(_) => true
    case Action(index, _, children) => index !in AllTypes(children) && AllDistinct(children)
  }

  predicate AllDistinct(es: seq<Element>) {
    es == [] || (Distinct(es[0]) && Types(es[0]) !! AllTypes(es[1..]) && AllDistinct(es[1..]))
  }

  lemma {:induction false} AllTypesAre(es: seq<Element>, t: nat)
    ensures t in AllTypes(es) <==> exists i :: 0 <= i < |es| && t in Types(es[i])
  {
    if es != [] {
      AllTypesAre(es[1..], t);
      if i :| 0 <= i < |es[1..]| && t in Types(es[1..][i]) {
        assert t in Types(es[i + 1]);
      }
      if i :| 0 <= i < |es| && t in Types(es[i]) && i > 0 {
        assert t in Types(es[1..][i - 1]);
      }
    }
  }

  // ---- What each recursion leaves in the map ----

  /** std::map::insert of one value at many keys: an existing key keeps its value. */
  function InsertAll(m: Entries, keys: set<nat>, value: nat): Entries {
    map k | k in m.Keys + keys :: if k in m then m[k] else value
  }

  lemma InsertMore(m: Entries, keys: set<nat>, more: set<nat>, value: nat)
    ensures InsertAll(InsertAll(m, keys, value), more, value) == InsertAll(m, keys + more, value)
  {
  }

  /** recurseMappedClients below a coordinator or the mega root. */
  function MappedEntries(es: seq<Element>, clients: Clients, m: Entries): Entries
    decreases es
  {
    if es == [] then m
    else
      MappedEntries(es[1..], clients,
                    if es[0].Action? then InsertAll(m, Types(es[0]), ClientOf(clients, es[0].name)) else m)
  }

  function SlaveEntries(es: seq<Element>, clients: Clients, coordinator: string, m: Entries): Entries
    decreases es
  {
    if es == [] then m
    else
      SlaveEntries(es[1..], clients, coordinator,
                   match es[0]
                   case Dimension(_) => m
                   case Action(index, name, children) =>
                     if name == coordinator then MappedEntries(children, clients, InsertAll(m, {index}, SELF_ID))
                     else InsertAll(m, Types(es[0]), MASTER_ID))
  }

  /** The inner recurseHost, below a coordinator. */
  function HostEntries(es: seq<Element>, host: string, m: Entries): Entries
    decreases es
  {
    if es == [] then m
    else
      HostEntries(es[1..], host,
                  if es[0].Action? then
                    InsertAll(m, Types(es[0]), if es[0].name == host then SELF_ID else MASTER_ID)
                  else m)
  }

  function ComponentEntries(es: seq<Element>, coordinator: string, host: string, m: Entries): Entries
    decreases es
  {
    if es == [] then m
    else
      ComponentEntries(es[1..], coordinator, host,
                       match es[0]
                       case Dimension(_) => m
                       case Action(index, name, children) =>
                         if name == coordinator then HostEntries(children, host, InsertAll(m, {index}, MASTER_ID))
                         else InsertAll(m, Types(es[0]), MASTER_ID))
  }

  // ---- The tables as the program builds them ----

  class NetworkAddressTable {
    var table: seq<nat>

    /** The table says what the map says, and the default elsewhere. */
    ghost predicate Holds(entries: Entries)
      reads this
    {
      && |table| > 0
      && (forall t :: t in entries ==> t < |table|)
      && (forall t :: 0 <= t < |table| ==> table[t] == if t in entries then entries[t] else UNMAPPED)
      && (|table| == 1 || |table| - 1 in entries)
    }

    static method RecurseClient(a: Element, id: nat, m: Entries) returns (r: Entries)
      requires a.Action?
      ensures r == InsertAll(m, Types(a), id)
      decreases a
    {
      hide AllTypes;
      r := if a.index in m then m else m[a.index := id];
      var i := 0;
      NoTypes();
      while i < |a.children|
        invariant 0 <= i <= |a.children|
        invariant r == InsertAll(m, {a.index} + AllTypes(a.children[..i]), id)
      {
        var e := a.children[i];
        AllTypesAppend(a.children, i);
        InsertMore(m, {a.index} + AllTypes(a.children[..i]), Types(e), id);
        if e.Action? {
          r := RecurseClient(e, id, r);
        } else if e.index !in r {
          r := r[e.index := id];
        }
        i := i + 1;
      }
      assert a.children[..i] == a.children;
    }

    static method RecurseMappedClients(es: seq<Element>, clients: Clients, m: Entries) returns (r: Entries)
      ensures r == MappedEntries(es, clients, m)
    {
      r := m;
      var i := 0;
      assert es[0..] == es;
      while i < |es|
        invariant 0 <= i <= |es|
        invariant MappedEntries(es, clients, m) == MappedEntries(es[i..], clients, r)
      {
        assert es[i..][1..] == es[i + 1..];
        if es[i].Action? {
          if es[i].name in clients {
            r := RecurseClient(es[i], clients[es[i].name], r);
          } else {
            r := RecurseClient(es[i], UNMAPPED, r);
          }
        }
        i := i + 1;
      }
    }

    static method RecurseSlave(es: seq<Element>, clients: Clients, coordinator: string, m: Entries) returns (r: Entries)
      ensures r == SlaveEntries(es, clients, coordinator, m)
    {
      r := m;
      var i := 0;
      assert es[0..] == es;
      while i < |es|
        invariant 0 <= i <= |es|
        invariant SlaveEntries(es, clients, coordinator, m) == SlaveEntries(es[i..], clients, coordinator, r)
      {
        assert es[i..][1..] == es[i + 1..];
        if es[i].Action? {
          if es[i].name == coordinator {
            ghost var was := r;
            if es[i].index !in r {
              r := r[es[i].index := SELF_ID];
            }
            assert r == InsertAll(was, {es[i].index}, SELF_ID);
            r := RecurseMappedClients(es[i].children, clients, r);
          } else {
            r := RecurseClient(es[i], MASTER_ID, r);
          }
        }
        i := i + 1;
      }
    }

    static method RecurseHosts(es: seq<Element>, host: string, m: Entries) returns (r: Entries)
      ensures r == HostEntries(es, host, m)
    {
      r := m;
      var i := 0;
      assert es[0..] == es;
      while i < |es|
        invariant 0 <= i <= |es|
        invariant HostEntries(es, host, m) == HostEntries(es[i..], host, r)
      {
        assert es[i..][1..] == es[i + 1..];
        if es[i].Action? {
          r := RecurseClient(es[i], if es[i].name == host then SELF_ID else MASTER_ID, r);
        }
        i := i + 1;
      }
    }

    static method RecurseComponent(es: seq<Element>, coordinator: string, host: string, m: Entries) returns (r: Entries)
      ensures r == ComponentEntries(es, coordinator, host, m)
    {
      r := m;
      var i := 0;
      assert es[0..] == es;
      while i < |es|
        invariant 0 <= i <= |es|
        invariant ComponentEntries(es, coordinator, host, m) == ComponentEntries(es[i..], coordinator, host, r)
      {
        assert es[i..][1..] == es[i + 1..];
        if es[i].Action? {
          if es[i].name == coordinator {
            ghost var was := r;
            if es[i].index !in r {
              r := r[es[i].index := MASTER_ID];
            }
            assert r == InsertAll(was, {es[i].index}, MASTER_ID);
            r := RecurseHosts(es[i].children, host, r);
          } else {
            r := RecurseClient(es[i], MASTER_ID, r);
          }
        }
        i := i + 1;
      }
    }

    /** Size the table by the highest key, fill it with the default, then store every entry. */
    method BuildTable(entries: Entries)
      requires table == []
      modifies this
      ensures Holds(entries)
    {
      var highest := 0;
      var left := entries.Keys;
      while left != {}
        invariant left <= entries.Keys
        invariant forall t :: t in entries && t !in left ==> t <= highest
        invariant highest == 0 || highest in entries
        decreases left
      {
        var t :| t in left;
        if t > highest { highest := t; }
        left := left - {t};
      }
      table := seq(highest + 1, _ => UNMAPPED);
      left := entries.Keys;
      while left != {}
        invariant left <= entries.Keys && |table| == highest + 1
        invariant forall t :: 0 <= t < |table| ==>
                  table[t] == if t in entries && t !in left then entries[t] else UNMAPPED
        decreases left
      {
        var t :| t in left;
        table := table[t := entries[t]];
        left := left - {t};
      }
    }

    constructor ForMaster(root: seq<Element>, clients: Clients)
      ensures Holds(MappedEntries(root, clients, map[]))
    {
      table := [];
      new;
      var m := RecurseMappedClients(root, clients, map[]);
      BuildTable(m);
    }

    constructor ForSlave(root: seq<Element>, clients: Clients, coordinator: string)
      ensures Holds(SlaveEntries(root, clients, coordinator, map[]))
    {
      table := [];
      new;
      var m := RecurseSlave(root, clients, coordinator, map[]);
      BuildTable(m);
    }

    constructor ForHost(root: seq<Element>, coordinator: string, host: string)
      ensures Holds(ComponentEntries(root, coordinator, host, map[]))
    {
      table := [];
      new;
      var m := RecurseComponent(root, coordinator, host, map[]);
      BuildTable(m);
    }

    method GetClientForType(t: nat, ghost entries: Entries) returns (id: nat)
      requires Holds(entries) && t < |table|
      ensures id == Ask(entries, t)
    {
      id := table[t];
    }
  }

  lemma NoTypes()
    ensures AllTypes([]) == {}
  {
  }

  lemma {:induction false} AllTypesAppend(es: seq<Element>, i: nat)
    requires i < |es|
    ensures AllTypes(es[..i + 1]) == AllTypes(es[..i]) + Types(es[i])
  {
    if i == 0 {
      assert es[..1] == [es[0]] && es[..0] == [] && es[..1][1..] == [];
    } else {
      assert es[..i + 1][1..] == es[1..][..i] && es[..i][1..] == es[1..][..i - 1];
      AllTypesAppend(es[1..], i - 1);
    }
  }

  function Ask(entries: Entries, t: nat): nat {
    if t in entries then entries[t] else UNMAPPED
  }

  // ---- What the tables say ----

  /** A coordinator's or host's subtree maps to its client; nothing else is entered. */
  lemma {:induction false} MappedSays(es: seq<Element>, clients: Clients, m: Entries, t: nat)
    requires AllDistinct(es)
    ensures var r := MappedEntries(es, clients, m);
            && (t in m ==> t in r && r[t] == m[t])
            && (t !in m && t !in AllTypes(es) ==> t !in r)
            && (forall i :: 0 <= i < |es| && t !in m && es[i].Action? && t in Types(es[i]) ==>
                  t in r && r[t] == ClientOf(clients, es[i].name))
    decreases es
  {
    if es != [] {
      var n := if es[0].Action? then InsertAll(m, Types(es[0]), ClientOf(clients, es[0].name)) else m;
      MappedSays(es[1..], clients, n, t);
      forall i | 0 <= i < |es| && t !in m && es[i].Action? && t in Types(es[i])
        ensures var r := MappedEntries(es, clients, m); t in r && r[t] == ClientOf(clients, es[i].name)
      {
        if i > 0 {
          assert es[i] == es[1..][i - 1];
          AllTypesAre(es[1..], t);
        }
      }
    }
  }

  /** The slave's table: its own hosts' types go to the hosts, everything of the other coordinators to the master. */
  lemma {:induction false} SlaveSays(es: seq<Element>, clients: Clients, coordinator: string, m: Entries, i: nat,
                                     t: nat)
    requires AllDistinct(es) && i < |es| && es[i].Action? && t in Types(es[i]) && t !in m
    ensures var r := SlaveEntries(es, clients, coordinator, m);
            && (es[i].name != coordinator ==> t in r && r[t] == MASTER_ID)
            && (es[i].name == coordinator ==>
                  && (t == es[i].index ==> t in r && r[t] == SELF_ID)
                  && (forall j ::
                        0 <= j < |es[i].children| && es[i].children[j].Action? && t in Types(es[i].children[j]) ==>
                          t in r && r[t] == ClientOf(clients, es[i].children[j].name)))
    decreases es
  {
    var e := es[0];
    var n := match e
      case Dimension(_) => m
      case Action(index, name, children) =>
        if name == coordinator then MappedEntries(children, clients, InsertAll(m, {index}, SELF_ID))
        else InsertAll(m, Types(e), MASTER_ID);
    if e.Action? {
      MappedSays(e.children, clients, InsertAll(m, {e.index}, SELF_ID), t);
      if exists j :: 0 <= j < |e.children| && t in Types(e.children[j]) { AllTypesAre(e.children, t); }
    }
    if i == 0 {
      SlaveKeeps(es[1..], clients, coordinator, n, t);
    } else {
      AllTypesAre(es[1..], t);
      assert es[i] == es[1..][i - 1];
      SlaveSays(es[1..], clients, coordinator, n, i - 1, t);
    }
  }

  lemma {:induction false} SlaveKeeps(es: seq<Element>, clients: Clients, coordinator: string, m: Entries, t: nat)
    requires AllDistinct(es)
    ensures t in m ==>
              var r := SlaveEntries(es, clients, coordinator, m);
              t in r && r[t] == m[t]
    decreases es
  {
    if es != [] {
      if es[0].Action? {
        MappedSays(es[0].children, clients, InsertAll(m, {es[0].index}, SELF_ID), t);
      }
      var n := match es[0]
        case Dimension(_) => m
        case Action(index, name, children) =>
          if name == coordinator then MappedEntries(children, clients, InsertAll(m, {index}, SELF_ID))
          else InsertAll(m, Types(es[0]), MASTER_ID);
      SlaveKeeps(es[1..], clients, coordinator, n, t);
    }
  }

  lemma {:induction false} HostEntriesSay(es: seq<Element>, host: string, m: Entries, t: nat)
    requires AllDistinct(es)
    ensures var r := HostEntries(es, host, m);
            && (t in m ==> t in r && r[t] == m[t])
            && (t !in m && t !in AllTypes(es) ==> t !in r)
            && (forall i :: 0 <= i < |es| && t !in m && es[i].Action? && t in Types(es[i]) ==>
                  t in r && r[t] == if es[i].name == host then SELF_ID else MASTER_ID)
    decreases es
  {
    if es != [] {
      var n := if es[0].Action? then InsertAll(m, Types(es[0]), if es[0].name == host then SELF_ID else MASTER_ID)
        else m;
      HostEntriesSay(es[1..], host, n, t);
      forall i | 0 <= i < |es| && t !in m && es[i].Action? && t in Types(es[i])
        ensures var r := HostEntries(es, host, m); t in r && r[t] == if es[i].name == host then SELF_ID else MASTER_ID
      {
        if i > 0 {
          assert es[i] == es[1..][i - 1];
          AllTypesAre(es[1..], t);
        }
      }
    }
  }

  lemma {:induction false} HostKeeps(es: seq<Element>, coordinator: string, host: string, m: Entries, t: nat)
    requires AllDistinct(es)
    ensures t in m ==>
              t in ComponentEntries(es, coordinator, host, m) && ComponentEntries(es, coordinator, host, m)[t] == m[t]
    decreases es
  {
    if es != [] {
      if es[0].Action? {
        HostEntriesSay(es[0].children, host, InsertAll(m, {es[0].index}, MASTER_ID), t);
      }
      var n := match es[0]
        case Dimension(_) => m
        case Action(index, name, children) =>
          if name == coordinator then HostEntries(children, host, InsertAll(m, {index}, MASTER_ID))
          else InsertAll(m, Types(es[0]), MASTER_ID);
      HostKeeps(es[1..], coordinator, host, n, t);
    }
  }

  /** A host's table: its own types are itself, every other host's go through the master id. */
  lemma {:induction false} HostSays(es: seq<Element>, coordinator: string, host: string, m: Entries, i: nat, j: nat,
                                    t: nat)
    requires AllDistinct(es) && i < |es| && es[i].Action? && j < |es[i].children| && es[i].children[j].Action?
    requires t in Types(es[i].children[j]) && t !in m
    ensures var r := ComponentEntries(es, coordinator, host, m);
            t in r && r[t] == if es[i].name == coordinator && es[i].children[j].name == host then SELF_ID else MASTER_ID
    decreases es
  {
    var e := es[0];
    var n := match e
      case Dimension(_) => m
      case Action(index, name, children) =>
        if name == coordinator then HostEntries(children, host, InsertAll(m, {index}, MASTER_ID))
        else InsertAll(m, Types(e), MASTER_ID);
    AllTypesAre(es[i].children, t);
    if e.Action? {
      HostEntriesSay(e.children, host, InsertAll(m, {e.index}, MASTER_ID), t);
    }
    if i == 0 {
      HostKeeps(es[1..], coordinator, host, n, t);
    } else {
      AllTypesAre(es[1..], t);
      assert es[i] == es[1..][i - 1];
      HostSays(es[1..], coordinator, host, n, i - 1, j, t);
    }
  }

  // ---- Messages and the three dispatchers ----

  /** The two stamps: 0 stands for a field nobody has set. */
  datatype Msg =
    | Request(t: nat, coordinator: nat, host: nat)
    | Response(t: nat, coordinator: nat, host: nat)
    | Error(t: nat, coordinator: nat, host: nat)

  datatype Send =
    | ToMaster(m: Msg)
    | ToSlave(id: nat, m: Msg)
    | ToMega(id: nat, m: Msg)      // a host's mega socket, where requests arrive
    | ToEg(id: nat, m: Msg)        // a host's eg socket, where responses and errors arrive
    | Throws

  /** The slave's clientMessage: a message from a host's eg socket. */
  function SlaveOnHost(table: Entries, client: nat, m: Msg): Send {
    if m.Request? then
      var target := Ask(table, m.t);
      if target == client then Throws
      else if target == MASTER_ID then ToMaster(m.(host := client))
      else if target == SELF_ID then Throws
      else if target == UNMAPPED then ToEg(client, Error(m.t, m.coordinator, m.host))
      else ToMega(target, m.(host := client))
    else if m.coordinator != 0 then ToMaster(m)
    else if m.host == 0 then Throws
    else ToEg(m.host, m)
  }

  /** The slave's serverMessage: a message from the master. */
  function SlaveOnMaster(table: Entries, m: Msg): Send {
    if m.Request? then
      var target := Ask(table, m.t);
      if target == MASTER_ID || target == SELF_ID then Throws
      else if target == UNMAPPED then ToMaster(Error(m.t, m.coordinator, m.host))
      else ToMega(target, m)
    else if m.host == 0 then Throws
    else ToEg(m.host, m)
  }

  /** The master's clientMessage: a message from a slave. */
  function MasterOnSlave(table: Entries, client: nat, m: Msg): Send {
    if m.Request? then
      var target := Ask(table, m.t);
      if target == MASTER_ID || target == SELF_ID then Throws
      else if target == UNMAPPED then ToSlave(client, Error(m.t, 0, m.host))
      else if target == client then Throws
      else ToSlave(target, m.(coordinator := client))
    else if m.coordinator == 0 then Throws
    else ToSlave(m.coordinator, m)
  }

  // ---- A whole network ----

  datatype Sockets = Sockets(mega: nat, eg: nat)

  /** The mega root's children, the slaves by name and, for each, its mapped hosts. */
  datatype World = World(root: seq<Element>, slaves: Clients, hosts: map<string, map<string, Sockets>>) {
    function MasterTable(): Entries {
      MappedEntries(root, slaves, map[])
    }

    function SlaveTable(c: string): Entries
      requires c in hosts
    {
      SlaveEntries(root, map h | h in hosts[c] :: hosts[c][h].mega, c, map[])
    }

    /** Distinct indices; socket identities are distinct at each server. */
    ghost predicate Ok() {
      && AllDistinct(root)
      && slaves.Keys <= hosts.Keys
      && (forall c :: c in slaves ==> IsSocket(slaves[c]))
      && (forall c, d :: c in slaves && d in slaves && slaves[c] == slaves[d] ==> c == d)
      && (forall c, h :: c in hosts && h in hosts[c] ==> IsSocket(hosts[c][h].mega) && IsSocket(hosts[c][h].eg))
    }

    /** The type belongs to this host of this coordinator. */
    ghost predicate Owner(c: string, h: string, t: nat) {
      exists i, j :: OwnerAt(i, j, c, h, t)
    }

    ghost predicate OwnerAt(i: int, j: int, c: string, h: string, t: nat) {
      && 0 <= i < |root| && root[i].Action? && root[i].name == c
      && 0 <= j < |root[i].children| && root[i].children[j].Action? && root[i].children[j].name == h
      && t in Types(root[i].children[j])
    }
  }

  datatype End =
    | AtMega(c: string, id: nat, m: Msg)
    | AtEg(c: string, id: nat, m: Msg)
    | Fails

  /** Where a message from a host ends up. */
  ghost function FromHost(w: World, c: string, client: nat, m: Msg): End
    requires c in w.slaves && w.slaves.Keys <= w.hosts.Keys
  {
    match SlaveOnHost(w.SlaveTable(c), client, m)
    case ToMega(id, r) => AtMega(c, id, r)
    case ToEg(id, r) => AtEg(c, id, r)
    case ToMaster(r) => FromSlave(w, c, r)
    case _ => Fails
  }

  ghost function FromSlave(w: World, c: string, m: Msg): End
    requires c in w.slaves && w.slaves.Keys <= w.hosts.Keys
    decreases m.Request?, 1
  {
    match MasterOnSlave(w.MasterTable(), w.slaves[c], m)
    case ToSlave(id, r) =>
      if d :| d in w.slaves && w.slaves[d] == id then FromMaster(w, d, r) else Fails
    case _ => Fails
  }

  ghost function FromMaster(w: World, c: string, m: Msg): End
    requires c in w.slaves && w.slaves.Keys <= w.hosts.Keys
    decreases m.Request?, 0
  {
    match SlaveOnMaster(w.SlaveTable(c), m)
    case ToMega(id, r) => AtMega(c, id, r)
    case ToEg(id, r) => AtEg(c, id, r)
    case ToMaster(r) => FromSlave(w, c, r)
    case _ => Fails
  }

  predicate Mapped(w: World, c: string, h: string)
    requires w.slaves.Keys <= w.hosts.Keys
  {
    c in w.slaves && h in w.hosts[c]
  }

  /** What the master's and the slaves' tables hold for a type of a host. */
  lemma TablesAgree(w: World, c: string, h: string, t: nat, d: string)
    requires w.Ok() && w.Owner(c, h, t) && d in w.hosts
    ensures Ask(w.MasterTable(), t) == ClientOf(w.slaves, c)
    ensures Ask(w.SlaveTable(d), t) ==
            if d != c then MASTER_ID else if h in w.hosts[d] then w.hosts[d][h].mega else UNMAPPED
  {
    var i, j :| w.OwnerAt(i, j, c, h, t);
    AllTypesAre(w.root[i].children, t);
    ChildDistinct(w.root, i);
    MappedSays(w.root, w.slaves, map[], t);
    SlaveSays(w.root, map k | k in w.hosts[d] :: w.hosts[d][k].mega, d, map[], i, t);
  }

  lemma {:induction false} ChildDistinct(es: seq<Element>, i: nat)
    requires AllDistinct(es) && i < |es|
    ensures Distinct(es[i])
  {
    if i > 0 {
      ChildDistinct(es[1..], i - 1);
    }
  }

  lemma SlaveOf(w: World, c: string, m: Msg)
    requires w.Ok() && c in w.slaves && MasterOnSlave(w.MasterTable(), w.slaves[c], m).ToSlave?
    ensures forall d :: d in w.slaves && w.slaves[d] == MasterOnSlave(w.MasterTable(), w.slaves[c], m).id ==>
              FromSlave(w, c, m) == FromMaster(w, d, MasterOnSlave(w.MasterTable(), w.slaves[c], m).m)
  {
  }

  /** The stamps a request carries when it reaches another host: 0 says the owner has the same slave. */
  function StampOf(w: World, c: string, d: string): nat
    requires c in w.slaves
  {
    if c == d then 0 else w.slaves[c]
  }

  /**
   A request for a type of host (d, k) sent by host (c, h) reaches the mega socket of (d, k), stamped with
   the requester's eg socket and slave, when that host is mapped, and comes back to the requester as an
   error when it is not, with the stamps it had got by then. The one exception is the slave's own check, which
   compares the requester's eg socket with the owner's mega socket.
   */
  lemma RequestReachesOwner(w: World, c: string, h: string, d: string, k: string, t: nat)
    requires w.Ok() && Mapped(w, c, h) && w.Owner(d, k, t)
    ensures var eg := w.hosts[c][h].eg;
            var end := FromHost(w, c, eg, Request(t, 0, 0));
            if !Mapped(w, d, k) then
              var coordinator := if c == d || d !in w.slaves then 0 else w.slaves[c];
              end == AtEg(c, eg, Error(t, coordinator, if c == d then 0 else eg))
            else if c == d && w.hosts[d][k].mega == eg then end == Fails
            else end == AtMega(d, w.hosts[d][k].mega, Request(t, StampOf(w, c, d), eg))
  {
    hide MappedEntries, SlaveEntries;
    var eg := w.hosts[c][h].eg;
    var m := Request(t, 0, eg);
    TablesAgree(w, d, k, t, c);
    if c != d {
      SlaveOf(w, c, m);
      if d in w.slaves {
        TablesAgree(w, d, k, t, d);
        ErrorReturns(w, d, c, eg, t);
      }
    }
  }

  /** A reply or an error stamped by the routing of a request ends at the requester's eg socket. */
  lemma ReplyReturns(w: World, c: string, d: string, client: nat, eg: nat, m: Msg)
    requires w.Ok() && c in w.slaves && d in w.slaves && IsSocket(eg)
    requires !m.Request? && m.coordinator == StampOf(w, c, d) && m.host == eg
    ensures FromHost(w, d, client, m) == AtEg(c, eg, m)
  {
    if c != d {
      SlaveOf(w, d, m);
    }
  }

  lemma ErrorReturns(w: World, d: string, c: string, eg: nat, t: nat)
    requires w.Ok() && c in w.slaves && d in w.slaves && IsSocket(eg)
    ensures FromSlave(w, d, Error(t, w.slaves[c], eg)) == AtEg(c, eg, Error(t, w.slaves[c], eg))
  {
    SlaveOf(w, d, Error(t, w.slaves[c], eg));
  }

  /** Request and reply together: whoever owns the type, its reply with the stamps it received comes back
      to the host that asked. */
  lemma RoundTrip(w: World, c: string, h: string, d: string, k: string, t: nat)
    requires w.Ok() && Mapped(w, c, h) && Mapped(w, d, k) && w.Owner(d, k, t)
    requires !(c == d && w.hosts[d][k].mega == w.hosts[c][h].eg)
    ensures var request := FromHost(w, c, w.hosts[c][h].eg, Request(t, 0, 0));
            && request.AtMega? && request.c == d && request.id == w.hosts[d][k].mega
            && var reply := Response(t, request.m.coordinator, request.m.host);
               FromHost(w, d, w.hosts[d][k].eg, reply) == AtEg(c, w.hosts[c][h].eg, reply)
  {
    RequestReachesOwner(w, c, h, d, k, t);
    ReplyReturns(w, c, d, w.hosts[d][k].eg, w.hosts[c][h].eg, Response(t, StampOf(w, c, d), w.hosts[c][h].eg));
  }

  // ---- Equal identities at the slave's two servers ----

  const SLAVE := Action(1, "slave", [Action(2, "one", []), Action(3, "two", [])])
  const COLLIDING := World([SLAVE], map["slave" := 1],
                           map["slave" := map["one" := Sockets(1, 2), "two" := Sockets(2, 1)]])

  /**
   A slave has one server for mega sockets and one for eg sockets, and each numbers its peers by itself. So the eg
   socket of one host and the mega socket of another can have one identity, and then the first cannot ask for a
   type of the second.
   */
  lemma EqualIdentitiesFail()
    ensures var w := COLLIDING;
            && w.Ok() && Mapped(w, "slave", "one") && Mapped(w, "slave", "two") && w.Owner("slave", "two", 3)
            && w.hosts["slave"]["two"].mega == w.hosts["slave"]["one"].eg
            && FromHost(w, "slave", w.hosts["slave"]["one"].eg, Request(3, 0, 0)) == Fails
  {
    var w := COLLIDING;
    var one, two := Action(2, "one", []), Action(3, "two", []);
    TypesOfPair(1, "slave", one, two);
    assert w.OwnerAt(0, 1, "slave", "two", 3);
    RequestReachesOwner(w, "slave", "one", "slave", "two", 3);
  }

  lemma TypesOfPair(index: nat, name: string, one: Element, two: Element)
    requires one.Action? && one.children == [] && two.Action? && two.children == []
    requires index != one.index && index != two.index && one.index != two.index
    ensures AllDistinct([Action(index, name, [one, two])]) && two.index in Types(two)
  {
    var pair := [one, two];
    assert pair[1..] == [two] && [two][1..] == [];
    assert AllTypes([two]) == Types(two) + {} && AllTypes(pair) == Types(one) + AllTypes([two]);
    var top := [Action(index, name, pair)];
    assert top[1..] == [];
    assert AllDistinct([two]) && AllDistinct(pair);
    assert Distinct(top[0]);
  }
}
