/**
 The layout of the read bit set: NetworkAnalysis::getBufferTypes and getDataHashBases
 (src/generators/generator.cpp:79-144), isBufferInProcess and getDataMemberReadHashBase
 (api/egcomponent/generator.hpp:81-116) and what the reader and writer printers ask of them.
 */
module ReadLayout {
  import opened Prelude

  datatype Relation = InComponent | InProcess | OnPlanet

  /** A buffer of the layout, in buffer index order. */
  datatype Buffer = Buffer(coordinator: string, host: string, simple: bool, size: nat, members: seq<nat>)

  /** getBufferTypes, for the component generated for this coordinator and host. */
  function RelationOf(b: Buffer, coordinator: string, host: string): Relation {
    if b.coordinator == coordinator then
      if b.host == host then InComponent else InProcess
    else OnPlanet
  }

  /** isBufferInProcess: the buffer is in shared memory. */
  predicate IsBufferInProcess(b: Buffer, r: Relation) {
    r == InComponent || (r == InProcess && b.simple)
  }

  /** The branches of MegastructureReader and MegastructureWriter that call getDataMemberReadHashBase. */
  predicate PrinterAsksBase(b: Buffer, r: Relation) {
    match r
    case InComponent => false
    case InProcess => !b.simple
    case OnPlanet => true
  }

  /** The members of the buffers that are fetched over the network, in order. */
  function RemoteMembers(buffers: seq<Buffer>, coordinator: string, host: string): seq<nat> {
    if buffers == [] then []
    else
      var b := buffers[0];
      (if IsBufferInProcess(b, RelationOf(b, coordinator, host)) then [] else b.members)
        + RemoteMembers(buffers[1..], coordinator, host)
  }

  predicate Distinct(s: seq<nat>) {
    forall i, j :: 0 <= i < j < |s| ==> s[i] != s[j]
  }

  function AllMembers(buffers: seq<Buffer>): seq<nat> {
    if buffers == [] then [] else buffers[0].members + AllMembers(buffers[1..])
  }

  /** A member's number of instances: the size of its buffer. */
  function SizeOf(buffers: seq<Buffer>, m: nat): nat {
    if buffers == [] then 0
    else if m in buffers[0].members then buffers[0].size
    else SizeOf(buffers[1..], m)
  }

  /** The bit of some instance of the member: base plus instance, the instance below the buffer size. */
  predicate Owns(bases: map<nat, nat>, buffers: seq<Buffer>, m: nat, bit: nat) {
    m in bases && bases[m] <= bit < bases[m] + SizeOf(buffers, m)
  }

  ghost predicate Owned(bases: map<nat, nat>, buffers: seq<Buffer>, bit: nat) {
    exists m :: Owns(bases, buffers, m, bit)
  }

  /** Exactly the bits below the total are used, each by one instance of one member. */
  ghost predicate Tiles(bases: map<nat, nat>, buffers: seq<Buffer>, total: nat) {
    && (forall bit: nat :: Owned(bases, buffers, bit) <==> bit < total)
    && (forall m: nat, n: nat, bit: nat :: Owns(bases, buffers, m, bit) && Owns(bases, buffers, n, bit) ==> m == n)
  }

  /** Each member's bits come before those of the members after it. */
  ghost predicate Ascending(bases: map<nat, nat>, buffers: seq<Buffer>, order: seq<nat>, total: nat) {
    && (forall i :: 0 <= i < |order| ==> order[i] in bases && bases[order[i]] + SizeOf(buffers, order[i]) <= total)
    && (forall i, j :: 0 <= i < j < |order| ==> bases[order[i]] + SizeOf(buffers, order[i]) <= bases[order[j]])
  }

  lemma AscendingGrows(bases: map<nat, nat>, buffers: seq<Buffer>, order: seq<nat>, total: nat, m: nat)
    requires Ascending(bases, buffers, order, total) && m !in bases
    ensures Ascending(bases[m := total], buffers, order + [m], total + SizeOf(buffers, m))
  {
    hide SizeOf;
    assert forall i :: 0 <= i < |order| ==> order[i] != m;
  }

  lemma NothingTiled(buffers: seq<Buffer>, coordinator: string, host: string)
    ensures Tiles(map[], buffers, 0) && Ascending(map[], buffers, [], 0)
    ensures RemoteMembers(buffers[..0], coordinator, host) == []
  {
  }

  lemma TilesGrow(bases: map<nat, nat>, buffers: seq<Buffer>, total: nat, m: nat)
    requires Tiles(bases, buffers, total) && m !in bases
    ensures Tiles(bases[m := total], buffers, total + SizeOf(buffers, m))
  {
    var grown := bases[m := total];
    forall k: nat, bit: nat ensures Owns(grown, buffers, k, bit) <==>
                          if k == m then total <= bit < total + SizeOf(buffers, m) else Owns(bases, buffers, k, bit)
    {
    }
    assert forall k: nat, bit: nat :: Owns(bases, buffers, k, bit) ==> Owned(bases, buffers, bit);
    forall bit: nat ensures Owned(grown, buffers, bit) <==> bit < total + SizeOf(buffers, m) {
      if bit < total {
        assert Owned(bases, buffers, bit);
        var k :| Owns(bases, buffers, k, bit);
        assert Owns(grown, buffers, k, bit);
      } else if bit < total + SizeOf(buffers, m) {
        assert Owns(grown, buffers, m, bit);
      }
    }
  }

  lemma {:induction false} MembersAt(buffers: seq<Buffer>, k: nat, i: nat)
    requires k < |buffers| && i < |buffers[k].members| && Distinct(AllMembers(buffers))
    ensures SizeOf(buffers, buffers[k].members[i]) == buffers[k].size
    ensures buffers[k].members[i] in AllMembers(buffers)
    ensures Distinct(buffers[k].members)
  {
    var first, rest := buffers[0].members, AllMembers(buffers[1..]);
    assert AllMembers(buffers) == first + rest;
    assert forall j :: 0 <= j < |first| ==> (first + rest)[j] == first[j];
    assert forall j :: 0 <= j < |rest| ==> (first + rest)[|first| + j] == rest[j];
    if k > 0 {
      assert Distinct(rest);
      MembersAt(buffers[1..], k - 1, i);
      assert buffers[k] == buffers[1..][k - 1];
    }
  }

  lemma {:induction false} RemoteAppend(buffers: seq<Buffer>, k: nat, coordinator: string, host: string)
    requires k < |buffers|
    ensures RemoteMembers(buffers[..k + 1], coordinator, host) ==
            RemoteMembers(buffers[..k], coordinator, host) +
            (if IsBufferInProcess(buffers[k], RelationOf(buffers[k], coordinator, host)) then []
              else buffers[k].members)
  {
    if k == 0 {
      assert buffers[..1] == [buffers[0]] && buffers[..0] == [] && buffers[..1][1..] == [];
    } else {
      assert buffers[..k + 1][1..] == buffers[1..][..k] && buffers[..k][1..] == buffers[1..][..k - 1];
      RemoteAppend(buffers[1..], k - 1, coordinator, host);
    }
  }

  /** A member of a later buffer is in no earlier one. */
  lemma {:induction false} RemoteFresh(buffers: seq<Buffer>, k: nat, i: nat, coordinator: string, host: string)
    requires k < |buffers| && i < |buffers[k].members| && Distinct(AllMembers(buffers))
    ensures buffers[k].members[i] !in RemoteMembers(buffers[..k], coordinator, host)
  {
    if k > 0 {
      var m := buffers[k].members[i];
      var first, rest := buffers[0].members, AllMembers(buffers[1..]);
      assert AllMembers(buffers) == first + rest;
      assert forall j :: 0 <= j < |first| ==> (first + rest)[j] == first[j];
      assert forall j :: 0 <= j < |rest| ==> (first + rest)[|first| + j] == rest[j];
      assert Distinct(rest);
      assert buffers[k] == buffers[1..][k - 1];
      MembersAt(buffers[1..], k - 1, i);
      assert m !in first;
      RemoteFresh(buffers[1..], k - 1, i, coordinator, host);
      assert buffers[..k][1..] == buffers[1..][..k - 1];
    }
  }

  class NetworkAnalysis {
    const coordinator: string
    const host: string
    const buffers: seq<Buffer>
    var hashBases: map<nat, nat>
    var hashTotal: nat

    ghost predicate Valid()
      reads this
    {
      && hashBases.Keys == MemberSet(RemoteMembers(buffers, coordinator, host))
      && Tiles(hashBases, buffers, hashTotal)
      && Ascending(hashBases, buffers, RemoteMembers(buffers, coordinator, host), hashTotal)
    }

    constructor (coordinator: string, host: string, buffers: seq<Buffer>)
      requires Distinct(AllMembers(buffers))
      ensures this.coordinator == coordinator && this.host == host && this.buffers == buffers
      ensures Valid()
    {
      this.coordinator, this.host, this.buffers := coordinator, host, buffers;
      hashBases, hashTotal := map[], 0;
      new;
      GetDataHashBases();
    }

    method GetDataHashBases()
      requires Distinct(AllMembers(buffers))
      modifies this
      ensures Valid()
    {
      hide Tiles, Ascending, RemoteMembers, Distinct, AllMembers, SizeOf;
      hashBases, hashTotal := map[], 0;
      NothingTiled(buffers, coordinator, host);
      var k := 0;
      while k < |buffers|
        invariant 0 <= k <= |buffers|
        invariant hashBases.Keys == MemberSet(RemoteMembers(buffers[..k], coordinator, host))
        invariant Tiles(hashBases, buffers, hashTotal)
        invariant Ascending(hashBases, buffers, RemoteMembers(buffers[..k], coordinator, host), hashTotal)
      {
        var b := buffers[k];
        var r := RelationOf(b, coordinator, host);
        ghost var order := RemoteMembers(buffers[..k], coordinator, host);
        var i := 0;
        assert order + [] == order;
        while i < |b.members|
          invariant 0 <= i <= |b.members|
          invariant hashBases.Keys ==
                    MemberSet(order) + (if IsBufferInProcess(b, r) then {} else MemberSet(b.members[..i]))
          invariant Tiles(hashBases, buffers, hashTotal)
          invariant Ascending(hashBases, buffers, order + (if IsBufferInProcess(b, r) then [] else b.members[..i]),
                      hashTotal)
        {
          MemberIsNew(buffers, k, i, coordinator, host);
          if r == OnPlanet || (r == InProcess && !b.simple) {
            TilesGrow(hashBases, buffers, hashTotal, b.members[i]);
            AscendingGrows(hashBases, buffers, order + b.members[..i], hashTotal, b.members[i]);
            assert (order + b.members[..i]) + [b.members[i]] == order + b.members[..i + 1];
            hashBases := hashBases[b.members[i] := hashTotal];
            hashTotal := hashTotal + b.size;
          }
          i := i + 1;
        }
        assert b.members[..i] == b.members;
        RemoteAppend(buffers, k, coordinator, host);
        k := k + 1;
      }
      assert buffers[..k] == buffers;
    }
  }

  function MemberSet(s: seq<nat>): set<nat> {
    set m | m in s
  }

  /** The next member of a buffer has no base yet, and its number of instances is the buffer's size. */
  lemma MemberIsNew(buffers: seq<Buffer>, k: nat, i: nat, coordinator: string, host: string)
    requires k < |buffers| && i < |buffers[k].members| && Distinct(AllMembers(buffers))
    ensures var b := buffers[k];
            && b.members[i] !in MemberSet(RemoteMembers(buffers[..k], coordinator, host))
            && b.members[i] !in MemberSet(b.members[..i])
            && MemberSet(b.members[..i + 1]) == MemberSet(b.members[..i]) + {b.members[i]}
            && SizeOf(buffers, b.members[i]) == b.size
  {
    MembersAt(buffers, k, i);
    RemoteFresh(buffers, k, i, coordinator, host);
    var s := buffers[k].members;
    assert s[..i + 1] == s[..i] + [s[i]];
  }

  lemma {:induction false} RemoteIff(buffers: seq<Buffer>, k: nat, i: nat, coordinator: string, host: string)
    requires k < |buffers| && i < |buffers[k].members| && Distinct(AllMembers(buffers))
    ensures buffers[k].members[i] in RemoteMembers(buffers, coordinator, host) <==>
            !IsBufferInProcess(buffers[k], RelationOf(buffers[k], coordinator, host))
  {
    var m := buffers[k].members[i];
    var first, rest := buffers[0].members, AllMembers(buffers[1..]);
    assert AllMembers(buffers) == first + rest;
    assert forall j :: 0 <= j < |first| ==> (first + rest)[j] == first[j];
    assert forall j :: 0 <= j < |rest| ==> (first + rest)[|first| + j] == rest[j];
    if k > 0 {
      assert Distinct(rest);
      assert buffers[k] == buffers[1..][k - 1];
      MembersAt(buffers[1..], k - 1, i);
      RemoteIff(buffers[1..], k - 1, i, coordinator, host);
      assert m !in first;
    } else {
      RemoteSubset(buffers[1..], m, coordinator, host);
      assert m !in rest;
    }
  }

  lemma {:induction false} RemoteSubset(buffers: seq<Buffer>, m: nat, coordinator: string, host: string)
    ensures m in RemoteMembers(buffers, coordinator, host) ==> m in AllMembers(buffers)
  {
    if buffers != [] {
      RemoteSubset(buffers[1..], m, coordinator, host);
    }
  }

  /**
   A member has a base exactly when its buffer is of another coordinator, or of another host of this coordinator and
   not simple; that is when the printers ask for one, and when the buffer is not in process.
   */
  lemma BaseExistsIffAsked(analysis: NetworkAnalysis, k: nat, i: nat)
    requires analysis.Valid() && Distinct(AllMembers(analysis.buffers))
    requires k < |analysis.buffers| && i < |analysis.buffers[k].members|
    ensures var b := analysis.buffers[k];
            var r := RelationOf(b, analysis.coordinator, analysis.host);
            && (b.members[i] in analysis.hashBases <==>
                  b.coordinator != analysis.coordinator || (b.host != analysis.host && !b.simple))
            && (b.members[i] in analysis.hashBases <==> PrinterAsksBase(b, r))
            && (b.members[i] in analysis.hashBases <==> !IsBufferInProcess(b, r))
  {
    RemoteIff(analysis.buffers, k, i, analysis.coordinator, analysis.host);
  }

  /** A component's own buffers have no base, nor has anything that is not a member of a buffer. */
  lemma OwnHasNoBase(analysis: NetworkAnalysis, m: nat)
    requires analysis.Valid() && Distinct(AllMembers(analysis.buffers)) && m in analysis.hashBases
    ensures exists k, i :: 0 <= k < |analysis.buffers| && 0 <= i < |analysis.buffers[k].members|
                           && analysis.buffers[k].members[i] == m
                           && !(analysis.buffers[k].coordinator == analysis.coordinator
                                && analysis.buffers[k].host == analysis.host)
  {
    var k, i := RemoteComesFrom(analysis.buffers, m, analysis.coordinator, analysis.host);
  }

  lemma {:induction false} RemoteComesFrom(buffers: seq<Buffer>, m: nat, coordinator: string, host: string)
    returns (k: nat, i: nat)
    requires m in RemoteMembers(buffers, coordinator, host)
    ensures k < |buffers| && i < |buffers[k].members| && buffers[k].members[i] == m
    ensures !(buffers[k].coordinator == coordinator && buffers[k].host == host)
  {
    var b := buffers[0];
    k := 0;
    if !IsBufferInProcess(b, RelationOf(b, coordinator, host)) && m in b.members {
      i :| i < |b.members| && b.members[i] == m;
    } else {
      k, i := RemoteComesFrom(buffers[1..], m, coordinator, host);
      k := k + 1;
    }
  }

  /** Bases are handed out in the order of the buffers and of their members. */
  lemma BasesInOrder(analysis: NetworkAnalysis, k: nat, i: nat, l: nat, j: nat)
    requires analysis.Valid() && Distinct(AllMembers(analysis.buffers))
    requires k < |analysis.buffers| && i < |analysis.buffers[k].members|
    requires l < |analysis.buffers| && j < |analysis.buffers[l].members|
    requires k < l || (k == l && i < j)
    requires analysis.buffers[k].members[i] in analysis.hashBases
    requires analysis.buffers[l].members[j] in analysis.hashBases
    ensures analysis.hashBases[analysis.buffers[k].members[i]] + analysis.buffers[k].size
            <= analysis.hashBases[analysis.buffers[l].members[j]]
  {
    var bs, c, h := analysis.buffers, analysis.coordinator, analysis.host;
    RemoteIff(bs, k, i, c, h);
    RemoteIff(bs, l, j, c, h);
    MembersAt(bs, k, i);
    var x := RemoteAt(bs, k, i, c, h);
    var y := RemoteAt(bs, l, j, c, h);
    if k < l {
      RemoteAppend(bs, k, c, h);
      RemoteBefore(bs, k + 1, l, c, h);
    }
    var order := RemoteMembers(bs, c, h);
    assert x < y && order[x] == bs[k].members[i] && order[y] == bs[l].members[j];
  }

  /** The place of a member in the list of those fetched over the network. */
  lemma RemoteAt(buffers: seq<Buffer>, k: nat, i: nat, coordinator: string, host: string) returns (x: nat)
    requires k < |buffers| && i < |buffers[k].members|
    requires !IsBufferInProcess(buffers[k], RelationOf(buffers[k], coordinator, host))
    ensures x == |RemoteMembers(buffers[..k], coordinator, host)| + i
    ensures x < |RemoteMembers(buffers, coordinator, host)|
    ensures RemoteMembers(buffers, coordinator, host)[x] == buffers[k].members[i]
  {
    x := |RemoteMembers(buffers[..k], coordinator, host)| + i;
    RemoteAppend(buffers, k, coordinator, host);
    RemoteBefore(buffers, k + 1, |buffers|, coordinator, host);
    assert buffers[..|buffers|] == buffers;
  }

  lemma {:induction false} RemoteBefore(buffers: seq<Buffer>, k: nat, l: nat, coordinator: string, host: string)
    requires k <= l <= |buffers|
    ensures RemoteMembers(buffers[..k], coordinator, host) <= RemoteMembers(buffers[..l], coordinator, host)
    decreases l - k
  {
    if k < l {
      RemoteAppend(buffers, k, coordinator, host);
      RemoteBefore(buffers, k + 1, l, coordinator, host);
    }
  }

  predicate InLayout(bases: map<nat, nat>, buffers: seq<Buffer>, c: Cell) {
    c.typeId in bases && c.instance < SizeOf(buffers, c.typeId)
  }

  /** base + instance is injective on (member, instance) pairs and stays below the bit set's size. */
  lemma BitsAreDistinct(bases: map<nat, nat>, buffers: seq<Buffer>, total: nat, c: Cell, d: Cell)
    requires Tiles(bases, buffers, total) && InLayout(bases, buffers, c) && InLayout(bases, buffers, d)
    ensures bases[c.typeId] + c.instance < total
    ensures bases[c.typeId] + c.instance == bases[d.typeId] + d.instance ==> c == d
  {
    assert Owns(bases, buffers, c.typeId, bases[c.typeId] + c.instance);
    assert Owns(bases, buffers, d.typeId, bases[d.typeId] + d.instance);
    assert Owned(bases, buffers, bases[c.typeId] + c.instance);
  }
}
