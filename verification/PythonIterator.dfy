/**
 The iterator over the instances of an evaluated range (src/python/python_iterator.cpp:20-112), as it is
 handed to Python between a begin and an end iterator (src/generators/python_generator.cpp:886).
 */
module PythonIterator {
  import opened Prelude

  /** A subrange holds the instances begin <= position < end of one type. */
  datatype SubRange = SubRange(typeId: nat, first: nat, last: nat)

  /**
   The id makes it the identity of a shared pointer; `live` holds the instances that are not stopped or stopped in
   this cycle; a raw range does not ask.
   */
  datatype Range = Range(id: nat, subs: seq<SubRange>, raw: bool, live: set<Cell>) {
    /** The code compares a position with the end for equality only. */
    predicate Ok() {
      forall i :: 0 <= i < |subs| ==> subs[i].first <= subs[i].last
    }

    predicate IsValid(sub: nat, pos: nat) {
      sub < |subs| && subs[sub].first <= pos < subs[sub].last && (raw || Cell(subs[sub].typeId, pos) in live)
    }
  }

  datatype Place = Place(sub: nat, pos: nat)

  predicate Before(a: Place, b: Place) {
    a.sub < b.sub || (a.sub == b.sub && a.pos < b.pos)
  }

  /** The valid places from a place on. */
  function From(r: Range, sub: nat, pos: nat): seq<Place>
    requires r.Ok() && sub <= |r.subs| && (sub < |r.subs| ==> r.subs[sub].first <= pos <= r.subs[sub].last)
    decreases |r.subs| - sub, if sub < |r.subs| then r.subs[sub].last - pos else 0
  {
    if sub == |r.subs| then []
    else if pos == r.subs[sub].last then From(r, sub + 1, if sub + 1 < |r.subs| then r.subs[sub + 1].first else 0)
    else (if r.IsValid(sub, pos) then [Place(sub, pos)] else []) + From(r, sub, pos + 1)
  }

  function Start(r: Range): nat {
    if r.subs == [] then 0 else r.subs[0].first
  }

  function All(r: Range): seq<Place>
    requires r.Ok()
  {
    From(r, 0, Start(r))
  }

  /** The list holds exactly the valid places at or after a place, in order. */
  lemma {:induction false} FromIs(r: Range, sub: nat, pos: nat, p: Place)
    requires r.Ok() && sub <= |r.subs| && (sub < |r.subs| ==> r.subs[sub].first <= pos <= r.subs[sub].last)
    ensures p in From(r, sub, pos) <==> r.IsValid(p.sub, p.pos) && !Before(p, Place(sub, pos))
    ensures forall i, j :: 0 <= i < j < |From(r, sub, pos)| ==> Before(From(r, sub, pos)[i], From(r, sub, pos)[j])
    decreases |r.subs| - sub, if sub < |r.subs| then r.subs[sub].last - pos else 0
  {
    if sub < |r.subs| {
      if pos == r.subs[sub].last {
        FromIs(r, sub + 1, if sub + 1 < |r.subs| then r.subs[sub + 1].first else 0, p);
      } else {
        FromIs(r, sub, pos + 1, p);
        var rest := From(r, sub, pos + 1);
        forall j | 0 <= j < |rest| ensures Before(Place(sub, pos), rest[j]) {
          FromIs(r, sub, pos + 1, rest[j]);
        }
      }
    }
  }

  /** Every valid position of every subrange is enumerated, once, in order of subrange and position. */
  lemma EnumeratesExactlyTheValid(r: Range, p: Place)
    requires r.Ok()
    ensures p in All(r) <==>
            && p.sub < |r.subs| && r.subs[p.sub].first <= p.pos < r.subs[p.sub].last
            && (r.raw || Cell(r.subs[p.sub].typeId, p.pos) in r.live)
    ensures forall i, j :: 0 <= i < j < |All(r)| ==>
              var a, b := All(r)[i], All(r)[j];
              a.sub < b.sub || (a.sub == b.sub && a.pos < b.pos)
  {
    FromIs(r, 0, Start(r), p);
  }

  class Iterator {
    const range: Range
    var position: nat
    var subRange: nat

    /** At the end, or at a valid place. */
    ghost predicate Valid()
      reads this
    {
      range.Ok() && (subRange == |range.subs| || range.IsValid(subRange, position))
    }

    /** The places still to come, the current one first. */
    ghost function Remaining(): (s: seq<Place>)
      requires Valid()
      reads this
      ensures s == [] <==> subRange == |range.subs|
      ensures s != [] ==> s[0] == Place(subRange, position)
    {
      From(range, subRange, position)
    }

    constructor (range: Range, end: bool)
      requires range.Ok()
      ensures Valid() && this.range == range
      ensures Remaining() == if end then [] else All(range)
    {
      this.range, position, subRange := range, 0, 0;
      new;
      if end {
        subRange := |range.subs|;
      } else if subRange != |range.subs| {
        position := range.subs[subRange].first;
        ScanToNextOrEnd();
      }
    }

    method ScanToNextOrEnd()
      requires range.Ok() && subRange <= |range.subs|
      requires subRange < |range.subs| ==> range.subs[subRange].first <= position <= range.subs[subRange].last
      modifies this
      ensures Valid()
      ensures Remaining() == From(range, old(subRange), old(position))
    {
      while true
        invariant subRange <= |range.subs|
        invariant subRange < |range.subs| ==> range.subs[subRange].first <= position <= range.subs[subRange].last
        invariant From(range, subRange, position) == From(range, old(subRange), old(position))
        decreases |range.subs| - subRange, if subRange < |range.subs| then range.subs[subRange].last - position else 0
      {
        ghost var sub, pos := subRange, position;
        while subRange != |range.subs| && position == range.subs[subRange].last
          invariant subRange <= |range.subs|
          invariant subRange < |range.subs| ==> range.subs[subRange].first <= position <= range.subs[subRange].last
          invariant From(range, subRange, position) == From(range, old(subRange), old(position))
          invariant subRange > sub || (subRange == sub && position == pos)
          decreases |range.subs| - subRange
        {
          subRange := subRange + 1;
          if subRange == |range.subs| { break; }
          position := range.subs[subRange].first;
        }
        if subRange == |range.subs| { break; }
        if !range.raw {
          if Cell(range.subs[subRange].typeId, position) in range.live { break; }
        } else {
          break;
        }
        position := position + 1;
      }
    }

    /** operator++: drops the current place; at the end it stays there. */
    method Increment()
      requires Valid()
      modifies this
      ensures Valid()
      ensures Remaining() == if old(Remaining()) == [] then [] else old(Remaining())[1..]
    {
      position := position + 1;
      ScanToNextOrEnd();
    }

    /** operator==: iterators over different ranges are never equal, even when both are at the end. */
    method Equals(other: Iterator) returns (same: bool)
      requires Valid() && other.Valid() && (range.id == other.range.id ==> range == other.range)
      ensures same <==> range.id == other.range.id && Remaining() == other.Remaining()
    {
      if range.id == other.range.id && subRange == other.subRange {
        if subRange == |range.subs| {
          return true;
        }
        return position == other.position;
      }
      return false;
    }

    method Dereference() returns (c: Option<Cell>)
      requires Valid()
      ensures c == if Remaining() == [] then None
                   else Some(Cell(range.subs[Remaining()[0].sub].typeId, Remaining()[0].pos))
    {
      if subRange == |range.subs| {
        return None;
      }
      return Some(Cell(range.subs[subRange].typeId, position));
    }
  }

  function CellOf(r: Range, p: Place): Option<Cell> {
    if p.sub < |r.subs| then Some(Cell(r.subs[p.sub].typeId, p.pos)) else None
  }

  lemma PlacesExist(r: Range)
    requires r.Ok()
    ensures forall i :: 0 <= i < |All(r)| ==> All(r)[i].sub < |r.subs|
  {
    forall i | 0 <= i < |All(r)| ensures All(r)[i].sub < |r.subs| {
      EnumeratesExactlyTheValid(r, All(r)[i]);
    }
  }

  /** What Python sees: from begin, dereference and increment until the iterator equals end. */
  method Enumerate(range: Range) returns (cells: seq<Option<Cell>>)
    requires range.Ok()
    ensures |cells| == |All(range)|
    ensures forall i :: 0 <= i < |cells| ==>
              var p := All(range)[i];
              p.sub < |range.subs| && cells[i] == Some(Cell(range.subs[p.sub].typeId, p.pos))
  {
    PlacesExist(range);
    var it := new Iterator(range, false);
    var end := new Iterator(range, true);
    cells := [];
    var done := it.Equals(end);
    while !done
      invariant it.Valid() && it.range == range && end.Valid() && end.range == range && it != end && fresh(it)
      invariant end.Remaining() == [] && (done <==> it.Remaining() == [])
      invariant |cells| <= |All(range)| && it.Remaining() == All(range)[|cells|..]
      invariant forall i :: 0 <= i < |cells| ==> cells[i] == CellOf(range, All(range)[i])
      decreases |it.Remaining()|
    {
      var c := it.Dereference();
      assert it.Remaining()[0] == All(range)[|cells|];
      cells := cells + [c];
      it.Increment();
      done := it.Equals(end);
    }
  }
}
