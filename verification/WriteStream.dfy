/**
 The write stream: DimensionTraits encode and decode (api/egcomponent/traits.hpp:66-256), the encoder in
 the generated completeSimulationLocks and the generated decodeWriteRequest
 (src/generators/generator.cpp:897-942).
 */
module WriteStream {
  import opened Prelude
  import opened Arithmetic

  /** A self-delimiting packed object. */
  datatype Token = Number(n: int) | Flag(b: bool) | Array(items: seq<nat>)

  /**
   The shape of a data member's type, which both ends know. A mask of `size` bits is packed in an integer of
   `width` bits; the conversion throws when a bit at or above `converts` is set (64 for to_ullong, the width
   of unsigned long for to_ulong).
   */
  datatype Kind = PlainKind | ReferenceKind | BitsKind(width: nat, converts: nat, size: nat) | RingKind(size: nat)

  // ---- Bit masks ----

  function Pow2(n: nat): (r: nat)
    ensures r > 0
  {
    if n == 0 then 1 else 2 * Pow2(n - 1)
  }

  /** std::bitset::to_ulong: bit 0 is the least significant. */
  function ToNumber(bits: seq<bool>): (n: nat)
    ensures n < Pow2(|bits|)
  {
    if bits == [] then 0 else (if bits[0] then 1 else 0) + 2 * ToNumber(bits[1..])
  }

  /** std::bitset< size >( n ): the low `size` bits of n. */
  function FromNumber(n: nat, size: nat): (bits: seq<bool>)
    ensures |bits| == size
  {
    if size == 0 then [] else [n % 2 == 1] + FromNumber(n / 2, size - 1)
  }

  lemma {:induction false} FromToNumber(bits: seq<bool>)
    ensures FromNumber(ToNumber(bits), |bits|) == bits
  {
    if bits != [] {
      var n := ToNumber(bits);
      assert n % 2 == (if bits[0] then 1 else 0) && n / 2 == ToNumber(bits[1..]);
      FromToNumber(bits[1..]);
    }
  }

  /** Bit i has the weight 2 to the i, both ways. */
  lemma {:induction false} BitIs(bits: seq<bool>, n: nat, size: nat, i: nat)
    ensures Pow2(0) == 1 && Pow2(i + 1) == 2 * Pow2(i)
    ensures i < |bits| ==> (ToNumber(bits) / Pow2(i) % 2 == 1 <==> bits[i])
    ensures i < size ==> (FromNumber(n, size)[i] <==> n / Pow2(i) % 2 == 1)
    decreases i
  {
    if i > 0 {
      var rest := if bits == [] then [] else bits[1..];
      BitIs(rest, n / 2, if size == 0 then 0 else size - 1, i - 1);
      HalfFirst(n, Pow2(i - 1));
      if bits != [] {
        HalfFirst(ToNumber(bits), Pow2(i - 1));
      }
    }
  }

  lemma HalfFirst(n: nat, p: nat)
    requires p > 0
    ensures n / (2 * p) == (n / 2) / p
  {
    var q, r := (n / 2) / p, (n / 2) % p;
    assert n / 2 == q * p + r;
    assert n == q * (2 * p) + (2 * r + n % 2);
    ModOf(n, 2 * p, q, 2 * r + n % 2);
  }

  /** Truncating to `width` bits clears the bits above. */
  function Truncated(bits: seq<bool>, width: nat): (r: seq<bool>)
    ensures |r| == |bits|
    ensures forall i :: 0 <= i < |bits| ==> r[i] == (i < width && bits[i])
  {
    seq(|bits|, i requires 0 <= i < |bits| => i < width && bits[i])
  }

  lemma {:induction false} TruncatedNumber(bits: seq<bool>, width: nat)
    ensures ToNumber(Truncated(bits, width)) == ToNumber(bits) % Pow2(width)
    decreases |bits|
  {
    var r := Truncated(bits, width);
    if bits != [] {
      if width == 0 {
        TruncatedNumber(bits[1..], 0);
        assert r[1..] == Truncated(bits[1..], 0);
      } else {
        TruncatedNumber(bits[1..], width - 1);
        assert r[1..] == Truncated(bits[1..], width - 1);
        DoubleMod(if bits[0] then 1 else 0, ToNumber(bits[1..]), Pow2(width - 1));
      }
    } else {
      assert 0 % Pow2(width) == 0;
    }
  }

  lemma DoubleMod(b: nat, n: nat, p: nat)
    requires b <= 1 && p > 0
    ensures (b + 2 * n) % (2 * p) == b + 2 * (n % p)
  {
    var q, m := n / p, n % p;
    assert n == q * p + m;
    ModOf(b + 2 * n, 2 * p, q, b + 2 * m);
  }

  // ---- One value ----

  predicate Shaped(v: Value, k: Kind) {
    match k
    case PlainKind => v.Plain?
    case ReferenceKind => v.Reference?
    case BitsKind(_, _, size) => v.Bits? && |v.bits| == size
    case RingKind(size) => v.Ring? && |v.slots| == size
  }

  /** The conversion of a mask to an integer does not throw. */
  predicate Convertible(v: Value, k: Kind) {
    v.Bits? && k.BitsKind? ==> forall i :: k.converts <= i < |v.bits| ==> !v.bits[i]
  }

  function Packed(v: Value, k: Kind): seq<Token>
    requires Shaped(v, k)
  {
    match v
    case Plain(d) => [Number(d)]
    case Reference(i, t, ts) => [Number(i), Number(t), Number(ts)]
    case Bits(bits) => [Number(ToNumber(bits) % Pow2(k.width))]
    case Ring(h, t, f, slots) => [Number(h), Number(t), Flag(f), Array(slots)]
  }

  /** DimensionTraits encode; None is its throw. */
  function EncodeValue(v: Value, k: Kind): Option<seq<Token>>
    requires Shaped(v, k)
  {
    if Convertible(v, k) then Some(Packed(v, k)) else None
  }

  predicate IsNat(s: seq<Token>, i: nat) {
    i < |s| && s[i].Number? && s[i].n >= 0
  }

  /** The value at the front of the stream and what follows it; None is the decoder's throw. */
  function DecodeValue(k: Kind, s: seq<Token>): (r: Option<(Value, seq<Token>)>)
    ensures r.Some? ==> |r.value.1| < |s|
  {
    match k
    case PlainKind => if s != [] && s[0].Number? then Some((Plain(s[0].n), s[1..])) else None
    case ReferenceKind =>
      if IsNat(s, 0) && IsNat(s, 1) && IsNat(s, 2) then Some((Reference(s[0].n, s[1].n, s[2].n), s[3..])) else None
    case BitsKind(_, _, size) => if IsNat(s, 0) then Some((Bits(FromNumber(s[0].n, size)), s[1..])) else None
    case RingKind(size) =>
      if IsNat(s, 0) && IsNat(s, 1) && |s| > 3 && s[2].Flag? && s[3].Array? && |s[3].items| == size then
        Some((Ring(s[0].n, s[1].n, s[2].b, s[3].items), s[4..]))
      else None
  }

  /** What a value becomes on the other side. */
  function Received(v: Value, k: Kind): (r: Value)
    requires Shaped(v, k)
    ensures Shaped(r, k)
  {
    if v.Bits? then Bits(Truncated(v.bits, k.width)) else v
  }

  /** A value is read back whole from the front of any stream, and nothing else is consumed. */
  lemma ValueRoundTrip(v: Value, k: Kind, rest: seq<Token>)
    requires Shaped(v, k)
    ensures DecodeValue(k, Packed(v, k) + rest) == Some((Received(v, k), rest))
  {
    var s := Packed(v, k) + rest;
    match v
    case Plain(_) =>
      assert s[1..] == rest;
    case Reference(_, _, _) =>
      assert s[3..] == rest;
    case Bits(bits) =>
      assert s[1..] == rest;
      TruncatedNumber(bits, k.width);
      FromToNumber(Truncated(bits, k.width));
    case Ring(_, _, _, _) =>
      assert s[4..] == rest;
  }

  /** What each kind of value looks like in the stream; a mask is one number, whose bits are those of the mask. */
  lemma WireFormat(v: Value, k: Kind)
    requires Shaped(v, k)
    ensures v.Plain? ==> EncodeValue(v, k) == Some([Number(v.datum)])
    ensures v.Reference? ==>
              EncodeValue(v, k) == Some([Number(v.instance), Number(v.typeId), Number(v.timestamp)])
    ensures v.Ring? ==> EncodeValue(v, k) == Some([Number(v.head), Number(v.tail), Flag(v.full), Array(v.slots)])
    ensures v.Bits? ==>
              && (EncodeValue(v, k).None? <==> exists i :: k.converts <= i < |v.bits| && v.bits[i])
              && (EncodeValue(v, k).Some? ==>
                    exists n: nat ::
                      && n < Pow2(k.width) && EncodeValue(v, k) == Some([Number(n)])
                      && forall i: nat :: i < |v.bits| ==> (n / Pow2(i) % 2 == 1 <==> i < k.width && v.bits[i]))
  {
    if v.Bits? {
      var r := Truncated(v.bits, k.width);
      var n := ToNumber(r);
      TruncatedNumber(v.bits, k.width);
      ModBelow(ToNumber(v.bits), Pow2(k.width));
      forall i: nat | i < |v.bits| ensures n / Pow2(i) % 2 == 1 <==> i < k.width && v.bits[i] {
        BitIs(r, 0, 0, i);
      }
      assert EncodeValue(v, k).Some? ==> EncodeValue(v, k) == Some([Number(n)]);
    }
  }

  lemma ModBelow(x: nat, d: nat)
    requires d > 0
    ensures x % d < d
  {
  }

  /** The decoder takes nothing but what the encoder makes; for a mask, any number that is not negative. */
  lemma DecodesOnly(k: Kind, s: seq<Token>)
    ensures match DecodeValue(k, s)
            case None => forall v, rest :: Shaped(v, k) ==> s != Packed(v, k) + rest
            case Some((v, rest)) => Shaped(v, k) && (k.BitsKind? || s == Packed(v, k) + rest)
    ensures k.BitsKind? ==> (DecodeValue(k, s).Some? <==> s != [] && s[0].Number? && s[0].n >= 0)
  {
    if DecodeValue(k, s).None? {
      forall v, rest | Shaped(v, k) ensures s != Packed(v, k) + rest {
        ValueRoundTrip(v, k, rest);
      }
    }
  }

  /** No bit at or above either the converted bits or the width of the integer a mask is packed in. */
  predicate Fits(v: Value, k: Kind) {
    v.Bits? && k.BitsKind? ==> forall i :: 0 <= i < |v.bits| && (k.width <= i || k.converts <= i) ==> !v.bits[i]
  }

  /** The value is sent without a throw and read back unchanged. */
  predicate Arrives(v: Value, k: Kind)
    requires Shaped(v, k)
  {
    match EncodeValue(v, k)
    case None => false
    case Some(s) => DecodeValue(k, s) == Some((v, []))
  }

  /** A value arrives exactly when it fits. */
  lemma ValueArrivesIff(v: Value, k: Kind)
    requires Shaped(v, k)
    ensures Arrives(v, k) <==> Fits(v, k)
  {
    ValueRoundTrip(v, k, []);
    assert Packed(v, k) + [] == Packed(v, k);
    ReceivedIff(v, k);
  }

  lemma ReceivedIff(v: Value, k: Kind)
    requires Shaped(v, k)
    ensures Convertible(v, k) && Received(v, k) == v <==> Fits(v, k)
  {
    if v.Bits? {
      var r := Truncated(v.bits, k.width);
      if Fits(v, k) {
        assert r == v.bits;
      } else {
        var i :| 0 <= i < |v.bits| && (k.width <= i || k.converts <= i) && v.bits[i];
        assert k.width <= i ==> r[i] != v.bits[i];
      }
    }
  }

  /** A type with a mask of more bits than its integer has values that do not arrive. */
  lemma WideMaskIsLost(k: Kind) returns (v: Value)
    requires k.BitsKind? && (k.size > k.width || k.size > k.converts)
    ensures Shaped(v, k) && !Arrives(v, k)
  {
    var bits := seq(k.size, _ => true);
    v := Bits(bits);
    var i := k.size - 1;
    assert bits[i];
    assert !Fits(v, k);
    ValueArrivesIff(v, k);
  }

  // ---- A stream of writes ----

  /** The kind of every type the layout knows. */
  type Kinds = map<nat, Kind>

  predicate SendableCell(c: Cell, store: Store, kinds: Kinds) {
    c in store && c.typeId in kinds && Shaped(store[c], kinds[c.typeId]) && Convertible(store[c], kinds[c.typeId])
  }

  predicate Sendable(cells: seq<Cell>, store: Store, kinds: Kinds) {
    forall i :: 0 <= i < |cells| ==> SendableCell(cells[i], store, kinds)
  }

  function EncodeWrites(cells: seq<Cell>, store: Store, kinds: Kinds): seq<Token>
    requires Sendable(cells, store, kinds)
  {
    if cells == [] then []
    else
      var c := cells[0];
      [Number(c.typeId), Number(c.instance)] + Packed(store[c], kinds[c.typeId])
        + EncodeWrites(cells[1..], store, kinds)
  }

  function DecodeWrites(s: seq<Token>, kinds: Kinds, store: Store): Option<Store>
    decreases |s|
  {
    if s == [] then Some(store)
    else if !IsNat(s, 0) || !IsNat(s, 1) || s[0].n !in kinds then None
    else
      match DecodeValue(kinds[s[0].n], s[2..])
      case None => None
      case Some((v, rest)) => DecodeWrites(rest, kinds, store[Cell(s[0].n, s[1].n) := v])
  }

  /** Each write is its type, its instance and its value, in the order of the writes. */
  lemma {:induction false} WriteFormat(cells: seq<Cell>, store: Store, kinds: Kinds, i: nat)
    requires Sendable(cells, store, kinds) && i < |cells|
    ensures var c := cells[i];
            EncodeWrites(cells, store, kinds) ==
            EncodeWrites(cells[..i], store, kinds)
              + ([Number(c.typeId), Number(c.instance)] + Packed(store[c], kinds[c.typeId]))
              + EncodeWrites(cells[i + 1..], store, kinds)
    ensures EncodeWrites([], store, kinds) == []
  {
    hide Packed, Shaped, Convertible;
    if i == 0 {
      assert cells[..0] == [];
    } else {
      WriteFormat(cells[1..], store, kinds, i - 1);
      assert cells[1..][..i - 1] == cells[..i][1..] && cells[1..][i..] == cells[i + 1..];
    }
  }

  /** No type and instance, a type nobody knows, or a value that is not one of that type. */
  predicate Malformed(s: seq<Token>, kinds: Kinds) {
    s != [] &&
    (|s| < 2 || !s[0].Number? || !s[1].Number? || s[0].n < 0 || s[1].n < 0 || s[0].n !in kinds
     || DecodeValue(kinds[s[0].n], s[2..]).None?)
  }

  /** A stream is refused at the first write that is not one, whatever has been decoded before. */
  lemma {:induction false} BadWrite(cells: seq<Cell>, from: Store, kinds: Kinds, bad: seq<Token>, onto: Store)
    requires Sendable(cells, from, kinds) && Malformed(bad, kinds)
    ensures DecodeWrites(EncodeWrites(cells, from, kinds) + bad, kinds, onto) == None
    decreases |cells|
  {
    if cells == [] {
      assert EncodeWrites(cells, from, kinds) + bad == bad;
    } else {
      hide Malformed;
      var c := cells[0];
      var next := onto[c := Received(from[c], kinds[c.typeId])];
      var tail := EncodeWrites(cells[1..], from, kinds);
      var first := [Number(c.typeId), Number(c.instance)] + Packed(from[c], kinds[c.typeId]);
      assert EncodeWrites(cells, from, kinds) + bad == first + (tail + bad);
      FirstDecodes(c, from, kinds, tail + bad, onto);
      BadWrite(cells[1..], from, kinds, bad, next);
    }
  }

  lemma FirstDecodes(c: Cell, from: Store, kinds: Kinds, rest: seq<Token>, onto: Store)
    requires SendableCell(c, from, kinds)
    ensures DecodeWrites([Number(c.typeId), Number(c.instance)] + Packed(from[c], kinds[c.typeId]) + rest, kinds, onto)
            == DecodeWrites(rest, kinds, onto[c := Received(from[c], kinds[c.typeId])])
  {
    hide Packed, DecodeValue, Received;
    var k := kinds[c.typeId];
    var s := [Number(c.typeId), Number(c.instance)] + Packed(from[c], k) + rest;
    assert s[2..] == Packed(from[c], k) + rest;
    ValueRoundTrip(from[c], k, rest);
    assert Cell(s[0].n, s[1].n) == c;
  }

  predicate AllSendable(cells: set<Cell>, store: Store, kinds: Kinds) {
    forall c :: c in cells ==> SendableCell(c, store, kinds)
  }

  /** The store overwritten at the given cells with what arrives of the sender's values. */
  function Overwritten(cells: set<Cell>, from: Store, kinds: Kinds, onto: Store): (r: Store)
    requires AllSendable(cells, from, kinds)
    ensures r.Keys == onto.Keys + cells
    ensures forall c :: c in r ==> r[c] == if c in cells then Received(from[c], kinds[c.typeId]) else onto[c]
  {
    map c | c in onto.Keys + cells :: if c in cells then Received(from[c], kinds[c.typeId]) else onto[c]
  }

  function CellSet(cells: seq<Cell>): set<Cell> {
    set c | c in cells
  }

  lemma OverwrittenFirst(cells: seq<Cell>, from: Store, kinds: Kinds, onto: Store)
    requires Sendable(cells, from, kinds) && cells != []
    ensures Sendable(cells[1..], from, kinds)
    ensures var next := onto[cells[0] := Received(from[cells[0]], kinds[cells[0].typeId])];
            Overwritten(CellSet(cells[1..]), from, kinds, next) == Overwritten(CellSet(cells), from, kinds, onto)
  {
    assert forall c :: c in cells <==> c == cells[0] || c in cells[1..];
  }

  /** Decoding sets exactly the written cells, each to the sender's value, and leaves all others alone. */
  lemma {:induction false} WritesRoundTrip(cells: seq<Cell>, from: Store, kinds: Kinds, onto: Store)
    requires Sendable(cells, from, kinds)
    ensures DecodeWrites(EncodeWrites(cells, from, kinds), kinds, onto) ==
            Some(Overwritten(CellSet(cells), from, kinds, onto))
    decreases cells
  {
    if cells == [] {
      assert Overwritten(CellSet(cells), from, kinds, onto) == onto;
    } else {
      var c := cells[0];
      var k := kinds[c.typeId];
      var tail := EncodeWrites(cells[1..], from, kinds);
      var body := Packed(from[c], k) + tail;
      var s := EncodeWrites(cells, from, kinds);
      assert s == [Number(c.typeId), Number(c.instance)] + body;
      assert s[2..] == body;
      ValueRoundTrip(from[c], k, tail);
      var next := onto[c := Received(from[c], k)];
      assert Cell(s[0].n, s[1].n) == c;
      WritesRoundTrip(cells[1..], from, kinds, next);
      OverwrittenFirst(cells, from, kinds, onto);
    }
  }

  predicate AllShaped(cells: set<Cell>, store: Store, kinds: Kinds) {
    forall c :: c in cells ==> c in store && c.typeId in kinds && Shaped(store[c], kinds[c.typeId])
  }

  /** The generated encoding loop of completeSimulationLocks, over the write set in any order; None is its throw. */
  method EncodeWriteSet(writes: set<Cell>, store: Store, kinds: Kinds)
    returns (r: Option<seq<Token>>, ghost order: seq<Cell>)
    requires AllShaped(writes, store, kinds)
    ensures r.Some? <==> AllSendable(writes, store, kinds)
    ensures r.Some? ==>
              forall onto :: DecodeWrites(r.value, kinds, onto) == Some(Overwritten(writes, store, kinds, onto))
    ensures r.Some? ==>
              && CellSet(order) == writes && Sendable(order, store, kinds)
              && r.value == EncodeWrites(order, store, kinds)
  {
    var s := [];
    order := [];
    var left := writes;
    while left != {}
      invariant left <= writes && CellSet(order) == writes - left
      invariant Sendable(order, store, kinds) && s == EncodeWrites(order, store, kinds)
      decreases left
    {
      var c :| c in left;
      var v := EncodeValue(store[c], kinds[c.typeId]);
      if v.None? {
        return None, order;
      }
      s := s + [Number(c.typeId), Number(c.instance)] + v.value;
      EncodeAppend(order, c, store, kinds);
      SetAppend(order, c);
      order := order + [c];
      left := left - {c};
    }
    assert CellSet(order) == writes;
    assert forall c :: c in writes ==> c in order;
    forall onto ensures DecodeWrites(s, kinds, onto) == Some(Overwritten(writes, store, kinds, onto)) {
      WritesRoundTrip(order, store, kinds, onto);
    }
    r := Some(s);
  }

  /** The masks of every type fit in their integers, so every value of a type arrives. */
  predicate Roomy(kinds: Kinds) {
    forall t :: t in kinds && kinds[t].BitsKind? ==>
      kinds[t].size <= kinds[t].width && kinds[t].size <= kinds[t].converts
  }

  lemma RoomyArrives(kinds: Kinds, t: nat, v: Value)
    requires Roomy(kinds) && t in kinds && Shaped(v, kinds[t])
    ensures Convertible(v, kinds[t]) && Received(v, kinds[t]) == v
  {
    ReceivedIff(v, kinds[t]);
  }

  /** The stream decodes into any store to the writes it was made from. */
  ghost predicate Carries(stream: seq<Token>, own: Store, kinds: Kinds) {
    forall onto :: DecodeWrites(stream, kinds, onto) == Some(onto + own)
  }

  /** With roomy types a stream of writes decodes to the store overlaid with the writes. */
  lemma RoomyStream(order: seq<Cell>, own: Store, kinds: Kinds, onto: Store)
    requires Roomy(kinds) && Sendable(order, own, kinds) && CellSet(order) == own.Keys
    ensures DecodeWrites(EncodeWrites(order, own, kinds), kinds, onto) == Some(onto + own)
  {
    WritesRoundTrip(order, own, kinds, onto);
    forall c | c in own ensures c in order && Received(own[c], kinds[c.typeId]) == own[c] {
      assert c in CellSet(order);
      RoomyArrives(kinds, c.typeId, own[c]);
    }
    assert Overwritten(CellSet(order), own, kinds, onto) == onto + own;
  }

  lemma SetAppend(cells: seq<Cell>, c: Cell)
    ensures CellSet(cells + [c]) == CellSet(cells) + {c}
  {
  }

  lemma {:induction false} EncodeAppend(cells: seq<Cell>, c: Cell, store: Store, kinds: Kinds)
    requires Sendable(cells, store, kinds) && SendableCell(c, store, kinds)
    ensures Sendable(cells + [c], store, kinds)
    ensures EncodeWrites(cells + [c], store, kinds) ==
            EncodeWrites(cells, store, kinds) + [Number(c.typeId), Number(c.instance)]
              + Packed(store[c], kinds[c.typeId])
  {
    if cells == [] {
      assert cells + [c] == [c];
      assert [c][1..] == [];
    } else {
      assert (cells + [c])[1..] == cells[1..] + [c];
      EncodeAppend(cells[1..], c, store, kinds);
    }
  }

  /** The generated decodeWriteRequest: a loop over the decoder; false is its throw. */
  method DecodeWriteRequest(stream: seq<Token>, kinds: Kinds, store: Store) returns (ok: bool, now: Store)
    ensures ok <==> DecodeWrites(stream, kinds, store).Some?
    ensures ok ==> DecodeWrites(stream, kinds, store) == Some(now)
  {
    var s := stream;
    now := store;
    while s != []
      invariant DecodeWrites(stream, kinds, store) == DecodeWrites(s, kinds, now)
      decreases |s|
    {
      if |s| < 2 || !s[0].Number? || s[0].n < 0 || !s[1].Number? || s[1].n < 0 || s[0].n !in kinds {
        return false, now;
      }
      var r := DecodeValue(kinds[s[0].n], s[2..]);
      if r.None? {
        return false, now;
      }
      now := now[Cell(s[0].n, s[1].n) := r.value.0];
      s := r.value.1;
    }
    return true, now;
  }
}
