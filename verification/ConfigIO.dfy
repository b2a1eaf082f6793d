/**
 Config save and load (src/generators/configio_generator.cpp:192-455, 554-579): the identifier codec, the
 flat index of a nested instance, and what the generated save and load code does with an object's constants.
 */
module ConfigIO {
  import opened Prelude
  import opened Arithmetic
  import opened ConfigTree

  // ---- The identifier codec ----

  const DIGITS := "0123456789"

  function Digit(n: nat): (c: char)
    requires n < 10
    ensures IsDigit(c) && ValueOf(c) == n && c == DIGITS[n]
  {
    '0' + n as char
  }

  predicate IsDigit(c: char) {
    '0' <= c <= '9'
  }

  function ValueOf(c: char): nat
    requires IsDigit(c)
  {
    (c - '0') as nat
  }

  predicate AllDigits(s: string) {
    forall i :: 0 <= i < |s| ==> IsDigit(s[i])
  }

  function Decimal(n: nat): (s: string)
    ensures s != "" && AllDigits(s)
  {
    if n < 10 then [Digit(n)] else Decimal(n / 10) + [Digit(n % 10)]
  }

  function Zeros(n: nat): (s: string)
    ensures |s| == n && AllDigits(s)
  {
    if n == 0 then "" else "0" + Zeros(n - 1)
  }

  /** setw( 4 ) and setfill( '0' ): longer numbers are not cut. */
  function Padded(n: nat): (s: string)
    ensures |s| >= 4 && AllDigits(s)
  {
    var d := Decimal(n);
    if |d| < 4 then Zeros(4 - |d|) + d else d
  }

  function MakeIdentifier(name: string, index: nat): string {
    name + "_" + Padded(index)
  }

  /** stoi. */
  function Number(s: string): nat
    requires AllDigits(s)
  {
    if s == "" then 0 else Number(s[..|s| - 1]) * 10 + ValueOf(s[|s| - 1])
  }

  function ParseIdentifier(s: string): Option<(string, nat)> {
    if |s| > 5 && s[|s| - 5] == '_' && AllDigits(s[|s| - 4..]) then Some((s[..|s| - 5], Number(s[|s| - 4..])))
    else None
  }

  lemma {:induction false} DecimalLength(n: nat)
    ensures |Decimal(n)| <= 4 <==> n <= 9999
    ensures |Decimal(n)| <= 3 <==> n <= 999
    ensures |Decimal(n)| <= 2 <==> n <= 99
    ensures |Decimal(n)| <= 1 <==> n <= 9
  {
    if n >= 10 {
      DecimalLength(n / 10);
    }
  }

  lemma {:induction false} NumberOfDecimal(n: nat)
    ensures Number(Decimal(n)) == n
  {
    if n < 10 {
      assert Decimal(n)[..0] == "";
    } else {
      NumberOfDecimal(n / 10);
      assert Decimal(n)[..|Decimal(n)| - 1] == Decimal(n / 10);
    }
  }

  lemma {:induction false} NumberOfZeros(k: nat, d: string)
    requires AllDigits(d)
    ensures Number(Zeros(k) + d) == Number(d)
    decreases k + |d|
  {
    var s := Zeros(k) + d;
    if d == "" {
      assert s == Zeros(k);
      if k > 0 {
        ZerosEnd(k);
        assert s[..|s| - 1] == Zeros(k - 1) + "";
        NumberOfZeros(k - 1, "");
      }
    } else {
      assert s[..|s| - 1] == Zeros(k) + d[..|d| - 1];
      NumberOfZeros(k, d[..|d| - 1]);
    }
  }

  lemma {:induction false} ZerosEnd(k: nat)
    requires k > 0
    ensures Zeros(k) == Zeros(k - 1) + "0"
  {
    if k > 1 {
      ZerosEnd(k - 1);
    }
  }

  lemma PaddedIs(n: nat)
    ensures |Padded(n)| == 4 <==> n <= 9999
    ensures Number(Padded(n)) == n
  {
    DecimalLength(n);
    NumberOfDecimal(n);
    if |Decimal(n)| < 4 {
      NumberOfZeros(4 - |Decimal(n)|, Decimal(n));
    }
  }

  /** Parsing inverts making exactly for non-empty names and indices of at most four digits; all other made
      identifiers are refused. */
  lemma ParseInvertsMake(name: string, index: nat)
    ensures ParseIdentifier(MakeIdentifier(name, index)) ==
            if name != "" && index <= 9999 then Some((name, index)) else None
  {
    var p := Padded(index);
    var s := MakeIdentifier(name, index);
    PaddedIs(index);
    if index <= 9999 {
      assert s[|s| - 4..] == p;
      assert s[|s| - 5] == '_' && s[..|s| - 5] == name;
    } else {
      assert s[|s| - 5] == p[|p| - 5];
    }
  }

  /** Whatever parses is exactly what making it again would give. */
  lemma MakeInvertsParse(s: string)
    requires ParseIdentifier(s).Some?
    ensures var (name, index) := ParseIdentifier(s).value;
            name != "" && index <= 9999 && MakeIdentifier(name, index) == s
  {
    var d := s[|s| - 4..];
    FourDigits(d);
    assert s == s[..|s| - 5] + "_" + d;
  }

  /** The decimal digits of a four-digit number. */
  ghost predicate Spells(d: string, p: seq<nat>) {
    |d| == 4 && |p| == 4 && forall k :: 0 <= k < 4 ==> p[k] < 10 && d[k] == "0123456789"[p[k]]
  }

  lemma CharacterIs(c: char, n: nat)
    requires n < 10 && c == "0123456789"[n]
    ensures IsDigit(c) && ValueOf(c) == n
  {
    assert "0123456789"[n] == Digit(n);
  }

  lemma NumberSpelled(d: string, p: seq<nat>)
    requires Spells(d, p)
    ensures AllDigits(d) && Number(d) == 1000 * p[0] + 100 * p[1] + 10 * p[2] + p[3]
  {
    forall k | 0 <= k < 4 ensures IsDigit(d[k]) && ValueOf(d[k]) == p[k] {
      CharacterIs(d[k], p[k]);
    }
    assert d[..3][..2] == d[..2] && d[..2][..1] == d[..1] && d[..1][..0] == "";
    assert Number(d[..1]) == p[0];
    assert Number(d[..2]) == 10 * p[0] + p[1];
    assert Number(d[..3]) == 100 * p[0] + 10 * p[1] + p[2];
  }

  /** A name and four decimal digits are read as that name and that number, and are how the number is written. */
  lemma IdentifierIs(name: string, d: string, p: seq<nat>)
    requires name != "" && Spells(d, p)
    ensures ParseIdentifier(name + "_" + d) == Some((name, 1000 * p[0] + 100 * p[1] + 10 * p[2] + p[3]))
    ensures MakeIdentifier(name, 1000 * p[0] + 100 * p[1] + 10 * p[2] + p[3]) == name + "_" + d
  {
    var s := name + "_" + d;
    NumberSpelled(d, p);
    FourDigits(d);
    assert s[|s| - 4..] == d && s[..|s| - 5] == name && s[|s| - 5] == '_';
  }

  /** Anything else is refused: the last five characters decide. */
  lemma RefusedIff(s: string)
    ensures ParseIdentifier(s).Some? <==>
            && |s| > 5 && s[|s| - 5] == '_'
            && forall k :: |s| - 4 <= k < |s| ==> exists n: nat :: n < 10 && s[k] == DIGITS[n]
  {
    if |s| > 5 {
      var d := s[|s| - 4..];
      forall k | |s| - 4 <= k < |s| ensures IsDigit(s[k]) <==> exists n: nat :: n < 10 && s[k] == DIGITS[n] {
        if IsDigit(s[k]) {
          assert s[k] == Digit(ValueOf(s[k]));
        } else if n: nat :| n < 10 && s[k] == DIGITS[n] {
          CharacterIs(s[k], n);
        }
        assert s[k] == d[k - (|s| - 4)];
      }
      assert AllDigits(d) <==> forall k :: |s| - 4 <= k < |s| ==> IsDigit(s[k]);
    }
  }

  /** From four digits on, another one is put at the end; they are never cut. */
  lemma LongIdentifierIs(name: string, n: nat, last: nat)
    requires n >= 1000 && last < 10
    ensures MakeIdentifier(name, 10 * n + last) == MakeIdentifier(name, n) + ["0123456789"[last]]
  {
    DecimalLength(n);
    DecimalLength(10 * n + last);
    assert (10 * n + last) / 10 == n && (10 * n + last) % 10 == last;
  }

  /** Identifiers of one name are ordered as their indices are, character by character. */
  lemma IdentifiersInOrder(name: string, m: nat, n: nat)
    requires m < n <= 9999
    ensures var s, r := MakeIdentifier(name, m), MakeIdentifier(name, n);
            |s| == |r| && exists k :: 0 <= k < |s| && s[..k] == r[..k] && s[k] < r[k]
  {
    var s, r := MakeIdentifier(name, m), MakeIdentifier(name, n);
    var d, e := Padded(m), Padded(n);
    PaddedIs(m);
    PaddedIs(n);
    var x := SmallerFirst(d, e);
    var k := |name| + 1 + x;
    assert s[..k] == name + "_" + d[..x] && r[..k] == name + "_" + e[..x];
    assert s[k] == d[x] && r[k] == e[x];
  }

  lemma {:induction false} SmallerFirst(s: string, r: string) returns (k: nat)
    requires AllDigits(s) && AllDigits(r) && |s| == |r| && Number(s) < Number(r)
    ensures k < |s| && s[..k] == r[..k] && s[k] < r[k]
  {
    var n := |s| - 1;
    if Number(s[..n]) < Number(r[..n]) {
      k := SmallerFirst(s[..n], r[..n]);
      assert s[..k] == s[..n][..k] && r[..k] == r[..n][..k];
    } else {
      assert ValueOf(s[n]) <= 9 && ValueOf(r[n]) <= 9;
      SameNumber(s[..n], r[..n]);
      k := n;
    }
  }

  lemma {:induction false} NumberBelow(s: string)
    requires AllDigits(s)
    ensures |s| == 0 ==> Number(s) == 0
    ensures |s| <= 1 ==> Number(s) <= 9
    ensures |s| <= 2 ==> Number(s) <= 99
    ensures |s| <= 3 ==> Number(s) <= 999
    ensures |s| <= 4 ==> Number(s) <= 9999
  {
    if s != "" {
      NumberBelow(s[..|s| - 1]);
    }
  }

  lemma FourDigits(d: string)
    requires |d| == 4 && AllDigits(d)
    ensures Number(d) <= 9999 && Padded(Number(d)) == d
  {
    NumberBelow(d);
    var n := Number(d);
    PaddedIs(n);
    SameNumber(Padded(n), d);
  }

  /** Digit strings of one length are determined by their number. */
  lemma {:induction false} SameNumber(s: string, r: string)
    requires AllDigits(s) && AllDigits(r) && |s| == |r| && Number(s) == Number(r)
    ensures s == r
  {
    if s != "" {
      var n := |s| - 1;
      SameNumber(s[..n], r[..n]);
      assert s == s[..n] + [s[n]] && r == r[..n] + [r[n]];
      assert ValueOf(s[n]) == ValueOf(r[n]) ==> s[n] == r[n];
    }
  }

  // ---- The flat index of a nested instance ----

  /** The flat index of instance `index` of an action with that domain size, below the instance `outer`. */
  function Below(outer: nat, domain: nat, index: nat): nat {
    outer * domain + index
  }

  /** Mixed radix: doms[0] is the outermost domain size. */
  function Flat(idx: seq<nat>, doms: seq<nat>): nat
    requires |idx| == |doms|
  {
    if idx == [] then 0 else Below(Flat(idx[..|idx| - 1], doms[..|doms| - 1]), doms[|doms| - 1], idx[|idx| - 1])
  }

  function Product(doms: seq<nat>): nat {
    if doms == [] then 1 else Product(doms[..|doms| - 1]) * doms[|doms| - 1]
  }

  predicate InRange(idx: seq<nat>, doms: seq<nat>) {
    |idx| == |doms| && forall k :: 0 <= k < |idx| ==> idx[k] < doms[k]
  }

  /** The expression computeIndexString prints, from the innermost action outwards to the object's own. */
  method ComputeIndex(idx: seq<nat>, doms: seq<nat>) returns (flat: nat)
    requires |idx| == |doms| > 0
    ensures flat == Flat(idx, doms)
  {
    var node := |idx| - 1;
    flat := idx[node];
    var factor: nat := doms[node];
    while node != 0
      invariant 0 <= node < |idx|
      invariant flat + factor * Flat(idx[..node], doms[..node]) == Flat(idx, doms)
      decreases node
    {
      FlatStep(idx, doms, node, factor);
      node := node - 1;
      flat := flat + idx[node] * factor;
      factor := factor * doms[node];
    }
  }

  lemma FlatStep(idx: seq<nat>, doms: seq<nat>, node: nat, factor: nat)
    requires |idx| == |doms| && 0 < node < |idx|
    ensures factor * Flat(idx[..node], doms[..node]) ==
            idx[node - 1] * factor + (factor * doms[node - 1]) * Flat(idx[..node - 1], doms[..node - 1])
  {
    assert idx[..node][..node - 1] == idx[..node - 1] && doms[..node][..node - 1] == doms[..node - 1];
    var f, d := Flat(idx[..node - 1], doms[..node - 1]), doms[node - 1];
    assert factor * (f * d + idx[node - 1]) == factor * (f * d) + factor * idx[node - 1];
    assert factor * (f * d) == (factor * d) * f;
  }

  /** In range, flat indices stay below the product of the domain sizes. */
  lemma {:induction false} FlatBelow(idx: seq<nat>, doms: seq<nat>)
    requires InRange(idx, doms)
    ensures Flat(idx, doms) < Product(doms)
  {
    if idx != [] {
      var n := |idx| - 1;
      FlatBelow(idx[..n], doms[..n]);
      var f, p, d := Flat(idx[..n], doms[..n]), Product(doms[..n]), doms[n];
      MulGrows(p, f, d);
    }
  }

  /** Different index tuples have different flat indices. */
  lemma {:induction false} FlatInjective(idx: seq<nat>, other: seq<nat>, doms: seq<nat>)
    requires InRange(idx, doms) && InRange(other, doms) && Flat(idx, doms) == Flat(other, doms)
    ensures idx == other
  {
    if idx != [] {
      var n := |idx| - 1;
      QuotientUnique(doms[n], Flat(idx[..n], doms[..n]), idx[n], Flat(other[..n], doms[..n]), other[n]);
      FlatInjective(idx[..n], other[..n], doms[..n]);
      assert idx == idx[..n] + [idx[n]] && other == other[..n] + [other[n]];
    }
  }

  /** The instance of the enclosing action, and the index in it, are the quotient and the remainder. */
  lemma EnclosingInstance(idx: seq<nat>, doms: seq<nat>)
    requires InRange(idx, doms) && idx != []
    ensures var n := |idx| - 1;
            && Flat(idx, doms) % doms[n] == idx[n]
            && Flat(idx, doms) / doms[n] == if n == 0 then 0 else Flat(idx[..n], doms[..n])
  {
    var n := |idx| - 1;
    var outer := Flat(idx[..n], doms[..n]);
    assert Flat(idx, doms) == outer * doms[n] + idx[n];
    QuotientUnique(doms[n], Flat(idx, doms) / doms[n], Flat(idx, doms) % doms[n], outer, idx[n]);
  }

  lemma FlatAppend(outer: seq<nat>, r: nat, doms: seq<nat>)
    requires |doms| == |outer| + 1
    ensures Flat(outer + [r], doms) == Below(Flat(outer, doms[..|outer|]), doms[|outer|], r)
  {
    assert (outer + [r])[..|outer|] == outer;
  }

  /** Every number below the product is the flat index of some tuple. */
  lemma {:induction false} FlatSurjective(flat: nat, doms: seq<nat>) returns (idx: seq<nat>)
    requires flat < Product(doms)
    ensures InRange(idx, doms) && Flat(idx, doms) == flat
  {
    if doms == [] {
      idx := [];
    } else {
      hide Flat;
      var n := |doms| - 1;
      var q, r := Divide(flat, doms[n], Product(doms[..n]));
      var outer := FlatSurjective(q, doms[..n]);
      idx := outer + [r];
      FlatAppend(outer, r, doms);
    }
  }

  // ---- Saving and loading one object tree ----

  type Tree = ConstTree

  /** A node of a config file; constants carry a value. */
  datatype Node = Node(identifier: string, value: Option<Value>, children: seq<Node>)

  /** The running program: which (action, flat index) instances are active, and the constants' values. */
  datatype Program = Program(active: set<Cell>, values: Store) {
    function Read(c: Cell): Value {
      if c in values then values[c] else Plain(0)
    }
  }

  function SaveConstants(cs: seq<Const>, flat: nat, p: Program): seq<Node> {
    if cs == [] then []
    else [Node(MakeIdentifier(cs[0].name, 0), Some(p.Read(Cell(cs[0].id, flat))), [])] + SaveConstants(cs[1..], flat, p)
  }

  /** The generated loop over the instances i, i + 1, ... of a tree below the instance with flat index `outer`. */
  function SaveFrom(t: Tree, outer: nat, i: nat, p: Program): seq<Node>
    decreases t, if i < t.domain then t.domain - i else 0
  {
    if i >= t.domain then []
    else
      var flat := Below(outer, t.domain, i);
      (if Cell(t.id, flat) in p.active then
         [Node(MakeIdentifier(t.name, i), None,
           SaveConstants(t.constants, flat, p) + SaveChildren(t.children, flat, p))]
       else [])
      + SaveFrom(t, outer, i + 1, p)
  }

  function SaveChildren(ts: seq<Tree>, outer: nat, p: Program): seq<Node>
    decreases ts
  {
    if ts == [] then [] else SaveFrom(ts[0], outer, 0, p) + SaveChildren(ts[1..], outer, p)
  }

  /** What loading has done so far; `errors` counts the nodes that were logged and skipped. */
  datatype Loaded = Loaded(values: Store, errors: nat)

  /** The index of the first of the names that matches, or their number. */
  function FindName(names: seq<string>, name: string): (k: nat)
    ensures k <= |names| && (k < |names| ==> names[k] == name)
    ensures forall j :: 0 <= j < k ==> names[j] != name
  {
    if names == [] || names[0] == name then 0 else 1 + FindName(names[1..], name)
  }

  function ConstNames(cs: seq<Const>): (names: seq<string>)
    ensures |names| == |cs| && forall i :: 0 <= i < |cs| ==> names[i] == cs[i].name
  {
    seq(|cs|, i requires 0 <= i < |cs| => cs[i].name)
  }

  function TreeNames(ts: seq<Tree>): (names: seq<string>)
    ensures |names| == |ts| && forall i :: 0 <= i < |ts| ==> names[i] == ts[i].name
  {
    seq(|ts|, i requires 0 <= i < |ts| => ts[i].name)
  }

  /** The generated chain of comparisons for one node below the instance with flat index `outer`. */
  function LoadNode(cs: seq<Const>, ts: seq<Tree>, n: Node, outer: nat, l: Loaded): Loaded
    decreases n
  {
    match ParseIdentifier(n.identifier)
    case None => l.(errors := l.errors + 1)
    case Some((name, index)) =>
      var c, k := FindName(ConstNames(cs), name), FindName(TreeNames(ts), name);
      if c < |cs| then
        if n.value.Some? then l.(values := l.values[Cell(cs[c].id, outer) := n.value.value])
          else l.(errors := l.errors + 1)
      else if k < |ts| then
        LoadNodes(ts[k].constants, ts[k].children, n.children, Below(outer, ts[k].domain, index), l)
      else l.(errors := l.errors + 1)
  }

  function LoadNodes(cs: seq<Const>, ts: seq<Tree>, ns: seq<Node>, outer: nat, l: Loaded): Loaded
    decreases ns
  {
    if ns == [] then l else LoadNodes(cs, ts, ns[1..], outer, LoadNode(cs, ts, ns[0], outer, l))
  }

  /** config_io_save and config_io_load for one object. */
  function Save(t: Tree, p: Program): seq<Node> {
    SaveFrom(t, 0, 0, p)
  }

  function Load(t: Tree, file: seq<Node>, values: Store): Loaded {
    LoadNodes([], [t], file, 0, Loaded(values, 0))
  }

  // ---- What must come back ----

  /** Names that the load code can tell apart. */
  predicate Named(cs: seq<Const>, ts: seq<Tree>)
    decreases ts
  {
    && (forall i :: 0 <= i < |cs| ==> cs[i].name != "")
    && (forall i :: 0 <= i < |ts| ==> ts[i].name != "" && Named(ts[i].constants, ts[i].children))
    && (forall i, j :: 0 <= i < j < |cs| ==> cs[i].name != cs[j].name)
    && (forall i, j :: 0 <= i < j < |ts| ==> ts[i].name != ts[j].name)
    && (forall i, j :: 0 <= i < |cs| && 0 <= j < |ts| ==> cs[i].name != ts[j].name)
  }

  /** The i-th instance is saved under the instance `outer`, and its index fits in four digits. */
  predicate Kept(t: Tree, outer: nat, i: nat, p: Program) {
    i < t.domain && i <= 9999 && Cell(t.id, Below(outer, t.domain, i)) in p.active
  }

  predicate OwnConstant(t: Tree, flat: nat, c: Cell) {
    c.instance == flat && exists k :: 0 <= k < |t.constants| && t.constants[k].id == c.typeId
  }

  /** The constant cell belongs to an active instance whose enclosing instances are active too. */
  ghost predicate Saved(ts: seq<Tree>, outer: nat, p: Program, c: Cell)
    decreases ts
  {
    exists k, i: nat :: 0 <= k < |ts| && SavedAt(ts[k], outer, i, p, c)
  }

  ghost predicate SavedAt(t: Tree, outer: nat, i: nat, p: Program, c: Cell)
    decreases t
  {
    && Kept(t, outer, i, p)
    && var flat := Below(outer, t.domain, i);
       OwnConstant(t, flat, c) || Saved(t.children, flat, p, c)
  }

  /** Some active instance, its enclosing ones active too, has an index of five digits or more. */
  ghost predicate TooLong(ts: seq<Tree>, outer: nat, p: Program)
    decreases ts
  {
    exists k, i: nat :: 0 <= k < |ts| && TooLongAt(ts[k], outer, i, p)
  }

  ghost predicate TooLongAt(t: Tree, outer: nat, i: nat, p: Program)
    decreases t
  {
    && i < t.domain && Cell(t.id, Below(outer, t.domain, i)) in p.active
    && (i > 9999 || TooLong(t.children, Below(outer, t.domain, i), p))
  }

  // ---- The round trip ----

  function ValueAt(l: Loaded, c: Cell): Option<Value> {
    if c in l.values then Some(l.values[c]) else None
  }

  /** From one state of loading to another exactly one cell set `c in S` was restored. */
  ghost predicate Restores(l: Loaded, r: Loaded, p: Program, c: Cell, saved: bool, failed: bool) {
    && ValueAt(r, c) == (if saved then Some(p.Read(c)) else ValueAt(l, c))
    && r.errors >= l.errors
    && (r.errors == l.errors <==> !failed)
  }

  lemma {:induction false} LoadAppend(cs: seq<Const>, ts: seq<Tree>, a: seq<Node>, b: seq<Node>, outer: nat, l: Loaded)
    ensures LoadNodes(cs, ts, a + b, outer, l) == LoadNodes(cs, ts, b, outer, LoadNodes(cs, ts, a, outer, l))
    decreases |a|
  {
    if a == [] {
      assert a + b == b;
    } else {
      assert (a + b)[1..] == a[1..] + b;
      LoadAppend(cs, ts, a[1..], b, outer, LoadNode(cs, ts, a[0], outer, l));
    }
  }

  lemma {:induction false} ConstantsReturn(cs: seq<Const>, ts: seq<Tree>, k: nat, flat: nat, p: Program, l: Loaded,
          c: Cell)
    requires Named(cs, ts) && k <= |cs|
    ensures var r := LoadNodes(cs, ts, SaveConstants(cs[k..], flat, p), flat, l);
            Restores(l, r, p, c, c.instance == flat && exists j :: k <= j < |cs| && cs[j].id == c.typeId, false)
    decreases |cs| - k
  {
    if k < |cs| {
      hide LoadNode, MakeIdentifier, Named;
      assert cs[k..][0] == cs[k] && cs[k..][1..] == cs[k + 1..];
      var n := Node(MakeIdentifier(cs[k].name, 0), Some(p.Read(Cell(cs[k].id, flat))), []);
      ConstantLoads(cs, ts, k, 0, flat, n, l);
      assert SaveConstants(cs[k..], flat, p) == [n] + SaveConstants(cs[k + 1..], flat, p);
      ConstantsReturn(cs, ts, k + 1, flat, p, LoadNode(cs, ts, n, flat, l), c);
    }
  }

  /**
   A constant is loaded into the enclosing instance, whatever index stands after its name: the first constant of that
   name, before any nested action of that name.
   */
  lemma ConstantLoads(cs: seq<Const>, ts: seq<Tree>, k: nat, i: nat, flat: nat, n: Node, l: Loaded)
    requires k < |cs| && cs[k].name != "" && forall j :: 0 <= j < k ==> cs[j].name != cs[k].name
    requires n.identifier == MakeIdentifier(cs[k].name, i) && i <= 9999 && n.value.Some?
    ensures LoadNode(cs, ts, n, flat, l) == l.(values := l.values[Cell(cs[k].id, flat) := n.value.value])
  {
    ParseInvertsMake(cs[k].name, i);
    FindIs(ConstNames(cs), k);
  }

  /** A node with any other name, or an identifier that is none, is logged and skipped. */
  lemma NodeFails(cs: seq<Const>, ts: seq<Tree>, n: Node, flat: nat, l: Loaded)
    requires ParseIdentifier(n.identifier).Some? ==>
               var name := ParseIdentifier(n.identifier).value.0;
               && (forall k :: 0 <= k < |cs| ==> cs[k].name != name)
               && (forall k :: 0 <= k < |ts| ==> ts[k].name != name)
    ensures LoadNode(cs, ts, n, flat, l) == l.(errors := l.errors + 1)
  {
  }

  ghost predicate SavedFrom(t: Tree, outer: nat, i: nat, p: Program, c: Cell) {
    exists j: nat :: i <= j && SavedAt(t, outer, j, p, c)
  }

  ghost predicate TooLongFrom(t: Tree, outer: nat, i: nat, p: Program) {
    exists j: nat :: i <= j && TooLongAt(t, outer, j, p)
  }

  /** Loading the saved instances of one nested tree. */
  lemma {:induction false} InstancesReturn(cs: seq<Const>, ts: seq<Tree>, k: nat, outer: nat, i: nat, p: Program,
          l: Loaded, c: Cell)
    requires Named(cs, ts) && k < |ts|
    ensures var r := LoadNodes(cs, ts, SaveFrom(ts[k], outer, i, p), outer, l);
            Restores(l, r, p, c, SavedFrom(ts[k], outer, i, p, c), TooLongFrom(ts[k], outer, i, p))
    decreases ts[k], 2, if i < ts[k].domain then ts[k].domain - i else 0
  {
    var t := ts[k];
    if i < t.domain {
      var flat := Below(outer, t.domain, i);
      var rest := SaveFrom(t, outer, i + 1, p);
      if Cell(t.id, flat) in p.active {
        var n := Node(MakeIdentifier(t.name, i), None,
          SaveConstants(t.constants, flat, p) + SaveChildren(t.children, flat, p));
        assert SaveFrom(t, outer, i, p) == [n] + rest;
        var l1 := LoadNode(cs, ts, n, outer, l);
        InstanceReturns(cs, ts, k, outer, i, p, l, c);
        InstancesReturn(cs, ts, k, outer, i + 1, p, l1, c);
      } else {
        assert SaveFrom(t, outer, i, p) == rest;
        InstancesReturn(cs, ts, k, outer, i + 1, p, l, c);
      }
      FromSplits(t, outer, i, p, c);
    }
  }

  lemma FromSplits(t: Tree, outer: nat, i: nat, p: Program, c: Cell)
    ensures SavedFrom(t, outer, i, p, c) <==> SavedAt(t, outer, i, p, c) || SavedFrom(t, outer, i + 1, p, c)
    ensures TooLongFrom(t, outer, i, p) <==> TooLongAt(t, outer, i, p) || TooLongFrom(t, outer, i + 1, p)
  {
  }

  lemma {:induction false} InstanceReturns(cs: seq<Const>, ts: seq<Tree>, k: nat, outer: nat, i: nat, p: Program,
          l: Loaded, c: Cell)
    requires Named(cs, ts) && k < |ts| && i < ts[k].domain && Cell(ts[k].id, Below(outer, ts[k].domain, i)) in p.active
    ensures var flat := Below(outer, ts[k].domain, i);
            var n := Node(MakeIdentifier(ts[k].name, i), None,
                          SaveConstants(ts[k].constants, flat, p) + SaveChildren(ts[k].children, flat, p));
            Restores(l, LoadNode(cs, ts, n, outer, l), p, c, SavedAt(ts[k], outer, i, p, c),
              TooLongAt(ts[k], outer, i, p))
    decreases ts[k], 1
  {
    var t := ts[k];
    var flat := Below(outer, t.domain, i);
    var own, below := SaveConstants(t.constants, flat, p), SaveChildren(t.children, flat, p);
    var n := Node(MakeIdentifier(t.name, i), None, own + below);
    TreeLoads(cs, ts, k, i, outer, n, l, flat);
    hide LoadNode, MakeIdentifier, Saved, TooLong, Named, OwnConstant, SaveConstants, SaveChildren;
    if i <= 9999 {
      BodyReturns(t, flat, p, l, c);
    }
  }

  /** Loading what was saved of one instance. */
  lemma {:induction false} BodyReturns(t: Tree, flat: nat, p: Program, l: Loaded, c: Cell)
    requires Named(t.constants, t.children)
    ensures var nodes := SaveConstants(t.constants, flat, p) + SaveChildren(t.children, flat, p);
            Restores(l, LoadNodes(t.constants, t.children, nodes, flat, l), p, c,
                     OwnConstant(t, flat, c) || Saved(t.children, flat, p, c), TooLong(t.children, flat, p))
    decreases t, 0
  {
    hide LoadNodes, Saved, TooLong, Named, OwnConstant, SaveConstants, SaveChildren;
    var own, below := SaveConstants(t.constants, flat, p), SaveChildren(t.children, flat, p);
    assert t.constants[0..] == t.constants && t.children[0..] == t.children;
    ConstantsReturn(t.constants, t.children, 0, flat, p, l, c);
    var l1 := LoadNodes(t.constants, t.children, own, flat, l);
    ChildrenReturn(t.constants, t.children, 0, flat, p, l1, c);
    AllOfThem(t.children, flat, p, c);
    LoadAppend(t.constants, t.children, own, below, flat, l);
    OwnIs(t, flat, c);
  }

  lemma OwnIs(t: Tree, flat: nat, c: Cell)
    ensures OwnConstant(t, flat, c) <==>
            c.instance == flat && exists j :: 0 <= j < |t.constants| && t.constants[j].id == c.typeId
  {
  }

  /**
   An instance of the first nested action of that name is loaded at its index below the enclosing instance, unless the
   index has too many digits.
   */
  lemma TreeLoads(cs: seq<Const>, ts: seq<Tree>, k: nat, i: nat, outer: nat, n: Node, l: Loaded, flat: nat)
    requires k < |ts| && ts[k].name != "" && forall j :: 0 <= j < k ==> ts[j].name != ts[k].name
    requires forall j :: 0 <= j < |cs| ==> cs[j].name != ts[k].name
    requires n.identifier == MakeIdentifier(ts[k].name, i) && flat == outer * ts[k].domain + i
    ensures LoadNode(cs, ts, n, outer, l) ==
            if i <= 9999 then LoadNodes(ts[k].constants, ts[k].children, n.children, flat, l)
            else l.(errors := l.errors + 1)
  {
    ParseInvertsMake(ts[k].name, i);
    FindIs(TreeNames(ts), k);
  }

  lemma FindIs(names: seq<string>, k: nat)
    requires k < |names| && forall j :: 0 <= j < k ==> names[j] != names[k]
    ensures FindName(names, names[k]) == k
  {
    var f := FindName(names, names[k]);
    assert f <= k;
  }

  ghost predicate SavedIn(ts: seq<Tree>, k: nat, outer: nat, p: Program, c: Cell) {
    exists j, i: nat :: k <= j < |ts| && SavedAt(ts[j], outer, i, p, c)
  }

  ghost predicate TooLongIn(ts: seq<Tree>, k: nat, outer: nat, p: Program) {
    exists j, i: nat :: k <= j < |ts| && TooLongAt(ts[j], outer, i, p)
  }

  lemma InSplits(ts: seq<Tree>, k: nat, outer: nat, p: Program, c: Cell)
    requires k < |ts|
    ensures SavedIn(ts, k, outer, p, c) <==> SavedFrom(ts[k], outer, 0, p, c) || SavedIn(ts, k + 1, outer, p, c)
    ensures TooLongIn(ts, k, outer, p) <==> TooLongFrom(ts[k], outer, 0, p) || TooLongIn(ts, k + 1, outer, p)
  {
  }

  lemma AllOfThem(ts: seq<Tree>, outer: nat, p: Program, c: Cell)
    ensures SavedIn(ts, 0, outer, p, c) <==> Saved(ts, outer, p, c)
    ensures TooLongIn(ts, 0, outer, p) <==> TooLong(ts, outer, p)
  {
  }

  lemma {:induction false} ChildrenReturn(cs: seq<Const>, ts: seq<Tree>, k: nat, outer: nat, p: Program, l: Loaded,
                                          c: Cell)
    requires Named(cs, ts) && k <= |ts|
    ensures var r := LoadNodes(cs, ts, SaveChildren(ts[k..], outer, p), outer, l);
            Restores(l, r, p, c, SavedIn(ts, k, outer, p, c), TooLongIn(ts, k, outer, p))
    decreases ts, |ts| - k
  {
    if k < |ts| {
      assert ts[k..][0] == ts[k] && ts[k..][1..] == ts[k + 1..];
      var first, rest := SaveFrom(ts[k], outer, 0, p), SaveChildren(ts[k + 1..], outer, p);
      InstancesReturn(cs, ts, k, outer, 0, p, l, c);
      var l1 := LoadNodes(cs, ts, first, outer, l);
      ChildrenReturn(cs, ts, k + 1, outer, p, l1, c);
      LoadAppend(cs, ts, first, rest, outer, l);
      InSplits(ts, k, outer, p, c);
    }
  }

  /**
   Loading what was saved restores every constant of every saved instance at its own flat index and changes
   nothing else; it logs no error exactly when every active instance's index has at most four digits.
   */
  lemma SaveLoadRoundTrip(t: Tree, p: Program, onto: Store, c: Cell)
    requires Named([], [t])
    ensures ValueAt(Load(t, Save(t, p), onto), c) ==
            if Saved([t], 0, p, c) then Some(p.Read(c)) else if c in onto then Some(onto[c]) else None
    ensures Load(t, Save(t, p), onto).errors == 0 <==> !TooLong([t], 0, p)
  {
    assert [t][0..] == [t] && [t][1..] == [];
    assert SaveChildren([t], 0, p) == Save(t, p) + [] == Save(t, p);
    AllOfThem([t], 0, p, c);
    ChildrenReturn([], [t], 0, 0, p, Loaded(onto, 0), c);
  }

  // ---- What is written ----

  /** One node for each active instance, in the order of the indices. */
  ghost predicate Written(t: Tree, outer: nat, nodes: seq<Node>, p: Program)
    decreases t, 2
  {
    exists at: seq<nat> :: ActiveAt(t, outer * t.domain, 0, at, p) && NodesAt(t, outer * t.domain, at, nodes, p)
  }

  /** The indices, from a first one on, of the active instances below an enclosing one. */
  ghost predicate ActiveAt(t: Tree, base: nat, first: nat, at: seq<nat>, p: Program) {
    && (forall x, y :: 0 <= x < y < |at| ==> at[x] < at[y])
    && (forall x :: 0 <= x < |at| ==> first <= at[x] < t.domain && Cell(t.id, base + at[x]) in p.active)
    && (forall i :: first <= i < t.domain && Cell(t.id, base + i) in p.active ==> i in at)
  }

  ghost predicate NodesAt(t: Tree, base: nat, at: seq<nat>, nodes: seq<Node>, p: Program)
    decreases t, 1
  {
    |nodes| == |at| && forall x :: 0 <= x < |at| ==> WrittenAt(t, base + at[x], at[x], nodes[x], p)
  }

  /** Its constants in order, each under its name and 0000, then the nested actions' instances. */
  ghost predicate WrittenAt(t: Tree, flat: nat, i: nat, n: Node, p: Program)
    decreases t, 0
  {
    && n.identifier == MakeIdentifier(t.name, i) && n.value == None && |n.children| >= |t.constants|
    && (forall j :: 0 <= j < |t.constants| ==>
          var c := Cell(t.constants[j].id, flat);
          var value := if c in p.values then p.values[c] else Plain(0);
          n.children[j] == Node(t.constants[j].name + "_0000", Some(value), []))
    && WrittenBelow(t.children, flat, n.children[|t.constants|..], p)
  }

  ghost predicate WrittenBelow(ts: seq<Tree>, flat: nat, nodes: seq<Node>, p: Program)
    decreases ts
  {
    if ts == [] then nodes == []
    else exists k :: 0 <= k <= |nodes| && Written(ts[0], flat, nodes[..k], p)
                     && WrittenBelow(ts[1..], flat, nodes[k..], p)
  }

  /** The file of an object holds exactly that. */
  lemma SaveWrites(t: Tree, p: Program)
    ensures Written(t, 0, Save(t, p), p)
  {
    InstancesWritten(t, 0, p);
  }

  lemma {:induction false} InstancesWritten(t: Tree, outer: nat, p: Program)
    ensures Written(t, outer, SaveFrom(t, outer, 0, p), p)
    decreases t, 1, 0
  {
    var at := InstancesFrom(t, outer, 0, p);
  }

  lemma {:induction false} InstancesFrom(t: Tree, outer: nat, i: nat, p: Program) returns (at: seq<nat>)
    ensures ActiveAt(t, outer * t.domain, i, at, p) && NodesAt(t, outer * t.domain, at, SaveFrom(t, outer, i, p), p)
    decreases t, 0, if i < t.domain then t.domain - i else 0
  {
    hide WrittenAt, MakeIdentifier, SaveConstants, SaveChildren, ActiveAt, NodesAt;
    at := [];
    if i >= t.domain {
      NothingWritten(t, outer * t.domain, i, p);
      assert SaveFrom(t, outer, i, p) == [];
    } else {
      var flat := outer * t.domain + i;
      var rest := InstancesFrom(t, outer, i + 1, p);
      ActiveFrom(t, outer * t.domain, i, rest, p);
      if Cell(t.id, flat) in p.active {
        at := [i] + rest;
        BodyWritten(t, flat, i, p);
        var n := Node(MakeIdentifier(t.name, i), None,
          SaveConstants(t.constants, flat, p) + SaveChildren(t.children, flat, p));
        NodesFrom(t, outer * t.domain, i, rest, n, SaveFrom(t, outer, i + 1, p), p);
        assert SaveFrom(t, outer, i, p) == [n] + SaveFrom(t, outer, i + 1, p);
      } else {
        at := rest;
        assert SaveFrom(t, outer, i, p) == [] + SaveFrom(t, outer, i + 1, p) == SaveFrom(t, outer, i + 1, p);
      }
    }
  }

  lemma NothingWritten(t: Tree, base: nat, i: nat, p: Program)
    requires i >= t.domain
    ensures ActiveAt(t, base, i, [], p) && NodesAt(t, base, [], [], p)
  {
  }

  lemma ActiveFrom(t: Tree, base: nat, i: nat, rest: seq<nat>, p: Program)
    requires i < t.domain && ActiveAt(t, base, i + 1, rest, p)
    ensures ActiveAt(t, base, i, if Cell(t.id, base + i) in p.active then [i] + rest else rest, p)
  {
    var at := if Cell(t.id, base + i) in p.active then [i] + rest else rest;
    forall k | i <= k < t.domain && Cell(t.id, base + k) in p.active ensures k in at {
      assert k == i ==> at[0] == i;
    }
  }

  lemma NodesFrom(t: Tree, base: nat, i: nat, rest: seq<nat>, n: Node, nodes: seq<Node>, p: Program)
    requires WrittenAt(t, base + i, i, n, p) && NodesAt(t, base, rest, nodes, p)
    ensures NodesAt(t, base, [i] + rest, [n] + nodes, p)
  {
    hide WrittenAt;
  }

  lemma {:induction false} BodyWritten(t: Tree, flat: nat, i: nat, p: Program)
    ensures WrittenAt(t, flat, i, Node(MakeIdentifier(t.name, i), None,
              SaveConstants(t.constants, flat, p) + SaveChildren(t.children, flat, p)), p)
    decreases t, -1, 0
  {
    hide MakeIdentifier;
    var own, below := SaveConstants(t.constants, flat, p), SaveChildren(t.children, flat, p);
    ConstantsWritten(t.constants, flat, p);
    ChildrenWritten(t.children, flat, p);
    assert (own + below)[|own|..] == below;
  }

  lemma {:induction false} ConstantsWritten(cs: seq<Const>, flat: nat, p: Program)
    ensures |SaveConstants(cs, flat, p)| == |cs|
    ensures forall j :: 0 <= j < |cs| ==>
              var c := Cell(cs[j].id, flat);
              SaveConstants(cs, flat, p)[j] ==
              Node(cs[j].name + "_0000", Some(if c in p.values then p.values[c] else Plain(0)), [])
  {
    if cs != [] {
      ConstantsWritten(cs[1..], flat, p);
      ZeroIsPadded();
    }
  }

  lemma ZeroIsPadded()
    ensures Padded(0) == "0000"
  {
    NumberSpelled("0000", [0, 0, 0, 0]);
    FourDigits("0000");
  }

  lemma {:induction false} ChildrenWritten(ts: seq<Tree>, flat: nat, p: Program)
    ensures WrittenBelow(ts, flat, SaveChildren(ts, flat, p), p)
    decreases ts, 2, 0
  {
    if ts != [] {
      hide Written;
      var first, rest := SaveFrom(ts[0], flat, 0, p), SaveChildren(ts[1..], flat, p);
      InstancesWritten(ts[0], flat, p);
      ChildrenWritten(ts[1..], flat, p);
      assert (first + rest)[..|first|] == first && (first + rest)[|first|..] == rest;
    }
  }

  // ---- The instances and their flat indices ----

  function Domains(chain: seq<Tree>): (doms: seq<nat>)
    ensures |doms| == |chain| && forall k :: 0 <= k < |chain| ==> doms[k] == chain[k].domain
  {
    seq(|chain|, k requires 0 <= k < |chain| => chain[k].domain)
  }

  /** The constant belongs to the instance reached by these indices along these nested actions, all of them saved. */
  predicate Via(chain: seq<Tree>, idx: seq<nat>, outer: nat, p: Program, c: Cell)
    decreases |chain|
  {
    && |chain| == |idx| > 0 && Kept(chain[0], outer, idx[0], p)
    && var flat := Below(outer, chain[0].domain, idx[0]);
       if |chain| == 1 then OwnConstant(chain[0], flat, c)
       else chain[1] in chain[0].children && Via(chain[1..], idx[1..], flat, p, c)
  }

  lemma {:induction false} SavedVia(t: Tree, outer: nat, i: nat, p: Program, c: Cell)
    returns (chain: seq<Tree>, idx: seq<nat>)
    requires SavedAt(t, outer, i, p, c)
    ensures Via(chain, idx, outer, p, c) && chain[0] == t && idx[0] == i
    decreases t
  {
    var flat := Below(outer, t.domain, i);
    if OwnConstant(t, flat, c) {
      chain, idx := [t], [i];
    } else {
      AllOfThem(t.children, flat, p, c);
      var k, j: nat :| 0 <= k < |t.children| && SavedAt(t.children[k], flat, j, p, c);
      var rest, more := SavedVia(t.children[k], flat, j, p, c);
      chain, idx := [t] + rest, [i] + more;
      assert chain[1..] == rest && idx[1..] == more;
    }
  }

  lemma {:induction false} ViaSaved(chain: seq<Tree>, idx: seq<nat>, outer: nat, p: Program, c: Cell)
    requires Via(chain, idx, outer, p, c)
    ensures SavedAt(chain[0], outer, idx[0], p, c)
    decreases |chain|
  {
    if |chain| > 1 {
      var flat := Below(outer, chain[0].domain, idx[0]);
      ViaSaved(chain[1..], idx[1..], flat, p, c);
      var k :| 0 <= k < |chain[0].children| && chain[0].children[k] == chain[1];
      assert Saved(chain[0].children, flat, p, c);
    }
  }

  lemma OwnInstance(t: Tree, flat: nat, c: Cell)
    ensures OwnConstant(t, flat, c) ==> c.instance == flat
  {
  }

  lemma InRangeMore(i: nat, idx: seq<nat>, d: nat, doms: seq<nat>)
    ensures |idx| == 0 == |doms| ==> (InRange([i] + idx, [d] + doms) <==> i < d)
    ensures InRange(idx, doms) ==> (InRange([i] + idx, [d] + doms) <==> i < d)
  {
    if i < d && InRange(idx, doms) {
      assert forall k :: 0 < k <= |idx| ==> ([i] + idx)[k] == idx[k - 1] && ([d] + doms)[k] == doms[k - 1];
    } else if InRange([i] + idx, [d] + doms) {
      assert ([i] + idx)[0] == i && ([d] + doms)[0] == d;
    }
  }

  /** The instance a saved constant is read from, and loaded into, is the flat index of the indices on the way. */
  lemma {:induction false} ViaIsFlat(pre: seq<nat>, doms: seq<nat>, chain: seq<Tree>, idx: seq<nat>, p: Program,
                                     c: Cell)
    requires |pre| == |doms| && Via(chain, idx, Flat(pre, doms), p, c)
    ensures InRange(idx, Domains(chain)) && c.instance == Flat(pre + idx, doms + Domains(chain))
    decreases |chain|
  {
    hide Flat, OwnConstant, InRange;
    var d := chain[0].domain;
    assert (doms + [d])[..|pre|] == doms;
    FlatAppend(pre, idx[0], doms + [d]);
    OwnInstance(chain[0], Below(Flat(pre, doms), d, idx[0]), c);
    if |chain| == 1 {
      assert idx == [idx[0]] && Domains(chain) == [d];
      InRangeMore(idx[0], [], d, []);
      assert [idx[0]] + [] == [idx[0]] && [d] + [] == [d];
    } else {
      ViaIsFlat(pre + [idx[0]], doms + [d], chain[1..], idx[1..], p, c);
      InRangeMore(idx[0], idx[1..], d, Domains(chain[1..]));
      assert pre + [idx[0]] + idx[1..] == pre + idx;
      assert Domains(chain) == [d] + Domains(chain[1..]);
      assert doms + [d] + Domains(chain[1..]) == doms + Domains(chain);
      assert idx == [idx[0]] + idx[1..];
    }
  }

  /** So a constant's instances reached by different indices are saved from, and loaded into, different cells. */
  lemma InstancesAreDistinct(chain: seq<Tree>, idx: seq<nat>, other: seq<nat>, p: Program, c: Cell)
    requires Via(chain, idx, 0, p, c) && Via(chain, other, 0, p, c)
    ensures idx == other && c.instance == Flat(idx, Domains(chain))
  {
    ViaIsFlat([], [], chain, idx, p, c);
    ViaIsFlat([], [], chain, other, p, c);
    assert [] + idx == idx && [] + other == other && [] + Domains(chain) == Domains(chain);
    FlatInjective(idx, other, Domains(chain));
  }
}
