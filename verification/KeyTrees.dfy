/** Trees of keys in memory.  A block holds either an array of key cells or the
    datum of one key; a pointer is the address of a block, zero being NULL. */
module KeyTrees {
  import opened Denotation
  import opened KeyShapes

  datatype PayloadType = Plain | List

  /** `pl` points to the datum of a plain key, or to the cells of a list. */
  datatype Cell = Cell(code: nat, plType: PayloadType, isTerminal: bool, pl: nat)

  datatype Block = Keys(cells: seq<Cell>) | Stored(value: int)

  /** A cell by the address of its array and its index. */
  datatype Loc = Loc(addr: nat, idx: nat)

  const EMPTY := Cell(0, Plain, false, 0)

  predicate IsEmpty(c: Cell) {
    c.plType == Plain && c.code == 0
  }

  predicate IsDatum(c: Cell) {
    c.plType == Plain && c.code != 0
  }

  predicate IsList(c: Cell) {
    c.plType == List
  }

  /** What a key consists of, with the addresses of its blocks. */
  datatype Tree =
    | TEmpty
    | TDatum(addr: nat, code: nat, value: int)
    | TList(addr: nat, items: seq<Tree>)

  /** The key that the tree stands for. */
  function Value(t: Tree): KeyTree
    decreases t, 0
  {
    match t
    case TEmpty => NoKey
    case TDatum(_, code, value) => KeyDatum(code, value)
    case TList(_, items) => KeyList(Values(items))
  }

  function Values(ts: seq<Tree>): (r: seq<KeyTree>)
    ensures |r| == |ts|
    ensures forall i :: 0 <= i < |ts| ==> r[i] == Value(ts[i])
    decreases ts, 1
  {
    if ts == [] then [] else [Value(ts[0])] + Values(ts[1..])
  }

  /** Addresses of the blocks of a key: those of its items, then its own. */
  function Blocks(t: Tree): seq<nat>
    decreases t, 0
  {
    match t
    case TEmpty => []
    case TDatum(addr, _, _) => [addr]
    case TList(addr, items) => BlocksAll(items) + [addr]
  }

  function BlocksAll(ts: seq<Tree>): seq<nat>
    decreases ts, 1
  {
    if ts == [] then [] else Blocks(ts[0]) + BlocksAll(ts[1..])
  }

  predicate Distinct(s: seq<nat>) {
    forall i, j :: 0 <= i < j < |s| ==> s[i] != s[j]
  }

  function Addresses(s: seq<nat>): set<nat> {
    set a | a in s
  }

  /** The cell is the root of the tree, all of whose blocks are live. */
  predicate Rep(m: map<nat, Block>, c: Cell, t: Tree)
    decreases t
  {
    match t
    case TEmpty => c.plType == Plain && c.code == 0 && c.pl == 0
    case TDatum(addr, code, value) =>
      c.plType == Plain && c.code == code != 0 && c.pl == addr && addr in m && m[addr] == Stored(value)
    case TList(addr, items) =>
      && c.plType == List && c.code == 0 && c.pl == addr
      && addr in m && m[addr].Keys? && |m[addr].cells| == |items| > 0
      && forall i :: 0 <= i < |items| ==>
           && Rep(m, m[addr].cells[i], items[i])
           && (m[addr].cells[i].isTerminal <==> i == |items| - 1)
  }

  lemma {:induction false} BlocksSplit(ts: seq<Tree>, i: nat)
    requires i < |ts|
    ensures BlocksAll(ts[..i + 1]) == BlocksAll(ts[..i]) + Blocks(ts[i])
    ensures BlocksAll(ts) == BlocksAll(ts[..i]) + Blocks(ts[i]) + BlocksAll(ts[i + 1..])
    decreases |ts|
  {
    if i == 0 {
      assert ts[..1][1..] == [] && ts[..1][0] == ts[0];
    } else {
      assert ts[..i + 1][1..] == ts[1..][..i] && ts[..i][1..] == ts[1..][..i - 1];
      assert ts[1..][i - 1] == ts[i] && ts[1..][i..] == ts[i + 1..];
      BlocksSplit(ts[1..], i - 1);
    }
  }

  lemma BlocksWhole(ts: seq<Tree>)
    ensures BlocksAll(ts[..|ts|]) == BlocksAll(ts) && BlocksAll(ts[..0]) == []
  {
    assert ts[..|ts|] == ts;
  }

  lemma DistinctParts(a: seq<nat>, b: seq<nat>)
    requires Distinct(a + b)
    ensures Distinct(a) && Distinct(b) && forall x :: x in a ==> x !in b
  {
    var s := a + b;
    forall i, j | 0 <= i < j < |a|
      ensures a[i] != a[j]
    {
      assert s[i] != s[j];
    }
    forall i, j | 0 <= i < j < |b|
      ensures b[i] != b[j]
    {
      assert s[|a| + i] != s[|a| + j];
    }
    forall x | x in a
      ensures x !in b
    {
      var i :| 0 <= i < |a| && a[i] == x;
      forall j | 0 <= j < |b|
        ensures b[j] != x
      {
        assert s[i] != s[|a| + j];
      }
    }
  }

  lemma DistinctJoin(a: seq<nat>, b: seq<nat>)
    requires Distinct(a) && Distinct(b) && forall x :: x in a ==> x !in b
    ensures Distinct(a + b)
  {
    assert forall i :: 0 <= i < |a| ==> (a + b)[i] == a[i] && a[i] in a;
    assert forall j :: 0 <= j < |b| ==> (a + b)[|a| + j] == b[j] && b[j] in b;
  }

  /** Items of a list own different blocks, none of which is the list's. */
  lemma ItemsApart(t: Tree, i: nat)
    requires t.TList? && i < |t.items| && Distinct(Blocks(t))
    ensures Distinct(Blocks(t.items[i])) && t.addr !in BlocksAll(t.items)
    ensures forall x :: x in Blocks(t.items[i]) ==>
            x in BlocksAll(t.items) && x !in BlocksAll(t.items[..i]) && x !in BlocksAll(t.items[i + 1..])
  {
    var ts := t.items;
    DistinctParts(BlocksAll(ts), [t.addr]);
    BlocksSplit(ts, i);
    DistinctParts(BlocksAll(ts[..i]) + Blocks(ts[i]), BlocksAll(ts[i + 1..]));
    DistinctParts(BlocksAll(ts[..i]), Blocks(ts[i]));
  }

  lemma {:induction false} InBlocksAll(ts: seq<Tree>, i: nat)
    requires i < |ts|
    ensures forall x :: x in Blocks(ts[i]) ==> x in BlocksAll(ts)
  {
    BlocksSplit(ts, i);
  }

  /** A key only depends on its own blocks. */
  lemma {:induction false} RepFrame(m: map<nat, Block>, m': map<nat, Block>, c: Cell, c': Cell, t: Tree)
    requires Rep(m, c, t) && c' == c.(isTerminal := c'.isTerminal)
    requires forall a :: a in Blocks(t) ==> a in m && a in m' && m'[a] == m[a]
    ensures Rep(m', c', t)
    decreases t
  {
    if t.TList? {
      assert t.addr in Blocks(t);
      forall i | 0 <= i < |t.items|
        ensures Rep(m', m[t.addr].cells[i], t.items[i])
      {
        InBlocksAll(t.items, i);
        RepFrame(m, m', m[t.addr].cells[i], m[t.addr].cells[i], t.items[i]);
      }
    }
  }

  /** All blocks of a key are live. */
  lemma {:induction false} RepLive(m: map<nat, Block>, c: Cell, t: Tree)
    requires Rep(m, c, t)
    ensures forall a :: a in Blocks(t) ==> a in m
    decreases t, 0
  {
    if t.TList? {
      forall i | 0 <= i < |t.items|
        ensures forall a :: a in Blocks(t.items[i]) ==> a in m
      {
        RepLive(m, m[t.addr].cells[i], t.items[i]);
      }
      AllIn(t.items, m.Keys);
    }
  }

  lemma {:induction false} AllIn(ts: seq<Tree>, s: set<nat>)
    requires forall i :: 0 <= i < |ts| ==> forall a :: a in Blocks(ts[i]) ==> a in s
    ensures forall a :: a in BlocksAll(ts) ==> a in s
    decreases |ts|
  {
    if ts != [] {
      assert forall i :: 0 <= i < |ts[1..]| ==> ts[1..][i] == ts[i + 1];
      AllIn(ts[1..], s);
    }
  }

  /** The key reserved for a level, with zero values. */
  function Blank(ad: AttrDef): KeyTree
    decreases ad, 0
  {
    match ad
    case Collection(code, _) => if code == 0 then NoKey else KeyDatum(code, 0)
    case Scalar(code, _) => if code == 0 then NoKey else KeyDatum(code, 0)
    case Filter(_, _) => NoKey
    case Fwd(sub) => KeyList(BlankAll(sub))
    case Join(factor) => KeyList(BlankAll(factor))
    case Bound(joins, _, _) => KeyList(BlankAll(joins))
  }

  function BlankAll(ads: seq<AttrDef>): (r: seq<KeyTree>)
    ensures |r| == |ads|
    ensures forall i :: 0 <= i < |ads| ==> r[i] == Blank(ads[i])
    decreases ads, 1
  {
    if ads == [] then [] else [Blank(ads[0])] + BlankAll(ads[1..])
  }

  lemma {:induction false} BlankReservedLevel(ad: AttrDef)
    ensures Reserved(ad, Blank(ad))
    decreases ad, 0
  {
    match ad
    case Collection(_, _) =>
    case Scalar(_, _) =>
    case Filter(_, _) =>
    case Fwd(sub) => BlankReserved(sub);
    case Join(factor) => BlankReserved(factor);
    case Bound(joins, _, _) => BlankReserved(joins);
  }

  /** A blank key has the shape that results of the query come with. */
  lemma {:induction false} BlankReserved(ads: seq<AttrDef>)
    ensures ReservedChain(ads, BlankAll(ads))
    decreases ads, 1
  {
    forall i | 0 <= i < |ads|
      ensures Reserved(ads[i], BlankAll(ads)[i])
    {
      BlankReservedLevel(ads[i]);
    }
  }

  /** Same kinds of keys at the same places; types of data may differ. */
  predicate SameKinds(a: Tree, b: Tree)
    decreases a
  {
    match a
    case TEmpty => b.TEmpty?
    case TDatum(_, _, _) => b.TDatum?
    case TList(_, items) =>
      b.TList? && |items| == |b.items| && forall i :: 0 <= i < |items| ==> SameKinds(items[i], b.items[i])
  }

  predicate SameCodes(a: Tree, b: Tree)
    requires SameKinds(a, b)
    decreases a
  {
    match a
    case TEmpty => true
    case TDatum(_, code, _) => code == b.code
    case TList(_, items) => forall i :: 0 <= i < |items| ==> SameCodes(items[i], b.items[i])
  }

  lemma {:induction false} ReservedAlikeLevel(ad: AttrDef, a: Tree, b: Tree)
    requires Reserved(ad, Value(a)) && Reserved(ad, Value(b))
    ensures SameKinds(a, b) && SameCodes(a, b)
    decreases ad, 0
  {
    match ad
    case Collection(_, _) =>
    case Scalar(_, _) =>
    case Filter(_, _) =>
    case Fwd(sub) => ReservedAlike(sub, a.items, b.items);
    case Join(factor) => ReservedAlike(factor, a.items, b.items);
    case Bound(joins, _, _) => ReservedAlike(joins, a.items, b.items);
  }

  /** Keys of the shape reserved for one query are alike. */
  lemma {:induction false} ReservedAlike(ads: seq<AttrDef>, a: seq<Tree>, b: seq<Tree>)
    requires ReservedChain(ads, Values(a)) && ReservedChain(ads, Values(b))
    ensures |a| == |b| && forall i :: 0 <= i < |a| ==> SameKinds(a[i], b[i]) && SameCodes(a[i], b[i])
    decreases ads, 1
  {
    forall i | 0 <= i < |a|
      ensures SameKinds(a[i], b[i]) && SameCodes(a[i], b[i])
    {
      ReservedAlikeLevel(ads[i], a[i], b[i]);
    }
  }

  /** Levels that a key can be reserved for: no query is empty, and joins occur
      only as the factors of a bound compound. */
  predicate Keyed(ads: seq<AttrDef>)
    decreases ads, 1
  {
    ads != [] && forall i :: 0 <= i < |ads| ==> KeyedLevel(ads[i])
  }

  predicate KeyedLevel(ad: AttrDef)
    decreases ad, 0
  {
    match ad
    case Fwd(sub) => Keyed(sub)
    case Join(_) => false
    case Bound(joins, _, _) => joins != [] && forall j :: 0 <= j < |joins| ==> joins[j].Join? && Keyed(joins[j].factor)
    case _ => true
  }

  /** What copying `s` makes of `d`: data are copied up to the first key whose
      type code differs. */
  function Copied(d: Tree, s: Tree): Tree
    requires SameKinds(d, s)
    decreases d, 1
  {
    match d
    case TEmpty => d
    case TDatum(addr, code, value) => if code == s.code then TDatum(addr, code, s.value) else d
    case TList(addr, items) => TList(addr, CopiedItems(items, s.items))
  }

  function CopiedItems(ds: seq<Tree>, ss: seq<Tree>): seq<Tree>
    requires |ds| == |ss| && forall i :: 0 <= i < |ds| ==> SameKinds(ds[i], ss[i])
    decreases ds, 0
  {
    if ds == [] then []
    else if SameCodes(ds[0], ss[0]) then [Copied(ds[0], ss[0])] + CopiedItems(ds[1..], ss[1..])
    else [Copied(ds[0], ss[0])] + ds[1..]
  }

  /** Items copied up to and including `i`, where the copying stops. */
  lemma {:induction false} CopiedUpTo(ds: seq<Tree>, ss: seq<Tree>, now: seq<Tree>, i: nat)
    requires |ds| == |ss| == |now| && i < |ds| && forall j :: 0 <= j < |ds| ==> SameKinds(ds[j], ss[j])
    requires forall j :: 0 <= j <= i ==> now[j] == Copied(ds[j], ss[j])
    requires forall j :: 0 <= j < i ==> SameCodes(ds[j], ss[j])
    requires i == |ds| - 1 || !SameCodes(ds[i], ss[i])
    requires forall j :: i < j < |ds| ==> now[j] == ds[j]
    ensures now == CopiedItems(ds, ss)
    decreases |ds|
  {
    hide SameCodes, SameKinds, Copied;
    if i == 0 {
      assert now == [now[0]] + ds[1..];
    } else {
      CopiedUpTo(ds[1..], ss[1..], now[1..], i - 1);
      assert now == [now[0]] + now[1..];
    }
  }

  /** Those of the blocks that store the datum of a key. */
  function StoredOnly(m: map<nat, Block>, s: seq<nat>): seq<nat> {
    if s == [] then []
    else (if s[0] in m && m[s[0]].Stored? then [s[0]] else []) + StoredOnly(m, s[1..])
  }

  lemma {:induction false} StoredConcat(m: map<nat, Block>, a: seq<nat>, b: seq<nat>)
    ensures StoredOnly(m, a + b) == StoredOnly(m, a) + StoredOnly(m, b)
    decreases |a|
  {
    if a == [] {
      assert a + b == b;
    } else {
      assert (a + b)[1..] == a[1..] + b;
      StoredConcat(m, a[1..], b);
    }
  }

  /** The block of a datum stores it; that of a list does not. */
  lemma StoredOf(m: map<nat, Block>, c: Cell, t: Tree)
    requires Rep(m, c, t)
    ensures t.TEmpty? ==> StoredOnly(m, Blocks(t)) == []
    ensures t.TDatum? ==> StoredOnly(m, Blocks(t)) == [t.addr]
    ensures t.TList? ==> StoredOnly(m, Blocks(t)) == StoredOnly(m, BlocksAll(t.items))
  {
    if t.TDatum? { assert [t.addr][1..] == []; }
    if t.TList? {
      StoredConcat(m, BlocksAll(t.items), [t.addr]);
      assert [t.addr][1..] == [];
    }
  }

  lemma StoredStep(m: map<nat, Block>, ts: seq<Tree>, i: nat)
    requires i < |ts|
    ensures StoredOnly(m, BlocksAll(ts[..i + 1])) == StoredOnly(m, BlocksAll(ts[..i])) + StoredOnly(m, Blocks(ts[i]))
  {
    BlocksSplit(ts, i);
    StoredConcat(m, BlocksAll(ts[..i]), Blocks(ts[i]));
  }
}
