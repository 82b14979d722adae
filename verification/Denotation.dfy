/** What a query means, with no iterators: every level is a function from an
    owning datum to a finite list of items, and a chain is the nested flat map
    of its levels.  Nothing in this module has state. */
module Denotation {

  datatype Option<+T> = None | Some(value: T)

  /** `Obj` is a datum of the user's data tree.  `Row` is a datum of a virtual
      compound: the owning datum together with the values currently bound to
      its attributes. */
  datatype Datum = Obj(id: int) | Row(owner: Datum, values: seq<Datum>)

  /** The tree of keys that mirrors a query. */
  datatype KeyTree =
    | NoKey
    | KeyDatum(code: nat, value: int)
    | KeyList(items: seq<KeyTree>)

  /** One element of a collection: the value of its key, and its datum. */
  datatype Entry = Entry(key: int, datum: Datum)

  /** What one level gives: a key for its slot of the key list, and a datum. */
  datatype Item = Item(key: KeyTree, datum: Datum)

  /** What a chain gives: one key per level, and the datum of its last level. */
  datatype Path = Path(keys: seq<KeyTree>, datum: Datum)

  /** Attribute definitions, that is, the subjects of the levels of a chain.
      `Join` is one factor of a Cartesian product: it appends a result of its
      query to the row built so far.  It occurs only inside `Bound`; an empty
      `filter` stands for a bound compound without filter query. */
  datatype AttrDef =
    | Collection(code: nat, entries: Datum -> seq<Entry>)
    | Scalar(code: nat, value: Datum -> Option<Entry>)
    | Fwd(sub: seq<AttrDef>)
    | Filter(query: seq<AttrDef>, truth: Datum -> bool)
    | Join(factor: seq<AttrDef>)
    | Bound(joins: seq<AttrDef>, filter: seq<AttrDef>, truth: Datum -> bool)

  function EntryKey(code: nat, e: Entry): KeyTree {
    if code == 0 then NoKey else KeyDatum(code, e.key)
  }

  function EntryItems(code: nat, es: seq<Entry>): (r: seq<Item>)
    ensures |r| == |es|
  {
    seq(|es|, i requires 0 <= i < |es| => Item(EntryKey(code, es[i]), es[i].datum))
  }

  /** Results of a forwarded chain, seen as items of a single level. */
  function FwdItems(ps: seq<Path>): (r: seq<Item>)
    ensures |r| == |ps|
  {
    seq(|ps|, i requires 0 <= i < |ps| => Item(KeyList(ps[i].keys), ps[i].datum))
  }

  function RowOwner(d: Datum): Datum {
    if d.Row? then d.owner else d
  }

  function RowAppend(row: Datum, v: Datum): Datum {
    if row.Row? then Row(row.owner, row.values + [v]) else Row(row, [v])
  }

  function JoinItems(row: Datum, ps: seq<Path>): (r: seq<Item>)
    ensures |r| == |ps|
  {
    seq(|ps|, i requires 0 <= i < |ps| => Item(KeyList(ps[i].keys), RowAppend(row, ps[i].datum)))
  }

  function PrefixAll(key: KeyTree, ps: seq<Path>): (r: seq<Path>)
    ensures |r| == |ps|
  {
    seq(|ps|, i requires 0 <= i < |ps| => Path([key] + ps[i].keys, ps[i].datum))
  }

  function DataOf(ps: seq<Path>): (r: seq<Datum>)
    ensures |r| == |ps|
  {
    seq(|ps|, i requires 0 <= i < |ps| => ps[i].datum)
  }

  /** All items a level gives on the owner `d`, in order. */
  function LevelItems(ad: AttrDef, d: Datum): seq<Item>
    decreases ad, 0, 0
  {
    match ad
    case Collection(code, entries) => EntryItems(code, entries(d))
    case Scalar(code, value) =>
      (match value(d) case None => [] case Some(e) => EntryItems(code, [e]))
    case Fwd(sub) => FwdItems(ChainItems(sub, d))
    case Filter(query, truth) =>
      var ps := ChainItems(query, d);
      if ps != [] && truth(ps[0].datum) then [Item(NoKey, d)] else []
    case Join(factor) => JoinItems(d, ChainItems(factor, RowOwner(d)))
    case Bound(joins, filter, truth) =>
      AcceptedItems(ChainItems(joins, Row(d, [])), filter, truth)
  }

  /** All results of a chain on the root `d`: nested flat map of its levels. */
  function ChainItems(ads: seq<AttrDef>, d: Datum): seq<Path>
    decreases ads, 0, 0
  {
    if ads == [] then [Path([], d)] else Extend(LevelItems(ads[0], d), ads[1..])
  }

  function Extend(items: seq<Item>, ads: seq<AttrDef>): seq<Path>
    decreases ads, 1, |items|
  {
    if items == [] then []
    else PrefixAll(items[0].key, ChainItems(ads, items[0].datum)) + Extend(items[1..], ads)
  }

  /** Verdict of a bound compound's filter on a row: None if the filter query
      gives no value at all. */
  function Verdict(filter: seq<AttrDef>, truth: Datum -> bool, row: Datum): Option<bool>
    decreases filter, 1, 0
  {
    if filter == [] then Some(true)
    else
      var ps := ChainItems(filter, row);
      if ps == [] then None else Some(truth(ps[0].datum))
  }

  function AcceptedItems(ps: seq<Path>, filter: seq<AttrDef>, truth: Datum -> bool): seq<Item>
    decreases filter, 2, |ps|
  {
    if ps == [] then []
    else if Verdict(filter, truth, ps[0].datum) == Some(true) then
      [Item(KeyList(ps[0].keys), ps[0].datum)] + AcceptedItems(ps[1..], filter, truth)
    else AcceptedItems(ps[1..], filter, truth)
  }

  /** The `j`-th query of a product. */
  function Factor(joins: seq<AttrDef>, j: nat): seq<AttrDef> {
    if j < |joins| && joins[j].Join? then joins[j].factor else []
  }

  /** The first query without a result on `d`, or the number of queries. */
  function FirstEmpty(joins: seq<AttrDef>, d: Datum, from: nat): (i: nat)
    requires from <= |joins|
    ensures from <= i <= |joins|
    ensures i < |joins| ==> ChainItems(Factor(joins, i), d) == []
    ensures forall j :: from <= j < i ==> ChainItems(Factor(joins, j), d) != []
    decreases |joins| - from
  {
    if from == |joins| || ChainItems(Factor(joins, from), d) == [] then from else FirstEmpty(joins, d, from + 1)
  }

  /** True if no level of the chain, at any depth of forwarding, iterates. */
  predicate FullyScalar(ads: seq<AttrDef>)
    decreases ads, 1
  {
    ads == [] || (ScalarLevel(ads[0]) && FullyScalar(ads[1..]))
  }

  predicate ScalarLevel(ad: AttrDef)
    decreases ad, 0
  {
    match ad
    case Collection(_, _) => false
    case Scalar(_, _) => true
    case Fwd(sub) => FullyScalar(sub)
    case Filter(_, _) => true
    case Join(_) => false
    case Bound(_, _, _) => false
  }

  lemma {:induction false} ScalarLevelItems(ad: AttrDef, d: Datum)
    requires ScalarLevel(ad)
    ensures |LevelItems(ad, d)| <= 1
    decreases ad, 0
  {
    if ad.Fwd? { ScalarChainItems(ad.sub, d); }
  }

  /** A fully scalar chain gives at most one result. */
  lemma {:induction false} ScalarChainItems(ads: seq<AttrDef>, d: Datum)
    requires FullyScalar(ads)
    ensures |ChainItems(ads, d)| <= 1
    decreases ads, 1
  {
    if ads != [] {
      ScalarLevelItems(ads[0], d);
      var items := LevelItems(ads[0], d);
      if items != [] {
        ScalarChainItems(ads[1..], items[0].datum);
        assert items[1..] == [];
        assert Extend(items[1..], ads[1..]) == [];
      }
    }
  }

  lemma PrefixAllConcat(key: KeyTree, a: seq<Path>, b: seq<Path>)
    ensures PrefixAll(key, a + b) == PrefixAll(key, a) + PrefixAll(key, b)
  {
  }

  /** Every result of a chain has one key per level. */
  lemma {:induction false} PathLength(ads: seq<AttrDef>, d: Datum, i: nat)
    requires i < |ChainItems(ads, d)|
    ensures |ChainItems(ads, d)[i].keys| == |ads|
    decreases ads, 0, 0
  {
    if ads != [] { ExtendPathLength(LevelItems(ads[0], d), ads[1..], i); }
  }

  lemma {:induction false} ExtendPathLength(items: seq<Item>, ads: seq<AttrDef>, i: nat)
    requires i < |Extend(items, ads)|
    ensures |Extend(items, ads)[i].keys| == |ads| + 1
    decreases ads, 1, |items|
  {
    var n := |ChainItems(ads, items[0].datum)|;
    if i < n {
      PathLength(ads, items[0].datum, i);
    } else {
      ExtendPathLength(items[1..], ads, i - n);
    }
  }

  /** A collection that is the same for every owner. */
  function Always(es: seq<Entry>): Datum -> seq<Entry> {
    (_: Datum) => es
  }

  /** A chain of one collection gives as many results as that has elements. */
  lemma LevelCount(code: nat, entries: Datum -> seq<Entry>, d: Datum)
    ensures |ChainItems([Collection(code, entries)], d)| == |entries(d)|
  {
    var level := Collection(code, entries);
    assert [level][1..] == [] && LevelItems(level, d) == EntryItems(code, entries(d));
    ExtendEnds(LevelItems(level, d));
  }

  lemma {:induction false} ExtendEnds(items: seq<Item>)
    ensures |Extend(items, [])| == |items|
    decreases |items|
  {
    if items != [] { ExtendEnds(items[1..]); }
  }
}
