/** A filtered product as one level of a chain. */
module BoundCompounds {
  import opened Denotation
  import opened Search
  import opened Conditions
  import opened Levels
  import opened Chains
  import opened Products

  /** The filter query of a bound compound shares nothing with its queries. */
  ghost predicate FilterApart(q: Query)
    reads q.nodes`next, q.nodes`prev
  {
    && q.ad.Bound? && q.ad.filter != []
    && Foot(q.subNodes) <= q.nodes - {q}
    && Bufs(q.subNodes) <= q.buffers - {q.values}
    && ChainOk(q.subNodes, q.ad.filter) && |q.subNodes| == |q.ad.filter| && q.sub == q.subNodes[0]
    && Foot(q.subNodes) !! ProdFoot(q.boundNodes) && Bufs(q.subNodes) !! ProdBufs(q.boundNodes)
  }

  /** Rows of a product from the one in hand on. */
  ghost function Rows(ss: seq<Snapshot>, joins: seq<AttrDef>, values: seq<Datum>, d: Datum): seq<Path>
    requires |ss| == |joins| == |values|
  {
    [Path(ProdKeys(ss), Row(d, values))] + ProdLeft(ss, joins, values, d)
  }

  /** The product is in order, and `ps` is ahead. */
  ghost predicate Iterating(ss: seq<Snapshot>, joins: seq<AttrDef>, values: seq<Datum>, d: Datum, ps: seq<Path>) {
    && |ss| == |joins| == |values|
    && Advanceable(ss, joins, Some(d))
    && ProdLeft(ss, joins, values, d) == ps
    && forall j :: 0 <= j < |joins| ==> joins[j].Join?
  }

  /** All rows of the product on `d`. */
  function AllRows(ad: AttrDef, d: Datum): seq<Path>
    requires ad.Bound?
  {
    ChainItems(ad.joins, Row(d, []))
  }

  ghost predicate RowsTame(filter: seq<AttrDef>, ps: seq<Path>) {
    forall i :: 0 <= i < |ps| ==> TameChain(filter, ps[i].datum)
  }

  /** Advances to the rows `ps`, and the filter on them, end well. */
  ghost predicate TameRows(ss: seq<Snapshot>, ad: AttrDef, d: Datum, ps: seq<Path>)
    requires ad.Bound?
  {
    AllSafe(ss) && AllTame(ad.joins, d) && RowsTame(ad.filter, ps)
  }

  /** A bound compound between two rows: `ps` still follows the row in hand. */
  ghost predicate OnRow(q: Query, d: Datum, ps: seq<Path>, key: Option<KeyTree>, shown: bool, tame: bool)
    reads q.nodes`next, q.nodes`prev, Members(q.boundNodes), ProdFoot(q.boundNodes), ProdBufs(q.boundNodes), q.values
  {
    && LevelOk(q) && q.ad.Bound?
    && Iterating(Snaps(q.boundNodes, q.ad.joins), q.ad.joins, q.values[..], d, ps)
    && (shown ==> AllShown(Snaps(q.boundNodes, q.ad.joins), q.ad.joins, key))
    && (tame ==> TameRows(Snaps(q.boundNodes, q.ad.joins), q.ad, d, ps))
  }

  /** The row in hand, as an item. */
  ghost function InHand(q: Query, d: Datum): seq<Item>
    requires q.ad.Bound? && |q.ad.joins| == q.values.Length == |q.boundNodes|
    reads Members(q.boundNodes), ProdFoot(q.boundNodes), ProdBufs(q.boundNodes), q.values
  {
    [Item(KeyList(ProdKeys(Snaps(q.boundNodes, q.ad.joins))), Row(d, q.values[..]))]
  }

  /** Rows still to be tested: the one in hand, then `ps`. */
  ghost predicate Testing(q: Query, d: Datum, ps: seq<Path>, items: seq<Item>, tame: bool)
    reads Members(q.boundNodes), ProdFoot(q.boundNodes), ProdBufs(q.boundNodes), q.values
  {
    && q.ad.Bound? && |q.ad.joins| == q.values.Length == |q.boundNodes|
    && var rows := [Path(ProdKeys(Snaps(q.boundNodes, q.ad.joins)), Row(d, q.values[..]))] + ps;
    && AcceptedItems(rows, q.ad.filter, q.ad.truth) == items
    && (NoStall(rows, q.ad.filter, q.ad.truth) <==> NoStall(AllRows(q.ad, d), q.ad.filter, q.ad.truth))
    && (tame ==> NoStall(rows, q.ad.filter, q.ad.truth) && TameChain(q.ad.filter, Row(d, q.values[..])))
  }

  /** The product ran out of rows. */
  predicate AllOut(ss: seq<Snapshot>, tame: bool) {
    forall j :: 0 <= j < |ss| ==> ss[j].live && NoneLeft(ss[j].views) && (tame ==> ss[j].safe && ss[j].calm)
  }

  /** State of a bound compound in terms of its queries. */
  ghost predicate BoundLike(ad: AttrDef, s: Status, ss: seq<Snapshot>, values: seq<Datum>, product: Option<Datum>) {
    && ad.Bound? && |ss| == |ad.joins| == |values| > 0
    && (forall j :: 0 <= j < |ad.joins| ==> ad.joins[j].Join? && |ss[j].views| == |Factor(ad.joins, j)|)
    && (s.live <==> AllLive(ss) && ViewLike(ad, s.view, ss, values, product))
    && (s.steady <==> (product.None? ==> AllNothing(ss, ad.joins)))
    && (s.empty <==> s.live && s.view.rest == [] && s.steady && product.None?)
    && (s.armed <==> s.live && product.None? && SomeArmed(ss, ad.joins))
    && (s.safe <==> s.live && AllSafe(ss) && ProductSafe(ad, ss, values, product))
    && (s.calm <==> s.safe && AllCalm(ss) && AllSpent(ss, ad.joins))
  }

  /** What a bound compound shows and still has to give. */
  ghost predicate ViewLike(ad: AttrDef, v: View, ss: seq<Snapshot>, values: seq<Datum>, product: Option<Datum>)
    requires ad.Bound? && |ss| == |ad.joins| == |values|
  {
    match product
    case None => v.rest == []
    case Some(d) =>
      && Advanceable(ss, ad.joins, Some(d))
      && v.cur == KeyList(ProdKeys(ss))
      && v.rest == AcceptedItems(ProdLeft(ss, ad.joins, values, d), ad.filter, ad.truth)
  }

  ghost predicate ProductSafe(ad: AttrDef, ss: seq<Snapshot>, values: seq<Datum>, product: Option<Datum>)
    requires ad.Bound? && |ss| == |ad.joins| == |values|
  {
    match product
    case None => AllSpent(ss, ad.joins)
    case Some(d) => AllTame(ad.joins, d) && RowsTame(ad.filter, ProdLeft(ss, ad.joins, values, d))
  }

  ghost predicate AllNothing(ss: seq<Snapshot>, joins: seq<AttrDef>) {
    forall j :: 0 <= j < |ss| ==> NothingLeft(ss[j], Factor(joins, j))
  }

  /** The last query with something left is followed by others. */
  ghost predicate SomeArmed(ss: seq<Snapshot>, joins: seq<AttrDef>) {
    exists i :: 0 <= i < |ss| - 1 && ArmedAt(ss, joins, i)
  }

  ghost predicate ArmedAt(ss: seq<Snapshot>, joins: seq<AttrDef>, i: nat)
    requires i < |ss|
  {
    !NothingLeft(ss[i], Factor(joins, i)) && forall j :: i < j < |ss| ==> NothingLeft(ss[j], Factor(joins, j))
  }
}
