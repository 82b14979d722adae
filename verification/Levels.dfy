/** Levels of a chain: their mutable state, how they are linked, and what it
    means that a level, or a whole chain, still has items to give or is
    depleted. */
module Levels {
  import opened Denotation
  import opened Search
  import opened Conditions

  /** How an operation ends.  `Stalled`: a bound compound's filter has no verdict on
      the row in hand, and the loop after a product reset tests it for ever.
      `Trapped`: a bound compound without owner found a result of one of its
      queries, and goes on with a NULL owner. */
  datatype Outcome = Done | Stalled | Trapped

  /** Mutable state of a level.  `entries`: what the iterator of a plain
      collection has ahead (None: iterator not created yet).  `product`: owner
      kept by the iterator of a bound compound (None: NULL). */
  datatype State = State(entries: Option<seq<Entry>>, product: Option<Datum>, logicResult: bool)

  class Query {
    const ad: AttrDef
    var next: Query?
    var prev: Query?
    var state: State
    const sub: Query?            // forwarded query, or filter query
    const bound: seq<Query>      // queries of a bound compound
    const values: array<Datum>   // current results of those queries

    ghost var view: View
    ghost const subNodes: seq<Query>
    ghost const boundNodes: seq<seq<Query>>
    ghost const nodes: set<Query>
    ghost const buffers: set<array<Datum>>

    /** hdql_query_create: a level that stands alone.  The queries that the
        subject refers to are given with it. */
    constructor (ad: AttrDef, sub: Query?, bound: seq<Query>, ghost subNodes: seq<Query>,
        ghost boundNodes: seq<seq<Query>>)
      requires Wired(ad, sub, bound, subNodes, boundNodes)
      ensures LevelOk(this) && this.ad == ad && next == null && prev == null
      ensures view == View([], NoKey, []) && state == State(None, None, false)
      ensures nodes == {this} + Foot(subNodes) + ProdFoot(boundNodes)
      ensures fresh(buffers - Bufs(subNodes) - ProdBufs(boundNodes))
    {
      this.ad := ad;
      next, prev := null, null;
      state := State(None, None, false);
      this.sub, this.bound := sub, bound;
      var vs := new Datum[|bound|];
      values := vs;
      view := View([], NoKey, []);
      this.subNodes, this.boundNodes := subNodes, boundNodes;
      nodes := {this} + Foot(subNodes) + ProdFoot(boundNodes);
      buffers := {vs} + Bufs(subNodes) + ProdBufs(boundNodes);
      new;
      forall j | 0 <= j < |boundNodes|
        ensures Foot(boundNodes[j]) <= ProdFoot(boundNodes) && Bufs(boundNodes[j]) <= ProdBufs(boundNodes)
      {
      }
    }
  }

  /** The queries a subject refers to: one chain for a forwarding or filtering
      attribute, and for a bound compound one for each bound attribute and
      possibly one for the filter, none sharing state with another. */
  ghost predicate Wired(ad: AttrDef, sub: Query?, bound: seq<Query>, subNodes: seq<Query>, boundNodes: seq<seq<Query>>)
    reads Foot(subNodes)`next, Foot(subNodes)`prev, ProdFoot(boundNodes)`next, ProdFoot(boundNodes)`prev
  {
    && (ad.Bound? ==> |bound| == |boundNodes| == |ad.joins| > 0)
    && (!ad.Bound? ==> bound == [] && boundNodes == [])
    && match ad
       case Collection(_, _) => sub == null && subNodes == []
       case Scalar(_, _) => sub == null && subNodes == []
       case Fwd(query) => ChainOk(subNodes, query) && sub == subNodes[0]
       case Filter(query, _) => ChainOk(subNodes, query) && sub == subNodes[0]
       case Join(_) => false
       case Bound(joins, filter, _) =>
         && (if filter == [] then sub == null && subNodes == [] else ChainOk(subNodes, filter) && sub == subNodes[0])
         && Apart(boundNodes)
         && forall j :: 0 <= j < |joins| ==>
              && Foot(boundNodes[j]) <= ProdFoot(boundNodes)
              && joins[j].Join? && ChainOk(boundNodes[j], joins[j].factor) && bound[j] == boundNodes[j][0]
              && Disjoint(subNodes, boundNodes[j])
  }

  ghost function Foot(ns: seq<Query>): set<Query> {
    set n, o | n in ns && o in n.nodes :: o
  }

  ghost function Bufs(ns: seq<Query>): set<array<Datum>> {
    set n, b | n in ns && b in n.buffers :: b
  }

  ghost function ProdFoot(chains: seq<seq<Query>>): set<Query> {
    set j, o | 0 <= j < |chains| && o in Foot(chains[j]) :: o
  }

  ghost function ProdBufs(chains: seq<seq<Query>>): set<array<Datum>> {
    set j, b | 0 <= j < |chains| && b in Bufs(chains[j]) :: b
  }

  ghost predicate Disjoint(a: seq<Query>, b: seq<Query>) {
    Foot(a) !! Foot(b) && Bufs(a) !! Bufs(b)
  }

  ghost predicate Apart(chains: seq<seq<Query>>) {
    forall j, k :: 0 <= j < k < |chains| ==> Disjoint(chains[j], chains[k])
  }

  /** The links below a level are well formed.  Reads links only. */
  ghost predicate LevelOk(q: Query)
    reads q.nodes`next, q.nodes`prev
    decreases q.ad, 0
  {
    && q in q.nodes
    && match q.ad
       case Collection(_, _) => true
       case Scalar(_, _) => true
       case Fwd(sub) =>
         && Foot(q.subNodes) <= q.nodes - {q} && Bufs(q.subNodes) <= q.buffers
         && (forall n :: n in q.subNodes ==> n in q.nodes)
         && ChainOk(q.subNodes, sub) && q.sub == q.subNodes[0]
       case Filter(query, _) =>
         && Foot(q.subNodes) <= q.nodes - {q} && Bufs(q.subNodes) <= q.buffers
         && ChainOk(q.subNodes, query) && q.sub == q.subNodes[0]
       case Join(_) => false
       case Bound(joins, filter, _) =>
         && |joins| > 0
         && |q.bound| == |q.boundNodes| == |joins| == q.values.Length
         && q.values in q.buffers
         && (forall j :: 0 <= j < |joins| ==>
              && joins[j].Join?
              && Foot(q.boundNodes[j]) <= q.nodes - {q}
              && Bufs(q.boundNodes[j]) <= q.buffers - {q.values}
              && ChainOk(q.boundNodes[j], joins[j].factor)
              && q.bound[j] == q.boundNodes[j][0])
         && Apart(q.boundNodes)
         && (filter != [] ==>
              && Foot(q.subNodes) <= q.nodes - {q}
              && Bufs(q.subNodes) <= q.buffers - {q.values}
              && ChainOk(q.subNodes, filter) && q.sub == q.subNodes[0]
              && forall j :: 0 <= j < |joins| ==> Disjoint(q.subNodes, q.boundNodes[j]))
  }

  ghost function NodeAt(ns: seq<Query>, i: int): Query? {
    if 0 <= i < |ns| then ns[i] else null
  }

  /** `ns` is a chain with subjects `ads`, linked both ways, whose levels share
      no state. */
  ghost predicate ChainOk(ns: seq<Query>, ads: seq<AttrDef>)
    reads Foot(ns)`next, Foot(ns)`prev
    decreases ads, 1
  {
    && |ns| == |ads| > 0
    && (forall n :: n in ns ==> n in n.nodes)
    && (forall i :: 0 <= i < |ns| ==> ns[i].ad == ads[i] && LevelOk(ns[i]))
    && (forall i, j :: 0 <= i < j < |ns| ==> ns[i].nodes !! ns[j].nodes && ns[i].buffers !! ns[j].buffers)
    && (forall i {:trigger ns[i].next} :: 0 <= i < |ns| ==> ns[i].next == NodeAt(ns, i + 1))
    && (forall i {:trigger ns[i].prev} :: 0 <= i < |ns| ==> ns[i].prev == NodeAt(ns, i - 1))
  }

  ghost function Views(ns: seq<Query>): (vs: seq<View>)
    reads ns
    ensures |vs| == |ns|
    ensures forall i :: 0 <= i < |ns| ==> vs[i] == ns[i].view
  {
    seq(|ns|, i requires 0 <= i < |ns| reads ns => ns[i].view)
  }

  /** What a chain still has to return. */
  ghost function Left(vs: seq<View>, ads: seq<AttrDef>): seq<Path>
    requires |vs| == |ads|
  {
    Ahead(vs, ads, |ads|, |ads|, None)
  }

  /** Gets that come down with what the levels `0..i` still yield end well. */
  ghost predicate RestSafe(vs: seq<View>, ads: seq<AttrDef>, i: nat)
    requires i <= |ads| == |vs|
  {
    forall j, x :: 0 <= j < i && 0 <= x < |vs[j].rest| ==> GetTame(ads[j+1..], vs[j].rest[x].datum)
  }

  ghost function Members(chains: seq<seq<Query>>): set<Query> {
    set j, n | 0 <= j < |chains| && n in chains[j] :: n
  }

  ghost predicate Shaped(chains: seq<seq<Query>>, joins: seq<AttrDef>) {
    && |chains| == |joins|
    && forall j :: 0 <= j < |joins| ==> joins[j].Join? && |chains[j]| == |joins[j].factor|
  }

  lemma BoundShaped(q: Query)
    requires LevelOk(q) && q.ad.Bound?
    ensures Shaped(q.boundNodes, q.ad.joins)
    ensures Members(q.boundNodes) <= q.nodes
  {
    forall j | 0 <= j < |q.ad.joins|
      ensures |q.boundNodes[j]| == |q.ad.joins[j].factor|
      ensures forall n :: n in q.boundNodes[j] ==> n in Foot(q.boundNodes[j])
    {
      assert ChainOk(q.boundNodes[j], q.ad.joins[j].factor);
    }
  }

  ghost function ProductViews(chains: seq<seq<Query>>, joins: seq<AttrDef>, values: seq<Datum>,
      d: Datum): (vs: seq<View>)
    requires Shaped(chains, joins) && |values| == |joins|
    reads Members(chains)
    ensures |vs| == |chains|
  {
    seq(|chains|, j requires 0 <= j < |chains| reads Members(chains) =>
      assert forall n :: n in chains[j] ==> n in Members(chains);
      View(JoinItems(Row(d, values[..j]), Left(Views(chains[j]), joins[j].factor)),
           KeyList(Curs(Views(chains[j]))), []))
  }

  /** The queries of a bound compound, seen as the levels of their product. */
  ghost function BoundViews(q: Query, d: Datum): (vs: seq<View>)
    requires LevelOk(q) && q.ad.Bound?
    reads q.nodes, q.buffers
    ensures |vs| == |q.ad.joins|
  {
    BoundShaped(q);
    ProductViews(q.boundNodes, q.ad.joins, q.values[..], d)
  }

  /** The level is in the state its view describes: yields will give `rest`. */
  ghost predicate LevelLive(q: Query)
    requires LevelOk(q)
    reads q.nodes, q.buffers
    decreases q.ad, 0
  {
    match q.ad
    case Collection(code, _) => q.state.entries.Some? && q.view.rest == EntryItems(code, q.state.entries.value)
    case Scalar(_, _) => q.view.rest == []
    case Filter(_, _) => q.view.rest == []
    case Fwd(sub) =>
      if FullyScalar(sub) then q.view.rest == []
      else
        && ChainLive(q.subNodes, sub)
        && q.view.rest == FwdItems(Left(Views(q.subNodes), sub))
        && q.view.cur == KeyList(Curs(Views(q.subNodes)))
    case Join(_) => false
    case Bound(joins, filter, truth) =>
      match q.state.product
      case None =>
        && q.view.rest == []
        && forall j :: 0 <= j < |joins| ==> ChainLive(q.boundNodes[j], joins[j].factor)
      case Some(d) =>
        && (forall j :: 0 <= j < |joins| ==> ChainLive(q.boundNodes[j], joins[j].factor))
        && (forall j :: 0 <= j < |joins| ==> LevelItems(joins[j], Row(d, [])) != [])
        && var vs := BoundViews(q, d);
        && q.view.cur == KeyList(Curs(vs))
        && q.view.rest == AcceptedItems(Left(vs, joins), filter, truth)
  }

  ghost predicate ChainLive(ns: seq<Query>, ads: seq<AttrDef>)
    requires ChainOk(ns, ads)
    reads Foot(ns), Bufs(ns)
    decreases ads, 1
  {
    forall i :: 0 <= i < |ns| ==> LevelLive(ns[i])
  }

  /** The chain is in order and has nothing left to return. */
  ghost predicate ChainSpent(ns: seq<Query>, ads: seq<AttrDef>)
    requires ChainOk(ns, ads)
    reads Foot(ns), Bufs(ns)
    decreases ads, 2
  {
    ChainLive(ns, ads) && Left(Views(ns), ads) == []
  }

  /** The level is in order, and yields of it end well, now and later. */
  ghost predicate LevelSafe(q: Query)
    requires LevelOk(q)
    reads q.nodes, q.buffers
    decreases q.ad, 2
  {
    && LevelLive(q)
    && match q.ad
       case Fwd(sub) => FullyScalar(sub) || ChainSafe(q.subNodes, sub)
       case Bound(joins, filter, _) =>
         && (forall j :: 0 <= j < |joins| ==> ChainSafe(q.boundNodes[j], joins[j].factor))
         && (match q.state.product
             case None => forall j :: 0 <= j < |joins| ==> ChainSpent(q.boundNodes[j], joins[j].factor)
             case Some(d) =>
               && (forall j :: 0 <= j < |joins| ==> TameChain(joins[j].factor, d) && SafeAfter(joins[j].factor, d))
               && (var rows := Left(BoundViews(q, d), joins);
                   forall i :: 0 <= i < |rows| ==> TameChain(filter, rows[i].datum)))
       case _ => true
  }

  /** The chain is in order, and gets end well. */
  ghost predicate ChainSafe(ns: seq<Query>, ads: seq<AttrDef>)
    requires ChainOk(ns, ads)
    reads Foot(ns), Bufs(ns)
    decreases ads, 3
  {
    (forall i :: 0 <= i < |ns| ==> LevelSafe(ns[i])) && RestSafe(Views(ns), ads, |ads|)
  }

  /** The level is safe, and may be reset without a result: no bound compound at any
      depth has a row left. */
  ghost predicate LevelCalm(q: Query)
    requires LevelOk(q)
    reads q.nodes, q.buffers
    decreases q.ad, 4
  {
    && LevelSafe(q)
    && (q.ad.Fwd? && !FullyScalar(q.ad.sub) ==> ChainCalm(q.subNodes, q.ad.sub))
    && (q.ad.Bound? ==>
         forall j :: 0 <= j < |q.ad.joins| ==>
           ChainCalm(q.boundNodes[j], q.ad.joins[j].factor) && ChainSpent(q.boundNodes[j], q.ad.joins[j].factor))
  }

  ghost predicate ChainCalm(ns: seq<Query>, ads: seq<AttrDef>)
    requires ChainOk(ns, ads)
    reads Foot(ns), Bufs(ns)
    decreases ads, 5
  {
    ChainSafe(ns, ads) && forall i :: 0 <= i < |ns| ==> LevelCalm(ns[i])
  }

  /** No query of a bound compound without owner has anything left. */
  ghost predicate LevelSteady(q: Query)
    requires LevelOk(q)
    reads q.nodes, q.buffers
  {
    q.ad.Bound? && q.state.product.None? ==>
      forall j :: 0 <= j < |q.ad.joins| ==> QueryLeft(q, j) == []
  }

  ghost function QueryLeft(q: Query, j: nat): seq<Path>
    requires LevelOk(q) && q.ad.Bound? && j < |q.ad.joins|
    reads q.nodes, q.buffers
  {
    BoundShaped(q);
    assert forall n :: n in q.boundNodes[j] ==> n in Members(q.boundNodes);
    Left(Views(q.boundNodes[j]), q.ad.joins[j].factor)
  }

  ghost predicate ChainSteady(ns: seq<Query>, ads: seq<AttrDef>)
    requires ChainOk(ns, ads)
    reads Foot(ns), Bufs(ns)
  {
    forall i :: 0 <= i < |ns| ==> LevelSteady(ns[i])
  }

  /** The level has nothing left, and neither has any of its bound queries. */
  ghost predicate LevelEmpty(q: Query)
    requires LevelOk(q)
    reads q.nodes, q.buffers
  {
    LevelLive(q) && q.view.rest == [] && LevelSteady(q) && (q.ad.Bound? ==> q.state.product.None?)
  }

  /** A yield of the level springs the trap: of the queries of a bound compound
      without owner, the last one to have something left is followed by others. */
  ghost predicate Armed(q: Query)
    requires LevelOk(q)
    reads q.nodes, q.buffers
  {
    && LevelLive(q) && q.ad.Bound? && q.state.product.None?
    && exists i :: 0 <= i < |q.ad.joins| - 1 && QueryLeft(q, i) != []
         && forall j :: i < j < |q.ad.joins| ==> QueryLeft(q, j) == []
  }

  /** A failed reset on `d` does not arm a level that had nothing left. */
  predicate Harmless(ad: AttrDef, d: Datum) {
    ad.Bound? && FirstEmpty(ad.joins, d, 0) < |ad.joins| ==> !SecondResult(ad.joins, d)
  }

  /** The data a level still has to give. */
  ghost function Data(items: seq<Item>): set<Datum> {
    set x | 0 <= x < |items| :: items[x].datum
  }

  ghost function PathData(ps: seq<Path>): set<Datum> {
    set x | 0 <= x < |ps| :: ps[x].datum
  }

  /** No level has more to give than before. */
  ghost predicate Fewer(vs: seq<View>, was: seq<View>) {
    |vs| == |was| && forall j :: 0 <= j < |vs| ==> Data(vs[j].rest) <= Data(was[j].rest)
  }

  predicate KeyFits(ad: AttrDef, key: Option<KeyTree>, strict: bool) {
    match key
    case None => true
    case Some(slot) => Fits(ad, slot, strict)
  }

  predicate KeyHolds(ad: AttrDef, key: Option<KeyTree>, shown: KeyTree) {
    match key
    case None => true
    case Some(slot) => Holds(ad, slot, shown)
  }

  /** Keys handed to a chain must be lists. */
  predicate ListFits(ads: seq<AttrDef>, key: Option<KeyTree>, strict: bool) {
    match key
    case None => true
    case Some(list) => list.KeyList? && FitsChain(ads, list.items, strict)
  }

  predicate ListHolds(ads: seq<AttrDef>, key: Option<KeyTree>, shown: seq<KeyTree>) {
    match key
    case None => true
    case Some(list) => list.KeyList? && HoldsChain(ads, list.items, shown)
  }

  /** State of a level, as far as the search over its chain is concerned. */
  datatype Status = Status(view: View, live: bool, steady: bool, empty: bool, armed: bool, safe: bool, calm: bool)

  ghost function Stat(q: Query): Status
    requires LevelOk(q)
    reads q.nodes, q.buffers, q
  {
    Status(q.view, LevelLive(q), LevelSteady(q), LevelEmpty(q), Armed(q), LevelSafe(q), LevelCalm(q))
  }

  /** How the states of a level are related. */
  ghost predicate Coherent(ad: AttrDef, s: Status) {
    && (s.calm ==> s.safe)
    && (s.safe ==> s.live)
    && (s.empty ==> s.live && s.steady && s.view.rest == [])
    && (BoundFreeLevel(ad) && s.live ==> s.calm)
  }

  lemma StatCoherent(q: Query)
    requires LevelOk(q)
    ensures Coherent(q.ad, Stat(q))
  {
    hide LevelLive, LevelSteady, Armed;
    if BoundFreeLevel(q.ad) && LevelLive(q) { LiveCalm(q); }
    SafeLive(q);
  }

  lemma SafeLive(q: Query)
    requires LevelOk(q)
    ensures LevelSafe(q) ==> LevelLive(q)
    ensures LevelCalm(q) ==> LevelSafe(q)
  {
    hide LevelLive;
  }

  /** What a reset that ends well makes of a level.  Without a result the level has
      no more to give than before; a bound compound may be armed by it, unless
      the queries ahead of the empty one have no second result. */
  ghost predicate ResetTo(ad: AttrDef, d: Datum, s: Status, s': Status, r: Option<Datum>) {
    var items := LevelItems(ad, d);
    && s'.view.log == s.view.log + [d] && Ends(ad, d)
    && (items == [] ==>
         && r == None && (!ad.Fwd? ==> s'.view.rest == [])
         && (s.live ==> s'.live && Data(s'.view.rest) <= Data(s.view.rest))
         && (s.empty ==> if Harmless(ad, d) then s'.empty else s'.armed)
         && (TameLevel(ad, d) && s.calm && TrapFree(ad, d) ==> s'.safe && (Settles(ad, d) ==> s'.calm)))
    && (items != [] ==>
         && r == Some(items[0].datum)
         && s'.live && s'.steady && Harmless(ad, d)
         && s'.view.rest == items[1..] && s'.view.cur == items[0].key
         && (TameLevel(ad, d) ==> s'.safe && (Tidy(ad, d) ==> s'.calm)))
  }

  /** What a yield that ends well makes of a level. */
  ghost predicate YieldTo(s: Status, s': Status, r: Option<Datum>) {
    && s'.view.log == s.view.log && s'.live
    && (s.view.rest == [] ==>
         && r == None && s'.view.rest == []
         && (s.steady ==> s'.empty)
         && (s.safe ==> s'.calm))
    && (s.view.rest != [] ==>
         && r == Some(s.view.rest[0].datum)
         && s'.steady
         && s'.view.rest == s.view.rest[1..] && s'.view.cur == s.view.rest[0].key
         && (s.safe ==> s'.safe))
  }

  /** The slot of a level: it shows the current key where it did before, or after a
      reset, and is not touched by a level without keys. */
  predicate SlotDone(ad: AttrDef, shown: bool, cur: KeyTree, key: Option<KeyTree>, key': Option<KeyTree>,
      strict: bool) {
    && key'.Some? == key.Some? && KeyFits(ad, key', strict)
    && (Silent(ad) ==> key' == key)
    && (shown ==> KeyHolds(ad, key', cur))
  }

  /** Contract of a level's reset that ends well. */
  ghost predicate LevelResetDone(q: Query, d: Datum, was: Status, r: Option<Datum>, key: Option<KeyTree>,
      key': Option<KeyTree>, strict: bool)
    reads q, q.nodes, q.buffers
  {
    && LevelOk(q)
    && ResetTo(q.ad, d, was, Stat(q), r)
    && SlotDone(q.ad, r.Some?, q.view.cur, key, key', strict)
  }

  /** Contract of a level's yield that ends well. */
  ghost predicate LevelYieldDone(q: Query, was: Status, r: Option<Datum>, key: Option<KeyTree>, key': Option<KeyTree>,
      strict: bool)
    reads q, q.nodes, q.buffers
  {
    && LevelOk(q)
    && YieldTo(was, Stat(q), r)
    && SlotDone(q.ad, r.Some? && KeyHolds(q.ad, key, was.view.cur), q.view.cur, key, key', strict)
  }

  lemma {:induction false} DryAhead(vs: seq<View>, ads: seq<AttrDef>, i: nat)
    requires i <= |ads| == |vs|
    requires forall j :: 0 <= j < i ==> vs[j].rest == []
    ensures Ahead(vs, ads, |ads|, i, None) == []
    decreases i
  {
    if i > 0 {
      ExhaustedStep(vs, ads, |ads|, i - 1);
      DryAhead(vs, ads, i - 1);
    }
  }

  /** A level without bound compounds is calm whenever it is in order. */
  lemma {:induction false} LiveCalm(q: Query)
    requires LevelOk(q) && LevelLive(q) && BoundFreeLevel(q.ad)
    ensures LevelSafe(q) && LevelCalm(q)
    decreases q.ad, 0
  {
    hide ChainLive, Left;
    if q.ad.Fwd? && !FullyScalar(q.ad.sub) { LiveCalmChain(q.subNodes, q.ad.sub); }
  }

  lemma {:induction false} LiveCalmChain(ns: seq<Query>, ads: seq<AttrDef>)
    requires ChainOk(ns, ads) && ChainLive(ns, ads) && BoundFree(ads)
    ensures ChainSafe(ns, ads) && ChainCalm(ns, ads)
    decreases ads, 1
  {
    hide LevelLive, LevelSafe, LevelCalm;
    forall i | 0 <= i < |ns|
      ensures LevelSafe(ns[i]) && LevelCalm(ns[i])
    {
      BoundFreeAt(ads, i);
      LiveCalm(ns[i]);
    }
    BoundFreeRest(Views(ns), ads);
  }

  lemma BoundFreeRest(vs: seq<View>, ads: seq<AttrDef>)
    requires BoundFree(ads) && |vs| == |ads|
    ensures RestSafe(vs, ads, |ads|)
  {
    forall j, x | 0 <= j < |ads| && 0 <= x < |vs[j].rest|
      ensures GetTame(ads[j+1..], vs[j].rest[x].datum)
    {
      BoundFreeDrop(ads, j + 1);
      BoundFreeTame(ads[j+1..], vs[j].rest[x].datum);
    }
  }

  /** Fewer items above give fewer results. */
  lemma {:induction false} FewerAhead(vs: seq<View>, was: seq<View>, ads: seq<AttrDef>, i: nat, inner: seq<Path>,
      wasInner: seq<Path>)
    requires i <= |ads| == |vs| && Fewer(vs, was) && PathData(inner) <= PathData(wasInner)
    ensures PathData(Climb(vs, ads, |ads|, i, inner)) <= PathData(Climb(was, ads, |ads|, i, wasInner))
    decreases i
  {
    if i > 0 {
      var more, wasMore := Extend(vs[i-1].rest, ads[i..]), Extend(was[i-1].rest, ads[i..]);
      assert ads[i..|ads|] == ads[i..];
      FewerExtend(vs[i-1].rest, was[i-1].rest, ads[i..]);
      PathDataConcat(vs[i-1].cur, inner, more);
      PathDataConcat(was[i-1].cur, wasInner, wasMore);
      FewerAhead(vs, was, ads, i - 1, PrefixAll(vs[i-1].cur, inner) + more,
        PrefixAll(was[i-1].cur, wasInner) + wasMore);
    }
  }

  lemma PathDataConcat(key: KeyTree, a: seq<Path>, b: seq<Path>)
    ensures PathData(PrefixAll(key, a) + b) == PathData(a) + PathData(b)
  {
    var c := PrefixAll(key, a) + b;
    assert forall x :: 0 <= x < |a| ==> c[x].datum == a[x].datum;
    assert forall x :: 0 <= x < |b| ==> c[|a| + x] == b[x];
  }

  lemma {:induction false} ExtendHas(items: seq<Item>, ads: seq<AttrDef>, y: nat)
    requires y < |items|
    ensures PathData(ChainItems(ads, items[y].datum)) <= PathData(Extend(items, ads))
    decreases |items|
  {
    PathDataConcat(items[0].key, ChainItems(ads, items[0].datum), Extend(items[1..], ads));
    if y > 0 { ExtendHas(items[1..], ads, y - 1); }
  }

  lemma {:induction false} FewerExtend(items: seq<Item>, was: seq<Item>, ads: seq<AttrDef>)
    requires Data(items) <= Data(was)
    ensures PathData(Extend(items, ads)) <= PathData(Extend(was, ads))
    decreases |items|
  {
    if items != [] {
      assert items[0].datum in Data(items);
      var y :| 0 <= y < |was| && was[y].datum == items[0].datum;
      ExtendHas(was, ads, y);
      assert forall x :: 0 <= x < |items[1..]| ==> items[1..][x] == items[x + 1];
      FewerExtend(items[1..], was, ads);
      PathDataConcat(items[0].key, ChainItems(ads, items[0].datum), Extend(items[1..], ads));
    }
  }

  /** A chain whose levels have no more to give than before returns nothing new. */
  lemma FewerLeft(vs: seq<View>, was: seq<View>, ads: seq<AttrDef>)
    requires |vs| == |ads| && Fewer(vs, was)
    ensures PathData(Left(vs, ads)) <= PathData(Left(was, ads))
    ensures Left(was, ads) == [] ==> Left(vs, ads) == []
  {
    FewerAhead(vs, was, ads, |ads|, [], []);
    if Left(vs, ads) != [] { assert Left(vs, ads)[0].datum in PathData(Left(vs, ads)); }
  }

  lemma FewerSafe(vs: seq<View>, was: seq<View>, ads: seq<AttrDef>)
    requires |vs| == |ads| && Fewer(vs, was) && RestSafe(was, ads, |ads|)
    ensures RestSafe(vs, ads, |ads|)
  {
    forall j, x | 0 <= j < |ads| && 0 <= x < |vs[j].rest|
      ensures GetTame(ads[j+1..], vs[j].rest[x].datum)
    {
      assert vs[j].rest[x].datum in Data(vs[j].rest);
      var y :| 0 <= y < |was[j].rest| && was[j].rest[y].datum == vs[j].rest[x].datum;
    }
  }
}
