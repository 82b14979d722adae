/** The odometer over several chains: which chains were reset, advanced or
    spent so far, and how that makes up the rows of their Cartesian product. */
module Products {
  import opened Denotation
  import opened Search
  import opened Conditions
  import opened Levels
  import opened Chains

  /** Chains of several queries that share no state. */
  ghost predicate ProdOk(chains: seq<seq<Query>>, joins: seq<AttrDef>)
    reads ProdFoot(chains)`next, ProdFoot(chains)`prev
  {
    && |chains| == |joins|
    && (forall j :: 0 <= j < |chains| ==> Foot(chains[j]) <= ProdFoot(chains))
    && (forall j :: 0 <= j < |chains| ==> joins[j].Join? && ChainOk(chains[j], Factor(joins, j)))
    && Apart(chains)
  }

  ghost predicate Heads(qs: seq<Query>, chains: seq<seq<Query>>) {
    |qs| == |chains| && forall j :: 0 <= j < |chains| ==> chains[j] != [] && qs[j] == chains[j][0]
  }

  ghost function Snaps(chains: seq<seq<Query>>, joins: seq<AttrDef>): (r: seq<Snapshot>)
    reads ProdFoot(chains), ProdBufs(chains), Members(chains)
    ensures |r| == |chains|
    ensures forall j :: 0 <= j < |chains| ==> r[j] == Snap(chains[j], Factor(joins, j))
  {
    seq(|chains|, j requires 0 <= j < |chains| reads ProdFoot(chains), ProdBufs(chains), Members(chains) =>
      assert Foot(chains[j]) <= ProdFoot(chains) && Bufs(chains[j]) <= ProdBufs(chains);
      assert forall n :: n in chains[j] ==> n in Members(chains);
      Snap(chains[j], Factor(joins, j)))
  }

  /** The query was yielded until nothing was left. */
  predicate Gone(before: Snapshot, after: Snapshot) {
    after.live && NoneLeft(after.views) && (before.safe ==> after.safe && after.calm)
  }

  predicate AllGone(before: seq<Snapshot>, after: seq<Snapshot>) {
    |after| == |before| && forall j :: 0 <= j < |before| ==> Gone(before[j], after[j])
  }

  ghost predicate AllSpent(ss: seq<Snapshot>, joins: seq<AttrDef>) {
    forall j :: 0 <= j < |ss| ==> Spent(ss[j], Factor(joins, j))
  }

  predicate AllLive(ss: seq<Snapshot>) {
    forall j :: 0 <= j < |ss| ==> ss[j].live
  }

  predicate AllSafe(ss: seq<Snapshot>) {
    forall j :: 0 <= j < |ss| ==> ss[j].safe
  }

  predicate AllCalm(ss: seq<Snapshot>) {
    forall j :: 0 <= j < |ss| ==> ss[j].calm
  }

  /** A reset of the queries from `from` on ends well: the first empty one is the
      last to be reset. */
  ghost predicate ResetTame(joins: seq<AttrDef>, d: Datum, from: nat) {
    from <= |joins| &&
    forall j :: from <= j < |joins| && j <= FirstEmpty(joins, d, from) ==> TameChain(Factor(joins, j), d)
  }

  /** All queries may be reset on `d`, and got from afterwards. */
  ghost predicate AllTame(joins: seq<AttrDef>, d: Datum) {
    forall j :: 0 <= j < |joins| ==> TameChain(Factor(joins, j), d) && SafeAfter(Factor(joins, j), d)
  }

  /** A run of the product ends well: queries after the first empty one are not
      reset, and gets are made only if no query is empty. */
  ghost predicate ProductTame(joins: seq<AttrDef>, d: Datum) {
    ResetTame(joins, d, 0) && (FirstEmpty(joins, d, 0) == |joins| ==> AllTame(joins, d))
  }

  /** Only query `i` may have changed. */
  predicate OnlyAt(before: seq<Snapshot>, after: seq<Snapshot>, i: nat) {
    |after| == |before| && forall j :: 0 <= j < |before| && j != i ==> after[j] == before[j]
  }

  /** The query was just reset on `d`, and `v` is its first result. */
  ghost predicate Fresh(s: Snapshot, ads: seq<AttrDef>, d: Datum, v: Datum) {
    var ps := ChainItems(ads, d);
    && s.live && |s.views| == |ads| && ps != []
    && v == ps[0].datum
    && Left(s.views, ads) == ps[1..]
    && Curs(s.views) == ps[0].keys
    && (TameChain(ads, d) && SafeAfter(ads, d) ==> s.safe && (TidyChain(ads, d) ==> s.calm))
  }

  function SlotOf(key: Option<KeyTree>, i: nat): Option<KeyTree> {
    if key.Some? && key.value.KeyList? && i < |key.value.items| then Some(key.value.items[i]) else None
  }

  function WithSlot(key: Option<KeyTree>, i: nat, slot: Option<KeyTree>): Option<KeyTree> {
    if key.Some? && slot.Some? && key.value.KeyList? && i < |key.value.items|
    then Some(KeyList(key.value.items[i := slot.value])) else key
  }

  /** Queries `from..i` were reset on `d`; the others are as before. */
  ghost predicate ResetSoFar(joins: seq<AttrDef>, d: Datum, from: nat, i: nat, before: seq<Snapshot>,
      after: seq<Snapshot>,
      values: seq<Datum>, key: Option<KeyTree>)
  {
    && from <= i <= |joins| == |before| == |after| == |values|
    && (forall j :: 0 <= j < from || i <= j < |joins| ==> after[j] == before[j])
    && (forall j :: from <= j < i ==>
          Fresh(after[j], Factor(joins, j), d, values[j])
              && ListHolds(Factor(joins, j), SlotOf(key, j), Curs(after[j].views)))
  }

  /** The query was reset on `d` without a result. */
  ghost predicate FailedOn(before: Snapshot, after: Snapshot, ads: seq<AttrDef>, d: Datum) {
    && ChainItems(ads, d) == []
    && |before.views| == |after.views| == |ads| > 0
    && (|ads| == 1 && !ads[0].Fwd? ==> NoneLeft(after.views))
    && (before.live ==> after.live && Fewer(after.views, before.views))
    && (TameChain(ads, d) && before.calm && TrapFreeChain(ads, d) ==>
         after.safe && (SettlesChain(ads, d) ==> after.calm))
  }

  ghost predicate FailedAt(before: seq<Snapshot>, after: seq<Snapshot>, joins: seq<AttrDef>, d: Datum, i: nat) {
    OnlyAt(before, after, i) && i < |before| && FailedOn(before[i], after[i], Factor(joins, i), d)
  }

  /** A product reset from query `from` on failed at the first empty one. */
  ghost predicate ResetFailed(before: seq<Snapshot>, after: seq<Snapshot>, joins: seq<AttrDef>, d: Datum, from: nat) {
    && from <= |joins| == |before| == |after|
    && var e := FirstEmpty(joins, d, from);
    && e < |joins| && FailedOn(before[e], after[e], Factor(joins, e), d)
    && (forall j :: from <= j < e ==> Fresh(after[j], Factor(joins, j), d, FirstDatum(joins, d, j)))
    && (forall j :: 0 <= j < from || e < j < |joins| ==> after[j] == before[j])
  }

  function FirstDatum(joins: seq<AttrDef>, d: Datum, j: nat): Datum {
    var ps := ChainItems(Factor(joins, j), d);
    if ps == [] then d else ps[0].datum
  }

  ghost predicate SameSlots(key: Option<KeyTree>, key': Option<KeyTree>, n: nat) {
    forall j: nat :: j < n ==> SlotOf(key', j) == SlotOf(key, j)
  }

  /** The queries of a product, seen as the levels of one chain of joins. */
  ghost function ProdViews(ss: seq<Snapshot>, joins: seq<AttrDef>, values: seq<Datum>, d: Datum): (vs: seq<View>)
    requires |ss| == |joins| == |values|
    ensures |vs| == |ss|
  {
    seq(|ss|, j requires 0 <= j < |ss| => FactorView(ss[j], Factor(joins, j), Row(d, values[..j])))
  }

  ghost function FactorView(s: Snapshot, ads: seq<AttrDef>, row: Datum): View {
    View(JoinItems(row, if |s.views| == |ads| then Left(s.views, ads) else []), KeyList(Curs(s.views)), [])
  }

  /** Every slot of the key list shows the keys of its query. */
  ghost predicate AllShown(ss: seq<Snapshot>, joins: seq<AttrDef>, key: Option<KeyTree>) {
    forall j :: 0 <= j < |ss| ==> ListHolds(Factor(joins, j), SlotOf(key, j), Curs(ss[j].views))
  }

  /** What a product still has to return, without the row in hand. */
  ghost function ProdLeft(ss: seq<Snapshot>, joins: seq<AttrDef>, values: seq<Datum>, d: Datum): seq<Path>
    requires |ss| == |joins| == |values|
  {
    Left(ProdViews(ss, joins, values, d), joins)
  }

  ghost function ProdKeys(ss: seq<Snapshot>): seq<KeyTree> {
    seq(|ss|, j requires 0 <= j < |ss| => KeyList(Curs(ss[j].views)))
  }

  /** An odometer that has come down to digit `i`: the digits after it are
      spent, the others as before. */
  ghost predicate SpentFrom(before: seq<Snapshot>, now: seq<Snapshot>, joins: seq<AttrDef>, values: seq<Datum>,
      d: Option<Datum>, key: Option<KeyTree>, now': Option<KeyTree>, i: nat)
  {
    && |before| == |now| == |joins| == |values| && i <= |joins|
    && (forall j :: 0 <= j < |joins| ==> joins[j].Join? && |before[j].views| == |Factor(joins, j)|)
    && (forall j :: 0 <= j < i ==> now[j] == before[j] && SlotOf(now', j) == SlotOf(key, j))
    && (forall j :: i <= j < |joins| ==>
          Gone(before[j], now[j]) && Left(before[j].views, Factor(joins, j)) == [])
    && (d.Some? ==> (ProdLeft(before, joins, values, d.value)
                     == Ahead(ProdViews(before, joins, values, d.value), joins, |joins|, i, None)))
  }

  /** Postcondition of a product advance with an owner. */
  ghost predicate AdvanceDone(before: seq<Snapshot>, after: seq<Snapshot>, joins: seq<AttrDef>, values: seq<Datum>,
      values': seq<Datum>, d: Datum, key': Option<KeyTree>, shown: bool, ok: bool)
  {
    && |before| == |after| == |joins| == |values| == |values'|
    && (ProdLeft(before, joins, values, d) == [] ==> !ok && AllGone(before, after))
    && (ProdLeft(before, joins, values, d) != [] ==>
         && ok && AllLive(after)
         && (AllSafe(before) && AllTame(joins, d) ==> AllSafe(after))
         && ProdLeft(before, joins, values, d)
            == [Path(ProdKeys(after), Row(d, values'))] + ProdLeft(after, joins, values', d)
         && (shown ==> AllShown(after, joins, key')))
  }

  /** Postcondition of a product advance with a NULL owner that ends well: nothing was
      left, or it was the last query that had a result. */
  ghost predicate NullAdvance(before: seq<Snapshot>, after: seq<Snapshot>, joins: seq<AttrDef>, ok: bool) {
    && |before| == |after| == |joins|
    && (!ok ==> AllGone(before, after) && forall j :: 0 <= j < |joins| ==> NothingLeft(before[j], Factor(joins, j)))
    && (ok ==> |joins| > 0 && AllLive(after) && !NothingLeft(before[|joins| - 1], Factor(joins, |joins| - 1)))
  }

  ghost predicate NothingLeft(s: Snapshot, ads: seq<AttrDef>) {
    |s.views| == |ads| && Left(s.views, ads) == []
  }

  /** Digit `i` was turned to its next result `r`; the digits after it are
      spent, those before it untouched. */
  ghost predicate Turned(before: seq<Snapshot>, now: seq<Snapshot>, joins: seq<AttrDef>, values: seq<Datum>,
      d: Option<Datum>, key: Option<KeyTree>, now': Option<KeyTree>, i: nat, r: Datum, shown: bool)
  {
    && |before| == |now| == |joins| == |values| && i < |joins|
    && (forall j :: 0 <= j < |joins| ==> joins[j].Join?)
    && (forall j :: 0 <= j < i ==> now[j] == before[j] && SlotOf(now', j) == SlotOf(key, j))
    && (forall j :: i < j < |joins| ==> Gone(before[j], now[j]))
    && now[i].live && (before[i].safe ==> now[i].safe)
    && |before[i].views| == |now[i].views| == |Factor(joins, i)|
    && (var l := Left(before[i].views, Factor(joins, i));
        l != [] && r == l[0].datum && Left(now[i].views, Factor(joins, i)) == l[1..] && Curs(now[i].views) == l[0].keys)
    && (shown ==> ListHolds(Factor(joins, i), SlotOf(now', i), Curs(now[i].views)))
    && (d.Some? ==> (ProdLeft(before, joins, values, d.value)
                     == Ahead(ProdViews(before, joins, values, d.value), joins, |joins|, i + 1, None)))
  }

  /** The product may be advanced: its queries are in order, and with an owner, none
      of them is empty on it. */
  ghost predicate Advanceable(ss: seq<Snapshot>, joins: seq<AttrDef>, d: Option<Datum>) {
    && |ss| == |joins| && AllLive(ss)
    && (d.Some? ==> forall j :: 0 <= j < |joins| ==> ChainItems(Factor(joins, j), d.value) != [])
  }

  /** An advance ends well: without an owner, nothing must be left. */
  ghost predicate AdvanceTame(ss: seq<Snapshot>, joins: seq<AttrDef>, d: Option<Datum>) {
    && AllSafe(ss)
    && (d.Some? ==> AllTame(joins, d.value))
    && (d.None? ==> AllSpent(ss, joins))
  }

  /** The query holds its first result on `d`, the others are to come. */
  ghost predicate HoldsFirst(s: Snapshot, ads: seq<AttrDef>, d: Datum) {
    && s.live && |s.views| == |ads| && ChainItems(ads, d) != []
    && Left(s.views, ads) == ChainItems(ads, d)[1..]
    && (TameChain(ads, d) && SafeAfter(ads, d) ==> s.safe)
  }
}
