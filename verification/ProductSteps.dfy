/** Steps of the odometer: one query reset, one digit turned or spent, and what
    the rows are when it stops. */
module ProductSteps {
  import opened Denotation
  import opened Search
  import opened Conditions
  import opened Levels
  import opened Chains
  import opened Products

  lemma SnapsAre(chains: seq<seq<Query>>, joins: seq<AttrDef>)
    ensures forall j :: 0 <= j < |chains| ==>
              Snaps(chains, joins)[j] == Snap(chains[j], Factor(joins, j))
  {
    hide Snap, Factor;
  }

  lemma ApartAt(chains: seq<seq<Query>>, joins: seq<AttrDef>, i: nat)
    requires ProdOk(chains, joins) && i < |chains|
    ensures forall j :: 0 <= j < |chains| && j != i ==> Disjoint(chains[j], chains[i])
  {
    forall j | 0 <= j < |chains| && j != i
      ensures Disjoint(chains[j], chains[i])
    {
      assert if j < i then Disjoint(chains[j], chains[i]) else Disjoint(chains[i], chains[j]);
    }
  }

  lemma HeadOf(ns: seq<Query>, ads: seq<AttrDef>)
    requires ChainOk(ns, ads)
    ensures |ads| > 0
  {
  }

  lemma FactorMembers(chains: seq<seq<Query>>, joins: seq<AttrDef>)
    requires ProdOk(chains, joins)
    ensures forall j, n :: 0 <= j < |chains| && n in chains[j] ==> n in Foot(chains[j])
  {
    forall j, n | 0 <= j < |chains| && n in chains[j]
      ensures n in Foot(chains[j])
    {
      assert ChainOk(chains[j], joins[j].factor);
    }
  }

  lemma FactorResetEnds(ads: seq<AttrDef>, d: Datum, a: Snapshot, b: Snapshot, r: Option<Datum>)
    requires ResetDone(ads, d, a, b, r)
    ensures r == First(ads, d)
    ensures r.Some? ==> Fresh(b, ads, d, r.value)
    ensures r.None? ==> FailedOn(a, b, ads, d)
  {
    hide Left, TameChain, SafeAfter, TrapFreeChain, SettlesChain, TidyChain, ResetLogs;
  }

  lemma SlotListFits(joins: seq<AttrDef>, key: Option<KeyTree>, i: nat, strict: bool)
    requires ListFits(joins, key, strict) && i < |joins| && joins[i].Join?
    ensures SlotOf(key, i).Some? == key.Some? && ListFits(Factor(joins, i), SlotOf(key, i), strict)
  {
    if key.Some? { assert Fits(joins[i], key.value.items[i], strict); }
  }

  lemma WithSlotFits(joins: seq<AttrDef>, key: Option<KeyTree>, i: nat, slot: Option<KeyTree>, strict: bool)
    requires ListFits(joins, key, strict) && i < |joins| && joins[i].Join?
    requires slot.Some? == key.Some? && ListFits(Factor(joins, i), slot, strict)
    ensures WithSlot(key, i, slot).Some? == key.Some? && ListFits(joins, WithSlot(key, i, slot), strict)
    ensures SlotOf(WithSlot(key, i, slot), i) == slot
    ensures forall j: nat :: j != i ==> SlotOf(WithSlot(key, i, slot), j) == SlotOf(key, j)
  {
  }

  lemma ResetOneMore(joins: seq<AttrDef>, d: Datum, from: nat, i: nat, before: seq<Snapshot>, mid: seq<Snapshot>,
      after: seq<Snapshot>,
      values: seq<Datum>, values': seq<Datum>, key: Option<KeyTree>, key': Option<KeyTree>, r: Datum)
    requires ResetSoFar(joins, d, from, i, before, mid, values, key) && i < |joins|
    requires OnlyAt(mid, after, i) && values' == values[i := r]
    requires Fresh(after[i], Factor(joins, i), d, r)
             && ListHolds(Factor(joins, i), SlotOf(key', i), Curs(after[i].views))
    requires forall j: nat :: j != i ==> SlotOf(key', j) == SlotOf(key, j)
    ensures ResetSoFar(joins, d, from, i + 1, before, after, values', key')
  {
    hide Fresh, ListHolds, Factor, SlotOf;
  }

  lemma ProdLength(chains: seq<seq<Query>>, joins: seq<AttrDef>)
    requires ProdOk(chains, joins)
    ensures |chains| == |joins|
    ensures forall j :: 0 <= j < |joins| ==> joins[j].Join?
    ensures forall qs: seq<Query> :: Heads(qs, chains) ==> |qs| == |chains|
    ensures forall j :: 0 <= j < |chains| ==> Foot(chains[j]) <= ProdFoot(chains) && Bufs(chains[j]) <= ProdBufs(chains)
  {
  }

  lemma SnapAt(chains: seq<seq<Query>>, joins: seq<AttrDef>, i: nat)
    requires i < |chains|
    ensures Snaps(chains, joins)[i] == Snap(chains[i], Factor(joins, i))
    ensures Snaps(chains, joins)[i].views == Views(chains[i])
  {
  }

  lemma ResetNone(joins: seq<AttrDef>, d: Datum, from: nat, before: seq<Snapshot>, values: seq<Datum>,
      key: Option<KeyTree>)
    requires from <= |joins| == |before| == |values|
    ensures ResetSoFar(joins, d, from, from, before, before, values, key) && SameSlots(key, key, from)
  {
  }

  lemma SameSlotsTrans(key: Option<KeyTree>, mid: Option<KeyTree>, key': Option<KeyTree>, from: nat)
    requires SameSlots(key, mid, from) && SameSlots(mid, key', from)
    ensures SameSlots(key, key', from)
  {
  }

  lemma ResetSoFarBounds(joins: seq<AttrDef>, d: Datum, from: nat, i: nat, before: seq<Snapshot>, after: seq<Snapshot>,
      values: seq<Datum>, key: Option<KeyTree>)
    requires ResetSoFar(joins, d, from, i, before, after, values, key)
    ensures from <= i && SameSlots(key, key, from)
  {
  }

  lemma SameButOne(key: Option<KeyTree>, was: Option<KeyTree>, key': Option<KeyTree>, from: nat, i: nat)
    requires SameSlots(key, was, from) && from <= i
    requires forall j: nat :: j != i ==> SlotOf(key', j) == SlotOf(was, j)
    ensures SameSlots(key, key', from)
  {
  }

  lemma HeadsAt(qs: seq<Query>, chains: seq<seq<Query>>, joins: seq<AttrDef>, i: nat)
    requires Heads(qs, chains) && ProdOk(chains, joins) && i < |chains|
    ensures |qs| == |chains| == |joins| && chains[i] != [] && qs[i] == chains[i][0]
    ensures |Views(chains[i])| == |Factor(joins, i)|
  {
    assert ChainOk(chains[i], Factor(joins, i));
  }

  lemma FactorFails(chains: seq<seq<Query>>, joins: seq<AttrDef>, d: Datum, i: nat, mid: seq<Snapshot>)
    requires i < |chains| && OnlyAt(mid, Snaps(chains, joins), i)
    requires FailedOn(mid[i], Snaps(chains, joins)[i], Factor(joins, i), d)
    ensures FailedAt(mid, Snaps(chains, joins), joins, d, i)
  {
    hide FailedOn;
  }

  lemma KeysParts(ads: seq<AttrDef>, shown: bool, curs: seq<KeyTree>, key: Option<KeyTree>, key': Option<KeyTree>,
      strict: bool)
    requires KeysDone(ads, shown, curs, key, key', strict)
    ensures key'.Some? == key.Some? && ListFits(ads, key', strict)
    ensures shown ==> ListHolds(ads, key', curs)
  {
  }

  /** The first empty query, once those before it were reset with success. */
  lemma FirstEmptyHere(joins: seq<AttrDef>, d: Datum, from: nat, i: nat)
    requires from <= i < |joins| && ChainItems(Factor(joins, i), d) == []
    requires forall j :: from <= j < i ==> ChainItems(Factor(joins, j), d) != []
    ensures FirstEmpty(joins, d, from) == i
  {
    hide ChainItems;
  }

  lemma ResetFails(joins: seq<AttrDef>, d: Datum, from: nat, i: nat, before: seq<Snapshot>, mid: seq<Snapshot>,
      after: seq<Snapshot>, values: seq<Datum>, key: Option<KeyTree>)
    requires ResetSoFar(joins, d, from, i, before, mid, values, key) && i < |joins|
    requires FailedAt(mid, after, joins, d, i)
    ensures ResetFailed(before, after, joins, d, from)
  {
    hide Left, ChainItems, TameChain, SafeAfter, TrapFreeChain, SettlesChain, TidyChain, ListHolds, Factor, Fewer;
    FreshNotEmpty(joins, d, from, i, before, mid, values, key);
    FirstEmptyHere(joins, d, from, i);
    forall j | from <= j < i
      ensures Fresh(after[j], Factor(joins, j), d, FirstDatum(joins, d, j))
    {
      assert Fresh(mid[j], Factor(joins, j), d, values[j]);
    }
  }

  /** What was reset with success is not empty. */
  lemma FreshNotEmpty(joins: seq<AttrDef>, d: Datum, from: nat, i: nat, before: seq<Snapshot>, now: seq<Snapshot>,
      values: seq<Datum>, key: Option<KeyTree>)
    requires ResetSoFar(joins, d, from, i, before, now, values, key)
    ensures forall j :: from <= j < i ==> ChainItems(Factor(joins, j), d) != []
  {
    hide Left, ListHolds;
    forall j | from <= j < i
      ensures ChainItems(Factor(joins, j), d) != []
    {
      assert Fresh(now[j], Factor(joins, j), d, values[j]);
    }
  }

  /** The query that is reset next is tame. */
  lemma NextTame(joins: seq<AttrDef>, d: Datum, from: nat, i: nat, before: seq<Snapshot>, now: seq<Snapshot>,
      values: seq<Datum>, key: Option<KeyTree>)
    requires ResetSoFar(joins, d, from, i, before, now, values, key) && i < |joins|
    ensures ResetTame(joins, d, from) ==> TameChain(Factor(joins, i), d)
  {
    hide ChainItems, Fresh, ListHolds, TameChain;
    FreshNotEmpty(joins, d, from, i, before, now, values, key);
    NotBefore(joins, d, from, i);
  }

  lemma ProductTameParts(joins: seq<AttrDef>, d: Datum)
    ensures ProductTame(joins, d) ==> ResetTame(joins, d, 0)
  {
  }

  lemma NotBefore(joins: seq<AttrDef>, d: Datum, from: nat, i: nat)
    requires from <= i <= |joins| && forall j :: from <= j < i ==> ChainItems(Factor(joins, j), d) != []
    ensures i <= FirstEmpty(joins, d, from)
  {
    hide ChainItems;
  }

  /** When all queries from `m` on are fresh, the row in hand comes first. */
  lemma {:induction false} FreshSuffix(ss: seq<Snapshot>, joins: seq<AttrDef>, values: seq<Datum>, d: Datum, m: nat)
    requires |ss| == |joins| == |values| && m <= |joins|
    requires forall j :: 0 <= j < |joins| ==> joins[j].Join?
    requires forall j :: m <= j < |joins| ==> Fresh(ss[j], Factor(joins, j), d, values[j])
    ensures var vs := ProdViews(ss, joins, values, d);
            Ahead(vs, joins, |joins|, m, Some(Row(d, values[..m])))
                == [Path(Curs(vs), Row(d, values))] + Left(vs, joins)
    decreases |joins| - m
  {
    var vs := ProdViews(ss, joins, values, d);
    if m == |joins| {
      assert values[..m] == values;
      LeafStep(vs, joins, Row(d, values));
    } else {
      var ps := ChainItems(Factor(joins, m), d);
      var row := Row(d, values[..m]);
      assert LevelItems(joins[m], row) == JoinItems(row, ps);
      assert JoinItems(row, ps)[1..] == JoinItems(row, ps[1..]);
      assert values[..m] + [values[m]] == values[..m+1];
      DescendStep(vs, vs, joins, |joins|, m, row);
      FreshSuffix(ss, joins, values, d, m + 1);
    }
  }

  /** After a full product reset: the product of all queries is ahead. */
  lemma FreshProduct(ss: seq<Snapshot>, joins: seq<AttrDef>, values: seq<Datum>, d: Datum)
    requires |ss| == |joins| == |values|
    requires forall j :: 0 <= j < |joins| ==> joins[j].Join?
    requires forall j :: 0 <= j < |joins| ==> Fresh(ss[j], Factor(joins, j), d, values[j])
    ensures var vs := ProdViews(ss, joins, values, d);
            ChainItems(joins, Row(d, [])) == [Path(Curs(vs), Row(d, values))] + Left(vs, joins)
  {
    FreshSuffix(ss, joins, values, d, 0);
    assert values[..0] == [];
    Root(ProdViews(ss, joins, values, d), joins, Row(d, []));
    assert Table(ProdViews(ss, joins, values, d), joins, 0, Some(Row(d, [])))[|joins|] == ChainItems(joins, Row(d, []));
  }

  /** Query `i` advanced and all queries after it were reset. */
  lemma AdvanceEnds(before: seq<Snapshot>, after: seq<Snapshot>, joins: seq<AttrDef>, values: seq<Datum>,
      values': seq<Datum>, d: Datum, i: nat)
    requires |before| == |after| == |joins| == |values| == |values'| && i < |joins|
    requires forall j :: 0 <= j < |joins| ==> joins[j].Join?
    requires forall j :: 0 <= j < i ==> after[j] == before[j]
    requires values'[..i] == values[..i]
    requires |before[i].views| == |after[i].views| == |Factor(joins, i)|
    requires var l := Left(before[i].views, Factor(joins, i));
             l != [] && values'[i] == l[0].datum && Left(after[i].views, Factor(joins, i)) == l[1..]
                 && Curs(after[i].views) == l[0].keys
    requires forall j :: i < j < |joins| ==> Fresh(after[j], Factor(joins, j), d, values'[j])
    ensures var vs, ws := ProdViews(before, joins, values, d), ProdViews(after, joins, values', d);
            Ahead(vs, joins, |joins|, i + 1, None) == [Path(Curs(ws), Row(d, values'))] + Left(ws, joins)
  {
    hide Left, Ahead, Fresh, ProdViews, Curs;
    var vs, ws := ProdViews(before, joins, values, d), ProdViews(after, joins, values', d);
    DigitTurned(before, after, joins, values, values', d, i);
    YieldStep(vs, ws, joins, |joins|, i);
    FreshSuffix(after, joins, values', d, i + 1);
  }

  /** The levels of the product before and after digit `i` was turned. */
  lemma DigitTurned(before: seq<Snapshot>, after: seq<Snapshot>, joins: seq<AttrDef>, values: seq<Datum>,
      values': seq<Datum>, d: Datum, i: nat)
    requires |before| == |after| == |joins| == |values| == |values'| && i < |joins|
    requires forall j :: 0 <= j < i ==> after[j] == before[j]
    requires values'[..i] == values[..i]
    requires |before[i].views| == |after[i].views| == |Factor(joins, i)|
    requires var l := Left(before[i].views, Factor(joins, i));
             && l != [] && values'[i] == l[0].datum && Left(after[i].views, Factor(joins, i)) == l[1..]
             && Curs(after[i].views) == l[0].keys
    ensures var vs, ws := ProdViews(before, joins, values, d), ProdViews(after, joins, values', d);
            && SameUpTo(vs, ws, i) && vs[i].rest != [] && ws[i].rest == vs[i].rest[1..]
               && ws[i].cur == vs[i].rest[0].key
            && vs[i].rest[0].datum == Row(d, values'[..i+1])
  {
    hide Left;
    var vs, ws := ProdViews(before, joins, values, d), ProdViews(after, joins, values', d);
    var l := Left(before[i].views, Factor(joins, i));
    var row := Row(d, values[..i]);
    assert vs[i].rest == JoinItems(row, l);
    assert ws[i].rest == JoinItems(row, l[1..]) == vs[i].rest[1..];
    assert values'[..i] + [values'[i]] == values'[..i+1];
    forall j | 0 <= j < i
      ensures vs[j] == ws[j]
    {
      assert values'[..j] == values'[..i][..j] == values[..i][..j] == values[..j];
    }
  }

  lemma FactorGetEnds(ads: seq<AttrDef>, a: Snapshot, b: Snapshot, r: Option<Datum>)
    requires GetDone(ads, a, b, r)
    ensures |a.views| == |ads| == |b.views| && b.live && (r.Some? <==> Left(a.views, ads) != [])
    ensures r.None? ==> Gone(a, b)
    ensures r.Some? ==>
              && r == Some(Left(a.views, ads)[0].datum)
              && Left(b.views, ads) == Left(a.views, ads)[1..]
              && Curs(b.views) == Left(a.views, ads)[0].keys
              && (a.safe ==> b.safe)
  {
    hide Left, GetLogs, AllHarmless;
  }

  lemma SpentOne(before: seq<Snapshot>, now: seq<Snapshot>, after: seq<Snapshot>, joins: seq<AttrDef>,
      values: seq<Datum>, d: Option<Datum>, key: Option<KeyTree>, now': Option<KeyTree>, after': Option<KeyTree>,
      i: nat)
    requires i < |joins| && SpentFrom(before, now, joins, values, d, key, now', i + 1)
    requires OnlyAt(now, after, i) && Gone(now[i], after[i])
    requires forall j: nat :: j != i ==> SlotOf(after', j) == SlotOf(now', j)
    requires Left(before[i].views, Factor(joins, i)) == []
    ensures SpentFrom(before, after, joins, values, d, key, after', i)
  {
    if d.Some? {
      var vs := ProdViews(before, joins, values, d.value);
      assert vs[i].rest == [];
      ExhaustedStep(vs, joins, |joins|, i);
    }
    hide Left, Ahead, ProdViews, SlotOf, Factor;
  }

  lemma AdvanceBegins(ss: seq<Snapshot>, joins: seq<AttrDef>, values: seq<Datum>, d: Option<Datum>,
      key: Option<KeyTree>)
    requires |ss| == |joins| == |values|
    requires forall j :: 0 <= j < |joins| ==> joins[j].Join? && |ss[j].views| == |Factor(joins, j)|
    ensures SpentFrom(ss, ss, joins, values, d, key, key, |joins|)
  {
  }

  lemma SnapLengths(chains: seq<seq<Query>>, joins: seq<AttrDef>)
    requires ProdOk(chains, joins)
    ensures |Snaps(chains, joins)| == |joins|
    ensures forall j :: 0 <= j < |joins| ==> |Snaps(chains, joins)[j].views| == |Factor(joins, j)|
  {
    hide Snap;
    forall j | 0 <= j < |joins|
      ensures |Snaps(chains, joins)[j].views| == |Factor(joins, j)|
    {
      assert ChainOk(chains[j], Factor(joins, j));
      SnapAt(chains, joins, j);
    }
  }

  lemma QueryReady(chains: seq<seq<Query>>, joins: seq<AttrDef>, before: seq<Snapshot>, values: seq<Datum>,
      d: Option<Datum>, key: Option<KeyTree>, now': Option<KeyTree>, i: nat, shown: bool)
    requires ProdOk(chains, joins) && Advanceable(before, joins, d) && i < |joins|
    requires SpentFrom(before, Snaps(chains, joins), joins, values, d, key, now', i + 1)
    requires shown ==> AllShown(before, joins, key)
    ensures Snaps(chains, joins)[i] == before[i] && before[i].live
    ensures |before| == |joins| && |before[i].views| == |Factor(joins, i)|
    ensures shown ==> ListHolds(Factor(joins, i), SlotOf(now', i), Curs(before[i].views))
  {
    hide ListHolds, ProdLeft, ProdViews, Left, Gone;
  }

  lemma AllSafeAt(ss: seq<Snapshot>, i: nat)
    requires i < |ss|
    ensures AllSafe(ss) ==> ss[i].safe
  {
  }

  lemma AdvanceTameParts(ss: seq<Snapshot>, joins: seq<AttrDef>, d: Option<Datum>)
    requires |ss| == |joins| && Advanceable(ss, joins, d)
    ensures AdvanceTame(ss, joins, d) ==> AllSafe(ss)
    ensures AllLive(ss)
    ensures AdvanceTame(ss, joins, d) && d.Some? ==> forall i: nat :: i <= |joins| ==> ResetTame(joins, d.value, i)
  {
    hide TameChain, SafeAfter, ChainItems;
  }

  lemma AdvanceEmpty(before: seq<Snapshot>, now: seq<Snapshot>, joins: seq<AttrDef>, values: seq<Datum>,
      d: Option<Datum>, key: Option<KeyTree>, now': Option<KeyTree>, shown: bool)
    requires SpentFrom(before, now, joins, values, d, key, now', 0)
    ensures d.Some? ==> AdvanceDone(before, now, joins, values, values, d.value, now', shown, false)
    ensures d.None? ==> NullAdvance(before, now, joins, false)
  {
    hide Gone, Left, AllTame, AllShown;
  }

  lemma TurnOne(before: seq<Snapshot>, now: seq<Snapshot>, after: seq<Snapshot>, joins: seq<AttrDef>,
      values: seq<Datum>, d: Option<Datum>, key: Option<KeyTree>, now': Option<KeyTree>, after': Option<KeyTree>,
      i: nat,
      r: Datum, shown: bool)
    requires i < |joins| && SpentFrom(before, now, joins, values, d, key, now', i + 1)
    requires OnlyAt(now, after, i) && after[i].live && (now[i].safe ==> after[i].safe)
    requires forall j: nat :: j != i ==> SlotOf(after', j) == SlotOf(now', j)
    requires |before[i].views| == |after[i].views| == |Factor(joins, i)|
    requires var l := Left(before[i].views, Factor(joins, i));
             l != [] && r == l[0].datum && Left(after[i].views, Factor(joins, i)) == l[1..]
                 && Curs(after[i].views) == l[0].keys
    requires shown ==> ListHolds(Factor(joins, i), SlotOf(after', i), Curs(after[i].views))
    ensures Turned(before, after, joins, values, d, key, after', i, r, shown)
  {
    hide ListHolds, SlotOf, Ahead, ProdViews, Left, Gone;
  }

  lemma AdvanceShown(before: seq<Snapshot>, mid: seq<Snapshot>, after: seq<Snapshot>, joins: seq<AttrDef>,
      values: seq<Datum>, values': seq<Datum>, d: Datum,
      key: Option<KeyTree>, mid': Option<KeyTree>, key': Option<KeyTree>, i: nat, r: Datum, shown: bool)
    requires Turned(before, mid, joins, values, Some(d), key, mid', i, r, shown) && Advanceable(before, joins, Some(d))
    requires ResetSoFar(joins, d, i + 1, |joins|, mid, after, values', key') && SameSlots(mid', key', i + 1)
    requires shown ==> AllShown(before, joins, key)
    ensures AllLive(after) && (shown ==> AllShown(after, joins, key'))
    ensures AllSafe(before) && AllTame(joins, d) ==> AllSafe(after)
  {
    hide ListHolds, SlotOf, Left, ProdViews, ProdLeft, Ahead, TameChain, SafeAfter, ChainItems, TidyChain;
    forall j | 0 <= j < |joins|
      ensures after[j].live
      ensures shown ==> ListHolds(Factor(joins, j), SlotOf(key', j), Curs(after[j].views))
      ensures AllSafe(before) && AllTame(joins, d) ==> after[j].safe
    {
      if j < i {
        assert after[j] == before[j] && SlotOf(key', j) == SlotOf(key, j);
      }
    }
  }

  /** With a NULL owner only the last query can be turned. */
  lemma NullTurned(before: seq<Snapshot>, after: seq<Snapshot>, joins: seq<AttrDef>, values: seq<Datum>,
      key: Option<KeyTree>, key': Option<KeyTree>, r: Datum, shown: bool)
    requires |joins| > 0 && Turned(before, after, joins, values, None, key, key', |joins| - 1, r, shown)
    requires AllLive(before)
    ensures NullAdvance(before, after, joins, true)
  {
    hide ListHolds, SlotOf, Left;
  }

  /** A turned digit had something left. */
  lemma TurnedTrap(before: seq<Snapshot>, after: seq<Snapshot>, joins: seq<AttrDef>, values: seq<Datum>, i: nat,
      key: Option<KeyTree>, key': Option<KeyTree>, r: Datum, shown: bool)
    requires Turned(before, after, joins, values, None, key, key', i, r, shown)
    ensures !AdvanceTame(before, joins, None)
  {
    hide ListHolds, SlotOf, Left;
  }

  lemma ProdCurs(ss: seq<Snapshot>, joins: seq<AttrDef>, values: seq<Datum>, d: Datum)
    requires |ss| == |joins| == |values|
    ensures Curs(ProdViews(ss, joins, values, d)) == ProdKeys(ss)
  {
  }

  lemma AdvanceFound(before: seq<Snapshot>, mid: seq<Snapshot>, after: seq<Snapshot>, joins: seq<AttrDef>,
      values: seq<Datum>, mids: seq<Datum>, values': seq<Datum>, d: Datum,
      key: Option<KeyTree>, mid': Option<KeyTree>, key': Option<KeyTree>, i: nat, r: Datum, shown: bool)
    requires Turned(before, mid, joins, values, Some(d), key, mid', i, r, shown) && Advanceable(before, joins, Some(d))
    requires mids == values[i := r]
    requires ResetSoFar(joins, d, i + 1, |joins|, mid, after, values', key') && values'[..i+1] == mids[..i+1]
             && SameSlots(mid', key', i + 1)
    requires shown ==> AllShown(before, joins, key)
    ensures AdvanceDone(before, after, joins, values, values', d, key', shown, true)
  {
    AdvanceShown(before, mid, after, joins, values, values', d, key, mid', key', i, r, shown);
    hide ListHolds, SlotOf, Fresh, AllLive, AllShown, AllSafe, AllTame;
    assert values'[..i] == mids[..i+1][..i] == values[..i];
    assert values'[i] == mids[..i+1][i] == r;
    AdvanceEnds(before, after, joins, values, values', d, i);
    hide Left, ProdViews, FactorView;
    ProdCurs(after, joins, values', d);
  }

  /** No reset of a suffix fails in the course of a run. */
  lemma SuffixNotEmpty(ss: seq<Snapshot>, joins: seq<AttrDef>, d: Datum, from: nat, before: seq<Snapshot>,
      after: seq<Snapshot>)
    requires Advanceable(ss, joins, Some(d)) && from <= |joins|
    ensures !ResetFailed(before, after, joins, d, from)
  {
    hide ChainItems, FailedOn, Fresh;
  }
}
