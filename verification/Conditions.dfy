/** Conditions on a query and its data under which the engine is defined, and
    the fit between a tree of keys and a query. */
module Conditions {
  import opened Denotation

  /** The filter loop that follows a product reset stops: no row on which the
      filter gives no value comes before the first accepted row. */
  predicate NoStall(ps: seq<Path>, filter: seq<AttrDef>, truth: Datum -> bool)
    decreases |ps|
  {
    ps == [] ||
    match Verdict(filter, truth, ps[0].datum)
    case None => false
    case Some(accepted) => accepted || NoStall(ps[1..], filter, truth)
  }

  /** The filter loop of a reset on `d` stops, if the level is a bound compound. */
  predicate Ends(ad: AttrDef, d: Datum) {
    ad.Bound? ==> NoStall(ChainItems(ad.joins, Row(d, [])), ad.filter, ad.truth)
  }

  /** A reset of the level on `d` ends well, and so does every later yield.  Of a
      product, only the queries up to the first empty one are reset. */
  ghost predicate TameLevel(ad: AttrDef, d: Datum)
    decreases ad, 0
  {
    match ad
    case Collection(_, _) => true
    case Scalar(_, _) => true
    case Fwd(sub) => TameChain(sub, d) && SafeAfter(sub, d)
    case Filter(query, _) => TameChain(query, d)
    case Join(_) => true
    case Bound(joins, filter, truth) =>
      var rows := ChainItems(joins, Row(d, []));
      && (forall j :: 0 <= j < |joins| && j <= FirstEmpty(joins, d, 0) && joins[j].Join? ==>
         TameChain(joins[j].factor, d))
      && (forall j :: 0 <= j < |joins| == FirstEmpty(joins, d, 0) && joins[j].Join? ==> SafeAfter(joins[j].factor, d))
      && (forall i :: 0 <= i < |rows| ==> TameChain(filter, rows[i].datum))
      && NoStall(rows, filter, truth)
  }

  /** A reset of the chain on `d` ends well.  This is about the data up to the first
      result. */
  ghost predicate TameChain(ads: seq<AttrDef>, d: Datum)
    decreases ads, 1
  {
    ads == [] || (TameLevel(ads[0], d) && TameItems(LevelItems(ads[0], d), ads[1..]))
  }

  /** As `TameChain`, for a level that still has the items to try. */
  ghost predicate TameItems(items: seq<Item>, ads: seq<AttrDef>)
    decreases ads, 2, |items|
  {
    items != [] ==>
      && TameChain(ads, items[0].datum)
      && (ChainItems(ads, items[0].datum) == [] ==> TameItems(items[1..], ads))
  }

  /** Gets that come down to the chain with `d` end well: every level may fail
      there, and is yielded right after. */
  ghost predicate GetTame(ads: seq<AttrDef>, d: Datum)
    decreases ads, 1
  {
    ads == [] ||
    (&& TameLevel(ads[0], d) && TrapFree(ads[0], d)
     && forall x :: 0 <= x < |LevelItems(ads[0], d)| ==> GetTame(ads[1..], LevelItems(ads[0], d)[x].datum))
  }

  /** Gets that follow a reset on `d` end well.  This is about the data after the
      first result; there are none if there is no result. */
  ghost predicate SafeAfter(ads: seq<AttrDef>, d: Datum)
    decreases ads, 2, 0
  {
    ads != [] ==> SafeItems(LevelItems(ads[0], d), ads[1..])
  }

  /** As `SafeAfter`, for a level that still has the items to try. */
  ghost predicate SafeItems(items: seq<Item>, ads: seq<AttrDef>)
    decreases ads, 3, |items|
  {
    items != [] ==>
      if ChainItems(ads, items[0].datum) == [] then SafeItems(items[1..], ads)
      else
        && SafeAfter(ads, items[0].datum)
        && forall x :: 1 <= x < |items| ==> GetTame(ads, items[x].datum)
  }

  /** No bound compound anywhere: nothing is asked of the data. */
  predicate BoundFreeLevel(ad: AttrDef)
    decreases ad, 0
  {
    match ad
    case Collection(_, _) => true
    case Scalar(_, _) => true
    case Fwd(sub) => BoundFree(sub)
    case Filter(query, _) => BoundFree(query)
    case Join(factor) => BoundFree(factor)
    case Bound(_, _, _) => false
  }

  predicate BoundFree(ads: seq<AttrDef>)
    decreases ads, 1
  {
    ads == [] || (BoundFreeLevel(ads[0]) && BoundFree(ads[1..]))
  }

  lemma OneBoundFree(ad: AttrDef)
    ensures BoundFree([ad]) <==> BoundFreeLevel(ad)
  {
    assert [ad][1..] == [];
  }

  lemma {:induction false} BoundFreeAt(ads: seq<AttrDef>, i: nat)
    requires BoundFree(ads) && i < |ads|
    ensures BoundFreeLevel(ads[i])
    decreases |ads|
  {
    if i > 0 { BoundFreeAt(ads[1..], i - 1); }
  }

  lemma {:induction false} BoundFreeDrop(ads: seq<AttrDef>, i: nat)
    requires BoundFree(ads) && i <= |ads|
    ensures BoundFree(ads[i..])
    decreases |ads|
  {
    if i > 0 {
      BoundFreeDrop(ads[1..], i - 1);
      assert ads[1..][i-1..] == ads[i..];
    } else {
      assert ads[0..] == ads;
    }
  }

  /** A query ahead of the first empty one of a product has a second result. */
  predicate SecondResult(joins: seq<AttrDef>, d: Datum) {
    exists j :: 0 <= j < FirstEmpty(joins, d, 0) && |ChainItems(Factor(joins, j), d)| > 1
  }

  /** A reset of a depleted level that fails on `d` may be followed by a yield: if a
      product is empty, the queries ahead of the first empty one have no second
      result. */
  ghost predicate TrapFree(ad: AttrDef, d: Datum)
    decreases ad, 0
  {
    match ad
    case Collection(_, _) => true
    case Scalar(_, _) => true
    case Fwd(sub) => ChainItems(sub, d) == [] ==> TrapFreeChain(sub, d)
    case Filter(_, _) => true
    case Join(_) => true
    case Bound(joins, _, _) =>
      var e := FirstEmpty(joins, d, 0);
      e < |joins| && joins[e].Join? ==>
        && !SecondResult(joins, d)
        && (forall j :: 0 <= j < e && joins[j].Join? ==> SafeAfter(joins[j].factor, d))
        && TrapFreeChain(joins[e].factor, d)
  }

  /** As `TrapFree` for a whole chain: a get may follow its failed reset.  Levels
      below the first one may fail repeatedly on the way. */
  ghost predicate TrapFreeChain(ads: seq<AttrDef>, d: Datum)
    decreases ads, 1
  {
    ads != [] ==> TrapFree(ads[0], d) && SettlesNext(ads, d)
  }

  /** A reset with a result on `d` leaves a level that may be reset again without
      one: a bound compound has a single row, and stays on it. */
  ghost predicate Tidy(ad: AttrDef, d: Datum)
    decreases ad, 0
  {
    BoundFreeLevel(ad) ||
    (&& |LevelItems(ad, d)| <= 1
     && match ad
        case Fwd(sub) => TidyChain(sub, d)
        case Bound(joins, _, _) =>
          forall j :: 0 <= j < |joins| ==>
            |ChainItems(Factor(joins, j), d)| <= 1 && (joins[j].Join? ==> TidyChain(joins[j].factor, d))
        case _ => true)
  }

  ghost predicate TidyChain(ads: seq<AttrDef>, d: Datum)
    decreases ads, 1
  {
    ads != [] ==>
      && Tidy(ads[0], d)
      && forall x :: 0 <= x < |LevelItems(ads[0], d)| ==> TidyChain(ads[1..], LevelItems(ads[0], d)[x].datum)
  }

  /** A chain without bound compounds is tidy on every datum. */
  lemma {:induction false} BoundFreeTidy(ads: seq<AttrDef>, d: Datum)
    requires BoundFree(ads)
    ensures TidyChain(ads, d)
    decreases |ads|
  {
    if ads != [] {
      forall x | 0 <= x < |LevelItems(ads[0], d)|
        ensures TidyChain(ads[1..], LevelItems(ads[0], d)[x].datum)
      {
        BoundFreeTidy(ads[1..], LevelItems(ads[0], d)[x].datum);
      }
    }
  }

  /** A failed reset on `d` leaves a level from which another reset may fail: if
      a product is empty, the queries ahead of the first empty one have no
      second result and are tidy. */
  ghost predicate Settles(ad: AttrDef, d: Datum)
    decreases ad, 0
  {
    match ad
    case Collection(_, _) => true
    case Scalar(_, _) => true
    case Fwd(sub) => ChainItems(sub, d) == [] ==> SettlesChain(sub, d)
    case Filter(_, _) => true
    case Join(_) => true
    case Bound(joins, _, _) =>
      var e := FirstEmpty(joins, d, 0);
      e < |joins| && joins[e].Join? ==>
        && !SecondResult(joins, d)
        && (forall j :: 0 <= j < e && joins[j].Join? ==>
              TidyChain(joins[j].factor, d) && SafeAfter(joins[j].factor, d))
        && SettlesChain(joins[e].factor, d)
  }

  ghost predicate SettlesChain(ads: seq<AttrDef>, d: Datum)
    decreases ads, 1
  {
    ads != [] ==> Settles(ads[0], d) && SettlesNext(ads, d)
  }

  ghost predicate SettlesNext(ads: seq<AttrDef>, d: Datum)
    requires ads != []
    decreases ads, 0
  {
    forall x :: 0 <= x < |LevelItems(ads[0], d)| ==> SettlesChain(ads[1..], LevelItems(ads[0], d)[x].datum)
  }

  lemma {:induction false} SettlesTrapFree(ad: AttrDef, d: Datum)
    requires Settles(ad, d)
    ensures TrapFree(ad, d)
    decreases ad, 0
  {
    match ad
    case Collection(_, _) =>
    case Scalar(_, _) =>
    case Fwd(sub) => if ChainItems(sub, d) == [] { SettlesTrapFreeChain(sub, d); }
    case Filter(_, _) =>
    case Join(_) =>
    case Bound(joins, _, _) =>
      var e := FirstEmpty(joins, d, 0);
      if e < |joins| && joins[e].Join? { SettlesTrapFreeChain(joins[e].factor, d); }
  }

  /** Where resets may fail repeatedly, a get may follow. */
  lemma {:induction false} SettlesTrapFreeChain(ads: seq<AttrDef>, d: Datum)
    requires SettlesChain(ads, d)
    ensures TrapFreeChain(ads, d)
    decreases ads, 1
  {
    if ads != [] { SettlesTrapFree(ads[0], d); }
  }

  lemma {:induction false} AllTameItems(items: seq<Item>, ads: seq<AttrDef>)
    requires forall x :: 0 <= x < |items| ==> TameChain(ads, items[x].datum)
    ensures TameItems(items, ads)
    decreases |items|
  {
    if items != [] { AllTameItems(items[1..], ads); }
  }

  /** What ends well in the course of gets ends well from the start. */
  lemma {:induction false} GetTameChain(ads: seq<AttrDef>, d: Datum)
    requires GetTame(ads, d)
    ensures TameChain(ads, d) && SafeAfter(ads, d)
    decreases ads, 0
  {
    if ads != [] { GetTameItems(LevelItems(ads[0], d), ads[1..]); }
  }

  lemma {:induction false} GetTameItems(items: seq<Item>, ads: seq<AttrDef>)
    requires forall x :: 0 <= x < |items| ==> GetTame(ads, items[x].datum)
    ensures TameItems(items, ads) && SafeItems(items, ads)
    decreases ads, |items| + 1
  {
    if items != [] {
      GetTameChain(ads, items[0].datum);
      GetTameItems(items[1..], ads);
    }
  }

  lemma {:induction false} BoundFreeTameLevel(ad: AttrDef, d: Datum)
    requires BoundFreeLevel(ad)
    ensures TameLevel(ad, d) && TrapFree(ad, d) && Settles(ad, d)
    decreases ad, 0
  {
    match ad
    case Collection(_, _) =>
    case Scalar(_, _) =>
    case Fwd(sub) =>
      BoundFreeTame(sub, d);
      SettlesTrapFreeChain(sub, d);
    case Filter(query, _) => BoundFreeTame(query, d);
    case Join(_) =>
  }

  /** A chain without bound compounds is tame on every datum. */
  lemma {:induction false} BoundFreeTame(ads: seq<AttrDef>, d: Datum)
    requires BoundFree(ads)
    ensures TameChain(ads, d) && SafeAfter(ads, d) && GetTame(ads, d) && SettlesChain(ads, d)
    decreases ads, 1
  {
    if ads != [] {
      BoundFreeTameLevel(ads[0], d);
      forall x | 0 <= x < |LevelItems(ads[0], d)|
        ensures GetTame(ads[1..], LevelItems(ads[0], d)[x].datum)
        ensures SettlesChain(ads[1..], LevelItems(ads[0], d)[x].datum)
      {
        BoundFreeTame(ads[1..], LevelItems(ads[0], d)[x].datum);
      }
    }
    GetTameChain(ads, d);
  }

  /** Levels that never write to their slot of the key list. */
  predicate Silent(ad: AttrDef) {
    match ad
    case Collection(code, _) => code == 0
    case Scalar(code, _) => code == 0
    case Fwd(_) => false
    case Filter(_, _) => true
    case Join(_) => false
    case Bound(_, _, _) => false
  }

  predicate SilentChain(ads: seq<AttrDef>) {
    forall i :: 0 <= i < |ads| ==> Silent(ads[i])
  }

  /** The key can be handed to the level.  With `strict` it has the very shape
      that is reserved for the level; otherwise slots that are never written
      may be anything.  A bound compound hands its own key list to its filter
      query, which must therefore be silent and no deeper than that list. */
  predicate Fits(ad: AttrDef, key: KeyTree, strict: bool)
    decreases ad, 0
  {
    match ad
    case Collection(code, _) =>
      if code == 0 then strict ==> key == NoKey else key.KeyDatum? && key.code == code
    case Scalar(code, _) =>
      if code == 0 then strict ==> key == NoKey else key.KeyDatum? && key.code == code
    case Filter(_, _) => strict ==> key == NoKey
    case Fwd(sub) => key.KeyList? && FitsChain(sub, key.items, strict)
    case Join(factor) => key.KeyList? && FitsChain(factor, key.items, strict)
    case Bound(joins, filter, _) =>
      && key.KeyList? && FitsChain(joins, key.items, strict)
      && SilentChain(filter) && |filter| <= |joins|
  }

  predicate FitsChain(ads: seq<AttrDef>, keys: seq<KeyTree>, strict: bool)
    decreases ads, 1
  {
    && |ads| <= |keys|
    && (strict ==> |ads| == |keys|)
    && forall i :: 0 <= i < |ads| ==> Fits(ads[i], keys[i], strict)
  }

  /** The slot `slot` shows the key `key` of an item of the level. */
  predicate Holds(ad: AttrDef, slot: KeyTree, key: KeyTree)
    decreases ad, 0
  {
    match ad
    case Collection(code, _) => (code == 0 || slot == key)
    case Scalar(code, _) => (code == 0 || slot == key)
    case Filter(_, _) => true
    case Fwd(sub) => slot.KeyList? && key.KeyList? && HoldsChain(sub, slot.items, key.items)
    case Join(factor) => slot.KeyList? && key.KeyList? && HoldsChain(factor, slot.items, key.items)
    case Bound(joins, _, _) => slot.KeyList? && key.KeyList? && HoldsChain(joins, slot.items, key.items)
  }

  predicate HoldsChain(ads: seq<AttrDef>, slots: seq<KeyTree>, keys: seq<KeyTree>)
    decreases ads, 1
  {
    && |keys| == |ads| <= |slots|
    && forall i :: 0 <= i < |ads| ==> Holds(ads[i], slots[i], keys[i])
  }

  lemma {:induction false} FitsNotStrict(ads: seq<AttrDef>, keys: seq<KeyTree>, strict: bool)
    requires FitsChain(ads, keys, strict)
    ensures FitsChain(ads, keys, false)
    decreases ads, 1
  {
    forall i | 0 <= i < |ads|
      ensures Fits(ads[i], keys[i], false)
    {
      LevelFitsNotStrict(ads[i], keys[i], strict);
    }
  }

  lemma {:induction false} LevelFitsNotStrict(ad: AttrDef, key: KeyTree, strict: bool)
    requires Fits(ad, key, strict)
    ensures Fits(ad, key, false)
    decreases ad, 0
  {
    match ad
    case Collection(_, _) =>
    case Scalar(_, _) =>
    case Filter(_, _) =>
    case Fwd(sub) => FitsNotStrict(sub, key.items, strict);
    case Join(factor) => FitsNotStrict(factor, key.items, strict);
    case Bound(joins, _, _) => FitsNotStrict(joins, key.items, strict);
  }
}
