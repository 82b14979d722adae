/** The tree of keys reserved for a query, and why a key list of that shape
    that is in step with a result shows exactly the result's keys. */
module KeyShapes {
  import opened Denotation
  import opened Conditions

  /** The key has the shape that is reserved for the level. */
  predicate Reserved(ad: AttrDef, key: KeyTree)
    decreases ad, 0
  {
    match ad
    case Collection(code, _) => if code == 0 then key == NoKey else key.KeyDatum? && key.code == code
    case Scalar(code, _) => if code == 0 then key == NoKey else key.KeyDatum? && key.code == code
    case Filter(_, _) => key == NoKey
    case Fwd(sub) => key.KeyList? && ReservedChain(sub, key.items)
    case Join(factor) => key.KeyList? && ReservedChain(factor, key.items)
    case Bound(joins, _, _) => key.KeyList? && ReservedChain(joins, key.items)
  }

  predicate ReservedChain(ads: seq<AttrDef>, keys: seq<KeyTree>)
    decreases ads, 1
  {
    |keys| == |ads| && forall i :: 0 <= i < |ads| ==> Reserved(ads[i], keys[i])
  }

  lemma {:induction false} StrictLevel(ad: AttrDef, key: KeyTree)
    requires Fits(ad, key, true)
    ensures Reserved(ad, key)
    decreases ad, 0
  {
    match ad
    case Collection(_, _) =>
    case Scalar(_, _) =>
    case Filter(_, _) =>
    case Fwd(sub) => StrictFit(sub, key.items);
    case Join(factor) => StrictFit(factor, key.items);
    case Bound(joins, _, _) => StrictFit(joins, key.items);
  }

  /** The strict fit is the reserved shape. */
  lemma {:induction false} StrictFit(ads: seq<AttrDef>, keys: seq<KeyTree>)
    requires FitsChain(ads, keys, true)
    ensures ReservedChain(ads, keys)
    decreases ads, 1
  {
    forall i | 0 <= i < |ads|
      ensures Reserved(ads[i], keys[i])
    {
      StrictLevel(ads[i], keys[i]);
    }
  }

  lemma {:induction false} ItemShape(ad: AttrDef, d: Datum, i: nat)
    requires i < |LevelItems(ad, d)|
    ensures Reserved(ad, LevelItems(ad, d)[i].key)
    decreases ad, 0, 0
  {
    match ad
    case Collection(_, _) =>
    case Scalar(_, _) =>
    case Filter(_, _) =>
    case Fwd(sub) => PathShape(sub, d, i);
    case Join(factor) => PathShape(factor, RowOwner(d), i);
    case Bound(joins, filter, truth) => {
      var rows := ChainItems(joins, Row(d, []));
      forall j | 0 <= j < |rows|
        ensures ReservedChain(joins, rows[j].keys)
      {
        PathShape(joins, Row(d, []), j);
      }
      AcceptedFrom(rows, filter, truth, i);
    }
  }

  lemma {:induction false} AcceptedFrom(ps: seq<Path>, filter: seq<AttrDef>, truth: Datum -> bool, i: nat)
    requires i < |AcceptedItems(ps, filter, truth)|
    ensures exists j :: 0 <= j < |ps| && AcceptedItems(ps, filter, truth)[i].key == KeyList(ps[j].keys)
    decreases |ps|
  {
    if Verdict(filter, truth, ps[0].datum) == Some(true) {
      if i == 0 {
        assert AcceptedItems(ps, filter, truth)[0].key == KeyList(ps[0].keys);
      } else {
        AcceptedFrom(ps[1..], filter, truth, i - 1);
        var j :| 0 <= j < |ps[1..]| && AcceptedItems(ps[1..], filter, truth)[i - 1].key == KeyList(ps[1..][j].keys);
        assert ps[1..][j] == ps[j + 1];
      }
    } else {
      AcceptedFrom(ps[1..], filter, truth, i);
      var j :| 0 <= j < |ps[1..]| && AcceptedItems(ps[1..], filter, truth)[i].key == KeyList(ps[1..][j].keys);
      assert ps[1..][j] == ps[j + 1];
    }
  }

  /** Every result of a chain comes with keys of the reserved shape. */
  lemma {:induction false} PathShape(ads: seq<AttrDef>, d: Datum, i: nat)
    requires i < |ChainItems(ads, d)|
    ensures ReservedChain(ads, ChainItems(ads, d)[i].keys)
    decreases ads, 1, 0
  {
    if ads != [] {
      forall x | 0 <= x < |LevelItems(ads[0], d)|
        ensures Reserved(ads[0], LevelItems(ads[0], d)[x].key)
      {
        ItemShape(ads[0], d, x);
      }
      ExtendShape(ads[0], LevelItems(ads[0], d), ads[1..], i);
    }
  }

  lemma {:induction false} ExtendShape(ad: AttrDef, items: seq<Item>, ads: seq<AttrDef>, i: nat)
    requires i < |Extend(items, ads)|
    requires forall x :: 0 <= x < |items| ==> Reserved(ad, items[x].key)
    ensures var keys := Extend(items, ads)[i].keys;
            keys != [] && Reserved(ad, keys[0]) && ReservedChain(ads, keys[1..])
    decreases ads, 2, |items|
  {
    var n := |ChainItems(ads, items[0].datum)|;
    if i < n {
      PathShape(ads, items[0].datum, i);
      assert Extend(items, ads)[i].keys[1..] == ChainItems(ads, items[0].datum)[i].keys;
    } else {
      ExtendShape(ad, items[1..], ads, i - n);
    }
  }

  lemma {:induction false} ExactSlot(ad: AttrDef, slot: KeyTree, key: KeyTree)
    requires Reserved(ad, slot) && Reserved(ad, key) && Holds(ad, slot, key)
    ensures slot == key
    decreases ad, 0
  {
    match ad
    case Collection(_, _) =>
    case Scalar(_, _) =>
    case Filter(_, _) =>
    case Fwd(sub) => ExactKeys(sub, slot.items, key.items);
    case Join(factor) => ExactKeys(factor, slot.items, key.items);
    case Bound(joins, _, _) => ExactKeys(joins, slot.items, key.items);
  }

  /** A key list of the reserved shape that shows a result shows all of it. */
  lemma {:induction false} ExactKeys(ads: seq<AttrDef>, slots: seq<KeyTree>, keys: seq<KeyTree>)
    requires ReservedChain(ads, slots) && ReservedChain(ads, keys) && HoldsChain(ads, slots, keys)
    ensures slots == keys
    decreases ads, 1
  {
    forall i | 0 <= i < |ads|
      ensures slots[i] == keys[i]
    {
      ExactSlot(ads[i], slots[i], keys[i]);
    }
  }
}
