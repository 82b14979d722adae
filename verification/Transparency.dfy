/** A forwarding attribute is transparent: a chain gives the same data, in the
    same order and with the same flat view of its keys, as the chain with every
    forwarded chain spliced in, at any depth. */
module Transparency {
  import opened Denotation

  /** The chain with every forwarding level replaced by its levels. */
  function Inline(ads: seq<AttrDef>): (r: seq<AttrDef>)
    decreases ads
  {
    if ads == [] then [] else InlineLevel(ads[0]) + Inline(ads[1..])
  }

  function InlineLevel(ad: AttrDef): (r: seq<AttrDef>)
    decreases ad
  {
    match ad
    case Fwd(sub) => Inline(sub)
    case Filter(query, truth) => [Filter(Inline(query), truth)]
    case Join(factor) => [Join(Inline(factor))]
    case Bound(joins, filter, truth) => [Bound(Inline(joins), Inline(filter), truth)]
    case _ => [ad]
  }

  /** No forwarding level is left at any depth. */
  predicate Spliced(ads: seq<AttrDef>)
    decreases ads, 1
  {
    ads == [] || (SplicedLevel(ads[0]) && Spliced(ads[1..]))
  }

  predicate SplicedLevel(ad: AttrDef)
    decreases ad, 0
  {
    match ad
    case Fwd(_) => false
    case Filter(query, _) => Spliced(query)
    case Join(factor) => Spliced(factor)
    case Bound(joins, filter, _) => Spliced(joins) && Spliced(filter)
    case _ => true
  }

  lemma {:induction false} SplicedConcat(a: seq<AttrDef>, b: seq<AttrDef>)
    requires Spliced(a) && Spliced(b)
    ensures Spliced(a + b)
    decreases |a|
  {
    if a == [] {
      assert a + b == b;
    } else {
      assert (a + b)[1..] == a[1..] + b;
      SplicedConcat(a[1..], b);
    }
  }

  lemma {:induction false} InlineSplices(ads: seq<AttrDef>)
    ensures Spliced(Inline(ads))
    decreases ads, 1
  {
    if ads != [] {
      InlineLevelSplices(ads[0]);
      InlineSplices(ads[1..]);
      SplicedConcat(InlineLevel(ads[0]), Inline(ads[1..]));
    }
  }

  lemma {:induction false} InlineLevelSplices(ad: AttrDef)
    ensures Spliced(InlineLevel(ad))
    decreases ad, 0
  {
    match ad
    case Fwd(sub) => InlineSplices(sub);
    case Collection(_, _) => SplicedOne(ad);
    case Scalar(_, _) => SplicedOne(ad);
    case Filter(query, truth) => { InlineSplices(query); SplicedOne(Filter(Inline(query), truth)); }
    case Join(factor) => { InlineSplices(factor); SplicedOne(Join(Inline(factor))); }
    case Bound(joins, filter, truth) => {
      InlineSplices(joins);
      InlineSplices(filter);
      SplicedOne(Bound(Inline(joins), Inline(filter), truth));
    }
  }

  predicate NoneIterates(ads: seq<AttrDef>) {
    forall i :: 0 <= i < |ads| ==> ads[i].Scalar? || ads[i].Filter?
  }

  lemma NoneIteratesConcat(a: seq<AttrDef>, b: seq<AttrDef>)
    ensures NoneIterates(a + b) <==> NoneIterates(a) && NoneIterates(b)
  {
    if NoneIterates(a + b) {
      assert forall i :: 0 <= i < |a| ==> a[i] == (a + b)[i];
      assert forall i :: 0 <= i < |b| ==> b[i] == (a + b)[|a| + i];
    }
  }

  /** A chain is fully scalar exactly if no level of the spliced one iterates. */
  lemma {:induction false} FullyScalarIs(ads: seq<AttrDef>)
    ensures FullyScalar(ads) <==> NoneIterates(Inline(ads))
    decreases ads, 1
  {
    if ads != [] {
      ScalarLevelIs(ads[0]);
      FullyScalarIs(ads[1..]);
      NoneIteratesConcat(InlineLevel(ads[0]), Inline(ads[1..]));
    }
  }

  lemma {:induction false} ScalarLevelIs(ad: AttrDef)
    ensures ScalarLevel(ad) <==> NoneIterates(InlineLevel(ad))
    decreases ad, 0
  {
    match ad
    case Fwd(sub) => FullyScalarIs(sub);
    case Collection(_, _) => assert InlineLevel(ad)[0].Collection?;
    case Join(_) => assert InlineLevel(ad)[0].Join?;
    case Bound(_, _, _) => assert InlineLevel(ad)[0].Bound?;
    case _ =>
  }

  lemma SplicedOne(ad: AttrDef)
    requires SplicedLevel(ad)
    ensures Spliced([ad])
  {
    assert [ad][1..] == [];
  }

  /** Every query referred to has at least one level. */
  predicate Solid(ads: seq<AttrDef>)
    decreases ads, 1
  {
    ads == [] || (SolidLevel(ads[0]) && Solid(ads[1..]))
  }

  predicate SolidLevel(ad: AttrDef)
    decreases ad, 0
  {
    match ad
    case Fwd(sub) => sub != [] && Solid(sub)
    case Filter(query, _) => query != [] && Solid(query)
    case Join(factor) => factor != [] && Solid(factor)
    case Bound(joins, filter, _) => Solid(joins) && Solid(filter)
    case _ => true
  }

  lemma {:induction false} InlineNotEmpty(ads: seq<AttrDef>)
    requires Solid(ads) && ads != []
    ensures Inline(ads) != []
    decreases ads
  {
    if ads[0].Fwd? { InlineNotEmpty(ads[0].sub); }
  }

  /** Flat view of a key: its non-empty leaves, left to right. */
  function Flat(key: KeyTree): seq<KeyTree>
    decreases key, 0
  {
    match key
    case NoKey => []
    case KeyDatum(_, _) => [key]
    case KeyList(items) => FlatAll(items)
  }

  function FlatAll(keys: seq<KeyTree>): seq<KeyTree>
    decreases keys, 1
  {
    if keys == [] then [] else Flat(keys[0]) + FlatAll(keys[1..])
  }

  lemma {:induction false} FlatConcat(a: seq<KeyTree>, b: seq<KeyTree>)
    ensures FlatAll(a + b) == FlatAll(a) + FlatAll(b)
    decreases |a|
  {
    if a == [] {
      assert a + b == b;
    } else {
      assert (a + b)[1..] == a[1..] + b;
      FlatConcat(a[1..], b);
    }
  }

  lemma FlatOne(key: KeyTree)
    ensures FlatAll([key]) == Flat(key)
  {
    assert [key][1..] == [];
  }

  /** Same data, same flat keys. */
  predicate Same(ps: seq<Path>, qs: seq<Path>) {
    |ps| == |qs| && forall i :: 0 <= i < |ps| ==>
        ps[i].datum == qs[i].datum && FlatAll(ps[i].keys) == FlatAll(qs[i].keys)
  }

  predicate SameItems(items: seq<Item>, qs: seq<Path>) {
    |items| == |qs| && forall i :: 0 <= i < |items| ==>
        items[i].datum == qs[i].datum && Flat(items[i].key) == FlatAll(qs[i].keys)
  }

  /** Continues every path with the levels `ads`. */
  function Continue(ps: seq<Path>, ads: seq<AttrDef>): seq<Path>
    decreases |ps|
  {
    if ps == [] then [] else PrefixKeys(ps[0].keys, ChainItems(ads, ps[0].datum)) + Continue(ps[1..], ads)
  }

  function PrefixKeys(keys: seq<KeyTree>, ps: seq<Path>): (r: seq<Path>)
    ensures |r| == |ps|
  {
    seq(|ps|, i requires 0 <= i < |ps| => Path(keys + ps[i].keys, ps[i].datum))
  }

  lemma {:induction false} ContinueConcat(ps: seq<Path>, qs: seq<Path>, ads: seq<AttrDef>)
    ensures Continue(ps + qs, ads) == Continue(ps, ads) + Continue(qs, ads)
    decreases |ps|
  {
    if ps == [] {
      assert ps + qs == qs;
    } else {
      assert (ps + qs)[1..] == ps[1..] + qs;
      ContinueConcat(ps[1..], qs, ads);
    }
  }

  lemma {:induction false} ContinuePrefix(key: KeyTree, ps: seq<Path>, ads: seq<AttrDef>)
    ensures Continue(PrefixAll(key, ps), ads) == PrefixAll(key, Continue(ps, ads))
    decreases |ps|
  {
    if ps != [] {
      var qs := ChainItems(ads, ps[0].datum);
      assert PrefixAll(key, ps)[1..] == PrefixAll(key, ps[1..]);
      ContinuePrefix(key, ps[1..], ads);
      assert PrefixKeys([key] + ps[0].keys, qs) == PrefixAll(key, PrefixKeys(ps[0].keys, qs)) by {
        forall i | 0 <= i < |qs|
          ensures ([key] + ps[0].keys) + qs[i].keys == [key] + (ps[0].keys + qs[i].keys)
        {
        }
      }
      PrefixAllConcat(key, PrefixKeys(ps[0].keys, qs), Continue(ps[1..], ads));
    }
  }

  /** A chain of two parts continues the results of the first by the second. */
  lemma {:induction false} ChainConcat(a: seq<AttrDef>, b: seq<AttrDef>, d: Datum)
    ensures ChainItems(a + b, d) == Continue(ChainItems(a, d), b)
    decreases |a|, 0
  {
    if a == [] {
      assert a + b == b;
      var qs := ChainItems(b, d);
      assert PrefixKeys([], qs) == qs by {
        forall i | 0 <= i < |qs|
          ensures PrefixKeys([], qs)[i] == qs[i]
        {
          assert [] + qs[i].keys == qs[i].keys;
        }
      }
      assert [Path([], d)][1..] == [];
    } else {
      assert (a + b)[0] == a[0] && (a + b)[1..] == a[1..] + b;
      ExtendConcatChain(LevelItems(a[0], d), a[1..], b);
    }
  }

  lemma {:induction false} ExtendConcatChain(items: seq<Item>, a: seq<AttrDef>, b: seq<AttrDef>)
    ensures Extend(items, a + b) == Continue(Extend(items, a), b)
    decreases |a|, |items| + 1
  {
    if items != [] {
      ChainConcat(a, b, items[0].datum);
      ExtendConcatChain(items[1..], a, b);
      ContinuePrefix(items[0].key, ChainItems(a, items[0].datum), b);
      ContinueConcat(PrefixAll(items[0].key, ChainItems(a, items[0].datum)), Extend(items[1..], a), b);
    }
  }

  /** A chain of one level gives the level's items. */
  lemma SingleLevel(ad: AttrDef, d: Datum)
    ensures SameItems(LevelItems(ad, d), ChainItems([ad], d))
  {
    assert [ad][1..] == [];
    SingleItems(LevelItems(ad, d));
  }

  lemma {:induction false} SingleItems(items: seq<Item>)
    ensures SameItems(items, Extend(items, []))
    decreases |items|
  {
    if items != [] {
      SingleItems(items[1..]);
      var one := PrefixAll(items[0].key, ChainItems([], items[0].datum));
      assert one == [Path([items[0].key] + [], items[0].datum)];
      assert [items[0].key] + [] == [items[0].key];
      FlatOne(items[0].key);
      forall i | 0 <= i < |items|
        ensures items[i].datum == Extend(items, [])[i].datum && Flat(items[i].key) == FlatAll(Extend(items, [])[i].keys)
      {
        if i > 0 { assert Extend(items, [])[i] == Extend(items[1..], [])[i-1] && items[i] == items[1..][i-1]; }
      }
    }
  }

  /** Main theorem: same data in the same order, same flat keys. */
  lemma {:induction false} InlineSame(ads: seq<AttrDef>, d: Datum)
    requires Solid(ads)
    ensures Same(ChainItems(ads, d), ChainItems(Inline(ads), d))
    decreases ads, 1, 0
  {
    if ads != [] {
      InlineLevelSame(ads[0], d);
      ExtendSame(LevelItems(ads[0], d), ChainItems(InlineLevel(ads[0]), d), ads[1..]);
      ChainConcat(InlineLevel(ads[0]), Inline(ads[1..]), d);
    }
  }

  lemma {:induction false} ExtendSame(items: seq<Item>, qs: seq<Path>, ads: seq<AttrDef>)
    requires SameItems(items, qs) && Solid(ads)
    ensures Same(Extend(items, ads), Continue(qs, Inline(ads)))
    decreases ads, 2, |items|
  {
    if items != [] {
      InlineSame(ads, items[0].datum);
      ExtendSame(items[1..], qs[1..], ads);
      var ps, rs := ChainItems(ads, items[0].datum), ChainItems(Inline(ads), qs[0].datum);
      forall i | 0 <= i < |ps|
        ensures FlatAll([items[0].key] + ps[i].keys) == FlatAll(qs[0].keys + rs[i].keys)
      {
        FlatConcat([items[0].key], ps[i].keys);
        FlatOne(items[0].key);
        FlatConcat(qs[0].keys, rs[i].keys);
      }
      SameConcat(PrefixAll(items[0].key, ps), PrefixKeys(qs[0].keys, rs), Extend(items[1..], ads),
          Continue(qs[1..], Inline(ads)));
    }
  }

  lemma SameConcat(a: seq<Path>, b: seq<Path>, a': seq<Path>, b': seq<Path>)
    requires Same(a, b) && Same(a', b')
    ensures Same(a + a', b + b')
  {
  }

  lemma {:induction false} InlineLevelSame(ad: AttrDef, d: Datum)
    requires SolidLevel(ad)
    ensures SameItems(LevelItems(ad, d), ChainItems(InlineLevel(ad), d))
    decreases ad, 1, 0
  {
    hide Solid, Inline, ChainItems, Extend;
    match ad
    case Collection(_, _) => SingleLevel(ad, d);
    case Scalar(_, _) => SingleLevel(ad, d);
    case Fwd(sub) => InlineSame(sub, d);
    case Filter(query, truth) => {
      InlineSame(query, d);
      SingleLevel(Filter(Inline(query), truth), d);
    }
    case Join(factor) => {
      InlineSame(factor, RowOwner(d));
      SingleLevel(Join(Inline(factor)), d);
    }
    case Bound(joins, filter, truth) => InlineBoundSame(ad, d);
  }

  lemma {:induction false} InlineBoundSame(ad: AttrDef, d: Datum)
    requires SolidLevel(ad) && ad.Bound?
    ensures SameItems(LevelItems(ad, d), ChainItems(InlineLevel(ad), d))
    decreases ad, 0, 0
  {
    hide Inline, Solid, Spliced;
    var row, spliced := Row(d, []), Bound(Inline(ad.joins), Inline(ad.filter), ad.truth);
    InlineSame(ad.joins, row);
    AcceptedSame(ChainItems(ad.joins, row), ChainItems(Inline(ad.joins), row), ad.filter, ad.truth);
    SingleLevel(spliced, d);
    ThroughItems(LevelItems(ad, d), LevelItems(spliced, d), ChainItems([spliced], d));
  }

  predicate AlikeItems(a: seq<Item>, b: seq<Item>) {
    |a| == |b| && forall i :: 0 <= i < |a| ==> a[i].datum == b[i].datum && Flat(a[i].key) == Flat(b[i].key)
  }

  lemma ThroughItems(a: seq<Item>, b: seq<Item>, qs: seq<Path>)
    requires AlikeItems(a, b) && SameItems(b, qs)
    ensures SameItems(a, qs)
  {
  }

  lemma {:induction false} VerdictSame(filter: seq<AttrDef>, truth: Datum -> bool, row: Datum)
    requires Solid(filter)
    ensures Verdict(Inline(filter), truth, row) == Verdict(filter, truth, row)
    decreases filter, 3, 0
  {
    if filter != [] {
      InlineSame(filter, row);
      InlineNotEmpty(filter);
    }
  }

  lemma {:induction false} AcceptedSame(ps: seq<Path>, qs: seq<Path>, filter: seq<AttrDef>, truth: Datum -> bool)
    requires Same(ps, qs) && Solid(filter)
    ensures AlikeItems(AcceptedItems(ps, filter, truth), AcceptedItems(qs, Inline(filter), truth))
    decreases filter, 4, |ps|
  {
    if ps != [] {
      VerdictSame(filter, truth, ps[0].datum);
      AcceptedSame(ps[1..], qs[1..], filter, truth);
    }
  }
}
