/** Splicing and the engine's conditions: a query and the query with every
    forwarded chain spliced in meet them on the same data. */
module SplicedConditions {
  import opened Denotation
  import opened Conditions
  import opened Levels
  import opened ChainSteps
  import opened Exactness
  import opened Transparency

  lemma {:induction false} BoundFreeConcat(a: seq<AttrDef>, b: seq<AttrDef>)
    ensures BoundFree(a + b) <==> BoundFree(a) && BoundFree(b)
    decreases |a|
  {
    if a == [] {
      assert a + b == b;
    } else {
      assert (a + b)[0] == a[0] && (a + b)[1..] == a[1..] + b;
      BoundFreeConcat(a[1..], b);
    }
  }

  lemma {:induction false} InlineLevelBoundFree(ad: AttrDef)
    ensures BoundFree(InlineLevel(ad)) <==> BoundFreeLevel(ad)
    decreases ad, 0
  {
    match ad
    case Collection(_, _) => OneBoundFree(ad);
    case Scalar(_, _) => OneBoundFree(ad);
    case Fwd(sub) => InlineBoundFree(sub);
    case Filter(query, truth) => {
      InlineBoundFree(query);
      OneBoundFree(Filter(Inline(query), truth));
    }
    case Join(factor) => {
      InlineBoundFree(factor);
      OneBoundFree(Join(Inline(factor)));
    }
    case Bound(joins, filter, truth) => OneBoundFree(Bound(Inline(joins), Inline(filter), truth));
  }

  /** Splicing neither adds nor removes bound compounds, so a chain without them
      meets the engine's conditions before and after it, on every datum. */
  lemma {:induction false} InlineBoundFree(ads: seq<AttrDef>)
    ensures BoundFree(Inline(ads)) <==> BoundFree(ads)
    decreases ads, 1
  {
    if ads != [] {
      InlineLevelBoundFree(ads[0]);
      InlineBoundFree(ads[1..]);
      BoundFreeConcat(InlineLevel(ads[0]), Inline(ads[1..]));
    }
  }

  ghost predicate AllGet(items: seq<Item>, ads: seq<AttrDef>) {
    forall x :: 0 <= x < |items| ==> GetTame(ads, items[x].datum)
  }

  ghost predicate GetOn(ads: seq<AttrDef>, ys: set<Datum>) {
    forall y :: y in ys ==> GetTame(ads, y)
  }

  /** Gets may come down to a chain behind one without bound compounds if they may
      with all its results. */
  lemma {:induction false} GetTameBelow(a: seq<AttrDef>, b: seq<AttrDef>, d: Datum)
    requires BoundFree(a)
    ensures GetTame(a + b, d) <==> GetOn(b, PathData(ChainItems(a, d)))
    decreases |a|
  {
    if a == [] {
      assert a + b == b && ChainItems(a, d)[0].datum in PathData(ChainItems(a, d));
    } else {
      assert (a + b)[0] == a[0] && (a + b)[1..] == a[1..] + b;
      var items := LevelItems(a[0], d);
      BoundFreeTameLevel(a[0], d);
      forall x | 0 <= x < |items|
        ensures GetTame(a[1..] + b, items[x].datum) <==> GetOn(b, PathData(ChainItems(a[1..], items[x].datum)))
      {
        GetTameBelow(a[1..], b, items[x].datum);
      }
      ExtendData(items, a[1..]);
      GetTameIs(a + b, d);
    }
  }

  lemma GetTameIs(ads: seq<AttrDef>, d: Datum)
    requires ads != []
    ensures GetTame(ads, d) <==>
              TameLevel(ads[0], d) && TrapFree(ads[0], d) && AllGet(LevelItems(ads[0], d), ads[1..])
  {
    hide TameLevel, TrapFree, LevelItems;
  }

  /** Every result comes from some item. */
  lemma {:induction false} ExtendData(items: seq<Item>, ads: seq<AttrDef>)
    ensures forall x :: 0 <= x < |items| ==> PathData(ChainItems(ads, items[x].datum)) <= PathData(Extend(items, ads))
    ensures forall y :: y in PathData(Extend(items, ads)) ==>
              exists x :: 0 <= x < |items| && y in PathData(ChainItems(ads, items[x].datum))
    decreases |items|
  {
    if items != [] {
      var rest := items[1..];
      ExtendData(rest, ads);
      PathDataConcat(items[0].key, ChainItems(ads, items[0].datum), Extend(rest, ads));
      forall x | 0 <= x < |items|
        ensures PathData(ChainItems(ads, items[x].datum)) <= PathData(Extend(items, ads))
      {
        if x > 0 { assert rest[x - 1] == items[x]; }
      }
      forall y | y in PathData(Extend(items, ads))
        ensures exists x :: 0 <= x < |items| && y in PathData(ChainItems(ads, items[x].datum))
      {
        if y !in PathData(ChainItems(ads, items[0].datum)) {
          var x :| 0 <= x < |rest| && y in PathData(ChainItems(ads, rest[x].datum));
          assert rest[x] == items[x + 1];
        }
      }
    }
  }

  lemma {:induction false} ExtendEmpty(items: seq<Item>, ads: seq<AttrDef>)
    ensures Extend(items, ads) == [] <==> forall x :: 0 <= x < |items| ==> ChainItems(ads, items[x].datum) == []
    decreases |items|
  {
    if items != [] {
      ExtendEmpty(items[1..], ads);
      var first := PrefixAll(items[0].key, ChainItems(ads, items[0].datum));
      assert first == [] <==> ChainItems(ads, items[0].datum) == [];
      assert forall x :: 1 <= x < |items| ==> items[x] == items[1..][x - 1];
    }
  }

  /** Gets after a first result among some items, and then among others. */
  lemma {:induction false} SafeItemsConcat(u: seq<Item>, v: seq<Item>, ads: seq<AttrDef>)
    ensures SafeItems(u + v, ads) <==>
              if Extend(u, ads) == [] then SafeItems(v, ads)
              else SafeItems(u, ads) && forall x :: 0 <= x < |v| ==> GetTame(ads, v[x].datum)
    decreases |u|
  {
    if u == [] {
      assert u + v == v;
    } else {
      assert (u + v)[0] == u[0] && (u + v)[1..] == u[1..] + v;
      SafeItemsConcat(u[1..], v, ads);
      var first := PrefixAll(u[0].key, ChainItems(ads, u[0].datum));
      assert first == [] <==> ChainItems(ads, u[0].datum) == [];
      hide ChainItems, GetTame, SafeAfter;
      var n := |u|;
      assert forall x :: 1 <= x < n ==> (u + v)[x] == u[x];
      assert forall x :: 0 <= x < |v| ==> (u + v)[n + x] == v[x];
      assert forall x :: n <= x < n + |v| ==> (u + v)[x] == v[x - n];
    }
  }

  /** Resets on some items, and then on others. */
  lemma {:induction false} TameItemsConcat(u: seq<Item>, v: seq<Item>, ads: seq<AttrDef>)
    ensures TameItems(u + v, ads) <==> TameItems(u, ads) && (Extend(u, ads) == [] ==> TameItems(v, ads))
    decreases |u|
  {
    if u == [] {
      assert u + v == v;
    } else {
      assert (u + v)[0] == u[0] && (u + v)[1..] == u[1..] + v;
      TameItemsConcat(u[1..], v, ads);
      var first := PrefixAll(u[0].key, ChainItems(ads, u[0].datum));
      assert first == [] <==> ChainItems(ads, u[0].datum) == [];
    }
  }

  /** On the datum `y` nothing tells the chains apart. */
  ghost predicate Alike(b: seq<AttrDef>, c: seq<AttrDef>, y: Datum) {
    && (GetTame(b, y) <==> GetTame(c, y)) && (TameChain(b, y) <==> TameChain(c, y))
    && (SafeAfter(b, y) <==> SafeAfter(c, y))
    && (ChainItems(b, y) == [] <==> ChainItems(c, y) == [])
  }

  lemma {:induction false} SafeItemsAlike(u: seq<Item>, v: seq<Item>, b: seq<AttrDef>, c: seq<AttrDef>)
    requires |u| == |v| && forall x :: 0 <= x < |u| ==> u[x].datum == v[x].datum && Alike(b, c, u[x].datum)
    ensures (SafeItems(u, b) <==> SafeItems(v, c)) && (TameItems(u, b) <==> TameItems(v, c))
    decreases |u|
  {
    if u != [] {
      SafeItemsAlike(u[1..], v[1..], b, c);
      assert Alike(b, c, u[0].datum);
      assert forall x :: 0 <= x < |u| ==> (GetTame(b, u[x].datum) <==> GetTame(c, v[x].datum));
    }
  }

  /** A chain in two parts: emptiness. */
  lemma ConcatEmpty(a: seq<AttrDef>, b: seq<AttrDef>, d: Datum)
    ensures ChainItems(a + b, d) == [] <==> Extend(FwdItems(ChainItems(a, d)), b) == []
  {
    hide ChainItems, Extend, Continue;
    ChainConcat(a, b, d);
    ContinueEmpty(ChainItems(a, d), b);
    ExtendEmpty(FwdItems(ChainItems(a, d)), b);
    var ps := ChainItems(a, d);
    assert forall x :: 0 <= x < |ps| ==> FwdItems(ps)[x].datum == ps[x].datum;
  }

  lemma {:induction false} ContinueEmpty(ps: seq<Path>, b: seq<AttrDef>)
    ensures Continue(ps, b) == [] <==> forall x :: 0 <= x < |ps| ==> ChainItems(b, ps[x].datum) == []
    decreases |ps|
  {
    if ps != [] {
      ContinueEmpty(ps[1..], b);
      var first := PrefixKeys(ps[0].keys, ChainItems(b, ps[0].datum));
      assert first == [] <==> ChainItems(b, ps[0].datum) == [];
      assert forall x :: 1 <= x < |ps| ==> ps[x] == ps[1..][x - 1];
    }
  }

  /** A chain without bound compounds in front may as well be one level. */
  lemma {:induction false} SafeBelow(a: seq<AttrDef>, b: seq<AttrDef>, d: Datum)
    requires BoundFree(a)
    ensures SafeAfter(a + b, d) <==> SafeItems(FwdItems(ChainItems(a, d)), b)
    ensures TameChain(a + b, d) <==> TameItems(FwdItems(ChainItems(a, d)), b)
    decreases |a|, 0
  {
    if a == [] {
      assert a + b == b;
      var one := FwdItems(ChainItems(a, d));
      assert |one| == 1 && one[0].datum == d && one[1..] == [];
      if ChainItems(b, d) == [] { EmptySafe(b, d); }
    } else {
      assert (a + b)[0] == a[0] && (a + b)[1..] == a[1..] + b;
      BoundFreeTameLevel(a[0], d);
      SafeItemsBelow(LevelItems(a[0], d), a[1..], b);
    }
  }

  lemma {:induction false} SafeItemsBelow(items: seq<Item>, a: seq<AttrDef>, b: seq<AttrDef>)
    requires BoundFree(a)
    ensures SafeItems(items, a + b) <==> SafeItems(FwdItems(Extend(items, a)), b)
    ensures TameItems(items, a + b) <==> TameItems(FwdItems(Extend(items, a)), b)
    decreases |a|, |items| + 1
  {
    hide GetTame, TameChain, BoundFree, SafeAfter;
    if items != [] {
      var ps, rest := ChainItems(a, items[0].datum), items[1..];
      var first, more := PrefixAll(items[0].key, ps), Extend(rest, a);
      SafeBelow(a, b, items[0].datum);
      SafeItemsBelow(rest, a, b);
      ConcatEmpty(a, b, items[0].datum);
      assert FwdItems(first + more) == FwdItems(first) + FwdItems(more);
      SafeItemsConcat(FwdItems(first), FwdItems(more), b);
      TameItemsConcat(FwdItems(first), FwdItems(more), b);
      ExtendEmpty(FwdItems(ps), b);
      ExtendEmpty(FwdItems(first), b);
      SafeItemsAlike(FwdItems(ps), FwdItems(first), b, b);
      GetBelow(rest, a, b);
      GetPaths(more, b);
      assert forall x :: 1 <= x < |items| ==> items[x] == rest[x - 1];
      assert forall x :: 0 <= x < |rest| ==> rest[x] == items[x + 1];
    }
  }

  lemma GetBelow(items: seq<Item>, a: seq<AttrDef>, b: seq<AttrDef>)
    requires BoundFree(a)
    ensures AllGet(items, a + b) <==> GetOn(b, PathData(Extend(items, a)))
  {
    hide GetTame, TameChain, ChainItems, Extend, BoundFree, PathData;
    ExtendData(items, a);
    forall x | 0 <= x < |items|
      ensures GetTame(a + b, items[x].datum) <==> GetOn(b, PathData(ChainItems(a, items[x].datum)))
    {
      GetTameBelow(a, b, items[x].datum);
    }
  }

  lemma GetPaths(ps: seq<Path>, b: seq<AttrDef>)
    ensures AllGet(FwdItems(ps), b) <==> GetOn(b, PathData(ps))
  {
    hide GetTame;
    assert forall x :: 0 <= x < |ps| ==> FwdItems(ps)[x].datum == ps[x].datum && ps[x].datum in PathData(ps);
  }

  /** Bound compounds are made of joins only. */
  predicate Joined(ads: seq<AttrDef>) {
    forall i, j :: 0 <= i < |ads| && ads[i].Bound? && 0 <= j < |ads[i].joins| ==> ads[i].joins[j].Join?
  }

  lemma {:induction false} InlineFactors(joins: seq<AttrDef>)
    requires forall j :: 0 <= j < |joins| ==> joins[j].Join?
    ensures |Inline(joins)| == |joins|
    ensures forall j :: 0 <= j < |joins| ==> Inline(joins)[j] == Join(Inline(joins[j].factor))
    decreases |joins|
  {
    if joins != [] { InlineFactors(joins[1..]); }
  }

  lemma FactorCounts(joins: seq<AttrDef>, d: Datum, j: nat)
    requires Solid(joins) && (forall i :: 0 <= i < |joins| ==> joins[i].Join?) && j < |joins|
    ensures |ChainItems(Factor(Inline(joins), j), d)| == |ChainItems(Factor(joins, j), d)|
  {
    InlineFactors(joins);
    SolidAt(joins, j);
    InlineSame(joins[j].factor, d);
  }

  lemma {:induction false} SolidAt(ads: seq<AttrDef>, i: nat)
    requires Solid(ads) && i < |ads|
    ensures SolidLevel(ads[i])
    decreases |ads|
  {
    if i > 0 { SolidAt(ads[1..], i - 1); }
  }

  lemma {:induction false} FirstEmptySame(joins: seq<AttrDef>, joins': seq<AttrDef>, d: Datum, from: nat)
    requires |joins| == |joins'| && from <= |joins|
    requires forall j :: 0 <= j < |joins| ==> |ChainItems(Factor(joins', j), d)| == |ChainItems(Factor(joins, j), d)|
    ensures FirstEmpty(joins, d, from) == FirstEmpty(joins', d, from)
    decreases |joins| - from
  {
    hide ChainItems;
    if from < |joins| { FirstEmptySame(joins, joins', d, from + 1); }
  }

  lemma {:induction false} NoStallSame(ps: seq<Path>, qs: seq<Path>, filter: seq<AttrDef>, truth: Datum -> bool)
    requires Same(ps, qs) && Solid(filter)
    ensures NoStall(ps, filter, truth) <==> NoStall(qs, Inline(filter), truth)
    decreases |ps|
  {
    if ps != [] {
      VerdictSame(filter, truth, ps[0].datum);
      NoStallSame(ps[1..], qs[1..], filter, truth);
    }
  }

  /** Splicing the queries of a bound compound changes nothing about it. */
  lemma BoundAlike(ad: AttrDef, d: Datum)
    requires ad.Bound? && ShallowLevel(ad) && SolidLevel(ad) && forall j :: 0 <= j < |ad.joins| ==> ad.joins[j].Join?
    ensures var ad' := Bound(Inline(ad.joins), Inline(ad.filter), ad.truth);
            && ShallowLevel(ad') && (TameLevel(ad, d) <==> TameLevel(ad', d)) && (TrapFree(ad, d) <==> TrapFree(ad', d))
  {
    hide ChainItems, Inline, NoStall;
    var ad' := Bound(Inline(ad.joins), Inline(ad.filter), ad.truth);
    InlineBoundFree(ad.joins);
    InlineBoundFree(ad.filter);
    InlineFactors(ad.joins);
    forall j | 0 <= j < |ad.joins|
      ensures |ChainItems(Factor(ad'.joins, j), d)| == |ChainItems(Factor(ad.joins, j), d)|
    {
      FactorCounts(ad.joins, d, j);
    }
    FirstEmptySame(ad.joins, ad'.joins, d, 0);
    InlineSame(ad.joins, Row(d, []));
    NoStallSame(ChainItems(ad.joins, Row(d, [])), ChainItems(ad'.joins, Row(d, [])), ad.filter, ad.truth);
    ShallowTame(ad, d);
    ShallowTame(ad', d);
    ShallowTrapFree(ad, d);
    ShallowTrapFree(ad', d);
    hide TameLevel, TrapFree;
  }

  /** A level that forwards nothing, and the one that it is spliced to. */
  lemma LevelAlike(ad: AttrDef, d: Datum)
    requires ShallowLevel(ad) && SolidLevel(ad) && !ad.Fwd?
    requires ad.Bound? ==> forall j :: 0 <= j < |ad.joins| ==> ad.joins[j].Join?
    ensures |InlineLevel(ad)| == 1
    ensures var ad' := InlineLevel(ad)[0];
            && (TameLevel(ad, d) <==> TameLevel(ad', d)) && (TrapFree(ad, d) <==> TrapFree(ad', d))
            && |LevelItems(ad, d)| == |LevelItems(ad', d)|
            && forall x :: 0 <= x < |LevelItems(ad, d)| ==> LevelItems(ad, d)[x].datum == LevelItems(ad', d)[x].datum
  {
    var ad' := InlineLevel(ad)[0];
    assert InlineLevel(ad) == [ad'];
    InlineLevelSame(ad, d);
    SingleLevel(ad', d);
    if ad.Bound? {
      BoundAlike(ad, d);
    } else {
      InlineLevelBoundFree(ad);
      OneBoundFree(ad');
      BoundFreeTameLevel(ad, d);
      BoundFreeTameLevel(ad', d);
    }
  }

  /** Splicing does not change on which data runs end well. */
  lemma {:induction false} InlineAlike(ads: seq<AttrDef>, d: Datum)
    requires Shallow(ads) && Solid(ads) && Joined(ads)
    ensures Alike(ads, Inline(ads), d)
    decreases |ads|
  {
    InlineSame(ads, d);
    if ads != [] {
      var rest, tail, items := ads[1..], Inline(ads[1..]), LevelItems(ads[0], d);
      forall y | y in Data(items)
        ensures Alike(rest, tail, y)
      {
        InlineAlike(rest, y);
      }
      if ads[0].Fwd? { FwdAlike(ads, d); } else { StepAlike(ads, d); }
    }
  }

  lemma StepAlike(ads: seq<AttrDef>, d: Datum)
    requires ads != [] && Shallow(ads) && Solid(ads) && Joined(ads) && !ads[0].Fwd?
    requires Same(ChainItems(ads, d), ChainItems(Inline(ads), d))
    requires forall y :: y in Data(LevelItems(ads[0], d)) ==> Alike(ads[1..], Inline(ads[1..]), y)
    ensures Alike(ads, Inline(ads), d)
  {
    LevelAlike(ads[0], d);
    var ad' := InlineLevel(ads[0])[0];
    var items, items' := LevelItems(ads[0], d), LevelItems(ad', d);
    assert Inline(ads)[0] == ad' && Inline(ads)[1..] == Inline(ads[1..]);
    GetTameIs(ads, d);
    GetTameIs(Inline(ads), d);
    assert TameChain(ads, d) == (TameLevel(ads[0], d) && TameItems(items, ads[1..]));
    assert TameChain(Inline(ads), d) == (TameLevel(ad', d) && TameItems(items', Inline(ads[1..])));
    hide GetTame, TameChain, TameLevel, TrapFree, LevelItems, ChainItems, Inline, InlineLevel;
    forall x | 0 <= x < |items|
      ensures Alike(ads[1..], Inline(ads[1..]), items[x].datum)
    {
      assert items[x].datum in Data(items);
    }
    SafeItemsAlike(items, items', ads[1..], Inline(ads[1..]));
  }

  lemma FwdAlike(ads: seq<AttrDef>, d: Datum)
    requires ads != [] && Shallow(ads) && Solid(ads) && ads[0].Fwd?
    requires Same(ChainItems(ads, d), ChainItems(Inline(ads), d))
    requires forall y :: y in Data(LevelItems(ads[0], d)) ==> Alike(ads[1..], Inline(ads[1..]), y)
    ensures Alike(ads, Inline(ads), d)
  {
    var sub, rest, tail := ads[0].sub, ads[1..], Inline(ads[1..]);
    var ps, qs := ChainItems(sub, d), ChainItems(Inline(sub), d);
    assert Inline(ads) == Inline(sub) + tail && LevelItems(ads[0], d) == FwdItems(ps);
    InlineBoundFree(sub);
    InlineSame(sub, d);
    BoundFreeTameLevel(ads[0], d);
    GetTameIs(ads, d);
    assert SafeAfter(ads, d) == SafeItems(FwdItems(ps), rest);
    assert TameChain(ads, d) == (TameLevel(ads[0], d) && TameItems(FwdItems(ps), rest));
    hide GetTame, TameChain, TameLevel, TrapFree, LevelItems, ChainItems, Inline, InlineLevel, SafeItems, SafeAfter,
      TameItems, BoundFree, Solid, Shallow, Alike, AllGet, GetOn;
    forall x | 0 <= x < |ps|
      ensures Alike(rest, tail, ps[x].datum) && ps[x].datum == qs[x].datum
    {
      assert FwdItems(ps)[x].datum in Data(FwdItems(ps));
    }
    SafeBelow(Inline(sub), tail, d);
    SafeItemsAlike(FwdItems(ps), FwdItems(qs), rest, tail);
    GetTameBelow(Inline(sub), tail, d);
    GetPaths(qs, tail);
    AllGetAlike(FwdItems(ps), FwdItems(qs), rest, tail);
    AlikeFrom(ads, Inline(ads), d);
  }

  lemma AllGetAlike(u: seq<Item>, v: seq<Item>, b: seq<AttrDef>, c: seq<AttrDef>)
    requires |u| == |v| && forall x :: 0 <= x < |u| ==> u[x].datum == v[x].datum && Alike(b, c, u[x].datum)
    ensures AllGet(u, b) <==> AllGet(v, c)
  {
    hide GetTame, TameChain, SafeAfter, ChainItems;
  }

  lemma AlikeFrom(b: seq<AttrDef>, c: seq<AttrDef>, y: Datum)
    requires (GetTame(b, y) <==> GetTame(c, y)) && (TameChain(b, y) <==> TameChain(c, y))
    requires (SafeAfter(b, y) <==> SafeAfter(c, y)) && |ChainItems(b, y)| == |ChainItems(c, y)|
    ensures Alike(b, c, y)
  {
    hide ChainItems, SafeAfter, GetTame, TameChain;
  }

  lemma ShallowBoundFree(ads: seq<AttrDef>)
    requires BoundFree(ads)
    ensures Shallow(ads)
  {
    forall i | 0 <= i < |ads|
      ensures ShallowLevel(ads[i])
    {
      BoundFreeAt(ads, i);
    }
  }

  /** Splicing nests no bound compound. */
  lemma {:induction false} InlineShallow(ads: seq<AttrDef>)
    requires Shallow(ads)
    ensures Shallow(Inline(ads))
    decreases |ads|
  {
    if ads != [] {
      var ad := ads[0];
      InlineShallow(ads[1..]);
      InlineLevelBoundFree(ad);
      if ad.Bound? {
        InlineBoundFree(ad.joins);
        InlineBoundFree(ad.filter);
      } else {
        ShallowBoundFree(InlineLevel(ad));
      }
      hide Inline;
      assert Shallow(InlineLevel(ad));
    }
  }
}
