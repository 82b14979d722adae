/** Steps of the loops of a bound compound: rows tested, skipped and accepted,
    and how its level contract follows. */
module BoundSteps {
  import opened Denotation
  import opened Search
  import opened Conditions
  import opened Levels
  import opened Chains
  import opened ChainSteps
  import opened Products
  import opened ProductSteps
  import opened BoundCompounds

  lemma BoundViewsAre(q: Query, d: Datum)
    requires LevelOk(q) && q.ad.Bound?
    ensures |Snaps(q.boundNodes, q.ad.joins)| == |q.ad.joins| == q.values.Length
    ensures BoundViews(q, d) == ProdViews(Snaps(q.boundNodes, q.ad.joins), q.ad.joins, q.values[..], d)
  {
    BoundShaped(q);
    var ss := Snaps(q.boundNodes, q.ad.joins);
    forall j | 0 <= j < |q.ad.joins|
      ensures BoundViews(q, d)[j] == ProdViews(ss, q.ad.joins, q.values[..], d)[j]
    {
      SnapAt(q.boundNodes, q.ad.joins, j);
    }
  }

  lemma QueryIs(q: Query, j: nat)
    requires LevelOk(q) && q.ad.Bound? && j < |q.ad.joins|
    ensures q.ad.joins[j].Join? && j < |q.boundNodes| && ChainOk(q.boundNodes[j], q.ad.joins[j].factor)
    ensures var s, ads := Snaps(q.boundNodes, q.ad.joins)[j], Factor(q.ad.joins, j);
            && ads == q.ad.joins[j].factor && |s.views| == |ads|
            && s.live == ChainLive(q.boundNodes[j], ads)
            && s.safe == ChainSafe(q.boundNodes[j], ads)
            && s.calm == ChainCalm(q.boundNodes[j], ads)
            && s.views == Views(q.boundNodes[j]) && QueryLeft(q, j) == Left(s.views, ads)
            && Spent(s, ads) == ChainSpent(q.boundNodes[j], ads)
  {
    hide ChainLive, ChainSafe, ChainCalm, ChainSteady, Left;
    SnapAt(q.boundNodes, q.ad.joins, j);
  }

  lemma JoinSome(joins: seq<AttrDef>, d: Datum, j: nat)
    requires j < |joins| && joins[j].Join?
    ensures LevelItems(joins[j], Row(d, [])) != [] <==> ChainItems(Factor(joins, j), d) != []
  {
    assert |LevelItems(joins[j], Row(d, []))| == |ChainItems(Factor(joins, j), d)|;
  }

  lemma ProdCursAre(q: Query, d: Datum)
    requires LevelOk(q) && q.ad.Bound?
    ensures Curs(BoundViews(q, d)) == ProdKeys(Snaps(q.boundNodes, q.ad.joins))
  {
    BoundViewsAre(q, d);
    ProdCurs(Snaps(q.boundNodes, q.ad.joins), q.ad.joins, q.values[..], d);
  }

  lemma BoundLiveIs(q: Query)
    requires LevelOk(q) && q.ad.Bound?
    ensures |Snaps(q.boundNodes, q.ad.joins)| == |q.ad.joins| == q.values.Length
    ensures var ss := Snaps(q.boundNodes, q.ad.joins);
            LevelLive(q) <==> AllLive(ss) && ViewLike(q.ad, q.view, ss, q.values[..], q.state.product)
  {
    hide ChainLive, ChainSafe, ChainCalm, Left, Snaps, ProdViews, QueryLeft;
    var ss, joins := Snaps(q.boundNodes, q.ad.joins), q.ad.joins;
    assert |ss| == |joins|;
    forall j | 0 <= j < |joins|
      ensures ss[j].live == ChainLive(q.boundNodes[j], joins[j].factor)
      ensures joins[j].Join?
    {
      QueryIs(q, j);
    }
    if q.state.product.Some? {
      var d := q.state.product.value;
      BoundViewsAre(q, d);
      ProdCursAre(q, d);
      forall j | 0 <= j < |joins|
        ensures LevelItems(joins[j], Row(d, [])) != [] <==> ChainItems(Factor(joins, j), d) != []
      {
        JoinSome(joins, d, j);
      }
    }
  }

  lemma BoundSafeIs(q: Query)
    requires LevelOk(q) && q.ad.Bound?
    ensures |Snaps(q.boundNodes, q.ad.joins)| == |q.ad.joins| == q.values.Length
    ensures var ss := Snaps(q.boundNodes, q.ad.joins);
            LevelSafe(q) <==> LevelLive(q) && AllSafe(ss) && ProductSafe(q.ad, ss, q.values[..], q.state.product)
  {
    hide ChainLive, ChainSafe, ChainCalm, ChainSpent, Left, Snaps, ProdViews, QueryLeft, LevelLive, TameChain,
      SafeAfter, Spent;
    var ss, joins := Snaps(q.boundNodes, q.ad.joins), q.ad.joins;
    assert |ss| == |joins|;
    forall j | 0 <= j < |joins|
      ensures ss[j].safe == ChainSafe(q.boundNodes[j], joins[j].factor)
      ensures Spent(ss[j], Factor(joins, j)) == ChainSpent(q.boundNodes[j], joins[j].factor)
      ensures joins[j].Join?
    {
      QueryIs(q, j);
    }
    if q.state.product.Some? { BoundViewsAre(q, q.state.product.value); }
  }

  lemma BoundCalmIs(q: Query)
    requires LevelOk(q) && q.ad.Bound?
    ensures |Snaps(q.boundNodes, q.ad.joins)| == |q.ad.joins|
    ensures var ss := Snaps(q.boundNodes, q.ad.joins);
            LevelCalm(q) <==> LevelSafe(q) && AllCalm(ss) && AllSpent(ss, q.ad.joins)
  {
    hide ChainLive, ChainSafe, ChainCalm, ChainSpent, Left, Snaps, QueryLeft, LevelSafe, Spent;
    var ss, joins := Snaps(q.boundNodes, q.ad.joins), q.ad.joins;
    assert |ss| == |joins|;
    forall j | 0 <= j < |joins|
      ensures ss[j].calm == ChainCalm(q.boundNodes[j], joins[j].factor)
      ensures Spent(ss[j], Factor(joins, j)) == ChainSpent(q.boundNodes[j], joins[j].factor)
    {
      QueryIs(q, j);
    }
  }

  lemma BoundSteadyIs(q: Query)
    requires LevelOk(q) && q.ad.Bound?
    ensures |Snaps(q.boundNodes, q.ad.joins)| == |q.ad.joins|
    ensures var ss := Snaps(q.boundNodes, q.ad.joins);
            && (LevelSteady(q) <==> (q.state.product.None? ==> AllNothing(ss, q.ad.joins)))
            && (Armed(q) <==> LevelLive(q) && q.state.product.None? && SomeArmed(ss, q.ad.joins))
  {
    hide Left, Snaps, QueryLeft, LevelLive;
    var ss, joins := Snaps(q.boundNodes, q.ad.joins), q.ad.joins;
    assert |ss| == |joins|;
    forall j | 0 <= j < |joins|
      ensures NothingLeft(ss[j], Factor(joins, j)) <==> QueryLeft(q, j) == []
    {
      QueryIs(q, j);
    }
    ArmedIs(q, ss);
  }

  lemma ArmedIs(q: Query, ss: seq<Snapshot>)
    requires LevelOk(q) && q.ad.Bound? && |ss| == |q.ad.joins|
    requires forall j :: 0 <= j < |q.ad.joins| ==>
             (NothingLeft(ss[j], Factor(q.ad.joins, j)) <==> QueryLeft(q, j) == [])
    ensures Armed(q) <==> LevelLive(q) && q.state.product.None? && SomeArmed(ss, q.ad.joins)
  {
    hide Left, QueryLeft, LevelLive, NothingLeft;
    if SomeArmed(ss, q.ad.joins) {
      var i :| 0 <= i < |ss| - 1 && ArmedAt(ss, q.ad.joins, i);
      assert QueryLeft(q, i) != [];
    }
    if LevelLive(q) && q.state.product.None? && Armed(q) {
      var i :| 0 <= i < |ss| - 1 && QueryLeft(q, i) != [] && forall j :: i < j < |ss| ==> QueryLeft(q, j) == [];
      assert ArmedAt(ss, q.ad.joins, i);
    }
  }

  lemma BoundIs(q: Query)
    requires LevelOk(q) && q.ad.Bound?
    ensures BoundLike(q.ad, Stat(q), Snaps(q.boundNodes, q.ad.joins), q.values[..], q.state.product)
    ensures Stat(q).view == q.view
  {
    forall j | 0 <= j < |q.ad.joins|
      ensures q.ad.joins[j].Join? && |Snaps(q.boundNodes, q.ad.joins)[j].views| == |Factor(q.ad.joins, j)|
    {
      QueryIs(q, j);
    }
    BoundLiveIs(q);
    BoundSafeIs(q);
    BoundCalmIs(q);
    BoundSteadyIs(q);
    hide LevelLive, LevelSafe, LevelCalm, LevelSteady, Armed, Snaps, ViewLike, ProductSafe, AllNothing, SomeArmed,
      AllLive, AllSafe, AllCalm, AllSpent;
  }

  lemma BoundLinks(q: Query, key: Option<KeyTree>, strict: bool)
    requires LevelOk(q) && q.ad.Bound? && KeyFits(q.ad, key, strict)
    ensures ProdOk(q.boundNodes, q.ad.joins) && Heads(q.bound, q.boundNodes)
    ensures |q.bound| == |q.boundNodes| == |q.ad.joins| == q.values.Length > 0
    ensures q.values !in ProdBufs(q.boundNodes) && q.values in q.buffers
    ensures q !in Members(q.boundNodes)
    ensures ProdFoot(q.boundNodes) <= q.nodes - {q} && ProdBufs(q.boundNodes) <= q.buffers && q in q.nodes
    ensures ListFits(q.ad.joins, key, strict) && ListFits(q.ad.filter, key, false)
    ensures key.Some? ==> SilentChain(q.ad.filter)
    ensures forall j :: 0 <= j < |q.ad.joins| ==> q.ad.joins[j].Join?
    ensures |Snaps(q.boundNodes, q.ad.joins)| == |q.ad.joins|
    ensures q.ad.filter != [] ==>
              FilterApart(q) && Foot(q.subNodes) <= q.nodes - {q} && Bufs(q.subNodes) <= q.buffers - {q.values}
  {
    forall j | 0 <= j < |q.boundNodes|
      ensures q.boundNodes[j] != [] && ChainOk(q.boundNodes[j], Factor(q.ad.joins, j)) && q !in q.boundNodes[j]
    {
    }
  }

  lemma FilterParts(q: Query)
    requires LevelOk(q) && FilterApart(q)
    ensures ChainOk(q.subNodes, q.ad.filter) && q.sub == q.subNodes[0]
    ensures Foot(q.subNodes) !! ProdFoot(q.boundNodes) && Bufs(q.subNodes) !! ProdBufs(q.boundNodes)
    ensures Members(q.boundNodes) <= ProdFoot(q.boundNodes)
  {
    forall j | 0 <= j < |q.boundNodes|
      ensures forall n :: n in q.boundNodes[j] ==> n in Foot(q.boundNodes[j])
    {
      assert ChainOk(q.boundNodes[j], q.ad.joins[j].factor);
    }
  }

  lemma TestEnds(q: Query, row: Datum, a: Snapshot, b: Snapshot, key: Option<KeyTree>, v: Option<Datum>,
      key': Option<KeyTree>)
    requires q.ad.Bound? && q.ad.filter != [] && (key.Some? ==> SilentChain(q.ad.filter))
    requires ResetDone(q.ad.filter, row, a, b, v)
    requires KeysDone(q.ad.filter, v.Some?, Curs(b.views), key, key', false)
    ensures key' == key
    ensures Verdict(q.ad.filter, q.ad.truth, row) == if v.None? then None else Some(q.ad.truth(v.value))
  {
  }

  lemma ResetRows(before: seq<Snapshot>, after: seq<Snapshot>, joins: seq<AttrDef>, values: seq<Datum>, d: Datum,
      key: Option<KeyTree>)
    requires ResetSoFar(joins, d, 0, |joins|, before, after, values, key)
    requires forall j :: 0 <= j < |joins| ==> joins[j].Join?
    ensures Rows(after, joins, values, d) == ChainItems(joins, Row(d, []))
    ensures Advanceable(after, joins, Some(d)) && AllShown(after, joins, key)
  {
    FreshProduct(after, joins, values, d);
    assert Curs(ProdViews(after, joins, values, d)) == ProdKeys(after);
  }

  lemma {:induction false} EmptyFactor(joins: seq<AttrDef>, j: nat, row: Datum)
    requires j < |joins| && row.Row? && forall i :: 0 <= i < |joins| ==> joins[i].Join?
    requires ChainItems(joins[j].factor, row.owner) == []
    ensures ChainItems(joins, row) == []
    decreases |joins|, 0
  {
    if j > 0 { EmptyFactorItems(LevelItems(joins[0], row), joins[1..], j - 1, row); }
  }

  lemma {:induction false} EmptyFactorItems(items: seq<Item>, joins: seq<AttrDef>, j: nat, row: Datum)
    requires j < |joins| && row.Row? && forall i :: 0 <= i < |joins| ==> joins[i].Join?
    requires ChainItems(joins[j].factor, row.owner) == []
    requires forall i :: 0 <= i < |items| ==> items[i].datum.Row? && items[i].datum.owner == row.owner
    ensures Extend(items, joins) == []
    decreases |joins|, |items| + 1
  {
    if items != [] {
      EmptyFactor(joins, j, items[0].datum);
      EmptyFactorItems(items[1..], joins, j, row);
    }
  }

  /** The parts of the conditions on a bound compound. */
  lemma BoundTame(ad: AttrDef, d: Datum)
    requires ad.Bound? && forall j :: 0 <= j < |ad.joins| ==> ad.joins[j].Join?
    ensures TameLevel(ad, d) ==>
              && ResetTame(ad.joins, d, 0)
              && (FirstEmpty(ad.joins, d, 0) == |ad.joins| ==> AllTame(ad.joins, d))
              && RowsTame(ad.filter, AllRows(ad, d)) && NoStall(AllRows(ad, d), ad.filter, ad.truth)
    ensures TrapFree(ad, d) && FirstEmpty(ad.joins, d, 0) < |ad.joins| ==>
              var e := FirstEmpty(ad.joins, d, 0);
              && !SecondResult(ad.joins, d) && TrapFreeChain(Factor(ad.joins, e), d)
              && forall j :: 0 <= j < e ==> SafeAfter(Factor(ad.joins, j), d)
    ensures Settles(ad, d) && FirstEmpty(ad.joins, d, 0) < |ad.joins| ==>
              var e := FirstEmpty(ad.joins, d, 0);
              && SettlesChain(Factor(ad.joins, e), d)
              && forall j :: 0 <= j < e ==> TidyChain(Factor(ad.joins, j), d)
    ensures LevelItems(ad, d) == AcceptedItems(AllRows(ad, d), ad.filter, ad.truth)
  {
    hide TrapFreeChain, SettlesChain, SecondResult, TidyChain, ChainItems, TameChain, SafeAfter, NoStall;
  }

  /** The last query ahead of the first empty one with a second result. */
  lemma {:induction false} LastSecond(joins: seq<AttrDef>, d: Datum, e: nat) returns (i: nat)
    requires exists j :: 0 <= j < e && |ChainItems(Factor(joins, j), d)| > 1
    ensures i < e && |ChainItems(Factor(joins, i), d)| > 1
    ensures forall j :: i < j < e ==> |ChainItems(Factor(joins, j), d)| <= 1
    decreases e
  {
    hide ChainItems;
    if |ChainItems(Factor(joins, e - 1), d)| > 1 {
      i := e - 1;
    } else {
      i := LastSecond(joins, d, e - 1);
    }
  }

  /** What queries have left after a failed reset, if nothing was left before. */
  lemma FailedLeft(before: seq<Snapshot>, after: seq<Snapshot>, joins: seq<AttrDef>, d: Datum)
    requires ResetFailed(before, after, joins, d, 0) && AllNothing(before, joins) && AllLive(before)
    ensures forall j :: 0 <= j < FirstEmpty(joins, d, 0) ==>
              (NothingLeft(after[j], Factor(joins, j)) <==> |ChainItems(Factor(joins, j), d)| <= 1)
    ensures forall j :: FirstEmpty(joins, d, 0) <= j < |joins| ==> NothingLeft(after[j], Factor(joins, j))
  {
    hide Left, ChainItems, TameChain, SafeAfter, TrapFreeChain, SettlesChain, TidyChain, Factor, Fewer;
    var e := FirstEmpty(joins, d, 0);
    FewerLeft(after[e].views, before[e].views, Factor(joins, e));
  }

  lemma FailedArms(before: seq<Snapshot>, after: seq<Snapshot>, joins: seq<AttrDef>, d: Datum)
    requires ResetFailed(before, after, joins, d, 0) && AllNothing(before, joins) && AllLive(before)
    ensures if SecondResult(joins, d) then SomeArmed(after, joins) else AllNothing(after, joins)
  {
    hide ChainItems, NothingLeft, ResetFailed, Factor, AllLive;
    FailedLeft(before, after, joins, d);
    var e := FirstEmpty(joins, d, 0);
    assert e < |joins| == |after| by { FailedAtFirst(before, after, joins, d); }
    if SecondResult(joins, d) {
      var i := LastSecond(joins, d, e);
      assert ArmedAt(after, joins, i);
    }
  }

  lemma FailedAtFirst(before: seq<Snapshot>, after: seq<Snapshot>, joins: seq<AttrDef>, d: Datum)
    requires ResetFailed(before, after, joins, d, 0)
    ensures FirstEmpty(joins, d, 0) < |joins| == |after| == |before|
    ensures AllLive(before) ==> AllLive(after)
  {
    hide FailedOn, ChainItems;
    FailedLive(before, after, joins, d);
  }

  lemma FailedLive(before: seq<Snapshot>, after: seq<Snapshot>, joins: seq<AttrDef>, d: Datum)
    requires ResetFailed(before, after, joins, d, 0)
    ensures AllLive(before) ==> AllLive(after)
  {
    hide ChainItems, Left, TameChain, SafeAfter, TrapFreeChain, SettlesChain, TidyChain, Factor, Fewer;
  }

  /** Where the data are tame, a failed reset of calm queries leaves them safe. */
  lemma FailedSafe(ad: AttrDef, before: seq<Snapshot>, after: seq<Snapshot>, d: Datum)
    requires ad.Bound? && ResetFailed(before, after, ad.joins, d, 0)
    requires forall j :: 0 <= j < |ad.joins| ==> ad.joins[j].Join?
    requires AllSafe(before) && AllCalm(before) && AllSpent(before, ad.joins) && TameLevel(ad, d) && TrapFree(ad, d)
    ensures AllSafe(after) && AllSpent(after, ad.joins) && (Settles(ad, d) ==> AllCalm(after))
  {
    BoundTame(ad, d);
    hide TameLevel, TrapFree, Settles, Left, ChainItems, TameChain, SafeAfter, TrapFreeChain, SettlesChain, TidyChain,
      Factor, Fewer;
    var joins, e := ad.joins, FirstEmpty(ad.joins, d, 0);
    FailedLeft(before, after, joins, d);
    FailedLive(before, after, joins, d);
    forall j | 0 <= j < |joins|
      ensures after[j].safe && NothingLeft(after[j], Factor(joins, j)) && (Settles(ad, d) ==> after[j].calm)
    {
      if j < e {
        assert Fresh(after[j], Factor(joins, j), d, FirstDatum(joins, d, j));
        assert |ChainItems(Factor(joins, j), d)| <= 1;
      } else if j > e {
        assert after[j] == before[j];
      }
    }
  }

  /** A failed product reset as a reset of the level. */
  lemma FailsTo(ad: AttrDef, d: Datum, s: Status, s': Status, before: seq<Snapshot>, after: seq<Snapshot>,
      values: seq<Datum>, values': seq<Datum>, product: Option<Datum>)
    requires BoundLike(ad, s, before, values, product) && BoundLike(ad, s', after, values', None)
    requires ResetFailed(before, after, ad.joins, d, 0)
    requires s'.view.rest == [] && s'.view.log == s.view.log + [d]
    ensures ResetTo(ad, d, s, s', None)
  {
    NoRows(ad, before, after, d);
    FailedAtFirst(before, after, ad.joins, d);
    hide ResetFailed, LevelItems, TameLevel, TrapFree, Settles, Tidy, Advanceable, NothingLeft, Spent, AllTame, Factor,
      ProdLeft, ProdKeys, SecondResult, SomeArmed, AllSpent, AllNothing, AllLive, AllSafe, AllCalm, RowsTame;
    if s.empty { FailedArms(before, after, ad.joins, d); }
    if TameLevel(ad, d) && s.calm && TrapFree(ad, d) {
      FailedSafe(ad, before, after, d);
    }
  }

  lemma NoRows(ad: AttrDef, before: seq<Snapshot>, after: seq<Snapshot>, d: Datum)
    requires ad.Bound? && ResetFailed(before, after, ad.joins, d, 0)
    requires forall j :: 0 <= j < |ad.joins| ==> ad.joins[j].Join?
    ensures LevelItems(ad, d) == [] && AllRows(ad, d) == []
  {
    hide Left, FailedOn, Fresh;
    EmptyFactor(ad.joins, FirstEmpty(ad.joins, d, 0), Row(d, []));
  }

  lemma NotEmpty(joins: seq<AttrDef>, d: Datum)
    requires forall j :: 0 <= j < |joins| ==> ChainItems(Factor(joins, j), d) != []
    ensures FirstEmpty(joins, d, 0) == |joins|
  {
    hide ChainItems;
  }

  lemma OutNothing(ss: seq<Snapshot>, joins: seq<AttrDef>, tame: bool)
    requires AllOut(ss, tame) && |ss| == |joins| && forall j :: 0 <= j < |joins| ==> |ss[j].views| == |Factor(joins, j)|
    ensures AllNothing(ss, joins) && AllSpent(ss, joins) && AllLive(ss) && (tame ==> AllSafe(ss) && AllCalm(ss))
  {
    hide Left, Factor;
    forall j | 0 <= j < |joins|
      ensures NothingLeft(ss[j], Factor(joins, j))
    {
      LeftNone(ss[j].views, Factor(joins, j));
    }
  }

  /** All rows were rejected. */
  lemma RejectsTo(ad: AttrDef, d: Datum, s: Status, s': Status, ss: seq<Snapshot>, values: seq<Datum>)
    requires BoundLike(ad, s', ss, values, None) && AllOut(ss, TameLevel(ad, d)) && LevelItems(ad, d) == []
    requires NoStall(AllRows(ad, d), ad.filter, ad.truth)
    requires FirstEmpty(ad.joins, d, 0) == |ad.joins|
    requires s'.view.rest == [] && s'.view.log == s.view.log + [d]
    ensures ResetTo(ad, d, s, s', None)
  {
    OutNothing(ss, ad.joins, TameLevel(ad, d));
    hide LevelItems, TameLevel, TrapFree, Settles, Tidy, SomeArmed, AllNothing, AllSpent, AllLive, AllSafe, AllCalm,
      AllOut;
  }

  /** The product was reset with success: the first row is in hand. */
  lemma ResetOnRow(q: Query, d: Datum, before: seq<Snapshot>, key: Option<KeyTree>)
    requires LevelOk(q) && q.ad.Bound?
    requires ResetSoFar(q.ad.joins, d, 0, |q.ad.joins|, before, Snaps(q.boundNodes, q.ad.joins), q.values[..], key)
    ensures AllRows(q.ad, d) != [] && OnRow(q, d, AllRows(q.ad, d)[1..], key, true, TameLevel(q.ad, d))
    ensures Testing(q, d, AllRows(q.ad, d)[1..], LevelItems(q.ad, d), TameLevel(q.ad, d))
    ensures FirstEmpty(q.ad.joins, d, 0) == |q.ad.joins|
  {
    hide *;
    NoKeyLinks(q);
    FirstRowTame(q.ad, d, before, Snaps(q.boundNodes, q.ad.joins), q.values[..], key);
    OnRowFrom(q, d, AllRows(q.ad, d)[1..], key, true, TameLevel(q.ad, d));
    NextTesting(q, d, AllRows(q.ad, d), LevelItems(q.ad, d), TameLevel(q.ad, d));
  }

  lemma NoKeyLinks(q: Query)
    requires LevelOk(q) && q.ad.Bound?
    ensures |q.boundNodes| == |q.ad.joins| == q.values.Length > 0
    ensures |Snaps(q.boundNodes, q.ad.joins)| == |q.ad.joins|
    ensures forall j :: 0 <= j < |q.ad.joins| ==> q.ad.joins[j].Join?
  {
    BoundLinks(q, None, false);
  }

  lemma FirstRowTame(ad: AttrDef, d: Datum, before: seq<Snapshot>, ss: seq<Snapshot>, values: seq<Datum>,
      key: Option<KeyTree>)
    requires ad.Bound? && forall j :: 0 <= j < |ad.joins| ==> ad.joins[j].Join?
    requires ResetSoFar(ad.joins, d, 0, |ad.joins|, before, ss, values, key)
    ensures |ss| == |ad.joins| == |values| && FirstEmpty(ad.joins, d, 0) == |ad.joins|
    ensures var ps := AllRows(ad, d);
            && ps != [] && ps[0] == Path(ProdKeys(ss), Row(d, values))
               && LevelItems(ad, d) == AcceptedItems(ps, ad.filter, ad.truth)
            && Iterating(ss, ad.joins, values, d, ps[1..]) && AllShown(ss, ad.joins, key)
            && (TameLevel(ad, d) ==>
                 TameRows(ss, ad, d, ps[1..]) && NoStall(ps, ad.filter, ad.truth) && TameChain(ad.filter, ps[0].datum))
  {
    BoundTame(ad, d);
    hide ChainItems, Left, ProdLeft, ProdKeys, Fresh, ListHolds, LevelItems, TameLevel, TameChain, NoStall, AllShown,
      Advanceable, Factor, AllTame, SafeAfter;
    ResetRows(before, ss, ad.joins, values, d, key);
    FirstNone(ad.joins, d, before, ss, values, key);
    if TameLevel(ad, d) { FreshSafe(ad.joins, d, before, ss, values, key); }
  }

  lemma FirstNone(joins: seq<AttrDef>, d: Datum, before: seq<Snapshot>, ss: seq<Snapshot>, values: seq<Datum>,
      key: Option<KeyTree>)
    requires ResetSoFar(joins, d, 0, |joins|, before, ss, values, key)
    ensures FirstEmpty(joins, d, 0) == |joins|
  {
    hide ChainItems, Fresh, ListHolds;
    FreshNotEmpty(joins, d, 0, |joins|, before, ss, values, key);
    NotEmpty(joins, d);
  }

  lemma FreshSafe(joins: seq<AttrDef>, d: Datum, before: seq<Snapshot>, ss: seq<Snapshot>, values: seq<Datum>,
      key: Option<KeyTree>)
    requires ResetSoFar(joins, d, 0, |joins|, before, ss, values, key) && AllTame(joins, d)
    ensures AllSafe(ss)
  {
    hide ChainItems, Left, TameChain, SafeAfter, TidyChain, ListHolds, Factor;
  }

  /** A tidy product has one row, and on it all queries are calm, with nothing left. */
  lemma TidyRow(ad: AttrDef, d: Datum, before: seq<Snapshot>, ss: seq<Snapshot>, values: seq<Datum>,
      key: Option<KeyTree>)
    requires ad.Bound? && Tidy(ad, d) && AllTame(ad.joins, d)
    requires forall j :: 0 <= j < |ad.joins| ==> ad.joins[j].Join?
    requires ResetSoFar(ad.joins, d, 0, |ad.joins|, before, ss, values, key)
    ensures AllCalm(ss) && AllSpent(ss, ad.joins) && |AllRows(ad, d)| == 1
  {
    TidyJoins(ad, d);
    hide ChainItems, Left, TidyChain, Tidy, ListHolds, LevelItems, TameChain, SafeAfter, Factor;
    forall j | 0 <= j < |ad.joins|
      ensures ss[j].calm && ss[j].live && NothingLeft(ss[j], Factor(ad.joins, j))
    {
      assert Fresh(ss[j], Factor(ad.joins, j), d, values[j]);
    }
    OnlyRow(ss, ad.joins, values, d);
    ResetRows(before, ss, ad.joins, values, d, key);
  }

  lemma TidyJoins(ad: AttrDef, d: Datum)
    requires ad.Bound? && Tidy(ad, d) && forall j :: 0 <= j < |ad.joins| ==> ad.joins[j].Join?
    ensures forall j :: 0 <= j < |ad.joins| ==>
              |ChainItems(Factor(ad.joins, j), d)| <= 1 && TidyChain(Factor(ad.joins, j), d)
  {
    hide ChainItems, TidyChain, LevelItems;
  }

  lemma OnlyRow(ss: seq<Snapshot>, joins: seq<AttrDef>, values: seq<Datum>, d: Datum)
    requires |ss| == |joins| == |values|
    requires forall j :: 0 <= j < |joins| ==> NothingLeft(ss[j], Factor(joins, j))
    ensures |Rows(ss, joins, values, d)| == 1
  {
    hide Left;
    var vs := ProdViews(ss, joins, values, d);
    forall j | 0 <= j < |joins|
      ensures vs[j].rest == []
    {
    }
    LeftNone(vs, joins);
  }

  lemma AcceptHead(ps: seq<Path>, filter: seq<AttrDef>, truth: Datum -> bool)
    requires ps != []
    ensures var v := Verdict(filter, truth, ps[0].datum);
            && (v == Some(true) ==>
                 AcceptedItems(ps, filter, truth)
                     == [Item(KeyList(ps[0].keys), ps[0].datum)] + AcceptedItems(ps[1..], filter, truth))
            && (v != Some(true) ==> AcceptedItems(ps, filter, truth) == AcceptedItems(ps[1..], filter, truth))
            && (NoStall(ps, filter, truth) <==> v.Some? && (!v.value ==> NoStall(ps[1..], filter, truth)))
    ensures filter == [] ==> Verdict(filter, truth, ps[0].datum) == Some(true)
  {
  }

  lemma ShownBound(ad: AttrDef, ss: seq<Snapshot>, key: Option<KeyTree>)
    requires ad.Bound? && |ss| == |ad.joins| && AllShown(ss, ad.joins, key) && ListFits(ad.joins, key, false)
    requires forall j :: 0 <= j < |ad.joins| ==> ad.joins[j].Join?
    ensures KeyHolds(ad, key, KeyList(ProdKeys(ss)))
  {
    if key.Some? {
      forall j | 0 <= j < |ad.joins|
        ensures Holds(ad.joins[j], key.value.items[j], ProdKeys(ss)[j])
      {
        assert ListHolds(Factor(ad.joins, j), SlotOf(key, j), Curs(ss[j].views));
        assert Fits(ad.joins[j], key.value.items[j], false);
      }
    }
  }

  lemma BoundKeyFits(ad: AttrDef, key: Option<KeyTree>, key': Option<KeyTree>, strict: bool)
    requires ad.Bound? && KeyFits(ad, key, strict) && key'.Some? == key.Some? && ListFits(ad.joins, key', strict)
    ensures KeyFits(ad, key', strict)
  {
  }

  lemma OnRowParts(q: Query, d: Datum, ps: seq<Path>, key: Option<KeyTree>, shown: bool, tame: bool)
    requires OnRow(q, d, ps, key, shown, tame)
    ensures LevelOk(q) && q.ad.Bound? && |q.ad.joins| == q.values.Length == |q.boundNodes|
    ensures Iterating(Snaps(q.boundNodes, q.ad.joins), q.ad.joins, q.values[..], d, ps)
    ensures Advanceable(Snaps(q.boundNodes, q.ad.joins), q.ad.joins, Some(d))
    ensures shown ==> AllShown(Snaps(q.boundNodes, q.ad.joins), q.ad.joins, key)
    ensures tame ==> TameRows(Snaps(q.boundNodes, q.ad.joins), q.ad, d, ps)
                     && AdvanceTame(Snaps(q.boundNodes, q.ad.joins), q.ad.joins, Some(d))
                     && (ps != [] ==> TameChain(q.ad.filter, ps[0].datum))
  {
  }

  lemma OnRowFrom(q: Query, d: Datum, ps: seq<Path>, key: Option<KeyTree>, shown: bool, tame: bool)
    requires LevelOk(q) && q.ad.Bound?
    requires Iterating(Snaps(q.boundNodes, q.ad.joins), q.ad.joins, q.values[..], d, ps)
    requires shown ==> AllShown(Snaps(q.boundNodes, q.ad.joins), q.ad.joins, key)
    requires tame ==> TameRows(Snaps(q.boundNodes, q.ad.joins), q.ad, d, ps)
    ensures OnRow(q, d, ps, key, shown, tame)
  {
  }

  lemma AdvanceOnRow(q: Query, d: Datum, ps: seq<Path>, before: seq<Snapshot>, vals: seq<Datum>,
      key': Option<KeyTree>, shown: bool, tame: bool, ok: bool)
    requires LevelOk(q) && q.ad.Bound?
    requires Iterating(before, q.ad.joins, vals, d, ps) && (tame ==> TameRows(before, q.ad, d, ps))
    requires AdvanceDone(before, Snaps(q.boundNodes, q.ad.joins), q.ad.joins, vals, q.values[..], d, key', shown, ok)
    ensures ok == (ps != [])
    ensures !ok ==> AllOut(Snaps(q.boundNodes, q.ad.joins), tame)
    ensures ok ==>
              && OnRow(q, d, ps[1..], key', shown, tame)
              && ps[0] == Path(ProdKeys(Snaps(q.boundNodes, q.ad.joins)), Row(d, q.values[..]))
              && (tame ==> TameChain(q.ad.filter, Row(d, q.values[..])))
  {
    hide TameChain, ProdLeft, LevelOk, Snaps, AllShown, Factor, AllTame;
  }

  lemma TestHead(q: Query, d: Datum, ps: seq<Path>, items: seq<Item>, tame: bool)
    requires Testing(q, d, ps, items, tame)
    ensures q.ad.Bound? && (tame ==> TameChain(q.ad.filter, Row(d, q.values[..])))
    ensures var row := Row(d, q.values[..]);
            var v := Verdict(q.ad.filter, q.ad.truth, row);
            && (v == Some(true) ==>
                 (items == [Item(KeyList(ProdKeys(Snaps(q.boundNodes, q.ad.joins))), row)]
                     + AcceptedItems(ps, q.ad.filter, q.ad.truth)))
            && (v != Some(true) ==> items == AcceptedItems(ps, q.ad.filter, q.ad.truth))
            && (tame ==> v.Some? && (!v.value ==> NoStall(ps, q.ad.filter, q.ad.truth)))
            && (v.None? ==> !NoStall(AllRows(q.ad, d), q.ad.filter, q.ad.truth))
            && (v == Some(true) ==> NoStall(AllRows(q.ad, d), q.ad.filter, q.ad.truth))
            && (v == Some(false) ==>
                 (NoStall(ps, q.ad.filter, q.ad.truth) <==> NoStall(AllRows(q.ad, d), q.ad.filter, q.ad.truth)))
            && (q.ad.filter == [] ==> v == Some(true))
            && (ps == [] && v != Some(true) ==> items == [])
  {
    hide TameChain;
    var rows := [Path(ProdKeys(Snaps(q.boundNodes, q.ad.joins)), Row(d, q.values[..]))] + ps;
    assert rows[1..] == ps;
    AcceptHead(rows, q.ad.filter, q.ad.truth);
  }

  lemma NextTesting(q: Query, d: Datum, ps: seq<Path>, items: seq<Item>, tame: bool)
    requires q.ad.Bound? && |q.ad.joins| == q.values.Length == |q.boundNodes|
    requires ps != [] && ps[0] == Path(ProdKeys(Snaps(q.boundNodes, q.ad.joins)), Row(d, q.values[..]))
    requires items == AcceptedItems(ps, q.ad.filter, q.ad.truth)
    requires NoStall(ps, q.ad.filter, q.ad.truth) <==> NoStall(AllRows(q.ad, d), q.ad.filter, q.ad.truth)
    requires tame ==> NoStall(ps, q.ad.filter, q.ad.truth) && TameChain(q.ad.filter, Row(d, q.values[..]))
    ensures Testing(q, d, ps[1..], items, tame)
  {
    hide TameChain;
    assert [ps[0]] + ps[1..] == ps;
  }

  /** The first accepted row is in hand. */
  lemma SucceedsTo(ad: AttrDef, d: Datum, s: Status, s': Status, ss: seq<Snapshot>, values: seq<Datum>, ps: seq<Path>)
    requires BoundLike(ad, s', ss, values, Some(d)) && Iterating(ss, ad.joins, values, d, ps)
    requires NoStall(AllRows(ad, d), ad.filter, ad.truth)
    requires TameLevel(ad, d) ==> TameRows(ss, ad, d, ps) && (Tidy(ad, d) ==> AllCalm(ss) && AllSpent(ss, ad.joins))
    requires LevelItems(ad, d) == [Item(KeyList(ProdKeys(ss)), Row(d, values))] + AcceptedItems(ps, ad.filter, ad.truth)
    requires s'.view == View(LevelItems(ad, d)[1..], LevelItems(ad, d)[0].key, s.view.log + [d])
    ensures ResetTo(ad, d, s, s', Some(Row(d, values)))
  {
    AllThere(ss, ad.joins, d);
    hide LevelItems, TameLevel, TrapFree, Settles, Tidy, AllCalm, AllSpent, AcceptedItems, ProdLeft, AllTame,
      AllNothing, SomeArmed;
  }

  lemma AllThere(ss: seq<Snapshot>, joins: seq<AttrDef>, d: Datum)
    requires Advanceable(ss, joins, Some(d))
    ensures FirstEmpty(joins, d, 0) == |joins|
  {
    NotEmpty(joins, d);
  }

  lemma AcceptNone(filter: seq<AttrDef>, truth: Datum -> bool)
    ensures AcceptedItems([], filter, truth) == [] && NoStall([], filter, truth)
  {
  }

  lemma NotStrict(ads: seq<AttrDef>, key: Option<KeyTree>, strict: bool)
    requires ListFits(ads, key, strict)
    ensures ListFits(ads, key, false)
  {
    if key.Some? { FitsNotStrict(ads, key.value.items, strict); }
  }

  lemma BoundNotStrict(ad: AttrDef, key: Option<KeyTree>, strict: bool)
    requires ad.Bound? && KeyFits(ad, key, strict)
    ensures ListFits(ad.joins, key, false)
  {
    NotStrict(ad.joins, key, strict);
  }

  lemma BoundShown(ad: AttrDef, ss: seq<Snapshot>, key: Option<KeyTree>)
    requires ad.Bound? && |ss| == |ad.joins| && KeyHolds(ad, key, KeyList(ProdKeys(ss)))
    requires forall j :: 0 <= j < |ad.joins| ==> ad.joins[j].Join?
    ensures AllShown(ss, ad.joins, key)
  {
    if key.Some? {
      assert Holds(ad, key.value, KeyList(ProdKeys(ss)));
      assert HoldsChain(ad.joins, key.value.items, ProdKeys(ss));
      forall j | 0 <= j < |ad.joins|
        ensures ListHolds(Factor(ad.joins, j), SlotOf(key, j), Curs(ss[j].views))
      {
        assert Holds(ad.joins[j], key.value.items[j], ProdKeys(ss)[j]);
      }
    }
  }


  /** After a tidy reset no row was skipped: the queries are calm and spent. */
  lemma TidyStays(q: Query, d: Datum, before: seq<Snapshot>, first: seq<Snapshot>, values: seq<Datum>,
      key: Option<KeyTree>)
    requires LevelOk(q) && q.ad.Bound? && Tidy(q.ad, d) && TameLevel(q.ad, d)
    requires ResetSoFar(q.ad.joins, d, 0, |q.ad.joins|, before, first, values, key)
    requires FirstEmpty(q.ad.joins, d, 0) == |q.ad.joins| && AllRows(q.ad, d) != []
    requires AllRows(q.ad, d)[1..] == [] ==> Snaps(q.boundNodes, q.ad.joins) == first
    ensures AllCalm(Snaps(q.boundNodes, q.ad.joins)) && AllSpent(Snaps(q.boundNodes, q.ad.joins), q.ad.joins)
  {
    BoundLinks(q, None, false);
    BoundTame(q.ad, d);
    hide ResetSoFar, AllTame, AllRows, TameLevel, Tidy, Snaps, AllCalm, AllSpent, LevelOk;
    TidyRow(q.ad, d, before, first, values, key);
  }

  /** The key list after a reset or yield of a bound compound that gave a row. */
  lemma BoundShows(q: Query, key: Option<KeyTree>, key': Option<KeyTree>, strict: bool)
    requires LevelOk(q) && q.ad.Bound? && KeyFits(q.ad, key', strict)
    requires AllShown(Snaps(q.boundNodes, q.ad.joins), q.ad.joins, key')
    requires q.view.cur == KeyList(ProdKeys(Snaps(q.boundNodes, q.ad.joins)))
    ensures KeyHolds(q.ad, key', q.view.cur)
  {
    BoundLinks(q, key', strict);
    BoundNotStrict(q.ad, key', strict);
    hide LevelOk, Snaps, AllShown, ProdKeys;
    ShownBound(q.ad, Snaps(q.boundNodes, q.ad.joins), key');
  }

  lemma BoundEnds(q: Query, d: Datum, was: Status, r: Option<Datum>, key: Option<KeyTree>, key': Option<KeyTree>,
      strict: bool)
    requires LevelOk(q) && q.ad.Bound? && ResetTo(q.ad, d, was, Stat(q), r)
    requires key'.Some? == key.Some? && KeyFits(q.ad, key', strict) && (r.Some? ==> KeyHolds(q.ad, key', q.view.cur))
    ensures LevelResetDone(q, d, was, r, key, key', strict)
  {
    hide Stat, ResetTo, Fits, Holds;
  }

  lemma YieldEnds(q: Query, was: Status, r: Option<Datum>, key: Option<KeyTree>, key': Option<KeyTree>, strict: bool)
    requires LevelOk(q) && q.ad.Bound? && YieldTo(was, Stat(q), r)
    requires key'.Some? == key.Some? && KeyFits(q.ad, key', strict)
    requires r.Some? && KeyHolds(q.ad, key, was.view.cur) ==> KeyHolds(q.ad, key', q.view.cur)
    ensures LevelYieldDone(q, was, r, key, key', strict)
  {
    hide Stat, YieldTo, Fits, Holds;
  }

  lemma ArmedNone(q: Query)
    requires LevelOk(q) && q.state.product.Some?
    ensures !Armed(q)
  {
  }

  lemma NullParts(ad: AttrDef, s: Status, ss: seq<Snapshot>, values: seq<Datum>)
    requires BoundLike(ad, s, ss, values, None) && s.live
    ensures Advanceable(ss, ad.joins, None) && s.view.rest == []
    ensures s.safe ==> AdvanceTame(ss, ad.joins, None)
  {
    hide Spent;
  }

  /** What an advance with a NULL owner that ended well says of the state before. */
  lemma NullEnds(ad: AttrDef, s: Status, ss: seq<Snapshot>, ss': seq<Snapshot>, values: seq<Datum>, ok: bool)
    requires BoundLike(ad, s, ss, values, None) && NullAdvance(ss, ss', ad.joins, ok)
    ensures !s.armed && (s.safe ==> !ok)
  {
    hide Left, Gone, ProdLeft;
  }

  lemma NullYieldTo(ad: AttrDef, s: Status, s': Status, ss: seq<Snapshot>, ss': seq<Snapshot>, values: seq<Datum>,
      values': seq<Datum>, ok: bool)
    requires BoundLike(ad, s, ss, values, None) && NullAdvance(ss, ss', ad.joins, ok) && s.live
    requires BoundLike(ad, s', ss', values', None) && s'.view == s.view
    ensures YieldTo(s, s', None)
  {
    if !ok { GoneNothing(ss, ss', ad.joins); }
    hide Left, NoneLeft, SomeArmed;
  }

  lemma GoneNothing(ss: seq<Snapshot>, ss': seq<Snapshot>, joins: seq<AttrDef>)
    requires AllGone(ss, ss') && |ss| == |joins|
    requires forall j :: 0 <= j < |joins| ==> |ss'[j].views| == |Factor(joins, j)|
    ensures AllNothing(ss', joins) && AllSpent(ss', joins) && AllLive(ss')
    ensures AllSafe(ss) ==> AllSafe(ss') && AllCalm(ss')
  {
    assert AllOut(ss', false);
    OutNothing(ss', joins, false);
  }

  lemma OutYieldTo(ad: AttrDef, s: Status, s': Status, ss: seq<Snapshot>, values: seq<Datum>, tame: bool)
    requires BoundLike(ad, s', ss, values, None) && AllOut(ss, tame) && (s.safe ==> tame)
    requires s.view.rest == [] && s'.view == View([], s.view.cur, s.view.log)
    ensures YieldTo(s, s', None)
  {
    OutNothing(ss, ad.joins, tame);
    hide SomeArmed, AllNothing, AllSpent, AllLive, AllSafe, AllCalm, AllOut;
  }

  lemma OwnedParts(q: Query, key: Option<KeyTree>, d: Datum)
    requires LevelOk(q) && q.ad.Bound? && LevelLive(q) && q.state.product == Some(d) && ListFits(q.ad.joins, key, false)
    ensures |Snaps(q.boundNodes, q.ad.joins)| == |q.ad.joins| == q.values.Length
    ensures var ss := Snaps(q.boundNodes, q.ad.joins);
            var ps := ProdLeft(ss, q.ad.joins, q.values[..], d);
            && OnRow(q, d, ps, key, KeyHolds(q.ad, key, q.view.cur), LevelSafe(q))
            && q.view.rest == AcceptedItems(ps, q.ad.filter, q.ad.truth)
  {
    hide *;
    BoundIs(q);
    StatLive(q);
    NoKeyLinks(q);
    var ss := Snaps(q.boundNodes, q.ad.joins);
    OwnedLike(q.ad, Stat(q), ss, q.values[..], d);
    if KeyHolds(q.ad, key, q.view.cur) { BoundShown(q.ad, ss, key); }
    OnRowFrom(q, d, ProdLeft(ss, q.ad.joins, q.values[..], d), key, KeyHolds(q.ad, key, q.view.cur), LevelSafe(q));
  }

  lemma OwnedLike(ad: AttrDef, s: Status, ss: seq<Snapshot>, values: seq<Datum>, d: Datum)
    requires BoundLike(ad, s, ss, values, Some(d)) && s.live
    ensures |ss| == |ad.joins| == |values| && s.view.cur == KeyList(ProdKeys(ss))
    ensures var ps := ProdLeft(ss, ad.joins, values, d);
            && Iterating(ss, ad.joins, values, d, ps) && (s.safe ==> TameRows(ss, ad, d, ps))
            && s.view.rest == AcceptedItems(ps, ad.filter, ad.truth)
  {
    hide ProdLeft, ProdKeys, AllTame, RowsTame, AllSafe, Advanceable;
  }

  lemma RowYieldTo(ad: AttrDef, d: Datum, s: Status, s': Status, ss: seq<Snapshot>, values: seq<Datum>, ps: seq<Path>,
      tame: bool)
    requires BoundLike(ad, s', ss, values, Some(d)) && Iterating(ss, ad.joins, values, d, ps)
    requires (tame ==> TameRows(ss, ad, d, ps)) && (s.safe ==> tame)
    requires s.view.rest == [Item(KeyList(ProdKeys(ss)), Row(d, values))] + AcceptedItems(ps, ad.filter, ad.truth)
    requires s'.view == View(s.view.rest[1..], s.view.rest[0].key, s.view.log)
    ensures YieldTo(s, s', Some(Row(d, values)))
  {
    hide AllCalm, AllSpent, AcceptedItems, ProdLeft, AllTame, AllNothing, SomeArmed;
  }

  lemma InHandIs(q: Query, d: Datum)
    requires q.ad.Bound? && |q.ad.joins| == q.values.Length == |q.boundNodes|
    ensures InHand(q, d) == [Item(KeyList(ProdKeys(Snaps(q.boundNodes, q.ad.joins))), Row(d, q.values[..]))]
  {
  }

  /** A yield that found the row in hand. */
  lemma RowEnds(q: Query, d: Datum, was: Status, ps: seq<Path>, key: Option<KeyTree>, key': Option<KeyTree>,
      shown: bool, tame: bool, strict: bool)
    requires OnRow(q, d, ps, key', shown, tame) && q.state.product == Some(d) && (was.safe ==> tame)
    requires was.view.rest == InHand(q, d) + AcceptedItems(ps, q.ad.filter, q.ad.truth)
    requires q.view == View(was.view.rest[1..], was.view.rest[0].key, was.view.log)
    requires key'.Some? == key.Some? && KeyFits(q.ad, key', strict) && (KeyHolds(q.ad, key, was.view.cur) ==> shown)
    ensures LevelYieldDone(q, was, Some(Row(d, q.values[..])), key, key', strict)
  {
    hide *;
    OnRowParts(q, d, ps, key', shown, tame);
    BoundLinks(q, key', strict);
    BoundIs(q);
    InHandIs(q, d);
    RowYieldTo(q.ad, d, was, Stat(q), Snaps(q.boundNodes, q.ad.joins), q.values[..], ps, tame);
    if shown { BoundShows(q, key, key', strict); }
    YieldEnds(q, was, Some(Row(d, q.values[..])), key, key', strict);
  }

  /** A yield that found no row. */
  lemma OutEnds(q: Query, was: Status, key: Option<KeyTree>, key': Option<KeyTree>, tame: bool, strict: bool)
    requires LevelOk(q) && q.ad.Bound? && q.state.product.None? && (was.safe ==> tame)
    requires AllOut(Snaps(q.boundNodes, q.ad.joins), tame)
    requires was.view.rest == [] && q.view == View([], was.view.cur, was.view.log)
    requires key'.Some? == key.Some? && KeyFits(q.ad, key', strict)
    ensures LevelYieldDone(q, was, None, key, key', strict)
  {
    hide *;
    BoundIs(q);
    OutYieldTo(q.ad, was, Stat(q), Snaps(q.boundNodes, q.ad.joins), q.values[..], tame);
    YieldEnds(q, was, None, key, key', strict);
  }
}
