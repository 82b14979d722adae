/** Where a run ends well, exactly: what the resets made in the course of it say
    of the data, for chains whose bound compounds are not nested. */
module Exactness {
  import opened Denotation
  import opened Search
  import opened Conditions
  import opened Levels
  import opened Chains

  /** No bound compound inside a forwarded chain, a filter or another one. */
  predicate Shallow(ads: seq<AttrDef>) {
    forall i :: 0 <= i < |ads| ==> ShallowLevel(ads[i])
  }

  predicate ShallowLevel(ad: AttrDef) {
    match ad
    case Bound(joins, filter, _) => BoundFree(joins) && BoundFree(filter)
    case _ => BoundFreeLevel(ad)
  }

  lemma JoinBoundFree(joins: seq<AttrDef>, j: nat)
    requires BoundFree(joins) && j < |joins|
    ensures joins[j].Join? ==> BoundFree(joins[j].factor)
    ensures BoundFree(Factor(joins, j))
  {
    BoundFreeAt(joins, j);
  }

  /** A reset of such a level ends well exactly if the filter loop does. */
  lemma ShallowTame(ad: AttrDef, d: Datum)
    requires ShallowLevel(ad)
    ensures TameLevel(ad, d) <==> Ends(ad, d)
  {
    if ad.Bound? {
      var rows := ChainItems(ad.joins, Row(d, []));
      forall j | 0 <= j < |ad.joins| && ad.joins[j].Join?
        ensures TameChain(ad.joins[j].factor, d) && SafeAfter(ad.joins[j].factor, d)
      {
        JoinBoundFree(ad.joins, j);
        BoundFreeTame(ad.joins[j].factor, d);
      }
      forall i | 0 <= i < |rows|
        ensures TameChain(ad.filter, rows[i].datum)
      {
        BoundFreeTame(ad.filter, rows[i].datum);
      }
    } else {
      BoundFreeTameLevel(ad, d);
    }
  }

  /** A yield after its failed reset is safe exactly if the reset is harmless. */
  lemma ShallowTrapFree(ad: AttrDef, d: Datum)
    requires ShallowLevel(ad)
    ensures TrapFree(ad, d) <==> Harmless(ad, d)
  {
    if ad.Bound? {
      var e := FirstEmpty(ad.joins, d, 0);
      forall j | 0 <= j < |ad.joins|
        ensures SafeAfter(Factor(ad.joins, j), d) && TrapFreeChain(Factor(ad.joins, j), d)
        ensures ad.joins[j].Join? ==> Factor(ad.joins, j) == ad.joins[j].factor
      {
        JoinBoundFree(ad.joins, j);
        BoundFreeTame(Factor(ad.joins, j), d);
        SettlesTrapFreeChain(Factor(ad.joins, j), d);
      }
      assert e < |ad.joins| ==> ad.joins[e].Join? by {
        assert ChainItems([], d) == [Path([], d)];
      }
    } else {
      BoundFreeTameLevel(ad, d);
    }
  }

  /** The data on which level `k` is reset in a full run below `d`. */
  ghost function ResetOn(ads: seq<AttrDef>, d: Datum, k: nat): set<Datum>
    requires k <= |ads|
  {
    PathData(ChainItems(ads[..k], d))
  }

  /** Resets on these data end well, and so does a yield that follows a failed one. */
  ghost predicate GoodData(ad: AttrDef, ys: set<Datum>) {
    forall y :: y in ys ==> Ends(ad, y) && Harmless(ad, y)
  }

  /** A chained reset that ended well met the condition for it. */
  lemma ShallowReset(ads: seq<AttrDef>, d: Datum, a: Snapshot, b: Snapshot, r: Option<Datum>)
    requires Shallow(ads) && ResetDone(ads, d, a, b, r)
    ensures TameChain(ads, d)
  {
    hide TameChain, TameLevel, Ends, SafeAfter, Left, ResetLogs, TrapFreeChain, SettlesChain, TidyChain, RestSafe;
    forall k, x | 0 <= k < |ads| && |a.views[k].log| <= x < |b.views[k].log|
      ensures TameLevel(ads[k], b.views[k].log[x])
    {
      assert NewEnd(ads[k], a.views[k].log, b.views[k].log);
      ShallowTame(ads[k], b.views[k].log[x]);
    }
  }

  /** If all resets below `d` are good, gets may come down to the chain with `d`. */
  lemma {:induction false} ShallowGet(ads: seq<AttrDef>, d: Datum)
    requires Shallow(ads)
    requires forall k :: 0 <= k < |ads| ==> GoodData(ads[k], ResetOn(ads, d, k))
    ensures GetTame(ads, d)
    decreases |ads|
  {
    if ads != [] {
      assert ads[..0] == [] && ChainItems(ads[..0], d) == [Path([], d)];
      assert ChainItems(ads[..0], d)[0].datum in ResetOn(ads, d, 0);
      ShallowTame(ads[0], d);
      ShallowTrapFree(ads[0], d);
      var items, below := LevelItems(ads[0], d), ads[1..];
      forall x | 0 <= x < |items|
        ensures GetTame(below, items[x].datum)
      {
        forall k | 0 <= k < |below|
          ensures GoodData(below[k], ResetOn(below, items[x].datum, k))
        {
          BelowData(ads, d, k, x);
        }
        ShallowGet(below, items[x].datum);
      }
    }
  }

  lemma BelowData(ads: seq<AttrDef>, d: Datum, k: nat, x: nat)
    requires ads != [] && k < |ads[1..]| && x < |LevelItems(ads[0], d)|
    ensures ResetOn(ads[1..], LevelItems(ads[0], d)[x].datum, k) <= ResetOn(ads, d, k + 1)
  {
    assert ads[..k+1][0] == ads[0] && ads[..k+1][1..] == ads[1..][..k];
    ExtendHas(LevelItems(ads[0], d), ads[1..][..k], x);
  }

  /** The chain `ads` gives nothing on these items that is not among `ps`. */
  ghost predicate Covers(ps: seq<Path>, items: seq<Item>, ads: seq<AttrDef>) {
    forall x :: 0 <= x < |items| ==> PathData(ChainItems(ads, items[x].datum)) <= PathData(ps)
  }

  /** What a level still yields makes the levels below it be reset on everything
      that comes from it. */
  lemma {:induction false} ClimbHas(vs: seq<View>, ads: seq<AttrDef>, k: nat, i: nat, inner: seq<Path>)
    requires i <= k <= |ads| && i <= |vs|
    ensures PathData(inner) <= PathData(Climb(vs, ads, k, i, inner))
    ensures forall j :: 0 <= j < i ==> Covers(Climb(vs, ads, k, i, inner), vs[j].rest, ads[j+1..k])
    decreases i
  {
    if i > 0 {
      var rest, below := vs[i-1].rest, ads[i..k];
      var wider := PrefixAll(vs[i-1].cur, inner) + Extend(rest, below);
      PathDataConcat(vs[i-1].cur, inner, Extend(rest, below));
      ClimbHas(vs, ads, k, i - 1, wider);
      forall x | 0 <= x < |rest|
        ensures PathData(ChainItems(below, rest[x].datum)) <= PathData(wider)
      {
        ExtendHas(rest, below, x);
      }
    }
  }

  /** If all resets still to come are good, gets that come down end well. */
  lemma ShallowSafe(vs: seq<View>, ads: seq<AttrDef>)
    requires Shallow(ads) && |vs| == |ads|
    requires forall k :: 0 <= k < |ads| ==> GoodData(ads[k], PathData(Ahead(vs, ads, k, |ads|, None)))
    ensures RestSafe(vs, ads, |ads|)
  {
    forall j, x | 0 <= j < |ads| && 0 <= x < |vs[j].rest|
      ensures GetTame(ads[j+1..], vs[j].rest[x].datum)
    {
      var below, y := ads[j+1..], vs[j].rest[x].datum;
      forall k | 0 <= k < |below|
        ensures GoodData(below[k], ResetOn(below, y, k))
      {
        assert below[..k] == ads[j+1..j+1+k];
        ClimbHas(vs, ads, j + 1 + k, j + 1 + k, []);
        assert Covers(Climb(vs, ads, j + 1 + k, j + 1 + k, []), vs[j].rest, ads[j+1..j+1+k]);
      }
      ShallowGet(below, y);
    }
  }
}
