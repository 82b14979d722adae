/** Splicing in whole runs: a query and the query with every forwarded chain
    spliced in handle the same data with the same flat keys. */
module Splicing {
  import opened Denotation
  import opened Conditions
  import opened Levels
  import opened Transparency
  import opened Exactness
  import opened SplicedConditions
  import Runs

  /** A well-formed chain refers to no query without levels. */
  lemma {:induction false} OkSolid(ns: seq<Query>, ads: seq<AttrDef>)
    requires ChainOk(ns, ads)
    ensures Solid(ads)
    decreases ads, 1
  {
    forall i | 0 <= i < |ads|
      ensures SolidLevel(ads[i])
    {
      assert ns[i].ad == ads[i] && LevelOk(ns[i]);
      OkSolidLevel(ns[i]);
    }
    AllSolid(ads);
  }

  lemma {:induction false} AllSolid(ads: seq<AttrDef>)
    requires forall i :: 0 <= i < |ads| ==> SolidLevel(ads[i])
    ensures Solid(ads)
    decreases |ads|
  {
    if ads != [] { AllSolid(ads[1..]); }
  }

  lemma {:induction false} OkSolidLevel(q: Query)
    requires LevelOk(q)
    ensures SolidLevel(q.ad)
    decreases q.ad, 0
  {
    match q.ad
    case Collection(_, _) =>
    case Scalar(_, _) =>
    case Fwd(sub) => OkSolid(q.subNodes, sub);
    case Filter(query, _) => OkSolid(q.subNodes, query);
    case Bound(joins, filter, _) =>
      forall j | 0 <= j < |joins|
        ensures SolidLevel(joins[j])
      {
        OkSolid(q.boundNodes[j], joins[j].factor);
      }
      AllSolid(joins);
      if filter != [] { OkSolid(q.subNodes, filter); }
  }

  lemma OkJoined(ns: seq<Query>, ads: seq<AttrDef>)
    requires ChainOk(ns, ads)
    ensures Joined(ads)
  {
    forall i, j | 0 <= i < |ads| && ads[i].Bound? && 0 <= j < |ads[i].joins|
      ensures ads[i].joins[j].Join?
    {
      assert ns[i].ad == ads[i] && LevelOk(ns[i]);
    }
  }

  /** The same flat keys, as far as both go. */
  predicate SameFlat(a: seq<seq<KeyTree>>, b: seq<seq<KeyTree>>) {
    forall t :: 0 <= t < |a| && t < |b| ==> FlatAll(a[t]) == FlatAll(b[t])
  }

  lemma SameRuns(ads: seq<AttrDef>, d: Datum, shown: seq<seq<KeyTree>>, shown': seq<seq<KeyTree>>)
    requires Solid(ads) && |shown| <= |ChainItems(ads, d)| && |shown'| <= |ChainItems(Inline(ads), d)|
    requires Runs.Shows(ads, shown, ChainItems(ads, d)[..|shown|], true)
    requires Runs.Shows(Inline(ads), shown', ChainItems(Inline(ads), d)[..|shown'|], true)
    ensures DataOf(ChainItems(ads, d)) == DataOf(ChainItems(Inline(ads), d))
    ensures SameFlat(shown, shown')
  {
    hide ChainItems, HoldsChain;
    InlineSame(ads, d);
  }

  lemma OnePrefix(a: seq<Datum>, b: seq<Datum>, all: seq<Datum>)
    requires a <= all && b <= all
    ensures a <= b || b <= a
  {
    if |a| <= |b| {
      assert a == b[..|a|];
    } else {
      assert b == a[..|b|];
    }
  }

  /** Runs of a query and of the spliced one over the same datum, with keys reserved
      for each.  The spliced one forwards nothing.  As far as both go, they
      handle the same data in the same order, and the key lists have the same
      flat view at every result.  If bound compounds are not nested, one of them
      ends well exactly if the other does. */
  method ProcessBoth(head: Query, head': Query, d: Datum, key: KeyTree, key': KeyTree, ghost ns: seq<Query>,
      ghost ns': seq<Query>, ghost ads: seq<AttrDef>)
    returns (end: Outcome, end': Outcome, out: seq<Datum>, out': seq<Datum>, shown: seq<seq<KeyTree>>,
      shown': seq<seq<KeyTree>>)
    requires ChainOk(ns, ads) && head == ns[0] && ListFits(ads, Some(key), true)
    requires ChainOk(ns', Inline(ads)) && head' == ns'[0]
    requires ListFits(Inline(ads), Some(key'), true) && Disjoint(ns, ns')
    modifies Foot(ns)`state, Foot(ns)`view, Bufs(ns), Foot(ns')`state, Foot(ns')`view, Bufs(ns')
    ensures Spliced(Inline(ads))
    ensures (out <= out' || out' <= out) && SameFlat(shown, shown') && |shown| == |out| && |shown'| == |out'|
    ensures end == Done && end' == Done ==> out == out'
    ensures Shallow(ads) ==>
              (end == Done <==> end' == Done) && (end == Done <==> TameChain(ads, d) && SafeAfter(ads, d))
    ensures BoundFree(ads) ==> end == Done && end' == Done
  {
    hide ChainOk, TameChain, SafeAfter, ListFits, ChainItems, Inline, Runs.Shows, Solid, SameFlat, Spliced, BoundFree,
      Runs.RunEnded, Shallow, Joined;
    OkSolid(ns, ads);
    OkJoined(ns, ads);
    InlineSplices(ads);
    var k;
    end, out, shown, k := Runs.ProcessRecords(head, d, Some(key), ns, ads, true);
    end', out', shown', k := Runs.ProcessRecords(head', d, Some(key'), ns', Inline(ads), true);
    SameRuns(ads, d, shown, shown');
    OnePrefix(out, out', DataOf(ChainItems(ads, d)));
    if Shallow(ads) {
      InlineShallow(ads);
      InlineAlike(ads, d);
    }
    if BoundFree(ads) {
      ShallowBoundFree(ads);
      BoundFreeTame(ads, d);
    }
  }
}
