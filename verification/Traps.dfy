/** Where a bound compound leaves the safe ground, and exactly when. */
module Traps {
  import opened Denotation
  import opened Conditions
  import opened Levels
  import opened Chains
  import opened ChainSteps
  import opened Products
  import opened ProductSteps
  import opened BoundCompounds
  import opened BoundSteps
  import opened Exactness
  import opened Engine
  import Odometer

  /** Some query after `e` still had something to return. */
  ghost predicate LaterLeft(ss: seq<Snapshot>, joins: seq<AttrDef>, e: nat) {
    exists j :: e < j < |joins| && j < |ss| && !NothingLeft(ss[j], Factor(joins, j))
  }

  /** After a failed product reset: queries before the empty one `e` hold their
      first result on `d`, that one has nothing left, and the others are as they
      were.  From `i` on they have been asked again, in vain. */
  ghost predicate AfterFailure(ss: seq<Snapshot>, before: seq<Snapshot>, joins: seq<AttrDef>, d: Datum, e: nat,
      i: nat) {
    && |ss| == |before| == |joins| && e < |joins| && AllLive(ss)
    && (forall j :: 0 <= j < i && j < e ==> HoldsFirst(ss[j], Factor(joins, j), d))
    && (e < i ==> NothingLeft(ss[e], Factor(joins, e)))
    && (forall j :: e < j < i && j < |joins| ==> ss[j] == before[j])
    && (forall j :: i <= j < e ==> |ChainItems(Factor(joins, j), d)| == 1)
    && (forall j :: i <= j < |joins| && e < j ==> NothingLeft(before[j], Factor(joins, j)))
  }

  lemma FailureBegins(before: seq<Snapshot>, after: seq<Snapshot>, joins: seq<AttrDef>, d: Datum)
    requires ResetFailed(before, after, joins, d, 0) && AllLive(before)
    requires var e := FirstEmpty(joins, d, 0); e < |before| && NothingLeft(before[e], Factor(joins, e))
    ensures AfterFailure(after, before, joins, d, FirstEmpty(joins, d, 0), |joins|)
  {
    hide Left, ChainItems, TameChain, SafeAfter, TrapFreeChain, SettlesChain, TidyChain, Fewer, Factor;
    var e := FirstEmpty(joins, d, 0);
    FailedLive(before, after, joins, d);
    FewerLeft(after[e].views, before[e].views, Factor(joins, e));
    forall j | 0 <= j < e
      ensures HoldsFirst(after[j], Factor(joins, j), d)
    {
      assert Fresh(after[j], Factor(joins, j), d, FirstDatum(joins, d, j));
    }
  }

  lemma QueryAsked(ss: seq<Snapshot>, before: seq<Snapshot>, joins: seq<AttrDef>, d: Datum, e: nat, i: nat)
    requires i < |joins| && AfterFailure(ss, before, joins, d, e, i + 1)
    ensures ss[i].live
    ensures i < e ==> Left(ss[i].views, Factor(joins, i)) == ChainItems(Factor(joins, i), d)[1..]
    ensures i == e ==> Left(ss[i].views, Factor(joins, i)) == []
    ensures i > e ==> (|ss[i].views| == |Factor(joins, i)| ==>
                        (Left(ss[i].views, Factor(joins, i)) == [] <==> NothingLeft(before[i], Factor(joins, i))))
  {
    hide ChainItems, Left, TameChain, SafeAfter;
  }

  lemma AskedInVain(before: seq<Snapshot>, mid: seq<Snapshot>, after: seq<Snapshot>, joins: seq<AttrDef>, d: Datum,
      e: nat, i: nat)
    requires i < |joins| && AfterFailure(mid, before, joins, d, e, i + 1) && OnlyAt(mid, after, i) && after[i].live
    requires i < e ==> |ChainItems(Factor(joins, i), d)| == 1
    requires i > e ==> NothingLeft(before[i], Factor(joins, i))
    ensures AfterFailure(after, before, joins, d, e, i)
  {
    hide HoldsFirst, NothingLeft;
  }

  lemma OneFound(before: seq<Snapshot>, joins: seq<AttrDef>, d: Datum, e: nat, i: nat)
    requires i < |joins| == |before| && e == FirstEmpty(joins, d, 0)
    requires if i < e then |ChainItems(Factor(joins, i), d)| > 1 else i > e && !NothingLeft(before[i], Factor(joins, i))
    ensures SecondResult(joins, d) || LaterLeft(before, joins, e)
  {
    hide NothingLeft;
  }

  lemma NoneFound(ss: seq<Snapshot>, before: seq<Snapshot>, joins: seq<AttrDef>, d: Datum, e: nat)
    requires AfterFailure(ss, before, joins, d, e, 0) && e == FirstEmpty(joins, d, 0)
    ensures !SecondResult(joins, d) && !LaterLeft(before, joins, e)
  {
    hide NothingLeft;
  }

  /** A product reset that fails, and the advance made by the yield that may
      follow it, with the NULL owner.  `reached`: that advance gets a result, and
      goes on from there.  This happens exactly when a query ahead of the first
      empty one has a second result, or one after it had something left. */
  method YieldAfterFailedReset(qs: seq<Query>, values: array<Datum>, d: Datum, ghost chains: seq<seq<Query>>,
      ghost joins: seq<AttrDef>)
    returns (end: Outcome, reached: bool)
    requires ProdOk(chains, joins) && Heads(qs, chains) && values.Length == |joins| && values !in ProdBufs(chains)
    requires AllLive(Snaps(chains, joins)) && FirstEmpty(joins, d, 0) < |Snaps(chains, joins)| == |joins|
    requires NothingLeft(Snaps(chains, joins)[FirstEmpty(joins, d, 0)], Factor(joins, FirstEmpty(joins, d, 0)))
    modifies ProdFoot(chains)`state, ProdFoot(chains)`view, ProdBufs(chains), values
    ensures end == Done ==>
              (reached <==>
                SecondResult(joins, d) || LaterLeft(old(Snaps(chains, joins)), joins, FirstEmpty(joins, d, 0)))
    ensures BoundFree(joins) ==> end == Done
  {
    hide *;
    ghost var before, e := Snaps(chains, joins), FirstEmpty(joins, d, 0);
    ProdLength(chains, joins);
    NoListFits(joins);
    BoundFreeReset(joins, d);
    BoundFreeSafe(chains, joins);
    reached := false;
    var ok, key;
    end, ok, key := ProductReset(qs, 0, values, d, None, chains, joins, false);
    if end != Done { return; }
    ProductFails(joins, d, before, Snaps(chains, joins), values[..], key, ok);
    FailureBegins(before, Snaps(chains, joins), joins, d);
    var i: nat := |qs|;
    while i > 0
      invariant i <= |joins| && ProdOk(chains, joins) && end == Done
      invariant AfterFailure(Snaps(chains, joins), before, joins, d, e, i)
    {
      i := i - 1;
      ghost var mid := Snaps(chains, joins);
      HeadsAt(qs, chains, joins, i);
      SnapAt(chains, joins, i);
      QueryAsked(mid, before, joins, d, e, i);
      NoListFits(Factor(joins, i));
      BoundFreeSafe(chains, joins);
      var r;
      end, r, key := GetFactor(qs[i], None, chains, joins, i, false, false);
      SnapAt(chains, joins, i);
      if end != Done { return; }
      FactorGetEnds(Factor(joins, i), mid[i], Snaps(chains, joins)[i], r);
      NotEmptyAt(joins, d, i);
      if r.Some? {
        OneFound(before, joins, d, e, i);
        return Done, true;
      }
      AskedInVain(before, mid, Snaps(chains, joins), joins, d, e, i);
    }
    NoneFound(Snaps(chains, joins), before, joins, d, e);
  }

  lemma NotEmptyAt(joins: seq<AttrDef>, d: Datum, i: nat)
    ensures i < FirstEmpty(joins, d, 0) ==> ChainItems(Factor(joins, i), d) != []
  {
  }

  lemma NoListFits(ads: seq<AttrDef>)
    ensures ListFits(ads, None, false)
  {
  }

  lemma BoundFreeReset(joins: seq<AttrDef>, d: Datum)
    ensures BoundFree(joins) ==> ResetTame(joins, d, 0)
  {
    if BoundFree(joins) {
      forall j | 0 <= j < |joins|
        ensures TameChain(Factor(joins, j), d)
      {
        JoinBoundFree(joins, j);
        BoundFreeTame(Factor(joins, j), d);
      }
    }
  }

  /** Queries without bound compounds are safe whenever they are in order. */
  lemma BoundFreeSafe(chains: seq<seq<Query>>, joins: seq<AttrDef>)
    requires ProdOk(chains, joins)
    ensures BoundFree(joins) ==> forall j :: 0 <= j < |joins| && j < |Snaps(chains, joins)| ==>
              (Snaps(chains, joins)[j].live ==> Snaps(chains, joins)[j].safe)
    ensures BoundFree(joins) && AllLive(Snaps(chains, joins)) ==> AllSafe(Snaps(chains, joins))
  {
    hide ChainLive, ChainSafe, ChainCalm, ChainSteady;
    if BoundFree(joins) {
      forall j | 0 <= j < |joins|
        ensures Snaps(chains, joins)[j].live ==> Snaps(chains, joins)[j].safe
      {
        JoinBoundFree(joins, j);
        SnapAt(chains, joins, j);
        if Snaps(chains, joins)[j].live { LiveCalmChain(chains[j], Factor(joins, j)); }
      }
    }
  }

  lemma ProductFails(joins: seq<AttrDef>, d: Datum, before: seq<Snapshot>, after: seq<Snapshot>, values: seq<Datum>,
      key: Option<KeyTree>, ok: bool)
    requires FirstEmpty(joins, d, 0) < |joins|
    requires ok ==> ResetSoFar(joins, d, 0, |joins|, before, after, values, key)
    ensures !ok
  {
    if ok { FirstNone(joins, d, before, after, values, key); }
  }

  /** What query `j` has left after product resets on the data `ds`, all of which
      failed: nothing, or the other results on the last datum on which it was
      reset and had one. */
  function LeftIn(joins: seq<AttrDef>, ds: seq<Datum>, j: nat): seq<Path> {
    if ds == [] then []
    else
      var d := ds[|ds|-1];
      var e := FirstEmpty(joins, d, 0);
      if j < e && ChainItems(Factor(joins, j), d) != [] then ChainItems(Factor(joins, j), d)[1..]
      else if j == e then []
      else LeftIn(joins, ds[..|ds|-1], j)
  }

  /** Every query is one level that iterates, or gives one value, by itself. */
  predicate Simple(joins: seq<AttrDef>) {
    forall j :: 0 <= j < |joins| ==>
      joins[j].Join? && |joins[j].factor| == 1 && BoundFreeLevel(joins[j].factor[0]) && !joins[j].factor[0].Fwd?
  }

  lemma SimpleBoundFree(joins: seq<AttrDef>)
    requires Simple(joins)
    ensures BoundFree(joins)
    decreases |joins|
  {
    if joins != [] {
      OneBoundFree(joins[0].factor[0]);
      assert joins[0].factor == [joins[0].factor[0]];
      SimpleBoundFree(joins[1..]);
    }
  }

  ghost predicate LeftAre(ss: seq<Snapshot>, joins: seq<AttrDef>, ds: seq<Datum>) {
    && |ss| == |joins| && AllLive(ss)
    && forall j :: 0 <= j < |joins| ==>
         |ss[j].views| == |Factor(joins, j)| && Left(ss[j].views, Factor(joins, j)) == LeftIn(joins, ds, j)
  }

  lemma LeftNext(before: seq<Snapshot>, after: seq<Snapshot>, joins: seq<AttrDef>, ds: seq<Datum>, d: Datum)
    requires LeftAre(before, joins, ds) && ResetFailed(before, after, joins, d, 0) && Simple(joins)
    ensures LeftAre(after, joins, ds + [d])
  {
    hide ChainItems, TameChain, SafeAfter, TrapFreeChain, SettlesChain, TidyChain, Fewer, Left;
    FailedLive(before, after, joins, d);
    var e := FirstEmpty(joins, d, 0);
    assert (ds + [d])[..|ds|] == ds;
    LeftNone(after[e].views, Factor(joins, e));
    forall j | 0 <= j < |joins|
      ensures |after[j].views| == |Factor(joins, j)|
      ensures Left(after[j].views, Factor(joins, j)) == LeftIn(joins, ds + [d], j)
    {
      if j < e { assert Fresh(after[j], Factor(joins, j), d, FirstDatum(joins, d, j)); }
    }
  }

  lemma NoneBefore(ss: seq<Snapshot>, joins: seq<AttrDef>)
    requires |ss| == |joins| && AllLive(ss) && AllNothing(ss, joins)
    ensures LeftAre(ss, joins, [])
  {
    hide Left;
  }

  /** Resets of a product on the data `ds`, all of which fail, and the yield with the
      NULL owner that may follow.  `reached`: its advance gets a result.  This
      happens exactly when one of the queries has a second result on the last
      datum on which it was reset. */
  method YieldAfterFailedResets(qs: seq<Query>, values: array<Datum>, ds: seq<Datum>, ghost chains: seq<seq<Query>>,
      ghost joins: seq<AttrDef>)
    returns (reached: bool)
    requires ProdOk(chains, joins) && Heads(qs, chains) && values.Length == |joins| && values !in ProdBufs(chains)
    requires Simple(joins) && AllLive(Snaps(chains, joins)) && AllNothing(Snaps(chains, joins), joins)
    requires forall t :: 0 <= t < |ds| ==> FirstEmpty(joins, ds[t], 0) < |joins|
    modifies ProdFoot(chains)`state, ProdFoot(chains)`view, ProdBufs(chains), values
    ensures reached <==> exists j :: 0 <= j < |joins| && LeftIn(joins, ds, j) != []
  {
    hide *;
    SimpleBoundFree(joins);
    ProdLength(chains, joins);
    NoListFits(joins);
    NoneBefore(Snaps(chains, joins), joins);
    var t := 0;
    assert ds[..0] == [];
    while t < |ds|
      invariant t <= |ds| && ProdOk(chains, joins) && LeftAre(Snaps(chains, joins), joins, ds[..t])
    {
      ghost var before := Snaps(chains, joins);
      BoundFreeReset(joins, ds[t]);
      var end, ok, key := ProductReset(qs, 0, values, ds[t], None, chains, joins, false);
      ProductFails(joins, ds[t], before, Snaps(chains, joins), values[..], key, ok);
      LeftNext(before, Snaps(chains, joins), joins, ds[..t], ds[t]);
      assert ds[..t] + [ds[t]] == ds[..t+1];
      t := t + 1;
    }
    assert ds[..t] == ds;
    ghost var ss := Snaps(chains, joins);
    LeftParts(ss, joins, ds);
    BoundFreeSafe(chains, joins);
    var end, ok, key := ProductAdvance(qs, values, None, None, chains, joins, false, false);
    NullEnd(ss, Snaps(chains, joins), joins, ds, end, ok);
    reached := end != Done || ok;
  }

  lemma LeftParts(ss: seq<Snapshot>, joins: seq<AttrDef>, ds: seq<Datum>)
    requires LeftAre(ss, joins, ds)
    ensures Advanceable(ss, joins, None) && AllLive(ss)
  {
  }

  lemma NullEnd(ss: seq<Snapshot>, ss': seq<Snapshot>, joins: seq<AttrDef>, ds: seq<Datum>, end: Outcome, ok: bool)
    requires LeftAre(ss, joins, ds) && AllSafe(ss)
    requires end == Done ==> NullAdvance(ss, ss', joins, ok)
    requires AdvanceTame(ss, joins, None) ==> end == Done
    ensures end != Done || ok <==> exists j :: 0 <= j < |joins| && LeftIn(joins, ds, j) != []
  {
    hide Left, LeftIn, Gone;
    assert forall j :: 0 <= j < |joins| ==>
             (Spent(ss[j], Factor(joins, j)) <==> LeftIn(joins, ds, j) == [])
             && (NothingLeft(ss[j], Factor(joins, j)) <==> LeftIn(joins, ds, j) == []);
    if end != Done {
      var j :| 0 <= j < |ss| && !Spent(ss[j], Factor(joins, j));
      assert LeftIn(joins, ds, j) != [];
    } else if ok {
      assert LeftIn(joins, ds, |joins| - 1) != [];
    } else {
      assert forall j :: 0 <= j < |joins| ==> NothingLeft(ss[j], Factor(joins, j));
    }
  }

  /** The condition on a failed reset that is followed by a yield: in an empty
      product, no query ahead of the empty one has a second result. */
  lemma TrapFreeExactly(joins: seq<AttrDef>, filter: seq<AttrDef>, truth: Datum -> bool, d: Datum)
    requires Odometer.AllJoins(joins) && BoundFree(joins)
    ensures TrapFree(Bound(joins, filter, truth), d)
       <==> (ChainItems(joins, Row(d, [])) == [] ==> !SecondResult(joins, d))
  {
    hide TrapFree, ChainItems, SecondResult;
    Odometer.ProductEmpty(joins, d);
    TrapFreeIs(joins, filter, truth, d);
    FirstEmptyIff(joins, d);
  }

  lemma TrapFreeIs(joins: seq<AttrDef>, filter: seq<AttrDef>, truth: Datum -> bool, d: Datum)
    requires BoundFree(joins)
    ensures TrapFree(Bound(joins, filter, truth), d) <==> Harmless(Bound(joins, filter, truth), d)
  {
    hide SecondResult, ChainItems;
    var ad := Bound(joins, [], truth);
    ShallowTrapFree(ad, d);
  }

  lemma FirstEmptyIff(joins: seq<AttrDef>, d: Datum)
    ensures FirstEmpty(joins, d, 0) < |joins| <==>
              exists j :: 0 <= j < |joins| && ChainItems(Factor(joins, j), d) == []
  {
    hide ChainItems;
  }

  /** A chain of events, each with all pairs of its tracks and hits. */
  function Pairs(tracks: Datum -> seq<Entry>, hits: Datum -> seq<Entry>): seq<AttrDef> {
    [Join([Collection(0, tracks)]), Join([Collection(0, hits)])]
  }

  function EventChain(events: seq<Entry>, tracks: Datum -> seq<Entry>, hits: Datum -> seq<Entry>): seq<AttrDef> {
    [Collection(0, Always(events)), Bound(Pairs(tracks, hits), [], (_: Datum) => true)]
  }

  predicate HasPair(x: Datum, tracks: Datum -> seq<Entry>, hits: Datum -> seq<Entry>) {
    tracks(x) != [] && hits(x) != []
  }

  /** Two tracks or more, and no hits. */
  predicate Springs(x: Datum, tracks: Datum -> seq<Entry>, hits: Datum -> seq<Entry>) {
    |tracks(x)| > 1 && hits(x) == []
  }

  lemma PairsAre(tracks: Datum -> seq<Entry>, hits: Datum -> seq<Entry>, x: Datum)
    ensures var joins := Pairs(tracks, hits);
            && |ChainItems(Factor(joins, 0), x)| == |tracks(x)| && |ChainItems(Factor(joins, 1), x)| == |hits(x)|
            && BoundFree(joins) && Odometer.AllJoins(joins)
            && (ChainItems(joins, Row(x, [])) == [] <==> !HasPair(x, tracks, hits))
            && (Springs(x, tracks, hits) <==> FirstEmpty(joins, x, 0) < 2 && SecondResult(joins, x))
  {
    var joins := Pairs(tracks, hits);
    LevelCount(0, tracks, x);
    LevelCount(0, hits, x);
    OneBoundFree(Collection(0, tracks));
    OneBoundFree(Collection(0, hits));
    OneBoundFree(joins[1]);
    assert joins[1..] == [joins[1]];
    Odometer.ProductEmpty(joins, x);
    assert Factor(joins, 0) == joins[0].factor && Factor(joins, 1) == joins[1].factor;
    assert FirstEmpty(joins, x, 0) == if tracks(x) == [] then 0 else if hits(x) == [] then 1 else 2;
    if Springs(x, tracks, hits) { assert |ChainItems(Factor(joins, 0), x)| > 1; }
  }

  /** The bound compound of an event: a get that comes down to it is safe exactly if
      the event does not spring the trap. */
  lemma EventLevel(tracks: Datum -> seq<Entry>, hits: Datum -> seq<Entry>, x: Datum)
    ensures var ads := [Bound(Pairs(tracks, hits), [], (_: Datum) => true)];
            && TameChain(ads, x) && SafeAfter(ads, x)
            && (GetTame(ads, x) <==> !Springs(x, tracks, hits))
            && (ChainItems(ads, x) == [] <==> !HasPair(x, tracks, hits))
  {
    var ad := Bound(Pairs(tracks, hits), [], (_: Datum) => true);
    var rows := ChainItems(ad.joins, Row(x, []));
    PairsAre(tracks, hits, x);
    AllAccepted(rows, ad.truth);
    assert [ad][1..] == [];
    ExtendEnds(LevelItems(ad, x));
    ShallowTame(ad, x);
    ShallowTrapFree(ad, x);
    hide TameLevel, TrapFree, LevelItems, SecondResult;
    LastSafe(LevelItems(ad, x));
  }

  lemma LastSafe(items: seq<Item>)
    ensures SafeItems(items, [])
  {
  }

  /** Without a filter all rows pass. */
  lemma {:induction false} AllAccepted(ps: seq<Path>, truth: Datum -> bool)
    ensures NoStall(ps, [], truth) && |AcceptedItems(ps, [], truth)| == |ps|
    decreases |ps|
  {
    if ps != [] { AllAccepted(ps[1..], truth); }
  }

  /** Which runs over events end well: exactly those in which no event after one with
      a pair has two tracks or more and no hits.  Before the first pair, and in a
      run without any, such events do no harm. */
  lemma EventRuns(events: seq<Entry>, tracks: Datum -> seq<Entry>, hits: Datum -> seq<Entry>, d: Datum)
    ensures var ads := EventChain(events, tracks, hits);
            && Shallow(ads) && TameChain(ads, d)
            && (SafeAfter(ads, d) <==>
                 forall i, k :: 0 <= i < k < |events| && HasPair(events[i].datum, tracks, hits) ==>
                   !Springs(events[k].datum, tracks, hits))
  {
    var ads := EventChain(events, tracks, hits);
    var items := LevelItems(ads[0], d);
    assert ads[1..] == [ads[1]];
    PairsAre(tracks, hits, d);
    forall x | 0 <= x < |items|
      ensures TameChain(ads[1..], items[x].datum)
    {
      EventLevel(tracks, hits, items[x].datum);
    }
    AllTameItems(items, ads[1..]);
    assert forall x :: 0 <= x < |items| ==> items[x].datum == events[x].datum;
    hide HasPair, Springs, TameChain;
    EventsSafe(items, tracks, hits);
  }

  lemma {:induction false} EventsSafe(items: seq<Item>, tracks: Datum -> seq<Entry>, hits: Datum -> seq<Entry>)
    ensures SafeItems(items, [Bound(Pairs(tracks, hits), [], (_: Datum) => true)]) <==>
              forall i, k :: 0 <= i < k < |items| && HasPair(items[i].datum, tracks, hits) ==>
                !Springs(items[k].datum, tracks, hits)
    decreases |items|
  {
    if items != [] {
      var ads := [Bound(Pairs(tracks, hits), [], (_: Datum) => true)];
      forall x | 0 <= x < |items|
        ensures GetTame(ads, items[x].datum) <==> !Springs(items[x].datum, tracks, hits)
      {
        EventLevel(tracks, hits, items[x].datum);
      }
      EventLevel(tracks, hits, items[0].datum);
      hide HasPair, Springs, GetTame, SafeAfter, ChainItems, Pairs;
      var rest := items[1..];
      EventsSafe(rest, tracks, hits);
      assert forall x :: 0 <= x < |rest| ==> rest[x] == items[x + 1];
      assert forall x :: 1 <= x < |items| ==> items[x] == rest[x - 1];
    }
  }

  /** The filter loop after a product reset, `passes` times around at most, on
      the rows `ps` of which the first is in hand.  None: not done yet. */
  function Seek(ps: seq<Path>, filter: seq<AttrDef>, truth: Datum -> bool, passes: nat): Option<seq<Path>>
    requires ps != []
    decreases passes
  {
    if filter == [] then Some(ps)
    else if passes == 0 then None
    else
      match Verdict(filter, truth, ps[0].datum)
      case None => Seek(ps, filter, truth, passes - 1)  // the row in hand is tested again
      case Some(accepted) =>
        if accepted then Some(ps)
        else if |ps| == 1 then Some([])
        else Seek(ps[1..], filter, truth, passes - 1)
  }

  lemma {:induction false} SeekDone(ps: seq<Path>, filter: seq<AttrDef>, truth: Datum -> bool, passes: nat)
    requires ps != [] && Seek(ps, filter, truth, passes).Some?
    ensures NoStall(ps, filter, truth)
    decreases passes
  {
    if filter != [] {
      match Verdict(filter, truth, ps[0].datum)
      case None => SeekStuck(ps, filter, truth, passes);
      case Some(accepted) => if !accepted && |ps| > 1 { SeekDone(ps[1..], filter, truth, passes - 1); }
    }
  }

  /** On a row for which the filter has no value, the loop stays for ever. */
  lemma {:induction false} SeekStuck(ps: seq<Path>, filter: seq<AttrDef>, truth: Datum -> bool, passes: nat)
    requires ps != [] && filter != [] && Verdict(filter, truth, ps[0].datum).None?
    ensures Seek(ps, filter, truth, passes).None?
    decreases passes
  {
    if passes > 0 { SeekStuck(ps, filter, truth, passes - 1); }
  }

  lemma {:induction false} SeekEnough(ps: seq<Path>, filter: seq<AttrDef>, truth: Datum -> bool)
    requires ps != [] && NoStall(ps, filter, truth)
    ensures Seek(ps, filter, truth, |ps|).Some?
    decreases |ps|
  {
    if filter != [] && Verdict(filter, truth, ps[0].datum) == Some(false) && |ps| > 1 {
      SeekEnough(ps[1..], filter, truth);
    }
  }

  /** The loop ends if and only if no row without a verdict comes before the
      first accepted one. */
  lemma SeekEnds(ps: seq<Path>, filter: seq<AttrDef>, truth: Datum -> bool)
    requires ps != []
    ensures (exists passes: nat :: Seek(ps, filter, truth, passes).Some?) <==> NoStall(ps, filter, truth)
  {
    if passes: nat :| Seek(ps, filter, truth, passes).Some? { SeekDone(ps, filter, truth, passes); }
    if NoStall(ps, filter, truth) { SeekEnough(ps, filter, truth); }
  }

  /** Where it ends: at the first accepted row, losing none. */
  lemma {:induction false} SeekFinds(ps: seq<Path>, filter: seq<AttrDef>, truth: Datum -> bool, passes: nat)
    requires ps != [] && Seek(ps, filter, truth, passes).Some?
    ensures var rest := Seek(ps, filter, truth, passes).value;
            && AcceptedItems(rest, filter, truth) == AcceptedItems(ps, filter, truth)
            && (rest != [] ==> Verdict(filter, truth, rest[0].datum) == Some(true))
    decreases passes
  {
    if filter != [] {
      match Verdict(filter, truth, ps[0].datum)
      case None => SeekStuck(ps, filter, truth, passes);
      case Some(accepted) => if !accepted && |ps| > 1 { SeekFinds(ps[1..], filter, truth, passes - 1); }
    }
  }
}
