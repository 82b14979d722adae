/** Whole runs: a reset, then gets until nothing is left. */
module Runs {
  import opened Denotation
  import opened Search
  import opened Conditions
  import opened KeyShapes
  import opened Levels
  import opened Chains
  import opened ChainSteps
  import opened Products
  import opened ProductSteps
  import opened BoundCompounds
  import opened BoundSteps
  import opened Exactness
  import opened Engine

  /** What is left of the resets of level `k` since it had the log `log`. */
  ghost predicate LogsToCome(log: seq<seq<Datum>>, all: seq<seq<Datum>>, vs: seq<View>, ads: seq<AttrDef>, done: bool) {
    && |log| == |all| == |vs| == |ads|
    && forall k :: 0 <= k < |ads| ==>
         (vs[k].log + (if done then [] else DataOf(Ahead(vs, ads, k, |ads|, None))) == log[k] + all[k])
  }

  ghost function Logs(vs: seq<View>): (r: seq<seq<Datum>>)
    ensures |r| == |vs|
  {
    seq(|vs|, k requires 0 <= k < |vs| => vs[k].log)
  }

  /** The data on which the levels of a chain on `d` are reset in a full run. */
  ghost function RunData(ads: seq<AttrDef>, d: Datum): (r: seq<seq<Datum>>)
    ensures |r| == |ads|
  {
    seq(|ads|, k requires 0 <= k < |ads| => DataOf(ChainItems(ads[..k], d)))
  }

  /** The data on which they are still to be reset. */
  ghost function DataToCome(vs: seq<View>, ads: seq<AttrDef>): (r: seq<seq<Datum>>)
    requires |vs| == |ads|
    ensures |r| == |ads|
  {
    seq(|ads|, k requires 0 <= k < |ads| => DataOf(Ahead(vs, ads, k, |ads|, None)))
  }

  lemma LogsStart(start: seq<View>, vs: seq<View>, ads: seq<AttrDef>, d: Datum)
    requires ResetLogs(start, vs, ads, d)
    ensures LogsToCome(Logs(start), RunData(ads, d), vs, ads, ChainItems(ads, d) == [])
    ensures LogsToCome(Logs(vs), DataToCome(vs, ads), vs, ads, false)
  {
    hide ChainItems, Ahead;
  }

  lemma LogsStep(log: seq<seq<Datum>>, all: seq<seq<Datum>>, start: seq<View>, vs: seq<View>, ads: seq<AttrDef>)
    requires LogsToCome(log, all, start, ads, false) && GetLogs(start, vs, ads)
    ensures LogsToCome(log, all, vs, ads, Left(start, ads) == [])
  {
    hide Ahead;
  }

  /** The key list shows the keys of every result in turn; a key list of the
      reserved shape shows nothing else. */
  predicate Shows(ads: seq<AttrDef>, shown: seq<seq<KeyTree>>, ps: seq<Path>, strict: bool) {
    && |shown| == |ps|
    && forall t :: 0 <= t < |ps| ==> HoldsChain(ads, shown[t], ps[t].keys) && (strict ==> shown[t] == ps[t].keys)
  }

  /** The chain after a run from the state `a`. */
  ghost predicate RunEnded(ads: seq<AttrDef>, d: Datum, a: Snapshot, b: Snapshot) {
    && (ChainItems(ads, d) == [] ==> ResetDone(ads, d, a, b, None))
    && (ChainItems(ads, d) != [] ==>
         b.live && NoneLeft(b.views) && (TameChain(ads, d) && SafeAfter(ads, d) ==> Depleted(b)))
  }

  /** A run from the state `a` that has come to the result `r`; `todo` is what it
      still has to give, `r` included. */
  ghost predicate Running(ads: seq<AttrDef>, d: Datum, a: Snapshot, b: Snapshot, r: Option<Datum>, todo: seq<Path>) {
    && |a.views| == |b.views| == |ads|
    && LogsToCome(Logs(a.views), RunData(ads, d), b.views, ads, todo == [])
    && (todo == [] ==> r == None && RunEnded(ads, d, a, b))
    && (todo != [] ==>
         && r == Some(todo[0].datum)
         && ChainItems(ads, d) != []
         && b.live && b.steady
         && Left(b.views, ads) == todo[1..]
         && Curs(b.views) == todo[0].keys
         && (TameChain(ads, d) && SafeAfter(ads, d) ==> b.safe))
  }

  /** What happened since the reset left the levels as `first` tells. */
  ghost predicate SinceReset(ads: seq<AttrDef>, first: seq<View>, b: Snapshot, done: bool) {
    && |first| == |b.views| == |ads|
    && LogsToCome(Logs(first), DataToCome(first, ads), b.views, ads, done)
    && AllEnd(first, b.views, ads) && AllHarmless(first, b.views, ads)
  }

  lemma RunBegins(ads: seq<AttrDef>, d: Datum, a: Snapshot, b: Snapshot, r: Option<Datum>)
    requires ResetDone(ads, d, a, b, r)
    ensures Running(ads, d, a, b, r, ChainItems(ads, d))
    ensures ChainItems(ads, d) != [] ==>
              SinceReset(ads, b.views, b, false) && (SafeAfter(ads, d) <==> RestSafe(b.views, ads, |ads|))
  {
    hide ChainItems, Left, Ends, Harmless, TameChain, SafeAfter, RestSafe;
    LogsStart(a.views, b.views, ads, d);
  }

  lemma EndStep(ads: seq<AttrDef>, a: seq<View>, b: seq<View>, c: seq<View>)
    requires AllEnd(a, b, ads) && AllEnd(b, c, ads)
    ensures AllEnd(a, c, ads)
  {
    hide Ends;
  }

  lemma HarmlessStep(ads: seq<AttrDef>, a: seq<View>, b: seq<View>, c: seq<View>)
    requires AllEnd(a, b, ads) && AllEnd(b, c, ads) && AllHarmless(a, b, ads) && AllHarmless(b, c, ads)
    ensures AllHarmless(a, c, ads)
  {
    hide Ends, Harmless;
  }

  lemma RunNext(ads: seq<AttrDef>, d: Datum, a: Snapshot, b: Snapshot, c: Snapshot, first: seq<View>, r: Option<Datum>,
      todo: seq<Path>)
    requires todo != [] && Running(ads, d, a, b, Some(todo[0].datum), todo) && SinceReset(ads, first, b, false)
    requires GetDone(ads, b, c, r)
    ensures Running(ads, d, a, c, r, todo[1..]) && SinceReset(ads, first, c, todo[1..] == [])
  {
    hide ChainItems, Left, TameChain, SafeAfter, AllEnd, AllHarmless, LogsToCome, GetLogs, NoneLeft;
    LogsStep(Logs(a.views), RunData(ads, d), b.views, c.views, ads);
    LogsStep(Logs(first), DataToCome(first, ads), b.views, c.views, ads);
    EndStep(ads, first, b.views, c.views);
    HarmlessStep(ads, first, b.views, c.views);
  }

  lemma RunStep(ads: seq<AttrDef>, d: Datum, a: Snapshot, b: Snapshot, r: Option<Datum>, todo: seq<Path>)
    requires Running(ads, d, a, b, r, todo) && r.Some?
    ensures todo != [] && r == Some(todo[0].datum) && b.live && Curs(b.views) == todo[0].keys
    ensures TameChain(ads, d) && SafeAfter(ads, d) ==> b.safe
  {
    hide ChainItems, Left, TameChain, SafeAfter;
  }

  /** What was handled so far: the data, and the key list at the time. */
  ghost predicate Handled(ads: seq<AttrDef>, ps: seq<Path>, out: seq<Datum>, shown: seq<seq<KeyTree>>, keyed: bool,
      todo: seq<Path>, strict: bool) {
    && |out| <= |ps| && todo == ps[|out|..] && out == DataOf(ps[..|out|])
    && (keyed ==> Shows(ads, shown, ps[..|out|], strict))
  }

  lemma NoneHandled(ads: seq<AttrDef>, ps: seq<Path>, keyed: bool, strict: bool)
    ensures Handled(ads, ps, [], [], keyed, ps, strict)
  {
  }

  lemma OneHandled(ads: seq<AttrDef>, d: Datum, out: seq<Datum>, shown: seq<seq<KeyTree>>, key: Option<KeyTree>,
      todo: seq<Path>, strict: bool)
    requires Handled(ads, ChainItems(ads, d), out, shown, key.Some?, todo, strict) && todo != []
    requires ListFits(ads, key, strict) && ListHolds(ads, key, todo[0].keys)
    ensures key.Some? ==> key.value.KeyList?
    ensures Handled(ads, ChainItems(ads, d), out + [todo[0].datum], shown + [ListOf(key)], key.Some?, todo[1..], strict)
  {
    if key.Some? && strict {
      StrictFit(ads, key.value.items);
      PathShape(ads, d, |out|);
      ExactKeys(ads, key.value.items, todo[0].keys);
    }
    hide HoldsChain, FitsChain, ChainItems;
  }

  /** Of what was handled nothing is wrong, and in the end nothing is missing. */
  lemma HandledSoFar(ads: seq<AttrDef>, ps: seq<Path>, out: seq<Datum>, shown: seq<seq<KeyTree>>, keyed: bool,
      todo: seq<Path>, strict: bool)
    requires Handled(ads, ps, out, shown, keyed, todo, strict)
    ensures out <= DataOf(ps) && (keyed ==> |shown| == |out| && Shows(ads, shown, ps[..|out|], strict))
    ensures todo == [] ==> out == DataOf(ps) && ps[..|out|] == ps
  {
    hide HoldsChain;
  }

  /** All resets after the first result are known. */
  lemma AllReset(log: seq<seq<Datum>>, all: seq<seq<Datum>>, vs: seq<View>, ws: seq<View>, ads: seq<AttrDef>, k: nat)
    requires LogsToCome(log, all, ws, ads, true) && log == Logs(vs) && k < |ads|
    requires AllEnd(vs, ws, ads) && AllHarmless(vs, ws, ads)
    ensures forall x :: 0 <= x < |all[k]| ==> Ends(ads[k], all[k][x]) && Harmless(ads[k], all[k][x])
  {
    hide Ends, Harmless;
    assert NewEnd(ads[k], vs[k].log, ws[k].log);
    forall x | 0 <= x < |all[k]|
      ensures Ends(ads[k], all[k][x]) && Harmless(ads[k], all[k][x])
    {
      assert ws[k].log + [] == ws[k].log == vs[k].log + all[k];
      assert ws[k].log[|vs[k].log| + x] == all[k][x];
    }
  }

  lemma DataIn(ys: seq<Datum>, ps: seq<Path>, ad: AttrDef)
    requires ys == DataOf(ps) && forall x :: 0 <= x < |ys| ==> Ends(ad, ys[x]) && Harmless(ad, ys[x])
    ensures GoodData(ad, PathData(ps))
  {
    hide Ends, Harmless;
    assert forall x :: 0 <= x < |ps| ==> ys[x] == ps[x].datum;
  }

  /** The gets of a run that ended well, of a chain whose bound compounds are not
      nested, met the condition for them. */
  lemma RunNeeds(ads: seq<AttrDef>, d: Datum, b: Snapshot, first: seq<View>)
    requires Shallow(ads)
    requires ChainItems(ads, d) != [] ==>
               SinceReset(ads, first, b, true) && (SafeAfter(ads, d) <==> RestSafe(first, ads, |ads|))
    ensures SafeAfter(ads, d)
  {
    hide ChainItems, Ahead, Ends, Harmless, SafeAfter, RestSafe, AllEnd, AllHarmless, LogsToCome;
    if ChainItems(ads, d) == [] {
      if ads != [] { EmptySafe(ads, d); } else { NoLevels(d); }
    } else {
      forall k | 0 <= k < |ads|
        ensures GoodData(ads[k], PathData(Ahead(first, ads, k, |ads|, None)))
      {
        AllReset(Logs(first), DataToCome(first, ads), first, b.views, ads, k);
        DataIn(DataToCome(first, ads)[k], Ahead(first, ads, k, |ads|, None), ads[k]);
      }
      ShallowSafe(first, ads);
    }
  }

  lemma NoLevels(d: Datum)
    ensures SafeAfter([], d)
  {
  }

  lemma RunEnds(ns: seq<Query>, ads: seq<AttrDef>, d: Datum, a: Snapshot, b: Snapshot, todo: seq<Path>)
    requires Running(ads, d, a, b, None, todo) && ChainOk(ns, ads) && b.views == Views(ns)
    ensures todo == [] && |ns| == |ads| == |a.views| && RunEnded(ads, d, a, b)
    ensures forall k :: 0 <= k < |ads| ==> Views(ns)[k].log == a.views[k].log + DataOf(ChainItems(ads[..k], d))
  {
    hide ChainItems, Left, TameChain, SafeAfter, AllEnd, RunEnded;
  }

  /** A run of one query over one datum, as query results are processed: reset,
      then get until NULL.  `out` is what is handled, `shown` the key list at
      that time.  Whatever the data, nothing wrong is handled; a run that ends well
      handles everything.  For chains whose bound compounds are not nested, the
      conditions say exactly which runs end well. */
  method ProcessRecords(head: Query, d: Datum, key: Option<KeyTree>, ghost ns: seq<Query>, ghost ads: seq<AttrDef>,
      ghost strict: bool)
    returns (end: Outcome, out: seq<Datum>, shown: seq<seq<KeyTree>>, key': Option<KeyTree>)
    requires ChainOk(ns, ads) && head == ns[0] && ListFits(ads, key, strict)
    modifies Foot(ns)`state, Foot(ns)`view, Bufs(ns)
    ensures ChainOk(ns, ads) && |ns| == |ads|
    ensures out <= DataOf(ChainItems(ads, d))
    ensures key.Some? ==> |shown| == |out| && Shows(ads, shown, ChainItems(ads, d)[..|out|], strict)
    ensures end == Done ==> out == DataOf(ChainItems(ads, d))
    ensures end == Done ==>
              forall k :: 0 <= k < |ads| ==> Views(ns)[k].log == old(Views(ns))[k].log + DataOf(ChainItems(ads[..k], d))
    ensures end == Done ==> RunEnded(ads, d, old(Snap(ns, ads)), Snap(ns, ads))
    ensures end == Done ==> key'.Some? == key.Some? && ListFits(ads, key', strict)
    ensures TameChain(ads, d) && SafeAfter(ads, d) ==> end == Done
    ensures Shallow(ads) && end == Done ==> TameChain(ads, d) && SafeAfter(ads, d)
  {
    hide *;
    Links(ns, ads, 0);
    SnapLive(ns, ads);
    ghost var a, ps := Snap(ns, ads), ChainItems(ads, d);
    out, shown := [], [];
    NoneHandled(ads, ps, key.Some?, strict);
    HandledSoFar(ads, ps, out, shown, key.Some?, ps, strict);
    var r;
    end, r, key' := ChainReset(head, d, key, ns, ads, strict);
    SnapLive(ns, ads);
    if end != Done { return; }
    RunBegins(ads, d, a, Snap(ns, ads), r);
    if Shallow(ads) { ShallowReset(ads, d, a, Snap(ns, ads), r); }
    KeysParts(ads, r.Some?, Curs(Views(ns)), key, key', strict);
    ghost var todo, first := ps, Views(ns);
    while r.Some?
      invariant ChainOk(ns, ads) && ListFits(ads, key', strict) && key'.Some? == key.Some? && end == Done
      invariant Snap(ns, ads).live == ChainLive(ns, ads) && Snap(ns, ads).views == Views(ns) && |ns| == |ads|
      invariant Running(ads, d, a, Snap(ns, ads), r, todo) && Handled(ads, ps, out, shown, key.Some?, todo, strict)
      invariant r.Some? ==> ListHolds(ads, key', Curs(Views(ns)))
      invariant ps != [] ==> SinceReset(ads, first, Snap(ns, ads), todo == [])
      invariant ps != [] ==> (SafeAfter(ads, d) <==> RestSafe(first, ads, |ads|))
      decreases |todo|
    {
      RunStep(ads, d, a, Snap(ns, ads), r, todo);
      OneHandled(ads, d, out, shown, key', todo, strict);
      out, shown := out + [r.value], shown + [ListOf(key')];
      HandledSoFar(ads, ps, out, shown, key.Some?, todo[1..], strict);
      ghost var b, key0 := Snap(ns, ads), key';
      end, r, key' := ChainGet(head, key', ns, ads, true, strict);
      SnapLive(ns, ads);
      if end != Done { return; }
      RunNext(ads, d, a, b, Snap(ns, ads), first, r, todo);
      KeysParts(ads, r.Some?, Curs(Views(ns)), key0, key', strict);
      todo := todo[1..];
    }
    HandledSoFar(ads, ps, out, shown, key.Some?, todo, strict);
    RunEnds(ns, ads, d, a, Snap(ns, ads), todo);
    if Shallow(ads) { RunNeeds(ads, d, Snap(ns, ads), first); }
  }

  /** A chain with nothing left gives nothing, however often it is asked. */
  method GetAgain(head: Query, key: Option<KeyTree>, times: nat, ghost ns: seq<Query>, ghost ads: seq<AttrDef>,
      ghost strict: bool)
    returns (end: Outcome, results: seq<Option<Datum>>, key': Option<KeyTree>)
    requires ChainOk(ns, ads) && ChainSpent(ns, ads) && head == ns[0] && ListFits(ads, key, strict)
    modifies Foot(ns)`state, Foot(ns)`view, Bufs(ns)
    ensures ChainOk(ns, ads) && forall t :: 0 <= t < |results| ==> results[t] == None
    ensures end == Done ==> ChainSpent(ns, ads) && |results| == times && (times > 0 ==> NoneLeft(Views(ns)))
    ensures old(ChainSafe(ns, ads)) ==> end == Done && ChainSafe(ns, ads)
  {
    hide ChainOk, ChainLive, ChainSafe, ListFits, Left, GetLogs, AllEnd, AllHarmless;
    results, key', end := [], key, Done;
    ghost var safe := ChainSafe(ns, ads);
    while |results| < times
      invariant ChainOk(ns, ads) && ChainSpent(ns, ads) && ListFits(ads, key', strict) && end == Done
      invariant (results != [] ==> NoneLeft(Views(ns))) && (safe ==> ChainSafe(ns, ads))
      invariant |results| <= times && forall t :: 0 <= t < |results| ==> results[t] == None
    {
      var r;
      end, r, key' := ChainGet(head, key', ns, ads, false, strict);
      if end != Done { return; }
      LeftNone(Views(ns), ads);
      results := results + [r];
    }
  }

  /** The tuples handled so far are rows of the product, in order; `ps` follow. */
  predicate Tuples(rows: seq<Path>, d: Datum, out: seq<seq<Datum>>, ps: seq<Path>) {
    && |out| <= |rows| && ps == rows[|out|..]
    && forall t :: 0 <= t < |out| ==> rows[t].datum == Row(d, out[t])
  }

  lemma OneTuple(rows: seq<Path>, d: Datum, out: seq<seq<Datum>>, ps: seq<Path>, values: seq<Datum>)
    requires Tuples(rows, d, out, ps) && ps != [] && ps[0].datum == Row(d, values)
    ensures Tuples(rows, d, out + [values], ps[1..])
  {
  }

  /** The product holds a row, the first of `ps`; the others are to come. */
  ghost predicate AtRow(ss: seq<Snapshot>, joins: seq<AttrDef>, values: seq<Datum>, d: Datum, ps: seq<Path>,
      tame: bool) {
    && |ss| == |joins| == |values|
    && Advanceable(ss, joins, Some(d))
    && ps != [] && ps[0].datum == Row(d, values) && ProdLeft(ss, joins, values, d) == ps[1..]
    && (tame ==> AllSafe(ss) && AllTame(joins, d))
  }

  lemma AtRowHead(ss: seq<Snapshot>, joins: seq<AttrDef>, values: seq<Datum>, d: Datum, ps: seq<Path>, tame: bool)
    requires AtRow(ss, joins, values, d, ps, tame)
    ensures ps != [] && ps[0].datum == Row(d, values) && Advanceable(ss, joins, Some(d))
    ensures tame ==> AdvanceTame(ss, joins, Some(d))
  {
  }

  lemma AtRowNext(before: seq<Snapshot>, after: seq<Snapshot>, joins: seq<AttrDef>, values: seq<Datum>,
      values': seq<Datum>, d: Datum, key': Option<KeyTree>, ps: seq<Path>, tame: bool, ok: bool)
    requires AtRow(before, joins, values, d, ps, tame)
    requires AdvanceDone(before, after, joins, values, values', d, key', false, ok)
    ensures ok == (ps[1..] != [])
    ensures if ok then AtRow(after, joins, values', d, ps[1..], tame) else AllOut(after, tame)
  {
    hide ProdLeft, AllTame;
  }

  lemma ProductBegins(joins: seq<AttrDef>, before: seq<Snapshot>, ss: seq<Snapshot>, values: seq<Datum>,
      d: Datum, key: Option<KeyTree>)
    requires ResetSoFar(joins, d, 0, |joins|, before, ss, values, key)
    requires forall j :: 0 <= j < |joins| ==> joins[j].Join?
    ensures AtRow(ss, joins, values, d, ChainItems(joins, Row(d, [])), ProductTame(joins, d))
  {
    hide ChainItems, ProdLeft, ProdKeys, Fresh, ListHolds, TameChain, SafeAfter, AllShown, Advanceable, Factor;
    ResetRows(before, ss, joins, values, d, key);
    FirstNone(joins, d, before, ss, values, key);
    if ProductTame(joins, d) { FreshSafe(joins, d, before, ss, values, key); }
  }

  lemma NoKeyFits(joins: seq<AttrDef>)
    ensures ListFits(joins, None, false)
  {
  }

  lemma NoTuple(rows: seq<Path>, d: Datum)
    ensures Tuples(rows, d, [], rows) && (rows == [] ==> Tuples(rows, d, [], []))
  {
  }

  lemma ResetFailedEmpty(before: seq<Snapshot>, after: seq<Snapshot>, joins: seq<AttrDef>, d: Datum)
    requires ResetFailed(before, after, joins, d, 0) && forall j :: 0 <= j < |joins| ==> joins[j].Join?
    ensures ChainItems(joins, Row(d, [])) == []
  {
    hide FailedOn, Fresh;
    EmptyFactor(joins, FirstEmpty(joins, d, 0), Row(d, []));
  }

  /** A run of a product over one datum: reset, then advance until the set is
      empty.  `out` is the array of values at every success. */
  method ProcessProduct(qs: seq<Query>, values: array<Datum>, d: Datum, ghost chains: seq<seq<Query>>,
      ghost joins: seq<AttrDef>)
    returns (end: Outcome, out: seq<seq<Datum>>)
    requires ProdOk(chains, joins) && Heads(qs, chains) && values.Length == |joins| && values !in ProdBufs(chains)
    modifies ProdFoot(chains)`state, ProdFoot(chains)`view, ProdBufs(chains), values
    ensures ProdOk(chains, joins)
    ensures |out| <= |ChainItems(joins, Row(d, []))|
    ensures forall t :: 0 <= t < |out| ==> ChainItems(joins, Row(d, []))[t].datum == Row(d, out[t])
    ensures end == Done ==> |out| == |ChainItems(joins, Row(d, []))|
    ensures end == Done && out != [] ==> AllOut(Snaps(chains, joins), ProductTame(joins, d))
    ensures ProductTame(joins, d) ==> end == Done
  {
    hide *;
    ProdLength(chains, joins);
    ghost var rows, before, tame := ChainItems(joins, Row(d, [])), Snaps(chains, joins), ProductTame(joins, d);
    NoKeyFits(joins);
    NoTuple(rows, d);
    TuplesSoFar(rows, d, [], rows);
    ProductTameParts(joins, d);
    out := [];
    var ok, key;
    end, ok, key := ProductReset(qs, 0, values, d, None, chains, joins, false);
    if end != Done { return; }
    if !ok {
      ResetFailedEmpty(before, Snaps(chains, joins), joins, d);
      return;
    }
    ghost var ps := rows;
    ProductBegins(joins, before, Snaps(chains, joins), values[..], d, key);
    AtRowHead(Snaps(chains, joins), joins, values[..], d, ps, tame);
    while ok
      invariant ProdOk(chains, joins) && key.None? && (ps != [] || out != []) && end == Done
      invariant ok == (ps != []) && Tuples(rows, d, out, ps)
      invariant if ok then AtRow(Snaps(chains, joins), joins, values[..], d, ps, tame)
                else AllOut(Snaps(chains, joins), tame)
      decreases |ps|
    {
      ghost var ss, vals := Snaps(chains, joins), values[..];
      AtRowHead(ss, joins, vals, d, ps, tame);
      OneTuple(rows, d, out, ps, vals);
      out := out + [values[..]];
      TuplesSoFar(rows, d, out, ps[1..]);
      NoKeyFits(joins);
      end, ok, key := ProductAdvance(qs, values, Some(d), None, chains, joins, false, false);
      if end != Done { return; }
      AtRowNext(ss, Snaps(chains, joins), joins, vals, values[..], d, key, ps, tame, ok);
      ps := ps[1..];
    }
    TuplesSoFar(rows, d, out, ps);
  }

  lemma TuplesSoFar(rows: seq<Path>, d: Datum, out: seq<seq<Datum>>, ps: seq<Path>)
    requires Tuples(rows, d, out, ps)
    ensures |out| <= |rows| && forall t :: 0 <= t < |out| ==> rows[t].datum == Row(d, out[t])
    ensures ps == [] ==> |out| == |rows|
  {
  }
}
