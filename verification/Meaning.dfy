/** What the results of a chain are, said without the functions that compute
    them: each comes from one choice of an item at every level, and they come
    in the order of these choices. */
module Meaning {
  import opened Denotation
  import opened Odometer

  /** Item `n` of the level on the owner `y` has the key `key` and the datum `x`. */
  ghost predicate Gives(ad: AttrDef, y: Datum, n: nat, key: KeyTree, x: Datum) {
    match ad
    case Collection(code, entries) =>
      && n < |entries(y)| && x == entries(y)[n].datum
      && key == if code == 0 then NoKey else KeyDatum(code, entries(y)[n].key)
    case Scalar(code, value) =>
      && n == 0 && value(y).Some? && x == value(y).value.datum
      && key == if code == 0 then NoKey else KeyDatum(code, value(y).value.key)
    case Filter(query, truth) =>
      && n == 0 && x == y && key == NoKey
      && ChainItems(query, y) != [] && truth(ChainItems(query, y)[0].datum)
    case Fwd(sub) =>
      n < |ChainItems(sub, y)| && x == ChainItems(sub, y)[n].datum && key == KeyList(ChainItems(sub, y)[n].keys)
    case Join(factor) =>
      var (owner, values) := if y.Row? then (y.owner, y.values) else (y, []);
      var ps := ChainItems(factor, owner);
      n < |ps| && x == Row(owner, values + [ps[n].datum]) && key == KeyList(ps[n].keys)
    case Bound(joins, filter, truth) =>
      var rows := ChainItems(joins, Row(y, []));
      exists i: nat :: NthPassing(rows, filter, truth, i, n, key, x)
  }

  /** The filter query gives a value on the row, and its first one is true. */
  ghost predicate Passes(filter: seq<AttrDef>, truth: Datum -> bool, row: Datum) {
    filter == [] || (ChainItems(filter, row) != [] && truth(ChainItems(filter, row)[0].datum))
  }

  /** The rows before row `i` that pass the filter. */
  ghost function Passing(rows: seq<Path>, filter: seq<AttrDef>, truth: Datum -> bool, i: nat): set<nat>
    requires i <= |rows|
  {
    set j: nat | j < i && Passes(filter, truth, rows[j].datum)
  }

  /** Row `i` is the `n`-th passing one, and has this key and datum. */
  ghost predicate NthPassing(rows: seq<Path>, filter: seq<AttrDef>, truth: Datum -> bool, i: nat, n: int, key: KeyTree,
      x: Datum) {
    && i < |rows| && Passes(filter, truth, rows[i].datum) && |Passing(rows, filter, truth, i)| == n
    && x == rows[i].datum && key == KeyList(rows[i].keys)
  }

  lemma PassesIs(filter: seq<AttrDef>, truth: Datum -> bool, row: Datum)
    ensures Passes(filter, truth, row) <==> Verdict(filter, truth, row) == Some(true)
  {
  }

  lemma PassingMore(rows: seq<Path>, filter: seq<AttrDef>, truth: Datum -> bool, i: nat)
    requires i < |rows|
    ensures |Passing(rows, filter, truth, i + 1)| == |Passing(rows, filter, truth, i)|
                                                   + if Passes(filter, truth, rows[i].datum) then 1 else 0
  {
    hide Passes;
    assert Passing(rows, filter, truth, i + 1)
        == Passing(rows, filter, truth, i) + if Passes(filter, truth, rows[i].datum) then {i} else {};
  }

  /** The passing rows before row `i`, with and without the first row. */
  lemma {:induction false} PassingBefore(rows: seq<Path>, filter: seq<AttrDef>, truth: Datum -> bool, i: nat)
    requires i <= |rows|
    ensures i == 0 ==> Passing(rows, filter, truth, i) == {}
    ensures i > 0 ==> |Passing(rows, filter, truth, i)| == |Passing(rows[1..], filter, truth, i - 1)|
                                                           + if Passes(filter, truth, rows[0].datum) then 1 else 0
  {
    hide Passes;
    if i > 0 {
      PassingMore(rows, filter, truth, i - 1);
      PassingBefore(rows, filter, truth, i - 1);
      if i > 1 {
        assert rows[1..][i - 2] == rows[i - 1];
        PassingMore(rows[1..], filter, truth, i - 2);
      }
    }
  }

  lemma NthStep(rows: seq<Path>, filter: seq<AttrDef>, truth: Datum -> bool, i: nat, n: nat, key: KeyTree, x: Datum)
    requires rows != []
    ensures var first := if Passes(filter, truth, rows[0].datum) then 1 else 0;
            && (NthPassing(rows, filter, truth, 0, n, key, x) <==>
                 first == 1 && n == 0 && rows[0].datum == x && KeyList(rows[0].keys) == key)
            && (NthPassing(rows, filter, truth, i + 1, n, key, x)
               <==> NthPassing(rows[1..], filter, truth, i, n - first, key, x))
  {
    hide Passes, Passing;
    PassingBefore(rows, filter, truth, 0);
    if i + 1 < |rows| { PassingBefore(rows, filter, truth, i + 1); }
  }

  /** The accepted rows are the passing ones, in order. */
  lemma {:induction false} AcceptedAre(rows: seq<Path>, filter: seq<AttrDef>, truth: Datum -> bool, n: nat,
      key: KeyTree, x: Datum)
    ensures n < |AcceptedItems(rows, filter, truth)| && AcceptedItems(rows, filter, truth)[n] == Item(key, x) <==>
              exists i: nat :: NthPassing(rows, filter, truth, i, n, key, x)
    decreases |rows|
  {
    if rows != [] {
      PassesIs(filter, truth, rows[0].datum);
      hide Passes, NthPassing, Verdict;
      var first := if Passes(filter, truth, rows[0].datum) then 1 else 0;
      if n >= first { AcceptedAre(rows[1..], filter, truth, n - first, key, x); }
      NthStep(rows, filter, truth, 0, n, key, x);
      if i: nat :| NthPassing(rows, filter, truth, i, n, key, x) {
        if i > 0 { NthStep(rows, filter, truth, i - 1, n, key, x); }
      }
      var m, rest := n - first, rows[1..];
      if i: nat :| NthPassing(rest, filter, truth, i, m, key, x) { NthStep(rows, filter, truth, i, n, key, x); }
    }
  }

  /** `Gives` describes the items of every kind of level. */
  lemma LevelGives(ad: AttrDef, y: Datum, n: nat, key: KeyTree, x: Datum)
    ensures Gives(ad, y, n, key, x) <==> n < |LevelItems(ad, y)| && LevelItems(ad, y)[n] == Item(key, x)
  {
    hide ChainItems, NthPassing;
    if ad.Bound? { AcceptedAre(ChainItems(ad.joins, Row(y, [])), ad.filter, ad.truth, n, key, x); }
  }

  /** One way through a chain: the item chosen at every level, and the data it leads
      over, the root first. */
  datatype Trace = Trace(choices: seq<nat>, data: seq<Datum>)

  /** The trace leads from `d` to the datum of `p`, past its keys. */
  ghost predicate Leads(ads: seq<AttrDef>, d: Datum, t: Trace, p: Path) {
    && |t.choices| == |p.keys| == |ads| && |t.data| == |ads| + 1
    && t.data[0] == d && t.data[|ads|] == p.datum
    && forall k :: 0 <= k < |ads| ==> Gives(ads[k], t.data[k], t.choices[k], p.keys[k], t.data[k + 1])
  }

  /** All traces of a chain, in order. */
  ghost function Traces(ads: seq<AttrDef>, d: Datum): seq<Trace>
    decreases ads, 0, 0
  {
    if ads == [] then [Trace([], [d])] else TracesFrom(LevelItems(ads[0], d), 0, d, ads[1..])
  }

  ghost function TracesFrom(items: seq<Item>, n: nat, d: Datum, ads: seq<AttrDef>): seq<Trace>
    decreases ads, 1, |items|
  {
    if items == [] then []
    else Over(n, d, Traces(ads, items[0].datum)) + TracesFrom(items[1..], n + 1, d, ads)
  }

  /** The traces, started at `d` with the choice `n`. */
  ghost function Over(n: nat, d: Datum, ts: seq<Trace>): (r: seq<Trace>)
    ensures |r| == |ts|
  {
    seq(|ts|, i requires 0 <= i < |ts| => Trace([n] + ts[i].choices, [d] + ts[i].data))
  }

  lemma LeadsStep(ads: seq<AttrDef>, d: Datum, n: nat, key: KeyTree, x: Datum, t: Trace, p: Path)
    requires ads != [] && Gives(ads[0], d, n, key, x) && Leads(ads[1..], x, t, p)
    ensures Leads(ads, d, Trace([n] + t.choices, [d] + t.data), Path([key] + p.keys, p.datum))
  {
    hide Gives;
  }

  lemma LeadsRest(ads: seq<AttrDef>, d: Datum, t: Trace, p: Path)
    requires ads != [] && Leads(ads, d, t, p)
    ensures Gives(ads[0], d, t.choices[0], p.keys[0], t.data[1])
    ensures Leads(ads[1..], t.data[1], Trace(t.choices[1..], t.data[1..]), Path(p.keys[1..], p.datum))
    ensures t == Trace([t.choices[0]] + t.choices[1..], [d] + t.data[1..])
  {
    hide Gives;
    assert t.data == [t.data[0]] + t.data[1..] && t.choices == [t.choices[0]] + t.choices[1..];
  }

  /** Every result has its trace, and comes where its trace does. */
  lemma {:induction false} ResultTraces(ads: seq<AttrDef>, d: Datum)
    ensures |Traces(ads, d)| == |ChainItems(ads, d)|
    ensures forall t :: 0 <= t < |ChainItems(ads, d)| ==> Leads(ads, d, Traces(ads, d)[t], ChainItems(ads, d)[t])
    decreases ads, 0, 0
  {
    if ads != [] {
      var items := LevelItems(ads[0], d);
      assert items[0..] == items;
      ResultTracesFrom(ads, d, 0);
    }
  }

  /** The same for the items of the first level from `n` on. */
  lemma {:induction false} ResultTracesFrom(ads: seq<AttrDef>, d: Datum, n: nat)
    requires ads != [] && n <= |LevelItems(ads[0], d)|
    ensures var items := LevelItems(ads[0], d)[n..];
            var ts, ps := TracesFrom(items, n, d, ads[1..]), Extend(items, ads[1..]);
            |ts| == |ps| && forall t :: 0 <= t < |ps| ==> Leads(ads, d, ts[t], ps[t])
    decreases ads[1..], 1, |LevelItems(ads[0], d)| - n
  {
    var all, below := LevelItems(ads[0], d), ads[1..];
    if n < |all| {
      var items := all[n..];
      assert items[0] == all[n] && items[1..] == all[n + 1..];
      ResultTraces(below, all[n].datum);
      ResultTracesFrom(ads, d, n + 1);
      LevelGives(ads[0], d, n, all[n].key, all[n].datum);
      var us, qs := Traces(below, all[n].datum), ChainItems(below, all[n].datum);
      hide LevelItems, ChainItems, Traces, Gives, Leads;
      forall t | 0 <= t < |qs|
        ensures Leads(ads, d, Over(n, d, us)[t], PrefixAll(all[n].key, qs)[t])
      {
        LeadsStep(ads, d, n, all[n].key, all[n].datum, us[t], qs[t]);
      }
    }
  }

  /** Every trace is that of a result. */
  lemma {:induction false} AllTraces(ads: seq<AttrDef>, d: Datum, t: Trace, p: Path) returns (i: nat)
    requires Leads(ads, d, t, p)
    ensures i < |ChainItems(ads, d)| == |Traces(ads, d)| && Traces(ads, d)[i] == t && ChainItems(ads, d)[i] == p
    decreases ads, 0, 0
  {
    ResultTraces(ads, d);
    if ads == [] {
      assert t == Trace([], [d]) && p == Path([], d);
      i := 0;
    } else {
      var items := LevelItems(ads[0], d);
      LeadsRest(ads, d, t, p);
      LevelGives(ads[0], d, t.choices[0], p.keys[0], t.data[1]);
      i := AllTraces(ads[1..], t.data[1], Trace(t.choices[1..], t.data[1..]), Path(p.keys[1..], p.datum));
      i := ChosenFrom(ads, d, 0, t, p, i);
      assert items[0..] == items;
      assert Traces(ads, d) == TracesFrom(items, 0, d, ads[1..]) && ChainItems(ads, d) == Extend(items, ads[1..]);
    }
  }

  lemma {:induction false} ChosenFrom(ads: seq<AttrDef>, d: Datum, n: nat, t: Trace, p: Path, m: nat) returns (i: nat)
    requires ads != [] && Leads(ads, d, t, p) && n <= t.choices[0] < |LevelItems(ads[0], d)|
    requires LevelItems(ads[0], d)[t.choices[0]] == Item(p.keys[0], t.data[1])
    requires var us, qs := Traces(ads[1..], t.data[1]), ChainItems(ads[1..], t.data[1]);
             m < |qs| == |us| && us[m] == Trace(t.choices[1..], t.data[1..]) && qs[m] == Path(p.keys[1..], p.datum)
    ensures var items := LevelItems(ads[0], d)[n..];
            var ts, ps := TracesFrom(items, n, d, ads[1..]), Extend(items, ads[1..]);
            i < |ps| == |ts| && ts[i] == t && ps[i] == p
    decreases t.choices[0] - n
  {
    var all, below := LevelItems(ads[0], d), ads[1..];
    assert all[n..][0] == all[n] && all[n..][1..] == all[n + 1..];
    if n == t.choices[0] {
      ChosenHere(ads, d, n, t, p, m);
      i := m;
    } else {
      i := ChosenFrom(ads, d, n + 1, t, p, m);
      ResultTraces(below, all[n].datum);
      hide *;
      i := |ChainItems(below, all[n].datum)| + i;
    }
  }

  lemma ChosenHere(ads: seq<AttrDef>, d: Datum, n: nat, t: Trace, p: Path, m: nat)
    requires ads != [] && Leads(ads, d, t, p) && n == t.choices[0] < |LevelItems(ads[0], d)|
    requires LevelItems(ads[0], d)[n] == Item(p.keys[0], t.data[1])
    requires var us, qs := Traces(ads[1..], t.data[1]), ChainItems(ads[1..], t.data[1]);
             m < |qs| == |us| && us[m] == Trace(t.choices[1..], t.data[1..]) && qs[m] == Path(p.keys[1..], p.datum)
    ensures var items := LevelItems(ads[0], d)[n..];
            var ts, ps := TracesFrom(items, n, d, ads[1..]), Extend(items, ads[1..]);
            m < |ps| == |ts| && ts[m] == t && ps[m] == p
  {
    var all, below := LevelItems(ads[0], d), ads[1..];
    var items := all[n..];
    assert items[0] == all[n] && items[1..] == all[n + 1..];
    LeadsRest(ads, d, t, p);
    LeadsLengths(ads, d, t, p);
    ResultTracesFrom(ads, d, n);
    hide Gives, Leads, LevelItems, ChainItems, Traces;
    var us, qs := Traces(below, t.data[1]), ChainItems(below, t.data[1]);
    assert TracesFrom(items, n, d, below)[m] == Over(n, d, us)[m];
    assert Extend(items, below)[m] == PrefixAll(all[n].key, qs)[m];
    assert p.keys == [p.keys[0]] + p.keys[1..];
  }

  lemma LeadsLengths(ads: seq<AttrDef>, d: Datum, t: Trace, p: Path)
    requires Leads(ads, d, t, p)
    ensures |t.choices| == |p.keys| == |ads|
  {
  }

  /** Later results come from later choices, the first level most significant. */
  lemma {:induction false} TraceOrder(ads: seq<AttrDef>, d: Datum, t: nat, u: nat)
    requires t < u < |Traces(ads, d)|
    ensures |Traces(ads, d)[t].choices| == |Traces(ads, d)[u].choices| == |ads|
    ensures Before(Traces(ads, d)[t].choices, Traces(ads, d)[u].choices)
    decreases ads, 0, 0
  {
    TraceOrderFrom(LevelItems(ads[0], d), 0, d, ads[1..], t, u);
  }

  lemma {:induction false} TraceOrderFrom(items: seq<Item>, n: nat, d: Datum, ads: seq<AttrDef>, t: nat, u: nat)
    requires t < u < |TracesFrom(items, n, d, ads)|
    ensures var ts := TracesFrom(items, n, d, ads);
            |ts[t].choices| == |ts[u].choices| == |ads| + 1 && n <= ts[t].choices[0]
                && Before(ts[t].choices, ts[u].choices)
    decreases ads, 1, |items|
  {
    var us, vs := Traces(ads, items[0].datum), TracesFrom(items[1..], n + 1, d, ads);
    var ts := TracesFrom(items, n, d, ads);
    assert ts == Over(n, d, us) + vs;
    TraceLengths(ads, items[0].datum);
    TraceLengthsFrom(items[1..], n + 1, d, ads);
    if u < |us| {
      TraceOrder(ads, items[0].datum, t, u);
      assert ts[t] == Over(n, d, us)[t] && ts[u] == Over(n, d, us)[u];
      assert ts[t].choices[1..] == us[t].choices && ts[u].choices[1..] == us[u].choices;
    } else if t < |us| {
      assert ts[t] == Over(n, d, us)[t] && ts[u] == vs[u - |us|];
      assert ts[t].choices == [n] + us[t].choices && |us[t].choices| == |ads|;
      var v := vs[u - |us|];
      assert |v.choices| == |ads| + 1 && v.choices[0] >= n + 1;
    } else {
      assert ts[t] == vs[t - |us|] && ts[u] == vs[u - |us|];
      TraceOrderFrom(items[1..], n + 1, d, ads, t - |us|, u - |us|);
    }
  }

  /** All traces have `m` choices, the first of which is at least `n`. */
  ghost predicate Long(ts: seq<Trace>, m: nat, n: nat) {
    forall t :: 0 <= t < |ts| ==> |ts[t].choices| == m && (m > 0 ==> ts[t].choices[0] >= n)
  }

  lemma {:induction false} TraceLengths(ads: seq<AttrDef>, d: Datum)
    ensures Long(Traces(ads, d), |ads|, 0)
    decreases ads, 0, 0
  {
    if ads != [] {
      TraceLengthsFrom(LevelItems(ads[0], d), 0, d, ads[1..]);
      assert Traces(ads, d) == TracesFrom(LevelItems(ads[0], d), 0, d, ads[1..]);
    }
  }

  lemma {:induction false} TraceLengthsFrom(items: seq<Item>, n: nat, d: Datum, ads: seq<AttrDef>)
    ensures Long(TracesFrom(items, n, d, ads), |ads| + 1, n)
    decreases ads, 1, |items|
  {
    if items != [] {
      TraceLengths(ads, items[0].datum);
      TraceLengthsFrom(items[1..], n + 1, d, ads);
      var us, vs := Traces(ads, items[0].datum), TracesFrom(items[1..], n + 1, d, ads);
      LongMore(us, vs, |ads|, n, d);
      assert TracesFrom(items, n, d, ads) == Over(n, d, us) + vs;
    }
  }

  lemma LongMore(us: seq<Trace>, vs: seq<Trace>, m: nat, n: nat, d: Datum)
    requires Long(us, m, 0) && Long(vs, m + 1, n + 1)
    ensures Long(Over(n, d, us) + vs, m + 1, n)
  {
    var ts := Over(n, d, us) + vs;
    forall t | 0 <= t < |ts|
      ensures |ts[t].choices| == m + 1 && ts[t].choices[0] >= n
    {
      assert ts[t] == if t < |us| then Over(n, d, us)[t] else vs[t - |us|];
    }
  }

  /** Main theorem: the results of a chain, from first to last, are the ways of
      choosing one item at every level, in the order of these choices, the first
      level most significant, none left out and none twice. */
  lemma FlatMap(ads: seq<AttrDef>, d: Datum) returns (ts: seq<Trace>)
    ensures |ts| == |ChainItems(ads, d)|
    ensures forall i :: 0 <= i < |ts| ==> Leads(ads, d, ts[i], ChainItems(ads, d)[i])
    ensures forall i, j :: 0 <= i < j < |ts| ==>
            |ts[i].choices| == |ts[j].choices| && Before(ts[i].choices, ts[j].choices)
    ensures forall t, p :: Leads(ads, d, t, p) ==> exists i :: 0 <= i < |ts| && ts[i] == t && ChainItems(ads, d)[i] == p
  {
    hide Leads, Traces, ChainItems, Before;
    ts := Traces(ads, d);
    ResultTraces(ads, d);
    forall i, j | 0 <= i < j < |ts|
      ensures |ts[i].choices| == |ts[j].choices| && Before(ts[i].choices, ts[j].choices)
    {
      TraceOrder(ads, d, i, j);
    }
    forall t, p | Leads(ads, d, t, p)
      ensures exists i :: 0 <= i < |ts| && ts[i] == t && ChainItems(ads, d)[i] == p
    {
      var i := AllTraces(ads, d, t, p);
    }
  }

  /** A chain of one collection: its elements in order, each under its own key. */
  lemma CollectionResults(code: nat, entries: Datum -> seq<Entry>, d: Datum, i: nat)
    requires i < |entries(d)|
    ensures |ChainItems([Collection(code, entries)], d)| == |entries(d)|
    ensures ChainItems([Collection(code, entries)], d)[i]
         == Path([if code == 0 then NoKey else KeyDatum(code, entries(d)[i].key)], entries(d)[i].datum)
  {
    var ad := Collection(code, entries);
    var key, x := if code == 0 then NoKey else KeyDatum(code, entries(d)[i].key), entries(d)[i].datum;
    LevelGives(ad, d, i, key, x);
    assert [ad][1..] == [];
    LastLevel(LevelItems(ad, d), i);
  }

  lemma {:induction false} LastLevel(items: seq<Item>, i: nat)
    requires i < |items|
    ensures |Extend(items, [])| == |items| && Extend(items, [])[i] == Path([items[i].key], items[i].datum)
    decreases |items|
  {
    ExtendEnds(items);
    if i > 0 {
      LastLevel(items[1..], i - 1);
    } else {
      assert [items[0].key] + [] == [items[0].key];
    }
  }

  /** A chain of one scalar: its value, under its own key, or nothing. */
  lemma ScalarResult(code: nat, value: Datum -> Option<Entry>, d: Datum)
    ensures ChainItems([Scalar(code, value)], d)
         == match value(d)
            case None => []
            case Some(e) => [Path([if code == 0 then NoKey else KeyDatum(code, e.key)], e.datum)]
  {
    var ad := Scalar(code, value);
    assert [ad][1..] == [];
    ExtendEnds(LevelItems(ad, d));
    if value(d).Some? {
      var e := value(d).value;
      LevelGives(ad, d, 0, if code == 0 then NoKey else KeyDatum(code, e.key), e.datum);
      LastLevel(LevelItems(ad, d), 0);
    }
  }

  /** The values of the elements of a collection that have one. */
  function Present(es: seq<Entry>, value: Datum -> Option<Entry>): seq<Datum> {
    if es == [] then []
    else
      var rest := Present(es[..|es| - 1], value);
      match value(es[|es| - 1].datum)
      case None => rest
      case Some(e) => rest + [e.datum]
  }

  /** A scalar behind a collection: the values at its elements, in order, elements
      without one skipped. */
  lemma ScalarOfElements(code: nat, entries: Datum -> seq<Entry>, code': nat, value: Datum -> Option<Entry>, d: Datum)
    ensures DataOf(ChainItems([Collection(code, entries), Scalar(code', value)], d)) == Present(entries(d), value)
  {
    var ads := [Collection(code, entries), Scalar(code', value)];
    assert ads[1..] == [Scalar(code', value)];
    var items, es := LevelItems(ads[0], d), entries(d);
    forall i | 0 <= i < |es|
      ensures items[i].datum == es[i].datum
    {
      LevelGives(ads[0], d, i, items[i].key, items[i].datum);
    }
    ElementValues(items, es, code', value, |es|);
    assert items[..|es|] == items && es[..|es|] == es;
  }

  lemma {:induction false} ElementValues(items: seq<Item>, es: seq<Entry>, code: nat, value: Datum -> Option<Entry>,
      n: nat)
    requires |items| == |es| && n <= |es| && forall i :: 0 <= i < |es| ==> items[i].datum == es[i].datum
    ensures DataOf(Extend(items[..n], [Scalar(code, value)])) == Present(es[..n], value)
    decreases n
  {
    if n > 0 {
      var ads := [Scalar(code, value)];
      ElementValues(items, es, code, value, n - 1);
      ScalarResult(code, value, items[n - 1].datum);
      assert es[..n][..n - 1] == es[..n - 1] && items[..n] == items[..n - 1] + [items[n - 1]];
      ExtendMore(items[..n - 1], items[n - 1], ads);
    }
  }

  lemma {:induction false} ExtendMore(items: seq<Item>, item: Item, ads: seq<AttrDef>)
    ensures DataOf(Extend(items + [item], ads)) == DataOf(Extend(items, ads)) + DataOf(ChainItems(ads, item.datum))
    decreases |items|
  {
    var more := items + [item];
    if items == [] {
      assert more[1..] == [] && Extend(more[1..], ads) == [];
    } else {
      assert more[1..] == items[1..] + [item] && more[0] == items[0];
      ExtendMore(items[1..], item, ads);
      var first := PrefixAll(items[0].key, ChainItems(ads, items[0].datum));
      assert Extend(more, ads) == first + Extend(more[1..], ads)
          && Extend(items, ads) == first + Extend(items[1..], ads);
      DataConcat(first, Extend(more[1..], ads));
      DataConcat(first, Extend(items[1..], ads));
    }
  }

  lemma DataConcat(a: seq<Path>, b: seq<Path>)
    ensures DataOf(a + b) == DataOf(a) + DataOf(b)
  {
  }
}
