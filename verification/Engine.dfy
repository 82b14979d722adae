/** The query engine: chained reset and get, product reset and advance, and
    the reset and yield of every kind of level, updating the levels in place. */
module Engine {
  import opened Denotation
  import opened Search
  import opened Conditions
  import opened Levels
  import opened Chains
  import opened ChainSteps
  import opened Products
  import opened ProductSteps
  import opened BoundCompounds
  import opened BoundSteps

  /** A plain collection: the iterator is created on the first reset, and set
      to the first element. */
  method CollectionReset(q: Query, d: Datum, key: Option<KeyTree>, ghost strict: bool)
    returns (r: Option<Datum>, key': Option<KeyTree>)
    requires LevelOk(q) && q.ad.Collection? && KeyFits(q.ad, key, strict)
    modifies q`state, q`view
    ensures LevelResetDone(q, d, old(Stat(q)), r, key, key', strict)
    ensures var es := q.ad.entries(d);
            if es == [] then r == None && key' == key
            else
              && r == Some(es[0].datum) && q.state.entries == Some(es[1..])
              && key' == if key.Some? && q.ad.code != 0 then Some(KeyDatum(q.ad.code, es[0].key)) else key
  {
    hide *;
    ghost var was := Stat(q);
    StatView(q);
    if q.state.entries.None? {
      q.state := q.state.(entries := Some([]));
    }
    var es := q.ad.entries(d);
    r, key' := None, key;
    if es == [] {
      q.state := q.state.(entries := Some([]));
      q.view := View([], q.view.cur, q.view.log + [d]);
    } else {
      q.state := q.state.(entries := Some(es[1..]));
      r := Some(es[0].datum);
      if key.Some? && q.ad.code != 0 {
        key' := Some(EntryKey(q.ad.code, es[0]));
      }
      q.view := View(EntryItems(q.ad.code, es[1..]), EntryKey(q.ad.code, es[0]), q.view.log + [d]);
    }
    CollectionEnds(q, d, was, es, key, key', strict);
    if es != [] && q.ad.code != 0 { EntryKeyIs(q.ad.code, es[0]); }
  }

  method CollectionYield(q: Query, key: Option<KeyTree>, ghost strict: bool)
    returns (r: Option<Datum>, key': Option<KeyTree>)
    requires LevelOk(q) && q.ad.Collection? && LevelLive(q) && KeyFits(q.ad, key, strict)
    modifies q`state, q`view
    ensures LevelYieldDone(q, old(Stat(q)), r, key, key', strict)
    ensures old(q.state.entries).Some?
    ensures var es := old(q.state.entries).value;
            if es == [] then r == None && key' == key
            else
              && r == Some(es[0].datum) && q.state.entries == Some(es[1..])
              && key' == if key.Some? && q.ad.code != 0 then Some(KeyDatum(q.ad.code, es[0].key)) else key
  {
    var es := q.state.entries.value;
    r, key' := None, key;
    if es != [] {
      q.state := q.state.(entries := Some(es[1..]));
      r := Some(es[0].datum);
      if key.Some? && q.ad.code != 0 {
        key' := Some(EntryKey(q.ad.code, es[0]));
      }
      q.view := View(EntryItems(q.ad.code, es[1..]), EntryKey(q.ad.code, es[0]), q.view.log);
    }
  }

  method ScalarReset(q: Query, d: Datum, key: Option<KeyTree>, ghost strict: bool)
    returns (r: Option<Datum>, key': Option<KeyTree>)
    requires LevelOk(q) && q.ad.Scalar? && KeyFits(q.ad, key, strict)
    modifies q`view
    ensures LevelResetDone(q, d, old(Stat(q)), r, key, key', strict)
    ensures match q.ad.value(d)
            case None => r == None && key' == key
            case Some(e) =>
              && r == Some(e.datum)
              && key' == if key.Some? && q.ad.code != 0 then Some(KeyDatum(q.ad.code, e.key)) else key
  {
    var e := q.ad.value(d);
    r, key' := None, key;
    if e.Some? {
      r := Some(e.value.datum);
      if key.Some? && q.ad.code != 0 {
        key' := Some(EntryKey(q.ad.code, e.value));
      }
    }
    q.view := View([], if e.Some? then EntryKey(q.ad.code, e.value) else q.view.cur, q.view.log + [d]);
  }

  /** A filter: a scalar level that gives its owner back, or nothing. */
  method FilterReset(q: Query, d: Datum, key: Option<KeyTree>, ghost strict: bool)
    returns (end: Outcome, r: Option<Datum>, key': Option<KeyTree>)
    requires LevelOk(q) && q.ad.Filter? && KeyFits(q.ad, key, strict)
    modifies q.nodes`state, q.nodes`view, q.buffers
    ensures LevelOk(q)
    ensures end == Done ==> LevelResetDone(q, d, old(Stat(q)), r, key, key', strict)
    ensures end == Done ==>
              var ps := ChainItems(q.ad.query, d);
              key' == key && r == if ps != [] && q.ad.truth(ps[0].datum) then Some(d) else None
    ensures TameLevel(q.ad, d) ==> end == Done
    decreases q.ad, 0
  {
    hide *;
    FilterLinks(q);
    FilterTame(q.ad, d);
    ghost var was, a := Stat(q), Snap(q.subNodes, q.ad.query);
    StatView(q);
    var v, k;
    end, v, k := ChainReset(q.sub, d, None, q.subNodes, q.ad.query, false);
    r, key' := None, key;
    if end != Done { return; }
    ResetValue(q.ad.query, d, a, Snap(q.subNodes, q.ad.query), v);
    q.view := View([], NoKey, was.view.log + [d]);
    if v.Some? {
      q.state := q.state.(logicResult := q.ad.truth(v.value));
      if q.state.logicResult { r := Some(d); }
    }
    FilterEnds(q, d, was, v, r, key, strict);
    FirstIs(q.ad.query, d);
  }

  /** A forwarding attribute, iterating or scalar: a whole chain as a level. */
  method FwdReset(q: Query, d: Datum, key: Option<KeyTree>, ghost strict: bool)
    returns (end: Outcome, r: Option<Datum>, key': Option<KeyTree>)
    requires LevelOk(q) && q.ad.Fwd? && KeyFits(q.ad, key, strict)
    modifies q.nodes`state, q.nodes`view, q.buffers
    ensures LevelOk(q)
    ensures end == Done ==> LevelResetDone(q, d, old(Stat(q)), r, key, key', strict)
    ensures TameLevel(q.ad, d) ==> end == Done
    decreases q.ad, 0
  {
    hide *;
    FwdLinks(q, key, strict);
    FwdTame(q.ad, d);
    FwdIs(q);
    StatCoherent(q);
    StatView(q);
    ghost var was, a := Stat(q), Snap(q.subNodes, q.ad.sub);
    end, r, key' := ChainReset(q.sub, d, key, q.subNodes, q.ad.sub, strict);
    if end != Done { return; }
    q.view := View(FwdRest(Snap(q.subNodes, q.ad.sub), q.ad.sub), KeyList(Curs(Views(q.subNodes))), was.view.log + [d]);
    FwdResetEnds(q, d, was, a, r, key, key', strict);
  }

  method FwdYield(q: Query, key: Option<KeyTree>, ghost strict: bool)
    returns (end: Outcome, r: Option<Datum>, key': Option<KeyTree>)
    requires LevelOk(q) && q.ad.Fwd? && !FullyScalar(q.ad.sub) && LevelLive(q) && KeyFits(q.ad, key, strict)
    modifies q.nodes`state, q.nodes`view, q.buffers
    ensures LevelOk(q)
    ensures end == Done ==> LevelYieldDone(q, old(Stat(q)), r, key, key', strict)
    ensures old(LevelSafe(q)) ==> end == Done
    decreases q.ad, 0
  {
    hide *;
    FwdLinks(q, key, strict);
    FwdIs(q);
    StatView(q);
    StatLive(q);
    ghost var was, a := Stat(q), Snap(q.subNodes, q.ad.sub);
    ghost var shown := KeyHolds(q.ad, key, was.view.cur);
    FwdShown(q, was, a, key);
    SnapLive(q.subNodes, q.ad.sub);
    end, r, key' := ChainGet(q.sub, key, q.subNodes, q.ad.sub, shown, strict);
    if end != Done { return; }
    q.view := View(FwdRest(Snap(q.subNodes, q.ad.sub), q.ad.sub), KeyList(Curs(Views(q.subNodes))), was.view.log);
    FwdYieldEnds(q, was, a, r, key, key', strict, shown);
  }

  /** hdql__query_reset: reset of a single level, by kind of attribute. */
  method LevelReset(q: Query, d: Datum, key: Option<KeyTree>, ghost strict: bool)
    returns (end: Outcome, r: Option<Datum>, key': Option<KeyTree>)
    requires LevelOk(q) && KeyFits(q.ad, key, strict)
    modifies q.nodes`state, q.nodes`view, q.buffers
    ensures LevelOk(q)
    ensures end == Done ==> LevelResetDone(q, d, old(Stat(q)), r, key, key', strict)
    ensures TameLevel(q.ad, d) ==> end == Done
    decreases q.ad, 5
  {
    hide TameLevel, Fits, Stat, ResetTo, SlotDone;
    end := Done;
    match q.ad
    case Collection(_, _) => r, key' := CollectionReset(q, d, key, strict);
    case Scalar(_, _) => r, key' := ScalarReset(q, d, key, strict);
    case Fwd(_) => end, r, key' := FwdReset(q, d, key, strict);
    case Filter(_, _) => end, r, key' := FilterReset(q, d, key, strict);
    case Bound(_, _, _) => end, r, key' := BoundReset(q, d, key, strict);
  }

  /** hdql__query_yield: the next item of a level; scalars never yield. */
  method LevelYield(q: Query, key: Option<KeyTree>, ghost strict: bool)
    returns (end: Outcome, r: Option<Datum>, key': Option<KeyTree>)
    requires LevelOk(q) && LevelLive(q) && KeyFits(q.ad, key, strict)
    modifies q.nodes`state, q.nodes`view, q.buffers
    ensures LevelOk(q)
    ensures end == Done ==> LevelYieldDone(q, old(Stat(q)), r, key, key', strict)
    ensures old(LevelSafe(q)) ==> end == Done
    ensures old(Armed(q)) ==> end != Done
    decreases q.ad, 5
  {
    end := Done;
    if ScalarLevel(q.ad) {
      ScalarYield(q, key, strict);
      return Done, None, key;
    }
    hide Fits, Stat, YieldTo, SlotDone, LevelLive, LevelSafe;
    match q.ad
    case Collection(_, _) => r, key' := CollectionYield(q, key, strict);
    case Fwd(_) => end, r, key' := FwdYield(q, key, strict);
    case Bound(_, _, _) => end, r, key' := BoundYield(q, key, strict);
  }

  method ResetIn(q: Query, d: Datum, key: Option<KeyTree>, ghost ns: seq<Query>, ghost ads: seq<AttrDef>,
      ghost i: nat, ghost strict: bool)
    returns (end: Outcome, r: Option<Datum>, key': Option<KeyTree>)
    requires ChainOk(ns, ads) && i < |ns| && q == ns[i] && KeyFits(ads[i], key, strict)
    modifies Foot(ns)`state, Foot(ns)`view, Bufs(ns)
    ensures ChainOk(ns, ads)
    ensures end == Done ==>
              && OneMoved(old(Stats(ns, ads)), Stats(ns, ads), i)
              && ResetTo(ads[i], d, old(Stats(ns, ads)[i]), Stats(ns, ads)[i], r)
              && SlotDone(ads[i], r.Some?, Stats(ns, ads)[i].view.cur, key, key', strict)
    ensures TameLevel(ads[i], d) ==> end == Done
    decreases ads, 0, 0
  {
    hide LevelOk, TameLevel, Fits, Stat, ResetTo, SlotDone;
    assert forall j :: 0 <= j < |ns| && j != i ==> ns[j].nodes !! ns[i].nodes && ns[j].buffers !! ns[i].buffers;
    end, r, key' := LevelReset(q, d, key, strict);
    StatView(q);
  }

  method YieldIn(q: Query, key: Option<KeyTree>, ghost ns: seq<Query>, ghost ads: seq<AttrDef>, ghost i: nat,
      ghost strict: bool)
    returns (end: Outcome, r: Option<Datum>, key': Option<KeyTree>)
    requires ChainOk(ns, ads) && i < |ns| && q == ns[i] && Stats(ns, ads)[i].live && KeyFits(ads[i], key, strict)
    modifies Foot(ns)`state, Foot(ns)`view, Bufs(ns)
    ensures ChainOk(ns, ads)
    ensures end == Done ==>
              && OneMoved(old(Stats(ns, ads)), Stats(ns, ads), i)
              && YieldTo(old(Stats(ns, ads)[i]), Stats(ns, ads)[i], r)
              && SlotDone(ads[i], r.Some? && KeyHolds(ads[i], key, old(Stats(ns, ads)[i].view.cur)),
                          Stats(ns, ads)[i].view.cur, key, key', strict)
    ensures old(Stats(ns, ads)[i].safe) ==> end == Done
    ensures old(Stats(ns, ads)[i].armed) ==> end != Done
    decreases ads, 0, 0
  {
    hide LevelOk, Fits, Stat, YieldTo, SlotDone, LevelLive, LevelSafe, Armed, KeyHolds;
    assert forall j :: 0 <= j < |ns| && j != i ==> ns[j].nodes !! ns[i].nodes && ns[j].buffers !! ns[i].buffers;
    StatLive(q);
    end, r, key' := LevelYield(q, key, strict);
    StatView(q);
  }

  /** Reset of level `i` in the course of a search, with its slot of the key list. */
  method ResetSlot(q: Query, d: Datum, hasKey: bool, keys: seq<KeyTree>, ckey: nat, ghost run: Run, ghost i: nat,
      ghost w: nat)
    returns (end: Outcome, r: Option<Datum>, keys': seq<KeyTree>, ghost j: nat)
    requires InSearch(run, i, Some(d), w, keys) && i < |run.ads| && q == run.ns[i]
    requires hasKey == run.key.Some? && (hasKey ==> ckey == i)
    modifies Foot(run.ns)`state, Foot(run.ns)`view, Bufs(run.ns)
    ensures ChainOk(run.ns, run.ads)
    ensures end == Done ==> w > 0 && j == (if r == None then i else i + 1)
    ensures end == Done && r == None && run.root.None? ==> Stopped(run, i, w - 1, keys')
    ensures end == Done && (r.Some? || run.root.Some?) ==> InSearch(run, j, r, w - 1, keys')
    ensures run.tame ==> end == Done
    ensures |run.ns| == |run.ads| && (end == Done && hasKey ==> |run.ads| <= |keys'|)
    ensures if i + 1 < |run.ns| then q.next == run.ns[i+1] else q.next == null
    ensures if i > 0 then q.prev == run.ns[i-1] else q.prev == null
    decreases run.ads, 0, 2
  {
    hide *;
    SlotBegins(run, i, Some(d), w, keys, i);
    SlotFitsParts(run, keys, i);
    Links(run.ns, run.ads, i);
    ghost var ss := Stats(run.ns, run.ads);
    var slot := if hasKey then Some(keys[ckey]) else None;
    ghost var slot0 := slot;
    end, r, slot := ResetIn(q, d, slot, run.ns, run.ads, i, run.strict);
    Links(run.ns, run.ads, i);
    keys', j := keys, if r == None then i else i + 1;
    if end != Done { return; }
    SlotSome(run.ads[i], r.Some?, Stats(run.ns, run.ads)[i].view.cur, slot0, slot, run.strict);
    keys' := if hasKey then keys[ckey := slot.value] else keys;
    SlotReset(run, ss, i, d, r, w, keys, slot0, slot, keys');
  }

  /** Yield of level `i` in the course of a search, with its slot of the key list.
      `failed`: the level was reset just before, without success. */
  method YieldSlot(q: Query, hasKey: bool, keys: seq<KeyTree>, ckey: nat, ghost run: Run, ghost i: nat, ghost w: nat,
      ghost failed: bool)
    returns (end: Outcome, r: Option<Datum>, keys': seq<KeyTree>, ghost j: nat)
    requires if failed then Stopped(run, i, w, keys) else InSearch(run, i + 1, None, w, keys)
    requires i < |run.ads| && q == run.ns[i]
    requires hasKey == run.key.Some? && (hasKey ==> ckey == i)
    modifies Foot(run.ns)`state, Foot(run.ns)`view, Bufs(run.ns)
    ensures ChainOk(run.ns, run.ads)
    ensures end == Done ==> j == (if r == None then i else i + 1) && InSearch(run, j, r, w, keys')
    ensures run.tame ==> end == Done
    ensures |run.ns| == |run.ads| && (end == Done && hasKey ==> |run.ads| <= |keys'|)
    ensures if i + 1 < |run.ns| then q.next == run.ns[i+1] else q.next == null
    ensures if i > 0 then q.prev == run.ns[i-1] else q.prev == null
    decreases run.ads, 0, 2
  {
    hide *;
    if failed {
      StoppedBegins(run, i, w, keys);
    } else {
      SlotBegins(run, i + 1, None, w, keys, i);
    }
    SlotFitsParts(run, keys, i);
    Links(run.ns, run.ads, i);
    AllCoherent(run.ns, run.ads);
    ghost var ss := Stats(run.ns, run.ads);
    var slot := if hasKey then Some(keys[ckey]) else None;
    ghost var slot0 := slot;
    end, r, slot := YieldIn(q, slot, run.ns, run.ads, i, run.strict);
    Links(run.ns, run.ads, i);
    keys', j := keys, if r == None then i else i + 1;
    if end != Done { return; }
    SlotSome(run.ads[i], r.Some? && KeyHolds(run.ads[i], slot0, ss[i].view.cur),
             Stats(run.ns, run.ads)[i].view.cur, slot0, slot, run.strict);
    keys' := if hasKey then keys[ckey := slot.value] else keys;
    if failed {
      SlotStopped(run, ss, i, r, w, keys, slot0, slot, keys');
    } else {
      SlotYield(run, ss, i, r, w, keys, slot0, slot, keys');
    }
  }

  /** The descending loop of a chained reset: resets levels from `cq` down, each
      on the result of the one above, until the chain is complete or a level
      is empty. */
  method DescendFrom(cq: Query, d: Datum, hasKey: bool, keys: seq<KeyTree>, ckey: nat, ghost run: Run, ghost i: nat,
      ghost w: nat)
    returns (end: Outcome, cq': Query, r: Option<Datum>, keys': seq<KeyTree>, ckey': nat, ghost j: nat, ghost w': nat)
    requires InSearch(run, i, Some(d), w, keys) && i < |run.ads| == |run.ns| && cq == run.ns[i] && run.root.Some?
    requires hasKey == run.key.Some? && (hasKey ==> ckey == i)
    modifies Foot(run.ns)`state, Foot(run.ns)`view, Bufs(run.ns)
    ensures ChainOk(run.ns, run.ads) && |run.ns| == |run.ads| && (run.tame ==> end == Done)
    ensures end == Done ==> InSearch(run, j, r, w', keys') && w' < w
    ensures end == Done && r.Some? ==> j == |run.ads|
    ensures end == Done && r.None? ==> j < |run.ads| && cq' == run.ns[j] && (hasKey ==> ckey' == j)
    ensures end == Done && r.None? ==> if j > 0 then cq'.prev == run.ns[j-1] else cq'.prev == null
    decreases run.ads, 0, 3
  {
    hide *;
    cq', r, keys', ckey', j, w' := cq, Some(d), keys, ckey, i, w;
    while true
      invariant j < |run.ads| && cq' == run.ns[j] && r.Some? && (hasKey ==> ckey' == j)
      invariant InSearch(run, j, r, w', keys') && w' <= w
      decreases w'
    {
      end, r, keys', j := ResetSlot(cq', r.value, hasKey, keys', ckey', run, j, w');
      if end != Done { return; }
      w' := w' - 1;
      if r.None? || cq'.next == null { return; }
      cq' := cq'.next;
      if hasKey {
        assert ckey' + 1 < |keys'|;  // not past the terminal key
        ckey' := ckey' + 1;
      }
    }
  }

  /** The climbing loop of a chained reset: the reset failed at `cq`, so its
      parents are yielded, nearest first, until one has another item. */
  method ClimbFrom(cq: Query, hasKey: bool, keys: seq<KeyTree>, ckey: nat, ghost run: Run, ghost i: nat, ghost w: nat)
    returns (end: Outcome, cq': Query, r: Option<Datum>, keys': seq<KeyTree>, ckey': nat, ghost j: nat)
    requires InSearch(run, i, None, w, keys) && i < |run.ads| == |run.ns| && cq == run.ns[i]
    requires if i > 0 then cq.prev == run.ns[i-1] else cq.prev == null
    requires hasKey == run.key.Some? && (hasKey ==> ckey == i)
    modifies Foot(run.ns)`state, Foot(run.ns)`view, Bufs(run.ns)
    ensures ChainOk(run.ns, run.ads) && (run.tame ==> end == Done)
    ensures end == Done ==> InSearch(run, j, r, w, keys')
    ensures end == Done && r.None? ==> j == 0
    ensures end == Done && r.Some? ==>
              0 < j < |run.ads| && cq'.next == run.ns[j] && (hasKey ==> ckey' == j - 1 && j < |keys'|)
    decreases run.ads, 0, 3
  {
    hide *;
    SearchOk(run, i, None, w, keys);
    end, cq', r, keys', ckey', j := Done, cq, None, keys, ckey, i;
    while true
      invariant j < |run.ads| && cq' == run.ns[j] && r.None? && (hasKey ==> ckey' == j)
      invariant if j > 0 then cq'.prev == run.ns[j-1] else cq'.prev == null
      invariant InSearch(run, j, None, w, keys') && ChainOk(run.ns, run.ads) && end == Done
      decreases j
    {
      if cq'.prev == null { return; }
      cq' := cq'.prev;
      if hasKey { ckey' := ckey' - 1; }
      end, r, keys', j := YieldSlot(cq', hasKey, keys', ckey', run, j - 1, w, false);
      if end != Done || r.Some? { return; }
    }
  }

  /** hdql_query_reset: chained reset, from whatever state the chain is in. */
  method ChainReset(head: Query, d: Datum, key: Option<KeyTree>, ghost ns: seq<Query>, ghost ads: seq<AttrDef>,
      ghost strict: bool)
    returns (end: Outcome, r: Option<Datum>, key': Option<KeyTree>)
    requires ChainOk(ns, ads) && head == ns[0] && ListFits(ads, key, strict)
    modifies Foot(ns)`state, Foot(ns)`view, Bufs(ns)
    ensures ChainOk(ns, ads)
    ensures end == Done ==>
              && ResetDone(ads, d, old(Snap(ns, ads)), Snap(ns, ads), r)
              && KeysDone(ads, r.Some?, Curs(Views(ns)), key, key', strict)
    ensures TameChain(ads, d) ==> end == Done
    decreases ads, 1
  {
    hide *;
    Links(ns, ads, 0);
    ResetBegins(ns, ads, d, key, strict);
    SnapCoherent(ns, ads);
    ghost var a := Snap(ns, ads);
    ghost var run := ResetRun(ns, ads, a, d, key, strict);
    ResetRunParts(run, ns, ads, a, d, key, strict);
    var keys := ListOf(key);
    var cq, ckey: nat := head, 0;
    r, key' := Some(d), key;
    ghost var i: nat, w: nat := 0, Resets(run.t, |ads|);
    while true
      invariant i < |ads| && cq == ns[i] && r.Some? && (key.Some? ==> ckey == i)
      invariant InSearch(run, i, r, w, keys)
      decreases w
    {
      end, cq, r, keys, ckey, i, w := DescendFrom(cq, r.value, key.Some?, keys, ckey, run, i, w);
      if end != Done { return; }
      if r.None? {
        end, cq, r, keys, ckey, i := ClimbFrom(cq, key.Some?, keys, ckey, run, i, w);
        if end != Done { return; }
        if r.Some? {
          // a parent yielded: try its descendants again
          cq := cq.next;
          if key.Some? { ckey := ckey + 1; }
          continue;
        }
      }
      ResetEnds(run, a, d, i, r, w, keys);
      key' := AsList(key, keys);
      return;
    }
  }

  /** Goes to the terminal level, and the terminal key. */
  method ToTerminal(head: Query, hasKey: bool, ghost run: Run, ghost i: nat, ghost w: nat, ghost keys: seq<KeyTree>)
    returns (cq: Query, ckey: nat)
    requires InSearch(run, i, None, w, keys) && |run.ads| == |run.ns| > 0 && head == run.ns[0]
             && hasKey == run.key.Some?
    ensures cq == run.ns[|run.ns| - 1] && (hasKey ==> ckey == |run.ns| - 1)
    ensures InSearch(run, i, None, w, keys)
  {
    hide *;
    cq, ckey := head, 0;
    ghost var k: nat := 0;
    SearchLinks(run, i, None, w, keys, k);
    while cq.next != null
      invariant k < |run.ads| && cq == run.ns[k] && (hasKey ==> ckey == k)
      invariant if k + 1 < |run.ns| then cq.next == run.ns[k+1] else cq.next == null
      invariant InSearch(run, i, None, w, keys)
      decreases |run.ads| - k
    {
      cq := cq.next;
      k := k + 1;
      SearchLinks(run, i, None, w, keys, k);
      if hasKey {
        assert ckey + 1 < |keys|;
        ckey := ckey + 1;
      }
    }
  }

  /** The backtracking loop of a get: yields `cq` and its parents, nearest
      first, until one of them gives an item. */
  method BacktrackFrom(cq: Query, hasKey: bool, keys: seq<KeyTree>, ckey: nat, ghost run: Run, ghost k: nat,
      ghost w: nat, ghost failed: bool)
    returns (end: Outcome, cq': Query, r: Option<Datum>, keys': seq<KeyTree>, ckey': nat, ghost j: nat)
    requires k < |run.ads| == |run.ns| && cq == run.ns[k] && run.root.None?
    requires if failed then Stopped(run, k, w, keys) else InSearch(run, k + 1, None, w, keys)
    requires hasKey == run.key.Some? && (hasKey ==> ckey == k)
    modifies Foot(run.ns)`state, Foot(run.ns)`view, Bufs(run.ns)
    ensures ChainOk(run.ns, run.ads) && (run.tame ==> end == Done)
    ensures end == Done && r.None? ==> InSearch(run, 0, r, w, keys')
    ensures end == Done && r.Some? ==>
              && InSearch(run, j + 1, r, w, keys') && j < |run.ads| && cq' == run.ns[j]
              && (hasKey ==> ckey' == j && |run.ads| <= |keys'|)
    ensures end == Done && r.Some? ==> if j + 1 < |run.ns| then cq'.next == run.ns[j+1] else cq'.next == null
    decreases run.ads, 0, 3
  {
    hide *;
    cq', keys', ckey', j := cq, keys, ckey, k;
    ghost var i, fail := k, failed;
    while true
      invariant j < |run.ads| && cq' == run.ns[j] && (hasKey ==> ckey' == j)
      invariant if fail then Stopped(run, j, w, keys') else InSearch(run, j + 1, None, w, keys')
      decreases j
    {
      end, r, keys', i := YieldSlot(cq', hasKey, keys', ckey', run, j, w, fail);
      if end != Done || r.Some? || cq'.prev == null { return; }
      cq' := cq'.prev;
      j := j - 1;
      fail := false;
      if hasKey { ckey' := ckey' - 1; }
    }
  }

  /** The second loop of a get: resets the levels below `cq`, each on what its
      parent gave, until the chain is complete or a level is empty. */
  method DescendBelow(cq: Query, d: Datum, hasKey: bool, keys: seq<KeyTree>, ckey: nat, ghost run: Run, ghost k: nat,
      ghost w: nat)
    returns (end: Outcome, cq': Query, r: Option<Datum>, keys': seq<KeyTree>, ckey': nat, ghost j: nat, ghost w': nat)
    requires InSearch(run, k + 1, Some(d), w, keys) && k < |run.ads| == |run.ns| && cq == run.ns[k] && run.root.None?
    requires if k + 1 < |run.ns| then cq.next == run.ns[k+1] else cq.next == null
    requires hasKey == run.key.Some? && (hasKey ==> ckey == k && |run.ads| <= |keys|)
    modifies Foot(run.ns)`state, Foot(run.ns)`view, Bufs(run.ns)
    ensures ChainOk(run.ns, run.ads) && (run.tame ==> end == Done)
    ensures end == Done ==> j < |run.ads| && cq' == run.ns[j] && (hasKey ==> ckey' == j)
    ensures end == Done && r.Some? ==> cq'.next == null && InSearch(run, |run.ads|, r, w', keys')
    ensures end == Done && r.None? ==> Stopped(run, j, w', keys') && w' < w
    decreases run.ads, 0, 3
  {
    hide *;
    SearchOk(run, k + 1, Some(d), w, keys);
    end, cq', r, keys', ckey', j, w' := Done, cq, Some(d), keys, ckey, k, w;
    ghost var i := k;
    while cq'.next != null
      invariant j < |run.ads| && cq' == run.ns[j] && r.Some? && (hasKey ==> ckey' == j && |run.ads| <= |keys'|)
      invariant if j + 1 < |run.ns| then cq'.next == run.ns[j+1] else cq'.next == null
      invariant InSearch(run, j + 1, r, w', keys') && w' <= w && ChainOk(run.ns, run.ads) && end == Done
      decreases |run.ads| - j
    {
      cq' := cq'.next;
      j := j + 1;
      if hasKey {
        assert ckey' + 1 < |keys'|;  // not past the terminal key
        ckey' := ckey' + 1;
      }
      end, r, keys', i := ResetSlot(cq', r.value, hasKey, keys', ckey', run, j, w');
      if end != Done { return; }
      w' := w' - 1;
      if r.None? { return; }
    }
  }

  /** hdql_query_get: the next result of the chain.  `shown`: the key list
      handed in still shows the previous result. */
  method ChainGet(head: Query, key: Option<KeyTree>, ghost ns: seq<Query>, ghost ads: seq<AttrDef>,
      ghost shown: bool, ghost strict: bool)
    returns (end: Outcome, r: Option<Datum>, key': Option<KeyTree>)
    requires ChainOk(ns, ads) && ChainLive(ns, ads) && head == ns[0] && ListFits(ads, key, strict)
    requires shown ==> ListHolds(ads, key, Curs(Views(ns)))
    modifies Foot(ns)`state, Foot(ns)`view, Bufs(ns)
    ensures ChainOk(ns, ads)
    ensures end == Done ==>
              && GetDone(ads, old(Snap(ns, ads)), Snap(ns, ads), r)
              && KeysDone(ads, shown && r.Some?, Curs(Views(ns)), key, key', strict)
    ensures old(Snap(ns, ads)).safe ==> end == Done
    decreases ads, 1
  {
    hide *;
    Links(ns, ads, 0);
    GetBegins(ns, ads, key, shown, strict);
    ghost var a := Snap(ns, ads);
    ghost var run := GetRun(ns, ads, a, key, shown, strict);
    GetRunParts(run, ns, ads, a, key, shown, strict);
    var keys := ListOf(key);
    key' := key;
    ghost var k: nat, w: nat, failed := |ads| - 1, Resets(run.t, |ads|), false;
    var cq, ckey := ToTerminal(head, key.Some?, run, |ads|, w, keys);
    while true
      invariant k < |ads| && cq == ns[k] && (key.Some? ==> ckey == k)
      invariant if failed then Stopped(run, k, w, keys) else InSearch(run, k + 1, None, w, keys)
      decreases w
    {
      end, cq, r, keys, ckey, k := BacktrackFrom(cq, key.Some?, keys, ckey, run, k, w, failed);
      if end != Done { return; }
      if r.None? {
        GetEnds(run, a, 0, r, w, keys);
        key' := AsList(key, keys);
        return;
      }
      end, cq, r, keys, ckey, k, w := DescendBelow(cq, r.value, key.Some?, keys, ckey, run, k, w);
      if end != Done { return; }
      if r.Some? && cq.next == null {
        GetEnds(run, a, |ads|, r, w, keys);
        key' := AsList(key, keys);
        return;
      }
      failed := true;
    }
  }

  /** Reset of one query of a product. */
  method ResetFactor(q: Query, d: Datum, key: Option<KeyTree>, ghost chains: seq<seq<Query>>,
      ghost joins: seq<AttrDef>, ghost i: nat, ghost strict: bool)
    returns (end: Outcome, r: Option<Datum>, key': Option<KeyTree>)
    requires ProdOk(chains, joins) && i < |chains| && chains[i] != [] && q == chains[i][0]
    requires ListFits(Factor(joins, i), key, strict)
    modifies Foot(chains[i])`state, Foot(chains[i])`view, Bufs(chains[i])
    ensures ProdOk(chains, joins)
    ensures OnlyAt(old(Snaps(chains, joins)), Snaps(chains, joins), i)
    ensures end == Done ==>
              && ResetDone(Factor(joins, i), d, old(Snap(chains[i], Factor(joins, i))),
                           Snap(chains[i], Factor(joins, i)), r)
              && KeysDone(Factor(joins, i), r.Some?, Curs(Snap(chains[i], Factor(joins, i)).views), key, key', strict)
    ensures TameChain(Factor(joins, i), d) ==> end == Done
    decreases joins, 0
  {
    hide ChainOk, ResetDone, TameChain, ListFits, Left, Snaps, Snap, Apart, KeysDone;
    ProdLength(chains, joins);
    ghost var ads := joins[i].factor;
    FactorMembers(chains, joins);
    HeadOf(chains[i], ads);
    ApartAt(chains, joins, i);
    SnapsAre(chains, joins);
    end, r, key' := ChainReset(q, d, key, chains[i], ads, strict);
    forall j | 0 <= j < |chains|
      ensures ChainOk(chains[j], Factor(joins, j))
    {
      assert old(ChainOk(chains[j], Factor(joins, j)));
    }
    SnapsAre(chains, joins);
    SnapViews(chains[i], ads);
    forall j | 0 <= j < |chains| && j != i
      ensures Snaps(chains, joins)[j] == old(Snaps(chains, joins))[j]
    {
      assert Disjoint(chains[j], chains[i]);
      assert Snap(chains[j], Factor(joins, j)) == old(Snap(chains[j], Factor(joins, j)));
    }
  }

  /** Get on one query of a product. */
  method GetFactor(q: Query, key: Option<KeyTree>, ghost chains: seq<seq<Query>>, ghost joins: seq<AttrDef>,
      ghost i: nat, ghost shown: bool, ghost strict: bool)
    returns (end: Outcome, r: Option<Datum>, key': Option<KeyTree>)
    requires ProdOk(chains, joins) && i < |chains| && chains[i] != [] && q == chains[i][0]
    requires Snap(chains[i], Factor(joins, i)).live && ListFits(Factor(joins, i), key, strict)
    requires shown ==> ListHolds(Factor(joins, i), key, Curs(Snap(chains[i], Factor(joins, i)).views))
    modifies Foot(chains[i])`state, Foot(chains[i])`view, Bufs(chains[i])
    ensures ProdOk(chains, joins)
    ensures OnlyAt(old(Snaps(chains, joins)), Snaps(chains, joins), i)
    ensures end == Done ==>
              && GetDone(Factor(joins, i), old(Snap(chains[i], Factor(joins, i))), Snap(chains[i], Factor(joins, i)), r)
              && KeysDone(Factor(joins, i), shown && r.Some?, Curs(Snap(chains[i], Factor(joins, i)).views), key, key',
                          strict)
    ensures old(Snap(chains[i], Factor(joins, i)).safe) ==> end == Done
    decreases joins, 0
  {
    hide ChainOk, GetDone, ListFits, ListHolds, Left, Snaps, Snap, Apart, KeysDone, ChainLive;
    ProdLength(chains, joins);
    ghost var ads := joins[i].factor;
    FactorMembers(chains, joins);
    HeadOf(chains[i], ads);
    ApartAt(chains, joins, i);
    SnapsAre(chains, joins);
    SnapLive(chains[i], ads);
    end, r, key' := ChainGet(q, key, chains[i], ads, shown, strict);
    forall j | 0 <= j < |chains|
      ensures ChainOk(chains[j], Factor(joins, j))
    {
      assert old(ChainOk(chains[j], Factor(joins, j)));
    }
    SnapsAre(chains, joins);
    SnapViews(chains[i], ads);
    forall j | 0 <= j < |chains| && j != i
      ensures Snaps(chains, joins)[j] == old(Snaps(chains, joins))[j]
    {
      assert Disjoint(chains[j], chains[i]);
      assert Snap(chains[j], Factor(joins, j)) == old(Snap(chains[j], Factor(joins, j)));
    }
  }

  /** One step of a product reset: query `i` on `d`; the key list is given the
      keys of its result, `values` the result itself. */
  method ResetNext(qs: seq<Query>, i: nat, values: array<Datum>, d: Datum, key: Option<KeyTree>,
      ghost chains: seq<seq<Query>>, ghost joins: seq<AttrDef>, ghost from: nat, ghost before: seq<Snapshot>,
      ghost strict: bool)
    returns (end: Outcome, ok: bool, key': Option<KeyTree>)
    requires ProdOk(chains, joins) && Heads(qs, chains) && values.Length == |joins| && values !in ProdBufs(chains)
    requires i < |joins| && ListFits(joins, key, strict)
    requires ResetSoFar(joins, d, from, i, before, Snaps(chains, joins), values[..], key)
    modifies ProdFoot(chains)`state, ProdFoot(chains)`view, ProdBufs(chains), values
    ensures ProdOk(chains, joins)
    ensures end == Done ==> key'.Some? == key.Some? && ListFits(joins, key', strict)
    ensures end == Done && ok ==> ResetSoFar(joins, d, from, i + 1, before, Snaps(chains, joins), values[..], key')
    ensures end == Done && !ok ==> FailedAt(old(Snaps(chains, joins)), Snaps(chains, joins), joins, d, i)
    ensures values[..from] == old(values[..from]) && (end == Done ==> SameSlots(key, key', from))
    ensures TameChain(Factor(joins, i), d) ==> end == Done
    decreases joins, 1
  {
    hide *;
    ResetSoFarBounds(joins, d, from, i, before, Snaps(chains, joins), values[..], key);
    ProdLength(chains, joins);
    SlotListFits(joins, key, i, strict);
    HeadsAt(qs, chains, joins, i);
    SnapAt(chains, joins, i);
    ghost var mid, mids := values[..], Snaps(chains, joins);
    var slot := SlotOf(key, i);
    ghost var slot0 := slot;
    var r;
    end, r, slot := ResetFactor(qs[i], d, slot, chains, joins, i, strict);
    ok, key' := false, key;
    if end != Done { return; }
    SnapAt(chains, joins, i);
    ghost var after := Snaps(chains, joins);
    FactorResetEnds(Factor(joins, i), d, mids[i], after[i], r);
    KeysParts(Factor(joins, i), r.Some?, Curs(after[i].views), slot0, slot, strict);
    WithSlotFits(joins, key, i, slot, strict);
    key' := WithSlot(key, i, slot);
    SameButOne(key, key, key', from, i);
    if r.None? {
      FactorFails(chains, joins, d, i, mids);
      return;
    }
    values[i] := r.value;
    assert Snaps(chains, joins) == after;
    ResetOneMore(joins, d, from, i, before, mids, after, mid, values[..], key, key', r.value);
    ok := true;
  }

  /** hdql__query_product_reset, on the queries from `from` on. */
  method ProductReset(qs: seq<Query>, from: nat, values: array<Datum>, d: Datum, key: Option<KeyTree>,
      ghost chains: seq<seq<Query>>, ghost joins: seq<AttrDef>, ghost strict: bool)
    returns (end: Outcome, ok: bool, key': Option<KeyTree>)
    requires ProdOk(chains, joins) && Heads(qs, chains) && values.Length == |joins| && values !in ProdBufs(chains)
    requires from <= |joins| && ListFits(joins, key, strict)
    modifies ProdFoot(chains)`state, ProdFoot(chains)`view, ProdBufs(chains), values
    ensures ProdOk(chains, joins)
    ensures end == Done ==> key'.Some? == key.Some? && ListFits(joins, key', strict)
    ensures end == Done && ok ==>
              ResetSoFar(joins, d, from, |joins|, old(Snaps(chains, joins)), Snaps(chains, joins), values[..], key')
    ensures end == Done && !ok ==> ResetFailed(old(Snaps(chains, joins)), Snaps(chains, joins), joins, d, from)
    ensures values[..from] == old(values[..from]) && (end == Done ==> SameSlots(key, key', from))
    ensures ResetTame(joins, d, from) ==> end == Done
    decreases joins, 2
  {
    hide *;
    ProdLength(chains, joins);
    ghost var before := Snaps(chains, joins);
    var i := from;
    end, ok, key' := Done, false, key;
    ResetNone(joins, d, from, before, values[..], key);
    while i < |qs|
      invariant i <= |joins| && ProdOk(chains, joins) && key'.Some? == key.Some? && ListFits(joins, key', strict)
      invariant ResetSoFar(joins, d, from, i, before, Snaps(chains, joins), values[..], key') && end == Done
      invariant values[..from] == old(values[..from]) && SameSlots(key, key', from)
    {
      ghost var was, mid, vals := key', Snaps(chains, joins), values[..];
      NextTame(joins, d, from, i, before, mid, vals, was);
      end, ok, key' := ResetNext(qs, i, values, d, key', chains, joins, from, before, strict);
      if end != Done { return; }
      SameSlotsTrans(key, was, key', from);
      if !ok {
        ResetFails(joins, d, from, i, before, mid, Snaps(chains, joins), vals, was);
        return;
      }
      i := i + 1;
    }
    ok := true;
  }

  /** One step of a product advance: get on query `i`, all queries after it
      being spent. */
  method TurnNext(qs: seq<Query>, i: nat, key: Option<KeyTree>, ghost key0: Option<KeyTree>, ghost vals: seq<Datum>,
      ghost d: Option<Datum>, ghost chains: seq<seq<Query>>, ghost joins: seq<AttrDef>, ghost before: seq<Snapshot>,
      ghost shown: bool, ghost strict: bool)
    returns (end: Outcome, r: Option<Datum>, key': Option<KeyTree>)
    requires ProdOk(chains, joins) && Heads(qs, chains) && Advanceable(before, joins, d) && i < |joins|
    requires SpentFrom(before, Snaps(chains, joins), joins, vals, d, key0, key, i + 1)
    requires shown ==> AllShown(before, joins, key0)
    requires ListFits(joins, key, strict)
    modifies ProdFoot(chains)`state, ProdFoot(chains)`view, ProdBufs(chains)
    ensures ProdOk(chains, joins)
    ensures end == Done ==> key'.Some? == key.Some? && ListFits(joins, key', strict)
    ensures end == Done && r.None? ==> SpentFrom(before, Snaps(chains, joins), joins, vals, d, key0, key', i)
    ensures end == Done && r.Some? ==>
              Turned(before, Snaps(chains, joins), joins, vals, d, key0, key', i, r.value, shown)
    ensures AllSafe(before) ==> end == Done
    decreases joins, 1
  {
    hide *;
    ProdLength(chains, joins);
    SlotListFits(joins, key, i, strict);
    HeadsAt(qs, chains, joins, i);
    QueryReady(chains, joins, before, vals, d, key0, key, i, shown);
    AllSafeAt(before, i);
    SnapAt(chains, joins, i);
    ghost var now := Snaps(chains, joins);
    var slot := SlotOf(key, i);
    ghost var slot0 := slot;
    end, r, slot := GetFactor(qs[i], slot, chains, joins, i, shown, strict);
    key' := key;
    if end != Done { return; }
    SnapAt(chains, joins, i);
    ghost var after := Snaps(chains, joins);
    FactorGetEnds(Factor(joins, i), now[i], after[i], r);
    KeysParts(Factor(joins, i), shown && r.Some?, Curs(after[i].views), slot0, slot, strict);
    WithSlotFits(joins, key, i, slot, strict);
    key' := WithSlot(key, i, slot);
    if r.Some? {
      TurnOne(before, now, after, joins, vals, d, key0, key, key', i, r.value, shown);
    } else {
      SpentOne(before, now, after, joins, vals, d, key0, key, key', i);
    }
  }

  /** The end of a product advance: digit `i` was turned to `r`, and all queries to
      the right are reset; none of them can be empty. */
  method ResetSuffix(qs: seq<Query>, values: array<Datum>, d: Datum, key: Option<KeyTree>, i: nat, ghost r: Datum,
      ghost chains: seq<seq<Query>>, ghost joins: seq<AttrDef>, ghost before: seq<Snapshot>, ghost vals: seq<Datum>,
      ghost key0: Option<KeyTree>, ghost shown: bool, ghost strict: bool)
    returns (end: Outcome, ok: bool, key': Option<KeyTree>)
    requires ProdOk(chains, joins) && Heads(qs, chains) && values.Length == |joins| && values !in ProdBufs(chains)
    requires Advanceable(before, joins, Some(d)) && ListFits(joins, key, strict) && i < |joins| == |vals|
    requires Turned(before, Snaps(chains, joins), joins, vals, Some(d), key0, key, i, r, shown)
    requires values[..] == vals[i := r] && (shown ==> AllShown(before, joins, key0))
    modifies ProdFoot(chains)`state, ProdFoot(chains)`view, ProdBufs(chains), values
    ensures ProdOk(chains, joins)
    ensures end == Done ==> AdvanceDone(before, Snaps(chains, joins), joins, vals, values[..], d, key', shown, ok)
    ensures end == Done ==> key'.Some? == key.Some? && ListFits(joins, key', strict)
    ensures ResetTame(joins, d, i + 1) ==> end == Done
    decreases joins, 3
  {
    hide *;
    ghost var mid := Snaps(chains, joins);
    end, ok, key' := ProductReset(qs, i + 1, values, d, key, chains, joins, strict);
    if end != Done { return; }
    SuffixNotEmpty(before, joins, d, i + 1, mid, Snaps(chains, joins));
    AdvanceFound(before, mid, Snaps(chains, joins), joins, vals, vals[i := r], values[..], d, key0, key, key', i, r,
      shown);
  }

  /** hdql_query_product_advance: the odometer, last query fastest.  `d` is the
      owner kept by the caller; `shown`: the key list shows the row in hand.
      Without an owner, queries after the one that was turned would be reset on
      a NULL datum. */
  method ProductAdvance(qs: seq<Query>, values: array<Datum>, d: Option<Datum>, key: Option<KeyTree>,
      ghost chains: seq<seq<Query>>, ghost joins: seq<AttrDef>, ghost shown: bool, ghost strict: bool)
    returns (end: Outcome, ok: bool, key': Option<KeyTree>)
    requires ProdOk(chains, joins) && Heads(qs, chains) && values.Length == |joins| && values !in ProdBufs(chains)
    requires Advanceable(Snaps(chains, joins), joins, d) && ListFits(joins, key, strict)
    requires shown ==> AllShown(Snaps(chains, joins), joins, key)
    modifies ProdFoot(chains)`state, ProdFoot(chains)`view, ProdBufs(chains), values
    ensures ProdOk(chains, joins)
    ensures end == Done && d.None? ==> NullAdvance(old(Snaps(chains, joins)), Snaps(chains, joins), joins, ok)
    ensures end == Done && d.Some? ==>
              AdvanceDone(old(Snaps(chains, joins)), Snaps(chains, joins), joins, old(values[..]), values[..], d.value,
                          key', shown, ok)
    ensures end == Done ==> key'.Some? == key.Some? && ListFits(joins, key', strict)
    ensures AdvanceTame(old(Snaps(chains, joins)), joins, d) ==> end == Done
    decreases joins, 4
  {
    hide *;
    ProdLength(chains, joins);
    SnapLengths(chains, joins);
    ghost var before, vals := Snaps(chains, joins), values[..];
    end, ok, key' := Done, false, key;
    AdvanceBegins(before, joins, vals, d, key);
    AdvanceTameParts(before, joins, d);
    var i: nat := |qs|;
    while i > 0
      invariant i <= |joins| && ProdOk(chains, joins) && key'.Some? == key.Some? && ListFits(joins, key', strict)
      invariant SpentFrom(before, Snaps(chains, joins), joins, vals, d, key, key', i) && values[..] == vals
      invariant end == Done && !ok
    {
      i := i - 1;
      var r;
      end, r, key' := TurnNext(qs, i, key', key, vals, d, chains, joins, before, shown, strict);
      if end != Done { return; }
      if r.Some? {
        ghost var mid := Snaps(chains, joins);
        values[i] := r.value;
        assert Snaps(chains, joins) == mid;
        if d.None? {
          TurnedTrap(before, mid, joins, vals, i, key, key', r.value, shown);
          if i + 1 < |qs| { return Trapped, false, key'; }
          NullTurned(before, mid, joins, vals, key, key', r.value, shown);
          return Done, true, key';
        }
        end, ok, key' := ResetSuffix(qs, values, d.value, key', i, r.value, chains, joins, before, vals, key, shown,
          strict);
        return;
      }
    }
    AdvanceEmpty(before, Snaps(chains, joins), joins, vals, d, key, key', shown);
  }

  /** Evaluates the filter query on a row.  The key list of the product itself
      is handed to it. */
  method TestRow(q: Query, row: Datum, key: Option<KeyTree>, ghost strict: bool)
    returns (end: Outcome, verdict: Option<bool>, key': Option<KeyTree>)
    requires LevelOk(q) && q.ad.Bound? && FilterApart(q) && KeyFits(q.ad, key, strict)
    modifies Foot(q.subNodes)`state, Foot(q.subNodes)`view, Bufs(q.subNodes)
    ensures LevelOk(q)
    ensures Snaps(q.boundNodes, q.ad.joins) == old(Snaps(q.boundNodes, q.ad.joins))
    ensures end == Done ==> key' == key && verdict == Verdict(q.ad.filter, q.ad.truth, row)
    ensures TameChain(q.ad.filter, row) ==> end == Done
    decreases q.ad, 0
  {
    hide *;
    BoundLinks(q, key, strict);
    FilterParts(q);
    ghost var a := Snap(q.subNodes, q.ad.filter);
    var v;
    end, v, key' := ChainReset(q.sub, row, key, q.subNodes, q.ad.filter, false);
    verdict := None;
    if end != Done { return; }
    SnapViews(q.subNodes, q.ad.filter);
    TestEnds(q, row, a, Snap(q.subNodes, q.ad.filter), key, v, key');
    verdict := if v.None? then None else Some(q.ad.truth(v.value));
  }

  /** Product reset of a bound compound: the first row, if any. */
  method FirstRow(q: Query, d: Datum, key: Option<KeyTree>, ghost strict: bool)
    returns (end: Outcome, ok: bool, key': Option<KeyTree>)
    requires LevelOk(q) && q.ad.Bound? && KeyFits(q.ad, key, strict)
    modifies q.nodes`state, q.nodes`view, q.buffers
    ensures LevelOk(q) && q.state == old(q.state) && q.view == old(q.view)
    ensures end == Done && ok ==>
              && ResetSoFar(q.ad.joins, d, 0, |q.ad.joins|, old(Snaps(q.boundNodes, q.ad.joins)),
                            Snaps(q.boundNodes, q.ad.joins), q.values[..], key')
    ensures end == Done && !ok ==>
              ResetFailed(old(Snaps(q.boundNodes, q.ad.joins)), Snaps(q.boundNodes, q.ad.joins), q.ad.joins, d, 0)
    ensures end == Done ==> key'.Some? == key.Some? && KeyFits(q.ad, key', strict)
    ensures TameLevel(q.ad, d) ==> end == Done
    decreases q.ad, 1
  {
    hide *;
    BoundLinks(q, key, strict);
    BoundTame(q.ad, d);
    end, ok, key' := ProductReset(q.bound, 0, q.values, d, key, q.boundNodes, q.ad.joins, strict);
    if end != Done { return; }
    BoundKeyFits(q.ad, key, key', strict);
  }

  /** Product advance of a bound compound: the next row, if any. */
  method NextRow(q: Query, key: Option<KeyTree>, ghost d: Datum, ghost ps: seq<Path>, ghost shown: bool,
      ghost tame: bool, ghost strict: bool)
    returns (end: Outcome, ok: bool, key': Option<KeyTree>)
    requires OnRow(q, d, ps, key, shown, tame) && q.state.product == Some(d) && KeyFits(q.ad, key, strict)
    modifies q.nodes`state, q.nodes`view, q.buffers
    ensures LevelOk(q) && q.state == old(q.state) && q.view == old(q.view)
    ensures end == Done ==> ok == (ps != [])
    ensures end == Done && ok ==>
              && OnRow(q, d, ps[1..], key', shown, tame)
              && ps[0] == Path(ProdKeys(Snaps(q.boundNodes, q.ad.joins)), Row(d, q.values[..]))
              && (tame ==> TameChain(q.ad.filter, Row(d, q.values[..])))
    ensures end == Done && !ok ==> AllOut(Snaps(q.boundNodes, q.ad.joins), tame)
    ensures end == Done ==> key'.Some? == key.Some? && KeyFits(q.ad, key', strict)
    ensures tame ==> end == Done
    decreases q.ad, 1
  {
    hide *;
    OnRowParts(q, d, ps, key, shown, tame);
    BoundLinks(q, key, strict);
    ghost var ss, vals := Snaps(q.boundNodes, q.ad.joins), q.values[..];
    end, ok, key' := ProductAdvance(q.bound, q.values, q.state.product, key, q.boundNodes, q.ad.joins, shown, strict);
    if end != Done { return; }
    BoundKeyFits(q.ad, key, key', strict);
    AdvanceOnRow(q, d, ps, ss, vals, key', shown, tame, ok);
  }

  /** The verdict of the filter on the row in hand. */
  method TestRowInHand(q: Query, d: Datum, key: Option<KeyTree>, ghost ps: seq<Path>, ghost shown: bool,
      ghost tame: bool, ghost strict: bool)
    returns (end: Outcome, verdict: Option<bool>, key': Option<KeyTree>)
    requires OnRow(q, d, ps, key, shown, tame) && KeyFits(q.ad, key, strict)
    requires q.ad.filter != [] && (tame ==> TameChain(q.ad.filter, Row(d, q.values[..])))
    modifies q.nodes`state, q.nodes`view, q.buffers
    ensures LevelOk(q) && q.state == old(q.state) && q.view == old(q.view) && q.values[..] == old(q.values[..])
    ensures Snaps(q.boundNodes, q.ad.joins) == old(Snaps(q.boundNodes, q.ad.joins))
    ensures end == Done ==> OnRow(q, d, ps, key, shown, tame) && key' == key
    ensures end == Done ==> verdict == Verdict(q.ad.filter, q.ad.truth, Row(d, q.values[..]))
    ensures tame ==> end == Done
    decreases q.ad, 1
  {
    hide *;
    OnRowParts(q, d, ps, key, shown, tame);
    BoundLinks(q, key, strict);
    end, verdict, key' := TestRow(q, Row(d, q.values[..]), key, strict);
    if end != Done { return; }
    OnRowFrom(q, d, ps, key', shown, tame);
  }

  /** The filter loop after a product reset: advances the product up to the
      first row that passes, which may be the row in hand.  A row on which the
      filter has no value would be tested again and again. */
  method SkipRejected(q: Query, d: Datum, key: Option<KeyTree>, ghost ps: seq<Path>, ghost items: seq<Item>,
      ghost tame: bool, ghost strict: bool)
    returns (end: Outcome, ok: bool, key': Option<KeyTree>, ghost rest: seq<Path>)
    requires OnRow(q, d, ps, key, true, tame) && Testing(q, d, ps, items, tame)
    requires q.state.product == Some(d) && KeyFits(q.ad, key, strict)
    modifies q.nodes`state, q.nodes`view, q.buffers
    ensures LevelOk(q) && q.view == old(q.view)
    ensures end == Done && ok ==>
              && OnRow(q, d, rest, key', true, tame) && q.state.product == Some(d)
              && (items == [Item(KeyList(ProdKeys(Snaps(q.boundNodes, q.ad.joins))), Row(d, q.values[..]))]
                           + AcceptedItems(rest, q.ad.filter, q.ad.truth))
              && (ps == [] ==> Snaps(q.boundNodes, q.ad.joins) == old(Snaps(q.boundNodes, q.ad.joins)))
    ensures end == Done && !ok ==>
              items == [] && q.state.product.None? && AllOut(Snaps(q.boundNodes, q.ad.joins), tame)
    ensures end == Done ==> NoStall(AllRows(q.ad, d), q.ad.filter, q.ad.truth)
    ensures end == Done ==> key'.Some? == key.Some? && KeyFits(q.ad, key', strict)
    ensures tame ==> end == Done
    decreases q.ad, 2
  {
    hide *;
    OnRowParts(q, d, ps, key, true, tame);
    BoundLinks(q, key, strict);
    end, ok, key', rest := Done, true, key, ps;
    ghost var before := Snaps(q.boundNodes, q.ad.joins);
    while |q.ad.filter| != 0
      invariant end == Done && ok && q.state.product == Some(d) && q.view == old(q.view)
      invariant OnRow(q, d, rest, key', true, tame) && Testing(q, d, rest, items, tame)
      invariant key'.Some? == key.Some? && KeyFits(q.ad, key', strict)
      invariant ps == [] ==> rest == [] && Snaps(q.boundNodes, q.ad.joins) == before
      decreases |rest|
    {
      OnRowParts(q, d, rest, key', true, tame);
      TestHead(q, d, rest, items, tame);
      var v;
      end, v, key' := TestRowInHand(q, d, key', rest, true, tame, strict);
      if end != Done { return; }
      if v.None? { return Stalled, false, key', rest; }
      q.state := q.state.(logicResult := v.value);
      if q.state.logicResult { return; }
      OnRowFrom(q, d, rest, key', true, tame);
      end, ok, key' := NextRow(q, key', d, rest, true, tame, strict);
      if end != Done { return; }
      if !ok {
        AcceptNone(q.ad.filter, q.ad.truth);
        q.state := q.state.(product := None);
        return;
      }
      NextTesting(q, d, rest, items, tame);
      rest := rest[1..];
    }
    OnRowParts(q, d, rest, key', true, tame);
    TestHead(q, d, rest, items, tame);
  }

  /** The filtered product as a collection level: reset. */
  method BoundReset(q: Query, d: Datum, key: Option<KeyTree>, ghost strict: bool)
    returns (end: Outcome, r: Option<Datum>, key': Option<KeyTree>)
    requires LevelOk(q) && q.ad.Bound? && KeyFits(q.ad, key, strict)
    modifies q.nodes`state, q.nodes`view, q.buffers
    ensures LevelOk(q)
    ensures end == Done ==> LevelResetDone(q, d, old(Stat(q)), r, key, key', strict)
    ensures TameLevel(q.ad, d) ==> end == Done
    decreases q.ad, 3
  {
    hide *;
    BoundLinks(q, key, strict);
    BoundIs(q);
    ghost var was, items, tame := Stat(q), LevelItems(q.ad, d), TameLevel(q.ad, d);
    ghost var before, vals, product := Snaps(q.boundNodes, q.ad.joins), q.values[..], q.state.product;
    q.state := q.state.(product := Some(d));
    r := None;
    var ok;
    end, ok, key' := FirstRow(q, d, key, strict);
    if end != Done { return; }
    if !ok {
      q.state := q.state.(product := None);
      q.view := View([], q.view.cur, q.view.log + [d]);
      BoundIs(q);
      FailsTo(q.ad, d, was, Stat(q), before, Snaps(q.boundNodes, q.ad.joins), vals, q.values[..], product);
      BoundEnds(q, d, was, r, key, key', strict);
      return;
    }
    ghost var ps, first, vals', key0 := AllRows(q.ad, d), Snaps(q.boundNodes, q.ad.joins), q.values[..], key';
    ResetOnRow(q, d, before, key');
    ghost var rest;
    end, ok, key', rest := SkipRejected(q, d, key', ps[1..], items, tame, strict);
    if end != Done { return; }
    if !ok {
      q.view := View([], q.view.cur, q.view.log + [d]);
      BoundIs(q);
      RejectsTo(q.ad, d, was, Stat(q), Snaps(q.boundNodes, q.ad.joins), q.values[..]);
      BoundEnds(q, d, was, r, key, key', strict);
      return;
    }
    r := Some(Row(d, q.values[..]));
    q.view := View(items[1..], items[0].key, q.view.log + [d]);
    OnRowParts(q, d, rest, key', true, tame);
    if tame && Tidy(q.ad, d) { TidyStays(q, d, before, first, vals', key0); }
    BoundIs(q);
    SucceedsTo(q.ad, d, was, Stat(q), Snaps(q.boundNodes, q.ad.joins), q.values[..], rest);
    BoundShows(q, key, key', strict);
    BoundEnds(q, d, was, r, key, key', strict);
  }

  /** The filtered product as a collection level: yield. */
  method BoundYield(q: Query, key: Option<KeyTree>, ghost strict: bool)
    returns (end: Outcome, r: Option<Datum>, key': Option<KeyTree>)
    requires LevelOk(q) && q.ad.Bound? && LevelLive(q) && KeyFits(q.ad, key, strict)
    modifies q.nodes`state, q.nodes`view, q.buffers
    ensures LevelOk(q)
    ensures end == Done ==> LevelYieldDone(q, old(Stat(q)), r, key, key', strict)
    ensures old(LevelSafe(q)) ==> end == Done
    ensures old(Armed(q)) ==> end != Done
    decreases q.ad, 4
  {
    hide *;
    StatLive(q);
    BoundIs(q);
    ghost var was := Stat(q);
    if q.state.product.None? {
      end, key' := NullYield(q, key, strict);
      return end, None, key';
    }
    ArmedNone(q);
    end, r, key' := OwnedYield(q, key, strict);
  }

  /** A yield without owner, as after a failed reset, or when depleted. */
  method NullYield(q: Query, key: Option<KeyTree>, ghost strict: bool)
    returns (end: Outcome, key': Option<KeyTree>)
    requires LevelOk(q) && q.ad.Bound? && LevelLive(q) && KeyFits(q.ad, key, strict) && q.state.product.None?
    modifies q.nodes`state, q.nodes`view, q.buffers
    ensures LevelOk(q)
    ensures end == Done ==> LevelYieldDone(q, old(Stat(q)), None, key, key', strict)
    ensures old(LevelSafe(q)) ==> end == Done
    ensures old(Armed(q)) ==> end != Done
    decreases q.ad, 1
  {
    hide *;
    BoundLinks(q, key, strict);
    StatLive(q);
    BoundIs(q);
    ghost var was, ss, vals := Stat(q), Snaps(q.boundNodes, q.ad.joins), q.values[..];
    NullParts(q.ad, was, ss, vals);
    var ok;
    end, ok, key' := ProductAdvance(q.bound, q.values, q.state.product, key, q.boundNodes, q.ad.joins, false, strict);
    if end != Done { return; }
    NullEnds(q.ad, was, ss, Snaps(q.boundNodes, q.ad.joins), vals, ok);
    if ok && |q.ad.filter| != 0 {
      // the filter query would be reset on a row without owner
      return Trapped, key';
    }
    BoundKeyFits(q.ad, key, key', strict);
    BoundIs(q);
    NullYieldTo(q.ad, was, Stat(q), ss, Snaps(q.boundNodes, q.ad.joins), vals, q.values[..], ok);
    YieldEnds(q, was, None, key, key', strict);
  }

  /** The next row of a bound compound, and whether it passes the filter; a row on
      which the filter has no value does not. */
  method NextTested(q: Query, d: Datum, key: Option<KeyTree>, ghost ps: seq<Path>, ghost shown: bool, ghost tame: bool,
      ghost strict: bool)
    returns (end: Outcome, ok: bool, passed: bool, key': Option<KeyTree>)
    requires OnRow(q, d, ps, key, shown, tame) && q.state.product == Some(d) && KeyFits(q.ad, key, strict)
    modifies q.nodes`state, q.nodes`view, q.buffers
    ensures LevelOk(q) && q.state.product == old(q.state.product) && q.view == old(q.view)
    ensures end == Done ==> ok == (ps != [])
    ensures end == Done && ok ==>
              && OnRow(q, d, ps[1..], key', shown, tame)
              && (AcceptedItems(ps, q.ad.filter, q.ad.truth)
                  == (if passed then InHand(q, d) else []) + AcceptedItems(ps[1..], q.ad.filter, q.ad.truth))
    ensures end == Done && !ok ==> AllOut(Snaps(q.boundNodes, q.ad.joins), tame) && !passed
    ensures end == Done ==> key'.Some? == key.Some? && KeyFits(q.ad, key', strict)
    ensures tame ==> end == Done
    decreases q.ad, 2
  {
    hide *;
    OnRowParts(q, d, ps, key, shown, tame);
    BoundLinks(q, key, strict);
    passed := false;
    end, ok, key' := NextRow(q, key, d, ps, shown, tame, strict);
    if end != Done || !ok { return; }
    AcceptHead(ps, q.ad.filter, q.ad.truth);
    InHandIs(q, d);
    OnRowParts(q, d, ps[1..], key', shown, tame);
    passed := |q.ad.filter| == 0;
    if !passed {
      var verdict;
      end, verdict, key' := TestRowInHand(q, d, key', ps[1..], shown, tame, strict);
      if end != Done { return; }
      if verdict.Some? {
        q.state := q.state.(logicResult := verdict.value);
        passed := verdict.value;
      }
    }
    OnRowParts(q, d, ps[1..], key', shown, tame);
    OnRowFrom(q, d, ps[1..], key', shown, tame);
    InHandIs(q, d);
  }

  /** A yield with an owner: advances to the next row that passes the filter. */
  method OwnedYield(q: Query, key: Option<KeyTree>, ghost strict: bool)
    returns (end: Outcome, r: Option<Datum>, key': Option<KeyTree>)
    requires LevelOk(q) && q.ad.Bound? && LevelLive(q) && KeyFits(q.ad, key, strict) && q.state.product.Some?
    modifies q.nodes`state, q.nodes`view, q.buffers
    ensures LevelOk(q)
    ensures end == Done ==> LevelYieldDone(q, old(Stat(q)), r, key, key', strict)
    ensures old(LevelSafe(q)) ==> end == Done
    decreases q.ad, 3
  {
    hide *;
    BoundLinks(q, key, strict);
    BoundNotStrict(q.ad, key, strict);
    StatLive(q);
    BoundIs(q);
    ghost var was, shown := Stat(q), KeyHolds(q.ad, key, q.view.cur);
    var d := q.state.product.value;
    ghost var tame, rest := LevelSafe(q), q.view.rest;
    OwnedParts(q, key, d);
    ghost var ps := ProdLeft(Snaps(q.boundNodes, q.ad.joins), q.ad.joins, q.values[..], d);
    end, r, key' := Done, None, key;
    var ok;
    var passed := false;
    while !passed
      invariant end == Done && OnRow(q, d, ps, key', shown, tame) && (passed ==> q.values.Length == |q.boundNodes|)
      invariant rest == if passed then InHand(q, d) + AcceptedItems(ps, q.ad.filter, q.ad.truth)
                        else AcceptedItems(ps, q.ad.filter, q.ad.truth)
      invariant q.state.product == Some(d) && q.view == was.view && r == None
      invariant key'.Some? == key.Some? && KeyFits(q.ad, key', strict)
      decreases if passed then 0 else 1, |ps|
    {
      end, ok, passed, key' := NextTested(q, d, key', ps, shown, tame, strict);
      if end != Done { return; }
      if !ok {
        AcceptNone(q.ad.filter, q.ad.truth);
        q.state := q.state.(product := None);
        q.view := View([], q.view.cur, q.view.log);
        OutEnds(q, was, key, key', tame, strict);
        return;
      }
      ps := ps[1..];
    }
    r := Some(Row(d, q.values[..]));
    OnRowParts(q, d, ps, key', shown, tame);
    InHandIs(q, d);
    q.view := View(rest[1..], rest[0].key, q.view.log);
    OnRowFrom(q, d, ps, key', shown, tame);
    RowEnds(q, d, was, ps, key, key', shown, tame, strict);
  }
}
