/** Steps of the search over one chain: what a reset or a yield of one level does
    to the position, and what follows when the search ends. */
module ChainSteps {
  import opened Denotation
  import opened Search
  import opened Conditions
  import opened Levels
  import opened Chains

  lemma CollectionEnds(q: Query, d: Datum, was: Status, es: seq<Entry>, key: Option<KeyTree>, key': Option<KeyTree>,
      strict: bool)
    requires LevelOk(q) && q.ad.Collection? && KeyFits(q.ad, key, strict) && es == q.ad.entries(d)
    requires q.state.entries == Some(if es == [] then [] else es[1..]) && q.view.log == was.view.log + [d]
    requires es == [] ==> q.view.rest == [] && key' == key
    requires es != [] ==>
               && q.view.rest == EntryItems(q.ad.code, es[1..]) && q.view.cur == EntryKey(q.ad.code, es[0])
               && key' == if key.Some? && q.ad.code != 0 then Some(EntryKey(q.ad.code, es[0])) else key
    ensures LevelResetDone(q, d, was, if es == [] then None else Some(es[0].datum), key, key', strict)
  {
    assert LevelItems(q.ad, d) == EntryItems(q.ad.code, es);
  }

  lemma FilterLinks(q: Query)
    requires LevelOk(q) && q.ad.Filter?
    ensures ChainOk(q.subNodes, q.ad.query) && |q.subNodes| == |q.ad.query| > 0 && q.sub == q.subNodes[0]
    ensures Foot(q.subNodes) <= q.nodes - {q} && Bufs(q.subNodes) <= q.buffers && q in q.nodes
    ensures ListFits(q.ad.query, None, false)
  {
  }

  lemma FilterTame(ad: AttrDef, d: Datum)
    requires ad.Filter?
    ensures TameLevel(ad, d) ==> TameChain(ad.query, d)
  {
  }

  lemma FirstIs(ads: seq<AttrDef>, d: Datum)
    ensures var ps := ChainItems(ads, d); First(ads, d) == if ps == [] then None else Some(ps[0].datum)
  {
  }

  /** The key of an entry, where the level has keys. */
  lemma EntryKeyIs(code: nat, e: Entry)
    requires code != 0
    ensures EntryKey(code, e) == KeyDatum(code, e.key)
  {
  }

  lemma FilterEnds(q: Query, d: Datum, was: Status, v: Option<Datum>, r: Option<Datum>, key: Option<KeyTree>,
      strict: bool)
    requires LevelOk(q) && q.ad.Filter? && KeyFits(q.ad, key, strict)
    requires q.view == View([], NoKey, was.view.log + [d]) && v == First(q.ad.query, d)
    requires r == if v.Some? && q.ad.truth(v.value) then Some(d) else None
    ensures LevelResetDone(q, d, was, r, key, key, strict)
  {
    assert r.Some? ==> LevelItems(q.ad, d) == [Item(NoKey, d)];
  }

  lemma FwdLinks(q: Query, key: Option<KeyTree>, strict: bool)
    requires LevelOk(q) && q.ad.Fwd? && KeyFits(q.ad, key, strict)
    ensures ChainOk(q.subNodes, q.ad.sub) && |q.subNodes| == |q.ad.sub| > 0 && q.sub == q.subNodes[0]
    ensures Foot(q.subNodes) <= q.nodes - {q} && Bufs(q.subNodes) <= q.buffers && q in q.nodes
    ensures ListFits(q.ad.sub, key, strict)
  {
  }

  lemma FwdTame(ad: AttrDef, d: Datum)
    requires ad.Fwd?
    ensures TameLevel(ad, d) <==> TameChain(ad.sub, d) && SafeAfter(ad.sub, d)
    ensures TrapFree(ad, d) <==> (ChainItems(ad.sub, d) == [] ==> TrapFreeChain(ad.sub, d))
    ensures Settles(ad, d) <==> (ChainItems(ad.sub, d) == [] ==> SettlesChain(ad.sub, d))
    ensures Tidy(ad, d) && !BoundFreeLevel(ad) ==> TidyChain(ad.sub, d)
    ensures LevelItems(ad, d) == FwdItems(ChainItems(ad.sub, d))
  {
  }

  /** What a forwarding level still has to give. */
  ghost function FwdRest(s: Snapshot, ads: seq<AttrDef>): seq<Item> {
    if FullyScalar(ads) || !s.live || |s.views| != |ads| then [] else FwdItems(Left(s.views, ads))
  }

  lemma FwdData(ps: seq<Path>)
    ensures Data(FwdItems(ps)) == PathData(ps)
  {
    assert forall x :: 0 <= x < |ps| ==> FwdItems(ps)[x].datum == ps[x].datum;
  }

  /** A forwarding level in terms of the chain it refers to. */
  ghost predicate FwdLike(ad: AttrDef, s: Status, sub: Snapshot) {
    && ad.Fwd? && |sub.views| == |ad.sub|
    && (if FullyScalar(ad.sub) then
          && (s.live <==> s.view.rest == [])
          && s.safe == s.calm == s.live
        else
          && (s.live <==> sub.live && s.view.rest == FwdItems(Left(sub.views, ad.sub))
                          && s.view.cur == KeyList(Curs(sub.views)))
          && (s.safe <==> s.live && sub.safe)
          && (s.calm <==> s.safe && sub.calm))
    && (s.empty <==> s.live && s.view.rest == [])
    && s.steady && !s.armed
  }

  lemma FwdIs(q: Query)
    requires LevelOk(q) && q.ad.Fwd?
    ensures FwdLike(q.ad, Stat(q), Snap(q.subNodes, q.ad.sub))
  {
    hide ChainLive, ChainSafe, ChainCalm, Left;
    assert ChainOk(q.subNodes, q.ad.sub);
  }

  lemma SnapCoherent(ns: seq<Query>, ads: seq<AttrDef>)
    ensures var s := Snap(ns, ads);
            (s.calm ==> s.safe) && (s.safe ==> s.live && |s.views| == |ads| && RestSafe(s.views, ads, |ads|))
  {
    hide LevelSafe, LevelLive, LevelCalm, RestSafe;
    if ChainOk(ns, ads) {
      forall i | 0 <= i < |ns|
        ensures LevelSafe(ns[i]) ==> LevelLive(ns[i])
      {
        SafeLive(ns[i]);
      }
    }
  }

  lemma FwdReset(ad: AttrDef, d: Datum, s: Status, s': Status, a: Snapshot, b: Snapshot, r: Option<Datum>)
    requires FwdLike(ad, s, a) && FwdLike(ad, s', b) && ResetDone(ad.sub, d, a, b, r)
    requires s'.view == View(FwdRest(b, ad.sub), KeyList(Curs(b.views)), s.view.log + [d])
    requires Coherent(ad, s) && Coherent(ad, s')
    ensures ResetTo(ad, d, s, s', r)
  {
    hide FullyScalar, ChainItems, Left, TameChain, SafeAfter, TrapFreeChain, SettlesChain, TidyChain, TameLevel,
      TrapFree, Settles, Tidy, LevelItems, ResetLogs, RestSafe, Fewer, BoundFreeLevel;
    FwdTame(ad, d);
    var ps := ChainItems(ad.sub, d);
    if FullyScalar(ad.sub) {
      ScalarChainItems(ad.sub, d);
    } else if ps == [] {
      if s.live {
        FewerLeft(b.views, a.views, ad.sub);
        FwdData(Left(b.views, ad.sub));
        FwdData(Left(a.views, ad.sub));
        DataNone(s'.view.rest);
      }
    } else {
      assert FwdItems(ps)[1..] == FwdItems(ps[1..]);
    }
  }

  lemma DataNone(items: seq<Item>)
    ensures Data(items) <= Data([]) ==> items == []
  {
    if items != [] { assert items[0].datum in Data(items); }
  }

  lemma FwdResetEnds(q: Query, d: Datum, was: Status, a: Snapshot, r: Option<Datum>, key: Option<KeyTree>,
      key': Option<KeyTree>, strict: bool)
    requires LevelOk(q) && q.ad.Fwd? && FwdLike(q.ad, was, a) && Coherent(q.ad, was)
    requires ResetDone(q.ad.sub, d, a, Snap(q.subNodes, q.ad.sub), r)
    requires q.view == View(FwdRest(Snap(q.subNodes, q.ad.sub), q.ad.sub),
                            KeyList(Curs(Views(q.subNodes))), was.view.log + [d])
    requires KeysDone(q.ad.sub, r.Some?, Curs(Views(q.subNodes)), key, key', strict)
    ensures LevelResetDone(q, d, was, r, key, key', strict)
  {
    hide Stat, ResetTo, ResetDone, FwdLike, FwdRest, FitsChain, HoldsChain, Coherent;
    FwdIs(q);
    StatCoherent(q);
    SnapViews(q.subNodes, q.ad.sub);
    StatView(q);
    FwdReset(q.ad, d, was, Stat(q), a, Snap(q.subNodes, q.ad.sub), r);
  }

  lemma StatView(q: Query)
    requires LevelOk(q)
    ensures Stat(q).view == q.view
  {
  }

  lemma SnapViews(ns: seq<Query>, ads: seq<AttrDef>)
    ensures Snap(ns, ads).views == Views(ns)
  {
  }

  lemma FwdYieldTo(ad: AttrDef, s: Status, s': Status, a: Snapshot, b: Snapshot, r: Option<Datum>)
    requires FwdLike(ad, s, a) && FwdLike(ad, s', b) && GetDone(ad.sub, a, b, r) && s.live && !FullyScalar(ad.sub)
    requires s'.view == View(FwdRest(b, ad.sub), KeyList(Curs(b.views)), s.view.log)
    requires b.calm ==> b.safe
    ensures YieldTo(s, s', r)
  {
    hide FullyScalar, Left, GetLogs, AllHarmless, NoneLeft;
    var ps := Left(a.views, ad.sub);
    if ps != [] {
      assert FwdItems(ps)[1..] == FwdItems(ps[1..]);
    } else {
      LeftNone(b.views, ad.sub);
    }
  }

  lemma LeftNone(vs: seq<View>, ads: seq<AttrDef>)
    requires |vs| == |ads| && NoneLeft(vs)
    ensures Left(vs, ads) == []
  {
    DryAhead(vs, ads, |ads|);
  }

  lemma FwdYieldEnds(q: Query, was: Status, a: Snapshot, r: Option<Datum>, key: Option<KeyTree>, key': Option<KeyTree>,
      strict: bool, shown: bool)
    requires LevelOk(q) && q.ad.Fwd? && !FullyScalar(q.ad.sub) && FwdLike(q.ad, was, a) && was.live
    requires GetDone(q.ad.sub, a, Snap(q.subNodes, q.ad.sub), r) && shown == KeyHolds(q.ad, key, was.view.cur)
    requires q.view == View(FwdRest(Snap(q.subNodes, q.ad.sub), q.ad.sub),
                            KeyList(Curs(Views(q.subNodes))), was.view.log)
    requires KeysDone(q.ad.sub, shown && r.Some?, Curs(Views(q.subNodes)), key, key', strict)
    ensures LevelYieldDone(q, was, r, key, key', strict)
  {
    hide Stat, YieldTo, GetDone, FwdLike, FwdRest, FitsChain, HoldsChain, FullyScalar;
    FwdIs(q);
    StatView(q);
    SnapViews(q.subNodes, q.ad.sub);
    SnapCoherent(q.subNodes, q.ad.sub);
    FwdYieldTo(q.ad, was, Stat(q), a, Snap(q.subNodes, q.ad.sub), r);
  }

  lemma FwdShown(q: Query, was: Status, a: Snapshot, key: Option<KeyTree>)
    requires LevelOk(q) && q.ad.Fwd? && !FullyScalar(q.ad.sub) && FwdLike(q.ad, was, a) && was.live
    ensures a.live && (was.safe ==> a.safe)
    ensures KeyHolds(q.ad, key, was.view.cur) ==> ListHolds(q.ad.sub, key, Curs(a.views))
  {
  }

  lemma AllCoherent(ns: seq<Query>, ads: seq<AttrDef>)
    requires ChainOk(ns, ads)
    ensures |ns| == |ads| == |Stats(ns, ads)|
    ensures forall j :: 0 <= j < |ads| ==> Coherent(ads[j], Stats(ns, ads)[j])
    ensures Seen(Stats(ns, ads)) == Views(ns)
  {
    hide Stat, Coherent;
    forall j | 0 <= j < |ads|
      ensures Coherent(ads[j], Stats(ns, ads)[j]) && Stats(ns, ads)[j].view == ns[j].view
    {
      StatCoherent(ns[j]);
      StatView(ns[j]);
    }
  }

  /** A chain in terms of its levels. */
  ghost predicate Summed(ads: seq<AttrDef>, ss: seq<Status>, s: Snapshot) {
    && |ss| == |ads| > 0 && s.views == Seen(ss)
    && (s.live <==> forall j :: 0 <= j < |ss| ==> ss[j].live)
    && (s.steady <==> forall j :: 0 <= j < |ss| ==> ss[j].steady)
    && (s.safe <==> RestSafe(s.views, ads, |ads|) && forall j :: 0 <= j < |ss| ==> ss[j].safe)
    && (s.calm <==> s.safe && forall j :: 0 <= j < |ss| ==> ss[j].calm)
  }

  lemma SnapStats(ns: seq<Query>, ads: seq<AttrDef>)
    requires ChainOk(ns, ads)
    ensures Summed(ads, Stats(ns, ads), Snap(ns, ads))
  {
    hide LevelLive, LevelSteady, LevelSafe, LevelCalm, LevelEmpty, Armed, LevelOk, RestSafe;
    assert forall j :: 0 <= j < |ns| ==> Stats(ns, ads)[j] == Stat(ns[j]);
  }

  lemma OnTrackMiss(vs: seq<View>, ws: seq<View>, ads: seq<AttrDef>, i: nat, d: Datum, start: seq<View>,
      t: seq<seq<Path>>)
    requires i < |ads| == |ws| && OnTrack(vs, ads, i, Some(d), start, t)
    requires forall j :: 0 <= j < |ads| && j != i ==> ws[j] == vs[j]
    requires ws[i].log == vs[i].log + [d]
    requires LevelItems(ads[i], d) == []
    ensures OnTrack(ws, ads, i, None, start, t)
    ensures Resets(Table(vs, ads, i, Some(d)), |ads|) == Resets(Table(ws, ads, i, None), |ads|) + 1
  {
    var w, u := Table(vs, ads, i, Some(d)), Table(ws, ads, i, None);
    assert Hits(vs, w, ws, u, i, d) by { Miss(vs, ws, ads, i, d); }
    HitsSameRun(vs, w, ws, u, i, d);
    SameRunTrans(start, t, vs, w, ws, u);
  }

  lemma OnTrackDescend(vs: seq<View>, ws: seq<View>, ads: seq<AttrDef>, i: nat, d: Datum, o: Option<Datum>,
      start: seq<View>, t: seq<seq<Path>>)
    requires i < |ads| == |ws| && OnTrack(vs, ads, i, Some(d), start, t)
    requires forall j :: 0 <= j < |ads| && j != i ==> ws[j] == vs[j]
    requires ws[i].log == vs[i].log + [d]
    requires LevelItems(ads[i], d) != [] && o == Some(LevelItems(ads[i], d)[0].datum)
    requires ws[i].rest == LevelItems(ads[i], d)[1..] && ws[i].cur == LevelItems(ads[i], d)[0].key
    ensures OnTrack(ws, ads, i + 1, o, start, t)
    ensures Resets(Table(vs, ads, i, Some(d)), |ads|) == Resets(Table(ws, ads, i + 1, o), |ads|) + 1
  {
    var w, u := Table(vs, ads, i, Some(d)), Table(ws, ads, i + 1, o);
    assert Hits(vs, w, ws, u, i, d) by {
      assert ws == vs[i := View(LevelItems(ads[i], d)[1..], LevelItems(ads[i], d)[0].key, vs[i].log + [d])];
      Descend(vs, ws, ads, i, d);
    }
    hide Table, Resets, LevelItems;
    HitsSameRun(vs, w, ws, u, i, d);
    SameRunTrans(start, t, vs, w, ws, u);
  }

  lemma OnTrackSpent(vs: seq<View>, ws: seq<View>, ads: seq<AttrDef>, i: nat, start: seq<View>, t: seq<seq<Path>>)
    requires i < |ads| == |ws| && OnTrack(vs, ads, i + 1, None, start, t)
    requires forall j :: 0 <= j < |ads| && j != i ==> ws[j] == vs[j]
    requires ws[i].log == vs[i].log && vs[i].rest == []
    ensures OnTrack(ws, ads, i, None, start, t)
    ensures Resets(Table(vs, ads, i + 1, None), |ads|) == Resets(Table(ws, ads, i, None), |ads|)
  {
    Exhausted(vs, ws, ads, i);
  }

  lemma OnTrackYield(vs: seq<View>, ws: seq<View>, ads: seq<AttrDef>, i: nat, o: Option<Datum>, start: seq<View>,
      t: seq<seq<Path>>)
    requires i < |ads| == |ws| && OnTrack(vs, ads, i + 1, None, start, t)
    requires forall j :: 0 <= j < |ads| && j != i ==> ws[j] == vs[j]
    requires ws[i].log == vs[i].log && vs[i].rest != [] && o == Some(vs[i].rest[0].datum)
    requires ws[i].rest == vs[i].rest[1..] && ws[i].cur == vs[i].rest[0].key
    ensures OnTrack(ws, ads, i + 1, o, start, t)
    ensures Resets(Table(vs, ads, i + 1, None), |ads|) == Resets(Table(ws, ads, i + 1, o), |ads|)
  {
    assert Table(vs, ads, i + 1, None) == Table(ws, ads, i + 1, o) by {
      assert ws == vs[i := View(vs[i].rest[1..], vs[i].rest[0].key, vs[i].log)];
      Advance(vs, ws, ads, i);
    }
    hide Table, Resets;
  }

  lemma SpentHere(vs: seq<View>, ads: seq<AttrDef>, i: nat, start: seq<View>, t: seq<seq<Path>>)
    requires i < |ads| == |vs| && OnTrack(vs, ads, i, None, start, t) && vs[i].rest == []
    ensures OnTrack(vs, ads, i + 1, None, start, t)
    ensures Resets(Table(vs, ads, i + 1, None), |ads|) == Resets(Table(vs, ads, i, None), |ads|)
  {
    hide Table, Resets, SameRun;
    Exhausted(vs, vs, ads, i);
  }

  lemma Links(ns: seq<Query>, ads: seq<AttrDef>, i: nat)
    requires ChainOk(ns, ads) && (i == 0 || i < |ns|)
    ensures |ns| == |ads| > 0
    ensures if i + 1 < |ns| then ns[i].next == ns[i+1] else ns[i].next == null
    ensures if i > 0 then ns[i].prev == ns[i-1] else ns[i].prev == null
  {
  }

  /** A single level was operated on: the states of the others are as before. */
  predicate OneMoved(ss: seq<Status>, ss': seq<Status>, i: nat) {
    |ss'| == |ss| && forall j :: 0 <= j < |ss| && j != i ==> ss'[j] == ss[j]
  }

  /** The key list after the slot of level `i` was written. */
  lemma TrackSlot(vs: seq<View>, ws: seq<View>, ads: seq<AttrDef>, key: Option<KeyTree>, keys: seq<KeyTree>, i: nat,
      k: nat, held: bool, old': Option<KeyTree>, slot: Option<KeyTree>, strict: bool)
    requires i < |ads| == |ws| == |vs| && k <= i + 1 && (held ==> i <= k)
    requires Tracking(vs, ads, key, keys, k, strict)
    requires forall j :: 0 <= j < |ads| && j != i ==> ws[j] == vs[j]
    requires old'.Some? == key.Some? && (key.Some? ==> i < |keys| && old' == Some(keys[i]))
    requires SlotDone(ads[i], held, ws[i].cur, old', slot, strict)
    ensures var keys' := if slot.Some? then keys[i := slot.value] else keys;
            Tracking(ws, ads, key, keys', if held then i + 1 else if k <= i then k else i, strict)
  {
    hide Holds, Fits, Silent;
  }

  /** The position after a reset of level `i` on `d`. */
  lemma PositionReset(run: Run, ss: seq<Status>, ss': seq<Status>, i: nat, d: Datum, r: Option<Datum>, w: nat,
      keys: seq<KeyTree>, old': Option<KeyTree>, slot: Option<KeyTree>)
    requires i < |run.ads| && Position(run, ss, i, Some(d), w, keys, i) && OneMoved(ss, ss', i) && |ss| == |run.ads|
    requires ResetTo(run.ads[i], d, ss[i], ss'[i], r)
    requires old'.Some? == run.key.Some? && (run.key.Some? ==> i < |keys| && old' == Some(keys[i]))
    requires SlotDone(run.ads[i], r.Some?, ss'[i].view.cur, old', slot, run.strict)
    ensures w > 0
    ensures var keys' := if slot.Some? then keys[i := slot.value] else keys;
            && Position(run, ss', if r == None then i else i + 1, r, w - 1, keys', if r == None then i else i + 1)
            && (r == None && ss'[i].view.rest == [] ==> Position(run, ss', i + 1, None, w - 1, keys', i))
  {
    hide TameLevel, TrapFree, Settles, Tidy, OnTrack, Resets, Table, LevelItems, Tracking, SlotDone;
    var vs, ws := Seen(ss), Seen(ss');
    if r.None? {
      OnTrackMiss(vs, ws, run.ads, i, d, run.start, run.t);
      if ws[i].rest == [] { SpentHere(ws, run.ads, i, run.start, run.t); }
    } else {
      OnTrackDescend(vs, ws, run.ads, i, d, r, run.start, run.t);
    }
    SlotNotShown(run.ads[i], r.Some?, ss'[i].view.cur, old', slot, run.strict);
    TrackSlot(vs, ws, run.ads, run.key, keys, i, if run.shown then i else 0, run.shown && r.Some?, old', slot,
      run.strict);
  }

  lemma SlotNotShown(ad: AttrDef, shown: bool, cur: KeyTree, key: Option<KeyTree>, key': Option<KeyTree>, strict: bool)
    requires SlotDone(ad, shown, cur, key, key', strict)
    ensures SlotDone(ad, false, cur, key, key', strict)
  {
  }

  /** The position after a yield of level `i`. */
  lemma PositionYield(run: Run, ss: seq<Status>, ss': seq<Status>, i: nat, r: Option<Datum>, w: nat, k: nat,
      keys: seq<KeyTree>, old': Option<KeyTree>, slot: Option<KeyTree>)
    requires i < |run.ads| && Position(run, ss, i + 1, None, w, keys, k) && OneMoved(ss, ss', i) && |ss| == |run.ads|
    requires i <= k <= i + 1 && (r.Some? ==> k == i + 1)
    requires YieldTo(ss[i], ss'[i], r)
    requires old'.Some? == run.key.Some? && (run.key.Some? ==> i < |keys| && old' == Some(keys[i]))
    requires SlotDone(run.ads[i], r.Some? && KeyHolds(run.ads[i], old', ss[i].view.cur), ss'[i].view.cur, old', slot,
                      run.strict)
    ensures var keys' := if slot.Some? then keys[i := slot.value] else keys;
            Position(run, ss', if r == None then i else i + 1, r, w, keys', if r == None then i else i + 1)
  {
    hide OnTrack, Resets, Table, Tracking, SlotDone, KeyHolds;
    var vs, ws := Seen(ss), Seen(ss');
    if r.None? {
      OnTrackSpent(vs, ws, run.ads, i, run.start, run.t);
    } else {
      OnTrackYield(vs, ws, run.ads, i, r, run.start, run.t);
    }
    var held := run.shown && r.Some?;
    if held { TrackHolds(vs, run.ads, run.key, keys, i, run.strict, old'); }
    SlotShown(run.ads[i], r.Some? && KeyHolds(run.ads[i], old', ss[i].view.cur), held, ss'[i].view.cur, old', slot,
      run.strict);
    TrackSlot(vs, ws, run.ads, run.key, keys, i, if run.shown then k else 0, held, old', slot, run.strict);
  }

  lemma SlotShown(ad: AttrDef, shown: bool, held: bool, cur: KeyTree, key: Option<KeyTree>, key': Option<KeyTree>,
      strict: bool)
    requires SlotDone(ad, shown, cur, key, key', strict) && (held ==> shown)
    ensures SlotDone(ad, held, cur, key, key', strict)
  {
  }

  lemma TrackHolds(vs: seq<View>, ads: seq<AttrDef>, key: Option<KeyTree>, keys: seq<KeyTree>, i: nat, strict: bool,
      slot: Option<KeyTree>)
    requires i < |ads| == |vs| && Tracking(vs, ads, key, keys, i + 1, strict)
    requires slot.Some? == key.Some? && (key.Some? ==> i < |keys| && slot == Some(keys[i]))
    ensures KeyHolds(ads[i], slot, vs[i].cur)
  {
  }

  lemma KeptReset(run: Run, ss: seq<Status>, ss': seq<Status>, i: nat, d: Datum, r: Option<Datum>)
    requires i < |run.ads| && Kept(run, ss, i) && OneMoved(ss, ss', i) && ResetTo(run.ads[i], d, ss[i], ss'[i], r)
    requires r.Some? || run.root.Some?
    ensures Kept(run, ss', if r == None then i else i + 1)
  {
    hide LevelItems, TameLevel, TrapFree, Settles, Tidy, Data, Harmless, Ends;
  }

  lemma KeptYield(run: Run, ss: seq<Status>, ss': seq<Status>, i: nat, r: Option<Datum>)
    requires i < |run.ads| && Kept(run, ss, i + 1) && OneMoved(ss, ss', i) && YieldTo(ss[i], ss'[i], r)
    requires Coherent(run.ads[i], ss'[i])
    ensures Kept(run, ss', if r == None then i else i + 1)
  {
    hide Harmless, Ends;
  }

  lemma GetItems(ads: seq<AttrDef>, i: nat, d: Datum)
    requires i < |ads| && GetTame(ads[i..], d)
    ensures TameLevel(ads[i], d) && TrapFree(ads[i], d)
    ensures forall x :: 0 <= x < |LevelItems(ads[i], d)| ==> GetTame(ads[i+1..], LevelItems(ads[i], d)[x].datum)
  {
    assert ads[i..][0] == ads[i] && ads[i..][1..] == ads[i+1..];
  }

  lemma GetReset(vs: seq<View>, ws: seq<View>, ads: seq<AttrDef>, i: nat, d: Datum, r: Option<Datum>)
    requires i < |ads| == |ws| == |vs| && GetAhead(vs, ads, i, Some(d))
    requires forall j :: 0 <= j < |ads| && j != i ==> ws[j] == vs[j]
    requires LevelItems(ads[i], d) == [] ==> r == None
    requires LevelItems(ads[i], d) != [] ==>
               r == Some(LevelItems(ads[i], d)[0].datum) && ws[i].rest == LevelItems(ads[i], d)[1..]
    ensures TameLevel(ads[i], d) && TrapFree(ads[i], d)
    ensures GetAhead(ws, ads, if r == None then i else i + 1, r)
  {
    GetItems(ads, i, d);
    var items := LevelItems(ads[i], d);
    hide GetTame, LevelItems;
    assert r.Some? ==> forall x :: 0 <= x < |ws[i].rest| ==> ws[i].rest[x] == items[x + 1];
  }

  lemma GetYield(vs: seq<View>, ws: seq<View>, ads: seq<AttrDef>, i: nat, r: Option<Datum>)
    requires i < |ads| == |ws| == |vs| && GetAhead(vs, ads, i + 1, None)
    requires forall j :: 0 <= j < |ads| && j != i ==> ws[j] == vs[j]
    requires vs[i].rest == [] ==> r == None
    requires vs[i].rest != [] ==> r == Some(vs[i].rest[0].datum) && ws[i].rest == vs[i].rest[1..]
    ensures GetAhead(ws, ads, if r == None then i else i + 1, r)
  {
    hide GetTame;
  }

  lemma TamedReset(run: Run, ss: seq<Status>, ss': seq<Status>, i: nat, d: Datum, r: Option<Datum>)
    requires i < |run.ads| == |ss| && Tamed(run, ss, i, Some(d)) && OneMoved(ss, ss', i)
    requires ResetTo(run.ads[i], d, ss[i], ss'[i], r) && (r.Some? || run.root.Some?)
    requires run.tame ==> TameLevel(run.ads[i], d)
    ensures Tamed(run, ss', if r == None then i else i + 1, r)
  {
    hide LevelItems, TameLevel, TrapFree, Settles, Tidy, GetAhead;
    if run.tame && run.root.None? { GetReset(Seen(ss), Seen(ss'), run.ads, i, d, r); }
  }

  lemma TamedYield(run: Run, ss: seq<Status>, ss': seq<Status>, i: nat, r: Option<Datum>)
    requires i < |run.ads| == |ss| && Tamed(run, ss, i + 1, None) && OneMoved(ss, ss', i)
    requires YieldTo(ss[i], ss'[i], r) && Coherent(run.ads[i], ss'[i])
    ensures Tamed(run, ss', if r == None then i else i + 1, r)
  {
    hide GetAhead;
    if run.tame && run.root.None? { GetYield(Seen(ss), Seen(ss'), run.ads, i, r); }
  }

  /** Level `i` was reset on `d`: what is left above settles as before, and its own
      items settle below it. */
  lemma SettlingReset(root: Datum, vs: seq<View>, ws: seq<View>, ads: seq<AttrDef>, i: nat, d: Datum, r: Option<Datum>)
    requires i < |ads| == |ws| == |vs| && Settling(root, vs, ads, i, Some(d))
    requires forall j :: 0 <= j < |ads| && j != i ==> ws[j] == vs[j]
    requires LevelItems(ads[i], d) == [] ==> r == None
    requires LevelItems(ads[i], d) != [] ==>
               r == Some(LevelItems(ads[i], d)[0].datum) && ws[i].rest == LevelItems(ads[i], d)[1..]
    ensures Settling(root, ws, ads, if r == None then i else i + 1, r)
    ensures TrapFree(ads[i], d) && (i > 0 || SettlesChain(ads, root) ==> Settles(ads[i], d))
  {
    var items := LevelItems(ads[i], d);
    var below := ads[i+1..];
    assert ads[i..][0] == ads[i] && ads[i..][1..] == below;
    assert i == 0 ==> ads[0..] == ads;
    assert SettlesNext(ads[i..], d);
    if i > 0 { SettlesTrapFree(ads[i], d); }
    hide SettlesChain, LevelItems;
    assert forall x :: 0 <= x < |items| ==> SettlesChain(below, items[x].datum);
    assert r.Some? ==> forall x :: 0 <= x < |ws[i].rest| ==> ws[i].rest[x] == items[x + 1];
  }

  lemma SettlingYield(root: Datum, vs: seq<View>, ws: seq<View>, ads: seq<AttrDef>, i: nat, r: Option<Datum>)
    requires i < |ads| == |ws| == |vs| && Settling(root, vs, ads, i + 1, None)
    requires forall j :: 0 <= j < |ads| && j != i ==> ws[j] == vs[j]
    requires vs[i].rest == [] ==> r == None
    requires vs[i].rest != [] ==> r == Some(vs[i].rest[0].datum) && ws[i].rest == vs[i].rest[1..]
    ensures Settling(root, ws, ads, if r == None then i else i + 1, r)
  {
    hide SettlesChain, TrapFreeChain;
  }

  lemma CalmedReset(run: Run, ss: seq<Status>, ss': seq<Status>, i: nat, d: Datum, r: Option<Datum>)
    requires i < |run.ads| == |ss| && Calmed(run, ss, i, Some(d)) && OneMoved(ss, ss', i)
    requires ResetTo(run.ads[i], d, ss[i], ss'[i], r) && (run.tame ==> TameLevel(run.ads[i], d))
    requires Coherent(run.ads[i], ss'[i])
    ensures Calmed(run, ss', if r == None then i else i + 1, r)
  {
    hide LevelItems, TameLevel, TrapFree, Settles, Tidy, Settling, SettlesChain;
    if run.calm { SettlingReset(run.root.value, Seen(ss), Seen(ss'), run.ads, i, d, r); }
  }

  lemma CalmedYield(run: Run, ss: seq<Status>, ss': seq<Status>, i: nat, r: Option<Datum>)
    requires i < |run.ads| == |ss| && Calmed(run, ss, i + 1, None) && OneMoved(ss, ss', i)
    requires Tamed(run, ss, i + 1, None) && YieldTo(ss[i], ss'[i], r) && Coherent(run.ads[i], ss'[i])
    ensures Calmed(run, ss', if r == None then i else i + 1, r)
  {
    hide GetAhead, Settling, SettlesChain;
    if run.calm { SettlingYield(run.root.value, Seen(ss), Seen(ss'), run.ads, i, r); }
  }

  lemma TidyItems(ads: seq<AttrDef>, i: nat, d: Datum)
    requires i < |ads| && TidyChain(ads[i..], d)
    ensures Tidy(ads[i], d) && (BoundFreeLevel(ads[i]) || |LevelItems(ads[i], d)| <= 1)
    ensures forall x :: 0 <= x < |LevelItems(ads[i], d)| ==> TidyChain(ads[i+1..], LevelItems(ads[i], d)[x].datum)
  {
    assert ads[i..][0] == ads[i] && ads[i..][1..] == ads[i+1..];
  }

  /** Level `i` was reset on `d` in a tidy search. */
  lemma TidyReset(vs: seq<View>, ws: seq<View>, ads: seq<AttrDef>, i: nat, d: Datum, r: Option<Datum>)
    requires i < |ads| == |ws| == |vs| && TidyAhead(vs, ads, i, Some(d))
    requires forall j :: 0 <= j < |ads| && j != i ==> ws[j] == vs[j]
    requires LevelItems(ads[i], d) == [] ==> r == None
    requires LevelItems(ads[i], d) != [] ==>
               r == Some(LevelItems(ads[i], d)[0].datum) && ws[i].rest == LevelItems(ads[i], d)[1..]
    ensures TidyAhead(ws, ads, if r == None then i else i + 1, r) && Tidy(ads[i], d)
  {
    var items, below := LevelItems(ads[i], d), ads[i+1..];
    TidyItems(ads, i, d);
    hide TidyChain, Tidy, BoundFreeLevel, LevelItems;
    assert r.Some? ==> forall x :: 0 <= x < |ws[i].rest| ==> ws[i].rest[x] == items[x + 1];
  }

  lemma TidyYield(vs: seq<View>, ws: seq<View>, ads: seq<AttrDef>, i: nat, r: Option<Datum>)
    requires i < |ads| == |ws| == |vs| && TidyAhead(vs, ads, i + 1, None)
    requires forall j :: 0 <= j < |ads| && j != i ==> ws[j] == vs[j]
    requires vs[i].rest == [] ==> r == None
    requires vs[i].rest != [] ==> r == Some(vs[i].rest[0].datum) && ws[i].rest == vs[i].rest[1..]
    ensures TidyAhead(ws, ads, if r == None then i else i + 1, r) && (r.Some? ==> BoundFreeLevel(ads[i]))
  {
    hide TidyChain, BoundFreeLevel;
  }

  lemma TidiedReset(run: Run, ss: seq<Status>, ss': seq<Status>, i: nat, d: Datum, r: Option<Datum>)
    requires i < |run.ads| == |ss| && Tidied(run, ss, i, Some(d)) && OneMoved(ss, ss', i)
    requires ResetTo(run.ads[i], d, ss[i], ss'[i], r) && (run.tame ==> TameLevel(run.ads[i], d))
    ensures Tidied(run, ss', if r == None then i else i + 1, r)
  {
    hide LevelItems, TameLevel, TrapFree, Settles, Tidy, TidyAhead;
    if run.tidy { TidyReset(Seen(ss), Seen(ss'), run.ads, i, d, r); }
  }

  lemma TidiedYield(run: Run, ss: seq<Status>, ss': seq<Status>, i: nat, r: Option<Datum>)
    requires i < |run.ads| == |ss| && Tidied(run, ss, i + 1, None) && OneMoved(ss, ss', i)
    requires YieldTo(ss[i], ss'[i], r) && Coherent(run.ads[i], ss'[i])
    ensures Tidied(run, ss', if r == None then i else i + 1, r)
  {
    hide BoundFreeLevel, TidyAhead;
    if run.tidy { TidyYield(Seen(ss), Seen(ss'), run.ads, i, r); }
  }

  lemma RestSafeSame(vs: seq<View>, ws: seq<View>, ads: seq<AttrDef>, i: nat)
    requires i <= |ads| == |vs| == |ws| && forall j :: 0 <= j < i ==> ws[j] == vs[j]
    ensures RestSafe(vs, ads, i) <==> RestSafe(ws, ads, i)
  {
    hide GetTame;
  }

  lemma {:induction false} SafeClimbSame(vs: seq<View>, ws: seq<View>, ads: seq<AttrDef>, i: nat)
    requires i <= |ads| == |vs| == |ws| && forall j :: 0 <= j < i ==> ws[j] == vs[j]
    ensures SafeClimb(vs, ads, i) <==> SafeClimb(ws, ads, i)
    decreases i
  {
    hide Extend, SafeItems, RestSafe;
    if i > 0 {
      SafeClimbSame(vs, ws, ads, i - 1);
      RestSafeSame(vs, ws, ads, i - 1);
    }
  }

  /** One more level above. */
  lemma RestSafeMore(vs: seq<View>, ads: seq<AttrDef>, i: nat)
    requires i < |ads| == |vs|
    ensures RestSafe(vs, ads, i + 1) <==>
              RestSafe(vs, ads, i) && forall x :: 0 <= x < |vs[i].rest| ==> GetTame(ads[i+1..], vs[i].rest[x].datum)
  {
    hide GetTame;
  }

  /** The items of level `i`, of which the first was just taken. */
  lemma AheadItems(vs: seq<View>, ws: seq<View>, ads: seq<AttrDef>, i: nat, items: seq<Item>)
    requires i < |ads| == |vs| == |ws| && forall j :: 0 <= j < i ==> ws[j] == vs[j]
    requires items != [] && ws[i].rest == items[1..]
    ensures SafeAhead(ws, ads, i + 1, Some(items[0].datum)) <==>
              if Extend(items, ads[i+1..]) != [] then SafeItems(items, ads[i+1..]) && RestSafe(vs, ads, i)
              else SafeClimb(vs, ads, i)
  {
    var below := ads[i+1..];
    RestSafeSame(vs, ws, ads, i);
    SafeClimbSame(vs, ws, ads, i);
    RestSafeMore(ws, ads, i);
    hide SafeAfter, GetTame, RestSafe, ChainItems;
    assert forall x :: 0 <= x < |ws[i].rest| ==> ws[i].rest[x] == items[x + 1];
    assert forall x :: 1 <= x < |items| ==> items[x] == ws[i].rest[x - 1];
    assert PrefixAll(items[0].key, ChainItems(below, items[0].datum)) == []
        <==> ChainItems(below, items[0].datum) == [];
  }

  /** Position and data of a reset: what is asked of the gets after it stays the
      same thing. */
  lemma AheadReset(vs: seq<View>, ws: seq<View>, ads: seq<AttrDef>, i: nat, d: Datum, r: Option<Datum>)
    requires i < |ads| == |ws| == |vs|
    requires forall j :: 0 <= j < |ads| && j != i ==> ws[j] == vs[j]
    requires LevelItems(ads[i], d) == [] ==> r == None
    requires LevelItems(ads[i], d) != [] ==>
               r == Some(LevelItems(ads[i], d)[0].datum) && ws[i].rest == LevelItems(ads[i], d)[1..]
    ensures SafeAhead(vs, ads, i, Some(d)) <==> SafeAhead(ws, ads, if r == None then i else i + 1, r)
  {
    var items := LevelItems(ads[i], d);
    assert ads[i..][0] == ads[i] && ads[i..][1..] == ads[i+1..];
    assert ChainItems(ads[i..], d) == Extend(items, ads[i+1..]);
    assert SafeAfter(ads[i..], d) == SafeItems(items, ads[i+1..]);
    hide ChainItems, Extend, LevelItems, SafeItems, RestSafe;
    if r.None? {
      SafeClimbSame(vs, ws, ads, i);
      ExtendNone(ads[i+1..]);
    } else {
      AheadItems(vs, ws, ads, i, items);
    }
  }

  lemma ExtendNone(ads: seq<AttrDef>)
    ensures Extend([], ads) == [] && SafeItems([], ads) && TameItems([], ads)
  {
  }

  lemma AheadYield(vs: seq<View>, ws: seq<View>, ads: seq<AttrDef>, i: nat, r: Option<Datum>)
    requires i < |ads| == |ws| == |vs|
    requires forall j :: 0 <= j < |ads| && j != i ==> ws[j] == vs[j]
    requires vs[i].rest == [] ==> r == None
    requires vs[i].rest != [] ==> r == Some(vs[i].rest[0].datum) && ws[i].rest == vs[i].rest[1..]
    ensures SafeAhead(vs, ads, i + 1, None) <==> SafeAhead(ws, ads, if r == None then i else i + 1, r)
  {
    hide ChainItems, Extend, SafeItems, RestSafe;
    if r.None? {
      SafeClimbSame(vs, ws, ads, i);
      ExtendNone(ads[i+1..]);
    } else {
      AheadItems(vs, ws, ads, i, vs[i].rest);
    }
  }

  lemma {:induction false} TameClimbSame(vs: seq<View>, ws: seq<View>, ads: seq<AttrDef>, i: nat)
    requires i <= |ads| == |vs| == |ws| && forall j :: 0 <= j < i ==> ws[j] == vs[j]
    ensures TameClimb(vs, ads, i) <==> TameClimb(ws, ads, i)
    decreases i
  {
    hide Extend, TameItems;
    if i > 0 { TameClimbSame(vs, ws, ads, i - 1); }
  }

  /** The items of level `i`, of which the first was just taken. */
  lemma TameAheadItems(vs: seq<View>, ws: seq<View>, ads: seq<AttrDef>, i: nat, items: seq<Item>)
    requires i < |ads| == |vs| == |ws| && forall j :: 0 <= j < i ==> ws[j] == vs[j]
    requires items != [] && ws[i].rest == items[1..]
    ensures TameAhead(ws, ads, i + 1, Some(items[0].datum)) <==>
              TameItems(items, ads[i+1..]) && (Extend(items, ads[i+1..]) == [] ==> TameClimb(vs, ads, i))
  {
    var below := ads[i+1..];
    TameClimbSame(vs, ws, ads, i);
    hide TameChain, ChainItems;
    assert PrefixAll(items[0].key, ChainItems(below, items[0].datum)) == []
      <==> ChainItems(below, items[0].datum) == [];
  }

  /** What is asked of a reset before a step of it is what is asked of the level that
      is reset, and of the reset after that step. */
  lemma TameReset(vs: seq<View>, ws: seq<View>, ads: seq<AttrDef>, i: nat, d: Datum, r: Option<Datum>)
    requires i < |ads| == |ws| == |vs|
    requires forall j :: 0 <= j < |ads| && j != i ==> ws[j] == vs[j]
    requires LevelItems(ads[i], d) == [] ==> r == None
    requires LevelItems(ads[i], d) != [] ==>
               r == Some(LevelItems(ads[i], d)[0].datum) && ws[i].rest == LevelItems(ads[i], d)[1..]
    ensures TameAhead(vs, ads, i, Some(d)) <==>
              TameLevel(ads[i], d) && TameAhead(ws, ads, if r == None then i else i + 1, r)
  {
    var items := LevelItems(ads[i], d);
    assert ads[i..][0] == ads[i] && ads[i..][1..] == ads[i+1..];
    assert ChainItems(ads[i..], d) == Extend(items, ads[i+1..]);
    assert TameChain(ads[i..], d) == (TameLevel(ads[i], d) && TameItems(items, ads[i+1..]));
    hide ChainItems, Extend, LevelItems, TameItems, TameChain, TameLevel;
    if r.None? {
      TameClimbSame(vs, ws, ads, i);
      ExtendNone(ads[i+1..]);
    } else {
      TameAheadItems(vs, ws, ads, i, items);
    }
  }

  lemma TameYield(vs: seq<View>, ws: seq<View>, ads: seq<AttrDef>, i: nat, r: Option<Datum>)
    requires i < |ads| == |ws| == |vs|
    requires forall j :: 0 <= j < |ads| && j != i ==> ws[j] == vs[j]
    requires vs[i].rest == [] ==> r == None
    requires vs[i].rest != [] ==> r == Some(vs[i].rest[0].datum) && ws[i].rest == vs[i].rest[1..]
    ensures TameAhead(vs, ads, i + 1, None) <==> TameAhead(ws, ads, if r == None then i else i + 1, r)
  {
    hide ChainItems, Extend, TameItems, TameChain;
    if r.None? {
      TameClimbSame(vs, ws, ads, i);
      ExtendNone(ads[i+1..]);
    } else {
      TameAheadItems(vs, ws, ads, i, vs[i].rest);
    }
  }

  lemma NewTameReset(start: seq<View>, vs: seq<View>, ws: seq<View>, ads: seq<AttrDef>, i: nat, d: Datum)
    requires i < |ads| == |ws| == |vs| && AllEnd(start, vs, ads)
    requires forall j :: 0 <= j < |ads| && j != i ==> ws[j] == vs[j]
    requires ws[i].log == vs[i].log + [d]
    ensures NewTame(start, ws, ads) <==> NewTame(start, vs, ads) && TameLevel(ads[i], d)
  {
    hide TameLevel, Ends;
    assert NewEnd(ads[i], start[i].log, vs[i].log);
    if NewTame(start, ws, ads) {
      assert ws[i].log[|vs[i].log|] == d;
      forall k, x | 0 <= k < |ads| && |start[k].log| <= x < |vs[k].log|
        ensures TameLevel(ads[k], vs[k].log[x])
      {
        assert ws[k].log[x] == vs[k].log[x];
      }
    }
  }

  lemma NewTameYield(start: seq<View>, vs: seq<View>, ws: seq<View>, ads: seq<AttrDef>)
    requires |start| == |ads| == |ws| == |vs| && forall j :: 0 <= j < |ads| ==> ws[j].log == vs[j].log
    ensures NewTame(start, ws, ads) <==> NewTame(start, vs, ads)
  {
    hide TameLevel;
  }

  lemma {:induction false} NoResultSafe(items: seq<Item>, ads: seq<AttrDef>)
    requires Extend(items, ads) == []
    ensures SafeItems(items, ads)
    decreases |items|
  {
    if items != [] {
      assert PrefixAll(items[0].key, ChainItems(ads, items[0].datum)) == [];
      NoResultSafe(items[1..], ads);
    }
  }

  /** What is known of the levels after a reset of level `i` on `d`. */
  lemma CarefulReset(run: Run, ss: seq<Status>, ss': seq<Status>, i: nat, d: Datum, r: Option<Datum>)
    requires i < |run.ads| == |ss| && Careful(run, ss, i, Some(d)) && OneMoved(ss, ss', i)
    requires ResetTo(run.ads[i], d, ss[i], ss'[i], r) && Coherent(run.ads[i], ss'[i])
    requires r.Some? || run.root.Some?
    ensures Careful(run, ss', if r == None then i else i + 1, r)
  {
    ResetItems(run.ads[i], d, ss[i], ss'[i], r);
    KeptEnd(run, ss, i);
    TameHere(run, ss, i, d);
    hide ResetTo, Kept, Tamed, Calmed, Tidied, SafeAfter, SafeAhead, LevelItems, Coherent, NewTame, TameAhead,
      TameLevel, AllEnd;
    KeptReset(run, ss, ss', i, d, r);
    if run.root.Some? {
      NewTameReset(run.start, Seen(ss), Seen(ss'), run.ads, i, d);
      TameReset(Seen(ss), Seen(ss'), run.ads, i, d, r);
    }
    TamedReset(run, ss, ss', i, d, r);
    CalmedReset(run, ss, ss', i, d, r);
    TidiedReset(run, ss, ss', i, d, r);
    AheadReset(Seen(ss), Seen(ss'), run.ads, i, d, r);
  }

  lemma KeptEnd(run: Run, ss: seq<Status>, i: nat)
    requires Kept(run, ss, i)
    ensures AllEnd(run.start, Seen(ss), run.ads) && |run.start| == |run.ads|
  {
  }

  /** In a search that is bound to end well, so is the next reset. */
  lemma TameHere(run: Run, ss: seq<Status>, i: nat, d: Datum)
    requires i < |run.ads| == |ss| && Careful(run, ss, i, Some(d))
    ensures run.tame ==> TameLevel(run.ads[i], d)
  {
    hide TameLevel, Kept, Calmed, Tidied, SafeAfter, SafeAhead, NewTame, TameClimb, TrapFree;
    if run.tame {
      if run.root.None? {
        GetItems(run.ads, i, d);
      } else {
        assert run.ads[i..][0] == run.ads[i];
      }
    }
  }

  lemma ResetItems(ad: AttrDef, d: Datum, s: Status, s': Status, r: Option<Datum>)
    requires ResetTo(ad, d, s, s', r)
    ensures LevelItems(ad, d) == [] ==> r == None && (!ad.Fwd? ==> s'.view.rest == [])
    ensures LevelItems(ad, d) != [] ==>
              r == Some(LevelItems(ad, d)[0].datum) && s'.view.rest == LevelItems(ad, d)[1..]
    ensures s'.view.log == s.view.log + [d]
  {
  }

  lemma CarefulYield(run: Run, ss: seq<Status>, ss': seq<Status>, i: nat, r: Option<Datum>)
    requires i < |run.ads| == |ss| && Careful(run, ss, i + 1, None) && OneMoved(ss, ss', i)
    requires YieldTo(ss[i], ss'[i], r) && Coherent(run.ads[i], ss'[i])
    ensures Careful(run, ss', if r == None then i else i + 1, r)
  {
    YieldItems(ss[i], ss'[i], r);
    KeptEnd(run, ss, i + 1);
    hide YieldTo, Kept, Tamed, Calmed, Tidied, SafeAfter, SafeAhead, Coherent, NewTame, TameAhead;
    KeptYield(run, ss, ss', i, r);
    if run.root.Some? {
      NewTameYield(run.start, Seen(ss), Seen(ss'), run.ads);
      TameYield(Seen(ss), Seen(ss'), run.ads, i, r);
    }
    TamedYield(run, ss, ss', i, r);
    CalmedYield(run, ss, ss', i, r);
    TidiedYield(run, ss, ss', i, r);
    AheadYield(Seen(ss), Seen(ss'), run.ads, i, r);
  }

  lemma YieldItems(s: Status, s': Status, r: Option<Datum>)
    requires YieldTo(s, s', r)
    ensures s.view.rest == [] ==> r == None && s'.view.rest == []
    ensures s.view.rest != [] ==> r == Some(s.view.rest[0].datum) && s'.view.rest == s.view.rest[1..]
    ensures s'.view.log == s.view.log
  {
  }

  /** A reset of level `i` failed in the course of a get. */
  lemma StoppedReset(run: Run, ss: seq<Status>, ss': seq<Status>, i: nat, d: Datum)
    requires i < |run.ads| == |ss| && Careful(run, ss, i, Some(d)) && OneMoved(ss, ss', i) && run.root.None?
    requires ResetTo(run.ads[i], d, ss[i], ss'[i], None)
    ensures StoppedAt(run, ss', i) && ss'[i].view.rest == []
  {
    hide LevelItems, Settles, Tidy, GetAhead, Harmless, Ends, Data, TameLevel, TrapFree, SettlesChain, TidyAhead,
      Settling;
    DataNone(ss'[i].view.rest);
    assert LevelItems(run.ads[i], d) == [];
    if run.tame { GetReset(Seen(ss), Seen(ss'), run.ads, i, d, None); }
  }

  /** The level on which a get stopped was yielded, in vain. */
  lemma StoppedYield(run: Run, ss: seq<Status>, ss': seq<Status>, k: nat, r: Option<Datum>)
    requires k < |run.ads| == |ss| && StoppedAt(run, ss, k) && OneMoved(ss, ss', k)
    requires YieldTo(ss[k], ss'[k], r) && !ss[k].armed && Coherent(run.ads[k], ss[k])
    ensures r == None && Careful(run, ss', k, None)
  {
    hide Harmless, Ends;
    assert forall j :: 0 <= j < k ==> Seen(ss')[j] == Seen(ss)[j];
  }

  /** The parts of a search that a reset or yield of level `k` needs. */
  lemma SlotBegins(run: Run, i: nat, o: Option<Datum>, w: nat, keys: seq<KeyTree>, k: nat)
    requires InSearch(run, i, o, w, keys) && k < |run.ads|
    ensures ChainOk(run.ns, run.ads) && |run.ns| == |run.ads| == |Stats(run.ns, run.ads)|
    ensures var ss := Stats(run.ns, run.ads);
            && Position(run, ss, i, o, w, keys, i) && Careful(run, ss, i, o)
            && (run.tame && o.Some? && k == i ==> TameLevel(run.ads[k], o.value))
            && (k < i ==> ss[k].live && (run.tame ==> ss[k].safe))
    ensures SlotFits(run, keys, k)
  {
    hide Stat, OnTrack, Resets, Table, Calmed, Tidied, SafeAfter, SafeAhead, TameLevel, Holds, Fits;
    if o.Some? && k == i { TameHere(run, Stats(run.ns, run.ads), i, o.value); }
  }

  lemma StoppedBegins(run: Run, k: nat, w: nat, keys: seq<KeyTree>)
    requires Stopped(run, k, w, keys) && k < |run.ads|
    ensures ChainOk(run.ns, run.ads) && |run.ns| == |run.ads| == |Stats(run.ns, run.ads)|
    ensures var ss := Stats(run.ns, run.ads);
            && Position(run, ss, k + 1, None, w, keys, k) && StoppedAt(run, ss, k)
            && ss[k].live && (run.tame ==> ss[k].safe)
    ensures SlotFits(run, keys, k)
  {
    hide Stat, OnTrack, Resets, Table, GetAhead, Holds, Fits;
  }

  /** The slot of level `k` may be handed to it. */
  ghost predicate SlotFits(run: Run, keys: seq<KeyTree>, k: nat)
    requires k < |run.ads|
  {
    && (run.key.Some? ==> k < |run.ads| <= |keys| && KeyFits(run.ads[k], Some(keys[k]), run.strict))
    && KeyFits(run.ads[k], None, run.strict)
  }

  lemma SlotFitsParts(run: Run, keys: seq<KeyTree>, k: nat)
    requires k < |run.ads| && SlotFits(run, keys, k)
    ensures run.key.Some? ==> |run.ads| <= |keys| && KeyFits(run.ads[k], Some(keys[k]), run.strict)
    ensures KeyFits(run.ads[k], None, run.strict)
  {
  }

  lemma SlotSome(ad: AttrDef, shown: bool, cur: KeyTree, key: Option<KeyTree>, key': Option<KeyTree>, strict: bool)
    requires SlotDone(ad, shown, cur, key, key', strict)
    ensures key'.Some? == key.Some?
  {
  }

  lemma StatLive(q: Query)
    requires LevelOk(q)
    ensures Stat(q).live == LevelLive(q) && Stat(q).safe == LevelSafe(q) && Stat(q).armed == Armed(q)
  {
  }

  lemma ResetValue(ads: seq<AttrDef>, d: Datum, a: Snapshot, b: Snapshot, r: Option<Datum>)
    requires ResetDone(ads, d, a, b, r)
    ensures r == First(ads, d)
  {
  }

  /** A yield of a scalar level does nothing. */
  lemma ScalarYield(q: Query, key: Option<KeyTree>, strict: bool)
    requires LevelOk(q) && LevelLive(q) && ScalarLevel(q.ad) && KeyFits(q.ad, key, strict)
    ensures LevelYieldDone(q, Stat(q), None, key, key, strict) && !Armed(q)
  {
    hide ChainLive, ChainSafe, ChainCalm;
  }

  /** The search after a reset of level `i` on `d`. */
  lemma SlotReset(run: Run, ss: seq<Status>, i: nat, d: Datum, r: Option<Datum>, w: nat, keys: seq<KeyTree>,
      old': Option<KeyTree>, slot: Option<KeyTree>, keys': seq<KeyTree>)
    requires i < |run.ads| == |ss| && Position(run, ss, i, Some(d), w, keys, i) && Careful(run, ss, i, Some(d))
    requires ChainOk(run.ns, run.ads) && OneMoved(ss, Stats(run.ns, run.ads), i)
    requires ResetTo(run.ads[i], d, ss[i], Stats(run.ns, run.ads)[i], r)
    requires old'.Some? == run.key.Some? && (run.key.Some? ==> i < |keys| && old' == Some(keys[i]))
    requires SlotDone(run.ads[i], r.Some?, Stats(run.ns, run.ads)[i].view.cur, old', slot, run.strict)
    requires keys' == if slot.Some? then keys[i := slot.value] else keys
    ensures w > 0
    ensures r == None && run.root.None? ==> Stopped(run, i, w - 1, keys')
    ensures r.Some? || run.root.Some? ==> InSearch(run, if r == None then i else i + 1, r, w - 1, keys')
  {
    hide Stat, Stats, Position, Careful, OneMoved, ResetTo, SlotDone, StoppedAt, ChainOk, Coherent, Seen;
    var ss' := Stats(run.ns, run.ads);
    AllCoherent(run.ns, run.ads);
    PositionReset(run, ss, ss', i, d, r, w, keys, old', slot);
    if r == None && run.root.None? {
      StoppedReset(run, ss, ss', i, d);
    } else {
      CarefulReset(run, ss, ss', i, d, r);
    }
  }

  /** The search after a yield of level `i`. */
  lemma SlotYield(run: Run, ss: seq<Status>, i: nat, r: Option<Datum>, w: nat, keys: seq<KeyTree>,
      old': Option<KeyTree>, slot: Option<KeyTree>, keys': seq<KeyTree>)
    requires i < |run.ads| == |ss| && Position(run, ss, i + 1, None, w, keys, i + 1) && Careful(run, ss, i + 1, None)
    requires ChainOk(run.ns, run.ads) && OneMoved(ss, Stats(run.ns, run.ads), i)
    requires YieldTo(ss[i], Stats(run.ns, run.ads)[i], r)
    requires old'.Some? == run.key.Some? && (run.key.Some? ==> i < |keys| && old' == Some(keys[i]))
    requires SlotDone(run.ads[i], r.Some? && KeyHolds(run.ads[i], old', ss[i].view.cur),
                      Stats(run.ns, run.ads)[i].view.cur, old', slot, run.strict)
    requires keys' == if slot.Some? then keys[i := slot.value] else keys
    ensures InSearch(run, if r == None then i else i + 1, r, w, keys')
  {
    hide Stat, Stats, Position, Careful, OneMoved, YieldTo, SlotDone, ChainOk, Coherent, KeyHolds;
    var ss' := Stats(run.ns, run.ads);
    AllCoherent(run.ns, run.ads);
    PositionYield(run, ss, ss', i, r, w, i + 1, keys, old', slot);
    CarefulYield(run, ss, ss', i, r);
  }

  /** The search after the level on which it stopped was yielded. */
  lemma SlotStopped(run: Run, ss: seq<Status>, k: nat, r: Option<Datum>, w: nat, keys: seq<KeyTree>,
      old': Option<KeyTree>, slot: Option<KeyTree>, keys': seq<KeyTree>)
    requires k < |run.ads| == |ss| && Position(run, ss, k + 1, None, w, keys, k) && StoppedAt(run, ss, k)
    requires ChainOk(run.ns, run.ads) && OneMoved(ss, Stats(run.ns, run.ads), k)
    requires YieldTo(ss[k], Stats(run.ns, run.ads)[k], r) && !ss[k].armed && Coherent(run.ads[k], ss[k])
    requires old'.Some? == run.key.Some? && (run.key.Some? ==> k < |keys| && old' == Some(keys[k]))
    requires SlotDone(run.ads[k], r.Some? && KeyHolds(run.ads[k], old', ss[k].view.cur),
                      Stats(run.ns, run.ads)[k].view.cur, old', slot, run.strict)
    requires keys' == if slot.Some? then keys[k := slot.value] else keys
    ensures r == None && InSearch(run, k, r, w, keys')
  {
    hide Stat, Stats, Position, Careful, OneMoved, YieldTo, SlotDone, ChainOk, Coherent, KeyHolds, StoppedAt;
    var ss' := Stats(run.ns, run.ads);
    StoppedYield(run, ss, ss', k, r);
    PositionYield(run, ss, ss', k, r, w, k, keys, old', slot);
  }

  lemma SearchLinks(run: Run, i: nat, o: Option<Datum>, w: nat, keys: seq<KeyTree>, k: nat)
    requires InSearch(run, i, o, w, keys) && k < |run.ads|
    ensures |run.ns| == |run.ads|
    ensures if k + 1 < |run.ns| then run.ns[k].next == run.ns[k+1] else run.ns[k].next == null
    ensures if k > 0 then run.ns[k].prev == run.ns[k-1] else run.ns[k].prev == null
    ensures run.key.Some? ==> |run.ads| <= |keys|
  {
    Links(run.ns, run.ads, k);
  }

  lemma ResetFound(vs: seq<View>, ads: seq<AttrDef>, r: Datum, start: seq<View>, d: Datum)
    requires |start| == |ads| && OnTrack(vs, ads, |ads|, Some(r), start, Table(start, ads, 0, Some(d)))
    ensures ChainItems(ads, d) == [Path(Curs(vs), r)] + Left(vs, ads)
    ensures ResetLogs(start, vs, ads, d)
  {
    var t, u := Table(start, ads, 0, Some(d)), Table(vs, ads, |ads|, Some(r));
    Root(start, ads, d);
    LeafStep(vs, ads, r);
    hide ChainItems;
    forall k | 0 <= k < |ads|
      ensures vs[k].log + DataOf(Ahead(vs, ads, k, |ads|, None)) == start[k].log + DataOf(ChainItems(ads[..k], d))
    {
      assert u[k] == Ahead(vs, ads, k, |ads|, None);
    }
  }

  lemma ResetEmpty(vs: seq<View>, ads: seq<AttrDef>, start: seq<View>, d: Datum)
    requires |start| == |ads| && OnTrack(vs, ads, 0, None, start, Table(start, ads, 0, Some(d)))
    ensures ChainItems(ads, d) == []
    ensures ResetLogs(start, vs, ads, d)
  {
    var t, u := Table(start, ads, 0, Some(d)), Table(vs, ads, 0, None);
    Root(start, ads, d);
    hide ChainItems;
    assert u[|ads|] == [];
    assert forall k :: 0 <= k < |ads| ==> u[k] == [];
  }

  lemma GetFound(vs: seq<View>, ads: seq<AttrDef>, r: Datum, start: seq<View>)
    requires |start| == |ads| && OnTrack(vs, ads, |ads|, Some(r), start, Table(start, ads, |ads|, None))
    ensures Left(start, ads) == [Path(Curs(vs), r)] + Left(vs, ads)
    ensures GetLogs(start, vs, ads)
  {
    var t, u := Table(start, ads, |ads|, None), Table(vs, ads, |ads|, Some(r));
    LeafStep(vs, ads, r);
    assert t[|ads|] == Left(start, ads);
    forall k | 0 <= k < |ads|
      ensures vs[k].log + DataOf(Ahead(vs, ads, k, |ads|, None))
              == start[k].log + DataOf(Ahead(start, ads, k, |ads|, None))
    {
      assert u[k] == Ahead(vs, ads, k, |ads|, None) && t[k] == Ahead(start, ads, k, |ads|, None);
    }
  }

  lemma GetEmpty(vs: seq<View>, ads: seq<AttrDef>, start: seq<View>)
    requires |start| == |ads| && OnTrack(vs, ads, 0, None, start, Table(start, ads, |ads|, None))
    ensures Left(start, ads) == []
    ensures GetLogs(start, vs, ads)
  {
    var t, u := Table(start, ads, |ads|, None), Table(vs, ads, 0, None);
    assert t[|ads|] == Left(start, ads) && u[|ads|] == [];
    assert forall k :: 0 <= k < |ads| ==> u[k] == [] && t[k] == Ahead(start, ads, k, |ads|, None);
  }

  lemma TrackEnd(vs: seq<View>, ads: seq<AttrDef>, key: Option<KeyTree>, keys: seq<KeyTree>, i: nat, shown: bool,
      strict: bool)
    requires Tracking(vs, ads, key, keys, i, strict) && |vs| == |ads| && (shown ==> i == |ads|)
    ensures KeysDone(ads, shown, Curs(vs), key, AsList(key, keys), strict)
  {
  }

  /** A reset on `d` from the state `a`. */
  ghost function ResetRun(ns: seq<Query>, ads: seq<AttrDef>, a: Snapshot, d: Datum, key: Option<KeyTree>,
      strict: bool): Run
    requires |a.views| == |ads|
  {
    var tame := TameChain(ads, d);
    Run(ns, ads, a.views, Table(a.views, ads, 0, Some(d)), Some(d), key, true, strict, a.live, false, tame,
        tame && a.calm && TrapFreeChain(ads, d), tame && TidyChain(ads, d))
  }

  lemma ResetBegins(ns: seq<Query>, ads: seq<AttrDef>, d: Datum, key: Option<KeyTree>, strict: bool)
    requires ChainOk(ns, ads) && ListFits(ads, key, strict)
    ensures |ns| == |ads| == |Snap(ns, ads).views|
    ensures key.Some? ==> key.value.KeyList?
    ensures var run := ResetRun(ns, ads, Snap(ns, ads), d, key, strict);
            InSearch(run, 0, Some(d), Resets(run.t, |ads|), ListOf(key))
  {
    hide Stat, Position, Careful, Summed, ChainOk, Table, Resets;
    AllCoherent(ns, ads);
    SnapStats(ns, ads);
    ResetStarts(ResetRun(ns, ads, Snap(ns, ads), d, key, strict), Stats(ns, ads), Snap(ns, ads), d);
  }

  /** A search starts where it stands. */
  lemma StartPosition(run: Run, ss: seq<Status>, i: nat, o: Option<Datum>)
    requires i <= |ss| == |run.ads| && run.start == Seen(ss) && run.t == Table(run.start, run.ads, i, o)
    requires ListFits(run.ads, run.key, run.strict)
    requires run.shown && i > 0 ==> i == |run.ads| && ListHolds(run.ads, run.key, Curs(run.start))
    ensures run.key.Some? ==> run.key.value.KeyList?
    ensures Position(run, ss, i, o, Resets(run.t, |run.ads|), ListOf(run.key), i)
  {
    hide Resets, Table;
  }

  lemma ResetStarts(run: Run, ss: seq<Status>, a: Snapshot, d: Datum)
    requires Summed(run.ads, ss, a) && ListFits(run.ads, run.key, run.strict)
    requires run == ResetRun(run.ns, run.ads, a, d, run.key, run.strict)
    requires forall j :: 0 <= j < |run.ads| ==> Coherent(run.ads[j], ss[j])
    ensures run.key.Some? ==> run.key.value.KeyList?
    ensures Position(run, ss, 0, Some(d), Resets(run.t, |run.ads|), ListOf(run.key), 0)
    ensures Careful(run, ss, 0, Some(d))
  {
    hide Resets, Table, TameChain, TidyChain, TrapFreeChain, SettlesChain, SafeAfter, ChainItems, Position, FitsChain;
    assert run.ads[0..] == run.ads;
    StartPosition(run, ss, 0, Some(d));
    assert SafeAfter(run.ads, d) <==> SafeAhead(Seen(ss), run.ads, 0, Some(d)) by {
      if ChainItems(run.ads, d) == [] { EmptySafe(run.ads, d); }
    }
    hide SafeAhead;
  }

  lemma ResetRunParts(run: Run, ns: seq<Query>, ads: seq<AttrDef>, a: Snapshot, d: Datum, key: Option<KeyTree>,
      strict: bool)
    requires |a.views| == |ads| && run == ResetRun(ns, ads, a, d, key, strict)
    ensures run.ns == ns && run.ads == ads && run.root.Some? && run.key == key && run.strict == strict
    ensures run.tame == TameChain(ads, d) && |run.t| == |ads| + 1
  {
  }

  lemma GetRunParts(run: Run, ns: seq<Query>, ads: seq<AttrDef>, a: Snapshot, key: Option<KeyTree>, shown: bool,
      strict: bool)
    requires |a.views| == |ads| && run == GetRun(ns, ads, a, key, shown, strict)
    ensures run.ns == ns && run.ads == ads && run.root.None? && run.key == key && run.strict == strict
    ensures run.shown == shown && run.tame == a.safe && |run.t| == |ads| + 1
  {
  }

  lemma SearchOk(run: Run, i: nat, o: Option<Datum>, w: nat, keys: seq<KeyTree>)
    requires InSearch(run, i, o, w, keys)
    ensures ChainOk(run.ns, run.ads)
  {
  }

  lemma EmptySafe(ads: seq<AttrDef>, d: Datum)
    requires ChainItems(ads, d) == []
    ensures SafeAfter(ads, d)
  {
    NoResultSafe(LevelItems(ads[0], d), ads[1..]);
  }

  lemma ResetEnds(run: Run, a: Snapshot, d: Datum, i: nat, o: Option<Datum>, w: nat, keys: seq<KeyTree>)
    requires |a.views| == |run.ads| && run == ResetRun(run.ns, run.ads, a, d, run.key, run.strict)
    requires a.calm ==> a.live && RestSafe(a.views, run.ads, |run.ads|)
    requires InSearch(run, i, o, w, keys)
    requires (i == |run.ads| && o.Some?) || (i == 0 && o.None?)
    ensures ResetDone(run.ads, d, a, Snap(run.ns, run.ads), o)
    ensures KeysDone(run.ads, o.Some?, Curs(Views(run.ns)), run.key, AsList(run.key, keys), run.strict)
  {
    hide Stat, TameChain, TidyChain, TrapFreeChain, SettlesChain, GetTame, SafeAfter, ChainItems, ChainOk, Left,
      RestSafe, Resets, Table, FitsChain, HoldsChain, SafeAhead, ResetLogs, Tracking, KeysDone, OnTrack, Kept, Tamed,
      Calmed, Tidied;
    var vs := Views(run.ns);
    AllCoherent(run.ns, run.ads);
    SnapStats(run.ns, run.ads);
    TrackEnd(vs, run.ads, run.key, keys, i, o.Some?, run.strict);
    if o.Some? {
      ResetFound(vs, run.ads, o.value, run.start, d);
      FoundAll(run, Stats(run.ns, run.ads), Snap(run.ns, run.ads), o.value);
    } else {
      ResetEmpty(vs, run.ads, run.start, d);
      FailedAll(run, a, Stats(run.ns, run.ads), Snap(run.ns, run.ads));
    }
  }

  /** All levels were reset with success. */
  lemma FoundAll(run: Run, ss: seq<Status>, b: Snapshot, r: Datum)
    requires Careful(run, ss, |run.ads|, Some(r)) && Summed(run.ads, ss, b) && run.root.Some?
    ensures b.live && b.steady && AllEnd(run.start, b.views, run.ads)
    ensures run.tame <==> NewTame(run.start, b.views, run.ads)
    ensures SafeAfter(run.ads, run.root.value) <==> RestSafe(b.views, run.ads, |run.ads|)
    ensures run.tame && SafeAfter(run.ads, run.root.value) ==> b.safe && (run.tidy ==> b.calm)
  {
    hide TidyAhead, Calmed, GetTame, Ends, NewTame;
    assert run.ads[|run.ads|..] == [];
  }

  /** The reset failed: no level has more to give than before. */
  lemma FailedAll(run: Run, a: Snapshot, ss: seq<Status>, b: Snapshot)
    requires Careful(run, ss, 0, None) && Summed(run.ads, ss, b) && run.root.Some? && run.start == a.views
    requires run.live == a.live && |a.views| == |run.ads|
    requires run.calm ==> RestSafe(a.views, run.ads, |run.ads|) && run.live
    requires forall j :: 0 <= j < |run.ads| ==> Coherent(run.ads[j], ss[j])
    ensures AllEnd(run.start, b.views, run.ads) && |b.views| == |run.ads|
    ensures run.tame <==> NewTame(run.start, b.views, run.ads)
    ensures !run.ads[0].Fwd? ==> b.views[0].rest == []
    ensures a.live ==> b.live && Fewer(b.views, a.views)
    ensures run.calm ==> b.safe && (SettlesChain(run.ads, run.root.value) ==> b.calm)
  {
    hide GetAhead, TidyAhead, Tamed, Tidied, SafeAfter, SafeAhead, Settling, RestSafe, Data, Ends, NewTame;
    if run.calm { FewerSafe(b.views, a.views, run.ads); }
  }

  /** A get from the state `a`. */
  ghost function GetRun(ns: seq<Query>, ads: seq<AttrDef>, a: Snapshot, key: Option<KeyTree>, shown: bool,
      strict: bool): Run
    requires |a.views| == |ads|
  {
    Run(ns, ads, a.views, Table(a.views, ads, |ads|, None), None, key, shown, strict, true, a.steady, a.safe,
        false, false)
  }

  lemma GetBegins(ns: seq<Query>, ads: seq<AttrDef>, key: Option<KeyTree>, shown: bool, strict: bool)
    requires ChainOk(ns, ads) && ChainLive(ns, ads) && ListFits(ads, key, strict)
    requires shown ==> ListHolds(ads, key, Curs(Views(ns)))
    ensures |ns| == |ads| == |Snap(ns, ads).views|
    ensures key.Some? ==> key.value.KeyList?
    ensures var run := GetRun(ns, ads, Snap(ns, ads), key, shown, strict);
            InSearch(run, |ads|, None, Resets(run.t, |ads|), ListOf(key))
  {
    hide Stat, Position, Careful, Summed, ChainOk, Table, Resets;
    AllCoherent(ns, ads);
    SnapStats(ns, ads);
    SnapLive(ns, ads);
    GetStarts(GetRun(ns, ads, Snap(ns, ads), key, shown, strict), Stats(ns, ads), Snap(ns, ads));
  }

  lemma SnapLive(ns: seq<Query>, ads: seq<AttrDef>)
    requires ChainOk(ns, ads)
    ensures Snap(ns, ads).live == ChainLive(ns, ads) && Snap(ns, ads).views == Views(ns) && |ns| == |ads|
  {
  }

  lemma GetStarts(run: Run, ss: seq<Status>, a: Snapshot)
    requires Summed(run.ads, ss, a) && a.live && ListFits(run.ads, run.key, run.strict)
    requires run == GetRun(run.ns, run.ads, a, run.key, run.shown, run.strict)
    requires run.shown ==> ListHolds(run.ads, run.key, Curs(a.views))
    ensures run.key.Some? ==> run.key.value.KeyList?
    ensures Position(run, ss, |run.ads|, None, Resets(run.t, |run.ads|), ListOf(run.key), |run.ads|)
    ensures Careful(run, ss, |run.ads|, None)
  {
    hide Resets, Table, GetTame, Position, FitsChain, HoldsChain;
    StartPosition(run, ss, |run.ads|, None);
  }

  lemma GetEnds(run: Run, a: Snapshot, i: nat, o: Option<Datum>, w: nat, keys: seq<KeyTree>)
    requires |a.views| == |run.ads| && run == GetRun(run.ns, run.ads, a, run.key, run.shown, run.strict)
    requires InSearch(run, i, o, w, keys)
    requires (i == |run.ads| && o.Some?) || (i == 0 && o.None?)
    ensures GetDone(run.ads, a, Snap(run.ns, run.ads), o)
    ensures KeysDone(run.ads, run.shown && o.Some?, Curs(Views(run.ns)), run.key, AsList(run.key, keys), run.strict)
  {
    hide Stat, GetTame, ChainItems, ChainOk, Left, Resets, Table, FitsChain, HoldsChain, GetLogs, Tracking, KeysDone,
      OnTrack, Kept, Tamed, Calmed, Tidied, AllEnd, AllHarmless;
    var vs := Views(run.ns);
    AllCoherent(run.ns, run.ads);
    SnapStats(run.ns, run.ads);
    TrackEnd(vs, run.ads, run.key, keys, if run.shown then i else 0, run.shown && o.Some?, run.strict);
    GotAll(run, Stats(run.ns, run.ads), Snap(run.ns, run.ads), i, o);
    if o.Some? {
      GetFound(vs, run.ads, o.value, run.start);
    } else {
      GetEmpty(vs, run.ads, run.start);
    }
  }

  lemma GotAll(run: Run, ss: seq<Status>, b: Snapshot, i: nat, o: Option<Datum>)
    requires Careful(run, ss, i, o) && Summed(run.ads, ss, b) && run.root.None?
    requires (i == |run.ads| && o.Some?) || (i == 0 && o.None?)
    requires forall j :: 0 <= j < |run.ads| ==> Coherent(run.ads[j], ss[j])
    ensures b.live && (run.tame ==> b.safe)
    ensures o.None? ==> NoneLeft(b.views) && (run.tame ==> b.calm)
    ensures run.steady ==> b.steady && AllHarmless(run.start, b.views, run.ads)
    ensures AllEnd(run.start, b.views, run.ads)
  {
    hide Calmed, Tidied, GetTame;
  }
}
