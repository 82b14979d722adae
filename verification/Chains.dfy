/** The depth-first search over one chain: its position, what it has done and
    what is still ahead, and the postconditions of a chained reset and a get. */
module Chains {
  import opened Denotation
  import opened Search
  import opened Conditions
  import opened Levels

  /** Value of a chained reset. */
  function First(ads: seq<AttrDef>, d: Datum): Option<Datum> {
    var ps := ChainItems(ads, d);
    if ps == [] then None else Some(ps[0].datum)
  }

  /** Search at position `(i, o)`, compared with its start. */
  ghost predicate OnTrack(vs: seq<View>, ads: seq<AttrDef>, i: nat, o: Option<Datum>, start: seq<View>,
      t: seq<seq<Path>>) {
    && i <= |ads| == |vs| == |start|
    && SameRun(start, t, vs, Table(vs, ads, i, o))
  }

  ghost function Stats(ns: seq<Query>, ads: seq<AttrDef>): (r: seq<Status>)
    requires ChainOk(ns, ads)
    reads ns, Foot(ns), Bufs(ns)
    ensures |r| == |ns|
    ensures forall i :: 0 <= i < |ns| ==> r[i] == Stat(ns[i])
  {
    seq(|ns|, i requires 0 <= i < |ns| && ChainOk(ns, ads) reads ns, Foot(ns), Bufs(ns) => Stat(ns[i]))
  }

  function Seen(ss: seq<Status>): (vs: seq<View>)
    ensures |vs| == |ss|
    ensures forall i :: 0 <= i < |ss| ==> vs[i] == ss[i].view
  {
    seq(|ss|, i requires 0 <= i < |ss| => ss[i].view)
  }

  /** State of a chain, as far as its user is concerned. */
  datatype Snapshot = Snapshot(views: seq<View>, live: bool, steady: bool, safe: bool, calm: bool)

  ghost function Snap(ns: seq<Query>, ads: seq<AttrDef>): Snapshot
    reads Foot(ns), Bufs(ns), ns
  {
    if ChainOk(ns, ads) then
      Snapshot(Views(ns), ChainLive(ns, ads), ChainSteady(ns, ads), ChainSafe(ns, ads), ChainCalm(ns, ads))
    else Snapshot(Views(ns), false, false, false, false)
  }

  predicate NoneLeft(vs: seq<View>) {
    forall j :: 0 <= j < |vs| ==> vs[j].rest == []
  }

  /** All levels of the chain are depleted, and stay so. */
  predicate Depleted(s: Snapshot) {
    s.calm && NoneLeft(s.views)
  }

  /** The chain is in order and has nothing left to return. */
  ghost predicate Spent(s: Snapshot, ads: seq<AttrDef>) {
    s.live && |s.views| == |ads| && Left(s.views, ads) == []
  }

  /** Level `k` has been and will be reset exactly on the data that the levels
      above it produce. */
  ghost predicate ResetLogs(start: seq<View>, vs: seq<View>, ads: seq<AttrDef>, d: Datum) {
    && |start| == |vs| == |ads|
    && forall k :: 0 <= k < |ads| ==>
         (vs[k].log + (if ChainItems(ads, d) == [] then [] else DataOf(Ahead(vs, ads, k, |ads|, None)))
          == start[k].log + DataOf(ChainItems(ads[..k], d)))
  }

  ghost predicate GetLogs(start: seq<View>, vs: seq<View>, ads: seq<AttrDef>) {
    && |start| == |vs| == |ads|
    && forall k :: 0 <= k < |ads| ==>
         (vs[k].log + (if Left(start, ads) == [] then [] else DataOf(Ahead(vs, ads, k, |ads|, None)))
          == start[k].log + DataOf(Ahead(start, ads, k, |ads|, None)))
  }

  /** The resets since then armed no level. */
  predicate NewHarmless(ad: AttrDef, log: seq<Datum>, log': seq<Datum>) {
    forall x :: |log| <= x < |log'| ==> Harmless(ad, log'[x])
  }

  predicate AllHarmless(start: seq<View>, vs: seq<View>, ads: seq<AttrDef>) {
    && |start| == |vs| == |ads|
    && forall k :: 0 <= k < |ads| ==> NewHarmless(ads[k], start[k].log, vs[k].log)
  }

  /** The resets since then got out of the filter loop. */
  ghost predicate NewEnd(ad: AttrDef, log: seq<Datum>, log': seq<Datum>) {
    log <= log' && forall x :: |log| <= x < |log'| ==> Ends(ad, log'[x])
  }

  ghost predicate AllEnd(start: seq<View>, vs: seq<View>, ads: seq<AttrDef>) {
    && |start| == |vs| == |ads|
    && forall k :: 0 <= k < |ads| ==> NewEnd(ads[k], start[k].log, vs[k].log)
  }

  /** All resets since then ended well in themselves. */
  ghost predicate NewTame(start: seq<View>, vs: seq<View>, ads: seq<AttrDef>) {
    && |start| == |vs| == |ads|
    && forall k, x :: 0 <= k < |ads| && |start[k].log| <= x < |vs[k].log| ==> TameLevel(ads[k], vs[k].log[x])
  }

  /** Postcondition of a chained reset that ends well: what it returns, the state it
      makes of `a`, and what was reset on the way. */
  ghost predicate ResetDone(ads: seq<AttrDef>, d: Datum, a: Snapshot, b: Snapshot, r: Option<Datum>) {
    hide ResetLogs, ChainItems, Left;
    var ps := ChainItems(ads, d);
    && |a.views| == |b.views| == |ads| > 0
    && (ps == [] ==>
         && r == None
         && (a.live ==> b.live && Fewer(b.views, a.views))
         && (!ads[0].Fwd? ==> b.views[0].rest == [])
         && (TameChain(ads, d) && a.calm && TrapFreeChain(ads, d) ==> b.safe && (SettlesChain(ads, d) ==> b.calm)))
    && (ps != [] ==>
         && r == Some(ps[0].datum)
         && b.live && b.steady
         && Left(b.views, ads) == ps[1..]
         && Curs(b.views) == ps[0].keys
         && (SafeAfter(ads, d) <==> RestSafe(b.views, ads, |ads|))
         && (TameChain(ads, d) && SafeAfter(ads, d) ==> b.safe && (TidyChain(ads, d) ==> b.calm)))
    && (TameChain(ads, d) <==> NewTame(a.views, b.views, ads))
    && ResetLogs(a.views, b.views, ads, d) && AllEnd(a.views, b.views, ads)
  }

  /** Postcondition of a get that ends well. */
  ghost predicate GetDone(ads: seq<AttrDef>, a: Snapshot, b: Snapshot, r: Option<Datum>) {
    hide GetLogs, ChainItems, Ahead;
    && |a.views| == |b.views| == |ads| > 0
    && b.live && (a.safe ==> b.safe)
    && (Left(a.views, ads) == [] ==>
         && r == None && NoneLeft(b.views)
         && (a.safe ==> b.calm))
    && (Left(a.views, ads) != [] ==>
         && r == Some(Left(a.views, ads)[0].datum)
         && Left(b.views, ads) == Left(a.views, ads)[1..]
         && Curs(b.views) == Left(a.views, ads)[0].keys)
    && (a.steady ==> b.steady && AllHarmless(a.views, b.views, ads))
    && GetLogs(a.views, b.views, ads) && AllEnd(a.views, b.views, ads)
  }

  /** The key list afterwards: with `shown`, it shows the keys `curs`. */
  predicate KeysDone(ads: seq<AttrDef>, shown: bool, curs: seq<KeyTree>, key: Option<KeyTree>, key': Option<KeyTree>,
      strict: bool) {
    && key'.Some? == key.Some? && ListFits(ads, key', strict)
    && (SilentChain(ads) ==> key' == key)
    && (shown ==> ListHolds(ads, key', curs))
  }

  /** A key list during a search: the levels above `i` show their keys. */
  ghost predicate Tracking(vs: seq<View>, ads: seq<AttrDef>, key: Option<KeyTree>, keys: seq<KeyTree>, i: nat,
      strict: bool)
  {
    key.Some? ==>
      && key.value.KeyList?
      && FitsChain(ads, keys, strict) && |keys| == |key.value.items|
      && i <= |ads| == |vs|
      && (forall j :: 0 <= j < i ==> Holds(ads[j], keys[j], vs[j].cur))
      && (SilentChain(ads) ==> keys == key.value.items)
  }

  function ListOf(key: Option<KeyTree>): seq<KeyTree>
    requires key.Some? ==> key.value.KeyList?
  {
    if key.Some? then key.value.items else []
  }

  function AsList(key: Option<KeyTree>, keys: seq<KeyTree>): Option<KeyTree> {
    if key.Some? then Some(KeyList(keys)) else None
  }

  /** What stays fixed during one search: the chain, where the search started, the
      datum of a reset (None: a get), the key handed in, and whether the key list
      was in step with the levels.  What is known of the start: `live`, `steady`.
      `tame`: the search is bound to end well.  Of a reset, `calm`: its failure may
      be followed by a get; `tidy`: its success by a failing reset. */
  datatype Run = Run(ns: seq<Query>, ads: seq<AttrDef>, start: seq<View>, t: seq<seq<Path>>, root: Option<Datum>,
      key: Option<KeyTree>, shown: bool, strict: bool, live: bool, steady: bool, tame: bool, calm: bool, tidy: bool)

  /** The levels above the position are in order; those below have no more to give
      than at the start, and in a get, nothing. */
  ghost predicate Kept(run: Run, ss: seq<Status>, i: nat) {
    && |ss| == |run.start| == |run.ads|
    && (forall j :: 0 <= j < i && j < |ss| ==> ss[j].live && (run.root.Some? || run.steady ==> ss[j].steady))
    && (run.root.Some? && run.live ==>
         forall j :: i <= j < |ss| ==> ss[j].live && Data(ss[j].view.rest) <= Data(run.start[j].rest))
    && (run.root.None? ==>
         forall j :: i <= j < |ss| ==> ss[j].live && ss[j].view.rest == [] && (run.steady ==> ss[j].empty))
    && (run.root.None? && run.steady ==> AllHarmless(run.start, Seen(ss), run.ads))
    && AllEnd(run.start, Seen(ss), run.ads)
  }

  /** In a get, what the levels above the position still yield, and the datum at the
      position, is fit for the levels below. */
  ghost predicate GetAhead(vs: seq<View>, ads: seq<AttrDef>, i: nat, o: Option<Datum>) {
    && i <= |ads| == |vs| && RestSafe(vs, ads, i)
    && (o.Some? ==> GetTame(ads[i..], o.value))
  }

  ghost predicate Tamed(run: Run, ss: seq<Status>, i: nat, o: Option<Datum>) {
    run.tame ==>
      && (forall j :: 0 <= j < i && j < |ss| ==> ss[j].safe)
      && (run.root.None? ==> forall j :: i <= j < |ss| ==> ss[j].calm)
      && (run.root.None? ==> GetAhead(Seen(ss), run.ads, i, o))
  }

  /** A reset ends well, where the levels above `i` are to be climbed. */
  ghost predicate TameClimb(vs: seq<View>, ads: seq<AttrDef>, i: nat)
    requires i <= |ads| == |vs|
    decreases i
  {
    i > 0 ==>
      && TameItems(vs[i-1].rest, ads[i..])
      && (Extend(vs[i-1].rest, ads[i..]) == [] ==> TameClimb(vs, ads, i - 1))
  }

  /** The same at the position `(i, o)`. */
  ghost predicate TameAhead(vs: seq<View>, ads: seq<AttrDef>, i: nat, o: Option<Datum>) {
    && i <= |ads| == |vs|
    && (o.Some? ==> TameChain(ads[i..], o.value))
    && (o.None? || ChainItems(ads[i..], o.value) == [] ==> TameClimb(vs, ads, i))
  }

  /** Resets still to come below the first level settle. */
  ghost predicate Settling(root: Datum, vs: seq<View>, ads: seq<AttrDef>, i: nat, o: Option<Datum>) {
    && i <= |ads| == |vs|
    && if i == 0 then o.Some? ==> o.value == root && TrapFreeChain(ads, root)
       else
         && (forall j, x :: 0 <= j < i && 0 <= x < |vs[j].rest| ==> SettlesChain(ads[j+1..], vs[j].rest[x].datum))
         && (o.Some? ==> SettlesChain(ads[i..], o.value))
  }

  /** The levels below the position are calm; after a failed search, all but the
      first one are. */
  ghost predicate Calmed(run: Run, ss: seq<Status>, i: nat, o: Option<Datum>) {
    run.calm ==>
      && run.root.Some? && run.tame && Settling(run.root.value, Seen(ss), run.ads, i, o)
      && (forall j :: i <= j < |ss| && (i > 0 || o.Some? || j > 0) ==> ss[j].calm)
      && (i == 0 && o.None? && |ss| > 0 ==> ss[0].safe && (SettlesChain(run.ads, run.root.value) ==> ss[0].calm))
  }

  /** Whatever the levels above the position still yield is tidy further down, and
      these levels are calm. */
  ghost predicate Tidied(run: Run, ss: seq<Status>, i: nat, o: Option<Datum>) {
    run.tidy ==>
      && run.root.Some? && run.tame && TidyAhead(Seen(ss), run.ads, i, o)
      && forall j :: 0 <= j < i && j < |ss| ==> ss[j].calm
  }

  ghost predicate TidyAhead(vs: seq<View>, ads: seq<AttrDef>, i: nat, o: Option<Datum>) {
    && i <= |ads| == |vs|
    && (forall j :: 0 <= j < i ==> BoundFreeLevel(ads[j]) || vs[j].rest == [])
    && (forall j, x :: 0 <= j < i && 0 <= x < |vs[j].rest| ==> TidyChain(ads[j+1..], vs[j].rest[x].datum))
    && (o.Some? ==> TidyChain(ads[i..], o.value))
  }

  /** Gets after the first result end well, where the levels above `i` are to be
      climbed to find it. */
  ghost predicate SafeClimb(vs: seq<View>, ads: seq<AttrDef>, i: nat)
    requires i <= |ads| == |vs|
    decreases i
  {
    i > 0 ==>
      if Extend(vs[i-1].rest, ads[i..]) != [] then SafeItems(vs[i-1].rest, ads[i..]) && RestSafe(vs, ads, i - 1)
      else SafeClimb(vs, ads, i - 1)
  }

  /** The same at the position `(i, o)` of a reset. */
  ghost predicate SafeAhead(vs: seq<View>, ads: seq<AttrDef>, i: nat, o: Option<Datum>) {
    && i <= |ads| == |vs|
    && if o.Some? && ChainItems(ads[i..], o.value) != [] then SafeAfter(ads[i..], o.value) && RestSafe(vs, ads, i)
       else SafeClimb(vs, ads, i)
  }

  /** The search is at position `(i, o)` with `w` resets still to come; the key list
      shows the levels above `k`. */
  ghost predicate Position(run: Run, ss: seq<Status>, i: nat, o: Option<Datum>, w: nat, keys: seq<KeyTree>, k: nat) {
    && OnTrack(Seen(ss), run.ads, i, o, run.start, run.t)
    && Resets(Table(Seen(ss), run.ads, i, o), |run.ads|) == w
    && Tracking(Seen(ss), run.ads, run.key, keys, if run.shown then k else 0, run.strict)
  }

  /** What is known of the levels at the position. */
  ghost predicate Careful(run: Run, ss: seq<Status>, i: nat, o: Option<Datum>) {
    && Kept(run, ss, i)
    && (i == 0 && o.None? && |ss| > 0 && !run.ads[0].Fwd? ==> ss[0].view.rest == [])
    && Tamed(run, ss, i, o)
    && Calmed(run, ss, i, o)
    && Tidied(run, ss, i, o)
    && (run.root.Some? ==> (SafeAfter(run.ads, run.root.value) <==> SafeAhead(Seen(ss), run.ads, i, o)))
    && (run.root.Some? ==> (run.tame <==> NewTame(run.start, Seen(ss), run.ads) && TameAhead(Seen(ss), run.ads, i, o)))
  }

  ghost predicate InSearch(run: Run, i: nat, o: Option<Datum>, w: nat, keys: seq<KeyTree>)
    reads run.ns, Foot(run.ns), Bufs(run.ns)
  {
    && ChainOk(run.ns, run.ads)
    && Position(run, Stats(run.ns, run.ads), i, o, w, keys, i)
    && Careful(run, Stats(run.ns, run.ads), i, o)
  }

  /** Level `k` after a failed reset in the course of a get, `log` being its resets
      at the start: it has nothing to yield, but may be armed. */
  ghost predicate Failed(run: Run, ad: AttrDef, s: Status, log: seq<Datum>) {
    && s.live && s.view.rest == []
    && (run.steady ==> s.armed || (s.empty && NewHarmless(ad, log, s.view.log)))
    && (run.tame ==> s.safe)
  }

  /** A reset of level `k` has just failed in the course of a get: those below it
      are depleted. */
  ghost predicate StoppedAt(run: Run, ss: seq<Status>, k: nat) {
    && run.root.None? && !run.calm && !run.tidy
    && k < |ss| == |run.start| == |run.ads| && AllEnd(run.start, Seen(ss), run.ads)
    && (forall j :: 0 <= j < k ==> ss[j].live && (run.steady ==> ss[j].steady))
    && (forall j :: k < j < |ss| ==> ss[j].live && ss[j].view.rest == [] && (run.steady ==> ss[j].empty))
    && (run.steady ==> forall j :: 0 <= j < |ss| && j != k ==>
       NewHarmless(run.ads[j], run.start[j].log, ss[j].view.log))
    && Failed(run, run.ads[k], ss[k], run.start[k].log)
    && (run.tame ==> (forall j :: 0 <= j < k ==> ss[j].safe) && (forall j :: k < j < |ss| ==> ss[j].calm))
    && (run.tame ==> GetAhead(Seen(ss), run.ads, k, None))
  }

  ghost predicate Stopped(run: Run, k: nat, w: nat, keys: seq<KeyTree>)
    reads run.ns, Foot(run.ns), Bufs(run.ns)
  {
    && ChainOk(run.ns, run.ads)
    && Position(run, Stats(run.ns, run.ads), k + 1, None, w, keys, k)
    && StoppedAt(run, Stats(run.ns, run.ads), k)
  }
}
