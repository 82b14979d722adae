/** Bookkeeping of the iterative depth-first search over a chain: what is still
    to come, given what every level has left.  `Ahead` says it for the prefix
    of the first `k` levels; for `k` equal to the depth it is what the chain
    itself will still return. */
module Search {
  import opened Denotation

  /** A level during a run: items not yielded yet, key of the current item,
      and every datum the level was reset on so far. */
  datatype View = View(rest: seq<Item>, cur: KeyTree, log: seq<Datum>)

  /** Paths of the first `k` levels still to come when levels `0..i` hold the
      state `vs` and the levels from `i` on will give `inner`. */
  function Climb(vs: seq<View>, ads: seq<AttrDef>, k: nat, i: nat, inner: seq<Path>): seq<Path>
    requires i <= k <= |ads| && i <= |vs|
    decreases i
  {
    if i == 0 then inner
    else Climb(vs, ads, k, i - 1, PrefixAll(vs[i-1].cur, inner) + Extend(vs[i-1].rest, ads[i..k]))
  }

  function Below(ads: seq<AttrDef>, k: nat, i: nat, o: Option<Datum>): seq<Path>
    requires i <= k <= |ads|
  {
    if o.None? then [] else ChainItems(ads[i..k], o.value)
  }

  /** Position `(i, Some(d))`: level `i` is about to be reset on `d`.
      Position `(i, None)`: levels from `i` on are exhausted. */
  function Ahead(vs: seq<View>, ads: seq<AttrDef>, k: nat, i: nat, o: Option<Datum>): seq<Path>
    requires i <= |ads| == |vs| && k <= |ads|
  {
    if i <= k then Climb(vs, ads, k, i, Below(ads, k, i, o)) else Climb(vs, ads, k, k, [])
  }

  function Curs(vs: seq<View>): (r: seq<KeyTree>)
    ensures |r| == |vs|
  {
    seq(|vs|, j requires 0 <= j < |vs| => vs[j].cur)
  }

  predicate SameUpTo(vs: seq<View>, ws: seq<View>, i: nat)
    requires i <= |vs| && i <= |ws|
  {
    forall j :: 0 <= j < i ==> vs[j].rest == ws[j].rest && vs[j].cur == ws[j].cur
  }

  lemma {:induction false} ClimbSame(vs: seq<View>, ws: seq<View>, ads: seq<AttrDef>, k: nat, i: nat, inner: seq<Path>)
    requires i <= k <= |ads| && i <= |vs| && i <= |ws|
    requires SameUpTo(vs, ws, i)
    ensures Climb(vs, ads, k, i, inner) == Climb(ws, ads, k, i, inner)
    decreases i
  {
    if i > 0 {
      ClimbSame(vs, ws, ads, k, i - 1, PrefixAll(vs[i-1].cur, inner) + Extend(vs[i-1].rest, ads[i..k]));
    }
  }

  /** The first path of `inner` comes out first, under the current keys. */
  lemma {:induction false} ClimbHead(vs: seq<View>, ads: seq<AttrDef>, k: nat, i: nat, p: Path, ps: seq<Path>)
    requires i <= k <= |ads| && i <= |vs|
    ensures Climb(vs, ads, k, i, [p] + ps)
         == [Path(Curs(vs)[..i] + p.keys, p.datum)] + Climb(vs, ads, k, i, ps)
    decreases i
  {
    if i == 0 {
      assert Curs(vs)[..0] + p.keys == p.keys;
    } else {
      var c, e := vs[i-1].cur, Extend(vs[i-1].rest, ads[i..k]);
      var p' := Path([c] + p.keys, p.datum);
      assert PrefixAll(c, [p] + ps) + e == [p'] + (PrefixAll(c, ps) + e);
      ClimbHead(vs, ads, k, i - 1, p', PrefixAll(c, ps) + e);
      assert Curs(vs)[..i-1] + p'.keys == Curs(vs)[..i] + p.keys;
    }
  }

  lemma BelowUnfold(ads: seq<AttrDef>, k: nat, i: nat, d: Datum)
    requires i < k <= |ads|
    ensures Below(ads, k, i, Some(d)) == Extend(LevelItems(ads[i], d), ads[i+1..k])
  {
    assert ads[i..k][0] == ads[i];
    assert ads[i..k][1..] == ads[i+1..k];
  }

  lemma BelowLeaf(ads: seq<AttrDef>, k: nat, d: Datum)
    requires k <= |ads|
    ensures Below(ads, k, k, Some(d)) == [Path([], d)]
  {
    assert ads[k..k] == [];
  }

  /** Level `i` was reset on `d` and gave an item: the search moves down. */
  lemma DescendStep(vs: seq<View>, ws: seq<View>, ads: seq<AttrDef>, k: nat, i: nat, d: Datum)
    requires i < |ads| == |vs| == |ws| && k <= |ads|
    requires LevelItems(ads[i], d) != [] && SameUpTo(vs, ws, i)
    requires ws[i].rest == LevelItems(ads[i], d)[1..] && ws[i].cur == LevelItems(ads[i], d)[0].key
    ensures k != i ==>
              Ahead(ws, ads, k, i + 1, Some(LevelItems(ads[i], d)[0].datum)) == Ahead(vs, ads, k, i, Some(d))
    ensures k == i ==>
              (Ahead(vs, ads, i, i, Some(d))
               == [Path(Curs(vs)[..i], d)] + Ahead(ws, ads, i, i + 1, Some(LevelItems(ads[i], d)[0].datum)))
  {
    var items := LevelItems(ads[i], d);
    var o := Some(items[0].datum);
    if i < k {
      BelowUnfold(ads, k, i, d);
      var inner := Below(ads, k, i + 1, o);
      ClimbSame(vs, ws, ads, k, i, Below(ads, k, i, Some(d)));
      assert Below(ads, k, i, Some(d)) == PrefixAll(items[0].key, inner) + Extend(items[1..], ads[i+1..k]);
    } else if k == i {
      BelowLeaf(ads, k, d);
      ClimbHead(vs, ads, k, i, Path([], d), []);
      assert [Path([], d)] + [] == [Path([], d)];
      assert Curs(vs)[..i] + [] == Curs(vs)[..i];
      ClimbSame(vs, ws, ads, k, k, []);
    } else {
      ClimbSame(vs, ws, ads, k, k, []);
    }
  }

  /** Level `i` was reset on `d` and is empty there. */
  lemma MissStep(vs: seq<View>, ws: seq<View>, ads: seq<AttrDef>, k: nat, i: nat, d: Datum)
    requires i < |ads| == |vs| == |ws| && k <= |ads|
    requires LevelItems(ads[i], d) == []
    requires forall j :: 0 <= j < |ads| && j != i ==> ws[j] == vs[j]
    ensures k != i ==> Ahead(ws, ads, k, i, None) == Ahead(vs, ads, k, i, Some(d))
    ensures k == i ==> Ahead(vs, ads, i, i, Some(d)) == [Path(Curs(vs)[..i], d)] + Ahead(ws, ads, i, i, None)
  {
    if i < k {
      BelowUnfold(ads, k, i, d);
      ClimbSame(vs, ws, ads, k, i, []);
    } else if k == i {
      BelowLeaf(ads, k, d);
      ClimbHead(vs, ads, k, i, Path([], d), []);
      assert [Path([], d)] + [] == [Path([], d)];
      assert Curs(vs)[..i] + [] == Curs(vs)[..i];
      ClimbSame(vs, ws, ads, k, k, []);
    } else {
      ClimbSame(vs, ws, ads, k, k, []);
    }
  }

  /** Level `i` has nothing left: the search moves up past it. */
  lemma ExhaustedStep(vs: seq<View>, ads: seq<AttrDef>, k: nat, i: nat)
    requires i < |ads| == |vs| && k <= |ads|
    requires vs[i].rest == []
    ensures Ahead(vs, ads, k, i + 1, None) == Ahead(vs, ads, k, i, None)
  {
    if i < k {
      assert PrefixAll(vs[i].cur, []) + Extend([], ads[i+1..k]) == [];
    }
  }

  /** Level `i` yielded its next item while the levels below it are exhausted. */
  lemma YieldStep(vs: seq<View>, ws: seq<View>, ads: seq<AttrDef>, k: nat, i: nat)
    requires i < |ads| == |vs| == |ws| && k <= |ads|
    requires vs[i].rest != [] && SameUpTo(vs, ws, i)
    requires ws[i].rest == vs[i].rest[1..] && ws[i].cur == vs[i].rest[0].key
    ensures Ahead(ws, ads, k, i + 1, Some(vs[i].rest[0].datum)) == Ahead(vs, ads, k, i + 1, None)
  {
    var x := vs[i].rest[0];
    if i < k {
      var inner := Below(ads, k, i + 1, Some(x.datum));
      assert PrefixAll(vs[i].cur, []) + Extend(vs[i].rest, ads[i+1..k])
          == PrefixAll(x.key, inner) + Extend(ws[i].rest, ads[i+1..k]);
      ClimbSame(vs, ws, ads, k, i, PrefixAll(x.key, inner) + Extend(ws[i].rest, ads[i+1..k]));
    } else {
      ClimbSame(vs, ws, ads, k, k, []);
    }
  }

  /** At the leaf the path in hand comes first. */
  lemma LeafStep(vs: seq<View>, ads: seq<AttrDef>, d: Datum)
    requires |ads| == |vs|
    ensures Ahead(vs, ads, |ads|, |ads|, Some(d)) == [Path(Curs(vs), d)] + Ahead(vs, ads, |ads|, |ads|, None)
  {
    var n := |ads|;
    BelowLeaf(ads, n, d);
    ClimbHead(vs, ads, n, n, Path([], d), []);
    assert [Path([], d)] + [] == [Path([], d)];
    assert Curs(vs)[..n] + [] == Curs(vs);
  }

  /** `Ahead` for every prefix of the chain; the last row is the chain's own. */
  function Table(vs: seq<View>, ads: seq<AttrDef>, i: nat, o: Option<Datum>): (t: seq<seq<Path>>)
    requires i <= |ads| == |vs|
    ensures |t| == |ads| + 1
  {
    seq(|ads| + 1, k requires 0 <= k <= |ads| => Ahead(vs, ads, k, i, o))
  }

  /** Resets still to come at levels `0..m`: the unvisited nodes of the tree. */
  function Resets(t: seq<seq<Path>>, m: nat): nat
    requires m <= |t|
  {
    if m == 0 then 0 else Resets(t, m - 1) + |t[m-1]|
  }

  /** Level `i` was reset on `d`, and this reset is no longer ahead. */
  predicate Hits(vs: seq<View>, t: seq<seq<Path>>, ws: seq<View>, u: seq<seq<Path>>, i: nat, d: Datum) {
    && |t| == |u| == |vs| + 1 == |ws| + 1
    && i < |vs|
    && (forall k :: 0 <= k < |vs| && k != i ==> u[k] == t[k] && ws[k].log == vs[k].log)
    && u[|vs|] == t[|vs|]
    && t[i] != [] && t[i][0].datum == d && t[i][1..] == u[i]
    && ws[i].log == vs[i].log + [d]
  }

  /** Both runs return the same paths and reset every level on the same data:
      done before, plus still to come. */
  predicate SameRun(vs: seq<View>, t: seq<seq<Path>>, ws: seq<View>, u: seq<seq<Path>>) {
    && |t| == |u| == |vs| + 1 == |ws| + 1
    && u[|vs|] == t[|vs|]
    && forall k :: 0 <= k < |vs| ==> ws[k].log + DataOf(u[k]) == vs[k].log + DataOf(t[k])
  }

  lemma {:induction false} HitsResets(vs: seq<View>, t: seq<seq<Path>>, ws: seq<View>, u: seq<seq<Path>>, i: nat,
      d: Datum, m: nat)
    requires Hits(vs, t, ws, u, i, d) && m <= |vs|
    ensures Resets(t, m) == Resets(u, m) + (if i < m then 1 else 0)
    decreases m
  {
    if m > 0 { HitsResets(vs, t, ws, u, i, d, m - 1); }
  }

  lemma HitsSameRun(vs: seq<View>, t: seq<seq<Path>>, ws: seq<View>, u: seq<seq<Path>>, i: nat, d: Datum)
    requires Hits(vs, t, ws, u, i, d)
    ensures SameRun(vs, t, ws, u)
    ensures Resets(t, |vs|) == Resets(u, |vs|) + 1
  {
    HitsResets(vs, t, ws, u, i, d, |vs|);
    assert DataOf(t[i]) == [d] + DataOf(u[i]);
  }

  lemma SameRunTrans(a: seq<View>, t: seq<seq<Path>>, b: seq<View>, u: seq<seq<Path>>, c: seq<View>, w: seq<seq<Path>>)
    requires SameRun(a, t, b, u) && SameRun(b, u, c, w)
    ensures SameRun(a, t, c, w)
  {
  }

  /** Level `i` was reset on `d` and gave its first item. */
  lemma Descend(vs: seq<View>, ws: seq<View>, ads: seq<AttrDef>, i: nat, d: Datum)
    requires i < |ads| == |vs| == |ws|
    requires var items := LevelItems(ads[i], d);
             items != [] && ws == vs[i := View(items[1..], items[0].key, vs[i].log + [d])]
    ensures Hits(vs, Table(vs, ads, i, Some(d)),
                 ws, Table(ws, ads, i + 1, Some(LevelItems(ads[i], d)[0].datum)), i, d)
  {
    var o := Some(LevelItems(ads[i], d)[0].datum);
    var t, u := Table(vs, ads, i, Some(d)), Table(ws, ads, i + 1, o);
    forall k | 0 <= k <= |ads|
      ensures k != i ==> u[k] == t[k]
    {
      DescendStep(vs, ws, ads, k, i, d);
    }
    DescendStep(vs, ws, ads, i, i, d);
  }

  /** Level `i` was reset on `d` and gave nothing. */
  lemma Miss(vs: seq<View>, ws: seq<View>, ads: seq<AttrDef>, i: nat, d: Datum)
    requires i < |ads| == |vs| == |ws|
    requires LevelItems(ads[i], d) == []
    requires forall j :: 0 <= j < |ads| && j != i ==> ws[j] == vs[j]
    requires ws[i].log == vs[i].log + [d]
    ensures Hits(vs, Table(vs, ads, i, Some(d)), ws, Table(ws, ads, i, None), i, d)
  {
    var t, u := Table(vs, ads, i, Some(d)), Table(ws, ads, i, None);
    assert ws[i := vs[i]] == vs;
    forall k | 0 <= k <= |ads|
      ensures k != i ==> u[k] == t[k]
    {
      if k < i || k > i {
        MissStep(vs, ws, ads, k, i, d);
      }
    }
    MissStep(vs, ws, ads, i, i, d);
  }

  /** Level `i` has nothing left. */
  lemma Exhausted(vs: seq<View>, ws: seq<View>, ads: seq<AttrDef>, i: nat)
    requires i < |ads| == |vs| == |ws|
    requires vs[i].rest == [] && SameUpTo(vs, ws, i)
    ensures Table(vs, ads, i + 1, None) == Table(ws, ads, i, None)
  {
    var t, u := Table(vs, ads, i + 1, None), Table(ws, ads, i, None);
    forall k | 0 <= k <= |ads|
      ensures u[k] == t[k]
    {
      ExhaustedStep(vs, ads, k, i);
      ClimbSame(vs, ws, ads, k, if k < i then k else i, []);
    }
  }

  /** Level `i` yields its next item; the levels below it are exhausted. */
  lemma Advance(vs: seq<View>, ws: seq<View>, ads: seq<AttrDef>, i: nat)
    requires i < |ads| == |vs| == |ws|
    requires vs[i].rest != []
    requires ws == vs[i := View(vs[i].rest[1..], vs[i].rest[0].key, vs[i].log)]
    ensures Table(vs, ads, i + 1, None) == Table(ws, ads, i + 1, Some(vs[i].rest[0].datum))
  {
    var o := Some(vs[i].rest[0].datum);
    var t, u := Table(vs, ads, i + 1, None), Table(ws, ads, i + 1, o);
    forall k | 0 <= k <= |ads|
      ensures u[k] == t[k]
    {
      YieldStep(vs, ws, ads, k, i);
    }
  }

  /** Root position: the whole chain is ahead. */
  lemma Root(vs: seq<View>, ads: seq<AttrDef>, d: Datum)
    requires |vs| == |ads|
    ensures Table(vs, ads, 0, Some(d))[|ads|] == ChainItems(ads, d)
    ensures forall k :: 0 <= k < |ads| ==> Table(vs, ads, 0, Some(d))[k] == ChainItems(ads[..k], d)
  {
    assert ads[0..|ads|] == ads;
    forall k | 0 <= k < |ads|
      ensures Table(vs, ads, 0, Some(d))[k] == ChainItems(ads[..k], d)
    {
      assert ads[0..k] == ads[..k];
    }
  }
}
