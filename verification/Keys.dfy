/** Keys in memory: reserved, copied, flattened and destroyed in place. */
module Keys {
  import opened Denotation
  import opened KeyShapes
  import opened KeyTrees
  import opened Transparency

  datatype Rc = Ok | Generic

  /** Dynamic memory.  Reading, writing or freeing needs a live block. */
  class Memory {
    var blocks: map<nat, Block>
    var top: nat
    ghost var freed: seq<nat>  // addresses given to free, in order

    ghost predicate Valid()
      reads this
    {
      top > 0 && forall a :: a in blocks ==> 0 < a < top
    }

    constructor ()
      ensures Valid() && blocks == map[] && freed == []
    {
      blocks, top, freed := map[], 1, [];
    }

    method Alloc(b: Block) returns (a: nat)
      requires Valid()
      modifies this
      ensures Valid() && a != 0 && a !in old(blocks) && blocks == old(blocks)[a := b] && freed == old(freed)
    {
      a := top;
      blocks, top := blocks[a := b], top + 1;
    }

    method Free(a: nat)
      requires Valid() && a in blocks
      modifies this
      ensures Valid() && blocks == old(blocks) - {a} && freed == old(freed) + [a]
    {
      blocks := blocks - {a};
      freed := freed + [a];
    }

    predicate Live(k: Loc)
      reads this
    {
      k.addr in blocks && blocks[k.addr].Keys? && k.idx < |blocks[k.addr].cells|
    }

    function Get(k: Loc): Cell
      requires Live(k)
      reads this
    {
      blocks[k.addr].cells[k.idx]
    }

    method Set(k: Loc, c: Cell)
      requires Valid() && Live(k)
      modifies this
      ensures Valid() && freed == old(freed) && blocks == old(Put(blocks, k, c))
    {
      blocks := Put(blocks, k, c);
    }
  }

  function Put(m: map<nat, Block>, k: Loc, c: Cell): map<nat, Block>
    requires k.addr in m && m[k.addr].Keys? && k.idx < |m[k.addr].cells|
  {
    m[k.addr := Keys(m[k.addr].cells[k.idx := c])]
  }

  /** A blank array of cells: all empty, the last one terminal. */
  function BlankCells(n: nat): (r: seq<Cell>)
    ensures |r| == n
  {
    seq(n, i => EMPTY.(isTerminal := i == n - 1))
  }

  /** The cell `k` became `c`, pointing to a new blank array. */
  ghost predicate Marked(m0: map<nat, Block>, m1: map<nat, Block>, k: Loc, c: Cell, n: nat) {
    && k.addr in m0 && m0[k.addr].Keys? && k.idx < |m0[k.addr].cells|
    && c.plType == List && c.code == 0 && c.pl !in m0 && c.pl != 0
    && m1 == Put(m0, k, c)[c.pl := KeyTrees.Keys(BlankCells(n))]
  }

  /** hdql_key_mark_as_list. */
  method MarkAsList(mem: Memory, k: Loc, n: nat) returns (rc: Rc)
    requires mem.Valid() && mem.Live(k) && n > 0
    modifies mem
    ensures mem.Valid() && mem.freed == old(mem.freed)
    ensures rc == Ok <==> old(IsEmpty(mem.Get(k)))
    ensures rc != Ok ==> mem.blocks == old(mem.blocks)
    ensures rc == Ok ==>
              && mem.Live(k) && mem.Get(k) == old(mem.Get(k)).(plType := List, pl := mem.Get(k).pl)
              && Marked(old(mem.blocks), mem.blocks, k, mem.Get(k), n)
  {
    var c := mem.Get(k);
    if c.code != 0 || c.plType != Plain { return Generic; }
    // allocated and zeroed in one step
    var a := mem.Alloc(Keys(BlankCells(n)));
    mem.Set(k, c.(plType := List, pl := a));
    rc := Ok;
  }

  /** hdql_key_get_list_len. */
  method ListLen(mem: Memory, k: Loc, ghost t: Tree) returns (n: nat)
    requires mem.Live(k) && Rep(mem.blocks, mem.Get(k), t) && t.TList?
    ensures n == |t.items|
  {
    var a := mem.Get(k).pl;
    n := 0;
    while true
      invariant n < |t.items|
      decreases |t.items| - n
    {
      n := n + 1;
      if mem.Get(Loc(a, n - 1)).isTerminal { return; }
    }
  }

  /** Items before `i` are gone; item `i` is still there. */
  lemma ItemReady(m0: map<nat, Block>, m: map<nat, Block>, c: Cell, t: Tree, i: nat)
    requires Rep(m0, c, t) && t.TList? && i < |t.items| && Distinct(Blocks(t))
    requires m == m0 - Addresses(BlocksAll(t.items[..i]))
    ensures t.addr in m && m[t.addr] == m0[t.addr]
    ensures Rep(m, m[t.addr].cells[i], t.items[i]) && Distinct(Blocks(t.items[i])) && t.addr !in Blocks(t.items[i])
  {
    ItemsApart(t, i);
    BlocksSplit(t.items, i);
    RepLive(m0, c, t);
    RepFrame(m0, m, m0[t.addr].cells[i], m0[t.addr].cells[i], t.items[i]);
  }

  lemma ItemGone(m0: map<nat, Block>, ts: seq<Tree>, i: nat)
    requires i < |ts|
    ensures BlocksAll(ts[..i + 1]) == BlocksAll(ts[..i]) + Blocks(ts[i])
    ensures m0 - Addresses(BlocksAll(ts[..i])) - Addresses(Blocks(ts[i])) == m0 - Addresses(BlocksAll(ts[..i + 1]))
  {
    BlocksSplit(ts, i);
    assert Addresses(BlocksAll(ts[..i + 1])) == Addresses(BlocksAll(ts[..i])) + Addresses(Blocks(ts[i]));
  }

  /** The recursion over the items of a list. */
  method DestroyItems(mem: Memory, k: Loc, ghost t: Tree)
    requires mem.Valid() && mem.Live(k) && Rep(mem.blocks, mem.Get(k), t) && t.TList?
    requires Distinct(Blocks(t)) && k.addr !in Blocks(t)
    modifies mem
    ensures mem.Valid()
    ensures mem.freed == old(mem.freed) + BlocksAll(t.items)
    ensures mem.blocks == old(mem.blocks) - Addresses(BlocksAll(t.items))
    decreases t, 0
  {
    hide Rep, Distinct, Blocks, BlocksAll, Addresses;
    ghost var m0, f0, c0 := mem.blocks, mem.freed, mem.Get(k);
    var a := mem.Get(k).pl;
    var i: nat := 0;
    BlocksWhole(t.items);
    NoneGone(m0);
    IsItem(m0, c0, t, i);
    while true
      invariant i < |t.items| && mem.Valid()
      invariant mem.freed == f0 + BlocksAll(t.items[..i])
      invariant mem.blocks == m0 - Addresses(BlocksAll(t.items[..i]))
      decreases |t.items| - i
    {
      ItemReady(m0, mem.blocks, c0, t, i);
      ItemGone(m0, t.items, i);
      IsItem(m0, c0, t, i);
      var isLast := mem.Get(Loc(a, i)).isTerminal;
      DestroyAt(mem, Loc(a, i), false, t.items[i]);
      if isLast { break; }
      i := i + 1;
    }
  }

  lemma NoneGone(m: map<nat, Block>)
    ensures m - Addresses([]) == m
  {
  }

  lemma IsItem(m: map<nat, Block>, c: Cell, t: Tree, i: nat)
    requires Rep(m, c, t) && t.TList? && (i < |t.items| || i == 0)
    ensures i < |t.items|
    ensures t.addr in m && m[t.addr].Keys? && |m[t.addr].cells| == |t.items| && c.pl == t.addr
    ensures m[t.addr].cells[i].isTerminal <==> i == |t.items| - 1
    ensures Rep(m, m[t.addr].cells[i], t.items[i])
  {
  }

  /** _hdql__for_each_key with the destroying callback: items first, then the
      key's own block, and at last the root itself. */
  method DestroyAt(mem: Memory, k: Loc, root: bool, ghost t: Tree)
    requires mem.Valid() && mem.Live(k) && Rep(mem.blocks, mem.Get(k), t)
    requires Distinct(Blocks(t)) && k.addr !in Blocks(t)
    modifies mem
    ensures mem.Valid()
    ensures mem.freed == old(mem.freed) + Blocks(t) + if root then [k.addr] else []
    ensures mem.blocks == old(mem.blocks) - Addresses(Blocks(t)) - if root then {k.addr} else {}
    decreases t, 1
  {
    ghost var m0 := mem.blocks;
    if IsList(mem.Get(k)) {
      ItemsApart(t, 0);
      RepLive(m0, mem.Get(k), t);
      assert k.addr !in BlocksAll(t.items) by { assert Blocks(t) == BlocksAll(t.items) + [t.addr]; }
      DestroyItems(mem, k, t);
    }
    Emptied(m0, t);
    // the callback on the key itself, which is still readable
    assert mem.Live(k) && mem.Get(k) == old(mem.Get(k));
    var c := mem.Get(k);
    if IsList(c) {
      mem.Free(c.pl);
    } else if IsDatum(c) {
      mem.Free(c.pl);
    }
    if root { mem.Free(k.addr); }
  }

  lemma Emptied(m: map<nat, Block>, t: Tree)
    ensures t.TList? ==> m - Addresses(BlocksAll(t.items)) - {t.addr} == m - Addresses(Blocks(t))
    ensures t.TDatum? ==> m - {t.addr} == m - Addresses(Blocks(t))
    ensures t.TEmpty? ==> m == m - Addresses(Blocks(t))
  {
  }

  lemma {:induction false} BlocksUpdate(ts: seq<Tree>, i: nat, t: Tree)
    requires i < |ts| && Blocks(t) == Blocks(ts[i])
    ensures BlocksAll(ts[i := t]) == BlocksAll(ts)
  {
    BlocksSplit(ts, i);
    BlocksSplit(ts[i := t], i);
    assert ts[i := t][..i] == ts[..i] && ts[i := t][i + 1..] == ts[i + 1..];
  }

  /** Item `i` of the key was rewritten inside its own blocks. */
  lemma ItemRewritten(m: map<nat, Block>, m': map<nat, Block>, c: Cell, t: Tree, i: nat, item: Tree)
    requires Rep(m, c, t) && t.TList? && i < |t.items| && Distinct(Blocks(t))
    requires m'.Keys == m.Keys && forall a :: a in m && a !in Blocks(t.items[i]) ==> m'[a] == m[a]
    requires Rep(m', m[t.addr].cells[i], item) && Blocks(item) == Blocks(t.items[i])
    ensures Rep(m', c, TList(t.addr, t.items[i := item])) && Blocks(TList(t.addr, t.items[i := item])) == Blocks(t)
  {
    ItemsApart(t, i);
    RepLive(m, c, t);
    forall j | 0 <= j < |t.items| && j != i
      ensures Rep(m', m[t.addr].cells[j], t.items[j])
    {
      ItemsApart(t, j);
      OthersApart(t, i, j);
      RepLive(m, m[t.addr].cells[j], t.items[j]);
      RepFrame(m, m', m[t.addr].cells[j], m[t.addr].cells[j], t.items[j]);
    }
    BlocksUpdate(t.items, i, item);
  }

  lemma OthersApart(t: Tree, i: nat, j: nat)
    requires t.TList? && i < |t.items| && j < |t.items| && i != j && Distinct(Blocks(t))
    ensures forall x :: x in Blocks(t.items[j]) ==> x !in Blocks(t.items[i])
  {
    ItemsApart(t, i);
    if j < i {
      InBlocksAll(t.items[..i], j);
    } else {
      InBlocksAll(t.items[i + 1..], j - i - 1);
    }
  }

  /** The keys share no block. */
  predicate Apart(a: Tree, b: Tree) {
    forall x :: x in Blocks(a) ==> x !in Blocks(b)
  }

  /** hdql_key_copy_value: copies the data of a key into a key of the same
      kinds.  It succeeds exactly when all type codes agree; otherwise it stops
      at the first that does not. */
  method CopyValue(mem: Memory, dest: Loc, src: Loc, ghost td: Tree, ghost ts: Tree)
    returns (rc: Rc, ghost td': Tree)
    requires mem.Valid() && mem.Live(dest) && mem.Live(src)
    requires Rep(mem.blocks, mem.Get(dest), td) && Rep(mem.blocks, mem.Get(src), ts)
    requires Distinct(Blocks(td)) && Apart(td, ts) && dest.addr !in Blocks(td) && src.addr !in Blocks(td)
    requires SameKinds(td, ts)
    modifies mem
    ensures mem.Valid() && mem.freed == old(mem.freed) && mem.blocks.Keys == old(mem.blocks.Keys)
    ensures rc == Ok <==> SameCodes(td, ts)
    ensures mem.Live(dest) && Rep(mem.blocks, mem.Get(dest), td') && Blocks(td') == Blocks(td)
    ensures td' == Copied(td, ts) && (rc == Ok ==> Value(td') == Value(ts))
    ensures forall a :: a in mem.blocks && a !in Blocks(td) ==> mem.blocks[a] == old(mem.blocks)[a]
    decreases td, 1
  {
    var c, d := mem.Get(src), mem.Get(dest);
    if IsEmpty(c) {
      assert IsEmpty(d);
      return Ok, td;
    } else if IsDatum(c) {
      assert IsDatum(d);
      if c.code != d.code { return Generic, td; }
      mem.blocks := mem.blocks[d.pl := mem.blocks[c.pl]];
      return Ok, TDatum(td.addr, td.code, ts.value);
    }
    rc, td' := CopyItems(mem, dest, src, td, ts);
  }

  /** The recursion over the items of a list. */
  method CopyItems(mem: Memory, dest: Loc, src: Loc, ghost td: Tree, ghost ts: Tree)
    returns (rc: Rc, ghost now: Tree)
    requires mem.Valid() && mem.Live(dest) && mem.Live(src)
    requires Rep(mem.blocks, mem.Get(dest), td) && Rep(mem.blocks, mem.Get(src), ts) && td.TList?
    requires Distinct(Blocks(td)) && Apart(td, ts) && dest.addr !in Blocks(td) && src.addr !in Blocks(td)
    requires SameKinds(td, ts)
    modifies mem
    ensures mem.Valid() && mem.freed == old(mem.freed) && mem.blocks.Keys == old(mem.blocks.Keys)
    ensures rc == Ok <==> SameCodes(td, ts)
    ensures mem.Live(dest) && Rep(mem.blocks, mem.Get(dest), now) && Blocks(now) == Blocks(td)
    ensures now == Copied(td, ts) && (rc == Ok ==> Value(now) == Value(ts))
    ensures forall a :: a in mem.blocks && a !in Blocks(td) ==> mem.blocks[a] == old(mem.blocks)[a]
    decreases td, 0
  {
    ghost var m0, cd, cs := mem.blocks, mem.Get(dest), mem.Get(src);
    var dk, sk := mem.Get(dest).pl, mem.Get(src).pl;
    now := td;
    var i: nat := 0;
    hide Rep, SameCodes, SameKinds, Copied, Copying, CopiedSoFar, Distinct, Apart;
    CopyBegins(m0, cd, td, ts);
    while true
      invariant i < |td.items| && mem.Valid() && mem.freed == old(mem.freed)
      invariant Copying(m0, mem.blocks, cd, td, now) && CopiedSoFar(td, ts, now, i)
      decreases |td.items| - i
    {
      CopyReady(m0, mem.blocks, cd, cs, td, ts, now, i);
      ghost var m := mem.blocks;
      ghost var item;
      var isLast := mem.Get(Loc(sk, i)).isTerminal;
      rc, item := CopyValue(mem, Loc(dk, i), Loc(sk, i), td.items[i], ts.items[i]);
      NotYet(td, ts, now, i);
      CopyStep(m0, m, mem.blocks, cd, td, now, i, item);
      ItemCopied(td, ts, now, i, item, rc == Ok);
      now := TList(td.addr, now.items[i := item]);
      if rc != Ok || isLast { break; }
      i := i + 1;
    }
    CopyEnds(m0, mem.blocks, cd, td, now);
  }

  lemma CopyBegins(m0: map<nat, Block>, cd: Cell, td: Tree, ts: Tree)
    requires Rep(m0, cd, td) && td.TList? && SameKinds(td, ts)
    ensures |td.items| > 0 && Copying(m0, m0, cd, td, td) && CopiedSoFar(td, ts, td, 0)
  {
  }

  lemma NotYet(td: Tree, ts: Tree, now: Tree, i: nat)
    requires CopiedSoFar(td, ts, now, i) && i < |td.items|
    ensures now.TList? && |now.items| == |td.items| && now.items[i] == td.items[i]
  {
    hide Copied, SameCodes, SameKinds;
  }

  lemma CopyEnds(m0: map<nat, Block>, m: map<nat, Block>, cd: Cell, td: Tree, now: Tree)
    requires Copying(m0, m, cd, td, now)
    ensures Rep(m, cd, now) && Blocks(now) == Blocks(td) && m.Keys == m0.Keys
    ensures forall a :: a in m && a !in Blocks(td) ==> m[a] == m0[a]
  {
  }

  /** The destination is in order, in its own blocks; nothing outside them has
      changed. */
  ghost predicate Copying(m0: map<nat, Block>, m: map<nat, Block>, cd: Cell, td: Tree, now: Tree) {
    && td.TList? && now.TList? && now.addr == td.addr && |now.items| == |td.items|
    && m.Keys == m0.Keys && Rep(m, cd, now) && Blocks(now) == Blocks(td)
    && forall a :: a in m && a !in Blocks(td) ==> m[a] == m0[a]
  }

  /** Items before `i` are copied, the others as before. */
  ghost predicate CopiedSoFar(td: Tree, ts: Tree, now: Tree, i: nat) {
    && td.TList? && now.TList? && now.addr == td.addr && SameKinds(td, ts) && |now.items| == |td.items|
    && (forall j :: 0 <= j < i && j < |td.items| ==>
          && now.items[j] == Copied(td.items[j], ts.items[j])
          && Value(now.items[j]) == Value(ts.items[j]) && SameCodes(td.items[j], ts.items[j]))
    && (forall j :: i <= j < |td.items| ==> now.items[j] == td.items[j])
  }

  lemma SourceKept(m0: map<nat, Block>, m: map<nat, Block>, cs: Cell, td: Tree, ts: Tree)
    requires Rep(m0, cs, ts) && Apart(td, ts) && m.Keys == m0.Keys
    requires forall a :: a in m && a !in Blocks(td) ==> m[a] == m0[a]
    ensures Rep(m, cs, ts)
  {
    RepLive(m0, cs, ts);
    RepFrame(m0, m, cs, cs, ts);
  }

  lemma CopyReady(m0: map<nat, Block>, m: map<nat, Block>, cd: Cell, cs: Cell, td: Tree, ts: Tree, now: Tree, i: nat)
    requires Copying(m0, m, cd, td, now) && CopiedSoFar(td, ts, now, i) && i < |td.items| && Rep(m0, cs, ts)
    requires Distinct(Blocks(td)) && Apart(td, ts)
    ensures td.addr in m && m[td.addr].Keys? && |m[td.addr].cells| == |td.items| && cd.pl == td.addr
    ensures ts.TList? && ts.addr in m && m[ts.addr].Keys? && |m[ts.addr].cells| == |ts.items| == |td.items|
            && cs.pl == ts.addr
    ensures Rep(m, m[td.addr].cells[i], td.items[i]) && Rep(m, m[ts.addr].cells[i], ts.items[i])
    ensures m[ts.addr].cells[i].isTerminal <==> i == |ts.items| - 1
    ensures Distinct(Blocks(td.items[i])) && Apart(td.items[i], ts.items[i])
    ensures td.addr !in Blocks(td.items[i]) && ts.addr !in Blocks(td.items[i]) && SameKinds(td.items[i], ts.items[i])
  {
    hide Copied, SameCodes;
    SourceKept(m0, m, cs, td, ts);
    ItemsApart(td, i);
    InBlocksAll(ts.items, i);
    assert ts.addr in Blocks(ts);
    forall x | x in Blocks(td.items[i])
      ensures x !in Blocks(ts.items[i]) && x != ts.addr
    {
      assert x in Blocks(td);
    }
  }

  lemma CopyStep(m0: map<nat, Block>, m: map<nat, Block>, m': map<nat, Block>, cd: Cell, td: Tree, now: Tree, i: nat,
      item: Tree)
    requires Copying(m0, m, cd, td, now) && i < |td.items| && now.items[i] == td.items[i] && Distinct(Blocks(td))
    requires m'.Keys == m.Keys && forall a :: a in m && a !in Blocks(td.items[i]) ==> m'[a] == m[a]
    requires Rep(m', m[td.addr].cells[i], item) && Blocks(item) == Blocks(td.items[i])
    ensures Copying(m0, m', cd, td, TList(td.addr, now.items[i := item]))
  {
    ItemRewritten(m, m', cd, now, i, item);
    ItemsApart(td, i);
    forall a | a in m' && a !in Blocks(td)
      ensures m'[a] == m0[a]
    {
      assert a !in Blocks(td.items[i]);
    }
  }

  lemma ItemCopied(td: Tree, ts: Tree, now: Tree, i: nat, item: Tree, ok: bool)
    requires CopiedSoFar(td, ts, now, i) && i < |td.items|
    requires item == Copied(td.items[i], ts.items[i]) && (ok <==> SameCodes(td.items[i], ts.items[i]))
    requires ok ==> Value(item) == Value(ts.items[i])
    ensures var next := TList(td.addr, now.items[i := item]);
            && (ok ==> CopiedSoFar(td, ts, next, i + 1))
            && (!ok || i + 1 == |td.items| ==> next == Copied(td, ts) && (ok <==> SameCodes(td, ts)))
            && (ok && i + 1 == |td.items| ==> Value(next) == Value(ts))
  {
    var next := TList(td.addr, now.items[i := item]);
    if !ok || i + 1 == |td.items| {
      CopiedUpTo(td.items, ts.items, next.items, i);
    }
    if ok && i + 1 == |td.items| {
      assert forall j :: 0 <= j < |next.items| ==> Value(next.items[j]) == Value(ts.items[j]);
      assert Values(next.items) == Values(ts.items);
    }
  }

  lemma {:induction false} FlatStep(ts: seq<Tree>, i: nat)
    requires i < |ts|
    ensures FlatAll(Values(ts[..i + 1])) == FlatAll(Values(ts[..i])) + Flat(Value(ts[i]))
  {
    assert Values(ts[..i + 1]) == Values(ts[..i]) + [Value(ts[i])];
    FlatConcat(Values(ts[..i]), [Value(ts[i])]);
    FlatOne(Value(ts[i]));
  }

  lemma FlatWhole(ts: seq<Tree>)
    ensures FlatAll(Values(ts[..|ts|])) == FlatAll(Values(ts)) && FlatAll(Values(ts[..0])) == []
  {
    assert ts[..|ts|] == ts;
  }

  /** hdql_key_flat_view_size: number of keys with a datum, at any depth. */
  method FlatViewSize(mem: Memory, k: Loc, ghost t: Tree) returns (n: nat)
    requires mem.Live(k) && Rep(mem.blocks, mem.Get(k), t)
    ensures n == |Flat(Value(t))|
    ensures n == |StoredOnly(mem.blocks, Blocks(t))|
    decreases t
  {
    n := 0;
    StoredOf(mem.blocks, mem.Get(k), t);
    if IsList(mem.Get(k)) {
      var a := mem.Get(k).pl;
      var i: nat := 0;
      FlatWhole(t.items);
      BlocksWhole(t.items);
      while true
        invariant i < |t.items| && n == |FlatAll(Values(t.items[..i]))|
        invariant n == |StoredOnly(mem.blocks, BlocksAll(t.items[..i]))|
        decreases |t.items| - i
      {
        FlatStep(t.items, i);
        StoredStep(mem.blocks, t.items, i);
        var isLast := mem.Get(Loc(a, i)).isTerminal;
        var m := FlatViewSize(mem, Loc(a, i), t.items[i]);
        n := n + m;
        if isLast { break; }
        i := i + 1;
      }
    } else if IsDatum(mem.Get(k)) {
      n := 1;
    }
  }

  /** The pointer is to a key with the code and the datum of `key`. */
  ghost predicate PointsTo(m: map<nat, Block>, k: Loc, key: KeyTree) {
    && k.addr in m && m[k.addr].Keys? && k.idx < |m[k.addr].cells|
    && var c := m[k.addr].cells[k.idx];
    && IsDatum(c) && c.pl in m && m[c.pl].Stored? && key == KeyDatum(c.code, m[c.pl].value)
  }

  /** From `at` on, the view points to the keys `keys`. */
  ghost predicate Viewed(m: map<nat, Block>, view: seq<Loc>, at: nat, keys: seq<KeyTree>) {
    at + |keys| <= |view| && forall i :: at <= i < at + |keys| ==> PointsTo(m, view[i], keys[i - at])
  }

  /** From `at` on, the view points to the keys whose data are at the addresses. */
  ghost predicate Pointed(m: map<nat, Block>, view: seq<Loc>, at: nat, addrs: seq<nat>) {
    at + |addrs| <= |view| && forall i :: at <= i < at + |addrs| ==> PointsAt(m, view[i], addrs[i - at])
  }

  ghost predicate PointsAt(m: map<nat, Block>, k: Loc, addr: nat) {
    && k.addr in m && m[k.addr].Keys? && k.idx < |m[k.addr].cells|
    && IsDatum(m[k.addr].cells[k.idx]) && m[k.addr].cells[k.idx].pl == addr
  }

  lemma PointedMore(m: map<nat, Block>, view: seq<Loc>, view': seq<Loc>, at: nat, a: seq<nat>, b: seq<nat>)
    requires Pointed(m, view, at, a) && Pointed(m, view', at + |a|, b)
    requires view'[..at + |a|] == view[..at + |a|]
    ensures Pointed(m, view', at, a + b)
  {
    hide PointsAt;
    forall i | at <= i < at + |a + b|
      ensures PointsAt(m, view'[i], (a + b)[i - at])
    {
      if i < at + |a| { assert view'[i] == view'[..at + |a|][i] == view[..at + |a|][i] == view[i]; }
    }
  }

  lemma ViewedMore(m: map<nat, Block>, view: seq<Loc>, view': seq<Loc>, at: nat, a: seq<KeyTree>, b: seq<KeyTree>)
    requires Viewed(m, view, at, a) && Viewed(m, view', at + |a|, b)
    requires view'[..at + |a|] == view[..at + |a|]
    ensures Viewed(m, view', at, a + b)
  {
    hide PointsTo;
    forall i | at <= i < at + |a + b|
      ensures PointsTo(m, view'[i], (a + b)[i - at])
    {
      if i < at + |a| { assert view'[i] == view'[..at + |a|][i] == view[..at + |a|][i] == view[i]; }
    }
  }

  /** hdql_key_flat_view_populate, from position `at` of the view on. */
  method FlatViewPopulate(mem: Memory, k: Loc, view: array<Loc>, at: nat, ghost t: Tree) returns (next: nat)
    requires mem.Live(k) && Rep(mem.blocks, mem.Get(k), t)
    requires at + |Flat(Value(t))| <= view.Length
    modifies view
    ensures next == at + |Flat(Value(t))|
    ensures view[..at] == old(view[..at])
    ensures Viewed(mem.blocks, view[..], at, Flat(Value(t)))
    ensures next == at + |StoredOnly(mem.blocks, Blocks(t))|
    ensures Pointed(mem.blocks, view[..], at, StoredOnly(mem.blocks, Blocks(t)))
    decreases t, 1
  {
    next := at;
    StoredOf(mem.blocks, mem.Get(k), t);
    if IsList(mem.Get(k)) {
      next := PopulateItems(mem, k, view, at, t);
    } else if IsDatum(mem.Get(k)) {
      view[next] := k;
      next := next + 1;
    }
  }

  method PopulateItems(mem: Memory, k: Loc, view: array<Loc>, at: nat, ghost t: Tree) returns (next: nat)
    requires mem.Live(k) && Rep(mem.blocks, mem.Get(k), t) && t.TList?
    requires at + |FlatAll(Values(t.items))| <= view.Length
    modifies view
    ensures next == at + |FlatAll(Values(t.items))|
    ensures view[..at] == old(view[..at])
    ensures Viewed(mem.blocks, view[..], at, FlatAll(Values(t.items)))
    ensures next == at + |StoredOnly(mem.blocks, BlocksAll(t.items))|
    ensures Pointed(mem.blocks, view[..], at, StoredOnly(mem.blocks, BlocksAll(t.items)))
    decreases t, 0
  {
    hide Rep, Viewed, Pointed, Flat, FlatAll, Values, StoredOnly, Blocks, BlocksAll;
    next := at;
    var a := mem.Get(k).pl;
    var i: nat := 0;
    FlatWhole(t.items);
    ViewedNone(mem.blocks, view[..], at);
    ghost var done: seq<KeyTree> := [];
    ghost var addrs := StoredOnly(mem.blocks, BlocksAll(t.items[..0]));
    BlocksWhole(t.items);
    NoneStored(mem.blocks, view[..], at);
    IsItem(mem.blocks, mem.Get(k), t, 0);
    while true
      invariant i < |t.items| && next == at + |done| && done == FlatAll(Values(t.items[..i]))
      invariant view[..at] == old(view[..at]) && Viewed(mem.blocks, view[..], at, done)
      invariant |addrs| == |done| && addrs == StoredOnly(mem.blocks, BlocksAll(t.items[..i]))
      invariant Pointed(mem.blocks, view[..], at, addrs)
      decreases |t.items| - i
    {
      FlatStep(t.items, i);
      FlatPrefix(t.items, i);
      StoredStep(mem.blocks, t.items, i);
      IsItem(mem.blocks, mem.Get(k), t, i);
      var isLast := mem.Get(Loc(a, i)).isTerminal;
      ghost var before, from, item := view[..], next, Flat(Value(t.items[i]));
      ghost var stored := StoredOnly(mem.blocks, Blocks(t.items[i]));
      next := FlatViewPopulate(mem, Loc(a, i), view, next, t.items[i]);
      assert view[..][..from] == before[..from] by { assert view[..][..from] == view[..from]; }
      ViewedMore(mem.blocks, before, view[..], at, done, item);
      PointedMore(mem.blocks, before, view[..], at, addrs, stored);
      assert view[..at] == view[..from][..at] == before[..at];
      done, addrs := done + item, addrs + stored;
      if isLast { break; }
      i := i + 1;
    }
  }

  lemma NoneStored(m: map<nat, Block>, view: seq<Loc>, at: nat)
    requires at <= |view|
    ensures StoredOnly(m, []) == [] && Pointed(m, view, at, [])
  {
  }

  lemma ViewedNone(m: map<nat, Block>, view: seq<Loc>, at: nat)
    requires at <= |view|
    ensures Viewed(m, view, at, [])
  {
  }

  lemma FlatPrefix(ts: seq<Tree>, i: nat)
    requires i < |ts|
    ensures |FlatAll(Values(ts[..i + 1]))| <= |FlatAll(Values(ts))|
  {
    assert Values(ts) == Values(ts[..i + 1]) + Values(ts[i + 1..]);
    FlatConcat(Values(ts[..i + 1]), Values(ts[i + 1..]));
  }

  /** The cell `k` became `c`, the root of the key `t`, all of whose blocks are
      new; nothing else has changed. */
  ghost predicate Grown(m0: map<nat, Block>, m: map<nat, Block>, k: Loc, c: Cell, t: Tree) {
    && k.addr in m0 && m0[k.addr].Keys? && k.idx < |m0[k.addr].cells|
    && m.Keys == m0.Keys + Addresses(Blocks(t))
    && (forall a :: a in Blocks(t) ==> a !in m0) && Distinct(Blocks(t))
    && (forall a :: a in m0 && a != k.addr ==> m[a] == m0[a])
    && m[k.addr] == KeyTrees.Keys(m0[k.addr].cells[k.idx := c])
    && Rep(m, c, t)
  }

  /** A list of `n` cells at `a`, blank in `m1`, of which the first ones now hold
      the keys `ts`.  `kept`: the last cell is still marked terminal. */
  ghost predicate Filling(m1: map<nat, Block>, m: map<nat, Block>, a: nat, n: nat, ts: seq<Tree>, kept: bool) {
    && a in m1 && m1[a] == KeyTrees.Keys(BlankCells(n)) && |ts| <= n
    && m.Keys == m1.Keys + Addresses(BlocksAll(ts))
    && Distinct(BlocksAll(ts)) && (forall x :: x in BlocksAll(ts) ==> x !in m1)
    && (forall x :: x in m1 && x != a ==> m[x] == m1[x])
    && m[a].Keys? && |m[a].cells| == n
    && (forall j :: 0 <= j < |ts| ==> Rep(m, m[a].cells[j], ts[j]))
    && (forall j :: 0 <= j < n - 1 ==> !m[a].cells[j].isTerminal)
    && (kept && n > 0 ==> m[a].cells[n - 1].isTerminal)
    && (forall j :: |ts| <= j < n ==> m[a].cells[j] == BlankCells(n)[j])
  }

  lemma FillStart(m0: map<nat, Block>, m1: map<nat, Block>, k: Loc, c: Cell, n: nat)
    requires Marked(m0, m1, k, c, n)
    ensures Filling(m1, m1, c.pl, n, [], true)
  {
  }

  lemma FillStep(m1: map<nat, Block>, m: map<nat, Block>, m': map<nat, Block>, a: nat, n: nat, ts: seq<Tree>,
      kept: bool, c: Cell, t: Tree)
    requires Filling(m1, m, a, n, ts, kept) && |ts| < n && Grown(m, m', Loc(a, |ts|), c, t)
    requires c.isTerminal ==> |ts| == n - 1
    ensures Filling(m1, m', a, n, ts + [t], kept && (|ts| == n - 1 ==> c.isTerminal))
  {
    var i := |ts|;
    var us := ts + [t];
    BlocksSplit(us, i);
    assert us[..i] == ts && us[..i + 1] == us;
    forall x | x in BlocksAll(ts)
      ensures x in m && x !in Blocks(t)
    {
      assert x in Addresses(BlocksAll(ts));
    }
    DistinctJoin(BlocksAll(ts), Blocks(t));
    assert Addresses(BlocksAll(us)) == Addresses(BlocksAll(ts)) + Addresses(Blocks(t));
    forall j | 0 <= j < i
      ensures Rep(m', m'[a].cells[j], us[j])
    {
      InBlocksAll(ts, j);
      RepFrame(m, m', m[a].cells[j], m[a].cells[j], ts[j]);
    }
  }

  lemma FillKept(m1: map<nat, Block>, m: map<nat, Block>, a: nat, n: nat, ts: seq<Tree>)
    requires Filling(m1, m, a, n, ts, true) && n > 0
    ensures a in m && m[a].Keys? && |m[a].cells| == n
    ensures m == Put(m, Loc(a, n - 1), m[a].cells[n - 1].(isTerminal := true))
  {
    assert m[a].cells[n - 1 := m[a].cells[n - 1].(isTerminal := true)] == m[a].cells;
  }

  lemma FillCell(m1: map<nat, Block>, m: map<nat, Block>, a: nat, n: nat, ts: seq<Tree>, kept: bool)
    requires Filling(m1, m, a, n, ts, kept)
    ensures a in m && m[a].Keys? && |m[a].cells| == n
    ensures |ts| < n ==> m[a].cells[|ts|] == EMPTY.(isTerminal := |ts| == n - 1)
  {
  }

  /** The list is full, and its last cell is marked terminal. */
  lemma FillEnd(m0: map<nat, Block>, m1: map<nat, Block>, m: map<nat, Block>, m': map<nat, Block>, k: Loc, c: Cell,
      n: nat, ts: seq<Tree>, kept: bool)
    requires Marked(m0, m1, k, c, n) && n > 0
    requires Filling(m1, m, c.pl, n, ts, kept) && |ts| == n
    requires m' == Put(m, Loc(c.pl, n - 1), m[c.pl].cells[n - 1].(isTerminal := true))
    ensures Grown(m0, m', k, c, TList(c.pl, ts))
  {
    var a := c.pl;
    var t := TList(a, ts);
    forall j | 0 <= j < n
      ensures Rep(m', m'[a].cells[j], ts[j])
    {
      InBlocksAll(ts, j);
      RepFrame(m, m', m[a].cells[j], m'[a].cells[j], ts[j]);
    }
    DistinctJoin(BlocksAll(ts), [a]);
    assert Addresses(Blocks(t)) == Addresses(BlocksAll(ts)) + {a};
  }

  /** hdql_key_reserve_for_query: a list with one key for each level. */
  method ReserveForQuery(mem: Memory, ads: seq<AttrDef>, k: Loc) returns (rc: Rc, ghost t: Tree)
    requires mem.Valid() && mem.Live(k) && Keyed(ads)
    modifies mem
    ensures mem.Valid() && mem.freed == old(mem.freed)
    ensures rc == Ok <==> old(IsEmpty(mem.Get(k)))
    ensures rc != Ok ==> mem.blocks == old(mem.blocks)
    ensures rc == Ok ==>
              && t.TList? && Value(t) == KeyList(BlankAll(ads))
              && Grown(old(mem.blocks), mem.blocks, k, old(mem.Get(k)).(plType := List, pl := t.addr), t)
    decreases ads, 2
  {
    hide Filling, Grown, Marked, Rep, Distinct, BlankCells;
    ghost var m0, c := mem.blocks, mem.Get(k);
    var n := |ads|;
    t := TEmpty;
    rc := MarkAsList(mem, k, n);
    if rc != Ok { return; }
    c := mem.Get(k);
    var a := mem.Get(k).pl;
    ghost var m1, ts, kept := mem.blocks, [], true;
    FillStart(m0, m1, k, c, n);
    var i: nat := 0;
    while i < n
      invariant i == |ts| <= n && mem.Valid() && mem.freed == old(mem.freed)
      invariant Filling(m1, mem.blocks, a, n, ts, kept)
      invariant forall j :: 0 <= j < i ==> Value(ts[j]) == Blank(ads[j])
    {
      FillCell(m1, mem.blocks, a, n, ts, kept);
      ghost var m := mem.blocks;
      ghost var item := ReserveLevel(mem, ads[i], Loc(a, i));
      FillStep(m1, m, mem.blocks, a, n, ts, kept, mem.Get(Loc(a, i)), item);
      kept := kept && (i == n - 1 ==> mem.Get(Loc(a, i)).isTerminal);
      ts := ts + [item];
      i := i + 1;
    }
    FillCell(m1, mem.blocks, a, n, ts, kept);
    ghost var m := mem.blocks;
    mem.Set(Loc(a, n - 1), mem.Get(Loc(a, n - 1)).(isTerminal := true));
    t := TList(a, ts);
    FillEnd(m0, m1, m, mem.blocks, k, c, n, ts, kept);
    assert Values(ts) == BlankAll(ads);
  }

  /** A zero datum of the type, or nothing for a level without key. */
  method ReserveDatum(mem: Memory, code: nat, k: Loc) returns (ghost t: Tree)
    requires mem.Valid() && mem.Live(k)
    requires mem.Get(k) == EMPTY.(isTerminal := mem.Get(k).isTerminal)
    modifies mem
    ensures mem.Valid() && mem.freed == old(mem.freed)
    ensures mem.Live(k) && Value(t) == if code == 0 then NoKey else KeyDatum(code, 0)
    ensures Grown(old(mem.blocks), mem.blocks, k, mem.Get(k), t)
    ensures mem.Get(k).isTerminal ==> old(mem.Get(k).isTerminal)
  {
    if code != 0 {
      var a := mem.Alloc(Stored(0));
      mem.Set(k, mem.Get(k).(code := code, pl := a));
      t := TDatum(a, code, 0);
    } else {
      mem.Set(k, EMPTY);  // clears the terminal flag as well
      t := TEmpty;
    }
  }

  /** The key of one level: a zero datum of the level's key type, a list for a
      forwarded chain or a bound compound, or nothing. */
  method ReserveLevel(mem: Memory, ad: AttrDef, k: Loc) returns (ghost t: Tree)
    requires mem.Valid() && mem.Live(k) && KeyedLevel(ad)
    requires mem.Get(k) == EMPTY.(isTerminal := mem.Get(k).isTerminal)
    modifies mem
    ensures mem.Valid() && mem.freed == old(mem.freed)
    ensures mem.Live(k) && Value(t) == Blank(ad)
    ensures Grown(old(mem.blocks), mem.blocks, k, mem.Get(k), t)
    ensures mem.Get(k).isTerminal ==> old(mem.Get(k).isTerminal)
    decreases ad, 1
  {
    ghost var m0 := mem.blocks;
    match ad
    case Collection(code, _) => t := ReserveDatum(mem, code, k);
    case Scalar(code, _) => t := ReserveDatum(mem, code, k);
    case Fwd(sub) =>
      var rc;
      rc, t := ReserveForQuery(mem, sub, k);
    case Bound(joins, _, _) =>
      var rc;
      rc, t := ReserveProduct(mem, joins, k);
    case Filter(_, _) =>
      mem.Set(k, EMPTY);
      t := TEmpty;
  }

  /** hdql_query_product_reserve_key and the bound compound's own form of it: a
      list with one key for each query. */
  method ReserveProduct(mem: Memory, joins: seq<AttrDef>, k: Loc) returns (rc: Rc, ghost t: Tree)
    requires mem.Valid() && mem.Live(k) && joins != []
    requires forall j :: 0 <= j < |joins| ==> joins[j].Join? && Keyed(joins[j].factor)
    modifies mem
    ensures mem.Valid() && mem.freed == old(mem.freed)
    ensures rc == Ok <==> old(IsEmpty(mem.Get(k)))
    ensures rc != Ok ==> mem.blocks == old(mem.blocks)
    ensures rc == Ok ==>
              && t.TList? && Value(t) == KeyList(BlankAll(joins))
              && Grown(old(mem.blocks), mem.blocks, k, old(mem.Get(k)).(plType := List, pl := t.addr), t)
    decreases joins, 0
  {
    hide Filling, Grown, Marked, Rep, Distinct, BlankCells;
    ghost var m0, c := mem.blocks, mem.Get(k);
    var n := |joins|;
    t := TEmpty;
    rc := MarkAsList(mem, k, n);
    if rc != Ok { return; }
    c := mem.Get(k);
    var a := mem.Get(k).pl;
    ghost var m1, ts := mem.blocks, [];
    FillStart(m0, m1, k, c, n);
    var i: nat := 0;
    while i < n
      invariant i == |ts| <= n && mem.Valid() && mem.freed == old(mem.freed) && rc == Ok
      invariant Filling(m1, mem.blocks, a, n, ts, true)
      invariant forall j :: 0 <= j < i ==> Value(ts[j]) == Blank(joins[j])
    {
      FillCell(m1, mem.blocks, a, n, ts, true);
      ghost var m := mem.blocks;
      ghost var item;
      rc, item := ReserveForQuery(mem, joins[i].factor, Loc(a, i));
      FillStep(m1, m, mem.blocks, a, n, ts, true, m[a].cells[i].(plType := List, pl := item.addr), item);
      ts := ts + [item];
      i := i + 1;
    }
    t := TList(a, ts);
    FillKept(m1, mem.blocks, a, n, ts);
    FillEnd(m0, m1, mem.blocks, mem.blocks, k, c, n, ts, true);
    assert Values(ts) == BlankAll(joins);
  }

  /** hdql_key_new. */
  method NewKey(mem: Memory) returns (k: Loc)
    requires mem.Valid()
    modifies mem
    ensures mem.Valid() && mem.freed == old(mem.freed)
    ensures k.addr !in old(mem.blocks) && k.idx == 0
    ensures mem.blocks == old(mem.blocks)[k.addr := KeyTrees.Keys([EMPTY])]
    ensures mem.Live(k) && mem.Get(k) == EMPTY
  {
    var a := mem.Alloc(KeyTrees.Keys([EMPTY]));
    k := Loc(a, 0);
  }

  /** A new key reserved for the query. */
  method NewReserved(mem: Memory, ads: seq<AttrDef>) returns (k: Loc, ghost t: Tree)
    requires mem.Valid() && Keyed(ads)
    modifies mem
    ensures mem.Valid() && mem.freed == old(mem.freed)
    ensures t.TList? && Value(t) == KeyList(BlankAll(ads))
    ensures Owned(old(mem.blocks), mem.blocks, k, t)
  {
    ghost var m0 := mem.blocks;
    k := NewKey(mem);
    ghost var m1 := mem.blocks;
    var rc;
    rc, t := ReserveForQuery(mem, ads, k);
  }

  /** The root `k` and the blocks of its key are all that is new. */
  ghost predicate Owned(m0: map<nat, Block>, m: map<nat, Block>, k: Loc, t: Tree) {
    && k.addr !in m0 && k.addr in m && k.idx == 0
    && m[k.addr].Keys? && |m[k.addr].cells| == 1 && Rep(m, m[k.addr].cells[0], t)
    && Distinct(Blocks(t)) && k.addr !in Blocks(t)
    && (forall a :: a in Blocks(t) ==> a !in m0)
    && m - Addresses(Blocks(t)) - {k.addr} == m0
  }

  lemma OwnedParts(m0: map<nat, Block>, m: map<nat, Block>, k: Loc, t: Tree)
    requires Owned(m0, m, k, t)
    ensures k.addr in m && k.idx == 0 && m[k.addr].Keys? && |m[k.addr].cells| == 1 && Rep(m, m[k.addr].cells[0], t)
    ensures Distinct(Blocks(t)) && k.addr !in Blocks(t)
  {
  }

  lemma StillOwned(m0: map<nat, Block>, m: map<nat, Block>, m': map<nat, Block>, k: Loc, t: Tree, k': Loc, t': Tree)
    requires Owned(m0, m, k, t) && Owned(m, m', k', t')
    ensures k'.addr != k.addr && k'.addr !in Blocks(t) && k.addr !in Blocks(t') && Apart(t', t)
    ensures k.addr in m' && m'[k.addr] == m[k.addr] && Rep(m', m'[k.addr].cells[0], t)
  {
    RepLive(m, m[k.addr].cells[0], t);
    forall a | a in m
      ensures a in m' && m'[a] == m[a]
    {
      assert a in m' - Addresses(Blocks(t')) - {k'.addr};
    }
    RepFrame(m, m', m[k.addr].cells[0], m[k.addr].cells[0], t);
  }

  /** The keys were reserved for the query, and hold any values. */
  ghost predicate OfQuery(ads: seq<AttrDef>, t: Tree) {
    t.TList? && ReservedChain(ads, Values(t.items))
  }

  /** Two keys of one query, holding any values: copying always succeeds, and the
      flat views of both then show the same data, those of the source, in leaf
      order. */
  method CopyAndView(mem: Memory, ads: seq<AttrDef>, dest: Loc, src: Loc, ghost td: Tree, ghost ts: Tree)
    returns (rc: Rc, view: array<Loc>, view': array<Loc>, ghost now: Tree)
    requires mem.Valid() && mem.Live(dest) && mem.Live(src)
    requires Rep(mem.blocks, mem.Get(dest), td) && Rep(mem.blocks, mem.Get(src), ts)
    requires Distinct(Blocks(td)) && Apart(td, ts) && dest.addr !in Blocks(td) && src.addr !in Blocks(td)
    requires OfQuery(ads, td) && OfQuery(ads, ts)
    modifies mem
    ensures rc == Ok
    ensures view.Length == view'.Length == |Flat(Value(ts))| == |Flat(Value(td))|
    ensures Viewed(mem.blocks, view[..], 0, Flat(Value(ts))) && Viewed(mem.blocks, view'[..], 0, Flat(Value(ts)))
    ensures mem.Valid() && mem.freed == old(mem.freed) && mem.blocks.Keys == old(mem.blocks.Keys)
    ensures mem.Live(dest) && Rep(mem.blocks, mem.Get(dest), now)
    ensures Blocks(now) == Blocks(td) && Value(now) == Value(ts)
    ensures forall a :: a in mem.blocks && a !in Blocks(td) ==> mem.blocks[a] == old(mem.blocks)[a]
  {
    hide Rep, Distinct, Flat, SameKinds, SameCodes, Apart, Viewed, OfQuery;
    ghost var m0, cs := mem.blocks, mem.Get(src);
    OneQuery(ads, td, ts);
    SameSize(td, ts);
    rc, now := CopyValue(mem, dest, src, td, ts);
    SourceKept(m0, mem.blocks, cs, td, ts);
    var size := FlatViewSize(mem, src, ts);
    var size' := FlatViewSize(mem, dest, now);
    view := new Loc[size];
    view' := new Loc[size'];
    var next := FlatViewPopulate(mem, src, view, 0, ts);
    ghost var shown := view[..];
    next := FlatViewPopulate(mem, dest, view', 0, now);
    assert view[..] == shown;
  }

  lemma {:induction false} SameSize(a: Tree, b: Tree)
    requires SameKinds(a, b)
    ensures |Flat(Value(a))| == |Flat(Value(b))|
    decreases a, 0
  {
    if a.TList? { SameSizes(a.items, b.items); }
  }

  lemma {:induction false} SameSizes(a: seq<Tree>, b: seq<Tree>)
    requires |a| == |b| && forall i :: 0 <= i < |a| ==> SameKinds(a[i], b[i])
    ensures |FlatAll(Values(a))| == |FlatAll(Values(b))|
    decreases a, 1
  {
    if a != [] {
      SameSize(a[0], b[0]);
      SameSizes(a[1..], b[1..]);
    }
  }

  /** The life of two keys of one query: the second takes the value of the first,
      whatever they hold, their flat views agree, and destroying both frees every
      block of theirs exactly once and nothing else. */
  method TwoKeys(mem: Memory, ads: seq<AttrDef>, k: Loc, k': Loc, ghost t: Tree, ghost t': Tree,
      ghost m0: map<nat, Block>, ghost m1: map<nat, Block>)
    returns (rc: Rc, view: array<Loc>, view': array<Loc>, ghost m: map<nat, Block>, ghost gone: seq<nat>)
    requires mem.Valid() && Owned(m0, m1, k, t) && Owned(m1, mem.blocks, k', t')
    requires OfQuery(ads, t) && OfQuery(ads, t')
    modifies mem
    ensures rc == Ok && m.Keys == old(mem.blocks.Keys)
    ensures view.Length == view'.Length == |Flat(Value(t))| == |Flat(Value(t'))|
    ensures Viewed(m, view[..], 0, Flat(Value(t))) && Viewed(m, view'[..], 0, Flat(Value(t)))
    ensures mem.Valid() && mem.blocks == m0
    ensures mem.freed == old(mem.freed) + gone && Distinct(gone)
    ensures Addresses(gone) == old(mem.blocks.Keys) - m0.Keys
  {
    hide Rep, Distinct, Flat, Owned, Apart, Viewed, OfQuery;
    ghost var m2 := mem.blocks;
    OwnedParts(m0, m1, k, t);
    OwnedParts(m1, m2, k', t');
    StillOwned(m0, m1, m2, k, t, k', t');
    ghost var u;
    rc, view, view', u := CopyAndView(mem, ads, k', k, t', t);
    m := mem.blocks;
    CopyOwned(m1, m2, m, k', t', u);
    DestroyOwned(mem, k', u, m1);
    DestroyOwned(mem, k, t, m0);
    gone := (Blocks(u) + [k'.addr]) + (Blocks(t) + [k.addr]);
    GoneOnce(m0, m1, m, k, t, k', u);
  }

  /** Two keys just reserved for a query meet the conditions. */
  method ReserveTwo(mem: Memory, ads: seq<AttrDef>)
    returns (k: Loc, k': Loc, ghost t: Tree, ghost t': Tree, ghost m1: map<nat, Block>)
    requires mem.Valid() && Keyed(ads)
    modifies mem
    ensures mem.Valid() && mem.freed == old(mem.freed)
    ensures Owned(old(mem.blocks), m1, k, t) && Owned(m1, mem.blocks, k', t')
    ensures OfQuery(ads, t) && OfQuery(ads, t')
  {
    BlankReserved(ads);
    k, t := NewReserved(mem, ads);
    m1 := mem.blocks;
    k', t' := NewReserved(mem, ads);
  }

  /** hdql_key_destroy on a key that owns its root. */
  method DestroyOwned(mem: Memory, k: Loc, ghost t: Tree, ghost m0: map<nat, Block>)
    requires mem.Valid() && Owned(m0, mem.blocks, k, t)
    modifies mem
    ensures mem.Valid() && mem.blocks == m0 && mem.freed == old(mem.freed) + (Blocks(t) + [k.addr])
  {
    DestroyAt(mem, k, true, t);
    assert Blocks(t) + [k.addr] == Blocks(t) + ([k.addr] + []);
  }

  lemma GoneOnce(m0: map<nat, Block>, m: map<nat, Block>, m': map<nat, Block>, k: Loc, t: Tree, k': Loc, t': Tree)
    requires Owned(m0, m, k, t) && Owned(m, m', k', t')
    ensures var gone := (Blocks(t') + [k'.addr]) + (Blocks(t) + [k.addr]);
            Distinct(gone) && Addresses(gone) == m'.Keys - m0.Keys
  {
    StillOwned(m0, m, m', k, t, k', t');
    DistinctJoin(Blocks(t'), [k'.addr]);
    DistinctJoin(Blocks(t), [k.addr]);
    DistinctJoin(Blocks(t') + [k'.addr], Blocks(t) + [k.addr]);
    OwnedKeys(m0, m, k, t);
    OwnedKeys(m, m', k', t');
  }

  lemma OwnedKeys(m0: map<nat, Block>, m: map<nat, Block>, k: Loc, t: Tree)
    requires Owned(m0, m, k, t)
    ensures m.Keys == m0.Keys + Addresses(Blocks(t)) + {k.addr}
    ensures m0.Keys !! Addresses(Blocks(t)) && k.addr !in m0.Keys
  {
    RepLive(m, m[k.addr].cells[0], t);
    forall a | a in m
      ensures a in m0 || a in Addresses(Blocks(t)) || a == k.addr
    {
      if a !in Addresses(Blocks(t)) && a != k.addr { assert a in m - Addresses(Blocks(t)) - {k.addr}; }
    }
    forall a | a in m0
      ensures a in m
    {
      assert a in m - Addresses(Blocks(t)) - {k.addr};
    }
  }

  lemma OneQuery(ads: seq<AttrDef>, a: Tree, b: Tree)
    requires OfQuery(ads, a) && OfQuery(ads, b)
    ensures SameKinds(a, b) && SameCodes(a, b)
  {
    ReservedAlike(ads, a.items, b.items);
  }

  lemma CopyOwned(m0: map<nat, Block>, m: map<nat, Block>, m': map<nat, Block>, k: Loc, t: Tree, u: Tree)
    requires Owned(m0, m, k, t) && m'.Keys == m.Keys && Blocks(u) == Blocks(t)
    requires forall a :: a in m && a !in Blocks(t) ==> m'[a] == m[a]
    requires Rep(m', m[k.addr].cells[0], u)
    ensures Owned(m0, m', k, u)
  {
    assert m' - Addresses(Blocks(t)) - {k.addr} == m - Addresses(Blocks(t)) - {k.addr};
  }

  /** Only keys with a datum are in a flat view. */
  predicate AllData(keys: seq<KeyTree>) {
    forall i :: 0 <= i < |keys| ==> keys[i].KeyDatum?
  }

  lemma {:induction false} FlatData(key: KeyTree)
    ensures AllData(Flat(key))
    decreases key, 0
  {
    if key.KeyList? { FlatAllData(key.items); }
  }

  lemma {:induction false} FlatAllData(keys: seq<KeyTree>)
    ensures AllData(FlatAll(keys))
    decreases keys, 1
  {
    if keys != [] {
      FlatData(keys[0]);
      FlatAllData(keys[1..]);
    }
  }

  /** The first `n` keys of two flat views have the same type codes. */
  predicate Agree(a: seq<KeyTree>, b: seq<KeyTree>, n: nat) {
    && AllData(a) && AllData(b) && n <= |a| && n <= |b|
    && forall j :: 0 <= j < n ==> a[j].code == b[j].code
  }

  /** Flat view `c` is `b` as far as the type codes of `a` agree with it, and `a` from
      the first difference on. */
  predicate Merged(a: seq<KeyTree>, b: seq<KeyTree>, c: seq<KeyTree>) {
    && |a| == |b| == |c|
    && forall i :: 0 <= i < |a| ==> c[i] == if Agree(a, b, i + 1) then b[i] else a[i]
  }

  lemma AgreeConcat(a: seq<KeyTree>, b: seq<KeyTree>, a': seq<KeyTree>, b': seq<KeyTree>, n: nat)
    requires |a| == |b| && |a'| == |b'| && n <= |a| + |a'|
    requires AllData(a) && AllData(b) && AllData(a') && AllData(b')
    ensures n <= |a| ==> (Agree(a + a', b + b', n) <==> Agree(a, b, n))
    ensures n > |a| ==> (Agree(a + a', b + b', n) <==> Agree(a, b, |a|) && Agree(a', b', n - |a|))
  {
    var x, y := a + a', b + b';
    assert forall j :: 0 <= j < |a'| ==> x[|a| + j] == a'[j] && y[|a| + j] == b'[j];
    assert forall j :: |a| <= j < |x| ==> x[j] == a'[j - |a|] && y[j] == b'[j - |a|];
    assert forall j :: 0 <= j < |a| ==> x[j] == a[j] && y[j] == b[j];
  }

  lemma MergedConcat(a: seq<KeyTree>, b: seq<KeyTree>, c: seq<KeyTree>, a': seq<KeyTree>, b': seq<KeyTree>,
      c': seq<KeyTree>)
    requires Merged(a, b, c) && |a'| == |b'| && AllData(a) && AllData(b) && AllData(a') && AllData(b')
    requires if Agree(a, b, |a|) then Merged(a', b', c') else c' == a'
    ensures Merged(a + a', b + b', c + c')
  {
    var x, y, z := a + a', b + b', c + c';
    hide Agree, AllData;
    forall i | 0 <= i < |x|
      ensures z[i] == if Agree(x, y, i + 1) then y[i] else x[i]
    {
      AgreeConcat(a, b, a', b', i + 1);
    }
  }

  /** Two keys of the same kinds have the same type codes if their flat views do, and
      copying one into the other replaces the data of the flat view up to the first
      key whose code differs. */
  lemma {:induction false} CopiedFlat(d: Tree, s: Tree)
    requires SameKinds(d, s)
    ensures |Flat(Value(d))| == |Flat(Value(s))|
    ensures SameCodes(d, s) <==> Agree(Flat(Value(d)), Flat(Value(s)), |Flat(Value(d))|)
    ensures Merged(Flat(Value(d)), Flat(Value(s)), Flat(Value(Copied(d, s))))
    decreases d, 0
  {
    FlatData(Value(d));
    FlatData(Value(s));
    match d
    case TEmpty =>
    case TDatum(_, _, _) => assert Flat(Value(d))[0] == Value(d) && Flat(Value(s))[0] == Value(s);
    case TList(_, items) => CopiedAllFlat(items, s.items);
  }

  lemma {:induction false} CopiedAllFlat(ds: seq<Tree>, ss: seq<Tree>)
    requires |ds| == |ss| && forall i :: 0 <= i < |ds| ==> SameKinds(ds[i], ss[i])
    ensures var a, b := FlatAll(Values(ds)), FlatAll(Values(ss));
            && |a| == |b|
            && ((forall i :: 0 <= i < |ds| ==> SameCodes(ds[i], ss[i])) <==> Agree(a, b, |a|))
            && Merged(a, b, FlatAll(Values(CopiedItems(ds, ss))))
    decreases ds, 1
  {
    hide *;
    if ds == [] {
      NoneCopied();
    } else {
      var a, b, a', b' := Flat(Value(ds[0])), Flat(Value(ss[0])), FlatAll(Values(ds[1..])), FlatAll(Values(ss[1..]));
      CopiedFlat(ds[0], ss[0]);
      CopiedAllFlat(ds[1..], ss[1..]);
      FlatData(Value(ds[0]));
      FlatData(Value(ss[0]));
      FlatAllData(Values(ds[1..]));
      FlatAllData(Values(ss[1..]));
      AgreeAll(a, b, a', b');
      var c := Copied(ds[0], ss[0]);
      var rest := if SameCodes(ds[0], ss[0]) then CopiedItems(ds[1..], ss[1..]) else ds[1..];
      CopiedHead(ds, ss, c, rest);
      MergedConcat(a, b, Flat(Value(c)), a', b', FlatAll(Values(rest)));
      assert forall i :: 1 <= i < |ds| ==> ds[i] == ds[1..][i - 1] && ss[i] == ss[1..][i - 1];
    }
  }

  lemma NoneCopied()
    ensures FlatAll(Values([])) == [] && CopiedItems([], []) == [] && Agree([], [], 0) && Merged([], [], [])
  {
  }

  /** Where nothing follows, the first part decides. */
  lemma AgreeAll(a: seq<KeyTree>, b: seq<KeyTree>, a': seq<KeyTree>, b': seq<KeyTree>)
    requires |a| == |b| && |a'| == |b'| && AllData(a) && AllData(b) && AllData(a') && AllData(b')
    ensures Agree(a + a', b + b', |a| + |a'|) <==> Agree(a, b, |a|) && Agree(a', b', |a'|)
  {
    hide Agree, AllData;
    AgreeConcat(a, b, a', b', |a| + |a'|);
    NoneAgree(a', b');
    if a' == [] {
      assert |a| + |a'| == |a|;
    }
  }

  lemma NoneAgree(a: seq<KeyTree>, b: seq<KeyTree>)
    requires AllData(a) && AllData(b)
    ensures Agree(a, b, 0)
  {
  }

  lemma CopiedHead(ds: seq<Tree>, ss: seq<Tree>, c: Tree, rest: seq<Tree>)
    requires |ds| == |ss| > 0 && forall i :: 0 <= i < |ds| ==> SameKinds(ds[i], ss[i])
    requires c == Copied(ds[0], ss[0])
    requires rest == if SameCodes(ds[0], ss[0]) then CopiedItems(ds[1..], ss[1..]) else ds[1..]
    ensures CopiedItems(ds, ss) == [c] + rest
    ensures FlatAll(Values(ds)) == Flat(Value(ds[0])) + FlatAll(Values(ds[1..]))
    ensures FlatAll(Values(ss)) == Flat(Value(ss[0])) + FlatAll(Values(ss[1..]))
    ensures FlatAll(Values([c] + rest)) == Flat(Value(c)) + FlatAll(Values(rest))
  {
    hide Copied, SameCodes, SameKinds, Flat;
    assert ([c] + rest)[1..] == rest;
    assert Values(ds)[1..] == Values(ds[1..]) && Values(ss)[1..] == Values(ss[1..]);
    assert Values([c] + rest)[1..] == Values(rest);
  }

  predicate AllZero(keys: seq<KeyTree>) {
    forall i :: 0 <= i < |keys| ==> keys[i].KeyDatum? && keys[i].value == 0
  }

  /** All data of a key just reserved are zero. */
  lemma {:induction false} BlankZero(ads: seq<AttrDef>)
    ensures AllZero(FlatAll(BlankAll(ads)))
    decreases ads, 1
  {
    if ads != [] {
      BlankLevelZero(ads[0]);
      BlankZero(ads[1..]);
      assert BlankAll(ads)[1..] == BlankAll(ads[1..]);
    }
  }

  lemma {:induction false} BlankLevelZero(ad: AttrDef)
    ensures AllZero(Flat(Blank(ad)))
    decreases ad, 0
  {
    match ad
    case Collection(_, _) =>
    case Scalar(_, _) =>
    case Filter(_, _) =>
    case Fwd(sub) => BlankZero(sub);
    case Join(factor) => BlankZero(factor);
    case Bound(joins, _, _) => BlankZero(joins);
  }
}
