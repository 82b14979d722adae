/** The chained hash table: an array of 2^capacity buckets, doubled now and
    then, that behaves like a map. */
module HashTable {
  import opened Arithmetic

  datatype Rc = OK | UPDATED | INSERTED | ERR_MEM | ERR_NOENT | ERR_ENTRY

  datatype Entry<K, V> = Entry(key: K, value: V)

  predicate HasKey<K(==), V>(es: seq<Entry<K, V>>, k: K) {
    exists j :: 0 <= j < |es| && es[j].key == k
  }

  predicate DistinctKeys<K(==), V>(es: seq<Entry<K, V>>) {
    forall i, j :: 0 <= i < j < |es| ==> es[i].key != es[j].key
  }

  /** All entries of bucket `b` belong there and are in the map. */
  predicate BucketOk<K(==), V(==)>(es: seq<Entry<K, V>>, b: nat, n: nat, hash: K -> nat, contents: map<K, V>)
    requires n > 0
  {
    && DistinctKeys(es)
    && forall j :: 0 <= j < |es| ==>
         hash(es[j].key) % n == b && es[j].key in contents && contents[es[j].key] == es[j].value
  }

  /** The buckets hold exactly the pairs of the map, each in the bucket that its
      hash masks to and nowhere else. */
  ghost predicate Represents<K, V>(bs: seq<seq<Entry<K, V>>>, hash: K -> nat, contents: map<K, V>) {
    && |bs| > 0
    && (forall b :: 0 <= b < |bs| ==> BucketOk(bs[b], b, |bs|, hash, contents))
    && (forall k :: k in contents ==> HasKey(bs[hash(k) % |bs|], k))
  }

  lemma EntryUpdated<K, V>(bs: seq<seq<Entry<K, V>>>, hash: K -> nat, contents: map<K, V>, nb: nat, i: nat, k: K, v: V)
    requires Represents(bs, hash, contents) && nb < |bs| && i < |bs[nb]| && bs[nb][i].key == k
    ensures Represents(bs[nb := bs[nb][i := Entry(k, v)]], hash, contents[k := v]) && k in contents
  {
    var es, us := bs[nb], bs[nb][i := Entry(k, v)];
    var cs := bs[nb := us];
    assert BucketOk(es, nb, |bs|, hash, contents);
    assert BucketOk(us, nb, |bs|, hash, contents[k := v]);
    forall b | 0 <= b < |bs| && b != nb
      ensures BucketOk(cs[b], b, |cs|, hash, contents[k := v])
    {
      assert BucketOk(bs[b], b, |bs|, hash, contents);
    }
    forall x | x in contents[k := v]
      ensures HasKey(cs[hash(x) % |cs|], x)
    {
      var j :| 0 <= j < |bs[hash(x) % |bs|]| && bs[hash(x) % |bs|][j].key == x;
      assert cs[hash(x) % |cs|][j].key == x;
    }
  }

  lemma EntryInserted<K, V>(bs: seq<seq<Entry<K, V>>>, hash: K -> nat, contents: map<K, V>, nb: nat, k: K, v: V)
    requires Represents(bs, hash, contents) && nb == hash(k) % |bs| && k !in contents
    ensures Represents(bs[nb := [Entry(k, v)] + bs[nb]], hash, contents[k := v])
  {
    var es, us := bs[nb], [Entry(k, v)] + bs[nb];
    var cs := bs[nb := us];
    assert BucketOk(es, nb, |bs|, hash, contents);
    assert BucketOk(us, nb, |bs|, hash, contents[k := v]);
    forall b | 0 <= b < |bs| && b != nb
      ensures BucketOk(cs[b], b, |cs|, hash, contents[k := v])
    {
      assert BucketOk(bs[b], b, |bs|, hash, contents);
    }
    forall x | x in contents[k := v]
      ensures HasKey(cs[hash(x) % |cs|], x)
    {
      if x == k {
        assert us[0].key == k;
      } else {
        var j :| 0 <= j < |bs[hash(x) % |bs|]| && bs[hash(x) % |bs|][j].key == x;
        assert cs[hash(x) % |cs|][if hash(x) % |bs| == nb then j + 1 else j].key == x;
      }
    }
  }

  lemma EntryErased<K, V>(bs: seq<seq<Entry<K, V>>>, hash: K -> nat, contents: map<K, V>, nb: nat, i: nat)
    requires Represents(bs, hash, contents) && nb < |bs| && i < |bs[nb]|
    ensures Represents(bs[nb := bs[nb][..i] + bs[nb][i + 1..]], hash, contents - {bs[nb][i].key})
    ensures bs[nb][i].key in contents
  {
    var es, us, k := bs[nb], bs[nb][..i] + bs[nb][i + 1..], bs[nb][i].key;
    var cs := bs[nb := us];
    assert BucketOk(es, nb, |bs|, hash, contents);
    assert forall j :: 0 <= j < |us| ==> us[j] == es[if j < i then j else j + 1];
    assert BucketOk(us, nb, |bs|, hash, contents - {k});
    forall b | 0 <= b < |bs| && b != nb
      ensures BucketOk(cs[b], b, |cs|, hash, contents - {k})
    {
      assert BucketOk(bs[b], b, |bs|, hash, contents);
    }
    forall x | x in contents - {k}
      ensures HasKey(cs[hash(x) % |cs|], x)
    {
      var j :| 0 <= j < |bs[hash(x) % |bs|]| && bs[hash(x) % |bs|][j].key == x;
      assert cs[hash(x) % |cs|][if hash(x) % |bs| == nb && j > i then j - 1 else j].key == x;
    }
  }

  /** Keys of the first `i` buckets and of the first `j` entries of bucket `i`. */
  ghost predicate Visited<K, V>(bs: seq<seq<Entry<K, V>>>, hash: K -> nat, i: nat, j: nat, k: K) {
    && |bs| > 0
    && (hash(k) % |bs| < i || (hash(k) % |bs| == i && i < |bs| && j <= |bs[i]| && HasKey(bs[i][..j], k)))
  }

  /** Rehashing in progress: `ns` holds exactly the visited pairs. */
  ghost predicate Rehashing<K(!new), V>(bs: seq<seq<Entry<K, V>>>, ns: seq<seq<Entry<K, V>>>, hash: K -> nat,
      contents: map<K, V>, i: nat, j: nat) {
    && |ns| > 0
    && (forall b :: 0 <= b < |ns| ==> BucketOk(ns[b], b, |ns|, hash, contents))
    && (forall k :: k in contents ==> (HasKey(ns[hash(k) % |ns|], k) <==> Visited(bs, hash, i, j, k)))
  }

  lemma RehashStart<K(!new), V>(bs: seq<seq<Entry<K, V>>>, ns: seq<seq<Entry<K, V>>>, hash: K -> nat,
      contents: map<K, V>)
    requires Represents(bs, hash, contents) && |ns| > 0 && forall b :: 0 <= b < |ns| ==> ns[b] == []
    ensures Rehashing(bs, ns, hash, contents, 0, 0)
  {
  }

  lemma RehashStep<K(!new), V>(bs: seq<seq<Entry<K, V>>>, ns: seq<seq<Entry<K, V>>>, hash: K -> nat, contents: map<K,
      V>, i: nat, j: nat)
    requires Represents(bs, hash, contents) && Rehashing(bs, ns, hash, contents, i, j) && i < |bs| && j < |bs[i]|
    ensures var e := bs[i][j];
            var nb := hash(e.key) % |ns|;
            Rehashing(bs, ns[nb := [e] + ns[nb]], hash, contents, i, j + 1)
  {
    var e := bs[i][j];
    var nb := hash(e.key) % |ns|;
    var ms := ns[nb := [e] + ns[nb]];
    assert BucketOk(bs[i], i, |bs|, hash, contents);
    assert !HasKey(bs[i][..j], e.key);
    assert !Visited(bs, hash, i, j, e.key);
    assert BucketOk(ns[nb], nb, |ns|, hash, contents);
    assert BucketOk(ms[nb], nb, |ms|, hash, contents);
    forall b | 0 <= b < |ns| && b != nb
      ensures BucketOk(ms[b], b, |ms|, hash, contents)
    {
      assert BucketOk(ns[b], b, |ns|, hash, contents);
    }
    assert bs[i][..j + 1] == bs[i][..j] + [e];
    forall k | k in contents
      ensures HasKey(ms[hash(k) % |ms|], k) <==> Visited(bs, hash, i, j + 1, k)
    {
      HasKeyConcat(bs[i][..j], [e], k);
      HasKeyConcat([e], ns[nb], k);
      assert HasKey([e], k) <==> e.key == k by { assert [e][0] == e; }
    }
  }

  lemma HasKeyConcat<K, V>(a: seq<Entry<K, V>>, b: seq<Entry<K, V>>, k: K)
    ensures HasKey(a + b, k) <==> HasKey(a, k) || HasKey(b, k)
  {
    if j :| 0 <= j < |a| && a[j].key == k { assert (a + b)[j].key == k; }
    if j :| 0 <= j < |b| && b[j].key == k { assert (a + b)[|a| + j].key == k; }
    if HasKey(a + b, k) {
      var j :| 0 <= j < |a + b| && (a + b)[j].key == k;
      assert if j < |a| then a[j].key == k else b[j - |a|].key == k;
    }
  }

  lemma RehashRow<K(!new), V>(bs: seq<seq<Entry<K, V>>>, ns: seq<seq<Entry<K, V>>>, hash: K -> nat, contents: map<K,
      V>, i: nat)
    requires Represents(bs, hash, contents) && i < |bs| && Rehashing(bs, ns, hash, contents, i, |bs[i]|)
    ensures Rehashing(bs, ns, hash, contents, i + 1, 0)
  {
    forall k | k in contents
      ensures Visited(bs, hash, i, |bs[i]|, k) <==> Visited(bs, hash, i + 1, 0, k)
    {
      assert bs[i][..|bs[i]|] == bs[i];
      assert HasKey(bs[hash(k) % |bs|], k);
    }
  }

  lemma RehashEnd<K(!new), V>(bs: seq<seq<Entry<K, V>>>, ns: seq<seq<Entry<K, V>>>, hash: K -> nat, contents: map<K, V>)
    requires Represents(bs, hash, contents) && Rehashing(bs, ns, hash, contents, |bs|, 0)
    ensures Represents(ns, hash, contents)
  {
    forall k | k in contents
      ensures HasKey(ns[hash(k) % |ns|], k)
    {
      assert Visited(bs, hash, |bs|, 0, k);
    }
  }

  /** Doubling sends a pair of bucket `b` to `b` or to `b + n`. */
  lemma Doubling(h: nat, n: nat)
    requires n > 0
    ensures h % (2 * n) == h % n || h % (2 * n) == h % n + n
  {
    var q, r := h / (2 * n), h % (2 * n);
    assert h == 2 * n * q + r;
    if r < n {
      assert h == (2 * q) * n + r by { Assoc(n, q); }
      Quotient(h, n, 2 * q, r);
    } else {
      assert h == (2 * q + 1) * n + (r - n) by { Assoc(n, q); }
      Quotient(h, n, 2 * q + 1, r - n);
    }
  }

  lemma Assoc(n: nat, q: nat)
    ensures 2 * n * q == (2 * q) * n && (2 * q + 1) * n == (2 * q) * n + n
  {
  }

  /** The loops of hdql_ht_rebuild: every entry goes to the front of its bucket
      in the new array. */
  method Rehash<K(==,!new), V>(buckets: array<seq<Entry<K, V>>>, newBuckets: array<seq<Entry<K, V>>>, hash: K -> nat,
      ghost contents: map<K, V>)
    requires buckets != newBuckets && newBuckets.Length > 0
    requires Represents(buckets[..], hash, contents)
    requires forall b :: 0 <= b < newBuckets.Length ==> newBuckets[b] == []
    modifies newBuckets
    ensures Represents(newBuckets[..], hash, contents)
  {
    ghost var bs := buckets[..];
    RehashStart(bs, newBuckets[..], hash, contents);
    hide Represents, Rehashing, BucketOk;
    var i := 0;
    while i < buckets.Length
      invariant i <= buckets.Length
      invariant Rehashing(bs, newBuckets[..], hash, contents, i, 0)
    {
      RehashBucket(buckets, i, newBuckets, hash, contents);
      RehashRow(bs, newBuckets[..], hash, contents, i);
      i := i + 1;
    }
    RehashEnd(bs, newBuckets[..], hash, contents);
  }

  method RehashBucket<K(==,!new), V>(buckets: array<seq<Entry<K, V>>>, i: nat, newBuckets: array<seq<Entry<K, V>>>,
      hash: K -> nat, ghost contents: map<K, V>)
    requires buckets != newBuckets && i < buckets.Length && newBuckets.Length > 0
    requires Represents(buckets[..], hash, contents)
    requires Rehashing(buckets[..], newBuckets[..], hash, contents, i, 0)
    modifies newBuckets
    ensures Rehashing(buckets[..], newBuckets[..], hash, contents, i, |buckets[i]|)
  {
    hide Represents, Rehashing, BucketOk;
    ghost var bs := buckets[..];
    var j := 0;
    while j < |buckets[i]|
      invariant j <= |buckets[i]|
      invariant Rehashing(bs, newBuckets[..], hash, contents, i, j)
    {
      var entry := buckets[i][j];
      var newNB := hash(entry.key) % newBuckets.Length;
      RehashStep(bs, newBuckets[..], hash, contents, i, j);
      ghost var ns := newBuckets[..];
      newBuckets[newNB] := [entry] + newBuckets[newNB];
      assert newBuckets[..] == ns[newNB := [entry] + ns[newNB]];
      j := j + 1;
    }
  }

  /** Return code of an insertion that needs no rebuild. */
  function StoreRc(known: bool, allocKey: bool, allocEntry: bool): Rc {
    if known then UPDATED else if !allocKey then ERR_MEM else if !allocEntry then ERR_ENTRY else INSERTED
  }

  lemma StoreRcIs(known: bool, allocKey: bool, allocEntry: bool)
    ensures var rc := StoreRc(known, allocKey, allocEntry);
            && (rc == UPDATED <==> known) && (rc == INSERTED <==> !known && allocKey && allocEntry)
            && (rc == ERR_MEM <==> !known && !allocKey) && (rc == ERR_ENTRY <==> !known && allocKey && !allocEntry)
  {
  }

  /** A plain map, with the two numbers on which growth depends. */
  datatype Sheet<K, V> = Sheet(contents: map<K, V>, size: nat, capacity: nat)

  /** Operations on a table; the flags say which allocations succeed. */
  datatype Op<K, V> =
    | Put(key: K, value: V, allocBuckets: bool, allocKey: bool, allocEntry: bool)
    | Drop(key: K)
    | Grow(alloc: bool)

  function Larger(capacity: nat): nat {
    if capacity > 0 then capacity + 1 else 5
  }

  /** More than half as many records were inserted as there are buckets. */
  predicate Full<K, V>(sheet: Sheet<K, V>) {
    sheet.capacity > 0 && sheet.size > Pow2(sheet.capacity - 1)
  }

  /** What an operation does to a plain map, and its return code.  A failed insertion
      leaves the map as it was, but may have made room. */
  function Apply<K(!new), V>(sheet: Sheet<K, V>, op: Op<K, V>): (Sheet<K, V>, Rc) {
    match op
    case Put(k, v, allocBuckets, allocKey, allocEntry) =>
      if Full(sheet) && !allocBuckets then (sheet, ERR_MEM)
      else
        var room := if Full(sheet) then sheet.(capacity := Larger(sheet.capacity)) else sheet;
        var rc := StoreRc(k in sheet.contents, allocKey, allocEntry);
        if rc == UPDATED then (room.(contents := sheet.contents[k := v]), rc)
        else if rc == INSERTED then (room.(contents := sheet.contents[k := v], size := sheet.size + 1), rc)
        else (room, rc)
    case Drop(k) => (sheet.(contents := sheet.contents - {k}), if k in sheet.contents then OK else ERR_NOENT)
    case Grow(alloc) => if alloc then (sheet.(capacity := Larger(sheet.capacity)), OK) else (sheet, ERR_MEM)
  }

  lemma PutIs<K(!new), V>(sheet: Sheet<K, V>, k: K, v: V, allocBuckets: bool, allocKey: bool, allocEntry: bool)
    requires sheet.capacity > 0
    ensures var (after, rc) := Apply(sheet, Put(k, v, allocBuckets, allocKey, allocEntry));
            var full := sheet.size > Pow2(sheet.capacity - 1);
            if full && !allocBuckets then after == sheet && rc == ERR_MEM
            else
              && rc == StoreRc(k in sheet.contents, allocKey, allocEntry)
              && after.capacity == (if full then Larger(sheet.capacity) else sheet.capacity)
              && after.contents == (if rc == UPDATED || rc == INSERTED then sheet.contents[k := v] else sheet.contents)
              && after.size == sheet.size + if rc == INSERTED then 1 else 0
  {
    hide Pow2;
  }

  /** A run of operations on a plain map. */
  function Replay<K(!new), V>(sheet: Sheet<K, V>, ops: seq<Op<K, V>>): (Sheet<K, V>, seq<Rc>)
    decreases |ops|
  {
    if ops == [] then (sheet, [])
    else
      var (before, rcs) := Replay(sheet, ops[..|ops| - 1]);
      var (after, rc) := Apply(before, ops[|ops| - 1]);
      (after, rcs + [rc])
  }

  /** Number of successful direct rebuilds. */
  function Grows<K, V>(ops: seq<Op<K, V>>): nat {
    if ops == [] then 0
    else
      var last := ops[|ops| - 1];
      Grows(ops[..|ops| - 1]) + if last.Grow? && last.alloc then 1 else 0
  }

  /** So many records were inserted that a table of half the size became full. */
  predicate Doubled(size: nat, capacity: nat) {
    if capacity < 2 then size > 0 else Pow2(capacity - 2) < size
  }

  lemma RoomGrows(size: nat, capacity: nat)
    requires size <= if capacity == 0 then 0 else Pow2(capacity - 1) + 1
    ensures size <= Pow2(Larger(capacity) - 1) + 1
  {
    if capacity > 0 { Pow2Mono(capacity - 1, capacity); }
  }

  /** Doubling a full table. */
  lemma ForcedDoubling(size: nat, capacity: nat, grown: nat)
    requires 0 < capacity && grown <= capacity && Pow2(capacity - 1) < size <= Pow2(capacity - 1) + 1
    ensures Larger(capacity) == capacity + 1 && size <= Pow2(capacity)
    ensures Doubled(size, capacity + 1 - grown)
  {
    if grown < capacity { Pow2Mono(capacity - 1 - grown, capacity - 1); }
  }

  lemma DoubledMore(size: nat, capacity: int)
    requires capacity >= 0
    ensures Doubled(size, capacity) ==> Doubled(size + 1, capacity)
  {
  }

  datatype Found<V> = Missing | Value(value: V)

  class Table<K(==,!new), V> {
    var buckets: array<seq<Entry<K, V>>>
    var size: nat
    var capacity: nat     // exponent of the number of buckets
    const hash: K -> nat  // the hash under the table's seed
    ghost var contents: map<K, V>
    ghost var removed: nat  // successful removals so far
    ghost var grown: nat    // growth of the exponent by direct rebuilds
    ghost const cap0: nat

    ghost predicate Valid()
      reads this, buckets
    {
      && cap0 <= capacity <= 31 && buckets.Length == Pow2(capacity)
      && Represents(buckets[..], hash, contents)
      && size == |contents| + removed
      && size <= (if capacity == 0 then 0 else Pow2(capacity - 1) + 1)
      && cap0 + grown <= capacity
      && (capacity > cap0 + grown ==> Doubled(size, capacity - grown))
    }

    /** hdql_ht_create. */
    constructor (cap: nat, hash: K -> nat)
      requires cap <= 31
      ensures Valid() && fresh(buckets) && contents == map[] && removed == grown == 0
      ensures size == 0 && capacity == cap0 == cap && this.hash == hash
    {
      buckets := new seq<Entry<K, V>>[Pow2(cap)](_ => []);
      size, capacity := 0, cap;
      this.hash := hash;
      contents, removed, grown, cap0 := map[], 0, 0, cap;
    }

    /** The table without its buckets. */
    ghost function AsSheet(): Sheet<K, V>
      reads this
    {
      Sheet(contents, size, capacity)
    }

    /** hdql_ht_lookup: the bucket of the key, and the entry in it if any. */
    method Lookup(k: K) returns (nb: nat, entry: nat, found: bool)
      requires Valid()
      ensures nb == hash(k) % Pow2(capacity) && nb < buckets.Length
      ensures found <==> k in contents
      ensures found ==> entry < |buckets[nb]| && buckets[nb][entry] == Entry(k, contents[k])
    {
      nb := hash(k) % Pow2(capacity);
      entry := 0;
      assert BucketOk(buckets[..][nb], nb, |buckets[..]|, hash, contents);
      while entry < |buckets[nb]|
        invariant entry <= |buckets[nb]|
        invariant forall j :: 0 <= j < entry ==> buckets[nb][j].key != k
      {
        if buckets[nb][entry].key == k { return nb, entry, true; }
        entry := entry + 1;
      }
      found := false;
    }

    /** hdql_ht_get. */
    method Get(k: K) returns (r: Found<V>)
      requires Valid()
      ensures r == if k in contents then Value(contents[k]) else Missing
    {
      hide Represents;
      var nb, entry, found := Lookup(k);
      r := if found then Value(buckets[nb][entry].value) else Missing;
    }

    /** hdql_ht_rebuild; `alloc`: whether the new array can be allocated. */
    method Rebuild(alloc: bool) returns (rc: Rc)
      requires Valid() && capacity <= 30
      modifies this, buckets
      ensures Valid() && removed == old(removed)
      ensures rc == if alloc then OK else ERR_MEM
      ensures AsSheet() == if alloc then old(AsSheet()).(capacity := Larger(old(capacity))) else old(AsSheet())
      ensures !alloc ==> buckets == old(buckets) && buckets[..] == old(buckets[..]) && grown == old(grown)
      ensures alloc ==> fresh(buckets) && grown == old(grown) + Larger(old(capacity)) - old(capacity)
      ensures contents == old(contents) && size == old(size)
      ensures capacity == if !alloc then old(capacity) else if old(capacity) > 0 then old(capacity) + 1 else 5
    {
      hide Represents, Doubled;
      RoomGrows(size, capacity);
      rc := Grow(alloc);
      if rc == OK { grown := grown + capacity - old(capacity); }
    }

    /** The rebuild proper, which leaves the account of direct rebuilds alone. */
    method Grow(alloc: bool) returns (rc: Rc)
      requires buckets.Length == Pow2(capacity) && Represents(buckets[..], hash, contents)
      modifies this`buckets, this`capacity, buckets
      ensures buckets.Length == Pow2(capacity) && Represents(buckets[..], hash, contents)
      ensures rc == if alloc then OK else ERR_MEM
      ensures !alloc ==> buckets == old(buckets) && buckets[..] == old(buckets[..]) && capacity == old(capacity)
      ensures alloc ==> fresh(buckets) && capacity == Larger(old(capacity))
    {
      hide Represents;
      var newCap := if capacity > 0 then capacity + 1 else 5;
      if !alloc { return ERR_MEM; }
      var n := Pow2(newCap);
      var newBuckets := new seq<Entry<K, V>>[n](_ => []);
      Rehash(buckets, newBuckets, hash, contents);
      buckets := newBuckets;
      capacity := newCap;
      rc := OK;
    }

    /** hdql_ht_ins; the three flags say which allocations succeed. */
    method Insert(k: K, v: V, allocBuckets: bool, allocKey: bool, allocEntry: bool) returns (rc: Rc)
      requires Valid() && capacity > 0 && (size > Pow2(capacity - 1) ==> capacity <= 30)
      modifies this, buckets
      ensures Valid() && removed == old(removed) && grown == old(grown) && (buckets == old(buckets) || fresh(buckets))
      ensures (AsSheet(), rc) == Apply(old(AsSheet()), Put(k, v, allocBuckets, allocKey, allocEntry))
      ensures var (known, room) := (k in old(contents), old(size) <= Pow2(old(capacity) - 1) || allocBuckets);
              && (rc == UPDATED <==> room && known)
              && (rc == INSERTED <==> room && !known && allocKey && allocEntry)
              && (rc == ERR_MEM <==> !room || (!known && !allocKey))
              && (rc == ERR_ENTRY <==> room && !known && allocKey && !allocEntry)
      ensures contents == if rc == UPDATED || rc == INSERTED then old(contents)[k := v] else old(contents)
      ensures size == old(size) + if rc == INSERTED then 1 else 0
      ensures capacity == old(capacity) + if old(size) > Pow2(old(capacity) - 1) && allocBuckets then 1 else 0
    {
      hide Represents, Doubled, Apply, StoreRc, Pow2;
      ghost var sheet := AsSheet();
      PutIs(sheet, k, v, allocBuckets, allocKey, allocEntry);
      StoreRcIs(k in contents, allocKey, allocEntry);
      if size > Pow2(capacity - 1) {
        ForcedDoubling(size, capacity, grown);
        rc := Grow(allocBuckets);
        if rc == ERR_MEM { return; }
      }
      rc := Store(k, v, allocKey, allocEntry);
    }

    /** The insertion proper, once there is room. */
    method Store(k: K, v: V, allocKey: bool, allocEntry: bool) returns (rc: Rc)
      requires Valid() && capacity > 0 && size <= Pow2(capacity - 1)
      modifies this, buckets
      ensures Valid() && removed == old(removed) && grown == old(grown) && buckets == old(buckets)
      ensures capacity == old(capacity)
      ensures rc == StoreRc(k in old(contents), allocKey, allocEntry)
      ensures rc == UPDATED || rc == INSERTED ==> contents == old(contents)[k := v]
      ensures rc != UPDATED && rc != INSERTED ==> contents == old(contents)
      ensures size == old(size) + if rc == INSERTED then 1 else 0
    {
      hide Represents, Doubled;
      DoubledMore(size, capacity - grown);
      var nb, entry, found := Lookup(k);
      ghost var bs := buckets[..];
      if found {
        EntryUpdated(bs, hash, contents, nb, entry, k, v);
        buckets[nb] := buckets[nb][entry := Entry(k, v)];
        assert buckets[..] == bs[nb := bs[nb][entry := Entry(k, v)]];
        contents := contents[k := v];
        return UPDATED;
      }
      if !allocKey { return ERR_MEM; }
      if !allocEntry { return ERR_ENTRY; }
      EntryInserted(bs, hash, contents, nb, k, v);
      buckets[nb] := [Entry(k, v)] + buckets[nb];
      assert buckets[..] == bs[nb := [Entry(k, v)] + bs[nb]];
      contents := contents[k := v];
      size := size + 1;
      rc := INSERTED;
    }

    /** hdql_ht_remove.  The number of records is not decremented. */
    method Remove(k: K) returns (rc: Rc)
      requires Valid()
      modifies this, buckets
      ensures Valid() && buckets == old(buckets) && grown == old(grown)
      ensures (AsSheet(), rc) == Apply(old(AsSheet()), Drop(k))
      ensures contents == old(contents) - {k} && size == old(size) && capacity == old(capacity)
      ensures rc == if k in old(contents) then OK else ERR_NOENT
      ensures removed == old(removed) + if k in old(contents) then 1 else 0
    {
      hide Represents;
      var nb, entry, found := Lookup(k);
      if !found {
        assert contents - {k} == contents;
        return ERR_NOENT;
      }
      rc := Erase(nb, entry);
    }

    /** hdql_ht_erase: unlinks an entry of a bucket. */
    method Erase(nb: nat, entry: nat) returns (rc: Rc)
      requires Valid() && nb < buckets.Length
      modifies this, buckets
      ensures Valid() && buckets == old(buckets) && grown == old(grown)
      ensures size == old(size) && capacity == old(capacity)
      ensures rc == if entry < old(|buckets[nb]|) then OK else ERR_NOENT
      ensures rc == OK ==>
                && old(buckets[nb][entry].key) in old(contents)
                && contents == old(contents) - {old(buckets[nb][entry].key)} && removed == old(removed) + 1
      ensures rc != OK ==> contents == old(contents) && removed == old(removed) && buckets[..] == old(buckets[..])
    {
      hide Represents;
      var cur := 0;
      while cur < |buckets[nb]|
        invariant cur <= entry
      {
        if cur == entry {
          ghost var bs, k := buckets[..], buckets[nb][cur].key;
          EntryErased(bs, hash, contents, nb, cur);
          buckets[nb] := buckets[nb][..cur] + buckets[nb][cur + 1..];
          assert buckets[..] == bs[nb := bs[nb][..cur] + bs[nb][cur + 1..]];
          contents := contents - {k};
          removed := removed + 1;
          return OK;
        }
        cur := cur + 1;
      }
      rc := ERR_NOENT;
    }
  }

  /** Room for one more doubling as long as few records were inserted, and few
      direct rebuilds made. */
  lemma SmallCapacity(size: nat, capacity: nat, cap0: nat, grown: nat, room: nat)
    requires cap0 <= room + 1 && size <= Pow2(room) && cap0 + grown <= capacity
    requires capacity > cap0 + grown ==> Doubled(size, capacity - grown)
    ensures capacity <= room + 1 + grown
  {
    if capacity > room + 1 + grown { Pow2Mono(room, capacity - grown - 2); }
  }

  /** One operation. */
  method Step<K(==,!new), V>(t: Table<K, V>, op: Op<K, V>) returns (rc: Rc)
    requires t.Valid() && 0 < t.capacity <= 30
    modifies t, t.buckets
    ensures t.Valid() && 0 < t.capacity && (t.buckets == old(t.buckets) || fresh(t.buckets))
    ensures t.grown == old(t.grown) + if op == Grow(true) then 1 else 0
    ensures (t.AsSheet(), rc) == Apply(old(t.AsSheet()), op)
  {
    hide Represents, Doubled;
    match op
    case Put(k, v, allocBuckets, allocKey, allocEntry) => rc := t.Insert(k, v, allocBuckets, allocKey, allocEntry);
    case Drop(k) => rc := t.Remove(k);
    case Grow(alloc) => rc := t.Rebuild(alloc);
  }

  /** Any run of insertions, updates, removals and rebuilds, whichever allocations
      fail, gives the contents, the counts and the return codes that the same run
      gives on a plain map.  It needs room for the buckets: `room` bits for the
      records, and one for each direct rebuild. */
  method Run<K(==,!new), V>(t: Table<K, V>, ops: seq<Op<K, V>>, ghost room: nat) returns (rcs: seq<Rc>)
    requires t.Valid() && 0 < t.capacity && t.cap0 <= room + 1
    requires t.size + |ops| <= Pow2(room) && room + t.grown + Grows(ops) <= 29
    modifies t, t.buckets
    ensures t.Valid() && 0 < t.capacity
    ensures (t.AsSheet(), rcs) == Replay(old(t.AsSheet()), ops)
    ensures |t.contents| <= t.size <= Pow2(t.capacity - 1) + 1
    ensures t.size == |t.contents| + t.removed
  {
    hide Apply, Replay, Grows, Represents, Doubled, Pow2;
    var i := 0;
    rcs := [];
    ghost var sheet0, grown0 := t.AsSheet(), t.grown;
    ReplayStep(sheet0, ops, 0);
    while i < |ops|
      invariant i <= |ops| && t.Valid() && 0 < t.capacity && (t.buckets == old(t.buckets) || fresh(t.buckets))
      invariant t.size <= sheet0.size + i && sheet0.size + |ops| <= Pow2(room) && t.grown == grown0 + Grows(ops[..i])
      invariant (t.AsSheet(), rcs) == Replay(sheet0, ops[..i])
    {
      ReplayStep(sheet0, ops, i);
      RoomLeft(t, ops, i, room, grown0);
      var rc := Step(t, ops[i]);
      rcs := rcs + [rc];
      i := i + 1;
    }
    assert ops[..|ops|] == ops;
    Load(t);
  }

  lemma RoomLeft<K(!new), V>(t: Table<K, V>, ops: seq<Op<K, V>>, i: nat, room: nat, grown0: nat)
    requires t.Valid() && t.cap0 <= room + 1 && i < |ops| && t.size + |ops| - i <= Pow2(room)
    requires t.grown == grown0 + Grows(ops[..i]) && room + grown0 + Grows(ops) <= 29
    ensures t.capacity <= 30
  {
    hide Represents, Doubled, Pow2;
    GrowsPrefix(ops, i);
    SmallCapacity(t.size, t.capacity, t.cap0, t.grown, room);
  }

  lemma ReplayStep<K(!new), V>(sheet: Sheet<K, V>, ops: seq<Op<K, V>>, i: nat)
    ensures Replay(sheet, ops[..0]) == (sheet, []) && Grows(ops[..0]) == 0
    ensures i < |ops| ==>
              var (before, rcs) := Replay(sheet, ops[..i]);
              var (after, rc) := Apply(before, ops[i]);
              && Replay(sheet, ops[..i + 1]) == (after, rcs + [rc]) && after.size <= before.size + 1
              && Grows(ops[..i + 1]) == Grows(ops[..i]) + if ops[i] == Grow(true) then 1 else 0
  {
    if i < |ops| { assert ops[..i + 1][..i] == ops[..i] && ops[..i + 1][i] == ops[i]; }
  }

  predicate Touches<K(==), V>(op: Op<K, V>, k: K) {
    match op
    case Put(key, _, _, _, _) => key == k
    case Drop(key) => key == k
    case Grow(_) => false
  }

  /** A pair stays, and a missing key stays missing, until its key is used again;
      neither failed insertions nor rebuilds change that. */
  lemma {:induction false} Untouched<K(!new), V>(sheet: Sheet<K, V>, ops: seq<Op<K, V>>, k: K)
    requires forall i :: 0 <= i < |ops| ==> !Touches(ops[i], k)
    ensures var after := Replay(sheet, ops).0.contents;
            (k in after <==> k in sheet.contents) && (k in after ==> after[k] == sheet.contents[k])
    decreases |ops|
  {
    if ops != [] {
      Untouched(sheet, ops[..|ops| - 1], k);
      assert !Touches(ops[|ops| - 1], k);
    }
  }

  lemma {:induction false} GrowsPrefix<K, V>(ops: seq<Op<K, V>>, i: nat)
    requires i <= |ops|
    ensures Grows(ops[..i]) <= Grows(ops)
    decreases |ops|
  {
    if i < |ops| {
      GrowsPrefix(ops[..|ops| - 1], i);
      assert ops[..|ops| - 1][..i] == ops[..i];
    } else {
      assert ops[..i] == ops;
    }
  }

  lemma Load<K(!new), V>(t: Table<K, V>)
    requires t.Valid() && 0 < t.capacity
    ensures |t.contents| <= t.size <= Pow2(t.capacity - 1) + 1
    ensures t.size == |t.contents| + t.removed
  {
  }

  /** All entries, bucket by bucket. */
  function Flatten<K, V>(bs: seq<seq<Entry<K, V>>>): seq<Entry<K, V>> {
    if bs == [] then [] else Flatten(bs[..|bs| - 1]) + bs[|bs| - 1]
  }

  /** The entries visited so far, none of which made the callback stop. */
  predicate VisitedAll<K, V>(visited: seq<Entry<K, V>>, callback: (K, V) -> int) {
    forall i :: 0 <= i < |visited| ==> callback(visited[i].key, visited[i].value) == 0
  }

  /** hdql_ht_iter: calls back on every entry, until a call gives non-zero. */
  method Iterate<K(==,!new), V>(t: Table<K, V>, callback: (K, V) -> int) returns (rc: int, visited: seq<Entry<K, V>>)
    requires t.Valid()
    ensures visited <= Flatten(t.buckets[..])
    ensures rc == 0 ==> visited == Flatten(t.buckets[..]) && VisitedAll(visited, callback)
    ensures rc != 0 ==>
              && visited != [] && rc == callback(visited[|visited| - 1].key, visited[|visited| - 1].value)
              && VisitedAll(visited[..|visited| - 1], callback)
  {
    hide Represents, Flatten;
    rc, visited := 0, [];
    ghost var bs := t.buckets[..];
    FlattenStep(bs, 0);
    var i := 0;
    while i < t.buckets.Length
      invariant i <= |bs| && rc == 0 && visited == Flatten(bs[..i]) && VisitedAll(visited, callback)
    {
      FlattenStep(bs, i);
      FlattenPrefix(bs, i + 1);
      ghost var before := visited;
      rc, visited := IterateBucket(t.buckets[i], callback, visited);
      if rc != 0 {
        assert visited <= before + bs[i] <= Flatten(bs);
        return;
      }
      i := i + 1;
    }
    FlattenStep(bs, |bs|);
  }

  method IterateBucket<K, V>(es: seq<Entry<K, V>>, callback: (K, V) -> int, sofar: seq<Entry<K,
      V>>) returns (rc: int, visited: seq<Entry<K, V>>)
    requires VisitedAll(sofar, callback)
    ensures visited <= sofar + es
    ensures rc == 0 ==> visited == sofar + es && VisitedAll(visited, callback)
    ensures rc != 0 ==>
              && visited != [] && rc == callback(visited[|visited| - 1].key, visited[|visited| - 1].value)
              && VisitedAll(visited[..|visited| - 1], callback)
  {
    rc, visited := 0, sofar;
    var entry := 0;
    while entry < |es|
      invariant entry <= |es| && rc == 0 && visited == sofar + es[..entry] && VisitedAll(visited, callback)
    {
      rc := callback(es[entry].key, es[entry].value);
      visited := visited + [es[entry]];
      assert visited == sofar + es[..entry + 1];
      if rc != 0 { return; }
      entry := entry + 1;
    }
  }

  lemma FlattenStep<K, V>(bs: seq<seq<Entry<K, V>>>, i: nat)
    ensures Flatten(bs[..0]) == [] && bs[..|bs|] == bs
    ensures i < |bs| ==> Flatten(bs[..i + 1]) == Flatten(bs[..i]) + bs[i]
  {
    if i < |bs| { assert bs[..i + 1][..i] == bs[..i] && bs[..i + 1][i] == bs[i]; }
  }

  lemma {:induction false} FlattenPrefix<K, V>(bs: seq<seq<Entry<K, V>>>, i: nat)
    requires i <= |bs|
    ensures Flatten(bs[..i]) <= Flatten(bs)
    decreases |bs|
  {
    if i < |bs| {
      FlattenPrefix(bs[..|bs| - 1], i);
      assert bs[..|bs| - 1][..i] == bs[..i];
    } else {
      assert bs[..i] == bs;
    }
  }

  /** Entries come bucket by bucket, and within a bucket in its order. */
  lemma {:induction false} FlattenAt<K, V>(bs: seq<seq<Entry<K, V>>>, b: nat, j: nat)
    requires b < |bs| && j < |bs[b]|
    ensures var at := |Flatten(bs[..b])| + j; at < |Flatten(bs)| && Flatten(bs)[at] == bs[b][j]
    decreases |bs|
  {
    var n := |bs| - 1;
    if b < n {
      FlattenAt(bs[..n], b, j);
      assert bs[..n][..b] == bs[..b];
    }
  }

  /** Iteration meets every pair of the map exactly once. */
  lemma FlattenExact<K(!new), V>(bs: seq<seq<Entry<K, V>>>, hash: K -> nat, contents: map<K, V>)
    requires Represents(bs, hash, contents)
    ensures DistinctKeys(Flatten(bs))
    ensures forall k, v :: Entry(k, v) in Flatten(bs) <==> k in contents && contents[k] == v
  {
    FlattenFirst(bs, hash, contents, |bs|);
    assert bs[..|bs|] == bs;
    forall k | k in contents
      ensures HasKey(Flatten(bs), k)
    {
      var b := hash(k) % |bs|;
      assert HasKey(bs[b], k);
      InFlatten(bs, b, k);
    }
  }

  lemma {:induction false} FlattenFirst<K(!new), V>(bs: seq<seq<Entry<K, V>>>, hash: K -> nat, contents: map<K, V>,
      i: nat)
    requires Represents(bs, hash, contents) && i <= |bs|
    ensures DistinctKeys(Flatten(bs[..i]))
    ensures forall j :: 0 <= j < |Flatten(bs[..i])| ==>
              var e := Flatten(bs[..i])[j];
              hash(e.key) % |bs| < i && e.key in contents && contents[e.key] == e.value
    decreases i
  {
    if i > 0 {
      FlattenFirst(bs, hash, contents, i - 1);
      assert bs[..i][..i - 1] == bs[..i - 1] && bs[..i][i - 1] == bs[i - 1];
      assert BucketOk(bs[i - 1], i - 1, |bs|, hash, contents);
    }
  }

  lemma {:induction false} InFlatten<K, V>(bs: seq<seq<Entry<K, V>>>, b: nat, k: K)
    requires b < |bs| && HasKey(bs[b], k)
    ensures HasKey(Flatten(bs), k)
    decreases |bs|
  {
    HasKeyConcat(Flatten(bs[..|bs| - 1]), bs[|bs| - 1], k);
    if b < |bs| - 1 { InFlatten(bs[..|bs| - 1], b, k); }
  }
}
