/** The rows of a product by number: row `t` takes from every query the result
    whose index is the digit of `t` in the mixed radix given by the sizes of the
    queries, last digit fastest. */
module Odometer {
  import opened Denotation
  import opened Arithmetic

  /** Number of tuples. */
  function Volume(sizes: seq<nat>): nat {
    if sizes == [] then 1 else sizes[0] * Volume(sizes[1..])
  }

  /** The volume is zero exactly when some size is. */
  lemma {:induction false} VolumeZero(sizes: seq<nat>)
    ensures Volume(sizes) == 0 <==> exists j :: 0 <= j < |sizes| && sizes[j] == 0
  {
    if sizes != [] {
      var a, n := sizes[0], Volume(sizes[1..]);
      VolumeZero(sizes[1..]);
      if a == 0 {
        assert a * n == 0;
      } else if n == 0 {
        assert a * n == 0;
        var j :| 0 <= j < |sizes[1..]| && sizes[1..][j] == 0;
        assert sizes[j + 1] == 0;
      } else {
        MulMono(1, a, n);
        forall j | 0 <= j < |sizes|
          ensures sizes[j] != 0
        {
          if j > 0 { assert sizes[j] == sizes[1..][j - 1]; }
        }
      }
    }
  }

  predicate InRange(digits: seq<nat>, sizes: seq<nat>) {
    |digits| == |sizes| && forall j :: 0 <= j < |sizes| ==> digits[j] < sizes[j]
  }

  /** Digits of `t`. */
  function Digits(sizes: seq<nat>, t: nat): seq<nat>
    requires t < Volume(sizes)
  {
    if sizes == [] then []
    else
      var n := Volume(sizes[1..]);
      Block(t, sizes[0], n);
      [t / n] + Digits(sizes[1..], t % n)
  }

  lemma Block(t: nat, a: nat, n: nat)
    requires t < a * n
    ensures n > 0 && t / n < a && t % n < n && t == (t / n) * n + t % n
  {
    if t / n >= a { MulMono(a, t / n, n); }
  }

  /** The tuple with the given digits. */
  function Number(sizes: seq<nat>, digits: seq<nat>): nat
    requires |digits| == |sizes|
  {
    if sizes == [] then 0 else digits[0] * Volume(sizes[1..]) + Number(sizes[1..], digits[1..])
  }

  /** Every tuple of digits has exactly one number, and the reverse. */
  lemma {:induction false} DigitsNumber(sizes: seq<nat>, t: nat)
    requires t < Volume(sizes)
    ensures InRange(Digits(sizes, t), sizes) && Number(sizes, Digits(sizes, t)) == t
  {
    if sizes != [] {
      var n := Volume(sizes[1..]);
      Block(t, sizes[0], n);
      DigitsNumber(sizes[1..], t % n);
      assert Digits(sizes, t)[1..] == Digits(sizes[1..], t % n);
    }
  }

  lemma {:induction false} NumberDigits(sizes: seq<nat>, digits: seq<nat>)
    requires InRange(digits, sizes)
    ensures Number(sizes, digits) < Volume(sizes) && Digits(sizes, Number(sizes, digits)) == digits
  {
    if sizes != [] {
      var n, m := Volume(sizes[1..]), Number(sizes[1..], digits[1..]);
      assert InRange(digits[1..], sizes[1..]);
      NumberDigits(sizes[1..], digits[1..]);
      Unblock(digits[0], sizes[0], n, m);
    }
  }

  lemma Unblock(x: nat, a: nat, n: nat, m: nat)
    requires x < a && m < n
    ensures x * n + m < a * n && (x * n + m) / n == x && (x * n + m) % n == m
  {
    MulMono(x + 1, a, n);
    Quotient(x * n + m, n, x, m);
  }

  lemma QuotientOrder(t: nat, u: nat, n: nat)
    requires t < u && n > 0
    ensures t / n <= u / n && (t / n == u / n ==> t % n < u % n)
  {
    var q, r, q', r' := t / n, t % n, u / n, u % n;
    assert t == q * n + r && u == q' * n + r';
    if q' < q { MulMono(q' + 1, q, n); }
  }

  /** Lexicographic order, first digit most significant. */
  predicate Before(a: seq<nat>, b: seq<nat>)
    requires |a| == |b|
  {
    a != [] && (a[0] < b[0] || (a[0] == b[0] && Before(a[1..], b[1..])))
  }

  /** Later rows have later digits. */
  lemma {:induction false} DigitsOrder(sizes: seq<nat>, t: nat, u: nat)
    requires t < u < Volume(sizes)
    ensures |Digits(sizes, t)| == |Digits(sizes, u)| == |sizes| && Before(Digits(sizes, t), Digits(sizes, u))
  {
    DigitsNumber(sizes, t);
    DigitsNumber(sizes, u);
    if sizes != [] {
      var n := Volume(sizes[1..]);
      Block(t, sizes[0], n);
      Block(u, sizes[0], n);
      QuotientOrder(t, u, n);
      assert Digits(sizes, t)[1..] == Digits(sizes[1..], t % n);
      assert Digits(sizes, u)[1..] == Digits(sizes[1..], u % n);
      if t / n == u / n { DigitsOrder(sizes[1..], t % n, u % n); }
    }
  }

  /** Sizes of the queries of a product on `d`. */
  function Sizes(joins: seq<AttrDef>, d: Datum): (r: seq<nat>)
    ensures |r| == |joins|
  {
    seq(|joins|, j requires 0 <= j < |joins| => |ChainItems(Factor(joins, j), d)|)
  }

  /** The results that the digits pick. */
  function Picked(joins: seq<AttrDef>, d: Datum, digits: seq<nat>): (r: seq<Datum>)
    requires InRange(digits, Sizes(joins, d))
    ensures |r| == |joins|
  {
    seq(|joins|, j requires 0 <= j < |joins| => ChainItems(Factor(joins, j), d)[digits[j]].datum)
  }

  function PickedKeys(joins: seq<AttrDef>, d: Datum, digits: seq<nat>): (r: seq<KeyTree>)
    requires InRange(digits, Sizes(joins, d))
    ensures |r| == |joins|
  {
    seq(|joins|, j requires 0 <= j < |joins| => KeyList(ChainItems(Factor(joins, j), d)[digits[j]].keys))
  }

  predicate AllJoins(joins: seq<AttrDef>) {
    forall j :: 0 <= j < |joins| ==> joins[j].Join?
  }

  lemma {:induction false} ExtendBlocks(items: seq<Item>, ads: seq<AttrDef>, n: nat, x: nat, m: nat)
    requires forall i :: 0 <= i < |items| ==> |ChainItems(ads, items[i].datum)| == n
    requires x < |items| && m < n
    ensures |Extend(items, ads)| == |items| * n && x * n + m < |items| * n
    ensures var p := ChainItems(ads, items[x].datum)[m];
            Extend(items, ads)[x * n + m] == Path([items[x].key] + p.keys, p.datum)
    decreases |items|
  {
    hide ChainItems;
    ExtendCount(items, ads, n);
    Unblock(x, |items|, n, m);
    if x > 0 {
      var ps := PrefixAll(items[0].key, ChainItems(ads, items[0].datum));
      ExtendBlocks(items[1..], ads, n, x - 1, m);
      assert items[1..][x - 1] == items[x];
      MulSub(x, n);
      assert Extend(items, ads)[x * n + m] == Extend(items[1..], ads)[x * n + m - n];
    }
  }

  lemma MulSub(x: nat, n: nat)
    requires x > 0
    ensures (x - 1) * n + n == x * n
  {
  }

  lemma {:induction false} ExtendCount(items: seq<Item>, ads: seq<AttrDef>, n: nat)
    requires forall i :: 0 <= i < |items| ==> |ChainItems(ads, items[i].datum)| == n
    ensures |Extend(items, ads)| == |items| * n
    decreases |items|
  {
    hide ChainItems;
    if items == [] {
      assert |items| * n == 0;
    } else {
      ExtendCount(items[1..], ads, n);
      MulSub(|items|, n);
    }
  }

  lemma {:induction false} ProductCount(joins: seq<AttrDef>, row: Datum)
    requires AllJoins(joins) && row.Row?
    ensures |ChainItems(joins, row)| == Volume(Sizes(joins, row.owner))
    decreases |joins|
  {
    if joins != [] {
      var items := LevelItems(joins[0], row);
      var rest := joins[1..];
      SizesTail(joins, row.owner);
      forall i | 0 <= i < |items|
        ensures |ChainItems(rest, items[i].datum)| == Volume(Sizes(rest, row.owner))
      {
        ProductCount(rest, items[i].datum);
      }
      ExtendCount(items, rest, Volume(Sizes(rest, row.owner)));
    }
  }

  lemma FactorTail(joins: seq<AttrDef>)
    requires joins != []
    ensures forall j :: 0 <= j < |joins| - 1 ==> Factor(joins, j + 1) == Factor(joins[1..], j)
  {
  }

  lemma SizesTail(joins: seq<AttrDef>, d: Datum)
    requires joins != []
    ensures Sizes(joins, d)[1..] == Sizes(joins[1..], d)
  {
    forall j | 0 <= j < |joins| - 1
      ensures Sizes(joins, d)[1..][j] == Sizes(joins[1..], d)[j]
    {
      assert Factor(joins, j + 1) == Factor(joins[1..], j);
    }
  }

  /** Main theorem: the rows of a product, by number. */
  lemma {:induction false} ProductRow(joins: seq<AttrDef>, row: Datum, t: nat)
    requires AllJoins(joins) && row.Row? && t < Volume(Sizes(joins, row.owner))
    ensures |ChainItems(joins, row)| == Volume(Sizes(joins, row.owner))
    ensures var digits := Digits(Sizes(joins, row.owner), t);
            && InRange(digits, Sizes(joins, row.owner))
            && (ChainItems(joins, row)[t]
                == Path(PickedKeys(joins, row.owner, digits),
                    Row(row.owner, row.values + Picked(joins, row.owner, digits))))
    decreases |joins|
  {
    var d := row.owner;
    var sizes := Sizes(joins, d);
    DigitsNumber(sizes, t);
    ProductCount(joins, row);
    if joins == [] {
      assert row.values + Picked(joins, d, []) == row.values;
    } else {
      var items := LevelItems(joins[0], row);
      var rest := joins[1..];
      var n := Volume(Sizes(rest, d));
      SizesTail(joins, d);
      forall i | 0 <= i < |items|
        ensures |ChainItems(rest, items[i].datum)| == n
      {
        ProductCount(rest, items[i].datum);
      }
      Block(t, sizes[0], n);
      ExtendBlocks(items, rest, n, t / n, t % n);
      ProductRow(rest, items[t / n].datum, t % n);
      RowStep(joins, row, t);
    }
  }

  /** First digit and rest, put together. */
  lemma RowStep(joins: seq<AttrDef>, row: Datum, t: nat)
    requires AllJoins(joins) && joins != [] && row.Row? && t < Volume(Sizes(joins, row.owner))
    requires InRange(Digits(Sizes(joins, row.owner), t), Sizes(joins, row.owner))
    ensures var d, digits := row.owner, Digits(Sizes(joins, row.owner), t);
            var items, n := LevelItems(joins[0], row), Volume(Sizes(joins[1..], row.owner));
            && n > 0 && digits[0] == t / n < |items| && digits[1..] == Digits(Sizes(joins[1..], d), t % n)
            && InRange(digits[1..], Sizes(joins[1..], d))
            && items[t / n].datum.Row? && items[t / n].datum.owner == d
            && ([items[t / n].key] + PickedKeys(joins[1..], d, digits[1..]) == PickedKeys(joins, d, digits))
            && (items[t / n].datum.values + Picked(joins[1..], d, digits[1..]) == row.values + Picked(joins, d, digits))
  {
    var d, digits := row.owner, Digits(Sizes(joins, row.owner), t);
    SizesTail(joins, d);
    Block(t, Sizes(joins, d)[0], Volume(Sizes(joins[1..], d)));
    PickedTail(joins, d, digits);
    var v := ChainItems(Factor(joins, 0), d)[digits[0]].datum;
    var tail := Picked(joins[1..], d, digits[1..]);
    assert (row.values + [v]) + tail == row.values + ([v] + tail);
  }

  lemma PickedTail(joins: seq<AttrDef>, d: Datum, digits: seq<nat>)
    requires joins != [] && InRange(digits, Sizes(joins, d))
    ensures InRange(digits[1..], Sizes(joins[1..], d))
    ensures Picked(joins, d, digits)
            == [ChainItems(Factor(joins, 0), d)[digits[0]].datum] + Picked(joins[1..], d, digits[1..])
    ensures PickedKeys(joins, d, digits)
         == [KeyList(ChainItems(Factor(joins, 0), d)[digits[0]].keys)] + PickedKeys(joins[1..], d, digits[1..])
  {
    hide ChainItems, Factor;
    SizesTail(joins, d);
    FactorTail(joins);
    forall j | 0 <= j < |joins| - 1
      ensures digits[1..][j] < Sizes(joins[1..], d)[j]
    {
      assert Sizes(joins, d)[1..][j] == Sizes(joins, d)[j + 1];
    }
  }

  /** The product is empty exactly when one of its queries is. */
  lemma ProductEmpty(joins: seq<AttrDef>, d: Datum)
    requires AllJoins(joins)
    ensures ChainItems(joins, Row(d, [])) == []
            <==> exists j :: 0 <= j < |joins| && ChainItems(Factor(joins, j), d) == []
  {
    ProductCount(joins, Row(d, []));
    VolumeZero(Sizes(joins, d));
    forall j | 0 <= j < |joins|
      ensures Sizes(joins, d)[j] == 0 <==> ChainItems(Factor(joins, j), d) == []
    {
    }
  }
}
