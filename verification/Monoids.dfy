/** The operations of the aggregates, and what their folds amount to. */
module Monoids {
  import opened Denotation
  import opened Aggregates
  import Arithmetic

  /** Integer types: `size` values from zero, or `2 * half` values around zero. */
  datatype IntType = Unsigned(size: nat) | Signed(half: nat)

  predicate Proper(t: IntType) {
    if t.Unsigned? then t.size > 1 else t.half > 1
  }

  function Size(t: IntType): (n: int)
    ensures Proper(t) ==> n > 1
  {
    if t.Unsigned? then t.size else 2 * t.half
  }

  function Least(t: IntType): int {
    if t.Unsigned? then 0 else -(t.half as int)
  }

  predicate Fits(a: int, t: IntType) {
    Least(t) <= a < Least(t) + Size(t)
  }

  /** Wrap-around: the number of the type that differs from `a` by a multiple of
      its size. */
  function Wrap(a: int, t: IntType): (r: int)
    requires Proper(t)
    ensures Fits(r, t)
  {
    (a - Least(t)) % Size(t) + Least(t)
  }

  lemma Multiple(k: int, n: int)
    requires -n < k * n < n
    ensures k == 0
  {
    if k > 0 { Arithmetic.MulMono(1, k, n); }
    if k < 0 { Arithmetic.MulMono(k, -1, n); }
  }

  lemma WrapUnique(a: int, k: int, r: int, t: IntType)
    requires Proper(t) && a == k * Size(t) + r && Fits(r, t)
    ensures Wrap(a, t) == r
  {
    var n := Size(t);
    var q := (a - Least(t)) / n;
    assert a == q * n + Wrap(a, t);
    assert (q - k) * n == r - Wrap(a, t) by { Distribute(q, -k, n); }
    Multiple(q - k, n);
  }

  /** Wrapping gives the one number in the range of the type that differs by a multiple
      of the number of its values. */
  lemma WrapIs(a: int, t: IntType, r: int)
    requires Proper(t)
    ensures t.Unsigned? ==> (Fits(r, t) <==> 0 <= r < t.size)
    ensures t.Signed? ==> (Fits(r, t) <==> -(t.half as int) <= r < t.half)
    ensures Wrap(a, t) == r <==> Fits(r, t) && (a - r) % Size(t) == 0
    ensures Size(t) == if t.Unsigned? then t.size else 2 * t.half
  {
    var n := Size(t);
    var k := (a - r) / n;
    assert a - r == k * n + (a - r) % n;
    if Fits(r, t) && (a - r) % n == 0 { WrapUnique(a, k, r, t); }
    if Wrap(a, t) == r {
      WrapTurns(a, t);
      assert (Turns(a, t) - k) * n == (a - r) % n by { Distribute(Turns(a, t), -k, n); }
      Multiple(Turns(a, t) - k, n);
    }
  }

  lemma WrapFits(a: int, t: IntType)
    requires Proper(t)
    ensures Fits(a, t) <==> Wrap(a, t) == a
    ensures Wrap(0, t) == 0 && Wrap(1, t) == 1
  {
    if Fits(a, t) { WrapUnique(a, 0, a, t); }
    WrapUnique(0, 0, 0, t);
    WrapUnique(1, 0, 1, t);
  }

  lemma Distribute(a: int, b: int, n: int)
    ensures (a + b) * n == a * n + b * n
  {
  }

  /** Number of times the size was taken off. */
  function Turns(a: int, t: IntType): int
    requires Proper(t)
  {
    (a - Least(t)) / Size(t)
  }

  lemma WrapTurns(a: int, t: IntType)
    requires Proper(t)
    ensures a == Turns(a, t) * Size(t) + Wrap(a, t)
  {
  }

  lemma ModAdd(a: int, b: int, t: IntType)
    requires Proper(t)
    ensures Wrap(Wrap(a, t) + b, t) == Wrap(a + b, t)
  {
    hide Wrap, Turns, Least, Size;
    WrapTurns(a, t);
    WrapTurns(Wrap(a, t) + b, t);
    var k, q := Turns(a, t), Turns(Wrap(a, t) + b, t);
    Distribute(k, q, Size(t));
    WrapUnique(a + b, k + q, Wrap(Wrap(a, t) + b, t), t);
  }

  lemma ModMul(a: int, b: int, t: IntType)
    requires Proper(t)
    ensures Wrap(Wrap(a, t) * b, t) == Wrap(a * b, t)
  {
    hide Wrap, Turns, Least, Size;
    WrapTurns(a, t);
    WrapTurns(Wrap(a, t) * b, t);
    var k, q, n := Turns(a, t), Turns(Wrap(a, t) * b, t), Size(t);
    Distribute(k * n, Wrap(a, t), b);
    Swap(k, n, b);
    Distribute(k * b, q, n);
    WrapUnique(a * b, k * b + q, Wrap(Wrap(a, t) * b, t), t);
  }

  lemma Swap(a: int, b: int, c: int)
    ensures (a * b) * c == (a * c) * b
  {
  }

  /** sum() on an integer type. */
  function Sum(number: Datum -> int, t: IntType): Monoid<int>
    requires Proper(t)
  {
    Monoid(0, (a: int, x: Datum) => Wrap(a + number(x), t))
  }

  function Total(number: Datum -> int, xs: seq<Datum>): int {
    if xs == [] then 0 else Total(number, xs[..|xs| - 1]) + number(xs[|xs| - 1])
  }

  /** A total is that of its parts, and of one value the value itself. */
  lemma {:induction false} TotalParts(number: Datum -> int, a: seq<Datum>, b: seq<Datum>, x: Datum)
    ensures Total(number, []) == 0 && Total(number, [x]) == number(x)
    ensures Total(number, a + b) == Total(number, a) + Total(number, b)
    decreases |b|
  {
    assert [x][..0] == [];
    if b == [] {
      assert a + b == a;
    } else {
      TotalParts(number, a, b[..|b| - 1], x);
      assert (a + b)[..|a + b| - 1] == a + b[..|b| - 1];
    }
  }

  lemma TwoAdds(a: int, b: int, c: int, t: IntType)
    requires Proper(t)
    ensures Wrap(Wrap(a + b, t) + c, t) == Wrap(Wrap(a + c, t) + b, t)
  {
    hide Wrap;
    ModAdd(a + b, c, t);
    ModAdd(a + c, b, t);
    assert (a + b) + c == (a + c) + b;
  }

  lemma SumOrderFree(number: Datum -> int, t: IntType)
    requires Proper(t)
    ensures OrderFree(Sum(number, t))
  {
    hide Wrap;
    var m := Sum(number, t);
    forall a: int, x: Datum, y: Datum
      ensures m.operation(m.operation(a, x), y) == m.operation(m.operation(a, y), x)
    {
      TwoAdds(a, number(x), number(y), t);
    }
  }

  /** The total, wrapped around once. */
  lemma {:induction false} SumIs(number: Datum -> int, t: IntType, xs: seq<Datum>)
    requires Proper(t)
    ensures Fold(Sum(number, t), xs) == Wrap(Total(number, xs), t)
    decreases |xs|
  {
    hide Wrap;
    if xs == [] {
      WrapFits(0, t);
    } else {
      SumIs(number, t, xs[..|xs| - 1]);
      ModAdd(Total(number, xs[..|xs| - 1]), number(xs[|xs| - 1]), t);
    }
  }

  /** prod() on an integer type. */
  function Product(number: Datum -> int, t: IntType): Monoid<int>
    requires Proper(t)
  {
    Monoid(1, (a: int, x: Datum) => Wrap(a * number(x), t))
  }

  function Multiplied(number: Datum -> int, xs: seq<Datum>): int {
    if xs == [] then 1 else Multiplied(number, xs[..|xs| - 1]) * number(xs[|xs| - 1])
  }

  /** A product is that of its parts, and of one value the value itself. */
  lemma {:induction false} ProductParts(number: Datum -> int, a: seq<Datum>, b: seq<Datum>, x: Datum)
    ensures Multiplied(number, []) == 1 && Multiplied(number, [x]) == number(x)
    ensures Multiplied(number, a + b) == Multiplied(number, a) * Multiplied(number, b)
    decreases |b|
  {
    assert [x][..0] == [];
    if b == [] {
      assert a + b == a;
    } else {
      var n := |b| - 1;
      ProductParts(number, a, b[..n], x);
      assert (a + b)[..|a + b| - 1] == a + b[..n];
      Associate(Multiplied(number, a), Multiplied(number, b[..n]), number(b[n]));
    }
  }

  lemma Associate(a: int, b: int, c: int)
    ensures (a * b) * c == a * (b * c)
  {
  }

  lemma ProductOrderFree(number: Datum -> int, t: IntType)
    requires Proper(t)
    ensures OrderFree(Product(number, t))
  {
    hide Wrap;
    var m := Product(number, t);
    forall a: int, x: Datum, y: Datum
      ensures m.operation(m.operation(a, x), y) == m.operation(m.operation(a, y), x)
    {
      ModMul(a * number(x), number(y), t);
      ModMul(a * number(y), number(x), t);
      Swap(a, number(x), number(y));
    }
  }

  lemma {:induction false} ProductIs(number: Datum -> int, t: IntType, xs: seq<Datum>)
    requires Proper(t)
    ensures Fold(Product(number, t), xs) == Wrap(Multiplied(number, xs), t)
    decreases |xs|
  {
    hide Wrap;
    if xs == [] {
      WrapFits(1, t);
    } else {
      ProductIs(number, t, xs[..|xs| - 1]);
      ModMul(Multiplied(number, xs[..|xs| - 1]), number(xs[|xs| - 1]), t);
    }
  }

  /** min() and max() with some value as neutral element.  By the documentation it
      is the largest or the least value of the type. */
  function Min(value: Datum -> real, neutral: real): Monoid<real> {
    Monoid(neutral, (a, x) => if a > value(x) then value(x) else a)
  }

  function Max(value: Datum -> real, neutral: real): Monoid<real> {
    Monoid(neutral, (a, x) => if a < value(x) then value(x) else a)
  }

  predicate IsLeast(value: Datum -> real, xs: seq<Datum>, r: real) {
    (exists i :: 0 <= i < |xs| && value(xs[i]) == r) && forall i :: 0 <= i < |xs| ==> r <= value(xs[i])
  }

  predicate IsGreatest(value: Datum -> real, xs: seq<Datum>, r: real) {
    (exists i :: 0 <= i < |xs| && value(xs[i]) == r) && forall i :: 0 <= i < |xs| ==> value(xs[i]) <= r
  }

  lemma MinMaxOrderFree(value: Datum -> real, neutral: real)
    ensures OrderFree(Min(value, neutral)) && OrderFree(Max(value, neutral))
  {
  }

  lemma {:induction false} MinBounds(value: Datum -> real, neutral: real, xs: seq<Datum>)
    ensures var r := Fold(Min(value, neutral), xs);
            && r <= neutral && (forall i :: 0 <= i < |xs| ==> r <= value(xs[i]))
            && (r == neutral || exists i :: 0 <= i < |xs| && value(xs[i]) == r)
    decreases |xs|
  {
    if xs != [] {
      var n := |xs| - 1;
      MinBounds(value, neutral, xs[..n]);
      var r := Fold(Min(value, neutral), xs[..n]);
      if r <= value(xs[n]) && r != neutral {
        var i :| 0 <= i < n && value(xs[..n][i]) == r;
        assert value(xs[i]) == r;
      }
    }
  }

  lemma {:induction false} MaxBounds(value: Datum -> real, neutral: real, xs: seq<Datum>)
    ensures var r := Fold(Max(value, neutral), xs);
            && neutral <= r && (forall i :: 0 <= i < |xs| ==> value(xs[i]) <= r)
            && (r == neutral || exists i :: 0 <= i < |xs| && value(xs[i]) == r)
    decreases |xs|
  {
    if xs != [] {
      var n := |xs| - 1;
      MaxBounds(value, neutral, xs[..n]);
      var r := Fold(Max(value, neutral), xs[..n]);
      if value(xs[n]) <= r && r != neutral {
        var i :| 0 <= i < n && value(xs[..n][i]) == r;
        assert value(xs[i]) == r;
      }
    }
  }

  /** min() gives the least value exactly when some value is not above the neutral
      element. */
  lemma MinExactly(value: Datum -> real, neutral: real, xs: seq<Datum>)
    requires xs != []
    ensures IsLeast(value, xs, Fold(Min(value, neutral), xs)) <==> exists i :: 0 <= i < |xs| && value(xs[i]) <= neutral
  {
    MinBounds(value, neutral, xs);
    var r := Fold(Min(value, neutral), xs);
    if i :| 0 <= i < |xs| && value(xs[i]) <= neutral {
      if r == neutral { assert value(xs[i]) == r; }
    }
  }

  /** max() gives the greatest value exactly when some value is not below the
      neutral element. */
  lemma MaxExactly(value: Datum -> real, neutral: real, xs: seq<Datum>)
    requires xs != []
    ensures IsGreatest(value, xs, Fold(Max(value, neutral), xs))
            <==> exists i :: 0 <= i < |xs| && value(xs[i]) >= neutral
  {
    MaxBounds(value, neutral, xs);
    var r := Fold(Max(value, neutral), xs);
    if i :| 0 <= i < |xs| && value(xs[i]) >= neutral {
      if r == neutral { assert value(xs[i]) == r; }
    }
  }

  /** Where min() and max() on an integer type start: the largest and the least value
      of the type. */
  function MinStart(t: IntType): int {
    match t
    case Unsigned(size) => size - 1
    case Signed(half) => half - 1
  }

  function MaxStart(t: IntType): int {
    match t
    case Unsigned(_) => 0
    case Signed(half) => -(half as int)
  }

  lemma StartsAreEnds(t: IntType, a: int)
    requires Proper(t)
    ensures Fits(MinStart(t), t) && Fits(MaxStart(t), t)
    ensures Fits(a, t) <==> MaxStart(t) <= a <= MinStart(t)
  {
  }

  function Reals(number: Datum -> int): Datum -> real {
    (x: Datum) => number(x) as real
  }

  /** On the integer types min() and max() are always right. */
  lemma IntegerMinMax(number: Datum -> int, t: IntType, xs: seq<Datum>)
    requires Proper(t) && xs != [] && forall i :: 0 <= i < |xs| ==> Fits(number(xs[i]), t)
    ensures IsLeast(Reals(number), xs, Fold(Min(Reals(number), MinStart(t) as real), xs))
    ensures IsGreatest(Reals(number), xs, Fold(Max(Reals(number), MaxStart(t) as real), xs))
  {
    hide Fold, IsLeast, IsGreatest, Min, Max;
    StartsAreEnds(t, number(xs[0]));
    assert Reals(number)(xs[0]) == number(xs[0]) as real;
    MinExactly(Reals(number), MinStart(t) as real, xs);
    MaxExactly(Reals(number), MaxStart(t) as real, xs);
  }

  /** A finite number of type double that is not negative: the upper and the lower
      32 bits. */
  datatype Double = Double(high: nat, low: nat)

  /** Its value, in units of the least positive one. */
  function Decode(x: Double): nat {
    var exponent, mantissa := x.high / 0x10_0000, (x.high % 0x10_0000) * 0x1_0000_0000 + x.low;
    if exponent == 0 then mantissa
    else (0x10_0000_0000_0000 + mantissa) * Arithmetic.Pow2(exponent - 1)
  }

  const ZERO := Double(0, 0)
  const ONE := Double(0x3FF0_0000, 0)

  /** The neutral elements of min() and max() on double: a number of type float is
      stored at the start of the result, which otherwise stays as it was. */
  function MinNeutral(previous: Double): Double {
    previous.(low := 0x7F7F_FFFF)
  }

  function MaxNeutral(previous: Double): Double {
    previous.(low := 0x0080_0000)
  }

  function Units(number: Datum -> Double): Datum -> real {
    (x: Datum) => Decode(number(x)) as real
  }

  /** From a result of zero, min() of 1.0 alone is not 1.0; from a result of 1.0,
      max() of zero alone is not zero. */
  lemma DoubleFails(number: Datum -> Double, x: Datum)
    ensures number(x) == ONE ==>
              !IsLeast(Units(number), [x], Fold(Min(Units(number), Decode(MinNeutral(ZERO)) as real), [x]))
    ensures number(x) == ZERO ==>
              !IsGreatest(Units(number), [x], Fold(Max(Units(number), Decode(MaxNeutral(ONE)) as real), [x]))
  {
    hide *;
    Alone(Units(number), Decode(MinNeutral(ZERO)) as real, x);
    Alone(Units(number), Decode(MaxNeutral(ONE)) as real, x);
    NeutralUnits();
    UnitsOf(number, x);
  }

  /** FLT_MIN, where max() on float starts. */
  const FLOAT_MIN: real := 1.0 / Arithmetic.Pow2(126) as real

  /** On float, max() of zero alone is not zero, and that of negative values alone is
      none of them. */
  lemma FloatFails(value: Datum -> real, x: Datum)
    requires value(x) <= 0.0
    ensures !IsGreatest(value, [x], Fold(Max(value, FLOAT_MIN), [x]))
  {
    hide IsGreatest, Fold;
    assert FLOAT_MIN > 0.0;
    Alone(value, FLOAT_MIN, x);
  }

  lemma Alone(value: Datum -> real, neutral: real, x: Datum)
    ensures IsLeast(value, [x], Fold(Min(value, neutral), [x])) <==> value(x) <= neutral
    ensures IsGreatest(value, [x], Fold(Max(value, neutral), [x])) <==> value(x) >= neutral
  {
    MinExactly(value, neutral, [x]);
    MaxExactly(value, neutral, [x]);
    hide IsLeast, IsGreatest, Fold;
    assert [x][0] == x;
  }

  lemma UnitsOf(number: Datum -> Double, x: Datum)
    ensures Units(number)(x) == Decode(number(x)) as real
  {
    hide Decode;
  }

  lemma NeutralUnits()
    ensures Decode(MinNeutral(ZERO)) < Decode(ONE) && Decode(ZERO) < Decode(MaxNeutral(ONE))
  {
    hide Decode;
    DecodeOne(0);
    DecodeOne(0x0080_0000);
    DecodeSmall(0);
    DecodeSmall(0x7F7F_FFFF);
  }

  lemma DecodeSmall(low: nat)
    ensures Decode(Double(0, low)) == low
  {
  }

  lemma DecodeOne(low: nat)
    ensures Decode(Double(0x3FF0_0000, low)) >= 0x10_0000_0000_0000
  {
    Arithmetic.MulMono(1, Arithmetic.Pow2(1022), 0x10_0000_0000_0000 + low);
  }

  /** A value of an integer type of `w` bits. */
  type Bits = seq<bool>

  function At(s: Bits, i: nat): bool {
    i < |s| && s[i]
  }

  /** Bitwise convolutions, on an integer type of any width. */
  function BitAnd(bits: Datum -> Bits, w: nat): Monoid<Bits> {
    Monoid(seq(w, _ => true), (a: Bits, x: Datum) => seq(w, (i: nat) => At(a, i) && At(bits(x), i)))
  }

  function BitOr(bits: Datum -> Bits, w: nat): Monoid<Bits> {
    Monoid(seq(w, _ => false), (a: Bits, x: Datum) => seq(w, (i: nat) => At(a, i) || At(bits(x), i)))
  }

  function BitXor(bits: Datum -> Bits, w: nat): Monoid<Bits> {
    Monoid(seq(w, _ => false), (a: Bits, x: Datum) => seq(w, (i: nat) => At(a, i) != At(bits(x), i)))
  }

  lemma BitOrderFree(bits: Datum -> Bits, w: nat)
    ensures OrderFree(BitAnd(bits, w)) && OrderFree(BitOr(bits, w)) && OrderFree(BitXor(bits, w))
  {
    var (p, q, r) := (BitAnd(bits, w), BitOr(bits, w), BitXor(bits, w));
    forall a: Bits, x: Datum, y: Datum
      ensures p.operation(p.operation(a, x), y) == p.operation(p.operation(a, y), x)
      ensures q.operation(q.operation(a, x), y) == q.operation(q.operation(a, y), x)
      ensures r.operation(r.operation(a, x), y) == r.operation(r.operation(a, y), x)
    {
    }
  }

  /** Positions of the values that have bit `i` set. */
  function Having(bits: Datum -> Bits, xs: seq<Datum>, i: nat): set<nat> {
    set j: nat | j < |xs| && At(bits(xs[j]), i)
  }

  /** A bit of the conjunction is set if all values have it, of the disjunction if
      some has, of the exclusive one if an odd number of values has. */
  lemma BitsAre(bits: Datum -> Bits, w: nat, xs: seq<Datum>, i: nat)
    requires i < w
    ensures At(Fold(BitAnd(bits, w), xs), i) <==> forall j :: 0 <= j < |xs| ==> At(bits(xs[j]), i)
    ensures At(Fold(BitOr(bits, w), xs), i) <==> exists j :: 0 <= j < |xs| && At(bits(xs[j]), i)
    ensures At(Fold(BitXor(bits, w), xs), i) <==> |set j: nat | j < |xs| && At(bits(xs[j]), i)| % 2 == 1
  {
    BitsCounted(bits, w, xs, i);
    hide Fold, BitAnd, BitOr, BitXor, At;
    assert Having(bits, xs, i) == set j: nat | j < |xs| && At(bits(xs[j]), i);
  }

  lemma {:induction false} BitsCounted(bits: Datum -> Bits, w: nat, xs: seq<Datum>, i: nat)
    requires i < w
    ensures At(Fold(BitAnd(bits, w), xs), i) <==> forall j :: 0 <= j < |xs| ==> At(bits(xs[j]), i)
    ensures At(Fold(BitOr(bits, w), xs), i) <==> exists j :: 0 <= j < |xs| && At(bits(xs[j]), i)
    ensures At(Fold(BitXor(bits, w), xs), i) <==> |Having(bits, xs, i)| % 2 == 1
    decreases |xs|
  {
    if xs == [] {
      assert Having(bits, xs, i) == {};
    } else {
      var n := |xs| - 1;
      BitsCounted(bits, w, xs[..n], i);
      assert forall j :: 0 <= j < n ==> xs[..n][j] == xs[j];
      HavingStep(bits, xs, i);
    }
  }

  lemma HavingStep(bits: Datum -> Bits, xs: seq<Datum>, i: nat)
    requires xs != []
    ensures |Having(bits, xs, i)| == |Having(bits, xs[..|xs| - 1], i)| + if At(bits(xs[|xs| - 1]), i) then 1 else 0
  {
    var n := |xs| - 1;
    assert Having(bits, xs, i) == Having(bits, xs[..n], i) + if At(bits(xs[n]), i) then {n} else {};
  }

  /** all(), any() and count(). */
  function All(truth: Datum -> bool): Monoid<bool> {
    Monoid(true, (a, x) => a && truth(x))
  }

  function Any(truth: Datum -> bool): Monoid<bool> {
    Monoid(false, (a, x) => a || truth(x))
  }

  function Count(truth: Datum -> bool): Monoid<int> {
    Monoid(0, (a, x) => if truth(x) then a + 1 else a)
  }

  lemma LogicOrderFree(truth: Datum -> bool)
    ensures OrderFree(All(truth)) && OrderFree(Any(truth)) && OrderFree(Count(truth))
  {
  }

  /** Positions of the values that are true. */
  function Trues(truth: Datum -> bool, xs: seq<Datum>): set<nat> {
    set i: nat | i < |xs| && truth(xs[i])
  }

  lemma {:induction false} LogicIs(truth: Datum -> bool, xs: seq<Datum>)
    ensures Fold(All(truth), xs) <==> forall i :: 0 <= i < |xs| ==> truth(xs[i])
    ensures Fold(Any(truth), xs) <==> exists i :: 0 <= i < |xs| && truth(xs[i])
    ensures Fold(Count(truth), xs) == |Trues(truth, xs)| == |set i: nat | i < |xs| && truth(xs[i])|
    decreases |xs|
  {
    assert Trues(truth, xs) == set i: nat | i < |xs| && truth(xs[i]);
    if xs == [] {
      assert Trues(truth, xs) == {};
    } else {
      var n := |xs| - 1;
      LogicIs(truth, xs[..n]);
      assert forall i :: 0 <= i < n ==> xs[..n][i] == xs[i];
      TruesStep(truth, xs);
      hide Trues;
    }
  }

  lemma TruesStep(truth: Datum -> bool, xs: seq<Datum>)
    requires xs != []
    ensures |Trues(truth, xs)| == |Trues(truth, xs[..|xs| - 1])| + if truth(xs[|xs| - 1]) then 1 else 0
  {
    var n := |xs| - 1;
    assert Trues(truth, xs) == Trues(truth, xs[..n]) + if truth(xs[n]) then {n} else {};
  }

  /** mean() on an integer type: a count, and a wrapping sum. */
  datatype MeanState = MeanState(c: nat, s: int)

  function Mean(number: Datum -> int, t: IntType): Monoid<MeanState>
    requires Proper(t)
  {
    Monoid(MeanState(0, 0), (a: MeanState, x: Datum) => MeanState(a.c + 1, Wrap(a.s + number(x), t)))
  }

  /** Division towards zero. */
  function Divide(a: int, b: int): int
    requires b != 0
  {
    if a >= 0 then a / b else -(-a / b)
  }

  /** The retrieved value; the count is converted to the type first.  None: a
      division by zero. */
  function Retrieve(state: MeanState, t: IntType): Option<int>
    requires Proper(t)
  {
    if state.c == 0 then Some(0)
    else if Wrap(state.c, t) == 0 then None
    else Some(Wrap(Divide(state.s, Wrap(state.c, t)), t))
  }

  /** Division drops the fraction: the quotient times the divisor comes within one
      divisor of the dividend, on the side of zero. */
  lemma DivideIs(a: int, b: int)
    requires b != 0
    ensures var (p, n) := (Divide(a, b) * b, if b > 0 then b else -b);
            if a >= 0 then p <= a < p + n else p - n < a <= p
  {
    var c := if a >= 0 then a else -a;
    assert c == (c / b) * b + c % b;
    assert (-(c / b)) * b == -((c / b) * b);
  }

  lemma MeanOrderFree(number: Datum -> int, t: IntType)
    requires Proper(t)
    ensures OrderFree(Mean(number, t))
  {
    hide Wrap;
    var m := Mean(number, t);
    forall a: MeanState, x: Datum, y: Datum
      ensures m.operation(m.operation(a, x), y) == m.operation(m.operation(a, y), x)
    {
      TwoAdds(a.s, number(x), number(y), t);
    }
  }

  lemma {:induction false} MeanIs(number: Datum -> int, t: IntType, xs: seq<Datum>)
    requires Proper(t)
    ensures Fold(Mean(number, t), xs) == MeanState(|xs|, Wrap(Total(number, xs), t))
    decreases |xs|
  {
    hide Wrap;
    if xs == [] {
      WrapFits(0, t);
    } else {
      MeanIs(number, t, xs[..|xs| - 1]);
      ModAdd(Total(number, xs[..|xs| - 1]), number(xs[|xs| - 1]), t);
    }
  }

  /** A mean is retrieved unless the number of values is a multiple of the size
      of the type, and is the quotient of what the total and that number wrap
      around to.  As long as the number does not wrap around, it is the true mean
      exactly if the total does not either. */
  lemma MeanExactly(number: Datum -> int, t: IntType, xs: seq<Datum>)
    requires Proper(t) && xs != [] && forall i :: 0 <= i < |xs| ==> Fits(number(xs[i]), t)
    ensures var r := Retrieve(Fold(Mean(number, t), xs), t);
            && (r.None? <==> |xs| % Size(t) == 0)
            && (r.Some? ==> Wrap(|xs|, t) != 0 && r.value == Wrap(Divide(Wrap(Total(number, xs), t), Wrap(|xs|, t)), t))
            && (Fits(|xs|, t) ==> (r == Some(Divide(Total(number, xs), |xs|)) <==> Fits(Total(number, xs), t)))
  {
    hide Wrap, Fold, Total;
    var c, total := |xs|, Total(number, xs);
    MeanIs(number, t, xs);
    WrapZero(c, t);
    WrapFits(c, t);
    WrapFits(total, t);
    if t.Unsigned? { TotalNatural(number, xs); }
    if Fits(c, t) { MeanWraps(total, c, t); }
  }

  function Repeated(x: Datum, n: nat): (xs: seq<Datum>)
    ensures |xs| == n
  {
    seq(n, _ => x)
  }

  lemma {:induction false} RepeatedTotal(number: Datum -> int, x: Datum, n: nat)
    ensures Total(number, Repeated(x, n)) == n * number(x)
    decreases n
  {
    if n > 0 {
      RepeatedTotal(number, x, n - 1);
      assert Repeated(x, n)[..n - 1] == Repeated(x, n - 1);
    }
  }

  const BYTE := Unsigned(256)

  /** On bytes: the mean of 256 twos is undefined, that of 200 twos is 0 as their total
      wraps around, and so is that of 456, whose number wraps around as well. */
  lemma MeanFails(number: Datum -> int, x: Datum)
    requires number(x) == 2
    ensures Retrieve(Fold(Mean(number, BYTE), Repeated(x, 256)), BYTE) == None
    ensures Retrieve(Fold(Mean(number, BYTE), Repeated(x, 200)), BYTE) == Some(0)
    ensures Retrieve(Fold(Mean(number, BYTE), Repeated(x, 456)), BYTE) == Some(0)
  {
    hide Fold, Total;
    MeanOfTwos(number, x, 256);
    MeanOfTwos(number, x, 200);
    MeanOfTwos(number, x, 456);
    WrapUnique(400, 1, 144, BYTE);
    WrapUnique(200, 0, 200, BYTE);
    WrapUnique(912, 3, 144, BYTE);
    WrapUnique(456, 1, 200, BYTE);
    WrapFits(0, BYTE);
  }

  lemma MeanOfTwos(number: Datum -> int, x: Datum, n: nat)
    requires number(x) == 2 && n > 0
    ensures var r := Retrieve(Fold(Mean(number, BYTE), Repeated(x, n)), BYTE);
            && (r.None? <==> n % 256 == 0)
            && (r.Some? ==> Wrap(n, BYTE) != 0 && r.value == Wrap(Divide(Wrap(n * 2, BYTE), Wrap(n, BYTE)), BYTE))
  {
    hide Fold, Total, Wrap;
    RepeatedTotal(number, x, n);
    MeanExactly(number, BYTE, Repeated(x, n));
  }

  lemma WrapZero(c: nat, t: IntType)
    requires Proper(t)
    ensures Wrap(c, t) == 0 <==> c % Size(t) == 0
  {
    var n := Size(t);
    assert c == (c / n) * n + c % n;
    if c % n == 0 { WrapUnique(c, c / n, 0, t); }
    if Wrap(c, t) == 0 {
      WrapTurns(c, t);
      var k := Turns(c, t);
      assert (c / n - k) * n == -(c % n) by { Distribute(c / n, -k, n); }
      Multiple(c / n - k, n);
    }
  }

  lemma {:induction false} TotalNatural(number: Datum -> int, xs: seq<Datum>)
    requires forall i :: 0 <= i < |xs| ==> number(xs[i]) >= 0
    ensures Total(number, xs) >= 0
    decreases |xs|
  {
    if xs != [] { TotalNatural(number, xs[..|xs| - 1]); }
  }

  /** Quotients of numbers of the type are numbers of the type, and wrapping a
      total around changes its quotient. */
  lemma MeanWraps(total: int, c: nat, t: IntType)
    requires Proper(t) && Fits(c, t) && c > 0 && (t.Unsigned? ==> total >= 0)
    ensures Wrap(Divide(Wrap(total, t), c), t) == Divide(total, c) <==> Fits(total, t)
  {
    hide Wrap, Divide;
    var s := Wrap(total, t);
    WrapTurns(total, t);
    QuotientSmaller(s, c);
    WrapFits(Divide(s, c), t);
    WrapFits(total, t);
    if !Fits(total, t) {
      var k, n := Turns(total, t), Size(t);
      if k > 0 { Arithmetic.MulMono(1, k, n); }
      if k < 0 { Arithmetic.MulMono(k, -1, n); }
      assert k != 0 && (total >= s + n || s >= total + n);
      if total >= s + n { QuotientsDiffer(s, total, c); } else { QuotientsDiffer(total, s, c); }
    }
  }

  lemma QuotientSmaller(a: int, c: nat)
    requires c > 0
    ensures 0 <= Divide(a, c) <= a || a <= Divide(a, c) <= 0
  {
    var b := if a >= 0 then a else -a;
    var q := b / c;
    assert b == q * c + b % c;
    Arithmetic.MulMono(1, c, q);
  }

  lemma QuotientsDiffer(a: int, b: int, c: nat)
    requires c > 0 && b >= a + c && (a >= 0 || b <= 0 || b >= a + 2 * c)
    ensures Divide(a, c) != Divide(b, c)
  {
    hide Divide;
    if Divide(a, c) == Divide(b, c) {
      Quotient(a, c);
      Quotient(b, c);
    }
  }

  lemma Quotient(a: int, c: nat)
    requires c > 0
    ensures var q := Divide(a, c) * c; if a >= 0 then q <= a < q + c else q - c < a <= q
  {
    var b := if a >= 0 then a else -a;
    assert b == (b / c) * c + b % c;
  }
}
