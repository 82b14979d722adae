/** What the aggregates give for all results of all their arguments. */
module AggregateValues {
  import opened Denotation
  import opened Aggregates
  import opened Monoids
  import Reservoir

  /** Every argument has a result. */
  predicate NoneEmpty(args: seq<AttrDef>, d: Datum) {
    FirstEmpty(args, d, 0) == |args|
  }

  function Everything(args: seq<AttrDef>, d: Datum): seq<Datum> {
    AllResults(args, d, |args|)
  }

  /** sum() and prod(): the total and the product of all results, wrapped around
      once. */
  lemma SumOfAll(number: Datum -> int, t: IntType, args: seq<AttrDef>, d: Datum, definedForEmpty: bool)
    requires Proper(t) && NoneEmpty(args, d)
    ensures Aggregate(Sum(number, t), args, d, definedForEmpty) == Some(Wrap(Total(number, Everything(args, d)), t))
  {
    hide *;
    SumOrderFree(number, t);
    Folded(Sum(number, t), args, d, definedForEmpty);
    SumIs(number, t, Everything(args, d));
  }

  lemma ProductOfAll(number: Datum -> int, t: IntType, args: seq<AttrDef>, d: Datum, definedForEmpty: bool)
    requires Proper(t) && NoneEmpty(args, d)
    ensures Aggregate(Product(number, t), args, d, definedForEmpty)
         == Some(Wrap(Multiplied(number, Everything(args, d)), t))
  {
    hide *;
    ProductOrderFree(number, t);
    Folded(Product(number, t), args, d, definedForEmpty);
    ProductIs(number, t, Everything(args, d));
  }

  lemma Folded<A(!new)>(m: Monoid<A>, args: seq<AttrDef>, d: Datum, definedForEmpty: bool)
    requires OrderFree(m) && NoneEmpty(args, d)
    ensures Aggregate(m, args, d, definedForEmpty) == Some(Fold(m, Everything(args, d)))
  {
    hide OrderFree, Fold, Aggregate, AllResults;
    AggregateIsFold(m, args, d, definedForEmpty);
  }

  lemma SomeResult(args: seq<AttrDef>, d: Datum)
    requires NoneEmpty(args, d) && args != []
    ensures Everything(args, d) != []
  {
    var n := |args| - 1;
    assert ChainItems(Factor(args, n), d) != [];
    assert Everything(args, d) == AllResults(args, d, n) + Results(args, d, n);
  }

  /** min() and max(): the least and the greatest of all results, exactly if some
      result reaches the neutral element. */
  lemma MinOfAll(value: Datum -> real, neutral: real, args: seq<AttrDef>, d: Datum, definedForEmpty: bool)
    requires NoneEmpty(args, d) && args != []
    ensures var all, r := Everything(args, d), Aggregate(Min(value, neutral), args, d, definedForEmpty);
            r.Some? && (IsLeast(value, all, r.value) <==> exists i :: 0 <= i < |all| && value(all[i]) <= neutral)
  {
    hide Fold, Aggregate, Everything, NoneEmpty, IsLeast;
    MinMaxOrderFree(value, neutral);
    Folded(Min(value, neutral), args, d, definedForEmpty);
    SomeResult(args, d);
    MinExactly(value, neutral, Everything(args, d));
  }

  lemma MaxOfAll(value: Datum -> real, neutral: real, args: seq<AttrDef>, d: Datum, definedForEmpty: bool)
    requires NoneEmpty(args, d) && args != []
    ensures var all, r := Everything(args, d), Aggregate(Max(value, neutral), args, d, definedForEmpty);
            r.Some? && (IsGreatest(value, all, r.value) <==> exists i :: 0 <= i < |all| && value(all[i]) >= neutral)
  {
    hide Fold, Aggregate, Everything, NoneEmpty, IsGreatest;
    MinMaxOrderFree(value, neutral);
    Folded(Max(value, neutral), args, d, definedForEmpty);
    SomeResult(args, d);
    MaxExactly(value, neutral, Everything(args, d));
  }

  /** On the integer types they are always right. */
  lemma IntegerMinMaxOfAll(number: Datum -> int, t: IntType, args: seq<AttrDef>, d: Datum, definedForEmpty: bool)
    requires Proper(t) && NoneEmpty(args, d) && args != []
    requires forall x :: x in Everything(args, d) ==> Fits(number(x), t)
    ensures var m := Aggregate(Min(Reals(number), MinStart(t) as real), args, d, definedForEmpty);
            m.Some? && IsLeast(Reals(number), Everything(args, d), m.value)
    ensures var m := Aggregate(Max(Reals(number), MaxStart(t) as real), args, d, definedForEmpty);
            m.Some? && IsGreatest(Reals(number), Everything(args, d), m.value)
  {
    hide Fold, Aggregate, Everything, NoneEmpty, IsLeast, IsGreatest, Fits;
    MinMaxOrderFree(Reals(number), MinStart(t) as real);
    MinMaxOrderFree(Reals(number), MaxStart(t) as real);
    Folded(Min(Reals(number), MinStart(t) as real), args, d, definedForEmpty);
    Folded(Max(Reals(number), MaxStart(t) as real), args, d, definedForEmpty);
    SomeResult(args, d);
    IntegerMinMax(number, t, Everything(args, d));
  }

  /** Bitwise convolutions: bit `i` is that of all results. */
  lemma BitsOfAll(bits: Datum -> Bits, w: nat, args: seq<AttrDef>, d: Datum, definedForEmpty: bool, i: nat)
    requires NoneEmpty(args, d) && i < w
    ensures var all := Everything(args, d);
            var (p, q, r) := (Aggregate(BitAnd(bits, w), args, d, definedForEmpty),
                              Aggregate(BitOr(bits, w), args, d, definedForEmpty),
                              Aggregate(BitXor(bits, w), args, d, definedForEmpty));
            && p.Some? && (At(p.value, i) <==> forall j :: 0 <= j < |all| ==> At(bits(all[j]), i))
            && q.Some? && (At(q.value, i) <==> exists j :: 0 <= j < |all| && At(bits(all[j]), i))
            && r.Some? && (At(r.value, i) <==> |set j: nat | j < |all| && At(bits(all[j]), i)| % 2 == 1)
  {
    hide Fold, Aggregate, Everything, NoneEmpty, BitAnd, BitOr, BitXor, At;
    BitOrderFree(bits, w);
    Folded(BitAnd(bits, w), args, d, definedForEmpty);
    Folded(BitOr(bits, w), args, d, definedForEmpty);
    Folded(BitXor(bits, w), args, d, definedForEmpty);
    BitsAre(bits, w, Everything(args, d), i);
  }

  /** all(), any() and count(), when no argument is empty. */
  lemma LogicOfAll(truth: Datum -> bool, args: seq<AttrDef>, d: Datum, definedForEmpty: bool)
    requires NoneEmpty(args, d)
    ensures var all := Everything(args, d);
            && (Aggregate(All(truth), args, d, definedForEmpty) == Some(forall i :: 0 <= i < |all| ==> truth(all[i])))
            && (Aggregate(Any(truth), args, d, definedForEmpty) == Some(exists i :: 0 <= i < |all| && truth(all[i])))
            && Aggregate(Count(truth), args, d, definedForEmpty) == Some(|set i: nat | i < |all| && truth(all[i])|)
  {
    hide Fold, Aggregate, Everything, NoneEmpty, All, Any, Count, Trues;
    LogicOrderFree(truth);
    Folded(All(truth), args, d, definedForEmpty);
    Folded(Any(truth), args, d, definedForEmpty);
    Folded(Count(truth), args, d, definedForEmpty);
    LogicIs(truth, Everything(args, d));
  }

  /** mean(): undefined exactly if the number of all results is a multiple of the size
      of the type, and otherwise total over number, both wrapped around; while
      that number does not wrap around, it is the mean of all results exactly
      if their total does not either. */
  lemma MeanOfAll(number: Datum -> int, t: IntType, args: seq<AttrDef>, d: Datum, definedForEmpty: bool)
    requires Proper(t) && NoneEmpty(args, d) && args != []
    requires forall i :: 0 <= i < |Everything(args, d)| ==> Fits(number(Everything(args, d)[i]), t)
    ensures var all, state := Everything(args, d), Aggregate(Mean(number, t), args, d, definedForEmpty);
            && state.Some?
            && var r := Retrieve(state.value, t);
            && (r.None? <==> |all| % Size(t) == 0)
            && (r.Some? ==>
                 Wrap(|all|, t) != 0 && r.value == Wrap(Divide(Wrap(Total(number, all), t), Wrap(|all|, t)), t))
            && (Fits(|all|, t) ==>
                 |all| > 0 && (r == Some(Divide(Total(number, all), |all|)) <==> Fits(Total(number, all), t)))
  {
    hide Fold, Aggregate, Everything, NoneEmpty, Retrieve, Wrap, Total, Divide;
    MeanOrderFree(number, t);
    Folded(Mean(number, t), args, d, definedForEmpty);
    SomeResult(args, d);
    MeanExactly(number, t, Everything(args, d));
  }

  /** All results but those that count() looks at when argument `e` is the first
      empty one. */
  function Missed(args: seq<AttrDef>, d: Datum, e: nat, n: nat): seq<Datum> {
    if n == 0 then []
    else Missed(args, d, e, n - 1) + if n - 1 < e then Tail(Results(args, d, n - 1)) else Results(args, d, n - 1)
  }

  /** No result is true but the firsts of the arguments before `e`. */
  predicate OnlyFirstsTrue(truth: Datum -> bool, args: seq<AttrDef>, d: Datum, e: nat, n: nat) {
    forall j, i :: 0 <= j < n && (if j < e then 1 else 0) <= i < |Results(args, d, j)| ==>
      !truth(Results(args, d, j)[i])
  }

  lemma {:induction false} CountConcat(truth: Datum -> bool, a: seq<Datum>, b: seq<Datum>)
    ensures Fold(Count(truth), a + b) == Fold(Count(truth), a) + Fold(Count(truth), b)
    decreases |b|
  {
    if b == [] {
      assert a + b == a;
    } else {
      var n := |b| - 1;
      CountConcat(truth, a, b[..n]);
      assert (a + b)[..|a + b| - 1] == a + b[..n];
    }
  }

  predicate NoneTrue(truth: Datum -> bool, xs: seq<Datum>) {
    forall i :: 0 <= i < |xs| ==> !truth(xs[i])
  }

  lemma {:induction false} CountNone(truth: Datum -> bool, xs: seq<Datum>)
    ensures Fold(Count(truth), xs) >= 0
    ensures Fold(Count(truth), xs) == 0 <==> NoneTrue(truth, xs)
    decreases |xs|
  {
    if xs != [] {
      var n := |xs| - 1;
      CountNone(truth, xs[..n]);
      assert forall i :: 0 <= i < n ==> xs[..n][i] == xs[i];
    }
  }

  /** All results are those looked at, and those missed. */
  lemma {:induction false} CountSplit(truth: Datum -> bool, args: seq<AttrDef>, d: Datum, e: nat, n: nat)
    ensures Fold(Count(truth), AllResults(args, d, n))
         == Fold(Count(truth), Firsts(args, d, if n < e then n else e)) + Fold(Count(truth), Missed(args, d, e, n))
    decreases n
  {
    hide Fold, Count, Results, Head, Tail;
    if n == 0 {
      CountNone(truth, []);
    } else {
      var rs := Results(args, d, n - 1);
      CountSplit(truth, args, d, e, n - 1);
      CountConcat(truth, AllResults(args, d, n - 1), rs);
      CountConcat(truth, Missed(args, d, e, n - 1), if n - 1 < e then Tail(rs) else rs);
      if n - 1 < e {
        HeadTail(rs);
        CountConcat(truth, Head(rs), Tail(rs));
        CountConcat(truth, Firsts(args, d, n - 1), Head(rs));
      }
    }
  }

  lemma {:induction false} MissedFalse(truth: Datum -> bool, args: seq<AttrDef>, d: Datum, e: nat, n: nat)
    ensures Fold(Count(truth), Missed(args, d, e, n)) >= 0
    ensures Fold(Count(truth), Missed(args, d, e, n)) == 0 <==> OnlyFirstsTrue(truth, args, d, e, n)
    decreases n
  {
    hide Fold, Count, Results, OnlyFirstsTrue, NoneTrue, Tail;
    OnlyFirstsStep(truth, args, d, e, n);
    if n == 0 {
      CountNone(truth, []);
    } else {
      var rs := Results(args, d, n - 1);
      var missed := if n - 1 < e then Tail(rs) else rs;
      MissedFalse(truth, args, d, e, n - 1);
      CountConcat(truth, Missed(args, d, e, n - 1), missed);
      CountNone(truth, missed);
    }
  }

  lemma OnlyFirstsStep(truth: Datum -> bool, args: seq<AttrDef>, d: Datum, e: nat, n: nat)
    ensures n == 0 ==> OnlyFirstsTrue(truth, args, d, e, n) && NoneTrue(truth, [])
    ensures n > 0 ==>
              var rs := Results(args, d, n - 1);
              var missed := if n - 1 < e then Tail(rs) else rs;
              (OnlyFirstsTrue(truth, args, d, e, n)
               <==> OnlyFirstsTrue(truth, args, d, e, n - 1) && NoneTrue(truth, missed))
  {
    hide Results;
    if n > 0 {
      var rs := Results(args, d, n - 1);
      if n - 1 < e { assert forall i :: 1 <= i < |rs| ==> rs[i] == Tail(rs)[i - 1]; }
    }
  }

  /** count(), which alone is defined for the empty set: it counts all results
      exactly if every argument has one, or none is true but the firsts of the
      arguments before the first empty one. */
  lemma CountExactly(truth: Datum -> bool, args: seq<AttrDef>, d: Datum)
    ensures var e := FirstEmpty(args, d, 0);
            var all := Everything(args, d);
            (Aggregate(Count(truth), args, d, true) == Some(|set i: nat | i < |all| && truth(all[i])|)
             <==> e == |args| || OnlyFirstsTrue(truth, args, d, e, |args|))
  {
    hide Trues, Fold, Count, OnlyFirstsTrue, AllResults;
    var e := FirstEmpty(args, d, 0);
    LogicIs(truth, Everything(args, d));
    if e == |args| {
      LogicOfAll(truth, args, d, true);
    } else {
      CountSplit(truth, args, d, e, |args|);
      MissedFalse(truth, args, d, e, |args|);
    }
  }

  /** No hits, then one: the hit is not counted. */
  lemma CountMisses(x: Entry, d: Datum)
    ensures var args := [Join([Collection(0, Always([]))]), Join([Collection(0, Always([x]))])];
            && Aggregate(Count(_ => true), args, d, true) == Some(0)
            && |Everything(args, d)| == 1
  {
    var args := [Join([Collection(0, Always([]))]), Join([Collection(0, Always([x]))])];
    LevelCount(0, Always([]), d);
    LevelCount(0, Always([x]), d);
    assert Factor(args, 0) == args[0].factor && Factor(args, 1) == args[1].factor;
    assert FirstEmpty(args, d, 0) == 0;
    assert AllResults(args, d, 1) == AllResults(args, d, 0) + Results(args, d, 0);
    assert Everything(args, d) == AllResults(args, d, 1) + Results(args, d, 1);
  }

  /** narb() with given draws: the `i`-th value replaces the one held if its draw is
      zero. */
  function Arb(us: seq<nat>, neutral: Datum): Monoid<Reservoir.State<Datum>> {
    Monoid(Reservoir.State(0, neutral),
           (a: Reservoir.State<Datum>, x: Datum) =>
             Reservoir.State(a.c + 1, if a.c < |us| && us[a.c] == 0 then x else a.v))
  }

  lemma {:induction false} ArbHolds(us: seq<nat>, neutral: Datum, xs: seq<Datum>)
    requires |xs| <= |us| && Reservoir.Draws(us)
    ensures Fold(Arb(us, neutral), xs)
         == Reservoir.State(|xs|, if xs == [] then neutral else xs[Reservoir.Pick(us[..|xs|])])
    decreases |xs|
  {
    if xs != [] {
      var n := |xs| - 1;
      ArbHolds(us, neutral, xs[..n]);
      assert us[..n + 1][..n] == us[..n];
    }
  }

  /** narb() is uniform over all results of all arguments: after `n!` equally likely
      draw vectors, a value that occurs `m` times is held `m * (n - 1)!` times. */
  lemma ArbOfAll(args: seq<AttrDef>, d: Datum, neutral: Datum, x: Datum, definedForEmpty: bool)
    requires NoneEmpty(args, d) && args != []
    ensures var all, n := Everything(args, d), |Everything(args, d)|;
            && n > 0
            && |Reservoir.All(n)| == Reservoir.Factorial(n)
            && |ArbGives(args, d, neutral, x, definedForEmpty)| == multiset(all)[x] * Reservoir.Factorial(n - 1)
  {
    hide Reservoir.All, Reservoir.Factorial, Everything, NoneEmpty;
    var order := Order(args, d);
    SomeResult(args, d);
    SameResults(args, d);
    Reservoir.AllCount(|order|);
    Reservoir.HoldingCount(order, x, |order|);
    assert order[..|order|] == order;
    ArbGivesExactly(args, d, neutral, x, definedForEmpty);
  }

  /** The results in the order in which they are folded. */
  function Order(args: seq<AttrDef>, d: Datum): seq<Datum> {
    Firsts(args, d, |args|) + Remainders(args, d, |args|)
  }

  lemma SameResults(args: seq<AttrDef>, d: Datum)
    ensures multiset(Order(args, d)) == multiset(Everything(args, d)) && |Order(args, d)| == |Everything(args, d)|
  {
    OrderOfFolding(args, d, |args|);
    assert |multiset(Order(args, d))| == |multiset(Everything(args, d))|;
  }

  /** The draw vectors after which narb() gives `x`. */
  function ArbGives(args: seq<AttrDef>, d: Datum, neutral: Datum, x: Datum, definedForEmpty: bool): set<seq<nat>> {
    set us | us in Reservoir.All(|Everything(args, d)|)
        && Gives(Aggregate(Arb(us, neutral), args, d, definedForEmpty), x)
  }

  predicate Gives(r: Option<Reservoir.State<Datum>>, x: Datum) {
    r.Some? && r.value.v == x
  }

  lemma ArbGivesExactly(args: seq<AttrDef>, d: Datum, neutral: Datum, x: Datum, definedForEmpty: bool)
    requires NoneEmpty(args, d) && Order(args, d) != []
    ensures ArbGives(args, d, neutral, x, definedForEmpty) == Reservoir.Holding(Order(args, d), x, |Order(args, d)|)
  {
    hide Reservoir.All, Fold, Everything;
    var order, n := Order(args, d), |Everything(args, d)|;
    SameResults(args, d);
    forall us | us in Reservoir.All(n)
      ensures Gives(Aggregate(Arb(us, neutral), args, d, definedForEmpty), x) <==> Reservoir.Holds(order, x, us, n)
    {
      Reservoir.AllExact(n, us);
      ArbHolds(us, neutral, order);
      assert us[..n] == us;
    }
  }
}
