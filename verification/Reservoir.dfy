/** Reservoir sampling: the pick of `narb()` is uniform over the stream. */
module Reservoir {

  /** State of the accumulator: values seen so far, and the one held. */
  datatype State<T> = State(c: nat, v: T)

  /** Draw vectors for a stream of `n` values: draw `i`, from zero, is in
      `[0, i + 1)`. */
  predicate Draws(us: seq<nat>) {
    forall i :: 0 <= i < |us| ==> us[i] <= i
  }

  /** Position held after the draws: the last one whose draw was zero. */
  function Pick(us: seq<nat>): (r: nat)
    requires us != [] && Draws(us)
    ensures r < |us|
  {
    var n := |us|;
    if us[n - 1] == 0 then n - 1 else Pick(us[..n - 1])
  }

  /** It is the last zero draw, and there is one. */
  lemma {:induction false} PickLast(us: seq<nat>, i: nat)
    requires us != [] && Draws(us)
    ensures Pick(us) == i <==> i < |us| && us[i] == 0 && forall k :: i < k < |us| ==> us[k] != 0
    decreases |us|
  {
    var n := |us| - 1;
    if us[n] != 0 { PickLast(us[..n], i); }
  }

  /** One step of `narb()`; `u` is the draw below the new count. */
  method Operation<T>(s: State<T>, x: T, u: nat) returns (s': State<T>)
    requires u <= s.c
    ensures s' == State(s.c + 1, if u == 0 then x else s.v)
  {
    s' := s.(c := s.c + 1);
    if u == 0 { s' := s'.(v := x); }
  }

  /** The fold over a stream holds the picked value. */
  method Sample<T>(xs: seq<T>, us: seq<nat>, neutral: T) returns (s: State<T>)
    requires |us| == |xs| && Draws(us)
    ensures s.c == |xs|
    ensures s.v == if xs == [] then neutral else xs[Pick(us)]
  {
    s := State(0, neutral);
    while s.c < |xs|
      invariant s.c <= |xs|
      invariant s.v == if s.c == 0 then neutral else xs[Pick(us[..s.c])]
    {
      ghost var c := s.c;
      assert us[..c + 1][..c] == us[..c] && us[..c + 1][c] == us[c];
      s := Operation(s, xs[s.c], us[s.c]);
    }
    assert us[..|xs|] == us;
  }

  function Factorial(n: nat): (r: nat)
    ensures r > 0
  {
    if n == 0 then 1 else n * Factorial(n - 1)
  }

  /** All draw vectors of length `n`. */
  function All(n: nat): set<seq<nat>> {
    if n == 0 then {[]} else Appended(All(n - 1), Below(n))
  }

  /** The vectors of `a`, each continued by every draw of `s`. */
  function Appended(a: set<seq<nat>>, s: set<nat>): set<seq<nat>> {
    set us, u | us in a && u in s :: us + [u]
  }

  lemma InAppended(a: set<seq<nat>>, s: set<nat>, x: seq<nat>)
    ensures x in Appended(a, s) <==> x != [] && x[..|x| - 1] in a && x[|x| - 1] in s
  {
    if x != [] { assert x == x[..|x| - 1] + [x[|x| - 1]]; }
    if x in Appended(a, s) {
      var us, u :| us in a && u in s && x == us + [u];
      assert x[..|x| - 1] == us;
    }
  }

  function Below(n: nat): (r: set<nat>)
    ensures forall u: nat :: u in r <==> u < n
  {
    if n == 0 then {} else Below(n - 1) + {n - 1}
  }

  /** Those that pick position `i`. */
  function Picking(n: nat, i: nat): set<seq<nat>>
    requires i < n
  {
    set us | us in All(n) && Picks(us, i)
  }

  predicate Picks(us: seq<nat>, i: nat) {
    us != [] && Draws(us) && Pick(us) == i
  }

  /** A draw vector of length `n`. */
  predicate Vector(n: nat, us: seq<nat>) {
    |us| == n && Draws(us)
  }

  lemma {:induction false} AllExact(n: nat, us: seq<nat>)
    ensures us in All(n) <==> Vector(n, us)
    decreases n
  {
    if n > 0 {
      InAppended(All(n - 1), Below(n), us);
      if us != [] { AllExact(n - 1, us[..|us| - 1]); }
    }
  }

  lemma {:induction false} BelowCount(n: nat)
    ensures |Below(n)| == n
  {
    if n > 0 {
      BelowCount(n - 1);
    }
  }

  lemma AppendedSplit(a: set<seq<nat>>, s: set<nat>, u: nat)
    requires u in s
    ensures Appended(a, s) == Appended(a, s - {u}) + Appended(a, {u})
    ensures Appended(a, s - {u}) !! Appended(a, {u})
  {
    forall x | x in Appended(a, s) || x in Appended(a, {u})
      ensures x in Appended(a, s) && (x in Appended(a, s - {u}) <==> x !in Appended(a, {u}))
    {
      InAppended(a, s, x);
      InAppended(a, {u}, x);
      InAppended(a, s - {u}, x);
    }
    forall x | x in Appended(a, s - {u})
      ensures x in Appended(a, s)
    {
      InAppended(a, s, x);
      InAppended(a, s - {u}, x);
    }
  }

  lemma NoneAppended(a: set<seq<nat>>)
    ensures Appended(a, {}) == {}
  {
  }

  lemma OneMore(x: nat, y: nat)
    requires y > 0
    ensures x * y == x * (y - 1) + x
  {
  }

  lemma {:induction false} AppendedCount(a: set<seq<nat>>, s: set<nat>)
    ensures |Appended(a, s)| == |a| * |s|
    decreases |s|
  {
    hide Appended;
    if s == {} {
      NoneAppended(a);
    } else {
      var u :| u in s;
      AppendedCount(a, s - {u});
      AppendedOne(a, u);
      AppendedSplit(a, s, u);
      assert |s - {u}| == |s| - 1;
      OneMore(|a|, |s|);
    }
  }

  lemma {:induction false} AppendedOne(a: set<seq<nat>>, u: nat)
    ensures |Appended(a, {u})| == |a|
    decreases |a|
  {
    hide Appended;
    if a == {} {
      NothingAppended({u});
    } else {
      var us :| us in a;
      AppendedOne(a - {us}, u);
      AppendedLess(a, us, u);
    }
  }

  lemma NothingAppended(s: set<nat>)
    ensures Appended({}, s) == {}
  {
  }

  lemma AppendedLess(a: set<seq<nat>>, us: seq<nat>, u: nat)
    requires us in a
    ensures Appended(a, {u}) == Appended(a - {us}, {u}) + {us + [u]}
    ensures us + [u] !in Appended(a - {us}, {u})
  {
    hide Appended;
    forall x: seq<nat>
      ensures x in Appended(a, {u}) <==> x in Appended(a - {us}, {u}) || x == us + [u]
    {
      InAppended(a, {u}, x);
      InAppended(a - {us}, {u}, x);
      if x != [] && x[..|x| - 1] == us && x[|x| - 1] == u { assert x == us + [u]; }
      if x == us + [u] { assert x[..|x| - 1] == us; }
    }
    var x := us + [u];
    assert x[..|x| - 1] == us;
    InAppended(a - {us}, {u}, x);
  }

  /** There are `n!` draw vectors, all equally likely. */
  lemma {:induction false} AllCount(n: nat)
    ensures |All(n)| == Factorial(n)
    decreases n
  {
    hide Appended, Below;
    if n > 0 {
      AllCount(n - 1);
      BelowCount(n);
      AppendedCount(All(n - 1), Below(n));
      FactorialStep(n);
    }
  }

  /** Main theorem: each of the `n` positions is the final pick for exactly
      `(n - 1)!` of the `n!` vectors. */
  lemma {:induction false} Uniform(n: nat, i: nat)
    requires i < n
    ensures |Picking(n, i)| == Factorial(n - 1) && |All(n)| == n * Factorial(n - 1)
    decreases n
  {
    hide Appended, Picking, All, Factorial;
    AllCount(n);
    FactorialStep(n);
    PickingStep(n, i);
    if i == n - 1 {
      AllCount(n - 1);
      AppendedOne(All(n - 1), 0);
    } else {
      Uniform(n - 1, i);
      FactorialStep(n - 1);
      BelowCount(n);
      AppendedCount(Picking(n - 1, i), Below(n) - {0});
    }
  }

  lemma FactorialStep(n: nat)
    requires n > 0
    ensures Factorial(n) == n * Factorial(n - 1) == Factorial(n - 1) * n
  {
  }

  /** The last position is picked by a zero draw, whatever came before; an
      earlier one by a non-zero draw, if it was picked before. */
  lemma PickingStep(n: nat, i: nat)
    requires i < n
    ensures i == n - 1 ==> Picking(n, i) == Appended(All(n - 1), {0})
    ensures i < n - 1 ==> Picking(n, i) == Appended(Picking(n - 1, i), Below(n) - {0})
  {
    forall us: seq<nat>
      ensures i == n - 1 ==> (us in Picking(n, i) <==> us in Appended(All(n - 1), {0}))
      ensures i < n - 1 ==> (us in Picking(n, i) <==> us in Appended(Picking(n - 1, i), Below(n) - {0}))
    {
      AllExact(n, us);
      InAppended(All(n - 1), {0}, us);
      if i < n - 1 { InAppended(Picking(n - 1, i), Below(n) - {0}, us); }
      if us != [] {
        AllExact(n - 1, us[..|us| - 1]);
        PickStep(us, n, i);
      }
    }
  }

  lemma PickStep(us: seq<nat>, n: nat, i: nat)
    requires us != [] && i < n
    ensures Vector(n, us) <==> Vector(n - 1, us[..|us| - 1]) && us[|us| - 1] in Below(n)
    ensures Vector(n, us) && i == n - 1 ==> (Picks(us, i) <==> us[n - 1] == 0)
    ensures Vector(n, us) && i < n - 1 ==> (Picks(us, i) <==> us[n - 1] != 0 && Picks(us[..n - 1], i))
  {
  }

  /** The draw vectors after which the value held is `x`, and is one of the first
      `k` values of the stream. */
  function Holding<T(==)>(xs: seq<T>, x: T, k: nat): set<seq<nat>>
    requires k <= |xs|
  {
    set us | us in All(|xs|) && Holds(xs, x, us, k)
  }

  predicate Holds<T(==)>(xs: seq<T>, x: T, us: seq<nat>, k: nat) {
    us != [] && |us| == |xs| && Draws(us) && Pick(us) < k && xs[Pick(us)] == x
  }

  /** A value that occurs `m` times in the stream is held after `m * (n - 1)!` of
      the `n!` vectors. */
  lemma {:induction false} HoldingCount<T>(xs: seq<T>, x: T, k: nat)
    requires xs != [] && k <= |xs|
    ensures |Holding(xs, x, k)| == multiset(xs[..k])[x] * Factorial(|xs| - 1)
    decreases k
  {
    hide *;
    var f := Factorial(|xs| - 1);
    if k == 0 {
      NoneHeld(xs, x);
    } else {
      var m := multiset(xs[..k - 1])[x];
      HoldingCount(xs, x, k - 1);
      HoldingStep(xs, x, k);
      Uniform(|xs|, k - 1);
      Occurrences(xs, x, k);
      OneMore(f, m + 1);
      Commute(m, f);
      Commute(m + 1, f);
    }
  }

  lemma NoneHeld<T>(xs: seq<T>, x: T)
    requires xs != []
    ensures Holding(xs, x, 0) == {} && multiset(xs[..0])[x] * Factorial(|xs| - 1) == 0
  {
    hide All, Factorial;
  }

  lemma Occurrences<T>(xs: seq<T>, x: T, k: nat)
    requires 0 < k <= |xs|
    ensures multiset(xs[..k])[x] == multiset(xs[..k - 1])[x] + if xs[k - 1] == x then 1 else 0
  {
    assert xs[..k] == xs[..k - 1] + [xs[k - 1]];
  }

  lemma Commute(a: nat, b: nat)
    ensures a * b == b * a
  {
  }

  lemma HoldingStep<T>(xs: seq<T>, x: T, k: nat)
    requires 0 < k <= |xs|
    ensures Holding(xs, x, k) == Holding(xs, x, k - 1) + if xs[k - 1] == x then Picking(|xs|, k - 1) else {}
    ensures Holding(xs, x, k - 1) !! Picking(|xs|, k - 1)
  {
    hide All;
    var n := |xs|;
    forall us: seq<nat>
      ensures us in Holding(xs, x, k) <==>
              us in Holding(xs, x, k - 1) || (xs[k - 1] == x && us in Picking(n, k - 1))
    {
      AllExact(n, us);
    }
  }
}
