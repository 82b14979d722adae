/** Aggregates: one value folded from all results of all argument queries. */
module Aggregates {
  import opened Denotation
  import opened Search
  import opened Conditions
  import opened Levels
  import opened Chains
  import opened Products
  import opened ProductSteps
  import opened Engine

  /** A commutative-monoid-like definition: neutral element and operation. */
  datatype Monoid<!A> = Monoid(neutral: A, operation: (A, Datum) -> A)

  function Fold<A>(m: Monoid<A>, xs: seq<Datum>): A {
    if xs == [] then m.neutral else m.operation(Fold(m, xs[..|xs| - 1]), xs[|xs| - 1])
  }

  /** Results of the `j`-th argument. */
  function Results(args: seq<AttrDef>, d: Datum, j: nat): (r: seq<Datum>)
    ensures |r| == |ChainItems(Factor(args, j), d)|
  {
    DataOf(ChainItems(Factor(args, j), d))
  }

  function Head(xs: seq<Datum>): seq<Datum> {
    if xs == [] then [] else [xs[0]]
  }

  function Tail(xs: seq<Datum>): seq<Datum> {
    if xs == [] then [] else xs[1..]
  }

  lemma HeadTail(xs: seq<Datum>)
    ensures Head(xs) + Tail(xs) == xs
  {
  }

  /** The first result of each of the first `n` arguments. */
  function Firsts(args: seq<AttrDef>, d: Datum, n: nat): seq<Datum> {
    if n == 0 then []
    else Firsts(args, d, n - 1) + Head(Results(args, d, n - 1))
  }

  /** All but the first result of each of the first `n` arguments. */
  function Remainders(args: seq<AttrDef>, d: Datum, n: nat): seq<Datum> {
    if n == 0 then []
    else Remainders(args, d, n - 1) + Tail(Results(args, d, n - 1))
  }

  /** All results, argument by argument. */
  function AllResults(args: seq<AttrDef>, d: Datum, n: nat): seq<Datum> {
    if n == 0 then [] else AllResults(args, d, n - 1) + Results(args, d, n - 1)
  }

  lemma Shuffle(a: seq<Datum>, b: seq<Datum>, c: seq<Datum>, e: seq<Datum>)
    ensures multiset((a + b) + (c + e)) == multiset(a + c) + multiset(b + e)
  {
  }

  lemma WithoutOne(xs: seq<Datum>, i: nat)
    requires i < |xs|
    ensures multiset(xs[..i] + xs[i + 1..]) == multiset(xs) - multiset{xs[i]}
  {
    assert xs == xs[..i] + [xs[i]] + xs[i + 1..];
  }

  /** The same results, in another order. */
  lemma {:induction false} OrderOfFolding(args: seq<AttrDef>, d: Datum, n: nat)
    ensures multiset(Firsts(args, d, n) + Remainders(args, d, n)) == multiset(AllResults(args, d, n))
    decreases n
  {
    hide Results, Firsts, Remainders;
    if n == 0 {
      FoldingNone(args, d);
    } else {
      OrderOfFolding(args, d, n - 1);
      FoldingStep(args, d, n);
    }
  }

  lemma FoldingNone(args: seq<AttrDef>, d: Datum)
    ensures Firsts(args, d, 0) == [] && Remainders(args, d, 0) == []
  {
  }

  lemma FoldingStep(args: seq<AttrDef>, d: Datum, n: nat)
    requires n > 0
    ensures multiset(Firsts(args, d, n) + Remainders(args, d, n))
         == multiset(Firsts(args, d, n - 1) + Remainders(args, d, n - 1)) + multiset(Results(args, d, n - 1))
  {
    hide Results, Head, Tail;
    var rs := Results(args, d, n - 1);
    HeadTail(rs);
    Shuffle(Firsts(args, d, n - 1), Head(rs), Remainders(args, d, n - 1), Tail(rs));
  }

  /** The operation may take its operands in any order. */
  ghost predicate OrderFree<A(!new)>(m: Monoid<A>) {
    forall a: A, x: Datum, y: Datum :: m.operation(m.operation(a, x), y) == m.operation(m.operation(a, y), x)
  }

  lemma {:induction false} FoldMove<A(!new)>(m: Monoid<A>, xs: seq<Datum>, i: nat)
    requires OrderFree(m) && i < |xs|
    ensures Fold(m, xs) == m.operation(Fold(m, xs[..i] + xs[i + 1..]), xs[i])
    decreases |xs|
  {
    var n := |xs| - 1;
    if i == n {
      assert xs[..i] + xs[i + 1..] == xs[..n];
    } else {
      FoldMove(m, xs[..n], i);
      var ys := xs[..i] + xs[i + 1..];
      assert ys[..n - 1] == xs[..n][..i] + xs[..n][i + 1..] && ys[n - 1] == xs[n];
    }
  }

  /** Main theorem: the fold depends only on which values there are. */
  lemma {:induction false} FoldAnyOrder<A(!new)>(m: Monoid<A>, xs: seq<Datum>, ys: seq<Datum>)
    requires OrderFree(m) && multiset(xs) == multiset(ys)
    ensures Fold(m, xs) == Fold(m, ys)
    decreases |xs|
  {
    hide OrderFree;
    assert |multiset(xs)| == |xs| && |multiset(ys)| == |ys|;
    if xs != [] {
      var n := |xs| - 1;
      assert xs[n] in multiset(xs);
      assert xs[n] in ys;
      var i :| 0 <= i < |ys| && ys[i] == xs[n];
      WithoutOne(xs, n);
      assert xs[..n] + xs[n + 1..] == xs[..n];
      WithoutOne(ys, i);
      FoldMove(m, ys, i);
      FoldAnyOrder(m, xs[..n], ys[..i] + ys[i + 1..]);
    }
  }

  /** What an aggregate gives.  If an argument is empty, there is no result, or
      only the first results of the arguments before it, if the aggregate is
      defined for the empty set. */
  function Aggregate<A>(m: Monoid<A>, args: seq<AttrDef>, d: Datum, definedForEmpty: bool): Option<A> {
    var e := FirstEmpty(args, d, 0);
    if e == |args| then Some(Fold(m, Firsts(args, d, e) + Remainders(args, d, e)))
    else if definedForEmpty then Some(Fold(m, Firsts(args, d, e)))
    else None
  }

  /** When every argument has a result, the aggregate is the fold over all results
      of all arguments. */
  lemma AggregateIsFold<A(!new)>(m: Monoid<A>, args: seq<AttrDef>, d: Datum, definedForEmpty: bool)
    requires OrderFree(m) && FirstEmpty(args, d, 0) == |args|
    ensures Aggregate(m, args, d, definedForEmpty) == Some(Fold(m, AllResults(args, d, |args|)))
  {
    OrderOfFolding(args, d, |args|);
    FoldAnyOrder(m, Firsts(args, d, |args|) + Remainders(args, d, |args|), AllResults(args, d, |args|));
  }

  lemma FoldOne<A>(m: Monoid<A>, xs: seq<Datum>, x: Datum)
    ensures Fold(m, xs + [x]) == m.operation(Fold(m, xs), x)
  {
    assert (xs + [x])[..|xs|] == xs;
  }

  /** Arguments from `from` to `i` hold their first results. */
  ghost predicate Started(ss: seq<Snapshot>, args: seq<AttrDef>, d: Datum, from: nat, i: nat) {
    |ss| == |args| && forall j :: from <= j < i && j < |args| ==> HoldsFirst(ss[j], Factor(args, j), d)
  }

  /** The values folded so far are `done`; those of `todo` are still to come. */
  predicate Draining(done: seq<Datum>, todo: seq<Path>, all: seq<Datum>) {
    done + DataOf(todo) == all
  }

  lemma DrainBegins(s: Snapshot, args: seq<AttrDef>, d: Datum, i: nat, xs: seq<Datum>)
    requires i < |args| && HoldsFirst(s, Factor(args, i), d)
    ensures ChainItems(Factor(args, i), d) != [] && ToDrain(s, args, d, i, ChainItems(Factor(args, i), d)[1..])
    ensures Draining(xs, ChainItems(Factor(args, i), d)[1..], xs + Tail(Results(args, d, i)))
  {
    hide Left, ChainItems, Factor, TameChain, SafeAfter;
    DrainStarts(args, d, i, xs);
  }

  /** Argument `i` still has the results `todo` to give. */
  ghost predicate ToDrain(s: Snapshot, args: seq<AttrDef>, d: Datum, i: nat, todo: seq<Path>) {
    && s.live && |s.views| == |Factor(args, i)| && Left(s.views, Factor(args, i)) == todo
    && (TameChain(Factor(args, i), d) && SafeAfter(Factor(args, i), d) ==> s.safe)
  }

  lemma DrainReady(s: Snapshot, args: seq<AttrDef>, d: Datum, i: nat, todo: seq<Path>)
    requires ToDrain(s, args, d, i, todo)
    ensures s.live && (TameChain(Factor(args, i), d) && SafeAfter(Factor(args, i), d) ==> s.safe)
  {
  }

  lemma DrainStep(a: Snapshot, b: Snapshot, args: seq<AttrDef>, d: Datum, i: nat, todo: seq<Path>, v: Option<Datum>)
    requires ToDrain(a, args, d, i, todo) && GetDone(Factor(args, i), a, b, v)
    ensures v.None? <==> todo == []
    ensures v.Some? ==> v == Some(todo[0].datum) && ToDrain(b, args, d, i, todo[1..])
  {
    hide Left, GetLogs, AllEnd, AllHarmless, TameChain, SafeAfter, NoneLeft, Factor;
  }

  lemma DrainStarts(args: seq<AttrDef>, d: Datum, i: nat, xs: seq<Datum>)
    requires ChainItems(Factor(args, i), d) != []
    ensures Draining(xs, ChainItems(Factor(args, i), d)[1..], xs + Tail(Results(args, d, i)))
  {
    hide ChainItems, Factor;
  }

  lemma DrainNext<A>(m: Monoid<A>, done: seq<Datum>, todo: seq<Path>, all: seq<Datum>)
    requires todo != [] && Draining(done, todo, all)
    ensures Draining(done + [todo[0].datum], todo[1..], all)
    ensures Fold(m, done + [todo[0].datum]) == m.operation(Fold(m, done), todo[0].datum)
  {
    FoldOne(m, done, todo[0].datum);
    assert DataOf(todo) == [todo[0].datum] + DataOf(todo[1..]);
  }

  lemma DrainEnds(done: seq<Datum>, all: seq<Datum>)
    requires Draining(done, [], all)
    ensures done == all
  {
  }

  lemma OnlyAtTrans(a: seq<Snapshot>, b: seq<Snapshot>, c: seq<Snapshot>, i: nat)
    ensures OnlyAt(a, a, i)
    ensures OnlyAt(a, b, i) && OnlyAt(b, c, i) ==> OnlyAt(a, c, i)
  {
  }

  lemma NoKey(ads: seq<AttrDef>)
    ensures ListFits(ads, None, false)
  {
  }

  /** The inner loop over the remaining results of one argument. */
  method Drain<A>(q: Query, acc: A, m: Monoid<A>, ghost xs: seq<Datum>, ghost chains: seq<seq<Query>>,
      ghost args: seq<AttrDef>, ghost i: nat, ghost d: Datum)
    returns (end: Outcome, r: A)
    requires ProdOk(chains, args) && i < |chains| && chains[i] != [] && q == chains[i][0] && i < |args|
    requires i < |Snaps(chains, args)| && HoldsFirst(Snaps(chains, args)[i], Factor(args, i), d)
    requires acc == Fold(m, xs)
    modifies Foot(chains[i])`state, Foot(chains[i])`view, Bufs(chains[i])
    ensures ProdOk(chains, args) && OnlyAt(old(Snaps(chains, args)), Snaps(chains, args), i)
    ensures end == Done ==> r == Fold(m, xs + Tail(Results(args, d, i)))
    ensures TameChain(Factor(args, i), d) && SafeAfter(Factor(args, i), d) ==> end == Done
  {
    hide *;
    ghost var ads, all, before := Factor(args, i), xs + Tail(Results(args, d, i)), Snaps(chains, args);
    DrainBegins(before[i], args, d, i, xs);
    ghost var done, todo := xs, ChainItems(ads, d)[1..];
    OnlyAtTrans(before, before, before, i);
    r, end := acc, Done;
    while true
      invariant ProdOk(chains, args) && OnlyAt(before, Snaps(chains, args), i) && end == Done
      invariant i < |Snaps(chains, args)| && ToDrain(Snaps(chains, args)[i], args, d, i, todo)
      invariant r == Fold(m, done) && Draining(done, todo, all)
      decreases |todo|
    {
      NoKey(ads);
      SnapAt(chains, args, i);
      ghost var mid := Snaps(chains, args);
      DrainReady(mid[i], args, d, i, todo);
      var v, key;
      end, v, key := GetFactor(q, None, chains, args, i, false, false);
      OnlyAtTrans(before, mid, Snaps(chains, args), i);
      if end != Done { return; }
      SnapAt(chains, args, i);
      DrainStep(mid[i], Snaps(chains, args)[i], args, d, i, todo, v);
      if v.None? { break; }
      DrainNext(m, done, todo, all);
      r := m.operation(r, v.value);
      done, todo := done + [todo[0].datum], todo[1..];
    }
    DrainEnds(done, all);
  }

  lemma StartedStep(before: seq<Snapshot>, after: seq<Snapshot>, args: seq<AttrDef>, d: Datum, i: nat)
    requires i < |args| == |after| && Started(before, args, d, 0, i) && OnlyAt(before, after, i)
    requires HoldsFirst(after[i], Factor(args, i), d)
    ensures Started(after, args, d, 0, i + 1)
  {
    hide HoldsFirst;
  }

  lemma StartedDrop(before: seq<Snapshot>, after: seq<Snapshot>, args: seq<AttrDef>, d: Datum, i: nat)
    requires i < |args| && Started(before, args, d, i, |args|) && OnlyAt(before, after, i)
    ensures Started(after, args, d, i + 1, |args|)
  {
    hide HoldsFirst;
  }

  lemma FirstHeld(s: Snapshot, args: seq<AttrDef>, d: Datum, i: nat, v: Datum)
    requires i < |args| && Fresh(s, Factor(args, i), d, v)
    ensures HoldsFirst(s, Factor(args, i), d)
    ensures ChainItems(Factor(args, i), d) != [] && v == ChainItems(Factor(args, i), d)[0].datum
  {
    hide Left, ChainItems, Factor, TameChain, SafeAfter;
  }

  lemma FirstFold<A>(m: Monoid<A>, args: seq<AttrDef>, d: Datum, i: nat, v: Datum)
    requires i < |args| && ChainItems(Factor(args, i), d) != [] && v == ChainItems(Factor(args, i), d)[0].datum
    ensures Fold(m, Firsts(args, d, i + 1)) == m.operation(Fold(m, Firsts(args, d, i)), v)
  {
    hide ChainItems, Fold;
    FoldOne(m, Firsts(args, d, i), v);
    assert Head(Results(args, d, i)) == [v];
  }

  lemma FirstEmptyAfter(args: seq<AttrDef>, d: Datum, i: nat)
    requires i < |args| && ChainItems(Factor(args, i), d) != [] && i <= FirstEmpty(args, d, 0)
    ensures i + 1 <= FirstEmpty(args, d, 0)
  {
    hide ChainItems;
  }

  lemma EmptyHere(args: seq<AttrDef>, d: Datum, i: nat)
    requires i < |args| && i <= FirstEmpty(args, d, 0) && First(Factor(args, i), d) == None
    ensures FirstEmpty(args, d, 0) == i
  {
  }

  /** A key handed to an aggregate goes to all its arguments, which must not write
      to it in different ways. */
  predicate KeySuits(args: seq<AttrDef>, key: Option<KeyTree>) {
    key.Some? ==> forall j :: 0 <= j < |args| ==> ListFits(Factor(args, j), key, false) && SilentChain(Factor(args, j))
  }

  lemma KeyKept(args: seq<AttrDef>, key: Option<KeyTree>, key': Option<KeyTree>, i: nat, shown: bool,
      curs: seq<KeyTree>)
    requires KeySuits(args, key) && i < |args| && KeysDone(Factor(args, i), shown, curs, key, key', false)
    ensures key' == key
  {
  }

  lemma KeyAt(args: seq<AttrDef>, key: Option<KeyTree>, i: nat)
    requires KeySuits(args, key) && i < |args|
    ensures ListFits(Factor(args, i), key, false)
  {
  }

  lemma ResetTameAt(args: seq<AttrDef>, d: Datum, i: nat)
    requires i < |args| && i <= FirstEmpty(args, d, 0)
    ensures ProductTame(args, d) ==> TameChain(Factor(args, i), d)
  {
    hide TameChain;
  }

  /** The first loop of _monoid__reset: one result of every argument, as long as
      there is one. */
  method FoldFirsts<A>(qs: seq<Query>, d: Datum, m: Monoid<A>, key: Option<KeyTree>, ghost chains: seq<seq<Query>>,
      ghost args: seq<AttrDef>)
    returns (end: Outcome, result: A, i: nat, key': Option<KeyTree>)
    requires ProdOk(chains, args) && Heads(qs, chains) && KeySuits(args, key)
    modifies ProdFoot(chains)`state, ProdFoot(chains)`view, ProdBufs(chains)
    ensures ProdOk(chains, args)
    ensures end == Done ==>
              && i == FirstEmpty(args, d, 0) && key' == key
              && Started(Snaps(chains, args), args, d, 0, i) && result == Fold(m, Firsts(args, d, i))
    ensures ProductTame(args, d) ==> end == Done
  {
    hide *;
    ProdLength(chains, args);
    Begin(m, Snaps(chains, args), args, d);
    end, result, i, key' := Done, m.neutral, 0, key;
    while i < |qs|
      invariant i <= |args| && ProdOk(chains, args) && i <= FirstEmpty(args, d, 0) && end == Done && key' == key
      invariant Started(Snaps(chains, args), args, d, 0, i) && result == Fold(m, Firsts(args, d, i))
    {
      ProdLength(chains, args);
      HeadsAt(qs, chains, args, i);
      KeyAt(args, key, i);
      ResetTameAt(args, d, i);
      SnapAt(chains, args, i);
      ghost var before := Snaps(chains, args);
      var v;
      end, v, key' := ResetFactor(qs[i], d, key, chains, args, i, false);
      if end != Done { return; }
      SnapAt(chains, args, i);
      FactorResetEnds(Factor(args, i), d, before[i], Snaps(chains, args)[i], v);
      KeyKept(args, key, key', i, v.Some?, Curs(Snaps(chains, args)[i].views));
      if v.None? {
        EmptyHere(args, d, i);
        StartedKept(before, Snaps(chains, args), args, d, i);
        return;
      }
      FirstHeld(Snaps(chains, args)[i], args, d, i, v.value);
      FirstFold(m, args, d, i, v.value);
      FirstEmptyAfter(args, d, i);
      StartedStep(before, Snaps(chains, args), args, d, i);
      result := m.operation(result, v.value);
      i := i + 1;
    }
  }

  lemma StartedKept(before: seq<Snapshot>, after: seq<Snapshot>, args: seq<AttrDef>, d: Datum, i: nat)
    requires Started(before, args, d, 0, i) && OnlyAt(before, after, i)
    ensures Started(after, args, d, 0, i)
  {
    hide HoldsFirst;
  }

  /** The second loop of _monoid__reset: all other results, argument by argument. */
  method FoldRemainders<A>(qs: seq<Query>, first: A, m: Monoid<A>, ghost d: Datum, ghost chains: seq<seq<Query>>,
      ghost args: seq<AttrDef>)
    returns (end: Outcome, result: A)
    requires ProdOk(chains, args) && Heads(qs, chains)
    requires Started(Snaps(chains, args), args, d, 0, |args|) && first == Fold(m, Firsts(args, d, |args|))
    modifies ProdFoot(chains)`state, ProdFoot(chains)`view, ProdBufs(chains)
    ensures ProdOk(chains, args)
    ensures end == Done ==> result == Fold(m, Firsts(args, d, |args|) + Remainders(args, d, |args|))
    ensures AllTame(args, d) ==> end == Done
  {
    hide *;
    ProdLength(chains, args);
    result, end := first, Done;
    var i: nat := 0;
    ghost var firsts := Firsts(args, d, |args|);
    RemaindersNone(m, args, d, firsts);
    while i < |qs|
      invariant i <= |args| && ProdOk(chains, args) && end == Done
      invariant Started(Snaps(chains, args), args, d, i, |args|) && result == Fold(m, firsts + Remainders(args, d, i))
    {
      ProdLength(chains, args);
      HeadsAt(qs, chains, args, i);
      AllTameAt(args, d, i);
      ghost var before := Snaps(chains, args);
      StartedAt(before, args, d, i);
      end, result := Drain(qs[i], result, m, firsts + Remainders(args, d, i), chains, args, i, d);
      if end != Done { return; }
      StartedDrop(before, Snaps(chains, args), args, d, i);
      RemaindersStep(args, d, i, firsts);
      i := i + 1;
    }
  }

  lemma AllTameAt(args: seq<AttrDef>, d: Datum, i: nat)
    requires i < |args|
    ensures AllTame(args, d) ==> TameChain(Factor(args, i), d) && SafeAfter(Factor(args, i), d)
  {
  }

  /** _monoid__reset: the first result of every argument, then all the others. */
  method MonoidReset<A>(qs: seq<Query>, d: Datum, m: Monoid<A>, definedForEmpty: bool, key: Option<KeyTree>,
      ghost chains: seq<seq<Query>>, ghost args: seq<AttrDef>)
    returns (end: Outcome, r: Option<A>, key': Option<KeyTree>)
    requires ProdOk(chains, args) && Heads(qs, chains) && KeySuits(args, key)
    modifies ProdFoot(chains)`state, ProdFoot(chains)`view, ProdBufs(chains)
    ensures ProdOk(chains, args)
    ensures end == Done ==> r == Aggregate(m, args, d, definedForEmpty) && key' == key
    ensures ProductTame(args, d) ==> end == Done
  {
    hide *;
    ProdLength(chains, args);
    var result, n;
    r := None;
    end, result, n, key' := FoldFirsts(qs, d, m, key, chains, args);
    if end != Done { return; }
    if n < |qs| {
      AggregateEmpty(m, args, d, definedForEmpty);
      return Done, if definedForEmpty then Some(result) else None, key';
    }
    FullTame(args, d);
    end, result := FoldRemainders(qs, result, m, d, chains, args);
    if end != Done { return; }
    AggregateFull(m, args, d, definedForEmpty);
    r := Some(result);
  }

  lemma FullTame(args: seq<AttrDef>, d: Datum)
    requires FirstEmpty(args, d, 0) >= |args|
    ensures ProductTame(args, d) ==> AllTame(args, d)
  {
  }

  lemma StartedAt(ss: seq<Snapshot>, args: seq<AttrDef>, d: Datum, i: nat)
    requires i < |args| && Started(ss, args, d, i, |args|)
    ensures HoldsFirst(ss[i], Factor(args, i), d)
  {
  }

  lemma Begin<A>(m: Monoid<A>, ss: seq<Snapshot>, args: seq<AttrDef>, d: Datum)
    requires |ss| == |args|
    ensures Started(ss, args, d, 0, 0) && Fold(m, Firsts(args, d, 0)) == m.neutral
  {
  }

  lemma AggregateEmpty<A>(m: Monoid<A>, args: seq<AttrDef>, d: Datum, definedForEmpty: bool)
    ensures var e := FirstEmpty(args, d, 0);
            e < |args| ==>
              (Aggregate(m, args, d, definedForEmpty)
               == if definedForEmpty then Some(Fold(m, Firsts(args, d, e))) else None)
  {
  }

  lemma AggregateFull<A>(m: Monoid<A>, args: seq<AttrDef>, d: Datum, definedForEmpty: bool)
    requires |args| <= FirstEmpty(args, d, 0)
    ensures Aggregate(m, args, d, definedForEmpty)
            == Some(Fold(m, Firsts(args, d, |args|) + Remainders(args, d, |args|)))
  {
  }

  lemma RemaindersNone<A>(m: Monoid<A>, args: seq<AttrDef>, d: Datum, firsts: seq<Datum>)
    ensures Fold(m, firsts + Remainders(args, d, 0)) == Fold(m, firsts)
  {
    assert firsts + [] == firsts;
  }

  lemma RemaindersStep(args: seq<AttrDef>, d: Datum, i: nat, firsts: seq<Datum>)
    ensures firsts + Remainders(args, d, i + 1) == firsts + Remainders(args, d, i) + Tail(Results(args, d, i))
  {
  }

  /** An aggregate is undefined exactly if some argument is empty and it is not defined
      for the empty set. */
  lemma AggregateUndefined<A>(m: Monoid<A>, args: seq<AttrDef>, d: Datum, definedForEmpty: bool)
    ensures Aggregate(m, args, d, definedForEmpty) == None <==>
              !definedForEmpty && exists j :: 0 <= j < |args| && ChainItems(Factor(args, j), d) == []
  {
    hide ChainItems, Fold, Firsts, Remainders;
  }

  /** What is folded first: the first result of every argument. */
  lemma {:induction false} FirstsAre(args: seq<AttrDef>, d: Datum, n: nat)
    requires n <= FirstEmpty(args, d, 0)
    ensures |Firsts(args, d, n)| == n
    ensures forall j :: 0 <= j < n ==>
              ChainItems(Factor(args, j), d) != [] && Firsts(args, d, n)[j] == ChainItems(Factor(args, j), d)[0].datum
    decreases n
  {
    hide ChainItems, Factor;
    if n > 0 { FirstsAre(args, d, n - 1); }
  }

  lemma TailAre(args: seq<AttrDef>, d: Datum, j: nat)
    ensures var ps, tail := ChainItems(Factor(args, j), d), Tail(Results(args, d, j));
            && |tail| == (if ps == [] then 0 else |ps| - 1)
            && forall i :: 1 <= i < |ps| ==> tail[i - 1] == ps[i].datum
  {
    hide ChainItems, Factor;
  }

  /** What is folded then: the other results, argument by argument. */
  lemma {:induction false} RemaindersAre(args: seq<AttrDef>, d: Datum, n: nat, j: nat, i: nat)
    requires j < n && 1 <= i < |ChainItems(Factor(args, j), d)|
    ensures var at := |Remainders(args, d, j)| + i - 1;
            at < |Remainders(args, d, n)| && Remainders(args, d, n)[at] == ChainItems(Factor(args, j), d)[i].datum
    decreases n
  {
    hide ChainItems, Factor, Results, Tail;
    TailAre(args, d, n - 1);
    if j < n - 1 { RemaindersAre(args, d, n - 1, j, i); }
  }

  /** All results: those of argument `j` follow those of the arguments before it. */
  lemma {:induction false} AllResultsAre(args: seq<AttrDef>, d: Datum, n: nat, j: nat, i: nat)
    requires j < n && i < |ChainItems(Factor(args, j), d)|
    ensures var at := |AllResults(args, d, j)| + i;
            at < |AllResults(args, d, n)| && AllResults(args, d, n)[at] == ChainItems(Factor(args, j), d)[i].datum
    ensures |AllResults(args, d, j + 1)| == |AllResults(args, d, j)| + |ChainItems(Factor(args, j), d)|
    decreases n
  {
    hide ChainItems, Factor;
    if j < n - 1 { AllResultsAre(args, d, n - 1, j, i); }
  }
}
