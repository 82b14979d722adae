/** The result type that an arithmetic aggregate infers from its arguments. */
module Inference {
  import opened Denotation
  import opened Promotion

  /** What is known of an argument: whether it is atomic, whether it is a static
      constant, and its arithmetic type code. */
  datatype Argument = Argument(atomic: bool, constant: bool, code: nat)

  /** The scan over the arguments: an error code, or the type inferred so far and
      whether all arguments were constants. */
  datatype Scan = Error(rc: int) | Going(code: nat, constants: bool)

  ghost function Next(code: Type -> nat, logic: nat, sofar: nat, constants: bool, x: Argument): Scan {
    if !x.atomic then Error(-2)
    else if x.code == logic then Error(-4)
    else if sofar == 0 || sofar == x.code then Going(x.code, constants && x.constant)
    else if Common(code, sofar, x.code) == 0 then Error(-3)
    else Going(Common(code, sofar, x.code), constants && x.constant)
  }

  /** The scan after the arguments `args`. */
  ghost function ScanOf(code: Type -> nat, logic: nat, args: seq<Argument>): Scan {
    if args == [] then Going(0, true)
    else
      match ScanOf(code, logic, args[..|args| - 1])
      case Error(rc) => Error(rc)
      case Going(sofar, constants) => Next(code, logic, sofar, constants, args[|args| - 1])
  }

  /** The type inferred from arguments none of which is refused. */
  ghost function TypeOf(code: Type -> nat, args: seq<Argument>): nat
    requires args != []
  {
    var last := args[|args| - 1].code;
    if |args| == 1 then last
    else
      var before := TypeOf(code, args[..|args| - 1]);
      if before == last then last else Common(code, before, last)
  }

  /** Argument `i` is atomic, not of the logic type, and has a common type with those
      before it. */
  ghost predicate Accepted(code: Type -> nat, logic: nat, args: seq<Argument>, i: nat)
    requires i < |args|
  {
    args[i].atomic && args[i].code != logic && (i == 0 || TypeOf(code, args[..i + 1]) != 0)
  }

  /** The return code for an argument that is refused. */
  function Refusal(x: Argument, logic: nat): int {
    if !x.atomic then -2 else if x.code == logic then -4 else -3
  }

  /** What the scan comes to. */
  lemma {:induction false} ScanMeans(code: Type -> nat, logic: nat, args: seq<Argument>)
    requires forall i :: 0 <= i < |args| ==> args[i].code != 0
    ensures match ScanOf(code, logic, args)
            case Going(t, constants) =>
              && (forall i :: 0 <= i < |args| ==> Accepted(code, logic, args, i))
              && t == (if args == [] then 0 else TypeOf(code, args))
              && (t == 0 <==> args == [])
              && (constants <==> forall i :: 0 <= i < |args| ==> args[i].constant)
            case Error(rc) =>
              exists i :: 0 <= i < |args| && FirstRefused(code, logic, args, i) && rc == Refusal(args[i], logic)
    decreases |args|
  {
    hide Common;
    if args != [] {
      var n := |args| - 1;
      var before := args[..n];
      ScanMeans(code, logic, before);
      forall i | 0 <= i < n
        ensures Accepted(code, logic, args, i) <==> Accepted(code, logic, before, i)
      {
        assert before[..i + 1] == args[..i + 1];
      }
      assert args[..n + 1] == args;
      if ScanOf(code, logic, before).Error? {
        var i :| 0 <= i < n && FirstRefused(code, logic, before, i)
                 && ScanOf(code, logic, before).rc == Refusal(before[i], logic);
        assert FirstRefused(code, logic, args, i);
      } else if ScanOf(code, logic, args).Error? {
        assert FirstRefused(code, logic, args, n);
      }
    }
  }

  /** Argument `i` is the first that is refused. */
  ghost predicate FirstRefused(code: Type -> nat, logic: nat, args: seq<Argument>, i: nat) {
    i < |args| && !Accepted(code, logic, args, i) && forall j :: 0 <= j < i ==> Accepted(code, logic, args, j)
  }

  lemma ScanStep(code: Type -> nat, logic: nat, args: seq<Argument>, n: nat)
    requires n < |args| && ScanOf(code, logic, args[..n]).Going?
    ensures var s := ScanOf(code, logic, args[..n]);
            ScanOf(code, logic, args[..n + 1]) == Next(code, logic, s.code, s.constants, args[n])
    ensures ScanOf(code, logic, args[..n + 1]).Error? ==>
            ScanOf(code, logic, args) == ScanOf(code, logic, args[..n + 1])
  {
    assert args[..n + 1][..n] == args[..n];
    if ScanOf(code, logic, args[..n + 1]).Error? { Stuck(code, logic, args, n + 1); }
  }

  /** _infer_simple_arithmetic_type: a negative code on failure, -1 if all
      arguments are constants, else the number of arguments. */
  method InferSimpleArithmetic(args: seq<Argument>, types: Table, logic: nat) returns (rc: int, rTypeCode: nat)
    requires types.Valid() && args != []
    requires forall i :: 0 <= i < |args| ==> 0 < args[i].code < CODE_LIMIT
    ensures match ScanOf(types.code, logic, args)
            case Error(e) => rc == e < -1
            case Going(code, constants) => rTypeCode == code != 0 && rc == if constants then -1 else |args|
    ensures (forall i :: 0 <= i < |args| ==> Accepted(types.code, logic, args, i)) ==>
              && rTypeCode == TypeOf(types.code, args)
              && rc == if forall i :: 0 <= i < |args| ==> args[i].constant then -1 else |args|
    ensures forall i :: 0 <= i < |args| && FirstRefused(types.code, logic, args, i) ==>
              rc == if !args[i].atomic then -2 else if args[i].code == logic then -4 else -3
  {
    rc, rTypeCode := ScanArguments(args, types, logic);
    ScanMeans(types.code, logic, args);
    hide Common, ScanOf, Accepted, TypeOf;
    forall i | 0 <= i < |args| && FirstRefused(types.code, logic, args, i)
      ensures rc == Refusal(args[i], logic)
    {
      OneRefused(types.code, logic, args, i);
    }
  }

  lemma OneRefused(code: Type -> nat, logic: nat, args: seq<Argument>, i: nat)
    requires FirstRefused(code, logic, args, i)
    ensures forall j: nat :: FirstRefused(code, logic, args, j) ==> j == i
    ensures !forall j :: 0 <= j < |args| ==> Accepted(code, logic, args, j)
  {
    hide Accepted;
  }

  /** The loop over the arguments. */
  method ScanArguments(args: seq<Argument>, types: Table, logic: nat) returns (rc: int, rTypeCode: nat)
    requires types.Valid() && args != []
    requires forall i :: 0 <= i < |args| ==> 0 < args[i].code < CODE_LIMIT
    ensures match ScanOf(types.code, logic, args)
            case Error(e) => rc == e < -1
            case Going(code, constants) => rTypeCode == code != 0 && rc == if constants then -1 else |args|
  {
    hide Common, ScanOf, Recorded, Sorted, Rules, RulesOf;
    rTypeCode := 0;
    var constants, nArgs := true, 0;
    ScanNone(types.code, logic, args);
    while nArgs < |args|
      invariant nArgs <= |args| && rTypeCode < CODE_LIMIT && (rTypeCode == 0 <==> nArgs == 0)
      invariant ScanOf(types.code, logic, args[..nArgs]) == Going(rTypeCode, constants)
    {
      var x := args[nArgs];
      ScanStep(types.code, logic, args, nArgs);
      if !x.atomic { return -2, rTypeCode; }
      if !x.constant { constants := false; }
      if x.code == logic { return -4, rTypeCode; }
      if rTypeCode != 0 {
        if rTypeCode != x.code {
          CommonSmall(types.code, rTypeCode, x.code);
          var promoted := types.Promote(rTypeCode, x.code);
          if promoted == 0 { return -3, rTypeCode; }
          rTypeCode := promoted;
        }
      } else {
        rTypeCode := x.code;
      }
      nArgs := nArgs + 1;
    }
    rc := if constants then -1 else nArgs;
  }

  lemma ScanNone(code: Type -> nat, logic: nat, args: seq<Argument>)
    ensures ScanOf(code, logic, args[..0]) == Going(0, true)
    ensures args[..|args|] == args
  {
    assert args[..0] == [];
  }

  lemma CommonSmall(code: Type -> nat, a: nat, b: nat)
    requires Codes(code)
    ensures Common(code, a, b) < CODE_LIMIT
  {
  }

  /** Errors stay. */
  lemma {:induction false} Stuck(code: Type -> nat, logic: nat, args: seq<Argument>, n: nat)
    requires n <= |args| && ScanOf(code, logic, args[..n]).Error?
    ensures ScanOf(code, logic, args) == ScanOf(code, logic, args[..n])
    decreases |args|
  {
    if n == |args| {
      assert args[..n] == args;
    } else {
      assert args[..|args| - 1][..n] == args[..n];
      Stuck(code, logic, args[..|args| - 1], n);
    }
  }

  /** The inference on types alone, where only those in `reg` are registered. */
  function Infer(reg: set<Type>, ts: seq<Type>): Option<Type>
    requires ts != []
  {
    var n := |ts| - 1;
    if n == 0 then Some(ts[0])
    else
      match Infer(reg, ts[..n])
      case None => None
      case Some(t) => if t == ts[n] then Some(t) else if Lub(t, ts[n]) in reg then Some(Lub(t, ts[n])) else None
  }

  /** Arguments that are atomic and of the given numeric types. */
  ghost predicate Numeric(code: Type -> nat, logic: nat, args: seq<Argument>, ts: seq<Type>) {
    && |args| == |ts|
    && forall i :: 0 <= i < |ts| ==>
         args[i].atomic && args[i].code == code(ts[i]) && code(ts[i]) != 0 && code(ts[i]) != logic
  }

  ghost function Registered(code: Type -> nat): set<Type> {
    set t: Type | code(t) != 0
  }

  /** The scan over numeric arguments is the inference over their types. */
  lemma {:induction false} ScanInfers(code: Type -> nat, logic: nat, args: seq<Argument>, ts: seq<Type>)
    requires Codes(code) && Numeric(code, logic, args, ts) && ts != []
    ensures match Infer(Registered(code), ts)
            case None => ScanOf(code, logic, args) == Error(-3)
            case Some(t) =>
              code(t) != 0 && ScanOf(code, logic, args).Going? && ScanOf(code, logic, args).code == code(t)
    decreases |ts|
  {
    hide Common, Lub, Leq;
    var n := |ts| - 1;
    assert args[..n + 1] == args;
    if n == 0 {
      ScanNone(code, logic, args);
      ScanStep(code, logic, args, 0);
    } else {
      ScanInfers(code, logic, args[..n], ts[..n]);
      var before := Infer(Registered(code), ts[..n]);
      if before.Some? {
        ScanStep(code, logic, args, n);
        if before.value != ts[n] { CommonIs(code, before.value, ts[n]); }
      }
    }
  }

  /** Least type that takes in all. */
  function LubAll(ts: seq<Type>): Type
    requires ts != []
  {
    if |ts| == 1 then ts[0] else Lub(LubAll(ts[..|ts| - 1]), ts[|ts| - 1])
  }

  lemma {:induction false} LubAllLeast(ts: seq<Type>, c: Type)
    requires ts != []
    ensures forall t :: t in ts ==> Leq(t, LubAll(ts))
    ensures (forall t :: t in ts ==> Leq(t, c)) ==> Leq(LubAll(ts), c)
    decreases |ts|
  {
    hide Lub, Leq;
    var n := |ts| - 1;
    if n == 0 {
      LubLeast(ts[0], ts[0], c);
      LubSame(ts[0]);
    } else {
      LubAllLeast(ts[..n], c);
      var a, b := LubAll(ts[..n]), ts[n];
      LubLeast(a, b, c);
      assert forall t :: t in ts[..n] ==> t in ts;
      assert b in ts;
      forall t | t in ts
        ensures Leq(t, LubAll(ts))
      {
        if t in ts[..n] { LeqTrans(t, a, LubAll(ts)); }
      }
    }
  }

  lemma LubSame(a: Type)
    ensures Lub(a, a) == a && Leq(a, a)
  {
  }

  lemma LeqTrans(a: Type, b: Type, c: Type)
    requires Leq(a, b) && Leq(b, c)
    ensures Leq(a, c)
  {
  }

  /** The order of the types does not matter. */
  lemma LubAllOrder(ts: seq<Type>, us: seq<Type>)
    requires ts != [] && us != [] && forall t :: t in ts <==> t in us
    ensures LubAll(ts) == LubAll(us)
  {
    LubAllLeast(ts, LubAll(us));
    LubAllLeast(us, LubAll(ts));
    LubLeast(LubAll(ts), LubAll(us), LubAll(ts));
  }

  /** With all ten types registered, numeric arguments always infer the least
      type that takes in all of theirs. */
  lemma {:induction false} InferAll(reg: set<Type>, ts: seq<Type>)
    requires ts != [] && forall t: Type :: t in reg
    ensures Infer(reg, ts) == Some(LubAll(ts))
    decreases |ts|
  {
    if |ts| > 1 {
      InferAll(reg, ts[..|ts| - 1]);
      LubLeast(ts[|ts| - 1], ts[|ts| - 1], ts[|ts| - 1]);
    }
  }

  /** Registered types that have a registered upper bound have their least upper
      bound registered. */
  ghost predicate BoundedLubs(reg: set<Type>) {
    forall a, b, c :: !Gap(reg, a, b, c)
  }

  predicate Gap(reg: set<Type>, a: Type, b: Type, c: Type) {
    a in reg && b in reg && c in reg && Leq(a, c) && Leq(b, c) && Lub(a, b) !in reg
  }

  /** Arguments in another order infer the same. */
  ghost predicate SameInference(reg: set<Type>, ts: seq<Type>, us: seq<Type>) {
    (forall t :: t in ts ==> t in reg) && multiset(ts) == multiset(us) && ts != [] && us != [] ==>
        Infer(reg, ts) == Infer(reg, us)
  }

  ghost predicate OrderFree(reg: set<Type>) {
    forall ts: seq<Type>, us: seq<Type> :: SameInference(reg, ts, us)
  }

  lemma {:induction false} InferBounded(reg: set<Type>, ts: seq<Type>)
    requires ts != [] && (forall t :: t in ts ==> t in reg) && BoundedLubs(reg)
    ensures Infer(reg, ts) == if LubAll(ts) in reg then Some(LubAll(ts)) else None
    decreases |ts|
  {
    var n := |ts| - 1;
    if n > 0 {
      var a, b := LubAll(ts[..n]), ts[n];
      assert forall t :: t in ts[..n] ==> t in ts;
      InferBounded(reg, ts[..n]);
      LubLeast(a, b, a);
      if Lub(a, b) in reg && a !in reg { PrefixIn(reg, ts[..n], Lub(a, b)); }
    }
  }

  /** Below a registered bound every least upper bound is registered. */
  lemma {:induction false} PrefixIn(reg: set<Type>, ts: seq<Type>, c: Type)
    requires ts != [] && (forall t :: t in ts ==> t in reg) && BoundedLubs(reg)
    requires c in reg && Leq(LubAll(ts), c)
    ensures LubAll(ts) in reg
    decreases |ts|
  {
    var n := |ts| - 1;
    if n > 0 {
      var a, b := LubAll(ts[..n]), ts[n];
      LubLeast(a, b, c);
      assert forall t :: t in ts[..n] ==> t in ts;
      PrefixIn(reg, ts[..n], c);
      assert !Gap(reg, a, b, c);
    }
  }

  lemma SameElements(ts: seq<Type>, us: seq<Type>)
    requires multiset(ts) == multiset(us)
    ensures |ts| == |us| && forall t :: t in ts <==> t in us
  {
    assert |multiset(ts)| == |ts| && |multiset(us)| == |us|;
    forall t
      ensures t in ts <==> t in us
    {
      assert t in ts <==> t in multiset(ts);
      assert t in us <==> t in multiset(us);
    }
  }

  /** Main theorem: which types are registered decides whether the order of the
      arguments can matter. */
  lemma OrderFreeExactly(reg: set<Type>)
    ensures OrderFree(reg) <==> BoundedLubs(reg)
  {
    hide Gap, SameInference;
    if BoundedLubs(reg) {
      forall ts: seq<Type>, us: seq<Type>
        ensures SameInference(reg, ts, us)
      {
        BoundedSame(reg, ts, us);
      }
    } else {
      var a, b, c :| Gap(reg, a, b, c);
      ThreeTypes(reg, a, b, c);
    }
  }

  lemma BoundedSame(reg: set<Type>, ts: seq<Type>, us: seq<Type>)
    requires BoundedLubs(reg)
    ensures SameInference(reg, ts, us)
  {
    hide Lub, Leq, Infer, BoundedLubs;
    if (forall t :: t in ts ==> t in reg) && multiset(ts) == multiset(us) && ts != [] && us != [] {
      SameElements(ts, us);
      InferBounded(reg, ts);
      InferBounded(reg, us);
      LubAllOrder(ts, us);
    }
  }

  lemma ThreeTypes(reg: set<Type>, a: Type, b: Type, c: Type)
    requires Gap(reg, a, b, c)
    ensures !OrderFree(reg)
  {
    var ts, us := [a, c, b], [a, b, c];
    InferThree(reg, a, c, b);
    InferThree(reg, a, b, c);
    assert multiset(ts) == multiset(us);
    assert !SameInference(reg, ts, us);
  }

  lemma InferThree(reg: set<Type>, a: Type, b: Type, c: Type)
    ensures Infer(reg, [a, b, c]) ==
              var t := if a == b then Some(a) else if Lub(a, b) in reg then Some(Lub(a, b)) else None;
              if t.None? then None
              else if t.value == c then t
              else if Lub(t.value, c) in reg then Some(Lub(t.value, c)) else None
  {
    assert [a, b, c][..2] == [a, b] && [a, b][..1] == [a];
    assert Infer(reg, [a]) == Some(a);
    assert Infer(reg, [a, b]) == if a == b then Some(a) else if Lub(a, b) in reg then Some(Lub(a, b)) else None;
  }

  /** All ten types make the order irrelevant; without the 16-bit integers it
      matters. */
  lemma OrderExamples(all: set<Type>)
    requires forall t: Type :: t in all
    ensures OrderFree(all) && !OrderFree({I8, U8, I32})
  {
    OrderFreeExactly(all);
    ThreeTypes({I8, U8, I32}, I8, U8, I32);
  }
}
