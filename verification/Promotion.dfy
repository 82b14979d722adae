/** Usual arithmetic promotion: a table of rules, searched by binary search, and
    the result type that aggregates infer from it. */
module Promotion {
  import opened Arithmetic

  datatype Type = I8 | U8 | I16 | U16 | I32 | U32 | I64 | U64 | F32 | F64

  datatype Rule = Rule(a: Type, b: Type, r: Type)

  /** The rules whose first operand is `a`. */
  function RulesOf(a: Type): seq<Rule> {
    match a
    case I8 => [
      Rule(I8, U8, I16), Rule(I8, I16, I16), Rule(I8, U16, I32), Rule(I8, I32, I32), Rule(I8, U32, I64),
      Rule(I8, I64, I64), Rule(I8, U64, U64), Rule(I8, F32, F32), Rule(I8, F64, F64)]
    case U8 => [
      Rule(U8, I16, I16), Rule(U8, U16, U16), Rule(U8, I32, I32), Rule(U8, U32, U32), Rule(U8, I64, I64),
      Rule(U8, U64, U64), Rule(U8, F32, F32), Rule(U8, F64, F64)]
    case I16 => [
      Rule(I16, U16, I32), Rule(I16, I32, I32), Rule(I16, U32, I64), Rule(I16, I64, I64), Rule(I16, U64, U64),
      Rule(I16, F32, F32), Rule(I16, F64, F64)]
    case U16 => [
      Rule(U16, I32, I32), Rule(U16, U32, U32), Rule(U16, I64, I64), Rule(U16, U64, U64), Rule(U16, F32, F32),
      Rule(U16, F64, F64)]
    case I32 => [
      Rule(I32, U32, I64), Rule(I32, I64, I64), Rule(I32, U64, U64), Rule(I32, F32, F32), Rule(I32, F64, F64)]
    case U32 => [Rule(U32, I64, I64), Rule(U32, U64, U64), Rule(U32, F32, F32), Rule(U32, F64, F64)]
    case I64 => [Rule(I64, U64, U64), Rule(I64, F32, F32), Rule(I64, F64, F64)]
    case U64 => [Rule(U64, F32, F32), Rule(U64, F64, F64)]
    case F32 => [Rule(F32, F64, F64)]
    case F64 => []
  }

  const TYPES: seq<Type> := [I8, U8, I16, U16, I32, U32, I64, U64, F32, F64]

  /** All rules, in order. */
  function Rules(ts: seq<Type>): seq<Rule> {
    if ts == [] then [] else RulesOf(ts[0]) + Rules(ts[1..])
  }

  const RULES := Rules(TYPES)

  /** Rank on the way up from the small signed types, and from the small
      unsigned ones. */
  function Rank(t: Type): (int, int) {
    match t
    case I8 => (1, 0)
    case U8 => (0, 1)
    case I16 => (2, 2)
    case U16 => (0, 3)
    case I32 => (4, 4)
    case U32 => (0, 5)
    case I64 => (6, 6)
    case U64 => (7, 7)
    case F32 => (8, 8)
    case F64 => (9, 9)
  }

  /** `b` takes in `a`. */
  predicate Leq(a: Type, b: Type) {
    Rank(a).0 <= Rank(b).0 && Rank(a).1 <= Rank(b).1
  }

  /** The signed type that takes in an unsigned one. */
  function Widen(u: Type): Type {
    match u
    case U8 => I16
    case U16 => I32
    case _ => I64
  }

  function Lub(a: Type, b: Type): Type {
    if Leq(a, b) then b
    else if Leq(b, a) then a
    else Widen(if Rank(a).0 == 0 then a else b)
  }

  lemma LubLeast(a: Type, b: Type, c: Type)
    ensures Leq(a, Lub(a, b)) && Leq(b, Lub(a, b))
    ensures Leq(a, c) && Leq(b, c) ==> Leq(Lub(a, b), c)
    ensures Lub(a, b) == Lub(b, a)
    ensures Leq(a, b) && Leq(b, a) ==> a == b
  {
  }

  /** The types themselves: width in bits, and what they hold. */
  function Width(t: Type): nat {
    match t
    case I8 => 8 case U8 => 8 case I16 => 16 case U16 => 16 case I32 => 32
    case U32 => 32 case I64 => 64 case U64 => 64 case F32 => 32 case F64 => 64
  }

  predicate Floating(t: Type) {
    t == F32 || t == F64
  }

  predicate Signed(t: Type) {
    t == I8 || t == I16 || t == I32 || t == I64
  }

  /** Every value of the integer type `a` is one of the integer type `b`. */
  predicate RangeIn(a: Type, b: Type)
    requires !Floating(a) && !Floating(b)
  {
    Lowest(b) <= Lowest(a) && Highest(a) <= Highest(b)
  }

  function Lowest(t: Type): int {
    if Signed(t) then -(Pow2(Width(t) - 1) as int) else 0
  }

  function Highest(t: Type): int {
    if Signed(t) then Pow2(Width(t) - 1) - 1 else Pow2(Width(t)) - 1
  }

  lemma Powers()
    ensures Pow2(7) == 0x80 && Pow2(8) == 0x100 && Pow2(15) == 0x8000 && Pow2(16) == 0x1_0000
    ensures Pow2(31) == 0x8000_0000 && Pow2(32) == 0x1_0000_0000
    ensures Pow2(63) == 0x8000_0000_0000_0000 && Pow2(64) == 0x1_0000_0000_0000_0000
  {
    assert Pow2(4) == 16;
    PowerSum(4, 3);
    PowerSum(4, 4);
    PowerSum(8, 7);
    PowerSum(8, 8);
    PowerSum(16, 15);
    PowerSum(16, 16);
    PowerSum(32, 31);
    PowerSum(32, 32);
  }

  lemma {:induction false} PowerSum(a: nat, b: nat)
    ensures Pow2(a + b) == Pow2(a) * Pow2(b)
    decreases b
  {
    if b > 0 { PowerSum(a, b - 1); }
  }

  /** What "takes in" means of the types: an integer type takes in those whose range lies
      in its own, and the largest unsigned one all signed ones as well, as in C; a
      floating type takes in all integer types and floating ones that are not
      wider, and an integer type no floating one. */
  lemma TakesIn(a: Type, b: Type)
    ensures !Floating(a) && !Floating(b) ==> (Leq(a, b) <==> RangeIn(a, b) || (Signed(a) && b == U64))
    ensures !Floating(a) && Floating(b) ==> Leq(a, b)
    ensures Floating(a) && !Floating(b) ==> !Leq(a, b)
    ensures Floating(a) && Floating(b) ==> (Leq(a, b) <==> Width(a) <= Width(b))
  {
    hide Pow2;
    Powers();
  }

  /** The common type of two: floating exactly if one of them is, and then the wider of
      those that are; for integers, one that holds all values of both, or U64. */
  lemma CommonType(a: Type, b: Type)
    ensures Floating(Lub(a, b)) <==> Floating(a) || Floating(b)
    ensures Floating(a) ==> Width(Lub(a, b)) >= Width(a)
    ensures Floating(a) && !Floating(b) ==> Lub(a, b) == a && Lub(b, a) == a
    ensures Floating(a) && Floating(b) ==> Width(Lub(a, b)) == if Width(a) >= Width(b) then Width(a) else Width(b)
    ensures !Floating(a) && !Floating(b) ==>
              Lub(a, b) == U64 || (RangeIn(a, Lub(a, b)) && RangeIn(b, Lub(a, b)))
    ensures Lub(a, b) == U64 ==> a == U64 || b == U64
  {
    hide RangeIn;
    LubLeast(a, b, a);
    TakesIn(a, Lub(a, b));
    TakesIn(b, Lub(a, b));
  }

  function Number(t: Type): (n: nat)
    ensures n < 10 && TYPES[n] == t
  {
    match t
    case I8 => 0 case U8 => 1 case I16 => 2 case U16 => 3 case I32 => 4
    case U32 => 5 case I64 => 6 case U64 => 7 case F32 => 8 case F64 => 9
  }

  /** Every rule gives the least type that takes in both operands. */
  lemma RowSound(t: Type, i: nat)
    requires i < |RulesOf(t)|
    ensures var rule := RulesOf(t)[i]; rule.a == t && Number(t) < Number(rule.b) && rule.r == Lub(t, rule.b)
  {
  }

  lemma {:induction false} RulesSound(ts: seq<Type>, rule: Rule)
    requires rule in Rules(ts)
    ensures Number(rule.a) < Number(rule.b) && rule.r == Lub(rule.a, rule.b)
    decreases |ts|
  {
    if rule in RulesOf(ts[0]) {
      var i :| 0 <= i < |RulesOf(ts[0])| && RulesOf(ts[0])[i] == rule;
      RowSound(ts[0], i);
    } else {
      RulesSound(ts[1..], rule);
    }
  }

  lemma RowComplete(a: Type, b: Type)
    requires Number(a) < Number(b)
    ensures Rule(a, b, Lub(a, b)) in RulesOf(a)
  {
    var i := Number(b) - Number(a) - 1;
    assert RulesOf(a)[i] == Rule(a, b, Lub(a, b));
  }

  /** There is a rule for every pair of types. */
  lemma {:induction false} RulesComplete(ts: seq<Type>, a: Type, b: Type)
    requires Number(a) < Number(b) && a in ts
    ensures Rule(a, b, Lub(a, b)) in Rules(ts)
    decreases |ts|
  {
    if a == ts[0] {
      RowComplete(a, b);
    } else {
      RulesComplete(ts[1..], a, b);
    }
  }

  // ------------------------------------------------------------ the table

  const CODE_LIMIT: nat := 0x2000  // codes have 13 bits
  const MAX_ENTRIES: nat := 64

  /** Codes of the registered types; zero for the others. */
  ghost predicate Codes(code: Type -> nat) {
    && (forall t :: code(t) < CODE_LIMIT)
    && forall t, u :: code(t) == code(u) != 0 ==> t == u
  }

  datatype Record = Record(key: nat, r: nat)

  /** The two codes, smaller first, in the halves of a word. */
  function Key(a: nat, b: nat): nat {
    if a < b then a + b * 0x10000 else b + a * 0x10000
  }

  lemma KeyInjective(a: nat, b: nat, c: nat, d: nat)
    requires a < CODE_LIMIT && b < CODE_LIMIT && c < CODE_LIMIT && d < CODE_LIMIT
    ensures Key(a, b) == Key(c, d) <==> (a == c && b == d) || (a == d && b == c)
  {
  }

  predicate Sorted(rs: seq<Record>) {
    forall i, j :: 0 <= i < j < |rs| ==> rs[i].key <= rs[j].key
  }

  /** Records of the rules all of whose types are registered. */
  function Recorded(code: Type -> nat, rules: seq<Rule>): seq<Record> {
    if rules == [] then []
    else
      var rule := rules[|rules| - 1];
      var rest := Recorded(code, rules[..|rules| - 1]);
      if code(rule.a) != 0 && code(rule.b) != 0 && code(rule.r) != 0
      then rest + [Record(Key(code(rule.a), code(rule.b)), code(rule.r))] else rest
  }

  lemma RecordStep(code: Type -> nat, rules: seq<Rule>, i: nat)
    ensures Recorded(code, rules[..0]) == [] && Recorded(code, rules[..|rules|]) == Recorded(code, rules)
    ensures i < |rules| ==>
              var (a, b, r) := (code(rules[i].a), code(rules[i].b), code(rules[i].r));
              (Recorded(code, rules[..i + 1])
               == Recorded(code, rules[..i]) + if a != 0 && b != 0 && r != 0 then [Record(Key(a, b), r)] else [])
  {
    assert rules[..|rules|] == rules;
    if i < |rules| { assert rules[..i + 1][..i] == rules[..i] && rules[..i + 1][i] == rules[i]; }
  }

  lemma {:induction false} RecordedShort(code: Type -> nat, rules: seq<Rule>, i: nat)
    requires i <= |rules|
    ensures |Recorded(code, rules[..i])| <= |Recorded(code, rules)| <= |rules|
    decreases |rules|
  {
    if i == |rules| {
      assert rules[..i] == rules;
      if rules != [] { RecordedShort(code, rules[..|rules| - 1], 0); }
    } else {
      RecordedShort(code, rules[..|rules| - 1], i);
      assert rules[..|rules| - 1][..i] == rules[..i];
    }
  }

  lemma {:induction false} InRecorded(code: Type -> nat, rules: seq<Rule>, rule: Rule)
    requires rule in rules && code(rule.a) != 0 && code(rule.b) != 0 && code(rule.r) != 0
    ensures Record(Key(code(rule.a), code(rule.b)), code(rule.r)) in Recorded(code, rules)
    decreases |rules|
  {
    var n := |rules| - 1;
    if rules[n] != rule { InRecorded(code, rules[..n], rule); }
  }

  lemma {:induction false} FromRecorded(code: Type -> nat, rules: seq<Rule>, x: Record)
    requires x in Recorded(code, rules)
    ensures exists rule :: rule in rules && code(rule.a) != 0 && code(rule.b) != 0 && code(rule.r) != 0
                           && x == Record(Key(code(rule.a), code(rule.b)), code(rule.r))
    decreases |rules|
  {
    var n := |rules| - 1;
    if x in Recorded(code, rules[..n]) {
      FromRecorded(code, rules[..n], x);
      var rule :| rule in rules[..n] && code(rule.a) != 0 && code(rule.b) != 0 && code(rule.r) != 0
                  && x == Record(Key(code(rule.a), code(rule.b)), code(rule.r));
      assert rule in rules;
    } else {
      assert rules[n] in rules;
    }
  }

  /** The common type of two codes: zero if there is none. */
  ghost function Common(code: Type -> nat, a: nat, b: nat): nat {
    if t, u :| t != u && code(t) == a != 0 && code(u) == b != 0 then code(Lub(t, u)) else 0
  }

  lemma CommonIs(code: Type -> nat, t: Type, u: Type)
    requires Codes(code) && t != u && code(t) != 0 && code(u) != 0
    ensures Common(code, code(t), code(u)) == code(Lub(t, u))
  {
  }

  datatype Rc = Ok | Memory | EmptySet

  /** The C library's sort, of which only this is used. */
  ghost predicate Sorts(qsort: seq<Record> -> seq<Record>) {
    forall s :: Sorted(qsort(s)) && multiset(qsort(s)) == multiset(s)
  }

  class Table {
    var records: array<Record>
    var nEntries: nat
    ghost var code: Type -> nat

    ghost predicate Valid()
      reads this, records
    {
      && Codes(code) && nEntries <= records.Length == MAX_ENTRIES
      && Sorted(records[..nEntries])
      && multiset(records[..nEntries]) == multiset(Recorded(code, RULES))
    }

    constructor ()
      ensures records.Length == MAX_ENTRIES && fresh(records)
    {
      records := new Record[MAX_ENTRIES](_ => Record(0, 0));
      nEntries := 0;
      code := _ => 0;
    }

    /** hdql_arith_type_promotion_rebuild. */
    method Rebuild(codes: Type -> nat, qsort: seq<Record> -> seq<Record>) returns (rc: Rc)
      requires records.Length == MAX_ENTRIES && Codes(codes) && Sorts(qsort)
      modifies this, records
      ensures records == old(records) && code == codes && Valid()
      ensures rc == if Recorded(codes, RULES) == [] then EmptySet else Ok
    {
      hide Rules, RulesOf, Recorded, Codes;
      code := codes;
      var n := 0;
      var i := 0;
      RecordStep(codes, RULES, 0);
      RulesCount();
      while i < |RULES|
        invariant i <= |RULES| && n <= MAX_ENTRIES && records == old(records) && code == codes
        invariant records[..n] == Recorded(codes, RULES[..i])
      {
        RecordStep(codes, RULES, i);
        RecordedShort(codes, RULES, i);
        RecordedShort(codes, RULES, i + 1);
        var rule := RULES[i];
        var a, b, r := codes(rule.a), codes(rule.b), codes(rule.r);
        if a != 0 && b != 0 && r != 0 {
          if n >= MAX_ENTRIES { return Memory; }
          records[n] := Record(Key(a, b), r);
          n := n + 1;
        }
        i := i + 1;
      }
      assert RULES[..|RULES|] == RULES;
      nEntries := n;
      assert records[..n] == Recorded(codes, RULES);
      if n == 0 { return EmptySet; }
      SortRecords(n, qsort);
      rc := Ok;
    }

    method SortRecords(n: nat, qsort: seq<Record> -> seq<Record>)
      requires n <= records.Length && Sorts(qsort)
      modifies records
      ensures Sorted(records[..n]) && multiset(records[..n]) == multiset(old(records[..n]))
    {
      var sorted := qsort(records[..n]);
      assert Sorted(sorted) && multiset(sorted) == multiset(records[..n]);
      assert |sorted| == |multiset(sorted)| == |multiset(records[..n])| == n;
      forall j | 0 <= j < n {
        records[j] := sorted[j];
      }
      assert records[..n] == sorted;
    }

    /** hdql_arith_type_promote. */
    method Promote(a: nat, b: nat) returns (r: nat)
      requires Valid() && a < CODE_LIMIT && b < CODE_LIMIT
      ensures r == Common(code, a, b)
    {
      hide Rules, RulesOf, Recorded, Codes, Common, Key;
      if a == 0 || b == 0 || nEntries == 0 {
        NothingRecorded(code, a, b, records[..nEntries]);
        return 0;
      }
      var k := Key(a, b);
      var lo, hi := 0, nEntries;
      while lo < hi
        invariant lo <= hi <= nEntries
        invariant forall i :: 0 <= i < nEntries && records[i].key == k ==> lo <= i < hi
      {
        var mid := (lo + hi) / 2;
        if records[mid].key < k {
          lo := mid + 1;
        } else if records[mid].key > k {
          hi := mid;
        } else {
          FoundRecord(code, a, b, records[..nEntries], mid);
          return records[mid].r;
        }
      }
      NoRecord(code, a, b, records[..nEntries]);
      r := 0;
    }
  }

  lemma RulesCount()
    ensures |RULES| == 45 <= MAX_ENTRIES
  {
    RulesFrom(TYPES);
    assert Triangle(9) == 9 + 8 + 7 + 6 + Triangle(5) && Triangle(5) == 15;
  }

  function Triangle(n: nat): nat {
    if n == 0 then 0 else n + Triangle(n - 1)
  }

  lemma TriangleStep(n: int)
    ensures n > 0 ==> Triangle(n) == n + Triangle(n - 1)
    ensures Triangle(0) == 0
  {
  }

  lemma {:induction false} RulesFrom(ts: seq<Type>)
    requires |ts| <= 10 && forall k :: 0 <= k < |ts| ==> Number(ts[k]) == 10 - |ts| + k
    ensures |Rules(ts)| == if ts == [] then 0 else Triangle(|ts| - 1)
    decreases |ts|
  {
    hide RulesOf, Triangle, Number;
    TriangleStep(|ts| - 1);
    if ts != [] {
      RowCount(ts[0]);
      RulesFrom(ts[1..]);
    }
  }

  lemma RowCount(t: Type)
    ensures |RulesOf(t)| == 9 - Number(t)
  {
  }

  lemma RecordMeans(code: Type -> nat, rs: seq<Record>, i: nat) returns (t: Type, u: Type)
    requires Codes(code) && multiset(rs) == multiset(Recorded(code, RULES)) && i < |rs|
    ensures t != u && code(t) != 0 && code(u) != 0 && rs[i] == Record(Key(code(t), code(u)), code(Lub(t, u)))
  {
    assert rs[i] in multiset(rs);
    FromRecorded(code, RULES, rs[i]);
    var rule :| rule in RULES && code(rule.a) != 0 && code(rule.b) != 0 && code(rule.r) != 0
                && rs[i] == Record(Key(code(rule.a), code(rule.b)), code(rule.r));
    RulesSound(TYPES, rule);
    t, u := rule.a, rule.b;
  }

  lemma FoundRecord(code: Type -> nat, a: nat, b: nat, rs: seq<Record>, i: nat)
    requires Codes(code) && multiset(rs) == multiset(Recorded(code, RULES)) && i < |rs|
    requires a < CODE_LIMIT && b < CODE_LIMIT && rs[i].key == Key(a, b)
    ensures rs[i].r == Common(code, a, b)
  {
    var t, u := RecordMeans(code, rs, i);
    KeyInjective(code(t), code(u), a, b);
    CommonIs(code, t, u);
    CommonIs(code, u, t);
    LubLeast(t, u, t);
  }

  lemma PairRecorded(code: Type -> nat, t: Type, u: Type, rs: seq<Record>) returns (i: nat)
    requires Codes(code) && multiset(rs) == multiset(Recorded(code, RULES))
    requires t != u && code(t) != 0 && code(u) != 0 && code(Lub(t, u)) != 0
    ensures i < |rs| && rs[i].key == Key(code(t), code(u))
  {
    hide Lub, Rules, RulesOf, Recorded;
    var x, y := if Number(t) < Number(u) then t else u, if Number(t) < Number(u) then u else t;
    LubLeast(t, u, t);
    RulesComplete(TYPES, x, y);
    InRecorded(code, RULES, Rule(x, y, Lub(x, y)));
    var rec := Record(Key(code(x), code(y)), code(Lub(x, y)));
    assert rec in multiset(rs);
    i :| 0 <= i < |rs| && rs[i] == rec;
  }

  lemma NoRecord(code: Type -> nat, a: nat, b: nat, rs: seq<Record>)
    requires Codes(code) && multiset(rs) == multiset(Recorded(code, RULES))
    requires forall i :: 0 <= i < |rs| ==> rs[i].key != Key(a, b)
    ensures Common(code, a, b) == 0
  {
    hide Lub, Rules, RulesOf, Recorded, Key;
    if t, u :| t != u && code(t) == a != 0 && code(u) == b != 0 {
      CommonIs(code, t, u);
      if code(Lub(t, u)) != 0 { var i := PairRecorded(code, t, u, rs); }
    }
  }

  lemma NothingRecorded(code: Type -> nat, a: nat, b: nat, rs: seq<Record>)
    requires Codes(code) && multiset(rs) == multiset(Recorded(code, RULES))
    requires a == 0 || b == 0 || rs == []
    ensures Common(code, a, b) == 0
  {
    if rs == [] { NoRecord(code, a, b, rs); }
  }

  /** The table is empty exactly if no two registered types have their common type
      registered. */
  lemma NothingToRecord(code: Type -> nat)
    requires Codes(code)
    ensures Recorded(code, RULES) == [] <==>
              forall t, u :: t != u && code(t) != 0 && code(u) != 0 ==> code(Lub(t, u)) == 0
  {
    hide Lub, Rules, RulesOf;
    var rs := Recorded(code, RULES);
    if rs == [] {
      forall t, u | t != u && code(t) != 0 && code(u) != 0
        ensures code(Lub(t, u)) == 0
      {
        if code(Lub(t, u)) != 0 { var i := PairRecorded(code, t, u, rs); }
      }
    } else {
      FromRecorded(code, RULES, rs[0]);
      var rule :| rule in RULES && code(rule.a) != 0 && code(rule.b) != 0 && code(rule.r) != 0
                  && rs[0] == Record(Key(code(rule.a), code(rule.b)), code(rule.r));
      RulesSound(TYPES, rule);
    }
  }
}
