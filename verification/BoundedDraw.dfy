/** Unbiased draws below a bound, by rejection.  The 64-bit draws of the
    generator are an arbitrary stream. */
module BoundedDraw {
  import opened Arithmetic

  const WORD: nat := 0x1_0000_0000_0000_0000

  type Draw = r: nat | r < WORD witness 0

  /** `-bound % bound` in 64-bit unsigned arithmetic. */
  function Threshold(bound: nat): nat
    requires 0 < bound < WORD
  {
    (WORD - bound) % bound
  }

  /** The length of the accepted range `[threshold, 2^64)` is a multiple of the
      bound, and fewer than half of all draws are rejected. */
  lemma AcceptedRange(bound: nat) returns (groups: nat)
    requires 0 < bound < WORD
    ensures WORD - Threshold(bound) == groups * bound && groups > 0
    ensures 2 * Threshold(bound) < WORD
  {
    var q, t := (WORD - bound) / bound, Threshold(bound);
    assert WORD - bound == q * bound + t;
    groups := q + 1;
    assert groups * bound == q * bound + bound;
    if q == 0 {
      assert t == WORD - bound;
    } else {
      MulMono(1, q, bound);
    }
  }

  /** The draws that give `x`, in increasing order, one in each of the groups of
      `bound` accepted draws. */
  function Preimage(bound: nat, x: nat, group: nat): (r: nat)
    requires 0 < bound < WORD && x < bound
    ensures Threshold(bound) + group * bound <= r < Threshold(bound) + group * bound + bound
  {
    var t := Threshold(bound);
    t + group * bound + if x >= t % bound then x - t % bound else x + bound - t % bound
  }

  /** Every group of `bound` consecutive accepted draws holds exactly one draw
      for every result: all results have the same number of accepted draws. */
  lemma Uniform(bound: nat, x: nat, group: nat, r: nat)
    requires 0 < bound < WORD && x < bound
    requires Threshold(bound) + group * bound <= r < Threshold(bound) + (group + 1) * bound
    ensures r % bound == x <==> r == Preimage(bound, x, group)
  {
    var t := Threshold(bound);
    var u := r - t - group * bound;  // position in the group
    assert (group + 1) * bound == group * bound + bound;
    var m := t % bound;
    var k := t / bound;
    assert t == k * bound + m;
    if m + u < bound {
      assert r == (k + group) * bound + (m + u) by { Distribute(k, group, bound); }
      Quotient(r, bound, k + group, m + u);
    } else {
      assert r == (k + group + 1) * bound + (m + u - bound) by {
        Distribute(k, group, bound);
        Distribute(k + group, 1, bound);
      }
      Quotient(r, bound, k + group + 1, m + u - bound);
    }
  }

  /** The draws in the first `n` groups that give `x`. */
  function Giving(bound: nat, x: nat, n: nat): set<nat>
    requires 0 < bound < WORD
  {
    set r: nat | Threshold(bound) <= r < Threshold(bound) + n * bound && r % bound == x
  }

  /** One more group gives one more draw. */
  lemma GivingStep(bound: nat, x: nat, n: nat)
    requires 0 < bound < WORD && x < bound
    ensures Giving(bound, x, n + 1) == Giving(bound, x, n) + {Preimage(bound, x, n)}
    ensures Preimage(bound, x, n) !in Giving(bound, x, n)
  {
    hide Threshold;
    var t, one := Threshold(bound), Preimage(bound, x, n);
    var lo := t + n * bound;
    assert t + (n + 1) * bound == lo + bound by { Distribute(n, 1, bound); }
    forall r: nat | lo <= r < lo + bound
      ensures r % bound == x <==> r == one
    {
      Uniform(bound, x, n, r);
    }
  }

  lemma {:induction false} GivingCount(bound: nat, x: nat, n: nat)
    requires 0 < bound < WORD && x < bound
    ensures |Giving(bound, x, n)| == n
    decreases n
  {
    hide Giving;
    if n == 0 {
      GivingNone(bound, x);
    } else {
      GivingCount(bound, x, n - 1);
      GivingStep(bound, x, n - 1);
    }
  }

  lemma GivingNone(bound: nat, x: nat)
    requires 0 < bound < WORD
    ensures Giving(bound, x, 0) == {}
  {
  }

  /** All results are equally likely: of the accepted draws, the same number gives
      each of them. */
  lemma EquallyMany(bound: nat, x: nat)
    requires 0 < bound < WORD && x < bound
    ensures |set r: nat | Threshold(bound) <= r < WORD && r % bound == x| * bound == WORD - Threshold(bound)
  {
    var groups := AcceptedRange(bound);
    GivingCount(bound, x, groups);
    assert (set r: nat | Threshold(bound) <= r < WORD && r % bound == x) == Giving(bound, x, groups);
  }

  lemma Distribute(a: nat, b: nat, n: nat)
    ensures (a + b) * n == a * n + b * n
  {
  }

  /** Draws consumed until the first accepted one, which is included. */
  predicate FirstAccepted(draws: seq<Draw>, bound: nat, n: nat)
    requires 0 < bound < WORD
  {
    0 < n <= |draws| && draws[n - 1] >= Threshold(bound) && forall i :: 0 <= i < n - 1 ==> draws[i] < Threshold(bound)
  }

  /** hdql_rand_pcg32_uint64_below on a finite piece of the stream.  `done` is
      false if every draw of the piece was rejected. */
  method Below(draws: seq<Draw>, bound: nat) returns (r: nat, used: nat, done: bool)
    requires bound < WORD
    ensures bound == 0 ==> done && r == 0 && used == 0
    ensures bound > 0 && done ==> FirstAccepted(draws, bound, used) && r == draws[used - 1] % bound && r < bound
    ensures bound > 0 && !done ==> forall i :: 0 <= i < |draws| ==> draws[i] < Threshold(bound)
  {
    r, used, done := 0, 0, true;
    if bound == 0 { return; }
    var threshold := (WORD - bound) % bound;
    while used < |draws|
      invariant used <= |draws| && forall i :: 0 <= i < used ==> draws[i] < threshold
    {
      r := draws[used];
      used := used + 1;
      if r >= threshold {
        r := r % bound;
        return;
      }
    }
    done := false;
  }

  /** hdql_randgen_below hands the result over as a truth value. */
  function BelowAsBool(r: nat): (b: nat)
    ensures b == 0 <==> r == 0
  {
    if r != 0 then 1 else 0
  }

  /** `x` is the value of some draw below the bound, as it is handed over. */
  ghost predicate Returned(bound: nat, x: nat) {
    exists r: nat {:trigger BelowAsBool(r)} :: r < bound && BelowAsBool(r) == x
  }

  /** Its header promises any number below the bound.  That holds only for
      bounds up to two; beyond, results from two on are never returned. */
  lemma BelowAsBoolRange(bound: nat)
    requires bound > 0
    ensures (forall x: nat :: x < bound ==> Returned(bound, x)) <==> bound <= 2
  {
    if bound <= 2 {
      forall x: nat | x < bound
        ensures Returned(bound, x)
      {
        assert BelowAsBool(x) == x;
      }
    } else {
      assert !Returned(bound, 2);
    }
  }
}
