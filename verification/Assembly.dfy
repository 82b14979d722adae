/** How chains are put together and measured. */
module Assembly {
  import opened Denotation
  import opened Levels

  /** hdql_query_append: links the chain `next` after the chain `current`. */
  method Append(current: Query, next: Query, ghost ns: seq<Query>, ghost ads: seq<AttrDef>, ghost ms: seq<Query>,
      ghost bds: seq<AttrDef>)
    returns (root: Query)
    requires ChainOk(ns, ads) && ChainOk(ms, bds) && Disjoint(ns, ms)
    requires current == ns[0] && next == ms[0]
    modifies {ns[|ns| - 1]}`next, {next}`prev
    ensures root == current && ChainOk(ns + ms, ads + bds)
  {
    hide ChainOk, LevelOk, Separate;
    PartsOk(ns, ads);
    PartsOk(ms, bds);
    JoinedSeparate(ns, ms);
    ghost var cs := ns + ms;
    Distinct(cs);
    root := current;
    var last := Last(current, ns, ads);
    assert last == cs[|ns| - 1] && next == cs[|ns|];
    assert forall i :: 0 <= i < |cs| ==> LevelOk(cs[i]);
    SetNext(last, next);
    assert forall i :: 0 <= i < |cs| ==> LevelOk(cs[i]);
    SetPrev(next, last);
    assert forall i :: 0 <= i < |cs| ==> LevelOk(cs[i]);
    assert Linked(cs) by {
      forall i | 0 <= i < |cs|
        ensures LinkedAt(cs, i, null, null)
      {
        if i < |ns| {
          assert old(LinkedAt(ns, i, null, null));
        } else {
          assert old(LinkedAt(ms, i - |ns|, null, null));
        }
      }
    }
    JoinedOk(cs, ads + bds);
  }

  /** The links of a level itself do not matter below it. */
  method SetNext(q: Query, n: Query)
    requires LevelOk(q)
    modifies {q}`next
    ensures q.next == n && LevelOk(q)
  {
    q.next := n;
  }

  method SetPrev(q: Query, n: Query)
    requires LevelOk(q)
    modifies {q}`prev
    ensures q.prev == n && LevelOk(q)
  {
    q.prev := n;
  }

  method Last(current: Query, ghost ns: seq<Query>, ghost ads: seq<AttrDef>) returns (cq: Query)
    requires ChainOk(ns, ads) && current == ns[0]
    ensures cq == ns[|ns| - 1]
  {
    hide ChainOk, LevelOk, Separate;
    PartsOk(ns, ads);
    cq := current;
    ghost var k := 0;
    while cq.next != null
      invariant k < |ns| && cq == ns[k]
      decreases |ns| - k
    {
      assert LinkedAt(ns, k, null, null);
      cq := cq.next;
      k := k + 1;
    }
    assert LinkedAt(ns, k, null, null);
  }

  /** The levels are distinct, and none is below another. */
  lemma Distinct(ns: seq<Query>)
    requires Separate(ns)
    ensures forall i, j :: 0 <= i < |ns| && 0 <= j < |ns| && i != j ==> ns[i] != ns[j] && ns[i] !in ns[j].nodes
  {
    forall i, j | 0 <= i < |ns| && 0 <= j < |ns| && i != j
      ensures ns[i] != ns[j] && ns[i] !in ns[j].nodes
    {
      assert if i < j then ns[i].nodes !! ns[j].nodes else ns[j].nodes !! ns[i].nodes;
      assert ns[i] in ns && ns[j] in ns;
    }
  }

  /** Levels that share nothing. */
  ghost predicate Separate(ns: seq<Query>) {
    && (forall n :: n in ns ==> n in n.nodes)
    && forall i, j :: 0 <= i < j < |ns| ==> ns[i].nodes !! ns[j].nodes && ns[i].buffers !! ns[j].buffers
  }

  lemma JoinedSeparate(ns: seq<Query>, ms: seq<Query>)
    requires Separate(ns) && Separate(ms) && Disjoint(ns, ms)
    ensures Separate(ns + ms)
  {
    var cs := ns + ms;
    forall i, j | 0 <= i < j < |cs|
      ensures cs[i].nodes !! cs[j].nodes && cs[i].buffers !! cs[j].buffers
    {
      if i < |ns| <= j {
        assert cs[i] in ns && cs[j] in ms;
        assert cs[i].nodes <= Foot(ns) && cs[j].nodes <= Foot(ms);
        assert cs[i].buffers <= Bufs(ns) && cs[j].buffers <= Bufs(ms);
      }
    }
  }

  /** Level `i` is linked to its neighbours in `ns`; beyond the ends are
      `before` and `after`. */
  ghost predicate LinkedAt(ns: seq<Query>, i: nat, before: Query?, after: Query?)
    requires i < |ns|
    reads ns[i]
  {
    && ns[i].next == (if i + 1 < |ns| then ns[i+1] else after)
    && ns[i].prev == (if i > 0 then ns[i-1] else before)
  }

  ghost predicate Linked(ns: seq<Query>)
    reads ns
  {
    forall i :: 0 <= i < |ns| ==> LinkedAt(ns, i, null, null)
  }

  lemma JoinedOk(cs: seq<Query>, ads: seq<AttrDef>)
    requires |cs| == |ads| > 0 && Separate(cs)
    requires (forall i :: 0 <= i < |cs| ==> cs[i].ad == ads[i] && LevelOk(cs[i])) && Linked(cs)
    ensures ChainOk(cs, ads)
  {
    hide LevelOk;
    forall i | 0 <= i < |cs|
      ensures cs[i].next == NodeAt(cs, i + 1) && cs[i].prev == NodeAt(cs, i - 1)
    {
      assert LinkedAt(cs, i, null, null);
    }
  }

  lemma PartsOk(ns: seq<Query>, ads: seq<AttrDef>)
    requires ChainOk(ns, ads)
    ensures |ns| == |ads| > 0 && Separate(ns)
    ensures (forall i :: 0 <= i < |ns| ==> ns[i].ad == ads[i] && LevelOk(ns[i])) && Linked(ns)
  {
    hide LevelOk;
  }

  /** hdql_query_depth. */
  method Depth(q: Query, ghost ns: seq<Query>, ghost ads: seq<AttrDef>) returns (depth: nat)
    requires ChainOk(ns, ads) && q == ns[0]
    ensures depth == |ads|
  {
    depth := 1;
    var cq := q;
    while cq.next != null
      invariant 1 <= depth <= |ns| && cq == ns[depth - 1]
      decreases |ns| - depth
    {
      assert cq.next == NodeAt(ns, depth);
      cq := cq.next;
      depth := depth + 1;
    }
    assert cq.next == NodeAt(ns, depth);
  }

  lemma {:induction false} FullyScalarAll(ads: seq<AttrDef>)
    ensures FullyScalar(ads) <==> forall i :: 0 <= i < |ads| ==> ScalarLevel(ads[i])
    decreases |ads|
  {
    if ads != [] {
      FullyScalarAll(ads[1..]);
      assert forall i :: 0 <= i < |ads| - 1 ==> ads[1..][i] == ads[i + 1];
    }
  }

  /** hdql_query_is_fully_scalar: no level iterates, at any depth of forwarding. */
  method IsFullyScalar(q: Query, ghost ns: seq<Query>, ghost ads: seq<AttrDef>) returns (scalar: bool)
    requires ChainOk(ns, ads) && q == ns[0]
    ensures scalar == FullyScalar(ads)
    decreases ads
  {
    FullyScalarAll(ads);
    PartsOk(ns, ads);
    hide FullyScalar;
    var cq := q;
    ghost var k := 0;
    while true
      invariant k < |ns| && cq == ns[k]
      invariant forall i :: 0 <= i < k ==> ScalarLevel(ads[i])
      decreases |ns| - k
    {
      assert cq.ad == ads[k] && LevelOk(cq) && LinkedAt(ns, k, null, null);
      if cq.ad.Collection? || cq.ad.Bound? { return false; }
      if cq.ad.Fwd? {
        var inner := IsFullyScalar(cq.sub, cq.subNodes, cq.ad.sub);
        if !inner { return false; }
      }
      if cq.next == null { return true; }
      cq := cq.next;
      k := k + 1;
    }
  }
}
