/** The arena allocator: blocks of whole pages, used from the front, never freed
    one by one. */
module Arena {
  import opened Denotation
  import Arithmetic

  const WORD_SIZE: nat := 8
  const HEADER: nat := 24  // next, used, capacity

  /** A block at address `base`: header, then `capacity` bytes of data. */
  datatype Block = Block(base: nat, used: nat, capacity: nat)

  /** A region handed out: offset and length in the data of a block. */
  datatype Region = Region(block: nat, offset: nat, length: nat)

  function Align(size: nat): (r: nat)
    ensures size <= r < size + WORD_SIZE && r % WORD_SIZE == 0
  {
    (size + WORD_SIZE - 1) / WORD_SIZE * WORD_SIZE
  }

  function WholePages(size: nat, page: nat): (r: nat)
    requires page > 0
    ensures size <= r < size + page && r % page == 0
  {
    var n := (size + page - 1) / page;
    Pages(size, page, n);
    n * page
  }

  lemma Pages(size: nat, page: nat, n: nat)
    requires page > 0 && n == (size + page - 1) / page
    ensures size <= n * page < size + page && (n * page) % page == 0
  {
    var r := (size + page - 1) % page;
    assert size + page - 1 == n * page + r;
    Arithmetic.Quotient(n * page, page, n, 0);
  }

  /** What was mapped for a block. */
  function Mapping(b: Block): (nat, nat) {
    (b.base, b.capacity + HEADER)
  }

  predicate Apart(a: (nat, nat), b: (nat, nat)) {
    a.0 + a.1 <= b.0 || b.0 + b.1 <= a.0
  }

  function Address(blocks: seq<Block>, r: Region): nat
    requires r.block < |blocks|
  {
    blocks[r.block].base + HEADER + r.offset
  }

  predicate BlocksOk(blocks: seq<Block>) {
    && (forall i :: 0 <= i < |blocks| ==>
          blocks[i].used <= blocks[i].capacity && blocks[i].used % WORD_SIZE == 0 && blocks[i].base % WORD_SIZE == 0)
    && forall i, j :: 0 <= i < j < |blocks| ==> Apart(Mapping(blocks[i]), Mapping(blocks[j]))
  }

  /** Regions lie in the used part of their blocks, aligned, and no two of one
      block overlap. */
  predicate RegionsOk(blocks: seq<Block>, rs: seq<Region>) {
    && (forall i :: 0 <= i < |rs| ==>
          && rs[i].block < |blocks| && rs[i].offset % WORD_SIZE == 0
          && rs[i].offset + rs[i].length <= blocks[rs[i].block].used)
    && forall i, j :: 0 <= i < j < |rs| && rs[i].block == rs[j].block ==> rs[i].offset + rs[i].length <= rs[j].offset
  }

  /** Main theorem: all regions handed out are aligned, lie inside the data of
      their block, and are pairwise disjoint. */
  lemma RegionsDisjoint(blocks: seq<Block>, rs: seq<Region>, i: nat, j: nat)
    requires BlocksOk(blocks) && RegionsOk(blocks, rs) && i < j < |rs|
    ensures Address(blocks, rs[i]) % WORD_SIZE == 0 && Address(blocks, rs[j]) % WORD_SIZE == 0
    ensures var b := blocks[rs[i].block];
            b.base + HEADER <= Address(blocks, rs[i])
                && Address(blocks, rs[i]) + rs[i].length <= b.base + HEADER + b.capacity
    ensures Apart((Address(blocks, rs[i]), rs[i].length), (Address(blocks, rs[j]), rs[j].length))
  {
    var x, y := rs[i].block, rs[j].block;
    if x < y {
      assert Apart(Mapping(blocks[x]), Mapping(blocks[y]));
    } else if y < x {
      assert Apart(Mapping(blocks[y]), Mapping(blocks[x]));
    }
  }

  lemma NoBlocks()
    ensures BlocksOk([]) && RegionsOk([], [])
  {
  }

  lemma BlockAdded(blocks: seq<Block>, rs: seq<Region>, b: Block)
    requires BlocksOk(blocks) && RegionsOk(blocks, rs) && b.base % WORD_SIZE == 0 && b.used == 0
    requires forall i :: 0 <= i < |blocks| ==> Apart(Mapping(blocks[i]), Mapping(b))
    ensures BlocksOk(blocks + [b]) && RegionsOk(blocks + [b], rs)
  {
    hide Mapping, Apart;
  }

  /** The next `n` bytes of the last block. */
  lemma RegionAdded(blocks: seq<Block>, rs: seq<Region>, n: nat)
    requires BlocksOk(blocks) && RegionsOk(blocks, rs) && blocks != [] && n % WORD_SIZE == 0
    requires blocks[|blocks| - 1].used + n <= blocks[|blocks| - 1].capacity
    ensures var last := |blocks| - 1;
            var b := blocks[last];
            && BlocksOk(blocks[last := b.(used := b.used + n)])
            && RegionsOk(blocks[last := b.(used := b.used + n)], rs + [Region(last, b.used, n)])
  {
    var last := |blocks| - 1;
    var b := blocks[last];
    var cs := blocks[last := b.(used := b.used + n)];
    assert forall i :: 0 <= i < |blocks| ==> Mapping(cs[i]) == Mapping(blocks[i]);
    hide Mapping, Apart;
    Aligned(b.used, n);
  }

  lemma Aligned(a: nat, b: nat)
    requires a % WORD_SIZE == 0 && b % WORD_SIZE == 0
    ensures (a + b) % WORD_SIZE == 0
  {
  }

  class Allocator {
    var blocks: seq<Block>  // the head of the list is the last one
    const page: nat
    ghost var regions: seq<Region>
    ghost var mapped: seq<(nat, nat)>  // what was mapped, in order

    ghost predicate Valid()
      reads this
    {
      && page > 0 && page % WORD_SIZE == 0
      && BlocksOk(blocks) && RegionsOk(blocks, regions)
      && |mapped| == |blocks| && forall i :: 0 <= i < |blocks| ==> mapped[i] == Mapping(blocks[i])
    }

    constructor (page: nat)
      requires page > 0 && page % WORD_SIZE == 0
      ensures Valid() && regions == [] && mapped == []
    {
      hide *;
      this.page := page;
      blocks, regions, mapped := [], [], [];
      NoBlocks();
      new;
      Fits();
    }

    lemma Fits()
      requires page > 0 && page % WORD_SIZE == 0
      requires BlocksOk(blocks) && RegionsOk(blocks, regions)
      requires |mapped| == |blocks| && forall i :: 0 <= i < |blocks| ==> mapped[i] == Mapping(blocks[i])
      ensures Valid()
    {
      hide BlocksOk, RegionsOk, Mapping;
    }

    /** What has to be mapped for a request that does not fit. */
    function Needed(size: nat): (n: nat)
      requires page > 0
      ensures Align(size) + HEADER <= n < Align(size) + HEADER + page && n % page == 0
    {
      WholePages(Align(size) + HEADER, page)
    }

    /** The request fits into the last block. */
    predicate Room(size: nat)
      reads this
    {
      blocks != [] && blocks[|blocks| - 1].used + Align(size) <= blocks[|blocks| - 1].capacity
    }

    /** arena_alloc.  `place`: where the system would map a new block, if it can. */
    method Alloc(size: nat, place: Option<nat>) returns (r: Option<nat>)
      requires Valid()
      requires place.Some? ==>
                 && place.value % WORD_SIZE == 0
                 && forall i :: 0 <= i < |blocks| ==> Apart(Mapping(blocks[i]), (place.value, Needed(size)))
      modifies this
      ensures Valid()
      ensures r.None? <==> !old(Room(size)) && place.None?
      ensures mapped == old(mapped) <==>
                place.None? || old(blocks != []
                    && blocks[|blocks| - 1].used + Align(size) <= blocks[|blocks| - 1].capacity)
      ensures r.None? ==> blocks == old(blocks) && regions == old(regions)
      ensures r.Some? ==>
                && |regions| == |old(regions)| + 1 && regions[..|old(regions)|] == old(regions)
                && var x := regions[|old(regions)|];
                && x.length == Align(size) && x.block == |blocks| - 1 && r.value == Address(blocks, x)
      ensures mapped == old(mapped) + if old(Room(size)) || place.None? then [] else [(place.value, Needed(size))]
    {
      hide BlocksOk, RegionsOk, Align, WholePages;
      var n := Align(size);
      if blocks == [] || blocks[|blocks| - 1].used + n > blocks[|blocks| - 1].capacity {
        assert !Room(size);
        if place.None? { return None; }
        var total := Needed(size);
        var b := Block(place.value, 0, total - HEADER);
        BlockAdded(blocks, regions, b);
        blocks := blocks + [b];
        mapped := mapped + [(place.value, total)];
      }
      var last := |blocks| - 1;
      var block := blocks[last];
      RegionAdded(blocks, regions, n);
      r := Some(block.base + HEADER + block.used);
      regions := regions + [Region(last, block.used, n)];
      blocks := blocks[last := block.(used := block.used + n)];
    }

    /** hdql_alloc_arena_destroy: what it unmaps, newest block first. */
    method Destroy() returns (unmapped: seq<(nat, nat)>)
      requires Valid()
      modifies this
      ensures blocks == [] && |unmapped| == |old(mapped)|
      ensures forall i :: 0 <= i < |unmapped| ==> unmapped[i] == old(mapped)[|unmapped| - 1 - i]
    {
      unmapped := [];
      ghost var all := mapped;
      while blocks != []
        invariant |blocks| + |unmapped| == |all|
        invariant forall i :: 0 <= i < |blocks| ==> all[i] == Mapping(blocks[i])
        invariant forall i :: 0 <= i < |unmapped| ==> unmapped[i] == all[|all| - 1 - i]
        decreases |blocks|
      {
        var n := |blocks| - 1;
        unmapped := unmapped + [Mapping(blocks[n])];
        blocks := blocks[..n];
      }
      regions, mapped := [], [];
    }
  }
}
