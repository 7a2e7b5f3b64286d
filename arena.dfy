/** The chained bump arena of include/common/arena.h.

    Blocks are numbered in the order `arena_init` creates them; a handle
    (`arena_t*`) is a block number, the `prev` and `next` pointers are block
    numbers too, and an allocation is a block number with an offset into
    that block's memory. The bytes themselves are not modelled: only the
    bookkeeping of sizes, capacities, links and what is freed. */
module Arena {
  import opened Wrappers

  /** An `arena_t` and whether its memory buffer and the header itself are
      still allocated. */
  datatype Block = Block(size: nat, capacity: nat, prev: Option<nat>, next: Option<nat>,
                         memoryLive: bool, headerLive: bool)

  /** What `arena_alloc` returns: NULL, or `&block->memory[offset]`. */
  datatype Allocation = Null | At(block: nat, offset: nat)

  /** Links only point at existing blocks: `prev` to an older one, `next` to
      a newer one. */
  predicate Linked(bs: seq<Block>) {
    forall i | 0 <= i < |bs| ::
      && (bs[i].prev.Some? ==> bs[i].prev.value < i)
      && (bs[i].next.Some? ==> i < bs[i].next.value < |bs|)
  }

  /** No block has handed out more than its buffer holds. */
  predicate WellSized(bs: seq<Block>) {
    forall i | 0 <= i < |bs| :: bs[i].size <= bs[i].capacity
  }

  // ---------------------------------------------------------------------------
  // The operations, as functions

  /** `arena_init`: a fresh block, empty, unlinked. */
  function InitSpec(bs: seq<Block>, capacity: nat): (r: seq<Block>)
    ensures |r| == |bs| + 1 && r[..|bs|] == bs
    ensures r[|bs|] == Block(0, capacity, None, None, true, true)
  {
    bs + [Block(0, capacity, None, None, true, true)]
  }

  /** `arena_grow`: a fresh block of the same capacity, linked after `h`. */
  function GrowSpec(bs: seq<Block>, h: nat): (r: (seq<Block>, nat))
    requires h < |bs|
    ensures r.1 == |bs| && |r.0| == |bs| + 1
    ensures r.0[h].next == Some(r.1) && r.0[r.1].prev == Some(h)
    ensures r.0[r.1].size == 0 && r.0[r.1].capacity == bs[h].capacity
  {
    var k := |bs|;
    var bs1 := InitSpec(bs, bs[h].capacity);
    var bs2 := bs1[h := bs1[h].(next := Some(k))];
    (bs2[k := bs2[k].(prev := Some(h))], k)
  }

  /** `arena_alloc`. Zero bytes give NULL. A request that fits is taken at
      the block's current size; one that does not goes at offset 0 of a
      block grown from `h`. */
  function AllocSpec(bs: seq<Block>, h: nat, n: nat): (r: (seq<Block>, Allocation))
    requires h < |bs|
    ensures r.1.Null? <==> n == 0
    ensures r.1.At? ==> r.1.block < |r.0| && r.0[r.1.block].size == r.1.offset + n
    ensures |bs| <= |r.0| <= |bs| + 1
  {
    if n == 0 then (bs, Null)
    else
      var (bs1, a) := if bs[h].size + n > bs[h].capacity then GrowSpec(bs, h) else (bs, h);
      (bs1[a := bs1[a].(size := bs1[a].size + n)], At(a, bs1[a].size))
  }

  /** `arena_realloc`: a NULL pointer is an allocation; anything else is not
      implemented and gives NULL. */
  function ReallocSpec(bs: seq<Block>, h: nat, p: Allocation, n: nat): (r: (seq<Block>, Allocation))
    requires h < |bs|
    ensures r.1.At? ==> p.Null? && n > 0
    ensures p.At? ==> r.0 == bs
  {
    if p.Null? then AllocSpec(bs, h, n) else (bs, Null)
  }

  /** `arena_reset`. */
  function ResetSpec(bs: seq<Block>, h: nat): (r: seq<Block>)
    requires h < |bs|
    ensures |r| == |bs| && r[h].size == 0 && r[h].capacity == bs[h].capacity
    ensures forall i | 0 <= i < |bs| && i != h :: r[i] == bs[i]
  {
    bs[h := bs[h].(size := 0)]
  }

  /** The blocks `arena_destroy` reaches from `h`: `h` and its `prev` chain. */
  function Chain(bs: seq<Block>, h: nat): (r: set<nat>)
    requires Linked(bs) && h < |bs|
    ensures h in r && forall i | i in r :: i <= h
    decreases h
  {
    {h} + (if bs[h].prev.Some? then Chain(bs, bs[h].prev.value) else {})
  }

  /** The first block of the chain, whose header `arena_destroy` frees. */
  function Root(bs: seq<Block>, h: nat): (r: nat)
    requires Linked(bs) && h < |bs|
    ensures r <= h && r in Chain(bs, h) && bs[r].prev.None?
    decreases h
  {
    if bs[h].prev.Some? then Root(bs, bs[h].prev.value) else h
  }

  /** `arena_destroy`: free the memory of every block on the chain and the
      header of its first block. */
  function DestroySpec(bs: seq<Block>, h: nat): (r: seq<Block>)
    requires Linked(bs) && h < |bs|
    ensures |r| == |bs|
    decreases h
  {
    var bs1 := bs[h := bs[h].(memoryLive := false)];
    if bs[h].prev.Some? then DestroySpec(bs1, bs[h].prev.value)
    else bs1[h := bs1[h].(headerLive := false)]
  }

  // ---------------------------------------------------------------------------
  // Properties

  /** Growing links the new block after `h` in both directions and keeps
      every other block as it was. */
  lemma GrowLinks(bs: seq<Block>, h: nat)
    requires h < |bs| && Linked(bs)
    ensures var (bs1, k) := GrowSpec(bs, h);
            && k == |bs| && |bs1| == |bs| + 1
            && bs1[h] == bs[h].(next := Some(k))
            && bs1[k] == Block(0, bs[h].capacity, Some(h), None, true, true)
            && (forall i | 0 <= i < |bs| && i != h :: bs1[i] == bs[i])
            && Linked(bs1)
  {
  }

  /** Allocating zero bytes gives NULL and changes nothing. */
  lemma AllocZero(bs: seq<Block>, h: nat)
    requires h < |bs|
    ensures AllocSpec(bs, h, 0) == (bs, Null)
  {
  }

  /** Where an allocation goes: at the old size of `h` when it fits, with the
      capacity unchanged; otherwise at offset 0 of a new block linked after
      `h`, whose size is the request, `h`'s own size unchanged. */
  lemma AllocPlacement(bs: seq<Block>, h: nat, n: nat)
    requires h < |bs| && Linked(bs) && n > 0
    ensures var (bs1, r) := AllocSpec(bs, h, n);
            && r.At?
            && Linked(bs1)
            && (bs[h].size + n <= bs[h].capacity ==>
                  && r == At(h, bs[h].size)
                  && bs1 == bs[h := bs[h].(size := bs[h].size + n)])
            && (bs[h].size + n > bs[h].capacity ==>
                  && r == At(|bs|, 0)
                  && |bs1| == |bs| + 1
                  && bs1[h] == bs[h].(next := Some(|bs|))
                  && bs1[|bs|] == Block(n, bs[h].capacity, Some(h), None, true, true)
                  && (forall i | 0 <= i < |bs| && i != h :: bs1[i] == bs[i]))
  {
    if bs[h].size + n > bs[h].capacity {
      GrowLinks(bs, h);
    }
  }

  /** The region handed out ends at the block's new size and starts past
      every byte handed out before it in that block: an allocation never
      overlaps an earlier one of the same block (before a reset). */
  lemma AllocBeyondUsed(bs: seq<Block>, h: nat, n: nat)
    requires h < |bs| && Linked(bs) && n > 0
    ensures var (bs1, r) := AllocSpec(bs, h, n);
            && r.At? && r.block < |bs1|
            && r.offset + n == bs1[r.block].size
            && (r.block < |bs| ==> r.offset == bs[r.block].size)
  {
    AllocPlacement(bs, h, n);
  }

  /** Two allocations in a row from the same handle that land in the same
      block do not overlap. */
  lemma AllocTwiceDisjoint(bs: seq<Block>, h: nat, n: nat, m: nat)
    requires h < |bs| && Linked(bs) && n > 0 && m > 0
    ensures var (bs1, r1) := AllocSpec(bs, h, n);
            var (bs2, r2) := AllocSpec(bs1, h, m);
            r1.At? && r2.At? && r1.block == r2.block ==> r1.offset + n <= r2.offset
  {
    AllocBeyondUsed(bs, h, n);
    var (bs1, r1) := AllocSpec(bs, h, n);
    AllocPlacement(bs, h, n);
    AllocBeyondUsed(bs1, h, m);
  }

  /** Sizes stay within capacities exactly when the request is no larger
      than a block: a larger one goes to a new block of the same capacity
      that it overflows. */
  lemma AllocWellSized(bs: seq<Block>, h: nat, n: nat)
    requires h < |bs| && Linked(bs) && WellSized(bs) && n > 0
    ensures WellSized(AllocSpec(bs, h, n).0) <==> n <= bs[h].capacity
  {
    AllocPlacement(bs, h, n);
    var bs1 := AllocSpec(bs, h, n).0;
    if n > bs[h].capacity {
      assert bs1[|bs|].size > bs1[|bs|].capacity;
    }
  }

  /** Reset empties the block and keeps its capacity and links; the next
      allocation that fits starts at offset 0 again. */
  lemma ResetRestarts(bs: seq<Block>, h: nat, n: nat)
    requires h < |bs| && 0 < n <= bs[h].capacity
    ensures var bs1 := ResetSpec(bs, h);
            && bs1[h].size == 0
            && bs1[h].capacity == bs[h].capacity
            && bs1[h].prev == bs[h].prev && bs1[h].next == bs[h].next
            && AllocSpec(bs1, h, n).1 == At(h, 0)
  {
  }

  /** Destroying from `h` frees the memory of exactly the blocks of its
      `prev` chain and the header of exactly its first block. */
  lemma {:induction false} DestroyFrees(bs: seq<Block>, h: nat)
    requires Linked(bs) && h < |bs|
    ensures var bs1 := DestroySpec(bs, h);
            && |bs1| == |bs| && Linked(bs1)
            && (forall i | 0 <= i < |bs| ::
                  && (bs1[i].memoryLive <==> bs[i].memoryLive && i !in Chain(bs, h))
                  && (bs1[i].headerLive <==> bs[i].headerLive && i != Root(bs, h))
                  && bs1[i].size == bs[i].size && bs1[i].capacity == bs[i].capacity)
    decreases h
  {
    var bs1 := bs[h := bs[h].(memoryLive := false)];
    assert Linked(bs1);
    if bs[h].prev.Some? {
      var p := bs[h].prev.value;
      DestroyFrees(bs1, p);
      assert Chain(bs1, p) == Chain(bs, p) by { ChainOfFreed(bs, h, p); }
      assert Root(bs1, p) == Root(bs, p) by { RootOfFreed(bs, h, p); }
    }
  }

  /** Only the links decide a chain and its root. */
  lemma {:induction false} ChainOfFreed(bs: seq<Block>, h: nat, p: nat)
    requires Linked(bs) && h < |bs| && p < |bs|
    ensures Linked(bs[h := bs[h].(memoryLive := false)])
    ensures Chain(bs[h := bs[h].(memoryLive := false)], p) == Chain(bs, p)
    decreases p
  {
    var bs1 := bs[h := bs[h].(memoryLive := false)];
    assert Linked(bs1);
    if bs[p].prev.Some? {
      ChainOfFreed(bs, h, bs[p].prev.value);
    }
  }

  lemma {:induction false} RootOfFreed(bs: seq<Block>, h: nat, p: nat)
    requires Linked(bs) && h < |bs| && p < |bs|
    ensures Linked(bs[h := bs[h].(memoryLive := false)])
    ensures Root(bs[h := bs[h].(memoryLive := false)], p) == Root(bs, p)
    decreases p
  {
    var bs1 := bs[h := bs[h].(memoryLive := false)];
    assert Linked(bs1);
    if bs[p].prev.Some? {
      RootOfFreed(bs, h, bs[p].prev.value);
    }
  }

  /** `arena_alloc` grows into a new block but the caller's handle keeps
      naming the full block: the same request made again grows a second
      block, which replaces the first as `h`'s `next`, and destroying from
      the handle frees neither grown block. */
  lemma OverflowRegrows(bs: seq<Block>, h: nat, n: nat)
    requires h < |bs| && Linked(bs) && n > 0 && bs[h].size + n > bs[h].capacity
    ensures var (bs1, r1) := AllocSpec(bs, h, n);
            var (bs2, r2) := AllocSpec(bs1, h, n);
            && r1 == At(|bs|, 0) && r2 == At(|bs| + 1, 0)
            && |bs2| == |bs| + 2 && Linked(bs2)
            && bs2[h].size == bs[h].size
            && bs2[h].next == Some(|bs| + 1)
            && bs2[|bs|].prev == Some(h) && bs2[|bs| + 1].prev == Some(h)
            && DestroySpec(bs2, h)[|bs|].memoryLive
            && DestroySpec(bs2, h)[|bs| + 1].memoryLive
  {
    AllocPlacement(bs, h, n);
    var (bs1, r1) := AllocSpec(bs, h, n);
    AllocPlacement(bs1, h, n);
    var bs2 := AllocSpec(bs1, h, n).0;
    DestroyFrees(bs2, h);
  }

  // ---------------------------------------------------------------------------
  // The blocks as mutable state

  /** Every `arena_t` the program has created, numbered by creation. */
  class Arenas {
    var blocks: seq<Block>

    ghost predicate Valid()
      reads this
    {
      Linked(blocks)
    }

    constructor ()
      ensures Valid() && blocks == []
    {
      blocks := [];
    }

    /** `arena_init`. */
    method Init(capacity: nat) returns (h: nat)
      requires Valid()
      modifies this
      ensures Valid()
      ensures h == |old(blocks)| && blocks == InitSpec(old(blocks), capacity)
    {
      h := |blocks|;
      blocks := blocks + [Block(0, capacity, None, None, true, true)];
    }

    /** `arena_grow`: the new block's number. */
    method Grow(h: nat) returns (k: nat)
      requires Valid() && h < |blocks| && blocks[h].headerLive
      modifies this
      ensures Valid()
      ensures (blocks, k) == GrowSpec(old(blocks), h)
    {
      GrowLinks(blocks, h);
      k := Init(blocks[h].capacity);
      blocks := blocks[h := blocks[h].(next := Some(k))];
      blocks := blocks[k := blocks[k].(prev := Some(h))];
    }

    /** `arena_alloc`. The block written to must still be allocated. */
    method Alloc(h: nat, n: nat) returns (r: Allocation)
      requires Valid() && h < |blocks| && blocks[h].headerLive && blocks[h].memoryLive
      modifies this
      ensures Valid()
      ensures (blocks, r) == AllocSpec(old(blocks), h, n)
    {
      if n == 0 {
        return Null;
      }
      var a: nat := h;
      if blocks[h].size + n > blocks[h].capacity {
        a := Grow(h);
      }
      r := At(a, blocks[a].size);
      blocks := blocks[a := blocks[a].(size := blocks[a].size + n)];
    }

    /** `arena_realloc`. */
    method Realloc(h: nat, p: Allocation, n: nat) returns (r: Allocation)
      requires Valid() && h < |blocks| && blocks[h].headerLive && blocks[h].memoryLive
      modifies this
      ensures Valid()
      ensures (blocks, r) == ReallocSpec(old(blocks), h, p, n)
    {
      if p.Null? {
        r := Alloc(h, n);
      } else {
        r := Null;
      }
    }

    /** `arena_reset`. */
    method Reset(h: nat)
      requires Valid() && h < |blocks| && blocks[h].headerLive
      modifies this
      ensures Valid()
      ensures blocks == ResetSpec(old(blocks), h)
    {
      blocks := blocks[h := blocks[h].(size := 0)];
    }

    /** `arena_destroy`: walk the `prev` links, freeing each block's memory,
        then the first block's memory and header. Freeing twice is
        undefined, so every block on the chain must be live. */
    method Destroy(h: nat)
      requires Valid() && h < |blocks|
      requires forall i | i in Chain(blocks, h) :: blocks[i].memoryLive
      requires blocks[Root(blocks, h)].headerLive
      modifies this
      ensures Valid()
      ensures blocks == DestroySpec(old(blocks), h)
    {
      var a: nat := h;
      while blocks[a].prev.Some?
        invariant Valid() && a < |blocks|
        invariant DestroySpec(blocks, a) == DestroySpec(old(blocks), h)
        decreases a
      {
        blocks := blocks[a := blocks[a].(memoryLive := false)];
        a := blocks[a].prev.value;
      }
      blocks := blocks[a := blocks[a].(memoryLive := false)];
      blocks := blocks[a := blocks[a].(headerLive := false)];
    }
  }
}
