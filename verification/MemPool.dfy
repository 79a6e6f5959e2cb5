/** The free-list pool of the document: chunks are handed out at most once until they are given back. */
module MemPool {
  class Chunk {
    var next: Chunk?

    constructor ()
      ensures next == null
    {
      next := null;
    }
  }

  ghost predicate Leads(free: seq<Chunk>, i: nat)
    reads free
    requires i < |free|
  {
    free[i].next == (if i == |free| - 1 then null else free[i + 1])
  }

  ghost predicate Different(free: seq<Chunk>) { forall i: nat, j: nat :: i < j < |free| ==> free[i] != free[j] }

  /** COUNT chunks in each block. */
  function Total(count: nat, blocks: nat): nat { count * blocks }

  lemma OneBlockMore(count: nat, n: nat)
    ensures Total(count, n + 1) == Total(count, n) + count
  {
  }

  function SetOf(s: seq<Chunk>): set<Chunk> { set c | c in s }

  function All(blocks: seq<seq<Chunk>>): set<Chunk> { set s, c | s in blocks && c in s :: c }

  lemma SetHead(s: seq<Chunk>)
    requires s != []
    ensures SetOf(s) == {s[0]} + SetOf(s[1..])
  {
  }

  lemma AllAppend(blocks: seq<seq<Chunk>>, s: seq<Chunk>)
    ensures All(blocks + [s]) == All(blocks) + SetOf(s)
  {
    assert forall t :: t in blocks + [s] <==> t in blocks || t == s;
  }

  /** Every chunk of every block, and no other, is live or free, and not both. */
  ghost predicate Shared(live: set<Chunk>, free: seq<Chunk>, layout: seq<seq<Chunk>>, count: nat) {
    && live + SetOf(free) == All(layout)
    && (forall c :: c in free ==> c !in live)
    && |live| + |free| == Total(count, |layout|)
  }

  /** A pool without a free chunk gets a block of new ones. */
  lemma BlockAdded(live: set<Chunk>, layout: seq<seq<Chunk>>, s: seq<Chunk>, count: nat)
    requires Shared(live, [], layout, count) && |s| == count && forall c :: c in s ==> c !in live
    ensures Shared(live, s, layout + [s], count)
  {
    AllAppend(layout, s);
    OneBlockMore(count, |layout|);
  }

  /** The free list from its root on. */
  ghost predicate FreeList(root: Chunk?, free: seq<Chunk>)
    reads free
  {
    && root == (if free == [] then null else free[0])
    && (forall i: nat :: i < |free| ==> Leads(free, i))
    && Different(free)
  }

  lemma EmptyList(root: Chunk?, free: seq<Chunk>)
    requires root == null && FreeList(root, free)
    ensures free == [] && SetOf(free) == {}
  {
  }

  lemma FreeTail(free: seq<Chunk>)
    requires free != [] && FreeList(free[0], free)
    ensures FreeList(free[0].next, free[1..]) && free[0] !in free[1..]
  {
    assert Leads(free, 0);
    forall i: nat | i < |free[1..]| ensures Leads(free[1..], i) { assert Leads(free, i + 1); }
  }

  class MemPoolT {
    /** Chunks in a block, 4096 over the size of an item. */
    const count: nat
    var root: Chunk?
    var blocks: seq<array<Chunk>>
    var currentAllocs: int
    var nAllocs: int
    var maxAllocs: int
    var nUntracked: int

    ghost var free: seq<Chunk>
    ghost var live: set<Chunk>
    /** The chunks of each block; a block never gets others. */
    ghost var layout: seq<seq<Chunk>>

    ghost predicate Valid()
      reads this, free
    {
      && Shared(live, free, layout, count) && |layout| == |blocks|
      && 0 < count
      && FreeList(root, free)
      && currentAllocs == |live| <= maxAllocs <= nAllocs
    }

    constructor (size: nat)
      requires 0 < size <= 4096
      ensures Valid() && fresh(this) && blocks == [] && live == {} && count == 4096 / size
    {
      count := 4096 / size;
      root, blocks, currentAllocs, nAllocs, maxAllocs, nUntracked := null, [], 0, 0, 0, 0;
      free, live, layout := [], {}, [];
    }

    /** The chunks of a new block become the free list. */
    method AddBlock(block: array<Chunk>, ghost s: seq<Chunk>)
      requires Valid() && root == null && |s| == count && FreeList(s[0], s) && (forall c :: c in s ==> c !in live)
      requires block.Length == count && block[0] == s[0]
      modifies this`root, this`blocks, this`free, this`layout
      ensures Valid() && free == s && blocks == old(blocks) + [block] && layout == old(layout) + [s]
    {
      EmptyList(root, free);
      BlockAdded(live, layout, s, count);
      hide *;
      AddChunks(block, block[0], s);
    }

    /** The block is the last one, and its chunks the free ones. */
    method AddChunks(block: array<Chunk>, first: Chunk, ghost s: seq<Chunk>)
      modifies this`root, this`blocks, this`free, this`layout
      ensures free == s && root == first && blocks == old(blocks) + [block] && layout == old(layout) + [s]
    {
      blocks, root, free, layout := blocks + [block], first, s, layout + [s];
    }

    /** The first free chunk becomes live. */
    method TakeFirst() returns (result: Chunk)
      requires Valid() && free != []
      modifies this`root, this`currentAllocs, this`maxAllocs, this`nAllocs, this`nUntracked, this`free, this`live
      ensures Valid() && result == old(free[0]) && free == old(free[1..]) && live == old(live) + {result}
      ensures nAllocs == old(nAllocs) + 1 && nUntracked == old(nUntracked) + 1
      ensures maxAllocs == if old(maxAllocs) < |live| then |live| else old(maxAllocs)
    {
      hide All, SetOf;
      result := root;
      FreeTail(free);
      SetHead(free);
      assert result in free;
      root := root.next;
      free, live := free[1..], live + {result};
      currentAllocs := currentAllocs + 1;
      if currentAllocs > maxAllocs { maxAllocs := currentAllocs; }
      nAllocs := nAllocs + 1;
      nUntracked := nUntracked + 1;
    }

    /** A free chunk, of a new block when there is none, that is not live yet. */
    method Alloc() returns (result: Chunk)
      requires Valid()
      modifies this
      ensures Valid() && result !in old(live) && live == old(live) + {result}
      ensures old(free) != [] ==>
          blocks == old(blocks) && layout == old(layout) && result == old(free[0]) && free == old(free[1..])
      ensures old(free) == [] ==>
                fresh(result) && |blocks| == old(|blocks|) + 1 && blocks[|blocks| - 1][..] == [result] + free
                && layout == old(layout) + [[result] + free]
      ensures nAllocs == old(nAllocs) + 1 && nUntracked == old(nUntracked) + 1
      ensures maxAllocs == if old(maxAllocs) < |live| then |live| else old(maxAllocs)
    {
      hide All, SetOf;
      assert root == null <==> free == [];
      if root == null {
        var block, s := NewBlock(count);
        AddBlock(block, s);
      }
      assert free[0] in free;
      result := TakeFirst();
    }

    /** A chunk goes to the front of the free list; nothing happens for no chunk. */
    method Free(mem: Chunk?)
      requires Valid() && (mem != null ==> mem in live)
      modifies this`root, this`currentAllocs, this`free, this`live, mem
      ensures Valid()
      ensures mem == null ==> live == old(live) && free == old(free)
      ensures mem != null ==> live == old(live) - {mem} && free == [mem] + old(free)
    {
      hide All, SetOf;
      if mem == null { return; }
      currentAllocs := currentAllocs - 1;
      ghost var was := free;
      mem.next := root;
      root := mem;
      free, live := [mem] + free, live - {mem};
      SetHead(free);
      forall i: nat | i < |free| ensures Leads(free, i) {
        if 0 < i { assert old(Leads(was, i - 1)); }
      }
    }
  }

  /** The chunks of a block, each leading to the next. */
  method NewBlock(count: nat) returns (block: array<Chunk>, ghost s: seq<Chunk>)
    requires 0 < count
    ensures fresh(block) && s == block[..] && |s| == count && FreeList(s[0], s) && block[0] == s[0]
    ensures forall c :: c in s ==> fresh(c)
  {
    block := NewChunks(count);
    for i := 0 to count - 1
      invariant forall k: nat :: k < i ==> block[k].next == block[k + 1]
      invariant block[count - 1].next == null
      invariant fresh(block) && (forall c :: c in block[..] ==> fresh(c)) && Different(block[..])
    {
      assert block[i] == block[..][i] && block[i] in block[..] && block[count - 1] == block[..][count - 1];
      block[i].next := block[i + 1];
    }
    assert block[count - 1] == block[..][count - 1] && block[count - 1] in block[..];
    block[count - 1].next := null;
    s := block[..];
  }

  /** The memory of a block. */
  method NewChunks(count: nat) returns (block: array<Chunk>)
    requires 0 < count
    ensures fresh(block) && block.Length == count && Different(block[..])
    ensures forall c :: c in block[..] ==> fresh(c) && c.next == null
  {
    var first := new Chunk();
    block := new Chunk[count](_ => first);
    for i := 1 to count
      invariant forall k :: 0 <= k < count ==> fresh(block[k]) && block[k].next == null
      invariant forall j: nat, k: nat :: j < k < i ==> block[j] != block[k]
    {
      var chunk := new Chunk();
      block[i] := chunk;
    }
  }
}
