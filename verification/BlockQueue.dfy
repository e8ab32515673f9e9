// The free list of the block pool: a doubly linked list of block records
// between two sentinels (tr_hash_i64/core/block_pool.py).
module BlockQueue {
  import opened Prelude
  import opened Hashing

  // One record per physical block. The link fields belong to the queue.
  class KVCacheBlock {
    const id: int
    var refCnt: int
    var hash: Option<Hash>
    var prev: KVCacheBlock?
    var next: KVCacheBlock?
    var isNull: bool

    constructor (id: int)
      ensures this.id == id && refCnt == 0 && hash == None
      ensures prev == null && next == null && !isNull
    {
      this.id := id;
      refCnt, hash, prev, next, isNull := 0, None, null, null, false;
    }
  }

  function Without<T(==)>(s: seq<T>, x: T): (r: seq<T>)
    ensures x !in s ==> r == s
  {
    if s == [] then [] else if s[0] == x then s[1..] else [s[0]] + Without(s[1..], x)
  }

  lemma {:induction false} WithoutAt<T>(s: seq<T>, k: nat)
    requires k < |s| && s[k] !in s[..k]
    ensures Without(s, s[k]) == s[..k] + s[k + 1..]
  {
    if k > 0 {
      assert s[0] in s[..k];
      forall i | 0 <= i < k - 1 ensures s[1..][i] != s[k] { assert s[..k][i + 1] == s[1..][i]; }
      WithoutAt(s[1..], k - 1);
      assert s[1..][..k - 1] == s[1..k] && s[1..][k..] == s[k + 1..];
      assert [s[0]] + s[1..k] == s[..k];
    }
  }

  // The sentinels included, the list is a sequence of blocks in which
  // neighbours point at each other; `rank` gives each block its one position.
  ghost predicate Linked(ring: seq<KVCacheBlock>, rank: map<KVCacheBlock, int>)
    reads Elements(ring)`prev, Elements(ring)`next
  {
    && Ranked(ring, rank)
    && (forall i {:trigger ring[i].next} :: 0 <= i < |ring| - 1 ==> ring[i].next == ring[i + 1])
    && (forall i {:trigger ring[i].prev} :: 0 < i < |ring| ==> ring[i].prev == ring[i - 1])
  }

  ghost predicate Ranked(ring: seq<KVCacheBlock>, rank: map<KVCacheBlock, int>) {
    && (forall i :: 0 <= i < |ring| ==> ring[i] in rank && rank[ring[i]] == i)
    && (forall b :: b in rank ==> 0 <= rank[b] < |ring| && ring[rank[b]] == b)
  }

  ghost function RankWithout(rank: map<KVCacheBlock, int>, k: nat): map<KVCacheBlock, int> {
    map b | b in rank && rank[b] != k :: if rank[b] < k then rank[b] else rank[b] - 1
  }

  lemma RankedWithout(ring: seq<KVCacheBlock>, rank: map<KVCacheBlock, int>, k: nat)
    requires Ranked(ring, rank) && k < |ring|
    ensures Ranked(ring[..k] + ring[k + 1..], RankWithout(rank, k))
  {
  }

  // Bypassing position k in both directions leaves a linked list without it.
  lemma LinkedWithout(was: seq<KVCacheBlock>, rank: map<KVCacheBlock, int>, k: nat)
    requires Ranked(was, rank) && 0 < k < |was| - 1
    requires forall i {:trigger was[i].next} :: 0 <= i < |was| - 1 && i != k ==>
      was[i].next == was[if i == k - 1 then k + 1 else i + 1]
    requires forall i {:trigger was[i].prev} :: 0 < i < |was| && i != k ==>
      was[i].prev == was[if i == k + 1 then k - 1 else i - 1]
    ensures Linked(was[..k] + was[k + 1..], RankWithout(rank, k))
  {
    RankedWithout(was, rank, k);
    var now := was[..k] + was[k + 1..];
    forall i | 0 <= i < |now| - 1
      ensures now[i].next == now[i + 1] && now[i + 1].prev == now[i]
    {
      var j := if i < k then i else i + 1;
      assert now[i] == was[j];
      var n := if j == k - 1 then k + 1 else j + 1;
      assert was[j].next == was[n] && was[n].prev == was[j];
      assert now[i + 1] == was[n];
    }
  }

  // r is the blocks fenced by their two sentinels.
  ghost predicate Fenced(h: KVCacheBlock, blocks: seq<KVCacheBlock>, t: KVCacheBlock, r: seq<KVCacheBlock>)
  {
    && |r| == |blocks| + 2 && r[0] == h && r[|r| - 1] == t
    && (forall i {:trigger r[i]} :: 0 < i < |r| - 1 ==> r[i] == blocks[i - 1])
  }

  lemma Fence(h: KVCacheBlock, blocks: seq<KVCacheBlock>, order: map<KVCacheBlock, int>, t: KVCacheBlock)
    returns (r: seq<KVCacheBlock>, rank: map<KVCacheBlock, int>)
    requires Ranked(blocks, order) && h != t && h !in blocks && t !in blocks
    ensures Fenced(h, blocks, t, r) && Ranked(r, rank)
    ensures r[1..|r| - 1] == blocks
    ensures forall b :: b in Elements(blocks) ==> b in rank
    ensures forall i :: 0 < i < |r| - 1 ==> r[i] in Elements(blocks)
  {
    r := [h] + blocks + [t];
    rank := (map b | b in order :: order[b] + 1)[h := 0][t := |r| - 1];
    forall b | b in blocks ensures b in rank {
      var i :| 0 <= i < |blocks| && blocks[i] == b;
      assert r[i + 1] == b;
    }
  }

  lemma FenceIsLinked(h: KVCacheBlock, blocks: seq<KVCacheBlock>, t: KVCacheBlock,
                      r: seq<KVCacheBlock>, rank: map<KVCacheBlock, int>)
    requires Fenced(h, blocks, t, r) && Ranked(r, rank)
    requires h.next == (if blocks == [] then t else blocks[0])
    requires t.prev == (if blocks == [] then h else blocks[|blocks| - 1])
    requires forall k {:trigger blocks[k].prev} :: 0 <= k < |blocks| ==>
      blocks[k].prev == if k == 0 then h else blocks[k - 1]
    requires forall k {:trigger blocks[k].next} :: 0 <= k < |blocks| ==>
      blocks[k].next == if k == |blocks| - 1 then t else blocks[k + 1]
    ensures Linked(r, rank)
  {
    forall i | 0 <= i < |r| - 1 ensures r[i].next == r[i + 1] {
      if i > 0 { assert blocks[i - 1].next == r[i].next; }
    }
    forall i | 0 < i < |r| ensures r[i].prev == r[i - 1] {
      if i < |r| - 1 { assert blocks[i - 1].prev == r[i].prev; }
    }
  }

  // Squeezing a new block in before the last element keeps a list linked.
  lemma LinkedWith(was: seq<KVCacheBlock>, rank: map<KVCacheBlock, int>, block: KVCacheBlock)
    requires |was| >= 2 && Ranked(was, rank) && block !in rank
    requires block.prev == was[|was| - 2] && block.next == was[|was| - 1]
    requires forall i {:trigger was[i].next} :: 0 <= i < |was| - 1 ==>
      was[i].next == if i == |was| - 2 then block else was[i + 1]
    requires forall i {:trigger was[i].prev} :: 0 < i < |was| ==>
      was[i].prev == if i == |was| - 1 then block else was[i - 1]
    ensures Linked(was[..|was| - 1] + [block, was[|was| - 1]],
                   rank[block := |was| - 1][was[|was| - 1] := |was|])
  {
    var n := |was|;
    var now := was[..n - 1] + [block, was[n - 1]];
    var r := rank[block := n - 1][was[n - 1] := n];
    assert now[n - 1] == block && now[n] == was[n - 1];
    assert forall i :: 0 <= i < n - 1 ==> now[i] == was[i];
    forall i | 0 <= i < |now| - 1 ensures now[i].next == now[i + 1] {
      if i < n - 1 { assert was[i].next == now[i + 1]; }
    }
    forall i | 0 < i < |now| ensures now[i].prev == now[i - 1] {
      if i < n - 1 { assert was[i].prev == now[i - 1]; }
      if i == n { assert was[n - 1].prev == block; }
    }
  }

  // Cutting position k out of the ring deletes that block from its inside.
  lemma NodesWithout(ring: seq<KVCacheBlock>, rank: map<KVCacheBlock, int>, k: nat)
    requires Ranked(ring, rank) && 0 < k < |ring| - 1
    ensures Without(ring[1..|ring| - 1], ring[k]) == (ring[..k] + ring[k + 1..])[1..|ring| - 2]
  {
    var nodes := ring[1..|ring| - 1];
    assert forall i :: 0 <= i < |nodes| ==> nodes[i] == ring[i + 1];
    assert nodes[k - 1] !in nodes[..k - 1];
    WithoutAt(nodes, k - 1);
    assert nodes[..k - 1] + nodes[k..] == (ring[..k] + ring[k + 1..])[1..|ring| - 2];
  }

  class FreeKVCacheBlockQueue {
    var numFreeBlocks: int
    const head: KVCacheBlock
    const tail: KVCacheBlock
    ghost const universe: set<KVCacheBlock>
    ghost var ring: seq<KVCacheBlock>
    ghost var rank: map<KVCacheBlock, int>

    ghost predicate Shape()
      reads this
    {
      && |ring| >= 2 && ring[0] == head && ring[|ring| - 1] == tail
      && head !in universe && tail !in universe
      && (forall i :: 0 < i < |ring| - 1 ==> ring[i] in universe)
      && numFreeBlocks == |ring| - 2
    }

    // The queued blocks, front first.
    ghost function Nodes(): (s: seq<KVCacheBlock>)
      requires Shape()
      reads this
    {
      ring[1..|ring| - 1]
    }

    // A block outside the list has no links.
    ghost predicate Valid()
      reads this, head`prev, head`next, tail`prev, tail`next, universe`prev, universe`next
    {
      && Shape()
      && Linked(ring, rank)
      && (forall b :: b in universe && b !in rank ==> b.prev == null && b.next == null)
    }

    // Points consecutive blocks at each other; the outermost links stay empty.
    static method Wire(blocks: seq<KVCacheBlock>, ghost rank: map<KVCacheBlock, int>)
      requires Ranked(blocks, rank)
      modifies Elements(blocks)`prev, Elements(blocks)`next
      ensures forall k {:trigger blocks[k].prev} :: 0 < k < |blocks| ==> blocks[k].prev == blocks[k - 1]
      ensures forall k {:trigger blocks[k].next} :: 0 <= k < |blocks| - 1 ==> blocks[k].next == blocks[k + 1]
    {
      for i := 0 to |blocks|
        invariant forall k {:trigger blocks[k].prev} :: 0 < k < i ==> blocks[k].prev == blocks[k - 1]
        invariant forall k {:trigger blocks[k].next} :: 0 <= k < i && k < |blocks| - 1 ==>
          blocks[k].next == blocks[k + 1]
      {
        if i > 0 { blocks[i].prev := blocks[i - 1]; }
        if i < |blocks| - 1 { blocks[i].next := blocks[i + 1]; }
      }
    }

    // Hangs the wired blocks between the two sentinels.
    static method Close(head: KVCacheBlock, blocks: seq<KVCacheBlock>, tail: KVCacheBlock,
                        ghost rank: map<KVCacheBlock, int>)
      requires Ranked(blocks, rank) && head !in blocks && tail !in blocks && head != tail
      modifies head`next, tail`prev, Elements(blocks)`prev, Elements(blocks)`next
      ensures head.next == (if blocks == [] then tail else blocks[0])
      ensures tail.prev == (if blocks == [] then head else blocks[|blocks| - 1])
      ensures forall k {:trigger blocks[k].prev} :: 0 <= k < |blocks| ==>
        blocks[k].prev == if k == 0 then head else old(blocks[k].prev)
      ensures forall k {:trigger blocks[k].next} :: 0 <= k < |blocks| ==>
        blocks[k].next == if k == |blocks| - 1 then tail else old(blocks[k].next)
    {
      if |blocks| > 0 {
        head.next := blocks[0];
        blocks[0].prev := head;
        tail.prev := blocks[|blocks| - 1];
        blocks[|blocks| - 1].next := tail;
      } else {
        head.next := tail;
        tail.prev := head;
      }
    }

    constructor (blocks: seq<KVCacheBlock>, ghost order: map<KVCacheBlock, int>)
      requires Ranked(blocks, order)
      modifies Elements(blocks)`prev, Elements(blocks)`next
      ensures Valid() && fresh(head) && fresh(tail)
      ensures Nodes() == blocks && universe == Elements(blocks)
    {
      var h := new KVCacheBlock(-1);
      var t := new KVCacheBlock(-2);
      head, tail := h, t;
      numFreeBlocks := |blocks|;
      ghost var r, k := Fence(h, blocks, order, t);
      ring, rank := r, k;
      universe := Elements(blocks);
      new;
      Wire(blocks, order);
      Close(h, blocks, t, order);
      FenceIsLinked(h, blocks, t, r, k);
    }

    method Unlink(block: KVCacheBlock, ghost k: nat)
      requires Valid() && 0 < k < |ring| - 1 && ring[k] == block
      modifies this, universe`prev, universe`next, head`next, tail`prev
      ensures Valid() && numFreeBlocks == old(numFreeBlocks) - 1
      ensures ring == old(ring[..k] + ring[k + 1..])
      ensures block.prev == null && block.next == null
    {
      var prev, nxt := block.prev, block.next;
      ghost var was, r := ring, rank;
      ghost var now := was[..k] + was[k + 1..];
      assert prev == was[k - 1] && nxt == was[k + 1];
      prev.next := nxt;
      nxt.prev := prev;
      block.prev := null;
      block.next := null;
      LinkedWithout(was, r, k);
      ring, rank, numFreeBlocks := now, RankWithout(r, k), numFreeBlocks - 1;
    }

    // Where a queued block stands.
    lemma Position(block: KVCacheBlock) returns (k: nat)
      requires Valid() && block in universe && block in rank
      ensures 0 < k < |ring| - 1 && ring[k] == block && rank[block] == k
      ensures block.prev == ring[k - 1] && block.next == ring[k + 1]
      ensures k - 1 < |Nodes()| && Nodes()[k - 1] == block
    {
      k := rank[block];
    }

    lemma NodesDistinct()
      requires Valid()
      ensures Distinct(Nodes())
      ensures forall b :: b in Nodes() <==> b in rank && b in universe
      ensures |Nodes()| == numFreeBlocks
    {
      forall i, j | 0 <= i < j < |Nodes()| ensures Nodes()[i] != Nodes()[j] {
        assert ring[i + 1] == Nodes()[i] && ring[j + 1] == Nodes()[j];
      }
      forall b | b in rank && b in universe ensures b in Nodes() { var k := Position(b); }
    }

    // Both links are set exactly on the queued blocks.
    lemma LinksTell(block: KVCacheBlock)
      requires Valid() && block in universe
      ensures block in Nodes() <==> block in rank
      ensures block in Nodes() <==> block.prev != null && block.next != null
    {
      if block in rank {
        var k := Position(block);
      } else {
        forall i | 0 <= i < |Nodes()| ensures Nodes()[i] != block {
          assert Nodes()[i] == ring[i + 1];
        }
      }
    }

    lemma NodesAfter(k: nat)
      requires Valid() && 0 < k < |ring| - 1
      ensures Without(Nodes(), ring[k]) == (ring[..k] + ring[k + 1..])[1..|ring| - 2]
    {
      NodesWithout(ring, rank, k);
    }

    // Removes a block from anywhere in the list; the source raises when a link
    // is missing, which is exactly the case of a block that is not queued.
    method Remove(block: KVCacheBlock) returns (ok: bool)
      requires Valid() && block in universe
      modifies this, universe`prev, universe`next, head`next, tail`prev
      ensures Valid()
      ensures ok == (block in old(Nodes()))
      ensures Nodes() == Without(old(Nodes()), block)
      ensures block.prev == null && block.next == null
    {
      hide Linked, Without;
      LinksTell(block);
      if block.prev == null || block.next == null {
        return false;
      }
      ghost var k := Position(block);
      NodesAfter(k);
      Unlink(block, k);
      return true;
    }

    // Takes the front block; None stands for the error on an empty list.
    method PopLeft() returns (r: Option<KVCacheBlock>)
      requires Valid()
      modifies this, universe`prev, universe`next, head`next, tail`prev
      ensures Valid()
      ensures r.None? <==> old(Nodes()) == []
      ensures r.None? ==> Nodes() == old(Nodes())
      ensures r.Some? ==> old(Nodes()) == [r.value] + Nodes() && r.value in universe
                          && r.value.prev == null && r.value.next == null
    {
      if numFreeBlocks == 0 { return None; }
      var block := head.next;
      assert block == ring[1];
      Unlink(block, 1);
      return Some(block);
    }

    // Takes the first n blocks, or none at all when fewer are queued.
    method PopLeftN(n: nat) returns (r: Option<seq<KVCacheBlock>>)
      requires Valid()
      modifies this, universe`prev, universe`next, head`next, tail`prev
      ensures Valid()
      ensures r.None? <==> |old(Nodes())| < n
      ensures r.None? ==> Nodes() == old(Nodes())
      ensures r.Some? ==> r.value == old(Nodes())[..n] && Nodes() == old(Nodes())[n..]
    {
      if n > numFreeBlocks { return None; }
      var taken: seq<KVCacheBlock> := [];
      for i := 0 to n
        invariant Valid() && |taken| == i
        invariant old(Nodes()) == taken + Nodes()
      {
        ghost var before := Nodes();
        var b := PopLeft();
        assert taken + before == taken + [b.value] + Nodes();
        taken := taken + [b.value];
      }
      return Some(taken);
    }

    method LinkLast(block: KVCacheBlock)
      requires Valid() && block in universe && block !in rank
      modifies this, block`prev, block`next, universe`next, head`next, tail`prev
      ensures Valid()
      ensures ring == old(ring[..|ring| - 1]) + [block, tail]
    {
      ghost var n, was, r := |ring|, ring, rank;
      var prev := tail.prev;
      assert prev == was[n - 2];
      prev.next := block;
      block.prev := prev;
      block.next := tail;
      tail.prev := block;
      LinkedWith(was, r, block);
      numFreeBlocks := numFreeBlocks + 1;
      ring, rank := was[..n - 1] + [block, was[n - 1]], r[block := n - 1][was[n - 1] := n];
    }

    // Puts a block that is not queued at the back.
    method Append(block: KVCacheBlock)
      requires Valid() && block in universe && block !in Nodes()
      modifies this, universe`prev, universe`next, head`next, tail`prev
      ensures Valid()
      ensures Nodes() == old(Nodes()) + [block]
    {
      NodesDistinct();
      ghost var nodes := Nodes();
      LinkLast(block);
      assert Nodes() == nodes + [block];
    }

    method AppendN(blocks: seq<KVCacheBlock>)
      requires Valid() && Distinct(blocks)
      requires forall b :: b in blocks ==> b in universe && b !in Nodes()
      modifies this, universe`prev, universe`next, head`next, tail`prev
      ensures Valid()
      ensures Nodes() == old(Nodes()) + blocks
    {
      for i := 0 to |blocks|
        invariant Valid()
        invariant Nodes() == old(Nodes()) + blocks[..i]
      {
        Append(blocks[i]);
      }
    }
  }
}
