// The block allocator over the linked free list: reference counts and the
// prefix cache (tr_hash_i64/core/block_pool.py). The ghost field `state` is
// the value the object stands for; each method is proved to compute the
// PoolSpec function of the same operation on it.
module BlockPool {
  import opened Prelude
  import opened Hashing
  import opened BlockQueue
  import opened PoolSpec

  class BlockPool {
    const blocks: seq<KVCacheBlock>
    const freeBlockQueue: FreeKVCacheBlockQueue
    var hashToBlock: map<Hash, KVCacheBlock>
    var enableCaching: bool
    ghost var state: Pool
    ghost const repr: set<object>

    ghost predicate Has(b: KVCacheBlock) {
      0 <= b.id < |blocks| && blocks[b.id] == b
    }

    ghost predicate Fixed() {
      && |blocks| > 0
      && (forall b :: b in freeBlockQueue.universe ==> Has(b))
      && (forall b {:trigger blocks[b]} :: 0 <= b < |blocks| ==>
         blocks[b].id == b && blocks[b] in freeBlockQueue.universe)
      && repr == {this, freeBlockQueue, freeBlockQueue.head, freeBlockQueue.tail} + freeBlockQueue.universe
    }

    // The records agree with the abstract reference counts and hashes.
    ghost predicate RecordsAgree()
      reads this, freeBlockQueue.universe
      requires Fixed()
    {
      && |state.refs| == |state.tags| == |blocks|
      && (forall b {:trigger blocks[b]} :: 0 <= b < |blocks| ==>
            && blocks[b].refCnt == state.refs[b] && blocks[b].hash == state.tags[b]
            && (blocks[b].isNull <==> b == NULL_BLOCK))
    }

    ghost predicate IndexAgrees()
      reads this
    {
      && hashToBlock.Keys == state.index.Keys
      && forall h {:trigger hashToBlock[h]} :: h in hashToBlock ==>
           Has(hashToBlock[h]) && hashToBlock[h].id == state.index[h]
    }

    ghost predicate QueueAgrees()
      reads this, freeBlockQueue
      requires freeBlockQueue.Shape()
    {
      && |freeBlockQueue.Nodes()| == |state.free|
      && forall i :: 0 <= i < |state.free| ==> freeBlockQueue.Nodes()[i].id == state.free[i]
    }

    // The heap part of Valid, without the allocator invariant.
    ghost predicate Agrees()
      reads this, repr
    {
      && Fixed()
      && freeBlockQueue.Valid()
      && RecordsAgree() && IndexAgrees() && QueueAgrees()
      && enableCaching == state.caching
    }

    ghost predicate Valid()
      reads this, repr
    {
      Agrees() && PoolOk(state)
    }

    static ghost predicate IsNew(block: KVCacheBlock, id: int)
      reads block
    {
      block.id == id && block.refCnt == 0 && block.hash == None && !block.isNull
    }

    static method MakeBlocks(n: nat) returns (blocks: seq<KVCacheBlock>, ghost order: map<KVCacheBlock, int>)
      ensures |blocks| == n && Ranked(blocks, order)
      ensures forall b :: b in Elements(blocks) ==> fresh(b) && 0 <= b.id < n && blocks[b.id] == b
      ensures forall b :: 0 <= b < n ==> blocks[b] in Elements(blocks)
      ensures forall b :: 0 <= b < n ==> IsNew(blocks[b], b)
    {
      blocks, order := [], map[];
      for i := 0 to n
        invariant |blocks| == i && Ranked(blocks, order)
        invariant forall b :: b in blocks ==> fresh(b) && 0 <= b.id < i && blocks[b.id] == b
        invariant forall b :: 0 <= b < i ==> IsNew(blocks[b], b)
      {
        var block := new KVCacheBlock(i);
        blocks, order := blocks + [block], order[block := i];
      }
    }

    // All blocks, queued in order.
    static method MakeQueue(n: nat) returns (blocks: seq<KVCacheBlock>, queue: FreeKVCacheBlockQueue)
      ensures |blocks| == n && queue.Valid() && queue.Nodes() == blocks
      ensures fresh(queue) && fresh(queue.head) && fresh(queue.tail) && fresh(queue.universe)
      ensures forall b :: b in queue.universe ==> 0 <= b.id < n && blocks[b.id] == b
      ensures forall b {:trigger blocks[b]} :: 0 <= b < n ==> blocks[b] in queue.universe && IsNew(blocks[b], b)
    {
      ghost var order;
      blocks, order := MakeBlocks(n);
      queue := new FreeKVCacheBlockQueue(blocks, order);
    }

    // The source raises on a non-positive block count.
    constructor (numGpuBlocks: nat, caching: bool)
      requires numGpuBlocks > 0
      ensures Valid() && fresh(repr)
      ensures state == Fresh(numGpuBlocks, caching)
    {
      var made, queue := MakeQueue(numGpuBlocks);
      blocks, freeBlockQueue := made, queue;
      hashToBlock, enableCaching := map[], caching;
      repr := {this, queue, queue.head, queue.tail} + queue.universe;
      new;
      forall o | o in repr ensures fresh(o) {
        assert o == this || o == queue || o == queue.head || o == queue.tail || o in queue.universe;
      }
      Reserve();
      state := Fresh(numGpuBlocks, caching);
      FreshAgrees();
    }

    // Sets block 0 aside as the placeholder.
    method Reserve()
      requires Fixed() && freeBlockQueue.Valid() && freeBlockQueue.Nodes() == blocks
      requires forall b {:trigger blocks[b]} :: 0 <= b < |blocks| ==> IsNew(blocks[b], b)
      modifies freeBlockQueue, freeBlockQueue.universe`isNull, freeBlockQueue.universe`prev,
        freeBlockQueue.universe`next, freeBlockQueue.head`next, freeBlockQueue.tail`prev
      ensures freeBlockQueue.Valid() && freeBlockQueue.Nodes() == blocks[1..]
      ensures forall b {:trigger blocks[b]} :: 0 <= b < |blocks| ==>
        blocks[b].refCnt == 0 && blocks[b].hash == None && (blocks[b].isNull <==> b == NULL_BLOCK)
    {
      var nullBlock := freeBlockQueue.PopLeft();
      assert nullBlock.value == blocks[0];
      nullBlock.value.isNull := true;
    }

    lemma FreshAgrees()
      requires Fixed() && freeBlockQueue.Valid() && freeBlockQueue.Nodes() == blocks[1..]
      requires forall b {:trigger blocks[b]} :: 0 <= b < |blocks| ==>
        blocks[b].refCnt == 0 && blocks[b].hash == None && (blocks[b].isNull <==> b == NULL_BLOCK)
      requires hashToBlock == map[] && state == Fresh(|blocks|, enableCaching)
      ensures Valid()
    {
      FreshOk(|blocks|, enableCaching);
      assert forall i :: 0 <= i < |state.free| ==> freeBlockQueue.Nodes()[i] == blocks[i + 1];
    }

    // Removes a block from the prefix cache when it is handed out again.
    method EvictCachedBlock(block: KVCacheBlock)
      requires Fixed() && RecordsAgree() && IndexAgrees() && Has(block)
      modifies this`hashToBlock, this`state, block`hash
      ensures RecordsAgree() && IndexAgrees()
      ensures state == Forget(old(state), block.id)
    {
      if block.hash != None {
        state := Forget(state, block.id);
        hashToBlock := hashToBlock - {block.hash.value};
        block.hash := None;
      }
    }

    method Claim(block: KVCacheBlock)
      requires Fixed() && RecordsAgree() && IndexAgrees() && Has(block) && enableCaching == state.caching
      modifies this`hashToBlock, this`state, block`hash, block`refCnt
      ensures RecordsAgree() && IndexAgrees() && enableCaching == state.caching
      ensures state == ClaimOne(old(state), block.id)
    {
      if enableCaching { EvictCachedBlock(block); }
      block.refCnt := 1;
      state := state.(refs := state.refs[block.id := 1]);
    }

    method Dequeue(n: nat) returns (r: Option<seq<KVCacheBlock>>)
      requires Agrees()
      modifies this`state, freeBlockQueue, freeBlockQueue.universe`prev, freeBlockQueue.universe`next,
        freeBlockQueue.head`next, freeBlockQueue.tail`prev
      ensures Agrees()
      ensures r.None? <==> n > |old(state).free|
      ensures r.None? ==> state == old(state)
      ensures r.Some? ==> state == old(state).(free := old(state).free[n..])
      ensures r.Some? ==> Named(r.value, old(state).free[..n])
    {
      QueueNamed();
      r := freeBlockQueue.PopLeftN(n);
      if r.Some? {
        state := state.(free := state.free[n..]);
      }
    }

    // Hands out the n blocks at the front of the queue; None stands for the
    // out-of-memory error, raised before anything changes.
    method GetNewBlocks(n: nat) returns (r: Option<seq<KVCacheBlock>>)
      requires Valid()
      modifies repr
      ensures Valid()
      ensures r.None? <==> n > |old(state).free|
      ensures r.None? ==> state == old(state)
      ensures r.Some? ==> state == Take(old(state), n) && Named(r.value, old(state).free[..n])
    {
      ghost var p := state;
      r := Dequeue(n);
      if r.Some? {
        TakeOk(p, n);
        ClaimAll(r.value, p.free[..n]);
        assert state == Take(p, n);
      }
    }

    // The blocks are the pool's own records with these ids.
    ghost predicate Named(s: seq<KVCacheBlock>, ids: seq<int>) {
      |s| == |ids| && forall i :: 0 <= i < |s| ==> Has(s[i]) && s[i].id == ids[i]
    }

    method ClaimAll(taken: seq<KVCacheBlock>, ghost ids: seq<int>)
      requires Fixed() && RecordsAgree() && IndexAgrees() && enableCaching == state.caching
      requires Distinct(ids) && Named(taken, ids)
      modifies this`hashToBlock, this`state, freeBlockQueue.universe`hash, freeBlockQueue.universe`refCnt
      ensures RecordsAgree() && IndexAgrees() && enableCaching == state.caching
      ensures state == PoolSpec.Claim(old(state), ids)
    {
      ghost var p := state;
      assert PoolSpec.Claim(p, []) == p;
      for i := 0 to |taken|
        invariant RecordsAgree() && IndexAgrees() && enableCaching == state.caching
        invariant state == PoolSpec.Claim(p, ids[..i])
      {
        assert ids[..i + 1] == ids[..i] + [ids[i]];
        ClaimStep(p, ids[..i], ids[i]);
        Claim(taken[i]);
      }
      assert ids[..|taken|] == ids;
    }

    lemma {:induction false} WithoutNamed(nodes: seq<KVCacheBlock>, ids: seq<int>, block: KVCacheBlock)
      requires Named(nodes, ids) && Has(block)
      ensures Named(Without(nodes, block), Without(ids, block.id))
    {
      if nodes != [] && nodes[0] != block {
        assert ids[0] != block.id;
        assert Named(nodes[1..], ids[1..]);
        WithoutNamed(nodes[1..], ids[1..], block);
      }
    }

    lemma QueueNamed()
      requires Agrees()
      ensures Named(freeBlockQueue.Nodes(), state.free)
      ensures forall b :: Has(b) ==> (b in freeBlockQueue.Nodes() <==> b.id in state.free)
    {
      var nodes := freeBlockQueue.Nodes();
      forall i | 0 <= i < |nodes| ensures Has(nodes[i]) {
        assert freeBlockQueue.ring[i + 1] == nodes[i];
      }
      forall b | Has(b) && b.id in state.free ensures b in nodes {
        var i :| 0 <= i < |state.free| && state.free[i] == b.id;
        assert nodes[i] == b;
      }
    }

    method Unqueue(block: KVCacheBlock)
      requires Agrees() && Has(block)
      modifies this`state, freeBlockQueue, freeBlockQueue.universe`prev, freeBlockQueue.universe`next,
        freeBlockQueue.head`next, freeBlockQueue.tail`prev
      ensures Agrees()
      ensures state == old(state).(free := Without(old(state).free, block.id))
    {
      hide Linked, Without;
      QueueNamed();
      WithoutNamed(freeBlockQueue.Nodes(), state.free, block);
      var ok := freeBlockQueue.Remove(block);
      state := state.(free := Without(state.free, block.id));
    }

    method AddRef(block: KVCacheBlock, delta: int)
      requires Fixed() && RecordsAgree() && Has(block)
      modifies this`state, block`refCnt
      ensures RecordsAgree()
      ensures state == old(state).(refs := old(state).refs[block.id := old(state).refs[block.id] + delta])
    {
      block.refCnt := block.refCnt + delta;
      state := state.(refs := state.refs[block.id := state.refs[block.id] + delta]);
    }

    method GainRef(block: KVCacheBlock)
      requires Agrees() && Has(block)
      modifies this`state, block`refCnt
      ensures Agrees()
      ensures state == old(state).(refs := old(state).refs[block.id := old(state).refs[block.id] + 1])
    {
      AddRef(block, 1);
    }

    // One more reference for a block found in the prefix cache.
    method Touch(block: KVCacheBlock)
      requires Valid() && Has(block) && block.id != NULL_BLOCK
      modifies repr
      ensures Valid()
      ensures state == Share(old(state), block.id)
    {
      ghost var p := state;
      if block.refCnt == 0 && !block.isNull {
        Unqueue(block);
      }
      GainRef(block);
      assert state == Share(p, block.id);
      ShareOk(p, block.id);
    }

    // Drops one reference from every given block; the blocks nobody refers to
    // any more join the back of the queue in the order given.
    method FreeBlocks(order: seq<KVCacheBlock>, ghost ids: seq<int>)
      requires Valid() && Named(order, ids) && Distinct(ids)
      requires forall b :: b in ids ==> 0 < b < |state.refs| && state.refs[b] > 0
      modifies repr
      ensures Valid()
      ensures state == Release(old(state), ids)
    {
      ghost var p := state;
      ReleaseOk(p, ids);
      IdleIn(p.refs, ids);
      var released := DropRefs(order, ids);
      Requeue(released, Idle(p.refs, ids));
      assert state == Release(p, ids);
    }

    method DropRef(block: KVCacheBlock) returns (idle: bool)
      requires Fixed() && RecordsAgree() && Has(block)
      modifies this`state, block`refCnt
      ensures RecordsAgree()
      ensures state == old(state).(refs := old(state).refs[block.id := old(state).refs[block.id] - 1])
      ensures idle <==> old(state).refs[block.id] == 1 && block.id != NULL_BLOCK
    {
      AddRef(block, -1);
      idle := block.refCnt == 0 && !block.isNull;
    }

    method DropRefs(order: seq<KVCacheBlock>, ghost ids: seq<int>) returns (released: seq<KVCacheBlock>)
      requires Agrees() && Named(order, ids) && Distinct(ids)
      requires forall b :: b in ids ==> 0 < b < |state.refs|
      modifies this`state, freeBlockQueue.universe`refCnt
      ensures Agrees()
      ensures state == old(state).(refs := Release(old(state), ids).refs)
      ensures Named(released, Idle(old(state).refs, ids))
    {
      hide FreeKVCacheBlockQueue.Valid, Linked, Release, Idle;
      ghost var p := state;
      NothingReleased(p, ids);
      released := [];
      for i := 0 to |order|
        invariant RecordsAgree()
        invariant state == p.(refs := Release(p, ids[..i]).refs)
        invariant Named(released, Idle(p.refs, ids[..i]))
      {
        assert ids[i] in ids;
        ReleasePrefix(p, ids, i);
        var idle := DropRef(order[i]);
        if idle { released := released + [order[i]]; }
      }
      assert ids[..|order|] == ids;
    }

    static lemma NothingReleased(p: Pool, ids: seq<int>)
      ensures Release(p, ids[..0]).refs == p.refs && Idle(p.refs, ids[..0]) == []
      ensures |Release(p, ids).refs| == |p.refs|
    {
    }

    lemma NotQueued(s: seq<KVCacheBlock>, ids: seq<int>)
      requires Agrees() && Named(s, ids) && Distinct(ids)
      requires forall b :: b in ids ==> b !in state.free
      ensures Distinct(s)
      ensures forall b :: b in s ==> b in freeBlockQueue.universe && b !in freeBlockQueue.Nodes()
    {
      QueueNamed();
      forall b | b in s ensures b in freeBlockQueue.universe && b !in freeBlockQueue.Nodes() {
        var i :| 0 <= i < |s| && s[i] == b;
        assert ids[i] in ids;
      }
    }

    method Requeue(released: seq<KVCacheBlock>, ghost ids: seq<int>)
      requires Agrees() && Named(released, ids) && Distinct(ids)
      requires forall b :: b in ids ==> b !in state.free
      modifies this`state, freeBlockQueue, freeBlockQueue.universe`prev, freeBlockQueue.universe`next,
        freeBlockQueue.head`next, freeBlockQueue.tail`prev
      ensures Agrees()
      ensures state == old(state).(free := old(state).free + ids)
    {
      hide Linked;
      NotQueued(released, ids);
      ghost var nodes := freeBlockQueue.Nodes();
      freeBlockQueue.AppendN(released);
      state := state.(free := state.free + ids);
      assert forall i :: 0 <= i < |state.free| ==>
        (nodes + released)[i].id == state.free[i];
    }

    method GetNumFreeBlocks() returns (n: nat)
      requires Valid()
      ensures n == |state.free|
    {
      n := freeBlockQueue.numFreeBlocks;
    }

    method GetCachedBlock(h: Hash) returns (r: Option<KVCacheBlock>)
      requires Valid()
      ensures r.Some? <==> Lookup(state, h).Some?
      ensures r.Some? ==> Has(r.value) && r.value.id == Lookup(state, h).value
    {
      if !enableCaching || h !in hashToBlock { return None; }
      return Some(hashToBlock[h]);
    }

    // Registers a full block under its hash, unless it already has one.
    method CacheBlock(block: KVCacheBlock, h: Hash)
      requires Valid() && Has(block)
      modifies this`state, this`hashToBlock, block`hash
      ensures Valid()
      ensures state == Register(old(state), block.id, h)
    {
      RegisterOk(state, block.id, h);
      if !enableCaching || block.isNull { return; }
      if block.hash == None { SetHash(block, h); }
    }

    method SetHash(block: KVCacheBlock, h: Hash)
      requires Agrees() && Has(block)
      modifies this`state, this`hashToBlock, block`hash
      ensures Agrees()
      ensures state
            == old(state).(tags := old(state).tags[block.id := Some(h)], index := old(state).index[h := block.id])
    {
      hide FreeKVCacheBlockQueue.Valid, Linked;
      state := state.(tags := state.tags[block.id := Some(h)], index := state.index[h := block.id]);
      block.hash := Some(h);
      hashToBlock := hashToBlock[h := block];
    }

    // ---- The same calls by block id ----

    method BlockAt(b: int) returns (block: KVCacheBlock)
      requires Valid() && 0 <= b < |state.refs|
      ensures Has(block) && block.id == b && block.refCnt == state.refs[b]
    {
      block := blocks[b];
    }

    method RefCount(b: int) returns (n: int)
      requires Valid() && 0 <= b < |state.refs|
      ensures n == state.refs[b]
    {
      var block := BlockAt(b);
      n := block.refCnt;
    }

    method GetNewIds(n: nat) returns (r: Option<seq<int>>)
      requires Valid()
      modifies repr
      ensures Valid()
      ensures r.None? <==> n > |old(state).free|
      ensures r.None? ==> state == old(state)
      ensures r.Some? ==> state == Take(old(state), n) && r.value == old(state).free[..n]
    {
      var taken := GetNewBlocks(n);
      if taken.None? { return None; }
      r := Some(seq(n, i requires 0 <= i < n => taken.value[i].id));
    }

    method FreeIds(ids: seq<int>)
      requires Valid() && Distinct(ids)
      requires forall b :: b in ids ==> 0 < b < |state.refs| && state.refs[b] > 0
      modifies repr
      ensures Valid() && state == Release(old(state), ids)
    {
      assert |blocks| == |state.refs|;
      assert forall i :: 0 <= i < |ids| ==> ids[i] in ids;
      var order := seq(|ids|, i requires 0 <= i < |ids| => blocks[ids[i]]);
      FreeBlocks(order, ids);
    }

    method TouchId(b: int)
      requires Valid() && 0 < b < |state.refs|
      modifies repr
      ensures Valid() && state == Share(old(state), b)
    {
      var block := BlockAt(b);
      Touch(block);
    }

    method GetCachedId(h: Hash) returns (r: Option<int>)
      requires Valid()
      ensures r == Lookup(state, h)
    {
      var block := GetCachedBlock(h);
      r := if block.None? then None else Some(block.value.id);
    }

    method CacheId(b: int, h: Hash)
      requires Valid() && 0 <= b < |state.refs|
      modifies repr
      ensures Valid() && state == Register(old(state), b, h)
    {
      var block := BlockAt(b);
      CacheBlock(block, h);
    }

    method CachingEnabled() returns (r: bool)
      requires Valid()
      ensures r == state.caching
    {
      r := enableCaching;
    }

    method EnableCaching()
      requires Valid()
      modifies this
      ensures Valid() && state == old(state).(caching := true)
    {
      enableCaching := true;
      state := state.(caching := true);
    }
  }
}
