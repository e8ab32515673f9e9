// When a call that needs blocks gets them, and at whose cost
// (tr_hash_i64/core/kv_cache.py).
module Supply {
  import opened Prelude
  import opened PoolSpec
  import opened CacheSpec
  import opened CacheInv
  import opened Lru
  import opened CacheView
  import opened CacheSteps
  import opened CacheBatch
  import opened CacheGaps

  // The blocks that are free once the k least recently used sequences went.
  ghost function FreeWithout(c: Cache, k: nat): nat
    requires k <= |Live(c)|
  {
    |FreeAll(c, Live(c)[..k]).pool.free|
  }

  // Enough blocks are free, or come free from the oldest sequences before
  // one of them is pinned or is the one that asks.
  ghost predicate CanGet(c: Cache, s: int, n: nat) {
    n <= |c.pool.free|
    || (c.cfg.lruEviction
        && exists k: nat :: k <= |Live(c)| && NoneHeld(c, s, Live(c)[..k]) && FreeWithout(c, k) >= n)
  }

  // All others have gone, and still there are too few blocks.
  ghost predicate TooFew(c: Cache, s: int, n: nat) {
    n > |c.pool.free|
    && (c.cfg.lruEviction ==> NoneHeld(c, s, Live(c)) && FreeWithout(c, |Live(c)|) < n)
  }

  lemma MoreIsFreed(c: Cache, j: nat, k: nat)
    requires Core(c) && j <= k <= |Live(c)|
    ensures FreeWithout(c, j) <= FreeWithout(c, k)
  {
    GainMonotone(c, j, k);
  }

  // Blocks are granted exactly when they can be had, and refused exactly
  // when they cannot; otherwise the call does not return.
  lemma AllocatesIff(c: Cache, s: int, n: nat)
    requires Inv(c)
    ensures Allocate(c, s, n).Granted? <==> CanGet(c, s, n)
    ensures Allocate(c, s, n).OutOfMemory? <==> TooFew(c, s, n)
  {
    hide Grant, Core, LruOk, SwapOk, FreeAll, NoneHeld;
    if n > |c.pool.free| && c.cfg.lruEviction {
      var need := n - |c.pool.free|;
      var k := EvictLruWorks(c, need, s);
      var r := EvictLru(c, need, s);
      hide EvictLru, Live;
      if r.Spins? {
        BlockedIsNeither(c, s, n, k);
      } else {
        VictimsLeaveTheRest(c, need, s, k, r);
        VictimsAreEnough(c, s, n, k, r);
      }
    }
  }

  lemma HeldStops(c: Cache, s: int, es: seq<Entry>, k: nat, j: nat)
    requires k < |es| && j <= |es| && Held(c, s, es[k].seqId)
    ensures k < j ==> !NoneHeld(c, s, es[..j])
  {
    if k < j { assert es[..j][k] in es[..j]; }
  }

  lemma BlockedIsNeither(c: Cache, s: int, n: nat, k: nat)
    requires Core(c) && c.cfg.lruEviction && n > |c.pool.free| && Blocked(c, n - |c.pool.free|, s, k)
    ensures !CanGet(c, s, n) && !TooFew(c, s, n)
  {
    var live := Live(c);
    hide Core, FreeAll, Live, Held;
    assert live[k] in live;
    forall j: nat | j <= |live| && NoneHeld(c, s, live[..j]) ensures FreeWithout(c, j) < n {
      HeldStops(c, s, live, k, j);
      MoreIsFreed(c, j, k);
    }
  }

  lemma VictimsAreEnough(c: Cache, s: int, n: nat, k: nat, r: Eviction)
    requires Core(c) && c.cfg.lruEviction && n > |c.pool.free| && Victims(c, n - |c.pool.free|, s, k, r)
    ensures r.freed >= n - |c.pool.free| <==> CanGet(c, s, n)
    ensures r.freed < n - |c.pool.free| <==> TooFew(c, s, n)
  {
    var live := Live(c);
    hide Core, FreeAll, Live, Held;
    assert live[..|live|] == live;
    if k == |live| {
      forall j: nat | j <= |live| ensures FreeWithout(c, j) <= FreeWithout(c, k) { MoreIsFreed(c, j, k); }
    } else {
      MoreIsFreed(c, k, |live|);
    }
  }

  // A request for blocks takes the least recently used sequences, and no
  // more of them than it must; nobody when enough blocks are free.
  lemma EvictsNoMoreThanNeeded(c: Cache, s: int, n: nat) returns (k: nat)
    requires Inv(c) && Allocate(c, s, n).Granted?
    ensures k <= |Live(c)| && forall j :: 0 <= j < k ==> FreeWithout(c, j) < n
    ensures forall t :: t in c.owned ==>
      (t in Allocate(c, s, n).c.owned <==> t !in SeqIds(Live(c)[..k]) || t == s)
  {
    hide Grant, Core, LruOk, SwapOk, FreeAll;
    if n <= |c.pool.free| {
      k := 0;
      GrantIs(c, s, n);
    } else {
      var need := n - |c.pool.free|;
      k := EvictLruWorks(c, need, s);
      var r := EvictLru(c, need, s);
      hide EvictLru, Live;
      VictimsLeaveTheRest(c, need, s, k, r);
      GrantIs(r.c, s, n);
      forall j | 0 <= j < k ensures FreeWithout(c, j) < n { assert Gain(c, Live(c)[..j]) < need; }
    }
  }

  // ---- Writes ----

  // A write goes through exactly when the position has a block or one can be
  // had for it.
  lemma WritesIff(c: Cache, l: int, s: int, p: nat, v: KV)
    requires Inv(c) && 0 <= s < c.cfg.maxSeqs && Quot(p, c.cfg.blockSize) < c.cfg.maxBlocks
    ensures var r, mapped := WriteKv(c, l, s, p, v), Quot(p, c.cfg.blockSize) < |Blocks(c, s)|;
      && (r.Done? <==> mapped || CanGet(c, s, 1))
      && (r.Failed? <==> !mapped && TooFew(c, s, 1))
  {
    TableIs(c, s, Quot(p, c.cfg.blockSize));
    hide Allocate, WriteBlock, CanGet, TooFew, Inv;
    AllocatesIff(c, s, 1);
  }

  // A batch goes through exactly when a block can be had for every one of its
  // block indices behind the list.
  lemma BatchWritesIff(c: Cache, l: int, s: int, positions: seq<nat>, rows: seq<KV>)
    requires Inv(c) && |positions| == |rows| && 0 <= s < c.cfg.maxSeqs
    ensures var r, n := WriteKvBatch(c, l, s, positions, rows),
                        |Beyond(BlockIndices(positions, c.cfg.blockSize), |Blocks(c, s)|)|;
      && (r.Done? <==> CanGet(c, s, n))
      && (r.Failed? <==> TooFew(c, s, n))
  {
    hide Allocate, WriteBatchBlocks, CanGet, TooFew, LruOk, SwapOk, Missing;
    if positions != [] {
      BlockIndicesAre(positions, c.cfg.blockSize);
      MissingIs(c, s, BlockIndices(positions, c.cfg.blockSize));
      AllocatesIff(c, s, Missing(c, s, BlockIndices(positions, c.cfg.blockSize)));
    }
    NoneNeeded(c, s);
  }

  lemma NoneNeeded(c: Cache, s: int)
    ensures CanGet(c, s, 0) && !TooFew(c, s, 0)
  {
  }
}
