// The paged KV cache object (tr_hash_i64/core/kv_cache.py). The ghost field
// `state` is the value the object stands for; every method is proved to
// compute the CacheSpec function of the same operation on it.
module PagedCache {
  import opened Prelude
  import opened Hashing
  import opened PoolSpec
  import Pools = BlockPool
  import opened CacheSpec
  import opened CacheInv
  import opened Lru
  import opened CacheView
  import opened CacheSteps
  import opened CacheArrays
  import opened CacheBatch
  import opened GroupedStore
  import opened PrefixCache
  import Swapping
  import CacheRun
  import opened GraphMode
  import opened PagedFacts

  class PagedKVCache {
    const cfg: Config
    const pool: Pools.BlockPool
    const cells: array<Content>
    const blockTable: array2<int>
    const seqLens: array<int>
    var seqBlocks: map<int, seq<int>>
    var pinnedSeqIds: set<int>
    var accessCounter: int
    var lastAccess: map<int, int>
    var lruHeap: seq<Entry>
    var evictedSeqIds: seq<int>
    var dirtyBlocks: set<int>
    var swapEnabled: bool
    var cpuCells: array<Content>
    var cpuFreeBlocks: seq<int>
    var swappedSeqs: map<int, Stashed>
    var graphDummyBlockId: Option<int>
    ghost var state: Cache

    // ---- Agreement of the object with its value, part by part ----

    ghost predicate Separate() {
      && cells !in pool.repr && blockTable !in pool.repr && seqLens !in pool.repr && this !in pool.repr
    }

    ghost predicate PoolIs(c: Cache)
      reads pool, pool.repr
    {
      pool in pool.repr && pool.Valid() && pool.state == c.pool
    }

    ghost predicate TensorsAre(c: Cache)
      reads cells, blockTable, seqLens
    {
      && c.cfg == cfg
      && cells[..] == c.cells && RowsOf(blockTable) == c.table && seqLens[..] == c.lens
      && blockTable.Length1 == cfg.maxBlocks
    }

    ghost predicate ListsAre(c: Cache)
      reads this`seqBlocks
    {
      c.owned == seqBlocks
    }

    ghost predicate LruIs(c: Cache)
      reads this`accessCounter, this`lastAccess, this`lruHeap
    {
      c.lru == Lru(accessCounter, lastAccess, lruHeap)
    }

    ghost predicate NotesAre(c: Cache)
      reads this`pinnedSeqIds, this`evictedSeqIds, this`dirtyBlocks, this`graphDummyBlockId
    {
      c.pinned == pinnedSeqIds && c.evicted == evictedSeqIds && c.dirty == dirtyBlocks && c.dummy == graphDummyBlockId
    }

    ghost predicate SwapIs(c: Cache)
      reads this`swapEnabled, this`cpuCells, this`cpuFreeBlocks, this`swappedSeqs, cpuCells
    {
      && cpuCells != cells && cpuCells !in pool.repr
      && c.swap == Swap(swapEnabled, cpuCells[..], cpuFreeBlocks, swappedSeqs)
    }

    ghost predicate Is(c: Cache)
      reads this, pool, pool.repr, cells, blockTable, seqLens, cpuCells
    {
      Separate() && PoolIs(c) && TensorsAre(c) && ListsAre(c) && LruIs(c) && NotesAre(c) && SwapIs(c)
    }

    // The object stands for its value, which is a good cache.
    ghost predicate Valid()
      reads this, pool, pool.repr, cells, blockTable, seqLens, cpuCells
    {
      Is(state) && Inv(state)
    }

    constructor (cfg: Config)
      requires cfg.numBlocks > 0
      ensures Valid() && state == Init(cfg)
      ensures fresh(pool.repr) && fresh(cells) && fresh(blockTable) && fresh(seqLens) && fresh(cpuCells)
    {
      var p := new Pools.BlockPool(cfg.numBlocks, false);
      assert p.Fixed();
      hide Inv, PoolOk, Pools.BlockPool.Valid, Pools.BlockPool.Fixed, RowsOf, Pools.BlockPool.Named;
      var kv, table, lens := MakeTensors(cfg);
      var cpu := new Content[0];
      this.cfg, pool, cells, blockTable, seqLens, cpuCells := cfg, p, kv, table, lens, cpu;
      seqBlocks, pinnedSeqIds, accessCounter, lastAccess, lruHeap := map[], {}, 0, map[], [];
      evictedSeqIds, dirtyBlocks, swapEnabled, cpuFreeBlocks, swappedSeqs := [], {}, false, [], map[];
      graphDummyBlockId := None;
      state := Init(cfg);
      new;
      InitValue();
    }

    lemma InitValue()
      requires cfg.numBlocks > 0 && state == Init(cfg) && Separate() && pool.Valid()
      requires pool.state == Fresh(cfg.numBlocks, false)
      requires cells[..] == Init(cfg).cells && RowsOf(blockTable) == Init(cfg).table && seqLens[..] == Init(cfg).lens
      requires blockTable.Length1 == cfg.maxBlocks && cpuCells != cells && cpuCells !in pool.repr
      requires cpuCells.Length == 0
      requires seqBlocks == map[] && accessCounter == 0 && lastAccess == map[] && lruHeap == [] && pinnedSeqIds == {}
      requires evictedSeqIds == [] && dirtyBlocks == {} && graphDummyBlockId == None
      requires !swapEnabled && cpuFreeBlocks == [] && swappedSeqs == map[]
      ensures Valid()
    {
      InitCore(cfg);
      hide Pools.BlockPool.Valid, Pools.BlockPool.Fixed, ZeroContent;
    }

    // ---- Sequence-level LRU ----

    method CompactLruHeap(ghost c: Cache)
      requires ListsAre(c) && LruIs(c)
      modifies this`lruHeap
      ensures lruHeap == Compact(c, old(lruHeap))
    {
      var heap, current := lruHeap, [];
      for i := 0 to |heap|
        invariant current == Compact(c, heap[..i])
      {
        var e := heap[i];
        CompactSnoc(c, heap[..i], e);
        assert heap[..i + 1] == heap[..i] + [e];
        if e.seqId in seqBlocks && e.seqId in lastAccess && lastAccess[e.seqId] == e.tick {
          current := current + [e];
        }
      }
      assert heap[..|heap|] == heap;
      lruHeap := current;
    }

    method TouchSeq(s: int, ghost c: Cache)
      requires ListsAre(c) && LruIs(c)
      modifies this`accessCounter, this`lastAccess, this`lruHeap
      ensures LruIs(Touch(c, s))
    {
      accessCounter := accessCounter + 1;
      lastAccess := lastAccess[s := accessCounter];
      lruHeap := HeapPush(lruHeap, Entry(accessCounter, s));
      assert |seqBlocks| == |seqBlocks.Keys| && |c.owned| == |c.owned.Keys|;
      if |lruHeap| > Max(COMPACT_FLOOR, 4 * |seqBlocks|) {
        CompactLruHeap(c.(lru := Lru(accessCounter, lastAccess, lruHeap)));
      }
    }

    // ---- free_sequence ----

    // Gives the blocks of a sequence back, last block first, and clears its
    // row of the block table.
    method ReturnList(s: int, blocks: seq<int>, ghost c: Cache)
      requires Separate() && PoolIs(c) && Core(c) && s in c.owned && blocks == c.owned[s]
      requires 0 <= s < blockTable.Length0 && |blocks| <= blockTable.Length1
      modifies this`dirtyBlocks, pool.repr, blockTable
      ensures dirtyBlocks == old(dirtyBlocks) + Elements(blocks)
      ensures PoolIs(c.(pool := Release(c.pool, CacheSpec.Reverse(blocks))))
      ensures RowsOf(blockTable) == Upd(old(RowsOf(blockTable)), s, ClearRow(old(RowsOf(blockTable))[s], |blocks|))
    {
      hide Core, PoolOk, Pools.BlockPool.Valid, RowsOf, CacheSpec.Reverse, Release;
      dirtyBlocks := dirtyBlocks + (set b | b in blocks);
      ReturnReady(c, s);
      pool.FreeIds(CacheSpec.Reverse(blocks));
      WipeRow(blockTable, s, |blocks|);
    }

    method ForgetList(s: int, ghost c: Cache)
      requires ListsAre(c) && LruIs(c)
      modifies this`seqBlocks, this`lastAccess
      ensures ListsAre(CacheSpec.FreeSequence(c, s)) && LruIs(CacheSpec.FreeSequence(c, s))
    {
      seqBlocks := seqBlocks - {s};
      lastAccess := lastAccess - {s};
    }

    // Needs no more than the allocator invariant: eviction frees its victims
    // in the middle of a heap update.
    method FreeSequence(s: int)
      requires Is(state) && Core(state) && 0 <= s < cfg.maxSeqs
      modifies this, pool.repr, blockTable, seqLens
      ensures Is(state) && state == CacheSpec.FreeSequence(old(state), s)
      ensures cpuCells == old(cpuCells)
    {
      ghost var c, d := state, CacheSpec.FreeSequence(state, s);
      hide Core, Pools.BlockPool.Valid, RowsOf, Release, CacheSpec.FreeSequence;
      FreeFields(c, s);
      var blocks := if s in seqBlocks then seqBlocks[s] else [];
      ForgetList(s, c);
      if blocks != [] { ReturnList(s, blocks, c); }
      seqLens[s] := 0;
      state := d;
    }

    // ---- _evict_lru ----

    method PopMinimum() returns (e: Entry)
      requires Is(state) && lruHeap != []
      modifies this`lruHeap, this`state
      ensures Is(state) && old(state).lru.heap != [] && state == Popped(old(state)) && e == old(state).lru.heap[0]
    {
      e := lruHeap[0];
      lruHeap := lruHeap[1..];
      state := Popped(state);
    }

    method IsCurrent(e: Entry) returns (r: bool)
      requires Is(state)
      ensures r == Current(state, e)
    {
      hide Pools.BlockPool.Valid, RowsOf;
      r := e.seqId in seqBlocks && e.seqId in lastAccess && lastAccess[e.seqId] == e.tick;
    }

    method FreeCount() returns (n: nat)
      requires Is(state)
      ensures n == |state.pool.free|
    {
      hide Pools.BlockPool.Valid, RowsOf;
      n := pool.GetNumFreeBlocks();
    }

    // Frees a popped victim and reports how many blocks that gave back.
    method FreeVictim(victim: int) returns (gained: int)
      requires Is(state) && Core(state) && 0 <= victim < cfg.maxSeqs
      modifies this, pool.repr, blockTable, seqLens
      ensures cpuCells == old(cpuCells)
      ensures Is(state)
      ensures state == CacheSpec.FreeSequence(old(state), victim).(evicted := old(state).evicted + [victim])
      ensures gained == |state.pool.free| - |old(state).pool.free|
    {
      hide Core, Pools.BlockPool.Valid, RowsOf, CacheSpec.FreeSequence;
      ghost var c := state;
      var before := FreeCount();
      FreeSequence(victim);
      var after := FreeCount();
      FreeingEvictsNobody(c, victim);
      gained := after as int - before as int;
      evictedSeqIds := evictedSeqIds + [victim];
      state := state.(evicted := evictedSeqIds);
    }

    // One turn of the eviction loop. A live minimum that is held would be
    // pushed back and popped for ever: exactly what the precondition excludes.
    method EvictTurn(needed: int, freed: int, protect: int) returns (more: int)
      requires Is(state) && Core(state) && freed < needed && lruHeap != []
      requires EvictLoop(state, needed, freed, protect).Evicted?
      modifies this, pool.repr, blockTable, seqLens
      ensures cpuCells == old(cpuCells)
      ensures Is(state) && Core(state)
      ensures EvictLoop(state, needed, more, protect) == EvictLoop(old(state), needed, freed, protect)
      ensures |state.lru.heap| < |old(state).lru.heap|
    {
      hide Core, Is, CacheSpec.FreeSequence, Held;
      ghost var c := state;
      HeapIs();
      if Current(c, c.lru.heap[0]) { MinimumOwned(c); }
      var e := PopMinimum();
      TurnCore(c);
      var current := IsCurrent(e);
      assert current == Current(c, e);
      if !current { return freed; }
      assert !Held(c, protect, e.seqId);
      assert 0 <= e.seqId < cfg.maxSeqs;
      var gained := FreeVictim(e.seqId);
      assert state == AfterVictim(c);
      more := freed + gained;
    }

    lemma HeapIs()
      requires Is(state)
      ensures state.lru.heap == lruHeap && state.cfg == cfg
    {
    }

    method EvictLru(needed: int, protect: int) returns (freed: int)
      requires Valid() && CacheSpec.EvictLru(state, needed, protect).Evicted?
      modifies this, pool.repr, blockTable, seqLens
      ensures cpuCells == old(cpuCells)
      ensures Valid() && CacheSpec.EvictLru(old(state), needed, protect) == Evicted(state, freed)
    {
      hide Inv, Core, Is, CacheSpec.FreeSequence, EvictLoop;
      ghost var c := state;
      EvictInv(c, needed, protect);
      ClearEvicted();
      ghost var outcome := EvictLoop(state, needed, 0, protect);
      freed := 0;
      HeapIs();
      while freed < needed && lruHeap != []
        invariant Is(state) && Core(state) && cpuCells == old(cpuCells)
        invariant lruHeap == state.lru.heap && EvictLoop(state, needed, freed, protect) == outcome
        decreases |lruHeap|
      {
        freed := EvictTurn(needed, freed, protect);
        HeapIs();
      }
      LoopEnds(state, needed, freed, protect);
    }

    method ClearEvicted()
      requires Is(state) && Core(state)
      modifies this`evictedSeqIds, this`state
      ensures Is(state) && Core(state) && state == old(state).(evicted := [])
    {
      CoreBeside(state, state.(evicted := []));
      hide Core, Pools.BlockPool.Valid, RowsOf;
      evictedSeqIds := [];
      state := state.(evicted := []);
    }

    // ---- allocate_blocks ----

    // Lazy zeroing: only blocks used before need it.
    method ZeroDirty(taken: seq<int>, ghost c: Cache)
      requires Shape(c) && cells[..] == c.cells && dirtyBlocks == c.dirty && c.cfg == cfg
      requires forall b :: b in taken ==> 0 <= b < |c.cells|
      modifies cells, this`dirtyBlocks
      ensures cells[..] == Wipe(c, taken) && dirtyBlocks == c.dirty - Elements(taken)
    {
      assert Wipe(c, []) == c.cells;
      for i := 0 to |taken|
        invariant cells[..] == Wipe(c, taken[..i]) && dirtyBlocks == c.dirty - Elements(taken[..i])
      {
        var b := taken[i];
        assert b in taken;
        assert taken[..i + 1] == taken[..i] + [b];
        if b in dirtyBlocks {
          assert cells[b] == c.cells[b] by { assert cells[..][b] == c.cells[b]; }
          ZeroBlock(cells, b, cfg);
          dirtyBlocks := dirtyBlocks - {b};
        }
        WipeOne(c, taken[..i], b);
      }
      assert taken[..|taken|] == taken;
    }

    method AppendBlocks(s: int, taken: seq<int>, ghost c: Cache)
      requires Core(c) && 0 <= s < c.cfg.maxSeqs && |Blocks(c, s)| + |taken| <= c.cfg.maxBlocks
      requires ListsAre(c) && RowsOf(blockTable) == c.table && blockTable.Length1 == c.cfg.maxBlocks
      modifies this`seqBlocks, blockTable
      ensures seqBlocks == c.owned[s := Blocks(c, s) + taken]
      ensures RowsOf(blockTable) == Upd(c.table, s, SetRow(RowOf(c, s), |Blocks(c, s)|, taken))
    {
      TableSize(c);
      hide Core;
      var existing := if s in seqBlocks then seqBlocks[s] else [];
      FillRow(blockTable, s, |existing|, taken);
      seqBlocks := seqBlocks[s := existing + taken];
    }

    method TakeZeroed(n: nat, ghost c: Cache) returns (taken: seq<int>)
      requires Separate() && PoolIs(c) && Core(c) && n <= |c.pool.free|
      requires cells[..] == c.cells && dirtyBlocks == c.dirty && c.cfg == cfg
      modifies pool.repr, cells, this`dirtyBlocks
      ensures taken == c.pool.free[..n] && PoolIs(c.(pool := Take(c.pool, n)))
      ensures cells[..] == Wipe(c, taken) && dirtyBlocks == c.dirty - Elements(taken)
    {
      hide Core, Pools.BlockPool.Valid, Take, Wipe;
      var got := pool.GetNewIds(n);
      taken := got.value;
      TakenInRange(c, n);
      ZeroDirty(taken, c);
    }

    method AppendAndTouch(s: int, taken: seq<int>, ghost c: Cache)
      requires Core(c) && MayGrow(c, s, |taken|) && |taken| <= |c.pool.free| && taken == c.pool.free[..|taken|]
      requires ListsAre(c) && LruIs(c) && RowsOf(blockTable) == c.table && blockTable.Length1 == c.cfg.maxBlocks
      modifies this`seqBlocks, blockTable, this`accessCounter, this`lastAccess, this`lruHeap
      ensures ListsAre(Grant(c, s, |taken|)) && LruIs(Grant(c, s, |taken|))
      ensures RowsOf(blockTable) == Grant(c, s, |taken|).table
    {
      hide Core, RowsOf, Take, Wipe, SetRow, Touch, Grant, Assign, Elements, RowOf, Blocks;
      GrantFields(c, s, |taken|);
      AppendBlocks(s, taken, c);
      TouchSeq(s, Ungranted(c, s, |taken|));
    }

    method GrantBlocks(s: int, n: nat) returns (taken: seq<int>)
      requires Is(state) && Core(state) && MayGrow(state, s, n) && n <= |state.pool.free|
      modifies this, pool.repr, cells, blockTable
      ensures Is(state) && state == Grant(old(state), s, n) && taken == old(state).pool.free[..n]
      ensures cpuCells == old(cpuCells)
    {
      ghost var c := state;
      hide Core, Pools.BlockPool.Valid, RowsOf, Take, Wipe, SetRow, Touch, Grant, Assign, Elements, RowOf, Blocks;
      GrantFields(c, s, n);
      taken := TakeZeroed(n, c);
      AppendAndTouch(s, taken, c);
      state := Grant(c, s, n);
    }

    // What allocate_blocks returns, and in which state.
    ghost predicate Returns(a: Allocation, r: Option<seq<int>>, d: Cache) {
      if r.Some? then a == Granted(d, r.value) else a == OutOfMemory(d)
    }

    // The loop hangs on exactly the requests the precondition excludes; None
    // stands for the out-of-memory error.
    method AllocateBlocks(s: int, n: nat) returns (r: Option<seq<int>>)
      requires Valid() && MayGrow(state, s, n) && !Stuck(state, s, n)
      modifies this, pool.repr, cells, blockTable, seqLens
      ensures Valid() && cpuCells == old(cpuCells)
      ensures Returns(Allocate(old(state), s, n), r, state)
    {
      ghost var c := state;
      hide Core, Inv, Is, Grant, CacheSpec.EvictLru, Stuck, MayGrow, AllocMeets;
      AllocateKeeps(c, s, n);
      CfgIs();
      var have := FreeCount();
      if n > have {
        if !cfg.lruEviction { return None; }
        var deficit := n - have;
        EvictReady(c, s, n);
        var freed := EvictLru(deficit, s);
        if freed < deficit { return None; }
      }
      InvCore(state);
      var taken := GrantBlocks(s, n);
      r := Some(taken);
    }

    lemma CfgIs()
      requires Is(state)
      ensures state.cfg == cfg
    {
    }

    // ---- _cow_if_shared ----

    // Takes a private copy of a shared block and drops a reference to it.
    method TakeCopy(shared: int, ghost c: Cache, ghost s: int, ghost i: int) returns (copy: int)
      requires Separate() && PoolIs(c) && Core(c) && Copies(c, s, i) && shared == Blocks(c, s)[i]
      requires cells[..] == c.cells && c.cfg == cfg
      modifies pool.repr, cells
      ensures copy == c.pool.free[0] && PoolIs(c.(pool := Release(Take(c.pool, 1), [shared])))
      ensures 0 <= shared < |c.cells| && cells[..] == Upd(c.cells, copy, c.cells[shared])
    {
      hide Core, Pools.BlockPool.Valid, Take, Release, Copies;
      CopyReady(c, s, i);
      var got := pool.GetNewIds(1);
      copy := got.value[0];
      CopyBlock(cells, copy, cells, shared, cfg);
      pool.FreeIds([shared]);
    }

    method MakeCopy(s: int, i: int, ghost c: Cache) returns (copy: int)
      requires Is(state) && c == state && Core(c) && Copies(c, s, i)
      modifies this, pool.repr, cells, blockTable
      ensures Is(state) && cpuCells == old(cpuCells)
      ensures (state, copy) == CacheSpec.CowIfShared(c, s, i, Blocks(c, s)[i])
    {
      hide Core, Pools.BlockPool.Valid, Take, Release, RowsOf, CacheSpec.CowIfShared, Copies;
      CowFields(c, s, i);
      ghost var d := CacheSpec.CowIfShared(c, s, i, Blocks(c, s)[i]).0;
      copy := TakeCopy(seqBlocks[s][i], c, s, i);
      SetEntry(blockTable, s, i, copy);
      seqBlocks := seqBlocks[s := seqBlocks[s][i := copy]];
      state := d;
    }

    method CowIfShared(s: int, i: int, physical: int) returns (target: int)
      requires Is(state) && Core(state) && 0 <= i
      requires Copies(state, s, i) ==> physical == Blocks(state, s)[i]
      modifies this, pool.repr, cells, blockTable
      ensures Is(state) && cpuCells == old(cpuCells)
      ensures (state, target) == CacheSpec.CowIfShared(old(state), s, i, physical)
    {
      hide Core, Is, Pools.BlockPool.Valid, Take, Release;
      var shared := IsShared(s, i);
      if !shared { return physical; }
      target := MakeCopy(s, i, state);
    }

    // Whether the prefix cache shares the block and a copy can be made.
    method IsShared(s: int, i: int) returns (r: bool)
      requires Is(state) && Core(state) && 0 <= i
      ensures r == Copies(state, s, i)
    {
      hide Core, Pools.BlockPool.Valid, RowsOf;
      var caching := pool.CachingEnabled();
      if !caching || s !in seqBlocks || i >= |seqBlocks[s]| { return false; }
      ListInRange(state, s, i);
      var refs := pool.RefCount(seqBlocks[s][i]);
      if refs <= 1 { return false; }
      var free := FreeCount();
      r := free != 0;
    }

    // ---- write_kv ----

    method StoreAt(l: int, s: int, p: nat, b: int, v: KV)
      requires Is(state) && Core(state) && 0 <= l < cfg.layers && 0 <= s < cfg.maxSeqs && 0 <= b < cfg.numBlocks
      modifies this, cells, seqLens
      ensures Is(state) && cpuCells == old(cpuCells)
      ensures state == Touch(Store(old(state), l, s, p, b, v), s)
    {
      ghost var c, d := state, Store(state, l, s, p, b, v);
      hide Core, Pools.BlockPool.Valid, RowsOf, Touch;
      StoreFields(c, l, s, p, b, v);
      hide Put, Store;
      StoreCell(cells, b, l, Rem(p, cfg.blockSize), v);
      seqLens[s] := Max(seqLens[s], p + 1);
      TouchSeq(s, d);
      state := Touch(d, s);
    }

    method PhysicalAt(s: int, i: nat) returns (b: int)
      requires Is(state) && Core(state) && 0 <= s < cfg.maxSeqs && i < cfg.maxBlocks
      ensures b == TableEntry(state, s, i)
      ensures b == if i < |Blocks(state, s)| then Blocks(state, s)[i] else -1
      ensures i < |Blocks(state, s)| ==>
        0 < b < cfg.numBlocks && |state.pool.refs| == cfg.numBlocks && state.pool.refs[b] > 0
    {
      EntryIs(state, s, i);
      hide Core, Pools.BlockPool.Valid;
      b := blockTable[s, i];
    }

    method WriteBlock(l: int, s: int, p: nat, physical: int, v: KV)
      requires Valid() && Storable(state, l, s, p, physical)
      modifies this, pool.repr, cells, blockTable, seqLens
      ensures Valid() && cpuCells == old(cpuCells)
      ensures state == CacheSpec.WriteBlock(old(state), l, s, p, physical, v)
    {
      hide Inv, Core, Is, Touch, CacheSpec.CowIfShared, Store;
      ghost var c := state;
      StoreKeeps(c, l, s, p, physical, v);
      CfgIs();
      var target := CowIfShared(s, Quot(p, cfg.blockSize), physical);
      CfgIs();
      StoreAt(l, s, p, target, v);
    }

    ghost predicate Writes(o: Outcome, ok: bool, d: Cache) {
      o == if ok then Done(d) else Failed(d)
    }

    // The source also takes writes beyond the next block; CacheExact says
    // what becomes of them.
    method WriteKv(l: int, s: int, p: nat, v: KV) returns (ok: bool)
      requires Valid() && 0 <= l < cfg.layers && 0 <= s < cfg.maxSeqs && Quot(p, cfg.blockSize) < cfg.maxBlocks
      requires Quot(p, cfg.blockSize) >= |Blocks(state, s)| ==> MayGrow(state, s, 1) && !Stuck(state, s, 1)
      modifies this, pool.repr, cells, blockTable, seqLens
      ensures Valid() && cpuCells == old(cpuCells)
      ensures Writes(CacheSpec.WriteKv(old(state), l, s, p, v), ok, state)
    {
      hide Inv, Core, Is, Touch, CacheSpec.WriteBlock, Allocate, Stuck, MayGrow;
      ghost var c := state;
      InvCore(c);
      CfgIs();
      WriteKvCases(c, l, s, p, v);
      var physical := PhysicalAt(s, Quot(p, cfg.blockSize));
      if physical < 0 {
        AllocatedStorable(c, l, s, p);
        var got := AllocateBlocks(s, 1);
        if got.None? { return false; }
        physical := got.value[0];
        CfgIs();
      }
      WriteBlock(l, s, p, physical, v);
      ok := true;
    }

    // ---- read_kv ----

    // The first rows of logical block i of the sequence, in one layer.
    method ReadBlock(l: int, s: int, i: nat, count: nat, out: array<KV>, start: nat)
      requires Is(state) && Core(state) && 0 <= l < cfg.layers && 0 <= s < cfg.maxSeqs && i < cfg.maxBlocks
      requires count <= cfg.blockSize && start + count <= out.Length
      requires forall p :: start <= p < out.Length ==> out[p] == cfg.zero
      modifies out
      ensures |BlockRows(state, s, l, i)| == cfg.blockSize
      ensures forall p :: 0 <= p < start || start + count <= p < out.Length ==> out[p] == old(out[p])
      ensures forall p :: start <= p < start + count ==> out[p] == BlockRows(state, s, l, i)[p - start]
    {
      hide Is, Core;
      ghost var c := state;
      CellsAre();
      BlockRowsAre(c, s, l, i);
      var physical := PhysicalAt(s, i);
      if physical < 0 { return; }
      var row := cells[..][physical][l];
      for o := 0 to count
        invariant forall p :: 0 <= p < start || start + o <= p < out.Length ==> out[p] == old(out[p])
        invariant forall p :: start <= p < start + o ==> out[p] == row[p - start]
      {
        out[start + o] := row[o];
      }
    }

    lemma CellsAre()
      requires Is(state)
      ensures cells[..] == state.cells && state.cfg == cfg && seqLens[..] == state.lens
    {
    }

    method ReadRows(l: int, s: int, n: nat, ghost c: Cache) returns (rows: seq<KV>)
      requires Is(state) && c == state && Core(c) && 0 <= l < cfg.layers && 0 <= s < cfg.maxSeqs
      requires n <= cfg.maxBlocks * cfg.blockSize
      ensures |rows| == n && forall p :: 0 <= p < n ==> rows[p] == View(c, s, l, p)
    {
      hide Is, Core, View, BlockRows;
      CfgIs();
      var out := new KV[n](p => cfg.zero);
      var full, remainder := Quot(n, cfg.blockSize), Rem(n, cfg.blockSize);
      Decompose(n, cfg.blockSize);
      BlockBounds(n, cfg.maxBlocks, 0, cfg.blockSize);
      for i := 0 to full
        invariant i * cfg.blockSize <= n
        invariant forall p :: i * cfg.blockSize <= p < out.Length ==> out[p] == cfg.zero
        invariant forall p :: 0 <= p < i * cfg.blockSize ==> out[p] == View(c, s, l, p)
      {
        NextBlock(i, cfg.blockSize);
        BlockStart(i + 1, full, cfg.blockSize);
        ReadBlock(l, s, i, cfg.blockSize, out, i * cfg.blockSize);
        ViewInBlock(c, s, l, i);
      }
      if remainder != 0 {
        RoomForRemainder(n, cfg.maxBlocks, cfg.blockSize);
        ReadBlock(l, s, full, remainder, out, full * cfg.blockSize);
        ViewInBlock(c, s, l, full);
      }
      rows := out[..];
    }

    method ReadKv(l: int, s: int, maxLen: Option<nat>) returns (rows: seq<KV>)
      requires Valid() && 0 <= l < cfg.layers && 0 <= s < cfg.maxSeqs
      requires ReadLength(state, s, maxLen) <= cfg.maxBlocks * cfg.blockSize
      modifies this`accessCounter, this`lastAccess, this`lruHeap, this`state
      ensures Valid() && state == Touch(old(state), s)
      ensures rows == CacheSpec.ReadKv(old(state), l, s, maxLen)
    {
      hide Inv, Core, View, Touch, Is;
      ghost var c := state;
      TouchStep(c, s);
      CfgIs();
      LengthIs(c, s);
      TouchState(s);
      CellsAre();
      InvCore(state);
      var n := seqLens[s];
      assert seqLens[..][s] == n;
      if maxLen.Some? && maxLen.value < n { n := maxLen.value; }
      rows := ReadRows(l, s, n, state);
      assert |CacheSpec.ReadKv(c, l, s, maxLen)| == n;
      assert forall p :: View(state, s, l, p) == View(c, s, l, p);
    }

    method TouchState(s: int)
      requires Is(state)
      modifies this`accessCounter, this`lastAccess, this`lruHeap, this`state
      ensures Is(state) && state == Touch(old(state), s)
    {
      ghost var c := state;
      hide Touch, Pools.BlockPool.Valid, RowsOf;
      TouchOnly(c, s);
      TouchSeq(s, c);
      state := Touch(c, s);
    }

    // ---- write_kv_batch ----

    method CountMissing(s: int, indices: seq<nat>) returns (n: nat)
      requires Is(state) && Core(state) && 0 <= s < cfg.maxSeqs
      requires forall k :: 0 <= k < |indices| ==> indices[k] < cfg.maxBlocks
      ensures n == Missing(state, s, indices)
    {
      hide Is, Core;
      n := 0;
      ghost var c := state;
      for k := 0 to |indices|
        invariant n + Missing(c, s, indices[k..]) == Missing(c, s, indices)
      {
        var physical := PhysicalAt(s, indices[k]);
        assert indices[k..][1..] == indices[k + 1..];
        if physical < 0 { n := n + 1; }
      }
    }

    method EntriesOf(s: int, indices: seq<nat>) returns (entries: seq<int>)
      requires Is(state) && Core(state) && 0 <= s < cfg.maxSeqs
      requires forall k :: 0 <= k < |indices| ==> indices[k] < cfg.maxBlocks
      ensures |entries| == |indices|
      ensures forall k :: 0 <= k < |indices| ==> entries[k] == TableEntry(state, s, indices[k])
    {
      hide Is, Core;
      entries := [];
      for k := 0 to |indices|
        invariant |entries| == k && forall j :: 0 <= j < k ==> entries[j] == TableEntry(state, s, indices[j])
      {
        var physical := PhysicalAt(s, indices[k]);
        entries := entries + [physical];
      }
    }

    // The table entries are read before the first copy; copying one block
    // leaves the entries of the others alone.
    method CowAll(s: int, indices: seq<nat>)
      requires Is(state) && Core(state) && 0 <= s < cfg.maxSeqs && Sorted(indices) && Listed(state, s, indices)
      modifies this, pool.repr, cells, blockTable
      ensures Is(state) && cpuCells == old(cpuCells)
      ensures state == CowEach(old(state), s, indices)
    {
      hide Is, Core, CacheSpec.CowIfShared;
      ghost var c := state;
      CfgIs();
      ListedFits(c, s, indices);
      var entries := EntriesOf(s, indices);
      for k := 0 to |indices|
        invariant Is(state) && Core(state) && cpuCells == old(cpuCells) && state.cfg == cfg
        invariant CowEach(state, s, indices[k..]) == CowEach(c, s, indices)
        invariant Listed(state, s, indices)
        invariant forall j :: k <= j < |indices| ==> entries[j] == TableEntry(state, s, indices[j])
      {
        assert indices[k..][0] == indices[k] && indices[k..][1..] == indices[k + 1..];
        CowEntry(state, s, indices, k);
        assert entries[k] == TableEntry(state, s, indices[k]);
        if entries[k] >= 0 {
          var target := CowIfShared(s, indices[k], entries[k]);
        }
      }
    }

    method UniqueIndices(positions: seq<nat>) returns (indices: seq<nat>)
      ensures indices == BlockIndices(positions, cfg.blockSize)
    {
      indices := [];
      for t := 0 to |positions|
        invariant indices == BlockIndices(positions[..t], cfg.blockSize)
      {
        assert positions[..t + 1][..t] == positions[..t];
        indices := InsertSorted(indices, Quot(positions[t], cfg.blockSize));
      }
      assert positions[..|positions|] == positions;
    }

    method MaxOf(positions: seq<nat>) returns (m: int)
      ensures m == MaxPosition(positions)
    {
      m := -1;
      for t := 0 to |positions|
        invariant m == MaxPosition(positions[..t])
      {
        assert positions[..t + 1][..t] == positions[..t];
        m := Max(m, positions[t]);
      }
      assert positions[..|positions|] == positions;
    }

    // Where each row of the batch goes.
    method TargetsOf(l: int, s: int, positions: seq<nat>, rows: seq<KV>) returns (b: Batch)
      requires Is(state) && Core(state) && 0 <= l < cfg.layers && 0 <= s < cfg.maxSeqs && |positions| == |rows|
      requires Listed(state, s, BlockIndices(positions, cfg.blockSize))
      ensures Routes(state, s, positions, rows, b) && b.l == l
      ensures Fits(b, cells[..], cfg) && |b.targets| == |positions|
      ensures forall t :: 0 <= t < |b.targets| ==> b.targets[t] >= 0
    {
      hide Is, Core;
      CfgIs();
      CellsAre();
      var indices := UniqueIndices(positions);
      BlockIndicesAre(positions, cfg.blockSize);
      ListedFits(state, s, indices);
      var entries := EntriesOf(s, indices);
      var targets, offsets := MapTargets(positions, indices, entries);
      b := Batch(l, targets, offsets, rows);
      Routed(state, s, positions, rows, b, indices, entries);
      RoutesFit(state, s, positions, rows, b);
    }

    // Looks every position up in the map from block index to block.
    method MapTargets(positions: seq<nat>, indices: seq<nat>, entries: seq<int>) returns (targets: seq<int>,
                      offsets: seq<nat>)
      requires Sorted(indices) && |entries| == |indices|
      requires forall t :: 0 <= t < |positions| ==> Quot(positions[t], cfg.blockSize) in indices
      ensures |targets| == |offsets| == |positions|
      ensures forall t, k ::
        0 <= t < |positions| && 0 <= k < |indices| && indices[k] == Quot(positions[t], cfg.blockSize) ==>
        targets[t] == entries[k]
      ensures forall t :: 0 <= t < |positions| ==> offsets[t] == Rem(positions[t], cfg.blockSize)
    {
      var blockMap: map<nat, int> := map[];
      for k := 0 to |indices|
        invariant blockMap.Keys == Elements(indices[..k])
        invariant forall j :: 0 <= j < k ==> indices[j] in blockMap && blockMap[indices[j]] == entries[j]
      {
        assert indices[..k + 1] == indices[..k] + [indices[k]];
        blockMap := blockMap[indices[k] := entries[k]];
      }
      assert indices[..|indices|] == indices;
      targets, offsets := [], [];
      for t := 0 to |positions|
        invariant |targets| == |offsets| == t
        invariant forall j :: 0 <= j < t ==> Quot(positions[j], cfg.blockSize) in blockMap
        invariant forall j :: 0 <= j < t ==> targets[j] == blockMap[Quot(positions[j], cfg.blockSize)]
        invariant forall j :: 0 <= j < t ==> offsets[j] == Rem(positions[j], cfg.blockSize)
      {
        targets := targets + [blockMap[Quot(positions[t], cfg.blockSize)]];
        offsets := offsets + [Rem(positions[t], cfg.blockSize)];
      }
    }

    static lemma Routed(c: Cache, s: int, positions: seq<nat>, rows: seq<KV>, b: Batch, indices: seq<nat>,
                        entries: seq<int>)
      requires |positions| == |rows| == |b.targets| == |b.offsets| && b.rows == rows && |entries| == |indices|
      requires indices == BlockIndices(positions, c.cfg.blockSize)
      requires forall k :: 0 <= k < |indices| ==> entries[k] == TableEntry(c, s, indices[k])
      requires forall t, k ::
        0 <= t < |positions| && 0 <= k < |indices| && indices[k] == Quot(positions[t], c.cfg.blockSize) ==>
        b.targets[t] == entries[k]
      requires forall t :: 0 <= t < |positions| ==> b.offsets[t] == Rem(positions[t], c.cfg.blockSize)
      ensures Routes(c, s, positions, rows, b)
    {
      BlockIndicesAre(positions, c.cfg.blockSize);
      hide BlockIndices, TableEntry;
      forall t | 0 <= t < |positions| ensures b.targets[t] == TableEntry(c, s, Quot(positions[t], c.cfg.blockSize)) {
        var i := Quot(positions[t], c.cfg.blockSize);
        assert i in indices;
        var k :| 0 <= k < |indices| && indices[k] == i;
      }
    }

    method StoreRows(b: Batch)
      requires Fits(b, cells[..], cfg)
      modifies cells
      ensures cells[..] == InOrder(old(cells[..]), b, |b.rows|)
    {
      if |b.rows| <= 4 {
        StoreInOrder(cells, b, cfg);
      } else {
        StoreGrouped(cells, b, cfg);
      }
    }

    method StoreBatchRows(l: int, s: int, positions: seq<nat>, rows: seq<KV>)
      requires Is(state) && Core(state) && 0 <= l < cfg.layers && 0 <= s < cfg.maxSeqs && |positions| == |rows|
      requires Listed(state, s, BlockIndices(positions, cfg.blockSize))
      modifies this`state, cells, seqLens
      ensures Is(state) && state == StoreBatch(old(state), l, s, positions, rows)
    {
      hide Core, Pools.BlockPool.Valid, RowsOf, Fits, StoreBatch, Routes, Listed, Touch, InOrder;
      ghost var c := state;
      var b := TargetsOf(l, s, positions, rows);
      BatchFields(c, l, s, positions, rows, b);
      StoreRows(b);
      var last := MaxOf(positions);
      seqLens[s] := Max(seqLens[s], last + 1);
      state := StoreBatch(c, l, s, positions, rows);
    }

    method FinishBatch(l: int, s: int, positions: seq<nat>, rows: seq<KV>)
      requires Is(state) && Core(state) && 0 <= l < cfg.layers && 0 <= s < cfg.maxSeqs && |positions| == |rows|
      requires Listed(state, s, BlockIndices(positions, cfg.blockSize))
      modifies this, cells, seqLens
      ensures Is(state) && cpuCells == old(cpuCells)
      ensures state == Touch(StoreBatch(old(state), l, s, positions, rows), s)
    {
      hide Core, Pools.BlockPool.Valid, RowsOf, Touch, StoreBatch, Listed;
      StoreBatchRows(l, s, positions, rows);
      ghost var d := state;
      TouchOnly(d, s);
      TouchSeq(s, d);
      state := Touch(d, s);
    }

    method WriteBatchBlocks(l: int, s: int, positions: seq<nat>, rows: seq<KV>)
      requires Valid() && 0 <= l < cfg.layers && 0 <= s < cfg.maxSeqs && |positions| == |rows| && s in state.owned
      requires Listed(state, s, BlockIndices(positions, cfg.blockSize))
      modifies this, pool.repr, cells, blockTable, seqLens
      ensures Valid() && cpuCells == old(cpuCells)
      ensures state == CacheSpec.WriteBatchBlocks(old(state), l, s, positions, rows)
    {
      hide Inv, Core, Is, Touch, CowEach, StoreBatch, Listed;
      ghost var c := state;
      CfgIs();
      BatchKeeps(c, l, s, positions, rows);
      var indices := UniqueIndices(positions);
      BlockIndicesAre(positions, cfg.blockSize);
      CowAll(s, indices);
      CfgIs();
      FinishBatch(l, s, positions, rows);
    }

    // Rows beyond the next free block are the callers' mistake: their table
    // entries would stay empty.
    method WriteKvBatch(l: int, s: int, positions: seq<nat>, rows: seq<KV>) returns (ok: bool)
      requires Valid() && 0 <= l < cfg.layers && 0 <= s < cfg.maxSeqs && |positions| == |rows|
      requires Continues(state, s, positions)
      modifies this, pool.repr, cells, blockTable, seqLens
      ensures Valid() && cpuCells == old(cpuCells)
      ensures Writes(CacheSpec.WriteKvBatch(old(state), l, s, positions, rows), ok, state)
    {
      hide Inv, Core, Is, CacheSpec.WriteBatchBlocks, Allocate;
      hide Stuck, MayGrow, Listed, Missing, Continues, BlockIndices;
      if positions == [] { return true; }
      ghost var c := state;
      CfgIs();
      InvCore(c);
      var indices := UniqueIndices(positions);
      BatchStart(c, s, positions);
      var missing := CountMissing(s, indices);
      if missing != 0 {
        BatchGrows(c, s, positions);
        var got := AllocateBlocks(s, missing);
        if got.None? { return false; }
        CfgIs();
      }
      WriteBatchBlocks(l, s, positions, rows);
      ok := true;
    }

    // ---- Prefix cache ----

    method AdoptBlock(s: int, i: nat, b: int)
      requires Is(state) && Core(state) && 0 <= s < cfg.maxSeqs && i < cfg.maxBlocks && 0 < b < |state.pool.refs|
      modifies this, pool.repr, blockTable
      ensures Is(state) && cpuCells == old(cpuCells)
      ensures state == Adopt(old(state), s, i, b)
    {
      hide Core, Pools.BlockPool.Valid, RowsOf, Share;
      ghost var c := state;
      TableSize(c);
      pool.TouchId(b);
      SetEntry(blockTable, s, i, b);
      var existing := if s in seqBlocks then seqBlocks[s] else [];
      seqBlocks := seqBlocks[s := existing + [b]];
      state := Adopt(c, s, i, b);
    }

    method CachedBlock(h: Hash) returns (r: Option<int>)
      requires Is(state)
      ensures r == Lookup(state.pool, h)
    {
      hide Pools.BlockPool.Valid, RowsOf;
      r := pool.GetCachedId(h);
    }

    method CachingOn() returns (r: bool)
      requires Is(state)
      ensures r == state.pool.caching
    {
      hide Pools.BlockPool.Valid, RowsOf;
      r := pool.CachingEnabled();
    }

    method AdoptAll(s: int, ns: Namespace, tokens: seq<int>) returns (n: nat)
      requires Is(state) && Core(state) && 0 <= s < cfg.maxSeqs && state.pool.caching
      requires Quot(|tokens|, cfg.blockSize) <= cfg.maxBlocks && Blocks(state, s) == []
      modifies this, pool.repr, blockTable
      ensures Is(state) && Core(state) && cpuCells == old(cpuCells)
      ensures (state, n) == ReuseFrom(old(state), s, ns, tokens, 0)
    {
      hide Is, Core, Adopt, Follows, Lookup;
      ghost var c := state;
      CfgIs();
      var full := Quot(|tokens|, cfg.blockSize);
      var prev: Option<Hash> := None;
      n := 0;
      FollowsNothing(c, s, ns, tokens);
      FullFits(tokens, 0, cfg.blockSize);
      while n < full
        invariant Is(state) && Core(state) && cpuCells == old(cpuCells) && state.cfg == cfg && state.pool.caching
        invariant n <= full && n * cfg.blockSize <= |tokens|
        invariant prev == Chain(ns, tokens, cfg.blockSize, n)
        invariant Follows(state, s, ns, tokens, n)
        invariant ReuseFrom(state, s, ns, tokens, n) == ReuseFrom(c, s, ns, tokens, 0)
      {
        FullFits(tokens, n + 1, cfg.blockSize);
        NextBlock(n, cfg.blockSize);
        var h := Hash(ns, prev, tokens[n * cfg.blockSize..(n + 1) * cfg.blockSize]);
        assert Chain(ns, tokens, cfg.blockSize, n + 1) == Some(h);
        var cached := CachedBlock(h);
        if cached.None? { break; }
        ReuseTurn(state, s, ns, tokens, n, cached.value);
        AdoptBlock(s, n, cached.value);
        n, prev := n + 1, Some(h);
      }
      if n == full { FullFits(tokens, n + 1, cfg.blockSize); }
      ReuseStops(state, s, ns, tokens, n);
    }

    method TryReusePrefix(s: int, ns: Namespace, tokens: seq<int>) returns (reused: nat)
      requires Valid() && 0 <= s < cfg.maxSeqs && s !in state.swap.out && Blocks(state, s) == []
      requires Quot(|tokens|, cfg.blockSize) <= cfg.maxBlocks
      modifies this, pool.repr, blockTable, seqLens
      ensures Valid() && cpuCells == old(cpuCells)
      ensures (state, reused) == CacheSpec.TryReusePrefix(old(state), s, ns, tokens)
    {
      hide Is, Core, Inv, ReuseFrom, Touch;
      ghost var c := state;
      CfgIs();
      ReuseKeeps(c, s, ns, tokens);
      var caching := CachingOn();
      if !caching { return 0; }
      var n := AdoptAll(s, ns, tokens);
      CfgIs();
      if n == 0 { return 0; }
      reused := n * cfg.blockSize;
      SetLength(s, reused);
    }

    // Sets a sequence's length and marks it as used.
    method SetLength(s: int, len: int)
      requires Is(state) && 0 <= s < cfg.maxSeqs && Core(state)
      modifies this, seqLens
      ensures Is(state) && cpuCells == old(cpuCells)
      ensures state == Touch(old(state).(lens := Upd(old(state).lens, s, len)), s)
    {
      hide Core, Pools.BlockPool.Valid, RowsOf, Touch;
      TableSize(state);
      ghost var d := state.(lens := Upd(state.lens, s, len));
      TouchOnly(d, s);
      seqLens[s] := len;
      TouchSeq(s, d);
      state := Touch(d, s);
    }

    // Registers the full blocks of a prompt under their chained hashes.
    method RegisterPrefixBlocks(s: int, ns: Namespace, tokens: seq<int>)
      requires Valid()
      modifies this`state, pool.repr
      ensures Valid() && state == CacheSpec.RegisterPrefixBlocks(old(state), s, ns, tokens)
    {
      hide Is, Core, Inv, RegisterUpTo;
      ghost var c := state;
      CfgIs();
      RegisterKeeps(c, s, ns, tokens);
      var caching := CachingOn();
      if !caching { return; }
      var blocks := ListOf(s);
      var full := Quot(|tokens|, cfg.blockSize);
      var n := if full < |blocks| then full else |blocks|;
      ghost var all := FullBlocks(c, s, tokens);
      assert n == all;
      var prev: Option<Hash> := None;
      RegisterNone(c, s, ns, tokens);
      for i := 0 to n
        invariant i * cfg.blockSize <= |tokens| && prev == Chain(ns, tokens, cfg.blockSize, i)
        invariant Is(state) && state == RegisterUpTo(c, s, ns, tokens, i)
      {
        BlockStart(i + 1, n, cfg.blockSize);
        NextBlock(i, cfg.blockSize);
        var h := Hash(ns, prev, tokens[i * cfg.blockSize..(i + 1) * cfg.blockSize]);
        assert Chain(ns, tokens, cfg.blockSize, i + 1) == Some(h);
        RegisterTurn(c, s, ns, tokens, i);
        RegisterBlock(blocks[i], h);
        prev := Some(h);
      }
    }

    method ListOf(s: int) returns (blocks: seq<int>)
      requires Is(state)
      ensures blocks == Blocks(state, s)
    {
      hide Pools.BlockPool.Valid, RowsOf;
      blocks := if s in seqBlocks then seqBlocks[s] else [];
    }

    method RegisterBlock(b: int, h: Hash)
      requires Is(state) && 0 <= b < |state.pool.refs| == |state.pool.tags|
      modifies this`state, pool.repr
      ensures Is(state) && state == old(state).(pool := Register(old(state).pool, b, h))
    {
      hide Pools.BlockPool.Valid, RowsOf, Register;
      pool.CacheId(b, h);
      state := state.(pool := Register(state.pool, b, h));
    }

    // ---- Swapping ----

    // Copies a list of blocks to CPU blocks popped off the free stack, marks
    // them dirty and clears their table entries.
    method CopyOut(s: int, blocks: seq<int>, ghost c: Cache) returns (cpu: seq<int>)
      requires SwapIs(c) && cells[..] == c.cells && c.cfg == cfg && RowsOf(blockTable) == c.table
      requires dirtyBlocks == c.dirty
      requires Shaped(c.cells, cfg) && Shaped(c.swap.cells, cfg)
      requires Swapping.Within(blocks, |c.cells|) && Swapping.Within(c.swap.free, |c.swap.cells|)
      requires |blocks| <= |c.swap.free| && 0 <= s < |c.table| && |blocks| <= |c.table[s]|
      modifies cpuCells, this`cpuFreeBlocks, this`dirtyBlocks, blockTable
      ensures |cpu| == |blocks| && forall j :: 0 <= j < |cpu| ==> cpu[j] == c.swap.free[|c.swap.free| - 1 - j]
      ensures cpuFreeBlocks == c.swap.free[..|c.swap.free| - |blocks|]
      ensures cpuCells[..] == CopyBlocks(c.swap.cells, cpu, c.cells, blocks)
      ensures dirtyBlocks == c.dirty + Elements(blocks)
      ensures RowsOf(blockTable) == Upd(c.table, s, ClearRow(c.table[s], |blocks|))
    {
      hide RowsOf, CopyBlocks, ClearRow, HasShape, Elements;
      cpu := [];
      NoElements();
      ghost var n := |c.swap.free|;
      CopyNothing(c.swap.cells, c.cells);
      ClearNothing(c.table, s);
      for i := 0 to |blocks|
        invariant |cpu| == i && forall j :: 0 <= j < i ==> cpu[j] == c.swap.free[n - 1 - j]
        invariant cpuFreeBlocks == c.swap.free[..n - i]
        invariant cpuCells[..] == CopyBlocks(c.swap.cells, cpu, c.cells, blocks[..i])
        invariant dirtyBlocks == c.dirty + Elements(blocks[..i])
        invariant RowsOf(blockTable) == Upd(c.table, s, ClearRow(c.table[s], i))
      {
        var top := cpuFreeBlocks[|cpuFreeBlocks| - 1];
        assert top == c.swap.free[n - 1 - i];
        cpuFreeBlocks := cpuFreeBlocks[..|cpuFreeBlocks| - 1];
        assert blocks[..i + 1] == blocks[..i] + [blocks[i]];
        ElementsMore(blocks[..i], blocks[i]);
        CopyMore(c.swap.cells, cpu, c.cells, blocks[..i], top, blocks[i]);
        CopiedShape(cfg, c.swap.cells, cpu, c.cells, blocks[..i]);
        assert cpuCells[..][top] == cpuCells[top] && cells[..][blocks[i]] == cells[blocks[i]];
        CopyBlock(cpuCells, top, cells, blocks[i], cfg);
        cpu := cpu + [top];
        dirtyBlocks := dirtyBlocks + {blocks[i]};
        ClearMore(c.table[s], i);
        SetEntry(blockTable, s, i, -1);
      }
      assert blocks[..|blocks|] == blocks;
    }

    static lemma NoElements()
      ensures Elements<int>([]) == {}
    {
    }

    static lemma ElementsMore(s: seq<int>, x: int)
      ensures Elements(s + [x]) == Elements(s) + {x}
    {
    }

    static lemma CopyNothing(dst: seq<Content>, src: seq<Content>)
      ensures CopyBlocks(dst, [], src, []) == dst
    {
    }

    static lemma ClearNothing(table: seq<seq<int>>, s: int)
      requires 0 <= s < |table|
      ensures Upd(table, s, ClearRow(table[s], 0)) == table
    {
      assert ClearRow(table[s], 0) == table[s];
    }

    // The bookkeeping of swapping out, once the contents are copied.
    method DropList(s: int, cpu: seq<int>, ghost c: Cache)
      requires Separate() && PoolIs(c) && Core(c) && s in c.owned && s in seqBlocks && seqBlocks == c.owned
      requires 0 <= s < seqLens.Length && seqLens[..] == c.lens
      modifies pool.repr, this`seqBlocks, this`swappedSeqs, seqLens
      ensures PoolIs(c.(pool := Release(c.pool, CacheSpec.Reverse(c.owned[s]))))
      ensures seqBlocks == c.owned - {s} && seqLens[..] == c.lens[s := 0]
      ensures swappedSeqs == old(swappedSeqs)[s := Stashed(cpu, c.lens[s])]
    {
      var blocks := seqBlocks[s];
      ReverseElements(blocks);
      forall b | b in CacheSpec.Reverse(blocks) ensures 0 < b < |c.pool.refs| && c.pool.refs[b] > 0 {
        OwnedIsReferenced(c, s, b);
      }
      hide Core, PoolOk, Pools.BlockPool.Valid;
      pool.FreeIds(CacheSpec.Reverse(blocks));
      assert seqLens[..][s] == seqLens[s];
      swappedSeqs := swappedSeqs[s := Stashed(cpu, seqLens[s])];
      seqBlocks := seqBlocks - {s};
      seqLens[s] := 0;
    }

    method SwapOut(s: int) returns (ok: bool)
      requires Valid() && s !in state.swap.out
      modifies this, pool.repr, blockTable, seqLens, cpuCells
      ensures Valid() && cpuCells == old(cpuCells)
      ensures ok == CanSwapOut(old(state), s) && state == CacheSpec.SwapOut(old(state), s)
    {
      hide Core, Inv, Pools.BlockPool.Valid, RowsOf, Release;
      hide CacheSpec.SwapOut, CopyBlocks, ClearRow, Shaped, Swapping.Within;
      ghost var c := state;
      OutNothing(c, s);
      if !swapEnabled { return false; }
      var blocks := if s in seqBlocks then seqBlocks[s] else [];
      if blocks == [] || |cpuFreeBlocks| < |blocks| { return false; }
      SwapOutReady(c, s);
      MoveOut(s, blocks, c);
      ok := true;
    }

    method MoveOut(s: int, blocks: seq<int>, ghost c: Cache)
      requires Is(c) && c == state && Core(c) && CanSwapOut(c, s) && s in c.owned && blocks == c.owned[s]
      requires Shaped(c.cells, cfg) && Shaped(c.swap.cells, cfg)
      requires Swapping.Within(blocks, |c.cells|) && Swapping.Within(c.swap.free, |c.swap.cells|)
      requires 0 <= s < |c.table| == |c.lens| && |blocks| <= |c.table[s]|
      modifies this, pool.repr, blockTable, seqLens, cpuCells
      ensures Is(state) && state == CacheSpec.SwapOut(c, s) && cpuCells == old(cpuCells)
    {
      hide Core, Pools.BlockPool.Valid, RowsOf, Release;
      hide CacheSpec.SwapOut, CopyBlocks, ClearRow, Shaped, Swapping.Within;
      var cpu := CopyOut(s, blocks, c);
      SwapOutFields(c, s, cpu);
      DropList(s, cpu, c);
      state := CacheSpec.SwapOut(c, s);
    }

    static lemma OutNothing(c: Cache, s: int)
      ensures !CanSwapOut(c, s) ==> CacheSpec.SwapOut(c, s) == c
    {
    }

    // Copies CPU blocks into freshly taken blocks and frees the CPU blocks.
    method CopyIn(s: int, cpu: seq<int>, taken: seq<int>, ghost c: Cache)
      requires SwapIs(c) && cells[..] == c.cells && c.cfg == cfg && RowsOf(blockTable) == c.table
      requires Shaped(c.cells, cfg) && Shaped(c.swap.cells, cfg)
      requires |cpu| == |taken| && Swapping.Within(cpu, |c.swap.cells|) && Swapping.Within(taken, |c.cells|)
      requires 0 <= s < |c.table| && |taken| <= |c.table[s]|
      modifies cells, this`cpuFreeBlocks, blockTable
      ensures cpuFreeBlocks == c.swap.free + cpu
      ensures cells[..] == CopyBlocks(c.cells, taken, c.swap.cells, cpu)
      ensures RowsOf(blockTable) == Upd(c.table, s, SetRow(c.table[s], 0, taken))
    {
      hide RowsOf, CopyBlocks, SetRow;
      CopyNothing(c.cells, c.swap.cells);
      SetNothing(c.table, s);
      for i := 0 to |cpu|
        invariant cpuFreeBlocks == c.swap.free + cpu[..i]
        invariant cells[..] == CopyBlocks(c.cells, taken[..i], c.swap.cells, cpu[..i])
        invariant RowsOf(blockTable) == Upd(c.table, s, SetRow(c.table[s], 0, taken[..i]))
      {
        assert cpu[..i + 1] == cpu[..i] + [cpu[i]] && taken[..i + 1] == taken[..i] + [taken[i]];
        CopyMore(c.cells, taken[..i], c.swap.cells, cpu[..i], taken[i], cpu[i]);
        CopiedShape(cfg, c.cells, taken[..i], c.swap.cells, cpu[..i]);
        assert cells[..][taken[i]] == cells[taken[i]] && cpuCells[..][cpu[i]] == cpuCells[cpu[i]];
        CopyBlock(cells, taken[i], cpuCells, cpu[i], cfg);
        SetMore(c.table[s], i, taken);
        SetEntry(blockTable, s, i, taken[i]);
        cpuFreeBlocks := cpuFreeBlocks + [cpu[i]];
      }
      assert cpu[..|cpu|] == cpu && taken[..|cpu|] == taken;
    }

    static lemma SetNothing(table: seq<seq<int>>, s: int)
      requires 0 <= s < |table|
      ensures Upd(table, s, SetRow(table[s], 0, [])) == table
    {
      assert SetRow(table[s], 0, []) == table[s];
    }

    // The bookkeeping of swapping in, once the contents are back.
    method Relist(s: int, taken: seq<int>, ghost c: Cache, ghost d: Cache)
      requires s in swappedSeqs && swappedSeqs == c.swap.out && seqBlocks == c.owned && LruIs(c)
      requires d.owned == c.owned[s := taken] && d.lru == c.lru && 0 <= s < seqLens.Length && seqLens[..] == c.lens
      modifies this`seqBlocks, this`swappedSeqs, seqLens, this`accessCounter, this`lastAccess, this`lruHeap
      ensures seqBlocks == d.owned && seqLens[..] == c.lens[s := c.swap.out[s].len]
      ensures swappedSeqs == c.swap.out - {s} && LruIs(Touch(d, s))
    {
      hide Touch;
      seqBlocks := seqBlocks[s := taken];
      seqLens[s] := swappedSeqs[s].len;
      swappedSeqs := swappedSeqs - {s};
      TouchSeq(s, d);
    }

    method TakeIds(n: nat, ghost c: Cache) returns (taken: seq<int>)
      requires Separate() && PoolIs(c) && n <= |c.pool.free|
      modifies pool.repr
      ensures taken == c.pool.free[..n] && PoolIs(c.(pool := Take(c.pool, n)))
    {
      hide Pools.BlockPool.Valid, Take;
      var got := pool.GetNewIds(n);
      taken := got.value;
    }

    // Takes blocks for a swapped sequence and brings its contents back.
    method Fetch(s: int, ghost c: Cache) returns (taken: seq<int>)
      requires Is(c) && CanSwapIn(c, s)
      requires Shaped(c.cells, cfg) && Shaped(c.swap.cells, cfg)
      requires Swapping.Within(c.swap.out[s].blocks, |c.swap.cells|) && Swapping.Within(c.pool.free, |c.cells|)
      requires 0 <= s < |c.table| && |c.swap.out[s].blocks| <= |c.table[s]|
      modifies pool.repr, cells, this`cpuFreeBlocks, blockTable
      ensures taken == c.pool.free[..|c.swap.out[s].blocks|]
      ensures PoolIs(c.(pool := Take(c.pool, |c.swap.out[s].blocks|)))
      ensures cpuFreeBlocks == c.swap.free + c.swap.out[s].blocks
      ensures cells[..] == CopyBlocks(c.cells, taken, c.swap.cells, c.swap.out[s].blocks)
      ensures RowsOf(blockTable) == Upd(c.table, s, SetRow(c.table[s], 0, taken))
    {
      hide Pools.BlockPool.Valid, RowsOf, Take, CopyBlocks, SetRow, Shaped;
      taken := TakeIds(|swappedSeqs[s].blocks|, c);
      CopyIn(s, swappedSeqs[s].blocks, taken, c);
    }

    method MoveIn(s: int, ghost c: Cache)
      requires Is(c) && c == state && Core(c) && CanSwapIn(c, s)
      requires Shaped(c.cells, cfg) && Shaped(c.swap.cells, cfg)
      requires Swapping.Within(c.swap.out[s].blocks, |c.swap.cells|) && Swapping.Within(c.pool.free, |c.cells|)
      requires 0 <= s < |c.table| == |c.lens| && |c.swap.out[s].blocks| <= |c.table[s]|
      modifies this, pool.repr, blockTable, seqLens, cells
      ensures Is(state) && state == CacheSpec.SwapIn(c, s) && cpuCells == old(cpuCells)
    {
      hide Core, Pools.BlockPool.Valid, RowsOf, Take, CacheSpec.SwapIn, CopyBlocks, SetRow, Shaped, Touch;
      hide Swapping.Within;
      SwapInFields(c, s);
      var taken := Fetch(s, c);
      Relist(s, taken, c, Swapping.Restored(c, s));
      state := CacheSpec.SwapIn(c, s);
    }

    method SwapIn(s: int) returns (ok: bool)
      requires Valid()
      modifies this, pool.repr, blockTable, seqLens, cells
      ensures Valid() && cpuCells == old(cpuCells)
      ensures ok == CanSwapIn(old(state), s) && state == CacheSpec.SwapIn(old(state), s)
    {
      hide Core, Inv, Pools.BlockPool.Valid, RowsOf, CacheSpec.SwapIn, Shaped, Swapping.Within;
      ghost var c := state;
      InNothing(c, s);
      if s !in swappedSeqs { return false; }
      var free := FreeCount();
      if free < |swappedSeqs[s].blocks| { return false; }
      SwapInReady(c, s);
      MoveIn(s, c);
      ok := true;
    }

    static lemma InNothing(c: Cache, s: int)
      ensures !CanSwapIn(c, s) ==> CacheSpec.SwapIn(c, s) == c
    {
    }

    // ---- Modes ----

    method EnablePrefixCaching()
      requires Valid()
      modifies this`state, pool.repr
      ensures Valid() && state == CacheSpec.EnablePrefixCaching(old(state))
    {
      hide Inv, Pools.BlockPool.Valid, RowsOf;
      CacheRun.CachingStep(state);
      pool.EnableCaching();
      state := CacheSpec.EnablePrefixCaching(state);
    }

    method EnableSwap(onCpu: bool)
      requires Valid() && !state.swap.enabled
      modifies this
      ensures Valid() && state == CacheSpec.EnableSwap(old(state), onCpu)
      ensures cpuCells == old(cpuCells) || fresh(cpuCells)
    {
      hide Inv, Pools.BlockPool.Valid, RowsOf;
      CacheRun.SwapOnInv(state, onCpu);
      if onCpu { return; }
      ghost var c := state;
      SwapWasOff(c);
      var cpu := new Content[cfg.numBlocks](b => ZeroContent(cfg));
      swapEnabled, cpuCells, cpuFreeBlocks := true, cpu, seq(cfg.numBlocks, b => b);
      assert cpu[..] == seq(cfg.numBlocks, b => ZeroContent(cfg));
      state := CacheSpec.EnableSwap(c, onCpu);
    }

    static lemma SwapWasOff(c: Cache)
      requires Inv(c) && !c.swap.enabled
      ensures c.swap.out == map[]
    {
    }

    // Pinned sequences are not evicted.
    method Pin(ids: set<int>)
      requires Valid()
      modifies this`pinnedSeqIds, this`state
      ensures Valid() && state == old(state).(pinned := ids)
    {
      hide Inv, Pools.BlockPool.Valid, RowsOf;
      CacheRun.PinStep(state, ids);
      pinnedSeqIds := ids;
      state := state.(pinned := ids);
    }

    // ---- Decoding ----

    // Every row of the batch goes to a block somebody holds.
    ghost predicate RowsHeld(b: Batch)
      reads this`state
    {
      && 0 <= b.l < cfg.layers && |b.targets| == |b.offsets| == |b.rows|
      && forall t :: 0 <= t < |b.targets| ==>
           && 0 < b.targets[t] < cfg.numBlocks && b.targets[t] < |state.pool.refs| && state.pool.refs[b.targets[t]] > 0
           && b.offsets[t] < cfg.blockSize
    }

    method StoreDecode(b: Batch)
      requires Valid() && RowsHeld(b)
      modifies this`state, cells
      ensures Valid()
      ensures state == old(state).(cells := InOrder(old(state).cells, b, |b.rows|))
    {
      hide Inv, Pools.BlockPool.Valid, RowsOf;
      ghost var c := state;
      HeldKeeps(c, b);
      StoreInOrder(cells, b, cfg);
      state := c.(cells := InOrder(c.cells, b, |b.rows|));
    }

    method GatherLens(ids: seq<int>) returns (lens: seq<int>)
      requires Is(state) && Batched(state, ids)
      ensures lens == Lengths(state, ids)
    {
      CellsAre();
      hide Is;
      lens := [];
      for i := 0 to |ids|
        invariant |lens| == i && forall j :: 0 <= j < i ==> lens[j] == Length(state, ids[j])
      {
        assert seqLens[..][ids[i]] == seqLens[ids[i]];
        lens := lens + [seqLens[ids[i]]];
      }
    }

    method ScatterLens(ids: seq<int>, values: seq<int>)
      requires Valid() && Batched(state, ids) && |ids| <= |values|
      requires forall i :: 0 <= i < |ids| ==> values[i] >= 0
      modifies this`state, seqLens
      ensures Valid()
      ensures state == old(state).(lens := Scatter(old(state).lens, ids, values))
    {
      hide Inv, Pools.BlockPool.Valid, RowsOf;
      ghost var c := state;
      ScatterKeeps(c, ids, values);
      ghost var was := seqLens[..];
      for i := 0 to |ids|
        invariant seqLens[..] == Scatter(was, ids[..i], values)
      {
        assert ids[..i + 1][..i] == ids[..i];
        seqLens[ids[i]] := values[i];
      }
      assert ids[..|ids|] == ids;
      state := c.(lens := Scatter(c.lens, ids, values));
    }

    method GatherTargets(ids: seq<int>, positions: seq<nat>) returns (targets: seq<int>)
      requires Is(state) && Core(state) && Batched(state, ids) && |ids| == |positions|
      requires forall t :: 0 <= t < |ids| ==> Quot(positions[t], cfg.blockSize) < |Blocks(state, ids[t])|
      ensures |targets| == |ids|
      ensures forall t :: 0 <= t < |ids| ==>
        && targets[t] == Target(Rows(state, ids)[t], positions[t], cfg.blockSize)
        && 0 < targets[t] < cfg.numBlocks && targets[t] < |state.pool.refs| && state.pool.refs[targets[t]] > 0
    {
      hide Is, Core;
      ghost var c := state;
      CfgIs();
      targets := [];
      for t := 0 to |ids|
        invariant |targets| == t
        invariant forall j :: 0 <= j < t ==>
          && targets[j] == Target(Rows(c, ids)[j], positions[j], cfg.blockSize)
          && 0 < targets[j] < cfg.numBlocks && targets[j] < |c.pool.refs| && c.pool.refs[targets[j]] > 0
      {
        ListedTarget(c, ids[t], positions[t]);
        var physical := PhysicalAt(ids[t], Quot(positions[t], cfg.blockSize));
        targets := targets + [Max(physical, 0)];
      }
    }

    // write_kv_decode outside graph mode; blocks must be allocated already.
    method WriteKvDecode(l: int, ids: seq<int>, positions: seq<nat>, rows: seq<KV>)
      requires Valid() && 0 <= l < cfg.layers && Batched(state, ids) && |ids| == |positions| == |rows|
      requires forall t :: 0 <= t < |ids| ==> Quot(positions[t], cfg.blockSize) < |Blocks(state, ids[t])|
      modifies this`state, cells, seqLens
      ensures Valid() && state == EagerDecode(old(state), l, ids, positions, rows)
    {
      hide Inv, Core, Is, Target, DecodeCells, Scatter;
      ghost var c := state;
      CfgIs();
      DecodeRows(l, ids, positions, rows);
      assert Lengths(state, ids) == Lengths(c, ids);
      GrowLens(ids, positions);
    }

    method DecodeRows(l: int, ids: seq<int>, positions: seq<nat>, rows: seq<KV>)
      requires Valid() && 0 <= l < cfg.layers && Batched(state, ids) && |ids| == |positions| == |rows|
      requires forall t :: 0 <= t < |ids| ==> Quot(positions[t], cfg.blockSize) < |Blocks(state, ids[t])|
      modifies this`state, cells
      ensures Valid()
      ensures var c := old(state);
        state == c.(cells := DecodeCells(c.cells, c.cfg.blockSize, l, Rows(c, ids), positions, rows, |ids|))
    {
      hide Inv, Core, Is, Target;
      ghost var c := state;
      CfgIs();
      InvCore(c);
      var targets := GatherTargets(ids, positions);
      var b := Batch(l, targets, seq(|ids|, t requires 0 <= t < |ids| => Rem(positions[t], cfg.blockSize)), rows);
      DecodeInOrder(c.cells, c.cfg.blockSize, l, Rows(c, ids), positions, rows, b, |ids|);
      StoreDecode(b);
    }

    method GrowLens(ids: seq<int>, positions: seq<nat>)
      requires Valid() && Batched(state, ids) && |ids| == |positions|
      modifies this`state, seqLens
      ensures Valid()
      ensures state == old(state).(lens := Scatter(old(state).lens, ids, Grown(Lengths(old(state), ids), positions)))
    {
      hide Inv, Core, Is, Scatter;
      var lens := GatherLens(ids);
      ScatterLens(ids, Grown(lens, positions));
    }

    // Sets the dummy block aside the first time; None stands for the
    // out-of-memory error.
    method TakeDummy() returns (ok: bool)
      requires Valid()
      modifies this, pool.repr, cells
      ensures Valid() && cpuCells == old(cpuCells)
      ensures ok == InitGraphBuffers(old(state)).Some?
      ensures state == if ok then InitGraphBuffers(old(state)).value else old(state)
    {
      hide Inv, Core, Pools.BlockPool.Valid, RowsOf, Take, ZeroContent, HasShape;
      ghost var c := state;
      if graphDummyBlockId.Some? { return true; }
      var free := FreeCount();
      if free == 0 { return false; }
      DummyKeeps(c);
      var b := TakeZeroedOne(c);
      graphDummyBlockId, dirtyBlocks := Some(b), dirtyBlocks - {b};
      state := InitGraphBuffers(c).value;
      ok := true;
    }

    method TakeZeroedOne(ghost c: Cache) returns (b: int)
      requires Separate() && PoolIs(c) && cells[..] == c.cells && c.cfg == cfg && |c.pool.free| > 0
      requires 0 <= c.pool.free[0] < |c.cells| && HasShape(c.cells[c.pool.free[0]], c.cfg)
      modifies pool.repr, cells
      ensures b == c.pool.free[0] && PoolIs(c.(pool := Take(c.pool, 1)))
      ensures cells[..] == Upd(c.cells, b, ZeroContent(c.cfg))
    {
      hide Pools.BlockPool.Valid, Take, ZeroContent;
      var taken := TakeIds(1, c);
      b := taken[0];
      assert cells[..][b] == cells[b];
      ZeroBlock(cells, b, cfg);
    }

    method DummyBlock() returns (b: int)
      requires Is(state) && state.dummy.Some?
      ensures b == state.dummy.value
    {
      b := graphDummyBlockId.value;
    }

    lemma TableAre()
      requires Is(state)
      ensures RowsOf(blockTable) == state.table && blockTable.Length1 == cfg.maxBlocks
    {
    }
  }
}
