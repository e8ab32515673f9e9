// Small runs from the empty cache that end where a promise ends: the hang of
// the eviction loop, the write that lands elsewhere, and the two writes that
// show in another sequence.
module CacheLimits {
  import opened Prelude
  import opened Hashing
  import opened PoolSpec
  import opened CacheSpec
  import opened CacheInv
  import opened Lru
  import opened CacheView
  import opened CacheSteps
  import opened PrefixCache
  import opened CacheRun
  import opened CacheDiscipline
  import opened CacheExact
  import opened CacheBatch
  import opened CacheGaps
  import opened CacheGuards
  import opened Swapping
  import GraphMode

  // One layer, one position a block, and block 0 reserved.
  function Tiny(blocks: nat, zero: KV, lru: bool): Config {
    Config(1, 1, blocks, 2, 2, zero, lru)
  }

  // ---- The eviction loop hangs ----

  lemma FirstBlock(cfg: Config)
    requires cfg.numBlocks == 2 && cfg.maxSeqs > 0 && cfg.maxBlocks > 0
    ensures Init(cfg).pool.free == [1] && Allocate(Init(cfg), 0, 1).Granted?
    ensures var d := Allocate(Init(cfg), 0, 1).c;
      && d.pool.free == [] && d.owned == map[0 := [1]] && d.pinned == {} && d.cfg == cfg && d.swap == Init(cfg).swap
      && d.lru == Lru(1, map[0 := 1], [Entry(1, 0)])
  {
    var c := Init(cfg);
    assert c.pool.free == [1] && [1][..1] == [1] && [1][1..] == [];
    assert Blocks(c, 0) + [1] == [1];
    assert Allocate(c, 0, 1) == Granted(Grant(c, 0, 1), [1]);
  }

  // One usable block and one sequence that asks for a second one: the only
  // live entry is the asker's own, pushed back and popped for ever.
  lemma SecondBlockHangs(zero: KV)
    ensures Runs(Init(Tiny(2, zero, true)), [Alloc(0, 1)])
    ensures var c := Final(Init(Tiny(2, zero, true)), [Alloc(0, 1)]);
      Allowed(c, Alloc(0, 1)) && Apply(c, Alloc(0, 1)) == None
  {
    var c0 := Init(Tiny(2, zero, true));
    FirstBlock(c0.cfg);
    assert Allowed(c0, Alloc(0, 1));
    var c := Allocate(c0, 0, 1).c;
    assert [Alloc(0, 1)][1..] == [];
    hide Grant;
    assert c.(evicted := []).lru == c.lru;
    assert Current(c.(evicted := []), Entry(1, 0)) && Held(c, 0, 0);
    assert EvictLru(c, 1, 0) == Spins;
  }

  // ---- A write past the next block ----

  // Position 1 of an empty sequence: the value shows at position 0.
  lemma FarWriteMoves(zero: KV, v: KV)
    requires v != zero
    ensures var r := WriteKv(Init(Tiny(2, zero, true)), 0, 0, 1, v);
      r.Done? && View(r.c, 0, 0, 1) == zero && View(r.c, 0, 0, 0) == v
  {
    var c := Init(Tiny(2, zero, true));
    InitInv(c.cfg);
    FirstBlock(c.cfg);
    assert Quot(1, 1) == 1 && Quot(0, 1) == 0 && Rem(1, 1) == 0;
    hide Inv, View, Allocate, WriteBlock;
    WriteCases(c, 0, 0, 1, v);
    WriteLands(c, 0, 0, 1, v);
    UnmappedIsZero(c, 0, 0, 1);
    assert LandsAt(c, 0, 1) == 0;
  }

  // ---- A block shared by two sequences ----

  function Shared(v: KV): seq<Op> {
    [CachingOn, Write(0, 0, 0, v), RegisterPrefix(0, None, [7]), Reuse(1, None, [7])]
  }

  // The first write of a fresh cache.
  lemma FirstWrite(c: Cache, v: KV)
    requires Inv(c) && c.cfg.blockSize == 1 && c.cfg.layers == 1 && c.cfg.maxSeqs == 2 && c.cfg.maxBlocks == 2
    requires c.pool.caching && c.owned == map[] && c.swap.out == map[] && c.pool.free != [] && c.pool.index == map[]
    ensures WriteOk(c, 0, 0, 0) && WriteKv(c, 0, 0, 0, v).Done?
    ensures var d := WriteKv(c, 0, 0, 0, v).c;
      && Inv(d) && View(d, 0, 0, 0) == v && d.owned == map[0 := [c.pool.free[0]]] && Beside(c, d)
      && d.pool == Take(c.pool, 1)
  {
    hide Inv, View, Grant, Take, WriteBlock;
    assert Quot(0, 1) == 0 && Blocks(c, 0) == [];
    WriteKvStep(c, 0, 0, 0, v);
    WriteCases(c, 0, 0, 0, v);
    assert c.pool.free[..1] == [c.pool.free[0]];
    var b := c.pool.free[0];
    var g := Grant(c, 0, 1);
    assert Allocate(c, 0, 1) == Granted(g, [b]);
    GrantIs(c, 0, 1);
    FirstTaken(c, g);
    assert Blocks(c, 0) + [b] == [b] && g.owned == map[0 := [b]];
    NoCowWrite(g, 0, 0, 0, v, b);
    TouchOnly(Store(g, 0, 0, 0, b, v), 0);
  }

  lemma OneRegistered(c: Cache, b: int)
    requires Inv(c) && c.cfg.blockSize == 1 && c.pool.caching && c.owned == map[0 := [b]]
    requires 0 < b < |c.pool.tags| && c.pool.tags[b] == None
    ensures Quot(1, 1) == 1 && Chain(None, [7], 1, 1) == Some(Hash(None, None, [7]))
    ensures var d := RegisterPrefixBlocks(c, 0, None, [7]);
      && d == c.(pool := d.pool) && Lookup(d.pool, Hash(None, None, [7])) == Some(b) && d.pool.refs == c.pool.refs
      && d.pool.free == c.pool.free && d.pool.caching
  {
    assert b in c.owned[0];
    assert Quot(1, 1) == 1 + Quot(0, 1);
    assert [7][0..1] == [7];
    assert FullBlocks(c, 0, [7]) == 1;
    assert RegisterUpTo(c, 0, None, [7], 0) == c;
  }

  lemma OneReused(c: Cache, b: int)
    requires 0 < b < |c.pool.refs| && c.pool.refs[b] == 1 && |c.table| == 2 && c.cfg.blockSize == 1
    requires c.pool.caching && c.owned == map[0 := [b]]
    requires Lookup(c.pool, Hash(None, None, [7])) == Some(b)
    ensures var d := TryReusePrefix(c, 1, None, [7]).0;
      && d.owned == map[0 := [b], 1 := [b]] && d.pool.refs == c.pool.refs[b := 2] && d.pool.free == c.pool.free
      && d.cfg == c.cfg && d.pool.index == c.pool.index && d.pool.caching
  {
    assert [7][0..1] == [7];
    assert Chain(None, [7], 1, 1) == Some(Hash(None, None, [7]));
    assert Blocks(c, 1) + [b] == [b];
    var e := Adopt(c, 1, 0, b);
    assert e.owned == map[0 := [b], 1 := [b]];
    assert ReuseFrom(e, 1, None, [7], 1) == (e, 1);
    assert ReuseFrom(c, 1, None, [7], 0) == (e, 1);
  }

  // Two sequences that share one block; the other blocks are free.
  lemma SharedRun(blocks: nat, zero: KV, v: KV) returns (c: Cache)
    requires blocks >= 2
    ensures Runs(Init(Tiny(blocks, zero, false)), Shared(v)) && c == Final(Init(Tiny(blocks, zero, false)), Shared(v))
    ensures Inv(c) && c.cfg == Tiny(blocks, zero, false) && c.owned == map[0 := [1], 1 := [1]]
    ensures |c.pool.refs| == blocks && c.pool.refs[1] == 2 && |c.pool.free| == blocks - 2
    ensures View(c, 0, 0, 0) == v && View(c, 1, 0, 0) == v && c.swap.out == map[]
    ensures c.pool.caching && Lookup(c.pool, Hash(None, None, [7])) == Some(1)
  {
    hide Inv, View, WriteKv, WriteOk, RegisterPrefixBlocks, TryReusePrefix, Take, Lookup, Runs, Final;
    var c0 := Init(Tiny(blocks, zero, false));
    InitInv(c0.cfg);
    var c1 := EnablePrefixCaching(c0);
    CachingStep(c0);
    assert |c1.pool.refs| == blocks && |c1.pool.free| == blocks - 1 && c1.pool.free[0] == 1;
    FirstWrite(c1, v);
    var c2 := WriteKv(c1, 0, 0, 0, v).c;
    FirstTaken(c1, c2);
    OneRegistered(c2, 1);
    var c3 := RegisterPrefixBlocks(c2, 0, None, [7]);
    RegisterStep(c2, 0, None, [7]);
    TwoRows(c3);
    OneReused(c3, 1);
    c := TryReusePrefix(c3, 1, None, [7]).0;
    SharedViews(c2, c3, c, v);
    SameIndex(c3, c, Hash(None, None, [7]));
    SharedSteps(c0, c1, c2, c3, c, v);
  }

  lemma TwoRows(c: Cache)
    requires Inv(c)
    ensures |c.table| == c.cfg.maxSeqs
  {
  }

  lemma FirstTaken(c: Cache, d: Cache)
    requires Inv(c) && c.pool.caching && c.pool.free != [] && d.pool == Take(c.pool, 1)
    ensures var b := c.pool.free[0];
      && 0 < b < |d.pool.refs| == |d.pool.tags| == |c.pool.refs| && d.pool.refs[b] == 1 && d.pool.tags[b] == None
      && |d.pool.free| == |c.pool.free| - 1
  {
    TakeKept(c, 1);
    assert c.pool.free[0] in c.pool.free[..1];
  }

  lemma SharedViews(b: Cache, c: Cache, d: Cache, v: KV)
    requires Inv(c) && c.cfg.blockSize == 1 && c.cfg.maxSeqs == 2 && c.cfg.maxBlocks == 2 && c.swap.out == map[]
    requires SameReads(b, c) && View(b, 0, 0, 0) == v && c.owned == map[0 := [1]]
    requires d == TryReusePrefix(c, 1, None, [7]).0 && d.owned == map[0 := [1], 1 := [1]]
    ensures Inv(d) && View(d, 0, 0, 0) == v && View(d, 1, 0, 0) == v && d.cfg == c.cfg && d.swap.out == map[]
  {
    assert Quot(1, 1) == 1 + Quot(0, 1) && Quot(0, 1) == 0;
    var n := TryReusePrefixStep(c, 1, None, [7]);
    hide TryReusePrefix;
    assert View(d, 0, 0, 0) == View(c, 0, 0, 0);
    ViewIs(d, 0, 0, 0);
    ViewIs(d, 1, 0, 0);
  }

  lemma SharedSteps(c0: Cache, c1: Cache, c2: Cache, c3: Cache, c4: Cache, v: KV)
    requires c1 == EnablePrefixCaching(c0) && WriteOk(c1, 0, 0, 0) && WriteKv(c1, 0, 0, 0, v) == Done(c2)
    requires c3 == RegisterPrefixBlocks(c2, 0, None, [7]) && c4 == TryReusePrefix(c3, 1, None, [7]).0
    requires Allowed(c3, Reuse(1, None, [7]))
    ensures Runs(c0, Shared(v)) && Final(c0, Shared(v)) == c4
  {
    hide WriteKv, WriteOk, RegisterPrefixBlocks, TryReusePrefix;
    var ops := Shared(v);
    assert ops[1..][0] == Write(0, 0, 0, v) && ops[1..][1..] == ops[2..] && ops[2..][1..] == ops[3..]
      && ops[3..][1..] == [];
    assert Runs(c4, []) && Final(c4, []) == c4;
    assert Runs(c3, ops[3..]) && Final(c3, ops[3..]) == c4;
    assert Runs(c2, ops[2..]) && Final(c2, ops[2..]) == c4;
    assert Runs(c1, ops[1..]) && Final(c1, ops[1..]) == c4;
  }

  // One usable block, published, reused and then written by the second
  // sequence with nothing left to copy into: the first one reads the new value.
  lemma NoBlockForTheCopy(zero: KV, v: KV, u: KV)
    ensures Runs(Init(Tiny(2, zero, false)), Shared(v))
    ensures var c := Final(Init(Tiny(2, zero, false)), Shared(v));
      View(c, 0, 0, 0) == v && WriteKv(c, 0, 1, 0, u).Done? && View(WriteKv(c, 0, 1, 0, u).c, 0, 0, 0) == u
  {
    hide View, Inv, WriteKv, Runs, Final, Init, Tiny, Shared;
    var c := SharedRun(2, zero, v);
    SharedShows(c, u, zero);
  }

  lemma SharedShows(c: Cache, u: KV, zero: KV)
    requires Inv(c) && c.cfg == Tiny(2, zero, false) && c.owned == map[0 := [1], 1 := [1]] && c.pool.free == []
    ensures WriteKv(c, 0, 1, 0, u).Done? && View(WriteKv(c, 0, 1, 0, u).c, 0, 0, 0) == u
  {
    hide View, WriteBlock, Inv, WriteKv, Store, Touch;
    assert Quot(0, 1) == 0 && Rem(0, 1) == 0;
    WriteCases(c, 0, 1, 0, u);
    assert Shows(c, 0, 0, 1, 0, 0, 0);
    StoreShows(c, 0, 1, 0, u, 1, 0, 0);
    NoCowWrite(c, 0, 1, 0, u, 1);
  }

  lemma NoCowWrite(c: Cache, l: int, s: int, p: nat, v: KV, b: int)
    requires !Copies(c, s, Quot(p, c.cfg.blockSize))
    ensures WriteBlock(c, l, s, p, b, v) == Touch(Store(c, l, s, p, b, v), s)
  {
  }

  // Decoding never copies, even with blocks to spare.
  lemma DecodeShowsElsewhere(zero: KV, v: KV, u: KV)
    ensures Runs(Init(Tiny(3, zero, false)), Shared(v))
    ensures var c := Final(Init(Tiny(3, zero, false)), Shared(v));
      && View(c, 0, 0, 0) == v && |c.pool.free| == 1
      && View(GraphMode.EagerDecode(c, 0, [1], [0], [u]), 0, 0, 0) == u
  {
    hide View, Store, Runs, Final;
    var c := SharedRun(3, zero, v);
    assert Quot(0, 1) == 0 && Rem(0, 1) == 0;
    GraphMode.OneRow(c, 0, 1, 0, u);
    assert Shows(c, 0, 0, 1, 0, 0, 0);
    StoreReads(c, 0, 1, 0, 1, u);
  }

  // ---- A batch with a gap ----

  lemma Given(c: Cache, s: int, n: nat)
    requires Inv(c) && MayGrow(c, s, n) && n <= |c.pool.free|
    ensures var d := Allocate(c, s, n).c;
      && Allocate(c, s, n) == Granted(d, c.pool.free[..n]) && Inv(d) && Beside(c, d) && d.pool == Take(c.pool, n)
      && d.owned == c.owned[s := Blocks(c, s) + c.pool.free[..n]]
  {
    GrantIs(c, s, n);
    hide Grant, Take, View;
    AllocateStep(c, s, n);
  }

  lemma Rewritten(c: Cache, l: int, s: int, p: nat, v: KV)
    requires Inv(c) && WriteOk(c, l, s, p) && Private(c, s, Quot(p, c.cfg.blockSize))
    ensures WriteKv(c, l, s, p, v).Done?
    ensures var d := WriteKv(c, l, s, p, v).c;
      Inv(d) && Beside(c, d) && d.owned == c.owned && d.pool == c.pool && View(d, s, l, p) == v
  {
    hide Inv, View, WriteBlock, Touch;
    var i := Quot(p, c.cfg.blockSize);
    WriteKvStep(c, l, s, p, v);
    WriteCases(c, l, s, p, v);
    NoCowWrite(c, l, s, p, v, Blocks(c, s)[i]);
    TouchOnly(Store(c, l, s, p, Blocks(c, s)[i], v), s);
  }

  function Apart(v: KV): seq<Op> {
    [Alloc(0, 1), Alloc(1, 2), Write(0, 1, 1, v), Free(0)]
  }

  // Sequence 1 has the last two of three blocks, the first one is free again.
  lemma ApartRun(zero: KV, v: KV) returns (c: Cache)
    ensures Runs(Init(Tiny(4, zero, false)), Apart(v)) && c == Final(Init(Tiny(4, zero, false)), Apart(v))
    ensures Inv(c) && c.cfg == Tiny(4, zero, false) && c.owned == map[1 := [2, 3]] && c.pool.free == [1]
    ensures c.swap.out == map[] && View(c, 1, 0, 1) == v
  {
    hide Inv, View, WriteKv, Allocate, FreeSequence, Runs, Final;
    var c0 := Init(Tiny(4, zero, false));
    InitInv(c0.cfg);
    assert c0.pool.free == [1, 2, 3] && Blocks(c0, 0) + [1, 2, 3][..1] == [1];
    Given(c0, 0, 1);
    var c1 := Allocate(c0, 0, 1).c;
    assert c0.pool.free[..1] == [1] && c1.owned == map[0 := [1]] && [2, 3][..2] == [2, 3] && 1 in [1];
    assert c1.pool.free == [2, 3] && c1.pool.refs[1] == 1 && Blocks(c1, 1) + [2, 3][..2] == [2, 3];
    Given(c1, 1, 2);
    var c2 := Allocate(c1, 1, 2).c;
    assert c1.pool.free[..2] == [2, 3] && c2.pool.refs[3] == 1;
    assert c2.pool.free == [] && c2.pool.refs[1] == 1 && Quot(1, 1) == 1 + Quot(0, 1) && Private(c2, 1, 1);
    assert WriteOk(c2, 0, 1, 1);
    Rewritten(c2, 0, 1, 1, v);
    var c3 := WriteKv(c2, 0, 1, 1, v).c;
    c := FreeSequence(c3, 0);
    LastFreed(c3);
    ApartSteps(c0, c1, c2, c3, c, v);
  }

  lemma LastFreed(c: Cache)
    requires Inv(c) && c.owned == map[0 := [1], 1 := [2, 3]] && c.pool.free == [] && |c.pool.refs| == 4
    requires c.pool.refs[1] == 1
    ensures var d := FreeSequence(c, 0);
      && Inv(d) && d.cfg == c.cfg && d.swap == c.swap && d.owned == map[1 := [2, 3]] && d.pool.free == [1]
      && View(d, 1, 0, 1) == View(c, 1, 0, 1)
  {
    hide Inv, View;
    FreeSequenceStep(c, 0);
    assert Reverse([1]) == [1] && [1][1..] == [] && Idle(c.pool.refs, [1]) == [1];
    assert c.owned - {0} == map[1 := [2, 3]];
  }

  lemma ApartSteps(c0: Cache, c1: Cache, c2: Cache, c3: Cache, c4: Cache, v: KV)
    requires Allowed(c0, Alloc(0, 1)) && Allocate(c0, 0, 1).Granted? && c1 == Allocate(c0, 0, 1).c
    requires Allowed(c1, Alloc(1, 2)) && Allocate(c1, 1, 2).Granted? && c2 == Allocate(c1, 1, 2).c
    requires WriteOk(c2, 0, 1, 1) && WriteKv(c2, 0, 1, 1, v) == Done(c3) && c4 == FreeSequence(c3, 0)
    ensures Runs(c0, Apart(v)) && Final(c0, Apart(v)) == c4
  {
    hide WriteKv, WriteOk, Allocate, FreeSequence;
    var ops := Apart(v);
    assert ops[1..][0] == Alloc(1, 2) && ops[1..][1..] == ops[2..] && ops[2..][1..] == ops[3..] && ops[3..][1..] == [];
    assert Runs(c4, []) && Final(c4, []) == c4;
    assert Runs(c3, ops[3..]) && Final(c3, ops[3..]) == c4;
    assert Runs(c2, ops[2..]) && Final(c2, ops[2..]) == c4;
    assert Runs(c1, ops[1..]) && Final(c1, ops[1..]) == c4;
  }

  // An empty sequence writes position 1 in a batch: the value neither reads
  // back nor stays private, as position 1 of the other sequence now has it.
  lemma GapHitsOther(zero: KV, v: KV, u: KV)
    requires u != zero
    ensures Runs(Init(Tiny(4, zero, false)), Apart(v))
    ensures var c := Final(Init(Tiny(4, zero, false)), Apart(v)); var r := WriteKvBatch(c, 0, 0, [1], [u]);
      && View(c, 1, 0, 1) == v && r.Done? && View(r.c, 1, 0, 1) == u && View(r.c, 0, 0, 1) != u
      && !Gapless(c, 0, [1]) && !SparesOthers(Extended(c, 0, [1]), 0, [1])
  {
    hide Inv, View, Runs, Final, WriteKvBatch, Gapless, SparesOthers, Extended, Init, Tiny, Apart;
    var c := ApartRun(zero, v);
    GapMoves(c, zero, u);
  }

  lemma GapMoves(c: Cache, zero: KV, u: KV)
    requires Inv(c) && c.cfg == Tiny(4, zero, false) && c.owned == map[1 := [2, 3]] && c.pool.free == [1]
    requires c.swap.out == map[] && u != zero
    ensures var r := WriteKvBatch(c, 0, 0, [1], [u]);
      && r.Done? && View(r.c, 1, 0, 1) == u && View(r.c, 0, 0, 1) != u
      && !Gapless(c, 0, [1]) && !SparesOthers(Extended(c, 0, [1]), 0, [1])
  {
    hide Inv, View, Extended, WriteKvBatch, Missing, SharedCount;
    GapExtends(c);
    assert Quot(1, 1) == 1 + Quot(0, 1) && Rem(1, 1) == Rem(0, 1) == 0 && [1][0] == 1;
    GapOverwrites(c, 0, 0, [1], [u], 0, 1, 1);
    BatchReadsBackIff(c, 0, 0, [1], [u]);
    assert LastRow([1], [u], 1, 1) == Some(u);
    assert 1 in BlockIndices([1], 1) && 3 in Extended(c, 0, [1]).owned[1];
    assert Quot([1][0], 1) >= |Blocks(Extended(c, 0, [1]), 0)|;
  }

  lemma GapExtends(c: Cache)
    requires Inv(c) && c.cfg.blockSize == 1 && c.cfg.maxSeqs == 2 && c.cfg.maxBlocks == 2 && c.swap.out == map[]
    requires c.owned == map[1 := [2, 3]] && c.pool.free == [1]
    ensures BlockIndices([1], 1) == [1] && Missing(c, 0, [1]) == 1
    ensures var e := Extended(c, 0, [1]);
      Blocks(e, 0) == [1] && 1 in e.owned && Blocks(e, 1) == [2, 3] && e.cfg == c.cfg
    ensures forall u :: WriteKvBatch(c, 0, 0, [1], [u]).Done?
  {
    hide Inv, Allocate, WriteBatchBlocks, BlockIndices, Missing;
    assert Quot(1, 1) == 1 + Quot(0, 1);
    OneIndex(1, 1);
    GapIsMissing(c);
    Given(c, 0, 1);
    assert Blocks(c, 0) + [1][..1] == [1];
  }

  lemma GapIsMissing(c: Cache)
    requires Inv(c) && 0 < c.cfg.maxSeqs && 1 < c.cfg.maxBlocks && Blocks(c, 0) == []
    ensures Missing(c, 0, [1]) == 1
  {
    TableIs(c, 0, 1);
    assert [1][1..] == [] && [1][0] == 1;
  }

  // ---- Calls outside the conditions on callers ----

  // The second sequence reuses the prefix once more: list and table differ.
  lemma ReusedTwice(zero: KV, v: KV)
    ensures Runs(Init(Tiny(2, zero, false)), Shared(v))
    ensures var c := Final(Init(Tiny(2, zero, false)), Shared(v));
      FirstCached(c, None, [7]) && Blocks(c, 1) == [1] && !Inv(TryReusePrefix(c, 1, None, [7]).0)
  {
    hide Inv, View, Runs, Final, TryReusePrefix;
    var c := SharedRun(2, zero, v);
    assert Quot(1, 1) == 1 + Quot(0, 1) && [7][0..1] == [7];
    assert Chain(None, [7], 1, 1) == Some(Hash(None, None, [7]));
    ReuseOnTopIff(c, 1, None, [7]);
  }

  function Away(): seq<Op> {
    [SwapOn(false), Alloc(0, 1), PutAway(0)]
  }

  // One sequence, swapped out; all blocks are free.
  lemma AwayRun(zero: KV) returns (c: Cache)
    ensures Runs(Init(Tiny(4, zero, false)), Away()) && c == Final(Init(Tiny(4, zero, false)), Away())
    ensures Inv(c) && c.cfg == Tiny(4, zero, false) && 0 in c.swap.out && |c.swap.out[0].blocks| == 1
    ensures |c.pool.free| == 3
  {
    hide Inv, View, Allocate, Runs, Final;
    var c0 := Init(Tiny(4, zero, false));
    InitInv(c0.cfg);
    var c1 := EnableSwap(c0, false);
    SwapOnInv(c0, false);
    assert c1.pool.free == [1, 2, 3] && [1, 2, 3][..1] == [1] && [1, 2, 3][1..] == [2, 3] && Blocks(c1, 0) + [1] == [1];
    Given(c1, 0, 1);
    var c2 := Allocate(c1, 0, 1).c;
    c := SwapOut(c2, 0);
    assert 1 in [1] && c2.pool.refs[1] == 1 && |c2.pool.refs| == 4;
    assert |c2.swap.free| == 4 && CanSwapOut(c2, 0);
    SwapOutStep(c2, 0);
    WentAway(c2);
    AwaySteps(c0, c1, c2, c);
  }

  lemma WentAway(c: Cache)
    requires CanSwapOut(c, 0) && c.owned == map[0 := [1]] && c.pool.free == [2, 3] && |c.pool.refs| == 4
    requires c.pool.refs[1] == 1
    ensures |SwapOut(c, 0).pool.free| == 3 && |SwapOut(c, 0).swap.out[0].blocks| == 1
  {
    assert Reverse([1]) == [1] && [1][1..] == [] && Idle(c.pool.refs, [1]) == [1];
  }

  lemma AwaySteps(c0: Cache, c1: Cache, c2: Cache, c3: Cache)
    requires !c0.swap.enabled && c1 == EnableSwap(c0, false)
    requires Allowed(c1, Alloc(0, 1)) && Allocate(c1, 0, 1).Granted? && c2 == Allocate(c1, 0, 1).c
    requires 0 !in c2.swap.out && c3 == SwapOut(c2, 0)
    ensures Runs(c0, Away()) && Final(c0, Away()) == c3
  {
    hide Allocate, SwapOut, EnableSwap;
    var ops := Away();
    assert ops[1..][0] == Alloc(0, 1) && ops[1..][1..] == ops[2..] && ops[2..][1..] == [];
    assert Runs(c3, []) && Final(c3, []) == c3;
    assert Runs(c2, ops[2..]) && Final(c2, ops[2..]) == c3;
    assert Runs(c1, ops[1..]) && Final(c1, ops[1..]) == c3;
  }

  // It is given a block meanwhile: the block is lost when it comes back.
  lemma GrowsWhileAway(zero: KV)
    ensures Runs(Init(Tiny(4, zero, false)), Away())
    ensures var c := Final(Init(Tiny(4, zero, false)), Away());
      && 0 in c.swap.out && Allocate(c, 0, 1).Granted? && CanSwapIn(Allocate(c, 0, 1).c, 0)
      && !Inv(SwapIn(Allocate(c, 0, 1).c, 0))
  {
    hide Inv, View, Runs, Final, Init, Grant;
    var c := AwayRun(zero);
    assert Allocate(c, 0, 1) == Granted(Grant(c, 0, 1), c.pool.free[..1]);
    GrantIs(c, 0, 1);
    assert |Take(c.pool, 1).free| == 2;
    assert c.pool.free[0] in c.pool.free[..1];
    SwappedGrowthIsLost(c, 0, 1, c.pool.free[0]);
  }
}
