// Facts about single calls of the paged cache that its object needs.
module PagedFacts {
  import opened Prelude
  import opened Hashing
  import opened PoolSpec
  import opened CacheSpec
  import opened CacheInv
  import opened Lru
  import opened CacheView
  import opened CacheSteps
  import opened CacheArrays
  import opened CacheBatch
  import opened GroupedStore
  import opened PrefixCache
  import Swapping
  import CacheRun
  import opened GraphMode

  lemma {:induction false} CompactSnoc(c: Cache, heap: seq<Entry>, e: Entry)
    ensures Compact(c, heap + [e]) == Compact(c, heap) + if Current(c, e) then [e] else []
  {
    if heap == [] {
      assert heap + [e] == [e];
    } else {
      assert (heap + [e])[1..] == heap[1..] + [e];
      CompactSnoc(c, heap[1..], e);
    }
  }

  lemma FreeFields(c: Cache, s: int)
    requires Core(c) && 0 <= s < c.cfg.maxSeqs
    ensures |Blocks(c, s)| <= c.cfg.maxBlocks && |c.table| == |c.lens| == c.cfg.maxSeqs
    ensures var d := FreeSequence(c, s); var blocks := Blocks(c, s);
      && d.cfg == c.cfg && d.cells == c.cells && d.pinned == c.pinned && d.evicted == c.evicted && d.dummy == c.dummy
      && d.swap == c.swap && d.lens == c.lens[s := 0]
      && d.pool == (if blocks == [] then c.pool else Release(c.pool, Reverse(blocks)))
      && d.dirty == (if blocks == [] then c.dirty else c.dirty + Elements(blocks))
      && d.table == (if blocks == [] then c.table else Upd(c.table, s, ClearRow(c.table[s], |blocks|)))
  {
  }

  lemma MinimumOwned(c: Cache)
    requires Core(c) && c.lru.heap != [] && Current(c, c.lru.heap[0])
    ensures 0 <= c.lru.heap[0].seqId < c.cfg.maxSeqs
  {
  }

  lemma TurnCore(c: Cache)
    requires Core(c) && c.lru.heap != []
    ensures Core(Popped(c)) && Core(AfterVictim(c)) && AfterVictim(c).lru.heap == c.lru.heap[1..]
  {
    var d := FreeSequence(Popped(c), c.lru.heap[0].seqId);
    CoreBeside(c, Popped(c));
    FreeSequenceCore(Popped(c), c.lru.heap[0].seqId);
    CoreBeside(d, AfterVictim(c));
  }

  lemma EvictInv(c: Cache, needed: int, protect: int)
    requires Inv(c) && EvictLru(c, needed, protect).Evicted?
    ensures Core(c) && Inv(EvictLru(c, needed, protect).c)
  {
    EvictStep(c, needed, protect);
  }

  lemma WipeOne(c: Cache, taken: seq<int>, b: int)
    requires 0 <= b < |c.cells|
    ensures Wipe(c, taken)[b] == if b in taken && b in c.dirty then ZeroContent(c.cfg) else c.cells[b]
    ensures Wipe(c, taken + [b]) == if b in c.dirty then Wipe(c, taken)[b := ZeroContent(c.cfg)] else Wipe(c, taken)
  {
  }

  lemma TableSize(c: Cache)
    requires Core(c)
    ensures |c.table| == |c.lens| == c.cfg.maxSeqs && |c.cells| == |c.pool.refs| == |c.pool.tags|
    ensures forall s :: 0 <= s < |c.table| ==> |c.table[s]| == c.cfg.maxBlocks
  {
  }

  lemma TakenInRange(c: Cache, n: nat)
    requires Core(c) && n <= |c.pool.free|
    ensures Shape(c) && forall b :: b in c.pool.free[..n] ==> 0 <= b < |c.cells|
  {
    assert forall b :: b in c.pool.free[..n] ==> b in c.pool.free;
  }

  // The state in which allocation touches the sequence.
  ghost function Ungranted(c: Cache, s: int, n: nat): Cache
    requires n <= |c.pool.free|
  {
    Assign(c, s, n).(cells := Wipe(c, c.pool.free[..n]), dirty := c.dirty - Elements(c.pool.free[..n]))
  }

  lemma GrantFields(c: Cache, s: int, n: nat)
    requires n <= |c.pool.free|
    ensures var d := Ungranted(c, s, n); var taken := c.pool.free[..n];
      && d.owned == c.owned[s := Blocks(c, s) + taken] && d.lru == c.lru
      && Grant(c, s, n) == Touch(d, s) == d.(lru := Touch(d, s).lru)
      && d.cfg == c.cfg && d.pool == Take(c.pool, n) && d.cells == Wipe(c, taken) && d.lens == c.lens
      && d.table == Upd(c.table, s, SetRow(RowOf(c, s), |Blocks(c, s)|, taken))
      && d.dirty == c.dirty - Elements(taken) && d.pinned == c.pinned && d.evicted == c.evicted
      && d.dummy == c.dummy && d.swap == c.swap
  {
  }

  lemma AllocateKeeps(c: Cache, s: int, n: nat)
    requires Inv(c) && MayGrow(c, s, n) && !Stuck(c, s, n)
    ensures !Allocate(c, s, n).NeverReturns? && Inv(Allocate(c, s, n).c)
  {
    AllocateStep(c, s, n);
  }

  lemma EvictReady(c: Cache, s: int, n: nat)
    requires Inv(c) && MayGrow(c, s, n) && !Stuck(c, s, n) && n > |c.pool.free| && c.cfg.lruEviction
    ensures EvictLru(c, n - |c.pool.free|, s).Evicted?
    ensures var r := EvictLru(c, n - |c.pool.free|, s);
      MayGrow(r.c, s, n) && |r.c.pool.free| == |c.pool.free| + r.freed
  {
    hide Core, LruOk, SwapOk, EvictLru;
    AllocateStep(c, s, n);
    var r := EvictLru(c, n - |c.pool.free|, s);
    assert r.Evicted?;
    EvictStep(c, n - |c.pool.free|, s);
    assert Blocks(r.c, s) == Blocks(c, s);
  }

  lemma ListInRange(c: Cache, s: int, i: int)
    requires Core(c) && s in c.owned && 0 <= i < |c.owned[s]|
    ensures 0 <= c.owned[s][i] < |c.pool.refs|
  {
    OwnedIsReferenced(c, s, c.owned[s][i]);
  }

  lemma CopyReady(c: Cache, s: int, i: int)
    requires Core(c) && Copies(c, s, i)
    ensures |c.pool.free| > 0 && c.pool.free[..1] == [c.pool.free[0]]
    ensures var shared, copy := Blocks(c, s)[i], c.pool.free[0];
      && 0 <= copy < |c.cells| && 0 < shared < |c.cells| && copy != shared
      && HasShape(c.cells[copy], c.cfg) && HasShape(c.cells[shared], c.cfg)
      && shared < |Take(c.pool, 1).refs| && Take(c.pool, 1).refs[shared] > 0
  {
    assert c.pool.free[0] in c.pool.free && Blocks(c, s)[i] in c.owned[s];
    QueuedIsNowhere(c, c.pool.free[0]);
    OwnedIsReferenced(c, s, Blocks(c, s)[i]);
  }

  lemma CowFields(c: Cache, s: int, i: int)
    requires Core(c) && Copies(c, s, i)
    ensures s in c.owned && 0 <= i < |c.owned[s]| && |c.pool.free| > 0
    ensures 0 <= s < |c.table| && i < |c.table[s]| && 0 <= c.owned[s][i] < |c.cells|
    ensures var shared, copy := c.owned[s][i], c.pool.free[0];
      CowIfShared(c, s, i, Blocks(c, s)[i]) ==
        (c.(pool := Release(Take(c.pool, 1), [shared]), cells := Upd(c.cells, copy, c.cells[shared]),
            table := Upd(c.table, s, Upd(c.table[s], i, copy)), owned := c.owned[s := c.owned[s][i := copy]]), copy)
  {
    CowIsMapped(c, s, i);
  }

  lemma StoreFields(c: Cache, l: int, s: int, p: nat, b: int, v: KV)
    requires Core(c) && 0 <= l < c.cfg.layers && 0 <= s < c.cfg.maxSeqs && 0 <= b < c.cfg.numBlocks
    ensures |c.cells| == c.cfg.numBlocks && |c.cells[b]| == c.cfg.layers && |c.cells[b][l]| == c.cfg.blockSize
    ensures |c.lens| == c.cfg.maxSeqs
    ensures Store(c, l, s, p, b, v)
         == c.(cells := Put(c.cells, b, l, Rem(p, c.cfg.blockSize), v), lens := c.lens[s := Max(c.lens[s], p + 1)])
    ensures Touch(Store(c, l, s, p, b, v), s) == Store(c, l, s, p, b, v).(lru := Touch(Store(c, l, s, p, b, v), s).lru)
  {
    assert HasShape(c.cells[b], c.cfg);
  }

  lemma EntryIs(c: Cache, s: int, i: nat)
    requires Core(c) && 0 <= s < c.cfg.maxSeqs && i < c.cfg.maxBlocks
    ensures |c.table| == c.cfg.maxSeqs && |c.table[s]| == c.cfg.maxBlocks && |c.pool.refs| == c.cfg.numBlocks
    ensures TableEntry(c, s, i) == c.table[s][i] == if i < |Blocks(c, s)| then Blocks(c, s)[i] else -1
    ensures i < |Blocks(c, s)| ==> 0 < Blocks(c, s)[i] < |c.pool.refs| && c.pool.refs[Blocks(c, s)[i]] > 0
  {
    if i < |Blocks(c, s)| { OwnedIsReferenced(c, s, Blocks(c, s)[i]); }
  }

  // A block in use, and the one copy-on-write would replace if any.
  ghost predicate Storable(c: Cache, l: int, s: int, p: nat, b: int) {
    && 0 <= l < c.cfg.layers && 0 <= s < c.cfg.maxSeqs && 0 < b < c.cfg.numBlocks && b < |c.pool.refs|
    && c.pool.refs[b] > 0
    && (Copies(c, s, Quot(p, c.cfg.blockSize)) ==> b == Blocks(c, s)[Quot(p, c.cfg.blockSize)])
  }

  lemma StoreKeeps(c: Cache, l: int, s: int, p: nat, b: int, v: KV)
    requires Inv(c) && Storable(c, l, s, p, b)
    ensures Core(c) && Inv(WriteBlock(c, l, s, p, b, v))
    ensures var (d, target) := CowIfShared(c, s, Quot(p, c.cfg.blockSize), b);
      Core(d) && 0 <= target < d.cfg.numBlocks && d.cfg == c.cfg
  {
    var i := Quot(p, c.cfg.blockSize);
    hide Core, Touch, Store, LruOk, SwapOk;
    assert Core(c);
    CowTarget(c, s, i, b);
    var (d, target) := CowIfShared(c, s, i, b);
    var e := Store(d, l, s, p, target, v);
    StoreCore(d, l, s, p, target, v);
    StoreSide(d, l, s, p, target, v);
    SideFrame(c, e);
    TouchStep(e, s);
  }

  lemma CowTarget(c: Cache, s: int, i: int, b: int)
    requires Core(c) && 0 < b < c.cfg.numBlocks && c.pool.refs[b] > 0
    requires Copies(c, s, i) ==> b == Blocks(c, s)[i]
    ensures var (d, target) := CowIfShared(c, s, i, b);
      && Core(d) && 0 < target < d.cfg.numBlocks && d.pool.refs[target] > 0
      && d.cfg == c.cfg && d.lru == c.lru && d.swap == c.swap && d.owned.Keys == c.owned.Keys
  {
    if Copies(c, s, i) {
      CowCore(c, s, i);
      CowIsPrivate(c, s, i);
    }
  }

  lemma AllocatedStorable(c: Cache, l: int, s: int, p: nat)
    requires Inv(c) && 0 <= l < c.cfg.layers && Quot(p, c.cfg.blockSize) >= |Blocks(c, s)| && MayGrow(c, s, 1)
    ensures Allocate(c, s, 1).Granted? ==>
      Storable(Allocate(c, s, 1).c, l, s, p, Allocate(c, s, 1).blocks[0])
  {
    hide Allocate, Inv;
    AllocateStep(c, s, 1);
    var a := Allocate(c, s, 1);
    if a.Granted? {
      assert a.blocks[0] in a.blocks && FreshBlock(a.c, a.blocks[0]);
      AllShaped(a.c);
    }
  }

  lemma ReturnReady(c: Cache, s: int)
    requires Core(c) && s in c.owned
    ensures var order := Reverse(c.owned[s]);
      Distinct(order) && forall b :: b in order ==> 0 < b < |c.pool.refs| && c.pool.refs[b] > 0
  {
    ReverseElements(c.owned[s]);
    forall b | b in Reverse(c.owned[s])
      ensures 0 < b < |c.pool.refs| && c.pool.refs[b] > 0
    {
      OwnedIsReferenced(c, s, b);
    }
  }

  lemma WholeTableSize(c: Cache)
    requires Inv(c)
    ensures |c.table| == |c.lens| == c.cfg.maxSeqs && |c.cells| == |c.pool.refs| == |c.pool.tags|
    ensures forall s :: 0 <= s < |c.table| ==> |c.table[s]| == c.cfg.maxBlocks
  {
    TableSize(c);
  }

  lemma AllShaped(c: Cache)
    requires Inv(c)
    ensures Shape(c)
  {
  }

  lemma FreeingEvictsNobody(c: Cache, s: int)
    ensures FreeSequence(c, s).evicted == c.evicted
  {
  }

  lemma LoopEnds(c: Cache, needed: int, freed: int, protect: int)
    requires freed >= needed || c.lru.heap == []
    ensures EvictLoop(c, needed, freed, protect) == Evicted(c, freed)
  {
  }

  lemma StoreSide(c: Cache, l: int, s: int, p: nat, b: int, v: KV)
    ensures var d := Store(c, l, s, p, b, v); d.lru == c.lru && d.swap == c.swap && d.cfg == c.cfg && d.owned == c.owned
  {
  }

  ghost function BlockRows(c: Cache, s: int, l: int, i: nat): seq<KV> {
    var b := TableEntry(c, s, i);
    if 0 <= b < |c.cells| && 0 <= l < |c.cells[b]| then c.cells[b][l] else seq(c.cfg.blockSize, o => c.cfg.zero)
  }

  lemma BlockRowsAre(c: Cache, s: int, l: int, i: nat)
    requires Core(c) && 0 <= s < c.cfg.maxSeqs && i < c.cfg.maxBlocks && 0 <= l < c.cfg.layers
    ensures |BlockRows(c, s, l, i)| == c.cfg.blockSize
    ensures var b := TableEntry(c, s, i);
      if b >= 0 then b < |c.cells| && l < |c.cells[b]| && BlockRows(c, s, l, i) == c.cells[b][l]
      else forall o :: 0 <= o < c.cfg.blockSize ==> BlockRows(c, s, l, i)[o] == c.cfg.zero
  {
    EntryIs(c, s, i);
    if i < |Blocks(c, s)| { assert HasShape(c.cells[Blocks(c, s)[i]], c.cfg); }
  }

  lemma ViewInBlock(c: Cache, s: int, l: int, i: nat)
    requires Core(c) && 0 <= s < c.cfg.maxSeqs && i < c.cfg.maxBlocks && 0 <= l < c.cfg.layers
    ensures |BlockRows(c, s, l, i)| == c.cfg.blockSize
    ensures forall p :: i * c.cfg.blockSize <= p < i * c.cfg.blockSize + c.cfg.blockSize ==>
      View(c, s, l, p) == BlockRows(c, s, l, i)[p - i * c.cfg.blockSize]
  {
    hide Core, TableEntry, Quot, Rem;
    BlockRowsAre(c, s, l, i);
    forall p | i * c.cfg.blockSize <= p < i * c.cfg.blockSize + c.cfg.blockSize
      ensures View(c, s, l, p) == BlockRows(c, s, l, i)[p - i * c.cfg.blockSize]
    {
      QuotUnique(p, i, p - i * c.cfg.blockSize, c.cfg.blockSize);
    }
  }

  lemma RoomForRemainder(n: nat, blocks: nat, bs: pos)
    requires n <= blocks * bs && Rem(n, bs) != 0
    ensures Quot(n, bs) < blocks
  {
    Decompose(n, bs);
    if blocks <= Quot(n, bs) { BlockStart(blocks, Quot(n, bs), bs); }
  }

  lemma LengthIs(c: Cache, s: int)
    requires Inv(c) && 0 <= s < c.cfg.maxSeqs
    ensures |c.lens| == c.cfg.maxSeqs && c.lens[s] == Length(c, s) >= 0
  {
  }

  // The sequence has all these logical blocks.
  ghost predicate Listed(c: Cache, s: int, indices: seq<nat>) {
    forall k :: 0 <= k < |indices| ==> indices[k] < |Blocks(c, s)|
  }

  lemma ListedFits(c: Cache, s: int, indices: seq<nat>)
    requires Core(c) && 0 <= s < c.cfg.maxSeqs && Listed(c, s, indices)
    ensures forall k :: 0 <= k < |indices| ==> indices[k] < c.cfg.maxBlocks
  {
  }

  lemma CowEntry(c: Cache, s: int, indices: seq<nat>, k: nat)
    requires Core(c) && 0 <= s < c.cfg.maxSeqs && Sorted(indices) && Listed(c, s, indices) && k < |indices|
    ensures TableEntry(c, s, indices[k]) == Blocks(c, s)[indices[k]] > 0
    ensures var d := CowIfShared(c, s, indices[k], TableEntry(c, s, indices[k])).0;
      && Core(d) && Listed(d, s, indices) && d.cfg == c.cfg
      && forall j :: k < j < |indices| ==> TableEntry(d, s, indices[j]) == TableEntry(c, s, indices[j])
  {
    hide Core, CowIfShared;
    ListedFits(c, s, indices);
    var i := indices[k];
    EntryIs(c, s, i);
    CowTarget(c, s, i, Blocks(c, s)[i]);
    CowKeepsOthers(c, s, i);
    var d := CowIfShared(c, s, i, Blocks(c, s)[i]).0;
    forall j | k < j < |indices| ensures TableEntry(d, s, indices[j]) == TableEntry(c, s, indices[j]) {
      EntryIs(c, s, indices[j]);
      EntryIs(d, s, indices[j]);
    }
  }

  // Where the rows of a batch are stored.
  ghost predicate Routes(c: Cache, s: int, positions: seq<nat>, rows: seq<KV>, b: Batch)
    requires |positions| == |rows|
  {
    && |b.targets| == |b.offsets| == |positions| && b.rows == rows
    && (forall t :: 0 <= t < |positions| ==> b.targets[t] == TableEntry(c, s, Quot(positions[t], c.cfg.blockSize)))
    && (forall t :: 0 <= t < |positions| ==> b.offsets[t] == Rem(positions[t], c.cfg.blockSize))
  }

  lemma RoutesFit(c: Cache, s: int, positions: seq<nat>, rows: seq<KV>, b: Batch)
    requires Core(c) && 0 <= s < c.cfg.maxSeqs && 0 <= b.l < c.cfg.layers && |positions| == |rows|
    requires Routes(c, s, positions, rows, b) && Listed(c, s, BlockIndices(positions, c.cfg.blockSize))
    ensures Fits(b, c.cells, c.cfg)
  {
    assert Shape(c);
    hide Core;
    var indices := BlockIndices(positions, c.cfg.blockSize);
    BlockIndicesAre(positions, c.cfg.blockSize);
    ListedFits(c, s, indices);
    forall t | 0 <= t < |positions| ensures 0 <= b.targets[t] < |c.cells| {
      var i := Quot(positions[t], c.cfg.blockSize);
      assert i in indices;
      var k :| 0 <= k < |indices| && indices[k] == i;
      EntryIs(c, s, i);
    }
  }

  lemma {:induction false} RoutedCells(c: Cache, l: int, s: int, positions: seq<nat>, rows: seq<KV>, b: Batch, k: nat)
    requires k <= |positions| == |rows| && Routes(c, s, positions, rows, b) && b.l == l
    requires forall t :: 0 <= t < k ==> b.targets[t] >= 0
    ensures StoreCells(c, l, s, positions, rows, k) == InOrder(c.cells, b, k)
  {
    if k > 0 { RoutedCells(c, l, s, positions, rows, b, k - 1); }
  }

  lemma BatchFields(c: Cache, l: int, s: int, positions: seq<nat>, rows: seq<KV>, b: Batch)
    requires Core(c) && 0 <= s < c.cfg.maxSeqs && |positions| == |rows| && Routes(c, s, positions, rows, b) && b.l == l
    requires forall t :: 0 <= t < |positions| ==> b.targets[t] >= 0
    ensures |c.lens| == c.cfg.maxSeqs
    ensures var d := StoreBatch(c, l, s, positions, rows);
      && d ==
         c.(cells := InOrder(c.cells, b, |b.rows|), lens := c.lens[s := Max(c.lens[s], MaxPosition(positions) + 1)])
      && Touch(d, s) == d.(lru := Touch(d, s).lru)
  {
    RoutedCells(c, l, s, positions, rows, b, |positions|);
    hide StoreCells, InOrder;
  }

  lemma PutCore(c: Cache, l: int, s: int, p: nat, b: int, v: KV)
    requires Core(c) && 0 < b < c.cfg.numBlocks && c.pool.refs[b] > 0
    ensures Core(c.(cells := Put(c.cells, b, l, Rem(p, c.cfg.blockSize), v)))
  {
    StoreCore(c, l, s, p, b, v);
    assert Shape(c);
    hide Core, Put;
    var f := Store(c, l, s, p, b, v);
    CoreBeside(f, f.(lens := c.lens));
    assert f.(lens := c.lens) == c.(cells := Put(c.cells, b, l, Rem(p, c.cfg.blockSize), v));
  }

  lemma {:induction false} StoreCellsCore(c: Cache, l: int, s: int, positions: seq<nat>, rows: seq<KV>, k: nat)
    requires Core(c) && 0 <= s < c.cfg.maxSeqs && k <= |positions| == |rows|
    requires forall t :: 0 <= t < k ==> Quot(positions[t], c.cfg.blockSize) < |Blocks(c, s)|
    ensures Core(c.(cells := StoreCells(c, l, s, positions, rows, k)))
  {
    if k > 0 {
      assert |Blocks(c, s)| <= c.cfg.maxBlocks;
      hide Core, Put, TableEntry;
      StoreCellsCore(c, l, s, positions, rows, k - 1);
      var d := c.(cells := StoreCells(c, l, s, positions, rows, k - 1));
      var i := Quot(positions[k - 1], c.cfg.blockSize);
      EntryIs(c, s, i);
      PutCore(d, l, s, positions[k - 1], TableEntry(c, s, i), rows[k - 1]);
    }
  }

  // Copying the shared blocks of a batch keeps everything else.
  ghost predicate CowFrame(c: Cache, d: Cache, s: int) {
    && d.cfg == c.cfg && d.lru == c.lru && d.swap == c.swap && d.owned.Keys == c.owned.Keys
    && |Blocks(d, s)| == |Blocks(c, s)|
  }

  lemma CowHead(c: Cache, s: int, indices: seq<nat>) returns (d: Cache)
    requires Core(c) && 0 <= s < c.cfg.maxSeqs && Sorted(indices) && Listed(c, s, indices) && indices != []
    ensures CowEach(c, s, indices) == CowEach(d, s, indices[1..])
    ensures Core(d) && CowFrame(c, d, s) && Sorted(indices[1..]) && Listed(d, s, indices[1..])
  {
    hide Core, CowIfShared;
    var i := indices[0];
    CowEntry(c, s, indices, 0);
    ListedFits(c, s, indices);
    EntryIs(c, s, i);
    CowTarget(c, s, i, Blocks(c, s)[i]);
    CowKeepsOthers(c, s, i);
    d := CowIfShared(c, s, i, Blocks(c, s)[i]).0;
  }

  lemma {:induction false} CowEachKeeps(c: Cache, s: int, indices: seq<nat>)
    requires Core(c) && 0 <= s < c.cfg.maxSeqs && Sorted(indices) && Listed(c, s, indices)
    ensures Core(CowEach(c, s, indices)) && CowFrame(c, CowEach(c, s, indices), s)
    decreases |indices|
  {
    if indices != [] {
      hide Core, CowEach, Sorted, Listed;
      var d := CowHead(c, s, indices);
      CowEachKeeps(d, s, indices[1..]);
    } else {
      assert CowEach(c, s, indices) == c;
    }
  }

  lemma BatchKeeps(c: Cache, l: int, s: int, positions: seq<nat>, rows: seq<KV>)
    requires Inv(c) && 0 <= l < c.cfg.layers && 0 <= s < c.cfg.maxSeqs && |positions| == |rows|
    requires Listed(c, s, BlockIndices(positions, c.cfg.blockSize))
    ensures Core(c) && Inv(WriteBatchBlocks(c, l, s, positions, rows))
    ensures var d := CowEach(c, s, BlockIndices(positions, c.cfg.blockSize));
      Core(d) && Listed(d, s, BlockIndices(positions, c.cfg.blockSize)) && d.cfg == c.cfg
  {
    assert Core(c);
    hide Core, LruOk, SwapOk, Touch, CowEach, StoreCells;
    var indices := BlockIndices(positions, c.cfg.blockSize);
    BlockIndicesAre(positions, c.cfg.blockSize);
    CowEachKeeps(c, s, indices);
    var d := CowEach(c, s, indices);
    forall t | 0 <= t < |positions| ensures Quot(positions[t], c.cfg.blockSize) < |Blocks(d, s)| {
      var i := Quot(positions[t], c.cfg.blockSize);
      assert i in indices;
      var k :| 0 <= k < |indices| && indices[k] == i;
    }
    StoreCellsCore(d, l, s, positions, rows, |positions|);
    TableSize(d);
    LensOk(d);
    MaxPositionIs(positions);
    var e, f := d.(cells := StoreCells(d, l, s, positions, rows, |positions|)), StoreBatch(d, l, s, positions, rows);
    CoreBeside(e, f);
    SideFrame(c, f);
    TouchStep(f, s);
  }

  lemma LensOk(c: Cache)
    requires Core(c)
    ensures forall t :: 0 <= t < |c.lens| ==> c.lens[t] >= 0
  {
  }

  // The batch continues the sequence without a gap.
  ghost predicate Continues(c: Cache, s: int, positions: seq<nat>) {
    var indices := BlockIndices(positions, c.cfg.blockSize);
    var missing := Missing(c, s, indices);
    && |Blocks(c, s)| + missing <= c.cfg.maxBlocks
    && (forall i :: i in indices ==> i < |Blocks(c, s)| + missing)
    && (missing > 0 ==> MayGrow(c, s, missing) && !Stuck(c, s, missing))
  }

  lemma BatchStart(c: Cache, s: int, positions: seq<nat>)
    requires Core(c) && 0 <= s < c.cfg.maxSeqs && Continues(c, s, positions) && positions != []
    ensures var indices := BlockIndices(positions, c.cfg.blockSize);
      && (forall k :: 0 <= k < |indices| ==> indices[k] < c.cfg.maxBlocks)
      && (Missing(c, s, indices) == 0 ==> Listed(c, s, indices) && s in c.owned)
  {
    hide Core, Missing, Stuck, MayGrow;
    var indices := BlockIndices(positions, c.cfg.blockSize);
    BlockIndicesAre(positions, c.cfg.blockSize);
    assert forall k :: 0 <= k < |indices| ==> indices[k] in indices;
    assert Quot(positions[0], c.cfg.blockSize) in indices;
  }

  lemma BatchGrows(c: Cache, s: int, positions: seq<nat>)
    requires Inv(c) && 0 <= s < c.cfg.maxSeqs && Continues(c, s, positions)
    requires Missing(c, s, BlockIndices(positions, c.cfg.blockSize)) > 0
    ensures var indices := BlockIndices(positions, c.cfg.blockSize); var n := Missing(c, s, indices);
      && MayGrow(c, s, n) && !Stuck(c, s, n)
      && (Allocate(c, s, n).Granted? ==> s in Allocate(c, s, n).c.owned && Listed(Allocate(c, s, n).c, s, indices)
                                         && Allocate(c, s, n).c.cfg == c.cfg)
  {
    hide Inv, Missing, Stuck, Allocate;
    var indices := BlockIndices(positions, c.cfg.blockSize);
    AllocateStep(c, s, Missing(c, s, indices));
    assert forall k :: 0 <= k < |indices| ==> indices[k] in indices;
  }

  lemma FullFits(tokens: seq<int>, n: nat, bs: pos)
    ensures n <= Quot(|tokens|, bs) <==> n * bs <= |tokens|
  {
    var full := Quot(|tokens|, bs);
    Decompose(|tokens|, bs);
    if n <= full {
      BlockStart(n, full, bs);
    } else {
      NextBlock(full, bs);
      BlockStart(full + 1, n, bs);
    }
  }

  // One more block adopted.
  lemma ReuseTurn(c: Cache, s: int, ns: Namespace, tokens: seq<int>, i: nat, b: int)
    requires Core(c) && c.pool.caching && 0 <= s < c.cfg.maxSeqs
    requires Quot(|tokens|, c.cfg.blockSize) <= c.cfg.maxBlocks
    requires i * c.cfg.blockSize <= |tokens| && Follows(c, s, ns, tokens, i)
    requires (i + 1) * c.cfg.blockSize <= |tokens|
    requires Lookup(c.pool, Chain(ns, tokens, c.cfg.blockSize, i + 1).value) == Some(b)
    ensures 0 < b < |c.pool.refs| && i < c.cfg.maxBlocks
    ensures var d := Adopt(c, s, i, b);
      && Core(d) && Follows(d, s, ns, tokens, i + 1) && d.cfg == c.cfg && d.pool.caching
      && ReuseFrom(c, s, ns, tokens, i) == ReuseFrom(d, s, ns, tokens, i + 1)
  {
    TableSize(c);
    hide Core, Follows, Chain;
    AdoptStep(c, s, ns, tokens, i, b);
    AdoptedIsNew(c, s, ns, tokens, i, b);
    RoomForNext(i, |tokens|, c.cfg.blockSize);
  }

  lemma ReuseStops(c: Cache, s: int, ns: Namespace, tokens: seq<int>, i: nat)
    requires i * c.cfg.blockSize <= |tokens|
    requires (i + 1) * c.cfg.blockSize <= |tokens| ==>
      Lookup(c.pool, Chain(ns, tokens, c.cfg.blockSize, i + 1).value).None?
    ensures ReuseFrom(c, s, ns, tokens, i) == (c, i)
  {
  }

  lemma ReuseKeeps(c: Cache, s: int, ns: Namespace, tokens: seq<int>)
    requires Inv(c) && 0 <= s < c.cfg.maxSeqs && s !in c.swap.out && Blocks(c, s) == []
    requires Quot(|tokens|, c.cfg.blockSize) <= c.cfg.maxBlocks
    ensures Core(c) && Inv(TryReusePrefix(c, s, ns, tokens).0)
  {
    var n := TryReusePrefixStep(c, s, ns, tokens);
  }

  lemma RegisterKeeps(c: Cache, s: int, ns: Namespace, tokens: seq<int>)
    requires Inv(c)
    ensures Core(c) && Inv(RegisterPrefixBlocks(c, s, ns, tokens))
  {
    var d := RegisterPrefixBlocks(c, s, ns, tokens);
    if c.pool.caching {
      hide Core;
      RegisterCore(c, s, ns, tokens, FullBlocks(c, s, tokens));
      assert d == c.(pool := d.pool);
      SideFrame(c, d);
    }
  }

  lemma RegisterNone(c: Cache, s: int, ns: Namespace, tokens: seq<int>)
    ensures RegisterUpTo(c, s, ns, tokens, 0) == c
  {
  }

  lemma RegisterTurn(c: Cache, s: int, ns: Namespace, tokens: seq<int>, i: nat)
    requires Inv(c) && (i + 1) * c.cfg.blockSize <= |tokens| && i < |Blocks(c, s)| && i * c.cfg.blockSize <= |tokens|
    ensures var d := RegisterUpTo(c, s, ns, tokens, i); var b := Blocks(c, s)[i];
      && 0 <= b < |d.pool.refs| == |d.pool.tags|
      && RegisterUpTo(c, s, ns, tokens, i + 1) ==
         d.(pool := Register(d.pool, b, Chain(ns, tokens, c.cfg.blockSize, i + 1).value))
  {
    TableSize(c);
    ListInRange(c, s, i);
    hide Inv, Core, Register;
  }

  // Copying one block more.
  lemma {:induction false} CopyMore(dst: seq<Content>, to: seq<int>, src: seq<Content>, from: seq<int>, t: int, f: int)
    requires |to| == |from| && 0 <= f < |src| && 0 <= t < |dst|
    ensures CopyBlocks(dst, to + [t], src, from + [f]) == CopyBlocks(dst, to, src, from)[t := src[f]]
  {
    assert (to + [t])[..|to|] == to && (from + [f])[..|from|] == from;
  }

  lemma ClearMore(row: seq<int>, i: nat)
    requires i < |row|
    ensures ClearRow(row, i + 1) == ClearRow(row, i)[i := -1]
  {
  }

  lemma SetMore(row: seq<int>, i: nat, ids: seq<int>)
    requires i < |ids| <= |row|
    ensures SetRow(row, 0, ids[..i + 1]) == SetRow(row, 0, ids[..i])[i := ids[i]]
  {
  }

  lemma {:induction false} CopiedShape(cfg: Config, dst: seq<Content>, to: seq<int>, src: seq<Content>, from: seq<int>)
    requires |to| == |from| && Shaped(dst, cfg) && Shaped(src, cfg)
    ensures Shaped(CopyBlocks(dst, to, src, from), cfg)
  {
    if to != [] { CopiedShape(cfg, dst, to[..|to| - 1], src, from[..|to| - 1]); }
  }

  lemma SwapOutReady(c: Cache, s: int)
    requires Inv(c) && s !in c.swap.out && CanSwapOut(c, s)
    ensures s in c.owned && 0 <= s < |c.table| == |c.lens| && |c.owned[s]| <= |c.table[s]|
    ensures Core(c) && Shaped(c.cells, c.cfg) && Shaped(c.swap.cells, c.cfg)
    ensures Swapping.Within(c.owned[s], |c.cells|) && Swapping.Within(c.swap.free, |c.swap.cells|)
    ensures Inv(SwapOut(c, s))
  {
    Swapping.SwapOutStep(c, s);
    Swapping.ListWithin(c, s);
    assert forall i :: 0 <= i < |c.swap.free| ==> c.swap.free[i] in c.swap.free;
  }

  lemma SwapOutFields(c: Cache, s: int, cpu: seq<int>)
    requires CanSwapOut(c, s) && 0 <= s < |c.lens|
    requires |cpu| == |Blocks(c, s)| && forall j :: 0 <= j < |cpu| ==> cpu[j] == c.swap.free[|c.swap.free| - 1 - j]
    ensures var blocks := Blocks(c, s);
      SwapOut(c, s) == c.(pool := Release(c.pool, Reverse(blocks)), dirty := c.dirty + Elements(blocks),
         table := Upd(c.table, s, ClearRow(RowOf(c, s), |blocks|)), owned := c.owned - {s}, lens := c.lens[s := 0],
         swap := c.swap.(cells := CopyBlocks(c.swap.cells, cpu, c.cells, blocks),
                         free := c.swap.free[..|c.swap.free| - |blocks|],
                         out := c.swap.out[s := Stashed(cpu, c.lens[s])]))
  {
    hide CopyBlocks, Release, ClearRow, RowOf, Reverse;
    CpuOrder(c.swap.free, cpu);
  }

  lemma CpuOrder(free: seq<int>, cpu: seq<int>)
    requires |cpu| <= |free| && forall j :: 0 <= j < |cpu| ==> cpu[j] == free[|free| - 1 - j]
    ensures Reverse(free[|free| - |cpu|..]) == cpu
  {
  }

  lemma SwapInReady(c: Cache, s: int)
    requires Inv(c) && CanSwapIn(c, s)
    ensures 0 <= s < |c.table| == |c.lens| && |c.swap.out[s].blocks| <= |c.table[s]|
    ensures Core(c) && Shaped(c.cells, c.cfg) && Shaped(c.swap.cells, c.cfg)
    ensures Swapping.Within(c.swap.out[s].blocks, |c.swap.cells|)
    ensures Swapping.Within(c.pool.free, |c.cells|)
    ensures Inv(SwapIn(c, s))
  {
    Swapping.SwapInStep(c, s);
    assert StashOk(c, s, c.swap.out[s]);
    assert forall i :: 0 <= i < |c.swap.out[s].blocks| ==> c.swap.out[s].blocks[i] in c.swap.out[s].blocks;
    assert forall i :: 0 <= i < |c.pool.free| ==> c.pool.free[i] in c.pool.free;
  }

  lemma SwapInFields(c: Cache, s: int)
    requires CanSwapIn(c, s) && 0 <= s < |c.lens|
    ensures var d := Swapping.Restored(c, s); SwapIn(c, s) == Touch(d, s) == d.(lru := Touch(d, s).lru)
  {
    TouchOnly(Swapping.Restored(c, s), s);
    hide Touch, Take, CopyBlocks, SetRow;
  }

  lemma {:induction false} InOrderCore(c: Cache, b: Batch, k: nat)
    requires Core(c) && |b.targets| == |b.offsets| == |b.rows| && k <= |b.rows|
    requires forall t :: 0 <= t < k ==>
      && 0 < b.targets[t] < c.cfg.numBlocks && b.targets[t] < |c.pool.refs| && c.pool.refs[b.targets[t]] > 0
      && b.offsets[t] < c.cfg.blockSize
    ensures Core(c.(cells := InOrder(c.cells, b, k)))
  {
    if k > 0 {
      hide Core, Put;
      InOrderCore(c, b, k - 1);
      QuotUnique(b.offsets[k - 1], 0, b.offsets[k - 1], c.cfg.blockSize);
      PutCore(c.(cells := InOrder(c.cells, b, k - 1)), b.l, 0, b.offsets[k - 1], b.targets[k - 1], b.rows[k - 1]);
    }
  }

  lemma HeldKeeps(c: Cache, b: Batch)
    requires Inv(c) && |b.targets| == |b.offsets| == |b.rows| && 0 <= b.l < c.cfg.layers
    requires forall t :: 0 <= t < |b.rows| ==>
      && 0 < b.targets[t] < c.cfg.numBlocks && b.targets[t] < |c.pool.refs| && c.pool.refs[b.targets[t]] > 0
      && b.offsets[t] < c.cfg.blockSize
    ensures Fits(b, c.cells, c.cfg) && Inv(c.(cells := InOrder(c.cells, b, |b.rows|)))
  {
    InOrderCore(c, b, |b.rows|);
    SideFrame(c, c.(cells := InOrder(c.cells, b, |b.rows|)));
  }

  ghost predicate Batched(c: Cache, ids: seq<int>) {
    |c.lens| == c.cfg.maxSeqs && forall i :: 0 <= i < |ids| ==> 0 <= ids[i] < c.cfg.maxSeqs
  }

  lemma {:induction false} ScatterSigns(lens: seq<int>, ids: seq<int>, values: seq<int>)
    requires |ids| <= |values| && (forall i :: 0 <= i < |ids| ==> values[i] >= 0)
    requires forall t :: 0 <= t < |lens| ==> lens[t] >= 0
    ensures forall t :: 0 <= t < |lens| ==> Scatter(lens, ids, values)[t] >= 0
  {
    if ids != [] { ScatterSigns(lens, ids[..|ids| - 1], values); }
  }

  lemma ScatterKeeps(c: Cache, ids: seq<int>, values: seq<int>)
    requires Inv(c) && |ids| <= |values| && forall i :: 0 <= i < |ids| ==> values[i] >= 0
    ensures Inv(c.(lens := Scatter(c.lens, ids, values)))
  {
    LensOk(c);
    ScatterSigns(c.lens, ids, values);
    hide Core;
    CoreBeside(c, c.(lens := Scatter(c.lens, ids, values)));
    SideFrame(c, c.(lens := Scatter(c.lens, ids, values)));
  }

  lemma ListedTarget(c: Cache, s: int, p: nat)
    requires Core(c) && 0 <= s < c.cfg.maxSeqs && Quot(p, c.cfg.blockSize) < |Blocks(c, s)|
    ensures Quot(p, c.cfg.blockSize) < c.cfg.maxBlocks
    ensures Target(RowOf(c, s), p, c.cfg.blockSize) == TableEntry(c, s, Quot(p, c.cfg.blockSize)) > 0
  {
    EntryIs(c, s, Quot(p, c.cfg.blockSize));
  }

  lemma {:induction false} DecodeInOrder(cells: seq<Content>, bs: pos, l: int, table: seq<seq<int>>,
                                         positions: seq<nat>, rows: seq<KV>, b: Batch, k: nat)
    requires k <= |positions| == |rows| == |b.targets| == |b.offsets| && |rows| <= |table| && b.l == l && b.rows == rows
    requires forall t :: 0 <= t < |positions| ==>
      b.targets[t] == Target(table[t], positions[t], bs) && b.offsets[t] == Rem(positions[t], bs)
    ensures DecodeCells(cells, bs, l, table, positions, rows, k) == InOrder(cells, b, k)
  {
    if k > 0 { DecodeInOrder(cells, bs, l, table, positions, rows, b, k - 1); }
  }

  lemma DummyKeeps(c: Cache)
    requires Inv(c) && c.dummy.None? && |c.pool.free| > 0
    ensures InitGraphBuffers(c).Some? && Inv(InitGraphBuffers(c).value)
    ensures 0 <= c.pool.free[0] < |c.cells| && HasShape(c.cells[c.pool.free[0]], c.cfg)
    ensures c.pool.free[..1] == [c.pool.free[0]]
  {
    CacheRun.GraphOnStep(c);
    assert c.pool.free[0] in c.pool.free;
  }
}
