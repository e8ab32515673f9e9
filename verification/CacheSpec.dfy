// The paged KV cache on values (tr_hash_i64/core/kv_cache.py). Every function
// is what one call of the source computes; the class in PagedCache.dfy is
// proved to compute these functions, and the theorems are about them.
module CacheSpec {
  import opened Prelude
  import opened Hashing
  import opened PoolSpec

  // One cell holds the key and the value row of one position in one layer.
  datatype KV = KV(key: seq<real>, value: seq<real>)

  // A physical block: layer by layer, offset by offset.
  type Content = seq<seq<KV>>

  datatype Config = Config(
    layers: nat, blockSize: pos, numBlocks: nat, maxSeqs: nat, maxBlocks: nat,
    zero: KV, lruEviction: bool)

  datatype Entry = Entry(tick: int, seqId: int)
  datatype Lru = Lru(clock: int, last: map<int, int>, heap: seq<Entry>)
  datatype Stashed = Stashed(blocks: seq<int>, len: int)
  datatype Swap = Swap(enabled: bool, cells: seq<Content>, free: seq<int>, out: map<int, Stashed>)

  datatype Cache = Cache(
    cfg: Config,
    pool: Pool,
    cells: seq<Content>,          // physical KV tensors
    table: seq<seq<int>>,         // block_table
    lens: seq<int>,               // seq_lens
    owned: map<int, seq<int>>,    // _seq_blocks
    dirty: set<int>,              // _dirty_blocks
    lru: Lru,
    pinned: set<int>,
    evicted: seq<int>,            // _evicted_seq_ids
    swap: Swap,
    dummy: Option<int>)           // _graph_dummy_block_id

  function Blocks(c: Cache, s: int): seq<int> {
    if s in c.owned then c.owned[s] else []
  }

  // ---- Small total updates ----

  function Upd<T>(s: seq<T>, i: int, v: T): (r: seq<T>)
    ensures |r| == |s|
  {
    if 0 <= i < |s| then s[i := v] else s
  }

  function SetRow(row: seq<int>, start: int, ids: seq<int>): (r: seq<int>)
    ensures |r| == |row|
  {
    seq(|row|, i requires 0 <= i < |row| => if start <= i < start + |ids| then ids[i - start] else row[i])
  }

  function ClearRow(row: seq<int>, n: int): (r: seq<int>)
    ensures |r| == |row|
  {
    seq(|row|, i requires 0 <= i < |row| => if i < n then -1 else row[i])
  }

  function RowOf(c: Cache, s: int): seq<int> {
    if 0 <= s < |c.table| then c.table[s] else []
  }

  function ZeroContent(cfg: Config): Content {
    seq(cfg.layers, l => seq(cfg.blockSize, o => cfg.zero))
  }

  predicate HasShape(content: Content, cfg: Config) {
    |content| == cfg.layers && forall l :: 0 <= l < |content| ==> |content[l]| == cfg.blockSize
  }

  function Put(cells: seq<Content>, b: int, l: int, o: int, v: KV): (r: seq<Content>)
    ensures |r| == |cells|
  {
    if 0 <= b < |cells| && 0 <= l < |cells[b]| && 0 <= o < |cells[b][l]|
    then cells[b := cells[b][l := cells[b][l][o := v]]] else cells
  }

  function Reverse<T>(s: seq<T>): (r: seq<T>)
    ensures |r| == |s|
    ensures forall i :: 0 <= i < |s| ==> r[i] == s[|s| - 1 - i]
  {
    seq(|s|, i requires 0 <= i < |s| => s[|s| - 1 - i])
  }

  // ---- Sequence-level LRU ----

  predicate Before(e: Entry, f: Entry) {
    e.tick < f.tick || (e.tick == f.tick && e.seqId < f.seqId)
  }

  // The heap as a pop-min queue, kept in ascending order.
  function HeapPush(heap: seq<Entry>, e: Entry): seq<Entry> {
    if heap == [] || Before(e, heap[0]) then [e] + heap
    else [heap[0]] + HeapPush(heap[1..], e)
  }

  predicate Current(c: Cache, e: Entry) {
    e.seqId in c.owned && e.seqId in c.lru.last && c.lru.last[e.seqId] == e.tick
  }

  function Compact(c: Cache, heap: seq<Entry>): seq<Entry> {
    if heap == [] then []
    else (if Current(c, heap[0]) then [heap[0]] else []) + Compact(c, heap[1..])
  }

  const COMPACT_FLOOR := 256

  function Touch(c: Cache, s: int): Cache {
    var tick := c.lru.clock + 1;
    var heap := HeapPush(c.lru.heap, Entry(tick, s));
    var d := c.(lru := Lru(tick, c.lru.last[s := tick], heap));
    if |heap| > Max(COMPACT_FLOOR, 4 * |c.owned|)
    then d.(lru := d.lru.(heap := Compact(d, heap))) else d
  }

  // ---- Freeing and eviction ----

  ghost function FreeSequence(c: Cache, s: int): Cache {
    var blocks := Blocks(c, s);
    var d := c.(owned := c.owned - {s}, lens := Upd(c.lens, s, 0),
                lru := c.lru.(last := c.lru.last - {s}));
    if blocks == [] then d
    else d.(pool := Release(c.pool, Reverse(blocks)),
            dirty := c.dirty + Elements(blocks),
            table := Upd(c.table, s, ClearRow(RowOf(c, s), |blocks|)))
  }

  datatype Eviction = Evicted(c: Cache, freed: int) | Spins

  predicate Held(c: Cache, protect: int, s: int) {
    s == protect || s in c.pinned
  }

  function Popped(c: Cache): Cache
    requires c.lru.heap != []
  {
    c.(lru := c.lru.(heap := c.lru.heap[1..]))
  }

  // The minimum is popped and its sequence freed.
  ghost function AfterVictim(c: Cache): Cache
    requires c.lru.heap != []
  {
    var s := c.lru.heap[0].seqId;
    FreeSequence(Popped(c), s).(evicted := c.evicted + [s])
  }

  // Pops the heap until enough blocks came free. A live minimum that is
  // pinned or protected is pushed back and popped again for ever: Spins.
  ghost function EvictLoop(c: Cache, needed: int, freed: int, protect: int): Eviction
    decreases |c.lru.heap|
  {
    if freed >= needed || c.lru.heap == [] then Evicted(c, freed)
    else if !Current(c, c.lru.heap[0]) then EvictLoop(Popped(c), needed, freed, protect)
    else if Held(c, protect, c.lru.heap[0].seqId) then Spins
    else
      EvictLoop(AfterVictim(c), needed, freed + |AfterVictim(c).pool.free| - |c.pool.free|, protect)
  }

  ghost function EvictLru(c: Cache, needed: int, protect: int): Eviction {
    EvictLoop(c.(evicted := []), needed, 0, protect)
  }

  // ---- Allocation ----

  datatype Allocation = Granted(c: Cache, blocks: seq<int>) | OutOfMemory(c: Cache) | NeverReturns

  function Wipe(c: Cache, taken: seq<int>): (r: seq<Content>)
    ensures |r| == |c.cells|
  {
    seq(|c.cells|, b requires 0 <= b < |c.cells| =>
      if b in taken && b in c.dirty then ZeroContent(c.cfg) else c.cells[b])
  }

  // Appends the first n queued blocks to a sequence, contents as they are.
  ghost function Assign(c: Cache, s: int, n: nat): Cache
    requires n <= |c.pool.free|
  {
    var taken := c.pool.free[..n];
    c.(pool := Take(c.pool, n),
       table := Upd(c.table, s, SetRow(RowOf(c, s), |Blocks(c, s)|, taken)),
       owned := c.owned[s := Blocks(c, s) + taken])
  }

  ghost function Grant(c: Cache, s: int, n: nat): Cache
    requires n <= |c.pool.free|
  {
    var taken := c.pool.free[..n];
    Touch(Assign(c, s, n).(cells := Wipe(c, taken), dirty := c.dirty - Elements(taken)), s)
  }

  // The rest of the call once the eviction loop has freed some blocks.
  ghost function AllocateAfter(d: Cache, s: int, n: nat, freed: int, deficit: int): Allocation {
    if freed < deficit || |d.pool.free| < n then OutOfMemory(d)
    else Granted(Grant(d, s, n), d.pool.free[..n])
  }

  ghost function Allocate(c: Cache, s: int, n: nat): (a: Allocation)
    ensures a.Granted? ==> |a.blocks| == n
  {
    if n <= |c.pool.free| then Granted(Grant(c, s, n), c.pool.free[..n])
    else if !c.cfg.lruEviction then OutOfMemory(c)
    else
      var deficit := n - |c.pool.free|;
      match EvictLru(c, deficit, s)
      case Spins => NeverReturns
      case Evicted(d, freed) => AllocateAfter(d, s, n, freed, deficit)
  }

  // ---- Writing and reading ----

  // Whether copy-on-write makes a private copy of block i of a sequence.
  predicate Copies(c: Cache, s: int, i: int) {
    && c.pool.caching && 0 <= i < |Blocks(c, s)|
    && 0 <= Blocks(c, s)[i] < |c.pool.refs| && c.pool.refs[Blocks(c, s)[i]] > 1
    && |c.pool.free| > 0
  }

  ghost function CowIfShared(c: Cache, s: int, i: int, physical: int): (r: (Cache, int)) {
    if !Copies(c, s, i) then (c, physical)
    else
      var copy := c.pool.free[0];
      var content := if 0 <= physical < |c.cells| then c.cells[physical] else [];
      (c.(pool := Release(Take(c.pool, 1), [Blocks(c, s)[i]]),
          cells := Upd(c.cells, copy, content),
          table := Upd(c.table, s, Upd(RowOf(c, s), i, copy)),
          owned := c.owned[s := Blocks(c, s)[i := copy]]), copy)
  }

  datatype Outcome = Done(c: Cache) | Failed(c: Cache) | Hangs

  ghost function Store(c: Cache, l: int, s: int, p: nat, physical: int, v: KV): Cache
  {
    c.(cells := Put(c.cells, physical, l, Rem(p, c.cfg.blockSize), v),
       lens := if 0 <= s < |c.lens| then c.lens[s := Max(c.lens[s], p + 1)] else c.lens)
  }

  ghost function WriteBlock(c: Cache, l: int, s: int, p: nat, physical: int, v: KV): Cache
  {
    var (d, target) := CowIfShared(c, s, Quot(p, c.cfg.blockSize), physical);
    Touch(Store(d, l, s, p, target, v), s)
  }

  ghost function WriteKv(c: Cache, l: int, s: int, p: nat, v: KV): Outcome
  {
    var i := Quot(p, c.cfg.blockSize);
    var physical := if i < |RowOf(c, s)| then RowOf(c, s)[i] else -1;
    if physical >= 0 then Done(WriteBlock(c, l, s, p, physical, v))
    else AfterAllocate(Allocate(c, s, 1), l, s, p, v)
  }

  ghost function AfterAllocate(a: Allocation, l: int, s: int, p: nat, v: KV): Outcome
    requires a.Granted? ==> |a.blocks| == 1
  {
    if a.NeverReturns? then Hangs
    else if a.OutOfMemory? then Failed(a.c)
    else Done(WriteBlock(a.c, l, s, p, a.blocks[0], v))
  }

  // ---- Batch writes ----

  // The distinct values of a sequence in ascending order.
  function InsertSorted(s: seq<nat>, x: nat): seq<nat> {
    if s == [] || x < s[0] then [x] + s
    else if x == s[0] then s
    else [s[0]] + InsertSorted(s[1..], x)
  }

  function BlockIndices(positions: seq<nat>, bs: pos): seq<nat> {
    if positions == [] then []
    else InsertSorted(BlockIndices(positions[..|positions| - 1], bs), Quot(positions[|positions| - 1], bs))
  }

  function TableEntry(c: Cache, s: int, i: nat): int {
    if i < |RowOf(c, s)| then RowOf(c, s)[i] else -1
  }

  function Missing(c: Cache, s: int, indices: seq<nat>): nat {
    if indices == [] then 0
    else (if TableEntry(c, s, indices[0]) < 0 then 1 else 0) + Missing(c, s, indices[1..])
  }

  ghost function CowEach(c: Cache, s: int, indices: seq<nat>): Cache
    decreases |indices|
  {
    if indices == [] then c
    else
      var physical := TableEntry(c, s, indices[0]);
      CowEach(if physical >= 0 then CowIfShared(c, s, indices[0], physical).0 else c, s, indices[1..])
  }

  // A negative block index counts from the end of the tensor.
  function FromEnd(c: Cache, b: int): int {
    if b < 0 then |c.cells| + b else b
  }

  // The first k rows of the batch, stored one after the other.
  function StoreCells(c: Cache, l: int, s: int, positions: seq<nat>, rows: seq<KV>, k: nat): (r: seq<Content>)
    requires k <= |positions| == |rows|
    ensures |r| == |c.cells|
  {
    if k == 0 then c.cells
    else
      var p := positions[k - 1];
      Put(StoreCells(c, l, s, positions, rows, k - 1), FromEnd(c, TableEntry(c, s, Quot(p, c.cfg.blockSize))), l,
          Rem(p, c.cfg.blockSize), rows[k - 1])
  }

  function MaxPosition(positions: seq<nat>): int {
    if positions == [] then -1
    else Max(MaxPosition(positions[..|positions| - 1]), positions[|positions| - 1])
  }

  function StoreBatch(c: Cache, l: int, s: int, positions: seq<nat>, rows: seq<KV>): Cache
    requires |positions| == |rows|
  {
    c.(cells := StoreCells(c, l, s, positions, rows, |positions|),
       lens := if 0 <= s < |c.lens| then c.lens[s := Max(c.lens[s], MaxPosition(positions) + 1)] else c.lens)
  }

  ghost function WriteBatchBlocks(c: Cache, l: int, s: int, positions: seq<nat>, rows: seq<KV>): Cache
    requires |positions| == |rows|
  {
    Touch(StoreBatch(CowEach(c, s, BlockIndices(positions, c.cfg.blockSize)), l, s, positions, rows), s)
  }

  ghost function WriteKvBatch(c: Cache, l: int, s: int, positions: seq<nat>, rows: seq<KV>): Outcome
    requires |positions| == |rows|
  {
    if positions == [] then Done(c)
    else
      var missing := Missing(c, s, BlockIndices(positions, c.cfg.blockSize));
      if missing == 0 then Done(WriteBatchBlocks(c, l, s, positions, rows))
      else
        match Allocate(c, s, missing)
        case NeverReturns => Hangs
        case OutOfMemory(d) => Failed(d)
        case Granted(d, blocks) => Done(WriteBatchBlocks(d, l, s, positions, rows))
  }

  // What a reader sees at a position: the cell behind the block table, or
  // zero where no block is mapped.
  function View(c: Cache, s: int, l: int, p: int): KV
  {
    if 0 <= p then
      var b, o := TableEntry(c, s, Quot(p, c.cfg.blockSize)), Rem(p, c.cfg.blockSize);
      if 0 <= b < |c.cells| && 0 <= l < |c.cells[b]| && o < |c.cells[b][l]| then c.cells[b][l][o] else c.cfg.zero
    else c.cfg.zero
  }

  function Length(c: Cache, s: int): int {
    if 0 <= s < |c.lens| then c.lens[s] else 0
  }

  function ReadLength(c: Cache, s: int, maxLen: Option<nat>): nat {
    var n := if maxLen.Some? then Min(Length(c, s), maxLen.value) else Length(c, s);
    if n < 0 then 0 else n
  }

  function ReadKv(c: Cache, l: int, s: int, maxLen: Option<nat>): seq<KV>
  {
    seq(ReadLength(c, s, maxLen), p => View(c, s, l, p))
  }

  // ---- Prefix cache ----

  // The chained hash of the first n full blocks of a token list.
  function Chain(ns: Namespace, tokens: seq<int>, bs: pos, n: nat): Option<Hash>
    requires n * bs <= |tokens|
  {
    if n == 0 then None
    else
      assert (n - 1) * bs + bs == n * bs;
      Some(Hash(ns, Chain(ns, tokens, bs, n - 1), tokens[(n - 1) * bs..n * bs]))
  }

  ghost function Adopt(c: Cache, s: int, i: int, b: int): Cache
    requires 0 <= b < |c.pool.refs|
  {
    c.(pool := Share(c.pool, b),
       table := Upd(c.table, s, Upd(RowOf(c, s), i, b)),
       owned := c.owned[s := Blocks(c, s) + [b]])
  }

  // Adopts cached blocks from index i on until the first miss; also returns
  // how many blocks are reused in all.
  ghost function ReuseFrom(c: Cache, s: int, ns: Namespace, tokens: seq<int>, i: nat): (r: (Cache, nat))
    requires i * c.cfg.blockSize <= |tokens|
    ensures i <= r.1 && r.1 * c.cfg.blockSize <= |tokens| && r.0.cfg == c.cfg
    decreases |tokens| - i * c.cfg.blockSize
  {
    if (i + 1) * c.cfg.blockSize > |tokens| then (c, i)
    else
      match Lookup(c.pool, Chain(ns, tokens, c.cfg.blockSize, i + 1).value)
      case None => (c, i)
      case Some(b) =>
        if 0 <= b < |c.pool.refs| then ReuseFrom(Adopt(c, s, i, b), s, ns, tokens, i + 1) else (c, i)
  }

  ghost function TryReusePrefix(c: Cache, s: int, ns: Namespace, tokens: seq<int>): (r: (Cache, nat)) {
    if !c.pool.caching then (c, 0)
    else
      var (d, blocks) := ReuseFrom(c, s, ns, tokens, 0);
      if blocks == 0 then (d, 0)
      else (Touch(d.(lens := Upd(d.lens, s, blocks * c.cfg.blockSize)), s), blocks * c.cfg.blockSize)
  }

  // Tags the first n blocks of a sequence with the chained hashes.
  function RegisterUpTo(c: Cache, s: int, ns: Namespace, tokens: seq<int>, n: nat): (r: Cache)
    requires n * c.cfg.blockSize <= |tokens| && n <= |Blocks(c, s)|
    ensures r == c.(pool := r.pool) && r.pool.refs == c.pool.refs && |r.pool.tags| == |c.pool.tags|
    ensures r.pool.caching == c.pool.caching && r.pool.free == c.pool.free
  {
    if n == 0 then c
    else
      assert (n - 1) * c.cfg.blockSize + c.cfg.blockSize == n * c.cfg.blockSize;
      var d := RegisterUpTo(c, s, ns, tokens, n - 1);
      var b := Blocks(c, s)[n - 1];
      if 0 <= b < |d.pool.tags|
      then d.(pool := Register(d.pool, b, Chain(ns, tokens, c.cfg.blockSize, n).value)) else d
  }

  function FullBlocks(c: Cache, s: int, tokens: seq<int>): (n: nat)
    ensures n * c.cfg.blockSize <= |tokens| && n <= |Blocks(c, s)|
    ensures n == Quot(|tokens|, c.cfg.blockSize) || n == |Blocks(c, s)|
  {
    var full := Quot(|tokens|, c.cfg.blockSize);
    Decompose(|tokens|, c.cfg.blockSize);
    if full < |Blocks(c, s)| then full
    else
      BlockStart(|Blocks(c, s)|, full, c.cfg.blockSize);
      |Blocks(c, s)|
  }

  function RegisterPrefixBlocks(c: Cache, s: int, ns: Namespace, tokens: seq<int>): Cache {
    if !c.pool.caching then c else RegisterUpTo(c, s, ns, tokens, FullBlocks(c, s, tokens))
  }

  // ---- Swapping to the CPU ----

  // Copies source blocks to target blocks, pairwise in order.
  function CopyBlocks(dst: seq<Content>, to: seq<int>, src: seq<Content>, from: seq<int>): (r: seq<Content>)
    requires |to| == |from|
    ensures |r| == |dst|
  {
    if to == [] then dst
    else
      var n := |to| - 1;
      var part := CopyBlocks(dst, to[..n], src, from[..n]);
      if 0 <= from[n] < |src| then Upd(part, to[n], src[from[n]]) else part
  }

  predicate CanSwapOut(c: Cache, s: int) {
    c.swap.enabled && Blocks(c, s) != [] && |c.swap.free| >= |Blocks(c, s)|
  }

  ghost function SwapOut(c: Cache, s: int): Cache {
    if !CanSwapOut(c, s) then c
    else
      var blocks := Blocks(c, s);
      var n := |blocks|;
      var rest := |c.swap.free| - n;
      var cpu := Reverse(c.swap.free[rest..]);
      c.(pool := Release(c.pool, Reverse(blocks)),
         dirty := c.dirty + Elements(blocks),
         table := Upd(c.table, s, ClearRow(RowOf(c, s), n)),
         owned := c.owned - {s},
         lens := Upd(c.lens, s, 0),
         swap := c.swap.(cells := CopyBlocks(c.swap.cells, cpu, c.cells, blocks),
                         free := c.swap.free[..rest],
                         out := c.swap.out[s := Stashed(cpu, Length(c, s))]))
  }

  predicate CanSwapIn(c: Cache, s: int) {
    s in c.swap.out && |c.swap.out[s].blocks| <= |c.pool.free|
  }

  ghost function SwapIn(c: Cache, s: int): Cache {
    if !CanSwapIn(c, s) then c
    else
      var cpu := c.swap.out[s].blocks;
      var taken := c.pool.free[..|cpu|];
      Touch(
        c.(pool := Take(c.pool, |cpu|),
           cells := CopyBlocks(c.cells, taken, c.swap.cells, cpu),
           table := Upd(c.table, s, SetRow(RowOf(c, s), 0, taken)),
           owned := c.owned[s := taken],
           lens := Upd(c.lens, s, c.swap.out[s].len),
           swap := c.swap.(free := c.swap.free + cpu, out := c.swap.out - {s})), s)
  }

  // ---- Modes ----

  function EnablePrefixCaching(c: Cache): Cache {
    c.(pool := c.pool.(caching := true))
  }

  function EnableSwap(c: Cache, onCpu: bool): Cache {
    if onCpu then c
    else c.(swap := c.swap.(enabled := true,
                            cells := seq(c.cfg.numBlocks, b => ZeroContent(c.cfg)),
                            free := seq(c.cfg.numBlocks, b => b)))
  }

  // Sets one block aside for padded graph rows, the first time only.
  ghost function InitGraphBuffers(c: Cache): Option<Cache> {
    if c.dummy.Some? then Some(c)
    else if |c.pool.free| == 0 then None
    else
      var b := c.pool.free[0];
      Some(c.(pool := Take(c.pool, 1), cells := Upd(c.cells, b, ZeroContent(c.cfg)),
              dirty := c.dirty - {b}, dummy := Some(b)))
  }

  function Init(cfg: Config): Cache
    requires cfg.numBlocks > 0
  {
    Cache(cfg, Fresh(cfg.numBlocks, false),
          seq(cfg.numBlocks, b => ZeroContent(cfg)),
          seq(cfg.maxSeqs, s => seq(cfg.maxBlocks, i => -1)),
          seq(cfg.maxSeqs, s => 0),
          map[], {}, Lru(0, map[], []), {}, [],
          Swap(false, [], [], map[]), None)
  }
}
