// One theorem per call of the cache: the invariant survives, and readers see
// exactly the change the call is for.
module CacheSteps {
  import opened Prelude
  import opened Hashing
  import opened PoolSpec
  import opened CacheSpec
  import opened CacheInv
  import opened Lru
  import opened CacheView

  ghost predicate Inv(c: Cache) {
    Core(c) && LruOk(c) && SwapOk(c)
  }

  lemma InvCore(c: Cache)
    requires Inv(c)
    ensures Core(c)
  {
  }

  lemma TouchOnly(c: Cache, s: int)
    ensures Touch(c, s) == c.(lru := Touch(c, s).lru)
  {
  }

  lemma SwapFrame(c: Cache, d: Cache)
    requires SwapOk(c) && d.swap == c.swap && d.cfg == c.cfg
    requires forall s :: s in d.owned && s !in c.owned ==> s !in c.swap.out
    ensures SwapOk(d)
  {
    forall s | s in d.swap.out ensures StashOk(d, s, d.swap.out[s]) { assert StashOk(c, s, c.swap.out[s]); }
  }

  // The readings after a step that may have evicted sequences.
  ghost predicate OthersKept(c: Cache, d: Cache) {
    && (forall t, l, p :: View(d, t, l, p) == if Gone(c, d, t) then c.cfg.zero else View(c, t, l, p))
    && (forall t :: Length(d, t) == if Gone(c, d, t) then 0 else Length(c, t))
  }

  // ---- free_sequence ----

  lemma FreeSequenceStep(c: Cache, s: int)
    requires Inv(c)
    ensures Inv(FreeSequence(c, s))
    ensures forall t, l, p :: View(FreeSequence(c, s), t, l, p) == (if t == s then c.cfg.zero else View(c, t, l, p))
    ensures forall t :: Length(FreeSequence(c, s), t) == if t == s then 0 else Length(c, t)
  {
    FreeSequenceCore(c, s);
    FreeSequenceLru(c, s);
    SwapFrame(c, FreeSequence(c, s));
    DropsReads(c, FreeSequence(c, s), s);
  }

  // ---- allocate_blocks ----

  // What the eviction loop leaves behind when it ends.
  ghost predicate EvictMeets(c: Cache, needed: int, s: int, d: Cache, freed: int) {
    && Inv(d) && OthersKept(c, d) && Beside(c, d)
    && |d.pool.free| == |c.pool.free| + freed
    && (freed >= needed || d.owned == map[])
    && (forall t :: t in d.owned ==> t in c.owned && d.owned[t] == c.owned[t])
    && (s in c.owned ==> s in d.owned)
    && (forall t :: Gone(c, d, t) ==> !Held(c, s, t))
  }

  lemma EvictStep(c: Cache, needed: int, s: int)
    requires Inv(c) && EvictLru(c, needed, s).Evicted?
    ensures EvictMeets(c, needed, s, EvictLru(c, needed, s).c, EvictLru(c, needed, s).freed)
  {
    var k := EvictLruWorks(c, needed, s);
    var r := EvictLru(c, needed, s);
    VictimsLeaveTheRest(c, needed, s, k, r);
    VictimsOldestFirst(c, needed, s);
    EvictionReads(c, needed, s, k, r);
    SwapFrame(c, r.c);
    FreeAllFrame(c, Live(c)[..k]);
    assert forall t :: Gone(c, r.c, t) <==> t in r.c.evicted;
  }

  lemma {:induction false} FreeAllFrame(c: Cache, es: seq<Entry>)
    ensures FreeAll(c, es).dummy == c.dummy && FreeAll(c, es).pool.caching == c.pool.caching
    decreases |es|
  {
    if es != [] { FreeAllFrame(FreeSequence(c, es[0].seqId), es[1..]); }
  }

  ghost predicate MayGrow(c: Cache, s: int, n: nat) {
    0 <= s < c.cfg.maxSeqs && s !in c.swap.out && |Blocks(c, s)| + n <= c.cfg.maxBlocks
  }

  // What the caller of allocate_blocks gets: exactly n fresh zero blocks at
  // the end of its list, at the price of some evicted sequences at most.
  ghost predicate GrantedOk(c: Cache, d: Cache, s: int, n: nat, blocks: seq<int>) {
    && Inv(d) && OthersKept(c, d) && Beside(c, d)
    && |blocks| == n && s in d.owned && d.owned[s] == Blocks(c, s) + blocks
    && (forall t :: t in d.owned && t != s ==> t in c.owned && d.owned[t] == c.owned[t])
    && (forall b :: b in blocks ==> FreshBlock(d, b))
  }

  // Allocation leaves the configuration, the swap area and the modes alone.
  ghost predicate Beside(c: Cache, d: Cache) {
    d.cfg == c.cfg && d.swap == c.swap && d.dummy == c.dummy && d.pool.caching == c.pool.caching
  }

  ghost predicate FreshBlock(d: Cache, b: int) {
    0 < b < |d.cells| == |d.pool.refs| && d.cells[b] == ZeroContent(d.cfg) && d.pool.refs[b] == 1
  }

  lemma GrantIs(c: Cache, s: int, n: nat)
    requires n <= |c.pool.free|
    ensures var d := Grant(c, s, n); var taken := c.pool.free[..n];
      d == c.(pool := Take(c.pool, n), table := d.table, owned := c.owned[s := Blocks(c, s) + taken],
              cells := Wipe(c, taken), dirty := c.dirty - Elements(taken), lru := d.lru)
  {
  }

  lemma GrantLru(c: Cache, s: int, n: nat)
    requires LruOk(c) && n <= |c.pool.free|
    ensures LruOk(Grant(c, s, n))
  {
    var taken := c.pool.free[..n];
    var d := Assign(c, s, n).(cells := Wipe(c, taken), dirty := c.dirty - Elements(taken));
    forall t | t in d.owned && t != s ensures Recorded(d, t) { assert Recorded(c, t); }
    TouchLru(d, s);
  }

  // A state reached by giving s the blocks, everything else as it was.
  lemma Assembled(c: Cache, d: Cache, s: int, blocks: seq<int>)
    requires Inv(d) && SameReads(c, d) && d.lens == c.lens && Beside(c, d)
    requires d.owned == c.owned[s := Blocks(c, s) + blocks]
    requires forall b :: b in blocks ==> FreshBlock(d, b)
    ensures GrantedOk(c, d, s, |blocks|, blocks)
  {
    hide Inv, View;
    forall t, l, p ensures View(d, t, l, p) == if Gone(c, d, t) then c.cfg.zero else View(c, t, l, p) {
      assert !Gone(c, d, t);
    }
  }

  lemma GrantStep(c: Cache, s: int, n: nat)
    requires Inv(c) && MayGrow(c, s, n) && n <= |c.pool.free|
    ensures GrantedOk(c, Grant(c, s, n), s, n, c.pool.free[..n])
  {
    assert Shape(c);
    hide Grant, Take, Wipe, Core, LruOk, View, SwapOk, GrantedOk;
    GrantIs(c, s, n);
    GrantCore(c, s, n);
    GrantLru(c, s, n);
    GrantReads(c, s, n);
    GrantedAreZero(c, n);
    TakeKept(c, n);
    SwapFrame(c, Grant(c, s, n));
    Assembled(c, Grant(c, s, n), s, c.pool.free[..n]);
  }

  lemma GrantAfter(c: Cache, e: Cache, d: Cache, s: int, n: nat, blocks: seq<int>)
    requires OthersKept(c, e) && Beside(c, e) && GrantedOk(e, d, s, n, blocks)
    requires forall t :: t in e.owned ==> t in c.owned && e.owned[t] == c.owned[t]
    requires s in c.owned ==> s in e.owned
    ensures GrantedOk(c, d, s, n, blocks)
  {
    assert Blocks(e, s) == Blocks(c, s);
    assert forall t :: Gone(c, d, t) <==> Gone(c, e, t) || Gone(e, d, t);
  }

  // Whether the eviction loop would hang for this request.
  ghost predicate Stuck(c: Cache, s: int, n: nat) {
    && c.cfg.lruEviction && n > |c.pool.free|
    && exists k: nat :: Blocked(c, Short(c, n), s, k)
  }

  ghost function Short(c: Cache, n: nat): int {
    n - |c.pool.free|
  }

  // What allocate_blocks promises its caller.
  ghost predicate AllocMeets(c: Cache, s: int, n: nat, a: Allocation) {
    match a
    case Granted(d, blocks) => GrantedOk(c, d, s, n, blocks)
    case OutOfMemory(d) => Inv(d) && OthersKept(c, d) && |d.pool.free| < n && (c.cfg.lruEviction ==> d.owned == map[])
    case NeverReturns => Stuck(c, s, n)
  }

  lemma AllocateAfterStep(c: Cache, d: Cache, s: int, n: nat, freed: int)
    requires EvictMeets(c, Short(c, n), s, d, freed) && MayGrow(c, s, n)
    ensures AllocMeets(c, s, n, AllocateAfter(d, s, n, freed, Short(c, n)))
  {
    hide Grant;
    if freed >= Short(c, n) && n <= |d.pool.free| {
      GrantStep(d, s, n);
      GrantAfter(c, d, Grant(d, s, n), s, n, d.pool.free[..n]);
    }
  }

  lemma AllocateEvicting(c: Cache, s: int, n: nat)
    requires Inv(c) && MayGrow(c, s, n) && n > |c.pool.free| && c.cfg.lruEviction
    ensures AllocMeets(c, s, n, Allocate(c, s, n))
    ensures Allocate(c, s, n).NeverReturns? <==> Stuck(c, s, n)
  {
    hide EvictLru, Grant, Blocked;
    var need := Short(c, n);
    SpinsExactly(c, need, s);
    var r := EvictLru(c, need, s);
    if r.Evicted? {
      EvictStep(c, need, s);
      AllocateAfterStep(c, r.c, s, n, r.freed);
      assert Allocate(c, s, n) == AllocateAfter(r.c, s, n, r.freed, need);
    }
  }

  lemma AllocateStep(c: Cache, s: int, n: nat)
    requires Inv(c) && MayGrow(c, s, n)
    ensures AllocMeets(c, s, n, Allocate(c, s, n))
    ensures Allocate(c, s, n).NeverReturns? <==> Stuck(c, s, n)
  {
    hide Grant;
    if n <= |c.pool.free| {
      GrantStep(c, s, n);
    } else if c.cfg.lruEviction {
      AllocateEvicting(c, s, n);
    } else {
      assert OthersKept(c, c);
    }
  }

  // ---- write_kv ----

  // Steps that keep every list's owner keep the LRU and swap parts.
  lemma SideFrame(c: Cache, d: Cache)
    requires LruOk(c) && SwapOk(c)
    requires d.lru == c.lru && d.swap == c.swap && d.cfg == c.cfg && d.owned.Keys == c.owned.Keys
    ensures LruOk(d) && SwapOk(d)
  {
    forall s | s in d.owned ensures Recorded(d, s) { assert Recorded(c, s); }
    SwapFrame(c, d);
  }

  lemma TouchStep(c: Cache, s: int)
    requires Inv(c)
    ensures Inv(Touch(c, s)) && SameReads(c, Touch(c, s))
    ensures Touch(c, s) == c.(lru := Touch(c, s).lru)
  {
    TouchCore(c, s);
    TouchLru(c, s);
    hide Touch, Core, LruOk;
    SwapFrame(c, Touch(c, s));
    SameTable(c, Touch(c, s));
  }

  lemma SameTable(c: Cache, d: Cache)
    requires d.cfg == c.cfg && d.table == c.table && d.cells == c.cells
    ensures SameReads(c, d)
  {
    forall t, l, p ensures View(d, t, l, p) == View(c, t, l, p) {}
  }

  lemma CowStep(c: Cache, s: int, i: int)
    requires Inv(c) && Writable(c, s, i)
    ensures var (d, b) := CowIfShared(c, s, i, Blocks(c, s)[i]);
      && Inv(d) && SameReads(c, d) && d.lens == c.lens && Beside(c, d)
      && Private(d, s, i) && b == Blocks(d, s)[i]
      && d.owned.Keys == c.owned.Keys && |Blocks(d, s)| == |Blocks(c, s)|
  {
    var (d, b) := CowIfShared(c, s, i, Blocks(c, s)[i]);
    CowIsPrivate(c, s, i);
    if Copies(c, s, i) {
      CowCore(c, s, i);
      CowReads(c, s, i);
    }
    SideFrame(c, d);
  }

  // The reader's view of one write: a point update, evictions aside.
  ghost predicate PointUpdate(c: Cache, d: Cache, s: int, l: int, p: nat, v: KV) {
    && (forall t, m, q :: View(d, t, m, q) ==
          (if t == s && m == l && q == p then v else if Gone(c, d, t) then c.cfg.zero else View(c, t, m, q)))
    && (forall t :: Length(d, t) ==
          if t == s then Max(Length(c, s), p + 1) else if Gone(c, d, t) then 0 else Length(c, t))
  }

  lemma StoreStep(c: Cache, l: int, s: int, p: nat, v: KV)
    requires Inv(c) && 0 <= l < c.cfg.layers && s in c.owned && Private(c, s, Quot(p, c.cfg.blockSize))
    ensures var d := Store(c, l, s, p, Blocks(c, s)[Quot(p, c.cfg.blockSize)], v);
      && Inv(d) && PointUpdate(c, d, s, l, p, v) && Beside(c, d) && d.owned == c.owned
  {
    PrivateStoreReads(c, l, s, p, v);
    SideFrame(c, Store(c, l, s, p, Blocks(c, s)[Quot(p, c.cfg.blockSize)], v));
  }

  // Invisible steps before and after a point update do not show.
  lemma AroundUpdate(c: Cache, e: Cache, f: Cache, g: Cache, s: int, l: int, p: nat, v: KV)
    requires SameReads(c, e) && e.lens == c.lens && e.owned.Keys == c.owned.Keys && e.cfg == c.cfg
    requires PointUpdate(e, f, s, l, p, v) && f.owned == e.owned
    requires SameReads(f, g) && g.lens == f.lens && g.owned == f.owned
    ensures PointUpdate(c, g, s, l, p, v)
  {
    forall t, m, q ensures View(g, t, m, q) ==
      (if t == s && m == l && q == p then v else if Gone(c, g, t) then c.cfg.zero else View(c, t, m, q))
    {
      assert View(g, t, m, q) == View(f, t, m, q);
      assert View(e, t, m, q) == View(c, t, m, q);
    }
    forall t ensures Length(g, t) ==
      if t == s then Max(Length(c, s), p + 1) else if Gone(c, g, t) then 0 else Length(c, t)
    {
      assert Length(f, t) == Length(g, t) && Length(c, t) == Length(e, t);
    }
  }

  lemma WriteBlockStep(c: Cache, l: int, s: int, p: nat, v: KV)
    requires Inv(c) && 0 <= l < c.cfg.layers && Writable(c, s, Quot(p, c.cfg.blockSize))
    ensures var d := WriteBlock(c, l, s, p, Blocks(c, s)[Quot(p, c.cfg.blockSize)], v);
      && Inv(d) && PointUpdate(c, d, s, l, p, v) && Beside(c, d)
      && d.owned.Keys == c.owned.Keys && |Blocks(d, s)| == |Blocks(c, s)|
  {
    var i := Quot(p, c.cfg.blockSize);
    CowStep(c, s, i);
    var (e, b) := CowIfShared(c, s, i, Blocks(c, s)[i]);
    StoreStep(e, l, s, p, v);
    var f := Store(e, l, s, p, b, v);
    TouchStep(f, s);
    AroundUpdate(c, e, f, Touch(f, s), s, l, p, v);
  }

  // Writes fill a sequence block by block, and a shared block can still be
  // copied.
  ghost predicate WriteOk(c: Cache, l: int, s: int, p: nat) {
    var i := Quot(p, c.cfg.blockSize);
    && 0 <= l < c.cfg.layers && 0 <= s < c.cfg.maxSeqs && i < c.cfg.maxBlocks
    && i <= |Blocks(c, s)|
    && (i < |Blocks(c, s)| ==> Writable(c, s, i))
    && (i == |Blocks(c, s)| ==> s !in c.swap.out)
  }

  lemma ListFits(c: Cache, s: int)
    requires Core(c)
    ensures |Blocks(c, s)| <= c.cfg.maxBlocks
  {
  }

  lemma TableIs(c: Cache, s: int, i: nat)
    requires Core(c) && 0 <= s < c.cfg.maxSeqs && i < c.cfg.maxBlocks
    ensures i < |RowOf(c, s)|
    ensures RowOf(c, s)[i] == if i < |Blocks(c, s)| then Blocks(c, s)[i] else -1
    ensures i < |Blocks(c, s)| ==> Blocks(c, s)[i] > 0
  {
    if i < |Blocks(c, s)| { assert Blocks(c, s)[i] in c.owned[s]; }
  }

  lemma WriteKvCases(c: Cache, l: int, s: int, p: nat, v: KV)
    requires Core(c) && 0 <= s < c.cfg.maxSeqs && Quot(p, c.cfg.blockSize) < c.cfg.maxBlocks
    ensures Quot(p, c.cfg.blockSize) < |Blocks(c, s)| ==>
      WriteKv(c, l, s, p, v) == Done(WriteBlock(c, l, s, p, Blocks(c, s)[Quot(p, c.cfg.blockSize)], v))
    ensures Quot(p, c.cfg.blockSize) >= |Blocks(c, s)| ==>
      WriteKv(c, l, s, p, v) == AfterAllocate(Allocate(c, s, 1), l, s, p, v)
  {
    TableIs(c, s, Quot(p, c.cfg.blockSize));
  }

  lemma WriteNewBlock(c: Cache, d: Cache, l: int, s: int, p: nat, v: KV, b: int)
    requires 0 <= l < c.cfg.layers && Quot(p, c.cfg.blockSize) == |Blocks(c, s)|
    requires GrantedOk(c, d, s, 1, [b])
    ensures var e := WriteBlock(d, l, s, p, b, v);
      && Inv(e) && PointUpdate(c, e, s, l, p, v) && Beside(c, e)
      && |Blocks(e, s)| == |Blocks(c, s)| + 1
  {
    hide WriteBlock, Core, LruOk, SwapOk, View;
    assert FreshBlock(d, b);
    assert Blocks(d, s)[Quot(p, c.cfg.blockSize)] == b;
    WriteBlockStep(d, l, s, p, v);
    var e := WriteBlock(d, l, s, p, b, v);
    assert forall t :: Gone(c, e, t) <==> Gone(c, d, t);
  }

  // What write_kv promises its caller.
  ghost predicate WriteMeets(c: Cache, r: Outcome, l: int, s: int, p: nat, v: KV) {
    if r.Done? then
      && Inv(r.c) && PointUpdate(c, r.c, s, l, p, v) && Beside(c, r.c)
      && |Blocks(r.c, s)| == Max(|Blocks(c, s)|, Quot(p, c.cfg.blockSize) + 1)
    else if r.Failed? then Inv(r.c) && OthersKept(c, r.c)
    else Stuck(c, s, 1)
  }

  lemma WriteNewMeets(c: Cache, l: int, s: int, p: nat, v: KV, a: Allocation)
    requires 0 <= l < c.cfg.layers && Quot(p, c.cfg.blockSize) == |Blocks(c, s)|
    requires AllocMeets(c, s, 1, a)
    ensures a.Granted? ==> |a.blocks| == 1 && WriteMeets(c, Done(WriteBlock(a.c, l, s, p, a.blocks[0], v)), l, s, p, v)
    ensures a.OutOfMemory? ==> WriteMeets(c, Failed(a.c), l, s, p, v)
    ensures a.NeverReturns? ==> WriteMeets(c, Hangs, l, s, p, v)
  {
    if a.Granted? {
      var b := a.blocks[0];
      assert a.blocks == [b];
      WriteNewBlock(c, a.c, l, s, p, v, b);
    }
  }

  lemma WriteKvStep(c: Cache, l: int, s: int, p: nat, v: KV)
    requires Inv(c) && WriteOk(c, l, s, p)
    ensures WriteMeets(c, WriteKv(c, l, s, p, v), l, s, p, v)
  {
    hide WriteBlock, Allocate;
    WriteKvCases(c, l, s, p, v);
    if Quot(p, c.cfg.blockSize) < |Blocks(c, s)| {
      WriteBlockStep(c, l, s, p, v);
    } else {
      AllocateStep(c, s, 1);
      WriteNewMeets(c, l, s, p, v, Allocate(c, s, 1));
    }
  }

  // ---- Which lists a write touches ----

  // Only block i of sequence s may have been replaced, and it is private now.
  ghost predicate ListsKept(c: Cache, d: Cache, s: int, i: nat) {
    && (forall t :: t in d.owned && t != s ==> t in c.owned && d.owned[t] == c.owned[t])
    && |Blocks(d, s)| >= |Blocks(c, s)|
    && (forall j :: 0 <= j < |Blocks(c, s)| && j != i ==> Blocks(d, s)[j] == Blocks(c, s)[j])
    && Private(d, s, i)
  }

  lemma CowLists(c: Cache, s: int, i: int)
    requires Core(c) && Writable(c, s, i)
    ensures ListsKept(c, CowIfShared(c, s, i, Blocks(c, s)[i]).0, s, i)
  {
    CowIsPrivate(c, s, i);
  }

  lemma WriteBlockLists(c: Cache, l: int, s: int, p: nat, v: KV)
    requires Core(c) && Writable(c, s, Quot(p, c.cfg.blockSize))
    ensures ListsKept(c, WriteBlock(c, l, s, p, Blocks(c, s)[Quot(p, c.cfg.blockSize)], v), s, Quot(p, c.cfg.blockSize))
  {
    var i := Quot(p, c.cfg.blockSize);
    CowLists(c, s, i);
    var (d, b) := CowIfShared(c, s, i, Blocks(c, s)[i]);
    var e := WriteBlock(c, l, s, p, Blocks(c, s)[i], v);
    assert e.owned == d.owned && e.pool == d.pool;
  }

  lemma WriteNewLists(c: Cache, d: Cache, l: int, s: int, p: nat, v: KV, b: int)
    requires Quot(p, c.cfg.blockSize) == |Blocks(c, s)| && GrantedOk(c, d, s, 1, [b])
    ensures ListsKept(c, WriteBlock(d, l, s, p, b, v), s, Quot(p, c.cfg.blockSize))
  {
    assert FreshBlock(d, b);
    assert Blocks(d, s)[Quot(p, c.cfg.blockSize)] == b;
    WriteBlockLists(d, l, s, p, v);
  }

  lemma WriteKvLists(c: Cache, l: int, s: int, p: nat, v: KV)
    requires Inv(c) && WriteOk(c, l, s, p) && WriteKv(c, l, s, p, v).Done?
    ensures ListsKept(c, WriteKv(c, l, s, p, v).c, s, Quot(p, c.cfg.blockSize))
  {
    hide WriteBlock, Grant, EvictLru;
    WriteKvCases(c, l, s, p, v);
    if Quot(p, c.cfg.blockSize) < |Blocks(c, s)| {
      WriteBlockLists(c, l, s, p, v);
    } else {
      AllocateStep(c, s, 1);
      var a := Allocate(c, s, 1);
      var b := a.blocks[0];
      assert a.blocks == [b];
      WriteNewLists(c, a.c, l, s, p, v, b);
    }
  }

  // A private block of the sequence stays private.
  lemma PrivateStays(c: Cache, d: Cache, s: int, i: nat, j: nat)
    requires Core(c) && Core(d) && d.cfg == c.cfg && ListsKept(c, d, s, i) && Private(c, s, j)
    ensures Private(d, s, j)
  {
    if j != i {
      var b := Blocks(c, s)[j];
      assert Blocks(d, s)[j] == b && b in c.owned[s];
      OwnedIsReferenced(d, s, b);
      if d.pool.refs[b] >= 2 {
        var t, k := OtherListing(d, s, b);
        SoleOwner(c, s, t, b);
      }
    }
  }

  // A block counted twice is listed by a second sequence.
  lemma OtherListing(c: Cache, s: int, b: int) returns (t: int, j: nat)
    requires Core(c) && s in c.owned && b in c.owned[s] && 0 <= b < |c.pool.refs| && c.pool.refs[b] >= 2
    ensures t != s && t in c.owned && j < |c.owned[t]| && c.owned[t][j] == b
  {
    var rest := c.owned - {s};
    DistinctCount(c.owned[s], b);
    OccChange(c.owned, rest, c.cfg.maxSeqs, s, b);
    if forall u :: u in rest ==> b !in rest[u] {
      OccZero(rest, c.cfg.maxSeqs, b);
      assert false;
    }
    t :| t in rest && b in rest[t];
    j :| 0 <= j < |c.owned[t]| && c.owned[t][j] == b;
  }
}
