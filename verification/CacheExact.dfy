// Where the promise of write_kv ends: a write past the next block lands in
// the next block, and a write to a shared block shows in other sequences when
// no block is left for a copy. Both conditions are exact.
module CacheExact {
  import opened Prelude
  import opened PoolSpec
  import opened CacheSpec
  import opened CacheInv
  import opened Lru
  import opened CacheView
  import opened CacheSteps

  ghost predicate Addressable(c: Cache, l: int, s: int, p: nat) {
    0 <= l < c.cfg.layers && 0 <= s < c.cfg.maxSeqs && Quot(p, c.cfg.blockSize) < c.cfg.maxBlocks
  }

  // ---- The swap area plays no part in a write ----

  ghost function Bare(c: Cache): Cache {
    c.(swap := Swap(false, [], [], map[]))
  }

  lemma BareInv(c: Cache)
    requires Inv(c)
    ensures Inv(Bare(c))
  {
    var d := Bare(c);
    CoreBeside(c, d);
    forall s | s in d.owned ensures Recorded(d, s) { assert Recorded(c, s); }
  }

  ghost function BareEviction(r: Eviction): Eviction {
    if r.Spins? then Spins else Evicted(Bare(r.c), r.freed)
  }

  lemma BareVictim(c: Cache)
    requires c.lru.heap != []
    ensures Popped(Bare(c)) == Bare(Popped(c)) && AfterVictim(Bare(c)) == Bare(AfterVictim(c))
  {
  }

  lemma {:induction false} BareLoop(c: Cache, needed: int, freed: int, protect: int)
    ensures EvictLoop(Bare(c), needed, freed, protect) == BareEviction(EvictLoop(c, needed, freed, protect))
    decreases |c.lru.heap|
  {
    if freed < needed && c.lru.heap != [] {
      BareVictim(c);
      BareShrinks(c);
      hide Popped, AfterVictim;
      if !Current(c, c.lru.heap[0]) {
        BareLoop(Popped(c), needed, freed, protect);
      } else if !Held(c, protect, c.lru.heap[0].seqId) {
        BareLoop(AfterVictim(c), needed, freed + |AfterVictim(c).pool.free| - |c.pool.free|, protect);
      }
    }
  }

  lemma BareShrinks(c: Cache)
    requires c.lru.heap != []
    ensures |Popped(c).lru.heap| < |c.lru.heap| && |AfterVictim(c).lru.heap| < |c.lru.heap|
  {
  }

  ghost function BareAllocation(a: Allocation): Allocation {
    match a
    case Granted(d, blocks) => Granted(Bare(d), blocks)
    case OutOfMemory(d) => OutOfMemory(Bare(d))
    case NeverReturns => NeverReturns
  }

  lemma BareGrant(c: Cache, s: int, n: nat)
    requires n <= |c.pool.free|
    ensures Grant(Bare(c), s, n) == Bare(Grant(c, s, n))
  {
    hide Take, SetRow;
    assert Wipe(Bare(c), c.pool.free[..n]) == Wipe(c, c.pool.free[..n]);
    var d := Assign(c, s, n).(cells := Wipe(c, c.pool.free[..n]), dirty := c.dirty - Elements(c.pool.free[..n]));
    BareTouch(d, s);
  }

  lemma {:induction false} BareCompact(c: Cache, heap: seq<Entry>)
    ensures Compact(Bare(c), heap) == Compact(c, heap)
  {
    if heap != [] { BareCompact(c, heap[1..]); }
  }

  lemma BareTouch(c: Cache, s: int)
    ensures Touch(Bare(c), s) == Bare(Touch(c, s))
  {
    var tick := c.lru.clock + 1;
    var d := c.(lru := Lru(tick, c.lru.last[s := tick], HeapPush(c.lru.heap, Entry(tick, s))));
    BareCompact(d, d.lru.heap);
  }

  lemma BareAllocate(c: Cache, s: int, n: nat)
    ensures Allocate(Bare(c), s, n) == BareAllocation(Allocate(c, s, n))
  {
    hide Grant, EvictLoop;
    if n <= |c.pool.free| {
      BareGrant(c, s, n);
    } else if c.cfg.lruEviction {
      BareLoop(c.(evicted := []), n - |c.pool.free|, 0, s);
      var r := EvictLru(c, n - |c.pool.free|, s);
      if r.Evicted? && n <= |r.c.pool.free| { BareGrant(r.c, s, n); }
    }
  }

  lemma BareWriteBlock(c: Cache, l: int, s: int, p: nat, b: int, v: KV)
    ensures WriteBlock(Bare(c), l, s, p, b, v) == Bare(WriteBlock(c, l, s, p, b, v))
  {
    hide Touch, Take, Release;
    var (d, target) := CowIfShared(c, s, Quot(p, c.cfg.blockSize), b);
    BareTouch(Store(d, l, s, p, target, v), s);
  }

  ghost function BareOutcome(r: Outcome): Outcome {
    match r
    case Done(d) => Done(Bare(d))
    case Failed(d) => Failed(Bare(d))
    case Hangs => Hangs
  }

  lemma BareWrite(c: Cache, l: int, s: int, p: nat, v: KV)
    ensures WriteKv(Bare(c), l, s, p, v) == BareOutcome(WriteKv(c, l, s, p, v))
  {
    hide Allocate, WriteBlock;
    BareAllocate(c, s, 1);
    var i := Quot(p, c.cfg.blockSize);
    if i < |RowOf(c, s)| { BareWriteBlock(c, l, s, p, RowOf(c, s)[i], v); }
    var a := Allocate(c, s, 1);
    if a.Granted? { BareWriteBlock(a.c, l, s, p, a.blocks[0], v); }
  }

  // ---- Where a write lands ----

  lemma MappedWriteReadsBack(c: Cache, l: int, s: int, p: nat, v: KV)
    requires Inv(c) && Addressable(c, l, s, p) && Quot(p, c.cfg.blockSize) < |Blocks(c, s)|
    ensures var d := WriteBlock(c, l, s, p, Blocks(c, s)[Quot(p, c.cfg.blockSize)], v);
      View(d, s, l, p) == v
  {
    var i := Quot(p, c.cfg.blockSize);
    assert Blocks(c, s)[i] in c.owned[s];
    OwnedIsReferenced(c, s, Blocks(c, s)[i]);
    if Writable(c, s, i) {
      WriteBlockStep(c, l, s, p, v);
    } else {
      var f := Store(c, l, s, p, Blocks(c, s)[i], v);
      StoreReads(c, l, s, p, Blocks(c, s)[i], v);
      SideFrame(c, f);
      TouchStep(f, s);
      assert Shows(c, l, p, Blocks(c, s)[i], s, l, p);
      assert View(f, s, l, p) == v;
    }
  }

  // The position a write ends up at: blocks are appended one at a time, so a
  // position past the next block falls into the next block, same offset.
  function LandsAt(c: Cache, s: int, p: nat): nat {
    if Quot(p, c.cfg.blockSize) <= |Blocks(c, s)| then p
    else |Blocks(c, s)| * c.cfg.blockSize + Rem(p, c.cfg.blockSize)
  }

  ghost predicate Lands(c: Cache, d: Cache, s: int, l: int, q: nat, v: KV) {
    forall t, m, x :: View(d, t, m, x) ==
      if t == s && m == l && x == q then v else if Gone(c, d, t) then c.cfg.zero else View(c, t, m, x)
  }

  lemma SameBlockWritten(d: Cache, l: int, s: int, p: nat, q: nat, b: int, v: KV)
    requires Rem(p, d.cfg.blockSize) == Rem(q, d.cfg.blockSize)
    requires !Copies(d, s, Quot(p, d.cfg.blockSize)) && !Copies(d, s, Quot(q, d.cfg.blockSize))
    ensures var e, f := WriteBlock(d, l, s, p, b, v), WriteBlock(d, l, s, q, b, v);
      e.owned == f.owned == d.owned && e.cfg == f.cfg && SameReads(f, e)
  {
    hide Rem, Quot;
    var e, f := WriteBlock(d, l, s, p, b, v), WriteBlock(d, l, s, q, b, v);
    assert e.cells == f.cells && e.table == f.table;
    SameTable(f, e);
  }

  lemma NewBlockLands(c: Cache, d: Cache, l: int, s: int, p: nat, v: KV, b: int)
    requires 0 <= l < c.cfg.layers && Quot(p, c.cfg.blockSize) >= |Blocks(c, s)|
    requires GrantedOk(c, d, s, 1, [b])
    ensures Lands(c, WriteBlock(d, l, s, p, b, v), s, l, LandsAt(c, s, p), v)
  {
    hide WriteBlock, Inv, View, Quot, Rem, WriteKv;
    var n, bs, q := |Blocks(c, s)|, c.cfg.blockSize, LandsAt(c, s, p);
    Decompose(p, bs);
    QuotUnique(n * bs + Rem(p, bs), n, Rem(p, bs), bs);
    assert FreshBlock(d, b);
    assert Blocks(d, s)[n] == b;
    WriteNewBlock(c, d, l, s, q, v, b);
    SameBlockWritten(d, l, s, p, q, b, v);
    var e, f := WriteBlock(d, l, s, p, b, v), WriteBlock(d, l, s, q, b, v);
    forall t, m, x ensures View(e, t, m, x) ==
      if t == s && m == l && x == q then v else if Gone(c, e, t) then c.cfg.zero else View(c, t, m, x)
    {
      assert View(e, t, m, x) == View(f, t, m, x);
      assert Gone(c, e, t) <==> Gone(c, f, t);
    }
  }

  // What a write that goes through shows, whatever its position: one value at
  // the place it lands, and nothing else but the evictions it took.
  lemma WriteLands(c: Cache, l: int, s: int, p: nat, v: KV)
    requires Inv(c) && Addressable(c, l, s, p) && WriteKv(c, l, s, p, v).Done?
    requires Quot(p, c.cfg.blockSize) < |Blocks(c, s)| ==> Writable(c, s, Quot(p, c.cfg.blockSize))
    ensures Lands(c, WriteKv(c, l, s, p, v).c, s, l, LandsAt(c, s, p), v)
  {
    hide Inv, View, WriteKv, Bare, Lands, LandsAt, Blocks, Quot, Writable;
    var e := Bare(c);
    BareInv(c);
    BareWrite(c, l, s, p, v);
    BareFacts(c, l, s, p);
    UnmappedOrNext(e, l, s, p, v);
    BareLands(c, WriteKv(c, l, s, p, v).c, s, l, LandsAt(c, s, p), v);
  }

  lemma BareFacts(c: Cache, l: int, s: int, p: nat)
    ensures var e, i := Bare(c), Quot(p, c.cfg.blockSize);
      && e.cfg == c.cfg && e.swap.out == map[] && Blocks(e, s) == Blocks(c, s) && LandsAt(e, s, p) == LandsAt(c, s, p)
      && (Writable(e, s, i) <==> Writable(c, s, i))
  {
  }

  lemma UnmappedOrNext(c: Cache, l: int, s: int, p: nat, v: KV)
    requires Inv(c) && Addressable(c, l, s, p) && WriteKv(c, l, s, p, v).Done? && s !in c.swap.out
    requires Quot(p, c.cfg.blockSize) < |Blocks(c, s)| ==> Writable(c, s, Quot(p, c.cfg.blockSize))
    ensures Lands(c, WriteKv(c, l, s, p, v).c, s, l, LandsAt(c, s, p), v)
  {
    hide View, WriteBlock, Allocate, Inv;
    WriteCases(c, l, s, p, v);
    if Quot(p, c.cfg.blockSize) < |Blocks(c, s)| {
      WriteBlockStep(c, l, s, p, v);
    } else {
      var b := NextGranted(c, l, s, p, v);
      NewBlockLands(c, Allocate(c, s, 1).c, l, s, p, v, b);
    }
  }

  lemma WriteCases(c: Cache, l: int, s: int, p: nat, v: KV)
    requires Inv(c) && Addressable(c, l, s, p)
    ensures Quot(p, c.cfg.blockSize) < |Blocks(c, s)| ==>
      WriteKv(c, l, s, p, v) == Done(WriteBlock(c, l, s, p, Blocks(c, s)[Quot(p, c.cfg.blockSize)], v))
    ensures Quot(p, c.cfg.blockSize) >= |Blocks(c, s)| ==>
      WriteKv(c, l, s, p, v) == AfterAllocate(Allocate(c, s, 1), l, s, p, v)
  {
    hide WriteBlock, Allocate;
    WriteKvCases(c, l, s, p, v);
  }

  // The block a write past the end gets.
  lemma NextGranted(c: Cache, l: int, s: int, p: nat, v: KV) returns (b: int)
    requires Inv(c) && Addressable(c, l, s, p) && s !in c.swap.out && Quot(p, c.cfg.blockSize) >= |Blocks(c, s)|
    requires WriteKv(c, l, s, p, v).Done?
    ensures Allocate(c, s, 1).Granted? && GrantedOk(c, Allocate(c, s, 1).c, s, 1, [b])
    ensures WriteKv(c, l, s, p, v) == Done(WriteBlock(Allocate(c, s, 1).c, l, s, p, b, v))
  {
    hide WriteBlock, Allocate;
    WriteCases(c, l, s, p, v);
    AllocateStep(c, s, 1);
    var a := Allocate(c, s, 1);
    b := a.blocks[0];
    assert a.blocks == [b];
  }

  lemma BareLands(c: Cache, d: Cache, s: int, l: int, q: nat, v: KV)
    requires Lands(Bare(c), Bare(d), s, l, q, v)
    ensures Lands(c, d, s, l, q, v)
  {
    BareReads(c);
    BareReads(d);
    hide View;
    forall t, m, x ensures View(d, t, m, x) ==
      if t == s && m == l && x == q then v else if Gone(c, d, t) then c.cfg.zero else View(c, t, m, x)
    {
      assert View(Bare(d), t, m, x) ==
        if t == s && m == l && x == q then v
        else if Gone(Bare(c), Bare(d), t) then c.cfg.zero else View(Bare(c), t, m, x);
    }
  }

  lemma BareReads(c: Cache)
    ensures SameReads(Bare(c), c)
  {
    SameTable(Bare(c), c);
  }

  lemma UnmappedIsZero(c: Cache, s: int, l: int, p: nat)
    requires Inv(c) && Quot(p, c.cfg.blockSize) >= |Blocks(c, s)|
    ensures View(c, s, l, p) == c.cfg.zero
  {
    ViewIs(c, s, l, p);
  }

  // A value written is the value read back exactly when the position falls
  // into a block the sequence has, or into the very next one.
  lemma ReadsBackIff(c: Cache, l: int, s: int, p: nat, v: KV)
    requires Inv(c) && Addressable(c, l, s, p) && WriteKv(c, l, s, p, v).Done?
    ensures View(WriteKv(c, l, s, p, v).c, s, l, p) == v
            <==> Quot(p, c.cfg.blockSize) <= |Blocks(c, s)| || v == c.cfg.zero
  {
    hide View, WriteBlock, Allocate, Inv;
    WriteCases(c, l, s, p, v);
    if Quot(p, c.cfg.blockSize) < |Blocks(c, s)| {
      MappedWriteReadsBack(c, l, s, p, v);
    } else {
      WriteLands(c, l, s, p, v);
      UnmappedIsZero(c, s, l, p);
      LandsElsewhere(c, s, p);
    }
  }

  lemma LandsElsewhere(c: Cache, s: int, p: nat)
    ensures LandsAt(c, s, p) == p <==> Quot(p, c.cfg.blockSize) <= |Blocks(c, s)|
  {
    var n, bs := |Blocks(c, s)|, c.cfg.blockSize;
    QuotUnique(n * bs + Rem(p, bs), n, Rem(p, bs), bs);
  }

  // ---- Copy-on-write needs a free block ----

  lemma StoreShows(c: Cache, l: int, s: int, p: nat, v: KV, b: int, t: int, q: int)
    requires Inv(c) && 0 <= l < c.cfg.layers && s in c.owned && b in c.owned[s]
    requires Shows(c, l, p, b, t, l, q)
    ensures View(Touch(Store(c, l, s, p, b, v), s), t, l, q) == v
  {
    OwnedIsReferenced(c, s, b);
    var f := Store(c, l, s, p, b, v);
    StoreReads(c, l, s, p, b, v);
    SideFrame(c, f);
    TouchStep(f, s);
    assert View(f, t, l, q) == v;
  }

  lemma SharedWriteLeaks(c: Cache, l: int, s: int, p: nat, v: KV) returns (t: int, q: nat)
    requires Inv(c) && Addressable(c, l, s, p) && Quot(p, c.cfg.blockSize) < |Blocks(c, s)|
    requires !Writable(c, s, Quot(p, c.cfg.blockSize))
    ensures t != s && View(c, t, l, q) == View(c, s, l, p)
    ensures View(WriteBlock(c, l, s, p, Blocks(c, s)[Quot(p, c.cfg.blockSize)], v), t, l, q) == v
  {
    var i := Quot(p, c.cfg.blockSize);
    var b := Blocks(c, s)[i];
    assert b in c.owned[s];
    OwnedIsReferenced(c, s, b);
    var j;
    t, j := OtherListing(c, s, b);
    q := j * c.cfg.blockSize + Rem(p, c.cfg.blockSize);
    QuotUnique(q, j, Rem(p, c.cfg.blockSize), c.cfg.blockSize);
    ViewIs(c, t, l, q);
    ViewIs(c, s, l, p);
    assert Shows(c, l, p, b, t, l, q);
    StoreShows(c, l, s, p, v, b, t, q);
    assert CowIfShared(c, s, i, b) == (c, b);
  }

  // Changing a position a sequence already has leaves every other sequence
  // alone exactly when the block is its own or can still be copied.
  lemma IsolatedIff(c: Cache, l: int, s: int, p: nat, v: KV)
    requires Inv(c) && Addressable(c, l, s, p) && Quot(p, c.cfg.blockSize) < |Blocks(c, s)|
    requires v != View(c, s, l, p)
    ensures WriteKv(c, l, s, p, v).Done?
    ensures (forall t, m, q :: t != s ==> View(WriteKv(c, l, s, p, v).c, t, m, q) == View(c, t, m, q))
            <==> Writable(c, s, Quot(p, c.cfg.blockSize))
  {
    hide Inv, View, WriteBlock, Allocate, WriteKv;
    var i := Quot(p, c.cfg.blockSize);
    WriteCases(c, l, s, p, v);
    var d := WriteBlock(c, l, s, p, Blocks(c, s)[i], v);
    if Writable(c, s, i) {
      WriteBlockStep(c, l, s, p, v);
    } else {
      var t, q := SharedWriteLeaks(c, l, s, p, v);
      assert View(d, t, l, q) != View(c, t, l, q);
    }
  }
}
