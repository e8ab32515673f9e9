// What readers see: the paged cache behaves like a plain array per sequence
// and layer, zero where nothing was written.
module CacheView {
  import opened Prelude
  import opened Hashing
  import opened PoolSpec
  import opened CacheSpec
  import opened CacheInv
  import opened Lru

  // The position falls in block i of the sequence, at this offset.
  ghost predicate Mapped(c: Cache, s: int, l: int, p: int) {
    0 <= l < c.cfg.layers && 0 <= p && Quot(p, c.cfg.blockSize) < |Blocks(c, s)|
  }

  ghost function BlockAt(c: Cache, s: int, p: int): int
    requires 0 <= p && Quot(p, c.cfg.blockSize) < |Blocks(c, s)|
  {
    Blocks(c, s)[Quot(p, c.cfg.blockSize)]
  }

  ghost predicate InCell(c: Cache, b: int, l: int, o: int) {
    0 <= b < |c.cells| && 0 <= l < |c.cells[b]| && 0 <= o < |c.cells[b][l]|
  }

  lemma MappedIsOwned(c: Cache, s: int, l: int, p: int)
    requires Mapped(c, s, l, p)
    ensures s in c.owned && BlockAt(c, s, p) in c.owned[s]
  {
  }

  lemma ViewIs(c: Cache, s: int, l: int, p: int)
    requires Core(c)
    ensures Mapped(c, s, l, p) ==>
      0 < BlockAt(c, s, p) < |c.cells| && InCell(c, BlockAt(c, s, p), l, Rem(p, c.cfg.blockSize))
    ensures View(c, s, l, p) ==
      if Mapped(c, s, l, p) then c.cells[BlockAt(c, s, p)][l][Rem(p, c.cfg.blockSize)] else c.cfg.zero
  {
    if Mapped(c, s, l, p) {
      assert BlockAt(c, s, p) in c.owned[s];
    }
    if 0 <= p && Quot(p, c.cfg.blockSize) < |Blocks(c, s)| {
      assert Blocks(c, s)[Quot(p, c.cfg.blockSize)] in c.owned[s];
    }
  }

  ghost predicate SameReads(c: Cache, d: Cache) {
    forall s, l, p :: View(d, s, l, p) == View(c, s, l, p)
  }

  // Sequences that lost everything in the step.
  ghost predicate Gone(c: Cache, d: Cache, s: int) {
    s in c.owned && s !in d.owned
  }

  // A reader sees the same as long as its block still holds the same cell.
  lemma SameCell(c: Cache, d: Cache, t: int, l: int, p: int)
    requires Core(c) && Core(d) && d.cfg == c.cfg
    requires Mapped(d, t, l, p) <==> Mapped(c, t, l, p)
    requires Mapped(c, t, l, p) ==>
      && 0 <= BlockAt(d, t, p) < |d.cells| && 0 <= BlockAt(c, t, p) < |c.cells|
      && d.cells[BlockAt(d, t, p)] == c.cells[BlockAt(c, t, p)]
    ensures View(d, t, l, p) == View(c, t, l, p)
  {
    ViewIs(c, t, l, p);
    ViewIs(d, t, l, p);
  }

  // ---- Freeing ----

  lemma DropsReads(c: Cache, d: Cache, s: int)
    requires Core(c) && Core(d) && Drops(c, d, s)
    ensures forall t, l, p :: View(d, t, l, p) == (if t == s then c.cfg.zero else View(c, t, l, p))
    ensures forall t :: Length(d, t) == if t == s then 0 else Length(c, t)
  {
    forall t, l, p ensures View(d, t, l, p) == (if t == s then c.cfg.zero else View(c, t, l, p)) {
      if t == s {
        ViewIs(d, t, l, p);
      } else {
        if Mapped(c, t, l, p) { ViewIs(c, t, l, p); }
        SameCell(c, d, t, l, p);
      }
    }
  }

  ghost predicate Freed(es: seq<Entry>, t: int) {
    exists e :: e in es && e.seqId == t
  }

  lemma {:induction false} FreeAllReads(c: Cache, es: seq<Entry>)
    requires Core(c)
    ensures forall t, l, p :: View(FreeAll(c, es), t, l, p) == (if Freed(es, t) then c.cfg.zero else View(c, t, l, p))
    ensures forall t :: Length(FreeAll(c, es), t) == (if Freed(es, t) then 0 else Length(c, t))
    decreases |es|
  {
    if es != [] {
      var d := FreeSequence(c, es[0].seqId);
      FreeSequenceCore(c, es[0].seqId);
      DropsReads(c, d, es[0].seqId);
      FreeAllReads(d, es[1..]);
      assert forall e :: e in es <==> e == es[0] || e in es[1..];
    }
  }

  // Eviction zeroes its victims and nobody else.
  lemma EvictionReads(c: Cache, needed: int, protect: int, k: nat, r: Eviction)
    requires Core(c) && LruOk(c) && Victims(c, needed, protect, k, r)
    ensures forall t, l, p :: View(r.c, t, l, p) == if t in r.c.evicted then c.cfg.zero else View(c, t, l, p)
    ensures forall t :: Length(r.c, t) == if t in r.c.evicted then 0 else Length(c, t)
  {
    var es := Live(c)[..k];
    FreeAllReads(c, es);
    VictimIds(es);
    var d := FreeAll(c, es);
    forall t, l, p ensures View(r.c, t, l, p) == if t in r.c.evicted then c.cfg.zero else View(c, t, l, p) {
      assert View(r.c, t, l, p) == View(d, t, l, p);
    }
    forall t ensures Length(r.c, t) == if t in r.c.evicted then 0 else Length(c, t) {
      assert Length(r.c, t) == Length(d, t);
    }
  }

  // Taking queued blocks drops their tags and leaves the others alone.
  lemma TakeKept(c: Cache, n: nat)
    requires Core(c) && n <= |c.pool.free|
    ensures var q := Take(c.pool, n);
      && |q.tags| == |c.pool.tags| && |q.refs| == |c.pool.refs| && q.caching == c.pool.caching
      && (forall b :: b in c.pool.free[..n] ==> 0 < b < |q.tags| && q.tags[b] == None && q.refs[b] == 1)
      && (forall b :: 0 <= b < |q.tags| && b !in c.pool.free[..n] ==>
            q.tags[b] == c.pool.tags[b] && q.refs[b] == c.pool.refs[b])
  {
    TakeOk(c.pool, n);
  }

  // ---- Allocation is invisible ----

  lemma GrantCore(c: Cache, s: int, n: nat)
    requires Core(c) && 0 <= s < c.cfg.maxSeqs && n <= |c.pool.free| && |Blocks(c, s)| + n <= c.cfg.maxBlocks
    ensures Core(Grant(c, s, n))
  {
    var taken := c.pool.free[..n];
    var d := Assign(c, s, n).(cells := Wipe(c, taken), dirty := c.dirty - Elements(taken));
    ExtendsCore(c, d, s, n);
    TouchCore(d, s);
  }

  // Every block handed out reads as zero, dirty or not, and only queued
  // blocks are ever wiped.
  lemma GrantedAreZero(c: Cache, n: nat)
    requires Core(c) && n <= |c.pool.free|
    ensures forall b :: b in c.pool.free[..n] ==>
      0 < b < |c.cells| && Wipe(c, c.pool.free[..n])[b] == ZeroContent(c.cfg)
    ensures forall b :: 0 < b < |c.cells| && (c.pool.refs[b] > 0 || b !in c.pool.free[..n]) ==>
      Wipe(c, c.pool.free[..n])[b] == c.cells[b]
  {
    forall b | b in c.pool.free[..n]
      ensures 0 < b < |c.cells| && Wipe(c, c.pool.free[..n])[b] == ZeroContent(c.cfg)
    {
      assert b in c.pool.free;
    }
    TakeOk(c.pool, n);
  }

  lemma ExtendsReadsAt(c: Cache, d: Cache, s: int, n: nat, t: int, l: int, p: int)
    requires Core(c) && Core(d) && Extends(c, d, s, n)
    requires forall b :: 0 <= b < |c.cells| && c.pool.refs[b] > 0 ==> d.cells[b] == c.cells[b]
    requires forall b :: b in c.pool.free[..n] ==> 0 < b < |c.cells| && d.cells[b] == ZeroContent(c.cfg)
    ensures View(d, t, l, p) == View(c, t, l, p)
  {
    ViewIs(c, t, l, p);
    ViewIs(d, t, l, p);
    if Mapped(c, t, l, p) {
      MappedIsOwned(c, t, l, p);
      OwnedIsReferenced(c, t, BlockAt(c, t, p));
      assert BlockAt(d, t, p) == BlockAt(c, t, p);
    } else if Mapped(d, t, l, p) {
      assert BlockAt(d, t, p) in c.pool.free[..n];
    }
  }

  lemma GrantReads(c: Cache, s: int, n: nat)
    requires Core(c) && 0 <= s < c.cfg.maxSeqs && n <= |c.pool.free| && |Blocks(c, s)| + n <= c.cfg.maxBlocks
    ensures SameReads(c, Grant(c, s, n))
    ensures Grant(c, s, n).lens == c.lens
  {
    var d := Grant(c, s, n);
    GrantCore(c, s, n);
    GrantedAreZero(c, n);
    assert Extends(c, d, s, n);
    forall t, l, p ensures View(d, t, l, p) == View(c, t, l, p) {
      ExtendsReadsAt(c, d, s, n, t, l, p);
    }
  }

  // ---- Copy-on-write is invisible ----

  lemma CowReadsAt(c: Cache, d: Cache, s: int, i: int, copy: int, t: int, l: int, p: int)
    requires Core(c) && Core(d) && d.cfg == c.cfg && s in c.owned && 0 <= i < |c.owned[s]|
    requires copy in c.pool.free && d.owned == c.owned[s := c.owned[s][i := copy]]
    requires 0 <= c.owned[s][i] < |c.cells| && d.cells == Upd(c.cells, copy, c.cells[c.owned[s][i]])
    ensures View(d, t, l, p) == View(c, t, l, p)
  {
    QueuedIsNowhere(c, copy);
    if Mapped(c, t, l, p) {
      ViewIs(c, t, l, p);
      assert BlockAt(c, t, p) in c.owned[t];
    }
    SameCell(c, d, t, l, p);
  }

  lemma CowReads(c: Cache, s: int, i: int)
    requires Core(c) && Copies(c, s, i)
    ensures SameReads(c, CowIfShared(c, s, i, Blocks(c, s)[i]).0)
  {
    var d := CowIfShared(c, s, i, Blocks(c, s)[i]).0;
    CowCore(c, s, i);
    CowIsMapped(c, s, i);
    forall t, l, p ensures View(d, t, l, p) == View(c, t, l, p) {
      CowReadsAt(c, d, s, i, c.pool.free[0], t, l, p);
    }
  }

  // After copy-on-write the written block is the sequence's own, unless it
  // was shared and nothing was left to copy into.
  ghost predicate Private(c: Cache, s: int, i: int) {
    0 <= i < |Blocks(c, s)| && 0 <= Blocks(c, s)[i] < |c.pool.refs| && c.pool.refs[Blocks(c, s)[i]] == 1
  }

  ghost predicate Writable(c: Cache, s: int, i: int) {
    && 0 <= i < |Blocks(c, s)| && 0 <= Blocks(c, s)[i] < |c.pool.refs|
    && (c.pool.refs[Blocks(c, s)[i]] <= 1 || |c.pool.free| > 0)
  }

  lemma CowIsPrivate(c: Cache, s: int, i: int)
    requires Core(c) && Writable(c, s, i)
    ensures var (d, b) := CowIfShared(c, s, i, Blocks(c, s)[i]);
      && Private(d, s, i) && b == Blocks(d, s)[i] && |Blocks(d, s)| == |Blocks(c, s)|
      && d.lens == c.lens && d.cfg == c.cfg && d.owned.Keys == c.owned.Keys && d.swap == c.swap && d.lru == c.lru
  {
    assert Blocks(c, s)[i] in c.owned[s];
    OwnedIsReferenced(c, s, Blocks(c, s)[i]);
    if Copies(c, s, i) {
      assert c.pool.free[..1] == [c.pool.free[0]];
      assert c.pool.free[0] in c.pool.free;
      QueuedIsNowhere(c, c.pool.free[0]);
    }
  }

  // ---- Storing ----

  // Where a store into block b shows: wherever the block is listed.
  ghost predicate Shows(c: Cache, l: int, p: nat, b: int, t: int, m: int, q: int) {
    m == l && Mapped(c, t, m, q) && BlockAt(c, t, q) == b && Rem(q, c.cfg.blockSize) == Rem(p, c.cfg.blockSize)
  }

  lemma StoreReads(c: Cache, l: int, s: int, p: nat, b: int, v: KV)
    requires Core(c) && 0 < b < c.cfg.numBlocks && c.pool.refs[b] > 0
    requires 0 <= l < c.cfg.layers && 0 <= s < c.cfg.maxSeqs
    ensures Core(Store(c, l, s, p, b, v))
    ensures var d := Store(c, l, s, p, b, v);
      && (forall t, m, q :: View(d, t, m, q) == if Shows(c, l, p, b, t, m, q) then v else View(c, t, m, q))
      && (forall t :: Length(d, t) == if t == s then Max(Length(c, s), p + 1) else Length(c, t))
  {
    var d := Store(c, l, s, p, b, v);
    StoreCore(c, l, s, p, b, v);
    assert InCell(c, b, l, Rem(p, c.cfg.blockSize));
    forall t, m, q ensures View(d, t, m, q) == if Shows(c, l, p, b, t, m, q) then v else View(c, t, m, q) {
      ViewIs(c, t, m, q);
      ViewIs(d, t, m, q);
    }
  }

  lemma SamePlace(p: nat, q: nat, bs: pos)
    requires Quot(p, bs) == Quot(q, bs) && Rem(p, bs) == Rem(q, bs)
    ensures p == q
  {
    Decompose(p, bs);
    Decompose(q, bs);
  }

  lemma PrivateShows(c: Cache, l: int, s: int, p: nat, t: int, m: int, q: int)
    requires Core(c) && 0 <= l < c.cfg.layers && s in c.owned && Private(c, s, Quot(p, c.cfg.blockSize))
    ensures Shows(c, l, p, Blocks(c, s)[Quot(p, c.cfg.blockSize)], t, m, q) <==> t == s && m == l && q == p
  {
    var i := Quot(p, c.cfg.blockSize);
    var b := Blocks(c, s)[i];
    assert b in c.owned[s];
    if Shows(c, l, p, b, t, m, q) {
      assert b in c.owned[t];
      if t != s { SoleOwner(c, s, t, b); }
      SamePlace(p, q, c.cfg.blockSize);
    }
  }

  // A store into a private block is a point update of one sequence.
  lemma PrivateStoreReads(c: Cache, l: int, s: int, p: nat, v: KV)
    requires Core(c) && 0 <= l < c.cfg.layers && s in c.owned && Private(c, s, Quot(p, c.cfg.blockSize))
    ensures var d := Store(c, l, s, p, Blocks(c, s)[Quot(p, c.cfg.blockSize)], v);
      && Core(d)
      && (forall t, m, q :: View(d, t, m, q) == if t == s && m == l && q == p then v else View(c, t, m, q))
      && (forall t :: Length(d, t) == if t == s then Max(Length(c, s), p + 1) else Length(c, t))
  {
    var b := Blocks(c, s)[Quot(p, c.cfg.blockSize)];
    assert b in c.owned[s];
    StoreReads(c, l, s, p, b, v);
    forall t, m, q
      ensures Shows(c, l, p, b, t, m, q) <==> t == s && m == l && q == p
    {
      PrivateShows(c, l, s, p, t, m, q);
    }
  }
}
