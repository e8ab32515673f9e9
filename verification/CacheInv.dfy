// The invariant that ties the free queue, the reference counts, the block
// lists, the block table, the dirty set and the tensors together, and its
// preservation by every step of the cache.
module CacheInv {
  import opened Prelude
  import opened Hashing
  import opened PoolSpec
  import opened CacheSpec

  // ---- Occurrences of a block over the block lists of the first n slots ----

  ghost function Count(owned: map<int, seq<int>>, s: int, b: int): nat {
    if s in owned then multiset(owned[s])[b] else 0
  }

  ghost function Occ(owned: map<int, seq<int>>, n: nat, b: int): nat {
    if n == 0 then 0 else Occ(owned, n - 1, b) + Count(owned, n - 1, b)
  }

  lemma {:induction false} OccFrame(o1: map<int, seq<int>>, o2: map<int, seq<int>>, n: nat, b: int)
    requires forall s :: 0 <= s < n ==> Count(o1, s, b) == Count(o2, s, b)
    ensures Occ(o1, n, b) == Occ(o2, n, b)
  {
    if n > 0 { OccFrame(o1, o2, n - 1, b); }
  }

  // Changing one slot's list changes the total by the difference.
  lemma {:induction false} OccChange(o1: map<int, seq<int>>, o2: map<int, seq<int>>, n: nat, s: nat, b: int)
    requires s < n
    requires forall t :: 0 <= t < n && t != s ==> Count(o1, t, b) == Count(o2, t, b)
    ensures Occ(o2, n, b) == Occ(o1, n, b) - Count(o1, s, b) + Count(o2, s, b)
    ensures Occ(o1, n, b) >= Count(o1, s, b)
  {
    if s == n - 1 { OccFrame(o1, o2, n - 1, b); } else { OccChange(o1, o2, n - 1, s, b); }
  }

  lemma {:induction false} OccZero(owned: map<int, seq<int>>, n: nat, b: int)
    requires forall s :: s in owned ==> b !in owned[s]
    ensures Occ(owned, n, b) == 0
  {
    if n > 0 { OccZero(owned, n - 1, b); }
  }

  // A block listed by two slots is counted twice.
  lemma OccTwice(owned: map<int, seq<int>>, n: nat, s: nat, t: nat, b: int)
    requires s < n && t < n && s != t && s in owned && t in owned
    requires b in owned[s] && b in owned[t]
    ensures Occ(owned, n, b) >= 2
  {
    var o := owned - {s};
    OccChange(owned, o, n, s, b);
    OccChange(o, o - {t}, n, t, b);
  }

  // ---- The invariant ----

  ghost predicate Shape(c: Cache) {
    && c.cfg.numBlocks > 0
    && |c.cells| == |c.pool.refs| == c.cfg.numBlocks
    && (forall b :: 0 <= b < |c.cells| ==> HasShape(c.cells[b], c.cfg))
    && |c.table| == |c.lens| == c.cfg.maxSeqs
    && (forall s :: 0 <= s < |c.table| ==> |c.table[s]| == c.cfg.maxBlocks)
    && (forall s :: 0 <= s < |c.lens| ==> c.lens[s] >= 0)
  }

  ghost predicate ListOk(c: Cache, blocks: seq<int>) {
    && |blocks| <= c.cfg.maxBlocks && Distinct(blocks)
    && forall b :: b in blocks ==> 0 < b < c.cfg.numBlocks && Some(b) != c.dummy
  }

  ghost predicate OwnedOk(c: Cache) {
    forall s :: s in c.owned ==> 0 <= s < c.cfg.maxSeqs && ListOk(c, c.owned[s])
  }

  // Reference counts are exactly the occurrences, plus one for the block
  // that stands behind padded graph rows.
  ghost predicate RefsExact(c: Cache) {
    forall b :: 0 < b < |c.pool.refs| ==>
      c.pool.refs[b] == Occ(c.owned, c.cfg.maxSeqs, b) + if c.dummy == Some(b) then 1 else 0
  }

  ghost predicate DummyOk(c: Cache) {
    c.dummy.Some? ==> 0 < c.dummy.value < |c.pool.refs| == |c.pool.tags| && c.pool.tags[c.dummy.value] == None
  }

  // Only the prefix cache makes sequences share blocks.
  ghost predicate SharingOk(c: Cache) {
    !c.pool.caching ==> forall b :: 0 <= b < |c.pool.refs| ==> c.pool.refs[b] <= 1
  }

  ghost predicate TableMirrors(c: Cache) {
    forall s, i :: 0 <= s < |c.table| && 0 <= i < |c.table[s]| ==>
      c.table[s][i] == if i < |Blocks(c, s)| then Blocks(c, s)[i] else -1
  }

  // A queued block that is not marked dirty is all zeros.
  ghost predicate CleanFree(c: Cache) {
    forall b :: 0 < b < |c.cells| == |c.pool.refs| && c.pool.refs[b] == 0 && b !in c.dirty ==>
      c.cells[b] == ZeroContent(c.cfg)
  }

  ghost predicate Core(c: Cache) {
    && Shape(c) && PoolOk(c.pool) && OwnedOk(c) && RefsExact(c) && DummyOk(c)
    && SharingOk(c) && TableMirrors(c) && CleanFree(c)
  }

  ghost function OutBlocks(out: map<int, Stashed>): map<int, seq<int>> {
    map s | s in out :: out[s].blocks
  }

  ghost predicate StashOk(c: Cache, s: int, m: Stashed) {
    && 0 <= s < c.cfg.maxSeqs && s !in c.owned && m.len >= 0
    && |m.blocks| <= c.cfg.maxBlocks && forall b :: b in m.blocks ==> 0 <= b < |c.swap.cells|
  }

  // Every CPU block is free or belongs to one swapped-out sequence, once.
  ghost predicate SwapOk(c: Cache) {
    && (c.swap.enabled ==> |c.swap.cells| == c.cfg.numBlocks)
    && (!c.swap.enabled ==> |c.swap.cells| == 0 && c.swap.out == map[])
    && (forall b :: 0 <= b < |c.swap.cells| ==> HasShape(c.swap.cells[b], c.cfg))
    && (forall s :: s in c.swap.out ==> StashOk(c, s, c.swap.out[s]))
    && (forall b :: b in c.swap.free ==> 0 <= b < |c.swap.cells|)
    && (forall b :: 0 <= b < |c.swap.cells| ==>
          multiset(c.swap.free)[b] + Occ(OutBlocks(c.swap.out), c.cfg.maxSeqs, b) == 1)
  }

  // ---- Consequences ----

  lemma OwnedIsReferenced(c: Cache, s: int, b: int)
    requires OwnedOk(c) && RefsExact(c) && Shape(c) && s in c.owned && b in c.owned[s]
    ensures 0 < b < |c.pool.refs| && c.pool.refs[b] >= 1
  {
    OccChange(c.owned, c.owned - {s}, c.cfg.maxSeqs, s, b);
  }

  // A block referenced once is listed nowhere else.
  lemma SoleOwner(c: Cache, s: int, t: int, b: int)
    requires OwnedOk(c) && RefsExact(c) && Shape(c) && s in c.owned && t in c.owned && s != t
    requires b in c.owned[s] && b in c.owned[t]
    ensures 0 < b < |c.pool.refs| && c.pool.refs[b] >= 2
  {
    OccTwice(c.owned, c.cfg.maxSeqs, s, t, b);
  }

  lemma QueuedIsNowhere(c: Cache, b: int)
    requires Core(c) && b in c.pool.free
    ensures 0 < b < |c.pool.refs| && c.pool.refs[b] == 0 && c.dummy != Some(b)
    ensures Occ(c.owned, c.cfg.maxSeqs, b) == 0
    ensures forall s :: s in c.owned ==> b !in c.owned[s]
  {
    forall s | s in c.owned ensures b !in c.owned[s] {
      if b in c.owned[s] { OwnedIsReferenced(c, s, b); }
    }
  }

  // Lengths, LRU bookkeeping and the CPU area are beside the core.
  lemma CoreBeside(c: Cache, d: Cache)
    requires Core(c) && d == c.(lens := d.lens, lru := d.lru, swap := d.swap, pinned := d.pinned, evicted := d.evicted)
    requires |d.lens| == |c.lens| && forall s :: 0 <= s < |d.lens| ==> d.lens[s] >= 0
    ensures Core(d)
  {
  }

  // ---- Giving queued blocks to a sequence ----

  // The state after taking n blocks for slot s, with new tensor contents.
  ghost predicate Extends(c: Cache, d: Cache, s: int, n: nat) {
    && n <= |c.pool.free| && 0 <= s < c.cfg.maxSeqs
    && |Blocks(c, s)| + n <= c.cfg.maxBlocks
    && d.cfg == c.cfg && d.dummy == c.dummy
    && d.pool == Take(c.pool, n)
    && d.table == Upd(c.table, s, SetRow(RowOf(c, s), |Blocks(c, s)|, c.pool.free[..n]))
    && d.owned == c.owned[s := Blocks(c, s) + c.pool.free[..n]]
    && d.lens == c.lens
  }

  lemma ExtendsOwned(c: Cache, d: Cache, s: int, n: nat)
    requires Core(c) && Extends(c, d, s, n)
    ensures OwnedOk(d) && RefsExact(d)
  {
    var taken := c.pool.free[..n];
    TakeOk(c.pool, n);
    forall b | b in taken ensures b in c.pool.free && b !in Blocks(c, s) && Some(b) != c.dummy
      && Occ(c.owned, c.cfg.maxSeqs, b) == 0 && 0 < b < |c.pool.refs|
    {
      QueuedIsNowhere(c, b);
    }
    JoinDistinct(Blocks(c, s), taken);
    forall b | 0 < b < |d.pool.refs|
      ensures d.pool.refs[b] == Occ(d.owned, d.cfg.maxSeqs, b) + if d.dummy == Some(b) then 1 else 0
    {
      OccChange(c.owned, d.owned, c.cfg.maxSeqs, s, b);
      DistinctCount(taken, b);
      assert multiset(Blocks(c, s) + taken) == multiset(Blocks(c, s)) + multiset(taken);
    }
  }

  lemma ExtendsTable(c: Cache, d: Cache, s: int, n: nat)
    requires Core(c) && Extends(c, d, s, n)
    ensures TableMirrors(d)
  {
    forall t, i | 0 <= t < |d.table| && 0 <= i < |d.table[t]|
      ensures d.table[t][i] == if i < |Blocks(d, t)| then Blocks(d, t)[i] else -1
    {
      assert c.table[t][i] == if i < |Blocks(c, t)| then Blocks(c, t)[i] else -1;
    }
  }

  // Whatever the new blocks hold, the invariant survives as long as the
  // other blocks are left alone.
  lemma ExtendsCore(c: Cache, d: Cache, s: int, n: nat)
    requires Core(c) && Extends(c, d, s, n)
    requires |d.cells| == |c.cells|
    requires forall b :: 0 <= b < |d.cells| ==> HasShape(d.cells[b], d.cfg)
    requires forall b :: 0 <= b < |d.cells| && b !in c.pool.free[..n] ==> d.cells[b] == c.cells[b]
    requires forall b :: b in c.dirty && b !in c.pool.free[..n] ==> b in d.dirty
    ensures Core(d)
  {
    TakeOk(c.pool, n);
    ExtendsOwned(c, d, s, n);
    ExtendsTable(c, d, s, n);
    if c.dummy.Some? {
      assert c.dummy.value !in c.pool.free[..n] by {
        if c.dummy.value in c.pool.free { QueuedIsNowhere(c, c.dummy.value); }
      }
    }
  }

  // ---- Taking the blocks of a sequence back ----

  // The common part of freeing a sequence and swapping it out.
  ghost predicate Drops(c: Cache, d: Cache, s: int) {
    && d.cfg == c.cfg && d.dummy == c.dummy && d.cells == c.cells
    && d.pool == Release(c.pool, Reverse(Blocks(c, s)))
    && d.dirty == c.dirty + Elements(Blocks(c, s))
    && d.owned == c.owned - {s}
    && d.table == Upd(c.table, s, ClearRow(RowOf(c, s), |Blocks(c, s)|))
    && d.lens == Upd(c.lens, s, 0)
  }

  lemma ReverseElements<T>(s: seq<T>)
    ensures forall x :: x in Reverse(s) <==> x in s
    ensures Distinct(s) ==> Distinct(Reverse(s))
  {
    var r := Reverse(s);
    forall x | x in s ensures x in r {
      var i :| 0 <= i < |s| && s[i] == x;
      assert r[|s| - 1 - i] == x;
    }
    if Distinct(s) {
      forall i, j | 0 <= i < j < |r| ensures r[i] != r[j] {
        assert s[|s| - 1 - j] != s[|s| - 1 - i];
      }
    }
  }

  lemma DropsCore(c: Cache, d: Cache, s: int)
    requires Core(c) && Drops(c, d, s)
    ensures Core(d)
    ensures |d.pool.free| >= |c.pool.free|
  {
    hide RefsExact, OwnedOk, TableMirrors, PoolOk, Occ, Reverse, Idle;
    DropsPool(c, d, s);
    DropsRefs(c, d, s);
    DropsTable(c, d, s);
  }

  lemma DropsPool(c: Cache, d: Cache, s: int)
    requires Core(c) && Drops(c, d, s)
    ensures PoolOk(d.pool) && |d.pool.free| >= |c.pool.free|
  {
    var blocks := Blocks(c, s);
    ReverseElements(blocks);
    forall b | b in blocks ensures 0 < b < |c.pool.refs| && c.pool.refs[b] >= 1 && Some(b) != c.dummy {
      OwnedIsReferenced(c, s, b);
    }
    hide RefsExact, TableMirrors, PoolOk, Occ, Reverse;
    ReleaseOk(c.pool, Reverse(blocks));
  }

  lemma DropsRefs(c: Cache, d: Cache, s: int)
    requires Core(c) && Drops(c, d, s)
    ensures RefsExact(d) && OwnedOk(d)
  {
    var blocks := Blocks(c, s);
    ReverseElements(blocks);
    forall b | 0 < b < |d.pool.refs|
      ensures d.pool.refs[b] == Occ(d.owned, d.cfg.maxSeqs, b) + if d.dummy == Some(b) then 1 else 0
    {
      DistinctCount(blocks, b);
      if s in c.owned {
        OccChange(c.owned, d.owned, c.cfg.maxSeqs, s, b);
      } else {
        OccFrame(c.owned, d.owned, c.cfg.maxSeqs, b);
      }
    }
  }

  lemma DropsTable(c: Cache, d: Cache, s: int)
    requires Core(c) && Drops(c, d, s)
    ensures TableMirrors(d)
  {
    forall t, i | 0 <= t < |d.table| && 0 <= i < |d.table[t]|
      ensures d.table[t][i] == if i < |Blocks(d, t)| then Blocks(d, t)[i] else -1
    {
      assert c.table[t][i] == if i < |Blocks(c, t)| then Blocks(c, t)[i] else -1;
    }
  }

  lemma FreeSequenceCore(c: Cache, s: int)
    requires Core(c)
    ensures Core(FreeSequence(c, s)) && Drops(c, FreeSequence(c, s), s)
    ensures |FreeSequence(c, s).pool.free| >= |c.pool.free|
  {
    var d := FreeSequence(c, s);
    if Blocks(c, s) == [] {
      assert Reverse(Blocks(c, s)) == [];
      assert Release(c.pool, []).refs == c.pool.refs;
      assert Release(c.pool, []) == c.pool;
      assert ClearRow(RowOf(c, s), 0) == RowOf(c, s);
      assert Elements(Blocks(c, s)) == {};
    }
    DropsCore(c, d, s);
  }

  // ---- Copy-on-write ----

  lemma CowIsMapped(c: Cache, s: int, i: int)
    requires Core(c) && s in c.owned && 0 <= i < |Blocks(c, s)|
    ensures 0 <= s < |c.table| && i < |c.table[s]| && c.table[s][i] == Blocks(c, s)[i]
    ensures 0 < Blocks(c, s)[i] < |c.cells|
  {
    assert Blocks(c, s)[i] in c.owned[s];
  }

  lemma CowPool(c: Cache, s: int, i: int)
    requires Core(c) && Copies(c, s, i)
    ensures var d := CowIfShared(c, s, i, Blocks(c, s)[i]).0; var shared, copy := Blocks(c, s)[i], c.pool.free[0];
      && PoolOk(d.pool) && |d.pool.refs| == |c.pool.refs|
      && 0 < copy < |c.pool.refs| && 0 < shared < |c.pool.refs| && copy != shared && copy !in Blocks(c, s)
      && Occ(c.owned, c.cfg.maxSeqs, copy) == 0 && c.dummy != Some(copy)
      && d.pool.refs == c.pool.refs[copy := 1][shared := c.pool.refs[shared] - 1]
      && d.pool.free == c.pool.free[1..]
  {
    var shared, copy := Blocks(c, s)[i], c.pool.free[0];
    var d := CowIfShared(c, s, i, shared).0;
    var p := Take(c.pool, 1);
    assert c.pool.free[..1] == [copy] && copy in c.pool.free;
    assert shared in c.owned[s];
    OwnedIsReferenced(c, s, shared);
    QueuedIsNowhere(c, copy);
    TakeOk(c.pool, 1);
    assert p.refs[shared] == c.pool.refs[shared];
    assert Idle(p.refs, [shared]) == [];
    ReleaseOk(p, [shared]);
    assert d.pool.refs == c.pool.refs[copy := 1][shared := c.pool.refs[shared] - 1];
  }

  // Swapping one entry of one list for an unlisted block.
  lemma SwappedRefs(c: Cache, d: Cache, s: int, i: int, copy: int)
    requires OwnedOk(c) && RefsExact(c) && s in c.owned && 0 <= i < |c.owned[s]|
    requires d.cfg == c.cfg && d.dummy == c.dummy && d.owned == c.owned[s := c.owned[s][i := copy]]
    requires 0 < copy < |c.pool.refs| && 0 < c.owned[s][i] < |c.pool.refs| && copy != c.owned[s][i]
    requires copy !in c.owned[s] && Occ(c.owned, c.cfg.maxSeqs, copy) == 0 && c.dummy != Some(copy)
    requires d.pool.refs == c.pool.refs[copy := 1][c.owned[s][i] := c.pool.refs[c.owned[s][i]] - 1]
    ensures RefsExact(d)
  {
    var l1, l2 := c.owned[s], d.owned[s];
    assert multiset(l2) == multiset(l1) - multiset{l1[i]} + multiset{copy};
    forall b | 0 < b < |d.pool.refs|
      ensures d.pool.refs[b] == Occ(d.owned, d.cfg.maxSeqs, b) + if d.dummy == Some(b) then 1 else 0
    {
      OccChange(c.owned, d.owned, c.cfg.maxSeqs, s, b);
    }
  }

  lemma SwappedList(c: Cache, blocks: seq<int>, i: int, copy: int)
    requires ListOk(c, blocks) && 0 <= i < |blocks| && copy !in blocks
    requires 0 < copy < c.cfg.numBlocks && c.dummy != Some(copy)
    ensures ListOk(c, blocks[i := copy])
  {
    var r := blocks[i := copy];
    assert forall b :: b in r ==> b in blocks || b == copy;
    forall j, k | 0 <= j < k < |r| ensures r[j] != r[k] {
      assert blocks[j] in blocks && blocks[k] in blocks;
    }
  }

  lemma CowOwned(c: Cache, s: int, i: int)
    requires Core(c) && Copies(c, s, i)
    ensures var d := CowIfShared(c, s, i, Blocks(c, s)[i]).0;
            OwnedOk(d) && RefsExact(d) && PoolOk(d.pool)
  {
    var shared, copy := Blocks(c, s)[i], c.pool.free[0];
    var d := CowIfShared(c, s, i, shared).0;
    CowPool(c, s, i);
    assert d.owned == c.owned[s := Blocks(c, s)[i := copy]] && d.dummy == c.dummy && d.cfg == c.cfg;
    hide CowIfShared, PoolOk, RefsExact, ListOk, Occ;
    SwappedRefs(c, d, s, i, copy);
    SwappedList(c, c.owned[s], i, copy);
    forall t | t in d.owned ensures ListOk(d, d.owned[t]) {
      ListFrame(c, d, d.owned[t]);
    }
  }

  lemma ListFrame(c: Cache, d: Cache, blocks: seq<int>)
    requires d.cfg == c.cfg && d.dummy == c.dummy
    ensures ListOk(d, blocks) <==> ListOk(c, blocks)
  {
  }

  lemma CowCore(c: Cache, s: int, i: int)
    requires Core(c) && Copies(c, s, i)
    ensures Core(CowIfShared(c, s, i, Blocks(c, s)[i]).0)
  {
    var d := CowIfShared(c, s, i, Blocks(c, s)[i]).0;
    CowOwned(c, s, i);
    CowIsMapped(c, s, i);
    assert c.pool.free[..1] == [c.pool.free[0]];
    assert c.pool.free[0] in c.pool.free;
    QueuedIsNowhere(c, c.pool.free[0]);
    forall t, j | 0 <= t < |d.table| && 0 <= j < |d.table[t]|
      ensures d.table[t][j] == if j < |Blocks(d, t)| then Blocks(d, t)[j] else -1
    {
      assert c.table[t][j] == if j < |Blocks(c, t)| then Blocks(c, t)[j] else -1;
    }
  }

  // ---- Adopting a cached block ----

  lemma AdoptCore(c: Cache, s: int, b: int)
    requires Core(c) && 0 <= s < c.cfg.maxSeqs && |Blocks(c, s)| < c.cfg.maxBlocks
    requires c.pool.caching && 0 < b < c.cfg.numBlocks && b !in Blocks(c, s) && Some(b) != c.dummy
    ensures Core(Adopt(c, s, |Blocks(c, s)|, b))
  {
    ShareOk(c.pool, b);
    AdoptRefs(c, s, b);
    AdoptTable(c, s, b);
    hide RefsExact, OwnedOk, TableMirrors, PoolOk, Occ;
  }

  lemma AdoptRefs(c: Cache, s: int, b: int)
    requires Core(c) && 0 <= s < c.cfg.maxSeqs && |Blocks(c, s)| < c.cfg.maxBlocks
    requires 0 < b < c.cfg.numBlocks && b !in Blocks(c, s) && Some(b) != c.dummy
    ensures var d := Adopt(c, s, |Blocks(c, s)|, b); RefsExact(d) && OwnedOk(d)
  {
    var d := Adopt(c, s, |Blocks(c, s)|, b);
    JoinDistinct(Blocks(c, s), [b]);
    forall x | 0 < x < |d.pool.refs|
      ensures d.pool.refs[x] == Occ(d.owned, d.cfg.maxSeqs, x) + if d.dummy == Some(x) then 1 else 0
    {
      OccChange(c.owned, d.owned, c.cfg.maxSeqs, s, x);
      assert multiset(Blocks(c, s) + [b]) == multiset(Blocks(c, s)) + multiset{b};
    }
  }

  lemma AdoptTable(c: Cache, s: int, b: int)
    requires Core(c) && 0 <= s < c.cfg.maxSeqs && |Blocks(c, s)| < c.cfg.maxBlocks && 0 < b < c.cfg.numBlocks
    ensures TableMirrors(Adopt(c, s, |Blocks(c, s)|, b))
  {
    var d := Adopt(c, s, |Blocks(c, s)|, b);
    forall t, j | 0 <= t < |d.table| && 0 <= j < |d.table[t]|
      ensures d.table[t][j] == if j < |Blocks(d, t)| then Blocks(d, t)[j] else -1
    {
      assert c.table[t][j] == if j < |Blocks(c, t)| then Blocks(c, t)[j] else -1;
    }
  }

  // ---- Steps that only touch tensors, lengths, tags or the LRU ----

  lemma PutShape(c: Cache, b: int, l: int, o: int, v: KV)
    requires Shape(c)
    ensures var r := Put(c.cells, b, l, o, v);
            forall x :: 0 <= x < |r| ==> HasShape(r[x], c.cfg)
  {
  }

  lemma StoreCore(c: Cache, l: int, s: int, p: nat, b: int, v: KV)
    requires Core(c) && 0 < b < c.cfg.numBlocks && c.pool.refs[b] > 0
    ensures Core(Store(c, l, s, p, b, v))
  {
    PutShape(c, b, l, Rem(p, c.cfg.blockSize), v);
  }

  lemma TouchCore(c: Cache, s: int)
    requires Core(c)
    ensures Core(Touch(c, s)) && Touch(c, s) == c.(lru := Touch(c, s).lru)
  {
  }

  lemma RegisterOneCore(c: Cache, s: int, i: nat, h: Hash)
    requires Core(c) && i < |Blocks(c, s)|
    ensures 0 < Blocks(c, s)[i] < |c.pool.tags|
    ensures Core(c.(pool := Register(c.pool, Blocks(c, s)[i], h)))
  {
    var b := Blocks(c, s)[i];
    assert b in c.owned[s];
    RegisterOk(c.pool, b, h);
  }

  lemma {:induction false} RegisterCore(c: Cache, s: int, ns: Namespace, tokens: seq<int>, n: nat)
    requires Core(c) && n * c.cfg.blockSize <= |tokens| && n <= |Blocks(c, s)|
    ensures Core(RegisterUpTo(c, s, ns, tokens, n))
  {
    hide Core, Register;
    if n > 0 {
      NextBlock(n - 1, c.cfg.blockSize);
      RegisterCore(c, s, ns, tokens, n - 1);
      var d := RegisterUpTo(c, s, ns, tokens, n - 1);
      assert Blocks(d, s) == Blocks(c, s);
      RegisterOneCore(d, s, n - 1, Chain(ns, tokens, c.cfg.blockSize, n).value);
    }
  }

  lemma EnableCachingCore(c: Cache)
    requires Core(c)
    ensures Core(EnablePrefixCaching(c))
  {
  }

  lemma InitGraphCore(c: Cache)
    requires Core(c)
    ensures InitGraphBuffers(c).Some? ==> Core(InitGraphBuffers(c).value)
  {
    if c.dummy.None? && |c.pool.free| > 0 {
      var b := c.pool.free[0];
      var d := InitGraphBuffers(c).value;
      assert c.pool.free[..1] == [b] && b in c.pool.free;
      TakeOk(c.pool, 1);
      QueuedIsNowhere(c, b);
    }
  }

  lemma InitCore(cfg: Config)
    requires cfg.numBlocks > 0
    ensures Core(Init(cfg))
  {
    var c := Init(cfg);
    FreshOk(cfg.numBlocks, false);
    forall b | 0 < b < |c.pool.refs| ensures Occ(c.owned, cfg.maxSeqs, b) == 0 {
      OccZero(c.owned, cfg.maxSeqs, b);
    }
  }
}
