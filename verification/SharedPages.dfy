// Published pages: which sequences hold the block behind a cached hash, and
// what every call of the cache does to the rows in it.
module SharedPages {
  import opened Prelude
  import opened Hashing
  import opened PoolSpec
  import opened CacheSpec
  import opened CacheInv
  import opened Lru
  import opened CacheView
  import opened CacheSteps
  import opened CacheBatch
  import opened PrefixCache
  import opened Transparency
  import opened Swapping
  import opened CacheRun
  import opened CacheDiscipline
  import GraphMode
  import opened DecodeStores

  // ---- The record kept beside plain arrays ----

  // For each published hash: the rows of its page and the sequences that have
  // the page in their lists.
  datatype Shelf = Shelf(rows: (Hash, int, int) -> KV, holders: Hash -> set<int>)

  // The place of a page in a list is told by its hash.
  function PlaceOf(h: Hash): int {
    Depth(Some(h)) - 1
  }

  // Some sequences lost everything they had.
  function Less(w: Shelf, lost: set<int>): Shelf {
    w.(holders := (h: Hash) => w.holders(h) - lost)
  }

  // Before a sequence writes, it leaves the pages it shares at these places:
  // copy-on-write.
  function Leave(w: Shelf, s: int, places: seq<nat>): Shelf {
    w.(holders := (h: Hash) =>
         if PlaceOf(h) >= 0 && PlaceOf(h) in places && s in w.holders(h) && w.holders(h) != {s}
         then w.holders(h) - {s} else w.holders(h))
  }

  // Rows written by the only holder of a page go into the page.
  ghost function Through(w: Shelf, l: int, s: int, positions: seq<nat>, rows: seq<KV>, k: nat, bs: pos): Shelf
    requires k <= |positions| == |rows|
  {
    w.(rows := (h: Hash, m: int, o: int) =>
         if m == l && 0 <= o < bs && w.holders(h) == {s} && LastRow(positions, rows, k, PlaceOf(h) * bs + o).Some?
         then LastRow(positions, rows, k, PlaceOf(h) * bs + o).value else w.rows(h, m, o))
  }

  // A sequence publishes pages with the rows it reads there.
  ghost function Publish(w: Shelf, s: int, pages: set<Hash>, rows: (int, int, int) -> KV, bs: pos): Shelf {
    Shelf((h: Hash, m: int, o: int) => if h in pages then rows(s, m, PlaceOf(h) * bs + o) else w.rows(h, m, o),
          (h: Hash) => if h in pages then {s} else w.holders(h))
  }

  function Join(w: Shelf, s: int, pages: set<Hash>): Shelf {
    w.(holders := (h: Hash) => if h in pages then w.holders(h) + {s} else w.holders(h))
  }

  // The pages of the first n blocks of a prompt.
  ghost function PagesOf(ns: Namespace, tokens: seq<int>, bs: pos, n: nat): set<Hash>
    requires n * bs <= |tokens|
  {
    if n == 0 then {}
    else
      NextBlock(n - 1, bs);
      PagesOf(ns, tokens, bs, n - 1) + {Chain(ns, tokens, bs, n).value}
  }

  lemma {:induction false} PagesAre(ns: Namespace, tokens: seq<int>, bs: pos, n: nat, h: Hash)
    requires n * bs <= |tokens|
    ensures h in PagesOf(ns, tokens, bs, n) <==>
      0 <= PlaceOf(h) < n && (PlaceOf(h) + 1) * bs <= |tokens| && Some(h) == Chain(ns, tokens, bs, PlaceOf(h) + 1)
  {
    if n > 0 {
      NextBlock(n - 1, bs);
      PagesAre(ns, tokens, bs, n - 1, h);
      ChainIs(ns, tokens, bs, n);
      if 0 <= PlaceOf(h) < n { BlockStart(PlaceOf(h) + 1, n, bs); }
    }
  }

  // ---- How the cache realises the record ----

  ghost predicate Placed(c: Cache, j: nat, b: int) {
    0 <= b < |c.pool.tags| && c.pool.tags[b].Some? ==> PlaceOf(c.pool.tags[b].value) == j
  }

  // Shared blocks have hashes, and a hashed block stands in every list at
  // the place its hash tells.
  ghost predicate Linked(c: Cache) {
    && |c.pool.refs| == |c.pool.tags| && SharedTagged(c)
    && forall s, j :: s in c.owned && 0 <= j < |c.owned[s]| ==> Placed(c, j, c.owned[s][j])
  }

  ghost predicate HeldBy(c: Cache, w: Shelf, h: Hash)
    requires h in c.pool.index
  {
    forall t :: t in w.holders(h) <==> t in c.owned && c.pool.index[h] in c.owned[t]
  }

  ghost predicate RowsOn(c: Cache, w: Shelf, h: Hash)
    requires h in c.pool.index
  {
    forall l, o :: InCell(c, c.pool.index[h], l, o) ==> c.cells[c.pool.index[h]][l][o] == w.rows(h, l, o)
  }

  ghost predicate Shelved(c: Cache, w: Shelf) {
    Linked(c) && forall h :: h in c.pool.index ==> HeldBy(c, w, h) && RowsOn(c, w, h)
  }

  lemma PageIs(c: Cache, h: Hash)
    requires Core(c) && Linked(c) && h in c.pool.index
    ensures var b := c.pool.index[h];
      && 0 < b < |c.cells| == |c.pool.refs| == |c.pool.tags| && c.pool.tags[b] == Some(h) && c.dummy != Some(b)
      && forall t, j :: t in c.owned && 0 <= j < |c.owned[t]| && c.owned[t][j] == b ==> j == PlaceOf(h)
  {
    var b := c.pool.index[h];
    forall t, j | t in c.owned && 0 <= j < |c.owned[t]| && c.owned[t][j] == b ensures j == PlaceOf(h) {
      assert Placed(c, j, c.owned[t][j]);
    }
  }

  // One holder means one reference.
  lemma HeldAlone(c: Cache, w: Shelf, h: Hash, s: int)
    requires Core(c) && Linked(c) && h in c.pool.index && HeldBy(c, w, h) && s in w.holders(h)
    ensures 0 < c.pool.index[h] < |c.pool.refs| && (c.pool.refs[c.pool.index[h]] == 1 <==> w.holders(h) == {s})
  {
    PageIs(c, h);
    var b := c.pool.index[h];
    OwnedIsReferenced(c, s, b);
    if c.pool.refs[b] >= 2 {
      var t, j := OtherListing(c, s, b);
      assert t in w.holders(h);
    } else {
      forall t | t in w.holders(h) ensures t == s {
        if t != s { SoleOwner(c, s, t, b); }
      }
    }
  }

  // ---- Calls that only drop pages ----

  ghost predicate IndexKept(c: Cache, d: Cache) {
    forall h :: h in d.pool.index ==> h in c.pool.index && d.pool.index[h] == c.pool.index[h]
  }

  ghost predicate ListsStay(c: Cache, d: Cache) {
    forall t :: t in d.owned && t in c.owned ==> c.owned[t] <= d.owned[t]
  }

  ghost predicate Passes(c: Cache, d: Cache) {
    TagsKept(c, d) && ListsFrom(c, d) && IndexKept(c, d) && ListsStay(c, d)
  }

  lemma LinkedKept(c: Cache, d: Cache)
    requires Linked(c) && TagsKept(c, d) && ListsFrom(c, d)
    ensures Linked(d)
  {
    forall s, j | s in d.owned && 0 <= j < |d.owned[s]| ensures Placed(d, j, d.owned[s][j]) {
      assert ListedBefore(c, d, s, j, d.owned[s][j]);
      if s in c.owned && j < |c.owned[s]| { assert Placed(c, j, c.owned[s][j]); }
    }
  }

  lemma PassedShelved(c: Cache, d: Cache, w: Shelf, lost: set<int>)
    requires Shelved(c, w) && Core(d) && Passes(c, d)
    requires forall t :: t in c.owned ==> (t in lost <==> t !in d.owned)
    ensures Shelved(d, Less(w, lost))
  {
    LinkedKept(c, d);
    var v := Less(w, lost);
    forall h | h in d.pool.index ensures HeldBy(d, v, h) && RowsOn(d, v, h) {
      PageIs(d, h);
      var b := d.pool.index[h];
      assert HeldBy(c, w, h) && RowsOn(c, w, h);
      forall t ensures t in v.holders(h) <==> t in d.owned && b in d.owned[t] { HeldStays(c, d, t, b); }
      assert forall l, o :: InCell(d, b, l, o) ==> InCell(c, b, l, o);
    }
  }

  lemma HeldStays(c: Cache, d: Cache, t: int, b: int)
    requires ListsFrom(c, d) && ListsStay(c, d) && 0 <= b < |d.pool.tags| && d.pool.tags[b].Some?
    ensures t in d.owned && b in d.owned[t] <==> t in d.owned && t in c.owned && b in c.owned[t]
  {
    if t in d.owned && b in d.owned[t] {
      var j :| 0 <= j < |d.owned[t]| && d.owned[t][j] == b;
      assert ListedBefore(c, d, t, j, d.owned[t][j]);
    }
    if t in d.owned && t in c.owned && b in c.owned[t] {
      var j :| 0 <= j < |c.owned[t]| && c.owned[t][j] == b;
      assert d.owned[t][j] == b;
    }
  }

  lemma PassesTwice(c: Cache, d: Cache, e: Cache)
    requires Passes(c, d) && Passes(d, e) && forall t :: t in e.owned && t in c.owned ==> t in d.owned
    ensures Passes(c, e)
  {
    KeptTwice(c, d, e);
  }

  lemma {:induction false} FreeAllIndex(c: Cache, es: seq<Entry>)
    ensures FreeAll(c, es).pool.index == c.pool.index
    decreases |es|
  {
    if es != [] { FreeAllIndex(FreeSequence(c, es[0].seqId), es[1..]); }
  }

  lemma EvictPasses(c: Cache, needed: int, s: int)
    requires Inv(c) && EvictLru(c, needed, s).Evicted?
    ensures Passes(c, EvictLru(c, needed, s).c)
  {
    EvictKept(c, needed, s);
    EvictStep(c, needed, s);
    var k := EvictLruWorks(c, needed, s);
    FreeAllIndex(c, Live(c)[..k]);
  }

  lemma GrantPasses(c: Cache, s: int, n: nat)
    requires Core(c) && n <= |c.pool.free|
    ensures Passes(c, Grant(c, s, n))
  {
    GrantKept(c, s, n);
    GrantIs(c, s, n);
    hide Grant, TagsKept, ListsFrom;
  }

  lemma AllocatePasses(c: Cache, s: int, n: nat)
    requires Inv(c) && MayGrow(c, s, n)
    ensures !Allocate(c, s, n).NeverReturns? ==> Passes(c, Allocate(c, s, n).c)
  {
    hide Grant, EvictLru, TagsKept, ListsFrom, IndexKept, Inv, Core;
    SamePasses(c);
    if n <= |c.pool.free| {
      InvCore(c);
      GrantPasses(c, s, n);
    } else if c.cfg.lruEviction && EvictLru(c, Short(c, n), s).Evicted? {
      var r := EvictLru(c, Short(c, n), s);
      EvictPasses(c, Short(c, n), s);
      if Allocate(c, s, n).Granted? { GrantAfterEvict(c, s, n, r); }
    }
  }

  lemma GrantAfterEvict(c: Cache, s: int, n: nat, r: Eviction)
    requires Inv(c) && r == EvictLru(c, Short(c, n), s) && r.Evicted? && n <= |r.c.pool.free| && Passes(c, r.c)
    ensures Passes(c, Grant(r.c, s, n))
  {
    hide EvictLru, Passes, Grant;
    EvictStep(c, Short(c, n), s);
    GrantPasses(r.c, s, n);
    GrantIs(r.c, s, n);
    PassesTwice(c, r.c, Grant(r.c, s, n));
  }

  lemma SamePasses(c: Cache)
    requires Inv(c)
    ensures Passes(c, c)
  {
    forall t, j | t in c.owned && 0 <= j < |c.owned[t]| ensures ListedBefore(c, c, t, j, c.owned[t][j]) {}
  }

  lemma FreePasses(c: Cache, s: int)
    requires Core(c)
    ensures Passes(c, FreeSequence(c, s))
  {
    FreeKept(c, s);
  }

  lemma SwapOutPasses(c: Cache, s: int)
    requires Inv(c) && CanSwapOut(c, s)
    ensures Passes(c, SwapOut(c, s))
  {
    var d := SwapOut(c, s);
    forall t, j | t in d.owned && 0 <= j < |d.owned[t]| ensures ListedBefore(c, d, t, j, d.owned[t][j]) {}
  }

  lemma SwapInPasses(c: Cache, s: int)
    requires Inv(c) && CanSwapIn(c, s)
    ensures Passes(c, SwapIn(c, s)) && SwapIn(c, s).owned.Keys == c.owned.Keys + {s}
  {
    hide Core, LruOk, SwapOk, TagsKept, ListsFrom, CopyBlocks, SetRow, SwapIn;
    SwapInKept(c, s);
    StashedUnowned(c, s);
    SwapInFields(c, s);
  }

  lemma StashedUnowned(c: Cache, s: int)
    requires SwapOk(c) && s in c.swap.out
    ensures s !in c.owned
  {
    assert StashOk(c, s, c.swap.out[s]);
  }

  lemma SwapInFields(c: Cache, s: int)
    requires CanSwapIn(c, s)
    ensures var d, n := SwapIn(c, s), |c.swap.out[s].blocks|;
      d.pool == Take(c.pool, n) && d.owned == c.owned[s := c.pool.free[..n]]
  {
  }

  lemma GraphOnPasses(c: Cache)
    requires Inv(c) && InitGraphBuffers(c).Some?
    ensures Passes(c, InitGraphBuffers(c).value) && InitGraphBuffers(c).value.owned == c.owned
  {
    var d := InitGraphBuffers(c).value;
    if c.dummy.None? {
      TakeKept(c, 1);
      assert c.pool.free[..1] == [c.pool.free[0]];
    }
    forall t, j | t in d.owned && 0 <= j < |d.owned[t]| ensures ListedBefore(c, d, t, j, d.owned[t][j]) {}
  }

  // Steps that leave hashes, lists and tensors alone.
  lemma AlonePasses(c: Cache, d: Cache)
    requires Inv(c) && d.cfg == c.cfg && d.cells == c.cells && d.owned == c.owned
    requires d.pool == c.pool.(caching := d.pool.caching)
    ensures Passes(c, d)
  {
    forall t, j | t in d.owned && 0 <= j < |d.owned[t]| ensures ListedBefore(c, d, t, j, d.owned[t][j]) {}
  }

  // ---- Copy-on-write ----

  // Two records that agree on every page of the index.
  ghost predicate Agree(c: Cache, w: Shelf, v: Shelf) {
    forall h :: h in c.pool.index ==> w.holders(h) == v.holders(h) && forall m, o :: w.rows(h, m, o) == v.rows(h, m, o)
  }

  lemma AgreeShelved(c: Cache, w: Shelf, v: Shelf)
    requires Shelved(c, w) && Agree(c, w, v)
    ensures Shelved(c, v)
  {
    forall h | h in c.pool.index ensures HeldBy(c, v, h) && RowsOn(c, v, h) {
      assert HeldBy(c, w, h) && RowsOn(c, w, h);
    }
  }

  lemma NothingLeft(c: Cache, w: Shelf, s: int, i: nat)
    requires Core(c) && Shelved(c, w) && i < |Blocks(c, s)| && !Copies(c, s, i) && Writable(c, s, i)
    ensures Shelved(c, Leave(w, s, [i]))
  {
    forall h | h in c.pool.index ensures Leave(w, s, [i]).holders(h) == w.holders(h) {
      if PlaceOf(h) == i && s in w.holders(h) {
        assert HeldBy(c, w, h);
        PageIs(c, h);
        HeldAlone(c, w, h, s);
        OwnedIsReferenced(c, s, c.pool.index[h]);
        var j :| 0 <= j < |c.owned[s]| && c.owned[s][j] == c.pool.index[h];
        assert j == i && c.pool.caching;
      }
    }
    AgreeShelved(c, w, Leave(w, s, [i]));
  }

  // What copying the shared block i of a sequence does to lists and pages.
  ghost predicate CopiedAway(c: Cache, d: Cache, s: int, i: nat, copy: int) {
    && i < |Blocks(c, s)| && d.owned == c.owned[s := c.owned[s][i := copy]] && IndexKept(c, d)
    && d.cfg == c.cfg && |d.pool.tags| == |c.pool.tags| && |d.cells| == |c.cells|
    && 0 <= copy < |d.pool.tags| && d.pool.tags[copy] == None && copy != c.owned[s][i]
    && forall b :: 0 <= b < |c.cells| && b != copy ==> d.cells[b] == c.cells[b]
  }

  lemma CopyIsAway(c: Cache, s: int, i: nat)
    requires Core(c) && Copies(c, s, i)
    ensures CopiedAway(c, CowIfShared(c, s, i, Blocks(c, s)[i]).0, s, i, c.pool.free[0])
  {
    var copy := c.pool.free[0];
    TakeKept(c, 1);
    assert c.pool.free[..1] == [copy];
    assert copy in c.pool.free[..1] && copy in c.pool.free;
    QueuedIsNowhere(c, copy);
    assert Blocks(c, s)[i] in c.owned[s];
  }

  lemma CopiedShelved(c: Cache, d: Cache, w: Shelf, s: int, i: nat, copy: int)
    requires Core(c) && Core(d) && Shelved(c, w) && Linked(d) && CopiedAway(c, d, s, i, copy) && Copies(c, s, i)
    ensures Shelved(d, Leave(w, s, [i]))
  {
    var v := Leave(w, s, [i]);
    forall h | h in d.pool.index ensures HeldBy(d, v, h) && RowsOn(d, v, h) {
      PageIs(c, h);
      PageIs(d, h);
      var b := d.pool.index[h];
      assert HeldBy(c, w, h) && RowsOn(c, w, h) && b != copy;
      assert forall l, o :: InCell(d, b, l, o) ==> InCell(c, b, l, o);
      CopiedHolders(c, d, w, s, i, copy, h);
    }
  }

  lemma CopiedHolders(c: Cache, d: Cache, w: Shelf, s: int, i: nat, copy: int, h: Hash)
    requires Core(c) && Linked(c) && CopiedAway(c, d, s, i, copy) && Copies(c, s, i)
    requires h in d.pool.index && h in c.pool.index && HeldBy(c, w, h) && c.pool.index[h] != copy
    ensures HeldBy(d, Leave(w, s, [i]), h)
  {
    var b := c.pool.index[h];
    PageIs(c, h);
    if s in w.holders(h) { HeldAlone(c, w, h, s); }
    hide Core, Linked;
    ReplacedIn(c.owned[s], i, copy, b);
    var left := PlaceOf(h) == i && s in w.holders(h);
    assert left <==> s in c.owned && c.owned[s][i] == b;
  }

  lemma ReplacedIn(list: seq<int>, i: nat, copy: int, b: int)
    requires i < |list| && b != copy
    ensures b in list[i := copy] <==> exists j :: 0 <= j < |list| && j != i && list[j] == b
    ensures b in list <==> b in list[i := copy] || list[i] == b
  {
    var r := list[i := copy];
    if j :| 0 <= j < |list| && j != i && list[j] == b { assert r[j] == b; }
  }

  lemma CowShelved(c: Cache, w: Shelf, s: int, i: nat)
    requires Inv(c) && Shelved(c, w) && Writable(c, s, i)
    ensures Shelved(CowIfShared(c, s, i, Blocks(c, s)[i]).0, Leave(w, s, [i]))
  {
    if Copies(c, s, i) {
      var d := CowIfShared(c, s, i, Blocks(c, s)[i]).0;
      CowCore(c, s, i);
      CowKept(c, s, i);
      CopyIsAway(c, s, i);
      hide CowIfShared, Core, SharedTagged;
      LinkedKept(c, d);
      CopiedShelved(c, d, w, s, i, c.pool.free[0]);
    } else {
      NothingLeft(c, w, s, i);
    }
  }

  lemma LeftTwice(c: Cache, w: Shelf, s: int, i: nat, rest: seq<nat>)
    requires Shelved(c, Leave(Leave(w, s, [i]), s, rest))
    ensures Shelved(c, Leave(w, s, [i] + rest))
  {
    var v, x := Leave(Leave(w, s, [i]), s, rest), Leave(w, s, [i] + rest);
    forall h | h in c.pool.index ensures v.holders(h) == x.holders(h) {
      assert PlaceOf(h) >= 0 ==> (PlaceOf(h) in [i] + rest <==> PlaceOf(h) == i || PlaceOf(h) in rest);
    }
    AgreeShelved(c, v, x);
  }

  lemma {:induction false} CowEachShelved(c: Cache, w: Shelf, s: int, indices: seq<nat>)
    requires Inv(c) && Shelved(c, w) && Sorted(indices) && SharedCount(c, s, indices) <= |c.pool.free|
    requires forall i :: i in indices ==> i < |Blocks(c, s)|
    ensures Shelved(CowEach(c, s, indices), Leave(w, s, indices))
    decreases |indices|
  {
    hide CowIfShared, Inv, Shelved;
    if indices == [] {
      LeaveNothing(c, w, s);
    } else {
      var i, rest := indices[0], indices[1..];
      assert indices == [i] + rest && i in indices && i !in rest;
      assert forall j :: j in rest ==> j in indices;
      CowFirst(c, w, s, i, rest);
      var d := CowIfShared(c, s, i, Blocks(c, s)[i]).0;
      CowEachShelved(d, Leave(w, s, [i]), s, rest);
      LeftTwice(CowEach(d, s, rest), w, s, i, rest);
    }
  }

  lemma LeaveNothing(c: Cache, w: Shelf, s: int)
    requires Shelved(c, w)
    ensures Shelved(c, Leave(w, s, []))
  {
    AgreeShelved(c, w, Leave(w, s, []));
  }

  lemma CowFirst(c: Cache, w: Shelf, s: int, i: nat, rest: seq<nat>)
    requires Inv(c) && Shelved(c, w) && i < |Blocks(c, s)| && i !in rest
    requires SharedCount(c, s, [i] + rest) <= |c.pool.free|
    ensures var d := CowIfShared(c, s, i, Blocks(c, s)[i]).0;
      && Inv(d) && Shelved(d, Leave(w, s, [i])) && CowEach(c, s, [i] + rest) == CowEach(d, s, rest)
      && |Blocks(d, s)| == |Blocks(c, s)| && SharedCount(d, s, rest) <= |d.pool.free|
  {
    hide CowIfShared, Core, LruOk, SwapOk, View, CowEach, Shelved;
    assert ([i] + rest)[1..] == rest;
    BlockInUse(c, s, i);
    CowStep(c, s, i);
    CowKeepsOthers(c, s, i);
    CowEachUnfolds(c, s, i, rest);
    SharedCountKept(c, CowIfShared(c, s, i, Blocks(c, s)[i]).0, s, i, rest);
    CowShelved(c, w, s, i);
  }

  lemma BlockInUse(c: Cache, s: int, i: nat)
    requires Core(c) && i < |Blocks(c, s)|
    ensures 0 < Blocks(c, s)[i] < |c.pool.refs| && c.pool.refs[Blocks(c, s)[i]] > 0
    ensures TableEntry(c, s, i) == Blocks(c, s)[i]
  {
    CowIsMapped(c, s, i);
    OwnedIsReferenced(c, s, Blocks(c, s)[i]);
  }

  // ---- Storing ----

  // A row stored into a page the sequence holds alone.
  lemma PutShelved(c: Cache, w: Shelf, l: int, s: int, positions: seq<nat>, rows: seq<KV>, k: nat)
    requires Core(c) && 0 < k <= |positions| == |rows| && 0 <= l < c.cfg.layers && s in c.owned
    requires Private(c, s, Quot(positions[k - 1], c.cfg.blockSize))
    requires Shelved(c, Through(w, l, s, positions, rows, k - 1, c.cfg.blockSize))
    ensures var p := positions[k - 1];
      Shelved(c.(cells := Put(c.cells, Blocks(c, s)[Quot(p, c.cfg.blockSize)], l, Rem(p, c.cfg.blockSize),
                              rows[k - 1])),
              Through(w, l, s, positions, rows, k, c.cfg.blockSize))
  {
    var p, bs := positions[k - 1], c.cfg.blockSize;
    var i, v := Quot(p, bs), Through(w, l, s, positions, rows, k, bs);
    var u := Through(w, l, s, positions, rows, k - 1, bs);
    var d := c.(cells := Put(c.cells, Blocks(c, s)[i], l, Rem(p, bs), rows[k - 1]));
    forall h | h in d.pool.index ensures HeldBy(d, v, h) && RowsOn(d, v, h) {
      assert HeldBy(c, u, h) && RowsOn(c, u, h);
      PageIs(c, h);
      forall m, o | InCell(d, d.pool.index[h], m, o)
        ensures d.cells[d.pool.index[h]][m][o] == v.rows(h, m, o)
      {
        PutRow(c, w, l, s, positions, rows, k, h, m, o);
      }
    }
  }

  lemma PutRow(c: Cache, w: Shelf, l: int, s: int, positions: seq<nat>, rows: seq<KV>, k: nat, h: Hash, m: int, o: int)
    requires Core(c) && 0 < k <= |positions| == |rows| && 0 <= l < c.cfg.layers && s in c.owned && Linked(c)
    requires Private(c, s, Quot(positions[k - 1], c.cfg.blockSize)) && h in c.pool.index && HeldBy(c, w, h)
    requires InCell(c, c.pool.index[h], m, o)
    requires c.cells[c.pool.index[h]][m][o] == Through(w, l, s, positions, rows, k - 1, c.cfg.blockSize).rows(h, m, o)
    ensures var p := positions[k - 1];
      var cells := Put(c.cells, Blocks(c, s)[Quot(p, c.cfg.blockSize)], l, Rem(p, c.cfg.blockSize), rows[k - 1]);
      && InCell(c.(cells := cells), c.pool.index[h], m, o)
      && cells[c.pool.index[h]][m][o] == Through(w, l, s, positions, rows, k, c.cfg.blockSize).rows(h, m, o)
  {
    var p, bs, b := positions[k - 1], c.cfg.blockSize, c.pool.index[h];
    var i := Quot(p, bs);
    PageIs(c, h);
    Decompose(p, bs);
    assert Blocks(c, s)[i] in c.owned[s];
    CowIsMapped(c, s, i);
    assert InCell(c, Blocks(c, s)[i], l, Rem(p, bs)) && |c.cells[b][m]| == bs;
    if b == Blocks(c, s)[i] { HeldAlone(c, w, h, s); }
    LandsHere(c, w, s, i, p, h, o);
    hide Core, Linked, HeldBy, Quot, Rem, Through, LastRow, Put;
    ThroughMore(w, l, s, positions, rows, k, bs, h, m, o);
    PutAt(c, Blocks(c, s)[i], l, Rem(p, bs), rows[k - 1], b, m, o);
  }

  lemma ThroughMore(w: Shelf, l: int, s: int, positions: seq<nat>, rows: seq<KV>, k: nat, bs: pos, h: Hash, m: int,
                    o: int)
    requires 0 < k <= |positions| == |rows| && 0 <= o < bs
    ensures Through(w, l, s, positions, rows, k, bs).rows(h, m, o) ==
      if m == l && w.holders(h) == {s} && PlaceOf(h) * bs + o == positions[k - 1] then rows[k - 1]
      else Through(w, l, s, positions, rows, k - 1, bs).rows(h, m, o)
  {
    var q := PlaceOf(h) * bs + o;
    assert LastRow(positions, rows, k, q) ==
           if positions[k - 1] == q then Some(rows[k - 1]) else LastRow(positions, rows, k - 1, q);
    hide LastRow;
    var a, b := Through(w, l, s, positions, rows, k, bs), Through(w, l, s, positions, rows, k - 1, bs);
    var last, prior := LastRow(positions, rows, k, q), LastRow(positions, rows, k - 1, q);
    assert b.rows(h, m, o) == if m == l && w.holders(h) == {s} && prior.Some? then prior.value else w.rows(h, m, o);
    assert a.rows(h, m, o) == if m == l && w.holders(h) == {s} && last.Some? then last.value else w.rows(h, m, o);
  }

  lemma PutAt(c: Cache, b: int, l: int, o: int, v: KV, x: int, m: int, q: int)
    requires InCell(c, b, l, o) && InCell(c, x, m, q)
    ensures var cells := Put(c.cells, b, l, o, v);
      && InCell(c.(cells := cells), x, m, q)
      && cells[x][m][q] == if x == b && m == l && q == o then v else c.cells[x][m][q]
  {
  }

  // A position of a page falls into block i exactly when the page is block i.
  lemma LandsHere(c: Cache, w: Shelf, s: int, i: nat, p: nat, h: Hash, o: int)
    requires Core(c) && Linked(c) && h in c.pool.index && HeldBy(c, w, h) && i < |Blocks(c, s)|
    requires i == Quot(p, c.cfg.blockSize) && 0 <= o < c.cfg.blockSize
    requires c.pool.index[h] == Blocks(c, s)[i] ==> w.holders(h) == {s}
    ensures w.holders(h) == {s} && PlaceOf(h) * c.cfg.blockSize + o == p <==>
      c.pool.index[h] == Blocks(c, s)[i] && o == Rem(p, c.cfg.blockSize)
  {
    var bs, b := c.cfg.blockSize, c.pool.index[h];
    PageIs(c, h);
    Decompose(p, bs);
    hide Core, Linked;
    if b == Blocks(c, s)[i] {
      assert c.owned[s][i] == b;
    } else if w.holders(h) == {s} && PlaceOf(h) * bs + o == p {
      assert s in w.holders(h);
      var j :| 0 <= j < |c.owned[s]| && c.owned[s][j] == b;
      QuotUnique(p, j, o, bs);
    }
  }

  lemma NothingStored(c: Cache, w: Shelf, l: int, s: int, positions: seq<nat>, rows: seq<KV>)
    requires Shelved(c, w) && |positions| == |rows|
    ensures Shelved(c.(cells := StoreCells(c, l, s, positions, rows, 0)),
                    Through(w, l, s, positions, rows, 0, c.cfg.blockSize))
  {
    assert c.(cells := StoreCells(c, l, s, positions, rows, 0)) == c;
    AgreeShelved(c, w, Through(w, l, s, positions, rows, 0, c.cfg.blockSize));
  }

  lemma {:induction false} StoreCellsShelved(c: Cache, w: Shelf, l: int, s: int, positions: seq<nat>, rows: seq<KV>,
                                             k: nat)
    requires Core(c) && Shelved(c, w) && k <= |positions| == |rows| && 0 <= l < c.cfg.layers && s in c.owned
    requires forall j :: 0 <= j < k ==> Private(c, s, Quot(positions[j], c.cfg.blockSize))
    ensures Shelved(c.(cells := StoreCells(c, l, s, positions, rows, k)),
                    Through(w, l, s, positions, rows, k, c.cfg.blockSize))
  {
    hide Core, Shelved, Put, BatchUpdate, Through, View;
    if k == 0 {
      NothingStored(c, w, l, s, positions, rows);
    } else {
      StoreCellsStep(c, l, s, positions, rows, k - 1);
      StoreCellsShelved(c, w, l, s, positions, rows, k - 1);
      var e := c.(cells := StoreCells(c, l, s, positions, rows, k - 1));
      BlockInUse(c, s, Quot(positions[k - 1], c.cfg.blockSize));
      PutShelved(e, w, l, s, positions, rows, k);
    }
  }

  // One row stored by decoding, into a block of its own.
  lemma SingleShelved(c: Cache, w: Shelf, x: Single)
    requires Inv(c) && Shelved(c, w) && Own(c, x)
    ensures Shelved(StoreOne(c, x), Written(w, x.l, x.s, [x.p], [x.v], c.cfg.blockSize))
  {
    hide Inv, Core, Shelved, Leave, Through, View;
    var i := Quot(x.p, c.cfg.blockSize);
    InvCore(c);
    NothingLeft(c, w, x.s, i);
    OneIndex(x.p, c.cfg.blockSize);
    StoreCellsShelved(c, Leave(w, x.s, [i]), x.l, x.s, [x.p], [x.v], 1);
    BlockInUse(c, x.s, i);
    OneStored(c, x.l, x.s, x.p, x.v);
    SameShelved(c.(cells := StoreCells(c, x.l, x.s, [x.p], [x.v], 1)), StoreOne(c, x),
                Written(w, x.l, x.s, [x.p], [x.v], c.cfg.blockSize));
  }

  lemma DummyShelved(e: Cache, d: Cache, w: Shelf)
    requires Core(e) && Shelved(e, w) && e.dummy.Some? && d == e.(cells := d.cells)
    requires GraphMode.AgreeBut(d.cells, e.cells, e.dummy.value)
    ensures Shelved(d, w)
  {
    forall s, j | s in d.owned && 0 <= j < |d.owned[s]| ensures Placed(d, j, d.owned[s][j]) {
      assert Placed(e, j, e.owned[s][j]);
    }
    forall h | h in d.pool.index ensures HeldBy(d, w, h) && RowsOn(d, w, h) {
      assert HeldBy(e, w, h) && RowsOn(e, w, h);
      PageIs(e, h);
      assert forall l, o :: InCell(d, d.pool.index[h], l, o) ==> InCell(e, d.pool.index[h], l, o);
    }
  }

  // ---- write_kv_batch and write_kv ----

  lemma BatchBlocksShelved(c: Cache, w: Shelf, l: int, s: int, positions: seq<nat>, rows: seq<KV>)
    requires Inv(c) && Shelved(c, w) && |positions| == |rows| && 0 <= l < c.cfg.layers && s in c.owned
    requires var indices := BlockIndices(positions, c.cfg.blockSize);
      SharedCount(c, s, indices) <= |c.pool.free| && forall i :: i in indices ==> i < |Blocks(c, s)|
    ensures Shelved(WriteBatchBlocks(c, l, s, positions, rows), Written(w, l, s, positions, rows, c.cfg.blockSize))
  {
    hide CowIfShared, CowEach, StoreCells, BlockIndices, Shelved, Core, LruOk, SwapOk, Leave, Through;
    var indices := BlockIndices(positions, c.cfg.blockSize);
    BlockIndicesAre(positions, c.cfg.blockSize);
    CowEachStep(c, s, indices);
    CowEachShelved(c, w, s, indices);
    var e := CowEach(c, s, indices);
    forall j | 0 <= j < |positions| ensures Private(e, s, Quot(positions[j], c.cfg.blockSize)) {
      assert Quot(positions[j], c.cfg.blockSize) in indices;
    }
    StoreCellsShelved(e, Leave(w, s, indices), l, s, positions, rows, |positions|);
    var f := e.(cells := StoreCells(e, l, s, positions, rows, |positions|));
    TouchOnly(StoreBatch(e, l, s, positions, rows), s);
    SameShelved(f, WriteBatchBlocks(c, l, s, positions, rows), Written(w, l, s, positions, rows, c.cfg.blockSize));
  }

  // What a batch does to the record: shared pages are left, own pages are
  // written through.
  ghost function Written(w: Shelf, l: int, s: int, positions: seq<nat>, rows: seq<KV>, bs: pos): Shelf
    requires |positions| == |rows|
  {
    Through(Leave(w, s, BlockIndices(positions, bs)), l, s, positions, rows, |positions|, bs)
  }

  lemma SameShelved(c: Cache, d: Cache, w: Shelf)
    requires Shelved(c, w) && d.pool == c.pool && d.cells == c.cells && d.owned == c.owned
    ensures Shelved(d, w)
  {
    forall s, j | s in d.owned && 0 <= j < |d.owned[s]| ensures Placed(d, j, d.owned[s][j]) {
      assert Placed(c, j, c.owned[s][j]);
    }
    forall h | h in d.pool.index ensures HeldBy(d, w, h) && RowsOn(d, w, h) {
      assert HeldBy(c, w, h) && RowsOn(c, w, h);
      assert forall l, o :: InCell(d, d.pool.index[h], l, o) ==> InCell(c, d.pool.index[h], l, o);
    }
  }

  lemma WriteBatchShelved(c: Cache, w: Shelf, l: int, s: int, positions: seq<nat>, rows: seq<KV>)
    requires Inv(c) && Shelved(c, w) && |positions| == |rows| && positions != [] && BatchOk(c, l, s, positions)
    requires WriteKvBatch(c, l, s, positions, rows).Done?
    ensures var d := WriteKvBatch(c, l, s, positions, rows).c;
      Shelved(d, Written(Less(w, c.owned.Keys - d.owned.Keys), l, s, positions, rows, c.cfg.blockSize))
  {
    var indices := BlockIndices(positions, c.cfg.blockSize);
    BlockIndicesAre(positions, c.cfg.blockSize);
    var missing := Missing(c, s, indices);
    hide BlockIndices, WriteBatchBlocks, Allocate, Shelved, Written, Less, Inv;
    if missing == 0 {
      assert Quot(positions[0], c.cfg.blockSize) in indices;
      MappedIndices(c, s, indices);
      WriteBatchBlocksStep(c, l, s, positions, rows);
      var d := WriteBatchBlocks(c, l, s, positions, rows);
      SamePasses(c);
      InvCore(c);
      PassedShelved(c, c, w, c.owned.Keys - d.owned.Keys);
      BatchBlocksShelved(c, Less(w, c.owned.Keys - d.owned.Keys), l, s, positions, rows);
    } else {
      AllocateStep(c, s, missing);
      AllocatePasses(c, s, missing);
      var a := Allocate(c, s, missing);
      WriteBatchBlocksStep(a.c, l, s, positions, rows);
      var d := WriteBatchBlocks(a.c, l, s, positions, rows);
      InvCore(a.c);
      PassedShelved(c, a.c, w, c.owned.Keys - d.owned.Keys);
      BatchBlocksShelved(a.c, Less(w, c.owned.Keys - d.owned.Keys), l, s, positions, rows);
    }
  }

  lemma MappedIndices(c: Cache, s: int, indices: seq<nat>)
    requires Inv(c) && 0 <= s < c.cfg.maxSeqs && Missing(c, s, indices) == 0 && indices != []
    requires forall i :: i in indices ==> i < c.cfg.maxBlocks
    ensures s in c.owned && forall i :: i in indices ==> i < |Blocks(c, s)|
  {
    MissingIsCounted(c, s, indices);
    assert indices[0] in indices;
  }

  // ---- write_kv is a batch of one ----

  lemma OneStored(c: Cache, l: int, s: int, p: nat, v: KV)
    requires TableEntry(c, s, Quot(p, c.cfg.blockSize)) >= 0
    ensures StoreBatch(c, l, s, [p], [v]) == Store(c, l, s, p, TableEntry(c, s, Quot(p, c.cfg.blockSize)), v)
  {
    assert [p][..0] == [];
    assert MaxPosition([p]) == Max(MaxPosition([p][..0]), p);
    assert StoreCells(c, l, s, [p], [v], 0) == c.cells;
  }

  lemma CowEntry(c: Cache, s: int, i: nat)
    requires Core(c) && i < |Blocks(c, s)|
    ensures var (d, b) := CowIfShared(c, s, i, Blocks(c, s)[i]); TableEntry(d, s, i) == b && b > 0 && d.cfg == c.cfg
  {
    CowIsMapped(c, s, i);
    if Copies(c, s, i) { assert c.pool.free[0] in c.pool.free; }
  }

  lemma OneBlockWritten(c: Cache, l: int, s: int, p: nat, v: KV)
    requires Core(c) && Quot(p, c.cfg.blockSize) < |Blocks(c, s)|
    ensures WriteBatchBlocks(c, l, s, [p], [v]) == WriteBlock(c, l, s, p, Blocks(c, s)[Quot(p, c.cfg.blockSize)], v)
  {
    hide Core, CowIfShared, StoreBatch, Store, Touch, CowEach, TableEntry, BlockIndices;
    var i := Quot(p, c.cfg.blockSize);
    OneIndex(p, c.cfg.blockSize);
    BlockInUse(c, s, i);
    var (d, b) := CowIfShared(c, s, i, Blocks(c, s)[i]);
    CowEntry(c, s, i);
    CowEachUnfolds(c, s, i, []);
    assert [i] + [] == [i];
    CowNothing(d, s);
    OneStored(d, l, s, p, v);
  }

  lemma CowNothing(c: Cache, s: int)
    ensures CowEach(c, s, []) == c
  {
  }

  lemma OneMissing(c: Cache, s: int, i: nat)
    requires Core(c) && 0 <= s < c.cfg.maxSeqs && i < c.cfg.maxBlocks
    ensures Missing(c, s, [i]) == if i < |Blocks(c, s)| then 0 else 1
  {
    TableIs(c, s, i);
    assert [i][1..] == [];
  }

  // A single write does what a batch of one row does.
  lemma OneWriteIsBatch(c: Cache, l: int, s: int, p: nat, v: KV)
    requires Inv(c) && WriteOk(c, l, s, p)
    ensures WriteKv(c, l, s, p, v) == WriteKvBatch(c, l, s, [p], [v])
    ensures BatchOk(c, l, s, [p])
  {
    var i := Quot(p, c.cfg.blockSize);
    hide WriteBatchBlocks, WriteBlock, Allocate, Core, LruOk, SwapOk;
    OneIndex(p, c.cfg.blockSize);
    WriteKvCases(c, l, s, p, v);
    OneMissing(c, s, i);
    ListFits(c, s);
    if i < |Blocks(c, s)| {
      OneBlockWritten(c, l, s, p, v);
      OneShared(c, s, i);
    } else {
      AllocateStep(c, s, 1);
      var a := Allocate(c, s, 1);
      if a.Granted? {
        assert a.blocks == [a.blocks[0]] && Blocks(a.c, s)[i] == a.blocks[0];
        assert FreshBlock(a.c, a.blocks[0]);
        OneBlockWritten(a.c, l, s, p, v);
        OneShared(a.c, s, i);
      }
    }
  }

  lemma OneShared(c: Cache, s: int, i: nat)
    ensures SharedCount(c, s, [i]) == if IsShared(c, s, i) then 1 else 0
  {
    assert [i][1..] == [];
  }

  // ---- try_reuse_prefix ----

  ghost function ReusedBlocks(c: Cache, s: int, ns: Namespace, tokens: seq<int>): (n: nat)
    ensures n * c.cfg.blockSize <= |tokens|
  {
    if c.pool.caching then ReuseFrom(c, s, ns, tokens, 0).1 else 0
  }

  lemma FollowedLinked(c: Cache, e: Cache, s: int, ns: Namespace, tokens: seq<int>, n: nat)
    requires Linked(c) && Core(c) && Core(e) && 0 <= s < c.cfg.maxSeqs && Blocks(c, s) == [] && OnlyAdopts(c, e, s)
    requires n * c.cfg.blockSize <= |tokens| && Follows(e, s, ns, tokens, n)
    ensures Linked(e)
  {
    var r := Prompt(ns, tokens);
    AdoptedSharedTagged(c, e, s, r, n);
    hide Core, SharedTagged, Chain;
    forall t, j | t in e.owned && 0 <= j < |e.owned[t]| ensures Placed(e, j, e.owned[t][j]) {
      if t == s {
        FollowedTag(e, s, ns, tokens, n, j);
      } else {
        assert Placed(c, j, c.owned[t][j]);
      }
    }
  }

  lemma FollowedTag(e: Cache, s: int, ns: Namespace, tokens: seq<int>, n: nat, j: nat)
    requires Core(e) && n * e.cfg.blockSize <= |tokens| && Follows(e, s, ns, tokens, n) && j < n
    ensures (j + 1) * e.cfg.blockSize <= |tokens| && 0 < Blocks(e, s)[j] < |e.pool.tags|
    ensures var tag := e.pool.tags[Blocks(e, s)[j]];
      && tag.Some? && tag == Chain(ns, tokens, e.cfg.blockSize, j + 1) && PlaceOf(tag.value) == j
      && tag.value in e.pool.index && e.pool.index[tag.value] == Blocks(e, s)[j]
  {
    assert Link(e, ns, tokens, j, n, Blocks(e, s)[j]);
    LinkIsTag(e, Prompt(ns, tokens), n, j, Blocks(e, s)[j]);
    ChainIs(ns, tokens, e.cfg.blockSize, j + 1);
  }

  // Reuse makes the sequence a holder of exactly the pages it adopted.
  lemma FollowedShelved(c: Cache, e: Cache, w: Shelf, s: int, ns: Namespace, tokens: seq<int>, n: nat)
    requires Shelved(c, w) && Core(c) && Core(e) && 0 <= s < c.cfg.maxSeqs && Blocks(c, s) == [] && OnlyAdopts(c, e, s)
    requires n * c.cfg.blockSize <= |tokens| && Follows(e, s, ns, tokens, n)
    ensures Shelved(e, Join(w, s, PagesOf(ns, tokens, c.cfg.blockSize, n)))
  {
    var v := Join(w, s, PagesOf(ns, tokens, c.cfg.blockSize, n));
    FollowedLinked(c, e, s, ns, tokens, n);
    hide Core, Linked, Follows, Chain, PagesOf;
    forall h | h in e.pool.index ensures HeldBy(e, v, h) && RowsOn(e, v, h) {
      assert HeldBy(c, w, h) && RowsOn(c, w, h);
      assert forall l, o :: InCell(e, e.pool.index[h], l, o) ==> InCell(c, e.pool.index[h], l, o);
      FollowedHolds(e, s, ns, tokens, n, h);
      assert s !in w.holders(h);
    }
  }

  lemma FollowedHolds(e: Cache, s: int, ns: Namespace, tokens: seq<int>, n: nat, h: Hash)
    requires Core(e) && n * e.cfg.blockSize <= |tokens| && Follows(e, s, ns, tokens, n) && h in e.pool.index
    ensures h in PagesOf(ns, tokens, e.cfg.blockSize, n) <==> e.pool.index[h] in Blocks(e, s)
  {
    PagesAre(ns, tokens, e.cfg.blockSize, n, h);
    if h in PagesOf(ns, tokens, e.cfg.blockSize, n) {
      FollowedTag(e, s, ns, tokens, n, PlaceOf(h));
    }
    if e.pool.index[h] in Blocks(e, s) {
      var j :| 0 <= j < n && Blocks(e, s)[j] == e.pool.index[h];
      FollowedTag(e, s, ns, tokens, n, j);
    }
  }

  lemma ReuseShelved(c: Cache, w: Shelf, s: int, ns: Namespace, tokens: seq<int>)
    requires Inv(c) && Shelved(c, w) && 0 <= s < c.cfg.maxSeqs && s !in c.swap.out && Blocks(c, s) == []
    requires Quot(|tokens|, c.cfg.blockSize) <= c.cfg.maxBlocks
    ensures var n := ReusedBlocks(c, s, ns, tokens);
      Shelved(TryReusePrefix(c, s, ns, tokens).0, Join(w, s, PagesOf(ns, tokens, c.cfg.blockSize, n)))
  {
    hide Core, LruOk, SwapOk, Shelved, Adopt, PagesOf, Join, ReuseFrom;
    if c.pool.caching {
      FollowsNothing(c, s, ns, tokens);
      ReuseFromStep(c, s, ns, tokens, 0);
      var (e, n) := ReuseFrom(c, s, ns, tokens, 0);
      FollowedShelved(c, e, w, s, ns, tokens, n);
      TouchOnly(e.(lens := Upd(e.lens, s, n * c.cfg.blockSize)), s);
      SameShelved(e, TryReusePrefix(c, s, ns, tokens).0, Join(w, s, PagesOf(ns, tokens, c.cfg.blockSize, n)));
    } else {
      JoinNothing(c, w, s, ns, tokens);
    }
  }

  lemma JoinNothing(c: Cache, w: Shelf, s: int, ns: Namespace, tokens: seq<int>)
    requires Shelved(c, w)
    ensures Shelved(c, Join(w, s, PagesOf(ns, tokens, c.cfg.blockSize, 0)))
  {
    AgreeShelved(c, w, Join(w, s, PagesOf(ns, tokens, c.cfg.blockSize, 0)));
  }

  // The rows of an adopted page are the rows its record shows.
  lemma InheritedIsShelved(c: Cache, w: Shelf, s: int, ns: Namespace, tokens: seq<int>, n: nat, l: int, p: int, v: KV)
    requires Shelved(c, w) && Core(c) && n * c.cfg.blockSize <= |tokens| && Inherited(c, s, ns, tokens, n, l, p, v)
    ensures v == TakenRow(w, c.cfg, ns, tokens, n, l, p)
  {
    if 0 <= l < c.cfg.layers && 0 <= p && Quot(p, c.cfg.blockSize) < n {
      var i := Quot(p, c.cfg.blockSize);
      BlockStart(i + 1, n, c.cfg.blockSize);
      var h := Chain(ns, tokens, c.cfg.blockSize, i + 1).value;
      assert RowsOn(c, w, h);
    }
  }

  // What a sequence that took n pages reads at a position.
  ghost function TakenRow(w: Shelf, cfg: Config, ns: Namespace, tokens: seq<int>, n: nat, l: int, p: int): KV
    requires n * cfg.blockSize <= |tokens|
  {
    if 0 <= l < cfg.layers && 0 <= p && Quot(p, cfg.blockSize) < n then
      BlockStart(Quot(p, cfg.blockSize) + 1, n, cfg.blockSize);
      w.rows(Chain(ns, tokens, cfg.blockSize, Quot(p, cfg.blockSize) + 1).value, l, Rem(p, cfg.blockSize))
    else cfg.zero
  }

  // ---- register_prefix_blocks ----

  // The hashes that name a block they did not name before.
  ghost function NewPages(c: Cache, d: Cache): set<Hash> {
    set h | h in d.pool.index && !(h in c.pool.index && c.pool.index[h] == d.pool.index[h])
  }

  // Hash h now names an untagged block of the sequence, at the right place.
  ghost predicate NewPage(c: Cache, s: int, h: Hash, b: int) {
    && 0 <= PlaceOf(h) < |Blocks(c, s)| && Blocks(c, s)[PlaceOf(h)] == b
    && 0 <= b < |c.pool.tags| && c.pool.tags[b] == None
  }

  ghost predicate Registers(c: Cache, d: Cache, s: int) {
    && d == c.(pool := d.pool) && d.pool.refs == c.pool.refs && |d.pool.tags| == |c.pool.tags|
    && (forall b :: 0 <= b < |c.pool.tags| && c.pool.tags[b].Some? ==> d.pool.tags[b] == c.pool.tags[b])
    && (forall h :: h in NewPages(c, d) ==> NewPage(c, s, h, d.pool.index[h]))
  }

  lemma RegisterOneLinked(c: Cache, d: Cache, s: int, i: nat, h: Hash)
    requires Core(d) && Linked(d) && Registers(c, d, s) && i < |Blocks(c, s)| && PlaceOf(h) == i
    requires 0 < Blocks(c, s)[i] < |d.pool.tags|
    ensures var e := d.(pool := Register(d.pool, Blocks(c, s)[i], h)); Linked(e) && Registers(c, e, s)
  {
    var b := Blocks(c, s)[i];
    var e := d.(pool := Register(d.pool, b, h));
    if d.pool.tags[b] == None { SoleLister(d, s, i); }
    forall t, j | t in e.owned && 0 <= j < |e.owned[t]| ensures Placed(e, j, e.owned[t][j]) {
      assert Placed(d, j, d.owned[t][j]);
    }
    forall g | g in NewPages(c, e) ensures NewPage(c, s, g, e.pool.index[g]) {
      if g in d.pool.index && d.pool.index[g] == e.pool.index[g] { assert g in NewPages(c, d); }
    }
  }

  lemma {:induction false} RegisterLinked(c: Cache, s: int, ns: Namespace, tokens: seq<int>, n: nat)
    requires Core(c) && Linked(c) && n * c.cfg.blockSize <= |tokens| && n <= |Blocks(c, s)|
    ensures var d := RegisterUpTo(c, s, ns, tokens, n); Linked(d) && Registers(c, d, s)
  {
    hide Core, Linked, Register, Chain;
    if n == 0 {
      assert NewPages(c, c) == {};
    } else {
      NextBlock(n - 1, c.cfg.blockSize);
      RegisterLinked(c, s, ns, tokens, n - 1);
      RegisterCore(c, s, ns, tokens, n - 1);
      var d := RegisterUpTo(c, s, ns, tokens, n - 1);
      ChainIs(ns, tokens, c.cfg.blockSize, n);
      BlockInUse(c, s, n - 1);
      CoreTags(c);
      RegisterOneLinked(c, d, s, n - 1, Chain(ns, tokens, c.cfg.blockSize, n).value);
    }
  }

  lemma CoreTags(c: Cache)
    requires Core(c)
    ensures |c.pool.tags| == |c.pool.refs|
  {
  }

  lemma PublishedShelved(c: Cache, d: Cache, w: Shelf, s: int, rows: (int, int, int) -> KV)
    requires Core(c) && Core(d) && Shelved(c, w) && Linked(d) && Registers(c, d, s)
    requires forall l, p :: rows(s, l, p) == View(c, s, l, p)
    ensures Shelved(d, Publish(w, s, NewPages(c, d), rows, c.cfg.blockSize))
  {
    var v := Publish(w, s, NewPages(c, d), rows, c.cfg.blockSize);
    forall h | h in d.pool.index ensures HeldBy(d, v, h) && RowsOn(d, v, h) {
      if h in NewPages(c, d) {
        NewPageShelved(c, d, w, s, rows, h);
      } else {
        assert HeldBy(c, w, h) && RowsOn(c, w, h);
        assert forall l, o :: InCell(d, d.pool.index[h], l, o) ==> InCell(c, d.pool.index[h], l, o);
      }
    }
  }

  lemma NewPageShelved(c: Cache, d: Cache, w: Shelf, s: int, rows: (int, int, int) -> KV, h: Hash)
    requires Core(c) && Linked(c) && Registers(c, d, s) && h in NewPages(c, d)
    requires forall l, p :: rows(s, l, p) == View(c, s, l, p)
    ensures var v := Publish(w, s, NewPages(c, d), rows, c.cfg.blockSize); HeldBy(d, v, h) && RowsOn(d, v, h)
  {
    var b, i := d.pool.index[h], PlaceOf(h);
    assert NewPage(c, s, h, b);
    hide Core, View, Linked;
    LinkedShared(c);
    SoleLister(c, s, i);
    assert b in c.owned[s];
    forall l, o | InCell(d, b, l, o) ensures d.cells[b][l][o] == rows(s, l, i * c.cfg.blockSize + o) {
      assert InCell(c, b, l, o);
      PageCell(c, s, i, l, o);
    }
  }

  lemma LinkedShared(c: Cache)
    requires Linked(c)
    ensures SharedTagged(c)
  {
  }

  lemma PageCell(c: Cache, s: int, i: nat, l: int, o: int)
    requires Core(c) && i < |Blocks(c, s)| && InCell(c, Blocks(c, s)[i], l, o)
    ensures c.cells[Blocks(c, s)[i]][l][o] == View(c, s, l, i * c.cfg.blockSize + o)
  {
    var p := i * c.cfg.blockSize + o;
    CowIsMapped(c, s, i);
    NextBlock(i, c.cfg.blockSize);
    QuotUnique(p, i, o, c.cfg.blockSize);
    ViewIs(c, s, l, p);
  }

  lemma RegisterShelved(c: Cache, w: Shelf, s: int, ns: Namespace, tokens: seq<int>, rows: (int, int, int) -> KV)
    requires Inv(c) && Shelved(c, w) && forall l, p :: rows(s, l, p) == View(c, s, l, p)
    ensures var d := RegisterPrefixBlocks(c, s, ns, tokens);
      Shelved(d, Publish(w, s, NewPages(c, d), rows, c.cfg.blockSize))
  {
    hide Core, LruOk, SwapOk, View, RegisterUpTo;
    var d := RegisterPrefixBlocks(c, s, ns, tokens);
    if c.pool.caching {
      var n := FullBlocks(c, s, tokens);
      RegisterCore(c, s, ns, tokens, n);
      RegisterLinked(c, s, ns, tokens, n);
      PublishedShelved(c, d, w, s, rows);
    } else {
      AgreeShelved(c, w, Publish(w, s, NewPages(c, c), rows, c.cfg.blockSize));
    }
  }

  // ---- The first state ----

  lemma InitShelved(cfg: Config, w: Shelf)
    requires cfg.numBlocks > 0
    ensures Shelved(Init(cfg), w)
  {
  }
}
