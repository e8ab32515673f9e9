// What the conditions on callers are for: prefix reuse for a sequence that
// has blocks, and new blocks for a sequence that is swapped out.
module CacheGuards {
  import opened Prelude
  import opened Hashing
  import opened PoolSpec
  import opened CacheSpec
  import opened CacheInv
  import opened Lru
  import opened CacheView
  import opened CacheSteps
  import opened PrefixCache
  import opened CacheExact

  // ---- Reuse on top of blocks ----

  // The first block of the prompt is cached.
  ghost predicate FirstCached(c: Cache, ns: Namespace, tokens: seq<int>) {
    && c.pool.caching && c.cfg.blockSize <= |tokens|
    && Lookup(c.pool, Chain(ns, tokens, c.cfg.blockSize, 1).value).Some?
  }

  // The loop writes its blocks into the table from the left and appends them
  // to the list.
  lemma {:induction false} AdoptedShape(c: Cache, s: int, ns: Namespace, tokens: seq<int>, i: nat)
    requires i * c.cfg.blockSize <= |tokens|
    ensures var (d, m) := ReuseFrom(c, s, ns, tokens, i);
      && |Blocks(d, s)| == |Blocks(c, s)| + (m - i) && |RowOf(d, s)| == |RowOf(c, s)|
      && |d.table| == |c.table| && d.cfg == c.cfg && Blocks(c, s) <= Blocks(d, s)
      && (forall j :: m <= j < |RowOf(c, s)| ==> RowOf(d, s)[j] == RowOf(c, s)[j])
      && (forall j :: |Blocks(c, s)| <= j < |Blocks(d, s)| ==> Blocks(d, s)[j] >= 0)
    decreases |tokens| - i * c.cfg.blockSize
  {
    if (i + 1) * c.cfg.blockSize <= |tokens| {
      hide Chain, Share;
      var hit := Lookup(c.pool, Chain(ns, tokens, c.cfg.blockSize, i + 1).value);
      if hit.Some? && 0 <= hit.value < |c.pool.refs| {
        NextBlock(i, c.cfg.blockSize);
        AdoptedShape(Adopt(c, s, i, hit.value), s, ns, tokens, i + 1);
      }
    }
  }

  // On top of blocks, try_reuse_prefix keeps table and list in agreement
  // exactly when there is nothing to reuse.
  lemma ReuseOnTopIff(c: Cache, s: int, ns: Namespace, tokens: seq<int>)
    requires Inv(c) && 0 <= s < c.cfg.maxSeqs && s !in c.swap.out && Blocks(c, s) != []
    requires Quot(|tokens|, c.cfg.blockSize) <= c.cfg.maxBlocks
    ensures Inv(TryReusePrefix(c, s, ns, tokens).0) <==> !FirstCached(c, ns, tokens)
  {
    var bs: int := c.cfg.blockSize;
    assert 1 * bs == bs && 0 * bs == 0;
    if !FirstCached(c, ns, tokens) {
      assert TryReusePrefix(c, s, ns, tokens).0 == c;
    } else {
      hide Core, LruOk, SwapOk, ReuseFrom, TryReusePrefix;
      AdoptedShape(c, s, ns, tokens, 0);
      var (d, m) := ReuseFrom(c, s, ns, tokens, 0);
      ReusedIs(c, s, ns, tokens);
      TooFar(c, TryReusePrefix(c, s, ns, tokens).0, s, m);
    }
  }

  lemma ReusedIs(c: Cache, s: int, ns: Namespace, tokens: seq<int>)
    requires Core(c) && FirstCached(c, ns, tokens)
    ensures var (d, m) := ReuseFrom(c, s, ns, tokens, 0); var e := TryReusePrefix(c, s, ns, tokens).0;
      m >= 1 && e.owned == d.owned && e.table == d.table && e.cfg == c.cfg
  {
    var b := Lookup(c.pool, Chain(ns, tokens, c.cfg.blockSize, 1).value).value;
    assert 0 <= b < |c.pool.refs|;
    hide Core, Chain, Adopt;
    var (d, m) := ReuseFrom(c, s, ns, tokens, 0);
    assert m >= 1;
    TouchOnly(d.(lens := Upd(d.lens, s, m * c.cfg.blockSize)), s);
    hide Touch, ReuseFrom;
  }

  // The list has grown past the entries that were written.
  lemma TooFar(c: Cache, e: Cache, s: int, m: nat)
    requires Core(c) && e.cfg == c.cfg && 0 <= s < c.cfg.maxSeqs && Blocks(c, s) != [] && m >= 1
    requires |Blocks(e, s)| == |Blocks(c, s)| + m && |RowOf(e, s)| == |RowOf(c, s)|
    requires forall j :: m <= j < |RowOf(c, s)| ==> RowOf(e, s)[j] == RowOf(c, s)[j]
    ensures !Core(e)
  {
    var j := |Blocks(c, s)| + m - 1;
    hide Core;
    if Core(e) {
      ListFits(e, s);
      TableIs(c, s, j);
      TableIs(e, s, j);
      assert false;
    }
  }

  // ---- Blocks for a swapped sequence ----

  // The blocks a swapped-out sequence is given are lost when it comes back:
  // still referenced, and in nobody's list.
  lemma SwappedGrowthIsLost(c: Cache, s: int, n: nat, b: int)
    requires Inv(c) && s in c.swap.out && 0 <= s < c.cfg.maxSeqs && n <= c.cfg.maxBlocks
    requires Allocate(c, s, n).Granted? && b in Allocate(c, s, n).blocks
    requires CanSwapIn(Allocate(c, s, n).c, s)
    ensures var e := SwapIn(Allocate(c, s, n).c, s);
      && 0 < b < |e.pool.refs| && e.pool.refs[b] == 1 && e.dummy != Some(b)
      && (forall t :: t in e.owned ==> b !in e.owned[t]) && !Inv(e)
  {
    hide Allocate, View, LruOk, SwapOk;
    var d := Allocate(c, s, n).c;
    BareInv(c);
    BareAllocate(c, s, n);
    assert Blocks(c, s) == [] by { StashIsBare(c, s); }
    AllocateStep(Bare(c), s, n);
    var f := Bare(d);
    assert FreshBlock(f, b) && b in f.owned[s];
    BackAgain(d, s, b);
  }

  lemma StashIsBare(c: Cache, s: int)
    requires Inv(c) && s in c.swap.out
    ensures s !in c.owned
  {
    assert StashOk(c, s, c.swap.out[s]);
  }

  lemma BackAgain(d: Cache, s: int, b: int)
    requires Core(Bare(d)) && s in d.owned && b in d.owned[s] && CanSwapIn(d, s) && FreshBlock(Bare(d), b)
    ensures var e := SwapIn(d, s);
      && 0 < b < |e.pool.refs| && e.pool.refs[b] == 1 && e.dummy != Some(b)
      && (forall t :: t in e.owned ==> b !in e.owned[t]) && !Inv(e)
  {
    var f, taken := Bare(d), d.pool.free[..|d.swap.out[s].blocks|];
    var e := SwapIn(d, s);
    assert ListOk(f, f.owned[s]);
    hide Touch, CopyBlocks, SetRow, LruOk, SwapOk, TableMirrors, CleanFree, SharingOk;
    TouchKeepsLists(d, s);
    forall t | t in e.owned ensures b !in e.owned[t] {
      if t == s {
        if b in taken { QueuedIsNowhere(f, b); }
      } else if b in e.owned[t] {
        SoleOwner(f, s, t, b);
      }
    }
    if b in taken { QueuedIsNowhere(f, b); }
    if Inv(e) { OccZero(e.owned, e.cfg.maxSeqs, b); }
  }

  lemma TouchKeepsLists(d: Cache, s: int)
    requires CanSwapIn(d, s)
    ensures var e, n := SwapIn(d, s), |d.swap.out[s].blocks|;
      && e.owned == d.owned[s := d.pool.free[..n]] && e.pool == Take(d.pool, n) && e.dummy == d.dummy && e.cfg == d.cfg
  {
    hide CopyBlocks, SetRow, Take;
  }
}
