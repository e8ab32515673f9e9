// What register_prefix_blocks is for: every full block of the prompt can be
// found afterwards, and the next sequence with the prompt gets them all.
module Registration {
  import opened Prelude
  import opened Hashing
  import opened PoolSpec
  import opened CacheSpec
  import opened CacheInv
  import opened Lru
  import opened CacheView
  import opened CacheSteps
  import opened PrefixCache
  import opened CacheRun
  import opened SharedPages

  // The chained hashes of two prefixes differ.
  lemma ChainsDiffer(ns: Namespace, tokens: seq<int>, bs: pos, i: nat, j: nat)
    requires i * bs <= |tokens| && j * bs <= |tokens| && i != j
    ensures Chain(ns, tokens, bs, i) != Chain(ns, tokens, bs, j)
  {
    ChainIs(ns, tokens, bs, i);
    ChainIs(ns, tokens, bs, j);
  }

  lemma UpToFits(n: nat, m: nat, bs: pos, size: nat)
    requires n <= m && m * bs <= size
    ensures n * bs <= size
  {
    BlockStart(n, m, bs);
  }

  // The first n blocks, registered one after the other.
  lemma {:induction false} RegisteredUpTo(c: Cache, s: int, ns: Namespace, tokens: seq<int>, n: nat, i: nat)
    requires Core(c) && c.pool.caching && n <= |Blocks(c, s)| && n * c.cfg.blockSize <= |tokens| && i < |Blocks(c, s)|
    requires (i + 1) * c.cfg.blockSize <= |tokens|
    ensures var d, b := RegisterUpTo(c, s, ns, tokens, n), Blocks(c, s)[i];
      && 0 < b < |c.pool.tags|
      && (i >= n ==> d.pool.tags[b] == c.pool.tags[b])
      && (c.pool.tags[b].Some? ==> d.pool.tags[b] == c.pool.tags[b])
      && (i < n && c.pool.tags[b] == None ==>
            Lookup(d.pool, Chain(ns, tokens, c.cfg.blockSize, i + 1).value) == Some(b))
      && (Lookup(c.pool, Chain(ns, tokens, c.cfg.blockSize, i + 1).value).Some? ==>
            Lookup(d.pool, Chain(ns, tokens, c.cfg.blockSize, i + 1).value).Some?)
  {
    BlockInUse(c, s, i);
    if n > 0 {
      UpToFits(n - 1, n, c.cfg.blockSize, |tokens|);
      RegisteredUpTo(c, s, ns, tokens, n - 1, i);
      BlockInUse(c, s, n - 1);
      ListDistinct(c, s);
      if i != n - 1 { ChainsDiffer(ns, tokens, c.cfg.blockSize, i + 1, n); }
      var d := RegisterUpTo(c, s, ns, tokens, n - 1);
      var h, k := Chain(ns, tokens, c.cfg.blockSize, n).value, Chain(ns, tokens, c.cfg.blockSize, i + 1).value;
      hide Core, Chain, RegisterUpTo;
      RegisterOne(d.pool, Blocks(c, s)[n - 1], h, Blocks(c, s)[i], k);
      assert RegisterUpTo(c, s, ns, tokens, n) == d.(pool := Register(d.pool, Blocks(c, s)[n - 1], h)) by {
        RegisterLast(c, s, ns, tokens, n);
      }
    }
  }

  lemma RegisterLast(c: Cache, s: int, ns: Namespace, tokens: seq<int>, n: nat)
    requires 0 < n <= |Blocks(c, s)| && n * c.cfg.blockSize <= |tokens| && (n - 1) * c.cfg.blockSize <= |tokens|
    requires 0 <= Blocks(c, s)[n - 1] < |c.pool.tags|
    ensures var d := RegisterUpTo(c, s, ns, tokens, n - 1);
      RegisterUpTo(c, s, ns, tokens, n) ==
        d.(pool := Register(d.pool, Blocks(c, s)[n - 1], Chain(ns, tokens, c.cfg.blockSize, n).value))
  {
    hide Chain, Register;
  }

  // Registering block b under h, seen at block x and hash k.
  lemma RegisterOne(p: Pool, b: int, h: Hash, x: int, k: Hash)
    requires 0 <= b < |p.tags| && 0 <= x < |p.tags|
    ensures var q := Register(p, b, h);
      && |q.tags| == |p.tags|
      && (p.tags[x].Some? || x != b ==> q.tags[x] == p.tags[x])
      && (Lookup(p, k).Some? ==> Lookup(q, k).Some?)
      && (k != h ==> Lookup(q, k) == Lookup(p, k))
      && (p.caching && b > 0 && p.tags[b] == None ==> Lookup(q, h) == Some(b))
  {
  }

  lemma ListDistinct(c: Cache, s: int)
    requires Core(c)
    ensures Distinct(Blocks(c, s)) && |c.pool.refs| == |c.pool.tags|
  {
  }

  // After the call every full block of the prompt that the sequence has, and
  // that had no hash before, is found under the hash of the prompt up to it.
  // Blocks that had a hash keep it.
  lemma FullBlocksAreFound(c: Cache, s: int, ns: Namespace, tokens: seq<int>, i: nat)
    requires Inv(c) && c.pool.caching && i < |Blocks(c, s)| && (i + 1) * c.cfg.blockSize <= |tokens|
    ensures var d, b := RegisterPrefixBlocks(c, s, ns, tokens), Blocks(c, s)[i];
      && 0 < b < |c.pool.tags|
      && (c.pool.tags[b] == None ==> Lookup(d.pool, Chain(ns, tokens, c.cfg.blockSize, i + 1).value) == Some(b))
      && (c.pool.tags[b].Some? ==> d.pool.tags[b] == c.pool.tags[b])
      && (Lookup(c.pool, Chain(ns, tokens, c.cfg.blockSize, i + 1).value).Some? ==>
            Lookup(d.pool, Chain(ns, tokens, c.cfg.blockSize, i + 1).value).Some?)
  {
    hide RegisterUpTo, Chain, LruOk, SwapOk, Core;
    var n := FullBlocks(c, s, tokens);
    WholeBlocks(|tokens|, i + 1, c.cfg.blockSize);
    RegisteredUpTo(c, s, ns, tokens, n, i);
  }

  lemma WholeBlocks(size: nat, n: nat, bs: pos)
    requires n * bs <= size
    ensures n <= Quot(size, bs)
  {
    Decompose(size, bs);
    var q := Quot(size, bs);
    if q < n {
      NextBlock(q, bs);
      BlockStart(q + 1, n, bs);
    }
  }

  // Adopting published blocks publishes and withdraws nothing.
  lemma {:induction false} AdoptionKeepsIndex(c: Cache, s: int, ns: Namespace, tokens: seq<int>, i: nat)
    requires i * c.cfg.blockSize <= |tokens|
    ensures var d := ReuseFrom(c, s, ns, tokens, i).0; d.pool.index == c.pool.index && d.pool.caching == c.pool.caching
    decreases |tokens| - i * c.cfg.blockSize
  {
    if (i + 1) * c.cfg.blockSize <= |tokens| {
      hide Chain;
      NextBlock(i, c.cfg.blockSize);
      var hit := Lookup(c.pool, Chain(ns, tokens, c.cfg.blockSize, i + 1).value);
      if hit.Some? && 0 <= hit.value < |c.pool.refs| {
        AdoptionKeepsIndex(Adopt(c, s, i, hit.value), s, ns, tokens, i + 1);
      }
    }
  }

  lemma ReuseKeepsIndex(c: Cache, s: int, ns: Namespace, tokens: seq<int>)
    ensures var d := TryReusePrefix(c, s, ns, tokens).0;
      d.pool.index == c.pool.index && d.pool.caching == c.pool.caching
  {
    hide ReuseFrom, Touch;
    AdoptionKeepsIndex(c, s, ns, tokens, 0);
    var (d, n) := ReuseFrom(c, s, ns, tokens, 0);
    TouchOnly(d.(lens := Upd(d.lens, s, n * c.cfg.blockSize)), s);
  }

  // A block is new, or published under this very prompt already.
  ghost predicate NewOrFound(c: Cache, s: int, ns: Namespace, tokens: seq<int>, i: nat)
    requires i < |Blocks(c, s)| && (i + 1) * c.cfg.blockSize <= |tokens|
  {
    var b := Blocks(c, s)[i];
    || (0 <= b < |c.pool.tags| && c.pool.tags[b] == None)
    || Lookup(c.pool, Chain(ns, tokens, c.cfg.blockSize, i + 1).value).Some?
  }

  ghost predicate AllNewOrFound(c: Cache, s: int, ns: Namespace, tokens: seq<int>) {
    forall i: nat {:trigger Blocks(c, s)[i]} :: i < |Blocks(c, s)| && (i + 1) * c.cfg.blockSize <= |tokens| ==>
      NewOrFound(c, s, ns, tokens, i)
  }

  // The next sequence with the prompt gets every full block of it, and where
  // the blocks were new, the very blocks of the sequence that computed it.
  lemma PromptIsReusedWhole(c: Cache, s: int, ns: Namespace, tokens: seq<int>, t: int)
    requires Inv(c) && c.pool.caching && 0 <= t < c.cfg.maxSeqs && t !in c.swap.out && Blocks(c, t) == []
    requires Quot(|tokens|, c.cfg.blockSize) <= |Blocks(c, s)| && Quot(|tokens|, c.cfg.blockSize) <= c.cfg.maxBlocks
    requires AllNewOrFound(c, s, ns, tokens)
    ensures var d := RegisterPrefixBlocks(c, s, ns, tokens); var (e, reused) := TryReusePrefix(d, t, ns, tokens);
      && reused == Quot(|tokens|, c.cfg.blockSize) * c.cfg.blockSize
      && |Blocks(e, t)| == Quot(|tokens|, c.cfg.blockSize)
      && forall i :: 0 <= i < |Blocks(e, t)| ==>
           var b := Blocks(c, s)[i]; 0 < b < |c.pool.tags| && (c.pool.tags[b] == None ==> Blocks(e, t)[i] == b)
  {
    var d, full := RegisterPrefixBlocks(c, s, ns, tokens), Quot(|tokens|, c.cfg.blockSize);
    hide RegisterPrefixBlocks, TryReusePrefix, Chain, Inv, View, Quot, Lookup, AllNewOrFound;
    SameLists(c, s, ns, tokens);
    RegisterStep(c, s, ns, tokens);
    var n := TryReusePrefixStep(d, t, ns, tokens);
    AllAdopted(c, d, s, ns, tokens, n);
    var e := TryReusePrefix(d, t, ns, tokens).0;
    ReuseKeepsIndex(d, t, ns, tokens);
    forall i | 0 <= i < full
      ensures var b := Blocks(c, s)[i]; 0 < b < |c.pool.tags| && (c.pool.tags[b] == None ==> Blocks(e, t)[i] == b)
    {
      AdoptedIs(c, d, e, s, ns, tokens, t, full, i);
    }
  }

  // Reuse does not stop before the last full block.
  lemma AllAdopted(c: Cache, d: Cache, s: int, ns: Namespace, tokens: seq<int>, n: nat)
    requires Inv(c) && c.pool.caching && d == RegisterPrefixBlocks(c, s, ns, tokens) && d.cfg == c.cfg
    requires Quot(|tokens|, c.cfg.blockSize) <= |Blocks(c, s)| && n * c.cfg.blockSize <= |tokens|
    requires AllNewOrFound(c, s, ns, tokens)
    requires (n + 1) * c.cfg.blockSize <= |tokens| ==>
      Lookup(d.pool, Chain(ns, tokens, c.cfg.blockSize, n + 1).value) == None
    ensures n == Quot(|tokens|, c.cfg.blockSize)
  {
    hide RegisterPrefixBlocks, Chain, Inv, Quot, Lookup;
    var bs, full := c.cfg.blockSize, Quot(|tokens|, c.cfg.blockSize);
    Decompose(|tokens|, bs);
    WholeBlocks(|tokens|, n, bs);
    if n < full {
      BlockStart(n + 1, full, bs);
      assert Blocks(c, s)[n] == Blocks(c, s)[n] && NewOrFound(c, s, ns, tokens, n);
      FullBlocksAreFound(c, s, ns, tokens, n);
      assert false;
    }
  }

  lemma AdoptedIs(c: Cache, d: Cache, e: Cache, s: int, ns: Namespace, tokens: seq<int>, t: int, n: nat, i: nat)
    requires Inv(c) && c.pool.caching && d == RegisterPrefixBlocks(c, s, ns, tokens) && e.cfg == c.cfg
    requires e.pool.index == d.pool.index && e.pool.caching == d.pool.caching
    requires i < n <= |Blocks(c, s)| && n * c.cfg.blockSize <= |tokens| && Follows(e, t, ns, tokens, n)
    ensures var b := Blocks(c, s)[i]; 0 < b < |c.pool.tags| && (c.pool.tags[b] == None ==> Blocks(e, t)[i] == b)
  {
    hide RegisterPrefixBlocks, Chain, Inv, Lookup;
    BlockStart(i + 1, n, c.cfg.blockSize);
    FullBlocksAreFound(c, s, ns, tokens, i);
    assert Link(e, ns, tokens, i, n, Blocks(e, t)[i]);
    ChainIs(ns, tokens, c.cfg.blockSize, i + 1);
    SameIndex(d, e, Chain(ns, tokens, c.cfg.blockSize, i + 1).value);
  }

  lemma SameLists(c: Cache, s: int, ns: Namespace, tokens: seq<int>)
    ensures var d := RegisterPrefixBlocks(c, s, ns, tokens); d.owned == c.owned && d.pool.caching == c.pool.caching
  {
  }
}
