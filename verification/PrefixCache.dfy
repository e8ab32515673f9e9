// The prefix cache: what reuse hands out, and why reusing a prefix and
// computing only the tail gives the same KV as computing everything.
module PrefixCache {
  import opened Prelude
  import opened Hashing
  import opened PoolSpec
  import opened CacheSpec
  import opened CacheInv
  import opened Lru
  import opened CacheView
  import opened CacheSteps

  // ---- The hash chain names exactly one prefix ----

  function Depth(h: Option<Hash>): nat {
    if h == None then 0 else 1 + Depth(h.value.prev)
  }

  // The tokens a hash stands for, from the start of the prompt on.
  function Expand(h: Option<Hash>): seq<int> {
    if h == None then [] else Expand(h.value.prev) + h.value.tokens
  }

  lemma {:induction false} ChainIs(ns: Namespace, tokens: seq<int>, bs: pos, n: nat)
    requires n * bs <= |tokens|
    ensures Depth(Chain(ns, tokens, bs, n)) == n
    ensures Expand(Chain(ns, tokens, bs, n)) == tokens[..n * bs]
    ensures n > 0 ==> Chain(ns, tokens, bs, n).Some? && Chain(ns, tokens, bs, n).value.ns == ns
                      && |Chain(ns, tokens, bs, n).value.tokens| == bs
  {
    if n > 0 {
      assert (n - 1) * bs + bs == n * bs;
      ChainIs(ns, tokens, bs, n - 1);
      assert tokens[..(n - 1) * bs] + tokens[(n - 1) * bs..n * bs] == tokens[..n * bs];
    }
  }

  // ---- try_reuse_prefix ----

  // The sequence lists, block by block, the cached blocks of the chain.
  ghost predicate Follows(c: Cache, s: int, ns: Namespace, tokens: seq<int>, n: nat)
    requires n * c.cfg.blockSize <= |tokens|
  {
    && |Blocks(c, s)| == n
    && forall j :: 0 <= j < n ==> Link(c, ns, tokens, j, n, Blocks(c, s)[j])
  }

  lemma FollowsNothing(c: Cache, s: int, ns: Namespace, tokens: seq<int>)
    requires Blocks(c, s) == []
    ensures Follows(c, s, ns, tokens, 0)
  {
  }

  lemma SameIndex(c: Cache, d: Cache, h: Hash)
    requires d.pool.index == c.pool.index && d.pool.caching == c.pool.caching
    ensures Lookup(d.pool, h) == Lookup(c.pool, h)
  {
  }

  ghost predicate Link(c: Cache, ns: Namespace, tokens: seq<int>, j: nat, n: nat, b: int)
    requires j < n && n * c.cfg.blockSize <= |tokens|
  {
    BlockStart(j + 1, n, c.cfg.blockSize);
    Lookup(c.pool, Chain(ns, tokens, c.cfg.blockSize, j + 1).value) == Some(b)
  }

  // Everything but the one sequence's list and the reference counts stays.
  ghost predicate OnlyAdopts(c: Cache, d: Cache, s: int) {
    && d == c.(pool := d.pool, table := d.table, owned := d.owned)
    && d.pool.tags == c.pool.tags && d.pool.index == c.pool.index && d.pool.caching == c.pool.caching
    && d.owned.Keys <= c.owned.Keys + {s}
    && (forall t :: t in c.owned ==> t in d.owned)
    && (forall t :: t in c.owned && t != s ==> d.owned[t] == c.owned[t])
  }

  lemma AdoptedIsNew(c: Cache, s: int, ns: Namespace, tokens: seq<int>, i: nat, b: int)
    requires Core(c) && i * c.cfg.blockSize <= |tokens| && Follows(c, s, ns, tokens, i)
    requires (i + 1) * c.cfg.blockSize <= |tokens|
    requires Lookup(c.pool, Chain(ns, tokens, c.cfg.blockSize, i + 1).value) == Some(b)
    ensures 0 < b < c.cfg.numBlocks && b !in Blocks(c, s) && Some(b) != c.dummy
  {
    var h := Chain(ns, tokens, c.cfg.blockSize, i + 1);
    ChainIs(ns, tokens, c.cfg.blockSize, i + 1);
    if b in Blocks(c, s) {
      var j :| 0 <= j < i && Blocks(c, s)[j] == b;
      assert Link(c, ns, tokens, j, i, b);
      BlockStart(j + 1, i, c.cfg.blockSize);
      ChainIs(ns, tokens, c.cfg.blockSize, j + 1);
    }
  }

  lemma FollowsMore(c: Cache, d: Cache, s: int, ns: Namespace, tokens: seq<int>, i: nat, b: int)
    requires i * c.cfg.blockSize <= |tokens| && Follows(c, s, ns, tokens, i)
    requires (i + 1) * c.cfg.blockSize <= |tokens|
    requires Lookup(c.pool, Chain(ns, tokens, c.cfg.blockSize, i + 1).value) == Some(b)
    requires d.cfg == c.cfg && d.pool.index == c.pool.index && d.pool.caching == c.pool.caching
    requires Blocks(d, s) == Blocks(c, s) + [b]
    ensures Follows(d, s, ns, tokens, i + 1)
  {
    forall j | 0 <= j < i + 1 ensures Link(d, ns, tokens, j, i + 1, Blocks(d, s)[j]) {
      if j < i { assert Link(c, ns, tokens, j, i, Blocks(c, s)[j]); }
    }
  }

  lemma AdoptStep(c: Cache, s: int, ns: Namespace, tokens: seq<int>, i: nat, b: int)
    requires Core(c) && c.pool.caching && 0 <= s < c.cfg.maxSeqs
    requires Quot(|tokens|, c.cfg.blockSize) <= c.cfg.maxBlocks
    requires i * c.cfg.blockSize <= |tokens| && Follows(c, s, ns, tokens, i)
    requires (i + 1) * c.cfg.blockSize <= |tokens|
    requires Lookup(c.pool, Chain(ns, tokens, c.cfg.blockSize, i + 1).value) == Some(b)
    ensures 0 <= b < |c.pool.refs|
    ensures var d := Adopt(c, s, i, b);
      Core(d) && OnlyAdopts(c, d, s) && Follows(d, s, ns, tokens, i + 1) && s in d.owned
  {
    assert Shape(c);
    hide Core, Link;
    AdoptedIsNew(c, s, ns, tokens, i, b);
    RoomForNext(i, |tokens|, c.cfg.blockSize);
    AdoptCore(c, s, b);
    FollowsMore(c, Adopt(c, s, i, b), s, ns, tokens, i, b);
  }

  // What the adoption loop has found when it stops.
  ghost predicate Found(c: Cache, d: Cache, s: int, ns: Namespace, tokens: seq<int>, i: nat, n: nat) {
    && i <= n && n * c.cfg.blockSize <= |tokens| && d.cfg == c.cfg
    && Core(d) && OnlyAdopts(c, d, s) && Follows(d, s, ns, tokens, n)
    && (n > i ==> s in d.owned) && (n == i ==> d == c)
    && ((n + 1) * c.cfg.blockSize <= |tokens| ==>
          Lookup(c.pool, Chain(ns, tokens, c.cfg.blockSize, n + 1).value) == None)
  }

  lemma FoundMore(c: Cache, d: Cache, e: Cache, s: int, ns: Namespace, tokens: seq<int>, i: nat, n: nat)
    requires OnlyAdopts(c, d, s) && s in d.owned && Found(d, e, s, ns, tokens, i + 1, n)
    ensures Found(c, e, s, ns, tokens, i, n)
  {
  }

  lemma {:induction false} ReuseFromStep(c: Cache, s: int, ns: Namespace, tokens: seq<int>, i: nat)
    requires Core(c) && c.pool.caching && 0 <= s < c.cfg.maxSeqs
    requires Quot(|tokens|, c.cfg.blockSize) <= c.cfg.maxBlocks
    requires i * c.cfg.blockSize <= |tokens| && Follows(c, s, ns, tokens, i)
    ensures Found(c, ReuseFrom(c, s, ns, tokens, i).0, s, ns, tokens, i, ReuseFrom(c, s, ns, tokens, i).1)
    decreases |tokens| - i * c.cfg.blockSize
  {
    hide Adopt, Core;
    NextBlock(i, c.cfg.blockSize);
    if (i + 1) * c.cfg.blockSize <= |tokens| {
      var hit := Lookup(c.pool, Chain(ns, tokens, c.cfg.blockSize, i + 1).value);
      if hit.Some? {
        AdoptStep(c, s, ns, tokens, i, hit.value);
        var d := Adopt(c, s, i, hit.value);
        ReuseFromStep(d, s, ns, tokens, i + 1);
        var (e, n) := ReuseFrom(d, s, ns, tokens, i + 1);
        FoundMore(c, d, e, s, ns, tokens, i, n);
      }
    }
  }

  lemma RoomForNext(i: nat, n: nat, bs: pos)
    requires (i + 1) * bs <= n
    ensures i < Quot(n, bs)
  {
    Decompose(n, bs);
    NextBlock(Quot(n, bs), bs);
    if Quot(n, bs) <= i { BlockStart(Quot(n, bs) + 1, i + 1, bs); }
  }

  // What a caller of try_reuse_prefix gets: the longest run of cached blocks
  // from the start, and their contents under its own positions.
  ghost predicate Inherited(c: Cache, s: int, ns: Namespace, tokens: seq<int>, n: nat, l: int, p: int, v: KV)
    requires n * c.cfg.blockSize <= |tokens|
  {
    if 0 <= l < c.cfg.layers && 0 <= p && Quot(p, c.cfg.blockSize) < n then
      var i, o := Quot(p, c.cfg.blockSize), Rem(p, c.cfg.blockSize);
      BlockStart(i + 1, n, c.cfg.blockSize);
      var b := Lookup(c.pool, Chain(ns, tokens, c.cfg.blockSize, i + 1).value);
      b.Some? && InCell(c, b.value, l, o) && v == c.cells[b.value][l][o]
    else v == c.cfg.zero
  }

  ghost predicate ReuseMeets(c: Cache, d: Cache, s: int, ns: Namespace, tokens: seq<int>, n: nat) {
    && n * c.cfg.blockSize <= |tokens|
    && Inv(d) && d.cfg == c.cfg && d.swap == c.swap && d.cells == c.cells
    && Follows(d, s, ns, tokens, n)
    && (forall t, l, p :: t != s ==> View(d, t, l, p) == View(c, t, l, p))
    && (forall l, p {:trigger View(d, s, l, p)} :: Inherited(c, s, ns, tokens, n, l, p, View(d, s, l, p)))
    && (forall t :: Length(d, t) == if t == s && n > 0 then n * c.cfg.blockSize else Length(c, t))
    && (c.pool.caching && (n + 1) * c.cfg.blockSize <= |tokens| ==>
          Lookup(c.pool, Chain(ns, tokens, c.cfg.blockSize, n + 1).value) == None)
  }

  lemma InheritedView(c: Cache, d: Cache, s: int, ns: Namespace, tokens: seq<int>, n: nat, l: int, p: int)
    requires n * c.cfg.blockSize <= |tokens|
    requires Core(c) && Core(d) && d.cfg == c.cfg && d.cells == c.cells && d.pool.index == c.pool.index
    requires d.pool.caching == c.pool.caching && Follows(d, s, ns, tokens, n)
    ensures Inherited(c, s, ns, tokens, n, l, p, View(d, s, l, p))
  {
    hide Core;
    ViewIs(d, s, l, p);
    if 0 <= l < c.cfg.layers && 0 <= p && Quot(p, c.cfg.blockSize) < n {
      var i := Quot(p, c.cfg.blockSize);
      assert Link(d, ns, tokens, i, n, Blocks(d, s)[i]);
      BlockStart(i + 1, n, c.cfg.blockSize);
    }
  }

  lemma AdoptsReads(c: Cache, d: Cache, s: int)
    requires Core(c) && Core(d) && OnlyAdopts(c, d, s)
    ensures forall t, l, p :: t != s ==> View(d, t, l, p) == View(c, t, l, p)
  {
    forall t, l, p | t != s ensures View(d, t, l, p) == View(c, t, l, p) {
      ViewIs(c, t, l, p);
      ViewIs(d, t, l, p);
      assert Blocks(d, t) == Blocks(c, t);
    }
  }

  lemma NothingReused(c: Cache, s: int, ns: Namespace, tokens: seq<int>)
    requires Inv(c) && Blocks(c, s) == []
    requires c.pool.caching && c.cfg.blockSize <= |tokens| ==>
      Lookup(c.pool, Chain(ns, tokens, c.cfg.blockSize, 1).value) == None
    ensures ReuseMeets(c, c, s, ns, tokens, 0)
  {
    forall l, p ensures Inherited(c, s, ns, tokens, 0, l, p, View(c, s, l, p)) { ViewIs(c, s, l, p); }
  }

  lemma AdoptedInv(c: Cache, e: Cache, s: int, len: nat)
    requires Inv(c) && Core(e) && OnlyAdopts(c, e, s) && s !in c.swap.out && 0 <= s < c.cfg.maxSeqs
    ensures Inv(Touch(e.(lens := Upd(e.lens, s, len)), s))
  {
    var f := e.(lens := Upd(e.lens, s, len));
    assert Core(f);
    TouchCore(f, s);
    forall t | t in f.owned && t != s ensures Recorded(f, t) { assert Recorded(c, t); }
    TouchLru(f, s);
    SwapFrame(c, Touch(f, s));
  }

  lemma FollowsStill(c: Cache, d: Cache, s: int, ns: Namespace, tokens: seq<int>, n: nat)
    requires n * c.cfg.blockSize <= |tokens| && Follows(c, s, ns, tokens, n)
    requires d.cfg == c.cfg && d.pool == c.pool && d.owned == c.owned
    ensures Follows(d, s, ns, tokens, n)
  {
    hide Chain;
    forall j | 0 <= j < n ensures Link(d, ns, tokens, j, n, Blocks(d, s)[j]) {
      assert Link(c, ns, tokens, j, n, Blocks(c, s)[j]);
    }
  }

  lemma SomethingReused(c: Cache, e: Cache, s: int, ns: Namespace, tokens: seq<int>, n: nat)
    requires Inv(c) && c.pool.caching && s !in c.swap.out && 0 <= s < c.cfg.maxSeqs
    requires n > 0 && Found(c, e, s, ns, tokens, 0, n)
    ensures ReuseMeets(c, Touch(e.(lens := Upd(e.lens, s, n * c.cfg.blockSize)), s), s, ns, tokens, n)
  {
    hide Core, LruOk, SwapOk, Follows, Inherited, View, Touch, ReuseMeets;
    var len := n * c.cfg.blockSize;
    var f := e.(lens := Upd(e.lens, s, len));
    var d := Touch(f, s);
    TouchOnly(f, s);
    AdoptedInv(c, e, s, len);
    AdoptsReads(c, e, s);
    SameView(e, d);
    FollowsStill(e, d, s, ns, tokens, n);
    ReuseAssembled(c, e, d, s, ns, tokens, n);
  }

  lemma ReuseAssembled(c: Cache, e: Cache, d: Cache, s: int, ns: Namespace, tokens: seq<int>, n: nat)
    requires Inv(c) && c.pool.caching && 0 <= s < c.cfg.maxSeqs && n > 0 && Found(c, e, s, ns, tokens, 0, n)
    requires Inv(d) && d == e.(lens := Upd(e.lens, s, n * c.cfg.blockSize), lru := d.lru)
    requires Follows(d, s, ns, tokens, n)
    requires forall t, l, p :: t != s ==> View(d, t, l, p) == View(c, t, l, p)
    ensures ReuseMeets(c, d, s, ns, tokens, n)
  {
    assert Shape(c);
    hide Core, LruOk, SwapOk, Chain, Follows, Inherited, View, Lookup;
    forall l, p ensures Inherited(c, s, ns, tokens, n, l, p, View(d, s, l, p)) {
      InheritedView(c, d, s, ns, tokens, n, l, p);
    }
  }

  lemma SameView(c: Cache, d: Cache)
    requires d.cfg == c.cfg && d.table == c.table && d.cells == c.cells
    ensures forall t, l, p :: View(d, t, l, p) == View(c, t, l, p)
  {
    SameTable(c, d);
  }

  lemma TryReusePrefixStep(c: Cache, s: int, ns: Namespace, tokens: seq<int>) returns (n: nat)
    requires Inv(c) && 0 <= s < c.cfg.maxSeqs && s !in c.swap.out && Blocks(c, s) == []
    requires Quot(|tokens|, c.cfg.blockSize) <= c.cfg.maxBlocks
    ensures TryReusePrefix(c, s, ns, tokens).1 == n * c.cfg.blockSize
    ensures ReuseMeets(c, TryReusePrefix(c, s, ns, tokens).0, s, ns, tokens, n)
  {
    n := 0;
    if c.pool.caching {
      assert Follows(c, s, ns, tokens, 0);
      ReuseFromStep(c, s, ns, tokens, 0);
      n := ReuseFrom(c, s, ns, tokens, 0).1;
    }
    if n == 0 {
      NothingReused(c, s, ns, tokens);
    } else {
      SomethingReused(c, ReuseFrom(c, s, ns, tokens, 0).0, s, ns, tokens, n);
    }
  }
}
