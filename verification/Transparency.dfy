// Prefix-cache transparency: when every write stores the KV row that the
// model computes for the namespace and the tokens up to that position, every
// tagged block holds exactly the rows its hash stands for, whatever is
// evicted, re-registered or swapped.
module Transparency {
  import opened Prelude
  import opened Hashing
  import opened PoolSpec
  import opened CacheSpec
  import opened CacheInv
  import opened Lru
  import opened CacheView
  import opened CacheSteps
  import opened PrefixCache

  // The row a model computes for the last token of a prefix, per layer.
  type Model = (Namespace, seq<int>, int) -> KV

  datatype Prompt = Prompt(ns: Namespace, tokens: seq<int>)

  function UpTo(s: seq<int>, n: int): seq<int> {
    if 0 <= n <= |s| then s[..n] else s
  }

  function RowAt(f: Model, r: Prompt, l: int, p: nat): KV {
    f(r.ns, UpTo(r.tokens, p + 1), l)
  }

  ghost predicate Holds(c: Cache, f: Model, b: int, h: Hash) {
    && |h.tokens| == c.cfg.blockSize
    && forall l, o :: InCell(c, b, l, o) ==>
         c.cells[b][l][o] == f(h.ns, Expand(h.prev) + UpTo(h.tokens, o + 1), l)
  }

  ghost predicate TagsHold(c: Cache, f: Model) {
    forall b :: 0 <= b < |c.pool.tags| && c.pool.tags[b].Some? ==> Holds(c, f, b, c.pool.tags[b].value)
  }

  // The tag of a listed block is the hash of the list owner's own prompt.
  ghost predicate TagFits(c: Cache, who: map<int, Prompt>, s: int, j: nat, b: int) {
    0 <= b < |c.pool.tags| && c.pool.tags[b].Some? ==>
      && s in who && (j + 1) * c.cfg.blockSize <= |who[s].tokens|
      && c.pool.tags[b] == Chain(who[s].ns, who[s].tokens, c.cfg.blockSize, j + 1)
  }

  ghost predicate OwnTags(c: Cache, who: map<int, Prompt>) {
    forall s, j :: s in c.owned && 0 <= j < |c.owned[s]| ==> TagFits(c, who, s, j, c.owned[s][j])
  }

  ghost predicate SharedTagged(c: Cache) {
    forall b :: 0 <= b < |c.pool.refs| == |c.pool.tags| && c.pool.refs[b] > 1 ==> c.pool.tags[b].Some?
  }

  ghost predicate Sound(c: Cache, f: Model, who: map<int, Prompt>) {
    Inv(c) && TagsHold(c, f) && OwnTags(c, who) && SharedTagged(c)
  }

  // ---- What the cache index promises ----

  lemma ChainPrefix(f: Model, ns: Namespace, tokens: seq<int>, bs: pos, n: nat, o: nat, l: int)
    requires (n + 1) * bs <= |tokens| && o < bs
    ensures var h := Chain(ns, tokens, bs, n + 1);
      h.Some? && h.value.ns == ns && |h.value.tokens| == bs
      && Expand(h.value.prev) + UpTo(h.value.tokens, o + 1) == UpTo(tokens, n * bs + o + 1)
  {
    NextBlock(n, bs);
    ChainIs(ns, tokens, bs, n + 1);
    ChainIs(ns, tokens, bs, n);
    SlicePrefix(tokens, n * bs, (n + 1) * bs, o);
  }

  lemma SlicePrefix(tokens: seq<int>, start: nat, end: nat, o: nat)
    requires start <= end <= |tokens| && o < end - start
    ensures tokens[..start] + UpTo(tokens[start..end], o + 1) == UpTo(tokens, start + o + 1)
  {
  }

  // A hit always names a block with the KV of exactly the asked-for
  // namespace and prefix.
  lemma HitsAreCanonical(c: Cache, f: Model, who: map<int, Prompt>, r: Prompt, n: nat, b: int)
    requires Sound(c, f, who) && (n + 1) * c.cfg.blockSize <= |r.tokens|
    requires Lookup(c.pool, Chain(r.ns, r.tokens, c.cfg.blockSize, n + 1).value) == Some(b)
    ensures 0 < b < |c.cells| == |c.pool.tags| && c.pool.tags[b] == Chain(r.ns, r.tokens, c.cfg.blockSize, n + 1)
    ensures forall l, o :: InCell(c, b, l, o) ==> c.cells[b][l][o] == RowAt(f, r, l, n * c.cfg.blockSize + o)
  {
    var h := Chain(r.ns, r.tokens, c.cfg.blockSize, n + 1);
    assert Holds(c, f, b, h.value);
    forall l, o | InCell(c, b, l, o)
      ensures c.cells[b][l][o] == RowAt(f, r, l, n * c.cfg.blockSize + o)
    {
      ChainPrefix(f, r.ns, r.tokens, c.cfg.blockSize, n, o, l);
    }
  }

  // ---- Steps that drop tags but never change a tagged block ----

  ghost predicate TagsKept(c: Cache, d: Cache) {
    && d.cfg == c.cfg && |d.pool.tags| == |c.pool.tags| && |d.cells| == |c.cells| && |d.pool.refs| == |c.pool.refs|
    && |c.cells| == |c.pool.refs| == |c.pool.tags|
    && (forall b :: 0 <= b < |d.pool.tags| && d.pool.tags[b].Some? ==>
          d.pool.tags[b] == c.pool.tags[b] && d.cells[b] == c.cells[b])
    && (forall b :: 0 <= b < |d.pool.refs| && d.pool.refs[b] > 1 ==>
          c.pool.refs[b] > 1 && d.pool.tags[b] == c.pool.tags[b])
  }

  // A list only ever gains untagged blocks.
  ghost predicate ListsFrom(c: Cache, d: Cache) {
    forall t, j :: t in d.owned && 0 <= j < |d.owned[t]| ==> ListedBefore(c, d, t, j, d.owned[t][j])
  }

  ghost predicate ListedBefore(c: Cache, d: Cache, t: int, j: nat, b: int) {
    || (t in c.owned && j < |c.owned[t]| && c.owned[t][j] == b)
    || (0 <= b < |d.pool.tags| && d.pool.tags[b] == None)
  }

  lemma SoundKept(c: Cache, d: Cache, f: Model, who: map<int, Prompt>)
    requires Sound(c, f, who) && Inv(d) && TagsKept(c, d) && ListsFrom(c, d)
    ensures Sound(d, f, who)
  {
    forall b | 0 <= b < |d.pool.tags| && d.pool.tags[b].Some? ensures Holds(d, f, b, d.pool.tags[b].value) {
      assert Holds(c, f, b, c.pool.tags[b].value);
      assert forall l, o :: InCell(d, b, l, o) ==> InCell(c, b, l, o);
    }
    forall s, j | s in d.owned && 0 <= j < |d.owned[s]| ensures TagFits(d, who, s, j, d.owned[s][j]) {
      assert ListedBefore(c, d, s, j, d.owned[s][j]);
      if s in c.owned && j < |c.owned[s]| { assert TagFits(c, who, s, j, c.owned[s][j]); }
    }
  }

  lemma KeptTwice(c: Cache, d: Cache, e: Cache)
    requires TagsKept(c, d) && ListsFrom(c, d) && TagsKept(d, e) && ListsFrom(d, e)
    ensures TagsKept(c, e) && ListsFrom(c, e)
  {
    forall t, j | t in e.owned && 0 <= j < |e.owned[t]| ensures ListedBefore(c, e, t, j, e.owned[t][j]) {
      var b := e.owned[t][j];
      assert ListedBefore(d, e, t, j, b);
      if t in d.owned && j < |d.owned[t]| && d.owned[t][j] == b {
        assert ListedBefore(c, d, t, j, b);
      }
    }
  }

  lemma FreeKept(c: Cache, s: int)
    requires Core(c)
    ensures TagsKept(c, FreeSequence(c, s)) && ListsFrom(c, FreeSequence(c, s))
  {
    var d := FreeSequence(c, s);
    assert d.pool.tags == c.pool.tags && d.cells == c.cells;
    forall t, j | t in d.owned && 0 <= j < |d.owned[t]| ensures ListedBefore(c, d, t, j, d.owned[t][j]) {}
  }

  lemma FreeSound(c: Cache, f: Model, who: map<int, Prompt>, s: int)
    requires Sound(c, f, who)
    ensures Sound(FreeSequence(c, s), f, who)
  {
    FreeSequenceStep(c, s);
    FreeKept(c, s);
    SoundKept(c, FreeSequence(c, s), f, who);
  }

  lemma {:induction false} FreeAllKept(c: Cache, es: seq<Entry>)
    requires Core(c)
    ensures TagsKept(c, FreeAll(c, es)) && ListsFrom(c, FreeAll(c, es))
    decreases |es|
  {
    if es == [] {
      forall t, j | t in c.owned && 0 <= j < |c.owned[t]| ensures ListedBefore(c, c, t, j, c.owned[t][j]) {}
    } else {
      FreeSequenceCore(c, es[0].seqId);
      FreeKept(c, es[0].seqId);
      FreeAllKept(FreeSequence(c, es[0].seqId), es[1..]);
      KeptTwice(c, FreeSequence(c, es[0].seqId), FreeAll(c, es));
    }
  }

  lemma EvictKept(c: Cache, needed: int, s: int)
    requires Inv(c) && EvictLru(c, needed, s).Evicted?
    ensures TagsKept(c, EvictLru(c, needed, s).c) && ListsFrom(c, EvictLru(c, needed, s).c)
  {
    var k := EvictLruWorks(c, needed, s);
    var d, e := EvictLru(c, needed, s).c, FreeAll(c, Live(c)[..k]);
    FreeAllKept(c, Live(c)[..k]);
    forall t, j | t in d.owned && 0 <= j < |d.owned[t]| ensures ListedBefore(c, d, t, j, d.owned[t][j]) {
      assert ListedBefore(c, e, t, j, e.owned[t][j]);
    }
  }

  lemma GrantKept(c: Cache, s: int, n: nat)
    requires Core(c) && n <= |c.pool.free|
    ensures TagsKept(c, Grant(c, s, n)) && ListsFrom(c, Grant(c, s, n))
  {
    var d := Grant(c, s, n);
    var taken := c.pool.free[..n];
    TakeKept(c, n);
    assert d.pool == Take(c.pool, n) && d.owned == c.owned[s := Blocks(c, s) + taken];
    assert d.cells == Wipe(c, taken);
    forall t, j | t in d.owned && 0 <= j < |d.owned[t]| ensures ListedBefore(c, d, t, j, d.owned[t][j]) {
      if t == s && j >= |Blocks(c, s)| { assert d.owned[t][j] in taken; }
    }
  }

  lemma AllocateSound(c: Cache, f: Model, who: map<int, Prompt>, s: int, n: nat)
    requires Sound(c, f, who) && MayGrow(c, s, n)
    ensures !Allocate(c, s, n).NeverReturns? ==> Sound(Allocate(c, s, n).c, f, who)
  {
    hide Grant, EvictLru;
    AllocateStep(c, s, n);
    if n <= |c.pool.free| {
      GrantKept(c, s, n);
      SoundKept(c, Grant(c, s, n), f, who);
    } else if c.cfg.lruEviction && EvictLru(c, Short(c, n), s).Evicted? {
      var e := EvictLru(c, Short(c, n), s).c;
      EvictStep(c, Short(c, n), s);
      EvictKept(c, Short(c, n), s);
      if Allocate(c, s, n).Granted? {
        GrantKept(e, s, n);
        KeptTwice(c, e, Grant(e, s, n));
      }
      SoundKept(c, Allocate(c, s, n).c, f, who);
    }
  }

  // ---- Canonical writes ----

  lemma CowKept(c: Cache, s: int, i: int)
    requires Core(c) && 0 <= i < |Blocks(c, s)|
    ensures TagsKept(c, CowIfShared(c, s, i, Blocks(c, s)[i]).0)
    ensures ListsFrom(c, CowIfShared(c, s, i, Blocks(c, s)[i]).0)
  {
    var d := CowIfShared(c, s, i, Blocks(c, s)[i]).0;
    assert Blocks(c, s)[i] in c.owned[s];
    if Copies(c, s, i) {
      TakeKept(c, 1);
      assert c.pool.free[..1] == [c.pool.free[0]];
      assert d.pool.tags == Take(c.pool, 1).tags;
      var copy := c.pool.free[0];
      assert copy in c.pool.free[..1];
      assert d.pool.tags[copy] == None && d.owned == c.owned[s := c.owned[s][i := copy]];
    }
    forall t, j | t in d.owned && 0 <= j < |d.owned[t]| ensures ListedBefore(c, d, t, j, d.owned[t][j]) {}
  }

  // The block the write lands in, tagged or not, is listed at its place.
  ghost predicate Canonical(f: Model, who: map<int, Prompt>, s: int, l: int, p: nat, v: KV) {
    s in who && p < |who[s].tokens| && v == RowAt(f, who[s], l, p)
  }

  lemma PutSame(c: Cache, b: int, l: int, o: int)
    requires InCell(c, b, l, o)
    ensures Put(c.cells, b, l, o, c.cells[b][l][o]) == c.cells
  {
    assert c.cells[b][l][o := c.cells[b][l][o]] == c.cells[b][l];
    assert c.cells[b][l := c.cells[b][l]] == c.cells[b];
  }

  lemma TaggedCell(c: Cache, f: Model, r: Prompt, i: nat, b: int, l: int, o: nat)
    requires Core(c) && TagsHold(c, f) && InCell(c, b, l, o) && 0 <= b < |c.pool.tags| && o < c.cfg.blockSize
    requires (i + 1) * c.cfg.blockSize <= |r.tokens|
    requires c.pool.tags[b] == Chain(r.ns, r.tokens, c.cfg.blockSize, i + 1)
    ensures c.cells[b][l][o] == RowAt(f, r, l, i * c.cfg.blockSize + o)
  {
    ChainPrefix(f, r.ns, r.tokens, c.cfg.blockSize, i, o, l);
    assert Holds(c, f, b, c.pool.tags[b].value);
  }

  // Writing the canonical row into a tagged block changes nothing.
  lemma TaggedStoreIsIdle(c: Cache, f: Model, who: map<int, Prompt>, l: int, s: int, p: nat, v: KV)
    requires Core(c) && TagsHold(c, f) && OwnTags(c, who) && 0 <= l < c.cfg.layers
    requires Canonical(f, who, s, l, p, v) && Quot(p, c.cfg.blockSize) < |Blocks(c, s)|
    requires 0 <= BlockAt(c, s, p) < |c.pool.tags| && c.pool.tags[BlockAt(c, s, p)].Some?
    ensures Put(c.cells, BlockAt(c, s, p), l, Rem(p, c.cfg.blockSize), v) == c.cells
  {
    ViewIs(c, s, l, p);
    Decompose(p, c.cfg.blockSize);
    TaggedRow(c, f, who, s, Quot(p, c.cfg.blockSize), BlockAt(c, s, p), l, Rem(p, c.cfg.blockSize), p);
    PutSame(c, BlockAt(c, s, p), l, Rem(p, c.cfg.blockSize));
  }

  lemma TaggedRow(c: Cache, f: Model, who: map<int, Prompt>, s: int, i: nat, b: int, l: int, o: nat, p: nat)
    requires InCell(c, b, l, o) && o < c.cfg.blockSize && s in who && 0 <= b < |c.pool.tags|
    requires i < |Blocks(c, s)| && b == Blocks(c, s)[i] && c.pool.tags[b].Some? && p == i * c.cfg.blockSize + o
    requires Core(c) && TagsHold(c, f) && OwnTags(c, who)
    ensures c.cells[b][l][o] == RowAt(f, who[s], l, p)
  {
    assert TagFits(c, who, s, i, c.owned[s][i]);
    TaggedCell(c, f, who[s], i, b, l, o);
  }

  lemma StoreKept(c: Cache, f: Model, who: map<int, Prompt>, l: int, s: int, p: nat, v: KV)
    requires Core(c) && TagsHold(c, f) && OwnTags(c, who) && 0 <= l < c.cfg.layers
    requires Canonical(f, who, s, l, p, v) && Quot(p, c.cfg.blockSize) < |Blocks(c, s)|
    ensures var d := Store(c, l, s, p, BlockAt(c, s, p), v); TagsKept(c, d) && ListsFrom(c, d)
  {
    var d := Store(c, l, s, p, BlockAt(c, s, p), v);
    ViewIs(c, s, l, p);
    if c.pool.tags[BlockAt(c, s, p)].Some? { TaggedStoreIsIdle(c, f, who, l, s, p, v); }
    forall t, j | t in d.owned && 0 <= j < |d.owned[t]| ensures ListedBefore(c, d, t, j, d.owned[t][j]) {}
  }

  lemma TouchKept(c: Cache, s: int)
    requires Core(c)
    ensures TagsKept(c, Touch(c, s)) && ListsFrom(c, Touch(c, s))
  {
    TouchCore(c, s);
    forall t, j | t in c.owned && 0 <= j < |c.owned[t]| ensures ListedBefore(c, Touch(c, s), t, j, c.owned[t][j]) {}
  }

  // A canonical write keeps every tagged block canonical, even when a shared
  // block could not be copied for want of a free one.
  lemma WriteBlockSound(c: Cache, f: Model, who: map<int, Prompt>, l: int, s: int, p: nat, v: KV)
    requires Sound(c, f, who) && 0 <= l < c.cfg.layers && Quot(p, c.cfg.blockSize) < |Blocks(c, s)|
    requires Canonical(f, who, s, l, p, v)
    ensures Sound(WriteBlock(c, l, s, p, Blocks(c, s)[Quot(p, c.cfg.blockSize)], v), f, who)
  {
    var i := Quot(p, c.cfg.blockSize);
    CowSound(c, f, who, s, i);
    var (d, b) := CowIfShared(c, s, i, Blocks(c, s)[i]);
    assert b in d.owned[s];
    OwnedIsReferenced(d, s, b);
    StoreCore(d, l, s, p, b, v);
    var e := Store(d, l, s, p, b, v);
    SideFrame(d, e);
    StoreKept(d, f, who, l, s, p, v);
    SoundKept(d, e, f, who);
    TouchStep(e, s);
    TouchKept(e, s);
    SoundKept(e, Touch(e, s), f, who);
  }

  lemma CowSound(c: Cache, f: Model, who: map<int, Prompt>, s: int, i: int)
    requires Sound(c, f, who) && 0 <= i < |Blocks(c, s)|
    ensures var (d, b) := CowIfShared(c, s, i, Blocks(c, s)[i]);
      Sound(d, f, who) && i < |Blocks(d, s)| && b == Blocks(d, s)[i]
  {
    assert Blocks(c, s)[i] in c.owned[s];
    if Copies(c, s, i) {
      CowStep(c, s, i);
      CowKept(c, s, i);
      SoundKept(c, CowIfShared(c, s, i, Blocks(c, s)[i]).0, f, who);
    }
  }

  lemma WriteNewSound(c: Cache, d: Cache, f: Model, who: map<int, Prompt>, l: int, s: int, p: nat, v: KV, b: int)
    requires Sound(d, f, who) && 0 <= l < c.cfg.layers && Quot(p, c.cfg.blockSize) == |Blocks(c, s)|
    requires GrantedOk(c, d, s, 1, [b]) && Canonical(f, who, s, l, p, v)
    ensures Sound(WriteBlock(d, l, s, p, b, v), f, who)
  {
    assert Blocks(d, s)[Quot(p, c.cfg.blockSize)] == b;
    WriteBlockSound(d, f, who, l, s, p, v);
  }

  lemma WriteFreshSound(c: Cache, f: Model, who: map<int, Prompt>, l: int, s: int, p: nat, v: KV, a: Allocation)
    requires AllocMeets(c, s, 1, a) && (a.Granted? ==> Sound(a.c, f, who)) && 0 <= l < c.cfg.layers
    requires Quot(p, c.cfg.blockSize) == |Blocks(c, s)| && Canonical(f, who, s, l, p, v)
    ensures a.Granted? ==> |a.blocks| == 1 && Sound(WriteBlock(a.c, l, s, p, a.blocks[0], v), f, who)
  {
    if a.Granted? {
      var b := a.blocks[0];
      assert a.blocks == [b];
      WriteNewSound(c, a.c, f, who, l, s, p, v, b);
    }
  }

  lemma WriteKvSound(c: Cache, f: Model, who: map<int, Prompt>, l: int, s: int, p: nat, v: KV)
    requires Sound(c, f, who) && WriteOk(c, l, s, p) && Canonical(f, who, s, l, p, v)
    ensures !WriteKv(c, l, s, p, v).Hangs? ==> Sound(WriteKv(c, l, s, p, v).c, f, who)
  {
    WriteKvCases(c, l, s, p, v);
    if Quot(p, c.cfg.blockSize) < |Blocks(c, s)| {
      WriteBlockSound(c, f, who, l, s, p, v);
    } else {
      AllocateStep(c, s, 1);
      AllocateSound(c, f, who, s, 1);
      WriteFreshSound(c, f, who, l, s, p, v, Allocate(c, s, 1));
    }
  }

  // ---- Registering ----

  ghost predicate Computed(c: Cache, f: Model, r: Prompt, s: int, n: int) {
    forall l, p :: 0 <= l < c.cfg.layers && 0 <= p < n ==> View(c, s, l, p) == RowAt(f, r, l, p)
  }

  // Registering a computed block, alone in having this hash or not.
  lemma RegisterOneSound(c: Cache, f: Model, who: map<int, Prompt>, s: int, i: nat)
    requires Sound(c, f, who) && s in who && i < |Blocks(c, s)| && (i + 1) * c.cfg.blockSize <= |who[s].tokens|
    requires Computed(c, f, who[s], s, (i + 1) * c.cfg.blockSize) && c.pool.caching
    ensures 0 < Blocks(c, s)[i] < |c.pool.tags|
    ensures Chain(who[s].ns, who[s].tokens, c.cfg.blockSize, i + 1).Some?
    ensures var d := c.(pool := Register(c.pool, Blocks(c, s)[i],
                                         Chain(who[s].ns, who[s].tokens, c.cfg.blockSize, i + 1).value));
      Sound(d, f, who) && Computed(d, f, who[s], s, (i + 1) * c.cfg.blockSize)
  {
    var r, b := who[s], Blocks(c, s)[i];
    var h := Chain(r.ns, r.tokens, c.cfg.blockSize, i + 1);
    ChainIs(r.ns, r.tokens, c.cfg.blockSize, i + 1);
    assert |c.pool.refs| == |c.pool.tags| && b != NULL_BLOCK by { RegisterOneCore(c, s, i, h.value); }
    hide Core, LruOk, SwapOk, Computed, Chain, Expand, TagsHold, OwnTags, SharedTagged;
    RegisterOneCore(c, s, i, h.value);
    var d := c.(pool := Register(c.pool, b, h.value));
    SideFrame(c, d);
    RegisteredReads(c, d, f, r, s, (i + 1) * c.cfg.blockSize);
    if c.pool.tags[b] == None {
      BlockIsComputed(c, f, r, s, i);
      SoleLister(c, s, i);
      NewTag(c, d, f, who, s, i, h.value);
    } else {
      assert d == c;
    }
  }

  // An untagged block is listed once only.
  lemma SoleLister(c: Cache, s: int, i: nat)
    requires Core(c) && SharedTagged(c) && i < |Blocks(c, s)|
    requires 0 <= Blocks(c, s)[i] < |c.pool.tags| && c.pool.tags[Blocks(c, s)[i]] == None
    ensures forall t, j :: t in c.owned && 0 <= j < |c.owned[t]| && c.owned[t][j] == Blocks(c, s)[i] ==>
      t == s && j == i
  {
    var b := Blocks(c, s)[i];
    assert b in c.owned[s];
    forall t, j | t in c.owned && 0 <= j < |c.owned[t]| && c.owned[t][j] == b ensures t == s && j == i {
      if t != s { SoleOwner(c, s, t, b); }
    }
  }

  lemma NewTag(c: Cache, d: Cache, f: Model, who: map<int, Prompt>, s: int, i: nat, h: Hash)
    requires TagsHold(c, f) && OwnTags(c, who) && SharedTagged(c) && |c.pool.refs| == |c.pool.tags|
    requires s in who && i < |Blocks(c, s)| && (i + 1) * c.cfg.blockSize <= |who[s].tokens|
    requires Some(h) == Chain(who[s].ns, who[s].tokens, c.cfg.blockSize, i + 1)
    requires 0 <= Blocks(c, s)[i] < |c.pool.tags| && Holds(c, f, Blocks(c, s)[i], h)
    requires forall t, j :: t in c.owned && 0 <= j < |c.owned[t]| && c.owned[t][j] == Blocks(c, s)[i] ==>
      t == s && j == i
    requires d == c.(pool := d.pool) && d.pool.tags == c.pool.tags[Blocks(c, s)[i] := Some(h)]
    requires d.pool.refs == c.pool.refs
    ensures TagsHold(d, f) && OwnTags(d, who) && SharedTagged(d)
  {
    var b := Blocks(c, s)[i];
    hide Chain, Expand;
    assert Holds(d, f, b, h);
    forall x | 0 <= x < |d.pool.tags| && d.pool.tags[x].Some? ensures Holds(d, f, x, d.pool.tags[x].value) {
      if x != b { assert Holds(c, f, x, c.pool.tags[x].value); }
    }
    forall t, j | t in d.owned && 0 <= j < |d.owned[t]| ensures TagFits(d, who, t, j, d.owned[t][j]) {
      assert TagFits(c, who, t, j, c.owned[t][j]);
    }
  }

  lemma BlockIsComputed(c: Cache, f: Model, r: Prompt, s: int, i: nat)
    requires Core(c) && i < |Blocks(c, s)| && (i + 1) * c.cfg.blockSize <= |r.tokens|
    requires Computed(c, f, r, s, (i + 1) * c.cfg.blockSize)
    ensures Chain(r.ns, r.tokens, c.cfg.blockSize, i + 1).Some?
    ensures Holds(c, f, Blocks(c, s)[i], Chain(r.ns, r.tokens, c.cfg.blockSize, i + 1).value)
  {
    var b, h := Blocks(c, s)[i], Chain(r.ns, r.tokens, c.cfg.blockSize, i + 1);
    ChainIs(r.ns, r.tokens, c.cfg.blockSize, i + 1);
    forall l, o | InCell(c, b, l, o)
      ensures c.cells[b][l][o] == f(h.value.ns, Expand(h.value.prev) + UpTo(h.value.tokens, o + 1), l)
    {
      ComputedCell(c, f, r, s, i, l, o);
      ChainPrefix(f, r.ns, r.tokens, c.cfg.blockSize, i, o, l);
    }
  }

  lemma ComputedCell(c: Cache, f: Model, r: Prompt, s: int, i: nat, l: int, o: int)
    requires Core(c) && i < |Blocks(c, s)| && InCell(c, Blocks(c, s)[i], l, o)
    requires Computed(c, f, r, s, (i + 1) * c.cfg.blockSize)
    ensures c.cells[Blocks(c, s)[i]][l][o] == RowAt(f, r, l, i * c.cfg.blockSize + o)
  {
    var p := i * c.cfg.blockSize + o;
    NextBlock(i, c.cfg.blockSize);
    assert Blocks(c, s)[i] in c.owned[s];
    QuotUnique(p, i, o, c.cfg.blockSize);
    ViewIs(c, s, l, p);
  }

  lemma {:induction false} ChainOfPrefix(ns: Namespace, short: seq<int>, long: seq<int>, bs: pos, n: nat)
    requires short <= long && n * bs <= |short|
    ensures Chain(ns, short, bs, n) == Chain(ns, long, bs, n)
  {
    if n > 0 {
      assert (n - 1) * bs + bs == n * bs;
      ChainOfPrefix(ns, short, long, bs, n - 1);
      assert short[(n - 1) * bs..n * bs] == long[(n - 1) * bs..n * bs];
    }
  }

  lemma ComputedLess(c: Cache, f: Model, r: Prompt, s: int, m: int, n: int)
    requires Computed(c, f, r, s, n) && m <= n
    ensures Computed(c, f, r, s, m)
  {
  }

  lemma {:induction false} RegisterUpToSound(c: Cache, f: Model, who: map<int, Prompt>, s: int, tokens: seq<int>,
                                             n: nat)
    requires Sound(c, f, who) && s in who && tokens <= who[s].tokens && c.pool.caching
    requires n * c.cfg.blockSize <= |tokens| && n <= |Blocks(c, s)|
    requires Computed(c, f, who[s], s, n * c.cfg.blockSize)
    ensures Sound(RegisterUpTo(c, s, who[s].ns, tokens, n), f, who)
  {
    hide Register, Chain, Computed;
    if n > 0 {
      var r, bs := who[s], c.cfg.blockSize;
      NextBlock(n - 1, bs);
      ComputedLess(c, f, r, s, (n - 1) * bs, n * bs);
      RegisterUpToSound(c, f, who, s, tokens, n - 1);
      var d := RegisterUpTo(c, s, r.ns, tokens, n - 1);
      RegisteredReads(c, d, f, r, s, n * bs);
      ChainOfPrefix(r.ns, tokens, r.tokens, bs, n);
      RegisterOneSound(d, f, who, s, n - 1);
    }
  }

  lemma RegisteredReads(c: Cache, d: Cache, f: Model, r: Prompt, s: int, n: int)
    requires d == c.(pool := d.pool) && Computed(c, f, r, s, n)
    ensures Computed(d, f, r, s, n)
  {
    forall l, p | 0 <= l < d.cfg.layers && 0 <= p < n ensures View(d, s, l, p) == RowAt(f, r, l, p) {
      assert View(d, s, l, p) == View(c, s, l, p);
    }
  }

  lemma RegisterSound(c: Cache, f: Model, who: map<int, Prompt>, s: int, tokens: seq<int>)
    requires Sound(c, f, who) && s in who && tokens <= who[s].tokens
    requires Computed(c, f, who[s], s, FullBlocks(c, s, tokens) * c.cfg.blockSize)
    ensures Sound(RegisterPrefixBlocks(c, s, who[s].ns, tokens), f, who)
  {
    if c.pool.caching { RegisterUpToSound(c, f, who, s, tokens, FullBlocks(c, s, tokens)); }
  }

  // ---- Reuse ----

  lemma LinkIsTag(c: Cache, r: Prompt, n: nat, j: nat, b: int)
    requires PoolOk(c.pool) && j < n && n * c.cfg.blockSize <= |r.tokens| && Link(c, r.ns, r.tokens, j, n, b)
    ensures (j + 1) * c.cfg.blockSize <= |r.tokens|
    ensures 0 < b < |c.pool.tags| && c.pool.tags[b] == Chain(r.ns, r.tokens, c.cfg.blockSize, j + 1)
  {
    BlockStart(j + 1, n, c.cfg.blockSize);
    ChainIs(r.ns, r.tokens, c.cfg.blockSize, j + 1);
  }

  lemma AdoptedSharedTagged(c: Cache, e: Cache, s: int, r: Prompt, n: nat)
    requires Core(c) && Core(e) && SharedTagged(c) && 0 <= s < c.cfg.maxSeqs && Blocks(c, s) == []
    requires n * c.cfg.blockSize <= |r.tokens| && OnlyAdopts(c, e, s) && Follows(e, s, r.ns, r.tokens, n)
    ensures SharedTagged(e)
  {
    forall b | 0 <= b < |e.pool.refs| == |e.pool.tags| && e.pool.refs[b] > 1 ensures e.pool.tags[b].Some? {
      if b in Blocks(e, s) {
        AdoptedIsTagged(e, s, r, n, b);
      } else {
        NotAdopted(c, e, s, b);
      }
    }
  }

  lemma AdoptedIsTagged(e: Cache, s: int, r: Prompt, n: nat, b: int)
    requires Core(e) && n * e.cfg.blockSize <= |r.tokens| && Follows(e, s, r.ns, r.tokens, n) && b in Blocks(e, s)
    ensures 0 <= b < |e.pool.tags| && e.pool.tags[b].Some?
  {
    hide Link, Chain;
    var j :| 0 <= j < n && Blocks(e, s)[j] == b;
    assert Link(e, r.ns, r.tokens, j, n, b);
    LinkIsTag(e, r, n, j, b);
    ChainIs(r.ns, r.tokens, e.cfg.blockSize, j + 1) by { BlockStart(j + 1, n, e.cfg.blockSize); }
  }

  lemma NotAdopted(c: Cache, e: Cache, s: int, b: int)
    requires Core(c) && Core(e) && 0 <= s < c.cfg.maxSeqs && Blocks(c, s) == [] && OnlyAdopts(c, e, s)
    requires b !in Blocks(e, s) && 0 < b < |e.pool.refs|
    ensures b < |c.pool.refs| && e.pool.refs[b] == c.pool.refs[b]
  {
    OccChange(c.owned, e.owned, c.cfg.maxSeqs, s, b);
  }

  lemma AdoptedSound(c: Cache, e: Cache, f: Model, who: map<int, Prompt>, s: int, r: Prompt, n: nat)
    requires Sound(c, f, who) && Core(e) && 0 <= s < c.cfg.maxSeqs && Blocks(c, s) == []
    requires n * c.cfg.blockSize <= |r.tokens| && OnlyAdopts(c, e, s) && Follows(e, s, r.ns, r.tokens, n)
    ensures TagsHold(e, f) && OwnTags(e, who[s := r]) && SharedTagged(e)
  {
    AdoptedSharedTagged(c, e, s, r, n);
    forall b | 0 <= b < |e.pool.tags| && e.pool.tags[b].Some? ensures Holds(e, f, b, e.pool.tags[b].value) {
      assert Holds(c, f, b, c.pool.tags[b].value);
      assert forall l, o :: InCell(e, b, l, o) ==> InCell(c, b, l, o);
    }
    forall t, j | t in e.owned && 0 <= j < |e.owned[t]| ensures TagFits(e, who[s := r], t, j, e.owned[t][j]) {
      if t == s {
        assert Link(e, r.ns, r.tokens, j, n, Blocks(e, s)[j]);
        LinkIsTag(e, r, n, j, Blocks(e, s)[j]);
      } else {
        assert TagFits(c, who, t, j, c.owned[t][j]);
      }
    }
  }

  // Reuse gives the sequence the rows it would have computed itself.
  lemma ReuseSound(c: Cache, f: Model, who: map<int, Prompt>, s: int, r: Prompt) returns (n: nat)
    requires Sound(c, f, who) && 0 <= s < c.cfg.maxSeqs && s !in c.swap.out && Blocks(c, s) == []
    requires Quot(|r.tokens|, c.cfg.blockSize) <= c.cfg.maxBlocks
    ensures var (d, reused) := TryReusePrefix(c, s, r.ns, r.tokens);
      && reused == n * c.cfg.blockSize <= |r.tokens| && |Blocks(d, s)| == n
      && Sound(d, f, who[s := r]) && Computed(d, f, r, s, reused) && d.cfg == c.cfg && d.swap == c.swap
  {
    hide Adopt, Core, LruOk, SwapOk;
    n := TryReusePrefixStep(c, s, r.ns, r.tokens);
    var d := TryReusePrefix(c, s, r.ns, r.tokens).0;
    if !c.pool.caching {
      forall t, j | t in d.owned && 0 <= j < |d.owned[t]| ensures TagFits(d, who[s := r], t, j, d.owned[t][j]) {}
    } else {
      assert Follows(c, s, r.ns, r.tokens, 0);
      ReuseFromStep(c, s, r.ns, r.tokens, 0);
      var (e, m) := ReuseFrom(c, s, r.ns, r.tokens, 0);
      AdoptedSound(c, e, f, who, s, r, m);
      TagsAlone(e, d, f, who[s := r]);
    }
    ReusedIsComputed(c, d, f, who, s, r, n);
  }

  lemma TagsAlone(c: Cache, d: Cache, f: Model, who: map<int, Prompt>)
    requires TagsHold(c, f) && OwnTags(c, who) && SharedTagged(c)
    requires d.cfg == c.cfg && d.pool == c.pool && d.cells == c.cells && d.owned == c.owned
    ensures TagsHold(d, f) && OwnTags(d, who) && SharedTagged(d)
  {
    forall b | 0 <= b < |d.pool.tags| && d.pool.tags[b].Some? ensures Holds(d, f, b, d.pool.tags[b].value) {
      assert Holds(c, f, b, c.pool.tags[b].value);
      assert forall l, o :: InCell(d, b, l, o) ==> InCell(c, b, l, o);
    }
    forall t, j | t in d.owned && 0 <= j < |d.owned[t]| ensures TagFits(d, who, t, j, d.owned[t][j]) {
      assert TagFits(c, who, t, j, c.owned[t][j]);
    }
  }

  lemma ReusedIsComputed(c: Cache, d: Cache, f: Model, who: map<int, Prompt>, s: int, r: Prompt, n: nat)
    requires Sound(c, f, who) && ReuseMeets(c, d, s, r.ns, r.tokens, n)
    ensures Computed(d, f, r, s, n * c.cfg.blockSize)
  {
    forall l, p | 0 <= l < d.cfg.layers && 0 <= p < n * c.cfg.blockSize ensures View(d, s, l, p) == RowAt(f, r, l, p) {
      ReusedRow(c, f, who, s, r, n, l, p, View(d, s, l, p));
    }
  }

  lemma InheritedRow(c: Cache, f: Model, who: map<int, Prompt>, r: Prompt, i: nat, b: int, l: int, o: nat)
    requires Sound(c, f, who) && (i + 1) * c.cfg.blockSize <= |r.tokens| && InCell(c, b, l, o)
    requires Lookup(c.pool, Chain(r.ns, r.tokens, c.cfg.blockSize, i + 1).value) == Some(b)
    ensures c.cells[b][l][o] == RowAt(f, r, l, i * c.cfg.blockSize + o)
  {
    HitsAreCanonical(c, f, who, r, i, b);
  }

  lemma ReusedRow(c: Cache, f: Model, who: map<int, Prompt>, s: int, r: Prompt, n: nat, l: int, p: nat, v: KV)
    requires Sound(c, f, who) && n * c.cfg.blockSize <= |r.tokens|
    requires Inherited(c, s, r.ns, r.tokens, n, l, p, v) && 0 <= l < c.cfg.layers && p < n * c.cfg.blockSize
    ensures v == RowAt(f, r, l, p)
  {
    var bs := c.cfg.blockSize;
    InBlocks(p, n, bs);
    BlockStart(Quot(p, bs) + 1, n, bs);
    var b := Lookup(c.pool, Chain(r.ns, r.tokens, bs, Quot(p, bs) + 1).value);
    InheritedRow(c, f, who, r, Quot(p, bs), b.value, l, Rem(p, bs));
    Decompose(p, bs);
  }

  // ---- Computing positions p to n - 1 of a prompt, layer by layer ----

  ghost function WriteSpan(c: Cache, f: Model, r: Prompt, s: int, l: int, p: nat, n: nat): Outcome
    decreases n - p
  {
    if p >= n then Done(c)
    else
      match WriteKv(c, l, s, p, RowAt(f, r, l, p))
      case Done(d) => WriteSpan(d, f, r, s, l, p + 1, n)
      case Failed(d) => Failed(d)
      case Hangs => Hangs
  }

  ghost function WriteLayers(c: Cache, f: Model, r: Prompt, s: int, layers: nat, p: nat, n: nat): Outcome {
    if layers == 0 then Done(c)
    else
      match WriteLayers(c, f, r, s, layers - 1, p, n)
      case Done(d) => WriteSpan(d, f, r, s, layers - 1, p, n)
      case Failed(d) => Failed(d)
      case Hangs => Hangs
  }

  // The first m blocks may be shared, the others are the sequence's own, and
  // the blocks reach up to position q.
  ghost predicate TailReady(c: Cache, f: Model, who: map<int, Prompt>, s: int, m: nat, q: nat) {
    && Sound(c, f, who) && s in who && 0 <= s < c.cfg.maxSeqs && s !in c.swap.out
    && |who[s].tokens| <= c.cfg.maxBlocks * c.cfg.blockSize
    && (forall j :: m <= j < |Blocks(c, s)| ==> Private(c, s, j))
    && m <= |Blocks(c, s)| && q <= |Blocks(c, s)| * c.cfg.blockSize
  }

  lemma TailMayWrite(c: Cache, f: Model, who: map<int, Prompt>, s: int, m: nat, l: int, p: nat)
    requires TailReady(c, f, who, s, m, p) && m * c.cfg.blockSize <= p < |who[s].tokens| && 0 <= l < c.cfg.layers
    ensures WriteOk(c, l, s, p)
  {
    BlockBounds(p, |Blocks(c, s)|, m, c.cfg.blockSize);
    InBlocks(p, c.cfg.maxBlocks, c.cfg.blockSize);
    if Quot(p, c.cfg.blockSize) < |Blocks(c, s)| { assert Private(c, s, Quot(p, c.cfg.blockSize)); }
  }

  lemma TailFacts(c: Cache, f: Model, who: map<int, Prompt>, s: int, m: nat, q: nat)
    requires TailReady(c, f, who, s, m, q)
    ensures Sound(c, f, who) && s in who
  {
  }

  lemma TailStep(c: Cache, f: Model, who: map<int, Prompt>, s: int, m: nat, q: nat, l: int, p: nat)
    requires TailReady(c, f, who, s, m, q) && TailReady(c, f, who, s, m, p)
    requires m * c.cfg.blockSize <= p < |who[s].tokens| && 0 <= l < c.cfg.layers
    ensures var r := WriteKv(c, l, s, p, RowAt(f, who[s], l, p));
      r.Done? ==> TailReady(r.c, f, who, s, m, q) && TailReady(r.c, f, who, s, m, p + 1)
                  && r.c.cfg == c.cfg && PointUpdate(c, r.c, s, l, p, RowAt(f, who[s], l, p))
  {
    hide WriteKv, WriteBlock, Allocate, TailReady, Inv, PointUpdate;
    hide ListsKept, TagsHold, OwnTags, SharedTagged, Quot, WriteOk;
    TailFacts(c, f, who, s, m, p);
    var v := RowAt(f, who[s], l, p);
    TailMayWrite(c, f, who, s, m, l, p);
    WriteKvStep(c, l, s, p, v);
    WriteKvSound(c, f, who, l, s, p, v);
    if WriteKv(c, l, s, p, v).Done? {
      WriteKvLists(c, l, s, p, v);
      TailAfter(c, WriteKv(c, l, s, p, v).c, f, who, s, m, q, p);
    }
  }

  lemma TailAfter(c: Cache, d: Cache, f: Model, who: map<int, Prompt>, s: int, m: nat, q: nat, p: nat)
    requires TailReady(c, f, who, s, m, q) && TailReady(c, f, who, s, m, p) && m * c.cfg.blockSize <= p
    requires Sound(d, f, who) && d.cfg == c.cfg && d.swap == c.swap && ListsKept(c, d, s, Quot(p, c.cfg.blockSize))
    requires |Blocks(d, s)| == Max(|Blocks(c, s)|, Quot(p, c.cfg.blockSize) + 1)
    ensures TailReady(d, f, who, s, m, q) && TailReady(d, f, who, s, m, p + 1)
  {
    hide Sound, Core, ListsKept, Private;
    var bs, i := c.cfg.blockSize, Quot(p, c.cfg.blockSize);
    BlockBounds(p, |Blocks(c, s)|, m, bs);
    BlockStart(|Blocks(c, s)|, |Blocks(d, s)|, bs);
    BlockStart(i + 1, |Blocks(d, s)|, bs);
    SoundCore(c, f, who);
    SoundCore(d, f, who);
    PrivateOnes(c, d, s, m, i);
  }

  lemma SoundCore(c: Cache, f: Model, who: map<int, Prompt>)
    requires Sound(c, f, who)
    ensures Core(c)
  {
  }

  lemma PrivateOnes(c: Cache, d: Cache, s: int, m: nat, i: nat)
    requires Core(c) && Core(d) && d.cfg == c.cfg && ListsKept(c, d, s, i)
    requires |Blocks(d, s)| == Max(|Blocks(c, s)|, i + 1) && |Blocks(c, s)| >= i
    requires forall j :: m <= j < |Blocks(c, s)| ==> Private(c, s, j)
    ensures forall j :: m <= j < |Blocks(d, s)| ==> Private(d, s, j)
  {
    hide Core, Private;
    forall j | m <= j < |Blocks(d, s)| ensures Private(d, s, j) {
      if j != i { PrivateStays(c, d, s, i, j); }
    }
  }

  // What a span of writes shows: the computed rows, and nothing else moved.
  ghost predicate SpanShows(c: Cache, d: Cache, f: Model, r: Prompt, s: int, k: nat, l: nat, p: nat, n: nat) {
    forall m, q :: View(d, s, m, q) ==
      if k <= m < l && p <= q < n then RowAt(f, r, m, q) else View(c, s, m, q)
  }

  lemma TailHas(c: Cache, f: Model, who: map<int, Prompt>, s: int, m: nat, q: nat)
    requires TailReady(c, f, who, s, m, q)
    ensures s in who && (q > 0 ==> s in c.owned)
  {
  }

  lemma NothingShown(c: Cache, f: Model, r: Prompt, s: int, l: nat, p: nat, n: nat)
    requires n <= p
    ensures SpanShows(c, c, f, r, s, l, l + 1, p, n)
  {
  }

  lemma OneShownMore(c: Cache, w: Cache, d: Cache, f: Model, r: Prompt, s: int, l: nat, p: nat, n: nat)
    requires p < n && PointUpdate(c, w, s, l, p, RowAt(f, r, l, p)) && s in w.owned
    requires SpanShows(w, d, f, r, s, l, l + 1, p + 1, n)
    ensures SpanShows(c, d, f, r, s, l, l + 1, p, n)
  {
    hide View;
    forall m, q
      ensures View(d, s, m, q) == if l <= m < l + 1 && p <= q < n then RowAt(f, r, m, q) else View(c, s, m, q)
    {
      assert View(w, s, m, q) == if m == l && q == p then RowAt(f, r, l, p) else View(c, s, m, q);
    }
  }

  lemma {:induction false} SpanStep(c: Cache, f: Model, who: map<int, Prompt>, s: int, m: nat, q: nat, l: nat, p: nat,
                                    n: nat)
    requires TailReady(c, f, who, s, m, q) && TailReady(c, f, who, s, m, p)
    requires m * c.cfg.blockSize <= p <= n <= |who[s].tokens| && l < c.cfg.layers
    ensures var r := WriteSpan(c, f, who[s], s, l, p, n);
      r.Done? ==> TailReady(r.c, f, who, s, m, q) && TailReady(r.c, f, who, s, m, n)
                  && r.c.cfg == c.cfg && SpanShows(c, r.c, f, who[s], s, l, l + 1, p, n)
    decreases n - p
  {
    hide TailReady, SpanShows, PointUpdate, WriteKv, View;
    TailHas(c, f, who, s, m, q);
    if p < n {
      TailStep(c, f, who, s, m, q, l, p);
      var w := WriteKv(c, l, s, p, RowAt(f, who[s], l, p));
      if w.Done? {
        TailHas(w.c, f, who, s, m, p + 1);
        SpanStep(w.c, f, who, s, m, q, l, p + 1, n);
        var r := WriteSpan(w.c, f, who[s], s, l, p + 1, n);
        if r.Done? { OneShownMore(c, w.c, r.c, f, who[s], s, l, p, n); }
      }
    } else {
      NothingShown(c, f, who[s], s, l, p, n);
    }
  }

  lemma NextLayer(c: Cache, d: Cache, e: Cache, f: Model, r: Prompt, s: int, l: nat, p: nat, n: nat)
    requires SpanShows(c, d, f, r, s, 0, l, p, n) && SpanShows(d, e, f, r, s, l, l + 1, p, n)
    ensures SpanShows(c, e, f, r, s, 0, l + 1, p, n)
  {
    forall m, q
      ensures View(e, s, m, q) == if 0 <= m < l + 1 && p <= q < n then RowAt(f, r, m, q) else View(c, s, m, q)
    {
      assert View(d, s, m, q) == if 0 <= m < l && p <= q < n then RowAt(f, r, m, q) else View(c, s, m, q);
    }
  }

  ghost predicate LayersMeet(c: Cache, o: Outcome, f: Model, who: map<int, Prompt>, s: int, m: nat, l: nat, p: nat,
                             n: nat)
    requires s in who
  {
    o.Done? ==>
      && TailReady(o.c, f, who, s, m, p) && o.c.cfg == c.cfg
      && SpanShows(c, o.c, f, who[s], s, 0, l, p, n)
  }

  lemma NoLayers(c: Cache, f: Model, r: Prompt, s: int, p: nat, n: nat)
    ensures SpanShows(c, c, f, r, s, 0, 0, p, n)
  {
  }

  lemma {:induction false} LayersStep(c: Cache, f: Model, who: map<int, Prompt>, s: int, m: nat, layers: nat, p: nat,
                                      n: nat)
    requires TailReady(c, f, who, s, m, p)
    requires m * c.cfg.blockSize <= p <= n <= |who[s].tokens| && layers <= c.cfg.layers
    ensures LayersMeet(c, WriteLayers(c, f, who[s], s, layers, p, n), f, who, s, m, layers, p, n)
  {
    hide TailReady, SpanShows, WriteSpan;
    TailHas(c, f, who, s, m, p);
    if layers == 0 {
      NoLayers(c, f, who[s], s, p, n);
    } else {
      var l := layers - 1;
      LayersStep(c, f, who, s, m, l, p, n);
      var w := WriteLayers(c, f, who[s], s, l, p, n);
      if w.Done? {
        SpanStep(w.c, f, who, s, m, p, l, p, n);
        var x := WriteSpan(w.c, f, who[s], s, l, p, n);
        if x.Done? { NextLayer(c, w.c, x.c, f, who[s], s, l, p, n); }
      }
    }
  }

  // ---- The theorem ----

  // A fresh slot for a prompt that fits its row of the block table.
  ghost predicate FreshSlot(c: Cache, s: int, r: Prompt) {
    && 0 <= s < c.cfg.maxSeqs && s !in c.swap.out && Blocks(c, s) == []
    && |r.tokens| <= c.cfg.maxBlocks * c.cfg.blockSize
  }

  ghost function ComputeWithReuse(c: Cache, f: Model, s: int, r: Prompt): Outcome {
    var (d, reused) := TryReusePrefix(c, s, r.ns, r.tokens);
    WriteLayers(d, f, r, s, c.cfg.layers, reused, |r.tokens|)
  }

  ghost function ComputeAll(c: Cache, f: Model, s: int, r: Prompt): Outcome {
    WriteLayers(c, f, r, s, c.cfg.layers, 0, |r.tokens|)
  }

  lemma WithReuseComputes(c: Cache, f: Model, who: map<int, Prompt>, s: int, r: Prompt)
    requires Sound(c, f, who) && FreshSlot(c, s, r)
    ensures ComputeWithReuse(c, f, s, r).Done? ==>
      Sound(ComputeWithReuse(c, f, s, r).c, f, who[s := r]) && ComputeWithReuse(c, f, s, r).c.cfg == c.cfg
      && Computed(ComputeWithReuse(c, f, s, r).c, f, r, s, |r.tokens|)
  {
    var bs := c.cfg.blockSize;
    DivAtMost(|r.tokens|, c.cfg.maxBlocks, bs);
    var n := ReuseSound(c, f, who, s, r);
    var (d, reused) := TryReusePrefix(c, s, r.ns, r.tokens);
    LayersStep(d, f, who[s := r], s, n, c.cfg.layers, reused, |r.tokens|);
  }

  lemma DivAtMost(x: nat, n: nat, bs: pos)
    requires x <= n * bs
    ensures Quot(x, bs) <= n
  {
    BlockBounds(x, n, 0, bs);
  }

  lemma AllComputes(c: Cache, f: Model, who: map<int, Prompt>, s: int, r: Prompt)
    requires Sound(c, f, who) && FreshSlot(c, s, r)
    ensures ComputeAll(c, f, s, r).Done? ==>
      Sound(ComputeAll(c, f, s, r).c, f, who[s := r]) && ComputeAll(c, f, s, r).c.cfg == c.cfg
      && Computed(ComputeAll(c, f, s, r).c, f, r, s, |r.tokens|)
  {
    forall t, j | t in c.owned && 0 <= j < |c.owned[t]| ensures TagFits(c, who[s := r], t, j, c.owned[t][j]) {
      assert TagFits(c, who, t, j, c.owned[t][j]);
    }
    LayersStep(c, f, who[s := r], s, 0, c.cfg.layers, 0, |r.tokens|);
  }

  // Reusing a prefix and computing only the tail yields the same KV as
  // computing the whole prompt.
  lemma ReuseIsTransparent(c: Cache, f: Model, who: map<int, Prompt>, s: int, r: Prompt)
    requires Sound(c, f, who) && FreshSlot(c, s, r)
    requires ComputeWithReuse(c, f, s, r).Done? && ComputeAll(c, f, s, r).Done?
    ensures forall l, p :: 0 <= l < c.cfg.layers && 0 <= p < |r.tokens| ==>
      View(ComputeWithReuse(c, f, s, r).c, s, l, p) == View(ComputeAll(c, f, s, r).c, s, l, p)
  {
    WithReuseComputes(c, f, who, s, r);
    AllComputes(c, f, who, s, r);
  }
}
