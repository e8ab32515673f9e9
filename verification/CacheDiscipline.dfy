// Prefix-cache transparency over whole runs: as long as every write is the
// row the model computes and only computed blocks are registered, every
// entry of the prefix cache stays canonical.
module CacheDiscipline {
  import opened Prelude
  import opened Hashing
  import opened PoolSpec
  import opened CacheSpec
  import opened CacheInv
  import opened Lru
  import opened CacheView
  import opened CacheSteps
  import opened CacheBatch
  import opened PrefixCache
  import opened Transparency
  import opened Swapping
  import opened CacheRun
  import GraphMode
  import opened DecodeStores

  // ---- Swapping and modes ----

  lemma SwapOutSound(c: Cache, f: Model, who: map<int, Prompt>, s: int)
    requires Sound(c, f, who) && s !in c.swap.out
    ensures Sound(SwapOut(c, s), f, who)
  {
    SwapOutStep(c, s);
    if CanSwapOut(c, s) {
      var d := SwapOut(c, s);
      forall t, j | t in d.owned && 0 <= j < |d.owned[t]| ensures ListedBefore(c, d, t, j, d.owned[t][j]) {}
      SoundKept(c, d, f, who);
    }
  }

  lemma SwapInTags(c: Cache, s: int)
    requires Inv(c) && CanSwapIn(c, s)
    ensures TagsKept(c, SwapIn(c, s))
  {
    assert Shape(c);
    TakeKept(c, |c.swap.out[s].blocks|);
    RestoredCells(c, s);
    hide Core, LruOk, SwapOk, Take, CopyBlocks, SetRow;
  }

  lemma SwapInKept(c: Cache, s: int)
    requires Inv(c) && CanSwapIn(c, s)
    ensures TagsKept(c, SwapIn(c, s)) && ListsFrom(c, SwapIn(c, s))
  {
    hide Core, LruOk, SwapOk, Take, CopyBlocks, SetRow, TagsKept;
    var d, n := SwapIn(c, s), |c.swap.out[s].blocks|;
    SwapInTags(c, s);
    TakeKept(c, n);
    forall t, j | t in d.owned && 0 <= j < |d.owned[t]| ensures ListedBefore(c, d, t, j, d.owned[t][j]) {
      if t == s { assert d.owned[s][j] in c.pool.free[..n]; }
    }
  }

  lemma SwapInSound(c: Cache, f: Model, who: map<int, Prompt>, s: int)
    requires Sound(c, f, who)
    ensures Sound(SwapIn(c, s), f, who)
  {
    SwapInStep(c, s);
    if CanSwapIn(c, s) {
      SwapInKept(c, s);
      SoundKept(c, SwapIn(c, s), f, who);
    }
  }

  lemma GraphOnSound(c: Cache, f: Model, who: map<int, Prompt>)
    requires Sound(c, f, who) && InitGraphBuffers(c).Some?
    ensures Sound(InitGraphBuffers(c).value, f, who)
  {
    GraphOnStep(c);
    var d := InitGraphBuffers(c).value;
    if c.dummy.None? {
      TakeKept(c, 1);
      assert c.pool.free[..1] == [c.pool.free[0]];
      forall t, j | t in d.owned && 0 <= j < |d.owned[t]| ensures ListedBefore(c, d, t, j, d.owned[t][j]) {}
      SoundKept(c, d, f, who);
    }
  }

  // Steps that leave tags, tensors and lists alone.
  lemma AloneSound(c: Cache, d: Cache, f: Model, who: map<int, Prompt>)
    requires Sound(c, f, who) && Inv(d) && d.cfg == c.cfg && d.cells == c.cells && d.owned == c.owned
    requires d.pool.tags == c.pool.tags && d.pool.refs == c.pool.refs
    ensures Sound(d, f, who)
  {
    forall t, j | t in d.owned && 0 <= j < |d.owned[t]| ensures ListedBefore(c, d, t, j, d.owned[t][j]) {}
    SoundKept(c, d, f, who);
  }

  // ---- Canonical batches ----

  ghost predicate CanonicalBatch(f: Model, who: map<int, Prompt>, s: int, l: int, positions: seq<nat>, rows: seq<KV>,
                                 k: nat)
    requires k <= |positions| == |rows|
  {
    forall j :: 0 <= j < k ==> Canonical(f, who, s, l, positions[j], rows[j])
  }

  lemma {:induction false} CowEachSound(c: Cache, f: Model, who: map<int, Prompt>, s: int, indices: seq<nat>)
    requires Sound(c, f, who) && forall i :: i in indices ==> i < |Blocks(c, s)|
    ensures Sound(CowEach(c, s, indices), f, who)
    decreases |indices|
  {
    if indices != [] {
      hide CowIfShared, Sound;
      var i := indices[0];
      assert i in indices && indices == [i] + indices[1..];
      assert forall j :: j in indices[1..] ==> j in indices;
      FirstCowSound(c, f, who, s, i, indices[1..]);
      CowEachSound(CowIfShared(c, s, i, Blocks(c, s)[i]).0, f, who, s, indices[1..]);
    }
  }

  lemma FirstCowSound(c: Cache, f: Model, who: map<int, Prompt>, s: int, i: nat, rest: seq<nat>)
    requires Sound(c, f, who) && i < |Blocks(c, s)|
    ensures var d := CowIfShared(c, s, i, Blocks(c, s)[i]).0;
      && Sound(d, f, who) && |Blocks(d, s)| == |Blocks(c, s)| && CowEach(c, s, [i] + rest) == CowEach(d, s, rest)
  {
    hide CowIfShared, TagsHold, OwnTags, SharedTagged, CowEach;
    CowIsMapped(c, s, i);
    CowSound(c, f, who, s, i);
    CowKeepsOthers(c, s, i);
    CowEachUnfolds(c, s, i, rest);
  }

  lemma StoreOneSound(c: Cache, f: Model, who: map<int, Prompt>, l: int, s: int, p: nat, v: KV)
    requires Sound(c, f, who) && 0 <= l < c.cfg.layers && Quot(p, c.cfg.blockSize) < |Blocks(c, s)|
    requires Canonical(f, who, s, l, p, v)
    ensures var b := TableEntry(c, s, Quot(p, c.cfg.blockSize));
      b == BlockAt(c, s, p) && b > 0 && Sound(c.(cells := Put(c.cells, b, l, Rem(p, c.cfg.blockSize), v)), f, who)
  {
    var i := Quot(p, c.cfg.blockSize);
    assert Blocks(c, s)[i] in c.owned[s];
    OwnedIsReferenced(c, s, Blocks(c, s)[i]);
    TableIs(c, s, i);
    var b := BlockAt(c, s, p);
    StoreKept(c, f, who, l, s, p, v);
    StoreCore(c, l, s, p, b, v);
    var e := Store(c, l, s, p, b, v);
    var d := c.(cells := e.cells);
    CoreBeside(e, d);
    SideFrame(c, d);
    forall t, j | t in d.owned && 0 <= j < |d.owned[t]| ensures ListedBefore(c, d, t, j, d.owned[t][j]) {}
    SoundKept(c, d, f, who);
  }

  lemma {:induction false} StoreCellsSound(c: Cache, f: Model, who: map<int, Prompt>, l: int, s: int,
                                           positions: seq<nat>, rows: seq<KV>, k: nat)
    requires Sound(c, f, who) && k <= |positions| == |rows| && 0 <= l < c.cfg.layers
    requires forall j :: 0 <= j < k ==> Quot(positions[j], c.cfg.blockSize) < |Blocks(c, s)|
    requires CanonicalBatch(f, who, s, l, positions, rows, k)
    ensures Sound(c.(cells := StoreCells(c, l, s, positions, rows, k)), f, who)
  {
    hide Sound, Put, Canonical;
    if k == 0 {
      assert c.(cells := StoreCells(c, l, s, positions, rows, 0)) == c;
    } else {
      var e := c.(cells := StoreCells(c, l, s, positions, rows, k - 1));
      StoreCellsSound(c, f, who, l, s, positions, rows, k - 1);
      StoreOneSound(e, f, who, l, s, positions[k - 1], rows[k - 1]);
      assert TableEntry(e, s, Quot(positions[k - 1], c.cfg.blockSize))
          == TableEntry(c, s, Quot(positions[k - 1], c.cfg.blockSize));
    }
  }

  lemma BatchBlocksSound(c: Cache, f: Model, who: map<int, Prompt>, l: int, s: int, positions: seq<nat>, rows: seq<KV>)
    requires Sound(c, f, who) && |positions| == |rows| && 0 <= l < c.cfg.layers && s in c.owned
    requires var indices := BlockIndices(positions, c.cfg.blockSize);
      SharedCount(c, s, indices) <= |c.pool.free| && forall i :: i in indices ==> i < |Blocks(c, s)|
    requires CanonicalBatch(f, who, s, l, positions, rows, |positions|)
    ensures Sound(WriteBatchBlocks(c, l, s, positions, rows), f, who)
  {
    var indices := BlockIndices(positions, c.cfg.blockSize);
    BlockIndicesAre(positions, c.cfg.blockSize);
    CowEachStep(c, s, indices);
    CowEachSound(c, f, who, s, indices);
    var e := CowEach(c, s, indices);
    forall j | 0 <= j < |positions| ensures Quot(positions[j], e.cfg.blockSize) < |Blocks(e, s)| {
      assert Quot(positions[j], c.cfg.blockSize) in indices;
    }
    StoreCellsSound(e, f, who, l, s, positions, rows, |positions|);
    WriteBatchBlocksStep(c, l, s, positions, rows);
    hide CowEach, StoreCells, Core;
    AloneSound(e.(cells := StoreCells(e, l, s, positions, rows, |positions|)),
               WriteBatchBlocks(c, l, s, positions, rows), f, who)
      by { TouchOnly(StoreBatch(e, l, s, positions, rows), s); }
  }

  lemma WriteKvBatchSound(c: Cache, f: Model, who: map<int, Prompt>, l: int, s: int, positions: seq<nat>, rows: seq<KV>)
    requires Sound(c, f, who) && |positions| == |rows| && BatchOk(c, l, s, positions)
    requires CanonicalBatch(f, who, s, l, positions, rows, |positions|)
    ensures !WriteKvBatch(c, l, s, positions, rows).Hangs? ==>
      Sound(WriteKvBatch(c, l, s, positions, rows).c, f, who)
  {
    if positions != [] {
      var indices := BlockIndices(positions, c.cfg.blockSize);
      BlockIndicesAre(positions, c.cfg.blockSize);
      var missing := Missing(c, s, indices);
      hide Sound, CanonicalBatch, WriteBatchBlocks, Allocate;
      if missing == 0 {
        assert Quot(positions[0], c.cfg.blockSize) in indices;
        BatchBlocksSound(c, f, who, l, s, positions, rows);
      } else {
        AllocateGives(c, f, who, s, missing);
        var a := Allocate(c, s, missing);
        if a.Granted? {
          BatchBlocksSound(a.c, f, who, l, s, positions, rows);
        }
      }
    }
  }

  lemma AllocateGives(c: Cache, f: Model, who: map<int, Prompt>, s: int, n: nat)
    requires Sound(c, f, who) && MayGrow(c, s, n)
    ensures !Allocate(c, s, n).NeverReturns? ==> Sound(Allocate(c, s, n).c, f, who)
    ensures Allocate(c, s, n).Granted? ==>
      var d := Allocate(c, s, n).c; s in d.owned && d.cfg == c.cfg && |Blocks(d, s)| == |Blocks(c, s)| + n
  {
    AllocateStep(c, s, n);
    AllocateSound(c, f, who, s, n);
  }

  // ---- Decoding ----

  ghost predicate CanonicalSingles(f: Model, who: map<int, Prompt>, xs: seq<Single>) {
    forall i :: 0 <= i < |xs| ==> Canonical(f, who, xs[i].s, xs[i].l, xs[i].p, xs[i].v)
  }

  lemma {:induction false} StoreAllSound(c: Cache, f: Model, who: map<int, Prompt>, xs: seq<Single>)
    requires Sound(c, f, who) && AllOwn(c, xs) && CanonicalSingles(f, who, xs)
    ensures Sound(StoreAll(c, xs), f, who)
  {
    if xs != [] {
      hide Sound, Canonical, Store;
      var n := |xs| - 1;
      var d, x := StoreAll(c, xs[..n]), xs[n];
      StoreAllSound(c, f, who, xs[..n]);
      OwnStays(c, d, xs);
      assert Own(d, x) && Canonical(f, who, x.s, x.l, x.p, x.v);
      SingleSound(d, f, who, x);
    }
  }

  lemma SingleSound(c: Cache, f: Model, who: map<int, Prompt>, x: Single)
    requires Sound(c, f, who) && Own(c, x) && Canonical(f, who, x.s, x.l, x.p, x.v)
    ensures Sound(StoreOne(c, x), f, who)
  {
    var b := TableEntry(c, x.s, Quot(x.p, c.cfg.blockSize));
    StoreOneSound(c, f, who, x.l, x.s, x.p, x.v);
    var e := c.(cells := Put(c.cells, b, x.l, Rem(x.p, c.cfg.blockSize), x.v));
    StoreStep(c, x.l, x.s, x.p, x.v);
    hide Put, TagsHold, OwnTags, SharedTagged, Inv;
    AloneSound(e, StoreOne(c, x), f, who);
  }

  lemma DecodeOpSound(c: Cache, f: Model, who: map<int, Prompt>, l: int, ids: seq<int>, positions: seq<nat>,
                      rows: seq<KV>)
    requires Sound(c, f, who) && Allowed(c, Decode(l, ids, positions, rows))
    requires Disciplined(c, f, who, Decode(l, ids, positions, rows))
    ensures |ids| == |positions| == |rows| && Sound(GraphMode.EagerDecode(c, l, ids, positions, rows), f, who)
  {
    DecodeIsStores(c, l, ids, positions, rows);
    ReadyOwns(c, l, ids, positions, rows);
    StoreAllSound(c, f, who, Singles(l, ids, positions, rows));
  }

  lemma GraphStepSound(c: Cache, f: Model, who: map<int, Prompt>, g: GraphMode.Graph, ids: seq<int>,
                       calls: seq<GraphMode.Call>)
    requires Sound(c, f, who) && GraphMode.StepOk(c, g, ids, calls) && Disciplined(c, f, who, GraphStep(g, ids, calls))
    ensures Sound(GraphMode.GraphStep(c, g, ids, calls).0, f, who)
  {
    hide GraphMode.GraphStep, GraphMode.PassReady, GraphMode.CallsOk, Inv, TagsHold, OwnTags, SharedTagged;
    GraphStepIsStores(c, g, ids, calls);
    StoreAllSound(c, f, who, PassSingles(ids, calls));
    DummySound(StoreAll(c, PassSingles(ids, calls)), GraphMode.GraphStep(c, g, ids, calls).0, f, who);
  }

  // The dummy block is never published.
  lemma DummySound(e: Cache, d: Cache, f: Model, who: map<int, Prompt>)
    requires Sound(e, f, who) && Inv(d) && e.dummy.Some? && d == e.(cells := d.cells)
    requires GraphMode.AgreeBut(d.cells, e.cells, e.dummy.value)
    ensures Sound(d, f, who)
  {
    forall t, j | t in d.owned && 0 <= j < |d.owned[t]| ensures ListedBefore(e, d, t, j, d.owned[t][j]) {}
    SoundKept(e, d, f, who);
  }

  // ---- Runs ----

  // A prompt may grow by the tokens generated so far.
  ghost predicate Grows(who: map<int, Prompt>, next: map<int, Prompt>) {
    forall s :: s in who ==> s in next && next[s].ns == who[s].ns && who[s].tokens <= next[s].tokens
  }

  lemma SoundGrows(c: Cache, f: Model, who: map<int, Prompt>, next: map<int, Prompt>)
    requires Sound(c, f, who) && Grows(who, next)
    ensures Sound(c, f, next)
  {
    forall s, j | s in c.owned && 0 <= j < |c.owned[s]| ensures TagFits(c, next, s, j, c.owned[s][j]) {
      assert TagFits(c, who, s, j, c.owned[s][j]);
      if s in who && (j + 1) * c.cfg.blockSize <= |who[s].tokens| {
        ChainOfPrefix(who[s].ns, who[s].tokens, next[s].tokens, c.cfg.blockSize, j + 1);
      }
    }
  }

  // Writes store what the model computes; only computed blocks are published.
  ghost predicate Disciplined(c: Cache, f: Model, who: map<int, Prompt>, op: Op) {
    match op
    case Write(l, s, p, v) => Canonical(f, who, s, l, p, v)
    case WriteBatch(l, s, positions, rows) =>
      |positions| == |rows| && CanonicalBatch(f, who, s, l, positions, rows, |positions|)
    case RegisterPrefix(s, ns, tokens) =>
      c.pool.caching && Blocks(c, s) != [] ==>
        s in who && ns == who[s].ns && tokens <= who[s].tokens
        && Computed(c, f, who[s], s, FullBlocks(c, s, tokens) * c.cfg.blockSize)
    case Decode(l, ids, positions, rows) =>
      |ids| == |positions| == |rows| && CanonicalSingles(f, who, Singles(l, ids, positions, rows))
    case GraphStep(g, ids, calls) =>
      (forall call :: call in calls ==> |call.positions| == |call.rows| == |ids|)
      && CanonicalSingles(f, who, PassSingles(ids, calls))
    case _ => true
  }

  ghost function WhoAfter(who: map<int, Prompt>, op: Op): map<int, Prompt> {
    if op.Reuse? then who[op.s := Prompt(op.ns, op.tokens)] else who
  }

  lemma RegisterOpSound(c: Cache, f: Model, who: map<int, Prompt>, s: int, ns: Namespace, tokens: seq<int>)
    requires Sound(c, f, who) && Disciplined(c, f, who, RegisterPrefix(s, ns, tokens))
    ensures Sound(RegisterPrefixBlocks(c, s, ns, tokens), f, who)
  {
    if c.pool.caching {
      if Blocks(c, s) == [] {
        assert FullBlocks(c, s, tokens) == 0;
      } else {
        RegisterSound(c, f, who, s, tokens);
      }
    }
  }

  lemma StepSound(c: Cache, f: Model, who: map<int, Prompt>, op: Op)
    requires Sound(c, f, who) && Allowed(c, op) && Apply(c, op).Some? && Disciplined(c, f, who, op)
    ensures Sound(Apply(c, op).value, f, WhoAfter(who, op))
  {
    hide Sound, TagsHold, OwnTags, SharedTagged, Disciplined, FreeSequence;
    hide Allocate, WriteKv, WriteKvBatch, Touch, SwapOut, SwapIn;
    match op
    case Alloc(s, n) => AllocateSound(c, f, who, s, n);
    case Write(l, s, p, v) => WriteOpSound(c, f, who, l, s, p, v);
    case WriteBatch(l, s, positions, rows) => BatchOpSound(c, f, who, l, s, positions, rows);
    case Free(s) => FreeSound(c, f, who, s);
    case Reuse(s, ns, tokens) => var n := ReuseSound(c, f, who, s, Prompt(ns, tokens));
    case RegisterPrefix(s, ns, tokens) => RegisterOpSound(c, f, who, s, ns, tokens);
    case PutAway(s) => SwapOutSound(c, f, who, s);
    case BringBack(s) => SwapInSound(c, f, who, s);
    case GraphOn => GraphOnSound(c, f, who);
    case Decode(l, ids, positions, rows) => DecodeOpSound(c, f, who, l, ids, positions, rows);
    case GraphStep(g, ids, calls) => GraphStepSound(c, f, who, g, ids, calls);
    case _ => ModeSound(c, f, who, op);
  }

  lemma WriteOpSound(c: Cache, f: Model, who: map<int, Prompt>, l: int, s: int, p: nat, v: KV)
    requires Sound(c, f, who) && WriteOk(c, l, s, p) && Disciplined(c, f, who, Write(l, s, p, v))
    ensures !WriteKv(c, l, s, p, v).Hangs? ==> Sound(WriteKv(c, l, s, p, v).c, f, who)
  {
    WriteKvSound(c, f, who, l, s, p, v);
  }

  lemma BatchOpSound(c: Cache, f: Model, who: map<int, Prompt>, l: int, s: int, positions: seq<nat>, rows: seq<KV>)
    requires Sound(c, f, who) && Allowed(c, WriteBatch(l, s, positions, rows))
    requires Disciplined(c, f, who, WriteBatch(l, s, positions, rows))
    ensures !WriteKvBatch(c, l, s, positions, rows).Hangs? ==> Sound(WriteKvBatch(c, l, s, positions, rows).c, f, who)
  {
    WriteKvBatchSound(c, f, who, l, s, positions, rows);
  }

  lemma ModeSound(c: Cache, f: Model, who: map<int, Prompt>, op: Op)
    requires Sound(c, f, who) && Allowed(c, op) && (op.Read? || op.Pin? || op.CachingOn? || op.SwapOn?)
    ensures Apply(c, op).Some? && Sound(Apply(c, op).value, f, who)
  {
    var d := Apply(c, op).value;
    StepKeepsInv(c, op);
    if op.Read? { TouchOnly(c, op.s); }
    AloneSound(c, d, f, who);
  }

  datatype Turn = Turn(who: map<int, Prompt>, op: Op)

  ghost predicate Kept(c: Cache, f: Model, who: map<int, Prompt>, turns: seq<Turn>)
    decreases |turns|
  {
    turns == [] ||
      (var t := turns[0];
       && Grows(who, t.who) && Allowed(c, t.op) && Apply(c, t.op).Some? && Disciplined(c, f, t.who, t.op)
       && Kept(Apply(c, t.op).value, f, WhoAfter(t.who, t.op), turns[1..]))
  }

  ghost function End(c: Cache, f: Model, who: map<int, Prompt>, turns: seq<Turn>): (Cache, map<int, Prompt>)
    requires Kept(c, f, who, turns)
    decreases |turns|
  {
    if turns == [] then (c, who)
    else End(Apply(c, turns[0].op).value, f, WhoAfter(turns[0].who, turns[0].op), turns[1..])
  }

  lemma {:induction false} RunSound(c: Cache, f: Model, who: map<int, Prompt>, turns: seq<Turn>)
    requires Sound(c, f, who) && Kept(c, f, who, turns)
    ensures Sound(End(c, f, who, turns).0, f, End(c, f, who, turns).1)
    decreases |turns|
  {
    if turns != [] {
      hide Sound, Disciplined, Grows;
      var t := turns[0];
      SoundGrows(c, f, who, t.who);
      StepSound(c, f, t.who, t.op);
      RunSound(Apply(c, t.op).value, f, WhoAfter(t.who, t.op), turns[1..]);
    }
  }

  // In every state such a run reaches, a cache hit for a prompt's block holds
  // exactly the rows of that namespace and prefix.
  lemma EntriesStayCanonical(cfg: Config, f: Model, turns: seq<Turn>, r: Prompt, n: nat, b: int)
    requires cfg.numBlocks > 0 && Kept(Init(cfg), f, map[], turns)
    requires (n + 1) * cfg.blockSize <= |r.tokens|
    requires Lookup(End(Init(cfg), f, map[], turns).0.pool, Chain(r.ns, r.tokens, cfg.blockSize, n + 1).value)
          == Some(b)
    ensures var c := End(Init(cfg), f, map[], turns).0;
      && 0 < b < |c.pool.tags| && c.pool.tags[b] == Chain(r.ns, r.tokens, cfg.blockSize, n + 1)
      && forall l, o :: InCell(c, b, l, o) ==> c.cells[b][l][o] == RowAt(f, r, l, n * cfg.blockSize + o)
  {
    hide Inv, Sound, Kept, End, InCell, Lookup, Chain, Init;
    var c0 := Init(cfg);
    InitSound(cfg, f);
    RunSound(c0, f, map[], turns);
    EndConfig(c0, f, map[], turns);
    var (c, who) := End(c0, f, map[], turns);
    HitsAreCanonical(c, f, who, r, n, b);
  }

  lemma InitSound(cfg: Config, f: Model)
    requires cfg.numBlocks > 0
    ensures Inv(Init(cfg)) && Init(cfg).cfg == cfg && Sound(Init(cfg), f, map[])
  {
    InitInv(cfg);
  }

  lemma {:induction false} EndConfig(c: Cache, f: Model, who: map<int, Prompt>, turns: seq<Turn>)
    requires Inv(c) && Kept(c, f, who, turns)
    ensures End(c, f, who, turns).0.cfg == c.cfg
    decreases |turns|
  {
    if turns != [] {
      StepKeepsInv(c, turns[0].op);
      EndConfig(Apply(c, turns[0].op).value, f, WhoAfter(turns[0].who, turns[0].op), turns[1..]);
    }
  }
}
