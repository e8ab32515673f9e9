// Whole runs of the cache: the invariant holds in every reachable state, and
// a swapped-out sequence comes back unchanged whatever happens to the others
// in between.
module CacheRun {
  import opened Prelude
  import opened Hashing
  import opened PoolSpec
  import opened CacheSpec
  import opened CacheInv
  import opened Lru
  import opened CacheView
  import opened CacheSteps
  import opened CacheBatch
  import opened PrefixCache
  import opened Swapping
  import GraphMode
  import opened DecodeStores

  datatype Op =
    | Alloc(s: int, n: nat)
    | Write(l: int, s: int, p: nat, v: KV)
    | WriteBatch(l: int, s: int, positions: seq<nat>, rows: seq<KV>)
    | Read(l: int, s: int, maxLen: Option<nat>)
    | Free(s: int)
    | Reuse(s: int, ns: Namespace, tokens: seq<int>)
    | RegisterPrefix(s: int, ns: Namespace, tokens: seq<int>)
    | PutAway(s: int)
    | BringBack(s: int)
    | Pin(ids: set<int>)
    | CachingOn
    | SwapOn(onCpu: bool)
    | GraphOn
    | Decode(l: int, batch: seq<int>, positions: seq<nat>, rows: seq<KV>)
    | GraphStep(g: GraphMode.Graph, batch: seq<int>, calls: seq<GraphMode.Call>)

  // What the callers of the cache see to.
  ghost predicate Allowed(c: Cache, op: Op) {
    match op
    case Alloc(s, n) => MayGrow(c, s, n)
    case Write(l, s, p, v) => WriteOk(c, l, s, p)
    case WriteBatch(l, s, positions, rows) => |positions| == |rows| && BatchOk(c, l, s, positions)
    case Reuse(s, ns, tokens) =>
      0 <= s < c.cfg.maxSeqs && s !in c.swap.out && Blocks(c, s) == []
      && Quot(|tokens|, c.cfg.blockSize) <= c.cfg.maxBlocks
    case PutAway(s) => s !in c.swap.out
    case SwapOn(onCpu) => !c.swap.enabled
    case GraphOn => InitGraphBuffers(c).Some?
    case Decode(l, ids, positions, rows) =>
      0 <= l < c.cfg.layers && |ids| == |rows| && GraphMode.Ready(c, ids, positions)
    case GraphStep(g, ids, calls) => GraphMode.StepOk(c, g, ids, calls)
    case _ => true
  }

  ghost function Settle(r: Outcome): Option<Cache> {
    if r.Hangs? then None else Some(r.c)
  }

  // The state after the call, error or not; None when it never returns.
  ghost function Apply(c: Cache, op: Op): Option<Cache>
    requires Allowed(c, op)
  {
    match op
    case Alloc(s, n) => if Allocate(c, s, n).NeverReturns? then None else Some(Allocate(c, s, n).c)
    case Write(l, s, p, v) => Settle(WriteKv(c, l, s, p, v))
    case WriteBatch(l, s, positions, rows) => Settle(WriteKvBatch(c, l, s, positions, rows))
    case Read(l, s, maxLen) => Some(Touch(c, s))
    case Free(s) => Some(FreeSequence(c, s))
    case Reuse(s, ns, tokens) => Some(TryReusePrefix(c, s, ns, tokens).0)
    case RegisterPrefix(s, ns, tokens) => Some(RegisterPrefixBlocks(c, s, ns, tokens))
    case PutAway(s) => Some(SwapOut(c, s))
    case BringBack(s) => Some(SwapIn(c, s))
    case Pin(ids) => Some(c.(pinned := ids))
    case CachingOn => Some(EnablePrefixCaching(c))
    case SwapOn(onCpu) => Some(EnableSwap(c, onCpu))
    case GraphOn => InitGraphBuffers(c)
    case Decode(l, ids, positions, rows) => Some(GraphMode.EagerDecode(c, l, ids, positions, rows))
    case GraphStep(g, ids, calls) => Some(GraphMode.GraphStep(c, g, ids, calls).0)
  }

  // ---- Calls that only change modes ----

  lemma {:induction false} IdentityOnce(n: nat, b: int)
    ensures multiset(seq(n, i => i))[b] == if 0 <= b < n then 1 else 0
  {
    var s := seq(n, i => i);
    DistinctCount(s, b);
    if 0 <= b < n { assert s[b] == b; }
  }

  lemma SwapOnInv(c: Cache, onCpu: bool)
    requires Inv(c) && !c.swap.enabled
    ensures Inv(EnableSwap(c, onCpu))
  {
    var d := EnableSwap(c, onCpu);
    if !onCpu {
      CoreBeside(c, d);
      forall s | s in d.owned ensures Recorded(d, s) { assert Recorded(c, s); }
      forall b | 0 <= b < |d.swap.cells|
        ensures multiset(d.swap.free)[b] + Occ(OutBlocks(d.swap.out), d.cfg.maxSeqs, b) == 1
      {
        IdentityOnce(c.cfg.numBlocks, b);
        OccZero(OutBlocks(d.swap.out), d.cfg.maxSeqs, b);
      }
    }
  }

  lemma GraphOnStep(c: Cache)
    requires Inv(c) && InitGraphBuffers(c).Some?
    ensures var d := InitGraphBuffers(c).value;
      Inv(d) && SameReads(c, d) && d.lens == c.lens && d.cfg == c.cfg && d.swap == c.swap
  {
    var d := InitGraphBuffers(c).value;
    InitGraphCore(c);
    SideFrame(c, d);
    forall t, l, p ensures View(d, t, l, p) == View(c, t, l, p) {
      ViewIs(c, t, l, p);
      ViewIs(d, t, l, p);
      if Mapped(c, t, l, p) && c.dummy.None? {
        MappedIsOwned(c, t, l, p);
        assert c.pool.free[0] in c.pool.free;
        QueuedIsNowhere(c, c.pool.free[0]);
      }
    }
  }

  lemma RegisterStep(c: Cache, s: int, ns: Namespace, tokens: seq<int>)
    requires Inv(c)
    ensures var d := RegisterPrefixBlocks(c, s, ns, tokens);
      Inv(d) && SameReads(c, d) && d.lens == c.lens && d.cfg == c.cfg && d.swap == c.swap
  {
    var d := RegisterPrefixBlocks(c, s, ns, tokens);
    if c.pool.caching {
      RegisterCore(c, s, ns, tokens, FullBlocks(c, s, tokens));
      assert d == c.(pool := d.pool);
    }
    hide RegisterPrefixBlocks;
    SideFrame(c, d);
    SameTable(c, d);
  }

  lemma SameStashes(c: Cache, d: Cache)
    requires d.swap == c.swap && d.cfg == c.cfg
    ensures forall t, l, p :: StashView(d, t, l, p) == StashView(c, t, l, p)
  {
  }

  lemma OomBeside(c: Cache, s: int, n: nat)
    requires Inv(c) && Allocate(c, s, n).OutOfMemory?
    ensures Beside(c, Allocate(c, s, n).c)
  {
    if n > |c.pool.free| && c.cfg.lruEviction { EvictStep(c, n - |c.pool.free|, s); }
  }

  // The calls that change modes and marks only.
  lemma QuietCalls(c: Cache, op: Op)
    requires Inv(c) && Allowed(c, op)
    requires op.Read? || op.RegisterPrefix? || op.Pin? || op.CachingOn? || op.SwapOn? || op.GraphOn?
    ensures Apply(c, op).Some?
    ensures var d := Apply(c, op).value;
      && Inv(d) && SameReads(c, d) && d.lens == c.lens && d.cfg == c.cfg
      && forall t :: t in d.swap.out ==> t in c.swap.out && d.swap == c.swap
  {
    hide Inv, View, Touch, RegisterPrefixBlocks;
    var d := Apply(c, op).value;
    match op
    case Read(l, s, maxLen) => TouchStep(c, s);
    case RegisterPrefix(s, ns, tokens) => RegisterStep(c, s, ns, tokens);
    case Pin(ids) => PinStep(c, ids); SameTable(c, d);
    case CachingOn => CachingStep(c); SameTable(c, d);
    case SwapOn(onCpu) => SwapOnInv(c, onCpu); SameTable(c, d); SwapOffIsEmpty(c);
    case GraphOn => GraphOnStep(c);
  }

  lemma PinStep(c: Cache, ids: set<int>)
    requires Inv(c)
    ensures Inv(c.(pinned := ids))
  {
    CoreBeside(c, c.(pinned := ids));
    SideFrame(c, c.(pinned := ids));
  }

  lemma CachingStep(c: Cache)
    requires Inv(c)
    ensures Inv(EnablePrefixCaching(c))
  {
    EnableCachingCore(c);
    SideFrame(c, EnablePrefixCaching(c));
  }

  lemma SwapOffIsEmpty(c: Cache)
    requires Inv(c) && !c.swap.enabled
    ensures c.swap.out == map[]
  {
  }

  // The invariant survives every call, whether it goes through or fails.
  lemma StepKeepsInv(c: Cache, op: Op)
    requires Inv(c) && Allowed(c, op) && Apply(c, op).Some?
    ensures Inv(Apply(c, op).value) && Apply(c, op).value.cfg == c.cfg
  {
    hide Inv, View, Touch, RegisterPrefixBlocks, FreeSequence;
    hide SwapOut, SwapIn, TryReusePrefix, WriteKv, WriteKvBatch, Allocate;
    match op
    case Alloc(s, n) =>
      AllocateStep(c, s, n);
      if Allocate(c, s, n).OutOfMemory? { OomBeside(c, s, n); }
    case Write(l, s, p, v) =>
      WriteKvStep(c, l, s, p, v);
      if WriteKv(c, l, s, p, v).Failed? { WriteFailed(c, l, s, p, v); }
    case WriteBatch(l, s, positions, rows) => BatchKeepsInv(c, l, s, positions, rows);
    case Free(s) => FreeSequenceStep(c, s); FreeKeepsConfig(c, s);
    case Reuse(s, ns, tokens) => var n := TryReusePrefixStep(c, s, ns, tokens);
    case PutAway(s) => SwapOutStep(c, s);
    case BringBack(s) => SwapInStep(c, s);
    case Decode(l, ids, positions, rows) => DecodeOpKeeps(c, op);
    case GraphStep(g, ids, calls) => DecodeOpKeeps(c, op);
    case _ => QuietCalls(c, op);
  }

  lemma DecodeOpKeeps(c: Cache, op: Op)
    requires Inv(c) && Allowed(c, op) && (op.Decode? || op.GraphStep?)
    ensures Inv(Apply(c, op).value) && Apply(c, op).value.cfg == c.cfg && Apply(c, op).value.swap == c.swap
  {
    hide Inv, View, GraphMode.EagerDecode, GraphMode.GraphStep, GraphMode.PassReady;
    match op
    case Decode(l, ids, positions, rows) =>
      InvCore(c);
      DecodeIsStores(c, l, ids, positions, rows);
      ReadyOwns(c, l, ids, positions, rows);
      StoreAllKeeps(c, Singles(l, ids, positions, rows));
    case GraphStep(g, ids, calls) => GraphStepIsStores(c, g, ids, calls);
  }

  lemma FreeKeepsConfig(c: Cache, s: int)
    ensures FreeSequence(c, s).cfg == c.cfg && FreeSequence(c, s).swap == c.swap
  {
  }

  lemma WriteFailed(c: Cache, l: int, s: int, p: nat, v: KV)
    requires Inv(c) && WriteOk(c, l, s, p) && WriteKv(c, l, s, p, v).Failed?
    ensures Beside(c, WriteKv(c, l, s, p, v).c) && Inv(WriteKv(c, l, s, p, v).c)
  {
    WriteKvStep(c, l, s, p, v);
    WriteKvCases(c, l, s, p, v);
    OomBeside(c, s, 1);
  }

  lemma BatchKeepsInv(c: Cache, l: int, s: int, positions: seq<nat>, rows: seq<KV>)
    requires Inv(c) && |positions| == |rows| && BatchOk(c, l, s, positions)
    ensures var r := WriteKvBatch(c, l, s, positions, rows);
      !r.Hangs? ==> Inv(r.c) && Beside(c, r.c)
  {
    hide Inv, WriteBatchBlocks, Allocate;
    WriteKvBatchStep(c, l, s, positions, rows);
    if positions != [] && WriteKvBatch(c, l, s, positions, rows).Failed? {
      OomBeside(c, s, Missing(c, s, BlockIndices(positions, c.cfg.blockSize)));
    }
  }

  // ---- Runs ----

  // Every call of the run is allowed and returns.
  ghost predicate Runs(c: Cache, ops: seq<Op>)
    decreases |ops|
  {
    ops == [] || (Allowed(c, ops[0]) && Apply(c, ops[0]).Some? && Runs(Apply(c, ops[0]).value, ops[1..]))
  }

  ghost function Final(c: Cache, ops: seq<Op>): Cache
    requires Runs(c, ops)
    decreases |ops|
  {
    if ops == [] then c else Final(Apply(c, ops[0]).value, ops[1..])
  }

  lemma {:induction false} RunKeepsInv(c: Cache, ops: seq<Op>)
    requires Inv(c) && Runs(c, ops)
    ensures Inv(Final(c, ops)) && Final(c, ops).cfg == c.cfg
    decreases |ops|
  {
    if ops != [] {
      hide Inv;
      StepKeepsInv(c, ops[0]);
      RunKeepsInv(Apply(c, ops[0]).value, ops[1..]);
    }
  }

  lemma InitInv(cfg: Config)
    requires cfg.numBlocks > 0
    ensures Inv(Init(cfg))
  {
    InitCore(cfg);
  }

  // Reference counts, the free queue and the block table in every reachable
  // state.
  lemma ReachableIsExact(cfg: Config, ops: seq<Op>)
    requires cfg.numBlocks > 0 && Runs(Init(cfg), ops)
    ensures var c := Final(Init(cfg), ops);
      && |c.pool.refs| == |c.cells| == cfg.numBlocks && |c.table| == cfg.maxSeqs
      && (forall s :: 0 <= s < cfg.maxSeqs ==> |c.table[s]| == cfg.maxBlocks)
      && (forall b :: 0 < b < cfg.numBlocks ==>
            && c.pool.refs[b] == Occ(c.owned, cfg.maxSeqs, b) + (if c.dummy == Some(b) then 1 else 0)
            && (b in c.pool.free <==> c.pool.refs[b] == 0)
            && (c.pool.refs[b] == 0 && b !in c.dirty ==> c.cells[b] == ZeroContent(cfg)))
      && Distinct(c.pool.free)
      && (forall s, i :: 0 <= s < cfg.maxSeqs && 0 <= i < cfg.maxBlocks ==>
            c.table[s][i] == if i < |Blocks(c, s)| then Blocks(c, s)[i] else -1)
  {
    InitInv(cfg);
    RunKeepsInv(Init(cfg), ops);
  }

  // ---- The swap round trip ----

  // Calls on other sequences; eviction needs no exception, since a swapped
  // out sequence owns no block.
  predicate NotAbout(op: Op, s: int) {
    match op
    case Alloc(t, n) => t != s
    case Write(l, t, p, v) => t != s
    case WriteBatch(l, t, positions, rows) => t != s
    case Free(t) => t != s
    case Reuse(t, ns, tokens) => t != s
    case PutAway(t) => t != s
    case BringBack(t) => t != s
    case Decode(l, ids, positions, rows) => s !in ids
    case GraphStep(g, ids, calls) => s !in ids
    case _ => true
  }

  ghost predicate SameStash(c: Cache, d: Cache, s: int) {
    && s in c.swap.out && s in d.swap.out && d.swap.out[s] == c.swap.out[s]
    && forall l, p :: StashView(d, s, l, p) == StashView(c, s, l, p)
  }

  lemma StashStays(c: Cache, op: Op, s: int)
    requires Inv(c) && s in c.swap.out && NotAbout(op, s) && Allowed(c, op) && Apply(c, op).Some?
    ensures SameStash(c, Apply(c, op).value, s)
  {
    var d := Apply(c, op).value;
    match op
    case PutAway(t) => SwapOutStep(c, t);
    case BringBack(t) => SwapInStep(c, t);
    case SwapOn(onCpu) => assert false;
    case _ => SwapUntouched(c, op); SameStashes(c, d);
  }

  lemma SwapUntouched(c: Cache, op: Op)
    requires Inv(c) && Allowed(c, op) && Apply(c, op).Some? && !op.PutAway? && !op.BringBack? && !op.SwapOn?
    ensures Apply(c, op).value.swap == c.swap && Apply(c, op).value.cfg == c.cfg
  {
    match op
    case Alloc(s, n) =>
      AllocateStep(c, s, n);
      if Allocate(c, s, n).OutOfMemory? { OomBeside(c, s, n); }
    case Write(l, s, p, v) =>
      WriteKvStep(c, l, s, p, v);
      if WriteKv(c, l, s, p, v).Failed? { WriteKvCases(c, l, s, p, v); OomBeside(c, s, 1); }
    case WriteBatch(l, s, positions, rows) =>
      WriteKvBatchStep(c, l, s, positions, rows);
      if WriteKvBatch(c, l, s, positions, rows).Failed? {
        OomBeside(c, s, Missing(c, s, BlockIndices(positions, c.cfg.blockSize)));
      }
    case Reuse(s, ns, tokens) => var n := TryReusePrefixStep(c, s, ns, tokens);
    case GraphOn => GraphOnStep(c);
    case Decode(l, ids, positions, rows) => DecodeOpKeeps(c, op);
    case GraphStep(g, ids, calls) => DecodeOpKeeps(c, op);
    case _ =>
  }

  lemma {:induction false} StashStaysAlong(c: Cache, ops: seq<Op>, s: int)
    requires Inv(c) && s in c.swap.out && Runs(c, ops) && forall i :: 0 <= i < |ops| ==> NotAbout(ops[i], s)
    ensures Inv(Final(c, ops)) && SameStash(c, Final(c, ops), s) && Final(c, ops).cfg == c.cfg
    decreases |ops|
  {
    if ops != [] {
      var d := Apply(c, ops[0]).value;
      StashStays(c, ops[0], s);
      StepKeepsInv(c, ops[0]);
      StashStaysAlong(d, ops[1..], s);
    }
  }

  // Swapping out, anything on the others, swapping in: length and rows are
  // restored in every layer, and the CPU blocks still partition.
  lemma SwapRoundTrip(c: Cache, s: int, ops: seq<Op>)
    requires Inv(c) && s !in c.swap.out && CanSwapOut(c, s) && Runs(SwapOut(c, s), ops)
    requires forall i :: 0 <= i < |ops| ==> NotAbout(ops[i], s)
    requires CanSwapIn(Final(SwapOut(c, s), ops), s)
    ensures var d := SwapIn(Final(SwapOut(c, s), ops), s);
      && (forall l, p :: View(d, s, l, p) == View(c, s, l, p)) && Length(d, s) == Length(c, s)
      && Inv(d) && SwapOk(d)
  {
    SwapOutStep(c, s);
    var e := SwapOut(c, s);
    StashStaysAlong(e, ops, s);
    var g := Final(e, ops);
    SwapInStep(g, s);
    hide View, StashView, SwapOut, SwapIn, Inv;
    forall l, p ensures View(SwapIn(g, s), s, l, p) == View(c, s, l, p) {
      assert StashView(g, s, l, p) == StashView(e, s, l, p);
    }
  }
}
