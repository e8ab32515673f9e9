// Least recently used, told by the calls of a run: which live sequence is
// older is which one was accessed longer ago, and eviction goes by that.
module Recency {
  import opened Prelude
  import opened Hashing
  import opened PoolSpec
  import opened CacheSpec
  import opened CacheInv
  import opened Lru
  import opened CacheView
  import opened CacheSteps
  import opened CacheBatch
  import opened PrefixCache
  import opened Swapping
  import opened CacheRun
  import GraphMode
  import opened DecodeStores

  // ---- Accesses ----

  // The sequence a call accesses, if it goes through.
  ghost function Access(c: Cache, op: Op): Option<int>
    requires Allowed(c, op)
  {
    match op
    case Alloc(s, n) => if Allocate(c, s, n).Granted? then Some(s) else None
    case Write(l, s, p, v) => if WriteKv(c, l, s, p, v).Done? then Some(s) else None
    case WriteBatch(l, s, positions, rows) =>
      if positions != [] && WriteKvBatch(c, l, s, positions, rows).Done? then Some(s) else None
    case Read(l, s, maxLen) => Some(s)
    case Reuse(s, ns, tokens) => if TryReusePrefix(c, s, ns, tokens).1 > 0 then Some(s) else None
    case BringBack(s) => if CanSwapIn(c, s) then Some(s) else None
    case _ => None
  }

  // No live sequence has been accessed.
  ghost predicate Rests(c: Cache, d: Cache) {
    && d.lru.clock >= c.lru.clock
    && forall t :: t in d.owned ==> t in c.owned && t in c.lru.last && t in d.lru.last && d.lru.last[t] == c.lru.last[t]
  }

  // Sequence s has been accessed, and no other live one.
  ghost predicate Uses(c: Cache, d: Cache, s: int) {
    && d.lru.clock >= c.lru.clock
    && s in d.lru.last && d.lru.last[s] > c.lru.clock
    && forall t :: t in d.owned && t != s ==>
         t in c.owned && t in c.lru.last && t in d.lru.last && d.lru.last[t] == c.lru.last[t]
  }

  lemma RestThenUse(c: Cache, d: Cache, e: Cache, s: int)
    requires Rests(c, d) && Uses(d, e, s)
    ensures Uses(c, e, s)
  {
  }

  lemma UseThenUse(c: Cache, d: Cache, e: Cache, s: int)
    requires Uses(c, d, s) && Uses(d, e, s)
    ensures Uses(c, e, s)
  {
  }

  lemma UseThenRest(c: Cache, d: Cache, e: Cache, s: int)
    requires Uses(c, d, s) && e.lru == d.lru && e.owned.Keys == d.owned.Keys
    ensures Uses(c, e, s)
  {
  }

  lemma SameRests(c: Cache, d: Cache)
    requires LruOk(c) && d.lru == c.lru && d.owned.Keys <= c.owned.Keys
    ensures Rests(c, d)
  {
    forall t | t in d.owned ensures t in c.owned && t in c.lru.last { assert Recorded(c, t); }
  }

  // Accessing makes the ticks of a sequence the latest.
  lemma TouchUses(c: Cache, d: Cache, s: int)
    requires LruOk(c) && d.lru == c.lru && d.owned.Keys <= c.owned.Keys + {s}
    ensures Uses(c, Touch(d, s), s)
  {
    forall t | t in d.owned && t != s ensures t in c.lru.last { assert Recorded(c, t); }
  }

  // ---- Each call ----

  lemma {:induction false} LoopRests(c: Cache, needed: int, freed: int, protect: int)
    requires LruOk(c) && EvictLoop(c, needed, freed, protect).Evicted?
    ensures Rests(c, EvictLoop(c, needed, freed, protect).c)
    decreases |c.lru.heap|
  {
    hide FreeSequence;
    if freed >= needed || c.lru.heap == [] {
      SameRests(c, c);
    } else if !Current(c, c.lru.heap[0]) {
      LiveAfterStale(c);
      LoopRests(Popped(c), needed, freed, protect);
    } else {
      VictimLru(c);
      VictimRests(c);
      LoopRests(AfterVictim(c), needed, freed + |AfterVictim(c).pool.free| - |c.pool.free|, protect);
    }
  }

  lemma VictimRests(c: Cache)
    requires LruOk(c) && c.lru.heap != []
    ensures Rests(c, AfterVictim(c)) && |AfterVictim(c).lru.heap| < |c.lru.heap|
  {
    var d := AfterVictim(c);
    forall t | t in d.owned ensures t in c.lru.last { assert Recorded(c, t); }
  }

  lemma EvictRests(c: Cache, needed: int, protect: int)
    requires LruOk(c) && EvictLru(c, needed, protect).Evicted?
    ensures Rests(c, EvictLru(c, needed, protect).c)
  {
    var d := c.(evicted := []);
    forall s | s in d.owned ensures Recorded(d, s) { assert Recorded(c, s); }
    LoopRests(d, needed, 0, protect);
  }

  lemma GrantUses(c: Cache, s: int, n: nat)
    requires LruOk(c) && n <= |c.pool.free|
    ensures Uses(c, Grant(c, s, n), s)
  {
    hide Touch, Take, SetRow, Wipe;
    var taken := c.pool.free[..n];
    TouchUses(c, Assign(c, s, n).(cells := Wipe(c, taken), dirty := c.dirty - Elements(taken)), s);
  }

  lemma AllocateUses(c: Cache, s: int, n: nat)
    requires Inv(c) && MayGrow(c, s, n)
    ensures var a := Allocate(c, s, n);
      (a.Granted? ==> Uses(c, a.c, s) && Inv(a.c)) && (a.OutOfMemory? ==> Rests(c, a.c))
  {
    hide Core, SwapOk, View, Grant, EvictLru, LruOk;
    AllocateStep(c, s, n);
    if n <= |c.pool.free| {
      GrantUses(c, s, n);
    } else if c.cfg.lruEviction {
      var r := EvictLru(c, n - |c.pool.free|, s);
      if r.Evicted? {
        EvictRests(c, n - |c.pool.free|, s);
        EvictStep(c, n - |c.pool.free|, s);
        if n <= |r.c.pool.free| {
          GrantUses(r.c, s, n);
          RestThenUse(c, r.c, Grant(r.c, s, n), s);
        }
      }
    } else {
      SameRests(c, c);
    }
  }

  lemma CowSame(c: Cache, s: int, i: int, b: int)
    ensures CowIfShared(c, s, i, b).0.lru == c.lru && CowIfShared(c, s, i, b).0.owned.Keys == c.owned.Keys
  {
  }

  lemma {:induction false} CowEachSame(c: Cache, s: int, indices: seq<nat>)
    ensures CowEach(c, s, indices).lru == c.lru && CowEach(c, s, indices).owned.Keys == c.owned.Keys
    decreases |indices|
  {
    if indices != [] {
      hide CowIfShared;
      var physical := TableEntry(c, s, indices[0]);
      CowSame(c, s, indices[0], physical);
      CowEachSame(if physical >= 0 then CowIfShared(c, s, indices[0], physical).0 else c, s, indices[1..]);
    }
  }

  lemma BlockUses(c: Cache, l: int, s: int, p: nat, b: int, v: KV)
    requires LruOk(c)
    ensures Uses(c, WriteBlock(c, l, s, p, b, v), s)
  {
    hide CowIfShared, Touch;
    CowSame(c, s, Quot(p, c.cfg.blockSize), b);
    var (d, target) := CowIfShared(c, s, Quot(p, c.cfg.blockSize), b);
    TouchUses(c, Store(d, l, s, p, target, v), s);
  }

  lemma WriteUses(c: Cache, l: int, s: int, p: nat, v: KV)
    requires Inv(c) && WriteOk(c, l, s, p)
    ensures var r := WriteKv(c, l, s, p, v);
      (r.Done? ==> Uses(c, r.c, s)) && (r.Failed? ==> Rests(c, r.c))
  {
    hide Core, SwapOk, View, WriteBlock, Allocate, LruOk;
    WriteKvCases(c, l, s, p, v);
    var i := Quot(p, c.cfg.blockSize);
    if i < |Blocks(c, s)| {
      BlockUses(c, l, s, p, Blocks(c, s)[i], v);
    } else {
      ListFits(c, s);
      AllocateUses(c, s, 1);
      var a := Allocate(c, s, 1);
      if a.Granted? {
        BlockUses(a.c, l, s, p, a.blocks[0], v);
        UseThenUse(c, a.c, WriteBlock(a.c, l, s, p, a.blocks[0], v), s);
      }
    }
  }

  lemma BatchBlocksUse(c: Cache, l: int, s: int, positions: seq<nat>, rows: seq<KV>)
    requires LruOk(c) && |positions| == |rows|
    ensures Uses(c, WriteBatchBlocks(c, l, s, positions, rows), s)
  {
    hide CowEach, Touch, StoreCells, BlockIndices;
    CowEachSame(c, s, BlockIndices(positions, c.cfg.blockSize));
    TouchUses(c, StoreBatch(CowEach(c, s, BlockIndices(positions, c.cfg.blockSize)), l, s, positions, rows), s);
  }

  lemma BatchUses(c: Cache, l: int, s: int, positions: seq<nat>, rows: seq<KV>)
    requires Inv(c) && |positions| == |rows| && BatchOk(c, l, s, positions)
    ensures var r := WriteKvBatch(c, l, s, positions, rows);
      && (positions != [] && r.Done? ==> Uses(c, r.c, s))
      && (positions == [] || r.Failed? ==> Rests(c, r.c))
  {
    hide Core, SwapOk, View, WriteBatchBlocks, Allocate, LruOk, BlockIndices, Missing;
    if positions == [] {
      SameRests(c, c);
    } else {
      var missing := Missing(c, s, BlockIndices(positions, c.cfg.blockSize));
      if missing == 0 {
        BatchBlocksUse(c, l, s, positions, rows);
      } else {
        AllocateUses(c, s, missing);
        var a := Allocate(c, s, missing);
        if a.Granted? {
          BatchBlocksUse(a.c, l, s, positions, rows);
          UseThenUse(c, a.c, WriteBatchBlocks(a.c, l, s, positions, rows), s);
        }
      }
    }
  }

  lemma {:induction false} AdoptionsSame(c: Cache, s: int, ns: Namespace, tokens: seq<int>, i: nat)
    requires i * c.cfg.blockSize <= |tokens|
    ensures var d := ReuseFrom(c, s, ns, tokens, i).0;
      d.lru == c.lru && d.owned.Keys <= c.owned.Keys + {s} && (ReuseFrom(c, s, ns, tokens, i).1 == i ==> d == c)
    decreases |tokens| - i * c.cfg.blockSize
  {
    if (i + 1) * c.cfg.blockSize <= |tokens| {
      hide Chain, Share;
      NextBlock(i, c.cfg.blockSize);
      var hit := Lookup(c.pool, Chain(ns, tokens, c.cfg.blockSize, i + 1).value);
      if hit.Some? && 0 <= hit.value < |c.pool.refs| {
        AdoptionsSame(Adopt(c, s, i, hit.value), s, ns, tokens, i + 1);
      }
    }
  }

  lemma ReuseUses(c: Cache, s: int, ns: Namespace, tokens: seq<int>)
    requires LruOk(c)
    ensures var (d, n) := TryReusePrefix(c, s, ns, tokens); if n > 0 then Uses(c, d, s) else Rests(c, d)
  {
    hide ReuseFrom, Touch;
    if c.pool.caching {
      AdoptionsSame(c, s, ns, tokens, 0);
      var (d, n) := ReuseFrom(c, s, ns, tokens, 0);
      if n > 0 {
        BlockStart(1, n, c.cfg.blockSize);
        TouchUses(c, d.(lens := Upd(d.lens, s, n * c.cfg.blockSize)), s);
      } else {
        SameRests(c, c);
      }
    } else {
      SameRests(c, c);
    }
  }

  lemma FreeRests(c: Cache, s: int)
    requires LruOk(c)
    ensures Rests(c, FreeSequence(c, s))
  {
    forall t | t in c.owned ensures t in c.lru.last { assert Recorded(c, t); }
  }

  lemma SwapUses(c: Cache, s: int)
    requires Inv(c)
    ensures Rests(c, SwapOut(c, s))
    ensures if CanSwapIn(c, s) then Uses(c, SwapIn(c, s), s) else Rests(c, SwapIn(c, s))
  {
    SameRests(c, SwapOut(c, s));
    hide Touch, Core, Take, CopyBlocks, SetRow, LruOk, SwapOk;
    if CanSwapIn(c, s) { TouchUses(c, Restored(c, s), s); } else { SameRests(c, c); }
  }

  lemma DecodeRests(c: Cache, op: Op)
    requires Inv(c) && Allowed(c, op) && (op.Decode? || op.GraphStep?)
    ensures Rests(c, Apply(c, op).value)
  {
    hide Inv, Core, View, GraphMode.EagerDecode, GraphMode.GraphStep, GraphMode.PassReady;
    match op
    case Decode(l, ids, positions, rows) =>
      InvCore(c);
      DecodeIsStores(c, l, ids, positions, rows);
      InvLru(c);
      SameRests(c, Apply(c, op).value);
    case GraphStep(g, ids, calls) =>
      GraphStepIsStores(c, g, ids, calls);
      InvLru(c);
      SameRests(c, Apply(c, op).value);
  }

  lemma InvLru(c: Cache)
    requires Inv(c)
    ensures LruOk(c)
  {
  }

  lemma ModeRests(c: Cache, op: Op)
    requires Inv(c) && Allowed(c, op) && (op.RegisterPrefix? || op.Pin? || op.CachingOn? || op.SwapOn? || op.GraphOn?)
    ensures Apply(c, op).Some? && Rests(c, Apply(c, op).value)
  {
    hide Inv, LruOk, Take;
    InvLru(c);
    SameRests(c, Apply(c, op).value);
  }

  // What one call does to the order of accesses.
  lemma StepRecency(c: Cache, op: Op)
    requires Inv(c) && Allowed(c, op) && Apply(c, op).Some?
    ensures var d := Apply(c, op).value;
      if Access(c, op).Some? then Uses(c, d, Access(c, op).value) else Rests(c, d)
  {
    hide Inv, Rests, Uses, View, Touch, RegisterPrefixBlocks, FreeSequence, SwapOut, SwapIn, TryReusePrefix, WriteKv;
    hide WriteKvBatch, Allocate, GraphMode.GraphStep, GraphMode.EagerDecode;
    InvLru(c);
    match op
    case Alloc(s, n) => AllocateUses(c, s, n);
    case Write(l, s, p, v) => WriteUses(c, l, s, p, v);
    case WriteBatch(l, s, positions, rows) => BatchUses(c, l, s, positions, rows);
    case Read(l, s, maxLen) => TouchUses(c, c, s);
    case Free(s) => FreeRests(c, s);
    case Reuse(s, ns, tokens) => ReuseUses(c, s, ns, tokens);
    case PutAway(s) => SwapUses(c, s);
    case BringBack(s) => SwapUses(c, s);
    case Decode(l, ids, positions, rows) => DecodeRests(c, op);
    case GraphStep(g, ids, calls) => DecodeRests(c, op);
    case _ => ModeRests(c, op);
  }

  // ---- Runs ----

  // The numbers of the latest accesses, after one more call.
  function Noted(when: int -> int, accessed: Option<int>, now: nat): int -> int {
    (s: int) => if accessed == Some(s) then now else when(s)
  }

  // For each sequence the number of the call that last accessed it, counting
  // from `now`, or what it was before.
  ghost function LastUse(c: Cache, ops: seq<Op>, when: int -> int, now: nat): int -> int
    requires Runs(c, ops)
    decreases |ops|
  {
    if ops == [] then when
    else LastUse(Apply(c, ops[0]).value, ops[1..], Noted(when, Access(c, ops[0]), now), now + 1)
  }

  function Never(): int -> int {
    (s: int) => -1
  }

  // The numbers tell the order of the live sequences.
  ghost predicate Tells(c: Cache, when: int -> int, now: nat) {
    && (forall s :: s in c.owned ==> 0 <= when(s) < now)
    && (forall s, t :: s in c.owned && t in c.owned ==> (Older(c, s, t) <==> when(s) < when(t)))
  }

  lemma Ticks(c: Cache)
    requires LruOk(c)
    ensures forall t :: t in c.owned ==> t in c.lru.last && c.lru.last[t] <= c.lru.clock
  {
    forall t | t in c.owned ensures t in c.lru.last && c.lru.last[t] <= c.lru.clock { assert Recorded(c, t); }
  }

  lemma UseTells(c: Cache, d: Cache, x: int, when: int -> int, now: nat)
    requires LruOk(c) && Tells(c, when, now) && Uses(c, d, x)
    ensures Tells(d, Noted(when, Some(x), now), now + 1)
  {
    Ticks(c);
    var next := Noted(when, Some(x), now);
    forall s, t | s in d.owned && t in d.owned ensures Older(d, s, t) <==> next(s) < next(t) {
      if s != x && t != x { assert Older(d, s, t) <==> Older(c, s, t); }
    }
  }

  lemma RestTells(c: Cache, d: Cache, when: int -> int, now: nat)
    requires Tells(c, when, now) && Rests(c, d)
    ensures Tells(d, Noted(when, None, now), now + 1)
  {
    var next := Noted(when, None, now);
    forall s, t | s in d.owned && t in d.owned ensures Older(d, s, t) <==> next(s) < next(t) {
      assert Older(d, s, t) <==> Older(c, s, t);
    }
  }

  lemma TellsOn(c: Cache, op: Op, when: int -> int, now: nat)
    requires Inv(c) && Allowed(c, op) && Apply(c, op).Some? && Tells(c, when, now)
    ensures Tells(Apply(c, op).value, Noted(when, Access(c, op), now), now + 1)
  {
    hide Inv, Access, Apply, Uses, Rests, Tells, Noted;
    StepRecency(c, op);
    InvLru(c);
    if Access(c, op).Some? {
      UseTells(c, Apply(c, op).value, Access(c, op).value, when, now);
    } else {
      RestTells(c, Apply(c, op).value, when, now);
    }
  }

  lemma {:induction false} RunTells(c: Cache, ops: seq<Op>, when: int -> int, now: nat)
    requires Inv(c) && Runs(c, ops) && Tells(c, when, now)
    ensures Inv(Final(c, ops)) && Tells(Final(c, ops), LastUse(c, ops, when, now), now + |ops|)
    decreases |ops|
  {
    hide Inv, Tells, Apply, Access, Noted;
    if ops != [] {
      TellsOn(c, ops[0], when, now);
      StepKeepsInv(c, ops[0]);
      RunTells(Apply(c, ops[0]).value, ops[1..], Noted(when, Access(c, ops[0]), now), now + 1);
    }
  }

  // In every reachable state the older of two live sequences is the one whose
  // last access is further back.
  lemma OlderIsUsedBefore(cfg: Config, ops: seq<Op>, s: int, t: int)
    requires cfg.numBlocks > 0 && Runs(Init(cfg), ops)
    requires s in Final(Init(cfg), ops).owned && t in Final(Init(cfg), ops).owned
    ensures var use := LastUse(Init(cfg), ops, Never(), 0);
      0 <= use(s) < |ops| && (Older(Final(Init(cfg), ops), s, t) <==> use(s) < use(t))
  {
    InitInv(cfg);
    var c := Init(cfg);
    assert Tells(c, Never(), 0);
    hide Inv, LastUse, Final, Runs, Init;
    RunTells(c, ops, Never(), 0);
  }

  // Whoever the eviction loop frees was last accessed before everyone who
  // stays, and the victims go in the order of their last accesses.
  lemma EvictsLeastRecentlyUsed(cfg: Config, ops: seq<Op>, needed: int, protect: int)
    requires cfg.numBlocks > 0 && Runs(Init(cfg), ops)
    requires EvictLru(Final(Init(cfg), ops), needed, protect).Evicted?
    ensures var c := Final(Init(cfg), ops); var use := LastUse(Init(cfg), ops, Never(), 0);
      var gone := EvictLru(c, needed, protect).c.evicted;
      && (forall v, s :: v in gone && s in c.owned && s !in gone ==> use(v) < use(s))
      && (forall i, j :: 0 <= i < j < |gone| ==> use(gone[i]) < use(gone[j]))
  {
    InitInv(cfg);
    var c := Final(Init(cfg), ops);
    var use := LastUse(Init(cfg), ops, Never(), 0);
    assert Tells(Init(cfg), Never(), 0);
    hide Inv, LastUse, Final, Runs, Init, EvictLru;
    RunTells(Init(cfg), ops, Never(), 0);
    InvLru(c);
    VictimsOldestFirst(c, needed, protect);
    VictimsDiffer(c, needed, protect);
    var gone := EvictLru(c, needed, protect).c.evicted;
    forall v, s | v in gone && s in c.owned && s !in gone ensures use(v) < use(s) {
      var i :| 0 <= i < |gone| && gone[i] == v;
      assert s !in gone[..i + 1];
      assert Older(c, v, s);
    }
    forall i, j | 0 <= i < j < |gone| ensures use(gone[i]) < use(gone[j]) {
      assert gone[j] !in gone[..i + 1];
      assert Older(c, gone[i], gone[j]);
    }
  }

  lemma VictimsDiffer(c: Cache, needed: int, protect: int)
    requires LruOk(c) && EvictLru(c, needed, protect).Evicted?
    ensures var gone := EvictLru(c, needed, protect).c.evicted;
      forall i, j :: 0 <= i < j < |gone| ==> gone[i] in c.owned && gone[j] in c.owned && gone[i] != gone[j]
  {
    var k := EvictLruWorks(c, needed, protect);
    hide EvictLru;
    LiveIsLive(c);
    var live := Live(c);
    forall i, j | 0 <= i < j < k ensures live[i].seqId != live[j].seqId {
      assert live[i] in live && live[j] in live;
    }
    forall i | 0 <= i < k ensures live[i].seqId in c.owned { assert live[i] in live; }
  }

  // The sequences that lose their blocks to a request for new ones.
  lemma AllocationEvictsLeastRecentlyUsed(cfg: Config, ops: seq<Op>, s: int, n: nat, t: int, u: int)
    requires cfg.numBlocks > 0 && Runs(Init(cfg), ops)
    requires var c := Final(Init(cfg), ops);
      && MayGrow(c, s, n) && !Allocate(c, s, n).NeverReturns?
      && t in c.owned && t !in Allocate(c, s, n).c.owned && u in c.owned && u in Allocate(c, s, n).c.owned
    ensures var use := LastUse(Init(cfg), ops, Never(), 0); use(t) < use(u)
  {
    hide Inv, LastUse, Final, Runs, Init, EvictLru, Allocate, Access, Apply;
    var c := Final(Init(cfg), ops);
    InitInv(cfg);
    RunKeepsInv(Init(cfg), ops);
    LostToEviction(c, s, n, t, u);
    EvictsLeastRecentlyUsed(cfg, ops, n - |c.pool.free|, s);
  }

  lemma LostToEviction(c: Cache, s: int, n: nat, t: int, u: int)
    requires Inv(c) && !Allocate(c, s, n).NeverReturns? && t in c.owned && t !in Allocate(c, s, n).c.owned
    requires u in c.owned && u in Allocate(c, s, n).c.owned
    ensures n > |c.pool.free| && EvictLru(c, n - |c.pool.free|, s).Evicted?
    ensures var gone := EvictLru(c, n - |c.pool.free|, s).c.evicted; t in gone && u !in gone
  {
    hide Grant, EvictLru, Core, LruOk, SwapOk;
    if n <= |c.pool.free| {
      GrantIs(c, s, n);
    } else {
      var r := EvictLru(c, n - |c.pool.free|, s);
      var k := EvictLruWorks(c, n - |c.pool.free|, s);
      VictimsLeaveTheRest(c, n - |c.pool.free|, s, k, r);
      EvictStep(c, n - |c.pool.free|, s);
      if n <= |r.c.pool.free| { GrantIs(r.c, s, n); }
    }
  }
}
