// Refinement: every run of the cache reads like plain per-sequence arrays and
// a record of published pages. Evictions, failures and the number of adopted
// blocks are taken from the call; every value comes from the plain side.
module CacheRefines {
  import opened Prelude
  import opened Hashing
  import opened PoolSpec
  import opened CacheSpec
  import opened CacheInv
  import opened Lru
  import opened CacheView
  import opened CacheSteps
  import opened CacheBatch
  import opened PrefixCache
  import opened Transparency
  import opened Swapping
  import opened CacheRun
  import opened CacheDiscipline
  import opened SharedPages
  import GraphMode
  import opened DecodeStores

  // ---- Plain arrays ----

  datatype Plain = Plain(
    rows: (int, int, int) -> KV, len: int -> int,
    away: (int, int, int) -> KV, awayLen: int -> int, shelf: Shelf)

  datatype Event =
    | Quiet
    | Stored(l: int, s: int, positions: seq<nat>, rows: seq<KV>)
    | Cleared(s: int)
    | Took(s: int, ns: Namespace, tokens: seq<int>, n: nat)
    | Published(s: int, pages: set<Hash>)
    | WentAway(s: int)
    | CameBack(s: int)
    | Decoded(singles: seq<Single>)

  ghost predicate EventOk(e: Event, cfg: Config) {
    && (e.Stored? ==> |e.positions| == |e.rows|)
    && (e.Took? ==> e.n * cfg.blockSize <= |e.tokens|)
  }

  ghost function MaxLen(len: int, positions: seq<nat>): int {
    Max(len, MaxPosition(positions) + 1)
  }

  // What an event does to the record: a writer leaves the pages it shares and
  // writes through the pages it has alone; whoever takes pages holds them.
  ghost function ShelfAfter(w: Shelf, e: Event, rows: (int, int, int) -> KV, cfg: Config): Shelf
    requires EventOk(e, cfg)
  {
    match e
    case Stored(l, s, positions, vs) => Written(w, l, s, positions, vs, cfg.blockSize)
    case Took(s, ns, tokens, n) => Join(w, s, PagesOf(ns, tokens, cfg.blockSize, n))
    case Published(s, pages) => Publish(w, s, pages, rows, cfg.blockSize)
    case Cleared(s) => Less(w, {s})
    case WentAway(s) => Less(w, {s})
    case _ => w
  }

  ghost function Losing(a: Plain, gone: set<int>, zero: KV): Plain {
    a.(rows := (t: int, m: int, q: int) => if t in gone then zero else a.rows(t, m, q),
       len := (t: int) => if t in gone then 0 else a.len(t), shelf := Less(a.shelf, gone))
  }

  // One row stored by decoding.
  ghost function PlainStore(a: Plain, x: Single, bs: pos): Plain {
    a.(rows := (t: int, m: int, q: int) => if t == x.s && m == x.l && q == x.p then x.v else a.rows(t, m, q),
       len := (t: int) => if t == x.s then Max(a.len(t), x.p + 1) else a.len(t),
       shelf := Written(a.shelf, x.l, x.s, [x.p], [x.v], bs))
  }

  ghost function PlainStores(a: Plain, xs: seq<Single>, bs: pos): Plain {
    if xs == [] then a else PlainStore(PlainStores(a, xs[..|xs| - 1], bs), xs[|xs| - 1], bs)
  }

  // A plain array per sequence: eviction clears the victims, a store writes
  // its rows in order, swapping moves an array aside and back, and reuse
  // copies the rows of the published pages.
  ghost function PlainStep(a: Plain, gone: set<int>, e: Event, cfg: Config): Plain
    requires EventOk(e, cfg)
  {
    var left := Losing(a, gone, cfg.zero);
    var rows, len, w := left.rows, left.len, left.shelf;
    var shelf := ShelfAfter(w, e, a.rows, cfg);
    match e
    case Quiet => a.(rows := rows, len := len, shelf := shelf)
    case Published(s, pages) => a.(rows := rows, len := len, shelf := shelf)
    case Stored(l, s, positions, vs) =>
      a.(rows := (t: int, m: int, q: int) =>
           if t == s && m == l && LastRow(positions, vs, |positions|, q).Some?
           then LastRow(positions, vs, |positions|, q).value else rows(t, m, q),
         len := (t: int) => if t == s then MaxLen(a.len(s), positions) else len(t), shelf := shelf)
    case Cleared(s) =>
      a.(rows := (t: int, m: int, q: int) => if t == s then cfg.zero else rows(t, m, q),
         len := (t: int) => if t == s then 0 else len(t), shelf := shelf)
    case Took(s, ns, tokens, n) =>
      a.(rows := (t: int, m: int, q: int) => if t == s then TakenRow(w, cfg, ns, tokens, n, m, q) else rows(t, m, q),
         len := (t: int) => if t == s && n > 0 then n * cfg.blockSize else len(t), shelf := shelf)
    case WentAway(s) =>
      Plain((t: int, m: int, q: int) => if t == s then cfg.zero else rows(t, m, q),
            (t: int) => if t == s then 0 else len(t),
            (t: int, m: int, q: int) => if t == s then a.rows(s, m, q) else a.away(t, m, q),
            (t: int) => if t == s then a.len(s) else a.awayLen(t), shelf)
    case CameBack(s) =>
      a.(rows := (t: int, m: int, q: int) => if t == s then a.away(s, m, q) else rows(t, m, q),
         len := (t: int) => if t == s then a.awayLen(s) else len(t), shelf := shelf)
    case Decoded(xs) => PlainStores(left, xs, cfg.blockSize)
  }

  ghost predicate ReadsAs(c: Cache, a: Plain) {
    && (forall t, l, p :: View(c, t, l, p) == a.rows(t, l, p))
    && (forall t :: Length(c, t) == a.len(t))
    && (forall t :: t in c.swap.out ==> c.swap.out[t].len == a.awayLen(t))
    && (forall t, l, p :: t in c.swap.out ==> StashView(c, t, l, p) == a.away(t, l, p))
  }

  ghost predicate Represents(c: Cache, a: Plain) {
    ReadsAs(c, a) && Shelved(c, a.shelf)
  }

  // What a step was, seen from outside: which sequences the call evicted and
  // whether it went through.
  ghost function Lost(c: Cache, op: Op, d: Cache): set<int> {
    if op.Alloc? || op.Write? || op.WriteBatch? then c.owned.Keys - d.owned.Keys else {}
  }

  ghost function EventOf(c: Cache, op: Op, d: Cache): (e: Event)
    requires Allowed(c, op)
    ensures EventOk(e, c.cfg)
  {
    match op
    case Write(l, s, p, v) => if WriteKv(c, l, s, p, v).Done? then Stored(l, s, [p], [v]) else Quiet
    case WriteBatch(l, s, positions, rows) =>
      if positions != [] && WriteKvBatch(c, l, s, positions, rows).Done? then Stored(l, s, positions, rows) else Quiet
    case Free(s) => Cleared(s)
    case Reuse(s, ns, tokens) => Took(s, ns, tokens, ReusedBlocks(c, s, ns, tokens))
    case RegisterPrefix(s, ns, tokens) => Published(s, NewPages(c, d))
    case PutAway(s) => if CanSwapOut(c, s) then WentAway(s) else Quiet
    case BringBack(s) => if CanSwapIn(c, s) then CameBack(s) else Quiet
    case Decode(l, ids, positions, rows) =>
      GraphMode.ReadyLength(c, ids, positions); Decoded(Singles(l, ids, positions, rows))
    case GraphStep(g, ids, calls) => PassOwns(c, ids, calls, |g.buffers.value.table|); Decoded(PassSingles(ids, calls))
    case _ => Quiet
  }

  ghost function After(c: Cache, a: Plain, op: Op, d: Cache): Plain
    requires Allowed(c, op)
  {
    PlainStep(a, Lost(c, op, d), EventOf(c, op, d), c.cfg)
  }

  // ---- What one step shows to readers ----

  // Steps that change no reading and no stash.
  lemma QuietStep(c: Cache, d: Cache, a: Plain)
    requires ReadsAs(c, a) && SameReads(c, d) && d.lens == c.lens && d.cfg == c.cfg
    requires forall t :: t in d.swap.out ==> t in c.swap.out && d.swap == c.swap
    ensures ReadsAs(d, PlainStep(a, {}, Quiet, c.cfg))
  {
    forall t, l, p ensures View(d, t, l, p) == a.rows(t, l, p) { assert View(d, t, l, p) == View(c, t, l, p); }
    forall t ensures Length(d, t) == a.len(t) { assert Length(d, t) == Length(c, t); }
    forall t, l, p | t in d.swap.out ensures StashView(d, t, l, p) == a.away(t, l, p) {
      assert StashView(d, t, l, p) == StashView(c, t, l, p);
    }
  }

  lemma KeptStep(c: Cache, d: Cache, a: Plain)
    requires ReadsAs(c, a) && OthersKept(c, d) && d.swap == c.swap && d.cfg == c.cfg
    ensures ReadsAs(d, PlainStep(a, c.owned.Keys - d.owned.Keys, Quiet, c.cfg))
  {
    SameStashes(c, d);
    hide View, StashView;
    assert forall t :: Gone(c, d, t) <==> t in c.owned.Keys - d.owned.Keys;
  }

  lemma StoredStep(c: Cache, d: Cache, a: Plain, l: int, s: int, positions: seq<nat>, rows: seq<KV>)
    requires ReadsAs(c, a) && |positions| == |rows| && BatchMeets(c, d, l, s, positions, rows)
    ensures ReadsAs(d, PlainStep(a, c.owned.Keys - d.owned.Keys, Stored(l, s, positions, rows), c.cfg))
  {
    SameStashes(c, d);
    var gone, n := c.owned.Keys - d.owned.Keys, |positions|;
    var b := PlainStep(a, gone, Stored(l, s, positions, rows), c.cfg);
    hide View, StashView, Inv;
    assert forall t :: Gone(c, d, t) <==> t in gone;
    forall t, m, q ensures View(d, t, m, q) == b.rows(t, m, q) {
      var last := LastRow(positions, rows, n, q);
      assert View(d, t, m, q) ==
        if t == s && m == l && last.Some? then last.value else if Gone(c, d, t) then c.cfg.zero else View(c, t, m, q);
    }
    forall t ensures Length(d, t) == b.len(t) {
      assert Length(c, t) == a.len(t) && Length(c, s) == a.len(s);
      assert Length(d, t) ==
        if t == s then MaxLen(Length(c, s), positions) else if Gone(c, d, t) then 0 else Length(c, t);
    }
  }

  lemma PublishedStep(c: Cache, d: Cache, a: Plain, s: int, pages: set<Hash>)
    requires ReadsAs(c, a) && SameReads(c, d) && d.lens == c.lens && d.cfg == c.cfg && d.swap == c.swap
    ensures ReadsAs(d, PlainStep(a, {}, Published(s, pages), c.cfg))
  {
    SameStashes(c, d);
    hide StashView, ShelfAfter;
    forall t, l, p ensures View(d, t, l, p) == a.rows(t, l, p) { assert View(d, t, l, p) == View(c, t, l, p); }
    forall t ensures Length(d, t) == a.len(t) { assert Length(d, t) == Length(c, t); }
  }

  lemma TookStep(c: Cache, d: Cache, a: Plain, s: int, ns: Namespace, tokens: seq<int>, n: nat)
    requires Represents(c, a) && Core(c) && ReuseMeets(c, d, s, ns, tokens, n)
    ensures ReadsAs(d, PlainStep(a, {}, Took(s, ns, tokens, n), c.cfg))
  {
    SameStashes(c, d);
    NothingLost(c, a.shelf);
    var b, w := PlainStep(a, {}, Took(s, ns, tokens, n), c.cfg), Less(a.shelf, {});
    hide View, StashView, Inv, Core, Inherited, Follows, ShelfAfter, Shelved, TakenRow;
    forall t, m, q ensures View(d, t, m, q) == b.rows(t, m, q) {
      if t == s { InheritedIsShelved(c, w, s, ns, tokens, n, m, q, View(d, s, m, q)); }
    }
    forall t ensures Length(d, t) == b.len(t) { assert Length(c, t) == a.len(t); }
  }

  lemma NothingLost(c: Cache, w: Shelf)
    requires Shelved(c, w)
    ensures Shelved(c, Less(w, {}))
  {
    AgreeShelved(c, w, Less(w, {}));
  }

  lemma WentAwayStep(c: Cache, d: Cache, a: Plain, s: int)
    requires ReadsAs(c, a) && StashesKept(c, d, s) && s in d.swap.out && d.swap.out[s].len == Length(c, s)
    requires forall t :: t in d.swap.out ==> t == s || t in c.swap.out
    requires forall t, l, p :: View(d, t, l, p) == (if t == s then c.cfg.zero else View(c, t, l, p))
    requires forall t :: Length(d, t) == if t == s then 0 else Length(c, t)
    requires forall l, p :: StashView(d, s, l, p) == View(c, s, l, p)
    ensures ReadsAs(d, PlainStep(a, {}, WentAway(s), c.cfg))
  {
    var b := PlainStep(a, {}, WentAway(s), c.cfg);
    hide View, StashView;
    forall t, m, q ensures View(d, t, m, q) == b.rows(t, m, q) {
      assert View(d, t, m, q) == if t == s then c.cfg.zero else View(c, t, m, q);
    }
    forall t ensures Length(d, t) == b.len(t) { assert Length(c, t) == a.len(t); }
    forall t | t in d.swap.out ensures d.swap.out[t].len == b.awayLen(t) { assert Length(c, s) == a.len(s); }
    forall t, m, q | t in d.swap.out ensures StashView(d, t, m, q) == b.away(t, m, q) {
      if t == s {
        assert StashView(d, s, m, q) == View(c, s, m, q) == a.rows(s, m, q);
      } else {
        assert StashView(d, t, m, q) == StashView(c, t, m, q);
      }
    }
  }

  lemma CameBackStep(c: Cache, d: Cache, a: Plain, s: int)
    requires ReadsAs(c, a) && s in c.swap.out && StashesKept(c, d, s)
    requires forall t :: t in d.swap.out ==> t != s && t in c.swap.out
    requires forall t, l, p :: View(d, t, l, p) == (if t == s then StashView(c, s, l, p) else View(c, t, l, p))
    requires forall t :: Length(d, t) == if t == s then c.swap.out[s].len else Length(c, t)
    ensures ReadsAs(d, PlainStep(a, {}, CameBack(s), c.cfg))
  {
    var b := PlainStep(a, {}, CameBack(s), c.cfg);
    hide View, StashView;
    forall t, m, q ensures View(d, t, m, q) == b.rows(t, m, q) {
      assert View(d, t, m, q) == if t == s then StashView(c, s, m, q) else View(c, t, m, q);
    }
    forall t ensures Length(d, t) == b.len(t) { assert Length(c, t) == a.len(t); }
    forall t, m, q | t in d.swap.out ensures StashView(d, t, m, q) == b.away(t, m, q) {
      assert StashView(d, t, m, q) == StashView(c, t, m, q);
    }
  }

  // ---- Every call refines its plain step ----

  ghost predicate Refines(c: Cache, a: Plain, op: Op, d: Cache)
    requires Allowed(c, op)
  {
    Inv(d) && d.cfg == c.cfg && Represents(d, After(c, a, op, d))
  }

  // A call that loses some sequences and does nothing else to pages.
  lemma QuietShelf(c: Cache, d: Cache, w: Shelf, gone: set<int>)
    requires Shelved(c, w) && Inv(d) && Passes(c, d)
    requires forall t :: t in c.owned ==> (t in gone <==> t !in d.owned)
    ensures Shelved(d, Less(w, gone))
  {
    InvCore(d);
    PassedShelved(c, d, w, gone);
  }

  lemma AllocRefines(c: Cache, a: Plain, s: int, n: nat)
    requires Inv(c) && Represents(c, a) && Allowed(c, Alloc(s, n)) && Apply(c, Alloc(s, n)).Some?
    ensures Refines(c, a, Alloc(s, n), Apply(c, Alloc(s, n)).value)
  {
    hide ReadsAs, Shelved, View, Allocate, Inv, Passes;
    AllocateStep(c, s, n);
    AllocatePasses(c, s, n);
    var d := Allocate(c, s, n).c;
    if Allocate(c, s, n).OutOfMemory? { OomBeside(c, s, n); }
    KeptStep(c, d, a);
    QuietShelf(c, d, a.shelf, c.owned.Keys - d.owned.Keys);
  }

  lemma BatchRefines(c: Cache, a: Plain, l: int, s: int, positions: seq<nat>, rows: seq<KV>)
    requires var op := WriteBatch(l, s, positions, rows);
      Inv(c) && Represents(c, a) && Allowed(c, op) && Apply(c, op).Some?
    ensures var op := WriteBatch(l, s, positions, rows); Refines(c, a, op, Apply(c, op).value)
  {
    hide ReadsAs, Shelved, View, WriteKvBatch, Inv, Passes, BatchOk, Written;
    WriteKvBatchStep(c, l, s, positions, rows);
    var r := WriteKvBatch(c, l, s, positions, rows);
    if positions != [] && r.Done? {
      StoredStep(c, r.c, a, l, s, positions, rows);
      WriteBatchShelved(c, a.shelf, l, s, positions, rows);
    } else {
      FailedBatchPasses(c, l, s, positions, rows);
      BatchKeepsInv(c, l, s, positions, rows);
      KeptStep(c, r.c, a);
      QuietShelf(c, r.c, a.shelf, c.owned.Keys - r.c.owned.Keys);
    }
  }

  lemma FailedBatchPasses(c: Cache, l: int, s: int, positions: seq<nat>, rows: seq<KV>)
    requires Inv(c) && |positions| == |rows| && BatchOk(c, l, s, positions)
    requires positions == [] || WriteKvBatch(c, l, s, positions, rows).Failed?
    ensures var d := WriteKvBatch(c, l, s, positions, rows).c; Passes(c, d) && OthersKept(c, d)
  {
    hide Inv, Passes, View, WriteBatchBlocks, Allocate;
    if positions == [] {
      SamePasses(c);
      OthersReflexive(c);
    } else {
      var missing := Missing(c, s, BlockIndices(positions, c.cfg.blockSize));
      AllocateStep(c, s, missing);
      AllocatePasses(c, s, missing);
    }
  }

  lemma OthersReflexive(c: Cache)
    ensures OthersKept(c, c)
  {
  }

  lemma WriteRefines(c: Cache, a: Plain, l: int, s: int, p: nat, v: KV)
    requires Inv(c) && Represents(c, a) && Allowed(c, Write(l, s, p, v)) && Apply(c, Write(l, s, p, v)).Some?
    ensures Refines(c, a, Write(l, s, p, v), Apply(c, Write(l, s, p, v)).value)
  {
    hide Represents, WriteOk, BatchOk, WriteKv, WriteKvBatch, Inv;
    OneWriteIsBatch(c, l, s, p, v);
    BatchRefines(c, a, l, s, [p], [v]);
  }

  lemma ReuseRefines(c: Cache, a: Plain, s: int, ns: Namespace, tokens: seq<int>)
    requires Inv(c) && Represents(c, a) && Allowed(c, Reuse(s, ns, tokens))
    ensures Refines(c, a, Reuse(s, ns, tokens), TryReusePrefix(c, s, ns, tokens).0)
  {
    hide TryReusePrefix, ReusedBlocks, View, StashView, Inv, ReadsAs, Shelved, Follows, Inherited, Join, PagesOf;
    var n := TryReusePrefixStep(c, s, ns, tokens);
    ReusedIs(c, s, ns, tokens, n);
    InvCore(c);
    TookStep(c, TryReusePrefix(c, s, ns, tokens).0, a, s, ns, tokens, n);
    NothingLost(c, a.shelf);
    ReuseShelved(c, Less(a.shelf, {}), s, ns, tokens);
  }

  lemma ReusedIs(c: Cache, s: int, ns: Namespace, tokens: seq<int>, n: nat)
    requires TryReusePrefix(c, s, ns, tokens).1 == n * c.cfg.blockSize
    ensures ReusedBlocks(c, s, ns, tokens) == n
  {
    var m, bs := ReusedBlocks(c, s, ns, tokens), c.cfg.blockSize;
    assert m * bs == n * bs;
    if m < n {
      BlockStart(m + 1, n, bs);
      NextBlock(m, bs);
    } else if n < m {
      BlockStart(n + 1, m, bs);
      NextBlock(n, bs);
    }
  }

  lemma FreeRefines(c: Cache, a: Plain, s: int)
    requires Inv(c) && Represents(c, a)
    ensures Refines(c, a, Free(s), FreeSequence(c, s))
  {
    hide View, StashView, Inv, FreeSequence, Passes, Shelved, Less;
    var d := FreeSequence(c, s);
    FreeSequenceStep(c, s);
    FreeKeepsConfig(c, s);
    SameStashes(c, d);
    InvCore(c);
    FreePasses(c, s);
    FreedKeys(c, s);
    NothingLost(c, a.shelf);
    QuietShelf(c, d, Less(a.shelf, {}), {s});
  }

  lemma FreedKeys(c: Cache, s: int)
    ensures FreeSequence(c, s).owned.Keys == c.owned.Keys - {s}
  {
  }

  lemma AwayRefines(c: Cache, a: Plain, s: int)
    requires Inv(c) && Represents(c, a) && Allowed(c, PutAway(s))
    ensures Refines(c, a, PutAway(s), SwapOut(c, s))
  {
    hide SwapOut, View, StashView, Inv, ReadsAs, Shelved, Passes, Less;
    SwapOutStep(c, s);
    NothingLost(c, a.shelf);
    if CanSwapOut(c, s) {
      SwapOutAdds(c, s);
      WentAwayStep(c, SwapOut(c, s), a, s);
      SwapOutPasses(c, s);
      QuietShelf(c, SwapOut(c, s), Less(a.shelf, {}), {s});
    } else {
      SameReadsReflexive(c);
      QuietStep(c, c, a);
    }
  }

  lemma SwapOutAdds(c: Cache, s: int)
    requires CanSwapOut(c, s)
    ensures SwapOut(c, s).owned.Keys == c.owned.Keys - {s}
    ensures forall t :: t in SwapOut(c, s).swap.out ==> t == s || t in c.swap.out
  {
  }

  lemma BackRefines(c: Cache, a: Plain, s: int)
    requires Inv(c) && Represents(c, a)
    ensures Refines(c, a, BringBack(s), SwapIn(c, s))
  {
    hide SwapIn, View, StashView, Inv, ReadsAs, Shelved, Passes, Less;
    SwapInStep(c, s);
    NothingLost(c, a.shelf);
    if CanSwapIn(c, s) {
      SwapInDrops(c, s);
      CameBackStep(c, SwapIn(c, s), a, s);
      SwapInPasses(c, s);
      QuietShelf(c, SwapIn(c, s), a.shelf, {});
    } else {
      SameReadsReflexive(c);
      QuietStep(c, c, a);
    }
  }

  lemma SwapInDrops(c: Cache, s: int)
    requires CanSwapIn(c, s)
    ensures forall t :: t in SwapIn(c, s).swap.out ==> t != s && t in c.swap.out
  {
  }

  lemma SameReadsReflexive(c: Cache)
    ensures SameReads(c, c)
  {
  }

  lemma RegisterRefines(c: Cache, a: Plain, s: int, ns: Namespace, tokens: seq<int>)
    requires Inv(c) && Represents(c, a)
    ensures Refines(c, a, RegisterPrefix(s, ns, tokens), RegisterPrefixBlocks(c, s, ns, tokens))
  {
    hide Inv, View, StashView, RegisterPrefixBlocks, Shelved, NewPages, Publish;
    var d := RegisterPrefixBlocks(c, s, ns, tokens);
    RegisterStep(c, s, ns, tokens);
    NothingLost(c, a.shelf);
    PublishedStep(c, d, a, s, NewPages(c, d));
    RegisterShelved(c, Less(a.shelf, {}), s, ns, tokens, a.rows);
  }

  lemma QuietRefines(c: Cache, a: Plain, op: Op)
    requires Inv(c) && Represents(c, a) && Allowed(c, op)
    requires op.Read? || op.Pin? || op.CachingOn? || op.SwapOn? || op.GraphOn?
    ensures Apply(c, op).Some? && Refines(c, a, op, Apply(c, op).value)
  {
    hide Inv, View, StashView, ReadsAs, Shelved, Passes, Less;
    QuietCalls(c, op);
    QuietPasses(c, op);
    QuietStep(c, Apply(c, op).value, a);
    QuietShelf(c, Apply(c, op).value, a.shelf, {});
  }

  lemma QuietPasses(c: Cache, op: Op)
    requires Inv(c) && Allowed(c, op)
    requires op.Read? || op.Pin? || op.CachingOn? || op.SwapOn? || op.GraphOn?
    ensures Apply(c, op).Some? && Passes(c, Apply(c, op).value) && Apply(c, op).value.owned == c.owned
  {
    hide Inv, Touch, Passes;
    var d := Apply(c, op).value;
    if op.GraphOn? {
      GraphOnPasses(c);
    } else {
      if op.Read? { TouchOnly(c, op.s); }
      AlonePasses(c, d);
    }
  }

  // ---- Decoding ----

  lemma SingleRefines(c: Cache, a: Plain, x: Single)
    requires Inv(c) && Represents(c, a) && Own(c, x)
    ensures Represents(StoreOne(c, x), PlainStore(a, x, c.cfg.blockSize))
  {
    hide Inv, View, StashView, Shelved, Written, Store;
    StoreStep(c, x.l, x.s, x.p, x.v);
    SingleShelved(c, a.shelf, x);
    var d, b := StoreOne(c, x), PlainStore(a, x, c.cfg.blockSize);
    SameStashes(c, d);
    forall t, m, q ensures View(d, t, m, q) == b.rows(t, m, q) { assert !Gone(c, d, t); }
    forall t ensures Length(d, t) == b.len(t) { assert !Gone(c, d, t) && Length(c, t) == a.len(t); }
  }

  lemma {:induction false} StoresRefine(c: Cache, a: Plain, xs: seq<Single>)
    requires Inv(c) && Represents(c, a) && AllOwn(c, xs)
    ensures Inv(StoreAll(c, xs)) && Represents(StoreAll(c, xs), PlainStores(a, xs, c.cfg.blockSize))
  {
    hide Inv, Represents, StoreOne, PlainStore;
    StoreAllKeeps(c, xs);
    if xs != [] {
      var n := |xs| - 1;
      StoresRefine(c, a, xs[..n]);
      OwnStays(c, StoreAll(c, xs[..n]), xs);
      assert Own(StoreAll(c, xs[..n]), xs[n]);
      SingleRefines(StoreAll(c, xs[..n]), PlainStores(a, xs[..n], c.cfg.blockSize), xs[n]);
    }
  }

  // Losing nobody is doing nothing.
  lemma DecodedStep(c: Cache, a: Plain, xs: seq<Single>)
    requires Inv(c) && Represents(c, a) && AllOwn(c, xs)
    ensures Inv(StoreAll(c, xs)) && Represents(StoreAll(c, xs), PlainStep(a, {}, Decoded(xs), c.cfg))
  {
    hide Inv, View, StashView, Shelved, PlainStores;
    NothingLost(c, a.shelf);
    var b := Losing(a, {}, c.cfg.zero);
    assert Represents(c, b);
    StoresRefine(c, b, xs);
  }

  lemma DecodeRefines(c: Cache, a: Plain, l: int, ids: seq<int>, positions: seq<nat>, rows: seq<KV>)
    requires Inv(c) && Represents(c, a) && Allowed(c, Decode(l, ids, positions, rows))
    ensures |ids| == |positions| == |rows|
    ensures Refines(c, a, Decode(l, ids, positions, rows), GraphMode.EagerDecode(c, l, ids, positions, rows))
  {
    hide Inv, Represents, PlainStep, GraphMode.EagerDecode, Singles;
    InvCore(c);
    DecodeIsStores(c, l, ids, positions, rows);
    ReadyOwns(c, l, ids, positions, rows);
    DecodedStep(c, a, Singles(l, ids, positions, rows));
  }

  lemma GraphStepRefines(c: Cache, a: Plain, g: GraphMode.Graph, ids: seq<int>, calls: seq<GraphMode.Call>)
    requires Inv(c) && Represents(c, a) && Allowed(c, GraphStep(g, ids, calls))
    ensures Refines(c, a, GraphStep(g, ids, calls), GraphMode.GraphStep(c, g, ids, calls).0)
  {
    hide Inv, Represents, PlainStep, GraphMode.GraphStep, GraphMode.PassReady, GraphMode.CallsOk, PassSingles;
    PassOwns(c, ids, calls, |g.buffers.value.table|);
    GraphStepIsStores(c, g, ids, calls);
    DecodedStep(c, a, PassSingles(ids, calls));
    DummyRefines(StoreAll(c, PassSingles(ids, calls)), GraphMode.GraphStep(c, g, ids, calls).0,
                 PlainStep(a, {}, Decoded(PassSingles(ids, calls)), c.cfg));
  }

  // The dummy block is never published, and nobody reads it.
  lemma DummyRefines(e: Cache, d: Cache, a: Plain)
    requires Inv(e) && Represents(e, a) && SameReads(e, d) && e.dummy.Some? && d == e.(cells := d.cells)
    requires GraphMode.AgreeBut(d.cells, e.cells, e.dummy.value)
    ensures Represents(d, a)
  {
    hide View, StashView, Inv;
    InvCore(e);
    SameStashes(e, d);
    DummyShelved(e, d, a.shelf);
    forall t, l, p ensures View(d, t, l, p) == a.rows(t, l, p) { assert View(d, t, l, p) == View(e, t, l, p); }
    forall t ensures Length(d, t) == a.len(t) { assert Length(d, t) == Length(e, t); }
  }

  // One call on the cache is the same call on plain arrays.
  lemma StepRefines(c: Cache, a: Plain, op: Op)
    requires Inv(c) && Represents(c, a) && Allowed(c, op) && Apply(c, op).Some?
    ensures Refines(c, a, op, Apply(c, op).value)
  {
    hide Inv, Represents, Refines, Allocate, WriteKv, WriteKvBatch, Touch;
    match op
    case Alloc(s, n) => AllocRefines(c, a, s, n);
    case Write(l, s, p, v) => WriteRefines(c, a, l, s, p, v);
    case WriteBatch(l, s, positions, rows) => BatchRefines(c, a, l, s, positions, rows);
    case Free(s) => FreeRefines(c, a, s);
    case Reuse(s, ns, tokens) => ReuseRefines(c, a, s, ns, tokens);
    case RegisterPrefix(s, ns, tokens) => RegisterRefines(c, a, s, ns, tokens);
    case PutAway(s) => AwayRefines(c, a, s);
    case BringBack(s) => BackRefines(c, a, s);
    case Decode(l, ids, positions, rows) => DecodeRefines(c, a, l, ids, positions, rows);
    case GraphStep(g, ids, calls) => GraphStepRefines(c, a, g, ids, calls);
    case _ => QuietRefines(c, a, op);
  }

  // On plain arrays, who takes pages right after they were published reads
  // what the publisher reads.
  lemma PublishedIsTaken(a: Plain, cfg: Config, s: int, pages: set<Hash>, t: int, r: Prompt, n: nat, l: int, p: nat)
    requires n * cfg.blockSize <= |r.tokens| && PagesOf(r.ns, r.tokens, cfg.blockSize, n) <= pages
    requires 0 <= l < cfg.layers && p < n * cfg.blockSize
    ensures var b := PlainStep(a, {}, Published(s, pages), cfg);
      PlainStep(b, {}, Took(t, r.ns, r.tokens, n), cfg).rows(t, l, p) == a.rows(s, l, p)
  {
    hide Chain, PagesOf, Depth, Join, Quot, Rem;
    var bs := cfg.blockSize;
    var i := Quot(p, bs);
    InBlocks(p, n, bs);
    Decompose(p, bs);
    BlockStart(i + 1, n, bs);
    ChainIs(r.ns, r.tokens, bs, i + 1);
    var h := Chain(r.ns, r.tokens, bs, i + 1).value;
    PagesAre(r.ns, r.tokens, bs, n, h);
    assert PlaceOf(h) * bs + Rem(p, bs) == p;
    var b := PlainStep(a, {}, Published(s, pages), cfg);
    assert b.shelf.rows(h, l, Rem(p, bs)) == a.rows(s, l, p);
    assert TakenRow(Less(b.shelf, {}), cfg, r.ns, r.tokens, n, l, p) == b.shelf.rows(h, l, Rem(p, bs));
  }

  // ---- Runs ----

  ghost function PlainRun(c: Cache, a: Plain, ops: seq<Op>): Plain
    requires Runs(c, ops)
    decreases |ops|
  {
    if ops == [] then a
    else
      var d := Apply(c, ops[0]).value;
      PlainRun(d, After(c, a, ops[0], d), ops[1..])
  }

  // In every reachable state the invariant holds and the cache reads like
  // the plain arrays of the same run.
  lemma {:induction false} RunRefines(c: Cache, a: Plain, ops: seq<Op>)
    requires Inv(c) && Represents(c, a) && Runs(c, ops)
    ensures Inv(Final(c, ops)) && Final(c, ops).cfg == c.cfg && Represents(Final(c, ops), PlainRun(c, a, ops))
    decreases |ops|
  {
    if ops != [] {
      hide Inv, Represents;
      StepRefines(c, a, ops[0]);
      var d := Apply(c, ops[0]).value;
      RunRefines(d, After(c, a, ops[0], d), ops[1..]);
    }
  }

  ghost function Blank(zero: KV): Plain {
    Plain((t: int, l: int, p: int) => zero, (t: int) => 0, (t: int, l: int, p: int) => zero, (t: int) => 0,
          Shelf((h: Hash, l: int, o: int) => zero, (h: Hash) => {}))
  }

  lemma InitBlank(cfg: Config)
    requires cfg.numBlocks > 0
    ensures Inv(Init(cfg)) && Represents(Init(cfg), Blank(cfg.zero))
  {
    var c := Init(cfg);
    InitInv(cfg);
    InitShelved(cfg, Blank(cfg.zero).shelf);
    forall t, l, p ensures View(c, t, l, p) == cfg.zero { ViewIs(c, t, l, p); }
  }

  lemma LengthIsNatural(c: Cache, s: int)
    requires Inv(c)
    ensures Length(c, s) >= 0
  {
  }

  // read_kv after any run returns the plain array of the sequence, cut to
  // its length, or to the length asked for if that is shorter.
  lemma ReadsArePlain(cfg: Config, ops: seq<Op>, l: int, s: int, maxLen: Option<nat>)
    requires cfg.numBlocks > 0 && Runs(Init(cfg), ops)
    ensures var c := Final(Init(cfg), ops); var a := PlainRun(Init(cfg), Blank(cfg.zero), ops);
      && Inv(c) && a.len(s) >= 0
      && ReadKv(c, l, s, maxLen) ==
         seq(if maxLen.Some? && maxLen.value < a.len(s) then maxLen.value else a.len(s), p => a.rows(s, l, p))
  {
    hide Inv, View, PlainRun, Shelved, Init, Runs;
    InitBlank(cfg);
    RunRefines(Init(cfg), Blank(cfg.zero), ops);
    var c := Final(Init(cfg), ops);
    var a := PlainRun(Init(cfg), Blank(cfg.zero), ops);
    LengthIsNatural(c, s);
    assert Length(c, s) == a.len(s);
    var r := ReadKv(c, l, s, maxLen);
    forall p | 0 <= p < |r| ensures r[p] == a.rows(s, l, p) { assert r[p] == View(c, s, l, p); }
  }
}
