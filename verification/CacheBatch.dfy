// write_kv_batch: one sequence, many positions, one layer. Readers see the
// last row written to each position and nothing else changes.
module CacheBatch {
  import opened Prelude
  import opened PoolSpec
  import opened CacheSpec
  import opened CacheInv
  import opened Lru
  import opened CacheView
  import opened CacheSteps

  ghost predicate Sorted(s: seq<nat>) {
    forall i, j :: 0 <= i < j < |s| ==> s[i] < s[j]
  }

  lemma {:induction false} InsertSortedIs(s: seq<nat>, x: nat)
    requires Sorted(s)
    ensures Sorted(InsertSorted(s, x))
    ensures forall y :: y in InsertSorted(s, x) <==> y in s || y == x
  {
    if s == [] || x < s[0] {
      var r := [x] + s;
      assert forall i :: 0 < i < |r| ==> r[i] == s[i - 1];
    } else if x > s[0] {
      InsertSortedIs(s[1..], x);
      ConsSorted(s[0], InsertSorted(s[1..], x), s[1..], x);
      assert s == [s[0]] + s[1..];
    }
  }

  lemma ConsSorted(a: nat, r: seq<nat>, t: seq<nat>, x: nat)
    requires Sorted([a] + t) && Sorted(r) && a < x && forall y :: y in r <==> y in t || y == x
    ensures Sorted([a] + r)
  {
    var u := [a] + r;
    forall i, j | 0 <= i < j < |u| ensures u[i] < u[j] {
      if i == 0 {
        assert u[j] in r;
        if u[j] in t {
          var k :| 0 <= k < |t| && t[k] == u[j];
          assert ([a] + t)[0] < ([a] + t)[k + 1];
        }
      } else {
        assert u[i] == r[i - 1] && u[j] == r[j - 1] && r[i - 1] < r[j - 1];
      }
    }
  }

  lemma {:induction false} BlockIndicesAre(positions: seq<nat>, bs: pos)
    ensures Sorted(BlockIndices(positions, bs))
    ensures forall i :: i in BlockIndices(positions, bs) <==>
      exists k :: 0 <= k < |positions| && Quot(positions[k], bs) == i
  {
    if positions != [] {
      var n := |positions| - 1;
      BlockIndicesAre(positions[..n], bs);
      InsertSortedIs(BlockIndices(positions[..n], bs), Quot(positions[n], bs));
      forall i | exists k :: 0 <= k < |positions| && Quot(positions[k], bs) == i
        ensures i in BlockIndices(positions, bs)
      {
        var k :| 0 <= k < |positions| && Quot(positions[k], bs) == i;
        if k < n { assert positions[..n][k] == positions[k]; }
      }
      forall i | i in BlockIndices(positions, bs)
        ensures exists k :: 0 <= k < |positions| && Quot(positions[k], bs) == i
      {
        if i in BlockIndices(positions[..n], bs) {
          var k :| 0 <= k < n && Quot(positions[..n][k], bs) == i;
          assert Quot(positions[k], bs) == i;
        }
      }
    }
  }

  lemma OneIndex(p: nat, bs: pos)
    ensures BlockIndices([p], bs) == [Quot(p, bs)]
  {
    assert [p][..0] == [] && BlockIndices([p][..0], bs) == [];
    assert InsertSorted([], Quot(p, bs)) == [Quot(p, bs)];
  }

  // ---- Copying every shared block of the batch ----

  ghost predicate IsShared(c: Cache, s: int, i: nat) {
    i < |Blocks(c, s)| && 0 <= Blocks(c, s)[i] < |c.pool.refs| && c.pool.refs[Blocks(c, s)[i]] > 1
  }

  ghost function SharedCount(c: Cache, s: int, indices: seq<nat>): nat {
    if indices == [] then 0 else (if IsShared(c, s, indices[0]) then 1 else 0) + SharedCount(c, s, indices[1..])
  }

  // Copying one block of a list does not disturb the others.
  ghost predicate OtherBlocksKept(c: Cache, d: Cache, s: int, i: nat) {
    && |Blocks(d, s)| == |Blocks(c, s)| && |d.pool.refs| == |c.pool.refs|
    && forall j :: 0 <= j < |Blocks(c, s)| && j != i ==>
         && Blocks(d, s)[j] == Blocks(c, s)[j]
         && (0 <= Blocks(c, s)[j] < |c.pool.refs| ==> d.pool.refs[Blocks(c, s)[j]] == c.pool.refs[Blocks(c, s)[j]])
  }

  lemma CowKeepsOthers(c: Cache, s: int, i: nat)
    requires Core(c) && i < |Blocks(c, s)|
    ensures var d := CowIfShared(c, s, i, Blocks(c, s)[i]).0;
      && OtherBlocksKept(c, d, s, i)
      && |d.pool.free| >= |c.pool.free| - if IsShared(c, s, i) then 1 else 0
  {
    if Copies(c, s, i) {
      var copy := c.pool.free[0];
      assert c.pool.free[..1] == [copy] && copy in c.pool.free;
      QueuedIsNowhere(c, copy);
      forall j | 0 <= j < |Blocks(c, s)| && j != i ensures Blocks(c, s)[j] != copy {
        assert Blocks(c, s)[j] in c.owned[s];
      }
    }
  }

  lemma {:induction false} SharedCountKept(c: Cache, d: Cache, s: int, i: nat, indices: seq<nat>)
    requires OtherBlocksKept(c, d, s, i) && i !in indices
    ensures SharedCount(d, s, indices) == SharedCount(c, s, indices)
  {
    if indices != [] {
      assert indices[0] in indices;
      SharedCountKept(c, d, s, i, indices[1..]);
    }
  }

  ghost predicate AllPrivate(c: Cache, s: int, indices: seq<nat>) {
    forall i :: i in indices ==> Private(c, s, i)
  }

  ghost predicate CowMeets(c: Cache, d: Cache, s: int) {
    && Inv(d) && SameReads(c, d) && d.lens == c.lens && Beside(c, d)
    && d.owned.Keys == c.owned.Keys && |Blocks(d, s)| == |Blocks(c, s)|
  }

  lemma CowOneStep(c: Cache, s: int, i: nat, rest: seq<nat>) returns (d: Cache)
    requires Inv(c) && i < |Blocks(c, s)| && (IsShared(c, s, i) ==> |c.pool.free| > 0)
    ensures CowEach(c, s, [i] + rest) == CowEach(d, s, rest)
    ensures CowMeets(c, d, s) && Private(d, s, i) && OtherBlocksKept(c, d, s, i)
    ensures |d.pool.free| >= |c.pool.free| - if IsShared(c, s, i) then 1 else 0
  {
    CowIsMapped(c, s, i);
    assert Blocks(c, s)[i] in c.owned[s];
    OwnedIsReferenced(c, s, Blocks(c, s)[i]);
    assert TableEntry(c, s, i) == Blocks(c, s)[i];
    hide CowIfShared, Core, LruOk, SwapOk, View, CowEach;
    CowStep(c, s, i);
    CowKeepsOthers(c, s, i);
    d := CowIfShared(c, s, i, Blocks(c, s)[i]).0;
    CowEachUnfolds(c, s, i, rest);
  }

  lemma CowEachUnfolds(c: Cache, s: int, i: nat, rest: seq<nat>)
    requires TableEntry(c, s, i) >= 0
    ensures CowEach(c, s, [i] + rest) == CowEach(CowIfShared(c, s, i, TableEntry(c, s, i)).0, s, rest)
  {
    hide CowIfShared;
    assert ([i] + rest)[1..] == rest;
  }

  lemma CowMeetsTwice(c: Cache, d: Cache, e: Cache, s: int)
    requires CowMeets(c, d, s) && CowMeets(d, e, s)
    ensures CowMeets(c, e, s)
  {
    forall t, l, p ensures View(e, t, l, p) == View(c, t, l, p) {
      assert View(d, t, l, p) == View(c, t, l, p);
    }
  }

  ghost predicate PrivateKept(c: Cache, d: Cache, s: int, indices: seq<nat>) {
    forall j :: 0 <= j < |Blocks(c, s)| && j !in indices && Private(c, s, j) ==> Private(d, s, j)
  }

  lemma CowEachCons(c: Cache, d: Cache, e: Cache, s: int, i: nat, rest: seq<nat>)
    requires CowMeets(c, d, s) && Private(d, s, i) && OtherBlocksKept(c, d, s, i)
    requires CowMeets(d, e, s) && AllPrivate(e, s, rest) && PrivateKept(d, e, s, rest) && i !in rest
    ensures CowMeets(c, e, s) && AllPrivate(e, s, [i] + rest) && PrivateKept(c, e, s, [i] + rest)
  {
    CowMeetsTwice(c, d, e, s);
  }

  lemma {:induction false} CowEachStep(c: Cache, s: int, indices: seq<nat>)
    requires Inv(c) && Sorted(indices) && SharedCount(c, s, indices) <= |c.pool.free|
    requires forall i :: i in indices ==> i < |Blocks(c, s)|
    ensures CowMeets(c, CowEach(c, s, indices), s)
    ensures AllPrivate(CowEach(c, s, indices), s, indices)
    ensures PrivateKept(c, CowEach(c, s, indices), s, indices)
    decreases |indices|
  {
    hide CowIfShared, Core, LruOk, SwapOk;
    if indices != [] {
      var i, rest := indices[0], indices[1..];
      assert indices == [i] + rest && i in indices && i !in rest;
      assert forall j :: j in rest ==> j in indices;
      var d := CowOneStep(c, s, i, rest);
      SharedCountKept(c, d, s, i, rest);
      CowEachStep(d, s, rest);
      CowEachCons(c, d, CowEach(d, s, rest), s, i, rest);
    }
  }

  // ---- Storing the batch ----

  // The row that ends up at position q after the first k stores.
  ghost function LastRow(positions: seq<nat>, rows: seq<KV>, k: nat, q: int): Option<KV>
    requires k <= |positions| == |rows|
  {
    if k == 0 then None
    else if positions[k - 1] == q then Some(rows[k - 1])
    else LastRow(positions, rows, k - 1, q)
  }

  ghost predicate BatchUpdate(c: Cache, d: Cache, s: int, l: int, positions: seq<nat>, rows: seq<KV>, k: nat)
    requires k <= |positions| == |rows|
  {
    forall t, m, q :: View(d, t, m, q) ==
      (if t == s && m == l && LastRow(positions, rows, k, q).Some? then LastRow(positions, rows, k, q).value
       else if Gone(c, d, t) then c.cfg.zero else View(c, t, m, q))
  }

  lemma MappedEntry(c: Cache, s: int, i: nat)
    requires Core(c) && i < |Blocks(c, s)|
    ensures TableEntry(c, s, i) == Blocks(c, s)[i] > 0
  {
    CowIsMapped(c, s, i);
  }

  // Only the lengths differ.
  lemma BackToLens(e: Cache, f: Cache, d: Cache)
    requires Core(e) && Core(f) && f == e.(cells := f.cells, lens := f.lens) && d == e.(cells := f.cells)
    ensures Core(d) && SameReads(f, d)
  {
    CoreBeside(f, d);
    SameTable(f, d);
  }

  // One more store after the first k - 1.
  lemma StoreOneMore(c: Cache, e: Cache, l: int, s: int, positions: seq<nat>, rows: seq<KV>, k: nat)
    requires Core(c) && Core(e) && e == c.(cells := e.cells) && 0 < k <= |positions| == |rows| && 0 <= l < c.cfg.layers
    requires s in c.owned && Private(c, s, Quot(positions[k - 1], c.cfg.blockSize))
    requires BatchUpdate(c, e, s, l, positions, rows, k - 1)
    ensures var p := positions[k - 1];
      var d :=
        e.(cells := Put(e.cells, TableEntry(c, s, Quot(p, c.cfg.blockSize)), l, Rem(p, c.cfg.blockSize), rows[k - 1]));
      Core(d) && BatchUpdate(c, d, s, l, positions, rows, k)
  {
    hide Core, View, Put;
    var p, v := positions[k - 1], rows[k - 1];
    var i := Quot(p, c.cfg.blockSize);
    MappedEntry(e, s, i);
    PrivateStoreReads(e, l, s, p, v);
    var f := Store(e, l, s, p, Blocks(e, s)[i], v);
    var d := e.(cells := f.cells);
    BackToLens(e, f, d);
    forall t, m, q ensures View(d, t, m, q) == (if t == s && m == l && q == p then v else View(e, t, m, q)) {
      assert View(d, t, m, q) == View(f, t, m, q);
    }
  }

  lemma {:induction false} StoreCellsStep(c: Cache, l: int, s: int, positions: seq<nat>, rows: seq<KV>, k: nat)
    requires Core(c) && k <= |positions| == |rows| && 0 <= l < c.cfg.layers && s in c.owned
    requires forall j :: 0 <= j < k ==> Private(c, s, Quot(positions[j], c.cfg.blockSize))
    ensures var d := c.(cells := StoreCells(c, l, s, positions, rows, k));
      Core(d) && BatchUpdate(c, d, s, l, positions, rows, k)
  {
    if k > 0 {
      hide Core, View, BatchUpdate, Put;
      var e := c.(cells := StoreCells(c, l, s, positions, rows, k - 1));
      StoreCellsStep(c, l, s, positions, rows, k - 1);
      StoreOneMore(c, e, l, s, positions, rows, k);
    }
  }

  lemma SameTensors(c: Cache, d: Cache)
    requires Core(c) && d == c.(lens := d.lens) && |d.lens| == |c.lens|
    requires forall s :: 0 <= s < |d.lens| ==> d.lens[s] >= 0
    ensures Core(d) && SameReads(c, d)
  {
    forall t, l, p ensures View(d, t, l, p) == View(c, t, l, p) {}
  }

  // ---- The call as a whole ----

  // What the caller provides: the batch extends the sequence without a gap,
  // and enough blocks are left to copy the shared ones it touches.
  ghost predicate BatchOk(c: Cache, l: int, s: int, positions: seq<nat>) {
    var indices := BlockIndices(positions, c.cfg.blockSize);
    var missing := Missing(c, s, indices);
    && 0 <= l < c.cfg.layers && 0 <= s < c.cfg.maxSeqs
    && |Blocks(c, s)| + missing <= c.cfg.maxBlocks
    && (forall i :: i in indices ==> i < |Blocks(c, s)| + missing)
    && (missing > 0 ==> s !in c.swap.out)
    && (missing == 0 ==> SharedCount(c, s, indices) <= |c.pool.free|)
    && (missing > 0 && Allocate(c, s, missing).Granted? ==>
          SharedCount(Allocate(c, s, missing).c, s, indices) <= |Allocate(c, s, missing).c.pool.free|)
  }

  ghost predicate BatchMeets(c: Cache, d: Cache, l: int, s: int, positions: seq<nat>, rows: seq<KV>)
    requires |positions| == |rows|
  {
    && Inv(d) && BatchUpdate(c, d, s, l, positions, rows, |positions|) && Beside(c, d)
    && (forall t :: Length(d, t) ==
          if t == s then Max(Length(c, s), MaxPosition(positions) + 1) else if Gone(c, d, t) then 0 else Length(c, t))
  }

  lemma {:induction false} MaxPositionIs(positions: seq<nat>)
    ensures MaxPosition(positions) >= -1 && (positions == [] <==> MaxPosition(positions) == -1)
    ensures positions != [] ==> MaxPosition(positions) in positions
    ensures forall k :: 0 <= k < |positions| ==> positions[k] <= MaxPosition(positions)
  {
    if positions != [] { MaxPositionIs(positions[..|positions| - 1]); }
  }

  lemma StoreBatchStep(c: Cache, l: int, s: int, positions: seq<nat>, rows: seq<KV>)
    requires Inv(c) && |positions| == |rows| && 0 <= l < c.cfg.layers && s in c.owned
    requires forall j :: 0 <= j < |positions| ==> Private(c, s, Quot(positions[j], c.cfg.blockSize))
    ensures BatchMeets(c, StoreBatch(c, l, s, positions, rows), l, s, positions, rows)
    ensures StoreBatch(c, l, s, positions, rows).owned == c.owned
  {
    assert Shape(c);
    StoreCellsStep(c, l, s, positions, rows, |positions|);
    assert MaxPosition(positions) >= -1 by { MaxPositionIs(positions); }
    hide Core, LruOk, SwapOk, StoreCells;
    var e := c.(cells := StoreCells(c, l, s, positions, rows, |positions|));
    var f := StoreBatch(c, l, s, positions, rows);
    SameTensors(e, f);
    SideFrame(c, f);
    forall t, m, q ensures View(f, t, m, q) == View(e, t, m, q) {}
  }

  // Invisible steps before and after the stores do not show.
  lemma AroundBatch(c: Cache, e: Cache, f: Cache, g: Cache, l: int, s: int, positions: seq<nat>, rows: seq<KV>)
    requires |positions| == |rows|
    requires OthersKept(c, e) && Beside(c, e) && !Gone(c, e, s)
    requires forall t :: t in e.owned && t != s ==> t in c.owned
    requires BatchMeets(e, f, l, s, positions, rows) && f.owned.Keys == e.owned.Keys
    requires Inv(g) && SameReads(f, g) && g.lens == f.lens && g.owned == f.owned && Beside(f, g)
    requires s in e.owned
    ensures BatchMeets(c, g, l, s, positions, rows)
  {
    assert forall t :: Gone(c, g, t) <==> Gone(c, e, t);
    var n := |positions|;
    forall t, m, q ensures View(g, t, m, q) ==
      (if t == s && m == l && LastRow(positions, rows, n, q).Some? then LastRow(positions, rows, n, q).value
       else if Gone(c, g, t) then c.cfg.zero else View(c, t, m, q))
    {
      assert View(g, t, m, q) == View(f, t, m, q);
      assert !Gone(e, f, t);
      assert View(e, t, m, q) == if Gone(c, e, t) then c.cfg.zero else View(c, t, m, q);
    }
    forall t ensures Length(g, t) ==
      if t == s then Max(Length(c, s), MaxPosition(positions) + 1) else if Gone(c, g, t) then 0 else Length(c, t)
    {
      assert Length(g, t) == Length(f, t) && !Gone(e, f, t);
      assert Length(e, t) == if Gone(c, e, t) then 0 else Length(c, t);
    }
  }

  lemma WriteBatchBlocksStep(c: Cache, l: int, s: int, positions: seq<nat>, rows: seq<KV>)
    requires Inv(c) && |positions| == |rows| && 0 <= l < c.cfg.layers && s in c.owned
    requires var indices := BlockIndices(positions, c.cfg.blockSize);
      SharedCount(c, s, indices) <= |c.pool.free| && forall i :: i in indices ==> i < |Blocks(c, s)|
    ensures BatchMeets(c, WriteBatchBlocks(c, l, s, positions, rows), l, s, positions, rows)
    ensures WriteBatchBlocks(c, l, s, positions, rows).owned.Keys == c.owned.Keys
  {
    hide CowIfShared, Touch, CowEach, BlockIndices;
    var indices := BlockIndices(positions, c.cfg.blockSize);
    BlockIndicesAre(positions, c.cfg.blockSize);
    CowEachStep(c, s, indices);
    var e := CowEach(c, s, indices);
    forall j | 0 <= j < |positions| ensures Private(e, s, Quot(positions[j], c.cfg.blockSize)) {
      assert Quot(positions[j], c.cfg.blockSize) in indices;
    }
    StoreBatchStep(e, l, s, positions, rows);
    var f := StoreBatch(e, l, s, positions, rows);
    TouchStep(f, s);
    CowIsKept(c, e, s);
    AroundBatch(c, e, f, Touch(f, s), l, s, positions, rows);
  }

  lemma CowIsKept(c: Cache, d: Cache, s: int)
    requires CowMeets(c, d, s)
    ensures OthersKept(c, d)
  {
    forall t, l, p ensures View(d, t, l, p) == if Gone(c, d, t) then c.cfg.zero else View(c, t, l, p) {
      assert !Gone(c, d, t);
    }
  }

  lemma GrantedThenBatch(c: Cache, d: Cache, n: nat, blocks: seq<int>, g: Cache,
                         l: int, s: int, positions: seq<nat>, rows: seq<KV>)
    requires |positions| == |rows|
    requires GrantedOk(c, d, s, n, blocks) && BatchMeets(d, g, l, s, positions, rows) && g.owned.Keys == d.owned.Keys
    ensures BatchMeets(c, g, l, s, positions, rows)
  {
    AroundBatch(c, d, g, g, l, s, positions, rows);
  }

  lemma {:induction false} MissingIsCounted(c: Cache, s: int, indices: seq<nat>)
    requires Core(c) && 0 <= s < c.cfg.maxSeqs && Missing(c, s, indices) == 0
    requires forall i :: i in indices ==> i < c.cfg.maxBlocks
    ensures forall i :: i in indices ==> i < |Blocks(c, s)|
  {
    if indices != [] {
      assert indices[0] in indices;
      TableIs(c, s, indices[0]);
      assert forall i :: i in indices[1..] ==> i in indices;
      MissingIsCounted(c, s, indices[1..]);
      assert forall i :: i in indices ==> i == indices[0] || i in indices[1..];
    }
  }

  // What write_kv_batch promises its caller.
  ghost predicate BatchOutcome(c: Cache, r: Outcome, l: int, s: int, positions: seq<nat>, rows: seq<KV>)
    requires |positions| == |rows|
  {
    if positions == [] then r == Done(c)
    else if r.Done? then BatchMeets(c, r.c, l, s, positions, rows)
    else if r.Failed? then Inv(r.c) && OthersKept(c, r.c)
    else Stuck(c, s, Missing(c, s, BlockIndices(positions, c.cfg.blockSize)))
  }

  lemma WriteKvBatchStep(c: Cache, l: int, s: int, positions: seq<nat>, rows: seq<KV>)
    requires Inv(c) && |positions| == |rows| && BatchOk(c, l, s, positions)
    ensures BatchOutcome(c, WriteKvBatch(c, l, s, positions, rows), l, s, positions, rows)
  {
    if positions != [] {
      var indices := BlockIndices(positions, c.cfg.blockSize);
      BlockIndicesAre(positions, c.cfg.blockSize);
      var missing := Missing(c, s, indices);
      if missing == 0 {
        assert Quot(positions[0], c.cfg.blockSize) in indices;
        WriteBatchBlocksStep(c, l, s, positions, rows);
      } else {
        AllocateStep(c, s, missing);
        var a := Allocate(c, s, missing);
        if a.Granted? {
          WriteBatchBlocksStep(a.c, l, s, positions, rows);
          GrantedThenBatch(c, a.c, missing, a.blocks, WriteBatchBlocks(a.c, l, s, positions, rows), l, s, positions,
                           rows);
        }
      }
    }
  }
}
