// Where the promise of write_kv_batch ends: rows past the blocks the call
// makes are stored through an empty table entry, which names the last block
// of the tensor, and shared blocks are overwritten when too few are left for
// the copies. Both conditions are exact.
module CacheGaps {
  import opened Prelude
  import opened PoolSpec
  import opened CacheSpec
  import opened CacheInv
  import opened Lru
  import opened CacheView
  import opened CacheSteps
  import opened CacheBatch
  import opened CacheExact

  ghost predicate AllAddressable(c: Cache, l: int, s: int, positions: seq<nat>) {
    && 0 <= l < c.cfg.layers && 0 <= s < c.cfg.maxSeqs
    && forall k :: 0 <= k < |positions| ==> Quot(positions[k], c.cfg.blockSize) < c.cfg.maxBlocks
  }

  // The blocks the call adds cover every index of the batch.
  ghost predicate Gapless(c: Cache, s: int, positions: seq<nat>) {
    var indices := BlockIndices(positions, c.cfg.blockSize);
    forall i :: i in indices ==> i < |Blocks(c, s)| + Missing(c, s, indices)
  }

  // ---- The missing blocks ----

  lemma {:induction false} IndicesBelow(indices: seq<nat>, n: nat)
    requires Sorted(indices) && indices != [] && forall i :: i in indices ==> i < n
    ensures |indices| <= n - indices[0]
  {
    if |indices| > 1 {
      assert indices[1] in indices && forall i :: i in indices[1..] ==> i in indices;
      IndicesBelow(indices[1..], n);
    } else {
      assert indices[0] in indices;
    }
  }

  // One block is missing for each block index behind the sequence's list.
  lemma {:induction false} MissingIs(c: Cache, s: int, indices: seq<nat>)
    requires Core(c) && 0 <= s < c.cfg.maxSeqs && Sorted(indices)
    ensures Missing(c, s, indices) == |Beyond(indices, |Blocks(c, s)|)|
  {
    if indices != [] {
      var n := |Blocks(c, s)|;
      assert TableEntry(c, s, indices[0]) < 0 <==> indices[0] >= n by {
        if indices[0] < c.cfg.maxBlocks { TableIs(c, s, indices[0]); }
      }
      MissingIs(c, s, indices[1..]);
      hide Core, Blocks, TableEntry;
      BeyondCons(indices, n);
    }
  }

  ghost function Beyond(indices: seq<nat>, n: nat): set<nat> {
    set i | i in indices && i >= n
  }

  lemma BeyondCons(indices: seq<nat>, n: nat)
    requires indices != [] && Sorted(indices)
    ensures |Beyond(indices, n)| == |Beyond(indices[1..], n)| + if indices[0] >= n then 1 else 0
  {
    var i, rest := indices[0], indices[1..];
    assert i !in rest;
    assert forall j :: j in indices <==> j == i || j in rest;
    assert Beyond(indices, n) == Beyond(rest, n) + if i >= n then {i} else {};
  }

  lemma {:induction false} MissingAtMost(c: Cache, s: int, indices: seq<nat>)
    ensures Missing(c, s, indices) <= |indices|
  {
    if indices != [] { MissingAtMost(c, s, indices[1..]); }
  }

  // However far the positions are, the blocks the call asks for fit the row.
  lemma {:induction false} MissingFits(c: Cache, s: int, indices: seq<nat>)
    requires Core(c) && 0 <= s < c.cfg.maxSeqs && Sorted(indices)
    requires forall i :: i in indices ==> i < c.cfg.maxBlocks
    ensures |Blocks(c, s)| + Missing(c, s, indices) <= c.cfg.maxBlocks
  {
    if indices != [] {
      assert indices[0] in indices && forall i :: i in indices[1..] ==> i in indices;
      if indices[0] < |Blocks(c, s)| {
        TableIs(c, s, indices[0]);
        MissingFits(c, s, indices[1..]);
      } else {
        IndicesBelow(indices, c.cfg.maxBlocks);
        MissingAtMost(c, s, indices);
      }
    }
  }

  // The cache once the call has its blocks.
  ghost function Extended(c: Cache, s: int, positions: seq<nat>): Cache {
    var missing := Missing(c, s, BlockIndices(positions, c.cfg.blockSize));
    if missing > 0 && Allocate(c, s, missing).Granted? then Allocate(c, s, missing).c else c
  }

  ghost predicate Extends(c: Cache, e: Cache, s: int, missing: nat) {
    && Inv(e) && OthersKept(c, e) && e.cfg == c.cfg && s in e.owned && |Blocks(e, s)| == |Blocks(c, s)| + missing
  }

  lemma ExtendedIs(c: Cache, l: int, s: int, positions: seq<nat>, rows: seq<KV>)
    requires Inv(c) && |positions| == |rows| && positions != [] && AllAddressable(c, l, s, positions)
    requires s !in c.swap.out && WriteKvBatch(c, l, s, positions, rows).Done?
    ensures Extends(c, Extended(c, s, positions), s, Missing(c, s, BlockIndices(positions, c.cfg.blockSize)))
    ensures WriteKvBatch(c, l, s, positions, rows) ==
      Done(WriteBatchBlocks(Extended(c, s, positions), l, s, positions, rows))
  {
    hide Allocate, WriteBatchBlocks, Core, LruOk, SwapOk, View, Missing, BlockIndices;
    var indices := BlockIndices(positions, c.cfg.blockSize);
    BlockIndicesAre(positions, c.cfg.blockSize);
    MissingFits(c, s, indices);
    if Missing(c, s, indices) == 0 {
      assert Quot(positions[0], c.cfg.blockSize) in indices;
      MissingIsCounted(c, s, indices);
    } else {
      AllocateStep(c, s, Missing(c, s, indices));
    }
  }

  // ---- The copies ----

  // An index past the list has an empty entry, and nothing is copied.
  lemma SkipsEmpty(c: Cache, s: int, i: nat, rest: seq<nat>)
    requires Core(c) && 0 <= s < c.cfg.maxSeqs && |Blocks(c, s)| <= i < c.cfg.maxBlocks
    ensures CowEach(c, s, [i] + rest) == CowEach(c, s, rest)
    ensures SharedCount(c, s, [i] + rest) == SharedCount(c, s, rest)
  {
    TableIs(c, s, i);
    assert ([i] + rest)[1..] == rest;
  }

  lemma OneCopy(c: Cache, s: int, i: nat, rest: seq<nat>) returns (d: Cache)
    requires Inv(c) && s in c.owned && i < |Blocks(c, s)|
    ensures CowEach(c, s, [i] + rest) == CowEach(d, s, rest)
    ensures CowMeets(c, d, s) && OtherBlocksKept(c, d, s, i) && (forall t :: t != s ==> Blocks(d, t) == Blocks(c, t))
    ensures if IsShared(c, s, i) && c.pool.free != []
            then |d.pool.free| == |c.pool.free| - 1 && Private(d, s, i) else d == c
  {
    CowIsMapped(c, s, i);
    var b := Blocks(c, s)[i];
    assert b in c.owned[s];
    OwnedIsReferenced(c, s, b);
    CopyTakesOne(c, s, i);
    hide CowIfShared, Core, LruOk, SwapOk, View, CowEach;
    CowEachUnfolds(c, s, i, rest);
    d := CowIfShared(c, s, i, b).0;
    if IsShared(c, s, i) && c.pool.free != [] {
      CowStep(c, s, i);
      CowKeepsOthers(c, s, i);
    }
  }

  lemma CopyTakesOne(c: Cache, s: int, i: nat)
    requires Core(c) && i < |Blocks(c, s)|
    ensures var d := CowIfShared(c, s, i, Blocks(c, s)[i]).0;
      && (forall t :: t != s ==> Blocks(d, t) == Blocks(c, t))
      && if IsShared(c, s, i) && c.pool.free != [] then |d.pool.free| == |c.pool.free| - 1 else d == c
  {
    var b := Blocks(c, s)[i];
    assert b in c.owned[s];
    if Copies(c, s, i) {
      assert c.pool.free[..1] == [c.pool.free[0]];
      assert c.pool.free[0] in c.pool.free;
      assert c.pool.free[0] != b;
      assert Take(c.pool, 1).refs[b] == c.pool.refs[b];
      assert Idle(Take(c.pool, 1).refs, [b]) == [] by { IdleSnoc(Take(c.pool, 1).refs, [], b); }
    }
  }

  ghost predicate CopiesMeet(c: Cache, d: Cache, s: int) {
    CowMeets(c, d, s) && forall t :: t != s ==> Blocks(d, t) == Blocks(c, t)
  }

  lemma NothingCopied(c: Cache, s: int)
    ensures CowEach(c, s, []) == c && SharedCount(c, s, []) == 0
  {
  }

  lemma CountFirst(c: Cache, s: int, i: nat, rest: seq<nat>)
    ensures SharedCount(c, s, [i] + rest) == (if IsShared(c, s, i) then 1 else 0) + SharedCount(c, s, rest)
  {
    assert ([i] + rest)[1..] == rest;
  }

  lemma SharesKept(c: Cache, d: Cache, s: int, i: nat)
    requires OtherBlocksKept(c, d, s, i)
    ensures forall j :: 0 <= j < |Blocks(c, s)| && j != i ==> (IsShared(d, s, j) <==> IsShared(c, s, j))
    ensures Private(d, s, i) ==> !IsShared(d, s, i)
  {
  }

  // Which blocks are still shared after the copies: none, if there were
  // enough free ones, and else at least one the batch writes to.
  lemma {:induction false} CopiesAre(c: Cache, s: int, indices: seq<nat>)
    requires Inv(c) && s in c.owned && 0 <= s < c.cfg.maxSeqs && Sorted(indices)
    requires forall i :: i in indices ==> i < c.cfg.maxBlocks
    ensures var d := CowEach(c, s, indices);
      && CopiesMeet(c, d, s)
      && (forall j :: 0 <= j < |Blocks(c, s)| && j !in indices ==> (IsShared(d, s, j) <==> IsShared(c, s, j)))
      && (SharedCount(c, s, indices) <= |c.pool.free| <==> forall i :: i in indices ==> !IsShared(d, s, i))
    decreases |indices|
  {
    hide Core, LruOk, SwapOk, View, CowIfShared, CowEach, SharedCount;
    if indices == [] {
      NothingCopied(c, s);
    } else {
      var i, rest := indices[0], indices[1..];
      assert indices == [i] + rest && i in indices && i !in rest;
      assert forall j :: j in indices <==> j == i || j in rest;
      if i >= |Blocks(c, s)| {
        SkipsEmpty(c, s, i, rest);
        CopiesAre(c, s, rest);
      } else {
        var d := OneCopy(c, s, i, rest);
        CountFirst(c, s, i, rest);
        SharedCountKept(c, d, s, i, rest);
        SharesKept(c, d, s, i);
        CopiesAre(d, s, rest);
        CowMeetsTwice(c, d, CowEach(d, s, rest), s);
      }
    }
  }

  // ---- The stores ----

  // The last of the first k rows that goes to offset o of block b.
  ghost function LastAt(d: Cache, s: int, positions: seq<nat>, rows: seq<KV>, k: nat, b: int, o: int): Option<KV>
    requires k <= |positions| == |rows|
  {
    if k == 0 then None
    else if Aims(d, s, positions[k - 1], b, o) then Some(rows[k - 1])
    else LastAt(d, s, positions, rows, k - 1, b, o)
  }

  ghost predicate Aims(d: Cache, s: int, p: nat, b: int, o: int) {
    FromEnd(d, TableEntry(d, s, Quot(p, d.cfg.blockSize))) == b && Rem(p, d.cfg.blockSize) == o
  }

  lemma {:induction false} StoredCells(d: Cache, l: int, s: int, positions: seq<nat>, rows: seq<KV>, k: nat)
    requires Shape(d) && k <= |positions| == |rows|
    ensures forall b :: 0 <= b < |d.cells| ==> HasShape(StoreCells(d, l, s, positions, rows, k)[b], d.cfg)
    ensures var cells := StoreCells(d, l, s, positions, rows, k);
      forall b, m, o :: InCell(d, b, m, o) ==>
        && HasShape(d.cells[b], d.cfg) && HasShape(cells[b], d.cfg)
        && cells[b][m][o] == if m == l && LastAt(d, s, positions, rows, k, b, o).Some?
                             then LastAt(d, s, positions, rows, k, b, o).value else d.cells[b][m][o]
  {
    hide Put;
    if k > 0 {
      StoredCells(d, l, s, positions, rows, k - 1);
      var p, before := positions[k - 1], StoreCells(d, l, s, positions, rows, k - 1);
      assert forall b :: 0 <= b < |d.cells| ==> HasShape(before[b], d.cfg);
      PutCell(d, before, FromEnd(d, TableEntry(d, s, Quot(p, d.cfg.blockSize))), l, Rem(p, d.cfg.blockSize),
              rows[k - 1]);
    }
  }

  lemma PutCell(d: Cache, cells: seq<Content>, b: int, l: int, o: int, v: KV)
    requires |cells| == |d.cells| && forall x :: 0 <= x < |cells| ==> HasShape(cells[x], d.cfg)
    requires forall x :: 0 <= x < |d.cells| ==> HasShape(d.cells[x], d.cfg)
    ensures forall x :: 0 <= x < |cells| ==> HasShape(Put(cells, b, l, o, v)[x], d.cfg)
    ensures forall x, m, y :: InCell(d, x, m, y) ==>
      && HasShape(d.cells[x], d.cfg) && HasShape(cells[x], d.cfg) && HasShape(Put(cells, b, l, o, v)[x], d.cfg)
      && Put(cells, b, l, o, v)[x][m][y] == if x == b && m == l && y == o then v else cells[x][m][y]
  {
  }

  // What is read after the stores.
  lemma StoredView(d: Cache, e: Cache, l: int, s: int, positions: seq<nat>, rows: seq<KV>, t: int, m: int, q: int)
    requires Core(d) && |positions| == |rows| && e.cfg == d.cfg && e.table == d.table
    requires e.cells == StoreCells(d, l, s, positions, rows, |positions|)
    ensures View(e, t, m, q) ==
      if m == l && Mapped(d, t, m, q)
         && LastAt(d, s, positions, rows, |positions|, BlockAt(d, t, q), Rem(q, d.cfg.blockSize)).Some?
      then LastAt(d, s, positions, rows, |positions|, BlockAt(d, t, q), Rem(q, d.cfg.blockSize)).value
      else View(d, t, m, q)
  {
    StoredCells(d, l, s, positions, rows, |positions|);
    ViewIs(d, t, m, q);
    if Mapped(d, t, m, q) {
      CowIsMapped(d, t, Quot(q, d.cfg.blockSize));
    }
  }

  lemma {:induction false} LastAtIsRow(d: Cache, s: int, positions: seq<nat>, rows: seq<KV>, k: nat, b: int, o: int)
    requires k <= |positions| == |rows|
    ensures var last := LastAt(d, s, positions, rows, k, b, o);
      && (last.Some? ==> last.value in rows)
      && (last.Some? <==> exists j :: 0 <= j < k && Aims(d, s, positions[j], b, o))
  {
    if k > 0 { LastAtIsRow(d, s, positions, rows, k - 1, b, o); }
  }

  // ---- The call after allocation ----

  lemma WrittenIs(e: Cache, l: int, s: int, positions: seq<nat>, rows: seq<KV>) returns (d: Cache)
    requires Inv(e) && s in e.owned && |positions| == |rows| && AllAddressable(e, l, s, positions)
    ensures d == CowEach(e, s, BlockIndices(positions, e.cfg.blockSize)) && CopiesMeet(e, d, s)
    ensures SharedCount(e, s, BlockIndices(positions, e.cfg.blockSize)) <= |e.pool.free| <==>
      forall k :: 0 <= k < |positions| ==> !IsShared(d, s, Quot(positions[k], e.cfg.blockSize))
    ensures var g := WriteBatchBlocks(e, l, s, positions, rows);
      && g.cfg == d.cfg && g.table == d.table && g.owned == d.owned
      && g.cells == StoreCells(d, l, s, positions, rows, |positions|)
  {
    hide Core, LruOk, SwapOk, View, CowEach, Touch, IsShared;
    var indices := BlockIndices(positions, e.cfg.blockSize);
    BlockIndicesAre(positions, e.cfg.blockSize);
    CopiesAre(e, s, indices);
    d := CowEach(e, s, indices);
    TouchOnly(StoreBatch(d, l, s, positions, rows), s);
  }

  // ---- Reading back ----

  // With every index covered, a position and its cell determine each other.
  lemma {:induction false} LastAtIsLastRow(d: Cache, s: int, positions: seq<nat>, rows: seq<KV>, k: nat, q: nat)
    requires Core(d) && s in d.owned && k <= |positions| == |rows| && Quot(q, d.cfg.blockSize) < |Blocks(d, s)|
    requires forall j :: 0 <= j < k ==> Quot(positions[j], d.cfg.blockSize) < |Blocks(d, s)|
    ensures LastAt(d, s, positions, rows, k, BlockAt(d, s, q), Rem(q, d.cfg.blockSize)) ==
      LastRow(positions, rows, k, q)
  {
    if k > 0 {
      LastAtIsLastRow(d, s, positions, rows, k - 1, q);
      AimsAtOwn(d, s, positions[k - 1], q);
    }
  }

  lemma AimsAtOwn(d: Cache, s: int, p: nat, q: nat)
    requires Core(d) && s in d.owned
    requires Quot(p, d.cfg.blockSize) < |Blocks(d, s)| && Quot(q, d.cfg.blockSize) < |Blocks(d, s)|
    ensures Aims(d, s, p, BlockAt(d, s, q), Rem(q, d.cfg.blockSize)) <==> p == q
  {
    var i, j := Quot(p, d.cfg.blockSize), Quot(q, d.cfg.blockSize);
    CowIsMapped(d, s, i);
    assert ListOk(d, d.owned[s]);
    if Blocks(d, s)[i] == Blocks(d, s)[j] && Rem(p, d.cfg.blockSize) == Rem(q, d.cfg.blockSize) {
      SamePlace(p, q, d.cfg.blockSize);
    }
  }

  ghost predicate AllReadBack(c: Cache, d: Cache, l: int, s: int, positions: seq<nat>, rows: seq<KV>)
    requires |positions| == |rows|
  {
    forall k :: 0 <= k < |positions| ==>
      Some(View(d, s, l, positions[k])) == LastRow(positions, rows, |positions|, positions[k])
  }

  lemma {:induction false} LastRowIs(positions: seq<nat>, rows: seq<KV>, k: nat, q: int)
    requires k <= |positions| == |rows|
    ensures var last := LastRow(positions, rows, k, q);
      && (last.Some? ==> last.value in rows)
      && (last.Some? <==> exists j :: 0 <= j < k && positions[j] == q)
    ensures forall j :: 0 <= j < k && positions[j] == q && (forall i :: j < i < k ==> positions[i] != q) ==>
      LastRow(positions, rows, k, q) == Some(rows[j])
  {
    if k > 0 { LastRowIs(positions, rows, k - 1, q); }
  }

  lemma ReadsBackAt(e: Cache, d: Cache, g: Cache, l: int, s: int, positions: seq<nat>, rows: seq<KV>, k: nat)
    requires Core(d) && d.cfg == e.cfg && s in d.owned && |positions| == |rows| && AllAddressable(e, l, s, positions)
    requires g.cfg == d.cfg && g.table == d.table && g.cells == StoreCells(d, l, s, positions, rows, |positions|)
    requires k < |positions|
    ensures var p, last := positions[k], LastRow(positions, rows, |positions|, positions[k]);
      && last.Some? && last.value in rows
      && (Quot(p, d.cfg.blockSize) >= |Blocks(d, s)| ==> View(g, s, l, p) == d.cfg.zero)
      && ((forall j :: 0 <= j < |positions| ==> Quot(positions[j], d.cfg.blockSize) < |Blocks(d, s)|) ==>
            View(g, s, l, p) == last.value)
  {
    hide Core, View, LastRow, LastAt;
    LastRowIs(positions, rows, |positions|, positions[k]);
    StoredView(d, g, l, s, positions, rows, s, l, positions[k]);
    ViewIs(d, s, l, positions[k]);
    if forall j :: 0 <= j < |positions| ==> Quot(positions[j], d.cfg.blockSize) < |Blocks(d, s)| {
      LastAtIsLastRow(d, s, positions, rows, |positions|, positions[k]);
    }
  }

  lemma GaplessIs(c: Cache, s: int, positions: seq<nat>)
    ensures Gapless(c, s, positions) <==>
      forall k :: 0 <= k < |positions| ==>
        Quot(positions[k], c.cfg.blockSize) < |Blocks(c, s)| + Missing(c, s, BlockIndices(positions, c.cfg.blockSize))
  {
    hide Missing, Quot;
    BlockIndicesAre(positions, c.cfg.blockSize);
    var indices := BlockIndices(positions, c.cfg.blockSize);
    if Gapless(c, s, positions) {
      forall k | 0 <= k < |positions|
        ensures Quot(positions[k], c.cfg.blockSize) < |Blocks(c, s)| + Missing(c, s, indices)
      {
        assert Quot(positions[k], c.cfg.blockSize) in indices;
      }
    }
  }

  lemma ReadsBackUnswapped(c: Cache, l: int, s: int, positions: seq<nat>, rows: seq<KV>)
    requires Inv(c) && |positions| == |rows| && AllAddressable(c, l, s, positions) && c.cfg.zero !in rows
    requires s !in c.swap.out && WriteKvBatch(c, l, s, positions, rows).Done?
    ensures AllReadBack(c, WriteKvBatch(c, l, s, positions, rows).c, l, s, positions, rows) <==>
      Gapless(c, s, positions)
  {
    hide Core, LruOk, SwapOk, View, LastRow, CowEach, WriteBatchBlocks, Extended, WriteKvBatch, Missing;
    GaplessIs(c, s, positions);
    if positions != [] {
      ExtendedIs(c, l, s, positions, rows);
      var e := Extended(c, s, positions);
      var d := WrittenIs(e, l, s, positions, rows);
      var g := WriteBatchBlocks(e, l, s, positions, rows);
      forall k: nat | k < |positions|
        ensures var p, last := positions[k], LastRow(positions, rows, |positions|, positions[k]);
          && last.Some? && last.value in rows
          && (Quot(p, d.cfg.blockSize) >= |Blocks(d, s)| ==> View(g, s, l, p) == d.cfg.zero)
          && (Gapless(c, s, positions) ==> View(g, s, l, p) == last.value)
      {
        ReadsBackAt(e, d, g, l, s, positions, rows, k);
      }
      if !Gapless(c, s, positions) {
        var k :| 0 <= k < |positions| && Quot(positions[k], c.cfg.blockSize) >= |Blocks(d, s)|;
        assert Some(View(g, s, l, positions[k])) != LastRow(positions, rows, |positions|, positions[k]);
      }
    }
  }

  // ---- Staying private ----

  // No block of another sequence is written: there are free blocks for all
  // copies, and the last block of the tensor is nobody else's if it is hit.
  ghost predicate SparesOthers(e: Cache, s: int, positions: seq<nat>) {
    && SharedCount(e, s, BlockIndices(positions, e.cfg.blockSize)) <= |e.pool.free|
    && ((exists k :: 0 <= k < |positions| && Quot(positions[k], e.cfg.blockSize) >= |Blocks(e, s)|) ==>
          forall t :: t in e.owned && t != s ==> e.cfg.numBlocks - 1 !in e.owned[t])
  }

  // The rows show in another sequence that lists a block they go to.
  lemma AimedShows(d: Cache, g: Cache, l: int, s: int, positions: seq<nat>, rows: seq<KV>, k: nat, t: int, j: nat)
    requires Core(d) && |positions| == |rows| && 0 <= l < d.cfg.layers && k < |positions|
    requires g.cfg == d.cfg && g.table == d.table && g.cells == StoreCells(d, l, s, positions, rows, |positions|)
    requires j < |Blocks(d, t)| && Blocks(d, t)[j] == FromEnd(d, TableEntry(d, s, Quot(positions[k], d.cfg.blockSize)))
    ensures var q := j * d.cfg.blockSize + Rem(positions[k], d.cfg.blockSize);
      && q >= 0 && View(g, t, l, q) in rows
      && ((forall i :: k < i < |positions| ==> Rem(positions[i], d.cfg.blockSize) != Rem(positions[k], d.cfg.blockSize))
          ==> View(g, t, l, q) == rows[k])
  {
    hide Core, View, LastAt;
    var o := Rem(positions[k], d.cfg.blockSize);
    var q := j * d.cfg.blockSize + o;
    QuotUnique(q, j, o, d.cfg.blockSize);
    StoredView(d, g, l, s, positions, rows, t, l, q);
    assert Aims(d, s, positions[k], Blocks(d, t)[j], o);
    LastAtIsRow(d, s, positions, rows, |positions|, Blocks(d, t)[j], o);
    if forall i :: k < i < |positions| ==> Rem(positions[i], d.cfg.blockSize) != o {
      LastAtIsThis(d, s, positions, rows, k, |positions|, Blocks(d, t)[j], o);
    }
  }

  lemma {:induction false} LastAtIsThis(d: Cache, s: int, positions: seq<nat>, rows: seq<KV>, k: nat, n: nat, b: int,
                                        o: int)
    requires k < n <= |positions| == |rows| && Aims(d, s, positions[k], b, o)
    requires forall i :: k < i < n ==> Rem(positions[i], d.cfg.blockSize) != o
    ensures LastAt(d, s, positions, rows, n, b, o) == Some(rows[k])
  {
    if k < n - 1 { LastAtIsThis(d, s, positions, rows, k, n - 1, b, o); }
  }

  // A row goes to a block of another sequence only where that block is still
  // shared, or is the last one and the row has no block.
  lemma AimsAtOther(d: Cache, s: int, t: int, p: nat, q: nat)
    requires Core(d) && s in d.owned && t != s && Quot(p, d.cfg.blockSize) < d.cfg.maxBlocks
    requires Quot(q, d.cfg.blockSize) < |Blocks(d, t)| && Aims(d, s, p, BlockAt(d, t, q), Rem(q, d.cfg.blockSize))
    ensures IsShared(d, s, Quot(p, d.cfg.blockSize))
            || (Quot(p, d.cfg.blockSize) >= |Blocks(d, s)| && d.cfg.numBlocks - 1 in d.owned[t])
  {
    var i := Quot(p, d.cfg.blockSize);
    TableIs(d, s, i);
    var b := BlockAt(d, t, q);
    assert b in d.owned[t];
    if i < |Blocks(d, s)| {
      assert Blocks(d, s)[i] in d.owned[s];
      SoleOwner(d, s, t, b);
    }
  }

  lemma UnaimedStays(d: Cache, g: Cache, l: int, s: int, positions: seq<nat>, rows: seq<KV>, t: int, m: int, q: int)
    requires Core(d) && s in d.owned && t != s && |positions| == |rows| && AllAddressable(d, l, s, positions)
    requires g.cfg == d.cfg && g.table == d.table && g.cells == StoreCells(d, l, s, positions, rows, |positions|)
    requires forall k :: 0 <= k < |positions| ==> !IsShared(d, s, Quot(positions[k], d.cfg.blockSize))
    requires forall k :: 0 <= k < |positions| && Quot(positions[k], d.cfg.blockSize) >= |Blocks(d, s)| ==>
      d.cfg.numBlocks - 1 !in Blocks(d, t)
    ensures View(g, t, m, q) == View(d, t, m, q)
  {
    hide Core, View, LastAt, IsShared, Aims;
    StoredView(d, g, l, s, positions, rows, t, m, q);
    if m == l && Mapped(d, t, m, q) {
      LastAtIsRow(d, s, positions, rows, |positions|, BlockAt(d, t, q), Rem(q, d.cfg.blockSize));
      forall k | 0 <= k < |positions| ensures !Aims(d, s, positions[k], BlockAt(d, t, q), Rem(q, d.cfg.blockSize)) {
        if Aims(d, s, positions[k], BlockAt(d, t, q), Rem(q, d.cfg.blockSize)) {
          AimsAtOther(d, s, t, positions[k], q);
        }
      }
    }
  }

  ghost predicate OthersUnchanged(c: Cache, d: Cache, s: int) {
    forall t, m, q :: t != s && !Gone(c, d, t) ==> View(d, t, m, q) == View(c, t, m, q)
  }

  // Rows that nobody reads in this layer before the call.
  ghost predicate NewRows(c: Cache, l: int, rows: seq<KV>) {
    forall t, q :: View(c, t, l, q) !in rows
  }

  lemma IsolatedUnswapped(c: Cache, l: int, s: int, positions: seq<nat>, rows: seq<KV>)
    requires Inv(c) && |positions| == |rows| && AllAddressable(c, l, s, positions) && NewRows(c, l, rows)
    requires positions != [] && s !in c.swap.out && WriteKvBatch(c, l, s, positions, rows).Done?
    ensures OthersUnchanged(c, WriteKvBatch(c, l, s, positions, rows).c, s) <==>
            SparesOthers(Extended(c, s, positions), s, positions)
  {
    hide Core, LruOk, SwapOk, View, LastAt, CowEach, WriteBatchBlocks, Extended, WriteKvBatch, Missing, IsShared;
    ExtendedIs(c, l, s, positions, rows);
    var e := Extended(c, s, positions);
    var d := WrittenIs(e, l, s, positions, rows);
    var g := WriteBatchBlocks(e, l, s, positions, rows);
    if SparesOthers(e, s, positions) {
      forall t, m, q | t != s && !Gone(c, g, t) ensures View(g, t, m, q) == View(c, t, m, q) {
        assert Blocks(d, t) == Blocks(e, t);
        UnaimedStays(d, g, l, s, positions, rows, t, m, q);
        assert View(d, t, m, q) == View(e, t, m, q);
        assert !Gone(c, e, t);
      }
    } else {
      var k, t, j := LeakIs(e, d, l, s, positions);
      AimedShows(d, g, l, s, positions, rows, k, t, j);
      assert View(g, t, l, j * d.cfg.blockSize + Rem(positions[k], d.cfg.blockSize)) in rows;
    }
  }

  // A sequence that lists a block the batch goes to.
  lemma LeakIs(e: Cache, d: Cache, l: int, s: int, positions: seq<nat>) returns (k: nat, t: int, j: nat)
    requires Inv(e) && s in e.owned && AllAddressable(e, l, s, positions) && CopiesMeet(e, d, s)
    requires SharedCount(e, s, BlockIndices(positions, e.cfg.blockSize)) <= |e.pool.free| <==>
      forall k :: 0 <= k < |positions| ==> !IsShared(d, s, Quot(positions[k], e.cfg.blockSize))
    requires !SparesOthers(e, s, positions)
    ensures k < |positions| && t != s && t in d.owned && j < |Blocks(d, t)|
    ensures Blocks(d, t)[j] == FromEnd(d, TableEntry(d, s, Quot(positions[k], d.cfg.blockSize)))
  {
    hide View, SharedCount, LruOk, SwapOk, RefsExact, Occ;
    if i :| 0 <= i < |positions| && IsShared(d, s, Quot(positions[i], e.cfg.blockSize)) {
      k := i;
      var x := Quot(positions[k], d.cfg.blockSize);
      CowIsMapped(d, s, x);
      assert Blocks(d, s)[x] in d.owned[s];
      t, j := OtherListing(d, s, Blocks(d, s)[x]);
    } else {
      k :| 0 <= k < |positions| && Quot(positions[k], e.cfg.blockSize) >= |Blocks(e, s)|;
      TableIs(d, s, Quot(positions[k], d.cfg.blockSize));
      t :| t in e.owned && t != s && e.cfg.numBlocks - 1 in e.owned[t];
      assert Blocks(d, t) == Blocks(e, t);
      j :| 0 <= j < |Blocks(d, t)| && Blocks(d, t)[j] == e.cfg.numBlocks - 1;
    }
  }

  // ---- The swap area plays no part ----

  lemma BareCow(c: Cache, s: int, i: int, b: int)
    ensures CowIfShared(Bare(c), s, i, b) == (Bare(CowIfShared(c, s, i, b).0), CowIfShared(c, s, i, b).1)
  {
    hide Take, Release;
  }

  lemma {:induction false} BareCowEach(c: Cache, s: int, indices: seq<nat>)
    ensures CowEach(Bare(c), s, indices) == Bare(CowEach(c, s, indices))
    decreases |indices|
  {
    if indices != [] {
      hide CowIfShared;
      var physical := TableEntry(c, s, indices[0]);
      BareCow(c, s, indices[0], physical);
      BareCowEach(if physical >= 0 then CowIfShared(c, s, indices[0], physical).0 else c, s, indices[1..]);
    }
  }

  lemma {:induction false} BareStores(c: Cache, l: int, s: int, positions: seq<nat>, rows: seq<KV>, k: nat)
    requires k <= |positions| == |rows|
    ensures StoreCells(Bare(c), l, s, positions, rows, k) == StoreCells(c, l, s, positions, rows, k)
  {
    if k > 0 {
      hide Put;
      BareStores(c, l, s, positions, rows, k - 1);
    }
  }

  lemma {:induction false} BareCounts(c: Cache, s: int, indices: seq<nat>)
    ensures Missing(Bare(c), s, indices) == Missing(c, s, indices)
    ensures SharedCount(Bare(c), s, indices) == SharedCount(c, s, indices)
  {
    if indices != [] { BareCounts(c, s, indices[1..]); }
  }

  lemma BareBatchBlocks(c: Cache, l: int, s: int, positions: seq<nat>, rows: seq<KV>)
    requires |positions| == |rows|
    ensures WriteBatchBlocks(Bare(c), l, s, positions, rows) == Bare(WriteBatchBlocks(c, l, s, positions, rows))
  {
    hide Touch, StoreCells, CowEach, BlockIndices;
    var d := CowEach(c, s, BlockIndices(positions, c.cfg.blockSize));
    BareCowEach(c, s, BlockIndices(positions, c.cfg.blockSize));
    BareStores(d, l, s, positions, rows, |positions|);
    BareTouch(StoreBatch(d, l, s, positions, rows), s);
  }

  lemma BareBatch(c: Cache, l: int, s: int, positions: seq<nat>, rows: seq<KV>)
    requires |positions| == |rows|
    ensures WriteKvBatch(Bare(c), l, s, positions, rows) == BareOutcome(WriteKvBatch(c, l, s, positions, rows))
    ensures Extended(Bare(c), s, positions) == Bare(Extended(c, s, positions))
  {
    hide Allocate, WriteBatchBlocks, Missing, BlockIndices;
    var missing := Missing(c, s, BlockIndices(positions, c.cfg.blockSize));
    BareCounts(c, s, BlockIndices(positions, c.cfg.blockSize));
    BareAllocate(c, s, missing);
    BareBatchBlocks(c, l, s, positions, rows);
    if Allocate(c, s, missing).Granted? {
      BareBatchBlocks(Allocate(c, s, missing).c, l, s, positions, rows);
    }
  }

  // ---- The two promises, exactly ----

  // A batch of rows that are not zero reads back, each position its last
  // row, exactly when the blocks it adds cover all its positions.
  lemma BatchReadsBackIff(c: Cache, l: int, s: int, positions: seq<nat>, rows: seq<KV>)
    requires Inv(c) && |positions| == |rows| && AllAddressable(c, l, s, positions) && c.cfg.zero !in rows
    requires WriteKvBatch(c, l, s, positions, rows).Done?
    ensures AllReadBack(c, WriteKvBatch(c, l, s, positions, rows).c, l, s, positions, rows) <==>
      Gapless(c, s, positions)
  {
    hide Inv, View, WriteKvBatch, Extended, Bare, Gapless, AllReadBack, AllAddressable, NewRows;
    BareInv(c);
    BareBatch(c, l, s, positions, rows);
    BareBefore(c, l, s, positions, rows);
    BareConfig(c);
    ReadsBackUnswapped(Bare(c), l, s, positions, rows);
    BareReadsBack(c, WriteKvBatch(c, l, s, positions, rows).c, l, s, positions, rows);
  }

  lemma BareConfig(c: Cache)
    ensures Bare(c).cfg == c.cfg
  {
  }

  lemma BareReadsBack(c: Cache, d: Cache, l: int, s: int, positions: seq<nat>, rows: seq<KV>)
    requires |positions| == |rows|
    ensures AllReadBack(Bare(c), Bare(d), l, s, positions, rows) <==> AllReadBack(c, d, l, s, positions, rows)
  {
    BareReads(d);
    hide View, LastRow;
    assert forall k :: 0 <= k < |positions| ==> View(Bare(d), s, l, positions[k]) == View(d, s, l, positions[k]);
  }

  // A batch of new rows leaves every other sequence alone, evictions aside,
  // exactly when, its blocks allocated, enough are free to copy the shared
  // ones it goes to, and no other sequence has the last block of the tensor
  // if a position is left without a block.
  lemma BatchIsolatedIff(c: Cache, l: int, s: int, positions: seq<nat>, rows: seq<KV>)
    requires Inv(c) && |positions| == |rows| && AllAddressable(c, l, s, positions) && NewRows(c, l, rows)
    requires WriteKvBatch(c, l, s, positions, rows).Done?
    ensures OthersUnchanged(c, WriteKvBatch(c, l, s, positions, rows).c, s) <==>
            SparesOthers(Extended(c, s, positions), s, positions)
  {
    hide Inv, View, WriteKvBatch, Extended, Bare, NewRows, OthersUnchanged, SparesOthers, AllAddressable;
    if positions != [] {
      BareInv(c);
      BareBatch(c, l, s, positions, rows);
      BareBefore(c, l, s, positions, rows);
      BareUnchanged(c, WriteKvBatch(c, l, s, positions, rows).c, s);
      BareSpares(Extended(c, s, positions), s, positions);
      IsolatedUnswapped(Bare(c), l, s, positions, rows);
    } else {
      NoRows(c, l, s, rows);
    }
  }

  lemma BareBefore(c: Cache, l: int, s: int, positions: seq<nat>, rows: seq<KV>)
    ensures Bare(c).swap.out == map[]
    ensures AllAddressable(Bare(c), l, s, positions) <==> AllAddressable(c, l, s, positions)
    ensures NewRows(Bare(c), l, rows) <==> NewRows(c, l, rows)
    ensures Gapless(Bare(c), s, positions) <==> Gapless(c, s, positions)
  {
    BareReads(c);
    BareCounts(c, s, BlockIndices(positions, c.cfg.blockSize));
    hide View, BlockIndices, Missing, Quot;
    assert forall t, q :: View(Bare(c), t, l, q) == View(c, t, l, q);
  }

  lemma BareUnchanged(c: Cache, d: Cache, s: int)
    ensures OthersUnchanged(Bare(c), Bare(d), s) <==> OthersUnchanged(c, d, s)
  {
    BareReads(c);
    BareReads(d);
    hide View;
    assert forall t :: Gone(Bare(c), Bare(d), t) <==> Gone(c, d, t);
    assert forall t, m, q :: View(Bare(d), t, m, q) == View(d, t, m, q);
    assert forall t, m, q :: View(Bare(c), t, m, q) == View(c, t, m, q);
  }

  lemma BareSpares(e: Cache, s: int, positions: seq<nat>)
    ensures SparesOthers(Bare(e), s, positions) <==> SparesOthers(e, s, positions)
  {
    BareCounts(e, s, BlockIndices(positions, e.cfg.blockSize));
    hide BlockIndices, SharedCount, Quot;
  }

  lemma NoRows(c: Cache, l: int, s: int, rows: seq<KV>)
    requires rows == []
    ensures WriteKvBatch(c, l, s, [], rows) == Done(c) && SparesOthers(Extended(c, s, []), s, [])
    ensures OthersUnchanged(c, c, s)
  {
  }

  lemma OverwritesUnswapped(c: Cache, l: int, s: int, positions: seq<nat>, rows: seq<KV>, k: nat, t: int, j: nat)
    requires Inv(c) && |positions| == |rows| && AllAddressable(c, l, s, positions) && s !in c.swap.out
    requires WriteKvBatch(c, l, s, positions, rows).Done? && k < |positions|
    requires forall i :: k < i < |positions| ==>
      Rem(positions[i], c.cfg.blockSize) != Rem(positions[k], c.cfg.blockSize)
    requires Quot(positions[k], c.cfg.blockSize) >= |Blocks(Extended(c, s, positions), s)|
    requires var e := Extended(c, s, positions); t != s && j < |Blocks(e, t)| && Blocks(e, t)[j] == c.cfg.numBlocks - 1
    ensures var q := j * c.cfg.blockSize + Rem(positions[k], c.cfg.blockSize);
      View(WriteKvBatch(c, l, s, positions, rows).c, t, l, q) == rows[k]
  {
    hide Core, LruOk, SwapOk, View, LastAt, CowEach, WriteBatchBlocks, Extended, WriteKvBatch, Missing, IsShared;
    ExtendedIs(c, l, s, positions, rows);
    var e := Extended(c, s, positions);
    var d := WrittenIs(e, l, s, positions, rows);
    CellCount(d);
    TableIs(d, s, Quot(positions[k], c.cfg.blockSize));
    assert Blocks(d, t) == Blocks(e, t);
    AimedShows(d, WriteBatchBlocks(e, l, s, positions, rows), l, s, positions, rows, k, t, j);
  }

  lemma CellCount(c: Cache)
    requires Inv(c)
    ensures |c.cells| == c.cfg.numBlocks
  {
  }

  // Where a row without a block goes: it shows in whichever other sequence
  // has the last block of the tensor, at the same offset, unless a later row
  // of that offset takes its place.
  lemma GapOverwrites(c: Cache, l: int, s: int, positions: seq<nat>, rows: seq<KV>, k: nat, t: int, j: nat)
    requires Inv(c) && |positions| == |rows| && AllAddressable(c, l, s, positions)
    requires WriteKvBatch(c, l, s, positions, rows).Done? && k < |positions|
    requires forall i :: k < i < |positions| ==>
      Rem(positions[i], c.cfg.blockSize) != Rem(positions[k], c.cfg.blockSize)
    requires Quot(positions[k], c.cfg.blockSize) >= |Blocks(Extended(c, s, positions), s)|
    requires var e := Extended(c, s, positions); t != s && j < |Blocks(e, t)| && Blocks(e, t)[j] == c.cfg.numBlocks - 1
    ensures var q := j * c.cfg.blockSize + Rem(positions[k], c.cfg.blockSize);
      View(WriteKvBatch(c, l, s, positions, rows).c, t, l, q) == rows[k]
  {
    hide Inv, View, WriteKvBatch, Extended, Quot, Rem;
    BareInv(c);
    BareBatch(c, l, s, positions, rows);
    BareReads(WriteKvBatch(c, l, s, positions, rows).c);
    assert Blocks(Bare(Extended(c, s, positions)), t) == Blocks(Extended(c, s, positions), t);
    OverwritesUnswapped(Bare(c), l, s, positions, rows, k, t, j);
  }
}
