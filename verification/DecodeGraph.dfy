// The graph-mode attributes of the cache (kv_cache.py), grouped in an object
// of their own: the static block table and lengths of a captured batch.
module DecodeGraph {
  import opened Prelude
  import opened CacheSpec
  import opened CacheInv
  import opened CacheSteps
  import opened CacheArrays
  import opened GroupedStore
  import opened GraphMode
  import opened PagedFacts
  import opened PagedCache

  class DecodeGraph {
    const cache: PagedKVCache
    var on: bool
    var ready: bool
    var table: array2<int>
    var lens: array<int>

    ghost function Value(): Graph
      reads this, table, lens
    {
      Graph(on, if ready then Some(Buffers(RowsOf(table), lens[..])) else None)
    }

    ghost predicate Valid()
      reads this
    {
      && table.Length0 == lens.Length && (ready ==> table.Length1 == cache.cfg.maxBlocks)
      && table != cache.blockTable && lens != cache.seqLens
      && table !in cache.pool.repr && lens !in cache.pool.repr && this !in cache.pool.repr
    }

    constructor (cache: PagedKVCache)
      requires cache.Valid()
      ensures Valid() && this.cache == cache && Value() == Graph(false, None)
      ensures fresh(table) && fresh(lens)
    {
      this.cache, on, ready := cache, false, false;
      var t := new int[0, 0];
      var n := new int[0];
      table, lens := t, n;
    }

    method InitGraphBuffers(size: nat) returns (ok: bool)
      requires Valid() && cache.Valid()
      modifies this, cache, cache.pool.repr, cache.cells
      ensures Valid() && cache.Valid()
      ensures ok == CacheSpec.InitGraphBuffers(old(cache.state)).Some?
      ensures cache.state == if ok then CacheSpec.InitGraphBuffers(old(cache.state)).value else old(cache.state)
      ensures ok ==> cache.state.dummy.Some? && Value() == Graph(old(on), Some(MakeBuffers(cache.state, size)))
    {
      hide Inv, PagedKVCache.Is;
      ok := cache.TakeDummy();
      if !ok { return; }
      var dummy := cache.DummyBlock();
      var t := new int[size, cache.cfg.maxBlocks]((i, j) => dummy);
      var n := new int[size](i => 1);
      table, lens, ready := t, n, true;
      cache.CfgIs();
      RowsAre(table, MakeBuffers(cache.state, size).table);
      assert lens[..] == MakeBuffers(cache.state, size).lens;
    }

    // Copies the rows of the batch to the front and fills up with padding.
    method EnterGraphMode(ids: seq<int>)
      requires Valid() && cache.Valid() && Batched(cache.state, ids)
      requires ready ==> cache.state.dummy.Some? && |ids| <= lens.Length
      modifies this, table, lens
      ensures Valid() && table == old(table) && lens == old(lens)
      ensures Value() == GraphMode.EnterGraphMode(cache.state, old(Value()), ids)
    {
      hide Inv, PagedKVCache.Is, RowsOf;
      if !ready { return; }
      ghost var c, g := cache.state, Value();
      cache.CfgIs();
      cache.CellsAre();
      cache.TableAre();
      WholeTableSize(c);
      var dummy := cache.DummyBlock();
      FillTable(ids, dummy);
      FillLens(ids);
      on := true;
      Entered(c, g, ids);
    }

    lemma Entered(c: Cache, g: Graph, ids: seq<int>)
      requires on && ready && table.Length0 == lens.Length && table.Length1 == c.cfg.maxBlocks
      requires g.buffers.Some? && |g.buffers.value.table| == lens.Length && |ids| <= lens.Length && c.dummy.Some?
      requires RowsOf(cache.blockTable) == c.table && cache.seqLens[..] == c.lens
      requires cache.blockTable.Length1 == c.cfg.maxBlocks
      requires forall i :: 0 <= i < |ids| ==> 0 <= ids[i] < |c.table| == |c.lens|
      requires forall i, j :: 0 <= i < table.Length0 && 0 <= j < table.Length1 ==>
        table[i, j] == if i < |ids| then cache.blockTable[ids[i], j] else c.dummy.value
      requires forall i :: 0 <= i < lens.Length ==> lens[i] == if i < |ids| then cache.seqLens[ids[i]] else 1
      ensures Value() == GraphMode.EnterGraphMode(c, g, ids)
    {
      var after := GraphMode.EnterGraphMode(c, g, ids).buffers.value;
      forall i | 0 <= i < |ids|
        ensures RowOf(c, ids[i]) == RowsOf(cache.blockTable)[ids[i]] && Length(c, ids[i]) == cache.seqLens[ids[i]]
      {
        assert cache.seqLens[..][ids[i]] == cache.seqLens[ids[i]];
      }
      RowsAre(table, after.table);
      assert lens[..] == after.lens;
    }

    method FillTable(ids: seq<int>, dummy: int)
      requires |ids| <= table.Length0 && table.Length1 == cache.blockTable.Length1 && table != cache.blockTable
      requires forall i :: 0 <= i < |ids| ==> 0 <= ids[i] < cache.blockTable.Length0
      modifies table
      ensures forall i, j :: 0 <= i < table.Length0 && 0 <= j < table.Length1 ==>
        table[i, j] == if i < |ids| then cache.blockTable[ids[i], j] else dummy
    {
      for i := 0 to table.Length0
        invariant forall k, j :: 0 <= k < i && 0 <= j < table.Length1 ==>
          table[k, j] == if k < |ids| then cache.blockTable[ids[k], j] else dummy
      {
        for j := 0 to table.Length1
          invariant forall m :: 0 <= m < j ==> table[i, m] == if i < |ids| then cache.blockTable[ids[i], m] else dummy
          invariant forall k, m :: 0 <= k < i && 0 <= m < table.Length1 ==>
            table[k, m] == if k < |ids| then cache.blockTable[ids[k], m] else dummy
        {
          table[i, j] := if i < |ids| then cache.blockTable[ids[i], j] else dummy;
        }
      }
    }

    method FillLens(ids: seq<int>)
      requires |ids| <= lens.Length && lens != cache.seqLens
      requires forall i :: 0 <= i < |ids| ==> 0 <= ids[i] < cache.seqLens.Length
      modifies lens
      ensures forall i :: 0 <= i < lens.Length ==> lens[i] == if i < |ids| then cache.seqLens[ids[i]] else 1
    {
      for i := 0 to lens.Length
        invariant forall k :: 0 <= k < i ==> lens[k] == if k < |ids| then cache.seqLens[ids[k]] else 1
      {
        lens[i] := if i < |ids| then cache.seqLens[ids[i]] else 1;
      }
    }

    // Every row of the padded batch names a block somebody holds.
    ghost predicate Routed(positions: seq<nat>)
      reads this, table, cache`state
      requires |positions| <= table.Length0
    {
      forall t :: 0 <= t < |positions| ==>
        && Quot(positions[t], cache.cfg.blockSize) < table.Length1
        && 0 < table[t, Quot(positions[t], cache.cfg.blockSize)] < cache.cfg.numBlocks
        && table[t, Quot(positions[t], cache.cfg.blockSize)] < |cache.state.pool.refs|
        && cache.state.pool.refs[table[t, Quot(positions[t], cache.cfg.blockSize)]] > 0
    }

    method GatherRows(positions: seq<nat>) returns (targets: seq<int>)
      requires |positions| <= table.Length0 && Routed(positions)
      ensures |targets| == |positions|
      ensures forall t :: 0 <= t < |positions| ==>
        && targets[t] == Target(RowsOf(table)[t], positions[t], cache.cfg.blockSize)
        && 0 < targets[t] < cache.cfg.numBlocks && targets[t] < |cache.state.pool.refs|
        && cache.state.pool.refs[targets[t]] > 0
    {
      targets := [];
      for t := 0 to |positions|
        invariant |targets| == t
        invariant forall j :: 0 <= j < t ==>
          && targets[j] == Target(RowsOf(table)[j], positions[j], cache.cfg.blockSize)
          && 0 < targets[j] < cache.cfg.numBlocks && targets[j] < |cache.state.pool.refs|
          && cache.state.pool.refs[targets[j]] > 0
      {
        targets := targets + [Max(table[t, Quot(positions[t], cache.cfg.blockSize)], 0)];
      }
    }

    // write_kv_decode in graph mode.
    method WriteKvDecode(l: int, positions: seq<nat>, rows: seq<KV>)
      requires Valid() && cache.Valid() && on && ready && 0 <= l < cache.cfg.layers
      requires |positions| == |rows| <= lens.Length && Routed(positions)
      modifies cache`state, cache.cells, lens
      ensures Valid() && cache.Valid()
      ensures var (c, b) := GraphDecode(old(cache.state), old(Value()).buffers.value, l, positions, rows);
        cache.state == c && Value() == Graph(true, Some(b))
    {
      hide Inv, PagedKVCache.Is, Target;
      ghost var c, b := cache.state, Value().buffers.value;
      cache.CfgIs();
      var targets := GatherRows(positions);
      var offsets := seq(|positions|, t requires 0 <= t < |positions| => Rem(positions[t], cache.cfg.blockSize));
      var batch := Batch(l, targets, offsets, rows);
      DecodeInOrder(c.cells, c.cfg.blockSize, l, b.table, positions, rows, batch, |rows|);
      cache.StoreDecode(batch);
      GrowLens(positions);
      assert Value().buffers.value.table == b.table;
    }

    method GrowLens(positions: seq<nat>)
      requires |positions| <= lens.Length
      modifies lens
      ensures lens[..] == Grown(old(lens[..]), positions) + old(lens[..])[|positions|..]
    {
      ghost var was := lens[..];
      ghost var all := Grown(was, positions) + was[|positions|..];
      for i := 0 to |positions|
        invariant forall j :: 0 <= j < lens.Length ==> lens[j] == if j < i then all[j] else was[j]
      {
        lens[i] := Max(lens[i], positions[i] + 1);
      }
      assert lens[..] == all;
    }

    // Turns graph mode off and copies the lengths of the batch back.
    method ExitGraphMode(ids: Option<seq<int>>)
      requires Valid() && cache.Valid()
      requires ids.Some? && ready ==> Batched(cache.state, ids.value) && |ids.value| <= lens.Length
      requires ready ==> forall i :: 0 <= i < lens.Length ==> lens[i] >= 0
      modifies this, cache`state, cache.seqLens
      ensures Valid() && cache.Valid()
      ensures (cache.state, Value()) == GraphMode.ExitGraphMode(old(cache.state), old(Value()), ids)
    {
      hide Inv, PagedKVCache.Is, RowsOf;
      on := false;
      if ids.Some? && ready {
        cache.ScatterLens(ids.value, lens[..]);
      }
    }
  }
}
