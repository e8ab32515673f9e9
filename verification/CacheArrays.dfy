// The tensors of the paged cache as arrays, and the loops that update them
// in place (tr_hash_i64/core/kv_cache.py).
module CacheArrays {
  import opened Prelude
  import opened CacheSpec
  import opened CacheInv

  // ---- The block table ----

  ghost function RowsOf(table: array2<int>): (r: seq<seq<int>>)
    reads table
    ensures |r| == table.Length0 && forall s :: 0 <= s < |r| ==> |r[s]| == table.Length1
    ensures forall s, i :: 0 <= s < |r| && 0 <= i < |r[s]| ==> r[s][i] == table[s, i]
  {
    seq(table.Length0, s requires 0 <= s < table.Length0 reads table =>
      seq(table.Length1, i requires 0 <= i < table.Length1 reads table => table[s, i]))
  }

  lemma RowsAre(table: array2<int>, r: seq<seq<int>>)
    requires |r| == table.Length0 && forall s :: 0 <= s < |r| ==> |r[s]| == table.Length1
    requires forall s, i :: 0 <= s < |r| && 0 <= i < |r[s]| ==> r[s][i] == table[s, i]
    ensures RowsOf(table) == r
  {
    var q := RowsOf(table);
    forall s | 0 <= s < |r| ensures q[s] == r[s] {}
  }

  method FillRow(table: array2<int>, s: int, start: nat, ids: seq<int>)
    requires 0 <= s < table.Length0 && start + |ids| <= table.Length1
    modifies table
    ensures RowsOf(table) == Upd(old(RowsOf(table)), s, SetRow(old(RowsOf(table))[s], start, ids))
  {
    ghost var was := RowsOf(table);
    for i := 0 to |ids|
      invariant forall t, j :: 0 <= t < |was| && 0 <= j < |was[t]| ==>
        table[t, j] == if t == s && start <= j < start + i then ids[j - start] else was[t][j]
    {
      table[s, start + i] := ids[i];
    }
    RowsAre(table, Upd(was, s, SetRow(was[s], start, ids)));
  }

  method WipeRow(table: array2<int>, s: int, n: nat)
    requires 0 <= s < table.Length0 && n <= table.Length1
    modifies table
    ensures RowsOf(table) == Upd(old(RowsOf(table)), s, ClearRow(old(RowsOf(table))[s], n))
  {
    ghost var was := RowsOf(table);
    for i := 0 to n
      invariant forall t, j :: 0 <= t < |was| && 0 <= j < |was[t]| ==>
        table[t, j] == if t == s && j < i then -1 else was[t][j]
    {
      table[s, i] := -1;
    }
    RowsAre(table, Upd(was, s, ClearRow(was[s], n)));
  }

  method SetEntry(table: array2<int>, s: int, i: int, b: int)
    requires 0 <= s < table.Length0 && 0 <= i < table.Length1
    modifies table
    ensures RowsOf(table) == Upd(old(RowsOf(table)), s, Upd(old(RowsOf(table))[s], i, b))
  {
    ghost var was := RowsOf(table);
    table[s, i] := b;
    RowsAre(table, Upd(was, s, Upd(was[s], i, b)));
  }

  // ---- Blocks ----

  // Layer by layer.
  method ZeroBlock(cells: array<Content>, b: int, cfg: Config)
    requires 0 <= b < cells.Length && HasShape(cells[b], cfg)
    modifies cells
    ensures cells[..] == old(cells[..])[b := ZeroContent(cfg)]
  {
    ghost var was := cells[..];
    for l := 0 to cfg.layers
      invariant cells[..] == was[b := cells[b]] && HasShape(cells[b], cfg)
      invariant forall m :: 0 <= m < l ==> cells[b][m] == ZeroContent(cfg)[m]
    {
      cells[b] := cells[b][l := seq(cfg.blockSize, o => cfg.zero)];
    }
    assert cells[b] == ZeroContent(cfg);
  }

  method CopyBlock(dst: array<Content>, to: int, src: array<Content>, from: int, cfg: Config)
    requires 0 <= to < dst.Length && 0 <= from < src.Length && HasShape(dst[to], cfg) && HasShape(src[from], cfg)
    requires dst == src ==> to != from
    modifies dst
    ensures dst[..] == old(dst[..])[to := old(src[from])]
  {
    ghost var was, content := dst[..], src[from];
    for l := 0 to cfg.layers
      invariant dst[..] == was[to := dst[to]] && HasShape(dst[to], cfg)
      invariant src[from] == content
      invariant forall m :: 0 <= m < l ==> dst[to][m] == content[m]
    {
      dst[to] := dst[to][l := src[from][l]];
    }
    assert dst[to] == content;
  }

  method StoreCell(cells: array<Content>, b: int, l: int, o: int, v: KV)
    requires 0 <= b < cells.Length && 0 <= l < |cells[b]| && 0 <= o < |cells[b][l]|
    modifies cells
    ensures cells[..] == Put(old(cells[..]), b, l, o, v)
  {
    cells[b] := cells[b][l := cells[b][l][o := v]];
  }

  method MakeTensors(cfg: Config) returns (cells: array<Content>, table: array2<int>, lens: array<int>)
    requires cfg.numBlocks > 0
    ensures fresh(cells) && fresh(table) && fresh(lens)
    ensures cells[..] == Init(cfg).cells && RowsOf(table) == Init(cfg).table && lens[..] == Init(cfg).lens
    ensures table.Length1 == cfg.maxBlocks
  {
    cells := new Content[cfg.numBlocks](b => ZeroContent(cfg));
    table := new int[cfg.maxSeqs, cfg.maxBlocks]((s, i) => -1);
    lens := new int[cfg.maxSeqs](s => 0);
    RowsAre(table, Init(cfg).table);
  }
}
