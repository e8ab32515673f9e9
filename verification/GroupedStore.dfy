// The two ways write_kv_batch stores its rows: one after the other, or
// grouped by physical block; they leave the same tensors
// (tr_hash_i64/core/kv_cache.py).
module GroupedStore {
  import opened Prelude
  import opened CacheSpec
  import opened CacheArrays

  // Row t of the batch goes to block targets[t], offset offsets[t].
  datatype Batch = Batch(l: int, targets: seq<int>, offsets: seq<nat>, rows: seq<KV>)

  ghost predicate Fits(b: Batch, cells: seq<Content>, cfg: Config) {
    && |b.targets| == |b.offsets| == |b.rows| && 0 <= b.l < cfg.layers
    && (forall i :: 0 <= i < |cells| ==> HasShape(cells[i], cfg))
    && (forall t :: 0 <= t < |b.targets| ==> 0 <= b.targets[t] < |cells| && b.offsets[t] < cfg.blockSize)
  }

  ghost function InOrder(cells: seq<Content>, b: Batch, k: nat): (r: seq<Content>)
    requires |b.targets| == |b.offsets| == |b.rows| && k <= |b.rows|
    ensures |r| == |cells|
  {
    if k == 0 then cells
    else Put(InOrder(cells, b, k - 1), b.targets[k - 1], b.l, b.offsets[k - 1], b.rows[k - 1])
  }

  // The rows of the batch that go to one block, in batch order.
  ghost function Hits(targets: seq<int>, k: nat, block: int): (r: seq<nat>)
    requires k <= |targets|
    ensures forall j :: 0 <= j < |r| ==> r[j] < k && targets[r[j]] == block
    ensures block !in targets[..k] ==> r == []
  {
    if k == 0 then []
    else
      assert targets[..k - 1] == targets[..k][..k - 1];
      Hits(targets, k - 1, block) + if targets[k - 1] == block then [k - 1] else []
  }

  lemma HitsMore(targets: seq<int>, k: nat, block: int)
    requires k < |targets|
    ensures Hits(targets, k + 1, block) ==
            if targets[k] == block then Hits(targets, k, block) + [k] else Hits(targets, k, block)
  {
  }

  lemma NoHits(targets: seq<int>, k: nat, block: int)
    requires k <= |targets| && block !in targets[..k]
    ensures Hits(targets, k, block) == []
  {
  }

  // Adding one more row to its group.
  lemma GroupedOneMore(targets: seq<int>, t: nat, groups: map<int, seq<nat>>)
    requires t < |targets| && forall block :: block in groups ==> groups[block] == Hits(targets, t, block)
    requires targets[t] !in groups ==> targets[t] !in targets[..t]
    ensures var now := groups[targets[t] := (if targets[t] in groups then groups[targets[t]] else []) + [t]];
      forall block :: block in now ==> now[block] == Hits(targets, t + 1, block)
  {
    hide Hits;
    if targets[t] !in groups { NoHits(targets, t, targets[t]); }
    forall block ensures Hits(targets, t + 1, block) ==
                         if targets[t] == block then Hits(targets, t, block) + [t] else Hits(targets, t, block)
    {
      HitsMore(targets, t, block);
    }
  }

  function PutRow(content: Content, l: int, o: int, v: KV): Content {
    if 0 <= l < |content| && 0 <= o < |content[l]| then content[l := content[l][o := v]] else content
  }

  ghost predicate Within(b: Batch, list: seq<nat>) {
    |b.offsets| == |b.rows| && forall j :: 0 <= j < |list| ==> list[j] < |b.rows|
  }

  ghost function Folded(content: Content, b: Batch, list: seq<nat>): Content
    requires Within(b, list)
  {
    if list == [] then content
    else
      var t := list[|list| - 1];
      PutRow(Folded(content, b, list[..|list| - 1]), b.l, b.offsets[t], b.rows[t])
  }

  lemma PutAt(cells: seq<Content>, block: int, l: int, o: int, v: KV, i: nat)
    requires i < |cells|
    ensures Put(cells, block, l, o, v)[i] == if i == block then PutRow(cells[i], l, o, v) else cells[i]
  {
  }

  lemma FoldedOneMore(content: Content, b: Batch, list: seq<nat>, t: nat)
    requires Within(b, list) && t < |b.rows|
    ensures Folded(content, b, list + [t]) == PutRow(Folded(content, b, list), b.l, b.offsets[t], b.rows[t])
  {
    assert (list + [t])[..|list|] == list;
  }

  // Storing in order, seen from one block: only its own rows matter.
  lemma {:induction false} InOrderByBlock(cells: seq<Content>, b: Batch, k: nat, i: nat)
    requires |b.targets| == |b.offsets| == |b.rows| && k <= |b.rows| && i < |cells|
    ensures InOrder(cells, b, k)[i] == Folded(cells[i], b, Hits(b.targets, k, i))
  {
    hide InOrder, Hits, Folded, Put, PutRow, Within;
    if k == 0 {
      NoneStored(cells, b, i);
    } else {
      InOrderByBlock(cells, b, k - 1, i);
      StoredOneMore(cells, b, k, i);
      if b.targets[k - 1] == i {
        HitsWithin(b, k - 1, i);
        FoldedOneMore(cells[i], b, Hits(b.targets, k - 1, i), k - 1);
      }
    }
  }

  lemma HitsWithin(b: Batch, k: nat, i: nat)
    requires |b.targets| == |b.offsets| == |b.rows| && k <= |b.rows|
    ensures Within(b, Hits(b.targets, k, i))
  {
  }

  lemma NoneStored(cells: seq<Content>, b: Batch, i: nat)
    requires |b.targets| == |b.offsets| == |b.rows| && i < |cells|
    ensures InOrder(cells, b, 0) == cells && Folded(cells[i], b, Hits(b.targets, 0, i)) == cells[i]
  {
  }

  lemma StoredOneMore(cells: seq<Content>, b: Batch, k: nat, i: nat)
    requires |b.targets| == |b.offsets| == |b.rows| && 0 < k <= |b.rows| && i < |cells|
    ensures InOrder(cells, b, k)[i] ==
            if b.targets[k - 1] == i then PutRow(InOrder(cells, b, k - 1)[i], b.l, b.offsets[k - 1], b.rows[k - 1])
            else InOrder(cells, b, k - 1)[i]
    ensures var before := Hits(b.targets, k - 1, i);
      Hits(b.targets, k, i) == if b.targets[k - 1] == i then before + [k - 1] else before
  {
    hide Put, PutRow, Hits;
    HitsMore(b.targets, k - 1, i);
    PutAt(InOrder(cells, b, k - 1), b.targets[k - 1], b.l, b.offsets[k - 1], b.rows[k - 1], i);
  }

  lemma {:induction false} FoldedShape(content: Content, b: Batch, list: seq<nat>, cfg: Config)
    requires HasShape(content, cfg) && Within(b, list)
    ensures HasShape(Folded(content, b, list), cfg)
  {
    if list != [] {
      FoldedShape(content, b, list[..|list| - 1], cfg);
    }
  }

  // One store per row, as done for up to four rows.
  method StoreInOrder(cells: array<Content>, b: Batch, cfg: Config)
    requires Fits(b, cells[..], cfg)
    modifies cells
    ensures cells[..] == InOrder(old(cells[..]), b, |b.rows|)
  {
    ghost var was := cells[..];
    for t := 0 to |b.rows|
      invariant cells[..] == InOrder(was, b, t)
    {
      ghost var i := b.targets[t];
      InOrderByBlock(was, b, t, i);
      FoldedShape(was[i], b, Hits(b.targets, t, i), cfg);
      assert cells[..][i] == cells[i];
      StoreCell(cells, b.targets[t], b.l, b.offsets[t], b.rows[t]);
    }
  }

  // The groups in order of first appearance, and their rows.
  method GroupByBlock(targets: seq<int>) returns (order: seq<int>, groups: map<int, seq<nat>>)
    ensures Distinct(order) && forall block :: block in order <==> block in targets
    ensures forall block :: block in order ==> block in groups && groups[block] == Hits(targets, |targets|, block)
  {
    hide Hits, Elements;
    order, groups := [], map[];
    for t := 0 to |targets|
      invariant Distinct(order) && forall block :: block in groups <==> block in order
      invariant forall block :: block in order <==> block in targets[..t]
      invariant forall block :: block in groups ==> groups[block] == Hits(targets, t, block)
    {
      var block := targets[t];
      assert targets[..t + 1] == targets[..t] + [block];
      GroupedOneMore(targets, t, groups);
      if block in groups {
        groups := groups[block := groups[block] + [t]];
      } else {
        order, groups := order + [block], groups[block := [t]];
      }
    }
    assert targets[..|targets|] == targets;
  }

  // All rows of one group.
  method StoreGroup(cells: array<Content>, b: Batch, block: int, list: seq<nat>, cfg: Config)
    requires Fits(b, cells[..], cfg) && 0 <= block < cells.Length
    requires Within(b, list)
    modifies cells
    ensures cells[..] == old(cells[..])[block := Folded(old(cells[..])[block], b, list)]
  {
    ghost var was := cells[..];
    for j := 0 to |list|
      invariant cells[..] == was[block := Folded(was[block], b, list[..j])]
    {
      FoldedShape(was[block], b, list[..j], cfg);
      assert cells[..][block] == cells[block];
      StoreCell(cells, block, b.l, b.offsets[list[j]], b.rows[list[j]]);
      assert list[..j + 1][..j] == list[..j];
    }
    assert list[..|list|] == list;
  }

  // Group by group, as done for longer batches: the same result.
  method StoreGrouped(cells: array<Content>, b: Batch, cfg: Config)
    requires Fits(b, cells[..], cfg)
    modifies cells
    ensures cells[..] == InOrder(old(cells[..]), b, |b.rows|)
  {
    ghost var was, n := cells[..], |b.rows|;
    var order, groups := GroupByBlock(b.targets);
    for j := 0 to |order|
      invariant Grouped(was, cells[..], b, order[..j])
    {
      assert order[..j + 1] == order[..j] + [order[j]] && order[j] in order;
      assert order[j] !in order[..j];
      KeepsShape(was, cells[..], b, order[..j], cfg);
      StoreGroup(cells, b, order[j], groups[order[j]], cfg);
    }
    assert order[..|order|] == order;
    AllGrouped(was, cells[..], b, order);
  }

  ghost predicate Grouped(was: seq<Content>, now: seq<Content>, b: Batch, done: seq<int>)
    requires |b.targets| == |b.offsets| == |b.rows|
  {
    && |now| == |was|
    && forall i :: 0 <= i < |was| ==>
       now[i] == if i in done then Folded(was[i], b, Hits(b.targets, |b.rows|, i)) else was[i]
  }

  lemma AllGrouped(was: seq<Content>, now: seq<Content>, b: Batch, order: seq<int>)
    requires |b.targets| == |b.offsets| == |b.rows| && Grouped(was, now, b, order)
    requires forall block :: block in order <==> block in b.targets
    ensures now == InOrder(was, b, |b.rows|)
  {
    var n := |b.rows|;
    assert b.targets[..n] == b.targets;
    forall i: nat | i < |was| ensures now[i] == InOrder(was, b, n)[i] { InOrderByBlock(was, b, n, i); }
  }

  lemma KeepsShape(was: seq<Content>, now: seq<Content>, b: Batch, done: seq<int>, cfg: Config)
    requires Fits(b, was, cfg) && Grouped(was, now, b, done)
    ensures Fits(b, now, cfg)
  {
    forall i | 0 <= i < |now| ensures HasShape(now[i], cfg) {
      assert HasShape(was[i], cfg);
      FoldedShape(was[i], b, Hits(b.targets, |b.rows|, i), cfg);
    }
  }
}
