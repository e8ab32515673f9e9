// Decoding through captured CUDA graphs: the second block table, the batch
// padded to a captured size, and the proof that it leaves the cache as eager
// decoding would (kv_cache.py, cuda_graph.py).
module GraphMode {
  import opened Prelude
  import opened PoolSpec
  import opened CacheSpec
  import opened CacheInv
  import opened CacheView
  import opened CacheSteps

  // The static buffers a captured graph reads.
  datatype Buffers = Buffers(table: seq<seq<int>>, lens: seq<int>)
  datatype Graph = Graph(on: bool, buffers: Option<Buffers>)

  function MakeBuffers(c: Cache, size: nat): Buffers
    requires c.dummy.Some?
  {
    Buffers(seq(size, i => seq(c.cfg.maxBlocks, j => c.dummy.value)), seq(size, i => 1))
  }

  // The given sequences' rows in front, padding rows behind.
  function EnterGraphMode(c: Cache, g: Graph, ids: seq<int>): Graph
    requires g.buffers.Some? ==> c.dummy.Some? && |ids| <= |g.buffers.value.table|
  {
    if g.buffers.None? then g
    else
      var size := |g.buffers.value.table|;
      Graph(true, Some(Buffers(
        seq(size, i requires 0 <= i < size =>
          if i < |ids| then RowOf(c, ids[i]) else seq(c.cfg.maxBlocks, j => c.dummy.value)),
        seq(size, i requires 0 <= i < size => if i < |ids| then Length(c, ids[i]) else 1))))
  }

  // Scatters values over lens, one index after the other.
  function Scatter(lens: seq<int>, ids: seq<int>, values: seq<int>): (r: seq<int>)
    requires |ids| <= |values|
    ensures |r| == |lens|
  {
    if ids == [] then lens
    else Upd(Scatter(lens, ids[..|ids| - 1], values), ids[|ids| - 1], values[|ids| - 1])
  }

  function ExitGraphMode(c: Cache, g: Graph, ids: Option<seq<int>>): (Cache, Graph)
    requires ids.Some? && g.buffers.Some? ==> |ids.value| <= |g.buffers.value.lens|
  {
    (if ids.Some? && g.buffers.Some? then c.(lens := Scatter(c.lens, ids.value, g.buffers.value.lens)) else c,
     g.(on := false))
  }

  // A missing block (-1) is clamped to block 0.
  function Target(row: seq<int>, p: nat, bs: pos): int {
    if Quot(p, bs) < |row| then Max(row[Quot(p, bs)], 0) else 0
  }

  // Row j of the batch goes to the block its table row names.
  function DecodeCells(cells: seq<Content>, bs: pos, l: int, table: seq<seq<int>>, positions: seq<nat>, rows: seq<KV>,
                       k: nat): (r: seq<Content>)
    requires k <= |positions| == |rows| <= |table|
    ensures |r| == |cells|
  {
    if k == 0 then cells
    else Put(DecodeCells(cells, bs, l, table, positions, rows, k - 1),
             Target(table[k - 1], positions[k - 1], bs), l, Rem(positions[k - 1], bs), rows[k - 1])
  }

  function Grown(lens: seq<int>, positions: seq<nat>): (r: seq<int>)
    requires |positions| <= |lens|
    ensures |r| == |positions|
  {
    seq(|positions|, i requires 0 <= i < |positions| => Max(lens[i], positions[i] + 1))
  }

  function Rows(c: Cache, ids: seq<int>): (r: seq<seq<int>>)
    ensures |r| == |ids|
  {
    seq(|ids|, i requires 0 <= i < |ids| => RowOf(c, ids[i]))
  }

  function Lengths(c: Cache, ids: seq<int>): (r: seq<int>)
    ensures |r| == |ids|
  {
    seq(|ids|, i requires 0 <= i < |ids| => Length(c, ids[i]))
  }

  // write_kv_decode outside graph mode.
  function EagerDecode(c: Cache, l: int, ids: seq<int>, positions: seq<nat>, rows: seq<KV>): Cache
    requires |ids| == |positions| == |rows|
  {
    c.(cells := DecodeCells(c.cells, c.cfg.blockSize, l, Rows(c, ids), positions, rows, |ids|),
       lens := Scatter(c.lens, ids, Grown(Lengths(c, ids), positions)))
  }

  // write_kv_decode in graph mode: the sequence ids only give the batch size.
  function GraphDecode(c: Cache, b: Buffers, l: int, positions: seq<nat>, rows: seq<KV>): (Cache, Buffers)
    requires |positions| == |rows| <= |b.table| == |b.lens|
  {
    (c.(cells := DecodeCells(c.cells, c.cfg.blockSize, l, b.table, positions, rows, |positions|)),
     b.(lens := Grown(b.lens, positions) + b.lens[|positions|..]))
  }

  // ---- A forward pass: one call per layer, all on the same batch ----

  // The rows of one layer; padding holds what the model computes for the
  // padded inputs, whose positions are zero.
  datatype Call = Call(l: int, positions: seq<nat>, rows: seq<KV>, padding: seq<KV>)

  ghost predicate CallOk(cfg: Config, call: Call, n: nat, size: nat) {
    && 0 <= call.l < cfg.layers && |call.positions| == |call.rows| == n && n + |call.padding| <= size
    && forall i :: 0 <= i < n ==> Quot(call.positions[i], cfg.blockSize) < cfg.maxBlocks
  }

  ghost predicate CallsOk(cfg: Config, calls: seq<Call>, n: nat, size: nat) {
    forall call :: call in calls ==> CallOk(cfg, call, n, size)
  }

  function PaddedPositions(call: Call): seq<nat> {
    call.positions + seq(|call.padding|, i => 0)
  }

  ghost function EagerPass(c: Cache, ids: seq<int>, calls: seq<Call>, size: nat): (d: Cache)
    requires CallsOk(c.cfg, calls, |ids|, size)
    decreases |calls|
  {
    if calls == [] then c
    else
      assert CallOk(c.cfg, calls[0], |ids|, size);
      EagerPass(EagerDecode(c, calls[0].l, ids, calls[0].positions, calls[0].rows), ids, calls[1..], size)
  }

  ghost predicate Sized(b: Buffers, size: nat) {
    |b.table| == |b.lens| == size
  }

  ghost function GraphPass(c: Cache, b: Buffers, n: nat, calls: seq<Call>, size: nat): (r: (Cache, Buffers))
    requires CallsOk(c.cfg, calls, n, size) && Sized(b, size)
    ensures Sized(r.1, size)
    decreases |calls|
  {
    if calls == [] then (c, b)
    else
      assert CallOk(c.cfg, calls[0], n, size);
      var (d, e) := GraphDecode(c, b, calls[0].l, PaddedPositions(calls[0]), calls[0].rows + calls[0].padding);
      GraphPass(d, e, n, calls[1..], size)
  }

  // A whole decode step in each mode.
  ghost function GraphStep(c: Cache, g: Graph, ids: seq<int>, calls: seq<Call>): (Cache, Graph)
    requires g.buffers.Some? && c.dummy.Some? && Sized(g.buffers.value, |g.buffers.value.table|)
    requires |ids| <= |g.buffers.value.table| && CallsOk(c.cfg, calls, |ids|, |g.buffers.value.table|)
  {
    var e := EnterGraphMode(c, g, ids);
    var (d, b) := GraphPass(c, e.buffers.value, |ids|, calls, |g.buffers.value.table|);
    ExitGraphMode(d, Graph(true, Some(b)), Some(ids))
  }

  // ---- Graph decoding refines eager decoding ----

  ghost predicate AgreeBut(a: seq<Content>, b: seq<Content>, dummy: int) {
    |a| == |b| && forall i :: 0 <= i < |a| && i != dummy ==> a[i] == b[i]
  }

  // Real rows never name the dummy block; padding rows name nothing else.
  ghost predicate Isolated(table: seq<seq<int>>, n: nat, dummy: int) {
    && n <= |table| && dummy > 0
    && (forall i, j :: 0 <= i < n && 0 <= j < |table[i]| ==> table[i][j] != dummy)
    && (forall i :: n <= i < |table| ==> |table[i]| > 0 && table[i][0] == dummy)
  }

  lemma {:induction false} RealRowsAgree(a: seq<Content>, b: seq<Content>, bs: pos, l: int, full: seq<seq<int>>,
                                         own: seq<seq<int>>,
                                         call: Call, k: nat, dummy: int)
    requires AgreeBut(a, b, dummy) && Isolated(full, |own|, dummy) && own == full[..|own|]
    requires k <= |call.positions| == |call.rows| == |own| && |own| + |call.padding| <= |full|
    ensures AgreeBut(DecodeCells(a, bs, l, full, PaddedPositions(call), call.rows + call.padding, k),
                     DecodeCells(b, bs, l, own, call.positions, call.rows, k), dummy)
  {
    if k > 0 {
      RealRowsAgree(a, b, bs, l, full, own, call, k - 1, dummy);
      assert full[k - 1] == own[k - 1] && PaddedPositions(call)[k - 1] == call.positions[k - 1];
      assert (call.rows + call.padding)[k - 1] == call.rows[k - 1];
      assert Target(own[k - 1], call.positions[k - 1], bs) != dummy;
    }
  }

  lemma {:induction false} PaddingIsContained(a: seq<Content>, b: seq<Content>, bs: pos, l: int, full: seq<seq<int>>,
                                              own: seq<seq<int>>,
                                              call: Call, k: nat, dummy: int)
    requires AgreeBut(a, b, dummy) && Isolated(full, |own|, dummy) && own == full[..|own|]
    requires |own| <= k <= |own| + |call.padding| <= |full| && |call.positions| == |call.rows| == |own|
    ensures AgreeBut(DecodeCells(a, bs, l, full, PaddedPositions(call), call.rows + call.padding, k),
                     DecodeCells(b, bs, l, own, call.positions, call.rows, |own|), dummy)
  {
    if k == |own| {
      RealRowsAgree(a, b, bs, l, full, own, call, k, dummy);
    } else {
      PaddingIsContained(a, b, bs, l, full, own, call, k - 1, dummy);
      assert PaddedPositions(call)[k - 1] == 0;
      assert Target(full[k - 1], 0, bs) == dummy;
    }
  }

  // The batch: distinct sequences of the cache.
  ghost predicate Batchable(c: Cache, ids: seq<int>) {
    Distinct(ids) && forall s :: s in ids ==> 0 <= s < c.cfg.maxSeqs
  }

  lemma {:induction false} ScatterIs(lens: seq<int>, ids: seq<int>, values: seq<int>, t: int)
    requires Distinct(ids) && |ids| <= |values| && 0 <= t < |lens|
    ensures t !in ids ==> Scatter(lens, ids, values)[t] == lens[t]
    ensures forall i :: 0 <= i < |ids| && ids[i] == t ==> Scatter(lens, ids, values)[t] == values[i]
  {
    if ids != [] {
      var n := |ids| - 1;
      SplitDistinct(ids, n);
      ScatterIs(lens, ids[..n], values, t);
      forall i | 0 <= i < |ids| && ids[i] == t ensures Scatter(lens, ids, values)[t] == values[i] {
        if i < n { assert ids[..n][i] == t; }
      }
    }
  }

  // The graph side (c with buffers b) against the eager side e.
  ghost predicate Simulates(c: Cache, b: Buffers, e: Cache, ids: seq<int>, size: nat) {
    && c == e.(cells := c.cells, lens := c.lens)
    && e.dummy.Some? && AgreeBut(c.cells, e.cells, e.dummy.value)
    && Sized(b, size) && Isolated(b.table, |ids|, e.dummy.value) && b.table[..|ids|] == Rows(e, ids)
    && b.lens[..|ids|] == Lengths(e, ids)
    && |c.lens| == |e.lens| == e.cfg.maxSeqs
    && forall t :: 0 <= t < |c.lens| && t !in ids ==> c.lens[t] == e.lens[t]
  }

  lemma EnterSimulates(c: Cache, g: Graph, ids: seq<int>, size: nat)
    requires Core(c) && c.dummy.Some? && Batchable(c, ids) && c.cfg.maxBlocks > 0
    requires g.buffers.Some? && Sized(g.buffers.value, size) && |ids| <= size
    ensures Simulates(c, EnterGraphMode(c, g, ids).buffers.value, c, ids, size)
  {
    var b := EnterGraphMode(c, g, ids).buffers.value;
    forall i, j | 0 <= i < |ids| && 0 <= j < |b.table[i]| ensures b.table[i][j] != c.dummy.value {
      assert ids[i] in ids;
      if j < |Blocks(c, ids[i])| { assert Blocks(c, ids[i])[j] in c.owned[ids[i]]; }
    }
    assert b.table[..|ids|] == Rows(c, ids);
    assert b.lens[..|ids|] == Lengths(c, ids);
  }

  lemma GrownLengths(b: Buffers, e: Cache, ids: seq<int>, call: Call)
    requires |ids| == |call.positions| && |ids| + |call.padding| <= |b.lens| && b.lens[..|ids|] == Lengths(e, ids)
    ensures Grown(b.lens, PaddedPositions(call))[..|ids|] == Grown(Lengths(e, ids), call.positions)
  {
    forall i | 0 <= i < |ids|
      ensures Max(b.lens[i], PaddedPositions(call)[i] + 1) == Max(Lengths(e, ids)[i], call.positions[i] + 1)
    {
      assert b.lens[i] == b.lens[..|ids|][i];
    }
  }

  lemma LengthsAfter(e: Cache, l: int, ids: seq<int>, positions: seq<nat>, rows: seq<KV>)
    requires |ids| == |positions| == |rows| && Batchable(e, ids) && |e.lens| == e.cfg.maxSeqs
    ensures Lengths(EagerDecode(e, l, ids, positions, rows), ids) == Grown(Lengths(e, ids), positions)
  {
    forall i | 0 <= i < |ids|
      ensures Length(EagerDecode(e, l, ids, positions, rows), ids[i]) == Grown(Lengths(e, ids), positions)[i]
    {
      assert ids[i] in ids;
      ScatterIs(e.lens, ids, Grown(Lengths(e, ids), positions), ids[i]);
    }
  }

  lemma CallSimulates(c: Cache, b: Buffers, e: Cache, ids: seq<int>, call: Call, size: nat)
    requires Simulates(c, b, e, ids, size) && Batchable(e, ids) && CallOk(e.cfg, call, |ids|, size)
    ensures var (d, a) := GraphDecode(c, b, call.l, PaddedPositions(call), call.rows + call.padding);
      Simulates(d, a, EagerDecode(e, call.l, ids, call.positions, call.rows), ids, size)
  {
    var n := |ids|;
    var (d, a) := GraphDecode(c, b, call.l, PaddedPositions(call), call.rows + call.padding);
    var f := EagerDecode(e, call.l, ids, call.positions, call.rows);
    PaddingIsContained(c.cells, e.cells, e.cfg.blockSize, call.l, b.table, Rows(e, ids), call, n + |call.padding|,
                       e.dummy.value);
    GrownLengths(b, e, ids, call);
    LengthsAfter(e, call.l, ids, call.positions, call.rows);
    assert a.lens[..n] == Grown(b.lens, PaddedPositions(call))[..n];
    assert Rows(f, ids) == Rows(e, ids);
    forall t | 0 <= t < |d.lens| && t !in ids ensures d.lens[t] == f.lens[t] {
      ScatterIs(e.lens, ids, Grown(Lengths(e, ids), call.positions), t);
    }
  }

  lemma SimulatesShape(c: Cache, b: Buffers, e: Cache, ids: seq<int>, size: nat)
    requires Simulates(c, b, e, ids, size)
    ensures c.cfg == e.cfg && Sized(b, size)
  {
  }

  lemma {:induction false} PassSimulates(c: Cache, b: Buffers, e: Cache, ids: seq<int>, calls: seq<Call>, size: nat)
    requires Simulates(c, b, e, ids, size) && Batchable(e, ids) && CallsOk(e.cfg, calls, |ids|, size)
    ensures var (d, a) := GraphPass(c, b, |ids|, calls, size);
      Simulates(d, a, EagerPass(e, ids, calls, size), ids, size)
    decreases |calls|
  {
    if calls != [] {
      assert CallOk(e.cfg, calls[0], |ids|, size);
      hide Simulates;
      SimulatesShape(c, b, e, ids, size);
      CallSimulates(c, b, e, ids, calls[0], size);
      var (d, a) := GraphDecode(c, b, calls[0].l, PaddedPositions(calls[0]), calls[0].rows + calls[0].padding);
      PassSimulates(d, a, EagerDecode(e, calls[0].l, ids, calls[0].positions, calls[0].rows), ids, calls[1..], size);
    }
  }

  lemma ExitSimulates(c: Cache, b: Buffers, e: Cache, ids: seq<int>, size: nat)
    requires Simulates(c, b, e, ids, size) && Batchable(e, ids) && |ids| <= size
    ensures Scatter(c.lens, ids, b.lens) == e.lens
  {
    forall t | 0 <= t < |e.lens| ensures Scatter(c.lens, ids, b.lens)[t] == e.lens[t] {
      ScatterIs(c.lens, ids, b.lens, t);
      if t in ids {
        var i :| 0 <= i < |ids| && ids[i] == t;
        assert b.lens[i] == b.lens[..|ids|][i] == Lengths(e, ids)[i];
      }
    }
  }

  // A decode step in graph mode, whatever the padding, ends in the state the
  // eager step ends in, but for the contents of the dummy block.
  lemma GraphRefinesEager(c: Cache, g: Graph, ids: seq<int>, calls: seq<Call>)
    requires Core(c) && c.dummy.Some? && Batchable(c, ids) && c.cfg.maxBlocks > 0
    requires g.buffers.Some? && Sized(g.buffers.value, |g.buffers.value.table|)
    requires |ids| <= |g.buffers.value.table| && CallsOk(c.cfg, calls, |ids|, |g.buffers.value.table|)
    ensures var (d, h) := GraphStep(c, g, ids, calls);
      var e := EagerPass(c, ids, calls, |g.buffers.value.table|);
      d == e.(cells := d.cells) && AgreeBut(d.cells, e.cells, c.dummy.value) && !h.on
  {
    var size := |g.buffers.value.table|;
    var b := EnterGraphMode(c, g, ids).buffers.value;
    EnterSimulates(c, g, ids, size);
    PassSimulates(c, b, c, ids, calls, size);
    var (d, a) := GraphPass(c, b, |ids|, calls, size);
    var e := EagerPass(c, ids, calls, size);
    PassFrame(c, ids, calls, size);
    ExitSimulates(d, a, e, ids, size);
  }

  lemma {:induction false} PassFrame(c: Cache, ids: seq<int>, calls: seq<Call>, size: nat)
    requires CallsOk(c.cfg, calls, |ids|, size)
    ensures var d := EagerPass(c, ids, calls, size); d == c.(cells := d.cells, lens := d.lens)
    decreases |calls|
  {
    if calls != [] {
      assert CallOk(c.cfg, calls[0], |ids|, size);
      PassFrame(EagerDecode(c, calls[0].l, ids, calls[0].positions, calls[0].rows), ids, calls[1..], size);
    }
  }

  // ---- What a decode step means to readers ----

  // The row the batch stores at a position of a sequence.
  ghost function RowFor(ids: seq<int>, positions: seq<nat>, rows: seq<KV>, k: nat, t: int, q: int): Option<KV>
    requires k <= |ids| == |positions| == |rows|
  {
    if k == 0 then None
    else if ids[k - 1] == t && positions[k - 1] == q then Some(rows[k - 1])
    else RowFor(ids, positions, rows, k - 1, t, q)
  }

  ghost function LengthFor(c: Cache, ids: seq<int>, positions: seq<nat>, k: nat, t: int): int
    requires k <= |ids| == |positions|
  {
    if k == 0 then Length(c, t)
    else if ids[k - 1] == t then Max(Length(c, t), positions[k - 1] + 1)
    else LengthFor(c, ids, positions, k - 1, t)
  }

  // Every sequence of the batch already has the block it writes, for itself.
  ghost predicate Ready(c: Cache, ids: seq<int>, positions: seq<nat>) {
    && Batchable(c, ids) && |ids| == |positions|
    && forall i :: 0 <= i < |ids| ==> ids[i] in c.owned && Private(c, ids[i], Quot(positions[i], c.cfg.blockSize))
  }

  ghost function Upto(c: Cache, l: int, ids: seq<int>, positions: seq<nat>, rows: seq<KV>, k: nat): Cache
    requires k <= |ids| == |positions| == |rows|
  {
    c.(cells := DecodeCells(c.cells, c.cfg.blockSize, l, Rows(c, ids), positions, rows, k),
       lens := Scatter(c.lens, ids[..k], Grown(Lengths(c, ids), positions)))
  }

  lemma UptoTarget(c: Cache, ids: seq<int>, positions: seq<nat>, k: nat)
    requires Core(c) && Ready(c, ids, positions) && k < |ids|
    ensures 0 <= Quot(positions[k], c.cfg.blockSize) < |Blocks(c, ids[k])|
    ensures Target(Rows(c, ids)[k], positions[k], c.cfg.blockSize)
          == Blocks(c, ids[k])[Quot(positions[k], c.cfg.blockSize)]
  {
    var s, i := ids[k], Quot(positions[k], c.cfg.blockSize);
    assert s in ids && Private(c, s, i);
    assert Blocks(c, s)[i] in c.owned[s];
    TableIs(c, s, i);
  }

  lemma ScatterStep(lens: seq<int>, ids: seq<int>, values: seq<int>, k: nat)
    requires Distinct(ids) && k < |ids| <= |values| && 0 <= ids[k] < |lens|
    ensures Scatter(lens, ids[..k], values)[ids[k]] == lens[ids[k]]
    ensures Scatter(lens, ids[..k + 1], values) == Scatter(lens, ids[..k], values)[ids[k] := values[k]]
  {
    SplitDistinct(ids, k);
    assert ids[k] in ids[k..];
    ScatterIs(lens, ids[..k], values, ids[k]);
    assert ids[..k + 1][..k] == ids[..k];
  }

  lemma UptoLens(c: Cache, l: int, ids: seq<int>, positions: seq<nat>, rows: seq<KV>, k: nat)
    requires Batchable(c, ids) && |c.lens| == c.cfg.maxSeqs && k < |ids| == |positions| == |rows|
    ensures var d, s := Upto(c, l, ids, positions, rows, k), ids[k];
      && 0 <= s < |d.lens|
      && Upto(c, l, ids, positions, rows, k + 1).lens == d.lens[s := Max(d.lens[s], positions[k] + 1)]
  {
    assert ids[k] in ids;
    hide DecodeCells, RowOf;
    ScatterStep(c.lens, ids, Grown(Lengths(c, ids), positions), k);
  }

  lemma UptoCells(c: Cache, l: int, ids: seq<int>, positions: seq<nat>, rows: seq<KV>, k: nat, b: int)
    requires k < |ids| == |positions| == |rows| && Target(Rows(c, ids)[k], positions[k], c.cfg.blockSize) == b
    ensures var d := Upto(c, l, ids, positions, rows, k);
      Upto(c, l, ids, positions, rows, k + 1).cells == Put(d.cells, b, l, Rem(positions[k], c.cfg.blockSize), rows[k])
  {
    hide Target, Rows, Put, Rem, Scatter;
  }

  // The batch does one store per row.
  lemma UptoStep(c: Cache, l: int, ids: seq<int>, positions: seq<nat>, rows: seq<KV>, k: nat)
    requires Core(c) && Ready(c, ids, positions) && k < |ids| == |rows|
    ensures Upto(c, l, ids, positions, rows, k + 1)
         == Store(Upto(c, l, ids, positions, rows, k), l, ids[k], positions[k],
                  Blocks(c, ids[k])[Quot(positions[k], c.cfg.blockSize)], rows[k])
  {
    UptoTarget(c, ids, positions, k);
    var b := Blocks(c, ids[k])[Quot(positions[k], c.cfg.blockSize)];
    assert Shape(c) && Batchable(c, ids) && |ids| == |positions|;
    hide Core, Ready, Target, Rows, Blocks, Put, DecodeCells, Scatter;
    UptoLens(c, l, ids, positions, rows, k);
    UptoCells(c, l, ids, positions, rows, k, b);
  }

  ghost predicate DecodeMeets(c: Cache, d: Cache, l: int, ids: seq<int>, positions: seq<nat>, rows: seq<KV>, k: nat)
    requires k <= |ids| == |positions| == |rows|
  {
    && Inv(d) && Beside(c, d) && d.owned == c.owned && d.pool == c.pool
    && (forall t, m, q :: View(d, t, m, q) ==
          if m == l && RowFor(ids, positions, rows, k, t, q).Some? then RowFor(ids, positions, rows, k, t, q).value
          else View(c, t, m, q))
    && (forall t :: Length(d, t) == LengthFor(c, ids, positions, k, t))
  }

  lemma LengthBefore(c: Cache, ids: seq<int>, positions: seq<nat>, k: nat)
    requires Distinct(ids) && k < |ids| == |positions|
    ensures LengthFor(c, ids, positions, k, ids[k]) == Length(c, ids[k])
  {
    LengthUnlisted(c, ids, positions, k, ids[k]);
  }

  lemma {:induction false} LengthUnlisted(c: Cache, ids: seq<int>, positions: seq<nat>, k: nat, t: int)
    requires k <= |ids| == |positions| && forall i :: 0 <= i < k ==> ids[i] != t
    ensures LengthFor(c, ids, positions, k, t) == Length(c, t)
  {
    if k > 0 { LengthUnlisted(c, ids, positions, k - 1, t); }
  }

  lemma OneMoreRow(c: Cache, d: Cache, l: int, ids: seq<int>, positions: seq<nat>, rows: seq<KV>, k: nat)
    requires Ready(c, ids, positions) && k < |ids| == |rows| && 0 <= l < c.cfg.layers
    requires DecodeMeets(c, d, l, ids, positions, rows, k)
    ensures var i := Quot(positions[k], c.cfg.blockSize);
      && Private(c, ids[k], i)
      && DecodeMeets(c, Store(d, l, ids[k], positions[k], Blocks(c, ids[k])[i], rows[k]), l, ids, positions, rows,
                     k + 1)
  {
    var s, p, i := ids[k], positions[k], Quot(positions[k], c.cfg.blockSize);
    StoreStep(d, l, s, p, rows[k]);
    LengthBefore(c, ids, positions, k);
    var e := Store(d, l, s, p, Blocks(c, s)[i], rows[k]);
    hide View, Inv, Store;
    forall t, m, q ensures View(e, t, m, q) ==
      if m == l && RowFor(ids, positions, rows, k + 1, t, q).Some? then RowFor(ids, positions, rows, k + 1, t, q).value
      else View(c, t, m, q)
    {
      assert !Gone(d, e, t);
    }
    forall t ensures Length(e, t) == LengthFor(c, ids, positions, k + 1, t) {
      assert !Gone(d, e, t) && Length(d, t) == LengthFor(c, ids, positions, k, t);
    }
    StorePool(d, l, s, p, Blocks(c, s)[i], rows[k]);
  }

  lemma StorePool(c: Cache, l: int, s: int, p: nat, b: int, v: KV)
    ensures Store(c, l, s, p, b, v).pool == c.pool
  {
  }

  lemma ReadyLength(c: Cache, ids: seq<int>, positions: seq<nat>)
    requires Ready(c, ids, positions)
    ensures |ids| == |positions|
  {
  }

  lemma NothingUpto(c: Cache, l: int, ids: seq<int>, positions: seq<nat>, rows: seq<KV>)
    requires |ids| == |positions| == |rows|
    ensures Upto(c, l, ids, positions, rows, 0) == c
  {
    assert ids[..0] == [];
  }

  lemma NothingStored(c: Cache, l: int, ids: seq<int>, positions: seq<nat>, rows: seq<KV>)
    requires Inv(c) && |ids| == |positions| == |rows|
    ensures DecodeMeets(c, c, l, ids, positions, rows, 0)
  {
    hide Inv, View;
  }

  lemma {:induction false} UptoMeets(c: Cache, l: int, ids: seq<int>, positions: seq<nat>, rows: seq<KV>, k: nat)
    requires Inv(c) && Ready(c, ids, positions) && k <= |ids| == |rows| && 0 <= l < c.cfg.layers
    ensures DecodeMeets(c, Upto(c, l, ids, positions, rows, k), l, ids, positions, rows, k)
  {
    hide Inv, Core, View, Ready, DecodeMeets, Upto;
    ReadyLength(c, ids, positions);
    if k == 0 {
      NothingUpto(c, l, ids, positions, rows);
      NothingStored(c, l, ids, positions, rows);
    } else {
      UptoMeets(c, l, ids, positions, rows, k - 1);
      InvCore(c);
      UptoStep(c, l, ids, positions, rows, k - 1);
      OneMoreRow(c, Upto(c, l, ids, positions, rows, k - 1), l, ids, positions, rows, k - 1);
    }
  }

  // An eager decode call is one point update per sequence of the batch.
  lemma EagerDecodeStep(c: Cache, l: int, ids: seq<int>, positions: seq<nat>, rows: seq<KV>)
    requires Inv(c) && Ready(c, ids, positions) && |ids| == |rows| && 0 <= l < c.cfg.layers
    ensures DecodeMeets(c, EagerDecode(c, l, ids, positions, rows), l, ids, positions, rows, |ids|)
  {
    UptoMeets(c, l, ids, positions, rows, |ids|);
    assert ids[..|ids|] == ids;
  }

  // The row a forward pass leaves at a position in a layer: the last one.
  ghost function Fed(ids: seq<int>, calls: seq<Call>, t: int, m: int, q: int): Option<KV>
    requires forall call :: call in calls ==> |call.positions| == |call.rows| == |ids|
  {
    if calls == [] then None
    else if Fed(ids, calls[1..], t, m, q).Some? then Fed(ids, calls[1..], t, m, q)
    else if calls[0].l == m then RowFor(ids, calls[0].positions, calls[0].rows, |ids|, t, q)
    else None
  }

  ghost predicate PassMeets(c: Cache, d: Cache, ids: seq<int>, calls: seq<Call>)
    requires forall call :: call in calls ==> |call.positions| == |call.rows| == |ids|
  {
    && Inv(d) && Beside(c, d) && d.owned == c.owned && d.pool == c.pool
    && forall t, m, q :: View(d, t, m, q) ==
         if Fed(ids, calls, t, m, q).Some? then Fed(ids, calls, t, m, q).value else View(c, t, m, q)
  }

  ghost predicate PassReady(c: Cache, ids: seq<int>, calls: seq<Call>) {
    forall call :: call in calls ==> Ready(c, ids, call.positions)
  }

  lemma ReadyStays(c: Cache, d: Cache, ids: seq<int>, calls: seq<Call>)
    requires PassReady(c, ids, calls) && calls != [] && d.owned == c.owned && d.pool == c.pool && d.cfg == c.cfg
    ensures PassReady(d, ids, calls[1..])
  {
    forall call | call in calls[1..] ensures Ready(d, ids, call.positions) {
      assert call in calls && Ready(c, ids, call.positions);
      forall i | 0 <= i < |ids| ensures Private(d, ids[i], Quot(call.positions[i], d.cfg.blockSize)) {
        assert Private(c, ids[i], Quot(call.positions[i], c.cfg.blockSize));
      }
    }
  }

  lemma NothingPassed(c: Cache, ids: seq<int>)
    requires Inv(c)
    ensures PassMeets(c, c, ids, [])
  {
    hide Inv, View;
  }

  lemma PassCons(c: Cache, d: Cache, e: Cache, ids: seq<int>, calls: seq<Call>)
    requires calls != [] && forall call :: call in calls ==> |call.positions| == |call.rows| == |ids|
    requires forall call :: call in calls[1..] ==> |call.positions| == |call.rows| == |ids|
    requires DecodeMeets(c, d, calls[0].l, ids, calls[0].positions, calls[0].rows, |ids|)
    requires PassMeets(d, e, ids, calls[1..])
    ensures PassMeets(c, e, ids, calls)
  {
    hide Inv, View, RowFor;
    forall t, m, q ensures View(e, t, m, q) ==
      if Fed(ids, calls, t, m, q).Some? then Fed(ids, calls, t, m, q).value else View(c, t, m, q)
    {
      var row := RowFor(ids, calls[0].positions, calls[0].rows, |ids|, t, q);
      assert View(d, t, m, q) == if m == calls[0].l && row.Some? then row.value else View(c, t, m, q);
      assert View(e, t, m, q) ==
        if Fed(ids, calls[1..], t, m, q).Some? then Fed(ids, calls[1..], t, m, q).value else View(d, t, m, q);
    }
  }

  lemma PassReadyFirst(c: Cache, ids: seq<int>, calls: seq<Call>)
    requires PassReady(c, ids, calls) && calls != []
    ensures Ready(c, ids, calls[0].positions)
  {
  }

  lemma DecodeKeeps(c: Cache, d: Cache, l: int, ids: seq<int>, positions: seq<nat>, rows: seq<KV>)
    requires |ids| == |positions| == |rows| && DecodeMeets(c, d, l, ids, positions, rows, |ids|)
    ensures d.owned == c.owned && d.pool == c.pool && d.cfg == c.cfg && Inv(d) && Beside(c, d)
  {
    hide Inv, View;
  }

  lemma {:induction false} EagerPassReads(c: Cache, ids: seq<int>, calls: seq<Call>, size: nat)
    requires Inv(c) && CallsOk(c.cfg, calls, |ids|, size) && PassReady(c, ids, calls)
    ensures PassMeets(c, EagerPass(c, ids, calls, size), ids, calls)
    decreases |calls|
  {
    hide Inv, View, EagerDecode, PassReady, Ready, DecodeMeets;
    if calls != [] {
      var call := calls[0];
      assert CallOk(c.cfg, call, |ids|, size);
      PassReadyFirst(c, ids, calls);
      var d := EagerDecode(c, call.l, ids, call.positions, call.rows);
      EagerDecodeStep(c, call.l, ids, call.positions, call.rows);
      DecodeKeeps(c, d, call.l, ids, call.positions, call.rows);
      ReadyStays(c, d, ids, calls);
      assert forall later :: later in calls[1..] ==> later in calls;
      EagerPassReads(d, ids, calls[1..], size);
      PassCons(c, d, EagerPass(d, ids, calls[1..], size), ids, calls);
    } else {
      NothingPassed(c, ids);
    }
  }

  ghost predicate Shaped(cells: seq<Content>, cfg: Config) {
    forall b :: 0 <= b < |cells| ==> HasShape(cells[b], cfg)
  }

  lemma PutShaped(cfg: Config, cells: seq<Content>, b: int, l: int, o: int, v: KV)
    requires Shaped(cells, cfg)
    ensures Shaped(Put(cells, b, l, o, v), cfg)
  {
    var r := Put(cells, b, l, o, v);
    forall i | 0 <= i < |r| ensures HasShape(r[i], cfg) { assert HasShape(cells[i], cfg); }
  }

  lemma {:induction false} DecodeShape(cfg: Config, cells: seq<Content>, l: int, table: seq<seq<int>>,
                                       positions: seq<nat>, rows: seq<KV>, k: nat)
    requires k <= |positions| == |rows| <= |table| && Shaped(cells, cfg)
    ensures Shaped(DecodeCells(cells, cfg.blockSize, l, table, positions, rows, k), cfg)
  {
    if k > 0 {
      DecodeShape(cfg, cells, l, table, positions, rows, k - 1);
      PutShaped(cfg, DecodeCells(cells, cfg.blockSize, l, table, positions, rows, k - 1),
                Target(table[k - 1], positions[k - 1], cfg.blockSize), l, Rem(positions[k - 1],
                       cfg.blockSize), rows[k - 1]);
    }
  }

  lemma {:induction false} GraphPassShape(c: Cache, b: Buffers, n: nat, calls: seq<Call>, size: nat)
    requires CallsOk(c.cfg, calls, n, size) && Sized(b, size) && Shaped(c.cells, c.cfg)
    ensures Shaped(GraphPass(c, b, n, calls, size).0.cells, c.cfg)
    decreases |calls|
  {
    if calls != [] {
      var call := calls[0];
      assert CallOk(c.cfg, call, n, size);
      var positions, rows := PaddedPositions(call), call.rows + call.padding;
      DecodeShape(c.cfg, c.cells, call.l, b.table, positions, rows, |positions|);
      var (d, e) := GraphDecode(c, b, call.l, positions, rows);
      hide Shaped, DecodeCells;
      GraphPassShape(d, e, n, calls[1..], size);
    }
  }

  // The dummy block may hold anything: nobody reads it.
  lemma DummyIsUnseen(e: Cache, d: Cache)
    requires Inv(e) && e.dummy.Some? && d == e.(cells := d.cells) && AgreeBut(d.cells, e.cells, e.dummy.value)
    requires Shaped(d.cells, e.cfg)
    ensures Inv(d) && SameReads(e, d)
  {
    DummyIsHeld(e);
    SideFrame(e, d);
    forall t, l, p ensures View(d, t, l, p) == View(e, t, l, p) {
      if Mapped(e, t, l, p) { MappedIsOwned(e, t, l, p); }
      SameCell(e, d, t, l, p);
    }
  }

  lemma DummyIsHeld(e: Cache)
    requires Core(e) && e.dummy.Some?
    ensures 0 < e.dummy.value < |e.pool.refs| && e.pool.refs[e.dummy.value] >= 1
  {
  }

  lemma PassThrough(c: Cache, e: Cache, d: Cache, ids: seq<int>, calls: seq<Call>)
    requires forall call :: call in calls ==> |call.positions| == |call.rows| == |ids|
    requires PassMeets(c, e, ids, calls) && Inv(d) && SameReads(e, d) && d == e.(cells := d.cells)
    ensures PassMeets(c, d, ids, calls)
  {
    hide Inv, View, Fed;
  }

  // What the engine sees to before a step in graph mode.
  ghost predicate StepOk(c: Cache, g: Graph, ids: seq<int>, calls: seq<Call>) {
    && c.dummy.Some? && Batchable(c, ids) && c.cfg.maxBlocks > 0
    && g.buffers.Some? && Sized(g.buffers.value, |g.buffers.value.table|)
    && |ids| <= |g.buffers.value.table| && CallsOk(c.cfg, calls, |ids|, |g.buffers.value.table|)
    && PassReady(c, ids, calls)
  }

  // The step and the eager pass read alike.
  lemma GraphStepSame(c: Cache, g: Graph, ids: seq<int>, calls: seq<Call>)
    requires Inv(c) && StepOk(c, g, ids, calls)
    ensures var d, e := GraphStep(c, g, ids, calls).0, EagerPass(c, ids, calls, |g.buffers.value.table|);
      Inv(d) && SameReads(e, d) && d == e.(cells := d.cells)
  {
    var size := |g.buffers.value.table|;
    assert forall call :: call in calls ==> CallOk(c.cfg, call, |ids|, size);
    var b := EnterGraphMode(c, g, ids).buffers.value;
    assert Shaped(c.cells, c.cfg);
    hide Inv, View, PassReady, EnterGraphMode, Shaped, Fed, EagerPass, GraphPass;
    GraphRefinesEager(c, g, ids, calls);
    EagerPassReads(c, ids, calls, size);
    GraphPassShape(c, b, |ids|, calls, size);
    DummyIsUnseen(EagerPass(c, ids, calls, size), GraphStep(c, g, ids, calls).0);
  }

  // After a decode step in graph mode every sequence of the batch reads the
  // rows of the pass at their positions, and nobody else sees a change.
  lemma GraphStepReads(c: Cache, g: Graph, ids: seq<int>, calls: seq<Call>)
    requires Inv(c) && StepOk(c, g, ids, calls)
    ensures forall call :: call in calls ==> |call.positions| == |call.rows| == |ids|
    ensures PassMeets(c, GraphStep(c, g, ids, calls).0, ids, calls)
  {
    var size := |g.buffers.value.table|;
    assert forall call :: call in calls ==> CallOk(c.cfg, call, |ids|, size);
    hide Inv, View, PassReady, Fed, EagerPass, GraphStep;
    GraphStepSame(c, g, ids, calls);
    EagerPassReads(c, ids, calls, size);
    PassThrough(c, EagerPass(c, ids, calls, size), GraphStep(c, g, ids, calls).0, ids, calls);
  }

  // ---- Decoding into a shared block ----

  lemma OneRow(c: Cache, l: int, s: int, p: nat, v: KV)
    requires Core(c) && s in c.owned && Quot(p, c.cfg.blockSize) < |Blocks(c, s)|
    ensures EagerDecode(c, l, [s], [p], [v]) == Store(c, l, s, p, Blocks(c, s)[Quot(p, c.cfg.blockSize)], v)
  {
    TableIs(c, s, Quot(p, c.cfg.blockSize));
    assert Rows(c, [s])[0] == RowOf(c, s);
    assert [s][..0] == [];
    assert DecodeCells(c.cells, c.cfg.blockSize, l, Rows(c, [s]), [p], [v], 0) == c.cells;
    assert Scatter(c.lens, [s], Grown(Lengths(c, [s]), [p])) == Upd(c.lens, s, Max(c.lens[s], p + 1));
  }

  // Decoding never copies: it leaves the other sequences alone exactly when
  // the block written belongs to this sequence only.
  lemma DecodeIsolatedIff(c: Cache, l: int, s: int, p: nat, v: KV)
    requires Inv(c) && 0 <= l < c.cfg.layers && s in c.owned && Quot(p, c.cfg.blockSize) < |Blocks(c, s)|
    requires v != View(c, s, l, p)
    ensures (forall t, m, q :: t != s ==> View(EagerDecode(c, l, [s], [p], [v]), t, m, q) == View(c, t, m, q))
            <==> Private(c, s, Quot(p, c.cfg.blockSize))
  {
    var i := Quot(p, c.cfg.blockSize);
    var b := Blocks(c, s)[i];
    OneRow(c, l, s, p, v);
    assert b in c.owned[s];
    OwnedIsReferenced(c, s, b);
    assert Core(c);
    hide Inv, Core, View, Store;
    if Private(c, s, i) {
      PrivateStoreReads(c, l, s, p, v);
    } else {
      var t, q := SharedDecodeLeaks(c, l, s, p, v);
      assert View(Store(c, l, s, p, b, v), t, l, q) != View(c, t, l, q);
    }
  }

  lemma SharedDecodeLeaks(c: Cache, l: int, s: int, p: nat, v: KV) returns (t: int, q: nat)
    requires Core(c) && 0 <= l < c.cfg.layers && s in c.owned && Quot(p, c.cfg.blockSize) < |Blocks(c, s)|
    requires !Private(c, s, Quot(p, c.cfg.blockSize))
    ensures t != s && View(c, t, l, q) == View(c, s, l, p)
    ensures View(Store(c, l, s, p, Blocks(c, s)[Quot(p, c.cfg.blockSize)], v), t, l, q) == v
  {
    var b := Blocks(c, s)[Quot(p, c.cfg.blockSize)];
    assert b in c.owned[s];
    OwnedIsReferenced(c, s, b);
    var j;
    t, j := OtherListing(c, s, b);
    q := j * c.cfg.blockSize + Rem(p, c.cfg.blockSize);
    QuotUnique(q, j, Rem(p, c.cfg.blockSize), c.cfg.blockSize);
    ViewIs(c, t, l, q);
    ViewIs(c, s, l, p);
    hide Core, View;
    StoreReads(c, l, s, p, b, v);
    assert Shows(c, l, p, b, t, l, q);
  }
}
