// A decode call, and a whole decode step in either mode, as single stores
// one after the other (tr_hash_i64/core/kv_cache.py).
module DecodeStores {
  import opened Prelude
  import opened PoolSpec
  import opened CacheSpec
  import opened CacheInv
  import opened CacheView
  import opened CacheSteps
  import opened GraphMode

  // One row of one sequence.
  datatype Single = Single(l: int, s: int, p: nat, v: KV)

  ghost predicate Own(c: Cache, x: Single) {
    0 <= x.l < c.cfg.layers && x.s in c.owned && Private(c, x.s, Quot(x.p, c.cfg.blockSize))
  }

  ghost function StoreOne(c: Cache, x: Single): Cache {
    var i := Quot(x.p, c.cfg.blockSize);
    if i < |Blocks(c, x.s)| then Store(c, x.l, x.s, x.p, Blocks(c, x.s)[i], x.v) else c
  }

  ghost function StoreAll(c: Cache, xs: seq<Single>): (d: Cache)
    ensures d.owned == c.owned && d.pool == c.pool && d.cfg == c.cfg && d.swap == c.swap && d.table == c.table
    ensures d.dummy == c.dummy && d.lru == c.lru
  {
    if xs == [] then c else StoreOne(StoreAll(c, xs[..|xs| - 1]), xs[|xs| - 1])
  }

  ghost predicate AllOwn(c: Cache, xs: seq<Single>) {
    forall i :: 0 <= i < |xs| ==> Own(c, xs[i])
  }

  lemma OwnStays(c: Cache, d: Cache, xs: seq<Single>)
    requires AllOwn(c, xs) && d.owned == c.owned && d.pool == c.pool && d.cfg == c.cfg
    ensures AllOwn(d, xs)
  {
    forall i | 0 <= i < |xs| ensures Own(d, xs[i]) { assert Own(c, xs[i]); }
  }

  lemma {:induction false} StoreAllKeeps(c: Cache, xs: seq<Single>)
    requires Inv(c) && AllOwn(c, xs)
    ensures Inv(StoreAll(c, xs))
  {
    if xs != [] {
      hide Inv;
      var n := |xs| - 1;
      StoreAllKeeps(c, xs[..n]);
      var d := StoreAll(c, xs[..n]);
      OwnStays(c, d, xs);
      assert Own(d, xs[n]);
      StoreStep(d, xs[n].l, xs[n].s, xs[n].p, xs[n].v);
    }
  }

  lemma {:induction false} StoreAllSplit(c: Cache, xs: seq<Single>, ys: seq<Single>)
    ensures StoreAll(c, xs + ys) == StoreAll(StoreAll(c, xs), ys)
  {
    if ys == [] {
      assert xs + ys == xs;
    } else {
      hide StoreOne;
      var n := |ys| - 1;
      StoreAllSplit(c, xs, ys[..n]);
      assert (xs + ys)[..|xs + ys| - 1] == xs + ys[..n];
    }
  }

  // ---- Eager decoding ----

  function Singles(l: int, ids: seq<int>, positions: seq<nat>, rows: seq<KV>): (xs: seq<Single>)
    requires |ids| == |positions| == |rows|
    ensures |xs| == |ids|
  {
    seq(|ids|, i requires 0 <= i < |ids| => Single(l, ids[i], positions[i], rows[i]))
  }

  lemma ReadyOwns(c: Cache, l: int, ids: seq<int>, positions: seq<nat>, rows: seq<KV>)
    requires Ready(c, ids, positions) && |ids| == |rows| && 0 <= l < c.cfg.layers
    ensures |ids| == |positions| && AllOwn(c, Singles(l, ids, positions, rows))
  {
  }

  lemma {:induction false} UptoIsStores(c: Cache, l: int, ids: seq<int>, positions: seq<nat>, rows: seq<KV>, k: nat)
    requires Core(c) && Ready(c, ids, positions) && k <= |ids| == |rows|
    ensures |ids| == |positions|
      && Upto(c, l, ids, positions, rows, k) == StoreAll(c, Singles(l, ids, positions, rows)[..k])
  {
    hide Core, Ready, Upto, Store;
    ReadyLength(c, ids, positions);
    var xs := Singles(l, ids, positions, rows);
    if k == 0 {
      NothingUpto(c, l, ids, positions, rows);
    } else {
      UptoIsStores(c, l, ids, positions, rows, k - 1);
      UptoStep(c, l, ids, positions, rows, k - 1);
      UptoTarget(c, ids, positions, k - 1);
      assert xs[..k][..k - 1] == xs[..k - 1] && xs[..k][k - 1] == xs[k - 1];
    }
  }

  lemma DecodeIsStores(c: Cache, l: int, ids: seq<int>, positions: seq<nat>, rows: seq<KV>)
    requires Core(c) && Ready(c, ids, positions) && |ids| == |rows|
    ensures |ids| == |positions|
      && EagerDecode(c, l, ids, positions, rows) == StoreAll(c, Singles(l, ids, positions, rows))
  {
    UptoIsStores(c, l, ids, positions, rows, |ids|);
    assert ids[..|ids|] == ids;
    assert Singles(l, ids, positions, rows)[..|ids|] == Singles(l, ids, positions, rows);
  }

  // ---- A whole pass ----

  ghost function PassSingles(ids: seq<int>, calls: seq<Call>): seq<Single>
    requires forall call :: call in calls ==> |call.positions| == |call.rows| == |ids|
  {
    if calls == [] then []
    else Singles(calls[0].l, ids, calls[0].positions, calls[0].rows) + PassSingles(ids, calls[1..])
  }

  lemma {:induction false} PassOwns(c: Cache, ids: seq<int>, calls: seq<Call>, size: nat)
    requires CallsOk(c.cfg, calls, |ids|, size) && PassReady(c, ids, calls)
    ensures forall call :: call in calls ==> |call.positions| == |call.rows| == |ids|
    ensures AllOwn(c, PassSingles(ids, calls))
  {
    assert forall call :: call in calls ==> CallOk(c.cfg, call, |ids|, size);
    if calls != [] {
      assert forall call :: call in calls[1..] ==> call in calls;
      assert calls[0] in calls && CallOk(c.cfg, calls[0], |ids|, size);
      PassReadyFirst(c, ids, calls);
      hide Ready;
      ReadyOwns(c, calls[0].l, ids, calls[0].positions, calls[0].rows);
      PassOwns(c, ids, calls[1..], size);
    }
  }

  lemma {:induction false} PassIsStores(c: Cache, ids: seq<int>, calls: seq<Call>, size: nat)
    requires Inv(c) && CallsOk(c.cfg, calls, |ids|, size) && PassReady(c, ids, calls)
    ensures forall call :: call in calls ==> |call.positions| == |call.rows| == |ids|
    ensures EagerPass(c, ids, calls, size) == StoreAll(c, PassSingles(ids, calls))
    decreases |calls|
  {
    hide Inv, Core, View, EagerDecode, Ready, DecodeMeets, PassReady;
    PassOwns(c, ids, calls, size);
    if calls != [] {
      var call := calls[0];
      assert CallOk(c.cfg, call, |ids|, size);
      assert forall later :: later in calls[1..] ==> later in calls;
      PassReadyFirst(c, ids, calls);
      InvCore(c);
      DecodeIsStores(c, call.l, ids, call.positions, call.rows);
      EagerDecodeStep(c, call.l, ids, call.positions, call.rows);
      var d := EagerDecode(c, call.l, ids, call.positions, call.rows);
      DecodeKeeps(c, d, call.l, ids, call.positions, call.rows);
      ReadyStays(c, d, ids, calls);
      PassIsStores(d, ids, calls[1..], size);
      StoreAllSplit(c, Singles(call.l, ids, call.positions, call.rows), PassSingles(ids, calls[1..]));
    }
  }

  // A step in graph mode does the stores of the pass; only the dummy block
  // holds something else.
  lemma GraphStepIsStores(c: Cache, g: Graph, ids: seq<int>, calls: seq<Call>)
    requires Inv(c) && StepOk(c, g, ids, calls)
    ensures forall call :: call in calls ==> |call.positions| == |call.rows| == |ids|
    ensures var d, e := GraphStep(c, g, ids, calls).0, StoreAll(c, PassSingles(ids, calls));
      && Inv(d) && Inv(e) && c.dummy.Some? && SameReads(e, d) && AllOwn(c, PassSingles(ids, calls))
      && d == e.(cells := d.cells) && AgreeBut(d.cells, e.cells, c.dummy.value)
  {
    hide Inv, View, EagerPass, GraphPass, PassReady;
    var size := |g.buffers.value.table|;
    PassOwns(c, ids, calls, size);
    PassIsStores(c, ids, calls, size);
    StoreAllKeeps(c, PassSingles(ids, calls));
    InvCore(c);
    GraphRefinesEager(c, g, ids, calls);
    GraphStepSame(c, g, ids, calls);
  }
}
