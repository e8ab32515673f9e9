// Swapping a sequence out to the CPU and back: nothing is lost, and every
// CPU block is free or belongs to one swapped-out sequence.
module Swapping {
  import opened Prelude
  import opened PoolSpec
  import opened CacheSpec
  import opened CacheInv
  import opened Lru
  import opened CacheView
  import opened CacheSteps

  ghost predicate Within(ids: seq<int>, n: nat) {
    forall i :: 0 <= i < |ids| ==> 0 <= ids[i] < n
  }

  ghost predicate Copied(dst: seq<Content>, to: seq<int>, src: seq<Content>, from: seq<int>, r: seq<Content>)
    requires |to| == |from| && Within(to, |dst|) && Within(from, |src|) && |r| == |dst|
  {
    && (forall i :: 0 <= i < |to| ==> r[to[i]] == src[from[i]])
    && (forall b :: 0 <= b < |dst| && b !in to ==> r[b] == dst[b])
  }

  // Copying blocks pairwise moves exactly the listed contents.
  lemma {:induction false} CopyBlocksAre(dst: seq<Content>, to: seq<int>, src: seq<Content>, from: seq<int>)
    requires |to| == |from| && Distinct(to) && Within(to, |dst|) && Within(from, |src|)
    ensures Copied(dst, to, src, from, CopyBlocks(dst, to, src, from))
  {
    if to != [] {
      var n := |to| - 1;
      CopyBlocksAre(dst, to[..n], src, from[..n]);
      var part := CopyBlocks(dst, to[..n], src, from[..n]);
      assert CopyBlocks(dst, to, src, from) == part[to[n] := src[from[n]]];
      CopiedMore(dst, to, src, from, part);
    }
  }

  lemma CopiedMore(dst: seq<Content>, to: seq<int>, src: seq<Content>, from: seq<int>, part: seq<Content>)
    requires |to| == |from| > 0 && Distinct(to) && Within(to, |dst|) && Within(from, |src|) && |part| == |dst|
    requires Copied(dst, to[..|to| - 1], src, from[..|to| - 1], part)
    ensures Copied(dst, to, src, from, part[to[|to| - 1] := src[from[|to| - 1]]])
  {
    var n := |to| - 1;
    var r := part[to[n] := src[from[n]]];
    forall i | 0 <= i < |to| ensures r[to[i]] == src[from[i]] {
      if i < n { assert to[..n][i] == to[i] && from[..n][i] == from[i]; }
    }
    forall b | 0 <= b < |dst| && b !in to ensures r[b] == dst[b] {
      assert to[n] in to;
      assert forall x :: x in to[..n] ==> x in to;
    }
  }

  lemma CopyShapes(c: Cache, dst: seq<Content>, to: seq<int>, src: seq<Content>, from: seq<int>)
    requires |to| == |from| && Distinct(to) && Within(to, |dst|) && Within(from, |src|)
    requires forall b :: 0 <= b < |dst| ==> HasShape(dst[b], c.cfg)
    requires forall b :: 0 <= b < |src| ==> HasShape(src[b], c.cfg)
    ensures forall b :: 0 <= b < |dst| ==> HasShape(CopyBlocks(dst, to, src, from)[b], c.cfg)
  {
    CopyBlocksAre(dst, to, src, from);
    forall b | 0 <= b < |dst| ensures HasShape(CopyBlocks(dst, to, src, from)[b], c.cfg) {
      if b in to {
        var i :| 0 <= i < |to| && to[i] == b;
      }
    }
  }

  // What a swapped-out sequence will read again.
  ghost function StashView(c: Cache, s: int, l: int, p: int): KV {
    if s in c.swap.out && 0 <= p && Quot(p, c.cfg.blockSize) < |c.swap.out[s].blocks| then
      var b := c.swap.out[s].blocks[Quot(p, c.cfg.blockSize)];
      if 0 <= b < |c.swap.cells| && 0 <= l < |c.swap.cells[b]| && Rem(p, c.cfg.blockSize) < |c.swap.cells[b][l]|
      then c.swap.cells[b][l][Rem(p, c.cfg.blockSize)] else c.cfg.zero
    else c.cfg.zero
  }

  ghost predicate StashesKept(c: Cache, d: Cache, s: int) {
    forall t :: t != s && t in c.swap.out ==>
      t in d.swap.out && d.swap.out[t] == c.swap.out[t]
      && forall l, p :: StashView(d, t, l, p) == StashView(c, t, l, p)
  }

  // ---- Swapping out ----

  ghost function CpuBlocks(c: Cache, n: nat): seq<int>
    requires n <= |c.swap.free|
  {
    Reverse(c.swap.free[|c.swap.free| - n..])
  }

  // Free CPU blocks are distinct and no swapped-out sequence has them.
  lemma CpuFreeIsFree(c: Cache)
    requires SwapOk(c)
    ensures Distinct(c.swap.free)
    ensures forall b :: b in c.swap.free ==> Occ(OutBlocks(c.swap.out), c.cfg.maxSeqs, b) == 0
    ensures forall b, s :: b in c.swap.free && s in c.swap.out ==> b !in c.swap.out[s].blocks
  {
    forall i, j | 0 <= i < j < |c.swap.free| ensures c.swap.free[i] != c.swap.free[j] {
      assert c.swap.free[i] in c.swap.free;
      if c.swap.free[i] == c.swap.free[j] { TwiceCounted(c.swap.free, i, j); }
    }
    forall b, s | b in c.swap.free && s in c.swap.out ensures b !in c.swap.out[s].blocks {
      var o := OutBlocks(c.swap.out);
      assert StashOk(c, s, c.swap.out[s]);
      OccChange(o, o - {s}, c.cfg.maxSeqs, s, b);
    }
  }

  lemma TopOfStack(c: Cache, n: nat)
    requires SwapOk(c) && n <= |c.swap.free|
    ensures var cpu := CpuBlocks(c, n);
      && |cpu| == n && Distinct(cpu) && Within(cpu, |c.swap.cells|)
      && (forall b :: b in cpu ==> b in c.swap.free)
      && (forall b :: multiset(c.swap.free)[b] == multiset(c.swap.free[..|c.swap.free| - n])[b] + multiset(cpu)[b])
  {
    CpuFreeIsFree(c);
    var k := |c.swap.free| - n;
    SplitDistinct(c.swap.free, k);
    var top := c.swap.free[k..];
    ReverseElements(top);
    forall i | 0 <= i < n ensures 0 <= Reverse(top)[i] < |c.swap.cells| { assert Reverse(top)[i] in top; }
    assert c.swap.free == c.swap.free[..k] + top;
    forall b ensures multiset(Reverse(top))[b] == multiset(top)[b] {
      DistinctCount(top, b);
      DistinctCount(Reverse(top), b);
    }
  }

  // What swapping out leaves in the CPU area.
  ghost predicate Stashes(c: Cache, d: Cache, s: int, cpu: seq<int>) {
    && |cpu| == |Blocks(c, s)| <= |c.swap.free| && |d.swap.cells| == |c.swap.cells|
    && Within(cpu, |c.swap.cells|) && Within(Blocks(c, s), |c.cells|)
    && Distinct(cpu) && (forall b :: b in cpu ==> b in c.swap.free)
    && d.cfg == c.cfg && d.owned == c.owned - {s} && d.swap.enabled && c.swap.enabled
    && d.swap.out == c.swap.out[s := Stashed(cpu, Length(c, s))]
    && d.swap.free == c.swap.free[..|c.swap.free| - |cpu|]
    && (forall b :: multiset(c.swap.free)[b] == multiset(d.swap.free)[b] + multiset(cpu)[b])
    && Copied(c.swap.cells, cpu, c.cells, Blocks(c, s), d.swap.cells)
  }

  lemma SwapOutIs(c: Cache, s: int)
    requires Inv(c) && CanSwapOut(c, s)
    ensures Stashes(c, SwapOut(c, s), s, CpuBlocks(c, |Blocks(c, s)|))
  {
    hide Core, Release, ClearRow, LruOk;
    var blocks, n := Blocks(c, s), |Blocks(c, s)|;
    TopOfStack(c, n);
    ListWithin(c, s);
    CopyBlocksAre(c.swap.cells, CpuBlocks(c, n), c.cells, blocks);
  }

  lemma ListWithin(c: Cache, s: int)
    requires Core(c)
    ensures Within(Blocks(c, s), |c.cells|)
  {
    forall i | 0 <= i < |Blocks(c, s)|
      ensures 0 <= Blocks(c, s)[i] < |c.cells|
    {
      assert Blocks(c, s)[i] in c.owned[s];
    }
  }

  lemma StashedShapes(c: Cache, d: Cache, s: int, cpu: seq<int>)
    requires Core(c) && SwapOk(c) && Stashes(c, d, s, cpu)
    ensures forall b :: 0 <= b < |d.swap.cells| ==> HasShape(d.swap.cells[b], d.cfg)
  {
    forall b | 0 <= b < |d.swap.cells| ensures HasShape(d.swap.cells[b], d.cfg) {
      if b in cpu {
        var i :| 0 <= i < |cpu| && cpu[i] == b;
      }
    }
  }

  lemma StashedPartition(c: Cache, d: Cache, s: int, cpu: seq<int>)
    requires Core(c) && SwapOk(c) && Stashes(c, d, s, cpu) && 0 <= s < c.cfg.maxSeqs && s !in c.swap.out
    ensures SwapOk(d)
  {
    var o1, o2 := OutBlocks(c.swap.out), OutBlocks(d.swap.out);
    StashedShapes(c, d, s, cpu);
    assert forall b :: b in d.swap.free ==> b in c.swap.free;
    forall b | 0 <= b < |d.swap.cells|
      ensures multiset(d.swap.free)[b] + Occ(o2, d.cfg.maxSeqs, b) == 1
    {
      OccChange(o1, o2, c.cfg.maxSeqs, s, b);
    }
    forall t | t in d.swap.out ensures StashOk(d, t, d.swap.out[t]) {
      if t != s { assert StashOk(c, t, c.swap.out[t]); }
    }
  }

  lemma StashedBlock(c: Cache, d: Cache, s: int, cpu: seq<int>, i: nat)
    requires Core(c) && Stashes(c, d, s, cpu) && i < |Blocks(c, s)|
    ensures 0 <= cpu[i] < |d.swap.cells| && 0 <= Blocks(c, s)[i] < |c.cells| && d.swap.out[s].blocks[i] == cpu[i]
    ensures d.swap.cells[cpu[i]] == c.cells[Blocks(c, s)[i]] && HasShape(d.swap.cells[cpu[i]], c.cfg)
  {
  }

  lemma StashedReads(c: Cache, d: Cache, s: int, cpu: seq<int>, l: int, p: int)
    requires Core(c) && Stashes(c, d, s, cpu)
    ensures StashView(d, s, l, p) == View(c, s, l, p)
  {
    ViewIs(c, s, l, p);
    if 0 <= p && Quot(p, c.cfg.blockSize) < |Blocks(c, s)| {
      StashedBlock(c, d, s, cpu, Quot(p, c.cfg.blockSize));
    }
  }

  lemma StashesOthers(c: Cache, d: Cache, s: int, cpu: seq<int>)
    requires SwapOk(c) && Stashes(c, d, s, cpu)
    ensures StashesKept(c, d, s)
  {
    CpuFreeIsFree(c);
    forall t, l, p | t != s && t in c.swap.out ensures StashView(d, t, l, p) == StashView(c, t, l, p) {
      if 0 <= p && Quot(p, c.cfg.blockSize) < |c.swap.out[t].blocks| {
        assert StashOk(c, t, c.swap.out[t]);
        var b := c.swap.out[t].blocks[Quot(p, c.cfg.blockSize)];
        assert b in c.swap.out[t].blocks;
        assert d.swap.cells[b] == c.swap.cells[b];
      }
    }
  }

  lemma SwapOutStep(c: Cache, s: int)
    requires Inv(c) && s !in c.swap.out
    ensures s in SwapOut(c, s).swap.out <==>
      c.swap.enabled && Blocks(c, s) != [] && |Blocks(c, s)| <= |c.swap.free|
    ensures !CanSwapOut(c, s) ==> SwapOut(c, s) == c
    ensures CanSwapOut(c, s) ==> var d := SwapOut(c, s);
      && Inv(d) && d.cfg == c.cfg && d.dummy == c.dummy
      && (forall t, l, p :: View(d, t, l, p) == (if t == s then c.cfg.zero else View(c, t, l, p)))
      && (forall t :: Length(d, t) == if t == s then 0 else Length(c, t))
      && s in d.swap.out && d.swap.out[s].len == Length(c, s)
      && (forall l, p :: StashView(d, s, l, p) == View(c, s, l, p))
      && StashesKept(c, d, s)
  {
    if CanSwapOut(c, s) {
      var d := SwapOut(c, s);
      DropsCore(c, d, s);
      DropsReads(c, d, s);
      forall t | t in d.owned ensures Recorded(d, t) { assert Recorded(c, t); }
      var cpu := CpuBlocks(c, |Blocks(c, s)|);
      SwapOutIs(c, s);
      StashedPartition(c, d, s, cpu);
      StashesOthers(c, d, s, cpu);
      forall l, p ensures StashView(d, s, l, p) == View(c, s, l, p) { StashedReads(c, d, s, cpu, l, p); }
    }
  }

  // ---- Swapping in ----

  // The state before the LRU touch.
  ghost function Restored(c: Cache, s: int): Cache
    requires CanSwapIn(c, s)
  {
    var cpu := c.swap.out[s].blocks;
    var taken := c.pool.free[..|cpu|];
    c.(pool := Take(c.pool, |cpu|),
       cells := CopyBlocks(c.cells, taken, c.swap.cells, cpu),
       table := Upd(c.table, s, SetRow(RowOf(c, s), 0, taken)),
       owned := c.owned[s := taken],
       lens := Upd(c.lens, s, c.swap.out[s].len),
       swap := c.swap.(free := c.swap.free + cpu, out := c.swap.out - {s}))
  }

  lemma RestoredCells(c: Cache, s: int)
    requires Inv(c) && CanSwapIn(c, s)
    ensures var cpu := c.swap.out[s].blocks; var taken := c.pool.free[..|cpu|]; var d := Restored(c, s);
      && Extends(c, c.(pool := d.pool, table := d.table, owned := d.owned), s, |cpu|)
      && (forall i :: 0 <= i < |cpu| ==> 0 < taken[i] < |c.cells| && 0 <= cpu[i] < |c.swap.cells|
                                         && d.cells[taken[i]] == c.swap.cells[cpu[i]])
      && (forall b :: 0 <= b < |c.cells| && b !in taken ==> d.cells[b] == c.cells[b])
      && (forall b :: 0 <= b < |c.cells| ==> HasShape(d.cells[b], c.cfg))
  {
    var cpu := c.swap.out[s].blocks;
    var taken := c.pool.free[..|cpu|];
    assert StashOk(c, s, c.swap.out[s]);
    TakeOk(c.pool, |cpu|);
    forall i | 0 <= i < |cpu| ensures 0 < taken[i] < |c.cells| && 0 <= cpu[i] < |c.swap.cells| {
      assert taken[i] in taken && cpu[i] in cpu;
    }
    CopyBlocksAre(c.cells, taken, c.swap.cells, cpu);
    CopyShapes(c, c.cells, taken, c.swap.cells, cpu);
    assert Blocks(c, s) == [] && [] + taken == taken;
  }

  lemma RestoredCore(c: Cache, s: int)
    requires Inv(c) && CanSwapIn(c, s)
    ensures Core(Restored(c, s))
  {
    assert Shape(c);
    hide Core, CopyBlocks, Take;
    var d := Restored(c, s);
    var cpu := c.swap.out[s].blocks;
    RestoredCells(c, s);
    assert StashOk(c, s, c.swap.out[s]);
    var e := d.(lens := c.lens, swap := c.swap);
    ExtendsCore(c, e, s, |cpu|);
    CoreBeside(e, d);
  }

  lemma RestoredPartition(c: Cache, s: int)
    requires Inv(c) && CanSwapIn(c, s)
    ensures SwapOk(Restored(c, s))
  {
    var d := Restored(c, s);
    var o1, o2 := OutBlocks(c.swap.out), OutBlocks(d.swap.out);
    assert StashOk(c, s, c.swap.out[s]);
    assert multiset(d.swap.free) == multiset(c.swap.free) + multiset(c.swap.out[s].blocks);
    forall b | 0 <= b < |d.swap.cells|
      ensures multiset(d.swap.free)[b] + Occ(o2, d.cfg.maxSeqs, b) == 1
    {
      OccChange(o1, o2, c.cfg.maxSeqs, s, b);
    }
    forall t | t in d.swap.out ensures StashOk(d, t, d.swap.out[t]) { assert StashOk(c, t, c.swap.out[t]); }
  }

  lemma RestoredReads(c: Cache, d: Cache, s: int, cpu: seq<int>, taken: seq<int>, t: int, l: int, p: int)
    requires Core(c) && Core(d) && SwapOk(c) && s in c.swap.out && cpu == c.swap.out[s].blocks && d.cfg == c.cfg
    requires |taken| == |cpu| && d.owned == c.owned[s := taken] && Within(cpu, |c.swap.cells|)
    requires Within(taken, |c.cells|)
    requires forall b :: b in taken ==> b in c.pool.free
    requires forall i :: 0 <= i < |cpu| ==> d.cells[taken[i]] == c.swap.cells[cpu[i]]
    requires forall b :: 0 <= b < |c.cells| && b !in taken ==> d.cells[b] == c.cells[b]
    ensures View(d, t, l, p) == if t == s then StashView(c, s, l, p) else View(c, t, l, p)
  {
    ViewIs(d, t, l, p);
    if t == s {
      if 0 <= p && Quot(p, c.cfg.blockSize) < |cpu| {
        var i := Quot(p, c.cfg.blockSize);
        assert d.cells[taken[i]] == c.swap.cells[cpu[i]];
      }
    } else {
      ViewIs(c, t, l, p);
      if Mapped(c, t, l, p) {
        MappedIsOwned(c, t, l, p);
        var b := BlockAt(c, t, p);
        if b in taken { QueuedIsNowhere(c, b); }
      }
    }
  }

  lemma RestoredInv(c: Cache, s: int)
    requires Inv(c) && CanSwapIn(c, s)
    ensures Inv(SwapIn(c, s)) && SwapIn(c, s) == Restored(c, s).(lru := SwapIn(c, s).lru)
  {
    var e := Restored(c, s);
    assert StashOk(c, s, c.swap.out[s]);
    RestoredCore(c, s);
    RestoredPartition(c, s);
    TouchCore(e, s);
    forall t | t in e.owned && t != s ensures Recorded(e, t) { assert Recorded(c, t); }
    TouchLru(e, s);
    SwapFrame(e, SwapIn(c, s));
  }

  lemma SwapInReads(c: Cache, s: int)
    requires Inv(c) && CanSwapIn(c, s) && Inv(SwapIn(c, s))
    ensures forall t, l, p ::
      View(SwapIn(c, s), t, l, p) == (if t == s then StashView(c, s, l, p) else View(c, t, l, p))
  {
    assert StashOk(c, s, c.swap.out[s]);
    hide Core, LruOk, Take, CopyBlocks, SetRow, View, StashView;
    var d, cpu := SwapIn(c, s), c.swap.out[s].blocks;
    var taken := c.pool.free[..|cpu|];
    RestoredCells(c, s);
    forall t, l, p ensures View(d, t, l, p) == (if t == s then StashView(c, s, l, p) else View(c, t, l, p)) {
      RestoredReads(c, d, s, cpu, taken, t, l, p);
    }
  }

  // A successful swap_in gives the sequence back exactly what swap_out put
  // away, and leaves every other sequence alone.
  lemma SwapInStep(c: Cache, s: int)
    requires Inv(c)
    ensures s in c.swap.out ==>
      (s !in SwapIn(c, s).swap.out <==> |c.swap.out[s].blocks| <= |c.pool.free|)
    ensures !CanSwapIn(c, s) ==> SwapIn(c, s) == c
    ensures CanSwapIn(c, s) ==> var d := SwapIn(c, s);
      && Inv(d) && d.cfg == c.cfg && d.dummy == c.dummy && s !in d.swap.out
      && (forall t, l, p :: View(d, t, l, p) == (if t == s then StashView(c, s, l, p) else View(c, t, l, p)))
      && (forall t :: Length(d, t) == if t == s then c.swap.out[s].len else Length(c, t))
      && StashesKept(c, d, s)
  {
    hide Inv, Take, CopyBlocks, SetRow, View, StashesKept;
    if CanSwapIn(c, s) {
      hide SwapIn;
      RestoredInv(c, s);
      SwapInReads(c, s);
      SwapInRest(c, s);
    }
  }

  lemma SwapInRest(c: Cache, s: int)
    requires Inv(c) && CanSwapIn(c, s)
    ensures var d := SwapIn(c, s);
      && d.cfg == c.cfg && d.dummy == c.dummy && s !in d.swap.out && StashesKept(c, d, s)
      && (forall t :: Length(d, t) == if t == s then c.swap.out[s].len else Length(c, t))
  {
    hide SwapIn, Core, LruOk;
    var d := SwapIn(c, s);
    SwapInFrame(c, s);
    forall t, l, p | t != s && t in c.swap.out ensures StashView(d, t, l, p) == StashView(c, t, l, p) {}
  }

  lemma SwapInFrame(c: Cache, s: int)
    requires Inv(c) && CanSwapIn(c, s)
    ensures var d, gone := SwapIn(c, s), c.swap.out[s];
      && d.cfg == c.cfg && d.dummy == c.dummy && d.lens == c.lens[s := gone.len] && 0 <= s < |c.lens| == c.cfg.maxSeqs
      && d.swap == c.swap.(free := c.swap.free + gone.blocks, out := c.swap.out - {s})
  {
    assert Shape(c) && StashOk(c, s, c.swap.out[s]);
    hide Core, LruOk, Take, CopyBlocks, SetRow;
  }
}
