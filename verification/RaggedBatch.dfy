// Ragged batches: the pieces of all requests laid out flat, the filter that
// drops requests without a cache slot, and the index of each request's last
// row (tr_hash_i64/engine/i64_scheduler.py, i64_engine.py).
module RaggedBatch {
  import opened Prelude
  import opened SchedulerSpec

  datatype Batch = Batch(ids: seq<int>, counts: seq<nat>, tokens: seq<int>, positions: seq<int>)

  predicate Aligned(p: Piece) {
    |p.tokens| == |p.positions|
  }

  ghost predicate AllAligned(ps: seq<Piece>) {
    forall i :: 0 <= i < |ps| ==> Aligned(ps[i])
  }

  // The layout everything is measured against: pieces one after the other.
  ghost function Flat(ps: seq<Piece>): (b: Batch)
    ensures |b.ids| == |b.counts| == |ps|
  {
    if ps == [] then Batch([], [], [], []) else Joined(Flat(ps[..|ps| - 1]), ps[|ps| - 1])
  }

  ghost function Joined(b: Batch, p: Piece): Batch {
    Batch(b.ids + [p.id], b.counts + [|p.tokens|], b.tokens + p.tokens, b.positions + p.positions)
  }

  function Sum(counts: seq<nat>): nat {
    if counts == [] then 0 else Sum(counts[..|counts| - 1]) + counts[|counts| - 1]
  }

  // The lengths add up to the flat length.
  ghost predicate Regular(b: Batch) {
    |b.ids| == |b.counts| && |b.tokens| == |b.positions| == Sum(b.counts)
  }

  lemma {:induction false} FlatShape(ps: seq<Piece>)
    requires AllAligned(ps)
    ensures Regular(Flat(ps))
    ensures forall i :: 0 <= i < |ps| ==> Flat(ps).ids[i] == ps[i].id && Flat(ps).counts[i] == |ps[i].tokens|
  {
    if ps != [] {
      FlatShape(ps[..|ps| - 1]);
      var b := Flat(ps);
      assert b.counts[..|ps| - 1] == Flat(ps[..|ps| - 1]).counts;
    }
  }

  // Where request i starts.
  function Start(counts: seq<nat>, i: nat): nat
    requires i <= |counts|
  {
    Sum(counts[..i])
  }

  // The rows of request i are exactly this piece.
  ghost predicate Own(b: Batch, i: nat, p: Piece) {
    && i < |b.counts| && Start(b.counts, i) + |p.tokens| <= |b.tokens| == |b.positions| && Aligned(p)
    && b.tokens[Start(b.counts, i)..Start(b.counts, i) + |p.tokens|] == p.tokens
    && b.positions[Start(b.counts, i)..Start(b.counts, i) + |p.tokens|] == p.positions
  }

  lemma OwnJoined(b: Batch, p: Piece, i: nat, q: Piece)
    requires Regular(b) && Aligned(p) && Aligned(q)
    requires if i < |b.counts| then Own(b, i, q) else i == |b.counts| && q == p
    ensures Own(Joined(b, p), i, q)
  {
    var c := Joined(b, p);
    assert c.counts[..i] == b.counts[..i];
    if i == |b.counts| { assert b.counts[..i] == b.counts; }
  }

  // Each request's rows are its own piece, at the running offset.
  lemma {:induction false} RowsAreOwn(ps: seq<Piece>, i: nat)
    requires AllAligned(ps) && i < |ps|
    ensures Own(Flat(ps), i, ps[i])
  {
    var n := |ps| - 1;
    FlatShape(ps[..n]);
    hide Own, Regular;
    if i < n { RowsAreOwn(ps[..n], i); }
    OwnJoined(Flat(ps[..n]), ps[n], i, ps[i]);
  }

  // ---- Flattening into preallocated arrays ----

  method TotalRows(ps: seq<Piece>) returns (n: nat)
    requires AllAligned(ps)
    ensures n == |Flat(ps).tokens|
  {
    n := 0;
    for i := 0 to |ps|
      invariant n == |Flat(ps[..i]).tokens|
    {
      assert ps[..i + 1][..i] == ps[..i];
      n := n + |ps[i].tokens|;
    }
    assert ps[..|ps|] == ps;
  }

  method CopySlice(dst: array<int>, offset: nat, src: seq<int>)
    requires offset + |src| <= dst.Length
    modifies dst
    ensures dst[..] == old(dst[..offset]) + src + old(dst[offset + |src|..])
  {
    for k := 0 to |src|
      invariant dst[..] == old(dst[..offset]) + src[..k] + old(dst[offset + k..])
    {
      dst[offset + k] := src[k];
    }
  }

  method Flatten(ps: seq<Piece>) returns (b: Batch)
    requires AllAligned(ps)
    ensures b == Flat(ps)
  {
    hide Flat;
    NothingFlat();
    var total := TotalRows(ps);
    FlatShape(ps);
    var tokens := new int[total];
    var positions := new int[total];
    var ids, counts, offset := [], [], 0;
    for i := 0 to |ps|
      invariant offset == |Flat(ps[..i]).tokens| == |Flat(ps[..i]).positions| <= total
      invariant tokens[..offset] == Flat(ps[..i]).tokens && positions[..offset] == Flat(ps[..i]).positions
      invariant ids == Flat(ps[..i]).ids && counts == Flat(ps[..i]).counts
    {
      ghost var done := Flat(ps[..i]);
      FlatMore(ps, i);
      PrefixFits(ps, i + 1);
      var n := |ps[i].tokens|;
      CopySlice(tokens, offset, ps[i].tokens);
      CopySlice(positions, offset, ps[i].positions);
      assert tokens[..offset + n] == done.tokens + ps[i].tokens;
      assert positions[..offset + n] == done.positions + ps[i].positions;
      ids, counts, offset := ids + [ps[i].id], counts + [n], offset + n;
    }
    assert ps[..|ps|] == ps;
    b := Batch(ids, counts, tokens[..], positions[..]);
  }

  lemma NothingFlat()
    ensures Flat([]) == Batch([], [], [], [])
  {
  }

  lemma FlatMore(ps: seq<Piece>, i: nat)
    requires i < |ps|
    ensures Flat(ps[..i + 1]) == Joined(Flat(ps[..i]), ps[i])
  {
    assert ps[..i + 1][..i] == ps[..i] && ps[..i + 1][i] == ps[i];
  }

  lemma {:induction false} PrefixFits(ps: seq<Piece>, i: nat)
    requires AllAligned(ps) && i <= |ps|
    ensures |Flat(ps[..i]).tokens| == |Flat(ps[..i]).positions| <= |Flat(ps).tokens|
  {
    FlatShape(ps[..i]);
    if i == |ps| {
      assert ps[..i] == ps;
    } else {
      PrefixFits(ps[..|ps| - 1], i);
      assert ps[..|ps| - 1][..i] == ps[..i];
    }
  }

  // ---- Dropping requests without a slot ----

  // The pieces of the requests that have a slot.
  ghost function Kept(ps: seq<Piece>, slots: map<int, int>): (k: seq<Piece>)
    ensures |k| <= |ps|
  {
    if ps == [] then []
    else Kept(ps[..|ps| - 1], slots) + if ps[|ps| - 1].id in slots then [ps[|ps| - 1]] else []
  }

  // A request's flag, once for each of its rows.
  function Repeat(flags: seq<bool>, counts: seq<nat>): seq<bool>
    requires |flags| == |counts|
  {
    if flags == [] then []
    else
      var n := |flags| - 1;
      Repeat(flags[..n], counts[..n]) + seq(counts[n], i => flags[n])
  }

  function Select<T>(values: seq<T>, mask: seq<bool>): seq<T>
    requires |values| == |mask|
  {
    if values == [] then []
    else
      var n := |values| - 1;
      Select(values[..n], mask[..n]) + if mask[n] then [values[n]] else []
  }

  lemma {:induction false} SelectAppend<T>(a: seq<T>, b: seq<T>, m: seq<bool>, k: seq<bool>)
    requires |a| == |m| && |b| == |k|
    ensures Select(a + b, m + k) == Select(a, m) + Select(b, k)
  {
    if b == [] {
      assert a + b == a && m + k == m;
    } else {
      var n := |b| - 1;
      assert (a + b)[..|a| + n] == a + b[..n] && (m + k)[..|a| + n] == m + k[..n];
      SelectAppend(a, b[..n], m, k[..n]);
    }
  }

  lemma {:induction false} SelectSame<T>(a: seq<T>, flags: seq<bool>, flag: bool)
    requires |flags| == |a| && forall i :: 0 <= i < |flags| ==> flags[i] == flag
    ensures Select(a, flags) == if flag then a else []
  {
    if a != [] {
      var n := |a| - 1;
      SelectSame(a[..n], flags[..n], flag);
      assert a == a[..n] + [a[n]];
    }
  }

  // Which requests of the batch have a slot.
  function Flags(ids: seq<int>, slots: map<int, int>): seq<bool> {
    seq(|ids|, i requires 0 <= i < |ids| => ids[i] in slots)
  }

  lemma {:induction false} RepeatLength(flags: seq<bool>, counts: seq<nat>)
    requires |flags| == |counts|
    ensures |Repeat(flags, counts)| == Sum(counts)
  {
    if flags != [] { RepeatLength(flags[..|flags| - 1], counts[..|counts| - 1]); }
  }

  // What the filter computes on the flat arrays.
  function Filtered(b: Batch, slots: map<int, int>): Batch
    requires Regular(b)
  {
    var flags := Flags(b.ids, slots);
    RepeatLength(flags, b.counts);
    var rows := Repeat(flags, b.counts);
    Batch(Select(b.ids, flags), Select(b.counts, flags), Select(b.tokens, rows), Select(b.positions, rows))
  }

  // Filtering the flat arrays is laying out the survivors' pieces.
  lemma {:induction false} FilterKeepsPieces(ps: seq<Piece>, slots: map<int, int>)
    requires AllAligned(ps)
    ensures Regular(Flat(ps)) && Filtered(Flat(ps), slots) == Flat(Kept(ps, slots))
  {
    hide Regular, Filtered, Sum, Kept, AllAligned, Joined, Flat;
    FlatShape(ps);
    if ps == [] {
      NothingLaidOut(slots);
      NothingFiltered(slots);
    } else {
      var n := |ps| - 1;
      LastPiece(ps);
      FilterKeepsPieces(ps[..n], slots);
      FilterOne(Flat(ps[..n]), ps[n], slots);
      KeptOne(ps, slots);
    }
  }

  lemma NothingLaidOut(slots: map<int, int>)
    ensures Flat([]) == Batch([], [], [], []) && Kept([], slots) == []
  {
  }

  lemma LastPiece(ps: seq<Piece>)
    requires AllAligned(ps) && ps != []
    ensures var n := |ps| - 1;
      AllAligned(ps[..n]) && Aligned(ps[n]) && Flat(ps) == Joined(Flat(ps[..n]), ps[n])
  {
  }

  lemma NothingFiltered(slots: map<int, int>)
    ensures Regular(Batch([], [], [], [])) && Filtered(Batch([], [], [], []), slots) == Batch([], [], [], [])
  {
    var flags: seq<bool> := Flags([], slots);
    assert flags == [] && Repeat(flags, []) == [];
    assert Select<int>([], []) == [] && Select<nat>([], []) == [];
  }

  lemma KeptOne(ps: seq<Piece>, slots: map<int, int>)
    requires ps != []
    ensures var before := Kept(ps[..|ps| - 1], slots);
      Flat(Kept(ps, slots)) == if ps[|ps| - 1].id in slots then Joined(Flat(before), ps[|ps| - 1]) else Flat(before)
  {
    var p, before := ps[|ps| - 1], Kept(ps[..|ps| - 1], slots);
    if p.id in slots {
      assert (before + [p])[..|before|] == before;
    } else {
      assert before + [] == before;
    }
  }

  lemma FilterOne(c: Batch, p: Piece, slots: map<int, int>)
    requires Regular(c) && Aligned(p) && Regular(Joined(c, p))
    ensures Filtered(Joined(c, p), slots) == if p.id in slots then Joined(Filtered(c, slots), p) else Filtered(c, slots)
  {
    var b, n, flag := Joined(c, p), |c.ids|, p.id in slots;
    var flags := Flags(c.ids, slots);
    assert Flags(b.ids, slots) == flags + [flag];
    assert (flags + [flag])[..n] == flags && b.counts[..n] == c.counts && b.ids[..n] == c.ids;
    RepeatLength(flags, c.counts);
    RowsOne(c, p, flags, flag);
    if !flag {
      assert Filtered(c, slots).ids + [] == Filtered(c, slots).ids
        && Filtered(c, slots).counts + [] == Filtered(c, slots).counts;
    }
  }

  lemma RowsOne(c: Batch, p: Piece, flags: seq<bool>, flag: bool)
    requires |flags| == |c.counts|
    requires |c.tokens| == |c.positions| == Sum(c.counts) == |Repeat(flags, c.counts)| && Aligned(p)
    ensures var rows := Repeat(flags + [flag], c.counts + [|p.tokens|]);
      && |rows| == |c.tokens + p.tokens| == |c.positions + p.positions|
      && Select(c.tokens + p.tokens, rows) ==
         Select(c.tokens, Repeat(flags, c.counts)) + (if flag then p.tokens else [])
      && Select(c.positions + p.positions, rows) ==
         Select(c.positions, Repeat(flags, c.counts)) + if flag then p.positions else []
  {
    var n := |flags|;
    assert (flags + [flag])[..n] == flags && (c.counts + [|p.tokens|])[..n] == c.counts;
    var more := seq(|p.tokens|, i => flag);
    assert Repeat(flags + [flag], c.counts + [|p.tokens|]) == Repeat(flags, c.counts) + more;
    hide Select, Repeat;
    SelectAppend(c.tokens, p.tokens, Repeat(flags, c.counts), more);
    SelectAppend(c.positions, p.positions, Repeat(flags, c.counts), more);
    SelectSame(p.tokens, more, flag);
    SelectSame(p.positions, more, flag);
  }

  // The loop over the requests that collects slots and survivors, and the
  // mask it builds.
  method Prepare(b: Batch, slots: map<int, int>) returns (r: Batch, seqIds: seq<int>)
    requires Regular(b)
    ensures r == Filtered(b, slots)
    ensures |seqIds| == |r.ids| && forall i :: 0 <= i < |r.ids| ==> r.ids[i] in slots && seqIds[i] == slots[r.ids[i]]
  {
    seqIds := [];
    var valid: seq<bool> := [];
    for i := 0 to |b.ids|
      invariant valid == Flags(b.ids, slots)[..i]
      invariant |seqIds| == |Select(b.ids[..i], valid)|
      invariant forall k :: 0 <= k < |seqIds| ==>
        Select(b.ids[..i], valid)[k] in slots && seqIds[k] == slots[Select(b.ids[..i], valid)[k]]
    {
      var present := b.ids[i] in slots;
      ghost var was := valid;
      valid := valid + [present];
      assert valid[..i] == was && b.ids[..i + 1][..i] == b.ids[..i];
      if present { seqIds := seqIds + [slots[b.ids[i]]]; }
    }
    assert b.ids[..|b.ids|] == b.ids && Flags(b.ids, slots)[..|b.ids|] == Flags(b.ids, slots);
    if |seqIds| < |b.ids| {
      r := Filtered(b, slots);
    } else {
      AllKept(b, slots);
      r := b;
    }
  }

  lemma {:induction false} SelectShort<T>(a: seq<T>, m: seq<bool>)
    requires |a| == |m|
    ensures |Select(a, m)| <= |a|
    ensures |Select(a, m)| == |a| ==> forall i :: 0 <= i < |m| ==> m[i]
  {
    if a != [] {
      var n := |a| - 1;
      SelectShort(a[..n], m[..n]);
      forall i | |Select(a, m)| == |a| && 0 <= i < |m| ensures m[i] {
        if i < n { assert m[..n][i] == m[i]; }
      }
    }
  }

  lemma {:induction false} RepeatTrue(flags: seq<bool>, counts: seq<nat>)
    requires |flags| == |counts| && forall i :: 0 <= i < |flags| ==> flags[i]
    ensures |Repeat(flags, counts)| == Sum(counts)
    ensures forall i :: 0 <= i < |Repeat(flags, counts)| ==> Repeat(flags, counts)[i]
  {
    if flags != [] { RepeatTrue(flags[..|flags| - 1], counts[..|counts| - 1]); }
  }

  lemma AllKept(b: Batch, slots: map<int, int>)
    requires Regular(b)
    requires |Select(b.ids, Flags(b.ids, slots))| >= |b.ids|
    ensures Filtered(b, slots) == b
  {
    var flags := Flags(b.ids, slots);
    SelectShort(b.ids, flags);
    RepeatTrue(flags, b.counts);
    SelectSame(b.ids, flags, true);
    SelectSame(b.counts, flags, true);
    SelectSame(b.tokens, Repeat(flags, b.counts), true);
    SelectSame(b.positions, Repeat(flags, b.counts), true);
  }

  // ---- The last row of each request ----

  method LastIndices(counts: seq<nat>) returns (last: seq<int>)
    ensures |last| == |counts| && forall i :: 0 <= i < |counts| ==> last[i] == Start(counts, i + 1) - 1
  {
    last := [];
    var offset: int := 0;
    for i := 0 to |counts|
      invariant offset == Start(counts, i) && |last| == i
      invariant forall k :: 0 <= k < i ==> last[k] == Start(counts, k + 1) - 1
    {
      assert counts[..i + 1][..i] == counts[..i];
      last := last + [offset + counts[i] - 1];
      offset := offset + counts[i];
    }
  }

  // The index of request i's last row is inside its own rows exactly when it
  // has any.
  lemma LastIndexIsOwn(b: Batch, i: nat, p: Piece)
    requires Own(b, i, p) && b.counts[i] == |p.tokens|
    ensures var k := Start(b.counts, i + 1) - 1;
      && (Start(b.counts, i) <= k < Start(b.counts, i) + |p.tokens| <==> p.tokens != [])
      && (p.tokens != [] ==>
            && k < |b.tokens| && b.tokens[k] == p.tokens[|p.tokens| - 1]
            && b.positions[k] == p.positions[|p.positions| - 1])
  {
    var start, n := Start(b.counts, i), |p.tokens|;
    assert b.counts[..i + 1][..i] == b.counts[..i];
    if n > 0 {
      assert b.tokens[start..start + n][n - 1] == b.tokens[start + n - 1];
      assert b.positions[start..start + n][n - 1] == b.positions[start + n - 1];
    }
  }

  lemma {:induction false} KeptPieces(ps: seq<Piece>, slots: map<int, int>)
    requires AllAligned(ps)
    ensures AllAligned(Kept(ps, slots)) && forall p :: p in Kept(ps, slots) <==> p in ps && p.id in slots
  {
    if ps != [] {
      var n := |ps| - 1;
      KeptPieces(ps[..n], slots);
      assert ps == ps[..n] + [ps[n]];
    }
  }

  lemma {:induction false} PiecesAligned(running: seq<Request>, budget: int)
    ensures AllAligned(Pieces(running, budget))
    decreases |running|
  {
    if running != [] { PiecesAligned(running[1..], BudgetAfter(running[0], budget)); }
  }

  // What a surviving request finds in the filtered batch.
  ghost predicate Finds(b: Batch, i: nat, p: Piece) {
    && Regular(b) && i < |b.ids| && b.ids[i] == p.id && b.counts[i] == |p.tokens| && Own(b, i, p)
    && (p.tokens != [] ==>
          (var k := Start(b.counts, i + 1) - 1;
           && 0 <= k < |b.tokens| && b.tokens[k] == p.tokens[|p.tokens| - 1]
           && b.positions[k] == p.positions[|p.positions| - 1]))
  }

  lemma KeptAreAligned(ps: seq<Piece>, slots: map<int, int>, i: nat)
    requires AllAligned(ps) && i < |Kept(ps, slots)|
    ensures Regular(Flat(ps)) && Finds(Filtered(Flat(ps), slots), i, Kept(ps, slots)[i])
    ensures Kept(ps, slots)[i] in ps && Kept(ps, slots)[i].id in slots
  {
    hide Kept, Filtered, Flat, Regular, Own, AllAligned, Start;
    var kept := Kept(ps, slots);
    KeptPieces(ps, slots);
    FilterKeepsPieces(ps, slots);
    assert kept[i] in kept;
    FlatShape(kept);
    RowsAreOwn(kept, i);
    LastIndexIsOwn(Flat(kept), i, kept[i]);
  }

  // After schedule and the filter, every surviving request finds exactly its
  // own chunk, in order, at its running offset, and its logits row at the
  // index the engine computes.
  lemma SurvivorsAreAligned(running: seq<Request>, budget: int, slots: map<int, int>, i: nat)
    requires i < |Kept(Pieces(running, budget), slots)|
    ensures var ps := Pieces(running, budget); var p := Kept(ps, slots)[i];
      AllAligned(ps) && Regular(Flat(ps)) && p in ps && p.id in slots && Finds(Filtered(Flat(ps), slots), i, p)
  {
    hide *;
    PiecesAligned(running, budget);
    KeptAreAligned(Pieces(running, budget), slots, i);
  }
}
