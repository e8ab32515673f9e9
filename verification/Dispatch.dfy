// Sorted expert dispatch: grouping the rows of a batch by expert, running
// each expert on its segment and putting the results back gives every row
// the output of its own expert (tr_hash_i64/kernels/fused_experts.py,
// i64_ops.py).
module Dispatch {
  import opened Prelude

  // ---- Sorting permutations ----

  // order lists every index once, in ascending order of the ids.
  ghost predicate Sorts(ids: seq<nat>, order: seq<nat>) {
    && |order| == |ids| && Distinct(order)
    && (forall k :: 0 <= k < |order| ==> order[k] < |ids|)
    && (forall j, k :: 0 <= j < k < |order| ==> ids[order[j]] <= ids[order[k]])
  }

  // Equal ids keep their order.
  ghost predicate Stable(ids: seq<nat>, order: seq<nat>) {
    && (forall k :: 0 <= k < |order| ==> order[k] < |ids|)
    && (forall j, k :: 0 <= j < k < |order| && ids[order[j]] == ids[order[k]] ==> order[j] < order[k])
  }

  function Place(ids: seq<nat>, order: seq<nat>, i: nat): seq<nat>
    requires i < |ids| && forall k :: 0 <= k < |order| ==> order[k] < |ids|
  {
    if order == [] || ids[i] >= ids[order[|order| - 1]] then order + [i]
    else Place(ids, order[..|order| - 1], i) + [order[|order| - 1]]
  }

  // Ascending, equal ids in their order, all below i.
  ghost predicate Ordered(ids: seq<nat>, order: seq<nat>, i: nat) {
    && i <= |ids| && (forall k :: 0 <= k < |order| ==> order[k] < i)
    && (forall j, k :: 0 <= j < k < |order| ==> Precedes(ids, order[j], order[k]))
  }

  predicate Precedes(ids: seq<nat>, i: nat, j: nat) {
    i < |ids| && j < |ids| && (ids[i] < ids[j] || (ids[i] == ids[j] && i < j))
  }

  lemma {:induction false} PlaceKeeps(ids: seq<nat>, order: seq<nat>, i: nat)
    requires i < |ids| && Ordered(ids, order, i)
    ensures |Place(ids, order, i)| == |order| + 1 && Ordered(ids, Place(ids, order, i), i + 1)
    ensures forall k :: 0 <= k <= |order| ==> Place(ids, order, i)[k] == i || Place(ids, order, i)[k] in order
  {
    if order != [] && ids[i] < ids[order[|order| - 1]] {
      var n := |order| - 1;
      PlaceKeeps(ids, order[..n], i);
      var p := Place(ids, order[..n], i);
      forall k | 0 <= k < |p| ensures Precedes(ids, p[k], order[n]) && (p[k] == i || p[k] in order) {
        if p[k] != i {
          var m :| 0 <= m < n && order[..n][m] == p[k];
          assert Precedes(ids, order[m], order[n]);
          assert order[m] in order;
        }
      }
    } else {
      forall k | 0 <= k < |order| ensures Precedes(ids, order[k], i) {
        if k < |order| - 1 { assert Precedes(ids, order[k], order[|order| - 1]); }
      }
    }
  }

  // What a stable argsort returns, by insertion.
  function ArgSort(ids: seq<nat>, n: nat): (order: seq<nat>)
    requires n <= |ids|
    ensures forall k :: 0 <= k < |order| ==> order[k] < |ids|
  {
    if n == 0 then []
    else
      var before := ArgSort(ids, n - 1);
      PlaceInRange(ids, before, n - 1);
      Place(ids, before, n - 1)
  }

  lemma {:induction false} PlaceInRange(ids: seq<nat>, order: seq<nat>, i: nat)
    requires i < |ids| && forall k :: 0 <= k < |order| ==> order[k] < |ids|
    ensures forall k :: 0 <= k < |Place(ids, order, i)| ==> Place(ids, order, i)[k] < |ids|
  {
    if order != [] && ids[i] < ids[order[|order| - 1]] { PlaceInRange(ids, order[..|order| - 1], i); }
  }

  lemma {:induction false} ArgSortWorks(ids: seq<nat>, n: nat)
    requires n <= |ids|
    ensures |ArgSort(ids, n)| == n && Ordered(ids, ArgSort(ids, n), n)
  {
    if n > 0 {
      ArgSortWorks(ids, n - 1);
      PlaceKeeps(ids, ArgSort(ids, n - 1), n - 1);
    }
  }

  // A stable sorting order always exists.
  lemma StableOrderExists(ids: seq<nat>)
    ensures Sorts(ids, ArgSort(ids, |ids|)) && Stable(ids, ArgSort(ids, |ids|))
  {
    ArgSortWorks(ids, |ids|);
    var r := ArgSort(ids, |ids|);
    forall j, k | 0 <= j < k < |r| ensures Precedes(ids, r[j], r[k]) {}
  }

  // ---- Segments ----

  function CountOf(ids: seq<nat>, e: nat): nat {
    if ids == [] then 0 else CountOf(ids[..|ids| - 1], e) + if ids[|ids| - 1] == e then 1 else 0
  }

  // How many ids are smaller than e: where expert e's segment starts.
  function Below(ids: seq<nat>, e: nat): (n: nat)
    ensures n <= |ids|
  {
    if ids == [] then 0 else Below(ids[..|ids| - 1], e) + if ids[|ids| - 1] < e then 1 else 0
  }

  lemma {:induction false} BelowNext(ids: seq<nat>, e: nat)
    ensures Below(ids, e + 1) == Below(ids, e) + CountOf(ids, e)
  {
    if ids != [] { BelowNext(ids[..|ids| - 1], e); }
  }

  lemma {:induction false} BelowNone(ids: seq<nat>)
    ensures Below(ids, 0) == 0
  {
    if ids != [] { BelowNone(ids[..|ids| - 1]); }
  }

  lemma {:induction false} BelowAll(ids: seq<nat>, n: nat)
    requires forall i :: 0 <= i < |ids| ==> ids[i] < n
    ensures Below(ids, n) == |ids|
  {
    if ids != [] { BelowAll(ids[..|ids| - 1], n); }
  }

  lemma {:induction false} BelowSorted(s: seq<nat>, e: nat)
    requires forall j, k :: 0 <= j < k < |s| ==> s[j] <= s[k]
    ensures forall k :: 0 <= k < |s| ==> (s[k] < e <==> k < Below(s, e))
  {
    if s != [] {
      var n := |s| - 1;
      BelowSorted(s[..n], e);
      assert forall k :: 0 <= k < n ==> s[..n][k] == s[k];
      if s[n] < e {
        assert forall k :: 0 <= k < n ==> s[..n][k] < e;
        BelowAll(s[..n], e);
      }
    }
  }

  ghost function Arranged(ids: seq<nat>, order: seq<nat>): (s: seq<nat>)
    requires forall k :: 0 <= k < |order| ==> order[k] < |ids|
    ensures |s| == |order|
  {
    seq(|order|, k requires 0 <= k < |order| => ids[order[k]])
  }

  // The indices below n, those of them with id e, and the entries of an order
  // with id e, as sets.
  ghost function UpTo(n: nat): (s: set<nat>)
    ensures |s| == n && forall i: nat :: i in s <==> i < n
  {
    if n == 0 then {} else UpTo(n - 1) + {n - 1}
  }

  ghost function Image(order: seq<nat>): (s: set<nat>)
    ensures forall i: nat :: i in s <==> Occurs(order, i)
  {
    if order == [] then {}
    else
      OccursMore(order);
      Image(order[..|order| - 1]) + {order[|order| - 1]}
  }

  ghost predicate Occurs(order: seq<nat>, i: nat) {
    exists k :: 0 <= k < |order| && order[k] == i
  }

  lemma OccursMore(order: seq<nat>)
    requires order != []
    ensures forall i: nat :: Occurs(order, i) <==> Occurs(order[..|order| - 1], i) || i == order[|order| - 1]
  {
    var n := |order| - 1;
    forall i: nat ensures Occurs(order, i) <==> Occurs(order[..n], i) || i == order[n] {
      if k :| 0 <= k < |order| && order[k] == i {
        if k < n { assert order[..n][k] == i; }
      }
      if k :| 0 <= k < n && order[..n][k] == i { assert order[k] == i; }
    }
  }

  lemma {:induction false} ImageSize(order: seq<nat>)
    requires Distinct(order)
    ensures |Image(order)| == |order|
  {
    if order != [] {
      var n := |order| - 1;
      ImageSize(order[..n]);
      LastIsNew(order);
    }
  }

  // As many distinct indices below n as n are all of them.
  lemma Pigeonhole(order: seq<nat>)
    requires Distinct(order) && forall k :: 0 <= k < |order| ==> order[k] < |order|
    ensures forall i :: 0 <= i < |order| ==> Occurs(order, i)
  {
    ImageSize(order);
    SubsetSame(Image(order), UpTo(|order|));
    forall i | 0 <= i < |order| ensures Occurs(order, i) { assert i in UpTo(|order|); }
  }

  lemma SubsetSame(a: set<nat>, b: set<nat>)
    requires a <= b && |a| == |b|
    ensures a == b
  {
    assert b == a + (b - a);
  }

  ghost function Holders(ids: seq<nat>, n: nat, e: nat): (s: set<nat>)
    requires n <= |ids|
    ensures |s| == CountOf(ids[..n], e) && forall i: nat :: i in s <==> i < n && ids[i] == e
  {
    if n == 0 then {}
    else
      assert ids[..n][..n - 1] == ids[..n - 1];
      Holders(ids, n - 1, e) + if ids[n - 1] == e then {n - 1} else {}
  }

  ghost function Entries(ids: seq<nat>, order: seq<nat>, e: nat): (s: set<nat>)
    requires Distinct(order) && forall k :: 0 <= k < |order| ==> order[k] < |ids|
    ensures |s| == CountOf(Arranged(ids, order), e)
    ensures forall i: nat :: i in s <==> Occurs(order, i) && i < |ids| && ids[i] == e
  {
    if order == [] then {}
    else
      var n := |order| - 1;
      OccursMore(order);
      assert Arranged(ids, order)[..n] == Arranged(ids, order[..n]);
      LastIsNew(order);
      Entries(ids, order[..n], e) + if ids[order[n]] == e then {order[n]} else {}
  }

  lemma LastIsNew(order: seq<nat>)
    requires order != [] && Distinct(order)
    ensures !Occurs(order[..|order| - 1], order[|order| - 1])
  {
    var n := |order| - 1;
    forall k | 0 <= k < n ensures order[..n][k] != order[n] {}
  }

  lemma SameCounts(ids: seq<nat>, order: seq<nat>, e: nat)
    requires Sorts(ids, order)
    ensures CountOf(Arranged(ids, order), e) == CountOf(ids, e)
  {
    Pigeonhole(order);
    assert ids[..|ids|] == ids;
    assert Entries(ids, order, e) == Holders(ids, |ids|, e);
  }

  lemma {:induction false} SameBelow(ids: seq<nat>, order: seq<nat>, e: nat)
    requires Sorts(ids, order)
    ensures Below(Arranged(ids, order), e) == Below(ids, e)
  {
    if e == 0 {
      BelowNone(ids);
      BelowNone(Arranged(ids, order));
    } else {
      SameBelow(ids, order, e - 1);
      SameCounts(ids, order, e - 1);
      BelowNext(ids, e - 1);
      BelowNext(Arranged(ids, order), e - 1);
    }
  }

  // Expert e's segment of the sorted rows holds exactly the rows routed to e.
  lemma SegmentIs(ids: seq<nat>, order: seq<nat>, e: nat)
    requires Sorts(ids, order)
    ensures Below(ids, e) <= Below(ids, e + 1) <= |ids|
    ensures forall k :: 0 <= k < |order| ==> (Below(ids, e) <= k < Below(ids, e + 1) <==> ids[order[k]] == e)
  {
    var s := Arranged(ids, order);
    BelowSorted(s, e);
    BelowSorted(s, e + 1);
    SameBelow(ids, order, e);
    SameBelow(ids, order, e + 1);
    BelowNext(ids, e);
    forall k | 0 <= k < |order| ensures Below(ids, e) <= k < Below(ids, e + 1) <==> ids[order[k]] == e {
      assert s[k] == ids[order[k]];
    }
  }

  // ---- The loops ----

  method BinCount(ids: seq<nat>, experts: nat) returns (counts: array<nat>)
    ensures fresh(counts) && counts.Length == experts
    ensures forall e :: 0 <= e < experts ==> counts[e] == CountOf(ids, e)
  {
    counts := new nat[experts](e => 0);
    for e := 0 to experts
      invariant forall d :: 0 <= d < e ==> counts[d] == CountOf(ids, d)
    {
      var n := 0;
      for i := 0 to |ids|
        invariant n == CountOf(ids[..i], e)
      {
        assert ids[..i + 1][..i] == ids[..i];
        if ids[i] == e { n := n + 1; }
      }
      assert ids[..|ids|] == ids;
      counts[e] := n;
    }
  }

  method PrefixSums(ids: seq<nat>, counts: array<nat>) returns (offsets: array<nat>)
    requires forall e :: 0 <= e < counts.Length ==> counts[e] == CountOf(ids, e)
    ensures fresh(offsets) && offsets.Length == counts.Length + 1
    ensures forall e :: 0 <= e <= counts.Length ==> offsets[e] == Below(ids, e)
  {
    offsets := new nat[counts.Length + 1](e => 0);
    BelowNone(ids);
    for e := 0 to counts.Length
      invariant forall d :: 0 <= d <= e ==> offsets[d] == Below(ids, d)
      invariant forall d :: 0 <= d < counts.Length ==> counts[d] == CountOf(ids, d)
    {
      BelowNext(ids, e);
      offsets[e + 1] := offsets[e] + counts[e];
    }
  }

  // What one expert computes for one row; matrix products act row by row.
  type Expert<!Row> = (nat, Row) -> Row

  // The reference: every row on its own.
  function BmmForward<Row>(expert: Expert<Row>, x: seq<Row>, ids: seq<nat>): (r: seq<Row>)
    requires |x| == |ids|
    ensures |r| == |x|
  {
    seq(|x|, i requires 0 <= i < |x| => expert(ids[i], x[i]))
  }

  // Runs one expert on its segment of the sorted rows.
  method RunSegment<Row>(expert: Expert<Row>, e: nat, rows: seq<Row>, output: array<Row>, start: nat, end: nat)
    requires start <= end <= |rows| == output.Length
    modifies output
    ensures forall k :: 0 <= k < output.Length ==>
      output[k] == if start <= k < end then expert(e, rows[k]) else old(output[k])
  {
    for k := start to end
      invariant forall j :: 0 <= j < output.Length ==>
        output[j] == if start <= j < k then expert(e, rows[j]) else old(output[j])
    {
      output[k] := expert(e, rows[k]);
    }
  }

  method RunExperts<Row>(expert: Expert<Row>, rows: seq<Row>, ids: seq<nat>, order: seq<nat>, experts: nat,
                         offsets: array<nat>, output: array<Row>)
    requires Sorts(ids, order) && |rows| == |ids| == output.Length && offsets.Length == experts + 1
    requires forall e :: 0 <= e <= experts ==> offsets[e] == Below(ids, e)
    requires forall i :: 0 <= i < |ids| ==> ids[i] < experts
    requires offsets as object != output
    modifies output
    ensures forall k :: 0 <= k < |order| ==> output[k] == expert(ids[order[k]], rows[k])
  {
    for e := 0 to experts
      invariant forall d :: 0 <= d <= experts ==> offsets[d] == Below(ids, d)
      invariant forall k :: 0 <= k < |order| && ids[order[k]] < e ==> output[k] == expert(ids[order[k]], rows[k])
    {
      SegmentIs(ids, order, e);
      if offsets[e] != offsets[e + 1] {
        RunSegment(expert, e, rows, output, offsets[e], offsets[e + 1]);
      }
    }
  }

  // Sort by expert, run the segments, put the rows back.
  method ChunkedForward<Row>(expert: Expert<Row>, x: seq<Row>, ids: seq<nat>, experts: nat) returns (result: seq<Row>)
    requires |x| == |ids| && forall i :: 0 <= i < |ids| ==> ids[i] < experts
    ensures result == BmmForward(expert, x, ids)
  {
    var order := ArgSort(ids, |ids|);
    StableOrderExists(ids);
    if |x| == 0 { return []; }
    var sorted := seq(|x|, k requires 0 <= k < |x| => x[order[k]]);
    var counts := BinCount(ids, experts);
    var offsets := PrefixSums(ids, counts);
    var output := new Row[|x|](_ => x[0]);
    RunExperts(expert, sorted, ids, order, experts, offsets, output);
    result := Unsort(order, output[..], BmmForward(expert, x, ids));
  }

  // result[order] = output
  method Unsort<Row>(order: seq<nat>, output: seq<Row>, ghost goal: seq<Row>) returns (result: seq<Row>)
    requires |order| == |output| == |goal| > 0 && Distinct(order)
    requires forall k :: 0 <= k < |order| ==> order[k] < |goal| && output[k] == goal[order[k]]
    ensures result == goal
  {
    var r := new Row[|output|](_ => output[0]);
    for k := 0 to |order|
      invariant forall j :: 0 <= j < k ==> r[order[j]] == goal[order[j]]
    {
      r[order[k]] := output[k];
    }
    Pigeonhole(order);
    forall i | 0 <= i < |goal| ensures r[i] == goal[i] {
      assert Occurs(order, i);
      var k :| 0 <= k < |order| && order[k] == i;
    }
    result := r[..];
  }

  // ---- Scatter, run, gather ----

  // The start of each segment, without the final end.
  method SegmentStarts(ids: seq<nat>, counts: array<nat>) returns (offsets: array<nat>)
    requires forall e :: 0 <= e < counts.Length ==> counts[e] == CountOf(ids, e)
    ensures fresh(offsets) && offsets.Length == counts.Length
    ensures forall e :: 0 <= e < counts.Length ==> offsets[e] == Below(ids, e)
  {
    offsets := new nat[counts.Length](e => 0);
    BelowNone(ids);
    if counts.Length == 0 { return; }
    for e := 1 to counts.Length
      invariant forall d :: 0 <= d < e ==> offsets[d] == Below(ids, d)
      invariant forall d :: 0 <= d < counts.Length ==> counts[d] == CountOf(ids, d)
    {
      BelowNext(ids, e - 1);
      offsets[e] := offsets[e - 1] + counts[e - 1];
    }
  }

  // Runs each expert on the rows its offset and count name.
  method ExpertForward<Row>(expert: Expert<Row>, rows: seq<Row>, ids: seq<nat>, order: seq<nat>, experts: nat,
                            offsets: array<nat>, counts: array<nat>, output: array<Row>)
    requires Sorts(ids, order) && |rows| == |ids| == output.Length && offsets.Length == counts.Length == experts
    requires forall e :: 0 <= e < experts ==> offsets[e] == Below(ids, e) && counts[e] == CountOf(ids, e)
    requires forall i :: 0 <= i < |ids| ==> ids[i] < experts
    requires offsets as object != output && counts as object != output
    modifies output
    ensures forall k :: 0 <= k < |order| ==> output[k] == expert(ids[order[k]], rows[k])
  {
    for e := 0 to experts
      invariant forall d :: 0 <= d < experts ==> offsets[d] == Below(ids, d) && counts[d] == CountOf(ids, d)
      invariant forall k :: 0 <= k < |order| && ids[order[k]] < e ==> output[k] == expert(ids[order[k]], rows[k])
    {
      SegmentIs(ids, order, e);
      BelowNext(ids, e);
      if counts[e] != 0 {
        RunSegment(expert, e, rows, output, offsets[e], offsets[e] + counts[e]);
      }
    }
  }

  // Any sorting order will do here; the source does not ask for a stable one.
  method Scatter<Row>(x: seq<Row>, ids: seq<nat>, order: seq<nat>, experts: nat)
    returns (scattered: seq<Row>, indices: seq<nat>, offsets: array<nat>, counts: array<nat>)
    requires |x| == |ids| && Sorts(ids, order)
    ensures fresh(offsets) && fresh(counts) && counts.Length == experts && offsets.Length == experts
    ensures forall e :: 0 <= e < experts ==> counts[e] == CountOf(ids, e)
    ensures forall e :: 0 <= e < experts ==> offsets[e] == Below(ids, e)
    ensures |scattered| == |indices| == |x|
    ensures forall k :: 0 <= k < |x| ==> scattered[k] == x[order[k]]
    ensures forall k :: 0 <= k < |order| ==> indices[order[k]] == k
    ensures forall i :: 0 <= i < |x| ==> indices[i] < |x| && order[indices[i]] == i
  {
    counts := BinCount(ids, experts);
    offsets := SegmentStarts(ids, counts);
    scattered := seq(|x|, k requires 0 <= k < |x| => x[order[k]]);
    var back := new nat[|x|](_ => 0);
    for k := 0 to |order|
      invariant forall j :: 0 <= j < k ==> back[order[j]] == j
      invariant forall d :: 0 <= d < experts ==> offsets[d] == Below(ids, d)
      invariant forall d :: 0 <= d < experts ==> counts[d] == CountOf(ids, d)
    {
      back[order[k]] := k;
    }
    indices := back[..];
    Pigeonhole(order);
    forall i | 0 <= i < |x| ensures indices[i] < |x| && order[indices[i]] == i {
      assert Occurs(order, i);
      var k :| 0 <= k < |order| && order[k] == i;
    }
  }

  method Gather<Row>(output: seq<Row>, indices: seq<nat>) returns (r: seq<Row>)
    requires forall i :: 0 <= i < |indices| ==> indices[i] < |output|
    ensures |r| == |indices| && forall i :: 0 <= i < |r| ==> r[i] == output[indices[i]]
  {
    r := seq(|indices|, i requires 0 <= i < |indices| => output[indices[i]]);
  }

  // scatter, expert_forward and gather in a row give what each row's own
  // expert gives.
  method Pipeline<Row>(expert: Expert<Row>, x: seq<Row>, ids: seq<nat>, order: seq<nat>,
                       experts: nat) returns (r: seq<Row>)
    requires |x| == |ids| && Sorts(ids, order) && forall i :: 0 <= i < |ids| ==> ids[i] < experts
    ensures r == BmmForward(expert, x, ids)
  {
    if |x| == 0 { return []; }
    var scattered, indices, offsets, counts := Scatter(x, ids, order, experts);
    var output := new Row[|x|](_ => x[0]);
    ExpertForward(expert, scattered, ids, order, experts, offsets, counts, output);
    r := Gather(output[..], indices);
  }

  // ---- Routing ----

  // token & (experts - 1), for a power of two: the token's remainder.
  function PowerOfTwo(k: nat): pos {
    if k == 0 then 1 else 2 * PowerOfTwo(k - 1)
  }

  // The low k bits of a number, bit by bit.
  function LowBits(x: nat, k: nat): nat {
    if k == 0 then 0 else x % 2 + 2 * LowBits(x / 2, k - 1)
  }

  // Masking keeps an id in range, so dispatch always has a segment for it.
  lemma {:induction false} RoutedInRange(x: nat, k: nat)
    ensures LowBits(x, k) < PowerOfTwo(k) && LowBits(x, k) == x % PowerOfTwo(k)
  {
    if k == 0 {
      assert x % 1 == 0;
    } else {
      RoutedInRange(x / 2, k - 1);
      var m := PowerOfTwo(k - 1);
      HalveRemainder(x, m);
    }
  }

  lemma HalveRemainder(x: nat, m: pos)
    ensures x % (2 * m) == x % 2 + 2 * ((x / 2) % m)
  {
    var q, r := (x / 2) / m, (x / 2) % m;
    assert x / 2 == q * m + r;
    assert x == 2 * (x / 2) + x % 2;
    assert x == q * (2 * m) + (2 * r + x % 2) by {
      assert 2 * (q * m) == q * (2 * m);
    }
    QuotUnique(x, q, 2 * r + x % 2, 2 * m);
    QuotRem(x, 2 * m);
  }
}
