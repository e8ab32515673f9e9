// Replaying captured graphs: a batch is padded to the nearest captured size
// (tr_hash_i64/core/cuda_graph.py).
module GraphRunner {
  import opened Prelude
  import GraphMode

  datatype Input = Input(token: int, position: int, expert: int)

  // What capture and the padded tail put into an unused row.
  const PAD := Input(0, 0, 0)

  function Padding(n: nat): (r: seq<Input>)
    ensures |r| == n
  {
    seq(n, i => PAD)
  }

  // The padded batch is what graph-mode decode is proved about: the tail rows
  // are decoded at position 0.
  lemma PaddingIsPadded(batch: seq<Input>, size: nat, call: GraphMode.Call)
    requires |batch| <= size && |call.positions| == |batch| && |call.padding| == size - |batch|
    requires forall i :: 0 <= i < |batch| ==> batch[i].position == call.positions[i]
    ensures |GraphMode.PaddedPositions(call)| == size
    ensures forall i :: 0 <= i < size ==>
      (batch + Padding(size - |batch|))[i].position == GraphMode.PaddedPositions(call)[i]
  {
    forall i | 0 <= i < size
      ensures (batch + Padding(size - |batch|))[i].position == GraphMode.PaddedPositions(call)[i] {}
  }

  // A forward pass treats each row on its own: one output row per input row,
  // not depending on the other rows.
  ghost predicate RowWise<Out>(forward: seq<Input> -> seq<Out>) {
    && (forall batch {:trigger forward(batch)} :: |forward(batch)| == |batch|)
    && (forall a, b, i :: 0 <= i < |a| && i < |b| && |forward(a)| == |a| && |forward(b)| == |b| && a[i] == b[i] ==>
          forward(a)[i] == forward(b)[i])
  }

  class StaticInputs {
    const tokenIds: array<int>
    const positions: array<int>
    const expertIds: array<int>

    ghost const repr: set<object>

    ghost predicate Valid() {
      && tokenIds.Length == positions.Length == expertIds.Length
      && tokenIds != positions && tokenIds != expertIds && positions != expertIds
      && repr == {tokenIds, positions, expertIds}
    }

    ghost function Contents(): (r: seq<Input>)
      reads repr
      requires Valid()
      ensures |r| == tokenIds.Length
    {
      seq(tokenIds.Length, i requires 0 <= i < tokenIds.Length reads repr =>
        Input(tokenIds[i], positions[i], expertIds[i]))
    }

    constructor (size: nat)
      ensures Valid() && fresh(repr) && tokenIds.Length == size
    {
      var t := new int[size];
      var p := new int[size];
      var e := new int[size];
      tokenIds, positions, expertIds := t, p, e;
      repr := {t, p, e};
    }

    // Clears the rows behind the batch and copies the batch to the front.
    method Load(batch: seq<Input>)
      requires Valid() && |batch| <= tokenIds.Length
      modifies repr
      ensures Contents() == batch + Padding(tokenIds.Length - |batch|)
    {
      var n := tokenIds.Length;
      for i := |batch| to n
        invariant forall k :: |batch| <= k < i ==> tokenIds[k] == 0 && positions[k] == 0 && expertIds[k] == 0
      {
        tokenIds[i], positions[i], expertIds[i] := 0, 0, 0;
      }
      for i := 0 to |batch|
        invariant forall k :: |batch| <= k < n ==> tokenIds[k] == 0 && positions[k] == 0 && expertIds[k] == 0
        invariant forall k :: 0 <= k < i ==> Input(tokenIds[k], positions[k], expertIds[k]) == batch[k]
      {
        tokenIds[i], positions[i], expertIds[i] := batch[i].token, batch[i].position, batch[i].expert;
      }
    }

    method Read() returns (batch: seq<Input>)
      requires Valid()
      ensures batch == Contents()
    {
      batch := seq(tokenIds.Length, i requires 0 <= i < tokenIds.Length reads repr =>
                     Input(tokenIds[i], positions[i], expertIds[i]));
    }
  }

  // The smallest captured size that holds the batch.
  ghost predicate Best(sizes: set<nat>, n: nat, r: Option<nat>) {
    match r
    case None => forall s :: s in sizes ==> s < n
    case Some(best) => best in sizes && n <= best && forall s :: s in sizes && n <= s ==> best <= s
  }

  method FindBestSize(sizes: set<nat>, n: nat) returns (r: Option<nat>)
    ensures Best(sizes, n, r)
  {
    var todo := sizes;
    r := None;
    while todo != {}
      invariant todo <= sizes && Best(sizes - todo, n, r)
      decreases |todo|
    {
      var s :| s in todo;
      assert sizes - (todo - {s}) == (sizes - todo) + {s};
      if s >= n && (r.None? || s < r.value) { r := Some(s); }
      todo := todo - {s};
    }
    assert sizes - todo == sizes;
  }

  // The best size is unique, so which graph replays is determined.
  lemma BestIsUnique(sizes: set<nat>, n: nat, r: Option<nat>, q: Option<nat>)
    requires Best(sizes, n, r) && Best(sizes, n, q)
    ensures r == q
  {
  }

  class CUDAGraphRunner<Out> {
    const forward: seq<Input> -> seq<Out>
    var staticInputs: map<nat, StaticInputs>

    ghost predicate Valid()
      reads this
    {
      RowWise(forward) &&
      forall size {:trigger staticInputs[size]} :: size in staticInputs ==>
        staticInputs[size].Valid() && staticInputs[size].tokenIds.Length == size
    }

    ghost function Footprint(): set<object>
      reads this
    {
      set s, o | s in staticInputs && o in staticInputs[s].repr :: o
    }

    constructor (forward: seq<Input> -> seq<Out>)
      requires RowWise(forward)
      ensures Valid() && staticInputs == map[] && this.forward == forward
    {
      this.forward, staticInputs := forward, map[];
    }

    method Capture(size: nat)
      requires Valid()
      modifies this
      ensures Valid() && staticInputs.Keys == old(staticInputs.Keys) + {size}
    {
      var buffers := new StaticInputs(size);
      staticInputs := staticInputs[size := buffers];
    }

    // Whether a graph replays or not, and whichever does, the batch gets the
    // outputs of its own rows.
    method Run(batch: seq<Input>) returns (out: seq<Out>)
      requires Valid()
      modifies Footprint()
      ensures Valid() && out == forward(batch)
    {
      var best := FindBestSize(staticInputs.Keys, |batch|);
      if best.None? { return forward(batch); }
      var buffers := staticInputs[best.value];
      assert buffers.repr <= Footprint();
      buffers.Load(batch);
      var padded := buffers.Read();
      out := forward(padded)[..|batch|];
      assert |forward(padded)| == |padded| && |forward(batch)| == |batch|;
      assert forall i :: 0 <= i < |batch| ==> padded[i] == batch[i];
    }
  }
}
