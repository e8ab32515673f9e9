// The scheduler object (tr_hash_i64/engine/i64_scheduler.py). State() is the
// value it stands for; every method is proved to compute the SchedulerSpec
// function of the same operation on it. Requests are records held by the
// queue they are in.
module Scheduler {
  import opened Prelude
  import opened SchedulerSpec
  import RaggedBatch

  class I64Scheduler {
    const cfg: Settings
    var pendingHeap: seq<Request>
    var running: seq<Request>
    var finished: seq<Request>
    var preempted: seq<Request>
    var freeBlocks: seq<int>
    var freeBlocksSet: set<int>
    var nextRequestId: int
    var stepCounter: int

    ghost function State(): Sched
      reads this
    {
      Sched(cfg, pendingHeap, running, finished, preempted, freeBlocks, nextRequestId, stepCounter)
    }

    // The free list has no duplicates and the set beside it agrees with it.
    ghost predicate Valid()
      reads this
    {
      Distinct(freeBlocks) && freeBlocksSet == Elements(freeBlocks)
    }

    constructor (cfg: Settings)
      ensures Valid() && State() == Init(cfg)
    {
      this.cfg := cfg;
      pendingHeap, running, finished, preempted := [], [], [], [];
      var all := seq(cfg.maxBlocks, i => i);
      freeBlocks, freeBlocksSet := all, set b | b in all;
      nextRequestId, stepCounter := 0, 0;
    }

    method AddRequest(prompt: seq<int>, maxNew: int, priority: int, eos: int, stops: seq<int>) returns (id: int)
      requires Valid()
      modifies this
      ensures Valid() && State() == Add(old(State()), prompt, maxNew, priority, eos, stops)
      ensures id == old(nextRequestId)
    {
      id := nextRequestId;
      nextRequestId := nextRequestId + 1;
      var r := Request(id, prompt, maxNew, eos, stops, PENDING, [], [], 0, priority, 0, stepCounter, None);
      pendingHeap := Push(pendingHeap, r);
    }

    ghost static function Population(s: Sched): nat {
      |s.pending| + |s.running| + |s.preempted| + |s.finished|
    }

    static method Retain(queue: seq<Request>, id: int) returns (kept: seq<Request>)
      ensures kept == Others(queue, id)
    {
      kept := [];
      var i := |queue|;
      while i > 0
        invariant 0 <= i <= |queue| && kept == Others(queue[i..], id)
      {
        i := i - 1;
        assert queue[i..][1..] == queue[i + 1..];
        if queue[i].id != id { kept := [queue[i]] + kept; }
      }
      assert queue[0..] == queue;
    }

    method RemoveRequest(id: int) returns (removed: bool)
      requires Valid()
      modifies this
      ensures Valid() && State() == Remove(old(State()), id)
      ensures removed <==> Population(State()) != Population(old(State()))
    {
      OthersFewer(pendingHeap, id);
      OthersFewer(running, id);
      OthersFewer(preempted, id);
      OthersFewer(finished, id);
      var a := Retain(pendingHeap, id);
      var b := Retain(running, id);
      var c := Retain(preempted, id);
      var d := Retain(finished, id);
      removed := |a| != |pendingHeap| || |b| != |running| || |c| != |preempted| || |d| != |finished|;
      pendingHeap, running, preempted, finished := a, b, c, d;
    }

    static lemma {:induction false} OthersFewer(list: seq<Request>, id: int)
      ensures |Others(list, id)| <= |list|
    {
      if list != [] { OthersFewer(list[1..], id); }
    }

    // ---- Blocks ----

    method AllocateKvBlocks(n: nat) returns (r: Option<seq<int>>)
      requires Valid()
      modifies this`freeBlocks, this`freeBlocksSet
      ensures Valid()
      ensures r.Some? <==> n <= |old(freeBlocks)|
      ensures r.Some? ==> r.value == old(freeBlocks)[..n] && freeBlocks == old(freeBlocks)[n..]
      ensures r.None? ==> freeBlocks == old(freeBlocks)
    {
      hide Distinct, Elements;
      if |freeBlocks| < n { return None; }
      ghost var was := freeBlocks;
      var taken: seq<int> := [];
      for i := 0 to n
        invariant Valid() && taken == was[..i] && freeBlocks == was[i..]
      {
        HeadOut(freeBlocks);
        taken := taken + [freeBlocks[0]];
        freeBlocksSet := freeBlocksSet - {freeBlocks[0]};
        freeBlocks := freeBlocks[1..];
      }
      r := Some(taken);
    }

    static lemma HeadOut(free: seq<int>)
      requires Distinct(free) && free != []
      ensures Distinct(free[1..]) && Elements(free[1..]) == Elements(free) - {free[0]}
    {
      SplitDistinct(free, 1);
      assert free == [free[0]] + free[1..] && free[..1] == [free[0]];
    }

    method FreeKvBlocks(ids: seq<int>)
      requires Valid()
      modifies this`freeBlocks, this`freeBlocksSet
      ensures Valid() && freeBlocks == ReturnBlocks(old(freeBlocks), ids)
    {
      for i := 0 to |ids|
        invariant Valid() && ReturnBlocks(freeBlocks, ids[i..]) == ReturnBlocks(old(freeBlocks), ids)
      {
        assert ids[i..][1..] == ids[i + 1..];
        if ids[i] !in freeBlocksSet {
          JoinDistinct(freeBlocks, [ids[i]]);
          freeBlocks := freeBlocks + [ids[i]];
          freeBlocksSet := freeBlocksSet + {ids[i]};
        }
      }
    }

    // ---- Preemption ----

    method PreemptOne(victim: Request)
      requires Valid()
      modifies this
      ensures Valid() && State() == Preempt(old(State()), victim)
    {
      FreeKvBlocks(victim.blocks);
      running := WithoutId(running, victim.id);
      preempted := preempted + [Stash(victim)];
    }

    method TryPreempt(needed: int) returns (ok: bool)
      requires Valid()
      modifies this
      ensures Valid() && (State(), ok) == SchedulerSpec.TryPreempt(old(State()), needed)
    {
      if !cfg.preemption || running == [] { return false; }
      var candidates := VictimOrder(running);
      var freed, i := 0, 0;
      ghost var s := State();
      while i < |candidates| && freed < needed
        invariant Valid() && 0 <= i <= |candidates|
        invariant PreemptLoop(State(), candidates[i..], needed, freed) == PreemptLoop(s, candidates, needed, 0)
      {
        var victim := candidates[i];
        assert candidates[i..][1..] == candidates[i + 1..];
        if victim.priority > 0 || pendingHeap != [] {
          PreemptOne(victim);
          freed := freed + |victim.blocks|;
        }
        i := i + 1;
      }
      ok := freed >= needed;
    }

    // Blocks off the free list, or else off preempted requests.
    method Obtain(n: nat) returns (r: Option<seq<int>>)
      requires Valid()
      modifies this
      ensures Valid() && (State(), r) == SchedulerSpec.Obtain(old(State()), n)
    {
      r := AllocateKvBlocks(n);
      if r.None? {
        var ok := TryPreempt(n);
        if ok { r := AllocateKvBlocks(n); }
      }
    }

    // ---- schedule ----

    method PeekPending()
      requires Valid()
      modifies this`pendingHeap
      ensures pendingHeap == SkipStale(old(pendingHeap))
    {
      while pendingHeap != [] && pendingHeap[0].status != PENDING
        invariant SkipStale(pendingHeap) == SkipStale(old(pendingHeap))
        decreases |pendingHeap|
      {
        pendingHeap := pendingHeap[1..];
      }
    }

    method RetireFinished()
      requires Valid()
      modifies this
      ensures Valid() && State() == MoveFinished(old(State()).(running := []), old(running))
    {
      ghost var s := State();
      var was := running;
      running := [];
      for i := 0 to |was|
        invariant Valid() && MoveFinished(State(), was[i..]) == MoveFinished(s.(running := []), was)
      {
        var r := was[i];
        assert was[i..][1..] == was[i + 1..];
        if IsFinished(r) {
          FreeKvBlocks(r.blocks);
          finished := finished + [r.(status := FINISHED)];
        } else {
          running := running + [r];
        }
      }
      assert was[|was|..] == [];
    }

    method ReadmitPreempted()
      requires Valid()
      modifies this`pendingHeap, this`preempted
      ensures pendingHeap == Readmit(old(pendingHeap), old(preempted)) && preempted == []
    {
      for i := 0 to |preempted|
        invariant preempted == old(preempted)
        invariant Readmit(pendingHeap, preempted[i..]) == Readmit(old(pendingHeap), old(preempted))
      {
        assert preempted[i..][1..] == preempted[i + 1..];
        pendingHeap := Push(pendingHeap, Boost(preempted[i]));
      }
      preempted := [];
    }

    method AdmitPending()
      requires Valid()
      modifies this
      ensures Valid() && State() == Admit(old(State()))
    {
      ghost var s := State();
      while pendingHeap != [] && |running| < cfg.maxBatch
        invariant Valid() && Admit(State()) == Admit(s)
        decreases |pendingHeap|
      {
        PeekPending();
        if pendingHeap == [] { return; }
        var r := pendingHeap[0];
        var blocks := Obtain(BlocksFor(r, cfg.blockSize));
        if blocks.None? { return; }
        assert pendingHeap[0] == r;
        pendingHeap := pendingHeap[1..];
        running := running + [Resume(r.(blocks := blocks.value, status := RUNNING))];
      }
    }

    method BuildPieces() returns (ps: seq<Piece>)
      ensures ps == Pieces(running, cfg.maxPrefill)
    {
      ps := [];
      var budget: int := cfg.maxPrefill;
      for i := 0 to |running|
        invariant ps + Pieces(running[i..], budget) == Pieces(running, cfg.maxPrefill)
      {
        assert running[i..][1..] == running[i + 1..];
        ghost var rest := Pieces(running[i + 1..], BudgetAfter(running[i], budget));
        assert Pieces(running[i..], budget) == [PieceOf(running[i], budget)] + rest;
        assert ps + ([PieceOf(running[i], budget)] + rest) == ps + [PieceOf(running[i], budget)] + rest;
        ps := ps + [PieceOf(running[i], budget)];
        budget := BudgetAfter(running[i], budget);
      }
      assert running[|running|..] == [];
    }

    // Finished requests out, preempted ones back to pending, new ones in; then
    // the batch of all running requests, laid out flat.
    method Schedule() returns (batch: Option<RaggedBatch.Batch>)
      requires Valid()
      modifies this
      ensures Valid() && State() == SchedulerSpec.Schedule(old(State()))
      ensures batch.None? <==> running == []
      ensures batch.Some? ==> batch.value == RaggedBatch.Flat(Pieces(running, cfg.maxPrefill))
    {
      hide Admit, MoveFinished, Readmit, Pieces, RaggedBatch.Flat, RaggedBatch.Aligned;
      stepCounter := stepCounter + 1;
      RetireFinished();
      ReadmitPreempted();
      AdmitPending();
      if running == [] { return None; }
      var ps := BuildPieces();
      RaggedBatch.PiecesAligned(running, cfg.maxPrefill);
      var b := RaggedBatch.Flatten(ps);
      batch := Some(b);
    }

    // ---- update_after_step ----

    method Provide(id: int, deficit: int)
      requires Valid()
      modifies this
      ensures Valid() && State() == SchedulerSpec.Provide(old(State()), id, deficit)
    {
      if deficit > 0 {
        var blocks := Obtain(deficit);
        var change := if blocks.Some? then Grow(blocks.value) else Stop();
        running := Put(running, id, change);
        preempted := Put(preempted, id, change);
      }
    }

    // The list is walked by index; preemption inside the loop shortens it.
    method UpdateAfterStep(tokens: map<int, int>)
      requires Valid()
      modifies this
      ensures Valid() && State() == Update(old(State()), tokens)
    {
      ghost var s := State();
      var i := 0;
      while i < |running|
        invariant Valid() && 0 <= i && UpdateLoop(State(), i, tokens) == UpdateLoop(s, 0, tokens)
        decreases |running| - i
      {
        var r := running[i];
        if r.id in tokens {
          DeliverShrinks(State(), i, tokens[r.id]);
          var g := Generate(r, cfg.maxPrefill, tokens[r.id]);
          running := running[i := g];
          Provide(g.id, Deficit(g, cfg.blockSize));
        }
        i := i + 1;
      }
    }
  }
}
