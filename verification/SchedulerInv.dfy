// Block conservation in the scheduler: free blocks and the blocks of running
// requests partition the block ids, and every request is in one queue.
module SchedulerInv {
  import opened Prelude
  import opened SchedulerSpec

  // ---- Counting over a queue ----

  // What a request was asked and how far it has got.
  datatype Past = Past(prompt: seq<int>, output: seq<int>, pos: nat, progress: nat)

  // The same whether the request is running or put aside.
  function Memory(r: Request): Past {
    if r.saved.Some? then Past(r.prompt, r.saved.value.output, r.saved.value.pos, r.saved.value.progress)
    else Past(r.prompt, r.output, r.pos, r.progress)
  }

  // What to count in a request: the blocks it lists, its id, or its id
  // together with a given memory.
  datatype What = Blocks | Id | Memo(m: Past)

  function Has(r: Request, w: What, x: int): nat {
    if w.Blocks? then multiset(r.blocks)[x]
    else if r.id == x && (w.Memo? ==> Memory(r) == w.m) then 1 else 0
  }

  ghost function Count(list: seq<Request>, w: What, x: int): nat {
    if list == [] then 0 else Has(list[0], w, x) + Count(list[1..], w, x)
  }

  lemma {:induction false} CountAppend(a: seq<Request>, b: seq<Request>, w: What, x: int)
    ensures Count(a + b, w, x) == Count(a, w, x) + Count(b, w, x)
  {
    if a == [] {
      assert a + b == b;
    } else {
      assert (a + b)[1..] == a[1..] + b;
      CountAppend(a[1..], b, w, x);
    }
  }

  lemma CountOne(list: seq<Request>, r: Request, w: What, x: int)
    ensures Count(list + [r], w, x) == Count(list, w, x) + Has(r, w, x)
  {
    CountAppend(list, [r], w, x);
    assert Count([r], w, x) == Has(r, w, x) + Count([r][1..], w, x);
  }

  lemma CountUpdate(list: seq<Request>, i: nat, r: Request, w: What, x: int)
    requires i < |list|
    ensures Count(list[i := r], w, x) + Has(list[i], w, x) == Count(list, w, x) + Has(r, w, x)
  {
    var t := list[i := r];
    assert list == list[..i] + [list[i]] + list[i + 1..] && t == list[..i] + [r] + list[i + 1..];
    CountOne(list[..i], list[i], w, x);
    CountOne(list[..i], r, w, x);
    CountAppend(list[..i] + [list[i]], list[i + 1..], w, x);
    CountAppend(list[..i] + [r], list[i + 1..], w, x);
  }

  lemma {:induction false} CountMember(list: seq<Request>, r: Request, w: What, x: int)
    requires r in list
    ensures Has(r, w, x) <= Count(list, w, x)
  {
    if list[0] != r { CountMember(list[1..], r, w, x); }
  }

  // Taking out a request that is there once takes out what it has.
  lemma {:induction false} CountWithout(list: seq<Request>, r: Request, w: What, x: int)
    requires r in list && Count(list, Id, r.id) <= 1
    ensures Count(WithoutId(list, r.id), w, x) + Has(r, w, x) == Count(list, w, x)
    ensures forall q :: q in list && q.id != r.id ==> q in WithoutId(list, r.id)
  {
    if list[0].id == r.id {
      if r in list[1..] {
        CountMember(list[1..], r, Id, r.id);
        assert false;
      }
    } else {
      CountWithout(list[1..], r, w, x);
      assert ([list[0]] + WithoutId(list[1..], r.id))[1..] == WithoutId(list[1..], r.id);
    }
  }

  lemma {:induction false} CountInsert(list: seq<Request>, r: Request, w: What, x: int)
    ensures Count(Insert(list, r), w, x) == Count(list, w, x) + Has(r, w, x)
  {
    if list == [] || Likelier(r, list[0]) {
      assert ([r] + list)[1..] == list;
    } else {
      CountInsert(list[1..], r, w, x);
      assert ([list[0]] + Insert(list[1..], r))[1..] == Insert(list[1..], r);
    }
  }

  lemma {:induction false} CountVictims(running: seq<Request>, w: What, x: int)
    ensures Count(VictimOrder(running), w, x) == Count(running, w, x)
  {
    if running != [] {
      var n := |running| - 1;
      assert running == running[..n] + [running[n]];
      CountVictims(running[..n], w, x);
      CountInsert(VictimOrder(running[..n]), running[n], w, x);
      CountOne(running[..n], running[n], w, x);
    }
  }

  lemma {:induction false} PushMembers(heap: seq<Request>, r: Request)
    ensures forall q :: q in Push(heap, r) <==> q in heap || q == r
  {
    if heap != [] && !Sooner(r, heap[0]) {
      PushMembers(heap[1..], r);
      assert heap == [heap[0]] + heap[1..];
    }
  }

  lemma {:induction false} CountPush(heap: seq<Request>, r: Request, w: What, x: int)
    ensures Count(Push(heap, r), w, x) == Count(heap, w, x) + Has(r, w, x)
  {
    if heap == [] || Sooner(r, heap[0]) {
      assert ([r] + heap)[1..] == heap;
    } else {
      CountPush(heap[1..], r, w, x);
      assert ([heap[0]] + Push(heap[1..], r))[1..] == Push(heap[1..], r);
    }
  }

  lemma {:induction false} ReturnAll(free: seq<int>, ids: seq<int>)
    requires forall i :: 0 <= i < |ids| ==> ids[i] !in free && multiset(ids)[ids[i]] == 1
    ensures ReturnBlocks(free, ids) == free + ids
    decreases |ids|
  {
    if ids == [] {
      assert free + ids == free;
    } else {
      assert ids == [ids[0]] + ids[1..];
      assert multiset(ids) == multiset{ids[0]} + multiset(ids[1..]);
      forall i | 0 <= i < |ids| - 1
        ensures ids[1..][i] !in free + [ids[0]] && multiset(ids[1..])[ids[1..][i]] == 1
      {
        assert ids[1..][i] == ids[i + 1] && ids[1..][i] in multiset(ids[1..]);
      }
      ReturnAll(free + [ids[0]], ids[1..]);
      assert free + [ids[0]] + ids[1..] == free + ids;
    }
  }

  // ---- The laws ----

  // How often a block is listed, queues included that should list none.
  ghost function Everywhere(s: Sched, b: int): nat {
    multiset(s.free)[b] + Count(s.running, Blocks, b) + Count(s.preempted, Blocks, b) + Count(s.pending, Blocks, b)
  }

  ghost function Places(s: Sched, id: int): nat {
    Count(s.pending, Id, id) + Count(s.running, Id, id) + Count(s.preempted, Id, id) + Count(s.finished, Id, id)
  }

  function Once(n: nat, b: int): nat {
    if 0 <= b < n then 1 else 0
  }

  // No block is lost or doubled, and no request is in two queues.
  ghost predicate Lawful(s: Sched) {
    && (forall b :: Everywhere(s, b) == Once(s.cfg.maxBlocks, b))
    && (forall id :: Places(s, id) <= 1)
  }

  // Only running requests hold blocks.
  ghost predicate Clean(s: Sched) {
    forall b :: Count(s.preempted, Blocks, b) == 0 && Count(s.pending, Blocks, b) == 0
  }

  // Free blocks and the blocks of running requests partition the ids.
  ghost predicate Conserved(s: Sched) {
    forall b :: multiset(s.free)[b] + Count(s.running, Blocks, b) == Once(s.cfg.maxBlocks, b)
  }

  lemma ConservedIsClean(s: Sched)
    requires Lawful(s)
    ensures Conserved(s) <==> Clean(s)
  {
    forall b ensures multiset(s.free)[b] + Count(s.running, Blocks, b) == Once(s.cfg.maxBlocks, b)
                     <==> Count(s.preempted, Blocks, b) == 0 && Count(s.pending, Blocks, b) == 0
    {
      assert Everywhere(s, b) == Once(s.cfg.maxBlocks, b);
    }
  }

  ghost predicate SamePlaces(s: Sched, q: Sched) {
    forall id :: Places(q, id) == Places(s, id)
  }

  // ---- Preemption ----

  lemma ReturnsAll(s: Sched, v: Request)
    requires Lawful(s) && v in s.running
    ensures ReturnBlocks(s.free, v.blocks) == s.free + v.blocks
  {
    forall i | 0 <= i < |v.blocks| ensures v.blocks[i] !in s.free && multiset(v.blocks)[v.blocks[i]] == 1 {
      var b := v.blocks[i];
      CountMember(s.running, v, Blocks, b);
      assert Everywhere(s, b) == Once(s.cfg.maxBlocks, b);
      assert multiset(v.blocks)[b] > 0;
    }
    ReturnAll(s.free, v.blocks);
  }

  lemma Moved(s: Sched, v: Request, x: int)
    requires v in s.running && Count(s.running, Id, v.id) <= 1 && ReturnBlocks(s.free, v.blocks) == s.free + v.blocks
    ensures Everywhere(Preempt(s, v), x) == Everywhere(s, x) && Places(Preempt(s, v), x) == Places(s, x)
    ensures Count(Preempt(s, v).preempted, Blocks, x) == Count(s.preempted, Blocks, x)
    ensures Count(Preempt(s, v).running, Id, x) == Count(s.running, Id, x) - Has(v, Id, x)
  {
    CountWithout(s.running, v, Blocks, x);
    CountWithout(s.running, v, Id, x);
    CountOne(s.preempted, Stash(v), Blocks, x);
    CountOne(s.preempted, Stash(v), Id, x);
    assert multiset(s.free + v.blocks)[x] == multiset(s.free)[x] + multiset(v.blocks)[x];
  }

  // The candidates still running, each once.
  ghost predicate Candidates(s: Sched, candidates: seq<Request>) {
    && (forall v :: v in candidates ==> v in s.running)
    && (forall id :: Count(candidates, Id, id) <= 1)
  }

  // The ids of the requests the preemption loop takes.
  function Victims(s: Sched, candidates: seq<Request>, needed: int, freed: int): seq<int>
    decreases |candidates|
  {
    if candidates == [] || freed >= needed then []
    else if Spared(s, candidates[0]) then Victims(s, candidates[1..], needed, freed)
    else [candidates[0].id] + Victims(s, candidates[1..], needed, freed + |candidates[0].blocks|)
  }

  lemma {:induction false} VictimsSame(s: Sched, q: Sched, candidates: seq<Request>, needed: int, freed: int)
    requires q.pending == s.pending
    ensures Victims(q, candidates, needed, freed) == Victims(s, candidates, needed, freed)
    decreases |candidates|
  {
    if candidates != [] && freed < needed {
      VictimsSame(s, q, candidates[1..], needed, freed);
      VictimsSame(s, q, candidates[1..], needed, freed + |candidates[0].blocks|);
    }
  }

  // What preemption does to the queues, all but the free list's order.
  ghost predicate Preempted(s: Sched, q: Sched, gained: int, victims: seq<int>) {
    && Lawful(q) && SamePlaces(s, q) && |q.free| == |s.free| + gained
    && q == s.(free := q.free, running := q.running, preempted := q.preempted)
    && (forall b :: Count(q.preempted, Blocks, b) == Count(s.preempted, Blocks, b))
    && (forall id :: Count(q.running, Id, id) == if id in victims then 0 else Count(s.running, Id, id))
  }

  lemma PreemptOne(s: Sched, v: Request)
    requires Lawful(s) && v in s.running
    ensures Preempted(s, Preempt(s, v), |v.blocks|, [v.id])
  {
    ReturnsAll(s, v);
    CountMember(s.running, v, Id, v.id);
    assert Places(s, v.id) <= 1;
    var q := Preempt(s, v);
    forall x ensures Everywhere(q, x) == Everywhere(s, x) && Places(q, x) == Places(s, x)
                     && Count(q.preempted, Blocks, x) == Count(s.preempted, Blocks, x)
                     && Count(q.running, Id, x) == Count(s.running, Id, x) - Has(v, Id, x)
    {
      Moved(s, v, x);
    }
  }

  lemma CandidatesLeft(s: Sched, candidates: seq<Request>)
    requires Lawful(s) && Candidates(s, candidates) && candidates != []
    ensures Candidates(s, candidates[1..]) && Candidates(Preempt(s, candidates[0]), candidates[1..])
  {
    var v := candidates[0];
    assert candidates == [v] + candidates[1..];
    forall id ensures Count(candidates[1..], Id, id) <= 1 { assert Count(candidates, Id, id) <= 1; }
    assert Places(s, v.id) <= 1;
    CountWithout(s.running, v, Id, 0);
    forall q | q in candidates[1..] ensures q in WithoutId(s.running, v.id) {
      assert q in candidates;
      CountMember(candidates[1..], q, Id, v.id);
      assert Count(candidates, Id, v.id) <= 1;
    }
  }

  lemma PreemptedTwice(s: Sched, p: Sched, q: Sched, a: int, b: int, id: int, rest: seq<int>)
    requires Preempted(s, p, a, [id]) && Preempted(p, q, b, rest)
    ensures Preempted(s, q, a + b, [id] + rest)
  {
    hide Lawful;
    forall x ensures Places(q, x) == Places(s, x) { assert Places(p, x) == Places(s, x); }
    forall x ensures Count(q.running, Id, x) == if x in [id] + rest then 0 else Count(s.running, Id, x) {
      assert Count(p.running, Id, x) == if x in [id] then 0 else Count(s.running, Id, x);
    }
  }

  lemma FirstCandidate(s: Sched, candidates: seq<Request>)
    requires Candidates(s, candidates) && candidates != []
    ensures candidates[0] in s.running
  {
  }

  lemma {:induction false} LoopKeeps(s: Sched, candidates: seq<Request>, needed: int, freed: int)
    requires Lawful(s) && Candidates(s, candidates)
    ensures var (q, f) := PreemptLoop(s, candidates, needed, freed);
      Preempted(s, q, f - freed, Victims(s, candidates, needed, freed))
    decreases |candidates|
  {
    hide Lawful, Candidates;
    if candidates != [] && freed < needed {
      CandidatesLeft(s, candidates);
      if Spared(s, candidates[0]) {
        LoopKeeps(s, candidates[1..], needed, freed);
      } else {
        var v := candidates[0];
        FirstCandidate(s, candidates);
        var p := Preempt(s, v);
        PreemptOne(s, v);
        LoopKeeps(p, candidates[1..], needed, freed + |v.blocks|);
        VictimsSame(s, p, candidates[1..], needed, freed + |v.blocks|);
        var (q, f) := PreemptLoop(p, candidates[1..], needed, freed + |v.blocks|);
        hide Preempted, Preempt;
        PreemptedTwice(s, p, q, |v.blocks|, f - freed - |v.blocks|, v.id,
                       Victims(s, candidates[1..], needed, freed + |v.blocks|));
      }
    }
  }

  lemma RunningAreCandidates(s: Sched)
    requires Lawful(s)
    ensures Candidates(s, VictimOrder(s.running))
  {
    forall v | v in VictimOrder(s.running) ensures v in s.running {
      assert v in multiset(VictimOrder(s.running));
    }
    forall id ensures Count(VictimOrder(s.running), Id, id) <= 1 {
      CountVictims(s.running, Id, id);
      assert Places(s, id) <= 1;
    }
  }

  // The requests a call of TryPreempt takes.
  function Taken(s: Sched, needed: int): seq<int> {
    if !s.cfg.preemption || s.running == [] then [] else Victims(s, VictimOrder(s.running), needed, 0)
  }

  lemma NothingPreempted(s: Sched)
    requires Lawful(s)
    ensures Preempted(s, s, 0, [])
  {
    hide Lawful;
  }

  lemma TryPreemptKeeps(s: Sched, needed: int)
    requires Lawful(s) && needed > 0
    ensures var (q, ok) := TryPreempt(s, needed);
      && Preempted(s, q, |q.free| - |s.free|, Taken(s, needed))
      && (ok <==> |q.free| - |s.free| >= needed)
  {
    hide Lawful, Candidates;
    if s.cfg.preemption && s.running != [] {
      RunningAreCandidates(s);
      LoopKeeps(s, VictimOrder(s.running), needed, 0);
      hide PreemptLoop, Victims, VictimOrder;
    } else {
      NothingPreempted(s);
    }
  }

  // ---- Obtaining blocks ----

  // The blocks are out of the free list and nowhere else yet.
  ghost predicate Holding(q: Sched, blocks: seq<int>) {
    && (forall b :: multiset(blocks)[b] + Everywhere(q, b) == Once(q.cfg.maxBlocks, b))
    && (forall id :: Places(q, id) <= 1)
  }

  ghost function Evicted(s: Sched, n: nat): seq<int> {
    if n <= |s.free| then [] else Taken(s, n)
  }

  // What obtaining blocks does to the queues.
  ghost predicate Obtained(s: Sched, n: nat, q: Sched, blocks: Option<seq<int>>) {
    && SamePlaces(s, q)
    && q == s.(free := q.free, running := q.running, preempted := q.preempted)
    && (forall b :: Count(q.preempted, Blocks, b) == Count(s.preempted, Blocks, b))
    && (forall id :: Count(q.running, Id, id) == if id in Evicted(s, n) then 0 else Count(s.running, Id, id))
    && (blocks.Some? ==> |blocks.value| == n && Holding(q, blocks.value))
    && (blocks.None? ==> Lawful(q))
  }

  lemma TakeFront(p: Sched, n: nat)
    requires Lawful(p) && n <= |p.free|
    ensures Holding(p.(free := p.free[n..]), p.free[..n]) && SamePlaces(p, p.(free := p.free[n..]))
  {
    var q := p.(free := p.free[n..]);
    assert p.free == p.free[..n] + p.free[n..];
    forall b ensures multiset(p.free[..n])[b] + Everywhere(q, b) == Once(q.cfg.maxBlocks, b) {
      assert Everywhere(p, b) == Once(q.cfg.maxBlocks, b);
    }
    forall id ensures Places(q, id) == Places(p, id) {}
    forall id ensures Places(q, id) <= 1 { assert Places(p, id) <= 1; }
  }

  lemma ObtainKeeps(s: Sched, n: nat)
    requires Lawful(s)
    ensures Obtained(s, n, Obtain(s, n).0, Obtain(s, n).1)
  {
    if n <= |s.free| {
      TakeFront(s, n);
    } else {
      hide Lawful, Holding;
      TryPreemptKeeps(s, n);
      var (p, ok) := TryPreempt(s, n);
      if ok {
        TakeFront(p, n);
        forall id ensures Places(p.(free := p.free[n..]), id) == Places(s, id) {
          assert Places(p, id) == Places(s, id);
        }
      }
    }
  }

  // ---- update_after_step ----

  lemma {:induction false} CountPut(list: seq<Request>, id: int, f: Request -> Request, w: What, x: int)
    requires forall r :: Has(f(r), w, x) == Has(r, w, x)
    ensures Count(Put(list, id, f), w, x) == Count(list, w, x)
  {
    if list != [] {
      assert Put(list, id, f)[1..] == Put(list[1..], id, f);
      CountPut(list[1..], id, f, w, x);
    }
  }

  lemma {:induction false} CountGrow(list: seq<Request>, id: int, blocks: seq<int>, x: int)
    requires Count(list, Id, id) <= 1
    ensures Count(Put(list, id, Grow(blocks)), Blocks, x)
         == Count(list, Blocks, x) + if Count(list, Id, id) == 1 then multiset(blocks)[x] else 0
  {
    if list != [] {
      assert Put(list, id, Grow(blocks))[1..] == Put(list[1..], id, Grow(blocks));
      CountGrow(list[1..], id, blocks, x);
      assert multiset(list[0].blocks + blocks)[x] == multiset(list[0].blocks)[x] + multiset(blocks)[x];
    }
  }

  // A request is preempted while blocks are obtained that it then gets.
  ghost predicate ServedAway(s: Sched, id: int, deficit: int) {
    deficit > 0 && id in Evicted(s, deficit) && Obtain(s, deficit).1.Some?
  }

  // What the preemption loop can free from these candidates.
  function Weight(s: Sched, list: seq<Request>): nat {
    if list == [] then 0 else (if Spared(s, list[0]) then 0 else |list[0].blocks|) + Weight(s, list[1..])
  }

  function Ahead(list: seq<Request>, id: int): seq<Request> {
    if list == [] || list[0].id == id then [] else [list[0]] + Ahead(list[1..], id)
  }

  // The guards of the branch that loses blocks: the free list is too short,
  // the request itself may be preempted, those more likely to be preempted do
  // not free enough, and all together do.
  ghost predicate SelfVictim(s: Sched, r: Request, deficit: int) {
    && deficit > |s.free| && s.cfg.preemption && !Spared(s, r)
    && Weight(s, Ahead(VictimOrder(s.running), r.id)) < deficit <= Weight(s, VictimOrder(s.running))
  }

  lemma {:induction false} LoopFrees(s: Sched, p: Sched, candidates: seq<Request>, needed: int, freed: int)
    requires p.pending == s.pending
    ensures PreemptLoop(p, candidates, needed, freed).1 >= needed <==> freed + Weight(s, candidates) >= needed
    decreases |candidates|
  {
    if candidates != [] && freed < needed {
      if Spared(p, candidates[0]) {
        LoopFrees(s, p, candidates[1..], needed, freed);
      } else {
        LoopFrees(s, Preempt(p, candidates[0]), candidates[1..], needed, freed + |candidates[0].blocks|);
      }
    }
  }

  // The loop takes a candidate exactly when those ahead do not free enough.
  lemma {:induction false} VictimIff(s: Sched, candidates: seq<Request>, r: Request, needed: int, freed: int)
    requires r in candidates && Count(candidates, Id, r.id) <= 1
    ensures r.id in Victims(s, candidates, needed, freed) <==>
      !Spared(s, r) && freed + Weight(s, Ahead(candidates, r.id)) < needed
    decreases |candidates|
  {
    var rest := candidates[1..];
    if candidates[0].id == r.id {
      if r in rest { CountMember(rest, r, Id, r.id); }
      assert candidates[0] == r;
      VictimsAreCandidates(s, rest, r.id, needed, freed);
    } else {
      assert r in rest;
      var gain := if Spared(s, candidates[0]) then 0 else |candidates[0].blocks|;
      VictimIff(s, rest, r, needed, freed + gain);
      assert Ahead(candidates, r.id)[1..] == Ahead(rest, r.id);
    }
  }

  lemma {:induction false} VictimsAreCandidates(s: Sched, candidates: seq<Request>, id: int, needed: int, freed: int)
    requires Count(candidates, Id, id) == 0
    ensures id !in Victims(s, candidates, needed, freed)
    decreases |candidates|
  {
    if candidates != [] && freed < needed {
      VictimsAreCandidates(s, candidates[1..], id, needed, freed);
      VictimsAreCandidates(s, candidates[1..], id, needed, freed + |candidates[0].blocks|);
    }
  }

  lemma SelfVictimIff(s: Sched, r: Request, deficit: int)
    requires Lawful(s) && r in s.running
    ensures ServedAway(s, r.id, deficit) <==> SelfVictim(s, r, deficit)
  {
    if deficit > |s.free| && s.cfg.preemption {
      var order := VictimOrder(s.running);
      assert r in multiset(order);
      CountVictims(s.running, Id, r.id);
      assert Places(s, r.id) <= 1;
      hide Lawful;
      LoopFrees(s, s, order, deficit, 0);
      VictimIff(s, order, r, deficit, 0);
      TryPreemptKeeps(s, deficit);
      hide PreemptLoop, Victims, VictimOrder, Weight, Ahead;
    }
  }

  lemma GrowKeeps(q: Sched, id: int, blocks: seq<int>)
    requires Holding(q, blocks) && Count(q.running, Id, id) + Count(q.preempted, Id, id) == 1
    ensures var d := Change(q, id, Grow(blocks));
      && Lawful(d) && SamePlaces(q, d)
      && (forall x :: Count(d.preempted, Blocks, x) ==
            Count(q.preempted, Blocks, x) + if Count(q.running, Id, id) == 1 then 0 else multiset(blocks)[x])
  {
    var d := Change(q, id, Grow(blocks));
    forall x
      ensures Everywhere(d, x) == multiset(blocks)[x] + Everywhere(q, x) && Places(d, x) == Places(q, x)
      ensures Count(d.preempted, Blocks, x) ==
        Count(q.preempted, Blocks, x) + if Count(q.running, Id, id) == 1 then 0 else multiset(blocks)[x]
    {
      CountGrow(q.running, id, blocks, x);
      CountGrow(q.preempted, id, blocks, x);
      CountPut(q.running, id, Grow(blocks), Id, x);
      CountPut(q.preempted, id, Grow(blocks), Id, x);
    }
  }

  lemma StopKeeps(q: Sched, id: int)
    requires Lawful(q)
    ensures Lawful(Change(q, id, Stop())) && SamePlaces(q, Change(q, id, Stop()))
    ensures forall x :: Count(Change(q, id, Stop()).preempted, Blocks, x) == Count(q.preempted, Blocks, x)
  {
    var d := Change(q, id, Stop());
    forall x
      ensures Everywhere(d, x) == Everywhere(q, x) && Places(d, x) == Places(q, x)
      ensures Count(d.preempted, Blocks, x) == Count(q.preempted, Blocks, x)
    {
      CountPut(q.running, id, Stop(), Id, x);
      CountPut(q.preempted, id, Stop(), Id, x);
      CountPut(q.running, id, Stop(), Blocks, x);
      CountPut(q.preempted, id, Stop(), Blocks, x);
    }
  }

  lemma ProvideGets(s: Sched, id: int, n: nat, q: Sched, blocks: seq<int>)
    requires n > 0 && Obtained(s, n, q, Some(blocks)) && Count(s.running, Id, id) == 1 && Places(s, id) <= 1
    ensures var d := Change(q, id, Grow(blocks));
      && Lawful(d) && SamePlaces(s, d) && (Clean(d) <==> Clean(s) && id !in Evicted(s, n))
  {
    assert Places(q, id) == Places(s, id);
    hide Lawful, Evicted, Holding;
    GrowKeeps(q, id, blocks);
    var d := Change(q, id, Grow(blocks));
    assert multiset(blocks)[blocks[0]] > 0;
    forall x ensures Places(d, x) == Places(s, x) { assert Places(q, x) == Places(s, x); }
    if Clean(d) {
      assert Count(d.preempted, Blocks, blocks[0]) == 0;
      forall x ensures Count(s.preempted, Blocks, x) == 0 && Count(s.pending, Blocks, x) == 0 {
        assert Count(d.preempted, Blocks, x) == 0 && Count(d.pending, Blocks, x) == 0;
      }
    }
  }

  lemma ProvideFails(s: Sched, id: int, n: nat, q: Sched)
    requires Obtained(s, n, q, None)
    ensures var d := Change(q, id, Stop()); Lawful(d) && SamePlaces(s, d) && (Clean(d) <==> Clean(s))
  {
    hide Lawful, Evicted;
    StopKeeps(q, id);
    var d := Change(q, id, Stop());
    forall x ensures Places(d, x) == Places(s, x) { assert Places(q, x) == Places(s, x); }
    forall x ensures Count(d.preempted, Blocks, x) == Count(s.preempted, Blocks, x) {}
  }

  // Giving a running request its blocks loses none; the ones it gets stay
  // with running requests exactly when it did not preempt itself for them.
  lemma ProvideKeeps(s: Sched, id: int, deficit: int)
    requires Lawful(s) && Count(s.running, Id, id) == 1
    ensures var d := Provide(s, id, deficit);
      && Lawful(d) && SamePlaces(s, d) && d.cfg == s.cfg && d.pending == s.pending
      && (Clean(d) <==> Clean(s) && !ServedAway(s, id, deficit))
  {
    if deficit > 0 {
      var (q, blocks) := Obtain(s, deficit);
      ObtainKeeps(s, deficit);
      assert Places(s, id) <= 1;
      hide Lawful, Clean, Obtain, Evicted;
      if blocks.Some? {
        ProvideGets(s, id, deficit, q, blocks.value);
      } else {
        ProvideFails(s, id, deficit, q);
      }
    }
  }

  // The growing request at index i preempts itself and is given blocks all
  // the same: the guards of the branch that loses them.
  ghost predicate Leaks(s: Sched, i: nat, token: int)
    requires i < |s.running|
  {
    var r := Generate(s.running[i], s.cfg.maxPrefill, token);
    SelfVictim(s.(running := s.running[i := r]), r, Deficit(r, s.cfg.blockSize))
  }

  lemma GeneratedKeeps(s: Sched, i: nat, r: Request)
    requires Lawful(s) && i < |s.running| && r.id == s.running[i].id && r.blocks == s.running[i].blocks
    ensures var q := s.(running := s.running[i := r]);
      Lawful(q) && SamePlaces(s, q) && (Clean(q) <==> Clean(s)) && Count(q.running, Id, r.id) == 1
  {
    var q := s.(running := s.running[i := r]);
    forall x ensures Everywhere(q, x) == Everywhere(s, x) && Places(q, x) == Places(s, x) {
      CountUpdate(s.running, i, r, Blocks, x);
      CountUpdate(s.running, i, r, Id, x);
    }
    assert q.running[i] == r;
    CountMember(q.running, r, Id, r.id);
    assert Places(s, r.id) <= 1;
  }

  lemma SameTwice(s: Sched, p: Sched, q: Sched)
    requires SamePlaces(s, p) && SamePlaces(p, q)
    ensures SamePlaces(s, q)
  {
    forall id ensures Places(q, id) == Places(s, id) { assert Places(p, id) == Places(s, id); }
  }

  lemma DeliverKeeps(s: Sched, i: nat, token: int)
    requires Lawful(s) && i < |s.running|
    ensures var d := Deliver(s, i, token);
      && Lawful(d) && SamePlaces(s, d) && d.cfg == s.cfg && d.pending == s.pending
      && (Clean(d) <==> Clean(s) && !Leaks(s, i, token))
  {
    hide Lawful, Clean, SelfVictim, ServedAway, Provide;
    var r := Generate(s.running[i], s.cfg.maxPrefill, token);
    var q := s.(running := s.running[i := r]);
    GeneratedKeeps(s, i, r);
    assert q.running[i] == r;
    SelfVictimIff(q, r, Deficit(r, s.cfg.blockSize));
    ProvideKeeps(q, r.id, Deficit(r, s.cfg.blockSize));
    SameTwice(s, q, Deliver(s, i, token));
  }

  ghost predicate LeaksIn(s: Sched, i: nat, tokens: map<int, int>)
    decreases |s.running| - i
  {
    i < |s.running| &&
      if s.running[i].id !in tokens then LeaksIn(s, i + 1, tokens)
      else
        var token := tokens[s.running[i].id];
        DeliverShrinks(s, i, token);
        Leaks(s, i, token) || LeaksIn(Deliver(s, i, token), i + 1, tokens)
  }

  lemma {:induction false} UpdateKeeps(s: Sched, i: nat, tokens: map<int, int>)
    requires Lawful(s)
    ensures var d := UpdateLoop(s, i, tokens);
      && Lawful(d) && SamePlaces(s, d) && d.cfg == s.cfg && d.pending == s.pending
      && (Clean(d) <==> Clean(s) && !LeaksIn(s, i, tokens))
    decreases |s.running| - i
  {
    hide Lawful, Clean, Deliver, Leaks;
    if i < |s.running| {
      if s.running[i].id !in tokens {
        UpdateKeeps(s, i + 1, tokens);
      } else {
        var token := tokens[s.running[i].id];
        DeliverKeeps(s, i, token);
        DeliverShrinks(s, i, token);
        var d := Deliver(s, i, token);
        UpdateKeeps(d, i + 1, tokens);
        SameTwice(s, d, UpdateLoop(d, i + 1, tokens));
      }
    }
  }

  // update_after_step keeps the partition of the blocks exactly when no
  // growing request becomes its own victim and is given blocks afterwards.
  lemma UpdateConservesIff(s: Sched, tokens: map<int, int>)
    requires Lawful(s) && Conserved(s)
    ensures Lawful(Update(s, tokens)) && SamePlaces(s, Update(s, tokens))
    ensures Conserved(Update(s, tokens)) <==> !LeaksIn(s, 0, tokens)
  {
    UpdateKeeps(s, 0, tokens);
    ConservedIsClean(s);
    ConservedIsClean(Update(s, tokens));
  }

  // ---- schedule ----

  lemma FinishOne(s: Sched, rest: seq<Request>)
    requires Lawful(s.(running := s.running + rest)) && rest != [] && IsFinished(rest[0])
    ensures var r := rest[0];
      var q := s.(free := ReturnBlocks(s.free, r.blocks), finished := s.finished + [r.(status := FINISHED)]);
      && Lawful(q.(running := q.running + rest[1..]))
      && SamePlaces(s.(running := s.running + rest), q.(running := q.running + rest[1..]))
  {
    var r, m := rest[0], s.(running := s.running + rest);
    var q := s.(free := ReturnBlocks(s.free, r.blocks), finished := s.finished + [r.(status := FINISHED)]);
    var n := q.(running := q.running + rest[1..]);
    assert rest == [r] + rest[1..];
    assert m.running[|s.running|] == r;
    ReturnsAll(m, r);
    forall x ensures Everywhere(n, x) == Everywhere(m, x) && Places(n, x) == Places(m, x) {
      CountAppend(s.running, rest, Blocks, x);
      CountAppend(s.running, rest, Id, x);
      CountAppend(s.running, rest[1..], Blocks, x);
      CountAppend(s.running, rest[1..], Id, x);
      CountOne(s.finished, r.(status := FINISHED), Id, x);
      assert multiset(s.free + r.blocks)[x] == multiset(s.free)[x] + multiset(r.blocks)[x];
    }
  }

  lemma {:induction false} MoveKeeps(s: Sched, rest: seq<Request>)
    requires Lawful(s.(running := s.running + rest))
    ensures var d := MoveFinished(s, rest);
      && Lawful(d) && SamePlaces(s.(running := s.running + rest), d)
      && d == s.(free := d.free, running := d.running, finished := d.finished)
    decreases |rest|
  {
    if rest == [] {
      assert s.running + rest == s.running;
    } else {
      hide Lawful, ReturnBlocks;
      var r := rest[0];
      if IsFinished(r) {
        FinishOne(s, rest);
        var q := s.(free := ReturnBlocks(s.free, r.blocks), finished := s.finished + [r.(status := FINISHED)]);
        MoveKeeps(q, rest[1..]);
        SameTwice(s.(running := s.running + rest), q.(running := q.running + rest[1..]), MoveFinished(q, rest[1..]));
      } else {
        assert s.running + [r] + rest[1..] == s.running + rest;
        MoveKeeps(s.(running := s.running + [r]), rest[1..]);
      }
    }
  }

  lemma {:induction false} CountReadmit(heap: seq<Request>, preempted: seq<Request>, w: What, x: int)
    ensures Count(Readmit(heap, preempted), w, x) == Count(heap, w, x) + Count(preempted, w, x)
    decreases |preempted|
  {
    if preempted != [] {
      CountPush(heap, Boost(preempted[0]), w, x);
      CountReadmit(Push(heap, Boost(preempted[0])), preempted[1..], w, x);
    }
  }

  lemma ReadmitKeeps(s: Sched)
    requires Lawful(s) && Clean(s)
    ensures var d := s.(pending := Readmit(s.pending, s.preempted), preempted := []);
      Lawful(d) && Clean(d) && SamePlaces(s, d)
  {
    var d := s.(pending := Readmit(s.pending, s.preempted), preempted := []);
    forall x
      ensures Everywhere(d, x) == Everywhere(s, x) && Places(d, x) == Places(s, x)
      ensures Count(d.pending, Blocks, x) == 0
    {
      CountReadmit(s.pending, s.preempted, Blocks, x);
      CountReadmit(s.pending, s.preempted, Id, x);
    }
  }

  // Nobody waiting has been taken out behind the scheduler's back.
  ghost predicate AllPending(heap: seq<Request>) {
    forall i :: 0 <= i < |heap| ==> heap[i].status == PENDING
  }

  lemma {:induction false} PushPending(heap: seq<Request>, r: Request)
    requires AllPending(heap) && r.status == PENDING
    ensures AllPending(Push(heap, r))
  {
    if heap != [] && !Sooner(r, heap[0]) { PushPending(heap[1..], r); }
  }

  lemma {:induction false} ReadmitPending(heap: seq<Request>, preempted: seq<Request>)
    requires AllPending(heap)
    ensures AllPending(Readmit(heap, preempted))
    decreases |preempted|
  {
    if preempted != [] {
      PushPending(heap, Boost(preempted[0]));
      ReadmitPending(Push(heap, Boost(preempted[0])), preempted[1..]);
    }
  }

  lemma StartKeeps(s: Sched, n: nat, q: Sched, blocks: seq<int>)
    requires Clean(s) && s.pending != [] && Obtained(s, n, q, Some(blocks))
    ensures Lawful(Start(q, blocks)) && Clean(Start(q, blocks)) && SamePlaces(s, Start(q, blocks))
  {
    var d, r := Start(q, blocks), q.pending[0];
    var started := Resume(r.(blocks := blocks, status := RUNNING));
    assert q.pending == [r] + q.pending[1..];
    forall x
      ensures Everywhere(d, x) == multiset(blocks)[x] + Everywhere(q, x) && Places(d, x) == Places(q, x)
      ensures Count(d.pending, Blocks, x) == 0 && Count(d.preempted, Blocks, x) == 0
    {
      CountOne(q.running, started, Blocks, x);
      CountOne(q.running, started, Id, x);
      assert Count(s.pending, Blocks, x) == 0 && Count(s.preempted, Blocks, x) == 0;
    }
    forall id ensures Places(d, id) == Places(s, id) { assert Places(q, id) == Places(s, id); }
  }

  lemma StartTakesFirst(q: Sched, blocks: seq<int>)
    requires q.pending != [] && AllPending(q.pending)
    ensures var d := Start(q, blocks); AllPending(d.pending) && d.cfg == q.cfg && |d.pending| < |q.pending|
  {
  }

  lemma {:induction false} AdmitKeeps(s: Sched)
    requires Lawful(s) && Clean(s) && AllPending(s.pending)
    ensures Lawful(Admit(s)) && Clean(Admit(s)) && SamePlaces(s, Admit(s)) && AllPending(Admit(s).pending)
    ensures Admit(s).cfg == s.cfg
    decreases |s.pending|
  {
    if s.pending != [] && |s.running| < s.cfg.maxBatch {
      var n := BlocksFor(s.pending[0], s.cfg.blockSize);
      ObtainKeeps(s, n);
      var (q, blocks) := Obtain(s, n);
      assert s.(pending := SkipStale(s.pending)) == s;
      hide Obtain, Lawful, Evicted;
      if blocks.Some? {
        StartKeeps(s, n, q, blocks.value);
        hide Clean, Start;
        StartTakesFirst(q, blocks.value);
        AdmitKeeps(Start(q, blocks.value));
        SameTwice(s, Start(q, blocks.value), Admit(s));
      }
    }
  }

  lemma FinishedMoved(s: Sched)
    requires Lawful(s) && Clean(s)
    ensures var d := MoveFinished(s.(step := s.step + 1, running := []), s.running);
      && Lawful(d) && Clean(d) && SamePlaces(s, d)
      && d.pending == s.pending && d.preempted == s.preempted && d.cfg == s.cfg
  {
    var start, stepped := s.(step := s.step + 1, running := []), s.(step := s.step + 1);
    assert start.running + s.running == s.running;
    forall x ensures Everywhere(stepped, x) == Everywhere(s, x) && Places(stepped, x) == Places(s, x) {}
    assert start.(running := start.running + s.running) == stepped;
    MoveKeeps(start, s.running);
    hide Lawful;
    SameTwice(s, stepped, MoveFinished(start, s.running));
  }

  // schedule keeps the partition, and every request stays in one queue.
  lemma ScheduleConserves(s: Sched)
    requires Lawful(s) && Conserved(s) && AllPending(s.pending)
    ensures var d := Schedule(s);
      Lawful(d) && Conserved(d) && SamePlaces(s, d) && AllPending(d.pending) && d.cfg == s.cfg
  {
    hide Lawful, Clean, Conserved, Admit, MoveFinished;
    ConservedIsClean(s);
    FinishedMoved(s);
    var moved := MoveFinished(s.(step := s.step + 1, running := []), s.running);
    ReadmitKeeps(moved);
    ReadmitPending(moved.pending, moved.preempted);
    var d := moved.(pending := Readmit(moved.pending, moved.preempted), preempted := []);
    AdmitKeeps(d);
    SameTwice(s, moved, d);
    SameTwice(s, d, Admit(d));
    ConservedIsClean(Admit(d));
  }
}
