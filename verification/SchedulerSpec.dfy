// The continuous-batching scheduler on values
// (tr_hash_i64/engine/i64_scheduler.py): what each call computes.
module SchedulerSpec {
  import opened Prelude

  datatype Status = PENDING | RUNNING | PREEMPTED | FINISHED

  datatype Saved = Saved(output: seq<int>, pos: nat, progress: nat)

  datatype Request = Request(
    id: int, prompt: seq<int>, maxNew: int, eos: int, stops: seq<int>,
    status: Status, output: seq<int>, blocks: seq<int>, pos: nat, priority: int,
    progress: nat, arrival: int, saved: Option<Saved>)

  datatype Settings = Settings(maxBatch: int, blockSize: pos, maxBlocks: nat, maxPrefill: nat, preemption: bool)

  // The pending heap is kept in pop order.
  datatype Sched = Sched(
    cfg: Settings, pending: seq<Request>, running: seq<Request>, finished: seq<Request>, preempted: seq<Request>,
    free: seq<int>, nextId: int, step: int)

  function Total(r: Request): nat {
    |r.prompt| + |r.output|
  }

  predicate Stopped(r: Request) {
    r.output != [] && (r.output[|r.output| - 1] == r.eos || r.output[|r.output| - 1] in r.stops)
  }

  predicate IsFinished(r: Request) {
    r.status == FINISHED || |r.output| >= r.maxNew || Stopped(r)
  }

  predicate PrefillComplete(r: Request) {
    r.progress >= |r.prompt|
  }

  function Ceil(n: nat, d: pos): nat {
    Quot(n + d - 1, d)
  }

  // ---- The pending heap ----

  predicate Sooner(r: Request, q: Request) {
    r.priority < q.priority
    || (r.priority == q.priority && (r.arrival < q.arrival || (r.arrival == q.arrival && r.id < q.id)))
  }

  function Push(heap: seq<Request>, r: Request): (h: seq<Request>)
    ensures |h| == |heap| + 1
  {
    if heap == [] || Sooner(r, heap[0]) then [r] + heap else [heap[0]] + Push(heap[1..], r)
  }

  function SkipStale(heap: seq<Request>): (h: seq<Request>)
    ensures |h| <= |heap| && (h != [] ==> h[0].status == PENDING)
  {
    if heap == [] || heap[0].status == PENDING then heap else SkipStale(heap[1..])
  }

  // ---- Blocks ----

  // Only ids that are not free already are taken back.
  function ReturnBlocks(free: seq<int>, ids: seq<int>): seq<int>
    decreases |ids|
  {
    if ids == [] then free
    else ReturnBlocks(if ids[0] in free then free else free + [ids[0]], ids[1..])
  }

  // ---- Preemption ----

  // Least important first, then most blocks first.
  predicate Likelier(r: Request, q: Request) {
    r.priority > q.priority || (r.priority == q.priority && |r.blocks| > |q.blocks|)
  }

  // A stable sort: a request goes behind all that are at least as likely.
  function Insert(sorted: seq<Request>, r: Request): (t: seq<Request>)
    ensures multiset(t) == multiset(sorted) + multiset{r}
  {
    if sorted == [] then [r]
    else if Likelier(r, sorted[0]) then [r] + sorted
    else
      assert sorted == [sorted[0]] + sorted[1..];
      [sorted[0]] + Insert(sorted[1..], r)
  }

  function VictimOrder(running: seq<Request>): (t: seq<Request>)
    ensures multiset(t) == multiset(running)
  {
    if running == [] then []
    else
      assert running == running[..|running| - 1] + [running[|running| - 1]];
      Insert(VictimOrder(running[..|running| - 1]), running[|running| - 1])
  }

  function WithoutId(list: seq<Request>, id: int): seq<Request> {
    if list == [] then [] else if list[0].id == id then list[1..] else [list[0]] + WithoutId(list[1..], id)
  }

  // What a preempted request keeps.
  function Stash(r: Request): Request {
    r.(status := PREEMPTED, saved := Some(Saved(r.output, r.pos, r.progress)),
       blocks := [], output := [], pos := 0, progress := 0)
  }

  function Preempt(s: Sched, v: Request): Sched {
    s.(free := ReturnBlocks(s.free, v.blocks), running := WithoutId(s.running, v.id),
       preempted := s.preempted + [Stash(v)])
  }

  predicate Spared(s: Sched, v: Request) {
    v.priority <= 0 && s.pending == []
  }

  function PreemptLoop(s: Sched, candidates: seq<Request>, needed: int, freed: int): (Sched, int)
    decreases |candidates|
  {
    if candidates == [] || freed >= needed then (s, freed)
    else if Spared(s, candidates[0]) then PreemptLoop(s, candidates[1..], needed, freed)
    else PreemptLoop(Preempt(s, candidates[0]), candidates[1..], needed, freed + |candidates[0].blocks|)
  }

  // The new state, and whether enough blocks came free.
  function TryPreempt(s: Sched, needed: int): (Sched, bool) {
    if !s.cfg.preemption || s.running == [] then (s, false)
    else
      var (q, freed) := PreemptLoop(s, VictimOrder(s.running), needed, 0);
      (q, freed >= needed)
  }

  // Takes n blocks off the queue, preempting running requests if need be.
  function Obtain(s: Sched, n: nat): (r: (Sched, Option<seq<int>>))
    ensures r.0.pending == s.pending
  {
    if n <= |s.free| then (s.(free := s.free[n..]), Some(s.free[..n]))
    else
      var (q, ok) := TryPreempt(s, n);
      PreemptPending(s, n);
      if ok && n <= |q.free| then (q.(free := q.free[n..]), Some(q.free[..n])) else (q, None)
  }

  lemma PreemptPending(s: Sched, n: int)
    ensures TryPreempt(s, n).0.pending == s.pending
  {
    if s.cfg.preemption && s.running != [] { LoopPending(s, VictimOrder(s.running), n, 0); }
  }

  lemma {:induction false} LoopPending(s: Sched, candidates: seq<Request>, needed: int, freed: int)
    ensures PreemptLoop(s, candidates, needed, freed).0.pending == s.pending
    decreases |candidates|
  {
    if candidates != [] && freed < needed {
      if Spared(s, candidates[0]) {
        LoopPending(s, candidates[1..], needed, freed);
      } else {
        LoopPending(Preempt(s, candidates[0]), candidates[1..], needed, freed + |candidates[0].blocks|);
      }
    }
  }

  // ---- schedule ----

  function MoveFinished(s: Sched, running: seq<Request>): Sched
    decreases |running|
  {
    if running == [] then s
    else
      var r := running[0];
      MoveFinished(
        if IsFinished(r)
        then s.(free := ReturnBlocks(s.free, r.blocks), finished := s.finished + [r.(status := FINISHED)])
        else s.(running := s.running + [r]), running[1..])
  }

  function Boost(r: Request): Request {
    r.(status := PENDING, priority := Min(r.priority, -1))
  }

  function Readmit(heap: seq<Request>, preempted: seq<Request>): (h: seq<Request>)
    decreases |preempted|
  {
    if preempted == [] then heap else Readmit(Push(heap, Boost(preempted[0])), preempted[1..])
  }

  // Blocks for the prompt and for what was generated before a preemption.
  function BlocksFor(r: Request, bs: pos): nat {
    Ceil(|r.prompt| + (if r.saved.Some? then |r.saved.value.output| else 0), bs)
  }

  function Resume(r: Request): Request {
    if r.saved.None? then r
    else r.(output := r.saved.value.output, pos := r.saved.value.pos, progress := r.saved.value.progress, saved := None)
  }

  function Start(s: Sched, blocks: seq<int>): Sched
    requires s.pending != []
  {
    s.(pending := s.pending[1..], running := s.running + [Resume(s.pending[0].(blocks := blocks, status := RUNNING))])
  }

  function Admit(s: Sched): Sched
    decreases |s.pending|
  {
    if s.pending == [] || |s.running| >= s.cfg.maxBatch then s
    else
      var p := s.(pending := SkipStale(s.pending));
      if p.pending == [] then p
      else
        var (q, blocks) := Obtain(p, BlocksFor(p.pending[0], p.cfg.blockSize));
        if blocks.None? then q else Admit(Start(q, blocks.value))
  }

  // The part of schedule that moves requests; Pieces is what it then feeds.
  function Schedule(s: Sched): Sched {
    var moved := MoveFinished(s.(step := s.step + 1, running := []), s.running);
    Admit(moved.(pending := Readmit(moved.pending, moved.preempted), preempted := []))
  }

  // ---- The batch ----

  // What one request contributes to the batch.
  datatype Piece = Piece(id: int, tokens: seq<int>, positions: seq<int>, prefill: bool)

  function Range(start: int, n: nat): (r: seq<int>)
    ensures |r| == n && forall i :: 0 <= i < n ==> r[i] == start + i
  {
    seq(n, i => start + i)
  }

  // The last token, of the output if there is one; the source raises on a
  // request with neither.
  function LastToken(r: Request): int {
    if r.output != [] then r.output[|r.output| - 1]
    else if r.prompt != [] then r.prompt[|r.prompt| - 1]
    else 0
  }

  function PieceOf(r: Request, budget: int): Piece {
    if !PrefillComplete(r) then
      var chunk := Min(|r.prompt| - r.progress, budget);
      if chunk <= 0 then Piece(r.id, [LastToken(r)], [r.progress], false)
      else Piece(r.id, r.prompt[r.progress..r.progress + chunk], Range(r.progress, chunk), true)
    else if r.pos == 0 then Piece(r.id, r.prompt, Range(0, |r.prompt|), true)
    else Piece(r.id, [LastToken(r)], [Total(r) - 1], false)
  }

  // The budget left after a piece.
  function BudgetAfter(r: Request, budget: int): int {
    if !PrefillComplete(r) then budget - Max(Min(|r.prompt| - r.progress, budget), 0)
    else if r.pos == 0 then budget - |r.prompt| else budget
  }

  function Pieces(running: seq<Request>, budget: int): (ps: seq<Piece>)
    ensures |ps| == |running|
    decreases |running|
  {
    if running == [] then []
    else [PieceOf(running[0], budget)] + Pieces(running[1..], BudgetAfter(running[0], budget))
  }

  // ---- update_after_step ----

  function Advance(r: Request, maxPrefill: nat): Request {
    if PrefillComplete(r) then r
    else
      var progress := Min(r.progress + Max(Min(|r.prompt| - r.progress, maxPrefill), 1), |r.prompt|);
      r.(progress := progress, pos := progress)
  }

  function Generate(r: Request, maxPrefill: nat, token: int): Request {
    var q := Advance(r, maxPrefill);
    q.(output := q.output + [token], pos := Total(q) + 1)
  }

  function Deficit(r: Request, bs: pos): int {
    Ceil(Total(r), bs) - |r.blocks|
  }

  // Replaces the request with this id, in whichever list it is by now.
  function Put(list: seq<Request>, id: int, f: Request -> Request): (t: seq<Request>)
    ensures |t| == |list|
  {
    seq(|list|, i requires 0 <= i < |list| => if list[i].id == id then f(list[i]) else list[i])
  }

  function Change(s: Sched, id: int, f: Request -> Request): Sched {
    s.(running := Put(s.running, id, f), preempted := Put(s.preempted, id, f))
  }

  function Grow(blocks: seq<int>): Request -> Request {
    (r: Request) => r.(blocks := r.blocks + blocks)
  }

  function Stop(): Request -> Request {
    (r: Request) => r.(status := FINISHED)
  }

  // Blocks for a request that has grown, by preemption if need be. The
  // request itself is among the candidates.
  function Provide(s: Sched, id: int, deficit: int): Sched {
    if deficit <= 0 then s
    else
      var (q, blocks) := Obtain(s, deficit);
      if blocks.Some? then Change(q, id, Grow(blocks.value)) else Change(q, id, Stop())
  }

  function Deliver(s: Sched, i: nat, token: int): Sched
    requires i < |s.running|
  {
    var r := Generate(s.running[i], s.cfg.maxPrefill, token);
    Provide(s.(running := s.running[i := r]), r.id, Deficit(r, s.cfg.blockSize))
  }

  // The loop walks the running list by index while preemption removes from it.
  function UpdateLoop(s: Sched, i: nat, tokens: map<int, int>): Sched
    decreases |s.running| - i
  {
    if i >= |s.running| then s
    else if s.running[i].id !in tokens then UpdateLoop(s, i + 1, tokens)
    else
      var d := Deliver(s, i, tokens[s.running[i].id]);
      DeliverShrinks(s, i, tokens[s.running[i].id]);
      UpdateLoop(d, i + 1, tokens)
  }

  function Update(s: Sched, tokens: map<int, int>): Sched {
    UpdateLoop(s, 0, tokens)
  }

  lemma DeliverShrinks(s: Sched, i: nat, token: int)
    requires i < |s.running|
    ensures |Deliver(s, i, token).running| <= |s.running|
  {
    var r := Generate(s.running[i], s.cfg.maxPrefill, token);
    var d := s.(running := s.running[i := r]);
    var n := Deficit(r, s.cfg.blockSize);
    if n > |s.free| && d.cfg.preemption { LoopShrinks(d, VictimOrder(d.running), n, 0); }
  }

  lemma {:induction false} WithoutShrinks(list: seq<Request>, id: int)
    ensures |WithoutId(list, id)| <= |list|
  {
    if list != [] { WithoutShrinks(list[1..], id); }
  }

  lemma {:induction false} LoopShrinks(s: Sched, candidates: seq<Request>, needed: int, freed: int)
    ensures |PreemptLoop(s, candidates, needed, freed).0.running| <= |s.running|
    decreases |candidates|
  {
    if candidates != [] && freed < needed {
      if Spared(s, candidates[0]) {
        LoopShrinks(s, candidates[1..], needed, freed);
      } else {
        WithoutShrinks(s.running, candidates[0].id);
        LoopShrinks(Preempt(s, candidates[0]), candidates[1..], needed, freed + |candidates[0].blocks|);
      }
    }
  }

  // ---- Adding and removing ----

  function Add(s: Sched, prompt: seq<int>, maxNew: int, priority: int, eos: int, stops: seq<int>): Sched {
    s.(nextId := s.nextId + 1,
       pending := Push(s.pending, Request(s.nextId, prompt, maxNew, eos, stops, PENDING, [], [], 0, priority, 0,
                                          s.step, None)))
  }

  function Others(list: seq<Request>, id: int): seq<Request> {
    if list == [] then []
    else if list[0].id == id then Others(list[1..], id)
    else [list[0]] + Others(list[1..], id)
  }

  // The removed request's blocks are not given back.
  function Remove(s: Sched, id: int): Sched {
    s.(pending := Others(s.pending, id), running := Others(s.running, id),
       preempted := Others(s.preempted, id), finished := Others(s.finished, id))
  }

  function Init(cfg: Settings): Sched {
    Sched(cfg, [], [], [], [], seq(cfg.maxBlocks, i => i), 0, 0)
  }
}
