// How many blocks a running request has: exactly as many as its tokens need,
// in every reachable state, unless it was stopped for want of blocks.
module SchedulerBlocks {
  import opened Prelude
  import opened SchedulerSpec
  import opened SchedulerInv
  import opened SchedulerRun
  import opened SchedulerOrder
  import opened SchedulerPolicy

  // n blocks hold the tokens, one block less does not.
  lemma CeilIs(n: nat, bs: pos)
    ensures Ceil(n, bs) * bs >= n && (Ceil(n, bs) > 0 ==> (Ceil(n, bs) - 1) * bs < n)
  {
    var c := Ceil(n, bs);
    Decompose(n + bs - 1, bs);
    if c > 0 { NextBlock(c - 1, bs); }
  }

  lemma CeilGrows(n: nat, m: nat, bs: pos)
    requires n <= m
    ensures Ceil(n, bs) <= Ceil(m, bs)
  {
    CeilIs(n, bs);
    CeilIs(m, bs);
    if Ceil(m, bs) < Ceil(n, bs) { BlockStart(Ceil(m, bs), Ceil(n, bs) - 1, bs); }
  }

  ghost predicate Housed(r: Request, bs: pos) {
    r.status == FINISHED || |r.blocks| == Ceil(Total(r), bs)
  }

  ghost predicate AllHoused(running: seq<Request>, bs: pos) {
    forall r :: r in running ==> Housed(r, bs)
  }

  // A request that waits has its output put aside, if any.
  ghost predicate PutAside(r: Request) {
    r.saved.None? ==> r.output == []
  }

  ghost predicate AllPutAside(s: Sched) {
    (forall r :: r in s.pending ==> PutAside(r)) && (forall r :: r in s.preempted ==> PutAside(r))
  }

  ghost predicate Orderly(s: Sched) {
    AllHoused(s.running, s.cfg.blockSize) && AllPutAside(s)
  }

  // ---- Preemption and blocks ----

  lemma PreemptOrderly(s: Sched, v: Request)
    requires AllPutAside(s)
    ensures AllPutAside(Preempt(s, v))
  {
  }

  lemma {:induction false} LoopOrderly(s: Sched, candidates: seq<Request>, needed: int, freed: int)
    requires AllPutAside(s)
    ensures AllPutAside(PreemptLoop(s, candidates, needed, freed).0)
    ensures PreemptLoop(s, candidates, needed, freed).0.cfg == s.cfg
    decreases |candidates|
  {
    if candidates != [] && freed < needed {
      hide AllPutAside;
      if Spared(s, candidates[0]) {
        LoopOrderly(s, candidates[1..], needed, freed);
      } else {
        PreemptOrderly(s, candidates[0]);
        LoopOrderly(Preempt(s, candidates[0]), candidates[1..], needed, freed + |candidates[0].blocks|);
      }
    }
  }

  lemma ObtainOrderly(s: Sched, n: nat)
    requires AllPutAside(s)
    ensures var (q, blocks) := Obtain(s, n);
      && AllPutAside(q) && q.cfg == s.cfg && (forall r :: r in q.running ==> r in s.running)
      && (blocks.Some? ==> |blocks.value| == n)
  {
    ObtainKeepsRunning(s, n);
    if n > |s.free| && s.cfg.preemption && s.running != [] {
      LoopOrderly(s, VictimOrder(s.running), n, 0);
    }
  }

  // ---- schedule ----

  lemma StartHoused(q: Sched, blocks: seq<int>)
    requires q.pending != [] && PutAside(q.pending[0]) && q.pending[0].status == PENDING
    requires |blocks| == BlocksFor(q.pending[0], q.cfg.blockSize)
    ensures forall r :: r in Start(q, blocks).running ==> r in q.running || Housed(r, q.cfg.blockSize)
  {
    var x := q.pending[0];
    var r := Resume(x.(blocks := blocks, status := RUNNING));
    assert Total(r) == |x.prompt| + if x.saved.Some? then |x.saved.value.output| else 0;
  }

  lemma {:induction false} AdmitOrderly(s: Sched)
    requires Orderly(s) && AllPending(s.pending)
    ensures Orderly(Admit(s)) && Admit(s).cfg == s.cfg
    decreases |s.pending|
  {
    if s.pending != [] && |s.running| < s.cfg.maxBatch {
      assert s.(pending := SkipStale(s.pending)) == s;
      var n := BlocksFor(s.pending[0], s.cfg.blockSize);
      ObtainOrderly(s, n);
      hide Obtain, Housed, BlocksFor, PutAside;
      var (q, blocks) := Obtain(s, n);
      if blocks.Some? {
        assert PutAside(s.pending[0]);
        StartTakesFirst(q, blocks.value);
        StartHoused(q, blocks.value);
        var d := Start(q, blocks.value);
        assert forall r :: r in d.pending ==> r in s.pending;
        AdmitOrderly(d);
      }
    }
  }

  lemma ScheduleOrderly(s: Sched)
    requires Orderly(s) && AllPending(s.pending)
    ensures Orderly(Schedule(s))
  {
    var start := s.(step := s.step + 1, running := []);
    MovedAre(start, s.running);
    ReadmitMembers(s.pending, s.preempted);
    ReadmitPending(s.pending, s.preempted);
    hide MoveFinished, Admit, Readmit;
    var moved := MoveFinished(start, s.running);
    AdmitOrderly(moved.(pending := Readmit(moved.pending, moved.preempted), preempted := []));
  }

  // ---- update_after_step ----

  lemma ProvideOrderly(s: Sched, id: int, deficit: int)
    requires AllPutAside(s) && forall r :: r in s.running && r.id != id ==> Housed(r, s.cfg.blockSize)
    requires forall r :: r in s.running && r.id == id ==>
      r.status == FINISHED || |r.blocks| + Max(deficit, 0) == Ceil(Total(r), s.cfg.blockSize)
    ensures Orderly(Provide(s, id, deficit)) && Provide(s, id, deficit).cfg == s.cfg
  {
    if deficit > 0 {
      ObtainOrderly(s, deficit);
      hide Obtain;
      var (q, blocks) := Obtain(s, deficit);
      var f := if blocks.Some? then Grow(blocks.value) else Stop();
      var d := Change(q, id, f);
      forall r | r in d.running ensures Housed(r, s.cfg.blockSize) {
        var i :| 0 <= i < |d.running| && d.running[i] == r;
        assert q.running[i] in q.running;
      }
      forall r | r in d.preempted ensures PutAside(r) {
        var i :| 0 <= i < |d.preempted| && d.preempted[i] == r;
        assert q.preempted[i] in q.preempted;
      }
    }
  }

  lemma DeliverOrderly(s: Sched, i: nat, token: int)
    requires Orderly(s) && i < |s.running| && AllDiffer(s.running)
    ensures Orderly(Deliver(s, i, token)) && Deliver(s, i, token).cfg == s.cfg
  {
    var x, bs := s.running[i], s.cfg.blockSize;
    var r := Generate(x, s.cfg.maxPrefill, token);
    var q := s.(running := s.running[i := r]);
    assert x in s.running && Total(r) == Total(x) + 1 && r.blocks == x.blocks && r.status == x.status;
    CeilGrows(Total(x), Total(r), bs);
    forall y | y in q.running && y.id != r.id ensures Housed(y, bs) {
      var j :| 0 <= j < |q.running| && q.running[j] == y;
      assert s.running[j] in s.running;
    }
    forall y | y in q.running && y.id == r.id ensures y == r {
      var j :| 0 <= j < |q.running| && q.running[j] == y;
      IndexById(s.running, i, j);
    }
    hide Provide, Ceil, Generate;
    ProvideOrderly(q, r.id, Deficit(r, bs));
  }

  lemma {:induction false} UpdateOrderly(s: Sched, i: nat, tokens: map<int, int>)
    requires Lawful(s) && Orderly(s)
    ensures Orderly(UpdateLoop(s, i, tokens))
    decreases |s.running| - i
  {
    if i < |s.running| {
      hide Lawful, Orderly, Deliver;
      if s.running[i].id !in tokens {
        UpdateOrderly(s, i + 1, tokens);
      } else {
        var token := tokens[s.running[i].id];
        RunningDiffer(s);
        DeliverOrderly(s, i, token);
        DeliverKeeps(s, i, token);
        DeliverShrinks(s, i, token);
        UpdateOrderly(Deliver(s, i, token), i + 1, tokens);
      }
    }
  }

  // ---- Every reachable state ----

  lemma {:induction false} OthersMembers(list: seq<Request>, id: int)
    ensures forall q :: q in Others(list, id) <==> q in list && q.id != id
  {
    if list != [] {
      OthersMembers(list[1..], id);
      assert list == [list[0]] + list[1..];
    }
  }

  lemma StepOrderly(s: Sched, e: Event)
    requires Good(s) && Orderly(s)
    ensures Orderly(Apply(s, e))
  {
    match e
    case Arrive(prompt, maxNew, priority, eos, stops) =>
      PushMembers(s.pending,
                  Request(s.nextId, prompt, maxNew, eos, stops, PENDING, [], [], 0, priority, 0, s.step, None));
    case Reschedule => ScheduleOrderly(s);
    case Answer(tokens) => UpdateOrderly(s, 0, tokens);
    case Withdraw(id) =>
      OthersMembers(s.pending, id);
      OthersMembers(s.running, id);
      OthersMembers(s.preempted, id);
  }

  lemma {:induction false} RunOrderly(s: Sched, es: seq<Event>)
    requires Good(s) && Runs(s, es) && Orderly(s)
    ensures Orderly(Final(s, es)) && Final(s, es).cfg == s.cfg
    decreases |es|
  {
    if es != [] {
      StepGood(s, es[0]);
      StepOrderly(s, es[0]);
      StepConfig(s, es[0]);
      hide Good, Orderly, Apply, Allowed;
      RunOrderly(Apply(s, es[0]), es[1..]);
    }
  }

  // In every reachable state a running request has the blocks its prompt and
  // output need and not one more, unless it was stopped for want of blocks.
  lemma RunningHaveTheirBlocks(cfg: Settings, es: seq<Event>, r: Request)
    requires Runs(Init(cfg), es) && r in Final(Init(cfg), es).running && r.status != FINISHED
    ensures var tokens := |r.prompt| + |r.output|;
      |r.blocks| * cfg.blockSize >= tokens && (r.blocks != [] ==> (|r.blocks| - 1) * cfg.blockSize < tokens)
  {
    InitGood(cfg);
    RunOrderly(Init(cfg), es);
    hide Final, Runs;
    assert Housed(r, cfg.blockSize);
    CeilIs(Total(r), cfg.blockSize);
  }
}
