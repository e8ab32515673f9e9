// What the model is fed: over the life of a request the positions are
// 0, 1, 2, ... each once, and the token at position p is element p of the
// prompt followed by the output (i64_scheduler.py).
module Feeding {
  import opened Prelude
  import opened SchedulerSpec
  import opened SchedulerInv
  import opened SchedulerRun

  // What each request has been fed so far: positions with their tokens.
  type Log = map<int, seq<(int, int)>>

  function LogOf(log: Log, id: int): seq<(int, int)> {
    if id in log then log[id] else []
  }

  function Pairs(p: Piece): (r: seq<(int, int)>)
    requires |p.tokens| == |p.positions|
    ensures |r| == |p.tokens|
  {
    seq(|p.tokens|, i requires 0 <= i < |p.tokens| => (p.positions[i], p.tokens[i]))
  }

  function Feed(log: Log, p: Piece): Log
    requires |p.tokens| == |p.positions|
  {
    log[p.id := LogOf(log, p.id) + Pairs(p)]
  }

  predicate Even(ps: seq<Piece>) {
    forall i :: 0 <= i < |ps| ==> |ps[i].tokens| == |ps[i].positions|
  }

  function FeedAll(log: Log, ps: seq<Piece>): Log
    requires Even(ps)
    decreases |ps|
  {
    if ps == [] then log else FeedAll(Feed(log, ps[0]), ps[1..])
  }

  lemma {:induction false} PiecesEven(running: seq<Request>, budget: int)
    ensures Even(Pieces(running, budget))
    ensures forall i :: 0 <= i < |running| ==> Pieces(running, budget)[i].id == running[i].id
    decreases |running|
  {
    if running != [] { PiecesEven(running[1..], BudgetAfter(running[0], budget)); }
  }

  function Text(r: Request): seq<int> {
    r.prompt + r.output
  }

  ghost predicate Prefix(log: seq<(int, int)>, text: seq<int>) {
    |log| <= |text| && forall p :: 0 <= p < |log| ==> log[p] == (p, text[p])
  }

  // A request has been fed nothing yet, or everything but its last token.
  ghost predicate InStep(r: Request, log: seq<(int, int)>) {
    && r.saved.None?
    && ((r.output == [] && log == [] && r.progress == 0 && r.pos == 0)
        || (r.output != [] && PrefillComplete(r) && r.pos == Total(r)
            && |log| == Total(r) - 1 && Prefix(log, Text(r))))
  }

  // The prompt tokens still to be fed.
  function Remaining(r: Request): nat {
    if PrefillComplete(r) then 0 else |r.prompt| - r.progress
  }

  function Outstanding(running: seq<Request>): nat {
    if running == [] then 0 else Remaining(running[0]) + Outstanding(running[1..])
  }

  // One turn of one request: it is fed a piece and gets a token. It stays in
  // step exactly when the budget covers the rest of its prompt; a prompt of
  // one token goes in even when nothing is left.
  lemma TurnIff(r: Request, log: seq<(int, int)>, budget: nat, maxPrefill: nat, token: int)
    requires InStep(r, log) && budget <= maxPrefill
    ensures var p := PieceOf(r, budget);
      && |p.tokens| == |p.positions|
      && (InStep(Generate(r, maxPrefill, token), log + Pairs(p)) <==> Remaining(r) <= Max(budget, 1))
      && BudgetAfter(r, budget) == Max(budget - Remaining(r), 0)
  {
    var p, q := PieceOf(r, budget), Generate(r, maxPrefill, token);
    var t := log + Pairs(p);
    if r.output == [] {
      assert Text(q) == r.prompt + [token];
      if Remaining(r) <= Max(budget, 1) {
        if r.prompt != [] && Remaining(r) <= budget { assert r.prompt[0..|r.prompt|] == r.prompt; }
        assert p.tokens == r.prompt;
      }
    } else {
      assert Text(q) == Text(r) + [token];
      assert Text(r)[Total(r) - 1] == LastToken(r);
    }
    if Remaining(r) <= Max(budget, 1) {
      forall k | 0 <= k < |t| ensures t[k] == (k, Text(q)[k]) {}
    }
  }

  // ---- All running requests at once ----

  ghost predicate AllInStep(list: seq<Request>, log: Log) {
    forall r :: r in list ==> InStep(r, LogOf(log, r.id))
  }

  ghost predicate IdsDiffer(list: seq<Request>) {
    forall i, j :: 0 <= i < j < |list| ==> list[i].id != list[j].id
  }

  lemma {:induction false} FeedOthers(log: Log, ps: seq<Piece>, id: int)
    requires Even(ps) && forall i :: 0 <= i < |ps| ==> ps[i].id != id
    ensures LogOf(FeedAll(log, ps), id) == LogOf(log, id)
    decreases |ps|
  {
    if ps != [] { FeedOthers(Feed(log, ps[0]), ps[1..], id); }
  }

  // Each request is fed its own piece.
  lemma {:induction false} FeedOwn(log: Log, ps: seq<Piece>, k: nat)
    requires Even(ps) && k < |ps| && forall i, j :: 0 <= i < j < |ps| ==> ps[i].id != ps[j].id
    ensures LogOf(FeedAll(log, ps), ps[k].id) == LogOf(log, ps[k].id) + Pairs(ps[k])
    decreases |ps|
  {
    if k == 0 {
      FeedOthers(Feed(log, ps[0]), ps[1..], ps[0].id);
    } else {
      FeedOwn(Feed(log, ps[0]), ps[1..], k - 1);
      assert ps[0].id != ps[k].id;
    }
  }

  // The budget that reaches request k.
  function BudgetAt(running: seq<Request>, budget: int, k: nat): int
    requires k <= |running|
    decreases k
  {
    if k == 0 then budget else BudgetAt(running[1..], BudgetAfter(running[0], budget), k - 1)
  }

  lemma {:induction false} PieceAt(running: seq<Request>, budget: int, k: nat)
    requires k < |running|
    ensures Pieces(running, budget)[k] == PieceOf(running[k], BudgetAt(running, budget, k))
    decreases k
  {
    if k > 0 { PieceAt(running[1..], BudgetAfter(running[0], budget), k - 1); }
  }

  // Every prompt but those of one token fits, together with the ones before
  // it, into the budget.
  ghost predicate Fits(running: seq<Request>, budget: nat) {
    forall k :: 0 <= k < |running| ==> Remaining(running[k]) <= 1 || Outstanding(running[..k + 1]) <= budget
  }

  lemma {:induction false} OutstandingSnoc(running: seq<Request>, k: nat)
    requires k < |running|
    ensures Outstanding(running[..k + 1]) == Outstanding(running[..k]) + Remaining(running[k])
  {
    if k == 0 {
      assert running[..1] == [running[0]] && running[..0] == [] && [running[0]][1..] == [];
    } else {
      OutstandingSnoc(running[1..], k - 1);
      assert running[..k + 1][1..] == running[1..][..k] && running[..k][1..] == running[1..][..k - 1];
    }
  }

  lemma {:induction false} OutstandingLess(running: seq<Request>, k: nat)
    requires k <= |running|
    ensures Outstanding(running[..k]) <= Outstanding(running)
    decreases k
  {
    if k > 0 {
      OutstandingLess(running[1..], k - 1);
      assert running[..k][1..] == running[1..][..k - 1];
    }
  }

  // All prompts together within the budget is enough.
  lemma OutstandingFits(running: seq<Request>, budget: nat)
    requires Outstanding(running) <= budget
    ensures Fits(running, budget)
  {
    forall k | 0 <= k < |running| ensures Remaining(running[k]) <= 1 || Outstanding(running[..k + 1]) <= budget {
      OutstandingLess(running, k + 1);
    }
  }

  lemma {:induction false} BudgetLeft(running: seq<Request>, log: Log, budget: nat, maxPrefill: nat, k: nat)
    requires AllInStep(running, log) && budget <= maxPrefill && k <= |running|
    ensures BudgetAt(running, budget, k) == Max(budget - Outstanding(running[..k]), 0)
    decreases k
  {
    if k > 0 {
      var r := running[0];
      assert r in running && forall q :: q in running[1..] ==> q in running;
      TurnIff(r, LogOf(log, r.id), budget, maxPrefill, 0);
      BudgetLeft(running[1..], log, BudgetAfter(r, budget), maxPrefill, k - 1);
      assert running[..k][1..] == running[1..][..k - 1];
    }
  }

  // After feeding the batch, request k is in step once it has its token
  // exactly when its prompt was whole.
  lemma FedInStepIff(log: Log, running: seq<Request>, maxPrefill: nat, k: nat, token: int)
    requires IdsDiffer(running) && AllInStep(running, log) && k < |running|
    ensures Even(Pieces(running, maxPrefill))
    ensures InStep(Generate(running[k], maxPrefill, token),
                   LogOf(FeedAll(log, Pieces(running, maxPrefill)), running[k].id))
            <==> Remaining(running[k]) <= 1 || Outstanding(running[..k + 1]) <= maxPrefill
  {
    hide InStep, Generate, PieceOf, FeedAll, Pieces, Outstanding, Remaining, BudgetAt, Pairs;
    var ps, r := Pieces(running, maxPrefill), running[k];
    PiecesEven(running, maxPrefill);
    forall i, j | 0 <= i < j < |ps| ensures ps[i].id != ps[j].id { assert running[i].id != running[j].id; }
    FeedOwn(log, ps, k);
    PieceAt(running, maxPrefill, k);
    BudgetLeft(running, log, maxPrefill, maxPrefill, k);
    assert r in running;
    TurnIff(r, LogOf(log, r.id), BudgetAt(running, maxPrefill, k), maxPrefill, token);
    OutstandingSnoc(running, k);
  }

  // ---- Schedule without preemption ----

  lemma {:induction false} LoopQuiet(s: Sched, candidates: seq<Request>, needed: int, freed: int)
    ensures var q := PreemptLoop(s, candidates, needed, freed).0;
      |q.preempted| >= |s.preempted| && (|q.preempted| == |s.preempted| ==> q == s)
    decreases |candidates|
  {
    if candidates != [] && freed < needed {
      if Spared(s, candidates[0]) {
        LoopQuiet(s, candidates[1..], needed, freed);
      } else {
        LoopQuiet(Preempt(s, candidates[0]), candidates[1..], needed, freed + |candidates[0].blocks|);
      }
    }
  }

  lemma ObtainQuiet(s: Sched, n: nat)
    ensures var (q, blocks) := Obtain(s, n);
      |q.preempted| >= |s.preempted| && (|q.preempted| == |s.preempted| ==> q == s.(free := q.free))
  {
    if n > |s.free| && s.cfg.preemption && s.running != [] { LoopQuiet(s, VictimOrder(s.running), n, 0); }
  }

  lemma {:induction false} AdmitQuiet(s: Sched)
    ensures |Admit(s).preempted| >= |s.preempted|
    decreases |s.pending|
  {
    if s.pending != [] && |s.running| < s.cfg.maxBatch {
      var p := s.(pending := SkipStale(s.pending));
      if p.pending != [] {
        var n := BlocksFor(p.pending[0], p.cfg.blockSize);
        ObtainQuiet(p, n);
        var (q, blocks) := Obtain(p, n);
        if blocks.Some? { AdmitQuiet(Start(q, blocks.value)); }
      }
    }
  }

  // Everybody known to the scheduler is in step with the log.
  ghost predicate Tracked(s: Sched, log: Log) {
    AllInStep(s.running, log) && AllInStep(s.pending, log) && AllInStep(s.finished, log)
  }

  lemma {:induction false} SkipMembers(heap: seq<Request>)
    ensures forall r :: r in SkipStale(heap) ==> r in heap
  {
    if heap != [] && heap[0].status != PENDING { SkipMembers(heap[1..]); }
  }

  lemma {:induction false} AdmitTracked(s: Sched, log: Log)
    requires Tracked(s, log) && |Admit(s).preempted| == |s.preempted|
    ensures Tracked(Admit(s), log)
    decreases |s.pending|
  {
    if s.pending != [] && |s.running| < s.cfg.maxBatch {
      SkipMembers(s.pending);
      var p := s.(pending := SkipStale(s.pending));
      if p.pending != [] {
        var n := BlocksFor(p.pending[0], p.cfg.blockSize);
        ObtainQuiet(p, n);
        var (q, blocks) := Obtain(p, n);
        if blocks.Some? {
          var d := Start(q, blocks.value);
          AdmitQuiet(d);
          assert Admit(s) == Admit(d);
          hide Obtain, Admit, BlocksFor;
          assert Tracked(p, log);
          StartTracked(p, q, blocks.value, log);
          hide Tracked, Start;
          AdmitTracked(d, log);
        } else {
          assert Admit(s) == q;
          hide Obtain, Admit, BlocksFor;
        }
      }
    }
  }

  lemma StartTracked(p: Sched, q: Sched, blocks: seq<int>, log: Log)
    requires Tracked(p, log) && p.pending != [] && q.pending == p.pending && q.running == p.running
    requires q.finished == p.finished
    ensures Tracked(Start(q, blocks), log)
    ensures |Start(q, blocks).preempted| == |q.preempted| && |Start(q, blocks).pending| < |q.pending|
  {
    var r := p.pending[0];
    assert r in p.pending && InStep(r, LogOf(log, r.id));
    forall x | x in p.pending[1..] ensures InStep(x, LogOf(log, x.id)) { assert x in p.pending; }
  }

  lemma {:induction false} MoveTracked(s: Sched, rest: seq<Request>, log: Log)
    requires Tracked(s, log) && AllInStep(rest, log)
    ensures Tracked(MoveFinished(s, rest), log)
    ensures MoveFinished(s, rest).pending == s.pending && MoveFinished(s, rest).preempted == s.preempted
    decreases |rest|
  {
    if rest != [] {
      var r := rest[0];
      assert r in rest && forall x :: x in rest[1..] ==> x in rest;
      if IsFinished(r) {
        MoveTracked(s.(free := ReturnBlocks(s.free, r.blocks), finished := s.finished + [r.(status := FINISHED)]),
                    rest[1..], log);
      } else {
        MoveTracked(s.(running := s.running + [r]), rest[1..], log);
      }
    }
  }

  lemma ScheduleTracked(s: Sched, log: Log)
    requires Tracked(s, log) && s.preempted == [] && Schedule(s).preempted == []
    ensures Tracked(Schedule(s), log)
  {
    var start := s.(step := s.step + 1, running := []);
    MoveTracked(start, s.running, log);
    var moved := MoveFinished(start, s.running);
    assert moved.(pending := Readmit(moved.pending, moved.preempted), preempted := []) == moved;
    AdmitTracked(moved, log);
  }

  // ---- Update without preemption ----

  // No turn preempts anybody; a request that finds no blocks is stopped.
  ghost predicate Unpreempted(s: Sched, i: nat, tokens: map<int, int>)
    decreases |s.running| - i
  {
    i < |s.running| && s.running[i].id in tokens ==>
      var token := tokens[s.running[i].id];
      DeliverShrinks(s, i, token);
      Deliver(s, i, token).preempted == [] && Unpreempted(Deliver(s, i, token), i + 1, tokens)
  }

  ghost predicate Covered(running: seq<Request>, tokens: map<int, int>) {
    forall r :: r in running ==> r.id in tokens
  }

  // Everything about a request but its blocks and its status.
  ghost predicate SameText(r: Request, q: Request) {
    q == r.(blocks := q.blocks, status := q.status)
  }

  lemma ProvideOne(s: Sched, i: nat, n: int)
    requires i < |s.running| && IdsDiffer(s.running) && s.preempted == []
    requires Provide(s, s.running[i].id, n).preempted == []
    ensures var d := Provide(s, s.running[i].id, n);
      && |d.running| == |s.running| && d.pending == s.pending && d.finished == s.finished && d.cfg == s.cfg
      && (forall k :: 0 <= k < |s.running| && k != i ==> d.running[k] == s.running[k])
      && SameText(s.running[i], d.running[i])
  {
    var id := s.running[i].id;
    forall k | 0 <= k < |s.running| && k != i ensures s.running[k].id != id {
      if k < i { assert s.running[k].id != s.running[i].id; } else { assert s.running[i].id != s.running[k].id; }
    }
    if n > 0 {
      ObtainQuiet(s, n);
      var (q, blocks) := Obtain(s, n);
      hide Obtain;
      assert |q.preempted| == 0;
    }
  }

  // A turn that preempts nobody only touches its own request.
  lemma DeliverOne(s: Sched, i: nat, token: int)
    requires i < |s.running| && IdsDiffer(s.running) && s.preempted == [] && Deliver(s, i, token).preempted == []
    ensures var d := Deliver(s, i, token);
      && |d.running| == |s.running| && d.pending == s.pending && d.finished == s.finished && d.cfg == s.cfg
      && (forall k :: 0 <= k < |s.running| && k != i ==> d.running[k] == s.running[k])
      && SameText(Generate(s.running[i], s.cfg.maxPrefill, token), d.running[i]) && IdsDiffer(d.running)
  {
    var r := Generate(s.running[i], s.cfg.maxPrefill, token);
    var q := s.(running := s.running[i := r]);
    forall j, k | 0 <= j < k < |q.running| ensures q.running[j].id != q.running[k].id {
      assert s.running[j].id != s.running[k].id;
    }
    assert q.running[i] == r;
    hide Generate, Provide;
    ProvideOne(q, i, Deficit(r, s.cfg.blockSize));
    var d := Deliver(s, i, token);
    forall j, k | 0 <= j < k < |d.running| ensures d.running[j].id != d.running[k].id {
      assert q.running[j].id != q.running[k].id;
    }
  }

  lemma DeliverCovered(s: Sched, d: Sched, i: nat, token: int, tokens: map<int, int>)
    requires Covered(s.running, tokens) && i < |s.running| == |d.running|
    requires forall k :: 0 <= k < |s.running| && k != i ==> d.running[k] == s.running[k]
    requires SameText(Generate(s.running[i], s.cfg.maxPrefill, token), d.running[i])
    ensures Covered(d.running, tokens)
  {
    forall x | x in d.running ensures x.id in tokens {
      var k :| 0 <= k < |d.running| && d.running[k] == x;
      assert s.running[k] in s.running && s.running[k].id == x.id;
    }
  }

  // Every running request from index i on gets its token, and nothing else
  // about what was said and fed changes.
  lemma {:induction false} UpdateIs(s: Sched, i: nat, tokens: map<int, int>)
    requires IdsDiffer(s.running) && s.preempted == [] && Covered(s.running, tokens) && Unpreempted(s, i, tokens)
    ensures var d := UpdateLoop(s, i, tokens);
      && |d.running| == |s.running| && d.preempted == [] && d.pending == s.pending && d.finished == s.finished
      && forall k :: 0 <= k < |s.running| ==>
           SameText(if k < i then s.running[k]
                    else Generate(s.running[k], s.cfg.maxPrefill, TokenOf(s.running[k], tokens)), d.running[k])
    decreases |s.running| - i
  {
    if i < |s.running| {
      assert s.running[i] in s.running;
      var token := tokens[s.running[i].id];
      DeliverShrinks(s, i, token);
      DeliverOne(s, i, token);
      var d := Deliver(s, i, token);
      DeliverCovered(s, d, i, token, tokens);
      hide Deliver, Generate;
      UpdateIs(d, i + 1, tokens);
    }
  }

  function TokenOf(r: Request, tokens: map<int, int>): int {
    if r.id in tokens then tokens[r.id] else 0
  }

  lemma TextInStep(r: Request, q: Request, log: seq<(int, int)>)
    requires SameText(r, q)
    ensures InStep(q, log) <==> InStep(r, log)
  {
  }

  // The requests after the update are in step exactly when each was whole.
  lemma UpdateInStepIff(d: Sched, log: Log, fed: Log, tokens: map<int, int>)
    requires IdsDiffer(d.running) && d.preempted == [] && Covered(d.running, tokens) && Unpreempted(d, 0, tokens)
    requires AllInStep(d.running, log) && Even(Pieces(d.running, d.cfg.maxPrefill))
    requires fed == FeedAll(log, Pieces(d.running, d.cfg.maxPrefill))
    ensures AllInStep(Update(d, tokens).running, fed) <==> Fits(d.running, d.cfg.maxPrefill)
  {
    hide UpdateLoop, Generate, InStep, Unpreempted, FeedAll, Pieces, Outstanding, Remaining;
    UpdateIs(d, 0, tokens);
    var u := Update(d, tokens);
    forall k | 0 <= k < |d.running|
      ensures InStep(u.running[k], LogOf(fed, u.running[k].id))
              <==> Remaining(d.running[k]) <= 1 || Outstanding(d.running[..k + 1]) <= d.cfg.maxPrefill
    {
      var token := TokenOf(d.running[k], tokens);
      var g := Generate(d.running[k], d.cfg.maxPrefill, token);
      GeneratesSame(d.running[k], d.cfg.maxPrefill, token);
      FedInStepIff(log, d.running, d.cfg.maxPrefill, k, token);
      TextInStep(g, u.running[k], LogOf(fed, d.running[k].id));
    }
    if AllInStep(u.running, fed) {
      forall k | 0 <= k < |d.running|
        ensures Remaining(d.running[k]) <= 1 || Outstanding(d.running[..k + 1]) <= d.cfg.maxPrefill
      {
        assert u.running[k] in u.running;
      }
    } else {
      var r :| r in u.running && !InStep(r, LogOf(fed, r.id));
      var k :| 0 <= k < |u.running| && u.running[k] == r;
    }
  }

  lemma GeneratesSame(r: Request, budget: nat, token: int)
    ensures Generate(r, budget, token).id == r.id
  {
  }

  // ---- Runs ----

  datatype Event =
    | Arrive(prompt: seq<int>, maxNew: int, priority: int, eos: int, stops: seq<int>)
    | Turn(tokens: map<int, int>)

  function Batch(s: Sched): (ps: seq<Piece>)
    ensures Even(ps)
  {
    PiecesEven(Schedule(s).running, s.cfg.maxPrefill);
    Pieces(Schedule(s).running, s.cfg.maxPrefill)
  }

  // A full turn: schedule, feed the batch, deliver the sampled tokens.
  function After(s: Sched, log: Log, e: Event): (Sched, Log) {
    match e
    case Arrive(prompt, maxNew, priority, eos, stops) => (Add(s, prompt, maxNew, priority, eos, stops), log)
    case Turn(tokens) => (Update(Schedule(s), tokens), FeedAll(log, Batch(s)))
  }

  // Nobody is preempted, and every scheduled request gets a token.
  ghost predicate Calm(s: Sched, tokens: map<int, int>) {
    var d := Schedule(s);
    d.preempted == [] && Covered(d.running, tokens) && Unpreempted(d, 0, tokens)
  }

  // The outstanding prompts fit the budget, too.
  ghost predicate Smooth(s: Sched, e: Event) {
    e.Turn? ==> Calm(s, e.tokens) && Fits(Schedule(s).running, s.cfg.maxPrefill)
  }

  ghost predicate Sound(s: Sched, log: Log) {
    && Good(s) && s.preempted == [] && Tracked(s, log)
    && (forall id :: id in log ==> id < s.nextId)
  }

  lemma TakenIsPreempted(s: Sched, i: nat, token: int)
    requires Lawful(s) && i < |s.running| && s.preempted == [] && Leaks(s, i, token)
    ensures Deliver(s, i, token).preempted != []
  {
    var r := Generate(s.running[i], s.cfg.maxPrefill, token);
    var q := s.(running := s.running[i := r]);
    var n := Deficit(r, s.cfg.blockSize);
    GeneratedKeeps(s, i, r);
    assert q.running[i] == r;
    SelfVictimIff(q, r, n);
    ObtainKeeps(q, n);
    hide Lawful, Generate, Obtain, SelfVictim;
    var p := Obtain(q, n).0;
    assert Places(p, r.id) == Places(q, r.id) && Count(p.running, Id, r.id) == 0 && Count(q.running, Id, r.id) == 1;
    assert p.pending == q.pending && p.finished == q.finished;
    assert Count(p.preempted, Id, r.id) > 0;
  }

  lemma {:induction false} UnpreemptedKeepsBlocks(s: Sched, i: nat, tokens: map<int, int>)
    requires Unpreempted(s, i, tokens) && Covered(s.running, tokens) && IdsDiffer(s.running)
    requires s.preempted == [] && Lawful(s)
    ensures !LeaksIn(s, i, tokens)
    decreases |s.running| - i
  {
    if i < |s.running| {
      assert s.running[i] in s.running;
      var token := tokens[s.running[i].id];
      DeliverShrinks(s, i, token);
      DeliverOne(s, i, token);
      DeliverKeeps(s, i, token);
      var d := Deliver(s, i, token);
      DeliverCovered(s, d, i, token, tokens);
      if Leaks(s, i, token) { TakenIsPreempted(s, i, token); }
      hide Deliver, Generate, Lawful, Leaks;
      UnpreemptedKeepsBlocks(d, i + 1, tokens);
    }
  }

  lemma LawfulDiffer(s: Sched)
    requires Lawful(s)
    ensures IdsDiffer(s.running)
  {
    forall i, j | 0 <= i < j < |s.running| ensures s.running[i].id != s.running[j].id {
      assert Places(s, s.running[i].id) <= 1;
      if s.running[i].id == s.running[j].id { TwoOfOne(s.running, i, j); }
    }
  }

  lemma NotRunning(s: Sched, r: Request)
    requires Lawful(s) && (r in s.pending || r in s.finished)
    ensures forall i :: 0 <= i < |s.running| ==> s.running[i].id != r.id
  {
    forall i | 0 <= i < |s.running| ensures s.running[i].id != r.id {
      assert Places(s, r.id) <= 1;
      if s.running[i].id == r.id {
        CountMember(s.running, s.running[i], Id, r.id);
        if r in s.pending { CountMember(s.pending, r, Id, r.id); } else { CountMember(s.finished, r, Id, r.id); }
      }
    }
  }

  // Feeding the batch changes nothing for requests that are not running.
  lemma FedTracked(d: Sched, log: Log)
    requires Lawful(d) && Tracked(d, log)
    ensures Even(Pieces(d.running, d.cfg.maxPrefill))
    ensures var fed := FeedAll(log, Pieces(d.running, d.cfg.maxPrefill));
      AllInStep(d.pending, fed) && AllInStep(d.finished, fed)
  {
    PiecesEven(d.running, d.cfg.maxPrefill);
    var fed := FeedAll(log, Pieces(d.running, d.cfg.maxPrefill));
    hide Lawful;
    forall r | r in d.pending || r in d.finished ensures InStep(r, LogOf(fed, r.id)) {
      NotRunning(d, r);
      FeedOthers(log, Pieces(d.running, d.cfg.maxPrefill), r.id);
      assert InStep(r, LogOf(log, r.id));
    }
  }

  lemma {:induction false} FedKeys(log: Log, ps: seq<Piece>)
    requires Even(ps)
    ensures forall id :: id in FeedAll(log, ps) ==> id in log || exists i :: 0 <= i < |ps| && ps[i].id == id
    decreases |ps|
  {
    if ps != [] {
      FedKeys(Feed(log, ps[0]), ps[1..]);
      forall id | id in FeedAll(log, ps) && id !in log ensures exists i :: 0 <= i < |ps| && ps[i].id == id {
        if id != ps[0].id {
          assert id !in Feed(log, ps[0]);
          var i :| 0 <= i < |ps| - 1 && ps[1..][i].id == id;
          assert ps[i + 1].id == id;
        } else {
          assert ps[0].id == id;
        }
      }
    }
  }

  // What a calm turn leads to, whether the prompts fit or not.
  lemma CalmTurn(s: Sched, log: Log, tokens: map<int, int>)
    requires Sound(s, log) && Calm(s, tokens)
    ensures var d := Schedule(s);
      && Lawful(d) && Conserved(d) && AllPending(d.pending) && SamePlaces(s, d) && d.nextId == s.nextId
      && d.cfg == s.cfg
      && IdsDiffer(d.running) && Tracked(d, log)
  {
    ScheduleConserves(s);
    ScheduleTracked(s, log);
    ScheduleIds(s);
    LawfulDiffer(Schedule(s));
  }

  // From a state where every request is in step, a turn that preempts nobody
  // leaves every running request in step exactly when the prompts fit the
  // budget in running order, prompts of one token aside.
  lemma TurnInStepIff(s: Sched, log: Log, tokens: map<int, int>)
    requires Sound(s, log) && Calm(s, tokens)
    ensures var (u, fed) := After(s, log, Turn(tokens));
      AllInStep(u.running, fed) <==> Fits(Schedule(s).running, s.cfg.maxPrefill)
  {
    CalmTurn(s, log, tokens);
    var d := Schedule(s);
    PiecesEven(d.running, s.cfg.maxPrefill);
    hide Schedule, Lawful, Conserved, Unpreempted;
    UpdateInStepIff(d, log, FeedAll(log, Batch(s)), tokens);
  }

  lemma TurnSound(s: Sched, log: Log, tokens: map<int, int>)
    requires Sound(s, log) && Smooth(s, Turn(tokens))
    ensures Sound(After(s, log, Turn(tokens)).0, After(s, log, Turn(tokens)).1)
  {
    hide Schedule, Lawful, Conserved, Fits, InStep, UpdateLoop, Unpreempted, FeedAll;
    var d := Schedule(s);
    CalmTurn(s, log, tokens);
    TurnInStepIff(s, log, tokens);
    FedTracked(d, log);
    UnpreemptedKeepsBlocks(d, 0, tokens);
    UpdateConservesIff(d, tokens);
    UpdateKeeps(d, 0, tokens);
    UpdateIs(d, 0, tokens);
    UpdateIds(d, 0, tokens);
    var u := Update(d, tokens);
    forall id | id >= u.nextId ensures Places(u, id) == 0 {
      assert Places(u, id) == Places(d, id) && Places(d, id) == Places(s, id);
    }
    FedIds(s, log);
  }

  lemma FedIds(s: Sched, log: Log)
    requires SamePlaces(s, Schedule(s)) && forall id :: id >= s.nextId ==> Places(s, id) == 0
    requires forall id :: id in log ==> id < s.nextId
    ensures forall id :: id in FeedAll(log, Batch(s)) ==> id < s.nextId
  {
    var d := Schedule(s);
    FedKeys(log, Batch(s));
    PiecesEven(d.running, s.cfg.maxPrefill);
    hide Schedule;
    forall id | id in FeedAll(log, Batch(s)) ensures id < s.nextId {
      if id !in log {
        var i :| 0 <= i < |Batch(s)| && Batch(s)[i].id == id;
        CountMember(d.running, d.running[i], Id, id);
        assert Places(d, id) == Places(s, id);
      }
    }
  }

  lemma ArriveSound(s: Sched, log: Log, prompt: seq<int>, maxNew: int, priority: int, eos: int, stops: seq<int>)
    requires Sound(s, log)
    ensures Sound(Add(s, prompt, maxNew, priority, eos, stops), log)
  {
    var r := Request(s.nextId, prompt, maxNew, eos, stops, PENDING, [], [], 0, priority, 0, s.step, None);
    PushMembers(s.pending, r);
    AddGood(s, prompt, maxNew, priority, eos, stops);
  }

  ghost predicate SmoothRun(s: Sched, log: Log, es: seq<Event>)
    decreases |es|
  {
    es == [] || (Smooth(s, es[0]) && SmoothRun(After(s, log, es[0]).0, After(s, log, es[0]).1, es[1..]))
  }

  function End(s: Sched, log: Log, es: seq<Event>): (Sched, Log)
    decreases |es|
  {
    if es == [] then (s, log) else End(After(s, log, es[0]).0, After(s, log, es[0]).1, es[1..])
  }

  lemma {:induction false} RunSound(s: Sched, log: Log, es: seq<Event>)
    requires Sound(s, log) && SmoothRun(s, log, es)
    ensures Sound(End(s, log, es).0, End(s, log, es).1)
    decreases |es|
  {
    if es != [] {
      hide Sound, Smooth;
      match es[0] {
        case Arrive(prompt, maxNew, priority, eos, stops) => ArriveSound(s, log, prompt, maxNew, priority, eos, stops);
        case Turn(tokens) => TurnSound(s, log, tokens);
      }
      RunSound(After(s, log, es[0]).0, After(s, log, es[0]).1, es[1..]);
    }
  }

  // In every state a smooth run reaches, each request has been fed exactly
  // the positions 0, 1, ..., each with that element of prompt plus output;
  // only its last token is still to come.
  lemma FedInOrder(cfg: Settings, es: seq<Event>, r: Request)
    requires SmoothRun(Init(cfg), map[], es)
    requires var (s, log) := End(Init(cfg), map[], es); r in s.running || r in s.pending || r in s.finished
    ensures var fed := LogOf(End(Init(cfg), map[], es).1, r.id);
      && |fed| <= |Text(r)| && (forall p :: 0 <= p < |fed| ==> fed[p] == (p, Text(r)[p]))
      && |fed| == if r.output == [] then 0 else Total(r) - 1
  {
    InitSound(cfg);
    RunSound(Init(cfg), map[], es);
    hide SmoothRun, End;
    var (s, log) := End(Init(cfg), map[], es);
    assert InStep(r, LogOf(log, r.id));
  }

  lemma InitSound(cfg: Settings)
    ensures Sound(Init(cfg), map[])
  {
    InitGood(cfg);
  }

  // ---- Long prompts, one request alone ----

  // Steps in which a request alone in the batch gets a token each.
  function Fill(r: Request, maxPrefill: nat, tokens: seq<int>): Request
    decreases |tokens|
  {
    if tokens == [] then r else Fill(Generate(r, maxPrefill, tokens[0]), maxPrefill, tokens[1..])
  }

  function Chunks(n: nat, size: pos): nat {
    if n <= size then 1 else 1 + Chunks(n - size, size)
  }

  lemma {:induction false} FillCompletes(r: Request, maxPrefill: pos, tokens: seq<int>)
    requires r.progress < |r.prompt| && |tokens| == Chunks(|r.prompt| - r.progress, maxPrefill)
    ensures var q := Fill(r, maxPrefill, tokens);
      PrefillComplete(q) && q.prompt == r.prompt && q.output == r.output + tokens && q.pos == Total(q)
    decreases |tokens|
  {
    var g := Generate(r, maxPrefill, tokens[0]);
    assert tokens == [tokens[0]] + tokens[1..];
    if |r.prompt| - r.progress <= maxPrefill {
      assert tokens[1..] == [];
      assert Fill(g, maxPrefill, []) == g;
    } else {
      FillCompletes(g, maxPrefill, tokens[1..]);
      assert g.output + tokens[1..] == r.output + tokens;
    }
  }

  // Every chunk of a prompt is answered with a token, so once the prompt is
  // in, the next position fed follows the prompt exactly when the prompt went
  // in as one chunk; otherwise positions are skipped.
  lemma NoGapIff(r: Request, maxPrefill: pos, tokens: seq<int>, budget: int)
    requires r.output == [] && r.progress == 0 && r.prompt != []
    requires |tokens| == Chunks(|r.prompt|, maxPrefill)
    ensures var q := Fill(r, maxPrefill, tokens);
      && PieceOf(q, budget).positions == [|r.prompt| + |tokens| - 1]
      && (PieceOf(q, budget).positions == [|r.prompt|] <==> |r.prompt| <= maxPrefill)
  {
    FillCompletes(r, maxPrefill, tokens);
  }
}
