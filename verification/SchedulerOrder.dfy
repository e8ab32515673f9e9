// Who goes first: the order of the pending requests, who is started, who is
// preempted, who is finished, and when admission stops.
module SchedulerOrder {
  import opened Prelude
  import opened SchedulerSpec
  import opened SchedulerInv
  import opened SchedulerRun

  // ---- The order of the pending requests ----

  // Three integers in the order of the pending heap.
  predicate Lex(p: int, a: int, i: int, q: int, b: int, j: int) {
    p < q || (p == q && (a < b || (a == b && i < j)))
  }

  // The first request need not wait for the second: lower priority numbers
  // first, then earlier arrivals, then lower ids.
  predicate NoLater(r: Request, q: Request) {
    !Lex(q.priority, q.arrival, q.id, r.priority, r.arrival, r.id)
  }

  ghost predicate InOrder(heap: seq<Request>) {
    forall i, j :: 0 <= i < j < |heap| ==> NoLater(heap[i], heap[j])
  }

  lemma FirstIsFirst(heap: seq<Request>, r: Request, rest: seq<Request>)
    requires InOrder(rest) && heap == [r] + rest && forall q :: q in rest ==> NoLater(r, q)
    ensures InOrder(heap)
  {
    forall i, j | 0 <= i < j < |heap| ensures NoLater(heap[i], heap[j]) {
      assert heap[j] == rest[j - 1];
      if i > 0 { assert heap[i] == rest[i - 1]; }
    }
  }

  lemma {:induction false} PushInOrder(heap: seq<Request>, r: Request)
    requires InOrder(heap)
    ensures InOrder(Push(heap, r))
  {
    if heap == [] || Sooner(r, heap[0]) {
      forall q | q in heap ensures NoLater(r, q) {
        var k :| 0 <= k < |heap| && heap[k] == q;
        if k > 0 { assert NoLater(heap[0], heap[k]); }
      }
      FirstIsFirst([r] + heap, r, heap);
    } else {
      forall i, j | 0 <= i < j < |heap[1..]| ensures NoLater(heap[1..][i], heap[1..][j]) {
        assert NoLater(heap[i + 1], heap[j + 1]);
      }
      PushInOrder(heap[1..], r);
      PushMembers(heap[1..], r);
      forall q | q in Push(heap[1..], r) ensures NoLater(heap[0], q) {
        if q != r {
          var k :| 0 <= k < |heap[1..]| && heap[1..][k] == q;
          assert NoLater(heap[0], heap[k + 1]);
        }
      }
      FirstIsFirst(Push(heap, r), heap[0], Push(heap[1..], r));
    }
  }

  ghost predicate Boosted(q: Request, preempted: seq<Request>) {
    exists r :: r in preempted && q == Boost(r)
  }

  lemma {:induction false} ReadmitInOrder(heap: seq<Request>, preempted: seq<Request>)
    requires InOrder(heap)
    ensures InOrder(Readmit(heap, preempted))
    ensures forall q :: q in Readmit(heap, preempted) <==> q in heap || Boosted(q, preempted)
    decreases |preempted|
  {
    if preempted != [] {
      var r, rest := preempted[0], preempted[1..];
      PushInOrder(heap, Boost(r));
      PushMembers(heap, Boost(r));
      ReadmitInOrder(Push(heap, Boost(r)), rest);
      assert preempted == [r] + rest;
      assert forall q :: Boosted(q, preempted) <==> q == Boost(r) || Boosted(q, rest);
    }
  }

  lemma {:induction false} OthersInOrder(heap: seq<Request>, id: int)
    requires InOrder(heap)
    ensures InOrder(Others(heap, id)) && forall q :: q in Others(heap, id) ==> q in heap
  {
    if heap != [] {
      var rest := heap[1..];
      forall i, j | 0 <= i < j < |rest| ensures NoLater(rest[i], rest[j]) { assert NoLater(heap[i + 1], heap[j + 1]); }
      OthersInOrder(rest, id);
      if heap[0].id != id {
        forall q | q in Others(rest, id) ensures NoLater(heap[0], q) {
          var k :| 0 <= k < |rest| && rest[k] == q;
          assert NoLater(heap[0], heap[k + 1]);
        }
        FirstIsFirst(Others(heap, id), heap[0], Others(rest, id));
      }
    }
  }

  // ---- Who is started ----

  ghost predicate SameKey(r: Request, q: Request) {
    r.id == q.id && r.priority == q.priority && r.arrival == q.arrival
  }

  lemma {:induction false} LoopKeepsRunning(s: Sched, candidates: seq<Request>, needed: int, freed: int)
    ensures forall r :: r in PreemptLoop(s, candidates, needed, freed).0.running ==> r in s.running
    decreases |candidates|
  {
    if candidates != [] && freed < needed {
      if Spared(s, candidates[0]) {
        LoopKeepsRunning(s, candidates[1..], needed, freed);
      } else {
        WithoutMembers(s.running, candidates[0].id);
        LoopKeepsRunning(Preempt(s, candidates[0]), candidates[1..], needed, freed + |candidates[0].blocks|);
      }
    }
  }

  lemma ObtainKeepsRunning(s: Sched, n: nat)
    ensures forall r :: r in Obtain(s, n).0.running ==> r in s.running
  {
    if n > |s.free| && s.cfg.preemption && s.running != [] {
      LoopKeepsRunning(s, VictimOrder(s.running), n, 0);
    }
  }

  // What is left pending is the rest of the queue from some point on, and
  // whoever has joined the running requests stood before that point.
  ghost predicate TakenInFront(s: Sched, d: Sched, k: nat) {
    && k <= |s.pending| && d.pending == s.pending[k..]
    && forall r :: r in d.running ==> r in s.running || exists i :: 0 <= i < k && SameKey(r, s.pending[i])
  }

  lemma {:induction false} AdmitTakesFront(s: Sched) returns (k: nat)
    requires AllPending(s.pending)
    ensures TakenInFront(s, Admit(s), k)
    decreases |s.pending|
  {
    k := 0;
    if s.pending != [] && |s.running| < s.cfg.maxBatch {
      assert s.(pending := SkipStale(s.pending)) == s;
      var n := BlocksFor(s.pending[0], s.cfg.blockSize);
      ObtainKeepsRunning(s, n);
      hide Obtain;
      var (q, blocks) := Obtain(s, n);
      if blocks.Some? {
        StartTakesFirst(q, blocks.value);
        var d := Start(q, blocks.value);
        var m := AdmitTakesFront(d);
        k := m + 1;
        forall r | r in Admit(d).running ensures r in s.running || exists i :: 0 <= i < k && SameKey(r, s.pending[i]) {
          if r !in d.running {
            var i :| 0 <= i < m && SameKey(r, d.pending[i]);
            assert d.pending[i] == s.pending[i + 1];
          } else if r !in q.running {
            assert SameKey(r, s.pending[0]);
          }
        }
      }
    }
  }

  // The queue schedule admits from.
  ghost function Queue(s: Sched): seq<Request> {
    Readmit(s.pending, s.preempted)
  }

  lemma {:induction false} MovedAre(s: Sched, rest: seq<Request>)
    ensures var d := MoveFinished(s, rest);
      && (forall r :: r in d.running ==> r in s.running || r in rest)
      && d == s.(free := d.free, running := d.running, finished := d.finished)
    decreases |rest|
  {
    if rest != [] {
      var r := rest[0];
      assert rest == [r] + rest[1..];
      MovedAre(if IsFinished(r)
               then s.(free := ReturnBlocks(s.free, r.blocks), finished := s.finished + [r.(status := FINISHED)])
               else s.(running := s.running + [r]), rest[1..]);
    }
  }

  lemma ScheduleTakesFront(s: Sched) returns (k: nat)
    requires AllPending(s.pending)
    ensures var d := Schedule(s);
      && k <= |Queue(s)| && d.pending == Queue(s)[k..]
      && forall r :: r in d.running ==> r in s.running || exists i :: 0 <= i < k && SameKey(r, Queue(s)[i])
  {
    var start := s.(step := s.step + 1, running := []);
    MovedAre(start, s.running);
    var moved := MoveFinished(start, s.running);
    ReadmitPending(s.pending, s.preempted);
    hide Admit, MoveFinished, Readmit;
    k := AdmitTakesFront(moved.(pending := Readmit(moved.pending, moved.preempted), preempted := []));
  }

  // Whoever schedule starts is no later in the order than anyone it leaves
  // waiting: of the requests that wait, the most urgent are started.
  lemma MostUrgentFirst(s: Sched, r: Request, q: Request)
    requires AllPending(s.pending) && InOrder(s.pending)
    requires r in Schedule(s).running && r !in s.running && q in Schedule(s).pending
    ensures !Lex(q.priority, q.arrival, q.id, r.priority, r.arrival, r.id)
  {
    hide Schedule;
    ReadmitInOrder(s.pending, s.preempted);
    var k := ScheduleTakesFront(s);
    var i :| 0 <= i < k && SameKey(r, Queue(s)[i]);
    var j :| 0 <= j < |Schedule(s).pending| && Schedule(s).pending[j] == q;
    assert NoLater(Queue(s)[i], Queue(s)[k + j]);
  }

  // ---- Every reachable state ----

  lemma StepInOrder(s: Sched, e: Event)
    requires AllPending(s.pending) && InOrder(s.pending)
    ensures InOrder(Apply(s, e).pending)
  {
    match e
    case Arrive(prompt, maxNew, priority, eos, stops) =>
      var r := Request(s.nextId, prompt, maxNew, eos, stops, PENDING, [], [], 0, priority, 0, s.step, None);
      PushInOrder(s.pending, r);
    case Reschedule =>
      ReadmitInOrder(s.pending, s.preempted);
      hide Schedule;
      var k := ScheduleTakesFront(s);
      var d := Schedule(s);
      forall i, j | 0 <= i < j < |d.pending| ensures NoLater(d.pending[i], d.pending[j]) {
        assert NoLater(Queue(s)[k + i], Queue(s)[k + j]);
      }
    case Answer(tokens) => UpdatePending(s, 0, tokens);
    case Withdraw(id) => OthersInOrder(s.pending, id);
  }

  lemma {:induction false} UpdatePending(s: Sched, i: nat, tokens: map<int, int>)
    ensures UpdateLoop(s, i, tokens).pending == s.pending
    decreases |s.running| - i
  {
    if i < |s.running| {
      if s.running[i].id !in tokens {
        UpdatePending(s, i + 1, tokens);
      } else {
        DeliverShrinks(s, i, tokens[s.running[i].id]);
        UpdatePending(Deliver(s, i, tokens[s.running[i].id]), i + 1, tokens);
      }
    }
  }

  lemma {:induction false} RunInOrder(s: Sched, es: seq<Event>)
    requires Good(s) && Runs(s, es) && InOrder(s.pending)
    ensures Good(Final(s, es)) && InOrder(Final(s, es).pending)
    decreases |es|
  {
    if es != [] {
      StepGood(s, es[0]);
      StepInOrder(s, es[0]);
      hide Good, InOrder, Apply, Allowed;
      RunInOrder(Apply(s, es[0]), es[1..]);
    }
  }

  // In every reachable state the pending requests ascend in priority, then
  // arrival, then id, and what schedule then starts comes off the front.
  lemma PendingAscends(cfg: Settings, es: seq<Event>, i: nat, j: nat)
    requires Runs(Init(cfg), es) && i < j < |Final(Init(cfg), es).pending|
    ensures var s := Final(Init(cfg), es); var r, q := s.pending[i], s.pending[j];
      Lex(r.priority, r.arrival, r.id, q.priority, q.arrival, q.id)
  {
    InitGood(cfg);
    RunInOrder(Init(cfg), es);
    var s := Final(Init(cfg), es);
    hide Final, Runs;
    assert NoLater(s.pending[i], s.pending[j]);
    assert Places(s, s.pending[i].id) <= 1;
    if s.pending[i].id == s.pending[j].id { TwicePending(s.pending, i, j); }
  }

  lemma {:induction false} TwicePending(list: seq<Request>, i: nat, j: nat)
    requires i < j < |list| && list[i].id == list[j].id
    ensures Count(list, Id, list[i].id) >= 2
  {
    if i > 0 {
      TwicePending(list[1..], i - 1, j - 1);
    } else {
      assert list[1..][j - 1] == list[j];
      CountMember(list[1..], list[j], Id, list[j].id);
    }
  }

  lemma UrgentAreStarted(cfg: Settings, es: seq<Event>, r: Request, q: Request)
    requires Runs(Init(cfg), es)
    requires var s := Final(Init(cfg), es);
      r in Schedule(s).running && r !in s.running && q in Schedule(s).pending
    ensures !Lex(q.priority, q.arrival, q.id, r.priority, r.arrival, r.id)
  {
    InitGood(cfg);
    RunInOrder(Init(cfg), es);
    hide Schedule, Final, Runs;
    MostUrgentFirst(Final(Init(cfg), es), r, q);
  }
}
