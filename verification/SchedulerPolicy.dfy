// What happens to whom: the urgency of readmitted requests, who is preempted,
// who is finished, and when admission stops.
module SchedulerPolicy {
  import opened Prelude
  import opened SchedulerSpec
  import opened SchedulerInv
  import opened SchedulerRun
  import opened SchedulerOrder

  // ---- Arrivals and returns ----

  // A request waits under the priority it came with and the step it came in.
  lemma ArrivalWaits(s: Sched, prompt: seq<int>, maxNew: int, priority: int, eos: int, stops: seq<int>, r: Request)
    ensures r in Add(s, prompt, maxNew, priority, eos, stops).pending <==>
      || r in s.pending
      || (r.id == s.nextId && r.prompt == prompt && r.maxNew == maxNew && r.priority == priority && r.arrival == s.step
          && r.eos == eos && r.stops == stops && r.status == PENDING && r.output == [] && r.blocks == [] && r.pos == 0
          && r.progress == 0 && r.saved == None)
  {
    PushMembers(s.pending,
                Request(s.nextId, prompt, maxNew, eos, stops, PENDING, [], [], 0, priority, 0, s.step, None));
  }

  lemma QueuedOnce(s: Sched, r: Request, q: Request)
    requires Lawful(s) && r in s.preempted && q.id == r.id
    ensures q !in s.running && q !in s.pending
  {
    CountMember(s.preempted, r, Id, r.id);
    if q in s.running { CountMember(s.running, q, Id, r.id); }
    if q in s.pending { CountMember(s.pending, q, Id, r.id); }
    assert Places(s, r.id) <= 1;
  }

  // A preempted request comes back at priority -1, or what it had if that is
  // more urgent, whether it is started again at once or waits.
  lemma PreemptedComesBackUrgent(s: Sched, r: Request, q: Request)
    requires Lawful(s) && AllPending(s.pending) && InOrder(s.pending) && r in s.preempted && q.id == r.id
    requires q in Schedule(s).pending || q in Schedule(s).running
    ensures q.priority == (if r.priority < -1 then r.priority else -1) && q.arrival == r.arrival
  {
    hide Schedule, Lawful;
    ReadmitInOrder(s.pending, s.preempted);
    var k := ScheduleTakesFront(s);
    var x: Request;
    if q in Schedule(s).pending {
      var j :| 0 <= j < |Schedule(s).pending| && Schedule(s).pending[j] == q;
      x := Queue(s)[k + j];
    } else {
      QueuedOnce(s, r, q);
      var i :| 0 <= i < k && SameKey(q, Queue(s)[i]);
      x := Queue(s)[i];
    }
    assert x in Queue(s);
    QueuedOnce(s, r, x);
    var y :| y in s.preempted && x == Boost(y);
    assert Places(s, r.id) <= 1 by { LawfulOnce(s, r.id); }
    OnlyOne(s.preempted, r, y);
  }

  lemma LawfulOnce(s: Sched, id: int)
    requires Lawful(s)
    ensures Places(s, id) <= 1
  {
  }

  // ---- Who is preempted ----

  // Where a request stands among the running ones.
  function Place(list: seq<Request>, id: int): nat {
    if list == [] || list[0].id == id then 0 else 1 + Place(list[1..], id)
  }

  // The first request goes before the second: it is less important, or as
  // important with more blocks, or it has run for longer otherwise.
  predicate GoesFirst(running: seq<Request>, v: Request, u: Request) {
    || v.priority > u.priority
    || (v.priority == u.priority
        && (|v.blocks| > |u.blocks| || (|v.blocks| == |u.blocks| && Place(running, v.id) <= Place(running, u.id))))
  }

  ghost predicate InVictimOrder(running: seq<Request>, list: seq<Request>) {
    forall i, j :: 0 <= i < j < |list| ==> GoesFirst(running, list[i], list[j])
  }

  lemma {:induction false} InsertMembers(list: seq<Request>, r: Request)
    ensures forall q :: q in Insert(list, r) <==> q in list || q == r
  {
    if list != [] && !Likelier(r, list[0]) {
      InsertMembers(list[1..], r);
      assert list == [list[0]] + list[1..];
    }
  }

  lemma ConsInOrder(running: seq<Request>, list: seq<Request>, v: Request, rest: seq<Request>)
    requires InVictimOrder(running, rest) && list == [v] + rest && forall u :: u in rest ==> GoesFirst(running, v, u)
    ensures InVictimOrder(running, list)
  {
    forall i, j | 0 <= i < j < |list| ensures GoesFirst(running, list[i], list[j]) {
      assert list[j] == rest[j - 1];
      if i > 0 { assert list[i] == rest[i - 1]; }
    }
  }

  lemma {:induction false} InsertInOrder(running: seq<Request>, list: seq<Request>, r: Request)
    requires InVictimOrder(running, list) && forall v :: v in list ==> Place(running, v.id) <= Place(running, r.id)
    ensures InVictimOrder(running, Insert(list, r))
  {
    hide Place;
    if list == [] || Likelier(r, list[0]) {
      forall u | u in list ensures GoesFirst(running, r, u) {
        var k :| 0 <= k < |list| && list[k] == u;
        if k > 0 { assert GoesFirst(running, list[0], list[k]); }
      }
      ConsInOrder(running, [r] + list, r, list);
    } else {
      var rest := list[1..];
      forall i, j | 0 <= i < j < |rest| ensures GoesFirst(running, rest[i], rest[j]) {
        assert GoesFirst(running, list[i + 1], list[j + 1]);
      }
      InsertInOrder(running, rest, r);
      InsertMembers(rest, r);
      forall u | u in Insert(rest, r) ensures GoesFirst(running, list[0], u) {
        if u in rest {
          var k :| 0 <= k < |rest| && rest[k] == u;
          assert GoesFirst(running, list[0], list[k + 1]);
        }
      }
      ConsInOrder(running, Insert(list, r), list[0], Insert(rest, r));
    }
  }

  lemma {:induction false} PlaceIs(list: seq<Request>, i: nat)
    requires i < |list|
    ensures Place(list, list[i].id) <= i
    ensures (forall j :: 0 <= j < i ==> list[j].id != list[i].id) ==> Place(list, list[i].id) == i
  {
    if i > 0 { PlaceIs(list[1..], i - 1); }
  }

  ghost predicate AllDiffer(list: seq<Request>) {
    forall i, j :: 0 <= i < j < |list| ==> list[i].id != list[j].id
  }

  lemma {:induction false} VictimsInOrder(running: seq<Request>, n: nat)
    requires n <= |running| && AllDiffer(running)
    ensures InVictimOrder(running, VictimOrder(running[..n]))
    ensures forall v :: v in VictimOrder(running[..n]) <==> v in running[..n]
  {
    hide Place, Insert, GoesFirst, VictimOrder, InVictimOrder;
    if n > 0 {
      VictimsInOrder(running, n - 1);
      VictimsUnfold(running, n);
      PlacesAscend(running, n);
      InsertInOrder(running, VictimOrder(running[..n - 1]), running[n - 1]);
      InsertMembers(VictimOrder(running[..n - 1]), running[n - 1]);
      assert running[..n] == running[..n - 1] + [running[n - 1]];
    } else {
      NoVictims(running);
    }
  }

  lemma NoVictims(running: seq<Request>)
    ensures VictimOrder(running[..0]) == [] && InVictimOrder(running, [])
  {
  }

  lemma VictimsUnfold(running: seq<Request>, n: nat)
    requires 0 < n <= |running|
    ensures VictimOrder(running[..n]) == Insert(VictimOrder(running[..n - 1]), running[n - 1])
  {
    assert running[..n][..n - 1] == running[..n - 1];
  }

  lemma PlacesAscend(running: seq<Request>, n: nat)
    requires 0 < n <= |running| && AllDiffer(running)
    ensures forall v :: v in running[..n - 1] ==> Place(running, v.id) <= Place(running, running[n - 1].id)
  {
    hide Place;
    PlaceIs(running, n - 1);
    forall v | v in running[..n - 1] ensures Place(running, v.id) <= Place(running, running[n - 1].id) {
      var i :| 0 <= i < n - 1 && running[i] == v;
      PlaceIs(running, i);
    }
  }

  lemma RunningDiffer(s: Sched)
    requires Lawful(s)
    ensures AllDiffer(s.running)
  {
    forall i, j | 0 <= i < j < |s.running| ensures s.running[i].id != s.running[j].id {
      LawfulOnce(s, s.running[i].id);
      if s.running[i].id == s.running[j].id { TwicePending(s.running, i, j); }
    }
  }

  // What is ahead of an earlier request is ahead of a later one, and so is
  // the earlier one itself.
  lemma {:induction false} AheadOf(s: Sched, list: seq<Request>, v: Request, u: Request)
    requires v in list && u in list && Weight(s, Ahead(list, v.id)) < Weight(s, Ahead(list, u.id))
    ensures exists i, j :: 0 <= i < j < |list| && list[i].id == v.id && list[j].id == u.id
  {
    if list[0].id == v.id {
      var j :| 0 <= j < |list| && list[j] == u;
      assert j > 0;
    } else if list[0].id != u.id {
      assert v in list[1..] && u in list[1..];
      assert Ahead(list, v.id)[1..] == Ahead(list[1..], v.id) && Ahead(list, u.id)[1..] == Ahead(list[1..], u.id);
      AheadOf(s, list[1..], v, u);
      var i, j :| 0 <= i < j < |list[1..]| && list[1..][i].id == v.id && list[1..][j].id == u.id;
      assert list[i + 1].id == v.id && list[j + 1].id == u.id;
    }
  }

  // A running request is preempted exactly when those that go before it do
  // not free enough - however urgent it is, as long as anybody waits.
  lemma PreemptedIff(s: Sched, needed: int, r: Request)
    requires Lawful(s) && needed > 0 && r in s.running
    ensures Count(TryPreempt(s, needed).0.running, Id, r.id) == 0 <==>
      && s.cfg.preemption && (r.priority > 0 || s.pending != [])
      && Weight(s, Ahead(VictimOrder(s.running), r.id)) < needed
  {
    TryPreemptKeeps(s, needed);
    RunningAreCandidates(s);
    assert r in multiset(VictimOrder(s.running));
    CountMember(s.running, r, Id, r.id);
    hide Lawful, Weight, Ahead, PreemptLoop, Victims, VictimOrder;
    if s.cfg.preemption && s.running != [] {
      var order := VictimOrder(s.running);
      assert Count(order, Id, r.id) <= 1;
      VictimIff(s, order, r, needed, 0);
    }
  }

  // Preemption goes from the least important running request up: nobody who
  // may be preempted stays while someone who should stay rather goes.
  lemma LeastImportantGoFirst(s: Sched, needed: int, v: Request, u: Request)
    requires Lawful(s) && needed > 0 && v in s.running && u in s.running
    requires var q := TryPreempt(s, needed).0; Count(q.running, Id, v.id) == 0 && Count(q.running, Id, u.id) > 0
    requires u.priority > 0 || s.pending != []
    ensures || v.priority > u.priority
            || (v.priority == u.priority
                && (|v.blocks| > |u.blocks|
                    || (|v.blocks| == |u.blocks| && Place(s.running, v.id) <= Place(s.running, u.id))))
  {
    hide Lawful, Weight, Ahead, VictimOrder, Place, TryPreempt, GoesFirst, InVictimOrder;
    PreemptedIff(s, needed, v);
    PreemptedIff(s, needed, u);
    RunningDiffer(s);
    VictimsInOrder(s.running, |s.running|);
    assert s.running[..|s.running|] == s.running;
    AheadOf(s, VictimOrder(s.running), v, u);
    OrderSays(s.running, VictimOrder(s.running), v, u);
    GoesFirstIs(s.running, v, u);
  }

  lemma GoesFirstIs(running: seq<Request>, v: Request, u: Request)
    requires GoesFirst(running, v, u)
    ensures || v.priority > u.priority
            || (v.priority == u.priority
                && (|v.blocks| > |u.blocks|
                    || (|v.blocks| == |u.blocks| && Place(running, v.id) <= Place(running, u.id))))
  {
  }

  lemma OrderSays(running: seq<Request>, order: seq<Request>, v: Request, u: Request)
    requires AllDiffer(running) && InVictimOrder(running, order) && v in running && u in running
    requires forall r :: r in order ==> r in running
    requires exists i, j :: 0 <= i < j < |order| && order[i].id == v.id && order[j].id == u.id
    ensures GoesFirst(running, v, u)
  {
    hide GoesFirst, Place;
    var i, j :| 0 <= i < j < |order| && order[i].id == v.id && order[j].id == u.id;
    SameById(running, order[i], v);
    SameById(running, order[j], u);
    assert GoesFirst(running, order[i], order[j]);
  }

  lemma IndexById(list: seq<Request>, i: nat, j: nat)
    requires AllDiffer(list) && i < |list| && j < |list| && list[i].id == list[j].id
    ensures i == j
  {
  }

  lemma SameById(list: seq<Request>, r: Request, q: Request)
    requires AllDiffer(list) && r in list && q in list && r.id == q.id
    ensures r == q
  {
  }

  // Preemption stops as soon as enough blocks came free.
  lemma {:induction false} StopsAtEnough(s: Sched, candidates: seq<Request>, needed: int, freed: int)
    requires freed < needed
    ensures var f := PreemptLoop(s, candidates, needed, freed).1;
      f == freed || exists v :: v in candidates && f - |v.blocks| < needed
    decreases |candidates|
  {
    if candidates != [] {
      var v := candidates[0];
      assert candidates == [v] + candidates[1..];
      if Spared(s, v) {
        StopsAtEnough(s, candidates[1..], needed, freed);
      } else if freed + |v.blocks| < needed {
        StopsAtEnough(Preempt(s, v), candidates[1..], needed, freed + |v.blocks|);
        var f := PreemptLoop(s, candidates, needed, freed).1;
        if f == freed + |v.blocks| { assert f - |v.blocks| < needed; }
      }
    }
  }

  // ---- Who is finished ----

  // Its output is as long as was asked for, or ends with a stop token, or it
  // was stopped for want of blocks.
  predicate Done(r: Request) {
    || r.status == FINISHED
    || |r.output| >= r.maxNew
    || exists k :: 0 <= k < |r.output| && k == |r.output| - 1 && (r.output[k] == r.eos || r.output[k] in r.stops)
  }

  lemma {:induction false} MovedExactly(s: Sched, rest: seq<Request>, id: int)
    ensures var d := MoveFinished(s, rest);
      && (forall r :: r in rest && !Done(r) ==> r in d.running)
      && (forall r :: r in rest && Done(r) ==> r.(status := FINISHED) in d.finished)
      && (forall r :: r in s.running ==> r in d.running) && (forall r :: r in s.finished ==> r in d.finished)
      && (forall r :: r in d.running ==> r in s.running || (r in rest && !Done(r)))
    decreases |rest|
  {
    if rest != [] {
      var r := rest[0];
      assert rest == [r] + rest[1..];
      assert IsFinished(r) <==> Done(r) by {
        if r.output != [] { assert r.output[|r.output| - 1] == r.output[|r.output| - 1]; }
      }
      MovedExactly(if IsFinished(r)
                   then s.(free := ReturnBlocks(s.free, r.blocks), finished := s.finished + [r.(status := FINISHED)])
                   else s.(running := s.running + [r]), rest[1..], id);
    }
  }

  lemma {:induction false} AdmitKeepsFinished(s: Sched)
    ensures Admit(s).finished == s.finished
    decreases |s.pending|
  {
    if s.pending != [] && |s.running| < s.cfg.maxBatch {
      var p := s.(pending := SkipStale(s.pending));
      if p.pending != [] {
        var n := BlocksFor(p.pending[0], p.cfg.blockSize);
        ObtainKeepsFinished(p, n);
        var (q, blocks) := Obtain(p, n);
        if blocks.Some? { AdmitKeepsFinished(Start(q, blocks.value)); }
      }
    }
  }

  lemma ObtainKeepsFinished(s: Sched, n: nat)
    ensures Obtain(s, n).0.finished == s.finished
  {
    if n > |s.free| && s.cfg.preemption && s.running != [] { LoopKeepsFinished(s, VictimOrder(s.running), n, 0); }
  }

  lemma {:induction false} LoopKeepsFinished(s: Sched, candidates: seq<Request>, needed: int, freed: int)
    ensures PreemptLoop(s, candidates, needed, freed).0.finished == s.finished
    decreases |candidates|
  {
    if candidates != [] && freed < needed {
      LoopKeepsFinished(s, candidates[1..], needed, freed);
      LoopKeepsFinished(Preempt(s, candidates[0]), candidates[1..], needed, freed + |candidates[0].blocks|);
    }
  }

  // Schedule finishes exactly the running requests that are done.
  lemma FinishedIff(s: Sched, r: Request)
    requires Lawful(s) && Conserved(s) && AllPending(s.pending) && r in s.running
    ensures Count(Schedule(s).finished, Id, r.id) > 0 <==> Done(r)
  {
    hide MoveFinished, Admit, Done, Lawful, Conserved, Clean, Readmit;
    ConservedIsClean(s);
    FinishedMoved(s);
    var moved := MoveFinished(s.(step := s.step + 1, running := []), s.running);
    MovedExactly(s.(step := s.step + 1, running := []), s.running, r.id);
    AdmitKeepsFinished(moved.(pending := Readmit(moved.pending, moved.preempted), preempted := []));
    LawfulOnce(moved, r.id);
    if Done(r) {
      CountMember(moved.finished, r.(status := FINISHED), Id, r.id);
    } else {
      CountMember(moved.running, r, Id, r.id);
    }
  }

  // What a waiting request is when it runs again.
  function Awake(x: Request): Request {
    Resume(x.(status := RUNNING))
  }

  // Of those that run after schedule only one that was done while it waited
  // is done: nothing checks a preempted request before it runs again.
  lemma DoneRunsIff(s: Sched, r: Request)
    requires Lawful(s) && Conserved(s) && AllPending(s.pending) && r in Schedule(s).running
    ensures Done(r) <==>
      exists x :: (x in s.pending || x in s.preempted) && x.id == r.id && Done(Awake(x))
  {
    hide MoveFinished, Admit, Lawful, Clean, Conserved, Done, Awake, Readmit;
    GatheredIs(s);
    ConservedIsClean(s);
    FinishedMoved(s);
    var q := Gathered(s);
    MovedExactly(s.(step := s.step + 1, running := []), s.running, r.id);
    AdmitWakes(q, r);
    if r in q.running {
      forall x: Request | x.id == r.id ensures x !in s.pending && x !in s.preempted { RunsAndWaits(s, r, x); }
    } else {
      var x :| x in q.pending && x.id == r.id && (Done(r) <==> Done(Awake(x)));
      WokenFrom(s, x);
      if exists y :: (y in s.pending || y in s.preempted) && y.id == r.id && Done(Awake(y)) {
        var y :| (y in s.pending || y in s.preempted) && y.id == r.id && Done(Awake(y));
        WaitsOnce(s, x, y);
      }
    }
  }

  lemma RunsAndWaits(s: Sched, r: Request, x: Request)
    requires Lawful(s) && r in s.running && x.id == r.id
    ensures x !in s.pending && x !in s.preempted
  {
    LawfulOnce(s, r.id);
    hide Lawful;
    CountMember(s.running, r, Id, r.id);
    if x in s.pending { CountMember(s.pending, x, Id, r.id); }
    if x in s.preempted { CountMember(s.preempted, x, Id, r.id); }
  }

  // A request of the queue, back to where it waited.
  ghost predicate From(s: Sched, x: Request, y: Request) {
    (y in s.pending && x == y) || (y in s.preempted && x == Boost(y))
  }

  lemma {:induction false} ReadmitMembers(heap: seq<Request>, preempted: seq<Request>)
    ensures forall q :: q in Readmit(heap, preempted) <==> q in heap || Boosted(q, preempted)
    decreases |preempted|
  {
    if preempted != [] {
      var r, rest := preempted[0], preempted[1..];
      PushMembers(heap, Boost(r));
      ReadmitMembers(Push(heap, Boost(r)), rest);
      assert preempted == [r] + rest;
      assert forall q :: Boosted(q, preempted) <==> q == Boost(r) || Boosted(q, rest);
    }
  }

  lemma WokenFrom(s: Sched, x: Request)
    requires x in Queue(s)
    ensures exists y :: From(s, x, y)
    ensures Done(Awake(x)) ==> exists y :: (y in s.pending || y in s.preempted) && y.id == x.id && Done(Awake(y))
  {
    ReadmitMembers(s.pending, s.preempted);
    if x in s.pending {
      assert From(s, x, x);
    } else {
      var y :| y in s.preempted && x == Boost(y);
      assert From(s, x, y) && Awake(x) == Awake(y).(priority := x.priority);
    }
  }

  lemma WaitsOnce(s: Sched, x: Request, y: Request)
    requires Lawful(s) && x in Queue(s) && (y in s.pending || y in s.preempted) && y.id == x.id
    ensures Done(Awake(x)) <==> Done(Awake(y))
  {
    ReadmitMembers(s.pending, s.preempted);
    LawfulOnce(s, x.id);
    var z: Request := x;
    if x !in s.pending {
      z :| z in s.preempted && x == Boost(z);
      assert Awake(x) == Awake(z).(priority := x.priority);
    }
    hide Lawful, Done;
    if z in s.pending {
      CountMember(s.pending, z, Id, z.id);
    } else {
      CountMember(s.preempted, z, Id, z.id);
    }
    if y in s.pending {
      CountMember(s.pending, y, Id, z.id);
    } else {
      CountMember(s.preempted, y, Id, z.id);
    }
    if y in s.pending && z in s.pending {
      OnlyOne(s.pending, y, z);
    } else {
      OnlyOne(s.preempted, y, z);
    }
  }

  lemma {:induction false} AdmitWakes(s: Sched, r: Request)
    requires AllPending(s.pending) && r in Admit(s).running
    ensures r in s.running || exists x :: x in s.pending && x.id == r.id && (Done(r) <==> Done(Awake(x)))
    decreases |s.pending|
  {
    if s.pending != [] && |s.running| < s.cfg.maxBatch {
      assert s.(pending := SkipStale(s.pending)) == s;
      var n := BlocksFor(s.pending[0], s.cfg.blockSize);
      ObtainKeepsRunning(s, n);
      hide Obtain;
      var (q, blocks) := Obtain(s, n);
      if blocks.Some? {
        StartTakesFirst(q, blocks.value);
        AdmitWakes(Start(q, blocks.value), r);
        var x := s.pending[0];
        assert x in s.pending;
        if r == Resume(x.(blocks := blocks.value, status := RUNNING)) {
          assert r == Awake(x).(blocks := blocks.value);
          assert Done(r) <==> Done(Awake(x));
        }
      }
    }
  }

  // ---- When admission stops ----

  lemma {:induction false} AheadWeighsLess(s: Sched, list: seq<Request>, id: int)
    ensures Weight(s, Ahead(list, id)) <= Weight(s, list)
  {
    if list != [] && list[0].id != id {
      AheadWeighsLess(s, list[1..], id);
      assert Ahead(list, id)[1..] == Ahead(list[1..], id);
    }
  }

  // With somebody waiting, preemption that does not free enough has
  // preempted everybody.
  lemma FailedTakesAll(s: Sched, needed: int)
    requires Lawful(s) && needed > 0 && s.cfg.preemption && s.pending != [] && !TryPreempt(s, needed).1
    ensures TryPreempt(s, needed).0.running == []
  {
    var q := TryPreempt(s, needed).0;
    if s.running != [] {
      LoopFrees(s, s, VictimOrder(s.running), needed, 0);
      LoopKeepsRunning(s, VictimOrder(s.running), needed, 0);
      hide PreemptLoop, VictimOrder, Weight, Lawful, TryPreempt;
      if q.running != [] {
        var r := q.running[0];
        assert r in q.running && r in s.running;
        PreemptedIff(s, needed, r);
        AheadWeighsLess(s, VictimOrder(s.running), r.id);
        CountMember(q.running, r, Id, r.id);
      }
    }
  }

  lemma {:induction false} AdmissionEnds(s: Sched)
    requires Lawful(s) && Clean(s) && AllPending(s.pending)
    ensures var d := Admit(s);
      || d.pending == [] || |d.running| >= s.cfg.maxBatch
      || (if s.cfg.preemption then d.running == []
          else BlocksFor(d.pending[0], s.cfg.blockSize) > |d.free|)
    decreases |s.pending|
  {
    if s.pending != [] && |s.running| < s.cfg.maxBatch {
      assert s.(pending := SkipStale(s.pending)) == s;
      var n := BlocksFor(s.pending[0], s.cfg.blockSize);
      ObtainKeeps(s, n);
      var (q, blocks) := Obtain(s, n);
      if blocks.Some? {
        hide Lawful, Clean, Obtain, Evicted;
        StartKeeps(s, n, q, blocks.value);
        StartTakesFirst(q, blocks.value);
        AdmissionEnds(Start(q, blocks.value));
      } else if s.cfg.preemption {
        assert Admit(s) == q && n > |s.free|;
        GrantsWhenFreed(s, n);
        FailedTakesAll(s, n);
      }
    }
  }

  lemma GrantsWhenFreed(s: Sched, n: nat)
    requires Lawful(s) && n > |s.free| && Obtain(s, n).1.None?
    ensures !TryPreempt(s, n).1 && Obtain(s, n).0 == TryPreempt(s, n).0
  {
    TryPreemptKeeps(s, n);
  }

  lemma OversizedAdmitsNobody(s: Sched)
    requires Lawful(s) && AllPending(s.pending) && s.cfg.preemption && s.pending != [] && |s.running| < s.cfg.maxBatch
    requires BlocksFor(s.pending[0], s.cfg.blockSize) > s.cfg.maxBlocks
    ensures Admit(s).running == [] && Admit(s).pending == s.pending
  {
    hide Lawful, Obtain, TryPreempt;
    var n := BlocksFor(s.pending[0], s.cfg.blockSize);
    assert s.(pending := SkipStale(s.pending)) == s;
    TooFewBlocks(s, n);
    GrantsWhenFreed(s, n);
    FailedTakesAll(s, n);
    PreemptPending(s, n);
  }

  // The requests of the queue and those that are still running, before
  // anybody is admitted.
  ghost function Gathered(s: Sched): Sched {
    var moved := MoveFinished(s.(step := s.step + 1, running := []), s.running);
    moved.(pending := Queue(s), preempted := [])
  }

  lemma GatheredIs(s: Sched)
    requires Lawful(s) && Conserved(s) && AllPending(s.pending)
    ensures var q := Gathered(s);
      && Schedule(s) == Admit(q) && Lawful(q) && Clean(q) && AllPending(q.pending) && q.cfg == s.cfg
      && q.pending == Queue(s) && |q.running| <= |s.running|
  {
    hide MoveFinished, Lawful, Clean, Readmit, Admit, Conserved;
    var start := s.(step := s.step + 1, running := []);
    ConservedIsClean(s);
    FinishedMoved(s);
    ReadmitKeeps(MoveFinished(start, s.running));
    ReadmitPending(s.pending, s.preempted);
    MovedFewer(start, s.running);
  }

  // After schedule nobody waits, the batch is full, or the next one cannot
  // have its blocks; and then, with preemption, nobody runs at all.
  lemma ScheduleStops(s: Sched)
    requires Lawful(s) && Conserved(s) && AllPending(s.pending)
    ensures var d := Schedule(s);
      || d.pending == [] || |d.running| >= s.cfg.maxBatch
      || (if s.cfg.preemption then d.running == []
          else BlocksFor(d.pending[0], s.cfg.blockSize) > |d.free|)
  {
    hide Lawful, Clean, Admit, Conserved, Gathered, Schedule;
    GatheredIs(s);
    AdmissionEnds(Gathered(s));
  }

  // A most urgent request that needs more blocks than there are: with
  // preemption nobody runs after schedule, whoever else waits or ran.
  lemma OversizedStopsAll(s: Sched)
    requires Lawful(s) && Conserved(s) && AllPending(s.pending) && s.cfg.preemption && s.cfg.maxBatch > |s.running|
    requires Queue(s) != [] && BlocksFor(Queue(s)[0], s.cfg.blockSize) > s.cfg.maxBlocks
    ensures Schedule(s).running == [] && Schedule(s).pending == Queue(s)
  {
    hide Lawful, Clean, Admit, Conserved, Gathered, Schedule, Queue;
    GatheredIs(s);
    OversizedAdmitsNobody(Gathered(s));
  }

  lemma {:induction false} MovedFewer(s: Sched, rest: seq<Request>)
    ensures |MoveFinished(s, rest).running| <= |s.running| + |rest|
    decreases |rest|
  {
    if rest != [] {
      var r := rest[0];
      MovedFewer(if IsFinished(r)
                 then s.(free := ReturnBlocks(s.free, r.blocks), finished := s.finished + [r.(status := FINISHED)])
                 else s.(running := s.running + [r]), rest[1..]);
    }
  }

  lemma DropOne(ids: seq<int>, i: nat, b: int)
    requires i < |ids|
    ensures multiset(ids)[b] == multiset(ids[..i] + ids[i + 1..])[b] + if ids[i] == b then 1 else 0
  {
    assert ids == ids[..i] + [ids[i]] + ids[i + 1..];
  }

  lemma {:induction false} FewIds(ids: seq<int>, n: nat)
    requires forall b :: multiset(ids)[b] <= Once(n, b)
    ensures |ids| <= n
  {
    if n == 0 {
      assert ids != [] ==> multiset(ids)[ids[0]] > 0;
    } else if n - 1 in ids {
      var i :| 0 <= i < |ids| && ids[i] == n - 1;
      var rest := ids[..i] + ids[i + 1..];
      forall b ensures multiset(rest)[b] <= Once(n - 1, b) { DropOne(ids, i, b); }
      FewIds(rest, n - 1);
    } else {
      forall b ensures multiset(ids)[b] <= Once(n - 1, b) {
        assert multiset(ids)[b] <= Once(n, b);
        if b == n - 1 { assert b !in multiset(ids); }
      }
      FewIds(ids, n - 1);
    }
  }

  lemma FreeIsBounded(s: Sched)
    requires Lawful(s)
    ensures |s.free| <= s.cfg.maxBlocks
  {
    forall b ensures multiset(s.free)[b] <= Once(s.cfg.maxBlocks, b) {
      assert Everywhere(s, b) == Once(s.cfg.maxBlocks, b);
    }
    FewIds(s.free, s.cfg.maxBlocks);
  }

  lemma TooFewBlocks(s: Sched, n: nat)
    requires Lawful(s) && n > s.cfg.maxBlocks
    ensures n > |s.free| && Obtain(s, n).1.None?
  {
    FreeIsBounded(s);
    TryPreemptKeeps(s, n);
    hide Lawful;
    FreeIsBounded(TryPreempt(s, n).0);
  }
}
