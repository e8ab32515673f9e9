// Runs of the scheduler: conservation in every reachable state, preemption
// that forgets nothing, and the positions a request is fed.
module SchedulerRun {
  import opened Prelude
  import opened SchedulerSpec
  import opened SchedulerInv

  // ---- Preempting and readmitting restores a request ----

  ghost function Present(s: Sched, w: What, id: int): nat {
    Count(s.pending, w, id) + Count(s.running, w, id) + Count(s.preempted, w, id) + Count(s.finished, w, id)
  }

  // A running request has nothing left to restore.
  ghost predicate Settled(s: Sched) {
    forall i :: 0 <= i < |s.running| ==> s.running[i].saved.None?
  }

  ghost predicate Remembers(s: Sched, q: Sched, id: int) {
    forall m: Past :: Present(q, Memo(m), id) == Present(s, Memo(m), id)
  }

  lemma RemembersTwice(s: Sched, p: Sched, q: Sched, id: int)
    requires Remembers(s, p, id) && Remembers(p, q, id)
    ensures Remembers(s, q, id)
  {
    forall m: Past ensures Present(q, Memo(m), id) == Present(s, Memo(m), id) {
      assert Present(p, Memo(m), id) == Present(s, Memo(m), id);
    }
  }

  lemma {:induction false} WithoutMembers(list: seq<Request>, id: int)
    ensures forall q :: q in WithoutId(list, id) ==> q in list
  {
    if list != [] { WithoutMembers(list[1..], id); }
  }

  lemma PreemptRemembers(s: Sched, v: Request, id: int)
    requires Lawful(s) && Settled(s) && v in s.running
    ensures Settled(Preempt(s, v)) && Remembers(s, Preempt(s, v), id)
  {
    CountMember(s.running, v, Id, v.id);
    assert Places(s, v.id) <= 1;
    WithoutMembers(s.running, v.id);
    var q := Preempt(s, v);
    forall i | 0 <= i < |q.running| ensures q.running[i].saved.None? { assert q.running[i] in s.running; }
    forall m: Past ensures Present(q, Memo(m), id) == Present(s, Memo(m), id) {
      CountWithout(s.running, v, Memo(m), id);
      CountOne(s.preempted, Stash(v), Memo(m), id);
    }
  }

  lemma RemembersItself(s: Sched, id: int)
    ensures Remembers(s, s, id)
  {
  }

  lemma {:induction false} LoopRemembers(s: Sched, candidates: seq<Request>, needed: int, freed: int, id: int)
    requires Lawful(s) && Settled(s) && Candidates(s, candidates)
    ensures var q := PreemptLoop(s, candidates, needed, freed).0; Settled(q) && Remembers(s, q, id)
    decreases |candidates|
  {
    hide Lawful, Settled, Candidates, Remembers, Preempt;
    if candidates == [] || freed >= needed {
      RemembersItself(s, id);
    } else {
      CandidatesLeft(s, candidates);
      if Spared(s, candidates[0]) {
        LoopRemembers(s, candidates[1..], needed, freed, id);
      } else {
        var v := candidates[0];
        FirstCandidate(s, candidates);
        PreemptOne(s, v);
        PreemptRemembers(s, v, id);
        var p := Preempt(s, v);
        LoopRemembers(p, candidates[1..], needed, freed + |v.blocks|, id);
        RemembersTwice(s, p, PreemptLoop(p, candidates[1..], needed, freed + |v.blocks|).0, id);
      }
    }
  }

  lemma ObtainRemembers(s: Sched, n: nat, id: int)
    requires Lawful(s) && Settled(s)
    ensures Settled(Obtain(s, n).0) && Remembers(s, Obtain(s, n).0, id)
  {
    if n > |s.free| && s.cfg.preemption && s.running != [] {
      RunningAreCandidates(s);
      LoopRemembers(s, VictimOrder(s.running), n, 0, id);
      var p := TryPreempt(s, n).0;
      assert Settled(p) && Remembers(s, p, id);
      hide PreemptLoop, Lawful;
      forall m: Past ensures Present(Obtain(s, n).0, Memo(m), id) == Present(s, Memo(m), id) {
        assert Present(p, Memo(m), id) == Present(s, Memo(m), id);
      }
    }
  }

  lemma StartRemembers(q: Sched, blocks: seq<int>, id: int)
    requires q.pending != [] && Settled(q)
    ensures Settled(Start(q, blocks)) && Remembers(q, Start(q, blocks), id)
  {
    var r := q.pending[0];
    forall m: Past ensures Present(Start(q, blocks), Memo(m), id) == Present(q, Memo(m), id) {
      CountOne(q.running, Resume(r.(blocks := blocks, status := RUNNING)), Memo(m), id);
    }
  }

  lemma {:induction false} AdmitRemembers(s: Sched, id: int)
    requires Lawful(s) && Clean(s) && AllPending(s.pending) && Settled(s)
    ensures Settled(Admit(s)) && Remembers(s, Admit(s), id)
    decreases |s.pending|
  {
    if s.pending != [] && |s.running| < s.cfg.maxBatch {
      var n := BlocksFor(s.pending[0], s.cfg.blockSize);
      assert s.(pending := SkipStale(s.pending)) == s;
      hide Lawful, Settled, Remembers, Obtain, Clean;
      ObtainKeeps(s, n);
      ObtainRemembers(s, n, id);
      var (q, blocks) := Obtain(s, n);
      if blocks.Some? {
        StartKeeps(s, n, q, blocks.value);
        StartRemembers(q, blocks.value, id);
        var d := Start(q, blocks.value);
        assert AllPending(d.pending) && |d.pending| < |s.pending|;
        hide Start;
        AdmitRemembers(d, id);
        RemembersTwice(s, q, d, id);
        RemembersTwice(s, d, Admit(d), id);
      }
    } else {
      assert Remembers(s, s, id);
    }
  }

  lemma {:induction false} MoveRemembers(s: Sched, rest: seq<Request>, id: int)
    requires Settled(s.(running := s.running + rest))
    ensures Settled(MoveFinished(s, rest)) && Remembers(s.(running := s.running + rest), MoveFinished(s, rest), id)
    decreases |rest|
  {
    if rest == [] {
      assert s.running + rest == s.running;
    } else {
      var r := rest[0];
      var m := s.(running := s.running + rest);
      assert m.running[|s.running|] == r && rest == [r] + rest[1..];
      if IsFinished(r) {
        var q := s.(free := ReturnBlocks(s.free, r.blocks), finished := s.finished + [r.(status := FINISHED)]);
        var n := q.(running := q.running + rest[1..]);
        forall i | 0 <= i < |n.running| ensures n.running[i].saved.None? {
          assert n.running[i] == m.running[if i < |s.running| then i else i + 1];
        }
        MoveRemembers(q, rest[1..], id);
        forall w: Past ensures Present(n, Memo(w), id) == Present(m, Memo(w), id) {
          CountAppend(s.running, rest, Memo(w), id);
          CountAppend(s.running, rest[1..], Memo(w), id);
          CountOne(s.finished, r.(status := FINISHED), Memo(w), id);
        }
        hide Present;
        RemembersTwice(m, n, MoveFinished(q, rest[1..]), id);
      } else {
        assert s.running + [r] + rest[1..] == s.running + rest;
        MoveRemembers(s.(running := s.running + [r]), rest[1..], id);
      }
    }
  }

  lemma ReadmitRemembers(s: Sched, id: int)
    ensures Remembers(s, s.(pending := Readmit(s.pending, s.preempted), preempted := []), id)
  {
    forall m: Past
      ensures Count(Readmit(s.pending, s.preempted), Memo(m), id)
            == Count(s.pending, Memo(m), id) + Count(s.preempted, Memo(m), id)
    {
      CountReadmit(s.pending, s.preempted, Memo(m), id);
    }
  }

  lemma StepRemembers(s: Sched, id: int)
    requires Settled(s)
    ensures Settled(s.(step := s.step + 1)) && Remembers(s, s.(step := s.step + 1), id)
  {
  }

  lemma EmptiedSettled(s: Sched, pending: seq<Request>)
    requires Settled(s)
    ensures Settled(s.(pending := pending, preempted := []))
  {
  }

  // Whatever schedule does with a request - finish it, preempt it, readmit
  // it, start it - its output, position and prefill progress are the same
  // afterwards, and in the request itself once it runs.
  lemma ScheduleRemembers(s: Sched, id: int)
    requires Lawful(s) && Conserved(s) && AllPending(s.pending) && Settled(s)
    ensures Settled(Schedule(s)) && Remembers(s, Schedule(s), id)
  {
    hide Lawful, Clean, Conserved, Settled, Admit, MoveFinished, Remembers;
    ConservedIsClean(s);
    FinishedMoved(s);
    var start := s.(step := s.step + 1, running := []);
    assert start.running + s.running == s.running;
    var stepped := s.(step := s.step + 1);
    assert start.(running := start.running + s.running) == stepped;
    StepRemembers(s, id);
    MoveRemembers(start, s.running, id);
    var moved := MoveFinished(start, s.running);
    ReadmitKeeps(moved);
    ReadmitPending(moved.pending, moved.preempted);
    ReadmitRemembers(moved, id);
    var d := moved.(pending := Readmit(moved.pending, moved.preempted), preempted := []);
    EmptiedSettled(moved, d.pending);
    AdmitRemembers(d, id);
    RemembersTwice(s, stepped, moved, id);
    RemembersTwice(s, moved, d, id);
    RemembersTwice(s, d, Admit(d), id);
  }

  lemma {:induction false} CountHas(list: seq<Request>, r: Request, w: What, x: int)
    requires r in list && Has(r, w, x) == 1 && Count(list, Id, x) <= 1 && !w.Blocks?
    ensures Count(list, w, x) == 1
  {
    CountMember(list, r, w, x);
    MemoIsId(list, w, x);
  }

  lemma {:induction false} MemoIsId(list: seq<Request>, w: What, x: int)
    requires !w.Blocks?
    ensures Count(list, w, x) <= Count(list, Id, x)
  {
    if list != [] { MemoIsId(list[1..], w, x); }
  }

  lemma {:induction false} MemoMember(list: seq<Request>, w: What, x: int) returns (r: Request)
    requires Count(list, w, x) > 0 && !w.Blocks?
    ensures r in list && r.id == x && (w.Memo? ==> Memory(r) == w.m)
  {
    r := list[0];
    if Has(r, w, x) == 0 { r := MemoMember(list[1..], w, x); }
  }

  // ---- Updates leave requests without a token alone ----

  lemma {:induction false} PutSettled(list: seq<Request>, id: int, f: Request -> Request)
    requires forall r :: f(r).saved == r.saved
    requires forall i :: 0 <= i < |list| ==> list[i].saved.None?
    ensures forall i :: 0 <= i < |list| ==> Put(list, id, f)[i].saved.None?
  {
  }

  lemma ProvideRemembers(s: Sched, who: int, deficit: int, id: int)
    requires Lawful(s) && Settled(s)
    ensures Settled(Provide(s, who, deficit)) && Remembers(s, Provide(s, who, deficit), id)
  {
    if deficit > 0 {
      ObtainRemembers(s, deficit, id);
      var (q, blocks) := Obtain(s, deficit);
      var f := if blocks.Some? then Grow(blocks.value) else Stop();
      hide Obtain, Lawful;
      PutSettled(q.running, who, f);
      forall m: Past ensures Present(Change(q, who, f), Memo(m), id) == Present(q, Memo(m), id) {
        CountPut(q.running, who, f, Memo(m), id);
        CountPut(q.preempted, who, f, Memo(m), id);
      }
      RemembersTwice(s, q, Change(q, who, f), id);
    } else {
      assert Remembers(s, s, id);
    }
  }

  lemma DeliverRemembers(s: Sched, i: nat, token: int, id: int)
    requires Lawful(s) && Settled(s) && i < |s.running| && s.running[i].id != id
    ensures Settled(Deliver(s, i, token)) && Remembers(s, Deliver(s, i, token), id)
  {
    var r := Generate(s.running[i], s.cfg.maxPrefill, token);
    var q := s.(running := s.running[i := r]);
    GeneratedKeeps(s, i, r);
    forall m: Past ensures Present(q, Memo(m), id) == Present(s, Memo(m), id) {
      CountUpdate(s.running, i, r, Memo(m), id);
    }
    hide Lawful, Provide;
    ProvideRemembers(q, r.id, Deficit(r, s.cfg.blockSize), id);
    RemembersTwice(s, q, Deliver(s, i, token), id);
  }

  lemma {:induction false} UpdateRemembers(s: Sched, i: nat, tokens: map<int, int>, id: int)
    requires Lawful(s) && Settled(s) && id !in tokens
    ensures Settled(UpdateLoop(s, i, tokens)) && Remembers(s, UpdateLoop(s, i, tokens), id)
    decreases |s.running| - i
  {
    hide Lawful, Settled, Remembers, Deliver;
    if i >= |s.running| {
      RemembersItself(s, id);
    } else if s.running[i].id !in tokens {
      UpdateRemembers(s, i + 1, tokens, id);
    } else {
      var token := tokens[s.running[i].id];
      DeliverKeeps(s, i, token);
      DeliverRemembers(s, i, token, id);
      DeliverShrinks(s, i, token);
      var d := Deliver(s, i, token);
      UpdateRemembers(d, i + 1, tokens, id);
      RemembersTwice(s, d, UpdateLoop(d, i + 1, tokens), id);
    }
  }

  // Whoever runs under this id has the one memory there is of it.
  lemma RunningRemembers(s: Sched, q: Request, m: Past)
    requires Lawful(s) && q in s.running && Present(s, Memo(m), q.id) >= 1
    ensures Memory(q) == m
  {
    assert Places(s, q.id) <= 1;
    CountMember(s.running, q, Id, q.id);
    MemoIsId(s.pending, Memo(m), q.id);
    MemoIsId(s.preempted, Memo(m), q.id);
    MemoIsId(s.finished, Memo(m), q.id);
    var t := MemoMember(s.running, Memo(m), q.id);
    OnlyOne(s.running, t, q);
  }

  lemma {:induction false} OnlyOne(list: seq<Request>, r: Request, q: Request)
    requires r in list && q in list && r.id == q.id && Count(list, Id, r.id) <= 1
    ensures r == q
  {
    if list[0] == r {
      if q != r { CountMember(list[1..], q, Id, r.id); }
    } else if list[0] == q {
      CountMember(list[1..], r, Id, r.id);
    } else {
      OnlyOne(list[1..], r, q);
    }
  }

  // ---- Every reachable state ----

  datatype Event =
    | Arrive(prompt: seq<int>, maxNew: int, priority: int, eos: int, stops: seq<int>)
    | Reschedule
    | Answer(tokens: map<int, int>)
    | Withdraw(id: int)

  // Only waiting requests are withdrawn, and no growing request is given
  // blocks after preempting itself.
  ghost predicate Allowed(s: Sched, e: Event) {
    match e
    case Answer(tokens) => !LeaksIn(s, 0, tokens)
    case Withdraw(id) => Count(s.running, Id, id) == 0
    case _ => true
  }

  function Apply(s: Sched, e: Event): Sched {
    match e
    case Arrive(prompt, maxNew, priority, eos, stops) => Add(s, prompt, maxNew, priority, eos, stops)
    case Reschedule => Schedule(s)
    case Answer(tokens) => Update(s, tokens)
    case Withdraw(id) => Remove(s, id)
  }

  // Blocks partitioned, every issued request in at most one queue, and none
  // of a later id anywhere.
  ghost predicate Good(s: Sched) {
    && Lawful(s) && Conserved(s) && AllPending(s.pending)
    && forall id :: id >= s.nextId ==> Places(s, id) == 0
  }

  lemma {:induction false} CountOthers(list: seq<Request>, id: int, w: What, x: int)
    requires !w.Blocks?
    ensures Count(Others(list, id), w, x) == if x == id then 0 else Count(list, w, x)
  {
    if list != [] {
      CountOthers(list[1..], id, w, x);
      if list[0].id != id { assert ([list[0]] + Others(list[1..], id))[1..] == Others(list[1..], id); }
    }
  }

  lemma {:induction false} OthersAll(list: seq<Request>, id: int)
    requires Count(list, Id, id) == 0
    ensures Others(list, id) == list
  {
    if list != [] {
      OthersAll(list[1..], id);
      assert list == [list[0]] + list[1..];
    }
  }

  lemma {:induction false} OthersFewer(list: seq<Request>, id: int, x: int)
    ensures Count(Others(list, id), Blocks, x) <= Count(list, Blocks, x)
  {
    if list != [] {
      OthersFewer(list[1..], id, x);
      if list[0].id != id { assert ([list[0]] + Others(list[1..], id))[1..] == Others(list[1..], id); }
    }
  }

  lemma {:induction false} OthersPending(list: seq<Request>, id: int)
    requires AllPending(list)
    ensures AllPending(Others(list, id))
  {
    if list != [] { OthersPending(list[1..], id); }
  }

  lemma {:induction false} OthersLose(list: seq<Request>, r: Request, x: int)
    requires r in list
    ensures Count(Others(list, r.id), Blocks, x) + Has(r, Blocks, x) <= Count(list, Blocks, x)
  {
    if list[0] == r {
      OthersFewer(list[1..], r.id, x);
    } else {
      OthersLose(list[1..], r, x);
      if list[0].id != r.id { assert ([list[0]] + Others(list[1..], r.id))[1..] == Others(list[1..], r.id); }
    }
  }

  lemma {:induction false} OthersBlockless(list: seq<Request>, id: int, x: int)
    requires forall r :: r in list && r.id == id ==> r.blocks == []
    ensures Count(Others(list, id), Blocks, x) == Count(list, Blocks, x)
  {
    if list != [] {
      OthersBlockless(list[1..], id, x);
      if list[0].id != id { assert ([list[0]] + Others(list[1..], id))[1..] == Others(list[1..], id); }
    }
  }

  // Removing a request does not give its blocks back: the partition survives
  // exactly when no running request of that id holds any.
  lemma RemoveConservesIff(s: Sched, id: int)
    requires Lawful(s) && Conserved(s)
    ensures Conserved(Remove(s, id)) <==> forall r :: r in s.running && r.id == id ==> r.blocks == []
  {
    var d := Remove(s, id);
    if forall r :: r in s.running && r.id == id ==> r.blocks == [] {
      forall b ensures multiset(d.free)[b] + Count(d.running, Blocks, b) == Once(d.cfg.maxBlocks, b) {
        OthersBlockless(s.running, id, b);
        assert multiset(s.free)[b] + Count(s.running, Blocks, b) == Once(s.cfg.maxBlocks, b);
      }
    } else {
      var r :| r in s.running && r.id == id && r.blocks != [];
      var b := r.blocks[0];
      OthersLose(s.running, r, b);
      assert multiset(r.blocks)[b] > 0;
      assert multiset(s.free)[b] + Count(s.running, Blocks, b) == Once(s.cfg.maxBlocks, b);
      assert multiset(d.free)[b] + Count(d.running, Blocks, b) != Once(d.cfg.maxBlocks, b);
    }
  }

  lemma RemoveGood(s: Sched, id: int)
    requires Good(s) && Count(s.running, Id, id) == 0
    ensures Good(Remove(s, id))
    ensures forall x :: Places(Remove(s, id), x) == if x == id then 0 else Places(s, x)
  {
    ConservedIsClean(s);
    var d := Remove(s, id);
    OthersAll(s.running, id);
    OthersPending(s.pending, id);
    forall x
      ensures Places(d, x) == if x == id then 0 else Places(s, x)
      ensures Everywhere(d, x) == Everywhere(s, x)
    {
      CountOthers(s.pending, id, Id, x);
      CountOthers(s.preempted, id, Id, x);
      CountOthers(s.finished, id, Id, x);
      OthersFewer(s.pending, id, x);
      OthersFewer(s.preempted, id, x);
      assert Count(s.pending, Blocks, x) == 0 && Count(s.preempted, Blocks, x) == 0;
    }
    forall b ensures multiset(d.free)[b] + Count(d.running, Blocks, b) == Once(d.cfg.maxBlocks, b) {}
    forall x ensures Places(d, x) <= 1 { assert Places(s, x) <= 1; }
  }

  lemma AddGood(s: Sched, prompt: seq<int>, maxNew: int, priority: int, eos: int, stops: seq<int>)
    requires Good(s)
    ensures Good(Add(s, prompt, maxNew, priority, eos, stops))
    ensures forall x ::
      Places(Add(s, prompt, maxNew, priority, eos, stops), x) == Places(s, x) + if x == s.nextId then 1 else 0
  {
    var r := Request(s.nextId, prompt, maxNew, eos, stops, PENDING, [], [], 0, priority, 0, s.step, None);
    var d := Add(s, prompt, maxNew, priority, eos, stops);
    PushPending(s.pending, r);
    forall x
      ensures Everywhere(d, x) == Everywhere(s, x) && Places(d, x) == Places(s, x) + if x == s.nextId then 1 else 0
    {
      CountPush(s.pending, r, Blocks, x);
      CountPush(s.pending, r, Id, x);
    }
    forall id ensures Places(d, id) <= 1 { assert Places(s, id) <= 1; }
    forall b ensures multiset(d.free)[b] + Count(d.running, Blocks, b) == Once(d.cfg.maxBlocks, b) {}
  }

  // ---- Ids are issued by add_request only ----

  lemma {:induction false} LoopIds(s: Sched, candidates: seq<Request>, needed: int, freed: int)
    ensures PreemptLoop(s, candidates, needed, freed).0.nextId == s.nextId
    decreases |candidates|
  {
    if candidates != [] && freed < needed {
      if Spared(s, candidates[0]) {
        LoopIds(s, candidates[1..], needed, freed);
      } else {
        LoopIds(Preempt(s, candidates[0]), candidates[1..], needed, freed + |candidates[0].blocks|);
      }
    }
  }

  lemma ObtainIds(s: Sched, n: nat)
    ensures Obtain(s, n).0.nextId == s.nextId
  {
    if n > |s.free| && s.cfg.preemption && s.running != [] { LoopIds(s, VictimOrder(s.running), n, 0); }
  }

  lemma {:induction false} AdmitIds(s: Sched)
    ensures Admit(s).nextId == s.nextId
    decreases |s.pending|
  {
    if s.pending != [] && |s.running| < s.cfg.maxBatch {
      var p := s.(pending := SkipStale(s.pending));
      if p.pending != [] {
        var n := BlocksFor(p.pending[0], p.cfg.blockSize);
        ObtainIds(p, n);
        var (q, blocks) := Obtain(p, n);
        if blocks.Some? { AdmitIds(Start(q, blocks.value)); }
      }
    }
  }

  lemma {:induction false} MoveIds(s: Sched, rest: seq<Request>)
    ensures MoveFinished(s, rest).nextId == s.nextId
    decreases |rest|
  {
    if rest != [] {
      var r := rest[0];
      if IsFinished(r) {
        MoveIds(s.(free := ReturnBlocks(s.free, r.blocks), finished := s.finished + [r.(status := FINISHED)]),
                rest[1..]);
      } else {
        MoveIds(s.(running := s.running + [r]), rest[1..]);
      }
    }
  }

  lemma ScheduleIds(s: Sched)
    ensures Schedule(s).nextId == s.nextId
  {
    MoveIds(s.(step := s.step + 1, running := []), s.running);
    var moved := MoveFinished(s.(step := s.step + 1, running := []), s.running);
    AdmitIds(moved.(pending := Readmit(moved.pending, moved.preempted), preempted := []));
  }

  lemma {:induction false} UpdateIds(s: Sched, i: nat, tokens: map<int, int>)
    ensures UpdateLoop(s, i, tokens).nextId == s.nextId
    decreases |s.running| - i
  {
    if i < |s.running| {
      if s.running[i].id !in tokens {
        UpdateIds(s, i + 1, tokens);
      } else {
        var token := tokens[s.running[i].id];
        DeliverShrinks(s, i, token);
        var r := Generate(s.running[i], s.cfg.maxPrefill, token);
        var n := Deficit(r, s.cfg.blockSize);
        if n > 0 { ObtainIds(s.(running := s.running[i := r]), n); }
        UpdateIds(Deliver(s, i, token), i + 1, tokens);
      }
    }
  }

  // Where a request is after one event: a new id appears, a withdrawn one
  // disappears, everybody else stays in one queue.
  ghost function PlacesAfter(s: Sched, e: Event, id: int): nat {
    if e.Arrive? && id == s.nextId then 1
    else if e.Withdraw? && id == e.id then 0
    else Places(s, id)
  }

  lemma StepGood(s: Sched, e: Event)
    requires Good(s) && Allowed(s, e)
    ensures Good(Apply(s, e)) && forall id :: Places(Apply(s, e), id) == PlacesAfter(s, e, id)
  {
    var d := Apply(s, e);
    match e {
      case Arrive(prompt, maxNew, priority, eos, stops) => AddGood(s, prompt, maxNew, priority, eos, stops);
      case Withdraw(id) => RemoveGood(s, id);
      case Reschedule =>
        ScheduleConserves(s);
        ScheduleIds(s);
        hide Schedule, Lawful, Conserved;
        forall id ensures Places(d, id) == Places(s, id) {}
      case Answer(tokens) =>
        UpdateConservesIff(s, tokens);
        UpdateKeeps(s, 0, tokens);
        UpdateIds(s, 0, tokens);
        hide UpdateLoop, Lawful, Conserved;
        forall id ensures Places(d, id) == Places(s, id) {}
    }
  }

  ghost predicate Runs(s: Sched, es: seq<Event>)
    decreases |es|
  {
    es == [] || (Allowed(s, es[0]) && Runs(Apply(s, es[0]), es[1..]))
  }

  function Final(s: Sched, es: seq<Event>): Sched
    decreases |es|
  {
    if es == [] then s else Final(Apply(s, es[0]), es[1..])
  }

  lemma {:induction false} RunGood(s: Sched, es: seq<Event>)
    requires Good(s) && Runs(s, es)
    ensures Good(Final(s, es)) && Final(s, es).cfg == s.cfg
    decreases |es|
  {
    if es != [] {
      StepGood(s, es[0]);
      StepConfig(s, es[0]);
      hide Good, Apply, Allowed;
      RunGood(Apply(s, es[0]), es[1..]);
    }
  }

  lemma StepConfig(s: Sched, e: Event)
    requires Good(s) && Allowed(s, e)
    ensures Apply(s, e).cfg == s.cfg
  {
    match e {
      case Reschedule => ScheduleConserves(s);
      case Answer(tokens) => UpdateKeeps(s, 0, tokens);
      case _ =>
    }
  }

  lemma InitGood(cfg: Settings)
    ensures Good(Init(cfg))
  {
    var s := Init(cfg);
    forall b ensures Everywhere(s, b) == Once(cfg.maxBlocks, b) {
      DistinctCount(s.free, b);
      if 0 <= b < cfg.maxBlocks { assert s.free[b] == b; }
    }
    forall b ensures multiset(s.free)[b] + Count(s.running, Blocks, b) == Once(cfg.maxBlocks, b) {
      assert Everywhere(s, b) == Once(cfg.maxBlocks, b);
    }
  }

  // In every reachable state each block id is exactly once either free or
  // with a running request, and no request is in two queues.
  lemma ReachableIsConserved(cfg: Settings, es: seq<Event>)
    requires Runs(Init(cfg), es)
    ensures var s := Final(Init(cfg), es);
      && (forall b :: multiset(s.free)[b] + Count(s.running, Blocks, b) == if 0 <= b < cfg.maxBlocks then 1 else 0)
      && (forall id :: Places(s, id) <= 1) && Good(s) && Settled(s)
  {
    InitGood(cfg);
    RunGood(Init(cfg), es);
    RunSettled(Init(cfg), es);
  }

  // ---- What a request remembers over a whole run ----

  // Whether the update gives this request its token: it may be preempted
  // before its turn, or be passed over when preemption shortens the list.
  ghost predicate Served(s: Sched, i: nat, tokens: map<int, int>, id: int)
    decreases |s.running| - i
  {
    i < |s.running| &&
      if s.running[i].id !in tokens then Served(s, i + 1, tokens, id)
      else
        var token := tokens[s.running[i].id];
        DeliverShrinks(s, i, token);
        s.running[i].id == id || Served(Deliver(s, i, token), i + 1, tokens, id)
  }

  // One more token: the prefill moves on by a chunk if it is not complete.
  function NextPast(m: Past, maxPrefill: nat, token: int): Past {
    var n := |m.prompt|;
    var progress := if m.progress >= n then m.progress
                    else Min(m.progress + Max(Min(n - m.progress, maxPrefill), 1), n);
    Past(m.prompt, m.output + [token], n + |m.output| + 1, progress)
  }

  lemma GeneratedPast(r: Request, maxPrefill: nat, token: int)
    requires r.saved.None?
    ensures Memory(Generate(r, maxPrefill, token)) == NextPast(Memory(r), maxPrefill, token)
  {
  }

  // The request does not come up again from index i on.
  ghost predicate Behind(list: seq<Request>, id: int, i: nat) {
    forall k :: i <= k < |list| ==> list[k].id != id
  }

  lemma {:induction false} WithoutBehind(list: seq<Request>, other: int, id: int, i: nat)
    requires Behind(list, id, i)
    ensures Behind(WithoutId(list, other), id, i)
  {
    if list != [] {
      var t := WithoutId(list, other);
      if list[0].id == other {
        forall k | i <= k < |t| ensures t[k].id != id { assert t[k] == list[k + 1]; }
      } else {
        var rest, from := list[1..], if i > 0 then i - 1 else 0;
        forall k | from <= k < |rest| ensures rest[k].id != id { assert rest[k] == list[k + 1]; }
        WithoutBehind(rest, other, id, from);
        forall k | i <= k < |t| ensures t[k].id != id {
          if k > 0 { assert t[k] == WithoutId(rest, other)[k - 1]; }
        }
      }
    }
  }

  lemma {:induction false} LoopBehind(s: Sched, candidates: seq<Request>, needed: int, freed: int, id: int, i: nat)
    requires Behind(s.running, id, i)
    ensures Behind(PreemptLoop(s, candidates, needed, freed).0.running, id, i)
    decreases |candidates|
  {
    if candidates != [] && freed < needed {
      if Spared(s, candidates[0]) {
        LoopBehind(s, candidates[1..], needed, freed, id, i);
      } else {
        WithoutBehind(s.running, candidates[0].id, id, i);
        LoopBehind(Preempt(s, candidates[0]), candidates[1..], needed, freed + |candidates[0].blocks|, id, i);
      }
    }
  }

  lemma DeliverBehind(s: Sched, j: nat, token: int, id: int, i: nat)
    requires j < |s.running| && Behind(s.running[j := Generate(s.running[j], s.cfg.maxPrefill, token)], id, i)
    ensures Behind(Deliver(s, j, token).running, id, i)
  {
    var r := Generate(s.running[j], s.cfg.maxPrefill, token);
    var q := s.(running := s.running[j := r]);
    var n := Deficit(r, s.cfg.blockSize);
    hide Generate;
    if n > |q.free| && q.cfg.preemption && q.running != [] { LoopBehind(q, VictimOrder(q.running), n, 0, id, i); }
  }

  // Nobody is served twice in one update.
  lemma {:induction false} NotAgain(s: Sched, i: nat, tokens: map<int, int>, id: int)
    requires Behind(s.running, id, i)
    ensures !Served(s, i, tokens, id)
    decreases |s.running| - i
  {
    if i < |s.running| {
      if s.running[i].id !in tokens {
        NotAgain(s, i + 1, tokens, id);
      } else {
        var token := tokens[s.running[i].id];
        DeliverShrinks(s, i, token);
        DeliverBehind(s, i, token, id, i + 1);
        hide Deliver;
        NotAgain(Deliver(s, i, token), i + 1, tokens, id);
      }
    }
  }

  lemma {:induction false} ServedHasToken(s: Sched, i: nat, tokens: map<int, int>, id: int)
    requires Served(s, i, tokens, id)
    ensures id in tokens
    decreases |s.running| - i
  {
    if s.running[i].id !in tokens {
      ServedHasToken(s, i + 1, tokens, id);
    } else if s.running[i].id != id {
      var token := tokens[s.running[i].id];
      DeliverShrinks(s, i, token);
      hide Deliver;
      ServedHasToken(Deliver(s, i, token), i + 1, tokens, id);
    }
  }

  // Its own turn moves a request's memory on by one token.
  lemma OwnTurn(s: Sched, i: nat, token: int, m: Past)
    requires Lawful(s) && Settled(s) && i < |s.running| && Present(s, Memo(m), s.running[i].id) >= 1
    ensures var d := Deliver(s, i, token);
      Settled(d) && Present(d, Memo(NextPast(m, s.cfg.maxPrefill, token)), s.running[i].id) >= 1
  {
    var r := s.running[i];
    var g := Generate(r, s.cfg.maxPrefill, token);
    var q := s.(running := s.running[i := g]);
    RunningRemembers(s, r, m);
    GeneratedPast(r, s.cfg.maxPrefill, token);
    GeneratedKeeps(s, i, g);
    hide Generate, Lawful, Provide;
    assert q.running[i] == g;
    CountMember(q.running, g, Memo(NextPast(m, s.cfg.maxPrefill, token)), r.id);
    ProvideRemembers(q, r.id, Deficit(g, s.cfg.blockSize), r.id);
  }

  lemma {:induction false} UpdateMemory(s: Sched, i: nat, tokens: map<int, int>, id: int, m: Past)
    requires Lawful(s) && Settled(s) && Present(s, Memo(m), id) >= 1
    ensures Settled(UpdateLoop(s, i, tokens))
    ensures Served(s, i, tokens, id) ==> id in tokens
    ensures Present(UpdateLoop(s, i, tokens),
                    Memo(if Served(s, i, tokens, id) then NextPast(m, s.cfg.maxPrefill, tokens[id]) else m), id) >= 1
    decreases |s.running| - i
  {
    hide Lawful, Settled, Present, Deliver, NextPast;
    if i < |s.running| {
      if s.running[i].id !in tokens {
        UpdateMemory(s, i + 1, tokens, id, m);
      } else {
        var token := tokens[s.running[i].id];
        DeliverKeeps(s, i, token);
        DeliverShrinks(s, i, token);
        var d := Deliver(s, i, token);
        if s.running[i].id == id {
          OwnTurn(s, i, token, m);
          OwnTurnBehind(s, i, token);
          NotAgain(d, i + 1, tokens, id);
          UpdateMemory(d, i + 1, tokens, id, NextPast(m, s.cfg.maxPrefill, token));
        } else {
          DeliverRemembers(s, i, token, id);
          StillPresent(s, d, id, m);
          UpdateMemory(d, i + 1, tokens, id, m);
        }
      }
    }
  }

  lemma StillPresent(s: Sched, d: Sched, id: int, m: Past)
    requires Remembers(s, d, id) && Present(s, Memo(m), id) >= 1
    ensures Present(d, Memo(m), id) >= 1
  {
  }

  lemma OwnTurnBehind(s: Sched, i: nat, token: int)
    requires Lawful(s) && i < |s.running|
    ensures Behind(Deliver(s, i, token).running, s.running[i].id, i + 1)
  {
    var id := s.running[i].id;
    var q := s.running[i := Generate(s.running[i], s.cfg.maxPrefill, token)];
    assert Places(s, id) <= 1;
    forall k | i + 1 <= k < |q| ensures q[k].id != id {
      if q[k].id == id { TwoOfOne(s.running, i, k); }
    }
    hide Lawful, Generate, Deliver;
    DeliverBehind(s, i, token, id, i + 1);
  }

  lemma {:induction false} TwoOfOne(list: seq<Request>, i: nat, j: nat)
    requires i < j < |list| && list[i].id == list[j].id
    ensures Count(list, Id, list[i].id) >= 2
  {
    if i == 0 {
      CountMember(list[1..], list[j], Id, list[i].id) by { assert list[1..][j - 1] == list[j]; }
    } else {
      TwoOfOne(list[1..], i - 1, j - 1);
    }
  }

  // What a request remembers after one event.
  ghost function PastAfter(s: Sched, e: Event, id: int, m: Past): Past {
    if e.Answer? && Served(s, 0, e.tokens, id) then
      ServedHasToken(s, 0, e.tokens, id);
      NextPast(m, s.cfg.maxPrefill, e.tokens[id])
    else m
  }

  lemma ArriveRemembers(s: Sched, prompt: seq<int>, maxNew: int, priority: int, eos: int, stops: seq<int>, id: int,
                        m: Past)
    requires Settled(s) && Present(s, Memo(m), id) >= 1
    ensures var d := Add(s, prompt, maxNew, priority, eos, stops); Settled(d) && Present(d, Memo(m), id) >= 1
  {
    var r := Request(s.nextId, prompt, maxNew, eos, stops, PENDING, [], [], 0, priority, 0, s.step, None);
    CountPush(s.pending, r, Memo(m), id);
  }

  lemma WithdrawRemembers(s: Sched, other: int, id: int, m: Past)
    requires Settled(s) && Present(s, Memo(m), id) >= 1 && id != other && Count(s.running, Id, other) == 0
    ensures Settled(Remove(s, other)) && Present(Remove(s, other), Memo(m), id) >= 1
  {
    CountOthers(s.pending, other, Memo(m), id);
    CountOthers(s.preempted, other, Memo(m), id);
    CountOthers(s.finished, other, Memo(m), id);
    OthersAll(s.running, other);
  }

  // The memory of a request changes only by its own tokens.
  lemma EventRemembers(s: Sched, e: Event, id: int, m: Past)
    requires Good(s) && Settled(s) && Allowed(s, e) && e != Withdraw(id) && Present(s, Memo(m), id) >= 1
    ensures Settled(Apply(s, e)) && Present(Apply(s, e), Memo(PastAfter(s, e, id, m)), id) >= 1
  {
    hide Lawful, Conserved, Settled, Present, Schedule, UpdateLoop, Add, Remove, Served, NextPast;
    match e {
      case Arrive(prompt, maxNew, priority, eos, stops) =>
        ArriveRemembers(s, prompt, maxNew, priority, eos, stops, id, m);
      case Reschedule =>
        ScheduleRemembers(s, id);
        StillPresent(s, Schedule(s), id, m);
      case Answer(tokens) => UpdateMemory(s, 0, tokens, id, m);
      case Withdraw(other) => WithdrawRemembers(s, other, id, m);
    }
  }

  ghost function PastAlong(s: Sched, es: seq<Event>, id: int, m: Past): Past
    decreases |es|
  {
    if es == [] then m else PastAlong(Apply(s, es[0]), es[1..], id, PastAfter(s, es[0], id, m))
  }

  lemma {:induction false} RunRemembers(s: Sched, es: seq<Event>, id: int, m: Past)
    requires Good(s) && Settled(s) && Runs(s, es) && Withdraw(id) !in es && Present(s, Memo(m), id) >= 1
    ensures Good(Final(s, es)) && Settled(Final(s, es)) && Present(Final(s, es), Memo(PastAlong(s, es, id, m)), id) >= 1
    decreases |es|
  {
    if es != [] {
      hide Good, Settled, Present, Apply, Allowed, PastAfter;
      assert es[0] in es && forall e :: e in es[1..] ==> e in es;
      StepGood(s, es[0]);
      EventRemembers(s, es[0], id, m);
      RunRemembers(Apply(s, es[0]), es[1..], id, PastAfter(s, es[0], id, m));
    }
  }

  // However often a request is preempted, waits and is readmitted, whoever
  // comes and goes meanwhile: when it runs again it has what it had, and the
  // tokens it was given itself, one turn of Generate each.
  lemma PreemptedComesBack(s: Sched, es: seq<Event>, r: Request, q: Request)
    requires Good(s) && Settled(s) && Runs(s, es) && Withdraw(r.id) !in es
    requires r in s.running && q in Final(s, es).running && q.id == r.id
    ensures q.saved.None?
    ensures Past(q.prompt, q.output, q.pos, q.progress)
          == PastAlong(s, es, r.id, Past(r.prompt, r.output, r.pos, r.progress))
  {
    hide Good, Runs, Final, PastAlong;
    SettledRunning(s, r);
    CountMember(s.running, r, Memo(Memory(r)), r.id);
    RunRemembers(s, es, r.id, Memory(r));
    SettledRunning(Final(s, es), q);
    GoodIsLawful(Final(s, es));
    RunningRemembers(Final(s, es), q, PastAlong(s, es, r.id, Memory(r)));
  }

  lemma SettledRunning(s: Sched, r: Request)
    requires Settled(s) && r in s.running
    ensures r.saved.None?
  {
    var i :| 0 <= i < |s.running| && s.running[i] == r;
  }

  lemma GoodIsLawful(s: Sched)
    requires Good(s)
    ensures Lawful(s)
  {
  }

  lemma {:induction false} RunSettled(s: Sched, es: seq<Event>)
    requires Good(s) && Settled(s) && Runs(s, es)
    ensures Settled(Final(s, es))
    decreases |es|
  {
    if es != [] {
      hide Good, Settled, Apply, Allowed;
      StepGood(s, es[0]);
      StepSettled(s, es[0]);
      RunSettled(Apply(s, es[0]), es[1..]);
    }
  }

  lemma StepSettled(s: Sched, e: Event)
    requires Good(s) && Settled(s) && Allowed(s, e)
    ensures Settled(Apply(s, e))
  {
    hide Lawful, Conserved, Settled, Schedule, UpdateLoop;
    match e {
      case Arrive(prompt, maxNew, priority, eos, stops) => SameRunningSettled(s, Apply(s, e));
      case Reschedule => ScheduleRemembers(s, 0);
      case Answer(tokens) => UpdateSettled(s, 0, tokens);
      case Withdraw(id) => OthersAll(s.running, id); SameRunningSettled(s, Apply(s, e));
    }
  }

  lemma SameRunningSettled(s: Sched, d: Sched)
    requires Settled(s) && d.running == s.running
    ensures Settled(d)
  {
  }

  lemma {:induction false} UpdateSettled(s: Sched, i: nat, tokens: map<int, int>)
    requires Lawful(s) && Settled(s)
    ensures Settled(UpdateLoop(s, i, tokens))
    decreases |s.running| - i
  {
    hide Lawful, Settled, Deliver;
    if i < |s.running| {
      if s.running[i].id !in tokens {
        UpdateSettled(s, i + 1, tokens);
      } else {
        var token := tokens[s.running[i].id];
        DeliverKeeps(s, i, token);
        DeliverSettled(s, i, token);
        DeliverShrinks(s, i, token);
        UpdateSettled(Deliver(s, i, token), i + 1, tokens);
      }
    }
  }

  lemma DeliverSettled(s: Sched, i: nat, token: int)
    requires Lawful(s) && Settled(s) && i < |s.running|
    ensures Settled(Deliver(s, i, token))
  {
    var r := Generate(s.running[i], s.cfg.maxPrefill, token);
    GeneratedKeeps(s, i, r);
    hide Lawful, Provide;
    ProvideRemembers(s.(running := s.running[i := r]), r.id, Deficit(r, s.cfg.blockSize), r.id);
  }
}
