// Small runs of the scheduler from its start that end where a promise ends:
// the update that loses a block, the withdrawal that loses one, and the turn
// that skips a position.
module SchedulerLimits {
  import opened Prelude
  import opened SchedulerSpec
  import opened SchedulerInv
  import opened SchedulerPolicy
  import SchedulerRun
  import opened Feeding

  // ---- Blocks that are lost ----

  // One block, and one request that fills it.
  function Cramped(): Sched {
    var r := Request(0, [7], 10, 2, [], RUNNING, [], [0], 0, 1, 0, 0, None);
    Sched(Settings(8, 1, 1, 512, true), [], [r], [], [], [], 1, 1)
  }

  function OneStarted(): seq<SchedulerRun.Event> {
    [SchedulerRun.Arrive([7], 10, 1, 2, []), SchedulerRun.Reschedule]
  }

  // Starting the next request with blocks off the free list.
  lemma AdmitOne(s: Sched, n: nat)
    requires s.pending != [] && |s.running| < s.cfg.maxBatch && s.pending[0].status == PENDING
    requires n == BlocksFor(s.pending[0], s.cfg.blockSize) <= |s.free|
    ensures Admit(s) == Admit(Start(s.(free := s.free[n..]), s.free[..n]))
  {
    assert s.(pending := SkipStale(s.pending)) == s;
  }

  lemma CrampedIsReached()
    ensures var c := Init(Settings(8, 1, 1, 512, true));
      SchedulerRun.Runs(c, OneStarted()) && SchedulerRun.Final(c, OneStarted()) == Cramped()
  {
    var c := Init(Settings(8, 1, 1, 512, true));
    var es := OneStarted();
    var r := Request(0, [7], 10, 2, [], PENDING, [], [], 0, 1, 0, 0, None);
    var a := SchedulerRun.Apply(c, es[0]);
    assert c.free == [0] && a == c.(pending := [r], nextId := 1);
    assert Ceil(1, 1) == 1 by { QuotRem(1, 1); }
    var m := a.(step := 1);
    AdmitOne(m, 1);
    assert [0][..1] == [0] && [0][1..] == [] && [r][1..] == [];
    var b := Start(m.(free := []), [0]);
    assert b == Cramped();
    assert Schedule(a) == b;
    assert es[1..] == [SchedulerRun.Reschedule] && es[1..][1..] == [];
    assert SchedulerRun.Apply(a, es[1..][0]) == b;
    assert SchedulerRun.Final(b, []) == b && SchedulerRun.Runs(b, []);
    assert SchedulerRun.Final(a, es[1..]) == b && SchedulerRun.Runs(a, es[1..]);
  }

  // The request then needs a second block: it preempts itself, and the block
  // it is given afterwards is neither free nor with a running request.
  lemma SelfVictimLosesBlocks()
    ensures var c := Init(Settings(8, 1, 1, 512, true)); SchedulerRun.Runs(c, OneStarted())
    ensures var s := SchedulerRun.Final(Init(Settings(8, 1, 1, 512, true)), OneStarted());
      var d := Update(s, map[0 := 5]);
      && Lawful(s) && Conserved(s) && LeaksIn(s, 0, map[0 := 5])
      && d.free == [] && d.running == [] && |d.preempted| == 1 && d.preempted[0].blocks == [0]
      && !Conserved(d)
  {
    var s, tokens, d := Cramped(), map[0 := 5], Deliver(Cramped(), 0, 5);
    CrampedIsReached();
    CrampedIsLawful();
    TakesItsOwn();
    assert UpdateLoop(d, 1, tokens) == d;
    assert s.running[0].id == 0;
    hide Deliver, Leaks, Lawful, Conserved, Cramped, Init, OneStarted, SchedulerRun.Runs, SchedulerRun.Final;
    assert UpdateLoop(s, 0, tokens) == d && LeaksIn(s, 0, tokens);
    UpdateConservesIff(s, tokens);
  }

  lemma TakesItsOwn()
    ensures var d := Deliver(Cramped(), 0, 5);
      && d.free == [] && d.running == [] && |d.preempted| == 1 && d.preempted[0].blocks == [0]
      && Leaks(Cramped(), 0, 5) && |Cramped().running| == 1
  {
    var s := Cramped();
    var r0 := s.running[0];
    var r := Generate(r0, 512, 5);
    assert r == r0.(output := [5], pos := 2, progress := 1);
    assert Ceil(2, 1) == 2 by { QuotRem(2, 1); }
    var q := s.(running := s.running[0 := r]);
    assert q.running == [r] && [r][1..] == [];
    hide Generate, Provide, VictimOrder;
    assert VictimOrder([r]) == [r] by { AlreadySorted([r], 1); assert [r][..1] == [r]; }
    assert ReturnBlocks([], [0]) == [0] by { assert [0][1..] == []; assert [] + [0] == [0]; }
    ItsOwnVictim(q, r);
  }

  lemma ItsOwnVictim(q: Sched, r: Request)
    requires q.running == [r] && q.free == [] && q.preempted == [] && r.blocks == [0] && r.id == 0 && !Spared(q, r)
    requires q.cfg.preemption && VictimOrder([r]) == [r] && ReturnBlocks([], [0]) == [0]
    ensures var d := Provide(q, 0, 1);
      d.free == [] && d.running == [] && |d.preempted| == 1 && d.preempted[0].blocks == [0]
    ensures SelfVictim(q, r, 1)
  {
    assert [r][1..] == [];
    PreemptOnly(q, 1, r);
    var p := q.(free := [0], running := [], preempted := [] + [Stash(r)]);
    assert TryPreempt(q, 1) == (p, true);
    hide TryPreempt, VictimOrder;
    assert Obtain(q, 1) == (p.(free := []), Some([0])) by { assert [0][1..] == [] && [0][..1] == [0]; }
    assert Ahead([r], 0) == [] && Weight(q, [r]) == 1;
  }

  lemma CrampedIsLawful()
    ensures Lawful(Cramped()) && Conserved(Cramped())
  {
    var s := Cramped();
    forall x ensures Count(s.running, Blocks, x) == Once(1, x) && Count(s.running, Id, x) == if x == 0 then 1 else 0 {
      assert s.running[1..] == [];
      assert multiset([0])[x] == if x == 0 then 1 else 0;
    }
    forall b ensures Everywhere(s, b) == Once(1, b) {}
    forall id ensures Places(s, id) <= 1 {}
  }

  // The same request withdrawn while it runs: its block is lost as well.
  lemma RunningWithdrawalLosesBlocks()
    ensures SchedulerRun.Runs(Init(Settings(8, 1, 1, 512, true)), OneStarted())
    ensures var s := SchedulerRun.Final(Init(Settings(8, 1, 1, 512, true)), OneStarted());
      var d := Remove(s, 0);
      Lawful(s) && Conserved(s) && d.free == [] && d.running == d.pending == d.preempted == [] && !Conserved(d)
  {
    CrampedIsReached();
    CrampedIsLawful();
    var s := Cramped();
    assert s.running[1..] == [];
    SchedulerRun.RemoveConservesIff(s, 0);
    assert s.running[0] in s.running && s.running[0].id == 0;
  }

  // ---- Importance does not protect ----

  // The only running request is preempted, whatever its priority.
  lemma PreemptOnly(s: Sched, needed: int, v: Request)
    requires s.running == [v] && s.cfg.preemption && needed > 0 && !Spared(s, v)
    requires ReturnBlocks(s.free, v.blocks) == s.free + v.blocks
    ensures TryPreempt(s, needed)
         == (s.(free := s.free + v.blocks, running := [], preempted := s.preempted + [Stash(v)]), |v.blocks| >= needed)
  {
    assert [v][..0] == [] && [v][1..] == [] && VictimOrder([v]) == Insert(VictimOrder([v][..0]), v) == [v];
    assert WithoutId([v], v.id) == [];
    var p := Preempt(s, v);
    assert PreemptLoop(p, [], needed, |v.blocks|) == (p, |v.blocks|);
    assert PreemptLoop(s, [v], needed, 0) == (p, |v.blocks|);
  }

  // Starting the next request with the blocks of the only running one.
  lemma AdmitOver(s: Sched, n: nat, v: Request)
    requires s.pending != [] && s.running == [v] && s.cfg.maxBatch > 1 && s.pending[0].status == PENDING
    requires s.cfg.preemption && s.free == [] && 0 < n == BlocksFor(s.pending[0], s.cfg.blockSize) <= |v.blocks|
    requires ReturnBlocks([], v.blocks) == v.blocks
    ensures Admit(s) == Admit(Start(s.(free := v.blocks[n..], running := [], preempted := s.preempted + [Stash(v)]),
                                    v.blocks[..n]))
  {
    assert [] + v.blocks == v.blocks;
    PreemptOnly(s, n, v);
    assert s.(pending := SkipStale(s.pending)) == s;
    hide TryPreempt;
    assert Obtain(s, n).1 == Some(v.blocks[..n]);
  }

  lemma {:induction false} MovesNobody(s: Sched, rest: seq<Request>)
    requires forall i :: 0 <= i < |rest| ==> !IsFinished(rest[i])
    ensures MoveFinished(s, rest) == s.(running := s.running + rest)
    decreases |rest|
  {
    if rest == [] {
      assert s.running + rest == s.running;
    } else {
      MovesNobody(s.(running := s.running + [rest[0]]), rest[1..]);
      assert s.running + [rest[0]] + rest[1..] == s.running + rest;
    }
  }

  // A request that arrives when nobody waits and there is room joins the
  // running ones.
  lemma JoinsRunning(s: Sched, prompt: seq<int>, priority: int, maxNew: int, eos: int, n: nat)
    requires s.pending == s.preempted == [] && |s.running| < s.cfg.maxBatch
    requires forall i :: 0 <= i < |s.running| ==> !IsFinished(s.running[i])
    requires n == Ceil(|prompt|, s.cfg.blockSize) <= |s.free|
    ensures Schedule(Add(s, prompt, maxNew, priority, eos, [])) ==
      s.(running := s.running + [Request(s.nextId, prompt, maxNew, eos, [], RUNNING, [], s.free[..n], 0, priority, 0,
                                         s.step, None)],
         free := s.free[n..], nextId := s.nextId + 1, step := s.step + 1)
  {
    var r := Request(s.nextId, prompt, maxNew, eos, [], PENDING, [], [], 0, priority, 0, s.step, None);
    assert [r] + [] == [r] && [r][1..] == [] && [] + s.running == s.running;
    var m := s.(pending := [r], nextId := s.nextId + 1, step := s.step + 1);
    MovesNobody(m.(running := []), s.running);
    AdmitOne(m, n);
    var b := Start(m.(free := s.free[n..]), s.free[..n]);
    assert Admit(b) == b;
    assert Schedule(s.(pending := [r], nextId := s.nextId + 1)) == Admit(m);
  }

  // The same with no block free: it takes those of the only running one.
  lemma TakesOver(s: Sched, r: Request, prompt: seq<int>, priority: int, maxNew: int, eos: int, n: nat)
    requires s.pending == s.preempted == [] && s.running == [r] && s.cfg.maxBatch > 1 && !IsFinished(r)
    requires s.cfg.preemption && s.free == [] && 0 < n == Ceil(|prompt|, s.cfg.blockSize) <= |r.blocks|
    requires ReturnBlocks([], r.blocks) == r.blocks
    ensures Schedule(Add(s, prompt, maxNew, priority, eos, [])) ==
      s.(running := [Request(s.nextId, prompt, maxNew, eos, [], RUNNING, [], r.blocks[..n], 0, priority, 0, s.step,
                             None)],
         preempted := [Stash(r)], free := r.blocks[n..], nextId := s.nextId + 1, step := s.step + 1)
  {
    var q := Request(s.nextId, prompt, maxNew, eos, [], PENDING, [], [], 0, priority, 0, s.step, None);
    assert [q] + [] == [q] && [q][1..] == [] && [] + s.running == s.running && [] + [Stash(r)] == [Stash(r)];
    var m := s.(pending := [q], nextId := s.nextId + 1, step := s.step + 1);
    hide Stash, IsFinished, TryPreempt, ReturnBlocks;
    MovesNobody(m.(running := []), s.running);
    AdmitOver(m, n, r);
    var b := Start(m.(free := r.blocks[n..], running := [], preempted := [Stash(r)]), r.blocks[..n]);
    assert Admit(b) == b;
    assert Schedule(s.(pending := [q], nextId := s.nextId + 1)) == Admit(m);
  }

  function Modest(id: int, priority: int, arrival: int): Request {
    Request(id, [7], 10, 2, [], PENDING, [], [], 0, priority, 0, arrival, None)
  }

  function UrgentThenNot(): seq<SchedulerRun.Event> {
    [SchedulerRun.Arrive([7], 10, -5, 2, []), SchedulerRun.Reschedule, SchedulerRun.Arrive([7], 10, 9, 2, []),
     SchedulerRun.Reschedule]
  }

  lemma UrgentStarts()
    ensures var c := Init(Settings(8, 1, 1, 512, true));
      Schedule(Add(c, [7], 10, -5, 2, [])) ==
        Sched(c.cfg, [], [Modest(0, -5, 0).(status := RUNNING, blocks := [0])], [], [], [], 1, 1)
  {
    var c := Init(Settings(8, 1, 1, 512, true));
    assert Ceil(1, 1) == 1 by { QuotRem(1, 1); }
    JoinsRunning(c, [7], -5, 10, 2, 1);
    hide Schedule, Add;
    assert c.free == [0] && [0][..1] == [0] && [0][1..] == [];
    assert [] + [Modest(0, -5, 0).(status := RUNNING, blocks := [0])]
        == [Modest(0, -5, 0).(status := RUNNING, blocks := [0])];
  }

  lemma OtherTakesOver()
    ensures var r := Modest(0, -5, 0).(status := RUNNING, blocks := [0]);
      var s := Sched(Settings(8, 1, 1, 512, true), [], [r], [], [], [], 1, 1);
      Schedule(Add(s, [7], 10, 9, 2, [])) ==
        Sched(s.cfg, [], [Modest(1, 9, 1).(status := RUNNING, blocks := [0])], [], [Stash(r)], [], 2, 2)
  {
    var r := Modest(0, -5, 0).(status := RUNNING, blocks := [0]);
    var s := Sched(Settings(8, 1, 1, 512, true), [], [r], [], [], [], 1, 1);
    assert Ceil(1, 1) == 1 by { QuotRem(1, 1); }
    assert ReturnBlocks([], [0]) == [0] by { assert [0][1..] == []; assert [] + [0] == [0]; }
    TakesOver(s, r, [7], 9, 10, 2, 1);
    hide Schedule, Add;
    assert [0][..1] == [0] && [0][1..] == [];
  }

  // A running request of priority -5 makes way for one of priority 9: nobody
  // is spared while somebody waits.
  lemma UrgentIsPreempted()
    ensures var c := Init(Settings(8, 1, 1, 512, true)); SchedulerRun.Runs(c, UrgentThenNot())
    ensures var d := SchedulerRun.Final(Init(Settings(8, 1, 1, 512, true)), UrgentThenNot());
      && |d.running| == 1 && d.running[0].id == 1 && d.running[0].priority == 9
      && |d.preempted| == 1 && d.preempted[0].id == 0 && d.preempted[0].priority == -5
  {
    var c := Init(Settings(8, 1, 1, 512, true));
    UrgentStarts();
    OtherTakesOver();
    FourEvents(c, UrgentThenNot());
    hide Schedule, Add, Init;
  }

  lemma FourEvents(s: Sched, es: seq<SchedulerRun.Event>)
    requires |es| == 4 && forall i :: 0 <= i < 4 ==> es[i].Arrive? || es[i].Reschedule?
    ensures SchedulerRun.Runs(s, es)
    ensures SchedulerRun.Final(s, es) ==
      SchedulerRun.Apply(SchedulerRun.Apply(SchedulerRun.Apply(SchedulerRun.Apply(s, es[0]), es[1]), es[2]), es[3])
  {
    hide SchedulerRun.Apply;
    var a := SchedulerRun.Apply(s, es[0]);
    var b := SchedulerRun.Apply(a, es[1]);
    var c := SchedulerRun.Apply(b, es[2]);
    var d := SchedulerRun.Apply(c, es[3]);
    assert es[1..][1..] == es[2..] && es[2..][1..] == es[3..] && es[3..][1..] == [];
    assert SchedulerRun.Final(d, []) == d && SchedulerRun.Runs(d, []);
    assert SchedulerRun.Final(c, es[3..]) == d && SchedulerRun.Runs(c, es[3..]);
    assert SchedulerRun.Final(b, es[2..]) == d && SchedulerRun.Runs(b, es[2..]);
    assert SchedulerRun.Final(a, es[1..]) == d && SchedulerRun.Runs(a, es[1..]);
  }

  // ---- A request that runs on after its end ----

  // Asked for one token, and a little less important than the other one.
  function Short(): Request {
    Request(0, [7], 1, 9, [], PENDING, [], [], 0, 2, 0, 0, None)
  }

  function Longer(): Request {
    Request(1, [7, 8], 10, 9, [], PENDING, [], [], 0, 1, 0, 1, None)
  }

  function Pair(running: seq<Request>, preempted: seq<Request>, free: seq<int>, next: int, step: int): Sched {
    Sched(Settings(8, 2, 2, 512, true), [], running, [], preempted, free, next, step)
  }

  lemma ShortStarts(r: Request)
    requires r == Short().(status := RUNNING, blocks := [0])
    ensures Schedule(Add(Init(Settings(8, 2, 2, 512, true)), [7], 1, 2, 9, [])) == Pair([r], [], [1], 1, 1)
  {
    assert Ceil(1, 2) == 1 by { QuotRem(2, 2); }
    JoinsRunning(Init(Settings(8, 2, 2, 512, true)), [7], 2, 1, 9, 1);
    assert Init(Settings(8, 2, 2, 512, true)).free == [0, 1] && [0, 1][..1] == [0] && [0, 1][1..] == [1];
    assert [] + [r] == [r];
  }

  lemma LongerStarts(r: Request, q: Request)
    requires r == Short().(status := RUNNING, blocks := [0]) && q == Longer().(status := RUNNING, blocks := [1])
    ensures Schedule(Add(Pair([r], [], [1], 1, 1), [7, 8], 10, 1, 9, [])) == Pair([r, q], [], [], 2, 2)
  {
    assert Ceil(2, 2) == 1 by { QuotRem(3, 2); }
    JoinsRunning(Pair([r], [], [1], 1, 1), [7, 8], 1, 10, 9, 1);
    assert [1][..1] == [1] && [1][1..] == [] && [r] + [q] == [r, q];
  }

  // The longer request needs a block more and takes that of the short one,
  // which has just got its only token.
  lemma ShortLosesBlock(r: Request, q: Request, x: Request, y: Request)
    requires r == Short().(status := RUNNING, blocks := [0]) && q == Longer().(status := RUNNING, blocks := [1])
    requires x == r.(output := [5], pos := 2, progress := 1)
    requires y == q.(output := [6], pos := 3, progress := 2)
    ensures var s := Pair([r, q], [], [], 2, 2);
      && Update(s, map[0 := 5, 1 := 6]) == Pair([y.(blocks := [1, 0])], [Stash(x)], [], 2, 2)
      && !LeaksIn(s, 0, map[0 := 5, 1 := 6])
  {
    var s, tokens := Pair([r, q], [], [], 2, 2), map[0 := 5, 1 := 6];
    var a, d := Pair([x, q], [], [], 2, 2), Pair([y.(blocks := [1, 0])], [Stash(x)], [], 2, 2);
    FirstAnswer(r, q, x);
    SecondAnswer(q, x, y);
    hide Deliver, Leaks, Stash;
    assert UpdateLoop(d, 2, tokens) == d && !LeaksIn(d, 2, tokens);
    assert UpdateLoop(a, 1, tokens) == d && !LeaksIn(a, 1, tokens);
    assert UpdateLoop(s, 0, tokens) == d && !LeaksIn(s, 0, tokens);
  }

  lemma FirstAnswer(r: Request, q: Request, x: Request)
    requires r == Short().(status := RUNNING, blocks := [0]) && x == r.(output := [5], pos := 2, progress := 1)
    ensures var s := Pair([r, q], [], [], 2, 2); Deliver(s, 0, 5) == Pair([x, q], [], [], 2, 2) && !Leaks(s, 0, 5)
  {
    var s := Pair([r, q], [], [], 2, 2);
    assert [] + [5] == [5];
    assert Generate(r, 512, 5) == x;
    assert Ceil(2, 2) == 1 by { QuotRem(3, 2); }
    assert s.running[0 := x] == [x, q];
  }

  lemma SecondAnswer(q: Request, x: Request, y: Request)
    requires q == Longer().(status := RUNNING, blocks := [1]) && y == q.(output := [6], pos := 3, progress := 2)
    requires x.id == 0 && x.priority == 2 && x.blocks == [0]
    ensures var a := Pair([x, q], [], [], 2, 2);
      Deliver(a, 1, 6) == Pair([y.(blocks := [1, 0])], [Stash(x)], [], 2, 2) && !Leaks(a, 1, 6)
  {
    hide Generate, Deficit, Provide, Deliver, Leaks, SelfVictim, VictimOrder, Stash;
    var a, b := Pair([x, q], [], [], 2, 2), Pair([x, y], [], [], 2, 2);
    LongerGrows(q, y);
    assert a.(running := a.running[1 := y]) == b;
    TakesFromShort(b, x, y);
    NotItsOwnVictim(b, x, y);
    TurnIs(a, 1, 6, y, 1);
  }

  lemma TurnIs(s: Sched, i: nat, token: int, g: Request, n: int)
    requires i < |s.running| && Generate(s.running[i], s.cfg.maxPrefill, token) == g && Deficit(g, s.cfg.blockSize) == n
    ensures var q := s.(running := s.running[i := g]);
      Deliver(s, i, token) == Provide(q, g.id, n) && (Leaks(s, i, token) <==> SelfVictim(q, g, n))
  {
    hide Provide, SelfVictim, Generate, Deficit;
  }

  lemma LongerGrows(q: Request, y: Request)
    requires |q.prompt| == 2 && q.output == [] && q.progress == 0 && |q.blocks| == 1
    requires y == q.(output := [6], pos := 3, progress := 2)
    ensures Generate(q, 512, 6) == y && Deficit(y, 2) == 1
  {
    assert [] + [6] == [6];
    assert Ceil(3, 2) == 2 by { QuotRem(4, 2); }
  }

  lemma NotItsOwnVictim(b: Sched, x: Request, y: Request)
    requires b == Pair([x, y], [], [], 2, 2) && x.id == 0 && y.id == 1 && x.priority == 2 && x.blocks == [0]
    requires VictimOrder([x, y]) == [x, y]
    ensures !SelfVictim(b, y, 1)
  {
    hide VictimOrder;
    assert [x, y][1..] == [y] && [x][1..] == [];
    assert Ahead([x, y], 1) == [x] + Ahead([y], 1) == [x];
    assert Weight(b, [x]) == 1;
  }

  lemma TakesFromShort(b: Sched, x: Request, y: Request)
    requires b == Pair([x, y], [], [], 2, 2) && x.id == 0 && y.id == 1 && x.priority == 2 && y.priority == 1
    requires x.blocks == [0] && y.blocks == [1]
    ensures VictimOrder([x, y]) == [x, y]
    ensures Provide(b, 1, 1) == Pair([y.(blocks := [1, 0])], [Stash(x)], [], 2, 2)
  {
    assert [x, y][..1] == [x] && [x][..0] == [] && [x, y][1..] == [y] && [x][1..] == [];
    assert VictimOrder([x]) == Insert([], x) == [x];
    assert Insert([x], y) == [x] + Insert([], y) == [x, y];
    assert VictimOrder([x, y]) == Insert(VictimOrder([x]), y);
    assert ReturnBlocks([], [0]) == [0] by { assert [0][1..] == []; assert [] + [0] == [0]; }
    assert WithoutId([x, y], 0) == [y] && [] + [Stash(x)] == [Stash(x)];
    var p := Pair([y], [Stash(x)], [0], 2, 2);
    assert Preempt(b, x) == p;
    assert PreemptLoop(p, [y], 1, 1) == (p, 1);
    assert PreemptLoop(b, [x, y], 1, 0) == (p, 1);
    assert TryPreempt(b, 1) == (p, true);
    assert [0][..1] == [0] && [0][1..] == [] && [1] + [0] == [1, 0];
    assert Obtain(b, 1) == (p.(free := []), Some([0]));
    var d := Change(p.(free := []), 1, Grow([0]));
    assert d.running == [y.(blocks := [1, 0])] && d.preempted == [Stash(x)];
  }

  lemma ShortRunsAgain(x: Request, z: Request)
    requires x == Short().(status := RUNNING, blocks := [0], output := [5], pos := 2, progress := 1)
    requires z == Longer().(status := RUNNING, blocks := [1, 0], output := [6], pos := 3, progress := 2)
    ensures var d := Schedule(Pair([z], [Stash(x)], [], 2, 2));
      d.running == [x.(priority := -1, blocks := [1])] && d.preempted == [Stash(z)]
  {
    var s := Pair([z], [Stash(x)], [], 2, 2);
    var r := Boost(Stash(x));
    assert [z][1..] == [] && [] + [z] == [z] && [Stash(x)][1..] == [] && [r] + [] == [r] && [r][1..] == [];
    var e := s.(step := 3, running := []);
    assert MoveFinished(e, [z]) == MoveFinished(e.(running := [z]), []) == e.(running := [z]);
    assert Readmit([], [Stash(x)]) == Readmit([r], []) == [r];
    var m := s.(step := 3, pending := [r], preempted := []);
    assert Ceil(2, 2) == 1 by { QuotRem(3, 2); }
    assert ReturnBlocks([], [1, 0]) == [1, 0] by {
      assert [1, 0][1..] == [0] && [0][1..] == [] && [] + [1] == [1] && [1] + [0] == [1, 0];
      assert ReturnBlocks([1], [0]) == [1, 0];
    }
    AdmitOver(m, 1, z);
    assert [1, 0][1..] == [0] && [1, 0][..1] == [1] && [] + [Stash(z)] == [Stash(z)];
    var b := Start(m.(free := [0], running := [], preempted := [Stash(z)]), [1]);
    assert b.running == [x.(priority := -1, blocks := [1])];
    assert Admit(b) == b;
    assert Schedule(s) == Admit(m);
  }

  function PastItsEnd(): seq<SchedulerRun.Event> {
    [SchedulerRun.Arrive([7], 1, 2, 9, []), SchedulerRun.Reschedule, SchedulerRun.Arrive([7, 8], 10, 1, 9, []),
     SchedulerRun.Reschedule]
  }

  // A request that was asked for one token, got it and was preempted in the
  // same step runs again after the next schedule: nobody checks that it is
  // done.
  lemma DoneRunsAgain()
    ensures var c := Init(Settings(8, 2, 2, 512, true)); SchedulerRun.Runs(c, PastItsEnd())
    ensures var s := SchedulerRun.Final(Init(Settings(8, 2, 2, 512, true)), PastItsEnd());
      var d := Schedule(Update(s, map[0 := 5, 1 := 6]));
      && !LeaksIn(s, 0, map[0 := 5, 1 := 6])
      && |d.running| == 1 && d.running[0].id == 0 && d.running[0].maxNew == 1 && d.running[0].output == [5]
  {
    var c := Init(Settings(8, 2, 2, 512, true));
    var r, q := Short().(status := RUNNING, blocks := [0]), Longer().(status := RUNNING, blocks := [1]);
    var x, y := r.(output := [5], pos := 2, progress := 1), q.(output := [6], pos := 3, progress := 2);
    ShortStarts(r);
    LongerStarts(r, q);
    FourEvents(c, PastItsEnd());
    hide Schedule, Update, Add;
    assert SchedulerRun.Final(c, PastItsEnd()) == Pair([r, q], [], [], 2, 2);
    ShortLosesBlock(r, q, x, y);
    ShortRunsAgain(x, y.(blocks := [1, 0]));
  }

  // ---- A token that is dropped ----

  function Of(id: int, prompt: seq<int>, priority: int): Request {
    Request(id, prompt, 10, 9, [], RUNNING, [], [id], 0, priority, 0, id, None)
  }

  // Three requests with a block each, and no block left.
  function Trio(running: seq<Request>, preempted: seq<Request>): Sched {
    Sched(Settings(8, 2, 3, 512, true), [], running, [], preempted, [], 3, 3)
  }

  function ThreeArrive(): seq<SchedulerRun.Event> {
    [SchedulerRun.Arrive([7], 10, 2, 9, []), SchedulerRun.Reschedule, SchedulerRun.Arrive([7, 8], 10, 1, 9, []),
     SchedulerRun.Reschedule, SchedulerRun.Arrive([7], 10, 1, 9, []), SchedulerRun.Reschedule]
  }

  function Partly(n: nat): Sched
    requires n <= 3
  {
    Trio([Of(0, [7], 2), Of(1, [7, 8], 1), Of(2, [7], 1)][..n], []).(free := [0, 1, 2][n..], nextId := n, step := n)
  }

  lemma FirstJoins()
    ensures Schedule(Add(Init(Settings(8, 2, 3, 512, true)), [7], 10, 2, 9, [])) == Partly(1)
  {
    var c := Init(Settings(8, 2, 3, 512, true));
    assert Ceil(1, 2) == 1 by { QuotRem(2, 2); }
    JoinsRunning(c, [7], 2, 10, 9, 1);
    hide Schedule, Add;
    assert c.free == [0, 1, 2] && [0, 1, 2][..1] == [0];
    assert Partly(1).running == [Of(0, [7], 2)] == [] + [Of(0, [7], 2)];
  }

  lemma SecondJoins()
    ensures Schedule(Add(Partly(1), [7, 8], 10, 1, 9, [])) == Partly(2)
  {
    var s := Partly(1);
    assert Ceil(2, 2) == 1 by { QuotRem(3, 2); }
    assert s.running == [Of(0, [7], 2)] && s.free == [1, 2];
    JoinsRunning(s, [7, 8], 1, 10, 9, 1);
    hide Schedule, Add;
    assert [1, 2][..1] == [1] && [1, 2][1..] == [2] == Partly(2).free;
    assert Partly(2).running == s.running + [Of(1, [7, 8], 1)];
  }

  lemma ThirdJoins()
    ensures Schedule(Add(Partly(2), [7], 10, 1, 9, [])) == Partly(3)
  {
    var s := Partly(2);
    assert Ceil(1, 2) == 1 by { QuotRem(2, 2); }
    assert s.running == [Of(0, [7], 2), Of(1, [7, 8], 1)] && s.free == [2];
    JoinsRunning(s, [7], 1, 10, 9, 1);
    hide Schedule, Add;
    assert [2][..1] == [2] && [2][1..] == [] == Partly(3).free;
    assert Partly(3).running == s.running + [Of(2, [7], 1)];
  }

  lemma TrioIsReached()
    ensures var c := Init(Settings(8, 2, 3, 512, true));
      && SchedulerRun.Runs(c, ThreeArrive())
      && SchedulerRun.Final(c, ThreeArrive()) == Trio([Of(0, [7], 2), Of(1, [7, 8], 1), Of(2, [7], 1)], [])
  {
    var c := Init(Settings(8, 2, 3, 512, true));
    FirstJoins();
    SecondJoins();
    ThirdJoins();
    AllJoined();
    hide *;
    ThreeJoin(c, Partly(1), Partly(2), Partly(3));
  }

  lemma AllJoined()
    ensures Partly(3) == Trio([Of(0, [7], 2), Of(1, [7, 8], 1), Of(2, [7], 1)], [])
  {
  }

  lemma ThreeJoin(c: Sched, d: Sched, e: Sched, f: Sched)
    requires Schedule(Add(c, [7], 10, 2, 9, [])) == d && Schedule(Add(d, [7, 8], 10, 1, 9, [])) == e
    requires Schedule(Add(e, [7], 10, 1, 9, [])) == f
    ensures SchedulerRun.Runs(c, ThreeArrive()) && SchedulerRun.Final(c, ThreeArrive()) == f
  {
    hide Schedule, Add, SchedulerRun.Runs, SchedulerRun.Final;
    NothingRuns(f);
    JoinEvents(e, [7], 1, []);
    assert JoinBy([7], 1) + [] == JoinBy([7], 1);
    JoinEvents(d, [7, 8], 1, JoinBy([7], 1));
    JoinEvents(c, [7], 2, JoinBy([7, 8], 1) + JoinBy([7], 1));
    assert JoinBy([7], 2) + (JoinBy([7, 8], 1) + JoinBy([7], 1)) == ThreeArrive();
  }

  function JoinBy(prompt: seq<int>, priority: int): seq<SchedulerRun.Event> {
    [SchedulerRun.Arrive(prompt, 10, priority, 9, []), SchedulerRun.Reschedule]
  }

  lemma NothingRuns(s: Sched)
    ensures SchedulerRun.Runs(s, []) && SchedulerRun.Final(s, []) == s
  {
  }

  lemma JoinEvents(s: Sched, prompt: seq<int>, priority: int, rest: seq<SchedulerRun.Event>)
    ensures var d, es := Schedule(Add(s, prompt, 10, priority, 9, [])), JoinBy(prompt, priority) + rest;
      && (SchedulerRun.Runs(s, es) <==> SchedulerRun.Runs(d, rest))
      && SchedulerRun.Final(s, es) == SchedulerRun.Final(d, rest)
  {
    hide Schedule, Add;
    var es := JoinBy(prompt, priority) + rest;
    var a := SchedulerRun.Apply(s, es[0]);
    assert es[1..][0] == SchedulerRun.Reschedule && es[1..][1..] == rest;
    assert SchedulerRun.Runs(a, es[1..]) <==> SchedulerRun.Runs(Schedule(a), rest);
    assert SchedulerRun.Final(a, es[1..]) == SchedulerRun.Final(Schedule(a), rest);
  }

  // The second request takes the block of the first, the third moves up into
  // the place the loop has just left, and its token is dropped. No block is
  // lost.
  lemma TokenIsDropped()
    ensures SchedulerRun.Runs(Init(Settings(8, 2, 3, 512, true)), ThreeArrive())
    ensures var s := SchedulerRun.Final(Init(Settings(8, 2, 3, 512, true)), ThreeArrive());
      var d := Update(s, map[0 := 5, 1 := 6, 2 := 4]);
      && !LeaksIn(s, 0, map[0 := 5, 1 := 6, 2 := 4]) && |d.running| == 2
      && d.running[0].id == 1 && d.running[0].output == [6] && d.running[1].id == 2 && d.running[1].output == []
  {
    hide Init, Update, LeaksIn, SchedulerRun.Runs, SchedulerRun.Final, ThreeArrive, Stash, Trio;
    TrioIsReached();
    TrioUpdates();
  }

  lemma TrioUpdates()
    ensures var s, tokens := Trio([Of(0, [7], 2), Of(1, [7, 8], 1), Of(2, [7], 1)], []), map[0 := 5, 1 := 6, 2 := 4];
      var d := Update(s, tokens);
      && !LeaksIn(s, 0, tokens) && |d.running| == 2
      && d.running[0].id == 1 && d.running[0].output == [6] && d.running[1].id == 2 && d.running[1].output == []
  {
    var x, y, z := Of(0, [7], 2), Of(1, [7, 8], 1), Of(2, [7], 1);
    var s := Trio([x, y, z], []);
    var u, v := x.(output := [5], pos := 2, progress := 1), y.(output := [6], pos := 3, progress := 2);
    var a, d := Trio([u, y, z], []), Trio([v.(blocks := [1, 0]), z], [Stash(u)]);
    hide Deliver, Leaks, Stash, UpdateLoop, LeaksIn, Update;
    FirstStays(x, y, z, u);
    SecondTurn(u, y, v, z);
    TwoTurns(s, a, d);
  }

  lemma TwoTurns(s: Sched, a: Sched, d: Sched)
    requires |s.running| == 3 && s.running[0].id == 0 && Deliver(s, 0, 5) == a && !Leaks(s, 0, 5)
    requires |a.running| == 3 && a.running[1].id == 1 && Deliver(a, 1, 6) == d && !Leaks(a, 1, 6) && |d.running| == 2
    ensures var tokens := map[0 := 5, 1 := 6, 2 := 4]; Update(s, tokens) == d && !LeaksIn(s, 0, tokens)
  {
    var tokens := map[0 := 5, 1 := 6, 2 := 4];
    hide Deliver, Leaks;
    assert UpdateLoop(d, 2, tokens) == d && !LeaksIn(d, 2, tokens);
    assert UpdateLoop(a, 1, tokens) == d && !LeaksIn(a, 1, tokens);
    assert UpdateLoop(s, 0, tokens) == d && !LeaksIn(s, 0, tokens);
  }

  lemma FirstStays(x: Request, y: Request, z: Request, u: Request)
    requires x == Of(0, [7], 2) && u == x.(output := [5], pos := 2, progress := 1)
    ensures var s := Trio([x, y, z], []); Deliver(s, 0, 5) == Trio([u, y, z], []) && !Leaks(s, 0, 5)
  {
    var s := Trio([x, y, z], []);
    assert [] + [5] == [5];
    assert Generate(x, 512, 5) == u;
    assert Ceil(2, 2) == 1 by { QuotRem(3, 2); }
    assert s.running[0 := u] == [u, y, z];
  }

  lemma SecondTurn(u: Request, y: Request, v: Request, z: Request)
    requires y == Of(1, [7, 8], 1) && v == y.(output := [6], pos := 3, progress := 2)
    requires u.id == 0 && z.id == 2 && u.priority == 2 && z.priority == 1 && u.blocks == [0] && z.blocks == [2]
    ensures var a := Trio([u, y, z], []);
      Deliver(a, 1, 6) == Trio([v.(blocks := [1, 0]), z], [Stash(u)]) && !Leaks(a, 1, 6)
  {
    hide Generate, Deficit, Provide, Deliver, Leaks, SelfVictim, VictimOrder, Stash;
    var a, b := Trio([u, y, z], []), Trio([u, v, z], []);
    LongerGrows(y, v);
    assert a.(running := a.running[1 := v]) == b;
    TrioOrder(u, v, z);
    SecondTakes(b, u, v, z);
    SecondIsNoVictim(b, u, v, z);
    TurnIs(a, 1, 6, v, 1);
  }

  // Who stands in the order of the victims already is taken in that order.
  lemma {:induction false} AlreadySorted(running: seq<Request>, n: nat)
    requires n <= |running| && forall i, j :: 0 <= i < j < |running| ==> !Likelier(running[j], running[i])
    ensures VictimOrder(running[..n]) == running[..n]
  {
    hide VictimOrder, Insert, Likelier;
    if n == 0 {
      NoVictims(running);
    } else {
      AlreadySorted(running, n - 1);
      VictimsUnfold(running, n);
      GoesLast(running[..n - 1], running[n - 1]);
      assert running[..n] == running[..n - 1] + [running[n - 1]];
    }
  }

  lemma TrioOrder(u: Request, v: Request, z: Request)
    requires u.priority == 2 && v.priority == z.priority == 1 && |u.blocks| == |v.blocks| == |z.blocks|
    ensures VictimOrder([u, v, z]) == [u, v, z]
  {
    hide VictimOrder;
    AlreadySorted([u, v, z], 3);
    assert [u, v, z][..3] == [u, v, z];
  }

  lemma {:induction false} GoesLast(sorted: seq<Request>, r: Request)
    requires forall i :: 0 <= i < |sorted| ==> !Likelier(r, sorted[i])
    ensures Insert(sorted, r) == sorted + [r]
  {
    if sorted != [] {
      GoesLast(sorted[1..], r);
      assert sorted + [r] == [sorted[0]] + (sorted[1..] + [r]);
    }
  }

  lemma SecondIsNoVictim(b: Sched, u: Request, v: Request, z: Request)
    requires b == Trio([u, v, z], []) && u.id == 0 && v.id == 1 && u.priority == 2 && u.blocks == [0]
    requires VictimOrder([u, v, z]) == [u, v, z]
    ensures !SelfVictim(b, v, 1)
  {
    hide VictimOrder;
    assert [u, v, z][1..] == [v, z] && [u][1..] == [];
    assert Ahead([u, v, z], 1) == [u] + Ahead([v, z], 1) == [u];
    assert Weight(b, [u]) == 1;
  }

  lemma SecondTakes(b: Sched, u: Request, v: Request, z: Request)
    requires b == Trio([u, v, z], []) && u.id == 0 && v.id == 1 && z.id == 2 && u.priority == 2
    requires u.blocks == [0] && v.blocks == [1] && VictimOrder([u, v, z]) == [u, v, z]
    ensures Provide(b, 1, 1) == Trio([v.(blocks := [1, 0]), z], [Stash(u)])
  {
    hide VictimOrder;
    assert [u, v, z][1..] == [v, z] && [] + [Stash(u)] == [Stash(u)];
    assert ReturnBlocks([], [0]) == [0] by { assert [0][1..] == []; assert [] + [0] == [0]; }
    var p := Trio([v, z], [Stash(u)]).(free := [0]);
    assert Preempt(b, u) == p;
    assert PreemptLoop(p, [v, z], 1, 1) == (p, 1);
    assert PreemptLoop(b, [u, v, z], 1, 0) == (p, 1);
    assert TryPreempt(b, 1) == (p, true);
    assert [0][..1] == [0] && [0][1..] == [] && [1] + [0] == [1, 0];
    assert Obtain(b, 1) == (p.(free := []), Some([0]));
    var d := Change(p.(free := []), 1, Grow([0]));
    assert d.running == [v.(blocks := [1, 0]), z] && d.preempted == [Stash(u)];
  }

  // ---- A position that is skipped ----

  function Newcomer(id: int, x: int, y: int): Request {
    Request(id, [x, y], 10, 2, [], PENDING, [], [], 0, 0, 0, 0, None)
  }

  function Arrival(x: int, y: int): Event {
    Arrive([x, y], 10, 0, 2, [])
  }

  // Two prompts of two tokens, and a budget of three.
  function Queued(x: int, y: int): Sched {
    Sched(Settings(8, 16, 8, 3, false), [Newcomer(0, x, y), Newcomer(1, x, y)], [], [], [], seq(8, i => i), 2, 0)
  }

  lemma QueuedIsReached(x: int, y: int)
    ensures var c := Init(Settings(8, 16, 8, 3, false)); var es := [Arrival(x, y), Arrival(x, y)];
      SmoothRun(c, map[], es) && End(c, map[], es) == (Queued(x, y), map[])
    ensures Sound(Queued(x, y), map[])
  {
    var c := Init(Settings(8, 16, 8, 3, false));
    var e := Arrival(x, y);
    var a := c.(pending := [Newcomer(0, x, y)], nextId := 1);
    assert [Newcomer(0, x, y)] + [] == [Newcomer(0, x, y)];
    assert After(c, map[], e) == (a, map[]);
    assert After(a, map[], e) == (Queued(x, y), map[]) by {
      assert [Newcomer(1, x, y)] + [] == [Newcomer(1, x, y)] && [Newcomer(0, x, y)][1..] == [];
      assert Push([Newcomer(0, x, y)], Newcomer(1, x, y)) == [Newcomer(0, x, y)] + Push([], Newcomer(1, x, y));
      assert [Newcomer(0, x, y)] + [Newcomer(1, x, y)] == [Newcomer(0, x, y), Newcomer(1, x, y)];
      assert a.free == Queued(x, y).free;
    }
    hide Sound, After, Smooth;
    var es := [e, e];
    TwoSmooth(c, a, Queued(x, y), map[], e);
    InitSound(c.cfg);
    RunSound(c, map[], es);
  }

  lemma TwoSmooth(s: Sched, t: Sched, u: Sched, log: Log, e: Event)
    requires Smooth(s, e) && After(s, log, e) == (t, log) && Smooth(t, e) && After(t, log, e) == (u, log)
    ensures SmoothRun(s, log, [e, e]) && End(s, log, [e, e]) == (u, log)
  {
    hide After, Smooth;
    var es := [e, e];
    assert es[0] == e && es[1..][0] == e && es[1..][1..] == [];
    assert SmoothRun(u, log, es[1..][1..]) && End(u, log, es[1..][1..]) == (u, log);
    assert SmoothRun(t, log, es[1..]) && End(t, log, es[1..]) == (u, log);
  }

  function Running(id: int, x: int, y: int): Request {
    Newcomer(id, x, y).(status := RUNNING, blocks := [id])
  }

  // Both requests start.
  function Started(x: int, y: int): Sched {
    Queued(x, y).(pending := [], running := [Running(0, x, y), Running(1, x, y)], free := seq(6, i => i + 2), step := 1)
  }

  lemma BothStart(x: int, y: int)
    ensures Schedule(Queued(x, y)) == Started(x, y)
  {
    var m := Queued(x, y).(step := 1);
    assert Ceil(2, 16) == 1 by { QuotRem(17, 16); }
    AdmitOne(m, 1);
    var a := Start(m.(free := m.free[1..]), m.free[..1]);
    assert m.free[..1] == [0] && a.free[..1] == [1] && a.free[1..] == seq(6, i => i + 2);
    assert a.pending == [Newcomer(1, x, y)] && a.running == [Running(0, x, y)];
    AdmitOne(a, 1);
    assert Start(a.(free := a.free[1..]), a.free[..1]) == Started(x, y);
    assert Schedule(Queued(x, y)) == Admit(m);
  }

  function Answered(id: int, x: int, y: int, token: int): Request {
    Running(id, x, y).(output := [token], pos := 3, progress := 2)
  }

  // After the step of both, no blocks are needed, and both prompts count as
  // fed.
  function Stepped(x: int, y: int, u: int, v: int): Sched {
    Started(x, y).(running := [Answered(0, x, y, u), Answered(1, x, y, v)])
  }

  lemma BothAnswered(x: int, y: int, u: int, v: int)
    ensures var s := Started(x, y);
      Update(s, map[0 := u, 1 := v]) == Stepped(x, y, u, v) && Unpreempted(s, 0, map[0 := u, 1 := v])
  {
    var s, tokens := Started(x, y), map[0 := u, 1 := v];
    var a, t := s.(running := [Answered(0, x, y, u), Running(1, x, y)]), Stepped(x, y, u, v);
    OneAnswered(s, 0, u);
    assert [] + [u] == [u] && [] + [v] == [v];
    assert Generate(s.running[0], 3, u) == Answered(0, x, y, u) && Generate(a.running[1], 3, v) == Answered(1, x, y, v);
    assert a.running == s.running[0 := Generate(s.running[0], 3, u)];
    OneAnswered(a, 1, v);
    assert t.running == a.running[1 := Generate(a.running[1], 3, v)];
    hide Deliver;
    assert UpdateLoop(t, 2, tokens) == t && Unpreempted(t, 2, tokens);
    assert UpdateLoop(a, 1, tokens) == t && Unpreempted(a, 1, tokens);
  }

  lemma OneAnswered(s: Sched, i: nat, token: int)
    requires i < |s.running| && s.cfg.blockSize == 16 && Total(s.running[i]) == 2 && |s.running[i].blocks| == 1
    ensures Deliver(s, i, token) == s.(running := s.running[i := Generate(s.running[i], s.cfg.maxPrefill, token)])
  {
    assert Ceil(3, 16) == 1 by { QuotRem(18, 16); }
  }

  lemma NobodyFinished(x: int, y: int, u: int, v: int)
    requires u != 2 && v != 2
    ensures Schedule(Stepped(x, y, u, v)) == Stepped(x, y, u, v).(step := 2)
  {
    var r, q, t := Answered(0, x, y, u), Answered(1, x, y, v), Stepped(x, y, u, v);
    assert [r, q][1..] == [q] && [q][1..] == [] && [] + [r] == [r] && [r] + [q] == [r, q];
    var e := t.(step := 2, running := []);
    assert MoveFinished(e.(running := [r, q]), []) == e.(running := [r, q]);
    assert MoveFinished(e.(running := [r]), [q]) == e.(running := [r, q]);
    assert MoveFinished(e, [r, q]) == e.(running := [r, q]);
  }

  // What the two turns feed.
  lemma TwoBatches(x: int, y: int, u: int, v: int)
    ensures Pieces(Started(x, y).running, 3) == [Piece(0, [x, y], [0, 1], true), Piece(1, [x], [0], true)]
    ensures Pieces(Stepped(x, y, u, v).running, 3) == [Piece(0, [u], [2], false), Piece(1, [v], [2], false)]
  {
    var r, q := Running(0, x, y), Running(1, x, y);
    assert [r, q][1..] == [q] && [q][1..] == [] && [x, y][0..2] == [x, y] && [x, y][0..1] == [x];
    assert Range(0, 2) == [0, 1] && Range(0, 1) == [0];
    assert Pieces([q], 1) == [Piece(1, [x], [0], true)];
    var a, b := Answered(0, x, y, u), Answered(1, x, y, v);
    assert [a, b][1..] == [b] && [b][1..] == [];
    assert Pieces([b], 3) == [Piece(1, [v], [2], false)];
  }

  lemma FirstLog(x: int, y: int)
    ensures var ps := [Piece(0, [x, y], [0, 1], true), Piece(1, [x], [0], true)];
      var log := FeedAll(map[], ps); LogOf(log, 0) == [(0, x), (1, y)] && LogOf(log, 1) == [(0, x)]
  {
    var p, q := Piece(0, [x, y], [0, 1], true), Piece(1, [x], [0], true);
    assert [p, q][1..] == [q] && [q][1..] == [];
    assert Pairs(p) == [(0, x), (1, y)] && Pairs(q) == [(0, x)];
    assert [] + Pairs(p) == Pairs(p) && [] + Pairs(q) == Pairs(q);
    assert Feed(map[], p) == map[0 := Pairs(p)];
    assert FeedAll(Feed(map[], p), [q]) == Feed(Feed(map[], p), q);
  }

  // The second request is fed position 0 in one turn and position 2 in the
  // next: position 1 of its prompt is never fed.
  lemma SecondPromptSkips(x: int, y: int, u: int, v: int)
    requires u != 2 && v != 2
    ensures Sound(Queued(x, y), map[]) && Calm(Queued(x, y), map[0 := u, 1 := v])
    ensures !Fits(Schedule(Queued(x, y)).running, 3)
    ensures var (t, log) := After(Queued(x, y), map[], Turn(map[0 := u, 1 := v]));
      && !AllInStep(t.running, log) && LogOf(log, 0) == [(0, x), (1, y)] && LogOf(log, 1) == [(0, x)]
      && Batch(t) == [Piece(0, [u], [2], false), Piece(1, [v], [2], false)]
  {
    hide Schedule, Update, Unpreempted, FeedAll, Sound, AllInStep;
    QueuedIsReached(x, y);
    BothStart(x, y);
    BothAnswered(x, y, u, v);
    NobodyFinished(x, y, u, v);
    TwoBatches(x, y, u, v);
    FirstLog(x, y);
    var running := [Running(0, x, y), Running(1, x, y)];
    assert running[1..] == [Running(1, x, y)] && running[..2] == running && [Running(1, x, y)][1..] == [];
    assert Outstanding([Running(1, x, y)]) == 2 && Outstanding(running) == 4;
    assert Remaining(running[1]) == 2 && Outstanding(running[..1 + 1]) == 4;
    TurnInStepIff(Queued(x, y), map[], map[0 := u, 1 := v]);
  }
}
