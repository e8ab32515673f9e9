// Which running requests an update reaches: the loop goes by place in a list
// that preemption shortens, so it may pass over a request and drop its token
// (tr_hash_i64/engine/i64_scheduler.py).
module SchedulerTurns {
  import opened Prelude
  import opened SchedulerSpec
  import opened SchedulerInv
  import opened SchedulerOrder
  import opened SchedulerPolicy
  import opened SchedulerRun

  // ---- What stays of a list, in its order ----

  function Ids(list: seq<Request>): (ids: seq<int>)
    ensures |ids| == |list| && forall i :: 0 <= i < |list| ==> ids[i] == list[i].id
  {
    seq(|list|, i requires 0 <= i < |list| => list[i].id)
  }

  // The ids of a list that are also in another one.
  function Those(ids: seq<int>, left: seq<int>): (r: seq<int>)
    ensures |r| <= |ids|
  {
    if ids == [] then [] else (if ids[0] in left then [ids[0]] else []) + Those(ids[1..], left)
  }

  ghost predicate InTheirOrder(ids: seq<int>, left: seq<int>) {
    left == Those(ids, left)
  }

  lemma {:induction false} ThoseIn(ids: seq<int>, left: seq<int>)
    ensures forall x :: x in Those(ids, left) <==> x in ids && x in left
  {
    if ids != [] { ThoseIn(ids[1..], left); }
  }

  lemma {:induction false} ThoseAll(ids: seq<int>, left: seq<int>)
    requires forall k :: 0 <= k < |ids| ==> ids[k] in left
    ensures Those(ids, left) == ids
  {
    if ids != [] {
      ThoseAll(ids[1..], left);
      assert ids == [ids[0]] + ids[1..];
    }
  }

  lemma {:induction false} ThoseOfThose(ids: seq<int>, some: seq<int>, fewer: seq<int>)
    requires forall x :: x in fewer ==> x in some
    ensures Those(Those(ids, some), fewer) == Those(ids, fewer)
  {
    if ids != [] {
      var rest := Those(ids[1..], some);
      ThoseOfThose(ids[1..], some, fewer);
      if ids[0] in some {
        assert ([ids[0]] + rest)[1..] == rest;
      } else {
        assert [] + rest == rest && ids[0] !in fewer;
      }
    }
  }

  lemma InOrderTwice(ids: seq<int>, some: seq<int>, fewer: seq<int>)
    requires InTheirOrder(ids, some) && InTheirOrder(some, fewer)
    ensures InTheirOrder(ids, fewer)
  {
    ThoseIn(some, fewer);
    ThoseOfThose(ids, some, fewer);
  }

  lemma {:induction false} WithoutInOrder(list: seq<Request>, id: int)
    requires AllDiffer(list)
    ensures InTheirOrder(Ids(list), Ids(WithoutId(list, id))) && AllDiffer(WithoutId(list, id))
    ensures forall x :: x in Ids(WithoutId(list, id)) ==> x in Ids(list)
  {
    if list != [] {
      var rest := list[1..];
      assert Ids(list)[1..] == Ids(rest);
      if list[0].id == id {
        ThoseAll(Ids(rest), Ids(rest));
        assert list[0].id !in Ids(rest);
      } else {
        WithoutInOrder(rest, id);
        var t := WithoutId(rest, id);
        assert WithoutId(list, id) == [list[0]] + t && Ids([list[0]] + t) == [list[0].id] + Ids(t);
        assert list[0].id !in Ids(rest);
        MoreLeft(Ids(rest), Ids(t), list[0].id);
      }
    }
  }

  lemma {:induction false} MoreLeft(ids: seq<int>, left: seq<int>, x: int)
    requires x !in ids
    ensures Those(ids, [x] + left) == Those(ids, left)
  {
    if ids != [] { MoreLeft(ids[1..], left, x); }
  }

  lemma {:induction false} LoopInOrder(s: Sched, candidates: seq<Request>, needed: int, freed: int)
    requires AllDiffer(s.running)
    ensures InTheirOrder(Ids(s.running), Ids(PreemptLoop(s, candidates, needed, freed).0.running))
    decreases |candidates|
  {
    if candidates == [] || freed >= needed {
      ThoseAll(Ids(s.running), Ids(s.running));
    } else if Spared(s, candidates[0]) {
      LoopInOrder(s, candidates[1..], needed, freed);
    } else {
      var p := Preempt(s, candidates[0]);
      WithoutInOrder(s.running, candidates[0].id);
      LoopInOrder(p, candidates[1..], needed, freed + |candidates[0].blocks|);
      InOrderTwice(Ids(s.running), Ids(p.running),
                   Ids(PreemptLoop(p, candidates[1..], needed, freed + |candidates[0].blocks|).0.running));
    }
  }

  // Where an id stands in what is left: behind those before it that are left.
  lemma {:induction false} PlaceLeft(ids: seq<int>, left: seq<int>, j: nat)
    requires j < |ids| && ids[j] in left
    ensures |Those(ids[..j], left)| < |Those(ids, left)| && Those(ids, left)[|Those(ids[..j], left)|] == ids[j]
  {
    if j > 0 {
      PlaceLeft(ids[1..], left, j - 1);
      assert ids[..j][1..] == ids[1..][..j - 1];
    }
  }

  // None is missing exactly when all are left.
  lemma {:induction false} AllLeftIff(ids: seq<int>, left: seq<int>)
    ensures |Those(ids, left)| == |ids| <==> forall k :: 0 <= k < |ids| ==> ids[k] in left
  {
    if ids != [] {
      AllLeftIff(ids[1..], left);
      assert forall k :: 0 <= k < |ids| - 1 ==> ids[1..][k] == ids[k + 1];
      if |Those(ids, left)| == |ids| {
        forall k | 0 <= k < |ids| ensures ids[k] in left {
          if k > 0 { assert ids[k] == ids[1..][k - 1]; }
        }
      }
    }
  }

  lemma {:induction false} NoneLeft(ids: seq<int>, more: seq<int>, left: seq<int>)
    requires forall k :: 0 <= k < |more| ==> more[k] !in left
    ensures Those(ids + more, left) == Those(ids, left)
  {
    if ids == [] {
      assert ids + more == more;
      if more != [] {
        assert [] + more[1..] == more[1..];
        NoneLeft([], more[1..], left);
        assert Those(more, left) == [] + Those(more[1..], left);
      }
    } else {
      assert (ids + more)[1..] == ids[1..] + more;
      NoneLeft(ids[1..], more, left);
    }
  }

  // ---- One turn ----

  // Whether the turn of a request makes this one give up its blocks.
  ghost predicate MakesWay(s: Sched, i: nat, token: int, r: Request)
    requires i < |s.running|
  {
    var g := Generate(s.running[i], s.cfg.maxPrefill, token);
    var running := s.running[i := g];
    var n := Deficit(g, s.cfg.blockSize);
    && n > |s.free| && s.cfg.preemption && (r.priority > 0 || s.pending != [])
    && Weight(s, Ahead(VictimOrder(running), r.id)) < n
  }

  lemma {:induction false} WeightSame(s: Sched, q: Sched, list: seq<Request>)
    requires s.pending == q.pending
    ensures Weight(s, list) == Weight(q, list)
  {
    if list != [] { WeightSame(s, q, list[1..]); }
  }

  lemma ProvideTakesIff(s: Sched, id: int, n: int, r: Request)
    requires Lawful(s) && r in s.running
    ensures r.id !in Ids(Provide(s, id, n).running) <==>
      && n > |s.free| && s.cfg.preemption && (r.priority > 0 || s.pending != [])
      && Weight(s, Ahead(VictimOrder(s.running), r.id)) < n
  {
    hide Lawful, VictimOrder, Weight, Ahead, TryPreempt;
    assert r.id in Ids(s.running) by { IdOf(s.running, r); }
    if n > |s.free| {
      var q := Obtain(s, n).0.running;
      CountIds(q, r.id);
      PreemptedIff(s, n, r);
      PutIds(q, id, Stop());
      if Obtain(s, n).1.Some? { PutIds(q, id, Grow(Obtain(s, n).1.value)); }
    } else if n > 0 {
      PutIds(s.running, id, Grow(s.free[..n]));
    }
  }

  lemma IdOf(list: seq<Request>, r: Request)
    requires r in list
    ensures r.id in Ids(list)
  {
    var k :| 0 <= k < |list| && list[k] == r;
    assert Ids(list)[k] == r.id;
  }

  lemma TurnTakesIff(s: Sched, i: nat, token: int, k: nat)
    requires Lawful(s) && i < |s.running| && k < |s.running|
    ensures s.running[k].id !in Ids(Deliver(s, i, token).running) <==> MakesWay(s, i, token, s.running[k])
  {
    var g := Generate(s.running[i], s.cfg.maxPrefill, token);
    var q := s.(running := s.running[i := g]);
    assert g.id == s.running[i].id && g.blocks == s.running[i].blocks && g.priority == s.running[i].priority;
    GeneratedKeeps(s, i, g);
    var r := q.running[k];
    assert r.id == s.running[k].id && r.priority == s.running[k].priority;
    hide Generate, Lawful, VictimOrder, Weight, Ahead, Provide, Deficit;
    WeightSame(s, q, Ahead(VictimOrder(q.running), r.id));
    ProvideTakesIff(q, g.id, Deficit(g, s.cfg.blockSize), r);
  }

  lemma PutIds(list: seq<Request>, id: int, f: Request -> Request)
    requires forall r: Request :: f(r).id == r.id
    ensures Ids(Put(list, id, f)) == Ids(list)
  {
  }

  lemma {:induction false} CountIds(list: seq<Request>, id: int)
    ensures Count(list, Id, id) == 0 <==> id !in Ids(list)
  {
    if list != [] {
      CountIds(list[1..], id);
      assert Ids(list) == [list[0].id] + Ids(list[1..]);
    }
  }

  lemma ObtainInOrder(s: Sched, n: nat)
    requires AllDiffer(s.running)
    ensures InTheirOrder(Ids(s.running), Ids(Obtain(s, n).0.running))
  {
    ThoseAll(Ids(s.running), Ids(s.running));
    if n > |s.free| && s.cfg.preemption && s.running != [] { LoopInOrder(s, VictimOrder(s.running), n, 0); }
    hide PreemptLoop, VictimOrder, AllDiffer, InTheirOrder;
  }

  lemma ProvideInOrder(s: Sched, id: int, n: int)
    requires AllDiffer(s.running)
    ensures InTheirOrder(Ids(s.running), Ids(Provide(s, id, n).running))
  {
    hide AllDiffer, Obtain;
    ThoseAll(Ids(s.running), Ids(s.running));
    if n > 0 {
      ObtainInOrder(s, n);
      var (q, blocks) := Obtain(s, n);
      PutIds(q.running, id, Stop());
      if blocks.Some? { PutIds(q.running, id, Grow(blocks.value)); }
    }
  }

  lemma TurnInOrder(s: Sched, i: nat, token: int)
    requires Lawful(s) && i < |s.running|
    ensures InTheirOrder(Ids(s.running), Ids(Deliver(s, i, token).running))
  {
    var g := Generate(s.running[i], s.cfg.maxPrefill, token);
    var q := s.(running := s.running[i := g]);
    RunningDiffer(s);
    assert Ids(q.running) == Ids(s.running) && AllDiffer(q.running);
    hide Generate, Lawful, Deficit, AllDiffer, Provide;
    ProvideInOrder(q, g.id, Deficit(g, s.cfg.blockSize));
  }

  // After a turn the loop goes on at the next place. The next request that
  // still runs stands there, and is given its token, exactly when nobody up to
  // the turn made way; otherwise the loop passes over it.
  lemma PassedOverIff(s: Sched, i: nat, tokens: map<int, int>, j: nat)
    requires Lawful(s) && i < j < |s.running| && s.running[i].id in tokens && s.running[j].id in tokens
    requires !MakesWay(s, i, tokens[s.running[i].id], s.running[j])
    requires forall k :: i < k < j ==> MakesWay(s, i, tokens[s.running[i].id], s.running[k])
    ensures Served(s, i, tokens, s.running[j].id) <==>
      forall k :: 0 <= k <= i ==> !MakesWay(s, i, tokens[s.running[i].id], s.running[k])
  {
    var token, id := tokens[s.running[i].id], s.running[j].id;
    var d := Deliver(s, i, token);
    TurnLeaves(s, i, token);
    DeliverShrinks(s, i, token);
    hide Deliver, MakesWay, Lawful, InTheirOrder, Those;
    NextPlaceIff(Ids(s.running), Ids(d.running), i, j);
    ServedNext(s, d, i, tokens, id);
  }

  lemma ServedNext(s: Sched, d: Sched, i: nat, tokens: map<int, int>, id: int)
    requires i < |s.running| && s.running[i].id in tokens && d == Deliver(s, i, tokens[s.running[i].id])
    requires id in tokens && s.running[i].id != id
    requires (exists k :: i < k < |d.running| && Ids(d.running)[k] == id) ==>
      i + 1 < |d.running| && Ids(d.running)[i + 1] == id
    ensures Served(s, i, tokens, id) <==> i + 1 < |d.running| && Ids(d.running)[i + 1] == id
  {
    DeliverShrinks(s, i, tokens[s.running[i].id]);
    hide Deliver;
    if !(i + 1 < |d.running| && Ids(d.running)[i + 1] == id) {
      forall k | i + 1 <= k < |d.running| ensures d.running[k].id != id { assert Ids(d.running)[k] == d.running[k].id; }
      NotAgain(d, i + 1, tokens, id);
    }
  }

  // The ids that are left after a turn.
  lemma TurnLeaves(s: Sched, i: nat, token: int)
    requires Lawful(s) && i < |s.running|
    ensures Distinct(Ids(s.running)) && InTheirOrder(Ids(s.running), Ids(Deliver(s, i, token).running))
    ensures forall k :: 0 <= k < |s.running| ==>
      (Ids(s.running)[k] !in Ids(Deliver(s, i, token).running) <==> MakesWay(s, i, token, s.running[k]))
  {
    RunningDiffer(s);
    TurnInOrder(s, i, token);
    forall k | 0 <= k < |s.running|
      ensures Ids(s.running)[k] !in Ids(Deliver(s, i, token).running) <==> MakesWay(s, i, token, s.running[k])
    {
      TurnTakesIff(s, i, token, k);
    }
  }

  // The next of the ids that are left stands behind place i exactly when all
  // ids up to there are left.
  lemma NextPlaceIff(ids: seq<int>, left: seq<int>, i: nat, j: nat)
    requires Distinct(ids) && InTheirOrder(ids, left) && i < j < |ids| && ids[j] in left
    requires forall k :: i < k < j ==> ids[k] !in left
    ensures (i + 1 < |left| && left[i + 1] == ids[j]) <==> forall k :: 0 <= k <= i ==> ids[k] in left
    ensures (exists k :: i < k < |left| && left[k] == ids[j]) ==> i + 1 < |left| && left[i + 1] == ids[j]
  {
    var front, gone := ids[..i + 1], ids[i + 1..j];
    hide Distinct;
    PlaceLeft(ids, left, j);
    assert ids[..j] == front + gone;
    forall k | 0 <= k < |gone| ensures gone[k] !in left { assert gone[k] == ids[i + 1 + k]; }
    NoneLeft(front, gone, left);
    AllLeftIff(front, left);
    var p := |Those(front, left)|;
    assert left[p] == ids[j] && p <= i + 1;
    forall k | p < k < |left| ensures left[k] != ids[j] { LeftDiffer(ids, left, p, k); }
    if p == i + 1 {
      forall k | 0 <= k <= i ensures ids[k] in left { assert front[k] == ids[k]; }
    } else {
      var k :| 0 <= k < |front| && front[k] !in left;
      assert ids[k] !in left;
    }
  }

  lemma LeftDiffer(ids: seq<int>, left: seq<int>, p: nat, q: nat)
    requires Distinct(ids) && InTheirOrder(ids, left) && p < q < |left|
    ensures left[p] != left[q]
  {
    ThoseDiffer(ids, left);
  }

  lemma {:induction false} ThoseDiffer(ids: seq<int>, left: seq<int>)
    requires Distinct(ids)
    ensures Distinct(Those(ids, left))
  {
    if ids != [] {
      ThoseDiffer(ids[1..], left);
      ThoseIn(ids[1..], left);
      assert ids[0] !in ids[1..];
    }
  }

  // ---- The whole update ----

  // No turn makes anybody at or before its own place give up its blocks.
  ghost predicate Steady(s: Sched, i: nat, tokens: map<int, int>)
    decreases |s.running| - i
  {
    i < |s.running| ==>
      if s.running[i].id !in tokens then Steady(s, i + 1, tokens)
      else
        var token := tokens[s.running[i].id];
        DeliverShrinks(s, i, token);
        && (forall k :: 0 <= k <= i ==> !MakesWay(s, i, token, s.running[k]))
        && Steady(Deliver(s, i, token), i + 1, tokens)
  }

  lemma StaysBehind(s: Sched, i: nat, token: int, j: nat)
    requires Lawful(s) && i < j < |s.running| && s.running[j].id in Ids(Deliver(s, i, token).running)
    requires forall k :: 0 <= k <= i ==> !MakesWay(s, i, token, s.running[k])
    ensures var d := Deliver(s, i, token); exists k :: i < k < |d.running| && d.running[k].id == s.running[j].id
  {
    var d := Deliver(s, i, token);
    TurnLeaves(s, i, token);
    hide Deliver, MakesWay, Lawful, InTheirOrder;
    var p := PlaceBehind(Ids(s.running), Ids(d.running), i, j);
    assert d.running[p].id == s.running[j].id;
  }

  lemma PlaceBehind(ids: seq<int>, left: seq<int>, i: nat, j: nat) returns (p: nat)
    requires InTheirOrder(ids, left) && i < j < |ids| && ids[j] in left
    requires forall k :: 0 <= k <= i ==> ids[k] in left
    ensures i < p < |left| && left[p] == ids[j]
  {
    var front := ids[..i + 1];
    PlaceLeft(ids, left, j);
    forall k | 0 <= k < |front| ensures front[k] in left { assert front[k] == ids[k]; }
    AllLeftIff(front, left);
    assert ids[..j] == front + ids[i + 1..j];
    ThoseMore(front, ids[i + 1..j], left);
    p := |Those(ids[..j], left)|;
  }

  lemma {:induction false} ThoseMore(ids: seq<int>, more: seq<int>, left: seq<int>)
    ensures |Those(ids + more, left)| >= |Those(ids, left)|
  {
    if ids != [] {
      assert (ids + more)[1..] == ids[1..] + more;
      ThoseMore(ids[1..], more, left);
    }
  }

  // Who has left the running requests does not come back in this update.
  lemma {:induction false} GoneForGood(s: Sched, i: nat, tokens: map<int, int>, id: int)
    requires Lawful(s) && id in Ids(UpdateLoop(s, i, tokens).running)
    ensures id in Ids(s.running)
    decreases |s.running| - i
  {
    if i < |s.running| {
      if s.running[i].id !in tokens {
        GoneForGood(s, i + 1, tokens, id);
      } else {
        var token := tokens[s.running[i].id];
        DeliverKeeps(s, i, token);
        TurnInOrder(s, i, token);
        DeliverShrinks(s, i, token);
        hide Deliver, Lawful;
        GoneForGood(Deliver(s, i, token), i + 1, tokens, id);
        ThoseIn(Ids(s.running), Ids(Deliver(s, i, token).running));
      }
    }
  }

  // Then nobody's token is dropped: who is still running has had its turn.
  lemma {:induction false} SteadyServes(s: Sched, i: nat, tokens: map<int, int>, j: nat)
    requires Lawful(s) && Steady(s, i, tokens) && i <= j < |s.running| && s.running[j].id in tokens
    requires s.running[j].id in Ids(UpdateLoop(s, i, tokens).running)
    ensures Served(s, i, tokens, s.running[j].id)
    decreases |s.running| - i
  {
    if s.running[i].id !in tokens {
      SteadyServes(s, i + 1, tokens, j);
    } else if i < j {
      var token := tokens[s.running[i].id];
      DeliverKeeps(s, i, token);
      DeliverShrinks(s, i, token);
      hide Deliver, Lawful, MakesWay;
      var d := Deliver(s, i, token);
      GoneForGood(d, i + 1, tokens, s.running[j].id);
      StaysBehind(s, i, token, j);
      var k :| i < k < |d.running| && d.running[k].id == s.running[j].id;
      SteadyServes(d, i + 1, tokens, k);
    }
  }

  // ---- Who is stopped for want of blocks ----

  lemma {:induction false} WeightInsert(s: Sched, sorted: seq<Request>, r: Request)
    ensures Weight(s, Insert(sorted, r)) == Weight(s, sorted) + Weight(s, [r])
  {
    if sorted == [] {
      assert [r][1..] == [];
    } else if Likelier(r, sorted[0]) {
      assert ([r] + sorted)[1..] == sorted && [r][1..] == [];
    } else {
      WeightInsert(s, sorted[1..], r);
      assert ([sorted[0]] + Insert(sorted[1..], r))[1..] == Insert(sorted[1..], r);
    }
  }

  lemma {:induction false} WeightSnoc(s: Sched, list: seq<Request>, r: Request)
    ensures Weight(s, list + [r]) == Weight(s, list) + Weight(s, [r])
  {
    if list == [] {
      assert list + [r] == [r];
    } else {
      WeightSnoc(s, list[1..], r);
      assert (list + [r])[1..] == list[1..] + [r];
    }
  }

  lemma {:induction false} WeightOfVictims(s: Sched, running: seq<Request>)
    ensures Weight(s, VictimOrder(running)) == Weight(s, running)
  {
    hide Insert, Weight;
    if running != [] {
      var n := |running| - 1;
      WeightOfVictims(s, running[..n]);
      WeightInsert(s, VictimOrder(running[..n]), running[n]);
      WeightSnoc(s, running[..n], running[n]);
      assert running == running[..n] + [running[n]];
    }
  }

  // Blocks are obtained exactly when so many are free, or the running
  // requests that may be preempted hold so many: what is free already does
  // not count towards that.
  lemma ObtainsIff(s: Sched, n: nat)
    requires Lawful(s)
    ensures Obtain(s, n).1.Some? <==> n <= |s.free| || (s.cfg.preemption && Weight(s, s.running) >= n)
  {
    hide Lawful, VictimOrder, PreemptLoop;
    WeightOfVictims(s, s.running);
    if n > |s.free| {
      LoopFrees(s, s, VictimOrder(s.running), n, 0);
      if Obtain(s, n).1.None? { GrantsWhenFreed(s, n); }
    }
  }

  lemma {:induction false} LoopMembers(s: Sched, candidates: seq<Request>, needed: int, freed: int)
    ensures var q := PreemptLoop(s, candidates, needed, freed).0;
      && (forall x :: x in q.running ==> x in s.running)
      && (forall x :: x in q.preempted ==> x in s.preempted || x.status == PREEMPTED)
    decreases |candidates|
  {
    if candidates != [] && freed < needed {
      if Spared(s, candidates[0]) {
        LoopMembers(s, candidates[1..], needed, freed);
      } else {
        WithoutMembers(s.running, candidates[0].id);
        LoopMembers(Preempt(s, candidates[0]), candidates[1..], needed, freed + |candidates[0].blocks|);
      }
    }
  }

  lemma {:induction false} WithoutMembers(list: seq<Request>, id: int)
    ensures forall x :: x in WithoutId(list, id) ==> x in list
  {
    if list != [] { WithoutMembers(list[1..], id); }
  }

  lemma ObtainMembers(s: Sched, n: nat)
    ensures var q := Obtain(s, n).0;
      && (forall x :: x in q.running ==> x in s.running)
      && (forall x :: x in q.preempted ==> x in s.preempted || x.status == PREEMPTED)
  {
    hide PreemptLoop, VictimOrder;
    if n > |s.free| && s.cfg.preemption && s.running != [] { LoopMembers(s, VictimOrder(s.running), n, 0); }
  }

  // A turn stops its request exactly when the blocks it has come to need are
  // neither free nor held by requests that may be preempted.
  lemma TurnStopsIff(s: Sched, i: nat, token: int, x: Request)
    requires Lawful(s) && i < |s.running| && s.running[i].status == RUNNING
    requires var d := Deliver(s, i, token); (x in d.running || x in d.preempted) && x.id == s.running[i].id
    ensures var g := Generate(s.running[i], s.cfg.maxPrefill, token);
      var n := Deficit(g, s.cfg.blockSize);
      x.status == FINISHED <==>
        n > |s.free| && !(s.cfg.preemption && Weight(s, s.running[i := g]) >= n)
  {
    var g := Generate(s.running[i], s.cfg.maxPrefill, token);
    var q := s.(running := s.running[i := g]);
    var n := Deficit(g, s.cfg.blockSize);
    assert g.id == s.running[i].id && g.blocks == s.running[i].blocks && g.status == RUNNING;
    GeneratedKeeps(s, i, g);
    WeightSame(s, q, q.running);
    assert q.running[i] == g;
    hide Generate, Lawful, Weight, Deficit, Obtain;
    if n > 0 {
      ObtainsIff(q, n);
      ObtainMembers(q, n);
      ChangedStatus(q, n, g, x);
    } else {
      OnlyRunning(q, g, x);
    }
  }

  lemma OnlyRunning(q: Sched, g: Request, y: Request)
    requires Lawful(q) && g in q.running && y.id == g.id
    ensures y !in q.preempted && (y in q.running ==> y == g)
  {
    RunningDiffer(q);
    if y in q.running { SameById(q.running, g, y); }
    if y in q.preempted { QueuedOnce(q, y, g); }
  }

  lemma ChangedStatus(q: Sched, n: nat, g: Request, x: Request)
    requires Lawful(q) && g in q.running && g.status == RUNNING && n > 0 && x.id == g.id
    requires var d := Provide(q, g.id, n); x in d.running || x in d.preempted
    requires var o := Obtain(q, n).0;
      && (forall y :: y in o.running ==> y in q.running)
      && (forall y :: y in o.preempted ==> y in q.preempted || y.status == PREEMPTED)
    ensures x.status == FINISHED <==> Obtain(q, n).1.None?
  {
    var (o, blocks) := Obtain(q, n);
    var f := if blocks.Some? then Grow(blocks.value) else Stop();
    hide Lawful, Obtain;
    assert Provide(q, g.id, n) == Change(o, g.id, f);
    var y: Request;
    if x in Put(o.running, g.id, f) {
      y := PutFrom(o.running, g.id, f, x);
    } else {
      y := PutFrom(o.preempted, g.id, f, x);
    }
    OnlyRunning(q, g, y);
  }

  lemma PutFrom(list: seq<Request>, id: int, f: Request -> Request, x: Request) returns (y: Request)
    requires x in Put(list, id, f) && x.id == id && forall r: Request :: f(r).id == r.id
    ensures y in list && y.id == id && x == f(y)
  {
    var k :| 0 <= k < |list| && Put(list, id, f)[k] == x;
    y := list[k];
  }
}
