// Sequence-level LRU over a lazily invalidated heap: stale entries and
// compaction never hide a live sequence, victims are the oldest live
// sequences, and the loop hangs exactly when a held sequence is too old.
module Lru {
  import opened Prelude
  import opened PoolSpec
  import opened CacheSpec
  import opened CacheInv

  ghost predicate Ascending(heap: seq<Entry>) {
    forall i, j :: 0 <= i < j < |heap| ==> heap[i].tick < heap[j].tick
  }

  ghost predicate Recorded(c: Cache, s: int) {
    s in c.lru.last && Entry(c.lru.last[s], s) in c.lru.heap
  }

  // Ticks are handed out once, and every live sequence has its current
  // (tick, id) pair in the heap.
  ghost predicate LruOk(c: Cache) {
    && Ascending(c.lru.heap)
    && (forall e :: e in c.lru.heap ==> e.tick <= c.lru.clock)
    && (forall s :: s in c.owned ==> Recorded(c, s))
  }

  ghost predicate LruOkBut(c: Cache, s: int) {
    && Ascending(c.lru.heap)
    && (forall e :: e in c.lru.heap ==> e.tick <= c.lru.clock)
    && (forall t :: t in c.owned && t != s ==> Recorded(c, t))
  }

  lemma {:induction false} PushNewest(heap: seq<Entry>, e: Entry)
    requires forall f :: f in heap ==> f.tick < e.tick
    ensures HeapPush(heap, e) == heap + [e]
  {
    if heap != [] {
      assert heap[0] in heap;
      PushNewest(heap[1..], e);
    }
  }

  lemma {:induction false} CompactKeeps(c: Cache, heap: seq<Entry>)
    requires Ascending(heap)
    ensures Ascending(Compact(c, heap))
    ensures forall e :: e in Compact(c, heap) <==> e in heap && Current(c, e)
  {
    if heap != [] {
      CompactKeeps(c, heap[1..]);
      var rest := Compact(c, heap[1..]);
      forall e | e in rest ensures heap[0].tick < e.tick {
        var i :| 0 <= i < |heap[1..]| && heap[1..][i] == e;
        assert heap[i + 1] == e;
      }
    }
  }

  lemma PushLru(c: Cache, s: int)
    requires LruOkBut(c, s)
    ensures var e := Entry(c.lru.clock + 1, s);
            LruOk(c.(lru := Lru(e.tick, c.lru.last[s := e.tick], HeapPush(c.lru.heap, e))))
  {
    var e := Entry(c.lru.clock + 1, s);
    PushNewest(c.lru.heap, e);
    var heap := c.lru.heap + [e];
    assert e in heap;
    var d := c.(lru := Lru(e.tick, c.lru.last[s := e.tick], heap));
    forall t | t in d.owned ensures Recorded(d, t) {
      if t != s { assert Recorded(c, t); }
    }
  }

  lemma CompactLru(c: Cache)
    requires LruOk(c)
    ensures LruOk(c.(lru := c.lru.(heap := Compact(c, c.lru.heap))))
  {
    CompactKeeps(c, c.lru.heap);
    var d := c.(lru := c.lru.(heap := Compact(c, c.lru.heap)));
    forall t | t in d.owned ensures Recorded(d, t) { assert Recorded(c, t); }
  }

  // Touching a sequence records it, compaction or not.
  lemma TouchLru(c: Cache, s: int)
    requires LruOkBut(c, s)
    ensures LruOk(Touch(c, s))
  {
    var e := Entry(c.lru.clock + 1, s);
    PushLru(c, s);
    CompactLru(c.(lru := Lru(e.tick, c.lru.last[s := e.tick], HeapPush(c.lru.heap, e))));
  }

  lemma FreeSequenceLru(c: Cache, s: int)
    requires LruOkBut(c, s)
    ensures LruOk(FreeSequence(c, s))
  {
    var d := FreeSequence(c, s);
    forall t | t in d.owned ensures Recorded(d, t) { assert Recorded(c, t); }
  }

  // ---- Which sequences the eviction loop frees ----

  // The live sequences' entries, oldest access first.
  ghost function Live(c: Cache): seq<Entry> {
    Compact(c, c.lru.heap)
  }

  lemma LiveIsLive(c: Cache)
    requires LruOk(c)
    ensures Ascending(Live(c))
    ensures forall e :: e in Live(c) ==> Current(c, e)
    ensures forall s :: s in c.owned <==> s in c.lru.last && Entry(c.lru.last[s], s) in Live(c)
  {
    CompactKeeps(c, c.lru.heap);
    forall s | s in c.owned ensures s in c.lru.last && Entry(c.lru.last[s], s) in Live(c) {
      assert Recorded(c, s);
    }
  }

  // Freeing the sequences of these entries one after the other.
  ghost function FreeAll(c: Cache, es: seq<Entry>): Cache
    decreases |es|
  {
    if es == [] then c else FreeAll(FreeSequence(c, es[0].seqId), es[1..])
  }

  function SeqIds(es: seq<Entry>): (r: seq<int>)
    ensures |r| == |es|
  {
    seq(|es|, i requires 0 <= i < |es| => es[i].seqId)
  }

  ghost function Gain(c: Cache, es: seq<Entry>): int {
    |FreeAll(c, es).pool.free| - |c.pool.free|
  }

  ghost predicate NoneHeld(c: Cache, protect: int, es: seq<Entry>) {
    forall e :: e in es ==> !Held(c, protect, e.seqId)
  }

  // The first k live entries do not suffice, and the next one may not go.
  ghost predicate Blocked(c: Cache, needed: int, protect: int, k: nat) {
    && k < |Live(c)| && Held(c, protect, Live(c)[k].seqId)
    && NoneHeld(c, protect, Live(c)[..k]) && Gain(c, Live(c)[..k]) < needed
  }

  // Everything the cache owns except the heap and the eviction log.
  ghost predicate SameButHeap(c: Cache, d: Cache) {
    d == c.(lru := c.lru.(heap := d.lru.heap), evicted := d.evicted)
  }

  lemma FreeSame(c: Cache, d: Cache, s: int)
    requires SameButHeap(c, d)
    ensures SameButHeap(FreeSequence(c, s), FreeSequence(d, s))
  {
  }

  lemma {:induction false} FreeAllSame(c: Cache, d: Cache, es: seq<Entry>)
    requires SameButHeap(c, d)
    ensures SameButHeap(FreeAll(c, es), FreeAll(d, es))
    decreases |es|
  {
    if es != [] {
      FreeSame(c, d, es[0].seqId);
      FreeAllSame(FreeSequence(c, es[0].seqId), FreeSequence(d, es[0].seqId), es[1..]);
    }
  }

  lemma {:induction false} CompactSame(c: Cache, d: Cache, heap: seq<Entry>)
    requires forall e :: e in heap ==> (Current(c, e) <==> Current(d, e))
    ensures Compact(c, heap) == Compact(d, heap)
  {
    if heap != [] {
      assert heap[0] in heap;
      CompactSame(c, d, heap[1..]);
    }
  }

  // A victim's entry is gone, and the others' entries are still there.
  lemma VictimLru(c: Cache)
    requires LruOk(c) && c.lru.heap != [] && Current(c, c.lru.heap[0])
    ensures LruOk(AfterVictim(c))
  {
    var e := c.lru.heap[0];
    forall t | t in Popped(c).owned && t != e.seqId ensures Recorded(Popped(c), t) {
      assert Recorded(c, t);
    }
    assert forall f :: f in Popped(c).lru.heap ==> f in c.lru.heap;
    FreeSequenceLru(Popped(c), e.seqId);
    var d := AfterVictim(c);
    forall t | t in d.owned ensures Recorded(d, t) { assert Recorded(FreeSequence(Popped(c), e.seqId), t); }
  }

  // One turn of the loop on a live victim removes the head of Live and
  // nothing else.
  lemma LiveAfterVictim(c: Cache)
    requires LruOk(c) && c.lru.heap != [] && Current(c, c.lru.heap[0])
    ensures LruOk(AfterVictim(c)) && Live(c) == [c.lru.heap[0]] + Live(AfterVictim(c))
    ensures SameButHeap(FreeSequence(c, c.lru.heap[0].seqId), AfterVictim(c))
    ensures AfterVictim(c).evicted == c.evicted + [c.lru.heap[0].seqId]
    ensures |AfterVictim(c).lru.heap| == |c.lru.heap| - 1
  {
    VictimLru(c);
    FreeSame(c, Popped(c), c.lru.heap[0].seqId);
    var d := AfterVictim(c);
    forall f | f in c.lru.heap[1..] ensures Current(c, f) <==> Current(d, f) {
      var i :| 0 <= i < |c.lru.heap[1..]| && c.lru.heap[1..][i] == f;
      assert f == c.lru.heap[i + 1];
    }
    CompactSame(c, d, c.lru.heap[1..]);
  }

  lemma LiveAfterStale(c: Cache)
    requires LruOk(c) && c.lru.heap != [] && !Current(c, c.lru.heap[0])
    ensures LruOk(Popped(c)) && Live(c) == Live(Popped(c))
  {
    var d := Popped(c);
    forall t | t in d.owned ensures Recorded(d, t) { assert Recorded(c, t); }
    CompactSame(c, d, c.lru.heap[1..]);
  }

  // The outcome when the loop frees exactly the first k live sequences.
  ghost predicate Frees(c: Cache, needed: int, freed: int, protect: int, k: nat, r: Eviction) {
    && r.Evicted? && k <= |Live(c)|
    && NoneHeld(c, protect, Live(c)[..k])
    && SameButHeap(FreeAll(c, Live(c)[..k]), r.c)
    && LruOk(r.c)
    && r.freed == freed + Gain(c, Live(c)[..k])
    && (r.freed >= needed || k == |Live(c)|)
    && (forall j {:trigger Live(c)[..j]} :: 0 <= j < k ==> freed + Gain(c, Live(c)[..j]) < needed)
    && r.c.evicted == c.evicted + SeqIds(Live(c)[..k])
  }

  lemma FreeAllCons(c: Cache, d: Cache, e: Entry, es: seq<Entry>)
    requires SameButHeap(FreeSequence(c, e.seqId), d)
    ensures SameButHeap(FreeAll(c, [e] + es), FreeAll(d, es))
  {
    FreeAllSame(FreeSequence(c, e.seqId), d, es);
    assert ([e] + es)[1..] == es;
  }

  // Prefixing a victim to what the rest of the loop frees.
  lemma Prefixed(c: Cache, d: Cache, e: Entry, m: nat)
    requires SameButHeap(FreeSequence(c, e.seqId), d) && Live(c) == [e] + Live(d) && m <= |Live(d)|
    ensures Live(c)[..m + 1] == [e] + Live(d)[..m]
    ensures Gain(c, Live(c)[..m + 1]) == |d.pool.free| - |c.pool.free| + Gain(d, Live(d)[..m])
    ensures SameButHeap(FreeAll(c, Live(c)[..m + 1]), FreeAll(d, Live(d)[..m]))
  {
    hide FreeSequence, FreeAll, Compact;
    FirstOf(Live(c), e, Live(d), m);
    FreeAllCons(c, d, e, Live(d)[..m]);
  }

  lemma FirstOf<T>(s: seq<T>, x: T, t: seq<T>, m: nat)
    requires s == [x] + t && m <= |t|
    ensures s[..m + 1] == [x] + t[..m]
  {
  }

  lemma FreesMore(c: Cache, d: Cache, e: Entry, needed: int, freed: int, protect: int, j: nat, r: Eviction)
    requires SameButHeap(FreeSequence(c, e.seqId), d) && Live(c) == [e] + Live(d)
    requires freed < needed && !Held(c, protect, e.seqId) && d.evicted == c.evicted + [e.seqId]
    requires Frees(d, needed, freed + |d.pool.free| - |c.pool.free|, protect, j, r)
    ensures Frees(c, needed, freed, protect, j + 1, r)
  {
    hide Release, ClearRow, Compact;
    Prefixed(c, d, e, j);
    forall i {:trigger Live(c)[..i]} | 0 <= i < j + 1 ensures freed + Gain(c, Live(c)[..i]) < needed {
      if i == 0 {
        assert Live(c)[..0] == [];
      } else {
        Prefixed(c, d, e, i - 1);
        assert freed + |d.pool.free| - |c.pool.free| + Gain(d, Live(d)[..i - 1]) < needed;
      }
    }
    assert SeqIds([e] + Live(d)[..j]) == [e.seqId] + SeqIds(Live(d)[..j]);
  }

  lemma FreesStale(c: Cache, d: Cache, needed: int, freed: int, protect: int, k: nat, r: Eviction)
    requires SameButHeap(c, d) && d.evicted == c.evicted && Live(c) == Live(d)
    requires Frees(d, needed, freed, protect, k, r)
    ensures Frees(c, needed, freed, protect, k, r)
  {
    FreeAllSame(c, d, Live(c)[..k]);
    forall i {:trigger Live(c)[..i]} | 0 <= i < k ensures freed + Gain(c, Live(c)[..i]) < needed {
      FreeAllSame(c, d, Live(c)[..i]);
      assert freed + Gain(d, Live(d)[..i]) < needed;
    }
  }

  lemma BlockedStale(c: Cache, d: Cache, needed: int, protect: int, k: nat)
    requires SameButHeap(c, d) && Live(c) == Live(d) && Blocked(d, needed, protect, k)
    ensures Blocked(c, needed, protect, k)
  {
    FreeAllSame(c, d, Live(c)[..k]);
  }

  lemma BlockedMore(c: Cache, d: Cache, e: Entry, needed: int, protect: int, j: nat)
    requires SameButHeap(FreeSequence(c, e.seqId), d) && Live(c) == [e] + Live(d)
    requires !Held(c, protect, e.seqId)
    requires Blocked(d, needed - |d.pool.free| + |c.pool.free|, protect, j)
    ensures Blocked(c, needed, protect, j + 1)
  {
    Prefixed(c, d, e, j);
  }

  // The loop frees the oldest live sequences, as few as suffice, and stops
  // short only when none is left; or a held one blocks it and it hangs.
  ghost predicate Explained(c: Cache, needed: int, freed: int, protect: int, k: nat, r: Eviction) {
    if r.Spins? then Blocked(c, needed - freed, protect, k) else Frees(c, needed, freed, protect, k, r)
  }

  lemma ExplainedMore(c: Cache, d: Cache, e: Entry, needed: int, freed: int, protect: int, j: nat, r: Eviction)
    requires SameButHeap(FreeSequence(c, e.seqId), d) && Live(c) == [e] + Live(d)
    requires freed < needed && !Held(c, protect, e.seqId) && d.evicted == c.evicted + [e.seqId]
    requires Explained(d, needed, freed + |d.pool.free| - |c.pool.free|, protect, j, r)
    ensures Explained(c, needed, freed, protect, j + 1, r)
  {
    hide FreeSequence, FreeAll, Compact;
    if r.Spins? {
      BlockedMore(c, d, e, needed - freed, protect, j);
    } else {
      FreesMore(c, d, e, needed, freed, protect, j, r);
    }
  }

  lemma ExplainedStale(c: Cache, d: Cache, needed: int, freed: int, protect: int, k: nat, r: Eviction)
    requires SameButHeap(c, d) && d.evicted == c.evicted && Live(c) == Live(d)
    requires Explained(d, needed, freed, protect, k, r)
    ensures Explained(c, needed, freed, protect, k, r)
  {
    hide FreeSequence, FreeAll, Compact;
    if r.Spins? {
      BlockedStale(c, d, needed - freed, protect, k);
    } else {
      FreesStale(c, d, needed, freed, protect, k, r);
    }
  }

  lemma ExplainedAtOnce(c: Cache, needed: int, freed: int, protect: int)
    requires LruOk(c)
    requires freed >= needed || c.lru.heap == []
             || (Current(c, c.lru.heap[0]) && Held(c, protect, c.lru.heap[0].seqId))
    ensures Explained(c, needed, freed, protect, 0, EvictLoop(c, needed, freed, protect))
  {
    assert Live(c)[..0] == [];
    if freed < needed && c.lru.heap != [] { LiveAfterVictim(c); }
  }

  lemma {:induction false} EvictLoopWorks(c: Cache, needed: int, freed: int, protect: int) returns (k: nat)
    requires LruOk(c)
    ensures Explained(c, needed, freed, protect, k, EvictLoop(c, needed, freed, protect))
    decreases |c.lru.heap|
  {
    hide FreeSequence, FreeAll, Compact, AfterVictim;
    if freed >= needed || c.lru.heap == [] {
      k := 0;
      ExplainedAtOnce(c, needed, freed, protect);
    } else if !Current(c, c.lru.heap[0]) {
      LiveAfterStale(c);
      k := EvictLoopWorks(Popped(c), needed, freed, protect);
      ExplainedStale(c, Popped(c), needed, freed, protect, k, EvictLoop(Popped(c), needed, freed, protect));
    } else if Held(c, protect, c.lru.heap[0].seqId) {
      k := 0;
      ExplainedAtOnce(c, needed, freed, protect);
    } else {
      LiveAfterVictim(c);
      var d := AfterVictim(c);
      var freed' := freed + |d.pool.free| - |c.pool.free|;
      var j := EvictLoopWorks(d, needed, freed', protect);
      ExplainedMore(c, d, c.lru.heap[0], needed, freed, protect, j, EvictLoop(d, needed, freed', protect));
      k := j + 1;
    }
  }

  // ---- What the loop guarantees ----

  lemma {:induction false} FreeAllCore(c: Cache, es: seq<Entry>)
    requires Core(c)
    ensures Core(FreeAll(c, es)) && |FreeAll(c, es).pool.free| >= |c.pool.free|
    ensures forall s :: s in FreeAll(c, es).owned <==> s in c.owned && forall e :: e in es ==> e.seqId != s
    ensures forall s :: s in FreeAll(c, es).owned ==> FreeAll(c, es).owned[s] == c.owned[s]
    ensures FreeAll(c, es).swap == c.swap && FreeAll(c, es).cfg == c.cfg && FreeAll(c, es).pinned == c.pinned
    decreases |es|
  {
    if es != [] {
      FreeSequenceCore(c, es[0].seqId);
      FreeAllCore(FreeSequence(c, es[0].seqId), es[1..]);
      assert forall e :: e in es <==> e == es[0] || e in es[1..];
    }
  }

  lemma {:induction false} FreeAllSplit(c: Cache, es: seq<Entry>, fs: seq<Entry>)
    ensures FreeAll(c, es + fs) == FreeAll(FreeAll(c, es), fs)
    decreases |es|
  {
    if es == [] {
      assert es + fs == fs;
    } else {
      assert (es + fs)[1..] == es[1..] + fs;
      FreeAllSplit(FreeSequence(c, es[0].seqId), es[1..], fs);
    }
  }

  // Freeing more sequences never frees fewer blocks.
  lemma GainMonotone(c: Cache, j: nat, k: nat)
    requires Core(c) && j <= k <= |Live(c)|
    ensures Gain(c, Live(c)[..j]) <= Gain(c, Live(c)[..k])
  {
    var es, fs := Live(c)[..j], Live(c)[j..k];
    assert Live(c)[..k] == es + fs;
    FreeAllCore(c, es);
    FreeAllSplit(c, es, fs);
    FreeAllCore(FreeAll(c, es), fs);
  }

  ghost function Cleared(c: Cache): Cache {
    c.(evicted := [])
  }

  lemma ClearedSame(c: Cache)
    requires LruOk(c)
    ensures LruOk(Cleared(c)) && Live(Cleared(c)) == Live(c) && SameButHeap(c, Cleared(c))
  {
    CompactSame(c, Cleared(c), c.lru.heap);
    forall s | s in c.owned ensures Recorded(Cleared(c), s) { assert Recorded(c, s); }
  }

  // The call as a whole: it frees the first k live sequences, or hangs.
  lemma EvictLruWorks(c: Cache, needed: int, protect: int) returns (k: nat)
    requires LruOk(c)
    ensures var r := EvictLru(c, needed, protect);
      if r.Spins? then Blocked(c, needed, protect, k) else Victims(c, needed, protect, k, r)
  {
    ClearedSame(c);
    k := EvictLoopWorks(Cleared(c), needed, 0, protect);
    if EvictLru(c, needed, protect).Spins? {
      BlockedStale(c, Cleared(c), needed, protect, k);
    } else {
      VictimsCleared(c, needed, protect, k, EvictLru(c, needed, protect));
    }
  }

  // The k oldest live sequences are freed, none of them held, and no fewer
  // would have done.
  ghost predicate Victims(c: Cache, needed: int, protect: int, k: nat, r: Eviction) {
    && r.Evicted? && k <= |Live(c)|
    && NoneHeld(c, protect, Live(c)[..k])
    && SameButHeap(FreeAll(c, Live(c)[..k]), r.c) && LruOk(r.c)
    && r.freed == Gain(c, Live(c)[..k])
    && (r.freed >= needed || k == |Live(c)|)
    && (forall j {:trigger Live(c)[..j]} :: 0 <= j < k ==> Gain(c, Live(c)[..j]) < needed)
    && r.c.evicted == SeqIds(Live(c)[..k])
  }

  lemma VictimsCleared(c: Cache, needed: int, protect: int, k: nat, r: Eviction)
    requires SameButHeap(c, Cleared(c)) && Live(c) == Live(Cleared(c))
    requires Frees(Cleared(c), needed, 0, protect, k, r)
    ensures Victims(c, needed, protect, k, r)
  {
    FreeAllSame(c, Cleared(c), Live(c)[..k]);
    forall j {:trigger Live(c)[..j]} | 0 <= j < k ensures Gain(c, Live(c)[..j]) < needed {
      FreeAllSame(c, Cleared(c), Live(c)[..j]);
      assert 0 + Gain(Cleared(c), Live(Cleared(c))[..j]) < needed;
    }
  }

  lemma NotBoth(c: Cache, needed: int, protect: int, j: nat, k: nat, r: Eviction)
    requires Core(c) && LruOk(c) && Blocked(c, needed, protect, j)
    ensures !Victims(c, needed, protect, k, r)
  {
    if Victims(c, needed, protect, k, r) {
      if k <= j { GainMonotone(c, k, j); }
      assert false;
    }
  }

  // The eviction loop hangs exactly when a held sequence is reached, oldest
  // first, before enough blocks came free.
  lemma SpinsExactly(c: Cache, needed: int, protect: int)
    requires Core(c) && LruOk(c)
    ensures EvictLru(c, needed, protect).Spins? <==> exists k: nat :: Blocked(c, needed, protect, k)
  {
    var k := EvictLruWorks(c, needed, protect);
    if EvictLru(c, needed, protect).Evicted? {
      forall j: nat ensures !Blocked(c, needed, protect, j) {
        if Blocked(c, needed, protect, j) { NotBoth(c, needed, protect, j, k, EvictLru(c, needed, protect)); }
      }
    }
  }

  // A hanging loop repeats its state for ever: pushing the popped minimum
  // back restores the heap.
  lemma SpinIsAFixpoint(c: Cache)
    requires LruOk(c) && c.lru.heap != []
    ensures HeapPush(Popped(c).lru.heap, c.lru.heap[0]) == c.lru.heap
  {
    var rest := c.lru.heap[1..];
    if rest != [] { assert rest[0] == c.lru.heap[1]; }
  }

  // Sequence s was accessed before sequence t.
  ghost predicate Older(c: Cache, s: int, t: int) {
    s in c.lru.last && t in c.lru.last && c.lru.last[s] < c.lru.last[t]
  }

  lemma VictimIds(es: seq<Entry>)
    ensures forall s :: s in SeqIds(es) <==> exists e :: e in es && e.seqId == s
  {
    forall e | e in es ensures e.seqId in SeqIds(es) {
      var i :| 0 <= i < |es| && es[i] == e;
      assert SeqIds(es)[i] == e.seqId;
    }
  }

  lemma YoungerThan(c: Cache, i: nat, s: int)
    requires LruOk(c) && i < |Live(c)| && s in c.owned
    requires forall j :: 0 <= j <= i ==> Live(c)[j].seqId != s
    ensures Older(c, Live(c)[i].seqId, s)
  {
    LiveIsLive(c);
    var live := Live(c);
    assert live[i] in live;
    var j :| 0 <= j < |live| && live[j] == Entry(c.lru.last[s], s);
  }

  // When the eviction loop ends, each victim was, when it went, the least
  // recently used live sequence, and nobody pinned or protected is among them.
  lemma VictimsOldestFirst(c: Cache, needed: int, protect: int)
    requires LruOk(c) && EvictLru(c, needed, protect).Evicted?
    ensures var gone := EvictLru(c, needed, protect).c.evicted;
      && (forall s :: s in gone ==> s in c.owned && !Held(c, protect, s))
      && forall i, s :: 0 <= i < |gone| && s in c.owned && s !in gone[..i + 1] ==> Older(c, gone[i], s)
  {
    var k := EvictLruWorks(c, needed, protect);
    hide EvictLru;
    var r := EvictLru(c, needed, protect);
    LiveIsLive(c);
    VictimIds(Live(c)[..k]);
    forall s | s in r.c.evicted ensures s in c.owned && !Held(c, protect, s) {
      var e :| e in Live(c)[..k] && e.seqId == s;
      assert e in Live(c);
    }
    forall i, s | 0 <= i < k && s in c.owned && s !in r.c.evicted[..i + 1]
      ensures Older(c, r.c.evicted[i], s)
    {
      forall j | 0 <= j <= i ensures Live(c)[j].seqId != s {
        assert r.c.evicted[..i + 1][j] == Live(c)[j].seqId;
      }
      YoungerThan(c, i, s);
    }
  }

  // What is left: everything else stays, and the loop only stops short of
  // the request when it has freed every live sequence.
  lemma VictimsLeaveTheRest(c: Cache, needed: int, protect: int, k: nat, r: Eviction)
    requires Core(c) && LruOk(c) && Victims(c, needed, protect, k, r)
    ensures Core(r.c) && |r.c.pool.free| == |c.pool.free| + r.freed && r.freed >= 0
    ensures forall s :: s in r.c.owned <==> s in c.owned && s !in r.c.evicted
    ensures forall s :: s in r.c.owned ==> r.c.owned[s] == c.owned[s]
    ensures r.freed >= needed || r.c.owned == map[]
    ensures r.c.swap == c.swap && r.c.cfg == c.cfg && r.c.pinned == c.pinned
  {
    hide FreeSequence, Compact;
    var es := Live(c)[..k];
    FreeAllCore(c, es);
    VictimIds(es);
    if k == |Live(c)| {
      LiveIsLive(c);
      forall s | s in c.owned ensures s in r.c.evicted {
        assert Entry(c.lru.last[s], s) in es;
      }
    }
  }

  // With no live sequence pinned or protected the loop always ends.
  lemma EndsWhenNoneHeld(c: Cache, needed: int, protect: int)
    requires Core(c) && LruOk(c)
    requires forall s :: s in c.owned ==> !Held(c, protect, s)
    ensures EvictLru(c, needed, protect).Evicted?
  {
    var k := EvictLruWorks(c, needed, protect);
    LiveIsLive(c);
    assert k < |Live(c)| ==> Live(c)[k] in Live(c);
  }
}
