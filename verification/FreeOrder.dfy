// The order in which freed blocks are handed out again: the tail of a prompt
// first, so that its front stays in the prefix cache the longest
// (tr_hash_i64/core/kv_cache.py, tr_hash_i64/core/block_pool.py).
module FreeOrder {
  import opened Prelude
  import opened PoolSpec
  import opened CacheSpec
  import opened CacheInv

  lemma {:induction false} IdleAppend(refs: seq<int>, a: seq<int>, b: seq<int>)
    ensures Idle(refs, a + b) == Idle(refs, a) + Idle(refs, b)
  {
    if a == [] {
      assert a + b == b;
    } else {
      assert (a + b)[1..] == a[1..] + b;
      IdleAppend(refs, a[1..], b);
    }
  }

  lemma ReverseSplit(blocks: seq<int>, i: nat)
    requires i < |blocks|
    ensures Reverse(blocks) == Reverse(blocks[i + 1..]) + [blocks[i]] + Reverse(blocks[..i])
  {
  }

  lemma ReverseIn(blocks: seq<int>, j: nat)
    requires j < |blocks|
    ensures blocks[j] in Reverse(blocks)
  {
    assert Reverse(blocks)[|blocks| - 1 - j] == blocks[j];
  }

  predicate Unshared(c: Cache, b: int) {
    0 <= b < |c.pool.refs| && c.pool.refs[b] == 1
  }

  // However many blocks are handed out after a sequence was freed: when a
  // block of it is still free, so are those in front of it.
  lemma FrontStaysLonger(c: Cache, s: int, n: nat, i: nat, j: nat)
    requires Core(c) && j < i < |Blocks(c, s)| && n <= |FreeSequence(c, s).pool.free|
    requires Unshared(c, Blocks(c, s)[i]) && Unshared(c, Blocks(c, s)[j])
    ensures Blocks(c, s)[i] in FreeSequence(c, s).pool.free && Blocks(c, s)[j] in FreeSequence(c, s).pool.free
    ensures Blocks(c, s)[i] in FreeSequence(c, s).pool.free[n..] ==>
      Blocks(c, s)[j] in FreeSequence(c, s).pool.free[n..]
  {
    var blocks, refs := Blocks(c, s), c.pool.refs;
    assert blocks[i] in blocks && blocks[j] in blocks;
    FreeSequenceCore(c, s);
    FreedAtTheBack(c, s);
    ReverseSplit(blocks, i);
    ReverseIn(blocks[..i], j);
    assert blocks[..i][j] == blocks[j];
    hide Core, FreeSequence, Reverse, Idle, Distinct;
    TailGoesFirst(c.pool.free, refs, Reverse(blocks[i + 1..]), blocks[i], Reverse(blocks[..i]), blocks[j], n);
  }

  // Of the blocks that come free together, the later ones stay longer.
  lemma TailGoesFirst(free: seq<int>, refs: seq<int>, front: seq<int>, b: int, back: seq<int>, x: int, n: nat)
    requires var list := free + Idle(refs, front + [b] + back); Distinct(list) && n <= |list|
    requires x in back && 0 < b < |refs| && 0 < x < |refs| && refs[b] == refs[x] == 1
    ensures var list := free + Idle(refs, front + [b] + back);
      b in list && x in list && (b in list[n..] ==> x in list[n..])
  {
    IdleAppend(refs, front + [b], back);
    IdleAppend(refs, front, [b]);
    IdleMember(refs, back, x);
    assert Idle(refs, [b]) == [b];
    hide Idle, Distinct;
    var list, ahead, behind := free + Idle(refs, front + [b] + back), free + Idle(refs, front), Idle(refs, back);
    assert list == ahead + [b] + behind;
    LaterStays(list, ahead, b, behind, x, n);
  }

  lemma FreedAtTheBack(c: Cache, s: int)
    requires Core(c) && Blocks(c, s) != []
    ensures FreeSequence(c, s).pool.free == c.pool.free + Idle(c.pool.refs, Reverse(Blocks(c, s)))
    ensures Distinct(FreeSequence(c, s).pool.free) && forall b :: b in Blocks(c, s) ==> 0 < b < |c.pool.refs|
  {
    FreeSequenceCore(c, s);
  }

  lemma LaterStays(list: seq<int>, ahead: seq<int>, b: int, behind: seq<int>, x: int, n: nat)
    requires Distinct(list) && list == ahead + [b] + behind && x in behind && n <= |list|
    ensures b in list && x in list && (b in list[n..] ==> x in list[n..])
  {
    assert list[|ahead|] == b;
    var m :| 0 <= m < |behind| && behind[m] == x;
    assert list[|ahead| + 1 + m] == x;
    if b in list[n..] {
      var k :| 0 <= k < |list[n..]| && list[n..][k] == b;
      assert list[n + k] == b;
      assert list[n..][|ahead| + 1 + m - n] == x;
    }
  }

  lemma {:induction false} IdleMember(refs: seq<int>, order: seq<int>, b: int)
    requires b in order && 0 < b < |refs| && refs[b] == 1
    ensures b in Idle(refs, order)
  {
    if order[0] != b { IdleMember(refs, order[1..], b); }
  }
}
