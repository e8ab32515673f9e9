// What the block pool computes, on values: block ids instead of block
// records, the free list as a sequence (tr_hash_i64/core/block_pool.py).
module PoolSpec {
  import opened Prelude
  import opened Hashing
  import opened BlockQueue

  datatype Pool = Pool(
    free: seq<int>,            // queue order, front first
    refs: seq<int>,            // reference count of each block
    tags: seq<Option<Hash>>,   // hash each block was registered under
    index: map<Hash, int>,     // prefix cache
    caching: bool)

  const NULL_BLOCK := 0

  // Block 0 is reserved. A block is queued exactly when nobody refers to it,
  // and the prefix cache only names blocks tagged with the same hash.
  ghost predicate PoolOk(p: Pool) {
    && |p.refs| == |p.tags| > 0
    && Distinct(p.free)
    && (forall b :: b in p.free ==> 0 < b < |p.refs|)
    && (forall b :: 0 < b < |p.refs| ==> (b in p.free <==> p.refs[b] == 0))
    && (forall b :: 0 <= b < |p.refs| ==> p.refs[b] >= 0)
    && p.refs[NULL_BLOCK] == 0 && p.tags[NULL_BLOCK] == None
    && (forall h :: h in p.index ==> 0 < p.index[h] < |p.tags| && p.tags[p.index[h]] == Some(h))
    && (!p.caching ==> p.index == map[] && forall b :: 0 <= b < |p.tags| ==> p.tags[b] == None)
  }

  function Fresh(n: nat, caching: bool): Pool
    requires n > 0
  {
    Pool(seq(n - 1, i => i + 1), seq(n, i => 0), seq(n, i => None), map[], caching)
  }

  // Popping a hash drops whatever block the cache holds under it.
  ghost predicate Forgotten(p: Pool, taken: seq<int>, h: Hash) {
    exists b :: b in taken && 0 <= b < |p.tags| && p.tags[b] == Some(h)
  }

  // The first n queued blocks get one reference each and lose their hashes.
  ghost function Take(p: Pool, n: nat): Pool
    requires n <= |p.free|
  {
    Claim(p.(free := p.free[n..]), p.free[..n])
  }

  ghost function Claim(p: Pool, taken: seq<int>): Pool {
    p.(refs := seq(|p.refs|, b requires 0 <= b < |p.refs| => if b in taken then 1 else p.refs[b]),
       tags := seq(|p.tags|, b requires 0 <= b < |p.tags| => if p.caching && b in taken then None else p.tags[b]),
       index := map h | h in p.index && !(p.caching && Forgotten(p, taken, h)) :: p.index[h])
  }

  // Dropping one block's hash, as done when the block is handed out again.
  function Forget(p: Pool, b: int): Pool
    requires 0 <= b < |p.tags|
  {
    if p.tags[b] == None then p
    else p.(tags := p.tags[b := None], index := p.index - {p.tags[b].value})
  }

  function ClaimOne(p: Pool, b: int): Pool
    requires 0 <= b < |p.tags| == |p.refs|
  {
    var q := if p.caching then Forget(p, b) else p;
    q.(refs := q.refs[b := 1])
  }

  // Claiming block by block is claiming them all at once.
  lemma ClaimStep(p: Pool, taken: seq<int>, b: int)
    requires |p.refs| == |p.tags| && 0 <= b < |p.refs| && b !in taken
    ensures ClaimOne(Claim(p, taken), b) == Claim(p, taken + [b])
  {
    var q, r := Claim(p, taken), Claim(p, taken + [b]);
    assert q.tags[b] == p.tags[b];
    assert ClaimOne(q, b).refs == r.refs;
    assert ClaimOne(q, b).tags == r.tags;
    forall h ensures Forgotten(p, taken + [b], h) <==> Forgotten(p, taken, h) || p.tags[b] == Some(h) {
      if p.tags[b] == Some(h) { assert b in taken + [b]; }
      if Forgotten(p, taken, h) {
        var c :| c in taken && 0 <= c < |p.tags| && p.tags[c] == Some(h);
        assert c in taken + [b];
      }
    }
    assert ClaimOne(q, b).index == r.index;
  }

  // One more reference; the first one takes the block out of the queue.
  ghost function Share(p: Pool, b: int): Pool
    requires 0 <= b < |p.refs|
  {
    p.(free := if p.refs[b] == 0 && b != NULL_BLOCK then Without(p.free, b) else p.free,
       refs := p.refs[b := p.refs[b] + 1])
  }

  // The blocks, in order, whose last reference goes away.
  function Idle(refs: seq<int>, order: seq<int>): seq<int> {
    if order == [] then []
    else
      var b := order[0];
      (if 0 < b < |refs| && refs[b] == 1 then [b] else []) + Idle(refs, order[1..])
  }

  lemma {:induction false} IdleSnoc(refs: seq<int>, order: seq<int>, b: int)
    ensures Idle(refs, order + [b]) == Idle(refs, order) + if 0 < b < |refs| && refs[b] == 1 then [b] else []
  {
    if order == [] {
      assert order + [b] == [b];
    } else {
      assert (order + [b])[1..] == order[1..] + [b];
      IdleSnoc(refs, order[1..], b);
    }
  }

  ghost function Release(p: Pool, order: seq<int>): Pool {
    p.(free := p.free + Idle(p.refs, order),
       refs := seq(|p.refs|, b requires 0 <= b < |p.refs| => if b in order then p.refs[b] - 1 else p.refs[b]))
  }

  lemma ReleaseStep(p: Pool, order: seq<int>, b: int)
    requires b !in order && 0 < b < |p.refs|
    ensures Release(p, order).refs[b] == p.refs[b]
    ensures Release(p, order + [b]).refs == Release(p, order).refs[b := p.refs[b] - 1]
    ensures Idle(p.refs, order + [b]) == Idle(p.refs, order) + if p.refs[b] == 1 then [b] else []
  {
    IdleSnoc(p.refs, order, b);
  }

  lemma ReleasePrefix(p: Pool, order: seq<int>, i: nat)
    requires i < |order| && Distinct(order) && 0 < order[i] < |p.refs|
    ensures Release(p, order[..i]).refs[order[i]] == p.refs[order[i]]
    ensures Release(p, order[..i + 1]).refs == Release(p, order[..i]).refs[order[i] := p.refs[order[i]] - 1]
    ensures Idle(p.refs, order[..i + 1]) == Idle(p.refs, order[..i]) + if p.refs[order[i]] == 1 then [order[i]] else []
  {
    assert order[..i + 1] == order[..i] + [order[i]];
    ReleaseStep(p, order[..i], order[i]);
  }

  // A block keeps the first hash it is registered under.
  function Register(p: Pool, b: int, h: Hash): Pool
    requires 0 <= b < |p.tags|
  {
    if !p.caching || b == NULL_BLOCK || p.tags[b] != None then p
    else p.(tags := p.tags[b := Some(h)], index := p.index[h := b])
  }

  function Lookup(p: Pool, h: Hash): Option<int> {
    if p.caching && h in p.index then Some(p.index[h]) else None
  }

  lemma FreshOk(n: nat, caching: bool)
    requires n > 0
    ensures PoolOk(Fresh(n, caching))
  {
    var p := Fresh(n, caching);
    forall b | 0 < b < n ensures b in p.free { assert p.free[b - 1] == b; }
  }

  lemma TakeOk(p: Pool, n: nat)
    requires PoolOk(p) && n <= |p.free|
    ensures PoolOk(Take(p, n))
    ensures Distinct(p.free[..n])
    ensures forall b :: b in p.free[..n] ==> 0 < b < |p.refs| && p.refs[b] == 0
  {
    SplitDistinct(p.free, n);
  }

  lemma {:induction false} WithoutIn<T>(s: seq<T>, x: T)
    requires Distinct(s)
    ensures Distinct(Without(s, x))
    ensures forall y :: y in Without(s, x) <==> y in s && y != x
  {
    if s != [] {
      SplitDistinct(s, 1);
      assert s[..1] == [s[0]];
      if s[0] != x {
        WithoutIn(s[1..], x);
        JoinDistinct([s[0]], Without(s[1..], x));
      }
    }
  }

  lemma ShareOk(p: Pool, b: int)
    requires PoolOk(p) && 0 < b < |p.refs|
    ensures PoolOk(Share(p, b))
  {
    WithoutIn(p.free, b);
  }

  lemma {:induction false} IdleIn(refs: seq<int>, order: seq<int>)
    requires Distinct(order)
    ensures Distinct(Idle(refs, order))
    ensures forall b :: b in Idle(refs, order) <==> b in order && 0 < b < |refs| && refs[b] == 1
  {
    if order != [] {
      SplitDistinct(order, 1);
      assert order[..1] == [order[0]];
      IdleIn(refs, order[1..]);
    }
  }

  lemma ReleaseOk(p: Pool, order: seq<int>)
    requires PoolOk(p) && Distinct(order)
    requires forall b :: b in order ==> 0 < b < |p.refs| && p.refs[b] > 0
    ensures PoolOk(Release(p, order))
  {
    IdleIn(p.refs, order);
    assert forall b :: b in Idle(p.refs, order) ==> b in order && p.refs[b] != 0;
    JoinDistinct(p.free, Idle(p.refs, order));
  }

  lemma RegisterOk(p: Pool, b: int, h: Hash)
    requires PoolOk(p) && 0 <= b < |p.tags|
    ensures PoolOk(Register(p, b, h))
  {
  }
}
