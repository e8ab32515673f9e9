// Small shared vocabulary: optional values and a few facts about sequences.
module Prelude {

  datatype Option<+T> = None | Some(value: T)

  ghost predicate Distinct<T>(s: seq<T>) {
    forall i, j :: 0 <= i < j < |s| ==> s[i] != s[j]
  }

  ghost function Elements<T>(s: seq<T>): set<T> {
    set x | x in s
  }

  function Max(a: int, b: int): int {
    if a < b then b else a
  }

  function Min(a: int, b: int): int {
    if a < b then a else b
  }

  lemma {:induction false} DistinctCount<T>(s: seq<T>, x: T)
    requires Distinct(s)
    ensures multiset(s)[x] == if x in s then 1 else 0
  {
    if s != [] {
      var n := |s| - 1;
      assert s == s[..n] + [s[n]];
      DistinctCount(s[..n], x);
      assert x in s <==> x in s[..n] || x == s[n];
    }
  }

  // Cutting a duplicate-free sequence splits its elements.
  lemma SplitDistinct<T>(s: seq<T>, n: nat)
    requires Distinct(s) && n <= |s|
    ensures Distinct(s[..n]) && Distinct(s[n..])
    ensures forall x :: x in s <==> x in s[..n] || x in s[n..]
    ensures forall x :: !(x in s[..n] && x in s[n..])
  {
    assert s == s[..n] + s[n..];
  }

  lemma JoinDistinct<T>(a: seq<T>, b: seq<T>)
    requires Distinct(a) && Distinct(b)
    requires forall x :: x in a ==> x !in b
    ensures Distinct(a + b)
  {
    forall i, j | 0 <= i < j < |a + b| ensures (a + b)[i] != (a + b)[j] {
      if i < |a| <= j { assert a[i] in a && b[j - |a|] in b; }
    }
  }

  type pos = n: nat | n > 0 witness 1

  // Floor division and remainder of natural numbers, by repeated subtraction;
  // QuotRem says that they are the usual operators.
  function Quot(x: nat, d: pos): nat {
    if x < d then 0 else 1 + Quot(x - d, d)
  }

  function Rem(x: nat, d: pos): (r: nat)
    ensures r < d
  {
    if x < d then x else Rem(x - d, d)
  }

  lemma {:induction false} Decompose(x: nat, d: pos)
    ensures x == Quot(x, d) * d + Rem(x, d)
  {
    if x >= d {
      Decompose(x - d, d);
      NextBlock(Quot(x - d, d), d);
    }
  }

  lemma NextBlock(i: nat, d: pos)
    ensures (i + 1) * d == i * d + d
  {
  }

  lemma BlockStart(i: nat, n: nat, d: pos)
    requires i <= n
    ensures i * d <= n * d
  {
  }

  // Quotient and remainder are determined by x == q * d + r.
  lemma {:induction false} QuotUnique(x: nat, q: nat, r: nat, d: pos)
    requires x == q * d + r && r < d
    ensures Quot(x, d) == q && Rem(x, d) == r
  {
    if q > 0 {
      NextBlock(q - 1, d);
      QuotUnique(x - d, q - 1, r, d);
    }
  }

  lemma QuotRem(x: nat, d: pos)
    ensures Quot(x, d) == x / d && Rem(x, d) == x % d
  {
    assert x == (x / d) * d + x % d;
    QuotUnique(x, x / d, x % d, d);
  }

  lemma InBlocks(p: nat, n: nat, d: pos)
    requires p < n * d
    ensures Quot(p, d) < n
  {
    Decompose(p, d);
    if n <= Quot(p, d) { BlockStart(n, Quot(p, d), d); }
  }

  lemma BlockBounds(p: nat, n: nat, m: nat, d: pos)
    requires m * d <= p <= n * d
    ensures m <= Quot(p, d) <= n && p < (Quot(p, d) + 1) * d
  {
    var q := Quot(p, d);
    Decompose(p, d);
    NextBlock(q, d);
    NextBlock(n, d);
    if q < m { BlockStart(q + 1, m, d); }
    if n < q { BlockStart(n + 1, q, d); }
  }

  lemma TwiceCounted<T>(s: seq<T>, i: nat, j: nat)
    requires i < j < |s| && s[i] == s[j]
    ensures multiset(s)[s[i]] >= 2
  {
    assert s == s[..j] + s[j..];
    assert s[..j][i] == s[i] && s[j..][0] == s[i];
  }
}
