// Greedy speculative decoding (tr_hash_i64/core/speculative.py): the tokens
// accepted are the target's own greedy choices, whatever the draft proposed.
module Speculative {
  import opened Prelude

  // The target's greedy choice after a context and the tokens that follow it
  // in the verification window. Being causal, it does not see later tokens.
  type Target = (seq<int>, seq<int>) -> int

  // What the target says at every position of the window in one pass.
  function Verify(target: Target, context: seq<int>, drafts: seq<int>): (r: seq<int>)
    ensures |r| == |drafts| + 1
  {
    seq(|drafts| + 1, i requires 0 <= i <= |drafts| => target(context, drafts[..i]))
  }

  // The target on its own: n greedy tokens after the context.
  ghost function Rollout(target: Target, context: seq<int>, n: nat): (r: seq<int>)
    ensures |r| == n
  {
    if n == 0 then []
    else
      var before := Rollout(target, context, n - 1);
      before + [target(context, before)]
  }

  // How many leading draft tokens the target agrees with.
  ghost function Agreed(target: Target, context: seq<int>, drafts: seq<int>, from: nat): nat
    requires from <= |drafts|
    decreases |drafts| - from
  {
    if from == |drafts| || drafts[from] != target(context, drafts[..from]) then from
    else Agreed(target, context, drafts, from + 1)
  }

  // The draft on its own: k greedy tokens after the context.
  ghost function Proposed(draft: seq<int> -> int, context: seq<int>, k: nat): (r: seq<int>)
    ensures |r| == k
  {
    if k == 0 then []
    else
      var before := Proposed(draft, context, k - 1);
      before + [draft(context + before)]
  }

  // The draft extends the context by its own greedy choices.
  method Draft(draft: seq<int> -> int, context: seq<int>, k: nat) returns (buf: array<int>)
    ensures fresh(buf) && buf[..] == Proposed(draft, context, k)
  {
    buf := new int[k](_ => 0);
    var input := context;
    for i := 0 to k
      invariant buf[..i] == Proposed(draft, context, i) && input == context + buf[..i]
    {
      buf[i] := draft(input);
      input := input + [buf[i]];
    }
  }

  // Walks the draft until the target disagrees; its own choice is accepted
  // there, or as a bonus token when the whole draft was right.
  method Accept(target: Target, ghost context: seq<int>, drafts: seq<int>,
                verified: seq<int>) returns (accepted: seq<int>)
    requires verified == Verify(target, context, drafts)
    ensures accepted == Rollout(target, context, |accepted|)
    ensures |accepted| == Agreed(target, context, drafts, 0) + 1
    ensures 1 <= |accepted| <= |drafts| + 1
    ensures accepted[..|accepted| - 1] == drafts[..|accepted| - 1]
  {
    accepted := [];
    for i := 0 to |drafts|
      invariant accepted == drafts[..i] == Rollout(target, context, i)
      invariant Agreed(target, context, drafts, i) == Agreed(target, context, drafts, 0)
    {
      if verified[i] == drafts[i] {
        accepted := accepted + [drafts[i]];
      } else {
        accepted := accepted + [verified[i]];
        return;
      }
    }
    assert drafts[..|drafts|] == drafts;
    accepted := accepted + [verified[|drafts|]];
  }

  method GenerateStep(target: Target, draft: seq<int> -> int, context: seq<int>, k: nat) returns (accepted: seq<int>)
    ensures 1 <= |accepted| <= k + 1
    ensures accepted == Rollout(target, context, |accepted|)
    ensures accepted == Accepted(target, context, Proposed(draft, context, k))
  {
    var buf := Draft(draft, context, k);
    accepted := Accept(target, context, buf[..], Verify(target, context, buf[..]));
  }

  // ---- Independence of the draft ----

  lemma {:induction false} RolloutPrefix(target: Target, context: seq<int>, m: nat, n: nat)
    requires m <= n
    ensures Rollout(target, context, n)[..m] == Rollout(target, context, m)
  {
    if m < n {
      RolloutPrefix(target, context, m, n - 1);
    }
  }

  // What one step yields for a given draft.
  ghost function Accepted(target: Target, context: seq<int>, drafts: seq<int>): seq<int> {
    Rollout(target, context, Agreed(target, context, drafts, 0) + 1)
  }

  // A draft that chooses as the target does is accepted whole: k tokens and
  // one of the target's own.
  lemma {:induction false} SameChoices(target: Target, draft: seq<int> -> int, context: seq<int>, k: nat)
    requires forall window :: draft(context + window) == target(context, window)
    ensures Proposed(draft, context, k) == Rollout(target, context, k)
  {
    if k > 0 { SameChoices(target, draft, context, k - 1); }
  }

  lemma GoodDraftIsKept(target: Target, draft: seq<int> -> int, context: seq<int>, k: nat)
    requires forall window :: draft(context + window) == target(context, window)
    ensures |Accepted(target, context, Proposed(draft, context, k))| == k + 1
  {
    SameChoices(target, draft, context, k);
    PerfectDraft(target, context, k, Proposed(draft, context, k));
  }

  // Two drafts can only differ in how far they get.
  lemma DraftIndependent(target: Target, context: seq<int>, a: seq<int>, b: seq<int>)
    ensures Accepted(target, context, a) <= Accepted(target, context, b)
         || Accepted(target, context, b) <= Accepted(target, context, a)
  {
    var m, n := Agreed(target, context, a, 0) + 1, Agreed(target, context, b, 0) + 1;
    if m <= n { RolloutPrefix(target, context, m, n); } else { RolloutPrefix(target, context, n, m); }
  }

  lemma {:induction false} AgreedIs(target: Target, context: seq<int>, drafts: seq<int>, from: nat)
    requires from <= |drafts| && drafts[..from] == Rollout(target, context, from)
    ensures var n := Agreed(target, context, drafts, from);
      && from <= n <= |drafts| && drafts[..n] == Rollout(target, context, n)
      && (n < |drafts| ==> drafts[n] != Rollout(target, context, n + 1)[n])
    decreases |drafts| - from
  {
    if from < |drafts| && drafts[from] == target(context, drafts[..from]) {
      assert drafts[..from + 1] == drafts[..from] + [drafts[from]];
      AgreedIs(target, context, drafts, from + 1);
    }
  }

  // A step is as long as the draft follows the target, plus one token; a
  // draft equal to the rollout is accepted whole.
  lemma PerfectDraft(target: Target, context: seq<int>, k: nat, drafts: seq<int>)
    requires |drafts| == k
    ensures |Accepted(target, context, drafts)| == k + 1 <==> drafts == Rollout(target, context, k)
  {
    AgreedIs(target, context, drafts, 0);
    var n := Agreed(target, context, drafts, 0);
    assert drafts[..k] == drafts;
    if n < k {
      RolloutPrefix(target, context, n + 1, k);
      assert Rollout(target, context, k)[..n + 1][n] == Rollout(target, context, k)[n];
    }
  }

  // ---- Whole generations ----

  // A target that goes by the text alone, wherever the window starts.
  ghost predicate ByText(target: Target) {
    forall a: seq<int>, b: seq<int>, c: seq<int> {:trigger target(a + b, c)} :: target(a + b, c) == target(a, b + c)
  }

  // Steps one after the other, each continuing the text, with any drafts.
  ghost function Generated(target: Target, context: seq<int>, drafts: seq<seq<int>>): seq<int> {
    if drafts == [] then []
    else
      var before := Generated(target, context, drafts[..|drafts| - 1]);
      before + Accepted(target, context + before, drafts[|drafts| - 1])
  }

  lemma {:induction false} RolloutOn(target: Target, context: seq<int>, m: nat, n: nat)
    requires ByText(target)
    ensures Rollout(target, context, m) + Rollout(target, context + Rollout(target, context, m), n)
          == Rollout(target, context, m + n)
  {
    var first := Rollout(target, context, m);
    if n > 0 {
      RolloutOn(target, context, m, n - 1);
      var rest := Rollout(target, context + first, n - 1);
      assert target(context + first, rest) == target(context, first + rest);
      assert first + (rest + [target(context + first, rest)]) == (first + rest) + [target(context, first + rest)];
    } else {
      assert first + [] == first;
    }
  }

  // Any number of speculative steps produces the target's greedy text.
  lemma {:induction false} GenerationIsGreedy(target: Target, context: seq<int>, drafts: seq<seq<int>>)
    requires ByText(target)
    ensures var g := Generated(target, context, drafts); g == Rollout(target, context, |g|) && |g| >= |drafts|
  {
    if drafts != [] {
      var n := |drafts| - 1;
      GenerationIsGreedy(target, context, drafts[..n]);
      var before := Generated(target, context, drafts[..n]);
      RolloutOn(target, context, |before|, |Accepted(target, context + before, drafts[n])|);
    }
  }
}
