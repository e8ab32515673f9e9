// The context-window fitter (tr_hash_i64/core/context_manager.py), for any
// tokenizer and chat template: nothing is assumed about encode, decode and
// render beyond being functions.
module ContextFit {
  import opened Prelude

  datatype Message = Message(role: string, content: string)

  // What comes from outside: the tokenizer, the template and the text
  // clean-ups.
  datatype Foreign = Foreign(
    encode: string -> seq<int>, decode: seq<int> -> string, render: seq<Message> -> string,
    sanitize: string -> string, compact: string -> string, snippet: (string, nat) -> string,
    capitalize: string -> string)

  datatype Plan = Plan(
    messages: seq<Message>, prompt: string, promptIds: seq<int>, reserved: int,
    original: nat, retained: nat, summarized: nat, dropped: nat, originalTokens: nat, summaryTokens: nat)

  datatype Outcome = Fitted(plan: Plan) | Error

  // ---- Turns ----

  ghost function Flat(turns: seq<seq<Message>>): seq<Message> {
    if turns == [] then [] else Flat(turns[..|turns| - 1]) + turns[|turns| - 1]
  }

  lemma {:induction false} FlatAppend(a: seq<seq<Message>>, b: seq<seq<Message>>)
    ensures Flat(a + b) == Flat(a) + Flat(b)
  {
    if b == [] {
      assert a + b == a;
    } else {
      var n := |b| - 1;
      assert (a + b)[..|a| + n] == a + b[..n];
      FlatAppend(a, b[..n]);
    }
  }

  // A turn is opened by a user message and holds no other one inside.
  predicate IsTurn(turn: seq<Message>) {
    turn != [] && forall i :: 0 < i < |turn| ==> turn[i].role != "user"
  }

  ghost predicate Turns(turns: seq<seq<Message>>) {
    && (forall t :: 0 <= t < |turns| ==> IsTurn(turns[t]))
    && (forall t :: 0 < t < |turns| ==> turns[t] != [] && turns[t][0].role == "user")
  }

  method GroupTurns(messages: seq<Message>) returns (turns: seq<seq<Message>>)
    ensures Flat(turns) == messages && Turns(turns)
  {
    hide Flat, Turns, IsTurn;
    turns := [];
    NoTurns();
    var current: seq<Message> := [];
    for i := 0 to |messages|
      invariant Flat(turns) + current == messages[..i]
      invariant Turns(turns) && (current == [] ==> turns == [])
      invariant current != [] ==> IsTurn(current) && (turns != [] ==> current[0].role == "user")
    {
      var m := messages[i];
      if m.role == "user" && current != [] {
        OneTurnMore(turns, current);
        turns := turns + [current];
        current := [];
      }
      OneMessageMore(current, m);
      assert messages[..i + 1] == messages[..i] + [m];
      current := current + [m];
    }
    assert messages[..|messages|] == messages;
    if current != [] {
      OneTurnMore(turns, current);
      turns := turns + [current];
    }
  }

  lemma NoTurns()
    ensures Flat([]) == [] && Turns([])
  {
  }

  lemma OneMessageMore(turn: seq<Message>, m: Message)
    requires turn == [] || (IsTurn(turn) && m.role != "user")
    ensures IsTurn(turn + [m]) && (turn + [m])[0] == if turn == [] then m else turn[0]
  {
  }

  lemma OneTurnMore(turns: seq<seq<Message>>, turn: seq<Message>)
    requires Turns(turns) && IsTurn(turn) && (turns != [] ==> turn[0].role == "user")
    ensures Turns(turns + [turn]) && Flat(turns + [turn]) == Flat(turns) + turn
  {
    assert (turns + [turn])[..|turns|] == turns;
  }

  // ---- Summaries ----

  function Digits(n: nat): string {
    if n < 10 then ["0123456789"[n]] else Digits(n / 10) + ["0123456789"[n % 10]]
  }

  function Omitted(n: nat): string {
    if n == 0 then "" else "\n- [" + Digits(n) + " earlier message" + (if n != 1 then "s" else "") + " omitted.]"
  }

  function Join(lines: seq<string>): string {
    if lines == [] then "" else if |lines| == 1 then lines[0] else lines[0] + "\n" + Join(lines[1..])
  }

  const TRUNCATION_MARKER := "\n[\U{2026}]\n"
  const SUMMARY_PREFIX := "Conversation summary of older turns:"

  function SummaryText(lines: seq<string>, omitted: nat): string {
    SUMMARY_PREFIX + "\n" + Join(lines) + Omitted(omitted)
  }

  function Line(f: Foreign, m: Message, limit: nat): string {
    "- " + f.capitalize(m.role) + ": " + f.snippet(f.compact(m.content), limit)
  }

  // The lines are snippets of messages, in the order of the conversation,
  // starting at message number `from`.
  ghost predicate Extracts(f: Foreign, messages: seq<Message>, lines: seq<string>, from: nat)
    requires from <= |messages|
    decreases |lines|
  {
    lines == [] || exists i, limit :: from <= i < |messages| && 0 < limit && TakesLine(f, messages, lines, i, limit)
  }

  ghost predicate TakesLine(f: Foreign, messages: seq<Message>, lines: seq<string>, i: nat, limit: nat)
    requires i < |messages| && lines != []
    decreases |lines|, 0
  {
    lines[0] == Line(f, messages[i], limit) && Extracts(f, messages, lines[1..], i + 1)
  }

  lemma ExtractsNone(f: Foreign, messages: seq<Message>)
    ensures Extracts(f, messages, [], |messages|)
  {
  }

  lemma ExtractsEarlier(f: Foreign, messages: seq<Message>, lines: seq<string>, from: nat, before: nat)
    requires before <= from <= |messages| && Extracts(f, messages, lines, from)
    ensures Extracts(f, messages, lines, before)
  {
    if lines != [] {
      var i, limit :| from <= i < |messages| && 0 < limit && TakesLine(f, messages, lines, i, limit);
    }
  }

  lemma ExtractsMore(f: Foreign, messages: seq<Message>, lines: seq<string>, i: nat, line: string, limit: nat)
    requires i < |messages| && Extracts(f, messages, lines, i + 1) && 0 < limit && line == Line(f, messages[i], limit)
    ensures Extracts(f, messages, [line] + lines, i)
  {
    assert ([line] + lines)[1..] == lines;
    assert TakesLine(f, messages, [line] + lines, i, limit);
  }

  type AtLeast16 = n: int | n >= 16 witness 16

  class ContextManager {
    const f: Foreign
    const maxSeqLen: int
    const recentTurns: pos
    const maxSummaryTokens: AtLeast16
    const compactAt: Option<int>

    constructor (f: Foreign, maxSeqLen: int, recentTurns: int, maxSummaryTokens: int, compactAt: Option<int>)
      ensures this.f == f && this.maxSeqLen == maxSeqLen && this.recentTurns == Max(1, recentTurns)
      ensures this.maxSummaryTokens == Max(16, maxSummaryTokens)
      ensures this.compactAt == if compactAt.Some? && compactAt.value > 0 then Some(Max(16, compactAt.value)) else None
    {
      this.f, this.maxSeqLen, this.recentTurns := f, maxSeqLen, Max(1, recentTurns);
      this.maxSummaryTokens := Max(16, maxSummaryTokens);
      this.compactAt := if compactAt.Some? && compactAt.value > 0 then Some(Max(16, compactAt.value)) else None;
    }

    // Assistant turns left empty by the clean-up disappear.
    function Normalize(messages: seq<Message>): seq<Message> {
      if messages == [] then []
      else
        var n := |messages| - 1;
        Normalize(messages[..n]) + NormalOne(messages[n])
    }

    function NormalOne(m: Message): seq<Message> {
      if m.role != "assistant" then [m]
      else if f.sanitize(m.content) == "" then [] else [m.(content := f.sanitize(m.content))]
    }

    method NormalizeAll(messages: seq<Message>) returns (r: seq<Message>)
      ensures r == Normalize(messages)
    {
      r := [];
      for i := 0 to |messages|
        invariant r == Normalize(messages[..i])
      {
        assert messages[..i + 1][..i] == messages[..i];
        r := r + NormalOne(messages[i]);
      }
      assert messages[..|messages|] == messages;
    }

    // The summary so far, with a snippet of this length in front, stays within
    // the budget.
    predicate Affords(m: Message, selected: seq<string>, omitted: nat, budget: int, limit: nat) {
      |f.encode(SummaryText([Line(f, m, limit)] + selected, omitted))| <= budget
    }

    function MostChars(m: Message): nat {
      Min(240, |f.compact(m.content)|)
    }

    // The lengths a binary search looks at as long as nothing fits.
    function Probes(high: int): set<nat>
      decreases high
    {
      if high < 1 then {} else {(1 + high) / 2} + Probes((1 + high) / 2 - 1)
    }

    // No length the search looks at fits.
    ghost predicate NoSnippetFits(m: Message, selected: seq<string>, omitted: nat, budget: int) {
      forall limit :: limit in Probes(MostChars(m)) ==> !Affords(m, selected, omitted, budget, limit)
    }

    // The snippet fits, and one character more does not.
    ghost predicate Snip(m: Message, selected: seq<string>, omitted: nat, budget: int, line: string, limit: nat) {
      && 1 <= limit <= MostChars(m) && line == Line(f, m, limit) && Affords(m, selected, omitted, budget, limit)
      && (limit < MostChars(m) ==> !Affords(m, selected, omitted, budget, limit + 1))
    }

    // A snippet with which the summary so far stays within the budget, found
    // by binary search.
    method BestLine(m: Message, selected: seq<string>, omitted: nat, budget: int) returns (best: Option<string>,
                    ghost limit: nat)
      ensures best.Some? ==> Snip(m, selected, omitted, budget, best.value, limit)
      ensures best.None? <==> NoSnippetFits(m, selected, omitted, budget)
    {
      hide Affords, Line;
      best, limit := None, 0;
      var low, high := 1, Min(240, |f.compact(m.content)|);
      ghost var all := Probes(high);
      while low <= high
        invariant 1 <= low <= high + 1 && high <= MostChars(m) && all == Probes(MostChars(m))
        invariant high == MostChars(m) || !Affords(m, selected, omitted, budget, high + 1)
        invariant best.None? ==> low == 1 && (forall t :: t in Probes(high) ==> t in all)
        invariant best.None? ==>
          forall t :: t in all && t !in Probes(high) ==> !Affords(m, selected, omitted, budget, t)
        invariant best.Some? ==>
          && limit == low - 1 && 1 <= limit <= MostChars(m) && best.value == Line(f, m, limit)
          && Affords(m, selected, omitted, budget, limit)
          && exists t :: t in all && Affords(m, selected, omitted, budget, t)
        decreases high - low + 1
      {
        var mid := (low + high) / 2;
        var line := Line(f, m, mid);
        if Affords(m, selected, omitted, budget, mid) {
          if best.None? { assert mid in Probes(high); }
          best, limit, low := Some(line), mid, mid + 1;
        } else {
          high := mid - 1;
        }
      }
    }

    // How the lines come about, from the last message to message number i: a
    // message without text is passed over, and so is one of which no snippet
    // fits in front of the lines behind it; every other one gives a line.
    ghost predicate Packed(messages: seq<Message>, lines: seq<string>, i: nat, budget: int)
      requires i <= |messages|
      decreases |messages| - i, 1
    {
      if i == |messages| then lines == []
      else
        var m := messages[i];
        if f.compact(m.content) == "" then Packed(messages, lines, i + 1, budget)
        else PassedOver(messages, lines, i, budget) || TakenUp(messages, lines, i, budget)
    }

    ghost predicate PassedOver(messages: seq<Message>, lines: seq<string>, i: nat, budget: int)
      requires i < |messages|
      decreases |messages| - i, 0
    {
      && |lines| < |messages| && NoSnippetFits(messages[i], lines, |messages| - (|lines| + 1), budget)
      && Packed(messages, lines, i + 1, budget)
    }

    ghost predicate TakenUp(messages: seq<Message>, lines: seq<string>, i: nat, budget: int)
      requires i < |messages|
      decreases |messages| - i, 0
    {
      && 0 < |lines| <= |messages|
      && (exists limit: nat :: FirstIsSnip(messages, lines, i, budget, limit))
      && Packed(messages, lines[1..], i + 1, budget)
    }

    ghost predicate FirstIsSnip(messages: seq<Message>, lines: seq<string>, i: nat, budget: int, limit: nat)
      requires i < |messages| && 0 < |lines| <= |messages|
    {
      Snip(messages[i], lines[1..], |messages| - |lines|, budget, lines[0], limit)
    }

    // The text when no line fits, cut to the budget if need be.
    function Marker(n: nat, budget: nat): string {
      var marker := SUMMARY_PREFIX + "\n- [" + Digits(n) + " earlier messages omitted.]";
      var ids := f.encode(marker);
      if |ids| > budget then f.decode(ids[..budget]) else marker
    }

    // The text is made of snippets of some of the messages, in order, as long
    // and as many as the budget holds, and a count of the others.
    ghost predicate Recounts(messages: seq<Message>, text: string, included: nat, dropped: nat, budget: nat) {
      exists lines :: |lines| == included && Extracts(f, messages, lines, 0) && Packed(messages, lines, 0, budget)
                      && text == if lines == [] then Marker(|messages|, budget) else SummaryText(lines, dropped)
    }

    // What a summary promises: it accounts for every message, and one that
    // includes a message is within its budget, whatever the tokenizer does.
    ghost predicate SummaryOk(messages: seq<Message>, budget: int, summary: Option<Message>, included: nat,
                              dropped: nat) {
      && included + dropped == |messages|
      && (summary.None? <==> messages == [] || budget < 8)
      && (summary.None? ==> included == 0)
      && (summary.Some? ==>
            && summary.value.role == "system"
            && Recounts(messages, summary.value.content, included, dropped, budget))
      && (included > 0 ==> |f.encode(summary.value.content)| <= budget)
    }

    method BuildSummary(messages: seq<Message>, budget: int) returns (summary: Option<Message>, included: nat,
                        dropped: nat)
      ensures SummaryOk(messages, budget, summary, included, dropped)
    {
      hide Extracts, TakesLine, SummaryText, Line, Packed, Snip, NoSnippetFits, Affords;
      if messages == [] || budget < 8 { return None, 0, |messages|; }
      var selected: seq<string> := [];
      included := 0;
      var i := |messages|;
      ExtractsNone(f, messages);
      PackedNone(messages, budget);
      while i > 0
        invariant 0 <= i <= |messages| && included == |selected| <= |messages| - i
        invariant Extracts(f, messages, selected, i) && Packed(messages, selected, i, budget)
        invariant included > 0 ==> |f.encode(SummaryText(selected, |messages| - included))| <= budget
      {
        i := i - 1;
        var m := messages[i];
        if f.compact(m.content) != "" {
          var best, limit := BestLine(m, selected, |messages| - (included + 1), budget);
          if best.Some? {
            SnipFits(m, selected, |messages| - (included + 1), budget, best.value, limit);
            ExtractsMore(f, messages, selected, i, best.value, limit);
            PackedMore(messages, selected, i, budget, best.value, limit);
            selected := [best.value] + selected;
            included := included + 1;
          } else {
            ExtractsEarlier(f, messages, selected, i + 1, i);
            PackedLess(messages, selected, i, budget);
          }
        } else {
          ExtractsEarlier(f, messages, selected, i + 1, i);
          PackedLess(messages, selected, i, budget);
        }
      }
      dropped := |messages| - included;
      if selected == [] {
        var marker := SUMMARY_PREFIX + "\n- [" + Digits(|messages|) + " earlier messages omitted.]";
        var ids := f.encode(marker);
        if |ids| > budget { marker := f.decode(ids[..budget]); }
        return Some(Message("system", marker)), 0, |messages|;
      }
      summary := Some(Message("system", SummaryText(selected, dropped)));
    }

    lemma PackedNone(messages: seq<Message>, budget: int)
      ensures Packed(messages, [], |messages|, budget)
    {
    }

    lemma SnipFits(m: Message, selected: seq<string>, omitted: nat, budget: int, line: string, limit: nat)
      requires Snip(m, selected, omitted, budget, line, limit)
      ensures 0 < limit && line == Line(f, m, limit)
      ensures |f.encode(SummaryText([line] + selected, omitted))| <= budget
    {
    }

    lemma PackedMore(messages: seq<Message>, selected: seq<string>, i: nat, budget: int, line: string, limit: nat)
      requires i < |messages| && f.compact(messages[i].content) != "" && |selected| < |messages|
      requires Packed(messages, selected, i + 1, budget)
      requires Snip(messages[i], selected, |messages| - (|selected| + 1), budget, line, limit)
      ensures Packed(messages, [line] + selected, i, budget)
    {
      hide Snip, NoSnippetFits;
      assert ([line] + selected)[1..] == selected;
      assert FirstIsSnip(messages, [line] + selected, i, budget, limit);
      assert TakenUp(messages, [line] + selected, i, budget);
    }

    lemma PackedLess(messages: seq<Message>, selected: seq<string>, i: nat, budget: int)
      requires i < |messages| && Packed(messages, selected, i + 1, budget) && |selected| < |messages|
      requires f.compact(messages[i].content) == ""
               || NoSnippetFits(messages[i], selected, |messages| - (|selected| + 1), budget)
      ensures Packed(messages, selected, i, budget)
    {
      hide Snip, NoSnippetFits;
    }

    function Candidate(systems: seq<Message>, summary: Option<Message>, recent: seq<Message>): seq<Message> {
      systems + (if summary.Some? then [summary.value] else []) + recent
    }

    function Tokens(messages: seq<Message>): seq<int> {
      f.encode(f.render(messages))
    }

    // A summary within this budget is too long still; the next try has the
    // overflow less, and at least eight tokens.
    ghost predicate TooLong(systems: seq<Message>, recent: seq<Message>, older: seq<Message>, promptBudget: int,
                            budget: int, next: int) {
      && budget >= 8
      && exists summary, included, dropped ::
           && SummaryOk(older, budget, summary, included, dropped)
           && |Tokens(Candidate(systems, summary, recent))| > promptBudget
           && next == budget - Max(8, |Tokens(Candidate(systems, summary, recent))| - promptBudget)
    }

    // The budgets tried one after the other.
    ghost predicate Tries(systems: seq<Message>, recent: seq<Message>, older: seq<Message>, promptBudget: int,
                          tries: seq<int>) {
      forall k :: 0 < k < |tries| ==> TooLong(systems, recent, older, promptBudget, tries[k - 1], tries[k])
    }

    // Tries smaller and smaller summaries: the first one that fits, or none
    // when the budget is used up.
    method ShrinkSummaryToFit(systems: seq<Message>, recent: seq<Message>, older: seq<Message>, promptBudget: int,
                              initial: int)
      returns (summary: Option<Message>, included: nat, dropped: nat, ghost tries: seq<int>)
      ensures tries != [] && tries[0] == initial && Tries(systems, recent, older, promptBudget, tries)
      ensures var last := tries[|tries| - 1];
        if last < 8 then summary == None && included == 0 && dropped == |older|
        else SummaryOk(older, last, summary, included, dropped)
             && |Tokens(Candidate(systems, summary, recent))| <= promptBudget
    {
      hide SummaryOk, Tokens, Candidate;
      var budget := initial;
      tries := [initial];
      while budget >= 8
        invariant tries != [] && tries[0] == initial && tries[|tries| - 1] == budget
        invariant Tries(systems, recent, older, promptBudget, tries)
        decreases budget
      {
        summary, included, dropped := BuildSummary(older, budget);
        var ids := Tokens(Candidate(systems, summary, recent));
        if |ids| <= promptBudget { return; }
        var next := budget - Max(8, |ids| - promptBudget);
        assert TooLong(systems, recent, older, promptBudget, budget, next);
        tries := tries + [next];
        budget := next;
      }
      return None, 0, |older|, tries;
    }

    // ---- Essential messages ----

    // Python slices saturate at the ends.
    function Front(ids: seq<int>, n: nat): seq<int> {
      if n < |ids| then ids[..n] else ids
    }

    function Back(ids: seq<int>, n: nat): seq<int> {
      if n < |ids| then ids[|ids| - n..] else ids
    }

    function HeadTailTokens(text: string, budget: int): string {
      var ids := f.encode(text);
      if |ids| <= budget then text
      else
        var marker := f.encode(TRUNCATION_MARKER);
        var room: nat := Max(1, budget - |marker|);
        var head: nat := Max(1, room * 65 / 100);
        var tail: nat := Max(0, room - head);
        f.decode(if tail > 0 then Front(ids, head) + marker + Back(ids, tail) else Front(ids, head))
    }

    // A text over its budget keeps 65 percent of what is left beside the marker
    // from its front and the rest from its back, at least one token in all.
    lemma HeadTailIs(text: string, budget: int) returns (head: nat, tail: nat)
      requires |f.encode(text)| > budget
      ensures var ids, marker := f.encode(text), f.encode(TRUNCATION_MARKER);
        && head >= 1 && head + tail == (if budget - |marker| > 1 then budget - |marker| else 1)
        && (100 * head <= 65 * (head + tail) < 100 * (head + 1) || head == 1)
        && (head + tail <= |ids| ==> HeadTailTokens(text, budget) == f.decode(
              if tail > 0 then ids[..head] + marker + ids[|ids| - tail..] else ids[..head]))
    {
      var room: nat := Max(1, budget - |f.encode(TRUNCATION_MARKER)|);
      head := Max(1, room * 65 / 100);
      tail := room - head;
      if tail == 0 { assert Front(f.encode(text), head) == f.encode(text)[..Min(head, |f.encode(text)|)]; }
    }

    ghost predicate IsLongest(messages: seq<Message>, i: nat) {
      && i < |messages| && messages[i].content != ""
      && (forall j :: 0 <= j < |messages| && messages[j].content != "" ==>
            |f.encode(messages[j].content)| <= |f.encode(messages[i].content)|)
      && (forall j :: 0 <= j < i && messages[j].content != "" ==>
            |f.encode(messages[j].content)| < |f.encode(messages[i].content)|)
    }

    // The first of the longest non-empty messages.
    method Longest(messages: seq<Message>) returns (index: Option<nat>)
      ensures index.Some? ==> IsLongest(messages, index.value)
      ensures index.None? ==> forall j :: 0 <= j < |messages| ==> messages[j].content == ""
    {
      index := None;
      for i := 0 to |messages|
        invariant index.Some? ==> IsLongest(messages[..i], index.value)
        invariant index.None? ==> forall j :: 0 <= j < i ==> messages[j].content == ""
      {
        if messages[i].content != "" {
          if index.None? || |f.encode(messages[i].content)| > |f.encode(messages[index.value].content)| {
            index := Some(i);
          }
        }
      }
      assert messages[..|messages|] == messages;
    }

    // The text cut to head and tail again and again.
    function Cut(text: string, budgets: seq<int>): string {
      if budgets == [] then text
      else HeadTailTokens(Cut(text, budgets[..|budgets| - 1]), budgets[|budgets| - 1])
    }

    ghost predicate IsCut(text: string, original: string) {
      exists budgets :: text == Cut(original, budgets)
    }

    // The same messages, some of them cut.
    ghost predicate CutFrom(a: seq<Message>, b: seq<Message>) {
      |a| == |b| && forall i :: 0 <= i < |a| ==> a[i].role == b[i].role && IsCut(a[i].content, b[i].content)
    }

    lemma Uncut(messages: seq<Message>)
      ensures CutFrom(messages, messages)
    {
      forall i | 0 <= i < |messages| ensures IsCut(messages[i].content, messages[i].content) {
        assert Cut(messages[i].content, []) == messages[i].content;
      }
    }

    lemma CutAgain(text: string, original: string, budget: int)
      requires IsCut(text, original)
      ensures IsCut(HeadTailTokens(text, budget), original)
    {
      hide HeadTailTokens;
      var budgets :| text == Cut(original, budgets);
      assert (budgets + [budget])[..|budgets|] == budgets;
      assert Cut(original, budgets + [budget]) == HeadTailTokens(text, budget);
    }

    // One cut: the longest message, by what the prompt is too long, and four
    // tokens more.
    ghost predicate Trims(a: seq<Message>, b: seq<Message>, promptBudget: int) {
      && |Tokens(a)| > promptBudget
      && exists i: nat ::
           && IsLongest(a, i) && |f.encode(a[i].content)| > 4
           && b == a[i := a[i].(content := HeadTailTokens(a[i].content,
                Max(4, |f.encode(a[i].content)| - (|Tokens(a)| - promptBudget) - 4)))]
    }

    // Cuts one after the other.
    ghost predicate Trimmed(steps: seq<seq<Message>>, promptBudget: int) {
      forall k :: 0 < k < |steps| ==> Trims(steps[k - 1], steps[k], promptBudget)
    }

    // There is nothing left that is worth cutting.
    ghost predicate Bare(messages: seq<Message>) {
      forall i: nat :: IsLongest(messages, i) ==> |f.encode(messages[i].content)| <= 4
    }

    // Cuts the longest message until the rest fits, at most 64 times; None
    // stands for the error when the rest is still too long.
    method FitEssentialMessages(messages: seq<Message>, promptBudget: int) returns (fitted: Option<seq<Message>>,
                                ghost steps: seq<seq<Message>>)
      ensures 0 < |steps| <= 65 && steps[0] == messages && Trimmed(steps, promptBudget)
      ensures var rest := steps[|steps| - 1];
        && CutFrom(rest, messages)
        && (fitted == if |Tokens(rest)| <= promptBudget then Some(rest) else None)
        && (fitted.None? ==> |steps| == 65 || Bare(rest))
    {
      hide IsCut, HeadTailTokens, IsLongest;
      var current := messages;
      steps := [messages];
      Uncut(messages);
      for n := 0 to 64
        invariant |steps| == n + 1 && steps[0] == messages && steps[n] == current && Trimmed(steps, promptBudget)
        invariant CutFrom(current, messages)
      {
        var ids := Tokens(current);
        if |ids| <= promptBudget { return Some(current), steps; }
        var overflow := |ids| - promptBudget;
        var index := Longest(current);
        if index.None? {
          NoneIsLongest(current);
          break;
        }
        var i := index.value;
        var size := |f.encode(current[i].content)|;
        if size <= 4 {
          LongestIsBare(current, i);
          break;
        }
        var target := Max(4, size - overflow - 4);
        CutAgain(current[i].content, messages[i].content, target);
        var next := current[i := current[i].(content := HeadTailTokens(current[i].content, target))];
        assert Trims(current, next, promptBudget);
        current := next;
        steps := steps + [current];
      }
      if |Tokens(current)| > promptBudget { return None, steps; }
      return Some(current), steps;
    }

    lemma NoneIsLongest(messages: seq<Message>)
      requires forall j :: 0 <= j < |messages| ==> messages[j].content == ""
      ensures Bare(messages)
    {
    }

    lemma LongestIsBare(messages: seq<Message>, i: nat)
      requires IsLongest(messages, i) && |f.encode(messages[i].content)| <= 4
      ensures Bare(messages)
    {
    }

    // ---- fit ----

    function Systems(messages: seq<Message>): seq<Message> {
      if messages == [] then []
      else
        var n := |messages| - 1;
        Systems(messages[..n]) + if messages[n].role == "system" then [messages[n]] else []
    }

    function Conversation(messages: seq<Message>): seq<Message> {
      if messages == [] then []
      else
        var n := |messages| - 1;
        Conversation(messages[..n]) + if messages[n].role != "system" then [messages[n]] else []
    }

    lemma {:induction false} SplitCount(messages: seq<Message>)
      ensures |Systems(messages)| + |Conversation(messages)| == |messages|
    {
      if messages != [] { SplitCount(messages[..|messages| - 1]); }
    }

    method Split(messages: seq<Message>) returns (systems: seq<Message>, conversation: seq<Message>)
      ensures systems == Systems(messages) && conversation == Conversation(messages)
    {
      systems, conversation := [], [];
      for i := 0 to |messages|
        invariant systems == Systems(messages[..i]) && conversation == Conversation(messages[..i])
      {
        assert messages[..i + 1][..i] == messages[..i];
        if messages[i].role == "system" {
          systems := systems + [messages[i]];
        } else {
          conversation := conversation + [messages[i]];
        }
      }
      assert messages[..|messages|] == messages;
    }

    method Flatten(turns: seq<seq<Message>>) returns (r: seq<Message>)
      ensures r == Flat(turns)
    {
      r := [];
      for i := 0 to |turns|
        invariant r == Flat(turns[..i])
      {
        assert turns[..i + 1][..i] == turns[..i];
        r := r + turns[i];
      }
      assert turns[..|turns|] == turns;
    }

    function PromptBudget(maxOutput: int): int {
      if compactAt.Some? then Min(maxSeqLen - maxOutput, compactAt.value) else maxSeqLen - maxOutput
    }

    // The turns of a conversation: a user message opens a new one.
    ghost function GroupOf(messages: seq<Message>): seq<seq<Message>> {
      if messages == [] then []
      else
        var n := |messages| - 1;
        var turns := GroupOf(messages[..n]);
        if turns == [] || messages[n].role == "user" then turns + [[messages[n]]]
        else turns[..|turns| - 1] + [turns[|turns| - 1] + [messages[n]]]
    }

    lemma {:induction false} GroupIs(messages: seq<Message>)
      ensures Flat(GroupOf(messages)) == messages && Turns(GroupOf(messages))
    {
      hide Flat, Turns;
      NoTurns();
      if messages != [] {
        var n := |messages| - 1;
        GroupIs(messages[..n]);
        assert messages == messages[..n] + [messages[n]];
        OneMore(GroupOf(messages[..n]), messages[n]);
      }
    }

    lemma OneMore(turns: seq<seq<Message>>, m: Message)
      requires Turns(turns)
      ensures var more := if turns == [] || m.role == "user" then turns + [[m]]
                          else turns[..|turns| - 1] + [turns[|turns| - 1] + [m]];
        Turns(more) && Flat(more) == Flat(turns) + [m]
    {
      if turns == [] || m.role == "user" {
        OneTurnMore(turns, [m]);
      } else {
        var k := |turns| - 1;
        assert turns == turns[..k] + [turns[k]] && IsTurn(turns[k]);
        OneMessageMore(turns[k], m);
        assert Turns(turns[..k]);
        OneTurnMore(turns[..k], turns[k] + [m]);
      }
    }

    // Two ways to cut the same messages into turns are the same.
    lemma {:induction false} TurnsAreUnique(a: seq<seq<Message>>, b: seq<seq<Message>>)
      requires Turns(a) && Turns(b) && Flat(a) == Flat(b)
      ensures a == b
    {
      if a == [] || b == [] {
        NonEmptyTurns(a);
        NonEmptyTurns(b);
      } else {
        var m, n := |a| - 1, |b| - 1;
        LastTurns(a, b);
        assert Flat(a[..m]) == Flat(b[..n]);
        TurnsAreUnique(a[..m], b[..n]);
        assert a == a[..m] + [a[m]] && b == b[..n] + [b[n]];
      }
    }

    lemma NonEmptyTurns(a: seq<seq<Message>>)
      requires Turns(a)
      ensures Flat(a) == [] <==> a == []
    {
      if a != [] { assert IsTurn(a[|a| - 1]); }
    }

    // The last turn begins at the last user message, or is everything.
    lemma LastTurnIs(a: seq<seq<Message>>, all: seq<Message>) returns (start: nat)
      requires Turns(a) && a != [] && Flat(a) == all
      ensures start < |all| && a[|a| - 1] == all[start..] && Flat(a[..|a| - 1]) == all[..start]
      ensures start > 0 ==> all[start].role == "user"
      ensures forall k :: start < k < |all| ==> all[k].role != "user"
    {
      var m := |a| - 1;
      assert IsTurn(a[m]) && all == Flat(a[..m]) + a[m];
      start := |all| - |a[m]|;
      NonEmptyTurns(a[..m]);
      assert all[start] == a[m][0];
      forall k | start < k < |all| ensures all[k].role != "user" { assert all[k] == a[m][k - start]; }
    }

    lemma LastTurns(a: seq<seq<Message>>, b: seq<seq<Message>>)
      requires Turns(a) && Turns(b) && a != [] && b != [] && Flat(a) == Flat(b)
      ensures a[|a| - 1] == b[|b| - 1] && Flat(a[..|a| - 1]) == Flat(b[..|b| - 1])
    {
      var x := LastTurnIs(a, Flat(a));
      var y := LastTurnIs(b, Flat(a));
    }

    // The older turns and the recent turns are the turns, in order, and the
    // newest turn is always recent.
    ghost predicate Parted(turns: seq<seq<Message>>, older: seq<seq<Message>>, recent: seq<seq<Message>>) {
      older + recent == turns && (turns != [] ==> recent != []) && |recent| <= recentTurns
    }

    // This tail of turns fits behind the system messages without a summary.
    ghost predicate TailFits(normal: seq<Message>, i: nat, budget: int)
      requires i <= |GroupOf(Conversation(normal))|
    {
      |Tokens(Systems(normal) + Flat(GroupOf(Conversation(normal))[i..]))| <= budget
    }

    // No tail of more than n turns would fit, even without a summary.
    ghost predicate NoneLonger(normal: seq<Message>, turns: seq<seq<Message>>, n: nat, budget: int) {
      forall i :: 0 <= i < |turns| - n && |turns| - i <= recentTurns ==>
        |Tokens(Systems(normal) + Flat(turns[i..]))| > budget
    }

    // The tokens a summary may have at first.
    function SummaryBudget(promptBudget: int): int {
      Min(maxSummaryTokens, Max(16, promptBudget / 4))
    }

    // What is in the prompt: everything; or the system messages, a summary
    // and the newest turns verbatim, as many as fit; or, when not even the
    // newest turn fits, the system messages and that turn, cut.
    ghost predicate Shape(normal: seq<Message>, plan: Plan) {
      || (plan.messages == normal && plan.retained == |normal| && plan.summarized == plan.dropped == 0)
      || (exists older, recent, summary :: Compacted(normal, plan, older, recent, summary))
      || (exists older, recent :: Shortened(normal, plan, older, recent))
    }

    // The summary is the first in the row of tries that fits.
    ghost predicate Summarised(systems: seq<Message>, recent: seq<Message>, older: seq<Message>, promptBudget: int,
                               summary: Option<Message>, included: nat, dropped: nat) {
      exists tries :: tries != [] && tries[0] == SummaryBudget(promptBudget)
                      && Tries(systems, recent, older, promptBudget, tries)
                      && LastTry(systems, recent, older, promptBudget, tries[|tries| - 1], summary, included, dropped)
    }

    ghost predicate LastTry(systems: seq<Message>, recent: seq<Message>, older: seq<Message>, promptBudget: int,
                            budget: int, summary: Option<Message>, included: nat, dropped: nat) {
      if budget < 8 then summary == None && included == 0 && dropped == |older|
      else SummaryOk(older, budget, summary, included, dropped)
           && |Tokens(Candidate(systems, summary, recent))| <= promptBudget
    }

    ghost predicate Compacted(normal: seq<Message>, plan: Plan, older: seq<seq<Message>>, recent: seq<seq<Message>>,
                              summary: Option<Message>)
    {
      var turns := GroupOf(Conversation(normal));
      && Parted(turns, older, recent)
      && plan.messages == Candidate(Systems(normal), summary, Flat(recent))
      && plan.retained == |Systems(normal)| + |Flat(recent)|
      && plan.summarized + plan.dropped == |Flat(older)|
      && Summarised(Systems(normal), Flat(recent), Flat(older), PromptBudget(plan.reserved), summary, plan.summarized,
                    plan.dropped)
      && plan.summaryTokens == (if summary.Some? then |f.encode(summary.value.content)| else 0)
      && NoneLonger(normal, turns, |recent|, PromptBudget(plan.reserved))
    }

    ghost predicate Shortened(normal: seq<Message>, plan: Plan, older: seq<seq<Message>>, recent: seq<seq<Message>>) {
      var turns := GroupOf(Conversation(normal));
      && Parted(turns, older, recent) && |recent| <= 1
      && CutFrom(plan.messages, Systems(normal) + Flat(recent))
      && plan.retained == |plan.messages| && plan.summarized == 0
      && |Tokens(Systems(normal) + Flat(recent))| > PromptBudget(plan.reserved)
      && NoneLonger(normal, turns, |recent|, PromptBudget(plan.reserved))
    }

    // What every returned plan satisfies.
    ghost predicate PlanOk(messages: seq<Message>, maxOutput: int, plan: Plan) {
      && plan.prompt == f.render(plan.messages) && plan.promptIds == f.encode(plan.prompt)
      && plan.reserved == maxOutput
      && |plan.promptIds| + plan.reserved <= maxSeqLen
      && (compactAt.Some? ==> |plan.promptIds| <= compactAt.value)
      && plan.original == |Normalize(messages)|
      && plan.retained + plan.summarized + plan.dropped == plan.original
      && plan.originalTokens == |Tokens(Normalize(messages))|
      && Shape(Normalize(messages), plan)
    }

    function MakePlan(messages: seq<Message>, maxOutput: int, original: nat, retained: nat, summarized: nat,
                      dropped: nat,
                      originalTokens: nat, summaryTokens: nat): Plan
    {
      Plan(messages, f.render(messages), Tokens(messages), maxOutput, original, retained, summarized, dropped,
           originalTokens, summaryTokens)
    }

    lemma PartCounts(turns: seq<seq<Message>>, older: seq<seq<Message>>, recent: seq<seq<Message>>)
      requires older + recent == turns
      ensures |Flat(older)| + |Flat(recent)| == |Flat(turns)|
    {
      FlatAppend(older, recent);
    }

    method SummaryTokens(summary: Option<Message>) returns (n: nat)
      ensures n == if summary.Some? then |f.encode(summary.value.content)| else 0
    {
      n := if summary.Some? then |f.encode(summary.value.content)| else 0;
    }

    // A summary of the older turns, shrunk if need be, before the recent ones.
    method Summarise(systems: seq<Message>, recent: seq<Message>, older: seq<Message>, promptBudget: int)
      returns (fits: bool, summary: Option<Message>, included: nat, dropped: nat)
      ensures included + dropped == |older|
      ensures fits ==>
        && Summarised(systems, recent, older, promptBudget, summary, included, dropped)
        && |Tokens(Candidate(systems, summary, recent))| <= promptBudget
      ensures !fits ==> |Tokens(Candidate(systems, None, recent))| > promptBudget
    {
      hide SummaryOk, Tokens, Candidate;
      var summaryBudget := SummaryBudget(promptBudget);
      fits := true;
      summary, included, dropped := BuildSummary(older, summaryBudget);
      SummaryCounts(older, summaryBudget, summary, included, dropped);
      if |Tokens(Candidate(systems, summary, recent))| > promptBudget {
        if summary.None? { return false, None, included, dropped; }
        ghost var tries: seq<int>;
        summary, included, dropped, tries := ShrinkSummaryToFit(systems, recent, older, promptBudget, summaryBudget);
        if tries[|tries| - 1] >= 8 {
          SummaryCounts(older, tries[|tries| - 1], summary, included, dropped);
        }
        if |Tokens(Candidate(systems, summary, recent))| > promptBudget { return false, None, included, dropped; }
        assert LastTry(systems, recent, older, promptBudget, tries[|tries| - 1], summary, included, dropped);
      } else {
        assert summaryBudget >= 16;
        ghost var tries := [summaryBudget];
        assert Tries(systems, recent, older, promptBudget, tries);
        assert LastTry(systems, recent, older, promptBudget, tries[|tries| - 1], summary, included, dropped);
      }
    }

    lemma SummaryCounts(messages: seq<Message>, budget: int, summary: Option<Message>, included: nat, dropped: nat)
      requires SummaryOk(messages, budget, summary, included, dropped)
      ensures included + dropped == |messages|
    {
    }

    lemma CompactedIsOk(messages: seq<Message>, maxOutput: int, older: seq<seq<Message>>, recent: seq<seq<Message>>,
                        summary: Option<Message>, included: nat, dropped: nat)
      requires Parted(GroupOf(Conversation(Normalize(messages))), older, recent)
      requires Summarised(Systems(Normalize(messages)), Flat(recent), Flat(older), PromptBudget(maxOutput), summary,
                          included, dropped)
      requires included + dropped == |Flat(older)|
      requires |Tokens(Candidate(Systems(Normalize(messages)), summary, Flat(recent)))| <= PromptBudget(maxOutput)
      requires NoneLonger(Normalize(messages), GroupOf(Conversation(Normalize(messages))), |recent|,
                          PromptBudget(maxOutput))
      ensures var normal := Normalize(messages);
        PlanOk(messages, maxOutput,
               MakePlan(Candidate(Systems(normal), summary, Flat(recent)), maxOutput, |normal|,
                        |Systems(normal)| + |Flat(recent)|, included, dropped, |Tokens(normal)|,
                        if summary.Some? then |f.encode(summary.value.content)| else 0))
    {
      var normal := Normalize(messages);
      hide Summarised, NoneLonger, GroupOf, Flat, Normalize, Systems, Conversation, Candidate;
      PartCounts(GroupOf(Conversation(normal)), older, recent);
      GroupIs(Conversation(normal));
      SplitCount(normal);
      var p := MakePlan(Candidate(Systems(normal), summary, Flat(recent)), maxOutput, |normal|,
                        |Systems(normal)| + |Flat(recent)|, included, dropped, |Tokens(normal)|,
                        if summary.Some? then |f.encode(summary.value.content)| else 0);
      assert Compacted(normal, p, older, recent, summary);
    }

    // One attempt with a given split.
    method TryCompact(ghost messages: seq<Message>, systems: seq<Message>, original: nat, originalTokens: nat,
                      older: seq<seq<Message>>, recent: seq<seq<Message>>, maxOutput: int, promptBudget: int)
      returns (plan: Option<Plan>)
      requires systems == Systems(Normalize(messages)) && original == |Normalize(messages)|
      requires originalTokens == |Tokens(Normalize(messages))|
      requires Parted(GroupOf(Conversation(Normalize(messages))), older, recent)
      requires promptBudget == PromptBudget(maxOutput)
      requires NoneLonger(Normalize(messages), GroupOf(Conversation(Normalize(messages))), |recent|, promptBudget)
      ensures plan.Some? ==> PlanOk(messages, maxOutput, plan.value)
      ensures plan.None? ==> |Tokens(systems + Flat(recent))| > promptBudget
    {
      hide Summarised, NoneLonger, GroupOf, Parted, PlanOk, PromptBudget, Normalize, Conversation, Flat, Tokens;
      var recentMessages := Flatten(recent);
      var olderMessages := Flatten(older);
      assert Candidate(systems, None, recentMessages) == systems + Flat(recent);
      var fits, summary, included, dropped := Summarise(systems, recentMessages, olderMessages, promptBudget);
      if !fits { return None; }
      var tokens := SummaryTokens(summary);
      CompactedIsOk(messages, maxOutput, older, recent, summary, included, dropped);
      plan := Some(MakePlan(Candidate(systems, summary, recentMessages), maxOutput, original,
                            |systems| + |recentMessages|, included, dropped, originalTokens, tokens));
    }

    lemma WholeIsOk(messages: seq<Message>, maxOutput: int)
      requires |Tokens(Normalize(messages))| <= PromptBudget(maxOutput)
      ensures var normal := Normalize(messages);
        var p := MakePlan(normal, maxOutput, |normal|, |normal|, 0, 0, |Tokens(normal)|, 0);
        PlanOk(messages, maxOutput, p) && p.messages == normal
    {
    }

    // Some tail of the turns fits: of at most as many turns as are kept
    // verbatim, and of one at least if there is any.
    ghost predicate SomeTailFits(normal: seq<Message>, budget: int) {
      var n := |GroupOf(Conversation(normal))|;
      exists i :: 0 <= i <= n && n - i <= recentTurns && (n > 0 ==> i < n) && TailFits(normal, i, budget)
    }

    // Cutting the system messages and the newest turn does not make them fit.
    ghost predicate Hopeless(normal: seq<Message>, budget: int) {
      exists steps :: CutInVain(steps, Essential(normal), budget)
    }

    // The system messages and the newest turn.
    ghost function Essential(normal: seq<Message>): seq<Message> {
      var turns := GroupOf(Conversation(normal));
      Systems(normal) + if turns == [] then [] else turns[|turns| - 1]
    }

    ghost predicate CutInVain(steps: seq<seq<Message>>, messages: seq<Message>, budget: int) {
      && 0 < |steps| <= 65 && Trimmed(steps, budget) && steps[0] == messages
      && |Tokens(steps[|steps| - 1])| > budget && (|steps| == 65 || Bare(steps[|steps| - 1]))
    }

    // A plan is returned exactly when there is something to plan, and either
    // something fits or cutting makes it fit.
    method Fit(messages: seq<Message>, maxOutput: int) returns (r: Outcome)
      ensures r.Fitted? ==> PlanOk(messages, maxOutput, r.plan)
      ensures maxOutput < 1 || PromptBudget(maxOutput) < 1 || Normalize(messages) == [] ==> r == Error
      ensures maxOutput >= 1 && PromptBudget(maxOutput) >= 1 && Normalize(messages) != []
              && (|Tokens(Normalize(messages))| <= PromptBudget(maxOutput)
                  || SomeTailFits(Normalize(messages), PromptBudget(maxOutput)))
              ==> r.Fitted?
      ensures r.Error? ==>
        || maxOutput < 1 || PromptBudget(maxOutput) < 1 || Normalize(messages) == []
        || Hopeless(Normalize(messages), PromptBudget(maxOutput))
      ensures r.Fitted? && |Tokens(Normalize(messages))| <= PromptBudget(maxOutput) ==>
        r.plan.messages == Normalize(messages)
    {
      hide PlanOk, MakePlan, Normalize, Tokens, Turns, Conversation, Systems, Flat, GroupOf, Hopeless;
      if maxOutput < 1 { return Error; }
      var promptBudget := PromptBudget(maxOutput);
      if promptBudget < 1 { return Error; }
      var normal := NormalizeAll(messages);
      if normal == [] { return Error; }
      var originalTokens := |Tokens(normal)|;
      if originalTokens <= promptBudget {
        WholeIsOk(messages, maxOutput);
        return Fitted(MakePlan(normal, maxOutput, |normal|, |normal|, 0, 0, originalTokens, 0));
      }
      var systems, conversation := Split(normal);
      var turns := GroupTurns(conversation);
      GroupIs(conversation);
      TurnsAreUnique(turns, GroupOf(conversation));
      var cut := if |turns| > recentTurns then |turns| - recentTurns else 0;
      var older, recent := turns[..cut], turns[cut..];
      while true
        invariant Parted(turns, older, recent) && NoneLonger(normal, turns, |recent|, promptBudget)
        decreases |recent|
      {
        var plan := TryCompact(messages, systems, |normal|, originalTokens, older, recent, maxOutput, promptBudget);
        if plan.Some? { return Fitted(plan.value); }
        FailedTail(normal, turns, older, recent, promptBudget);
        if |recent| <= 1 { break; }
        assert older + [recent[0]] + recent[1..] == older + recent;
        older, recent := older + [recent[0]], recent[1..];
      }
      NoTailFits(normal, older, recent, promptBudget);
      r := FitRest(messages, systems, |normal|, originalTokens, older, recent, maxOutput, promptBudget);
    }

    lemma FailedTail(normal: seq<Message>, turns: seq<seq<Message>>, older: seq<seq<Message>>,
                     recent: seq<seq<Message>>, budget: int)
      requires older + recent == turns && NoneLonger(normal, turns, |recent|, budget)
      requires |Tokens(Systems(normal) + Flat(recent))| > budget
      ensures |recent| > 0 ==> NoneLonger(normal, turns, |recent| - 1, budget)
    {
      hide Tokens, Flat, Systems;
      assert turns[|older|..] == recent;
    }

    lemma NoTailFits(normal: seq<Message>, older: seq<seq<Message>>, recent: seq<seq<Message>>, budget: int)
      requires Parted(GroupOf(Conversation(normal)), older, recent) && |recent| <= 1
      requires NoneLonger(normal, GroupOf(Conversation(normal)), |recent|, budget)
      requires |Tokens(Systems(normal) + Flat(recent))| > budget
      ensures !SomeTailFits(normal, budget)
    {
      hide Tokens, Flat, Systems, GroupOf, Conversation;
      var turns := GroupOf(Conversation(normal));
      assert turns[|older|..] == recent;
    }

    // The last resort: system messages and the newest turn, cut.
    method FitRest(ghost messages: seq<Message>, systems: seq<Message>, original: nat, originalTokens: nat,
                   ghost older: seq<seq<Message>>, recent: seq<seq<Message>>, maxOutput: int, promptBudget: int)
      returns (r: Outcome)
      requires systems == Systems(Normalize(messages)) && original == |Normalize(messages)|
      requires originalTokens == |Tokens(Normalize(messages))|
      requires Parted(GroupOf(Conversation(Normalize(messages))), older, recent) && |recent| <= 1
      requires promptBudget == PromptBudget(maxOutput)
      requires NoneLonger(Normalize(messages), GroupOf(Conversation(Normalize(messages))), |recent|, promptBudget)
      requires |Tokens(systems + Flat(recent))| > promptBudget
      ensures r.Fitted? ==> PlanOk(messages, maxOutput, r.plan)
      ensures r.Error? ==> Hopeless(Normalize(messages), promptBudget)
    {
      hide NoneLonger, IsCut, GroupOf, Bare, Trimmed;
      GroupIs(Conversation(Normalize(messages)));
      PartCounts(GroupOf(Conversation(Normalize(messages))), older, recent);
      SplitCount(Normalize(messages));
      NewestTurn(GroupOf(Conversation(Normalize(messages))), older, recent);
      var recentMessages := Flatten(recent);
      var fitted, steps := FitEssentialMessages(systems + recentMessages, promptBudget);
      if fitted.None? {
        assert CutInVain(steps, Essential(Normalize(messages)), promptBudget);
        return Error;
      }
      var kept := |fitted.value|;
      var p := MakePlan(fitted.value, maxOutput, original, kept, 0, Max(0, original - kept), originalTokens, 0);
      assert Shortened(Normalize(messages), p, older, recent);
      r := Fitted(p);
    }

    lemma NewestTurn(turns: seq<seq<Message>>, older: seq<seq<Message>>, recent: seq<seq<Message>>)
      requires Parted(turns, older, recent) && |recent| <= 1
      ensures Flat(recent) == if turns == [] then [] else turns[|turns| - 1]
    {
      if turns != [] {
        assert turns[|turns| - 1] == recent[0] && recent[..0] == [];
      }
    }
  }
}
