/** Token estimates, and which messages a compaction summarizes and which it keeps. */
module Compaction {
  import opened Basics
  import opened Messages
  import Utf8
  import opened Weights
  import AgentTurn

  // ---------------------------------------------------------------- estimates

  function TextTokens(text: string): u32
  {
    (Utf8.Bytes(text) % 0x1_0000_0000 + 3) / 4
  }

  const IMAGE_TOKENS: u32 := 1200

  function BlockTokens(block: ContentBlock): u32
  {
    match block
    case Text(text) => TextTokens(text)
    case ToolCall(_, name, arguments) => SaturatingAdd(TextTokens(name), TextTokens(arguments))
    case Thinking(thinking) => TextTokens(thinking)
    case Image(_) => IMAGE_TOKENS
  }

  function ContentTokens(content: seq<ContentBlock>): u32
  {
    if content == [] then 0 else
      SaturatingAdd(ContentTokens(content[..|content| - 1]), BlockTokens(content[|content| - 1]))
  }

  function MessageTokens(m: Message): u32
  {
    match m
    case UserText(_, text) => TextTokens(text)
    case FromAssistant(_, a) => ContentTokens(a.content)
    case ToolResult(_, _, _, _, content) => ContentTokens(content)
    case SystemPrompt(_, text) => TextTokens(text)
    case CompactionSummary(_, summary, _) => TextTokens(summary)
    case BashExecution(_, command, output, excluded) =>
      if excluded then 0 else SaturatingAdd(TextTokens(command), TextTokens(output))
    case Custom(_, content) => ContentTokens(content)
    case BranchSummary(_, summary, _) => TextTokens(summary)
  }

  /** The tokens of all messages, without a bound. */
  function TokenSum(messages: seq<Message>): nat
  {
    if messages == [] then 0 else TokenSum(messages[..|messages| - 1]) + MessageTokens(messages[|messages| - 1])
  }

  function Estimate(messages: seq<Message>): u32
  {
    if TokenSum(messages) > U32_MAX then U32_MAX else TokenSum(messages)
  }

  lemma TextWeighs(text: string)
    ensures TextTokens(text) == Capped(Weight([text], 0))
  {
    WeightOne(text);
  }

  lemma TwoTextsWeigh(text: string, other: string)
    ensures SaturatingAdd(TextTokens(text), TextTokens(other)) == Capped(Weight([text, other], 0))
  {
    WeightTwo(text, other);
  }

  lemma NoTextWeighs(images: nat)
    ensures Weight([], images) == images * IMAGE_WEIGHT
  {
  }

  lemma BlockWeighs(block: ContentBlock)
    ensures BlockTokens(block) == Capped(Weight(BlockTexts(block), if block.Image? then 1 else 0))
  {
    match block
    case Text(text) => TextWeighs(text);
    case Thinking(thinking) => TextWeighs(thinking);
    case ToolCall(_, name, arguments) => TwoTextsWeigh(name, arguments);
    case Image(_) => NoTextWeighs(1);
  }

  lemma WeighsOn(texts: seq<string>, images: nat, more: seq<string>, others: nat, a: u32, b: u32)
    requires a == Capped(Weight(texts, images)) && b == Capped(Weight(more, others))
    ensures SaturatingAdd(a, b) == Capped(Weight(texts + more, images + others))
  {
    WeightAdds(texts, more, images, others);
    CappedSum(Weight(texts, images), Weight(more, others));
  }

  lemma {:induction false} ContentWeighs(content: seq<ContentBlock>)
    ensures ContentTokens(content) == Capped(Weight(TextsIn(content), ImagesIn(content)))
  {
    if content == [] {
      NoTextWeighs(0);
    } else {
      var before, last := content[..|content| - 1], content[|content| - 1];
      ContentWeighs(before);
      BlockWeighs(last);
      WeighsOn(TextsIn(before), ImagesIn(before), BlockTexts(last), if last.Image? then 1 else 0, ContentTokens(before),
               BlockTokens(last));
    }
  }

  /** A message counts for what it weighs, as far as 32 bits hold it. */
  lemma MessageWeighs(m: Message)
    ensures MessageTokens(m) == Capped(WeightOf(m))
  {
    match m
    case UserText(_, text) => TextWeighs(text);
    case SystemPrompt(_, text) => TextWeighs(text);
    case CompactionSummary(_, summary, _) => TextWeighs(summary);
    case BranchSummary(_, summary, _) => TextWeighs(summary);
    case BashExecution(_, command, output, excluded) =>
      if excluded { NoTextWeighs(0); } else { TwoTextsWeigh(command, output); }
    case _ => ContentWeighs(ContentOf(m));
  }

  /** And so does a conversation. */
  lemma {:induction false} EstimateWeighs(messages: seq<Message>)
    ensures Estimate(messages) == Capped(TotalWeight(messages))
  {
    if messages != [] {
      var n := |messages| - 1;
      EstimateWeighs(messages[..n]);
      MessageWeighs(messages[n]);
      CappedSum(TotalWeight(messages[..n]), WeightOf(messages[n]));
    }
  }

  /** The saturating loop computes the bounded sum: every text counts a quarter of its bytes, rounded up, and every
      image its fixed weight. */
  method EstimateTokens(messages: seq<Message>) returns (total: u32)
    ensures total == Estimate(messages) == Capped(TotalWeight(messages))
  {
    EstimateWeighs(messages);
    total := 0;
    for i := 0 to |messages|
      invariant total == Estimate(messages[..i])
    {
      assert messages[..i + 1][..i] == messages[..i];
      total := SaturatingAdd(total, MessageTokens(messages[i]));
    }
    assert messages[..|messages|] == messages;
  }

  lemma {:induction false} TokenSumConcat(a: seq<Message>, b: seq<Message>)
    ensures TokenSum(a + b) == TokenSum(a) + TokenSum(b)
  {
    if b == [] {
      assert a + b == a;
    } else {
      var last := |b| - 1;
      assert (a + b)[..|a| + last] == a + b[..last];
      TokenSumConcat(a, b[..last]);
    }
  }

  /** The estimate of messages side by side is the saturated sum of their estimates. */
  lemma EstimateConcat(a: seq<Message>, b: seq<Message>)
    ensures Estimate(a + b) == SaturatingAdd(Estimate(a), Estimate(b))
  {
    TokenSumConcat(a, b);
  }

  lemma EstimateOne(m: Message)
    ensures TokenSum([m]) == MessageTokens(m) && Estimate([m]) == MessageTokens(m)
  {
    assert [m][..0] == [];
  }

  // ---------------------------------------------------------------- usage anchors

  function ContextTokens(usage: Usage): u32
  {
    if usage.total > 0 then usage.total else
      SaturatingAdd(SaturatingAdd(SaturatingAdd(usage.input, usage.output), usage.cacheRead), usage.cacheWrite)
  }

  /** An assistant message whose usage says how large the context was. */
  predicate Anchors(m: Message)
  {
    m.FromAssistant? && !m.assistant.stopReason.Error? && !m.assistant.stopReason.Aborted?
      && ContextTokens(m.assistant.usage) > 0
  }

  /** The total that a usage gives, or what its parts come to as far as 32 bits hold it. */
  lemma ContextTokensMean(usage: Usage)
    ensures usage.total > 0 ==> ContextTokens(usage) == usage.total
    ensures usage.total == 0 ==>
            ContextTokens(usage) == Capped(usage.input + usage.output + usage.cacheRead + usage.cacheWrite)
  {
  }

  /** Exactly the replies that came to a proper end and report some usage are anchors. */
  lemma AnchorsMean(m: Message)
    ensures Anchors(m) <==>
            && m.FromAssistant? && m.assistant.stopReason in {Stop, Length, ToolUse}
            && m.assistant.usage != Usage(0, 0, 0, 0, 0)
  {
    if m.FromAssistant? { ContextTokensMean(m.assistant.usage); }
  }

  /** Where the newest anchor is. */
  ghost predicate NewestAnchor(messages: seq<Message>, at: Option<nat>)
  {
    match at
    case None => forall i :: 0 <= i < |messages| ==> !Anchors(messages[i])
    case Some(k) => k < |messages| && Anchors(messages[k]) && forall i :: k < i < |messages| ==> !Anchors(messages[i])
  }

  method LastValidUsage(messages: seq<Message>) returns (r: Option<(Usage, nat)>)
    ensures NewestAnchor(messages, if r.Some? then Some(r.value.1) else None)
    ensures r.Some? ==> r.value.1 < |messages| && messages[r.value.1].FromAssistant?
    ensures r.Some? ==> r.value.0 == messages[r.value.1].assistant.usage
  {
    var index := |messages|;
    while index > 0
      invariant 0 <= index <= |messages|
      invariant forall i :: index <= i < |messages| ==> !Anchors(messages[i])
    {
      index := index - 1;
      if messages[index].FromAssistant? {
        var a := messages[index].assistant;
        if !a.stopReason.Error? && !a.stopReason.Aborted? && ContextTokens(a.usage) > 0 {
          return Some((a.usage, index));
        }
      }
    }
    r := None;
  }

  datatype ContextEstimate = ContextEstimate(tokens: u32, usageTokens: u32, trailingTokens: u32, anchor: Option<nat>)

  /** What an estimate of the context says: the usage at the newest anchor, and the heuristic for what follows it. */
  ghost predicate EstimatesContext(messages: seq<Message>, e: ContextEstimate)
  {
    && NewestAnchor(messages, e.anchor)
    && e.tokens == WrappingAdd(e.usageTokens, e.trailingTokens)
    && match e.anchor
       case None => e.usageTokens == 0 && e.trailingTokens == Estimate(messages)
       case Some(k) =>
         && e.usageTokens == ContextTokens(messages[k].assistant.usage)
         && e.trailingTokens == Estimate(messages[k + 1..])
  }

  method TrailingTokens(messages: seq<Message>, index: nat) returns (trailing: u32)
    requires index < |messages|
    ensures trailing == Estimate(messages[index + 1..])
  {
    trailing := 0;
    if index + 1 < |messages| {
      trailing := EstimateTokens(messages[index + 1..]);
    }
  }

  method EstimateContextTokens(messages: seq<Message>) returns (e: ContextEstimate)
    ensures EstimatesContext(messages, e)
  {
    var found := LastValidUsage(messages);
    if found.None? {
      var trailing := EstimateTokens(messages);
      return ContextEstimate(trailing, 0, trailing, None);
    }
    var (usage, index) := found.value;
    var usageTokens := ContextTokens(usage);
    var trailingTokens := TrailingTokens(messages, index);
    e := ContextEstimate(WrappingAdd(usageTokens, trailingTokens), usageTokens, trailingTokens, Some(index));
  }

  /** There is one newest anchor, and so one estimate. */
  lemma OneEstimate(messages: seq<Message>, e: ContextEstimate, f: ContextEstimate)
    requires EstimatesContext(messages, e) && EstimatesContext(messages, f)
    ensures e == f
  {
    assert e.anchor == f.anchor;
  }

  // ---------------------------------------------------------------- what to keep

  datatype Settings = Settings(enabled: bool, reserve: u32, keepRecent: u32)

  predicate ShouldCompact(tokens: u32, window: u32, settings: Settings)
  {
    settings.enabled && window > 0 && tokens > SaturatingSub(window, settings.reserve)
  }

  /** It is time when the estimate and the reserve together no longer fit the window. */
  lemma ShouldCompactMeans(tokens: u32, window: u32, settings: Settings)
    ensures ShouldCompact(tokens, window, settings) <==>
            settings.enabled && 0 < window < tokens + settings.reserve && tokens > 0
  {
  }

  /** The length of `messages` without the tool results at its end. */
  function Settled(messages: seq<Message>): (n: nat)
    ensures n <= |messages|
    ensures n > 0 ==> !messages[n - 1].ToolResult?
    ensures forall i :: n <= i < |messages| ==> messages[i].ToolResult?
  {
    if messages != [] && messages[|messages| - 1].ToolResult? then Settled(messages[..|messages| - 1]) else |messages|
  }

  /** No sum the code computes wraps around: the budgets fit together, and a message fits on top of the budget and on
      top of any other message. */
  ghost predicate SumsFit(messages: seq<Message>, settings: Settings)
  {
    && settings.reserve + settings.keepRecent <= U32_MAX
    && forall i, j :: 0 <= i < |messages| && 0 <= j < |messages| ==>
         Max(settings.keepRecent, MessageTokens(messages[i])) + MessageTokens(messages[j]) <= U32_MAX
  }

  /** The kept messages are the longest end of `settled` within the budget, or its last message alone. */
  ghost predicate LongestWithin(settled: seq<Message>, budget: u32, k: nat)
  {
    && k <= |settled| && (settled != [] ==> k < |settled|)
    && (k + 1 < |settled| ==> TokenSum(settled[k..]) <= budget)
    && forall j :: 0 <= j < k ==> TokenSum(settled[j..]) > budget
  }

  /** A longer end is not estimated lower. */
  lemma LongerIsMore(settled: seq<Message>, j: nat, i: nat)
    requires j <= i <= |settled|
    ensures TokenSum(settled[j..]) >= TokenSum(settled[i..])
  {
    assert settled[j..] == settled[j..i] + settled[i..];
    TokenSumConcat(settled[j..i], settled[i..]);
  }

  /** One message more in front. */
  lemma SumWith(m: Message, rest: seq<Message>)
    ensures TokenSum([m] + rest) == MessageTokens(m) + TokenSum(rest)
  {
    EstimateOne(m);
    TokenSumConcat([m], rest);
  }

  /** What 32 bits hold of a sum. */
  function Low32(n: nat): u32 { n % 0x1_0000_0000 }

  /** The sum of the messages from `i` on, as 32 bits hold it, is over the budget. */
  ghost predicate Over(settled: seq<Message>, budget: u32, i: nat)
    requires i <= |settled|
  {
    Low32(TokenSum(settled[i..])) > budget
  }

  /** Where the loop stops, looking from the end: in front of the first message that brings the sum over the budget. The
      last message is always kept. */
  ghost predicate StopsAt(settled: seq<Message>, budget: u32, k: nat)
  {
    && k <= |settled| && (settled != [] ==> k < |settled|)
    && (forall i :: k <= i < |settled| - 1 ==> !Over(settled, budget, i))
    && (k > 0 ==> Over(settled, budget, k - 1))
  }

  /** The loop stops at one place only. */
  lemma OneStop(settled: seq<Message>, budget: u32, k: nat, l: nat)
    requires StopsAt(settled, budget, k) && StopsAt(settled, budget, l)
    ensures k == l
  {
    if k < l { NotYetThere(settled, budget, k, l); }
    if l < k { NotYetThere(settled, budget, l, k); }
  }

  lemma NotYetThere(settled: seq<Message>, budget: u32, k: nat, l: nat)
    requires k < l && StopsAt(settled, budget, l)
    ensures !StopsAt(settled, budget, k)
  {
    assert Over(settled, budget, l - 1);
  }

  lemma SumFrom(settled: seq<Message>, i: nat)
    requires i < |settled|
    ensures TokenSum(settled[i..]) == MessageTokens(settled[i]) + TokenSum(settled[i + 1..])
  {
    assert settled[i..] == [settled[i]] + settled[i + 1..];
    SumWith(settled[i], settled[i + 1..]);
  }

  /** What is kept is the longest end unless its own sum leaves 32 bits. */
  lemma KeptFitsIsLongest(settled: seq<Message>, budget: u32, k: nat)
    requires StopsAt(settled, budget, k)
    ensures LongestWithin(settled, budget, k) <==> (k + 1 < |settled| ==> TokenSum(settled[k..]) <= U32_MAX)
  {
    if k > 0 { assert Over(settled, budget, k - 1); }
    forall j | 0 <= j < k ensures TokenSum(settled[j..]) > budget { LongerIsMore(settled, j, k - 1); }
    if k + 1 < |settled| { assert !Over(settled, budget, k); }
  }

  /** The true sum of the messages from `i` on is over the budget. */
  ghost predicate TrulyOver(settled: seq<Message>, budget: u32, i: nat)
    requires i <= |settled|
  {
    TokenSum(settled[i..]) > budget
  }

  /** Looking from the end, and leaving the last message out, the first message that brings the true sum over the
      budget. */
  ghost predicate FirstTrulyOver(settled: seq<Message>, budget: u32, j: nat)
  {
    && j + 1 < |settled| && TrulyOver(settled, budget, j)
    && forall i :: j < i < |settled| - 1 ==> !TrulyOver(settled, budget, i)
  }

  lemma {:induction false} FindFirstOver(settled: seq<Message>, budget: u32, k: nat, i: nat) returns (j: nat)
    requires k <= i < |settled| - 1 && TrulyOver(settled, budget, k)
    requires forall l :: i < l < |settled| - 1 ==> !TrulyOver(settled, budget, l)
    ensures k <= j && FirstTrulyOver(settled, budget, j)
    decreases i
  {
    if TrulyOver(settled, budget, i) {
      j := i;
    } else {
      j := FindFirstOver(settled, budget, k, i - 1);
    }
  }

  /** What is kept is the longest end within the budget, or one message, exactly when the sum at the first message that
      brings it over the budget does not wrap around to something within it. Messages and budget decide. */
  lemma StopIsLongest(settled: seq<Message>, budget: u32, k: nat)
    requires StopsAt(settled, budget, k)
    ensures LongestWithin(settled, budget, k) <==>
            forall j: nat :: FirstTrulyOver(settled, budget, j) ==> Over(settled, budget, j)
  {
    if LongestWithin(settled, budget, k) {
      forall j: nat | FirstTrulyOver(settled, budget, j) ensures Over(settled, budget, j) {
        FirstIsBeforeStop(settled, budget, k, j);
      }
    } else {
      KeptFitsIsLongest(settled, budget, k);
      var j := FindFirstOver(settled, budget, k, |settled| - 2);
      assert !Over(settled, budget, j);
    }
  }

  lemma FirstIsBeforeStop(settled: seq<Message>, budget: u32, k: nat, j: nat)
    requires LongestWithin(settled, budget, k) && FirstTrulyOver(settled, budget, j)
    ensures j + 1 == k
  {
    if k <= j { LongerIsMore(settled, k, j); }
    if k > 0 { BeforeIsOver(settled, budget, k); }
  }

  lemma BeforeIsOver(settled: seq<Message>, budget: u32, k: nat)
    requires LongestWithin(settled, budget, k) && k > 0
    ensures TrulyOver(settled, budget, k - 1)
  {
  }

  function Images(n: nat): (r: seq<ContentBlock>)
    ensures |r| == n && forall i :: 0 <= i < n ==> r[i].Image?
  {
    seq(n, _ => Image(""))
  }

  lemma {:induction false} ImageTokens(content: seq<ContentBlock>)
    requires |content| * IMAGE_TOKENS <= U32_MAX && forall i :: 0 <= i < |content| ==> content[i].Image?
    ensures ContentTokens(content) == |content| * IMAGE_TOKENS
  {
    if content != [] { ImageTokens(content[..|content| - 1]); }
  }

  /** Two messages of 1789570 images each: their sum leaves 32 bits, and 704 of it is left, so both are kept within a
      budget of 1000 although each alone is far over it. */
  lemma WrappedSumIsKept(id: string)
    ensures var m := Custom(id, Images(1789570));
            StopsAt([m, m], 1000, 0) && !LongestWithin([m, m], 1000, 0)
  {
    var m := Custom(id, Images(1789570));
    ImageTokens(Images(1789570));
    assert [m, m][0..] == [m] + [m];
    EstimateOne(m);
    SumWith(m, [m]);
  }

  /** When no two messages can bring a sum out of 32 bits, nothing wraps around on the way. */
  lemma {:induction false} NothingWraps(settled: seq<Message>, settings: Settings, k: nat, i: nat)
    requires SumsFit(settled, settings) && StopsAt(settled, settings.keepRecent, k) && k <= i < |settled|
    ensures TokenSum(settled[i..]) <= U32_MAX
    ensures i + 1 < |settled| ==> TokenSum(settled[i..]) <= settings.keepRecent
    decreases |settled| - i
  {
    SumFrom(settled, i);
    if i + 1 < |settled| {
      NothingWraps(settled, settings, k, i + 1);
      assert !Over(settled, settings.keepRecent, i);
      if i + 2 == |settled| {
        SumFrom(settled, i + 1);
        assert settled[i + 2..] == [];
      }
    }
  }

  lemma FittingStopIsLongest(settled: seq<Message>, settings: Settings, k: nat)
    requires SumsFit(settled, settings) && StopsAt(settled, settings.keepRecent, k)
    ensures LongestWithin(settled, settings.keepRecent, k)
  {
    if k < |settled| { NothingWraps(settled, settings, k, k); }
    KeptFitsIsLongest(settled, settings.keepRecent, k);
  }

  lemma WrapSum(sum: nat, tokens: u32)
    ensures WrappingAdd(Low32(sum), tokens) == Low32(sum + tokens)
  {
  }

  /** What 32 bits hold of the tokens of the messages `i .. n`. */
  ghost function SumIn(messages: seq<Message>, i: nat, n: nat): u32
    requires i <= n <= |messages|
  {
    Low32(TokenSum(messages[i..n]))
  }

  ghost predicate OverIn(messages: seq<Message>, n: nat, budget: u32, i: nat)
    requires i <= n <= |messages|
  {
    SumIn(messages, i, n) > budget
  }

  lemma SameOver(messages: seq<Message>, n: nat, budget: u32, i: nat)
    requires i <= n <= |messages|
    ensures OverIn(messages, n, budget, i) <==> Over(messages[..n], budget, i)
  {
    assert messages[i..n] == messages[..n][i..];
  }

  lemma StoppedHere(messages: seq<Message>, n: nat, budget: u32, i: nat)
    requires n <= |messages| && i <= n && (n > 0 ==> i < n)
    requires forall j: nat :: i <= j && j + 1 < n ==> !OverIn(messages, n, budget, j)
    requires i > 0 ==> OverIn(messages, n, budget, i - 1)
    ensures StopsAt(messages[..n], budget, i)
  {
    forall j | i <= j < n - 1 ensures !Over(messages[..n], budget, j) { SameOver(messages, n, budget, j); }
    if i > 0 { SameOver(messages, n, budget, i - 1); }
  }

  /** One message more in the loop. */
  lemma KeepOneMore(messages: seq<Message>, n: nat, i: nat, keep: seq<Message>, tokens: u32)
    requires i < n <= |messages| && keep == messages[i + 1..n] && tokens == SumIn(messages, i + 1, n)
    ensures [messages[i]] + keep == messages[i..n]
    ensures WrappingAdd(tokens, MessageTokens(messages[i])) == SumIn(messages, i, n)
  {
    SumWith(messages[i], keep);
    WrapSum(TokenSum(keep), MessageTokens(messages[i]));
    assert [messages[i]] + keep == messages[i..n];
  }

  /** The loop from the newest message backwards. It leaves where it stopped, and what it kept. */
  method WalkBack(messages: seq<Message>, settings: Settings) returns (i: nat, keep: seq<Message>)
    ensures var n := Settled(messages);
            && i <= n && (n > 0 ==> i < n) && keep == messages[i..n]
            && (forall j: nat :: i <= j && j + 1 < n ==> !OverIn(messages, n, settings.keepRecent, j))
            && (i > 0 ==> OverIn(messages, n, settings.keepRecent, i - 1))
  {
    ghost var n := Settled(messages);
    i := |messages|;
    keep := [];
    var keepTokens: u32 := 0;
    while i > 0
      invariant i <= |messages| && keep == messages[Min(i, n)..n] && keepTokens == SumIn(messages, Min(i, n), n)
      invariant forall j: nat :: i <= j && j + 1 < n ==> !OverIn(messages, n, settings.keepRecent, j)
    {
      i := i - 1;
      if messages[i].ToolResult? && keep == [] {
        continue;
      }
      KeepOneMore(messages, n, i, keep, keepTokens);
      var tokens := WrappingAdd(keepTokens, MessageTokens(messages[i]));
      if tokens > settings.keepRecent && keep != [] {
        i := i + 1;
        break;
      }
      keep := [messages[i]] + keep;
      keepTokens := tokens;
    }
  }

  method KeepRecent(messages: seq<Message>, settings: Settings) returns (summarize: seq<Message>, keep: seq<Message>)
    ensures summarize + keep == messages[..Settled(messages)] && (keep == [] ==> summarize == [])
    ensures StopsAt(messages[..Settled(messages)], settings.keepRecent, |summarize|)
  {
    var i;
    i, keep := WalkBack(messages, settings);
    StoppedHere(messages, Settled(messages), settings.keepRecent, i);
    summarize := messages[..i];
  }

  /** The two halves, for all inputs. Below the threshold everything is kept. Above it the tool results at the very end
      are in neither half. */
  ghost predicate Prepares(messages: seq<Message>, settings: Settings, summarize: seq<Message>, keep: seq<Message>)
  {
    if Estimate(messages) <= WrappingAdd(settings.reserve, settings.keepRecent) then summarize == [] && keep == messages
    else
      && summarize + keep == messages[..Settled(messages)] && (keep == [] ==> summarize == [])
      && StopsAt(messages[..Settled(messages)], settings.keepRecent, |summarize|)
  }

  method PrepareCompaction(messages: seq<Message>, settings: Settings)
    returns (summarize: seq<Message>, keep: seq<Message>)
    ensures Prepares(messages, settings, summarize, keep)
  {
    if messages == [] { return [], []; }
    var estimated := EstimateTokens(messages);
    if estimated <= WrappingAdd(settings.reserve, settings.keepRecent) { return [], messages; }
    summarize, keep := KeepRecent(messages, settings);
  }

  /** There is one pair of halves. */
  lemma OnePreparation(messages: seq<Message>, settings: Settings, a: seq<Message>, b: seq<Message>, c: seq<Message>,
                       d: seq<Message>)
    requires Prepares(messages, settings, a, b) && Prepares(messages, settings, c, d)
    ensures a == c && b == d
  {
    if Estimate(messages) > WrappingAdd(settings.reserve, settings.keepRecent) {
      OneStop(messages[..Settled(messages)], settings.keepRecent, |a|, |c|);
      assert a == (a + b)[..|a|] && c == (c + d)[..|c|];
      assert b == (a + b)[|a|..] && d == (c + d)[|c|..];
    }
  }

  /** Every message is in one of the halves exactly when the threshold is not passed or the last message is no tool
      result. */
  lemma ConservesExactly(messages: seq<Message>, settings: Settings, summarize: seq<Message>, keep: seq<Message>)
    requires Prepares(messages, settings, summarize, keep)
    ensures summarize + keep == messages <==>
            || Estimate(messages) <= WrappingAdd(settings.reserve, settings.keepRecent)
            || !messages[|messages| - 1].ToolResult?
  {
    if Estimate(messages) > WrappingAdd(settings.reserve, settings.keepRecent) {
      assert |messages[..Settled(messages)]| == Settled(messages);
    }
  }

  /** A tool result at the end that is in neither half. */
  lemma ResultInNeitherHalf(question: string, result: Message, summarize: seq<Message>, keep: seq<Message>)
    requires TextTokens(question) > 0 && result.ToolResult?
    requires Prepares([UserText("u", question), result], Settings(true, 0, 0), summarize, keep)
    ensures result !in summarize + keep
  {
    var messages := [UserText("u", question), result];
    assert messages[..1] == [UserText("u", question)];
    EstimateOne(messages[0]);
    assert Settled(messages) == 1;
  }

  /** There is one longest end. */
  lemma OneLongest(settled: seq<Message>, budget: u32, k: nat, l: nat)
    requires LongestWithin(settled, budget, k) && LongestWithin(settled, budget, l)
    ensures k == l
  {
  }

  /** The split taken when the heuristic alone would not compact: behind the newest anchor, and behind the tool results
      that belong to it. */
  method SplitAfterAnchor(messages: seq<Message>, anchor: Option<nat>)
    returns (summarize: seq<Message>, keep: seq<Message>)
    ensures summarize + keep == messages
    ensures anchor.None? ==> summarize == []
    ensures anchor.Some? ==>
            && |summarize| >= Min(anchor.value + 1, |messages|)
            && (keep != [] ==> !keep[0].ToolResult?)
            && (forall i :: anchor.value < i < |summarize| ==> messages[i].ToolResult?)
  {
    if anchor.None? { return [], messages; }
    if messages == [] { return [], []; }
    var split := Min(anchor.value + 1, |messages|);
    while split < |messages| && messages[split].ToolResult?
      invariant Min(anchor.value + 1, |messages|) <= split <= |messages|
      invariant forall i :: anchor.value < i < split ==> messages[i].ToolResult?
    {
      split := split + 1;
    }
    summarize, keep := messages[..split], messages[split..];
  }

  // ---------------------------------------------------------------- compaction of a running conversation

  function Cleared(messages: seq<Message>): (r: seq<Message>)
    ensures |r| == |messages| && forall i :: 0 <= i < |r| ==> r[i] == WithoutUsage(messages[i])
  {
    seq(|messages|, i requires 0 <= i < |messages| => WithoutUsage(messages[i]))
  }

  lemma NoUsageNoAnchor(m: Message)
    ensures !Anchors(WithoutUsage(m)) && MessageTokens(WithoutUsage(m)) == MessageTokens(m)
  {
  }

  /** Clearing usages leaves the heuristic estimate as it was, and leaves no anchor. */
  lemma {:induction false} ClearedIsUnanchored(messages: seq<Message>)
    ensures TokenSum(Cleared(messages)) == TokenSum(messages)
    ensures NewestAnchor(Cleared(messages), None)
  {
    if messages != [] {
      var n := |messages| - 1;
      ClearedIsUnanchored(messages[..n]);
      assert Cleared(messages)[..n] == Cleared(messages[..n]);
      NoUsageNoAnchor(messages[n]);
      forall i | 0 <= i < n ensures !Anchors(Cleared(messages)[i]) {
        assert Cleared(messages)[i] == Cleared(messages[..n])[i];
      }
    }
  }

  /** The conversation after a compaction. */
  function Compacted(id: string, summary: string, before: u32, keep: seq<Message>): seq<Message>
  {
    [CompactionSummary(id, summary, before)] + Cleared(keep)
  }

  /** The summary comes first, then every kept message as it was, but for an assistant's usage. */
  ghost predicate Continues(after: seq<Message>, id: string, summary: string, before: u32, keep: seq<Message>)
  {
    && |after| == 1 + |keep| && after[0] == CompactionSummary(id, summary, before)
    && forall i :: 0 <= i < |keep| ==> SameButUsage(after[1 + i], keep[i])
  }

  lemma CompactedContinues(id: string, summary: string, before: u32, keep: seq<Message>)
    ensures Continues(Compacted(id, summary, before, keep), id, summary, before, keep)
  {
    forall i | 0 <= i < |keep| ensures SameButUsage(Compacted(id, summary, before, keep)[1 + i], keep[i]) {
      assert Compacted(id, summary, before, keep)[1 + i] == WithoutUsage(keep[i]);
    }
  }

  lemma CompactedIsUnanchored(id: string, summary: string, before: u32, keep: seq<Message>, e: ContextEstimate)
    requires EstimatesContext(Compacted(id, summary, before, keep), e)
    ensures e.anchor.None?
  {
    var after := Compacted(id, summary, before, keep);
    ClearedIsUnanchored(keep);
    assert forall i :: 0 < i < |after| ==> after[i] == Cleared(keep)[i - 1];
  }

  lemma CompactedTokens(id: string, summary: string, before: u32, keep: seq<Message>)
    ensures Estimate(Compacted(id, summary, before, keep)) == SaturatingAdd(TextTokens(summary), Estimate(keep))
  {
    var head := CompactionSummary(id, summary, before);
    ClearedIsUnanchored(keep);
    EstimateConcat([head], Cleared(keep));
    EstimateOne(head);
  }

  /** After a compaction no old usage counts: the estimate has no anchor and is the heuristic sum, the summary and what
      was kept. */
  lemma CompactedEstimate(id: string, summary: string, before: u32, keep: seq<Message>, e: ContextEstimate)
    requires EstimatesContext(Compacted(id, summary, before, keep), e)
    ensures e.anchor.None? && e.usageTokens == 0
    ensures e.tokens == Estimate(Compacted(id, summary, before,
                                           keep)) == SaturatingAdd(TextTokens(summary), Estimate(keep))
  {
    CompactedIsUnanchored(id, summary, before, keep, e);
    CompactedTokens(id, summary, before, keep);
  }

  /** How the messages are divided: at the budget, or behind the newest anchor when there is nothing to summarize at the
      budget. */
  ghost predicate Divides(messages: seq<Message>, settings: Settings, summarize: seq<Message>, keep: seq<Message>)
  {
    && summarize != []
    && (|| Prepares(messages, settings, summarize, keep)
        || (KeepsAll(messages, settings) && summarize + keep == messages && (keep != [] ==> !keep[0].ToolResult?)
            && exists k: nat :: NewestAnchor(messages, Some(k)) && k < |summarize|))
  }

  /** There is nothing to summarize at the budget. */
  ghost predicate KeepsAll(messages: seq<Message>, settings: Settings)
  {
    exists keep :: Prepares(messages, settings, [], keep)
  }

  /** What a compaction leaves and reports, given the estimate that caused it. */
  ghost predicate IsReplacement(tokens: u32, named: u32 -> string, keep: seq<Message>, r: AgentTurn.Compaction)
  {
    && r.Replaced? && r.tokensBefore == tokens && r.messages == Compacted(named(tokens), r.summary, tokens, keep)
    && Continues(r.messages, named(tokens), r.summary, tokens, keep)
    && r.firstKept == if keep == [] then "none" else keep[0].id
  }

  /** Compaction before a request. `summarized` is what the model answers, `named` the id made from the estimate. */
  method MaybeCompact(messages: seq<Message>, window: u32, settings: Option<Settings>,
                      summarized: seq<Message> -> Result<string, string>, named: u32 -> string)
    returns (r: AgentTurn.Compaction, ghost e: ContextEstimate, ghost summarize: seq<Message>, ghost keep: seq<Message>)
    ensures settings.None? ==> r.Unneeded?
    ensures settings.Some? ==> EstimatesContext(messages, e)
    ensures r.Unneeded? && settings.Some? ==>
            !ShouldCompact(e.tokens, window, settings.value) || (e.anchor.None? && KeepsAll(messages, settings.value))
    ensures !r.Unneeded? ==>
            ShouldCompact(e.tokens, window, settings.value) && Divides(messages, settings.value, summarize, keep)
    ensures r.SummaryFailed? ==> summarized(summarize) == Err(r.message)
    ensures r.Replaced? ==> summarized(summarize) == Ok(r.summary) && IsReplacement(e.tokens, named, keep, r)
  {
    e, summarize, keep := ContextEstimate(0, 0, 0, None), [], [];
    if settings.None? { return AgentTurn.Unneeded, e, [], []; }
    var estimate := EstimateContextTokens(messages);
    e := estimate;
    if !ShouldCompact(estimate.tokens, window, settings.value) { return AgentTurn.Unneeded, estimate, [], []; }
    var early, rest := PrepareCompaction(messages, settings.value);
    if early == [] {
      early, rest := SplitAfterAnchor(messages, estimate.anchor);
    }
    if early == [] { return AgentTurn.Unneeded, estimate, [], []; }
    summarize, keep := early, rest;
    var answer := summarized(early);
    if answer.Err? { return AgentTurn.SummaryFailed(answer.error), estimate, early, rest; }
    var firstKept := if rest == [] then "none" else rest[0].id;
    r := AgentTurn.Replaced(Compacted(named(estimate.tokens), answer.value, estimate.tokens, rest), answer.value,
                            firstKept, estimate.tokens);
    Replaces(estimate.tokens, named, rest, r);
  }

  lemma Replaces(tokens: u32, named: u32 -> string, keep: seq<Message>, r: AgentTurn.Compaction)
    requires r.Replaced? && r.tokensBefore == tokens
    requires r.messages == Compacted(named(tokens), r.summary, tokens, keep)
    requires r.firstKept == if keep == [] then "none" else keep[0].id
    ensures IsReplacement(tokens, named, keep, r)
  {
    CompactedContinues(named(tokens), r.summary, tokens, keep);
  }

  /** A compaction at the budget settles the matter: when the summary and the budget fit under the threshold together,
      the compacted conversation does not call for another compaction. */
  lemma CompactionSettles(messages: seq<Message>, settings: Settings, k: nat, id: string, summary: string, before: u32,
                          window: u32,
                          e: ContextEstimate)
    requires LongestWithin(messages, settings.keepRecent, k) && k + 1 < |messages|
    requires EstimatesContext(Compacted(id, summary, before, messages[k..]), e)
    requires TextTokens(summary) + settings.keepRecent <= SaturatingSub(window, settings.reserve) <= U32_MAX
    ensures !ShouldCompact(e.tokens, window, settings)
  {
    CompactedEstimate(id, summary, before, messages[k..], e);
  }
}
