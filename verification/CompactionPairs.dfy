/** What compaction does to tool calls and their results in a conversation. */
module CompactionPairs {
  import opened Basics
  import opened Messages
  import Tools
  import AgentTurn
  import opened AgentProofs
  import Compaction
  import Utf8

  /** How many messages the first message and its answers are. */
  function Block(messages: seq<Message>): (b: nat)
    requires messages != []
    ensures b >= 1
  {
    if messages[0].FromAssistant? && messages[0].assistant.stopReason.ToolUse?
    then 1 + |Tools.Extract(messages[0].assistant)| else 1
  }

  /** A conversation is paired when its first block is and the rest is. */
  lemma FirstBlock(messages: seq<Message>)
    requires Paired(messages) && messages != []
    ensures var b := Block(messages);
            && b <= |messages| && !messages[0].ToolResult? && Paired(messages[b..])
            && (b < |messages| ==> !messages[b].ToolResult?)
            && forall i :: 0 < i < b ==> messages[i].ToolResult?
  {
    var b := Block(messages);
    assert b < |messages| ==> messages[b..][0] == messages[b];
    if messages[0].FromAssistant? && messages[0].assistant.stopReason.ToolUse? {
      forall i | 0 < i < b ensures messages[i].ToolResult? {
        assert messages[1..b][i - 1] == messages[i];
      }
    }
  }

  /** The end of a paired conversation is paired exactly when it does not start with a result. */
  lemma {:induction false} PairedEnd(messages: seq<Message>, k: nat)
    requires Paired(messages) && k < |messages|
    ensures Paired(messages[k..]) <==> !messages[k].ToolResult?
    decreases |messages|
  {
    FirstBlock(messages);
    var b := Block(messages);
    if k == 0 {
      assert messages[0..] == messages;
    } else if k >= b {
      PairedEnd(messages[b..], k - b);
      assert messages[b..][k - b..] == messages[k..];
    } else {
      assert messages[k..][0] == messages[k];
    }
  }

  /** Cutting the results off the end leaves a call without an answer. */
  lemma {:induction false} CutLeavesCall(messages: seq<Message>, n: nat)
    requires Paired(messages) && 0 < n < |messages| && !messages[n - 1].ToolResult?
    requires forall i :: n <= i < |messages| ==> messages[i].ToolResult?
    ensures !Paired(messages[..n])
    decreases |messages|
  {
    FirstBlock(messages);
    var b := Block(messages);
    if b < n {
      assert messages[b..][n - b - 1] == messages[n - 1];
      CutLeavesCall(messages[b..], n - b);
      CutRest(messages, n);
    } else {
      CutFirst(messages[..n], b);
    }
  }

  /** A paired beginning has a paired rest. */
  lemma CutRest(messages: seq<Message>, n: nat)
    requires messages != [] && Block(messages) <= n <= |messages|
    ensures Paired(messages[..n]) ==> Paired(messages[Block(messages)..][..n - Block(messages)])
  {
    var b := Block(messages);
    assert messages[..n][0] == messages[0];
    if Paired(messages[..n]) { FirstBlock(messages[..n]); }
    assert messages[..n][b..] == messages[b..][..n - b];
  }

  /** A block that is cut short is not paired. */
  lemma CutFirst(cut: seq<Message>, b: nat)
    requires cut != [] && b == Block(cut) > |cut|
    ensures !Paired(cut)
  {
  }

  /** Usage plays no part in pairing. */
  lemma {:induction false} ClearedPaired(messages: seq<Message>)
    ensures Paired(Compaction.Cleared(messages)) <==> Paired(messages)
    decreases |messages|
  {
    if messages != [] && !messages[0].ToolResult? {
      var cleared := Compaction.Cleared(messages);
      var b := Block(messages);
      assert Block(cleared) == b;
      if b <= |messages| {
        assert cleared[b..] == Compaction.Cleared(messages[b..]);
        ClearedPaired(messages[b..]);
        assert forall i :: 0 <= i < b - 1 ==> cleared[1..b][i] == WithoutUsage(messages[1..b][i]);
      }
    }
  }

  lemma CompactedIsPaired(id: string, summary: string, before: u32, keep: seq<Message>)
    ensures Paired(Compaction.Compacted(id, summary, before, keep)) <==> Paired(keep)
  {
    var after := Compaction.Compacted(id, summary, before, keep);
    assert after[1..] == Compaction.Cleared(keep);
    ClearedPaired(keep);
  }

  /** Any end of the settled messages, compacted. */
  lemma EndStaysPaired(messages: seq<Message>, n: nat, keep: seq<Message>, id: string, summary: string, before: u32)
    requires Paired(messages) && n == Compaction.Settled(messages) && 0 < |keep| <= n && keep == messages[n - |keep|..n]
    ensures Paired(Compaction.Compacted(id, summary, before, keep)) <==>
            !messages[|messages| - 1].ToolResult? && !keep[0].ToolResult?
  {
    CompactedIsPaired(id, summary, before, keep);
    SettledIs(messages, n);
    KeptPaired(messages, n, keep);
  }

  /** Compaction at the budget keeps a paired conversation paired exactly when the conversation does not end with a
      result and the place `k` where the budget parts it is not in front of one. Right after a tool turn the
      conversation ends with one: the call stays and its answers are gone. */
  lemma BudgetStaysPaired(messages: seq<Message>, settings: Compaction.Settings, summarize: seq<Message>,
                          keep: seq<Message>, k: nat, id: string, summary: string, before: u32)
    requires Paired(messages) && Compaction.Prepares(messages, settings, summarize, keep) && summarize != []
    requires Compaction.StopsAt(messages[..Compaction.Settled(messages)], settings.keepRecent, k)
    ensures k < |messages|
    ensures Paired(Compaction.Compacted(id, summary, before, keep)) <==>
            !messages[|messages| - 1].ToolResult? && !messages[k].ToolResult?
  {
    var n := Compaction.Settled(messages);
    Compaction.OneStop(messages[..n], settings.keepRecent, k, |summarize|);
    PartedAt(messages, n, k, summarize, keep);
    EndStaysPaired(messages, n, keep, id, summary, before);
  }

  lemma PartedAt(messages: seq<Message>, n: nat, k: nat, summarize: seq<Message>, keep: seq<Message>)
    requires n <= |messages| && summarize + keep == messages[..n] && k == |summarize| && keep != []
    ensures |keep| == n - k && keep == messages[k..n] && keep[0] == messages[k]
  {
    assert keep == (summarize + keep)[k..];
    assert messages[k..n] == messages[..n][k..];
  }

  /** The messages from `n` on are the results at the end. */
  ghost predicate ResultsFrom(messages: seq<Message>, n: nat)
  {
    && n <= |messages| && (n > 0 ==> !messages[n - 1].ToolResult?)
    && forall i :: n <= i < |messages| ==> messages[i].ToolResult?
  }

  lemma SettledIs(messages: seq<Message>, n: nat)
    requires messages != [] && n == Compaction.Settled(messages)
    ensures ResultsFrom(messages, n) && (n == |messages| <==> !messages[|messages| - 1].ToolResult?)
  {
  }

  lemma KeptPaired(messages: seq<Message>, n: nat, keep: seq<Message>)
    requires Paired(messages) && ResultsFrom(messages, n) && 0 < |keep| <= n && keep == messages[n - |keep|..n]
    ensures Paired(keep) <==> n == |messages| && !keep[0].ToolResult?
  {
    var k := n - |keep|;
    if !keep[0].ToolResult? {
      PairedEnd(messages, k);
      if n == |messages| {
        assert keep == messages[k..];
      } else {
        RestResults(messages, n, k);
        CutEnd(messages[k..], |keep|, keep);
      }
    }
  }

  lemma RestResults(messages: seq<Message>, n: nat, k: nat)
    requires ResultsFrom(messages, n) && k < n
    ensures ResultsFrom(messages[k..], n - k)
  {
  }

  lemma CutEnd(rest: seq<Message>, n: nat, keep: seq<Message>)
    requires Paired(rest) && 0 < n < |rest| && keep == rest[..n] && ResultsFrom(rest, n)
    ensures !Paired(keep)
  {
    CutLeavesCall(rest, n);
  }

  /** Compaction behind the newest anchor always does. */
  lemma AnchorStaysPaired(messages: seq<Message>, summarize: seq<Message>, keep: seq<Message>, id: string,
                          summary: string, before: u32)
    requires Paired(messages) && summarize + keep == messages && (keep != [] ==> !keep[0].ToolResult?)
    ensures Paired(Compaction.Compacted(id, summary, before, keep))
  {
    CompactedIsPaired(id, summary, before, keep);
    if keep != [] {
      PairedEnd(messages, |summarize|);
      assert messages[|summarize|..] == keep;
    }
  }

  /** A conversation right after a tool turn: whatever is kept at the budget, the call in it has lost its answer. */
  lemma CallLosesAnswer(question: string, k: nat, id: string, summary: string, before: u32)
    requires k < 2
    ensures var call := Assistant(None, [ToolCall("c", "t", "{}")], NO_USAGE, ToolUse, None);
            var messages := [UserText("u", question), FromAssistant("a", call), ToolResult("c", "c", "t", false, [])];
            && Paired(messages) && Compaction.Settled(messages) == 2
            && !Paired(Compaction.Compacted(id, summary, before, messages[k..2]))
  {
    var call := Assistant(None, [ToolCall("c", "t", "{}")], NO_USAGE, ToolUse, None);
    var result := ToolResult("c", "c", "t", false, []);
    var messages := [UserText("u", question), FromAssistant("a", call), result];
    OneCall(call, "c", "t", "{}");
    assert messages[1..] == [FromAssistant("a", call), result];
    assert messages[1..][1..2] == [result] && messages[1..][2..] == [];
    assert messages[..2][..2] == messages[..2];
    EndStaysPaired(messages, 2, messages[k..2], id, summary, before);
  }

  lemma OneCall(a: Assistant, id: string, name: string, arguments: string)
    requires a.content == [ToolCall(id, name, arguments)]
    ensures Tools.Extract(a) == [Tools.Request(0, id, name, arguments)]
  {
    assert Tools.ExtractFrom(a.content, 1) == [];
  }

  // ---------------------------------------------------------------- a cut between a call and its answer

  function ACall(): Assistant { Assistant(None, [ToolCall("c", "t", "{}")], NO_USAGE, ToolUse, None) }

  function AnAnswer(): Message { ToolResult("c", "c", "t", false, []) }

  /** A call, its answer, and the user going on. */
  function AnsweredCall(question: string): seq<Message>
  {
    [UserText("u", question), AgentTurn.AssistantMessage(ACall()), AnAnswer(), UserText("v", "")]
  }

  lemma AnsweredCallIsPaired(question: string)
    ensures Paired(AnsweredCall(question))
  {
    var u, v := UserText("u", question), UserText("v", "");
    OneCall(ACall(), "c", "t", "{}");
    AnsweredPaired(ACall(), [AnAnswer()]);
    UserPaired([u]);
    UserPaired([v]);
    PairedConcat([AgentTurn.AssistantMessage(ACall())] + [AnAnswer()], [v]);
    PairedConcat([u], [AgentTurn.AssistantMessage(ACall())] + [AnAnswer()] + [v]);
    assert AnsweredCall(question) == [u] + ([AgentTurn.AssistantMessage(ACall())] + [AnAnswer()] + [v]);
  }

  lemma BytesOfTwo(a: char, b: char)
    ensures Utf8.Bytes([a]) == Utf8.Width(a) && Utf8.Bytes([a, b]) == Utf8.Width(a) + Utf8.Width(b)
  {
    assert [a, b][1..] == [b] && [b][1..] == [] && [a][1..] == [];
  }

  lemma CallTokens()
    ensures Compaction.MessageTokens(AgentTurn.AssistantMessage(ACall())) == 2
  {
    BytesOfTwo('t', 't');
    BytesOfTwo('{', '}');
    assert ACall().content[..0] == [];
  }

  /** Two tokens in the second of four messages and none behind it. */
  lemma SumsOfFour(messages: seq<Message>)
    requires |messages| == 4 && Compaction.MessageTokens(messages[1]) == 2
    requires Compaction.MessageTokens(messages[2]) == 0 == Compaction.MessageTokens(messages[3])
    ensures Compaction.TokenSum(messages[3..]) == 0 == Compaction.TokenSum(messages[2..])
    ensures Compaction.TokenSum(messages[1..]) == 2 <= Compaction.TokenSum(messages)
  {
    assert messages[4..] == [] && messages[0..] == messages;
    Compaction.SumFrom(messages, 3);
    Compaction.SumFrom(messages, 2);
    Compaction.SumFrom(messages, 1);
    Compaction.SumFrom(messages, 0);
  }

  lemma AnsweredCallSums(question: string)
    ensures var messages := AnsweredCall(question);
            && Compaction.TokenSum(messages[3..]) == 0 == Compaction.TokenSum(messages[2..])
            && Compaction.TokenSum(messages[1..]) == 2 <= Compaction.TokenSum(messages)
  {
    CallTokens();
    SumsOfFour(AnsweredCall(question));
  }

  lemma AnsweredCallStops(question: string)
    ensures Compaction.Settled(AnsweredCall(question)) == 4
    ensures Compaction.StopsAt(AnsweredCall(question), 1, 2)
  {
    AnsweredCallSums(question);
  }

  /** A conversation that does not end with a result: at a budget of one token it is cut between the call and its
      answer, and what is kept starts with the answer. */
  lemma AnswerLosesCall(question: string, summarize: seq<Message>, keep: seq<Message>, id: string, summary: string,
                        before: u32)
    requires Compaction.Prepares(AnsweredCall(question), Compaction.Settings(true, 0, 1), summarize, keep)
    ensures Paired(AnsweredCall(question)) && !Paired(Compaction.Compacted(id, summary, before, keep))
  {
    AnsweredCallIsPaired(question);
    AnsweredCallSums(question);
    AnsweredCallStops(question);
    StopsAtAnswer(AnsweredCall(question), Compaction.Settings(true, 0, 1), summarize, keep, 2, id, summary, before);
  }

  /** Wherever the budget stops right behind a call, its answer is kept without it. */
  lemma StopsAtAnswer(messages: seq<Message>, settings: Compaction.Settings, summarize: seq<Message>,
                      keep: seq<Message>, k: nat, id: string, summary: string, before: u32)
    requires Paired(messages) && Compaction.Prepares(messages, settings, summarize, keep)
    requires Compaction.Settled(messages) == |messages| && Compaction.StopsAt(messages, settings.keepRecent, k)
    requires Compaction.Estimate(messages) > WrappingAdd(settings.reserve, settings.keepRecent)
    requires 0 < k < |messages| && messages[k].ToolResult?
    ensures !Paired(Compaction.Compacted(id, summary, before, keep))
  {
    assert messages[..|messages|] == messages;
    Compaction.OneStop(messages, settings.keepRecent, k, |summarize|);
    BudgetStaysPaired(messages, settings, summarize, keep, k, id, summary, before);
  }
}
