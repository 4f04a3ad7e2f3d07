/** The agent's conversation over whole runs: it stays paired as long as what replaces it is, and compaction
replaces it by something paired exactly under the conditions that compaction is known to need. */
module Conversations {
  import opened Basics
  import opened Messages
  import opened AgentTurn
  import opened AgentProofs
  import opened AgentRuns
  import Compaction
  import CompactionPairs

  /** The messages the agent has right now. */
  function Now(w: World): seq<Message> { if InFlow(w) then w.ctx.messages else w.live.messages }

  /** Every call in the conversation is answered, except between the node that decides to run tools and the node
      that runs them, or where a run was cut off there. */
  ghost predicate Answered(w: World)
  {
    if InFlow(w) && w.phase.node.ExecuteTools? then w.ctx.assistant.Some? && Asking(Now(w), w.ctx.assistant.value)
    else if w.phase.Halted? then CutOff(Now(w))
    else Paired(Now(w))
  }

  // ---------------------------------------------------------------- replacements

  /** How a compaction meets the two conditions of pairing: at the budget, the conversation does not end with a
      result and is not cut in front of one; behind an anchor there are none. */
  ghost predicate MeetsConditions(messages: seq<Message>, settings: Compaction.Settings, summarize: seq<Message>,
                                  keep: seq<Message>)
  {
    && Compaction.Divides(messages, settings, summarize, keep)
    && (Compaction.Prepares(messages, settings, summarize, keep) ==>
          !messages[|messages| - 1].ToolResult? && |summarize| < |messages| && !messages[|summarize|].ToolResult?)
  }

  /** A replacement is what compaction makes of the messages, under those conditions. */
  ghost predicate FromCompaction(messages: seq<Message>, replacement: seq<Message>)
  {
    exists settings, summarize, keep, id, summary, before ::
      IsCompaction(messages, replacement, settings, summarize, keep, id, summary, before)
  }

  ghost predicate IsCompaction(messages: seq<Message>, replacement: seq<Message>, settings: Compaction.Settings,
                               summarize: seq<Message>, keep: seq<Message>, id: string, summary: string, before: u32)
  {
    && MeetsConditions(messages, settings, summarize, keep)
    && replacement == Compaction.Compacted(id, summary, before, keep)
  }

  lemma CompactionKeepsPairing(messages: seq<Message>, replacement: seq<Message>)
    requires Paired(messages) && FromCompaction(messages, replacement)
    ensures Paired(replacement)
  {
    var settings, summarize, keep, id, summary, before :|
      IsCompaction(messages, replacement, settings, summarize, keep, id, summary, before);
    if Compaction.Prepares(messages, settings, summarize, keep) {
      CompactionPairs.BudgetStaysPaired(messages, settings, summarize, keep, |summarize|, id, summary, before);
    } else {
      CompactionPairs.AnchorStaysPaired(messages, summarize, keep, id, summary, before);
    }
  }

  /** What `MaybeCompact` puts in place is such a replacement when its halves meet the conditions. */
  lemma ReplacementIsCompaction(messages: seq<Message>, settings: Compaction.Settings, summarize: seq<Message>,
                                keep: seq<Message>, tokens: u32, named: u32 -> string, r: AgentTurn.Compaction)
    requires MeetsConditions(messages, settings, summarize, keep) && Compaction.IsReplacement(tokens, named, keep, r)
    ensures FromCompaction(messages, r.messages)
  {
    assert IsCompaction(messages, r.messages, settings, summarize, keep, named(tokens), r.summary, tokens);
  }

  /** What the outside answers replaces the conversation only by such a compaction or by something paired. */
  ghost predicate Careful(w: World, choice: Choice)
  {
    && (w.phase == Running(Compact) && choice.compaction.Replaced? ==>
          FromCompaction(w.ctx.messages, choice.compaction.messages))
    && (choice.nextTurn.Ok? && choice.nextTurn.value.Some? ==> Paired(choice.nextTurn.value.value))
  }

  ghost predicate CarefulRun(cfg: Config, live: Live, acts: seq<Label>)
  {
    forall n :: 0 <= n < |acts| && acts[n].Internal? ==>
                  Careful(AdvanceAll(cfg, Begin(live), acts[..n]), acts[n].choice)
  }

  // ---------------------------------------------------------------- steps

  /** What a node appends to: the conversation, or what replaces it. */
  lemma NodeAppendsTo(cfg: Config, node: NodeName, ctx: Context, live: Live, choice: Choice)
    returns (sent: seq<Message>)
    ensures RunNode(cfg, node, ctx, live, choice).ctx.messages ==
            sent + Payload(RunNode(cfg, node, ctx, live, choice).appended)
    ensures || sent == ctx.messages
            || (node.Compact? && choice.compaction.Replaced? && sent == choice.compaction.messages)
            || (node.PrepareNext? && choice.nextTurn == Ok(Some(sent)))
  {
    var s := RunNode(cfg, node, ctx, live, choice);
    NodeLogsMessages(cfg, node, ctx, live, choice);
    sent := ctx.messages;
    if s.replaced {
      if node.Compact? {
        sent := choice.compaction.messages;
        assert sent + Payload([]) == sent;
      } else {
        sent := ReplacedNextTurn(cfg, ctx, live, choice, s);
      }
    }
  }

  lemma ReplacedNextTurn(cfg: Config, ctx: Context, live: Live, choice: Choice, s: Step) returns (sent: seq<Message>)
    requires s == RunPrepareNext(cfg, ctx, live, choice) && s.replaced
    ensures choice.nextTurn.Ok? && choice.nextTurn.value.Some? && sent == choice.nextTurn.value.value
    ensures s.ctx.messages == sent + Payload(s.appended)
  {
    sent := choice.nextTurn.value.value;
    EntriesPayload(FollowUp, Drained(ctx.followUp + live.followUp, cfg.followUpMode));
    assert sent + Payload([]) == sent;
  }

  lemma NodeKeepsAnswered(cfg: Config, w: World, node: NodeName, choice: Choice)
    requires Core(cfg, w) && QueuesUser(w) && Answered(w) && w.phase == Running(node) && Careful(w, choice)
    ensures Answered(RuntimeStep(cfg, w, choice))
  {
    var s := RunNode(cfg, node, w.ctx, w.live, choice);
    var sent := NodeAppendsTo(cfg, node, w.ctx, w.live, choice);
    if node.Compact? && choice.compaction.Replaced? && sent != w.ctx.messages {
      CompactionKeepsPairing(w.ctx.messages, sent);
    }
    NodeKeepsPairs(cfg, node, w.ctx, w.live, choice, sent);
    AfterNodeReaches(w, node, s);
    ReachedAnswered(w, node, s, AfterNode(Took(w, s), node, s.result));
  }

  lemma ReachedAnswered(w: World, node: NodeName, s: Step, w': World)
    requires KeepsPairs(node, s, s.ctx.messages) && Reaches(w, node, s, w')
    ensures Answered(w')
  {
  }

  lemma OtherStepsKeepAnswered(cfg: Config, w: World, act: Label)
    requires Answered(w) && (act.Internal? ==> !w.phase.Running?)
    ensures Answered(Advance(cfg, w, act))
  {
    if act.Internal? && w.phase.Checking? { LookKeepsAnswered(cfg, w, act.choice); }
  }

  lemma LookKeepsAnswered(cfg: Config, w: World, choice: Choice)
    requires Answered(w) && w.phase.Checking?
    ensures Answered(RuntimeStep(cfg, w, choice))
  {
    assert CutOff(Now(w));
  }

  lemma StepKeepsAnswered(cfg: Config, w: World, act: Label)
    requires Core(cfg, w) && QueuesUser(w) && Answered(w) && (act.Internal? ==> Careful(w, act.choice))
    ensures Answered(Advance(cfg, w, act))
  {
    if act.Internal? && w.phase.Running? {
      NodeKeepsAnswered(cfg, w, w.phase.node, act.choice);
    } else {
      OtherStepsKeepAnswered(cfg, w, act);
    }
  }

  // ---------------------------------------------------------------- runs

  lemma OneMoreAct(cfg: Config, live: Live, acts: seq<Label>, act: Label, w: World)
    requires AllUser(live.steering) && AllUser(live.followUp) && w == AdvanceAll(cfg, Begin(live), acts)
    requires Answered(w) && (act.Internal? ==> Careful(w, act.choice))
    ensures Answered(Advance(cfg, w, act))
  {
    RunKeepsInv(cfg, live, acts);
    StepKeepsAnswered(cfg, w, act);
  }

  lemma {:induction false} StaysAnswered(cfg: Config, live: Live, acts: seq<Label>)
    requires AllUser(live.steering) && AllUser(live.followUp) && Answered(Begin(live)) && CarefulRun(cfg, live, acts)
    ensures Answered(AdvanceAll(cfg, Begin(live), acts))
    decreases |acts|
  {
    if acts != [] {
      var n := |acts| - 1;
      CarefulPrefix(cfg, live, acts);
      StaysAnswered(cfg, live, acts[..n]);
      OneMoreAct(cfg, live, acts[..n], acts[n], AdvanceAll(cfg, Begin(live), acts[..n]));
    }
  }

  /** Every run, whatever else happens around it: as long as replacements are careful, the conversation stays
      paired, and whenever the outer loop goes on every call in it is answered at once by the results of exactly
      its calls. */
  lemma ConversationStaysPaired(cfg: Config, live: Live, acts: seq<Label>)
    requires AllUser(live.steering) && AllUser(live.followUp) && Paired(live.messages) && CarefulRun(cfg, live, acts)
    ensures var w := AdvanceAll(cfg, Begin(live), acts);
            Answered(w) && (w.phase.Top? ==> Paired(w.live.messages))
  {
    StaysAnswered(cfg, live, acts);
  }

  lemma CarefulPrefix(cfg: Config, live: Live, acts: seq<Label>)
    requires CarefulRun(cfg, live, acts) && acts != []
    ensures CarefulRun(cfg, live, acts[..|acts| - 1])
  {
    var n := |acts| - 1;
    forall m | 0 <= m < n && acts[..n][m].Internal?
      ensures Careful(AdvanceAll(cfg, Begin(live), acts[..n][..m]), acts[..n][m].choice)
    {
      assert acts[..n][..m] == acts[..m];
    }
  }
}
