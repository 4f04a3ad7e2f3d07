/** What a run writes down, step by step: the replies it told, the results that the tools gave, what it took from the
queues, and why it ended. */
module Transcript {
  import opened Basics
  import opened Messages
  import Tools
  import opened AgentTurn
  import opened AgentProofs
  import opened AgentRuns

  // ---------------------------------------------------------------- a run step by step

  /** A point of a run where a step is looked at. */
  ghost predicate Tick(k: nat) { true }

  /** The machine before each step of a run, whoever takes it, and after the last one. */
  ghost predicate IsHistory(cfg: Config, live: Live, acts: seq<Label>, run: nat -> World)
  {
    && run(0) == Begin(live)
    && forall k: nat {:trigger Tick(k)} :: Tick(k) && k < |acts| ==> run(k + 1) == Advance(cfg, run(k), acts[k])
  }

  lemma {:induction false} HistoryIs(cfg: Config, live: Live, acts: seq<Label>, run: nat -> World, k: nat)
    requires IsHistory(cfg, live, acts, run) && k <= |acts|
    ensures run(k) == AdvanceAll(cfg, Begin(live), acts[..k])
  {
    if k > 0 {
      HistoryIs(cfg, live, acts, run, k - 1);
      assert Tick(k - 1) && acts[..k][..k - 1] == acts[..k - 1];
    }
  }

  /** Every run has a history. */
  lemma HistoryExists(cfg: Config, live: Live, acts: seq<Label>)
    ensures IsHistory(cfg, live, acts, (k: nat) => AdvanceAll(cfg, Begin(live), acts[..Min(k, |acts|)]))
  {
    forall k: nat | k < |acts|
      ensures AdvanceAll(cfg, Begin(live), acts[..k + 1]) ==
              Advance(cfg, AdvanceAll(cfg, Begin(live), acts[..k]), acts[k])
    {
      assert acts[..k + 1][..k] == acts[..k];
    }
  }

  lemma CoreAlong(cfg: Config, live: Live, acts: seq<Label>, run: nat -> World, k: nat)
    requires IsHistory(cfg, live, acts, run) && k <= |acts|
    ensures Core(cfg, run(k))
  {
    HistoryIs(cfg, live, acts, run, k);
    RunKeepsCore(cfg, live, acts[..k]);
  }

  /** A step of the run itself. */
  ghost predicate Runs(acts: seq<Label>, run: nat -> World, k: nat, node: NodeName, choice: Choice)
  {
    k < |acts| && acts[k] == Internal(choice) && run(k).phase == Running(node)
  }

  lemma StepAlong(cfg: Config, live: Live, acts: seq<Label>, run: nat -> World, k: nat, node: NodeName, choice: Choice,
                  s: Step)
    requires IsHistory(cfg, live, acts, run) && Runs(acts, run, k, node, choice)
    requires s == RunNode(cfg, node, run(k).ctx, run(k).live, choice)
    ensures Reaches(run(k), node, s, run(k + 1)) && run(k + 1).ctx == s.ctx
  {
    assert Tick(k);
    AfterNodeReaches(run(k), node, s);
  }

  lemma StepLogs(cfg: Config, w: World, act: Label)
    ensures w.log <= Advance(cfg, w, act).log
  {
    if act.Internal? && w.phase.Running? {
      AfterNodeReaches(w, w.phase.node, RunNode(cfg, w.phase.node, w.ctx, w.live, act.choice));
    }
  }

  /** The record only grows. */
  lemma {:induction false} LogGrows(cfg: Config, live: Live, acts: seq<Label>, run: nat -> World, j: nat, k: nat)
    requires IsHistory(cfg, live, acts, run) && j <= k <= |acts|
    ensures run(j).log <= run(k).log
  {
    if j < k {
      LogGrows(cfg, live, acts, run, j, k - 1);
      assert Tick(k - 1);
      StepLogs(cfg, run(k - 1), acts[k - 1]);
    }
  }

  // ---------------------------------------------------------------- tool results

  /** Every call, and there is one, came to an outcome that ends the run. */
  ghost predicate AllEnd(batch: Tools.Batch, calls: seq<Tools.Request>)
  {
    calls != [] && forall k :: 0 <= k < |calls| ==> batch.outcome(calls[k]).terminate
  }

  lemma EndsAll(batch: Tools.Batch, calls: seq<Tools.Request>, sequential: bool)
    requires forall j, k :: 0 <= j < k < |calls| ==> calls[j].index < calls[k].index
    ensures AllTerminate(Tools.BatchExecutions(batch, calls, sequential)) <==> AllEnd(batch, calls)
  {
    Tools.BatchIsCalls(batch, calls, sequential);
    var executions := Tools.ExecuteAll(batch, calls);
    if AllTerminate(executions) {
      forall k | 0 <= k < |calls| ensures batch.outcome(calls[k]).terminate { assert executions[k] in executions; }
    }
  }

  /** What a step that runs the tools of a message appends, and what it takes note of. */
  ghost predicate ToolsDid(calls: seq<Tools.Request>, batch: Tools.Batch, s: Step)
  {
    Tools.ReportsAll(batch, calls, Payload(s.appended)) && (s.ctx.allTerminate <==> AllEnd(batch, calls))
  }

  lemma ToolsAppend(cfg: Config, ctx: Context, live: Live, batch: Tools.Batch, calls: seq<Tools.Request>, s: Step)
    requires ctx.pending == calls && forall j, k :: 0 <= j < k < |calls| ==> calls[j].index < calls[k].index
    requires s == RunExecuteTools(cfg, ctx, live, batch)
    ensures ToolsDid(calls, batch, s)
  {
    if calls != [] {
      var sequential := Tools.UseSequential(cfg.toolMode, calls, cfg.tools);
      Tools.BatchReportsAll(batch, calls, sequential);
      EntriesPayload(ToolRun, Tools.ResultMessages(Tools.SortByIndex(Tools.BatchExecutions(batch, calls, sequential))));
      EndsAll(batch, calls, sequential);
    }
  }

  lemma SliceBehind<T>(before: seq<T>, more: seq<T>, next: seq<T>, all: seq<T>)
    requires next == before + more && next <= all
    ensures |before| + |more| <= |all| && before <= all && all[|before|..|before| + |more|] == more
  {
  }

  /** Behind what it had, the record has what each call of the message came to, in content order, and the run has taken
      note whether all of them end it. */
  ghost predicate Records(w: World, batch: Tools.Batch, next: World, log: seq<Entry>)
  {
    && w.ctx.assistant.Some? && w.log <= log
    && var calls := Tools.Extract(w.ctx.assistant.value);
    && |w.log| + |calls| <= |log|
    && Tools.ReportsAll(batch, calls, Payload(log[|w.log|..|w.log| + |calls|]))
    && (next.ctx.allTerminate <==> AllEnd(batch, calls))
  }

  lemma RecordsResults(w: World, batch: Tools.Batch, s: Step, next: World, log: seq<Entry>)
    requires w.ctx.assistant.Some? && ToolsDid(Tools.Extract(w.ctx.assistant.value), batch, s)
    requires next.log == w.log + s.appended && next.ctx == s.ctx && next.log <= log
    ensures Records(w, batch, next, log)
  {
    SliceBehind(w.log, s.appended, next.log, log);
  }

  /** What a node finds, along a run. */
  lemma EquippedAlong(cfg: Config, live: Live, acts: seq<Label>, run: nat -> World, k: nat, node: NodeName)
    requires IsHistory(cfg, live, acts, run) && k <= |acts| && run(k).phase == Running(node)
    ensures Equipped(node, run(k).ctx)
  {
    CoreAlong(cfg, live, acts, run, k);
  }

  lemma ToolsFound(ctx: Context) returns (calls: seq<Tools.Request>)
    requires Equipped(ExecuteTools, ctx)
    ensures ctx.assistant.Some? && calls == Tools.Extract(ctx.assistant.value) == ctx.pending
    ensures forall j, k :: 0 <= j < k < |calls| ==> calls[j].index < calls[k].index
  {
    calls := ctx.pending;
  }

  lemma ToolStepAlong(cfg: Config, live: Live, acts: seq<Label>, run: nat -> World, k: nat, choice: Choice)
    returns (s: Step, calls: seq<Tools.Request>)
    requires IsHistory(cfg, live, acts, run) && Runs(acts, run, k, ExecuteTools, choice)
    ensures run(k).ctx.assistant.Some? && calls == Tools.Extract(run(k).ctx.assistant.value)
    ensures ToolsDid(calls, choice.batch, s)
    ensures run(k + 1).log == run(k).log + s.appended && run(k + 1).ctx == s.ctx
  {
    EquippedAlong(cfg, live, acts, run, k, ExecuteTools);
    calls := ToolsFound(run(k).ctx);
    s := RunNode(cfg, ExecuteTools, run(k).ctx, run(k).live, choice);
    StepAlong(cfg, live, acts, run, k, ExecuteTools, choice, s);
    NodeIsTools(cfg, run(k).ctx, run(k).live, choice);
    ToolsAppend(cfg, run(k).ctx, run(k).live, choice.batch, calls, s);
  }

  /** Whenever a run executes the tools of a message, whatever their mode and the order in which they finish: from then
      on its record has what they came to. */
  lemma ToolResultsAreRecorded(cfg: Config, live: Live, acts: seq<Label>, run: nat -> World, n: nat, m: nat,
                               choice: Choice)
    requires IsHistory(cfg, live, acts, run) && Runs(acts, run, n, ExecuteTools, choice) && n < m <= |acts|
    ensures Records(run(n), choice.batch, run(n + 1), run(m).log)
  {
    var s, calls := ToolStepAlong(cfg, live, acts, run, n, choice);
    LogGrows(cfg, live, acts, run, n + 1, m);
    RecordsResults(run(n), choice.batch, s, run(n + 1), run(m).log);
  }

  // ---------------------------------------------------------------- replies

  /** The replies told, in order. */
  function RepliesTold(events: seq<Event>): seq<Assistant>
  {
    if events == [] then [] else
      var n := |events| - 1;
      RepliesTold(events[..n]) + match events[n] case Llm(Done(a)) => [a] case _ => []
  }

  lemma {:induction false} RepliesConcat(a: seq<Event>, b: seq<Event>)
    ensures RepliesTold(a + b) == RepliesTold(a) + RepliesTold(b)
    decreases |b|
  {
    if b == [] {
      assert a + b == a;
    } else {
      var n := |b| - 1;
      assert (a + b)[..|a| + n] == a + b[..n];
      RepliesConcat(a, b[..n]);
    }
  }

  predicate TellsReply(e: Event) { e.Llm? && e.event.Done? }

  lemma {:induction false} NoReplies(events: seq<Event>)
    requires forall i :: 0 <= i < |events| ==> !TellsReply(events[i])
    ensures RepliesTold(events) == []
  {
    if events != [] { NoReplies(events[..|events| - 1]); }
  }

  lemma LastReply(events: seq<Event>, e: Event)
    requires forall i :: 0 <= i < |events| ==> !TellsReply(events[i])
    ensures RepliesTold(events + [e]) == if TellsReply(e) then [e.event.message] else []
  {
    NoReplies(events);
    assert (events + [e])[..|events|] == events;
  }

  /** The message is the reply, whole, under the id it came with. */
  predicate IsReply(m: Message, a: Assistant)
  {
    m.FromAssistant? && m.assistant == a && m.id == match a.responseId case Some(id) => id case None => ""
  }

  ghost predicate AreReplies(said: seq<Message>, told: seq<Assistant>)
  {
    |said| == |told| && forall i :: 0 <= i < |said| ==> IsReply(said[i], told[i])
  }

  /** All replies but the last one, which is `a`, are recorded. */
  ghost predicate OneOpen(said: seq<Message>, told: seq<Assistant>, a: Assistant)
  {
    told != [] && told[|told| - 1] == a && AreReplies(said, told[..|told| - 1])
  }

  ghost predicate AtDecide(w: World) { InFlow(w) && w.phase.node.Decide? }

  /** The replies recorded are those told, except for `open`, which is still to be recorded, and for one that may have
      been cut off. */
  ghost predicate Kept(said: seq<Message>, told: seq<Assistant>, open: Option<Assistant>, halted: bool)
  {
    if open.Some? then OneOpen(said, told, open.value)
    else AreReplies(said, told) || (halted && told != [] && OneOpen(said, told, told[|told| - 1]))
  }

  /** That one is what the node behind the provider is about to record. */
  ghost predicate RepliesKept(w: World)
  {
    && (AtDecide(w) ==> w.ctx.assistant.Some?)
    && Kept(Delivered(w.log, Model), RepliesTold(w.events), if AtDecide(w) then w.ctx.assistant else None,
            w.phase.Halted?)
  }

  /** What a node does to replies. */
  ghost predicate KeepsReplies(node: NodeName, s: Step, ctx: Context)
  {
    var said, told := Delivered(s.appended, Model), RepliesTold(s.events);
    match node
    case ProviderStream =>
      said == [] && (told == [] || (s.ctx.assistant.Some? && told == [s.ctx.assistant.value]))
        && (s.result == Ok(Default) <==> told != [])
    case Decide => ctx.assistant.Some? ==> told == [] && |said| == 1 && IsReply(said[0], ctx.assistant.value)
    case _ => said == [] && told == []
  }

  /** What is read of a stream tells one reply at most, the last event. */
  lemma ReadReplies(read: seq<LlmEvent>)
    requires forall i :: 0 <= i < |read| - 1 ==> !Terminal(read[i])
    ensures RepliesTold(Wrapped(read)) ==
            if read != [] && read[|read| - 1].Done? then [read[|read| - 1].message] else []
  {
    if read != [] {
      var n := |read| - 1;
      LastReply(Wrapped(read)[..n], Wrapped(read)[n]);
      assert Wrapped(read) == Wrapped(read)[..n] + [Wrapped(read)[n]];
    }
  }

  lemma StreamKeepsReplies(ctx: Context, live: Live, stream: seq<LlmEvent>)
    ensures KeepsReplies(ProviderStream, RunProviderStream(ctx, live, stream), ctx)
  {
    var read := UntilTerminal(stream);
    var s := RunProviderStream(ctx, live, stream);
    ReadReplies(read);
    if ctx.request.Some? && !(read != [] && read[|read| - 1].Done?) {
      NoReplies([s.events[|s.events| - 1]]);
      RepliesConcat(Wrapped(read), [s.events[|s.events| - 1]]);
    }
  }

  lemma OneDelivered(m: Message)
    ensures Delivered([Entry(Model, m)], Model) == [m]
  {
    assert [Entry(Model, m)][..0] == [];
  }

  lemma DecideKeepsReplies(ctx: Context, live: Live)
    ensures KeepsReplies(Decide, RunDecide(ctx, live), ctx)
  {
    if ctx.assistant.Some? {
      OneDelivered(AssistantMessage(ctx.assistant.value));
      NoReplies(RunDecide(ctx, live).events);
    }
  }

  lemma ToolsKeepReplies(cfg: Config, ctx: Context, live: Live, batch: Tools.Batch)
    ensures KeepsReplies(ExecuteTools, RunExecuteTools(cfg, ctx, live, batch), ctx)
  {
    var s := RunExecuteTools(cfg, ctx, live, batch);
    NoReplies(s.events);
    if ctx.pending != [] {
      var sequential := Tools.UseSequential(cfg.toolMode, ctx.pending, cfg.tools);
      var results := Tools.ResultMessages(Tools.SortByIndex(Tools.BatchExecutions(batch, ctx.pending, sequential)));
      DeliveredEntries(ToolRun, results, Model);
    }
  }

  lemma NextTurnKeepsReplies(cfg: Config, ctx: Context, live: Live, choice: Choice)
    ensures KeepsReplies(PrepareNext, RunPrepareNext(cfg, ctx, live, choice), ctx)
  {
    var s := RunPrepareNext(cfg, ctx, live, choice);
    NoReplies(s.events);
    NextTurnAppends(cfg, ctx, live, choice, s);
    DeliveredEntries(FollowUp, Drained(ctx.followUp + live.followUp, cfg.followUpMode), Model);
  }

  lemma NextTurnAppends(cfg: Config, ctx: Context, live: Live, choice: Choice, s: Step)
    requires s == RunPrepareNext(cfg, ctx, live, choice)
    ensures s.appended == [] || s.appended == Entries(FollowUp, Drained(ctx.followUp + live.followUp, cfg.followUpMode))
  {
  }

  lemma DrainKeepsReplies(cfg: Config, ctx: Context, live: Live)
    ensures KeepsReplies(DrainInput, RunDrainInput(cfg, ctx, live), ctx)
  {
    DeliveredEntries(Steering, Drained(ctx.steering + live.steering, cfg.steeringMode), Model);
  }

  lemma QuietKeepsReplies(node: NodeName, s: Step, ctx: Context)
    requires node.StartTurn? || node.Compact? || node.PrepareRequest? || node.BeforeHook?
    requires s.appended == [] && forall i :: 0 <= i < |s.events| ==> !TellsReply(s.events[i])
    ensures KeepsReplies(node, s, ctx)
  {
    NoReplies(s.events);
  }

  lemma NodeKeepsReplies(cfg: Config, node: NodeName, ctx: Context, live: Live, choice: Choice)
    ensures KeepsReplies(node, RunNode(cfg, node, ctx, live, choice), ctx)
  {
    match node
    case DrainInput => DrainKeepsReplies(cfg, ctx, live);
    case ProviderStream => StreamKeepsReplies(ctx, live, choice.stream);
    case Decide => DecideKeepsReplies(ctx, live);
    case ExecuteTools => ToolsKeepReplies(cfg, ctx, live, choice.batch);
    case PrepareNext => NextTurnKeepsReplies(cfg, ctx, live, choice);
    case StartTurn => QuietKeepsReplies(node, RunStartTurn(cfg, ctx, live), ctx);
    case Compact => QuietKeepsReplies(node, RunCompact(ctx, live, choice.compaction), ctx);
    case PrepareRequest => QuietKeepsReplies(node, RunPrepareRequest(ctx, live, choice.prepared), ctx);
    case BeforeHook => QuietKeepsReplies(node, RunBeforeHook(ctx, live, choice.hooked), ctx);
  }

  // ---------------------------------------------------------------- replies over runs

  lemma NowOpen(said: seq<Message>, told: seq<Assistant>, a: Assistant)
    requires AreReplies(said, told)
    ensures OneOpen(said, told + [a], a)
  {
    assert (told + [a])[..|told|] == told;
  }

  lemma NowClosed(said: seq<Message>, told: seq<Assistant>, m: Message, a: Assistant)
    requires OneOpen(said, told, a) && IsReply(m, a)
    ensures AreReplies(said + [m], told)
  {
  }

  /** What a node reaches, as far as replies go. */
  lemma ReachesDecide(w: World, node: NodeName, s: Step, w': World)
    requires Reaches(w, node, s, w')
    ensures AtDecide(w') <==> node.ProviderStream? && s.result == Ok(Default)
    ensures AtDecide(w') ==> w'.ctx == s.ctx
  {
  }

  lemma ReachedEvents(w: World, node: NodeName, s: Step, w': World)
    requires Reaches(w, node, s, w')
    ensures RepliesTold(w'.events) == RepliesTold(w.events) + RepliesTold(s.events)
    ensures Delivered(w'.log, Model) == Delivered(w.log, Model) + Delivered(s.appended, Model)
  {
    var more := if s.result.Err? then [AgentError(s.result.error)] else [];
    NoReplies(more);
    RepliesConcat(w.events + s.events, more);
    RepliesConcat(w.events, s.events);
    DeliveredConcat(w.log, s.appended, Model);
  }

  /** A node records the open reply, opens one, or does neither. */
  lemma KeptOn(node: NodeName, said: seq<Message>, told: seq<Assistant>, more: seq<Message>, news: seq<Assistant>,
               before: Option<Assistant>, after: Option<Assistant>, halted: bool)
    requires Kept(said, told, before, false) && (before.Some? <==> node.Decide?)
    requires if node.Decide? then news == [] && |more| == 1 && IsReply(more[0], before.value) else more == []
    requires (node.ProviderStream? && news != [] && after.Some? && news == [after.value]) || (news == [] && after.None?)
    ensures Kept(said + more, told + news, after, halted)
  {
    if node.Decide? {
      NowClosed(said, told, more[0], before.value);
      assert more == [more[0]] && told + [] == told;
    } else if news != [] {
      NowOpen(said, told, after.value);
      assert said + [] == said;
    } else {
      assert said + [] == said && told + [] == told;
    }
  }

  /** The machine `w'` after a node. */
  lemma ReachedReplies(w: World, node: NodeName, s: Step, w': World)
    requires RepliesKept(w) && w.phase == Running(node) && KeepsReplies(node, s, w.ctx) && Equipped(node, w.ctx)
    requires Reaches(w, node, s, w')
    ensures RepliesKept(w')
  {
    ReachesDecide(w, node, s, w');
    ReachedEvents(w, node, s, w');
    KeptOn(node, Delivered(w.log, Model), RepliesTold(w.events), Delivered(s.appended, Model), RepliesTold(s.events),
           if AtDecide(w) then w.ctx.assistant else None, if AtDecide(w') then w'.ctx.assistant else None,
           w'.phase.Halted?);
  }

  /** A step that tells no reply, records nothing and reaches no other node. */
  lemma OtherReplies(w: World, w': World, more: seq<Event>)
    requires RepliesKept(w) && w'.log == w.log && w'.events == w.events + more
    requires forall i :: 0 <= i < |more| ==> !TellsReply(more[i])
    requires (AtDecide(w') <==> AtDecide(w)) || (w'.phase.Halted? && AtDecide(w))
    requires (AtDecide(w') ==> w'.ctx == w.ctx) && (w.phase.Halted? ==> w'.phase.Halted?)
    ensures RepliesKept(w')
  {
    NoReplies(more);
    RepliesConcat(w.events, more);
    assert RepliesTold(w.events) + [] == RepliesTold(w.events);
  }

  lemma CheckKeepsReplies(cfg: Config, w: World, choice: Choice)
    requires RepliesKept(w) && w.phase.Checking?
    ensures RepliesKept(RuntimeStep(cfg, w, choice))
  {
    var w' := RuntimeStep(cfg, w, choice);
    if w.live.cancelled {
      OtherReplies(w, w', [AgentError(AbortedRun)]);
    } else if w.steps >= MAX_STEPS {
      OtherReplies(w, w', [AgentError(MaxSteps)]);
    } else {
      assert w.events + [] == w.events;
      OtherReplies(w, w', []);
    }
  }

  lemma StillKeepsReplies(cfg: Config, w: World, act: Label)
    requires RepliesKept(w) && (act.Internal? ==> w.phase.Top? || w.phase.Halted?)
    ensures RepliesKept(Advance(cfg, w, act))
  {
    assert w.events + [] == w.events;
    OtherReplies(w, Advance(cfg, w, act), []);
  }

  lemma {:induction false} RepliesAlong(cfg: Config, live: Live, acts: seq<Label>, run: nat -> World, k: nat)
    requires IsHistory(cfg, live, acts, run) && k <= |acts|
    ensures RepliesKept(run(k))
  {
    if k > 0 {
      var w, act := run(k - 1), acts[k - 1];
      RepliesAlong(cfg, live, acts, run, k - 1);
      if act.Internal? && w.phase.Running? {
        EquippedAlong(cfg, live, acts, run, k - 1, w.phase.node);
        RepliesAfterNode(cfg, live, acts, run, k - 1, w.phase.node, act.choice);
      } else {
        assert Tick(k - 1);
        if act.Internal? && w.phase.Checking? {
          CheckKeepsReplies(cfg, w, act.choice);
        } else {
          StillKeepsReplies(cfg, w, act);
        }
      }
    }
  }

  lemma RepliesAfterNode(cfg: Config, live: Live, acts: seq<Label>, run: nat -> World, k: nat, node: NodeName,
                         choice: Choice)
    requires IsHistory(cfg, live, acts, run) && Runs(acts, run, k, node, choice)
    requires RepliesKept(run(k)) && Equipped(node, run(k).ctx)
    ensures RepliesKept(run(k + 1))
  {
    var s := RunNode(cfg, node, run(k).ctx, run(k).live, choice);
    NodeKeepsReplies(cfg, node, run(k).ctx, run(k).live, choice);
    StepAlong(cfg, live, acts, run, k, node, choice, s);
    ReachedReplies(run(k), node, s, run(k + 1));
  }

  /** At every moment of every run: the model's messages on record are the replies that were told, whole and in order,
      but for one that is about to be recorded or that was cut off. Between two turns there is none such. */
  lemma RepliesAreRecorded(cfg: Config, live: Live, acts: seq<Label>, run: nat -> World, k: nat)
    requires IsHistory(cfg, live, acts, run) && k <= |acts|
    ensures var said, told := Delivered(run(k).log, Model), RepliesTold(run(k).events);
            && (AreReplies(said, told) || (told != [] && OneOpen(said, told, told[|told| - 1])))
            && (run(k).phase.Top? ==> AreReplies(said, told))
  {
    RepliesAlong(cfg, live, acts, run, k);
  }

  // ---------------------------------------------------------------- queues

  /** What is taken from the front of a queue: everything, or one message if there is one. */
  ghost predicate Takes(queue: seq<Message>, mode: QueueMode, taken: seq<Message>, rest: seq<Message>)
  {
    && taken + rest == queue
    && |taken| == match mode case All => |queue| case OneAtATime => Min(1, |queue|)
  }

  lemma TakesByMode(queue: seq<Message>, mode: QueueMode)
    ensures Takes(queue, mode, Drained(queue, mode), Remaining(queue, mode))
  {
  }

  /** What happens to the steering queue at the start of a turn: the context's own messages come first, then those
      enqueued meanwhile; what is taken goes behind the conversation. */
  lemma SteeringIsTaken(cfg: Config, live: Live, acts: seq<Label>, run: nat -> World, k: nat, choice: Choice)
    returns (taken: seq<Message>)
    requires IsHistory(cfg, live, acts, run) && Runs(acts, run, k, DrainInput, choice)
    ensures var w, next := run(k), run(k + 1);
            && Takes(w.ctx.steering + w.live.steering, cfg.steeringMode, taken, next.ctx.steering)
            && next.ctx.messages == w.ctx.messages + taken && next.live.steering == []
  {
    var w := run(k);
    TakesByMode(w.ctx.steering + w.live.steering, cfg.steeringMode);
    StepAlong(cfg, live, acts, run, k, DrainInput, choice, RunNode(cfg, DrainInput, w.ctx, w.live, choice));
    taken := Drained(w.ctx.steering + w.live.steering, cfg.steeringMode);
  }

  /** What happens to the follow-up queue when a turn without tools is over and the run goes on: the rest goes back to
      the shared state. */
  lemma FollowUpIsTaken(cfg: Config, live: Live, acts: seq<Label>, run: nat -> World, k: nat, choice: Choice)
    returns (taken: seq<Message>)
    requires IsHistory(cfg, live, acts, run) && Runs(acts, run, k, PrepareNext, choice) && run(k + 1).phase.Top?
    requires run(k).ctx.assistant.Some? && !run(k).ctx.assistant.value.stopReason.ToolUse?
    ensures var w, next := run(k), run(k + 1);
            && Takes(w.ctx.followUp + w.live.followUp, cfg.followUpMode, taken, next.live.followUp)
            && choice.nextTurn.Ok?
            && next.live.messages ==
               (if choice.nextTurn.value.Some? then choice.nextTurn.value.value else w.ctx.messages) + taken
  {
    var w := run(k);
    var s := RunNode(cfg, PrepareNext, w.ctx, w.live, choice);
    TakesByMode(w.ctx.followUp + w.live.followUp, cfg.followUpMode);
    StepAlong(cfg, live, acts, run, k, PrepareNext, choice, s);
    taken := Drained(w.ctx.followUp + w.live.followUp, cfg.followUpMode);
    GoesOn(cfg, w.ctx, w.live, choice, s);
    assert s.ctx.followUp + [] == s.ctx.followUp;
  }

  lemma GoesOn(cfg: Config, ctx: Context, live: Live, choice: Choice, s: Step)
    requires s == RunNode(cfg, PrepareNext, ctx, live, choice) && PhaseAfter(PrepareNext, s.result).Top?
    requires ctx.assistant.Some? && !ctx.assistant.value.stopReason.ToolUse?
    ensures var queue := ctx.followUp + live.followUp;
            && choice.nextTurn.Ok? && s.live.followUp == [] && s.ctx.followUp == Remaining(queue, cfg.followUpMode)
            && s.ctx.messages == (if choice.nextTurn.value.Some? then choice.nextTurn.value.value else ctx.messages)
                                 + Drained(queue, cfg.followUpMode)
  {
  }

  // ---------------------------------------------------------------- requests

  /** What a compaction leaves is what the turn goes on with, and it is told; otherwise nothing changes. */
  lemma CompactionIsTaken(cfg: Config, live: Live, acts: seq<Label>, run: nat -> World, k: nat, choice: Choice)
    requires IsHistory(cfg, live, acts, run) && Runs(acts, run, k, Compact, choice)
    ensures var w, next := run(k), run(k + 1);
            match choice.compaction
            case Unneeded => next.ctx == w.ctx && next.events == w.events
            case Replaced(messages, summary, firstKept, tokensBefore) =>
              && next.ctx == w.ctx.(messages := messages)
              && next.events == w.events + [SessionCompacted(summary, firstKept, tokensBefore)]
            case SummaryFailed(_) => next.phase.Halted? && next.live.messages == w.ctx.messages
  {
    var s := RunNode(cfg, Compact, run(k).ctx, run(k).live, choice);
    StepAlong(cfg, live, acts, run, k, Compact, choice, s);
    assert run(k).events + [] == run(k).events;
  }

  /** The request that the last hook is given is the one that was built. */
  lemma RequestIsBuilt(cfg: Config, live: Live, acts: seq<Label>, run: nat -> World, k: nat, choice: Choice)
    requires IsHistory(cfg, live, acts, run) && Runs(acts, run, k, PrepareRequest, choice)
    requires run(k + 1).phase == Checking(BeforeHook)
    ensures choice.prepared.Ok? && run(k + 1).ctx == run(k).ctx.(request := Some(choice.prepared.value))
  {
    var s := RunNode(cfg, PrepareRequest, run(k).ctx, run(k).live, choice);
    StepAlong(cfg, live, acts, run, k, PrepareRequest, choice, s);
  }

  /** The request that reaches the provider is the one the last hook gave, and it is the one told. */
  lemma RequestIsSent(cfg: Config, live: Live, acts: seq<Label>, run: nat -> World, k: nat, choice: Choice)
    requires IsHistory(cfg, live, acts, run) && Runs(acts, run, k, BeforeHook, choice)
    requires run(k + 1).phase == Checking(ProviderStream)
    ensures var w, next := run(k), run(k + 1);
            && choice.hooked.Ok? && next.ctx == w.ctx.(request := Some(choice.hooked.value))
            && next.events == w.events + [BeforeRequest(choice.hooked.value)]
  {
    var s := RunNode(cfg, BeforeHook, run(k).ctx, run(k).live, choice);
    StepAlong(cfg, live, acts, run, k, BeforeHook, choice, s);
    assert run(k).events + s.events + [] == run(k).events + s.events;
  }

  // ---------------------------------------------------------------- why a run ends

  /** The event that ends a run at a step of its own, if it ends there. */
  function Ending(cfg: Config, w: World, choice: Choice): Option<Event>
  {
    match w.phase
    case Top => None
    case Halted => None
    case Checking(_) => if w.live.cancelled then Some(AgentError(AbortedRun)) else None
    case Running(node) => NodeEnding(cfg, node, w.ctx, w.live, choice)
  }

  function NodeEnding(cfg: Config, node: NodeName, ctx: Context, live: Live, choice: Choice): Option<Event>
  {
    match node
    case StartTurn =>
      if live.cancelled then Some(AgentError(AbortedRun))
      else if cfg.maxTurns == Some(ctx.turn) then Some(AgentError(MaxTurns(ctx.turn)))
      else None
    case DrainInput => None
    case Compact =>
      if choice.compaction.SummaryFailed? then Some(AgentError(NotSummarized(choice.compaction.message))) else None
    case PrepareRequest => if choice.prepared.Err? then Some(AgentError(HookFailed(choice.prepared.error))) else None
    case BeforeHook => if choice.hooked.Err? then Some(AgentError(HookFailed(choice.hooked.error))) else None
    case ProviderStream => StreamEnding(choice.stream)
    case Decide => if ctx.assistant.None? then None else ReplyEnding(ctx.assistant.value)
    case ExecuteTools => None
    case PrepareNext => if ctx.assistant.None? then None else TurnEnding(ctx, live, ctx.assistant.value, choice)
  }

  /** The first event that ends the stream decides. */
  function StreamEnding(stream: seq<LlmEvent>): Option<Event>
  {
    if stream == [] then Some(AgentError(StreamEnded))
    else if stream[0].Done? then None
    else if stream[0].LlmError? then Some(AgentError(ModelFailed(stream[0].message.errorMessage)))
    else StreamEnding(stream[1..])
  }

  function ReplyEnding(a: Assistant): Option<Event>
  {
    if a.stopReason == Error then Some(AgentError(ModelFailed(a.errorMessage)))
    else if a.stopReason == Aborted then Some(AgentError(AbortedRun))
    else None
  }

  /** A turn is the last one when a hook fails or says so, when all its tools do, or when it used none and nothing is
      queued. */
  function TurnEnding(ctx: Context, live: Live, a: Assistant, choice: Choice): Option<Event>
  {
    if choice.stop.Err? then Some(AgentError(HookFailed(choice.stop.error)))
    else if choice.stop.value then Some(AgentDone(a))
    else if a.stopReason == ToolUse && ctx.allTerminate then Some(AgentDone(a))
    else if choice.nextTurn.Err? then Some(AgentError(HookFailed(choice.nextTurn.error)))
    else if a.stopReason != ToolUse && ctx.steering + live.steering == [] && ctx.followUp + live.followUp == []
    then Some(AgentDone(a))
    else None
  }

  /** The step ends the run exactly when there is such an event, and tells it last. */
  ghost predicate EndsAs(w': World, ending: Option<Event>)
  {
    && (w'.phase.Halted? <==> ending.Some?)
    && (ending.Some? ==> w'.events != [] && w'.events[|w'.events| - 1] == ending.value)
  }

  ghost predicate StepEndsAs(node: NodeName, s: Step, ending: Option<Event>)
  {
    var told := s.events + if s.result.Err? then [AgentError(s.result.error)] else [];
    && (PhaseAfter(node, s.result).Halted? <==> ending.Some?)
    && (ending.Some? ==> told != [] && told[|told| - 1] == ending.value)
  }

  lemma {:induction false} StreamEndsAs(stream: seq<LlmEvent>)
    ensures var read := UntilTerminal(stream);
            StreamEnding(stream) ==
            if read != [] && read[|read| - 1].Done? then None
            else if read != [] && read[|read| - 1].LlmError?
              then Some(AgentError(ModelFailed(read[|read| - 1].message.errorMessage)))
            else Some(AgentError(StreamEnded))
  {
    if stream != [] && !Terminal(stream[0]) { StreamEndsAs(stream[1..]); }
  }

  lemma ProviderEndsAs(ctx: Context, live: Live, stream: seq<LlmEvent>)
    requires ctx.request.Some?
    ensures StepEndsAs(ProviderStream, RunProviderStream(ctx, live, stream), StreamEnding(stream))
  {
    StreamEndsAs(stream);
  }

  lemma NextTurnEndsAs(cfg: Config, ctx: Context, live: Live, a: Assistant, choice: Choice, s: Step)
    requires ctx.assistant == Some(a) && !a.stopReason.Error? && !a.stopReason.Aborted?
    requires s == RunPrepareNext(cfg, ctx, live, choice)
    ensures StepEndsAs(PrepareNext, s, TurnEnding(ctx, live, a, choice))
  {
  }

  lemma StartEndsAs(cfg: Config, ctx: Context, live: Live, choice: Choice, s: Step)
    requires s == RunStartTurn(cfg, ctx, live) && (cfg.maxTurns.Some? ==> ctx.turn <= cfg.maxTurns.value)
    ensures StepEndsAs(StartTurn, s, NodeEnding(cfg, StartTurn, ctx, live, choice))
  {
  }

  lemma CompactEndsAs(cfg: Config, ctx: Context, live: Live, choice: Choice, s: Step)
    requires s == RunCompact(ctx, live, choice.compaction)
    ensures StepEndsAs(Compact, s, NodeEnding(cfg, Compact, ctx, live, choice))
  {
  }

  lemma PrepareEndsAs(cfg: Config, ctx: Context, live: Live, choice: Choice, s: Step)
    requires s == RunPrepareRequest(ctx, live, choice.prepared)
    ensures StepEndsAs(PrepareRequest, s, NodeEnding(cfg, PrepareRequest, ctx, live, choice))
  {
  }

  lemma HookEndsAs(cfg: Config, ctx: Context, live: Live, choice: Choice, s: Step)
    requires ctx.request.Some? && s == RunBeforeHook(ctx, live, choice.hooked)
    ensures StepEndsAs(BeforeHook, s, NodeEnding(cfg, BeforeHook, ctx, live, choice))
  {
  }

  lemma DecideEndsAs(ctx: Context, live: Live, a: Assistant, s: Step)
    requires ctx.assistant == Some(a) && s == RunDecide(ctx, live)
    ensures StepEndsAs(Decide, s, ReplyEnding(a))
  {
  }

  lemma NeverEnds(node: NodeName, s: Step)
    requires || (node.DrainInput? && s.result == Ok(Default))
             || (node.ExecuteTools? && (s.result == Ok(Continue) || s.result == Ok(ContinueProvider)))
    ensures StepEndsAs(node, s, None)
  {
  }

  lemma NodeEndsAs(cfg: Config, node: NodeName, ctx: Context, live: Live, choice: Choice, s: Step)
    requires Equipped(node, ctx) && s == RunNode(cfg, node, ctx, live, choice)
    requires cfg.maxTurns.Some? && node.StartTurn? ==> ctx.turn <= cfg.maxTurns.value
    ensures StepEndsAs(node, s, NodeEnding(cfg, node, ctx, live, choice))
  {
    match node
    case StartTurn => StartEndsAs(cfg, ctx, live, choice, s);
    case ProviderStream => ProviderEndsAs(ctx, live, choice.stream);
    case Decide => DecideEndsAs(ctx, live, ctx.assistant.value, s);
    case PrepareNext => NextTurnEndsAs(cfg, ctx, live, ctx.assistant.value, choice, s);
    case DrainInput => NeverEnds(node, s);
    case ExecuteTools => NeverEnds(node, s);
    case Compact => CompactEndsAs(cfg, ctx, live, choice, s);
    case PrepareRequest => PrepareEndsAs(cfg, ctx, live, choice, s);
    case BeforeHook => HookEndsAs(cfg, ctx, live, choice, s);
  }

  lemma ReachedEnds(w: World, node: NodeName, s: Step, w': World, ending: Option<Event>)
    requires Reaches(w, node, s, w') && StepEndsAs(node, s, ending)
    ensures EndsAs(w', ending)
  {
  }

  /** Why runs end: a step of a run that has not ended ends it exactly when one of these reasons is there, and tells the
      reason last. In particular no run ever ends because a request or a reply is missing, or at the step limit. */
  lemma EndsExactly(cfg: Config, live: Live, acts: seq<Label>, run: nat -> World, k: nat, choice: Choice)
    requires IsHistory(cfg, live, acts, run) && k < |acts| && acts[k] == Internal(choice) && !run(k).phase.Halted?
    ensures EndsAs(run(k + 1), Ending(cfg, run(k), choice))
  {
    CoreAlong(cfg, live, acts, run, k);
    var w := run(k);
    if w.phase.Running? {
      var s := RunNode(cfg, w.phase.node, w.ctx, w.live, choice);
      NodeEndsAs(cfg, w.phase.node, w.ctx, w.live, choice, s);
      StepAlong(cfg, live, acts, run, k, w.phase.node, choice, s);
      ReachedEnds(w, w.phase.node, s, run(k + 1), Ending(cfg, w, choice));
    } else {
      assert Tick(k);
    }
  }
}
