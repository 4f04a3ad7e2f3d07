/** The older agent loop, kept beside the flow runtime, and the proof that the flow runtime does the same
when nothing intervenes: no hooks, no compaction, no cancellation, and nobody enqueues during the run. */
module Legacy {
  import opened Basics
  import opened Messages
  import Tools
  import opened AgentTurn

  /** What provider and tools do, as functions of what they are given. */
  datatype Oracle = Oracle(
    request: seq<Message> -> string,
    stream: (nat, string) -> seq<LlmEvent>,
    batch: (nat, Assistant) -> Tools.Batch)

  // ---------------------------------------------------------------- the older loop

  datatype ToolTurn = ToolTurn(messages: seq<Message>, events: seq<Tools.Event>, outcomes: seq<Tools.Outcome>)

  /** One call after the other, each result appended as soon as it is there. */
  function LegacySequential(batch: Tools.Batch, calls: seq<Tools.Request>, k: nat,
                            messages: seq<Message>): (r: ToolTurn)
    requires k <= |calls|
  {
    if k == 0 then ToolTurn(messages, [], []) else
      var before := LegacySequential(batch, calls, k - 1, messages);
      var c := calls[k - 1];
      var e := Tools.Execute(batch, c);
      ToolTurn(before.messages + Tools.ResultMessages(Tools.SortByIndex([e])),
               before.events + [Tools.Start(c)] + Tools.Updates(c, batch.updates(c)) + [Tools.End(e)],
               before.outcomes + [e.outcome])
  }

  function Outcomes(executions: seq<Tools.Execution>): (r: seq<Tools.Outcome>)
    ensures |r| == |executions| && forall i :: 0 <= i < |r| ==> r[i] == executions[i].outcome
  {
    seq(|executions|, i requires 0 <= i < |executions| => executions[i].outcome)
  }

  function LegacyTools(cfg: Config, batch: Tools.Batch, calls: seq<Tools.Request>, messages: seq<Message>): ToolTurn
  {
    if Tools.UseSequential(cfg.toolMode, calls, cfg.tools) then LegacySequential(batch, calls, |calls|, messages)
    else
      var completed := Tools.Completed(batch, Tools.ExecuteAll(batch, calls));
      var sorted := Tools.SortByIndex(completed);
      ToolTurn(messages + Tools.ResultMessages(Tools.SortByIndex(sorted)),
               Tools.Starts(calls) + Tools.EndsOf(completed), Outcomes(sorted))
  }

  /** One round of the older loop on the shared state. */
  datatype Round = Round(live: Live, turn: nat, events: seq<Event>, again: bool)

  predicate AllStop(outcomes: seq<Tools.Outcome>)
  {
    outcomes != [] && forall x :: x in outcomes ==> x.terminate
  }

  function LegacyAfterTools(said: Live, turn: nat, told: seq<Event>, a: Assistant, tools: ToolTurn): Round
  {
    var done := said.(messages := tools.messages);
    var events := told + ToolEvents(tools.events);
    if AllStop(tools.outcomes)
    then Round(done, turn, events + [AgentDone(a)], false)
    else Round(done, turn, events, true)
  }

  function LegacyReply(cfg: Config, o: Oracle, live: Live, turn: nat, told: seq<Event>, a: Assistant): Round
  {
    var said := live.(messages := live.messages + [AssistantMessage(a)]);
    match a.stopReason
    case Error => Round(said, turn, told + [AgentError(ModelFailed(a.errorMessage))], false)
    case Aborted => Round(said, turn, told + [AgentError(AbortedRun)], false)
    case ToolUse =>
      var calls := Tools.Extract(a);
      if calls == [] then Round(said, turn, told, true) else
        LegacyAfterTools(said, turn, told, a, LegacyTools(cfg, o.batch(turn, a), calls, said.messages))
    case _ =>
      if said.followUp == [] && said.steering == [] then Round(said, turn, told + [AgentDone(a)], false) else
        var more := Drained(said.followUp, cfg.followUpMode);
        Round(said.(followUp := Remaining(said.followUp, cfg.followUpMode), messages := said.messages + more), turn,
              told, true)
  }

  function LegacyRound(cfg: Config, o: Oracle, live: Live, before: nat): Round
  {
    var turn := before + 1;
    if cfg.maxTurns.Some? && turn > cfg.maxTurns.value then
      Round(live, turn, [AgentError(MaxTurns(cfg.maxTurns.value))], false)
    else
      var steered := live.(messages := live.messages + Drained(live.steering, cfg.steeringMode),
                           steering := Remaining(live.steering, cfg.steeringMode));
      var request := o.request(steered.messages);
      var read := UntilTerminal(o.stream(turn, request));
      LegacyAnswer(cfg, o, steered, turn, [TurnStart(turn), BeforeRequest(request)] + Wrapped(read), read)
  }

  /** What follows the answer of the provider. */
  function LegacyAnswer(cfg: Config, o: Oracle, live: Live, turn: nat, told: seq<Event>, read: seq<LlmEvent>): Round
  {
    if read != [] && read[|read| - 1].Done? then LegacyReply(cfg, o, live, turn, told, read[|read| - 1].message)
    else
      var failure := if read != [] && read[|read| - 1].LlmError?
                     then ModelFailed(read[|read| - 1].message.errorMessage)
                     else StreamEnded;
      Round(live, turn, told + [AgentError(failure)], false)
  }

  /** The older loop for at most `rounds` rounds. */
  function LegacyLoop(cfg: Config, o: Oracle, live: Live, rounds: nat): Round
  {
    if rounds == 0 then Round(live, 0, [], true) else
      var before := LegacyLoop(cfg, o, live, rounds - 1);
      if !before.again then before else
        var r := LegacyRound(cfg, o, before.live, before.turn);
        r.(events := before.events + r.events)
  }

  // ---------------------------------------------------------------- the flow runtime on its own

  function ChoiceFor(o: Oracle, ctx: Context): Choice
  {
    var request := if ctx.request.Some? then ctx.request.value else "";
    var idle := Tools.Batch(_ => Tools.Outcome([], false, false), _ => [], s => s);
    Choice(Unneeded, Ok(o.request(ctx.messages)), Ok(request), o.stream(ctx.turn, request),
           if ctx.assistant.Some? then o.batch(ctx.turn, ctx.assistant.value) else idle, Ok(false), Ok(None))
  }

  /** A point of a trace where the machine's step is looked at. */
  ghost predicate Tick(n: nat) { true }

  /** A trace of the machine on its own: nobody enqueues or cancels, and the oracle answers. */
  ghost predicate IsTrace(cfg: Config, o: Oracle, run: nat -> World)
  {
    forall n: nat {:trigger Tick(n)} :: Tick(n) ==> run(n + 1) == RuntimeStep(cfg, run(n), ChoiceFor(o, run(n).ctx))
  }

  /** A node takes two steps: the look at the token, and the node itself. */
  lemma NodeTakesTwo(cfg: Config, o: Oracle, run: nat -> World, n: nat, node: NodeName, s: Step)
    requires IsTrace(cfg, o, run)
    requires run(n).phase == Checking(node) && !run(n).live.cancelled && run(n).steps < MAX_STEPS
    requires s == RunNode(cfg, node, run(n).ctx, run(n).live, ChoiceFor(o, run(n).ctx))
    ensures run(n + 2) == AfterNode(Took(run(n), s), node, s.result)
  {
    assert Tick(n) && Tick(n + 1);
    var running := run(n).(phase := Running(node));
    assert run(n + 1) == running;
    assert Took(running, s) == Took(run(n), s).(phase := Running(node));
  }

  /** The machine is about to run a node. */
  ghost predicate Standing(v: World, node: NodeName, ctx: Context, live: Live, events: seq<Event>, steps: nat)
  {
    v.phase == Checking(node) && v.ctx == ctx && v.live == live && !live.cancelled && v.events == events
      && v.steps == steps < 9
  }

  /** The machine is back in the outer loop, or has halted. */
  ghost predicate Standstill(v: World, again: bool, live: Live, turn: nat, events: seq<Event>)
  {
    v.phase == (if again then Top else Halted) && v.live == live && v.turn == turn && v.events == events
  }

  lemma GoOn(cfg: Config, o: Oracle, run: nat -> World, n: nat, node: NodeName, ctx: Context, live: Live,
             events: seq<Event>,
             steps: nat, s: Step, next: NodeName)
    requires IsTrace(cfg, o, run)
    requires Standing(run(n), node, ctx, live, events, steps) && steps < 8
    requires s == RunNode(cfg, node, ctx, live, ChoiceFor(o, ctx)) && !s.live.cancelled
    requires PhaseAfter(node, s.result) == Checking(next)
    ensures Standing(run(n + 2), next, s.ctx, s.live, events + s.events, steps + 1)
  {
    NodeTakesTwo(cfg, o, run, n, node, s);
  }

  lemma GoOut(cfg: Config, o: Oracle, run: nat -> World, n: nat, node: NodeName, ctx: Context, live: Live,
              events: seq<Event>,
              steps: nat, s: Step)
    requires IsTrace(cfg, o, run)
    requires Standing(run(n), node, ctx, live, events, steps)
    requires s == RunNode(cfg, node, ctx, live, ChoiceFor(o, ctx)) && s.result.Ok?
    requires !PhaseAfter(node, s.result).Checking?
    ensures Standstill(run(n + 2), PhaseAfter(node, s.result).Top?, ApplyToState(s.ctx, s.live),
                       s.ctx.turn, events + s.events)
  {
    NodeTakesTwo(cfg, o, run, n, node, s);
    assert events + s.events + [] == events + s.events;
  }

  /** The context the provider node starts with. */
  function Asking(cfg: Config, o: Oracle, live: Live, turn: nat): Context
  {
    var messages := live.messages + Drained(live.steering, cfg.steeringMode);
    Context(messages, Remaining(live.steering, cfg.steeringMode), live.followUp, turn, Some(o.request(messages)), None,
            [], false)
  }

  lemma ReachCompact(cfg: Config, o: Oracle, run: nat -> World, n: nat, w: World)
    requires IsTrace(cfg, o, run) && w == run(n) && w.phase.Top? && !w.live.cancelled
    requires !(cfg.maxTurns.Some? && w.turn + 1 > cfg.maxTurns.value)
    ensures Standing(run(n + 5), Compact, Asking(cfg, o, w.live, w.turn + 1).(request := None),
                     w.live.(steering := [], followUp := []), w.events + [TurnStart(w.turn + 1)], 2)
  {
    var live := w.live.(steering := [], followUp := []);
    var c0 := FromLive(w.live, w.turn);
    assert Tick(n);
    assert Standing(run(n + 1), StartTurn, c0, live, w.events, 0);
    var c1 := c0.(turn := w.turn + 1);
    GoOn(cfg, o, run, n + 1, StartTurn, c0, live, w.events, 0, RunStartTurn(cfg, c0, live), DrainInput);
    var e1 := w.events + [TurnStart(w.turn + 1)];
    assert c1.steering + live.steering == w.live.steering && c1.followUp + live.followUp == w.live.followUp;
    GoOn(cfg, o, run, n + 3, DrainInput, c1, live, e1, 1, RunDrainInput(cfg, c1, live), Compact);
    assert e1 + [] == e1;
  }

  /** From the top of the loop to the provider: five nodes, eleven steps. */
  lemma ReachProvider(cfg: Config, o: Oracle, run: nat -> World, n: nat, w: World)
    requires IsTrace(cfg, o, run) && w == run(n) && w.phase.Top? && !w.live.cancelled
    requires !(cfg.maxTurns.Some? && w.turn + 1 > cfg.maxTurns.value)
    ensures var ctx := Asking(cfg, o, w.live, w.turn + 1);
            Standing(run(n + 11), ProviderStream, ctx, w.live.(steering := [], followUp := []),
                     w.events + [TurnStart(w.turn + 1), BeforeRequest(ctx.request.value)], 5)
  {
    var live := w.live.(steering := [], followUp := []);
    var ctx := Asking(cfg, o, w.live, w.turn + 1);
    ReachCompact(cfg, o, run, n, w);
    CompactToProvider(cfg, o, run, n + 5, ctx, live, w.events + [TurnStart(w.turn + 1)], ctx.request.value);
    assert w.events + [TurnStart(w.turn + 1)] + [BeforeRequest(ctx.request.value)] ==
           w.events + [TurnStart(w.turn + 1), BeforeRequest(ctx.request.value)];
  }

  /** With no compaction and no hook the request reaches the provider as it was built. */
  lemma CompactToProvider(cfg: Config, o: Oracle, run: nat -> World, n: nat, ctx: Context, live: Live,
                          events: seq<Event>, request: string)
    requires IsTrace(cfg, o, run) && ctx.request == Some(request) && request == o.request(ctx.messages)
    requires Standing(run(n), Compact, ctx.(request := None), live, events, 2)
    ensures Standing(run(n + 6), ProviderStream, ctx, live, events + [BeforeRequest(request)], 5)
  {
    var bare := ctx.(request := None);
    assert events + [] == events;
    GoOn(cfg, o, run, n, Compact, bare, live, events, 2, RunCompact(bare, live, Unneeded), PrepareRequest);
    GoOn(cfg, o, run, n + 2, PrepareRequest, bare, live, events, 3, RunPrepareRequest(bare, live, Ok(request)),
         BeforeHook);
    GoOn(cfg, o, run, n + 4, BeforeHook, ctx, live, events, 4, RunBeforeHook(ctx, live, Ok(request)), ProviderStream);
  }

  // ---------------------------------------------------------------- tools

  lemma SortOne(e: Tools.Execution)
    ensures Tools.SortByIndex([e]) == [e]
  {
    assert Tools.SortByIndex([]) == [] && [e][1..] == [];
  }

  lemma ExecuteOneMore(batch: Tools.Batch, calls: seq<Tools.Request>, k: nat)
    requires 0 < k <= |calls|
    ensures var e := Tools.Execute(batch, calls[k - 1]);
            && Tools.ExecuteAll(batch, calls[..k]) == Tools.ExecuteAll(batch, calls[..k - 1]) + [e]
            && Tools.ResultMessages(Tools.ExecuteAll(batch, calls[..k])) ==
               Tools.ResultMessages(Tools.ExecuteAll(batch, calls[..k - 1])) + Tools.ResultMessages([e])
            && Outcomes(Tools.ExecuteAll(batch, calls[..k])) == Outcomes(Tools.ExecuteAll(batch, calls[..k - 1]))
              + [e.outcome]
  {
  }

  /** What the calls up to number `k` amount to. */
  ghost predicate DoneUpTo(batch: Tools.Batch, calls: seq<Tools.Request>, k: nat, messages: seq<Message>, r: ToolTurn)
    requires k <= |calls|
  {
    && r.messages == messages + Tools.ResultMessages(Tools.ExecuteAll(batch, calls[..k]))
    && r.events == Tools.SequentialEvents(batch, calls[..k])
    && r.outcomes == Outcomes(Tools.ExecuteAll(batch, calls[..k]))
  }

  lemma EventsOneMore(batch: Tools.Batch, calls: seq<Tools.Request>, k: nat)
    requires 0 < k <= |calls|
    ensures var c := calls[k - 1];
            Tools.SequentialEvents(batch, calls[..k]) ==
            Tools.SequentialEvents(batch, calls[..k - 1])
            + [Tools.Start(c)] + Tools.Updates(c, batch.updates(c)) + [Tools.End(Tools.Execute(batch, c))]
  {
    assert calls[..k][..k - 1] == calls[..k - 1];
  }

  lemma OneMoreDone(batch: Tools.Batch, calls: seq<Tools.Request>, k: nat, messages: seq<Message>, before: ToolTurn,
                    e: Tools.Execution)
    requires 0 < k <= |calls| && DoneUpTo(batch, calls, k - 1, messages, before)
    requires e == Tools.Execute(batch, calls[k - 1])
    ensures var c := calls[k - 1];
            DoneUpTo(batch, calls, k, messages,
                     ToolTurn(before.messages + Tools.ResultMessages([e]),
                              before.events + [Tools.Start(c)] + Tools.Updates(c, batch.updates(c)) + [Tools.End(e)],
                              before.outcomes + [e.outcome]))
  {
    EventsOneMore(batch, calls, k);
    ExecuteOneMore(batch, calls, k);
  }

  lemma {:induction false} LegacySequentialIs(batch: Tools.Batch, calls: seq<Tools.Request>, k: nat,
                                              messages: seq<Message>)
    requires k <= |calls|
    ensures DoneUpTo(batch, calls, k, messages, LegacySequential(batch, calls, k, messages))
  {
    if k > 0 {
      LegacySequentialIs(batch, calls, k - 1, messages);
      var e := Tools.Execute(batch, calls[k - 1]);
      SortOne(e);
      OneMoreDone(batch, calls, k, messages, LegacySequential(batch, calls, k - 1, messages), e);
    }
  }

  lemma SameTerminate(executions: seq<Tools.Execution>)
    ensures AllStop(Outcomes(executions)) == AllTerminate(executions)
  {
    var outcomes := Outcomes(executions);
    if AllTerminate(executions) {
      forall x | x in outcomes
        ensures x.terminate
      {
        var i :| 0 <= i < |outcomes| && outcomes[i] == x;
        assert executions[i] in executions;
      }
    } else if executions != [] {
      var e :| e in executions && !e.outcome.terminate;
      var i :| 0 <= i < |executions| && executions[i] == e;
      assert outcomes[i] in outcomes;
    }
  }

  /** Both loops do the same with a batch of tool calls. */
  lemma LegacyToolsAgree(cfg: Config, batch: Tools.Batch, calls: seq<Tools.Request>, messages: seq<Message>,
                         sequential: bool)
    requires forall j, k :: 0 <= j < k < |calls| ==> calls[j].index < calls[k].index
    requires sequential == Tools.UseSequential(cfg.toolMode, calls, cfg.tools)
    ensures var r := LegacyTools(cfg, batch, calls, messages);
            var executions := Tools.BatchExecutions(batch, calls, sequential);
            && r.messages == messages + Tools.ResultMessages(Tools.SortByIndex(executions))
            && r.events == Tools.BatchEvents(batch, calls, sequential)
            && AllStop(r.outcomes) == AllTerminate(executions)
  {
    var executions := Tools.BatchExecutions(batch, calls, sequential);
    Tools.BatchIsCalls(batch, calls, sequential);
    SameTerminate(executions);
    if sequential {
      LegacySequentialIs(batch, calls, |calls|, messages);
      assert calls[..|calls|] == calls;
    }
  }

  // ---------------------------------------------------------------- one round

  /** Writing a context back when nobody enqueued anything. */
  lemma WriteBack(ctx: Context, live: Live)
    ensures ApplyToState(ctx, live.(steering := [], followUp := [])) ==
            live.(messages := ctx.messages, steering := ctx.steering, followUp := ctx.followUp)
  {
    assert ctx.steering + [] == ctx.steering && ctx.followUp + [] == ctx.followUp;
  }

  /** The node that looks at a reply the run goes on from. */
  lemma ReplyTaken(cfg: Config, o: Oracle, run: nat -> World, n: nat, ctx: Context, bare: Live, told: seq<Event>,
                   a: Assistant)
    requires IsTrace(cfg, o, run)
    requires Standing(run(n), Decide, ctx, bare, told, 6)
    requires ctx.assistant == Some(a) && !a.stopReason.Error? && !a.stopReason.Aborted?
    ensures var c := ctx.(messages := ctx.messages + [AssistantMessage(a)]);
            if a.stopReason.ToolUse?
            then Standing(run(n + 2), ExecuteTools, c.(pending := Tools.Extract(a)), bare, told, 7)
            else Standing(run(n + 2), PrepareNext, c, bare, told, 7)
  {
    assert told + [] == told;
    GoOn(cfg, o, run, n, Decide, ctx, bare, told, 6, RunDecide(ctx, bare),
         if a.stopReason.ToolUse? then ExecuteTools else PrepareNext);
  }

  /** The end of a round after a plain reply. */
  lemma AfterReply(cfg: Config, o: Oracle, run: nat -> World, n: nat, ctx: Context, live: Live, told: seq<Event>,
                   a: Assistant)
    requires IsTrace(cfg, o, run)
    requires Standing(run(n), PrepareNext, ctx, live.(steering := [], followUp := []), told, 7)
    requires ctx.assistant == Some(a) && (a.stopReason.Stop? || a.stopReason.Length?)
    ensures var now := live.(messages := ctx.messages, steering := ctx.steering, followUp := ctx.followUp);
            if ctx.followUp == [] && ctx.steering == [] then
              Standstill(run(n + 2), false, now, ctx.turn, told + [AgentDone(a)])
            else
              Standstill(run(n + 2), true,
                         now.(messages := ctx.messages + Drained(ctx.followUp, cfg.followUpMode),
                              followUp := Remaining(ctx.followUp, cfg.followUpMode)), ctx.turn, told)
  {
    var bare := live.(steering := [], followUp := []);
    var s := RunPrepareNext(cfg, ctx, bare, ChoiceFor(o, ctx));
    assert ctx.steering + bare.steering == ctx.steering && ctx.followUp + bare.followUp == ctx.followUp;
    GoOut(cfg, o, run, n, PrepareNext, ctx, bare, told, 7, s);
    WriteBack(s.ctx, live);
    assert told + [] == told;
  }

  /** From the node that looks at the reply to the end of the round, when the model is done. */
  lemma ReplyDone(cfg: Config, o: Oracle, run: nat -> World, n: nat, ctx: Context, live: Live, told: seq<Event>,
                  a: Assistant)
    requires IsTrace(cfg, o, run)
    requires Standing(run(n), Decide, ctx, live.(steering := [], followUp := []), told, 6)
    requires ctx.assistant == Some(a) && (a.stopReason.Stop? || a.stopReason.Length?)
    ensures var r := LegacyReply(cfg, o, live.(messages := ctx.messages, steering := ctx.steering,
                                               followUp := ctx.followUp),
                                 ctx.turn, told, a);
            Standstill(run(n + 4), r.again, r.live, r.turn, r.events)
  {
    ReplyTaken(cfg, o, run, n, ctx, live.(steering := [], followUp := []), told, a);
    AfterReply(cfg, o, run, n + 2, ctx.(messages := ctx.messages + [AssistantMessage(a)]), live, told, a);
  }

  lemma ReplyFailed(cfg: Config, o: Oracle, run: nat -> World, n: nat, ctx: Context, live: Live, told: seq<Event>,
                    a: Assistant)
    requires IsTrace(cfg, o, run)
    requires Standing(run(n), Decide, ctx, live.(steering := [], followUp := []), told, 6)
    requires ctx.assistant == Some(a) && (a.stopReason.Error? || a.stopReason.Aborted?)
    ensures var r := LegacyReply(cfg, o, live.(messages := ctx.messages, steering := ctx.steering,
                                               followUp := ctx.followUp),
                                 ctx.turn, told, a);
            Standstill(run(n + 2), r.again, r.live, r.turn, r.events)
  {
    var bare := live.(steering := [], followUp := []);
    var s := RunDecide(ctx, bare);
    GoOut(cfg, o, run, n, Decide, ctx, bare, told, 6, s);
    WriteBack(s.ctx, live);
  }

  /** The end of a round after tools ran. */
  lemma AfterTools(cfg: Config, o: Oracle, run: nat -> World, n: nat, ctx: Context, live: Live, told: seq<Event>,
                   a: Assistant)
    requires IsTrace(cfg, o, run)
    requires Standing(run(n), PrepareNext, ctx, live.(steering := [], followUp := []), told, 8)
    requires ctx.assistant == Some(a) && a.stopReason.ToolUse?
    ensures Standstill(run(n + 2), !ctx.allTerminate,
                       live.(messages := ctx.messages, steering := ctx.steering, followUp := ctx.followUp),
                       ctx.turn, told + if ctx.allTerminate then [AgentDone(a)] else [])
  {
    var bare := live.(steering := [], followUp := []);
    var s := RunPrepareNext(cfg, ctx, bare, ChoiceFor(o, ctx));
    assert ctx.steering + bare.steering == ctx.steering && ctx.followUp + bare.followUp == ctx.followUp;
    GoOut(cfg, o, run, n, PrepareNext, ctx, bare, told, 8, s);
    WriteBack(s.ctx, live);
  }

  lemma WithoutCalls(cfg: Config, o: Oracle, run: nat -> World, n: nat, ctx: Context, live: Live, told: seq<Event>)
    requires IsTrace(cfg, o, run)
    requires Standing(run(n), ExecuteTools, ctx, live.(steering := [], followUp := []), told, 7)
    requires ctx.pending == []
    ensures Standstill(run(n + 2), true,
                       live.(messages := ctx.messages, steering := ctx.steering,
                             followUp := ctx.followUp), ctx.turn, told)
  {
    var bare := live.(steering := [], followUp := []);
    var s := RunExecuteTools(cfg, ctx, bare, ChoiceFor(o, ctx).batch);
    GoOut(cfg, o, run, n, ExecuteTools, ctx, bare, told, 7, s);
    WriteBack(s.ctx, live);
    assert told + [] == told;
  }

  lemma ReplyWithoutCalls(cfg: Config, o: Oracle, run: nat -> World, n: nat, ctx: Context, live: Live,
                          told: seq<Event>, a: Assistant)
    requires IsTrace(cfg, o, run)
    requires Standing(run(n), Decide, ctx, live.(steering := [], followUp := []), told, 6)
    requires ctx.assistant == Some(a) && a.stopReason.ToolUse? && Tools.Extract(a) == []
    ensures Standstill(run(n + 4), true,
                       live.(messages := ctx.messages + [AssistantMessage(a)], steering := ctx.steering,
                             followUp := ctx.followUp),
                       ctx.turn, told)
  {
    ReplyTaken(cfg, o, run, n, ctx, live.(steering := [], followUp := []), told, a);
    WithoutCalls(cfg, o, run, n + 2, ctx.(messages := ctx.messages + [AssistantMessage(a)], pending := []), live, told);
  }

  /** What running a batch leaves for the end of the round, in terms of the older loop. */
  lemma BatchStep(cfg: Config, ctx: Context, bare: Live, batch: Tools.Batch, a: Assistant, tools: ToolTurn)
    returns (s: Step)
    requires ctx.pending == Tools.Extract(a) != []
    requires tools == LegacyTools(cfg, batch, ctx.pending, ctx.messages)
    ensures s == RunExecuteTools(cfg, ctx, bare, batch)
    ensures s.ctx == ctx.(pending := [], messages := tools.messages, allTerminate := AllStop(tools.outcomes))
    ensures s.live == bare && s.events == ToolEvents(tools.events) && s.result == Ok(Continue)
  {
    s := RunExecuteTools(cfg, ctx, bare, batch);
    LegacyToolsAgree(cfg, batch, ctx.pending, ctx.messages, Tools.UseSequential(cfg.toolMode, ctx.pending, cfg.tools));
  }

  lemma BatchFor(o: Oracle, ctx: Context, a: Assistant)
    requires ctx.assistant == Some(a)
    ensures ChoiceFor(o, ctx).batch == o.batch(ctx.turn, a)
  {
  }

  lemma WithCalls(cfg: Config, o: Oracle, run: nat -> World, n: nat, ctx: Context, bare: Live, told: seq<Event>,
                  a: Assistant, tools: ToolTurn)
    returns (c: Context)
    requires IsTrace(cfg, o, run)
    requires Standing(run(n), ExecuteTools, ctx, bare, told, 7)
    requires ctx.assistant == Some(a) && ctx.pending == Tools.Extract(a) != []
    requires tools == LegacyTools(cfg, o.batch(ctx.turn, a), ctx.pending, ctx.messages)
    ensures Standing(run(n + 2), PrepareNext, c, bare, told + ToolEvents(tools.events), 8)
    ensures c == ctx.(pending := [], messages := tools.messages, allTerminate := AllStop(tools.outcomes))
  {
    var s := BatchStep(cfg, ctx, bare, o.batch(ctx.turn, a), a, tools);
    BatchFor(o, ctx, a);
    NodeIsTools(cfg, ctx, bare, ChoiceFor(o, ctx));
    ToolsGoOn(cfg, o, run, n, ctx, bare, told, s);
    c := s.ctx;
  }

  lemma ToolsGoOn(cfg: Config, o: Oracle, run: nat -> World, n: nat, ctx: Context, bare: Live, told: seq<Event>,
                  s: Step)
    requires IsTrace(cfg, o, run)
    requires Standing(run(n), ExecuteTools, ctx, bare, told, 7)
    requires s == RunNode(cfg, ExecuteTools, ctx, bare, ChoiceFor(o, ctx))
    requires s.live == bare && s.result == Ok(Continue)
    ensures Standing(run(n + 2), PrepareNext, s.ctx, bare, told + s.events, 8)
  {
    GoOn(cfg, o, run, n, ExecuteTools, ctx, bare, told, 7, s, PrepareNext);
  }

  lemma ToolRoundEnds(cfg: Config, o: Oracle, run: nat -> World, n: nat, c: Context, live: Live, told: seq<Event>,
                      a: Assistant, tools: ToolTurn,
                      said: Live)
    requires said == live.(messages := said.messages, steering := c.steering, followUp := c.followUp)
    requires IsTrace(cfg, o, run)
    requires Standing(run(n), PrepareNext, c, live.(steering := [], followUp := []), told + ToolEvents(tools.events), 8)
    requires c.assistant == Some(a) && a.stopReason.ToolUse? && c.messages == tools.messages
    requires c.allTerminate == AllStop(tools.outcomes)
    ensures var r := LegacyAfterTools(said, c.turn, told, a, tools);
            Standstill(run(n + 2), r.again, r.live, r.turn, r.events)
  {
    AfterTools(cfg, o, run, n, c, live, told + ToolEvents(tools.events), a);
    assert told + ToolEvents(tools.events) + [] == told + ToolEvents(tools.events);
  }

  lemma LegacyReplyIs(cfg: Config, o: Oracle, now: Live, turn: nat, told: seq<Event>, a: Assistant)
    requires a.stopReason.ToolUse?
    ensures var said := now.(messages := now.messages + [AssistantMessage(a)]);
            LegacyReply(cfg, o, now, turn, told, a) ==
            if Tools.Extract(a) == [] then Round(said, turn, told, true)
            else LegacyAfterTools(said, turn, told, a,
                                  LegacyTools(cfg, o.batch(turn, a), Tools.Extract(a), said.messages))
  {
  }

  /** A reply with calls: through the batch to the end of the round. */
  lemma ReplyWithCalls(cfg: Config, o: Oracle, run: nat -> World, n: nat, ctx: Context, live: Live, told: seq<Event>,
                       a: Assistant)
    returns (c: Context, tools: ToolTurn)
    requires IsTrace(cfg, o, run)
    requires Standing(run(n), Decide, ctx, live.(steering := [], followUp := []), told, 6)
    requires ctx.assistant == Some(a) && a.stopReason.ToolUse? && Tools.Extract(a) != []
    ensures tools == LegacyTools(cfg, o.batch(ctx.turn, a), Tools.Extract(a), ctx.messages + [AssistantMessage(a)])
    ensures Standing(run(n + 4), PrepareNext, c, live.(steering := [], followUp := []),
                     told + ToolEvents(tools.events), 8)
    ensures c == ctx.(pending := [], messages := tools.messages, allTerminate := c.allTerminate)
    ensures c.allTerminate == AllStop(tools.outcomes)
  {
    var bare := live.(steering := [], followUp := []);
    ReplyTaken(cfg, o, run, n, ctx, bare, told, a);
    var taken := ctx.(messages := ctx.messages + [AssistantMessage(a)], pending := Tools.Extract(a));
    tools := LegacyTools(cfg, o.batch(ctx.turn, a), Tools.Extract(a), taken.messages);
    c := WithCalls(cfg, o, run, n + 2, taken, bare, told, a, tools);
  }

  /** From the reply to the end of the round: the machine does what the older loop does. */
  lemma ReplyMatches(cfg: Config, o: Oracle, run: nat -> World, n: nat, ctx: Context, live: Live, told: seq<Event>,
                     a: Assistant, r: Round)
    returns (m: nat)
    requires IsTrace(cfg, o, run)
    requires Standing(run(n), Decide, ctx, live.(steering := [], followUp := []), told, 6)
    requires ctx.assistant == Some(a)
    requires r == LegacyReply(cfg, o, live.(messages := ctx.messages, steering := ctx.steering,
                                            followUp := ctx.followUp),
                              ctx.turn, told, a)
    ensures n < m && Standstill(run(m), r.again, r.live, r.turn, r.events)
  {
    match a.stopReason
    case Error => ReplyFailed(cfg, o, run, n, ctx, live, told, a); m := n + 2;
    case Aborted => ReplyFailed(cfg, o, run, n, ctx, live, told, a); m := n + 2;
    case ToolUse => m := ToolReplyMatches(cfg, o, run, n, ctx, live, told, a, r);
    case _ => ReplyDone(cfg, o, run, n, ctx, live, told, a); m := n + 4;
  }

  lemma ToolReplyMatches(cfg: Config, o: Oracle, run: nat -> World, n: nat, ctx: Context, live: Live, told: seq<Event>,
                         a: Assistant, r: Round)
    returns (m: nat)
    requires IsTrace(cfg, o, run)
    requires Standing(run(n), Decide, ctx, live.(steering := [], followUp := []), told, 6)
    requires ctx.assistant == Some(a) && a.stopReason.ToolUse?
    requires r == LegacyReply(cfg, o, live.(messages := ctx.messages, steering := ctx.steering,
                                            followUp := ctx.followUp),
                              ctx.turn, told, a)
    ensures n < m && Standstill(run(m), r.again, r.live, r.turn, r.events)
  {
    var now := live.(messages := ctx.messages, steering := ctx.steering, followUp := ctx.followUp);
    LegacyReplyIs(cfg, o, now, ctx.turn, told, a);
    if Tools.Extract(a) == [] {
      ReplyWithoutCalls(cfg, o, run, n, ctx, live, told, a);
      m := n + 4;
    } else {
      CallReplyMatches(cfg, o, run, n, ctx, live, told, a, now.(messages := now.messages + [AssistantMessage(a)]));
      m := n + 6;
    }
  }

  lemma CallReplyMatches(cfg: Config, o: Oracle, run: nat -> World, n: nat, ctx: Context, live: Live, told: seq<Event>,
                         a: Assistant, said: Live)
    requires IsTrace(cfg, o, run)
    requires Standing(run(n), Decide, ctx, live.(steering := [], followUp := []), told, 6)
    requires ctx.assistant == Some(a) && a.stopReason.ToolUse? && Tools.Extract(a) != []
    requires said == live.(messages := ctx.messages + [AssistantMessage(a)], steering := ctx.steering,
                           followUp := ctx.followUp)
    ensures var r := LegacyAfterTools(said, ctx.turn, told, a,
                                      LegacyTools(cfg, o.batch(ctx.turn, a), Tools.Extract(a), said.messages));
            Standstill(run(n + 6), r.again, r.live, r.turn, r.events)
  {
    var c, tools := ReplyWithCalls(cfg, o, run, n, ctx, live, told, a);
    ToolRoundEnds(cfg, o, run, n + 4, c, live, told, a, tools, said);
  }

  lemma LimitReached(cfg: Config, o: Oracle, run: nat -> World, n: nat, w: World)
    requires IsTrace(cfg, o, run) && w == run(n) && w.phase.Top? && !w.live.cancelled
    requires cfg.maxTurns.Some? && w.turn + 1 > cfg.maxTurns.value
    ensures Standstill(run(n + 3), false, w.live, w.turn + 1, w.events + [AgentError(MaxTurns(cfg.maxTurns.value))])
  {
    var live := w.live.(steering := [], followUp := []);
    var c := FromLive(w.live, w.turn);
    assert Tick(n);
    assert Standing(run(n + 1), StartTurn, c, live, w.events, 0);
    var s := RunStartTurn(cfg, c, live);
    GoOut(cfg, o, run, n + 1, StartTurn, c, live, w.events, 0, s);
    WriteBack(s.ctx, w.live);
  }

  /** How the provider node fails. */
  function Failing(read: seq<LlmEvent>): Failure
  {
    if read != [] && read[|read| - 1].LlmError? then ModelFailed(read[|read| - 1].message.errorMessage) else StreamEnded
  }

  /** What the provider node does: the stream is passed on, and either a reply is there or the round fails. */
  lemma ProviderNode(cfg: Config, o: Oracle, ctx: Context, bare: Live, read: seq<LlmEvent>)
    requires ctx.request.Some? && read == UntilTerminal(o.stream(ctx.turn, ctx.request.value))
    ensures RunNode(cfg, ProviderStream, ctx, bare, ChoiceFor(o, ctx)) ==
            if read != [] && read[|read| - 1].Done?
            then Quiet(ctx.(assistant := Some(read[|read| - 1].message)), bare, Wrapped(read), Default)
            else Quiet(ctx, bare, Wrapped(read) + [AgentError(Failing(read))], Fail)
  {
  }

  lemma StreamAnswers(cfg: Config, o: Oracle, run: nat -> World, n: nat, ctx: Context, bare: Live, told: seq<Event>,
                      read: seq<LlmEvent>)
    requires IsTrace(cfg, o, run)
    requires Standing(run(n), ProviderStream, ctx, bare, told, 5)
    requires ctx.request.Some? && read == UntilTerminal(o.stream(ctx.turn, ctx.request.value))
    requires read != [] && read[|read| - 1].Done?
    ensures Standing(run(n + 2), Decide, ctx.(assistant := Some(read[|read| - 1].message)), bare, told + Wrapped(read),
                     6)
  {
    ProviderNode(cfg, o, ctx, bare, read);
    var s := RunNode(cfg, ProviderStream, ctx, bare, ChoiceFor(o, ctx));
    GoOn(cfg, o, run, n, ProviderStream, ctx, bare, told, 5, s, Decide);
  }

  lemma StreamFails(cfg: Config, o: Oracle, run: nat -> World, n: nat, ctx: Context, live: Live, told: seq<Event>,
                    read: seq<LlmEvent>)
    requires IsTrace(cfg, o, run)
    requires Standing(run(n), ProviderStream, ctx, live.(steering := [], followUp := []), told, 5)
    requires ctx.request.Some? && read == UntilTerminal(o.stream(ctx.turn, ctx.request.value))
    requires !(read != [] && read[|read| - 1].Done?)
    ensures Standstill(run(n + 2), false, live.(messages := ctx.messages, steering := ctx.steering,
                                                followUp := ctx.followUp),
                       ctx.turn, told + (Wrapped(read) + [AgentError(Failing(read))]))
  {
    var bare := live.(steering := [], followUp := []);
    ProviderNode(cfg, o, ctx, bare, read);
    var s := RunNode(cfg, ProviderStream, ctx, bare, ChoiceFor(o, ctx));
    GoOut(cfg, o, run, n, ProviderStream, ctx, bare, told, 5, s);
    WriteBack(ctx, live);
  }

  /** What a round of the older loop does, seen from where the provider is asked. */
  lemma LegacyRoundIs(cfg: Config, o: Oracle, live: Live, before: nat, ctx: Context, read: seq<LlmEvent>)
    requires !(cfg.maxTurns.Some? && before + 1 > cfg.maxTurns.value) && ctx == Asking(cfg, o, live, before + 1)
    requires read == UntilTerminal(o.stream(ctx.turn, ctx.request.value))
    ensures var now := live.(messages := ctx.messages, steering := ctx.steering, followUp := ctx.followUp);
            var told := [TurnStart(ctx.turn), BeforeRequest(ctx.request.value)] + Wrapped(read);
            LegacyRound(cfg, o, live, before) == LegacyAnswer(cfg, o, now, ctx.turn, told, read)
  {
    var steered := live.(messages := live.messages + Drained(live.steering, cfg.steeringMode),
                         steering := Remaining(live.steering, cfg.steeringMode));
    assert steered == live.(messages := ctx.messages, steering := ctx.steering, followUp := ctx.followUp);
  }

  lemma AfterToolsTold(said: Live, turn: nat, earlier: seq<Event>, told: seq<Event>, a: Assistant, tools: ToolTurn)
    ensures var r := LegacyAfterTools(said, turn, told, a, tools);
            LegacyAfterTools(said, turn, earlier + told, a, tools) == r.(events := earlier + r.events)
  {
    var t := ToolEvents(tools.events);
    assert earlier + told + t == earlier + (told + t);
    assert earlier + (told + t) + [AgentDone(a)] == earlier + (told + t + [AgentDone(a)]);
  }

  /** Events told before a round come before what the round tells. */
  lemma LegacyReplyTold(cfg: Config, o: Oracle, now: Live, turn: nat, earlier: seq<Event>, told: seq<Event>,
                        a: Assistant)
    ensures var r := LegacyReply(cfg, o, now, turn, told, a);
            LegacyReply(cfg, o, now, turn, earlier + told, a) == r.(events := earlier + r.events)
  {
    if a.stopReason.ToolUse? {
      LegacyReplyIs(cfg, o, now, turn, told, a);
      LegacyReplyIs(cfg, o, now, turn, earlier + told, a);
      var said := now.(messages := now.messages + [AssistantMessage(a)]);
      AfterToolsTold(said, turn, earlier, told, a, LegacyTools(cfg, o.batch(turn, a), Tools.Extract(a), said.messages));
    } else {
      PlainReplyTold(cfg, o, now, turn, earlier, told, a);
    }
  }

  lemma PlainReplyTold(cfg: Config, o: Oracle, now: Live, turn: nat, earlier: seq<Event>, told: seq<Event>,
                       a: Assistant)
    requires !a.stopReason.ToolUse?
    ensures var r := LegacyReply(cfg, o, now, turn, told, a);
            LegacyReply(cfg, o, now, turn, earlier + told, a) == r.(events := earlier + r.events)
  {
    var r, r' := LegacyReply(cfg, o, now, turn, told, a), LegacyReply(cfg, o, now, turn, earlier + told, a);
    assert r'.events == earlier + r.events;
  }

  lemma Grouped(a: seq<Event>, b: seq<Event>, c: seq<Event>)
    ensures a + b + c == a + (b + c)
  {
  }

  /** A round whose stream brings a reply. */
  lemma AnsweredRound(cfg: Config, o: Oracle, run: nat -> World, n: nat, now: Live, ctx: Context, live: Live,
                      earlier: seq<Event>,
                      told: seq<Event>, a: Assistant) returns (m: nat)
    requires IsTrace(cfg, o, run)
    requires Standing(run(n), Decide, ctx, live.(steering := [], followUp := []), earlier + told, 6)
    requires ctx.assistant == Some(a)
    requires now == live.(messages := ctx.messages, steering := ctx.steering, followUp := ctx.followUp)
    ensures var r := LegacyReply(cfg, o, now, ctx.turn, told, a);
            n < m && Standstill(run(m), r.again, r.live, r.turn, earlier + r.events)
  {
    var r := LegacyReply(cfg, o, now, ctx.turn, told, a);
    LegacyReplyTold(cfg, o, now, ctx.turn, earlier, told, a);
    m := ReplyMatches(cfg, o, run, n, ctx, live, earlier + told, a, r.(events := earlier + r.events));
  }

  lemma AskedRoundMatches(cfg: Config, o: Oracle, run: nat -> World, n: nat, w: World, r: Round, ctx: Context,
                          read: seq<LlmEvent>)
    returns (m: nat)
    requires IsTrace(cfg, o, run) && w == run(n) && w.phase.Top? && !w.live.cancelled
    requires !(cfg.maxTurns.Some? && w.turn + 1 > cfg.maxTurns.value) && ctx == Asking(cfg, o, w.live, w.turn + 1)
    requires read == UntilTerminal(o.stream(ctx.turn, ctx.request.value)) && r == LegacyRound(cfg, o, w.live, w.turn)
    ensures n < m && Standstill(run(m), r.again, r.live, r.turn, w.events + r.events)
  {
    var head := [TurnStart(ctx.turn), BeforeRequest(ctx.request.value)];
    var now := w.live.(messages := ctx.messages, steering := ctx.steering, followUp := ctx.followUp);
    ReachProvider(cfg, o, run, n, w);
    LegacyRoundIs(cfg, o, w.live, w.turn, ctx, read);
    m := AskedMatches(cfg, o, run, n + 11, w.live, ctx, now, w.events, head, read, r);
  }

  lemma AskedMatches(cfg: Config, o: Oracle, run: nat -> World, n: nat, live: Live, ctx: Context, now: Live,
                     earlier: seq<Event>,
                     head: seq<Event>, read: seq<LlmEvent>, r: Round) returns (m: nat)
    requires IsTrace(cfg, o, run)
    requires Standing(run(n), ProviderStream, ctx, live.(steering := [], followUp := []), earlier + head, 5)
    requires ctx.request.Some? && read == UntilTerminal(o.stream(ctx.turn, ctx.request.value))
    requires now == live.(messages := ctx.messages, steering := ctx.steering, followUp := ctx.followUp)
    requires r == if read != [] && read[|read| - 1].Done?
                  then LegacyReply(cfg, o, now, ctx.turn, head + Wrapped(read), read[|read| - 1].message)
                  else Round(now, ctx.turn, head + Wrapped(read) + [AgentError(Failing(read))], false)
    ensures n < m && Standstill(run(m), r.again, r.live, r.turn, earlier + r.events)
  {
    if read != [] && read[|read| - 1].Done? {
      var a := read[|read| - 1].message;
      StreamAnswers(cfg, o, run, n, ctx, live.(steering := [], followUp := []), earlier + head, read);
      Grouped(earlier, head, Wrapped(read));
      m := AnsweredRound(cfg, o, run, n + 2, now, ctx.(assistant := Some(a)), live, earlier, head + Wrapped(read), a);
    } else {
      StreamFails(cfg, o, run, n, ctx, live, earlier + head, read);
      m := n + 2;
      Grouped(head, Wrapped(read), [AgentError(Failing(read))]);
      Grouped(earlier, head, Wrapped(read) + [AgentError(Failing(read))]);
    }
  }

  /** One round: the flow runtime reaches its next standstill with the state, the turn and the events of the older
      loop. */
  lemma RoundMatches(cfg: Config, o: Oracle, run: nat -> World, n: nat, w: World, r: Round) returns (m: nat)
    requires IsTrace(cfg, o, run) && w == run(n) && w.phase.Top? && !w.live.cancelled
    requires r == LegacyRound(cfg, o, w.live, w.turn)
    ensures n < m && Standstill(run(m), r.again, r.live, r.turn, w.events + r.events)
  {
    if cfg.maxTurns.Some? && w.turn + 1 > cfg.maxTurns.value {
      LimitReached(cfg, o, run, n, w);
      m := n + 3;
    } else {
      var ctx := Asking(cfg, o, w.live, w.turn + 1);
      m := AskedRoundMatches(cfg, o, run, n, w, r, ctx, UntilTerminal(o.stream(ctx.turn, ctx.request.value)));
    }
  }

  /** Any number of rounds: in every trace of the flow runtime on its own there is a moment at which it stands still
      with the same messages and queues, the same turn and the same events as the older loop after those rounds, and it
      goes on exactly when the older loop does. */
  lemma {:induction false} FlowMatchesLegacy(cfg: Config, o: Oracle, live: Live, run: nat -> World, rounds: nat)
    returns (n: nat)
    requires IsTrace(cfg, o, run) && run(0) == Begin(live) && !live.cancelled
    ensures var r := LegacyLoop(cfg, o, live, rounds);
            && Standstill(run(n), r.again, r.live, r.turn, r.events) && !r.live.cancelled
            && (r.again ==> n >= rounds)
  {
    n := 0;
    if rounds > 0 {
      n := FlowMatchesLegacy(cfg, o, live, run, rounds - 1);
      n := OneMoreRound(cfg, o, live, run, rounds, n, LegacyLoop(cfg, o, live, rounds - 1));
    }
  }

  lemma OneMoreRound(cfg: Config, o: Oracle, live: Live, run: nat -> World, rounds: nat, n: nat, before: Round)
    returns (m: nat)
    requires IsTrace(cfg, o, run) && rounds > 0
    requires before == LegacyLoop(cfg, o, live, rounds - 1)
    requires Standstill(run(n), before.again, before.live, before.turn, before.events) && !before.live.cancelled
    requires before.again ==> n >= rounds - 1
    ensures var r := LegacyLoop(cfg, o, live, rounds);
            && Standstill(run(m), r.again, r.live, r.turn, r.events) && !r.live.cancelled
            && (r.again ==> m >= rounds)
  {
    m := n;
    if before.again {
      m := RoundMatches(cfg, o, run, n, run(n), LegacyRound(cfg, o, before.live, before.turn));
      RoundKeepsToken(cfg, o, before.live, before.turn);
    }
  }

  lemma {:induction false} HaltStays(cfg: Config, o: Oracle, run: nat -> World, n: nat, m: nat)
    requires IsTrace(cfg, o, run) && run(n).phase.Halted? && n <= m
    ensures run(m) == run(n)
  {
    if n < m {
      HaltStays(cfg, o, run, n, m - 1);
      assert Tick(m - 1);
    }
  }

  /** A run that comes to its end ends as the older loop ends: the same messages and queues, the same turn and the same
      events, and the older loop gets there in at most as many rounds as the run took steps. */
  lemma FinalStateIsLegacys(cfg: Config, o: Oracle, live: Live, run: nat -> World, end: nat)
    requires IsTrace(cfg, o, run) && run(0) == Begin(live) && !live.cancelled && run(end).phase.Halted?
    ensures var r := LegacyLoop(cfg, o, live, end + 1);
            !r.again && run(end).live == r.live && run(end).turn == r.turn && run(end).events == r.events
  {
    var n := FlowMatchesLegacy(cfg, o, live, run, end + 1);
    if end <= n { HaltStays(cfg, o, run, end, n); } else { HaltStays(cfg, o, run, n, end); }
  }

  lemma RoundKeepsToken(cfg: Config, o: Oracle, live: Live, turn: nat)
    ensures LegacyRound(cfg, o, live, turn).live.cancelled == live.cancelled
  {
  }

  /** Such a trace exists. */
  function TraceFrom(cfg: Config, o: Oracle, w: World, n: nat): World
  {
    if n == 0 then w else
      var v := TraceFrom(cfg, o, w, n - 1);
      RuntimeStep(cfg, v, ChoiceFor(o, v.ctx))
  }

  lemma TraceExists(cfg: Config, o: Oracle, w: World)
    ensures var run := (n: nat) => TraceFrom(cfg, o, w, n); IsTrace(cfg, o, run) && run(0) == w
  {
  }
}
