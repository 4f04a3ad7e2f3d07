/** What every run of the agent keeps, whatever the providers, tools and hooks answer, and whenever other
tasks enqueue messages or cancel. */
module AgentProofs {
  import opened Basics
  import opened Messages
  import Tools
  import opened AgentTurn

  // ---------------------------------------------------------------- events

  /** A reader of the event stream: the number of the last turn, whether that turn has sent its request, and
      whether the run is over. */
  datatype Trace = Broken | Trace(turns: nat, requested: bool, over: bool)

  predicate Final(e: Event) { e.AgentDone? || e.AgentError? }

  function Read(t: Trace, e: Event): Trace
  {
    if t.Broken? || t.over then Broken
    else match e
      case TurnStart(turn) => if turn == t.turns + 1 then Trace(turn, false, false) else Broken
      case BeforeRequest(_) => if t.requested || t.turns == 0 then Broken else t.(requested := true)
      case AgentDone(_) => t.(over := true)
      case AgentError(_) => t.(over := true)
      case _ => t
  }

  function ReadAll(t: Trace, events: seq<Event>): Trace
  {
    if events == [] then t else Read(ReadAll(t, events[..|events| - 1]), events[|events| - 1])
  }

  const FRESH := Trace(0, false, false)

  lemma {:induction false} ReadConcat(t: Trace, a: seq<Event>, b: seq<Event>)
    ensures ReadAll(t, a + b) == ReadAll(ReadAll(t, a), b)
    decreases |b|
  {
    if b == [] {
      assert a + b == a;
    } else {
      var n := |b| - 1;
      assert (a + b)[..|a| + n] == a + b[..n];
      ReadConcat(t, a, b[..n]);
    }
  }

  /** Events that no turn, request or end is among. */
  predicate Neutral(events: seq<Event>)
  {
    forall i :: 0 <= i < |events| ==> !Final(events[i]) && !events[i].TurnStart? && !events[i].BeforeRequest?
  }

  lemma {:induction false} ReadNeutral(t: Trace, events: seq<Event>)
    requires t.Trace? && !t.over && Neutral(events)
    ensures ReadAll(t, events) == t
  {
    if events != [] {
      ReadNeutral(t, events[..|events| - 1]);
    }
  }

  lemma ReadOne(t: Trace, e: Event)
    ensures ReadAll(t, [e]) == Read(t, e)
  {
    assert ReadAll(t, []) == t;
  }

  lemma ReadNeutralThen(t: Trace, events: seq<Event>, e: Event)
    requires t.Trace? && !t.over && Neutral(events)
    ensures ReadAll(t, events + [e]) == Read(t, e)
  {
    ReadConcat(t, events, [e]);
    ReadNeutral(t, events);
    ReadOne(t, e);
  }

  // ---------------------------------------------------------------- what was delivered

  /** The messages that a run appended, of one origin, in order. */
  function Delivered(log: seq<Entry>, origin: Origin): (r: seq<Message>)
  {
    if log == [] then [] else
      var n := |log| - 1;
      Delivered(log[..n], origin) + if log[n].origin == origin then [log[n].message] else []
  }

  function Payload(log: seq<Entry>): (r: seq<Message>)
    ensures |r| == |log| && forall i :: 0 <= i < |r| ==> r[i] == log[i].message
  {
    seq(|log|, i requires 0 <= i < |log| => log[i].message)
  }

  lemma {:induction false} DeliveredConcat(a: seq<Entry>, b: seq<Entry>, origin: Origin)
    ensures Delivered(a + b, origin) == Delivered(a, origin) + Delivered(b, origin)
    decreases |b|
  {
    if b == [] {
      assert a + b == a;
    } else {
      var n := |b| - 1;
      assert (a + b)[..|a| + n] == a + b[..n];
      DeliveredConcat(a, b[..n], origin);
    }
  }

  lemma {:induction false} DeliveredEntries(from: Origin, messages: seq<Message>, origin: Origin)
    ensures Delivered(Entries(from, messages), origin) == if from == origin then messages else []
  {
    if messages != [] {
      var n := |messages| - 1;
      assert Entries(from, messages)[..n] == Entries(from, messages[..n]);
      DeliveredEntries(from, messages[..n], origin);
    }
  }

  // ---------------------------------------------------------------- tool calls and their results

  /** One result per tool call of the message, with its id and name, in content order. */
  ghost predicate Answers(a: Assistant, results: seq<Message>)
  {
    var calls := Tools.Extract(a);
    && |results| == |calls|
    && forall i :: 0 <= i < |calls| ==>
         results[i].ToolResult? && results[i].callId == calls[i].id && results[i].toolName == calls[i].name
  }

  /** Each message that asks for tools is followed at once by the results of exactly its calls, and there are no
      other results. */
  ghost predicate Paired(messages: seq<Message>)
    decreases |messages|
  {
    messages == [] ||
    match messages[0]
    case ToolResult(_, _, _, _, _) => false
    case FromAssistant(_, a) =>
      if a.stopReason.ToolUse? then
        var k := |Tools.Extract(a)|;
        1 + k <= |messages| && Answers(a, messages[1..1 + k]) && Paired(messages[1 + k..])
      else Paired(messages[1..])
    case _ => Paired(messages[1..])
  }

  lemma {:induction false} PairedConcat(a: seq<Message>, b: seq<Message>)
    requires Paired(a) && Paired(b)
    ensures Paired(a + b)
    decreases |a|
  {
    if a == [] {
      assert a + b == b;
    } else {
      var k := if a[0].FromAssistant? && a[0].assistant.stopReason.ToolUse?
               then 1 + |Tools.Extract(a[0].assistant)| else 1;
      assert (a + b)[k..] == a[k..] + b;
      assert (a + b)[1..k] == a[1..k];
      PairedConcat(a[k..], b);
    }
  }

  predicate AllUser(messages: seq<Message>)
  {
    forall i :: 0 <= i < |messages| ==> messages[i].UserText?
  }

  lemma {:induction false} UserPaired(messages: seq<Message>)
    requires AllUser(messages)
    ensures Paired(messages)
  {
    if messages != [] {
      UserPaired(messages[1..]);
    }
  }

  // ---------------------------------------------------------------- the invariant

  predicate InFlow(w: World) { w.phase.Checking? || w.phase.Running? }

  function Rank(node: NodeName): nat
  {
    match node
    case StartTurn => 0
    case DrainInput => 1
    case Compact => 2
    case PrepareRequest => 3
    case BeforeHook => 4
    case ProviderStream => 5
    case Decide => 6
    case ExecuteTools => 7
    case PrepareNext => 8
  }

  /** Nothing that was enqueued is lost, doubled or reordered: what was delivered, what the context holds and
      what is still in the shared queue make up everything enqueued. */
  ghost predicate QueuesConserved(w: World)
  {
    var held := if InFlow(w) then w.ctx else w.ctx.(steering := [], followUp := []);
    && Delivered(w.log, Steering) + held.steering + w.live.steering == w.enqueuedSteering
    && Delivered(w.log, FollowUp) + held.followUp + w.live.followUp == w.enqueuedFollowUp
  }

  /** Unless a hook or compaction replaced them, the messages are those of the start and the log. */
  ghost predicate MessagesLogged(w: World)
  {
    w.pristine ==> (if InFlow(w) then w.ctx.messages else w.live.messages) == w.base + Payload(w.log)
  }

  ghost predicate TraceSound(cfg: Config, w: World)
  {
    var t := ReadAll(FRESH, w.events);
    && t.Trace?
    && (t.over <==> w.phase.Halted?)
    && (cfg.maxTurns.Some? ==> t.turns <= cfg.maxTurns.value)
    && (w.phase.Top? ==> t.turns == w.turn)
    && (InFlow(w) ==>
          && t.turns == w.ctx.turn
          && (w.phase.node.StartTurn? || (0 < t.turns && (t.requested ==> Rank(w.phase.node) > Rank(BeforeHook)))))
  }

  /** What a node finds in the context. */
  ghost predicate Equipped(node: NodeName, ctx: Context)
  {
    && (Rank(node) >= Rank(BeforeHook) ==> ctx.request.Some?)
    && (Rank(node) >= Rank(Decide) ==> ctx.assistant.Some?)
    && (node.ExecuteTools? ==>
          ctx.assistant.value.stopReason.ToolUse? && ctx.pending == Tools.Extract(ctx.assistant.value))
    && (node.PrepareNext? ==>
          !ctx.assistant.value.stopReason.Error? && !ctx.assistant.value.stopReason.Aborted?)
  }

  ghost predicate AtNode(w: World)
  {
    InFlow(w) ==> w.steps <= Rank(w.phase.node) && Equipped(w.phase.node, w.ctx)
  }

  /** Everything is answered but the message at the end. */
  ghost predicate Asking(sent: seq<Message>, a: Assistant)
  {
    sent != [] && Paired(sent[..|sent| - 1]) && sent[|sent| - 1] == AssistantMessage(a)
  }

  /** Everything is answered, except perhaps the message at the end. */
  ghost predicate CutOff(sent: seq<Message>)
  {
    Paired(sent) || (sent != [] && Paired(sent[..|sent| - 1]))
  }

  /** Tool calls are answered everywhere except between the node that decides to run tools and the node that
      runs them, or where a run was cut off there. */
  ghost predicate CallsAnswered(w: World)
  {
    var sent := Payload(w.log);
    if InFlow(w) && w.phase.node.ExecuteTools? then
      w.ctx.assistant.Some? && Asking(sent, w.ctx.assistant.value)
    else if w.phase.Halted? then CutOff(sent)
    else Paired(sent)
  }

  ghost predicate QueuesUser(w: World)
  {
    && AllUser(w.live.steering) && AllUser(w.live.followUp)
    && (InFlow(w) ==> AllUser(w.ctx.steering) && AllUser(w.ctx.followUp))
  }

  /** What holds whatever is queued. */
  ghost predicate Core(cfg: Config, w: World)
  {
    QueuesConserved(w) && MessagesLogged(w) && TraceSound(cfg, w) && AtNode(w)
  }

  /** What holds when only user messages are queued. */
  ghost predicate Inv(cfg: Config, w: World)
  {
    Core(cfg, w) && QueuesUser(w) && CallsAnswered(w)
  }

  // ---------------------------------------------------------------- what one node keeps

  lemma DrainSplits(queue: seq<Message>, mode: QueueMode)
    ensures Drained(queue, mode) + Remaining(queue, mode) + [] == queue
    ensures [] + queue + [] == queue
  {
  }

  /** What a node delivers from a queue is what it takes out at its front. */
  ghost predicate ConservesQueues(s: Step, ctx: Context, live: Live)
  {
    && Delivered(s.appended, Steering) + s.ctx.steering + s.live.steering == ctx.steering + live.steering
    && Delivered(s.appended, FollowUp) + s.ctx.followUp + s.live.followUp == ctx.followUp + live.followUp
  }

  lemma SyncConserves(ctx: Context, live: Live, s: Step)
    requires s.appended == [] && s.ctx.steering == ctx.steering + live.steering
    requires s.ctx.followUp == ctx.followUp + live.followUp && s.live.steering == [] && s.live.followUp == []
    ensures ConservesQueues(s, ctx, live)
  {
    DrainSplits(ctx.steering + live.steering, All);
    DrainSplits(ctx.followUp + live.followUp, All);
  }

  lemma UntouchedConserves(ctx: Context, live: Live, s: Step)
    requires Delivered(s.appended, Steering) == [] && Delivered(s.appended, FollowUp) == []
    requires s.ctx.steering == ctx.steering && s.ctx.followUp == ctx.followUp
    requires s.live.steering == live.steering && s.live.followUp == live.followUp
    ensures ConservesQueues(s, ctx, live)
  {
    assert [] + ctx.steering == ctx.steering && [] + ctx.followUp == ctx.followUp;
  }

  lemma DrainConserves(cfg: Config, ctx: Context, live: Live)
    ensures ConservesQueues(RunDrainInput(cfg, ctx, live), ctx, live)
  {
    var queue := ctx.steering + live.steering;
    DrainSplits(queue, cfg.steeringMode);
    DrainSplits(ctx.followUp + live.followUp, All);
    DeliveredEntries(Steering, Drained(queue, cfg.steeringMode), Steering);
    DeliveredEntries(Steering, Drained(queue, cfg.steeringMode), FollowUp);
  }

  lemma ToolsConserve(cfg: Config, ctx: Context, live: Live, batch: Tools.Batch)
    ensures ConservesQueues(RunExecuteTools(cfg, ctx, live, batch), ctx, live)
  {
    var s := RunExecuteTools(cfg, ctx, live, batch);
    if ctx.pending != [] {
      var sequential := Tools.UseSequential(cfg.toolMode, ctx.pending, cfg.tools);
      var results := Tools.ResultMessages(Tools.SortByIndex(Tools.BatchExecutions(batch, ctx.pending, sequential)));
      DeliveredEntries(ToolRun, results, Steering);
      DeliveredEntries(ToolRun, results, FollowUp);
    }
    UntouchedConserves(ctx, live, s);
  }

  lemma FollowUpsConserve(ctx: Context, live: Live, s: Step, mode: QueueMode)
    requires s.ctx.steering == ctx.steering + live.steering && s.live.steering == [] && s.live.followUp == []
    requires s.appended == Entries(FollowUp, Drained(ctx.followUp + live.followUp, mode))
    requires s.ctx.followUp == Remaining(ctx.followUp + live.followUp, mode)
    ensures ConservesQueues(s, ctx, live)
  {
    var queue := ctx.followUp + live.followUp;
    DrainSplits(queue, mode);
    DrainSplits(ctx.steering + live.steering, mode);
    DeliveredEntries(FollowUp, Drained(queue, mode), Steering);
    DeliveredEntries(FollowUp, Drained(queue, mode), FollowUp);
  }

  /** What the end of a turn leaves for steering. */
  lemma NextTurnSteering(cfg: Config, ctx: Context, live: Live, choice: Choice)
    requires ctx.assistant.Some?
    ensures var s := RunPrepareNext(cfg, ctx, live, choice);
            s.ctx.steering == ctx.steering + live.steering && s.live.steering == [] && s.live.followUp == []
  {
  }

  /** What the end of a turn delivers of the follow-ups `f`. */
  lemma NextTurnFollowUps(cfg: Config, ctx: Context, live: Live, choice: Choice, f: seq<Message>)
    requires ctx.assistant.Some? && f == ctx.followUp + live.followUp
    ensures var s := RunPrepareNext(cfg, ctx, live, choice);
            || (s.appended == [] && s.ctx.followUp == f)
            || (&& s.appended == Entries(FollowUp, Drained(f, cfg.followUpMode))
                && s.ctx.followUp == Remaining(f, cfg.followUpMode))
  {
  }

  lemma NextTurnConserves(cfg: Config, ctx: Context, live: Live, choice: Choice)
    ensures ConservesQueues(RunPrepareNext(cfg, ctx, live, choice), ctx, live)
  {
    if ctx.assistant.None? {
      UntouchedConserves(ctx, live, RunPrepareNext(cfg, ctx, live, choice));
    } else {
      NextTurnSteering(cfg, ctx, live, choice);
      NextTurnFollowUps(cfg, ctx, live, choice, ctx.followUp + live.followUp);
      NextTurnStepConserves(ctx, live, RunPrepareNext(cfg, ctx, live, choice), cfg.followUpMode);
    }
  }

  lemma NextTurnStepConserves(ctx: Context, live: Live, s: Step, mode: QueueMode)
    requires s.ctx.steering == ctx.steering + live.steering && s.live.steering == [] && s.live.followUp == []
    requires var f := ctx.followUp + live.followUp;
             || (s.appended == [] && s.ctx.followUp == f)
             || (s.appended == Entries(FollowUp, Drained(f, mode)) && s.ctx.followUp == Remaining(f, mode))
    ensures ConservesQueues(s, ctx, live)
  {
    if s.appended == [] && s.ctx.followUp == ctx.followUp + live.followUp {
      SyncConserves(ctx, live, s);
    } else {
      FollowUpsConserve(ctx, live, s, mode);
    }
  }

  lemma NotDelivered(e: Entry)
    requires e.origin == Model
    ensures Delivered([e], Steering) == [] && Delivered([e], FollowUp) == []
  {
    assert Delivered([], Steering) == [] && Delivered([], FollowUp) == [];
  }

  lemma DecideConserves(ctx: Context, live: Live)
    ensures ConservesQueues(RunDecide(ctx, live), ctx, live)
  {
    var s := RunDecide(ctx, live);
    if ctx.assistant.Some? {
      NotDelivered(Entry(Model, AssistantMessage(ctx.assistant.value)));
    }
    UntouchedConserves(ctx, live, s);
  }

  lemma NodeConservesQueues(cfg: Config, node: NodeName, ctx: Context, live: Live, choice: Choice)
    ensures ConservesQueues(RunNode(cfg, node, ctx, live, choice), ctx, live)
  {
    match node
    case DrainInput => DrainConserves(cfg, ctx, live);
    case ExecuteTools => ToolsConserve(cfg, ctx, live, choice.batch);
    case PrepareNext => NextTurnConserves(cfg, ctx, live, choice);
    case StartTurn => UntouchedConserves(ctx, live, RunStartTurn(cfg, ctx, live));
    case Compact => UntouchedConserves(ctx, live, RunCompact(ctx, live, choice.compaction));
    case PrepareRequest => UntouchedConserves(ctx, live, RunPrepareRequest(ctx, live, choice.prepared));
    case BeforeHook => UntouchedConserves(ctx, live, RunBeforeHook(ctx, live, choice.hooked));
    case ProviderStream => UntouchedConserves(ctx, live, RunProviderStream(ctx, live, choice.stream));
    case Decide => DecideConserves(ctx, live);
  }

  /** A node that replaces nothing appends to the messages what it logs, and the queues hold only what users
      wrote. */
  ghost predicate LogsMessages(s: Step, ctx: Context)
  {
    !s.replaced ==> s.ctx.messages == ctx.messages + Payload(s.appended)
  }

  lemma EntriesPayload(origin: Origin, messages: seq<Message>)
    ensures Payload(Entries(origin, messages)) == messages
  {
  }

  lemma NextTurnLogs(cfg: Config, ctx: Context, live: Live, choice: Choice)
    ensures LogsMessages(RunPrepareNext(cfg, ctx, live, choice), ctx)
  {
    EntriesPayload(FollowUp, Drained(ctx.followUp + live.followUp, cfg.followUpMode));
  }

  lemma ToolsLog(cfg: Config, ctx: Context, live: Live, batch: Tools.Batch)
    ensures LogsMessages(RunExecuteTools(cfg, ctx, live, batch), ctx)
  {
    var sequential := Tools.UseSequential(cfg.toolMode, ctx.pending, cfg.tools);
    var executions := Tools.BatchExecutions(batch, ctx.pending, sequential);
    EntriesPayload(ToolRun, Tools.ResultMessages(Tools.SortByIndex(executions)));
  }

  lemma NodeLogsMessages(cfg: Config, node: NodeName, ctx: Context, live: Live, choice: Choice)
    ensures LogsMessages(RunNode(cfg, node, ctx, live, choice), ctx)
  {
    match node
    case DrainInput => EntriesPayload(Steering, Drained(ctx.steering + live.steering, cfg.steeringMode));
    case ExecuteTools => ToolsLog(cfg, ctx, live, choice.batch);
    case PrepareNext => NextTurnLogs(cfg, ctx, live, choice);
    case _ =>
  }

  ghost predicate UserQueues(ctx: Context, live: Live)
  {
    AllUser(ctx.steering) && AllUser(ctx.followUp) && AllUser(live.steering) && AllUser(live.followUp)
  }

  lemma SyncKeepsUser(ctx: Context, live: Live)
    requires UserQueues(ctx, live)
    ensures AllUser(ctx.steering + live.steering) && AllUser(ctx.followUp + live.followUp)
  {
  }

  lemma DrainKeepsUser(queue: seq<Message>, mode: QueueMode)
    requires AllUser(queue)
    ensures AllUser(Drained(queue, mode)) && AllUser(Remaining(queue, mode))
  {
  }

  lemma NextTurnKeepsUser(cfg: Config, ctx: Context, live: Live, choice: Choice)
    requires UserQueues(ctx, live)
    ensures var s := RunPrepareNext(cfg, ctx, live, choice); UserQueues(s.ctx, s.live)
  {
    SyncKeepsUser(ctx, live);
    DrainKeepsUser(ctx.followUp + live.followUp, cfg.followUpMode);
    var s := RunPrepareNext(cfg, ctx, live, choice);
    assert ctx.assistant.Some? ==>
        s.ctx.steering == ctx.steering + live.steering && s.live.steering == [] && s.live.followUp == [];
  }

  lemma DrainInputKeepsUser(cfg: Config, ctx: Context, live: Live)
    requires UserQueues(ctx, live)
    ensures var s := RunDrainInput(cfg, ctx, live); UserQueues(s.ctx, s.live)
  {
    SyncKeepsUser(ctx, live);
    DrainKeepsUser(ctx.steering + live.steering, cfg.steeringMode);
  }

  lemma NodeKeepsUserQueues(cfg: Config, node: NodeName, ctx: Context, live: Live, choice: Choice)
    requires UserQueues(ctx, live)
    ensures var s := RunNode(cfg, node, ctx, live, choice); UserQueues(s.ctx, s.live)
  {
    match node
    case DrainInput => DrainInputKeepsUser(cfg, ctx, live);
    case PrepareNext => NextTurnKeepsUser(cfg, ctx, live, choice);
    case _ =>
  }

  /** A node keeps the reader going: it is over exactly when the run stops here. */
  ghost predicate KeepsTrace(cfg: Config, node: NodeName, s: Step, t: Trace)
  {
    var t' := ReadAll(t, s.events);
    var phase := PhaseAfter(node, s.result);
    && t'.Trace?
    && (cfg.maxTurns.Some? ==> t'.turns <= cfg.maxTurns.value)
    && (t'.over <==> phase.Halted? && s.result.Ok?)
    && (!phase.Halted? ==> t'.turns == s.ctx.turn)
    && (phase.Checking? ==> 0 < t'.turns && (t'.requested ==> Rank(phase.node) > Rank(BeforeHook)))
  }

  /** The reader where a node starts. */
  ghost predicate TraceAt(cfg: Config, node: NodeName, ctx: Context, t: Trace)
  {
    && t.Trace? && !t.over && t.turns == ctx.turn
    && (cfg.maxTurns.Some? ==> t.turns <= cfg.maxTurns.value)
    && (node.StartTurn? || (0 < t.turns && (t.requested ==> Rank(node) > Rank(BeforeHook))))
  }

  lemma ReadAtMostOne(t: Trace, events: seq<Event>)
    requires |events| <= 1
    ensures ReadAll(t, events) == if events == [] then t else Read(t, events[0])
  {
    if events != [] {
      ReadOne(t, events[0]);
      assert events == [events[0]];
    }
  }

  lemma WrappedNeutral(events: seq<LlmEvent>)
    ensures Neutral(Wrapped(events))
  {
  }

  lemma ToolEventsNeutral(events: seq<Tools.Event>)
    ensures Neutral(ToolEvents(events))
  {
  }

  /** What the provider node does: it stops short, fails after some events, or passes them on and goes on. */
  lemma StreamIs(ctx: Context, live: Live, stream: seq<LlmEvent>) returns (read: seq<Event>, failure: Failure)
    ensures Neutral(read)
    ensures var s := RunProviderStream(ctx, live, stream);
            && s.ctx.turn == ctx.turn
            && (|| (s.events == [] && s.result.Err?)
                || (s.events == read && s.result == Ok(Default))
                || (s.events == read + [AgentError(failure)] && s.result == Ok(Fail)))
  {
    read, failure := Wrapped(UntilTerminal(stream)), StreamEnded;
    WrappedNeutral(UntilTerminal(stream));
    var s := RunProviderStream(ctx, live, stream);
    if s.result == Ok(Fail) {
      failure := s.events[|s.events| - 1].failure;
    }
  }

  lemma StreamKeepsTrace(cfg: Config, ctx: Context, live: Live, stream: seq<LlmEvent>, t: Trace)
    requires TraceAt(cfg, ProviderStream, ctx, t)
    ensures KeepsTrace(cfg, ProviderStream, RunProviderStream(ctx, live, stream), t)
  {
    var read, failure := StreamIs(ctx, live, stream);
    StreamStepKeepsTrace(cfg, ctx, RunProviderStream(ctx, live, stream), t, read, failure);
  }

  lemma StreamStepKeepsTrace(cfg: Config, ctx: Context, s: Step, t: Trace, read: seq<Event>, failure: Failure)
    requires TraceAt(cfg, ProviderStream, ctx, t) && Neutral(read) && s.ctx.turn == ctx.turn
    requires || (s.events == [] && s.result.Err?)
             || (s.events == read && s.result == Ok(Default))
             || (s.events == read + [AgentError(failure)] && s.result == Ok(Fail))
    ensures KeepsTrace(cfg, ProviderStream, s, t)
  {
    if s.result.Err? {
      ReadAtMostOne(t, s.events);
    } else if s.result == Ok(Default) {
      ReadNeutral(t, read);
    } else {
      ReadNeutralThen(t, read, AgentError(failure));
    }
  }

  lemma NextTurnKeepsTrace(cfg: Config, ctx: Context, live: Live, choice: Choice, t: Trace)
    requires TraceAt(cfg, PrepareNext, ctx, t) && ctx.assistant.Some?
    requires !ctx.assistant.value.stopReason.Error? && !ctx.assistant.value.stopReason.Aborted?
    ensures KeepsTrace(cfg, PrepareNext, RunPrepareNext(cfg, ctx, live, choice), t)
  {
    ReadAtMostOne(t, RunPrepareNext(cfg, ctx, live, choice).events);
  }

  lemma NeutralToolsKeepTrace(cfg: Config, ctx: Context, s: Step, t: Trace)
    requires TraceAt(cfg, ExecuteTools, ctx, t) && Neutral(s.events) && s.ctx.turn == ctx.turn
    requires s.result == Ok(Continue) || s.result == Ok(ContinueProvider)
    ensures KeepsTrace(cfg, ExecuteTools, s, t)
  {
    ReadNeutral(t, s.events);
  }

  lemma ToolsEmitNeutral(cfg: Config, ctx: Context, live: Live, batch: Tools.Batch)
    ensures var s := RunExecuteTools(cfg, ctx, live, batch);
            && Neutral(s.events) && s.ctx.turn == ctx.turn
            && s.ctx.request == ctx.request && s.ctx.assistant == ctx.assistant
            && (s.result == Ok(Continue) || s.result == Ok(ContinueProvider))
  {
    if ctx.pending != [] {
      var sequential := Tools.UseSequential(cfg.toolMode, ctx.pending, cfg.tools);
      ToolEventsNeutral(Tools.BatchEvents(batch, ctx.pending, sequential));
    }
  }

  lemma ToolsKeepTrace(cfg: Config, ctx: Context, live: Live, batch: Tools.Batch, t: Trace)
    requires TraceAt(cfg, ExecuteTools, ctx, t)
    ensures KeepsTrace(cfg, ExecuteTools, RunExecuteTools(cfg, ctx, live, batch), t)
  {
    ToolsEmitNeutral(cfg, ctx, live, batch);
    NeutralToolsKeepTrace(cfg, ctx, RunExecuteTools(cfg, ctx, live, batch), t);
  }

  lemma DecideKeepsTrace(cfg: Config, ctx: Context, live: Live, t: Trace)
    requires TraceAt(cfg, Decide, ctx, t)
    ensures KeepsTrace(cfg, Decide, RunDecide(ctx, live), t)
  {
    ReadAtMostOne(t, RunDecide(ctx, live).events);
  }

  lemma EarlyNodeKeepsTrace(cfg: Config, node: NodeName, ctx: Context, live: Live, choice: Choice, t: Trace)
    requires TraceAt(cfg, node, ctx, t) && Rank(node) <= Rank(BeforeHook)
    ensures KeepsTrace(cfg, node, RunNode(cfg, node, ctx, live, choice), t)
  {
    ReadAtMostOne(t, RunNode(cfg, node, ctx, live, choice).events);
  }

  lemma NodeKeepsTrace(cfg: Config, node: NodeName, ctx: Context, live: Live, choice: Choice, t: Trace)
    requires TraceAt(cfg, node, ctx, t) && Equipped(node, ctx)
    ensures KeepsTrace(cfg, node, RunNode(cfg, node, ctx, live, choice), t)
  {
    match node
    case ProviderStream => StreamKeepsTrace(cfg, ctx, live, choice.stream, t);
    case Decide => DecideKeepsTrace(cfg, ctx, live, t);
    case ExecuteTools => ToolsKeepTrace(cfg, ctx, live, choice.batch, t);
    case PrepareNext => NextTurnKeepsTrace(cfg, ctx, live, choice, t);
    case _ => EarlyNodeKeepsTrace(cfg, node, ctx, live, choice, t);
  }

  /** Where a node leads, what that node needs is there. */
  ghost predicate PreparesNext(node: NodeName, s: Step)
  {
    var phase := PhaseAfter(node, s.result);
    phase.Checking? ==> Rank(node) < Rank(phase.node) && Equipped(phase.node, s.ctx)
  }

  lemma StreamPreparesNext(ctx: Context, live: Live, stream: seq<LlmEvent>)
    requires ctx.request.Some?
    ensures PreparesNext(ProviderStream, RunProviderStream(ctx, live, stream))
  {
  }

  lemma DecidePreparesNext(ctx: Context, live: Live)
    requires ctx.request.Some? && ctx.assistant.Some?
    ensures PreparesNext(Decide, RunDecide(ctx, live))
  {
  }

  lemma ToolStepPrepares(ctx: Context, s: Step)
    requires ctx.request.Some? && ctx.assistant.Some? && ctx.assistant.value.stopReason.ToolUse?
    requires s.ctx.request == ctx.request && s.ctx.assistant == ctx.assistant
    requires s.result == Ok(Continue) || s.result == Ok(ContinueProvider)
    ensures PreparesNext(ExecuteTools, s)
  {
  }

  lemma ToolsPrepareNext(cfg: Config, ctx: Context, live: Live, batch: Tools.Batch)
    requires ctx.request.Some? && ctx.assistant.Some? && ctx.assistant.value.stopReason.ToolUse?
    ensures PreparesNext(ExecuteTools, RunExecuteTools(cfg, ctx, live, batch))
  {
    ToolsEmitNeutral(cfg, ctx, live, batch);
    ToolStepPrepares(ctx, RunExecuteTools(cfg, ctx, live, batch));
  }

  lemma LastPreparesNothing(s: Step)
    ensures PreparesNext(PrepareNext, s)
  {
  }

  lemma StartPreparesNext(cfg: Config, ctx: Context, live: Live)
    ensures PreparesNext(StartTurn, RunStartTurn(cfg, ctx, live))
  {
  }

  lemma StepPrepares(node: NodeName, s: Step, next: NodeName)
    requires Rank(node) < Rank(next) <= Rank(ProviderStream)
    requires PhaseAfter(node, s.result).Checking? ==> PhaseAfter(node, s.result).node == next
    requires Rank(next) >= Rank(BeforeHook) && PhaseAfter(node, s.result).Checking? ==> s.ctx.request.Some?
    ensures PreparesNext(node, s)
  {
  }

  lemma NodePreparesNext(cfg: Config, node: NodeName, ctx: Context, live: Live, choice: Choice)
    requires Equipped(node, ctx)
    ensures PreparesNext(node, RunNode(cfg, node, ctx, live, choice))
  {
    match node
    case ProviderStream => StreamPreparesNext(ctx, live, choice.stream);
    case Decide => DecidePreparesNext(ctx, live);
    case ExecuteTools => ToolsPrepareNext(cfg, ctx, live, choice.batch);
    case PrepareNext => LastPreparesNothing(RunPrepareNext(cfg, ctx, live, choice));
    case StartTurn => StartPreparesNext(cfg, ctx, live);
    case DrainInput => StepPrepares(DrainInput, RunDrainInput(cfg, ctx, live), Compact);
    case Compact => StepPrepares(Compact, RunCompact(ctx, live, choice.compaction), PrepareRequest);
    case PrepareRequest => StepPrepares(PrepareRequest, RunPrepareRequest(ctx, live, choice.prepared), BeforeHook);
    case BeforeHook => StepPrepares(BeforeHook, RunBeforeHook(ctx, live, choice.hooked), ProviderStream);
  }

  // ---------------------------------------------------------------- tool calls across a node

  /** What the record of calls and answers is like after a node. */
  ghost predicate KeepsPairs(node: NodeName, s: Step, sent: seq<Message>)
  {
    match PhaseAfter(node, s.result)
    case Checking(next) =>
      if next.ExecuteTools? then s.ctx.assistant.Some? && Asking(sent, s.ctx.assistant.value) else Paired(sent)
    case Halted => CutOff(sent)
    case _ => Paired(sent)
  }

  lemma PlainAssistantPaired(m: Message)
    requires !m.ToolResult? && (m.FromAssistant? ==> !m.assistant.stopReason.ToolUse?)
    ensures Paired([m])
  {
    assert [m][1..] == [];
  }

  lemma AskingAfter(sent: seq<Message>, a: Assistant)
    requires Paired(sent)
    ensures Asking(sent + [AssistantMessage(a)], a)
  {
    assert (sent + [AssistantMessage(a)])[..|sent|] == sent;
  }

  lemma PlainAfter(sent: seq<Message>, m: Message)
    requires Paired(sent) && !m.ToolResult? && (m.FromAssistant? ==> !m.assistant.stopReason.ToolUse?)
    ensures Paired(sent + [m])
  {
    PlainAssistantPaired(m);
    PairedConcat(sent, [m]);
  }

  lemma SaidKeepsPairs(s: Step, sent: seq<Message>, a: Assistant)
    requires s.ctx.assistant == Some(a) && (if a.stopReason.ToolUse? then Asking(sent, a) else Paired(sent))
    requires s.result == (if a.stopReason.ToolUse? then Ok(UseTools) else if a.stopReason.Error? then Ok(Fail)
                          else if a.stopReason.Aborted? then Ok(Abort) else Ok(Continue))
    ensures KeepsPairs(Decide, s, sent)
  {
  }

  lemma DecideIs(ctx: Context, live: Live)
    requires ctx.assistant.Some?
    ensures var (s, a) := (RunDecide(ctx, live), ctx.assistant.value);
            && s.ctx.assistant == Some(a) && Payload(s.appended) == [AssistantMessage(a)]
            && s.result == (if a.stopReason.ToolUse? then Ok(UseTools) else if a.stopReason.Error? then Ok(Fail)
                            else if a.stopReason.Aborted? then Ok(Abort) else Ok(Continue))
  {
  }

  lemma DecideKeepsPairs(ctx: Context, live: Live, sent: seq<Message>)
    requires Paired(sent) && ctx.assistant.Some?
    ensures KeepsPairs(Decide, RunDecide(ctx, live), sent + Payload(RunDecide(ctx, live).appended))
  {
    var a := ctx.assistant.value;
    DecideIs(ctx, live);
    if a.stopReason.ToolUse? {
      AskingAfter(sent, a);
    } else {
      PlainAfter(sent, AssistantMessage(a));
    }
    SaidKeepsPairs(RunDecide(ctx, live), sent + [AssistantMessage(a)], a);
  }

  lemma AnsweredPaired(a: Assistant, results: seq<Message>)
    requires a.stopReason.ToolUse? && Answers(a, results)
    ensures Paired([AssistantMessage(a)] + results)
  {
    var all := [AssistantMessage(a)] + results;
    assert all[1..1 + |results|] == results && all[1 + |results|..] == [];
  }

  /** The results appended for a batch answer its calls. */
  lemma BatchAnswers(a: Assistant, batch: Tools.Batch, sequential: bool)
    ensures var executions := Tools.BatchExecutions(batch, Tools.Extract(a), sequential);
            Answers(a, Tools.ResultMessages(Tools.SortByIndex(executions)))
  {
    Tools.BatchIsCalls(batch, Tools.Extract(a), sequential);
  }

  /** What running the tools of a message logs. */
  lemma ToolsLogged(cfg: Config, ctx: Context, live: Live, batch: Tools.Batch, a: Assistant)
    requires ctx.pending == Tools.Extract(a)
    ensures Answers(a, Payload(RunExecuteTools(cfg, ctx, live, batch).appended))
  {
    if ctx.pending != [] {
      var sequential := Tools.UseSequential(cfg.toolMode, ctx.pending, cfg.tools);
      BatchAnswers(a, batch, sequential);
      var executions := Tools.BatchExecutions(batch, ctx.pending, sequential);
      EntriesPayload(ToolRun, Tools.ResultMessages(Tools.SortByIndex(executions)));
    }
  }

  lemma AnswerCompletes(a: Assistant, sent: seq<Message>, results: seq<Message>)
    requires a.stopReason.ToolUse? && Answers(a, results) && Asking(sent, a)
    ensures Paired(sent + results)
  {
    AnsweredPaired(a, results);
    var before, asked := sent[..|sent| - 1], [AssistantMessage(a)] + results;
    assert sent + results == before + asked;
    PairedConcat(before, asked);
  }

  lemma AnsweredKeepsPairs(node: NodeName, s: Step, sent: seq<Message>)
    requires Paired(sent) && !node.Decide?
    ensures KeepsPairs(node, s, sent)
  {
  }

  lemma ToolsKeepPairs(cfg: Config, ctx: Context, live: Live, batch: Tools.Batch, sent: seq<Message>)
    requires ctx.assistant.Some? && ctx.assistant.value.stopReason.ToolUse?
    requires ctx.pending == Tools.Extract(ctx.assistant.value)
    requires Asking(sent, ctx.assistant.value)
    ensures Paired(sent + Payload(RunExecuteTools(cfg, ctx, live, batch).appended))
  {
    ToolsLogged(cfg, ctx, live, batch, ctx.assistant.value);
    AnswerCompletes(ctx.assistant.value, sent, Payload(RunExecuteTools(cfg, ctx, live, batch).appended));
  }

  lemma UserAfter(sent: seq<Message>, more: seq<Message>)
    requires Paired(sent) && AllUser(more)
    ensures Paired(sent + more)
  {
    UserPaired(more);
    PairedConcat(sent, more);
  }

  /** Every other node logs only what users wrote. */
  lemma QueuesLogUser(cfg: Config, node: NodeName, ctx: Context, live: Live, choice: Choice)
    requires UserQueues(ctx, live) && !node.Decide? && !node.ExecuteTools?
    ensures AllUser(Payload(RunNode(cfg, node, ctx, live, choice).appended))
  {
    assert AllUser(ctx.steering + live.steering) && AllUser(ctx.followUp + live.followUp);
    match node
    case DrainInput => EntriesPayload(Steering, Drained(ctx.steering + live.steering, cfg.steeringMode));
    case PrepareNext => EntriesPayload(FollowUp, Drained(ctx.followUp + live.followUp, cfg.followUpMode));
    case _ =>
  }

  lemma ToolNodeKeepsPairs(cfg: Config, ctx: Context, live: Live, batch: Tools.Batch, sent: seq<Message>)
    requires Equipped(ExecuteTools, ctx) && Asking(sent, ctx.assistant.value)
    ensures var s := RunExecuteTools(cfg, ctx, live, batch); KeepsPairs(ExecuteTools, s, sent + Payload(s.appended))
  {
    var s := RunExecuteTools(cfg, ctx, live, batch);
    ToolsKeepPairs(cfg, ctx, live, batch, sent);
    AnsweredKeepsPairs(ExecuteTools, s, sent + Payload(s.appended));
  }

  lemma QueueNodeKeepsPairs(node: NodeName, s: Step, sent: seq<Message>)
    requires Paired(sent) && AllUser(Payload(s.appended)) && !node.Decide?
    ensures KeepsPairs(node, s, sent + Payload(s.appended))
  {
    UserAfter(sent, Payload(s.appended));
    AnsweredKeepsPairs(node, s, sent + Payload(s.appended));
  }

  lemma NodeKeepsPairs(cfg: Config, node: NodeName, ctx: Context, live: Live, choice: Choice, sent: seq<Message>)
    requires UserQueues(ctx, live) && Equipped(node, ctx)
    requires node.ExecuteTools? ==> Asking(sent, ctx.assistant.value)
    requires !node.ExecuteTools? ==> Paired(sent)
    ensures var s := RunNode(cfg, node, ctx, live, choice); KeepsPairs(node, s, sent + Payload(s.appended))
  {
    match node
    case Decide => DecideKeepsPairs(ctx, live, sent);
    case ExecuteTools => ToolNodeKeepsPairs(cfg, ctx, live, choice.batch, sent);
    case _ =>
      QueuesLogUser(cfg, node, ctx, live, choice);
      QueueNodeKeepsPairs(node, RunNode(cfg, node, ctx, live, choice), sent);
  }
}
