/** The agent's turn runtime as a machine: an outer loop that runs a graph of nodes over a snapshot of the
shared state, while other tasks enqueue messages or cancel.

A node takes the lock on the shared state at most once, at its start, to move queued messages into its
context. Everything else it does touches only the context. A node is therefore one step of the machine,
and the other tasks take their steps between nodes. The look at the cancellation token before a node is a
step of its own. What providers, tools and hooks answer is a choice handed to the step. */
module AgentTurn {
  import opened Basics
  import opened Messages
  import Tools

  datatype QueueMode = All | OneAtATime

  datatype Config = Config(
    maxTurns: Option<nat>,
    steeringMode: QueueMode,
    followUpMode: QueueMode,
    toolMode: Tools.Mode,
    tools: seq<Tools.Tool>)

  datatype LlmEvent = Delta(data: string) | Done(message: Assistant) | LlmError(message: Assistant)

  datatype Failure =
    | AbortedRun
    | MaxTurns(limit: nat)
    | HookFailed(message: string)
    | ModelFailed(text: Option<string>)
    | StreamEnded
    | RequestMissing
    | AssistantMissing
    | NotSummarized(message: string)
    | MaxSteps

  datatype Event =
    | TurnStart(turn: nat)
    | BeforeRequest(request: string)
    | Llm(event: LlmEvent)
    | FromTool(toolEvent: Tools.Event)
    | SessionCompacted(summary: string, firstKept: string, tokensBefore: nat)
    | AgentDone(message: Assistant)
    | AgentError(failure: Failure)

  datatype NodeName =
    | StartTurn | DrainInput | Compact | PrepareRequest | BeforeHook
    | ProviderStream | Decide | PrepareNext | ExecuteTools

  datatype Action = Default | Continue | ContinueProvider | UseTools | Finish | Fail | Abort

  /** The graph of the flow. */
  function Next(node: NodeName, action: Action): Option<NodeName>
  {
    match (node, action)
    case (StartTurn, Default) => Some(DrainInput)
    case (DrainInput, Default) => Some(Compact)
    case (Compact, Default) => Some(PrepareRequest)
    case (PrepareRequest, Default) => Some(BeforeHook)
    case (BeforeHook, Default) => Some(ProviderStream)
    case (ProviderStream, Default) => Some(Decide)
    case (Decide, UseTools) => Some(ExecuteTools)
    case (Decide, Continue) => Some(PrepareNext)
    case (ExecuteTools, Continue) => Some(PrepareNext)
    case _ => None
  }

  const MAX_STEPS := 1024

  // ---------------------------------------------------------------- state

  /** The state that other tasks share with a run. */
  datatype Live = Live(messages: seq<Message>, steering: seq<Message>, followUp: seq<Message>, cancelled: bool)

  datatype Context = Context(
    messages: seq<Message>,
    steering: seq<Message>,
    followUp: seq<Message>,
    turn: nat,
    request: Option<string>,
    assistant: Option<Assistant>,
    pending: seq<Tools.Request>,
    allTerminate: bool)

  datatype Phase = Top | Checking(node: NodeName) | Running(node: NodeName) | Halted

  datatype Origin = Steering | FollowUp | Model | ToolRun

  /** A message that a run appended, and where it came from. */
  datatype Entry = Entry(origin: Origin, message: Message)

  /** The machine. The last five fields are history: everything ever enqueued, every message appended, the
      messages at the start, and whether they were never replaced since. */
  datatype World = World(
    live: Live,
    phase: Phase,
    turn: nat,
    ctx: Context,
    steps: nat,
    events: seq<Event>,
    enqueuedSteering: seq<Message>,
    enqueuedFollowUp: seq<Message>,
    log: seq<Entry>,
    base: seq<Message>,
    pristine: bool)

  datatype Compaction =
    | Unneeded
    | Replaced(messages: seq<Message>, summary: string, firstKept: string, tokensBefore: nat)
    | SummaryFailed(message: string)

  /** What the outside answers to one node. */
  datatype Choice = Choice(
    compaction: Compaction,
    prepared: Result<string, string>,
    hooked: Result<string, string>,
    stream: seq<LlmEvent>,
    batch: Tools.Batch,
    stop: Result<bool, string>,
    nextTurn: Result<Option<seq<Message>>, string>)

  // ---------------------------------------------------------------- queues

  function Drained(queue: seq<Message>, mode: QueueMode): seq<Message>
  {
    if mode.All? || queue == [] then queue else queue[..1]
  }

  function Remaining(queue: seq<Message>, mode: QueueMode): seq<Message>
  {
    if mode.All? || queue == [] then [] else queue[1..]
  }

  /** The snapshot an iteration works on. */
  function FromLive(live: Live, turn: nat): Context
  {
    Context(live.messages, live.steering, live.followUp, turn, None, None, [], false)
  }

  /** Moves what was enqueued meanwhile behind what the context already holds. */
  function SyncQueues(ctx: Context, live: Live): (Context, Live)
  {
    (ctx.(steering := ctx.steering + live.steering, followUp := ctx.followUp + live.followUp),
     live.(steering := [], followUp := []))
  }

  /** Writes the context back: its queues go in front of what was enqueued meanwhile. */
  function ApplyToState(ctx: Context, live: Live): Live
  {
    live.(messages := ctx.messages, steering := ctx.steering + live.steering, followUp := ctx.followUp + live.followUp)
  }

  function Entries(origin: Origin, messages: seq<Message>): (r: seq<Entry>)
    ensures |r| == |messages|
  {
    seq(|messages|, i requires 0 <= i < |messages| => Entry(origin, messages[i]))
  }

  // ---------------------------------------------------------------- nodes

  datatype Step = Step(
    ctx: Context,
    live: Live,
    events: seq<Event>,
    appended: seq<Entry>,
    replaced: bool,
    result: Result<Action, Failure>)

  /** A step that leaves everything alone but emits events. */
  function Quiet(ctx: Context, live: Live, events: seq<Event>, action: Action): Step
  {
    Step(ctx, live, events, [], false, Ok(action))
  }

  function RunStartTurn(cfg: Config, ctx: Context, live: Live): Step
  {
    if live.cancelled then Quiet(ctx, live, [AgentError(AbortedRun)], Abort) else
      var ctx' := ctx.(turn := ctx.turn + 1);
      if cfg.maxTurns.Some? && ctx'.turn > cfg.maxTurns.value then
        Quiet(ctx', live, [AgentError(MaxTurns(cfg.maxTurns.value))], Fail)
      else
        Quiet(ctx', live, [TurnStart(ctx'.turn)], Default)
  }

  function RunDrainInput(cfg: Config, ctx: Context, live: Live): Step
  {
    var (synced, live') := SyncQueues(ctx, live);
    var steered := Drained(synced.steering, cfg.steeringMode);
    Step(synced.(steering := Remaining(synced.steering, cfg.steeringMode), messages := synced.messages + steered),
         live', [], Entries(Steering, steered), false, Ok(Default))
  }

  function RunCompact(ctx: Context, live: Live, compaction: Compaction): Step
  {
    match compaction
    case Unneeded => Quiet(ctx, live, [], Default)
    case Replaced(messages, summary, firstKept, tokensBefore) =>
      Step(ctx.(messages := messages), live, [SessionCompacted(summary, firstKept, tokensBefore)], [], true,
           Ok(Default))
    case SummaryFailed(message) => Step(ctx, live, [], [], false, Err(NotSummarized(message)))
  }

  function RunPrepareRequest(ctx: Context, live: Live, prepared: Result<string, string>): Step
  {
    match prepared
    case Err(e) => Quiet(ctx, live, [AgentError(HookFailed(e))], Fail)
    case Ok(request) => Quiet(ctx.(request := Some(request)), live, [], Default)
  }

  function RunBeforeHook(ctx: Context, live: Live, hooked: Result<string, string>): Step
  {
    if ctx.request.None? then Quiet(ctx, live, [AgentError(RequestMissing)], Fail)
    else match hooked
      case Err(e) => Quiet(ctx, live, [AgentError(HookFailed(e))], Fail)
      case Ok(request) => Quiet(ctx.(request := Some(request)), live, [BeforeRequest(request)], Default)
  }

  predicate Terminal(e: LlmEvent) { e.Done? || e.LlmError? }

  /** The events of a stream up to the first one that ends it. */
  function UntilTerminal(stream: seq<LlmEvent>): (r: seq<LlmEvent>)
    ensures r <= stream
    ensures forall i :: 0 <= i < |r| - 1 ==> !Terminal(r[i])
    ensures |r| < |stream| ==> r != [] && Terminal(r[|r| - 1])
  {
    if stream == [] then []
    else if Terminal(stream[0]) then [stream[0]]
    else [stream[0]] + UntilTerminal(stream[1..])
  }

  function Wrapped(events: seq<LlmEvent>): (r: seq<Event>)
    ensures |r| == |events| && forall i :: 0 <= i < |r| ==> r[i] == Llm(events[i])
  {
    seq(|events|, i requires 0 <= i < |events| => Llm(events[i]))
  }

  function RunProviderStream(ctx: Context, live: Live, stream: seq<LlmEvent>): Step
  {
    if ctx.request.None? then Step(ctx, live, [], [], false, Err(RequestMissing)) else
      var read := UntilTerminal(stream);
      if read != [] && read[|read| - 1].Done? then
        Quiet(ctx.(assistant := Some(read[|read| - 1].message)), live, Wrapped(read), Default)
      else
        var failure := if read != [] && read[|read| - 1].LlmError?
                       then ModelFailed(read[|read| - 1].message.errorMessage)
                       else StreamEnded;
        Quiet(ctx, live, Wrapped(read) + [AgentError(failure)], Fail)
  }

  function AssistantMessage(a: Assistant): Message
  {
    FromAssistant(if a.responseId.Some? then a.responseId.value else "", a)
  }

  function RunDecide(ctx: Context, live: Live): Step
  {
    if ctx.assistant.None? then Step(ctx, live, [], [], false, Err(AssistantMissing)) else
      var a := ctx.assistant.value;
      var said := AssistantMessage(a);
      var ctx' := ctx.(messages := ctx.messages + [said]);
      var step := Step(ctx', live, [], [Entry(Model, said)], false, Ok(Continue));
      match a.stopReason
      case Stop => step
      case Length => step
      case Error => step.(events := [AgentError(ModelFailed(a.errorMessage))], result := Ok(Fail))
      case Aborted => step.(events := [AgentError(AbortedRun)], result := Ok(Abort))
      case ToolUse => step.(ctx := ctx'.(pending := Tools.Extract(a)), result := Ok(UseTools))
  }

  function ToolEvents(events: seq<Tools.Event>): (r: seq<Event>)
    ensures |r| == |events| && forall i :: 0 <= i < |r| ==> r[i] == FromTool(events[i])
  {
    seq(|events|, i requires 0 <= i < |events| => FromTool(events[i]))
  }

  predicate AllTerminate(executions: seq<Tools.Execution>)
  {
    executions != [] && forall e :: e in executions ==> e.outcome.terminate
  }

  function RunExecuteTools(cfg: Config, ctx: Context, live: Live, batch: Tools.Batch): Step
  {
    var idle := ctx.(pending := [], allTerminate := false);
    if ctx.pending == [] then Quiet(idle, live, [], ContinueProvider) else
      var sequential := Tools.UseSequential(cfg.toolMode, ctx.pending, cfg.tools);
      var executions := Tools.BatchExecutions(batch, ctx.pending, sequential);
      var results := Tools.ResultMessages(Tools.SortByIndex(executions));
      Step(idle.(messages := ctx.messages + results, allTerminate := AllTerminate(executions)), live,
           ToolEvents(Tools.BatchEvents(batch, ctx.pending, sequential)), Entries(ToolRun, results), false,
           Ok(Continue))
  }

  /** The end of a turn: stop, or go on with what is queued. */
  function RunPrepareNext(cfg: Config, ctx: Context, live: Live, choice: Choice): Step
  {
    if ctx.assistant.None? then Step(ctx, live, [], [], false, Err(AssistantMissing)) else
      var a := ctx.assistant.value;
      var (synced, live') := SyncQueues(ctx, live);
      match a.stopReason
      case Error => Quiet(synced, live', [], Fail)
      case Aborted => Quiet(synced, live', [], Abort)
      case _ =>
        if choice.stop.Err? then Quiet(synced, live', [AgentError(HookFailed(choice.stop.error))], Fail)
        else if choice.stop.value || (a.stopReason.ToolUse? && synced.allTerminate) then
          Quiet(synced, live', [AgentDone(a)], Finish)
        else if choice.nextTurn.Err? then Quiet(synced, live', [AgentError(HookFailed(choice.nextTurn.error))], Fail)
        else
          var replaced := choice.nextTurn.value.Some?;
          var ready := if replaced then synced.(messages := choice.nextTurn.value.value) else synced;
          if a.stopReason.ToolUse? then Step(ready, live', [], [], replaced, Ok(Continue))
          else if ready.followUp == [] && ready.steering == [] then
            Step(ready, live', [AgentDone(a)], [], replaced, Ok(Finish))
          else
            var more := Drained(ready.followUp, cfg.followUpMode);
            Step(ready.(followUp := Remaining(ready.followUp, cfg.followUpMode), messages := ready.messages + more),
                 live', [], Entries(FollowUp, more), replaced, Ok(Continue))
  }

  function RunNode(cfg: Config, node: NodeName, ctx: Context, live: Live, choice: Choice): Step
  {
    match node
    case StartTurn => RunStartTurn(cfg, ctx, live)
    case DrainInput => RunDrainInput(cfg, ctx, live)
    case Compact => RunCompact(ctx, live, choice.compaction)
    case PrepareRequest => RunPrepareRequest(ctx, live, choice.prepared)
    case BeforeHook => RunBeforeHook(ctx, live, choice.hooked)
    case ProviderStream => RunProviderStream(ctx, live, choice.stream)
    case Decide => RunDecide(ctx, live)
    case ExecuteTools => RunExecuteTools(cfg, ctx, live, choice.batch)
    case PrepareNext => RunPrepareNext(cfg, ctx, live, choice)
  }

  lemma NodeIsTools(cfg: Config, ctx: Context, live: Live, choice: Choice)
    ensures RunNode(cfg, ExecuteTools, ctx, live, choice) == RunExecuteTools(cfg, ctx, live, choice.batch)
  {
  }

  // ---------------------------------------------------------------- the machine

  /** Leaves the flow: the context is written back and the machine goes to `phase`. */
  function Leave(w: World, events: seq<Event>, phase: Phase): World
  {
    w.(live := ApplyToState(w.ctx, w.live), events := w.events + events, phase := phase)
  }

  /** The machine after a node ran, before its action is looked at. */
  function Took(w: World, s: Step): World
  {
    w.(ctx := s.ctx, live := s.live, events := w.events + s.events, log := w.log + s.appended,
       pristine := w.pristine && !s.replaced)
  }

  /** Where the machine goes after a node: along the graph, back to the outer loop, or to a halt. */
  function PhaseAfter(node: NodeName, result: Result<Action, Failure>): Phase
  {
    match result
    case Err(_) => Halted
    case Ok(action) =>
      if Next(node, action).Some? then Checking(Next(node, action).value)
      else if action.Continue? || action.ContinueProvider? then Top
      else Halted
  }

  function AfterNode(w: World, node: NodeName, result: Result<Action, Failure>): World
  {
    var phase := PhaseAfter(node, result);
    if phase.Checking? then w.(phase := phase, steps := w.steps + 1)
    else Leave(w.(turn := w.ctx.turn), if result.Err? then [AgentError(result.error)] else [], phase)
  }

  function RuntimeStep(cfg: Config, w: World, choice: Choice): World
  {
    match w.phase
    case Halted => w
    case Top =>
      w.(ctx := FromLive(w.live, w.turn), live := w.live.(steering := [], followUp := []),
         steps := 0, phase := Checking(StartTurn))
    case Checking(node) =>
      if w.live.cancelled then Leave(w, [AgentError(AbortedRun)], Halted)
      else if w.steps >= MAX_STEPS then Leave(w, [AgentError(MaxSteps)], Halted)
      else w.(phase := Running(node))
    case Running(node) =>
      var s := RunNode(cfg, node, w.ctx, w.live, choice);
      AfterNode(Took(w, s), node, s.result)
  }

  /** A step of the run, or of another task. */
  datatype Label =
    | Internal(choice: Choice)
    | Steer(id: string, text: string)
    | FollowWith(id: string, text: string)
    | Cancel

  function Advance(cfg: Config, w: World, act: Label): World
  {
    match act
    case Internal(choice) => RuntimeStep(cfg, w, choice)
    case Steer(id, text) =>
      var m := UserText(id, text);
      w.(live := w.live.(steering := w.live.steering + [m]), enqueuedSteering := w.enqueuedSteering + [m])
    case FollowWith(id, text) =>
      var m := UserText(id, text);
      w.(live := w.live.(followUp := w.live.followUp + [m]), enqueuedFollowUp := w.enqueuedFollowUp + [m])
    case Cancel => w.(live := w.live.(cancelled := true))
  }

  function AdvanceAll(cfg: Config, w: World, labels: seq<Label>): World
  {
    if labels == [] then w else
      Advance(cfg, AdvanceAll(cfg, w, labels[..|labels| - 1]), labels[|labels| - 1])
  }

  /** The machine when a run begins on a shared state. */
  function Begin(live: Live): World
  {
    World(live, Top, 0, FromLive(live, 0), 0, [], live.steering, live.followUp, [], live.messages, true)
  }
}
