/** The mutable objects behind the turn machine: the state that tasks share, and the context that the nodes of
one iteration work on. Each method is proved against the function that the machine uses for it. */
module TurnContext {
  import opened Basics
  import opened Messages
  import Tools
  import opened AgentTurn

  function Digit(d: nat): char
    requires d < 10
  {
    ('0' as int + d) as char
  }

  /** A number as it is written. */
  function Decimal(n: nat): string
  {
    if n < 10 then [Digit(n)] else Decimal(n / 10) + [Digit(n % 10)]
  }

  /** The number that digits stand for, read from the front. */
  function ReadNumber(digits: string): int
  {
    if digits == "" then 0 else ReadNumber(digits[..|digits| - 1]) * 10 + (digits[|digits| - 1] as int - '0' as int)
  }

  lemma ReadsOn(digits: string, last: char)
    ensures ReadNumber(digits + [last]) == ReadNumber(digits) * 10 + (last as int - '0' as int)
  {
    assert (digits + [last])[..|digits|] == digits;
  }

  /** A number is written in digits, without a leading zero, and read back as it was. */
  lemma {:induction false} DecimalReads(n: nat)
    ensures ReadNumber(Decimal(n)) == n
    ensures Decimal(n) != "" && forall i :: 0 <= i < |Decimal(n)| ==> '0' <= Decimal(n)[i] <= '9'
    ensures n > 0 ==> Decimal(n)[0] != '0'
  {
    if n < 10 {
      assert Decimal(n)[..0] == "";
    } else {
      DecimalReads(n / 10);
      ReadsOn(Decimal(n / 10), Digit(n % 10));
    }
  }

  /** What the tasks share, behind a lock. */
  class AgentState {
    var messages: seq<Message>
    var steering: seq<Message>
    var followUp: seq<Message>
    var cancelled: bool

    function Value(): Live
      reads this
    {
      Live(messages, steering, followUp, cancelled)
    }

    constructor (live: Live)
      ensures Value() == live
    {
      messages, steering, followUp, cancelled := live.messages, live.steering, live.followUp, live.cancelled;
    }

    method PushSteering(id: string, text: string)
      modifies this
      ensures Value() == old(Value()).(steering := old(steering) + [UserText(id, text)])
    {
      steering := steering + [UserText(id, text)];
    }

    method PushFollowUp(id: string, text: string)
      modifies this
      ensures Value() == old(Value()).(followUp := old(followUp) + [UserText(id, text)])
    {
      followUp := followUp + [UserText(id, text)];
    }

    /** Enqueues a message; its id tells how many were waiting. */
    method SteerWith(text: string)
      modifies this
      ensures var m := UserText("steer_" + Decimal(|old(steering)|), text);
              Value() == old(Value()).(steering := old(steering) + [m])
    {
      var waiting := |steering|;
      PushSteering("steer_" + Decimal(waiting), text);
    }

    method FollowUpWith(text: string)
      modifies this
      ensures var m := UserText("followup_" + Decimal(|old(followUp)|), text);
              Value() == old(Value()).(followUp := old(followUp) + [m])
    {
      var waiting := |followUp|;
      PushFollowUp("followup_" + Decimal(waiting), text);
    }

    method AbortRun()
      modifies this
      ensures Value() == old(Value()).(cancelled := true)
    {
      cancelled := true;
    }
  }

  /** Takes messages from the front of a queue. */
  method DrainQueue(queue: seq<Message>, mode: QueueMode) returns (drained: seq<Message>, rest: seq<Message>)
    ensures drained == Drained(queue, mode) && rest == Remaining(queue, mode)
    ensures drained + rest == queue
    ensures |drained| == match mode case All => |queue| case OneAtATime => Min(1, |queue|)
  {
    match mode
    case All => drained, rest := queue, [];
    case OneAtATime =>
      if queue == [] { drained, rest := [], []; } else { drained, rest := queue[..1], queue[1..]; }
  }

  /** The context of one iteration. */
  class TurnContext {
    const live: AgentState
    var messages: seq<Message>
    var steering: seq<Message>
    var followUp: seq<Message>
    var turn: nat
    var request: Option<string>
    var assistant: Option<Assistant>
    var pending: seq<Tools.Request>
    var allTerminate: bool
    var events: seq<Event>

    function Value(): Context
      reads this
    {
      Context(messages, steering, followUp, turn, request, assistant, pending, allTerminate)
    }

    /** The context and the shared state are as a step of the machine leaves them. */
    twostate predicate Did(s: Step)
      reads this, live
    {
      Value() == s.ctx && live.Value() == s.live && events == old(events) + s.events
    }

    /** The snapshot an iteration starts with; the queues move over to it. */
    constructor (state: AgentState, before: nat)
      modifies state
      ensures live == state && Value() == FromLive(old(state.Value()), before) && events == []
      ensures state.Value() == old(state.Value()).(steering := [], followUp := [])
    {
      live := state;
      messages, steering, followUp := state.messages, state.steering, state.followUp;
      turn, request, assistant, pending, allTerminate, events := before, None, None, [], false, [];
      new;
      state.steering, state.followUp := [], [];
    }

    method Emit(event: Event)
      modifies this`events
      ensures events == old(events) + [event]
    {
      events := events + [event];
    }

    method SyncLiveQueues()
      modifies this, live
      ensures (Value(), live.Value()) == SyncQueues(old(Value()), old(live.Value())) && events == old(events)
    {
      steering := steering + live.steering;
      live.steering := [];
      followUp := followUp + live.followUp;
      live.followUp := [];
    }

    /** Writes the context back. */
    method WriteBack()
      modifies live
      ensures live.Value() == ApplyToState(Value(), old(live.Value()))
    {
      live.steering := steering + live.steering;
      live.followUp := followUp + live.followUp;
      live.messages := messages;
    }

    method StartTurn(cfg: Config) returns (r: Result<Action, Failure>)
      modifies this
      ensures var s := RunStartTurn(cfg, old(Value()), live.Value()); r == s.result && Did(s)
    {
      if live.cancelled {
        Emit(AgentError(AbortedRun));
        return Ok(Abort);
      }
      turn := turn + 1;
      if cfg.maxTurns.Some? && turn > cfg.maxTurns.value {
        Emit(AgentError(MaxTurns(cfg.maxTurns.value)));
        return Ok(Fail);
      }
      Emit(TurnStart(turn));
      r := Ok(Default);
    }

    method DrainQueuedInput(cfg: Config)
      modifies this, live
      ensures Did(RunDrainInput(cfg, old(Value()), old(live.Value())))
    {
      SyncLiveQueues();
      var steered, rest := DrainQueue(steering, cfg.steeringMode);
      steering := rest;
      messages := messages + steered;
    }

    method MaybeCompactContext(compaction: Compaction) returns (r: Result<Action, Failure>)
      modifies this
      ensures var s := RunCompact(old(Value()), live.Value(), compaction); r == s.result && Did(s)
    {
      match compaction
      case Unneeded => r := Ok(Default);
      case Replaced(compacted, summary, firstKept, tokensBefore) =>
        messages := compacted;
        Emit(SessionCompacted(summary, firstKept, tokensBefore));
        r := Ok(Default);
      case SummaryFailed(message) => r := Err(NotSummarized(message));
    }

    method PrepareProviderRequest(prepared: Result<string, string>) returns (r: Result<Action, Failure>)
      modifies this
      ensures var s := RunPrepareRequest(old(Value()), live.Value(), prepared); r == s.result && Did(s)
    {
      if prepared.Err? {
        Emit(AgentError(HookFailed(prepared.error)));
        return Ok(Fail);
      }
      request := Some(prepared.value);
      r := Ok(Default);
    }

    method ApplyBeforeHook(hooked: Result<string, string>) returns (r: Result<Action, Failure>)
      modifies this
      ensures var s := RunBeforeHook(old(Value()), live.Value(), hooked); r == s.result && Did(s)
    {
      if request.None? {
        Emit(AgentError(RequestMissing));
        return Ok(Fail);
      }
      if hooked.Err? {
        Emit(AgentError(HookFailed(hooked.error)));
        return Ok(Fail);
      }
      request := Some(hooked.value);
      Emit(BeforeRequest(hooked.value));
      r := Ok(Default);
    }

    /** Passes the stream on up to its terminal event. */
    method PassOn(stream: seq<LlmEvent>) returns (reply: Option<Assistant>, failure: Option<Failure>)
      modifies this`events
      ensures var read := UntilTerminal(stream);
              && events == old(events) + Wrapped(read)
              && reply == (if read != [] && read[|read| - 1].Done? then Some(read[|read| - 1].message) else None)
              && failure == (if read != [] && read[|read| - 1].LlmError?
                             then Some(ModelFailed(read[|read| - 1].message.errorMessage)) else None)
    {
      reply, failure := PassUntil(stream, UntilTerminal(stream));
    }

    method PassUntil(stream: seq<LlmEvent>, ghost read: seq<LlmEvent>)
      returns (reply: Option<Assistant>, failure: Option<Failure>)
      requires ReadsTo(stream, read)
      modifies this`events
      ensures events == old(events) + Wrapped(read)
      ensures reply == if read != [] && read[|read| - 1].Done? then Some(read[|read| - 1].message) else None
      ensures failure == if read != [] && read[|read| - 1].LlmError?
                         then Some(ModelFailed(read[|read| - 1].message.errorMessage)) else None
    {
      reply, failure := None, None;
      var i := 0;
      while i < |stream|
        invariant i <= |read| && (i < |stream| ==> i < |read|)
        invariant events == old(events) + Wrapped(read[..i])
        invariant reply.None? && failure.None?
        invariant i > 0 ==> !Terminal(read[i - 1])
      {
        var event := stream[i];
        ReadAt(stream, read, i);
        if event.Done? { reply := Some(event.message); }
        if event.LlmError? { failure := Some(ModelFailed(event.message.errorMessage)); }
        ToldNext(old(events), read, i);
        Emit(Llm(event));
        i := i + 1;
        if Terminal(event) { break; }
      }
      ReadToEnd(read, stream, i);
    }

    method StreamProvider(stream: seq<LlmEvent>) returns (r: Result<Action, Failure>)
      modifies this
      ensures var s := RunProviderStream(old(Value()), live.Value(), stream); r == s.result && Did(s)
    {
      if request.None? { return Err(RequestMissing); }
      var reply, failure := PassOn(stream);
      if reply.Some? {
        assistant := reply;
        return Ok(Default);
      }
      Emit(AgentError(if failure.Some? then failure.value else StreamEnded));
      r := Ok(Fail);
    }

    method DecideAfterAssistant() returns (r: Result<Action, Failure>)
      modifies this
      ensures var s := RunDecide(old(Value()), live.Value()); r == s.result && Did(s)
    {
      if assistant.None? { return Err(AssistantMissing); }
      var a := assistant.value;
      messages := messages + [AssistantMessage(a)];
      match a.stopReason {
        case Stop => r := Ok(Continue);
        case Length => r := Ok(Continue);
        case Error =>
          Emit(AgentError(ModelFailed(a.errorMessage)));
          r := Ok(Fail);
        case Aborted =>
          Emit(AgentError(AbortedRun));
          r := Ok(Abort);
        case ToolUse =>
          pending := Tools.Extract(a);
          r := Ok(UseTools);
      }
    }

    method ExecuteTools(cfg: Config, batch: Tools.Batch) returns (r: Result<Action, Failure>)
      modifies this
      ensures var s := RunExecuteTools(cfg, old(Value()), live.Value(), batch); r == s.result && Did(s)
    {
      allTerminate := false;
      var calls := pending;
      pending := [];
      if calls == [] { return Ok(ContinueProvider); }
      var executions: seq<Tools.Execution>, told: seq<Tools.Event>;
      if Tools.UseSequential(cfg.toolMode, calls, cfg.tools) {
        executions, told := Tools.RunSequential(batch, calls);
      } else {
        var completed := Tools.Completed(batch, Tools.ExecuteAll(batch, calls));
        told := Tools.Starts(calls) + Tools.EndsOf(completed);
        executions := Tools.SortByIndex(completed);
      }
      events := events + ToolEvents(told);
      ghost var ordered;
      messages, ordered := Tools.AppendToolResultMessages(messages, executions);
      allTerminate := AllTerminate(executions);
      r := Ok(Continue);
    }

    method MaybePrepareNextTurn(cfg: Config, choice: Choice) returns (r: Result<Action, Failure>)
      modifies this, live
      ensures var s := RunPrepareNext(cfg, old(Value()), old(live.Value()), choice); r == s.result && Did(s)
    {
      if assistant.None? { return Err(AssistantMissing); }
      var a := assistant.value;
      SyncLiveQueues();
      if a.stopReason.Error? { return Ok(Fail); }
      if a.stopReason.Aborted? { return Ok(Abort); }
      if choice.stop.Err? {
        Emit(AgentError(HookFailed(choice.stop.error)));
        return Ok(Fail);
      }
      if choice.stop.value || (a.stopReason.ToolUse? && allTerminate) {
        Emit(AgentDone(a));
        return Ok(Finish);
      }
      if choice.nextTurn.Err? {
        Emit(AgentError(HookFailed(choice.nextTurn.error)));
        return Ok(Fail);
      }
      if choice.nextTurn.value.Some? { messages := choice.nextTurn.value.value; }
      if a.stopReason.ToolUse? { return Ok(Continue); }
      if followUp == [] && steering == [] {
        Emit(AgentDone(a));
        return Ok(Finish);
      }
      var more, rest := DrainQueue(followUp, cfg.followUpMode);
      followUp := rest;
      messages := messages + more;
      r := Ok(Continue);
    }

    /** Runs a node of the graph. */
    method RunNodeNamed(cfg: Config, node: NodeName, choice: Choice) returns (r: Result<Action, Failure>)
      modifies this, live
      ensures var s := RunNode(cfg, node, old(Value()), old(live.Value()), choice); r == s.result && Did(s)
    {
      match node
      case StartTurn => r := StartTurn(cfg);
      case DrainInput =>
        DrainQueuedInput(cfg);
        r := Ok(Default);
      case Compact => r := MaybeCompactContext(choice.compaction);
      case PrepareRequest => r := PrepareProviderRequest(choice.prepared);
      case BeforeHook => r := ApplyBeforeHook(choice.hooked);
      case ProviderStream => r := StreamProvider(choice.stream);
      case Decide => r := DecideAfterAssistant();
      case ExecuteTools => r := ExecuteTools(cfg, choice.batch);
      case PrepareNext => r := MaybePrepareNextTurn(cfg, choice);
    }
  }

  /** The part of a stream that is read is a beginning of it, and ends with the first terminal event. */
  /** What is read of a stream: everything up to the first terminal event. */
  ghost predicate ReadsTo(stream: seq<LlmEvent>, read: seq<LlmEvent>)
  {
    && read <= stream && (forall i :: 0 <= i < |read| - 1 ==> !Terminal(read[i]))
    && (|read| < |stream| ==> read != [] && Terminal(read[|read| - 1]))
  }

  lemma ReadAt(stream: seq<LlmEvent>, read: seq<LlmEvent>, i: nat)
    requires ReadsTo(stream, read) && i < |read|
    ensures i < |stream| && read[i] == stream[i]
    ensures Terminal(stream[i]) ==> i + 1 == |read|
    ensures !Terminal(stream[i]) && i + 1 < |stream| ==> i + 1 < |read|
  {
  }

  lemma ReadToEnd(read: seq<LlmEvent>, stream: seq<LlmEvent>, i: nat)
    requires i <= |read| <= |stream| && (i == |stream| || i == |read|)
    ensures i == |read| && read[..i] == read
  {
  }

  lemma ToldNext(before: seq<Event>, read: seq<LlmEvent>, i: nat)
    requires i < |read|
    ensures before + Wrapped(read[..i]) + [Llm(read[i])] == before + Wrapped(read[..i + 1])
  {
    assert Wrapped(read[..i + 1]) == Wrapped(read[..i]) + [Llm(read[i])];
  }
}
