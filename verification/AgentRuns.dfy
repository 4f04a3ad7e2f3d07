/** Whole runs of the agent: every reachable state of the machine. */
module AgentRuns {
  import opened Messages
  import opened AgentTurn
  import opened AgentProofs

  // ---------------------------------------------------------------- a node's step, part by part

  lemma PayloadConcat(a: seq<Entry>, b: seq<Entry>)
    ensures Payload(a + b) == Payload(a) + Payload(b)
  {
  }

  lemma Regroup<T>(given: seq<T>, more: seq<T>, a: seq<T>, b: seq<T>, a0: seq<T>, b0: seq<T>)
    requires more + a + b == a0 + b0
    ensures (given + more) + a + b == given + a0 + b0
    ensures (given + more) + [] + (a + b) == given + a0 + b0
  {
    assert (given + more) + a + b == given + (more + a + b);
    assert given + (a0 + b0) == given + a0 + b0;
    assert (given + more) + [] + (a + b) == (given + more) + a + b;
  }

  /** The machine `w'` after step `s` of a node was taken in `w`, field by field. */
  ghost predicate Reaches(w: World, node: NodeName, s: Step, w': World)
  {
    && w'.phase == PhaseAfter(node, s.result)
    && w'.log == w.log + s.appended && w'.base == w.base && w'.pristine == (w.pristine && !s.replaced)
    && w'.enqueuedSteering == w.enqueuedSteering && w'.enqueuedFollowUp == w.enqueuedFollowUp
    && w'.events == w.events + s.events + (if s.result.Err? then [AgentError(s.result.error)] else [])
    && (InFlow(w') ==> w'.ctx == s.ctx && w'.live == s.live && w'.steps == w.steps + 1)
    && (!InFlow(w') ==> w'.live == ApplyToState(s.ctx, s.live) && w'.turn == s.ctx.turn)
  }

  lemma AfterNodeReaches(w: World, node: NodeName, s: Step)
    ensures Reaches(w, node, s, AfterNode(Took(w, s), node, s.result))
  {
  }

  lemma ReachedQueues(w: World, node: NodeName, s: Step, w': World)
    requires QueuesConserved(w) && w.phase == Running(node) && ConservesQueues(s, w.ctx, w.live)
    requires Reaches(w, node, s, w')
    ensures QueuesConserved(w')
  {
    DeliveredConcat(w.log, s.appended, Steering);
    DeliveredConcat(w.log, s.appended, FollowUp);
    Regroup(Delivered(w.log, Steering), Delivered(s.appended, Steering), s.ctx.steering, s.live.steering,
            w.ctx.steering, w.live.steering);
    Regroup(Delivered(w.log, FollowUp), Delivered(s.appended, FollowUp), s.ctx.followUp, s.live.followUp,
            w.ctx.followUp, w.live.followUp);
  }

  lemma LogGoesOn(w: World, s: Step, log: seq<Entry>, pristine: bool)
    requires MessagesLogged(w) && w.phase.Running? && LogsMessages(s, w.ctx)
    requires log == w.log + s.appended && pristine == (w.pristine && !s.replaced)
    ensures pristine ==> s.ctx.messages == w.base + Payload(log)
  {
    PayloadConcat(w.log, s.appended);
    assert w.base + Payload(w.log) + Payload(s.appended) == w.base + (Payload(w.log) + Payload(s.appended));
  }

  lemma ReachedMessages(w: World, node: NodeName, s: Step, w': World)
    requires MessagesLogged(w) && w.phase == Running(node) && LogsMessages(s, w.ctx) && Reaches(w, node, s, w')
    ensures MessagesLogged(w')
  {
    LogGoesOn(w, s, w'.log, w'.pristine);
  }

  lemma ReachedUser(w: World, node: NodeName, s: Step, w': World)
    requires UserQueues(s.ctx, s.live) && Reaches(w, node, s, w')
    ensures QueuesUser(w')
  {
  }

  lemma ReachedTrace(cfg: Config, w: World, node: NodeName, s: Step, w': World)
    requires TraceSound(cfg, w) && w.phase == Running(node) && Reaches(w, node, s, w')
    requires KeepsTrace(cfg, node, s, ReadAll(FRESH, w.events))
    ensures TraceSound(cfg, w')
  {
    var told := w.events + s.events;
    ReadConcat(FRESH, w.events, s.events);
    if s.result.Err? {
      ReadConcat(FRESH, told, [AgentError(s.result.error)]);
      ReadOne(ReadAll(FRESH, told), AgentError(s.result.error));
    } else {
      assert told + [] == told;
    }
  }

  lemma ReachedPairs(w: World, node: NodeName, s: Step, w': World)
    requires KeepsPairs(node, s, Payload(w.log) + Payload(s.appended)) && Reaches(w, node, s, w')
    ensures CallsAnswered(w')
  {
    PayloadConcat(w.log, s.appended);
  }

  lemma ReachedAt(w: World, node: NodeName, s: Step, w': World)
    requires AtNode(w) && w.phase == Running(node) && PreparesNext(node, s) && Reaches(w, node, s, w')
    ensures AtNode(w')
  {
  }

  lemma ReachedCore(cfg: Config, w: World, node: NodeName, s: Step, w': World)
    requires Core(cfg, w) && w.phase == Running(node) && Reaches(w, node, s, w')
    requires ConservesQueues(s, w.ctx, w.live) && LogsMessages(s, w.ctx) && PreparesNext(node, s)
    requires KeepsTrace(cfg, node, s, ReadAll(FRESH, w.events))
    ensures Core(cfg, w')
  {
    ReachedQueues(w, node, s, w');
    ReachedMessages(w, node, s, w');
    ReachedTrace(cfg, w, node, s, w');
    ReachedAt(w, node, s, w');
  }

  /** Everything a node's step is known for. */
  lemma NodeStep(cfg: Config, w: World, node: NodeName, choice: Choice, s: Step)
    requires Core(cfg, w) && w.phase == Running(node) && s == RunNode(cfg, node, w.ctx, w.live, choice)
    ensures ConservesQueues(s, w.ctx, w.live) && LogsMessages(s, w.ctx) && PreparesNext(node, s)
    ensures KeepsTrace(cfg, node, s, ReadAll(FRESH, w.events))
  {
    NodeConservesQueues(cfg, node, w.ctx, w.live, choice);
    NodeLogsMessages(cfg, node, w.ctx, w.live, choice);
    NodeKeepsTrace(cfg, node, w.ctx, w.live, choice, ReadAll(FRESH, w.events));
    NodePreparesNext(cfg, node, w.ctx, w.live, choice);
  }

  lemma RunningKeepsCore(cfg: Config, w: World, node: NodeName, choice: Choice)
    requires Core(cfg, w) && w.phase == Running(node)
    ensures Core(cfg, RuntimeStep(cfg, w, choice))
  {
    var s := RunNode(cfg, node, w.ctx, w.live, choice);
    NodeStep(cfg, w, node, choice, s);
    AfterNodeReaches(w, node, s);
    ReachedCore(cfg, w, node, s, AfterNode(Took(w, s), node, s.result));
  }

  lemma RunningKeepsPairs(cfg: Config, w: World, node: NodeName, choice: Choice)
    requires Inv(cfg, w) && w.phase == Running(node)
    ensures var w' := RuntimeStep(cfg, w, choice); QueuesUser(w') && CallsAnswered(w')
  {
    var s := RunNode(cfg, node, w.ctx, w.live, choice);
    NodeKeepsUserQueues(cfg, node, w.ctx, w.live, choice);
    NodeKeepsPairs(cfg, node, w.ctx, w.live, choice, Payload(w.log));
    AfterNodeReaches(w, node, s);
    ReachedUser(w, node, s, AfterNode(Took(w, s), node, s.result));
    ReachedPairs(w, node, s, AfterNode(Took(w, s), node, s.result));
  }

  // ---------------------------------------------------------------- the other steps

  lemma TopKeepsCore(cfg: Config, w: World, choice: Choice)
    requires Core(cfg, w) && w.phase.Top?
    ensures Core(cfg, RuntimeStep(cfg, w, choice))
  {
    assert Delivered(w.log, Steering) + w.live.steering + [] == Delivered(w.log, Steering) + [] + w.live.steering;
    assert Delivered(w.log, FollowUp) + w.live.followUp + [] == Delivered(w.log, FollowUp) + [] + w.live.followUp;
  }

  lemma CutOffKeepsQueues(w: World, events: seq<Event>)
    requires QueuesConserved(w) && InFlow(w)
    ensures QueuesConserved(Leave(w, events, Halted))
  {
    Regroup(Delivered(w.log, Steering), [], w.ctx.steering, w.live.steering, w.ctx.steering, w.live.steering);
    Regroup(Delivered(w.log, FollowUp), [], w.ctx.followUp, w.live.followUp, w.ctx.followUp, w.live.followUp);
    assert Delivered(w.log, Steering) + [] == Delivered(w.log, Steering);
    assert Delivered(w.log, FollowUp) + [] == Delivered(w.log, FollowUp);
  }

  /** A cancelled run is cut off with one error, and what it held goes back to the queues. */
  lemma CutOffKeepsCore(cfg: Config, w: World, w': World)
    requires Core(cfg, w) && InFlow(w) && w' == Leave(w, [AgentError(AbortedRun)], Halted)
    ensures Core(cfg, w')
  {
    CutOffKeepsQueues(w, [AgentError(AbortedRun)]);
    ReadConcat(FRESH, w.events, [AgentError(AbortedRun)]);
    ReadOne(ReadAll(FRESH, w.events), AgentError(AbortedRun));
  }

  lemma CheckingKeepsCore(cfg: Config, w: World, choice: Choice)
    requires Core(cfg, w) && w.phase.Checking?
    ensures Core(cfg, RuntimeStep(cfg, w, choice))
  {
    if w.live.cancelled {
      CutOffKeepsCore(cfg, w, Leave(w, [AgentError(AbortedRun)], Halted));
    }
  }

  lemma OutsideKeepsQueues(w: World, act: Label, cfg: Config)
    requires QueuesConserved(w) && !act.Internal?
    ensures QueuesConserved(Advance(cfg, w, act))
  {
    var held := if InFlow(w) then w.ctx else w.ctx.(steering := [], followUp := []);
    match act
    case Steer(id, text) =>
      var m := UserText(id, text);
      assert Delivered(w.log, Steering) + held.steering + (w.live.steering + [m]) == w.enqueuedSteering + [m];
    case FollowWith(id, text) =>
      var m := UserText(id, text);
      assert Delivered(w.log, FollowUp) + held.followUp + (w.live.followUp + [m]) == w.enqueuedFollowUp + [m];
    case Cancel =>
  }

  lemma OutsideKeepsCore(cfg: Config, w: World, act: Label)
    requires Core(cfg, w) && !act.Internal?
    ensures Core(cfg, Advance(cfg, w, act))
  {
    OutsideKeepsQueues(w, act, cfg);
  }

  lemma OutsideKeepsPairs(cfg: Config, w: World, act: Label)
    requires Inv(cfg, w) && !act.Internal?
    ensures var w' := Advance(cfg, w, act); QueuesUser(w') && CallsAnswered(w')
  {
  }

  /** Steps of the run that append nothing keep calls answered, or cut them off. */
  lemma QuietStepKeepsPairs(cfg: Config, w: World, choice: Choice)
    requires Inv(cfg, w) && !w.phase.Running?
    ensures var w' := RuntimeStep(cfg, w, choice); QueuesUser(w') && CallsAnswered(w')
  {
    if w.phase.Checking? { CheckKeepsPairs(cfg, w, choice); }
  }

  lemma CheckKeepsPairs(cfg: Config, w: World, choice: Choice)
    requires QueuesUser(w) && CallsAnswered(w) && w.phase.Checking?
    ensures var w' := RuntimeStep(cfg, w, choice); QueuesUser(w') && CallsAnswered(w')
  {
    assert CutOff(Payload(w.log));
  }

  lemma AdvanceKeepsCore(cfg: Config, w: World, act: Label)
    requires Core(cfg, w)
    ensures Core(cfg, Advance(cfg, w, act))
  {
    if !act.Internal? {
      OutsideKeepsCore(cfg, w, act);
    } else {
      match w.phase
      case Top => TopKeepsCore(cfg, w, act.choice);
      case Checking(_) => CheckingKeepsCore(cfg, w, act.choice);
      case Running(node) => RunningKeepsCore(cfg, w, node, act.choice);
      case Halted =>
    }
  }

  lemma AdvanceKeepsInv(cfg: Config, w: World, act: Label)
    requires Inv(cfg, w)
    ensures Inv(cfg, Advance(cfg, w, act))
  {
    AdvanceKeepsCore(cfg, w, act);
    if !act.Internal? {
      OutsideKeepsPairs(cfg, w, act);
    } else if w.phase.Running? {
      RunningKeepsPairs(cfg, w, w.phase.node, act.choice);
    } else {
      QuietStepKeepsPairs(cfg, w, act.choice);
    }
  }

  /** Every run, from any state. */
  lemma {:induction false} RunKeepsCore(cfg: Config, live: Live, acts: seq<Label>)
    ensures Core(cfg, AdvanceAll(cfg, Begin(live), acts))
    decreases |acts|
  {
    if acts != [] {
      RunKeepsCore(cfg, live, acts[..|acts| - 1]);
      AdvanceKeepsCore(cfg, AdvanceAll(cfg, Begin(live), acts[..|acts| - 1]), acts[|acts| - 1]);
    }
  }

  /** Every run that starts with user messages in its queues. */
  lemma {:induction false} RunKeepsInv(cfg: Config, live: Live, acts: seq<Label>)
    requires AllUser(live.steering) && AllUser(live.followUp)
    ensures Inv(cfg, AdvanceAll(cfg, Begin(live), acts))
    decreases |acts|
  {
    if acts == [] {
      RunKeepsCore(cfg, live, acts);
    } else {
      RunKeepsInv(cfg, live, acts[..|acts| - 1]);
      AdvanceKeepsInv(cfg, AdvanceAll(cfg, Begin(live), acts[..|acts| - 1]), acts[|acts| - 1]);
    }
  }

  // ---------------------------------------------------------------- what the invariant says about events

  /** The turn numbers announced, in order. */
  function TurnNumbers(events: seq<Event>): (r: seq<nat>)
  {
    if events == [] then [] else
      var n := |events| - 1;
      TurnNumbers(events[..n]) + if events[n].TurnStart? then [events[n].turn] else []
  }

  function OneTo(k: nat): (r: seq<nat>)
    ensures |r| == k && forall i :: 0 <= i < k ==> r[i] == i + 1
  {
    seq(k, i => i + 1)
  }

  /** A turn starts strictly between two positions. */
  ghost predicate TurnBetween(events: seq<Event>, i: int, j: int)
  {
    exists k :: i < k < j && 0 <= k < |events| && events[k].TurnStart?
  }

  lemma {:induction false} TurnsInOrder(events: seq<Event>)
    requires ReadAll(FRESH, events).Trace?
    ensures TurnNumbers(events) == OneTo(ReadAll(FRESH, events).turns)
  {
    if events != [] {
      TurnsInOrder(events[..|events| - 1]);
    }
  }

  lemma {:induction false} OneEnd(events: seq<Event>)
    requires ReadAll(FRESH, events).Trace?
    ensures forall i :: 0 <= i < |events| - 1 ==> !Final(events[i])
    ensures ReadAll(FRESH, events).over <==> events != [] && Final(events[|events| - 1])
  {
    if events != [] {
      OneEnd(events[..|events| - 1]);
    }
  }

  /** Each request belongs to a turn of its own. */
  ghost predicate RequestsApart(events: seq<Event>)
  {
    forall i, j :: 0 <= i < j < |events| && events[i].BeforeRequest? && events[j].BeforeRequest? ==>
      TurnBetween(events, i, j)
  }

  ghost predicate RequestsSettled(events: seq<Event>)
  {
    forall i :: 0 <= i < |events| && events[i].BeforeRequest? ==> TurnBetween(events, i, |events|)
  }

  lemma BetweenInPrefix(events: seq<Event>, i: int, j: int)
    requires events != [] && TurnBetween(events[..|events| - 1], i, j)
    ensures TurnBetween(events, i, j)
  {
    var k :| i < k < j && 0 <= k < |events| - 1 && events[..|events| - 1][k].TurnStart?;
    assert events[k].TurnStart?;
  }

  lemma {:induction false} OneRequestPerTurn(events: seq<Event>)
    requires ReadAll(FRESH, events).Trace?
    ensures RequestsApart(events)
    ensures !ReadAll(FRESH, events).requested ==> RequestsSettled(events)
  {
    if events != [] {
      var n := |events| - 1;
      var before := events[..n];
      OneRequestPerTurn(before);
      forall i, j | 0 <= i < j < |events| && events[i].BeforeRequest? && events[j].BeforeRequest?
        ensures TurnBetween(events, i, j)
      {
        if j < n {
          assert TurnBetween(before, i, j);
        } else {
          assert TurnBetween(before, i, |before|);
        }
        BetweenInPrefix(events, i, j);
      }
      if !ReadAll(FRESH, events).requested {
        forall i | 0 <= i < |events| && events[i].BeforeRequest?
          ensures TurnBetween(events, i, |events|)
        {
          if events[n].TurnStart? {
            assert i < n < |events|;
          } else {
            assert TurnBetween(before, i, |before|);
            BetweenInPrefix(events, i, n);
          }
        }
      }
    }
  }

  // ---------------------------------------------------------------- the theorems

  /** Every run, whatever happens around it: turns are announced 1, 2, ..., k with k within the limit, each turn
      sends at most one request, and one event, the last, ends the run exactly when it has halted. */
  lemma EventProtocol(cfg: Config, live: Live, acts: seq<Label>) returns (k: nat)
    ensures var w := AdvanceAll(cfg, Begin(live), acts);
            && TurnNumbers(w.events) == OneTo(k) && (cfg.maxTurns.Some? ==> k <= cfg.maxTurns.value)
            && RequestsApart(w.events)
            && (forall i :: 0 <= i < |w.events| - 1 ==> !Final(w.events[i]))
            && (w.phase.Halted? <==> w.events != [] && Final(w.events[|w.events| - 1]))
  {
    RunKeepsCore(cfg, live, acts);
    var w := AdvanceAll(cfg, Begin(live), acts);
    TurnsInOrder(w.events);
    OneEnd(w.events);
    OneRequestPerTurn(w.events);
    k := ReadAll(FRESH, w.events).turns;
  }

  /** The messages that other tasks enqueued for steering, in order. */
  function Steered(acts: seq<Label>): (r: seq<Message>)
  {
    if acts == [] then [] else
      var n := |acts| - 1;
      Steered(acts[..n]) + match acts[n] case Steer(id, text) => [UserText(id, text)] case _ => []
  }

  function FollowedUp(acts: seq<Label>): (r: seq<Message>)
  {
    if acts == [] then [] else
      var n := |acts| - 1;
      FollowedUp(acts[..n]) + match acts[n] case FollowWith(id, text) => [UserText(id, text)] case _ => []
  }

  lemma {:induction false} EnqueuedIs(cfg: Config, live: Live, acts: seq<Label>)
    ensures var w := AdvanceAll(cfg, Begin(live), acts);
            && w.enqueuedSteering == live.steering + Steered(acts)
            && w.enqueuedFollowUp == live.followUp + FollowedUp(acts)
            && w.base == live.messages
    decreases |acts|
  {
    if acts != [] {
      var before := acts[..|acts| - 1];
      EnqueuedIs(cfg, live, before);
      AdvanceEnqueues(cfg, AdvanceAll(cfg, Begin(live), before), acts[|acts| - 1]);
    }
  }

  lemma AdvanceEnqueues(cfg: Config, w: World, act: Label)
    ensures var w' := Advance(cfg, w, act);
            && w'.enqueuedSteering == w.enqueuedSteering
              + (match act case Steer(id, text) => [UserText(id, text)] case _ => [])
            && w'.enqueuedFollowUp == w.enqueuedFollowUp
              + (match act case FollowWith(id, text) => [UserText(id, text)] case _ => [])
            && w'.base == w.base
  {
  }

  /** Every run: what was delivered, what the context of the current turn holds and what is still queued make up
      everything enqueued before and during the run, in order, for both queues. Between turns and after the end
      the context holds nothing. */
  lemma QueueConservation(cfg: Config, live: Live, acts: seq<Label>)
    ensures var w := AdvanceAll(cfg, Begin(live), acts);
            if InFlow(w) then
              && Delivered(w.log, Steering) + w.ctx.steering + w.live.steering == live.steering + Steered(acts)
              && Delivered(w.log, FollowUp) + w.ctx.followUp + w.live.followUp == live.followUp + FollowedUp(acts)
            else
              && Delivered(w.log, Steering) + w.live.steering == live.steering + Steered(acts)
              && Delivered(w.log, FollowUp) + w.live.followUp == live.followUp + FollowedUp(acts)
  {
    RunKeepsCore(cfg, live, acts);
    EnqueuedIs(cfg, live, acts);
    var w := AdvanceAll(cfg, Begin(live), acts);
    assert Delivered(w.log, Steering) + [] == Delivered(w.log, Steering);
    assert Delivered(w.log, FollowUp) + [] == Delivered(w.log, FollowUp);
  }

  /** Whenever the outer loop goes on, every message of the run that asks for tools is followed by the results
      of its calls; and unless something replaced them, those are the messages the agent has. */
  lemma TranscriptPairing(cfg: Config, live: Live, acts: seq<Label>)
    requires AllUser(live.steering) && AllUser(live.followUp)
    requires AdvanceAll(cfg, Begin(live), acts).phase.Top?
    ensures var w := AdvanceAll(cfg, Begin(live), acts);
            && Paired(Payload(w.log))
            && (w.pristine ==> w.live.messages == live.messages + Payload(w.log))
  {
    RunKeepsInv(cfg, live, acts);
    EnqueuedIs(cfg, live, acts);
  }

  /** The step limit of the flow is out of reach: a run through the graph visits fewer nodes. */
  lemma StepLimitOutOfReach(cfg: Config, live: Live, acts: seq<Label>)
    requires InFlow(AdvanceAll(cfg, Begin(live), acts))
    ensures AdvanceAll(cfg, Begin(live), acts).steps <= 8 < MAX_STEPS
  {
    RunKeepsCore(cfg, live, acts);
  }
}
