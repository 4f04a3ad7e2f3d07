/** Tool events in order: every end comes after a start of its own, in a batch and over whole runs. */
module ToolOrder {
  import Tools
  import opened AgentTurn

  type Call = (string, string)

  /** What an event adds to the number of open runs of a call. */
  function Shift(e: Tools.Event, c: Call): int
  {
    match e
    case ToolStart(id, name, _) => if (id, name) == c then 1 else 0
    case ToolUpdate(_, _, _) => 0
    case ToolEnd(id, name, _) => if (id, name) == c then -1 else 0
  }

  /** How many runs of a call have started and not ended. */
  function Balance(events: seq<Tools.Event>, c: Call): int
  {
    if events == [] then 0 else Balance(events[..|events| - 1], c) + Shift(events[|events| - 1], c)
  }

  /** At no point has a call ended more often than it has started. */
  ghost predicate NeverAhead(events: seq<Tools.Event>, c: Call)
  {
    events == [] || (NeverAhead(events[..|events| - 1], c) && Balance(events, c) >= 0)
  }

  /** Every end follows a start of its own, and everything that started has ended. */
  ghost predicate InOrder(events: seq<Tools.Event>)
  {
    forall c :: NeverAhead(events, c) && Balance(events, c) == 0
  }

  /** `NeverAhead` speaks of every beginning of the events. */
  lemma {:induction false} NeverAheadMeans(events: seq<Tools.Event>, c: Call)
    ensures NeverAhead(events, c) <==> forall n :: 0 <= n <= |events| ==> Balance(events[..n], c) >= 0
  {
    if events == [] {
      assert forall n :: 0 <= n <= |events| ==> events[..n] == [];
    } else {
      var k := |events| - 1;
      NeverAheadMeans(events[..k], c);
      assert forall n :: 0 <= n <= k ==> events[..k][..n] == events[..n];
      assert events[..k + 1] == events;
    }
  }

  lemma {:induction false} BalanceConcat(a: seq<Tools.Event>, b: seq<Tools.Event>, c: Call)
    ensures Balance(a + b, c) == Balance(a, c) + Balance(b, c)
  {
    if b == [] {
      assert a + b == a;
    } else {
      var n := |b| - 1;
      assert (a + b)[..|a| + n] == a + b[..n];
      BalanceConcat(a, b[..n], c);
    }
  }

  /** Events after others that leave enough open. */
  lemma {:induction false} AheadConcat(a: seq<Tools.Event>, b: seq<Tools.Event>, c: Call)
    requires NeverAhead(a, c) && forall n :: 0 <= n <= |b| ==> Balance(a, c) + Balance(b[..n], c) >= 0
    ensures NeverAhead(a + b, c)
    decreases |b|
  {
    if b == [] {
      assert a + b == a;
    } else {
      var n := |b| - 1;
      assert (a + b)[..|a| + n] == a + b[..n];
      forall m | 0 <= m <= n ensures Balance(a, c) + Balance(b[..n][..m], c) >= 0 {
        assert b[..n][..m] == b[..m];
      }
      AheadConcat(a, b[..n], c);
      BalanceConcat(a, b, c);
      assert b[..|b|] == b;
    }
  }

  lemma InOrderConcat(a: seq<Tools.Event>, b: seq<Tools.Event>)
    requires InOrder(a) && InOrder(b)
    ensures InOrder(a + b)
  {
    forall c ensures NeverAhead(a + b, c) && Balance(a + b, c) == 0 {
      assert NeverAhead(a, c) && NeverAhead(b, c);
      NeverAheadMeans(b, c);
      AheadConcat(a, b, c);
      BalanceConcat(a, b, c);
    }
  }

  lemma {:induction false} QuietBalance(events: seq<Tools.Event>, c: Call)
    requires forall k :: 0 <= k < |events| ==> events[k].ToolUpdate?
    ensures Balance(events, c) == 0 && NeverAhead(events, c)
  {
    if events != [] { QuietBalance(events[..|events| - 1], c); }
  }

  // ---------------------------------------------------------------- one batch

  lemma OneEvent(e: Tools.Event, c: Call)
    ensures Balance([e], c) == Shift(e, c)
  {
    assert [e][..0] == [];
  }

  /** A call on its own: start, updates, end. */
  lemma CallInOrder(call: Tools.Request, updates: seq<Tools.Event>, x: Tools.Execution)
    requires x.id == call.id && x.name == call.name && forall k :: 0 <= k < |updates| ==> updates[k].ToolUpdate?
    ensures InOrder([Tools.Start(call)] + updates + [Tools.End(x)])
  {
    var start, end := Tools.Start(call), Tools.End(x);
    forall c ensures NeverAhead([start] + updates + [end], c) && Balance([start] + updates + [end], c) == 0 {
      var open := [start] + updates;
      OneEvent(start, c);
      OneEvent(end, c);
      QuietBalance(updates, c);
      BalanceConcat([start], updates, c);
      BalanceConcat(open, [end], c);
      NeverAheadMeans(updates, c);
      assert NeverAhead([start], c) by { assert [start][..0] == []; }
      AheadConcat([start], updates, c);
      assert (open + [end])[..|open|] == open;
    }
  }

  lemma {:induction false} SequentialInOrder(batch: Tools.Batch, calls: seq<Tools.Request>)
    ensures InOrder(Tools.SequentialEvents(batch, calls))
  {
    if calls != [] {
      var n := |calls| - 1;
      var call := calls[n];
      var before, updates := Tools.SequentialEvents(batch, calls[..n]), Tools.Updates(call, batch.updates(call));
      var end := Tools.End(Tools.Execute(batch, call));
      SequentialInOrder(batch, calls[..n]);
      CallInOrder(call, updates, Tools.Execute(batch, call));
      InOrderConcat(before, [Tools.Start(call)] + updates + [end]);
      assert before + ([Tools.Start(call)] + updates + [end]) == before + [Tools.Start(call)] + updates + [end];
    }
  }

  lemma {:induction false} StartsBalance(calls: seq<Tools.Request>, c: Call)
    ensures Balance(Tools.Starts(calls), c) == multiset(Tools.Calls(calls))[c]
    ensures NeverAhead(Tools.Starts(calls), c)
  {
    if calls != [] {
      var n := |calls| - 1;
      StartsBalance(calls[..n], c);
      assert Tools.Starts(calls)[..n] == Tools.Starts(calls[..n]);
      assert Tools.Calls(calls) == Tools.Calls(calls[..n]) + [(calls[n].id, calls[n].name)];
    }
  }

  lemma {:induction false} EndsBalance(executions: seq<Tools.Execution>, c: Call)
    ensures Balance(Tools.EndsOf(executions), c) + multiset(Tools.ExecutionCalls(executions))[c] == 0
  {
    if executions != [] {
      var n := |executions| - 1;
      EndsBalance(executions[..n], c);
      assert Tools.EndsOf(executions)[..n] == Tools.EndsOf(executions[..n]);
      assert Tools.ExecutionCalls(executions) ==
             Tools.ExecutionCalls(executions[..n]) + [(executions[n].id, executions[n].name)];
    }
  }

  /** The first ends are no more than all of them. */
  lemma PartOfEnds(executions: seq<Tools.Execution>, n: nat, c: Call)
    requires n <= |executions|
    ensures Balance(Tools.EndsOf(executions)[..n], c) + multiset(Tools.ExecutionCalls(executions))[c] >= 0
  {
    EndsBalance(executions[..n], c);
    assert Tools.EndsOf(executions)[..n] == Tools.EndsOf(executions[..n]);
    var all, part := Tools.ExecutionCalls(executions), Tools.ExecutionCalls(executions[..n]);
    assert all == part + all[n..];
  }

  /** In either mode, for every order of completion: every end follows a start of its own, and nothing stays open. */
  lemma BatchInOrder(batch: Tools.Batch, calls: seq<Tools.Request>, sequential: bool)
    ensures InOrder(Tools.BatchEvents(batch, calls, sequential))
  {
    if sequential {
      SequentialInOrder(batch, calls);
    } else {
      var executions := Tools.ExecuteAll(batch, calls);
      var completed := Tools.Completed(batch, executions);
      Tools.CompletedRearranges(batch, executions);
      Tools.CallsOfPermutation(completed, executions);
      assert Tools.ExecutionCalls(executions) == Tools.Calls(calls);
      ParallelInOrder(calls, completed);
    }
  }

  lemma ParallelInOrder(calls: seq<Tools.Request>, completed: seq<Tools.Execution>)
    requires multiset(Tools.ExecutionCalls(completed)) == multiset(Tools.Calls(calls))
    ensures InOrder(Tools.Starts(calls) + Tools.EndsOf(completed))
  {
    var starts, ends := Tools.Starts(calls), Tools.EndsOf(completed);
    forall c ensures NeverAhead(starts + ends, c) && Balance(starts + ends, c) == 0 {
      StartsBalance(calls, c);
      EndsBalance(completed, c);
      BalanceConcat(starts, ends, c);
      forall n | 0 <= n <= |ends| ensures Balance(starts, c) + Balance(ends[..n], c) >= 0 {
        PartOfEnds(completed, n, c);
      }
      AheadConcat(starts, ends, c);
    }
  }

  // ---------------------------------------------------------------- whole runs

  /** The tool events among the events of a run. */
  function ToolPart(events: seq<Event>): seq<Tools.Event>
  {
    if events == [] then [] else
      var n := |events| - 1;
      ToolPart(events[..n]) + if events[n].FromTool? then [events[n].toolEvent] else []
  }

  lemma {:induction false} ToolPartConcat(a: seq<Event>, b: seq<Event>)
    ensures ToolPart(a + b) == ToolPart(a) + ToolPart(b)
  {
    if b == [] {
      assert a + b == a;
    } else {
      var n := |b| - 1;
      assert (a + b)[..|a| + n] == a + b[..n];
      ToolPartConcat(a, b[..n]);
    }
  }

  lemma {:induction false} ToolPartOfTools(events: seq<Tools.Event>)
    ensures ToolPart(ToolEvents(events)) == events
  {
    if events != [] {
      var n := |events| - 1;
      ToolPartOfTools(events[..n]);
      assert ToolEvents(events)[..n] == ToolEvents(events[..n]);
    }
  }

  predicate NoTools(events: seq<Event>) { forall i :: 0 <= i < |events| ==> !events[i].FromTool? }

  lemma NothingInOrder()
    ensures InOrder([])
  {
  }

  lemma {:induction false} NoToolPart(events: seq<Event>)
    requires NoTools(events)
    ensures ToolPart(events) == [] && InOrder(ToolPart(events))
  {
    if events != [] { NoToolPart(events[..|events| - 1]); }
  }

  /** Only one node tells tool events. */
  lemma OtherNodesTellNone(cfg: Config, node: NodeName, ctx: Context, live: Live, choice: Choice)
    requires !node.ExecuteTools?
    ensures NoTools(RunNode(cfg, node, ctx, live, choice).events)
  {
  }

  lemma ToolNodeTells(cfg: Config, ctx: Context, live: Live, batch: Tools.Batch)
    ensures InOrder(ToolPart(RunExecuteTools(cfg, ctx, live, batch).events))
  {
    NothingInOrder();
    if ctx.pending != [] {
      var sequential := Tools.UseSequential(cfg.toolMode, ctx.pending, cfg.tools);
      BatchInOrder(batch, ctx.pending, sequential);
      ToolPartOfTools(Tools.BatchEvents(batch, ctx.pending, sequential));
    }
  }

  lemma NodeInOrder(cfg: Config, node: NodeName, ctx: Context, live: Live, choice: Choice)
    ensures InOrder(ToolPart(RunNode(cfg, node, ctx, live, choice).events))
  {
    if node.ExecuteTools? {
      ToolNodeTells(cfg, ctx, live, choice.batch);
    } else {
      OtherNodesTellNone(cfg, node, ctx, live, choice);
      NoToolPart(RunNode(cfg, node, ctx, live, choice).events);
    }
  }

  /** What the machine has told before a step is told on. */
  lemma StepTells(cfg: Config, w: World, act: Label) returns (more: seq<Event>)
    ensures Advance(cfg, w, act).events == w.events + more
    ensures InOrder(ToolPart(more))
  {
    more := [];
    NothingInOrder();
    assert w.events + [] == w.events;
    if act.Internal? {
      match w.phase
      case Halted =>
      case Top =>
      case Checking(node) => more := CheckTells(w, cfg, act.choice);
      case Running(node) => more := NodeTells(cfg, w, node, act.choice);
    }
  }

  lemma CheckTells(w: World, cfg: Config, choice: Choice) returns (more: seq<Event>)
    requires w.phase.Checking?
    ensures RuntimeStep(cfg, w, choice).events == w.events + more
    ensures InOrder(ToolPart(more))
  {
    more := if w.live.cancelled then [AgentError(AbortedRun)]
      else if w.steps >= MAX_STEPS then [AgentError(MaxSteps)] else [];
    assert w.events + [] == w.events;
    NoToolPart(more);
  }

  lemma NodeTells(cfg: Config, w: World, node: NodeName, choice: Choice) returns (more: seq<Event>)
    requires w.phase == Running(node)
    ensures RuntimeStep(cfg, w, choice).events == w.events + more
    ensures InOrder(ToolPart(more))
  {
    var s := RunNode(cfg, node, w.ctx, w.live, choice);
    var last: seq<Event> := if s.result.Err? then [AgentError(s.result.error)] else [];
    NodeInOrder(cfg, node, w.ctx, w.live, choice);
    NoToolPart(last);
    ToolPartConcat(s.events, last);
    assert ToolPart(s.events) + [] == ToolPart(s.events);
    more := s.events + last;
    LeavesTold(w, s, node, last);
  }

  lemma LeavesTold(w: World, s: Step, node: NodeName, last: seq<Event>)
    requires last == if s.result.Err? then [AgentError(s.result.error)] else []
    ensures AfterNode(Took(w, s), node, s.result).events == w.events + (s.events + last)
  {
  }

  /** In every run, whatever happens around it, every tool end follows a start of its own, and between two steps no call
      is open. */
  lemma {:induction false} RunInOrder(cfg: Config, live: Live, acts: seq<Label>)
    ensures InOrder(ToolPart(AdvanceAll(cfg, Begin(live), acts).events))
  {
    if acts != [] {
      var n := |acts| - 1;
      var w := AdvanceAll(cfg, Begin(live), acts[..n]);
      RunInOrder(cfg, live, acts[..n]);
      var more := StepTells(cfg, w, acts[n]);
      ToolPartConcat(w.events, more);
      InOrderConcat(ToolPart(w.events), ToolPart(more));
    }
  }
}
