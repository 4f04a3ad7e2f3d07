/** The outer loop of the turn runtime on its objects while other tasks enqueue and cancel, and what the theorems about
runs say of it. */
module Runtime {
  import opened Basics
  import opened Messages
  import opened AgentTurn
  import AgentProofs
  import AgentRuns
  import Halting
  import ToolOrder
  import opened TurnContext

  // ---------------------------------------------------------------- interleavings

  /** What happens around one step of a run: what other tasks do before it, and what the outside answers to it. */
  datatype Moment = Moment(others: seq<Label>, choice: Choice)

  predicate Outside(acts: seq<Label>) { forall i :: 0 <= i < |acts| ==> !acts[i].Internal? }

  ghost predicate IsPlan(plan: nat -> Moment) { forall n: nat :: Outside(plan(n).others) }

  /** The first `n` steps of a run with everything that happens before them. */
  function Script(plan: nat -> Moment, n: nat): seq<Label>
  {
    if n == 0 then [] else Script(plan, n - 1) + (plan(n - 1).others + [Internal(plan(n - 1).choice)])
  }

  /** The machine after them. */
  function At(cfg: Config, origin: Live, plan: nat -> Moment, n: nat): World
  {
    AdvanceAll(cfg, Begin(origin), Script(plan, n))
  }

  /** A list of steps, one after the other. */
  function Fold<S>(step: (S, Label) -> S, s: S, acts: seq<Label>): S
  {
    if acts == [] then s else step(Fold(step, s, acts[..|acts| - 1]), acts[|acts| - 1])
  }

  lemma {:induction false} FoldConcat<S>(step: (S, Label) -> S, s: S, a: seq<Label>, b: seq<Label>)
    ensures Fold(step, s, a + b) == Fold(step, Fold(step, s, a), b)
    decreases |b|
  {
    if b == [] {
      assert a + b == a;
    } else {
      var n := |b| - 1;
      assert (a + b)[..|a| + n] == a + b[..n];
      FoldConcat(step, s, a, b[..n]);
    }
  }

  function Advancing(cfg: Config): (World, Label) -> World { (w, act) => Advance(cfg, w, act) }

  lemma {:induction false} AdvanceIsFold(cfg: Config, w: World, acts: seq<Label>)
    ensures AdvanceAll(cfg, w, acts) == Fold(Advancing(cfg), w, acts)
    decreases |acts|
  {
    if acts != [] { AdvanceIsFold(cfg, w, acts[..|acts| - 1]); }
  }

  lemma AdvanceConcat(cfg: Config, w: World, a: seq<Label>, b: seq<Label>)
    ensures AdvanceAll(cfg, w, a + b) == AdvanceAll(cfg, AdvanceAll(cfg, w, a), b)
  {
    AdvanceIsFold(cfg, w, a + b);
    AdvanceIsFold(cfg, w, a);
    AdvanceIsFold(cfg, AdvanceAll(cfg, w, a), b);
    FoldConcat(Advancing(cfg), w, a, b);
  }

  lemma AtStep(cfg: Config, origin: Live, plan: nat -> Moment, n: nat)
    ensures At(cfg, origin, plan, n + 1) ==
            RuntimeStep(cfg, AdvanceAll(cfg, At(cfg, origin, plan, n), plan(n).others), plan(n).choice)
  {
    var others, last := plan(n).others, [Internal(plan(n).choice)];
    var w := At(cfg, origin, plan, n);
    AdvanceConcat(cfg, Begin(origin), Script(plan, n), others + last);
    AdvanceConcat(cfg, w, others, last);
    LastStep(cfg, AdvanceAll(cfg, w, others), plan(n).choice);
  }

  lemma LastStep(cfg: Config, w: World, choice: Choice)
    ensures AdvanceAll(cfg, w, [Internal(choice)]) == RuntimeStep(cfg, w, choice)
  {
    var act := Internal(choice);
    assert [act][..0] == [];
    assert AdvanceAll(cfg, w, []) == w;
  }

  /** Every interleaving is such a script, followed by what other tasks do after the last step. */
  lemma {:induction false} EveryInterleaving(acts: seq<Label>, idle: Choice)
    returns (plan: nat -> Moment, n: nat, rest: seq<Label>)
    ensures IsPlan(plan) && Outside(rest) && acts == Script(plan, n) + rest
    ensures forall i: nat :: i >= n ==> plan(i) == Moment([], idle)
    decreases |acts|
  {
    if acts == [] {
      plan, n, rest := (_: nat) => Moment([], idle), 0, [];
    } else {
      var last := acts[|acts| - 1];
      var before, k, others := EveryInterleaving(acts[..|acts| - 1], idle);
      if last.Internal? {
        plan := (i: nat) => if i == k then Moment(others, last.choice) else before(i);
        n, rest := k + 1, [];
        SamePlan(before, plan, k);
        assert acts == Script(plan, k) + others + [last] == Script(plan, n) + rest;
      } else {
        plan, n, rest := before, k, others + [last];
        assert acts == Script(plan, n) + rest;
      }
    }
  }

  lemma {:induction false} SamePlan(a: nat -> Moment, b: nat -> Moment, n: nat)
    requires forall i: nat :: i < n ==> a(i) == b(i)
    ensures Script(a, n) == Script(b, n)
  {
    if n > 0 { SamePlan(a, b, n - 1); }
  }

  // ---------------------------------------------------------------- what other tasks do

  function LiveAfter(live: Live, acts: seq<Label>): Live
  {
    if acts == [] then live else
      var l := LiveAfter(live, acts[..|acts| - 1]);
      match acts[|acts| - 1]
      case Internal(_) => l
      case Steer(id, text) => l.(steering := l.steering + [UserText(id, text)])
      case FollowWith(id, text) => l.(followUp := l.followUp + [UserText(id, text)])
      case Cancel => l.(cancelled := true)
  }

  /** Other tasks take their steps on the shared state. */
  method Interfere(state: AgentState, acts: seq<Label>)
    requires Outside(acts)
    modifies state
    ensures state.Value() == LiveAfter(old(state.Value()), acts)
  {
    for i := 0 to |acts|
      invariant state.Value() == LiveAfter(old(state.Value()), acts[..i])
    {
      assert acts[..i + 1][..i] == acts[..i];
      match acts[i]
      case Internal(_) =>
      case Steer(id, text) => state.PushSteering(id, text);
      case FollowWith(id, text) => state.PushFollowUp(id, text);
      case Cancel => state.AbortRun();
    }
    assert acts[..|acts|] == acts;
  }

  // ---------------------------------------------------------------- the machine beside the objects

  /** The machine is in this phase on what the objects hold. */
  ghost predicate Mirrors(w: World, phase: Phase, ctx: Context, live: Live, events: seq<Event>, steps: nat)
  {
    w.phase == phase && w.ctx == ctx && w.live == live && w.events == events && w.steps == steps
  }

  /** The machine is at the top of the outer loop. */
  ghost predicate AtTop(w: World, live: Live, turn: nat, events: seq<Event>)
  {
    w.phase.Top? && w.live == live && w.turn == turn && w.events == events
  }

  /** The machine has left the flow with this result; the context is still to be written back. */
  ghost predicate Left(w: World, r: Result<Action, Failure>, ctx: Context, live: Live, events: seq<Event>)
  {
    && w.live == ApplyToState(ctx, live)
    && w.events == events + (if r.Err? then [AgentError(r.error)] else [])
    && w.phase == (if r == Ok(Continue) || r == Ok(ContinueProvider) then Top else Halted)
    && (w.phase.Top? ==> w.turn == ctx.turn)
  }

  /** Where the machine is after a node: at the next one, or out of the flow. */
  ghost predicate Moves(w: World, node: NodeName, r: Result<Action, Failure>, ctx: Context, live: Live,
                        events: seq<Event>, steps: nat)
  {
    var phase := PhaseAfter(node, r);
    if phase.Checking? then Mirrors(w, phase, ctx, live, events, steps + 1) else Left(w, r, ctx, live, events)
  }

  /** Other tasks change the shared state, and what is history, only. */
  lemma {:induction false} OthersTouchLive(cfg: Config, w: World, acts: seq<Label>)
    requires Outside(acts)
    ensures var v := AdvanceAll(cfg, w, acts);
            && v.live == LiveAfter(w.live, acts) && v.phase == w.phase && v.ctx == w.ctx && v.events == w.events
            && v.steps == w.steps && v.turn == w.turn
    decreases |acts|
  {
    if acts != [] { OthersTouchLive(cfg, w, acts[..|acts| - 1]); }
  }

  lemma Disturbed(cfg: Config, w: World, acts: seq<Label>, phase: Phase, ctx: Context, live: Live, events: seq<Event>,
                  steps: nat)
    requires Mirrors(w, phase, ctx, live, events, steps) && Outside(acts)
    ensures Mirrors(AdvanceAll(cfg, w, acts), phase, ctx, LiveAfter(live, acts), events, steps)
  {
    OthersTouchLive(cfg, w, acts);
  }

  lemma DisturbedAtTop(cfg: Config, w: World, acts: seq<Label>, live: Live, turn: nat, events: seq<Event>)
    requires AtTop(w, live, turn, events) && Outside(acts)
    ensures AtTop(AdvanceAll(cfg, w, acts), LiveAfter(live, acts), turn, events)
  {
    OthersTouchLive(cfg, w, acts);
  }

  /** The look at the token before a node. */
  lemma LookPasses(cfg: Config, w: World, choice: Choice, node: NodeName, ctx: Context, live: Live, events: seq<Event>,
                   steps: nat)
    requires Mirrors(w, Checking(node), ctx, live, events, steps) && !live.cancelled && steps < MAX_STEPS
    ensures Mirrors(RuntimeStep(cfg, w, choice), Running(node), ctx, live, events, steps)
  {
  }

  lemma LookCutsOff(cfg: Config, w: World, choice: Choice, node: NodeName, ctx: Context, live: Live,
                    events: seq<Event>, steps: nat, failure: Failure)
    requires Mirrors(w, Checking(node), ctx, live, events, steps)
    requires if live.cancelled then failure == AbortedRun else steps >= MAX_STEPS && failure == Failure.MaxSteps
    ensures Left(RuntimeStep(cfg, w, choice), Err(failure), ctx, live, events)
  {
  }

  /** The node itself. */
  lemma NodeMoves(cfg: Config, w: World, choice: Choice, node: NodeName, ctx: Context, live: Live, events: seq<Event>,
                  steps: nat, s: Step)
    requires Mirrors(w, Running(node), ctx, live, events, steps) && s == RunNode(cfg, node, ctx, live, choice)
    ensures Moves(RuntimeStep(cfg, w, choice), node, s.result, s.ctx, s.live, events + s.events, steps)
  {
    StepMoves(w, AfterNode(Took(w, s), node, s.result), node, s, events, steps);
  }

  lemma StepMoves(w: World, w': World, node: NodeName, s: Step, events: seq<Event>, steps: nat)
    requires w.events == events && w.steps == steps && w' == AfterNode(Took(w, s), node, s.result)
    ensures Moves(w', node, s.result, s.ctx, s.live, events + s.events, steps)
  {
    assert events + s.events + [] == events + s.events;
  }

  lemma Told(w: World, node: NodeName, r: Result<Action, Failure>, ctx: Context, live: Live, told: seq<Event>,
             before: seq<Event>, more: seq<Event>, steps: nat)
    requires Moves(w, node, r, ctx, live, told + before + more, steps)
    ensures Moves(w, node, r, ctx, live, told + (before + more), steps)
  {
    assert told + (before + more) == told + before + more;
  }

  lemma MovesWhere(w: World, node: NodeName, r: Result<Action, Failure>, next: Option<NodeName>, ctx: Context,
                   live: Live, events: seq<Event>, steps: nat)
    requires Moves(w, node, r, ctx, live, events, steps) && next == if r.Ok? then Next(node, r.value) else None
    ensures next.Some? ==> Mirrors(w, Checking(next.value), ctx, live, events, steps + 1)
    ensures next.None? ==> Left(w, r, ctx, live, events)
  {
  }

  /** The snapshot at the top of the loop. */
  lemma Snapshot(cfg: Config, w: World, choice: Choice, live: Live, turn: nat, events: seq<Event>)
    requires AtTop(w, live, turn, events)
    ensures Mirrors(RuntimeStep(cfg, w, choice), Checking(StartTurn), FromLive(live, turn),
                    live.(steering := [], followUp := []), events, 0)
  {
  }

  // ---------------------------------------------------------------- runs beside a plan

  /** A point of a run where the machine's step is looked at. */
  ghost predicate Tick(n: nat) { true }

  /** The machine step by step, among what other tasks do. */
  ghost predicate IsRun(cfg: Config, plan: nat -> Moment, run: nat -> World)
  {
    && IsPlan(plan)
    && forall n: nat {:trigger Tick(n)} :: Tick(n) ==> run(n + 1) == Goes(cfg, run(n), plan(n))
  }

  function Goes(cfg: Config, w: World, moment: Moment): World
  {
    RuntimeStep(cfg, AdvanceAll(cfg, w, moment.others), moment.choice)
  }

  lemma RunGoesOn(cfg: Config, plan: nat -> Moment, run: nat -> World, n: nat)
    requires IsRun(cfg, plan, run)
    ensures run(n + 1) == RuntimeStep(cfg, AdvanceAll(cfg, run(n), plan(n).others), plan(n).choice)
    ensures Outside(plan(n).others)
  {
    assert Tick(n);
  }

  /** The machine after each number of its own steps. */
  function Tape(cfg: Config, origin: Live, plan: nat -> Moment): nat -> World
  {
    (n: nat) => At(cfg, origin, plan, n)
  }

  lemma TapeRuns(cfg: Config, origin: Live, plan: nat -> Moment)
    requires IsPlan(plan)
    ensures IsRun(cfg, plan, Tape(cfg, origin, plan))
  {
    forall n: nat | Tick(n)
      ensures At(cfg, origin, plan, n + 1) == Goes(cfg, At(cfg, origin, plan, n), plan(n))
    {
      AtStep(cfg, origin, plan, n);
    }
  }

  // ---------------------------------------------------------------- the loops

  /** One node, and where the graph goes from there: the objects and the machine do the same. */
  method Visit(cfg: Config, ctx: TurnContext, plan: nat -> Moment, n: nat, node: NodeName, ghost steps: nat,
               ghost run: nat -> World, ghost told: seq<Event>)
    returns (r: Result<Action, Failure>, next: Option<NodeName>)
    requires IsRun(cfg, plan, run)
    requires Mirrors(run(n), Running(node), ctx.Value(), ctx.live.Value(), told + ctx.events, steps)
    modifies ctx, ctx.live
    ensures var w := run(n + 1);
            && (next.Some? ==>
                  Mirrors(w, Checking(next.value), ctx.Value(), ctx.live.Value(), told + ctx.events, steps + 1))
            && (next.None? ==> Left(w, r, ctx.Value(), ctx.live.Value(), told + ctx.events))
  {
    ghost var w, moment := run(n), plan(n);
    ghost var v := AdvanceAll(cfg, w, moment.others);
    Disturbed(cfg, w, moment.others, Running(node), ctx.Value(), ctx.live.Value(), told + ctx.events, steps);
    RunGoesOn(cfg, plan, run, n);
    Interfere(ctx.live, plan(n).others);
    ghost var s := RunNode(cfg, node, ctx.Value(), ctx.live.Value(), moment.choice);
    NodeMoves(cfg, v, moment.choice, node, ctx.Value(), ctx.live.Value(), told + ctx.events, steps, s);
    Told(RuntimeStep(cfg, v, moment.choice), node, s.result, s.ctx, s.live, told, ctx.events, s.events, steps);
    r := ctx.RunNodeNamed(cfg, node, plan(n).choice);
    next := if r.Ok? then Next(node, r.value) else None;
    MovesWhere(run(n + 1), node, r, next, ctx.Value(), ctx.live.Value(), told + ctx.events, steps);
  }

  /** The look at the token and the step limit. */
  method Look(cfg: Config, ctx: TurnContext, plan: nat -> Moment, n: nat, node: NodeName, steps: nat,
              ghost run: nat -> World, ghost told: seq<Event>) returns (failure: Option<Failure>)
    requires IsRun(cfg, plan, run)
    requires Mirrors(run(n), Checking(node), ctx.Value(), ctx.live.Value(), told + ctx.events, steps)
    modifies ctx.live
    ensures var w := run(n + 1);
            && (failure.None? ==>
                  && steps < MAX_STEPS
                  && Mirrors(w, Running(node), ctx.Value(), ctx.live.Value(), told + ctx.events, steps))
            && (failure.Some? ==> Left(w, Err(failure.value), ctx.Value(), ctx.live.Value(), told + ctx.events))
  {
    ghost var w, moment := run(n), plan(n);
    ghost var v := AdvanceAll(cfg, w, moment.others);
    Disturbed(cfg, w, moment.others, Checking(node), ctx.Value(), ctx.live.Value(), told + ctx.events, steps);
    RunGoesOn(cfg, plan, run, n);
    Interfere(ctx.live, plan(n).others);
    failure := if ctx.live.cancelled then Some(AbortedRun)
               else if steps >= MAX_STEPS then Some(Failure.MaxSteps) else None;
    if failure.None? {
      LookPasses(cfg, v, moment.choice, node, ctx.Value(), ctx.live.Value(), told + ctx.events, steps);
    } else {
      LookCutsOff(cfg, v, moment.choice, node, ctx.Value(), ctx.live.Value(), told + ctx.events, steps, failure.value);
    }
  }

  /** One run through the graph. */
  method RunFlow(cfg: Config, ctx: TurnContext, plan: nat -> Moment, first: nat, ghost run: nat -> World,
                 ghost told: seq<Event>) returns (r: Result<Action, Failure>, n: nat)
    requires IsRun(cfg, plan, run)
    requires Mirrors(run(first), Checking(StartTurn), ctx.Value(), ctx.live.Value(),
                     told + ctx.events, 0)
    modifies ctx, ctx.live
    ensures first < n && Left(run(n), r, ctx.Value(), ctx.live.Value(), told + ctx.events)
  {
    var node := NodeName.StartTurn;
    var steps := 0;
    n := first;
    while true
      invariant 0 <= steps <= MAX_STEPS && first <= n
      invariant Mirrors(run(n), Checking(node), ctx.Value(), ctx.live.Value(),
                        told + ctx.events, steps)
      decreases MAX_STEPS - steps
    {
      var failure := Look(cfg, ctx, plan, n, node, steps, run, told);
      if failure.Some? { return Err(failure.value), n + 1; }
      var next;
      r, next := Visit(cfg, ctx, plan, n + 1, node, steps, run, told);
      n := n + 2;
      if next.None? { return; }
      node, steps := next.value, steps + 1;
    }
  }

  /** The outer loop, for at most `rounds` iterations, whatever other tasks do meanwhile: what it leaves in the shared
      state and tells is what the machine does in the same interleaving. */
  method RunState(cfg: Config, state: AgentState, plan: nat -> Moment, rounds: nat)
    returns (told: seq<Event>, halted: bool, n: nat, turn: nat)
    requires IsPlan(plan)
    modifies state
    ensures var w := At(cfg, old(state.Value()), plan, n);
            && w.live == state.Value() && w.events == told && w.phase == (if halted then Halted else Top)
            && (!halted ==> n >= rounds)
  {
    told, halted, n, turn := [], false, 0, 0;
    ghost var run := Tape(cfg, state.Value(), plan);
    TapeRuns(cfg, state.Value(), plan);
    for i := 0 to rounds
      invariant !halted && n >= i
      invariant AtTop(run(n), state.Value(), turn, told)
    {
      var r, m, told', turn' := Iterate(cfg, state, plan, n, turn, told, run);
      told, n := told', m;
      if r.Err? || (r.value != Continue && r.value != ContinueProvider) {
        return told, true, n, turn;
      }
      turn := turn';
    }
  }

  /** The snapshot an iteration works on. */
  method Open(cfg: Config, state: AgentState, plan: nat -> Moment, n: nat, turn: nat, ghost told: seq<Event>,
              ghost run: nat -> World) returns (ctx: TurnContext)
    requires IsRun(cfg, plan, run) && AtTop(run(n), state.Value(), turn, told)
    modifies state
    ensures fresh(ctx) && ctx.live == state
    ensures Mirrors(run(n + 1), Checking(StartTurn), ctx.Value(), state.Value(), told + ctx.events, 0)
  {
    ghost var w, moment := run(n), plan(n);
    DisturbedAtTop(cfg, w, moment.others, state.Value(), turn, told);
    RunGoesOn(cfg, plan, run, n);
    Interfere(state, plan(n).others);
    Snapshot(cfg, AdvanceAll(cfg, w, moment.others), moment.choice, state.Value(), turn, told);
    ctx := new TurnContext(state, turn);
    assert told + ctx.events == told;
  }

  /** The machine after an iteration that ended with `r`. */
  ghost predicate Iterated(w: World, r: Result<Action, Failure>, live: Live, turn: nat, told: seq<Event>)
  {
    && w.live == live && w.events == told
    && w.phase == (if r == Ok(Continue) || r == Ok(ContinueProvider) then Top else Halted)
    && (w.phase.Top? ==> w.turn == turn)
  }

  lemma LeftIsIterated(w: World, r: Result<Action, Failure>, ctx: Context, live: Live, events: seq<Event>,
                       told: seq<Event>)
    requires Left(w, r, ctx, live, events) && told == if r.Err? then events + [AgentError(r.error)] else events
    ensures Iterated(w, r, ApplyToState(ctx, live), ctx.turn, told)
  {
    assert events + [] == events;
  }

  /** One iteration. */
  method Iterate(cfg: Config, state: AgentState, plan: nat -> Moment, n: nat, turn: nat, told: seq<Event>,
                 ghost run: nat -> World)
    returns (r: Result<Action, Failure>, m: nat, told': seq<Event>, turn': nat)
    requires IsRun(cfg, plan, run) && AtTop(run(n), state.Value(), turn, told)
    modifies state
    ensures n < m && Iterated(run(m), r, state.Value(), turn', told')
  {
    var ctx := Open(cfg, state, plan, n, turn, told, run);
    r, m := RunFlow(cfg, ctx, plan, n + 1, run, told);
    told', turn' := Close(ctx, r, told, run(m));
  }

  /** The context is written back and the last error told. */
  method Close(ctx: TurnContext, r: Result<Action, Failure>, told: seq<Event>, ghost w: World)
    returns (told': seq<Event>, turn: nat)
    requires Left(w, r, ctx.Value(), ctx.live.Value(), told + ctx.events)
    modifies ctx.live
    ensures Iterated(w, r, ctx.live.Value(), turn, told')
  {
    told' := if r.Err? then told + ctx.events + [AgentError(r.error)] else told + ctx.events;
    turn := ctx.turn;
    LeftIsIterated(w, r, ctx.Value(), ctx.live.Value(), told + ctx.events, told');
    ctx.WriteBack();
  }

  /** What every run of the objects tells, in every interleaving: the turns in order within the limit, no two
      requests in one turn, one final event, and every tool end after a start of its own; and with a limit on turns
      they come to their end. */
  method RunAndTell(cfg: Config, state: AgentState, plan: nat -> Moment, rounds: nat)
    returns (told: seq<Event>, halted: bool)
    requires IsPlan(plan)
    modifies state
    ensures exists k: nat :: AgentRuns.TurnNumbers(told) == AgentRuns.OneTo(k) &&
                             (cfg.maxTurns.Some? ==> k <= cfg.maxTurns.value)
    ensures AgentRuns.RequestsApart(told)
    ensures forall i :: 0 <= i < |told| - 1 ==> !AgentProofs.Final(told[i])
    ensures halted <==> told != [] && AgentProofs.Final(told[|told| - 1])
    ensures ToolOrder.InOrder(ToolOrder.ToolPart(told))
    ensures cfg.maxTurns.Some? && rounds >= 19 * cfg.maxTurns.value + 3 ==> halted
  {
    ghost var origin := state.Value();
    var n, turn;
    told, halted, n, turn := RunState(cfg, state, plan, rounds);
    var k := AgentRuns.EventProtocol(cfg, origin, Script(plan, n));
    ToolOrder.RunInOrder(cfg, origin, Script(plan, n));
    if cfg.maxTurns.Some? && rounds >= 19 * cfg.maxTurns.value + 3 && !halted {
      OwnStepsOf(plan, n);
      Halting.EveryRunHalts(cfg, cfg.maxTurns.value, origin, Script(plan, n));
    }
  }

  lemma {:induction false} OwnStepsOf(plan: nat -> Moment, n: nat)
    requires IsPlan(plan)
    ensures Halting.OwnSteps(Script(plan, n)) == n
  {
    if n > 0 {
      OwnStepsOf(plan, n - 1);
      OwnStepsAdd(Script(plan, n - 1), plan(n - 1).others, Internal(plan(n - 1).choice));
    }
  }

  lemma OwnStepsAdd(acts: seq<Label>, others: seq<Label>, own: Label)
    requires Outside(others) && own.Internal?
    ensures Halting.OwnSteps(acts + (others + [own])) == Halting.OwnSteps(acts) + 1
  {
    OwnStepsConcat(acts, others + [own]);
    assert (others + [own])[..|others|] == others;
    OthersOwnNothing(others);
  }

  lemma {:induction false} OwnStepsConcat(a: seq<Label>, b: seq<Label>)
    ensures Halting.OwnSteps(a + b) == Halting.OwnSteps(a) + Halting.OwnSteps(b)
    decreases |b|
  {
    if b == [] {
      assert a + b == a;
    } else {
      var n := |b| - 1;
      assert (a + b)[..|a| + n] == a + b[..n];
      OwnStepsConcat(a, b[..n]);
    }
  }

  lemma {:induction false} OthersOwnNothing(acts: seq<Label>)
    requires Outside(acts)
    ensures Halting.OwnSteps(acts) == 0
    decreases |acts|
  {
    if acts != [] { OthersOwnNothing(acts[..|acts| - 1]); }
  }

  // ---------------------------------------------------------------- runs that nobody interferes with

  /** The machine step by step, when nobody interferes. */
  ghost predicate IsQuiet(cfg: Config, choose: nat -> Choice, run: nat -> World)
  {
    forall n: nat {:trigger Tick(n)} :: Tick(n) ==> run(n + 1) == RuntimeStep(cfg, run(n), choose(n))
  }

  function Quietly(choose: nat -> Choice): nat -> Moment { (n: nat) => Moment([], choose(n)) }

  /** The scripts without other tasks are such runs. */
  lemma QuietScripts(cfg: Config, origin: Live, choose: nat -> Choice)
    ensures IsPlan(Quietly(choose)) && IsQuiet(cfg, choose, (n: nat) => At(cfg, origin, Quietly(choose), n))
  {
    var plan := Quietly(choose);
    forall n: nat ensures At(cfg, origin, plan, n + 1) == RuntimeStep(cfg, At(cfg, origin, plan, n), choose(n)) {
      AtStep(cfg, origin, plan, n);
      assert AdvanceAll(cfg, At(cfg, origin, plan, n), []) == At(cfg, origin, plan, n);
    }
  }

  /** The look at the token and the node. */
  lemma Visited(cfg: Config, choose: nat -> Choice, run: nat -> World, n: nat, node: NodeName, steps: nat, ctx: Context,
                live: Live, events: seq<Event>, s: Step)
    requires IsQuiet(cfg, choose, run) && Mirrors(run(n), Checking(node), ctx, live, events, steps)
    requires !live.cancelled && steps < MAX_STEPS && s == RunNode(cfg, node, ctx, live, choose(n + 1))
    ensures Moves(run(n + 2), node, s.result, s.ctx, s.live, events + s.events, steps)
  {
    assert Tick(n) && Tick(n + 1);
    LookPasses(cfg, run(n), choose(n), node, ctx, live, events, steps);
    NodeMoves(cfg, run(n + 1), choose(n + 1), node, ctx, live, events, steps, s);
  }

  /** A run that is cut off before a node. */
  lemma CutOff(cfg: Config, choose: nat -> Choice, run: nat -> World, n: nat, node: NodeName, steps: nat, ctx: Context,
               live: Live, events: seq<Event>, failure: Failure)
    requires IsQuiet(cfg, choose, run) && Mirrors(run(n), Checking(node), ctx, live, events, steps)
    requires if live.cancelled then failure == AbortedRun else steps >= MAX_STEPS && failure == Failure.MaxSteps
    ensures Left(run(n + 1), Err(failure), ctx, live, events)
  {
    assert Tick(n);
    LookCutsOff(cfg, run(n), choose(n), node, ctx, live, events, steps, failure);
  }
}
