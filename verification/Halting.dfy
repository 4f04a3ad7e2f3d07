/** With a limit on turns every run comes to its end, whatever happens around it. */
module Halting {
  import opened Basics
  import opened AgentTurn
  import opened AgentProofs
  import AgentRuns

  /** How many steps of its own a run can take from here on. */
  function Fuel(limit: nat, phase: Phase, turn: nat, now: nat): int
  {
    match phase
    case Halted => 0
    case Top => 19 * (limit - turn) + 3
    case Checking(node) => (if node.StartTurn? then 19 * (limit - now) + 2 else Rest(node) + 19 * (limit - now) + 3)
    case Running(node) => (if node.StartTurn? then 19 * (limit - now) + 1 else Rest(node) - 1 + 19 * (limit - now) + 3)
  }

  /** How many steps are left of an iteration. */
  function Rest(node: NodeName): int { 2 * (9 - Rank(node)) }

  function FuelOf(limit: nat, w: World): int { Fuel(limit, w.phase, w.turn, w.ctx.turn) }

  /** A run that has not halted has steps left. */
  lemma FuelLeft(cfg: Config, limit: nat, w: World)
    requires Core(cfg, w) && cfg.maxTurns == Some(limit)
    ensures FuelOf(limit, w) >= 0 && (FuelOf(limit, w) == 0 <==> w.phase.Halted?)
  {
  }

  /** What a node does to the number of the turn. */
  lemma NodeTurns(cfg: Config, node: NodeName, ctx: Context, live: Live, choice: Choice)
    ensures var s := RunNode(cfg, node, ctx, live, choice);
            var phase := PhaseAfter(node, s.result);
            if node.StartTurn? then
              !phase.Top? && (phase.Checking? ==> s.ctx.turn == ctx.turn + 1)
            else s.ctx.turn == ctx.turn
  {
  }

  /** Where a node leads costs less than the node. */
  lemma NextCostsLess(limit: nat, node: NodeName, phase: Phase, now: nat, later: nat)
    requires phase.Checking? ==> Rank(node) < Rank(phase.node)
    requires now <= limit && (!phase.Halted? ==> later <= limit)
    requires if node.StartTurn? then !phase.Top? && !phase.Running? && (phase.Checking? ==> later == now + 1)
             else !phase.Running? && later == now
    ensures Fuel(limit, phase, later, later) < Fuel(limit, Running(node), now, now)
  {
  }

  lemma NodeBurns(cfg: Config, limit: nat, w: World, node: NodeName, choice: Choice)
    requires Core(cfg, w) && cfg.maxTurns == Some(limit) && w.phase == Running(node)
    ensures FuelOf(limit, RuntimeStep(cfg, w, choice)) < FuelOf(limit, w)
  {
    var s := RunNode(cfg, node, w.ctx, w.live, choice);
    var w' := AfterNode(Took(w, s), node, s.result);
    NodeTurns(cfg, node, w.ctx, w.live, choice);
    NodePreparesNext(cfg, node, w.ctx, w.live, choice);
    AgentRuns.RunningKeepsCore(cfg, w, node, choice);
    FuelAfter(limit, w, node, s, w');
    WithinLimit(cfg, limit, w);
    WithinLimit(cfg, limit, w');
    NextCostsLess(limit, node, PhaseAfter(node, s.result), w.ctx.turn, s.ctx.turn);
  }

  lemma FuelAfter(limit: nat, w: World, node: NodeName, s: Step, w': World)
    requires w' == AfterNode(Took(w, s), node, s.result)
    ensures w'.phase == PhaseAfter(node, s.result) && !w'.phase.Running?
    ensures w'.phase.Checking? ==> w'.ctx.turn == s.ctx.turn
    ensures w'.phase.Top? ==> w'.turn == s.ctx.turn
    ensures FuelOf(limit, w') == Fuel(limit, PhaseAfter(node, s.result), s.ctx.turn, s.ctx.turn)
  {
  }

  lemma WithinLimit(cfg: Config, limit: nat, w: World)
    requires Core(cfg, w) && cfg.maxTurns == Some(limit)
    ensures w.phase.Top? ==> w.turn <= limit
    ensures InFlow(w) ==> w.ctx.turn <= limit
  {
  }

  lemma StepBurns(cfg: Config, limit: nat, w: World, choice: Choice)
    requires Core(cfg, w) && cfg.maxTurns == Some(limit) && !w.phase.Halted?
    ensures FuelOf(limit, RuntimeStep(cfg, w, choice)) < FuelOf(limit, w)
  {
    FuelLeft(cfg, limit, w);
    match w.phase
    case Top =>
    case Checking(node) =>
    case Running(node) => NodeBurns(cfg, limit, w, node, choice);
  }

  /** The steps of the run itself among the steps of all. */
  function OwnSteps(acts: seq<Label>): nat
  {
    if acts == [] then 0 else OwnSteps(acts[..|acts| - 1]) + if acts[|acts| - 1].Internal? then 1 else 0
  }

  lemma {:induction false} FuelBoundsSteps(cfg: Config, limit: nat, live: Live, acts: seq<Label>)
    requires cfg.maxTurns == Some(limit)
    ensures var w := AdvanceAll(cfg, Begin(live), acts);
            w.phase.Halted? || FuelOf(limit, w) + OwnSteps(acts) <= 19 * limit + 3
    decreases |acts|
  {
    if acts != [] {
      var n := |acts| - 1;
      var w := AdvanceAll(cfg, Begin(live), acts[..n]);
      FuelBoundsSteps(cfg, limit, live, acts[..n]);
      AgentRuns.RunKeepsCore(cfg, live, acts[..n]);
      OneStepBurns(cfg, limit, w, acts[n]);
    }
  }

  lemma OneStepBurns(cfg: Config, limit: nat, w: World, act: Label)
    requires Core(cfg, w) && cfg.maxTurns == Some(limit)
    ensures var w' := Advance(cfg, w, act);
            && (w.phase.Halted? ==> w'.phase.Halted?)
            && (!w.phase.Halted? ==> FuelOf(limit, w') + (if act.Internal? then 1 else 0) <= FuelOf(limit, w))
  {
    if act.Internal? && !w.phase.Halted? { StepBurns(cfg, limit, w, act.choice); }
  }

  /** Every interleaving in which the run has taken `19 * limit + 3` steps of its own has halted, with its one
      final event told. */
  lemma EveryRunHalts(cfg: Config, limit: nat, live: Live, acts: seq<Label>)
    requires cfg.maxTurns == Some(limit) && OwnSteps(acts) >= 19 * limit + 3
    ensures var w := AdvanceAll(cfg, Begin(live), acts);
            w.phase.Halted? && w.events != [] && Final(w.events[|w.events| - 1])
  {
    var w := AdvanceAll(cfg, Begin(live), acts);
    FuelBoundsSteps(cfg, limit, live, acts);
    AgentRuns.RunKeepsCore(cfg, live, acts);
    FuelLeft(cfg, limit, w);
    var k := AgentRuns.EventProtocol(cfg, live, acts);
  }
}
