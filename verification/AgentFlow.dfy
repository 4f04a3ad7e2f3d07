/** The turn machine and the flow engine: an iteration of the machine that nobody interferes with is a run of the
engine over the graph of the turn. */
module AgentFlow {
  import opened Basics
  import opened AgentTurn
  import opened Runtime
  import Flow

  // ---------------------------------------------------------------- names

  function NodeId(node: NodeName): string
  {
    match node
    case StartTurn => "start_turn"
    case DrainInput => "drain_queued_input"
    case Compact => "maybe_compact_runtime_context"
    case PrepareRequest => "prepare_provider_request"
    case BeforeHook => "apply_before_provider_request_hook"
    case ProviderStream => "provider_stream"
    case Decide => "decide_after_assistant"
    case PrepareNext => "maybe_prepare_next_turn"
    case ExecuteTools => "execute_tools"
  }

  function ActionWord(action: Action): string
  {
    match action
    case Default => "default"
    case Continue => "continue"
    case ContinueProvider => "continue_provider"
    case UseTools => "tools"
    case Finish => "done"
    case Fail => "error"
    case Abort => "aborted"
  }

  /** Names of nodes and actions, and the texts of failures. */
  datatype Names = Names(id: NodeName -> string, word: Action -> string, text: Failure -> string)

  ghost predicate Distinct(names: Names)
  {
    && (forall a, b :: names.id(a) == names.id(b) ==> a == b)
    && (forall a, b :: names.word(a) == names.word(b) ==> a == b)
  }

  lemma IdsDiffer(a: NodeName, b: NodeName)
    ensures NodeId(a) == NodeId(b) ==> a == b
  {
    assert |NodeId(a)| == |NodeId(b)| ==> a == b;
  }

  lemma WordsDiffer(a: Action, b: Action)
    ensures ActionWord(a) == ActionWord(b) ==> a == b
  {
    assert ActionWord(a)[0] == ActionWord(b)[0] && |ActionWord(a)| == |ActionWord(b)| ==> a == b;
  }

  /** The names in use tell nodes and actions apart. */
  lemma NamesInUseDiffer(text: Failure -> string)
    ensures Distinct(Names(NodeId, ActionWord, text))
  {
    var names := Names(NodeId, ActionWord, text);
    forall a, b ensures names.id(a) == names.id(b) ==> a == b { IdsDiffer(a, b); }
    forall a, b ensures names.word(a) == names.word(b) ==> a == b { WordsDiffer(a, b); }
  }

  // ---------------------------------------------------------------- the graph

  /** What the nodes work on: context and shared state, the events told, the number of the step, and the failure of a
      node that failed. */
  datatype Walker = Walker(ctx: Context, live: Live, events: seq<Event>, n: nat, failure: Option<Failure>)

  function Walked(c: Walker, s: Step): Walker
  {
    Walker(s.ctx, s.live, c.events + s.events, c.n + 2, if s.result.Err? then Some(s.result.error) else None)
  }

  function Answer(names: Names, result: Result<Action, Failure>): Result<Flow.Action, string>
  {
    if result.Ok? then Ok(names.word(result.value)) else Err(names.text(result.error))
  }

  function Visiting(names: Names, c: Walker, s: Step): (Walker, Result<Flow.Action, string>)
  {
    (Walked(c, s), Answer(names, s.result))
  }

  function Stepping(cfg: Config, choose: nat -> Choice, node: NodeName): Walker -> Step
  {
    (c: Walker) => RunNode(cfg, node, c.ctx, c.live, choose(c.n + 1))
  }

  function NodeDoing(names: Names, node: NodeName, step: Walker -> Step): Flow.Node<Walker>
  {
    Flow.Node(names.id(node), (c: Walker) => Visiting(names, c, step(c)))
  }

  function NodeFor(names: Names, cfg: Config, choose: nat -> Choice, node: NodeName): Flow.Node<Walker>
  {
    NodeDoing(names, node, Stepping(cfg, choose, node))
  }

  /** A graph has a node of the turn. */
  ghost predicate HasNode(names: Names, cfg: Config, choose: nat -> Choice, g: Flow.Graph<Walker>, node: NodeName)
  {
    names.id(node) in g.nodes && g.nodes[names.id(node)] == NodeFor(names, cfg, choose, node)
  }

  /** Its transitions are `Next`. */
  ghost predicate HasEdge(names: Names, g: Flow.Graph<Walker>, node: NodeName, action: Action)
  {
    var e := (names.id(node), names.word(action));
    && (e in g.transitions <==> Next(node, action).Some?)
    && (Next(node, action).Some? ==> g.transitions[e] == names.id(Next(node, action).value))
  }

  ghost predicate IsTurnGraph(names: Names, cfg: Config, choose: nat -> Choice, g: Flow.Graph<Walker>)
  {
    && g.start == names.id(StartTurn) && g.Closed()
    && (forall node: NodeName :: HasNode(names, cfg, choose, g, node))
    && (forall node: NodeName, action: Action :: HasEdge(names, g, node, action))
  }

  const NODES: set<NodeName> :=
    {StartTurn, DrainInput, Compact, PrepareRequest, BeforeHook, ProviderStream, Decide, PrepareNext, ExecuteTools}

  const EDGES: set<(NodeName, Action)> :=
    {(StartTurn, Default), (DrainInput, Default), (Compact, Default), (PrepareRequest, Default), (BeforeHook, Default),
     (ProviderStream, Default), (Decide, UseTools), (Decide, Continue), (ExecuteTools, Continue)}

  lemma EdgesAreNext(node: NodeName, action: Action)
    ensures node in NODES && ((node, action) in EDGES <==> Next(node, action).Some?)
  {
  }

  function Keyed<V>(names: Names, nodes: set<NodeName>, value: NodeName -> V): map<string, V>
    requires Distinct(names)
  {
    map node | node in nodes :: names.id(node) := value(node)
  }

  lemma KeyedIs<V>(names: Names, nodes: set<NodeName>, value: NodeName -> V, node: NodeName)
    requires Distinct(names) && node in nodes
    ensures names.id(node) in Keyed(names, nodes, value) && Keyed(names, nodes, value)[names.id(node)] == value(node)
  {
  }

  function Arrows(names: Names, edges: set<(NodeName, Action)>,
                  target: (NodeName, Action) -> NodeName): map<(string, string), string>
    requires Distinct(names)
  {
    map node, action | (node, action) in edges :: (names.id(node), names.word(action)) := names.id(target(node, action))
  }

  lemma ArrowsAre(names: Names, edges: set<(NodeName, Action)>, target: (NodeName, Action) -> NodeName, node: NodeName,
                  action: Action)
    requires Distinct(names)
    ensures var e := (names.id(node), names.word(action));
            && (e in Arrows(names, edges, target) <==> (node, action) in edges)
            && ((node, action) in edges ==> Arrows(names, edges, target)[e] == names.id(target(node, action)))
  {
  }

  lemma ArrowHasEnds(names: Names, edges: set<(NodeName, Action)>, target: (NodeName, Action) -> NodeName,
                     e: (string, string))
    returns (node: NodeName, action: Action)
    requires Distinct(names) && e in Arrows(names, edges, target)
    ensures (node, action) in edges && e == (names.id(node), names.word(action))
    ensures Arrows(names, edges, target)[e] == names.id(target(node, action))
  {
    node, action :| (node, action) in edges && e == (names.id(node), names.word(action));
  }

  function Target(node: NodeName, action: Action): NodeName
  {
    if Next(node, action).Some? then Next(node, action).value else node
  }

  /** The graph of the turn. */
  function TurnGraph(names: Names, cfg: Config, choose: nat -> Choice): Flow.Graph<Walker>
    requires Distinct(names)
  {
    Flow.Graph(names.id(StartTurn), Keyed(names, NODES, node => NodeFor(names, cfg, choose, node)),
               Arrows(names, EDGES, Target))
  }

  lemma NodeIsThere(names: Names, cfg: Config, choose: nat -> Choice, node: NodeName)
    requires Distinct(names)
    ensures HasNode(names, cfg, choose, TurnGraph(names, cfg, choose), node)
  {
    EdgesAreNext(node, Default);
    KeyedIs(names, NODES, n => NodeFor(names, cfg, choose, n), node);
  }

  lemma EdgeIsNext(names: Names, cfg: Config, choose: nat -> Choice, node: NodeName, action: Action)
    requires Distinct(names)
    ensures HasEdge(names, TurnGraph(names, cfg, choose), node, action)
  {
    EdgesAreNext(node, action);
    ArrowsAre(names, EDGES, Target, node, action);
  }

  lemma TurnGraphCloses(names: Names, cfg: Config, choose: nat -> Choice)
    requires Distinct(names)
    ensures TurnGraph(names, cfg, choose).Closed()
  {
    var g := TurnGraph(names, cfg, choose);
    forall e | e in g.transitions ensures e.0 in g.nodes && g.transitions[e] in g.nodes {
      var node, action := ArrowHasEnds(names, EDGES, Target, e);
      NodeIsThere(names, cfg, choose, node);
      NodeIsThere(names, cfg, choose, Target(node, action));
    }
  }

  /** The graph of the turn has the nodes of the turn, its transitions are `Next`, and it is closed, so that every
      run of it is a walk. */
  lemma TurnGraphIs(names: Names, cfg: Config, choose: nat -> Choice, g: Flow.Graph<Walker>)
    requires Distinct(names) && g == TurnGraph(names, cfg, choose)
    ensures IsTurnGraph(names, cfg, choose, g)
  {
    TurnGraphCloses(names, cfg, choose);
    forall node: NodeName ensures HasNode(names, cfg, choose, g, node) { NodeIsThere(names, cfg, choose, node); }
    forall node: NodeName, action: Action ensures HasEdge(names, g, node, action) {
      EdgeIsNext(names, cfg, choose, node, action);
    }
  }

  // ---------------------------------------------------------------- an iteration is a run

  /** How the turn runs the engine: with its own step limit, and a token that nobody touches meanwhile. */
  function TurnOptions(stop: bool): Flow.Options { Flow.Options(MAX_STEPS, false, _ => stop) }

  /** What the machine calls the result of a run. */
  ghost predicate Reports(names: Names, run: Flow.Run<Walker>, r: Result<Action, Failure>)
  {
    match run.result
    case Ok(outcome) => r.Ok? && outcome.lastAction == names.word(r.value)
    case Err(Cancelled) => r == Err(AbortedRun)
    case Err(MaxStepsExceeded(_)) => r == Err(Failure.MaxSteps)
    case Err(NodeFailed(_, _)) => run.ctx.failure.Some? && r == Err(run.ctx.failure.value)
    case Err(_) => false
  }

  /** The machine has left the flow as the run did. */
  ghost predicate LeftAs(names: Names, w: World, run: Flow.Run<Walker>, r: Result<Action, Failure>)
  {
    Reports(names, run, r) && Left(w, r, run.ctx.ctx, run.ctx.live, run.ctx.events)
  }

  lemma NodeKeepsToken(cfg: Config, node: NodeName, ctx: Context, live: Live, choice: Choice)
    ensures RunNode(cfg, node, ctx, live, choice).live.cancelled == live.cancelled
  {
  }

  /** A node of the graph does this step. */
  ghost predicate Does(names: Names, g: Flow.Graph<Walker>, node: NodeName, c: Walker, s: Step)
  {
    names.id(node) in g.nodes && g.nodes[names.id(node)].run(c) == Visiting(names, c, s)
  }

  lemma NodeDoes(names: Names, g: Flow.Graph<Walker>, node: NodeName, step: Walker -> Step, c: Walker)
    requires names.id(node) in g.nodes && g.nodes[names.id(node)] == NodeDoing(names, node, step)
    ensures Does(names, g, node, c, step(c))
  {
  }

  /** The step of a node in the engine and in the machine. */
  lemma StepOf(names: Names, cfg: Config, choose: nat -> Choice, g: Flow.Graph<Walker>, run: nat -> World, c: Walker,
               steps: nat, node: NodeName) returns (s: Step)
    requires HasNode(names, cfg, choose, g, node) && IsQuiet(cfg, choose, run) && !c.live.cancelled && steps < MAX_STEPS
    requires Mirrors(run(c.n), Checking(node), c.ctx, c.live, c.events, steps)
    ensures Does(names, g, node, c, s) && !s.live.cancelled
    ensures Moves(run(c.n + 2), node, s.result, s.ctx, s.live, c.events + s.events, steps)
  {
    s := Stepping(cfg, choose, node)(c);
    NodeDoes(names, g, node, Stepping(cfg, choose, node), c);
    Visited(cfg, choose, run, c.n, node, steps, c.ctx, c.live, c.events, s);
    NodeKeepsToken(cfg, node, c.ctx, c.live, choose(c.n + 1));
  }

  /** Where a node leads: in the engine and in the machine the run goes on at the same node, or ends alike. */
  lemma NodeMatches(names: Names, g: Flow.Graph<Walker>, w: World, c: Walker, p: Flow.Progress, node: NodeName, s: Step,
                    next: Option<NodeName>)
    requires p.current == names.id(node) && |p.path| < MAX_STEPS && Does(names, g, node, c, s)
    requires next == if s.result.Ok? then Next(node, s.result.value) else None
    requires s.result.Ok? ==> HasEdge(names, g, node, s.result.value)
    requires next.None? ==> Left(w, s.result, s.ctx, s.live, c.events + s.events)
    ensures next.None? ==> LeftAs(names, w, Flow.RunFrom(g, c, TurnOptions(false), p), s.result)
    ensures next.Some? ==>
            && (p.current, names.word(s.result.value)) in g.transitions
            && Flow.After(g, p, names.word(s.result.value)).current == names.id(next.value)
            && Flow.RunFrom(g, c, TurnOptions(false), p) ==
               Flow.RunFrom(g, Walked(c, s), TurnOptions(false), Flow.After(g, p, names.word(s.result.value)))
  {
    Flow.StepStops(g, c, TurnOptions(false), p);
    if next.Some? { Flow.StepGoesOn(g, c, TurnOptions(false), p, names.word(s.result.value)); }
  }

  lemma CutShortMatches(names: Names, g: Flow.Graph<Walker>, w: World, c: Walker, p: Flow.Progress, stop: bool,
                        failure: Failure)
    requires p.current in g.nodes && (stop || |p.path| >= MAX_STEPS)
    requires failure == (if stop then AbortedRun else Failure.MaxSteps)
    requires Left(w, Err(failure), c.ctx, c.live, c.events)
    ensures LeftAs(names, w, Flow.RunFrom(g, c, TurnOptions(stop), p), Err(failure))
  {
    Flow.StepStops(g, c, TurnOptions(stop), p);
  }

  /** The rest of a run from any node on: the engine and the machine end alike. */
  lemma {:induction false} RunMatches(names: Names, cfg: Config, choose: nat -> Choice, g: Flow.Graph<Walker>,
                                      run: nat -> World, c: Walker, p: Flow.Progress, node: NodeName,
                                      stop: bool)
    returns (r: Result<Action, Failure>, m: nat)
    requires IsTurnGraph(names, cfg, choose, g) && p.current == names.id(node) && |p.path| <= MAX_STEPS
    requires c.live.cancelled == stop && IsQuiet(cfg, choose, run)
    requires Mirrors(run(c.n), Checking(node), c.ctx, c.live, c.events, |p.path|)
    ensures c.n < m && LeftAs(names, run(m), Flow.RunFrom(g, c, TurnOptions(stop), p), r)
    decreases MAX_STEPS - |p.path|
  {
    assert HasNode(names, cfg, choose, g, node);
    if stop || |p.path| == MAX_STEPS {
      r, m := Err(if stop then AbortedRun else Failure.MaxSteps), c.n + 1;
      CutOff(cfg, choose, run, c.n, node, |p.path|, c.ctx, c.live, c.events, r.error);
      CutShortMatches(names, g, run(m), c, p, stop, r.error);
    } else {
      var s, next := VisitMatches(names, cfg, choose, g, run, c, p, node);
      r, m := s.result, c.n + 2;
      if next.Some? {
        r, m := RunMatches(names, cfg, choose, g, run, Walked(c, s), Flow.After(g, p, names.word(s.result.value)),
                           next.value, stop);
      }
    }
  }

  lemma VisitMatches(names: Names, cfg: Config, choose: nat -> Choice, g: Flow.Graph<Walker>, run: nat -> World,
                     c: Walker, p: Flow.Progress, node: NodeName)
    returns (s: Step, next: Option<NodeName>)
    requires IsTurnGraph(names, cfg, choose, g) && p.current == names.id(node) && |p.path| < MAX_STEPS
    requires !c.live.cancelled && IsQuiet(cfg, choose, run)
    requires Mirrors(run(c.n), Checking(node), c.ctx, c.live, c.events, |p.path|)
    ensures next.None? ==>
            LeftAs(names, run(c.n + 2), Flow.RunFrom(g, c, TurnOptions(false), p), s.result)
    ensures next.Some? ==> s.result.Ok? && p.current in g.nodes
    ensures next.Some? ==> (p.current, names.word(s.result.value)) in g.transitions
    ensures next.Some? ==>
            var q := Flow.After(g, p, names.word(s.result.value));
            && q.current == names.id(next.value) && |q.path| == |p.path| + 1 && !s.live.cancelled
            && Mirrors(run(c.n + 2), Checking(next.value), s.ctx, s.live, c.events + s.events, |q.path|)
            && Flow.RunFrom(g, c, TurnOptions(false), p) == Flow.RunFrom(g, Walked(c, s), TurnOptions(false), q)
  {
    var w := run(c.n + 2);
    assert HasNode(names, cfg, choose, g, node);
    s := StepOf(names, cfg, choose, g, run, c, |p.path|, node);
    next := if s.result.Ok? then Next(node, s.result.value) else None;
    MovesWhere(w, node, s.result, next, s.ctx, s.live, c.events + s.events, |p.path|);
    assert s.result.Ok? ==> HasEdge(names, g, node, s.result.value);
    NodeMatches(names, g, w, c, p, node, s, next);
  }

  /** Every iteration of the outer loop that nobody interferes with: the machine leaves the flow with the state, the
      events and the result of a run of the engine over the graph of the turn. */
  lemma IterationIsRun(names: Names, cfg: Config, choose: nat -> Choice, g: Flow.Graph<Walker>, run: nat -> World,
                       n: nat)
    returns (r: Result<Action, Failure>, m: nat)
    requires IsTurnGraph(names, cfg, choose, g) && IsQuiet(cfg, choose, run) && run(n).phase.Top?
    ensures var w := run(n);
            var c := Walker(FromLive(w.live, w.turn), w.live.(steering := [], followUp := []), w.events, n + 1, None);
            n < m && LeftAs(names, run(m), Flow.RunGraph(g, c, TurnOptions(w.live.cancelled)), r)
  {
    var w := run(n);
    var live := w.live.(steering := [], followUp := []);
    var c := Walker(FromLive(w.live, w.turn), live, w.events, n + 1, None);
    assert Tick(n);
    Snapshot(cfg, w, choose(n), w.live, w.turn, w.events);
    assert HasNode(names, cfg, choose, g, StartTurn);
    var p := Flow.Progress(g.start, [], [Flow.Started(g.start)]);
    r, m := RunMatches(names, cfg, choose, g, run, c, p, StartTurn, live.cancelled);
    CancelledAtStart(g, c, w.live.cancelled, p);
  }

  /** The look at the token before the start changes nothing when the next look sees the same. */
  lemma CancelledAtStart(g: Flow.Graph<Walker>, c: Walker, stop: bool, p: Flow.Progress)
    requires g.start in g.nodes && p == Flow.Progress(g.start, [], [Flow.Started(g.start)])
    ensures var early, late := Flow.RunGraph(g, c, TurnOptions(stop)), Flow.RunFrom(g, c, TurnOptions(stop), p);
            early.ctx == late.ctx && early.result == late.result
  {
  }
}
