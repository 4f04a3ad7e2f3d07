/** The flow engine: named nodes, transitions on actions, and a runner that walks them. */
module Flow {
  import opened Basics

  type NodeId = string

  type Action = string

  datatype FlowError =
    | EmptyNodeId
    | DuplicateNode(node: NodeId)
    | UnknownNode(node: NodeId)
    | MissingStartNode(node: NodeId)
    | MissingTransition(node: NodeId, action: Action)
    | MaxStepsExceeded(maxSteps: nat)
    | Cancelled
    | NodeFailed(node: NodeId, message: string)

  /** A node turns the context into a new context and names an action, or fails. */
  datatype Node<!C> = Node(name: string, run: C -> (C, Result<Action, string>))

  datatype FlowOutcome = FlowOutcome(lastNode: NodeId, lastAction: Action, steps: nat, path: seq<NodeId>)

  datatype FlowEvent =
    | Started(start: NodeId)
    | NodeStart(node: NodeId, name: string, step: nat)
    | NodeEnd(node: NodeId, name: string, action: Action, step: nat)
    | NoTransition(node: NodeId, action: Action)
    | Completed(outcome: FlowOutcome)
    | Failed(error: FlowError)

  /** `cancelled(i)` is the answer of the i-th look at the cancellation token. */
  datatype Options = Options(maxSteps: nat, strict: bool, cancelled: nat -> bool)

  datatype Graph<!C> = Graph(start: NodeId, nodes: map<NodeId, Node<C>>, transitions: map<(NodeId, Action), NodeId>)
  {
    /** What `add_node` and `edge_on` keep: transitions lead from nodes to nodes. */
    predicate Closed()
    {
      forall e :: e in transitions ==> e.0 in nodes && transitions[e] in nodes
    }

    predicate HasOutgoing(node: NodeId)
    {
      exists e :: e in transitions && e.0 == node
    }
  }

  datatype Run<!C> = Run(ctx: C, result: Result<FlowOutcome, FlowError>, events: seq<FlowEvent>)

  function Fail<C>(ctx: C, error: FlowError, events: seq<FlowEvent>): Run<C>
  {
    Run(ctx, Err(error), events + [Failed(error)])
  }

  /** The events of the steps taken so far, and what the walk went through. */
  datatype Progress = Progress(current: NodeId, path: seq<NodeId>, events: seq<FlowEvent>)

  /** The runner, from the moment it is about to look at the token before step |path| + 1. */
  function RunFrom<C>(g: Graph<C>, ctx: C, options: Options, p: Progress): (r: Run<C>)
    decreases SaturatingSub(options.maxSteps, |p.path|)
  {
    var steps := |p.path|;
    if options.cancelled(steps + 1) then Fail(ctx, Cancelled, p.events)
    else if steps >= options.maxSteps then Fail(ctx, MaxStepsExceeded(options.maxSteps), p.events)
    else if p.current !in g.nodes then Run(ctx, Err(UnknownNode(p.current)), p.events)
    else
      var node := g.nodes[p.current];
      var started := p.events + [NodeStart(p.current, node.name, steps + 1)];
      var (ctx', result) := node.run(ctx);
      match result
      case Err(message) => Fail(ctx', NodeFailed(p.current, message), started)
      case Ok(action) =>
        var ended := started + [NodeEnd(p.current, node.name, action, steps + 1)];
        var path := p.path + [p.current];
        if (p.current, action) in g.transitions then
          RunFrom(g, ctx', options, Progress(g.transitions[(p.current, action)], path, ended))
        else if g.HasOutgoing(p.current) && options.strict then
          Fail(ctx', MissingTransition(p.current, action), ended)
        else
          var outcome := FlowOutcome(p.current, action, steps + 1, path);
          var noted := if g.HasOutgoing(p.current) then ended + [NoTransition(p.current, action)] else ended;
          Run(ctx', Ok(outcome), noted + [Completed(outcome)])
  }

  function RunGraph<C>(g: Graph<C>, ctx: C, options: Options): (r: Run<C>)
  {
    if g.start !in g.nodes then Fail(ctx, MissingStartNode(g.start), [])
    else if options.cancelled(0) then Fail(ctx, Cancelled, [])
    else RunFrom(g, ctx, options, Progress(g.start, [], [Started(g.start)]))
  }

  // ---------------------------------------------------------------- what every run is

  /** The two events of each finished step. */
  function StepEvents<C(!new)>(g: Graph<C>, path: seq<NodeId>, actions: seq<Action>): (events: seq<FlowEvent>)
    requires |path| == |actions|
    requires forall i :: 0 <= i < |path| ==> path[i] in g.nodes
  {
    if path == [] then [] else
      var n := |path| - 1;
      StepEvents(g, path[..n], actions[..n]) +
      [NodeStart(path[n], g.nodes[path[n]].name, n + 1), NodeEnd(path[n], g.nodes[path[n]].name, actions[n], n + 1)]
  }

  /** The nodes follow the transitions that the actions name. */
  ghost predicate IsWalk<C(!new)>(g: Graph<C>, path: seq<NodeId>, actions: seq<Action>)
  {
    && |path| == |actions|
    && (path != [] ==> path[0] == g.start)
    && (forall i :: 0 <= i < |path| ==> path[i] in g.nodes)
    && forall i :: 0 <= i < |path| - 1 ==>
         (path[i], actions[i]) in g.transitions && g.transitions[(path[i], actions[i])] == path[i + 1]
  }

  /** Where the runner stands after the walk: on the start node, or where the last action leads. */
  ghost predicate Leads<C(!new)>(g: Graph<C>, path: seq<NodeId>, actions: seq<Action>, current: NodeId)
  {
    && current in g.nodes
    && IsWalk(g, path, actions)
    && if path == [] then current == g.start
       else (path[|path| - 1], actions[|path| - 1]) in g.transitions
            && g.transitions[(path[|path| - 1], actions[|path| - 1])] == current
  }

  /** Some action leads on from the node. */
  ghost predicate LeadsSomewhere<C(!new)>(g: Graph<C>, node: NodeId)
  {
    exists action: Action :: (node, action) in g.transitions
  }

  lemma OutgoingLeads<C(!new)>(g: Graph<C>, node: NodeId)
    ensures g.HasOutgoing(node) <==> LeadsSomewhere(g, node)
  {
    if g.HasOutgoing(node) {
      var e :| e in g.transitions && e.0 == node;
      assert (node, e.1) in g.transitions;
    }
    if LeadsSomewhere(g, node) {
      var action: Action :| (node, action) in g.transitions;
      assert (node, action).0 == node;
    }
  }

  /** By position: two events for each step, its start and its end. */
  lemma {:induction false} StepEventsAt<C(!new)>(g: Graph<C>, path: seq<NodeId>, actions: seq<Action>)
    requires |path| == |actions| && forall i :: 0 <= i < |path| ==> path[i] in g.nodes
    ensures var events := StepEvents(g, path, actions);
            && |events| == 2 * |path|
            && forall i :: 0 <= i < |path| ==>
                 && events[2 * i] == NodeStart(path[i], g.nodes[path[i]].name, i + 1)
                 && events[2 * i + 1] == NodeEnd(path[i], g.nodes[path[i]].name, actions[i], i + 1)
  {
    if path != [] { StepEventsAt(g, path[..|path| - 1], actions[..|path| - 1]); }
  }

  /** How a run may end, after the walk: with the whole event trace, its result, and nothing else. A run
      that completes reports its own path and stops where no transition applies; every other run reports
      one error, and a step that failed has no end event. */
  ghost predicate Ends<C(!new)>(g: Graph<C>, options: Options, r: Run<C>, path: seq<NodeId>, actions: seq<Action>)
    requires IsWalk(g, path, actions)
  {
    var told := [Started(g.start)] + StepEvents(g, path, actions);
    match r.result
    case Ok(outcome) =>
      && 0 < |path| <= options.maxSteps
      && outcome == FlowOutcome(path[|path| - 1], actions[|path| - 1], |path|, path)
      && (outcome.lastNode, outcome.lastAction) !in g.transitions
      && (LeadsSomewhere(g, outcome.lastNode) ==> !options.strict)
      && r.events == told
                     + (if LeadsSomewhere(g, outcome.lastNode)
                        then [NoTransition(outcome.lastNode, outcome.lastAction)] else [])
                     + [Completed(outcome)]
    case Err(Cancelled) => r.events == told + [Failed(Cancelled)] && options.cancelled(|path| + 1)
    case Err(MaxStepsExceeded(n)) => r.events == told + [Failed(MaxStepsExceeded(n))] && n == options.maxSteps == |path|
    case Err(NodeFailed(node, message)) =>
      && Leads(g, path, actions, node)
      && r.events == told + [NodeStart(node, g.nodes[node].name, |path| + 1), Failed(NodeFailed(node, message))]
    case Err(MissingTransition(node, action)) =>
      && path != [] && node == path[|path| - 1] && action == actions[|path| - 1]
      && options.strict && (node, action) !in g.transitions && LeadsSomewhere(g, node)
      && r.events == told + [Failed(MissingTransition(node, action))]
    case Err(_) => false
  }

  lemma StepEventsSnoc<C(!new)>(g: Graph<C>, path: seq<NodeId>, actions: seq<Action>, node: NodeId, action: Action)
    requires |path| == |actions| && node in g.nodes
    requires forall i :: 0 <= i < |path| ==> path[i] in g.nodes
    ensures var name := g.nodes[node].name;
            StepEvents(g, path + [node], actions + [action]) ==
            StepEvents(g, path, actions) + [NodeStart(node, name, |path| + 1), NodeEnd(node, name, action, |path| + 1)]
  {
    assert (path + [node])[..|path|] == path && (actions + [action])[..|path|] == actions;
  }

  lemma WalkOn<C(!new)>(g: Graph<C>, path: seq<NodeId>, actions: seq<Action>, node: NodeId, action: Action)
    requires g.Closed() && Leads(g, path, actions, node)
    ensures IsWalk(g, path + [node], actions + [action])
    ensures (node, action) in g.transitions ==>
              Leads(g, path + [node], actions + [action], g.transitions[(node, action)])
  {
  }

  /** A step after which no transition applies ends the run. */
  lemma LastStepEnds<C(!new)>(g: Graph<C>, ctx: C, options: Options, p: Progress, before: seq<Action>, action: Action)
    requires g.Closed() && Leads(g, p.path, before, p.current) && |p.path| < options.maxSteps
    requires p.events == [Started(g.start)] + StepEvents(g, p.path, before)
    requires !options.cancelled(|p.path| + 1)
    requires g.nodes[p.current].run(ctx).1 == Ok(action) && (p.current, action) !in g.transitions
    ensures IsWalk(g, p.path + [p.current], before + [action])
    ensures Ends(g, options, RunFrom(g, ctx, options, p), p.path + [p.current], before + [action])
  {
    StepEventsSnoc(g, p.path, before, p.current, action);
    WalkOn(g, p.path, before, p.current, action);
    OutgoingLeads(g, p.current);
    var name := g.nodes[p.current].name;
    assert [Started(g.start)] + StepEvents(g, p.path + [p.current], before + [action]) ==
           p.events + [NodeStart(p.current, name, |p.path| + 1)] + [NodeEnd(p.current, name, action, |p.path| + 1)];
  }

  /** A run that is cut short, or whose node fails, ends where it is. */
  lemma CutShortEnds<C(!new)>(g: Graph<C>, ctx: C, options: Options, p: Progress, before: seq<Action>)
    requires g.Closed() && Leads(g, p.path, before, p.current) && |p.path| <= options.maxSteps
    requires p.events == [Started(g.start)] + StepEvents(g, p.path, before)
    requires options.cancelled(|p.path| + 1) || |p.path| == options.maxSteps || g.nodes[p.current].run(ctx).1.Err?
    ensures Ends(g, options, RunFrom(g, ctx, options, p), p.path, before)
  {
  }

  /** Where a run stands after a step that a transition follows. */
  function After<C(!new)>(g: Graph<C>, p: Progress, action: Action): Progress
    requires p.current in g.nodes && (p.current, action) in g.transitions
  {
    var name := g.nodes[p.current].name;
    Progress(g.transitions[(p.current, action)], p.path + [p.current],
             p.events + [NodeStart(p.current, name, |p.path| + 1)] + [NodeEnd(p.current, name, action, |p.path| + 1)])
  }

  lemma StepGoesOn<C(!new)>(g: Graph<C>, ctx: C, options: Options, p: Progress, action: Action)
    requires p.current in g.nodes && |p.path| < options.maxSteps && !options.cancelled(|p.path| + 1)
    requires g.nodes[p.current].run(ctx).1 == Ok(action) && (p.current, action) in g.transitions
    ensures RunFrom(g, ctx, options, p) == RunFrom(g, g.nodes[p.current].run(ctx).0, options, After(g, p, action))
  {
  }

  /** How a run ends that is cut short, whose node fails, or that no transition leads on from. */
  lemma StepStops<C(!new)>(g: Graph<C>, ctx: C, options: Options, p: Progress)
    requires p.current in g.nodes
    ensures var r := RunFrom(g, ctx, options, p);
            var (ctx', result) := g.nodes[p.current].run(ctx);
            if options.cancelled(|p.path| + 1) then r.ctx == ctx && r.result == Err(Cancelled)
            else if |p.path| >= options.maxSteps then r.ctx == ctx
              && r.result == Err(MaxStepsExceeded(options.maxSteps))
            else if result.Err? then r.ctx == ctx' && r.result == Err(NodeFailed(p.current, result.error))
            else if (p.current, result.value) !in g.transitions && !options.strict then
              r.ctx == ctx' && r.result == Ok(FlowOutcome(p.current, result.value, |p.path| + 1, p.path + [p.current]))
            else true
  {
    var (ctx', result) := g.nodes[p.current].run(ctx);
    if !options.cancelled(|p.path| + 1) && |p.path| < options.maxSteps && result.Ok? && !options.strict
       && (p.current, result.value) !in g.transitions {
      LastStepIs(g, ctx, options, p, result.value);
    }
  }

  lemma LastStepIs<C(!new)>(g: Graph<C>, ctx: C, options: Options, p: Progress, action: Action)
    requires p.current in g.nodes && !options.cancelled(|p.path| + 1) && |p.path| < options.maxSteps
    requires g.nodes[p.current].run(ctx).1 == Ok(action) && (p.current, action) !in g.transitions && !options.strict
    ensures var r := RunFrom(g, ctx, options, p);
            && r.ctx == g.nodes[p.current].run(ctx).0
            && r.result == Ok(FlowOutcome(p.current, action, |p.path| + 1, p.path + [p.current]))
  {
  }

  lemma StepLeadsOn<C(!new)>(g: Graph<C>, p: Progress, before: seq<Action>, action: Action)
    requires g.Closed() && Leads(g, p.path, before, p.current) && (p.current, action) in g.transitions
    requires p.events == [Started(g.start)] + StepEvents(g, p.path, before)
    ensures var next := After(g, p, action);
            && Leads(g, next.path, before + [action], next.current)
            && next.events == [Started(g.start)] + StepEvents(g, next.path, before + [action])
  {
    StepEventsSnoc(g, p.path, before, p.current, action);
    WalkOn(g, p.path, before, p.current, action);
  }

  lemma {:induction false} RunFromEnds<C(!new)>(g: Graph<C>, ctx: C, options: Options, p: Progress, before: seq<Action>)
    returns (path: seq<NodeId>, actions: seq<Action>)
    requires g.Closed() && Leads(g, p.path, before, p.current) && |p.path| <= options.maxSteps
    requires p.events == [Started(g.start)] + StepEvents(g, p.path, before)
    ensures IsWalk(g, path, actions) && Ends(g, options, RunFrom(g, ctx, options, p), path, actions)
    decreases options.maxSteps - |p.path|
  {
    var (ctx', result) := g.nodes[p.current].run(ctx);
    if options.cancelled(|p.path| + 1) || |p.path| == options.maxSteps || result.Err? {
      CutShortEnds(g, ctx, options, p, before);
      path, actions := p.path, before;
    } else if (p.current, result.value) !in g.transitions {
      LastStepEnds(g, ctx, options, p, before, result.value);
      path, actions := p.path + [p.current], before + [result.value];
    } else {
      StepGoesOn(g, ctx, options, p, result.value);
      StepLeadsOn(g, p, before, result.value);
      path, actions := RunFromEnds(g, ctx', options, After(g, p, result.value), before + [result.value]);
    }
  }

  /** Every run of a graph built through `add_node` and `edge_on`: either it does not start, or it goes along a
      walk and ends in one of the ways above. In particular it never reports an unknown node. */
  lemma EveryRunIsAWalk<C(!new)>(g: Graph<C>, ctx: C, options: Options)
    returns (path: seq<NodeId>, actions: seq<Action>)
    requires g.Closed()
    ensures var r := RunGraph(g, ctx, options);
            if g.start !in g.nodes then r == Fail(ctx, MissingStartNode(g.start), [])
            else if options.cancelled(0) then r == Fail(ctx, Cancelled, [])
            else IsWalk(g, path, actions) && Ends(g, options, r, path, actions)
    ensures !(RunGraph(g, ctx, options).result.Err? && RunGraph(g, ctx, options).result.error.UnknownNode?)
  {
    path, actions := [], [];
    if g.start in g.nodes && !options.cancelled(0) {
      assert [Started(g.start)] == [Started(g.start)] + StepEvents(g, [], []);
      path, actions := RunFromEnds(g, ctx, options, Progress(g.start, [], [Started(g.start)]), []);
    }
  }

  // ---------------------------------------------------------------- the builder and the runner

  class FlowBuilder<!C(!new)> {
    const start: NodeId
    var nodes: map<NodeId, Node<C>>
    var transitions: map<(NodeId, Action), NodeId>

    function Value(): Graph<C>
      reads this
    {
      Graph(start, nodes, transitions)
    }

    ghost predicate Valid()
      reads this
    {
      Value().Closed()
    }

    constructor (start: NodeId)
      ensures Valid() && Value() == Graph(start, map[], map[])
    {
      this.start := start;
      nodes, transitions := map[], map[];
    }

    method AddNode(id: NodeId, node: Node<C>) returns (r: Result<(), FlowError>)
      requires Valid()
      modifies this
      ensures Valid()
      ensures r.Ok? <==> id != [] && id !in old(nodes)
      ensures r.Ok? ==> Value() == old(Value()).(nodes := old(nodes)[id := node])
      ensures r.Err? ==> Value() == old(Value()) && r.error == if id == [] then EmptyNodeId else DuplicateNode(id)
    {
      if id == [] {
        return Err(EmptyNodeId);
      }
      if id in nodes {
        return Err(DuplicateNode(id));
      }
      nodes := nodes[id := node];
      return Ok(());
    }

    method EdgeOn(from: NodeId, action: Action, to: NodeId) returns (r: Result<(), FlowError>)
      requires Valid()
      modifies this
      ensures Valid()
      ensures r.Ok? <==> from != [] && to != [] && from in old(nodes) && to in old(nodes)
      ensures r.Ok? ==> Value() == old(Value()).(transitions := old(transitions)[(from, action) := to])
      ensures r.Err? ==> Value() == old(Value())
      ensures r.Err? ==>
                r.error == if from == [] || to == [] then EmptyNodeId
                           else UnknownNode(if from !in old(nodes) then from else to)
    {
      if from == [] || to == [] {
        return Err(EmptyNodeId);
      }
      if from !in nodes {
        return Err(UnknownNode(from));
      }
      if to !in nodes {
        return Err(UnknownNode(to));
      }
      transitions := transitions[(from, action) := to];
      return Ok(());
    }

    /** The runner loop. */
    method RunWithOptions(ctx: C, options: Options)
      returns (ctx': C, r: Result<FlowOutcome, FlowError>, events: seq<FlowEvent>)
      ensures Run(ctx', r, events) == RunGraph(Value(), ctx, options)
    {
      ctx', events := ctx, [];
      if start !in nodes {
        return ctx, Err(MissingStartNode(start)), [Failed(MissingStartNode(start))];
      }
      if options.cancelled(0) {
        return ctx, Err(Cancelled), [Failed(Cancelled)];
      }
      events := [Started(start)];
      var current := start;
      var steps := 0;
      var path: seq<NodeId> := [];
      ghost var whole := RunGraph(Value(), ctx, options);
      while true
        invariant steps == |path|
        invariant RunFrom(Value(), ctx', options, Progress(current, path, events)) == whole
        decreases SaturatingSub(options.maxSteps, steps)
      {
        if options.cancelled(steps + 1) {
          return ctx', Err(Cancelled), events + [Failed(Cancelled)];
        }
        if steps >= options.maxSteps {
          var error := MaxStepsExceeded(options.maxSteps);
          return ctx', Err(error), events + [Failed(error)];
        }
        if current !in nodes {
          return ctx', Err(UnknownNode(current)), events;
        }
        var node := nodes[current];
        path := path + [current];
        events := events + [NodeStart(current, node.name, steps + 1)];
        var (next, result) := node.run(ctx');
        ctx' := next;
        match result
        case Err(message) =>
          var error := NodeFailed(current, message);
          return ctx', Err(error), events + [Failed(error)];
        case Ok(action) =>
          events := events + [NodeEnd(current, node.name, action, steps + 1)];
          steps := steps + 1;
          if (current, action) in transitions {
            current := transitions[(current, action)];
          } else if Value().HasOutgoing(current) && options.strict {
            var error := MissingTransition(current, action);
            return ctx', Err(error), events + [Failed(error)];
          } else {
            var outcome := FlowOutcome(current, action, steps, path);
            if Value().HasOutgoing(current) {
              events := events + [NoTransition(current, action)];
            }
            return ctx', Ok(outcome), events + [Completed(outcome)];
          }
      }
    }
  }
}
