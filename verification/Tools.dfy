/** Tool calls of one assistant message: extraction, execution one after the other or side by side, and the
messages that report their results. */
module Tools {
  import opened Basics
  import opened Messages

  datatype Request = Request(index: nat, id: string, name: string, arguments: string)

  datatype Outcome = Outcome(content: seq<ContentBlock>, isError: bool, terminate: bool)

  datatype Execution = Execution(index: nat, id: string, name: string, outcome: Outcome)

  datatype Mode = Sequential | Parallel

  datatype Tool = Tool(name: string, mode: Option<Mode>)

  datatype Event =
    | ToolStart(id: string, name: string, arguments: string)
    | ToolUpdate(id: string, name: string, update: string)
    | ToolEnd(id: string, name: string, outcome: Outcome)

  // ---------------------------------------------------------------- extraction

  function ExtractFrom(content: seq<ContentBlock>, index: nat): (calls: seq<Request>)
    requires index <= |content|
    ensures forall k :: 0 <= k < |calls| ==> index <= calls[k].index < |content|
    ensures forall j, k :: 0 <= j < k < |calls| ==> calls[j].index < calls[k].index
    decreases |content| - index
  {
    if index == |content| then [] else
      var rest := ExtractFrom(content, index + 1);
      match content[index]
      case ToolCall(id, name, arguments) => [Request(index, id, name, arguments)] + rest
      case _ => rest
  }

  /** The tool calls of a message in content order, each with its position. */
  function Extract(a: Assistant): (calls: seq<Request>)
    ensures forall j, k :: 0 <= j < k < |calls| ==> calls[j].index < calls[k].index
  {
    ExtractFrom(a.content, 0)
  }

  lemma {:induction false} ExtractFromExact(content: seq<ContentBlock>, index: nat, r: Request)
    requires index <= |content|
    ensures r in ExtractFrom(content, index) <==>
            index <= r.index < |content| && content[r.index] == ToolCall(r.id, r.name, r.arguments)
    decreases |content| - index
  {
    if index < |content| {
      ExtractFromExact(content, index + 1, r);
    }
  }

  /** Exactly the tool call blocks are extracted. */
  lemma ExtractExact(a: Assistant, r: Request)
    ensures r in Extract(a) <==> r.index < |a.content| && a.content[r.index] == ToolCall(r.id, r.name, r.arguments)
  {
    ExtractFromExact(a.content, 0, r);
  }

  function FindTool(tools: seq<Tool>, name: string): Option<Tool>
  {
    if tools == [] then None else if tools[0].name == name then Some(tools[0]) else FindTool(tools[1..], name)
  }

  predicate UseSequential(mode: Mode, calls: seq<Request>, tools: seq<Tool>)
  {
    mode.Sequential? ||
    exists c :: c in calls && FindTool(tools, c.name).Some? && FindTool(tools, c.name).value.mode == Some(Sequential)
  }

  /** Which tool a name stands for: the first one of that name. */
  ghost predicate StandsFor(tools: seq<Tool>, name: string, tool: Tool)
  {
    exists i :: 0 <= i < |tools| && tools[i] == tool && tool.name == name &&
                forall j :: 0 <= j < i ==> tools[j].name != name
  }

  lemma {:induction false} FindsFirst(tools: seq<Tool>, name: string)
    ensures FindTool(tools, name).Some? <==> exists i :: 0 <= i < |tools| && tools[i].name == name
    ensures forall tool :: StandsFor(tools, name, tool) <==> FindTool(tools, name) == Some(tool)
  {
    if tools != [] {
      FindsFirst(tools[1..], name);
      forall tool ensures StandsFor(tools, name, tool) <==> FindTool(tools, name) == Some(tool) {
        FirstOrLater(tools, name, tool);
      }
      assert FindTool(tools, name).None? ==> forall i :: 0 < i < |tools| ==> tools[i] == tools[1..][i - 1];
    }
  }

  lemma FirstOrLater(tools: seq<Tool>, name: string, tool: Tool)
    requires tools != []
    ensures StandsFor(tools, name, tool) <==>
            if tools[0].name == name then tool == tools[0] else StandsFor(tools[1..], name, tool)
  {
    if tools[0].name != name {
      if StandsFor(tools, name, tool) {
        var i :| 0 <= i < |tools| && tools[i] == tool && tool.name == name &&
                 forall j :: 0 <= j < i ==> tools[j].name != name;
        assert tools[1..][i - 1] == tool;
      }
      if StandsFor(tools[1..], name, tool) {
        var i :| 0 <= i < |tools[1..]| && tools[1..][i] == tool && tool.name == name &&
                 forall j :: 0 <= j < i ==> tools[1..][j].name != name;
        assert tools[i + 1] == tool && forall j :: 0 < j < i + 1 ==> tools[j] == tools[1..][j - 1];
      }
    }
  }

  /** Calls run one after the other exactly when the agent says so or a tool that is called does. */
  lemma SequentialMeans(mode: Mode, calls: seq<Request>, tools: seq<Tool>)
    ensures UseSequential(mode, calls, tools) <==>
            mode == Sequential ||
            exists c, tool :: c in calls && StandsFor(tools, c.name, tool) && tool.mode == Some(Sequential)
  {
    forall c | c in calls
      ensures forall tool :: StandsFor(tools, c.name, tool) <==> FindTool(tools, c.name) == Some(tool)
    {
      FindsFirst(tools, c.name);
    }
  }

  // ---------------------------------------------------------------- sorting executions

  ghost predicate Increasing(s: seq<Execution>)
  {
    forall j, k :: 0 <= j < k < |s| ==> s[j].index < s[k].index
  }

  ghost predicate Ordered(s: seq<Execution>)
  {
    forall j, k :: 0 <= j < k < |s| ==> s[j].index <= s[k].index
  }

  /** Stable insertion into a list ordered by index. */
  function Insert(e: Execution, s: seq<Execution>): (r: seq<Execution>)
  {
    if s == [] || e.index <= s[0].index then [e] + s else [s[0]] + Insert(e, s[1..])
  }

  function SortByIndex(s: seq<Execution>): (r: seq<Execution>)
  {
    if s == [] then [] else Insert(s[0], SortByIndex(s[1..]))
  }

  lemma {:induction false} InsertPermutes(e: Execution, s: seq<Execution>)
    ensures multiset(Insert(e, s)) == multiset{e} + multiset(s)
  {
    if s != [] && s[0].index < e.index {
      InsertPermutes(e, s[1..]);
      WithoutHead(s);
    }
  }

  lemma {:induction false} SortPermutes(s: seq<Execution>)
    ensures multiset(SortByIndex(s)) == multiset(s)
  {
    if s != [] {
      SortPermutes(s[1..]);
      InsertPermutes(s[0], SortByIndex(s[1..]));
      WithoutHead(s);
    }
  }

  lemma {:induction false} InsertOrdered(e: Execution, s: seq<Execution>)
    requires Ordered(s)
    ensures Ordered(Insert(e, s))
  {
    if s != [] && s[0].index < e.index {
      InsertOrdered(e, s[1..]);
      var rest := Insert(e, s[1..]);
      InsertPermutes(e, s[1..]);
      forall x | x in rest
        ensures s[0].index <= x.index
      {
        assert x in multiset(rest);
        assert x == e || x in multiset(s[1..]);
      }
    }
  }

  lemma {:induction false} SortOrdered(s: seq<Execution>)
    ensures Ordered(SortByIndex(s))
  {
    if s != [] {
      SortOrdered(s[1..]);
      InsertOrdered(s[0], SortByIndex(s[1..]));
    }
  }

  lemma WithoutAt<T>(s: seq<T>, k: nat)
    requires k < |s|
    ensures multiset(s) == multiset{s[k]} + multiset(s[..k] + s[k + 1..])
  {
    assert s == s[..k] + [s[k]] + s[k + 1..];
  }

  lemma WithoutHead<T>(s: seq<T>)
    requires s != []
    ensures multiset(s) == multiset{s[0]} + multiset(s[1..])
  {
    assert s == [s[0]] + s[1..];
  }

  lemma Cancel<T>(x: T, a: multiset<T>, b: multiset<T>)
    requires multiset{x} + a == multiset{x} + b
    ensures a == b
  {
    assert a == (multiset{x} + a) - multiset{x};
    assert b == (multiset{x} + b) - multiset{x};
  }

  lemma SameLength<T>(s: seq<T>, t: seq<T>)
    requires multiset(s) == multiset(t)
    ensures |s| == |t|
  {
    assert |s| == |multiset(s)| && |t| == |multiset(t)|;
  }

  lemma SameTail<T>(s: seq<T>, t: seq<T>)
    requires s != [] && t != [] && s[0] == t[0] && multiset(s) == multiset(t)
    ensures multiset(s[1..]) == multiset(t[1..])
  {
    WithoutHead(s);
    WithoutHead(t);
    Cancel(s[0], multiset(s[1..]), multiset(t[1..]));
  }

  lemma SameHead(s: seq<Execution>, t: seq<Execution>)
    requires s != [] && t != [] && Increasing(s) && Ordered(t) && multiset(s) == multiset(t)
    ensures s[0] == t[0]
  {
    assert s[0] in multiset(t) && t[0] in multiset(s);
    var j :| 0 <= j < |t| && t[j] == s[0];
    var k :| 0 <= k < |s| && s[k] == t[0];
  }

  /** A list with distinct, increasing indices is the only ordered list with its elements. */
  lemma {:induction false} OrderedUnique(s: seq<Execution>, t: seq<Execution>)
    requires Increasing(s) && Ordered(t) && multiset(s) == multiset(t)
    ensures s == t
  {
    SameLength(s, t);
    if s != [] {
      SameHead(s, t);
      SameTail(s, t);
      OrderedUnique(s[1..], t[1..]);
    }
  }

  /** Whatever order the executions finished in, sorting restores the order of the calls. */
  lemma SortRestores(s: seq<Execution>, completed: seq<Execution>)
    requires Increasing(s) && multiset(completed) == multiset(s)
    ensures SortByIndex(completed) == s
  {
    SortOrdered(completed);
    SortPermutes(completed);
    OrderedUnique(s, SortByIndex(completed));
  }

  // ---------------------------------------------------------------- one batch

  /** What the tools, with the hooks around them, do in one batch, and the order in which side-by-side
      executions finish. */
  datatype Batch = Batch(
    outcome: Request -> Outcome,
    updates: Request -> seq<string>,
    finish: seq<Execution> -> seq<Execution>)

  function Execute(batch: Batch, c: Request): Execution
  {
    Execution(c.index, c.id, c.name, batch.outcome(c))
  }

  function ExecuteAll(batch: Batch, calls: seq<Request>): (r: seq<Execution>)
    ensures |r| == |calls| && forall k :: 0 <= k < |r| ==> r[k] == Execute(batch, calls[k])
  {
    seq(|calls|, k requires 0 <= k < |calls| => Execute(batch, calls[k]))
  }

  /** The order of completion: any rearrangement. */
  function Completed(batch: Batch, executions: seq<Execution>): (r: seq<Execution>)
  {
    if Rearranges(batch.finish(executions), executions) then batch.finish(executions) else executions
  }

  predicate Rearranges(s: seq<Execution>, t: seq<Execution>) { multiset(s) == multiset(t) }

  lemma CompletedRearranges(batch: Batch, executions: seq<Execution>)
    ensures multiset(Completed(batch, executions)) == multiset(executions)
  {
  }

  function Start(c: Request): Event { ToolStart(c.id, c.name, c.arguments) }

  function End(e: Execution): Event { ToolEnd(e.id, e.name, e.outcome) }

  function Updates(c: Request, updates: seq<string>): (events: seq<Event>)
    ensures |events| == |updates|
    ensures forall k :: 0 <= k < |events| ==> events[k] == ToolUpdate(c.id, c.name, updates[k])
  {
    seq(|updates|, k requires 0 <= k < |updates| => ToolUpdate(c.id, c.name, updates[k]))
  }

  function Starts(calls: seq<Request>): (events: seq<Event>)
    ensures |events| == |calls|
  {
    seq(|calls|, k requires 0 <= k < |calls| => Start(calls[k]))
  }

  function EndsOf(executions: seq<Execution>): (events: seq<Event>)
    ensures |events| == |executions|
  {
    seq(|executions|, k requires 0 <= k < |executions| => End(executions[k]))
  }

  function SequentialEvents(batch: Batch, calls: seq<Request>): (events: seq<Event>)
  {
    if calls == [] then [] else
      var n := |calls| - 1;
      SequentialEvents(batch, calls[..n])
      + [Start(calls[n])] + Updates(calls[n], batch.updates(calls[n])) + [End(Execute(batch, calls[n]))]
  }

  function BatchEvents(batch: Batch, calls: seq<Request>, sequential: bool): (events: seq<Event>)
  {
    if sequential then SequentialEvents(batch, calls)
    else Starts(calls) + EndsOf(Completed(batch, ExecuteAll(batch, calls)))
  }

  /** The executions a batch hands on, in the order in which it hands them on. */
  function BatchExecutions(batch: Batch, calls: seq<Request>, sequential: bool): (r: seq<Execution>)
  {
    if sequential then ExecuteAll(batch, calls) else SortByIndex(Completed(batch, ExecuteAll(batch, calls)))
  }

  function ResultMessage(e: Execution): Message
  {
    ToolResult(e.id, e.id, e.name, e.outcome.isError, e.outcome.content)
  }

  function ResultMessages(executions: seq<Execution>): (r: seq<Message>)
    ensures |r| == |executions| && forall k :: 0 <= k < |r| ==> r[k] == ResultMessage(executions[k])
  {
    seq(|executions|, k requires 0 <= k < |executions| => ResultMessage(executions[k]))
  }

  /** The message says which call it answers and what came of it. */
  predicate Reports(m: Message, id: string, name: string, outcome: Outcome)
  {
    && m.ToolResult? && m.id == id && m.callId == id && m.toolName == name
    && m.isError == outcome.isError && m.content == outcome.content
  }

  /** `ordered` are the executions by their indices. */
  ghost predicate InIndexOrder(executions: seq<Execution>, ordered: seq<Execution>)
  {
    Rearranges(ordered, executions) && Ordered(ordered)
  }

  /** Sorting again and pushing one message per execution. */
  method AppendToolResultMessages(messages: seq<Message>, executions: seq<Execution>)
    returns (r: seq<Message>, ghost ordered: seq<Execution>)
    ensures r == messages + ResultMessages(SortByIndex(executions))
    ensures InIndexOrder(executions, ordered) && Appends(messages, ordered, r)
  {
    SortOrdered(executions);
    SortPermutes(executions);
    var sorted := SortByIndex(executions);
    r, ordered := messages, sorted;
    for i := 0 to |sorted|
      invariant r == messages + ResultMessages(sorted[..i])
    {
      r := r + [ResultMessage(sorted[i])];
      assert sorted[..i + 1] == sorted[..i] + [sorted[i]];
    }
    assert sorted[..|sorted|] == sorted;
    ResultsReport(messages, sorted);
  }

  /** One message per execution goes behind the others. */
  ghost predicate Appends(messages: seq<Message>, ordered: seq<Execution>, r: seq<Message>)
  {
    && |r| == |messages| + |ordered| && messages <= r
    && forall k :: 0 <= k < |ordered| ==>
         Reports(r[|messages| + k], ordered[k].id, ordered[k].name, ordered[k].outcome)
  }

  lemma ResultsReport(messages: seq<Message>, ordered: seq<Execution>)
    ensures Appends(messages, ordered, messages + ResultMessages(ordered))
  {
  }

  /** The loop that runs calls one after the other. */
  method RunSequential(batch: Batch, calls: seq<Request>) returns (executions: seq<Execution>, events: seq<Event>)
    ensures executions == BatchExecutions(batch, calls, true) && events == BatchEvents(batch, calls, true)
  {
    executions, events := [], [];
    for i := 0 to |calls|
      invariant executions == ExecuteAll(batch, calls[..i])
      invariant events == SequentialEvents(batch, calls[..i])
    {
      assert calls[..i + 1][..i] == calls[..i];
      var c := calls[i];
      events := events + [Start(c)];
      events := events + Updates(c, batch.updates(c));
      var e := Execute(batch, c);
      events := events + [End(e)];
      executions := executions + [e];
    }
    assert calls[..|calls|] == calls;
  }

  /** The executions of a batch do not depend on the mode or on the order of completion. */
  lemma BatchIsCalls(batch: Batch, calls: seq<Request>, sequential: bool)
    requires forall j, k :: 0 <= j < k < |calls| ==> calls[j].index < calls[k].index
    ensures BatchExecutions(batch, calls, sequential) == ExecuteAll(batch, calls)
    ensures SortByIndex(BatchExecutions(batch, calls, sequential)) == ExecuteAll(batch, calls)
  {
    var executions := ExecuteAll(batch, calls);
    assert Increasing(executions);
    CompletedRearranges(batch, executions);
    SortRestores(executions, Completed(batch, executions));
    SortRestores(executions, executions);
  }

  /** The results of a batch report what each call came to, in the order of the calls. */
  ghost predicate ReportsAll(batch: Batch, calls: seq<Request>, results: seq<Message>)
  {
    && |results| == |calls|
    && forall k :: 0 <= k < |calls| ==> Reports(results[k], calls[k].id, calls[k].name, batch.outcome(calls[k]))
  }

  /** Whatever the mode and the order of completion. */
  lemma BatchReportsAll(batch: Batch, calls: seq<Request>, sequential: bool)
    requires forall j, k :: 0 <= j < k < |calls| ==> calls[j].index < calls[k].index
    ensures ReportsAll(batch, calls, ResultMessages(SortByIndex(BatchExecutions(batch, calls, sequential))))
  {
    BatchIsCalls(batch, calls, sequential);
  }

  // ---------------------------------------------------------------- every start has its end

  /** The events of one kind, in order. */
  function Only(events: seq<Event>, kind: Event -> bool): seq<Event>
  {
    if events == [] then [] else
      var n := |events| - 1;
      Only(events[..n], kind) + if kind(events[n]) then [events[n]] else []
  }

  function IsStart(): Event -> bool { (e: Event) => e.ToolStart? }

  function IsUpdate(): Event -> bool { (e: Event) => e.ToolUpdate? }

  function IsEnd(): Event -> bool { (e: Event) => e.ToolEnd? }

  /** What is announced, told meanwhile and reported of the calls. */
  function Announced(calls: seq<Request>): (r: seq<Event>)
    ensures |r| == |calls|
  {
    seq(|calls|, k requires 0 <= k < |calls| => ToolStart(calls[k].id, calls[k].name, calls[k].arguments))
  }

  function Reported(batch: Batch, calls: seq<Request>): (r: seq<Event>)
    ensures |r| == |calls|
  {
    seq(|calls|, k requires 0 <= k < |calls| => ToolEnd(calls[k].id, calls[k].name, batch.outcome(calls[k])))
  }

  function ToldMeanwhile(batch: Batch, calls: seq<Request>): seq<Event>
  {
    if calls == [] then [] else
      var n := |calls| - 1;
      ToldMeanwhile(batch, calls[..n]) + Updates(calls[n], batch.updates(calls[n]))
  }

  lemma {:induction false} OnlyConcat(a: seq<Event>, b: seq<Event>, kind: Event -> bool)
    ensures Only(a + b, kind) == Only(a, kind) + Only(b, kind)
    decreases |b|
  {
    if b == [] {
      assert a + b == a;
    } else {
      var n := |b| - 1;
      assert (a + b)[..|a| + n] == a + b[..n];
      OnlyConcat(a, b[..n], kind);
    }
  }

  lemma OnlyOne(e: Event, kind: Event -> bool)
    ensures Only([e], kind) == if kind(e) then [e] else []
  {
    assert [e][..0] == [];
  }

  lemma {:induction false} OnlyAll(events: seq<Event>, kind: Event -> bool)
    requires forall k :: 0 <= k < |events| ==> kind(events[k])
    ensures Only(events, kind) == events
  {
    if events != [] { OnlyAll(events[..|events| - 1], kind); }
  }

  lemma {:induction false} OnlyNone(events: seq<Event>, kind: Event -> bool)
    requires forall k :: 0 <= k < |events| ==> !kind(events[k])
    ensures Only(events, kind) == []
  {
    if events != [] { OnlyNone(events[..|events| - 1], kind); }
  }

  /** One call after the other: its start, what it tells meanwhile, and its end. */
  lemma OnlyOfOne(before: seq<Event>, start: Event, updates: seq<Event>, end: Event, kind: Event -> bool)
    ensures Only(before + [start] + updates + [end], kind) ==
            Only(before, kind) + Only([start], kind) + Only(updates, kind) + Only([end], kind)
  {
    OnlyConcat(before + [start] + updates, [end], kind);
    OnlyConcat(before + [start], updates, kind);
    OnlyConcat(before, [start], kind);
  }

  lemma OneMoreCall(batch: Batch, calls: seq<Request>)
    requires calls != []
    ensures var n := |calls| - 1;
            && Announced(calls) == Announced(calls[..n]) + [Start(calls[n])]
            && Reported(batch, calls) == Reported(batch, calls[..n]) + [End(Execute(batch, calls[n]))]
  {
  }

  lemma WithNothing<T>(a: seq<T>, b: seq<T>)
    ensures a + b + [] + [] == a + b && a + [] + b + [] == a + b && a + [] + [] + b == a + b
  {
    assert a + [] == a && b + [] == b;
  }

  lemma {:induction false} SequentialCalls(batch: Batch, calls: seq<Request>)
    ensures var events := SequentialEvents(batch, calls);
            && Only(events, IsStart()) == Announced(calls) && Only(events, IsEnd()) == Reported(batch, calls)
            && Only(events, IsUpdate()) == ToldMeanwhile(batch, calls)
  {
    if calls != [] {
      var n := |calls| - 1;
      var start, updates, end := Start(calls[n]), Updates(calls[n], batch.updates(calls[n])),
                                 End(Execute(batch, calls[n]));
      var before := SequentialEvents(batch, calls[..n]);
      SequentialCalls(batch, calls[..n]);
      OneMoreCall(batch, calls);
      OnlyStartOfOne(before, start, updates, end);
      OnlyUpdatesOfOne(before, start, updates, end);
      OnlyEndOfOne(before, start, updates, end);
    }
  }

  lemma OnlyStartOfOne(before: seq<Event>, start: Event, updates: seq<Event>, end: Event)
    requires start.ToolStart? && end.ToolEnd? && forall k :: 0 <= k < |updates| ==> updates[k].ToolUpdate?
    ensures Only(before + [start] + updates + [end], IsStart()) == Only(before, IsStart()) + [start]
  {
    OnlyOfOne(before, start, updates, end, IsStart());
    OnlyNone(updates, IsStart());
    OnlyOne(start, IsStart());
    OnlyOne(end, IsStart());
    WithNothing(Only(before, IsStart()), [start]);
  }

  lemma OnlyUpdatesOfOne(before: seq<Event>, start: Event, updates: seq<Event>, end: Event)
    requires start.ToolStart? && end.ToolEnd? && forall k :: 0 <= k < |updates| ==> updates[k].ToolUpdate?
    ensures Only(before + [start] + updates + [end], IsUpdate()) == Only(before, IsUpdate()) + updates
  {
    OnlyOfOne(before, start, updates, end, IsUpdate());
    OnlyAll(updates, IsUpdate());
    OnlyOne(start, IsUpdate());
    OnlyOne(end, IsUpdate());
    WithNothing(Only(before, IsUpdate()), updates);
  }

  lemma OnlyEndOfOne(before: seq<Event>, start: Event, updates: seq<Event>, end: Event)
    requires start.ToolStart? && end.ToolEnd? && forall k :: 0 <= k < |updates| ==> updates[k].ToolUpdate?
    ensures Only(before + [start] + updates + [end], IsEnd()) == Only(before, IsEnd()) + [end]
  {
    OnlyOfOne(before, start, updates, end, IsEnd());
    OnlyNone(updates, IsEnd());
    OnlyOne(start, IsEnd());
    OnlyOne(end, IsEnd());
    WithNothing(Only(before, IsEnd()), [end]);
  }

  function Calls(calls: seq<Request>): (r: seq<(string, string)>)
    ensures |r| == |calls|
  {
    seq(|calls|, k requires 0 <= k < |calls| => (calls[k].id, calls[k].name))
  }

  function ExecutionCalls(executions: seq<Execution>): (r: seq<(string, string)>)
    ensures |r| == |executions|
  {
    Mapped((e: Execution) => (e.id, e.name), executions)
  }

  function Mapped<A, B>(f: A -> B, s: seq<A>): (r: seq<B>)
    ensures |r| == |s| && forall k :: 0 <= k < |r| ==> r[k] == f(s[k])
  {
    seq(|s|, k requires 0 <= k < |s| => f(s[k]))
  }

  lemma TakeOut<A, B>(f: A -> B, t: seq<A>, x: A) returns (rest: seq<A>)
    requires x in t
    ensures multiset(t) == multiset{x} + multiset(rest)
    ensures multiset(Mapped(f, t)) == multiset{f(x)} + multiset(Mapped(f, rest))
  {
    var k :| 0 <= k < |t| && t[k] == x;
    rest := t[..k] + t[k + 1..];
    WithoutAt(t, k);
    var image := Mapped(f, t);
    WithoutAt(image, k);
    assert image[..k] + image[k + 1..] == Mapped(f, rest);
  }

  /** Rearranging a list rearranges its image. */
  lemma {:induction false} MappedPermutes<A, B>(f: A -> B, s: seq<A>, t: seq<A>)
    requires multiset(s) == multiset(t)
    ensures multiset(Mapped(f, s)) == multiset(Mapped(f, t))
    decreases |s|
  {
    SameLength(s, t);
    if s != [] {
      assert s[0] in multiset(t);
      var rest := TakeOut(f, t, s[0]);
      WithoutHead(s);
      Cancel(s[0], multiset(s[1..]), multiset(rest));
      MappedPermutes(f, s[1..], rest);
      WithoutHead(Mapped(f, s));
      assert Mapped(f, s)[1..] == Mapped(f, s[1..]);
    }
  }

  /** Rearranging executions rearranges their calls. */
  lemma CallsOfPermutation(s: seq<Execution>, t: seq<Execution>)
    requires multiset(s) == multiset(t)
    ensures multiset(ExecutionCalls(s)) == multiset(ExecutionCalls(t))
  {
    MappedPermutes((e: Execution) => (e.id, e.name), s, t);
  }

  /** In either mode every call is announced once, in order, with its arguments, and its end is told once with what it
      came to: in the order of the calls when they run one after the other, in some order otherwise. Only then is
      something told meanwhile. */
  lemma EveryStartHasItsEnd(batch: Batch, calls: seq<Request>, sequential: bool)
    ensures var events := BatchEvents(batch, calls, sequential);
            && Only(events, IsStart()) == Announced(calls)
            && multiset(Only(events, IsEnd())) == multiset(Reported(batch, calls))
            && (sequential ==> Only(events, IsEnd()) == Reported(batch, calls))
            && Only(events, IsUpdate()) == if sequential then ToldMeanwhile(batch, calls) else []
  {
    if sequential {
      SequentialCalls(batch, calls);
    } else {
      SideBySideCalls(batch, calls, Completed(batch, ExecuteAll(batch, calls)));
    }
  }

  lemma SideBySideCalls(batch: Batch, calls: seq<Request>, completed: seq<Execution>)
    requires multiset(completed) == multiset(ExecuteAll(batch, calls))
    ensures var events := Starts(calls) + EndsOf(completed);
            && Only(events, IsStart()) == Announced(calls) && Only(events, IsUpdate()) == []
            && multiset(Only(events, IsEnd())) == multiset(Reported(batch, calls))
  {
    OnlyOfTwo(Starts(calls), EndsOf(completed));
    EndsPermuted(batch, calls, completed);
    assert Starts(calls) == Announced(calls);
  }

  lemma OnlyOfTwo(starts: seq<Event>, ends: seq<Event>)
    requires forall k :: 0 <= k < |starts| ==> starts[k].ToolStart?
    requires forall k :: 0 <= k < |ends| ==> ends[k].ToolEnd?
    ensures Only(starts + ends, IsStart()) == starts && Only(starts + ends, IsUpdate()) == []
    ensures Only(starts + ends, IsEnd()) == ends
  {
    OnlyConcat(starts, ends, IsStart());
    OnlyAll(starts, IsStart());
    OnlyNone(ends, IsStart());
    OnlyConcat(starts, ends, IsUpdate());
    OnlyNone(starts, IsUpdate());
    OnlyNone(ends, IsUpdate());
    OnlyConcat(starts, ends, IsEnd());
    OnlyNone(starts, IsEnd());
    OnlyAll(ends, IsEnd());
    assert starts + [] == starts && [] + ends == ends;
  }

  lemma EndsPermuted(batch: Batch, calls: seq<Request>, completed: seq<Execution>)
    requires multiset(completed) == multiset(ExecuteAll(batch, calls))
    ensures multiset(EndsOf(completed)) == multiset(Reported(batch, calls))
  {
    var end := (e: Execution) => End(e);
    MappedPermutes(end, completed, ExecuteAll(batch, calls));
    assert EndsOf(completed) == Mapped(end, completed);
    assert Reported(batch, calls) == Mapped(end, ExecuteAll(batch, calls));
  }
}
