/** Reassembly of an assistant message from the events of a proxy: each content index has its own stream of
events, and the streams arrive interleaved. */
module Proxy {
  import opened Basics
  import opened Messages

  datatype Kind = TextKind | ThinkingKind | ToolKind

  datatype Block =
    | TextBlock(text: string, signature: Option<string>)
    | ThinkingBlock(thinking: string, signature: Option<string>)
    | ToolBlock(id: string, name: string, arguments: string)

  datatype Event =
    | StreamStart
    | Begin(index: nat, kind: Kind, id: string, name: string)
    | Delta(index: nat, kind: Kind, data: string)
    | End(index: nat, kind: Kind, signature: Option<string>)
    | Finished(reason: StopReason, usage: Usage)
    | Failed(reason: StopReason, message: Option<string>, usage: Usage)

  datatype Partial = Partial(content: seq<Block>, stopReason: StopReason, errorMessage: Option<string>, usage: Usage)

  datatype State = State(partial: Partial, toolJson: map<nat, string>)

  /** Turns JSON text that may be incomplete into arguments. */
  type Parser = string -> string

  const NO_ARGUMENTS := "{}"

  const FILLER := TextBlock("", None)

  // ---------------------------------------------------------------- one event

  function KindOf(b: Block): Kind
  {
    match b
    case TextBlock(_, _) => TextKind
    case ThinkingBlock(_, _) => ThinkingKind
    case ToolBlock(_, _, _) => ToolKind
  }

  /** The content with empty text up to and including `index`. */
  function Padded(content: seq<Block>, index: nat): (r: seq<Block>)
    ensures |r| == Max(|content|, index + 1)
    ensures forall i :: 0 <= i < |r| ==> r[i] == if i < |content| then content[i] else TextBlock("", None)
  {
    if index < |content| then content else content + seq(index + 1 - |content|, _ => FILLER)
  }

  function NewBlock(kind: Kind, id: string, name: string): Block
  {
    match kind
    case TextKind => TextBlock("", None)
    case ThinkingKind => ThinkingBlock("", None)
    case ToolKind => ToolBlock(id, name, NO_ARGUMENTS)
  }

  /** The JSON text gathered for an index. */
  function Gathered(s: State, index: nat): string { if index in s.toolJson then s.toolJson[index] else "" }

  /** Whether an event fits the block it is for. */
  predicate Fits(s: State, e: Event)
  {
    (e.Delta? || e.End?) ==> e.index < |s.partial.content| && KindOf(s.partial.content[e.index]) == e.kind
  }

  function WithBlock(s: State, index: nat, b: Block): State
    requires index < |s.partial.content|
  {
    s.(partial := s.partial.(content := s.partial.content[index := b]))
  }

  /** The block after a delta; `gathered` is the JSON text with the delta. */
  function Extended(parse: Parser, b: Block, data: string, gathered: string): Block
  {
    match b
    case TextBlock(text, signature) => TextBlock(text + data, signature)
    case ThinkingBlock(thinking, signature) => ThinkingBlock(thinking + data, signature)
    case ToolBlock(id, name, _) => ToolBlock(id, name, parse(gathered))
  }

  function Signed(b: Block, signature: Option<string>): Block
  {
    match b
    case TextBlock(text, _) => TextBlock(text, signature)
    case ThinkingBlock(thinking, _) => ThinkingBlock(thinking, signature)
    case ToolBlock(_, _, _) => b
  }

  /** The state after an event. An event that does not fit changes nothing. */
  function Apply(parse: Parser, s: State, e: Event): State
  {
    if !Fits(s, e) then s else
      match e
      case StreamStart => s
      case Begin(index, kind, id, name) =>
        var padded := s.(partial := s.partial.(content := Padded(s.partial.content, index)));
        var begun := WithBlock(padded, index, NewBlock(kind, id, name));
        if kind.ToolKind? then begun.(toolJson := begun.toolJson[index := ""]) else begun
      case Delta(index, kind, data) =>
        var gathered := Gathered(s, index) + data;
        var more := WithBlock(s, index, Extended(parse, s.partial.content[index], data, gathered));
        if kind.ToolKind? then more.(toolJson := more.toolJson[index := gathered]) else more
      case End(index, kind, signature) =>
        var ended := WithBlock(s, index, Signed(s.partial.content[index], signature));
        if kind.ToolKind? then ended.(toolJson := ended.toolJson - {index}) else ended
      case Finished(reason, usage) => s.(partial := s.partial.(stopReason := reason, usage := usage))
      case Failed(reason, message, usage) =>
        s.(partial := s.partial.(stopReason := reason, errorMessage := message, usage := usage))
  }

  /** The state of a message under assembly. */
  class MessageState {
    var partial: Partial
    var toolJson: map<nat, string>

    ghost function Value(): State
      reads this
    {
      State(partial, toolJson)
    }

    constructor (initial: Partial)
      ensures partial == initial && toolJson == map[]
    {
      partial, toolJson := initial, map[];
    }

    method EnsureContentLength(index: nat)
      modifies this
      ensures partial == old(partial).(content := Padded(old(partial.content), index)) && toolJson == old(toolJson)
    {
      ghost var before := partial.content;
      while |partial.content| <= index
        invariant partial == old(partial).(content := partial.content) && toolJson == old(toolJson)
        invariant |before| <= |partial.content| <= Max(|before|, index + 1)
        invariant forall i :: 0 <= i < |partial.content| ==>
          partial.content[i] == if i < |before| then before[i] else FILLER
        decreases index + 1 - |partial.content|
      {
        partial := partial.(content := partial.content + [FILLER]);
      }
      assert partial.content == Padded(before, index);
    }

    method PutBlock(index: nat, b: Block)
      requires index < |partial.content|
      modifies this
      ensures Value() == WithBlock(old(Value()), index, b)
    {
      partial := partial.(content := partial.content[index := b]);
    }

    /** Takes in one event and gives out the message so far, or an error. */
    method Process(parse: Parser, e: Event) returns (r: Result<Partial, Kind>)
      modifies this
      ensures Value() == Apply(parse, old(Value()), e)
      ensures r == if Fits(old(Value()), e) then Ok(partial) else Err(e.kind)
    {
      match e {
        case StreamStart =>
        case Begin(index, kind, id, name) =>
          EnsureContentLength(index);
          PutBlock(index, NewBlock(kind, id, name));
          if kind.ToolKind? { toolJson := toolJson[index := ""]; }
        case Delta(index, kind, data) =>
          if index >= |partial.content| || KindOf(partial.content[index]) != kind { return Err(kind); }
          var gathered := (if index in toolJson then toolJson[index] else "") + data;
          if kind.ToolKind? { toolJson := toolJson[index := gathered]; }
          PutBlock(index, Extended(parse, partial.content[index], data, gathered));
        case End(index, kind, signature) =>
          if index >= |partial.content| || KindOf(partial.content[index]) != kind { return Err(kind); }
          if kind.ToolKind? { toolJson := toolJson - {index}; }
          PutBlock(index, Signed(partial.content[index], signature));
        case Finished(reason, usage) =>
          partial := partial.(stopReason := reason, usage := usage);
        case Failed(reason, message, usage) =>
          partial := partial.(stopReason := reason, errorMessage := message, usage := usage);
      }
      r := Ok(partial);
    }

    /** A whole stream: events are taken in until one does not fit; then the message is marked as failed. */
    method ProcessAll(parse: Parser, explain: Event -> string, events: seq<Event>)
      returns (shown: seq<Partial>, failed: bool)
      modifies this
      ensures failed <==> !Accepted(parse, old(Value()), events)
      ensures !failed ==> |shown| == |events| && Value() == RunAll(parse, old(Value()), events)
      ensures failed ==>
              && 0 < |shown| <= |events| && var k := |shown| - 1;
              && shown[k] == RunAll(parse, old(Value()), events[..k]).partial.(
                               stopReason := Error, errorMessage := Some(explain(events[k])))
              && partial == shown[k]
      ensures forall i :: 0 <= i < |shown| - (if failed then 1 else 0) ==>
                shown[i] == RunAll(parse, old(Value()), events[..i + 1]).partial
    {
      shown, failed := [], false;
      for i := 0 to |events|
        invariant Accepted(parse, old(Value()), events[..i]) && Value() == RunAll(parse, old(Value()), events[..i])
        invariant |shown| == i && forall j :: 0 <= j < i ==>
          shown[j] == RunAll(parse, old(Value()), events[..j + 1]).partial
        invariant !failed
      {
        assert events[..i + 1][..i] == events[..i];
        var r := Process(parse, events[i]);
        if r.Err? {
          NotAccepted(parse, old(Value()), events, i);
          partial := partial.(stopReason := Error, errorMessage := Some(explain(events[i])));
          return shown + [partial], true;
        }
        shown := shown + [r.value];
      }
      assert events[..|events|] == events;
    }
  }

  // ---------------------------------------------------------------- whole streams

  /** The state after a list of events. */
  function RunAll(parse: Parser, s: State, events: seq<Event>): State
  {
    if events == [] then s else
      Apply(parse, RunAll(parse, s, events[..|events| - 1]), events[|events| - 1])
  }

  /** Every event fits. */
  predicate Accepted(parse: Parser, s: State, events: seq<Event>)
  {
    events == [] || (var n := |events| - 1;
                     Accepted(parse, s, events[..n]) && Fits(RunAll(parse, s, events[..n]), events[n]))
  }

  lemma {:induction false} NotAccepted(parse: Parser, s: State, events: seq<Event>, i: nat)
    requires i < |events| && !Fits(RunAll(parse, s, events[..i]), events[i])
    ensures !Accepted(parse, s, events)
  {
    if i < |events| - 1 {
      var n := |events| - 1;
      assert events[..n][..i] == events[..i];
      NotAccepted(parse, s, events[..n], i);
    }
  }

  predicate For(e: Event, index: nat) { (e.Begin? || e.Delta? || e.End?) && e.index == index }

  /** The events of one index. */
  function Only(events: seq<Event>, index: nat): seq<Event>
  {
    if events == [] then [] else
      var n := |events| - 1;
      if For(events[n], index) then Only(events[..n], index) + [events[n]] else Only(events[..n], index)
  }

  lemma OnlyOneMore(events: seq<Event>, e: Event, index: nat)
    ensures Only(events + [e], index) == Only(events, index) + if For(e, index) then [e] else []
  {
    assert (events + [e])[..|events|] == events;
  }

  /** The events of one index since it last began; empty when it never did. */
  function Since(events: seq<Event>, index: nat): seq<Event>
  {
    if events == [] then [] else
      var n := |events| - 1;
      if !For(events[n], index) then Since(events[..n], index)
      else if events[n].Begin? then [events[n]]
      else if Since(events[..n], index) == [] then []
      else Since(events[..n], index) + [events[n]]
  }

  /** Two states have the same block at an index, and for a tool call the same JSON text. */
  ghost predicate Agree(s: State, t: State, index: nat)
  {
    && index < |s.partial.content| && index < |t.partial.content|
    && s.partial.content[index] == t.partial.content[index]
    && (s.partial.content[index].ToolBlock? ==> Gathered(s, index) == Gathered(t, index))
  }

  /** Events of other indices leave a block alone. */
  lemma OthersLeaveAlone(parse: Parser, s: State, t: State, e: Event, index: nat)
    requires Agree(s, t, index) && !For(e, index)
    ensures Agree(Apply(parse, s, e), t, index)
  {
  }

  /** Events of the index do the same to states that agree. */
  lemma OwnDoTheSame(parse: Parser, s: State, t: State, e: Event, index: nat)
    requires For(e, index) && (e.Begin? || Agree(s, t, index))
    ensures Agree(Apply(parse, s, e), Apply(parse, t, e), index) && (Fits(s, e) <==> Fits(t, e))
  {
  }

  /** The block at an index depends only on the events of that index since it last began, whatever else is interleaved
      and whatever the state was before. */
  lemma {:induction false} Isolated(parse: Parser, s: State, t: State, events: seq<Event>, index: nat)
    requires Since(events, index) != []
    ensures Agree(RunAll(parse, s, events), RunAll(parse, t, Since(events, index)), index)
  {
    var n := |events| - 1;
    var e := events[n];
    var init := events[..n];
    if !For(e, index) {
      Isolated(parse, s, t, init, index);
      OthersLeaveAlone(parse, RunAll(parse, s, init), RunAll(parse, t, Since(init, index)), e, index);
    } else if e.Begin? {
      assert [e][..0] == [];
      OwnDoTheSame(parse, RunAll(parse, s, init), t, e, index);
    } else {
      Isolated(parse, s, t, init, index);
      OwnDoTheSame(parse, RunAll(parse, s, init), RunAll(parse, t, Since(init, index)), e, index);
      assert (Since(init, index) + [e])[..|Since(init, index)|] == Since(init, index);
    }
  }

  lemma {:induction false} SinceOfOnly(events: seq<Event>, index: nat)
    ensures Since(Only(events, index), index) == Since(events, index)
  {
    if events != [] {
      var n := |events| - 1;
      var own := Only(events[..n], index);
      SinceOfOnly(events[..n], index);
      assert (own + [events[n]])[..|own|] == own;
    }
  }

  /** The final block at an index is the one its own stream alone would give. */
  lemma {:induction false} BlockIsOwn(parse: Parser, s: State, t: State, events: seq<Event>, index: nat)
    requires Since(events, index) != []
    ensures Agree(RunAll(parse, s, events), RunAll(parse, t, Only(events, index)), index)
  {
    SinceOfOnly(events, index);
    Isolated(parse, s, s, events, index);
    Isolated(parse, t, s, Only(events, index), index);
  }

  // ---------------------------------------------------------------- acceptance

  /** Every index is there from the start, or begins before anything else happens to it. */
  ghost predicate Opened(s: State, events: seq<Event>)
  {
    forall k :: 0 <= k < |events| ==> OpenedAt(s, events[..k], events[k])
  }

  ghost predicate OpenedAt(s: State, before: seq<Event>, e: Event)
  {
    (e.Delta? || e.End?) ==> IsOpen(s, before, e.index)
  }

  predicate IsOpen(s: State, before: seq<Event>, index: nat)
  {
    index < |s.partial.content| || Since(before, index) != []
  }

  lemma OpenedStep(s: State, events: seq<Event>)
    requires events != []
    ensures var n := |events| - 1; Opened(s, events) <==> Opened(s, events[..n]) && OpenedAt(s, events[..n], events[n])
  {
    var n := |events| - 1;
    assert forall k :: 0 <= k < n ==> events[..n][..k] == events[..k];
    if Opened(s, events) {
      forall k | 0 <= k < n ensures OpenedAt(s, events[..n][..k], events[..n][k]) {
        assert OpenedAt(s, events[..k], events[k]);
      }
    } else if Opened(s, events[..n]) {
      var k :| 0 <= k < |events| && !OpenedAt(s, events[..k], events[k]);
      assert k < n ==> OpenedAt(s, events[..n][..k], events[..n][k]);
    }
  }

  /** The block at an open index is the one the stream of that index alone gives. */
  lemma {:induction false} OwnBlock(parse: Parser, s: State, events: seq<Event>, index: nat)
    requires IsOpen(s, events, index)
    ensures Agree(RunAll(parse, s, events), RunAll(parse, s, Only(events, index)), index)
  {
    if events != [] {
      var n := |events| - 1;
      var e, init := events[n], events[..n];
      var own := Only(init, index);
      if For(e, index) {
        if !e.Begin? { OwnBlock(parse, s, init, index); }
        OwnDoTheSame(parse, RunAll(parse, s, init), RunAll(parse, s, own), e, index);
        assert (own + [e])[..|own|] == own;
      } else {
        OwnBlock(parse, s, init, index);
        OthersLeaveAlone(parse, RunAll(parse, s, init), RunAll(parse, s, own), e, index);
      }
    }
  }

  /** The stream of an index that never began adds no block. */
  lemma {:induction false} OwnAddsNothing(parse: Parser, s: State, events: seq<Event>, index: nat)
    requires Since(events, index) == []
    ensures |RunAll(parse, s, Only(events, index)).partial.content| == |s.partial.content|
  {
    if events != [] {
      var n := |events| - 1;
      var own := Only(events[..n], index);
      OwnAddsNothing(parse, s, events[..n], index);
      assert (own + [events[n]])[..|own|] == own;
    }
  }

  /** Alone with the events of its index an event fits exactly when it fits among all of them and its index is open. */
  lemma FitsAlone(parse: Parser, s: State, before: seq<Event>, e: Event)
    requires e.Begin? || e.Delta? || e.End?
    ensures Fits(RunAll(parse, s, Only(before, e.index)), e) <==>
            Fits(RunAll(parse, s, before), e) && OpenedAt(s, before, e)
  {
    if !e.Begin? {
      if IsOpen(s, before, e.index) {
        OwnBlock(parse, s, before, e.index);
      } else {
        OwnAddsNothing(parse, s, before, e.index);
      }
    }
  }

  /** The stream of every index is accepted. */
  ghost predicate EachAccepted(parse: Parser, s: State, events: seq<Event>)
  {
    forall index: nat :: Accepted(parse, s, Only(events, index))
  }

  lemma OneMoreAccepted(parse: Parser, s: State, events: seq<Event>, index: nat)
    requires events != [] && For(events[|events| - 1], index)
    ensures var before := Only(events[..|events| - 1], index);
            Accepted(parse, s, Only(events, index)) <==>
            Accepted(parse, s, before) && Fits(RunAll(parse, s, before), events[|events| - 1])
  {
    var before := Only(events[..|events| - 1], index);
    assert (before + [events[|events| - 1]])[..|before|] == before;
  }

  /** One event more is a matter of its own index. */
  lemma EachStep(parse: Parser, s: State, events: seq<Event>)
    requires events != []
    ensures var n := |events| - 1;
            var e := events[n];
            EachAccepted(parse, s, events) <==>
            && EachAccepted(parse, s, events[..n])
            && (e.Begin? || e.Delta? || e.End? ==> Fits(RunAll(parse, s, Only(events[..n], e.index)), e))
  {
    var n := |events| - 1;
    var e := events[n];
    if e.Begin? || e.Delta? || e.End? { OneMoreAccepted(parse, s, events, e.index); }
    if EachAccepted(parse, s, events) {
      forall index: nat ensures Accepted(parse, s, Only(events[..n], index)) {
        assert Accepted(parse, s, Only(events, index));
      }
    } else if EachAccepted(parse, s, events[..n]) {
      var index: nat :| !Accepted(parse, s, Only(events, index));
      assert Accepted(parse, s, Only(events[..n], index));
    }
  }

  /** The streams of all indices are accepted one by one exactly when their interleaving is accepted and every index is
      opened first. */
  lemma {:induction false} AcceptedIsOwn(parse: Parser, s: State, events: seq<Event>)
    ensures EachAccepted(parse, s, events) <==> Accepted(parse, s, events) && Opened(s, events)
  {
    if events != [] {
      var n := |events| - 1;
      var e := events[n];
      AcceptedIsOwn(parse, s, events[..n]);
      OpenedStep(s, events);
      EachStep(parse, s, events);
      if e.Begin? || e.Delta? || e.End? { FitsAlone(parse, s, events[..n], e); }
    }
  }

  /** An interleaving that is accepted although the stream of index 0 alone is not: the text at index 0 goes into the
      padding that index 1 brought. */
  lemma PaddingIsAccepted(parse: Parser, s: State)
    requires s.partial.content == []
    ensures var events := [Begin(1, TextKind, "", ""), Delta(0, TextKind, "x")];
            Accepted(parse, s, events) && !EachAccepted(parse, s, events)
  {
    var b, d := Begin(1, TextKind, "", ""), Delta(0, TextKind, "x");
    var events := [b, d];
    OneMore(parse, s, events, [b], d);
    OneMore(parse, s, [b], [], b);
    OneMore(parse, s, [d], [], d);
    OnlyOneMore([], b, 0);
    OnlyOneMore([b], d, 0);
    assert [] + [b] == [b] && [b] + [d] == events && [] + [d] == [d];
    assert !Accepted(parse, s, Only(events, 0));
  }

  /** A block that is there from the start keeps its kind, and one that is padded in is text, as long as its index does
      not begin. */
  lemma {:induction false} UnbegunKind(parse: Parser, s: State, events: seq<Event>, index: nat)
    requires Since(events, index) == []
    ensures var content := RunAll(parse, s, events).partial.content;
            index < |content| ==>
              KindOf(content[index]) == if index < |s.partial.content| then KindOf(s.partial.content[index])
                else TextKind
    ensures |s.partial.content| <= |RunAll(parse, s, events).partial.content|
  {
    if events != [] { UnbegunKind(parse, s, events[..|events| - 1], index); }
  }

  /** An index has a stream of its own. */
  predicate Began(events: seq<Event>, index: nat) { Since(events, index) != [] }

  /** For an index that never began: a block that is there from the start decides by its kind; otherwise other streams
      decide, and text is accepted exactly when a later index began. */
  lemma UnbegunExactly(parse: Parser, s: State, events: seq<Event>, e: Event)
    requires (e.Delta? || e.End?) && Since(events, e.index) == []
    ensures Fits(RunAll(parse, s, events), e) <==>
            if e.index < |s.partial.content| then KindOf(s.partial.content[e.index]) == e.kind
            else e.kind.TextKind? && exists i: nat :: e.index < i && Began(events, i)
  {
    UnbegunKind(parse, s, events, e.index);
    if e.index >= |s.partial.content| { LengthIs(parse, s, events, e.index); }
  }

  lemma {:induction false} LengthIs(parse: Parser, s: State, events: seq<Event>, index: nat)
    requires |s.partial.content| <= index && Since(events, index) == []
    ensures index < |RunAll(parse, s, events).partial.content| <==> exists i: nat :: index < i && Began(events, i)
  {
    if events == [] { return; }
    var n := |events| - 1;
    var e := events[n];
    var was := RunAll(parse, s, events[..n]).partial.content;
    LengthIs(parse, s, events[..n], index);
    BegunStep(events, index);
    if index < |RunAll(parse, s, events).partial.content| {
      if index < |was| {
        var i: nat :| index < i && Began(events[..n], i);
        BegunStep(events, i);
      } else {
        BegunStep(events, e.index);
      }
    } else {
      forall i: nat | index < i ensures !Began(events, i) { BegunStep(events, i); }
    }
  }

  lemma BegunStep(events: seq<Event>, i: nat)
    requires events != []
    ensures var n := |events| - 1;
            Began(events, i) <==> Began(events[..n], i) || (events[n].Begin? && events[n].index == i)
  {
  }

  /** For an index that began: the block is of the kind it began with last. */
  lemma {:induction false} BegunKind(parse: Parser, s: State, events: seq<Event>, index: nat)
    requires Since(events, index) != []
    ensures Since(events, index)[0].Begin? && index < |RunAll(parse, s, events).partial.content|
    ensures KindOf(RunAll(parse, s, events).partial.content[index]) == Since(events, index)[0].kind
  {
    var n := |events| - 1;
    if !(events[n].Begin? && events[n].index == index) {
      BegunKind(parse, s, events[..n], index);
      KindStays(parse, RunAll(parse, s, events[..n]), events[n], index);
    }
  }

  lemma KindStays(parse: Parser, s: State, e: Event, index: nat)
    requires index < |s.partial.content| && !(e.Begin? && e.index == index)
    ensures var content := Apply(parse, s, e).partial.content;
            index < |content| && KindOf(content[index]) == KindOf(s.partial.content[index])
  {
  }

  /** What the events before it say about a delta or an end: it is welcome when its index began last with its kind, and
      for an index that never began as above. */
  ghost predicate Welcome(s: State, before: seq<Event>, e: Event)
  {
    e.Delta? || e.End? ==>
      var own := Since(before, e.index);
      if own != [] then own[0].Begin? && own[0].kind == e.kind
      else if e.index < |s.partial.content| then KindOf(s.partial.content[e.index]) == e.kind
      else e.kind.TextKind? && exists i: nat :: e.index < i && Began(before, i)
  }

  lemma FitsExactly(parse: Parser, s: State, before: seq<Event>, e: Event)
    ensures Fits(RunAll(parse, s, before), e) <==> Welcome(s, before, e)
  {
    if e.Delta? || e.End? {
      if Since(before, e.index) != [] {
        BegunKind(parse, s, before, e.index);
      } else {
        UnbegunExactly(parse, s, before, e);
      }
    }
  }

  ghost predicate WelcomeAt(s: State, events: seq<Event>, n: nat)
    requires n < |events|
  {
    Welcome(s, events[..n], events[n])
  }

  /** Exactly which events are accepted, whatever the parser and the state they start from. */
  lemma {:induction false} AcceptedExactly(parse: Parser, s: State, events: seq<Event>)
    ensures Accepted(parse, s, events) <==> forall n: nat :: n < |events| ==> WelcomeAt(s, events, n)
  {
    if events != [] {
      var n := |events| - 1;
      AcceptedExactly(parse, s, events[..n]);
      FitsExactly(parse, s, events[..n], events[n]);
      forall k: nat | k < n ensures WelcomeAt(s, events[..n], k) <==> WelcomeAt(s, events, k) {
        assert events[..n][..k] == events[..k];
      }
      assert WelcomeAt(s, events, n) <==> Welcome(s, events[..n], events[n]);
    }
  }

  // ---------------------------------------------------------------- how a message ends

  /** Entry `k` is the last one of its kind, or there is none. */
  ghost predicate IsLast(events: seq<Event>, kind: Event -> bool, k: Option<nat>)
  {
    match k
    case None => forall i :: 0 <= i < |events| ==> !kind(events[i])
    case Some(n) => n < |events| && kind(events[n]) && forall i :: n < i < |events| ==> !kind(events[i])
  }

  function EndsMessage(): Event -> bool { (e: Event) => e.Finished? || e.Failed? }

  function FailsMessage(): Event -> bool { (e: Event) => e.Failed? }

  /** Stop reason and usage are those of the last event that ends the message; before there is one they are as at the
      start. */
  lemma {:induction false} EndingIsLast(parse: Parser, s: State, events: seq<Event>, k: Option<nat>)
    requires IsLast(events, EndsMessage(), k)
    ensures var p := RunAll(parse, s, events).partial;
            if k.None? then p.stopReason == s.partial.stopReason && p.usage == s.partial.usage
            else p.stopReason == events[k.value].reason && p.usage == events[k.value].usage
  {
    if events != [] {
      var n := |events| - 1;
      if k != Some(n) { EndingIsLast(parse, s, events[..n], k); }
    }
  }

  /** The error message is that of the last failure. */
  lemma {:induction false} FailureIsLast(parse: Parser, s: State, events: seq<Event>, k: Option<nat>)
    requires IsLast(events, FailsMessage(), k)
    ensures RunAll(parse, s, events).partial.errorMessage ==
            if k.None? then s.partial.errorMessage else events[k.value].message
  {
    if events != [] {
      var n := |events| - 1;
      if k != Some(n) { FailureIsLast(parse, s, events[..n], k); }
    }
  }

  // ---------------------------------------------------------------- what a stream means

  function Joined(parts: seq<string>): string
  {
    if parts == [] then "" else Joined(parts[..|parts| - 1]) + parts[|parts| - 1]
  }

  function Deltas(index: nat, kind: Kind, parts: seq<string>): (r: seq<Event>)
    ensures |r| == |parts| && forall i :: 0 <= i < |r| ==> r[i] == Delta(index, kind, parts[i])
  {
    seq(|parts|, i requires 0 <= i < |parts| => Delta(index, kind, parts[i]))
  }

  /** A block that says `parts`, however they were cut. */
  function Meant(parse: Parser, kind: Kind, id: string, name: string, parts: seq<string>,
                 signature: Option<string>): Block
  {
    match kind
    case TextKind => TextBlock(Joined(parts), signature)
    case ThinkingKind => ThinkingBlock(Joined(parts), signature)
    case ToolKind => ToolBlock(id, name, if parts == [] then "{}" else parse(Joined(parts)))
  }

  /** A stream: a beginning, deltas of its kind, and perhaps an end. */
  function Stream(index: nat, kind: Kind, id: string, name: string, parts: seq<string>,
                  end: Option<Option<string>>): seq<Event>
  {
    [Begin(index, kind, id, name)] + Deltas(index, kind, parts) + if end.Some? then [End(index, kind, end.value)]
      else []
  }

  /** The block at an index says `parts` so far. */
  ghost predicate Says(parse: Parser, t: State, index: nat, kind: Kind, id: string, name: string, parts: seq<string>)
  {
    && index < |t.partial.content| && t.partial.content[index] == Meant(parse, kind, id, name, parts, None)
    && (kind.ToolKind? ==> Gathered(t, index) == Joined(parts))
  }

  lemma SaysMore(parse: Parser, t: State, index: nat, kind: Kind, id: string, name: string, parts: seq<string>)
    requires parts != [] && Says(parse, t, index, kind, id, name, parts[..|parts| - 1])
    ensures var e := Delta(index, kind, parts[|parts| - 1]);
            Fits(t, e) && Says(parse, Apply(parse, t, e), index, kind, id, name, parts)
  {
    match kind
    case TextKind =>
    case ThinkingKind =>
    case ToolKind =>
  }

  /** The state while deltas arrive. */
  lemma {:induction false} WhileOpen(parse: Parser, s: State, index: nat, kind: Kind, id: string, name: string,
                                     parts: seq<string>)
    ensures var open := Stream(index, kind, id, name, parts, None);
            Says(parse, RunAll(parse, s, open), index, kind, id, name, parts) && Accepted(parse, s, open)
  {
    if parts == [] {
      AtBegin(parse, s, index, kind, id, name);
    } else {
      var n := |parts| - 1;
      WhileOpen(parse, s, index, kind, id, name, parts[..n]);
      StreamGrows(index, kind, id, name, parts);
      OpenGrows(parse, s, index, kind, id, name, parts, Stream(index, kind, id, name, parts[..n], None),
                Stream(index, kind, id, name, parts, None));
    }
  }

  lemma AtBegin(parse: Parser, s: State, index: nat, kind: Kind, id: string, name: string)
    ensures var open := Stream(index, kind, id, name, [], None);
            Says(parse, RunAll(parse, s, open), index, kind, id, name, []) && Accepted(parse, s, open)
  {
    var e := Begin(index, kind, id, name);
    assert Stream(index, kind, id, name, [], None) == [e];
    OneMore(parse, s, [e], [], e);
  }

  lemma StreamGrows(index: nat, kind: Kind, id: string, name: string, parts: seq<string>)
    requires parts != []
    ensures var n := |parts| - 1;
            Stream(index, kind, id, name, parts, None) ==
            Stream(index, kind, id, name, parts[..n], None) + [Delta(index, kind, parts[n])]
  {
  }

  lemma OpenGrows(parse: Parser, s: State, index: nat, kind: Kind, id: string, name: string, parts: seq<string>,
                  shorter: seq<Event>,
                  longer: seq<Event>)
    requires parts != [] && longer == shorter + [Delta(index, kind, parts[|parts| - 1])]
    requires Says(parse, RunAll(parse, s, shorter), index, kind, id, name, parts[..|parts| - 1])
    requires Accepted(parse, s, shorter)
    ensures Says(parse, RunAll(parse, s, longer), index, kind, id, name, parts) && Accepted(parse, s, longer)
  {
    SaysMore(parse, RunAll(parse, s, shorter), index, kind, id, name, parts);
    OneMore(parse, s, longer, shorter, Delta(index, kind, parts[|parts| - 1]));
  }

  lemma OneMore(parse: Parser, s: State, longer: seq<Event>, shorter: seq<Event>, e: Event)
    requires longer == shorter + [e]
    ensures RunAll(parse, s, longer) == Apply(parse, RunAll(parse, s, shorter), e)
    ensures Accepted(parse, s, longer) <==> Accepted(parse, s, shorter) && Fits(RunAll(parse, s, shorter), e)
  {
    assert longer[..|longer| - 1] == shorter;
  }

  lemma StreamMeans(parse: Parser, s: State, index: nat, kind: Kind, id: string, name: string, parts: seq<string>,
                    end: Option<Option<string>>)
    ensures var t := RunAll(parse, s, Stream(index, kind, id, name, parts, end));
            && index < |t.partial.content|
            && t.partial.content[index] == Meant(parse, kind, id, name, parts, if end.Some? then end.value else None)
            && Accepted(parse, s, Stream(index, kind, id, name, parts, end))
  {
    WhileOpen(parse, s, index, kind, id, name, parts);
    var stream := Stream(index, kind, id, name, parts, end);
    var open := Stream(index, kind, id, name, parts, None);
    if end.Some? {
      assert stream[..|stream| - 1] == open && stream[|stream| - 1] == End(index, kind, end.value);
    } else {
      assert stream == open;
    }
  }

  /** Reassembly: wherever the events of an index since it last began are such a stream, the block at the index says the
      joined parts, whatever the other indices do in between. */
  lemma Reassembled(parse: Parser, s: State, events: seq<Event>, index: nat, kind: Kind, id: string, name: string,
                    parts: seq<string>,
                    end: Option<Option<string>>)
    requires Since(events, index) == Stream(index, kind, id, name, parts, end)
    ensures var content := RunAll(parse, s, events).partial.content;
            && index < |content|
            && content[index] == Meant(parse, kind, id, name, parts, if end.Some? then end.value else None)
  {
    Isolated(parse, s, s, events, index);
    StreamMeans(parse, s, index, kind, id, name, parts, end);
  }

  /** How text is cut into deltas does not matter. */
  lemma CutsDoNotMatter(parse: Parser, s: State, index: nat, kind: Kind, id: string, name: string, parts: seq<string>,
                        other: seq<string>,
                        end: Option<Option<string>>)
    requires Joined(parts) == Joined(other) && (parts == [] <==> other == [])
    ensures var t := RunAll(parse, s, Stream(index, kind, id, name, parts, end));
            var u := RunAll(parse, s, Stream(index, kind, id, name, other, end));
            index < |t.partial.content| && index < |u.partial.content|
              && t.partial.content[index] == u.partial.content[index]
  {
    StreamMeans(parse, s, index, kind, id, name, parts, end);
    StreamMeans(parse, s, index, kind, id, name, other, end);
  }
}
