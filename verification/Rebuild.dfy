/** The conversation rebuilt from the path to a session's leaf, around the latest compaction on it. */
module Rebuild {
  import opened Basics
  import opened Messages
  import opened SessionTree
  import Branch
  import Compaction
  import Session
  import opened Gathering

  /** The texts put around the two kinds of summary. */
  datatype Framing = Framing(compacted: string -> string, cameBack: string -> string)

  datatype Context = Context(
    messages: seq<Message>,
    thinkingLevel: string,
    model: Option<(string, string)>,
    activeTools: Option<seq<string>>)

  // ---------------------------------------------------------------- what an entry contributes

  function Contribution(frame: Framing, e: Entry, clear: bool): seq<Message>
  {
    match e.body
    case Said(Some(m)) => [if clear then WithoutUsage(m) else m]
    case CameBack(Some(summary)) => [UserText(e.id, frame.cameBack(summary))]
    case _ => []
  }

  function Contributions(frame: Framing, path: seq<Entry>, clear: bool): seq<Message>
  {
    if path == [] then [] else
      Contributions(frame, path[..|path| - 1], clear) + Contribution(frame, path[|path| - 1], clear)
  }

  function SummaryMessage(frame: Framing, e: Entry): seq<Message>
  {
    if e.body.Compacted? && e.body.summary.Some? then [UserText(e.id, frame.compacted(e.body.summary.value))] else []
  }

  /** The entries from the first kept one on: all when none is named, and none when the named one is not there. */
  function Kept(path: seq<Entry>, firstKept: Option<string>): seq<Entry>
  {
    if firstKept.None? || path == [] || path[0].id == firstKept.value then path else Kept(path[1..], firstKept)
  }

  /** Where the latest compaction is. */
  function Latest(path: seq<Entry>): (r: Option<nat>)
    ensures r.None? ==> forall i :: 0 <= i < |path| ==> !path[i].body.Compacted?
    ensures r.Some? ==> r.value < |path| && path[r.value].body.Compacted? &&
                        forall i :: r.value < i < |path| ==> !path[i].body.Compacted?
  {
    if path == [] then None
    else if path[|path| - 1].body.Compacted? then Some(|path| - 1)
    else Latest(path[..|path| - 1])
  }

  function ContextMessages(frame: Framing, path: seq<Entry>): seq<Message>
  {
    var latest := Latest(path);
    if latest.None? then Contributions(frame, path, false) else
      SummaryMessage(frame, path[latest.value])
      + Contributions(frame, Kept(path[..latest.value], path[latest.value].body.firstKept), true)
      + Contributions(frame, path[latest.value + 1..], false)
  }

  const OFF := "off"

  /** The settings an entry holds, when it is complete. */
  function LevelOf(e: Entry): Option<string>
  {
    if e.body.ThinkingLevel? then e.body.level else None
  }

  function ModelOf(e: Entry): Option<(string, string)>
  {
    match e.body
    case ModelChange(Some(provider), Some(model)) => Some((provider, model))
    case _ => None
  }

  function ToolsOf(e: Entry): Option<seq<string>>
  {
    if e.body.ActiveTools? then e.body.names else None
  }

  /** The setting of the last entry that holds one. */
  function LastOf<T>(path: seq<Entry>, setting: Entry -> Option<T>): Option<T>
  {
    if path == [] then None
    else if setting(path[|path| - 1]).Some? then setting(path[|path| - 1])
    else LastOf(path[..|path| - 1], setting)
  }

  /** `r` is the setting of the last entry of the path that holds one, none when no entry does. */
  ghost predicate HoldsLast<T>(path: seq<Entry>, setting: Entry -> Option<T>, r: Option<T>)
  {
    if r.None? then forall i :: 0 <= i < |path| ==> setting(path[i]).None? else
      exists i :: 0 <= i < |path| && setting(path[i]) == r &&
                  forall j :: i < j < |path| ==> setting(path[j]).None?
  }

  lemma {:induction false} LastHolds<T>(path: seq<Entry>, setting: Entry -> Option<T>)
    ensures HoldsLast(path, setting, LastOf(path, setting))
  {
    if path != [] && setting(path[|path| - 1]).None? {
      var before := path[..|path| - 1];
      LastHolds(before, setting);
      assert forall i :: 0 <= i < |before| ==> path[i] == before[i];
    }
  }

  /** What the settings entries on a path amount to. */
  function Configured(path: seq<Entry>): Context
  {
    var level := LastOf(path, LevelOf);
    Context([], if level.Some? then level.value else OFF, LastOf(path, ModelOf), LastOf(path, ToolsOf))
  }

  /** Each setting is the one of the last complete entry of its kind on the path. */
  lemma SettingsAreLast(path: seq<Entry>)
    ensures var c := Configured(path);
            && HoldsLast(path, ModelOf, c.model) && HoldsLast(path, ToolsOf, c.activeTools)
            && (HoldsLast(path, LevelOf, Some(c.thinkingLevel)) ||
                (c.thinkingLevel == "off" && HoldsLast(path, LevelOf, None)))
  {
    LastHolds(path, LevelOf);
    LastHolds(path, ModelOf);
    LastHolds(path, ToolsOf);
  }

  function ContextOf(frame: Framing, path: seq<Entry>): Context
  {
    Configured(path).(messages := ContextMessages(frame, path))
  }

  // ---------------------------------------------------------------- the conversation by position

  /** The entries that say something: complete messages and complete summaries of branches. */
  function Speaks(): Entry -> bool
  {
    (e: Entry) => (e.body.Said? && e.body.stored.Some?) || (e.body.CameBack? && e.body.summary.Some?)
  }

  /** What such an entry says, word for word. */
  function SaysSo(frame: Framing): (Entry, Message) -> bool
  {
    (e: Entry, m: Message) =>
      if e.body.Said? then e.body.stored == Some(m)
      else e.body.CameBack? && e.body.summary.Some? && m == UserText(e.id, frame.cameBack(e.body.summary.value))
  }

  /** The same, but that an assistant's usage is reset. */
  function SaysUnused(frame: Framing): (Entry, Message) -> bool
  {
    (e: Entry, m: Message) =>
      if e.body.Said? then e.body.stored.Some? && SameButUsage(m, e.body.stored.value)
      else e.body.CameBack? && e.body.summary.Some? && m == UserText(e.id, frame.cameBack(e.body.summary.value))
  }

  /** Of the entries before a compaction, those from position `from` on are kept: from the first one with the id that
      the compaction names, all when it names none, and none when there is no such entry. */
  ghost predicate KeptFrom(path: seq<Entry>, firstKept: Option<string>, from: nat)
  {
    && from <= |path|
    && match firstKept
       case None => from == 0
       case Some(id) => (forall i :: 0 <= i < from ==> path[i].id != id) && (from < |path| ==> path[from].id == id)
  }

  ghost predicate BeginsWith(frame: Framing, compaction: Entry, head: seq<Message>)
    requires compaction.body.Compacted?
  {
    match compaction.body.summary
    case None => head == []
    case Some(summary) => head == [UserText(compaction.id, frame.compacted(summary))]
  }

  /** The conversation of a path around its compaction at `c`: the summary, then what the kept entries before it said,
      then what the entries behind it said. */
  ghost predicate AroundCompaction(frame: Framing, path: seq<Entry>, c: nat, from: nat, head: seq<Message>,
                                   kept: seq<Message>, rest: seq<Message>)
    requires c < |path| && path[c].body.Compacted?
  {
    && BeginsWith(frame, path[c], head) && KeptFrom(path[..c], path[c].body.firstKept, from)
    && Gathers(path[from..c], Speaks(), SaysUnused(frame), kept)
    && Gathers(path[c + 1..], Speaks(), SaysSo(frame), rest)
  }

  ghost predicate IsConversation(frame: Framing, path: seq<Entry>, messages: seq<Message>)
  {
    if forall i :: 0 <= i < |path| ==> !path[i].body.Compacted? then Gathers(path, Speaks(), SaysSo(frame), messages)
    else exists c: nat, from: nat, head, kept, rest ::
      && c < |path| && path[c].body.Compacted? && (forall i :: c < i < |path| ==> !path[i].body.Compacted?)
      && messages == head + kept + rest && AroundCompaction(frame, path, c, from, head, kept, rest)
  }

  lemma OneSays(frame: Framing, e: Entry)
    ensures var said := Contribution(frame, e, false);
            if Speaks()(e) then |said| == 1 && SaysSo(frame)(e, said[0]) else said == []
    ensures var said := Contribution(frame, e, true);
            if Speaks()(e) then |said| == 1 && SaysUnused(frame)(e, said[0]) else said == []
  {
    match e.body
    case Said(Some(m)) => assert SameButUsage(WithoutUsage(m), m);
    case CameBack(Some(summary)) =>
    case _ =>
  }

  /** One entry more. */
  lemma GathersOn(path: seq<Entry>, e: Entry, says: (Entry, Message) -> bool, before: seq<Message>, said: seq<Message>)
    requires Gathers(path, Speaks(), says, before)
    requires if Speaks()(e) then |said| == 1 && says(e, said[0]) else said == []
    ensures Gathers(path + [e], Speaks(), says, before + said)
  {
    if Speaks()(e) {
      GathersOne(path, Speaks(), says, before, e, said[0]);
      assert said == [said[0]];
    } else {
      GathersNone(path, Speaks(), says, before, e);
      assert before + [] == before;
    }
  }

  lemma {:induction false} ContributionsGather(frame: Framing, path: seq<Entry>)
    ensures Gathers(path, Speaks(), SaysSo(frame), Contributions(frame, path, false))
    ensures Gathers(path, Speaks(), SaysUnused(frame), Contributions(frame, path, true))
  {
    if path == [] {
      GathersNothing(Speaks(), SaysSo(frame));
      GathersNothing(Speaks(), SaysUnused(frame));
    } else {
      var n := |path| - 1;
      ContributionsGather(frame, path[..n]);
      OneSays(frame, path[n]);
      GathersOn(path[..n], path[n], SaysSo(frame), Contributions(frame, path[..n], false),
                Contribution(frame, path[n], false));
      GathersOn(path[..n], path[n], SaysUnused(frame), Contributions(frame, path[..n], true),
                Contribution(frame, path[n], true));
      assert path == path[..n] + [path[n]];
    }
  }

  lemma {:induction false} KeptIsFrom(path: seq<Entry>, firstKept: Option<string>) returns (from: nat)
    ensures KeptFrom(path, firstKept, from) && Kept(path, firstKept) == path[from..]
  {
    if firstKept.None? || path == [] || path[0].id == firstKept.value {
      from := 0;
    } else {
      from := KeptIsFrom(path[1..], firstKept);
      from := from + 1;
      assert forall i :: 0 < i < |path| ==> path[i] == path[1..][i - 1];
    }
  }

  lemma Compacts(frame: Framing, path: seq<Entry>, c: nat, from: nat, head: seq<Message>, kept: seq<Message>,
                 rest: seq<Message>)
    requires c < |path| && path[c].body.Compacted? && forall i :: c < i < |path| ==> !path[i].body.Compacted?
    requires AroundCompaction(frame, path, c, from, head, kept, rest)
    ensures IsConversation(frame, path, head + kept + rest)
  {
  }

  lemma CompactionIsAround(frame: Framing, path: seq<Entry>, c: nat, from: nat)
    requires c < |path| && path[c].body.Compacted? && KeptFrom(path[..c], path[c].body.firstKept, from)
    ensures AroundCompaction(frame, path, c, from, SummaryMessage(frame, path[c]),
                             Contributions(frame, path[from..c], true), Contributions(frame, path[c + 1..], false))
  {
    ContributionsGather(frame, path[from..c]);
    ContributionsGather(frame, path[c + 1..]);
  }

  /** That is what a conversation is rebuilt to: every message that an entry holds, in order, and nothing else. */
  lemma ContextIsConversation(frame: Framing, path: seq<Entry>)
    ensures IsConversation(frame, path, ContextMessages(frame, path))
  {
    var latest := Latest(path);
    if latest.None? { ContributionsGather(frame, path); } else { ConversationBehind(frame, path, latest.value); }
  }

  lemma ConversationBehind(frame: Framing, path: seq<Entry>, c: nat)
    requires c < |path| && path[c].body.Compacted? && forall i :: c < i < |path| ==> !path[i].body.Compacted?
    ensures IsConversation(frame, path, SummaryMessage(frame, path[c])
                                        + Contributions(frame, Kept(path[..c], path[c].body.firstKept), true)
                                        + Contributions(frame, path[c + 1..], false))
  {
    var from := KeptIsFrom(path[..c], path[c].body.firstKept);
    assert path[..c][from..] == path[from..c];
    CompactionIsAround(frame, path, c, from);
    Compacts(frame, path, c, from, SummaryMessage(frame, path[c]), Contributions(frame, path[from..c], true),
             Contributions(frame, path[c + 1..], false));
  }

  /** The context of a path: its conversation and its settings, by position. */
  ghost predicate IsContext(frame: Framing, path: seq<Entry>, c: Context)
  {
    && IsConversation(frame, path, c.messages)
    && HoldsLast(path, ModelOf, c.model) && HoldsLast(path, ToolsOf, c.activeTools)
    && (HoldsLast(path, LevelOf, Some(c.thinkingLevel)) ||
        (c.thinkingLevel == "off" && HoldsLast(path, LevelOf, None)))
  }

  lemma ContextIs(frame: Framing, path: seq<Entry>)
    ensures IsContext(frame, path, ContextOf(frame, path))
  {
    ContextIsConversation(frame, path);
    SettingsAreLast(path);
  }

  // ---------------------------------------------------------------- the loops

  /** The pass over the path that collects settings and finds the latest compaction. */
  method Configure(path: seq<Entry>) returns (context: Context, latest: Option<nat>)
    ensures context == Configured(path) && latest == Latest(path)
  {
    context, latest := Context([], OFF, None, None), None;
    for i := 0 to |path|
      invariant context == Configured(path[..i]) && latest == Latest(path[..i])
    {
      assert path[..i + 1][..i] == path[..i];
      match path[i].body {
        case ThinkingLevel(Some(level)) => context := context.(thinkingLevel := level);
        case ModelChange(Some(provider), Some(model)) => context := context.(model := Some((provider, model)));
        case ActiveTools(Some(names)) => context := context.(activeTools := Some(names));
        case Compacted(_, _) => latest := Some(i);
        case _ =>
      }
    }
    assert path[..|path|] == path;
  }

  method AppendEntries(frame: Framing, path: seq<Entry>, messages: seq<Message>) returns (r: seq<Message>)
    ensures r == messages + Contributions(frame, path, false)
  {
    r := messages;
    for i := 0 to |path|
      invariant r == messages + Contributions(frame, path[..i], false)
    {
      assert path[..i + 1][..i] == path[..i];
      r := r + Contribution(frame, path[i], false);
    }
    assert path[..|path|] == path;
  }

  /** An entry more at the end of what is looked through. */
  lemma {:induction false} KeptOneMore(path: seq<Entry>, e: Entry, firstKept: Option<string>)
    ensures Kept(path + [e], firstKept) ==
            if firstKept.None? || Kept(path, firstKept) != [] || e.id == firstKept.value
              then Kept(path, firstKept) + [e] else []
  {
    if path == [] {
      assert path + [e] == [e] && [e][1..] == [];
    } else {
      assert (path + [e])[1..] == path[1..] + [e];
      KeptOneMore(path[1..], e, firstKept);
    }
  }

  lemma OneMoreContributes(frame: Framing, messages: seq<Message>, kept: seq<Entry>, e: Entry)
    ensures messages + Contributions(frame, kept + [e], true) ==
            messages + Contributions(frame, kept, true) + Contribution(frame, e, true)
  {
    assert (kept + [e])[..|kept|] == kept;
  }

  method AppendKept(frame: Framing, path: seq<Entry>, firstKept: Option<string>, messages: seq<Message>)
    returns (r: seq<Message>)
    ensures r == messages + Contributions(frame, Kept(path, firstKept), true)
  {
    r := messages;
    var found := firstKept.None?;
    ghost var kept: seq<Entry> := [];
    for i := 0 to |path|
      invariant kept == Kept(path[..i], firstKept)
      invariant r == messages + Contributions(frame, kept, true)
      invariant found == (firstKept.None? || kept != [])
    {
      assert path[..i + 1] == path[..i] + [path[i]];
      KeptOneMore(path[..i], path[i], firstKept);
      if firstKept == Some(path[i].id) {
        found := true;
      }
      if found {
        OneMoreContributes(frame, messages, kept, path[i]);
        r := r + Contribution(frame, path[i], true);
        kept := kept + [path[i]];
      }
    }
    assert path[..|path|] == path;
  }

  /** The leaf a context is built for. */
  function LeafFor(log: seq<Entry>, explicit: Option<string>): Option<string>
  {
    if explicit.Some? then explicit else Session.InferLeaf(log)
  }

  /** The path a context is built from. */
  ghost predicate PathFor(log: seq<Entry>, leaf: Option<string>, path: seq<Entry>)
  {
    if leaf.None? then path == [] else RootPath(ById(log), leaf.value, path)
  }

  method BuildContext(frame: Framing, log: seq<Entry>, explicit: Option<string>) returns (r: Result<Context, Failure>)
    ensures r.Ok? <==> exists path :: PathFor(log, LeafFor(log, explicit), path)
    ensures r.Ok? ==> forall path :: PathFor(log, LeafFor(log, explicit), path) ==>
                                       r.value == ContextOf(frame, path) && IsContext(frame, path, r.value)
    ensures r.Err? ==> LeafFor(log, explicit).Some? && Branch.Fails(ById(log), LeafFor(log, explicit).value, r.error)
    ensures Session.Grown(log) && (explicit.None? || Session.Contains(log, explicit.value)) ==> r.Ok?
  {
    var index := ById(log);
    var leaf := LeafFor(log, explicit);
    var path: seq<Entry> := [];
    if leaf.Some? {
      var found, walk := PathToRoot(index, leaf.value);
      if found.Err? {
        Branch.NoRoot(index, leaf.value, walk, found.error);
        if Session.Grown(log) && (explicit.None? || Session.Contains(log, explicit.value)) {
          LeafHasPath(log, explicit);
        }
        return Err(found.error);
      }
      path := found.value;
    }
    var context := BuildFrom(frame, path);
    ContextIs(frame, path);
    assert PathFor(log, leaf, path);
    forall path' | PathFor(log, leaf, path') ensures path' == path {
      if leaf.Some? { OneRootPath(index, leaf.value, path, path'); }
    }
    r := Ok(context);
  }

  /** In a log that has grown the inferred leaf, and any entry of the log, has a path. */
  lemma LeafHasPath(log: seq<Entry>, explicit: Option<string>)
    requires Session.Grown(log) && (explicit.None? || Session.Contains(log, explicit.value))
    ensures exists path :: PathFor(log, LeafFor(log, explicit), path)
  {
    var leaf := LeafFor(log, explicit);
    if leaf.None? {
      assert PathFor(log, leaf, []);
    } else {
      Session.InferredIsThere(log);
      var j :| 0 <= j < |log| && log[j].id == leaf.value;
      var path := Session.EntryHasRoot(log, j);
      assert PathFor(log, leaf, path);
    }
  }

  method BuildFrom(frame: Framing, path: seq<Entry>) returns (context: Context)
    ensures context == ContextOf(frame, path)
  {
    var latest;
    context, latest := Configure(path);
    var messages: seq<Message> := [];
    if latest.Some? {
      var compaction := path[latest.value];
      messages := SummaryMessage(frame, compaction);
      messages := AppendKept(frame, path[..latest.value], compaction.body.firstKept, messages);
      messages := AppendEntries(frame, path[latest.value + 1..], messages);
    } else {
      messages := AppendEntries(frame, path, messages);
    }
    context := context.(messages := messages);
  }

  // ---------------------------------------------------------------- what a rebuilt conversation is

  lemma OneMoreContribution(frame: Framing, path: seq<Entry>, e: Entry)
    ensures Contributions(frame, path + [e], false) == Contributions(frame, path, false) + Contribution(frame, e, false)
  {
    assert (path + [e])[..|path|] == path;
  }

  lemma LatestOneMore(path: seq<Entry>, e: Entry)
    ensures Latest(path + [e]) == if e.body.Compacted? then Some(|path|) else Latest(path)
  {
    assert (path + [e])[..|path|] == path;
  }

  /** What follows the latest compaction grows. */
  lemma RestGrows(frame: Framing, path: seq<Entry>, e: Entry, c: nat)
    requires !e.body.Compacted? && Latest(path) == Some(c) && Latest(path + [e]) == Some(c)
    ensures ContextMessages(frame, path + [e]) == ContextMessages(frame, path) + Contribution(frame, e, false)
  {
    var longer := path + [e];
    assert longer[..c] == path[..c] && longer[c] == path[c] && longer[c + 1..] == path[c + 1..] + [e];
    OneMoreContribution(frame, path[c + 1..], e);
    Longer(SummaryMessage(frame, path[c]), Contributions(frame, Kept(path[..c], path[c].body.firstKept), true),
           Contributions(frame, path[c + 1..], false), Contribution(frame, e, false));
  }

  lemma Longer<T>(a: seq<T>, b: seq<T>, c: seq<T>, d: seq<T>)
    ensures a + b + (c + d) == a + b + c + d
  {
  }

  /** Appending to the path extends the conversation by what the entry says; appending a compaction replaces it by the
      summary and the kept entries without their usage. */
  lemma ContextGrows(frame: Framing, path: seq<Entry>, e: Entry)
    ensures ContextMessages(frame, path + [e]) ==
            if e.body.Compacted? then SummaryMessage(frame, e)
              + Contributions(frame, Kept(path, e.body.firstKept), true)
            else ContextMessages(frame, path) + Contribution(frame, e, false)
  {
    LatestOneMore(path, e);
    if e.body.Compacted? {
      var longer := path + [e];
      assert longer[..|path|] == path && longer[|path| + 1..] == [];
    } else if Latest(path).Some? {
      RestGrows(frame, path, e, Latest(path).value);
    } else {
      OneMoreContribution(frame, path, e);
    }
  }

  lemma {:induction false} ClearedNeverAnchors(frame: Framing, path: seq<Entry>, i: nat)
    requires i < |Contributions(frame, path, true)|
    ensures !Compaction.Anchors(Contributions(frame, path, true)[i])
  {
    var n := |path| - 1;
    var before := Contributions(frame, path[..n], true);
    if i < |before| { ClearedNeverAnchors(frame, path[..n], i); }
  }

  /** Every message comes from one entry. */
  lemma {:induction false} ComesFrom(frame: Framing, path: seq<Entry>, clear: bool, i: nat) returns (j: nat)
    requires i < |Contributions(frame, path, clear)|
    ensures j < |path| && Contribution(frame, path[j], clear) == [Contributions(frame, path, clear)[i]]
  {
    j := |path| - 1;
    var before := Contributions(frame, path[..j], clear);
    if i < |before| { j := ComesFrom(frame, path[..j], clear, i); }
  }

  /** An anchor in a conversation whose first parts have none lies in the last part. */
  lemma AnchorInRest(summary: seq<Message>, kept: seq<Message>, rest: seq<Message>, k: nat)
    requires forall i :: 0 <= i < |summary| ==> !Compaction.Anchors(summary[i])
    requires forall i :: 0 <= i < |kept| ==> !Compaction.Anchors(kept[i])
    requires k < |summary + kept + rest| && Compaction.Anchors((summary + kept + rest)[k])
    ensures k >= |summary| + |kept| && rest[k - |summary| - |kept|] == (summary + kept + rest)[k]
  {
  }

  lemma AnchorPastCompaction(frame: Framing, path: seq<Entry>, c: nat, summary: seq<Message>, keep: seq<Entry>, k: nat)
    returns (j: nat)
    requires c < |path| && summary == SummaryMessage(frame, path[c])
    requires k < |summary + Contributions(frame, keep, true) + Contributions(frame, path[c + 1..], false)|
    requires var messages := summary + Contributions(frame, keep, true) + Contributions(frame, path[c + 1..], false);
             Compaction.Anchors(messages[k])
    ensures c < j < |path|
    ensures Contribution(frame, path[j], false) ==
            [(summary + Contributions(frame, keep, true) + Contributions(frame, path[c + 1..], false))[k]]
  {
    var kept := Contributions(frame, keep, true);
    var rest := Contributions(frame, path[c + 1..], false);
    forall i | 0 <= i < |kept| ensures !Compaction.Anchors(kept[i]) { ClearedNeverAnchors(frame, keep, i); }
    AnchorInRest(summary, kept, rest, k);
    var i := ComesFrom(frame, path[c + 1..], false, k - |summary| - |kept|);
    j := c + 1 + i;
  }

  lemma AnchorComesFrom(frame: Framing, path: seq<Entry>, k: nat) returns (j: nat)
    requires k < |ContextMessages(frame, path)| && Compaction.Anchors(ContextMessages(frame, path)[k])
    ensures j < |path| && Contribution(frame, path[j], false) == [ContextMessages(frame, path)[k]]
    ensures Latest(path).Some? ==> Latest(path).value < j
  {
    var latest := Latest(path);
    if latest.None? {
      j := ComesFrom(frame, path, false, k);
    } else {
      var compaction := path[latest.value];
      j := AnchorPastCompaction(frame, path, latest.value, SummaryMessage(frame, compaction),
                                Kept(path[..latest.value], compaction.body.firstKept), k);
    }
  }

  /** After a rebuild an anchor stems from an entry strictly after every compaction on the path. */
  lemma AnchorAfterCompaction(frame: Framing, path: seq<Entry>, e: Compaction.ContextEstimate) returns (j: nat)
    requires Compaction.EstimatesContext(ContextMessages(frame, path), e) && e.anchor.Some?
    ensures j < |path| && Contribution(frame, path[j], false) == [ContextMessages(frame, path)[e.anchor.value]]
    ensures forall c :: 0 <= c < |path| && path[c].body.Compacted? ==> c < j
  {
    j := AnchorComesFrom(frame, path, e.anchor.value);
  }

  /** A path stays a path when entries are added. */
  lemma PathInLarger(index: Index, larger: Index, leaf: string, path: seq<Entry>)
    requires RootPath(index, leaf, path) && forall id :: id in index ==> id in larger && larger[id] == index[id]
    ensures RootPath(larger, leaf, path)
  {
  }

  lemma RootAlone(index: Index, e: Entry)
    requires e.id in index && index[e.id] == e && e.parent.None?
    ensures RootPath(index, e.id, [e])
  {
    RootPathIs(index, e.id, [e]);
  }

  lemma ChildPath(log: seq<Entry>, leaf: string, path: seq<Entry>, e: Entry, index: Index)
    requires RootPath(ById(log), leaf, path) && e.parent == Some(leaf)
    requires !Session.Contains(log, e.id) && index == ById(log)[e.id := e]
    ensures RootPath(index, e.id, path + [e])
  {
    Session.IndexedIsLogged(log, e.id);
    PathInLarger(ById(log), index, leaf, path);
    var longer := Session.Below(index, leaf, path, e);
  }

  /** An entry appended below the leaf extends the path by itself. */
  lemma PathOneMore(log: seq<Entry>, path: seq<Entry>, e: Entry)
    requires Session.GrowsOn(log, e) && e.parent == Session.InferLeaf(log) && !e.body.Leaf? && !e.body.Session?
    requires PathFor(log, e.parent, path)
    ensures PathFor(log + [e], Session.InferLeaf(log + [e]), path + [e])
  {
    Session.IndexOneMore(log, e);
    if e.parent.None? {
      RootAlone(ById(log + [e]), e);
      assert path + [e] == [e];
    } else {
      ChildPath(log, e.parent.value, path, e, ById(log + [e]));
    }
  }

  /** Appending below the leaf, whatever came before: the conversation rebuilt from the longer log is the one rebuilt
      from the shorter log with one entry more, or starts anew from the summary. */
  lemma AppendExtendsContext(frame: Framing, log: seq<Entry>, e: Entry, before: Context, after: Context)
    requires Session.Grown(log) && Session.GrowsOn(log, e) && e.parent == Session.InferLeaf(log) && !e.body.Leaf?
    requires !e.body.Session?
    requires forall path :: PathFor(log, e.parent, path) ==> before == ContextOf(frame, path)
    requires forall path :: PathFor(log + [e], Session.InferLeaf(log + [e]), path) ==> after == ContextOf(frame, path)
    ensures !e.body.Compacted? ==> after.messages == before.messages + Contribution(frame, e, false)
    ensures e.body.Compacted? ==>
            exists path :: PathFor(log, e.parent, path) &&
                           after.messages ==
                           SummaryMessage(frame, e) + Contributions(frame, Kept(path, e.body.firstKept), true)
  {
    LeafHasPath(log, None);
    var path :| PathFor(log, e.parent, path);
    PathOneMore(log, path, e);
    GrowsAlong(frame, path, e, before, after);
  }

  lemma GrowsAlong(frame: Framing, path: seq<Entry>, e: Entry, before: Context, after: Context)
    requires before == ContextOf(frame, path) && after == ContextOf(frame, path + [e])
    ensures !e.body.Compacted? ==> after.messages == before.messages + Contribution(frame, e, false)
    ensures e.body.Compacted? ==>
            after.messages == SummaryMessage(frame, e) + Contributions(frame, Kept(path, e.body.firstKept), true)
  {
    ContextGrows(frame, path, e);
  }
}
