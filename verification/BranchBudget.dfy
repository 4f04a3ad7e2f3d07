/** Which messages of an abandoned branch are handed to its summary: the newest ones within a token budget, and
perhaps one older summary that does not fit. */
module BranchBudget {
  import opened Basics
  import opened Messages
  import opened SessionTree
  import opened Compaction
  import opened Gathering

  /** The messages of the entries that have one. */
  function Texts(convert: Entry -> Option<Message>, entries: seq<Entry>): seq<Message>
  {
    if entries == [] then [] else
      var before := Texts(convert, entries[..|entries| - 1]);
      var last := convert(entries[|entries| - 1]);
      if last.Some? then before + [last.value] else before
  }

  function HasText(convert: Entry -> Option<Message>): Entry -> bool { (e: Entry) => convert(e).Some? }

  function IsText(convert: Entry -> Option<Message>): (Entry, Message) -> bool
  {
    (e: Entry, m: Message) => convert(e) == Some(m)
  }

  /** Every entry that has a message gives it, in order. */
  lemma {:induction false} TextsGather(convert: Entry -> Option<Message>, entries: seq<Entry>)
    ensures Gathers(entries, HasText(convert), IsText(convert), Texts(convert, entries))
  {
    if entries == [] {
      GathersNothing(HasText(convert), IsText(convert));
    } else {
      var n := |entries| - 1;
      var before := Texts(convert, entries[..n]);
      TextsGather(convert, entries[..n]);
      assert entries == entries[..n] + [entries[n]];
      if convert(entries[n]).Some? {
        GathersOne(entries[..n], HasText(convert), IsText(convert), before, entries[n], convert(entries[n]).value);
      } else {
        GathersNone(entries[..n], HasText(convert), IsText(convert), before, entries[n]);
      }
    }
  }

  predicate IsSummary(m: Message) { m.CompactionSummary? || m.BranchSummary? }

  /** Nine tenths of a budget; the product saturates. */
  function NineTenths(budget: u32): u32 { (if budget * 9 > U32_MAX then U32_MAX else budget * 9) / 10 }

  /** Where the loop stops, looking from the end: behind the first message that brings the sum, as 32 bits hold it, over
      the budget. */
  ghost predicate StopsBehind(texts: seq<Message>, budget: u32, f: nat)
  {
    && f <= |texts| && (forall i :: f <= i < |texts| ==> !Over(texts, budget, i))
    && (f > 0 ==> Over(texts, budget, f - 1))
  }

  /** The message the loop stopped at is a summary, and there was room left. */
  ghost predicate Stretches(texts: seq<Message>, budget: u32, f: nat)
    requires f <= |texts|
  {
    f > 0 && IsSummary(texts[f - 1]) && Low32(TokenSum(texts[f..])) < NineTenths(budget)
  }

  /** In whole numbers: a summary is taken over the budget when what is behind it, and one token more, is at most nine
      tenths of the budget. Nine budgets stop at what 32 bits hold. */
  lemma StretchesExactly(texts: seq<Message>, budget: u32, f: nat)
    requires f <= |texts|
    ensures Stretches(texts, budget, f) <==>
            && f > 0 && (texts[f - 1].CompactionSummary? || texts[f - 1].BranchSummary?)
            && 10 * (Low32(TokenSum(texts[f..])) + 1) <= Min(9 * budget, U32_MAX)
  {
  }

  /** The messages handed on start at `k`. A budget of zero is no budget. */
  ghost predicate ChosenFrom(texts: seq<Message>, budget: u32, k: nat)
  {
    if budget == 0 then k == 0
    else exists f: nat :: StopsBehind(texts, budget, f) && k == if Stretches(texts, budget, f) then f - 1 else f
  }

  /** The loop stops at one place only. */
  lemma OneStopBehind(texts: seq<Message>, budget: u32, f: nat, g: nat)
    requires StopsBehind(texts, budget, f) && StopsBehind(texts, budget, g)
    ensures f == g
  {
    if f < g { NotYetBehind(texts, budget, f, g); }
    if g < f { NotYetBehind(texts, budget, g, f); }
  }

  lemma NotYetBehind(texts: seq<Message>, budget: u32, f: nat, g: nat)
    requires f < g && StopsBehind(texts, budget, g)
    ensures !StopsBehind(texts, budget, f)
  {
    assert Over(texts, budget, g - 1);
  }

  /** The choice is one. */
  lemma OneChoice(texts: seq<Message>, budget: u32, k: nat, l: nat)
    requires ChosenFrom(texts, budget, k) && ChosenFrom(texts, budget, l)
    ensures k == l
  {
    if budget > 0 {
      var f: nat :| StopsBehind(texts, budget, f) && k == if Stretches(texts, budget, f) then f - 1 else f;
      var g: nat :| StopsBehind(texts, budget, g) && l == if Stretches(texts, budget, g) then g - 1 else g;
      OneStopBehind(texts, budget, f, g);
    }
  }

  /** The messages from `f` on are the longest end whose true sum is within the budget. */
  ghost predicate LongestEnd(texts: seq<Message>, budget: u32, f: nat)
  {
    && f <= |texts| && !TrulyOver(texts, budget, f)
    && forall j :: 0 <= j < f ==> TrulyOver(texts, budget, j)
  }

  /** Looking from the end, the first message that brings the true sum over the budget. */
  ghost predicate FirstOver(texts: seq<Message>, budget: u32, j: nat)
  {
    && j < |texts| && TrulyOver(texts, budget, j)
    && forall i :: j < i < |texts| ==> !TrulyOver(texts, budget, i)
  }

  lemma {:induction false} FindOver(texts: seq<Message>, budget: u32, f: nat, i: nat) returns (j: nat)
    requires f <= i < |texts| && TrulyOver(texts, budget, f)
    requires forall l :: i < l < |texts| ==> !TrulyOver(texts, budget, l)
    ensures f <= j && FirstOver(texts, budget, j)
    decreases i
  {
    if TrulyOver(texts, budget, i) {
      j := i;
    } else {
      j := FindOver(texts, budget, f, i - 1);
    }
  }

  lemma NothingIsWithin(texts: seq<Message>, budget: u32)
    ensures !TrulyOver(texts, budget, |texts|)
  {
    assert texts[|texts|..] == [];
  }

  /** The messages behind the stop are the longest end within the budget exactly when the sum at the first message that
      brings it over the budget does not wrap around to something within it. */
  lemma StopIsLongestEnd(texts: seq<Message>, budget: u32, f: nat)
    requires StopsBehind(texts, budget, f)
    ensures LongestEnd(texts, budget, f) <==>
            forall j: nat :: FirstOver(texts, budget, j) ==> Over(texts, budget, j)
  {
    NothingIsWithin(texts, budget);
    if LongestEnd(texts, budget, f) {
      forall j: nat | FirstOver(texts, budget, j) ensures Over(texts, budget, j) {
        FirstIsBeforeEnd(texts, budget, f, j);
      }
    } else if TrulyOver(texts, budget, f) {
      var j := FindOver(texts, budget, f, |texts| - 1);
      assert !Over(texts, budget, j);
    } else {
      AllBeforeAreOver(texts, budget, f);
    }
  }

  lemma FirstIsBeforeEnd(texts: seq<Message>, budget: u32, f: nat, j: nat)
    requires LongestEnd(texts, budget, f) && FirstOver(texts, budget, j)
    ensures j + 1 == f
  {
    if f <= j { LongerIsMore(texts, f, j); }
    if f > 0 { EndBeforeIsOver(texts, budget, f); }
  }

  lemma EndBeforeIsOver(texts: seq<Message>, budget: u32, f: nat)
    requires LongestEnd(texts, budget, f) && f > 0
    ensures TrulyOver(texts, budget, f - 1)
  {
  }

  lemma AllBeforeAreOver(texts: seq<Message>, budget: u32, f: nat)
    requires StopsBehind(texts, budget, f)
    ensures forall j :: 0 <= j < f ==> TrulyOver(texts, budget, j)
  {
    if f > 0 { assert Over(texts, budget, f - 1); }
    forall j | 0 <= j < f ensures TrulyOver(texts, budget, j) { LongerIsMore(texts, j, f - 1); }
  }

  /** Two messages of 1789570 images each, within a budget for one of them: 32 bits hold 704 of their sum, and both are
      taken. */
  lemma WrappedSumIsTaken(id: string)
    ensures var m := Custom(id, Images(1789570));
            StopsBehind([m, m], 2147484000, 0) && !LongestEnd([m, m], 2147484000, 0)
  {
    var m := Custom(id, Images(1789570));
    ImageTokens(Images(1789570));
    WrapsTogether(m);
  }

  lemma WrapsTogether(m: Message)
    requires MessageTokens(m) == 2147484000
    ensures StopsBehind([m, m], 2147484000, 0) && !LongestEnd([m, m], 2147484000, 0)
  {
    var texts := [m, m];
    assert texts[0..] == [m] + [m] && texts[1..] == [m] && texts[2..] == [];
    EstimateOne(m);
    SumWith(m, [m]);
    assert !Over(texts, 2147484000, 0) && !Over(texts, 2147484000, 1);
    assert TrulyOver(texts, 2147484000, 0);
  }

  /** It does not when every message fits 32 bits on top of the budget. */
  lemma FittingStopIsLongestEnd(texts: seq<Message>, budget: u32, f: nat)
    requires StopsBehind(texts, budget, f)
    requires forall i :: 0 <= i < |texts| ==> budget + MessageTokens(texts[i]) <= U32_MAX
    ensures LongestEnd(texts, budget, f)
  {
    SumStaysWithin(texts, budget, f, f);
    AllBeforeAreOver(texts, budget, f);
  }

  lemma {:induction false} SumStaysWithin(texts: seq<Message>, budget: u32, f: nat, i: nat)
    requires StopsBehind(texts, budget, f) && f <= i <= |texts|
    requires forall i :: 0 <= i < |texts| ==> budget + MessageTokens(texts[i]) <= U32_MAX
    ensures TokenSum(texts[i..]) <= budget
    decreases |texts| - i
  {
    if i == |texts| {
      assert texts[i..] == [];
    } else {
      SumStaysWithin(texts, budget, f, i + 1);
      SumFrom(texts, i);
      assert !Over(texts, budget, i);
    }
  }

  // ---------------------------------------------------------------- the loop

  /** The entry looked at, seen from the messages. */
  lemma LastText(convert: Entry -> Option<Message>, entries: seq<Entry>, i: nat, texts: seq<Message>, k: nat)
    requires i < |entries| && k <= |texts| && Texts(convert, entries[..i + 1]) == texts[..k]
    ensures convert(entries[i]).None? ==> Texts(convert, entries[..i]) == texts[..k]
    ensures convert(entries[i]).Some? ==>
            k > 0 && Texts(convert, entries[..i]) == texts[..k - 1] && texts[k - 1] == convert(entries[i]).value
            && [texts[k - 1]] + texts[k..] == texts[k - 1..]
  {
    var before := Texts(convert, entries[..i]);
    assert entries[..i + 1][..i] == entries[..i];
    if convert(entries[i]).Some? {
      assert texts[..k] == before + [convert(entries[i]).value];
      assert texts[k - 1] == texts[..k][k - 1];
      assert texts[..k - 1] == texts[..k][..k - 1] == before;
    }
  }

  /** What the loop has summed up behind `k`. */
  ghost function SumBehind(texts: seq<Message>, k: nat): u32
    requires k <= |texts|
  {
    Low32(TokenSum(texts[k..]))
  }

  lemma NextSum(texts: seq<Message>, k: nat)
    requires 0 < k <= |texts|
    ensures WrappingAdd(SumBehind(texts, k), MessageTokens(texts[k - 1])) == SumBehind(texts, k - 1)
  {
    SumFrom(texts, k - 1);
    WrapSum(TokenSum(texts[k..]), MessageTokens(texts[k - 1]));
  }

  /** No sum behind `k` was over the budget. */
  ghost predicate WithinSoFar(texts: seq<Message>, budget: u32, k: nat)
  {
    k <= |texts| && (budget > 0 ==> forall i :: k <= i < |texts| ==> !Over(texts, budget, i))
  }

  /** The loop stops at a message, or comes to its end. */
  lemma StopsHere(texts: seq<Message>, budget: u32, k: nat, stretched: bool)
    requires budget > 0 && 0 < k && WithinSoFar(texts, budget, k) && SumBehind(texts, k - 1) > budget
    requires stretched <==> IsSummary(texts[k - 1]) && SumBehind(texts, k) < NineTenths(budget)
    ensures ChosenFrom(texts, budget, if stretched then k - 1 else k)
  {
    assert StopsBehind(texts, budget, k);
  }

  lemma AllTaken(texts: seq<Message>, budget: u32)
    requires WithinSoFar(texts, budget, 0)
    ensures ChosenFrom(texts, budget, 0)
  {
    if budget > 0 { assert StopsBehind(texts, budget, 0); }
  }

  /** What the loop has when it has taken the messages from `k` on. */
  ghost predicate Taken(texts: seq<Message>, k: nat, messages: seq<Message>, total: u32)
  {
    k <= |texts| && messages == texts[k..] && total == SumBehind(texts, k)
  }

  lemma OneMoreTaken(texts: seq<Message>, k: nat, messages: seq<Message>, total: u32, m: Message, sum: u32)
    requires Taken(texts, k, messages, total) && k > 0 && m == texts[k - 1] && [m] + texts[k..] == texts[k - 1..]
    requires sum == WrappingAdd(total, MessageTokens(m))
    ensures Taken(texts, k - 1, [m] + messages, sum) && sum == SumBehind(texts, k - 1)
  {
    NextSum(texts, k);
  }

  lemma AnotherWithin(texts: seq<Message>, budget: u32, k: nat)
    requires k > 0 && WithinSoFar(texts, budget, k) && (budget > 0 ==> SumBehind(texts, k - 1) <= budget)
    ensures WithinSoFar(texts, budget, k - 1)
  {
  }

  /** The loop from the newest entry backwards. */
  method TakeRecent(convert: Entry -> Option<Message>, entries: seq<Entry>, budget: u32)
    returns (messages: seq<Message>, total: u32, ghost k: nat)
    ensures var texts := Texts(convert, entries);
            && k <= |texts| && messages == texts[k..]
            && ChosenFrom(texts, budget, k) && total == Low32(TokenSum(messages))
  {
    ghost var texts := Texts(convert, entries);
    messages, total, k := [], 0, |texts|;
    var i := |entries|;
    assert entries[..i] == entries && texts[..k] == texts;
    while i > 0
      invariant 0 <= i <= |entries| && WithinSoFar(texts, budget, k) && Texts(convert, entries[..i]) == texts[..k]
      invariant Taken(texts, k, messages, total)
    {
      i := i - 1;
      LastText(convert, entries, i, texts, k);
      var converted := convert(entries[i]);
      if converted.None? { continue; }
      var m := converted.value;
      var sum := WrappingAdd(total, MessageTokens(m));
      OneMoreTaken(texts, k, messages, total, m, sum);
      if budget > 0 && sum > budget {
        var stretched := IsSummary(m) && total < NineTenths(budget);
        StopsHere(texts, budget, k, stretched);
        if stretched {
          total := sum;
          messages := [m] + messages;
          k := k - 1;
        }
        return;
      }
      AnotherWithin(texts, budget, k);
      total := sum;
      messages := [m] + messages;
      k := k - 1;
    }
    AllTaken(texts, budget);
  }

  // ---------------------------------------------------------------- files

  /** The files an earlier branch summary lists, and whether a hook wrote it. */
  datatype Details = Details(fromHook: bool, read: seq<string>, modified: seq<string>)

  /** What an entry adds to the lists of files: a branch summary that no hook wrote. */
  predicate Lists(details: Entry -> Option<Details>, e: Entry)
  {
    e.body.CameBack? && details(e).Some? && !details(e).value.fromHook
  }

  ghost predicate ReadBefore(details: Entry -> Option<Details>, entries: seq<Entry>, file: string)
  {
    exists e :: e in entries && Lists(details, e) && file in details(e).value.read
  }

  ghost predicate ModifiedBefore(details: Entry -> Option<Details>, entries: seq<Entry>, file: string)
  {
    exists e :: e in entries && Lists(details, e) && file in details(e).value.modified
  }

  /** Exactly the files that the entries list, whatever their place and however often. */
  method CollectFiles(details: Entry -> Option<Details>, entries: seq<Entry>)
    returns (read: set<string>, modified: set<string>)
    ensures forall file :: file in read <==> ReadBefore(details, entries, file)
    ensures forall file :: file in modified <==> ModifiedBefore(details, entries, file)
  {
    read, modified := {}, {};
    for i := 0 to |entries|
      invariant forall file :: file in read <==> ReadBefore(details, entries[..i], file)
      invariant forall file :: file in modified <==> ModifiedBefore(details, entries[..i], file)
    {
      assert entries[..i + 1] == entries[..i] + [entries[i]];
      if Lists(details, entries[i]) {
        var found := details(entries[i]).value;
        read := read + (set file | file in found.read);
        modified := modified + (set file | file in found.modified);
      }
    }
    assert entries[..|entries|] == entries;
  }

  method PrepareEntries(convert: Entry -> Option<Message>, details: Entry -> Option<Details>, entries: seq<Entry>,
                        budget: u32)
    returns (messages: seq<Message>, total: u32, read: set<string>, modified: set<string>)
    ensures var texts := Texts(convert, entries);
            && |messages| <= |texts| && messages == texts[|texts| - |messages|..]
            && ChosenFrom(texts, budget, |texts| - |messages|) && total == Low32(TokenSum(messages))
    ensures forall file :: file in read <==> ReadBefore(details, entries, file)
    ensures forall file :: file in modified <==> ModifiedBefore(details, entries, file)
  {
    read, modified := CollectFiles(details, entries);
    ghost var k;
    messages, total, k := TakeRecent(convert, entries, budget);
  }
}
