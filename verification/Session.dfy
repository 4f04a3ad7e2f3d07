/** The append-only log of a session, its current leaf, and the conversation rebuilt from it. */
module Session {
  import opened Basics
  import opened SessionTree

  // ---------------------------------------------------------------- leaves

  /** The leaf right after an entry is appended. */
  function LeafAfter(e: Entry): Option<string>
  {
    if e.body.Leaf? then e.body.target else Some(e.id)
  }

  /** The leaf a storage has kept up to date. */
  function StoredLeaf(log: seq<Entry>): Option<string>
  {
    if log == [] then None else LeafAfter(log[|log| - 1])
  }

  /** The leaf as it is inferred from a log. */
  function InferLeaf(log: seq<Entry>): Option<string>
  {
    if log == [] then None else
      var last := log[|log| - 1];
      if last.body.Leaf? then last.body.target
      else if !last.body.Session? then Some(last.id)
      else InferLeaf(log[..|log| - 1])
  }

  ghost predicate Contains(log: seq<Entry>, id: string) { exists j :: 0 <= j < |log| && log[j].id == id }

  /** Ids are unique, and parents and leaf targets were appended earlier. */
  ghost predicate Grown(log: seq<Entry>)
  {
    forall i :: 0 <= i < |log| ==> GrowsOn(log[..i], log[i])
  }

  ghost predicate GrowsOn(log: seq<Entry>, e: Entry)
  {
    && !Contains(log, e.id)
    && (e.parent.Some? ==> Contains(log, e.parent.value))
    && (e.body.Leaf? && e.body.target.Some? ==> Contains(log, e.body.target.value))
  }

  lemma GrownPrefix(log: seq<Entry>, n: nat)
    requires Grown(log) && n <= |log|
    ensures Grown(log[..n])
  {
    forall i | 0 <= i < n ensures GrowsOn(log[..n][..i], log[..n][i]) {
      assert log[..n][..i] == log[..i];
    }
  }

  lemma {:induction false} InferredIsThere(log: seq<Entry>)
    requires Grown(log)
    ensures InferLeaf(log).Some? ==> Contains(log, InferLeaf(log).value)
  {
    if log != [] {
      var n := |log| - 1;
      GrownPrefix(log, n);
      InferredIsThere(log[..n]);
      assert GrowsOn(log[..n], log[n]);
      assert forall j :: 0 <= j < n ==> log[..n][j] == log[j];
      assert log[n].id == log[n].id;
    }
  }

  /** The stored leaf is the inferred one exactly when the log does not end with a `session` entry that nothing earlier
      points at. In a log that has grown nothing can. */
  lemma LeavesAgree(log: seq<Entry>)
    ensures StoredLeaf(log) == InferLeaf(log) <==>
            log == [] || !log[|log| - 1].body.Session? || InferLeaf(log[..|log| - 1]) == Some(log[|log| - 1].id)
    ensures Grown(log) ==> (StoredLeaf(log) == InferLeaf(log) <==> log == [] || !log[|log| - 1].body.Session?)
  {
    if log != [] && Grown(log) {
      var n := |log| - 1;
      GrownPrefix(log, n);
      InferredIsThere(log[..n]);
      assert GrowsOn(log[..n], log[n]);
    }
  }

  /** A log whose stored leaf is not the inferred one. */
  lemma SessionEntryHidesLeaf(id: string)
    ensures var log := [Entry(id, None, Body.Session)];
            Grown(log) && StoredLeaf(log) == Some(id) && InferLeaf(log) == None
  {
    var log := [Entry(id, None, Body.Session)];
    assert log[..0] == [];
  }

  /** The inferred leaf is the stored leaf of the log up to its last entry that is no `session` entry. */
  lemma {:induction false} InferredIsEarlierStored(log: seq<Entry>, n: nat)
    requires n <= |log| && (n > 0 ==> !log[n - 1].body.Session?)
    requires forall i :: n <= i < |log| ==> log[i].body.Session?
    ensures InferLeaf(log) == StoredLeaf(log[..n])
  {
    if n < |log| {
      var last := |log| - 1;
      InferredIsEarlierStored(log[..last], n);
      assert log[..last][..n] == log[..n];
    } else {
      assert log[..n] == log;
    }
  }

  /** A log that has grown goes on growing. */
  lemma GrownOneMore(log: seq<Entry>, e: Entry)
    requires Grown(log) && GrowsOn(log, e)
    ensures Grown(log + [e])
  {
    forall i | 0 <= i < |log| + 1 ensures GrowsOn((log + [e])[..i], (log + [e])[i]) {
      assert (log + [e])[..i] == log[..i];
      assert i == |log| ==> log[..i] == log;
    }
  }

  lemma IndexOneMore(log: seq<Entry>, e: Entry)
    ensures ById(log + [e]) == ById(log)[e.id := e]
  {
    assert (log + [e])[..|log|] == log;
  }

  ghost predicate Distinct(log: seq<Entry>)
  {
    forall i, j :: 0 <= i < j < |log| ==> log[i].id != log[j].id
  }

  lemma IndexedIsLogged(log: seq<Entry>, id: string)
    ensures id in ById(log) <==> Contains(log, id)
  {
    if id in ById(log) { assert ById(log)[id] in log; }
    if Contains(log, id) {
      var j :| 0 <= j < |log| && log[j].id == id;
      assert log[j] in log;
    }
  }

  /** What one new entry more does to a log. */
  lemma OneMore(log: seq<Entry>, e: Entry)
    requires Distinct(log) && !Contains(log, e.id)
    ensures var longer := log + [e];
            && ById(longer) == ById(log)[e.id := e] && StoredLeaf(longer) == LeafAfter(e) && Distinct(longer)
            && (Grown(log) && GrowsOn(log, e) ==> Grown(longer))
  {
    IndexOneMore(log, e);
    if Grown(log) && GrowsOn(log, e) { GrownOneMore(log, e); }
  }

  /** Storage in memory. */
  class MemoryStorage {
    var entries: seq<Entry>
    var byId: Index
    var leaf: Option<string>

    ghost predicate Valid()
      reads this
    {
      && byId == ById(entries) && leaf == StoredLeaf(entries)
      && Distinct(entries)
    }

    constructor ()
      ensures Valid() && entries == []
    {
      entries, byId, leaf := [], map[], None;
    }

    method AppendEntry(entry: Entry) returns (r: Result<(), string>)
      requires Valid()
      modifies this
      ensures Valid()
      ensures r.Err? <==> Contains(old(entries), entry.id)
      ensures r.Err? ==> r.error == entry.id && entries == old(entries)
      ensures r.Ok? ==> entries == old(entries) + [entry]
      ensures r.Ok? && Grown(old(entries)) && GrowsOn(old(entries), entry) ==> Grown(entries)
    {
      IndexedIsLogged(entries, entry.id);
      if entry.id in byId {
        return Err(entry.id);
      }
      OneMore(entries, entry);
      leaf := if entry.body.Leaf? then entry.body.target else Some(entry.id);
      byId := byId[entry.id := entry];
      entries := entries + [entry];
      r := Ok(());
    }

    method GetLeaf() returns (r: Option<string>)
      requires Valid()
      ensures r == StoredLeaf(entries)
      ensures entries == [] || !entries[|entries| - 1].body.Session? ==> r == InferLeaf(entries)
    {
      LeavesAgree(entries);
      r := leaf;
    }
  }

  // ---------------------------------------------------------------- paths in a log that has grown

  lemma {:induction false} IndexOfLog(log: seq<Entry>, i: nat)
    requires Grown(log) && i < |log|
    ensures log[i].id in ById(log) && ById(log)[log[i].id] == log[i]
  {
    var n := |log| - 1;
    var last := log[n];
    assert log == log[..n] + [last];
    IndexOneMore(log[..n], last);
    if i < n {
      GrownPrefix(log, n);
      IndexOfLog(log[..n], i);
      NewId(log, i);
    }
  }

  lemma NewId(log: seq<Entry>, i: nat)
    requires Grown(log) && i + 1 < |log|
    ensures log[|log| - 1].id != log[i].id
  {
    var n := |log| - 1;
    assert GrowsOn(log[..n], log[n]);
    assert log[..n][i] == log[i];
  }

  /** Every entry of a log that has grown has a root. */
  lemma {:induction false} EntryHasRoot(log: seq<Entry>, i: nat) returns (path: seq<Entry>)
    requires Grown(log) && i < |log|
    ensures RootPath(ById(log), log[i].id, path)
  {
    IndexOfLog(log, i);
    if log[i].parent.None? {
      path := [log[i]];
      RootPathIs(ById(log), log[i].id, path);
    } else {
      assert GrowsOn(log[..i], log[i]);
      var j :| 0 <= j < i && log[j].id == log[i].parent.value;
      var above := EntryHasRoot(log, j);
      path := Below(ById(log), log[j].id, above, log[i]);
    }
  }

  /** A path goes on from its end to a child. */
  lemma Below(index: Index, leaf: string, above: seq<Entry>, e: Entry) returns (path: seq<Entry>)
    requires RootPath(index, leaf, above) && e.id in index && index[e.id] == e && e.parent == Some(leaf)
    ensures path == above + [e] && RootPath(index, e.id, path)
  {
    path := above + [e];
    RootPathIs(index, leaf, above);
    RootPathIs(index, e.id, path);
  }
}
