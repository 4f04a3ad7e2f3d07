/** Session entries form a tree through parent pointers. Walks from an entry to its root, and what two such
walks have in common. */
module SessionTree {
  import opened Basics
  import opened Messages

  /** What an entry holds. Fields that are absent or of another JSON type are `None`. */
  datatype Body =
    | Said(stored: Option<Message>)
    | CameBack(summary: Option<string>)
    | Compacted(summary: Option<string>, firstKept: Option<string>)
    | ThinkingLevel(level: Option<string>)
    | ModelChange(provider: Option<string>, model: Option<string>)
    | ActiveTools(names: Option<seq<string>>)
    | Leaf(target: Option<string>)
    | Session
    | Unknown

  datatype Entry = Entry(id: string, parent: Option<string>, body: Body)

  datatype Failure = Cycle(id: string) | Missing(id: string)

  type Index = map<string, Entry>

  /** The entries by id. A later entry replaces an earlier one with the same id. */
  function ById(entries: seq<Entry>): (r: Index)
    ensures forall id :: id in r ==> r[id].id == id && r[id] in entries
    ensures forall e :: e in entries ==> e.id in r
  {
    if entries == [] then map[] else
      var last := entries[|entries| - 1];
      assert entries == entries[..|entries| - 1] + [last];
      ById(entries[..|entries| - 1])[last.id := last]
  }

  /** Every entry is filed under its own id. */
  ghost predicate Filed(index: Index) { forall id :: id in index ==> index[id].id == id }

  // ---------------------------------------------------------------- walks

  /** `climb` goes from the entry `leaf` up along parent pointers, and stops anywhere. */
  ghost predicate Climb(index: Index, leaf: string, climb: seq<Entry>)
  {
    && (climb != [] ==> climb[0].id == leaf)
    && (forall i :: 0 <= i < |climb| ==> climb[i].id in index && index[climb[i].id] == climb[i])
    && (forall i :: 0 < i < |climb| ==> climb[i - 1].parent == Some(climb[i].id))
  }

  /** Where a climb would go next. */
  function Ahead(leaf: string, climb: seq<Entry>): Option<string>
  {
    if climb == [] then Some(leaf) else climb[|climb| - 1].parent
  }

  /** A climb that arrives at a root. */
  ghost predicate Arrives(index: Index, leaf: string, climb: seq<Entry>)
  {
    Climb(index, leaf, climb) && Ahead(leaf, climb).None?
  }

  /** A climb that comes to an id that is not there. */
  ghost predicate Strays(index: Index, leaf: string, climb: seq<Entry>, id: string)
  {
    Climb(index, leaf, climb) && Ahead(leaf, climb) == Some(id) && id !in index
  }

  /** A climb that comes back to an entry it has passed. */
  ghost predicate Loops(index: Index, leaf: string, climb: seq<Entry>, id: string)
  {
    Climb(index, leaf, climb) && Ahead(leaf, climb) == Some(id) && exists i :: 0 <= i < |climb| && climb[i].id == id
  }

  function Reversed<T>(s: seq<T>): (r: seq<T>)
    ensures |r| == |s| && forall i :: 0 <= i < |s| ==> r[i] == s[|s| - 1 - i]
  {
    seq(|s|, i requires 0 <= i < |s| => s[|s| - 1 - i])
  }

  /** `path` leads from a root down to the entry `leaf`. */
  ghost predicate RootPath(index: Index, leaf: string, path: seq<Entry>)
  {
    Arrives(index, leaf, Reversed(path))
  }

  /** What a root path is, read downwards. */
  lemma RootPathIs(index: Index, leaf: string, path: seq<Entry>)
    ensures RootPath(index, leaf, path) <==>
            && path != [] && path[|path| - 1].id == leaf && path[0].parent.None?
            && (forall i :: 0 <= i < |path| ==> path[i].id in index && index[path[i].id] == path[i])
            && (forall i :: 0 < i < |path| ==> path[i].parent == Some(path[i - 1].id))
  {
    var climb := Reversed(path);
    var n := |path|;
    if RootPath(index, leaf, path) {
      forall i | 0 <= i < n ensures path[i].id in index && index[path[i].id] == path[i] {
        assert path[i] == climb[n - 1 - i];
      }
      forall i | 0 < i < n ensures path[i].parent == Some(path[i - 1].id) {
        assert path[i] == climb[n - i - 1] && path[i - 1] == climb[n - i];
      }
    } else if && path != [] && path[|path| - 1].id == leaf && path[0].parent.None?
              && (forall i :: 0 <= i < |path| ==> path[i].id in index && index[path[i].id] == path[i])
              && (forall i :: 0 < i < |path| ==> path[i].parent == Some(path[i - 1].id)) {
      forall i | 0 < i < n ensures climb[i - 1].parent == Some(climb[i].id) {
        assert climb[i] == path[n - 1 - i] && climb[i - 1] == path[n - i];
      }
      assert Climb(index, leaf, climb);
    }
  }

  /** Two climbs from one entry never part. */
  lemma {:induction false} ClimbsAgree(index: Index, leaf: string, a: seq<Entry>, b: seq<Entry>, i: nat)
    requires Climb(index, leaf, a) && Climb(index, leaf, b) && i < |a| && i < |b|
    ensures a[i] == b[i]
  {
    if i > 0 {
      ClimbsAgree(index, leaf, a, b, i - 1);
      assert a[i - 1].parent == Some(a[i].id) && b[i - 1].parent == Some(b[i].id);
    }
  }

  /** Once a walk has come back to an entry it has passed, it goes on for ever: no climb arrives or strays. */
  lemma {:induction false} LoopNeverLeaves(index: Index, leaf: string, a: seq<Entry>, i: nat, b: seq<Entry>)
    requires Climb(index, leaf, a) && i < |a| && Ahead(leaf, a) == Some(a[i].id)
    requires Climb(index, leaf, b)
    ensures Ahead(leaf, b).Some? && Ahead(leaf, b).value in index
    decreases |b| - |a|
  {
    forall k | 0 <= k < |a| && k < |b| ensures a[k] == b[k] { ClimbsAgree(index, leaf, a, b, k); }
    if |b| < |a| {
      assert b != [] ==> a[|b| - 1].parent == Some(a[|b|].id);
    } else if |b| == |a| {
      assert a == b;
    } else {
      var longer := a + [a[i]];
      if i + 1 < |a| {
        assert a[i].parent == Some(a[i + 1].id) && longer[i + 1] == a[i + 1];
      }
      LoopNeverLeaves(index, leaf, longer, i + 1, b);
    }
  }

  /** The three ends of a walk exclude one another. */
  lemma EndsExclude(index: Index, leaf: string, a: seq<Entry>, b: seq<Entry>, x: string, y: string)
    ensures !(Loops(index, leaf, a, x) && Strays(index, leaf, b, y))
    ensures !(Loops(index, leaf, a, x) && Arrives(index, leaf, b))
    ensures !(Strays(index, leaf, a, x) && Arrives(index, leaf, b))
  {
    if Loops(index, leaf, a, x) && Climb(index, leaf, b) {
      var i :| 0 <= i < |a| && a[i].id == x;
      LoopNeverLeaves(index, leaf, a, i, b);
    }
    if Strays(index, leaf, a, x) && Climb(index, leaf, b) {
      ShorterAhead(index, leaf, a, b);
      ShorterAhead(index, leaf, b, a);
    }
  }

  /** Of two climbs from one entry the shorter one goes on along the longer one. */
  lemma ShorterAhead(index: Index, leaf: string, a: seq<Entry>, b: seq<Entry>)
    requires Climb(index, leaf, a) && Climb(index, leaf, b)
    ensures |a| < |b| ==> Ahead(leaf, a) == Some(b[|a|].id) && b[|a|].id in index
    ensures |a| == |b| ==> a == b
  {
    forall i | 0 <= i < |a| && i < |b| ensures a[i] == b[i] { ClimbsAgree(index, leaf, a, b, i); }
    assert 0 < |a| < |b| ==> b[|a| - 1].parent == Some(b[|a|].id);
  }

  /** There is at most one path from a root to an entry. */
  lemma OneRootPath(index: Index, leaf: string, p: seq<Entry>, q: seq<Entry>)
    requires RootPath(index, leaf, p) && RootPath(index, leaf, q)
    ensures p == q
  {
    ShorterAhead(index, leaf, Reversed(p), Reversed(q));
    ShorterAhead(index, leaf, Reversed(q), Reversed(p));
    assert p == Reversed(Reversed(p)) && q == Reversed(Reversed(q));
  }

  /** Two root paths that meet anywhere are the same up to there, and meet at the same depth. */
  lemma {:induction false} MeetingPathsAgree(index: Index, x: string, p: seq<Entry>, i: nat, y: string, q: seq<Entry>,
                                             j: nat)
    requires RootPath(index, x, p) && RootPath(index, y, q) && i < |p| && j < |q| && p[i].id == q[j].id
    ensures i == j && p[..i + 1] == q[..j + 1]
  {
    RootPathIs(index, x, p);
    RootPathIs(index, y, q);
    assert i > 0 ==> p[i].parent == Some(p[i - 1].id);
    assert j > 0 ==> q[j].parent == Some(q[j - 1].id);
    if i > 0 && j > 0 {
      MeetingPathsAgree(index, x, p, i - 1, y, q, j - 1);
      assert p[..i + 1] == p[..i] + [p[i]] && q[..j + 1] == q[..j] + [q[j]];
    }
  }

  /** The walk to the root. */
  method PathToRoot(index: Index, leaf: string) returns (r: Result<seq<Entry>, Failure>, ghost walk: seq<Entry>)
    requires Filed(index)
    ensures r.Ok? ==> RootPath(index, leaf, r.value)
    ensures r.Err? && r.error.Missing? ==> Strays(index, leaf, walk, r.error.id)
    ensures r.Err? && r.error.Cycle? ==> Loops(index, leaf, walk, r.error.id)
  {
    var path: seq<Entry> := [];
    var current := Some(leaf);
    var visited: set<string> := {};
    while current.Some?
      invariant Climb(index, leaf, path) && current == Ahead(leaf, path)
      invariant forall id :: id in visited <==> exists i :: 0 <= i < |path| && path[i].id == id
      invariant visited <= index.Keys
      decreases index.Keys - visited, if current.Some? then 1 else 0
    {
      var id := current.value;
      if id in visited {
        return Err(Cycle(id)), path;
      }
      if id !in index {
        return Err(Missing(id)), path;
      }
      var entry := index[id];
      ghost var before := path;
      visited := visited + {id};
      path := path + [entry];
      assert path[|before|].id == id;
      assert forall i :: 0 <= i < |before| ==> path[i] == before[i];
      current := entry.parent;
    }
    walk := path;
    assert Reversed(Reversed(path)) == path;
    r := Ok(Reversed(path));
  }
}
