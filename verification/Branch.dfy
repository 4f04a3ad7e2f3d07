/** Leaving a branch: which entries are abandoned when the session moves from one entry to another. */
module Branch {
  import opened Basics
  import opened SessionTree

  datatype Collected = Collected(entries: seq<Entry>, ancestor: Option<string>)

  ghost predicate HasRoot(index: Index, leaf: string) { exists path :: RootPath(index, leaf, path) }

  /** The walk up from `leaf` ends with this failure. */
  ghost predicate Fails(index: Index, leaf: string, e: Failure)
  {
    exists walk :: EndsWith(index, leaf, walk, e)
  }

  ghost predicate EndsWith(index: Index, leaf: string, walk: seq<Entry>, e: Failure)
  {
    if e.Missing? then Strays(index, leaf, walk, e.id) else Loops(index, leaf, walk, e.id)
  }

  /** The two paths share exactly their first `k` entries: no entry of the one below is on the other. */
  ghost predicate PartAt(p: seq<Entry>, q: seq<Entry>, k: nat)
  {
    && k <= |p| && k <= |q| && p[..k] == q[..k]
    && (forall i, j :: k <= i < |p| && 0 <= j < |q| ==> p[i].id != q[j].id)
    && (forall i, j :: 0 <= i < |p| && k <= j < |q| ==> p[i].id != q[j].id)
  }

  /** What is abandoned on the way from the end of `p` to the end of `q`. */
  ghost predicate IsAbandoned(p: seq<Entry>, q: seq<Entry>, c: Collected)
  {
    exists k: nat :: PartAt(p, q, k) && c == Collected(p[k..], if k == 0 then None else Some(p[k - 1].id))
  }

  /** Paths do not part while they go together. */
  lemma NotYet(p: seq<Entry>, q: seq<Entry>, k: nat, l: nat)
    requires k < l <= |p| && l <= |q| && p[..l] == q[..l]
    ensures !PartAt(p, q, k)
  {
    assert p[k] == p[..l][k] == q[..l][k] == q[k];
  }

  /** Paths part at one place only. */
  lemma PartOnce(p: seq<Entry>, q: seq<Entry>, k: nat, l: nat)
    requires PartAt(p, q, k) && PartAt(p, q, l)
    ensures k == l
  {
    if k < l { NotYet(p, q, k, l); }
    if l < k { NotYet(p, q, l, k); }
  }

  /** Root paths whose deepest meeting is `q[j]`, or that do not meet, part right below. */
  lemma PartBelow(index: Index, x: string, p: seq<Entry>, y: string, q: seq<Entry>, j: nat)
    requires RootPath(index, x, p) && RootPath(index, y, q) && j <= |q|
    requires j > 0 ==> exists i :: 0 <= i < |p| && p[i].id == q[j - 1].id
    requires forall i, l :: 0 <= i < |p| && j <= l < |q| ==> p[i].id != q[l].id
    ensures PartAt(p, q, j)
  {
    if j > 0 {
      var i :| 0 <= i < |p| && p[i].id == q[j - 1].id;
      MeetingPathsAgree(index, x, p, i, y, q, j - 1);
    }
    forall i, l | j <= i < |p| && 0 <= l < |q| ensures p[i].id != q[l].id {
      if p[i].id == q[l].id { MeetingPathsAgree(index, x, p, i, y, q, l); }
    }
  }

  method CollectEntries(entries: seq<Entry>, oldLeaf: Option<string>, target: string)
    returns (r: Result<Collected, Failure>)
    ensures oldLeaf.None? ==> r == Ok(Collected([], None))
    ensures oldLeaf.Some? ==>
            var index := ById(entries);
            && (r.Ok? <==> HasRoot(index, oldLeaf.value) && HasRoot(index, target))
            && (r.Ok? ==> forall p, q :: RootPath(index, oldLeaf.value, p) && RootPath(index, target, q) ==>
                            IsAbandoned(p, q, r.value))
            && (r.Err? ==> Fails(index, if HasRoot(index, oldLeaf.value) then target else oldLeaf.value, r.error))
  {
    if oldLeaf.None? { return Ok(Collected([], None)); }
    var index := ById(entries);
    var oldPath, walk := PathToRoot(index, oldLeaf.value);
    if oldPath.Err? {
      NoRoot(index, oldLeaf.value, walk, oldPath.error);
      return Err(oldPath.error);
    }
    var targetPath, walk' := PathToRoot(index, target);
    if targetPath.Err? {
      NoRoot(index, target, walk', targetPath.error);
      return Err(targetPath.error);
    }
    var p, q := oldPath.value, targetPath.value;
    var j := DeepestShared(p, q);
    PartBelow(index, oldLeaf.value, p, target, q, j);
    var ancestor := if j == 0 then None else Some(q[j - 1].id);
    var abandoned := Abandon(index, oldLeaf.value, p, j, ancestor);
    forall p', q' | RootPath(index, oldLeaf.value, p') && RootPath(index, target, q')
      ensures IsAbandoned(p', q', Collected(abandoned, ancestor))
    {
      OneRootPath(index, oldLeaf.value, p, p');
      OneRootPath(index, target, q, q');
    }
    r := Ok(Collected(abandoned, ancestor));
  }

  /** A walk that did not arrive shows that there is no root path. */
  lemma NoRoot(index: Index, leaf: string, walk: seq<Entry>, e: Failure)
    requires EndsWith(index, leaf, walk, e)
    ensures !HasRoot(index, leaf) && Fails(index, leaf, e)
  {
    forall path ensures !RootPath(index, leaf, path) {
      EndsExclude(index, leaf, walk, Reversed(path), e.id, e.id);
    }
  }

  /** The depth of the deepest entry of `q` whose id is on `p`; zero when there is none. */
  method DeepestShared(p: seq<Entry>, q: seq<Entry>) returns (j: nat)
    ensures j <= |q|
    ensures j > 0 ==> exists i :: 0 <= i < |p| && p[i].id == q[j - 1].id
    ensures forall i, l :: 0 <= i < |p| && j <= l < |q| ==> p[i].id != q[l].id
  {
    var ids := set i | 0 <= i < |p| :: p[i].id;
    j := |q|;
    while j > 0 && q[j - 1].id !in ids
      invariant j <= |q|
      invariant forall i, l :: 0 <= i < |p| && j <= l < |q| ==> p[i].id != q[l].id
    {
      j := j - 1;
    }
  }

  /** The walk up from the old leaf that stops at the common ancestor. It keeps no record of where it has been, and
      never finds an entry missing. */
  method Abandon(index: Index, leaf: string, p: seq<Entry>, k: nat, ancestor: Option<string>)
    returns (abandoned: seq<Entry>)
    requires RootPath(index, leaf, p) && k <= |p|
    requires ancestor == if k == 0 then None else Some(p[k - 1].id)
    ensures abandoned == p[k..]
  {
    RootPathIs(index, leaf, p);
    var current := Some(leaf);
    var collected := [];
    ghost var at := |p|;
    while current.Some? && current != ancestor
      invariant k <= at <= |p|
      invariant current == if at == 0 then None else Some(p[at - 1].id)
      invariant |collected| == |p| - at && forall i :: 0 <= i < |collected| ==> collected[i] == p[|p| - 1 - i]
      decreases at
    {
      assert index[current.value] == p[at - 1];
      assert at > 1 ==> p[at - 1].parent == Some(p[at - 2].id);
      var entry := index[current.value];
      collected := collected + [entry];
      current := entry.parent;
      at := at - 1;
    }
    if at > k {
      MeetingPathsAgree(index, leaf, p, at - 1, leaf, p, k - 1);
    }
    abandoned := Reversed(collected);
  }
}
