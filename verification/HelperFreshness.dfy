/** Whether a helper binary is newer than the sources it is built from (belltower, launcher.rs). */
module HelperFreshness {
  import opened Wrappers

  type Path = string
  type Time = nat

  /**
   * The file system as given functions: path normalisation, the local path
   * dependencies in a crate's manifest, and the edit times of its manifest and
   * source tree. `crates` bounds the search; dependencies may form cycles.
   */
  datatype Workspace = Workspace(
    crates: set<Path>, normalize: Path -> Path, dependencies: Path -> seq<Path>,
    manifestEdit: Path -> Option<Time>, sourceEdit: Path -> Option<Time>)

  predicate Closed(w: Workspace) {
    forall c :: c in w.crates ==> forall d :: d in w.dependencies(c) ==> w.normalize(d) in w.crates
  }

  predicate Edge(w: Workspace, from: Path, to: Path) {
    exists d :: d in w.dependencies(from) && w.normalize(d) == to
  }

  predicate Walk(w: Workspace, path: seq<Path>) {
    path != [] && forall i :: 0 <= i < |path| - 1 ==> Edge(w, path[i], path[i + 1])
  }

  ghost predicate Reachable(w: Workspace, from: Path, to: Path) {
    exists path :: Walk(w, path) && path[0] == from && path[|path| - 1] == to
  }

  function Later(a: Option<Time>, b: Option<Time>): Option<Time> {
    match (a, b)
    case (Some(x), Some(y)) => Some(if x < y then y else x)
    case (None, _) => b
    case (_, None) => a
  }

  /** A manifest or source tree edited by then, or of unknown time. */
  predicate EditedBy(edit: Option<Time>, bound: Option<Time>) {
    edit.Some? ==> bound.Some? && edit.value <= bound.value
  }

  /** `latest` is the newest edit of a manifest or source tree among the crates, `None` when none has an edit time. */
  ghost predicate IsLatest(w: Workspace, latest: Option<Time>, crates: set<Path>) {
    && (forall c :: c in crates ==> EditedBy(w.manifestEdit(c), latest) && EditedBy(w.sourceEdit(c), latest))
    && (latest.Some? ==> exists c :: c in crates && (w.manifestEdit(c) == latest || w.sourceEdit(c) == latest))
  }

  /** Every dependency of these crates is already in `visited`. */
  predicate DependenciesIn(w: Workspace, crates: set<Path>, visited: set<Path>) {
    forall c, d :: c in crates && d in w.dependencies(c) ==> w.normalize(d) in visited
  }

  class Search {
    var visited: set<Path>
    var scanned: seq<Path>

    /** The crates scanned are those visited, each once. */
    ghost predicate Valid(w: Workspace)
      reads this
    {
      && visited <= w.crates
      && (forall c :: c in scanned <==> c in visited)
      && forall i, j :: 0 <= i < j < |scanned| ==> scanned[i] != scanned[j]
    }

    constructor (w: Workspace)
      ensures Valid(w) && visited == {} && scanned == []
    {
      visited, scanned := {}, [];
    }

    /** The depth-first search; a crate visited before contributes nothing. */
    method LatestCrateEdit(w: Workspace, root: Path) returns (latest: Option<Time>)
      requires Closed(w) && Valid(w) && w.normalize(root) in w.crates
      modifies this
      ensures Valid(w) && old(visited) <= visited && w.normalize(root) in visited
      ensures DependenciesIn(w, visited - old(visited), visited)
      ensures forall c :: c in visited - old(visited) ==> Reachable(w, w.normalize(root), c)
      ensures IsLatest(w, latest, visited - old(visited))
      ensures old(scanned) <= scanned
      decreases w.crates - visited
    {
      hide Reachable, IsLatest, Edge, Walk, Closed, DependenciesIn;
      var crate := w.normalize(root);
      if crate in visited {
        LatestOfNone(w);
        assert visited - old(visited) == {};
        NoDependencies(w, visited);
        return None;
      }
      ghost var before := visited;
      visited := visited + {crate};
      scanned := scanned + [crate];
      ReachesItself(w, crate);
      latest := w.manifestEdit(crate);
      var src := w.sourceEdit(crate);
      if src.Some? {
        latest := Later(latest, src);
      }
      LatestOfOne(w, crate, latest);
      assert visited - before == {crate} && visited - (before + {crate}) == {};
      NoDependencies(w, visited);
      var dependencies := w.dependencies(crate);
      for i := 0 to |dependencies|
        invariant Valid(w) && before + {crate} <= visited && old(scanned) <= scanned
        invariant forall k :: 0 <= k < i ==> w.normalize(dependencies[k]) in visited
        invariant DependenciesIn(w, visited - (before + {crate}), visited)
        invariant forall c :: c in visited - before ==> Reachable(w, crate, c)
        invariant IsLatest(w, latest, visited - before)
      {
        ghost var inner := visited;
        DependencyKnown(w, crate, i);
        var found := LatestCrateEdit(w, dependencies[i]);
        ReachesDependency(w, crate, i, visited - inner);
        DependenciesGrow(w, before + {crate}, inner, visited);
        LatestOfBoth(w, latest, inner - before, found, visited - inner);
        assert (inner - before) + (visited - inner) == visited - before;
        if found.Some? {
          latest := Later(latest, found);
        }
      }
      DependenciesWithRoot(w, crate, before, visited);
    }
  }

  lemma LatestOfNone(w: Workspace)
    ensures IsLatest(w, None, {})
  {
  }

  lemma LatestOfOne(w: Workspace, c: Path, latest: Option<Time>)
    requires latest == Later(w.manifestEdit(c), w.sourceEdit(c))
    ensures IsLatest(w, latest, {c})
  {
  }

  lemma DependencyEdge(w: Workspace, c: Path, i: nat)
    requires i < |w.dependencies(c)|
    ensures Edge(w, c, w.normalize(w.dependencies(c)[i]))
  {
  }

  lemma LatestOfBoth(w: Workspace, a: Option<Time>, x: set<Path>, b: Option<Time>, y: set<Path>)
    requires IsLatest(w, a, x) && IsLatest(w, b, y)
    ensures IsLatest(w, Later(a, b), x + y)
  {
    if a.Some? {
      var c :| c in x && (w.manifestEdit(c) == a || w.sourceEdit(c) == a);
      assert c in x + y;
    }
    if b.Some? {
      var c :| c in y && (w.manifestEdit(c) == b || w.sourceEdit(c) == b);
      assert c in x + y;
    }
  }

  lemma ReachesItself(w: Workspace, c: Path)
    ensures Reachable(w, c, c)
  {
    assert Walk(w, [c]);
  }

  lemma ReachesThrough(w: Workspace, from: Path, via: Path, to: Path)
    requires Edge(w, from, via) && Reachable(w, via, to)
    ensures Reachable(w, from, to)
  {
    hide Edge;
    var path :| Walk(w, path) && path[0] == via && path[|path| - 1] == to;
    var longer := [from] + path;
    forall i | 0 <= i < |longer| - 1 ensures Edge(w, longer[i], longer[i + 1]) {
      if i > 0 { assert Edge(w, path[i - 1], path[i]); }
    }
    assert Walk(w, longer);
  }

  lemma DependencyKnown(w: Workspace, c: Path, i: nat)
    requires Closed(w) && c in w.crates && i < |w.dependencies(c)|
    ensures w.normalize(w.dependencies(c)[i]) in w.crates
  {
  }

  lemma NoDependencies(w: Workspace, visited: set<Path>)
    ensures DependenciesIn(w, {}, visited)
  {
  }

  lemma DependenciesGrow(w: Workspace, start: set<Path>, inner: set<Path>, visited: set<Path>)
    requires DependenciesIn(w, inner - start, inner) && DependenciesIn(w, visited - inner, visited) && inner <= visited
    ensures DependenciesIn(w, visited - start, visited)
  {
  }

  lemma DependenciesWithRoot(w: Workspace, c: Path, before: set<Path>, visited: set<Path>)
    requires DependenciesIn(w, visited - (before + {c}), visited)
    requires forall k :: 0 <= k < |w.dependencies(c)| ==> w.normalize(w.dependencies(c)[k]) in visited
    ensures DependenciesIn(w, visited - before, visited)
  {
  }

  lemma ReachesDependency(w: Workspace, c: Path, i: nat, found: set<Path>)
    requires i < |w.dependencies(c)|
    requires forall f :: f in found ==> Reachable(w, w.normalize(w.dependencies(c)[i]), f)
    ensures forall f :: f in found ==> Reachable(w, c, f)
  {
    hide Reachable, Edge;
    DependencyEdge(w, c, i);
    forall f | f in found ensures Reachable(w, c, f) {
      ReachesThrough(w, c, w.normalize(w.dependencies(c)[i]), f);
    }
  }

  lemma {:induction false} WalkStaysIn(w: Workspace, visited: set<Path>, path: seq<Path>, n: nat)
    requires DependenciesIn(w, visited, visited) && Walk(w, path) && path[0] in visited && n < |path|
    ensures path[n] in visited
  {
    if n > 0 {
      WalkStaysIn(w, visited, path, n - 1);
      assert Edge(w, path[n - 1], path[n]);
    }
  }

  /** The newest edit over exactly the crates reachable from the helper crate, each scanned once. */
  method LatestHelperSourceEdit(w: Workspace, helper: Path)
    returns (latest: Option<Time>, visited: set<Path>, scanned: seq<Path>)
    requires Closed(w) && w.normalize(helper) in w.crates
    ensures forall c :: c in visited <==> Reachable(w, w.normalize(helper), c)
    ensures IsLatest(w, latest, visited)
    ensures (forall c :: c in scanned <==> c in visited)
      && forall i, j :: 0 <= i < j < |scanned| ==> scanned[i] != scanned[j]
  {
    var search := new Search(w);
    latest := search.LatestCrateEdit(w, helper);
    visited, scanned := search.visited, search.scanned;
    assert visited - {} == visited;
    forall c | Reachable(w, w.normalize(helper), c) ensures c in visited {
      var path :| Walk(w, path) && path[0] == w.normalize(helper) && path[|path| - 1] == c;
      WalkStaysIn(w, visited, path, |path| - 1);
    }
  }

  /** A readable sibling binary is fresh iff it is at least as new as every reachable crate's edit time. */
  method SiblingIsFresh(w: Workspace, inWorkspace: bool, modified: Option<Time>, helper: Path) returns (isFresh: bool)
    requires inWorkspace ==> Closed(w) && w.normalize(helper) in w.crates
    ensures isFresh <==> modified.Some? && (inWorkspace ==>
      forall c :: Reachable(w, w.normalize(helper), c) ==>
        && (w.manifestEdit(c).Some? ==> w.manifestEdit(c).value <= modified.value)
        && (w.sourceEdit(c).Some? ==> w.sourceEdit(c).value <= modified.value))
  {
    if modified.None? { return false; }
    if !inWorkspace { return true; }
    var latest, visited, _ := LatestHelperSourceEdit(w, helper);
    if latest.None? { return true; }
    isFresh := modified.value >= latest.value;
  }
}
