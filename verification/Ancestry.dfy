/** Ancestry over the commits table: reachability through parent_ids, the recursive
    queries that compute it, and the merge base. */
module Ancestry {
  import opened Tables

  type Commits = map<CommitId, Commit>

  ghost predicate IsPath(commits: Commits, path: seq<CommitId>) {
    && path != []
    && (forall i :: 0 <= i < |path| ==> path[i] in commits)
    && (forall i :: 0 <= i < |path| - 1 ==> path[i + 1] in commits[path[i]].parents)
  }

  /** `a` is `d` or an ancestor of `d`. */
  ghost predicate Reaches(commits: Commits, d: CommitId, a: CommitId) {
    exists path :: IsPath(commits, path) && path[0] == d && path[|path| - 1] == a
  }

  ghost function Ancestors(commits: Commits, d: CommitId): set<CommitId> {
    set a | a in commits && Reaches(commits, d, a)
  }

  ghost predicate ParentsExist(commits: Commits) {
    forall c, q :: c in commits && q in commits[c].parents ==> q in commits
  }

  /** created_at rises along every parent edge. */
  ghost predicate Rising(commits: Commits) {
    forall c, q :: c in commits && q in commits[c].parents ==>
      q in commits && commits[q].createdAt < commits[c].createdAt
  }

  /** The same, for the history of one commit. */
  ghost predicate RisingFrom(commits: Commits, d: CommitId) {
    forall c, q :: c in commits && Reaches(commits, d, c) && q in commits[c].parents ==>
      q in commits && commits[q].createdAt < commits[c].createdAt
  }

  ghost predicate DistinctStamps(commits: Commits) {
    forall a, b :: a in commits && b in commits && a != b ==>
      commits[a].createdAt != commits[b].createdAt
  }

  // ---- reachability is a partial order ----

  lemma ReachesSelf(commits: Commits, c: CommitId)
    requires c in commits
    ensures Reaches(commits, c, c)
  {
    assert IsPath(commits, [c]);
  }

  lemma ReachesParent(commits: Commits, c: CommitId, q: CommitId)
    requires c in commits && q in commits && q in commits[c].parents
    ensures Reaches(commits, c, q)
  {
    assert IsPath(commits, [c, q]);
  }

  lemma ReachesTransitive(commits: Commits, x: CommitId, y: CommitId, z: CommitId)
    requires Reaches(commits, x, y) && Reaches(commits, y, z)
    ensures Reaches(commits, x, z)
  {
    var p :| IsPath(commits, p) && p[0] == x && p[|p| - 1] == y;
    var q :| IsPath(commits, q) && q[0] == y && q[|q| - 1] == z;
    var r := p + q[1..];
    assert r[|r| - 1] == z;
    assert IsPath(commits, r);
  }

  lemma ReachesEndpoints(commits: Commits, d: CommitId, a: CommitId)
    requires Reaches(commits, d, a)
    ensures d in commits && a in commits
  {
    var p :| IsPath(commits, p) && p[0] == d && p[|p| - 1] == a;
  }

  /** A strict ancestor is reached through some parent. */
  lemma ReachesThroughParent(commits: Commits, d: CommitId, a: CommitId) returns (q: CommitId)
    requires Reaches(commits, d, a) && d != a
    ensures d in commits && q in commits[d].parents && Reaches(commits, q, a)
  {
    var p :| IsPath(commits, p) && p[0] == d && p[|p| - 1] == a;
    q := p[1];
    assert IsPath(commits, p[1..]);
  }

  lemma {:induction false} PathFalls(commits: Commits, path: seq<CommitId>)
    requires IsPath(commits, path) && RisingFrom(commits, path[0])
    ensures |path| > 1 ==>
      commits[path[|path| - 1]].createdAt < commits[path[0]].createdAt
    decreases |path|
  {
    if |path| > 1 {
      var rest := path[1..];
      assert path[1] in commits[path[0]].parents;
      ReachesSelf(commits, path[0]);
      ReachesParent(commits, path[0], path[1]);
      assert IsPath(commits, rest);
      RisingFromAncestor(commits, path[0], path[1]);
      PathFalls(commits, rest);
    }
  }

  lemma RisingFromAncestor(commits: Commits, d: CommitId, a: CommitId)
    requires RisingFrom(commits, d) && Reaches(commits, d, a)
    ensures RisingFrom(commits, a)
  {
    forall c, q | c in commits && Reaches(commits, a, c) && q in commits[c].parents
      ensures q in commits && commits[q].createdAt < commits[c].createdAt
    {
      ReachesTransitive(commits, d, a, c);
    }
  }

  /** An ancestor is the commit itself or strictly older, so there are no cycles. */
  lemma {:induction false} AncestorsAreOlder(commits: Commits, d: CommitId, a: CommitId)
    requires RisingFrom(commits, d) && Reaches(commits, d, a)
    ensures a == d || commits[a].createdAt < commits[d].createdAt
  {
    var p :| IsPath(commits, p) && p[0] == d && p[|p| - 1] == a;
    PathFalls(commits, p);
  }

  lemma {:induction false} ReachesIsPartialOrder(commits: Commits)
    requires Rising(commits)
    ensures forall a :: a in commits ==> Reaches(commits, a, a)
    ensures forall a, b :: Reaches(commits, a, b) && Reaches(commits, b, a) ==> a == b
    ensures forall a, b, c :: Reaches(commits, a, b) && Reaches(commits, b, c) ==> Reaches(commits, a, c)
  {
    forall a | a in commits ensures Reaches(commits, a, a) {
      ReachesSelf(commits, a);
    }
    forall a, b | Reaches(commits, a, b) && Reaches(commits, b, a) ensures a == b {
      AncestorsAreOlder(commits, a, b);
      AncestorsAreOlder(commits, b, a);
    }
    forall a, b, c | Reaches(commits, a, b) && Reaches(commits, b, c) ensures Reaches(commits, a, c) {
      ReachesTransitive(commits, a, b, c);
    }
  }

  // ---- what adding commits does to reachability ----

  lemma ReachesGrows(old': Commits, new': Commits, d: CommitId, a: CommitId)
    requires Submap(old', new') && Reaches(old', d, a)
    ensures Reaches(new', d, a)
  {
    var p :| IsPath(old', p) && p[0] == d && p[|p| - 1] == a;
    assert IsPath(new', p);
  }

  lemma {:induction false} PathStaysInside(old': Commits, new': Commits, path: seq<CommitId>)
    requires Submap(old', new') && ParentsExist(old')
    requires IsPath(new', path) && path[0] in old'
    ensures IsPath(old', path)
    decreases |path|
  {
    if |path| > 1 {
      var rest := path[1..];
      assert path[1] in old'[path[0]].parents;
      assert IsPath(new', rest);
      PathStaysInside(old', new', rest);
      forall i | 0 <= i < |path|
        ensures path[i] in old'
      {
        if i > 0 { assert path[i] == rest[i - 1]; }
      }
    }
  }

  /** New commits never add ancestors to old ones. */
  lemma ReachesIsStable(old': Commits, new': Commits, d: CommitId, a: CommitId)
    requires Submap(old', new') && ParentsExist(old') && d in old'
    ensures Reaches(old', d, a) <==> Reaches(new', d, a)
  {
    if Reaches(old', d, a) { ReachesGrows(old', new', d, a); }
    if Reaches(new', d, a) {
      var p :| IsPath(new', p) && p[0] == d && p[|p| - 1] == a;
      PathStaysInside(old', new', p);
    }
  }

  ghost predicate Acyclic(commits: Commits) {
    forall a, b :: Reaches(commits, a, b) && Reaches(commits, b, a) ==> a == b
  }

  lemma EmptyIsAcyclic()
    ensures Acyclic(map[])
  {
    forall a, b ensures !Reaches(map[], a, b) {
      if Reaches(map[], a, b) { ReachesEndpoints(map[], a, b); }
    }
  }

  /** A commit that names only stored parents closes no cycle. */
  lemma AcyclicGrows(old': Commits, new': Commits, c: CommitId)
    requires Submap(old', new') && ParentsExist(old') && Acyclic(old')
    requires new'.Keys <= old'.Keys + {c}
    ensures Acyclic(new')
  {
    forall a, b | Reaches(new', a, b) && Reaches(new', b, a)
      ensures a == b
    {
      ReachesEndpoints(new', a, b);
      if a in old' {
        ReachesIsStable(old', new', a, b);
        ReachesEndpoints(old', a, b);
        ReachesIsStable(old', new', b, a);
      } else if b in old' {
        ReachesIsStable(old', new', b, a);
        ReachesEndpoints(old', b, a);
      }
    }
  }

  // ---- merge base ----

  ghost function Common(commits: Commits, a: CommitId, b: CommitId): set<CommitId> {
    Ancestors(commits, a) * Ancestors(commits, b)
  }

  /** What the query's ORDER BY created_at DESC LIMIT 1 may return. */
  ghost predicate IsMergeBase(commits: Commits, a: CommitId, b: CommitId, base: CommitId) {
    && base in Common(commits, a, b)
    && forall c :: c in Common(commits, a, b) ==> commits[c].createdAt <= commits[base].createdAt
  }

  /** No other common ancestor descends from the merge base. */
  lemma MergeBaseIsBest(commits: Commits, a: CommitId, b: CommitId, base: CommitId, other: CommitId)
    requires RisingFrom(commits, a) && IsMergeBase(commits, a, b, base)
    requires Reaches(commits, a, other) && Reaches(commits, b, other)
    ensures Reaches(commits, a, base) && Reaches(commits, b, base)
    ensures Reaches(commits, other, base) ==> other == base
  {
    if Reaches(commits, other, base) {
      ReachesEndpoints(commits, a, other);
      RisingFromAncestor(commits, a, other);
      AncestorsAreOlder(commits, other, base);
    }
  }

  /** Swapping the heads, or asking again later, finds the same base. */
  lemma MergeBaseIsUnique(commits: Commits, a: CommitId, b: CommitId, base: CommitId, base': CommitId)
    requires DistinctStamps(commits)
    requires IsMergeBase(commits, a, b, base) && IsMergeBase(commits, b, a, base')
    ensures base == base'
  {
  }

  /** When the source is an ancestor of the target, the search finds the source itself. */
  lemma MergeBaseOfAncestor(commits: Commits, s: CommitId, t: CommitId)
    requires RisingFrom(commits, t) && Reaches(commits, t, s)
    ensures forall base :: IsMergeBase(commits, s, t, base) <==> base == s
  {
    ReachesEndpoints(commits, t, s);
    ReachesSelf(commits, s);
    RisingFromAncestor(commits, t, s);
    forall c | c in Common(commits, s, t)
      ensures c == s || commits[c].createdAt < commits[s].createdAt
    {
      AncestorsAreOlder(commits, s, c);
    }
    assert s in Common(commits, s, t);
  }

  lemma MergeBaseIsStable(old': Commits, new': Commits, a: CommitId, b: CommitId, base: CommitId)
    requires Submap(old', new') && ParentsExist(old') && a in old' && b in old'
    requires IsMergeBase(old', a, b, base)
    ensures IsMergeBase(new', a, b, base)
  {
    forall x | x in Common(new', a, b)
      ensures x in Common(old', a, b)
    {
      ReachesIsStable(old', new', a, x);
      ReachesIsStable(old', new', b, x);
      ReachesEndpoints(old', a, x);
    }
    ReachesIsStable(old', new', a, base);
    ReachesIsStable(old', new', b, base);
  }

  // ---- the recursive queries ----

  /** A set that holds the start and is closed under parents holds every ancestor. */
  lemma {:induction false} ClosedHoldsPath(commits: Commits, all: set<CommitId>, path: seq<CommitId>)
    requires IsPath(commits, path) && path[0] in all
    requires forall x, q :: x in all && x in commits && q in commits[x].parents && q in commits ==> q in all
    ensures path[|path| - 1] in all
    decreases |path|
  {
    if |path| > 1 {
      assert path[1] in commits[path[0]].parents;
      assert IsPath(commits, path[1..]);
      ClosedHoldsPath(commits, all, path[1..]);
    }
  }

  /** The recursive common table expression of FindMergeBase and IsAncestor: start from the
      commit's row, join the rows found last with their parents, drop rows already there,
      until a round finds nothing new. */
  method WalkAncestors(commits: Commits, start: CommitId) returns (all: set<CommitId>)
    ensures all == Ancestors(commits, start)
  {
    all := if start in commits then {start} else {};
    if start in commits { ReachesSelf(commits, start); }
    var working := all;
    while working != {}
      invariant working <= all <= commits.Keys
      invariant start in commits ==> start in all
      invariant forall x :: x in all ==> Reaches(commits, start, x)
      invariant forall x, q :: x in all - working && q in commits[x].parents && q in commits ==> q in all
      decreases commits.Keys - all, working
    {
      var joined := set w, q | w in working && q in commits[w].parents && q in commits :: q;
      forall q | q in joined
        ensures Reaches(commits, start, q)
      {
        var w :| w in working && q in commits[w].parents;
        ReachesParent(commits, w, q);
        ReachesTransitive(commits, start, w, q);
      }
      ghost var before := all;
      working := joined - all;
      all := all + working;
      if working != {} {
        var q :| q in working;
        assert commits.Keys - all < commits.Keys - before by {
          assert q in commits.Keys - before && q !in commits.Keys - all;
        }
      }
    }
    forall a | a in Ancestors(commits, start)
      ensures a in all
    {
      var p :| IsPath(commits, p) && p[0] == start && p[|p| - 1] == a;
      ClosedHoldsPath(commits, all, p);
    }
  }

  method IsAncestor(commits: Commits, ancestor: CommitId, descendant: CommitId) returns (found: bool)
    ensures found <==> Reaches(commits, descendant, ancestor)
  {
    var walk := WalkAncestors(commits, descendant);
    found := ancestor in walk;
    if Reaches(commits, descendant, ancestor) { ReachesEndpoints(commits, descendant, ancestor); }
  }

  lemma CommonMeans(commits: Commits, a: CommitId, b: CommitId)
    ensures forall c :: c in Common(commits, a, b) <==> Reaches(commits, a, c) && Reaches(commits, b, c)
  {
    forall c | Reaches(commits, a, c) ensures c in commits {
      ReachesEndpoints(commits, a, c);
    }
  }

  /** Finds no base exactly when the two ancestor sets are disjoint. */
  method FindMergeBase(commits: Commits, a: CommitId, b: CommitId) returns (base: Option<CommitId>)
    ensures base.None? <==> Common(commits, a, b) == {}
    ensures base.None? <==> forall c :: !(Reaches(commits, a, c) && Reaches(commits, b, c))
    ensures base.Some? ==> Reaches(commits, a, base.value) && Reaches(commits, b, base.value)
    ensures base.Some? ==> IsMergeBase(commits, a, b, base.value)
  {
    CommonMeans(commits, a, b);
    var ancestorsA := WalkAncestors(commits, a);
    var ancestorsB := WalkAncestors(commits, b);
    var common := ancestorsA * ancestorsB;
    base := None;
    var rest := common;
    while rest != {}
      invariant rest <= common
      invariant base.None? <==> rest == common
      invariant base.Some? ==> base.value in common
      invariant base.Some? ==> forall c :: c in common - rest ==>
        commits[c].createdAt <= commits[base.value].createdAt
    {
      var c :| c in rest;
      rest := rest - {c};
      if base.None? || commits[base.value].createdAt < commits[c].createdAt {
        base := Some(c);
      }
    }
  }
}
