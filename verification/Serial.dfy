/** What holds when requests do not overlap, each still free to stop before any store call:
    no commit drops a file, merges are true three-way merges, and every stored version
    traces back to the commit that made it. */
module Serial {
  import opened Tables
  import opened Ancestry
  import opened Merging
  import opened Requests
  import opened Safety
  import opened SafetyProof

  // ---- what is true of heads ----

  ghost predicate KeepsFiles(db: Db, c: CommitId) {
    c in db.commits ==>
      forall q :: q in db.commits[c].parents ==> SnapOf(db, q).Keys <= SnapOf(db, c).Keys
  }

  /** Every row's version was created by the commit itself or by an ancestor of it. */
  ghost predicate Sourced(db: Db, c: CommitId) {
    forall f :: f in SnapOf(db, c) ==>
      && SnapOf(db, c)[f] in db.versions
      && Reaches(db.commits, c, db.versions[SnapOf(db, c)[f]].commit)
  }

  /** The snapshot is the three-way merge of its two parents over their merge base. */
  ghost predicate MergeExact(db: Db, note: MergeNote, c: CommitId) {
    && IsMergeBase(db.commits, note.source, note.target, note.base)
    && !Reaches(db.commits, note.source, note.target)
    && SnapOf(db, c) ==
         ThreeWay(SnapOf(db, note.base), SnapOf(db, note.source), SnapOf(db, note.target), Chosen(note.resolutions))
    && Settles(SnapOf(db, note.base), SnapOf(db, note.source), SnapOf(db, note.target), note.resolutions)
  }

  ghost predicate SerialHead(db: Db, h: Trail, k: Head) {
    && KeepsFiles(db, k.commit)
    && Sourced(db, k.commit)
    && (k.commit in h.merges ==> MergeExact(db, h.merges[k.commit], k.commit))
  }

  ghost predicate SerialDb(db: Db, h: Trail) {
    && Rising(db.commits) && DistinctStamps(db.commits)
    && forall k :: k in h.heads ==> SerialHead(db, h, k)
  }

  // ---- what the one request in flight knows ----

  ghost predicate Heads2(db: Db, req: MergeReq, s: CommitId, t: CommitId) {
    var sourceKey, targetKey := RefKey(req.project, req.source), RefKey(req.project, req.target);
    sourceKey in db.refs && targetKey in db.refs && db.refs[sourceKey] == s && db.refs[targetKey] == t
  }

  /** The analysis still describes the branches. */
  ghost predicate Current(db: Db, s: CommitId, t: CommitId, ana: Analysis) {
    if ana.kind == FastForward then Reaches(db.commits, s, t)
    else
      && !Reaches(db.commits, s, t) && IsMergeBase(db.commits, s, t, ana.base)
      && IsAnalysis(TreeOf(db, ana.base), TreeOf(db, s), TreeOf(db, t), ana)
  }

  ghost predicate Plan(db: Db, note: MergeNote, tree: Snapshot, ana: Analysis) {
    && ana.kind != FastForward && ana.base == note.base
    && Current(db, note.source, note.target, ana) && Accepted(ana, note.resolutions)
    && tree == MergedTree(TreeOf(db, note.target), ana, note.resolutions)
  }

  ghost predicate Planned(db: Db, note: MergeNote, tree: Snapshot) {
    exists ana :: Plan(db, note, tree, ana)
  }

  /** No file is in conflict, or no resolution picks the empty version. */
  predicate NoEmptyChoice(db: Db, note: MergeNote) {
    var b, s, t := SnapOf(db, note.base), SnapOf(db, note.source), SnapOf(db, note.target);
    Having(AllFiles(b, s, t), b, s, t, Clash) == {} || Real(Chosen(note.resolutions))
  }

  ghost predicate PushSerial(db: Db, p: Push) {
    match p
    case Gate(_) => true
    case Check(req) => GateOpen(db.locks, req)
    case Create(req, _, now) => GateOpen(db.locks, req) && ParentMatches(db.refs, req) && Later(db, now)
    case Pushed(_, _) => true
    case _ => GateOpen(db.locks, p.req) && ParentMatches(db.refs, p.req)
  }

  ghost predicate MergeSerial(db: Db, h: Trail, p: Merge) {
    (!p.FindSource? ==> p.req.source != p.req.target)
    && match p
    case FindSource(_) => true
    case FindTarget(req, s) =>
      RefKey(req.project, req.source) in db.refs && db.refs[RefKey(req.project, req.source)] == s
    case TestAncestor(req, s, t) => Heads2(db, req, s, t)
    case FindBase(req, s, t) => Heads2(db, req, s, t) && !Reaches(db.commits, s, t)
    case ReadBase(req, s, t, b) =>
      Heads2(db, req, s, t) && !Reaches(db.commits, s, t) && IsMergeBase(db.commits, s, t, b)
    case ReadSource(req, s, t, b, baseTree) =>
      && Heads2(db, req, s, t) && !Reaches(db.commits, s, t) && IsMergeBase(db.commits, s, t, b)
      && baseTree == TreeOf(db, b)
    case ReadTarget(req, s, t, b, baseTree, sourceTree) =>
      && Heads2(db, req, s, t) && !Reaches(db.commits, s, t) && IsMergeBase(db.commits, s, t, b)
      && baseTree == TreeOf(db, b) && sourceTree == TreeOf(db, s)
    case AgainSource(req, ana) => exists s, t :: Heads2(db, req, s, t) && Current(db, s, t, ana)
    case AgainTarget(req, ana, s) => exists t :: Heads2(db, req, s, t) && Current(db, s, t, ana)
    case Forward(req, s, t) => Heads2(db, req, s, t) && Reaches(db.commits, s, t)
    case ReadAgain(req, ana, s, t) => Heads2(db, req, s, t) && Current(db, s, t, ana)
    case CreateMerge(req, note, tree, _, now) =>
      Later(db, now) && Heads2(db, req, note.source, note.target) && Planned(db, note, tree)
    case WriteMerged(req, note, tree, c) =>
      && Heads2(db, req, note.source, note.target) && Planned(db, note, tree)
      && c in db.commits && db.commits[c].parents == [note.target, note.source]
    case PublishMerge(req, note, c) =>
      && Heads2(db, req, note.source, note.target)
      && c in db.commits && db.commits[c].parents == [note.target, note.source]
      && KeepsFiles(db, c) && Sourced(db, c) && MergeExact(db, note, c)
    case Forwarded(_, _) => true
    case Merged(_, _, _) => true
  }

  ghost predicate SerialKnows(db: Db, h: Trail, p: Proc) {
    match p
    case OfPush(q) => PushSerial(db, q)
    case OfMerge(q) => MergeSerial(db, h, q)
    case OfBranch(SetBranch(project, name, _)) => RefKey(project, name) !in db.refs
    case OfLocking(PeekAgain(key, _)) => key !in db.locks
    case OfLocking(Insert(key, _)) => key !in db.locks
    case OfLocking(Held(key, user)) => key in db.locks && db.locks[key] == user
    case _ => true
  }

  // ---- files along history ----

  lemma {:induction false} PathKeepsFiles(db: Db, h: Trail, project: ProjectId, path: seq<CommitId>)
    requires HeadsOk(db, h) && SerialDb(db, h)
    requires IsPath(db.commits, path) && Head(project, path[0]) in h.heads
    ensures SnapOf(db, path[|path| - 1]).Keys <= SnapOf(db, path[0]).Keys
    decreases |path|
  {
    if |path| > 1 {
      assert HeadOk(db, h, Head(project, path[0]));
      assert SerialHead(db, h, Head(project, path[0]));
      assert path[1] in db.commits[path[0]].parents;
      assert IsPath(db.commits, path[1..]);
      PathKeepsFiles(db, h, project, path[1..]);
    }
  }

  /** A snapshot has every file that any ancestor's snapshot has. */
  lemma SnapshotsKeepAncestorFiles(db: Db, h: Trail, project: ProjectId, c: CommitId, a: CommitId)
    requires HeadsOk(db, h) && SerialDb(db, h)
    requires Head(project, c) in h.heads && Reaches(db.commits, c, a)
    ensures SnapOf(db, a).Keys <= SnapOf(db, c).Keys
  {
    var p :| IsPath(db.commits, p) && p[0] == c && p[|p| - 1] == a;
    PathKeepsFiles(db, h, project, p);
  }

  // ---- a merge about to be published ----

  /** With nothing deleted between the base and either side, the merged tree is exact and
      keeps the files of both sides. */
  lemma MergeOfGrownTrees(b: Snapshot, s: Snapshot, t: Snapshot, ana: Analysis, res: seq<Resolution>)
    requires Real(b) && Real(s) && Real(t) && b.Keys <= s.Keys && b.Keys <= t.Keys
    requires IsAnalysis(b, s, t, ana) && Accepted(ana, res)
    requires Real(MergedTree(t, ana, res))
    ensures MergedTree(t, ana, res) == ThreeWay(b, s, t, Chosen(res)) && Settles(b, s, t, res)
    ensures s.Keys <= MergedTree(t, ana, res).Keys && t.Keys <= MergedTree(t, ana, res).Keys
  {
    var m, chosen := MergedTree(t, ana, res), Chosen(res);
    MergedTreeAt(b, s, t, ana, res);
    forall f
      ensures Classify(b, s, t, f) != SourceDeleted
      ensures Classify(b, s, t, f) == Clash ==> VersionIn(chosen, f) != ABSENT
      ensures f in s || f in t ==> f in m
    {
      assert AgreesAt(b, s, t, chosen, m, f);
    }
    MergedTreeIsThreeWayIff(b, s, t, ana, res);
    AcceptedSettles(b, s, t, ana, res);
  }

  lemma AcceptedSettles(b: Snapshot, s: Snapshot, t: Snapshot, ana: Analysis, res: seq<Resolution>)
    requires IsAnalysis(b, s, t, ana) && Accepted(ana, res) && Real(MergedTree(t, ana, res))
    ensures Settles(b, s, t, res)
  {
    var clashes := Having(AllFiles(b, s, t), b, s, t, Clash);
    if clashes != {} {
      ResolutionsPermuteConflicts(b, s, t, ana, res);
      ConflictListSize(ana.conflicts, clashes, b, s, t);
      OverlayChosen(Overlay(t, ana.sourceOnly), res);
      forall f | f in clashes ensures Chosen(res)[f] != ABSENT {
        assert MergedTree(t, ana, res)[f] == Chosen(res)[f];
      }
    }
  }

  /** Each merged row is a row of the source, the target or the base. */
  lemma MergedRowsComeFromThree(b: Snapshot, s: Snapshot, t: Snapshot, ana: Analysis, res: seq<Resolution>, f: FileId)
    requires IsAnalysis(b, s, t, ana) && Accepted(ana, res)
    requires f in MergedTree(t, ana, res) && MergedTree(t, ana, res)[f] != ABSENT
    ensures var v := MergedTree(t, ana, res)[f];
      (f in b && b[f] == v) || (f in s && s[f] == v) || (f in t && t[f] == v)
  {
    MergedTreeAt(b, s, t, ana, res);
    assert AgreesAt(b, s, t, Chosen(res), MergedTree(t, ana, res), f);
    if Classify(b, s, t, f) == Clash {
      assert f in AllFiles(b, s, t);
      assert f in Having(AllFiles(b, s, t), b, s, t, Clash);
      ResolutionsPermuteConflicts(b, s, t, ana, res);
    }
  }

  lemma HeadTreesAreReal(db: Db, h: Trail, k: Head)
    requires TablesOk(db, h) && HeadsOk(db, h) && k in h.heads
    ensures Real(SnapOf(db, k.commit)) && TreeOf(db, k.commit) == SnapOf(db, k.commit)
  {
    TreeOfHead(db, h, k);
    forall f | f in SnapOf(db, k.commit) ensures SnapOf(db, k.commit)[f] != ABSENT {
      assert VersionFits(db, f, SnapOf(db, k.commit)[f]);
    }
  }

  /** The three heads of a merge, their trees and how their files nest. */
  lemma MergeHeads(db: Db, h: Trail, project: ProjectId, s: CommitId, t: CommitId, b: CommitId)
    requires Good(db, h) && SerialDb(db, h)
    requires Head(project, s) in h.heads && Head(project, t) in h.heads
    requires IsMergeBase(db.commits, s, t, b)
    ensures Head(project, b) in h.heads
    ensures Real(SnapOf(db, b)) && Real(SnapOf(db, s)) && Real(SnapOf(db, t))
    ensures TreeOf(db, b) == SnapOf(db, b) && TreeOf(db, s) == SnapOf(db, s) && TreeOf(db, t) == SnapOf(db, t)
    ensures SnapOf(db, b).Keys <= SnapOf(db, s).Keys && SnapOf(db, b).Keys <= SnapOf(db, t).Keys
  {
    AncestorsWereHeads(db, h, project, s, b);
    HeadTreesAreReal(db, h, Head(project, b));
    HeadTreesAreReal(db, h, Head(project, s));
    HeadTreesAreReal(db, h, Head(project, t));
    SnapshotsKeepAncestorFiles(db, h, project, s, b);
    SnapshotsKeepAncestorFiles(db, h, project, t, b);
  }

  lemma SourcedThrough(db: Db, h: Trail, project: ProjectId, c: CommitId, x: CommitId, f: FileId)
    requires SerialDb(db, h) && Head(project, x) in h.heads && Reaches(db.commits, c, x)
    requires f in SnapOf(db, x)
    ensures SnapOf(db, x)[f] in db.versions
    ensures Reaches(db.commits, c, db.versions[SnapOf(db, x)[f]].commit)
  {
    assert SerialHead(db, h, Head(project, x));
    ReachesTransitive(db.commits, c, x, db.versions[SnapOf(db, x)[f]].commit);
  }

  lemma MergeParentsReached(db: Db, c: CommitId, s: CommitId, t: CommitId, b: CommitId)
    requires c in db.commits && db.commits[c].parents == [t, s]
    requires IsMergeBase(db.commits, s, t, b)
    requires s in db.commits && t in db.commits
    ensures Reaches(db.commits, c, s) && Reaches(db.commits, c, t) && Reaches(db.commits, c, b)
  {
    assert s in db.commits[c].parents && t in db.commits[c].parents;
    ReachesParent(db.commits, c, s);
    ReachesParent(db.commits, c, t);
    ReachesTransitive(db.commits, c, t, b);
  }

  lemma MergeIsSourced(db: Db, h: Trail, project: ProjectId, note: MergeNote, c: CommitId, tree: Snapshot,
                       ana: Analysis)
    requires Good(db, h) && SerialDb(db, h)
    requires Head(project, note.source) in h.heads && Head(project, note.target) in h.heads
    requires c in db.commits && db.commits[c].parents == [note.target, note.source]
    requires Plan(db, note, tree, ana) && Real(tree)
    ensures forall f :: f in tree ==>
      tree[f] in db.versions && Reaches(db.commits, c, db.versions[tree[f]].commit)
  {
    var s, t, b := note.source, note.target, note.base;
    MergeHeads(db, h, project, s, t, b);
    assert HeadOk(db, h, Head(project, s)) && HeadOk(db, h, Head(project, t));
    MergeParentsReached(db, c, s, t, b);
    forall f | f in tree
      ensures tree[f] in db.versions && Reaches(db.commits, c, db.versions[tree[f]].commit)
    {
      MergedRowsComeFromThree(SnapOf(db, b), SnapOf(db, s), SnapOf(db, t), ana, note.resolutions, f);
      if f in SnapOf(db, b) { SourcedThrough(db, h, project, c, b, f); }
      if f in SnapOf(db, s) { SourcedThrough(db, h, project, c, s, f); }
      if f in SnapOf(db, t) { SourcedThrough(db, h, project, c, t, f); }
    }
  }

  lemma MergeIsExact(db: Db, h: Trail, project: ProjectId, note: MergeNote, tree: Snapshot, ana: Analysis)
    requires Good(db, h) && SerialDb(db, h)
    requires Head(project, note.source) in h.heads && Head(project, note.target) in h.heads
    requires Plan(db, note, tree, ana) && Real(tree)
    ensures tree == ThreeWay(SnapOf(db, note.base), SnapOf(db, note.source), SnapOf(db, note.target),
                             Chosen(note.resolutions))
    ensures Settles(SnapOf(db, note.base), SnapOf(db, note.source), SnapOf(db, note.target), note.resolutions)
    ensures SnapOf(db, note.source).Keys <= tree.Keys && SnapOf(db, note.target).Keys <= tree.Keys
  {
    MergeHeads(db, h, project, note.source, note.target, note.base);
    MergeOfGrownTrees(SnapOf(db, note.base), SnapOf(db, note.source), SnapOf(db, note.target), ana, note.resolutions);
  }
}
