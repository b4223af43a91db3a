/** The guarantees of runs whose requests do not overlap. */
module SerialRuns {
  import opened Tables
  import opened Ancestry
  import opened Merging
  import opened Requests
  import opened Safety
  import opened SafetyProof
  import opened SafetyRuns
  import opened Serial
  import opened SerialProof
  import opened Stamps
  import opened RefMoves

  ghost predicate SerialInv(m: Machine) {
    && Inv(m) && SerialDb(m.db, m.trail)
    && (forall i, j :: i in m.procs && j in m.procs ==> i == j)
    && (forall i :: i in m.procs ==> SerialKnows(m.db, m.trail, m.procs[i]))
  }

  lemma StartsSerial(env: Env, db: Db, h: Trail, p: Proc)
    requires Starts(env, p)
    ensures SerialKnows(db, h, p)
  {
  }

  lemma SerialNextKeeps(m: Machine, a: Action, m': Machine)
    requires SerialInv(m) && Next(m, a, m') && (a.Begin? ==> m.procs == map[])
    ensures SerialInv(m')
  {
    NextKeeps(m, a, m');
    match a
    case Begin(pid, p) => StartsSerial(m.env, m.db, m.trail, p);
    case Advance(pid) => SerialAdvanceKeeps(m, pid, m');
    case Stop(_) =>
  }

  lemma SerialAdvanceKeeps(m: Machine, pid: nat, m': Machine)
    requires SerialInv(m) && Next(m, Advance(pid), m') && Inv(m')
    ensures SerialInv(m')
  {
    AdvanceStaysSerial(m, pid, m');
    assert m'.procs.Keys == m.procs.Keys;
  }

  lemma AdvanceStaysSerial(m: Machine, pid: nat, m': Machine)
    requires SerialInv(m) && Next(m, Advance(pid), m')
    ensures SerialDb(m'.db, m'.trail) && SerialKnows(m'.db, m'.trail, m'.procs[pid])
  {
    StepKeepsSerial(m.db, m.trail, m.procs[pid], m'.db, m'.procs[pid]);
  }

  lemma {:induction false} SerialRunsKeep(ms: seq<Machine>, acts: seq<Action>, i: nat)
    requires SerialRun(ms, acts) && i < |ms|
    ensures SerialInv(ms[i])
  {
    if i > 0 {
      SerialRunsKeep(ms, acts, i - 1);
      SerialNextKeeps(ms[i - 1], acts[i - 1], ms[i]);
    }
  }

  // ---- merges are three-way merges ----

  /** The commit's snapshot is the merge of its noted source and target over the noted base,
      file by file, and the noted resolutions answer its conflicts. */
  ghost predicate MergesSnapshots(db: Db, note: MergeNote, c: CommitId) {
    var b, s, t := SnapOf(db, note.base), SnapOf(db, note.source), SnapOf(db, note.target);
    && SnapOf(db, c) == ThreeWay(b, s, t, Chosen(note.resolutions))
    && Settled(b, s, t, note.resolutions) && MergesFiles(b, s, t, note.resolutions, SnapOf(db, c))
  }

  lemma ExactMergeFiles(db: Db, h: Trail, project: ProjectId, note: MergeNote, c: CommitId)
    requires Good(db, h) && MergeExact(db, note, c)
    requires Head(project, note.source) in h.heads && Head(project, note.target) in h.heads
    ensures MergesSnapshots(db, note, c)
  {
    AncestorsWereHeads(db, h, project, note.source, note.base);
    HeadTreesAreReal(db, h, Head(project, note.base));
    HeadTreesAreReal(db, h, Head(project, note.source));
    HeadTreesAreReal(db, h, Head(project, note.target));
    ThreeWayMergesFiles(SnapOf(db, note.base), SnapOf(db, note.source), SnapOf(db, note.target), note.resolutions);
  }

  lemma MergeInHistory(db: Db, h: Trail, project: ProjectId, head: CommitId, c: CommitId)
    requires Good(db, h) && SerialDb(db, h) && Head(project, head) in h.heads
    requires Reaches(db.commits, head, c) && c in h.merges
    ensures c in db.commits && db.commits[c].parents == [h.merges[c].target, h.merges[c].source]
    ensures IsMergeBase(db.commits, h.merges[c].source, h.merges[c].target, h.merges[c].base)
    ensures MergesSnapshots(db, h.merges[c], c)
  {
    var note := h.merges[c];
    AncestorsWereHeads(db, h, project, head, c);
    assert HeadOk(db, h, Head(project, c)) && SerialHead(db, h, Head(project, c));
    var parents := db.commits[c].parents;
    assert parents == [note.target, note.source];
    assert parents[0] in parents && parents[1] in parents;
    ExactMergeFiles(db, h, project, note, c);
  }

  /** Every merge commit in a branch's history is the three-way merge of its two parents
      over a best common ancestor. Where both sides changed, the client chose one of the
      file's three versions, and for no other file. */
  lemma MergesAreThreeWay(ms: seq<Machine>, acts: seq<Action>, i: nat, r: RefKey, c: CommitId)
    requires SerialRun(ms, acts) && i < |ms| && r in ms[i].db.refs
    requires Reaches(ms[i].db.commits, ms[i].db.refs[r], c) && c in ms[i].trail.merges
    ensures var db, note := ms[i].db, ms[i].trail.merges[c];
      && c in db.commits && db.commits[c].parents == [note.target, note.source]
      && MergesSnapshots(db, note, c)
      && Reaches(db.commits, note.source, note.base) && Reaches(db.commits, note.target, note.base)
      && (forall other ::
            (Reaches(db.commits, note.source, other) && Reaches(db.commits, note.target, other)
              && Reaches(db.commits, other, note.base)) ==> other == note.base)
  {
    SerialRunsKeep(ms, acts, i);
    MergeInHistory(ms[i].db, ms[i].trail, r.project, ms[i].db.refs[r], c);
    var commits, note := ms[i].db.commits, ms[i].trail.merges[c];
    forall other | Reaches(commits, note.source, other) && Reaches(commits, note.target, other)
                   && Reaches(commits, other, note.base)
      ensures other == note.base
    {
      MergeBaseIsBest(commits, note.source, note.target, note.base, other);
    }
  }

  /** Along a branch's history no commit drops a file an ancestor had. */
  lemma NoFileIsDropped(ms: seq<Machine>, acts: seq<Action>, i: nat, r: RefKey, c: CommitId, a: CommitId)
    requires SerialRun(ms, acts) && i < |ms| && r in ms[i].db.refs
    requires Reaches(ms[i].db.commits, ms[i].db.refs[r], c) && Reaches(ms[i].db.commits, c, a)
    ensures SnapOf(ms[i].db, a).Keys <= SnapOf(ms[i].db, c).Keys
  {
    SerialRunsKeep(ms, acts, i);
    AncestorsWereHeads(ms[i].db, ms[i].trail, r.project, ms[i].db.refs[r], c);
    SnapshotsKeepAncestorFiles(ms[i].db, ms[i].trail, r.project, c, a);
  }

  /** Every row of a snapshot in a branch's history is a version of that file, made by the
      commit or by one of its ancestors: merges and resolutions invent nothing. */
  lemma VersionsComeFromHistory(ms: seq<Machine>, acts: seq<Action>, i: nat, r: RefKey, c: CommitId, f: FileId)
    requires SerialRun(ms, acts) && i < |ms| && r in ms[i].db.refs
    requires Reaches(ms[i].db.commits, ms[i].db.refs[r], c) && f in SnapOf(ms[i].db, c)
    ensures var db, v := ms[i].db, SnapOf(ms[i].db, c)[f];
      && f in ProjectFiles(db, r.project)
      && v in db.versions && db.versions[v].file == f
      && Reaches(db.commits, c, db.versions[v].commit)
  {
    SerialRunsKeep(ms, acts, i);
    AncestorsWereHeads(ms[i].db, ms[i].trail, r.project, ms[i].db.refs[r], c);
    assert HeadOk(ms[i].db, ms[i].trail, Head(r.project, c));
    assert SerialHead(ms[i].db, ms[i].trail, Head(r.project, c));
  }

  // ---- branches move forward ----

  lemma PushIsBuiltOn(m: Machine, pid: nat, req: PushReq, c: CommitId, r: RefKey)
    requires SerialInv(m) && pid in m.procs && m.procs[pid] == OfPush(Publish(req, c))
    requires req.ref != "" && r == RefKey(req.project, req.ref) && r in m.db.refs
    ensures BuiltOn(m.db.commits, OfPush(Publish(req, c)), m.db.refs[r])
  {
    assert SerialKnows(m.db, m.trail, m.procs[pid]);
    HeadStaysReached(m.db, m.trail, r, m.db.commits);
  }

  lemma MergeIsBuiltOn(m: Machine, pid: nat, p: Merge, r: RefKey)
    requires SerialInv(m) && pid in m.procs && m.procs[pid] == OfMerge(p) && (p.PublishMerge? || p.Forward?)
    requires r == RefKey(p.req.project, p.req.target) && r in m.db.refs
    ensures BuiltOn(m.db.commits, OfMerge(p), m.db.refs[r])
  {
    assert SerialKnows(m.db, m.trail, m.procs[pid]);
    HeadStaysReached(m.db, m.trail, r, m.db.commits);
  }

  lemma BranchSetsNewRef(m: Machine, pid: nat, r: RefKey)
    requires SerialInv(m) && pid in m.procs && m.procs[pid].OfBranch? && r in m.db.refs
    ensures Sets(m.procs[pid]) != Some(r)
  {
    assert SerialKnows(m.db, m.trail, m.procs[pid]);
  }

  /** A request that runs alone builds on the commit the branch is at. */
  lemma SerialStepsKeep(m: Machine, a: Action, r: RefKey)
    requires SerialInv(m) && r in m.db.refs
    ensures Keeps(m, a, r)
  {
    if a.Advance? && a.pid in m.procs {
      var p := m.procs[a.pid];
      if p.OfBranch? {
        BranchSetsNewRef(m, a.pid, r);
      } else if Sets(p) == Some(r) {
        if p.OfPush? {
          PushIsBuiltOn(m, a.pid, p.push.req, p.push.commit, r);
        } else {
          MergeIsBuiltOn(m, a.pid, p.merge, r);
        }
      }
    }
  }

  /** A branch never loses history: each later head descends from, or is, each earlier one. */
  lemma BranchesOnlyMoveForward(ms: seq<Machine>, acts: seq<Action>, i: nat, j: nat, r: RefKey)
    requires SerialRun(ms, acts) && i <= j < |ms| && r in ms[i].db.refs
    ensures r in ms[j].db.refs && Reaches(ms[j].db.commits, ms[j].db.refs[r], ms[i].db.refs[r])
  {
    BranchKeepsHistoryIff(ms, acts, i, j, r);
    forall n | i <= n < j ensures Keeps(ms[n], acts[n], r) {
      SerialRunsKeep(ms, acts, n);
      SerialStepsKeep(ms[n], acts[n], r);
    }
    assert KeepsHistory(ms, i, j, r);
  }

  // ---- laws of merging branches ----

  lemma AncestorAddsNothing(db: Db, h: Trail, project: ProjectId, s: CommitId, t: CommitId,
                            ana: Analysis, res: seq<Resolution>)
    requires Good(db, h) && RisingFrom(db.commits, t)
    requires Head(project, s) in h.heads && Head(project, t) in h.heads
    requires Reaches(db.commits, t, s) && s != t
    requires IsAnalysis(TreeOf(db, s), TreeOf(db, s), TreeOf(db, t), ana)
    ensures !Reaches(db.commits, s, t)
    ensures forall base :: IsMergeBase(db.commits, s, t, base) <==> base == s
    ensures ana.kind == Clean && ana.sourceOnly == [] && ana.conflicts == []
    ensures MergedTree(TreeOf(db, t), ana, res) == SnapOf(db, t)
  {
    MergeBaseOfAncestor(db.commits, s, t);
    if Reaches(db.commits, s, t) {
      RisingFromAncestor(db.commits, t, s);
      AncestorsAreOlder(db.commits, s, t);
      AncestorsAreOlder(db.commits, t, s);
    }
    MergingTheBaseIsNoOp(TreeOf(db, s), TreeOf(db, t), ana, res);
    HeadTreesAreReal(db, h, Head(project, t));
  }

  /** Both branches of a merge are heads of the project, and healthy history lies behind. */
  lemma BranchHeads(ms: seq<Machine>, acts: seq<Action>, i: nat, req: MergeReq, s: CommitId, t: CommitId)
    requires SerialRun(ms, acts) && i < |ms| && Heads2(ms[i].db, req, s, t)
    ensures Good(ms[i].db, ms[i].trail) && SerialDb(ms[i].db, ms[i].trail)
    ensures Head(req.project, s) in ms[i].trail.heads && Head(req.project, t) in ms[i].trail.heads
  {
    SerialRunsKeep(ms, acts, i);
  }

  /** Under every interleaving, merging a branch whose head the target already contains: not
      a fast-forward, the search finds the source's head as base and nothing else, there is
      nothing to take, and the tree drawn is the target's. */
  lemma MergingAnAncestorChangesNothing(ms: seq<Machine>, acts: seq<Action>, i: nat, req: MergeReq,
                                        s: CommitId, t: CommitId, ana: Analysis)
    requires Run(ms, acts) && i < |ms| && Heads2(ms[i].db, req, s, t)
    requires Reaches(ms[i].db.commits, t, s) && s != t
    requires IsAnalysis(TreeOf(ms[i].db, s), TreeOf(ms[i].db, s), TreeOf(ms[i].db, t), ana)
    ensures !Reaches(ms[i].db.commits, s, t)
    ensures forall base :: IsMergeBase(ms[i].db.commits, s, t, base) <==> base == s
    ensures ana.kind == Clean && ana.sourceOnly == [] && ana.conflicts == []
    ensures MergedTree(TreeOf(ms[i].db, t), ana, req.resolutions) == SnapOf(ms[i].db, t)
  {
    RunsAreSafe(ms, acts, i);
    HistoryRises(ms, acts, i, RefKey(req.project, req.target));
    AncestorAddsNothing(ms[i].db, ms[i].trail, req.project, s, t, ana, req.resolutions);
  }

  lemma PublishedMergeHeads(db: Db, h: Trail, req: MergeReq, note: MergeNote, c: CommitId, db': Db)
    requires Good(db, h) && Rising(db.commits) && MergeKnows(db, h, PublishMerge(req, note, c))
    requires MergeSerial(db, h, PublishMerge(req, note, c))
    requires db' == SetRef(db, RefKey(req.project, req.target), c)
    ensures Heads2(db', req, note.source, c)
    ensures Head(req.project, note.source) in h.heads && Reaches(db'.commits, c, note.source) && note.source != c
  {
    PublishedMergeFacts(db, h, req, note, c);
    assert HeadOk(db, h, Head(req.project, note.source));
    assert note.source in db.commits[c].parents;
    ReachesParent(db.commits, c, note.source);
  }

  lemma PublishedMergeFacts(db: Db, h: Trail, req: MergeReq, note: MergeNote, c: CommitId)
    requires MergeKnows(db, h, PublishMerge(req, note, c)) && MergeSerial(db, h, PublishMerge(req, note, c))
    ensures Head(req.project, note.source) in h.heads && req.source != req.target
    ensures c in db.commits && db.commits[c].parents == [note.target, note.source]
    ensures Heads2(db, req, note.source, note.target)
    ensures MergeExact(db, note, c) && Head(req.project, note.target) in h.heads
  {
  }

  /** Running the same merge again right after it was published changes no content. */
  lemma RemergeChangesNothing(ms: seq<Machine>, acts: seq<Action>, i: nat, req: MergeReq, note: MergeNote,
                              c: CommitId, ana: Analysis, res: seq<Resolution>)
    requires SerialRun(ms, acts) && i < |acts| && acts[i].Advance?
    requires acts[i].pid in ms[i].procs && ms[i].procs[acts[i].pid] == OfMerge(PublishMerge(req, note, c))
    requires IsAnalysis(TreeOf(ms[i + 1].db, note.source), TreeOf(ms[i + 1].db, note.source),
                        TreeOf(ms[i + 1].db, c), ana)
    ensures var db := ms[i + 1].db;
      && Heads2(db, req, note.source, c)
      && !Reaches(db.commits, note.source, c)
      && (forall base :: IsMergeBase(db.commits, note.source, c, base) <==> base == note.source)
      && ana.kind == Clean && ana.sourceOnly == [] && ana.conflicts == []
      && MergedTree(TreeOf(db, c), ana, res) == SnapOf(db, c)
  {
    SerialRunsKeep(ms, acts, i);
    SerialRunsKeep(ms, acts, i + 1);
    var m, m' := ms[i], ms[i + 1];
    assert Next(m, acts[i], m');
    MergePublishSets(PublishMerge(req, note, c), m.trail, m.db, m'.db, m'.procs[acts[i].pid].merge);
    PublishedMergeHeads(m.db, m.trail, req, note, c, m'.db);
    AncestorAddsNothing(m'.db, m'.trail, req.project, note.source, c, ana, res);
  }

  lemma ChoicesFit(db: Db, project: ProjectId, c: CommitId, tree: Snapshot)
    requires Choices(db, project, tree) && c in db.commits && ABSENT !in db.versions
    ensures CanSetFiles(db, c, tree) <==> Real(tree)
  {
    forall f | f in tree ensures f in db.files.Values {
      assert f in ProjectFiles(db, project);
    }
  }

  lemma MergedTreeIsRealIff(b: Snapshot, s: Snapshot, t: Snapshot, ana: Analysis, res: seq<Resolution>)
    requires Real(b) && Real(s) && Real(t) && IsAnalysis(b, s, t, ana) && Accepted(ana, res)
    ensures Real(MergedTree(t, ana, res)) <==> (ana.kind == Conflicted ==> Real(Chosen(res)))
  {
    var tree, all := MergedTree(t, ana, res), AllFiles(b, s, t);
    MergedTreeAt(b, s, t, ana, res);
    if ana.kind == Conflicted { ResolutionsPermuteConflicts(b, s, t, ana, res); }
    forall f | f in tree
      ensures tree[f] == ABSENT <==> ana.kind == Conflicted && f in Chosen(res) && Chosen(res)[f] == ABSENT
    {
      assert AgreesAt(b, s, t, Chosen(res), tree, f);
      assert f in Having(all, b, s, t, Clash) <==> Classify(b, s, t, f) == Clash;
    }
    forall f | ana.kind == Conflicted && f in Chosen(res) ensures f in tree {
      assert AgreesAt(b, s, t, Chosen(res), tree, f);
    }
  }

  lemma PlannedMergeIsRefusedIff(db: Db, h: Trail, req: MergeReq, note: MergeNote, c: CommitId,
                                 tree: Snapshot, ana: Analysis)
    requires Good(db, h) && SerialDb(db, h) && Plan(db, note, tree, ana)
    requires MergeKnows(db, h, WriteMerged(req, note, tree, c))
    ensures CanSetFiles(db, c, tree) <==> NoEmptyChoice(db, note)
  {
    MergeHeads(db, h, req.project, note.source, note.target, note.base);
    MergedTreeIsRealIff(SnapOf(db, note.base), SnapOf(db, note.source), SnapOf(db, note.target), ana, note.resolutions);
    ChoicesFit(db, req.project, c, tree);
  }

  /** An accepted merge gets past its snapshot exactly when no conflict is resolved to the
      empty version. The check lets that choice through where the base lacks the file; the
      insert then refuses it, and the branch stays where it was. */
  lemma MergeIsRefusedOnlyForEmptyVersion(ms: seq<Machine>, acts: seq<Action>, i: nat, pid: nat,
                                          req: MergeReq, note: MergeNote, tree: Snapshot, c: CommitId)
    requires SerialRun(ms, acts) && i < |ms|
    requires pid in ms[i].procs && ms[i].procs[pid] == OfMerge(WriteMerged(req, note, tree, c))
    ensures (exists db', p' :: ProcStep(ms[i].db, ms[i].procs[pid], db', p')) <==> NoEmptyChoice(ms[i].db, note)
  {
    var db, p := ms[i].db, WriteMerged(req, note, tree, c);
    SerialRunsKeep(ms, acts, i);
    MergeAtItsSnapshot(ms[i], pid, req, note, tree, c);
    if CanSetFiles(db, c, tree) {
      assert ProcStep(db, OfMerge(p), SetFiles(db, c, tree), OfMerge(PublishMerge(req, note, c)));
    }
  }

  lemma MergeAtItsSnapshot(m: Machine, pid: nat, req: MergeReq, note: MergeNote, tree: Snapshot, c: CommitId)
    requires SerialInv(m) && pid in m.procs && m.procs[pid] == OfMerge(WriteMerged(req, note, tree, c))
    ensures CanSetFiles(m.db, c, tree) <==> NoEmptyChoice(m.db, note)
  {
    assert SerialKnows(m.db, m.trail, m.procs[pid]) && ProcKnows(m.db, m.trail, m.procs[pid]);
    var ana :| Plan(m.db, note, tree, ana);
    PlannedMergeIsRefusedIff(m.db, m.trail, req, note, c, tree, ana);
  }

  lemma HeadsCommute(db: Db, h: Trail, project: ProjectId, s: CommitId, t: CommitId,
                     base: CommitId, base': CommitId, st: Analysis, ts: Analysis,
                     res: seq<Resolution>, res': seq<Resolution>)
    requires Good(db, h) && SerialDb(db, h)
    requires Head(project, s) in h.heads && Head(project, t) in h.heads
    requires IsMergeBase(db.commits, s, t, base) && IsMergeBase(db.commits, t, s, base')
    requires IsAnalysis(TreeOf(db, base), TreeOf(db, s), TreeOf(db, t), st) && st.kind == Clean
    requires IsAnalysis(TreeOf(db, base'), TreeOf(db, t), TreeOf(db, s), ts)
    ensures base == base' && ts.kind == Clean
    ensures MergedTree(TreeOf(db, t), st, res) == MergedTree(TreeOf(db, s), ts, res')
  {
    MergeBaseIsUnique(db.commits, s, t, base, base');
    MergeHeads(db, h, project, s, t, base);
    NothingDeleted(SnapOf(db, base), SnapOf(db, s), SnapOf(db, t));
    CleanMergeIsSymmetric(SnapOf(db, base), SnapOf(db, s), SnapOf(db, t), st, ts, res, res');
  }

  /** Merging two branches either way finds the same base, and when clean writes the same
      tree. */
  lemma CleanMergesCommute(ms: seq<Machine>, acts: seq<Action>, i: nat, req: MergeReq, s: CommitId, t: CommitId,
                           base: CommitId, base': CommitId, st: Analysis, ts: Analysis,
                           res: seq<Resolution>, res': seq<Resolution>)
    requires SerialRun(ms, acts) && i < |ms| && Heads2(ms[i].db, req, s, t)
    requires IsMergeBase(ms[i].db.commits, s, t, base) && IsMergeBase(ms[i].db.commits, t, s, base')
    requires IsAnalysis(TreeOf(ms[i].db, base), TreeOf(ms[i].db, s), TreeOf(ms[i].db, t), st) && st.kind == Clean
    requires IsAnalysis(TreeOf(ms[i].db, base'), TreeOf(ms[i].db, t), TreeOf(ms[i].db, s), ts)
    ensures base == base' && ts.kind == Clean
    ensures MergedTree(TreeOf(ms[i].db, t), st, res) == MergedTree(TreeOf(ms[i].db, s), ts, res')
  {
    BranchHeads(ms, acts, i, req, s, t);
    HeadsCommute(ms[i].db, ms[i].trail, req.project, s, t, base, base', st, ts, res, res');
  }

  /** Where a fast-forward applies, the general merge from the target as base would have
      written the source's tree as well. */
  lemma FastForwardAgreesWithMerge(ms: seq<Machine>, acts: seq<Action>, i: nat, req: MergeReq,
                                   s: CommitId, t: CommitId, ana: Analysis, res: seq<Resolution>)
    requires SerialRun(ms, acts) && i < |ms| && Heads2(ms[i].db, req, s, t) && Reaches(ms[i].db.commits, s, t)
    requires IsAnalysis(TreeOf(ms[i].db, t), TreeOf(ms[i].db, s), TreeOf(ms[i].db, t), ana)
    ensures ana.kind == Clean && MergedTree(TreeOf(ms[i].db, t), ana, res) == SnapOf(ms[i].db, s)
  {
    BranchHeads(ms, acts, i, req, s, t);
    ForwardedHeadsAgree(ms[i].db, ms[i].trail, req.project, s, t, ana, res);
  }

  lemma ForwardedHeadsAgree(db: Db, h: Trail, project: ProjectId, s: CommitId, t: CommitId,
                            ana: Analysis, res: seq<Resolution>)
    requires Good(db, h) && SerialDb(db, h)
    requires Head(project, s) in h.heads && Head(project, t) in h.heads && Reaches(db.commits, s, t)
    requires IsAnalysis(TreeOf(db, t), TreeOf(db, s), TreeOf(db, t), ana)
    ensures ana.kind == Clean && MergedTree(TreeOf(db, t), ana, res) == SnapOf(db, s)
  {
    HeadTreesAreReal(db, h, Head(project, s));
    HeadTreesAreReal(db, h, Head(project, t));
    SnapshotsKeepAncestorFiles(db, h, project, s, t);
    FastForwardIsMergeFromTarget(SnapOf(db, s), SnapOf(db, t), ana, res);
  }
}
