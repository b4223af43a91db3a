/** The worst of overlap: a push that is published while a merge of its branch is between
    its analysis and its second reading. Its commit becomes a parent of the merge commit, its
    file does not get into the merge's tree, and every later merge takes it for merged. From
    there a merge meets a file that one side lost, and keeps it. */
module Swallowed {
  import opened Tables
  import opened Ancestry
  import opened Merging
  import opened Requests
  import opened Safety
  import opened SafetyProof
  import opened SafetyRuns
  import opened Serial
  import opened SerialRuns
  import opened Stamps
  import opened Witnesses

  // ---- the results; how their runs are built is below ----

  /** One more commit, and the branch at it; nothing else that was there is different. */
  ghost predicate AddsCommit(db: Db, db': Db, key: RefKey, c: CommitId, parents: seq<CommitId>, tree: Snapshot) {
    && c !in db.commits && c in db'.commits
    && db'.commits == db.commits[c := db'.commits[c]]
    && db'.commits[c].parents == parents && Later(db, db'.commits[c].createdAt)
    && db'.refs == db.refs[key := c] && db'.locks == db.locks
    && SnapOf(db', c) == tree && forall x :: x != c ==> SnapOf(db', x) == SnapOf(db, x)
  }

  ghost predicate PushedOne(db: Db, db': Db, req: PushReq, c: CommitId, f: FileId, v: VersionId)
    requires |req.files| == 1
  {
    && AddsCommit(db, db', RefKey(req.project, req.ref), c, ParentIds(req), ParentTree(db, req)[f := v])
    && db'.files == UpsertFile(db, KeyOf(req, 0), f).files && db'.files[KeyOf(req, 0)] == f
    && (KeyOf(req, 0) !in db.files ==> f !in db.files.Values)
    && v != ABSENT && v !in db.versions && db'.versions.Keys == db.versions.Keys + {v}
  }

  /** Two branches under way to be merged: the analysis of the two heads is at hand, and it
      can be carried out. */
  ghost predicate ReadyToMerge(db: Db, req: MergeReq, s: CommitId, t: CommitId, ana: Analysis) {
    && req.source != req.target && Heads2(db, req, s, t)
    && !Reaches(db.commits, s, t) && IsMergeBase(db.commits, s, t, ana.base)
    && IsAnalysis(TreeOf(db, ana.base), TreeOf(db, s), TreeOf(db, t), ana)
    && Accepted(ana, req.resolutions) && (ana.kind == Conflicted ==> Real(Chosen(req.resolutions)))
  }

  /** A push of one new path that the branch lets through. */
  ghost predicate PushesNewFile(db: Db, req: PushReq) {
    && req.ref != "" && |req.files| == 1 && KeyOf(req, 0) !in db.files
    && GateOpen(db.locks, req) && ParentMatches(db.refs, req)
  }

  /** From every reachable state with two branches to be merged and a push of a new file to
      the source: the push can be published, the merge can be published after it with the
      push's commit as a parent, and the merge's tree lacks the file. The target's history
      holds the push, so a later merge takes nothing from it. */
  lemma SwallowedPush(m: Machine, req: MergeReq, s: CommitId, t: CommitId, ana: Analysis, preq: PushReq)
    returns (m': Machine, pid: nat, pid': nat, c: CommitId, s': CommitId, f: FileId, v: VersionId, between: Db)
    requires Reachable(m) && ReadyToMerge(m.db, req, s, t, ana) && PushesNewFile(m.db, preq)
    requires preq.project == req.project && preq.ref == req.source
    ensures Reachable(m') && m'.env == m.env && pid in m'.procs && pid' in m'.procs
    ensures m'.procs[pid] == OfMerge(Merged(req, MergeNote(s', t, ana.base, req.resolutions), c))
    ensures m'.procs[pid'] == OfPush(Pushed(preq, s'))
    ensures PushedOne(m.db, between, preq, s', f, v)
    ensures AddsCommit(between, m'.db, RefKey(req.project, req.target), c, [t, s'],
      MergedTree(TreeOf(m.db, t), ana, req.resolutions))
    ensures m'.db.files == between.files && m'.db.files.Keys == m.db.files.Keys + {KeyOf(preq, 0)}
    ensures m'.db.locks == m.db.locks
    ensures Heads2(m'.db, req, s', c) && s' in m'.db.commits[c].parents && Reaches(m'.db.commits, c, s')
    ensures f in SnapOf(m'.db, s') && f !in SnapOf(m'.db, c)
  {
    MergedTreeIsSound(m, req, s, t, ana);
    BranchIsStored(m, RefKey(req.project, req.target));
    var m1, m2;
    pid, m1 := MergeAnalyzes(m, req, s, t, ana);
    m2, pid', s', f, v := OneFilePush(m1, preq);
    between := m2.db;
    HeadTreeStays(m1, m2, RefKey(req.project, req.target), t);
    m', c := MergeEnds(m2, pid, req, ana, s', t);
    var tree := MergedTree(TreeOf(m.db, t), ana, req.resolutions);
    SwallowedOutcome(m.db, between, m'.db, req, preq, s', t, c, f, v, tree);
  }

  /** At `f` the source alone deleted the file, and whatever the rest of the analysis and the
      resolutions, the merge keeps it where the three-way merge would drop it. */
  ghost predicate KeepsDeleted(b: Snapshot, s: Snapshot, t: Snapshot, f: FileId) {
    && Classify(b, s, t, f) == SourceDeleted
    && forall ana, res :: IsAnalysis(b, s, t, ana) && Accepted(ana, res) ==>
         f in MergedTree(t, ana, res) && f !in ThreeWay(b, s, t, Chosen(res))
  }

  /** Where a branch's history holds a commit whose file its tree lost, one more push to the
      other branch and a merge back is a deletion on one side only: the base has the file,
      the source's tree lacks it, and the merge keeps it. */
  lemma LostFileMeetsMerge(m: Machine, req: MergeReq, s: CommitId, c: CommitId, lost: FileId, again: PushReq)
    returns (m': Machine, child: CommitId)
    requires Reachable(m) && Heads2(m.db, req, s, c) && req.source != req.target && Reaches(m.db.commits, c, s)
    requires lost in SnapOf(m.db, s) && lost !in SnapOf(m.db, c)
    requires again.project == req.project && again.ref == req.source && again.ref != "" && |again.files| == 1
    requires GateOpen(m.db.locks, again) && ParentMatches(m.db.refs, again)
    requires KeyOf(again, 0) in m.db.files ==> m.db.files[KeyOf(again, 0)] != lost
    ensures Reachable(m') && m'.env == m.env
    ensures Heads2(m'.db, MergeReq(req.project, req.target, req.source, []), c, child)
    ensures !Reaches(m'.db.commits, c, child) && IsMergeBase(m'.db.commits, c, child, s)
    ensures KeepsDeleted(TreeOf(m'.db, s), TreeOf(m'.db, c), TreeOf(m'.db, child), lost)
  {
    ReachableRises(m, RefKey(req.project, req.target));
    ReachesEndpoints(m.db.commits, c, s);
    var pid, f, v;
    m', pid, child, f, v := OneFilePush(m, again);
    BaseOfChild(m.db.commits, m'.db.commits, s, c, child);
    PushKeepsOthers(m, m'.db, again, child, f, v, lost);
    TreesOfHeads(m', req, s, c, child);
    LostIsKept(TreeOf(m'.db, s), TreeOf(m'.db, c), TreeOf(m'.db, child), lost);
  }

  /** The whole story from the empty database: some run reaches two branches whose trees, over
      their best common ancestor, classify a file as deleted by the source alone. The merge
      keeps the file. No serial run comes there. */
  lemma DeletionIsReached(env: Env, project: ProjectId, author: UserId)
    returns (m: Machine, req: MergeReq, s: CommitId, t: CommitId, base: CommitId, f: FileId)
    ensures Reachable(m) && m.env == env
    ensures Heads2(m.db, req, s, t) && !Reaches(m.db.commits, s, t) && IsMergeBase(m.db.commits, s, t, base)
    ensures KeepsDeleted(TreeOf(m.db, base), TreeOf(m.db, s), TreeOf(m.db, t), f)
  {
    var m1;
    m1, s, base, f := SwallowIsReached(env, project, author);
    m, t := LostFileMeetsMerge(m1, MergeReq(project, "dev", "main", []), base, s, f,
                               OneFile(project, author, Some(base), "dev", "g"));
    req := MergeReq(project, "main", "dev", []);
  }

  // ---- a push of one file, start to end ----

  /** The file loop for a push of one file. */
  lemma OneFileGoesIn(m: Machine, pid: nat, req: PushReq, c: CommitId, tree: Snapshot)
    returns (m': Machine, f: FileId, v: VersionId)
    requires Reachable(m) && pid in m.procs && m.procs[pid] == OfPush(Upsert(req, c, 0, tree))
    requires |req.files| == 1 && c in m.db.commits
    ensures Reachable(m') && OnlyRows(m, pid, m') && m'.db.snaps == m.db.snaps
    ensures m'.procs[pid] == OfPush(WriteTree(req, c, tree[f := v]))
    ensures m'.db.files == UpsertFile(m.db, KeyOf(req, 0), f).files
    ensures KeyOf(req, 0) in m'.db.files && m'.db.files[KeyOf(req, 0)] == f
    ensures KeyOf(req, 0) !in m.db.files ==> f !in m.db.files.Values
    ensures v != ABSENT && v !in m.db.versions && m'.db.versions.Keys == m.db.versions.Keys + {v}
  {
    var m1 := FileIsUpserted(m, pid, req, c, 0, tree);
    f := m1.db.files[KeyOf(req, 0)];
    var m2, w := FileIsFound(m1, pid, req, c, 0, tree);
    v := w;
    var m3 := VersionIsWritten(m2, pid, req, c, 0, tree, f, v);
    m' := MovePush(m3, pid, m3.db, WriteTree(req, c, tree[f := v]));
  }

  /** From the gate to the file loop. */
  lemma PushOpens(m: Machine, req: PushReq) returns (m': Machine, pid: nat, c: CommitId)
    requires Reachable(m) && req.ref != "" && GateOpen(m.db.locks, req) && ParentMatches(m.db.refs, req)
    ensures Reachable(m') && m'.env == m.env && pid !in m.procs
    ensures m'.procs == m.procs[pid := OfPush(Upsert(req, c, 0, ParentTree(m.db, req)))]
    ensures c !in m.db.commits && c in m'.db.commits
    ensures m'.db == m.db.(commits := m.db.commits[c := m'.db.commits[c]])
    ensures m'.db.commits[c].parents == ParentIds(req) && Later(m.db, m'.db.commits[c].createdAt)
  {
    c := FreshNat(m.db.commits.Keys);
    var now, m1;
    pid, now, m1 := PushChecked(m, req, c);
    ParentIsStored(m1, pid, req, c, now);
    var m2 := CommitIsCreated(m1, pid, req, c, now);
    assert ParentTree(m2.db, req) == ParentTree(m.db, req);
    m' := MovePush(m2, pid, m2.db, Upsert(req, c, 0, ParentTree(m2.db, req)));
  }

  lemma OneFilePush(m: Machine, req: PushReq) returns (m': Machine, pid: nat, c: CommitId, f: FileId, v: VersionId)
    requires Reachable(m) && req.ref != "" && |req.files| == 1
    requires GateOpen(m.db.locks, req) && ParentMatches(m.db.refs, req)
    ensures Reachable(m') && m'.env == m.env
    ensures pid !in m.procs && m'.procs == m.procs[pid := OfPush(Pushed(req, c))]
    ensures PushedOne(m.db, m'.db, req, c, f, v)
  {
    var m1, m2;
    m1, pid, c := PushOpens(m, req);
    m2, f, v := OneFileGoesIn(m1, pid, req, c, ParentTree(m.db, req));
    m' := PushEnds(m2, pid, req, c, ParentTree(m.db, req)[f := v]);
    SameSnaps(m.db, m2.db);
  }

  // ---- a merge in two halves ----

  lemma MoveMerge(m: Machine, pid: nat, db': Db, q': Merge) returns (m': Machine)
    requires Reachable(m) && pid in m.procs && m.procs[pid].OfMerge?
    requires MergeStep(m.db, m.procs[pid].merge, db', q')
    ensures Reachable(m') && m'.db == db' && m'.procs == m.procs[pid := OfMerge(q')] && m'.env == m.env
  {
    m' := Move(m, pid, db', OfMerge(q'));
  }

  lemma MergeFindsHeads(m: Machine, req: MergeReq, s: CommitId, t: CommitId) returns (pid: nat, m': Machine)
    requires Reachable(m) && req.source != req.target && Heads2(m.db, req, s, t) && !Reaches(m.db.commits, s, t)
    ensures Reachable(m') && pid !in m.procs && m'.db == m.db && m'.env == m.env
    ensures m'.procs == m.procs[pid := OfMerge(FindBase(req, s, t))]
  {
    var m1: Machine;
    pid, m1 := Enter(m, OfMerge(FindSource(req)));
    var m2 := MoveMerge(m1, pid, m.db, FindTarget(req, s));
    var m3 := MoveMerge(m2, pid, m.db, TestAncestor(req, s, t));
    m' := MoveMerge(m3, pid, m.db, FindBase(req, s, t));
  }

  lemma MergeReads(m: Machine, pid: nat, req: MergeReq, s: CommitId, t: CommitId, ana: Analysis) returns (m': Machine)
    requires Reachable(m) && pid in m.procs && m.procs[pid] == OfMerge(FindBase(req, s, t))
    requires IsMergeBase(m.db.commits, s, t, ana.base)
    requires IsAnalysis(TreeOf(m.db, ana.base), TreeOf(m.db, s), TreeOf(m.db, t), ana)
    ensures Reachable(m') && m'.db == m.db && m'.env == m.env
    ensures m'.procs == m.procs[pid := OfMerge(AgainSource(req, ana))]
  {
    var b := ana.base;
    var m1 := MoveMerge(m, pid, m.db, ReadBase(req, s, t, b));
    var m2 := MoveMerge(m1, pid, m.db, ReadSource(req, s, t, b, TreeOf(m.db, b)));
    var m3 := MoveMerge(m2, pid, m.db, ReadTarget(req, s, t, b, TreeOf(m.db, b), TreeOf(m.db, s)));
    m' := MoveMerge(m3, pid, m.db, AgainSource(req, ana));
  }

  lemma MergeAnalyzes(m: Machine, req: MergeReq, s: CommitId, t: CommitId, ana: Analysis) returns (pid: nat,
                      m': Machine)
    requires Reachable(m) && req.source != req.target && Heads2(m.db, req, s, t) && !Reaches(m.db.commits, s, t)
    requires IsMergeBase(m.db.commits, s, t, ana.base)
    requires IsAnalysis(TreeOf(m.db, ana.base), TreeOf(m.db, s), TreeOf(m.db, t), ana)
    ensures Reachable(m') && pid !in m.procs && m'.db == m.db && m'.env == m.env
    ensures m'.procs == m.procs[pid := OfMerge(AgainSource(req, ana))]
  {
    var m1;
    pid, m1 := MergeFindsHeads(m, req, s, t);
    m' := MergeReads(m1, pid, req, s, t, ana);
  }

  lemma BranchIsStored(m: Machine, r: RefKey)
    requires Reachable(m) && r in m.db.refs
    ensures m.db.refs[r] in m.db.commits
  {
    ReachableIsSafe(m);
    assert HeadOk(m.db, m.trail, Head(r.project, m.db.refs[r]));
  }

  lemma MergeReadsAgain(m: Machine, pid: nat, req: MergeReq, ana: Analysis, s: CommitId, t: CommitId)
    returns (m': Machine)
    requires Reachable(m) && pid in m.procs && m.procs[pid] == OfMerge(AgainSource(req, ana))
    requires ana.kind != FastForward && Heads2(m.db, req, s, t) && Accepted(ana, req.resolutions)
    ensures Reachable(m') && m'.env == m.env && m'.db == m.db
    ensures m'.procs == m.procs[pid := OfMerge(ReadAgain(req, ana, s, t))]
  {
    var m1 := MoveMerge(m, pid, m.db, AgainTarget(req, ana, s));
    m' := MoveMerge(m1, pid, m.db, ReadAgain(req, ana, s, t));
  }

  lemma MergeDraws(m: Machine, pid: nat, req: MergeReq, ana: Analysis, s: CommitId, t: CommitId, c: CommitId)
    returns (m': Machine, now: int)
    requires Reachable(m) && pid in m.procs && m.procs[pid] == OfMerge(ReadAgain(req, ana, s, t))
    ensures Reachable(m') && m'.env == m.env && m'.db == m.db && Later(m.db, now)
    ensures m'.procs == m.procs[pid := OfMerge(CreateMerge(req, MergeNote(s, t, ana.base, req.resolutions),
      MergedTree(TreeOf(m.db, t), ana, req.resolutions), c, now))]
  {
    now := LaterStamp(m.db);
    m' := MoveMerge(m, pid, m.db, CreateMerge(req, MergeNote(s, t, ana.base, req.resolutions),
                                              MergedTree(TreeOf(m.db, t), ana, req.resolutions), c, now));
  }

  lemma MergeIsCreated(m: Machine, pid: nat, req: MergeReq, note: MergeNote, tree: Snapshot, c: CommitId, now: int)
    returns (m': Machine)
    requires Reachable(m) && pid in m.procs && m.procs[pid] == OfMerge(CreateMerge(req, note, tree, c, now))
    requires c !in m.db.commits && note.target in m.db.commits
    ensures Reachable(m') && m'.env == m.env
    ensures m'.db == m.db.(commits := m.db.commits[c := Commit(req.project, [note.target, note.source], now)])
    ensures m'.procs == m.procs[pid := OfMerge(WriteMerged(req, note, tree, c))]
  {
    var row := Commit(req.project, [note.target, note.source], now);
    m' := MoveMerge(m, pid, Tables.CreateCommit(m.db, c, row), WriteMerged(req, note, tree, c));
  }

  /** From the second reading to the commit row. */
  lemma MergeCreates(m: Machine, pid: nat, req: MergeReq, ana: Analysis, s: CommitId, t: CommitId)
    returns (m': Machine, c: CommitId)
    requires Reachable(m) && pid in m.procs && m.procs[pid] == OfMerge(AgainSource(req, ana))
    requires ana.kind != FastForward && Heads2(m.db, req, s, t) && Accepted(ana, req.resolutions)
    ensures Reachable(m') && m'.env == m.env && c !in m.db.commits && c in m'.db.commits
    ensures m'.db == m.db.(commits := m.db.commits[c := m'.db.commits[c]])
    ensures m'.db.commits[c].parents == [t, s] && Later(m.db, m'.db.commits[c].createdAt)
    ensures m'.procs == m.procs[pid := OfMerge(WriteMerged(req, MergeNote(s, t, ana.base, req.resolutions),
      MergedTree(TreeOf(m.db, t), ana, req.resolutions), c))]
  {
    BranchIsStored(m, RefKey(req.project, req.target));
    c := FreshNat(m.db.commits.Keys);
    var m1 := MergeReadsAgain(m, pid, req, ana, s, t);
    var m2, now := MergeDraws(m1, pid, req, ana, s, t, c);
    m' := MergeIsCreated(m2, pid, req, MergeNote(s, t, ana.base, req.resolutions),
                         MergedTree(TreeOf(m.db, t), ana, req.resolutions), c, now);
  }

  lemma MergeTreeFits(m: Machine, pid: nat, req: MergeReq, note: MergeNote, tree: Snapshot, c: CommitId)
    requires Reachable(m) && pid in m.procs && m.procs[pid] == OfMerge(WriteMerged(req, note, tree, c)) && Real(tree)
    ensures c in m.db.commits && CanSetFiles(m.db, c, tree)
    ensures SnapOf(SetFiles(m.db, c, tree), c) == tree
    ensures forall x :: x != c ==> SnapOf(SetFiles(m.db, c, tree), x) == SnapOf(m.db, x)
  {
    ReachableIsSafe(m);
    assert ProcKnows(m.db, m.trail, m.procs[pid]);
    ChoicesFit(m.db, req.project, c, tree);
    FreshTree(m.db, m.trail, c, tree);
  }

  lemma MergePublishes(m: Machine, pid: nat, req: MergeReq, note: MergeNote, tree: Snapshot, c: CommitId)
    returns (m': Machine)
    requires Reachable(m) && pid in m.procs && m.procs[pid] == OfMerge(WriteMerged(req, note, tree, c)) && Real(tree)
    ensures Reachable(m') && m'.env == m.env && m'.procs == m.procs[pid := OfMerge(Merged(req, note, c))]
    ensures m'.db.commits == m.db.commits && m'.db.refs == m.db.refs[RefKey(req.project, req.target) := c]
    ensures SameRows(m, m') && SnapOf(m'.db, c) == tree
    ensures forall x :: x != c ==> SnapOf(m'.db, x) == SnapOf(m.db, x)
  {
    MergeTreeFits(m, pid, req, note, tree, c);
    var m1 := MoveMerge(m, pid, SetFiles(m.db, c, tree), PublishMerge(req, note, c));
    m' := MoveMerge(m1, pid, SetRef(m1.db, RefKey(req.project, req.target), c), Merged(req, note, c));
    assert forall x :: SnapOf(m'.db, x) == SnapOf(m1.db, x);
  }

  lemma MergeEnds(m: Machine, pid: nat, req: MergeReq, ana: Analysis, s: CommitId, t: CommitId)
    returns (m': Machine, c: CommitId)
    requires Reachable(m) && pid in m.procs && m.procs[pid] == OfMerge(AgainSource(req, ana))
    requires ana.kind != FastForward && Heads2(m.db, req, s, t) && Accepted(ana, req.resolutions)
    requires Real(MergedTree(TreeOf(m.db, t), ana, req.resolutions))
    ensures Reachable(m') && m'.env == m.env
    ensures m'.procs == m.procs[pid := OfMerge(Merged(req, MergeNote(s, t, ana.base, req.resolutions), c))]
    ensures AddsCommit(m.db, m'.db, RefKey(req.project, req.target), c, [t, s],
      MergedTree(TreeOf(m.db, t), ana, req.resolutions))
    ensures m'.db.files == m.db.files && m'.db.versions == m.db.versions
  {
    var tree := MergedTree(TreeOf(m.db, t), ana, req.resolutions);
    var m1;
    m1, c := MergeCreates(m, pid, req, ana, s, t);
    m' := MergePublishes(m1, pid, req, MergeNote(s, t, ana.base, req.resolutions), tree, c);
  }

  // ---- the swallowed push ----

  lemma MergedKeys(b: Snapshot, s: Snapshot, t: Snapshot, ana: Analysis, res: seq<Resolution>)
    requires IsAnalysis(b, s, t, ana) && Accepted(ana, res)
    ensures MergedTree(t, ana, res).Keys <= AllFiles(b, s, t)
  {
    MergedTreeAt(b, s, t, ana, res);
    forall f | f in MergedTree(t, ana, res) ensures f in AllFiles(b, s, t) {
      assert AgreesAt(b, s, t, Chosen(res), MergedTree(t, ana, res), f);
    }
  }

  /** What a merge in flight would write holds no file that is not stored yet, and no empty
      version. */
  lemma MergedTreeIsSound(m: Machine, req: MergeReq, s: CommitId, t: CommitId, ana: Analysis)
    requires Reachable(m) && Heads2(m.db, req, s, t) && IsMergeBase(m.db.commits, s, t, ana.base)
    requires IsAnalysis(TreeOf(m.db, ana.base), TreeOf(m.db, s), TreeOf(m.db, t), ana)
    requires Accepted(ana, req.resolutions) && (ana.kind == Conflicted ==> Real(Chosen(req.resolutions)))
    ensures var tree := MergedTree(TreeOf(m.db, t), ana, req.resolutions);
      Real(tree) && tree.Keys <= m.db.files.Values
  {
    ReachableIsSafe(m);
    AncestorsWereHeads(m.db, m.trail, req.project, s, ana.base);
    HeadTreesAreReal(m.db, m.trail, Head(req.project, ana.base));
    HeadTreesAreReal(m.db, m.trail, Head(req.project, s));
    HeadTreesAreReal(m.db, m.trail, Head(req.project, t));
    MergedTreeIsRealIff(TreeOf(m.db, ana.base), TreeOf(m.db, s), TreeOf(m.db, t), ana, req.resolutions);
    MergedKeys(TreeOf(m.db, ana.base), TreeOf(m.db, s), TreeOf(m.db, t), ana, req.resolutions);
  }

  lemma HeadTreeStays(m: Machine, m': Machine, r: RefKey, c: CommitId)
    requires Reachable(m) && Reachable(m') && r in m.db.refs && r in m'.db.refs
    requires m.db.refs[r] == c && m'.db.refs[r] == c && SnapOf(m'.db, c) == SnapOf(m.db, c)
    ensures TreeOf(m'.db, c) == TreeOf(m.db, c) == SnapOf(m.db, c)
  {
    ReachableIsSafe(m);
    ReachableIsSafe(m');
    TreeOfHead(m.db, m.trail, Head(r.project, c));
    TreeOfHead(m'.db, m'.trail, Head(r.project, c));
  }

  lemma SwallowedOutcome(db: Db, between: Db, db': Db, req: MergeReq, preq: PushReq, s': CommitId, t: CommitId,
                         c: CommitId, f: FileId, v: VersionId, tree: Snapshot)
    requires req.source != req.target && PushesNewFile(db, preq)
    requires preq.project == req.project && preq.ref == req.source
    requires tree.Keys <= db.files.Values && PushedOne(db, between, preq, s', f, v)
    requires AddsCommit(between, db', RefKey(req.project, req.target), c, [t, s'], tree) && db'.files == between.files
    ensures Heads2(db', req, s', c) && s' in db'.commits[c].parents && Reaches(db'.commits, c, s')
    ensures f in SnapOf(db', s') && f !in SnapOf(db', c)
    ensures db'.files.Keys == db.files.Keys + {KeyOf(preq, 0)} && db'.locks == db.locks
  {
    assert db'.commits[c].parents[1] == s';
    assert s' in db'.commits[c].parents;
    ReachesParent(db'.commits, c, s');
  }

  // ---- a deletion that does not propagate, on the way back ----

  lemma ReachableRises(m: Machine, r: RefKey)
    requires Reachable(m) && r in m.db.refs
    ensures RisingFrom(m.db.commits, m.db.refs[r]) && ParentsExist(m.db.commits)
  {
    var ms, acts :| Run(ms, acts) && ms[|ms| - 1] == m;
    HistoryRises(ms, acts, |ms| - 1, r);
    RunsAreSafe(ms, acts, |ms| - 1);
  }

  /** A child of `s` and a descendant of `s` that does not know the child: their best common
      ancestor is `s`. */
  lemma BaseOfChild(commits: Commits, commits': Commits, s: CommitId, c: CommitId, child: CommitId)
    requires ParentsExist(commits) && RisingFrom(commits, c) && Reaches(commits, c, s)
    requires child !in commits && child in commits' && commits' == commits[child := commits'[child]]
    requires commits'[child].parents == [s]
    ensures IsMergeBase(commits', c, child, s) && !Reaches(commits', c, child)
  {
    ReachesEndpoints(commits, c, s);
    if Reaches(commits', c, child) {
      ReachesIsStable(commits, commits', c, child);
      ReachesEndpoints(commits, c, child);
    }
    ReachesGrows(commits, commits', c, s);
    assert s in commits'[child].parents;
    ReachesParent(commits', child, s);
    forall x | x in Common(commits', c, child)
      ensures commits'[x].createdAt <= commits'[s].createdAt
    {
      ChildAncestorIsOlder(commits, commits', s, c, child, x);
    }
  }

  lemma ChildAncestorIsOlder(commits: Commits, commits': Commits, s: CommitId, c: CommitId, child: CommitId,
                             x: CommitId)
    requires ParentsExist(commits) && RisingFrom(commits, c) && Reaches(commits, c, s)
    requires child !in commits && child in commits' && commits' == commits[child := commits'[child]]
    requires commits'[child].parents == [s] && !Reaches(commits', c, child)
    requires Reaches(commits', c, x) && Reaches(commits', child, x)
    ensures x in commits' && s in commits' && commits'[x].createdAt <= commits'[s].createdAt
  {
    ReachesEndpoints(commits, c, s);
    var q := ReachesThroughParent(commits', child, x);
    assert q == s;
    ReachesIsStable(commits, commits', s, x);
    ReachesEndpoints(commits, s, x);
    RisingFromAncestor(commits, c, s);
    AncestorsAreOlder(commits, s, x);
  }

  lemma LostIsKept(b: Snapshot, s: Snapshot, t: Snapshot, f: FileId)
    requires f in b && b[f] != ABSENT && f !in s && f in t && t[f] == b[f]
    ensures KeepsDeleted(b, s, t, f)
  {
    forall ana, res | IsAnalysis(b, s, t, ana) && Accepted(ana, res)
      ensures f in MergedTree(t, ana, res) && f !in ThreeWay(b, s, t, Chosen(res))
    {
      MergedTreeAt(b, s, t, ana, res);
      assert AgreesAt(b, s, t, Chosen(res), MergedTree(t, ana, res), f);
    }
  }

  lemma PushKeepsOthers(m: Machine, db': Db, req: PushReq, c: CommitId, f: FileId, v: VersionId, lost: FileId)
    requires Reachable(m) && |req.files| == 1 && PushedOne(m.db, db', req, c, f, v)
    requires req.ref != "" && ParentMatches(m.db.refs, req)
    requires lost in ParentTree(m.db, req) && (KeyOf(req, 0) in m.db.files ==> m.db.files[KeyOf(req, 0)] != lost)
    ensures lost in SnapOf(db', c) && SnapOf(db', c)[lost] == ParentTree(m.db, req)[lost]
  {
    ReachableIsSafe(m);
    assert HeadOk(m.db, m.trail, Head(req.project, req.parent.value));
    assert lost in ProjectFiles(m.db, req.project);
  }

  lemma TreesOfHeads(m: Machine, req: MergeReq, s: CommitId, c: CommitId, child: CommitId)
    requires Reachable(m) && Heads2(m.db, req, child, c) && Reaches(m.db.commits, child, s)
    ensures TreeOf(m.db, s) == SnapOf(m.db, s) && Real(SnapOf(m.db, s))
    ensures TreeOf(m.db, c) == SnapOf(m.db, c) && TreeOf(m.db, child) == SnapOf(m.db, child)
  {
    ReachableIsSafe(m);
    AncestorsWereHeads(m.db, m.trail, req.project, child, s);
    HeadTreesAreReal(m.db, m.trail, Head(req.project, s));
    HeadTreesAreReal(m.db, m.trail, Head(req.project, c));
    HeadTreesAreReal(m.db, m.trail, Head(req.project, child));
  }

  // ---- from the empty database ----

  lemma StartIsReachable(env: Env) returns (m: Machine)
    ensures Reachable(m) && m.env == env && m.db == EMPTY_DB && m.procs == map[]
  {
    m := Machine(env, EMPTY_DB, EMPTY_TRAIL, map[]);
    assert Run([m], []);
    assert [m][|[m]| - 1] == m;
  }

  lemma BranchOff(m: Machine, project: ProjectId, name: Name, from: Name) returns (m': Machine)
    requires Reachable(m) && RefKey(project, from) in m.db.refs && RefKey(project, name) !in m.db.refs
    ensures Reachable(m') && m'.env == m.env
    ensures m'.db == SetRef(m.db, RefKey(project, name), m.db.refs[RefKey(project, from)])
  {
    var c := m.db.refs[RefKey(project, from)];
    BranchIsStored(m, RefKey(project, from));
    var pid, m1 := Enter(m, OfBranch(FindFrom(project, name, from)));
    var m2 := Move(m1, pid, m.db, OfBranch(TestName(project, name, c)));
    var m3 := Move(m2, pid, m.db, OfBranch(SetBranch(project, name, c)));
    m' := Move(m3, pid, SetRef(m.db, RefKey(project, name), c), OfBranch(Branched(project, name, c)));
  }

  function OneFile(project: ProjectId, author: UserId, parent: Option<CommitId>, ref: Name, path: Path): PushReq {
    PushReq(project, author, parent, ref, [FileEntry(path, Manifest(0, []))])
  }

  /** One file in common and one new on either side. */
  lemma AdditionsMergeCleanly(base: CommitId, b: Entry, s: Entry, t: Entry)
    requires b.file != s.file && b.file != t.file && s.file != t.file
    requires b.version != ABSENT && s.version != ABSENT && t.version != ABSENT
    ensures IsAnalysis(map[b.file := b.version], map[b.file := b.version, s.file := s.version],
                       map[b.file := b.version, t.file := t.version], Analysis(Clean, base, [s], [t], [], 1))
  {
    var bs, ss := map[b.file := b.version], map[b.file := b.version, s.file := s.version];
    var ts := map[b.file := b.version, t.file := t.version];
    var all := AllFiles(bs, ss, ts);
    assert all == {b.file, s.file, t.file};
    assert Having(all, bs, ss, ts, Unchanged) == {b.file};
    assert Having(all, bs, ss, ts, SourceOnly) == {s.file};
    assert Having(all, bs, ss, ts, TargetOnly) == {t.file};
    assert Having(all, bs, ss, ts, Clash) == {};
  }

  /** A project with one commit and a second branch at it. */
  lemma TwoBranches(env: Env, project: ProjectId, author: UserId) returns (m: Machine, c: CommitId, f: FileId,
                    v: VersionId)
    ensures Reachable(m) && m.env == env && m.db.locks == map[]
    ensures m.db.refs == map[RefKey(project, "main") := c, RefKey(project, "dev") := c]
    ensures m.db.files == map[FileKey(project, "a") := f] && m.db.versions.Keys == {v} && v != ABSENT
    ensures c in m.db.commits && SnapOf(m.db, c) == map[f := v]
  {
    var m0 := StartIsReachable(env);
    var m1, pid;
    m1, pid, c, f, v := OneFilePush(m0, OneFile(project, author, None, "main", "a"));
    m := BranchOff(m1, project, "dev", "main");
    BranchIsStored(m, RefKey(project, "main"));
  }

  /** The tables after one push to each of the two branches. */
  ghost predicate ApartTables(db: Db, project: ProjectId, b: CommitId, s: CommitId, t: CommitId,
                              e: Entry, es: Entry, et: Entry)
  {
    && db.locks == map[]
    && db.refs == map[RefKey(project, "main") := t, RefKey(project, "dev") := s]
    && db.files.Keys == {FileKey(project, "a"), FileKey(project, "b"), FileKey(project, "d")}
    && SnapOf(db, b) == map[e.file := e.version]
    && SnapOf(db, s) == map[e.file := e.version, es.file := es.version]
    && SnapOf(db, t) == map[e.file := e.version, et.file := et.version]
    && e.file != es.file && e.file != et.file && es.file != et.file
    && e.version != ABSENT && es.version != ABSENT && et.version != ABSENT
  }

  lemma PushPartsMain(db1: Db, db2: Db, project: ProjectId, author: UserId, b: CommitId, t: CommitId, e: Entry,
                      et: Entry)
    requires db1.locks == map[] && b in db1.commits && SnapOf(db1, b) == map[e.file := e.version]
    requires db1.refs == map[RefKey(project, "main") := b, RefKey(project, "dev") := b]
    requires db1.files == map[FileKey(project, "a") := e.file]
    requires PushedOne(db1, db2, OneFile(project, author, Some(b), "main", "b"), t, et.file, et.version)
    ensures db2.locks == map[] && b in db2.commits && t in db2.commits
    ensures db2.refs == map[RefKey(project, "main") := t, RefKey(project, "dev") := b]
    ensures db2.files == map[FileKey(project, "a") := e.file, FileKey(project, "b") := et.file]
    ensures SnapOf(db2, b) == map[e.file := e.version]
    ensures SnapOf(db2, t) == map[e.file := e.version, et.file := et.version]
    ensures e.file != et.file && et.version != ABSENT
  {
    assert db1.files[FileKey(project, "a")] == e.file;
  }

  lemma PushPartsDev(db2: Db, db: Db, project: ProjectId, author: UserId,
                     b: CommitId, s: CommitId, t: CommitId, e: Entry, es: Entry, et: Entry)
    requires db2.locks == map[] && b in db2.commits && t in db2.commits
    requires db2.refs == map[RefKey(project, "main") := t, RefKey(project, "dev") := b]
    requires db2.files == map[FileKey(project, "a") := e.file, FileKey(project, "b") := et.file]
    requires SnapOf(db2, b) == map[e.file := e.version] && e.version != ABSENT
    requires SnapOf(db2, t) == map[e.file := e.version, et.file := et.version]
    requires e.file != et.file && et.version != ABSENT
    requires PushedOne(db2, db, OneFile(project, author, Some(b), "dev", "d"), s, es.file, es.version)
    ensures ApartTables(db, project, b, s, t, e, es, et)
  {
    assert db2.files[FileKey(project, "a")] == e.file && db2.files[FileKey(project, "b")] == et.file;
  }

  /** Each branch has a commit of its own, a file more than the one they share. */
  lemma ApartBranches(env: Env, project: ProjectId, author: UserId)
    returns (m: Machine, b: CommitId, s: CommitId, t: CommitId, e: Entry, es: Entry, et: Entry)
    ensures Reachable(m) && m.env == env && ApartTables(m.db, project, b, s, t, e, es, et)
    ensures IsMergeBase(m.db.commits, s, t, b) && !Reaches(m.db.commits, s, t) && Reaches(m.db.commits, s, b)
  {
    var f, v, m1, m2, pid, g, w, x, y;
    m1, b, f, v := TwoBranches(env, project, author);
    m2, pid, t, g, w := OneFilePush(m1, OneFile(project, author, Some(b), "main", "b"));
    m, pid, s, x, y := OneFilePush(m2, OneFile(project, author, Some(b), "dev", "d"));
    e, es, et := Entry(f, v), Entry(x, y), Entry(g, w);
    PushPartsMain(m1.db, m2.db, project, author, b, t, e, et);
    PushPartsDev(m2.db, m.db, project, author, b, s, t, e, es, et);
    SiblingsApart(m1, m2, m, project, b, t, s);
  }

  lemma ApartIsReady(m: Machine, project: ProjectId, b: CommitId, s: CommitId, t: CommitId, e: Entry, es: Entry,
                     et: Entry)
    returns (ana: Analysis)
    requires Reachable(m) && ApartTables(m.db, project, b, s, t, e, es, et)
    requires IsMergeBase(m.db.commits, s, t, b) && !Reaches(m.db.commits, s, t) && Reaches(m.db.commits, s, b)
    ensures ReadyToMerge(m.db, MergeReq(project, "dev", "main", []), s, t, ana)
  {
    ana := Analysis(Clean, b, [es], [et], [], 1);
    AdditionsMergeCleanly(b, e, es, et);
    TreesOfHeads(m, MergeReq(project, "dev", "main", []), b, t, s);
  }

  lemma SiblingsApart(m1: Machine, m2: Machine, m: Machine, project: ProjectId, b: CommitId, t: CommitId, s: CommitId)
    requires Reachable(m1) && Reachable(m2) && b in m1.db.commits
    requires t !in m1.db.commits && t in m2.db.commits && m2.db.commits == m1.db.commits[t := m2.db.commits[t]]
    requires s !in m2.db.commits && s in m.db.commits && m.db.commits == m2.db.commits[s := m.db.commits[s]]
    requires m2.db.commits[t].parents == [b] && m.db.commits[s].parents == [b]
    requires RefKey(project, "main") in m2.db.refs && m2.db.refs[RefKey(project, "main")] == t
    ensures IsMergeBase(m.db.commits, s, t, b) && !Reaches(m.db.commits, s, t) && Reaches(m.db.commits, s, b)
  {
    ReachableRises(m2, RefKey(project, "main"));
    assert b in m2.db.commits[t].parents && b in m.db.commits[s].parents;
    ReachesParent(m2.db.commits, t, b);
    ReachesParent(m.db.commits, s, b);
    BaseOfChild(m2.db.commits, m.db.commits, b, t, s);
    if Reaches(m.db.commits, s, t) {
      var q := ReachesThroughParent(m.db.commits, s, t);
      ReachesIsStable(m2.db.commits, m.db.commits, b, t);
      RisingFromAncestor(m2.db.commits, t, b);
      AncestorsAreOlder(m2.db.commits, b, t);
      AncestorsAreOlder(m2.db.commits, t, b);
    }
  }

  lemma DevTakesFile(db: Db, project: ProjectId, author: UserId, b: CommitId, s: CommitId, t: CommitId,
                     e: Entry, es: Entry, et: Entry)
    requires ApartTables(db, project, b, s, t, e, es, et)
    ensures PushesNewFile(db, OneFile(project, author, Some(s), "dev", "e"))
  {
  }

  /** A push to dev is swallowed by the merge of dev into main. */
  lemma DevIsSwallowed(m: Machine, project: ProjectId, author: UserId, s: CommitId, t: CommitId, ana: Analysis)
    returns (m': Machine, c: CommitId, s': CommitId, f: FileId)
    requires Reachable(m) && ReadyToMerge(m.db, MergeReq(project, "dev", "main", []), s, t, ana)
    requires PushesNewFile(m.db, OneFile(project, author, Some(s), "dev", "e"))
    ensures Reachable(m') && m'.env == m.env && m'.db.locks == m.db.locks
    ensures m'.db.files.Keys == m.db.files.Keys + {FileKey(project, "e")}
    ensures Heads2(m'.db, MergeReq(project, "dev", "main", []), s', c) && Reaches(m'.db.commits, c, s')
    ensures f in SnapOf(m'.db, s') && f !in SnapOf(m'.db, c)
  {
    var pid, pid', v, between;
    m', pid, pid', c, s', f, v, between := SwallowedPush(
      m, MergeReq(project, "dev", "main", []), s, t, ana, OneFile(project, author, Some(s), "dev", "e"));
  }

  lemma DevIsReady(env: Env, project: ProjectId, author: UserId)
    returns (m: Machine, s: CommitId, t: CommitId, ana: Analysis)
    ensures Reachable(m) && m.env == env && m.db.locks == map[]
    ensures m.db.files.Keys == {FileKey(project, "a"), FileKey(project, "b"), FileKey(project, "d")}
    ensures ReadyToMerge(m.db, MergeReq(project, "dev", "main", []), s, t, ana)
    ensures PushesNewFile(m.db, OneFile(project, author, Some(s), "dev", "e"))
  {
    var b, e, es, et;
    m, b, s, t, e, es, et := ApartBranches(env, project, author);
    ana := ApartIsReady(m, project, b, s, t, e, es, et);
    DevTakesFile(m.db, project, author, b, s, t, e, es, et);
  }

  lemma SwallowIsReached(env: Env, project: ProjectId, author: UserId)
    returns (m: Machine, c: CommitId, s: CommitId, f: FileId)
    ensures Reachable(m) && m.env == env && m.db.locks == map[] && FileKey(project, "g") !in m.db.files
    ensures Heads2(m.db, MergeReq(project, "dev", "main", []), s, c) && Reaches(m.db.commits, c, s)
    ensures f in SnapOf(m.db, s) && f !in SnapOf(m.db, c)
  {
    var m1, dev, main, ana := DevIsReady(env, project, author);
    m, c, s, f := DevIsSwallowed(m1, project, author, dev, main, ana);
  }
}
