/** Every step of a request that runs alone keeps the serial invariant. */
module SerialProof {
  import opened Tables
  import opened Ancestry
  import opened Merging
  import opened Requests
  import opened Safety
  import opened SafetyProof
  import opened Serial

  // ---- heads keep their facts ----

  lemma KeepsFilesStable(db: Db, h: Trail, db': Db, h': Trail, touched: set<CommitId>, k: Head)
    requires HeadsOk(db, h) && k in h.heads && KeepsFiles(db, k.commit) && Grows(db, h, db', h', touched)
    ensures KeepsFiles(db', k.commit)
  {
    assert HeadOk(db, h, k);
    forall q | q in db'.commits[k.commit].parents
      ensures SnapOf(db', q).Keys <= SnapOf(db', k.commit).Keys
    {
      assert HeadOk(db, h, Head(k.project, q));
    }
  }

  lemma SourcedStable(db: Db, h: Trail, db': Db, h': Trail, touched: set<CommitId>, c: CommitId)
    requires c in h.sealed && Sourced(db, c) && Grows(db, h, db', h', touched)
    ensures Sourced(db', c)
  {
    forall f | f in SnapOf(db', c)
      ensures SnapOf(db', c)[f] in db'.versions
      ensures Reaches(db'.commits, c, db'.versions[SnapOf(db', c)[f]].commit)
    {
      ReachesGrows(db.commits, db'.commits, c, db.versions[SnapOf(db, c)[f]].commit);
    }
  }

  lemma MergeExactStable(db: Db, h: Trail, db': Db, h': Trail, touched: set<CommitId>, k: Head)
    requires Good(db, h) && k in h.heads && k.commit in h.merges
    requires MergeExact(db, h.merges[k.commit], k.commit) && Grows(db, h, db', h', touched)
    ensures MergeExact(db', h.merges[k.commit], k.commit)
  {
    var note := h.merges[k.commit];
    assert HeadOk(db, h, k);
    assert note.source in db.commits[k.commit].parents && note.target in db.commits[k.commit].parents;
    AncestorsWereHeads(db, h, k.project, note.source, note.base);
    assert HeadOk(db, h, Head(k.project, note.source)) && HeadOk(db, h, Head(k.project, note.target));
    assert HeadOk(db, h, Head(k.project, note.base));
    MergeBaseIsStable(db.commits, db'.commits, note.source, note.target, note.base);
    ReachesIsStable(db.commits, db'.commits, note.source, note.target);
  }

  lemma SerialHeadStable(db: Db, h: Trail, db': Db, h': Trail, touched: set<CommitId>, k: Head)
    requires Good(db, h) && k in h.heads && SerialHead(db, h, k)
    requires Grows(db, h, db', h', touched) && h'.pushes.Keys !! h'.merges.Keys
    ensures SerialHead(db', h', k)
  {
    assert HeadOk(db, h, k);
    KeepsFilesStable(db, h, db', h', touched, k);
    SourcedStable(db, h, db', h', touched, k.commit);
    if k.commit in h'.merges {
      assert k.commit in h.merges;
      MergeExactStable(db, h, db', h', touched, k);
    }
  }

  lemma SerialDbGrows(db: Db, h: Trail, db': Db, h': Trail, touched: set<CommitId>, added: set<Head>)
    requires Good(db, h) && SerialDb(db, h) && Grows(db, h, db', h', touched)
    requires h'.pushes.Keys !! h'.merges.Keys
    requires Rising(db'.commits) && DistinctStamps(db'.commits)
    requires h'.heads == h.heads + added && forall k :: k in added ==> SerialHead(db', h', k)
    ensures SerialDb(db', h')
  {
    forall k | k in h.heads ensures SerialHead(db', h', k) {
      SerialHeadStable(db, h, db', h', touched, k);
    }
  }

  lemma StampsTakeCommit(db: Db, c: CommitId, row: Commit)
    requires Rising(db.commits) && DistinctStamps(db.commits) && c !in db.commits
    requires Later(db, row.createdAt) && forall q :: q in row.parents ==> q in db.commits
    ensures Rising(db.commits[c := row]) && DistinctStamps(db.commits[c := row])
  {
  }

  /** Refs and heads are no part of what a head's facts speak of. */
  lemma SerialHeadFrame(db: Db, h: Trail, db': Db, h': Trail, k: Head)
    requires SerialHead(db, h, k)
    requires db'.commits == db.commits && db'.snaps == db.snaps && db'.versions == db.versions
    requires h'.merges == h.merges
    ensures SerialHead(db', h', k)
  {
    var c := k.commit;
    assert forall x :: SnapOf(db', x) == SnapOf(db, x);
    forall f | f in SnapOf(db', c)
      ensures SnapOf(db', c)[f] in db'.versions
      ensures Reaches(db'.commits, c, db'.versions[SnapOf(db', c)[f]].commit)
    {
      assert f in SnapOf(db, c);
    }
  }

  lemma SerialHeadWithRef(db: Db, h: Trail, key: RefKey, c: CommitId)
    requires Good(db, h) && SerialHead(db, h, Head(key.project, c))
    ensures var db', h' := SetRef(db, key, c), h.(heads := h.heads + {Head(key.project, c)});
      SerialHead(db', h', Head(key.project, c))
  {
    var db', h' := SetRef(db, key, c), h.(heads := h.heads + {Head(key.project, c)});
    RefGrows(db, h, key, c);
    SerialHeadFrame(db, h, db', h', Head(key.project, c));
  }

  lemma SerialTakesHead(db: Db, h: Trail, key: RefKey, c: CommitId)
    requires Good(db, h) && SerialDb(db, h) && SerialHead(db, h, Head(key.project, c))
    ensures SerialDb(SetRef(db, key, c), h.(heads := h.heads + {Head(key.project, c)}))
  {
    var db', h' := SetRef(db, key, c), h.(heads := h.heads + {Head(key.project, c)});
    SerialHeadWithRef(db, h, key, c);
    RefGrows(db, h, key, c);
    SerialDbGrows(db, h, db', h', {}, {Head(key.project, c)});
  }

  // ---- pushes ----

  lemma PushedHead(db: Db, h: Trail, req: PushReq, c: CommitId)
    requires Good(db, h) && SerialDb(db, h) && Built(db, h, req, c) && req.ref != ""
    ensures KeepsFiles(db, c) && Sourced(db, c)
  {
    assert db.commits[c].parents == ParentIds(req);
    ReachesSelf(db.commits, c);
    if req.parent.Some? {
      var q := req.parent.value;
      assert HeadOk(db, h, Head(req.project, q));
      assert SerialHead(db, h, Head(req.project, q));
      assert q in db.commits[c].parents;
      ReachesParent(db.commits, c, q);
      forall f | f in SnapOf(db, q)
        ensures SnapOf(db, q)[f] in db.versions
        ensures Reaches(db.commits, c, db.versions[SnapOf(db, q)[f]].commit)
      {
        SourcedThrough(db, h, req.project, c, q, f);
      }
    }
  }

  lemma PushStamps(db: Db, h: Trail, p: Push, db': Db, p': Push)
    requires TablesOk(db, h) && Rising(db.commits) && DistinctStamps(db.commits)
    requires PushStep(db, p, db', p') && (p.Create? ==> Later(db, p.now))
    ensures Rising(db'.commits) && DistinctStamps(db'.commits)
  {
    if p.Create? {
      StampsTakeCommit(db, p.commit, Commit(p.req.project, ParentIds(p.req), p.now));
    } else {
      assert db'.commits == db.commits;
    }
  }

  lemma PushPublishSets(p: Push, h: Trail, db: Db, db': Db, p': Push)
    requires p.Publish? && p.req.ref != "" && PushStep(db, p, db', p')
    ensures db' == SetRef(db, RefKey(p.req.project, p.req.ref), p.commit)
    ensures NotePush(h, p) == h.(heads := h.heads + {Head(p.req.project, p.commit)})
  {
  }

  lemma PushAddsNoHead(p: Push, h: Trail)
    requires !p.Publish? || p.req.ref == ""
    ensures NotePush(h, p).heads == h.heads
  {
  }

  lemma PushKeepsSerial(db: Db, h: Trail, p: Push, db': Db, p': Push)
    requires Good(db, h) && SerialDb(db, h) && PushStep(db, p, db', p')
    requires p.Create? ==> Later(db, p.now)
    requires p.Publish? ==> Built(db, h, p.req, p.commit)
    requires NotePush(h, p).pushes.Keys !! NotePush(h, p).merges.Keys
    requires Grows(db, h, db', NotePush(h, p), Touches(OfPush(p)))
    ensures SerialDb(db', NotePush(h, p))
  {
    if p.Publish? && p.req.ref != "" {
      PushPublishSets(p, h, db, db', p');
      PushedHead(db, h, p.req, p.commit);
      SerialTakesHead(db, h, RefKey(p.req.project, p.req.ref), p.commit);
    } else {
      PushStamps(db, h, p, db', p');
      PushAddsNoHead(p, h);
      SerialDbGrows(db, h, db', NotePush(h, p), Touches(OfPush(p)), {});
    }
  }

  lemma PushStaysSerial(db: Db, p: Push, db': Db, p': Push)
    requires PushSerial(db, p) && PushStep(db, p, db', p')
    ensures PushSerial(db', p')
  {
  }

  // ---- merges ----

  lemma MergeStamps(db: Db, h: Trail, p: Merge, db': Db, p': Merge)
    requires TablesOk(db, h) && Rising(db.commits) && DistinctStamps(db.commits)
    requires MergeStep(db, p, db', p')
    requires p.CreateMerge? ==> Later(db, p.now) && p.note.source in db.commits
    ensures Rising(db'.commits) && DistinctStamps(db'.commits)
  {
    if p.CreateMerge? {
      StampsTakeCommit(db, p.commit, Commit(p.req.project, [p.note.target, p.note.source], p.now));
    } else {
      assert db'.commits == db.commits;
    }
  }

  lemma MergePublishSets(p: Merge, h: Trail, db: Db, db': Db, p': Merge)
    requires p.PublishMerge? && MergeStep(db, p, db', p')
    ensures db' == SetRef(db, RefKey(p.req.project, p.req.target), p.commit)
    ensures NoteMerge(h, p) == h.(heads := h.heads + {Head(p.req.project, p.commit)})
  {
  }

  lemma MergeAddsNoHead(p: Merge, h: Trail)
    requires !p.PublishMerge? && (p.Forward? ==> Head(p.req.project, p.s) in h.heads)
    ensures NoteMerge(h, p).heads == h.heads
  {
  }

  lemma MergeKeepsSerial(db: Db, h: Trail, p: Merge, db': Db, p': Merge)
    requires !p.PublishMerge? && Good(db, h) && SerialDb(db, h)
    requires p.Forward? ==> Head(p.req.project, p.s) in h.heads
    requires Rising(db'.commits) && DistinctStamps(db'.commits)
    requires NoteMerge(h, p).pushes.Keys !! NoteMerge(h, p).merges.Keys
    requires Grows(db, h, db', NoteMerge(h, p), Touches(OfMerge(p)))
    ensures SerialDb(db', NoteMerge(h, p))
  {
    MergeAddsNoHead(p, h);
    SerialDbGrows(db, h, db', NoteMerge(h, p), Touches(OfMerge(p)), {});
  }

  lemma TreeFrame(db: Db, db': Db, c: CommitId)
    requires db'.snaps == db.snaps && db'.files == db.files
    ensures TreeOf(db', c) == TreeOf(db, c)
  {
  }

  lemma CurrentStable(db: Db, h: Trail, project: ProjectId, s: CommitId, t: CommitId, ana: Analysis, db': Db)
    requires HeadsOk(db, h) && ParentsExist(db.commits) && Current(db, s, t, ana)
    requires Head(project, s) in h.heads && Head(project, t) in h.heads
    requires Submap(db.commits, db'.commits) && db'.snaps == db.snaps && db'.files == db.files
    ensures Current(db', s, t, ana)
  {
    assert HeadOk(db, h, Head(project, s)) && HeadOk(db, h, Head(project, t));
    ReachesIsStable(db.commits, db'.commits, s, t);
    if ana.kind != FastForward {
      MergeBaseIsStable(db.commits, db'.commits, s, t, ana.base);
      TreeFrame(db, db', ana.base);
      TreeFrame(db, db', s);
      TreeFrame(db, db', t);
    }
  }

  lemma PlannedStable(db: Db, h: Trail, project: ProjectId, note: MergeNote, tree: Snapshot, db': Db)
    requires HeadsOk(db, h) && ParentsExist(db.commits) && Planned(db, note, tree)
    requires Head(project, note.source) in h.heads && Head(project, note.target) in h.heads
    requires Submap(db.commits, db'.commits) && db'.snaps == db.snaps && db'.files == db.files
    ensures Planned(db', note, tree)
  {
    var ana :| Plan(db, note, tree, ana);
    CurrentStable(db, h, project, note.source, note.target, ana, db');
    TreeFrame(db, db', note.target);
    assert Plan(db', note, tree, ana);
  }

  /** What the planned tree is, in terms of the three snapshots. */
  ghost predicate TreeReady(db: Db, note: MergeNote, c: CommitId, tree: Snapshot) {
    && IsMergeBase(db.commits, note.source, note.target, note.base)
    && !Reaches(db.commits, note.source, note.target)
    && tree == ThreeWay(SnapOf(db, note.base), SnapOf(db, note.source), SnapOf(db, note.target),
                        Chosen(note.resolutions))
    && Settles(SnapOf(db, note.base), SnapOf(db, note.source), SnapOf(db, note.target), note.resolutions)
    && SnapOf(db, note.source).Keys <= tree.Keys && SnapOf(db, note.target).Keys <= tree.Keys
    && forall f :: f in tree ==>
         tree[f] in db.versions && Reaches(db.commits, c, db.versions[tree[f]].commit)
  }

  lemma PlannedTreeIsReady(db: Db, h: Trail, project: ProjectId, note: MergeNote, c: CommitId, tree: Snapshot)
    requires Good(db, h) && SerialDb(db, h) && Planned(db, note, tree) && Real(tree)
    requires Head(project, note.source) in h.heads && Head(project, note.target) in h.heads
    requires c in db.commits && db.commits[c].parents == [note.target, note.source]
    ensures TreeReady(db, note, c, tree)
  {
    var ana :| Plan(db, note, tree, ana);
    MergeIsExact(db, h, project, note, tree, ana);
    MergeIsSourced(db, h, project, note, c, tree, ana);
  }

  /** Writing the planned tree: no other snapshot that matters changes. */
  ghost predicate WritesOnly(db: Db, note: MergeNote, c: CommitId, tree: Snapshot, db': Db) {
    && db'.commits == db.commits && db'.versions == db.versions && SnapOf(db', c) == tree
    && SnapOf(db', note.source) == SnapOf(db, note.source)
    && SnapOf(db', note.target) == SnapOf(db, note.target)
    && SnapOf(db', note.base) == SnapOf(db, note.base)
  }

  lemma TreeIsAllThatIsWritten(db: Db, h: Trail, project: ProjectId, note: MergeNote, c: CommitId, tree: Snapshot)
    requires Good(db, h) && c !in h.sealed && Reaches(db.commits, note.source, note.base)
    requires Head(project, note.source) in h.heads && Head(project, note.target) in h.heads
    ensures WritesOnly(db, note, c, tree, SetFiles(db, c, tree))
  {
    FreshTree(db, h, c, tree);
    AncestorsWereHeads(db, h, project, note.source, note.base);
    OtherHeadStays(db, h, Head(project, note.source), c, tree);
    OtherHeadStays(db, h, Head(project, note.target), c, tree);
    OtherHeadStays(db, h, Head(project, note.base), c, tree);
  }

  lemma ReadyTreeKeepsFiles(db: Db, note: MergeNote, c: CommitId, tree: Snapshot, db': Db)
    requires TreeReady(db, note, c, tree) && WritesOnly(db, note, c, tree, db')
    requires c in db.commits && db.commits[c].parents == [note.target, note.source]
    ensures KeepsFiles(db', c)
  {
  }

  lemma ReadyTreeIsSourced(db: Db, note: MergeNote, c: CommitId, tree: Snapshot, db': Db)
    requires TreeReady(db, note, c, tree) && WritesOnly(db, note, c, tree, db')
    ensures Sourced(db', c)
  {
  }

  lemma ReadyTreeIsExact(db: Db, note: MergeNote, c: CommitId, tree: Snapshot, db': Db)
    requires TreeReady(db, note, c, tree) && WritesOnly(db, note, c, tree, db')
    ensures MergeExact(db', note, c)
  {
  }

  lemma OtherHeadStays(db: Db, h: Trail, k: Head, c: CommitId, tree: Snapshot)
    requires HeadsOk(db, h) && k in h.heads && c !in h.sealed
    ensures SnapOf(SetFiles(db, c, tree), k.commit) == SnapOf(db, k.commit)
  {
    assert HeadOk(db, h, k);
  }

  lemma CanSetMeansReal(db: Db, c: CommitId, tree: Snapshot)
    requires CanSetFiles(db, c, tree)
    ensures Real(tree)
  {
  }

  lemma MergeStaysSerialReading(db: Db, h: Trail, p: Merge, db': Db, p': Merge)
    requires MergeSerial(db, h, p) && MergeStep(db, p, db', p')
    requires p.FindSource? || p.FindTarget? || p.TestAncestor? || p.FindBase? || p.ReadBase?
      || p.ReadSource?
    ensures MergeSerial(db', NoteMerge(h, p), p')
  {
    if p.TestAncestor? && p'.AgainSource? {
      assert Heads2(db, p.req, p.s, p.t) && Current(db, p.s, p.t, p'.ana);
    }
  }

  lemma MergeStaysSerialAgain(db: Db, h: Trail, p: Merge, db': Db, p': Merge)
    requires MergeSerial(db, h, p) && MergeStep(db, p, db', p')
    requires p.ReadTarget? || p.AgainSource? || p.AgainTarget?
    ensures MergeSerial(db', NoteMerge(h, p), p')
  {
    if p.ReadTarget? {
      assert Heads2(db, p.req, p.s, p.t) && Current(db, p.s, p.t, p'.ana);
    } else if p.AgainSource? {
      var s, t :| Heads2(db, p.req, s, t) && Current(db, s, t, p.ana);
      assert Heads2(db, p.req, p'.s, t) && Current(db, p'.s, t, p.ana);
    }
  }

  lemma ReadAgainPlans(db: Db, h: Trail, p: Merge, db': Db, p': Merge)
    requires p.ReadAgain? && MergeKnows(db, h, p) && MergeSerial(db, h, p) && MergeStep(db, p, db', p')
    ensures MergeSerial(db', NoteMerge(h, p), p')
  {
    assert Plan(db, p'.note, p'.tree, p.ana);
  }

  lemma CreateMergeFrame(db: Db, p: Merge, db': Db, p': Merge)
    requires p.CreateMerge? && MergeStep(db, p, db', p')
    ensures p' == WriteMerged(p.req, p.note, p.tree, p.commit)
    ensures p.commit !in db.commits
    ensures db' == Tables.CreateCommit(db, p.commit, Commit(p.req.project, [p.note.target, p.note.source], p.now))
  {
  }

  lemma CreateMergeStaysSerial(db: Db, h: Trail, p: Merge, db': Db, p': Merge)
    requires p.CreateMerge? && HeadsOk(db, h) && ParentsExist(db.commits) && NoteOk(h, p.req, p.note)
    requires MergeSerial(db, h, p) && MergeStep(db, p, db', p')
    ensures MergeSerial(db', NoteMerge(h, p), p')
  {
    CreateMergeFrame(db, p, db', p');
    PlannedStable(db, h, p.req.project, p.note, p.tree, db');
  }

  lemma WriteMergedStaysSerial(db: Db, h: Trail, p: Merge, db': Db, p': Merge)
    requires p.WriteMerged? && Good(db, h) && SerialDb(db, h) && NoteOk(h, p.req, p.note) && p.commit !in h.sealed
    requires MergeSerial(db, h, p) && MergeStep(db, p, db', p')
    ensures MergeSerial(db', NoteMerge(h, p), p')
  {
    CanSetMeansReal(db, p.commit, p.tree);
    PlannedTreeIsReady(db, h, p.req.project, p.note, p.commit, p.tree);
    TreeIsAllThatIsWritten(db, h, p.req.project, p.note, p.commit, p.tree);
    ReadyTreeKeepsFiles(db, p.note, p.commit, p.tree, db');
    ReadyTreeIsSourced(db, p.note, p.commit, p.tree, db');
    ReadyTreeIsExact(db, p.note, p.commit, p.tree, db');
  }

  lemma MergeStaysSerial(db: Db, h: Trail, p: Merge, db': Db, p': Merge)
    requires Good(db, h) && SerialDb(db, h) && MergeKnows(db, h, p)
    requires MergeSerial(db, h, p) && MergeStep(db, p, db', p')
    ensures MergeSerial(db', NoteMerge(h, p), p')
  {
    if p.FindSource? || p.FindTarget? || p.TestAncestor? || p.FindBase? || p.ReadBase? || p.ReadSource? {
      MergeStaysSerialReading(db, h, p, db', p');
    } else if p.ReadTarget? || p.AgainSource? || p.AgainTarget? {
      MergeStaysSerialAgain(db, h, p, db', p');
    } else if p.ReadAgain? {
      ReadAgainPlans(db, h, p, db', p');
    } else if p.CreateMerge? {
      CreateMergeStaysSerial(db, h, p, db', p');
    } else if p.WriteMerged? {
      WriteMergedStaysSerial(db, h, p, db', p');
    }
  }

  // ---- a whole step ----

  /** Steps that write no commit and add no new head. */
  lemma FrameKeepsSerial(db: Db, h: Trail, db': Db, h': Trail)
    requires Good(db, h) && SerialDb(db, h)
    requires db'.commits == db.commits && h'.heads == h.heads
    requires h'.pushes == h.pushes && h'.merges == h.merges
    requires Grows(db, h, db', h', {})
    ensures SerialDb(db', h')
  {
    SerialDbGrows(db, h, db', h', {}, {});
  }

  lemma BranchKeepsSerial(db: Db, h: Trail, p: Branch, db': Db, p': Branch)
    requires Good(db, h) && SerialDb(db, h) && ProcKnows(db, h, OfBranch(p)) && BranchStep(db, p, db', p')
    ensures SerialDb(db', NoteStep(h, db, OfBranch(p))) && SerialKnows(db', h, OfBranch(p'))
  {
    BranchGrows(db, h, p, db', p');
    BranchAddsNoHead(db, h, p, db', p');
    FrameKeepsSerial(db, h, db', NoteStep(h, db, OfBranch(p)));
  }

  /** A branch starts at a head; the process still knows what it needs. */
  lemma BranchAddsNoHead(db: Db, h: Trail, p: Branch, db': Db, p': Branch)
    requires HeadsOk(db, h) && ProcKnows(db, h, OfBranch(p)) && BranchStep(db, p, db', p')
    ensures var h' := NoteStep(h, db, OfBranch(p));
      h'.heads == h.heads && h'.pushes == h.pushes && h'.merges == h.merges && db'.commits == db.commits
    ensures SerialKnows(db', h, OfBranch(p'))
  {
  }

  lemma UploadKeepsSerial(db: Db, h: Trail, p: Upload, db': Db, p': Upload)
    requires Good(db, h) && SerialDb(db, h) && UploadStep(db, p, db', p')
    ensures SerialDb(db', NoteStep(h, db, OfUpload(p)))
  {
    UploadGrows(db, h, p, db', p');
    FrameKeepsSerial(db, h, db', NoteStep(h, db, OfUpload(p)));
  }

  lemma LockKeepsSerial(db: Db, h: Trail, p: Locking, db': Db, p': Locking)
    requires Good(db, h) && SerialDb(db, h) && SerialKnows(db, h, OfLocking(p)) && LockStep(db, p, db', p')
    ensures SerialDb(db', h) && SerialKnows(db', h, OfLocking(p'))
  {
    LockGrows(db, h, p, db', p');
    LockStaysKnown(db, h, p, db', p');
    FrameKeepsSerial(db, h, db', h);
  }

  lemma LockStaysKnown(db: Db, h: Trail, p: Locking, db': Db, p': Locking)
    requires SerialKnows(db, h, OfLocking(p)) && LockStep(db, p, db', p')
    ensures SerialKnows(db', h, OfLocking(p')) && db'.commits == db.commits
  {
  }

  lemma MergeReadyToKeep(db: Db, h: Trail, p: Merge)
    requires MergeKnows(db, h, p) && MergeSerial(db, h, p)
    ensures p.CreateMerge? ==> Later(db, p.now) && Head(p.req.project, p.note.source) in h.heads
    ensures p.PublishMerge? ==>
      && p.commit in h.merges && h.merges[p.commit] == p.note
      && KeepsFiles(db, p.commit) && Sourced(db, p.commit) && MergeExact(db, p.note, p.commit)
    ensures p.Forward? ==> Head(p.req.project, p.s) in h.heads
  {
  }

  lemma MergeKeepsSerialDb(db: Db, h: Trail, p: Merge, db': Db, p': Merge)
    requires Good(db, h) && SerialDb(db, h) && MergeKnows(db, h, p) && MergeSerial(db, h, p)
    requires MergeStep(db, p, db', p') && TablesOk(db', NoteMerge(h, p))
    requires Grows(db, h, db', NoteMerge(h, p), Touches(OfMerge(p)))
    ensures SerialDb(db', NoteMerge(h, p))
  {
    MergeReadyToKeep(db, h, p);
    if p.PublishMerge? {
      MergePublishSets(p, h, db, db', p');
      SerialTakesHead(db, h, RefKey(p.req.project, p.req.target), p.commit);
    } else {
      if p.CreateMerge? { assert HeadOk(db, h, Head(p.req.project, p.note.source)); }
      MergeStamps(db, h, p, db', p');
      MergeKeepsSerial(db, h, p, db', p');
    }
  }

  lemma PushKeepsSerialDb(db: Db, h: Trail, p: Push, db': Db, p': Push)
    requires Good(db, h) && SerialDb(db, h) && PushKnows(db, h, p) && PushSerial(db, p)
    requires PushStep(db, p, db', p') && TablesOk(db', NotePush(h, p))
    requires Grows(db, h, db', NotePush(h, p), Touches(OfPush(p)))
    ensures SerialDb(db', NotePush(h, p)) && PushSerial(db', p')
  {
    PushKeepsSerial(db, h, p, db', p');
    PushStaysSerial(db, p, db', p');
  }

  lemma StepKeepsSerial(db: Db, h: Trail, p: Proc, db': Db, p': Proc)
    requires Good(db, h) && ProcKnows(db, h, p) && ProcStep(db, p, db', p')
    requires SerialDb(db, h) && SerialKnows(db, h, p)
    ensures SerialDb(db', NoteStep(h, db, p)) && SerialKnows(db', NoteStep(h, db, p), p')
  {
    StepKeeps(db, h, p, db', p');
    match p
    case OfPush(q) => PushKeepsSerialDb(db, h, q, db', p'.push);
    case OfMerge(q) =>
      MergeKeepsSerialDb(db, h, q, db', p'.merge);
      MergeStaysSerial(db, h, q, db', p'.merge);
    case OfBranch(q) => BranchKeepsSerial(db, h, q, db', p'.branch);
    case OfUpload(q) => UploadKeepsSerial(db, h, q, db', p'.upload);
    case OfLocking(q) => LockKeepsSerial(db, h, q, db', p'.locking);
  }
}
