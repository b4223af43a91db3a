/** Every step of every request keeps the safety invariant. */
module SafetyProof {
  import opened Tables
  import opened Ancestry
  import opened Merging
  import opened Requests
  import opened Safety

  // ---- ancestors of heads ----

  lemma {:induction false} HeadPath(db: Db, h: Trail, project: ProjectId, path: seq<CommitId>)
    requires HeadsOk(db, h) && IsPath(db.commits, path) && Head(project, path[0]) in h.heads
    ensures Head(project, path[|path| - 1]) in h.heads
    decreases |path|
  {
    if |path| > 1 {
      assert HeadOk(db, h, Head(project, path[0]));
      assert path[1] in db.commits[path[0]].parents;
      assert IsPath(db.commits, path[1..]);
      HeadPath(db, h, project, path[1..]);
    }
  }

  /** Every ancestor of a commit that was ever a branch head was itself once a branch head
      of the same project. */
  lemma AncestorsWereHeads(db: Db, h: Trail, project: ProjectId, c: CommitId, a: CommitId)
    requires HeadsOk(db, h) && Head(project, c) in h.heads && Reaches(db.commits, c, a)
    ensures Head(project, a) in h.heads
  {
    var p :| IsPath(db.commits, p) && p[0] == c && p[|p| - 1] == a;
    HeadPath(db, h, project, p);
  }

  lemma TreeOfHead(db: Db, h: Trail, k: Head)
    requires HeadsOk(db, h) && k in h.heads
    ensures TreeOf(db, k.commit) == SnapOf(db, k.commit)
    ensures SnapOk(db, k.project, SnapOf(db, k.commit))
  {
    assert HeadOk(db, h, k);
    forall f | f in ProjectFiles(db, k.project) ensures f in db.files.Values {
      var key :| key in db.files && key.project == k.project && db.files[key] == f;
    }
  }

  // ---- tables ----

  lemma KnowsGuarded(db: Db, h: Trail, p: Proc)
    requires TablesOk(db, h) && ProcKnows(db, h, p)
    ensures Guarded(db, h, p)
    ensures Owner(p).Some? ==> Owner(p).value in db.commits
    ensures p.OfPush? && Owner(p).Some? ==> Owner(p).value in h.pushes
  {
  }

  /** Refs, heads, chunks, blobs and locks are not the tables' business. */
  lemma TablesFrame(db: Db, h: Trail, db': Db, h': Trail)
    requires TablesOk(db, h)
    requires db'.commits == db.commits && db'.snaps == db.snaps
    requires db'.files == db.files && db'.versions == db.versions
    requires h'.pushes == h.pushes && h'.merges == h.merges
    requires h'.sealed == h.sealed && h'.counted == h.counted
    ensures TablesOk(db', h')
  {
  }

  lemma TablesTakePush(db: Db, h: Trail, req: PushReq, c: CommitId, row: Commit)
    requires TablesOk(db, h) && CanCreateCommit(db, c, row)
    requires row.project == req.project && row.parents == ParentIds(req)
    ensures TablesOk(Tables.CreateCommit(db, c, row), h.(pushes := h.pushes[c := req]))
  {
    assert ParentsExist(db.commits[c := row]);
    assert h.pushes[c := req].Keys == h.pushes.Keys + {c};
  }

  lemma TablesTakeMerge(db: Db, h: Trail, note: MergeNote, c: CommitId, row: Commit)
    requires TablesOk(db, h) && CanCreateCommit(db, c, row)
    requires row.parents == [note.target, note.source] && note.source in db.commits
    ensures TablesOk(Tables.CreateCommit(db, c, row), h.(merges := h.merges[c := note]))
  {
  }

  lemma TablesTakeTree(db: Db, h: Trail, c: CommitId, tree: Snapshot)
    requires TablesOk(db, h) && c in db.commits
    ensures TablesOk(SetFiles(db, c, tree), h.(sealed := h.sealed + {c}))
  {
  }

  lemma TablesTakeFile(db: Db, h: Trail, key: FileKey, f: FileId)
    requires TablesOk(db, h) && CanUpsertFile(db, key, f)
    ensures TablesOk(UpsertFile(db, key, f), h)
  {
  }

  lemma TablesTakeVersion(db: Db, h: Trail, v: VersionId, row: Version)
    requires TablesOk(db, h) && CanCreateVersion(db, v, row)
    ensures TablesOk(Tables.CreateVersion(db, v, row), h)
  {
  }

  lemma TablesTakeCount(db: Db, h: Trail, c: CommitId, db': Db)
    requires TablesOk(db, h) && c in h.pushes && db' == db.(chunks := db'.chunks)
    ensures TablesOk(db', h.(counted := h.counted + {c}))
  {
  }

  lemma PushRowsKeepTables(db: Db, h: Trail, p: Push, db': Db, p': Push)
    requires TablesOk(db, h) && PushStep(db, p, db', p')
    requires p.Create? || p.Upsert? || p.WriteVersion?
    ensures TablesOk(db', NotePush(h, p))
  {
    match p
    case Create(req, c, now) => TablesTakePush(db, h, req, c, Commit(req.project, ParentIds(req), now));
    case Upsert(req, _, i, _) =>
      if i < |req.files| { TablesTakeFile(db, h, KeyOf(req, i), db'.files[KeyOf(req, i)]); }
    case WriteVersion(req, c, i, _, f, v) =>
      TablesTakeVersion(db, h, v, Version(f, c, req.files[i].manifest));
  }

  lemma PushEndFrame(db: Db, p: Push, db': Db, p': Push)
    requires PushStep(db, p, db', p')
    ensures p.Count? ==> db' == db.(chunks := db'.chunks)
    ensures p.Publish? ==> db' == db.(refs := db'.refs)
    ensures p.WriteTree? ==> db' == SetFiles(db, p.commit, p.tree)
  {
  }

  lemma PushEndKeepsTables(db: Db, h: Trail, p: Push, db': Db, p': Push)
    requires TablesOk(db, h) && PushStep(db, p, db', p')
    requires p.WriteTree? || p.Count? || p.Publish?
    requires p.commit in h.pushes
    ensures TablesOk(db', NotePush(h, p))
  {
    PushEndFrame(db, p, db', p');
    match p
    case WriteTree(_, c, tree) => TablesTakeTree(db, h, c, tree);
    case Count(_, c) => TablesTakeCount(db, h, c, db');
    case Publish(_, _) => TablesFrame(db, h, db', NotePush(h, p));
  }

  lemma PushKeepsTables(db: Db, h: Trail, p: Push, db': Db, p': Push)
    requires TablesOk(db, h) && PushKnows(db, h, p) && PushStep(db, p, db', p')
    ensures TablesOk(db', NotePush(h, p))
  {
    if p.Create? || p.Upsert? || p.WriteVersion? {
      PushRowsKeepTables(db, h, p, db', p');
    } else if p.WriteTree? || p.Count? || p.Publish? {
      PushEndKeepsTables(db, h, p, db', p');
    }
  }

  lemma MergeKeepsTables(db: Db, h: Trail, p: Merge, db': Db, p': Merge)
    requires TablesOk(db, h) && MergeStep(db, p, db', p')
    requires Owner(OfMerge(p)).Some? ==> Owner(OfMerge(p)).value in db.commits
    requires p.CreateMerge? ==> p.note.source in db.commits
    ensures TablesOk(db', NoteMerge(h, p))
  {
    if p.CreateMerge? || p.WriteMerged? {
      match p
      case CreateMerge(req, note, _, c, now) =>
        TablesTakeMerge(db, h, note, c, Commit(req.project, [note.target, note.source], now));
      case WriteMerged(_, _, tree, c) => TablesTakeTree(db, h, c, tree);
    } else {
      MergeLeavesTables(db, h, p, db', p');
      TablesFrame(db, h, db', NoteMerge(h, p));
    }
  }

  lemma MergeLeavesTables(db: Db, h: Trail, p: Merge, db': Db, p': Merge)
    requires MergeStep(db, p, db', p') && !p.CreateMerge? && !p.WriteMerged?
    ensures db' == db.(refs := db'.refs)
    ensures NoteMerge(h, p) == h.(heads := NoteMerge(h, p).heads)
  {
  }

  // ---- heads ----

  lemma HeadsGrow(db: Db, h: Trail, db': Db, h': Trail, touched: set<CommitId>, added: set<Head>)
    requires TablesOk(db, h) && HeadsOk(db, h) && TablesOk(db', h')
    requires Grows(db, h, db', h', touched)
    requires h'.heads == h.heads + added
    requires forall k :: k in added ==> HeadOk(db', h', k)
    requires forall r :: r in db'.refs ==> Head(r.project, db'.refs[r]) in h'.heads
    ensures HeadsOk(db', h')
  {
    forall k | k in h.heads ensures HeadOk(db', h', k) {
      HeadOkStable(db, h, db', h', touched, k);
    }
  }

  lemma PushPublishes(db: Db, h: Trail, req: PushReq, c: CommitId, db': Db)
    requires TablesOk(db, h) && HeadsOk(db, h) && Built(db, h, req, c) && c in h.counted && req.ref != ""
    requires db' == SetRef(db, RefKey(req.project, req.ref), c)
    ensures HeadOk(db', h.(heads := h.heads + {Head(req.project, c)}), Head(req.project, c))
  {
    assert TreeSoFar(db', req, c, |req.files|, SnapOf(db', c)) by {
      TreeSoFarStable(db, db', req, c, |req.files|, SnapOf(db, c));
    }
    PushedParentsAreHeads(db, h, req, c);
  }

  lemma PushedParentsAreHeads(db: Db, h: Trail, req: PushReq, c: CommitId)
    requires TablesOk(db, h) && Built(db, h, req, c) && req.ref != ""
    ensures db.commits[c].project == req.project
    ensures forall q :: q in db.commits[c].parents ==> Head(req.project, q) in h.heads
  {
  }

  /** A step that sets no ref adds no head. */
  lemma HeadsFrame(db: Db, h: Trail, db': Db, h': Trail, touched: set<CommitId>)
    requires TablesOk(db, h) && HeadsOk(db, h) && TablesOk(db', h') && Grows(db, h, db', h', touched)
    requires db'.refs == db.refs && h'.heads == h.heads
    ensures HeadsOk(db', h')
  {
    HeadsGrow(db, h, db', h', touched, {});
  }

  lemma RefGrows(db: Db, h: Trail, key: RefKey, c: CommitId)
    ensures Grows(db, h, SetRef(db, key, c), h.(heads := h.heads + {Head(key.project, c)}), {})
  {
  }

  /** Setting a ref to a good head. */
  lemma HeadsTakeRef(db: Db, h: Trail, key: RefKey, c: CommitId)
    requires TablesOk(db, h) && HeadsOk(db, h)
    requires HeadOk(SetRef(db, key, c), h.(heads := h.heads + {Head(key.project, c)}), Head(key.project, c))
    ensures HeadsOk(SetRef(db, key, c), h.(heads := h.heads + {Head(key.project, c)}))
  {
    TablesFrame(db, h, SetRef(db, key, c), h.(heads := h.heads + {Head(key.project, c)}));
    RefGrows(db, h, key, c);
    HeadsGrow(db, h, SetRef(db, key, c), h.(heads := h.heads + {Head(key.project, c)}), {}, {Head(key.project, c)});
  }

  lemma HeadsTakeOldHead(db: Db, h: Trail, key: RefKey, c: CommitId)
    requires TablesOk(db, h) && HeadsOk(db, h) && Head(key.project, c) in h.heads
    ensures HeadsOk(SetRef(db, key, c), h.(heads := h.heads + {Head(key.project, c)}))
  {
    TablesFrame(db, h, SetRef(db, key, c), h.(heads := h.heads + {Head(key.project, c)}));
    RefGrows(db, h, key, c);
    HeadOkStable(db, h, SetRef(db, key, c), h.(heads := h.heads + {Head(key.project, c)}), {}, Head(key.project, c));
    HeadsTakeRef(db, h, key, c);
  }

  lemma PushKeepsHeads(db: Db, h: Trail, p: Push, db': Db, p': Push)
    requires TablesOk(db, h) && HeadsOk(db, h) && PushStep(db, p, db', p')
    requires TablesOk(db', NotePush(h, p)) && Grows(db, h, db', NotePush(h, p), Touches(OfPush(p)))
    requires p.Publish? ==> Built(db, h, p.req, p.commit) && p.commit in h.counted
    ensures HeadsOk(db', NotePush(h, p))
  {
    if p.Publish? && p.req.ref != "" {
      PushPublishes(db, h, p.req, p.commit, db');
      HeadsTakeRef(db, h, RefKey(p.req.project, p.req.ref), p.commit);
    } else {
      HeadsFrame(db, h, db', NotePush(h, p), Touches(OfPush(p)));
    }
  }

  lemma MergePublishes(db: Db, h: Trail, req: MergeReq, note: MergeNote, c: CommitId)
    requires TablesOk(db, h) && HeadsOk(db, h) && MergeKnows(db, h, PublishMerge(req, note, c))
    ensures HeadOk(SetRef(db, RefKey(req.project, req.target), c),
                   h.(heads := h.heads + {Head(req.project, c)}), Head(req.project, c))
  {
    SnapOkStable(db, SetRef(db, RefKey(req.project, req.target), c), req.project, SnapOf(db, c));
  }

  lemma MergeSetsNoRef(db: Db, h: Trail, p: Merge, db': Db, p': Merge)
    requires MergeStep(db, p, db', p') && !p.PublishMerge? && !p.Forward?
    ensures db'.refs == db.refs && NoteMerge(h, p).heads == h.heads
  {
  }

  lemma MergeKeepsHeads(db: Db, h: Trail, p: Merge, db': Db, p': Merge)
    requires TablesOk(db, h) && HeadsOk(db, h) && MergeStep(db, p, db', p')
    requires TablesOk(db', NoteMerge(h, p)) && Grows(db, h, db', NoteMerge(h, p), Touches(OfMerge(p)))
    requires p.PublishMerge? ==> MergeKnows(db, h, p)
    requires p.Forward? ==> Head(p.req.project, p.s) in h.heads
    ensures HeadsOk(db', NoteMerge(h, p))
  {
    if p.PublishMerge? {
      MergePublishes(db, h, p.req, p.note, p.commit);
      HeadsTakeRef(db, h, RefKey(p.req.project, p.req.target), p.commit);
    } else if p.Forward? {
      HeadsTakeOldHead(db, h, RefKey(p.req.project, p.req.target), p.s);
    } else {
      MergeSetsNoRef(db, h, p, db', p');
      HeadsFrame(db, h, db', NoteMerge(h, p), Touches(OfMerge(p)));
    }
  }

  // ---- what a push knows next ----

  lemma RowsTakeEntry(db: Db, req: PushReq, c: CommitId, i: nat, tree: Snapshot, below: Snapshot, f: FileId,
                      v: VersionId)
    requires i < |req.files| && KeyOf(req, i) in db.files && db.files[KeyOf(req, i)] == f
    requires v in db.versions && db.versions[v].commit == c
    requires RowsSoFar(db, req, c, i, tree, below)
    ensures RowsSoFar(db, req, c, i + 1, tree[f := v], below)
  {
    forall g ensures Written(db, req, i + 1, g) <==> Written(db, req, i, g) || g == f {
      if g == f { assert KeyOf(req, i) in db.files; }
    }
  }

  lemma LooksTakeEntry(db: Db, req: PushReq, i: nat, tree: Snapshot, below: Snapshot, f: FileId, v: VersionId,
                       path: Path)
    requires UniqueFiles(db.files) && i < |req.files| && KeyOf(req, i) in db.files && db.files[KeyOf(req, i)] == f
    requires v in db.versions && db.versions[v].manifest == req.files[i].manifest
    requires Look(db, req.project, tree, path)
      == Over(LastWrite(req.files[..i], path), Look(db, req.project, below, path))
    ensures Look(db, req.project, tree[f := v], path)
      == Over(LastWrite(req.files[..i + 1], path), Look(db, req.project, below, path))
  {
    assert req.files[..i + 1][..i] == req.files[..i];
    var key := FileKey(req.project, path);
    if path != req.files[i].path && key in db.files {
      assert db.files[key] != f;
    }
  }

  lemma SnapTakesRow(db: Db, project: ProjectId, tree: Snapshot, key: FileKey, v: VersionId)
    requires SnapOk(db, project, tree) && key in db.files && key.project == project
    requires VersionFits(db, db.files[key], v)
    ensures SnapOk(db, project, tree[db.files[key] := v])
  {
    assert db.files[key] in ProjectFiles(db, project);
  }

  /** One more version row, put over the tree, is one more entry of the push's list. */
  lemma TreeTakesEntry(db: Db, req: PushReq, c: CommitId, i: nat, tree: Snapshot, f: FileId, v: VersionId, db': Db)
    requires TreeSoFar(db, req, c, i, tree) && i < |req.files| && UniqueFiles(db.files)
    requires KeyOf(req, i) in db.files && db.files[KeyOf(req, i)] == f
    requires v !in db.versions
    requires db' == CreateVersion(db, v, Version(f, c, req.files[i].manifest))
    ensures TreeSoFar(db', req, c, i + 1, tree[f := v])
  {
    TreeSoFarStable(db, db', req, c, i, tree);
    var below := ParentTree(db', req);
    SnapTakesRow(db', req.project, tree, KeyOf(req, i), v);
    RowsTakeEntry(db', req, c, i, tree, below, f, v);
    forall path
      ensures Look(db', req.project, tree[f := v], path)
        == Over(LastWrite(req.files[..i + 1], path), Look(db', req.project, below, path))
    {
      LooksTakeEntry(db', req, i, tree, below, f, v, path);
    }
  }

  lemma TreeStarts(db: Db, h: Trail, req: PushReq, c: CommitId)
    requires HeadsOk(db, h) && ParentIsHead(h, req) && req.ref != ""
    ensures TreeSoFar(db, req, c, 0, ParentTree(db, req))
  {
    if req.parent.Some? { assert HeadOk(db, h, Head(req.project, req.parent.value)); }
  }

  lemma BuildingStable(db: Db, h: Trail, db': Db, h': Trail, touched: set<CommitId>,
                       req: PushReq, c: CommitId, i: nat, tree: Snapshot)
    requires HeadsOk(db, h) && Grows(db, h, db', h', touched) && RowsGrow(db, db')
    requires Building(db, h, req, c, i, tree) && c !in h'.sealed && c !in h'.counted
    ensures Building(db', h', req, c, i, tree)
  {
    if req.ref != "" {
      ParentHeadIsSealed(db, h, req);
      ParentTreeStable(db, h, db', h', touched, req);
      TreeSoFarStable(db, db', req, c, i, tree);
    }
  }

  lemma TreeIsWritten(db: Db, h: Trail, db': Db, h': Trail, req: PushReq, c: CommitId, tree: Snapshot)
    requires TablesOk(db, h) && HeadsOk(db, h) && Building(db, h, req, c, |req.files|, tree)
    requires db' == SetFiles(db, c, tree) && h' == h.(sealed := h.sealed + {c})
    ensures Built(db', h', req, c)
  {
    FreshTree(db, h, c, tree);
    if req.ref != "" {
      ParentHeadIsSealed(db, h, req);
      assert ParentTree(db', req) == ParentTree(db, req);
      TreeSoFarStable(db, db', req, c, |req.files|, tree);
    }
  }

  /** An unsealed commit has no rows yet, so the batch is its whole snapshot. */
  lemma FreshTree(db: Db, h: Trail, c: CommitId, tree: Snapshot)
    requires db.snaps.Keys <= h.sealed && c !in h.sealed
    ensures SnapOf(SetFiles(db, c, tree), c) == tree
    ensures forall x :: x != c ==> SnapOf(SetFiles(db, c, tree), x) == SnapOf(db, x)
  {
  }

  lemma BuiltTreeFits(db: Db, h: Trail, req: PushReq, c: CommitId, tree: Snapshot)
    requires TablesOk(db, h) && Building(db, h, req, c, |req.files|, tree) && req.ref != ""
    ensures CanSetFiles(db, c, tree)
  {
    forall f | f in tree
      ensures f in db.files.Values && tree[f] != ABSENT && tree[f] in db.versions
    {
      assert f in ProjectFiles(db, req.project);
      assert VersionFits(db, f, tree[f]);
    }
  }

  lemma TreeSoFarFrame(db: Db, db': Db, req: PushReq, c: CommitId, i: nat, tree: Snapshot)
    requires TreeSoFar(db, req, c, i, tree)
    requires db'.snaps == db.snaps && db'.files == db.files && db'.versions == db.versions
    ensures TreeSoFar(db', req, c, i, tree)
  {
    assert ParentTree(db', req) == ParentTree(db, req);
    forall path
      ensures Look(db', req.project, tree, path)
        == Over(LastWrite(req.files[..i], path), Look(db', req.project, ParentTree(db', req), path))
    {
      assert Look(db', req.project, tree, path) == Look(db, req.project, tree, path);
    }
  }

  lemma CountKeepsBuilt(db: Db, h: Trail, db': Db, h': Trail, req: PushReq, c: CommitId)
    requires Built(db, h, req, c)
    requires db' == db.(chunks := db'.chunks) && h' == h.(counted := h.counted + {c})
    ensures Built(db', h', req, c)
  {
    if req.ref != "" { TreeSoFarFrame(db, db', req, c, |req.files|, SnapOf(db, c)); }
  }

  lemma PushLearnsReading(db: Db, h: Trail, p: Push, db': Db, p': Push)
    requires TablesOk(db, h) && HeadsOk(db, h) && PushKnows(db, h, p) && PushStep(db, p, db', p')
    requires p.Gate? || p.Check? || p.Create? || p.ReadParent? || p.Lookup?
    ensures PushKnows(db', NotePush(h, p), p')
  {
    if p.ReadParent? && p.req.ref != "" { TreeStarts(db, h, p.req, p.commit); }
  }

  lemma UpsertLearns(db: Db, h: Trail, p: Push, db': Db, p': Push)
    requires HeadsOk(db, h) && PushKnows(db, h, p) && PushStep(db, p, db', p') && p.Upsert?
    requires Grows(db, h, db', h, Touches(OfPush(p))) && UniqueFiles(db'.files)
    ensures PushKnows(db', h, p')
  {
    BuildingStable(db, h, db', h, Touches(OfPush(p)), p.req, p.commit, p.i, p.tree);
  }

  lemma WriteVersionLearns(db: Db, h: Trail, p: Push, db': Db, p': Push)
    requires TablesOk(db, h) && PushKnows(db, h, p) && PushStep(db, p, db', p') && p.WriteVersion?
    ensures PushKnows(db', h, p')
  {
    if p.req.ref != "" { TreeTakesEntry(db, p.req, p.commit, p.i, p.tree, p.file, p.version, db'); }
  }

  lemma PushLearnsBuilding(db: Db, h: Trail, p: Push, db': Db, p': Push)
    requires TablesOk(db, h) && HeadsOk(db, h) && PushKnows(db, h, p) && PushStep(db, p, db', p')
    requires p.Upsert? || p.WriteVersion?
    requires Grows(db, h, db', h, Touches(OfPush(p))) && UniqueFiles(db'.files)
    ensures PushKnows(db', h, p')
  {
    if p.Upsert? { UpsertLearns(db, h, p, db', p'); } else { WriteVersionLearns(db, h, p, db', p'); }
  }

  lemma WriteTreeLearns(db: Db, h: Trail, p: Push, db': Db, p': Push)
    requires TablesOk(db, h) && HeadsOk(db, h) && PushKnows(db, h, p) && PushStep(db, p, db', p') && p.WriteTree?
    ensures PushKnows(db', NotePush(h, p), p')
  {
    TreeIsWritten(db, h, db', NotePush(h, p), p.req, p.commit, p.tree);
  }

  lemma CountLearns(db: Db, h: Trail, p: Push, db': Db, p': Push)
    requires PushKnows(db, h, p) && PushStep(db, p, db', p') && p.Count?
    ensures PushKnows(db', NotePush(h, p), p')
  {
    CountKeepsBuilt(db, h, db', NotePush(h, p), p.req, p.commit);
  }

  lemma PushLearnsEnding(db: Db, h: Trail, p: Push, db': Db, p': Push)
    requires TablesOk(db, h) && HeadsOk(db, h) && PushKnows(db, h, p) && PushStep(db, p, db', p')
    requires p.WriteTree? || p.Count? || p.Publish?
    ensures PushKnows(db', NotePush(h, p), p')
  {
    if p.WriteTree? {
      WriteTreeLearns(db, h, p, db', p');
    } else if p.Count? {
      CountLearns(db, h, p, db', p');
    }
  }

  // ---- what a merge knows next ----

  lemma OverlayFits(db: Db, project: ProjectId, t: Snapshot, es: seq<Entry>)
    requires Choices(db, project, t)
    requires forall e :: e in es ==>
      e.file in ProjectFiles(db, project) && (e.version == ABSENT || VersionFits(db, e.file, e.version))
    ensures Choices(db, project, Overlay(t, es))
  {
    OverlayCases(t, es);
    forall f | f in Overlay(t, es)
      ensures f in ProjectFiles(db, project)
      ensures Overlay(t, es)[f] == ABSENT || VersionFits(db, f, Overlay(t, es)[f])
    {
      assert (f in t && Overlay(t, es)[f] == t[f]) || Entry(f, Overlay(t, es)[f]) in es;
    }
  }

  lemma ResolutionsFit(db: Db, project: ProjectId, b: Snapshot, s: Snapshot, t: Snapshot,
                       ana: Analysis, res: seq<Resolution>)
    requires SnapOk(db, project, b) && SnapOk(db, project, s) && SnapOk(db, project, t)
    requires IsAnalysis(b, s, t, ana) && ana.kind == Conflicted && Accepted(ana, res)
    ensures forall e :: e in res ==>
      e.file in ProjectFiles(db, project) && (e.version == ABSENT || VersionFits(db, e.file, e.version))
  {
    ResolutionsPermuteConflicts(b, s, t, ana, res);
    DistinctOverlay(map[], res);
    forall e | e in res
      ensures e.file in ProjectFiles(db, project) && (e.version == ABSENT || VersionFits(db, e.file, e.version))
    {
      assert e.file in Chosen(res) && Chosen(res)[e.file] == e.version;
      assert e.file in AllFiles(b, s, t);
    }
  }

  /** Whatever the target's tree is by now, the merged rows fit their files. */
  lemma MergedTreeChoices(db: Db, project: ProjectId, t: Snapshot, ana: Analysis, res: seq<Resolution>)
    requires SnapOk(db, project, t) && Grounded(db, project, ana) && ana.kind != FastForward
    requires Accepted(ana, res)
    ensures Choices(db, project, MergedTree(t, ana, res))
  {
    var b, s, t' :| IsAnalysis(b, s, t', ana)
      && SnapOk(db, project, b) && SnapOk(db, project, s) && SnapOk(db, project, t');
    OverlayFits(db, project, t, ana.sourceOnly);
    if ana.kind == Conflicted {
      ResolutionsFit(db, project, b, s, t', ana, res);
      OverlayFits(db, project, Overlay(t, ana.sourceOnly), res);
    }
  }

  lemma SealedMergeFits(db: Db, h: Trail, project: ProjectId, c: CommitId, tree: Snapshot, db': Db)
    requires TablesOk(db, h) && c !in h.sealed && Choices(db, project, tree)
    requires CanSetFiles(db, c, tree) && db' == SetFiles(db, c, tree)
    ensures SnapOk(db', project, SnapOf(db', c))
  {
    FreshTree(db, h, c, tree);
    assert SnapOk(db, project, tree);
    SnapOkStable(db, db', project, tree);
  }

  lemma MergeLearnsReading(db: Db, h: Trail, p: Merge, db': Db, p': Merge)
    requires HeadsOk(db, h) && MergeKnows(db, h, p) && MergeStep(db, p, db', p')
    requires p.FindSource? || p.FindTarget? || p.TestAncestor? || p.FindBase? || p.ReadBase?
      || p.ReadSource? || p.ReadTarget?
    ensures MergeKnows(db', NoteMerge(h, p), p')
  {
    match p
    case FindBase(req, s, t) => AncestorsWereHeads(db, h, req.project, s, p'.b);
    case ReadBase(req, _, _, b) => TreeOfHead(db, h, Head(req.project, b));
    case ReadSource(req, s, _, _, _) => TreeOfHead(db, h, Head(req.project, s));
    case ReadTarget(req, _, t, _, _, _) => TreeOfHead(db, h, Head(req.project, t));
    case _ =>
  }

  lemma MergeLearnsAgain(db: Db, h: Trail, p: Merge, db': Db, p': Merge)
    requires HeadsOk(db, h) && MergeKnows(db, h, p) && MergeStep(db, p, db', p')
    requires p.AgainSource? || p.AgainTarget? || p.Forward? || p.ReadAgain?
    ensures MergeKnows(db', NoteMerge(h, p), p')
  {
    if p.ReadAgain? {
      TreeOfHead(db, h, Head(p.req.project, p.t));
      MergedTreeChoices(db, p.req.project, TreeOf(db, p.t), p.ana, p.req.resolutions);
    }
  }

  lemma MergeLearnsWriting(db: Db, h: Trail, p: Merge, db': Db, p': Merge)
    requires TablesOk(db, h) && MergeKnows(db, h, p) && MergeStep(db, p, db', p')
    requires p.CreateMerge? || p.WriteMerged? || p.PublishMerge?
    ensures MergeKnows(db', NoteMerge(h, p), p')
  {
    if p.CreateMerge? {
      ChoicesStable(db, db', p.req.project, p.tree);
    } else if p.WriteMerged? {
      MergeLearnsTree(db, h, p, db', p');
    }
  }

  lemma MergeLearnsTree(db: Db, h: Trail, p: Merge, db': Db, p': Merge)
    requires TablesOk(db, h) && MergeKnows(db, h, p) && MergeStep(db, p, db', p') && p.WriteMerged?
    ensures MergeKnows(db', NoteMerge(h, p), p')
  {
    SealedMergeFits(db, h, p.req.project, p.commit, p.tree, db');
  }

  // ---- a whole step ----

  ghost predicate Good(db: Db, h: Trail) {
    TablesOk(db, h) && HeadsOk(db, h)
  }

  lemma PushStepKeeps(db: Db, h: Trail, p: Push, db': Db, p': Push)
    requires Good(db, h) && PushKnows(db, h, p) && PushStep(db, p, db', p')
    requires Grows(db, h, db', NotePush(h, p), Touches(OfPush(p)))
    ensures Good(db', NotePush(h, p)) && PushKnows(db', NotePush(h, p), p')
  {
    PushKeepsTables(db, h, p, db', p');
    PushKeepsHeads(db, h, p, db', p');
    if p.WriteTree? || p.Count? || p.Publish? {
      PushLearnsEnding(db, h, p, db', p');
    } else if p.Upsert? || p.WriteVersion? {
      PushLearnsBuilding(db, h, p, db', p');
    } else {
      PushLearnsReading(db, h, p, db', p');
    }
  }

  lemma MergeStepKeeps(db: Db, h: Trail, p: Merge, db': Db, p': Merge)
    requires Good(db, h) && MergeKnows(db, h, p) && MergeStep(db, p, db', p')
    requires Grows(db, h, db', NoteMerge(h, p), Touches(OfMerge(p)))
    ensures Good(db', NoteMerge(h, p)) && MergeKnows(db', NoteMerge(h, p), p')
  {
    if p.CreateMerge? { assert HeadOk(db, h, Head(p.req.project, p.note.source)); }
    MergeKeepsTables(db, h, p, db', p');
    MergeKeepsHeads(db, h, p, db', p');
    if p.FindSource? || p.FindTarget? || p.TestAncestor? || p.FindBase? || p.ReadBase?
      || p.ReadSource? || p.ReadTarget?
    {
      MergeLearnsReading(db, h, p, db', p');
    } else if p.AgainSource? || p.AgainTarget? || p.Forward? || p.ReadAgain? {
      MergeLearnsAgain(db, h, p, db', p');
    } else {
      MergeLearnsWriting(db, h, p, db', p');
    }
  }

  lemma BranchStepKeeps(db: Db, h: Trail, p: Branch, db': Db, p': Branch)
    requires Good(db, h) && ProcKnows(db, h, OfBranch(p)) && BranchStep(db, p, db', p')
    ensures Good(db', NoteStep(h, db, OfBranch(p)))
    ensures ProcKnows(db', NoteStep(h, db, OfBranch(p)), OfBranch(p'))
  {
    if p.SetBranch? {
      HeadsTakeOldHead(db, h, RefKey(p.project, p.name), p.commit);
      TablesFrame(db, h, db', NoteStep(h, db, OfBranch(p)));
    }
  }

  /** Uploads and locks leave the versioned tables alone. */
  lemma SideStepKeeps(db: Db, h: Trail, db': Db, h': Trail)
    requires Good(db, h)
    requires db' == db.(chunks := db'.chunks, blobs := db'.blobs, locks := db'.locks)
    requires h' == h.(storedAfter := h'.storedAfter)
    ensures Good(db', h')
  {
    TablesFrame(db, h, db', h');
    HeadsFrame(db, h, db', h', {});
  }

  lemma UploadStepKeeps(db: Db, h: Trail, p: Upload, db': Db, p': Upload)
    requires Good(db, h) && UploadStep(db, p, db', p')
    ensures Good(db', NoteStep(h, db, OfUpload(p)))
  {
    SideStepKeeps(db, h, db', NoteStep(h, db, OfUpload(p)));
  }

  lemma LockStepKeeps(db: Db, h: Trail, p: Locking, db': Db, p': Locking)
    requires Good(db, h) && LockStep(db, p, db', p')
    ensures Good(db', h)
  {
    SideStepKeeps(db, h, db', h);
  }

  lemma StepKeeps(db: Db, h: Trail, p: Proc, db': Db, p': Proc)
    requires Good(db, h) && ProcKnows(db, h, p) && ProcStep(db, p, db', p')
    ensures Good(db', NoteStep(h, db, p)) && ProcKnows(db', NoteStep(h, db, p), p')
    ensures Grows(db, h, db', NoteStep(h, db, p), Touches(p))
  {
    KnowsGuarded(db, h, p);
    StepGrows(db, h, p, db', p');
    match p
    case OfPush(q) => PushStepKeeps(db, h, q, db', p'.push);
    case OfMerge(q) => MergeStepKeeps(db, h, q, db', p'.merge);
    case OfBranch(q) => BranchStepKeeps(db, h, q, db', p'.branch);
    case OfUpload(q) => UploadStepKeeps(db, h, q, db', p'.upload);
    case OfLocking(q) => LockStepKeeps(db, h, q, db', p'.locking);
  }
}
