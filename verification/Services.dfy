/** The services, in the order in which they call the stores. Each returns the run of its
    request's process that its store calls made; an early error leaves a shorter run. */
module Services {
  import opened Tables
  import opened Ancestry
  import opened Merging
  import opened Requests
  import opened Serial
  import opened Solo
  import opened Stores

  datatype Error =
    | CommitConflict | BranchNotFound | SameBranch | NoMergeBase
    | UnresolvedConflicts | InvalidResolution
    | BranchExists | FileLocked | LockNotFound
    | ChunkTooLarge | ChunkHashMismatch | ChunkNotFound
    | StoreFailed

  datatype Result<T> = Success(value: T) | Failure(error: Error)

  // ---- clock and ids ----

  /** The clock, as far as the services rely on it: now is after every stored stamp. */
  method Now(store: Store) returns (now: int)
    ensures Later(store.Model(), now)
  {
    now := *;
    var todo := store.commits.Keys;
    while todo != {}
      invariant todo <= store.commits.Keys
      invariant forall c :: c in store.commits.Keys - todo ==> store.commits[c].createdAt < now
    {
      var c :| c in todo;
      if now <= store.commits[c].createdAt { now := store.commits[c].createdAt + 1; }
      todo := todo - {c};
    }
  }

  /** Any id at all, since the primary keys refuse one that is taken; with luck a new one. */
  method GenerateUUID(taken: set<nat>, lucky: bool) returns (id: nat)
    ensures lucky ==> id !in taken
  {
    id := *;
    if !lucky { return; }
    var todo := taken;
    while todo != {}
      invariant todo <= taken
      invariant forall x :: x in taken ==> x in todo || x < id
    {
      var x :| x in todo;
      if id <= x { id := x + 1; }
      todo := todo - {x};
    }
  }

  // ---- loops over rows ----

  /** Writes rows into a map one after the other. */
  method PutRows(m: Snapshot, rows: seq<Entry>) returns (m': Snapshot)
    ensures m' == Overlay(m, rows)
  {
    m' := m;
    for i := 0 to |rows|
      invariant m' == Overlay(m, rows[..i])
    {
      assert rows[..i + 1][..i] == rows[..i];
      m' := m'[rows[i].file := rows[i].version];
    }
    assert rows[..|rows|] == rows;
  }

  lemma RowsRebuildMap(rows: seq<Entry>, m: Snapshot)
    requires Enumerates(rows, m.Keys, m)
    ensures Overlay(map[], rows) == m
  {
    OverlayPointwise(map[], rows, m.Keys, m);
  }

  /** snapshotMap: the listed rows as a map again. */
  method SnapshotMap(rows: seq<Entry>, ghost m: Snapshot) returns (m': Snapshot)
    requires Enumerates(rows, m.Keys, m)
    ensures m' == m
  {
    m' := PutRows(map[], rows);
    RowsRebuildMap(rows, m);
  }

  /** Concatenates the manifests' hashes, repeats and all. */
  method CollectHashes(files: seq<FileEntry>) returns (hashes: seq<Hash>)
    ensures hashes == AllHashes(files)
  {
    hashes := [];
    for i := 0 to |files|
      invariant hashes == AllHashes(files[..i])
    {
      assert files[..i + 1][..i] == files[..i];
      hashes := hashes + files[i].manifest.chunks;
    }
    assert files[..|files|] == files;
  }

  // ---- pushes ----

  predicate Unpushed(p: Proc) {
    p.OfPush? && !p.push.Pushed?
  }

  /** The upsert with a new id, which a known path does not take. */
  method EnsureFile(store: Store, key: FileKey) returns (ok: bool, ghost id: FileId)
    modifies store
    ensures ok ==> CanUpsertFile(old(store.Model()), key, id)
    ensures ok ==> store.Model() == UpsertFile(old(store.Model()), key, id)
    ensures !ok ==> store.Model() == old(store.Model())
    ensures store.reliable ==> ok
  {
    var f := GenerateUUID(store.files.Values, store.reliable);
    ok := store.Upsert(key, f);
    id := f;
  }

  /** Upserts the file, then looks up the id it has. */
  method UpsertFileOf(store: Store, req: PushReq, c: CommitId, i: nat, tree: Snapshot, ghost run: seq<State>)
    returns (f: Option<FileId>, ghost run': seq<State>)
    requires i < |req.files|
    requires SoloRun(run) && Last(run).db == store.Model() && Last(run).proc == OfPush(Upsert(req, c, i, tree))
    modifies store
    ensures SoloRun(run') && run'[0] == run[0] && Last(run').db == store.Model()
    ensures f.Some? ==>
      && Last(run').proc == OfPush(Lookup(req, c, i, tree))
      && KeyOf(req, i) in store.Model().files && store.Model().files[KeyOf(req, i)] == f.value
    ensures f.None? ==> Unpushed(Last(run').proc)
    ensures store.reliable ==> f.Some?
    ensures store.commits == old(store.commits) && store.chunks == old(store.chunks)
  {
    run' := run;
    var ok;
    ghost var id;
    ok, id := EnsureFile(store, KeyOf(req, i));
    assert store.commits == store.Model().commits && store.chunks == store.Model().chunks;
    if !ok { return None, run'; }
    UpsertAdvances(Last(run').db, store.Model(), req, c, i, tree, id);
    run' := Then(run', store.Model(), OfPush(Lookup(req, c, i, tree)));
    f := store.GetByPath(KeyOf(req, i));
  }

  lemma UpsertAdvances(db: Db, db': Db, req: PushReq, c: CommitId, i: nat, tree: Snapshot, id: FileId)
    requires i < |req.files| && CanUpsertFile(db, KeyOf(req, i), id) && db' == UpsertFile(db, KeyOf(req, i), id)
    ensures ProcStep(db, OfPush(Upsert(req, c, i, tree)), db', OfPush(Lookup(req, c, i, tree)))
  {
  }

  /** One turn of the file loop: find the file's id, write its new version. */
  method WriteFile(store: Store, req: PushReq, c: CommitId, i: nat, tree: Snapshot, ghost run: seq<State>)
    returns (tree': Snapshot, ok: bool, ghost run': seq<State>)
    requires i < |req.files|
    requires SoloRun(run) && Last(run).db == store.Model() && Last(run).proc == OfPush(Upsert(req, c, i, tree))
    modifies store
    ensures SoloRun(run') && run'[0] == run[0] && Last(run').db == store.Model()
    ensures ok ==> Last(run').proc == OfPush(Upsert(req, c, i + 1, tree'))
    ensures !ok ==> Unpushed(Last(run').proc)
    ensures store.reliable && c in store.commits ==> ok
    ensures store.commits == old(store.commits) && store.chunks == old(store.chunks)
  {
    var f;
    f, run' := UpsertFileOf(store, req, c, i, tree, run);
    tree' := tree;
    if f.None? { return tree', false, run'; }
    var v := GenerateUUID(store.versions.Keys + {ABSENT}, store.reliable);
    run' := Then(run', store.Model(), OfPush(WriteVersion(req, c, i, tree, f.value, v)));
    ok := store.CreateVersionRow(v, Version(f.value, c, req.files[i].manifest));
    if !ok { return; }
    tree' := tree[f.value := v];
    run' := Then(run', store.Model(), OfPush(Upsert(req, c, i + 1, tree')));
  }

  /** The loop of CreateCommit over the pushed files. */
  method WriteFiles(store: Store, req: PushReq, c: CommitId, tree: Snapshot, ghost run: seq<State>)
    returns (tree': Snapshot, ok: bool, ghost run': seq<State>)
    requires SoloRun(run) && Last(run).db == store.Model() && Last(run).proc == OfPush(Upsert(req, c, 0, tree))
    modifies store
    ensures SoloRun(run') && run'[0] == run[0] && Last(run').db == store.Model()
    ensures ok ==> Last(run').proc == OfPush(Upsert(req, c, |req.files|, tree'))
    ensures !ok ==> Unpushed(Last(run').proc)
    ensures store.reliable && c in store.commits ==> ok
    ensures store.commits == old(store.commits) && store.chunks == old(store.chunks)
  {
    tree', ok, run' := tree, true, run;
    for i := 0 to |req.files|
      invariant SoloRun(run') && run'[0] == run[0] && Last(run').db == store.Model()
      invariant ok && Last(run').proc == OfPush(Upsert(req, c, i, tree'))
      invariant store.commits == old(store.commits) && store.chunks == old(store.chunks)
    {
      tree', ok, run' := WriteFile(store, req, c, i, tree', run');
      if !ok { return; }
    }
  }

  /** Every stored chunk that some file lists has one count more, every other as many. */
  ghost predicate Counted(chunks: map<Hash, int>, files: seq<FileEntry>, chunks': map<Hash, int>) {
    && chunks'.Keys == chunks.Keys
    && forall h :: h in chunks ==>
         chunks'[h] == chunks[h] + if ListsChunk(files, h) then 1 else 0
  }

  /** One increment for all the chunks of a push, if it has any. */
  method CountChunks(store: Store, files: seq<FileEntry>) returns (ok: bool)
    modifies store
    ensures store.Model() ==
      if !ok || AllHashes(files) == [] then old(store.Model())
      else IncrementChunks(old(store.Model()), Mentions(files))
    ensures if ok then Counted(old(store.chunks), files, store.chunks) else store.chunks == old(store.chunks)
    ensures store.reliable ==> ok
  {
    ok := true;
    var hashes := CollectHashes(files);
    forall h ensures h in hashes <==> ListsChunk(files, h) { HashesAreListed(files, h); }
    if hashes != [] { ok := store.IncrementRefCount(hashes); }
  }

  /** The snapshot, then the counts. */
  method SealPush(store: Store, req: PushReq, c: CommitId, tree: Snapshot, ghost run: seq<State>)
    returns (ok: bool, ghost run': seq<State>)
    requires SoloRun(run) && Last(run).db == store.Model() && Last(run).proc == OfPush(WriteTree(req, c, tree))
    modifies store
    ensures SoloRun(run') && run'[0] == run[0] && Last(run').db == store.Model()
    ensures ok ==> Last(run').proc == OfPush(Publish(req, c))
    ensures !ok ==> Unpushed(Last(run').proc)
    ensures store.reliable && CanSetFiles(old(store.Model()), c, tree) ==> ok
    ensures if ok then Counted(old(store.chunks), req.files, store.chunks) else store.chunks == old(store.chunks)
    ensures store.commits == old(store.commits)
  {
    run' := run;
    ok := store.SetCommitFiles(c, tree);
    assert store.chunks == store.Model().chunks && store.commits == store.Model().commits;
    if !ok { return; }
    run' := Then(run', store.Model(), OfPush(Count(req, c)));
    ok := CountChunks(store, req.files);
    assert store.commits == store.Model().commits;
    if !ok { return; }
    run' := Then(run', store.Model(), OfPush(Publish(req, c)));
  }

  /** The writes after the file loop: snapshot, counts, ref. A push that is served has
      counted every chunk of every file it lists once, and one that is not has counted all
      of them or none. */
  method FinishPush(store: Store, req: PushReq, c: CommitId, tree: Snapshot, ghost run: seq<State>)
    returns (ok: bool, ghost run': seq<State>)
    requires SoloRun(run) && Last(run).db == store.Model() && Last(run).proc == OfPush(WriteTree(req, c, tree))
    modifies store
    ensures SoloRun(run') && run'[0] == run[0] && Last(run').db == store.Model()
    ensures ok ==> Last(run').proc == OfPush(Pushed(req, c))
    ensures !ok ==> Unpushed(Last(run').proc)
    ensures store.reliable && CanSetFiles(old(store.Model()), c, tree) && c in old(store.commits) ==> ok
    ensures ok ==> Counted(old(store.chunks), req.files, store.chunks)
    ensures store.chunks == old(store.chunks) || Counted(old(store.chunks), req.files, store.chunks)
  {
    ok, run' := SealPush(store, req, c, tree, run);
    if !ok { return; }
    if req.ref != "" {
      ok := store.UpsertRef(RefKey(req.project, req.ref), c);
      assert store.chunks == store.Model().chunks;
      if !ok { return; }
    }
    run' := Then(run', store.Model(), OfPush(Pushed(req, c)));
  }

  /** The optimistic check of CreateCommit. */
  method CheckParent(store: Store, req: PushReq) returns (ok: bool)
    ensures ok <==> ParentMatches(store.Model().refs, req)
    ensures ok <==> req.ref == "" || (if RefKey(req.project, req.ref) in store.refs
                                      then req.parent == Some(store.refs[RefKey(req.project, req.ref)])
                                      else req.parent == None)
  {
    ok := true;
    if req.ref != "" {
      var head := store.GetRef(RefKey(req.project, req.ref));
      if head.Some? && (req.parent.None? || req.parent.value != head.value) { return false; }
      if head.None? && req.parent.Some? { return false; }
    }
  }

  /** A commit row with a new id, stamped now. */
  method InsertCommit(store: Store, project: ProjectId, parents: seq<CommitId>)
    returns (c: CommitId, now: int, ok: bool)
    modifies store
    ensures Later(old(store.Model()), now)
    ensures ok ==>
      && CanCreateCommit(old(store.Model()), c, Commit(project, parents, now))
      && store.Model() == Tables.CreateCommit(old(store.Model()), c, Commit(project, parents, now))
    ensures !ok ==> store.Model() == old(store.Model())
    ensures store.chunks == old(store.chunks)
    ensures store.reliable && (parents != [] ==> parents[0] in old(store.Model()).commits) ==> ok
  {
    now := Now(store);
    c := GenerateUUID(store.commits.Keys, store.reliable);
    ok := store.CreateCommitRow(c, Commit(project, parents, now));
  }

  /** The commit row of a push. */
  method OpenCommit(store: Store, req: PushReq, ghost run: seq<State>)
    returns (c: CommitId, ok: bool, ghost run': seq<State>)
    requires SoloRun(run) && Last(run).db == store.Model() && Last(run).proc == OfPush(Check(req))
    requires ParentMatches(store.Model().refs, req)
    modifies store
    ensures SoloRun(run') && run'[0] == run[0] && Last(run').db == store.Model()
    ensures ok ==> Last(run').proc == OfPush(ReadParent(req, c)) && c in store.Model().commits
    ensures store.chunks == old(store.chunks)
    ensures !ok ==> Unpushed(Last(run').proc)
    ensures store.reliable && (req.parent.Some? ==> req.parent.value in old(store.Model()).commits) ==> ok
  {
    run' := run;
    var parents := if req.parent.Some? then [req.parent.value] else [];
    var now;
    c, now, ok := InsertCommit(store, req.project, parents);
    if ok { run' := PushOpens(run, req, c, now, store.Model()); }
  }

  lemma PushOpens(run: seq<State>, req: PushReq, c: CommitId, now: int, db': Db) returns (run': seq<State>)
    requires SoloRun(run) && Last(run).proc == OfPush(Check(req)) && ParentMatches(Last(run).db.refs, req)
    requires Later(Last(run).db, now) && CanCreateCommit(Last(run).db, c, Commit(req.project, ParentIds(req), now))
    requires db' == Tables.CreateCommit(Last(run).db, c, Commit(req.project, ParentIds(req), now))
    ensures SoloRun(run') && run'[0] == run[0] && Last(run').db == db' && Last(run').proc == OfPush(ReadParent(req, c))
  {
    run' := Then(run, Last(run).db, OfPush(Create(req, c, now)));
    run' := Then(run', db', OfPush(ReadParent(req, c)));
  }

  /** The parent's snapshot, to start from. */
  method ReadParentTree(store: Store, req: PushReq) returns (tree: Snapshot)
    ensures tree == ParentTree(store.Model(), req)
  {
    tree := map[];
    if req.parent.Some? {
      var rows := store.GetCommitSnapshot(req.parent.value);
      tree := SnapshotMap(rows, SnapOf(store.Model(), req.parent.value));
    }
  }

  /** From the commit row to the ref. */
  method FillCommit(store: Store, req: PushReq, c: CommitId, ghost run: seq<State>)
    returns (ok: bool, ghost run': seq<State>)
    requires SoloRun(run) && Last(run).db == store.Model() && Last(run).proc == OfPush(ReadParent(req, c))
    requires c in store.Model().commits
    modifies store
    ensures SoloRun(run') && run'[0] == run[0] && Last(run').db == store.Model()
    ensures ok ==> Last(run').proc == OfPush(Pushed(req, c))
    ensures !ok ==> Unpushed(Last(run').proc)
    ensures store.reliable && req.ref != "" && Sound(run[0]) ==> ok
    ensures ok ==> Counted(old(store.chunks), req.files, store.chunks)
    ensures store.chunks == old(store.chunks) || Counted(old(store.chunks), req.files, store.chunks)
  {
    var tree := ReadParentTree(store, req);
    run' := Then(run, store.Model(), OfPush(Upsert(req, c, 0, tree)));
    tree, ok, run' := WriteFiles(store, req, c, tree, run');
    if !ok { return; }
    run' := Then(run', store.Model(), OfPush(WriteTree(req, c, tree)));
    if Sound(run'[0]) && req.ref != "" { PushCanWriteTree(run', req, c, tree); }
    ok, run' := FinishPush(store, req, c, tree, run');
  }

  /** Refused as a conflict exactly when the parent does not match the branch. A push to a
      branch that matches fails for nothing but the store. */
  method CreateCommit(store: Store, req: PushReq, ghost before: seq<State>)
    returns (r: Result<CommitId>, ghost run: seq<State>)
    requires SoloRun(before) && Last(before).db == store.Model() && Last(before).proc == OfPush(Check(req))
    modifies store
    ensures SoloRun(run) && run[0] == before[0] && Last(run).db == store.Model()
    ensures r.Success? ==> Last(run).proc == OfPush(Pushed(req, r.value))
    ensures r.Failure? ==> Unpushed(Last(run).proc)
    ensures r.Failure? ==> r.error == CommitConflict || r.error == StoreFailed
    ensures r == Failure(CommitConflict) <==> !ParentMatches(old(store.Model()).refs, req)
    ensures req.ref == "" ==> r != Failure(CommitConflict)
    ensures req.ref != "" ==>
      var key := RefKey(req.project, req.ref);
      (r == Failure(CommitConflict) <==>
         if key in old(store.refs) then req.parent != Some(old(store.refs)[key]) else req.parent.Some?)
    ensures r == Failure(CommitConflict) ==> store.Model() == old(store.Model())
    ensures store.reliable && req.ref != "" && Sound(before[0]) ==> r != Failure(StoreFailed)
    ensures r.Success? ==> Counted(old(store.chunks), req.files, store.chunks)
    ensures store.chunks == old(store.chunks) || Counted(old(store.chunks), req.files, store.chunks)
  {
    run := before;
    var ok := CheckParent(store, req);
    if !ok { return Failure(CommitConflict), run; }
    var c;
    if Sound(before[0]) && req.ref != "" { PushCanCreate(before, req); }
    c, ok, run := OpenCommit(store, req, run);
    if !ok { return Failure(StoreFailed), run; }
    ok, run := FillCommit(store, req, c, run);
    if !ok { return Failure(StoreFailed), run; }
    r := Success(c);
  }

  /** The lock gate in front of CreateCommit. */
  method PushCommit(store: Store, req: PushReq, ghost h: Trail) returns (r: Result<CommitId>, ghost run: seq<State>)
    modifies store
    ensures SoloRun(run) && run[0] == State(old(store.Model()), h, OfPush(Gate(req)))
    ensures Last(run).db == store.Model()
    ensures r.Success? ==> Last(run).proc == OfPush(Pushed(req, r.value))
    ensures r.Failure? ==> Unpushed(Last(run).proc)
    ensures r == Failure(FileLocked) <==> !GateOpen(old(store.Model()).locks, req)
    ensures r == Failure(FileLocked) <==>
      exists i :: 0 <= i < |req.files|
        && FileKey(req.project, req.files[i].path) in old(store.locks)
        && old(store.locks)[FileKey(req.project, req.files[i].path)] != req.author
    ensures r == Failure(FileLocked) ==> store.Model() == old(store.Model())
    ensures r.Success? && req.ref != "" && Healthy(old(store.Model()), h) ==>
      PushTookEffect(store.Model(), req, r.value)
    ensures r.Success? ==> Counted(old(store.chunks), req.files, store.chunks)
    ensures store.reliable && req.ref != "" && Healthy(old(store.Model()), h) ==>
      (r.Success? <==> GateOpen(old(store.Model()).locks, req) && ParentMatches(old(store.Model()).refs, req))
  {
    run := [State(store.Model(), h, OfPush(Gate(req)))];
    var paths: seq<Path> := [];
    for i := 0 to |req.files|
      invariant |paths| == i && forall j :: 0 <= j < i ==> paths[j] == req.files[j].path
    {
      paths := paths + [req.files[i].path];
    }
    var conflicting := store.CheckPaths(req.project, paths, req.author);
    GateIsConflicts(store.Model(), req, paths, conflicting);
    GateMeans(store.locks, req);
    if conflicting != [] { return Failure(FileLocked), run; }
    run := Then(run, store.Model(), OfPush(Check(req)));
    r, run := CreateCommit(store, req, run);
    if r.Success? && req.ref != "" && Healthy(run[0].db, h) { ServedPushTakesEffect(run, req, r.value); }
  }

  lemma GateMeans(locks: map<FileKey, UserId>, req: PushReq)
    ensures !GateOpen(locks, req) <==>
      exists i :: 0 <= i < |req.files|
        && FileKey(req.project, req.files[i].path) in locks
        && locks[FileKey(req.project, req.files[i].path)] != req.author
  {
    if !GateOpen(locks, req) {
      var i :| 0 <= i < |req.files| && LockedOut(locks, req, i);
      assert FileKey(req.project, req.files[i].path) in locks;
    }
    if i :| 0 <= i < |req.files| && FileKey(req.project, req.files[i].path) in locks
            && locks[FileKey(req.project, req.files[i].path)] != req.author
    {
      assert LockedOut(locks, req, i);
    }
  }

  lemma GateIsConflicts(db: Db, req: PushReq, paths: seq<Path>, conflicting: seq<FileKey>)
    requires |paths| == |req.files| && forall j :: 0 <= j < |paths| ==> paths[j] == req.files[j].path
    requires forall k :: k in conflicting <==>
      k in db.locks && k.project == req.project && k.path in paths && db.locks[k] != req.author
    ensures GateOpen(db.locks, req) <==> conflicting == []
  {
    if conflicting != [] {
      var k := conflicting[0];
      assert k in conflicting;
      var j :| 0 <= j < |paths| && paths[j] == k.path;
      assert KeyOf(req, j) == k;
      assert LockedOut(db.locks, req, j);
    }
    forall i | 0 <= i < |req.files| && LockedOut(db.locks, req, i)
      ensures KeyOf(req, i) in conflicting
    {
      assert paths[i] in paths;
    }
  }

  // ---- merges ----

  predicate Unmerged(p: Proc) {
    p.OfMerge? && !p.merge.Merged? && !p.merge.Forwarded?
  }

  /** Analyze, from the two refs to the classified files; without errors the run stands
      where Execute reads the refs again. */
  method Analyze(store: Store, req: MergeReq, ghost h: Trail) returns (r: Result<Analysis>, ghost run: seq<State>)
    ensures SoloRun(run) && run[0] == State(store.Model(), h, OfMerge(FindSource(req)))
    ensures Last(run).db == store.Model()
    ensures r.Success? ==> Last(run).proc == OfMerge(AgainSource(req, r.value))
    ensures r.Success? ==> req.source != req.target && Analyzed(store.Model(), req, r.value)
    ensures r.Failure? ==> Unmerged(Last(run).proc)
    ensures r.Failure? ==> r.error == SameBranch || r.error == BranchNotFound || r.error == NoMergeBase
    ensures r == Failure(SameBranch) <==> req.source == req.target
    ensures r == Failure(BranchNotFound) <==> req.source != req.target && !HasBoth(store.Model().refs, req)
    ensures r == Failure(NoMergeBase) <==>
      req.source != req.target && HasBoth(store.Model().refs, req)
      && var s, t := store.Model().refs[SourceKey(req)], store.Model().refs[TargetKey(req)];
         !Reaches(store.Model().commits, s, t) && Common(store.Model().commits, s, t) == {}
    ensures r == Failure(NoMergeBase) ==>
      forall c :: !(Reaches(store.Model().commits, store.Model().refs[SourceKey(req)], c)
                    && Reaches(store.Model().commits, store.Model().refs[TargetKey(req)], c))
  {
    run := [State(store.Model(), h, OfMerge(FindSource(req)))];
    if req.source == req.target { return Failure(SameBranch), run; }
    var s := store.GetRef(SourceKey(req));
    if s.None? { return Failure(BranchNotFound), run; }
    run := Then(run, store.Model(), OfMerge(FindTarget(req, s.value)));
    var t := store.GetRef(TargetKey(req));
    if t.None? { return Failure(BranchNotFound), run; }
    run := Then(run, store.Model(), OfMerge(TestAncestor(req, s.value, t.value)));
    var forward := store.IsAncestor(t.value, s.value);
    if forward {
      var ana := Analysis(FastForward, t.value, [], [], [], 0);
      run := Then(run, store.Model(), OfMerge(AgainSource(req, ana)));
      return Success(ana), run;
    }
    run := Then(run, store.Model(), OfMerge(FindBase(req, s.value, t.value)));
    var base := store.FindMergeBase(s.value, t.value);
    if base.None? { return Failure(NoMergeBase), run; }
    run := Then(run, store.Model(), OfMerge(ReadBase(req, s.value, t.value, base.value)));
    var ana: Analysis;
    ana, run := CompareSnapshots(store, req, s.value, t.value, base.value, run);
    r := Success(ana);
  }

  /** The report of the handler: on a healthy database it is right about the snapshots of the
      two heads and of their base. */
  method AnalyzeMerge(store: Store, req: MergeReq, ghost h: Trail) returns (r: Result<Analysis>, ghost run: seq<State>)
    ensures r.Success? ==> Analyzed(store.Model(), req, r.value)
    ensures Healthy(store.Model(), h) && r.Success? && r.value.kind != FastForward ==>
      Reported(store.Model(), req, r.value)
  {
    r, run := Analyze(store, req, h);
    if r.Success? { AnalyzedIsReported(store.Model(), h, req, r.value); }
  }

  ghost predicate Reported(db: Db, req: MergeReq, ana: Analysis) {
    var sourceKey, targetKey := RefKey(req.project, req.source), RefKey(req.project, req.target);
    && sourceKey in db.refs && targetKey in db.refs
    && Describes(SnapOf(db, ana.base), SnapOf(db, db.refs[sourceKey]), SnapOf(db, db.refs[targetKey]), ana)
  }

  lemma AnalyzedIsReported(db: Db, h: Trail, req: MergeReq, ana: Analysis)
    requires Analyzed(db, req, ana)
    ensures Healthy(db, h) && ana.kind != FastForward ==> Reported(db, req, ana)
  {
    if Healthy(db, h) && ana.kind != FastForward {
      var s, t := db.refs[SourceKey(req)], db.refs[TargetKey(req)];
      MergeHeads(db, h, req.project, s, t, ana.base);
      AnalysisDescribes(SnapOf(db, ana.base), SnapOf(db, s), SnapOf(db, t), ana);
    }
  }

  function SourceKey(req: MergeReq): RefKey { RefKey(req.project, req.source) }

  function TargetKey(req: MergeReq): RefKey { RefKey(req.project, req.target) }

  predicate HasBoth(refs: map<RefKey, CommitId>, req: MergeReq) {
    SourceKey(req) in refs && TargetKey(req) in refs
  }

  /** What Analyze promises: the target lies in the source's history and the merge is a
      fast-forward, or the three snapshots at the heads and their merge base are classified. */
  ghost predicate Analyzed(db: Db, req: MergeReq, ana: Analysis) {
    HasBoth(db.refs, req)
    && var s, t := db.refs[SourceKey(req)], db.refs[TargetKey(req)];
       if Reaches(db.commits, s, t) then
         ana.kind == FastForward && ana.base == t
       else
         && IsMergeBase(db.commits, s, t, ana.base)
         && IsAnalysis(TreeOf(db, ana.base), TreeOf(db, s), TreeOf(db, t), ana)
  }

  /** Reads the three snapshots and classifies every file. */
  method CompareSnapshots(store: Store, req: MergeReq, s: CommitId, t: CommitId, b: CommitId, ghost run: seq<State>)
    returns (ana: Analysis, ghost run': seq<State>)
    requires SoloRun(run) && Last(run).db == store.Model() && Last(run).proc == OfMerge(ReadBase(req, s, t, b))
    ensures SoloRun(run') && run'[0] == run[0] && Last(run').db == store.Model()
    ensures Last(run').proc == OfMerge(AgainSource(req, ana)) && ana.base == b
    ensures IsAnalysis(TreeOf(store.Model(), b), TreeOf(store.Model(), s), TreeOf(store.Model(), t), ana)
  {
    var baseRows := store.GetCommitSnapshotWithPaths(b);
    var sourceRows := store.GetCommitSnapshotWithPaths(s);
    var targetRows := store.GetCommitSnapshotWithPaths(t);
    var baseMap := SnapshotMap(baseRows, TreeOf(store.Model(), b));
    var sourceMap := SnapshotMap(sourceRows, TreeOf(store.Model(), s));
    var targetMap := SnapshotMap(targetRows, TreeOf(store.Model(), t));
    run' := Then(run, store.Model(), OfMerge(ReadSource(req, s, t, b, baseMap)));
    run' := Then(run', store.Model(), OfMerge(ReadTarget(req, s, t, b, baseMap, sourceMap)));
    ana := AnalyzeSnapshots(b, baseMap, sourceMap, targetMap);
    run' := Then(run', store.Model(), OfMerge(AgainSource(req, ana)));
  }

  /** The first conflict that is not covered, in the order of the list. */
  predicate FirstUncovered(ana: Analysis, res: seq<Resolution>, k: nat) {
    && k < |ana.conflicts| && !Covers(res, ana.conflicts[k])
    && forall j :: 0 <= j < k ==> Covers(res, ana.conflicts[j])
  }

  /** Not as many resolutions as conflicts, or the first conflict not covered has none. */
  ghost predicate LeavesOpen(ana: Analysis, res: seq<Resolution>) {
    && ana.kind == Conflicted
    && (|res| != |ana.conflicts|
        || exists k: nat :: FirstUncovered(ana, res, k) && ana.conflicts[k].file !in Chosen(res))
  }

  /** As many resolutions as conflicts, and the first conflict not covered has one that is
      none of its versions. */
  ghost predicate PicksForeign(ana: Analysis, res: seq<Resolution>) {
    && ana.kind == Conflicted && |res| == |ana.conflicts|
    && exists k: nat :: FirstUncovered(ana, res, k) && ana.conflicts[k].file in Chosen(res)
  }

  /** The resolution checks of Execute. */
  method CheckResolutions(ana: Analysis, res: seq<Resolution>) returns (error: Option<Error>)
    ensures error.None? <==> Accepted(ana, res)
    ensures error == Some(UnresolvedConflicts) <==> LeavesOpen(ana, res)
    ensures error == Some(InvalidResolution) <==> PicksForeign(ana, res)
    ensures error.Some? ==> error.value == UnresolvedConflicts || error.value == InvalidResolution
  {
    if ana.kind != Conflicted { return None; }
    if |res| != |ana.conflicts| { return Some(UnresolvedConflicts); }
    var chosen := PutRows(map[], res);
    for i := 0 to |ana.conflicts|
      invariant forall j :: 0 <= j < i ==> Covers(res, ana.conflicts[j])
    {
      var c := ana.conflicts[i];
      assert c in ana.conflicts;
      if c.file !in chosen {
        assert FirstUncovered(ana, res, i);
        return Some(UnresolvedConflicts);
      }
      var v := chosen[c.file];
      if v != c.source && v != c.target && v != c.base {
        assert FirstUncovered(ana, res, i);
        return Some(InvalidResolution);
      }
    }
    error := None;
  }

  /** The target's snapshot, overlaid with the source's changes and the resolutions. */
  method MergeTrees(store: Store, req: MergeReq, ana: Analysis, t: CommitId) returns (tree: Snapshot)
    ensures tree == MergedTree(TreeOf(store.Model(), t), ana, req.resolutions)
  {
    var rows := store.GetCommitSnapshotWithPaths(t);
    tree := SnapshotMap(rows, TreeOf(store.Model(), t));
    tree := PutRows(tree, ana.sourceOnly);
    if ana.kind == Conflicted { tree := PutRows(tree, req.resolutions); }
  }

  /** The merge commit's row, with its two parents. */
  method OpenMergeCommit(store: Store, req: MergeReq, ana: Analysis, s: CommitId, t: CommitId, ghost run: seq<State>)
    returns (c: CommitId, ok: bool, ghost run': seq<State>)
    requires SoloRun(run) && Last(run).db == store.Model() && Last(run).proc == OfMerge(ReadAgain(req, ana, s, t))
    modifies store
    ensures SoloRun(run') && run'[0] == run[0] && Last(run').db == store.Model()
    ensures ok ==>
      && c in store.Model().commits
      && Last(run').proc == OfMerge(WriteMerged(req, MergeNote(s, t, ana.base, req.resolutions),
           MergedTree(TreeOf(old(store.Model()), t), ana, req.resolutions), c))
    ensures !ok ==> Unmerged(Last(run').proc)
    ensures ok ==> c !in old(store.Model()).commits && store.Model().commits[c].parents == [t, s]
    ensures store.Model().snaps == old(store.Model()).snaps && store.Model().refs == old(store.Model()).refs
    ensures store.reliable && t in old(store.Model()).commits ==> ok
  {
    run' := run;
    var now;
    c, now, ok := InsertCommit(store, req.project, [t, s]);
    if ok { run' := MergeOpens(run, req, ana, s, t, c, now, store.Model()); }
  }

  lemma MergeOpens(run: seq<State>, req: MergeReq, ana: Analysis, s: CommitId, t: CommitId, c: CommitId, now: int,
                   db': Db)
    returns (run': seq<State>)
    requires SoloRun(run) && Last(run).proc == OfMerge(ReadAgain(req, ana, s, t))
    requires Later(Last(run).db, now) && CanCreateCommit(Last(run).db, c, Commit(req.project, [t, s], now))
    requires db' == Tables.CreateCommit(Last(run).db, c, Commit(req.project, [t, s], now))
    ensures SoloRun(run') && run'[0] == run[0] && Last(run').db == db'
    ensures Last(run').proc == OfMerge(WriteMerged(req, MergeNote(s, t, ana.base, req.resolutions),
      MergedTree(TreeOf(Last(run).db, t), ana, req.resolutions), c))
  {
    var note := MergeNote(s, t, ana.base, req.resolutions);
    var tree := MergedTree(TreeOf(Last(run).db, t), ana, req.resolutions);
    run' := Then(run, Last(run).db, OfMerge(CreateMerge(req, note, tree, c, now)));
    run' := Then(run', db', OfMerge(WriteMerged(req, note, tree, c)));
  }

  /** The merge commit's snapshot, then the ref. */
  method PublishMergeCommit(store: Store, req: MergeReq, ghost note: MergeNote, tree: Snapshot, c: CommitId,
                            ghost run: seq<State>)
    returns (ok: bool, ghost run': seq<State>)
    requires SoloRun(run) && Last(run).db == store.Model()
    requires Last(run).proc == OfMerge(WriteMerged(req, note, tree, c)) && c in store.Model().commits
    modifies store
    ensures SoloRun(run') && run'[0] == run[0] && Last(run').db == store.Model()
    ensures ok ==> Last(run').proc == OfMerge(Merged(req, note, c))
    ensures !ok ==> Unmerged(Last(run').proc)
    ensures ok ==> CanSetFiles(old(store.Model()), c, tree)
    ensures store.reliable && CanSetFiles(old(store.Model()), c, tree) ==> ok
    ensures ok ==> store.Model().refs == old(store.Model()).refs[RefKey(req.project, req.target) := c]
    ensures store.Model().commits == old(store.Model()).commits
  {
    run' := run;
    ok := store.SetCommitFiles(c, tree);
    if !ok { return; }
    run' := Then(run', store.Model(), OfMerge(PublishMerge(req, note, c)));
    ok := store.UpsertRef(TargetKey(req), c);
    if !ok { return; }
    run' := Then(run', store.Model(), OfMerge(Merged(req, note, c)));
  }

  /** A new commit with the two heads as parents, target first, and the target branch at it. */
  ghost predicate Joined(db: Db, req: MergeReq, s: CommitId, t: CommitId, c: CommitId, db': Db) {
    && db'.refs == db.refs[RefKey(req.project, req.target) := c]
    && c !in db.commits && c in db'.commits && db'.commits[c].parents == [t, s]
  }

  /** From the validated analysis to the published merge commit. */
  method WriteMerge(store: Store, req: MergeReq, ana: Analysis, s: CommitId, t: CommitId, ghost run: seq<State>)
    returns (r: Result<CommitId>, ghost run': seq<State>)
    requires SoloRun(run) && Last(run).db == store.Model() && Last(run).proc == OfMerge(ReadAgain(req, ana, s, t))
    modifies store
    ensures SoloRun(run') && run'[0] == run[0] && Last(run').db == store.Model()
    ensures r.Success? ==>
      Last(run').proc == OfMerge(Merged(req, MergeNote(s, t, ana.base, req.resolutions), r.value))
    ensures r.Failure? ==> r.error == StoreFailed && Unmerged(Last(run').proc)
    ensures store.reliable && Sound(run[0]) ==>
      (r.Success? <==> NoEmptyChoice(old(store.Model()), MergeNote(s, t, ana.base, req.resolutions)))
    ensures r.Success? ==> Joined(old(store.Model()), req, s, t, r.value, store.Model())
  {
    ghost var note := MergeNote(s, t, ana.base, req.resolutions);
    var tree := MergeTrees(store, req, ana, t);
    if Sound(run[0]) { MergeCanCreate(run, req, ana, s, t); }
    var c, ok;
    c, ok, run' := OpenMergeCommit(store, req, ana, s, t, run);
    if !ok { return Failure(StoreFailed), run'; }
    if Sound(run[0]) { MergeCanWriteTree(run', req, note, tree, c); }
    SameSnapsSameChoices(old(store.Model()), store.Model(), note);
    ok, run' := PublishMergeCommit(store, req, note, tree, c, run');
    r := if ok then Success(c) else Failure(StoreFailed);
  }

  lemma SameSnapsSameChoices(db: Db, db': Db, note: MergeNote)
    requires db'.snaps == db.snaps
    ensures NoEmptyChoice(db', note) <==> NoEmptyChoice(db, note)
  {
    assert forall c :: SnapOf(db', c) == SnapOf(db, c);
  }

  /** A fast-forward creates no commit: the target moves to the source's head. */
  method MoveForward(store: Store, req: MergeReq, ana: Analysis, s: CommitId, t: CommitId, ghost run: seq<State>)
    returns (r: Result<CommitId>, ghost run': seq<State>)
    requires SoloRun(run) && Last(run).db == store.Model() && Last(run).proc == OfMerge(AgainTarget(req, ana, s))
    requires ana.kind == FastForward
    requires TargetKey(req) in store.Model().refs && store.Model().refs[TargetKey(req)] == t
    modifies store
    ensures SoloRun(run') && run'[0] == run[0] && Last(run').db == store.Model()
    ensures r.Success? ==> r.value == s && Last(run').proc == OfMerge(Forwarded(req, s))
    ensures r.Success? ==> store.Model() == SetRef(old(store.Model()), TargetKey(req), s)
    ensures r.Failure? ==> r.error == StoreFailed && Unmerged(Last(run').proc) && store.Model() == old(store.Model())
    ensures store.reliable && s in store.commits ==> r.Success?
  {
    run' := Then(run, store.Model(), OfMerge(Forward(req, s, t)));
    var ok := store.UpsertRef(TargetKey(req), s);
    if !ok { return Failure(StoreFailed), run'; }
    run' := Then(run', store.Model(), OfMerge(Forwarded(req, s)));
    r := Success(s);
  }

  /** Execute on diverged branches: the resolutions are checked, then the merge is written. */
  method MergeDiverged(store: Store, req: MergeReq, ana: Analysis, s: CommitId, t: CommitId, ghost run: seq<State>)
    returns (r: Result<CommitId>, ghost run': seq<State>)
    requires SoloRun(run) && Last(run).db == store.Model() && Last(run).proc == OfMerge(AgainTarget(req, ana, s))
    requires ana.kind != FastForward && TargetKey(req) in store.Model().refs && store.Model().refs[TargetKey(req)] == t
    modifies store
    ensures SoloRun(run') && run'[0] == run[0] && Last(run').db == store.Model()
    ensures r.Success? ==>
      Last(run').proc == OfMerge(Merged(req, MergeNote(s, t, ana.base, req.resolutions), r.value))
    ensures r.Failure? ==> Unmerged(Last(run').proc)
    ensures r.Success? ==> Joined(old(store.Model()), req, s, t, r.value, store.Model())
    ensures r.Failure? && r.error != StoreFailed <==> !Accepted(ana, req.resolutions)
    ensures r == Failure(UnresolvedConflicts) <==> LeavesOpen(ana, req.resolutions)
    ensures r == Failure(InvalidResolution) <==> PicksForeign(ana, req.resolutions)
    ensures r.Failure? ==> r.error == StoreFailed || r.error == UnresolvedConflicts || r.error == InvalidResolution
    ensures r == Failure(StoreFailed) && store.reliable && Sound(run[0]) ==>
      !NoEmptyChoice(old(store.Model()), MergeNote(s, t, ana.base, req.resolutions))
  {
    run' := run;
    var refused := CheckResolutions(ana, req.resolutions);
    if refused.Some? { return Failure(refused.value), run'; }
    run' := Then(run', store.Model(), OfMerge(ReadAgain(req, ana, s, t)));
    r, run' := WriteMerge(store, req, ana, s, t, run');
  }

  /** Why a merge was refused. */
  ghost predicate RefusedFor(db: Db, req: MergeReq, error: Error) {
    match error
    case SameBranch => req.source == req.target
    case BranchNotFound => req.source != req.target && !HasBoth(db.refs, req)
    case NoMergeBase =>
      HasBoth(db.refs, req) && Common(db.commits, db.refs[SourceKey(req)], db.refs[TargetKey(req)]) == {}
    case UnresolvedConflicts => exists ana :: Analyzed(db, req, ana) && LeavesOpen(ana, req.resolutions)
    case InvalidResolution => exists ana :: Analyzed(db, req, ana) && PicksForeign(ana, req.resolutions)
    case StoreFailed => exists ana :: Analyzed(db, req, ana) && Accepted(ana, req.resolutions)
    case _ => false
  }

  /** What a served merge did: moved the target to the source's head, or merged the two
      heads over their merge base. */
  ghost predicate Executed(db: Db, req: MergeReq, note: MergeNote, c: CommitId, db': Db, p: Proc) {
    && req.source != req.target && HasBoth(db.refs, req)
    && var s, t := db.refs[SourceKey(req)], db.refs[TargetKey(req)];
       if Reaches(db.commits, s, t) then
         && p == OfMerge(Forwarded(req, c)) && c == db.refs[RefKey(req.project, req.source)]
         && db' == db.(refs := db.refs[RefKey(req.project, req.target) := c])
       else
         && p == OfMerge(Merged(req, note, c))
         && note == MergeNote(s, t, note.base, req.resolutions) && IsMergeBase(db.commits, s, t, note.base)
         && Joined(db, req, s, t, c, db')
  }

  /** The two things that a reliable store refuses a merge for; a healthy one only the last. */
  ghost predicate StuckAtWrite(db: Db, req: MergeReq, note: MergeNote) {
    || (SourceKey(req) in db.refs && db.refs[SourceKey(req)] !in db.commits)
    || (Noted(db, req, note) && !NoEmptyChoice(db, note))
  }

  /** The note is of the two heads, the client's resolutions and the base of the analysis. */
  ghost predicate Noted(db: Db, req: MergeReq, note: MergeNote) {
    && HasBoth(db.refs, req)
    && note == MergeNote(db.refs[SourceKey(req)], db.refs[TargetKey(req)], note.base, req.resolutions)
    && !Reaches(db.commits, note.source, note.target) && IsMergeBase(db.commits, note.source, note.target, note.base)
  }

  /** Execute after the analysis. */
  method ExecuteAnalyzed(store: Store, req: MergeReq, ana: Analysis, ghost run: seq<State>)
    returns (r: Result<CommitId>, ghost note: MergeNote, ghost run': seq<State>)
    requires SoloRun(run) && Last(run).db == store.Model() && Last(run).proc == OfMerge(AgainSource(req, ana))
    requires req.source != req.target && Analyzed(store.Model(), req, ana)
    modifies store
    ensures SoloRun(run') && run'[0] == run[0] && Last(run').db == store.Model()
    ensures r.Success? ==> Executed(old(store.Model()), req, note, r.value, store.Model(), Last(run').proc)
    ensures r.Failure? ==> Unmerged(Last(run').proc) && RefusedFor(old(store.Model()), req, r.error)
    ensures r == Failure(StoreFailed) && store.reliable && Sound(run[0]) ==>
      StuckAtWrite(old(store.Model()), req, note)
  {
    note, run' := MergeNote(0, 0, 0, []), run;
    var s := store.GetRef(SourceKey(req));
    var t := store.GetRef(TargetKey(req));
    if s.None? || t.None? { return Failure(BranchNotFound), note, run'; }
    run' := Then(run', store.Model(), OfMerge(AgainTarget(req, ana, s.value)));
    if ana.kind == FastForward {
      r, run' := MoveForward(store, req, ana, s.value, t.value, run');
      if r.Failure? { RefusedByAnalysis(old(store.Model()), req, ana, r.error); }
      if r.Success? { ForwardIsExecuted(old(store.Model()), req, ana, note); }
    } else {
      note := MergeNote(s.value, t.value, ana.base, req.resolutions);
      r, run' := MergeDiverged(store, req, ana, s.value, t.value, run');
      if r.Failure? { RefusedByAnalysis(old(store.Model()), req, ana, r.error); }
      if r.Success? { JoinedIsExecuted(old(store.Model()), req, ana, note, r.value, store.Model()); }
    }
  }

  lemma ForwardIsExecuted(db: Db, req: MergeReq, ana: Analysis, note: MergeNote)
    requires req.source != req.target && Analyzed(db, req, ana) && ana.kind == FastForward
    ensures var s := db.refs[SourceKey(req)];
      Executed(db, req, note, s, SetRef(db, TargetKey(req), s), OfMerge(Forwarded(req, s)))
  {
  }

  lemma JoinedIsExecuted(db: Db, req: MergeReq, ana: Analysis, note: MergeNote, c: CommitId, db': Db)
    requires req.source != req.target && Analyzed(db, req, ana) && ana.kind != FastForward
    requires note == MergeNote(db.refs[SourceKey(req)], db.refs[TargetKey(req)], ana.base, req.resolutions)
    requires Joined(db, req, note.source, note.target, c, db')
    ensures Executed(db, req, note, c, db', OfMerge(Merged(req, note, c)))
    ensures Noted(db, req, note)
  {
  }

  lemma RefusedByAnalysis(db: Db, req: MergeReq, ana: Analysis, error: Error)
    requires Analyzed(db, req, ana)
    requires match error
             case UnresolvedConflicts => LeavesOpen(ana, req.resolutions)
             case InvalidResolution => PicksForeign(ana, req.resolutions)
             case StoreFailed => Accepted(ana, req.resolutions)
             case _ => false
    ensures RefusedFor(db, req, error)
  {
  }

  /** A fast-forward moves the target to the source's head; any other merge joins the two
      heads over their merge base. Only the store, or an empty version chosen for a
      conflict, stops a merge that was accepted. */
  method Execute(store: Store, req: MergeReq, ghost h: Trail)
    returns (r: Result<CommitId>, ghost note: MergeNote, ghost run: seq<State>)
    modifies store
    ensures SoloRun(run) && run[0] == State(old(store.Model()), h, OfMerge(FindSource(req)))
    ensures Last(run).db == store.Model()
    ensures r.Success? ==> Executed(old(store.Model()), req, note, r.value, store.Model(), Last(run).proc)
    ensures r.Failure? ==> Unmerged(Last(run).proc) && RefusedFor(old(store.Model()), req, r.error)
    ensures r == Failure(StoreFailed) && store.reliable && Sound(run[0]) ==>
      StuckAtWrite(old(store.Model()), req, note)
  {
    note := MergeNote(0, 0, 0, []);
    var analyzed;
    analyzed, run := Analyze(store, req, h);
    if analyzed.Failure? { return Failure(analyzed.error), note, run; }
    r, note, run := ExecuteAnalyzed(store, req, analyzed.value, run);
  }

  /** The handler's call. On a healthy database a merge commit holds the three-way merge of
      the two heads, and a reliable store refuses nothing but an empty version. */
  method ExecuteMerge(store: Store, req: MergeReq, ghost h: Trail)
    returns (r: Result<CommitId>, ghost note: MergeNote, ghost run: seq<State>)
    modifies store
    ensures SoloRun(run) && run[0] == State(old(store.Model()), h, OfMerge(FindSource(req)))
    ensures Last(run).db == store.Model()
    ensures r.Success? ==> Executed(old(store.Model()), req, note, r.value, store.Model(), Last(run).proc)
    ensures r.Failure? ==> Unmerged(Last(run).proc) && RefusedFor(old(store.Model()), req, r.error)
    ensures Healthy(old(store.Model()), h) ==> FaithfulMerge(run, req, note, r, store.reliable)
  {
    r, note, run := Execute(store, req, h);
    OutcomeOfMerge(run, req, note, r, store.reliable);
  }

  ghost predicate FaithfulMerge(run: seq<State>, req: MergeReq, note: MergeNote, r: Result<CommitId>, reliable: bool)
    requires run != []
  {
    && (r.Success? && Last(run).proc == OfMerge(Merged(req, note, r.value)) ==>
          MergeTookEffect(Last(run).db, req, note, r.value))
    && (r == Failure(StoreFailed) && reliable ==> !NoEmptyChoice(run[0].db, note))
    && (reliable && Mergeable(run[0].db, req) ==> r.Success?)
  }

  /** Two different branches of which the source is ahead, or whose conflicts over their base
      the client has answered with versions that exist. */
  ghost predicate Mergeable(db: Db, req: MergeReq) {
    var sourceKey, targetKey := RefKey(req.project, req.source), RefKey(req.project, req.target);
    && req.source != req.target && sourceKey in db.refs && targetKey in db.refs
    && var s, t := db.refs[sourceKey], db.refs[targetKey];
       || Reaches(db.commits, s, t)
       || exists base :: IsMergeBase(db.commits, s, t, base)
            && Settled(SnapOf(db, base), SnapOf(db, s), SnapOf(db, t), req.resolutions)
  }

  /** What Settled says of a list is enough for the checks that the code makes. */
  lemma SettledIsAccepted(b: Snapshot, s: Snapshot, t: Snapshot, ana: Analysis, res: seq<Resolution>)
    requires Real(b) && Real(s) && Real(t) && IsAnalysis(b, s, t, ana) && Settled(b, s, t, res)
    ensures Accepted(ana, res)
  {
    ClashesAre(b, s, t);
    if f :| f in Having(AllFiles(b, s, t), b, s, t, Clash) {
      assert ClashAt(b, s, t, f);
      AcceptedIffAnswers(b, s, t, ana, res);
    }
  }

  lemma SettledIsReal(b: Snapshot, s: Snapshot, t: Snapshot, res: seq<Resolution>)
    requires Real(b) && Real(s) && Real(t) && Settled(b, s, t, res)
    ensures Having(AllFiles(b, s, t), b, s, t, Clash) == {} || Real(Chosen(res))
  {
    ClashesAre(b, s, t);
    if f :| f in Having(AllFiles(b, s, t), b, s, t, Clash) {
      assert ClashAt(b, s, t, f);
      OverlayCases(map[], res);
    }
  }

  /** Of two heads to be merged, whose base must be the one that is named. */
  lemma MergeableTrees(db: Db, h: Trail, req: MergeReq, base: CommitId)
    requires Healthy(db, h) && Mergeable(db, req)
    requires var s, t := db.refs[SourceKey(req)], db.refs[TargetKey(req)];
      !Reaches(db.commits, s, t) && IsMergeBase(db.commits, s, t, base)
    ensures var b, s, t := base, db.refs[SourceKey(req)], db.refs[TargetKey(req)];
      && TreeOf(db, b) == SnapOf(db, b) && TreeOf(db, s) == SnapOf(db, s) && TreeOf(db, t) == SnapOf(db, t)
      && Real(SnapOf(db, b)) && Real(SnapOf(db, s)) && Real(SnapOf(db, t))
      && Settled(SnapOf(db, b), SnapOf(db, s), SnapOf(db, t), req.resolutions)
  {
    var s, t := db.refs[SourceKey(req)], db.refs[TargetKey(req)];
    MergeHeads(db, h, req.project, s, t, base);
    var other :| IsMergeBase(db.commits, s, t, other)
      && Settled(SnapOf(db, other), SnapOf(db, s), SnapOf(db, t), req.resolutions);
    assert other == base;
  }

  lemma MergeableIsAccepted(db: Db, h: Trail, req: MergeReq, ana: Analysis)
    requires Healthy(db, h) && Mergeable(db, req) && Analyzed(db, req, ana) && ana.kind != FastForward
    ensures Accepted(ana, req.resolutions)
  {
    var s, t := db.refs[SourceKey(req)], db.refs[TargetKey(req)];
    MergeableTrees(db, h, req, ana.base);
    SettledIsAccepted(SnapOf(db, ana.base), SnapOf(db, s), SnapOf(db, t), ana, req.resolutions);
  }

  lemma OpenIsNotAccepted(ana: Analysis, res: seq<Resolution>)
    requires LeavesOpen(ana, res) || PicksForeign(ana, res)
    ensures ana.kind == Conflicted && !Accepted(ana, res)
  {
    if |res| == |ana.conflicts| {
      var k: nat :| FirstUncovered(ana, res, k);
      assert ana.conflicts[k] in ana.conflicts;
    }
  }

  lemma MergeableHasBase(db: Db, h: Trail, req: MergeReq)
    requires Healthy(db, h) && Mergeable(db, req)
    ensures Common(db.commits, db.refs[SourceKey(req)], db.refs[TargetKey(req)]) != {}
  {
    var s, t := db.refs[SourceKey(req)], db.refs[TargetKey(req)];
    if Reaches(db.commits, s, t) {
      HeadsAreStored(db, h, TargetKey(req));
      AncestorIsCommon(db.commits, s, t);
    } else {
      MergeableHasNamedBase(db, req);
    }
  }

  lemma AncestorIsCommon(commits: Commits, s: CommitId, t: CommitId)
    requires t in commits && Reaches(commits, s, t)
    ensures t in Common(commits, s, t)
  {
    ReachesSelf(commits, t);
  }

  lemma MergeableHasNamedBase(db: Db, req: MergeReq)
    requires Mergeable(db, req) && !Reaches(db.commits, db.refs[SourceKey(req)], db.refs[TargetKey(req)])
    ensures Common(db.commits, db.refs[SourceKey(req)], db.refs[TargetKey(req)]) != {}
  {
    var s, t := db.refs[SourceKey(req)], db.refs[TargetKey(req)];
    var base :| IsMergeBase(db.commits, s, t, base);
    assert base in Common(db.commits, s, t);
  }

  lemma MergeableIsNotRefused(db: Db, h: Trail, req: MergeReq, error: Error)
    requires Healthy(db, h) && Mergeable(db, req) && RefusedFor(db, req, error)
    ensures error == StoreFailed
  {
    MergeableHasBase(db, h, req);
    if error == UnresolvedConflicts || error == InvalidResolution {
      var ana :| Analyzed(db, req, ana) && (LeavesOpen(ana, req.resolutions) || PicksForeign(ana, req.resolutions));
      OpenIsNotAccepted(ana, req.resolutions);
      MergeableIsAccepted(db, h, req, ana);
    }
  }

  lemma MergeableIsNotStuck(db: Db, h: Trail, req: MergeReq, note: MergeNote)
    requires Healthy(db, h) && Mergeable(db, req)
    ensures !StuckAtWrite(db, req, note)
  {
    HeadsAreStored(db, h, SourceKey(req));
    if Noted(db, req, note) {
      MergeableTrees(db, h, req, note.base);
      SettledIsReal(SnapOf(db, note.base), SnapOf(db, note.source), SnapOf(db, note.target), req.resolutions);
    }
  }

  lemma OutcomeOfMerge(run: seq<State>, req: MergeReq, note: MergeNote, r: Result<CommitId>, reliable: bool)
    requires SoloRun(run) && run[0].proc == OfMerge(FindSource(req))
    requires r.Failure? ==> RefusedFor(run[0].db, req, r.error)
    requires r == Failure(StoreFailed) && reliable && Sound(run[0]) ==> StuckAtWrite(run[0].db, req, note)
    ensures Healthy(run[0].db, run[0].trail) ==> FaithfulMerge(run, req, note, r, reliable)
  {
    var db, h := run[0].db, run[0].trail;
    if Healthy(db, h) {
      if r.Success? && Last(run).proc == OfMerge(Merged(req, note, r.value)) {
        ServedMergeIsThreeWay(run, req, note, r.value);
      }
      if SourceKey(req) in db.refs { HeadsAreStored(db, h, SourceKey(req)); }
      if r.Failure? && reliable && Mergeable(db, req) {
        MergeableIsNotRefused(db, h, req, r.error);
        MergeableIsNotStuck(db, h, req, note);
      }
    }
  }

  // ---- branches ----

  method CreateBranch(store: Store, project: ProjectId, name: Name, from: Name, ghost h: Trail)
    returns (r: Result<CommitId>, ghost run: seq<State>)
    modifies store
    ensures SoloRun(run) && run[0] == State(old(store.Model()), h, OfBranch(FindFrom(project, name, from)))
    ensures Last(run).db == store.Model()
    ensures r.Success? ==> Last(run).proc == OfBranch(Branched(project, name, r.value))
    ensures r.Success? ==>
      && RefKey(project, name) !in old(store.Model()).refs && RefKey(project, from) in old(store.Model()).refs
      && r.value == old(store.Model()).refs[RefKey(project, from)]
      && store.Model() == SetRef(old(store.Model()), RefKey(project, name), r.value)
    ensures r.Failure? ==> store.Model() == old(store.Model())
    ensures r == Failure(BranchNotFound) <==> RefKey(project, from) !in old(store.Model()).refs
    ensures r == Failure(BranchExists) <==>
      RefKey(project, from) in old(store.Model()).refs && RefKey(project, name) in old(store.Model()).refs
    ensures store.reliable && Healthy(old(store.Model()), h) ==> r != Failure(StoreFailed)
    ensures store.refs == if r.Success? then old(store.refs)[RefKey(project, name) := r.value] else old(store.refs)
    ensures store.Model() == old(store.Model()).(refs := store.refs)
  {
    run := [State(store.Model(), h, OfBranch(FindFrom(project, name, from)))];
    var head := store.GetRef(RefKey(project, from));
    if head.None? { return Failure(BranchNotFound), run; }
    run := Then(run, store.Model(), OfBranch(TestName(project, name, head.value)));
    var taken := store.GetRef(RefKey(project, name));
    if taken.Some? { return Failure(BranchExists), run; }
    run := Then(run, store.Model(), OfBranch(SetBranch(project, name, head.value)));
    if Healthy(store.Model(), h) { HeadsAreStored(store.Model(), h, RefKey(project, from)); }
    var ok := store.UpsertRef(RefKey(project, name), head.value);
    if !ok { return Failure(StoreFailed), run; }
    run := Then(run, store.Model(), OfBranch(Branched(project, name, head.value)));
    r := Success(head.value);
  }

  // ---- locks ----

  /** The store's own Acquire: it looks, then inserts, and does not ask what became of
      the insert. */
  method InsertLockIfFree(store: Store, key: FileKey, user: UserId, ghost run: seq<State>)
    returns (error: Option<Error>, ghost run': seq<State>)
    requires SoloRun(run) && Last(run).db == store.Model() && Last(run).proc == OfLocking(PeekAgain(key, user))
    modifies store
    ensures SoloRun(run') && run'[0] == run[0] && Last(run').db == store.Model()
    ensures error.None? ==> Last(run').proc == OfLocking(Held(key, user))
    ensures error.None? ==> store.Model() == InsertLock(old(store.Model()), key, user)
    ensures error.Some? ==> store.Model() == old(store.Model())
    ensures error == Some(FileLocked) <==> key in old(store.Model()).locks && old(store.Model()).locks[key] != user
    ensures error.Some? && store.reliable ==> error == Some(FileLocked)
  {
    run' := run;
    var holder := store.GetLock(key);
    if holder.Some? {
      if holder.value != user { return Some(FileLocked), run'; }
      run' := Then(run', store.Model(), OfLocking(Held(key, user)));
      return None, run';
    }
    run' := Then(run', store.Model(), OfLocking(Insert(key, user)));
    var ok := store.InsertLockRow(key, user);
    if !ok { return Some(StoreFailed), run'; }
    run' := Then(run', store.Model(), OfLocking(Held(key, user)));
    error := None;
  }

  /** The service looks first, then leaves it to the store. */
  method AcquireLock(store: Store, key: FileKey, user: UserId, ghost h: Trail)
    returns (r: Result<FileKey>, ghost run: seq<State>)
    modifies store
    ensures SoloRun(run) && run[0] == State(old(store.Model()), h, OfLocking(Peek(key, user)))
    ensures Last(run).db == store.Model()
    ensures r.Success? ==> Last(run).proc == OfLocking(Held(key, user))
    ensures r.Success? ==>
      && store.Model() == InsertLock(old(store.Model()), key, user)
      && key in store.Model().locks && store.Model().locks[key] == user
    ensures r.Failure? ==> store.Model() == old(store.Model())
    ensures r == Failure(FileLocked) <==> key in old(store.Model()).locks && old(store.Model()).locks[key] != user
    ensures r.Failure? && store.reliable ==> r == Failure(FileLocked)
    ensures store.locks == if r.Success? then old(store.locks)[key := user] else old(store.locks)
    ensures store.Model() == old(store.Model()).(locks := store.locks)
  {
    run := [State(store.Model(), h, OfLocking(Peek(key, user)))];
    var holder := store.GetLock(key);
    if holder.Some? && holder.value != user { return Failure(FileLocked), run; }
    if holder.Some? {
      run := Then(run, store.Model(), OfLocking(Held(key, user)));
      return Success(key), run;
    }
    run := Then(run, store.Model(), OfLocking(PeekAgain(key, user)));
    var error;
    error, run := InsertLockIfFree(store, key, user, run);
    r := if error.Some? then Failure(error.value) else Success(key);
  }

  method Release(store: Store, key: FileKey, user: UserId, force: bool, ghost h: Trail)
    returns (r: Result<FileKey>, ghost run: seq<State>)
    modifies store
    ensures SoloRun(run) && run[0] == State(old(store.Model()), h, OfLocking(Unlock(key, user, force)))
    ensures Last(run).db == store.Model()
    ensures r.Success? ==> Last(run).proc == OfLocking(Unlocked(key, user)) && key !in store.Model().locks
    ensures r.Failure? ==> store.Model() == old(store.Model())
    ensures store.reliable ==> (r.Success? <==> force || (key in old(store.locks) && old(store.locks)[key] == user))
    ensures r.Success? ==> force || (key in old(store.locks) && old(store.locks)[key] == user)
    ensures store.locks == if r.Success? then old(store.locks) - {key} else old(store.locks)
    ensures store.Model() == old(store.Model()).(locks := store.locks)
  {
    run := [State(store.Model(), h, OfLocking(Unlock(key, user, force)))];
    var ok := store.ReleaseLock(key, user, force);
    if !ok { return Failure(LockNotFound), run; }
    run := Then(run, store.Model(), OfLocking(Unlocked(key, user)));
    r := Success(key);
  }
}
