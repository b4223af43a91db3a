/** What holds under every interleaving of store calls and every crash: branch heads exist,
    are whole and final, were counted if pushed, and descend only from former heads. */
module Safety {
  import opened Tables
  import opened Ancestry
  import opened Merging
  import opened Requests

  // ---- snapshots and their contents ----

  ghost function ProjectFiles(db: Db, project: ProjectId): set<FileId> {
    set k | k in db.files && k.project == project :: db.files[k]
  }

  ghost predicate VersionFits(db: Db, f: FileId, v: VersionId) {
    v in db.versions && db.versions[v].file == f
  }

  /** Every row names a file of the project and a version of that file. */
  ghost predicate SnapOk(db: Db, project: ProjectId, m: Snapshot) {
    && m.Keys <= ProjectFiles(db, project)
    && forall f :: f in m ==> VersionFits(db, f, m[f])
  }

  /** What a snapshot says about a path. */
  function Look(db: Db, project: ProjectId, m: Snapshot, path: Path): Option<Manifest> {
    var key := FileKey(project, path);
    if key in db.files && db.files[key] in m && m[db.files[key]] in db.versions
    then Some(db.versions[m[db.files[key]]].manifest) else None
  }

  /** What a push's file list says about a path: its last entry for it. */
  function LastWrite(files: seq<FileEntry>, path: Path): Option<Manifest> {
    if files == [] then None
    else
      var last := files[|files| - 1];
      if last.path == path then Some(last.manifest) else LastWrite(files[..|files| - 1], path)
  }

  function Over(top: Option<Manifest>, below: Option<Manifest>): Option<Manifest> {
    if top.Some? then top else below
  }

  /** One of the first `i` entries of the push is for the file. */
  ghost predicate Written(db: Db, req: PushReq, i: nat, f: FileId)
    requires i <= |req.files|
  {
    exists k: nat :: k < i && KeyOf(req, k) in db.files && db.files[KeyOf(req, k)] == f
  }

  /** The written files are all there, with versions of this commit; the others are the
      parent's, version for version. */
  ghost predicate RowsSoFar(db: Db, req: PushReq, c: CommitId, i: nat, tree: Snapshot, below: Snapshot)
    requires i <= |req.files|
  {
    && (forall k: nat :: k < i ==> KeyOf(req, k) in db.files && db.files[KeyOf(req, k)] in tree)
    && (forall f :: f in tree ==>
          if Written(db, req, i, f) then tree[f] in db.versions && db.versions[tree[f]].commit == c
          else f in below && tree[f] == below[f])
  }

  /** `tree` is the parent's tree with the first `i` entries of the push written over it. */
  ghost predicate TreeSoFar(db: Db, req: PushReq, c: CommitId, i: nat, tree: Snapshot) {
    var below := ParentTree(db, req);
    && i <= |req.files|
    && SnapOk(db, req.project, tree)
    && SnapOk(db, req.project, below)
    && below.Keys <= tree.Keys
    && RowsSoFar(db, req, c, i, tree, below)
    && (forall path :: Look(db, req.project, tree, path)
          == Over(LastWrite(req.files[..i], path), Look(db, req.project, below, path)))
  }

  lemma {:induction false} LastWriteMeans(files: seq<FileEntry>, path: Path)
    ensures forall i :: 0 <= i < |files| && files[i].path == path
                        && (forall k :: i < k < |files| ==> files[k].path != path) ==>
      LastWrite(files, path) == Some(files[i].manifest)
    ensures (forall i :: 0 <= i < |files| ==> files[i].path != path) ==> LastWrite(files, path) == None
  {
    if files != [] {
      var n := |files| - 1;
      LastWriteMeans(files[..n], path);
      forall i | 0 <= i < |files| && files[i].path == path && (forall k :: i < k < |files| ==> files[k].path != path)
        ensures LastWrite(files, path) == Some(files[i].manifest)
      {
        if i < n {
          assert files[..n][i] == files[i];
          assert forall k :: i < k < n ==> files[..n][k] == files[k];
        }
      }
    }
  }

  /** The commit's snapshot, said of the tables alone: each pushed path has a version of this
      commit with the manifest of the path's last entry, and every other file is the
      parent's, version for version. */
  ghost predicate PushedTree(db: Db, req: PushReq, c: CommitId) {
    var tree := SnapOf(db, c);
    var below := if req.parent.Some? then SnapOf(db, req.parent.value) else map[];
    && (forall i ::
          && 0 <= i < |req.files|
          && (forall k :: i < k < |req.files| ==> req.files[k].path != req.files[i].path) ==>
          && FileKey(req.project, req.files[i].path) in db.files
          && var f := db.files[FileKey(req.project, req.files[i].path)];
             f in tree && tree[f] in db.versions && db.versions[tree[f]] == Version(f, c, req.files[i].manifest))
    && (forall f :: f in below ==> f in tree)
    && (forall f :: f in tree ==> (f in below && tree[f] == below[f]) || exists i: nat :: IsFileOf(db, req, i, f))
    && (forall i: nat, f :: f in tree && IsFileOf(db, req, i, f) ==>
          tree[f] in db.versions && db.versions[tree[f]].commit == c)
  }

  /** The file is the one at the path of the push's `i`th entry. */
  predicate IsFileOf(db: Db, req: PushReq, i: nat, f: FileId) {
    && i < |req.files| && FileKey(req.project, req.files[i].path) in db.files
    && db.files[FileKey(req.project, req.files[i].path)] == f
  }

  lemma PushedEntry(db: Db, req: PushReq, c: CommitId, i: nat)
    requires TreeSoFar(db, req, c, |req.files|, SnapOf(db, c)) && i < |req.files|
    requires forall k :: i < k < |req.files| ==> req.files[k].path != req.files[i].path
    ensures KeyOf(req, i) in db.files
    ensures var f, tree := db.files[KeyOf(req, i)], SnapOf(db, c);
      f in tree && tree[f] in db.versions && db.versions[tree[f]] == Version(f, c, req.files[i].manifest)
  {
    var f, tree := db.files[KeyOf(req, i)], SnapOf(db, c);
    assert Written(db, req, |req.files|, f);
    assert req.files[..|req.files|] == req.files;
    LastWriteMeans(req.files, req.files[i].path);
    assert Look(db, req.project, tree, req.files[i].path)
      == Over(LastWrite(req.files[..|req.files|], req.files[i].path),
              Look(db, req.project, ParentTree(db, req), req.files[i].path));
  }

  lemma TreeMeans(db: Db, req: PushReq, c: CommitId)
    requires TreeSoFar(db, req, c, |req.files|, SnapOf(db, c))
    ensures PushedTree(db, req, c)
  {
    forall i | 0 <= i < |req.files| && (forall k :: i < k < |req.files| ==> req.files[k].path != req.files[i].path)
      ensures FileKey(req.project, req.files[i].path) in db.files
      ensures var f, tree := db.files[FileKey(req.project, req.files[i].path)], SnapOf(db, c);
        f in tree && tree[f] in db.versions && db.versions[tree[f]] == Version(f, c, req.files[i].manifest)
    {
      PushedEntry(db, req, c, i);
    }
    FilesPushedOrKept(db, req, c);
  }

  lemma FilesPushedOrKept(db: Db, req: PushReq, c: CommitId)
    requires TreeSoFar(db, req, c, |req.files|, SnapOf(db, c))
    ensures var tree, below := SnapOf(db, c), ParentTree(db, req);
      forall f :: f in tree ==> (f in below && tree[f] == below[f]) || exists i: nat :: IsFileOf(db, req, i, f)
    ensures var tree := SnapOf(db, c);
      forall i: nat, f :: f in tree && IsFileOf(db, req, i, f) ==>
        tree[f] in db.versions && db.versions[tree[f]].commit == c
  {
    var tree := SnapOf(db, c);
    forall f | f in tree && Written(db, req, |req.files|, f)
      ensures exists i: nat :: IsFileOf(db, req, i, f)
    {
      var k: nat :| k < |req.files| && KeyOf(req, k) in db.files && db.files[KeyOf(req, k)] == f;
      assert IsFileOf(db, req, k, f);
    }
    forall i: nat, f | f in tree && IsFileOf(db, req, i, f)
      ensures tree[f] in db.versions && db.versions[tree[f]].commit == c
    {
      assert KeyOf(req, i) in db.files;
      assert Written(db, req, |req.files|, f);
    }
  }

  // ---- invariants of the tables ----

  ghost predicate TablesOk(db: Db, h: Trail) {
    && ParentsExist(db.commits)
    && db.snaps.Keys <= h.sealed && h.sealed <= db.commits.Keys
    && h.counted <= h.pushes.Keys
    && ABSENT !in db.versions
    && (forall k, l :: k in db.files && l in db.files && db.files[k] == db.files[l] ==> k == l)
    && h.pushes.Keys + h.merges.Keys == db.commits.Keys && h.pushes.Keys !! h.merges.Keys
    && (forall c :: c in h.pushes ==>
          db.commits[c].project == h.pushes[c].project && db.commits[c].parents == ParentIds(h.pushes[c]))
    && (forall c :: c in h.merges ==> db.commits[c].parents == [h.merges[c].target, h.merges[c].source])
  }

  /** A commit that was ever a head: whole, final, counted if pushed, with a branch to its
      name, and so were its parents. */
  ghost predicate HeadOk(db: Db, h: Trail, k: Head) {
    && k.commit in db.commits && db.commits[k.commit].project == k.project
    && k.commit in h.sealed
    && (forall q :: q in db.commits[k.commit].parents ==> Head(k.project, q) in h.heads)
    && SnapOk(db, k.project, SnapOf(db, k.commit))
    && (k.commit in h.pushes ==>
          && k.commit in h.counted && h.pushes[k.commit].ref != "" && h.pushes[k.commit].project == k.project
          && TreeSoFar(db, h.pushes[k.commit], k.commit, |h.pushes[k.commit].files|, SnapOf(db, k.commit)))
  }

  ghost predicate HeadsOk(db: Db, h: Trail) {
    && (forall k :: k in h.heads ==> HeadOk(db, h, k))
    && (forall r :: r in db.refs ==> Head(r.project, db.refs[r]) in h.heads)
  }

  // ---- what a request in flight knows ----

  ghost predicate ParentIsHead(h: Trail, req: PushReq) {
    req.ref != "" && req.parent.Some? ==> Head(req.project, req.parent.value) in h.heads
  }

  ghost predicate Owned(db: Db, h: Trail, req: PushReq, c: CommitId) {
    && c in db.commits && c in h.pushes && h.pushes[c] == req
    && c !in h.sealed && c !in h.counted && ParentIsHead(h, req)
  }

  ghost predicate Building(db: Db, h: Trail, req: PushReq, c: CommitId, i: nat, tree: Snapshot) {
    Owned(db, h, req, c) && i <= |req.files| && (req.ref != "" ==> TreeSoFar(db, req, c, i, tree))
  }

  ghost predicate Built(db: Db, h: Trail, req: PushReq, c: CommitId) {
    && c in db.commits && c in h.pushes && h.pushes[c] == req && c in h.sealed && ParentIsHead(h, req)
    && (req.ref != "" ==> TreeSoFar(db, req, c, |req.files|, SnapOf(db, c)))
  }

  ghost predicate PushKnows(db: Db, h: Trail, p: Push) {
    match p
    case Gate(_) => true
    case Check(_) => true
    case Create(req, _, _) => ParentIsHead(h, req)
    case ReadParent(req, c) => Owned(db, h, req, c)
    case Upsert(req, c, i, tree) => Building(db, h, req, c, i, tree)
    case Lookup(req, c, i, tree) => Building(db, h, req, c, i, tree)
    case WriteVersion(req, c, i, tree, f, _) =>
      && Building(db, h, req, c, i, tree)
      && i < |req.files| && KeyOf(req, i) in db.files && db.files[KeyOf(req, i)] == f
    case WriteTree(req, c, tree) => Building(db, h, req, c, |req.files|, tree)
    case Count(req, c) => Built(db, h, req, c) && c !in h.counted
    case Publish(req, c) => Built(db, h, req, c) && c in h.counted
    case Pushed(_, _) => true
  }

  /** The analysis came from three snapshots of the project. */
  ghost predicate Grounded(db: Db, project: ProjectId, ana: Analysis) {
    ana.kind == FastForward
    || exists b, s, t :: IsAnalysis(b, s, t, ana)
         && SnapOk(db, project, b) && SnapOk(db, project, s) && SnapOk(db, project, t)
  }

  /** Rows ready to be written: each is a version of its file, or the empty version, which
      the insert will refuse. */
  ghost predicate Choices(db: Db, project: ProjectId, m: Snapshot) {
    && m.Keys <= ProjectFiles(db, project)
    && forall f :: f in m ==> m[f] == ABSENT || VersionFits(db, f, m[f])
  }

  ghost predicate NoteOk(h: Trail, req: MergeReq, note: MergeNote) {
    Head(req.project, note.source) in h.heads && Head(req.project, note.target) in h.heads
  }

  ghost predicate MergeKnows(db: Db, h: Trail, p: Merge) {
    match p
    case FindSource(_) => true
    case FindTarget(req, s) => Head(req.project, s) in h.heads
    case TestAncestor(req, s, t) => Head(req.project, s) in h.heads && Head(req.project, t) in h.heads
    case FindBase(req, s, t) => Head(req.project, s) in h.heads && Head(req.project, t) in h.heads
    case ReadBase(req, s, t, b) =>
      Head(req.project, s) in h.heads && Head(req.project, t) in h.heads && Head(req.project, b) in h.heads
    case ReadSource(req, s, t, _, baseTree) =>
      && Head(req.project, s) in h.heads && Head(req.project, t) in h.heads
      && SnapOk(db, req.project, baseTree)
    case ReadTarget(req, s, t, _, baseTree, sourceTree) =>
      && Head(req.project, s) in h.heads && Head(req.project, t) in h.heads
      && SnapOk(db, req.project, baseTree) && SnapOk(db, req.project, sourceTree)
    case AgainSource(req, ana) => Grounded(db, req.project, ana)
    case AgainTarget(req, ana, s) => Grounded(db, req.project, ana) && Head(req.project, s) in h.heads
    case Forward(req, s, _) => Head(req.project, s) in h.heads
    case Forwarded(_, _) => true
    case ReadAgain(req, ana, s, t) =>
      && Grounded(db, req.project, ana) && ana.kind != FastForward && Accepted(ana, req.resolutions)
      && Head(req.project, s) in h.heads && Head(req.project, t) in h.heads
    case CreateMerge(req, note, tree, _, _) => NoteOk(h, req, note) && Choices(db, req.project, tree)
    case WriteMerged(req, note, tree, c) =>
      && NoteOk(h, req, note) && Choices(db, req.project, tree)
      && c in db.commits && c in h.merges && h.merges[c] == note
      && db.commits[c].project == req.project && c !in h.sealed
    case PublishMerge(req, note, c) =>
      && NoteOk(h, req, note)
      && c in db.commits && c in h.merges && h.merges[c] == note
      && db.commits[c].project == req.project && c in h.sealed
      && SnapOk(db, req.project, SnapOf(db, c))
    case Merged(_, _, _) => true
  }

  ghost predicate ProcKnows(db: Db, h: Trail, p: Proc) {
    match p
    case OfPush(q) => PushKnows(db, h, q)
    case OfMerge(q) => MergeKnows(db, h, q)
    case OfBranch(TestName(project, _, c)) => Head(project, c) in h.heads
    case OfBranch(SetBranch(project, _, c)) => Head(project, c) in h.heads
    case _ => true
  }

  /** The commit whose rows a request may still write. */
  function Owner(p: Proc): Option<CommitId> {
    match p
    case OfPush(ReadParent(_, c)) => Some(c)
    case OfPush(Upsert(_, c, _, _)) => Some(c)
    case OfPush(Lookup(_, c, _, _)) => Some(c)
    case OfPush(WriteVersion(_, c, _, _, _, _)) => Some(c)
    case OfPush(WriteTree(_, c, _)) => Some(c)
    case OfPush(Count(_, c)) => Some(c)
    case OfPush(Publish(_, c)) => Some(c)
    case OfMerge(WriteMerged(_, _, _, c)) => Some(c)
    case OfMerge(PublishMerge(_, _, c)) => Some(c)
    case _ => None
  }

  /** The commit a request's next step may touch. */
  function Touches(p: Proc): set<CommitId> {
    match p
    case OfPush(Create(_, c, _)) => {c}
    case OfMerge(CreateMerge(_, _, _, c, _)) => {c}
    case _ => if Owner(p).Some? then {Owner(p).value} else {}
  }

  ghost predicate Exclusive(db: Db, procs: map<nat, Proc>) {
    && (forall i :: i in procs && Owner(procs[i]).Some? ==> Owner(procs[i]).value in db.commits)
    && (forall i, j :: i in procs && j in procs && i != j && Owner(procs[i]).Some? ==>
          Owner(procs[j]) != Owner(procs[i]))
  }

  ghost predicate Inv(m: Machine) {
    && TablesOk(m.db, m.trail) && HeadsOk(m.db, m.trail)
    && (forall i :: i in m.procs ==> ProcKnows(m.db, m.trail, m.procs[i]))
    && Exclusive(m.db, m.procs)
  }

  // ---- growth ----

  /** Rows are added and never changed; only the touched commits may become sealed or
      counted, and sealed snapshots stay as they are. */
  ghost predicate Grows(db: Db, h: Trail, db': Db, h': Trail, touched: set<CommitId>) {
    RowsKept(db, h, db') && TrailKept(h, h', touched)
  }

  ghost predicate RowsKept(db: Db, h: Trail, db': Db) {
    && Submap(db.commits, db'.commits) && Submap(db.files, db'.files) && Submap(db.versions, db'.versions)
    && (forall c :: c in h.sealed ==> SnapOf(db', c) == SnapOf(db, c))
  }

  ghost predicate TrailKept(h: Trail, h': Trail, touched: set<CommitId>) {
    && Submap(h.pushes, h'.pushes) && Submap(h.merges, h'.merges)
    && h.heads <= h'.heads
    && h.sealed <= h'.sealed && h'.sealed <= h.sealed + touched
    && h.counted <= h'.counted && h'.counted <= h.counted + touched
  }

  /** What growth needs of the tables and of the request. */
  ghost predicate Guarded(db: Db, h: Trail, p: Proc) {
    && h.sealed <= db.commits.Keys
    && h.pushes.Keys <= db.commits.Keys && h.merges.Keys <= db.commits.Keys
    && match p
       case OfPush(WriteTree(_, c, _)) => c !in h.sealed
       case OfMerge(WriteMerged(_, _, _, c)) => c !in h.sealed
       case _ => true
  }

  lemma PushKeepsRows(db: Db, h: Trail, p: Push, db': Db, p': Push)
    requires Guarded(db, h, OfPush(p)) && PushStep(db, p, db', p')
    ensures RowsKept(db, h, db')
  {
    if p.WriteTree? {
      SealedTreesStay(db, h, p.commit, p.tree);
    } else {
      PushKeepsTrees(p, db, db', p');
    }
  }

  lemma SealedTreesStay(db: Db, h: Trail, c: CommitId, tree: Snapshot)
    requires c !in h.sealed
    ensures RowsKept(db, h, SetFiles(db, c, tree))
  {
  }

  lemma PushKeepsTrees(p: Push, db: Db, db': Db, p': Push)
    requires PushStep(db, p, db', p') && !p.WriteTree?
    ensures Submap(db.commits, db'.commits) && Submap(db.files, db'.files) && Submap(db.versions, db'.versions)
    ensures db'.snaps == db.snaps
  {
  }

  lemma PushKeepsTrail(db: Db, h: Trail, p: Push, db': Db, p': Push)
    requires Guarded(db, h, OfPush(p)) && PushStep(db, p, db', p')
    ensures TrailKept(h, NotePush(h, p), Touches(OfPush(p)))
  {
  }

  lemma MergeKeepsRows(db: Db, h: Trail, p: Merge, db': Db, p': Merge)
    requires Guarded(db, h, OfMerge(p)) && MergeStep(db, p, db', p')
    ensures RowsKept(db, h, db')
  {
  }

  lemma MergeKeepsTrail(db: Db, h: Trail, p: Merge, db': Db, p': Merge)
    requires Guarded(db, h, OfMerge(p)) && MergeStep(db, p, db', p')
    ensures TrailKept(h, NoteMerge(h, p), Touches(OfMerge(p)))
  {
  }

  lemma BranchGrows(db: Db, h: Trail, p: Branch, db': Db, p': Branch)
    requires BranchStep(db, p, db', p')
    ensures Grows(db, h, db', NoteStep(h, db, OfBranch(p)), {})
  {
  }

  lemma UploadGrows(db: Db, h: Trail, p: Upload, db': Db, p': Upload)
    requires UploadStep(db, p, db', p')
    ensures Grows(db, h, db', NoteStep(h, db, OfUpload(p)), {})
  {
  }

  lemma LockGrows(db: Db, h: Trail, p: Locking, db': Db, p': Locking)
    requires LockStep(db, p, db', p')
    ensures Grows(db, h, db', h, {})
  {
  }

  /** Whatever step a request takes, what is stored stays, and no sealed snapshot changes. */
  lemma StepGrows(db: Db, h: Trail, p: Proc, db': Db, p': Proc)
    requires Guarded(db, h, p) && ProcStep(db, p, db', p')
    ensures Grows(db, h, db', NoteStep(h, db, p), Touches(p))
  {
    match p
    case OfPush(q) =>
      PushKeepsRows(db, h, q, db', p'.push);
      PushKeepsTrail(db, h, q, db', p'.push);
    case OfMerge(q) =>
      MergeKeepsRows(db, h, q, db', p'.merge);
      MergeKeepsTrail(db, h, q, db', p'.merge);
    case OfBranch(q) => BranchGrows(db, h, q, db', p'.branch);
    case OfUpload(q) => UploadGrows(db, h, q, db', p'.upload);
    case OfLocking(q) => LockGrows(db, h, q, db', p'.locking);
  }

  // ---- what growth preserves ----

  predicate UniqueFiles(files: map<FileKey, FileId>) {
    forall k, l :: k in files && l in files && files[k] == files[l] ==> k == l
  }

  ghost predicate RowsGrow(db: Db, db': Db) {
    Submap(db.files, db'.files) && Submap(db.versions, db'.versions) && UniqueFiles(db'.files)
  }

  lemma SnapOkStable(db: Db, db': Db, project: ProjectId, m: Snapshot)
    requires RowsGrow(db, db') && SnapOk(db, project, m)
    ensures SnapOk(db', project, m)
  {
    forall f | f in ProjectFiles(db, project) ensures f in ProjectFiles(db', project) {
      var k :| k in db.files && k.project == project && db.files[k] == f;
      assert k in db'.files && db'.files[k] == f;
    }
  }

  lemma LookStable(db: Db, db': Db, project: ProjectId, m: Snapshot, path: Path)
    requires RowsGrow(db, db') && SnapOk(db, project, m)
    ensures Look(db', project, m, path) == Look(db, project, m, path)
  {
    var key := FileKey(project, path);
    if key in db'.files && key !in db.files {
      forall k | k in db.files ensures db.files[k] != db'.files[key] {
        assert db'.files[k] == db.files[k];
      }
    }
  }

  lemma TreeSoFarStable(db: Db, db': Db, req: PushReq, c: CommitId, i: nat, tree: Snapshot)
    requires RowsGrow(db, db') && TreeSoFar(db, req, c, i, tree)
    requires ParentTree(db', req) == ParentTree(db, req)
    ensures TreeSoFar(db', req, c, i, tree)
  {
    var below := ParentTree(db, req);
    SnapOkStable(db, db', req.project, tree);
    SnapOkStable(db, db', req.project, below);
    forall path
      ensures Look(db', req.project, tree, path)
        == Over(LastWrite(req.files[..i], path), Look(db', req.project, below, path))
    {
      LookStable(db, db', req.project, tree, path);
      LookStable(db, db', req.project, below, path);
    }
  }

  lemma ParentTreeStable(db: Db, h: Trail, db': Db, h': Trail, touched: set<CommitId>, req: PushReq)
    requires Grows(db, h, db', h', touched)
    requires req.parent.Some? ==> req.parent.value in h.sealed
    ensures ParentTree(db', req) == ParentTree(db, req)
  {
  }

  lemma HeadOkStable(db: Db, h: Trail, db': Db, h': Trail, touched: set<CommitId>, k: Head)
    requires TablesOk(db, h) && HeadsOk(db, h) && k in h.heads
    requires Grows(db, h, db', h', touched) && RowsGrow(db, db') && h'.pushes.Keys !! h'.merges.Keys
    ensures HeadOk(db', h', k)
  {
    var c := k.commit;
    assert HeadOk(db, h, k);
    SnapOkStable(db, db', k.project, SnapOf(db, c));
    if c in h.pushes {
      var req := h.pushes[c];
      if req.parent.Some? {
        assert req.parent.value in db.commits[c].parents;
        assert HeadOk(db, h, Head(k.project, req.parent.value));
      }
      ParentTreeStable(db, h, db', h', touched, req);
      TreeSoFarStable(db, db', req, c, |req.files|, SnapOf(db, c));
    } else {
      assert c in h.merges;
    }
  }

  lemma ParentHeadIsSealed(db: Db, h: Trail, req: PushReq)
    requires HeadsOk(db, h) && ParentIsHead(h, req) && req.ref != ""
    ensures req.parent.Some? ==> req.parent.value in h.sealed
  {
    if req.parent.Some? { assert HeadOk(db, h, Head(req.project, req.parent.value)); }
  }

  /** What an idle push knows survives a step of another request. */
  lemma PushKnowsStable(db: Db, h: Trail, db': Db, h': Trail, touched: set<CommitId>, p: Push)
    requires HeadsOk(db, h) && PushKnows(db, h, p)
    requires Grows(db, h, db', h', touched) && RowsGrow(db, db')
    requires Owner(OfPush(p)).Some? ==> Owner(OfPush(p)).value !in touched
    ensures PushKnows(db', h', p)
  {
    if Owner(OfPush(p)).Some? && p.req.ref != "" && !p.ReadParent? {
      ParentHeadIsSealed(db, h, p.req);
      ParentTreeStable(db, h, db', h', touched, p.req);
      match p
      case Upsert(req, c, i, tree) => TreeSoFarStable(db, db', req, c, i, tree);
      case Lookup(req, c, i, tree) => TreeSoFarStable(db, db', req, c, i, tree);
      case WriteVersion(req, c, i, tree, _, _) => TreeSoFarStable(db, db', req, c, i, tree);
      case WriteTree(req, c, tree) => TreeSoFarStable(db, db', req, c, |req.files|, tree);
      case Count(req, c) => TreeSoFarStable(db, db', req, c, |req.files|, SnapOf(db, c));
      case Publish(req, c) => TreeSoFarStable(db, db', req, c, |req.files|, SnapOf(db, c));
    }
  }

  lemma GroundedStable(db: Db, db': Db, project: ProjectId, ana: Analysis)
    requires RowsGrow(db, db') && Grounded(db, project, ana)
    ensures Grounded(db', project, ana)
  {
    if ana.kind != FastForward {
      var b, s, t :| IsAnalysis(b, s, t, ana)
        && SnapOk(db, project, b) && SnapOk(db, project, s) && SnapOk(db, project, t);
      SnapOkStable(db, db', project, b);
      SnapOkStable(db, db', project, s);
      SnapOkStable(db, db', project, t);
    }
  }

  lemma ChoicesStable(db: Db, db': Db, project: ProjectId, m: Snapshot)
    requires RowsGrow(db, db') && Choices(db, project, m)
    ensures Choices(db', project, m)
  {
    forall f | f in ProjectFiles(db, project) ensures f in ProjectFiles(db', project) {
      var k :| k in db.files && k.project == project && db.files[k] == f;
      assert k in db'.files && db'.files[k] == f;
    }
  }

  /** What an idle merge knows survives a step of another request. */
  lemma MergeKnowsStable(db: Db, h: Trail, db': Db, h': Trail, touched: set<CommitId>, p: Merge)
    requires MergeKnows(db, h, p)
    requires Grows(db, h, db', h', touched) && RowsGrow(db, db')
    requires Owner(OfMerge(p)).Some? ==> Owner(OfMerge(p)).value !in touched
    ensures MergeKnows(db', h', p)
  {
    match p
    case ReadSource(req, _, _, _, baseTree) => SnapOkStable(db, db', req.project, baseTree);
    case ReadTarget(req, _, _, _, baseTree, sourceTree) =>
      SnapOkStable(db, db', req.project, baseTree);
      SnapOkStable(db, db', req.project, sourceTree);
    case AgainSource(req, ana) => GroundedStable(db, db', req.project, ana);
    case AgainTarget(req, ana, _) => GroundedStable(db, db', req.project, ana);
    case ReadAgain(req, ana, _, _) => GroundedStable(db, db', req.project, ana);
    case CreateMerge(req, _, tree, _, _) => ChoicesStable(db, db', req.project, tree);
    case WriteMerged(req, _, tree, _) => ChoicesStable(db, db', req.project, tree);
    case PublishMerge(req, _, c) => SnapOkStable(db, db', req.project, SnapOf(db, c));
    case _ =>
  }
}
