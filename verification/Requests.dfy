/** Every request as a process whose steps are single store calls, and the machine that
    interleaves any number of them. A request may be stopped before any of its steps: the
    client went away, the server crashed, or a write failed. Refusals are requests that
    have no next step. */
module Requests {
  import opened Tables
  import opened Ancestry
  import opened Merging

  datatype FileEntry = FileEntry(path: Path, manifest: Manifest)

  datatype PushReq = PushReq(
    project: ProjectId,
    author: UserId,
    parent: Option<CommitId>,
    ref: Name,
    files: seq<FileEntry>)

  datatype MergeReq = MergeReq(
    project: ProjectId,
    source: Name,
    target: Name,
    resolutions: seq<Resolution>)

  /** A push, named by the store call it makes next. */
  datatype Push =
    | Gate(req: PushReq)
    | Check(req: PushReq)
    | Create(req: PushReq, commit: CommitId, now: int)
    | ReadParent(req: PushReq, commit: CommitId)
    | Upsert(req: PushReq, commit: CommitId, i: nat, tree: Snapshot)
    | Lookup(req: PushReq, commit: CommitId, i: nat, tree: Snapshot)
    | WriteVersion(req: PushReq, commit: CommitId, i: nat, tree: Snapshot, file: FileId, version: VersionId)
    | WriteTree(req: PushReq, commit: CommitId, tree: Snapshot)
    | Count(req: PushReq, commit: CommitId)
    | Publish(req: PushReq, commit: CommitId)
    | Pushed(req: PushReq, commit: CommitId)

  /** A merge: Analyze up to ReadTarget, then the rest of Execute. */
  datatype Merge =
    | FindSource(req: MergeReq)
    | FindTarget(req: MergeReq, s: CommitId)
    | TestAncestor(req: MergeReq, s: CommitId, t: CommitId)
    | FindBase(req: MergeReq, s: CommitId, t: CommitId)
    | ReadBase(req: MergeReq, s: CommitId, t: CommitId, b: CommitId)
    | ReadSource(req: MergeReq, s: CommitId, t: CommitId, b: CommitId, baseTree: Snapshot)
    | ReadTarget(req: MergeReq, s: CommitId, t: CommitId, b: CommitId, baseTree: Snapshot, sourceTree: Snapshot)
    | AgainSource(req: MergeReq, ana: Analysis)
    | AgainTarget(req: MergeReq, ana: Analysis, s: CommitId)
    | Forward(req: MergeReq, s: CommitId, t: CommitId)
    | Forwarded(req: MergeReq, s: CommitId)
    | ReadAgain(req: MergeReq, ana: Analysis, s: CommitId, t: CommitId)
    | CreateMerge(req: MergeReq, note: MergeNote, tree: Snapshot, commit: CommitId, now: int)
    | WriteMerged(req: MergeReq, note: MergeNote, tree: Snapshot, commit: CommitId)
    | PublishMerge(req: MergeReq, note: MergeNote, commit: CommitId)
    | Merged(req: MergeReq, note: MergeNote, commit: CommitId)

  datatype Branch =
    | FindFrom(project: ProjectId, name: Name, from: Name)
    | TestName(project: ProjectId, name: Name, commit: CommitId)
    | SetBranch(project: ProjectId, name: Name, commit: CommitId)
    | Branched(project: ProjectId, name: Name, commit: CommitId)

  datatype Upload =
    | Put(hash: Hash, data: Bytes)
    | Record(hash: Hash, data: Bytes)
    | Stored(hash: Hash)

  datatype Locking =
    | Peek(key: FileKey, user: UserId)
    | PeekAgain(key: FileKey, user: UserId)
    | Insert(key: FileKey, user: UserId)
    | Held(key: FileKey, user: UserId)
    | Unlock(key: FileKey, user: UserId, force: bool)
    | Unlocked(key: FileKey, user: UserId)

  datatype Proc =
    | OfPush(push: Push)
    | OfMerge(merge: Merge)
    | OfBranch(branch: Branch)
    | OfUpload(upload: Upload)
    | OfLocking(locking: Locking)

  // ---- history, for stating what happened ----

  datatype Head = Head(project: ProjectId, commit: CommitId)
  datatype MergeNote = MergeNote(
    source: CommitId, target: CommitId, base: CommitId, resolutions: seq<Resolution>)

  /** What has happened so far: the request behind each commit, the commits that were ever
      a branch head, whose snapshot is written, whose chunks are counted, and the commits
      counted before a chunk's row was stored. */
  datatype Trail = Trail(
    pushes: map<CommitId, PushReq>,
    merges: map<CommitId, MergeNote>,
    heads: set<Head>,
    sealed: set<CommitId>,
    counted: set<CommitId>,
    storedAfter: map<Hash, set<CommitId>>)

  const EMPTY_TRAIL := Trail(map[], map[], {}, {}, {}, map[])

  // ---- pieces of CreateCommit ----

  /** Optimistic check of the parent against the branch; a push without a ref is unchecked. */
  predicate ParentMatches(refs: map<RefKey, CommitId>, req: PushReq) {
    req.ref != "" ==>
      var key := RefKey(req.project, req.ref);
      if key in refs then req.parent == Some(refs[key]) else req.parent == None
  }

  function ParentIds(req: PushReq): seq<CommitId> {
    if req.parent.Some? then [req.parent.value] else []
  }

  function ParentTree(db: Db, req: PushReq): Snapshot {
    if req.parent.Some? then SnapOf(db, req.parent.value) else map[]
  }

  function KeyOf(req: PushReq, i: nat): FileKey
    requires i < |req.files|
  {
    FileKey(req.project, req.files[i].path)
  }

  /** All chunk hashes of the push in order, with repeats. */
  function AllHashes(files: seq<FileEntry>): seq<Hash> {
    if files == [] then []
    else AllHashes(files[..|files| - 1]) + files[|files| - 1].manifest.chunks
  }

  function Mentions(files: seq<FileEntry>): set<Hash> {
    set h | h in AllHashes(files)
  }

  /** Some file of the push lists the chunk. */
  predicate ListsChunk(files: seq<FileEntry>, h: Hash) {
    exists i :: 0 <= i < |files| && h in files[i].manifest.chunks
  }

  /** All files' hashes are collected, and nothing else. */
  lemma {:induction false} HashesAreListed(files: seq<FileEntry>, h: Hash)
    ensures h in AllHashes(files) <==> exists i :: 0 <= i < |files| && h in files[i].manifest.chunks
    ensures h in Mentions(files) <==> ListsChunk(files, h)
  {
    if files != [] {
      var n := |files| - 1;
      HashesAreListed(files[..n], h);
      if h in AllHashes(files[..n]) {
        var i :| 0 <= i < n && h in files[..n][i].manifest.chunks;
        assert h in files[i].manifest.chunks;
      }
      if i :| 0 <= i < |files| && h in files[i].manifest.chunks {
        assert i < n ==> files[..n][i] == files[i];
      }
    }
  }

  /** Locks of other users on the paths being pushed. */
  predicate LockedOut(locks: map<FileKey, UserId>, req: PushReq, i: nat)
    requires i < |req.files|
  {
    KeyOf(req, i) in locks && locks[KeyOf(req, i)] != req.author
  }

  predicate GateOpen(locks: map<FileKey, UserId>, req: PushReq) {
    forall i :: 0 <= i < |req.files| ==> !LockedOut(locks, req, i)
  }

  /** One clock: a stamp taken now is later than every stored created_at. */
  predicate Later(db: Db, now: int) {
    forall c :: c in db.commits ==> db.commits[c].createdAt < now
  }

  ghost predicate PushStep(db: Db, p: Push, db': Db, p': Push) {
    match p
    case Gate(req) => db' == db && GateOpen(db.locks, req) && p' == Check(req)
    case Check(req) =>
      && db' == db && ParentMatches(db.refs, req)
      && p'.Create? && p'.req == req && Later(db, p'.now)
    case Create(req, c, now) =>
      var row := Commit(req.project, ParentIds(req), now);
      CanCreateCommit(db, c, row) && db' == CreateCommit(db, c, row) && p' == ReadParent(req, c)
    case ReadParent(req, c) => db' == db && p' == Upsert(req, c, 0, ParentTree(db, req))
    case Upsert(req, c, i, tree) =>
      if i < |req.files| then
        && KeyOf(req, i) in db'.files
        && CanUpsertFile(db, KeyOf(req, i), db'.files[KeyOf(req, i)])
        && db' == UpsertFile(db, KeyOf(req, i), db'.files[KeyOf(req, i)])
        && p' == Lookup(req, c, i, tree)
      else
        db' == db && p' == WriteTree(req, c, tree)
    case Lookup(req, c, i, tree) =>
      && i < |req.files| && KeyOf(req, i) in db.files
      && db' == db && p'.WriteVersion?
      && p' == WriteVersion(req, c, i, tree, db.files[KeyOf(req, i)], p'.version)
    case WriteVersion(req, c, i, tree, f, v) =>
      && i < |req.files|
      && var row := Version(f, c, req.files[i].manifest);
      && CanCreateVersion(db, v, row) && db' == CreateVersion(db, v, row)
      && p' == Upsert(req, c, i + 1, tree[f := v])
    case WriteTree(req, c, tree) =>
      CanSetFiles(db, c, tree) && db' == SetFiles(db, c, tree) && p' == Count(req, c)
    case Count(req, c) =>
      && db' == (if AllHashes(req.files) == [] then db else IncrementChunks(db, Mentions(req.files)))
      && p' == Publish(req, c)
    case Publish(req, c) =>
      && (if req.ref == "" then db' == db
          else CanSetRef(db, c) && db' == SetRef(db, RefKey(req.project, req.ref), c))
      && p' == Pushed(req, c)
    case Pushed(_, _) => false
  }

  ghost predicate MergeStep(db: Db, p: Merge, db': Db, p': Merge) {
    var sourceKey, targetKey := RefKey(p.req.project, p.req.source), RefKey(p.req.project, p.req.target);
    match p
    case FindSource(req) =>
      && db' == db && req.source != req.target && sourceKey in db.refs
      && p' == FindTarget(req, db.refs[sourceKey])
    case FindTarget(req, s) =>
      db' == db && targetKey in db.refs && p' == TestAncestor(req, s, db.refs[targetKey])
    case TestAncestor(req, s, t) =>
      && db' == db
      && p' == if Reaches(db.commits, s, t)
               then AgainSource(req, Analysis(FastForward, t, [], [], [], 0))
               else FindBase(req, s, t)
    case FindBase(req, s, t) =>
      && db' == db && p'.ReadBase? && IsMergeBase(db.commits, s, t, p'.b)
      && p' == ReadBase(req, s, t, p'.b)
    case ReadBase(req, s, t, b) => db' == db && p' == ReadSource(req, s, t, b, TreeOf(db, b))
    case ReadSource(req, s, t, b, baseTree) =>
      db' == db && p' == ReadTarget(req, s, t, b, baseTree, TreeOf(db, s))
    case ReadTarget(req, s, t, b, baseTree, sourceTree) =>
      && db' == db && p'.AgainSource? && p' == AgainSource(req, p'.ana)
      && IsAnalysis(baseTree, sourceTree, TreeOf(db, t), p'.ana) && p'.ana.base == b
    case AgainSource(req, ana) =>
      db' == db && sourceKey in db.refs && p' == AgainTarget(req, ana, db.refs[sourceKey])
    case AgainTarget(req, ana, s) =>
      && db' == db && targetKey in db.refs
      && if ana.kind == FastForward then p' == Forward(req, s, db.refs[targetKey])
         else Accepted(ana, req.resolutions) && p' == ReadAgain(req, ana, s, db.refs[targetKey])
    case Forward(req, s, t) =>
      CanSetRef(db, s) && db' == SetRef(db, targetKey, s) && p' == Forwarded(req, s)
    case Forwarded(_, _) => false
    case ReadAgain(req, ana, s, t) =>
      && db' == db && p'.CreateMerge? && Later(db, p'.now)
      && p' == CreateMerge(req, MergeNote(s, t, ana.base, req.resolutions),
                           MergedTree(TreeOf(db, t), ana, req.resolutions), p'.commit, p'.now)
    case CreateMerge(req, note, tree, c, now) =>
      && var row := Commit(req.project, [note.target, note.source], now);
      && CanCreateCommit(db, c, row) && db' == CreateCommit(db, c, row)
      && p' == WriteMerged(req, note, tree, c)
    case WriteMerged(req, note, tree, c) =>
      CanSetFiles(db, c, tree) && db' == SetFiles(db, c, tree) && p' == PublishMerge(req, note, c)
    case PublishMerge(req, note, c) =>
      CanSetRef(db, c) && db' == SetRef(db, targetKey, c) && p' == Merged(req, note, c)
    case Merged(_, _, _) => false
  }

  ghost predicate BranchStep(db: Db, p: Branch, db': Db, p': Branch) {
    match p
    case FindFrom(project, name, from) =>
      && db' == db && RefKey(project, from) in db.refs
      && p' == TestName(project, name, db.refs[RefKey(project, from)])
    case TestName(project, name, c) =>
      db' == db && RefKey(project, name) !in db.refs && p' == SetBranch(project, name, c)
    case SetBranch(project, name, c) =>
      CanSetRef(db, c) && db' == SetRef(db, RefKey(project, name), c) && p' == Branched(project, name, c)
    case Branched(_, _, _) => false
  }

  ghost predicate UploadStep(db: Db, p: Upload, db': Db, p': Upload) {
    match p
    case Put(h, data) => db' == PutBlob(db, h, data) && p' == Record(h, data)
    case Record(h, data) => db' == InsertChunk(db, h) && p' == Stored(h)
    case Stored(_) => false
  }

  /** Acquire looks twice, in the service and in the store, and the insert does nothing on
      conflict without telling. */
  ghost predicate LockStep(db: Db, p: Locking, db': Db, p': Locking) {
    match p
    case Peek(key, user) =>
      && db' == db && (key in db.locks ==> db.locks[key] == user)
      && p' == if key in db.locks then Held(key, user) else PeekAgain(key, user)
    case PeekAgain(key, user) =>
      && db' == db && (key in db.locks ==> db.locks[key] == user)
      && p' == if key in db.locks then Held(key, user) else Insert(key, user)
    case Insert(key, user) => db' == InsertLock(db, key, user) && p' == Held(key, user)
    case Held(_, _) => false
    case Unlock(key, user, force) =>
      && (force || Releases(db, key, user, force))
      && db' == DeleteLock(db, key, user, force) && p' == Unlocked(key, user)
    case Unlocked(_, _) => false
  }

  ghost predicate ProcStep(db: Db, p: Proc, db': Db, p': Proc) {
    match p
    case OfPush(q) => p'.OfPush? && PushStep(db, q, db', p'.push)
    case OfMerge(q) => p'.OfMerge? && MergeStep(db, q, db', p'.merge)
    case OfBranch(q) => p'.OfBranch? && BranchStep(db, q, db', p'.branch)
    case OfUpload(q) => p'.OfUpload? && UploadStep(db, q, db', p'.upload)
    case OfLocking(q) => p'.OfLocking? && LockStep(db, q, db', p'.locking)
  }

  // ---- what a step adds to the history ----

  function NotePush(h: Trail, p: Push): Trail {
    match p
    case Create(req, c, _) => h.(pushes := h.pushes[c := req])
    case WriteTree(_, c, _) => h.(sealed := h.sealed + {c})
    case Count(_, c) => h.(counted := h.counted + {c})
    case Publish(req, c) => if req.ref == "" then h else h.(heads := h.heads + {Head(req.project, c)})
    case _ => h
  }

  function NoteMerge(h: Trail, p: Merge): Trail {
    match p
    case Forward(req, s, _) => h.(heads := h.heads + {Head(req.project, s)})
    case CreateMerge(_, note, _, c, _) => h.(merges := h.merges[c := note])
    case WriteMerged(_, _, _, c) => h.(sealed := h.sealed + {c})
    case PublishMerge(req, _, c) => h.(heads := h.heads + {Head(req.project, c)})
    case _ => h
  }

  function NoteStep(h: Trail, db: Db, p: Proc): Trail {
    match p
    case OfPush(q) => NotePush(h, q)
    case OfMerge(q) => NoteMerge(h, q)
    case OfBranch(SetBranch(project, _, c)) => h.(heads := h.heads + {Head(project, c)})
    case OfUpload(Record(hash, _)) =>
      if hash in db.chunks then h else h.(storedAfter := h.storedAfter[hash := h.counted])
    case _ => h
  }

  // ---- the machine ----

  datatype Env = Env(sha: Bytes -> Hash, maxSize: nat)

  datatype Machine = Machine(env: Env, db: Db, trail: Trail, procs: map<nat, Proc>)

  datatype Action = Begin(pid: nat, proc: Proc) | Advance(pid: nat) | Stop(pid: nat)

  /** Where requests start, with the checks that precede the first store call. */
  ghost predicate Starts(env: Env, p: Proc) {
    match p
    case OfPush(q) => q.Gate?
    case OfMerge(q) => q.FindSource?
    case OfBranch(q) => q.FindFrom?
    case OfUpload(q) => q.Put? && |q.data| <= env.maxSize && env.sha(q.data) == q.hash
    case OfLocking(q) => q.Peek? || q.Unlock?
  }

  ghost predicate Next(m: Machine, a: Action, m': Machine) {
    && m'.env == m.env
    && match a
       case Begin(pid, p) =>
         && pid !in m.procs && Starts(m.env, p)
         && m' == m.(procs := m.procs[pid := p])
       case Advance(pid) =>
         && pid in m.procs && pid in m'.procs
         && ProcStep(m.db, m.procs[pid], m'.db, m'.procs[pid])
         && m'.trail == NoteStep(m.trail, m.db, m.procs[pid])
         && m'.procs == m.procs[pid := m'.procs[pid]]
       case Stop(pid) => pid in m.procs && m' == m.(procs := m.procs - {pid})
  }

  ghost predicate Initial(m: Machine) {
    m.db == EMPTY_DB && m.trail == EMPTY_TRAIL && m.procs == map[]
  }

  /** A run: machine states with the action taken between each and the next. */
  ghost predicate Run(ms: seq<Machine>, acts: seq<Action>) {
    && |ms| == |acts| + 1
    && Initial(ms[0])
    && forall i :: 0 <= i < |acts| ==> Next(ms[i], acts[i], ms[i + 1])
  }

  /** Requests one at a time: a request starts only when the one before it has ended or
      was stopped, at whatever step. */
  ghost predicate SerialRun(ms: seq<Machine>, acts: seq<Action>) {
    && Run(ms, acts)
    && forall i :: 0 <= i < |acts| && acts[i].Begin? ==> ms[i].procs == map[]
  }
}
