/** The database as a value: one map per table, and one pair of functions per SQL
    statement that writes. `CanX` is what the schema's keys and foreign keys demand of
    the statement, `X` is the table state after it. Identifiers are opaque tokens, so
    they are numbers here; version id 0 stands for the empty string, which is not a UUID. */
module Tables {
  type ProjectId = nat
  type UserId = nat
  type CommitId = nat
  type FileId = nat
  type VersionId = nat
  type Name = string
  type Path = string
  type Hash = string
  type Bytes = seq<bv8>

  const ABSENT: VersionId := 0

  datatype Option<+T> = None | Some(value: T)

  datatype RefKey = RefKey(project: ProjectId, name: Name)
  datatype FileKey = FileKey(project: ProjectId, path: Path)
  datatype Commit = Commit(project: ProjectId, parents: seq<CommitId>, createdAt: int)
  datatype Manifest = Manifest(size: int, chunks: seq<Hash>)
  datatype Version = Version(file: FileId, commit: CommitId, manifest: Manifest)

  /** The rows of commit_files that belong to one commit: file to version. */
  type Snapshot = map<FileId, VersionId>

  datatype Db = Db(
    commits: map<CommitId, Commit>,
    snaps: map<CommitId, Snapshot>,
    refs: map<RefKey, CommitId>,
    files: map<FileKey, FileId>,
    versions: map<VersionId, Version>,
    chunks: map<Hash, int>,
    blobs: map<Hash, Bytes>,
    locks: map<FileKey, UserId>)

  const EMPTY_DB := Db(map[], map[], map[], map[], map[], map[], map[], map[])

  /** A commit without rows in commit_files has the empty snapshot. */
  function SnapOf(db: Db, c: CommitId): Snapshot {
    if c in db.snaps then db.snaps[c] else map[]
  }

  /** commit_files joined with files, as the merge reads it. */
  function TreeOf(db: Db, c: CommitId): Snapshot {
    map f | f in SnapOf(db, c) && f in db.files.Values :: SnapOf(db, c)[f]
  }

  ghost predicate Submap<K, V>(m: map<K, V>, n: map<K, V>) {
    forall k :: k in m ==> k in n && n[k] == m[k]
  }

  // ---- commits ----

  /** Primary key, and the foreign key on parent_id, which is the first parent. */
  predicate CanCreateCommit(db: Db, c: CommitId, row: Commit) {
    c !in db.commits && (row.parents != [] ==> row.parents[0] in db.commits)
  }

  function CreateCommit(db: Db, c: CommitId, row: Commit): Db {
    db.(commits := db.commits[c := row])
  }

  // ---- commit_files ----

  predicate CanSetFiles(db: Db, c: CommitId, rows: Snapshot) {
    rows != map[] ==>
      && c in db.commits
      && forall f :: f in rows ==>
        f in db.files.Values && rows[f] != ABSENT && rows[f] in db.versions
  }

  /** An empty batch returns before the statement is sent. */
  function SetFiles(db: Db, c: CommitId, rows: Snapshot): Db {
    if rows == map[] then db else db.(snaps := db.snaps[c := SnapOf(db, c) + rows])
  }

  // ---- refs ----

  predicate CanSetRef(db: Db, c: CommitId) {
    c in db.commits
  }

  function SetRef(db: Db, key: RefKey, c: CommitId): Db {
    db.(refs := db.refs[key := c])
  }

  // ---- files ----

  predicate CanUpsertFile(db: Db, key: FileKey, f: FileId) {
    key in db.files || f !in db.files.Values
  }

  function UpsertFile(db: Db, key: FileKey, f: FileId): Db {
    if key in db.files then db else db.(files := db.files[key := f])
  }

  // ---- file_versions ----

  predicate CanCreateVersion(db: Db, v: VersionId, row: Version) {
    v != ABSENT && v !in db.versions && row.file in db.files.Values && row.commit in db.commits
  }

  function CreateVersion(db: Db, v: VersionId, row: Version): Db {
    db.(versions := db.versions[v := row])
  }

  // ---- chunks and blobs ----

  function InsertChunk(db: Db, h: Hash): Db {
    if h in db.chunks then db else db.(chunks := db.chunks[h := 0])
  }

  /** One UPDATE over `hash = ANY(...)`: a hash listed twice counts once. */
  function IncrementChunks(db: Db, hashes: set<Hash>): Db {
    db.(chunks := map h | h in db.chunks ::
      if h in hashes then db.chunks[h] + 1 else db.chunks[h])
  }

  function PutBlob(db: Db, h: Hash, data: Bytes): Db {
    db.(blobs := db.blobs[h := data])
  }

  // ---- locks ----

  function InsertLock(db: Db, key: FileKey, user: UserId): Db {
    if key in db.locks then db else db.(locks := db.locks[key := user])
  }

  /** The rows a release deletes: any owner's when forced, otherwise only the caller's. */
  predicate Releases(db: Db, key: FileKey, user: UserId, force: bool) {
    key in db.locks && (force || db.locks[key] == user)
  }

  function DeleteLock(db: Db, key: FileKey, user: UserId, force: bool): Db {
    if Releases(db, key, user, force) then db.(locks := db.locks - {key}) else db
  }
}
