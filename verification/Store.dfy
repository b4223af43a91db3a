/** The stores over one database: one method per SQL statement or object-storage call. A
    statement that writes may fail for reasons outside the model (`fault`), and then it
    changes nothing; otherwise it does what the schema allows, and on a reliable store it
    always does. Reads do not fail. */
module Stores {
  import opened Tables
  import opened Ancestry
  import opened Merging
  import opened Requests

  datatype VersionRow = VersionRow(id: VersionId, row: Version)

  function VersionsBy(db: Db, c: CommitId): set<VersionId> {
    set v | v in db.versions && db.versions[v].commit == c
  }

  class Store {
    var commits: map<CommitId, Commit>
    var snaps: map<CommitId, Snapshot>
    var refs: map<RefKey, CommitId>
    var files: map<FileKey, FileId>
    var versions: map<VersionId, Version>
    var chunks: map<Hash, int>
    var blobs: map<Hash, Bytes>
    var locks: map<FileKey, UserId>

    /** Every write that the schema allows goes through. */
    const reliable: bool

    ghost function Model(): Db
      reads this
    {
      Db(commits, snaps, refs, files, versions, chunks, blobs, locks)
    }

    constructor (reliable: bool)
      ensures Model() == EMPTY_DB && this.reliable == reliable
    {
      this.reliable := reliable;
      commits, snaps, refs, files := map[], map[], map[], map[];
      versions, chunks, blobs, locks := map[], map[], map[], map[];
    }

    // ---- commits ----

    method CreateCommitRow(c: CommitId, row: Commit) returns (ok: bool)
      modifies this
      ensures ok ==> CanCreateCommit(old(Model()), c, row) && Model() == CreateCommit(old(Model()), c, row)
      ensures !ok ==> Model() == old(Model())
      ensures reliable && CanCreateCommit(old(Model()), c, row) ==> ok
      ensures ok ==> c !in old(commits) && (row.parents != [] ==> row.parents[0] in old(commits))
      ensures reliable && c !in old(commits) && (row.parents != [] ==> row.parents[0] in old(commits)) ==> ok
      ensures commits == (if ok then old(commits)[c := row] else old(commits))
      ensures Model() == old(Model()).(commits := commits)
    {
      var fault: bool := *;
      if (fault && !reliable) || c in commits || (row.parents != [] && row.parents[0] !in commits) { return false; }
      commits := commits[c := row];
      return true;
    }

    method SetCommitFiles(c: CommitId, rows: Snapshot) returns (ok: bool)
      modifies this
      ensures ok ==> CanSetFiles(old(Model()), c, rows) && Model() == SetFiles(old(Model()), c, rows)
      ensures !ok ==> Model() == old(Model())
      ensures reliable && CanSetFiles(old(Model()), c, rows) ==> ok
      ensures ok && rows != map[] ==> c in old(commits)
      ensures ok ==> forall f :: f in rows ==> f in old(files).Values && rows[f] != ABSENT && rows[f] in old(versions)
      ensures ok && rows != map[] ==>
        c in snaps && snaps[c] == (if c in old(snaps) then old(snaps)[c] else map[]) + rows
      ensures forall x :: x != c || !ok || rows == map[] ==> (x in snaps <==> x in old(snaps))
      ensures forall x :: (x != c || !ok || rows == map[]) && x in snaps ==> snaps[x] == old(snaps)[x]
      ensures Model() == old(Model()).(snaps := snaps)
    {
      if rows == map[] { return true; }
      var fault: bool := *;
      if (fault && !reliable) || c !in commits
         || exists f :: f in rows && (f !in files.Values || rows[f] == ABSENT || rows[f] !in versions)
      {
        return false;
      }
      snaps := snaps[c := (if c in snaps then snaps[c] else map[]) + rows];
      return true;
    }

    /** Lists the rows of a snapshot in whatever order they come. */
    static method ListRows(m: Snapshot) returns (rows: seq<Entry>)
      ensures Enumerates(rows, m.Keys, m)
    {
      rows := [];
      var todo := m.Keys;
      ghost var done := {};
      while todo != {}
        invariant todo == m.Keys - done && done <= m.Keys
        invariant Enumerates(rows, done, m)
        decreases todo
      {
        var f :| f in todo;
        EnumeratesOneMore(rows, done, m, f);
        rows := rows + [Entry(f, m[f])];
        todo := todo - {f};
        done := done + {f};
      }
      assert done == m.Keys;
    }

    method GetCommitSnapshot(c: CommitId) returns (rows: seq<Entry>)
      ensures Enumerates(rows, SnapOf(Model(), c).Keys, SnapOf(Model(), c))
    {
      rows := ListRows(if c in snaps then snaps[c] else map[]);
    }

    method GetCommitSnapshotWithPaths(c: CommitId) returns (rows: seq<Entry>)
      ensures Enumerates(rows, TreeOf(Model(), c).Keys, TreeOf(Model(), c))
    {
      var m := if c in snaps then snaps[c] else map[];
      rows := ListRows(map f | f in m && f in files.Values :: m[f]);
    }

    method IsAncestor(ancestor: CommitId, descendant: CommitId) returns (found: bool)
      ensures found <==> Reaches(Model().commits, descendant, ancestor)
    {
      found := Ancestry.IsAncestor(commits, ancestor, descendant);
    }

    method FindMergeBase(a: CommitId, b: CommitId) returns (base: Option<CommitId>)
      ensures base.None? <==> Common(Model().commits, a, b) == {}
      ensures base.None? <==> forall c :: !(Reaches(commits, a, c) && Reaches(commits, b, c))
      ensures base.Some? ==> IsMergeBase(Model().commits, a, b, base.value)
    {
      base := Ancestry.FindMergeBase(commits, a, b);
    }

    // ---- refs ----

    method GetRef(key: RefKey) returns (c: Option<CommitId>)
      ensures c == if key in Model().refs then Some(Model().refs[key]) else None
    {
      c := if key in refs then Some(refs[key]) else None;
    }

    method UpsertRef(key: RefKey, c: CommitId) returns (ok: bool)
      modifies this
      ensures ok ==> CanSetRef(old(Model()), c) && Model() == SetRef(old(Model()), key, c)
      ensures !ok ==> Model() == old(Model())
      ensures reliable && CanSetRef(old(Model()), c) ==> ok
      ensures ok ==> c in commits
      ensures reliable && c in old(commits) ==> ok
      ensures refs == (if ok then old(refs)[key := c] else old(refs))
      ensures Model() == old(Model()).(refs := refs)
    {
      var fault: bool := *;
      if (fault && !reliable) || c !in commits { return false; }
      refs := refs[key := c];
      return true;
    }

    // ---- files ----

    method Upsert(key: FileKey, f: FileId) returns (ok: bool)
      modifies this
      ensures ok ==> CanUpsertFile(old(Model()), key, f) && Model() == UpsertFile(old(Model()), key, f)
      ensures !ok ==> Model() == old(Model())
      ensures reliable && CanUpsertFile(old(Model()), key, f) ==> ok
      ensures ok && key !in old(files) ==> f !in old(files).Values && files == old(files)[key := f]
      ensures !ok || key in old(files) ==> files == old(files)
      ensures reliable && (key in old(files) || f !in old(files).Values) ==> ok
      ensures Model() == old(Model()).(files := files)
    {
      var fault: bool := *;
      if (fault && !reliable) || (key !in files && f in files.Values) { return false; }
      if key !in files { files := files[key := f]; }
      return true;
    }

    method GetByPath(key: FileKey) returns (f: Option<FileId>)
      ensures f == if key in Model().files then Some(Model().files[key]) else None
    {
      f := if key in files then Some(files[key]) else None;
    }

    method CreateVersionRow(v: VersionId, row: Version) returns (ok: bool)
      modifies this
      ensures ok ==> CanCreateVersion(old(Model()), v, row) && Model() == CreateVersion(old(Model()), v, row)
      ensures !ok ==> Model() == old(Model())
      ensures reliable && CanCreateVersion(old(Model()), v, row) ==> ok
      ensures ok ==> v != ABSENT && v !in old(versions) && row.file in files.Values && row.commit in commits
      ensures reliable ==>
        v != ABSENT && v !in old(versions) && row.file in old(files).Values && row.commit in old(commits) ==> ok
      ensures versions == (if ok then old(versions)[v := row] else old(versions))
      ensures Model() == old(Model()).(versions := versions)
    {
      var fault: bool := *;
      if (fault && !reliable) || v == ABSENT || v in versions || row.file !in files.Values || row.commit !in commits {
        return false;
      }
      versions := versions[v := row];
      return true;
    }

    /** The version rows one commit created, each once, in whatever order they come. */
    method GetVersionsByCommit(c: CommitId) returns (rows: seq<VersionRow>)
      ensures forall r :: r in rows <==> r.id in VersionsBy(Model(), c) && r.row == Model().versions[r.id]
      ensures forall i, j :: 0 <= i < j < |rows| ==> rows[i].id != rows[j].id
    {
      rows := [];
      var todo := versions.Keys;
      while todo != {}
        invariant todo <= versions.Keys
        invariant forall r :: r in rows <==> r.id in VersionsBy(Model(), c) - todo && r.row == versions[r.id]
        invariant forall i, j :: 0 <= i < j < |rows| ==> rows[i].id != rows[j].id
      {
        var v :| v in todo;
        assert forall i :: 0 <= i < |rows| ==> rows[i] in rows && rows[i].id != v;
        if versions[v].commit == c { rows := rows + [VersionRow(v, versions[v])]; }
        todo := todo - {v};
      }
    }

    // ---- chunks and blobs ----

    method InsertChunkRow(h: Hash) returns (ok: bool)
      modifies this
      ensures Model() == if ok then InsertChunk(old(Model()), h) else old(Model())
      ensures reliable ==> ok
      ensures chunks == (if ok && h !in old(chunks) then old(chunks)[h := 0] else old(chunks))
      ensures Model() == old(Model()).(chunks := chunks)
    {
      var fault: bool := *;
      if fault && !reliable { return false; }
      if h !in chunks { chunks := chunks[h := 0]; }
      return true;
    }

    method IncrementRefCount(hashes: seq<Hash>) returns (ok: bool)
      modifies this
      ensures Model() == if ok then IncrementChunks(old(Model()), set h | h in hashes) else old(Model())
      ensures reliable ==> ok
      ensures chunks.Keys == old(chunks).Keys
      ensures forall h :: h in chunks ==> chunks[h] == old(chunks)[h] + (if ok && h in hashes then 1 else 0)
      ensures Model() == old(Model()).(chunks := chunks)
    {
      var fault: bool := *;
      if fault && !reliable { return false; }
      chunks := map h | h in chunks :: if h in hashes then chunks[h] + 1 else chunks[h];
      return true;
    }

    /** The join with the listed hashes: a stored hash comes back once per time it is listed,
        in no promised order. */
    method CheckExisting(hashes: seq<Hash>) returns (existing: seq<Hash>)
      ensures forall h :: multiset(existing)[h] == if h in Model().chunks then multiset(hashes)[h] else 0
    {
      existing := [];
      for i := 0 to |hashes|
        invariant forall h :: multiset(existing)[h] == if h in chunks then multiset(hashes[..i])[h] else 0
      {
        assert hashes[..i + 1] == hashes[..i] + [hashes[i]];
        if hashes[i] in chunks { existing := existing + [hashes[i]]; }
      }
      assert hashes[..|hashes|] == hashes;
    }

    method HasChunk(h: Hash) returns (found: bool)
      ensures found <==> h in Model().chunks
    {
      found := h in chunks;
    }

    method PutObject(h: Hash, data: Bytes) returns (ok: bool)
      modifies this
      ensures Model() == if ok then PutBlob(old(Model()), h, data) else old(Model())
      ensures reliable ==> ok
      ensures blobs == (if ok then old(blobs)[h := data] else old(blobs))
      ensures Model() == old(Model()).(blobs := blobs)
    {
      var fault: bool := *;
      if fault && !reliable { return false; }
      blobs := blobs[h := data];
      return true;
    }

    method GetObject(h: Hash) returns (data: Option<Bytes>)
      ensures data == if h in Model().blobs then Some(Model().blobs[h]) else None
    {
      data := if h in blobs then Some(blobs[h]) else None;
    }

    // ---- locks ----

    method GetLock(key: FileKey) returns (user: Option<UserId>)
      ensures user == if key in Model().locks then Some(Model().locks[key]) else None
    {
      user := if key in locks then Some(locks[key]) else None;
    }

    /** ON CONFLICT DO NOTHING: an existing row is left and the call still succeeds. */
    method InsertLockRow(key: FileKey, user: UserId) returns (ok: bool)
      modifies this
      ensures Model() == if ok then InsertLock(old(Model()), key, user) else old(Model())
      ensures reliable ==> ok
      ensures locks == (if ok && key !in old(locks) then old(locks)[key := user] else old(locks))
      ensures Model() == old(Model()).(locks := locks)
    {
      var fault: bool := *;
      if fault && !reliable { return false; }
      if key !in locks { locks := locks[key := user]; }
      return true;
    }

    /** Forced, any row goes; otherwise only the user's own, and no row deleted is an error. */
    method ReleaseLock(key: FileKey, user: UserId, force: bool) returns (ok: bool)
      modifies this
      ensures ok ==> force || Releases(old(Model()), key, user, force)
      ensures Model() == if ok then DeleteLock(old(Model()), key, user, force) else old(Model())
      ensures reliable && (force || Releases(old(Model()), key, user, force)) ==> ok
      ensures ok ==> force || (key in old(locks) && old(locks)[key] == user)
      ensures reliable && (force || (key in old(locks) && old(locks)[key] == user)) ==> ok
      ensures locks == (if ok then old(locks) - {key} else old(locks))
      ensures Model() == old(Model()).(locks := locks)
    {
      var fault: bool := *;
      if fault && !reliable { return false; }
      if force {
        locks := locks - {key};
        return true;
      }
      if key !in locks || locks[key] != user { return false; }
      locks := locks - {key};
      return true;
    }

    /** The locks on the given paths that other users hold. */
    method CheckPaths(project: ProjectId, paths: seq<Path>, user: UserId) returns (conflicting: seq<FileKey>)
      ensures forall k :: k in conflicting <==>
        k in Model().locks && k.project == project && k.path in paths && Model().locks[k] != user
    {
      conflicting := [];
      var todo := locks.Keys;
      while todo != {}
        invariant todo <= locks.Keys
        invariant forall k :: k in conflicting <==>
          k in locks && k !in todo && k.project == project && k.path in paths && locks[k] != user
      {
        var k :| k in todo;
        if k.project == project && k.path in paths && locks[k] != user {
          conflicting := conflicting + [k];
        }
        todo := todo - {k};
      }
    }
  }
}
