/** What a client downloads to go from one commit to another, and why that is enough to
    rebuild every listed file byte for byte. The service reads only the version rows that a
    commit itself created, so this is about those rows, not about whole snapshots. */
module Pull {
  import opened Tables
  import opened Requests
  import opened Stores
  import opened Counts
  import opened Chunks

  datatype FileAction = Added | Modified

  datatype DiffEntry = DiffEntry(file: FileId, action: FileAction, needed: seq<Hash>, manifest: seq<Hash>)

  /** The chunks a client of `from` has: all that its version rows list. */
  ghost function HaveOf(db: Db, from: Option<CommitId>): set<Hash> {
    if from.None? then {}
    else set v, h | v in VersionsBy(db, from.value) && h in db.versions[v].manifest.chunks :: h
  }

  ghost function Needed(db: Db, from: Option<CommitId>, row: Version): seq<Hash> {
    Lacking(row.manifest.chunks, HaveOf(db, from))
  }

  /** A fresh clone lists every row; otherwise a row is listed when it needs a download. */
  ghost predicate Lists(db: Db, from: Option<CommitId>, row: Version) {
    from.None? || Needed(db, from, row) != []
  }

  ghost function EntryOf(db: Db, from: Option<CommitId>, row: Version): DiffEntry {
    DiffEntry(row.file, if from.None? then Added else Modified, Needed(db, from, row), row.manifest.chunks)
  }

  /** The manifests' hashes of some rows, as a set. */
  method CollectHave(rows: seq<VersionRow>) returns (have: set<Hash>)
    ensures forall h :: h in have <==> exists r :: r in rows && h in r.row.manifest.chunks
  {
    have := {};
    for i := 0 to |rows|
      invariant forall h :: h in have <==> exists r :: r in rows[..i] && h in r.row.manifest.chunks
    {
      var chunks := rows[i].row.manifest.chunks;
      ghost var before := have;
      for j := 0 to |chunks|
        invariant forall h :: h in have <==> h in before || h in chunks[..j]
      {
        have := have + {chunks[j]};
      }
      assert chunks[..|chunks|] == chunks;
      assert rows[..i + 1] == rows[..i] + [rows[i]];
    }
    assert rows[..|rows|] == rows;
  }

  lemma HaveIsCollected(db: Db, c: CommitId, rows: seq<VersionRow>, have: set<Hash>)
    requires forall r :: r in rows <==> r.id in VersionsBy(db, c) && r.row == db.versions[r.id]
    requires forall h :: h in have <==> exists r :: r in rows && h in r.row.manifest.chunks
    ensures have == HaveOf(db, Some(c))
  {
    forall h ensures h in have <==> h in HaveOf(db, Some(c)) {
      if h in HaveOf(db, Some(c)) {
        var v :| v in VersionsBy(db, c) && h in db.versions[v].manifest.chunks;
        assert VersionRow(v, db.versions[v]) in rows;
      }
    }
  }

  /** The entries are those of the rows among `vs` that are to be listed, one for each. */
  ghost predicate ListsExactly(db: Db, from: Option<CommitId>, vs: set<VersionId>, result: seq<DiffEntry>)
    requires vs <= db.versions.Keys
  {
    && |result| == |Listed(db, from, vs)|
    && forall e :: e in result <==> exists v :: v in Listed(db, from, vs) && e == EntryOf(db, from, db.versions[v])
  }

  ghost function Listed(db: Db, from: Option<CommitId>, vs: set<VersionId>): set<VersionId>
    requires vs <= db.versions.Keys
  {
    set v | v in vs && Lists(db, from, db.versions[v])
  }

  lemma ListsOneMore(db: Db, from: Option<CommitId>, vs: set<VersionId>, result: seq<DiffEntry>, v: VersionId)
    requires vs <= db.versions.Keys && ListsExactly(db, from, vs, result) && v in db.versions && v !in vs
    ensures ListsExactly(db, from, vs + {v},
      if Lists(db, from, db.versions[v]) then result + [EntryOf(db, from, db.versions[v])] else result)
  {
    var listed, listed' := Listed(db, from, vs), Listed(db, from, vs + {v});
    if Lists(db, from, db.versions[v]) {
      assert listed' == listed + {v};
      var result' := result + [EntryOf(db, from, db.versions[v])];
      forall e ensures e in result' <==> exists u :: u in listed' && e == EntryOf(db, from, db.versions[u]) {
        assert e in result' <==> e in result || e == EntryOf(db, from, db.versions[v]);
        if e in result {
          var u :| u in listed && e == EntryOf(db, from, db.versions[u]);
          assert u in listed';
        }
        assert v in listed';
      }
    } else {
      assert listed' == listed;
    }
  }

  /** One row of the target commit: its entry, unless there is nothing to download. */
  method AddEntry(from: Option<CommitId>, row: Version, have: set<Hash>, result: seq<DiffEntry>, ghost db: Db)
    returns (result': seq<DiffEntry>)
    requires have == HaveOf(db, from)
    ensures result' == if Lists(db, from, row) then result + [EntryOf(db, from, row)] else result
  {
    var needed := CollectLacking(row.manifest.chunks, have);
    result' := result;
    if from.None? {
      result' := result + [DiffEntry(row.file, Added, needed, row.manifest.chunks)];
    } else if needed != [] {
      result' := result + [DiffEntry(row.file, Modified, needed, row.manifest.chunks)];
    }
  }

  // ---- what a diff means ----

  /** A version row of the commit, if there is one, lists the chunk. */
  ghost predicate HeldBy(db: Db, from: Option<CommitId>, h: Hash) {
    from.Some?
    && exists v :: v in db.versions && db.versions[v].commit == from.value && h in db.versions[v].manifest.chunks
  }

  /** The entry is the row's: its file, its whole manifest, and of that, with every repeat,
      what the client of `from` does not hold. */
  ghost predicate EntryFor(db: Db, from: Option<CommitId>, row: Version, e: DiffEntry) {
    && e.file == row.file && e.manifest == row.manifest.chunks
    && (e.action == Added <==> from.None?)
    && (forall h :: multiset(e.needed)[h] == if HeldBy(db, from, h) then 0 else multiset(row.manifest.chunks)[h])
    && (from.None? ==> e.needed == e.manifest)
  }

  /** Every entry is some row's of the target commit; every such row has its entry, unless
      the client of an earlier commit holds all its chunks. */
  ghost predicate DiffMeans(db: Db, from: Option<CommitId>, to: CommitId, result: seq<DiffEntry>) {
    && (forall e :: e in result ==>
          exists v :: v in db.versions && db.versions[v].commit == to && EntryFor(db, from, db.versions[v], e))
    && (forall v :: v in db.versions && db.versions[v].commit == to ==>
          || (exists e :: e in result && EntryFor(db, from, db.versions[v], e))
          || (from.Some? && forall h :: h in db.versions[v].manifest.chunks ==> HeldBy(db, from, h)))
  }

  lemma HaveMeans(db: Db, from: Option<CommitId>, h: Hash)
    ensures h in HaveOf(db, from) <==> HeldBy(db, from, h)
  {
    if from.Some? && h in HaveOf(db, from) {
      var v :| v in VersionsBy(db, from.value) && h in db.versions[v].manifest.chunks;
    }
    if HeldBy(db, from, h) {
      var v :| v in db.versions && db.versions[v].commit == from.value && h in db.versions[v].manifest.chunks;
      assert v in VersionsBy(db, from.value);
    }
  }

  lemma EntryMeans(db: Db, from: Option<CommitId>, row: Version)
    ensures EntryFor(db, from, row, EntryOf(db, from, row))
    ensures Lists(db, from, row) || (from.Some? && forall h :: h in row.manifest.chunks ==> HeldBy(db, from, h))
  {
    forall h
      ensures multiset(Needed(db, from, row))[h] == if HeldBy(db, from, h) then 0 else multiset(row.manifest.chunks)[h]
      ensures h in row.manifest.chunks && !HeldBy(db, from, h) ==> h in Needed(db, from, row)
    {
      HaveMeans(db, from, h);
      LackingCounts(row.manifest.chunks, HaveOf(db, from), h);
      assert h in row.manifest.chunks <==> multiset(row.manifest.chunks)[h] > 0;
      assert h in Needed(db, from, row) <==> multiset(Needed(db, from, row))[h] > 0;
    }
    if from.None? { NothingHadIsAllLacking(row.manifest.chunks); }
  }

  lemma ListingMeans(db: Db, from: Option<CommitId>, to: CommitId, result: seq<DiffEntry>)
    requires ListsExactly(db, from, VersionsBy(db, to), result)
    ensures DiffMeans(db, from, to, result)
  {
    forall e | e in result
      ensures exists v :: v in db.versions && db.versions[v].commit == to && EntryFor(db, from, db.versions[v], e)
    {
      var v :| v in Listed(db, from, VersionsBy(db, to)) && e == EntryOf(db, from, db.versions[v]);
      EntryMeans(db, from, db.versions[v]);
    }
    forall v | v in db.versions && db.versions[v].commit == to
      ensures
        || (exists e :: e in result && EntryFor(db, from, db.versions[v], e))
        || (from.Some? && forall h :: h in db.versions[v].manifest.chunks ==> HeldBy(db, from, h))
    {
      EntryMeans(db, from, db.versions[v]);
      if Lists(db, from, db.versions[v]) {
        assert v in Listed(db, from, VersionsBy(db, to));
        assert EntryOf(db, from, db.versions[v]) in result;
      }
    }
  }

  /** Lists exactly the rows of the target commit that are to be listed, one entry for each. */
  method ComputeDiff(store: Store, from: Option<CommitId>, to: CommitId) returns (result: seq<DiffEntry>)
    ensures ListsExactly(store.Model(), from, VersionsBy(store.Model(), to), result)
    ensures DiffMeans(store.Model(), from, to, result)
  {
    ghost var db := store.Model();
    var toRows := store.GetVersionsByCommit(to);
    var have := {};
    if from.Some? {
      var fromRows := store.GetVersionsByCommit(from.value);
      have := CollectHave(fromRows);
      HaveIsCollected(db, from.value, fromRows, have);
    }
    result := [];
    ghost var vs := {};
    for i := 0 to |toRows|
      invariant vs <= VersionsBy(db, to) && ListsExactly(db, from, vs, result)
      invariant forall v :: v in vs <==> exists j :: 0 <= j < i && toRows[j].id == v
    {
      assert toRows[i] in toRows;
      ListsOneMore(db, from, vs, result, toRows[i].id);
      result := AddEntry(from, toRows[i].row, have, result, db);
      vs := vs + {toRows[i].id};
    }
    assert vs == VersionsBy(db, to) by { AllRowsSeen(db, to, toRows, vs); }
    ListingMeans(db, from, to, result);
  }

  lemma AllRowsSeen(db: Db, c: CommitId, rows: seq<VersionRow>, vs: set<VersionId>)
    requires forall r :: r in rows <==> r.id in VersionsBy(db, c) && r.row == db.versions[r.id]
    requires vs <= VersionsBy(db, c)
    requires forall v :: v in vs <==> exists j :: 0 <= j < |rows| && rows[j].id == v
    ensures vs == VersionsBy(db, c)
  {
    forall v | v in VersionsBy(db, c) ensures v in vs {
      assert VersionRow(v, db.versions[v]) in rows;
    }
  }

  // ---- rebuilding ----

  ghost predicate NoCollisions(env: Env) {
    forall a, b :: env.sha(a) == env.sha(b) ==> a == b
  }

  /** The manifest a client makes of a file cut into pieces. */
  ghost function HashesOf(env: Env, pieces: seq<Bytes>): seq<Hash> {
    seq(|pieces|, i requires 0 <= i < |pieces| => env.sha(pieces[i]))
  }

  function Concat(pieces: seq<Bytes>): Bytes {
    if pieces == [] then [] else pieces[0] + Concat(pieces[1..])
  }

  /** Puts a file together from a chunk cache; the manifest gives the order. */
  function Assemble(manifest: seq<Hash>, cache: map<Hash, Bytes>): Option<Bytes> {
    if manifest == [] then Some([])
    else if manifest[0] !in cache then None
    else
      var rest := Assemble(manifest[1..], cache);
      if rest.None? then None else Some(cache[manifest[0]] + rest.value)
  }

  /** The blobs of exactly the listed hashes. */
  ghost predicate Downloads(db: Db, needed: seq<Hash>, got: map<Hash, Bytes>) {
    && (forall h :: h in got <==> h in needed)
    && (forall h :: h in got ==> h in db.blobs && got[h] == db.blobs[h])
  }

  /** A cache that holds what the rows of `from` list, each under its own hash. */
  ghost predicate Caches(env: Env, db: Db, from: Option<CommitId>, cache: map<Hash, Bytes>) {
    && (forall h :: HeldBy(db, from, h) ==> h in cache)
    && (forall h :: h in cache ==> env.sha(cache[h]) == h)
  }

  /** The client holds a listed file's pieces once it has what its entry says it needs. */
  ghost predicate Rebuilds(db: Db, e: DiffEntry, cache: map<Hash, Bytes>, content: Bytes) {
    forall got :: Downloads(db, e.needed, got) ==> Assemble(e.manifest, cache + got) == Some(content)
  }

  lemma {:induction false} AssembleRestores(env: Env, pieces: seq<Bytes>, cache: map<Hash, Bytes>)
    requires NoCollisions(env) && forall h :: h in cache ==> env.sha(cache[h]) == h
    requires forall h :: h in HashesOf(env, pieces) ==> h in cache
    ensures Assemble(HashesOf(env, pieces), cache) == Some(Concat(pieces))
  {
    if pieces != [] {
      var hashes := HashesOf(env, pieces);
      assert hashes[0] in hashes;
      assert env.sha(cache[hashes[0]]) == env.sha(pieces[0]);
      assert hashes[1..] == HashesOf(env, pieces[1..]);
      AssembleRestores(env, pieces[1..], cache);
    }
  }

  /** Every chunk of the manifest is to be downloaded or already there. */
  lemma DiffCovers(db: Db, from: Option<CommitId>, row: Version, e: DiffEntry, h: Hash)
    requires EntryFor(db, from, row, e)
    ensures h in e.manifest <==> h in e.needed || (h in row.manifest.chunks && HeldBy(db, from, h))
    ensures h in e.needed ==> !HeldBy(db, from, h)
  {
    assert h in row.manifest.chunks <==> multiset(row.manifest.chunks)[h] > 0;
    assert h in e.needed <==> multiset(e.needed)[h] > 0;
  }

  lemma EntryRebuilds(env: Env, db: Db, from: Option<CommitId>, row: Version, e: DiffEntry,
                      pieces: seq<Bytes>, cache: map<Hash, Bytes>)
    requires NoCollisions(env) && BlobsOk(env, db) && Caches(env, db, from, cache) && EntryFor(db, from, row, e)
    requires row.manifest.chunks == HashesOf(env, pieces)
    ensures Rebuilds(db, e, cache, Concat(pieces))
  {
    forall got | Downloads(db, e.needed, got)
      ensures Assemble(e.manifest, cache + got) == Some(Concat(pieces))
    {
      forall h | h in HashesOf(env, pieces) ensures h in cache + got {
        DiffCovers(db, from, row, e, h);
      }
      AssembleRestores(env, pieces, cache + got);
    }
  }

  /** In any state of any run: a client that holds the chunks of `from` puts every stored file
      of `to` together exactly as it was pushed. Either the diff has an entry for it, its
      downloads are there, and with them and the manifest of the entry the client has it;
      or it needs no download. */
  lemma PullRebuildsFiles(
    ms: seq<Machine>, acts: seq<Action>, n: nat, from: Option<CommitId>, to: CommitId, result: seq<DiffEntry>,
    v: VersionId, pieces: seq<Bytes>, cache: map<Hash, Bytes>)
    requires Run(ms, acts) && n < |ms| && NoCollisions(ms[0].env)
    requires DiffMeans(ms[n].db, from, to, result)
    requires v in ms[n].db.versions && ms[n].db.versions[v].commit == to
    requires ms[n].db.versions[v].manifest.chunks == HashesOf(ms[n].env, pieces)
    requires forall h :: h in ms[n].db.versions[v].manifest.chunks ==> h in ms[n].db.chunks
    requires Caches(ms[n].env, ms[n].db, from, cache)
    ensures var db := ms[n].db; var row := db.versions[v];
      || (exists e :: e in result && e.file == row.file && e.manifest == row.manifest.chunks
            && Rebuilds(db, e, cache, Concat(pieces)) && forall h :: h in e.needed ==> h in db.blobs)
      || (from.Some? && Assemble(row.manifest.chunks, cache) == Some(Concat(pieces)))
  {
    var m := ms[n];
    var row := m.db.versions[v];
    EnvStays(ms, acts, n);
    RunsKeepChunks(ms, acts, n);
    if e :| e in result && EntryFor(m.db, from, row, e) {
      EntryRebuilds(m.env, m.db, from, row, e, pieces, cache);
      forall h | h in e.needed ensures h in m.db.blobs {
        DiffCovers(m.db, from, row, e, h);
      }
    } else {
      AssembleRestores(m.env, pieces, cache);
    }
  }

  lemma {:induction false} EnvStays(ms: seq<Machine>, acts: seq<Action>, n: nat)
    requires Run(ms, acts) && n < |ms|
    ensures ms[n].env == ms[0].env
  {
    if n > 0 {
      EnvStays(ms, acts, n - 1);
      assert Next(ms[n - 1], acts[n - 1], ms[n]);
    }
  }
}
