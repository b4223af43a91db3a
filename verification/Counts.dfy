/** Chunks: every recorded chunk has its blob, and every reference count is the number of
    pushes that counted the chunk after it was stored. Holds under every interleaving and
    every crash. */
module Counts {
  import opened Tables
  import opened Requests
  import opened Safety
  import opened SafetyProof
  import opened SafetyRuns

  /** The pushes that ran their increment after `x` was stored and list it in some file. */
  ghost function Counting(h: Trail, x: Hash): set<CommitId>
    requires x in h.storedAfter
  {
    set c | c in h.counted && c !in h.storedAfter[x] && c in h.pushes && ListsChunk(h.pushes[c].files, x)
  }

  ghost predicate CountOk(db: Db, h: Trail, x: Hash) {
    x in db.chunks ==>
      x in h.storedAfter && h.storedAfter[x] <= h.counted && db.chunks[x] == |Counting(h, x)|
  }

  ghost predicate CountsOk(db: Db, h: Trail) {
    h.counted <= h.pushes.Keys && forall x :: CountOk(db, h, x)
  }

  ghost predicate BlobsOk(env: Env, db: Db) {
    && db.chunks.Keys <= db.blobs.Keys
    && forall x :: x in db.blobs ==> env.sha(db.blobs[x]) == x
  }

  ghost predicate UploadKnows(env: Env, db: Db, p: Proc) {
    match p
    case OfUpload(Put(x, data)) => env.sha(data) == x
    case OfUpload(Record(x, _)) => x in db.blobs
    case _ => true
  }

  ghost predicate ChunkInv(m: Machine) {
    && BlobsOk(m.env, m.db) && CountsOk(m.db, m.trail)
    && forall i :: i in m.procs ==> UploadKnows(m.env, m.db, m.procs[i])
  }

  // ---- blobs ----

  lemma PushKeepsChunkKeys(p: Push, db: Db, db': Db, p': Push)
    requires PushStep(db, p, db', p')
    ensures db'.chunks.Keys == db.chunks.Keys && db'.blobs == db.blobs
    ensures !p.Count? ==> db'.chunks == db.chunks
  {
  }

  /** Merges never touch a count. */
  lemma MergeKeepsChunks(p: Merge, db: Db, db': Db, p': Merge)
    requires MergeStep(db, p, db', p')
    ensures db'.chunks == db.chunks && db'.blobs == db.blobs
  {
  }

  lemma BlobsKept(env: Env, db: Db, p: Proc, db': Db, p': Proc)
    requires BlobsOk(env, db) && UploadKnows(env, db, p) && ProcStep(db, p, db', p')
    ensures BlobsOk(env, db') && UploadKnows(env, db', p') && db.blobs.Keys <= db'.blobs.Keys
  {
    match p
    case OfPush(q) => PushKeepsChunkKeys(q, db, db', p'.push);
    case OfMerge(q) => MergeKeepsChunks(q, db, db', p'.merge);
    case OfBranch(_) =>
    case OfUpload(q) => UploadKeepsBlobs(env, db, q, db', p'.upload);
    case OfLocking(q) => LockKeepsChunks(q, db, db', p'.locking);
  }

  lemma UploadKeepsBlobs(env: Env, db: Db, p: Upload, db': Db, p': Upload)
    requires BlobsOk(env, db) && UploadKnows(env, db, OfUpload(p)) && UploadStep(db, p, db', p')
    ensures BlobsOk(env, db') && UploadKnows(env, db', OfUpload(p')) && db.blobs.Keys <= db'.blobs.Keys
  {
  }

  lemma LockKeepsChunks(p: Locking, db: Db, db': Db, p': Locking)
    requires LockStep(db, p, db', p')
    ensures db'.chunks == db.chunks && db'.blobs == db.blobs
  {
  }

  // ---- counts ----

  /** A push's increment adds itself to the counting set of each stored chunk it mentions,
      once, however often it repeats the hash. */
  lemma CountCounts(db: Db, h: Trail, req: PushReq, c: CommitId, x: Hash)
    requires CountsOk(db, h) && c in h.pushes && h.pushes[c] == req && c !in h.counted
    ensures CountOk(IncrementChunks(db, Mentions(req.files)), h.(counted := h.counted + {c}), x)
  {
    if x in db.chunks {
      assert CountOk(db, h, x);
      HashesAreListed(req.files, x);
      CountingGrows(h, req, c, x);
    }
  }

  lemma CountingGrows(h: Trail, req: PushReq, c: CommitId, x: Hash)
    requires x in h.storedAfter && h.storedAfter[x] <= h.counted
    requires c in h.pushes && h.pushes[c] == req && c !in h.counted
    ensures var h' := h.(counted := h.counted + {c});
      |Counting(h', x)| == |Counting(h, x)| + if ListsChunk(req.files, x) then 1 else 0
  {
    var h' := h.(counted := h.counted + {c});
    if ListsChunk(req.files, x) {
      assert Counting(h', x) == Counting(h, x) + {c};
    } else {
      assert Counting(h', x) == Counting(h, x);
    }
  }

  lemma NoHashesNoCount(db: Db, req: PushReq)
    requires AllHashes(req.files) == []
    ensures IncrementChunks(db, Mentions(req.files)) == db
  {
    assert Mentions(req.files) == {};
    assert IncrementChunks(db, {}).chunks == db.chunks;
  }

  lemma CreateKeepsCounts(db: Db, h: Trail, req: PushReq, c: CommitId, db': Db)
    requires CountsOk(db, h) && c !in h.pushes && db'.chunks == db.chunks
    ensures CountsOk(db', h.(pushes := h.pushes[c := req]))
  {
    var h' := h.(pushes := h.pushes[c := req]);
    forall x ensures CountOk(db', h', x) {
      assert CountOk(db, h, x);
      if x in db.chunks { assert Counting(h', x) == Counting(h, x); }
    }
  }

  lemma FrameKeepsCounts(db: Db, h: Trail, db': Db, h': Trail)
    requires CountsOk(db, h) && db'.chunks == db.chunks
    requires h'.pushes == h.pushes && h'.counted == h.counted && h'.storedAfter == h.storedAfter
    ensures CountsOk(db', h')
  {
    forall x ensures CountOk(db', h', x) {
      assert CountOk(db, h, x);
      if x in db.chunks { assert Counting(h', x) == Counting(h, x); }
    }
  }

  lemma PushTrail(h: Trail, p: Push)
    ensures NotePush(h, p).storedAfter == h.storedAfter
    ensures !p.Create? ==> NotePush(h, p).pushes == h.pushes
    ensures !p.Count? ==> NotePush(h, p).counted == h.counted
  {
  }

  lemma PushKeepsCounts(db: Db, h: Trail, p: Push, db': Db, p': Push)
    requires TablesOk(db, h) && PushKnows(db, h, p) && CountsOk(db, h) && PushStep(db, p, db', p')
    ensures CountsOk(db', NotePush(h, p))
  {
    if p.Count? {
      if AllHashes(p.req.files) == [] { NoHashesNoCount(db, p.req); }
      forall x ensures CountOk(db', NotePush(h, p), x) {
        CountCounts(db, h, p.req, p.commit, x);
      }
    } else {
      PushKeepsChunkKeys(p, db, db', p');
      if p.Create? {
        CreateKeepsCounts(db, h, p.req, p.commit, db');
      } else {
        PushTrail(h, p);
        FrameKeepsCounts(db, h, db', NotePush(h, p));
      }
    }
  }

  lemma RecordStartsAtZero(db: Db, h: Trail, x: Hash)
    requires CountsOk(db, h) && x !in db.chunks
    ensures CountsOk(InsertChunk(db, x), h.(storedAfter := h.storedAfter[x := h.counted]))
  {
    var h' := h.(storedAfter := h.storedAfter[x := h.counted]);
    forall y ensures CountOk(InsertChunk(db, x), h', y) {
      assert CountOk(db, h, y);
      if y == x {
        assert Counting(h', x) == {};
      } else if y in db.chunks {
        assert Counting(h', y) == Counting(h, y);
      }
    }
  }

  /** Recording a chunk that is there already changes nothing; a new one starts at zero. */
  lemma UploadKeepsCounts(db: Db, h: Trail, p: Upload, db': Db, p': Upload)
    requires CountsOk(db, h) && UploadStep(db, p, db', p')
    ensures CountsOk(db', NoteStep(h, db, OfUpload(p)))
    ensures forall x :: x in db.chunks ==> x in db'.chunks && db'.chunks[x] == db.chunks[x]
  {
    if p.Record? && p.hash !in db.chunks {
      RecordStartsAtZero(db, h, p.hash);
    } else {
      FrameKeepsCounts(db, h, db', NoteStep(h, db, OfUpload(p)));
    }
  }

  lemma MergeTrail(h: Trail, p: Merge)
    ensures var h' := NoteMerge(h, p);
      h'.pushes == h.pushes && h'.counted == h.counted && h'.storedAfter == h.storedAfter
  {
  }

  lemma CountsKept(db: Db, h: Trail, p: Proc, db': Db, p': Proc)
    requires TablesOk(db, h) && ProcKnows(db, h, p) && CountsOk(db, h) && ProcStep(db, p, db', p')
    ensures CountsOk(db', NoteStep(h, db, p))
  {
    match p
    case OfPush(q) => PushKeepsCounts(db, h, q, db', p'.push);
    case OfMerge(q) =>
      MergeKeepsChunks(q, db, db', p'.merge);
      MergeTrail(h, q);
      FrameKeepsCounts(db, h, db', NoteStep(h, db, p));
    case OfUpload(q) => UploadKeepsCounts(db, h, q, db', p'.upload);
    case OfBranch(_) => FrameKeepsCounts(db, h, db', NoteStep(h, db, p));
    case OfLocking(_) => FrameKeepsCounts(db, h, db', NoteStep(h, db, p));
  }

  // ---- runs ----

  lemma NextKeepsChunks(m: Machine, a: Action, m': Machine)
    requires Inv(m) && ChunkInv(m) && Next(m, a, m')
    ensures ChunkInv(m')
  {
    if a.Advance? {
      var p, p' := m.procs[a.pid], m'.procs[a.pid];
      CountsKept(m.db, m.trail, p, m'.db, p');
      BlobsKept(m.env, m.db, p, m'.db, p');
    }
  }

  lemma {:induction false} RunsKeepChunks(ms: seq<Machine>, acts: seq<Action>, i: nat)
    requires Run(ms, acts) && i < |ms|
    ensures ChunkInv(ms[i])
  {
    if i > 0 {
      RunsKeepChunks(ms, acts, i - 1);
      RunsAreSafe(ms, acts, i - 1);
      NextKeepsChunks(ms[i - 1], acts[i - 1], ms[i]);
    }
  }

  /** At every moment of every run each chunk row has a blob with that hash, and its count
      is the number of pushes that counted it since it was stored. */
  lemma ChunksAreBackedAndCounted(ms: seq<Machine>, acts: seq<Action>, i: nat, x: Hash)
    requires Run(ms, acts) && i < |ms| && x in ms[i].db.chunks
    ensures x in ms[i].db.blobs && ms[i].env.sha(ms[i].db.blobs[x]) == x
    ensures x in ms[i].trail.storedAfter && ms[i].db.chunks[x] == |Counting(ms[i].trail, x)|
  {
    RunsKeepChunks(ms, acts, i);
    assert CountOk(ms[i].db, ms[i].trail, x);
  }

  lemma StepKeepsStoredAfter(db: Db, h: Trail, p: Proc, db': Db, p': Proc, x: Hash)
    requires ProcStep(db, p, db', p') && x in db.chunks && x in h.storedAfter
    ensures var h' := NoteStep(h, db, p);
      x in db'.chunks && x in h'.storedAfter && h'.storedAfter[x] == h.storedAfter[x]
  {
    match p
    case OfPush(q) =>
      PushKeepsChunkKeys(q, db, db', p'.push);
      PushTrail(h, q);
    case OfMerge(q) =>
      MergeKeepsChunks(q, db, db', p'.merge);
      MergeTrail(h, q);
    case OfBranch(_) =>
    case OfUpload(_) =>
    case OfLocking(q) => LockKeepsChunks(q, db, db', p'.locking);
  }

  lemma NextKeepsStoredAfter(m: Machine, a: Action, m': Machine, x: Hash)
    requires ChunkInv(m) && Next(m, a, m') && x in m.db.chunks
    ensures x in m'.db.chunks && x in m.trail.storedAfter
    ensures x in m'.trail.storedAfter && m'.trail.storedAfter[x] == m.trail.storedAfter[x]
  {
    assert CountOk(m.db, m.trail, x);
    if a.Advance? {
      StepKeepsStoredAfter(m.db, m.trail, m.procs[a.pid], m'.db, m'.procs[a.pid], x);
    }
  }

  lemma {:induction false} StoredAfterIsFixed(ms: seq<Machine>, acts: seq<Action>, i: nat, j: nat, x: Hash)
    requires Run(ms, acts) && i <= j < |ms| && x in ms[i].db.chunks
    ensures x in ms[j].db.chunks && x in ms[j].trail.storedAfter
    ensures ms[j].trail.storedAfter[x] <= ms[i].trail.counted
    decreases j - i
  {
    if i == j {
      RunsKeepChunks(ms, acts, i);
      assert CountOk(ms[i].db, ms[i].trail, x);
    } else {
      StoredAfterIsFixed(ms, acts, i, j - 1, x);
      RunsKeepChunks(ms, acts, j - 1);
      NextKeepsStoredAfter(ms[j - 1], acts[j - 1], ms[j], x);
    }
  }

  /** A stored chunk whose count is still zero is in no file of any push whose counting has
      run since the chunk was stored. */
  lemma ZeroCountMeansUnused(ms: seq<Machine>, acts: seq<Action>, i: nat, j: nat, x: Hash, c: CommitId)
    requires Run(ms, acts) && i <= j < |ms|
    requires x in ms[i].db.chunks && x in ms[j].db.chunks && ms[j].db.chunks[x] == 0
    requires c in ms[j].trail.counted && c !in ms[i].trail.counted
    ensures c in ms[j].trail.pushes && !ListsChunk(ms[j].trail.pushes[c].files, x)
  {
    var h := ms[j].trail;
    RunsKeepChunks(ms, acts, j);
    StoredAfterIsFixed(ms, acts, i, j, x);
    ChunksAreBackedAndCounted(ms, acts, j, x);
    assert Counting(h, x) == {};
    assert c !in Counting(h, x);
  }

  // ---- counting the increments of a run ----

  /** The action is the increment of a push that lists the chunk in some file. */
  ghost predicate Increments(m: Machine, a: Action, x: Hash) {
    && a.Advance? && a.pid in m.procs && m.procs[a.pid].OfPush? && m.procs[a.pid].push.Count?
    && ListsChunk(m.procs[a.pid].push.req.files, x)
  }

  ghost function IncrementsBetween(ms: seq<Machine>, acts: seq<Action>, i: nat, j: nat, x: Hash): nat
    requires i <= j <= |acts| < |ms|
    decreases j - i
  {
    if i == j then 0
    else IncrementsBetween(ms, acts, i, j - 1, x) + if Increments(ms[j - 1], acts[j - 1], x) then 1 else 0
  }

  lemma PushCountsStep(p: Push, db: Db, db': Db, p': Push, x: Hash)
    requires PushStep(db, p, db', p') && x in db.chunks
    ensures x in db'.chunks
    ensures db'.chunks[x] == db.chunks[x] + if p.Count? && ListsChunk(p.req.files, x) then 1 else 0
  {
    PushKeepsChunkKeys(p, db, db', p');
    HashesAreListed(p.req.files, x);
  }

  lemma OtherCountsStep(p: Proc, db: Db, db': Db, p': Proc, x: Hash)
    requires ProcStep(db, p, db', p') && x in db.chunks && !p.OfPush?
    ensures x in db'.chunks && db'.chunks[x] == db.chunks[x]
  {
    match p
    case OfMerge(q) => MergeKeepsChunks(q, db, db', p'.merge);
    case OfLocking(q) => LockKeepsChunks(q, db, db', p'.locking);
    case OfBranch(_) =>
    case OfUpload(_) =>
  }

  lemma NextCountsStep(m: Machine, a: Action, m': Machine, x: Hash)
    requires Next(m, a, m') && x in m.db.chunks
    ensures x in m'.db.chunks
    ensures m'.db.chunks[x] == m.db.chunks[x] + if Increments(m, a, x) then 1 else 0
  {
    if a.Advance? {
      var p := m.procs[a.pid];
      if p.OfPush? {
        PushCountsStep(p.push, m.db, m'.db, m'.procs[a.pid].push, x);
      } else {
        OtherCountsStep(p, m.db, m'.db, m'.procs[a.pid], x);
      }
    }
  }

  lemma {:induction false} GrowsAlong(ms: seq<Machine>, acts: seq<Action>, i: nat, j: nat, x: Hash)
    requires i <= j <= |acts| < |ms| && x in ms[i].db.chunks
    requires forall n :: i <= n < j && x in ms[n].db.chunks ==>
      && x in ms[n + 1].db.chunks
      && ms[n + 1].db.chunks[x] == ms[n].db.chunks[x] + if Increments(ms[n], acts[n], x) then 1 else 0
    ensures x in ms[j].db.chunks
    ensures ms[j].db.chunks[x] == ms[i].db.chunks[x] + IncrementsBetween(ms, acts, i, j, x)
    decreases j - i
  {
    if i < j { GrowsAlong(ms, acts, i, j - 1, x); }
  }

  /** Under every interleaving a count grows by exactly the increments taken for it. */
  lemma CountGrowsByIncrements(ms: seq<Machine>, acts: seq<Action>, i: nat, j: nat, x: Hash)
    requires Run(ms, acts) && i <= j <= |acts| && x in ms[i].db.chunks
    ensures x in ms[j].db.chunks
    ensures ms[j].db.chunks[x] == ms[i].db.chunks[x] + IncrementsBetween(ms, acts, i, j, x)
  {
    forall n | i <= n < j && x in ms[n].db.chunks
      ensures x in ms[n + 1].db.chunks
      ensures ms[n + 1].db.chunks[x] == ms[n].db.chunks[x] + if Increments(ms[n], acts[n], x) then 1 else 0
    {
      NextCountsStep(ms[n], acts[n], ms[n + 1], x);
    }
    GrowsAlong(ms, acts, i, j, x);
  }
}
