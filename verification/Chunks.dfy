/** The chunk service: uploads are checked against their hash before anything is written,
    the blob goes in before the row, and a download looks for the row before the blob. */
module Chunks {
  import opened Tables
  import opened Requests
  import opened Solo
  import opened Stores
  import opened Counts
  import opened Services

  /** The listed hashes that are not in `have`, in order, with repeats. */
  function Lacking(hashes: seq<Hash>, have: set<Hash>): seq<Hash> {
    if hashes == [] then []
    else
      var rest := Lacking(hashes[..|hashes| - 1], have);
      var h := hashes[|hashes| - 1];
      if h in have then rest else rest + [h]
  }

  /** Every listed hash is lacking as often as it is listed, unless it is there. */
  lemma {:induction false} LackingCounts(hashes: seq<Hash>, have: set<Hash>, h: Hash)
    ensures multiset(Lacking(hashes, have))[h] == if h in have then 0 else multiset(hashes)[h]
  {
    if hashes != [] {
      var n := |hashes| - 1;
      assert hashes == hashes[..n] + [hashes[n]];
      LackingCounts(hashes[..n], have, h);
    }
  }

  /** Filtering goes hash by hash, so the order is kept. */
  lemma {:induction false} LackingSplits(a: seq<Hash>, b: seq<Hash>, have: set<Hash>)
    ensures Lacking(a + b, have) == Lacking(a, have) + Lacking(b, have)
    ensures forall h :: Lacking([h], have) == if h in have then [] else [h]
  {
    if b == [] {
      assert a + b == a;
    } else {
      var n := |b| - 1;
      assert (a + b)[..|a + b| - 1] == a + b[..n];
      LackingSplits(a, b[..n], have);
    }
  }

  lemma {:induction false} NothingHadIsAllLacking(hashes: seq<Hash>)
    ensures Lacking(hashes, {}) == hashes
  {
    if hashes != [] {
      NothingHadIsAllLacking(hashes[..|hashes| - 1]);
    }
  }

  /** The filtering loop that both CheckExisting and ComputeDiff run. */
  method CollectLacking(hashes: seq<Hash>, have: set<Hash>) returns (needed: seq<Hash>)
    ensures needed == Lacking(hashes, have)
  {
    needed := [];
    for i := 0 to |hashes|
      invariant needed == Lacking(hashes[..i], have)
    {
      assert hashes[..i + 1][..i] == hashes[..i];
      if hashes[i] !in have { needed := needed + [hashes[i]]; }
    }
    assert hashes[..|hashes|] == hashes;
  }

  /** The two lists together are the request again, the stored hashes in one and the rest,
      in their order, in the other. The room reserved for `needed` is never negative. */
  method CheckExisting(store: Store, hashes: seq<Hash>) returns (existing: seq<Hash>, needed: seq<Hash>)
    ensures multiset(existing) + multiset(needed) == multiset(hashes)
    ensures forall h :: h in existing ==> h in store.Model().chunks
    ensures needed == Lacking(hashes, store.Model().chunks.Keys)
    ensures |existing| <= |hashes|
  {
    existing := store.CheckExisting(hashes);
    var existSet := {};
    for i := 0 to |existing|
      invariant forall h :: h in existSet <==> h in existing[..i]
    {
      existSet := existSet + {existing[i]};
    }
    needed := CollectLacking(hashes, existSet);
    ExistingSplits(hashes, existing, store.Model().chunks.Keys, existSet);
  }

  lemma ExistingSplits(hashes: seq<Hash>, existing: seq<Hash>, stored: set<Hash>, existSet: set<Hash>)
    requires forall h :: multiset(existing)[h] == if h in stored then multiset(hashes)[h] else 0
    requires forall h :: h in existSet <==> h in existing
    ensures multiset(existing) + multiset(Lacking(hashes, existSet)) == multiset(hashes)
    ensures forall h :: h in existing ==> h in stored
    ensures Lacking(hashes, existSet) == Lacking(hashes, stored)
    ensures |existing| <= |hashes|
  {
    forall h ensures (h in existing ==> h in stored) && (h in hashes ==> (h in existSet <==> h in stored)) {
      assert h in existing <==> multiset(existing)[h] > 0;
      assert h in hashes <==> multiset(hashes)[h] > 0;
    }
    LackingAgrees(hashes, existSet, stored);
    forall h
      ensures (multiset(existing) + multiset(Lacking(hashes, stored)))[h] == multiset(hashes)[h]
    {
      LackingCounts(hashes, stored, h);
    }
    assert multiset(existing) + multiset(Lacking(hashes, stored)) == multiset(hashes);
    assert |multiset(existing) + multiset(Lacking(hashes, stored))| == |existing| + |Lacking(hashes, stored)|;
  }

  lemma {:induction false} LackingAgrees(hashes: seq<Hash>, a: set<Hash>, b: set<Hash>)
    requires forall h :: h in hashes ==> (h in a <==> h in b)
    ensures Lacking(hashes, a) == Lacking(hashes, b)
  {
    if hashes != [] { LackingAgrees(hashes[..|hashes| - 1], a, b); }
  }

  /** Whatever becomes of it, an upload leaves every stored chunk backed by the bytes its
      hash names; a served one leaves its own chunk stored, and no count changed. */
  method Upload(store: Store, env: Env, expected: Hash, data: Bytes, ghost h: Trail)
    returns (r: Result<Hash>, ghost run: seq<State>)
    modifies store
    ensures SoloRun(run) && run[0] == State(old(store.Model()), h, OfUpload(Put(expected, data)))
    ensures Last(run).db == store.Model()
    ensures r == Failure(ChunkTooLarge) <==> |data| > env.maxSize
    ensures r == Failure(ChunkHashMismatch) <==> |data| <= env.maxSize && env.sha(data) != expected
    ensures |data| > env.maxSize || env.sha(data) != expected ==> store.Model() == old(store.Model())
    ensures r.Success? ==> Last(run).proc == OfUpload(Stored(expected))
    ensures store.reliable ==> r != Failure(StoreFailed)
    ensures r.Success? ==> expected in store.Model().chunks
    ensures r.Success? ==> expected in store.Model().blobs && store.Model().blobs[expected] == data
    ensures forall x :: x in old(store.Model()).chunks ==>
      x in store.Model().chunks && store.Model().chunks[x] == old(store.Model()).chunks[x]
    ensures BlobsOk(env, old(store.Model())) ==> BlobsOk(env, store.Model())
  {
    run := [State(store.Model(), h, OfUpload(Put(expected, data)))];
    if |data| > env.maxSize { return Failure(ChunkTooLarge), run; }
    var actual := env.sha(data);
    if actual != expected { return Failure(ChunkHashMismatch), run; }
    var ok := store.PutObject(actual, data);
    if !ok { return Failure(StoreFailed), run; }
    run := Then(run, store.Model(), OfUpload(Record(expected, data)));
    ok := store.InsertChunkRow(actual);
    if !ok { return Failure(StoreFailed), run; }
    run := Then(run, store.Model(), OfUpload(Stored(expected)));
    r := Success(actual);
  }

  /** On a database whose rows are backed, a stored hash always yields bytes with that hash. */
  method Download(store: Store, env: Env, hash: Hash) returns (r: Result<Bytes>)
    ensures r == Failure(ChunkNotFound) <==> hash !in store.Model().chunks
    ensures r.Success? ==> hash in store.Model().blobs && r.value == store.Model().blobs[hash]
    ensures BlobsOk(env, store.Model()) && hash in store.Model().chunks ==> r.Success? && env.sha(r.value) == hash
  {
    var found := store.HasChunk(hash);
    if !found { return Failure(ChunkNotFound); }
    var data := store.GetObject(hash);
    if data.None? { return Failure(StoreFailed); }
    r := Success(data.value);
  }
}
