/** A request served without interruption, as the run of its process. The services below
    return the run they make, so what holds along runs holds of them. */
module Solo {
  import opened Tables
  import opened Ancestry
  import opened Merging
  import opened Requests
  import opened Safety
  import opened SafetyProof
  import opened Serial
  import opened SerialProof
  import opened SerialRuns

  datatype State = State(db: Db, trail: Trail, proc: Proc)

  ghost predicate SoloStep(a: State, b: State) {
    ProcStep(a.db, a.proc, b.db, b.proc) && b.trail == NoteStep(a.trail, a.db, a.proc)
  }

  ghost predicate SoloRun(run: seq<State>) {
    run != [] && forall i :: 0 <= i < |run| - 1 ==> SoloStep(run[i], run[i + 1])
  }

  function Last(run: seq<State>): State
    requires run != []
  {
    run[|run| - 1]
  }

  /** The run from `start` has come to `at`. */
  ghost predicate Came(run: seq<State>, start: State, at: State) {
    SoloRun(run) && run[0] == start && Last(run) == at
  }

  /** One store call further. */
  ghost function Then(run: seq<State>, db': Db, proc': Proc): (run': seq<State>)
    requires SoloRun(run) && ProcStep(Last(run).db, Last(run).proc, db', proc')
    ensures Came(run', run[0], State(db', NoteStep(Last(run).trail, Last(run).db, Last(run).proc), proc'))
  {
    run + [State(db', NoteStep(Last(run).trail, Last(run).db, Last(run).proc), proc')]
  }

  ghost predicate Healthy(db: Db, h: Trail) {
    Good(db, h) && SerialDb(db, h)
  }

  /** A healthy database and a request that is right about it. */
  ghost predicate Sound(s: State) {
    Healthy(s.db, s.trail) && ProcKnows(s.db, s.trail, s.proc) && SerialKnows(s.db, s.trail, s.proc)
  }

  /** From a healthy database, every state a request passes through is healthy, so it may
      stop anywhere. */
  lemma {:induction false} SoloRunStaysHealthy(run: seq<State>, i: nat)
    requires SoloRun(run) && i < |run| && Sound(run[0])
    ensures Healthy(run[i].db, run[i].trail)
    ensures ProcKnows(run[i].db, run[i].trail, run[i].proc) && SerialKnows(run[i].db, run[i].trail, run[i].proc)
  {
    if i > 0 {
      SoloRunStaysHealthy(run, i - 1);
      assert SoloStep(run[i - 1], run[i]);
      StepKeeps(run[i - 1].db, run[i - 1].trail, run[i - 1].proc, run[i].db, run[i].proc);
      StepKeepsSerial(run[i - 1].db, run[i - 1].trail, run[i - 1].proc, run[i].db, run[i].proc);
    }
  }

  // ---- nothing but the store stops an allowed request ----

  /** A parent that matches the branch is stored. */
  lemma PushCanCreate(run: seq<State>, req: PushReq)
    requires SoloRun(run) && Sound(run[0]) && Last(run).proc == OfPush(Check(req))
    requires req.ref != "" && ParentMatches(Last(run).db.refs, req)
    ensures req.parent.Some? ==> req.parent.value in Last(run).db.commits
  {
    SoloRunStaysHealthy(run, |run| - 1);
    if req.parent.Some? { HeadsAreStored(Last(run).db, Last(run).trail, RefKey(req.project, req.ref)); }
  }

  /** The tree that was built fits the schema. */
  lemma PushCanWriteTree(run: seq<State>, req: PushReq, c: CommitId, tree: Snapshot)
    requires SoloRun(run) && Sound(run[0]) && Last(run).proc == OfPush(WriteTree(req, c, tree)) && req.ref != ""
    ensures CanSetFiles(Last(run).db, c, tree) && c in Last(run).db.commits
  {
    SoloRunStaysHealthy(run, |run| - 1);
    KnownTreeFits(Last(run).db, Last(run).trail, req, c, tree);
  }

  lemma KnownTreeFits(db: Db, h: Trail, req: PushReq, c: CommitId, tree: Snapshot)
    requires TablesOk(db, h) && PushKnows(db, h, WriteTree(req, c, tree)) && req.ref != ""
    ensures CanSetFiles(db, c, tree) && c in db.commits
  {
    BuiltTreeFits(db, h, req, c, tree);
  }

  lemma MergeCanCreate(run: seq<State>, req: MergeReq, ana: Analysis, s: CommitId, t: CommitId)
    requires SoloRun(run) && Sound(run[0]) && Last(run).proc == OfMerge(ReadAgain(req, ana, s, t))
    ensures t in Last(run).db.commits
  {
    SoloRunStaysHealthy(run, |run| - 1);
    assert HeadOk(Last(run).db, Last(run).trail, Head(req.project, t));
  }

  lemma MergeCanWriteTree(run: seq<State>, req: MergeReq, note: MergeNote, tree: Snapshot, c: CommitId)
    requires SoloRun(run) && Sound(run[0]) && Last(run).proc == OfMerge(WriteMerged(req, note, tree, c))
    ensures CanSetFiles(Last(run).db, c, tree) <==> NoEmptyChoice(Last(run).db, note)
  {
    SoloRunStaysHealthy(run, |run| - 1);
    var db, h := Last(run).db, Last(run).trail;
    var ana :| Plan(db, note, tree, ana);
    PlannedMergeIsRefusedIff(db, h, req, note, c, tree, ana);
  }

  lemma HeadsAreStored(db: Db, h: Trail, r: RefKey)
    requires Healthy(db, h) && r in db.refs
    ensures db.refs[r] in db.commits
  {
    assert HeadOk(db, h, Head(r.project, db.refs[r]));
  }

  // ---- what a served request leaves ----

  /** What a push to a branch leaves: the branch at the new commit, whose tree is its
      parent's with the pushed files over it. */
  ghost predicate PushTookEffect(db: Db, req: PushReq, c: CommitId) {
    && c in db.commits && db.commits[c].project == req.project && db.commits[c].parents == ParentIds(req)
    && RefKey(req.project, req.ref) in db.refs && db.refs[RefKey(req.project, req.ref)] == c
    && PushedTree(db, req, c)
    && forall path :: Look(db, req.project, SnapOf(db, c), path)
         == Over(LastWrite(req.files, path), Look(db, req.project, ParentTree(db, req), path))
  }

  lemma PublishingTakesEffect(db: Db, h: Trail, req: PushReq, c: CommitId, db': Db)
    requires TablesOk(db, h) && Built(db, h, req, c) && req.ref != ""
    requires db' == SetRef(db, RefKey(req.project, req.ref), c)
    ensures PushTookEffect(db', req, c)
  {
    TreeSoFarFrame(db, db', req, c, |req.files|, SnapOf(db, c));
    assert req.files[..|req.files|] == req.files;
    TreeMeans(db', req, c);
  }

  /** A push served on a healthy database takes effect in full. */
  lemma ServedPushTakesEffect(run: seq<State>, req: PushReq, c: CommitId)
    requires SoloRun(run) && Healthy(run[0].db, run[0].trail) && run[0].proc == OfPush(Gate(req))
    requires Last(run).proc == OfPush(Pushed(req, c)) && req.ref != ""
    ensures PushTookEffect(Last(run).db, req, c)
  {
    var n := |run| - 2;
    assert SoloStep(run[n], run[n + 1]);
    PushedCameFromPublish(run[n], run[n + 1], req, c);
    SoloRunStaysHealthy(run, n);
    assert PushKnows(run[n].db, run[n].trail, Publish(req, c));
    PublishingTakesEffect(run[n].db, run[n].trail, req, c, run[n + 1].db);
  }

  lemma PushedCameFromPublish(a: State, b: State, req: PushReq, c: CommitId)
    requires SoloStep(a, b) && b.proc == OfPush(Pushed(req, c)) && req.ref != ""
    ensures a.proc == OfPush(Publish(req, c)) && b.db == SetRef(a.db, RefKey(req.project, req.ref), c)
  {
  }

  lemma MergedCameFromPublish(a: State, b: State, req: MergeReq, note: MergeNote, c: CommitId)
    requires SoloStep(a, b) && b.proc == OfMerge(Merged(req, note, c))
    ensures a.proc == OfMerge(PublishMerge(req, note, c))
    ensures b.db == SetRef(a.db, RefKey(req.project, req.target), c)
  {
  }

  /** What a merge leaves: the target at the merge commit, whose snapshot is the three-way
      merge of the two heads over their base. */
  ghost predicate MergeTookEffect(db: Db, req: MergeReq, note: MergeNote, c: CommitId) {
    && RefKey(req.project, req.target) in db.refs && db.refs[RefKey(req.project, req.target)] == c
    && MergesSnapshots(db, note, c)
  }

  /** A merge served on a healthy database publishes the three-way merge of the two heads. */
  lemma ServedMergeIsThreeWay(run: seq<State>, req: MergeReq, note: MergeNote, c: CommitId)
    requires SoloRun(run) && Healthy(run[0].db, run[0].trail) && run[0].proc == OfMerge(FindSource(req))
    requires Last(run).proc == OfMerge(Merged(req, note, c))
    ensures MergeTookEffect(Last(run).db, req, note, c)
  {
    var n := |run| - 2;
    assert SoloStep(run[n], run[n + 1]);
    MergedCameFromPublish(run[n], run[n + 1], req, note, c);
    SoloRunStaysHealthy(run, n);
    MergeReadyTakesEffect(run[n].db, run[n].trail, req, note, c, run[n + 1].db);
  }

  lemma MergeReadyTakesEffect(db: Db, h: Trail, req: MergeReq, note: MergeNote, c: CommitId, db': Db)
    requires Good(db, h)
    requires MergeKnows(db, h, PublishMerge(req, note, c)) && MergeSerial(db, h, PublishMerge(req, note, c))
    requires db' == SetRef(db, RefKey(req.project, req.target), c)
    ensures MergeTookEffect(db', req, note, c)
  {
    PublishedMergeFacts(db, h, req, note, c);
    ExactMergeFiles(db, h, req.project, note, c);
    MergesSnapshotsFrame(db, note, c, db');
  }

  lemma MergesSnapshotsFrame(db: Db, note: MergeNote, c: CommitId, db': Db)
    requires MergesSnapshots(db, note, c) && db'.snaps == db.snaps
    ensures MergesSnapshots(db', note, c)
  {
  }
}
