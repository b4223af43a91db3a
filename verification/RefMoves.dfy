/** When a branch keeps its history. Serial requests always keep it; here is the exact
    condition, statement by statement and under every interleaving. */
module RefMoves {
  import opened Tables
  import opened Ancestry
  import opened Requests
  import opened Safety
  import opened SafetyProof
  import opened SafetyRuns

  /** The ref that a request's next step sets. */
  function Sets(p: Proc): Option<RefKey> {
    match p
    case OfPush(Publish(req, _)) => if req.ref == "" then None else Some(RefKey(req.project, req.ref))
    case OfMerge(PublishMerge(req, _, _)) => Some(RefKey(req.project, req.target))
    case OfMerge(Forward(req, _, _)) => Some(RefKey(req.project, req.target))
    case OfBranch(SetBranch(project, name, _)) => Some(RefKey(project, name))
    case _ => None
  }

  /** What the request built on still holds the commit the branch is at: the parent that a
      push was checked against, the two heads that a merge read, the head that a
      fast-forward or a new branch takes. */
  ghost predicate BuiltOn(commits: Commits, p: Proc, at: CommitId) {
    match p
    case OfPush(Publish(req, c)) => at == c || (req.parent.Some? && Reaches(commits, req.parent.value, at))
    case OfMerge(PublishMerge(_, note, c)) =>
      at == c || Reaches(commits, note.target, at) || Reaches(commits, note.source, at)
    case OfMerge(Forward(_, s, _)) => Reaches(commits, s, at)
    case OfBranch(SetBranch(_, _, c)) => Reaches(commits, c, at)
    case _ => true
  }

  /** A commit reaches itself and what its parents reach. */
  lemma ReachesIffParent(commits: Commits, c: CommitId, a: CommitId)
    requires c in commits && ParentsExist(commits)
    ensures Reaches(commits, c, a) <==> a == c || exists q :: q in commits[c].parents && Reaches(commits, q, a)
  {
    if Reaches(commits, c, a) && a != c {
      var q := ReachesThroughParent(commits, c, a);
    }
    if q :| q in commits[c].parents && Reaches(commits, q, a) {
      ReachesParent(commits, c, q);
      ReachesTransitive(commits, c, q, a);
    }
    ReachesSelf(commits, c);
  }

  lemma PushMovesIff(db: Db, h: Trail, req: PushReq, c: CommitId, at: CommitId)
    requires TablesOk(db, h) && PushKnows(db, h, Publish(req, c))
    ensures Reaches(db.commits, c, at) <==> BuiltOn(db.commits, OfPush(Publish(req, c)), at)
  {
    ReachesIffParent(db.commits, c, at);
    assert db.commits[c].parents == ParentIds(req);
  }

  lemma MergeMovesIff(db: Db, h: Trail, req: MergeReq, note: MergeNote, c: CommitId, at: CommitId)
    requires TablesOk(db, h) && MergeKnows(db, h, PublishMerge(req, note, c))
    ensures Reaches(db.commits, c, at) <==> BuiltOn(db.commits, OfMerge(PublishMerge(req, note, c)), at)
  {
    ReachesIffParent(db.commits, c, at);
    var parents := db.commits[c].parents;
    assert parents == [note.target, note.source];
    assert parents[0] in parents && parents[1] in parents;
  }

  /** The commit a step sets its ref to. */
  function SetsTo(p: Proc): CommitId
    requires Sets(p).Some?
  {
    match p
    case OfPush(q) => q.commit
    case OfMerge(q) => if q.Forward? then q.s else q.commit
    case OfBranch(q) => q.commit
  }

  lemma PushSetsIts(p: Push, db: Db, db': Db, p': Push)
    requires PushStep(db, p, db', p')
    ensures Sets(OfPush(p)).Some? ==> db' == SetRef(db, Sets(OfPush(p)).value, SetsTo(OfPush(p)))
    ensures Sets(OfPush(p)).None? ==> db'.refs == db.refs
  {
  }

  lemma MergeSetsIts(p: Merge, db: Db, db': Db, p': Merge)
    requires MergeStep(db, p, db', p')
    ensures Sets(OfMerge(p)).Some? ==> db' == SetRef(db, Sets(OfMerge(p)).value, SetsTo(OfMerge(p)))
    ensures Sets(OfMerge(p)).None? ==> db'.refs == db.refs
  {
  }

  lemma BranchSetsIts(p: Branch, db: Db, db': Db, p': Branch)
    requires BranchStep(db, p, db', p')
    ensures Sets(OfBranch(p)).Some? ==> db' == SetRef(db, Sets(OfBranch(p)).value, SetsTo(OfBranch(p)))
    ensures Sets(OfBranch(p)).None? ==> db'.refs == db.refs
  {
  }

  lemma UploadSetsNone(p: Upload, db: Db, db': Db, p': Upload)
    requires UploadStep(db, p, db', p')
    ensures db'.refs == db.refs
  {
  }

  lemma LockSetsNone(p: Locking, db: Db, db': Db, p': Locking)
    requires LockStep(db, p, db', p')
    ensures db'.refs == db.refs
  {
  }

  lemma StepSetsIts(p: Proc, db: Db, db': Db, p': Proc)
    requires ProcStep(db, p, db', p')
    ensures Sets(p).Some? ==> db' == SetRef(db, Sets(p).value, SetsTo(p))
    ensures Sets(p).None? ==> db'.refs == db.refs
  {
    match p
    case OfPush(q) => PushSetsIts(q, db, db', p'.push);
    case OfMerge(q) => MergeSetsIts(q, db, db', p'.merge);
    case OfBranch(q) => BranchSetsIts(q, db, db', p'.branch);
    case OfUpload(q) => UploadSetsNone(q, db, db', p'.upload);
    case OfLocking(q) => LockSetsNone(q, db, db', p'.locking);
  }

  lemma SetCommitReachesIff(db: Db, h: Trail, p: Proc, at: CommitId)
    requires TablesOk(db, h) && ProcKnows(db, h, p) && Sets(p).Some?
    ensures Reaches(db.commits, SetsTo(p), at) <==> BuiltOn(db.commits, p, at)
  {
    match p
    case OfPush(Publish(req, c)) => PushMovesIff(db, h, req, c, at);
    case OfMerge(PublishMerge(req, note, c)) => MergeMovesIff(db, h, req, note, c, at);
    case _ =>
  }

  // ---- one step ----

  /** The action keeps the branch's history: it does not set the ref, or sets it to
      something built on the commit the branch is at. */
  ghost predicate Keeps(m: Machine, a: Action, r: RefKey)
    requires r in m.db.refs
  {
    a.Advance? && a.pid in m.procs && Sets(m.procs[a.pid]) == Some(r) ==>
      BuiltOn(m.db.commits, m.procs[a.pid], m.db.refs[r])
  }

  lemma StepKeepsIff(db: Db, h: Trail, p: Proc, db': Db, p': Proc, r: RefKey)
    requires Good(db, h) && ProcKnows(db, h, p) && ProcStep(db, p, db', p')
    requires r in db.refs && Submap(db.commits, db'.commits)
    ensures r in db'.refs
    ensures Reaches(db'.commits, db'.refs[r], db.refs[r]) <==>
      (Sets(p) == Some(r) ==> BuiltOn(db.commits, p, db.refs[r]))
  {
    StepSetsIts(p, db, db', p');
    if Sets(p) == Some(r) {
      SetCommitReachesIff(db, h, p, db.refs[r]);
    } else {
      HeadStaysReached(db, h, r, db'.commits);
    }
  }

  lemma HeadStaysReached(db: Db, h: Trail, r: RefKey, commits: Commits)
    requires HeadsOk(db, h) && r in db.refs && Submap(db.commits, commits)
    ensures Reaches(commits, db.refs[r], db.refs[r])
  {
    assert HeadOk(db, h, Head(r.project, db.refs[r]));
    ReachesSelf(commits, db.refs[r]);
  }

  /** One action of any run: the new head reaches the old one exactly when it keeps it. */
  lemma NextKeepsIff(m: Machine, a: Action, m': Machine, r: RefKey)
    requires Inv(m) && Next(m, a, m') && r in m.db.refs
    ensures r in m'.db.refs
    ensures Reaches(m'.db.commits, m'.db.refs[r], m.db.refs[r]) <==> Keeps(m, a, r)
  {
    NextKeeps(m, a, m');
    if a.Advance? {
      StepKeepsIff(m.db, m.trail, m.procs[a.pid], m'.db, m'.procs[a.pid], r);
    } else {
      HeadStaysReached(m.db, m.trail, r, m.db.commits);
    }
  }

  // ---- runs ----

  lemma {:induction false} RefsStay(ms: seq<Machine>, acts: seq<Action>, i: nat, j: nat, r: RefKey)
    requires Run(ms, acts) && i <= j < |ms| && r in ms[i].db.refs
    ensures r in ms[j].db.refs
    decreases j - i
  {
    if i < j {
      RefsStay(ms, acts, i, j - 1, r);
      RunsAreSafe(ms, acts, j - 1);
      NextKeepsIff(ms[j - 1], acts[j - 1], ms[j], r);
    }
  }

  /** At any two moments between `i` and `j` the later head reaches the earlier one. */
  ghost predicate KeepsHistory(ms: seq<Machine>, i: nat, j: nat, r: RefKey)
    requires i <= j < |ms| && forall n :: i <= n <= j ==> r in ms[n].db.refs
  {
    forall k, l :: i <= k <= l <= j ==> Reaches(ms[l].db.commits, ms[l].db.refs[r], ms[k].db.refs[r])
  }

  lemma RunStepKeepsIff(ms: seq<Machine>, acts: seq<Action>, n: nat, r: RefKey)
    requires Run(ms, acts) && n < |acts| && r in ms[n].db.refs
    ensures r in ms[n + 1].db.refs
    ensures Reaches(ms[n + 1].db.commits, ms[n + 1].db.refs[r], ms[n].db.refs[r]) <==> Keeps(ms[n], acts[n], r)
  {
    RunsAreSafe(ms, acts, n);
    NextKeepsIff(ms[n], acts[n], ms[n + 1], r);
  }

  lemma HeadReachesSelf(ms: seq<Machine>, acts: seq<Action>, n: nat, r: RefKey)
    requires Run(ms, acts) && n < |ms| && r in ms[n].db.refs
    ensures Reaches(ms[n].db.commits, ms[n].db.refs[r], ms[n].db.refs[r])
  {
    RunsAreSafe(ms, acts, n);
    HeadStaysReached(ms[n].db, ms[n].trail, r, ms[n].db.commits);
  }

  lemma KeptOneMore(ms: seq<Machine>, acts: seq<Action>, n: nat, r: RefKey, a: CommitId)
    requires Run(ms, acts) && n < |acts| && r in ms[n].db.refs && Keeps(ms[n], acts[n], r)
    requires Reaches(ms[n].db.commits, ms[n].db.refs[r], a)
    ensures r in ms[n + 1].db.refs && Reaches(ms[n + 1].db.commits, ms[n + 1].db.refs[r], a)
  {
    RunStepKeepsIff(ms, acts, n, r);
    RunsOnlyAdd(ms, acts, n, n + 1);
    ReachesGrows(ms[n].db.commits, ms[n + 1].db.commits, ms[n].db.refs[r], a);
    ReachesTransitive(ms[n + 1].db.commits, ms[n + 1].db.refs[r], ms[n].db.refs[r], a);
  }

  lemma {:induction false} KeptStepByStep(ms: seq<Machine>, acts: seq<Action>, k: nat, l: nat, r: RefKey)
    requires Run(ms, acts) && k <= l < |ms| && forall n :: k <= n <= l ==> r in ms[n].db.refs
    requires forall n :: k <= n < l ==> Keeps(ms[n], acts[n], r)
    ensures Reaches(ms[l].db.commits, ms[l].db.refs[r], ms[k].db.refs[r])
    decreases l - k
  {
    if k == l {
      HeadReachesSelf(ms, acts, k, r);
    } else {
      KeptStepByStep(ms, acts, k, l - 1, r);
      KeptOneMore(ms, acts, l - 1, r, ms[k].db.refs[r]);
    }
  }

  /** In every run a branch keeps its history from one moment to another exactly when each
      step in between that sets it was built on the commit the branch was at just then. */
  lemma BranchKeepsHistoryIff(ms: seq<Machine>, acts: seq<Action>, i: nat, j: nat, r: RefKey)
    requires Run(ms, acts) && i <= j < |ms| && r in ms[i].db.refs
    ensures forall n :: i <= n <= j ==> r in ms[n].db.refs
    ensures KeepsHistory(ms, i, j, r) <==> forall n :: i <= n < j ==> Keeps(ms[n], acts[n], r)
  {
    forall n | i <= n <= j ensures r in ms[n].db.refs {
      RefsStay(ms, acts, i, n, r);
    }
    if KeepsHistory(ms, i, j, r) {
      forall n | i <= n < j ensures Keeps(ms[n], acts[n], r) {
        RunStepKeepsIff(ms, acts, n, r);
        assert Reaches(ms[n + 1].db.commits, ms[n + 1].db.refs[r], ms[n].db.refs[r]);
      }
    }
    if forall n :: i <= n < j ==> Keeps(ms[n], acts[n], r) {
      forall k, l | i <= k <= l <= j
        ensures Reaches(ms[l].db.commits, ms[l].db.refs[r], ms[k].db.refs[r])
      {
        KeptStepByStep(ms, acts, k, l, r);
      }
    }
  }
}
