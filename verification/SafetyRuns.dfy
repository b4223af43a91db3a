/** The safety guarantees over whole runs: any number of requests, interleaved at every
    store call, each free to stop before any of its calls. */
module SafetyRuns {
  import opened Tables
  import opened Ancestry
  import opened Merging
  import opened Requests
  import opened Safety
  import opened SafetyProof

  // ---- one machine step ----

  /** The commit a request may write stays its own, or is one it just created. */
  lemma OwnerMoves(db: Db, p: Proc, db': Db, p': Proc)
    requires ProcStep(db, p, db', p')
    ensures Owner(p').Some? ==>
      || Owner(p') == Owner(p)
      || (Owner(p').value !in db.commits && Touches(p) == {Owner(p').value})
    ensures Owner(p').Some? && Owner(p).None? ==> Owner(p').value in db'.commits
    ensures Owner(p).None? ==> forall c :: c in Touches(p) ==> c !in db.commits
  {
    match p
    case OfPush(q) => PushOwnerMoves(db, q, db', p'.push);
    case OfMerge(q) => MergeOwnerMoves(db, q, db', p'.merge);
    case _ =>
  }

  lemma PushOwnerMoves(db: Db, p: Push, db': Db, p': Push)
    requires PushStep(db, p, db', p')
    ensures Owner(OfPush(p')).Some? ==> Owner(OfPush(p')) == Owner(OfPush(p)) || p.Create?
    ensures p.Create? ==> Owner(OfPush(p')) == Some(p.commit) && p.commit !in db.commits && p.commit in db'.commits
  {
  }

  lemma MergeOwnerMoves(db: Db, p: Merge, db': Db, p': Merge)
    requires MergeStep(db, p, db', p')
    ensures Owner(OfMerge(p')).Some? ==> Owner(OfMerge(p')) == Owner(OfMerge(p)) || p.CreateMerge?
    ensures p.CreateMerge? ==>
      Owner(OfMerge(p')) == Some(p.commit) && p.commit !in db.commits && p.commit in db'.commits
  {
  }

  lemma ProcKnowsStable(db: Db, h: Trail, db': Db, h': Trail, touched: set<CommitId>, p: Proc)
    requires HeadsOk(db, h) && ProcKnows(db, h, p)
    requires Grows(db, h, db', h', touched) && UniqueFiles(db'.files)
    requires Owner(p).Some? ==> Owner(p).value !in touched
    ensures ProcKnows(db', h', p)
  {
    match p
    case OfPush(q) => PushKnowsStable(db, h, db', h', touched, q);
    case OfMerge(q) => MergeKnowsStable(db, h, db', h', touched, q);
    case _ =>
  }

  lemma OwnersApart(m: Machine, pid: nat, j: nat, db': Db, p': Proc)
    requires Exclusive(m.db, m.procs) && pid in m.procs && j in m.procs && j != pid
    requires ProcStep(m.db, m.procs[pid], db', p')
    ensures Owner(m.procs[j]).Some? ==> Owner(m.procs[j]).value !in Touches(m.procs[pid])
    ensures Owner(p').Some? ==> Owner(m.procs[j]) != Owner(p')
  {
    OwnerMoves(m.db, m.procs[pid], db', p');
  }

  lemma AdvanceKeepsExclusive(m: Machine, pid: nat, m': Machine)
    requires Exclusive(m.db, m.procs) && Next(m, Advance(pid), m')
    requires Submap(m.db.commits, m'.db.commits)
    ensures Exclusive(m'.db, m'.procs)
  {
    OwnerMoves(m.db, m.procs[pid], m'.db, m'.procs[pid]);
    forall j | j in m.procs && j != pid
      ensures Owner(m'.procs[pid]).Some? ==> Owner(m.procs[j]) != Owner(m'.procs[pid])
    {
      OwnersApart(m, pid, j, m'.db, m'.procs[pid]);
    }
    ExclusiveWith(m.db, m.procs, pid, m'.procs[pid], m'.db);
  }

  lemma ExclusiveWith(db: Db, procs: map<nat, Proc>, pid: nat, p: Proc, db': Db)
    requires Exclusive(db, procs) && pid in procs && Submap(db.commits, db'.commits)
    requires Owner(p).Some? ==> Owner(p) == Owner(procs[pid]) || Owner(p).value in db'.commits
    requires forall j :: j in procs && j != pid && Owner(p).Some? ==> Owner(procs[j]) != Owner(p)
    ensures Exclusive(db', procs[pid := p])
  {
  }

  lemma AdvanceKeeps(m: Machine, pid: nat, m': Machine)
    requires Inv(m) && Next(m, Advance(pid), m')
    ensures Inv(m')
    ensures Grows(m.db, m.trail, m'.db, m'.trail, Touches(m.procs[pid]))
  {
    var p, p' := m.procs[pid], m'.procs[pid];
    StepKeeps(m.db, m.trail, p, m'.db, p');
    AdvanceKeepsExclusive(m, pid, m');
    forall j | j in m'.procs && j != pid
      ensures ProcKnows(m'.db, m'.trail, m'.procs[j])
    {
      OthersStillKnow(m, pid, j, m');
    }
  }

  lemma OthersStillKnow(m: Machine, pid: nat, j: nat, m': Machine)
    requires HeadsOk(m.db, m.trail) && Exclusive(m.db, m.procs) && UniqueFiles(m'.db.files)
    requires pid in m.procs && j in m.procs && j != pid && Next(m, Advance(pid), m')
    requires ProcKnows(m.db, m.trail, m.procs[j])
    requires Grows(m.db, m.trail, m'.db, m'.trail, Touches(m.procs[pid]))
    ensures ProcKnows(m'.db, m'.trail, m'.procs[j])
  {
    OwnersApart(m, pid, j, m'.db, m'.procs[pid]);
    ProcKnowsStable(m.db, m.trail, m'.db, m'.trail, Touches(m.procs[pid]), m.procs[j]);
  }

  lemma StartsKnowing(env: Env, db: Db, h: Trail, p: Proc)
    requires Starts(env, p)
    ensures ProcKnows(db, h, p) && Owner(p).None?
  {
  }

  lemma NextKeeps(m: Machine, a: Action, m': Machine)
    requires Inv(m) && Next(m, a, m')
    ensures Inv(m')
    ensures exists touched :: Grows(m.db, m.trail, m'.db, m'.trail, touched)
  {
    match a
    case Begin(pid, p) =>
      StartsKnowing(m.env, m.db, m.trail, p);
      assert Grows(m.db, m.trail, m'.db, m'.trail, {});
    case Advance(pid) => AdvanceKeeps(m, pid, m');
    case Stop(pid) => assert Grows(m.db, m.trail, m'.db, m'.trail, {});
  }

  // ---- runs ----

  lemma {:induction false} RunsAreSafe(ms: seq<Machine>, acts: seq<Action>, i: nat)
    requires Run(ms, acts) && i < |ms|
    ensures Inv(ms[i])
  {
    if i > 0 {
      RunsAreSafe(ms, acts, i - 1);
      NextKeeps(ms[i - 1], acts[i - 1], ms[i]);
    }
  }

  /** Between two moments of a run nothing stored is lost and no sealed snapshot changes. */
  lemma {:induction false} RunsOnlyAdd(ms: seq<Machine>, acts: seq<Action>, i: nat, j: nat)
    requires Run(ms, acts) && i <= j < |ms|
    ensures Submap(ms[i].db.commits, ms[j].db.commits)
    ensures ms[i].trail.sealed <= ms[j].trail.sealed && ms[i].trail.heads <= ms[j].trail.heads
    ensures forall c :: c in ms[i].trail.sealed ==> SnapOf(ms[j].db, c) == SnapOf(ms[i].db, c)
    decreases j - i
  {
    if i < j {
      RunsOnlyAdd(ms, acts, i, j - 1);
      RunsAreSafe(ms, acts, j - 1);
      NextKeeps(ms[j - 1], acts[j - 1], ms[j]);
    }
  }

  /** At every moment of every run, a branch points at a stored commit of its project whose
      snapshot is written, names only versions of the project's own files, and is the same
      at every later moment; if the commit was pushed, its chunks are counted already, and
      its tree is its parent's with the pushed files over it. */
  lemma BranchHeadsAreWhole(ms: seq<Machine>, acts: seq<Action>, i: nat, j: nat, r: RefKey)
    requires Run(ms, acts) && i <= j < |ms| && r in ms[i].db.refs
    ensures var db, c := ms[i].db, ms[i].db.refs[r];
      && c in db.commits && db.commits[c].project == r.project
      && SnapOk(db, r.project, SnapOf(db, c))
      && c in ms[j].db.commits && ms[j].db.commits[c] == db.commits[c]
      && SnapOf(ms[j].db, c) == SnapOf(db, c)
      && (c in ms[i].trail.pushes ==>
            && c in ms[i].trail.counted
            && var req := ms[i].trail.pushes[c];
               TreeSoFar(db, req, c, |req.files|, SnapOf(db, c)) && PushedTree(db, req, c))
  {
    RunsAreSafe(ms, acts, i);
    RunsOnlyAdd(ms, acts, i, j);
    assert HeadOk(ms[i].db, ms[i].trail, Head(r.project, ms[i].db.refs[r]));
    var c := ms[i].db.refs[r];
    if c in ms[i].trail.pushes { TreeMeans(ms[i].db, ms[i].trail.pushes[c], c); }
  }

  // ---- no cycles ----

  lemma PushAddsOneCommit(db: Db, p: Push, db': Db, p': Push)
    requires PushStep(db, p, db', p')
    ensures db'.commits.Keys <= db.commits.Keys + Touches(OfPush(p))
  {
  }

  lemma MergeAddsOneCommit(db: Db, p: Merge, db': Db, p': Merge)
    requires MergeStep(db, p, db', p')
    ensures db'.commits.Keys <= db.commits.Keys + Touches(OfMerge(p))
  {
  }

  lemma BranchAddsNoCommit(db: Db, p: Branch, db': Db, p': Branch)
    requires BranchStep(db, p, db', p')
    ensures db'.commits == db.commits
  {
  }

  lemma UploadAddsNoCommit(db: Db, p: Upload, db': Db, p': Upload)
    requires UploadStep(db, p, db', p')
    ensures db'.commits == db.commits
  {
  }

  lemma LockAddsNoCommit(db: Db, p: Locking, db': Db, p': Locking)
    requires LockStep(db, p, db', p')
    ensures db'.commits == db.commits
  {
  }

  /** Branches, uploads and locks leave the commits alone. */
  lemma SideStepAddsNoCommit(db: Db, p: Proc, db': Db, p': Proc)
    requires ProcStep(db, p, db', p') && !p.OfPush? && !p.OfMerge?
    ensures db'.commits == db.commits
  {
    match p
    case OfBranch(q) => BranchAddsNoCommit(db, q, db', p'.branch);
    case OfUpload(q) => UploadAddsNoCommit(db, q, db', p'.upload);
    case OfLocking(q) => LockAddsNoCommit(db, q, db', p'.locking);
  }

  lemma TouchesAtMostOne(p: Proc) returns (c: CommitId)
    ensures Touches(p) <= {c}
  {
    c := if Touches(p) == {} then 0 else var x :| x in Touches(p); x;
  }

  lemma StepAddsOneCommit(db: Db, p: Proc, db': Db, p': Proc) returns (c: CommitId)
    requires ProcStep(db, p, db', p')
    ensures db'.commits.Keys <= db.commits.Keys + {c}
  {
    c := TouchesAtMostOne(p);
    if p.OfPush? {
      PushAddsOneCommit(db, p.push, db', p'.push);
    } else if p.OfMerge? {
      MergeAddsOneCommit(db, p.merge, db', p'.merge);
    } else {
      SideStepAddsNoCommit(db, p, db', p');
    }
  }

  lemma NextKeepsAcyclic(m: Machine, a: Action, m': Machine)
    requires Next(m, a, m') && Submap(m.db.commits, m'.db.commits)
    requires ParentsExist(m.db.commits) && Acyclic(m.db.commits)
    ensures Acyclic(m'.db.commits)
  {
    if a.Advance? {
      var c := StepAddsOneCommit(m.db, m.procs[a.pid], m'.db, m'.procs[a.pid]);
      AcyclicGrows(m.db.commits, m'.db.commits, c);
    }
  }

  lemma ParentsAreStored(ms: seq<Machine>, acts: seq<Action>, i: nat)
    requires Run(ms, acts) && i < |ms|
    ensures ParentsExist(ms[i].db.commits)
    ensures i > 0 ==> Submap(ms[i - 1].db.commits, ms[i].db.commits)
  {
    RunsAreSafe(ms, acts, i);
    if i > 0 { RunsOnlyAdd(ms, acts, i - 1, i); }
  }

  /** All parents exist and ancestry has no cycles, whatever the clocks say. */
  lemma {:induction false} AncestryHasNoCycles(ms: seq<Machine>, acts: seq<Action>, i: nat)
    requires Run(ms, acts) && i < |ms|
    ensures ParentsExist(ms[i].db.commits) && Acyclic(ms[i].db.commits)
  {
    ParentsAreStored(ms, acts, i);
    if i == 0 {
      EmptyIsAcyclic();
    } else {
      AncestryHasNoCycles(ms, acts, i - 1);
      assert Next(ms[i - 1], acts[i - 1], ms[i]);
      NextKeepsAcyclic(ms[i - 1], acts[i - 1], ms[i]);
    }
  }

  // ---- the history of heads is the history of refs ----

  ghost predicate RefTo(db: Db, k: Head) {
    exists r :: r in db.refs && r.project == k.project && db.refs[r] == k.commit
  }

  /** A branch of the project pointed at the commit at some moment up to `i`. */
  ghost predicate PointedAt(ms: seq<Machine>, i: nat, k: Head)
    requires i < |ms|
  {
    exists j: nat :: j <= i && RefTo(ms[j].db, k)
  }

  lemma SetRefPointsTo(db: Db, key: RefKey, c: CommitId)
    ensures RefTo(SetRef(db, key, c), Head(key.project, c))
  {
    assert key in SetRef(db, key, c).refs;
  }

  lemma PushHeadIsRef(db: Db, h: Trail, p: Push, db': Db, p': Push, k: Head)
    requires PushStep(db, p, db', p') && k in NotePush(h, p).heads && k !in h.heads
    ensures RefTo(db', k)
  {
    if p.Publish? && p.req.ref != "" { SetRefPointsTo(db, RefKey(p.req.project, p.req.ref), p.commit); }
  }

  lemma MergeHeadIsRef(db: Db, h: Trail, p: Merge, db': Db, p': Merge, k: Head)
    requires MergeStep(db, p, db', p') && k in NoteMerge(h, p).heads && k !in h.heads
    ensures RefTo(db', k)
  {
    match p
    case Forward(req, s, _) => SetRefPointsTo(db, RefKey(req.project, req.target), s);
    case PublishMerge(req, _, c) => SetRefPointsTo(db, RefKey(req.project, req.target), c);
    case _ =>
  }

  lemma HeadsComeFromRefs(db: Db, h: Trail, p: Proc, db': Db, p': Proc, k: Head)
    requires ProcStep(db, p, db', p') && k in NoteStep(h, db, p).heads && k !in h.heads
    ensures RefTo(db', k)
  {
    match p
    case OfPush(q) => PushHeadIsRef(db, h, q, db', p'.push, k);
    case OfMerge(q) => MergeHeadIsRef(db, h, q, db', p'.merge, k);
    case OfBranch(q) => if q.SetBranch? { SetRefPointsTo(db, RefKey(q.project, q.name), q.commit); }
    case OfUpload(_) =>
    case OfLocking(_) =>
  }

  lemma {:induction false} HeadsWerePointedAt(ms: seq<Machine>, acts: seq<Action>, i: nat, k: Head)
    requires Run(ms, acts) && i < |ms| && k in ms[i].trail.heads
    ensures PointedAt(ms, i, k)
  {
    if i > 0 {
      var m := ms[i - 1];
      if k in m.trail.heads {
        HeadsWerePointedAt(ms, acts, i - 1, k);
      } else {
        assert Next(m, acts[i - 1], ms[i]);
        var pid := acts[i - 1].pid;
        HeadsComeFromRefs(m.db, m.trail, m.procs[pid], ms[i].db, ms[i].procs[pid], k);
      }
    }
  }

  /** Everything in a branch's history was itself once the head of a branch of the project,
      and no commit pushed without a ref is in it. */
  lemma HistoryIsFormerHeads(ms: seq<Machine>, acts: seq<Action>, i: nat, r: RefKey, a: CommitId)
    requires Run(ms, acts) && i < |ms| && r in ms[i].db.refs
    requires Reaches(ms[i].db.commits, ms[i].db.refs[r], a)
    ensures PointedAt(ms, i, Head(r.project, a))
    ensures a in ms[i].trail.pushes ==> ms[i].trail.pushes[a].ref != ""
  {
    RunsAreSafe(ms, acts, i);
    AncestorsWereHeads(ms[i].db, ms[i].trail, r.project, ms[i].db.refs[r], a);
    HeadsWerePointedAt(ms, acts, i, Head(r.project, a));
    assert HeadOk(ms[i].db, ms[i].trail, Head(r.project, a));
  }

  // ---- the snapshot is the history ----

  /** What walking the chain of pushes back from its last commit finds for a path. */
  function Replay(pushes: map<CommitId, PushReq>, chain: seq<CommitId>, path: Path): Option<Manifest> {
    if chain == [] then None
    else
      var c := chain[|chain| - 1];
      Over(if c in pushes then LastWrite(pushes[c].files, path) else None,
           Replay(pushes, chain[..|chain| - 1], path))
  }

  /** A chain of pushes from a root, each the parent of the next. */
  ghost predicate PushChain(h: Trail, chain: seq<CommitId>) {
    && chain != []
    && (forall i :: 0 <= i < |chain| ==> chain[i] in h.pushes)
    && h.pushes[chain[0]].parent == None
    && (forall i :: 0 < i < |chain| ==> h.pushes[chain[i]].parent == Some(chain[i - 1]))
  }

  lemma {:induction false} SnapshotReplaysChain(db: Db, h: Trail, project: ProjectId, chain: seq<CommitId>, path: Path)
    requires TablesOk(db, h) && HeadsOk(db, h) && PushChain(h, chain)
    requires Head(project, chain[|chain| - 1]) in h.heads
    ensures Look(db, project, SnapOf(db, chain[|chain| - 1]), path) == Replay(h.pushes, chain, path)
    decreases |chain|
  {
    var c, front := chain[|chain| - 1], chain[..|chain| - 1];
    var req := h.pushes[c];
    assert HeadOk(db, h, Head(project, c));
    assert req.files[..|req.files|] == req.files;
    if front == [] {
      assert ParentTree(db, req) == map[];
    } else {
      var q := front[|front| - 1];
      assert req.parent == Some(q);
      assert q in db.commits[c].parents;
      SnapshotReplaysChain(db, h, project, front, path);
    }
  }

  /** A branch reached by single-parent pushes shows, for every path, what replaying every
      push's file list from the root shows, the last entry winning. */
  lemma SnapshotIsHistory(ms: seq<Machine>, acts: seq<Action>, i: nat, r: RefKey, chain: seq<CommitId>, path: Path)
    requires Run(ms, acts) && i < |ms| && r in ms[i].db.refs
    requires PushChain(ms[i].trail, chain) && chain[|chain| - 1] == ms[i].db.refs[r]
    ensures Look(ms[i].db, r.project, SnapOf(ms[i].db, ms[i].db.refs[r]), path)
      == Replay(ms[i].trail.pushes, chain, path)
  {
    RunsAreSafe(ms, acts, i);
    SnapshotReplaysChain(ms[i].db, ms[i].trail, r.project, chain, path);
  }
}
