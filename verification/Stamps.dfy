/** What the clock does for history under every interleaving. A push to a branch and a merge
    take their stamps after their parents are stored, so along a branch's history
    created_at rises, and the merge base of two branches is a best common ancestor. */
module Stamps {
  import opened Tables
  import opened Ancestry
  import opened Requests
  import opened Safety
  import opened SafetyProof
  import opened SafetyRuns

  ghost predicate ParentsOlder(commits: Commits, c: CommitId) {
    c in commits ==>
      forall q :: q in commits[c].parents ==> q in commits && commits[q].createdAt < commits[c].createdAt
  }

  predicate Unchecked(h: Trail, c: CommitId) {
    c in h.pushes && h.pushes[c].ref == ""
  }

  /** Only a push without a ref may name a parent younger than itself. */
  ghost predicate StampsOk(db: Db, h: Trail) {
    forall c :: c in db.commits && !Unchecked(h, c) ==> ParentsOlder(db.commits, c)
  }

  ghost predicate OlderThan(commits: Commits, q: CommitId, now: int) {
    q in commits && commits[q].createdAt < now
  }

  /** A stamp that was taken is later than the parents'. */
  ghost predicate StampKnown(db: Db, p: Proc) {
    match p
    case OfPush(Create(req, _, now)) =>
      req.ref != "" && req.parent.Some? ==> OlderThan(db.commits, req.parent.value, now)
    case OfMerge(CreateMerge(_, note, _, _, now)) =>
      OlderThan(db.commits, note.source, now) && OlderThan(db.commits, note.target, now)
    case _ => true
  }

  // ---- steps ----

  lemma PushTakesStamp(db: Db, h: Trail, p: Push, db': Db, p': Push)
    requires Good(db, h) && PushStep(db, p, db', p')
    ensures StampKnown(db', OfPush(p'))
  {
    if p.Check? && p.req.ref != "" && p.req.parent.Some? {
      assert HeadOk(db, h, Head(p.req.project, p.req.parent.value));
    }
  }

  lemma MergeTakesStamp(db: Db, h: Trail, p: Merge, db': Db, p': Merge)
    requires Good(db, h) && MergeKnows(db, h, p) && MergeStep(db, p, db', p')
    ensures StampKnown(db', OfMerge(p'))
  {
    if p.ReadAgain? {
      assert HeadOk(db, h, Head(p.req.project, p.s)) && HeadOk(db, h, Head(p.req.project, p.t));
    }
  }

  lemma StepTakesStamp(db: Db, h: Trail, p: Proc, db': Db, p': Proc)
    requires Good(db, h) && ProcKnows(db, h, p) && ProcStep(db, p, db', p')
    ensures StampKnown(db', p')
  {
    match p
    case OfPush(q) => PushTakesStamp(db, h, q, db', p'.push);
    case OfMerge(q) => MergeTakesStamp(db, h, q, db', p'.merge);
    case _ =>
  }

  lemma CommitKeepsStamps(db: Db, h: Trail, c: CommitId, row: Commit, h': Trail)
    requires StampsOk(db, h) && c !in db.commits && Submap(h.pushes, h'.pushes)
    requires Unchecked(h', c) || forall q :: q in row.parents ==> OlderThan(db.commits, q, row.createdAt)
    ensures StampsOk(Tables.CreateCommit(db, c, row), h')
  {
    forall x | x in db.commits[c := row] && !Unchecked(h', x)
      ensures ParentsOlder(db.commits[c := row], x)
    {
      if x != c { assert ParentsOlder(db.commits, x); }
    }
  }

  lemma FrameKeepsStamps(db: Db, h: Trail, db': Db, h': Trail)
    requires StampsOk(db, h) && db'.commits == db.commits && Submap(h.pushes, h'.pushes)
    ensures StampsOk(db', h')
  {
  }

  lemma PushKeepsStamps(db: Db, h: Trail, p: Push, db': Db, p': Push)
    requires StampsOk(db, h) && StampKnown(db, OfPush(p)) && PushStep(db, p, db', p')
    requires Submap(h.pushes, NotePush(h, p).pushes)
    ensures StampsOk(db', NotePush(h, p))
  {
    if p.Create? {
      CommitKeepsStamps(db, h, p.commit, Commit(p.req.project, ParentIds(p.req), p.now), NotePush(h, p));
    } else {
      PushMakesNoCommit(p, db, db', p');
      FrameKeepsStamps(db, h, db', NotePush(h, p));
    }
  }

  lemma PushMakesNoCommit(p: Push, db: Db, db': Db, p': Push)
    requires PushStep(db, p, db', p') && !p.Create?
    ensures db'.commits == db.commits
  {
  }

  lemma MergeMakesNoCommit(p: Merge, db: Db, db': Db, p': Merge)
    requires MergeStep(db, p, db', p') && !p.CreateMerge?
    ensures db'.commits == db.commits
  {
  }

  lemma MergeKeepsStamps(db: Db, h: Trail, p: Merge, db': Db, p': Merge)
    requires StampsOk(db, h) && StampKnown(db, OfMerge(p)) && MergeStep(db, p, db', p')
    requires Submap(h.pushes, NoteMerge(h, p).pushes)
    ensures StampsOk(db', NoteMerge(h, p))
  {
    if p.CreateMerge? {
      var row := Commit(p.req.project, [p.note.target, p.note.source], p.now);
      CommitKeepsStamps(db, h, p.commit, row, NoteMerge(h, p));
    } else {
      MergeMakesNoCommit(p, db, db', p');
      FrameKeepsStamps(db, h, db', NoteMerge(h, p));
    }
  }

  lemma StepKeepsStamps(db: Db, h: Trail, p: Proc, db': Db, p': Proc)
    requires StampsOk(db, h) && StampKnown(db, p) && ProcStep(db, p, db', p')
    requires Submap(h.pushes, NoteStep(h, db, p).pushes)
    ensures StampsOk(db', NoteStep(h, db, p))
  {
    match p
    case OfPush(q) => PushKeepsStamps(db, h, q, db', p'.push);
    case OfMerge(q) => MergeKeepsStamps(db, h, q, db', p'.merge);
    case _ =>
      SideStepAddsNoCommit(db, p, db', p');
      FrameKeepsStamps(db, h, db', NoteStep(h, db, p));
  }

  // ---- runs ----

  ghost predicate StampInv(m: Machine) {
    StampsOk(m.db, m.trail) && forall i :: i in m.procs ==> StampKnown(m.db, m.procs[i])
  }

  lemma StampKnownGrows(db: Db, db': Db, p: Proc)
    requires StampKnown(db, p) && Submap(db.commits, db'.commits)
    ensures StampKnown(db', p)
  {
  }

  lemma AdvanceKeepsStamps(m: Machine, pid: nat, m': Machine)
    requires Inv(m) && StampInv(m) && Next(m, Advance(pid), m')
    ensures StampInv(m')
  {
    StepKeeps(m.db, m.trail, m.procs[pid], m'.db, m'.procs[pid]);
    StepKeepsStamps(m.db, m.trail, m.procs[pid], m'.db, m'.procs[pid]);
    StepTakesStamp(m.db, m.trail, m.procs[pid], m'.db, m'.procs[pid]);
    forall j | j in m.procs && j != pid ensures StampKnown(m'.db, m'.procs[j]) {
      StampKnownGrows(m.db, m'.db, m.procs[j]);
    }
  }

  lemma {:induction false} RunsKeepStamps(ms: seq<Machine>, acts: seq<Action>, i: nat)
    requires Run(ms, acts) && i < |ms|
    ensures StampInv(ms[i])
  {
    if i > 0 {
      RunsKeepStamps(ms, acts, i - 1);
      RunsAreSafe(ms, acts, i - 1);
      assert Next(ms[i - 1], acts[i - 1], ms[i]);
      if acts[i - 1].Advance? { AdvanceKeepsStamps(ms[i - 1], acts[i - 1].pid, ms[i]); }
    }
  }

  /** A head's history is all checked pushes and merges, so it rises. */
  lemma HeadHistoryRises(db: Db, h: Trail, k: Head)
    requires Good(db, h) && StampsOk(db, h) && k in h.heads
    ensures RisingFrom(db.commits, k.commit)
  {
    forall c, q | c in db.commits && Reaches(db.commits, k.commit, c) && q in db.commits[c].parents
      ensures q in db.commits && db.commits[q].createdAt < db.commits[c].createdAt
    {
      AncestorsWereHeads(db, h, k.project, k.commit, c);
      assert HeadOk(db, h, Head(k.project, c));
      assert ParentsOlder(db.commits, c);
    }
  }

  /** At every moment of every run created_at rises along a branch's history. */
  lemma HistoryRises(ms: seq<Machine>, acts: seq<Action>, i: nat, r: RefKey)
    requires Run(ms, acts) && i < |ms| && r in ms[i].db.refs
    ensures RisingFrom(ms[i].db.commits, ms[i].db.refs[r])
  {
    RunsAreSafe(ms, acts, i);
    RunsKeepStamps(ms, acts, i);
    HeadHistoryRises(ms[i].db, ms[i].trail, Head(r.project, ms[i].db.refs[r]));
  }

  /** At every moment of every run, what FindMergeBase finds for two branches is an ancestor
      of both heads, and no other common ancestor descends from it. */
  lemma BranchMergeBaseIsBest(ms: seq<Machine>, acts: seq<Action>, i: nat, r: RefKey, r': RefKey,
                              base: CommitId, other: CommitId)
    requires Run(ms, acts) && i < |ms| && r in ms[i].db.refs && r' in ms[i].db.refs
    requires IsMergeBase(ms[i].db.commits, ms[i].db.refs[r], ms[i].db.refs[r'], base)
    requires Reaches(ms[i].db.commits, ms[i].db.refs[r], other) && Reaches(ms[i].db.commits, ms[i].db.refs[r'], other)
    ensures Reaches(ms[i].db.commits, ms[i].db.refs[r], base) && Reaches(ms[i].db.commits, ms[i].db.refs[r'], base)
    ensures Reaches(ms[i].db.commits, other, base) ==> other == base
  {
    HistoryRises(ms, acts, i, r);
    MergeBaseIsBest(ms[i].db.commits, ms[i].db.refs[r], ms[i].db.refs[r'], base, other);
  }
}
