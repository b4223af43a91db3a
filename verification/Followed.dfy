/** One request followed through a run in which others interleave with it: what a merge
    writes in terms of the heads it analysed and the heads it read again, and what a push
    writes in terms of the parent tree it read. */
module Followed {
  import opened Tables
  import opened Ancestry
  import opened Merging
  import opened Requests
  import opened Safety
  import opened SafetyProof
  import opened SafetyRuns

  /** The request runs from `i` to `j` without being stopped. */
  predicate Lasts(ms: seq<Machine>, i: nat, j: nat, pid: nat)
    requires i <= j < |ms|
  {
    forall n :: i <= n <= j ==> pid in ms[n].procs
  }

  // ---- merges ----

  /** The analysis is right about the two heads it looked at, whatever the branches are at
      by now. */
  ghost predicate Saw(db: Db, h: Trail, project: ProjectId, s: CommitId, t: CommitId, ana: Analysis) {
    && Head(project, s) in h.heads && Head(project, t) in h.heads
    && if ana.kind == FastForward then Reaches(db.commits, s, t) && ana.base == t
       else
         && !Reaches(db.commits, s, t) && IsMergeBase(db.commits, s, t, ana.base)
         && IsAnalysis(SnapOf(db, ana.base), SnapOf(db, s), SnapOf(db, t), ana)
  }

  ghost predicate Drew(db: Db, h: Trail, project: ProjectId, s: CommitId, t: CommitId,
                       note: MergeNote, tree: Snapshot, ana: Analysis)
  {
    && Saw(db, h, project, s, t, ana) && ana.kind != FastForward && ana.base == note.base
    && Head(project, note.target) in h.heads && Accepted(ana, note.resolutions)
    && tree == MergedTree(SnapOf(db, note.target), ana, note.resolutions)
  }

  /** The tree is the second target's, with the first analysis and the resolutions over it. */
  ghost predicate Drawn(db: Db, h: Trail, project: ProjectId, s: CommitId, t: CommitId,
                        note: MergeNote, tree: Snapshot)
  {
    exists ana :: Drew(db, h, project, s, t, note, tree, ana)
  }

  ghost predicate Reading(db: Db, h: Trail, project: ProjectId, s: CommitId, t: CommitId) {
    Head(project, s) in h.heads && Head(project, t) in h.heads && !Reaches(db.commits, s, t)
  }

  /** The merge `req`, which found the heads `s` and `t`, has come to `p`. */
  ghost predicate Traced(db: Db, h: Trail, req: MergeReq, s: CommitId, t: CommitId, p: Merge) {
    p.req == req
    && match p
       case TestAncestor(_, s', t') =>
         s' == s && t' == t && Head(req.project, s) in h.heads && Head(req.project, t) in h.heads
       case FindBase(_, s', t') => s' == s && t' == t && Reading(db, h, req.project, s, t)
       case ReadBase(_, s', t', b) =>
         s' == s && t' == t && Reading(db, h, req.project, s, t) && IsMergeBase(db.commits, s, t, b)
       case ReadSource(_, s', t', b, baseTree) =>
         && s' == s && t' == t && Reading(db, h, req.project, s, t) && IsMergeBase(db.commits, s, t, b)
         && baseTree == SnapOf(db, b)
       case ReadTarget(_, s', t', b, baseTree, sourceTree) =>
         && s' == s && t' == t && Reading(db, h, req.project, s, t) && IsMergeBase(db.commits, s, t, b)
         && baseTree == SnapOf(db, b) && sourceTree == SnapOf(db, s)
       case AgainSource(_, ana) => Saw(db, h, req.project, s, t, ana)
       case AgainTarget(_, ana, _) => Saw(db, h, req.project, s, t, ana)
       case Forward(_, _, _) => Reaches(db.commits, s, t)
       case Forwarded(_, _) => Reaches(db.commits, s, t)
       case ReadAgain(_, ana, _, _) => Saw(db, h, req.project, s, t, ana)
       case CreateMerge(_, note, tree, _, _) => Drawn(db, h, req.project, s, t, note, tree)
       case WriteMerged(_, note, tree, _) => Drawn(db, h, req.project, s, t, note, tree)
       case PublishMerge(_, note, c) => c in h.sealed && Drawn(db, h, req.project, s, t, note, SnapOf(db, c))
       case Merged(_, note, c) => c in h.sealed && Drawn(db, h, req.project, s, t, note, SnapOf(db, c))
       case _ => false
  }

  // ---- what other requests leave ----

  lemma HeadSnapStays(db: Db, h: Trail, db': Db, h': Trail, touched: set<CommitId>, k: Head)
    requires HeadsOk(db, h) && k in h.heads && Grows(db, h, db', h', touched)
    ensures k.commit in db.commits && k in h'.heads && SnapOf(db', k.commit) == SnapOf(db, k.commit)
  {
    assert HeadOk(db, h, k);
  }

  lemma BaseStays(db: Db, h: Trail, db': Db, h': Trail, touched: set<CommitId>,
                  project: ProjectId, s: CommitId, t: CommitId, b: CommitId)
    requires Good(db, h) && Grows(db, h, db', h', touched) && Head(project, s) in h.heads && Head(project, t) in h.heads
    requires IsMergeBase(db.commits, s, t, b)
    ensures Head(project, b) in h.heads && IsMergeBase(db'.commits, s, t, b) && SnapOf(db', b) == SnapOf(db, b)
  {
    AncestorsWereHeads(db, h, project, s, b);
    HeadSnapStays(db, h, db', h', touched, Head(project, b));
    HeadSnapStays(db, h, db', h', touched, Head(project, s));
    HeadSnapStays(db, h, db', h', touched, Head(project, t));
    MergeBaseIsStable(db.commits, db'.commits, s, t, b);
  }

  lemma HeadsStay(db: Db, h: Trail, db': Db, h': Trail, touched: set<CommitId>,
                  project: ProjectId, s: CommitId, t: CommitId)
    requires Good(db, h) && Grows(db, h, db', h', touched) && Head(project, s) in h.heads && Head(project, t) in h.heads
    ensures Head(project, s) in h'.heads && Head(project, t) in h'.heads
    ensures SnapOf(db', s) == SnapOf(db, s) && SnapOf(db', t) == SnapOf(db, t)
    ensures Reaches(db'.commits, s, t) <==> Reaches(db.commits, s, t)
  {
    HeadSnapStays(db, h, db', h', touched, Head(project, s));
    HeadSnapStays(db, h, db', h', touched, Head(project, t));
    ReachesIsStable(db.commits, db'.commits, s, t);
  }

  lemma SawStays(db: Db, h: Trail, db': Db, h': Trail, touched: set<CommitId>,
                 project: ProjectId, s: CommitId, t: CommitId, ana: Analysis)
    requires Good(db, h) && Grows(db, h, db', h', touched) && Saw(db, h, project, s, t, ana)
    ensures Saw(db', h', project, s, t, ana)
  {
    HeadsStay(db, h, db', h', touched, project, s, t);
    if ana.kind != FastForward { BaseStays(db, h, db', h', touched, project, s, t, ana.base); }
  }

  lemma DrawnStays(db: Db, h: Trail, db': Db, h': Trail, touched: set<CommitId>,
                   project: ProjectId, s: CommitId, t: CommitId, note: MergeNote, tree: Snapshot)
    requires Good(db, h) && Grows(db, h, db', h', touched) && Drawn(db, h, project, s, t, note, tree)
    ensures Drawn(db', h', project, s, t, note, tree)
  {
    var ana :| Drew(db, h, project, s, t, note, tree, ana);
    SawStays(db, h, db', h', touched, project, s, t, ana);
    HeadSnapStays(db, h, db', h', touched, Head(project, note.target));
    assert Drew(db', h', project, s, t, note, tree, ana);
  }

  lemma ReadingStays(db: Db, h: Trail, db': Db, h': Trail, touched: set<CommitId>,
                     req: MergeReq, s: CommitId, t: CommitId, p: Merge)
    requires Good(db, h) && Grows(db, h, db', h', touched) && Traced(db, h, req, s, t, p)
    requires p.TestAncestor? || p.FindBase? || p.ReadBase? || p.ReadSource? || p.ReadTarget?
    ensures Traced(db', h', req, s, t, p)
  {
    HeadsStay(db, h, db', h', touched, req.project, s, t);
    if p.ReadBase? || p.ReadSource? || p.ReadTarget? {
      BaseStays(db, h, db', h', touched, req.project, s, t, p.b);
    }
  }

  lemma AnalysisStays(db: Db, h: Trail, db': Db, h': Trail, touched: set<CommitId>,
                      req: MergeReq, s: CommitId, t: CommitId, p: Merge)
    requires Good(db, h) && Grows(db, h, db', h', touched) && Traced(db, h, req, s, t, p)
    requires p.AgainSource? || p.AgainTarget? || p.ReadAgain?
    ensures Traced(db', h', req, s, t, p)
  {
    SawStays(db, h, db', h', touched, req.project, s, t, p.ana);
  }

  lemma TreeStays(db: Db, h: Trail, db': Db, h': Trail, touched: set<CommitId>,
                  req: MergeReq, s: CommitId, t: CommitId, p: Merge)
    requires Good(db, h) && Grows(db, h, db', h', touched) && Traced(db, h, req, s, t, p)
    requires p.CreateMerge? || p.WriteMerged?
    ensures Traced(db', h', req, s, t, p)
  {
    DrawnStays(db, h, db', h', touched, req.project, s, t, p.note, p.tree);
  }

  lemma WrittenStays(db: Db, h: Trail, db': Db, h': Trail, touched: set<CommitId>,
                     req: MergeReq, s: CommitId, t: CommitId, p: Merge)
    requires Good(db, h) && Grows(db, h, db', h', touched) && Traced(db, h, req, s, t, p)
    requires p.PublishMerge? || p.Merged?
    ensures Traced(db', h', req, s, t, p)
  {
    DrawnStays(db, h, db', h', touched, req.project, s, t, p.note, SnapOf(db, p.commit));
  }

  lemma ForwardStays(db: Db, h: Trail, db': Db, h': Trail, touched: set<CommitId>,
                     req: MergeReq, s: CommitId, t: CommitId, p: Merge)
    requires Grows(db, h, db', h', touched) && Traced(db, h, req, s, t, p) && (p.Forward? || p.Forwarded?)
    ensures Traced(db', h', req, s, t, p)
  {
    ReachesGrows(db.commits, db'.commits, s, t);
  }

  /** What has been traced survives a step of any request. */
  lemma TracedStays(db: Db, h: Trail, db': Db, h': Trail, touched: set<CommitId>,
                    req: MergeReq, s: CommitId, t: CommitId, p: Merge)
    requires Good(db, h) && Grows(db, h, db', h', touched) && Traced(db, h, req, s, t, p)
    ensures Traced(db', h', req, s, t, p)
  {
    if p.AgainSource? || p.AgainTarget? || p.ReadAgain? {
      AnalysisStays(db, h, db', h', touched, req, s, t, p);
    } else if p.CreateMerge? || p.WriteMerged? {
      TreeStays(db, h, db', h', touched, req, s, t, p);
    } else if p.PublishMerge? || p.Merged? {
      WrittenStays(db, h, db', h', touched, req, s, t, p);
    } else if p.Forward? || p.Forwarded? {
      ForwardStays(db, h, db', h', touched, req, s, t, p);
    } else {
      ReadingStays(db, h, db', h', touched, req, s, t, p);
    }
  }

  // ---- the merge's own steps ----

  lemma TracedReads(db: Db, h: Trail, req: MergeReq, s: CommitId, t: CommitId, p: Merge, db': Db, p': Merge)
    requires Good(db, h) && Traced(db, h, req, s, t, p) && MergeStep(db, p, db', p')
    requires p.TestAncestor? || p.FindBase? || p.ReadBase? || p.ReadSource? || p.ReadTarget?
    ensures Traced(db', NoteMerge(h, p), req, s, t, p')
  {
    match p
    case ReadBase(_, _, _, b) =>
      AncestorsWereHeads(db, h, req.project, s, b);
      TreeOfHead(db, h, Head(req.project, b));
    case ReadSource(_, _, _, _, _) => TreeOfHead(db, h, Head(req.project, s));
    case ReadTarget(_, _, _, _, _, _) => TreeOfHead(db, h, Head(req.project, t));
    case _ =>
  }

  lemma TracedReadsHeads(db: Db, h: Trail, req: MergeReq, s: CommitId, t: CommitId, p: Merge, db': Db, p': Merge)
    requires Traced(db, h, req, s, t, p) && MergeStep(db, p, db', p') && (p.AgainSource? || p.AgainTarget?)
    ensures Traced(db', NoteMerge(h, p), req, s, t, p')
  {
  }

  lemma TracedDraws(db: Db, h: Trail, req: MergeReq, s: CommitId, t: CommitId, p: Merge, db': Db, p': Merge)
    requires Good(db, h) && MergeKnows(db, h, p) && Traced(db, h, req, s, t, p) && MergeStep(db, p, db', p')
    requires p.ReadAgain?
    ensures Traced(db', NoteMerge(h, p), req, s, t, p')
  {
    TreeOfHead(db, h, Head(req.project, p.t));
    assert Drew(db, h, req.project, s, t, p'.note, p'.tree, p.ana);
  }

  lemma TracedCreates(db: Db, h: Trail, req: MergeReq, s: CommitId, t: CommitId, p: Merge, db': Db, p': Merge)
    requires Good(db, h) && Traced(db, h, req, s, t, p) && MergeStep(db, p, db', p') && p.CreateMerge?
    requires Grows(db, h, db', NoteMerge(h, p), Touches(OfMerge(p)))
    ensures Traced(db', NoteMerge(h, p), req, s, t, p')
  {
    TreeStays(db, h, db', NoteMerge(h, p), Touches(OfMerge(p)), req, s, t, p);
  }

  lemma TracedWrites(db: Db, h: Trail, req: MergeReq, s: CommitId, t: CommitId, p: Merge, db': Db, p': Merge)
    requires Good(db, h) && MergeKnows(db, h, p) && Traced(db, h, req, s, t, p) && MergeStep(db, p, db', p')
    requires p.WriteMerged? && Grows(db, h, db', NoteMerge(h, p), Touches(OfMerge(p)))
    ensures Traced(db', NoteMerge(h, p), req, s, t, p')
  {
    TreeStays(db, h, db', NoteMerge(h, p), Touches(OfMerge(p)), req, s, t, p);
    FreshTree(db, h, p.commit, p.tree);
  }

  lemma TracedPublishes(db: Db, h: Trail, req: MergeReq, s: CommitId, t: CommitId, p: Merge, db': Db, p': Merge)
    requires Good(db, h) && Traced(db, h, req, s, t, p) && MergeStep(db, p, db', p')
    requires p.PublishMerge? && Grows(db, h, db', NoteMerge(h, p), Touches(OfMerge(p)))
    ensures Traced(db', NoteMerge(h, p), req, s, t, p')
  {
    WrittenStays(db, h, db', NoteMerge(h, p), Touches(OfMerge(p)), req, s, t, p);
  }

  lemma TracedMovesForward(db: Db, h: Trail, req: MergeReq, s: CommitId, t: CommitId, p: Merge, db': Db, p': Merge)
    requires Traced(db, h, req, s, t, p) && MergeStep(db, p, db', p') && p.Forward?
    ensures Traced(db', NoteMerge(h, p), req, s, t, p')
  {
  }

  lemma TracedSteps(db: Db, h: Trail, req: MergeReq, s: CommitId, t: CommitId, p: Merge, db': Db, p': Merge)
    requires Good(db, h) && MergeKnows(db, h, p) && Traced(db, h, req, s, t, p) && MergeStep(db, p, db', p')
    requires Grows(db, h, db', NoteMerge(h, p), Touches(OfMerge(p)))
    ensures Traced(db', NoteMerge(h, p), req, s, t, p')
  {
    if p.TestAncestor? || p.FindBase? || p.ReadBase? || p.ReadSource? || p.ReadTarget? {
      TracedReads(db, h, req, s, t, p, db', p');
    } else if p.AgainSource? || p.AgainTarget? {
      TracedReadsHeads(db, h, req, s, t, p, db', p');
    } else if p.ReadAgain? {
      TracedDraws(db, h, req, s, t, p, db', p');
    } else if p.CreateMerge? {
      TracedCreates(db, h, req, s, t, p, db', p');
    } else if p.WriteMerged? {
      TracedWrites(db, h, req, s, t, p, db', p');
    } else if p.PublishMerge? {
      TracedPublishes(db, h, req, s, t, p, db', p');
    } else {
      TracedMovesForward(db, h, req, s, t, p, db', p');
    }
  }

  lemma AdvanceTraces(m: Machine, m': Machine, pid: nat, req: MergeReq, s: CommitId, t: CommitId)
    requires Inv(m) && Next(m, Advance(pid), m') && m.procs[pid].OfMerge?
    requires Traced(m.db, m.trail, req, s, t, m.procs[pid].merge)
    ensures m'.procs[pid].OfMerge? && Traced(m'.db, m'.trail, req, s, t, m'.procs[pid].merge)
  {
    var p := m.procs[pid].merge;
    StepKeeps(m.db, m.trail, OfMerge(p), m'.db, m'.procs[pid]);
    assert ProcKnows(m.db, m.trail, OfMerge(p));
    TracedSteps(m.db, m.trail, req, s, t, p, m'.db, m'.procs[pid].merge);
  }

  /** Another request's step leaves this one where it is and only adds to the tables. */
  lemma OthersLeave(m: Machine, a: Action, m': Machine, pid: nat) returns (touched: set<CommitId>)
    requires Inv(m) && Next(m, a, m') && pid in m.procs && pid in m'.procs && a != Advance(pid)
    ensures m'.procs[pid] == m.procs[pid] && Grows(m.db, m.trail, m'.db, m'.trail, touched)
    ensures Good(m.db, m.trail) && Good(m'.db, m'.trail)
  {
    NextKeeps(m, a, m');
    touched :| Grows(m.db, m.trail, m'.db, m'.trail, touched);
  }

  lemma OthersTrace(m: Machine, a: Action, m': Machine, pid: nat, req: MergeReq, s: CommitId, t: CommitId)
    requires Inv(m) && Next(m, a, m') && pid in m.procs && pid in m'.procs && a != Advance(pid)
    requires m.procs[pid].OfMerge? && Traced(m.db, m.trail, req, s, t, m.procs[pid].merge)
    ensures m'.procs[pid] == m.procs[pid] && Traced(m'.db, m'.trail, req, s, t, m.procs[pid].merge)
  {
    var touched := OthersLeave(m, a, m', pid);
    TracedStays(m.db, m.trail, m'.db, m'.trail, touched, req, s, t, m.procs[pid].merge);
  }

  lemma MergeStartsTraced(m: Machine, pid: nat, req: MergeReq, s: CommitId, t: CommitId)
    requires Inv(m) && pid in m.procs && m.procs[pid] == OfMerge(TestAncestor(req, s, t))
    ensures Traced(m.db, m.trail, req, s, t, TestAncestor(req, s, t))
  {
    assert ProcKnows(m.db, m.trail, m.procs[pid]);
  }

  ghost predicate TracedAt(m: Machine, pid: nat, req: MergeReq, s: CommitId, t: CommitId) {
    pid in m.procs && m.procs[pid].OfMerge? && Traced(m.db, m.trail, req, s, t, m.procs[pid].merge)
  }

  lemma RunStartsTraced(ms: seq<Machine>, acts: seq<Action>, i: nat, pid: nat, req: MergeReq, s: CommitId, t: CommitId)
    requires Run(ms, acts) && i < |ms| && pid in ms[i].procs && ms[i].procs[pid] == OfMerge(TestAncestor(req, s, t))
    ensures TracedAt(ms[i], pid, req, s, t)
  {
    RunsAreSafe(ms, acts, i);
    MergeStartsTraced(ms[i], pid, req, s, t);
  }

  lemma RunStepTraces(ms: seq<Machine>, acts: seq<Action>, n: nat, pid: nat, req: MergeReq, s: CommitId, t: CommitId)
    requires Run(ms, acts) && n < |acts| && TracedAt(ms[n], pid, req, s, t) && pid in ms[n + 1].procs
    ensures TracedAt(ms[n + 1], pid, req, s, t)
  {
    RunsAreSafe(ms, acts, n);
    if acts[n] == Advance(pid) {
      AdvanceTraces(ms[n], ms[n + 1], pid, req, s, t);
    } else {
      OthersTrace(ms[n], acts[n], ms[n + 1], pid, req, s, t);
    }
  }

  lemma {:induction false} TracesAlong(ms: seq<Machine>, i: nat, j: nat, pid: nat, req: MergeReq, s: CommitId,
                                       t: CommitId)
    requires i <= j < |ms| && TracedAt(ms[i], pid, req, s, t)
    requires forall n :: i <= n < j && TracedAt(ms[n], pid, req, s, t) ==> TracedAt(ms[n + 1], pid, req, s, t)
    ensures TracedAt(ms[j], pid, req, s, t)
    decreases j - i
  {
    if i < j { TracesAlong(ms, i, j - 1, pid, req, s, t); }
  }

  lemma RunTraces(ms: seq<Machine>, acts: seq<Action>, i: nat, j: nat, pid: nat,
                  req: MergeReq, s: CommitId, t: CommitId)
    requires Run(ms, acts) && i <= j < |ms| && Lasts(ms, i, j, pid)
    requires ms[i].procs[pid] == OfMerge(TestAncestor(req, s, t))
    ensures TracedAt(ms[j], pid, req, s, t)
  {
    RunStartsTraced(ms, acts, i, pid, req, s, t);
    forall n | i <= n < j && TracedAt(ms[n], pid, req, s, t)
      ensures TracedAt(ms[n + 1], pid, req, s, t)
    {
      RunStepTraces(ms, acts, n, pid, req, s, t);
    }
    TracesAlong(ms, i, j, pid, req, s, t);
  }

  /** What the commit of the merge that ran under `pid` holds: at every file the second
      target's row, unless the analysis took the source's or a conflict was resolved. */
  ghost predicate WroteWhatItSaw(db: Db, s: CommitId, t: CommitId, note: MergeNote, tree: Snapshot) {
    var base, source, target := SnapOf(db, note.base), SnapOf(db, s), SnapOf(db, t);
    && !Reaches(db.commits, s, t) && IsMergeBase(db.commits, s, t, note.base)
    && forall f :: TakenAt(base, source, target, SnapOf(db, note.target), Chosen(note.resolutions), tree, f)
  }

  predicate TakenAt(b: Snapshot, s: Snapshot, t: Snapshot, now: Snapshot, chosen: Snapshot, m: Snapshot, f: FileId) {
    var verdict := Classify(b, s, t, f);
    && (f in m <==> f in now || verdict == SourceOnly || verdict == Clash)
    && (f in m ==> m[f] == (if verdict == SourceOnly then VersionIn(s, f)
                            else if verdict == Clash then VersionIn(chosen, f)
                            else VersionIn(now, f)))
  }

  lemma OverlaidAt(b: Snapshot, s: Snapshot, t: Snapshot, now: Snapshot, ana: Analysis, res: seq<Resolution>)
    requires IsAnalysis(b, s, t, ana) && Accepted(ana, res)
    ensures forall f :: TakenAt(b, s, t, now, Chosen(res), MergedTree(now, ana, res), f)
  {
    var all := AllFiles(b, s, t);
    OverlayPointwise(now, ana.sourceOnly, Having(all, b, s, t, SourceOnly), s);
    OverlayChosen(Overlay(now, ana.sourceOnly), res);
    forall f ensures TakenAt(b, s, t, now, Chosen(res), MergedTree(now, ana, res), f) {
      assert f in Having(all, b, s, t, SourceOnly) <==> Classify(b, s, t, f) == SourceOnly;
      assert f in Having(all, b, s, t, Clash) <==> Classify(b, s, t, f) == Clash;
      if ana.kind == Conflicted { ResolutionsPermuteConflicts(b, s, t, ana, res); }
    }
  }

  lemma DrawnWrote(db: Db, h: Trail, project: ProjectId, s: CommitId, t: CommitId, note: MergeNote, tree: Snapshot)
    requires Drawn(db, h, project, s, t, note, tree)
    ensures WroteWhatItSaw(db, s, t, note, tree)
  {
    var ana :| Drew(db, h, project, s, t, note, tree, ana);
    OverlaidAt(SnapOf(db, note.base), SnapOf(db, s), SnapOf(db, t), SnapOf(db, note.target), ana, note.resolutions);
  }

  /** Under every interleaving: a merge that found the heads `s` and `t` and was published
      wrote its analysis of those two, over the tree of whatever the target had become. */
  lemma MergeWritesWhatItSaw(ms: seq<Machine>, acts: seq<Action>, i: nat, j: nat, pid: nat,
                             req: MergeReq, s: CommitId, t: CommitId, note: MergeNote, c: CommitId)
    requires Run(ms, acts) && i <= j < |ms| && Lasts(ms, i, j, pid)
    requires ms[i].procs[pid] == OfMerge(TestAncestor(req, s, t))
    requires ms[j].procs[pid] == OfMerge(Merged(req, note, c))
    ensures WroteWhatItSaw(ms[j].db, s, t, note, SnapOf(ms[j].db, c))
  {
    RunTraces(ms, acts, i, j, pid, req, s, t);
    DrawnWrote(ms[j].db, ms[j].trail, req.project, s, t, note, SnapOf(ms[j].db, c));
  }

  /** Under every interleaving: a published merge has every file of the target it read second,
      and every file of the source it read second exactly when the target has it or the
      first reading saw the source change it. What the source gained in between is dropped. */
  lemma MergeKeepsFilesIff(ms: seq<Machine>, acts: seq<Action>, i: nat, j: nat, pid: nat,
                           req: MergeReq, s: CommitId, t: CommitId, note: MergeNote, c: CommitId)
    requires Run(ms, acts) && i <= j < |ms| && Lasts(ms, i, j, pid)
    requires ms[i].procs[pid] == OfMerge(TestAncestor(req, s, t))
    requires ms[j].procs[pid] == OfMerge(Merged(req, note, c))
    ensures SnapOf(ms[j].db, note.target).Keys <= SnapOf(ms[j].db, c).Keys
    ensures SnapOf(ms[j].db, note.source).Keys <= SnapOf(ms[j].db, c).Keys <==>
      forall f :: f in SnapOf(ms[j].db, note.source) ==>
        f in SnapOf(ms[j].db, note.target) || SawSourceChange(ms[j].db, s, t, note, f)
  {
    MergeWritesWhatItSaw(ms, acts, i, j, pid, req, s, t, note, c);
    KeysOfTaken(ms[j].db, s, t, note, SnapOf(ms[j].db, c));
  }

  /** At the first reading the source alone had changed the file, or both sides had. */
  predicate SawSourceChange(db: Db, s: CommitId, t: CommitId, note: MergeNote, f: FileId) {
    Classify(SnapOf(db, note.base), SnapOf(db, s), SnapOf(db, t), f) in {SourceOnly, Clash}
  }

  lemma KeysOfTaken(db: Db, s: CommitId, t: CommitId, note: MergeNote, tree: Snapshot)
    requires WroteWhatItSaw(db, s, t, note, tree)
    ensures forall f :: f in tree <==> f in SnapOf(db, note.target) || SawSourceChange(db, s, t, note, f)
  {
    forall f ensures f in tree <==> f in SnapOf(db, note.target) || SawSourceChange(db, s, t, note, f) {
      assert TakenAt(SnapOf(db, note.base), SnapOf(db, s), SnapOf(db, t), SnapOf(db, note.target),
                     Chosen(note.resolutions), tree, f);
    }
  }

  lemma DrawnIsThreeWayIff(db: Db, h: Trail, project: ProjectId, note: MergeNote, tree: Snapshot)
    requires Good(db, h) && Drawn(db, h, project, note.source, note.target, note, tree)
    ensures var b, s, t := SnapOf(db, note.base), SnapOf(db, note.source), SnapOf(db, note.target);
      tree == ThreeWay(b, s, t, Chosen(note.resolutions)) <==> forall f ::
        && Classify(b, s, t, f) != SourceDeleted
        && (Classify(b, s, t, f) == Clash ==> VersionIn(Chosen(note.resolutions), f) != ABSENT)
  {
    var ana :| Drew(db, h, project, note.source, note.target, note, tree, ana);
    AncestorsWereHeads(db, h, project, note.source, note.base);
    HeadIsReal(db, h, Head(project, note.base));
    HeadIsReal(db, h, Head(project, note.source));
    HeadIsReal(db, h, Head(project, note.target));
    var b, s, t := SnapOf(db, note.base), SnapOf(db, note.source), SnapOf(db, note.target);
    MergedTreeIsThreeWayIff(b, s, t, ana, note.resolutions);
  }

  lemma HeadIsReal(db: Db, h: Trail, k: Head)
    requires Good(db, h) && k in h.heads
    ensures Real(SnapOf(db, k.commit))
  {
    assert HeadOk(db, h, k);
    forall f | f in SnapOf(db, k.commit) ensures SnapOf(db, k.commit)[f] != ABSENT {
      assert VersionFits(db, f, SnapOf(db, k.commit)[f]);
    }
  }

  /** Under every interleaving: when reading the branches again returns the heads that were
      analysed, the tree about to be written is their three-way merge exactly when the
      source alone deleted no file and no conflict takes the empty version. */
  lemma SteadyMergeIsThreeWayIff(ms: seq<Machine>, acts: seq<Action>, i: nat, j: nat, pid: nat,
                                 req: MergeReq, note: MergeNote, tree: Snapshot, c: CommitId)
    requires Run(ms, acts) && i <= j < |ms| && Lasts(ms, i, j, pid)
    requires ms[i].procs[pid] == OfMerge(TestAncestor(req, note.source, note.target))
    requires ms[j].procs[pid] == OfMerge(WriteMerged(req, note, tree, c))
    ensures var db := ms[j].db;
      var b, s, t := SnapOf(db, note.base), SnapOf(db, note.source), SnapOf(db, note.target);
      tree == ThreeWay(b, s, t, Chosen(note.resolutions)) <==> forall f ::
        && Classify(b, s, t, f) != SourceDeleted
        && (Classify(b, s, t, f) == Clash ==> VersionIn(Chosen(note.resolutions), f) != ABSENT)
  {
    RunTraces(ms, acts, i, j, pid, req, note.source, note.target);
    RunsAreSafe(ms, acts, j);
    DrawnIsThreeWayIff(ms[j].db, ms[j].trail, req.project, note, tree);
  }

  /** The same of a merge that was published: its snapshot is the three-way merge of its two
      parents exactly when the source alone deleted no file. */
  lemma PublishedMergeIsThreeWayIff(ms: seq<Machine>, acts: seq<Action>, i: nat, j: nat, pid: nat,
                                    req: MergeReq, note: MergeNote, c: CommitId)
    requires Run(ms, acts) && i <= j < |ms| && Lasts(ms, i, j, pid)
    requires ms[i].procs[pid] == OfMerge(TestAncestor(req, note.source, note.target))
    requires ms[j].procs[pid] == OfMerge(Merged(req, note, c))
    ensures var db := ms[j].db;
      var b, s, t := SnapOf(db, note.base), SnapOf(db, note.source), SnapOf(db, note.target);
      SnapOf(db, c) == ThreeWay(b, s, t, Chosen(note.resolutions)) <==> forall f ::
        && Classify(b, s, t, f) != SourceDeleted
        && (Classify(b, s, t, f) == Clash ==> VersionIn(Chosen(note.resolutions), f) != ABSENT)
  {
    RunTraces(ms, acts, i, j, pid, req, note.source, note.target);
    RunsAreSafe(ms, acts, j);
    DrawnIsThreeWayIff(ms[j].db, ms[j].trail, req.project, note, SnapOf(ms[j].db, c));
  }

  // ---- pushes ----

  /** The parent's snapshot is written and names versions of the project's files. Every
      branch head is such a parent, and so is what a push made of one. */
  ghost predicate WholeParent(db: Db, h: Trail, req: PushReq) {
    && SnapOk(db, req.project, ParentTree(db, req))
    && (req.parent.Some? ==> req.parent.value in h.sealed)
  }

  /** The push `req`, making `c`, has come to `p` with its parent's tree and its own files. */
  ghost predicate Carried(db: Db, h: Trail, req: PushReq, c: CommitId, p: Push) {
    && WholeParent(db, h, req) && !p.Gate? && !p.Check?
    && p.req == req && p.commit == c
    && match p
       case ReadParent(_, _) => true
       case Upsert(_, _, i, tree) => TreeSoFar(db, req, c, i, tree)
       case Lookup(_, _, i, tree) => TreeSoFar(db, req, c, i, tree)
       case WriteVersion(_, _, i, tree, _, _) => TreeSoFar(db, req, c, i, tree)
       case WriteTree(_, _, tree) => TreeSoFar(db, req, c, |req.files|, tree)
       case Create(_, _, _) => false
       case _ => c in h.sealed && TreeSoFar(db, req, c, |req.files|, SnapOf(db, c))
  }

  ghost predicate CarriedAt(m: Machine, pid: nat, req: PushReq, c: CommitId) {
    pid in m.procs && m.procs[pid].OfPush? && Carried(m.db, m.trail, req, c, m.procs[pid].push)
  }

  lemma WholeParentStays(db: Db, h: Trail, db': Db, h': Trail, touched: set<CommitId>, req: PushReq)
    requires WholeParent(db, h, req) && Grows(db, h, db', h', touched) && RowsGrow(db, db')
    ensures WholeParent(db', h', req) && ParentTree(db', req) == ParentTree(db, req)
  {
    ParentTreeStable(db, h, db', h', touched, req);
    SnapOkStable(db, db', req.project, ParentTree(db, req));
  }

  /** What has been carried survives a step of any request. */
  lemma CarriedStays(db: Db, h: Trail, db': Db, h': Trail, touched: set<CommitId>,
                     req: PushReq, c: CommitId, p: Push)
    requires Carried(db, h, req, c, p) && Grows(db, h, db', h', touched) && RowsGrow(db, db')
    ensures Carried(db', h', req, c, p)
  {
    WholeParentStays(db, h, db', h', touched, req);
    if p.Upsert? || p.Lookup? || p.WriteVersion? {
      TreeSoFarStable(db, db', req, c, p.i, p.tree);
    } else if p.WriteTree? {
      TreeSoFarStable(db, db', req, c, |req.files|, p.tree);
    } else if p.Count? || p.Publish? || p.Pushed? {
      TreeSoFarStable(db, db', req, c, |req.files|, SnapOf(db, c));
    }
  }

  lemma CarriedMoves(db: Db, h: Trail, req: PushReq, c: CommitId, p: Push, db': Db, p': Push)
    requires Carried(db, h, req, c, p) && PushStep(db, p, db', p') && !p.WriteVersion? && !p.WriteTree?
    requires Grows(db, h, db', NotePush(h, p), Touches(OfPush(p))) && RowsGrow(db, db')
    ensures Carried(db', NotePush(h, p), req, c, p')
  {
    CarriedStays(db, h, db', NotePush(h, p), Touches(OfPush(p)), req, c, p);
  }

  lemma CarriedTakesVersion(db: Db, h: Trail, req: PushReq, c: CommitId, p: Push, db': Db, p': Push)
    requires Good(db, h) && PushKnows(db, h, p) && Carried(db, h, req, c, p) && PushStep(db, p, db', p')
    requires p.WriteVersion? && RowsGrow(db, db') && Grows(db, h, db', NotePush(h, p), Touches(OfPush(p)))
    ensures Carried(db', NotePush(h, p), req, c, p')
  {
    WholeParentStays(db, h, db', NotePush(h, p), Touches(OfPush(p)), req);
    TreeTakesEntry(db, req, c, p.i, p.tree, p.file, p.version, db');
  }

  lemma CarriedIsWritten(db: Db, h: Trail, req: PushReq, c: CommitId, p: Push, db': Db, p': Push)
    requires Good(db, h) && PushKnows(db, h, p) && Carried(db, h, req, c, p) && PushStep(db, p, db', p')
    requires p.WriteTree? && RowsGrow(db, db') && Grows(db, h, db', NotePush(h, p), Touches(OfPush(p)))
    ensures Carried(db', NotePush(h, p), req, c, p')
  {
    CarriedStays(db, h, db', NotePush(h, p), Touches(OfPush(p)), req, c, p);
    FreshTree(db, h, c, p.tree);
  }

  lemma CarriedSteps(db: Db, h: Trail, req: PushReq, c: CommitId, p: Push, db': Db, p': Push)
    requires Good(db, h) && PushKnows(db, h, p) && Carried(db, h, req, c, p) && PushStep(db, p, db', p')
    requires RowsGrow(db, db') && Grows(db, h, db', NotePush(h, p), Touches(OfPush(p)))
    ensures Carried(db', NotePush(h, p), req, c, p')
  {
    if p.WriteVersion? {
      CarriedTakesVersion(db, h, req, c, p, db', p');
    } else if p.WriteTree? {
      CarriedIsWritten(db, h, req, c, p, db', p');
    } else {
      CarriedMoves(db, h, req, c, p, db', p');
    }
  }

  lemma AdvanceCarries(m: Machine, m': Machine, pid: nat, req: PushReq, c: CommitId)
    requires Inv(m) && Next(m, Advance(pid), m') && CarriedAt(m, pid, req, c)
    ensures CarriedAt(m', pid, req, c)
  {
    var p := m.procs[pid].push;
    StepKeeps(m.db, m.trail, OfPush(p), m'.db, m'.procs[pid]);
    assert ProcKnows(m.db, m.trail, OfPush(p));
    CarriedSteps(m.db, m.trail, req, c, p, m'.db, m'.procs[pid].push);
  }

  lemma OthersCarry(m: Machine, a: Action, m': Machine, pid: nat, req: PushReq, c: CommitId)
    requires Inv(m) && Next(m, a, m') && pid in m'.procs && a != Advance(pid) && CarriedAt(m, pid, req, c)
    ensures CarriedAt(m', pid, req, c)
  {
    var touched := OthersLeave(m, a, m', pid);
    CarriedStays(m.db, m.trail, m'.db, m'.trail, touched, req, c, m.procs[pid].push);
  }

  lemma RunStepCarries(ms: seq<Machine>, acts: seq<Action>, n: nat, pid: nat, req: PushReq, c: CommitId)
    requires Run(ms, acts) && n < |acts| && CarriedAt(ms[n], pid, req, c) && pid in ms[n + 1].procs
    ensures CarriedAt(ms[n + 1], pid, req, c)
  {
    RunsAreSafe(ms, acts, n);
    if acts[n] == Advance(pid) {
      AdvanceCarries(ms[n], ms[n + 1], pid, req, c);
    } else {
      OthersCarry(ms[n], acts[n], ms[n + 1], pid, req, c);
    }
  }

  lemma {:induction false} CarriesAlong(ms: seq<Machine>, i: nat, j: nat, pid: nat, req: PushReq, c: CommitId)
    requires i <= j < |ms| && CarriedAt(ms[i], pid, req, c)
    requires forall n :: i <= n < j && CarriedAt(ms[n], pid, req, c) ==> CarriedAt(ms[n + 1], pid, req, c)
    ensures CarriedAt(ms[j], pid, req, c)
    decreases j - i
  {
    if i < j { CarriesAlong(ms, i, j - 1, pid, req, c); }
  }

  /** Under every interleaving: a push, with a ref or without, whose parent's snapshot was
      written when it read it makes a whole commit: its parent's tree with its files over
      it. Its own snapshot is then written too, so the next push may build on it. */
  lemma PushCarriesParentTree(ms: seq<Machine>, acts: seq<Action>, i: nat, j: nat, pid: nat, req: PushReq, c: CommitId)
    requires Run(ms, acts) && i <= j < |ms| && Lasts(ms, i, j, pid)
    requires ms[i].procs[pid] == OfPush(ReadParent(req, c)) && WholeParent(ms[i].db, ms[i].trail, req)
    requires ms[j].procs[pid] == OfPush(Pushed(req, c))
    ensures c in ms[j].trail.sealed && TreeSoFar(ms[j].db, req, c, |req.files|, SnapOf(ms[j].db, c))
    ensures PushedTree(ms[j].db, req, c)
  {
    forall n | i <= n < j && CarriedAt(ms[n], pid, req, c)
      ensures CarriedAt(ms[n + 1], pid, req, c)
    {
      RunStepCarries(ms, acts, n, pid, req, c);
    }
    CarriesAlong(ms, i, j, pid, req, c);
    TreeMeans(ms[j].db, req, c);
  }
}
