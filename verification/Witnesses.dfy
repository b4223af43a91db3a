/** Where overlap breaks what serial requests keep: continuations of any reachable state in
    which a published commit is lost, or two users are told they hold one lock. Also: a
    push that passed its parent check can always run to its end. */
module Witnesses {
  import opened Tables
  import opened Ancestry
  import opened Requests
  import opened Safety
  import opened SafetyProof
  import opened SafetyRuns

  ghost predicate Reachable(m: Machine) {
    exists ms, acts :: Run(ms, acts) && ms[|ms| - 1] == m
  }

  lemma ReachableNext(m: Machine, a: Action, m': Machine)
    requires Reachable(m) && Next(m, a, m')
    ensures Reachable(m')
  {
    var ms, acts :| Run(ms, acts) && ms[|ms| - 1] == m;
    assert Run(ms + [m'], acts + [a]);
    assert (ms + [m'])[|ms + [m']| - 1] == m';
  }

  lemma ReachableIsSafe(m: Machine)
    requires Reachable(m)
    ensures Inv(m)
  {
    var ms, acts :| Run(ms, acts) && ms[|ms| - 1] == m;
    RunsAreSafe(ms, acts, |ms| - 1);
  }

  // ---- fresh values ----

  lemma FreshNat(taken: set<nat>) returns (n: nat)
    ensures n !in taken
    ensures forall x :: x in taken ==> x < n
    decreases taken
  {
    if taken == {} {
      n := 0;
    } else {
      var x :| x in taken;
      var k := FreshNat(taken - {x});
      n := if k <= x then x + 1 else k;
      forall y | y in taken ensures y < n {
        assert y == x || y in taken - {x};
      }
    }
  }

  lemma LaterStamp(db: Db) returns (now: int)
    ensures Later(db, now)
  {
    now := LaterThan(db.commits, db.commits.Keys);
  }

  lemma LaterThan(commits: Commits, cs: set<CommitId>) returns (now: int)
    requires cs <= commits.Keys
    ensures forall c :: c in cs ==> commits[c].createdAt < now
    decreases cs
  {
    if cs == {} {
      now := 0;
    } else {
      var c :| c in cs;
      var t := LaterThan(commits, cs - {c});
      now := if t <= commits[c].createdAt then commits[c].createdAt + 1 else t;
      forall d | d in cs ensures commits[d].createdAt < now {
        assert d == c || d in cs - {c};
      }
    }
  }

  // ---- single moves ----

  lemma Enter(m: Machine, p: Proc) returns (pid: nat, m': Machine)
    requires Reachable(m) && Starts(m.env, p)
    ensures Reachable(m') && pid !in m.procs && m' == m.(procs := m.procs[pid := p])
  {
    pid := FreshNat(m.procs.Keys);
    m' := m.(procs := m.procs[pid := p]);
    ReachableNext(m, Begin(pid, p), m');
  }

  lemma Move(m: Machine, pid: nat, db': Db, p': Proc) returns (m': Machine)
    requires Reachable(m) && pid in m.procs && ProcStep(m.db, m.procs[pid], db', p')
    ensures Reachable(m')
    ensures m' == Machine(m.env, db', NoteStep(m.trail, m.db, m.procs[pid]), m.procs[pid := p'])
  {
    m' := Machine(m.env, db', NoteStep(m.trail, m.db, m.procs[pid]), m.procs[pid := p']);
    ReachableNext(m, Advance(pid), m');
  }

  lemma MovePush(m: Machine, pid: nat, db': Db, q': Push) returns (m': Machine)
    requires Reachable(m) && pid in m.procs && m.procs[pid].OfPush?
    requires PushStep(m.db, m.procs[pid].push, db', q')
    ensures Reachable(m') && m'.db == db' && m'.procs == m.procs[pid := OfPush(q')] && m'.env == m.env
  {
    m' := Move(m, pid, db', OfPush(q'));
  }

  // ---- a push runs to its end ----

  /** Only the push moved, and it set no ref, made no commit and took no lock. */
  ghost predicate OnlyRows(m: Machine, pid: nat, m': Machine) {
    && m'.env == m.env && m'.db.commits == m.db.commits && m'.db.refs == m.db.refs && m'.db.locks == m.db.locks
    && pid in m'.procs && m'.procs == m.procs[pid := m'.procs[pid]]
  }

  predicate SameRows(m: Machine, m': Machine) {
    m'.db.files == m.db.files && m'.db.versions == m.db.versions && m'.db.locks == m.db.locks
  }

  lemma FileIsUpserted(m: Machine, pid: nat, req: PushReq, c: CommitId, i: nat, tree: Snapshot) returns (m': Machine)
    requires Reachable(m) && pid in m.procs && m.procs[pid] == OfPush(Upsert(req, c, i, tree))
    requires i < |req.files|
    ensures Reachable(m') && OnlyRows(m, pid, m')
    ensures m'.procs[pid] == OfPush(Lookup(req, c, i, tree)) && KeyOf(req, i) in m'.db.files
    ensures m'.db == UpsertFile(m.db, KeyOf(req, i), m'.db.files[KeyOf(req, i)])
    ensures KeyOf(req, i) !in m.db.files ==> m'.db.files[KeyOf(req, i)] !in m.db.files.Values
  {
    var key := KeyOf(req, i);
    var f := FreshNat(m.db.files.Values);
    var db1 := UpsertFile(m.db, key, f);
    m' := MovePush(m, pid, db1, Lookup(req, c, i, tree));
  }

  lemma FileIsFound(m: Machine, pid: nat, req: PushReq, c: CommitId, i: nat, tree: Snapshot)
    returns (m': Machine, v: VersionId)
    requires Reachable(m) && pid in m.procs && m.procs[pid] == OfPush(Lookup(req, c, i, tree))
    requires i < |req.files| && KeyOf(req, i) in m.db.files
    ensures Reachable(m') && m'.db == m.db && OnlyRows(m, pid, m') && v != ABSENT && v !in m.db.versions
    ensures m'.procs[pid] == OfPush(WriteVersion(req, c, i, tree, m.db.files[KeyOf(req, i)], v))
  {
    v := FreshNat(m.db.versions.Keys + {ABSENT});
    m' := MovePush(m, pid, m.db, WriteVersion(req, c, i, tree, m.db.files[KeyOf(req, i)], v));
  }

  lemma VersionIsWritten(m: Machine, pid: nat, req: PushReq, c: CommitId, i: nat, tree: Snapshot, f: FileId,
                         v: VersionId)
    returns (m': Machine)
    requires Reachable(m) && pid in m.procs && m.procs[pid] == OfPush(WriteVersion(req, c, i, tree, f, v))
    requires i < |req.files| && f in m.db.files.Values && c in m.db.commits && v != ABSENT && v !in m.db.versions
    ensures Reachable(m') && OnlyRows(m, pid, m')
    ensures m'.procs[pid] == OfPush(Upsert(req, c, i + 1, tree[f := v]))
    ensures m'.db == CreateVersion(m.db, v, Version(f, c, req.files[i].manifest))
  {
    m' := MovePush(m, pid, CreateVersion(m.db, v, Version(f, c, req.files[i].manifest)),
                   Upsert(req, c, i + 1, tree[f := v]));
  }

  lemma FileGoesIn(m: Machine, pid: nat, req: PushReq, c: CommitId, i: nat, tree: Snapshot)
    returns (m': Machine, tree': Snapshot)
    requires Reachable(m) && pid in m.procs && m.procs[pid] == OfPush(Upsert(req, c, i, tree))
    requires i < |req.files| && c in m.db.commits
    ensures Reachable(m') && OnlyRows(m, pid, m')
    ensures m'.procs[pid] == OfPush(Upsert(req, c, i + 1, tree'))
  {
    var m1 := FileIsUpserted(m, pid, req, c, i, tree);
    var m2, v := FileIsFound(m1, pid, req, c, i, tree);
    var f := m1.db.files[KeyOf(req, i)];
    tree' := tree[f := v];
    m' := VersionIsWritten(m2, pid, req, c, i, tree, f, v);
  }

  lemma {:induction false} FilesGoIn(m: Machine, pid: nat, req: PushReq, c: CommitId, i: nat, tree: Snapshot)
    returns (m': Machine, tree': Snapshot)
    requires Reachable(m) && pid in m.procs && m.procs[pid] == OfPush(Upsert(req, c, i, tree))
    requires i <= |req.files| && c in m.db.commits
    ensures Reachable(m') && OnlyRows(m, pid, m') && m'.procs[pid] == OfPush(WriteTree(req, c, tree'))
    decreases |req.files| - i
  {
    if i == |req.files| {
      tree' := tree;
      m' := MovePush(m, pid, m.db, WriteTree(req, c, tree));
    } else {
      var m1, tree1 := FileGoesIn(m, pid, req, c, i, tree);
      m', tree' := FilesGoIn(m1, pid, req, c, i + 1, tree1);
    }
  }

  lemma PushEnds(m: Machine, pid: nat, req: PushReq, c: CommitId, tree: Snapshot) returns (m': Machine)
    requires Reachable(m) && pid in m.procs && m.procs[pid] == OfPush(WriteTree(req, c, tree)) && req.ref != ""
    ensures Reachable(m') && m'.env == m.env
    ensures m'.procs == m.procs[pid := OfPush(Pushed(req, c))]
    ensures m'.db.commits == m.db.commits && m'.db.refs == m.db.refs[RefKey(req.project, req.ref) := c]
    ensures SameRows(m, m') && SnapOf(m'.db, c) == tree
    ensures forall x :: x != c ==> SnapOf(m'.db, x) == SnapOf(m.db, x)
  {
    PushTreeFits(m, pid, req, c, tree);
    var m1 := MovePush(m, pid, SetFiles(m.db, c, tree), Count(req, c));
    m' := PushCountsAndPublishes(m1, pid, req, c);
    SameSnaps(m1.db, m'.db);
  }

  lemma SameSnaps(db: Db, db': Db)
    requires db'.snaps == db.snaps
    ensures forall x :: SnapOf(db', x) == SnapOf(db, x)
  {
  }

  lemma PushTreeFits(m: Machine, pid: nat, req: PushReq, c: CommitId, tree: Snapshot)
    requires Reachable(m) && pid in m.procs && m.procs[pid] == OfPush(WriteTree(req, c, tree)) && req.ref != ""
    ensures c in m.db.commits && CanSetFiles(m.db, c, tree)
    ensures SnapOf(SetFiles(m.db, c, tree), c) == tree
    ensures forall x :: x != c ==> SnapOf(SetFiles(m.db, c, tree), x) == SnapOf(m.db, x)
  {
    ReachableIsSafe(m);
    assert ProcKnows(m.db, m.trail, m.procs[pid]);
    BuiltTreeFits(m.db, m.trail, req, c, tree);
    FreshTree(m.db, m.trail, c, tree);
  }

  lemma PushCountsAndPublishes(m: Machine, pid: nat, req: PushReq, c: CommitId) returns (m': Machine)
    requires Reachable(m) && pid in m.procs && m.procs[pid] == OfPush(Count(req, c)) && req.ref != ""
    requires c in m.db.commits
    ensures Reachable(m') && m'.env == m.env
    ensures m'.procs == m.procs[pid := OfPush(Pushed(req, c))]
    ensures m'.db.commits == m.db.commits && m'.db.refs == m.db.refs[RefKey(req.project, req.ref) := c]
    ensures SameRows(m, m') && m'.db.snaps == m.db.snaps
  {
    var db1 := if AllHashes(req.files) == [] then m.db else IncrementChunks(m.db, Mentions(req.files));
    var m1 := MovePush(m, pid, db1, Publish(req, c));
    m' := MovePush(m1, pid, SetRef(db1, RefKey(req.project, req.ref), c), Pushed(req, c));
  }

  lemma ParentIsStored(m: Machine, pid: nat, req: PushReq, c: CommitId, now: int)
    requires Reachable(m) && pid in m.procs && m.procs[pid] == OfPush(Create(req, c, now)) && req.ref != ""
    ensures req.parent.Some? ==> req.parent.value in m.db.commits
  {
    ReachableIsSafe(m);
    assert ProcKnows(m.db, m.trail, m.procs[pid]);
    if req.parent.Some? { assert HeadOk(m.db, m.trail, Head(req.project, req.parent.value)); }
  }

  lemma CommitIsCreated(m: Machine, pid: nat, req: PushReq, c: CommitId, now: int) returns (m': Machine)
    requires Reachable(m) && pid in m.procs && m.procs[pid] == OfPush(Create(req, c, now))
    requires c !in m.db.commits && (req.parent.Some? ==> req.parent.value in m.db.commits)
    ensures Reachable(m') && m'.env == m.env
    ensures m'.procs == m.procs[pid := OfPush(ReadParent(req, c))]
    ensures m'.db == m.db.(commits := m.db.commits[c := Commit(req.project, ParentIds(req), now)])
  {
    var row := Commit(req.project, ParentIds(req), now);
    m' := MovePush(m, pid, Tables.CreateCommit(m.db, c, row), ReadParent(req, c));
  }

  /** From the moment it has passed the parent check, whatever other requests have done
      since, a push with a fresh commit id can be published over the branch. */
  lemma CheckedPushCanFinish(m: Machine, pid: nat, req: PushReq, c: CommitId, now: int) returns (m': Machine)
    requires Reachable(m) && pid in m.procs && m.procs[pid] == OfPush(Create(req, c, now))
    requires req.ref != "" && c !in m.db.commits
    ensures Reachable(m') && m'.env == m.env
    ensures m'.procs == m.procs[pid := OfPush(Pushed(req, c))]
    ensures m'.db.commits == m.db.commits[c := Commit(req.project, ParentIds(req), now)]
    ensures m'.db.refs == m.db.refs[RefKey(req.project, req.ref) := c]
  {
    ParentIsStored(m, pid, req, c, now);
    var m1 := CommitIsCreated(m, pid, req, c, now);
    var tree := ParentTree(m1.db, req);
    var m2 := MovePush(m1, pid, m1.db, Upsert(req, c, 0, tree));
    var m3, tree' := FilesGoIn(m2, pid, req, c, 0, tree);
    m' := PushEnds(m3, pid, req, c, tree');
  }

  // ---- a lost commit ----

  lemma PushChecked(m: Machine, req: PushReq, c: CommitId) returns (pid: nat, now: int, m': Machine)
    requires Reachable(m) && GateOpen(m.db.locks, req) && ParentMatches(m.db.refs, req)
    ensures Reachable(m') && pid !in m.procs && m'.db == m.db && m'.env == m.env && Later(m.db, now)
    ensures m'.procs == m.procs[pid := OfPush(Create(req, c, now))]
  {
    var m1: Machine;
    pid, m1 := Enter(m, OfPush(Gate(req)));
    var m2 := MovePush(m1, pid, m.db, Check(req));
    now := LaterStamp(m.db);
    m' := MovePush(m2, pid, m.db, Create(req, c, now));
  }

  lemma ChildOfOldMissesNew(old': Commits, new': Commits, q: CommitId, p: Option<CommitId>, lost: CommitId)
    requires Submap(old', new') && ParentsExist(old') && lost !in old' && lost != q
    requires q in new' && new'[q].parents == (if p.Some? then [p.value] else [])
    requires p.Some? ==> p.value in old'
    ensures !Reaches(new', q, lost)
  {
    if Reaches(new', q, lost) {
      var x := ReachesThroughParent(new', q, lost);
      ReachesIsStable(old', new', x, lost);
      ReachesEndpoints(old', x, lost);
    }
  }

  lemma MatchedParentIsStored(m: Machine, req: PushReq)
    requires Reachable(m) && req.ref != "" && ParentMatches(m.db.refs, req)
    ensures ParentsExist(m.db.commits) && (req.parent.Some? ==> req.parent.value in m.db.commits)
  {
    ReachableIsSafe(m);
    if req.parent.Some? { assert HeadOk(m.db, m.trail, Head(req.project, req.parent.value)); }
  }

  /** In any reachable state, two pushes to one branch that both match its head can both be
      told they succeeded while the branch no longer reaches the first one's commit. */
  lemma OverlappingPushesLoseACommit(m: Machine, req: PushReq, req': PushReq)
    returns (m': Machine, pid: nat, pid': nat, c: CommitId, c': CommitId)
    requires Reachable(m) && req.ref != "" && req'.ref == req.ref && req'.project == req.project
    requires ParentMatches(m.db.refs, req) && ParentMatches(m.db.refs, req')
    requires GateOpen(m.db.locks, req) && GateOpen(m.db.locks, req')
    ensures Reachable(m') && pid in m'.procs && pid' in m'.procs
    ensures m'.procs[pid] == OfPush(Pushed(req, c)) && m'.procs[pid'] == OfPush(Pushed(req', c'))
    ensures RefKey(req.project, req.ref) in m'.db.refs
    ensures !Reaches(m'.db.commits, m'.db.refs[RefKey(req.project, req.ref)], c)
  {
    MatchedParentIsStored(m, req');
    c := FreshNat(m.db.commits.Keys);
    c' := FreshNat(m.db.commits.Keys + {c});
    var now, now', m1, m2;
    pid, now, m1 := PushChecked(m, req, c);
    pid', now', m2 := PushChecked(m1, req', c');
    var m3 := CheckedPushCanFinish(m2, pid, req, c, now);
    m' := CheckedPushCanFinish(m3, pid', req', c', now');
    ChildOfOldMissesNew(m.db.commits, m'.db.commits, c', req'.parent, c);
  }

  // ---- a lock held twice ----

  lemma MoveLock(m: Machine, pid: nat, db': Db, q': Locking) returns (m': Machine)
    requires Reachable(m) && pid in m.procs && m.procs[pid].OfLocking?
    requires LockStep(m.db, m.procs[pid].locking, db', q')
    ensures Reachable(m') && m'.db == db' && m'.procs == m.procs[pid := OfLocking(q')] && m'.env == m.env
  {
    m' := Move(m, pid, db', OfLocking(q'));
  }

  lemma AboutToInsert(m: Machine, key: FileKey, user: UserId) returns (pid: nat, m': Machine)
    requires Reachable(m) && key !in m.db.locks
    ensures Reachable(m') && pid !in m.procs && m'.db == m.db && m'.env == m.env
    ensures m'.procs == m.procs[pid := OfLocking(Insert(key, user))]
  {
    var m1: Machine;
    pid, m1 := Enter(m, OfLocking(Peek(key, user)));
    var m2 := MoveLock(m1, pid, m.db, PeekAgain(key, user));
    m' := MoveLock(m2, pid, m.db, Insert(key, user));
  }

  /** In any reachable state, two users can both be told they hold a free lock; the row is
      the first one's. */
  lemma OverlappingAcquiresBothSucceed(m: Machine, key: FileKey, user: UserId, user': UserId)
    returns (m': Machine, pid: nat, pid': nat)
    requires Reachable(m) && key !in m.db.locks
    ensures Reachable(m') && pid != pid' && pid in m'.procs && pid' in m'.procs
    ensures m'.procs[pid] == OfLocking(Held(key, user)) && m'.procs[pid'] == OfLocking(Held(key, user'))
    ensures key in m'.db.locks && m'.db.locks[key] == user
  {
    var m1, m2;
    pid, m1 := AboutToInsert(m, key, user);
    pid', m2 := AboutToInsert(m1, key, user');
    var m3 := MoveLock(m2, pid, InsertLock(m2.db, key, user), Held(key, user));
    m' := MoveLock(m3, pid', m3.db, Held(key, user'));
  }
}
