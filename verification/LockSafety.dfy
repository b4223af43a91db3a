/** File locks: the row of a lock stays its owner's until it is released, and while requests
    do not overlap a locked path stops every other user's push. */
module LockSafety {
  import opened Tables
  import opened Requests
  import opened Safety
  import opened Serial
  import opened SerialRuns

  /** The action deletes the lock row of `key` held by `user`: the owner's release or
      anyone's forced one. */
  ghost predicate Frees(m: Machine, a: Action, key: FileKey, user: UserId) {
    && a.Advance? && a.pid in m.procs
    && match m.procs[a.pid]
       case OfLocking(Unlock(k, u, force)) => k == key && (force || u == user)
       case _ => false
  }

  lemma PushKeepsLocks(p: Push, db: Db, db': Db, p': Push)
    requires PushStep(db, p, db', p')
    ensures db'.locks == db.locks
  {
  }

  lemma MergeKeepsLocks(p: Merge, db: Db, db': Db, p': Merge)
    requires MergeStep(db, p, db', p')
    ensures db'.locks == db.locks
  {
  }

  lemma LockKeepsRow(p: Locking, db: Db, db': Db, p': Locking, key: FileKey, user: UserId)
    requires LockStep(db, p, db', p') && key in db.locks && db.locks[key] == user
    requires p.Unlock? && p.key == key ==> !p.force && p.user != user
    ensures key in db'.locks && db'.locks[key] == user
  {
  }

  lemma NextKeepsRow(m: Machine, a: Action, m': Machine, key: FileKey, user: UserId)
    requires Next(m, a, m') && key in m.db.locks && m.db.locks[key] == user
    requires !Frees(m, a, key, user)
    ensures key in m'.db.locks && m'.db.locks[key] == user
  {
    if a.Advance? {
      match m.procs[a.pid]
      case OfPush(q) => PushKeepsLocks(q, m.db, m'.db, m'.procs[a.pid].push);
      case OfMerge(q) => MergeKeepsLocks(q, m.db, m'.db, m'.procs[a.pid].merge);
      case OfBranch(_) =>
      case OfUpload(_) =>
      case OfLocking(q) => LockKeepsRow(q, m.db, m'.db, m'.procs[a.pid].locking, key, user);
    }
  }

  /** Under every interleaving a lock row stays its owner's until the owner releases it or
      someone forces it. */
  lemma {:induction false} LockRowStays(ms: seq<Machine>, acts: seq<Action>, i: nat, j: nat, key: FileKey, user: UserId)
    requires Run(ms, acts) && i <= j < |ms|
    requires key in ms[i].db.locks && ms[i].db.locks[key] == user
    requires forall n :: i <= n < j ==> !Frees(ms[n], acts[n], key, user)
    ensures key in ms[j].db.locks && ms[j].db.locks[key] == user
    decreases j - i
  {
    if i < j {
      LockRowStays(ms, acts, i, j - 1, key, user);
      NextKeepsRow(ms[j - 1], acts[j - 1], ms[j], key, user);
    }
  }

  /** No other user's row is in the way. */
  predicate Unheld(locks: map<FileKey, UserId>, key: FileKey, user: UserId) {
    key in locks ==> locks[key] == user
  }

  lemma TellingHoldsIff(p: Locking, db: Db, db': Db, p': Locking, key: FileKey, user: UserId)
    requires LockStep(db, p, db', p') && p' == Held(key, user)
    ensures key in db'.locks && (db'.locks[key] == user <==> Unheld(db.locks, key, user))
    ensures !p.Insert? ==> Unheld(db.locks, key, user)
  {
  }

  /** Under every interleaving: a user who is told that the lock is theirs holds the row
      exactly when no other user's row was in the way just before, which only the insert
      does not look for; and so it stays until somebody frees the row. */
  lemma ToldHoldsIff(ms: seq<Machine>, acts: seq<Action>, n: nat, j: nat, key: FileKey, user: UserId)
    requires Run(ms, acts) && n < j < |ms| && acts[n].Advance?
    requires acts[n].pid in ms[n].procs && ms[n].procs[acts[n].pid].OfLocking?
    requires acts[n].pid in ms[n + 1].procs && ms[n + 1].procs[acts[n].pid] == OfLocking(Held(key, user))
    requires forall k, owner :: n < k < j ==> !Frees(ms[k], acts[k], key, owner)
    ensures key in ms[j].db.locks
    ensures ms[j].db.locks[key] == user <==> Unheld(ms[n].db.locks, key, user)
    ensures !ms[n].procs[acts[n].pid].locking.Insert? ==> Unheld(ms[n].db.locks, key, user)
  {
    assert Next(ms[n], acts[n], ms[n + 1]);
    var p := ms[n].procs[acts[n].pid].locking;
    TellingHoldsIff(p, ms[n].db, ms[n + 1].db, Held(key, user), key, user);
    LockRowStays(ms, acts, n + 1, j, key, ms[n + 1].db.locks[key]);
  }

  /** A push under way that has passed the lock gate. */
  predicate PastGate(p: Proc) {
    p.OfPush? && !p.push.Gate? && !p.push.Pushed?
  }

  lemma PastGateIsOpen(m: Machine, pid: nat)
    requires SerialInv(m) && pid in m.procs && PastGate(m.procs[pid])
    ensures GateOpen(m.db.locks, m.procs[pid].push.req)
  {
    assert SerialKnows(m.db, m.trail, m.procs[pid]);
  }

  lemma ToldMeansHeld(m: Machine, pid: nat, key: FileKey, user: UserId)
    requires SerialInv(m) && pid in m.procs && m.procs[pid] == OfLocking(Held(key, user))
    ensures key in m.db.locks && m.db.locks[key] == user
  {
    assert SerialKnows(m.db, m.trail, m.procs[pid]);
  }

  /** Without overlap: once a user is told the lock is theirs, and until it is freed, the
      row is theirs, and no push of another user that lists the path is past the gate, so
      none is published. */
  lemma LockedPathStopsOthers(ms: seq<Machine>, acts: seq<Action>, i: nat, j: nat, told: nat, key: FileKey,
                              user: UserId)
    requires SerialRun(ms, acts) && i <= j < |ms|
    requires told in ms[i].procs && ms[i].procs[told] == OfLocking(Held(key, user))
    requires forall n :: i <= n < j ==> !Frees(ms[n], acts[n], key, user)
    ensures key in ms[j].db.locks && ms[j].db.locks[key] == user
    ensures forall pid, k: nat ::
      (pid in ms[j].procs && PastGate(ms[j].procs[pid]) && ms[j].procs[pid].push.req.author != user
        && k < |ms[j].procs[pid].push.req.files|) ==> KeyOf(ms[j].procs[pid].push.req, k) != key
  {
    SerialRunsKeep(ms, acts, i);
    ToldMeansHeld(ms[i], told, key, user);
    LockRowStays(ms, acts, i, j, key, user);
    SerialRunsKeep(ms, acts, j);
    forall pid, k: nat |
      pid in ms[j].procs && PastGate(ms[j].procs[pid]) && ms[j].procs[pid].push.req.author != user
      && k < |ms[j].procs[pid].push.req.files|
      ensures KeyOf(ms[j].procs[pid].push.req, k) != key
    {
      PastGateIsOpen(ms[j], pid);
      assert !LockedOut(ms[j].db.locks, ms[j].procs[pid].push.req, k);
    }
  }
}
