/** The ordering in terms of what jobs declare: backup_should_be_locked_before for a backup,
    restore_should_be_locked_before for a restore (orderer/backup_lock_constraint_specifier.go,
    restore_lock_constraint_specifier.go). */
module Constraints {
  import opened Sequences
  import opened Jobs
  import opened LockGraph

  /** a declares that b is to be locked after it in a backup ... */
  ghost predicate DeclaresForBackup(a: Job, b: Job) {
    exists s | s in a.backupLockedBefore :: s.name == b.name && s.release == b.release
  }

  /** ... or in a restore. */
  ghost predicate DeclaresForRestore(a: Job, b: Job) {
    exists s | s in a.restoreLockedBefore :: s.name == b.name && s.release == b.release
  }

  lemma BackupConstraint(a: Job, b: Job)
    ensures MustLockBefore(Backing, a, b) <==> DeclaresForBackup(a, b)
  {
    if s :| s in a.backupLockedBefore && s.name == b.name && s.release == b.release {
      assert s in Before(Backing, a) && Matches(b, s);
    }
  }

  lemma RestoreConstraint(a: Job, b: Job)
    ensures MustLockBefore(Restoring, a, b) <==> DeclaresForRestore(a, b)
  {
    if s :| s in a.restoreLockedBefore && s.name == b.name && s.release == b.release {
      assert s in Before(Restoring, a) && Matches(b, s);
    }
  }

  ghost predicate Declares(activity: Activity, a: Job, b: Job) {
    match activity
    case Backing => DeclaresForBackup(a, b)
    case Restoring => DeclaresForRestore(a, b)
  }

  lemma Constraint(activity: Activity, a: Job, b: Job)
    ensures MustLockBefore(activity, a, b) <==> Declares(activity, a, b)
  {
    BackupConstraint(a, b);
    RestoreConstraint(a, b);
  }

  // ---------------------------------------------------------------------------------------------
  // Strictly earlier levels

  lemma ConstrainedApart(jobs: seq<Job>, activity: Activity, levels: seq<seq<Job>>, a: Job, b: Job, x: nat, y: nat)
    requires LockOrder(jobs, activity) == Some(levels) && a in jobs && b in jobs && MustLockBefore(activity, a, b)
    requires x < |levels| && y < |levels| && a in levels[x] && b in levels[y]
    ensures x < y
  {
    LockOrderIsValid(jobs, activity, levels);
    var i :| 0 <= i < |levels[x]| && levels[x][i] == a;
    var k :| 0 <= k < |levels[y]| && levels[y][k] == b;
    assert Edge(jobs, activity, Key(a), Key(b));
  }

  /** In a backup, what a job declares to be locked after it stands in a strictly later level. */
  lemma BackupOrderHonours(jobs: seq<Job>, levels: seq<seq<Job>>, a: Job, b: Job, s: JobSpecifier, x: nat, y: nat)
    requires LockOrder(jobs, Backing) == Some(levels) && a in jobs && b in jobs
    requires s in a.backupLockedBefore && s.name == b.name && s.release == b.release
    requires x < |levels| && y < |levels| && a in levels[x] && b in levels[y]
    ensures x < y
  {
    BackupConstraint(a, b);
    ConstrainedApart(jobs, Backing, levels, a, b, x, y);
  }

  /** The same in a restore. */
  lemma RestoreOrderHonours(jobs: seq<Job>, levels: seq<seq<Job>>, a: Job, b: Job, s: JobSpecifier, x: nat, y: nat)
    requires LockOrder(jobs, Restoring) == Some(levels) && a in jobs && b in jobs
    requires s in a.restoreLockedBefore && s.name == b.name && s.release == b.release
    requires x < |levels| && y < |levels| && a in levels[x] && b in levels[y]
    ensures x < y
  {
    RestoreConstraint(a, b);
    ConstrainedApart(jobs, Restoring, levels, a, b, x, y);
  }

  /** What a job declares to be locked after it stands in a strictly later level. */
  ghost predicate DeclaredApart(activity: Activity, levels: seq<seq<Job>>) {
    forall x, y, i, k | 0 <= x < |levels| && 0 <= i < |levels[x]| && 0 <= y < |levels| && 0 <= k < |levels[y]| &&
                        Declares(activity, levels[x][i], levels[y][k]) :: x < y
  }

  lemma LevelsApart(jobs: seq<Job>, activity: Activity, levels: seq<seq<Job>>)
    requires LockOrder(jobs, activity) == Some(levels)
    ensures DeclaredApart(activity, levels)
  {
    forall x, y, i, k | 0 <= x < |levels| && 0 <= i < |levels[x]| && 0 <= y < |levels| && 0 <= k < |levels[y]| &&
                        Declares(activity, levels[x][i], levels[y][k])
      ensures x < y
    {
      LevelAt(jobs, activity, levels, x, i);
      LevelAt(jobs, activity, levels, y, k);
      Constraint(activity, levels[x][i], levels[y][k]);
      ConstrainedApart(jobs, activity, levels, levels[x][i], levels[y][k], x, y);
    }
  }

  // ---------------------------------------------------------------------------------------------
  // Cycles of declarations

  /** Pairs of jobs, each of which is followed by one that begins with the same job, the last by the first. */
  ghost predicate Ring(jobs: seq<Job>, pairs: seq<(Job, Job)>) {
    && |pairs| > 0
    && (forall i | 0 <= i < |pairs| :: pairs[i].0 in jobs && pairs[i].1 in jobs)
    && forall i | 0 <= i < |pairs| ::
         var next := pairs[if i + 1 < |pairs| then i + 1 else 0].0;
         pairs[i].1.name == next.name && pairs[i].1.instance == next.instance
  }

  /** A ring of jobs of which each declares that the next is to be locked after it in a backup ... */
  ghost predicate BackupRing(jobs: seq<Job>, pairs: seq<(Job, Job)>) {
    && Ring(jobs, pairs)
    && forall i | 0 <= i < |pairs| :: DeclaresForBackup(pairs[i].0, pairs[i].1)
  }

  /** ... or in a restore. */
  ghost predicate RestoreRing(jobs: seq<Job>, pairs: seq<(Job, Job)>) {
    && Ring(jobs, pairs)
    && forall i | 0 <= i < |pairs| :: DeclaresForRestore(pairs[i].0, pairs[i].1)
  }

  ghost predicate ConstrainedRing(jobs: seq<Job>, activity: Activity, pairs: seq<(Job, Job)>) {
    Ring(jobs, pairs) && forall i | 0 <= i < |pairs| :: MustLockBefore(activity, pairs[i].0, pairs[i].1)
  }

  /** The keys along a ring, back to the first. */
  ghost function KeysAlong(pairs: seq<(Job, Job)>): seq<JobKey>
    requires |pairs| > 0
  {
    seq(|pairs| + 1, i requires 0 <= i <= |pairs| => Key(pairs[if i < |pairs| then i else 0].0))
  }

  lemma RingIsCycle(jobs: seq<Job>, activity: Activity, pairs: seq<(Job, Job)>)
    requires ConstrainedRing(jobs, activity, pairs)
    ensures Cyclic(jobs, activity)
  {
    var p := KeysAlong(pairs);
    forall i | 0 <= i < |p| ensures IsKey(jobs, p[i]) {
      assert pairs[if i < |pairs| then i else 0].0 in jobs;
    }
    forall i | 0 < i < |p| ensures Edge(jobs, activity, p[i - 1], p[i]) {
      var pair := pairs[i - 1];
      assert MustLockBefore(activity, pair.0, pair.1) && Key(pair.0) == p[i - 1] && Key(pair.1) == p[i];
    }
    assert Cycle(jobs, activity, p);
  }

  ghost predicate JoinsKeys(jobs: seq<Job>, activity: Activity, p: seq<JobKey>, i: nat, pair: (Job, Job))
    requires i + 1 < |p|
  {
    && pair.0 in jobs && pair.1 in jobs && Key(pair.0) == p[i] && Key(pair.1) == p[i + 1]
    && MustLockBefore(activity, pair.0, pair.1)
  }

  lemma {:induction false} PairsAlong(jobs: seq<Job>, activity: Activity, p: seq<JobKey>, n: nat)
    returns (pairs: seq<(Job, Job)>)
    requires Chain(jobs, activity, p) && n < |p|
    ensures |pairs| == n && forall i | 0 <= i < n :: JoinsKeys(jobs, activity, p, i, pairs[i])
  {
    if n == 0 {
      pairs := [];
    } else {
      pairs := PairsAlong(jobs, activity, p, n - 1);
      assert Edge(jobs, activity, p[n - 1], p[n]);
      var a, b :| a in jobs && b in jobs && Key(a) == p[n - 1] && Key(b) == p[n] && MustLockBefore(activity, a, b);
      pairs := pairs + [(a, b)];
    }
  }

  lemma CycleIsRing(jobs: seq<Job>, activity: Activity) returns (pairs: seq<(Job, Job)>)
    requires Cyclic(jobs, activity)
    ensures ConstrainedRing(jobs, activity, pairs)
  {
    var p :| Cycle(jobs, activity, p);
    pairs := PairsAlong(jobs, activity, p, |p| - 1);
    forall i | 0 <= i < |pairs|
      ensures var next := pairs[if i + 1 < |pairs| then i + 1 else 0].0;
              pairs[i].1.name == next.name && pairs[i].1.instance == next.instance
    {
      assert JoinsKeys(jobs, activity, p, i, pairs[i]);
      var n := if i + 1 < |pairs| then i + 1 else 0;
      assert JoinsKeys(jobs, activity, p, n, pairs[n]);
    }
    forall i | 0 <= i < |pairs| ensures pairs[i].0 in jobs && pairs[i].1 in jobs {
      assert JoinsKeys(jobs, activity, p, i, pairs[i]);
    }
    forall i | 0 <= i < |pairs| ensures MustLockBefore(activity, pairs[i].0, pairs[i].1) {
      assert JoinsKeys(jobs, activity, p, i, pairs[i]);
    }
  }

  lemma SameBackupRing(jobs: seq<Job>, pairs: seq<(Job, Job)>)
    ensures BackupRing(jobs, pairs) <==> ConstrainedRing(jobs, Backing, pairs)
  {
    forall i | 0 <= i < |pairs|
      ensures MustLockBefore(Backing, pairs[i].0, pairs[i].1) <==> DeclaresForBackup(pairs[i].0, pairs[i].1)
    {
      BackupConstraint(pairs[i].0, pairs[i].1);
    }
  }

  lemma SameRestoreRing(jobs: seq<Job>, pairs: seq<(Job, Job)>)
    ensures RestoreRing(jobs, pairs) <==> ConstrainedRing(jobs, Restoring, pairs)
  {
    forall i | 0 <= i < |pairs|
      ensures MustLockBefore(Restoring, pairs[i].0, pairs[i].1) <==> DeclaresForRestore(pairs[i].0, pairs[i].1)
    {
      RestoreConstraint(pairs[i].0, pairs[i].1);
    }
  }

  /** Ordering for a backup fails exactly when what the jobs declare for backups runs in a ring. */
  lemma BackupOrderFailsExactly(jobs: seq<Job>)
    ensures LockOrder(jobs, Backing).None? <==> exists pairs :: BackupRing(jobs, pairs)
  {
    if Cyclic(jobs, Backing) {
      var pairs := CycleIsRing(jobs, Backing);
      SameBackupRing(jobs, pairs);
    }
    if pairs :| BackupRing(jobs, pairs) {
      SameBackupRing(jobs, pairs);
      RingIsCycle(jobs, Backing, pairs);
    }
  }

  /** Ordering for a restore fails exactly when what the jobs declare for restores runs in a ring. */
  lemma RestoreOrderFailsExactly(jobs: seq<Job>)
    ensures LockOrder(jobs, Restoring).None? <==> exists pairs :: RestoreRing(jobs, pairs)
  {
    if Cyclic(jobs, Restoring) {
      var pairs := CycleIsRing(jobs, Restoring);
      SameRestoreRing(jobs, pairs);
    }
    if pairs :| RestoreRing(jobs, pairs) {
      SameRestoreRing(jobs, pairs);
      RingIsCycle(jobs, Restoring, pairs);
    }
  }
}
