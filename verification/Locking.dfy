/** Locking and unlocking all jobs of a deployment, seen as traces: every job once, and nested along the constraints. */
module Locking {
  import opened Sequences
  import opened Jobs
  import opened LockGraph
  import opened Executor
  import opened Deployment
  import opened Traces
  import opened Session

  ghost function Levels(w: World, activity: Activity): seq<seq<Job>> {
    var order := LockOrder(AllJobs(w.instances), activity);
    if order.Some? then order.value else []
  }

  lemma LevelsHoldAllJobs(w: World, activity: Activity)
    requires !Cyclic(AllJobs(w.instances), activity)
    ensures LockOrder(AllJobs(w.instances), activity) == Some(Levels(w, activity))
    ensures multiset(Flatten(Levels(w, activity))) == multiset(AllJobs(w.instances))
    ensures multiset(Flatten(Reversed(Levels(w, activity)))) == multiset(AllJobs(w.instances))
    ensures forall j :: j in Flatten(Levels(w, activity)) <==> j in AllJobs(w.instances)
    ensures forall j :: j in Flatten(Reversed(Levels(w, activity))) <==> j in AllJobs(w.instances)
  {
    LockOrderIsValid(AllJobs(w.instances), activity, Levels(w, activity));
    ReversedPermutation(Levels(w, activity));
    SameElements(Flatten(Levels(w, activity)), AllJobs(w.instances));
    SameElements(Flatten(Reversed(Levels(w, activity))), AllJobs(w.instances));
  }

  ghost function LockTrace(w: World, activity: Activity): seq<TraceEvent> {
    CallTrace(w, Lock(activity), Levels(w, activity))
  }

  ghost function UnlockTrace(w: World, activity: Activity, ok: bool): seq<TraceEvent> {
    CallTrace(w, Unlock(activity, ok), Reversed(Levels(w, activity)))
  }

  lemma LockLogsValid(w: World, activity: Activity, ok: bool)
    requires LocksCarriedOut(w, activity) && !Cyclic(AllJobs(w.instances), activity)
    ensures ValidLog(Levels(w, activity), w.log(Lock(activity)))
    ensures ValidLog(Reversed(Levels(w, activity)), w.log(Unlock(activity, ok)))
  {
    LevelsHoldAllJobs(w, activity);
    CarriedOutIsValid(w, Lock(activity), Levels(w, activity));
    CarriedOutIsValid(w, Unlock(activity, ok), Reversed(Levels(w, activity)));
  }

  /** Every job is locked once and unlocked once. */
  lemma LocksEachOnce(w: World, activity: Activity, ok: bool)
    requires LocksCarriedOut(w, activity) && !Cyclic(AllJobs(w.instances), activity)
    ensures Once(Lock(activity), LockTrace(w, activity), AllJobs(w.instances))
    ensures Once(Unlock(activity, ok), UnlockTrace(w, activity, ok), AllJobs(w.instances))
  {
    LevelsHoldAllJobs(w, activity);
    LockLogsValid(w, activity, ok);
    BegunOnEach(Lock(activity), Levels(w, activity), w.log(Lock(activity)));
    BegunOnEach(Unlock(activity, ok), Reversed(Levels(w, activity)), w.log(Unlock(activity, ok)));
  }

  ghost predicate LocksBefore(w: World, activity: Activity, a: Job, b: Job) {
    a in AllJobs(w.instances) && b in AllJobs(w.instances) && MustLockBefore(activity, a, b)
  }

  lemma HonoursApart(jobs: seq<Job>, activity: Activity, levels: seq<seq<Job>>, a: Job, b: Job)
    requires Honours(jobs, activity, levels)
    requires a in jobs && b in jobs && MustLockBefore(activity, a, b)
    ensures Apart(levels, a, b)
  {
    forall x, y | 0 <= x < |levels| && 0 <= y < |levels| && a in levels[x] && b in levels[y] ensures x < y {
      var i :| 0 <= i < |levels[x]| && levels[x][i] == a;
      var k :| 0 <= k < |levels[y]| && levels[y][k] == b;
      assert Edge(jobs, activity, Key(a), Key(b));
    }
  }

  lemma ReversedApart(levels: seq<seq<Job>>, a: Job, b: Job)
    requires Apart(levels, a, b)
    ensures Apart(Reversed(levels), b, a)
  {
    ReversedAt(levels);
    var reversed, n := Reversed(levels), |levels|;
    forall x, y | 0 <= x < n && 0 <= y < n && b in reversed[x] && a in reversed[y] ensures x < y {
      assert b in levels[n - 1 - x] && a in levels[n - 1 - y];
    }
  }

  lemma LevelsApart(w: World, activity: Activity, a: Job, b: Job)
    requires !Cyclic(AllJobs(w.instances), activity) && LocksBefore(w, activity, a, b)
    ensures Apart(Levels(w, activity), a, b) && Apart(Reversed(Levels(w, activity)), b, a)
    ensures a in Flatten(Levels(w, activity)) && b in Flatten(Reversed(Levels(w, activity)))
  {
    LevelsHoldAllJobs(w, activity);
    LockOrderIsValid(AllJobs(w.instances), activity, Levels(w, activity));
    HonoursApart(AllJobs(w.instances), activity, Levels(w, activity), a, b);
    ReversedApart(Levels(w, activity), a, b);
  }

  /** If a must be locked before b, then a's lock ends before b's begins, and b's unlock before a's. */
  lemma LocksNest(w: World, activity: Activity, ok: bool, a: Job, b: Job)
    requires LocksCarriedOut(w, activity) && !Cyclic(AllJobs(w.instances), activity) && LocksBefore(w, activity, a, b)
    ensures EndsBeforeBegins(LockTrace(w, activity), Lock(activity), a, b)
    ensures EndsBeforeBegins(UnlockTrace(w, activity, ok), Unlock(activity, ok), b, a)
  {
    var levels := Levels(w, activity);
    LevelsApart(w, activity, a, b);
    LockLogsValid(w, activity, ok);
    ValidIsBarred(levels, w.log(Lock(activity)));
    ValidIsBarred(Reversed(levels), w.log(Unlock(activity, ok)));
    BatchesSeparate(Lock(activity), levels, w.log(Lock(activity)), a, b);
    BatchesSeparate(Unlock(activity, ok), Reversed(levels), w.log(Unlock(activity, ok)), b, a);
  }

  // ---------------------------------------------------------------------------------------------
  // Removals

  lemma {:induction false} RemovalsMember(marked: set<nat>, n: nat)
    ensures OnlyRemovals(Removals(marked, n))
    ensures forall i: nat :: DirRemoved(i) in Removals(marked, n) <==> i < n && i in marked
  {
    if n > 0 {
      RemovalsMember(marked, n - 1);
    }
  }

  lemma {:induction false} NothingMarked(n: nat)
    ensures Removals({}, n) == []
  {
    if n > 0 {
      NothingMarked(n - 1);
    }
  }

  ghost function Removed(w: World, marked: set<nat>): set<nat> {
    set i | i in marked && !w.removeFails(i)
  }
}
