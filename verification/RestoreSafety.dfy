/** What every restore run does to the deployment, whatever fails and however the executors interleave. */
module RestoreSafety {
  import opened Sequences
  import opened Jobs
  import opened LockGraph
  import opened Deployment
  import opened Traces
  import opened Session
  import opened Locking
  import opened Workflow
  import opened RestoreRun

  /** All checks before the upload pass. */
  ghost predicate Permitted(w: World) {
    && BackupValid(w) && w.found
    && !RestoreNameFound(w) && AnyWith(w.instances, RestoreScript)
    && BackupDirectory.MatchesDeployment(w.metadata.value, Map(w.instances, NameOf))
    && !DirProblem(w, w.dirs)
    && !Cyclic(AllJobs(w.instances), Restoring)
  }

  ghost predicate LocksSucceed(w: World) {
    AllCallsSucceed(w, Lock(Restoring), AllJobs(w.instances))
  }

  // ---------------------------------------------------------------------------------------------
  // The trace of a run, part by part

  ghost function UploadPart(w: World): seq<TraceEvent> {
    CallTrace(w, Upload, UploadBatches(w))
  }

  ghost function LockPart(w: World): seq<TraceEvent> {
    if UploadsSucceed(w) then LockTrace(w, Restoring) else []
  }

  ghost function RestorePart(w: World): seq<TraceEvent> {
    if UploadsSucceed(w) && LocksSucceed(w) then RestoreTrace(w, |w.instances|).0 else []
  }

  ghost function UnlockPart(w: World): seq<TraceEvent> {
    if UploadsSucceed(w) then UnlockTrace(w, Restoring, false) else []
  }

  ghost function UntilLock(w: World): Parts {
    Then(Then(Nothing, Making(Upload), UploadPart(w)), Making(Lock(Restoring)), LockPart(w))
  }

  ghost function UntilUnlock(w: World): Parts {
    Then(Then(UntilLock(w), Making(RestoreCall), RestorePart(w)), Making(Unlock(Restoring, false)), UnlockPart(w))
  }

  ghost function RestoreParts(w: World): Parts {
    Then(UntilUnlock(w), Removing, Removals(MarkedByUploads(w, w.files), |w.instances|))
  }

  ghost function RestoreRunTrace(w: World): seq<TraceEvent> {
    if Permitted(w) then Whole(RestoreParts(w)) else []
  }

  lemma BeforeUnlockIs(w: World, s: State)
    requires !Cyclic(AllJobs(w.instances), Restoring) && UploadsSucceed(w)
    ensures BeforeUnlock(w, s) == s.(trace := Join(Join(s.trace, LockPart(w)), RestorePart(w)))
  {
    LevelsHoldAllJobs(w, Restoring);
  }

  lemma UnlockedIs(w: World, s: State)
    requires !Cyclic(AllJobs(w.instances), Restoring) && UploadsSucceed(w)
    ensures Unlocked(w, s).state == s.(trace := Join(s.trace, UnlockPart(w)))
  {
    LevelsHoldAllJobs(w, Restoring);
  }

  lemma WholeRestore(w: World)
    ensures Whole(RestoreParts(w)) ==
            Join(Join(Join(Join(UploadPart(w), LockPart(w)), RestorePart(w)), UnlockPart(w)),
                 Removals(MarkedByUploads(w, w.files), |w.instances|))
  {
    assert Whole(UntilLock(w).before) == UploadPart(w);
    assert Whole(UntilLock(w)) == Join(UploadPart(w), LockPart(w));
    assert Whole(UntilUnlock(w)) == Join(Join(Whole(UntilLock(w)), RestorePart(w)), UnlockPart(w));
  }

  lemma AfterCopyIs(w: World)
    requires Permitted(w)
    ensures AfterCopy(w).trace == RestoreRunTrace(w)
    ensures AfterCopy(w).dirs == w.dirs + MadeByUploads(w, w.files) - Removed(w, MarkedByUploads(w, w.files))
  {
    WholeRestore(w);
    var copied := Copied(w);
    assert copied.trace == UploadPart(w) && copied.marked == MarkedByUploads(w, w.files);
    if UploadsSucceed(w) {
      BeforeUnlockIs(w, copied);
      UnlockedIs(w, BeforeUnlock(w, copied));
    }
  }

  /** The artifact directories on the instances after a run. */
  ghost function DirsAfter(w: World): set<nat> {
    if Permitted(w) then w.dirs + MadeByUploads(w, w.files) - Removed(w, MarkedByUploads(w, w.files)) else w.dirs
  }

  /** RestoreRunTrace and DirsAfter are what a run leaves. */
  lemma RestoreTraceIs(w: World)
    ensures RestoreEnd(w).trace == RestoreRunTrace(w)
    ensures RestoreEnd(w).dirs == DirsAfter(w)
  {
    if Permitted(w) {
      AfterCopyIs(w);
    } else {
      NothingMarked(|w.instances|);
    }
  }

  /** ... every restore run, that is. */
  lemma RestoreRunLeaves(w: World, visits: seq<Visit>)
    requires IsRestoreRun(w, visits)
    ensures |visits| > 0
    ensures visits[|visits| - 1].after.trace == RestoreRunTrace(w)
    ensures visits[|visits| - 1].after.dirs == DirsAfter(w)
  {
    RestoreRunFacts(w, visits);
    RestoreTraceIs(w);
  }

  /** A run that is not permitted uploads, locks, restores, unlocks and removes nothing. */
  lemma UnpermittedTouchesNothing(w: World, visits: seq<Visit>)
    requires IsRestoreRun(w, visits) && !Permitted(w)
    ensures |visits| > 0
    ensures visits[|visits| - 1].after.trace == [] && visits[|visits| - 1].after.dirs == w.dirs
  {
    RestoreRunLeaves(w, visits);
  }

  // ---------------------------------------------------------------------------------------------
  // The restore scripts

  lemma {:induction false} JobsTraceIs(jobs: seq<Job>)
    ensures OnlyCalls(RestoreCall, JobsTrace(jobs)) && Begun(RestoreCall, JobsTrace(jobs)) == jobs
  {
    if jobs != [] {
      var init, last := jobs[..|jobs| - 1], jobs[|jobs| - 1];
      JobsTraceIs(init);
      var events := [CallBegan(RestoreCall, last), CallEnded(RestoreCall, last)];
      BegunConcat(RestoreCall, JobsTrace(init), events);
      assert events[..1] == [events[0]] && [events[0]][..0] == [];
      assert Begun(RestoreCall, events[..1]) == [last];
      assert Begun(RestoreCall, events) == [last];
    }
  }

  /** The jobs of the restorable ones among the first n instances. */
  function JobsToRestore(w: World, n: nat): seq<Job>
    requires n <= |w.instances|
  {
    JobList(JobsBeside(w.instances[..n], RestoreScript))
  }

  lemma JobsToRestoreStep(w: World, n: nat)
    requires 0 < n <= |w.instances|
    ensures JobsToRestore(w, n) ==
            JobsToRestore(w, n - 1) +
            if HasJobWith(RestoreScript, w.instances[n - 1]) then w.instances[n - 1].jobs else []
  {
    assert w.instances[..n][..n - 1] == w.instances[..n - 1];
    var jobs := w.instances[n - 1].jobs;
    MapConcat(JobsBeside(w.instances[..n - 1], RestoreScript),
              if HasJobWith(RestoreScript, w.instances[n - 1]) then PlacesOn(n - 1, jobs) else [], JobAt);
    assert Map(PlacesOn(n - 1, jobs), JobAt) == jobs;
  }

  /** The restore scripts run in the order of instances and jobs: all of them if none fails, otherwise those up to the
      end of the first instance with a failure. */
  lemma {:induction false} RestoresInOrder(w: World, n: nat)
    requires n <= |w.instances|
    ensures OnlyCalls(RestoreCall, RestoreTrace(w, n).0)
    ensures RestoreTrace(w, n).1 <==> AllCallsSucceed(w, RestoreCall, JobsToRestore(w, n))
    ensures RestoreTrace(w, n).1 ==> Begun(RestoreCall, RestoreTrace(w, n).0) == JobsToRestore(w, n)
    ensures !RestoreTrace(w, n).1 ==>
              exists m | 0 < m <= n ::
                && !AllCallsSucceed(w, RestoreCall, JobsToRestore(w, m))
                && AllCallsSucceed(w, RestoreCall, JobsToRestore(w, m - 1))
                && Begun(RestoreCall, RestoreTrace(w, n).0) == JobsToRestore(w, m)
  {
    if n > 0 {
      RestoresInOrder(w, n - 1);
      JobsToRestoreStep(w, n);
      var jobs := w.instances[n - 1].jobs;
      JobsTraceIs(jobs);
      BegunConcat(RestoreCall, RestoreTrace(w, n - 1).0, JobsTrace(jobs));
    }
  }

  // ---------------------------------------------------------------------------------------------
  // What the trace promises

  lemma UntilLockTagged(w: World)
    ensures Tagged(UntilLock(w)) && PhaseAfter(UntilLock(w)) == 2
  {
    TraceOfOnly(Upload, UploadBatches(w), w.log(Upload));
    TraceOfOnly(Lock(Restoring), Levels(w, Restoring), w.log(Lock(Restoring)));
    TaggedThen(Nothing, Upload, UploadPart(w));
    TaggedThen(Then(Nothing, Making(Upload), UploadPart(w)), Lock(Restoring), LockPart(w));
  }

  lemma UntilUnlockTagged(w: World)
    ensures Tagged(UntilUnlock(w)) && PhaseAfter(UntilUnlock(w)) == 4
  {
    UntilLockTagged(w);
    RestoresInOrder(w, |w.instances|);
    var unlock := Unlock(Restoring, false);
    TraceOfOnly(unlock, Reversed(Levels(w, Restoring)), w.log(unlock));
    TaggedThen(UntilLock(w), RestoreCall, RestorePart(w));
    TaggedThen(Then(UntilLock(w), Making(RestoreCall), RestorePart(w)), unlock, UnlockPart(w));
  }

  lemma RestoreTagged(w: World)
    ensures Tagged(RestoreParts(w))
  {
    UntilUnlockTagged(w);
    RemovalsMember(MarkedByUploads(w, w.files), |w.instances|);
  }

  /** A run goes through its phases in order: upload, lock, restore, unlock, remove directories. */
  lemma RestorePhases(w: World)
    ensures PhasesInOrder(RestoreRunTrace(w))
  {
    RestoreTagged(w);
    WholePhases(RestoreParts(w));
  }

  /** The part of the trace that makes the call. */
  ghost function PartOf(w: World, call: Call): seq<TraceEvent> {
    match call
    case Upload => UploadPart(w)
    case Lock(Restoring) => LockPart(w)
    case RestoreCall => RestorePart(w)
    case Unlock(Restoring, false) => UnlockPart(w)
    case _ => []
  }

  lemma PartOfIs(w: World, call: Call)
    ensures PartFor(RestoreParts(w), call) == PartOf(w, call)
  {
    var first, second := UntilLock(w), UntilUnlock(w);
    assert PartFor(first.before, call) == if call == Upload then UploadPart(w) else [];
    assert PartFor(first, call) == if call == Lock(Restoring) then LockPart(w) else PartFor(first.before, call);
    assert PartFor(second.before, call) == if call == RestoreCall then RestorePart(w) else PartFor(first, call);
    assert PartFor(second, call) ==
           if call == Unlock(Restoring, false) then UnlockPart(w) else PartFor(second.before, call);
  }

  lemma BegunInPart(w: World, call: Call)
    requires Permitted(w)
    ensures Begun(call, RestoreRunTrace(w)) == Begun(call, PartOf(w, call))
  {
    RestoreTagged(w);
    WholeBegun(RestoreParts(w), call);
    PartOfIs(w, call);
  }

  lemma OnceInPart(w: World, call: Call, jobs: seq<Job>)
    requires Permitted(w) && Once(call, PartOf(w, call), jobs)
    ensures Once(call, RestoreRunTrace(w), jobs)
  {
    BegunInPart(w, call);
  }

  lemma OrderedInPart(w: World, call: Call, x: Job, y: Job)
    requires Permitted(w) && EndsBeforeBegins(PartOf(w, call), call, x, y)
    ensures EndsBeforeBegins(RestoreRunTrace(w), call, x, y)
  {
    RestoreTagged(w);
    PartOfIs(w, call);
    WholeOrdered(RestoreParts(w), call, x, y);
  }

  /** No restore script runs unless the backup is valid and matches the deployment, every upload arrived intact and
      every lock succeeded; then they run in order up to the first instance with a failure. */
  lemma RestoreIsGuarded(w: World)
    ensures Begun(RestoreCall, RestoreRunTrace(w)) != [] ==> Permitted(w) && UploadsSucceed(w) && LocksSucceed(w)
    ensures Permitted(w) && UploadsSucceed(w) && LocksSucceed(w) ==>
              Begun(RestoreCall, RestoreRunTrace(w)) == Begun(RestoreCall, RestoreTrace(w, |w.instances|).0)
  {
    if Permitted(w) {
      BegunInPart(w, RestoreCall);
    }
  }

  /** Jobs are locked only when every upload arrived intact, and then each once ... */
  lemma RestoreLocksEachOnce(w: World)
    requires LocksCarriedOut(w, Restoring) && Permitted(w)
    ensures Once(Lock(Restoring), RestoreRunTrace(w), if UploadsSucceed(w) then AllJobs(w.instances) else [])
  {
    if UploadsSucceed(w) {
      LocksEachOnce(w, Restoring, false);
      OnceInPart(w, Lock(Restoring), AllJobs(w.instances));
    } else {
      OnceInPart(w, Lock(Restoring), []);
    }
  }

  /** ... and then each job is unlocked once. */
  lemma RestoreUnlocksEachOnce(w: World)
    requires LocksCarriedOut(w, Restoring) && Permitted(w)
    ensures Once(Unlock(Restoring, false), RestoreRunTrace(w), if UploadsSucceed(w) then AllJobs(w.instances) else [])
  {
    if UploadsSucceed(w) {
      LocksEachOnce(w, Restoring, false);
      OnceInPart(w, Unlock(Restoring, false), AllJobs(w.instances));
    } else {
      OnceInPart(w, Unlock(Restoring, false), []);
    }
  }

  /** Over the whole run, if a must be locked before b then a's lock ends before b's begins ... */
  lemma RestoreLocksNest(w: World, a: Job, b: Job)
    requires LocksCarriedOut(w, Restoring) && LocksBefore(w, Restoring, a, b)
    ensures EndsBeforeBegins(RestoreRunTrace(w), Lock(Restoring), a, b)
  {
    if Permitted(w) {
      LocksNest(w, Restoring, false, a, b);
      OrderedInPart(w, Lock(Restoring), a, b);
    }
  }

  /** ... and b's unlock ends before a's begins. */
  lemma RestoreUnlocksNest(w: World, a: Job, b: Job)
    requires LocksCarriedOut(w, Restoring) && LocksBefore(w, Restoring, a, b)
    ensures EndsBeforeBegins(RestoreRunTrace(w), Unlock(Restoring, false), b, a)
  {
    if Permitted(w) {
      LocksNest(w, Restoring, false, a, b);
      OrderedInPart(w, Unlock(Restoring, false), b, a);
    }
  }

  lemma MarkedIsMade(w: World, i: nat)
    ensures i in MarkedByUploads(w, w.files) ==> i in MadeByUploads(w, w.files)
    ensures i in MadeByUploads(w, w.files) ==> i < |w.instances|
  {
    if i in MadeByUploads(w, w.files) {
      var p :| p in JobsWith(w.instances, RestoreScript) && MakesDirectoryAt(w, w.files, p) && p.instance == i;
      JobsWithMember(w.instances, RestoreScript, p);
    }
    if i in MarkedByUploads(w, w.files) {
      var p :| p in JobsWith(w.instances, RestoreScript) && MarksAt(w, w.files, p) && p.instance == i;
      assert MakesDirectoryAt(w, w.files, p);
    }
  }

  lemma RemovedInTrace(w: World, i: nat)
    requires Permitted(w)
    ensures DirRemoved(i) in RestoreRunTrace(w) <==> i in MarkedByUploads(w, w.files)
  {
    RestoreTagged(w);
    WholeRemovals(RestoreParts(w), i);
    RemovalsMember(MarkedByUploads(w, w.files), |w.instances|);
    MarkedIsMade(w, i);
  }

  /** A removal is never aimed at a directory that existed before the run. */
  lemma RestoreSparesOthers(w: World, i: nat)
    ensures DirRemoved(i) in RestoreRunTrace(w) ==> i !in w.dirs
    ensures i in w.dirs ==> i in DirsAfter(w)
  {
    if Permitted(w) {
      RemovedInTrace(w, i);
      MarkedIsMade(w, i);
    }
  }

  /** A directory that the run made is removed exactly when some upload to that instance was copied completely: the
      instance is marked only then.  Otherwise the directory stays behind, and so it does when its removal fails. */
  lemma RestoreCleansUpExactly(w: World, i: nat)
    requires Permitted(w) && i in MadeByUploads(w, w.files)
    ensures DirRemoved(i) in RestoreRunTrace(w) <==>
            exists p | p in JobsWith(w.instances, RestoreScript) && p.instance == i :: MarksAt(w, w.files, p)
    ensures i in DirsAfter(w) <==> DirRemoved(i) !in RestoreRunTrace(w) || w.removeFails(i)
  {
    RemovedInTrace(w, i);
    MarkedIsMade(w, i);
    assert i !in w.dirs;
  }
}
