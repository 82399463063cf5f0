/** What every backup run does to the deployment, whatever fails and however the executors interleave. */
module BackupSafety {
  import opened Sequences
  import opened Jobs
  import opened LockGraph
  import opened DrainLog
  import opened Deployment
  import opened Traces
  import opened Session
  import opened Locking
  import opened Workflow
  import opened BackupRun

  // ---------------------------------------------------------------------------------------------
  // The trace of a run, part by part

  ghost function LockPart(w: World, lockFree: bool): seq<TraceEvent> {
    if lockFree then [] else LockTrace(w, Backing)
  }

  ghost function BackUpPart(w: World, lockFree: bool): seq<TraceEvent> {
    if LocksSucceed(w, lockFree) then CallTrace(w, BackUp, BackupBatches(w)) else []
  }

  ghost function UnlockPart(w: World, lockFree: bool): seq<TraceEvent> {
    if lockFree then [] else UnlockTrace(w, Backing, Successful(w, lockFree))
  }

  ghost function DownloadPart(w: World, lockFree: bool): seq<TraceEvent> {
    if Successful(w, lockFree) then DownloadTrace(w, FirstMetadata(w)) else []
  }

  /** The instances marked as having an artifact directory when cleanup comes. */
  ghost function Marked(w: World, lockFree: bool): set<nat> {
    if Ready(w) && LocksSucceed(w, lockFree) then With(w.instances, BackupScript) else {}
  }

  ghost function UntilBackUp(w: World, lockFree: bool): Parts {
    Then(Then(Nothing, Making(Lock(Backing)), LockPart(w, lockFree)), Making(BackUp), BackUpPart(w, lockFree))
  }

  ghost function UntilDownload(w: World, lockFree: bool): Parts {
    Then(Then(UntilBackUp(w, lockFree), Making(Unlock(Backing, Successful(w, lockFree))), UnlockPart(w, lockFree)),
         Making(Download), DownloadPart(w, lockFree))
  }

  ghost function BackupParts(w: World, lockFree: bool): Parts {
    Then(UntilDownload(w, lockFree), Removing, Removals(Marked(w, lockFree), |w.instances|))
  }

  ghost function BackupTrace(w: World, lockFree: bool): seq<TraceEvent> {
    if Ready(w) then Whole(BackupParts(w, lockFree)) else []
  }

  /** The artifact directories on the instances after a run. */
  ghost function DirsAfter(w: World, lockFree: bool): set<nat> {
    w.dirs + (if Ready(w) && LocksSucceed(w, lockFree) then MadeByBackup(w) else {}) - Removed(w, Marked(w, lockFree))
  }

  // ---------------------------------------------------------------------------------------------
  // A run leaves this trace

  lemma AfterCleanUpIs(w: World, s: State)
    ensures AfterCleanUp(w, s).trace == Join(s.trace, Removals(s.marked, |w.instances|))
    ensures AfterCleanUp(w, s).dirs == s.dirs - Removed(w, s.marked)
  {
  }

  lemma UnlockResultIs(w: World, lockFree: bool, ok: bool, s: State)
    requires !Cyclic(AllJobs(w.instances), Backing)
    ensures UnlockResult(w, lockFree, ok, s).state ==
            s.(trace := Join(s.trace, if lockFree then [] else UnlockTrace(w, Backing, ok)))
  {
    LevelsHoldAllJobs(w, Backing);
  }

  lemma AfterUnlockIs(w: World, lockFree: bool, ok: bool, s: State)
    requires !Cyclic(AllJobs(w.instances), Backing)
    ensures var unlock := if lockFree then [] else UnlockTrace(w, Backing, ok);
            var download := if ok then DownloadTrace(w, s.metadata) else [];
            AfterUnlock(w, lockFree, ok, s).trace ==
            Join(Join(Join(s.trace, unlock), download), Removals(s.marked, |w.instances|))
  {
    UnlockResultIs(w, lockFree, ok, s);
    var unlocked := UnlockResult(w, lockFree, ok, s).state;
    AfterCleanUpIs(w, if ok then RunDrain(w, unlocked).state else unlocked);
  }

  lemma DirsAfterUnlock(w: World, lockFree: bool, ok: bool, s: State)
    ensures AfterUnlock(w, lockFree, ok, s).dirs == s.dirs - Removed(w, s.marked)
  {
    var unlocked := UnlockResult(w, lockFree, ok, s).state;
    AfterCleanUpIs(w, if ok then RunDrain(w, unlocked).state else unlocked);
  }

  lemma LockResultIs(w: World, lockFree: bool, s: State)
    requires !Cyclic(AllJobs(w.instances), Backing)
    ensures LockResult(w, lockFree, s).state.trace == Join(s.trace, LockPart(w, lockFree))
    ensures LockResult(w, lockFree, s).error.None? <==> LocksSucceed(w, lockFree)
  {
    LevelsHoldAllJobs(w, Backing);
  }

  /** What the session holds when the unlock step is reached. */
  ghost function BeforeUnlock(w: World, lockFree: bool, s: State): State {
    var locked := LockResult(w, lockFree, s).state;
    if LocksSucceed(w, lockFree) then RunBackup(w, locked).state else locked
  }

  lemma BeforeUnlockIs(w: World, lockFree: bool, s: State)
    requires !Cyclic(AllJobs(w.instances), Backing) && s.trace == []
    ensures BeforeUnlock(w, lockFree, s).trace == Join(LockPart(w, lockFree), BackUpPart(w, lockFree))
  {
    LockResultIs(w, lockFree, s);
  }

  lemma MarkedBeforeUnlock(w: World, lockFree: bool, s: State)
    requires Ready(w) && s.marked == {}
    ensures BeforeUnlock(w, lockFree, s).marked == Marked(w, lockFree)
    ensures BeforeUnlock(w, lockFree, s).metadata == s.metadata
    ensures BeforeUnlock(w, lockFree, s).dirs == s.dirs + if LocksSucceed(w, lockFree) then MadeByBackup(w) else {}
  {
  }

  lemma ReachesUnlock(w: World, lockFree: bool, s: State)
    requires !Cyclic(AllJobs(w.instances), Backing)
    ensures AfterLock(w, lockFree, s) == AfterUnlock(w, lockFree, Successful(w, lockFree), BeforeUnlock(w, lockFree, s))
  {
    LockResultIs(w, lockFree, s);
  }

  lemma WholeBackup(w: World, lockFree: bool)
    ensures Whole(BackupParts(w, lockFree)) ==
            Join(Join(Join(Join(LockPart(w, lockFree), BackUpPart(w, lockFree)), UnlockPart(w, lockFree)),
                      DownloadPart(w, lockFree)), Removals(Marked(w, lockFree), |w.instances|))
  {
    assert Whole(UntilBackUp(w, lockFree).before) == LockPart(w, lockFree);
    assert Whole(UntilBackUp(w, lockFree)) == Join(LockPart(w, lockFree), BackUpPart(w, lockFree));
    assert Whole(UntilDownload(w, lockFree)) ==
           Join(Join(Whole(UntilBackUp(w, lockFree)), UnlockPart(w, lockFree)), DownloadPart(w, lockFree));
  }

  lemma AfterLockIs(w: World, lockFree: bool)
    requires Ready(w)
    ensures AfterLock(w, lockFree, Created(w)).trace == BackupTrace(w, lockFree)
    ensures AfterLock(w, lockFree, Created(w)).dirs == DirsAfter(w, lockFree)
  {
    var before := BeforeUnlock(w, lockFree, Created(w));
    BeforeUnlockIs(w, lockFree, Created(w));
    MarkedBeforeUnlock(w, lockFree, Created(w));
    ReachesUnlock(w, lockFree, Created(w));
    AfterUnlockIs(w, lockFree, Successful(w, lockFree), before);
    DirsAfterUnlock(w, lockFree, Successful(w, lockFree), before);
    WholeBackup(w, lockFree);
  }

  /** BackupTrace and DirsAfter are what a run leaves. */
  lemma BackupTraceIs(w: World, lockFree: bool)
    ensures BackupEnd(w, lockFree).trace == BackupTrace(w, lockFree)
    ensures BackupEnd(w, lockFree).dirs == DirsAfter(w, lockFree)
  {
    if Ready(w) {
      AfterLockIs(w, lockFree);
    } else {
      NothingMarked(|w.instances|);
      AfterCleanUpIs(w, Found(w));
      AfterCleanUpIs(w, Created(w));
    }
  }

  /** ... every backup run, that is. */
  lemma BackupRunLeaves(w: World, lockFree: bool, visits: seq<Visit>)
    requires IsBackupRun(w, lockFree, visits)
    ensures |visits| > 0
    ensures visits[|visits| - 1].after.trace == BackupTrace(w, lockFree)
    ensures visits[|visits| - 1].after.dirs == DirsAfter(w, lockFree)
  {
    BackupRunFacts(w, lockFree, visits);
    BackupTraceIs(w, lockFree);
  }

  /** A run on cyclic constraints, and any other run that fails a check, begins no call and changes no directory. */
  lemma UnreadyTouchesNothing(w: World, lockFree: bool, visits: seq<Visit>)
    requires IsBackupRun(w, lockFree, visits) && !Ready(w)
    ensures |visits| > 0
    ensures visits[|visits| - 1].after.trace == [] && visits[|visits| - 1].after.dirs == w.dirs
  {
    BackupRunLeaves(w, lockFree, visits);
  }

  // ---------------------------------------------------------------------------------------------
  // What the trace promises

  lemma UntilBackUpTagged(w: World, lockFree: bool)
    ensures Tagged(UntilBackUp(w, lockFree)) && PhaseAfter(UntilBackUp(w, lockFree)) == 3
  {
    TraceOfOnly(Lock(Backing), Levels(w, Backing), w.log(Lock(Backing)));
    TraceOfOnly(BackUp, BackupBatches(w), w.log(BackUp));
    TaggedThen(Nothing, Lock(Backing), LockPart(w, lockFree));
    TaggedThen(Then(Nothing, Making(Lock(Backing)), LockPart(w, lockFree)), BackUp, BackUpPart(w, lockFree));
  }

  lemma UntilDownloadTagged(w: World, lockFree: bool)
    ensures Tagged(UntilDownload(w, lockFree)) && PhaseAfter(UntilDownload(w, lockFree)) == 5
  {
    UntilBackUpTagged(w, lockFree);
    var unlock := Unlock(Backing, Successful(w, lockFree));
    TraceOfOnly(unlock, Reversed(Levels(w, Backing)), w.log(unlock));
    TraceOfOnly(Download, DownloadBatches(w), DownloadLog(w, FirstMetadata(w)));
    TaggedThen(UntilBackUp(w, lockFree), unlock, UnlockPart(w, lockFree));
    TaggedThen(Then(UntilBackUp(w, lockFree), Making(unlock), UnlockPart(w, lockFree)), Download,
               DownloadPart(w, lockFree));
  }

  lemma BackupTagged(w: World, lockFree: bool)
    ensures Tagged(BackupParts(w, lockFree))
  {
    UntilDownloadTagged(w, lockFree);
    RemovalsMember(Marked(w, lockFree), |w.instances|);
  }

  /** A run goes through its phases in order: lock, back up, unlock, download, remove directories. */
  lemma BackupPhases(w: World, lockFree: bool)
    ensures PhasesInOrder(BackupTrace(w, lockFree))
  {
    BackupTagged(w, lockFree);
    WholePhases(BackupParts(w, lockFree));
  }

  /** The part of the trace that makes the call. */
  ghost function PartOf(w: World, lockFree: bool, call: Call): seq<TraceEvent> {
    match call
    case Lock(Backing) => LockPart(w, lockFree)
    case BackUp => BackUpPart(w, lockFree)
    case Unlock(Backing, ok) => if ok == Successful(w, lockFree) then UnlockPart(w, lockFree) else []
    case Download => DownloadPart(w, lockFree)
    case _ => []
  }

  lemma PartOfIs(w: World, lockFree: bool, call: Call)
    ensures PartFor(BackupParts(w, lockFree), call) == PartOf(w, lockFree, call)
  {
    var first, second := UntilBackUp(w, lockFree), UntilDownload(w, lockFree);
    assert PartFor(first.before, call) == if call == Lock(Backing) then LockPart(w, lockFree) else [];
    assert PartFor(first, call) == if call == BackUp then BackUpPart(w, lockFree) else PartFor(first.before, call);
    assert PartFor(second.before, call) ==
           if call == Unlock(Backing, Successful(w, lockFree)) then UnlockPart(w, lockFree) else PartFor(first, call);
    assert PartFor(second, call) ==
           if call == Download then DownloadPart(w, lockFree) else PartFor(second.before, call);
  }

  lemma BegunInPart(w: World, lockFree: bool, call: Call)
    requires Ready(w)
    ensures Begun(call, BackupTrace(w, lockFree)) == Begun(call, PartOf(w, lockFree, call))
  {
    BackupTagged(w, lockFree);
    WholeBegun(BackupParts(w, lockFree), call);
    PartOfIs(w, lockFree, call);
  }

  lemma OnceInPart(w: World, lockFree: bool, call: Call, jobs: seq<Job>)
    requires Ready(w) && Once(call, PartOf(w, lockFree, call), jobs)
    ensures Once(call, BackupTrace(w, lockFree), jobs)
  {
    BegunInPart(w, lockFree, call);
  }

  lemma OrderedInPart(w: World, lockFree: bool, call: Call, x: Job, y: Job)
    requires Ready(w) && EndsBeforeBegins(PartOf(w, lockFree, call), call, x, y)
    ensures EndsBeforeBegins(BackupTrace(w, lockFree), call, x, y)
  {
    BackupTagged(w, lockFree);
    PartOfIs(w, lockFree, call);
    WholeOrdered(BackupParts(w, lockFree), call, x, y);
  }

  /** Once a run with locking begins to lock, it locks every job once ... */
  lemma BackupLocksEachOnce(w: World)
    requires LocksCarriedOut(w, Backing) && Ready(w)
    ensures Once(Lock(Backing), BackupTrace(w, false), AllJobs(w.instances))
  {
    LocksEachOnce(w, Backing, true);
    BegunInPart(w, false, Lock(Backing));
  }

  /** ... and unlocks every job once, telling it whether every lock and every backup succeeded. */
  lemma BackupUnlocksEachOnce(w: World, ok: bool)
    requires LocksCarriedOut(w, Backing) && Ready(w)
    ensures Once(Unlock(Backing, ok), BackupTrace(w, false),
                 if ok == Successful(w, false) then AllJobs(w.instances) else [])
  {
    if ok == Successful(w, false) {
      LocksEachOnce(w, Backing, ok);
      OnceInPart(w, false, Unlock(Backing, ok), AllJobs(w.instances));
    } else {
      OnceInPart(w, false, Unlock(Backing, ok), []);
    }
  }

  /** Without locking no job is locked or unlocked. */
  lemma LockFreeBackup(w: World, ok: bool)
    ensures Begun(Lock(Backing), BackupTrace(w, true)) == []
    ensures Begun(Unlock(Backing, ok), BackupTrace(w, true)) == []
  {
    if Ready(w) {
      BegunInPart(w, true, Lock(Backing));
      BegunInPart(w, true, Unlock(Backing, ok));
    }
  }

  /** Jobs are backed up only if every lock succeeded, and then each once. */
  lemma BackupRunsEachOnce(w: World, lockFree: bool)
    requires CarriedOut(w, BackUp, BackupBatches(w)) && Ready(w)
    ensures Once(BackUp, BackupTrace(w, lockFree),
                 if LocksSucceed(w, lockFree) then JobList(JobsBeside(w.instances, BackupScript)) else [])
  {
    BegunInPart(w, lockFree, BackUp);
    if LocksSucceed(w, lockFree) {
      CarriedOutIsValid(w, BackUp, BackupBatches(w));
      BegunOnEach(BackUp, BackupBatches(w), w.log(BackUp));
      FlattenOne(JobList(JobsBeside(w.instances, BackupScript)));
    }
  }

  /** Artifacts are downloaded only if every lock and every backup succeeded, and then each once. */
  lemma DownloadsEachOnce(w: World, lockFree: bool)
    requires |w.remote| == |KeysToBackup(w.instances)| && Settled(Drained(w, FirstMetadata(w))) && Ready(w)
    ensures Once(Download, BackupTrace(w, lockFree),
                 if Successful(w, lockFree) then JobList(JobsWith(w.instances, BackupScript)) else [])
  {
    if Successful(w, lockFree) {
      DownloadTraceEachOnce(w);
      OnceInPart(w, lockFree, Download, JobList(JobsWith(w.instances, BackupScript)));
    } else {
      OnceInPart(w, lockFree, Download, []);
    }
  }

  lemma DownloadTraceEachOnce(w: World)
    requires |w.remote| == |KeysToBackup(w.instances)| && Settled(Drained(w, FirstMetadata(w)))
    ensures Once(Download, DownloadTrace(w, FirstMetadata(w)), JobList(JobsWith(w.instances, BackupScript)))
  {
    var jobs := JobList(JobsWith(w.instances, BackupScript));
    SettledLogIsValid(jobs, KeysToBackup(w.instances), w.remote, FirstMetadata(w), w.moves);
    BegunOnEach(Download, [jobs], DownloadLog(w, FirstMetadata(w)));
    FlattenOne(jobs);
  }

  lemma FlattenOne<T>(s: seq<T>)
    ensures Flatten([s]) == s
  {
    assert [s][..0] == [];
  }

  /** Over the whole run, if a must be locked before b then a's lock ends before b's begins ... */
  lemma BackupLocksNest(w: World, lockFree: bool, a: Job, b: Job)
    requires LocksCarriedOut(w, Backing) && LocksBefore(w, Backing, a, b)
    ensures EndsBeforeBegins(BackupTrace(w, lockFree), Lock(Backing), a, b)
  {
    if Ready(w) {
      LocksNest(w, Backing, true, a, b);
      OrderedInPart(w, lockFree, Lock(Backing), a, b);
    }
  }

  /** ... and b's unlock ends before a's begins. */
  lemma BackupUnlocksNest(w: World, lockFree: bool, ok: bool, a: Job, b: Job)
    requires LocksCarriedOut(w, Backing) && LocksBefore(w, Backing, a, b)
    ensures EndsBeforeBegins(BackupTrace(w, lockFree), Unlock(Backing, ok), b, a)
  {
    if Ready(w) {
      LocksNest(w, Backing, ok, a, b);
      OrderedInPart(w, lockFree, Unlock(Backing, ok), b, a);
    }
  }

  // ---------------------------------------------------------------------------------------------
  // Directories

  lemma MadeIsMarked(w: World, i: nat)
    ensures i in MadeByBackup(w) ==> i < |w.instances| && i in With(w.instances, BackupScript)
  {
    if i in MadeByBackup(w) {
      var p :| p in JobsWith(w.instances, BackupScript) && w.makesDir(p) && p.instance == i;
      JobsWithMember(w.instances, BackupScript, p);
    }
  }

  /** A removal is aimed at exactly the marked instances. */
  lemma RemovedInBackup(w: World, lockFree: bool, i: nat)
    requires Ready(w)
    ensures DirRemoved(i) in BackupTrace(w, lockFree) <==> i < |w.instances| && i in Marked(w, lockFree)
  {
    BackupTagged(w, lockFree);
    WholeRemovals(BackupParts(w, lockFree), i);
    RemovalsMember(Marked(w, lockFree), |w.instances|);
  }

  /** A removal is never aimed at a directory that existed before the run. */
  lemma BackupSparesOthers(w: World, lockFree: bool, i: nat)
    ensures DirRemoved(i) in BackupTrace(w, lockFree) ==> i !in w.dirs
    ensures i in w.dirs ==> i in DirsAfter(w, lockFree)
  {
    if Ready(w) {
      RemovedInBackup(w, lockFree, i);
    }
  }

  /** Once backup scripts were begun, a removal is aimed at every directory the run made, whichever of them failed. */
  lemma BackupCleansUpItsOwn(w: World, lockFree: bool, i: nat)
    requires Begun(BackUp, BackupTrace(w, lockFree)) != [] && i in MadeByBackup(w)
    ensures DirRemoved(i) in BackupTrace(w, lockFree)
  {
    MadeIsMarked(w, i);
    RemovedInBackup(w, lockFree, i);
    BegunInPart(w, lockFree, BackUp);
  }

  /** Only a removal that fails leaves a directory behind. */
  lemma BackupLeavesBehind(w: World, lockFree: bool, i: nat)
    ensures i in DirsAfter(w, lockFree) <==>
            i in w.dirs || (Ready(w) && LocksSucceed(w, lockFree) && i in MadeByBackup(w) && w.removeFails(i))
  {
    MadeIsMarked(w, i);
  }
}
